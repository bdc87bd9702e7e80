/** Properties that relate several calls of `Get`. */
module GetterProperties {
  import opened ImageContent
  import opened ContentGetter
  import DockerfileMigration

  /** Serving the same request again against the store the first call left behind returns the same
      outcome and leaves the store as it was: the Dockerfile migration converges after one read. */
  lemma {:induction false} GetConverges(env: Env, w: World, req: Request)
    ensures var first := Get(env, w, req);
            var second := Get(env, w.(store := first.store), req);
            second.outcome == first.outcome && second.store == first.store
  {
    var first := Get(env, w, req);
    var w' := w.(store := first.store);
    if first.store != w.store {
      var rk := RecordKey(req.imageDigest, req.accountId);
      var rec := w.records[rk];
      var ct := req.variant.contentType;
      var key := ContentKey(req);
      var doc := w.store[key].document.fields;
      var wk := DockerfileMigration.MigrationKey(req.accountId, rec);
      DockerfileMigration.HydrateDockerfileConverges(env, req.accountId, ct, doc, rec, w.store, w.storeAcceptsWrites);
      if key == wk {
        assert w'.store[key].document == first.store[wk].document;
      } else {
        assert w'.store[key] == w.store[key];
      }
    }
  }
}
