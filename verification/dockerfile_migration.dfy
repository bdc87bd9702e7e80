/** The Dockerfile getter's post-processing hook: formatting plus the best-effort migration of a
    legacy base64 Dockerfile from the image record into the stored content document. */
module DockerfileMigration {
  import opened Wrappers
  import opened JsonValues
  import opened ImageContent

  const DockerfileKey: string := "dockerfile"
  const ActualMode: string := "Actual"

  /** The hook's return value, the object store afterwards, and the `put` it attempted, if any. */
  datatype Hydrated = Hydrated(value: Json, store: Store, trace: seq<Access>)

  /** `image_detail.get("dockerfile", None)` is truthy. */
  predicate HasLegacyDockerfile(d: ImageDetail)
  {
    d.dockerfile.Some? && |d.dockerfile.value| > 0
  }

  /** `image_content_data.get("dockerfile", None)` is truthy. */
  predicate HasDockerfile(doc: Document)
  {
    DockerfileKey in doc && Truthy(doc[DockerfileKey])
  }

  /** The index of the first entry at or after `from` that carries a legacy Dockerfile body. */
  function FirstLegacyDockerfile(details: seq<ImageDetail>, from: nat): (r: Option<nat>)
    requires from <= |details|
    ensures r.Some? ==> from <= r.value < |details| && HasLegacyDockerfile(details[r.value])
    ensures r.Some? ==> forall j :: from <= j < r.value ==> !HasLegacyDockerfile(details[j])
    ensures r.None? ==> forall j :: from <= j < |details| ==> !HasLegacyDockerfile(details[j])
    decreases |details| - from
  {
    if from == |details| then None
    else if HasLegacyDockerfile(details[from]) then Some(from)
    else FirstLegacyDockerfile(details, from + 1)
  }

  /** Entry `i` is the first one that carries a legacy Dockerfile body. */
  predicate IsFirstLegacy(details: seq<ImageDetail>, i: int)
  {
    && 0 <= i < |details|
    && HasLegacyDockerfile(details[i])
    && forall j :: 0 <= j < i ==> !HasLegacyDockerfile(details[j])
  }

  /** The decoded text of the record's first legacy Dockerfile body; `None` when no entry carries
      one or when decoding it fails. Later entries are never tried. */
  function LegacyDockerfileText(env: Env, rec: ImageRecord): (t: Option<string>)
    ensures (forall i :: !IsFirstLegacy(rec.imageDetails, i)) ==> t.None?
    ensures forall i :: IsFirstLegacy(rec.imageDetails, i) ==> t == env.decode(rec.imageDetails[i].dockerfile.value)
  {
    match FirstLegacyDockerfile(rec.imageDetails, 0)
    case None => None
    case Some(i) =>
      assert IsFirstLegacy(rec.imageDetails, i);
      env.decode(rec.imageDetails[i].dockerfile.value)
  }

  /** Where the migrated document is written: the primary content bucket, under the digest
      the image record itself carries. */
  function MigrationKey(accountId: string, rec: ImageRecord): ObjectKey
  {
    ObjectKey(accountId, ImageContentData, rec.imageDigest)
  }

  /** `migrated` is `doc` with only its "dockerfile" entry set to `text`. */
  ghost predicate MigratedFrom(migrated: Document, doc: Document, text: string)
  {
    && migrated.Keys == doc.Keys + {DockerfileKey}
    && migrated[DockerfileKey] == JStr(text)
    && forall k :: k in doc && k != DockerfileKey ==> migrated[k] == doc[k]
  }

  /** A migration is attempted exactly when the document has no truthy "dockerfile" entry,
      the record's Dockerfile was captured as "Actual", and a legacy body decodes. */
  predicate MigrationAttempted(env: Env, doc: Document, rec: ImageRecord)
  {
    !HasDockerfile(doc) && rec.dockerfileMode == Some(ActualMode) && LegacyDockerfileText(env, rec).Some?
  }

  /** `ImageDockerfileContentGetter.hydrate_additional_data`. A failed decode or a rejected `put`
      is swallowed: the in-memory assignment made before the `put` still shapes the result. */
  function HydrateDockerfile(env: Env, accountId: string, contentType: string, doc: Document,
                             rec: ImageRecord, store: Store, writable: bool): (h: Hydrated)
    requires contentType in doc
    // no migration: the document already has a Dockerfile or the record's was not captured as "Actual"
    ensures HasDockerfile(doc) || rec.dockerfileMode != Some(ActualMode) ==>
              h == Hydrated(env.format(contentType, doc[contentType]), store, [])
    // at most one put, always of the primary content bucket under the record's own digest
    ensures |h.trace| <= 1
    ensures h.trace != [] <==> MigrationAttempted(env, doc, rec)
    ensures h.trace != [] ==> h.trace == [Write(MigrationKey(accountId, rec))]
    // the store changes only by the accepted put, and only at the migration key
    ensures h.store == store ||
              (writable && h.trace != [] && MigrationKey(accountId, rec) in h.store &&
               h.store == store[MigrationKey(accountId, rec) := h.store[MigrationKey(accountId, rec)]])
    ensures h.trace != [] && writable ==>
              var k := MigrationKey(accountId, rec);
              k in h.store && h.store[k].Envelope? && h.store[k].document.JObj? &&
              MigratedFrom(h.store[k].document.fields, doc, LegacyDockerfileText(env, rec).value)
    ensures !writable ==> h.store == store
    // the result formats the requested entry as it stands after any in-memory assignment
    ensures h.value == env.format(contentType,
              if contentType == DockerfileKey && h.trace != [] then JStr(LegacyDockerfileText(env, rec).value)
              else doc[contentType])
  {
    if HasDockerfile(doc) then
      Hydrated(env.format(contentType, doc[contentType]), store, [])
    else if rec.dockerfileMode != Some(ActualMode) then
      Hydrated(env.format(contentType, doc[contentType]), store, [])
    else
      match LegacyDockerfileText(env, rec)
      case None => Hydrated(env.format(contentType, doc[contentType]), store, [])
      case Some(text) =>
        var migrated := doc[DockerfileKey := JStr(text)];
        var key := MigrationKey(accountId, rec);
        var store' := if writable then store[key := Envelope(JObj(migrated))] else store;
        Hydrated(env.format(contentType, migrated[contentType]), store', [Write(key)])
  }

  /** Running the hook again on what the first run left behind gives the same value and leaves the
      store as the first run left it, whether or not the record's digest is the key that was read. */
  lemma {:induction false} HydrateDockerfileConverges(env: Env, accountId: string, contentType: string,
                                                      doc: Document, rec: ImageRecord, store: Store, writable: bool)
    requires contentType in doc
    ensures var first := HydrateDockerfile(env, accountId, contentType, doc, rec, store, writable);
            var k := MigrationKey(accountId, rec);
            var doc' := if first.trace != [] && writable then first.store[k].document.fields else doc;
            contentType in doc' &&
            var second := HydrateDockerfile(env, accountId, contentType, doc', rec, first.store, writable);
            second.value == first.value && second.store == first.store
  {
    var first := HydrateDockerfile(env, accountId, contentType, doc, rec, store, writable);
    if first.trace != [] && writable {
      var k := MigrationKey(accountId, rec);
      var text := LegacyDockerfileText(env, rec).value;
      var doc' := first.store[k].document.fields;
      assert doc' == doc[DockerfileKey := JStr(text)];
      assert contentType in doc';
      var second := HydrateDockerfile(env, accountId, contentType, doc', rec, first.store, writable);
      if HasDockerfile(doc') {
        assert second.value == env.format(contentType, doc'[contentType]);
      } else {
        assert doc'[DockerfileKey := JStr(text)] == doc';
        assert first.store[k := Envelope(JObj(doc'))] == first.store;
      }
    }
  }
}
