/** The multi-type getter: a projection of the content document onto the supported content types
    the caller asked for, matched case-insensitively, with "all" as a wildcard. */
module MultipleContentTypes {
  import opened Wrappers
  import opened JsonValues
  import opened Text
  import opened ImageContent

  const AllTypes: string := "all"

  /** The constructor's `content_types` attribute: the lower-cased request, or unset (`None`)
      when the requested list is empty. */
  function SelectContentTypes(contentTypes: seq<string>): (sel: Option<seq<string>>)
    ensures sel.None? <==> |contentTypes| == 0
    ensures sel.Some? ==> |sel.value| == |contentTypes|
    ensures sel.Some? ==> forall i :: 0 <= i < |contentTypes| ==> sel.value[i] == Lower(contentTypes[i])
  {
    if |contentTypes| > 0 then Some(LowerAll(contentTypes)) else None
  }

  /** `_is_content_type_match` against an already lower-cased request. Only a non-empty supported
      type can match; with "all" requested every such type does, otherwise only one the request names. */
  function IsContentTypeMatch(env: Env, requested: seq<string>, contentType: string): (r: bool)
    ensures r ==> |contentType| > 0 && contentType in env.supported
    ensures AllTypes in requested ==> (r <==> |contentType| > 0 && contentType in env.supported)
    ensures r ==> AllTypes in requested || exists i :: 0 <= i < |requested| && requested[i] == Lower(contentType)
  {
    if |contentType| == 0 || contentType !in env.supported then false
    else if AllTypes in requested then true
    else Lower(contentType) in requested
  }

  /** Whether a document key belongs in the answer to `contentTypes`, stated on the caller's
      spelling of the request: a non-empty supported type that the caller named in any case,
      or any non-empty supported type when the caller named "all" in any case. */
  ghost predicate Wanted(env: Env, contentTypes: seq<string>, k: string)
  {
    && |k| > 0
    && k in env.supported
    && exists i :: 0 <= i < |contentTypes| && (Lower(contentTypes[i]) == AllTypes || Lower(contentTypes[i]) == Lower(k))
  }

  /** The dict comprehension of `hydrate_additional_data` over a non-empty lower-cased request. */
  function Project(env: Env, doc: Document, requested: seq<string>): map<string, Json>
  {
    map k | k in doc && IsContentTypeMatch(env, requested, k) :: env.format(k, doc[k])
  }

  /** `MultipleContentTypesGetter.hydrate_additional_data` as written: with an empty request the
      attribute was never set, so a non-empty document raises `AttributeError`. */
  function HydrateMultipleAsWritten(env: Env, doc: Document, sel: Option<seq<string>>): (r: Result<map<string, Json>, Error>)
    ensures r.Failure? <==> |doc| > 0 && sel.None?
    ensures r.Failure? ==> r.error == AttributeMissing
    ensures r.Success? ==> r.value.Keys <= doc.Keys * env.supported
  {
    if |doc| == 0 then Success(map[])
    else match sel
      case None => Failure(AttributeMissing)
      case Some(requested) =>
        if |requested| == 0 then Success(map[]) else Success(Project(env, doc, requested))
  }

  /** The hook with an empty request answered by an empty mapping, as the guard `not self.content_types`
      intends. The answer holds exactly the wanted document keys, each formatted. */
  function HydrateMultiple(env: Env, doc: Document, contentTypes: seq<string>): (r: map<string, Json>)
    ensures |doc| == 0 || |contentTypes| == 0 ==> r == map[]
    ensures forall k :: k in r <==> k in doc && Wanted(env, contentTypes, k)
    ensures forall k :: k in r ==> r[k] == env.format(k, doc[k])
    ensures r.Keys <= doc.Keys * env.supported
  {
    if |doc| == 0 || |contentTypes| == 0 then map[]
    else
      var requested := LowerAll(contentTypes);
      Project(env, doc, requested)
  }

  /** The lower-cased matcher agrees with the caller-facing description of what is wanted. */
  lemma MatchIsWanted(env: Env, contentTypes: seq<string>, k: string)
    ensures IsContentTypeMatch(env, LowerAll(contentTypes), k) <==> Wanted(env, contentTypes, k)
  {
  }

  /** The as-written hook and the intended one give the same answer whenever the as-written one
      answers at all; it fails only for an empty request against a non-empty document. */
  lemma AsWrittenAgreesWhenDefined(env: Env, doc: Document, contentTypes: seq<string>)
    ensures var aw := HydrateMultipleAsWritten(env, doc, SelectContentTypes(contentTypes));
            (aw.Failure? <==> |contentTypes| == 0 && |doc| > 0) &&
            (aw.Success? ==> aw.value == HydrateMultiple(env, doc, contentTypes))
  {
  }

  /** The input that shows the as-written hook crash: an empty request against a document with
      one entry raises `AttributeError` instead of returning `{}`. */
  lemma EmptyRequestRaisesAsWritten(env: Env, payload: Json)
    ensures HydrateMultipleAsWritten(env, map["os" := payload], SelectContentTypes([])) == Failure(AttributeMissing)
    ensures HydrateMultiple(env, map["os" := payload], []) == map[]
  {
  }

  /** Asking for "all" (in any case) returns every non-empty supported key of the document. */
  lemma AllReturnsEverySupportedType(env: Env, doc: Document, contentTypes: seq<string>, i: nat)
    requires i < |contentTypes| && Lower(contentTypes[i]) == AllTypes
    ensures HydrateMultiple(env, doc, contentTypes).Keys == doc.Keys * env.supported - {""}
  {
  }

  /** A key is wanted by a concatenated request exactly when one of the parts wants it. */
  lemma {:induction false} WantedAppend(env: Env, a: seq<string>, b: seq<string>, k: string)
    ensures Wanted(env, a + b, k) <==> Wanted(env, a, k) || Wanted(env, b, k)
  {
    if Wanted(env, a + b, k) {
      var i :| 0 <= i < |a + b| && (Lower((a + b)[i]) == AllTypes || Lower((a + b)[i]) == Lower(k));
      if i < |a| {
        assert (a + b)[i] == a[i];
      } else {
        assert (a + b)[i] == b[i - |a|];
      }
    }
    if Wanted(env, a, k) {
      var i :| 0 <= i < |a| && (Lower(a[i]) == AllTypes || Lower(a[i]) == Lower(k));
      assert (a + b)[i] == a[i];
    }
    if Wanted(env, b, k) {
      var i :| 0 <= i < |b| && (Lower(b[i]) == AllTypes || Lower(b[i]) == Lower(k));
      assert (a + b)[|a| + i] == b[i];
    }
  }

  /** Asking for two lists of types at once is the union of asking for each, an empty list included. */
  lemma {:induction false} RequestUnion(env: Env, doc: Document, a: seq<string>, b: seq<string>)
    ensures HydrateMultiple(env, doc, a + b) == HydrateMultiple(env, doc, a) + HydrateMultiple(env, doc, b)
  {
    var ab := HydrateMultiple(env, doc, a + b);
    var u := HydrateMultiple(env, doc, a) + HydrateMultiple(env, doc, b);
    forall k | k in doc
      ensures k in ab <==> k in u
    {
      WantedAppend(env, a, b, k);
    }
    assert ab.Keys == u.Keys;
  }

  /** Lower-casing the request before asking changes nothing: the constructor's own lower-casing
      makes the answer independent of how the caller spelled the types. */
  lemma RequestCaseIrrelevant(env: Env, doc: Document, contentTypes: seq<string>)
    ensures HydrateMultiple(env, doc, LowerAll(contentTypes)) == HydrateMultiple(env, doc, contentTypes)
  {
  }

  /** The request is matched case-insensitively: "OS" selects the "os" entry, and an unsupported
      entry is never returned. */
  lemma MixedCaseRequestMatches(env: Env, os: Json, java: Json, other: Json)
    requires "os" in env.supported && "java" in env.supported && "unsupported" !in env.supported
    ensures HydrateMultiple(env, map["os" := os, "java" := java, "unsupported" := other], ["OS"]) ==
            map["os" := env.format("os", os)]
  {
    var doc := map["os" := os, "java" := java, "unsupported" := other];
    var r := HydrateMultiple(env, doc, ["OS"]);
    assert Lower("OS") == "os" by {
      assert LowerChar('O') == 'o' && LowerChar('S') == 's';
    }
    assert Lower("os") == "os";
    assert Lower("java") != "os" by {
      assert |Lower("java")| == 4;
    }
    assert ["OS"][0] == "OS";
    assert Wanted(env, ["OS"], "os");
    assert !Wanted(env, ["OS"], "java");
    assert !Wanted(env, ["OS"], "unsupported");
    assert r.Keys == {"os"};
  }
}
