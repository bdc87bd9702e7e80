/** `ImageContentGetter.get` and its three subclasses, as one operation over an explicit variant:
    record lookup, analysis-status check, content load, presence check, formatting, hook. */
module ContentGetter {
  import opened Wrappers
  import opened JsonValues
  import opened Text
  import opened ImageContent
  import DockerfileMigration
  import MultipleContentTypes

  const ManifestKey: string := "manifest"

  /** `get_error_detail`: the request's account and digest, and its single content type, which the
      multi-type getter does not have. */
  function ErrorDetailOf(req: Request): (d: ErrorDetail)
    ensures d.accountId == req.accountId && d.imageDigest == req.imageDigest
    ensures d.contentType.None? <==> req.variant.MultipleTypes?
    ensures !req.variant.MultipleTypes? ==> d.contentType == Some(req.variant.contentType)
  {
    var contentType := if req.variant.MultipleTypes? then None else Some(req.variant.contentType);
    ErrorDetail(req.accountId, contentType, req.imageDigest)
  }

  /** `allowed_states`: the complete state, then the working state when it is allowed. */
  function AllowedStates(env: Env, allowAnalyzingState: bool): seq<string>
  {
    [env.completeState] + (if allowAnalyzingState then [env.workingState] else [])
  }

  /** `verify_analysis_status`. */
  function VerifyAnalysisStatus(env: Env, rec: ImageRecord, allowAnalyzingState: bool, detail: ErrorDetail): (o: Outcome<Error>)
    ensures o.Pass? <==> rec.analysisStatus == env.completeState ||
                         (allowAnalyzingState && rec.analysisStatus == env.workingState)
    ensures o.Fail? ==> o.error == ResourceNotFound(detail)
  {
    if rec.analysisStatus !in AllowedStates(env, allowAnalyzingState) then Fail(ResourceNotFound(detail))
    else Pass
  }

  /** Allowing the analyzing state only ever admits more records. */
  lemma AllowingAnalyzingIsWeaker(env: Env, rec: ImageRecord, detail: ErrorDetail)
    ensures VerifyAnalysisStatus(env, rec, false, detail).Pass? ==> VerifyAnalysisStatus(env, rec, true, detail).Pass?
    ensures (VerifyAnalysisStatus(env, rec, true, detail).Pass? && !VerifyAnalysisStatus(env, rec, false, detail).Pass?)
            ==> rec.analysisStatus == env.workingState
  {
  }

  /** The class-level switches and overridden fetch of each getter. */
  predicate VerifiesContentType(v: Variant)
  {
    !v.MultipleTypes?
  }

  predicate NormalizesOnLoad(v: Variant)
  {
    v.Content? || v.Manifest?
  }

  function FetchCategory(v: Variant): Category
  {
    if v.Manifest? then ManifestData else ImageContentData
  }

  /** The object the request reads: its category under the requested digest. */
  function ContentKey(req: Request): ObjectKey
  {
    ObjectKey(req.accountId, FetchCategory(req.variant), req.imageDigest)
  }

  /** `get_image_content_data`, base and manifest overrides. Any load failure becomes an
      upstream error with code 500. The base getter yields the stored "document" value; the
      manifest getter wraps whatever value is stored under the single key "manifest". */
  function GetImageContentData(store: Store, v: Variant, key: ObjectKey): (r: Result<Json, Error>)
    ensures r.Failure? <==> key !in store || store[key].Unreadable?
    ensures r.Failure? ==> r.error == UpstreamError(UpstreamHttpCode)
    ensures r.Success? && !v.Manifest? ==> r.value == store[key].document
    ensures r.Success? && v.Manifest? ==>
              r.value.JObj? && r.value.fields.Keys == {ManifestKey} && r.value.fields[ManifestKey] == store[key].document
  {
    if key !in store then Failure(UpstreamError(UpstreamHttpCode))
    else match store[key]
      case Unreadable => Failure(UpstreamError(UpstreamHttpCode))
      case Envelope(document) =>
        if v.Manifest? then Success(JObj(map[ManifestKey := document])) else Success(document)
  }

  /** Python's `contentType in data` on a loaded document: key membership for an object,
      substring search for a string, element equality for a list, and a TypeError otherwise. */
  function ContainsType(data: Json, contentType: string): (r: Result<bool, Error>)
    ensures r.Failure? <==> data.JNull? || data.JBool? || data.JNum?
    ensures r.Failure? ==> r.error == TypeMismatch
    ensures data.JObj? ==> r == Success(contentType in data.fields)
    ensures data.JStr? ==> r == Success(IsSubstring(contentType, data.s))
    ensures data.JArr? ==> r == Success(JStr(contentType) in data.items)
  {
    match data
    case JObj(fields) => Success(contentType in fields)
    case JStr(s) => Success(IsSubstring(contentType, s))
    case JArr(items) => Success(JStr(contentType) in items)
    case _ => Failure(TypeMismatch)
  }

  /** Python's `in` on a string document: the empty type is in every string, a type is in any string
      that embeds it, and a type longer than the string is never in it. */
  lemma {:induction false} ContainsTypeOnStrings(prefix: string, contentType: string, suffix: string)
    ensures ContainsType(JStr(prefix), "") == Success(true)
    ensures ContainsType(JStr(prefix + contentType + suffix), contentType) == Success(true)
    ensures |contentType| > |prefix| ==> ContainsType(JStr(prefix), contentType) == Success(false)
  {
    assert OccursAt("", prefix, 0);
    var whole := prefix + contentType + suffix;
    assert whole[|prefix|..|prefix| + |contentType|] == contentType;
    assert OccursAt(contentType, whole, |prefix|);
  }

  /** The request names an existing image record whose analysis status may be read. */
  predicate Admitted(env: Env, w: World, req: Request)
  {
    var rk := RecordKey(req.imageDigest, req.accountId);
    rk in w.records && VerifyAnalysisStatus(env, w.records[rk], req.allowAnalyzingState, ErrorDetailOf(req)).Pass?
  }

  /** The content document loads from the request's key. */
  predicate Loads(w: World, req: Request)
  {
    var key := ContentKey(req);
    key in w.store && w.store[key].Envelope?
  }

  /** The "document" value stored under the request's key. */
  function StoredDocument(w: World, req: Request): Json
    requires Loads(w, req)
  {
    w.store[ContentKey(req)].document
  }

  /** `get`. A missing record or a disallowed status is ResourceNotFound before any store call.
      Otherwise the request's own bucket and key are read, and a failed load is upstream error 500.
      The single-type getters then test the requested type with Python's `in` and raise BadRequest
      when it is absent. The plain and manifest getters format the requested entry; the Dockerfile
      getter runs its migrating hook; the multi-type getter projects the document. Only the
      Dockerfile hook writes to the store. */
  function Get(env: Env, w: World, req: Request): (r: Reply)
    // a missing record or a disallowed status: ResourceNotFound, with no store call at all
    ensures !Admitted(env, w, req) ==>
              r == Reply(Failure(ResourceNotFound(ErrorDetailOf(req))), w.store, [])
    ensures r.outcome.Failure? && r.outcome.error.ResourceNotFound? ==> !Admitted(env, w, req)
    // otherwise the first store call reads the request's own key, and only a failed load is an upstream error
    ensures Admitted(env, w, req) ==> |r.trace| >= 1 && r.trace[0] == Read(ContentKey(req))
    ensures Admitted(env, w, req) && !Loads(w, req) ==>
              r == Reply(Failure(UpstreamError(UpstreamHttpCode)), w.store, [Read(ContentKey(req))])
    ensures r.outcome.Failure? && r.outcome.error.UpstreamError? ==> Admitted(env, w, req) && !Loads(w, req)
    // the plain getter: the requested entry of the stored document, formatted, or BadRequest when it is missing
    ensures Admitted(env, w, req) && Loads(w, req) && req.variant.Content? && StoredDocument(w, req).JObj? ==>
              var fields := StoredDocument(w, req).fields;
              var ct := req.variant.contentType;
              r == Reply(if ct in fields then Success(env.format(ct, fields[ct])) else Failure(BadRequest(ErrorDetailOf(req))),
                         w.store, [Read(ContentKey(req))])
    ensures req.variant.Content? && r.outcome.Success? ==>
              Admitted(env, w, req) && Loads(w, req) && StoredDocument(w, req).JObj? &&
              req.variant.contentType in StoredDocument(w, req).fields
    // the manifest getter: only "manifest" may be requested, and it formats whatever manifest is stored
    ensures Admitted(env, w, req) && Loads(w, req) && req.variant.Manifest? ==>
              r == Reply(if req.variant.contentType == ManifestKey then Success(env.format(ManifestKey, StoredDocument(w, req)))
                         else Failure(BadRequest(ErrorDetailOf(req))),
                         w.store, [Read(ContentKey(req))])
    ensures req.variant.Manifest? ==>
              forall i :: 0 <= i < |r.trace| ==> r.trace[i] == Read(ObjectKey(req.accountId, ManifestData, req.imageDigest))
    // the Dockerfile getter: BadRequest for a missing type, otherwise its hook on the stored document and the record
    ensures Admitted(env, w, req) && Loads(w, req) && req.variant.Dockerfile? && StoredDocument(w, req).JObj? ==>
              var fields := StoredDocument(w, req).fields;
              var ct := req.variant.contentType;
              (ct !in fields ==> r == Reply(Failure(BadRequest(ErrorDetailOf(req))), w.store, [Read(ContentKey(req))])) &&
              (ct in fields ==>
                 var h := DockerfileMigration.HydrateDockerfile(env, req.accountId, ct, fields,
                            w.records[RecordKey(req.imageDigest, req.accountId)], w.store, w.storeAcceptsWrites);
                 r == Reply(Success(h.value), h.store, [Read(ContentKey(req))] + h.trace))
    // the plain and Dockerfile getters on a stored value that is not a JSON object: BadRequest when
    // Python's `in` finds no type there, otherwise a type error, and never a write
    ensures Admitted(env, w, req) && Loads(w, req) && (req.variant.Content? || req.variant.Dockerfile?) &&
            !StoredDocument(w, req).JObj? ==>
              r == Reply(if ContainsType(StoredDocument(w, req), req.variant.contentType) == Success(false)
                         then Failure(BadRequest(ErrorDetailOf(req))) else Failure(TypeMismatch),
                         w.store, [Read(ContentKey(req))])
    // the multi-type getter: the projection of an object document; a falsy document or an empty
    // request gives an empty mapping; any other document raises
    ensures Admitted(env, w, req) && Loads(w, req) && req.variant.MultipleTypes? ==>
              var doc := StoredDocument(w, req);
              var cts := req.variant.contentTypes;
              r == Reply(if doc.JObj? then Success(JObj(MultipleContentTypes.HydrateMultiple(env, doc.fields, cts)))
                         else if !Truthy(doc) || |cts| == 0 then Success(JObj(map[]))
                         else Failure(TypeMismatch),
                         w.store, [Read(ContentKey(req))])
    // BadRequest only for a single-type request whose type the loaded document does not hold
    ensures r.outcome.Failure? && r.outcome.error.BadRequest? ==>
              r.outcome.error == BadRequest(ErrorDetailOf(req)) &&
              Admitted(env, w, req) && Loads(w, req) && !req.variant.MultipleTypes? &&
              (if req.variant.Manifest? then req.variant.contentType != ManifestKey
               else ContainsType(StoredDocument(w, req), req.variant.contentType) == Success(false))
    // a Python type error only for a stored content document that is not a JSON object
    ensures r.outcome.Failure? && r.outcome.error.TypeMismatch? ==>
              Admitted(env, w, req) && Loads(w, req) && !req.variant.Manifest? && !StoredDocument(w, req).JObj?
    ensures r.outcome.Failure? ==> r.outcome.error != AttributeMissing
    // only the Dockerfile getter touches the store beyond its one read
    ensures !req.variant.Dockerfile? ==> r.store == w.store && |r.trace| <= 1
    ensures |r.trace| <= 2
    ensures forall i :: 0 < i < |r.trace| ==>
              req.variant.Dockerfile? && Admitted(env, w, req) &&
              r.trace[i] == Write(DockerfileMigration.MigrationKey(req.accountId, w.records[RecordKey(req.imageDigest, req.accountId)]))
    ensures r.store != w.store ==> req.variant.Dockerfile? && w.storeAcceptsWrites && |r.trace| == 2
  {
    var detail := ErrorDetailOf(req);
    var rk := RecordKey(req.imageDigest, req.accountId);
    if rk !in w.records then Reply(Failure(ResourceNotFound(detail)), w.store, [])
    else
      var rec := w.records[rk];
      match VerifyAnalysisStatus(env, rec, req.allowAnalyzingState, detail)
      case Fail(e) => Reply(Failure(e), w.store, [])
      case Pass =>
        var key := ContentKey(req);
        match GetImageContentData(w.store, req.variant, key)
        case Failure(e) => Reply(Failure(e), w.store, [Read(key)])
        case Success(data) =>
          var present := if VerifiesContentType(req.variant) then ContainsType(data, req.variant.contentType) else Success(true);
          match present
          case Failure(e) => Reply(Failure(e), w.store, [Read(key)])
          case Success(found) =>
            if !found then Reply(Failure(BadRequest(detail)), w.store, [Read(key)])
            else if NormalizesOnLoad(req.variant) then
              var ct := req.variant.contentType;
              match data
              case JObj(fields) => Reply(Success(env.format(ct, fields[ct])), w.store, [Read(key)])
              case _ => Reply(Failure(TypeMismatch), w.store, [Read(key)])  // indexing a string or list by a string
            else
              match req.variant
              case Dockerfile(ct) =>
                (match data
                 case JObj(fields) =>
                   var h := DockerfileMigration.HydrateDockerfile(env, req.accountId, ct, fields, rec, w.store, w.storeAcceptsWrites);
                   Reply(Success(h.value), h.store, [Read(key)] + h.trace)
                 case _ => Reply(Failure(TypeMismatch), w.store, [Read(key)]))  // `.get` on a string or list
              case MultipleTypes(contentTypes) =>
                match data
                case JObj(fields) =>
                  Reply(Success(JObj(MultipleContentTypes.HydrateMultiple(env, fields, contentTypes))), w.store, [Read(key)])
                case _ =>
                  if !Truthy(data) || |contentTypes| == 0 then Reply(Success(JObj(map[])), w.store, [Read(key)])
                  else Reply(Failure(TypeMismatch), w.store, [Read(key)])  // `.items()` on a non-object
  }
}
