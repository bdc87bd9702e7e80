/** The entities the content getters work on: image records, the object store,
    requests, errors, and the external collaborators. */
module ImageContent {
  import opened Wrappers
  import opened JsonValues

  /** One entry of an image record's `image_detail` list; `dockerfile` is the legacy
      base64-encoded Dockerfile body, absent when the entry has none. */
  datatype ImageDetail = ImageDetail(dockerfile: Option<string>)

  /** The catalog's image record (`image_report`). A missing `image_detail` list is the empty sequence. */
  datatype ImageRecord = ImageRecord(
    imageDigest: string,
    analysisStatus: string,
    dockerfileMode: Option<string>,
    imageDetails: seq<ImageDetail>)

  /** Image records are looked up by digest and account. */
  datatype RecordKey = RecordKey(imageDigest: string, accountId: string)

  /** The object-store buckets used: "image_content_data" and "manifest_data". */
  datatype Category = ImageContentData | ManifestData

  datatype ObjectKey = ObjectKey(accountId: string, category: Category, key: string)

  /** A stored object: either a JSON envelope `{"document": ...}` holding any JSON value,
      or bytes that do not load as one (missing, not UTF-8, not JSON, no "document" key). */
  datatype Blob = Envelope(document: Json) | Unreadable

  type Store = map<ObjectKey, Blob>

  /** An object-store call made while serving a request. A `Write` is a `put` attempt,
      whether or not the store accepted it. */
  datatype Access = Read(key: ObjectKey) | Write(key: ObjectKey)

  /** The state the getters see: the catalog's image records, the object store, and whether
      the object store accepts a `put` at this moment. */
  datatype World = World(records: map<RecordKey, ImageRecord>, store: Store, storeAcceptsWrites: bool)

  /** The collaborators whose code is not part of this model:
      `format` is `helpers.make_image_content_response`,
      `decode` is base64 decoding followed by UTF-8 decoding (`None` when either raises),
      `supported` is `image_content_types`,
      `completeState`/`workingState` are `taskstate.complete_state("analyze")` and
      `taskstate.working_state("analyze")`. */
  datatype Env = Env(
    format: (string, Json) -> Json,
    decode: string -> Option<string>,
    supported: set<string>,
    completeState: string,
    workingState: string)

  /** The context every validation error carries (`get_error_detail`). The multi-type getter
      has no single content type. */
  datatype ErrorDetail = ErrorDetail(accountId: string, contentType: Option<string>, imageDigest: string)

  /** The errors a getter raises. `UpstreamError` is the wrapped object-store failure, which
      carries an HTTP code but no error detail. `AttributeMissing` is Python's `AttributeError`
      on an unset `content_types` attribute. `TypeMismatch` is the `TypeError` or `AttributeError`
      Python raises when a document that is not a JSON object is used as a dict. */
  datatype Error =
    | ResourceNotFound(detail: ErrorDetail)
    | BadRequest(detail: ErrorDetail)
    | UpstreamError(httpCode: int)
    | AttributeMissing
    | TypeMismatch

  /** The HTTP code attached to a failed content load. */
  const UpstreamHttpCode: int := 500

  /** Which getter class serves the request, with its constructor arguments. */
  datatype Variant =
    | Content(contentType: string)           // ImageContentGetter
    | Manifest(contentType: string)          // ImageManifestContentGetter
    | Dockerfile(contentType: string)        // ImageDockerfileContentGetter
    | MultipleTypes(contentTypes: seq<string>) // MultipleContentTypesGetter

  datatype Request = Request(accountId: string, imageDigest: string, variant: Variant, allowAnalyzingState: bool)

  /** What `get` returns or raises, the object store afterwards, and the store calls it made in order. */
  datatype Reply = Reply(outcome: Result<Json, Error>, store: Store, trace: seq<Access>)
}
