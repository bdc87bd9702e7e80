# Image content getters — a Dafny model

This project models the read path for an analysed container image's stored content in the
Anchore engine's catalog service (`anchore_engine/services/catalog/image_content/get_image_content.py`).
A getter looks up the image record, checks that the image's analysis status may be read, loads the
content document from the object store, checks that the requested content type is present, formats
the payload, and hands the result to a per-class hook. There are four getter classes:

- `ImageContentGetter`: one content type from the `image_content_data` bucket.
- `ImageManifestContentGetter`: reads the `manifest_data` bucket and wraps the document under `"manifest"`.
- `ImageDockerfileContentGetter`: formats in its hook. Under narrow conditions it also copies a
  legacy base64 Dockerfile from the record's `image_detail` entries into the content document and
  writes that document back.
- `MultipleContentTypesGetter`: skips the presence check. It returns the supported document entries
  the caller asked for, matched case-insensitively, with `"all"` as a wildcard.

The model is functional. `ContentGetter.Get(env, world, request)` returns a `Reply`: the value or
error, the object store afterwards, and the trace of object-store calls made. The four classes are
the four cases of `Variant`. Their class-level switches become `VerifiesContentType` and
`NormalizesOnLoad`, and the overridden fetch becomes `FetchCategory`.

The collaborators whose code is not modelled are fields of `Env`:
- the formatter `helpers.make_image_content_response`;
- base64 plus UTF-8 decoding, which returns `None` when it raises;
- the registry `image_content_types`;
- the two `taskstate` values for "analyze".

The catalog's record lookup is a map from (digest, account) to `ImageRecord`. The object store is a
map from (account, bucket, key) to a stored blob. Whether the store accepts a `put` is the
`storeAcceptsWrites` flag of `World`.

Files:
- `wrappers.dfy`: `Option`, `Result`, `Outcome`.
- `json_values.dfy`: JSON values and Python truthiness.
- `text.dfy`: ASCII `str.lower()`.
- `image_content.dfy`: records, store, requests, errors, collaborators.
- `content_getter.dfy`: the base flow and `Get`.
- `dockerfile_migration.dfy`: the Dockerfile hook.
- `multiple_content_types.dfy`: the multi-type hook.
- `getter_properties.dfy`: properties that span two calls.

Details of the code the model keeps:
- The presence check still runs for the Dockerfile getter, which overrides only the normalisation
  switch. A request for `"dockerfile"` whose key is missing is therefore a `BadRequest` before the
  hook runs. Migration can only happen when the `"dockerfile"` entry is present but falsy, or when
  another type is requested.
- The hook tests the `"dockerfile"` entry for truthiness, not for presence.
- The migrated document is written under the digest stored in the image record. The request's
  digest is used only for the read.
- Only the first `image_detail` entry with a non-empty body is tried. A decode failure ends the scan.
- After a migration, the answer is formatted from the updated in-memory document, even when the
  `put` fails.
- The wrapped object-store error carries HTTP code 500 but no error detail.
- The stored `"document"` value may be any JSON value. The manifest getter wraps whatever is stored.
  For the other getters a value that is not an object goes through Python's own semantics.
  - The presence test `in` is a substring test on a string and an element test on a list.
    On `null`, a boolean or a number it raises `TypeError`.
  - Using the value as a dict afterwards raises `TypeError` or `AttributeError`.
  - A falsy value gives the multi-type getter an empty mapping.
- Exception: with an empty request list and a non-empty document, the code's multi-type getter raises
  `AttributeError`. `Get` uses the corrected hook instead, which returns an empty mapping. The code's
  behaviour is modelled separately; see Findings.

## Model

| member | source | states |
|---|---|---|
| ContentGetter.ErrorDetailOf | anchore_engine/services/catalog/image_content/get_image_content.py:25-30 | the error detail carries the request's account and digest, and its content type exactly when the getter has a single one |
| ContentGetter.VerifyAnalysisStatus | anchore_engine/services/catalog/image_content/get_image_content.py:42-50 | a record passes iff its status is the complete state, or the analyzing state is allowed and the status is the working state; otherwise ResourceNotFound with the request's error detail |
| ContentGetter.AllowingAnalyzingIsWeaker | anchore_engine/services/catalog/image_content/get_image_content.py:42-44 | allowing the analyzing state never rejects a record that was admitted without it, and the only status it adds is the working state |
| ContentGetter.GetImageContentData | anchore_engine/services/catalog/image_content/get_image_content.py:80-118 | a load fails, with upstream error 500, exactly when the object is missing or unreadable; otherwise the base getter yields the stored "document" value and the manifest getter yields a one-key object `{"manifest": stored value}` whatever JSON value is stored |
| ContentGetter.ContainsType | anchore_engine/services/catalog/image_content/get_image_content.py:66 | Python's `in` on the loaded document: key membership for an object, substring search for a string, element equality for a list, TypeError for null, booleans and numbers |
| ContentGetter.ContainsTypeOnStrings | anchore_engine/services/catalog/image_content/get_image_content.py:66 | on a string document the empty type is always present, a type embedded in the string is present, and a type longer than the string is absent |
| ContentGetter.Get | anchore_engine/services/catalog/image_content/get_image_content.py:52-78 | no record or a bad status: ResourceNotFound, no store call, and only then; a failed load: upstream error 500, and only then; a single type not in the document: BadRequest, and only then; the multi-type getter never raises BadRequest; each getter's success reply is pinned: formatted entry, formatted manifest, the Dockerfile hook's answer, the projection; a non-object content document gives BadRequest or a type error; only the Dockerfile getter writes, once at most, at the record's digest |
| DockerfileMigration.FirstLegacyDockerfile | anchore_engine/services/catalog/image_content/get_image_content.py:137-140 | the index found is the first `image_detail` entry with a non-empty legacy Dockerfile; none is found only when no entry has one |
| DockerfileMigration.LegacyDockerfileText | anchore_engine/services/catalog/image_content/get_image_content.py:137-147 | the migrated text is the decoding of the first entry with a body; there is none when no entry has a body; later entries are never tried |
| DockerfileMigration.HydrateDockerfile | anchore_engine/services/catalog/image_content/get_image_content.py:124-166 | with a truthy `"dockerfile"` entry or a mode other than "Actual", nothing is written and the requested entry is formatted; at most one put, exactly when a legacy body decodes, to `image_content_data` under the record's digest; the written document is the loaded one with only `"dockerfile"` set to the decoded text; no other store entry changes; a rejected put or failed decode is not propagated, and the answer formats the entry after the in-memory assignment |
| DockerfileMigration.HydrateDockerfileConverges | anchore_engine/services/catalog/image_content/get_image_content.py:124-157 | running the hook again on the document the first run wrote gives the same answer and leaves the store unchanged |
| GetterProperties.GetConverges | anchore_engine/services/catalog/image_content/get_image_content.py:52-166 | serving the same request against the store a first call left behind returns the same outcome and store, for every getter, including when the record's digest differs from the requested one |
| MultipleContentTypes.SelectContentTypes | anchore_engine/services/catalog/image_content/get_image_content.py:178-183 | the requested types are kept lower-cased, position by position; an empty request leaves the attribute unset |
| MultipleContentTypes.IsContentTypeMatch | anchore_engine/services/catalog/image_content/get_image_content.py:185-198 | only a non-empty supported type matches; with "all" requested every such type matches; otherwise a match is a type whose lower-cased form the request names |
| MultipleContentTypes.MatchIsWanted | anchore_engine/services/catalog/image_content/get_image_content.py:185-198 | matching against the lower-cased request accepts a key exactly when it is a non-empty supported type and the caller named "all" or the key, in any case |
| MultipleContentTypes.HydrateMultipleAsWritten | anchore_engine/services/catalog/image_content/get_image_content.py:227-239 | the hook as written raises AttributeError exactly when the document is non-empty and the attribute is unset; otherwise its keys are supported document keys |
| MultipleContentTypes.HydrateMultiple | anchore_engine/services/catalog/image_content/get_image_content.py:227-239 | an empty document or an empty request gives an empty mapping; otherwise the keys are exactly the document keys that are non-empty, supported, and requested by name in any case or by "all"; each value is the formatted entry; unsupported keys never appear |
| MultipleContentTypes.AsWrittenAgreesWhenDefined | anchore_engine/services/catalog/image_content/get_image_content.py:182-239 | the as-written hook fails exactly for an empty request against a non-empty document, and otherwise gives the same answer as the corrected one |
| MultipleContentTypes.EmptyRequestRaisesAsWritten | anchore_engine/services/catalog/image_content/get_image_content.py:182-230 | an empty request against `{"os": …}` raises AttributeError as written, where the corrected hook returns an empty mapping |
| MultipleContentTypes.AllReturnsEverySupportedType | anchore_engine/services/catalog/image_content/get_image_content.py:191-196 | a request naming "all" in any case returns every non-empty supported key of the document |
| MultipleContentTypes.WantedAppend | anchore_engine/services/catalog/image_content/get_image_content.py:194-198 | a concatenated request wants a key exactly when one of its parts wants it |
| MultipleContentTypes.RequestUnion | anchore_engine/services/catalog/image_content/get_image_content.py:227-237 | asking for two lists at once, either possibly empty, gives the union of asking for each |
| MultipleContentTypes.MixedCaseRequestMatches | anchore_engine/services/catalog/image_content/get_image_content.py:183-198 | a request for "OS" against `{os, java, unsupported}` returns only the formatted "os" entry |
| MultipleContentTypes.RequestCaseIrrelevant | anchore_engine/services/catalog/image_content/get_image_content.py:183-198 | lower-casing the request before asking gives the same answer, so the caller's spelling of the types never matters |

## Left out

- ContentGetter.Get: a multi-type request with an empty list against a non-empty document answers
  an empty mapping, while the code raises `AttributeError`. This follows the corrected hook of the
  Findings table. `MultipleContentTypes.HydrateMultipleAsWritten` models the code as written, and
  `MultipleContentTypes.AsWrittenAgreesWhenDefined` shows it is the only case where the two differ.
- Database sessions and `db_catalog_image.get`: the record lookup is a map lookup.
- JSON (de)serialisation and `utils.ensure_str`/`ensure_bytes`: the store holds parsed envelopes. Any
  failure to load or parse one is the `Unreadable` blob.
- The formatter's internals and failures: `helpers.make_image_content_response` is not part of this
  model. It is an opaque total function, so an exception raised inside it is not modelled.
- The contents of `image_content_types`: an opaque set.
- Real base64 and UTF-8 decoding: an opaque partial function.
- JSON numbers are integers, so a float `0.0` counting as falsy is not modelled.
- Text.Lower: lower-cases ASCII letters only, because Python's full Unicode case mapping is a
  library concern.
- Legacy `dockerfile` values in `image_detail` that are not strings.
- Logging, exception classes beyond their kind, and message strings, including the analysis status
  quoted in the not-analyzed message.
- The unlocked read-modify-write race on the migration write-back: concurrency is out of scope.
- A non-list `content_types` argument: the request is a sequence.

## Findings

| source | as written | input that shows it | evidently intended | confidence | as-written member | corrected member |
|---|---|---|---|---|---|---|
| anchore_engine/services/catalog/image_content/get_image_content.py:182-229 | the constructor leaves `content_types` unset for an empty list, and the hook reads it whenever the document is non-empty | `MultipleContentTypesGetter(account, [], digest)` on an image whose document is `{"os": …}` raises `AttributeError` | the guard `not self.content_types` on line 229 returns `{}` for an empty request | high; not executed | MultipleContentTypes.HydrateMultipleAsWritten (shown by MultipleContentTypes.EmptyRequestRaisesAsWritten) | MultipleContentTypes.HydrateMultiple (used by ContentGetter.Get; related by MultipleContentTypes.AsWrittenAgreesWhenDefined) |
