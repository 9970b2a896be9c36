# SkyAPI client generator, modelled in Dafny

The repository generates a JavaScript client for the SkyAPI data-processing service from an
OpenAPI 3.0 document. This project models its core and proves properties about it:

- **Loader** (`loader.dfy`). This is the step after the document has been dereferenced.
  - Every `paths[path][method]` that arrives nested under its own method key is unwrapped.
  - The document is then validated. An invalid document is reported with its error count and details, and loading continues.
- **Transform** (`transform.dfy`). The transformer flattens `paths -> method -> operation` into one operation record per (path, method) pair, in traversal order.
  - It tags declared parameters with their schema type and a flag named after their `in` value.
  - It creates one body parameter per property of the JSON request-body schema.
  - It computes the `security` flag: whether some security requirement's first scheme is `auth0`.
- **GeneratedMethod** (`method.dfy`). This is the client method that the method template renders for one operation record, run on the caller's `params`.
  - The HTTP method is upper-cased.
  - Each defined `params[name]` of a query- or body-flagged parameter is copied into `query` or `body`, in parameter order.
- **Client** (`client.dfy`). This is the generated client object, `SkyAPI(options)`: a class whose `token` field is the one piece of state its methods share.
  - `refresh` performs the OAuth 2.0 client-credentials grant (section 4.4 of RFC 6749), sent as JSON.
  - `request` fetches a token when none is held or the held one has expired, then builds the HTTP request with a Bearer credential (section 2.1 of RFC 6750). It appends the query only when the query has a key and sends a JSON body only when the body has a key.
  - `createDataset`, `createProcessingJob` and `getProcessingResults` build their arguments and call `request`. `Settle` gives the outcome of a response from its status.
- **Templates** (`templates.dfy`). These are the two hand-written template methods, `getProcessingResults` and `getProcessingJob`.
- **Manifest** (`manifest.dfy`). This is the mocked lambda that lists a processing job's outputs.
  - It checks the response status first.
  - It then renames each manifest entry's type through a fixed table.
  - Typed entries are sorted into 3D-tiles `layers` and downloadable `files`, in manifest order.

`js.dfy` (module `Js`) holds the small slice of JavaScript semantics these files rely on:
- values, with objects as ordered property lists;
- property reads that throw on `null` and `undefined`;
- `o[k] = v`, which keeps an existing key's position;
- `Object.keys`, truthiness, string conversion, `indexOf`, `replace` with a string pattern, and `toUpperCase`.

Thrown exceptions are values of `Result`.

All I/O is modelled as inputs to an `Io` record: the clock, the token endpoint's replies, `jws.decode`, `qs.stringify` and `JSON.stringify`. A `request` yields the plan of what it sends: the number of token requests and the HTTP request.

Some behaviour of the client code worth knowing:
- every request carries a Bearer header, even for a client created without credentials. The repository's own test (test/client.spec.js:87-98) expects no `authorization` header in that case, but dist/skyapi.js:54-68 always sends one;
- `refresh` does not look at the token endpoint's status;
- the body is sent for any method whenever it has a key;
- the `security` argument of the two template methods is passed to a `request` that ignores it.

## Model

| member | source | states |
|---|---|---|
| Transform.FindAuthMeaning | codegen/transform.js:22 | `security.find(...)` throws exactly when a null or undefined requirement comes before any requirement whose first key is `auth0`; otherwise it is true iff some requirement's first key is `auth0` |
| Transform.SecurityFlagMeaning | codegen/transform.js:14-22 | The flag is false for a falsy `security`; a truthy non-array throws TypeError; for an array of requirements it is true iff some requirement names `auth0` first |
| Transform.SecureFlag | codegen/transform.js:22 | For a well-formed operation the flag is exactly `RequiresAuth(security)` |
| Transform.TagParameterMeaning | codegen/transform.js:20 | Tagging throws iff the parameter or its schema is null or undefined. The tagged record keeps every other own field and sets `[in]: true` and `type` = schema type (the flag wins when `in` is "type"). It keeps keys distinct |
| Transform.TagParametersMeaning | codegen/transform.js:19-20 | Mapping succeeds iff every parameter tags; then there is one tagged record per declared parameter, at the same position |
| Transform.BodyParameterMeaning | codegen/transform.js:9-12 | A body parameter keeps the property's own fields and has `name`, `body: true`, and `required` true iff the name is in the schema's `required` list |
| Transform.MapNamesMeaning | codegen/transform.js:9-12 | A map whose every step succeeds gives one result per name, in order |
| Transform.BodyParametersMeaning | codegen/transform.js:9-12 | With a `required` array, every property name gives exactly its body parameter, in order |
| Transform.FormMeaning | codegen/transform.js:6-13 | No request body gives `form = []`. Otherwise `form` has one entry per schema property, in order, each that property's body parameter |
| Transform.RecordFields | codegen/transform.js:15-23 | The record holds `method`, `endpoint`, `parameters` and `security`; every other field is the operation's own |
| Transform.RecordKeyOrder | codegen/transform.js:15-23 | The operation's own keys keep their position; the four record keys it lacks follow in literal order; distinct keys stay distinct |
| Transform.TransformOperationParts | codegen/transform.js:5-23 | A well-formed operation does not throw; its record is built from its tagged parameters, then its body parameters, and its flag |
| Transform.ParameterList | codegen/transform.js:19-21 | The parameter list has length |declared| + |body properties|, and its first |declared| entries are the tagged declared parameters |
| Transform.TransformOperationParameters | codegen/transform.js:19-21 | The record's `parameters` is an array of exactly |declared| + |body properties| entries, with no merge by name; declared ones come first, tagged in order |
| Transform.TransformOperationFields | codegen/transform.js:15-22 | The record's `method` and `endpoint` are the method and path keys, `security` is `RequiresAuth(security)`, and all other fields are the operation's |
| Transform.TransformOperationMeaning | codegen/transform.js:4-23 | Both of the above for one well-formed operation |
| Transform.EmptyOperation | codegen/transform.js:5-22 | With no `parameters`, no `requestBody` and a falsy `security`, the record has `parameters: []` and `security: false` |
| Transform.MethodPairs | codegen/transform.js:3-4 | One (path, method) pair per method key, in key order |
| Transform.MapMethodsEnumerates | codegen/transform.js:4-24 | The methods of a path item map without throwing iff every record builds; then there is one record per method, in order |
| Transform.ConcatBuilt | codegen/transform.js:26 | Concatenating per-path lists keeps every record at its pair's position |
| Transform.MapPathsEnumerates | codegen/transform.js:2-26 | The traversal succeeds iff no path item is null or undefined and every record builds; then the k-th record is the record of the k-th (path, method) pair |
| Transform.TransformDocumentEnumerates | codegen/transform.js:2-26 | For a `paths` object: the transform succeeds iff no path item is nullish and every operation transforms; then the output has one record per (path, method) pair, in traversal order, each that pair's record |
| Loader.RebuildOk | spec/openapi.js:35-42 | The key-by-key rebuild throws iff rewriting some key throws |
| Loader.RebuildKeys | spec/openapi.js:35-42 | The rebuilt object keeps the source keys in order after those already collected |
| Loader.RebuildValues | spec/openapi.js:35-42 | Each key holds its rewritten value; other keys keep their earlier value |
| Loader.UnwrapAllOk | spec/openapi.js:38-40 | Every operation of an item unwraps iff none is null or undefined |
| Loader.UnwrapPathItemMeaning | spec/openapi.js:36-41 | A path item throws iff some operation is nullish. Otherwise it keeps its method keys in order, each holding `op[method]` if that is truthy, else `op` |
| Loader.UnwrapOperations | spec/openapi.js:36-41 | The rebuilt item has each method key once, in order, with its operation unwrapped |
| Loader.UnwrapAllPaths | spec/openapi.js:34-42 | Well-formed `paths` unwrap without throwing, keep the path keys in order, and hold each item unwrapped |
| Loader.NormalisePathsMeaning | spec/openapi.js:34-42 | Normalisation replaces `paths` only: document keys and order are kept, other fields unchanged, and each path item is unwrapped |
| Loader.NullOperationThrows | spec/openapi.js:38-40 | A null or undefined operation anywhere makes the unwrap throw |
| Loader.LoadIsLenient | spec/openapi.js:44-55 | Validation never aborts the load: the normalised document is returned, with a warning iff the document is invalid; the warning carries the error count and the errors themselves |
| GeneratedMethod.PlaceAll | codegen/templates/method.js:17-31 | Filling a map throws iff `params` is null or undefined and some parameter is flagged; the exception is a TypeError |
| GeneratedMethod.Invoke | codegen/templates/method.js:11-34 | The rendered method body, run step by step, hands `request` exactly what `Generated` gives |
| GeneratedMethod.PlaceAllLookup | codegen/templates/method.js:17-31 | Whenever filling succeeds (including null or undefined `params` with no flagged parameter), the map gives each flagged name its value in `params`, and nothing for other names |
| GeneratedMethod.PlaceAllKeys | codegen/templates/method.js:17-31 | Whenever filling succeeds, the map's keys are exactly the flagged names with a defined value, none twice |
| GeneratedMethod.GeneratedShape | codegen/templates/method.js:12-33 | Whenever the call does not throw, the HTTP method is upper-cased (no ASCII lower-case letter is left) and the rendered path is passed unchanged |
| GeneratedMethod.NoParamsCall | codegen/templates/method.js:11-33 | Called without `params`, a method with no query or body parameter does not throw; it requests the upper-cased method on the rendered path with an empty query and body |
| GeneratedMethod.UpperIsUpper | codegen/templates/method.js:12 | `toUpperCase` keeps the length and leaves no ASCII lower-case letter |
| GeneratedMethod.GeneratedThrows | codegen/templates/method.js:17-31 | The call throws iff `params` is null or undefined and some parameter is flagged for query or body; the error is a TypeError |
| GeneratedMethod.PlaceAllSkips | codegen/templates/method.js:17-31 | A parameter without the flag changes nothing in that map, keys or order, wherever it stands |
| GeneratedMethod.UnflaggedIgnored | codegen/templates/method.js:17-31 | A path or header parameter (flagged for neither map) does not change the request arguments |
| Client.Configure | dist/skyapi.js:20-28 | Creating the client throws iff the options are null or undefined; the token and origin are the options' own |
| Client.GrantBodyMeaning | dist/skyapi.js:36-41 | The grant has keys `grant_type, client_id, client_secret, audience`, in that order, holding `client_credentials`, key, secret and audience |
| Client.TokenRequest | dist/skyapi.js:31-42 | `refresh` POSTs the JSON-encoded grant with a JSON content type to `<auth0>/oauth/token` |
| Client.AccessToken | dist/skyapi.js:44-45 | The reply's `access_token` is returned; a null or undefined reply throws |
| Client.ExpiredMeaning | dist/skyapi.js:57-62 | A numeric `exp` has expired exactly from `exp * 1000` ms on; a payload without `exp` never expires; a missing payload throws |
| Client.ExpiredIsMonotone | dist/skyapi.js:62 | Once expired, a token stays expired as the clock moves on |
| Client.AuthorizeRefreshes | dist/skyapi.js:54-64 | A call refreshes at most twice, and twice only when no token was held; it refreshes at least once with no token; with no refresh the held token is kept |
| Client.LiveTokenKept | dist/skyapi.js:57-64 | A held, unexpired token is kept and nothing is refreshed |
| Client.ExpiredTokenReplaced | dist/skyapi.js:62-64 | A held, expired token is replaced by the first reply's `access_token`, after one refresh |
| Client.MissingTokenFetched | dist/skyapi.js:54-56 | With no token held, exactly one refresh is made when the fetched token is live, and that token is stored |
| Client.TokenPersists | dist/skyapi.js:54-64 | The token one call stores is the one the next call uses, without a refresh, while it is live |
| Client.ComposeHeaders | dist/skyapi.js:66-77 | Every request carries `authorization: Bearer <token>`; `content-type: application/json` is added exactly when the body has a key |
| Client.ComposeTarget | dist/skyapi.js:70-84 | The URL is origin + path, plus `?<query>` exactly when the query has a key. The encoded body is sent exactly when the body has a key and encodes to non-empty text |
| Client.SettleMeaning | dist/skyapi.js:88-92 | For a three-digit status, the call throws an Error carrying the response text exactly for 400-599; otherwise it returns the parsed JSON |
| Client.CreateDatasetIsGenerated | dist/skyapi.js:108-132 | `createDataset` is the method template rendered for POST `/v<version or 2>/datasets` with query parameters `token`, `userId` and body parameter `name`, so every property of `Generated` holds of it |
| Client.DatasetQuery | dist/skyapi.js:114-120 | The query holds `token`, then `userId`, each only when defined |
| Client.DatasetBody | dist/skyapi.js:122-124 | The body holds `name` only when defined |
| Client.ReplaceFirstAt | dist/skyapi.js:148 | `replace` substitutes the marked occurrence when nothing before it can start the pattern |
| Client.CreateProcessingJobMeaning | dist/skyapi.js:141-157 | Throws iff `params` is nullish. Otherwise it is a POST with empty query and body; the path has the id in place of `{id}` when the id is defined, else keeps `{id}` |
| Client.ProcessingResultsArgs | dist/skyapi.js:159-178 | Throws iff the argument is nullish. Otherwise it is a GET on `/v1/processes/<puuid>/result` with an empty body and query `{layers: true}` exactly when `layers` is truthy |
| Client.SkyApi.constructor | dist/skyapi.js:20-28 | The client starts with the configured token |
| Client.SkyApi.Refresh | dist/skyapi.js:30-46 | Sends the token request and resolves to the reply's `access_token`; the held token is untouched |
| Client.SkyApi.Request | dist/skyapi.js:48-84 | The stored token and the dispatch are those of `Plan`. Every fetched token is stored, even when a later step throws |
| Client.SkyApi.CreateDataset | dist/skyapi.js:108-132 | Nullish `params` throw TypeError and leave the token alone; otherwise the method behaves as `request` on the dataset arguments |
| Client.SkyApi.CreateProcessingJob | dist/skyapi.js:141-157 | Nullish `params` throw TypeError and leave the token alone; otherwise the method behaves as `request` on the job arguments |
| Client.SkyApi.GetProcessingResults | dist/skyapi.js:159-178 | A nullish argument throws TypeError and leaves the token alone; otherwise the method behaves as `request` on the results arguments |
| Templates.GetProcessingResults | codegen/templates/get-processing-results.js:2-14 | Throws iff the argument is nullish. Otherwise the call is secured and builds exactly the client's `getProcessingResults` arguments |
| Templates.GetProcessingJob | codegen/templates/get-processing-job.js:2-10 | Throws iff the argument is nullish. Otherwise it is a secured GET on `/v1/processes/<puuid>` with empty query and body |
| Templates.ResultsUnderJob | codegen/templates/get-processing-results.js:4 | The results path is the job's path followed by `/result` |
| Manifest.MapTypesAt | api/lambda-api-processing-result-get.js:20-27 | The table gives the six listed renames and nothing else |
| Manifest.RenameMeaning | api/lambda-api-processing-result-get.js:52 | A listed type becomes its new name; any other type is kept |
| Manifest.NewNameUnlisted | api/lambda-api-processing-result-get.js:20-27 | No new name is itself a listed old name |
| Manifest.RenameIdempotent | api/lambda-api-processing-result-get.js:52 | Renaming twice is renaming once |
| Manifest.ShapeSnoc | api/lambda-api-processing-result-get.js:49-75 | The loop after one more entry is the loop before it plus that entry's push |
| Manifest.ShapeStaysThrown | api/lambda-api-processing-result-get.js:49-75 | Once an entry throws, the whole loop throws that exception |
| Manifest.PlaceEntry | api/lambda-api-processing-result-get.js:50-73 | The `forEach` callback places one entry as `ShapeEntry` says |
| Manifest.ShapeManifest | api/lambda-api-processing-result-get.js:44-82 | The handler checks the status first, then pushes entry by entry; its result is `Handle` |
| Manifest.Placements | api/lambda-api-processing-result-get.js:49-75 | There is one placement per entry |
| Manifest.PlacementsOk | api/lambda-api-processing-result-get.js:49-75 | The placements exist iff every entry can be shaped |
| Manifest.PlacementsAt | api/lambda-api-processing-result-get.js:49-75 | The i-th placement is the i-th entry shaped |
| Manifest.ShapeIsPartition | api/lambda-api-processing-result-get.js:47-82 | The loop throws iff some entry does. Otherwise `layers` are the layer placements and `files` the file placements, each in manifest order |
| Manifest.PartitionCount | api/lambda-api-processing-result-get.js:58-72 | Every kept entry lands in exactly one list |
| Manifest.KeptAreTyped | api/lambda-api-processing-result-get.js:51 | Exactly the entries with a truthy `type` are kept |
| Manifest.HandleCounts | api/lambda-api-processing-result-get.js:47-82 | For an ok response, the two lists together hold as many entries as the manifest has typed entries |
| Manifest.ShapeEntryMeaning | api/lambda-api-processing-result-get.js:50-73 | A nullish entry throws and an untyped entry is dropped. For a textual renamed type, the entry is a layer iff the type contains `3dtiles`. A layer holds the type, the bucket and `<puuid>/3dtiles/<pointcloud or undefined>/tileset.json`. A file holds `filename` as name, `projection` as ccrs, the type, an empty URL, the bucket, `<puuid>/<filename>`, and the resolution or `full` when it is undefined |
| Manifest.NoOccurrence | api/lambda-api-processing-result-get.js:53 | Text none of whose characters starts the pattern has no occurrence of it |
| Manifest.NewNamesWithoutThree | api/lambda-api-processing-result-get.js:21-26 | No new name holds the digit 3 |
| Manifest.RenamedTypesAreFiles | api/lambda-api-processing-result-get.js:52-72 | An entry with a listed type always becomes a file, never a layer |
| Manifest.FailedStatusIsReferenceError | api/lambda-api-processing-result-get.js:44-45 | As written, a failed response throws a ReferenceError for `uuid`, never the error naming the job |
| Manifest.HandleIntendedMeaning | api/lambda-api-processing-result-get.js:44-45 | Corrected, a failed response throws an Error whose message names the job; an ok response is handled as before |

## Left out

- Reading and writing files, YAML output, `swagger-parser` dereferencing and its file resolver. The model starts from the dereferenced document.
- The text rendering of the templates: mustache escaping, lookup in parent contexts, `js-beautify`, and the module wiring in `main.js`, `render.js` and `index.js`. `GeneratedMethod` models the behaviour of the rendered method for one operation record.
- Quotes or backslashes in a parameter name or path, which would break the rendered JavaScript text. The model takes the name as rendered.
- Properties inherited through the prototype chain. `mapTypes['constructor']` and similar lookups read only own properties in the model.
- `Object.keys` of strings and arrays. Spreading or listing the keys of a non-object is read as having no keys, except for the JSON body text in `request`, whose keys are its character positions.
- Objects are ordered property lists in insertion order. The JavaScript rule that integer-like keys come first is not modelled.
- Floating point. Numbers are integers. ToNumber of a string reads only the empty string and strings of decimal digits; any other string is NaN.
- Asynchrony and concurrency. Two overlapping `request` calls can each refresh the token; the model runs calls one at a time.
- `fetch` retries, network failures, and a `res.json()` that rejects on a body that is not JSON. The token endpoint's reply and the response are given already parsed.
- `jws.decode` is an input function; for text that is not a JWS it returns null, and the expiry check then throws.
- `String.prototype.replace` with `$` patterns in the replacement text. `ReplaceFirst` inserts the text literally.
- `toUpperCase` beyond ASCII letters.
- Client.SettleMeaning: states the outcome for three-digit statuses only; the regular expression is also applied to the status of other lengths, which HTTP does not produce.
- Client.CreateProcessingJobMeaning: states the replaced path only when the version text holds no `{`; otherwise `replace` would act on an earlier `{id}` in the version.
- The mock's `fetch` of the manifest and the response headers it reads. `Handle` starts from the response's `ok` flag and the parsed manifest.

## Findings

| source | as written | input that shows it | evidently intended | confidence | as-written member | corrected member |
|---|---|---|---|---|---|---|
| api/lambda-api-processing-result-get.js:45 | the error message interpolates `uuid`, a name declared nowhere, so building it throws a ReferenceError | any response with `ok` false | throw `Error("Failed to retrieve processing job <puuid> data")` | high; not executed | Manifest.FailedStatusIsReferenceError | Manifest.HandleIntendedMeaning |
