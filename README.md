# go-couch client core, modelled in Dafny

This project models the client-side decision logic of a small CouchDB client library
written in Go. It covers four parts.

- **Validators** (`Utils`). The database-name rule `^[a-z][a-z0-9_$()+/-]*$`, the
  trailing-slash helper, and two reflective shape checks. `checkParameter` decides whether a
  value carries a document identity. `isValidParam` decides whether a value is a pointer the
  JSON decoder can fill.
- **Resilient transport** (`Requests`). The bounded retry loop of `makeRequest` and its five
  verb wrappers. The network is a script with one outcome per attempt: the request cannot be
  built, the send fails, the body read fails, or a response arrives with a code and a body.
  Each sleep between attempts is counted as a wait.
- **Database resolution** (`CouchService`). `GetDB` probes a database with HEAD. On 404 it can
  create the database (`createDB`) and probe once more.
- **Document, design-document and view operations** (`Database`). Each one validates its
  arguments, issues one or two transport calls, and maps the status codes to a result. This
  part includes the status-code table `codeToError` of errors.go and the shape check of a
  view's result variable.

At the `Database` and `CouchService` level, a transport call is represented by the reply
triple it returns (`Requests.Reply`: code, body, error). `Requests.Transfer` describes how that
triple arises from the attempts. An operation returns the calls it made (verb, endpoint, body)
together with its result, so "no request is sent" can be stated exactly.

Errors are modelled as categories (`Errors.Error`), not message text:
- the sentinels, such as `NotFound` for `ErrNotFound`;
- `Status(context, code, body)` for "context: code - body";
- `Wrapped(context, inner)` for a `%w` wrapping.

`Errors.Is` is Go's `errors.Is` over that wrapping.

Go values seen through reflection are described by `Reflect.GoType`. This covers basic kinds,
interfaces, pointers, slices, maps, and structs whose fields carry a name, a type, the `json`
tag string and the embedded flag. A value passed as `any` is `Reflect.Value`: either nil, or a
dynamic type together with the key set of a map. JSON decoding is an opaque function parameter
(`Database.Unmarshal`). Given what the target held, it either yields what the target holds after
decoding (Go's decoder merges into the existing value) or fails. `GetDoc` and `View` fill
a caller-supplied pointer in place, so that pointer is a `Database.Target` object the methods
modify.

Where the code and its comments disagree, the model follows the code:
- utils.go:145 says an empty string is returned unchanged, but the code returns "/" (and its
  tests expect "/");
- the comment on `GetDB` mentions status 400, but the code tests 404;
- the tests in utils_test.go:53-72 expect tag-based struct checks, but the code looks for an
  embedded `Document`;
- `View` labels a transport failure "error creating design doc" (database.go:298), and the
  model keeps that context (`CreatingDesignDoc`);
- the comment on `UpdateDoc` (database.go:156-163) shows a map with `_id` and no `_rev` creating
  a new document, but the code refuses that map with the missing-`_rev` error before any request
  (`Database.UpdateDocMissingFields`);
- the comment on `CreateDoc` (database.go:25) names only status 200, but the code also accepts
  201.

## Model

| member | source | states |
|---|---|---|
| Reflect.FieldByName | database.go:321-337 | the field found is the first field with that name, and None exactly when no field has it |
| Utils.IsValidDBName | utils.go:66-71 | a name is valid iff it is non-empty, starts with `a-z`, and every later character is in `a-z0-9_$()+/-` (the pattern anchored at both ends) |
| Utils.RejectedDBNames | utils.go:66-71 | a name holding a character outside the class, or starting with a character other than `a-z`, is rejected |
| Utils.ValidDBNameHyphen | utils_test.go:101 | "my-database" is accepted |
| Utils.ValidDBNamePlus | utils_test.go:103 | "my+database" is accepted |
| Utils.ValidDBNameSlash | utils_test.go:110 | "my/database" is accepted |
| Utils.ValidDBNameParens | utils_test.go:102 | "my(database)" is accepted |
| Utils.ValidDBNameDollar | utils_test.go:104 | "my_database$" is accepted |
| Utils.ValidDBNameDigits | utils_test.go:99 | "my_database_123" is accepted |
| Utils.ValidDBNameMixed | utils_test.go:111 | "my+database-123_$()" is accepted |
| Utils.InvalidDBNameStartTable | utils_test.go:100-108 | "Database_123", "MyDatabase", "123database" and "_database" are rejected for their first character |
| Utils.InvalidDBNameAmpersand | utils_test.go:105 | "my_database&" is rejected |
| Utils.InvalidDBNameSpace | utils_test.go:109 | "my database" is rejected |
| Utils.AddSlashIfNeeded | utils.go:146-151 | the result ends with '/', extends the input by at most one character, and equals the input when that already ends with '/' |
| Utils.AddSlashIdempotent | utils.go:146-151 | applying the helper twice is the same as applying it once |
| Utils.AddSlashTable | utils_test.go:161-166 | the six input/output pairs of the tests, "" giving "/" included |
| Utils.CheckParameter | utils.go:18-47 | nil iff the map has both `_id` and `_rev` or the struct embeds `Document`; MissingID iff a map lacks `_id` (checked first); MissingRev iff it has `_id` but not `_rev`; MissingDocumentFields iff a struct embeds no `Document`; unsupported iff neither a map nor a struct (nil included) |
| Utils.IsValidParam | utils.go:80-97 | true iff the value is non-nil, a pointer, and points to a struct or to `map[string]interface{}` |
| Utils.ValidParamIsUnsupportedDocument | utils.go:18-47 | a pointer accepted by `isValidParam` is refused by `checkParameter` as an unsupported type |
| Utils.ValidParamTable | utils_test.go:130-144 | all fifteen argument shapes of the tests, each with its expected verdict |
| Utils.CheckParameterTable | utils_test.go:39-82 | the map, integer and nil cases of the tests, the map missing both keys reporting the missing `_id`, and a struct with and without an embedded `Document` |
| Utils.TestStructsRefused | utils_test.go:11-29 | the four struct types of the tests embed no `Document`, so the code refuses each with MissingDocumentFields, whatever their tags |
| Requests.StopIndex | requests.go:51-84 | the attempt at which the loop stops: every earlier attempt was retryable, and it is either the last allowed attempt or not retryable |
| Requests.StopIndexUnique | requests.go:51-84 | those facts single out the stopping attempt |
| Requests.MakeRequest | requests.go:37-86 | the loop returns `Transfer`'s reply after `Transfer`'s attempts and waits; every request put on the wire targets `baseURL + endpoint` with the same payload; a failed build sends nothing |
| Requests.Get | requests.go:90-92 | a GET with a nil body |
| Requests.Post | requests.go:96-98 | a POST with the caller's body |
| Requests.Put | requests.go:102-104 | a PUT with the caller's body |
| Requests.Delete | requests.go:108-110 | a DELETE with a nil body |
| Requests.Head | requests.go:114-116 | a HEAD with a nil body |
| Requests.TransferMarshalFailure | requests.go:40-47 | a body the encoder refuses fails with no attempt |
| Requests.TransferNoAttempts | requests.go:49-51 | with `maxRetries <= 0` nothing is tried, and code 0, an empty body and no error come back |
| Requests.TransferBounds | requests.go:51-85 | at most `maxRetries` attempts, at most one wait per attempt, and an error reply has code 0 and no body |
| Requests.TransferRetriesOnlyRetryable | requests.go:63-83 | every attempt but the last one ran into a send error or a code of 500 or more |
| Requests.TransferStopsAtFirstFinalResponse | requests.go:78-85 | the first response below 500 ends the loop and is returned as it is, with no error and one wait per earlier attempt |
| Requests.TransferReadErrorNotRetried | requests.go:73-76 | a body-read error ends the loop at once with the zero reply and the error |
| Requests.TransferSendError | requests.go:63-70 | a send error on the last attempt is returned; a send error on an earlier attempt is followed by a wait and another attempt |
| Requests.TransferAllServerErrors | requests.go:63-85 | when every attempt but the last is retried (a send error or 500 or more) and the last answers 500 or more, all attempts are made, the last code and body are returned without error, and a wait follows every attempt, the last one included |
| Requests.TransferScenarios | requests.go:51-85 | 500, 500, 200 gives 200 after three attempts and two waits; three 500s give 500 after three attempts and three waits; a 404 ends the loop at once; a send error then 500 and 503 gives 503 after three attempts and three waits |
| CouchService.ServiceClient | couch_service.go:43 | the client `GetDB` builds has the service's base URL, 5 attempts, a 2 s wait and a 30 s timeout |
| CouchService.ServiceClientBounded | couch_service.go:43 | that client starts at most five attempts and sleeps at most five times per call |
| CouchService.CreateDB | couch_service.go:80-92 | an invalid name is refused before any request; otherwise one PUT of the name with no body, which succeeds iff it answers 201 or 202; a transport error is wrapped, and any other code is an error carrying the code and body |
| CouchService.ProbeResult | couch_service.go:44-64 | what one probe without creation returns: the handle iff the probe answers 200, "not found" on 404, a wrapped transport error, or a status error for any other code |
| CouchService.GetDB | couch_service.go:42-65 | the HEAD probe comes first; at most three calls, and the only non-HEAD call is one PUT, possible only when creation was asked for; without creation, or when the probe does not answer 404, that probe is the only call and the result is its `ProbeResult`; after a successful creation the calls are exactly HEAD, PUT, HEAD and the result is the second probe's `ProbeResult`; a failed creation stops before the second probe and is reported wrapped; success iff the probe answers 200, or it answers 404, creation was asked for, the name is valid, the PUT answers 201/202 and the second probe answers 200; the handle then names the database and uses the service client |
| CouchService.GetDBCreateThenFind | couch_service.go:49-55 | a missing database is created and found with HEAD, PUT, HEAD; when the second probe still misses it, the result is "not found" and no second creation happens |
| CouchService.GetDBCreateRefused | couch_service.go:50-54 | an invalid name fails after the probe and before any PUT; a refused PUT is reported wrapped, with its status |
| Database.CreateDoc | database.go:49-67 | one POST of the document to the database; success iff no transport error, code 200 or 201 and a decodable body, which gives the id/ok/rev triple; a transport error is wrapped, another code is a status error, and an undecodable body is a wrapped decoding error |
| Database.GetDocOutcome | database.go:104-127 | success iff the argument passes `isValidParam`, no transport error, code 200 and a decodable body; an invalid argument, a transport error, a non-200 code and an undecodable body each give their error; a code in `codeToError` returns the mapped error unwrapped; the result is the not-found sentinel (under `errors.Is`) iff the code is 400 |
| Database.GetDocStatusTable | errors.go:8-10 | 400 maps to the not-found sentinel itself, and 404 gives a generic status error that is not that sentinel |
| Database.GetDoc | database.go:104-127 | no request when the argument fails `isValidParam`, otherwise one GET of `db/id`; the error is `GetDocOutcome`'s; on success the pointee holds what decoding the body into its previous content gives, and otherwise it is left alone |
| Database.UpdateDoc | database.go:164-178 | a document failing `checkParameter` is refused with that error wrapped and no request; otherwise one PUT of `db/id` with the document, which succeeds iff it answers 200 or 201 |
| Database.UpdateDocMissingFields | database.go:165-167 | the error wraps MissingID iff a map lacks `_id`, wraps MissingRev iff it has `_id` but lacks `_rev`, and a map without `_rev` causes no request |
| Database.DeleteDoc | database.go:201-220 | a failed read aborts with the GET as the only call and its error wrapped; otherwise a DELETE of `db/id?rev=<rev>` follows, with the `_rev` string that was read ("" when absent or not a string); success iff that answers 200 or 202 |
| Database.CreateDesignDoc | database.go:222-246 | a GET of `_design/<name>` and then a PUT of the body with id `_design/<name>`, language "javascript", the given views and autoupdate set; the body carries the revision read, or "" when the read failed; success iff the PUT answers 200 or 201 |
| Database.CheckStructForJSONFields | database.go:316-344 | passes iff `Rows` is a slice field tagged "rows", its rows have `ID` tagged "id" and `Key` tagged "key", and a `Doc` field, if present, is tagged "doc"; each failure gives its own error |
| Database.View | database.go:290-312 | a result variable of the wrong shape is refused with no request; otherwise one POST of the parameters to `db/_design/<d>/_view/<v>`; success iff code 200, the variable is a pointer and the body decodes into it, which then holds what decoding into its previous content gives; a failed decoding is its own wrapped error; otherwise the variable is unchanged |
| Database.ResultShapeWithoutRows | database.go:321-324 | a result type without `Rows` is refused |
| Database.ResultShapeWithoutID | database.go:330-334 | rows without `ID` are refused |
| Database.ResultShapeMistaggedDoc | database.go:337-341 | a `Doc` field with another tag is refused |
| Database.ResultShapeConforming | database.go:316-344 | conforming rows with a `doc` field are accepted |
| Database.DocExists | database.go:346-362 | one HEAD of `db/id`; true iff the code is 200 or 304, false iff it is 404; a transport error is wrapped, and any other code is an error carrying the code and body |

## Left out

- Real HTTP: the `http.Client`, request headers, per-attempt contexts and body closing are
  left out. A per-attempt timeout appears in the script as a send error when it strikes while
  sending, or as a read error (returned at once, with no retry) when it strikes while the body
  is read. The length of a sleep is not tracked, only the number of sleeps.
- Requests.MakeRequest: a request that cannot be built may fail on any attempt in the script,
  although in Go it fails in the same way on every attempt.
- Requests.MakeRequest: the script must hold at least `maxRetries` outcomes. The same holds for
  CouchService.GetDB, which needs one reply per call it may make (three when creation is asked
  for).
- Database.GetDoc: a typed nil pointer such as `(*T)(nil)` passes `isValidParam`, and then
  decoding into it always fails in Go. A `Target` is never nil when it is typed, so the model
  does not represent that case.
- Database.View: a typed nil pointer as the result variable passes the shape check, and then
  decoding into it fails in Go; the model does not represent that case either.
- JSON encoding and decoding (`json.Marshal`, `json.Unmarshal`) are opaque. Decoding is
  consulted for pointer targets only, and decoding into anything else fails. A decoding failure
  leaves the target unchanged, so Go's partial filling of a target before an error is not
  modelled.
- Database.CreateDesignDoc: the previous document is read as JSON, and its revision is the
  `_rev` string in it. Struct decoding of the `Rev` field is not modelled separately.
- Context cancellation (`ctx`) is not modelled.
- The URL and network helpers `isValidURLScheme`, `formAuthenticatedURL` and `testURLWithHEAD`
  (utils.go:100-142) depend on URL parsing and a live request.
- Reflection is simplified. `FieldByName` sees direct fields only, with no promotion through
  embedded structs, and a `json` tag is compared as the whole string.
- Go panics are preconditions:
  - `checkParameter` on a map other than `map[string]interface{}`;
  - `checkStructForJSONFields` on a type with no struct element type;
  - `checkStructForJSONFields` when the rows are not structs.
- The designDocument fields that no operation sets (options, filters, lists, rewrites, shows,
  updates, validate_doc_update) appear only in its Go type, not in the body value.
- Error messages are categories, not text. `errorDBNotFound` is defined outside the files
  modelled here, and is an opaque named error (`DBNotFound`).
- Tests that target other versions of the code are not followed:
  - the struct cases of utils_test.go:53-72;
  - views_test.go, which exports the shape check and puts `ID`/`Key` on the outer struct;
  - the three-argument `GetInstance` of couch_service_test.go.
