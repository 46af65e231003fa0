# xrm-webapi request encoding, modelled in Dafny

xrm-webapi is a TypeScript client for the Dynamics 365 / Dataverse Web API, an
OData 4.0 service. Each of its operations (retrieve, create, update, associate,
call an action or function, send a `$batch`) builds a request configuration:

- an HTTP method;
- a content type;
- a target path relative to the service root;
- an optional body;
- query options that become the `Prefer` header and the caller-impersonation header.

The configuration is handed to an injected transport. This project models that
encoding layer, the value types it uses, and its older single-file build.

Modules:

- `Text` holds string helpers standing in for the JavaScript built-ins used. It covers
  upper/lower case, brace removal, `join`, `indexOf`, `substring`/`substr`, the
  `/^[?]/` test, the GUID regular expression as a predicate, and CRLF splitting.
- `Models` (src/models.ts) is the validating `Guid` and its case-insensitive
  `areEqual`, plus the `QueryOptions`, `ChangeSet` and `FunctionInput` records.
  The Guid of dist/xrm-webapi.js is the same code, so it is modelled here too.
- `XrmTypes` (src/xrm-types.ts) is the other Guid class, whose constructor throws
  away the result of its brace removal.
- `WebApi` (src/webapi.ts, first part) covers the shared `WebApiConfig` object,
  the request configuration, `getPreferHeader` and `getHeaders`.
- `WebApiPaths` (src/webapi.ts) covers each operation's request configuration
  and `getFunctionInputs`, which writes the parameter list and the parameter aliases.
- `WebApiBatch` (src/webapi.ts) is the `$batch` body, line by line, and
  `batchOperation`.
- `WebApiOutcome` (src/webapi.ts, src/request.ts) covers how a transport report
  settles an operation's promise (`handleError` and the callback each operation
  passes) and how an HTTP status becomes that report.
- `Request` (src/request.ts) is the `WebApiRequest` class with its own `getHeaders`
  and `getPreferHeader`. It impersonates through `MSCRMCallerID`.
- `Legacy` and `LegacyBatch` (dist/xrm-webapi.js) are the older `WebApi` class:
  `getClientUrl`, the paths it gives retrieve, deleteProperty and disassociate,
  the record id `create` reads back, its `getPreferHeader`, `getFunctionInputs`
  and `batchOperation`.

Modelling decisions:

- **Absent values.** JavaScript `null`/`undefined` and optional members are
  `Option`. An optional boolean that is absent reads as `false`.
- **Truthiness.** `if (maxPageSize)` treats `0` as absent. `if (input.alias)`
  treats `""` as absent.
- **Objects shared by reference.** `WebApiConfig` (src/webapi.ts), `WebApiRequest`
  (src/request.ts) and the dist `WebApi` object are classes whose fields the
  source reads or assigns.
- **Methods.** Both `getFunctionInputs` versions and both `batchOperation`
  versions build their result in a loop. They are methods whose loop invariants
  tie them to a specification function. The three `getPreferHeader` versions
  (src/webapi.ts, src/request.ts and dist/xrm-webapi.js) push onto a list without
  a loop. They are methods whose ensures ties them to `PreferHeader`. The other
  operations are pure functions of their arguments.
- **Missing declarations.** src/webapi.ts imports `WebApiConfig`,
  `WebApiRequestConfig` and `WebApiRequestResult` from src/models.ts, which does
  not declare them. src/request.ts imports `WebApiConfig` from src/webapi.ts,
  which does not export it either. The model gives `WebApiConfig` the three
  members the code reads: `version`, `accessToken` and `url`.
- **Extra record fields.** src/webapi.ts reads `queryOptions.impersonateUserId`
  and `changeSets[i].method`, which src/models.ts does not declare. They are part
  of `Models.QueryOptions` and `Models.ChangeSet`.
- **Two builds that disagree.** src/webapi.ts and the bundled
  dist/xrm-webapi.js do not encode a batch the same way, and each is modelled as
  its own code reads. src/webapi.ts:718-725 ends every batch read with a blank
  line of its own, so a read is seven lines; dist/xrm-webapi.js:527-532 emits six
  lines per read, with no blank line. The dist `getFunctionInputs` appends its
  alias pairs with no separator at all (dist/xrm-webapi.js:588), where
  src/webapi.ts joins them with `&`.

## Model

| member | source | states |
|---|---|---|
| Models.NewGuid | src/models.ts:4-12 | a Guid is made exactly when the input with every `{`/`}` removed has the 8-4-4-4-12 hex shape; the stored value is 36 characters, upper case, brace-free and the same as the input ignoring case; otherwise the error is "Id <stripped> is not a valid GUID"; the Guid constructor at dist/xrm-webapi.js:4-12 is the same code |
| Models.BracedSameAsBare | src/models.ts:5 | `{h}` and `h` give the same Guid, whose value is `h` upper-cased |
| Models.ReparseIsIdentity | src/models.ts:5-8 | building a Guid from a Guid's value gives that Guid back (the stored form is canonical) |
| Models.AreEqual | src/models.ts:14-20 | false on a missing compare; otherwise true exactly when both values have the same length and agree character by character ignoring case |
| Models.AreEqualReflexive | src/models.ts:14-20 | a Guid equals itself and never equals a missing Guid |
| Models.AreEqualSymmetric | src/models.ts:19 | areEqual does not depend on argument order |
| Models.AreEqualTransitive | src/models.ts:19 | areEqual is transitive |
| Models.AreEqualOnConstructed | src/models.ts:14-20 | on constructed Guids areEqual holds exactly when the Guids are identical, and exactly when the inputs agree ignoring braces and case |
| XrmTypes.NewGuid | src/xrm-types.ts:10-18 | a Guid is made exactly when the raw input (braces kept) has the GUID shape; the value is the input upper-cased; otherwise the message names the raw input |
| XrmTypes.BracesAlwaysRejected | src/xrm-types.ts:11-16 | any input containing a brace is rejected |
| XrmTypes.BracedGuidRejected | src/xrm-types.ts:11-13 | `{h}` is rejected for every GUID `h`, while the src/models.ts Guid accepts it as `h` |
| XrmTypes.AgreesWithoutBraces | src/xrm-types.ts:10-18 | without braces in the input both Guid classes accept the same inputs, store the same value and give the same message |
| Text.RemoveBraces | src/models.ts:5 | the result has no brace and keeps every other character of the input |
| Text.RemoveBracesCounts | src/models.ts:5 | every character other than a brace occurs in the result as often as in the input |
| Text.RemoveBracesAppend | src/models.ts:5 | removing braces from a concatenation removes them from each part, so the kept characters stay in order |
| Text.GuidPatternIsShape | src/models.ts:7 | the regular expression `^[0-9a-fA-F]{8}-…{12}$` as five hex groups of 8, 4, 4, 4 and 12 joined by dashes coincides with the positional GUID shape |
| Text.UpperKeepsShape | src/models.ts:8 | upper-casing keeps the GUID shape and gives the canonical form |
| Text.WithQueryMark | src/webapi.ts:104-106 | the result starts with `?` and ends with the query string, and is at most one character longer |
| Text.WithQueryMarkIdempotent | src/webapi.ts:104-106 | prefixing `?` when missing is idempotent |
| Text.KeyBetweenParensOf | dist/xrm-webapi.js:148-150 | reading between the first `(` and the next `)` returns the key of `a(b)c` when `a` has no `(` and `b` no `)` |
| Text.IndexOf | dist/xrm-webapi.js:148-149 | `indexOf` gives -1 when the character is absent at or after `from`, otherwise its first position there |
| Text.SplitJoin | src/webapi.ts:738 | splitting a CRLF-joined list of lines without carriage returns gives the lines back |
| WebApi.WebApiConfig.constructor | src/webapi.ts:14-15 | the configuration holds the given version, token and service url that the encoders read |
| WebApi.AnnotationNames | src/webapi.ts:43-51 | each annotation name is present exactly when its flag is set, nothing else is present, the order is FormattedValue, lookuplogicalname, associatednavigationproperty, and the list is empty exactly when no flag is set |
| WebApi.RemoveEmpty | src/webapi.ts:49-51 | the filter keeps exactly the non-empty entries |
| WebApi.RemoveEmptyCounts | src/webapi.ts:49-51 | every non-empty entry is kept as often as it occurs |
| WebApi.RemoveEmptyAppend | src/webapi.ts:49-51 | filtering a concatenation filters each part, so the kept entries stay in order |
| WebApi.AnnotationsDirectivePrefix | src/webapi.ts:40-53 | the annotation directive always starts with `odata.include-annotations=` |
| WebApi.GetPreferHeader | src/webapi.ts:29-57 | the pushes and the comma join give PreferHeader(q): an optional maxpagesize directive, then `return=representation` or the annotation directive |
| WebApi.PreferHeaderShape | src/webapi.ts:32-56 | with a page size the value is the maxpagesize directive, a comma and the second directive; without one it is the single directive |
| WebApi.PreferMaxPageSizeFirst | src/webapi.ts:32-35 | the value starts with `odata.maxpagesize=` exactly when a non-zero page size is given, and then with that directive and a comma |
| WebApi.MaxPageSizeLeads | src/webapi.ts:32-35 | a given page size leads the value |
| WebApi.NoMaxPageSizeLeads | src/webapi.ts:32-35 | with no page size (or 0) the value does not start with the maxpagesize prefix |
| WebApi.PreferRepresentationLast | src/webapi.ts:37-39 | the value ends with `return=representation` exactly when representation is set; then no annotation directive is present |
| WebApi.RepresentationLeavesOutAnnotations | src/webapi.ts:37-53 | representation wins over every annotation flag |
| WebApi.AnnotationsDirectiveEnd | src/webapi.ts:42-53 | the annotation directive is non-empty and ends with a double quote |
| WebApi.PreferAnnotations | src/webapi.ts:40-53 | without representation the value ends with the annotation directive: `"*"` for all three flags, otherwise the set names comma-joined |
| WebApi.PreferAllAnnotationsExample | src/webapi.ts:40-42 | all three flags give `odata.include-annotations="*"` |
| WebApi.PreferPageSizeExample | src/webapi.ts:32-39 | page size 50 with representation gives `odata.maxpagesize=50,return=representation` |
| WebApi.PreferTwoAnnotationsExample | src/webapi.ts:32-53 | page size 0 counts as absent; two flags give `odata.include-annotations=` and their two names, in order and comma-joined, inside double quotes |
| WebApi.FixedHeaders | src/webapi.ts:9-12 | the map of the four fixed headers: exactly Accept, OData-MaxVersion, OData-Version and Content-Type, with `application/json`, `4.0`, `4.0` and the request content type |
| WebApi.GetHeaders | src/webapi.ts:6-27 | the map built step by step equals Headers of the request content type, the connection token and the options |
| WebApi.HeadersKeys | src/webapi.ts:6-27 | the header names are the four fixed ones, plus Authorization exactly when a token is set, Prefer exactly when options are given, and CallerObjectId exactly when the options carry an impersonateUserId |
| WebApi.FixedHeaderValues | src/webapi.ts:9-12 | whatever the token and options, Accept is `application/json`, both OData version headers are `4.0` and Content-Type is the request content type |
| WebApi.OptionalHeaderValues | src/webapi.ts:14-24 | Authorization is `Bearer <token>`, Prefer is PreferHeader of the options and CallerObjectId the impersonateUserId, each present exactly when its condition holds |
| WebApiPaths.EntityPathKey | src/webapi.ts:108-109 | a path beginning with `entitySet(id)` starts with that address, and the key read back from it is `id` |
| WebApiPaths.OptionalQuery | src/webapi.ts:104-109 | no query string adds nothing; a given one is added with a leading `?` |
| WebApiPaths.Retrieve | src/webapi.ts:102-117 | GET of `entitySet(id)` followed by the query string with a leading `?` when one is given; the key reads back as `id` |
| WebApiPaths.RetrieveMultiple | src/webapi.ts:139-154 | GET with the JSON content type, the caller's configuration and options and no body, of the entity set alone when no query string is given, and otherwise of the entity set followed by WithQueryMark of the query string (a `?` only where it lacks one) |
| WebApiPaths.RetrieveMultipleNextPage | src/webapi.ts:175-185 | the shared configuration's url becomes the next-page link, the rest of it is unchanged, and the request is a GET with an empty relative path |
| WebApiPaths.Create | src/webapi.ts:207-216 | POST to the entity set with the serialized entity and the caller's options |
| WebApiPaths.WithRepresentation | src/webapi.ts:245-250 | the options get `representation` set and are otherwise the caller's (or empty when none were given) |
| WebApiPaths.CreateWithReturnData | src/webapi.ts:239-259 | POST to the entity set plus the `?`-prefixed select, sending the caller's options (or `{}`) with only `representation` set, so page size and impersonation go out unchanged; the Prefer value then ends with `return=representation` |
| WebApiPaths.Update | src/webapi.ts:282-291 | PATCH of `entitySet(id)` with the serialized entity |
| WebApiPaths.UpdateWithReturnData | src/webapi.ts:315-336 | PATCH of `entitySet(id)` plus the `?`-prefixed select, sending the caller's options (or `{}`) with only `representation` set; the Prefer value ends with `return=representation` |
| WebApiPaths.UpdateProperty | src/webapi.ts:359-368 | PUT of `entitySet(id)/attribute` with the body `{value: …}` |
| WebApiPaths.DeleteRecord | src/webapi.ts:389-396 | DELETE of `entitySet(id)` with no body and no options |
| WebApiPaths.DeleteProperty | src/webapi.ts:418-427 | DELETE of `entitySet(id)/attribute` with no body and no options |
| WebApiPaths.Associate | src/webapi.ts:452-466 | POST to `entitySet(id)/relationship/$ref` whose body references the related record under the configured url |
| WebApiPaths.NavigationReference | src/webapi.ts:491-497 | the property, with `(relatedId)` exactly when a related id is given, then `/$ref` |
| WebApiPaths.Disassociate | src/webapi.ts:489-504 | DELETE of `entitySet(id)/` followed by the navigation reference; it ends with `/$ref` and the key reads back as `id` |
| WebApiPaths.DisassociateRelatedSegment | src/webapi.ts:493-495 | the related id reads back from the reference segment |
| WebApiPaths.ActionBody | src/webapi.ts:540-542 | a body is sent exactly when inputs are given, and is their serialization |
| WebApiPaths.BoundAction | src/webapi.ts:528-542 | POST to `entitySet(id)/Microsoft.Dynamics.CRM.<action>` with the optional inputs as body |
| WebApiPaths.UnboundAction | src/webapi.ts:568-581 | POST to the action name with the optional inputs as body |
| WebApiPaths.GetFunctionInputs | src/webapi.ts:59-84 | the loop appends `name=value,` or `name=@alias,` per input and the result equals FunctionInputs: the trailing character dropped, `)` added, then `?` and the `&`-joined alias pairs when there is any |
| WebApiPaths.Params | src/webapi.ts:66-73 | one parameter text per input, in order |
| WebApiPaths.AppendedIsJoin | src/webapi.ts:66-77 | the appended parameters are the comma-joined parameter texts plus one trailing comma |
| WebApiPaths.FunctionInputsNonEmpty | src/webapi.ts:64-83 | with inputs the call is the prefix, the comma-joined parameters, `)` and the alias query: dropping the last character removes exactly the trailing comma |
| WebApiPaths.FunctionInputsEmpty | src/webapi.ts:60-77 | no inputs closes the call; an empty list makes `substr` eat the opening `(` |
| WebApiPaths.AliasPairsCount | src/webapi.ts:68-71 | there is one alias pair per aliased input |
| WebApiPaths.AliasPairsComplete | src/webapi.ts:68-71 | every aliased input contributes its `@alias=value` pair and every pair comes from an aliased input |
| WebApiPaths.AliasQueryPresent | src/webapi.ts:79-81 | the alias query is present exactly when some input has a non-empty alias, and then starts with `?` |
| WebApiPaths.AliasedInputExample | src/webapi.ts:59-84 | one aliased input gives `f(Target=@tid)?@tid=X` |
| WebApiPaths.PlainInputExample | src/webapi.ts:59-84 | a plain input gives `f(Count=5)` |
| WebApiPaths.TwoAliasesExample | src/webapi.ts:77-81 | two aliases give `f(A=@a,B=@b)?@a=1&@b=2` |
| WebApiPaths.BoundFunction | src/webapi.ts:609-621 | GET of `entitySet(id)/Microsoft.Dynamics.CRM.<function>(` followed by the function inputs; the key reads back as `id` |
| WebApiPaths.UnboundFunction | src/webapi.ts:647-658 | GET of `<function>(` followed by the function inputs |
| WebApiPaths.FunctionCallKeepsPath | src/webapi.ts:612-613 | writing the inputs never alters the path before the opening parenthesis |
| WebApiBatch.BatchOperation | src/webapi.ts:686-742 | the pushes of both loops and the closing boundary, joined with CRLF, equal BatchLines; the request is a POST to `$batch` with content type `multipart/mixed;boundary=batch_<id>` |
| WebApiBatch.PushChangeSet | src/webapi.ts:692-715 | the opening lines, nine lines per change set and the closing lines equal ChangeSetPart, which is empty without change sets |
| WebApiBatch.PushReads | src/webapi.ts:718-730 | after the lines so far come seven lines per read and one blank line when there was any read, i.e. GetPart |
| WebApiBatch.ChangeSetEntry | src/webapi.ts:700-710 | a change set entry is nine lines |
| WebApiBatch.GetRequest | src/webapi.ts:719-725 | a read is seven lines |
| WebApiBatch.ChangeSetEntriesLength | src/webapi.ts:699-711 | the entries are nine lines per change set |
| WebApiBatch.ChangeSetEntryAt | src/webapi.ts:699-711 | line k of entry i sits at 9i+k |
| WebApiBatch.GetRequestsLength | src/webapi.ts:718-726 | the reads are seven lines per read |
| WebApiBatch.GetRequestAt | src/webapi.ts:718-726 | line k of read j sits at 7j+k |
| WebApiBatch.BatchLineCount | src/webapi.ts:692-732 | the body has 5+9n change set lines (none when n = 0), 7 per read, one blank line when there is a read, and the closing boundary |
| WebApiBatch.ChangeSetFraming | src/webapi.ts:692-716 | the change set framing appears exactly when there are change sets: opening boundary, multipart content type and blank line first, closing `--changeset_<id>--` and a blank line after the entries |
| WebApiBatch.ChangeSetLineAt | src/webapi.ts:699-711 | line 3+9i+k of the body is line k of entry i |
| WebApiBatch.ChangeSetEntryLines | src/webapi.ts:700-710 | entry i starts with the change set boundary, carries Content-ID i+1, the request line `<method> <url>/<path> HTTP/1.1` and the entity last |
| WebApiBatch.GetLineAt | src/webapi.ts:718-726 | line ChangeSetLines+7j+k of the body is line k of read j |
| WebApiBatch.GetRequestLines | src/webapi.ts:719-725 | read j opens with the batch boundary, has the line `GET <url>/<get> HTTP/1.1` and `Accept: application/json`, and ends with a blank line |
| WebApiBatch.BatchClosing | src/webapi.ts:728-732 | the body ends with `--batch_<id>--`, preceded by a blank line when there are reads |
| WebApiBatch.LinesWithoutCrAppend | src/webapi.ts:738 | pushing lines without carriage returns keeps the body free of them |
| WebApiBatch.RequestLineWithoutCr | src/webapi.ts:705-723 | a request line has no carriage return when its parts have none |
| WebApiBatch.ChangeSetEntriesWithoutCr | src/webapi.ts:699-711 | the entries have no carriage return when the inputs have none |
| WebApiBatch.GetRequestsWithoutCr | src/webapi.ts:718-726 | the reads have no carriage return when the inputs have none |
| WebApiBatch.BatchBodyRoundTrip | src/webapi.ts:738 | when no input holds a carriage return, splitting the body at CRLF gives back exactly the pushed lines |
| WebApiBatch.BatchScenario | src/webapi.ts:686-738 | one create and one read give a 23-line body with the boundaries, Content-ID 1 and both request lines in place |
| WebApiOutcome.HandleError | src/webapi.ts:86-92 | the rejection reason is the parsed response's `error` member, or an "Unexpected Error" exactly when the response cannot be parsed |
| WebApiOutcome.Settle | src/webapi.ts:119-128 | a failed request is rejected with handleError's reason; otherwise it resolves with the parsed body, nothing, the parsed body only when non-empty, or the raw body only when non-empty, by operation kind |
| WebApiOutcome.ReportOf | src/request.ts:46-50 | the transport reports a failure exactly when the status is outside 200-299, and passes the response on |
| WebApiOutcome.StatusDecidesRejection | src/request.ts:92-96 | an operation is rejected exactly when the status is outside 200-299; an empty 2xx body yields no value except where the body is parsed unconditionally |
| WebApiOutcome.RejectionIgnoresResolution | src/webapi.ts:743-748 | a failed request is rejected the same way whatever the operation |
| Request.WebApiRequest.constructor | src/request.ts:24-26 | the request object holds the given configuration |
| Request.WebApiRequest.GetHeaders | src/request.ts:112-134 | the map built step by step equals RequestHeaders of the request content type, the token of the object's own settings and the options |
| Request.RequestHeadersKeys | src/request.ts:112-134 | the four fixed headers, Authorization exactly when the token is set, Prefer exactly when options are given, MSCRMCallerID exactly when they carry impersonateUser |
| Request.RequestFixedHeaderValues | src/request.ts:116-119 | Accept is `application/json`, both OData version headers are `4.0` and Content-Type is the request content type |
| Request.RequestOptionalHeaderValues | src/request.ts:121-131 | Authorization is `Bearer <token>`, Prefer is PreferHeader of the options, MSCRMCallerID the Guid's value, each exactly when it applies; CallerObjectId is never sent |
| Request.WebApiRequest.GetPreferHeader | src/request.ts:136-163 | the value is PreferHeader(q), the same value the free function of src/webapi.ts computes |
| Request.PreferHeaderOrder | src/request.ts:140-160 | that value starts with `odata.maxpagesize=` exactly when a page size is given, ends with `return=representation` exactly when representation is set, and otherwise ends with the annotation directive |
| Legacy.WebApi.constructor | dist/xrm-webapi.js:28-32 | the object holds the given version, token and url |
| Legacy.WebApi.GetClientUrl | dist/xrm-webapi.js:37-44 | the url is the versioned service root followed by the query string (empty by default); with an organisation url set, the root is that url plus `/api/data/v<version>/` |
| Legacy.ClientUrlIgnoresContext | dist/xrm-webapi.js:39-40 | with an organisation url the hosting page's url is never consulted, and the default query string is empty |
| Legacy.RetrievePath | dist/xrm-webapi.js:52-57 | `entitySet(<guid value>)`, followed by the query string with a leading `?` exactly when one is given |
| Legacy.RetrieveAgrees | dist/xrm-webapi.js:52-57 | the dist retrieve path equals the src/webapi.ts one for the Guid's value |
| Legacy.CreatedId | dist/xrm-webapi.js:147-152 | the id is the text between the first `(` and the following `)` of the OData-EntityId header, made a Guid: accepted exactly when that text (braces removed) is a GUID, and then its canonical value equals that text ignoring case; a missing header fails, and a non-GUID key fails with NewGuid's message |
| Legacy.CreatedIdOfKey | dist/xrm-webapi.js:147-152 | any GUID text, in either case, between the first `(` and the next `)` of the header is accepted, and the returned id equals it ignoring case |
| Legacy.CreatedIdRoundTrip | dist/xrm-webapi.js:147-152 | the id read back from `<root>entitySet(<id>)` is the created record's Guid |
| Legacy.GuidShapeHasNoParens | dist/xrm-webapi.js:149 | a canonical Guid value contains no `)`, so `indexOf(")")` finds the closing parenthesis |
| Legacy.MalformedEntityIdRejected | dist/xrm-webapi.js:148-152 | a header without parentheses reads as the empty key and is rejected |
| Legacy.DeletePropertyPath | dist/xrm-webapi.js:278-283 | `entitySet(id)/attribute`, longer exactly when it is a navigation property, and then ending with `/$ref` |
| Legacy.DeletePropertyAgrees | dist/xrm-webapi.js:278-283 | a plain property gives the src deleteProperty path; a navigation property gives the src disassociate path without a related id |
| Legacy.IdText | dist/xrm-webapi.js:342-343 | an optional Guid's value, present exactly when the Guid is |
| Legacy.DisassociatePath | dist/xrm-webapi.js:340-348 | `entitySet(id)/relationship` followed by the related Guid in parentheses when given, ending with `/$ref` |
| Legacy.DisassociateAgrees | dist/xrm-webapi.js:340-348 | the dist disassociate path equals the src one for the Guids' values |
| Legacy.WebApi.GetPreferHeader | dist/xrm-webapi.js:600-621 | the value is the src/webapi.ts PreferHeader of the same options with representation switched off |
| Legacy.LegacyPreferOrder | dist/xrm-webapi.js:600-621 | so it starts with the page size exactly when one is given, always ends with the annotation directive and never with `return=representation` |
| Legacy.WebApi.GetFunctionInputs | dist/xrm-webapi.js:579-599 | the loop's result equals the dist FunctionInputs: parameters as in src/webapi.ts, then `?` and the alias pairs concatenated when any input is aliased |
| Legacy.AliasTextAt | dist/xrm-webapi.js:586-589 | each aliased input appends its pair to the alias text, others leave it unchanged |
| Legacy.AliasSuffixPresent | dist/xrm-webapi.js:595-597 | the alias text grows past `?` exactly when some input has a non-empty alias |
| Legacy.AgreesWithOneAlias | dist/xrm-webapi.js:579-599 | with at most one aliased input the dist result equals the src/webapi.ts result |
| Legacy.TwoAliasesRunTogether | dist/xrm-webapi.js:588-596 | two aliases give `f(A=@a,B=@b)?@a=1@b=2` |
| Legacy.TwoAliasesDiffer | dist/xrm-webapi.js:588-596 | and that differs from the src/webapi.ts result |
| Legacy.WebApi.BatchOperation | dist/xrm-webapi.js:496-537 | POST to the client url of `$batch`, MSCRMCallerID exactly when a user is impersonated, and a body equal to the dist BatchLines joined with CRLF |
| Legacy.WebApi.PushChangeSet | dist/xrm-webapi.js:503-523 | the opening lines, nine lines per change set (a POST to the client url of its path) and the closing lines equal the dist ChangeSetPart |
| Legacy.WebApi.PushReads | dist/xrm-webapi.js:525-536 | after the lines so far come six lines per read and one blank line when there was any read, i.e. the dist GetPart |
| LegacyBatch.Entry | dist/xrm-webapi.js:510-518 | a dist change set entry is nine lines |
| LegacyBatch.Get | dist/xrm-webapi.js:527-532 | a dist read is six lines |
| LegacyBatch.EntriesLength | dist/xrm-webapi.js:509-519 | nine lines per change set |
| LegacyBatch.EntryAt | dist/xrm-webapi.js:509-519 | line k of entry i sits at 9i+k |
| LegacyBatch.GetsLength | dist/xrm-webapi.js:525-533 | six lines per read |
| LegacyBatch.GetAt | dist/xrm-webapi.js:525-533 | line k of read j sits at 6j+k |
| LegacyBatch.LineCount | dist/xrm-webapi.js:503-537 | the body has 5+9n change set lines (none when n = 0), 6 per read, one blank line when there is a read, and the closing boundary |
| LegacyBatch.EntryLineAt | dist/xrm-webapi.js:509-519 | line 3+9i+k of the body is line k of entry i |
| LegacyBatch.EntryLines | dist/xrm-webapi.js:510-518 | entry i carries Content-ID i+1, the line `POST <root><path> HTTP/1.1` whatever the entry's method, and the entity last |
| LegacyBatch.GetLineAt | dist/xrm-webapi.js:525-533 | line ChangeSetLines+6j+k of the body is line k of read j |
| LegacyBatch.GetLines | dist/xrm-webapi.js:527-536 | read j has its boundary, `GET <root><get> HTTP/1.1` and the Accept line, and is followed directly by the next read's boundary, or by the one blank line after the last read |
| LegacyBatch.AfterGet | dist/xrm-webapi.js:525-536 | the line after read j is the next read's boundary, or the blank line after the last read |
| LegacyBatch.LastLine | dist/xrm-webapi.js:537 | the body ends with `--batch_<id>--` |
| LegacyBatch.PostLineAgrees | dist/xrm-webapi.js:515 | a dist POST line with root `<url>/` is the src/webapi.ts request line |
| LegacyBatch.EntriesAgree | dist/xrm-webapi.js:509-519 | for change sets that are all POSTs the dist entries equal the src/webapi.ts entries |
| LegacyBatch.WritesOnlyAgree | dist/xrm-webapi.js:503-537 | a batch of POST change sets without reads has the same body in both builds |
| LegacyBatch.ReadsDiffer | dist/xrm-webapi.js:525-536 | a single read gives 8 lines in the dist build and 9 in src/webapi.ts |

## Left out

- Transport: XMLHttpRequest, the Node `https` request, `encodeURI` of the url, the
  `Content-Length` header, promises and callbacks. The transport is injected in
  src/webapi.ts and is I/O in src/request.ts and dist/xrm-webapi.js. Only the
  status-to-report mapping (`WebApiOutcome.ReportOf`) is modelled.
- JSON: entities, action inputs and responses are opaque strings. `JSON.stringify`
  is a `Payload` constructor, and `JSON.parse` and its `error` member are function
  parameters of `WebApiOutcome`.
- The hosting page: `GetGlobalContext()` / `Xrm.Page.context` in the dist
  `getClientUrl` is a `contextUrl` parameter.
- src/webapi-node.ts, src/webapi-browser.ts and src/xrm-webapi.ts: they wrap the
  same encoders around a transport and are not part of this model.
- In dist/xrm-webapi.js, the operations other than those listed in the `Legacy`
  bullet under "Modules" above are only modelled through the shared pieces they use (`getRequest` paths,
  `getPreferHeader`, `getClientUrl`). They are not given request records of their
  own, and neither are the headers `getRequest` sets, such as `Cache-Control`.
  The dist promise outcomes (exact 200/204 checks) are also left out.
- WebApiOutcome.Settle: `parse` is a total function, so a ParsedBody or
  ParsedBodyIfAny operation whose 2xx reply is not JSON resolves in the model. In
  the source `JSON.parse` throws inside the callback (src/webapi.ts:125 and 162)
  and the promise never settles. Exceptions are not modelled.
- WebApiOutcome.Settle: a transport error event reports a non-string error
  object, which is modelled as a response string.
- WebApiPaths.CreateWithReturnData: sets `representation` on a copy of the options.
  The source assigns it on the caller's own object, so the caller sees the change.
  The same holds for WebApiPaths.UpdateWithReturnData.
- WebApiPaths.CreateWithReturnData: `select` is a required string. A `null`
  select (allowed only by casting away the declared type) is not modelled. The
  same holds for WebApiPaths.UpdateWithReturnData.
- `maxPageSize` is a JavaScript number. It is modelled as an integer, so
  fractional, negative-zero and NaN page sizes and their float printing are left
  out.
- Models.AreEqual: the `this === null` / `undefined` test cannot fail on a method
  receiver and is not modelled. A missing argument is `None`.
- Text.UpperChar and Text.LowerChar map only the ASCII letters, where
  JavaScript's `toUpperCase` and `toLowerCase` also map other letters. This is
  exact on constructed Guids, whose values are hexadecimal text. Models.AreEqual
  on arbitrary non-ASCII values is therefore not modelled exactly.
- Regular expressions are predicates written out by position (`Text.IsGuidShape`,
  `Text.HasQueryMark`). No general regex engine is modelled.

## Findings

| source | as written | input that shows it | evidently intended | confidence | as-written member | corrected member |
|---|---|---|---|---|---|---|
| src/xrm-types.ts:11 | `value.replace(/[{}]/g, "")` discards its result, so the pattern is tested on the braced text | `new Guid("{00000000-0000-0000-0000-000000000000}")` throws | braces stripped before the test, as in src/models.ts:5 | high; not executed | XrmTypes.BracedGuidRejected | Models.NewGuid (with Models.BracedSameAsBare) |
| dist/xrm-webapi.js:588 | each alias pair is appended to `aliases` with no separator | inputs `A=@a` (value 1) and `B=@b` (value 2) give `?@a=1@b=2` | pairs separated by `&`, as src/webapi.ts:80 does | high; not executed | Legacy.TwoAliasesRunTogether | WebApiPaths.TwoAliasesExample (via WebApiPaths.FunctionInputs) |
| dist/xrm-webapi.js:527-532 | a read part has no blank line after its headers. The next read's boundary follows the Accept line directly, so the embedded request's header block is never closed | two reads: line 6 of the read part is `--batch_<id>` right after `Accept: application/json` | a blank line ending each read, as src/webapi.ts:725 pushes | medium; not executed | LegacyBatch.GetLines | WebApiBatch.GetRequestLines |
