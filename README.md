# Sparrow API core, modelled in Dafny

This project models the core logic of five parts of the Sparrow API server, a NestJS backend for an API-testing client:

- **Socket.IO proxy gateway** (`ProxyGateway`). `SocketIoGateway.handleConnection` does the following:
  - validates the handshake query (`targetUrl`, `namespace`, `headers`);
  - folds the JSON header list into a map;
  - opens the target connection;
  - relays every inbound event to the target, except the reserved `sparrow_internal_disconnect`;
  - chains disconnects.

  One session is a class whose state is the registered wiring plus a log of the calls made on the two sockets. Pure functions (`Setup`, `React`, `Relay`, `Run`) specify that log.
- **App service** (`AppService`):
  - semantic version comparison (`isVersionGreater`);
  - the updater endpoint (`getUpdaterDetails`);
  - cURL text normalisation (`formatCurl`);
  - collapsing of repeated URL schemes (`handleFormatUrl`);
  - `transformRequest`, which turns a parsed cURL command into a collection request item. It covers the method, name, queries, API-key / bearer / basic auth, body type, files, headers and the defaulting of empty lists.
- **OpenAPI 2 import** (`Oapi2Transformer`):
  - `transformPath` turns each operation of a path into a request item, covering the URL walk, query segments, `consumes`, the `api_key` security definition and parameter routing;
  - `createCollectionItems` collects all operations and groups them into one folder per tag.
- **Collection item tree** (`CollectionRequest`):
  - folder lookup (`checkFolderExist` / `isFolderExist`);
  - depth-first search (`findItemById`);
  - the request counter (`getNoOfRequest`);
  - the workspace permission check;
  - the list edits of `addFolder`, `updateFolder` and `deleteFolder`, on a store class holding the collections' item lists.
- **User verification rules** (`UserService`):
  - register-status classification;
  - the verification-code, e-mail-code and magic-code checks, and the state each leaves behind;
  - the magic-code cooldown and timestamp shift;
  - `getFirstName`;
  - the duplicate-e-mail check of `createUser`.

Shared string helpers live in `StringUtil`: JavaScript `trim`, `split`, `indexOf` and ASCII case mapping, plus `Option` and `Result`. The request record shared by the two transformers lives in `CollectionModel`.

Library calls are not modelled. Their results are inputs to the model. This covers:
- curlconverter, `JSON.parse`, `JSON.stringify`, `URLSearchParams` and the base64 decode;
- the example-value builder and the base-URL helper of the OpenAPI import;
- the database and the clock.

Timestamps are integers in milliseconds.

## Model

| member | source | states |
|---|---|---|
| ProxyGateway.FoldHeaders | src/modules/proxy/gateway/socketio.gateway.ts:40-51 | The reducer loop with its mutable accumulator computes exactly the header map `HeaderMap` (None when an element is null). |
| ProxyGateway.NullAbortsFold | src/modules/proxy/gateway/socketio.gateway.ts:41-51 | A null element anywhere in the header list makes the whole fold fail. |
| ProxyGateway.HeaderMapFailsIffNull | src/modules/proxy/gateway/socketio.gateway.ts:41-51 | The fold fails if and only if some element of the list is null. |
| ProxyGateway.HeaderMapKeys | src/modules/proxy/gateway/socketio.gateway.ts:41-51 | A successful fold holds exactly the keys that occur in the list. |
| ProxyGateway.HeaderMapLastWins | src/modules/proxy/gateway/socketio.gateway.ts:41-51 | Each key maps to the value of its last occurrence. |
| ProxyGateway.DuplicateHeaderLastWins | src/modules/proxy/gateway/socketio.gateway.ts:41-51 | Two entries with the same key give a one-key map with the second value. |
| ProxyGateway.MissingParametersOnlyDisconnect | src/modules/proxy/gateway/socketio.gateway.ts:30-38 | A missing or empty `targetUrl` or `namespace` leads only to disconnecting the inbound socket, whatever events follow: no connect and no relay. |
| ProxyGateway.HeaderFailureOnlyDisconnects | src/modules/proxy/gateway/socketio.gateway.ts:40-84 | An unparsable, non-list or absent `headers` value, or a failing fold, leaves no handlers and only disconnects the inbound socket. |
| ProxyGateway.ConnectFailureDisconnects | src/modules/proxy/gateway/socketio.gateway.ts:54-84 | A throwing connect is attempted once with the folded headers, then the inbound socket is disconnected and nothing is relayed. |
| ProxyGateway.ConnectReceivesHandshake | src/modules/proxy/gateway/socketio.gateway.ts:54-59 | With valid parameters, the first call is the connect, carrying the handshake's URL, namespace and folded headers. |
| ProxyGateway.SilentWithoutTarget | src/modules/proxy/gateway/socketio.gateway.ts:61-78 | Without registered handlers, or with a null target socket, inbound signals cause no calls. |
| ProxyGateway.RelayForwardsInOrder | src/modules/proxy/gateway/socketio.gateway.ts:67-78 | With a live target, the emits made on the target are exactly the forwardable inbound events: each once, in order, with its name and its whole argument list (the corrected forwarding, see Findings). |
| ProxyGateway.EmittedAppend | src/modules/proxy/gateway/socketio.gateway.ts:72-74 | Emits of a concatenated log are the concatenation of the emits. |
| ProxyGateway.InternalDisconnectNeverEmitted | src/modules/proxy/gateway/socketio.gateway.ts:69-71 | `sparrow_internal_disconnect` is never emitted to the target. |
| ProxyGateway.TargetDisconnectedIff | src/modules/proxy/gateway/socketio.gateway.ts:61-71 | The target is disconnected if and only if an inbound `disconnect` or `sparrow_internal_disconnect` arrives. |
| ProxyGateway.RelayAppend | src/modules/proxy/gateway/socketio.gateway.ts:61-78 | Handlers react to each signal independently: the reaction to `a + b` is the reaction to `a` followed by that to `b`. |
| ProxyGateway.FirstArgumentOnly | src/modules/proxy/gateway/socketio.gateway.ts:67-74 | As written, an event with arguments `"a", "b"` reaches the target as `emit("e", "a")`, while forwarding passes both, so the two reactions differ. |
| ProxyGateway.AsWrittenAgreesOutsideEmit | src/modules/proxy/gateway/socketio.gateway.ts:61-78 | The as-written handler differs from the corrected one only at the emit: there it carries the first argument (or `undefined`) instead of the whole list; disconnects, the reserved event, throwing emits and a missing target are treated alike. |
| ProxyGateway.ProxySession.constructor | src/modules/proxy/gateway/socketio.gateway.ts:29 | A new session has no handlers and an empty log. |
| ProxyGateway.ProxySession.HandleConnection | src/modules/proxy/gateway/socketio.gateway.ts:29-85 | Connection handling leaves the wiring and the call log given by `Setup`. |
| ProxyGateway.ProxySession.OnInboundEvent | src/modules/proxy/gateway/socketio.gateway.ts:67-78 | An inbound event appends the `onAny` reaction to the log (its whole argument list forwarded) and keeps the handlers, also when the emit throws. |
| ProxyGateway.ProxySession.OnInboundDisconnect | src/modules/proxy/gateway/socketio.gateway.ts:61-64 | An inbound disconnect appends the target disconnect (when there is a target) and keeps the handlers. |
| CollectionModel.PadRows | src/modules/app/app.service.ts:468-483 | An empty row list becomes the single default row; a non-empty one is unchanged. |
| CollectionModel.PadDefaults | src/modules/app/app.service.ts:468-483 | Every row list of the request is non-empty afterwards; the other fields are unchanged, and non-empty lists are kept. |
| AppService.VersionParts | src/modules/app/app.service.ts:50-51 | A version has one numeric part per dot-separated component. |
| AppService.IsVersionGreater | src/modules/app/app.service.ts:48-63 | True iff both versions are non-empty and the first differing component (a missing or non-numeric one counting as 0) is greater in the first. |
| AppService.FirstDifferenceDecides | src/modules/app/app.service.ts:53-59 | When all earlier components agree, the first differing component decides, in one direction only. |
| AppService.SameVersionNotGreater | src/modules/app/app.service.ts:53-62 | Versions that agree component-wise are not greater either way. |
| AppService.PartsGreaterIsStrictOrder | src/modules/app/app.service.ts:53-62 | The comparison is irreflexive, asymmetric and transitive. |
| AppService.PartsTrichotomy | src/modules/app/app.service.ts:53-62 | Of two versions, one is greater or they are the same version. |
| AppService.FirstDifference | src/modules/app/app.service.ts:53-59 | If two versions differ somewhere, there is a first index where they differ. |
| AppService.TrailingZeroIsSameVersion | src/modules/app/app.service.ts:54-56 | A trailing `.0` does not change the version ("1.2" is the same as "1.2.0"). |
| AppService.GetUpdaterDetails | src/modules/app/app.service.ts:65-99 | OK with the platform data iff `updateAvailable` is "true" and the configured version is greater than the current one; otherwise NO_CONTENT with null data; equal versions always give NO_CONTENT. |
| AppService.CollapseSingleSpaced | src/modules/app/app.service.ts:105 | Collapsing whitespace runs to a single space leaves no two adjacent whitespace characters, and only plain spaces. |
| AppService.FormatCurlNormalized | src/modules/app/app.service.ts:101-108 | The output has no leading or trailing whitespace and no whitespace run. |
| AppService.CollapseFixpoint | src/modules/app/app.service.ts:105 | Collapsing text that is already single-spaced changes nothing. |
| AppService.NormalizedFixpoint | src/modules/app/app.service.ts:105 | Collapse and trim leave normalised text unchanged. |
| AppService.TrimNormalizes | src/modules/app/app.service.ts:105 | Trimming single-spaced text normalises it. |
| AppService.FixCurlPrefixKeepsNormalized | src/modules/app/app.service.ts:102 | Rewriting a leading case-insensitive `curl` to lower case keeps normalised text normalised. |
| AppService.FormatCurlTwice | src/modules/app/app.service.ts:101-108 | A second pass only re-applies the prefix rewrite. |
| AppService.FormatCurlKeepsText | src/modules/app/app.service.ts:101-108 | Apart from the prefix rewrite, formatting changes only whitespace: the non-whitespace characters are kept in order. |
| AppService.NonSpaceCollapse | src/modules/app/app.service.ts:105 | Collapsing whitespace keeps the non-whitespace characters. |
| AppService.NonSpaceTrim | src/modules/app/app.service.ts:105 | Trimming keeps the non-whitespace characters. |
| AppService.FormatCurlNotIdempotent | src/modules/app/app.service.ts:101-108 | As written, `" CURL"` formats to `"CURL"` and that formats to `"curl"`. |
| AppService.FormatCurlFixedIdempotent | src/modules/app/app.service.ts:101-108 | With the prefix rewrite after trimming, the output is normalised and formatting is idempotent. |
| AppService.LastScheme | src/modules/app/app.service.ts:150-153 | The kept suffix starts with a scheme that no other scheme follows, and the dropped prefix is one or more schemes each followed by optional whitespace (the regular expression's `(https?:\/\/\s*)+`). |
| AppService.FormatUrlSuffix | src/modules/app/app.service.ts:150-153 | The formatted URL is a suffix of the input, and what was removed in front of it is a chain of schemes each followed by optional whitespace. |
| AppService.SpacesThenChain | src/modules/app/app.service.ts:150-153 | Whitespace up to the next non-space character, followed by a scheme chain (or by nothing), is a valid tail after a scheme in the chain. |
| AppService.ChainJoin | src/modules/app/app.service.ts:150-153 | A scheme, the whitespace after it, then a chain (or nothing) together form a chain. |
| AppService.LastSchemeFromChain | src/modules/app/app.service.ts:150-153 | The stopping index of the walk holds a scheme, no scheme follows it after whitespace, and it is reached over a scheme chain. |
| AppService.SchemeAfterSpaces | src/modules/app/app.service.ts:150-153 | The scheme after the leading whitespace of a suffix is the scheme at the first non-space index. |
| AppService.FormatUrlChangesIff | src/modules/app/app.service.ts:150-153 | The URL changes if and only if it starts with a scheme followed by another scheme. |
| AppService.FormatUrlLeavesOneScheme | src/modules/app/app.service.ts:150-153 | A scheme is kept iff there was one, and no repeated scheme remains. |
| AppService.FormatUrlIdempotent | src/modules/app/app.service.ts:150-153 | Formatting a URL twice equals formatting it once. |
| AppService.NormalizeMethod | src/modules/app/app.service.ts:167-176 | The upper-cased method if it is GET/POST/PUT/PATCH/DELETE, otherwise "INVALID". |
| AppService.BasicCredentials | src/modules/app/app.service.ts:448-463 | The username is the decoded text before the first colon; the password is the text between the first and the second colon, and "" without a colon. |
| AppService.AuthChecksExclusive | src/modules/app/app.service.ts:222-463 | No key is both an API-key name and `authorization`; no value is both bearer and basic. |
| AppService.AuthStep | src/modules/app/app.service.ts:222-463 | One query or header entry sets the auth type exactly when it triggers. A bearer header sets the trimmed token after `Bearer `. A basic header sets the credentials decoded from the text after `Basic `. An api-key name sets the key, value and `addTo`. Otherwise each of the three auth fields is unchanged. |
| AppService.EntryRows | src/modules/app/app.service.ts:217-221 | One checked row per entry, same key and value, in order. |
| AppService.Lookup | src/modules/app/app.service.ts:242-245 | A header value is found iff the key occurs, and the found pair is in the list. |
| AppService.BodyFor | src/modules/app/app.service.ts:241-389 | The body mode follows the content type; the only failure is multipart data that cannot be split. JSON puts the pretty JSON in `raw`, text/plain the compact JSON, url-encoded the parsed rows, multipart its text rows; JavaScript, HTML and XML fill nothing. |
| AppService.FileRows | src/modules/app/app.service.ts:391-413 | One checked, empty-valued file row per uploaded file. From an array of `{key}` objects the row key is the given key, or "" when it is missing or empty; from an object the row key is the property name. |
| AppService.CollectQueries | src/modules/app/app.service.ts:217-237 | The query loop builds the query rows and the auth state that the fold specifications give. |
| AppService.CollectHeaders | src/modules/app/app.service.ts:415-466 | The header loop keeps every header except `Content-Type` in form-data mode, appends the default row, and folds the auth state. |
| AppService.SelectBody | src/modules/app/app.service.ts:241-389 | Body selection as specified: no data gives no body, data without headers is an error, otherwise the content type decides. |
| AppService.BuildRequest | src/modules/app/app.service.ts:177-483 | The request object is assembled from the queries, body, files and headers, then padded. |
| AppService.TransformRequest | src/modules/app/app.service.ts:154-486 | The whole transformation computes `Transform`. |
| AppService.TransformErrors | src/modules/app/app.service.ts:241-389 | The transformation fails iff there is body data and either no headers or unsplittable multipart data. |
| AppService.TransformShape | src/modules/app/app.service.ts:177-483 | A produced item is a USER REQUEST named by its formatted URL, with a normalised method and every list non-empty. |
| AppService.LastTriggerDecides | src/modules/app/app.service.ts:222-463 | The last triggering entry decides the auth type. |
| AppService.NoTriggerKeepsAuth | src/modules/app/app.service.ts:222-463 | Entries that trigger nothing leave the auth state unchanged. |
| AppService.LastBearerSetsToken | src/modules/app/app.service.ts:423-431 | The bearer token is the trimmed remainder of the last bearer authorization header. |
| AppService.LastApiKeyWins | src/modules/app/app.service.ts:222-445 | The API key is the last api-key entry, with `addTo` Header or Query Parameter by where it came from. |
| AppService.TransformBearer | src/modules/app/app.service.ts:423-431 | A final bearer authorization header gives Bearer Token auth with the trimmed token. |
| AppService.TransformQueryApiKey | src/modules/app/app.service.ts:222-233 | An api-key query with no triggering header gives API Key auth added to the query parameters. |
| AppService.KeptHeaderRowsSpec | src/modules/app/app.service.ts:415-422 | Outside form-data every header is kept; in form-data mode no `Content-Type` row is kept and every other header is. |
| AppService.TransformHeaders | src/modules/app/app.service.ts:415-466 | The header rows end with the default row; in form-data mode they hold no `Content-Type`, otherwise they are all headers in order. |
| AppService.TransformRows | src/modules/app/app.service.ts:217-413 | Query rows are the query entries; `raw` is pretty JSON for JSON, compact JSON for text/plain and empty otherwise; url-encoded rows only in url-encoded mode; form text rows are the multipart rows followed by the file rows; form file rows are only the default row; empty lists are padded. |
| AppService.TransformBodyMode | src/modules/app/app.service.ts:241-246 | Without data the body type is none, otherwise it is the content type's mode. |
| AppService.ContentBodyModePriority | src/modules/app/app.service.ts:246-389 | Multipart iff the type starts with `multipart/form-data`. Then each of JSON, JavaScript, HTML, XML, url-encoded and text/plain is chosen iff the type matches it and none of the earlier checks does. |
| Oapi2Transformer.DropEmpty | src/modules/common/services/helper/oapi2.transformer.ts:191 | Empty path segments are dropped and every non-empty one is kept. |
| Oapi2Transformer.DropEmptyAppend | src/modules/common/services/helper/oapi2.transformer.ts:191 | The filter preserves order and repetitions: appending a segment appends it to the result unless it is empty. |
| Oapi2Transformer.Segment | src/modules/common/services/helper/oapi2.transformer.ts:192-199 | A kept segment becomes `/seg`, and `{name…` becomes `/{name}` without its last character. |
| Oapi2Transformer.QueryRows | src/modules/common/services/helper/oapi2.transformer.ts:200-205 | One query row per consumed segment, in order. |
| Oapi2Transformer.WalkPath | src/modules/common/services/helper/oapi2.transformer.ts:191-210 | The URL loop builds the URL from the kept segments and the query rows from the consumed ones. |
| Oapi2Transformer.PathWalkPartition | src/modules/common/services/helper/oapi2.transformer.ts:191-210 | Each segment is either kept or consumed as a query, a query contains `=`, and the first segment is always kept. |
| Oapi2Transformer.PathWalkNoQueries | src/modules/common/services/helper/oapi2.transformer.ts:191-210 | Without `=` every segment stays in the URL. |
| Oapi2Transformer.PathWalkPicksFrom | src/modules/common/services/helper/oapi2.transformer.ts:191-210 | From any segment that is not consumed, the walk keeps exactly the non-consumed segments and turns exactly the consumed ones into queries, in order. |
| Oapi2Transformer.PathWalkConsumed | src/modules/common/services/helper/oapi2.transformer.ts:191-210 | A segment is consumed iff it contains `=` and the segment before it was kept. The URL keeps exactly the segments that are not consumed, and the queries come from exactly the consumed ones, both in order. |
| Oapi2Transformer.ConsumesPriority | src/modules/common/services/helper/oapi2.transformer.ts:170-237 | The body type is the first of json > javascript > html > xml (application or text) > urlencoded > multipart that `consumes` lists, else none. Each mode is chosen iff its type is listed and no earlier one is; text/plain is never chosen. |
| Oapi2Transformer.RouteParameters | src/modules/common/services/helper/oapi2.transformer.ts:258-327 | The parameter loop routes every parameter as `ParamFold` specifies. |
| Oapi2Transformer.ParamRouting | src/modules/common/services/helper/oapi2.transformer.ts:258-327 | Every header parameter becomes a checked header row and every query parameter an unchecked query row. Form-data parameters go to urlencoded or to the form-data lists as `consumes` says. Row counts match. |
| Oapi2Transformer.FormDataCounts | src/modules/common/services/helper/oapi2.transformer.ts:300-325 | With multipart consumed and url-encoded not, each form-data parameter of type "file" adds one file row and each other one adds one text row; otherwise neither list grows. |
| Oapi2Transformer.FormDataRows | src/modules/common/services/helper/oapi2.transformer.ts:300-325 | A form-data parameter gives an unchecked url-encoded row with its name and value when url-encoded is consumed. Otherwise, with multipart, it gives an unchecked file row (value and `base` both the value) for type "file" and an unchecked text row for any other type. |
| Oapi2Transformer.ApiKeyRouting | src/modules/common/services/helper/oapi2.transformer.ts:239-256 | `api_key` in a header adds a header row with `addTo` Header; in a query it appends a query row with `addTo` Query Parameter. |
| Oapi2Transformer.BuildOperation | src/modules/common/services/helper/oapi2.transformer.ts:128-345 | One operation's request item is built as `OperationItem` specifies. |
| Oapi2Transformer.OperationItemShape | src/modules/common/services/helper/oapi2.transformer.ts:178-345 | The item is a SPEC request named by its path, with the method upper-cased, the walked URL, the `consumes` body type, no auth, every list non-empty, the first tag (or "default"), and as description the summary, else the operation's description, else "". |
| Oapi2Transformer.TransformPath | src/modules/common/services/helper/oapi2.transformer.ts:121-349 | One request per method key of the path, in order. |
| Oapi2Transformer.CollectPathItems | src/modules/common/services/helper/oapi2.transformer.ts:41-68 | The items of all paths, in path order. |
| Oapi2Transformer.FirstOperationFails | src/modules/common/services/helper/oapi2.transformer.ts:41-241 | Without security definitions the import fails at the first operation; with no operations it yields nothing. |
| Oapi2Transformer.CollectItems | src/modules/common/services/helper/oapi2.transformer.ts:33-68 | Collection as `CollectedItems` specifies, including the definitions gate. |
| Oapi2Transformer.FindTagDescription | src/modules/common/services/helper/oapi2.transformer.ts:88-92 | The tag-description loop yields the description of the last tag definition with that name. |
| Oapi2Transformer.TagDescriptionLastMatch | src/modules/common/services/helper/oapi2.transformer.ts:88-92 | The last matching tag definition gives the description. |
| Oapi2Transformer.FolderIndex | src/modules/common/services/helper/oapi2.transformer.ts:95 | The index of the first folder with that name, or the folder count. |
| Oapi2Transformer.GroupItems | src/modules/common/services/helper/oapi2.transformer.ts:71-110 | The grouping loop builds the folders that `Grouped` specifies. |
| Oapi2Transformer.CreateCollectionItems | src/modules/common/services/helper/oapi2.transformer.ts:33-111 | The import yields the grouped folders of all collected items, or the collection error. |
| Oapi2Transformer.GroupedNames | src/modules/common/services/helper/oapi2.transformer.ts:71-110 | Exactly one folder per distinct tag. |
| Oapi2Transformer.GroupedItems | src/modules/common/services/helper/oapi2.transformer.ts:75-109 | Each folder holds exactly the items with its tag, in their original order, with the base URL prefixed to each URL. |
| Oapi2Transformer.GroupedDescriptions | src/modules/common/services/helper/oapi2.transformer.ts:88-92 | Each folder's description is its tag's description. |
| Oapi2Transformer.TaggedNone | src/modules/common/services/helper/oapi2.transformer.ts:75-109 | A tag carried by no item selects no items. |
| CollectionRequest.CheckFolderExist | src/modules/workspace/services/collection-request.service.ts:107-274 | The index of the first top-level item with the id; "Folder Doesn't Exist" iff there is none. |
| CollectionRequest.FirstWithId | src/modules/workspace/services/collection-request.service.ts:186-199 | The found item is the first item of the list with the id; none is found iff no item has it. |
| CollectionRequest.FindItemByIdIsFirstInPreOrder | src/modules/workspace/services/collection-request.service.ts:186-199 | The recursive search returns the first item with the id in depth-first pre-order. |
| CollectionRequest.FirstWithIdAppend | src/modules/workspace/services/collection-request.service.ts:186-199 | Searching a concatenation searches the first part, then the second. |
| CollectionRequest.GetNoOfRequest | src/modules/workspace/services/collection-request.service.ts:463-481 | The counting loop computes `RequestCount`: 1 per request-like item, a folder's direct children, 0 for other items. |
| CollectionRequest.RequestCountAppend | src/modules/workspace/services/collection-request.service.ts:463-481 | The count is additive over concatenation. |
| CollectionRequest.RequestCountIgnoresDepth | src/modules/workspace/services/collection-request.service.ts:470-477 | A folder holding a sub-folder counts 1, whatever the sub-folder holds. |
| CollectionRequest.RequestCountSingle | src/modules/workspace/services/collection-request.service.ts:463-481 | A one-item list counts that item's weight. |
| CollectionRequest.HasPermission | src/modules/workspace/services/collection-request.service.ts:255-265 | Permission holds iff some workspace member id equals the caller's id. |
| CollectionRequest.AccessError | src/modules/workspace/services/collection-request.service.ts:255-265 | No error iff the caller is admin/editor and a member. "not admin or editor" iff the caller is neither; a non-member admin/editor is refused with the permission error. |
| CollectionRequest.RemoveById | src/modules/workspace/services/collection-request.service.ts:213-217 | Filtering keeps only items of the list whose id differs. |
| CollectionRequest.CollectionStore.constructor | src/modules/workspace/services/collection-request.service.ts:38-46 | The store starts with the given collections. |
| CollectionRequest.CollectionStore.AddFolder | src/modules/workspace/services/collection-request.service.ts:48-105 | Access, then collection existence, are checked first, and succeed whenever both pass. On success exactly one new folder is appended to that collection, and nothing else changes. |
| CollectionRequest.CollectionStore.UpdateFolder | src/modules/workspace/services/collection-request.service.ts:116-177 | Access, collection and folder are checked in order; with access and the collection present, it succeeds iff some item has the folder id. On success only the first folder with the id is replaced, by its renamed copy. |
| CollectionRequest.CollectionStore.DeleteFolder | src/modules/workspace/services/collection-request.service.ts:201-253 | Access and collection are checked first, and succeed whenever both pass. On success the collection's list becomes the filtered list, and nothing else changes. |
| CollectionRequest.AddFolderKeepsItemsAndCount | src/modules/workspace/services/collection-request.service.ts:59-72 | Adding a folder keeps the earlier items and the request count. |
| CollectionRequest.RenamedOnlyNameAndDescription | src/modules/workspace/services/collection-request.service.ts:126-130 | Renaming changes only name and description, and nothing when neither is given. |
| CollectionRequest.RemoveByIdKeepsOthers | src/modules/workspace/services/collection-request.service.ts:213-217 | Every item with another id survives the delete. |
| CollectionRequest.RemoveByIdAppend | src/modules/workspace/services/collection-request.service.ts:213-217 | The filter works item by item, preserving order. |
| CollectionRequest.RemoveByIdAbsent | src/modules/workspace/services/collection-request.service.ts:213-217 | Deleting an absent id changes nothing. |
| CollectionRequest.RemoveByIdIdempotent | src/modules/workspace/services/collection-request.service.ts:213-217 | Deleting twice equals deleting once. |
| CollectionRequest.RemoveByIdCount | src/modules/workspace/services/collection-request.service.ts:213-481 | The request count drops by exactly the count of the removed items. |
| UserService.TimeTestsInMilliseconds | src/modules/identity/services/user.service.ts:256-391 | The seconds and half-hour tests on JavaScript numbers equal plain millisecond comparisons. |
| UserService.RegisterStatus | src/modules/identity/services/user.service.ts:69-86 | "google" iff auth providers are present; otherwise "email" iff an e-mail is present; otherwise "unknown". |
| UserService.GetFirstName | src/modules/identity/services/user.service.ts:469-472 | The prefix before the first space, or the whole name without a space. |
| UserService.VerifyVerificationCode | src/modules/identity/services/user.service.ts:376-395 | Accepted iff the code is active, equal, and no more than `expireTime` seconds old. Unauthorized iff the user is missing, the code inactive or different. Expired iff active, equal, stamped and older than `expireTime` seconds. The timestamp error iff active and equal with no timestamp. |
| UserService.VerificationCodeBoundaryAccepted | src/modules/identity/services/user.service.ts:387-391 | Exactly `expireTime` seconds is accepted; one millisecond more is expired. |
| UserService.VerifyEmailCode | src/modules/identity/services/user.service.ts:407-441 | Accepted iff the code matches, the e-mail is unverified and the code is fresh. A wrong code is reported first, then already-verified iff the code matches and the e-mail is verified, then expired iff stamped and stale, or the timestamp error iff not stamped. Success marks the e-mail verified and clears the code. |
| UserService.EmailCodeSingleUse | src/modules/identity/services/user.service.ts:407-441 | After a success, every later attempt fails with a wrong code or already-verified. |
| UserService.VerifyMagicCode | src/modules/identity/services/user.service.ts:505-516 | Accepted iff the code matches and is fresh, with a wrong code reported first. Expired iff it matches, is stamped and is stale; the timestamp error iff it matches with no timestamp. Success clears the code and all three timestamps and marks the e-mail verified. |
| UserService.MagicCodeSingleUse | src/modules/identity/services/user.service.ts:505-516 | A used magic code cannot be used again. |
| UserService.IssueMagicCode | src/modules/identity/services/user.service.ts:252-303 | For an existing user, refused iff both timestamps exist and both are within half an hour, and issued otherwise. On success the user record changes only in the magic code, upper-cased, and in the timestamps, which shift: last := current, second-last := last, current := now. |
| UserService.FirstThreeIssuesAllowed | src/modules/identity/services/user.service.ts:256-270 | Three codes in a row are always issued to a fresh user. |
| UserService.FourthIssueInWindowRefused | src/modules/identity/services/user.service.ts:256-270 | A fourth code within half an hour of the first and the third is refused. |
| UserService.CooldownEnds | src/modules/identity/services/user.service.ts:256-270 | Half an hour after the latest code, a new one is always issued. |
| UserService.IssuedCodeVerifies | src/modules/identity/services/user.service.ts:272-516 | An issued code verifies while it is fresh. |
| UserService.UserStore.constructor | src/modules/identity/services/user.service.ts:35-48 | The store starts with the given users. |
| UserService.UserStore.CreateUser | src/modules/identity/services/user.service.ts:106-113 | The lower-cased e-mail is refused iff a user with it exists, and created otherwise; on success exactly that user is added. |
| UserService.SecondSignUpRefused | src/modules/identity/services/user.service.ts:106-113 | After a sign-up, the same e-mail in any letter case is already taken. |

## Left out

- Socket transport: the Socket.IO transport, `connectToTargetSocketIO` and network timing are not modelled. The connect outcome is an input (socket, null, throw), and calls on the sockets are entries in a log. Concurrency between sessions is not modelled.
- Absent `headers` query: `JSON.parse(undefined)` throws, so the inbound socket is disconnected. The model follows the code here, not the description that treats absence as an empty header set.
- `ProxyGateway.HeaderMap`: a non-null element that is not an object with `key` and `value` (a number, a string, `{}`) is not represented; JavaScript stores its value under the key "undefined". A `__proto__` key is also not represented; the assignment `acc["__proto__"] = value` does not add an own property, while the model's map stores it.
- Emit failure: whether a `targetSocket.emit` throws is an input of each event. A throwing emit is caught and logged, and the model records no call for it.
- Library results: curlconverter, `JSON.parse`, `JSON.stringify`, `URLSearchParams`, the base64 decode of Basic auth and the multipart boundary splitting are not computed. Their results are fields of `LibraryResults` or function parameters.
- `AppService.BasicCredentials`: the password of a decoded value without a colon is "" in the model; JavaScript gives `undefined`.
- `AppService.VersionParts`: `Number()` is modelled for an optional sign and decimal digits only. Other numeric forms (hex, exponents, surrounding whitespace, fractions) count as non-numeric, that is 0. Components are unbounded integers, while `Number()` yields doubles that are exact only up to 2^53: "9007199254740993" and "9007199254740992" compare equal in JavaScript and differ in the model.
- Case mapping: `toUpperCase`/`toLowerCase` are modelled for ASCII letters only.
- Example values and base URL: `getExampleValue`, `buildExampleValue` and `getBaseUrl` are not modelled. Example values come from a function parameter and the base URL is an input.
- `Oapi2Transformer.FirstOperationFails`: reading `security.api_key` when there are no security definitions throws a TypeError. The model returns the error value `SecurityDefinitionsMissing` instead.
- Deleted tag: after `delete request.tag` an item's tag is represented as "" rather than as an absent property.
- Branches: the mirroring of folder edits into a collection's branches (the same edit on a second list) and the MongoDB update documents of the repositories are not modelled. The store holds each collection's item list.
- `CollectionRequest.CollectionStore.AddFolder`: the Kafka update message and the `updatedAt`/`updatedBy` stamps are not modelled.
- `isFolderExist`: it has the same contract as `checkFolderExist` on a branch's items, so `CollectionRequest.CheckFolderExist` models both.
- Verification codes: `Math.random` code generation, `uuid`, `new Date()`/`Date.now()`, e-mail sending, HubSpot and the password hashing are not modelled. The code and the current time are inputs.
- Missing timestamp: in the three verify functions, a missing timestamp makes `.getTime()` throw a TypeError. The model returns the `MissingTimestamp` error instead.
- `UserService.IssueMagicCode`: a missing user makes `userDetails.name` throw. It is modelled as the `UserMissing` error.
- Network probes: `checkKafkaConnection`, `checkMongoConnection` and `subscribeToBeehiiv` are not modelled.
- HTTP wiring: controllers, guards, DTO validation and the metrics middleware are not modelled.

## Findings

| source | as written | input that shows it | evidently intended | confidence | as-written member | corrected member |
|---|---|---|---|---|---|---|
| src/modules/app/app.service.ts:101-108 | `formatCurl` rewrites a leading `/^curl/i` to `curl` before it collapses and trims whitespace, so a command with leading whitespace keeps its upper-case `CURL`, and formatting again changes it | `" CURL"` formats to `"CURL"`, which formats to `"curl"` | rewrite the prefix after trimming, so the output is stable under a second pass | not executed | AppService.FormatCurlNotIdempotent | AppService.FormatCurlFixedIdempotent |
| src/modules/proxy/gateway/socketio.gateway.ts:67-74 | the `onAny` listener is declared `(event, args) => …` and calls `emit(event, args)`; Socket.IO passes an event's arguments as separate parameters, so only the first argument is forwarded | a client emits `"e"` with arguments `"a", "b"`; the target receives `"e"` with `"a"` only | forward every argument (`(event, ...args) => emit(event, ...args)`), as the handler's comment says it forwards the events | not executed | ProxyGateway.FirstArgumentOnly | ProxyGateway.RelayForwardsInOrder |
