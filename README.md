# relaxjs dispatcher core, modelled in Dafny

relaxjs serves a tree of REST resources over HTTP.

- A `Site` is the root `Container`. Every resource below it is a `ResourcePlayer` built from a plain resource definition.
- Children are kept in groups keyed by the slug of their name. Several children may share a group and are told apart by an index segment in the URL.
- A request is taken through these steps:
  1. The HTTP method is accepted.
  2. The request filters run.
  3. The site's verb forwards the request along a direction found through the path cache or one step of the tree.
  4. The resource's verb descends further, binds URL parameters and runs its user handler or the default action.
  5. `_deliverReply` negotiates the representation.
  6. Failures are rendered by `_outputError`.

The model covers all of this in `src/relaxjs.ts` except the I/O around it.

How the model is laid out:

- **`Tree`.** The resource tree is an arena: `map<NodeId, Node>` with the site at node 0. Each `Node` holds the fields of one `Container`/`ResourcePlayer`: groups, data, headers, cookies, view settings, URL parameters, filter data and the set of verbs that have a user handler. The module covers `getChild`, `getFirstMatching`, `childTypeCount`, the child-group updates of `add` and `remove`, `_getStepDirection`, `_getDirection`, the loop of `getResource`, and the descent shared by the resource verbs.
- **`Numbers`.** `parseInt` as JavaScript reads an index segment, and the decimal rendering of array indices.
- **`Values`.** JavaScript values, truthiness, the walk of lodash's `_.each` (objects, array-like objects, arrays, strings), and `_updateData`.
- **`Errors`.** `RxError` and its code defaulting.
- **`Embodiments`.** The `Embodiment` class (constructor, `addSetCookie`, `setAdditionalHeaders`).
- **`Negotiation`.** `ResourceResponse`, `Response.ok/redirect`, and the decision of `_deliverReply`.
- **`Player`.** What each `ResourcePlayer` verb does, as functions from the arena and path cache to a new arena, cache and settled or pending promise.
- **`PlayerFacts`.** Properties of those functions.
- **`SiteSpec`.** The same for the `Site`: `_getDirection` with the path cache, `getResource`, the root verbs, `_checkFilters`, method acceptance, `_outputError`, and the request handler of `serve`.
- **`SiteFacts`.** Properties of the `SiteSpec` functions.
- **`Sites`.** The `Site` class. It owns the arena, the path cache, the filter registry and the settings, and performs every operation in place. Each method is proved equal to the `Player`/`SiteSpec` function it implements, including the loops:
  - `_readParameters`
  - `_updateData`
  - `childrenCount`
  - the loop of `getResource`
  - the descent through the tree
  - calling the filters and collecting their results

User handlers and request filters are not code the model can see. A handler is a `HandlerOutcome`:

- it answered through `ok()`/`redirect()`;
- it called `fail(err)`;
- it threw;
- or it never answered.

A filter is a function from the route and the body to a `FilterResult`: it called back with data, called back with an error, or never called back. `slugify` is a constant function given to the `Site` constructor.

Where the code and the project's prose description disagree, the model follows the code:

- **Index segments.** Any segment `parseInt` reads is consumed as an index, negative ones included. An index outside the group selects nothing; there is no fallback to index 0.
- **Missing child while descending.**
  - GET rejects with code 500: its `promiseError` calls pass no code.
  - DELETE, POST and PATCH read `name` of `undefined`, a `TypeError`. Their `if (direction)` tests are always true, because `_getStepDirection` always returns an object.
- **URL parameters.**
  - `_readParameters` binds every name whose segment is present and counts them. The callback's `return counter` does not stop lodash's `_.each`.
  - The arity check of GET, DELETE and PATCH therefore fails exactly when some segment is missing.
- **Default POST and PATCH.** They replace the data with the body's entries except `resources`; they do not merge.
- **PUT and HEAD.** They reject with `new RxError('Not Implemented')`, whose code is 500.
- **Handler throws.** A throwing handler rejects with the thrown value itself in GET and DELETE, which `_outputError` reports with 500. POST and PATCH wrap it in an `RxError`, also 500.
- **Default DELETE.** It detaches the node, but a path-cache entry recorded by an earlier GET still reaches it.

## Model

| member | source | states |
|---|---|---|
| Errors.NewRxError | src/relaxjs.ts:165-173 | message, name and extra are kept; a missing or zero code becomes 500, any other code is kept, so the code is never 0 |
| Errors.GetExtra | src/relaxjs.ts:177-179 | the extra text when there is one, the empty string otherwise |
| Errors.FailureCode | src/relaxjs.ts:710 | an `RxError` reports its own code; anything else that was thrown reports 500 |
| Errors.PromiseError | src/relaxjs.ts:1287-1294 | a rejection carrying an `RxError` with the given message and name, code defaulted to 500 |
| Embodiments.Embodiment.constructor | src/relaxjs.ts:500-510 | mime type, code (200 by default) and body as given; no location, no cookies, no extra headers |
| Embodiments.Embodiment.AddSetCookie | src/relaxjs.ts:515-517 | the cookie is appended after the others and nothing else changes |
| Embodiments.Embodiment.SetAdditionalHeaders | src/relaxjs.ts:522-524 | the given headers replace the previous ones wholesale and nothing else changes |
| PlayerFacts.OkAnswerServesData | src/relaxjs.ts:439-450 | a handler calling `ok()` (`RespondOk` of the resource as the verb left it) on a resource without a view, asked for JSON, is served its data as JSON with code 200, its outgoing cookies and the request's own headers echoed back; the data is refreshed except in POST and nothing else changes |
| PlayerFacts.RedirectAnswerIsJson303 | src/relaxjs.ts:453-464 | a handler calling `redirect(where)` (`RespondRedirect`) is served as JSON with code 303, that location, the resource's data and outgoing cookies and no headers, whatever the view and the format asked for |
| Negotiation.Word | src/relaxjs.ts:709 | the first field of a split on `\s` and commas: the longest prefix free of JavaScript white space (the full `\s` set) and commas, stopped by one |
| Negotiation.SingleToken | src/relaxjs.ts:1196 | a format naming one media type and no separator splits into exactly that type |
| Negotiation.RunRulesIsLastMatch | src/relaxjs.ts:1219-1225 | running the mime checks in order is the same as taking the last check that matches |
| Negotiation.ChooseMimePriority | src/relaxjs.ts:1219-1225 | the later check wins: url-encoded form gives text/xml, then xhtml gives application/xml, then text/xml, application/xml, JSON, and `*/*` gives JSON; nothing recognised gives none |
| Negotiation.ReplyCode | src/relaxjs.ts:1229 | the response's own non-zero code, else 200; never 0 |
| Negotiation.DeliverReply | src/relaxjs.ts:1184-1252 | never pending; the view answers exactly when one is declared and the list holds text/html or `*/*`; otherwise a recognised type is serialized with the response's data, code, location and headers; otherwise a raw reply with code 200 under the format itself when any format is allowed; otherwise a 415 "Unsupported Media Type" rejection, in exactly that case; cookies are always the response's |
| Negotiation.RedirectIsJson | src/relaxjs.ts:1191-1194 | codes 303 and 307 are always serialized as JSON with their code and location, whatever was asked for and whatever the view |
| Negotiation.UnsupportedIsRejected | src/relaxjs.ts:1218-1250 | without a view and without a forced format, a reply is refused exactly when the Accept list names no recognised type |
| Negotiation.JsonRequestIsServedAsJson | src/relaxjs.ts:1196-1232 | a JSON request against plain data gives that data as JSON with code 200 |
| Negotiation.PngRequestIsRefused | src/relaxjs.ts:1245-1249 | an image/png request against plain data is refused with 415 |
| Numbers.ParseIntOfNatToString | src/relaxjs.ts:286-292 | `parseInt` reads back the decimal rendering of every natural number |
| Numbers.ParseIntDefinedIff | src/relaxjs.ts:286-292 | `parseInt` gives a number exactly when, after JavaScript white space (Unicode space separators and line terminators included) and a sign, a digit follows (a hex digit after "0x") |
| Numbers.NatToStringInjective | src/relaxjs.ts:1171-1176 | distinct indices have distinct decimal keys |
| Values.IndexKeyed | src/relaxjs.ts:1171-1176 | an array's entries: every index keyed by its decimal rendering with its element, and no other key |
| Values.Entries | src/relaxjs.ts:1171-1176 | `_.each` visits an object's own fields, except that an object whose `length` is a valid array length is walked by index; an array's entries under their decimal indices, a string's characters likewise, and nothing for any other value |
| Values.IndexedFields | src/relaxjs.ts:1171-1176 | walking an array-like object by index gives every index below its length, keyed by its decimal rendering, with the field under it or `undefined` |
| Values.IndexedFieldsKeys | src/relaxjs.ts:1171-1176 | walking an array-like object by index yields no key but those indices |
| Values.NoLengthIndex | src/relaxjs.ts:1169-1177 | no index key is "length", so the data refreshed from an array-like object is a plain object |
| Values.UpdatedData | src/relaxjs.ts:1169-1177 | the new data is an object holding exactly the entries of the given value except `resources` |
| Values.UpdatedDataIdempotent | src/relaxjs.ts:1318-1321 | refreshing the data from data that was already refreshed changes nothing more, array-like input included |
| Tree.GetChild | src/relaxjs.ts:381-388 | a child exactly when the group exists and the index is inside it, negative and too-large indices giving none; then the child at that index |
| Tree.GetFirstMatching | src/relaxjs.ts:372-378 | the same as `getChild(typeName, 0)` |
| Tree.ChildTypeCount | src/relaxjs.ts:394-401 | the group's size, 0 without a group; exactly the indices below it select a child |
| Tree.AppendChild | src/relaxjs.ts:359-365 | the new child is the last of its group, the group being created when absent; other groups unchanged |
| Tree.AppendKeepsWellFormed | src/relaxjs.ts:350-368 | appending a child that names the node as parent keeps the tree well formed |
| Tree.IndexOf | src/relaxjs.ts:256 | the first position of the child, -1 exactly when absent |
| Tree.SpliceOut | src/relaxjs.ts:260 | one element fewer, the others in order, the multiset less that element |
| Tree.Without | src/relaxjs.ts:250-263 | no change without the group or without the child in it; otherwise its first occurrence is removed, the other members keep their order, other groups unchanged |
| Tree.WithoutKeepsWellFormed | src/relaxjs.ts:250-263 | removing a child keeps the tree well formed |
| Tree.StepDirection | src/relaxjs.ts:273-302 | a step always consumes at least one segment |
| Tree.StepDirectionReadsGroups | src/relaxjs.ts:273-302 | a step depends only on the node's groups |
| Tree.StepWithoutIndex | src/relaxjs.ts:280-299 | with one child of that type, no further segment, or a non-numeric one, exactly the type segment is consumed and the first child selected |
| Tree.StepWithIndex | src/relaxjs.ts:282-299 | with several children and a numeric next segment, that segment is consumed too; an index inside the group selects that child, any other selects nothing |
| Tree.StepUnknownName | src/relaxjs.ts:280 | a type the node has no group for selects nothing |
| Tree.GetDirection | src/relaxjs.ts:310-321 | a direction exactly when the step selected a child, with the step's child and path |
| Tree.WalkFindsAttached | src/relaxjs.ts:327-346 | what `getResource` finds after a step is listed in some group of the tree |
| Tree.Descend | src/relaxjs.ts:1281-1296 | the descent starts at the entered node, visits only nodes of the tree, and ends either at a node needing no further step or at one whose step selects nothing |
| Tree.DescendSameShape | src/relaxjs.ts:1281-1286 | the descent depends only on groups, parents and parameter names |
| Tree.ResetCookies | src/relaxjs.ts:241-243 | the outgoing cookies of the listed nodes are emptied and nothing else changes |
| Tree.TotalChildrenAppend | src/relaxjs.ts:407-411 | after appending a child, `childrenCount` is one more |
| Tree.TotalChildrenWithout | src/relaxjs.ts:407-411 | after removing a listed child `childrenCount` is one less, otherwise unchanged |
| Tree.BoundCount | src/relaxjs.ts:1147-1162 | the count never exceeds the number of parameter names |
| Tree.BoundCountIsPresentCount | src/relaxjs.ts:1147-1162 | the count is the number of names whose segment is present, wherever they are |
| Tree.ArityMetIffAllPresent | src/relaxjs.ts:1300-1305 | the arity check passes exactly when every parameter's segment is present |
| Tree.BoundKeepsOthers | src/relaxjs.ts:1147-1162 | entries under keys that are not parameter names are untouched |
| Tree.BoundWrites | src/relaxjs.ts:1147-1162 | with distinct names, a present segment is bound to its name and a missing one leaves the previous entry |
| Player.FormatFor | src/relaxjs.ts:1341 | the resource's own non-empty output format wins over the request's |
| Player.DataResponse | src/relaxjs.ts:1336-1340 | the default verbs answer their data with code 200 and nothing else |
| Player.Reply | src/relaxjs.ts:1184-1252 | the negotiation decision on the node's view, layout and headers; the view branch copies the response data into the node and nothing else changes |
| Player.Entered | src/relaxjs.ts:1316-1318 | before the handler the node records the filter data and the request's headers and cookies, and nothing else |
| Player.ReadParams | src/relaxjs.ts:1147-1162 | only the parameter map changes |
| Player.ReadParamsBinds | src/relaxjs.ts:1147-1162 | a present segment is bound to its name unless a later name repeats it; other keys keep their entries |
| Player.LastBindingWins | src/relaxjs.ts:1147-1162 | a present segment stays bound to its name when no later parameter has the same name |
| Player.ArityError | src/relaxjs.ts:1302 | a shortfall rejects with 404 named after the verb and the resource |
| Player.NotImplemented | src/relaxjs.ts:1265 | "Not Implemented", no name, code 500 |
| Player.RunHandler | src/relaxjs.ts:1311-1330 | `fail(err)` rejects with err; a throw rejects with the thrown value (wrapped in a 500 `RxError` for POST and PATCH); silence leaves it pending; an answer refreshes the data (except in POST) and is delivered; only the node's data may change |
| Player.NoChildError | src/relaxjs.ts:1287-1294 | GET's missing child rejects with code 500 named after the pathname |
| Player.DefaultDelete | src/relaxjs.ts:1402-1411 | the tree stays well formed with the same nodes and the cache is untouched |
| Player.HandlerRun | src/relaxjs.ts:1311-1330 | the tree stays well formed with the same nodes and the cache is untouched |
| Player.DefaultRun | src/relaxjs.ts:1332-1341 | the tree stays well formed with the same nodes and the cache is untouched |
| Player.TargetRun | src/relaxjs.ts:1297-1341 | the tree stays well formed with the same nodes, the cache stays valid, and only GET changes it |
| Player.DescentRun | src/relaxjs.ts:1274-1296 | the tree stays well formed with the same nodes, the cache stays valid, and only GET changes it |
| Player.PlayerRun | src/relaxjs.ts:1261-1563 | the tree stays well formed with the same nodes, the cache stays valid, and only GET changes it |
| PlayerFacts.PlayerRunAtTarget | src/relaxjs.ts:1281-1286 | once the descent reached its target, the verb is the target's action on the tree with the passed nodes' cookies cleared |
| PlayerFacts.ShortfallRejects | src/relaxjs.ts:1300-1305 | a shortfall in GET, DELETE or PATCH rejects with 404, records no cache entry and leaves the node but its parameters unchanged |
| PlayerFacts.GetRecordsShortcut | src/relaxjs.ts:1308 | a GET whose parameters are met records the pathname as a shortcut to the target and its path |
| PlayerFacts.DefaultGetServesData | src/relaxjs.ts:1332-1341 | without a handler GET delivers the node's data with code 200 in the negotiated format |
| PlayerFacts.DefaultWriteReplacesData | src/relaxjs.ts:1468-1477 | without a handler POST and PATCH replace the data by the body's entries and deliver it; the cache is untouched |
| PlayerFacts.DefaultDeleteDetaches | src/relaxjs.ts:1400-1411 | without a handler DELETE removes the node from its parent's group under its raw name: one occurrence fewer when listed, no change without that group |
| PlayerFacts.PutAndHeadReject | src/relaxjs.ts:1554-1563 | PUT and HEAD only clear the node's outgoing cookies and reject with 500 |
| PlayerFacts.MissingChildRejects | src/relaxjs.ts:1282-1296 | a missing child rejects (GET with 500, the others with a `TypeError`) and only the passed nodes' cookies change |
| PlayerFacts.ThrowingHandler | src/relaxjs.ts:1459-1464 | a throwing handler: GET and DELETE reject with the thrown value, POST and PATCH with a 500 `RxError` carrying it |
| PlayerFacts.TargetKeepsCookies | src/relaxjs.ts:1297-1341 | nothing done at the target touches any node's outgoing cookies |
| PlayerFacts.DescentClearsCookies | src/relaxjs.ts:1279 | every node the descent passed ends with no outgoing cookies |
| SiteSpec.RootDirection | src/relaxjs.ts:639-661 | a cached pathname gives the cached node; otherwise a direction exactly when the root's step selects a child, with a shorter path |
| SiteSpec.RootDirectionInArena | src/relaxjs.ts:639-661 | with a valid cache, the direction found at the root always names a node of the tree |
| SiteSpec.NoDirection | src/relaxjs.ts:925-1068 | a forwarded verb without direction rejects named after the pathname, 404 except POST's 500 |
| SiteSpec.RootReply | src/relaxjs.ts:925-1068 | static GET serves the file, static DELETE rejects with 500, HEAD shows the site or redirects home, POST, PATCH and PUT reject with 404, and only GET and HEAD resolve |
| SiteSpec.RootRun | src/relaxjs.ts:925-1068 | the tree stays well formed with the same nodes, the cache stays valid, and only GET changes it |
| SiteSpec.RootRunWithoutDirection | src/relaxjs.ts:987-1001 | without a direction a forwarded verb rejects and changes nothing |
| SiteSpec.RootRunAlongDirection | src/relaxjs.ts:987-1001 | with a direction the verb is the named resource's verb on the direction's path |
| SiteSpec.FirstFail | src/relaxjs.ts:815-829 | none exactly when no filter failed; otherwise the earliest failure |
| SiteSpec.FilterResults | src/relaxjs.ts:811 | every registered filter applied to the route and body, in registration order |
| SiteSpec.Unlisted | src/relaxjs.ts:778-785 | the order without the deleted name and with every other name |
| SiteSpec.UnlistedDistinct | src/relaxjs.ts:778-785 | deleting keeps the registration order free of repetitions |
| SiteSpec.CollectedHolds | src/relaxjs.ts:817-822 | a name is collected exactly when its filter passed truthy data, and it maps to that data |
| SiteSpec.Lower | src/relaxjs.ts:852 | ASCII lower-casing, letter by letter |
| SiteSpec.Accept | src/relaxjs.ts:852-867 | a site verb exactly when the lower-cased method names one; a preflight exactly for "options" with CORS allowed; otherwise 403 "request not supported" |
| SiteSpec.LowerIdempotent | src/relaxjs.ts:852 | lower-casing a lower-cased method changes nothing |
| SiteSpec.AcceptIgnoresCase | src/relaxjs.ts:852 | acceptance does not depend on letter case |
| SiteSpec.OutputError | src/relaxjs.ts:706-762 | the first media type chooses the page (error view for text/html when one is set, built-in HTML otherwise, XML for the two XML types, JSON else); the code is the error's own or 500 |
| SiteSpec.Settle | src/relaxjs.ts:876-900 | a resolved verb is served as it was delivered; with CORS allowed the written extra headers are the origin header alone, replacing the reply's own, and without it the reply keeps its own; a rejection gives the error page; a pending one gives no reply |
| SiteFacts.CachedPathSkipsTree | src/relaxjs.ts:639-648 | a cached pathname goes to the cached resource with the cached path, whatever the tree now looks like |
| SiteFacts.UnknownChildNotFound | src/relaxjs.ts:650-660 | without a cache entry, a first step selecting nothing rejects with "not found" and changes nothing |
| SiteFacts.UncachedLookupFindsAttached | src/relaxjs.ts:327-346 | `getResource` without a cache entry only finds nodes listed in the tree |
| SiteFacts.BlockedIffSomeFilterFails | src/relaxjs.ts:798-832 | the filters block exactly when filtering is on, a filter is registered and one fails |
| SiteFacts.PassedDataIsTruthy | src/relaxjs.ts:815-825 | the filter data holds exactly the names whose filter passed truthy data, with that data |
| SiteFacts.RefusedMethodIs403 | src/relaxjs.ts:852-867 | an unknown method other than a permitted preflight is answered 403, and only the request cookies are recorded |
| SiteFacts.UnfilteredRequestRuns | src/relaxjs.ts:868-900 | with filtering off a supported method runs the root verb with empty filter data; a resolved reply is served with the origin header alone when CORS is allowed and with its own headers otherwise |
| SiteFacts.CorsReplacesReplyHeaders | src/relaxjs.ts:881-883 | a serialized reply is written with its response's headers when CORS is off, and with the origin header alone, those headers dropped, when CORS is on |
| Sites.NewNode | src/relaxjs.ts:1102-1116 | the new node has the definition's name, view, layout, format, parameter names (none by default) and handlers, under its parent, with no children, cookies, headers or parameters |
| Sites.CopyEntries | src/relaxjs.ts:1169-1177 | the loop copies every entry except `resources` |
| Sites.JudgeFilters | src/relaxjs.ts:815-829 | the loop over the filters' results settles as the reference verdict |
| Sites.Site.constructor | src/relaxjs.ts:610-623 | only the root, named "site", home "/", no filters, no CORS, no error view, an empty path cache |
| Sites.Site.Attach | src/relaxjs.ts:359-365 | the child is appended to the group; the tree stays well formed |
| Sites.Site.Add | src/relaxjs.ts:350-368 | a fresh node for the definition (data from it) is the last child of the `slugify(name)` group; the parent otherwise and every other existing node unchanged |
| Sites.Site.Build | src/relaxjs.ts:1102-1125 | a fresh node with the definition's settings and data; existing nodes unchanged |
| Sites.Site.AddChildren | src/relaxjs.ts:1118-1122 | children are added under the node; existing nodes other than it unchanged, its fields but its groups unchanged |
| Sites.Site.Remove | src/relaxjs.ts:250-263 | true exactly when the parent's group under the child's raw name lists it; the group loses it; false changes nothing |
| Sites.Site.SetCookie | src/relaxjs.ts:230-232 | the cookie is appended to the node's outgoing cookies |
| Sites.Site.ResetOutgoingCookies | src/relaxjs.ts:241-243 | the node's outgoing cookies become empty |
| Sites.Site.SetHeaders | src/relaxjs.ts:221-224 | every given header is set and every other header kept |
| Sites.Site.SetOutputFormat | src/relaxjs.ts:1130-1132 | the node's output format becomes the given one |
| Sites.Site.ChildrenCount | src/relaxjs.ts:407-411 | the loop adds up the sizes of all groups |
| Sites.Site.ReadParameters | src/relaxjs.ts:1147-1162 | the loop binds as `ReadParams` and returns the count of present segments |
| Sites.Site.UpdateData | src/relaxjs.ts:1169-1177 | the node's data becomes `UpdatedData` of the value |
| Sites.Site.SetPathCache | src/relaxjs.ts:694-696 | the pathname maps to the shortcut |
| Sites.Site.DescendTo | src/relaxjs.ts:1279-1296 | the loop performs the reference descent and clears the cookies of exactly the nodes it passed |
| Sites.Site.DeliverAt | src/relaxjs.ts:1184-1252 | the node and result are those of `Reply` |
| Sites.Site.RunUserHandler | src/relaxjs.ts:1311-1330 | state and result are those of `HandlerRun` |
| Sites.Site.HandlerAnswered | src/relaxjs.ts:1318-1322 | an answered handler gives the node and result of `RunHandler` |
| Sites.Site.HandlerUnanswered | src/relaxjs.ts:1324-1330 | a failing, throwing or silent handler gives the node and result of `RunHandler` |
| Sites.Site.AnswerAt | src/relaxjs.ts:1318-1322 | the data refresh, then `Reply` on the refreshed node |
| Sites.Site.DeleteDefault | src/relaxjs.ts:1402-1411 | state and result are those of `DefaultDelete` |
| Sites.Site.DefaultAt | src/relaxjs.ts:1332-1341 | state and result are those of `DefaultRun` |
| Sites.Site.DataDefault | src/relaxjs.ts:1469-1477 | GET delivers the data; POST and PATCH first replace it |
| Sites.Site.AtTarget | src/relaxjs.ts:1297-1341 | state and result are those of `TargetRun` |
| Sites.Site.BindParameters | src/relaxjs.ts:1299-1305 | the parameters are read only when declared; the count falls short exactly when the arity check fails |
| Sites.Site.ActAt | src/relaxjs.ts:1308-1341 | GET records the shortcut, then the handler or the default action runs |
| Sites.Site.Play | src/relaxjs.ts:1261-1563 | state and result are those of `PlayerRun` |
| Sites.Site.Unimplemented | src/relaxjs.ts:1554-1563 | the node's outgoing cookies are cleared and the verb rejects "Not Implemented" |
| Sites.Site.DescendAndAct | src/relaxjs.ts:1274-1296 | state and result are those of `DescentRun` |
| Sites.Site.GetResource | src/relaxjs.ts:327-346 | the loop finds what the reference lookup finds |
| Sites.Site.Dispatch | src/relaxjs.ts:925-1068 | state and result are those of `RootRun` |
| Sites.Site.Forward | src/relaxjs.ts:987-1001 | state and result are those of `RootRun` for a forwarded verb |
| Sites.Site.AddRequestFilter | src/relaxjs.ts:769-773 | the filter is registered; a new name goes last, a known one keeps its place |
| Sites.Site.DeleteRequestFilter | src/relaxjs.ts:778-785 | true exactly when registered; the filter and its name are gone |
| Sites.Site.DeleteAllRequestFilters | src/relaxjs.ts:790-793 | no filter remains; the answer is true |
| Sites.Site.SetHome | src/relaxjs.ts:907-909 | the home path is set |
| Sites.Site.SetErrorView | src/relaxjs.ts:701-703 | the error view is set |
| Sites.Site.AllowCors | src/relaxjs.ts:666-668 | the CORS flag is set |
| Sites.Site.CheckFilters | src/relaxjs.ts:798-832 | the loop over the registered filters settles as `FiltersSpec` |
| Sites.Site.Handle | src/relaxjs.ts:838-902 | state and reply are those of the request-cycle specification `HandleSpec` |
| Sites.Site.Serve | src/relaxjs.ts:868-900 | body failure, filters and verb as `ServeSpec` |
| Sites.Site.Respond | src/relaxjs.ts:876-900 | the filter verdict is reported, left unanswered or run, as `Filtered` |
| Sites.Site.RunVerb | src/relaxjs.ts:876-892 | the state is that of the root verb, and the reply is its result settled as `Settle` says, the CORS header replacing the reply's own headers when allowed |

## Left out

- Transport I/O is not modelled: `Embodiment.serve`, the HTTP server of `Site.serve`, the bytes `_outputError` writes, and its XML building. The model keeps the decisions they make: which reply or error page goes out, with which code and type.
- Code outside this file is not modelled:
  - The view engine (`viewDynamic`, `viewStatic`), `createEmbodiment` and `redirect` become `Delivery` values.
  - `parseRequestData` becomes the `body` parameter of `Handle`.
  - `slugify` is a constant function of the site.
  - `decodeURI` and logging are not modelled.
  - The routing module is not part of this model: a `Route` arrives parsed.
- Q promises, `_.defer` and asynchronous timing are not modelled. Results are values, and a handler or filter that never calls back is an explicit outcome.
  - Filters are taken in registration order, so when several fail, the reported one is the first registered. `Q.all` reports the first to settle.
- The singleton `Site.$`/`site()` is not modelled: there is one `Site` object. The same goes for the `process.argv` check and the `_version`/`siteName` stamping that `add` performs.
  - `setTempDirectory` configures upload handling, which is out of scope.
- Object keys are not modelled as JavaScript does them.
  - Inherited property names (`constructor`, `toString`, …) are not keys of groups, filters or the path cache.
  - Filter names keep insertion order; integer-like names are not moved to the front.
- A method name that is some other property of the site (`add`, `serve`, …) is refused with 403 here, where JavaScript would call that property.
- Lower-casing covers ASCII letters only.
- White space is the set current Unicode gives JavaScript. U+180E, a space separator before Unicode 6.3 and still white space in older engines, is not part of it.
- `Player.RunHandler`: a handler's own `setCookie` or `headers` calls on its resource are not modelled. Its effect reaches the reply only through the response it answers with.
- `SiteSpec.OutputError`: the page is described by kind, type, code and message. The JSON/XML/HTML text is not produced, and neither is `error.stack`, whose absence on a non-`Error` value would itself throw.
- `SiteSpec.OutputError`: a failing custom error view, which falls back to the built-in HTML page, is not distinguished.
- Numbers are integers. `parseInt` results beyond what a double represents are not truncated.
- The view engine rendering a template, and a failing serialization (`createEmbodiment` rejecting), are not modelled: a `Template` or `Serialized` delivery is assumed to render.
- `self.parent = undefined` in the default DELETE assigns to a getter-only accessor. The model keeps the parent unchanged.
- `Sites.Site.Add`: its contract does not state the groups of the new node's own children. `Build` and `AddChildren` state that existing nodes are unchanged, and that the new node has the definition's settings and data.
- A stale path-cache entry is kept after DELETE, as in the code. Nothing prunes it.
- The headers a collaborator puts on the replies it builds (a static file, the site view, the home redirect) are not modelled. `WrittenHeaders` gives `None` for them unless CORS replaced them.
