# Alfresco Python client: a verified model

This project models the core of `alfpyclient`, a Python client for the
public v1 ReST API of the Alfresco content repository, together with its
older single-file predecessor (`alfresco_client.py`,
`alfresco_client_nodes.py`). The model has two halves.

**Request shaping and response classification.**
- The public client builds the effective URL
  `base + /api/-default-/public/ + api + /versions/ + v + / + opUrl`, with
  version `1` by default.
- Query parameters are normalised. A list is comma-joined, an empty list
  is dropped, and the key order is kept.
- Headers and files are copied key for key.
- Once there is both a ticket and a session, the session carries an
  `Authorization: BASIC base64(utf8(ticket))` header. The session itself
  is created on the first request.
- A response is classified by status and content type:
  - 4xx and 5xx go to the error handler or raise a typed `RequestError`;
  - 2xx goes to the response handler, or is unwrapped;
  - unwrapping gives the `entry` of a JSON body, the whole JSON body
    without one, the text of a `text/` body, and the raw bytes otherwise;
  - anything else gives `None`.
- The error class table and the message extraction of `common/errors.py`
  are modelled as written.
- The legacy client has its own status dispatch. It raises
  `RequestFailed` with a top-level `briefSummary`, and `UnhandledStatus`
  for statuses with no handler.

**Lazy entity proxies.**
- `Node` (api/nodes.py) and `Site` (api/sites.py) are classes. Each holds
  the data last fetched, load parameters that only grow, and caches.
- `Get(fieldName)` stands for Python's `__getattr__`. A miss widens the
  `fields`/`include` lists and reloads when the `fields` list grew.
- The `properties` and relation lazy dicts memoise their lookups. A bare
  name falls back to its `cm:` default namespace.
- The relation loaders (`loadTargets`, `loadSources`, `loadChildren`)
  shape the query and group the listed entries by
  `association.assocType`, in server order.

The server is a function `Request -> Response` given to the `Client`.
Every request the client sends is appended to a ghost log `sent`. That is
how the contracts state "exactly one fetch", "no fetch" and "the request
sent was …". JSON values are a datatype. Objects are maps, so key order
inside a JSON body is not modelled. Query parameters and headers are
ordered lists of pairs, like Python's insertion-ordered dicts.

## Defects kept as written

- **Site relations check.** The relation check at api/sites.py:28 reads
  `relations`, which exists, and then appends to an `include` key that a
  site's load parameters never have. A relation field the site was not
  loaded with raises `KeyError('include')` (`Sites.RelationMissRaises`),
  so the misspelled `reoadable` at api/sites.py:30 is never reached.
- **Undefined `param`.** The relation loaders name the undefined `param`
  at api/nodes.py:218, 260 and 305. The model raises `NameError('param')`
  there (`Nodes.RelatedQueryNeedsId`), and `KeyError('fields')` when
  there is no `fields` key at all (`Nodes.RelatedQueryNeedsFields`).

The other defects of api/nodes.py are also kept as written:
- the misspelled `reoadable` at api/nodes.py:82: an include-only miss
  never reloads (`Nodes.IncludeOnlyMissDoesNotReload`);
- `sourceAssociations` handing out the targets lazy dict
  (api/nodes.py:66, `Nodes.RelationNames`);
- source and child nodes getting `{}` as load parameters
  (api/nodes.py:274-276 and 319-321, `Nodes.EmptyLoadParamsRaise`);
- the paging defaults of `loadChildren` being lost whenever load
  parameters are given (api/nodes.py:295-296);
- the `include` list shared between the caller and the loader's query
  (api/nodes.py:211 and 223). The loaders return the caller's load
  parameters as the append leaves them.

Four defects make a whole path fail before it does anything useful. They
are listed under "## Findings". The model has both the as-written
behaviour and a corrected operation, and the rest of the model uses the
corrected one.

## Model

| member | source | states |
|---|---|---|
| Json.Contains | api/nodes.py:73 | Python's `in` on decoded JSON: key membership for an object, element membership for a list; a TypeError exactly for null, booleans and numbers |
| Json.Index | api/nodes.py:93 | Python's `[key]` on decoded JSON succeeds exactly for an object holding the key and gives its value; a missing key is `KeyError(key)` |
| Dicts.Keys | api/nodes.py:195 | the keys of an ordered dict are its pairs' first components, position for position |
| Dicts.Lookup | api/nodes.py:200 | `d[k]` is defined exactly when `k` is a key, and then its pair is in the dict |
| Dicts.Set | api/nodes.py:198 | `d[k] = v`: `k` then maps to `v`, every other key keeps its value, an existing key keeps its position and a new key goes last |
| Dicts.SetKeepsUniqueKeys | api/nodes.py:198 | an assignment never creates a duplicate key |
| Dicts.Delete | api/nodes.py:200-201 | `del d[k]`: `k` is gone, no key appears, other keys keep their values, and a missing key leaves the dict as it is |
| Dicts.DeleteKeepsUniqueKeys | api/nodes.py:200-201 | a deletion never creates a duplicate key |
| Dicts.SetNewKeyAppends | api/nodes.py:197-198 | assigning a key that is not there appends exactly that pair |
| Dicts.DeleteLast | api/sites.py:84-85 | deleting the key of the last pair, found nowhere else, gives back the dict before it |
| Dicts.DeleteMiddle | api/nodes.py:215-216 | deleting a key that occurs once, between other pairs, removes just that pair |
| Dicts.DeleteBehind | api/nodes.py:200-201 | deleting a key absent from a prefix of the dict leaves the prefix alone |
| Dicts.KeysConcat | api/nodes.py:193-198 | the keys of two dicts laid end to end are their key lists laid end to end |
| Dicts.LookupConcat | api/nodes.py:193-198 | a lookup in two dicts laid end to end is answered by the first that holds the key |
| Dicts.LookupSnoc | api/nodes.py:197-198 | a lookup after appending a pair: the old value for an old key, the new value for the new key, nothing otherwise |
| Dicts.CopiedIsIdentity | common/connections.py:43-49 | copying a dict key for key gives the same pairs in the same order |
| Text.SplitJoinComma | common/connections.py:36-39 | the comma-joined list parameter splits back into the list when no value holds a comma |
| Text.JoinSplitComma | common/connections.py:39 | joining the comma-split pieces of a string gives the string back |
| Text.SelectedMembership | alfresco_client_nodes.py:23-37 | a name is in the list built by conditional appends exactly when its flag is set |
| Text.SelectedDistinct | alfresco_client_nodes.py:23-37 | the list built by conditional appends never repeats a name |
| Text.AddOnce | api/sites.py:68-71 | `if x not in xs: xs.append(x)` leaves `x` in the list and loses nothing |
| Text.AddOnceIdempotent | api/sites.py:68-71 | adding the same name twice is adding it once; the list grows by at most one and keeps its old elements as a prefix |
| Text.NatToString | common/errors.py:11 | `str(n)` is a non-empty string of decimal digits |
| Text.ParseNatToString | common/errors.py:11 | the decimal rendering of a status code reads back as that code |
| Text.ContentTypeFirstChar | common/connections.py:91-96 | a JSON content type starts with `a` and a text content type with `t` |
| Text.JsonIsNotText | common/connections.py:91-97 | no content type matches both patterns, so the order of the two tests does not matter |
| Encoding.Utf8Char | common/connections.py:20 | one character encodes to 1 to 4 bytes, and to one byte exactly when it is ASCII |
| Encoding.Utf8 | common/connections.py:20 | `bytes(s, 'utf-8')` has between one and four bytes per character |
| Encoding.Utf8RoundTrip | common/connections.py:20 | decoding the UTF-8 encoding of a ticket gives the ticket back |
| Encoding.Utf8Ascii | common/connections.py:20 | an ASCII ticket encodes to its own character codes, one byte each |
| Encoding.SextetValue | common/connections.py:20 | an alphabet character's 6-bit value maps back to that character |
| Encoding.Base64RoundTrip | common/connections.py:20 | Base64 of section 4 of RFC 4648: decoding an encoding gives the bytes back |
| Encoding.Base64Shape | common/connections.py:20 | the encoding has length 4 * ceil(n / 3) and uses only the alphabet and `=` |
| Encoding.QuoteIdentity | api/nodes.py:191 | `quote` leaves a string of unreserved and safe characters unchanged |
| Encoding.QuoteAlphabet | api/nodes.py:191 | every character of a quoted string is unreserved, safe, `%` or a hexadecimal digit |
| Encoding.QuotePlusOneSegment | alfresco_client_nodes.py:22 | a `quote_plus`-encoded id holds no `/` and no space, so it stays one path segment |
| Http.ContentTypeOf | common/connections.py:91 | reading `Content-type` fails exactly when the header is missing, with `KeyError('Content-type')` |
| Http.JsonOf | common/connections.py:92 | `response.json()` fails exactly when the body is not JSON |
| Http.JsonEnvelope | common/connections.py:91-95 | a JSON object with `entry` is unwrapped to that entry, one without comes back whole |
| Http.EntryInArrayRaises | common/connections.py:93-94 | a JSON list holding the string `entry` passes the `in` test and then raises TypeError on indexing |
| Http.NonJsonBodies | common/connections.py:96-98 | a `text/` body comes back as text and any other non-JSON body as bytes; neither fails |
| Http.MissingContentTypeFails | common/connections.py:91 | without a `Content-type` header the unwrapping raises `KeyError('Content-type')` |
| Errors.KindFor | common/errors.py:54-74 | 400, 401, 403, 404, 409, 500 and 503 map to their seven classes, each exactly, and every other status to the base `RequestError` |
| Errors.HandleErrorResponse | common/errors.py:65-76 | the error carries the response status and the class for it, and the extracted message; a fault while extracting is raised instead |
| Errors.NestedSummaryIsMessage | common/errors.py:65-69 | a JSON error body with `error.briefSummary` gives that summary as the message |
| Errors.TopLevelSummaryIgnored | common/errors.py:66-70 | a JSON body without `error` gives the body text, even if it has a top-level `briefSummary` |
| Errors.NonJsonMessageIsText | common/errors.py:66-70 | a body that is not JSON gives its text as the message |
| Errors.MissingContentTypeRaises | common/errors.py:66 | without a `Content-type` header building the error raises `KeyError('Content-type')` |
| Errors.ErrorString | common/errors.py:10-14 | `str(error)` succeeds exactly when the message is None or a string |
| Errors.ErrorStringReadsBack | common/errors.py:10-14 | `str(error)` starts `HTTP ` and the status code, which reads back, and ends with one space and the message when there is one |
| Connections.EffectiveUrl | common/connections.py:24-27 | the URL starts with the base, the API root, the API name and `/versions/`, and uses version `1` when none is given |
| Connections.DefaultVersionIsOne | common/connections.py:24-27 | naming version `1` builds the same URL as leaving the version out |
| Connections.NormalisedLookup | common/connections.py:34-41 | a non-empty list parameter becomes the comma-join of its values, an empty list disappears, a scalar passes unchanged |
| Connections.NormalisedKeys | common/connections.py:34-41 | normalisation keeps the surviving keys in their input order |
| Connections.NormaliseParams | common/connections.py:34-41 | the loop over `params` builds exactly the normalised parameters, and nothing when there are none |
| Connections.CopyPairs | common/connections.py:43-49 | the loops over `headers` and `files` copy them pair for pair, and give nothing when there are none |
| Connections.CredentialRoundTrip | common/connections.py:20 | the ticket can be read back out of the `BASIC` credential, whatever characters it holds |
| Connections.OnlyMultipartDispatchesAsWritten | common/connections.py:55-79 | as written, a handler call with five arguments fails with TypeError for every verb but the multipart POST |
| Connections.ErrorStatusNeverYieldsData | common/connections.py:82-86 | a status in [400, 600) goes to the error handler or raises the classified error; it never yields data |
| Connections.SuccessStatusHandling | common/connections.py:87-90 | a response handler takes every 2xx status, 204 included; without one, 204 gives no content |
| Connections.SuccessBodyIsUnwrapped | common/connections.py:90-98 | any other 2xx status without a handler gives the unwrapped body, or raises the unwrapping fault |
| Connections.OtherStatusesGiveNothing | common/connections.py:99-100 | informational and redirect statuses give None whatever handlers are given |
| Connections.Client.constructor | common/connections.py:10-13 | a new client has no ticket, no session and has sent nothing |
| Connections.Client.UpdateTicket | common/connections.py:15-21 | a given ticket replaces the old one; a live session gets the credential of the current ticket; no session is created |
| Connections.Client.UseTicket | common/connections.py:102-103 | `useTicket(None)` keeps the ticket; otherwise as `__updateTicket` |
| Connections.Client.ProcessRequest | common/connections.py:23-56 | one request with the effective URL, the normalised parameters and copied headers and files goes out over the session, created with the credential on first use; its response is classified |
| Connections.Client.OpenSession | common/connections.py:51-53 | a first request creates the session with the credential of the current ticket; a live session is kept |
| Connections.Client.Send | common/connections.py:55-56 | exactly the given request is sent and its response classified; ticket and session stay |
| Connections.Client.Get | common/connections.py:109-110 | `get` sends one GET as `__processRequest` builds it |
| Connections.Client.MultipartPost | common/connections.py:112-113 | `multipartPost` sends one multipart POST with the files |
| Connections.Client.JsonPost | common/connections.py:115-116 | `jsonPost` sends one JSON POST with the payload |
| Connections.Client.JsonPut | common/connections.py:118-119 | `jsonPut` sends one JSON PUT with the payload |
| Connections.Client.Login | common/connections.py:105-107 | one ticket request with the credentials; the `id` of the ticket entity becomes the ticket, and a fault leaves the ticket as it was |
| Connections.Connect | common/connections.py:122-128 | a given ticket wins over credentials and sends nothing; credentials send exactly the login request, and the login succeeds exactly when the ticket entity's `id` can be read, which then becomes the ticket, while a fault leaves no ticket; otherwise there is no ticket |
| LegacyClient.LegacyUrlIsDefaultVersion | alfresco_client.py:37 | the legacy URL is the public client's URL with the default version |
| LegacyClient.FailureStatuses | alfresco_client.py:54-59 | every status from 400 up raises `RequestFailed` with that status and the extracted message |
| LegacyClient.TopLevelSummaryIsMessage | alfresco_client.py:55-58 | a top-level `briefSummary` of a JSON error body is the message |
| LegacyClient.NestedSummaryOnlyInPublicClient | alfresco_client.py:55-59 | for a summary nested under `error` the legacy client reports the text and the public client the summary |
| LegacyClient.SuccessStatuses | alfresco_client.py:61-71 | a 2xx status gives the handler's result, or the body unwrapped as by the public client |
| LegacyClient.OtherStatuses | alfresco_client.py:72-75 | any other status returns None after the special handler, or raises `UnhandledStatus` with the status |
| LegacyClient.FailedString | alfresco_client.py:18-22 | `str(RequestFailed)` succeeds exactly when the message is None or a string |
| LegacyClient.FailedStringReadsBack | alfresco_client.py:18-22 | the string starts with the status code, which reads back, and ends with one space and the message when there is one |
| LegacyClient.Client.constructor | alfresco_client.py:29-30 | a new client keeps the base URL and has sent nothing |
| LegacyClient.Client.Call | alfresco_client.py:36-75 | one request with copied parameters and headers and the ticket's credential; its response dispatched on the status |
| LegacyClient.Client.Get | alfresco_client.py:36-75 | `get` sends one GET without a body |
| LegacyClient.Client.Post | alfresco_client.py:77-116 | `post` sends one POST with the data |
| LegacyClient.Client.Login | alfresco_client.py:32-34 | one ticket POST without a ticket; the `id` of the answer is returned |
| LegacyClient.CredentialOverridesCallerHeader | alfresco_client.py:45-50 | a ticket's credential replaces a caller's `Authorization` header; every other header is kept |
| LegacyClient.Connection.constructor | alfresco_client.py:119-120 | a new connection has no `ticket` attribute |
| LegacyClient.Connection.Connect | alfresco_client.py:122-123 | one login; its `id` becomes the ticket, and a failed login leaves the attribute as it was |
| LegacyClient.Connection.TicketArgument | alfresco_client_nodes.py:44 | `self.connection.ticket` raises AttributeError before any login and is passed on otherwise |
| LegacyClient.Connect | alfresco_client.py:128-132 | a new client and connection and exactly one login request; it succeeds exactly when the answer dispatches and has an `id`, which becomes the ticket; otherwise no ticket attribute exists |
| LegacyNodes.IncludeListExact | alfresco_client_nodes.py:23-37 | an aspect is in the include list exactly when its flag is set, and none twice |
| LegacyNodes.NodeParamsLookup | alfresco_client_nodes.py:39-43 | the query always has `include`, and has `fields` and `relativePath` exactly when given |
| LegacyNodes.ReloadQueryDropsRelativePath | alfresco_client_nodes.py:11-15 | `reload` sends the query of the load without its relative path |
| LegacyNodes.InternalNodesApi.constructor | alfresco_client_nodes.py:18-19 | the internal API keeps its connection |
| LegacyNodes.InternalNodesApi.LoadNodeData | alfresco_client_nodes.py:21-45 | one GET of `nodes/{id}` with the node query and the connection's ticket; a non-string id or a missing ticket fails before sending |
| LegacyNodes.BuildParams | alfresco_client_nodes.py:39-43 | the dict built step by step is the node query |
| LegacyNodes.BuildInclude | alfresco_client_nodes.py:23-37 | the appends build the include list of the flags |
| LegacyNodes.NodeParamsBuilt | alfresco_client_nodes.py:39-43 | assigning `fields` and `relativePath` after `include` builds the node query |
| LegacyNodes.Node.constructor | alfresco_client_nodes.py:5-9 | the node keeps its API, id, data and load arguments |
| LegacyNodes.Node.Reload | alfresco_client_nodes.py:11-15 | a non-string id or a missing ticket sends nothing and raises its fault; otherwise one fetch with the kept arguments or the defaults, which succeeds exactly when the answer dispatches: the data becomes the dispatched value, and a failure raises the dispatch error and keeps the data |
| LegacyNodes.NodesApi.constructor | alfresco_client_nodes.py:48-49 | the API builds its internal API over the connection |
| LegacyNodes.NodesApi.LoadNode | alfresco_client_nodes.py:51-55 | a non-string id or a missing ticket sends nothing and raises its fault; otherwise one fetch, which gives a node exactly when the answer dispatches and has an `id`: the node holds the answer, keeps the eight load arguments and takes its id from the data; a failed dispatch or missing `id` raises that fault |
| LegacyNodes.NodesApiOf | alfresco_client.py:125-126 | `nodesAPI()` builds a nodes API over the connection |
| Nodes.ParamsOfFacts | api/nodes.py:194-195 | `dict(loadParameters)` as a query holds `include` then `fields`, each when present |
| Nodes.FieldsWithId | api/nodes.py:177-183 | the kept `fields` list copies the caller's, appends `id` when it is non-empty and lacks it, and is `[]` when none was given |
| Nodes.NodeLoadParamsKeepId | api/nodes.py:169-183 | a node built by `loadNode` has both lists; a non-empty `fields` list holds `id` and every field asked for |
| Nodes.NodeDataQuery | api/nodes.py:190-201 | the query of `loadNodeData` never carries an empty `fields`; `include` and `relativePath` pass as given |
| Nodes.NodeDataSteps | api/nodes.py:193-201 | copy, assign `relativePath`, delete an empty `fields`: the steps build that query |
| Nodes.WidenAppends | api/nodes.py:73-82 | a known field missing from a non-empty `fields` list is appended once and alone asks for a reload; an includable field ends up in `include` |
| Nodes.WidenIdempotent | api/nodes.py:73-86 | widening twice for the same field changes nothing more and never reloads twice |
| Nodes.IncludeOnlyMissDoesNotReload | api/nodes.py:80-86 | an includable field is appended to `include` but asks for no reload |
| Nodes.EmptyLoadParamsRaise | api/nodes.py:76 | a node with load parameters `{}` raises `KeyError('fields')` on any missing field |
| Nodes.PropertyFallbackResolves | api/nodes.py:95-103 | a bare name resolves to its `cm:` property; a prefixed name, or a bare name without one, to nothing |
| Nodes.AssociationKey | api/nodes.py:105-123 | a bare name is cached under `cm:` + name, a prefixed name under itself |
| Nodes.AssociationKeyIdempotent | api/nodes.py:107-108 | a `cm:` key is never bare, so qualifying twice is qualifying once |
| Nodes.RelatedQueryShape | api/nodes.py:206-223 | every relation query sent asks for `association` exactly once, has no empty `fields`, and never has the paging defaults |
| Nodes.RelatedQueryNeedsFields | api/nodes.py:215-217 | a loader without load parameters, or without `fields`, raises `KeyError('fields')` |
| Nodes.RelatedQueryNeedsId | api/nodes.py:217-218 | a non-empty `fields` without `id` raises `NameError('param')` |
| Nodes.RelatedBase | api/nodes.py:209-213 | the copied parameters with `where` and `orderBy` assigned |
| Nodes.RelatedTrim | api/nodes.py:215-216 | deleting an empty `fields` leaves `include` first and the rest in order |
| Nodes.IncludeNew | api/nodes.py:220-221 | without `include` the query gets `["association"]` at the end |
| Nodes.IncludeAppend | api/nodes.py:222-223 | an `include` without `association` gets it appended, in the query and in the caller's list |
| Nodes.IncludeKept | api/nodes.py:222-223 | an `include` that names `association` is left alone |
| Nodes.Tag | api/nodes.py:230-241 | the data a tagged entry yields is an object that still holds `id` and no longer holds `association` |
| Nodes.Tagged | api/nodes.py:229-241 | tagging the entries in order gives one tag per entry when none faults |
| Nodes.TaggedPrefixFault | api/nodes.py:229-241 | a fault in a prefix of the entries is the fault of the whole listing |
| Nodes.GroupByMembers | api/nodes.py:242-244 | the groups are exactly the non-empty filters by association type, each in server order |
| Nodes.AddMember | api/nodes.py:239-244 | adding a node to the group of its type keeps the groups in step with the tagged entries, every node taking its id from its data |
| Nodes.InternalNodesApi.constructor | api/nodes.py:166-167 | the internal API keeps its client |
| Nodes.InternalNodesApi.LoadNodeData | api/nodes.py:190-204 | exactly one GET of `nodes/{id}` with the shaped query, answered by the server; a non-string id sends nothing |
| Nodes.InternalNodesApi.LoadTargets | api/nodes.py:206-246 | one GET of `targets` with the shaped query; the answer grouped into new nodes that take their ids from their entries and carry copies of the lists |
| Nodes.InternalNodesApi.LoadSources | api/nodes.py:248-286 | one GET of `sources`; the nodes get load parameters `{}` |
| Nodes.InternalNodesApi.LoadChildren | api/nodes.py:288-331 | one GET of `children`; the paging defaults only without load parameters; the nodes get `{}` |
| Nodes.InternalNodesApi.LoadRelated | api/nodes.py:206-246 | a query fault sends nothing; otherwise one request, and the listing grouped into new nodes or its fault raised |
| Nodes.InternalNodesApi.GroupAnswer | api/nodes.py:225-246 | a raised answer is raised again; otherwise the listing's entries grouped, or the fault of reading them |
| Nodes.InternalNodesApi.ShapeRelated | api/nodes.py:209-223 | the parameter steps of a relation loader build the relation query and the caller's lists as left |
| Nodes.InternalNodesApi.GroupRelated | api/nodes.py:229-244 | the loop builds one group per association type, each in server order, of new nodes over the tagged data; or the first fault |
| Nodes.InternalNodesApi.AddEntry | api/nodes.py:239-244 | one turn of the loop: a new node appended to the group of its type |
| Nodes.InternalNodesApi.LoadNode | api/nodes.py:169-188 | one fetch with the copied lists; a new node over the answer, or the fault |
| Nodes.InternalNodesApi.NodeOf | api/nodes.py:185-188 | the node over an answer: the raised exception, the fault of reading `id`, or a new node with no cache |
| Nodes.CopyLoadParams | api/nodes.py:170-183 | the copies `loadNode` makes are the node's load parameters |
| Nodes.RelationNames | api/nodes.py:57-71 | five names are relations; `sourceAssociations` creates the sources dict and hands out the targets dict |
| Nodes.DictOf | api/nodes.py:90 | `dict(value)` succeeds for an object, an empty list or string, and copies the object's entries |
| Nodes.PropertiesSeed | api/nodes.py:88-90 | the properties lazy dict starts from the data's `properties`; a missing key is `KeyError('properties')` |
| Nodes.Node.constructor | api/nodes.py:26-37 | the id comes from the data, and all seven caches are empty |
| Nodes.Node.Reload | api/nodes.py:39-47 | one fetch with the current load parameters; on success new data and no cache, on failure nothing changes |
| Nodes.Node.ResolveChildPath | api/nodes.py:49-51 | a new node for the path, loaded with this node's lists; a missing list raises before sending |
| Nodes.Node.Get | api/nodes.py:56-93 | a relation name hands out its lazy dict and never fetches; another name present is read at once; a miss widens and reloads exactly when `fields` grew |
| Nodes.Node.ReadData | api/nodes.py:88-93 | `properties` hands out the lazy dict seeded from the data; other names are read from the data |
| Nodes.Node.PropertyItem | api/nodes.py:14-23 | a cached name is returned without lookup; a miss stores and returns the `cm:` value, or raises KeyError when there is none |
| Nodes.Node.RelationItem | api/nodes.py:105-123 | a cached name or key answers without a fetch; otherwise the loader fetches the key's type once |
| Nodes.Node.FetchAssociation | api/nodes.py:110-115 | a miss on both caches sends one relation request for the key's type and stores the group under the key |
| Nodes.Node.StoreFetched | api/nodes.py:112-115 | the group under the key is stored in both caches; a fault or a missing key leaves them |
| Nodes.Node.LoadAssociations | api/nodes.py:111 | the loader runs with `(assocType=key)` and this node's load parameters |
| Nodes.IncludeListExact | api/nodes.py:350-363 | a field is in the include list of `getNode` exactly when its flag is on, and none twice |
| Nodes.NoFlagsIncludeNothing | api/nodes.py:350-363 | with every flag off the include list is empty |
| Nodes.NodesApi.constructor | api/nodes.py:338-339 | the API keeps its client |
| Nodes.NodesApi.GetNode | api/nodes.py:350-367 | one fetch of the node through a new internal API, with the flags' include list and the given fields |
| Nodes.NodesApi.GetCompanyHome | api/nodes.py:341-342 | one fetch of `-root-` with no flags and no fields |
| Nodes.NodesApi.GetSharedFiles | api/nodes.py:344-345 | one fetch of `-shared-` |
| Nodes.NodesApi.GetMyFiles | api/nodes.py:347-348 | one fetch of `-my-` |
| Nodes.BuildIncludes | api/nodes.py:351-363 | the appends build the include list of the flags |
| Sites.WithIdAndGuid | api/sites.py:66-71 | the kept `fields` list holds `id`, `guid` and the given names, in their order, and at most two more |
| Sites.WithIdAndGuidIdempotent | api/sites.py:68-71 | completing a complete list changes nothing, and never doubles a name |
| Sites.SiteQuery | api/sites.py:77-88 | the relations and the fields reach the server comma-joined when there are any, and nothing else |
| Sites.InitialFieldsAlwaysSent | api/sites.py:60-88 | a site loaded with `fields` always asks for them, `id` and `guid` included |
| Sites.SiteWidenAppends | api/sites.py:21-26 | a known field missing from a non-empty `fields` list is appended once and alone asks for a reload; `relations` never changes |
| Sites.SiteWidenIdempotent | api/sites.py:21-30 | widening twice for the same field appends nothing more and never reloads twice |
| Sites.RelationMissRaises | api/sites.py:28-30 | a relation field the site was not loaded with raises `KeyError('include')` |
| Sites.NoFieldsListRaises | api/sites.py:24 | a site loaded without `fields` raises `KeyError('fields')` on any missing field |
| Sites.IdAndGuidNeverReload | api/sites.py:24-26 | a site loaded with `fields` never reloads for `id` or `guid` |
| Sites.ReloadAsWrittenNeverLoads | api/sites.py:17-18 | as written, `reload` always raises KeyError and never fetches |
| Sites.SiteNodeAsWrittenNeverLoads | api/sites.py:37-39 | as written, the site node is never fetched |
| Sites.FieldOf | api/sites.py:35 | `siteData[fieldName]`: the value when present, the KeyError or TypeError otherwise |
| Sites.InternalSitesApi.constructor | api/sites.py:57-58 | the internal API keeps its client |
| Sites.InternalSitesApi.LoadSite | api/sites.py:60-75 | one fetch with `relations` and completed `fields`; a site over the answer, or the fault |
| Sites.InternalSitesApi.LoadSiteData | api/sites.py:77-89 | one GET of `sites/{id}` with the load parameters, an empty `fields` dropped |
| Sites.InternalSitesApi.LoadSiteNode | api/sites.py:91-94 | the node named by the site's guid, through `getNode` |
| Sites.InternalSitesApi.LoadSiteContainerNode | api/sites.py:96-101 | one GET of the container, then the node its `id` names through `getNode` |
| Sites.InternalSitesApi.LoadEntryNode | api/sites.py:99-101 | the node an entry's `id` names; no request when the entry or its `id` is missing |
| Sites.Site.constructor | api/sites.py:10-15 | the id comes from the data, and no node is cached |
| Sites.Site.Reload | api/sites.py:17-18 | one fetch with the site's load parameters; new data on success, old data on failure |
| Sites.Site.Get | api/sites.py:20-35 | a field present is read with no fetch; a miss widens, reloads exactly when `fields` grew, then reads the field |
| Sites.Site.GetSiteNode | api/sites.py:37-40 | the node is fetched once and cached; later calls return it without a request |
| Sites.Site.GetSiteNodeAsWritten | api/sites.py:37-40 | as written, raises AttributeError while no node is cached, which is always |
| Sites.Site.GetDocumentLibrary | api/sites.py:42-44 | the `documentLibrary` container node |
| Sites.Site.GetCalendar | api/sites.py:46-48 | the `calendar` container node |
| Sites.Site.GetLinks | api/sites.py:50-52 | the `links` container node |
| Sites.SitesApi.constructor | api/sites.py:104-105 | the API keeps its client |
| Sites.SitesApi.GetSite | api/sites.py:107-110 | one fetch of the site through a new internal API |

## Left out

- The HTTP transport (`requests.Session` and the `__do*` handlers of common/connections.py:58-79, `requests.get`/`post` in alfresco_client.py:52 and 93) is replaced by the server function; `Connections.BuildRequest` records what each handler would put on the wire.
- Decoding response bodies (`response.json()`, `.text`, `.content`): a response carries them already decoded.
- `downloadContent` and `loadContent` (api/nodes.py:53-54, 333-335): file output, left out.
- The `print` diagnostics (api/nodes.py:85, 180): console output only.
- Python's `__getattr__` is reached only for names that are not attributes of the object; `Nodes.Node.Get` and `Sites.Site.Get` are the explicit accessors and are meant to be called only for such names.
- The order of keys inside a JSON object: objects are maps.
- Nodes.DictOf: `dict()` of a non-empty list of key/value pairs would succeed in Python; the model refuses every non-empty list.
- Nodes.Node.RelationItem: states the request sent and which association types the answer grouped into, but not the data of the nodes it stores; `Nodes.InternalNodesApi.LoadRelated` states that data.
- Nodes.Node.FetchAssociation: as `Nodes.Node.RelationItem`, the stored nodes' data is not stated.
- A lazy dict handed out before `reload` keeps working on its old cache in Python; the model keeps the lazy dicts inside the node, so no stale copy exists.
- The `relations` TODO of api/sites.py:87: the model sends `relations` as any other list parameter and does not unpack the related entities.
- Connections.Client.Login: a ticket entity whose `id` is neither a string nor null (say `{"id": 5}`) is stored in `__ticket` by common/connections.py:16-17 before `bytes` raises TypeError at :20; the model keeps the old ticket, so a later `useTicket(None)` re-applies the old credential where Python raises TypeError.
- JSON numbers are integers only: floating-point values are not modelled, nor Python's key equality of `1`, `1.0` and `True` when relations are grouped by `assocType` (api/nodes.py:242).
- The `_InternalNodesAPI` and `_InternalSitesAPI` loaders are called only with a string id in practice; a non-string id is modelled as the TypeError of `quote`.

## Findings

| source | as written | input that shows it | evidently intended | confidence | as-written member | corrected member |
|---|---|---|---|---|---|---|
| common/connections.py:55 | calls the request handler with five arguments, but `__doGet`, `__doJsonPost`, `__doJsonPut` and the others take four | any `get`, `jsonPost` or `jsonPut` call, such as `login` | pass the files only to the multipart handler | not executed | Connections.OnlyMultipartDispatchesAsWritten | Connections.Client.ProcessRequest |
| api/sites.py:18 | `reload` reads the `include` key, which a site's load parameters never have, and passes keywords `loadSiteData` does not accept | any site after a `fields` miss, such as `loadSite('s', fields=['title'])` then `.description` | call `loadSiteData(self.id, self.__loadParameters)` | not executed | Sites.ReloadAsWrittenNeverLoads | Sites.Site.Reload |
| api/sites.py:39 | `getSiteNode` reads `.guid` as an attribute of the site data, which is a dict | any site, such as one whose data is `{"id": "s", "guid": "g"}` | read `self.__siteData['guid']` | not executed | Sites.SiteNodeAsWrittenNeverLoads | Sites.Site.GetSiteNode |
| api/sites.py:93 | `loadSiteNode` passes the undefined name `guid` instead of its parameter | `loadSiteNode('g')` | pass `siteGuid` | not executed | Sites.SiteNodeAsWrittenNeverLoads | Sites.InternalSitesApi.LoadSiteNode |
