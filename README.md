# CustomSocket model and query builder

A Dafny model of the customsocket resource of the Syncano JavaScript SDK
(`src/models/customsocket.js`). The model has three parts:

- **The resource descriptor.** Four actions (`detail`, `recheck`, `list`,
  `endpoint`). Each has its allowed HTTP methods and its path template. They
  are held as constant data in `CustomSocketMeta.Meta`.
- **The query builder (`CustomSocketQuerySet`).** This is a class whose fields
  hold the pending request: merged `properties`, HTTP method, action key
  (`endpoint`), `query` payload and the raw-response flag. `recheck` and
  `runEndpoint` overwrite those fields in place and return the builder itself.
  Each method is proved against a pure function of the old state (`Rechecked`,
  `RanEndpoint`). The lemmas about chaining are stated on those functions.
- **The model instance (`CustomSocket`).** This is a class with the instance's
  data fields and two endpoint structures. `endpoints` maps an endpoint name
  to `{calls}`. `endpointObjects` lists the endpoint records in the order they
  were added. `addEndpoint` and `removeEndpoint` update both. Each is proved
  against a pure function on the pair (`Added`, `Removed`). The round trip,
  idempotence and the mirror invariant are lemmas about those functions.
  `recheck` and `runEndpoint` on the instance change nothing. They are
  functions that give the request handed to the HTTP layer.

`Meta.resolveEndpointPath` lives in `src/models/base.js`, which is not part of
this model. Every operation that resolves a path therefore takes the resolver
as a parameter (`Resolver`). A resolver failure is a configuration error, and
the model passes it through unchanged.

Files: `wrappers.dfy` (Option, Result), `jsvalues.dfy` (JavaScript values and
`_.assign`), `meta.dfy` (descriptor, request, resolver type), `queryset.dfy`
(builder), `customsocket.dfy` (model instance).

The code keeps the endpoints twice, as a map and as an ordered list, and the
two can disagree: a name added twice has one map entry and two records.

## Model

| member | source | states |
|---|---|---|
| `JsValues.Assign` | src/models/customsocket.js:17 | `_.assign({}, old, new)` holds every key of both objects; a key of `new` takes its value from `new`, and a key only in `old` keeps its old value |
| `JsValues.AssignTwice` | src/models/customsocket.js:27 | merging two objects in one after the other is the same as merging in their own merge |
| `JsValues.AssignIdempotent` | src/models/customsocket.js:17 | merging the same properties in a second time changes nothing |
| `CustomSocketMeta.RecheckAllowsOnlyPost` | src/models/customsocket.js:47-48 | the `recheck` action allows POST, and a method is allowed for it exactly when it is `post` ignoring case |
| `CustomSocketMeta.EndpointAllowsGet` | src/models/customsocket.js:55-56 | the `endpoint` action allows GET, the builder's default method |
| `QuerySet.Rechecked` | src/models/customsocket.js:16-24 | after `recheck(p)`: properties are the old ones overridden by `p`, with old-only keys kept; method is POST; action is `recheck`; raw is set; query is untouched; the method is allowed for the action |
| `QuerySet.RanEndpoint` | src/models/customsocket.js:26-35 | after `runEndpoint(p, m, q)`: properties are merged as by recheck; method is `m`, or GET when omitted (and GET is allowed for the action); action is `endpoint`; query is `q`, or `{}` when `q` is omitted or `undefined`; raw is set |
| `QuerySet.RunEndpointReplacesQuery` | src/models/customsocket.js:31 | the query the builder held before `runEndpoint` has no effect on the state after it: the query is replaced, not merged |
| `QuerySet.RecheckThenRunEndpoint` | src/models/customsocket.js:16-35 | `recheck(p)` followed by `runEndpoint(q, m, x)` gives the state `runEndpoint` alone gives with properties `p` merged with `q` |
| `QuerySet.RecheckIdempotent` | src/models/customsocket.js:16-24 | calling `recheck(p)` twice gives the same state as calling it once |
| `QuerySet.CustomSocketQuerySet.Raw` | src/models/customsocket.js:21 | `raw()` sets the raw flag, changes no other field and returns the builder |
| `QuerySet.CustomSocketQuerySet.Recheck` | src/models/customsocket.js:16-24 | returns the same builder, and its new state is `Rechecked` of its old state |
| `QuerySet.CustomSocketQuerySet.RunEndpoint` | src/models/customsocket.js:26-35 | returns the same builder, and its new state is `RanEndpoint` of its old state |
| `CustomSocketModel.Reject` | src/models/customsocket.js:110 | `_.reject(list, {name: n})` is no longer than the list, and a record is in the result exactly when it is in the list and not named `n` |
| `CustomSocketModel.RejectCounts` | src/models/customsocket.js:110 | a record not named `n` occurs as often in the result as in the list; a record named `n` does not occur |
| `CustomSocketModel.RejectAppend` | src/models/customsocket.js:110 | rejecting from a concatenation is the concatenation of the rejected parts, so the survivors keep their order |
| `CustomSocketModel.RejectNoneNamed` | src/models/customsocket.js:110 | a list with no record named `n` comes back unchanged |
| `CustomSocketModel.RejectIdempotent` | src/models/customsocket.js:110 | rejecting twice is the same as rejecting once |
| `CustomSocketModel.Added` | src/models/customsocket.js:103-105 | after `addEndpoint(e)`: `endpoints[e.name]` is `{calls: e.scriptCalls}`, replacing any earlier entry; every other key keeps its value; `e` is appended, so the list grows by one and the earlier records keep their order even when one has the same name |
| `CustomSocketModel.Removed` | src/models/customsocket.js:108-110 | after `removeEndpoint(n)`: key `n` is gone and every other key keeps its value; the list keeps exactly the records not named `n`, each as often as before |
| `CustomSocketModel.RemoveAbsentIsNoop` | src/models/customsocket.js:108-110 | removing a name that neither structure holds changes nothing |
| `CustomSocketModel.RemoveIdempotent` | src/models/customsocket.js:108-110 | removing the same name twice is the same as removing it once |
| `CustomSocketModel.AddThenRemove` | src/models/customsocket.js:103-111 | when `e`'s name is in neither structure, `addEndpoint(e)` followed by `removeEndpoint(e.name)` restores both structures |
| `CustomSocketModel.AddKeepsMirrored` | src/models/customsocket.js:103-105 | if every named record has an entry under its name in the map, that stays true after `addEndpoint` |
| `CustomSocketModel.RemoveKeepsMirrored` | src/models/customsocket.js:108-110 | if every named record has an entry under its name in the map, that stays true after `removeEndpoint` |
| `CustomSocketModel.CustomSocket.constructor` | src/models/customsocket.js:90-93 | a new instance from data without endpoint structures holds that data, the default empty endpoints map and the default empty record list, and every named record is mirrored in the map |
| `CustomSocketModel.CustomSocket.WithEndpoints` | src/models/customsocket.js:90-93 | a new instance from data that carries endpoint structures holds those structures in place of the defaults and the rest of the data as its other fields |
| `CustomSocketModel.CustomSocket.OwnProperties` | src/models/customsocket.js:98 | the object the resolver sees as `this`: every data field with its value, plus `endpoints` and `endpointObjects` as JavaScript values |
| `CustomSocketModel.CustomSocket.Recheck` | src/models/customsocket.js:96-101 | fails exactly when resolving `recheck` from the instance fails, with the same error; otherwise it gives a POST with no options to the resolved path, and POST is allowed for `recheck` |
| `CustomSocketModel.CustomSocket.EndpointValues` | src/models/customsocket.js:115 | the values the `endpoint` path is resolved from are the instance's own properties with only `endpoint_name` overridden |
| `CustomSocketModel.CustomSocket.RunEndpoint` | src/models/customsocket.js:113-118 | fails exactly when resolving `endpoint` from those values fails, with the same error; otherwise it gives the caller's method, the resolved path and `{query: payload}` |
| `CustomSocketModel.CustomSocket.AddEndpoint` | src/models/customsocket.js:103-106 | the data fields are unchanged; the new endpoint structures are `Added` of the old ones; if every named record was mirrored in the map, it still is |
| `CustomSocketModel.CustomSocket.RemoveEndpoint` | src/models/customsocket.js:108-111 | the data fields are unchanged; the new endpoint structures are `Removed` of the old ones; if every named record was mirrored in the map, it still is |

## Left out

- HTTP dispatch is left out: `makeRequest`, the execution behind `raw()`, and the `list`, `create`, `update`, `delete` and `get` mixins of the builder. These are network I/O, and `src/querySet` is not part of this model. The model stops at the `Request` (method, path, options) handed to the HTTP layer.
- `Meta.resolveEndpointPath` is a parameter (`Resolver`) because `src/models/base.js` is not part of this model. No substitution rules are assumed.
- Allowed methods are compared with the table through ASCII lower case (`Lower`). The source dispatches `POST` while its table lists `post`, and the comparison done in `base.js` is not visible.
- The constraints table (src/models/customsocket.js:62-78) and all validation are delegated to a validation library that is not part of this model.
- `src/models/apnsdevice.js` is left out. It is only a declarative table with no behaviour of its own.
- The error classes and their message formatting are left out. The one error kept is the resolver's configuration error, passed through unchanged.
- The initial builder state comes from the base query set, which is not part of this model. The builder's constructor takes it as parameters, with the raw flag cleared.
- stampit composition and prop sharing are left out. Maps and lists are values here. So the model does not capture that `removeEndpoint` deletes the key in place with `_.unset`. If that map object is shared, for example the default `{}` of the props, other holders see the change.
- `RemoveEndpoint` treats every name as a plain key. When the name is not a key, lodash's `_.unset` reads a name containing `.` or `[` as a deep path. lodash is not part of this model.
- CustomSocketModel.CustomSocket.constructor: the instance's data is split into the endpoint structures and the other fields, so both constructors require that the other fields contain no `endpoints` or `endpointObjects` key; data that carries them goes through `WithEndpoints`. Carried structures whose JavaScript shape is not a map of `{calls}` objects or a list of records with `name` and `scriptCalls` are not modelled.
- Endpoint records carry only `name` (a string, or absent) and `scriptCalls`. Other properties, non-string names, and the flattening `_.concat` applies to an array argument are not modelled.
- Builder arguments are objects, or omitted (`Option`); an explicit `undefined` payload takes the default like an omitted one. `_.assign`'s treatment of `null`, strings and other non-object sources is not modelled, and neither is an explicit `null` method or payload.
- JavaScript numbers are integers here. The model only stores and forwards them.
- The integration and end-to-end tests run against a live backend. Ordering and page size there are server behaviour.
