# routingHandler: the `routeToView` navigation descriptor

The routing mixin of this Vue component library has one operation,
`routeToView(routeName, params = null, keepStateQuery = true, updatedQuery = null)`.
It does not navigate. It returns the descriptor `{name, params, query}` that a
component passes to the router. The query is
`Object.assign({}, keepStateQuery ? currentQuery : {}, updatedQuery)`.
When the state query (for example `team=…`) is kept, the update is amended to
the current route's query. When it is dropped, the update replaces it.

The model has five modules:

- `Wrappers`: `Option`. `None` stands for JavaScript `null` and for an omitted argument.
- `ObjectAssign`: `Object.assign(target, ...sources)` on values. A plain object is a
  `map<string, V>` of its own properties. `Assign` copies the sources left to right,
  and a `null` source copies nothing. Its contract gives the key set and the
  "last source wins" rule. `AssignSnoc` shows that each extra source is a
  right-biased `map +`.
- `RoutingHandler`: `RouteToView`. It has the source's default arguments and the
  properties the helper's comments promise. The router's current query, which the
  mixin reads from `this.$router.currentRoute.query`, is an explicit snapshot parameter.
- `JsHeap`: objects as references into a heap, and `Object.assign` run against it,
  writing into its target object.
- `RoutingHandlerObjects`: `routeToView` on that heap. It shows that the only object
  written is the freshly allocated `{}` target. No existing object changes,
  including the router's current query and the update. The descriptor's query is
  that new object, so writing or deleting one of its top-level properties
  afterwards leaves the router's current query as it was. The engine allocates the
  `{}` literals; their references are parameters required not to be in the heap yet.

`routeToView` checks nothing about `routeName`; the model accepts any string, the
empty one included.

## Model

| member | source | states |
|---|---|---|
| `ObjectAssign.Assign` | src/utils/routingHandler.mixin.js:25 | the merged object has exactly the target's keys plus every source's keys; a key takes the value of the last source that has it; a key no source has keeps the target's value; a `null` source contributes nothing |
| `ObjectAssign.AssignSnoc` | src/utils/routingHandler.mixin.js:25 | copying one more source at the end is a right-biased map union with that source |
| `ObjectAssign.AssignTwo` | src/utils/routingHandler.mixin.js:25 | `Object.assign(t, a, b)` equals `t + a + b` in Dafny's right-biased map algebra |
| `RoutingHandler.RouteToView` | src/utils/routingHandler.mixin.js:20-26 | the descriptor's name is `routeName`, its params are `params` unchanged, its query's key set is exactly the union of the base's keys and the update's keys, and its query is the base (current query or `{}`) merged right-biased with the update |
| `RoutingHandler.QueryIsRightBiasedUnion` | src/utils/routingHandler.mixin.js:25 | the query equals the base (current query or `{}`) merged right-biased with the update |
| `RoutingHandler.OmittedArgumentsKeepState` | src/utils/routingHandler.mixin.js:20-26 | with only `routeName` given, params is null and the query equals the current query |
| `RoutingHandler.DroppedStateNoUpdateIsEmpty` | src/utils/routingHandler.mixin.js:25 | `keepStateQuery = false` with a null update gives the empty query |
| `RoutingHandler.KeptStateNoUpdateIsCurrent` | src/utils/routingHandler.mixin.js:16-25 | `keepStateQuery = true` with a null update gives a query equal by value to the current query |
| `RoutingHandler.DroppedStateQueryIsUpdate` | src/utils/routingHandler.mixin.js:18-25 | with `keepStateQuery = false` the query is exactly the update (the update replaces the state query) |
| `RoutingHandler.UpdateWins` | src/utils/routingHandler.mixin.js:25 | every key of the update is in the query with the update's value, so the update wins every collision with the current query |
| `RoutingHandler.KeptStateAmended` | src/utils/routingHandler.mixin.js:16-25 | with `keepStateQuery = true`, a current key the update lacks keeps its current value (the update is amended) |
| `RoutingHandler.QueryValueOrigin` | src/utils/routingHandler.mixin.js:25 | each query value comes from the update; otherwise the state query was kept and the value comes from the current query |
| `RoutingHandler.ExampleKeepTeam` | src/utils/routingHandler.mixin.js:15-26 | a kept `team` query with no update gives `{team}` and params `{id: 7}` unchanged |
| `RoutingHandler.ExampleOverrideTeam` | src/utils/routingHandler.mixin.js:16-25 | the update `{team: orgB}` overrides the current `{team: orgA}` |
| `RoutingHandler.ExampleReplaceTeam` | src/utils/routingHandler.mixin.js:18-25 | dropping the state query, the update `{lang: en}` is the whole query |
| `JsHeap.AssignInPlace` | src/utils/routingHandler.mixin.js:25 | `Object.assign` on the heap writes only its target object, keeps the set of objects, and leaves the target holding `Assign` of its old contents and the sources' contents when no source is the target |
| `RoutingHandlerObjects.RouteToViewOnHeap` | src/utils/routingHandler.mixin.js:20-26 | the descriptor's query is the freshly allocated target; every object that existed before the call is unchanged; the target holds the query of `RoutingHandler.RouteToView` |
| `RoutingHandlerObjects.WritingQueryLeavesRouterState` | src/utils/routingHandler.mixin.js:25 | writing or deleting a top-level property of the returned query object afterwards alters no object that existed before the call, the router's current query included |

## Left out

- The Vue mixin wrapper (`name: 'routingHandler'`, the `methods` object, lines 1-6 and 28-29): it is framework plumbing with no behaviour.
- How `this.$router.currentRoute` is obtained and kept up to date: the router is an external collaborator, and its query is an input snapshot here.
- Pushing the descriptor to the router: the helper never navigates.
- Key insertion order of JavaScript objects, and symbol, inherited or non-enumerable properties: queries are unordered string-keyed maps.
- A `__proto__` key in the update: `Object.assign` writes it through the prototype setter instead of creating an own property. The model treats it like any other key.
- JavaScript truthiness of `keepStateQuery`: the model takes a boolean. Passing `undefined` explicitly for an optional argument behaves as omitting it (JavaScript defaults), so it is not modelled separately.
- The copy is shallow: `Object.assign` copies each query value by reference, so an object-valued entry (an array for a repeated key such as `?tag=a&tag=b`) stays shared with the router's current query, and changing that array through the descriptor changes the current query too. The model treats query values as immutable, so this sharing is not captured.
- Whether `routeName` and `params` fit a declared route: the router validates that.
