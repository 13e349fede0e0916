/**
 * `routeToView` against the heap: the merge target and, when the state
 * query is dropped, the base are object literals `{}` that the engine
 * allocates on the call. Their references are parameters here, the
 * engine's promise being that they are not yet in the heap.
 */
module RoutingHandlerObjects {
  import opened Wrappers
  import opened ObjectAssign
  import opened JsHeap
  import RoutingHandler

  /** The returned descriptor, whose `query` is a reference to an object. */
  datatype NavigationObject<P> = NavigationObject(name: string, params: Option<P>, query: Ref)

  /**
   * The heap after `routeToView` and its descriptor. The descriptor's query
   * is the new target object, holding the value-level query of
   * `RoutingHandler.RouteToView`; every object that existed before the
   * call, the router's current query and the update included, is unchanged.
   */
  function RouteToViewOnHeap<P, V>(h: Heap<V>, current: Ref, routeName: string, params: Option<P>,
                                   keepStateQuery: bool, updatedQuery: Option<Ref>,
                                   target: Ref, emptyBase: Ref)
    : (res: (Heap<V>, NavigationObject<P>))
    requires current in h && (updatedQuery.Some? ==> updatedQuery.value in h)
    requires target !in h && emptyBase !in h && target != emptyBase
    ensures res.1 == NavigationObject(routeName, params, target)
    ensures res.0.Keys == h.Keys + {target} + (if keepStateQuery then {} else {emptyBase})
    ensures forall r :: r in h ==> res.0[r] == h[r]
    ensures res.0[target]
            == RoutingHandler.RouteToView(h[current], routeName, params, keepStateQuery, Deref(h, updatedQuery)).query
  {
    var h1 := h[target := map[]];
    var h2 := if keepStateQuery then h1 else h1[emptyBase := map[]];
    var base := if keepStateQuery then current else emptyBase;
    var sources := [Some(base), updatedQuery];
    assert Unaliased(target, sources);
    assert DerefAll(h2, sources)
           == [Some(RoutingHandler.StateQuery(h[current], keepStateQuery)), Deref(h, updatedQuery)];
    (AssignInPlace(h2, target, sources), NavigationObject(routeName, params, target))
  }

  /**
   * The descriptor's query is a (shallow) copy: writing or deleting one of
   * its top-level properties afterwards changes no object that existed
   * before the call, so the router's current query is not altered that way.
   */
  lemma WritingQueryLeavesRouterState<P, V>(h: Heap<V>, current: Ref, routeName: string, params: Option<P>,
                                            keepStateQuery: bool, updatedQuery: Option<Ref>,
                                            target: Ref, emptyBase: Ref, k: string, v: V)
    requires current in h && (updatedQuery.Some? ==> updatedQuery.value in h)
    requires target !in h && emptyBase !in h && target != emptyBase
    ensures var res := RouteToViewOnHeap(h, current, routeName, params, keepStateQuery, updatedQuery,
                                         target, emptyBase);
            var written := res.0[res.1.query := res.0[res.1.query][k := v]];
            forall r :: r in h ==> written[r] == h[r]
    ensures var res := RouteToViewOnHeap(h, current, routeName, params, keepStateQuery, updatedQuery,
                                         target, emptyBase);
            var deleted := res.0[res.1.query := res.0[res.1.query] - {k}];
            forall r :: r in h ==> deleted[r] == h[r]
  {
  }
}
