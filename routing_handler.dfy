/**
 * `routeToView` of the routing mixin: it builds the descriptor
 * `{name, params, query}` that a caller hands to the router. The query is
 * `Object.assign({}, base, updatedQuery)`, where the base is the current
 * route's query when the state query is kept and `{}` otherwise.
 *
 * The current route's query, which the mixin reads from
 * `this.$router.currentRoute`, is an explicit snapshot parameter here.
 */
module RoutingHandler {
  import opened Wrappers
  import opened ObjectAssign

  /** The navigation descriptor; `params` is `None` for JavaScript `null`. */
  datatype Navigation<P, V> = Navigation(name: string, params: Option<P>, query: Props<V>)

  /** The base the update is merged onto: the state query, or a fresh `{}`. */
  function StateQuery<V>(current: Props<V>, keepStateQuery: bool): Props<V>
  {
    if keepStateQuery then current else map[]
  }

  /**
   * The descriptor for `routeToView(routeName, params, keepStateQuery,
   * updatedQuery)`, with the source's defaults: `params = null`,
   * `keepStateQuery = true`, `updatedQuery = null`. Its name and params are
   * the arguments, its query has exactly the keys of the base and of the
   * update, and it is the base merged right-biased with the update.
   */
  function RouteToView<P, V>(current: Props<V>, routeName: string, params: Option<P> := None,
                             keepStateQuery: bool := true, updatedQuery: Option<Props<V>> := None)
    : (nav: Navigation<P, V>)
    ensures nav.name == routeName && nav.params == params
    ensures nav.query.Keys == StateQuery(current, keepStateQuery).Keys + Copied(updatedQuery).Keys
    ensures nav.query == StateQuery(current, keepStateQuery) + Copied(updatedQuery)
  {
    AssignTwo(map[], Some(StateQuery(current, keepStateQuery)), updatedQuery);
    Navigation(routeName, params, Assign(map[], [Some(StateQuery(current, keepStateQuery)), updatedQuery]))
  }

  /** The query is the right-biased union of the base and the update. */
  lemma QueryIsRightBiasedUnion<P, V>(current: Props<V>, routeName: string, params: Option<P>,
                                      keepStateQuery: bool, updatedQuery: Option<Props<V>>)
    ensures RouteToView(current, routeName, params, keepStateQuery, updatedQuery).query
            == StateQuery(current, keepStateQuery) + Copied(updatedQuery)
  {
    AssignTwo(map[], Some(StateQuery(current, keepStateQuery)), updatedQuery);
  }

  /** With every optional argument omitted, params is null and the query is the current one. */
  lemma OmittedArgumentsKeepState<P, V>(current: Props<V>, routeName: string)
    ensures RouteToView<P, V>(current, routeName) == Navigation(routeName, None, current)
  {
    QueryIsRightBiasedUnion<P, V>(current, routeName, None, true, None);
  }

  /** Dropping the state query with no update gives an empty query. */
  lemma DroppedStateNoUpdateIsEmpty<P, V>(current: Props<V>, routeName: string, params: Option<P>)
    ensures RouteToView(current, routeName, params, false, None).query == map[]
  {
    QueryIsRightBiasedUnion(current, routeName, params, false, None);
  }

  /** Keeping the state query with no update gives the current query, by value. */
  lemma KeptStateNoUpdateIsCurrent<P, V>(current: Props<V>, routeName: string, params: Option<P>)
    ensures RouteToView(current, routeName, params, true, None).query == current
  {
    QueryIsRightBiasedUnion(current, routeName, params, true, None);
  }

  /** Dropping the state query, the update replaces it: the query is the update exactly. */
  lemma DroppedStateQueryIsUpdate<P, V>(current: Props<V>, routeName: string, params: Option<P>,
                                        updatedQuery: Option<Props<V>>)
    ensures RouteToView(current, routeName, params, false, updatedQuery).query == Copied(updatedQuery)
  {
    QueryIsRightBiasedUnion(current, routeName, params, false, updatedQuery);
  }

  /** On every key of the update, and so on every collision with the current query, the update wins. */
  lemma UpdateWins<P, V>(current: Props<V>, routeName: string, params: Option<P>,
                         keepStateQuery: bool, updatedQuery: Option<Props<V>>, k: string)
    requires k in Copied(updatedQuery)
    ensures var query := RouteToView(current, routeName, params, keepStateQuery, updatedQuery).query;
            k in query && query[k] == Copied(updatedQuery)[k]
  {
    QueryIsRightBiasedUnion(current, routeName, params, keepStateQuery, updatedQuery);
  }

  /** Keeping the state query, the update is amended: keys it lacks keep the current value. */
  lemma KeptStateAmended<P, V>(current: Props<V>, routeName: string, params: Option<P>,
                               updatedQuery: Option<Props<V>>, k: string)
    requires k in current && k !in Copied(updatedQuery)
    ensures var query := RouteToView(current, routeName, params, true, updatedQuery).query;
            k in query && query[k] == current[k]
  {
    QueryIsRightBiasedUnion(current, routeName, params, true, updatedQuery);
  }

  /**
   * Every value in the query comes from the update, or, when the state
   * query is kept and the update lacks the key, from the current query.
   */
  lemma QueryValueOrigin<P, V>(current: Props<V>, routeName: string, params: Option<P>,
                               keepStateQuery: bool, updatedQuery: Option<Props<V>>, k: string)
    requires k in RouteToView(current, routeName, params, keepStateQuery, updatedQuery).query
    ensures var query := RouteToView(current, routeName, params, keepStateQuery, updatedQuery).query;
            if k in Copied(updatedQuery) then query[k] == Copied(updatedQuery)[k]
            else keepStateQuery && k in current && query[k] == current[k]
  {
    QueryIsRightBiasedUnion(current, routeName, params, keepStateQuery, updatedQuery);
  }

  /** Worked example: keeping a `team` state query with no update, params `{id: 7}` passed through. */
  lemma ExampleKeepTeam()
    ensures RouteToView(map["team" := "organisations/alis/products/in"], "dashboard",
                        Some(map["id" := 7]), true, None)
            == Navigation("dashboard", Some(map["id" := 7]), map["team" := "organisations/alis/products/in"])
  {
    KeptStateNoUpdateIsCurrent(map["team" := "organisations/alis/products/in"], "dashboard", Some(map["id" := 7]));
  }

  /** Worked example: an update of `team` overrides the kept state value. */
  lemma ExampleOverrideTeam()
    ensures RouteToView<int, string>(map["team" := "orgA"], "settings", None, true, Some(map["team" := "orgB"]))
            == Navigation("settings", None, map["team" := "orgB"])
  {
    QueryIsRightBiasedUnion<int, string>(map["team" := "orgA"], "settings", None, true, Some(map["team" := "orgB"]));
    assert map["team" := "orgA"] + map["team" := "orgB"] == map["team" := "orgB"];
  }

  /** Worked example: dropping the state query, only the update's `lang` remains. */
  lemma ExampleReplaceTeam()
    ensures RouteToView<int, string>(map["team" := "orgA"], "home", None, false, Some(map["lang" := "en"]))
            == Navigation("home", None, map["lang" := "en"])
  {
    DroppedStateQueryIsUpdate<int, string>(map["team" := "orgA"], "home", None, Some(map["lang" := "en"]));
  }
}
