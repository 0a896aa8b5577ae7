/** Properties of the site-level functions: the path cache, lookups, filters and the request cycle. */
module SiteFacts {
  import opened Wrappers
  import opened Values
  import opened Errors
  import opened Routing
  import opened Negotiation
  import opened Tree
  import opened Player
  import opened SiteSpec

  /**
   * A pathname with a cache entry goes straight to the cached resource with
   * the cached path, whatever the tree now looks like.
   */
  lemma CachedPathSkipsTree(a: Arena, cache: PathCache, home: string, route: Route, verb: Verb, body: Value,
                            filters: map<string, Value>, outcome: HandlerOutcome)
    requires WellFormed(a) && CacheValid(a, cache)
    requires Forwards(route, verb) && route.pathname in cache
    ensures var e := cache[route.pathname];
            RootRun(a, cache, home, route, verb, body, filters, outcome) ==
              PlayerRun(a, cache, e.resource, route.(path := e.path), verb, body, filters, outcome)
  {
  }

  /**
   * Without a cache entry, a forwarded verb whose first step selects nothing
   * rejects with its "not found" error and changes nothing.
   */
  lemma UnknownChildNotFound(a: Arena, cache: PathCache, home: string, route: Route, verb: Verb, body: Value,
                             filters: map<string, Value>, outcome: HandlerOutcome)
    requires WellFormed(a) && CacheValid(a, cache)
    requires Forwards(route, verb) && route.pathname !in cache
    requires StepDirection(a[Root], route.path).resource.None?
    ensures RootRun(a, cache, home, route, verb, body, filters, outcome) ==
              Run(a, cache, Rejected(NoDirection(verb, route.pathname)))
  {
  }

  /**
   * `getResource` on the site, for a pathname that is not cached, only finds
   * nodes that hang in the tree.
   */
  lemma UncachedLookupFindsAttached(a: Arena, cache: PathCache, pathname: string, path: seq<string>, n: NodeId)
    requires WellFormed(a) && CacheValid(a, cache) && pathname !in cache
    requires ResourceLookup(a, cache, Root, pathname, path) == Found(n)
    ensures Attached(a, n)
  {
    var s := StepDirection(a[Root], path);
    StepStaysInArena(a, Root, path);
    var c := s.resource.value;
    if |s.path| <= 1 {
      var name := StepThrough(path, 1)[0];
      var idx :| 0 <= idx < |a[Root].resources[name]| && a[Root].resources[name][idx] == c;
      assert a[Root].resources[name][idx] == n;
    } else {
      WalkFindsAttached(a, c, s.path, n);
    }
  }

  /**
   * The filters block a request exactly when filtering is on, some filter is
   * registered and one of them fails.
   */
  lemma BlockedIffSomeFilterFails(cfg: Config, route: Route, body: Value)
    requires forall i :: 0 <= i < |cfg.filterOrder| ==> cfg.filterOrder[i] in cfg.filters
    ensures FiltersSpec(cfg, route, body).Blocked? <==>
              cfg.enableFilters && |cfg.filters| > 0 &&
              exists i :: 0 <= i < |cfg.filterOrder| && cfg.filters[cfg.filterOrder[i]](route, body).Fail?
  {
    var rs := FilterResults(cfg.filters, cfg.filterOrder, route, body);
    if exists i :: 0 <= i < |cfg.filterOrder| && cfg.filters[cfg.filterOrder[i]](route, body).Fail? {
      var i :| 0 <= i < |cfg.filterOrder| && cfg.filters[cfg.filterOrder[i]](route, body).Fail?;
      assert rs[i].Fail?;
    }
  }

  /**
   * The data of passed filters: every entry belongs to a registered filter
   * that passed that very data, and it is truthy; a filter that passed truthy
   * data has an entry.
   */
  lemma PassedDataIsTruthy(cfg: Config, route: Route, body: Value, k: string)
    requires forall i :: 0 <= i < |cfg.filterOrder| ==> cfg.filterOrder[i] in cfg.filters
    requires Distinct(cfg.filterOrder)
    requires FiltersSpec(cfg, route, body).Passed?
    ensures var m := FiltersSpec(cfg, route, body).data;
            k in m <==> cfg.enableFilters && k in cfg.filterOrder && k in cfg.filters &&
                        cfg.filters[k](route, body).Pass? && Truthy(cfg.filters[k](route, body).data)
    ensures var m := FiltersSpec(cfg, route, body).data;
            k in m ==> m[k] == cfg.filters[k](route, body).data
  {
    if cfg.enableFilters && |cfg.filters| > 0 {
      var rs := FilterResults(cfg.filters, cfg.filterOrder, route, body);
      CollectedHolds(cfg.filterOrder, rs, |rs|, k);
      var m := Collected(cfg.filterOrder, rs, |rs|);
      if k in cfg.filterOrder && cfg.filters[k](route, body).Pass? && Truthy(cfg.filters[k](route, body).data) {
        var i :| 0 <= i < |cfg.filterOrder| && cfg.filterOrder[i] == k;
        assert rs[i] == cfg.filters[k](route, body);
      }
    }
  }

  /** A method the site has no verb for, other than a permitted preflight, is answered 403 and nothing runs. */
  lemma RefusedMethodIs403(a: Arena, cache: PathCache, cfg: Config, route: Route, httpMethod: string,
                           body: Result<Value, Failure>, outcome: HandlerOutcome)
    requires WellFormed(a) && CacheValid(a, cache)
    requires forall i :: 0 <= i < |cfg.filterOrder| ==> cfg.filterOrder[i] in cfg.filters
    requires MethodVerb(Lower(httpMethod)).None? && !(Lower(httpMethod) == "options" && cfg.allowCors)
    ensures var x := HandleSpec(a, cache, cfg, route, httpMethod, body, outcome);
            x.cache == cache && x.nodes == a[Root := a[Root].(cookies := route.cookies)] &&
            x.reply.ErrorServed? && x.reply.page.httpCode == 403
  {
  }

  /**
   * With filtering off, a supported method with a parsed body runs the root
   * verb with empty filter data; a resolved reply is served with the CORS
   * origin header alone when CORS is allowed, and with its own headers otherwise.
   */
  lemma UnfilteredRequestRuns(a: Arena, cache: PathCache, cfg: Config, route: Route, httpMethod: string,
                              v: Value, outcome: HandlerOutcome)
    requires WellFormed(a) && CacheValid(a, cache)
    requires forall i :: 0 <= i < |cfg.filterOrder| ==> cfg.filterOrder[i] in cfg.filters
    requires !cfg.enableFilters && MethodVerb(Lower(httpMethod)).Some?
    ensures var a0 := a[Root := a[Root].(cookies := route.cookies)];
            var verb := MethodVerb(Lower(httpMethod)).value;
            WellFormed(a0) && CacheValid(a0, cache) &&
            var run := RootRun(a0, cache, cfg.home, route, verb, v, map[], outcome);
            var x := HandleSpec(a, cache, cfg, route, httpMethod, Success(v), outcome);
            x.nodes == run.nodes && x.cache == run.cache &&
            (run.result.Resolved? ==>
               x.reply.Served? && x.reply.delivery == run.result.delivery &&
               (cfg.allowCors ==> WrittenHeaders(x.reply) == Some(CorsOrigin)) &&
               (!cfg.allowCors ==> x.reply.additional == VerbHeaders))
  {
    SetNode(a, Root, a[Root].(cookies := route.cookies));
  }

  /**
   * A serialized reply is written with the headers of the handler's response
   * when CORS is off, and with the origin header alone, those headers dropped,
   * when CORS is on.
   */
  lemma CorsReplacesReplyHeaders(r: VerbResult, errorView: Option<string>, outFormat: string)
    requires r.Resolved? && r.delivery.Serialized?
    ensures WrittenHeaders(Settle(r, false, errorView, outFormat)) == Some(r.delivery.headers.GetOr(map[]))
    ensures WrittenHeaders(Settle(r, true, errorView, outFormat)) == Some(CorsOrigin)
  {
  }
}
