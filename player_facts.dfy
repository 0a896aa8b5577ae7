/** What the verbs of a `ResourcePlayer` promise, proved about the functions of module `Player`. */
module PlayerFacts {
  import opened Wrappers
  import opened Values
  import opened Errors
  import opened Routing
  import opened Negotiation
  import opened Tree
  import opened Player

  /** Once the descent reached its target, the verb is the target's action on the arena with the cookies of the path cleared. */
  lemma PlayerRunAtTarget(a: Arena, cache: PathCache, id: NodeId, route: Route, verb: Verb, body: Value,
                          filters: map<string, Value>, outcome: HandlerOutcome)
    requires WellFormed(a) && id in a && verb != Put && verb != Head
    requires Descend(a, id, route.path).Reached?
    ensures var d := Descend(a, id, route.path);
            var a1 := ResetCookies(a, d.visited);
            WellFormed(a1) &&
            DescentRun(a, cache, id, route, verb, body, filters, outcome) ==
              TargetRun(a1, cache, d.target, route.(path := d.path), verb, body, filters, outcome)
  {
    var d := Descend(a, id, route.path);
    SameShapeWellFormed(a, ResetCookies(a, d.visited));
  }

  /**
   * A parameter shortfall at the target of GET, DELETE or PATCH rejects with
   * 404 before the handler runs: no cache entry, and the node keeps its data,
   * headers, received cookies and filter data.
   */
  lemma ShortfallRejects(a: Arena, cache: PathCache, t: NodeId, route: Route, verb: Verb, body: Value,
                         filters: map<string, Value>, outcome: HandlerOutcome)
    requires WellFormed(a) && t in a && (verb == Get || verb == Delete || verb == Patch)
    requires !ArityMet(a[t], route.path)
    ensures var r := TargetRun(a, cache, t, route, verb, body, filters, outcome);
            r.result == Rejected(ArityError(verb, a[t])) && r.result.failure.err.httpCode == 404 &&
            r.cache == cache &&
            r.nodes[t] == a[t].(parameters := r.nodes[t].parameters)
  {
  }

  /** Once its parameters are read, GET records the pathname as a shortcut to the target and its path. */
  lemma GetRecordsShortcut(a: Arena, cache: PathCache, t: NodeId, route: Route, body: Value,
                           filters: map<string, Value>, outcome: HandlerOutcome)
    requires WellFormed(a) && t in a && ArityMet(a[t], route.path)
    ensures TargetRun(a, cache, t, route, Get, body, filters, outcome).cache ==
              cache[route.pathname := Shortcut(t, route.path)]
  {
  }

  /** Without a handler, GET delivers the node's own data with code 200 in the negotiated format. */
  lemma DefaultGetServesData(a: Arena, cache: PathCache, t: NodeId, route: Route, body: Value,
                             filters: map<string, Value>, outcome: HandlerOutcome)
    requires WellFormed(a) && t in a
    requires ArityMet(a[t], route.path) && Get !in a[t].handlers
    ensures var n := a[t];
            TargetRun(a, cache, t, route, Get, body, filters, outcome).result ==
              DeliverReply(n.template, n.layout, n.headers, DataResponse(n.data), FormatFor(n, route.outFormat), false)
  {
  }

  /**
   * Without a handler, POST (whatever parameters it found) and PATCH (once its
   * parameters are met) replace the data by the body's entries minus
   * `resources`, and deliver that data.
   */
  lemma DefaultWriteReplacesData(a: Arena, cache: PathCache, t: NodeId, route: Route, verb: Verb, body: Value,
                                 filters: map<string, Value>, outcome: HandlerOutcome)
    requires WellFormed(a) && t in a && (verb == Post || verb == Patch)
    requires verb !in a[t].handlers && (verb == Post || ArityMet(a[t], route.path))
    ensures var n := a[t];
            var r := TargetRun(a, cache, t, route, verb, body, filters, outcome);
            r.nodes[t].data == UpdatedData(body) && r.cache == cache &&
            r.result == DeliverReply(n.template, n.layout, n.headers, DataResponse(UpdatedData(body)),
                                     FormatFor(n, route.outFormat), false)
  {
  }

  /**
   * Without a handler, DELETE (once its parameters are met) takes the node out
   * of its parent's group under its raw name: one occurrence fewer when the
   * group lists it, no change at all when no group has that name.
   */
  lemma DefaultDeleteDetaches(a: Arena, cache: PathCache, t: NodeId, route: Route, body: Value,
                              filters: map<string, Value>, outcome: HandlerOutcome)
    requires WellFormed(a) && t in a
    requires ArityMet(a[t], route.path) && Delete !in a[t].handlers && a[t].parent.Some?
    ensures var p := a[t].parent.value;
            var name := a[t].name;
            var r := TargetRun(a, cache, t, route, Delete, body, filters, outcome);
            r.nodes[p].resources == Without(a[p].resources, name, t) &&
            (name in a[p].resources && t in a[p].resources[name] ==>
               multiset(r.nodes[p].resources[name]) == multiset(a[p].resources[name]) - multiset{t}) &&
            (name !in a[p].resources ==> r.nodes[p].resources == a[p].resources)
  {
  }

  /** PUT and HEAD only clear the node's outgoing cookies and reject with "Not Implemented" (500). */
  lemma PutAndHeadReject(a: Arena, cache: PathCache, id: NodeId, route: Route, verb: Verb, body: Value,
                         filters: map<string, Value>, outcome: HandlerOutcome)
    requires WellFormed(a) && id in a && (verb == Put || verb == Head)
    ensures var r := PlayerRun(a, cache, id, route, verb, body, filters, outcome);
            r == Run(ResetCookies(a, [id]), cache, Rejected(NotImplemented())) &&
            r.result.failure.err.httpCode == 500
  {
  }

  /**
   * A missing child on the way down: GET rejects with its own message and
   * code 500, the other verbs with the `TypeError` of reading a property of
   * `undefined`; only the outgoing cookies of the nodes passed change.
   */
  lemma MissingChildRejects(a: Arena, cache: PathCache, id: NodeId, route: Route, verb: Verb, body: Value,
                            filters: map<string, Value>, outcome: HandlerOutcome)
    requires WellFormed(a) && id in a && verb != Put && verb != Head
    requires Descend(a, id, route.path).Missing?
    ensures var d := Descend(a, id, route.path);
            var r := DescentRun(a, cache, id, route, verb, body, filters, outcome);
            r.nodes == ResetCookies(a, d.visited) && r.cache == cache &&
            (verb == Get ==> r.result.Rejected? && r.result.failure.RxErr? && r.result.failure.err.httpCode == 500) &&
            (verb != Get ==> r.result == Rejected(Thrown("TypeError")))
  {
  }

  /**
   * A handler that throws: GET and DELETE reject with the thrown value itself,
   * POST and PATCH wrap it in an `RxError` with code 500.
   */
  lemma ThrowingHandler(a: Arena, cache: PathCache, t: NodeId, route: Route, verb: Verb, body: Value,
                        filters: map<string, Value>, what: string)
    requires WellFormed(a) && t in a && verb != Put && verb != Head
    requires verb in a[t].handlers && (verb == Post || ArityMet(a[t], route.path))
    ensures var r := TargetRun(a, cache, t, route, verb, body, filters, Threw(what));
            (verb == Get || verb == Delete ==> r.result == Rejected(Thrown(what))) &&
            (verb == Post || verb == Patch ==>
               r.result.Rejected? && r.result.failure.RxErr? &&
               r.result.failure.err.message == what && r.result.failure.err.httpCode == 500)
  {
  }

  /** Every node of `a` is in `b` with the same outgoing cookies. */
  ghost predicate SameCookies(a: Arena, b: Arena)
  {
    forall k :: k in a ==> k in b && b[k].cookiesData == a[k].cookiesData
  }

  lemma SameCookiesTrans(a: Arena, b: Arena, c: Arena)
    requires SameCookies(a, b) && SameCookies(b, c)
    ensures SameCookies(a, c)
  {
  }

  /** A handler's run keeps every node's outgoing cookies. */
  lemma HandlerKeepsCookies(a: Arena, cache: PathCache, t: NodeId, route: Route, verb: Verb,
                            filters: map<string, Value>, outcome: HandlerOutcome)
    requires WellFormed(a) && t in a
    ensures SameCookies(a, HandlerRun(a, cache, t, route, verb, filters, outcome).nodes)
  {
    HandlerRunUnfold(a, cache, t, route, verb, filters, outcome);
  }

  /** A default action keeps every node's outgoing cookies. */
  lemma DefaultKeepsCookies(a: Arena, cache: PathCache, t: NodeId, route: Route, verb: Verb, body: Value)
    requires WellFormed(a) && t in a
    ensures SameCookies(a, DefaultRun(a, cache, t, route, verb, body).nodes)
  {
    var n := a[t];
    var fmt := FormatFor(n, route.outFormat);
    if verb == Delete {
      DeleteKeepsCookies(a, cache, t, fmt);
    } else {
      var n2 := if verb == Get then n else n.(data := UpdatedData(body));
      var ans := Reply(n2, DataResponse(n2.data), fmt, false);
      assert DefaultRun(a, cache, t, route, verb, body).nodes == a[t := ans.node];
    }
  }

  /** The default DELETE keeps every node's outgoing cookies. */
  lemma DeleteKeepsCookies(a: Arena, cache: PathCache, t: NodeId, fmt: string)
    requires WellFormed(a) && t in a
    ensures SameCookies(a, DefaultDelete(a, cache, t, fmt).nodes)
  {
    var n := a[t];
    if n.parent.Some? {
      var p := n.parent.value;
      var a2: Arena := a[p := a[p].(resources := Without(a[p].resources, n.name, t))];
      assert SameCookies(a, a2);
      var ans := Reply(a2[t], DataResponse(a2[t].data), fmt, false);
      var a3: Arena := a2[t := ans.node];
      assert SameCookies(a2, a3);
      SameCookiesTrans(a, a2, a3);
      assert DefaultDelete(a, cache, t, fmt).nodes == a3;
    }
  }

  /** Whatever happens at the target keeps every node's outgoing cookies. */
  lemma TargetKeepsCookies(a: Arena, cache: PathCache, t: NodeId, route: Route, verb: Verb, body: Value,
                           filters: map<string, Value>, outcome: HandlerOutcome)
    requires WellFormed(a) && t in a && verb != Put && verb != Head
    ensures SameCookies(a, TargetRun(a, cache, t, route, verb, body, filters, outcome).nodes)
  {
    var a1 := a[t := ReadParams(a[t], route.path)];
    assert SameCookies(a, a1);
    if verb != Post && !ArityMet(a[t], route.path) {
      TargetRunShort(a, cache, t, route, verb, body, filters, outcome);
    } else {
      TargetRunActs(a, cache, t, route, verb, body, filters, outcome);
      var cache1 := if verb == Get then cache[route.pathname := Shortcut(t, route.path)] else cache;
      if verb in a[t].handlers {
        HandlerKeepsCookies(a1, cache1, t, route, verb, filters, outcome);
        SameCookiesTrans(a, a1, HandlerRun(a1, cache1, t, route, verb, filters, outcome).nodes);
      } else {
        DefaultKeepsCookies(a1, cache1, t, route, verb, body);
        SameCookiesTrans(a, a1, DefaultRun(a1, cache1, t, route, verb, body).nodes);
      }
    }
  }

  /**
   * Every node the descent passes, its target included, ends the verb with
   * its outgoing cookies cleared, whether the target was reached or not.
   */
  lemma DescentClearsCookies(a: Arena, cache: PathCache, id: NodeId, route: Route, verb: Verb, body: Value,
                             filters: map<string, Value>, outcome: HandlerOutcome)
    requires WellFormed(a) && id in a && verb != Put && verb != Head
    ensures var r := DescentRun(a, cache, id, route, verb, body, filters, outcome);
            forall v :: v in Descend(a, id, route.path).visited ==> r.nodes[v].cookiesData == []
  {
    var d := Descend(a, id, route.path);
    var a1 := ResetCookies(a, d.visited);
    SameShapeWellFormed(a, a1);
    var r := DescentRun(a, cache, id, route, verb, body, filters, outcome);
    if d.Reached? {
      PlayerRunAtTarget(a, cache, id, route, verb, body, filters, outcome);
      TargetKeepsCookies(a1, cache, d.target, route.(path := d.path), verb, body, filters, outcome);
    }
    assert SameCookies(a1, r.nodes);
    forall v | v in d.visited
      ensures r.nodes[v].cookiesData == []
    {
      var i :| 0 <= i < |d.visited| && d.visited[i] == v;
      assert a1[v].cookiesData == [];
    }
  }

  /**
   * A handler calling `ok()` on a resource without a view, asked for JSON:
   * the resource's data is served as JSON with code 200, its outgoing cookies,
   * and the request's own headers echoed back (the verb stored them as the
   * resource's headers before calling the handler). The data is refreshed
   * from itself except in POST, and nothing else changes.
   */
  lemma OkAnswerServesData(a: Arena, cache: PathCache, t: NodeId, route: Route, verb: Verb,
                           filters: map<string, Value>)
    requires WellFormed(a) && t in a
    requires a[t].template.None? && FormatFor(a[t], route.outFormat) == Json
    ensures var e := Entered(a[t], route, filters);
            var r := HandlerRun(a, cache, t, route, verb, filters, Answered(RespondOk(e.data, e.headers, e.cookiesData)));
            r.result == Resolved(Serialized(Json, Some(a[t].data), 200, None, Some(a[t].cookiesData), Some(route.headers))) &&
            r.nodes == a[t := e.(data := if verb == Post then a[t].data else UpdatedData(a[t].data))] &&
            r.cache == cache
  {
    var e := Entered(a[t], route, filters);
    HandlerRunUnfold(a, cache, t, route, verb, filters, Answered(RespondOk(e.data, e.headers, e.cookiesData)));
    JsonAcceptsJsonOnly();
    JsonIsChosenForJson();
    JsonSelectsNoView();
  }

  /**
   * A handler calling `redirect(where)`: whatever the view and the format
   * asked for, the reply is JSON with code 303, the location, the resource's
   * data and outgoing cookies, and no headers.
   */
  lemma RedirectAnswerIsJson303(a: Arena, cache: PathCache, t: NodeId, route: Route, verb: Verb,
                                filters: map<string, Value>, where: string)
    requires WellFormed(a) && t in a
    ensures var e := Entered(a[t], route, filters);
            var r := HandlerRun(a, cache, t, route, verb, filters, Answered(RespondRedirect(e.data, e.cookiesData, where)));
            r.result == Resolved(Serialized(Json, Some(a[t].data), 303, Some(where), Some(a[t].cookiesData), None)) &&
            r.nodes == a[t := e.(data := if verb == Post then a[t].data else UpdatedData(a[t].data))] &&
            r.cache == cache
  {
    var e := Entered(a[t], route, filters);
    var resp := RespondRedirect(e.data, e.cookiesData, where);
    HandlerRunUnfold(a, cache, t, route, verb, filters, Answered(resp));
    var n := a[t];
    var m := if verb != Post then e.(data := UpdatedData(resp.data.GetOr(Undefined))) else e;
    RedirectIsJson(m.template, m.layout, m.headers, resp, FormatFor(n, route.outFormat), verb == Get && n.outFormat.Some?);
    JsonAcceptsJsonOnly();
    JsonSelectsNoView();
  }
}
