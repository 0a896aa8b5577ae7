/**
 * What a `ResourcePlayer` verb does, as functions of the arena: the descent
 * through the tree, the URL-parameter check, the user handler or the default
 * action, and the reply. The `Site` class in sites.dfy performs these steps in
 * place and is proved against the functions here.
 */
module Player {
  import opened Wrappers
  import opened Values
  import opened Errors
  import opened Routing
  import opened Negotiation
  import opened Tree

  /** A path-cache entry: the resource that answered a pathname and the path left at it. */
  datatype Shortcut = Shortcut(resource: NodeId, path: seq<string>)

  type PathCache = map<string, Shortcut>

  ghost predicate CacheValid(a: Arena, cache: PathCache)
  {
    forall p :: p in cache ==> cache[p].resource in a
  }

  /** The state after a verb, and its settled (or pending) promise. */
  datatype Run = Run(nodes: Arena, cache: PathCache, result: VerbResult)

  /** One node after it answered, and what it answered. */
  datatype Answer = Answer(node: Node, result: VerbResult)

  /** `self._outFormat ? self._outFormat : route.outFormat`. */
  function FormatFor(n: Node, requested: string): (f: string)
    ensures n.outFormat.Some? && n.outFormat.value != "" ==> f == n.outFormat.value
    ensures n.outFormat.None? || n.outFormat.value == "" ==> f == requested
  {
    if n.outFormat.Some? && n.outFormat.value != "" then n.outFormat.value else requested
  }

  /** The envelope of the default verbs: the given data with code 200, nothing else. */
  function DataResponse(data: Value): (r: ResourceResponse)
    ensures r.result == "ok" && r.data == Some(data) && r.httpCode == Some(200)
    ensures r.location == None && r.cookiesData == None && r.headers == None
  {
    ResourceResponse("ok", Some(data), Some(200), None, None, None)
  }

  /**
   * `_deliverReply` on node `n`: the negotiation decision, and in the view
   * branch the response data copied into `data` (`undefined` when absent).
   */
  function Reply(n: Node, resp: ResourceResponse, outFormat: string, deliverAnyFormat: bool): (ans: Answer)
    ensures ans.result == DeliverReply(n.template, n.layout, n.headers, resp, outFormat, deliverAnyFormat)
    ensures ans.node == n.(data := ans.node.data)
    ensures ans.node.data == if UsesTemplate(n.template, resp, outFormat) then resp.data.GetOr(Undefined) else n.data
  {
    var r := DeliverReply(n.template, n.layout, n.headers, resp, outFormat, deliverAnyFormat);
    if UsesTemplate(n.template, resp, outFormat) then Answer(n.(data := resp.data.GetOr(Undefined)), r)
    else Answer(n, r)
  }

  /** What a verb records before calling the user handler: filter data, request headers and cookies. */
  function Entered(n: Node, route: Route, filters: map<string, Value>): (m: Node)
    ensures m.filtersData == filters && m.headers == route.headers && m.cookies == route.cookies
    ensures m == n.(filtersData := m.filtersData, headers := m.headers, cookies := m.cookies)
  {
    n.(filtersData := filters, headers := route.headers, cookies := route.cookies)
  }

  /** `_readParameters(path)` applied to the node's parameter map; nothing else changes. */
  function ReadParams(n: Node, path: seq<string>): (m: Node)
    ensures m == n.(parameters := m.parameters)
  {
    n.(parameters := Bound(n.parameters, n.paramNames, path, |n.paramNames|))
  }

  /**
   * After `_readParameters`, a name whose segment is present (and that no
   * later name repeats) is bound to that segment, and keys that are not
   * parameter names are left as they were.
   */
  lemma ReadParamsBinds(n: Node, path: seq<string>)
    ensures var m := ReadParams(n, path);
            (forall i :: 0 <= i < |n.paramNames| && SegmentPresent(path, i) &&
                         (forall j :: i < j < |n.paramNames| ==> n.paramNames[j] != n.paramNames[i]) ==>
               n.paramNames[i] in m.parameters && m.parameters[n.paramNames[i]] == path[i + 1]) &&
            (forall k :: k !in n.paramNames ==> (k in m.parameters <==> k in n.parameters) &&
                                                (k in n.parameters ==> m.parameters[k] == n.parameters[k]))
  {
    var m := ReadParams(n, path);
    assert n.paramNames[..|n.paramNames|] == n.paramNames;
    forall k | k !in n.paramNames
      ensures (k in m.parameters <==> k in n.parameters) && (k in n.parameters ==> m.parameters[k] == n.parameters[k])
    {
      BoundKeepsOthers(n.parameters, n.paramNames, path, |n.paramNames|, k);
    }
    forall i | 0 <= i < |n.paramNames| && SegmentPresent(path, i) &&
               (forall j :: i < j < |n.paramNames| ==> n.paramNames[j] != n.paramNames[i])
      ensures n.paramNames[i] in m.parameters && m.parameters[n.paramNames[i]] == path[i + 1]
    {
      LastBindingWins(n.parameters, n.paramNames, path, |n.paramNames|, i);
    }
  }

  /** The last name bound under a key decides its value. */
  lemma {:induction false} LastBindingWins(params: map<string, string>, names: seq<string>, path: seq<string>, n: nat, i: nat)
    requires i < n <= |names| && SegmentPresent(path, i)
    requires forall j :: i < j < n ==> names[j] != names[i]
    ensures names[i] in Bound(params, names, path, n) && Bound(params, names, path, n)[names[i]] == path[i + 1]
  {
    if i < n - 1 {
      LastBindingWins(params, names, path, n - 1, i);
    }
  }

  /** The arity check of GET, DELETE and PATCH: every parameter name was read. */
  predicate ArityMet(n: Node, path: seq<string>)
  {
    BoundCount(n.paramNames, path, |n.paramNames|) == |n.paramNames|
  }

  function VerbLabel(v: Verb): string
  {
    match v
    case Head => "HEAD"
    case Get => "GET"
    case Post => "POST"
    case Put => "PUT"
    case Patch => "PATCH"
    case Delete => "DELETE"
  }

  /** The rejection of a parameter shortfall: code 404, named after the verb and the resource. */
  function ArityError(v: Verb, n: Node): (f: Failure)
    ensures f.RxErr? && f.err.httpCode == 404 && f.err.name == Some(VerbLabel(v) + " " + n.name)
  {
    RxErr(NewRxError("Not enough paramters available in the URI ", Some(VerbLabel(v) + " " + n.name), Some(404), None))
  }

  /** The rejection of `put` and `head`: `new RxError('Not Implemented')`, hence code 500. */
  function NotImplemented(): (f: Failure)
    ensures f.RxErr? && f.err.message == "Not Implemented" && f.err.httpCode == 500 && f.err.name == None
  {
    RxErr(NewRxError("Not Implemented", None, None, None))
  }

  /**
   * The user handler's outcome at node `n`. `ok()`/`redirect()` refresh the
   * data from the response when `update` holds and deliver the reply;
   * `fail(err)` rejects with `err`; a synchronous throw rejects with the thrown
   * value, wrapped in an `RxError` when `wrap` holds; a handler that never
   * answers leaves the promise pending.
   */
  function RunHandler(n: Node, outcome: HandlerOutcome, outFormat: string, deliverAnyFormat: bool,
                      update: bool, wrap: bool): (ans: Answer)
    ensures ans.node == n.(data := ans.node.data)
    ensures outcome.Silent? ==> ans == Answer(n, Pending)
    ensures outcome.Failed? ==> ans == Answer(n, Rejected(RxErr(outcome.err)))
    ensures outcome.Threw? && !wrap ==> ans == Answer(n, Rejected(Thrown(outcome.what)))
    ensures outcome.Threw? && wrap ==>
              ans.node == n && ans.result.Rejected? && ans.result.failure.RxErr? &&
              ans.result.failure.err.message == outcome.what && ans.result.failure.err.httpCode == 500
    ensures outcome.Answered? ==>
              var m := if update then n.(data := UpdatedData(outcome.resp.data.GetOr(Undefined))) else n;
              ans == Reply(m, outcome.resp, outFormat, deliverAnyFormat)
  {
    match outcome
    case Answered(resp) =>
      var m := if update then n.(data := UpdatedData(resp.data.GetOr(Undefined))) else n;
      Reply(m, resp, outFormat, deliverAnyFormat)
    case Failed(e) => Answer(n, Rejected(RxErr(e)))
    case Threw(w) => Answer(n, Rejected(if wrap then RxErr(NewRxError(w, None, None, None)) else Thrown(w)))
    case Silent => Answer(n, Pending)
  }

  /** `JSON.stringify` of a list of segments (no escaping). */
  function JsonStrings(ss: seq<string>): string
  {
    "[" + Quoted(ss) + "]"
  }

  function Quoted(ss: seq<string>): string
  {
    if |ss| == 0 then ""
    else if |ss| == 1 then "\"" + ss[0] + "\""
    else "\"" + ss[0] + "\"," + Quoted(ss[1..])
  }

  /**
   * GET finding no child to descend into: one message when the node has no
   * group at all, another when the groups lack the name; no code, hence 500.
   */
  function NoChildError(n: Node, route: Route): (f: Failure)
    ensures f.RxErr? && f.err.httpCode == 500 && f.err.name == Some(route.pathname)
  {
    if |n.resources| == 0 then
      PromiseError("[error: no child] This resource \"" + n.name +
                   "\" does not have any child resource to navigate to. Path= \"" + JsonStrings(route.path) + "\"",
                   route.pathname, None)
    else
      PromiseError("[error: no such child] ResourcePlayer GET could not find a Resource for \"" +
                   JsonStrings(route.path) + "\"", route.pathname, None)
  }

  /** The default DELETE: `parent.remove(self)`, then the data is delivered. */
  ghost function DefaultDelete(a: Arena, cache: PathCache, t: NodeId, fmt: string): (r: Run)
    requires WellFormed(a) && t in a
    ensures WellFormed(r.nodes) && r.nodes.Keys == a.Keys && r.cache == cache
  {
    var n := a[t];
    if n.parent.None? then Run(a, cache, Rejected(Thrown("TypeError")))
    else
      var p := n.parent.value;
      var a2 := a[p := a[p].(resources := Without(a[p].resources, n.name, t))];
      WithoutKeepsWellFormed(a, p, n.name, t);
      var ans := Reply(a2[t], DataResponse(a2[t].data), fmt, false);
      SetNode(a2, t, ans.node);
      Run(a2[t := ans.node], cache, ans.result)
  }

  /** Replacing one node by one of the same shape keeps the arena well formed and the other nodes' cookies. */
  lemma SetNode(a: Arena, t: NodeId, m: Node)
    requires WellFormed(a) && t in a
    requires m.resources == a[t].resources && m.parent == a[t].parent && m.paramNames == a[t].paramNames
    ensures WellFormed(a[t := m]) && a[t := m].Keys == a.Keys
  {
    SetNodeSameShape(a, t, m);
    SameShapeWellFormed(a, a[t := m]);
  }

  /** The user handler of `verb` at `t`, entered with the request's filter data, headers and cookies. */
  ghost function HandlerRun(a: Arena, cache: PathCache, t: NodeId, route: Route, verb: Verb,
                            filters: map<string, Value>, outcome: HandlerOutcome): (r: Run)
    requires WellFormed(a) && t in a
    ensures WellFormed(r.nodes) && r.nodes.Keys == a.Keys && r.cache == cache
  {
    var n := a[t];
    var ans := RunHandler(Entered(n, route, filters), outcome, FormatFor(n, route.outFormat),
                          verb == Get && n.outFormat.Some?, verb != Post, verb == Post || verb == Patch);
    SetNode(a, t, ans.node);
    Run(a[t := ans.node], cache, ans.result)
  }

  /** `HandlerRun` unfolded: the node becomes the handler's answer node. */
  lemma HandlerRunUnfold(a: Arena, cache: PathCache, t: NodeId, route: Route, verb: Verb,
                         filters: map<string, Value>, outcome: HandlerOutcome)
    requires WellFormed(a) && t in a
    ensures var n := a[t];
            var ans := RunHandler(Entered(n, route, filters), outcome, FormatFor(n, route.outFormat),
                                  verb == Get && n.outFormat.Some?, verb != Post, verb == Post || verb == Patch);
            HandlerRun(a, cache, t, route, verb, filters, outcome) == Run(a[t := ans.node], cache, ans.result)
  {
  }

  /**
   * The default action of `verb` at `t`: GET delivers the data, POST and
   * PATCH first replace it by the body's entries, DELETE detaches the node.
   */
  ghost function DefaultRun(a: Arena, cache: PathCache, t: NodeId, route: Route, verb: Verb, body: Value): (r: Run)
    requires WellFormed(a) && t in a
    ensures WellFormed(r.nodes) && r.nodes.Keys == a.Keys && r.cache == cache
  {
    var n := a[t];
    var fmt := FormatFor(n, route.outFormat);
    if verb == Delete then DefaultDelete(a, cache, t, fmt)
    else
      var n2 := if verb == Get then n else n.(data := UpdatedData(body));
      var ans := Reply(n2, DataResponse(n2.data), fmt, false);
      SetNode(a, t, ans.node);
      Run(a[t := ans.node], cache, ans.result)
  }

  /**
   * A verb at the node `t` it reached with `route.path` left: read the URL
   * parameters (GET, DELETE and PATCH reject a shortfall with 404, POST goes
   * on), GET records the path-cache entry, then the user handler runs or the
   * default action does.
   */
  ghost function TargetRun(a: Arena, cache: PathCache, t: NodeId, route: Route, verb: Verb, body: Value,
                           filters: map<string, Value>, outcome: HandlerOutcome): (r: Run)
    requires WellFormed(a) && t in a && verb != Put && verb != Head
    ensures WellFormed(r.nodes) && r.nodes.Keys == a.Keys
    ensures CacheValid(a, cache) ==> CacheValid(r.nodes, r.cache)
    ensures verb != Get ==> r.cache == cache
  {
    var n := a[t];
    var a1 := a[t := ReadParams(n, route.path)];
    SetNode(a, t, ReadParams(n, route.path));
    if verb != Post && !ArityMet(n, route.path) then
      Run(a1, cache, Rejected(ArityError(verb, n)))
    else
      var cache1 := if verb == Get then cache[route.pathname := Shortcut(t, route.path)] else cache;
      if verb in n.handlers then HandlerRun(a1, cache1, t, route, verb, filters, outcome)
      else DefaultRun(a1, cache1, t, route, verb, body)
  }

  /** `TargetRun` unfolded when the parameters fall short for a verb other than POST. */
  lemma TargetRunShort(a: Arena, cache: PathCache, t: NodeId, route: Route, verb: Verb, body: Value,
                       filters: map<string, Value>, outcome: HandlerOutcome)
    requires WellFormed(a) && t in a && verb != Put && verb != Head
    requires verb != Post && !ArityMet(a[t], route.path)
    ensures TargetRun(a, cache, t, route, verb, body, filters, outcome) ==
            Run(a[t := ReadParams(a[t], route.path)], cache, Rejected(ArityError(verb, a[t])))
  {
  }

  /** `TargetRun` unfolded when the verb goes on to the handler or the default action. */
  lemma TargetRunActs(a: Arena, cache: PathCache, t: NodeId, route: Route, verb: Verb, body: Value,
                      filters: map<string, Value>, outcome: HandlerOutcome)
    requires WellFormed(a) && t in a && verb != Put && verb != Head
    requires verb == Post || ArityMet(a[t], route.path)
    ensures var a1 := a[t := ReadParams(a[t], route.path)];
            var cache1 := if verb == Get then cache[route.pathname := Shortcut(t, route.path)] else cache;
            WellFormed(a1) && t in a1 &&
            TargetRun(a, cache, t, route, verb, body, filters, outcome) ==
              if verb in a[t].handlers then HandlerRun(a1, cache1, t, route, verb, filters, outcome)
              else DefaultRun(a1, cache1, t, route, verb, body)
  {
    SetNode(a, t, ReadParams(a[t], route.path));
  }

  /**
   * GET, DELETE, POST or PATCH entered at `id`: descend, clearing the
   * outgoing cookies of every node passed; at a missing child GET rejects
   * with its own messages while DELETE, POST and PATCH read `name` of
   * `undefined`, a `TypeError`.
   */
  ghost function DescentRun(a: Arena, cache: PathCache, id: NodeId, route: Route, verb: Verb, body: Value,
                            filters: map<string, Value>, outcome: HandlerOutcome): (r: Run)
    requires WellFormed(a) && id in a && verb != Put && verb != Head
    ensures WellFormed(r.nodes) && r.nodes.Keys == a.Keys
    ensures CacheValid(a, cache) ==> CacheValid(r.nodes, r.cache)
    ensures verb != Get ==> r.cache == cache
  {
    var d := Descend(a, id, route.path);
    var a1 := ResetCookies(a, d.visited);
    SameShapeWellFormed(a, a1);
    match d
    case Missing(m, p, _) =>
      Run(a1, cache, Rejected(if verb == Get then NoChildError(a1[m], route.(path := p)) else Thrown("TypeError")))
    case Reached(t, p, _) =>
      TargetRun(a1, cache, t, route.(path := p), verb, body, filters, outcome)
  }

  /**
   * `ResourcePlayer.get/delete/post/patch/put/head` entered at `id` with
   * `route.path` left. PUT and HEAD clear the node's outgoing cookies and
   * reject; the other verbs descend.
   */
  ghost function PlayerRun(a: Arena, cache: PathCache, id: NodeId, route: Route, verb: Verb, body: Value,
                           filters: map<string, Value>, outcome: HandlerOutcome): (r: Run)
    requires WellFormed(a) && id in a
    ensures WellFormed(r.nodes) && r.nodes.Keys == a.Keys
    ensures CacheValid(a, cache) ==> CacheValid(r.nodes, r.cache)
    ensures verb != Get ==> r.cache == cache
  {
    if verb == Put || verb == Head then
      var a1 := ResetCookies(a, [id]);
      SameShapeWellFormed(a, a1);
      Run(a1, cache, Rejected(NotImplemented()))
    else DescentRun(a, cache, id, route, verb, body, filters, outcome)
  }

  /** Every verb other than PUT and HEAD descends from the node it entered. */
  lemma PlayerRunDescends(a: Arena, cache: PathCache, id: NodeId, route: Route, verb: Verb, body: Value,
                          filters: map<string, Value>, outcome: HandlerOutcome)
    requires WellFormed(a) && id in a && verb != Put && verb != Head
    ensures PlayerRun(a, cache, id, route, verb, body, filters, outcome) == DescentRun(a, cache, id, route, verb, body, filters, outcome)
  {
  }
}
