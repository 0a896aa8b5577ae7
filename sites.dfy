/**
 * The `Site`: the root container, owner of every node of the tree, of the
 * path cache and of the request filters, and the dispatcher of requests.
 */
module Sites {
  import opened Wrappers
  import opened Values
  import opened Errors
  import opened Routing
  import opened Negotiation
  import opened Tree
  import opened Player
  import opened PlayerFacts
  import opened SiteSpec

  /**
   * A `Resource` definition as given to `add`: name, view, layout, data,
   * child definitions, URL parameter names, output format, and which verbs
   * have a user handler.
   */
  datatype ResourceDef = ResourceDef(
    name: string,
    view: Option<string>,
    layout: Option<string>,
    data: Value,
    resources: seq<ResourceDef>,
    urlParameters: Option<seq<string>>,
    outFormat: Option<string>,
    handlers: set<Verb>)

  /** What the `ResourcePlayer` constructor sets before children and data are added. */
  function NewNode(def: ResourceDef, parent: NodeId): (n: Node)
    ensures n.name == def.name && n.parent == Some(parent) && n.resources == map[]
    ensures n.template == def.view && n.layout == def.layout && n.outFormat == def.outFormat
    ensures n.paramNames == def.urlParameters.GetOr([]) && n.handlers == def.handlers
    ensures n.cookiesData == [] && n.cookies == [] && n.headers == map[] && n.parameters == map[]
  {
    Node(def.name, Some(parent), map[], Obj(map[]), map[], [], [], def.view, def.layout,
         def.urlParameters.GetOr([]), map[], def.outFormat, def.handlers, map[])
  }

  /** The loop of `_updateData`: copy every entry except `resources` into a fresh object. */
  method CopyEntries(entries: map<string, Value>) returns (fields: map<string, Value>)
    ensures fields == entries - {"resources"}
  {
    fields := map[];
    var todo := entries.Keys;
    while todo != {}
      invariant todo <= entries.Keys
      invariant fields.Keys == (entries.Keys - todo) - {"resources"}
      invariant forall k :: k in fields ==> fields[k] == entries[k]
      decreases todo
    {
      var k :| k in todo;
      if k != "resources" {
        fields := fields[k := entries[k]];
      }
      todo := todo - {k};
    }
    assert fields.Keys == entries.Keys - {"resources"};
  }

  /** The settling of `_checkFilters` on the filters' results, taken in registration order. */
  method JudgeFilters(order: seq<string>, results: seq<FilterResult>) returns (v: FilterVerdict)
    requires |order| == |results|
    ensures v == Verdict(order, results)
  {
    var failure: Option<Failure> := None;
    var stalled := false;
    var data: map<string, Value> := map[];
    var j := 0;
    while j < |results|
      invariant 0 <= j <= |results|
      invariant failure == FirstFail(results, j)
      invariant stalled <==> exists k :: 0 <= k < j && results[k].NoCallback?
      invariant data == Collected(order, results, j)
    {
      match results[j] {
        case Fail(f) =>
          if failure.None? {
            failure := Some(f);
          }
        case NoCallback =>
          stalled := true;
        case Pass(x) =>
          if Truthy(x) {
            data := data[order[j] := x];
          }
      }
      j := j + 1;
    }
    v := if failure.Some? then Blocked(failure.value) else if stalled then Stalled else Passed(data);
  }

  class Site {
    var nodes: Arena
    var nextId: NodeId
    var pathCache: PathCache
    /** The registered filters, and their names in registration order. */
    var filters: map<string, RequestFilter>
    var filterOrder: seq<string>
    var enableFilters: bool
    var allowCors: bool
    var home: string
    var errorView: Option<string>
    /** `internals.slugify`, whose code is not part of this model. */
    const slugify: string -> string

    ghost predicate Valid()
      reads this
    {
      && WellFormed(nodes)
      && (forall k :: k in nodes ==> k < nextId)
      && CacheValid(nodes, pathCache)
      && (forall name :: name in filters <==> name in filterOrder)
      && Distinct(filterOrder)
    }

    ghost function Settings(): Config
      reads this`filters, this`filterOrder, this`enableFilters, this`allowCors, this`home, this`errorView
    {
      Config(filters, filterOrder, enableFilters, allowCors, home, errorView)
    }

    /** A new site: only the root node, named "site"; home "/", no filters, no CORS, no error view. */
    constructor (slugify: string -> string)
      ensures Valid() && fresh(this)
      ensures nodes.Keys == {Root} && nodes[Root].name == "site" && nodes[Root].resources == map[]
      ensures pathCache == map[] && filters == map[] && filterOrder == []
      ensures !enableFilters && !allowCors && home == "/" && errorView == None
    {
      nodes := map[Root := Node("site", None, map[], Obj(map[]), map[], [], [], None, None, [], map[], None, {}, map[])];
      nextId := Root + 1;
      pathCache := map[];
      filters := map[];
      filterOrder := [];
      enableFilters := false;
      allowCors := false;
      home := "/";
      errorView := None;
      this.slugify := slugify;
    }

    // ------------------------------------------------------------ the tree

    /** Store `m` as node `id`; it has the groups, parent and parameter names of the node it replaces. */
    method Store(id: NodeId, m: Node)
      requires Valid() && id in nodes
      requires m.resources == nodes[id].resources && m.parent == nodes[id].parent && m.paramNames == nodes[id].paramNames
      modifies this`nodes
      ensures Valid()
      ensures nodes == old(nodes)[id := m]
    {
      SetNode(nodes, id, m);
      nodes := nodes[id := m];
      assert nodes.Keys == old(nodes).Keys;
    }

    /** A fresh node for `def` under `parent`, not yet listed in any group. */
    method Create(parent: NodeId, def: ResourceDef) returns (id: NodeId)
      requires Valid() && parent in nodes
      modifies this`nodes, this`nextId
      ensures Valid()
      ensures id == old(nextId) && id !in old(nodes) && nodes == old(nodes)[id := NewNode(def, parent)]
      ensures nextId == id + 1
    {
      id := nextId;
      AddLeafKeepsWellFormed(nodes, id, NewNode(def, parent));
      nextId := nextId + 1;
      nodes := nodes[id := NewNode(def, parent)];
    }

    /** Append `id` to the group `key` of `parent`, whose child it already claims to be. */
    method Attach(parent: NodeId, key: string, id: NodeId)
      requires Valid() && parent in nodes && id in nodes && nodes[id].parent == Some(parent)
      modifies this`nodes
      ensures Valid()
      ensures nodes == old(nodes)[parent := old(nodes)[parent].(resources := AppendChild(old(nodes)[parent].resources, key, id))]
    {
      AppendKeepsWellFormed(nodes, parent, key, id);
      nodes := nodes[parent := nodes[parent].(resources := AppendChild(nodes[parent].resources, key, id))];
      assert nodes.Keys == old(nodes).Keys;
    }

    /**
     * `add(def)` on `parent`: a new node for `def` (with its own children
     * added the same way and its data taken from `def.data`) is appended at
     * the end of the parent's group `slugify(def.name)`.
     */
    method Add(parent: NodeId, def: ResourceDef) returns (id: NodeId)
      requires Valid() && parent in nodes
      modifies this`nodes, this`nextId
      ensures Valid()
      ensures id == old(nextId) && id !in old(nodes) && id in nodes && old(nodes).Keys <= nodes.Keys
      ensures nodes[parent].resources == AppendChild(old(nodes)[parent].resources, slugify(def.name), id)
      ensures nodes[parent] == old(nodes)[parent].(resources := nodes[parent].resources)
      ensures nodes[id] == NewNode(def, parent).(resources := nodes[id].resources, data := UpdatedData(def.data))
      ensures forall k :: k in old(nodes) && k != parent ==> nodes[k] == old(nodes)[k]
      decreases def, 2
    {
      id := Build(parent, def);
      Attach(parent, slugify(def.name), id);
    }

    /** The `ResourcePlayer` constructor: a fresh node for `def` under `parent`, its children, then its data. */
    method Build(parent: NodeId, def: ResourceDef) returns (id: NodeId)
      requires Valid() && parent in nodes
      modifies this`nodes, this`nextId
      ensures Valid()
      ensures id == old(nextId) && id !in old(nodes) && id in nodes && old(nodes).Keys <= nodes.Keys
      ensures nodes[id] == NewNode(def, parent).(resources := nodes[id].resources, data := UpdatedData(def.data))
      ensures forall k :: k in old(nodes) ==> nodes[k] == old(nodes)[k]
      decreases def, 1
    {
      id := Create(parent, def);
      ghost var n1 := nodes;
      AddChildren(id, def);
      ghost var n2 := nodes;
      assert n2[id] == NewNode(def, parent).(resources := n2[id].resources);
      UpdateData(id, def.data);
      forall k | k in old(nodes)
        ensures nodes[k] == old(nodes)[k]
      {
        assert k in n1 && k != id;
        assert n2[k] == n1[k];
      }
    }

    /** The loop of the `ResourcePlayer` constructor: each child definition of `def` is added under `id`. */
    method AddChildren(id: NodeId, def: ResourceDef)
      requires Valid() && id in nodes
      modifies this`nodes, this`nextId
      ensures Valid() && old(nodes).Keys <= nodes.Keys && old(nextId) <= nextId
      ensures nodes[id] == old(nodes)[id].(resources := nodes[id].resources)
      ensures forall k :: k in old(nodes) && k != id ==> nodes[k] == old(nodes)[k]
      decreases def, 0
    {
      var i := 0;
      while i < |def.resources|
        invariant 0 <= i <= |def.resources|
        invariant Valid() && old(nodes).Keys <= nodes.Keys && old(nextId) <= nextId
        invariant nodes[id] == old(nodes)[id].(resources := nodes[id].resources)
        invariant forall k :: k in old(nodes) && k != id ==> nodes[k] == old(nodes)[k]
      {
        assert def.resources[i] in def.resources;
        var child := Add(id, def.resources[i]);
        i := i + 1;
      }
    }

    /**
     * `remove(child)` on `parent`: the child is looked up in the group named
     * by its raw `name`; the result says whether it was there.
     */
    method Remove(parent: NodeId, child: NodeId) returns (removed: bool)
      requires Valid() && parent in nodes && child in nodes
      modifies this`nodes
      ensures Valid()
      ensures removed <==> old(nodes)[child].name in old(nodes)[parent].resources &&
                           child in old(nodes)[parent].resources[old(nodes)[child].name]
      ensures nodes == old(nodes)[parent := old(nodes)[parent].(resources :=
                         Without(old(nodes)[parent].resources, old(nodes)[child].name, child))]
      ensures !removed ==> nodes == old(nodes)
    {
      var name := nodes[child].name;
      if name !in nodes[parent].resources {
        return false;
      }
      var group := nodes[parent].resources[name];
      var idx := IndexOf(group, child);
      if idx < 0 {
        assert nodes[parent].(resources := nodes[parent].resources) == nodes[parent];
        return false;
      }
      WithoutKeepsWellFormed(nodes, parent, name, child);
      nodes := nodes[parent := nodes[parent].(resources := nodes[parent].resources[name := SpliceOut(group, idx)])];
      removed := true;
    }

    /** `setCookie(cookie)`: one more outgoing cookie on node `id`, after the others. */
    method SetCookie(id: NodeId, cookie: string)
      requires Valid() && id in nodes
      modifies this`nodes
      ensures Valid()
      ensures nodes == old(nodes)[id := old(nodes)[id].(cookiesData := old(nodes)[id].cookiesData + [cookie])]
    {
      Store(id, nodes[id].(cookiesData := nodes[id].cookiesData + [cookie]));
    }

    /** `resetOutgoingCookies()` on node `id`. */
    method ResetOutgoingCookies(id: NodeId)
      requires Valid() && id in nodes
      modifies this`nodes
      ensures Valid()
      ensures nodes == old(nodes)[id := old(nodes)[id].(cookiesData := [])]
    {
      Store(id, nodes[id].(cookiesData := []));
    }

    /** The `headers` setter: each given header is set, the others are kept. */
    method SetHeaders(id: NodeId, h: map<string, string>)
      requires Valid() && id in nodes
      modifies this`nodes
      ensures Valid()
      ensures nodes == old(nodes)[id := old(nodes)[id].(headers := old(nodes)[id].headers + h)]
      ensures forall k :: k in h ==> nodes[id].headers[k] == h[k]
      ensures forall k :: k in old(nodes)[id].headers && k !in h ==> nodes[id].headers[k] == old(nodes)[id].headers[k]
    {
      Store(id, nodes[id].(headers := nodes[id].headers + h));
    }

    /** `setOutputFormat(fmt)` and the `outFormat` setter: the format the node answers in from now on. */
    method SetOutputFormat(id: NodeId, fmt: string)
      requires Valid() && id in nodes
      modifies this`nodes
      ensures Valid()
      ensures nodes == old(nodes)[id := old(nodes)[id].(outFormat := Some(fmt))]
    {
      Store(id, nodes[id].(outFormat := Some(fmt)));
    }

    /** `childrenCount()`: the sizes of all the groups of node `id`, added up. */
    method ChildrenCount(id: NodeId) returns (count: nat)
      requires Valid() && id in nodes
      ensures count == TotalChildren(nodes[id].resources)
    {
      var all := nodes[id].resources;
      var rest := all;
      count := 0;
      while |rest| > 0
        invariant count + TotalChildren(rest) == TotalChildren(all)
        decreases |rest|
      {
        var k :| k in rest;
        TotalChildrenFrom(rest, k);
        count := count + |rest[k]|;
        rest := rest - {k};
      }
    }

    /** `_readParameters(path)` on node `id`: binds each name whose segment is present, and counts them. */
    method ReadParameters(id: NodeId, path: seq<string>) returns (count: nat)
      requires Valid() && id in nodes
      modifies this`nodes
      ensures Valid()
      ensures nodes == old(nodes)[id := ReadParams(old(nodes)[id], path)]
      ensures count == BoundCount(old(nodes)[id].paramNames, path, |old(nodes)[id].paramNames|)
    {
      var names := nodes[id].paramNames;
      ghost var n0 := nodes[id];
      count := 0;
      var i := 0;
      while i < |names|
        invariant 0 <= i <= |names|
        invariant Valid() && id in nodes
        invariant nodes == old(nodes)[id := n0.(parameters := Bound(n0.parameters, names, path, i))]
        invariant count == BoundCount(names, path, i)
      {
        if i + 1 < |path| && path[i + 1] != "" {
          var m := nodes[id];
          Store(id, m.(parameters := m.parameters[names[i] := path[i + 1]]));
          StoredTwice(old(nodes), id, m, nodes[id]);
          count := count + 1;
        }
        i := i + 1;
      }
    }

    /** `_updateData(newData)` on node `id`: the data becomes the new value's entries, `resources` excepted. */
    method UpdateData(id: NodeId, newData: Value)
      requires Valid() && id in nodes
      modifies this`nodes
      ensures Valid()
      ensures nodes == old(nodes)[id := old(nodes)[id].(data := UpdatedData(newData))]
    {
      var fields := CopyEntries(Entries(newData));
      Store(id, nodes[id].(data := Obj(fields)));
    }

    /** `setPathCache(path, shortcut)`. */
    method SetPathCache(pathname: string, shortcut: Shortcut)
      requires Valid() && shortcut.resource in nodes
      modifies this`pathCache
      ensures Valid()
      ensures pathCache == old(pathCache)[pathname := shortcut]
    {
      pathCache := pathCache[pathname := shortcut];
    }

    // ------------------------------------------------------------ the verbs

    /**
     * The descent shared by the verbs of `ResourcePlayer`: clear the node's
     * outgoing cookies, then step to the child while more segments remain
     * than the node's URL parameters take.
     */
    method DescendTo(id: NodeId, path: seq<string>) returns (d: Descent)
      requires Valid() && id in nodes
      modifies this`nodes
      ensures Valid()
      ensures d == Descend(old(nodes), id, path)
      ensures nodes == ResetCookies(old(nodes), d.visited)
    {
      ghost var a := nodes;
      var cur := id;
      var p := path;
      var visited: seq<NodeId> := [];
      ResetCookiesNone(a);
      while true
        invariant Valid() && cur in a && a.Keys == nodes.Keys
        invariant nodes == ResetCookies(a, visited)
        invariant Descend(a, id, path) == Glued(visited, Descend(a, cur, p))
        decreases |p|
      {
        ResetCookiesSnoc(a, visited, cur);
        ResetOutgoingCookies(cur);
        ghost var before := visited;
        visited := visited + [cur];
        StepDirectionReadsGroups(nodes[cur], a[cur], p);
        if |p| > 1 + |nodes[cur].paramNames| {
          var s := StepDirection(nodes[cur], p);
          if s.resource.None? {
            d := Missing(cur, p, visited);
            return;
          }
          DescendOneStep(a, cur, p);
          GluedTwice(before, [cur], Descend(a, s.resource.value, s.path));
          cur := s.resource.value;
          p := s.path;
        } else {
          d := Reached(cur, p, visited);
          return;
        }
      }
    }

    /** `_deliverReply` on node `t`: the decision, and the data copy of the view branch. */
    method DeliverAt(t: NodeId, resp: ResourceResponse, outFormat: string, deliverAnyFormat: bool) returns (r: VerbResult)
      requires Valid() && t in nodes
      modifies this`nodes
      ensures Valid() && t in nodes
      ensures nodes == old(nodes)[t := nodes[t]]
      ensures Answer(nodes[t], r) == Reply(old(nodes)[t], resp, outFormat, deliverAnyFormat)
    {
      var n := nodes[t];
      r := DeliverReply(n.template, n.layout, n.headers, resp, outFormat, deliverAnyFormat);
      if UsesTemplate(n.template, resp, outFormat) {
        Store(t, n.(data := resp.data.GetOr(Undefined)));
      }
    }

    /** The user handler of `verb` at `t` and what its outcome leads to. */
    method RunUserHandler(t: NodeId, route: Route, verb: Verb, filterData: map<string, Value>, outcome: HandlerOutcome)
      returns (r: VerbResult)
      requires Valid() && t in nodes
      modifies this`nodes
      ensures Valid()
      ensures Run(nodes, pathCache, r) == HandlerRun(old(nodes), old(pathCache), t, route, verb, filterData, outcome)
    {
      HandlerRunUnfold(nodes, pathCache, t, route, verb, filterData, outcome);
      if outcome.Answered? {
        r := HandlerAnswered(t, route, verb, filterData, outcome);
      } else {
        r := HandlerUnanswered(t, route, verb, filterData, outcome);
      }
    }

    /** A handler that answered: the request is recorded, the data updated and the reply delivered. */
    method HandlerAnswered(t: NodeId, route: Route, verb: Verb, filterData: map<string, Value>, outcome: HandlerOutcome)
      returns (r: VerbResult)
      requires Valid() && t in nodes && outcome.Answered?
      modifies this`nodes
      ensures Valid()
      ensures var n := old(nodes)[t];
              var ans := RunHandler(Entered(n, route, filterData), outcome, FormatFor(n, route.outFormat),
                                    verb == Get && n.outFormat.Some?, verb != Post, verb == Post || verb == Patch);
              nodes == old(nodes)[t := ans.node] && r == ans.result
    {
      ghost var a := nodes;
      var n := nodes[t];
      var e := Entered(n, route, filterData);
      var fmt, any, update := FormatFor(n, route.outFormat), verb == Get && n.outFormat.Some?, verb != Post;
      ghost var ans := RunHandler(e, outcome, fmt, any, update, verb == Post || verb == Patch);
      Store(t, e);
      r := AnswerAt(t, outcome.resp, fmt, any, update);
      StoredTwice(a, t, e, nodes[t]);
      assert nodes[t] == ans.node && r == ans.result;
    }

    /** A handler that failed, threw or never answered: only the request is recorded. */
    method HandlerUnanswered(t: NodeId, route: Route, verb: Verb, filterData: map<string, Value>, outcome: HandlerOutcome)
      returns (r: VerbResult)
      requires Valid() && t in nodes && !outcome.Answered?
      modifies this`nodes
      ensures Valid()
      ensures var n := old(nodes)[t];
              var ans := RunHandler(Entered(n, route, filterData), outcome, FormatFor(n, route.outFormat),
                                    verb == Get && n.outFormat.Some?, verb != Post, verb == Post || verb == Patch);
              nodes == old(nodes)[t := ans.node] && r == ans.result
    {
      Store(t, Entered(nodes[t], route, filterData));
      match outcome
      case Failed(e) =>
        r := Rejected(RxErr(e));
      case Threw(w) =>
        r := Rejected(if verb == Post || verb == Patch then RxErr(NewRxError(w, None, None, None)) else Thrown(w));
      case Silent =>
        r := Pending;
    }

    /** A handler's response at `t`: the data update (all verbs but POST), then `_deliverReply`. */
    method AnswerAt(t: NodeId, resp: ResourceResponse, outFormat: string, deliverAnyFormat: bool, update: bool)
      returns (r: VerbResult)
      requires Valid() && t in nodes
      modifies this`nodes
      ensures Valid() && t in nodes
      ensures nodes == old(nodes)[t := nodes[t]]
      ensures var m := if update then old(nodes)[t].(data := UpdatedData(resp.data.GetOr(Undefined))) else old(nodes)[t];
              Answer(nodes[t], r) == Reply(m, resp, outFormat, deliverAnyFormat)
    {
      ghost var a := nodes;
      if update {
        UpdateData(t, resp.data.GetOr(Undefined));
      }
      ghost var b := nodes;
      r := DeliverAt(t, resp, outFormat, deliverAnyFormat);
      if update {
        StoredTwice(a, t, b[t], nodes[t]);
      }
    }

    /** The default DELETE at `t`: `parent.remove(self)`, then the data is delivered. */
    method DeleteDefault(t: NodeId, outFormat: string) returns (r: VerbResult)
      requires Valid() && t in nodes
      modifies this`nodes
      ensures Valid()
      ensures Run(nodes, pathCache, r) == DefaultDelete(old(nodes), old(pathCache), t, outFormat)
    {
      var n := nodes[t];
      if n.parent.None? {
        r := Rejected(Thrown("TypeError"));
        return;
      }
      var removed := Remove(n.parent.value, t);
      r := DeliverAt(t, DataResponse(nodes[t].data), outFormat, false);
    }

    /** The default action of `verb` at `t`. */
    method DefaultAt(t: NodeId, route: Route, verb: Verb, body: Value) returns (r: VerbResult)
      requires Valid() && t in nodes
      modifies this`nodes
      ensures Valid()
      ensures Run(nodes, pathCache, r) == DefaultRun(old(nodes), old(pathCache), t, route, verb, body)
    {
      var fmt := FormatFor(nodes[t], route.outFormat);
      if verb == Delete {
        r := DeleteDefault(t, fmt);
      } else {
        r := DataDefault(t, verb, body, fmt);
      }
    }

    /** The default GET, POST and PATCH: the latter two replace the data by the body's entries; the data is delivered. */
    method DataDefault(t: NodeId, verb: Verb, body: Value, outFormat: string) returns (r: VerbResult)
      requires Valid() && t in nodes && verb != Delete
      modifies this`nodes
      ensures Valid()
      ensures var n := old(nodes)[t];
              var n2 := if verb == Get then n else n.(data := UpdatedData(body));
              var ans := Reply(n2, DataResponse(n2.data), outFormat, false);
              nodes == old(nodes)[t := ans.node] && r == ans.result
    {
      if verb != Get {
        UpdateData(t, body);
      }
      r := DeliverAt(t, DataResponse(nodes[t].data), outFormat, false);
    }

    /** A verb at the node `t` it reached, with `route.path` left there. */
    method AtTarget(t: NodeId, route: Route, verb: Verb, body: Value, filterData: map<string, Value>,
                    outcome: HandlerOutcome) returns (r: VerbResult)
      requires Valid() && t in nodes && verb != Put && verb != Head
      modifies this`nodes, this`pathCache
      ensures Valid()
      ensures Run(nodes, pathCache, r) == TargetRun(old(nodes), old(pathCache), t, route, verb, body, filterData, outcome)
    {
      var n := nodes[t];
      ghost var a, cache := nodes, pathCache;
      var count := BindParameters(t, route.path);
      if verb != Post && count < |n.paramNames| {
        TargetRunShort(a, cache, t, route, verb, body, filterData, outcome);
        r := Rejected(ArityError(verb, n));
        return;
      }
      TargetRunActs(a, cache, t, route, verb, body, filterData, outcome);
      r := ActAt(t, route, verb, body, filterData, outcome);
    }

    /** `_readParameters`, which the verbs call only on a node that declares URL parameters. */
    method BindParameters(t: NodeId, path: seq<string>) returns (count: nat)
      requires Valid() && t in nodes
      modifies this`nodes
      ensures Valid()
      ensures nodes == old(nodes)[t := ReadParams(old(nodes)[t], path)]
      ensures count < |old(nodes)[t].paramNames| <==> !ArityMet(old(nodes)[t], path)
    {
      var n := nodes[t];
      if |n.paramNames| > 0 {
        count := ReadParameters(t, path);
      } else {
        count := 0;
        assert ReadParams(n, path) == n;
        assert nodes == nodes[t := n];
      }
    }

    /**
     * A verb at `t` once its parameters are read: GET records the path-cache
     * entry, then the user handler runs or the default action does.
     */
    method ActAt(t: NodeId, route: Route, verb: Verb, body: Value, filterData: map<string, Value>,
                 outcome: HandlerOutcome) returns (r: VerbResult)
      requires Valid() && t in nodes
      modifies this`nodes, this`pathCache
      ensures Valid()
      ensures var cache1 := if verb == Get then old(pathCache)[route.pathname := Shortcut(t, route.path)] else old(pathCache);
              Run(nodes, pathCache, r) ==
                if verb in old(nodes)[t].handlers then HandlerRun(old(nodes), cache1, t, route, verb, filterData, outcome)
                else DefaultRun(old(nodes), cache1, t, route, verb, body)
    {
      if verb == Get {
        SetPathCache(route.pathname, Shortcut(t, route.path));
      }
      if verb in nodes[t].handlers {
        r := RunUserHandler(t, route, verb, filterData, outcome);
      } else {
        r := DefaultAt(t, route, verb, body);
      }
    }

    /**
     * `ResourcePlayer.get/delete/post/patch/put/head` entered at `id`: PUT and
     * HEAD clear the outgoing cookies and reject; the others descend to their
     * target and act there.
     */
    method Play(id: NodeId, route: Route, verb: Verb, body: Value, filterData: map<string, Value>,
                outcome: HandlerOutcome) returns (r: VerbResult)
      requires Valid() && id in nodes
      modifies this`nodes, this`pathCache
      ensures Valid()
      ensures Run(nodes, pathCache, r) == PlayerRun(old(nodes), old(pathCache), id, route, verb, body, filterData, outcome)
    {
      if verb == Put || verb == Head {
        PutAndHeadReject(nodes, pathCache, id, route, verb, body, filterData, outcome);
        r := Unimplemented(id);
      } else {
        PlayerRunDescends(nodes, pathCache, id, route, verb, body, filterData, outcome);
        r := DescendAndAct(id, route, verb, body, filterData, outcome);
      }
    }

    /** PUT and HEAD: the outgoing cookies of `id` are cleared and the verb is rejected as not implemented. */
    method Unimplemented(id: NodeId) returns (r: VerbResult)
      requires Valid() && id in nodes
      modifies this`nodes
      ensures Valid()
      ensures nodes == ResetCookies(old(nodes), [id]) && r == Rejected(NotImplemented())
    {
      ResetCookiesNone(nodes);
      ResetCookiesSnoc(nodes, [], id);
      ResetOutgoingCookies(id);
      r := Rejected(NotImplemented());
    }

    /** GET, DELETE, POST or PATCH entered at `id`: the descent, then the target or the missing child. */
    method DescendAndAct(id: NodeId, route: Route, verb: Verb, body: Value, filterData: map<string, Value>,
                         outcome: HandlerOutcome) returns (r: VerbResult)
      requires Valid() && id in nodes && verb != Put && verb != Head
      modifies this`nodes, this`pathCache
      ensures Valid()
      ensures Run(nodes, pathCache, r) == DescentRun(old(nodes), old(pathCache), id, route, verb, body, filterData, outcome)
    {
      ghost var a, cache := nodes, pathCache;
      var d := DescendTo(id, route.path);
      if d.Missing? {
        r := Rejected(if verb == Get then NoChildError(nodes[d.at], route.(path := d.path)) else Thrown("TypeError"));
      } else {
        PlayerRunAtTarget(a, cache, id, route, verb, body, filterData, outcome);
        r := AtTarget(d.target, route.(path := d.path), verb, body, filterData, outcome);
      }
    }

    // ------------------------------------------------------------ the site

    /**
     * `getResource(pathname)` on node `from`, `path` being the parsed
     * pathname: the direction (through the path cache at the site), then one
     * step per iteration while more than one segment remains.
     */
    method GetResource(from: NodeId, pathname: string, path: seq<string>) returns (l: Lookup)
      requires Valid() && from in nodes
      ensures l == ResourceLookup(nodes, pathCache, from, pathname, path)
    {
      var d := if from == Root then RootDirection(nodes[Root], pathCache, pathname, path) else GetDirection(nodes[from], path);
      RootDirectionInArena(nodes, pathCache, pathname, path);
      StepStaysInArena(nodes, from, path);
      if d.None? {
        return NotFound;
      }
      var res: Option<NodeId> := Some(d.value.resource);
      var p := d.value.path;
      while |p| > 1
        invariant res.Some? ==> res.value in nodes
        invariant Walk(nodes, res, p) == ResourceLookup(nodes, pathCache, from, pathname, path)
        decreases |p|
      {
        if res.None? {
          return Crashed;
        }
        var s := StepDirection(nodes[res.value], p);
        StepStaysInArena(nodes, res.value, p);
        res := s.resource;
        p := s.path;
      }
      l := if res.Some? then Found(res.value) else NotFound;
    }

    /** `Site.head/get/post/patch/put/delete`. */
    method Dispatch(route: Route, verb: Verb, body: Value, filterData: map<string, Value>, outcome: HandlerOutcome)
      returns (r: VerbResult)
      requires Valid()
      modifies this`nodes, this`pathCache
      ensures Valid()
      ensures Run(nodes, pathCache, r) == RootRun(old(nodes), old(pathCache), home, route, verb, body, filterData, outcome)
    {
      if !Forwards(route, verb) {
        r := RootReply(home, route, verb);
      } else {
        r := Forward(route, verb, body, filterData, outcome);
      }
    }

    /** A root verb with more than one segment: the direction, then the resource's verb, or "not found". */
    method Forward(route: Route, verb: Verb, body: Value, filterData: map<string, Value>, outcome: HandlerOutcome)
      returns (r: VerbResult)
      requires Valid() && Forwards(route, verb)
      modifies this`nodes, this`pathCache
      ensures Valid()
      ensures Run(nodes, pathCache, r) == RootRun(old(nodes), old(pathCache), home, route, verb, body, filterData, outcome)
    {
      var d := RootDirection(nodes[Root], pathCache, route.pathname, route.path);
      if d.None? {
        RootRunWithoutDirection(nodes, pathCache, home, route, verb, body, filterData, outcome);
        r := Rejected(NoDirection(verb, route.pathname));
      } else {
        RootRunAlongDirection(nodes, pathCache, home, route, verb, body, filterData, outcome);
        r := Play(d.value.resource, route.(path := d.value.path), verb, body, filterData, outcome);
      }
    }

    /** `addRequestFilter(name, f)`: a new name goes to the end of the order, a known one keeps its place. */
    method AddRequestFilter(name: string, f: RequestFilter)
      requires Valid()
      modifies this`filters, this`filterOrder
      ensures Valid()
      ensures filters == old(filters)[name := f]
      ensures filterOrder == if name in old(filters) then old(filterOrder) else old(filterOrder) + [name]
    {
      if name !in filters {
        filterOrder := filterOrder + [name];
      }
      filters := filters[name := f];
    }

    /** `deleteRequestFilter(name)`: true, and the filter gone, exactly when it was registered. */
    method DeleteRequestFilter(name: string) returns (deleted: bool)
      requires Valid()
      modifies this`filters, this`filterOrder
      ensures Valid()
      ensures deleted <==> name in old(filters)
      ensures filters == old(filters) - {name} && filterOrder == Unlisted(old(filterOrder), name)
    {
      deleted := name in filters;
      if deleted {
        filters := filters - {name};
      }
      UnlistedDistinct(filterOrder, name);
      filterOrder := Unlisted(filterOrder, name);
    }

    /** `deleteAllRequestFilters()`. */
    method DeleteAllRequestFilters() returns (done: bool)
      requires Valid()
      modifies this`filters, this`filterOrder
      ensures Valid() && done
      ensures filters == map[] && filterOrder == []
    {
      filters := map[];
      filterOrder := [];
      done := true;
    }

    /** `setHome(path)`. */
    method SetHome(path: string)
      requires Valid()
      modifies this`home
      ensures Valid() && home == path
    {
      home := path;
    }

    /** `setErrorView(name)`. */
    method SetErrorView(name: string)
      requires Valid()
      modifies this`errorView
      ensures Valid() && errorView == Some(name)
    {
      errorView := Some(name);
    }

    /** `allowCORS(flag)`. */
    method AllowCors(flag: bool)
      requires Valid()
      modifies this`allowCors
      ensures Valid() && allowCors == flag
    {
      allowCors := flag;
    }

    /** `_checkFilters`: call every filter in registration order, then settle on their results. */
    method CheckFilters(route: Route, body: Value) returns (v: FilterVerdict)
      requires Valid()
      ensures v == FiltersSpec(Settings(), route, body)
    {
      if !enableFilters || |filters| == 0 {
        return Passed(map[]);
      }
      var results: seq<FilterResult> := [];
      var i := 0;
      while i < |filterOrder|
        invariant 0 <= i <= |filterOrder| && |results| == i
        invariant forall j :: 0 <= j < i ==> results[j] == filters[filterOrder[j]](route, body)
      {
        results := results + [filters[filterOrder[i]](route, body)];
        i := i + 1;
      }
      assert results == FilterResults(filters, filterOrder, route, body);
      v := JudgeFilters(filterOrder, results);
    }

    /**
     * The request handler of `serve` for one parsed request: `httpMethod` as
     * received, `body` the outcome of parsing the request data.
     */
    method Handle(route: Route, httpMethod: string, body: Result<Value, Failure>, outcome: HandlerOutcome)
      returns (reply: ServerReply)
      requires Valid()
      modifies this`nodes, this`pathCache
      ensures Valid()
      ensures Exchange(nodes, pathCache, reply) ==
                HandleSpec(old(nodes), old(pathCache), old(Settings()), route, httpMethod, body, outcome)
    {
      Store(Root, nodes[Root].(cookies := route.cookies));
      var acc := Accept(httpMethod, allowCors);
      if acc.Supported? {
        reply := Serve(route, acc.verb, body, outcome);
      } else {
        reply := Unaccepted(acc, route.outFormat, errorView);
      }
    }

    /** An accepted request: body, filters, then the site's verb. */
    method Serve(route: Route, verb: Verb, body: Result<Value, Failure>, outcome: HandlerOutcome)
      returns (reply: ServerReply)
      requires Valid()
      modifies this`nodes, this`pathCache
      ensures Valid()
      ensures Exchange(nodes, pathCache, reply) ==
                ServeSpec(old(nodes), old(pathCache), old(Settings()), route, verb, body, outcome)
    {
      if body.Failure? {
        reply := ErrorServed(OutputError(body.error, route.outFormat, errorView));
        return;
      }
      var verdict := CheckFilters(route, body.value);
      reply := Respond(route, verb, body.value, verdict, outcome);
    }

    /** A parsed request after the filters' verdict: reported, never answered, or run. */
    method Respond(route: Route, verb: Verb, body: Value, verdict: FilterVerdict, outcome: HandlerOutcome)
      returns (reply: ServerReply)
      requires Valid()
      modifies this`nodes, this`pathCache
      ensures Valid()
      ensures Exchange(nodes, pathCache, reply) ==
                Filtered(old(nodes), old(pathCache), Settings(), route, verb, body, verdict, outcome)
    {
      if verdict.Blocked? {
        reply := ErrorServed(OutputError(verdict.failure, route.outFormat, errorView));
      } else if verdict.Stalled? {
        reply := NoReply;
      } else {
        reply := RunVerb(route, verb, body, verdict.data, outcome);
      }
    }

    /** The site's verb with the filter data, and how its result is served. */
    method RunVerb(route: Route, verb: Verb, body: Value, filterData: map<string, Value>, outcome: HandlerOutcome)
      returns (reply: ServerReply)
      requires Valid()
      modifies this`nodes, this`pathCache
      ensures Valid()
      ensures var run := RootRun(old(nodes), old(pathCache), home, route, verb, body, filterData, outcome);
              nodes == run.nodes && pathCache == run.cache &&
              reply == Settle(run.result, allowCors, errorView, route.outFormat)
    {
      var r := Dispatch(route, verb, body, filterData, outcome);
      reply := Settle(r, allowCors, errorView, route.outFormat);
    }
  }
}
