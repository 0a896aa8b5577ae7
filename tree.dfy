/**
 * The resource tree: `Container` nodes kept in an arena indexed by `NodeId`,
 * their child groups, and the rules that walk a path down the tree
 * (`getChild`, `_getStepDirection`, `_getDirection`, `getResource`).
 */
module Tree {
  import opened Wrappers
  import opened Values
  import opened Numbers
  import opened Routing

  type NodeId = nat

  /** The site itself is node 0. */
  const Root: NodeId := 0

  datatype Verb = Head | Get | Post | Put | Patch | Delete

  /**
   * One `Container`/`ResourcePlayer`: its raw name, its parent, its child
   * groups (type name to ordered children), its data, outgoing headers and
   * cookies, received cookies, and the `ResourcePlayer` settings: view,
   * layout, URL parameter names and values, output format, the verbs that have
   * a user handler, and the data the filters produced.
   */
  datatype Node = Node(
    name: string,
    parent: Option<NodeId>,
    resources: map<string, seq<NodeId>>,
    data: Value,
    headers: map<string, string>,
    cookiesData: seq<string>,
    cookies: seq<string>,
    template: Option<string>,
    layout: Option<string>,
    paramNames: seq<string>,
    parameters: map<string, string>,
    outFormat: Option<string>,
    handlers: set<Verb>,
    filtersData: map<string, Value>)

  type Arena = map<NodeId, Node>

  /**
   * The arena holds the root, which has no parent, every parent is in the
   * arena, and every child listed in a group is in the arena and points back
   * to the node that lists it. A removed node stays in the arena (it may still
   * be reachable through the path cache) but is no longer listed.
   */
  ghost predicate WellFormed(a: Arena)
  {
    && Root in a
    && a[Root].parent == None
    && (forall k :: k in a && a[k].parent.Some? ==> a[k].parent.value in a)
    && forall p, k, i :: p in a && k in a[p].resources && 0 <= i < |a[p].resources[k]| ==>
         a[p].resources[k][i] in a && a[a[p].resources[k][i]].parent == Some(p)
  }

  /** `n` is listed in some group of some node of the arena. */
  ghost predicate Attached(a: Arena, n: NodeId)
  {
    exists p, k, i :: p in a && k in a[p].resources && 0 <= i < |a[p].resources[k]| && a[p].resources[k][i] == n
  }

  // ---------------------------------------------------------------- lookups

  /** `getChild(name, idx)`: the idx-th child of that type; nothing when the index is negative or too large. */
  function GetChild(n: Node, name: string, idx: int): (r: Option<NodeId>)
    ensures r.Some? <==> name in n.resources && 0 <= idx < |n.resources[name]|
    ensures r.Some? ==> r.value == n.resources[name][idx]
  {
    if name in n.resources && |n.resources[name]| > idx then
      if idx >= 0 then Some(n.resources[name][idx]) else None
    else None
  }

  /** `getFirstMatching(typeName)`: the first child of that type, if the group has one. */
  function GetFirstMatching(n: Node, typeName: string): (r: Option<NodeId>)
    ensures r == GetChild(n, typeName, 0)
  {
    if typeName !in n.resources then None
    else if |n.resources[typeName]| > 0 then Some(n.resources[typeName][0])
    else None
  }

  /** `childTypeCount(typeName)`: the size of that group, 0 when there is none. */
  function ChildTypeCount(n: Node, typeName: string): (c: nat)
    ensures typeName in n.resources ==> c == |n.resources[typeName]|
    ensures typeName !in n.resources ==> c == 0
    ensures forall i: int :: GetChild(n, typeName, i).Some? <==> 0 <= i < c
  {
    if typeName in n.resources then |n.resources[typeName]| else 0
  }

  /** The number of children over all groups (what `childrenCount` adds up). */
  ghost function TotalChildren(res: map<string, seq<NodeId>>): nat
    decreases |res|
  {
    if |res| == 0 then 0
    else
      var k :| k in res;
      |res[k]| + TotalChildren(res - {k})
  }

  /** The total can be taken starting from any group. */
  lemma {:induction false} TotalChildrenFrom(res: map<string, seq<NodeId>>, k: string)
    requires k in res
    ensures TotalChildren(res) == |res[k]| + TotalChildren(res - {k})
    decreases |res|
  {
    var j :| j in res && TotalChildren(res) == |res[j]| + TotalChildren(res - {j});
    if j != k {
      assert (res - {j}) - {k} == (res - {k}) - {j};
      TotalChildrenFrom(res - {j}, k);
      TotalChildrenFrom(res - {k}, j);
    }
  }

  // ------------------------------------------------------ adding and removing

  /** The groups after appending `id` to the group `key`, created when absent. */
  function AppendChild(res: map<string, seq<NodeId>>, key: string, id: NodeId): (r: map<string, seq<NodeId>>)
    ensures key in r && r[key] == (if key in res then res[key] else []) + [id]
    ensures r.Keys == res.Keys + {key}
    ensures forall k :: k in res && k != key ==> r[k] == res[k]
  {
    if key in res then res[key := res[key] + [id]] else res[key := [id]]
  }

  /** Appending a node that names `p` as its parent to a group of `p` keeps the arena well formed. */
  lemma AppendKeepsWellFormed(a: Arena, p: NodeId, key: string, id: NodeId)
    requires WellFormed(a) && p in a && id in a && a[id].parent == Some(p)
    ensures WellFormed(a[p := a[p].(resources := AppendChild(a[p].resources, key, id))])
  {
    var b := a[p := a[p].(resources := AppendChild(a[p].resources, key, id))];
    forall q, k, i | q in b && k in b[q].resources && 0 <= i < |b[q].resources[k]|
      ensures b[q].resources[k][i] in b && b[b[q].resources[k][i]].parent == Some(q)
    {
      if q == p && k == key && i < |b[q].resources[k]| - 1 {
        assert b[q].resources[k][i] == a[p].resources[key][i];
      }
    }
  }

  /** `_.indexOf(s, x)`: the first position of `x`, or -1. */
  function IndexOf(s: seq<NodeId>, x: NodeId): (i: int)
    ensures -1 <= i < |s|
    ensures i == -1 <==> x !in s
    ensures i >= 0 ==> s[i] == x && x !in s[..i]
  {
    if |s| == 0 then -1
    else if s[0] == x then 0
    else
      var j := IndexOf(s[1..], x);
      assert j >= 0 ==> s[1..][..j] == s[1..j + 1];
      if j < 0 then -1 else j + 1
  }

  /** `s.splice(i, 1)`: `s` without its element at `i`, the others in order. */
  function SpliceOut(s: seq<NodeId>, i: nat): (r: seq<NodeId>)
    requires i < |s|
    ensures |r| == |s| - 1
    ensures forall j :: 0 <= j < i ==> r[j] == s[j]
    ensures forall j :: i <= j < |r| ==> r[j] == s[j + 1]
    ensures multiset(r) == multiset(s) - multiset{s[i]}
  {
    assert s == s[..i] + [s[i]] + s[i + 1..];
    s[..i] + s[i + 1..]
  }

  /**
   * `remove(child)` on the groups of a node: the group is looked up under the
   * child's raw `name`; when it lists the child, its first occurrence is
   * spliced out and the other members keep their order.
   */
  function Without(res: map<string, seq<NodeId>>, name: string, child: NodeId): (r: map<string, seq<NodeId>>)
    ensures r.Keys == res.Keys
    ensures forall k :: k in res && k != name ==> r[k] == res[k]
    ensures name !in res || child !in res[name] ==> r == res
    ensures name in res && child in res[name] ==>
              |r[name]| == |res[name]| - 1 &&
              multiset(r[name]) == multiset(res[name]) - multiset{child} &&
              exists i :: 0 <= i < |res[name]| && res[name][i] == child && child !in res[name][..i] &&
                          r[name] == res[name][..i] + res[name][i + 1..]
  {
    if name !in res then res
    else
      var i := IndexOf(res[name], child);
      if i < 0 then res
      else
        var g := SpliceOut(res[name], i);
        assert g == res[name][..i] + res[name][i + 1..];
        res[name := g]
  }

  /** Removing a child from a node's groups keeps the arena well formed. */
  lemma WithoutKeepsWellFormed(a: Arena, p: NodeId, name: string, child: NodeId)
    requires WellFormed(a) && p in a
    ensures WellFormed(a[p := a[p].(resources := Without(a[p].resources, name, child))])
  {
    var b := a[p := a[p].(resources := Without(a[p].resources, name, child))];
    forall q, k, i | q in b && k in b[q].resources && 0 <= i < |b[q].resources[k]|
      ensures b[q].resources[k][i] in b && b[b[q].resources[k][i]].parent == Some(q)
    {
      if q == p && k == name && child in a[p].resources[name] {
        var j :| 0 <= j < |a[p].resources[name]| && a[p].resources[name][j] == child &&
                 b[p].resources[name] == a[p].resources[name][..j] + a[p].resources[name][j + 1..];
        if i < j {
          assert b[q].resources[k][i] == a[p].resources[name][i];
        } else {
          assert b[q].resources[k][i] == a[p].resources[name][i + 1];
        }
      }
    }
  }

  // --------------------------------------------------------- path resolution

  /** A resolution step: the child it selected, if any, and the path left after it. */
  datatype Step = Step(resource: Option<NodeId>, path: seq<string>)

  /** A successful resolution: the selected node and the path left at it. */
  datatype Direction = Direction(resource: NodeId, path: seq<string>)

  /**
   * `_getStepDirection`: consume the segment naming a child type; when that
   * group has several members and the next segment parses as an integer,
   * consume it too and use it as the index, else use index 0.
   */
  function StepDirection(n: Node, path: seq<string>): (s: Step)
    ensures |path| > 0 ==> |s.path| < |path|
  {
    var p1 := StepThrough(path, 1);
    match NextStep(p1)
    case None => Step(None, p1)
    case Some(name) =>
      if name !in n.resources then Step(None, p1)
      else if |n.resources[name]| > 1 && |p1| > 1 then
        match ParseInt(p1[1])
        case None => Step(GetChild(n, name, 0), p1)
        case Some(idx) => Step(GetChild(n, name, idx), StepThrough(p1, 1))
      else Step(GetChild(n, name, 0), p1)
  }

  /** A step reads only the groups of the node. */
  lemma StepDirectionReadsGroups(n: Node, m: Node, path: seq<string>)
    requires n.resources == m.resources
    ensures StepDirection(n, path) == StepDirection(m, path)
  {
  }

  /** Exactly one segment is consumed for the type name when no index is read. */
  lemma StepWithoutIndex(n: Node, path: seq<string>)
    requires |path| >= 2 && path[1] in n.resources
    requires |n.resources[path[1]]| <= 1 || |path| < 3 || ParseInt(path[2]).None?
    ensures StepDirection(n, path) == Step(GetChild(n, path[1], 0), path[1..])
  {
  }

  /**
   * With several children of one type, an integer segment after the type name
   * is consumed and used as the index; an index outside the group, negative
   * ones included, selects nothing (there is no fallback to the first child).
   */
  lemma StepWithIndex(n: Node, path: seq<string>, idx: int)
    requires |path| >= 3 && path[1] in n.resources && |n.resources[path[1]]| > 1
    requires ParseInt(path[2]) == Some(idx)
    ensures var s := StepDirection(n, path);
            s.path == path[2..] &&
            (0 <= idx < |n.resources[path[1]]| ==> s.resource == Some(n.resources[path[1]][idx])) &&
            (idx < 0 || idx >= |n.resources[path[1]]| ==> s.resource == None)
  {
  }

  /** An unknown type name selects nothing. */
  lemma StepUnknownName(n: Node, path: seq<string>)
    requires |path| >= 2 && path[1] !in n.resources
    ensures StepDirection(n, path) == Step(None, path[1..])
  {
  }

  /** `Container._getDirection`: the step, when it selected a child. */
  function GetDirection(n: Node, path: seq<string>): (d: Option<Direction>)
    ensures d.Some? <==> StepDirection(n, path).resource.Some?
    ensures d.Some? ==> d.value == Direction(StepDirection(n, path).resource.value, StepDirection(n, path).path)
  {
    var s := StepDirection(n, path);
    if s.resource.Some? then Some(Direction(s.resource.value, s.path)) else None
  }

  /** What `getResource` ends with: a node, `undefined`, or a `TypeError`. */
  datatype Lookup = Found(node: NodeId) | NotFound | Crashed

  /**
   * The loop of `getResource` from `res` with `path` left: step while more
   * than one segment remains. A step that selects nothing while segments
   * remain makes the next iteration call a method on `undefined`.
   */
  ghost function Walk(a: Arena, res: Option<NodeId>, path: seq<string>): Lookup
    requires WellFormed(a) && (res.Some? ==> res.value in a)
    decreases |path|
  {
    if |path| <= 1 then (if res.Some? then Found(res.value) else NotFound)
    else if res.None? then Crashed
    else
      var s := StepDirection(a[res.value], path);
      StepStaysInArena(a, res.value, path);
      Walk(a, s.resource, s.path)
  }

  lemma StepStaysInArena(a: Arena, id: NodeId, path: seq<string>)
    requires WellFormed(a) && id in a
    ensures var s := StepDirection(a[id], path);
            s.resource.Some? ==> s.resource.value in a && a[s.resource.value].parent == Some(id)
  {
  }

  /**
   * The walk is all or nothing, and what it finds after at least one step is
   * a node attached to the tree.
   */
  lemma {:induction false} WalkFindsAttached(a: Arena, start: NodeId, path: seq<string>, n: NodeId)
    requires WellFormed(a) && start in a
    requires |path| > 1 && Walk(a, Some(start), path) == Found(n)
    ensures Attached(a, n)
    decreases |path|
  {
    var s := StepDirection(a[start], path);
    StepStaysInArena(a, start, path);
    var c := s.resource.value;
    if |s.path| <= 1 {
      var p1 := StepThrough(path, 1);
      var name := p1[0];
      var idx :| 0 <= idx < |a[start].resources[name]| && a[start].resources[name][idx] == c;
      assert a[start].resources[name][idx] == n;
    } else {
      WalkFindsAttached(a, c, s.path, n);
    }
  }

  // ------------------------------------------------------------ verb descent

  /**
   * How a verb travels down from `id`: while more segments remain than the
   * node's URL parameters need (`path.length > 1 + paramCount`), take one step.
   * `visited` lists the nodes whose verb method ran, in order.
   */
  datatype Descent =
    | Reached(target: NodeId, path: seq<string>, visited: seq<NodeId>)
    | Missing(at: NodeId, path: seq<string>, visited: seq<NodeId>)

  ghost predicate Descends(a: Arena, n: NodeId, path: seq<string>)
    requires n in a
  {
    |path| > 1 + |a[n].paramNames|
  }

  ghost function Descend(a: Arena, id: NodeId, path: seq<string>): (d: Descent)
    requires WellFormed(a) && id in a
    ensures |d.visited| > 0 && d.visited[0] == id
    ensures forall i :: 0 <= i < |d.visited| ==> d.visited[i] in a
    ensures d.Reached? ==> d.target in a && d.visited[|d.visited| - 1] == d.target && !Descends(a, d.target, d.path)
    ensures d.Missing? ==> d.at in a && d.visited[|d.visited| - 1] == d.at && Descends(a, d.at, d.path) &&
                           StepDirection(a[d.at], d.path).resource.None?
    decreases |path|
  {
    if Descends(a, id, path) then
      var s := StepDirection(a[id], path);
      StepStaysInArena(a, id, path);
      if s.resource.None? then Missing(id, path, [id])
      else Glued([id], Descend(a, s.resource.value, s.path))
    else Reached(id, path, [id])
  }

  /** `d` with `prefix` in front of its visited nodes. */
  function Glued(prefix: seq<NodeId>, d: Descent): (e: Descent)
    ensures e.visited == prefix + d.visited
    ensures e.(visited := d.visited) == d
  {
    d.(visited := prefix + d.visited)
  }

  /** One step of the descent: the rest is the descent from the child. */
  lemma DescendOneStep(a: Arena, id: NodeId, path: seq<string>)
    requires WellFormed(a) && id in a && Descends(a, id, path)
    requires StepDirection(a[id], path).resource.Some?
    ensures var s := StepDirection(a[id], path);
            s.resource.value in a &&
            Descend(a, id, path) == Glued([id], Descend(a, s.resource.value, s.path))
  {
    StepStaysInArena(a, id, path);
  }

  /** Adding a childless node whose parent is in the arena keeps it well-formed. */
  lemma AddLeafKeepsWellFormed(a: Arena, id: NodeId, m: Node)
    requires WellFormed(a) && id !in a && m.parent.Some? && m.parent.value in a && m.resources == map[]
    ensures WellFormed(a[id := m]) && a[id := m].Keys == a.Keys + {id}
  {
  }

  /** Storing a node twice under the same id keeps only the second. */
  lemma StoredTwice(a: Arena, id: NodeId, m1: Node, m2: Node)
    ensures a[id := m1][id := m2] == a[id := m2]
  {
  }

  lemma GluedTwice(p: seq<NodeId>, q: seq<NodeId>, d: Descent)
    ensures Glued(p, Glued(q, d)) == Glued(p + q, d)
  {
    assert p + (q + d.visited) == (p + q) + d.visited;
  }

  /** Two arenas with the same nodes, groups, parents and parameter names. */
  ghost predicate SameShape(a: Arena, b: Arena)
  {
    a.Keys == b.Keys &&
    forall k :: k in a ==> b[k].resources == a[k].resources && b[k].parent == a[k].parent &&
                           b[k].paramNames == a[k].paramNames
  }

  lemma SameShapeWellFormed(a: Arena, b: Arena)
    requires WellFormed(a) && SameShape(a, b)
    ensures WellFormed(b)
  {
  }

  /** Replacing a node by one with the same groups, parent and parameter names keeps the shape. */
  lemma SetNodeSameShape(a: Arena, t: NodeId, m: Node)
    requires t in a && m.resources == a[t].resources && m.parent == a[t].parent && m.paramNames == a[t].paramNames
    ensures SameShape(a, a[t := m])
  {
  }

  /** The descent only reads the shape of the tree. */
  lemma {:induction false} DescendSameShape(a: Arena, b: Arena, id: NodeId, path: seq<string>)
    requires WellFormed(a) && SameShape(a, b) && id in a
    ensures WellFormed(b) && Descend(b, id, path) == Descend(a, id, path)
    decreases |path|
  {
    SameShapeWellFormed(a, b);
    assert StepDirection(b[id], path) == StepDirection(a[id], path);
    if Descends(a, id, path) {
      var s := StepDirection(a[id], path);
      StepStaysInArena(a, id, path);
      if s.resource.Some? {
        DescendSameShape(a, b, s.resource.value, s.path);
      }
    }
  }

  /** Every node in `visited` with its outgoing cookies emptied (`resetOutgoingCookies`). */
  function ResetCookies(a: Arena, visited: seq<NodeId>): (b: Arena)
    ensures b.Keys == a.Keys
    ensures forall k :: k in a ==> b[k] == a[k].(cookiesData := b[k].cookiesData)
    ensures forall k :: k in a ==> b[k].cookiesData == if k in visited then [] else a[k].cookiesData
    ensures SameShape(a, b)
  {
    map k | k in a :: if k in visited then a[k].(cookiesData := []) else a[k]
  }

  /** Resetting no node changes nothing. */
  lemma ResetCookiesNone(a: Arena)
    ensures ResetCookies(a, []) == a
  {
  }

  /** Resetting one more node, at the end of the list, is one more update. */
  lemma ResetCookiesSnoc(a: Arena, visited: seq<NodeId>, x: NodeId)
    requires x in a
    ensures var b := ResetCookies(a, visited);
            ResetCookies(a, visited + [x]) == b[x := b[x].(cookiesData := [])]
  {
    var b := ResetCookies(a, visited);
    var c := ResetCookies(a, visited + [x]);
    var d := b[x := b[x].(cookiesData := [])];
    forall k | k in a
      ensures c[k] == d[k]
    {
      assert k in visited + [x] <==> k in visited || k == x;
    }
    assert c.Keys == d.Keys;
  }

  /** Appending a child adds one to the total. */
  lemma {:induction false} TotalChildrenAppend(res: map<string, seq<NodeId>>, key: string, id: NodeId)
    ensures TotalChildren(AppendChild(res, key, id)) == TotalChildren(res) + 1
  {
    var r := AppendChild(res, key, id);
    TotalChildrenFrom(r, key);
    if key in res {
      TotalChildrenFrom(res, key);
      assert r - {key} == res - {key};
    } else {
      assert r - {key} == res;
    }
  }

  /** Removing a listed child takes one from the total; otherwise the total stays. */
  lemma {:induction false} TotalChildrenWithout(res: map<string, seq<NodeId>>, name: string, child: NodeId)
    ensures name in res && child in res[name] ==> TotalChildren(Without(res, name, child)) == TotalChildren(res) - 1
    ensures !(name in res && child in res[name]) ==> TotalChildren(Without(res, name, child)) == TotalChildren(res)
  {
    if name in res && child in res[name] {
      var r := Without(res, name, child);
      assert r - {name} == res - {name};
      assert |r[name]| == |res[name]| - 1;
      TotalChildrenFrom(r, name);
      TotalChildrenFrom(res, name);
    }
  }

  // ---------------------------------------------------------- URL parameters

  /** `path[i + 1]` is present and non-empty, so `_readParameters` binds the i-th name. */
  predicate SegmentPresent(path: seq<string>, i: nat)
  {
    i + 1 < |path| && path[i + 1] != ""
  }

  /** The count `_readParameters` returns after visiting the first `n` names. */
  function BoundCount(names: seq<string>, path: seq<string>, n: nat): (c: nat)
    requires n <= |names|
    ensures c <= n
  {
    if n == 0 then 0
    else BoundCount(names, path, n - 1) + (if SegmentPresent(path, n - 1) then 1 else 0)
  }

  /** The parameter map after `_readParameters` visited the first `n` names. */
  function Bound(params: map<string, string>, names: seq<string>, path: seq<string>, n: nat): map<string, string>
    requires n <= |names|
  {
    if n == 0 then params
    else
      var p := Bound(params, names, path, n - 1);
      if SegmentPresent(path, n - 1) then p[names[n - 1] := path[n]] else p
  }

  /** The count is the number of names whose segment is present, wherever they are. */
  lemma {:induction false} BoundCountIsPresentCount(names: seq<string>, path: seq<string>, n: nat)
    requires n <= |names|
    ensures BoundCount(names, path, n) == |set i: nat | i < n && SegmentPresent(path, i)|
  {
    if n > 0 {
      BoundCountIsPresentCount(names, path, n - 1);
      var before := set i: nat | i < n - 1 && SegmentPresent(path, i);
      var after := set i: nat | i < n && SegmentPresent(path, i);
      if SegmentPresent(path, n - 1) {
        assert after == before + {n - 1};
      } else {
        assert after == before;
      }
    }
  }

  /** The arity check passes (count reaches the number of names) exactly when every segment is present. */
  lemma {:induction false} ArityMetIffAllPresent(names: seq<string>, path: seq<string>, n: nat)
    requires n <= |names|
    ensures BoundCount(names, path, n) == n <==> forall i: nat :: i < n ==> SegmentPresent(path, i)
  {
    if n > 0 {
      ArityMetIffAllPresent(names, path, n - 1);
    }
  }

  /** Entries whose name is not among the first `n` names are left untouched. */
  lemma {:induction false} BoundKeepsOthers(params: map<string, string>, names: seq<string>, path: seq<string>, n: nat, k: string)
    requires n <= |names| && k !in names[..n]
    ensures (k in Bound(params, names, path, n) <==> k in params)
    ensures k in params ==> Bound(params, names, path, n)[k] == params[k]
  {
    if n > 0 {
      assert names[..n - 1] == names[..n][..n - 1];
      BoundKeepsOthers(params, names, path, n - 1, k);
    }
  }

  /**
   * With distinct names, the i-th name is bound to `path[i + 1]` when that
   * segment is present, and keeps its previous entry when it is not.
   */
  lemma {:induction false} BoundWrites(params: map<string, string>, names: seq<string>, path: seq<string>, n: nat, i: nat)
    requires n <= |names| && i < n
    requires forall x, y :: 0 <= x < y < |names| ==> names[x] != names[y]
    ensures SegmentPresent(path, i) ==> names[i] in Bound(params, names, path, n) &&
                                        Bound(params, names, path, n)[names[i]] == path[i + 1]
    ensures !SegmentPresent(path, i) ==>
              (names[i] in Bound(params, names, path, n) <==> names[i] in params) &&
              (names[i] in params ==> Bound(params, names, path, n)[names[i]] == params[names[i]])
  {
    if i < n - 1 {
      BoundWrites(params, names, path, n - 1, i);
    } else if !SegmentPresent(path, i) {
      assert names[i] !in names[..i];
      BoundKeepsOthers(params, names, path, i, names[i]);
    }
  }
}
