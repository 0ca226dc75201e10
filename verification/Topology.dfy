/** Kahn's algorithm: what both of the repository's versions rely on, and the one in
    internal/dag/dag.go. */
module Topology {
  import opened Wrappers
  import opened Ordering
  import opened Graphs

  /** Parents of `x` that are not done yet. */
  function Missing<T(==)>(edges: set<Edge<T>>, x: T, done: seq<T>): set<T> {
    set e | e in edges && e.child == x && e.parent !in done :: e.parent
  }

  /** Nodes that may come next. */
  function Available<T(==)>(nodes: set<T>, edges: set<Edge<T>>, done: seq<T>): set<T> {
    set x | x in nodes && x !in done && Missing(edges, x, done) == {}
  }

  /** Distinct nodes, each after all its parents. */
  ghost predicate InOrder<T>(nodes: set<T>, edges: set<Edge<T>>, order: seq<T>) {
    && (forall i :: 0 <= i < |order| ==> order[i] in nodes && Missing(edges, order[i], order[..i]) == {})
    && (forall i, j :: 0 <= i < j < |order| ==> order[i] != order[j])
  }

  /** A dependency-respecting permutation of the nodes. */
  ghost predicate Topological<T>(nodes: set<T>, edges: set<Edge<T>>, order: seq<T>) {
    InOrder(nodes, edges, order) && forall x :: x in nodes ==> x in order
  }

  lemma MissingAfter<T>(edges: set<Edge<T>>, x: T, done: seq<T>, key: T)
    requires key !in done
    ensures Missing(edges, x, done + [key]) == Missing(edges, x, done) - {key}
    ensures key in Missing(edges, x, done) <==> Edge(x, key) in edges
    ensures |Missing(edges, x, done + [key])| == |Missing(edges, x, done)| - (if Edge(x, key) in edges then 1 else 0)
  {
    var before := Missing(edges, x, done);
    if Edge(x, key) in edges {
      var e := Edge(x, key);
      assert e.parent in before;
    }
    if key in before {
      var e :| e in edges && e.child == x && e.parent == key;
      assert e == Edge(x, key);
    }
    assert Missing(edges, x, done + [key]) == before - {key};
  }

  lemma InOrderGrows<T>(nodes: set<T>, edges: set<Edge<T>>, order: seq<T>, key: T)
    requires InOrder(nodes, edges, order) && key in Available(nodes, edges, order)
    ensures InOrder(nodes, edges, order + [key])
  {
    var all := order + [key];
    forall i | 0 <= i < |all| ensures all[i] in nodes && Missing(edges, all[i], all[..i]) == {} {
      assert all[..i] == if i < |order| then order[..i] else order;
    }
  }

  /** Parents of what is done are done. */
  lemma DoneBefore<T>(nodes: set<T>, edges: set<Edge<T>>, order: seq<T>, e: Edge<T>)
    requires InOrder(nodes, edges, order) && e in edges && e.child in order
    ensures e.parent in order
    ensures forall i :: 0 <= i < |order| && order[i] == e.child ==> e.parent in order[..i]
  {
    forall i | 0 <= i < |order| && order[i] == e.child ensures e.parent in order[..i] {
      assert Missing(edges, order[i], order[..i]) == {};
      assert e.parent in Missing(edges, order[i], order[..i]) || e.parent in order[..i];
    }
  }

  lemma {:induction false} DistinctCount<T>(s: set<T>, p: seq<T>)
    requires forall i :: 0 <= i < |p| ==> p[i] in s
    requires forall i, j :: 0 <= i < j < |p| ==> p[i] != p[j]
    ensures |p| <= |s| && (|p| == |s| <==> forall x :: x in s ==> x in p)
    decreases |p|
  {
    if p == [] {
      assert |s| == 0 ==> s == {};
      if s != {} { var x :| x in s; }
    } else {
      var last, init := p[|p| - 1], p[..|p| - 1];
      assert p == init + [last];
      DistinctCount(s - {last}, init);
      assert s == (s - {last}) + {last};
    }
  }

  /** When nothing is available any more, everything is done exactly if there is no cycle. */
  lemma KahnEnds<T(!new)>(nodes: set<T>, edges: set<Edge<T>>, order: seq<T>)
    requires InOrder(nodes, edges, order) && Available(nodes, edges, order) == {}
    requires forall e :: e in edges ==> e.child in nodes && e.parent in nodes
    ensures |order| == |nodes| <==> Acyclic(edges)
    ensures |order| == |nodes| ==> Topological(nodes, edges, order)
  {
    DistinctCount(nodes, order);
    if |order| == |nodes| {
      OrderedAcyclic(nodes, edges, order);
    } else {
      var rest := set x | x in nodes && x !in order;
      var x :| x in nodes && x !in order;
      assert x in rest;
      forall y | y in rest ensures Waits(edges, rest, y) {
        assert y !in Available(nodes, edges, order);
        var p :| p in Missing(edges, y, order);
        var e :| e in edges && e.child == y && e.parent == p;
        assert e == Edge(y, p);
      }
      StuckHasCycle(edges, rest);
    }
  }

  /** A topological order is a rank, and ranked graphs have no cycle. */
  lemma OrderedAcyclic<T(!new)>(nodes: set<T>, edges: set<Edge<T>>, order: seq<T>)
    requires Topological(nodes, edges, order)
    requires forall e :: e in edges ==> e.child in nodes && e.parent in nodes
    ensures Acyclic(edges)
  {
    var rank := map i | 0 <= i < |order| :: order[i] := i;
    forall e | e in edges ensures e.parent in rank && e.child in rank && rank[e.parent] < rank[e.child] {
      assert e.child in order;
      var i :| 0 <= i < |order| && order[i] == e.child;
      DoneBefore(nodes, edges, order, e);
      assert e.parent in order[..i];
      var j :| 0 <= j < i && order[j] == e.parent;
      assert order[i] in rank && order[j] in rank;
    }
    assert Ranks(rank, edges);
    RankedAcyclic(edges);
  }

  // -------------------------------------------------------------------------- dag.go

  datatype DagNode = DagNode(key: string, dependsOn: seq<string>)

  datatype DagError = NoNodes | NoKey | DuplicateNode(key: string) | UnknownDependency | RepeatedDependency | Cycle

  function Keys(nodes: seq<DagNode>): set<string> {
    set n | n in nodes :: n.key
  }

  function DagEdges(nodes: seq<DagNode>): set<Edge<string>> {
    set i, k | 0 <= i < |nodes| && 0 <= k < |nodes[i].dependsOn| :: Edge(nodes[i].key, nodes[i].dependsOn[k])
  }

  predicate DistinctKeys(nodes: seq<DagNode>) {
    forall i, j :: 0 <= i < j < |nodes| ==> nodes[i].key != nodes[j].key
  }

  predicate DependsWell(node: DagNode, keys: set<string>) {
    && (forall k :: 0 <= k < |node.dependsOn| ==> node.dependsOn[k] in keys)
    && (forall k, l :: 0 <= k < l < |node.dependsOn| ==> node.dependsOn[k] != node.dependsOn[l])
  }

  /** Everything TopologicalOrder checks of its input, cycles aside. */
  predicate WellFormed(nodes: seq<DagNode>) {
    && nodes != [] && DistinctKeys(nodes)
    && (forall i :: 0 <= i < |nodes| ==> nodes[i].key != "")
    && (forall i :: 0 <= i < |nodes| ==> DependsWell(nodes[i], Keys(nodes)))
  }

  predicate Before(a: string, b: string) {
    Less(Text(a), Text(b))
  }

  /** Strictly ascending, as sort.Strings leaves distinct strings. */
  ghost predicate Ascending(s: seq<string>) {
    forall i, j :: 0 <= i < j < |s| ==> Before(s[i], s[j])
  }

  /** Each node is the least of those available at its turn. */
  ghost predicate Greedy(nodes: set<string>, edges: set<Edge<string>>, order: seq<string>) {
    forall i, x :: 0 <= i < |order| && x in Available(nodes, edges, order[..i]) ==> x == order[i] || Before(order[i], x)
  }

  /** `a` comes before `b` in dictionary order. */
  ghost predicate Precedes(a: seq<string>, b: seq<string>) {
    exists i :: 0 <= i < |a| && i < |b| && a[..i] == b[..i] && Before(a[i], b[i])
  }

  lemma {:induction false} FirstDifference(a: seq<string>, b: seq<string>) returns (i: nat)
    requires |a| == |b| && a != b
    ensures i < |a| && a[..i] == b[..i] && a[i] != b[i]
    decreases |a|
  {
    var n := |a| - 1;
    if a[..n] == b[..n] {
      i := n;
      assert a == a[..n] + [a[n]] && b == b[..n] + [b[n]];
    } else {
      i := FirstDifference(a[..n], b[..n]);
      assert a[..n][..i] == a[..i] && b[..n][..i] == b[..i];
    }
  }

  /** A greedy topological order precedes every other topological order. */
  lemma GreedyLeast(nodes: set<string>, edges: set<Edge<string>>, order: seq<string>, other: seq<string>)
    requires Topological(nodes, edges, order) && Greedy(nodes, edges, order) && Topological(nodes, edges, other)
    ensures other == order || Precedes(order, other)
  {
    if other != order {
      DistinctCount(nodes, order);
      DistinctCount(nodes, other);
      var i := FirstDifference(order, other);
      var x := other[i];
      assert Missing(edges, x, other[..i]) == {};
      assert x !in other[..i];
      assert x in Available(nodes, edges, order[..i]);
    }
  }

  /** Ascending, equal strings allowed. */
  ghost predicate NeverDescends(s: seq<string>) {
    forall i, j :: 0 <= i < j < |s| ==> !Before(s[j], s[i])
  }

  lemma AscendsWeakly(s: seq<string>)
    requires Ascending(s)
    ensures NeverDescends(s)
  {
    forall i, j | 0 <= i < j < |s| ensures !Before(s[j], s[i]) { Trichotomy(Text(s[i]), Text(s[j])); }
  }

  lemma DistinctAscends(s: seq<string>)
    requires NeverDescends(s) && forall i, j :: 0 <= i < j < |s| ==> s[i] != s[j]
    ensures Ascending(s)
  {
    forall i, j | 0 <= i < j < |s| ensures Before(s[i], s[j]) {
      Trichotomy(Text(s[i]), Text(s[j]));
      TextInjective(s[i], s[j]);
    }
  }

  lemma InsertedFits(values: seq<string>, value: string, i: nat)
    requires NeverDescends(values) && i <= |values|
    requires (forall j :: 0 <= j < i ==> Before(values[j], value)) && (i < |values| ==> !Before(values[i], value))
    ensures NeverDescends(values[..i] + [value] + values[i..])
  {
    var r := values[..i] + [value] + values[i..];
    forall j | i <= j < |values| ensures !Before(values[j], value) {
      if Before(values[j], value) && j > i { BelowStays(values[i], values[j], value); }
    }
    forall j | 0 <= j < i ensures !Before(value, values[j]) { Trichotomy(Text(values[j]), Text(value)); }
  }

  /** What does not follow `b` stays before what `b` comes before. */
  lemma BelowStays(a: string, b: string, value: string)
    requires !Before(b, a) && Before(b, value)
    ensures Before(a, value)
  {
    Trichotomy(Text(a), Text(b));
    TextInjective(a, b);
    if a != b { Transitive(Text(a), Text(b), Text(value)); }
  }

  /** insertSorted. */
  method InsertSorted(values: seq<string>, value: string) returns (r: seq<string>)
    requires NeverDescends(values)
    ensures NeverDescends(r) && multiset(r) == multiset(values) + multiset{value}
    ensures Ascending(values) && value !in values ==> Ascending(r)
    ensures forall x :: x in r <==> x in values || x == value
  {
    var i := 0;
    while i < |values| && Before(values[i], value)
      invariant 0 <= i <= |values|
      invariant forall j :: 0 <= j < i ==> Before(values[j], value)
    {
      i := i + 1;
    }
    r := values[..i] + [value] + values[i..];
    InsertedFits(values, value, i);
    assert values == values[..i] + values[i..];
    if Ascending(values) && value !in values {
      NoRepeats(values);
      DistinctAscends(r);
    }
  }

  lemma NoRepeats(s: seq<string>)
    requires Ascending(s)
    ensures forall i, j :: 0 <= i < j < |s| ==> s[i] != s[j]
  {
    forall i, j | 0 <= i < j < |s| ensures s[i] != s[j] { Trichotomy(Text(s[i]), Text(s[j])); }
  }

  /** sort.Strings of distinct strings. */
  method SortStrings(values: seq<string>) returns (r: seq<string>)
    requires forall i, j :: 0 <= i < j < |values| ==> values[i] != values[j]
    ensures Ascending(r) && forall x :: x in r <==> x in values
  {
    r := [];
    for n := 0 to |values|
      invariant Ascending(r) && forall x :: x in r <==> x in values[..n]
    {
      AscendsWeakly(r);
      r := InsertSorted(r, values[n]);
    }
    assert values[..|values|] == values;
  }

  // ----------------------------------------------------------------------- the counters

  /** indegree and children agree with the edges. */
  ghost predicate Counted(keys: set<string>, edges: set<Edge<string>>, done: seq<string>,
                          indegree: map<string, int>, children: map<string, seq<string>>) {
    && indegree.Keys == keys
    && (forall x :: x in keys ==> indegree[x] == |Missing(edges, x, done)|)
    && ChildLists(edges, children)
  }

  ghost predicate ChildLists(edges: set<Edge<string>>, children: map<string, seq<string>>) {
    && (forall p, x :: p in children && x in children[p] ==> Edge(x, p) in edges)
    && (forall e :: e in edges ==> e.parent in children && e.child in children[e.parent])
    && (forall p :: p in children ==> forall i, j :: 0 <= i < j < |children[p]| ==> children[p][i] != children[p][j])
  }

  lemma NewEdge<T>(edges: set<Edge<T>>, e: Edge<T>, x: T)
    requires e !in edges
    ensures |Missing(edges + {e}, x, [])| == |Missing(edges, x, [])| + (if x == e.child then 1 else 0)
  {
    var before := Missing(edges, x, []);
    if x == e.child {
      assert Missing(edges + {e}, x, []) == before + {e.parent};
    } else {
      assert Missing(edges + {e}, x, []) == before;
    }
  }

  function ChildrenOf(children: map<string, seq<string>>, p: string): seq<string> {
    if p in children then children[p] else []
  }

  /** Recording one dependency. */
  lemma CountEdge(
      keys: set<string>, edges: set<Edge<string>>, indegree: map<string, int>, children: map<string, seq<string>>,
      child: string, parent: string)
    requires Counted(keys, edges, [], indegree, children) && child in keys && Edge(child, parent) !in edges
    ensures Counted(keys, edges + {Edge(child, parent)}, [], indegree[child := indegree[child] + 1],
                    children[parent := ChildrenOf(children, parent) + [child]])
  {
    hide Missing;
    var e := Edge(child, parent);
    var more := children[parent := ChildrenOf(children, parent) + [child]];
    forall x | x in keys ensures indegree[child := indegree[child] + 1][x] == |Missing(edges + {e}, x, [])| {
      NewEdge(edges, e, x);
    }
    assert child !in ChildrenOf(children, parent);
    ListEdge(edges, children, child, parent);
  }

  lemma ListEdge(edges: set<Edge<string>>, children: map<string, seq<string>>, child: string, parent: string)
    requires ChildLists(edges, children) && child !in ChildrenOf(children, parent)
    ensures ChildLists(edges + {Edge(child, parent)}, children[parent := ChildrenOf(children, parent) + [child]])
  {
  }

  function EdgesOf(node: DagNode, n: nat): set<Edge<string>>
    requires n <= |node.dependsOn|
  {
    set k | 0 <= k < n :: Edge(node.key, node.dependsOn[k])
  }

  lemma EdgesOfGrow(node: DagNode, n: nat)
    requires n < |node.dependsOn|
    ensures EdgesOf(node, n + 1) == EdgesOf(node, n) + {Edge(node.key, node.dependsOn[n])}
  {
  }

  lemma EdgesGrow(nodes: seq<DagNode>, n: nat)
    requires n < |nodes|
    ensures DagEdges(nodes[..n + 1]) == DagEdges(nodes[..n]) + EdgesOf(nodes[n], |nodes[n].dependsOn|)
  {
    var a, b := nodes[..n + 1], nodes[..n];
    forall e | e in DagEdges(a) ensures e in DagEdges(b) + EdgesOf(nodes[n], |nodes[n].dependsOn|) {
      var i, k :| 0 <= i < |a| && 0 <= k < |a[i].dependsOn| && e == Edge(a[i].key, a[i].dependsOn[k]);
      if i < n { assert b[i] == a[i]; }
    }
    forall e | e in DagEdges(b) ensures e in DagEdges(a) {
      var i, k :| 0 <= i < |b| && 0 <= k < |b[i].dependsOn| && e == Edge(b[i].key, b[i].dependsOn[k]);
      assert b[i] == a[i];
    }
    forall e | e in EdgesOf(nodes[n], |nodes[n].dependsOn|) ensures e in DagEdges(a) {
      var k :| 0 <= k < |nodes[n].dependsOn| && e == Edge(nodes[n].key, nodes[n].dependsOn[k]);
      assert a[n] == nodes[n];
    }
  }

  /** The first loop of TopologicalOrder: distinct, nonempty keys. */
  method CollectKeys(nodes: seq<DagNode>) returns (r: Result<map<string, int>, DagError>)
    ensures r.Ok? <==> DistinctKeys(nodes) && forall i :: 0 <= i < |nodes| ==> nodes[i].key != ""
    ensures r.Ok? ==> r.value.Keys == Keys(nodes) && forall x :: x in r.value ==> r.value[x] == 0
    ensures r.Err? ==> !r.error.Cycle?
  {
    var indegree: map<string, int> := map[];
    for n := 0 to |nodes|
      invariant indegree.Keys == Keys(nodes[..n]) && (forall x :: x in indegree ==> indegree[x] == 0)
      invariant DistinctKeys(nodes[..n]) && forall i :: 0 <= i < n ==> nodes[i].key != ""
    {
      if nodes[n].key == "" { return Err(NoKey); }
      if nodes[n].key in indegree {
        var d :| d in nodes[..n] && d.key == nodes[n].key;
        var i :| 0 <= i < n && nodes[i] == d;
        return Err(DuplicateNode(nodes[n].key));
      }
      indegree := indegree[nodes[n].key := 0];
      assert nodes[..n + 1] == nodes[..n] + [nodes[n]];
      forall i | 0 <= i < n ensures nodes[i].key != nodes[n].key {
        assert nodes[..n][i] == nodes[i] && nodes[i] in nodes[..n];
      }
    }
    assert nodes[..|nodes|] == nodes;
    r := Ok(indegree);
  }

  datatype Counters = Counters(indegree: map<string, int>, children: map<string, seq<string>>)

  /** The inner part of the second loop: one node's dependencies. */
  method CountNode(
      node: DagNode, keys: set<string>, ghost edges: set<Edge<string>>,
      c: Counters) returns (r: Result<Counters, DagError>)
    requires Counted(keys, edges, [], c.indegree, c.children) && node.key in keys
    requires forall e :: e in edges ==> e.child != node.key
    ensures r.Ok? <==> DependsWell(node, keys)
    ensures r.Ok? ==> Counted(keys, edges + EdgesOf(node, |node.dependsOn|), [], r.value.indegree, r.value.children)
    ensures r.Err? ==> !r.error.Cycle?
  {
    hide Counted, Missing;
    var seen: set<string>, indegree, children := {}, c.indegree, c.children;
    assert edges + EdgesOf(node, 0) == edges;
    for k := 0 to |node.dependsOn|
      invariant seen == set d | d in node.dependsOn[..k]
      invariant (forall i :: 0 <= i < k ==> node.dependsOn[i] in keys)
      invariant (forall i, j :: 0 <= i < j < k ==> node.dependsOn[i] != node.dependsOn[j])
      invariant Counted(keys, edges + EdgesOf(node, k), [], indegree, children)
    {
      var d := node.dependsOn[k];
      if d !in keys { return Err(UnknownDependency); }
      if d in seen {
        var i :| 0 <= i < k && node.dependsOn[i] == d;
        return Err(RepeatedDependency);
      }
      forall i | 0 <= i < k ensures node.dependsOn[i] != d {
        assert node.dependsOn[..k][i] in seen;
      }
      seen := seen + {d};
      assert node.dependsOn[..k + 1] == node.dependsOn[..k] + [d];
      CountEdge(keys, edges + EdgesOf(node, k), indegree, children, node.key, d);
      EdgesOfGrow(node, k);
      assert edges + EdgesOf(node, k + 1) == (edges + EdgesOf(node, k)) + {Edge(node.key, d)};
      CountedKeys(keys, edges + EdgesOf(node, k), indegree, children);
      indegree := indegree[node.key := indegree[node.key] + 1];
      children := children[d := ChildrenOf(children, d) + [node.key]];
    }
    r := Ok(Counters(indegree, children));
  }

  lemma CountedKeys(keys: set<string>, edges: set<Edge<string>>, indegree: map<string, int>, children: map<string, seq<string>>)
    requires Counted(keys, edges, [], indegree, children)
    ensures indegree.Keys == keys
  {
  }

  lemma NothingCounted(keys: set<string>, indegree: map<string, int>)
    requires indegree.Keys == keys && forall x :: x in indegree ==> indegree[x] == 0
    ensures Counted(keys, {}, [], indegree, map[])
  {
    forall x | x in keys ensures |Missing({}, x, [])| == 0 {
      assert Missing<string>({}, x, []) == {};
    }
  }

  /** The second loop of TopologicalOrder. */
  method CountNodes(nodes: seq<DagNode>, indegree: map<string, int>) returns (r: Result<Counters, DagError>)
    requires DistinctKeys(nodes) && indegree.Keys == Keys(nodes) && forall x :: x in indegree ==> indegree[x] == 0
    ensures r.Ok? <==> forall i :: 0 <= i < |nodes| ==> DependsWell(nodes[i], Keys(nodes))
    ensures r.Ok? ==> Counted(Keys(nodes), DagEdges(nodes), [], r.value.indegree, r.value.children)
    ensures r.Err? ==> !r.error.Cycle?
  {
    hide Counted, Missing, DependsWell;
    var c := Counters(indegree, map[]);
    NothingCounted(Keys(nodes), indegree);
    assert DagEdges(nodes[..0]) == {};
    for n := 0 to |nodes|
      invariant forall i :: 0 <= i < n ==> DependsWell(nodes[i], Keys(nodes))
      invariant Counted(Keys(nodes), DagEdges(nodes[..n]), [], c.indegree, c.children)
    {
      forall e | e in DagEdges(nodes[..n]) ensures e.child != nodes[n].key { }
      var next := CountNode(nodes[n], Keys(nodes), DagEdges(nodes[..n]), c);
      if next.Err? { return Err(next.error); }
      EdgesGrow(nodes, n);
      c := next.value;
    }
    assert nodes[..|nodes|] == nodes;
    r := Ok(c);
  }

  // -------------------------------------------------------------------------- the loop

  /** What the main loop keeps: the order so far is greedy, and `ready` lists what comes next. */
  ghost predicate Advancing(keys: set<string>, edges: set<Edge<string>>, order: seq<string>, ready: seq<string>) {
    && InOrder(keys, edges, order) && Greedy(keys, edges, order) && Ascending(ready)
    && forall x :: x in ready <==> x in Available(keys, edges, order)
  }

  lemma GreedyGrows(keys: set<string>, edges: set<Edge<string>>, order: seq<string>, ready: seq<string>)
    requires Advancing(keys, edges, order, ready) && ready != []
    ensures InOrder(keys, edges, order + [ready[0]]) && Greedy(keys, edges, order + [ready[0]])
  {
    hide Missing;
    var key := ready[0];
    assert key in ready;
    InOrderGrows(keys, edges, order, key);
    var all := order + [key];
    forall i, x | 0 <= i < |all| && x in Available(keys, edges, all[..i]) ensures x == all[i] || Before(all[i], x) {
      assert all[..i] == if i < |order| then order[..i] else order;
      if i == |order| {
        assert x in ready;
        var j :| 0 <= j < |ready| && ready[j] == x;
      }
    }
  }

  /** Taking the head off the ready list and waking children. */
  ghost predicate Waking(keys: set<string>, edges: set<Edge<string>>, order: seq<string>, key: string, woken: seq<string>,
                         ready: seq<string>, indegree: map<string, int>) {
    && indegree.Keys == keys
    && (forall x :: x in keys ==> indegree[x] == |Missing(edges, x, order)| - (if x in woken then 1 else 0))
    && Ascending(ready)
    && (forall x :: x in ready <==>
          (x in Available(keys, edges, order) && x != key) || (x in woken && Missing(edges, x, order + [key]) == {}))
  }

  lemma WakeOne(keys: set<string>, edges: set<Edge<string>>, order: seq<string>, key: string, woken: seq<string>,
                ready: seq<string>, indegree: map<string, int>, child: string)
    requires InOrder(keys, edges, order) && key in Available(keys, edges, order)
    requires Waking(keys, edges, order, key, woken, ready, indegree) && child !in woken
    requires Edge(child, key) in edges && child in keys
    ensures indegree[child] - 1 == |Missing(edges, child, order + [key])|
    ensures child !in ready
  {
    MissingAfter(edges, child, order, key);
    assert key in Missing(edges, child, order);
  }

  lemma WokeOne(keys: set<string>, edges: set<Edge<string>>, order: seq<string>, key: string, woken: seq<string>,
                ready: seq<string>, after: seq<string>, indegree: map<string, int>, child: string)
    requires Waking(keys, edges, order, key, woken, ready, indegree) && child !in woken && child in keys
    requires indegree[child] - 1 == |Missing(edges, child, order + [key])|
    requires if indegree[child] == 1 then Ascending(after) && (forall x :: x in after <==> x in ready || x == child)
        else after == ready
    ensures Waking(keys, edges, order, key, woken + [child], after, indegree[child := indegree[child] - 1])
  {
    hide Missing;
    var less := indegree[child := indegree[child] - 1];
    forall x | x in keys ensures less[x] == |Missing(edges, x, order)| - (if x in woken + [child] then 1 else 0) {
    }
    assert indegree[child] == 1 <==> Missing(edges, child, order + [key]) == {};
  }

  lemma WokenAll(keys: set<string>, edges: set<Edge<string>>, order: seq<string>, key: string, woken: seq<string>,
                 ready: seq<string>, indegree: map<string, int>)
    requires InOrder(keys, edges, order) && key in Available(keys, edges, order)
    requires forall e :: e in edges ==> e.child in keys && e.parent in keys
    requires Waking(keys, edges, order, key, woken, ready, indegree)
    requires forall x :: x in woken <==> Edge(x, key) in edges
    ensures forall x :: x in keys ==> indegree[x] == |Missing(edges, x, order + [key])|
    ensures forall x :: x in ready <==> x in Available(keys, edges, order + [key])
  {
    hide InOrder;
    var more := order + [key];
    forall x | x in keys ensures indegree[x] == |Missing(edges, x, more)| {
      MissingAfter(edges, x, order, key);
    }
    forall x ensures x in ready <==> x in Available(keys, edges, more) {
      MissingAfter(edges, x, order, key);
      if Edge(x, key) in edges && x in order {
        DoneBefore(keys, edges, order, Edge(x, key));
      }
      assert x in woken ==> x in keys && Edge(x, key) in edges;
    }
  }

  /** One turn of the main loop. */
  method Advance(keys: set<string>, ghost edges: set<Edge<string>>, ghost order: seq<string>, ready: seq<string>, c: Counters)
    returns (next: seq<string>, indegree: map<string, int>)
    requires forall e :: e in edges ==> e.child in keys && e.parent in keys
    requires ready != [] && Advancing(keys, edges, order, ready) && Counted(keys, edges, order, c.indegree, c.children)
    ensures Advancing(keys, edges, order + [ready[0]], next) && Counted(keys, edges, order + [ready[0]], indegree, c.children)
  {
    hide Missing, InOrder, Greedy;
    var key := ready[0];
    assert key in ready;
    GreedyGrows(keys, edges, order, ready);
    var children := SortStrings(ChildrenOf(c.children, key));
    next, indegree := ready[1..], c.indegree;
    HeadTaken(keys, edges, order, ready, indegree);
    for n := 0 to |children|
      invariant Waking(keys, edges, order, key, children[..n], next, indegree)
    {
      var child := children[n];
      assert child in children && child in ChildrenOf(c.children, key);
      NotYetWoken(children, n);
      WakeOne(keys, edges, order, key, children[..n], next, indegree, child);
      ghost var before := next;
      if indegree[child] - 1 == 0 {
        AscendsWeakly(next);
        next := InsertSorted(next, child);
      }
      WokeOne(keys, edges, order, key, children[..n], before, next, indegree, child);
      indegree := indegree[child := indegree[child] - 1];
      assert children[..n + 1] == children[..n] + [child];
    }
    assert children[..|children|] == children;
    forall x ensures x in children <==> Edge(x, key) in edges { }
    WokenAll(keys, edges, order, key, children, next, indegree);
  }

  lemma NotYetWoken(children: seq<string>, n: nat)
    requires Ascending(children) && n < |children|
    ensures children[n] !in children[..n]
  {
    forall i | 0 <= i < n ensures children[i] != children[n] {
      Trichotomy(Text(children[i]), Text(children[n]));
    }
  }

  lemma HeadTaken(keys: set<string>, edges: set<Edge<string>>, order: seq<string>, ready: seq<string>, indegree: map<string, int>)
    requires ready != [] && Advancing(keys, edges, order, ready)
    requires indegree.Keys == keys && forall x :: x in keys ==> indegree[x] == |Missing(edges, x, order)|
    ensures Waking(keys, edges, order, ready[0], [], ready[1..], indegree)
  {
    hide Missing, InOrder, Greedy;
    var rest := ready[1..];
    assert forall i :: 0 <= i < |rest| ==> rest[i] == ready[i + 1];
    forall x ensures x in rest <==> x in ready && x != ready[0] {
      if x in rest {
        var i :| 0 <= i < |rest| && rest[i] == x;
        Trichotomy(Text(ready[0]), Text(ready[i + 1]));
      }
      if x in ready && x != ready[0] {
        var i :| 0 <= i < |ready| && ready[i] == x;
        assert rest[i - 1] == x;
      }
    }
  }

  lemma EdgesInside(nodes: seq<DagNode>)
    requires forall i :: 0 <= i < |nodes| ==> DependsWell(nodes[i], Keys(nodes))
    ensures forall e :: e in DagEdges(nodes) ==> e.child in Keys(nodes) && e.parent in Keys(nodes)
  {
    forall e | e in DagEdges(nodes) ensures e.child in Keys(nodes) && e.parent in Keys(nodes) {
      var i, k :| 0 <= i < |nodes| && 0 <= k < |nodes[i].dependsOn| && e == Edge(nodes[i].key, nodes[i].dependsOn[k]);
      assert DependsWell(nodes[i], Keys(nodes));
      assert nodes[i] in nodes;
    }
  }

  lemma {:induction false} KeyCount(nodes: seq<DagNode>)
    requires DistinctKeys(nodes)
    ensures |Keys(nodes)| == |nodes|
    decreases |nodes|
  {
    if nodes == [] {
      assert Keys(nodes) == {};
    } else {
      var init, last := nodes[..|nodes| - 1], nodes[|nodes| - 1];
      KeyCount(init);
      assert nodes == init + [last];
      assert Keys(nodes) == Keys(init) + {last.key};
      forall n | n in init ensures n.key != last.key {
        var i :| 0 <= i < |init| && init[i] == n;
        assert nodes[i] == n;
      }
    }
  }

  /** The nodes without dependencies, sorted. */
  method Roots(keys: set<string>, ghost edges: set<Edge<string>>, indegree: map<string, int>) returns (ready: seq<string>)
    requires indegree.Keys == keys && forall x :: x in keys ==> indegree[x] == |Missing(edges, x, [])|
    ensures Advancing(keys, edges, [], ready)
  {
    hide Missing;
    var rest := keys;
    ready := [];
    while rest != {}
      invariant rest <= keys && Ascending(ready)
      invariant forall x :: x in ready <==> x in keys && x !in rest && indegree[x] == 0
      decreases |rest|
    {
      var key :| key in rest;
      if indegree[key] == 0 {
        AscendsWeakly(ready);
        ready := InsertSorted(ready, key);
      }
      rest := rest - {key};
    }
  }

  /** dag.TopologicalOrder: succeeds exactly on well-formed acyclic input, reports a cycle exactly when
      that is the only fault, and returns the least topological order. */
  method TopologicalOrder(nodes: seq<DagNode>) returns (r: Result<seq<string>, DagError>)
    ensures r.Ok? <==> WellFormed(nodes) && Acyclic(DagEdges(nodes))
    ensures r.Err? && r.error.Cycle? <==> WellFormed(nodes) && !Acyclic(DagEdges(nodes))
    ensures r.Ok? ==> Topological(Keys(nodes), DagEdges(nodes), r.value)
    ensures r.Ok? ==>
        forall other :: Topological(Keys(nodes), DagEdges(nodes), other) ==> other == r.value || Precedes(r.value, other)
  {
    hide Counted, Missing, Acyclic, DependsWell, InOrder, Greedy, Precedes;
    if |nodes| == 0 { return Err(NoNodes); }
    var collected := CollectKeys(nodes);
    if collected.Err? { return Err(collected.error); }
    var counted := CountNodes(nodes, collected.value);
    if counted.Err? { return Err(counted.error); }
    EdgesInside(nodes);
    var keys := Keys(nodes);
    ghost var edges := DagEdges(nodes);
    var c := counted.value;
    CountedDegrees(keys, edges, c);
    var ready := Roots(keys, edges, c.indegree);
    var order := [];
    while |ready| > 0
      invariant Advancing(keys, edges, order, ready) && Counted(keys, edges, order, c.indegree, c.children)
      invariant |order| <= |keys|
      decreases |keys| - |order|
    {
      var next, indegree := Advance(keys, edges, order, ready, c);
      order := order + [ready[0]];
      ready, c := next, c.(indegree := indegree);
      OrderFits(keys, edges, order);
    }
    assert Available(keys, edges, order) == {} by { assert forall x :: x in ready <==> x in Available(keys, edges, order); }
    KahnEnds(keys, edges, order);
    KeyCount(nodes);
    if |order| != |nodes| { return Err(Cycle); }
    forall other | Topological(keys, edges, other) ensures other == order || Precedes(order, other) {
      GreedyLeast(keys, edges, order, other);
    }
    r := Ok(order);
  }

  lemma CountedDegrees(keys: set<string>, edges: set<Edge<string>>, c: Counters)
    requires Counted(keys, edges, [], c.indegree, c.children)
    ensures c.indegree.Keys == keys && forall x :: x in keys ==> c.indegree[x] == |Missing(edges, x, [])|
  {
  }

  lemma OrderFits(keys: set<string>, edges: set<Edge<string>>, order: seq<string>)
    requires InOrder(keys, edges, order)
    ensures |order| <= |keys|
  {
    DistinctCount(keys, order);
  }
}
