/** validateWorkflow (internal/store/sqlite/submissions.go): the checks of a submitted workflow, the
    last of which is Kahn's algorithm over node indexes. */
module WorkflowCheck {
  import opened Wrappers
  import opened Graphs
  import opened Domain
  import opened Transactions
  import opened Topology

  // ------------------------------------------------------------------- the index of keys

  ghost predicate Indexed(nodes: seq<Node>, n: nat, index: map<string, nat>)
    requires n <= |nodes|
  {
    && (forall i :: 0 <= i < n ==> nodes[i].key in index && index[nodes[i].key] == i)
    && (forall k :: k in index ==> index[k] < n && nodes[index[k]].key == k)
  }

  /** The first loop: keys are not blank and not repeated. */
  method IndexKeys(nodes: seq<Node>) returns (r: Result<map<string, nat>, StoreError>)
    ensures r.Ok? <==> (forall i :: 0 <= i < |nodes| ==> !Blank(nodes[i].key))
                       && (forall i, j :: 0 <= i < j < |nodes| ==> nodes[i].key != nodes[j].key)
    ensures r.Ok? ==> Indexed(nodes, |nodes|, r.value)
    ensures r.Err? ==> r.error.BadRequest?
  {
    hide Blank;
    var index: map<string, nat> := map[];
    for n := 0 to |nodes|
      invariant Indexed(nodes, n, index)
      invariant forall i :: 0 <= i < n ==> !Blank(nodes[i].key)
      invariant forall i, j :: 0 <= i < j < n ==> nodes[i].key != nodes[j].key
    {
      if Blank(nodes[n].key) { return Err(BadRequest); }
      if nodes[n].key in index { return Err(BadRequest); }
      index := index[nodes[n].key := n];
    }
    r := Ok(index);
  }

  // -------------------------------------------------------------------- counting parents

  /** The edges into nodes before `n`. */
  ghost function EdgesBelow(nodes: seq<Node>, n: nat): set<Edge<nat>> {
    set e | e in NodeEdges(nodes) && e.child < n
  }

  /** The edges of node `i` for its first `k` dependencies. */
  ghost function RowEdges(nodes: seq<Node>, i: nat, k: nat): set<Edge<nat>>
    requires i < |nodes| && k <= |nodes[i].spec.dependsOn|
  {
    set p: nat | p < |nodes| && nodes[p].key in nodes[i].spec.dependsOn[..k] :: Edge(i, p)
  }

  ghost predicate Degrees(edges: set<Edge<nat>>, done: seq<nat>, indegree: seq<int>) {
    forall x: nat :: x < |indegree| ==> indegree[x] == |Missing(edges, x, done)|
  }

  ghost predicate Lists(edges: set<Edge<nat>>, children: seq<seq<nat>>) {
    && (forall p, x :: 0 <= p < |children| && x in children[p] ==> Edge(x, p) in edges)
    && (forall e :: e in edges ==> e.parent < |children| && e.child in children[e.parent])
    && (forall p :: 0 <= p < |children| ==> forall i, j :: 0 <= i < j < |children[p]| ==> children[p][i] != children[p][j])
  }

  lemma AddEdge(edges: set<Edge<nat>>, indegree: seq<int>, children: seq<seq<nat>>, child: nat, parent: nat)
    requires Degrees(edges, [], indegree) && Lists(edges, children) && Edge(child, parent) !in edges
    requires child < |indegree| && parent < |children|
    ensures Degrees(edges + {Edge(child, parent)}, [], indegree[child := indegree[child] + 1])
    ensures Lists(edges + {Edge(child, parent)}, children[parent := children[parent] + [child]])
  {
    var e := Edge(child, parent);
    forall x: nat | x < |indegree| ensures indegree[child := indegree[child] + 1][x] == |Missing(edges + {e}, x, [])| {
      NewEdge(edges, e, x);
    }
    ListEdgeAt(edges, children, child, parent);
  }

  lemma ListEdgeAt(edges: set<Edge<nat>>, children: seq<seq<nat>>, child: nat, parent: nat)
    requires Lists(edges, children) && Edge(child, parent) !in edges && parent < |children|
    ensures Lists(edges + {Edge(child, parent)}, children[parent := children[parent] + [child]])
  {
  }

  lemma RowGrows(nodes: seq<Node>, index: map<string, nat>, i: nat, k: nat)
    requires Indexed(nodes, |nodes|, index) && i < |nodes| && k < |nodes[i].spec.dependsOn|
    requires nodes[i].spec.dependsOn[k] in index && nodes[i].spec.dependsOn[k] !in nodes[i].spec.dependsOn[..k]
    ensures var e := Edge(i, index[nodes[i].spec.dependsOn[k]]);
      && RowEdges(nodes, i, k + 1) == RowEdges(nodes, i, k) + {e}
      && e !in EdgesBelow(nodes, i) + RowEdges(nodes, i, k)
      && EdgesBelow(nodes, i) + RowEdges(nodes, i, k + 1) == (EdgesBelow(nodes, i) + RowEdges(nodes, i, k)) + {e}
  {
    var deps := nodes[i].spec.dependsOn;
    assert deps[..k + 1] == deps[..k] + [deps[k]];
  }

  lemma BelowGrows(nodes: seq<Node>, i: nat)
    requires i < |nodes|
    ensures EdgesBelow(nodes, i + 1) == EdgesBelow(nodes, i) + RowEdges(nodes, i, |nodes[i].spec.dependsOn|)
  {
    var deps := nodes[i].spec.dependsOn;
    assert deps[..|deps|] == deps;
  }

  ghost predicate NodeFine(cfg: Config, tenant: string, nodes: seq<Node>, i: nat)
    requires i < |nodes|
  {
    && NodeSpec(tenant, nodes[i]).Valid(cfg.maxCost, cfg.allowShell)
    && DistinctStrings(nodes[i].spec.dependsOn) && forall d :: d in nodes[i].spec.dependsOn ==> KnownKey(nodes, d)
  }

  /** One round of the second loop: the dependencies of node `i`. */
  method CountRow(nodes: seq<Node>, index: map<string, nat>, i: nat, indegree: array<int>, children: array<seq<nat>>)
    returns (ok: bool)
    requires Indexed(nodes, |nodes|, index) && i < |nodes| == indegree.Length == children.Length
    requires Degrees(EdgesBelow(nodes, i), [], indegree[..]) && Lists(EdgesBelow(nodes, i), children[..])
    modifies indegree, children
    ensures ok <==> DistinctStrings(nodes[i].spec.dependsOn) && forall d :: d in nodes[i].spec.dependsOn ==> KnownKey(nodes, d)
    ensures ok ==> Degrees(EdgesBelow(nodes, i + 1), [], indegree[..]) && Lists(EdgesBelow(nodes, i + 1), children[..])
  {
    hide Degrees, Lists, EdgesBelow, RowEdges, Missing, NodeEdges, Indexed, Met, KnownKey;
    var deps := nodes[i].spec.dependsOn;
    var seen: set<nat> := {};
    NoRow(nodes, i);
    NoneMet(nodes, index, deps);
    for k := 0 to |deps|
      invariant Met(nodes, index, deps[..k], seen)
      invariant Degrees(EdgesBelow(nodes, i) + RowEdges(nodes, i, k), [], indegree[..])
      invariant Lists(EdgesBelow(nodes, i) + RowEdges(nodes, i, k), children[..])
    {
      KnownIsIndexed(nodes, index, deps[k]);
      if deps[k] !in index {
        return false;
      }
      var parent := index[deps[k]];
      MeetOne(nodes, index, deps[..k], seen, deps[k]);
      if parent in seen {
        var a :| 0 <= a < k && deps[a] == deps[k];
        return false;
      }
      RowGrows(nodes, index, i, k);
      AddEdge(EdgesBelow(nodes, i) + RowEdges(nodes, i, k), indegree[..], children[..], i, parent);
      seen := seen + {parent};
      ghost var before, lists := indegree[..], children[..];
      children[parent] := children[parent] + [i];
      indegree[i] := indegree[i] + 1;
      assert indegree[..] == before[i := before[i] + 1] && children[..] == lists[parent := lists[parent] + [i]];
      assert deps[..k + 1] == deps[..k] + [deps[k]];
    }
    assert deps[..|deps|] == deps;
    AllMet(nodes, index, deps, seen);
    BelowGrows(nodes, i);
    ok := true;
  }

  /** The dependencies read so far are known and distinct, and `seen` holds their places. */
  ghost predicate Met(nodes: seq<Node>, index: map<string, nat>, deps: seq<string>, seen: set<nat>) {
    && (forall d :: d in deps ==> d in index) && DistinctStrings(deps)
    && (forall p: nat :: p in seen <==> p < |nodes| && nodes[p].key in deps)
  }

  lemma NoneMet(nodes: seq<Node>, index: map<string, nat>, deps: seq<string>)
    ensures Met(nodes, index, deps[..0], {})
  {
  }

  lemma KnownIsIndexed(nodes: seq<Node>, index: map<string, nat>, d: string)
    requires Indexed(nodes, |nodes|, index)
    ensures KnownKey(nodes, d) <==> d in index
    ensures d in index ==> index[d] < |nodes|
  {
  }

  lemma MeetOne(nodes: seq<Node>, index: map<string, nat>, deps: seq<string>, seen: set<nat>, d: string)
    requires Indexed(nodes, |nodes|, index) && Met(nodes, index, deps, seen) && d in index
    ensures index[d] in seen <==> d in deps
    ensures d !in deps ==> Met(nodes, index, deps + [d], seen + {index[d]})
  {
    forall p: nat ensures p in seen + {index[d]} <==> p < |nodes| && nodes[p].key in deps + [d] { }
  }

  lemma AllMet(nodes: seq<Node>, index: map<string, nat>, deps: seq<string>, seen: set<nat>)
    requires Indexed(nodes, |nodes|, index) && Met(nodes, index, deps, seen)
    ensures DistinctStrings(deps) && forall d :: d in deps ==> KnownKey(nodes, d)
  {
    hide KnownKey;
    forall d | d in deps ensures KnownKey(nodes, d) { KnownIsIndexed(nodes, index, d); }
  }

  lemma NoRow(nodes: seq<Node>, i: nat)
    requires i < |nodes|
    ensures EdgesBelow(nodes, i) + RowEdges(nodes, i, 0) == EdgesBelow(nodes, i)
  {
  }

  // -------------------------------------------------------------------------- the queue

  ghost function AllNodes(n: nat): (r: set<nat>)
    ensures |r| == n && forall x: nat :: x in r <==> x < n
  {
    if n == 0 then {} else AllNodes(n - 1) + {n - 1}
  }

  ghost predicate Queued(edges: set<Edge<nat>>, n: nat, order: seq<nat>, queue: seq<nat>) {
    && InOrder(AllNodes(n), edges, order)
    && (forall i, j :: 0 <= i < j < |queue| ==> queue[i] != queue[j])
    && (forall x: nat :: x in queue <==> x in Available(AllNodes(n), edges, order))
  }

  /** Between taking `node` off the queue and having visited all its children. */
  ghost predicate Releasing(
      edges: set<Edge<nat>>, n: nat, order: seq<nat>, node: nat, released: seq<nat>, queue: seq<nat>,
      indegree: seq<int>) {
    && |indegree| == n
    && (forall x: nat :: x < n ==> indegree[x] == |Missing(edges, x, order)| - (if x in released then 1 else 0))
    && (forall i, j :: 0 <= i < j < |queue| ==> queue[i] != queue[j])
    && (forall x: nat :: x in queue <==>
          (x in Available(AllNodes(n), edges, order) && x != node) || (x in released && Missing(edges, x, order + [node]) == {}))
  }

  lemma TakeHead(edges: set<Edge<nat>>, n: nat, order: seq<nat>, queue: seq<nat>, indegree: seq<int>)
    requires queue != [] && Queued(edges, n, order, queue) && |indegree| == n && Degrees(edges, order, indegree)
    ensures Releasing(edges, n, order, queue[0], [], queue[1..], indegree)
    ensures queue[0] in Available(AllNodes(n), edges, order)
  {
    hide Missing, InOrder;
    var rest := queue[1..];
    assert queue[0] in queue;
    assert forall i :: 0 <= i < |rest| ==> rest[i] == queue[i + 1];
    forall x: nat ensures x in rest <==> x in queue && x != queue[0] {
      if x in queue && x != queue[0] {
        var i :| 0 <= i < |queue| && queue[i] == x;
        assert rest[i - 1] == x;
      }
    }
  }

  lemma ReleaseOne(
      edges: set<Edge<nat>>, n: nat, order: seq<nat>, node: nat, released: seq<nat>, queue: seq<nat>,
      indegree: seq<int>, child: nat)
    requires InOrder(AllNodes(n), edges, order) && node in Available(AllNodes(n), edges, order)
    requires Releasing(edges, n, order, node, released, queue, indegree)
    requires child !in released && child < n && Edge(child, node) in edges
    ensures var less := indegree[child := indegree[child] - 1];
      Releasing(edges, n, order, node, released + [child], if less[child] == 0 then queue + [child] else queue, less)
  {
    MissingAfter(edges, child, order, node);
    assert node in Missing(edges, child, order);
    assert child !in queue;
    var less := indegree[child := indegree[child] - 1];
    assert less[child] == 0 <==> Missing(edges, child, order + [node]) == {};
  }

  lemma ReleasedAll(
      edges: set<Edge<nat>>, n: nat, order: seq<nat>, node: nat, released: seq<nat>, queue: seq<nat>,
      indegree: seq<int>)
    requires InOrder(AllNodes(n), edges, order) && node in Available(AllNodes(n), edges, order)
    requires forall e :: e in edges ==> e.child < n && e.parent < n
    requires Releasing(edges, n, order, node, released, queue, indegree)
    requires forall x: nat :: x in released <==> Edge(x, node) in edges
    ensures Degrees(edges, order + [node], indegree) && Queued(edges, n, order + [node], queue)
  {
    var more := order + [node];
    InOrderGrows(AllNodes(n), edges, order, node);
    forall x: nat | x < n ensures indegree[x] == |Missing(edges, x, more)| {
      MissingAfter(edges, x, order, node);
    }
    forall x: nat ensures x in queue <==> x in Available(AllNodes(n), edges, more) {
      MissingAfter(edges, x, order, node);
      if Edge(x, node) in edges && x in order {
        DoneBefore(AllNodes(n), edges, order, Edge(x, node));
      }
      assert x in released ==> x < n && Edge(x, node) in edges;
    }
  }

  /** Kahn's loop: every node is visited exactly when there is no cycle. */
  method VisitAll(ghost edges: set<Edge<nat>>, indegree: array<int>, children: seq<seq<nat>>) returns (visited: nat)
    requires |children| == indegree.Length && Degrees(edges, [], indegree[..]) && Lists(edges, children)
    requires forall e :: e in edges ==> e.child < |children| && e.parent < |children|
    modifies indegree
    ensures visited == |children| <==> Acyclic(edges)
  {
    hide Missing, InOrder, Degrees, Acyclic, Releasing;
    var n := indegree.Length;
    var queue := FirstQueue(edges, indegree);
    ghost var order: seq<nat> := [];
    visited := 0;
    while |queue| > 0
      invariant Queued(edges, n, order, queue) && Degrees(edges, order, indegree[..]) && visited == |order| <= n
      decreases n - |order|
    {
      var node := queue[0];
      TakeHead(edges, n, order, queue, indegree[..]);
      queue := queue[1..];
      visited := visited + 1;
      var row := children[node];
      for k := 0 to |row|
        invariant Releasing(edges, n, order, node, row[..k], queue, indegree[..])
      {
        var child := row[k];
        assert child in row;
        assert Edge(child, node) in edges;
        ReleaseOne(edges, n, order, node, row[..k], queue, indegree[..], child);
        ghost var before := indegree[..];
        indegree[child] := indegree[child] - 1;
        assert indegree[..] == before[child := before[child] - 1];
        if indegree[child] == 0 { queue := queue + [child]; }
        assert row[..k + 1] == row[..k] + [child];
      }
      assert row[..|row|] == row;
      ReleasedAll(edges, n, order, node, row, queue, indegree[..]);
      order := order + [node];
      VisitedFit(edges, n, order);
    }
    assert Available(AllNodes(n), edges, order) == {} by {
      assert forall x: nat :: x in queue <==> x in Available(AllNodes(n), edges, order);
    }
    KahnEnds(AllNodes(n), edges, order);
  }

  lemma VisitedFit(edges: set<Edge<nat>>, n: nat, order: seq<nat>)
    requires InOrder(AllNodes(n), edges, order)
    ensures |order| <= n
  {
    DistinctCount(AllNodes(n), order);
  }

  method FirstQueue(ghost edges: set<Edge<nat>>, indegree: array<int>) returns (queue: seq<nat>)
    requires Degrees(edges, [], indegree[..])
    ensures Queued(edges, indegree.Length, [], queue)
  {
    hide Missing;
    queue := [];
    for i := 0 to indegree.Length
      invariant forall x: nat :: x in queue <==> x < i && indegree[x] == 0
      invariant forall a, b :: 0 <= a < b < |queue| ==> queue[a] != queue[b]
    {
      if indegree[i] == 0 { queue := queue + [i]; }
    }
    assert forall x: nat :: x < indegree.Length ==> indegree[..][x] == |Missing(edges, x, [])|;
  }

  // ------------------------------------------------------------------------ all together

  lemma NothingCounted(nodes: seq<Node>, indegree: seq<int>, children: seq<seq<nat>>)
    requires (forall x :: 0 <= x < |indegree| ==> indegree[x] == 0) && (forall p :: 0 <= p < |children| ==> children[p] == [])
    ensures Degrees(EdgesBelow(nodes, 0), [], indegree) && Lists(EdgesBelow(nodes, 0), children)
  {
    assert EdgesBelow(nodes, 0) == {};
    forall x: nat | x < |indegree| ensures |Missing({}, x, [])| == 0 {
      assert Missing<nat>({}, x, []) == {};
    }
  }

  lemma AllBelow(nodes: seq<Node>)
    ensures EdgesBelow(nodes, |nodes|) == NodeEdges(nodes)
    ensures forall e :: e in NodeEdges(nodes) ==> e.child < |nodes| && e.parent < |nodes|
  {
  }

  lemma ValidByNode(cfg: Config, tenant: string, nodes: seq<Node>)
    requires nodes != [] && (forall i :: 0 <= i < |nodes| ==> !Blank(nodes[i].key))
    requires forall i, j :: 0 <= i < j < |nodes| ==> nodes[i].key != nodes[j].key
    ensures NodesValid(cfg, tenant, nodes) <==> forall i :: 0 <= i < |nodes| ==> NodeFine(cfg, tenant, nodes, i)
  {
    hide NodeSpec, JobSpec.Valid, DistinctStrings, KnownKey, Blank;
    if NodesValid(cfg, tenant, nodes) {
      forall i | 0 <= i < |nodes| ensures NodeFine(cfg, tenant, nodes, i) {
        assert nodes[i].spec.dependsOn == nodes[i].spec.dependsOn;
      }
    }
    if forall i :: 0 <= i < |nodes| ==> NodeFine(cfg, tenant, nodes, i) {
      forall i | 0 <= i < |nodes|
        ensures NodeSpec(tenant, nodes[i]).Valid(cfg.maxCost, cfg.allowShell) && DistinctStrings(nodes[i].spec.dependsOn)
        ensures forall d :: d in nodes[i].spec.dependsOn ==> KnownKey(nodes, d)
      {
        assert NodeFine(cfg, tenant, nodes, i);
      }
    }
  }

  /** validateWorkflow accepts exactly the valid acyclic workflows and reports a cycle exactly when the
      nodes are otherwise valid. */
  method ValidateWorkflow(cfg: Config, tenant: string, nodes: seq<Node>) returns (r: Result<(), StoreError>)
    ensures r.Ok? <==> NodesValid(cfg, tenant, nodes) && Acyclic(NodeEdges(nodes))
    ensures r == Err(CycleDetected) <==> NodesValid(cfg, tenant, nodes) && !Acyclic(NodeEdges(nodes))
    ensures r.Err? ==> r.error in {BadRequest, CycleDetected}
  {
    hide NodeSpec, JobSpec.Valid, DistinctStrings, KnownKey, Blank, Degrees, Lists, Acyclic, EdgesBelow, NodeEdges;
    if |nodes| == 0 { return Err(BadRequest); }
    var indexed := IndexKeys(nodes);
    if indexed.Err? { return Err(BadRequest); }
    ValidByNode(cfg, tenant, nodes);
    var indegree := new int[|nodes|](_ => 0);
    var children := new seq<nat>[|nodes|](_ => []);
    NothingCounted(nodes, indegree[..], children[..]);
    for i := 0 to |nodes|
      invariant forall j :: 0 <= j < i ==> NodeFine(cfg, tenant, nodes, j)
      invariant Degrees(EdgesBelow(nodes, i), [], indegree[..]) && Lists(EdgesBelow(nodes, i), children[..])
    {
      if !NodeSpec(tenant, nodes[i]).Valid(cfg.maxCost, cfg.allowShell) {
        assert !NodeFine(cfg, tenant, nodes, i);
        return Err(BadRequest);
      }
      var ok := CountRow(nodes, indexed.value, i, indegree, children);
      if !ok {
        assert !NodeFine(cfg, tenant, nodes, i);
        return Err(BadRequest);
      }
    }
    AllBelow(nodes);
    var visited := VisitAll(NodeEdges(nodes), indegree, children[..]);
    if visited != |nodes| { return Err(CycleDetected); }
    r := Ok(());
  }
}
