/** Dependency graphs: an edge says that a child waits for a parent. */
module Graphs {

  datatype Edge<T> = Edge(child: T, parent: T)

  /** A walk follows edges from parents to children. */
  ghost predicate Walk<T>(edges: set<Edge<T>>, p: seq<T>) {
    |p| > 0 && forall i :: 0 <= i < |p| - 1 ==> Edge(p[i + 1], p[i]) in edges
  }

  ghost predicate Connects<T>(edges: set<Edge<T>>, p: seq<T>, from: T, to: T) {
    Walk(edges, p) && |p| > 1 && p[0] == from && p[|p| - 1] == to
  }

  /** `to` depends on `from`, directly or through others. */
  ghost predicate Reaches<T(!new)>(edges: set<Edge<T>>, from: T, to: T) {
    exists p :: Connects(edges, p, from, to)
  }

  ghost predicate Acyclic<T(!new)>(edges: set<Edge<T>>) {
    forall x :: !Reaches(edges, x, x)
  }

  lemma EdgeReaches<T(!new)>(edges: set<Edge<T>>, from: T, to: T)
    requires Edge(to, from) in edges
    ensures Reaches(edges, from, to)
  {
    assert Connects(edges, [from, to], from, to);
  }

  lemma ReachesChild<T(!new)>(edges: set<Edge<T>>, from: T, mid: T, to: T)
    requires Reaches(edges, from, mid) && Edge(to, mid) in edges
    ensures Reaches(edges, from, to)
  {
    var p :| Connects(edges, p, from, mid);
    assert Connects(edges, p + [to], from, to);
  }

  /** Everything that depends on something is a child in some edge. */
  lemma ReachedIsChild<T(!new)>(edges: set<Edge<T>>, from: T, to: T)
    requires Reaches(edges, from, to)
    ensures exists p :: Edge(to, p) in edges && (p == from || Reaches(edges, from, p))
  {
    var p :| Connects(edges, p, from, to);
    var q := p[..|p| - 1];
    assert Edge(to, q[|q| - 1]) in edges;
    if |q| > 1 {
      assert Connects(edges, q, from, q[|q| - 1]);
    }
  }

  // ------------------------------------------------------------------ ranks

  /** A rank decreases towards the parents. */
  ghost predicate Ranks<T>(rank: map<T, nat>, edges: set<Edge<T>>) {
    forall e :: e in edges ==> e.parent in rank && e.child in rank && rank[e.parent] < rank[e.child]
  }

  ghost predicate Ranked<T(!new)>(edges: set<Edge<T>>) {
    exists rank :: Ranks(rank, edges)
  }

  lemma {:induction false} RankGrows<T>(rank: map<T, nat>, edges: set<Edge<T>>, p: seq<T>)
    requires Ranks(rank, edges) && Walk(edges, p) && |p| > 1
    ensures p[0] in rank && p[|p| - 1] in rank && rank[p[0]] < rank[p[|p| - 1]]
    decreases |p|
  {
    var q := p[..|p| - 1];
    assert Edge(p[|p| - 1], p[|p| - 2]) in edges;
    if |q| > 1 {
      RankGrows(rank, edges, q);
    }
  }

  lemma RankedAcyclic<T(!new)>(edges: set<Edge<T>>)
    requires Ranked(edges)
    ensures Acyclic(edges)
  {
    var rank :| Ranks(rank, edges);
    forall x ensures !Reaches(edges, x, x) {
      if p :| Connects(edges, p, x, x) { RankGrows(rank, edges, p); }
    }
  }

  // ----------------------------------------------------------------- cycles

  lemma {:induction false} Pigeonhole<T>(p: seq<T>, s: set<T>) returns (i: nat, j: nat)
    requires |p| > |s| && forall k :: 0 <= k < |p| ==> p[k] in s
    ensures i < j < |p| && p[i] == p[j]
    decreases |p|
  {
    var last := p[|p| - 1];
    if k :| 0 <= k < |p| - 1 && p[k] == last {
      i, j := k, |p| - 1;
    } else {
      i, j := Pigeonhole(p[..|p| - 1], s - {last});
    }
  }

  ghost predicate Waits<T(!new)>(edges: set<Edge<T>>, s: set<T>, x: T) {
    exists y :: y in s && Edge(x, y) in edges
  }

  /** Every member waits for another member. */
  ghost predicate Stuck<T(!new)>(edges: set<Edge<T>>, s: set<T>) {
    forall x {:trigger Waits(edges, s, x)} :: x in s ==> Waits(edges, s, x)
  }

  /** In a set whose every member waits for another member, one can walk forever. */
  lemma {:induction false} LongWalk<T(!new)>(edges: set<Edge<T>>, stuck: set<T>, n: nat) returns (p: seq<T>)
    requires stuck != {} && Stuck(edges, stuck)
    ensures |p| == n + 1 && Walk(edges, p) && forall k :: 0 <= k < |p| ==> p[k] in stuck
  {
    if n == 0 {
      var x :| x in stuck;
      p := [x];
    } else {
      var q := LongWalk(edges, stuck, n - 1);
      assert Waits(edges, stuck, q[0]);
      var y :| y in stuck && Edge(q[0], y) in edges;
      p := [y] + q;
      forall i | 0 <= i < |p| - 1 ensures Edge(p[i + 1], p[i]) in edges {
        if i > 0 { assert p[i] == q[i - 1] && p[i + 1] == q[i]; }
      }
    }
  }

  lemma StuckHasCycle<T(!new)>(edges: set<Edge<T>>, stuck: set<T>)
    requires stuck != {} && Stuck(edges, stuck)
    ensures !Acyclic(edges)
  {
    var p := LongWalk(edges, stuck, |stuck|);
    var i, j := Pigeonhole(p, stuck);
    var q := p[i..j + 1];
    forall k | 0 <= k < |q| - 1 ensures Edge(q[k + 1], q[k]) in edges {
      assert q[k] == p[i + k] && q[k + 1] == p[i + k + 1];
    }
    assert Connects(edges, q, p[i], p[i]);
    assert Reaches(edges, p[i], p[i]);
  }

  // ------------------------------------------------------------- descendants

  function Children<T(==)>(edges: set<Edge<T>>): (r: set<T>) {
    set e | e in edges :: e.child
  }

  /** What the recursive common table expression of failDescendants denotes. */
  ghost function Descendants<T(!new)>(edges: set<Edge<T>>, root: T): (r: set<T>)
    ensures forall x :: x in r <==> Reaches(edges, root, x)
  {
    forall x | Reaches(edges, root, x) ensures x in Children(edges) {
      ReachedIsChild(edges, root, x);
      var p :| Edge(x, p) in edges;
    }
    set x | x in Children(edges) && Reaches(edges, root, x)
  }

  /** A set closed under children holds everything reachable from its roots. */
  lemma {:induction false} ClosedHolds<T>(edges: set<Edge<T>>, root: T, s: set<T>, p: seq<T>)
    requires forall e :: e in edges && (e.parent == root || e.parent in s) ==> e.child in s
    requires Walk(edges, p) && |p| > 1 && p[0] == root
    ensures p[|p| - 1] in s
    decreases |p|
  {
    assert Edge(p[|p| - 1], p[|p| - 2]) in edges;
    if |p| > 2 {
      ClosedHolds(edges, root, s, p[..|p| - 1]);
    }
  }

  /** The fixed-point evaluation of the recursive query: each row found is expanded once. */
  method CollectDescendants<T(==,!new)>(edges: set<Edge<T>>, root: T) returns (found: set<T>)
    ensures found == Descendants(edges, root)
  {
    found := set e | e in edges && e.parent == root :: e.child;
    var frontier := found;
    forall x | x in found ensures Reaches(edges, root, x) {
      EdgeReaches(edges, root, x);
    }
    while frontier != {}
      invariant frontier <= found <= Children(edges)
      invariant forall x :: x in found ==> Reaches(edges, root, x)
      invariant forall e :: e in edges && e.parent == root ==> e.child in found
      invariant forall e :: e in edges && e.parent in found - frontier ==> e.child in found
      decreases Children(edges) - found, frontier
    {
      var x :| x in frontier;
      var newly := (set e | e in edges && e.parent == x :: e.child) - found;
      forall y | y in newly ensures Reaches(edges, root, y) && y in Children(edges) {
        var e :| e in edges && e.parent == x && e.child == y;
        assert e == Edge(y, x);
        ReachesChild(edges, root, x, y);
      }
      if newly != {} {
        var y :| y in newly;
        assert y in Children(edges) - found;
      }
      found := found + newly;
      frontier := (frontier - {x}) + newly;
    }
    forall x | Reaches(edges, root, x) ensures x in found {
      var p :| Connects(edges, p, root, x);
      ClosedHolds(edges, root, found, p);
    }
  }
}
