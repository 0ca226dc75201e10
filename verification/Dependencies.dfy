/** Dependency gating: who may become ready, and what a failure takes down. */
module Dependencies {
  import opened Graphs
  import opened Domain
  import opened Database

  ghost predicate Grounded(jobs: map<string, Job>, deps: set<Edge<string>>) {
    forall e :: e in deps ==> e.child in jobs && e.parent in jobs
  }

  /** No unfinished job has a failed parent. */
  ghost predicate Gated(jobs: map<string, Job>, deps: set<Edge<string>>) {
    forall e :: e in deps && e.child in jobs && e.parent in jobs && jobs[e.parent].state.Unsuccessful() ==>
        jobs[e.child].state.Terminal()
  }

  /** The job is or was schedulable. */
  predicate Begun(job: Job) {
    job.readySeq > 0 || job.attemptNo > 0 || job.state.Succeeded?
  }

  /** Jobs begin only after all their parents succeeded. */
  ghost predicate Cleared(jobs: map<string, Job>, deps: set<Edge<string>>) {
    forall e :: e in deps && e.child in jobs && e.parent in jobs && Begun(jobs[e.child]) ==> jobs[e.parent].state.Succeeded?
  }

  // ------------------------------------------------------------------- consequences

  /** With jobs left to do, some job waits for nothing: dependencies cannot deadlock. */
  lemma NoDeadlock(jobs: map<string, Job>, deps: set<Edge<string>>, id: string) returns (next: string)
    requires Grounded(jobs, deps) && Acyclic(deps) && Gated(jobs, deps)
    requires id in jobs && !jobs[id].state.Terminal()
    ensures next in jobs && !jobs[next].state.Terminal()
    ensures forall e :: e in deps && e.child == next ==> jobs[e.parent].state.Succeeded?
  {
    var open := set j | j in jobs && !jobs[j].state.Terminal();
    assert id in open;
    if forall j :: j in open ==> Waits(deps, open, j) {
      StuckHasCycle(deps, open);
    }
    next :| next in open && !Waits(deps, open, next);
    forall e | e in deps && e.child == next ensures jobs[e.parent].state.Succeeded? {
      assert e == Edge(next, e.parent);
    }
  }

  /** Every ancestor of a job that has begun succeeded. */
  lemma {:induction false} AncestorsSucceeded(jobs: map<string, Job>, deps: set<Edge<string>>, p: seq<string>)
    requires Grounded(jobs, deps) && Cleared(jobs, deps) && Walk(deps, p) && |p| > 1
    requires p[|p| - 1] in jobs && Begun(jobs[p[|p| - 1]])
    ensures p[0] in jobs && jobs[p[0]].state.Succeeded?
    decreases |p|
  {
    var e := Edge(p[|p| - 1], p[|p| - 2]);
    assert e in deps;
    if |p| > 2 {
      AncestorsSucceeded(jobs, deps, p[..|p| - 1]);
    }
  }

  /** So nothing that begun depends on a job that has not succeeded. */
  lemma BegunAbove(jobs: map<string, Job>, deps: set<Edge<string>>, root: string, id: string)
    requires Grounded(jobs, deps) && Cleared(jobs, deps) && Reaches(deps, root, id)
    requires root in jobs && !jobs[root].state.Succeeded? && id in jobs
    ensures !Begun(jobs[id])
  {
    if Begun(jobs[id]) {
      var p :| Connects(deps, p, root, id);
      AncestorsSucceeded(jobs, deps, p);
    }
  }

  // ---------------------------------------------------------------------- preservation

  lemma GatedMove(jobs: map<string, Job>, deps: set<Edge<string>>, id: string, job: Job)
    requires Gated(jobs, deps) && id in jobs && !jobs[id].state.Terminal() && !job.state.Unsuccessful()
    ensures Gated(jobs[id := job], deps)
  {
  }

  lemma ClearedMove(jobs: map<string, Job>, deps: set<Edge<string>>, id: string, job: Job)
    requires Cleared(jobs, deps) && Acyclic(deps) && id in jobs && !jobs[id].state.Terminal()
    requires Begun(job) ==>
        Begun(jobs[id]) || forall e :: e in deps && e.child == id && e.parent in jobs ==> jobs[e.parent].state.Succeeded?
    ensures Cleared(jobs[id := job], deps)
  {
    var moved := jobs[id := job];
    forall e | e in deps && e.child in moved && e.parent in moved && Begun(moved[e.child])
      ensures moved[e.parent].state.Succeeded?
    {
      if e.child == e.parent {
        assert e == Edge(e.parent, e.parent);
        EdgeReaches(deps, e.parent, e.parent);
      }
      if e.child != id {
        assert jobs[e.parent].state.Succeeded?;
      }
    }
  }

  /** A failed job, once all its unfinished descendants are dead letters too, blocks nobody. */
  lemma GatedAfterFailure(before: map<string, Job>, after: map<string, Job>, deps: set<Edge<string>>, root: string)
    requires Gated(before, deps) && root in before && before.Keys == after.Keys
    requires forall j :: j in after && j != root && !Reaches(deps, root, j) ==> after[j] == before[j]
    requires forall j :: j in after && Reaches(deps, root, j) ==> after[j].state.Terminal()
    requires after[root].state.Terminal()
    ensures Gated(after, deps)
  {
    forall e | e in deps && e.child in after && e.parent in after && after[e.parent].state.Unsuccessful()
      ensures after[e.child].state.Terminal()
    {
      assert e == Edge(e.child, e.parent);
      if e.parent == root {
        EdgeReaches(deps, root, e.child);
      } else if Reaches(deps, root, e.parent) {
        ReachesChild(deps, root, e.parent, e.child);
      }
    }
  }

  // -------------------------------------------------------------------------- admission

  /** A new job depends on existing jobs only, so it closes no cycle. */
  lemma LeafAcyclic(deps: set<Edge<string>>, known: set<string>, id: string, parents: set<string>)
    requires Acyclic(deps) && id !in known && parents <= known
    requires forall e :: e in deps ==> e.child in known && e.parent in known
    ensures Acyclic(deps + EdgesTo(id, parents))
  {
    var all := deps + EdgesTo(id, parents);
    forall x ensures !Reaches(all, x, x) {
      if Reaches(all, x, x) { LeafCycle(deps, known, id, parents, x); }
    }
  }

  lemma LeafCycle(deps: set<Edge<string>>, known: set<string>, id: string, parents: set<string>, x: string)
    requires id !in known && parents <= known
    requires forall e :: e in deps ==> e.child in known && e.parent in known
    requires Reaches(deps + EdgesTo(id, parents), x, x)
    ensures Reaches(deps, x, x)
  {
    var all := deps + EdgesTo(id, parents);
    var p :| Connects(all, p, x, x);
    forall i | 0 <= i < |p| - 1 ensures p[i] != id {
      assert Edge(p[i + 1], p[i]) in all;
    }
    forall i | 0 <= i < |p| - 1 ensures Edge(p[i + 1], p[i]) in deps {
      assert Edge(p[i + 1], p[i]) in all;
      assert p[i + 1] != id;
    }
    assert Connects(deps, p, x, x);
  }

  /** Two graphs over disjoint nodes: a walk stays in one of them. */
  lemma {:induction false} WalkStays(a: set<Edge<string>>, b: set<Edge<string>>, known: set<string>, p: seq<string>)
    requires forall e :: e in a ==> e.child in known && e.parent in known
    requires forall e :: e in b ==> e.child !in known && e.parent !in known
    requires Walk(a + b, p)
    ensures p[0] in known ==> Walk(a, p) && p[|p| - 1] in known
    ensures p[0] !in known ==> Walk(b, p) && p[|p| - 1] !in known
    decreases |p|
  {
    if |p| > 1 {
      var q := p[..|p| - 1];
      WalkStays(a, b, known, q);
      assert Edge(p[|p| - 1], p[|p| - 2]) in a + b;
      assert q[|q| - 1] == p[|p| - 2];
      forall i | 0 <= i < |p| - 1
        ensures p[0] in known ==> Edge(p[i + 1], p[i]) in a
        ensures p[0] !in known ==> Edge(p[i + 1], p[i]) in b
      {
        if i < |q| - 1 { assert q[i] == p[i] && q[i + 1] == p[i + 1]; }
      }
    }
  }

  lemma UnionAcyclic(a: set<Edge<string>>, b: set<Edge<string>>, known: set<string>)
    requires Acyclic(a) && Acyclic(b)
    requires forall e :: e in a ==> e.child in known && e.parent in known
    requires forall e :: e in b ==> e.child !in known && e.parent !in known
    ensures Acyclic(a + b)
  {
    forall x ensures !Reaches(a + b, x, x) {
      if Reaches(a + b, x, x) { CycleStays(a, b, known, x); }
    }
  }

  lemma CycleStays(a: set<Edge<string>>, b: set<Edge<string>>, known: set<string>, x: string)
    requires forall e :: e in a ==> e.child in known && e.parent in known
    requires forall e :: e in b ==> e.child !in known && e.parent !in known
    requires Reaches(a + b, x, x)
    ensures Reaches(a, x, x) || Reaches(b, x, x)
  {
    var p :| Connects(a + b, p, x, x);
    WalkStays(a, b, known, p);
    assert Connects(a, p, x, x) || Connects(b, p, x, x);
  }

  /** Renaming nodes injectively creates no cycle. */
  lemma {:induction false} RenamedWalk(
      edges: set<Edge<nat>>, named: set<Edge<string>>, ids: nat -> string, n: nat,
      p: seq<string>) returns (q: seq<nat>)
    requires forall e :: e in edges ==> e.child < n && e.parent < n
    requires forall e :: e in named ==> exists f :: f in edges && e == Edge(ids(f.child), ids(f.parent))
    requires forall i: nat, j: nat :: i < n && j < n && ids(i) == ids(j) ==> i == j
    requires Walk(named, p) && |p| > 1
    ensures Walk(edges, q) && |q| == |p| && forall i :: 0 <= i < |p| ==> q[i] < n && p[i] == ids(q[i])
    decreases |p|
  {
    var e := Edge(p[|p| - 1], p[|p| - 2]);
    assert e in named;
    var f :| f in edges && e == Edge(ids(f.child), ids(f.parent));
    if |p| == 2 {
      q := [f.parent, f.child];
    } else {
      var q0 := RenamedWalk(edges, named, ids, n, p[..|p| - 1]);
      assert q0[|q0| - 1] == f.parent;
      q := q0 + [f.child];
      forall i | 0 <= i < |q| - 1 ensures Edge(q[i + 1], q[i]) in edges {
        if i == |q| - 2 { assert f == Edge(q[i + 1], q[i]); }
      }
    }
  }

  lemma RenamedAcyclic(edges: set<Edge<nat>>, named: set<Edge<string>>, ids: nat -> string, n: nat)
    requires Acyclic(edges)
    requires forall e :: e in edges ==> e.child < n && e.parent < n
    requires forall e :: e in named ==> exists f :: f in edges && e == Edge(ids(f.child), ids(f.parent))
    requires forall i: nat, j: nat :: i < n && j < n && ids(i) == ids(j) ==> i == j
    ensures Acyclic(named)
  {
    forall x ensures !Reaches(named, x, x) {
      if Reaches(named, x, x) { RenamedCycle(edges, named, ids, n, x); }
    }
  }

  lemma RenamedCycle(edges: set<Edge<nat>>, named: set<Edge<string>>, ids: nat -> string, n: nat, x: string)
    requires forall e :: e in edges ==> e.child < n && e.parent < n
    requires forall e :: e in named ==> exists f :: f in edges && e == Edge(ids(f.child), ids(f.parent))
    requires forall i: nat, j: nat :: i < n && j < n && ids(i) == ids(j) ==> i == j
    requires Reaches(named, x, x)
    ensures exists y :: Reaches(edges, y, y)
  {
    var p :| Connects(named, p, x, x);
    var q := RenamedWalk(edges, named, ids, n, p);
    assert Connects(edges, q, q[0], q[0]);
    assert Reaches(edges, q[0], q[0]);
  }
}
