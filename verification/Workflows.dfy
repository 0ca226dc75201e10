/** Submitting a workflow keeps the store consistent: all its jobs arrive together with edges that
    close no cycle. */
module Workflows {
  import opened Graphs
  import opened Domain
  import opened Database
  import opened Transactions
  import opened Accounts
  import opened Ledger
  import opened Journal
  import opened Fencing
  import opened Lifetime
  import opened Dependencies
  import opened Invariant
  import opened Steps
  import opened Preservation
  import opened Admission
  import DecisionLog

  lemma RoomAfter(db: Db, r: Db, tenant: string, id: string, job: Job, m: nat)
    requires Roomy(db, tenant, m + 1) && id !in db.jobs && r.jobs == db.jobs[id := job] && r.tenants == db.tenants
    ensures Roomy(r, tenant, m)
  {
    assert OpenJobs(r.jobs, tenant) <= OpenJobs(db.jobs, tenant) + {id};
    SubsetSize(OpenJobs(r.jobs, tenant), OpenJobs(db.jobs, tenant) + {id});
  }

  /** One node: a pending job without dependencies yet, ready only if it will have none. */
  ghost predicate NodeAdmitted(db: Db, r: Db, tenant: string, node: Node, id: string) {
    && id !in db.jobs && id in r.jobs && r.jobs == db.jobs[id := r.jobs[id]]
    && r.jobs[id].state.Pending? && (node.spec.dependsOn != [] ==> !Begun(r.jobs[id]))
    && r.deps == db.deps && r.requests == db.requests && tenant in r.tenants
  }

  lemma NodeFits(cfg: Config, db: Db, tenant: string, node: Node, now: int)
    requires NodeSpec(tenant, node).Valid(cfg.maxCost, cfg.allowShell) && tenant != ""
    ensures var job := NodeJob(db, tenant, node, now);
      && WellFormed(job) && Fresh(job) && job.state.Pending? && (node.spec.dependsOn != [] ==> !Begun(job))
      && job.tenant == tenant && job.queue == NodeSpec(tenant, node).queue
  {
  }

  lemma AdmitNodeKeeps(cfg: Config, db: Db, tenant: string, node: Node, id: string, m: nat, now: int)
    requires Consistent(db) && NodeSpec(tenant, node).Valid(cfg.maxCost, cfg.allowShell)
    requires tenant != "" && Roomy(db, tenant, m + 1)
    ensures var r := AdmitNode(db, tenant, node, id, now);
      if r.Ok? then Kept(db, r.value, now) && NodeAdmitted(db, r.value, tenant, node, id) && Roomy(r.value, tenant, m)
      else r.error in {NoId, IdTaken}
  {
    hide Consistent, Kept, Evolves, Orderly, Admit, NodeSpec, NodeJob, JobSpec.Valid, WellFormed, EnsureQueue, Stamp,
      Roomy, OpenJobs;
    var spec := NodeSpec(tenant, node);
    var ready := spec.dependsOn == [] && AvailableAt(spec, now) <= now;
    var queued := EnsureQueue(db, tenant, spec.queue);
    var s := Stamp(queued, ready);
    QueueReady(db, tenant, spec.queue, ready, m + 1);
    EnsureKeeps(cfg, db, tenant, spec.queue, ready, now);
    KeptConsistent(db, queued, now);
    EnsureKeeps(cfg, queued, tenant, spec.queue, ready, now);
    KeptChain(db, queued, s, now);
    KeptConsistent(queued, s, now);
    NodeFits(cfg, db, tenant, node, now);
    var job := NodeJob(db, tenant, node, now);
    AdmitKeeps(s, id, job, {}, now);
    var r := Admit(s, id, job, {}, now);
    if r.Ok? {
      KeptChain(db, s, r.value, now);
      RoomAfter(s, r.value, tenant, id, job, m);
    }
  }

  lemma QueueReady(db: Db, tenant: string, queue: string, ready: bool, m: nat)
    requires Roomy(db, tenant, m)
    ensures var s := Stamp(EnsureQueue(db, tenant, queue), ready);
      Prepared(db, s, tenant, queue) && Roomy(s, tenant, m) && (m >= 1 ==> Roomy(s, tenant, 1)) && s.tenants == db.tenants
  {
    hide OpenJobs;
  }

  ghost predicate NodesAdmitted(db: Db, r: Db, nodes: seq<Node>, ids: nat -> string) {
    && r.deps == db.deps && r.requests == db.requests
    && (forall j :: j in r.jobs <==> j in db.jobs || NamesNode(ids, |nodes|, j))
    && (forall j :: j in db.jobs ==> r.jobs[j] == db.jobs[j])
    && (forall i: nat {:trigger ids(i)} :: i < |nodes| ==>
          ids(i) in r.jobs && NodeWaits(nodes[i], r.jobs[ids(i)]) && ids(i) !in db.jobs)
    && (forall i: nat, j: nat :: i < j < |nodes| ==> ids(i) != ids(j))
  }

  ghost predicate NodeWaits(node: Node, job: Job) {
    job.state.Pending? && (node.spec.dependsOn != [] ==> !Begun(job))
  }

  ghost predicate NamesNode(ids: nat -> string, n: nat, j: string) {
    exists i: nat :: i < n && ids(i) == j
  }

  lemma NodesGrow(db: Db, before: Db, r: Db, tenant: string, nodes: seq<Node>, ids: nat -> string)
    requires nodes != [] && NodesAdmitted(db, before, nodes[..|nodes| - 1], ids)
    requires NodeAdmitted(before, r, tenant, nodes[|nodes| - 1], ids(|nodes| - 1))
    ensures NodesAdmitted(db, r, nodes, ids)
  {
    hide Begun;
    var n, init := |nodes| - 1, nodes[..|nodes| - 1];
    forall j ensures NamesNode(ids, |nodes|, j) <==> NamesNode(ids, n, j) || j == ids(n) {
    }
    forall i: nat | i < |nodes| ensures ids(i) in r.jobs && NodeWaits(nodes[i], r.jobs[ids(i)]) && ids(i) !in db.jobs {
      if i < n { assert init[i] == nodes[i]; }
    }
    forall i: nat, j: nat | i < j < |nodes| ensures ids(i) != ids(j) {
      assert i < n ==> ids(i) in before.jobs;
    }
  }

  lemma {:induction false} AdmitNodesKeeps(
      cfg: Config, db: Db, tenant: string, nodes: seq<Node>, ids: nat -> string, m: nat, now: int)
    requires Consistent(db) && tenant != "" && Roomy(db, tenant, |nodes| + m)
    requires forall i :: 0 <= i < |nodes| ==> NodeSpec(tenant, nodes[i]).Valid(cfg.maxCost, cfg.allowShell)
    ensures var r := AdmitNodes(db, tenant, nodes, ids, now);
      if r.Ok? then Kept(db, r.value, now) && NodesAdmitted(db, r.value, nodes, ids) && Roomy(r.value, tenant, m)
      else r.error in {NoId, IdTaken}
    decreases |nodes|
  {
    hide Consistent, Kept, Evolves, Orderly, AdmitNode, NodeSpec, JobSpec.Valid, NodesAdmitted, NodeAdmitted, Roomy;
    if nodes == [] {
      KeptReflexive(db, now);
      NoneAdmitted(db, ids);
    } else {
      var n, init := |nodes| - 1, nodes[..|nodes| - 1];
      AdmitNodesKeeps(cfg, db, tenant, init, ids, m + 1, now);
      var before := AdmitNodes(db, tenant, init, ids, now);
      if before.Ok? {
        KeptConsistent(db, before.value, now);
        AdmitNodeKeeps(cfg, before.value, tenant, nodes[n], ids(n), m, now);
        var r := AdmitNode(before.value, tenant, nodes[n], ids(n), now);
        if r.Ok? {
          KeptChain(db, before.value, r.value, now);
          NodesGrow(db, before.value, r.value, tenant, nodes, ids);
        }
      }
    }
  }

  lemma NoneAdmitted(db: Db, ids: nat -> string)
    ensures NodesAdmitted(db, db, [], ids)
  {
  }

  // --------------------------------------------------------------------------- the edges

  /** Only the graph conditions read the dependency table. */
  lemma DepsSound(db: Db, deps: set<Edge<string>>)
    requires Sound(db) && Grounded(db.jobs, deps) && Acyclic(deps)
    ensures Sound(db.(deps := deps))
  {
    hide TenantsBalanced, QueuesBalanced, DepthBounded, Housed, CompletionsMatch, DeadLettersMatch, Consecutive, Tells,
      LifetimesBounded, BackoffKept, Fenced, Acyclic, Grounded, DecisionLog.Recorded;
  }

  lemma NodeEdgesNamed(nodes: seq<Node>, ids: nat -> string, e: Edge<string>) returns (i: nat, k: nat)
    requires e in JobEdges(NodeEdges(nodes), ids)
    ensures i < |nodes| && k < |nodes| && e == Edge(ids(i), ids(k)) && nodes[i].spec.dependsOn != []
  {
    var f :| f in NodeEdges(nodes) && e == Edge(ids(f.child), ids(f.parent));
    i, k := f.child, f.parent;
  }

  lemma LinkedGates(db: Db, r: Db, nodes: seq<Node>, ids: nat -> string)
    requires Grounded(r.jobs, r.deps) && NodesAdmitted(db, r, nodes, ids)
    ensures var all := r.deps + JobEdges(NodeEdges(nodes), ids);
      && Grounded(r.jobs, all)
      && (Gated(r.jobs, r.deps) ==> Gated(r.jobs, all))
      && (Cleared(r.jobs, r.deps) ==> Cleared(r.jobs, all))
      && (forall e :: e in all && e.child in db.jobs ==> e in r.deps)
  {
    hide JobEdges, NodeEdges, Begun;
    var named := JobEdges(NodeEdges(nodes), ids);
    forall e | e in named
      ensures e.child in r.jobs && e.parent in r.jobs && !Begun(r.jobs[e.child])
      ensures r.jobs[e.parent].state.Pending? && e.child !in db.jobs
    {
      var i, k := NodeEdgesNamed(nodes, ids, e);
      assert NodeWaits(nodes[i], r.jobs[ids(i)]) && NodeWaits(nodes[k], r.jobs[ids(k)]);
    }
  }

  lemma LinkedAcyclic(db: Db, r: Db, nodes: seq<Node>, ids: nat -> string)
    requires Grounded(db.jobs, db.deps) && Acyclic(db.deps) && NodesAdmitted(db, r, nodes, ids) && Acyclic(NodeEdges(nodes))
    ensures Acyclic(r.deps + JobEdges(NodeEdges(nodes), ids))
  {
    hide Acyclic, NodeWaits, NamesNode;
    var edges, named := NodeEdges(nodes), JobEdges(NodeEdges(nodes), ids);
    RenamedAcyclic(edges, named, ids, |nodes|);
    UnionAcyclic(db.deps, named, db.jobs.Keys);
  }

  lemma LinkedEvolves(db: Db, r: Db, deps: set<Edge<string>>, now: int)
    requires Evolves(db, r, now) && r.deps <= deps && forall e :: e in deps && e.child in db.jobs ==> e in r.deps
    ensures Evolves(db, r.(deps := deps), now)
  {
    hide JobsEvolve, AttemptsEvolve, Punctual;
  }

  lemma LinkKeeps(db: Db, r: Db, nodes: seq<Node>, ids: nat -> string, now: int)
    requires Consistent(db) && Kept(db, r, now) && NodesAdmitted(db, r, nodes, ids) && Acyclic(NodeEdges(nodes))
    ensures Kept(db, r.(deps := r.deps + JobEdges(NodeEdges(nodes), ids)), now)
  {
    hide SlotsConserved, OneOutcome, Journaled, LifetimesBounded, BackoffKept, Fenced, Acyclic, Logged, Evolves,
      Gated, Cleared, NoStrays, Grounded, NodesAdmitted;
    LinkedGates(db, r, nodes, ids);
    LinkedAcyclic(db, r, nodes, ids);
    var all := r.deps + JobEdges(NodeEdges(nodes), ids);
    DepsSound(r, all);
    LinkedEvolves(db, r, all, now);
  }

  lemma WorkflowAdmits(cfg: Config, db: Db, tenant: string, w: WorkflowSubmission, ids: nat -> string, now: int)
    requires Consistent(db) && tenant != "" && NodesValid(cfg, tenant, w.nodes) && Acyclic(NodeEdges(w.nodes))
    requires EnsureAdmission(cfg, db, tenant, |w.nodes|).Ok?
    ensures var r := AdmitNodes(EnsureAdmission(cfg, db, tenant, |w.nodes|).value, tenant, w.nodes, ids, now);
      if r.Ok? then
        && Kept(db, r.value.(deps := r.value.deps + JobEdges(NodeEdges(w.nodes), ids)), now)
        && NodesAdmitted(EnsureTenant(cfg, db, tenant), r.value, w.nodes, ids)
      else r.error in {NoId, IdTaken}
  {
    hide Consistent, Kept, Evolves, Orderly, AdmitNodes, NodeSpec, JobSpec.Valid, NodesAdmitted, Acyclic, NodeEdges, JobEdges;
    var ensured := EnsureTenant(cfg, db, tenant);
    EnsureKeeps(cfg, db, tenant, "", false, now);
    KeptConsistent(db, ensured, now);
    AdmitNodesKeeps(cfg, ensured, tenant, w.nodes, ids, 0, now);
    var r := AdmitNodes(ensured, tenant, w.nodes, ids, now);
    if r.Ok? {
      LinkKeeps(ensured, r.value, w.nodes, ids, now);
      KeptChain(db, ensured, r.value.(deps := r.value.deps + JobEdges(NodeEdges(w.nodes), ids)), now);
    }
  }

  /** A workflow is admitted as a whole; a cycle among its nodes refuses it. */
  lemma WorkflowKeeps(cfg: Config, db: Db, w: WorkflowSubmission, ids: nat -> string, now: int)
    requires Consistent(db)
    ensures var r := WorkflowTx(cfg, db, w, ids, now);
      if r.Ok? then Kept(db, r.value.db, now) && (r.value.reply.duplicate ==> r.value.db == db)
      else r.error in {BadRequest, IdempotencyConflict, CycleDetected, QueueFull, NoId, IdTaken}
  {
    hide Consistent, Kept, Evolves, Orderly, AdmitNodes, EnsureAdmission, NodesValid, Acyclic, NodeEdges, JobEdges,
      Blank, NodesAdmitted;
    var tenant := if w.tenant == "" then "default" else w.tenant;
    var k := RequestKey(tenant, w.key);
    KeptReflexive(db, now);
    if k !in db.requests && NodesValid(cfg, tenant, w.nodes) && Acyclic(NodeEdges(w.nodes)) {
      var ensured := EnsureAdmission(cfg, db, tenant, |w.nodes|);
      EnsureError(cfg, db, tenant, |w.nodes|);
      if ensured.Ok? {
        WorkflowAdmits(cfg, db, tenant, w, ids, now);
        var r := AdmitNodes(ensured.value, tenant, w.nodes, ids, now);
        if r.Ok? {
          var linked := r.value.(deps := r.value.deps + JobEdges(NodeEdges(w.nodes), ids));
          NodesFound(cfg, db, r.value, tenant, w.nodes, ids);
          KeptConsistent(db, linked, now);
          var request := Request(WorkflowRequest, w.digest, NodeRows(linked, ids, |w.nodes|));
          RequestKeeps(linked, k, request, now);
          KeptChain(db, linked, linked.(requests := linked.requests[k := request]), now);
        }
      }
    }
  }

  lemma EnsureError(cfg: Config, db: Db, tenant: string, n: nat)
    ensures EnsureAdmission(cfg, db, tenant, n).Err? ==> EnsureAdmission(cfg, db, tenant, n).error.QueueFull?
  {
  }

  lemma NodesFound(cfg: Config, db: Db, r: Db, tenant: string, nodes: seq<Node>, ids: nat -> string)
    requires NodesAdmitted(EnsureTenant(cfg, db, tenant), r, nodes, ids)
    ensures (forall i: nat :: i < |nodes| ==> ids(i) in r.jobs) && r.requests == db.requests
  {
  }
}
