/** The store object: tables, clock and one method per operation.  A transaction works on a copy of the
    tables; committing replaces them, an error leaves them as they were. */
module Store {
  import opened Wrappers
  import opened Graphs
  import opened Domain
  import opened Database
  import opened Transactions
  import opened Transacting
  import opened Dispatch
  import opened WorkflowCheck
  import opened Invariant
  import opened Journal
  import opened Runs
  import opened Effects
  import Operations

  // ------------------------------------------------------------------------ submissions

  datatype Parents = Parents(allSucceeded: bool, anyFailed: bool)

  lemma {:induction false} ChecksStop(db: Db, tenant: string, deps: seq<string>, n: nat)
    requires n <= |deps| && CheckDependencies(db, tenant, deps[..n]).Err?
    ensures CheckDependencies(db, tenant, deps) == CheckDependencies(db, tenant, deps[..n])
    decreases |deps|
  {
    if n < |deps| {
      assert deps[..|deps| - 1][..n] == deps[..n];
      ChecksStop(db, tenant, deps[..|deps| - 1], n);
    } else {
      assert deps[..n] == deps;
    }
  }

  /** validateExistingDependencies. */
  method CheckParents(tx: Db, tenant: string, deps: seq<string>) returns (r: Result<Parents, StoreError>)
    ensures r.Ok? <==> CheckDependencies(tx, tenant, deps).Ok?
    ensures r.Ok? ==> r.value == Parents(AllSucceeded(tx, deps), AnyFailed(tx, deps))
    ensures r.Err? ==> CheckDependencies(tx, tenant, deps) == Err(r.error)
  {
    hide AllSucceeded, AnyFailed;
    var seen: set<string>, all, failed := {}, true, false;
    NoParents(tx);
    for n := 0 to |deps|
      invariant CheckDependencies(tx, tenant, deps[..n]).Ok? && seen == set d | d in deps[..n]
      invariant all == AllSucceeded(tx, deps[..n]) && failed == AnyFailed(tx, deps[..n])
    {
      var d := deps[n];
      assert deps[..n + 1][..n] == deps[..n] && deps[..n + 1] == deps[..n] + [d];
      assert d in seen <==> d in deps[..n];
      if d == "" || d in seen {
        ChecksStop(tx, tenant, deps, n + 1);
        return Err(BadRequest);
      }
      if d !in tx.jobs {
        ChecksStop(tx, tenant, deps, n + 1);
        return Err(NotFound);
      }
      if tx.jobs[d].tenant != tenant {
        ChecksStop(tx, tenant, deps, n + 1);
        return Err(BadRequest);
      }
      seen := seen + {d};
      ParentsGrow(tx, deps[..n], d);
      all, failed := all && tx.jobs[d].state.Succeeded?, failed || tx.jobs[d].state.Unsuccessful();
    }
    assert deps[..|deps|] == deps;
    r := Ok(Parents(all, failed));
  }

  lemma NoParents(db: Db)
    ensures AllSucceeded(db, []) && !AnyFailed(db, [])
  {
  }

  lemma ParentsGrow(db: Db, deps: seq<string>, d: string)
    requires d in db.jobs
    ensures AllSucceeded(db, deps + [d]) <==> AllSucceeded(db, deps) && db.jobs[d].state.Succeeded?
    ensures AnyFailed(db, deps + [d]) <==> AnyFailed(db, deps) || db.jobs[d].state.Unsuccessful()
  {
    assert d in deps + [d];
    forall x | x in deps ensures x in deps + [d] { }
  }

  method SubmitOne(cfg: Config, tx: Db, sub: Submission, id: string, now: int) returns (r: Reply<Accepted>)
    ensures r == SubmitTx(cfg, tx, sub, id, now)
  {
    hide Blank, JobSpec.Valid, CheckDependencies, EnsureAdmission, Admit, AllSucceeded, AnyFailed;
    var spec := sub.spec.Normalize();
    var k := RequestKey(spec.tenant, sub.key);
    if Blank(sub.key) || Blank(sub.digest) { return Err(BadRequest); }
    var found := ReadRequest(tx, k, JobRequest, sub.digest);
    if found.Err? { return Err(found.error); }
    if found.value.Some? { return Ok(Tx(tx, Accepted(found.value.value, true))); }
    if !spec.Valid(cfg.maxCost, cfg.allowShell) { return Err(BadRequest); }
    var parents := CheckParents(tx, spec.tenant, spec.dependsOn);
    if parents.Err? { return Err(parents.error); }
    var ensured := EnsureAdmission(cfg, tx, spec.tenant, 1);
    if ensured.Err? { return Err(ensured.error); }
    var queued := EnsureQueue(ensured.value, spec.tenant, spec.queue);
    var at := AvailableAt(spec, now);
    var ready := parents.value.allSucceeded && at <= now;
    var job := NewJob(spec, at, if ready then tx.readySeq + 1 else 0, now);
    if parents.value.anyFailed { job := Settled(job, DeadLetter, Some(UPSTREAM_FAILED), now); }
    assert job == SubmittedJob(tx, spec, now);
    var admitted := Admit(Stamp(queued, ready), id, job, (set d | d in spec.dependsOn), now);
    if admitted.Err? { return Err(admitted.error); }
    var rows := [Row(id, job)];
    r := Ok(Tx(admitted.value.(requests := admitted.value.requests[k := Request(JobRequest, sub.digest, rows)]),
        Accepted(rows, false)));
  }

  lemma {:induction false} AdmitNodesStop(db: Db, tenant: string, nodes: seq<Node>, n: nat, ids: nat -> string, now: int)
    requires n <= |nodes| && AdmitNodes(db, tenant, nodes[..n], ids, now).Err?
    ensures AdmitNodes(db, tenant, nodes, ids, now) == AdmitNodes(db, tenant, nodes[..n], ids, now)
    decreases |nodes|
  {
    hide AdmitNode;
    if n < |nodes| {
      assert nodes[..|nodes| - 1][..n] == nodes[..n];
      AdmitNodesStop(db, tenant, nodes[..|nodes| - 1], n, ids, now);
    } else {
      assert nodes[..n] == nodes;
    }
  }

  method AdmitEach(tx: Db, tenant: string, nodes: seq<Node>, ids: nat -> string, now: int) returns (r: Outcome)
    ensures r == AdmitNodes(tx, tenant, nodes, ids, now)
  {
    hide AdmitNode;
    var cur := tx;
    for n := 0 to |nodes|
      invariant AdmitNodes(tx, tenant, nodes[..n], ids, now) == Ok(cur)
    {
      assert nodes[..n + 1][..n] == nodes[..n];
      var next := AdmitNode(cur, tenant, nodes[n], ids(n), now);
      if next.Err? {
        AdmitNodesStop(tx, tenant, nodes, n + 1, ids, now);
        return Err(next.error);
      }
      cur := next.value;
    }
    assert nodes[..|nodes|] == nodes;
    r := Ok(cur);
  }

  /** The dependency rows of a workflow. */
  method LinkEach(nodes: seq<Node>, ids: nat -> string) returns (edges: set<Edge<string>>)
    ensures edges == JobEdges(NodeEdges(nodes), ids)
  {
    edges := {};
    for i := 0 to |nodes|
      invariant edges == set e | e in NodeEdges(nodes) && e.child < i :: Edge(ids(e.child), ids(e.parent))
    {
      var some := LinkOne(nodes, ids, i);
      edges := edges + some;
    }
  }

  method LinkOne(nodes: seq<Node>, ids: nat -> string, i: nat) returns (edges: set<Edge<string>>)
    requires i < |nodes|
    ensures edges == set e | e in NodeEdges(nodes) && e.child == i :: Edge(ids(e.child), ids(e.parent))
  {
    edges := {};
    for k := 0 to |nodes|
      invariant edges == set e | e in NodeEdges(nodes) && e.child == i && e.parent < k :: Edge(ids(e.child), ids(e.parent))
    {
      if nodes[k].key in nodes[i].spec.dependsOn {
        assert Edge(i, k) in NodeEdges(nodes);
        edges := edges + {Edge(ids(i), ids(k))};
      }
    }
  }

  method SubmitMany(cfg: Config, tx: Db, w: WorkflowSubmission, ids: nat -> string, now: int) returns (r: Reply<Accepted>)
    ensures r == WorkflowTx(cfg, tx, w, ids, now)
  {
    hide Blank, NodesValid, Acyclic, NodeEdges, JobEdges, EnsureAdmission, AdmitNodes;
    var tenant := if w.tenant == "" then "default" else w.tenant;
    var k := RequestKey(tenant, w.key);
    if Blank(w.key) || Blank(w.digest) { return Err(BadRequest); }
    var found := ReadRequest(tx, k, WorkflowRequest, w.digest);
    if found.Err? { return Err(found.error); }
    if found.value.Some? { return Ok(Tx(tx, Accepted(found.value.value, true))); }
    var valid := ValidateWorkflow(cfg, tenant, w.nodes);
    if valid.Err? { return Err(valid.error); }
    var ensured := EnsureAdmission(cfg, tx, tenant, |w.nodes|);
    if ensured.Err? { return Err(ensured.error); }
    var admitted := AdmitEach(ensured.value, tenant, w.nodes, ids, now);
    if admitted.Err? { return Err(admitted.error); }
    var edges := LinkEach(w.nodes, ids);
    var linked := admitted.value.(deps := admitted.value.deps + edges);
    var rows := if forall i: nat :: i < |w.nodes| ==> ids(i) in linked.jobs then NodeRows(linked, ids, |w.nodes|) else [];
    r := Ok(Tx(linked.(requests := linked.requests[k := Request(WorkflowRequest, w.digest, rows)]), Accepted(rows, false)));
  }

  // -------------------------------------------------------------------------- the object

  function Answer<T>(r: Reply<T>): Result<T, StoreError> {
    if r.Ok? then Ok(r.value.reply) else Err(r.error)
  }

  /** A dispatched operation commits what its transaction computes, or nothing. */
  lemma Commits(cfg: Config, s: System, a: Action, at: int, r: Outcome)
    requires Healthy(s) && Dispatched(a) && Perform(cfg, s.db, a, Max(at, s.last)) == r
    ensures Next(cfg, s, Step(a, at)) == System(if r.Ok? then r.value else s.db, Max(at, s.last))
    ensures Healthy(Next(cfg, s, Step(a, at)))
  {
    hide Healthy, Perform;
    NextHealthy(cfg, s, Step(a, at));
  }

  lemma Ignored(cfg: Config, s: System, a: Action, at: int)
    requires !Dispatched(a) && !a.Restart?
    ensures Next(cfg, s, Step(a, at)) == s
  {
    hide Perform;
  }

  /** The object keeps the store invariant, and each method is one step of a run: every theorem about
      runs is a theorem about its histories. */
  class Store {
    const cfg: Config
    var db: Db
    var last: int

    ghost function State(): System
      reads this
    {
      System(db, last)
    }

    ghost predicate Valid()
      reads this
    {
      Healthy(State())
    }

    constructor (cfg: Config)
      ensures Valid() && this.cfg == cfg && State() == BOOT
    {
      this.cfg, db, last := cfg, EMPTY, 0;
      new;
      hide Healthy;
      BootHealthy();
    }

    /** Stamps never go back while the process lives. */
    method WriteTime(at: int) returns (now: int)
      modifies this`last
      ensures now == last == Max(at, old(last))
    {
      now := if at < last then last else at;
      last := now;
    }

    method SubmitJob(sub: Submission, id: string, at: int) returns (out: Result<Accepted, StoreError>)
      requires Valid()
      modifies this
      ensures Valid() && State() == Next(cfg, old(State()), Step(Submit(sub, id), at))
      ensures out == Answer(SubmitTx(cfg, old(db), sub, id, last))
    {
      hide SubmitTx, Healthy, Next;
      ghost var s := State();
      var now := WriteTime(at);
      var r := SubmitOne(cfg, db, sub, id, now);
      Commits(cfg, s, Submit(sub, id), at, Stored(r));
      if r.Ok? { db := r.value.db; }
      out := Answer(r);
    }

    method SubmitWorkflow(w: WorkflowSubmission, ids: nat -> string, at: int) returns (out: Result<Accepted, StoreError>)
      requires Valid()
      modifies this
      ensures Valid() && State() == Next(cfg, old(State()), Step(Action.SubmitWorkflow(w, ids), at))
      ensures out == Answer(WorkflowTx(cfg, old(db), w, ids, last))
    {
      hide WorkflowTx, Healthy, Next;
      ghost var s := State();
      var now := WriteTime(at);
      var r := SubmitMany(cfg, db, w, ids, now);
      Commits(cfg, s, Action.SubmitWorkflow(w, ids), at, Stored(r));
      if r.Ok? { db := r.value.db; }
      out := Answer(r);
    }

    method Acquire(req: AcquireRequest, tokens: nat -> string, at: int) returns (out: Result<seq<Lease>, StoreError>)
      requires Valid()
      modifies this
      ensures Valid() && State() == Next(cfg, old(State()), Step(Action.Acquire(req, tokens), at))
      ensures Dispatched(Action.Acquire(req, tokens)) ==> out == Answer(AcquireTx(old(db), req, tokens, last))
      ensures !Dispatched(Action.Acquire(req, tokens)) ==>
        out == if req.worker != "" && (req.slots < 1 || req.limit < 1) then Ok([]) else Err(BadRequest)
    {
      hide AcquireTx, Healthy, Next;
      ghost var s, a := State(), Action.Acquire(req, tokens);
      if !Dispatched(a) { Ignored(cfg, s, a, at); }
      if req.worker == "" { return Err(BadRequest); }
      if req.slots < 1 || req.limit < 1 { return Ok([]); }
      if req.ttl <= 0 || req.reserve < 0 { return Err(BadRequest); }
      var now := WriteTime(at);
      var r := AcquireLeases(db, req, tokens, now);
      Commits(cfg, s, a, at, Stored(r));
      if r.Ok? { db := r.value.db; }
      out := Answer(r);
    }

    /** Succeeds exactly for the holder of a current, unexpired lease; then only that job changes. */
    method MarkRunning(worker: string, ref: LeaseRef, at: int) returns (out: Result<(), StoreError>)
      requires Valid()
      modifies this
      ensures Valid() && State() == Next(cfg, old(State()), Step(Start(worker, ref), at))
      ensures out.Ok? <==>
        && Cites(old(db), worker, ref) && old(db).jobs[ref.job].state.Active()
        && old(db).attempts[AttemptKey(ref.job, ref.attemptNo)].expiresAt > last
      ensures out.Ok? ==> OnlyMoved(old(db), db, ref.job) && ref.job in db.jobs && db.jobs[ref.job].state.Running?
      ensures out.Err? ==> db == old(db) && out.error.StaleLease?
    {
      hide StartTx, Healthy, Next;
      ghost var s := State();
      ConsistentNow(s);
      var now := WriteTime(at);
      StartEffect(db, worker, ref, now);
      Operations.StartKeeps(db, worker, ref, now);
      var r := StartOne(db, worker, ref, now);
      Commits(cfg, s, Start(worker, ref), at, r);
      if r.Err? { return Err(r.error); }
      db := r.value;
      out := Ok(());
    }

    method MarkRunningBatch(worker: string, refs: seq<LeaseRef>, at: int) returns (out: Result<seq<bool>, StoreError>)
      requires Valid()
      modifies this
      ensures Valid() && State() == Next(cfg, old(State()), Step(StartBatch(worker, refs), at))
      ensures out == if Dispatched(StartBatch(worker, refs)) then Answer(StartAll(old(db), worker, refs, last))
          else Err(BadRequest)
    {
      hide StartAll, Healthy, Next;
      ghost var s, a := State(), StartBatch(worker, refs);
      if !Dispatched(a) { Ignored(cfg, s, a, at); }
      if |refs| == 0 || |refs| > MAX_BATCH { return Err(BadRequest); }
      var now := WriteTime(at);
      var r := StartEach(db, worker, refs, now);
      Commits(cfg, s, a, at, Stored(r));
      if r.Ok? { db := r.value.db; }
      out := Answer(r);
    }

    method Heartbeat(worker: string, refs: seq<LeaseRef>, ttl: int, at: int) returns (out: Result<seq<bool>, StoreError>)
      requires Valid()
      modifies this
      ensures Valid() && State() == Next(cfg, old(State()), Step(Action.Heartbeat(worker, refs, ttl), at))
      ensures out == if ttl > 0 then Ok(BeatAll(old(db), worker, refs, ttl, last).reply) else Err(BadRequest)
    {
      hide BeatAll, Healthy, Next;
      ghost var s, a := State(), Action.Heartbeat(worker, refs, ttl);
      if !Dispatched(a) { Ignored(cfg, s, a, at); }
      if ttl <= 0 { return Err(BadRequest); }
      var now := WriteTime(at);
      var r := BeatEach(db, worker, refs, ttl, now);
      Commits(cfg, s, a, at, Ok(r.db));
      db := r.db;
      out := Ok(r.reply);
    }

    method Complete(c: Completion, at: int) returns (out: Result<Receipt, StoreError>)
      requires Valid()
      modifies this
      ensures Valid() && State() == Next(cfg, old(State()), Step(Action.Complete(c), at))
      ensures out == Answer(CompleteTx(cfg, old(db), c, last))
    {
      hide CompleteTx, Healthy, Next;
      ghost var s := State();
      var now := WriteTime(at);
      var r := ApplyCompletion(cfg, db, c, now);
      Commits(cfg, s, Action.Complete(c), at, Stored(r));
      if r.Ok? { db := r.value.db; }
      out := Answer(r);
    }

    method CompleteBatch(cs: seq<Completion>, at: int) returns (out: Result<seq<Option<Receipt>>, StoreError>)
      requires Valid()
      modifies this
      ensures Valid() && State() == Next(cfg, old(State()), Step(Action.CompleteBatch(cs), at))
      ensures out == if Dispatched(Action.CompleteBatch(cs)) then Answer(CompleteAll(cfg, old(db), cs, last)) else Err(BadRequest)
    {
      hide CompleteAll, Healthy, Next;
      ghost var s, a := State(), Action.CompleteBatch(cs);
      if !Dispatched(a) { Ignored(cfg, s, a, at); }
      if |cs| == 0 || |cs| > MAX_BATCH { return Err(BadRequest); }
      var now := WriteTime(at);
      var r := ApplyCompletions(cfg, db, cs, now);
      Commits(cfg, s, a, at, Stored(r));
      if r.Ok? { db := r.value.db; }
      out := Answer(r);
    }

    method PromoteDue(limit: int, at: int) returns (out: Result<nat, StoreError>)
      requires Valid()
      modifies this
      ensures Valid() && State() == Next(cfg, old(State()), Step(Action.PromoteDue(limit), at))
      ensures out == if limit >= 1 then Answer(PromoteTx(old(db), limit, last)) else Ok(0)
    {
      hide PromoteTx, Healthy, Next;
      ghost var s, a := State(), Action.PromoteDue(limit);
      if !Dispatched(a) { Ignored(cfg, s, a, at); }
      if limit < 1 { return Ok(0); }
      var now := WriteTime(at);
      var r := Promote(db, limit, now);
      Commits(cfg, s, a, at, Stored(r));
      if r.Ok? { db := r.value.db; }
      out := Answer(r);
    }

    method ReapExpired(limit: int, at: int) returns (out: Result<seq<ReapedLease>, StoreError>)
      requires Valid()
      modifies this
      ensures Valid() && State() == Next(cfg, old(State()), Step(Action.ReapExpired(limit), at))
      ensures out == if limit >= 1 then Answer(ReapTx(old(db), limit, last)) else Ok([])
    {
      hide ReapTx, Healthy, Next;
      ghost var s, a := State(), Action.ReapExpired(limit);
      if !Dispatched(a) { Ignored(cfg, s, a, at); }
      if limit < 1 { return Ok([]); }
      var now := WriteTime(at);
      var r := Reap(db, limit, now);
      Commits(cfg, s, a, at, Stored(r));
      if r.Ok? { db := r.value.db; }
      out := Answer(r);
    }

    method ApplyJobControl(cmd: ControlCommand, at: int) returns (out: Result<Response, StoreError>)
      requires Valid()
      modifies this
      ensures Valid() && State() == Next(cfg, old(State()), Step(Control(cmd), at))
      ensures out == Answer(ControlTx(old(db), cmd, last))
    {
      hide ControlTx, Healthy, Next;
      ghost var s := State();
      var now := WriteTime(at);
      var r := ApplyControl(db, cmd, now);
      Commits(cfg, s, Control(cmd), at, Stored(r));
      if r.Ok? { db := r.value.db; }
      out := Answer(r);
    }

    /** With a new key, success repeats a dead letter that had not been redriven and links the two. */
    method RedriveDeadLetter(cmd: CloneCommand, id: string, at: int) returns (out: Result<Response, StoreError>)
      requires Valid()
      modifies this
      ensures Valid() && State() == Next(cfg, old(State()), Step(Redrive(cmd, id), at))
      ensures out == Answer(RedriveTx(cfg, old(db), cmd, id, last))
      ensures out.Ok? && NewKey(old(db), cmd, REDRIVE) ==>
        && Repeated(old(db), db, cmd.job, id, last) && cmd.job in old(db).deadLetters && cmd.job in db.deadLetters
        && old(db).deadLetters[cmd.job].redriven.None? && db.deadLetters[cmd.job].redriven == Some(id)
    {
      hide RedriveTx, Healthy, Next, Repeated;
      ghost var s := State();
      var now := WriteTime(at);
      var r := RedriveOne(cfg, db, cmd, id, now);
      Commits(cfg, s, Redrive(cmd, id), at, Stored(r));
      if r.Err? { return Err(r.error); }
      if NewKey(db, cmd, REDRIVE) { RedriveEffect(cfg, db, cmd, id, now); }
      db := r.value.db;
      out := Ok(r.value.reply);
    }

    /** With a new key, success repeats a finished job. */
    method RetryJob(cmd: CloneCommand, id: string, at: int) returns (out: Result<Response, StoreError>)
      requires Valid()
      modifies this
      ensures Valid() && State() == Next(cfg, old(State()), Step(Retry(cmd, id), at))
      ensures out == Answer(RetryTx(cfg, old(db), cmd, id, last))
      ensures out.Ok? && NewKey(old(db), cmd, RETRY) ==>
        old(db).jobs[cmd.job].state.Terminal() && Repeated(old(db), db, cmd.job, id, last)
    {
      hide RetryTx, Healthy, Next, Repeated;
      ghost var s := State();
      var now := WriteTime(at);
      var r := RetryOne(cfg, db, cmd, id, now);
      Commits(cfg, s, Retry(cmd, id), at, Stored(r));
      if r.Err? { return Err(r.error); }
      if NewKey(db, cmd, RETRY) { RetryEffect(cfg, db, cmd, id, now); }
      db := r.value.db;
      out := Ok(r.value.reply);
    }

    /** initializeLogicalClock after the process was started again. */
    method Reopen()
      requires Valid()
      modifies this
      ensures Valid() && forall at :: State() == Next(cfg, old(State()), Step(Restart, at))
    {
      hide Stamps, Healthy, Next;
      var rest := Stamps(db);
      ghost var s, seen: set<int> := State(), {};
      var found, newest := false, 0;
      while exists x :: x in rest
        invariant seen + rest == Stamps(db) && found == (seen != {})
        invariant forall x :: x in seen ==> x <= newest
        invariant if found then newest in seen else newest == 0
        decreases |rest|
      {
        var x :| x in rest;
        if !found || x > newest { newest := x; }
        found, rest, seen := true, rest - {x}, seen + {x};
      }
      assert rest == {} && seen == Stamps(db);
      last := newest;
      forall at ensures Next(cfg, s, Step(Restart, at)) == System(s.db, Latest(Stamps(s.db))) { Restarts(cfg, s, at); }
      NextHealthy(cfg, s, Step(Restart, 0));
    }
  }

  lemma Restarts(cfg: Config, s: System, at: int)
    ensures Next(cfg, s, Step(Restart, at)) == System(s.db, Latest(Stamps(s.db)))
  {
    hide Stamps, Latest;
  }

  lemma ConsistentNow(s: System)
    requires Healthy(s)
    ensures Consistent(s.db)
  {
    hide Consistent, Timely;
  }
}
