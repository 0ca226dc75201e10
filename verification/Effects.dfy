/** What a committed transaction does, and to whom. */
module Effects {
  import opened Wrappers
  import opened Graphs
  import opened Domain
  import opened Database
  import opened Transactions
  import opened Accounts
  import opened Ledger
  import opened Journal
  import opened Fencing
  import opened Lifetime
  import opened Dependencies
  import opened Invariant
  import opened Steps
  import opened Loops
  import opened Preservation
  import opened Admission
  import opened Workflows
  import opened Runs
  import opened Planning
  import opened Acquisition
  import Operations
  import Scheduler
  import Backoff

  // ------------------------------------------------------------------------- completion

  /** The completion names an attempt and proves to hold its lease. */
  ghost predicate Presented(db: Db, c: Completion) {
    var k := AttemptKey(c.ref.job, c.ref.attemptNo);
    && k in db.attempts && c.ref.job in db.jobs
    && db.attempts[k].worker == c.worker && db.attempts[k].generation == c.ref.generation && db.attempts[k].token == c.ref.token
  }

  /** Job `j` waited only for `id`. */
  ghost predicate Freed(db: Db, j: string, id: string, now: int)
    requires j in db.jobs
  {
    && Edge(j, id) in db.deps && db.jobs[j].state.Pending? && db.jobs[j].readySeq == 0 && db.jobs[j].availableAt <= now
    && forall e :: e in db.deps && e.child == j && e.parent != id && e.parent in db.jobs ==> db.jobs[e.parent].state.Succeeded?
  }

  /** Exactly the jobs that waited only for `id` became ready. */
  ghost predicate Woke(db: Db, r: Db, id: string, now: int) {
    && r.jobs.Keys == db.jobs.Keys && r.deps == db.deps
    && forall j :: j in db.jobs && j != id ==>
        if Freed(db, j, id, now) then Readied(db.jobs[j], r.jobs[j]) else r.jobs[j] == db.jobs[j]
  }

  ghost predicate OnlyMoved(db: Db, r: Db, id: string) {
    r.jobs.Keys == db.jobs.Keys && r.deps == db.deps && forall j :: j in db.jobs && j != id ==> r.jobs[j] == db.jobs[j]
  }

  /** A retry is possible: the worker and the policy allow it and attempts are left. */
  predicate MayRetry(job: Job, c: Completion) {
    c.retryable && job.retry.retryable && job.attemptNo < job.retry.maxAttempts
  }

  /** How a completion of the current attempt ends. */
  ghost predicate Concluded(db: Db, r: Db, c: Completion, now: int)
    requires c.ref.job in db.jobs && c.ref.job in r.jobs
  {
    var before, after := db.jobs[c.ref.job], r.jobs[c.ref.job];
    && after.version == before.version + 1 && after.attemptNo == before.attemptNo && after.readySeq == 0
    && if c.success then after.state.Succeeded? && Woke(db, r, c.ref.job, now)
       else if MayRetry(before, c) then
         && after.state.Retrying? && OnlyMoved(db, r, c.ref.job) && before.attemptNo >= 1
         && now + Backoff.Shortest(before.attemptNo) <= after.availableAt <= now + Backoff.Cap(before.attemptNo)
       else after.state == (if c.retryable then DeadLetter else Failed) && TookDown(db, r, c.ref.job)
  }

  lemma RetryWindow(cfg: Config, db: Db, c: Completion, now: int)
    requires c.ref.job in db.jobs && AttemptKey(c.ref.job, c.ref.attemptNo) in db.attempts && CloseLease(cfg, db, c, now).Ok?
    requires Verdict(db.jobs[c.ref.job], c).Retrying? && c.ref.attemptNo >= 1
    ensures var r := CloseLease(cfg, db, c, now).value;
      && c.ref.job in r.jobs
      && now + Backoff.Shortest(c.ref.attemptNo) <= r.jobs[c.ref.job].availableAt <= now + Backoff.Cap(c.ref.attemptNo)
  {
    hide Exchange, Backoff.Shortest, Backoff.Cap, Backoff.ReleaseAt;
  }

  lemma WokeByActivation(db: Db, closed: Db, r: Db, id: string, now: int)
    requires OnlyMoved(db, closed, id) && id in db.jobs && closed.jobs[id].state.Succeeded?
    requires r.jobs.Keys == closed.jobs.Keys && r.deps == closed.deps
    requires forall j :: j in closed.jobs ==>
        if Activatable(closed, j, id, now) then Readied(closed.jobs[j], r.jobs[j]) else r.jobs[j] == closed.jobs[j]
    ensures Woke(db, r, id, now) && r.jobs[id] == closed.jobs[id]
  {
    hide Readied;
    forall j | j in db.jobs && j != id
      ensures Freed(db, j, id, now) <==> Activatable(closed, j, id, now)
    {
      SameWait(db, closed, j, id, now);
    }
  }

  lemma SameWait(db: Db, closed: Db, j: string, id: string, now: int)
    requires OnlyMoved(db, closed, id) && id in db.jobs && closed.jobs[id].state.Succeeded? && j in db.jobs && j != id
    ensures Freed(db, j, id, now) <==> Activatable(closed, j, id, now)
  {
    if Activatable(closed, j, id, now) {
      forall e | e in db.deps && e.child == j && e.parent != id && e.parent in db.jobs
        ensures db.jobs[e.parent].state.Succeeded?
      {
        assert closed.jobs[e.parent] == db.jobs[e.parent];
      }
    }
  }

  lemma ClosingConcludes(cfg: Config, db: Db, c: Completion, now: int)
    requires Consistent(db) && Presented(db, c) && Completable(db, c, now)
    ensures CloseLease(cfg, db, c, now).Ok?
    ensures var r := Propagate(CloseLease(cfg, db, c, now).value, c.ref.job, Verdict(db.jobs[c.ref.job], c), now);
      r.Ok? && c.ref.job in r.value.jobs && Concluded(db, r.value, c, now)
  {
    hide SlotsConserved, OneOutcome, Journaled, LifetimesBounded, BackoffKept, Fenced, Acyclic, Logged, Evolves,
      ActivateChildren, FailDescendants, NoStrays, Cleared, Gated, CloseLease, TookDown, Woke;
    var id := c.ref.job;
    CloseSound(cfg, db, c, now);
    ActiveAttempt(db, id);
    var closed := CloseLease(cfg, db, c, now).value;
    var state := Verdict(db.jobs[id], c);
    if state.Succeeded? {
      ActivateChildrenEffect(db, closed, id, now);
      WokeByActivation(db, closed, ActivateChildren(closed, id, now).value, id, now);
    } else if state.Terminal() {
      FailDescendantsEffect(db, closed, id, now);
      SameKeys(db, FailDescendants(closed, id, now).value, id);
    } else {
      RetryWindow(cfg, db, c, now);
    }
  }

  lemma SameKeys(db: Db, r: Db, root: string)
    requires TookDown(db, r, root)
    ensures r.jobs.Keys == db.jobs.Keys
  {
  }

  lemma ActiveAttempt(db: Db, id: string)
    requires Consistent(db) && id in db.jobs && db.jobs[id].state.Active()
    ensures db.jobs[id].attemptNo >= 1
  {
    hide SlotsConserved, OneOutcome, Journaled, LifetimesBounded, BackoffKept, Acyclic, Logged, Gated, Grounded;
    assert JobFits(id, db.jobs[id], db.attempts);
  }

  /** Completion: accepted exactly from the holder of the lease, either as a replay of the completion
      that closed the attempt, which changes nothing, or as the first one in time, which concludes it. */
  lemma CompleteEffect(cfg: Config, db: Db, c: Completion, now: int)
    requires Consistent(db)
    ensures var k := AttemptKey(c.ref.job, c.ref.attemptNo); var r := CompleteTx(cfg, db, c, now);
      var replay := Presented(db, c) && db.attempts[k].closing.Some? && db.attempts[k].closing.value.request == c;
      && (r.Ok? <==> replay || (Presented(db, c) && Completable(db, c, now)))
      && (r.Err? ==> r.error.StaleLease?)
      && (r.Ok? ==> (r.value.reply.duplicate <==> replay))
      && (replay ==> r.value.db == db)
      && (r.Ok? && !replay ==>
            && c.ref.job in r.value.db.jobs && Concluded(db, r.value.db, c, now)
            && r.value.reply
              == Receipt(c.ref.job, r.value.db.jobs[c.ref.job].state, r.value.db.jobs[c.ref.job].version, now, false))
  {
    hide Consistent, Concluded, Propagate, CloseLease;
    if Presented(db, c) && Completable(db, c, now) {
      OpenUnreceipted(db, AttemptKey(c.ref.job, c.ref.attemptNo));
      ClosingConcludes(cfg, db, c, now);
      ConcludedState(cfg, db, c, now);
    }
  }

  lemma ConcludedState(cfg: Config, db: Db, c: Completion, now: int)
    requires Consistent(db) && Presented(db, c) && Completable(db, c, now)
    ensures CloseLease(cfg, db, c, now).Ok?
    ensures var r := Propagate(CloseLease(cfg, db, c, now).value, c.ref.job, Verdict(db.jobs[c.ref.job], c), now);
      r.Ok? && c.ref.job in r.value.jobs
      && r.value.jobs[c.ref.job].state == Verdict(db.jobs[c.ref.job], c)
      && r.value.jobs[c.ref.job].version == db.jobs[c.ref.job].version + 1
  {
    hide Consistent, Propagate, CloseLease, Woke, TookDown, OnlyMoved, Backoff.Shortest, Backoff.Cap;
    ClosingConcludes(cfg, db, c, now);
  }

  lemma OpenUnreceipted(db: Db, k: AttemptKey)
    requires Consistent(db) && k in db.attempts && db.attempts[k].Open()
    ensures db.attempts[k].closing.None?
  {
    hide SlotsConserved, OneOutcome, Journaled, LifetimesBounded, BackoffKept, Acyclic, Logged, Gated, Grounded, JobFits;
    assert AttemptFits(k, db.attempts[k], db.jobs[k.job]);
  }

  // --------------------------------------------------------------------------- starting

  /** Starting: accepted exactly while the cited lease is current, unexpired and its job leased; the job
      then runs, and starting it again changes nothing. */
  lemma StartEffect(db: Db, worker: string, ref: LeaseRef, now: int)
    requires Consistent(db)
    ensures var k := AttemptKey(ref.job, ref.attemptNo); var r := StartTx(db, worker, ref, now);
      && (r.Ok? <==> Cites(db, worker, ref) && db.attempts[k].expiresAt > now && db.jobs[ref.job].state.Active())
      && (r.Ok? ==> OnlyMoved(db, r.value, ref.job) && r.value.jobs[ref.job].state.Running?)
      && (r.Ok? ==> StartTx(r.value, worker, ref, now) == r)
  {
    hide Consistent, StartTx;
    StartAccepts(db, worker, ref, now);
    if StartTx(db, worker, ref, now).Ok? { StartMoves(db, worker, ref, now); }
  }

  lemma LeaseStates(db: Db, id: string)
    requires Consistent(db) && id in db.jobs && Current(db, id) in db.attempts
    ensures db.jobs[id].state.Scheduled? ==> db.attempts[Current(db, id)].state.LeaseHeld?
    ensures db.jobs[id].state.Running? ==> db.attempts[Current(db, id)].state.LeaseRunning?
  {
    hide SlotsConserved, OneOutcome, Journaled, LifetimesBounded, BackoffKept, Acyclic, Logged, Gated, Grounded, AttemptFits;
    assert JobFits(id, db.jobs[id], db.attempts);
  }

  lemma StartAccepts(db: Db, worker: string, ref: LeaseRef, now: int)
    requires Consistent(db)
    ensures StartTx(db, worker, ref, now).Ok? <==>
      Cites(db, worker, ref) && db.attempts[AttemptKey(ref.job, ref.attemptNo)].expiresAt > now && db.jobs[ref.job].state.Active()
  {
    hide Consistent;
    if Cites(db, worker, ref) { LeaseStates(db, ref.job); }
  }

  lemma StartMoves(db: Db, worker: string, ref: LeaseRef, now: int)
    requires StartTx(db, worker, ref, now).Ok?
    ensures var r := StartTx(db, worker, ref, now);
      && ref.job in db.jobs && ref.job in r.value.jobs && OnlyMoved(db, r.value, ref.job)
      && r.value.jobs[ref.job].state.Running? && StartTx(r.value, worker, ref, now) == r
  {
  }

  /** Heartbeats: accepted exactly while the cited lease is current, unexpired and its job leased; the
      lease then lasts at least another `ttl` and never less than before, and nothing else changes. */
  lemma HeartbeatEffect(db: Db, worker: string, ref: LeaseRef, ttl: int, now: int)
    requires Consistent(db)
    ensures var k := AttemptKey(ref.job, ref.attemptNo); var r := Beat(db, worker, ref, ttl, now);
      var accepted := Cites(db, worker, ref) && db.attempts[k].expiresAt > now && db.jobs[ref.job].state.Active();
      && BeatAccepted(db, worker, ref, now) == accepted
      && (!accepted ==> r == db)
      && r == db.(attempts := r.attempts) && r.attempts.Keys == db.attempts.Keys
      && (forall j :: j in db.attempts && j != k ==> r.attempts[j] == db.attempts[j])
      && (accepted ==> r.attempts[k].expiresAt >= now + ttl && r.attempts[k].expiresAt >= db.attempts[k].expiresAt)
  {
    hide Consistent;
    if Cites(db, worker, ref) { LeaseStates(db, ref.job); }
  }

  // ---------------------------------------------------------------------------- batches

  /** A batch of completions is the completions one by one at one time; a stale one changes nothing and
      does not stop the rest. */
  lemma {:induction false} CompleteBatchIsFold(cfg: Config, db: Db, cs: seq<Completion>, now: int, i: nat)
    requires Consistent(db) && i < |cs|
    ensures CompleteAll(cfg, db, cs, now).Ok? && CompleteAll(cfg, db, cs[..i], now).Ok?
    ensures CompleteAll(cfg, db, cs[..i + 1], now).Ok?
    ensures |CompleteAll(cfg, db, cs, now).value.reply| == |cs|
    ensures var before := CompleteAll(cfg, db, cs[..i], now).value.db; var r := CompleteTx(cfg, before, cs[i], now);
      && CompleteAll(cfg, db, cs, now).value.reply[i] == (if r.Ok? then Some(r.value.reply) else None)
      && CompleteAll(cfg, db, cs[..i + 1], now).value.db == (if r.Ok? then r.value.db else before)
    decreases |cs|
  {
    hide Consistent, Kept, CompleteTx;
    CompleteAllKeeps(cfg, db, cs, now);
    CompleteAllKeeps(cfg, db, cs[..i], now);
    CompleteAllKeeps(cfg, db, cs[..i + 1], now);
    assert cs[..i + 1][..i] == cs[..i];
    if i < |cs| - 1 {
      var init := cs[..|cs| - 1];
      assert init[..i] == cs[..i] && init[..i + 1] == cs[..i + 1];
      CompleteBatchIsFold(cfg, db, init, now, i);
    } else {
      assert cs[..i + 1] == cs;
    }
  }

  /** The same for a batch of starts. */
  lemma {:induction false} StartBatchIsFold(db: Db, worker: string, refs: seq<LeaseRef>, now: int, i: nat)
    requires Consistent(db) && i < |refs|
    ensures StartAll(db, worker, refs, now).Ok? && StartAll(db, worker, refs[..i], now).Ok?
    ensures StartAll(db, worker, refs[..i + 1], now).Ok?
    ensures |StartAll(db, worker, refs, now).value.reply| == |refs|
    ensures var before := StartAll(db, worker, refs[..i], now).value.db; var r := StartTx(before, worker, refs[i], now);
      && StartAll(db, worker, refs, now).value.reply[i] == r.Ok?
      && StartAll(db, worker, refs[..i + 1], now).value.db == (if r.Ok? then r.value else before)
    decreases |refs|
  {
    hide Consistent, Kept, StartTx;
    Operations.StartAllKeeps(db, worker, refs, now);
    Operations.StartAllKeeps(db, worker, refs[..i], now);
    Operations.StartAllKeeps(db, worker, refs[..i + 1], now);
    assert refs[..i + 1][..i] == refs[..i];
    if i < |refs| - 1 {
      var init := refs[..|refs| - 1];
      assert init[..i] == refs[..i] && init[..i + 1] == refs[..i + 1];
      StartBatchIsFold(db, worker, init, now, i);
    } else {
      assert refs[..i + 1] == refs;
    }
  }

  // ------------------------------------------------------------------------ acquisition

  /** The scheduler's input if every ready job were offered to it. */
  ghost function FullInput(db: Db, req: AcquireRequest, now: int): Scheduler.Snapshot {
    var queues := FullQueues(db, now);
    PlanSnapshot(db, queues, UsableSlots(req.slots, req.reserve, HasRecovery(queues)), req.limit, now)
  }

  lemma SameDecision(db: Db, req: AcquireRequest, now: int)
    requires req.limit >= 1
    ensures Scheduler.Decide(PlanInput(db, req, now)) == Scheduler.Decide(FullInput(db, req, now))
    ensures PlannedQueues(db, now, req.limit) == [] <==> FullQueues(db, now) == []
    ensures Offer(db, req, now) == FullInput(db, req, now).workerSlots
  {
    hide Scheduler.Decide, PlannedQueues, FullQueues, HasRecovery;
    CutShowsRecovery(db, now, req.limit);
    CutPlanDecides(db, Offer(db, req, now), req.limit, now);
    PlanIsCut(db, now, req.limit);
  }

  /** Acquisition carries out the decision the scheduler would make on the whole ready set: the leases
      are its grants in order, live and held by the worker, and nobody else changes. */
  lemma AcquireEffect(db: Db, req: AcquireRequest, tokens: nat -> string, now: int)
    requires Consistent(db) && req.slots >= 1 && req.limit >= 1 && req.reserve >= 0 && AcquireTx(db, req, tokens, now).Ok?
    ensures Scheduler.Decide(FullInput(db, req, now)).Ok?
    ensures var d := Scheduler.Decide(FullInput(db, req, now)).value; var r := AcquireTx(db, req, tokens, now).value;
      if FullQueues(db, now) == [] || FullInput(db, req, now).workerSlots == 0 then r == Tx(db, [])
      else
        && |r.reply| == |d.grants| && Carried(db, r.db, d)
        && forall i :: 0 <= i < |d.grants| ==>
            r.reply[i].job == d.grants[i].job && Live(r.db, r.reply[i], req.worker, now + req.ttl)
  {
    hide Consistent, Kept, Carried, Live, GrantPlan, Scheduler.Decide, PlannedQueues, FullQueues, FullInput,
      Overdrawn, HasRecovery;
    SameDecision(db, req, now);
    GrantPlanKeeps(db, req, tokens, now);
  }

  lemma GrantedIsNew(db: Db, r: Db, g: Scheduler.Grant, lease: Lease, worker: string, expiresAt: int, now: int)
    requires Consistent(db) && Evolves(db, r, now) && Grantable(db, g, now)
    requires lease.job == g.job && Live(r, lease, worker, expiresAt)
    ensures AttemptKey(lease.job, lease.attemptNo) !in db.attempts && AttemptKey(lease.job, lease.attemptNo) in r.attempts
  {
    hide Consistent, OutcomesEvolve, RecordsEvolve, JobsEvolve;
    IdleIsClosed(db, AttemptKey(lease.job, lease.attemptNo));
  }

  lemma IdleIsClosed(db: Db, k: AttemptKey)
    requires Consistent(db)
    ensures k in db.attempts && k.job in db.jobs && db.jobs[k.job].state.Pending? ==> !db.attempts[k].Open()
  {
    hide SlotsConserved, OneOutcome, Journaled, LifetimesBounded, BackoffKept, Acyclic, Logged, Gated, Grounded, JobFits;
    if k in db.attempts { assert AttemptFits(k, db.attempts[k], db.jobs[k.job]); }
  }

  /** Every lease is of a new attempt, and no job is leased twice in a batch. */
  lemma LeasesAreNew(db: Db, req: AcquireRequest, tokens: nat -> string, now: int)
    requires Consistent(db) && req.slots >= 1 && req.limit >= 1 && req.reserve >= 0 && AcquireTx(db, req, tokens, now).Ok?
    ensures var r := AcquireTx(db, req, tokens, now).value;
      && (forall i :: 0 <= i < |r.reply| ==>
            && AttemptKey(r.reply[i].job, r.reply[i].attemptNo) !in db.attempts
            && AttemptKey(r.reply[i].job, r.reply[i].attemptNo) in r.db.attempts)
      && (forall i, j :: 0 <= i < j < |r.reply| ==> r.reply[i].job != r.reply[j].job)
  {
    hide Consistent, Evolves, Orderly, Carried, Live, GrantPlan, Grantable, Scheduler.Decide, PlannedQueues,
      Overdrawn, HasRecovery;
    GrantPlanKeeps(db, req, tokens, now);
    PlanBounded(db, req, now);
    var r := AcquireTx(db, req, tokens, now).value;
    var grants := Scheduler.Decide(PlanInput(db, req, now)).value.grants;
    forall i | 0 <= i < |r.reply|
      ensures AttemptKey(r.reply[i].job, r.reply[i].attemptNo) !in db.attempts
      ensures AttemptKey(r.reply[i].job, r.reply[i].attemptNo) in r.db.attempts
    {
      GrantedIsNew(db, r.db, grants[i], r.reply[i], req.worker, now + req.ttl, now);
    }
  }

  /** No attempt is ever leased a second time, after any later steps and restarts. */
  lemma NeverLeasedAgain(
      cfg: Config, s: System, steps: seq<Step>, k: AttemptKey, req: AcquireRequest, tokens: nat -> string, at: int)
    requires Healthy(s) && k in s.db.attempts && req.slots >= 1 && req.limit >= 1 && req.reserve >= 0
    requires var z := Run(cfg, s, steps); AcquireTx(z.db, req, tokens, Max(at, z.last)).Ok?
    ensures var z := Run(cfg, s, steps); var leases := AcquireTx(z.db, req, tokens, Max(at, z.last)).value.reply;
      forall i :: 0 <= i < |leases| ==> AttemptKey(leases[i].job, leases[i].attemptNo) != k
  {
    hide Consistent, Run, Timely, AcquireTx;
    RunHealthy(cfg, s, steps);
    ClosedAfterEvent(cfg, s, steps, k);
    var z := Run(cfg, s, steps);
    LeasesAreNew(z.db, req, tokens, Max(at, z.last));
  }

  // ---------------------------------------------------------------------------- control

  /** What operator control of an unfinished job does: a release readies the job and nobody else
      changes; any other action settles it and takes its unfinished descendants down.  A lease of the
      job is fenced. */
  ghost predicate Steered(db: Db, r: Db, cmd: ControlCommand)
    requires cmd.job in db.jobs
  {
    && cmd.job in r.jobs && r.jobs[cmd.job].state == cmd.action.State() && r.jobs[cmd.job].version == db.jobs[cmd.job].version + 1
    && (r.jobs[cmd.job].readySeq > 0 <==> cmd.action.ForceRelease?)
    && (if cmd.action.ForceRelease? then OnlyMoved(db, r, cmd.job) else TookDown(db, r, cmd.job))
  }

  ghost predicate LeaseFenced(db: Db, r: Db, id: string)
    requires id in db.jobs
  {
    db.jobs[id].state.Active() ==> Current(db, id) in r.attempts && r.attempts[Current(db, id)].state.LeaseExpired?
  }

  lemma ControlledFences(db: Db, cmd: ControlCommand, now: int)
    requires cmd.job in db.jobs && Controlled(db, cmd.job, cmd, now).Ok?
    ensures LeaseFenced(db, Controlled(db, cmd.job, cmd, now).value, cmd.job)
  {
    hide Exchange, ControlledJob;
    forall next: Job, d: Db, b: Job | Exchange(d, b, next).Ok?
      ensures Exchange(d, b, next).value.attempts == d.attempts
    {
      ExchangeFrame(d, b, next);
    }
  }

  lemma ControlSteers(db: Db, cmd: ControlCommand, now: int)
    requires Consistent(db) && cmd.job in db.jobs && !db.jobs[cmd.job].state.Terminal()
    ensures Controlled(db, cmd.job, cmd, now).Ok?
    ensures var r := Propagate(Controlled(db, cmd.job, cmd, now).value, cmd.job, cmd.action.State(), now);
      r.Ok? && Steered(db, r.value, cmd) && LeaseFenced(db, r.value, cmd.job)
  {
    hide SlotsConserved, OneOutcome, Journaled, LifetimesBounded, BackoffKept, Fenced, Acyclic, Logged, Evolves,
      FailDescendants, Controlled, NoStrays, Cleared, Gated, TookDown;
    ControlSound(db, cmd.job, cmd, now);
    ControlledFences(db, cmd, now);
    var moved := Controlled(db, cmd.job, cmd, now).value;
    if !cmd.action.ForceRelease? {
      FailDescendantsEffect(db, moved, cmd.job, now);
      SameKeys(db, FailDescendants(moved, cmd.job, now).value, cmd.job);
    }
  }

  /** Control: a stored reply is repeated and changes nothing; otherwise an unfinished job is steered,
      and the reply is stored. */
  lemma ControlEffect(db: Db, cmd: ControlCommand, now: int)
    requires Consistent(db) && cmd.job in db.jobs
    ensures var k := OperationKey(db.jobs[cmd.job].tenant, cmd.action.Name(), cmd.key); var r := ControlTx(db, cmd, now);
      if k in db.operations then
        r == if db.operations[k].digest == cmd.digest then Ok(Tx(db, db.operations[k].response)) else Err(IdempotencyConflict)
      else if db.jobs[cmd.job].state.Terminal() then r == Err(TerminalJob)
      else
        && r.Ok? && Steered(db, r.value.db, cmd) && LeaseFenced(db, r.value.db, cmd.job)
        && r.value.db.operations == db.operations[k := Operation(cmd.digest, r.value.reply)]
        && r.value.reply == Acted(ActionReceipt(cmd.job, cmd.action.State(), r.value.db.jobs[cmd.job].version, now))
  {
    hide Consistent, Controlled, Propagate, TookDown, OnlyMoved, Evolves, Orderly;
    if !db.jobs[cmd.job].state.Terminal() {
      ControlSteers(db, cmd, now);
      Operations.ControlPropagates(db, cmd, now);
      var done := Propagate(Controlled(db, cmd.job, cmd, now).value, cmd.job, cmd.action.State(), now).value;
      SteeredFrame(db, done, cmd);
    }
  }

  lemma SteeredFrame(db: Db, r: Db, cmd: ControlCommand)
    requires cmd.job in db.jobs && Steered(db, r, cmd)
    ensures forall o :: Steered(db, r.(operations := o), cmd)
  {
  }

  // ------------------------------------------------------------------------- submission

  /** One job was added, gated by its parents: dead on arrival exactly when one has failed, ready
      exactly when all have succeeded and its time has come. */
  ghost predicate Joined(db: Db, r: Db, id: string, spec: JobSpec, now: int) {
    && id !in db.jobs && id in r.jobs && r.jobs == db.jobs[id := r.jobs[id]]
    && (forall e :: e in r.deps <==> e in db.deps || (e.child == id && e.parent in spec.dependsOn))
    && (r.jobs[id].state.DeadLetter? <==> exists d :: d in spec.dependsOn && d in db.jobs && db.jobs[d].state.Unsuccessful())
    && (!r.jobs[id].state.DeadLetter? ==> r.jobs[id].state.Pending?)
    && (r.jobs[id].readySeq > 0 <==> AvailableAt(spec, now) <= now && forall d :: d in spec.dependsOn && d in db.jobs ==>
          db.jobs[d].state.Succeeded?)
  }

  lemma SubmittedJoins(db: Db, queued: Db, spec: JobSpec, id: string, now: int)
    requires queued.jobs == db.jobs && queued.deps == db.deps
    requires Admit(queued, id, SubmittedJob(db, spec, now), (set d | d in spec.dependsOn), now).Ok?
    ensures Joined(db, Admit(queued, id, SubmittedJob(db, spec, now), (set d | d in spec.dependsOn), now).value, id, spec, now)
  {
    hide Unsettled;
  }

  /** Submission: a stored reply is repeated and changes nothing; otherwise the job joins under its
      parents and the reply is stored. */
  lemma SubmitEffect(cfg: Config, db: Db, sub: Submission, id: string, now: int)
    requires SubmitTx(cfg, db, sub, id, now).Ok?
    ensures var spec := sub.spec.Normalize(); var k := RequestKey(spec.tenant, sub.key);
      var r := SubmitTx(cfg, db, sub, id, now).value;
      && k in r.db.requests && r.db.requests[k] == Request(JobRequest, sub.digest, r.reply.rows)
      && (if k in db.requests then r.db == db && r.reply.duplicate
          else !r.reply.duplicate && Joined(db, r.db, id, spec, now) && r.reply.rows == [Row(id, r.db.jobs[id])])
  {
    hide Blank, JobSpec.Valid, CheckDependencies, EnsureAdmission, EnsureQueue, Stamp, SubmittedJob, Admit, Joined,
      SubmitTx, Prepared, Roomy;
    var spec := sub.spec.Normalize();
    var k := RequestKey(spec.tenant, sub.key);
    if k in db.requests {
      SubmitRepeats(cfg, db, sub, id, now);
    } else {
      var ready := Transactions.AllSucceeded(db, spec.dependsOn) && AvailableAt(spec, now) <= now;
      SubmitFresh(cfg, db, sub, id, now);
      var queued := Stamp(EnsureQueue(EnsureAdmission(cfg, db, spec.tenant, 1).value, spec.tenant, spec.queue), ready);
      SameTables(cfg, db, spec.tenant, spec.queue, ready);
      SubmittedJoins(db, queued, spec, id, now);
      AdmittedRow(queued, id, SubmittedJob(db, spec, now), (set d | d in spec.dependsOn), now);
      JoinedFrame(db, Admit(queued, id, SubmittedJob(db, spec, now), (set d | d in spec.dependsOn), now).value, id, spec, now);
    }
  }

  lemma SameTables(cfg: Config, db: Db, tenant: string, queue: string, ready: bool)
    requires EnsureAdmission(cfg, db, tenant, 1).Ok?
    ensures var s := Stamp(EnsureQueue(EnsureAdmission(cfg, db, tenant, 1).value, tenant, queue), ready);
      s.jobs == db.jobs && s.deps == db.deps && s.requests == db.requests
  {
    hide OpenJobs;
  }

  lemma SubmitRepeats(cfg: Config, db: Db, sub: Submission, id: string, now: int)
    requires SubmitTx(cfg, db, sub, id, now).Ok? && RequestKey(sub.spec.Normalize().tenant, sub.key) in db.requests
    ensures var k := RequestKey(sub.spec.Normalize().tenant, sub.key);
      && db.requests[k].kind.JobRequest? && db.requests[k].digest == sub.digest
      && SubmitTx(cfg, db, sub, id, now) == Ok(Tx(db, Accepted(db.requests[k].rows, true)))
  {
    hide Blank, JobSpec.Valid, CheckDependencies, EnsureAdmission, EnsureQueue, Stamp, SubmittedJob, Admit;
  }

  lemma SubmitFresh(cfg: Config, db: Db, sub: Submission, id: string, now: int)
    requires SubmitTx(cfg, db, sub, id, now).Ok? && RequestKey(sub.spec.Normalize().tenant, sub.key) !in db.requests
    ensures EnsureAdmission(cfg, db, sub.spec.Normalize().tenant, 1).Ok?
    ensures var spec := sub.spec.Normalize(); var k := RequestKey(spec.tenant, sub.key);
      var ready := Transactions.AllSucceeded(db, spec.dependsOn) && AvailableAt(spec, now) <= now;
      var queued := Stamp(EnsureQueue(EnsureAdmission(cfg, db, spec.tenant, 1).value, spec.tenant, spec.queue), ready);
      var r := Admit(queued, id, SubmittedJob(db, spec, now), (set d | d in spec.dependsOn), now);
      var rows := [Row(id, SubmittedJob(db, spec, now))];
      r.Ok? && SubmitTx(cfg, db, sub, id, now)
                 == Ok(Tx(r.value.(requests := r.value.requests[k := Request(JobRequest, sub.digest, rows)]),
                     Accepted(rows, false)))
  {
    hide Blank, JobSpec.Valid, CheckDependencies, EnsureAdmission, EnsureQueue, Stamp, SubmittedJob, Admit;
  }

  lemma AdmittedRow(db: Db, id: string, job: Job, parents: set<string>, now: int)
    requires Admit(db, id, job, parents, now).Ok?
    ensures id in Admit(db, id, job, parents, now).value.jobs && Admit(db, id, job, parents, now).value.jobs[id] == job
  {
  }

  lemma JoinedFrame(db: Db, r: Db, id: string, spec: JobSpec, now: int)
    requires Joined(db, r, id, spec, now)
    ensures forall q :: Joined(db, r.(requests := q), id, spec, now)
  {
  }

  /** A workflow joins as a whole: one new waiting job for each node, the edges between them exactly the
      declared dependencies, and nobody else changes. */
  lemma WorkflowEffect(cfg: Config, db: Db, w: WorkflowSubmission, ids: nat -> string, now: int)
    requires Consistent(db) && WorkflowTx(cfg, db, w, ids, now).Ok? && !WorkflowTx(cfg, db, w, ids, now).value.reply.duplicate
    ensures var r := WorkflowTx(cfg, db, w, ids, now).value.db;
      && (forall i: nat :: i < |w.nodes| ==> ids(i) !in db.jobs && ids(i) in r.jobs && NodeWaits(w.nodes[i], r.jobs[ids(i)]))
      && (forall i: nat, j: nat :: i < j < |w.nodes| ==> ids(i) != ids(j))
      && (forall j :: j in r.jobs <==> j in db.jobs || NamesNode(ids, |w.nodes|, j))
      && (forall j :: j in db.jobs ==> r.jobs[j] == db.jobs[j])
      && r.deps == db.deps + JobEdges(NodeEdges(w.nodes), ids)
  {
    hide Consistent, Kept, AdmitNodes, EnsureAdmission, NodesValid, Acyclic, NodeEdges, JobEdges, Blank, NodeWaits, NamesNode;
    var tenant := if w.tenant == "" then "default" else w.tenant;
    EnsureError(cfg, db, tenant, |w.nodes|);
    WorkflowAdmits(cfg, db, tenant, w, ids, now);
  }

  // ------------------------------------------------------------------- redrive and retry

  /** One new job repeats the work of `source` from the start; every other row stays. */
  ghost predicate Repeated(db: Db, r: Db, source: string, id: string, now: int)
    requires source in db.jobs
  {
    && id !in db.jobs && id in r.jobs && r.jobs == db.jobs[id := r.jobs[id]] && r.deps == db.deps
    && SameSpec(db.jobs[source], r.jobs[id]) && r.jobs[id].state.Pending? && r.jobs[id].readySeq > 0
    && r.jobs[id].attemptNo == 0 && r.jobs[id].availableAt == now
  }

  lemma CloneRepeats(cfg: Config, db: Db, source: string, id: string, now: int)
    requires source in db.jobs && CloneJob(cfg, db, db.jobs[source], id, now).Ok?
    ensures var r := CloneJob(cfg, db, db.jobs[source], id, now).value;
      Repeated(db, r.db, source, id, now) && r.reply == Row(id, r.db.jobs[id]) && r.db.operations == db.operations
  {
    hide EnsureAdmission, EnsureQueue, Stamp, Unsettled;
    var original := db.jobs[source];
    EnsureShape(cfg, db, original.tenant, original.queue, true);
    var queued := Stamp(EnsureQueue(EnsureAdmission(cfg, db, original.tenant, 1).value, original.tenant, original.queue), true);
    assert queued.deps + EdgesTo(id, {}) == queued.deps;
  }

  /** The command was not carried out before. */
  predicate NewKey(db: Db, cmd: CloneCommand, action: string) {
    cmd.job in db.jobs && OperationKey(db.jobs[cmd.job].tenant, action, cmd.key) !in db.operations
  }

  /** A redrive whose key is new repeats a dead letter that had not been redriven, links it to the new job
      and stores the reply. */
  lemma RedriveEffect(cfg: Config, db: Db, cmd: CloneCommand, id: string, now: int)
    requires NewKey(db, cmd, REDRIVE) && RedriveTx(cfg, db, cmd, id, now).Ok?
    ensures var k := OperationKey(db.jobs[cmd.job].tenant, REDRIVE, cmd.key); var r := RedriveTx(cfg, db, cmd, id, now).value;
      && cmd.job in db.deadLetters && db.deadLetters[cmd.job].redriven.None?
      && cmd.job in r.db.deadLetters && r.db.deadLetters[cmd.job].redriven == Some(id)
      && Repeated(db, r.db, cmd.job, id, now) && r.reply == Created(Row(id, r.db.jobs[id]))
      && r.db.operations == db.operations[k := Operation(cmd.digest, r.reply)]
  {
    hide CloneJob;
    CloneRepeats(cfg, db, cmd.job, id, now);
  }

  /** A retry whose key is new repeats a finished job and stores the reply. */
  lemma RetryEffect(cfg: Config, db: Db, cmd: CloneCommand, id: string, now: int)
    requires NewKey(db, cmd, RETRY) && RetryTx(cfg, db, cmd, id, now).Ok?
    ensures var k := OperationKey(db.jobs[cmd.job].tenant, RETRY, cmd.key); var r := RetryTx(cfg, db, cmd, id, now).value;
      && db.jobs[cmd.job].state.Terminal()
      && Repeated(db, r.db, cmd.job, id, now) && r.reply == Created(Row(id, r.db.jobs[id]))
      && r.db.operations == db.operations[k := Operation(cmd.digest, r.reply)]
  {
    hide CloneJob;
    CloneRepeats(cfg, db, cmd.job, id, now);
  }

  // ----------------------------------------------------------- replies over whole runs

  lemma RepliesStay(cfg: Config, s: System, steps: seq<Step>, id: string)
    requires Healthy(s) && id in s.db.jobs
    ensures var z := Run(cfg, s, steps).db;
      && id in z.jobs && z.jobs[id].tenant == s.db.jobs[id].tenant
      && (forall k :: k in s.db.requests ==> k in z.requests && z.requests[k] == s.db.requests[k])
      && (forall k :: k in s.db.operations ==> k in z.operations && z.operations[k] == s.db.operations[k])
      && (forall d :: d in s.db.deadLetters ==> d in z.deadLetters)
  {
    hide SlotsConserved, OneOutcome, LifetimesBounded, BackoffKept, Acyclic, Logged, Gated, Grounded, Fenced, Run,
      Consecutive, Tip;
    var t := FirstEvent(s, id);
    RunPersists(cfg, s, steps, t);
  }

  /** Idempotent submission over whole runs: after any later steps and restarts the same key is answered
      with the same row and changes nothing, and with another digest it is a conflict. */
  lemma SubmissionsReplay(
      cfg: Config, s: System, sub: Submission, id: string, at: int, steps: seq<Step>, other: Submission, id2: string,
      at2: int)
    requires Healthy(s) && SubmitTx(cfg, s.db, sub, id, Max(at, s.last)).Ok?
    requires !SubmitTx(cfg, s.db, sub, id, Max(at, s.last)).value.reply.duplicate
    requires other.key == sub.key && other.spec.Normalize().tenant == sub.spec.Normalize().tenant && !Blank(other.digest)
    ensures var z := Run(cfg, Next(cfg, s, Step(Submit(sub, id), at)), steps);
      SubmitTx(cfg, z.db, other, id2, Max(at2, z.last))
        == if other.digest == sub.digest
           then Ok(Tx(z.db, Accepted(SubmitTx(cfg, s.db, sub, id, Max(at, s.last)).value.reply.rows, true)))
           else Err(IdempotencyConflict)
  {
    hide Healthy, Run, Next, Joined, SubmitTx, Blank;
    SubmitEffect(cfg, s.db, sub, id, Max(at, s.last));
    SubmitStep(cfg, s, sub, id, at);
    NextHealthy(cfg, s, Step(Submit(sub, id), at));
    var a := Next(cfg, s, Step(Submit(sub, id), at));
    JoinedId(s.db, a.db, id, sub.spec.Normalize(), Max(at, s.last));
    RepliesStay(cfg, a, steps, id);
    var z := Run(cfg, a, steps);
    KeyNotBlank(cfg, s.db, sub, id, Max(at, s.last));
    StoredAnswer(cfg, z.db, other, id2, Max(at2, z.last));
  }

  lemma JoinedId(db: Db, r: Db, id: string, spec: JobSpec, now: int)
    requires Joined(db, r, id, spec, now)
    ensures id in r.jobs
  {
  }

  lemma KeyNotBlank(cfg: Config, db: Db, sub: Submission, id: string, now: int)
    requires SubmitTx(cfg, db, sub, id, now).Ok?
    ensures !Blank(sub.key)
  {
    hide Blank, JobSpec.Valid, CheckDependencies, EnsureAdmission, EnsureQueue, Stamp, SubmittedJob, Admit;
  }

  lemma StoredAnswer(cfg: Config, db: Db, sub: Submission, id: string, now: int)
    requires !Blank(sub.key) && !Blank(sub.digest)
    requires var k := RequestKey(sub.spec.Normalize().tenant, sub.key); k in db.requests && db.requests[k].kind.JobRequest?
    ensures var k := RequestKey(sub.spec.Normalize().tenant, sub.key);
      SubmitTx(cfg, db, sub, id, now)
        == if db.requests[k].digest == sub.digest then Ok(Tx(db, Accepted(db.requests[k].rows, true)))
            else Err(IdempotencyConflict)
  {
    hide Blank, JobSpec.Valid, CheckDependencies, EnsureAdmission, EnsureQueue, Stamp, SubmittedJob, Admit;
  }

  function TenantOf(w: WorkflowSubmission): string {
    if w.tenant == "" then "default" else w.tenant
  }

  lemma WorkflowStored(cfg: Config, db: Db, w: WorkflowSubmission, ids: nat -> string, now: int)
    requires WorkflowTx(cfg, db, w, ids, now).Ok? && !WorkflowTx(cfg, db, w, ids, now).value.reply.duplicate
    ensures var r := WorkflowTx(cfg, db, w, ids, now).value; var k := RequestKey(TenantOf(w), w.key);
      && k in r.db.requests && r.db.requests[k] == Request(WorkflowRequest, w.digest, r.reply.rows)
      && !Blank(w.key) && |w.nodes| >= 1
  {
    hide Blank, Acyclic, NodeEdges, JobEdges, EnsureAdmission, AdmitNodes, NodeRows;
  }

  lemma StoredWorkflowAnswer(cfg: Config, db: Db, w: WorkflowSubmission, ids: nat -> string, now: int)
    requires !Blank(w.key) && !Blank(w.digest)
    requires var k := RequestKey(TenantOf(w), w.key); k in db.requests && db.requests[k].kind.WorkflowRequest?
    ensures var k := RequestKey(TenantOf(w), w.key);
      WorkflowTx(cfg, db, w, ids, now)
        == if db.requests[k].digest == w.digest then Ok(Tx(db, Accepted(db.requests[k].rows, true))) else Err(IdempotencyConflict)
  {
    hide Blank, NodesValid, Acyclic, NodeEdges, JobEdges, EnsureAdmission, AdmitNodes, NodeRows;
  }

  lemma WorkflowStep(cfg: Config, s: System, w: WorkflowSubmission, ids: nat -> string, at: int)
    requires WorkflowTx(cfg, s.db, w, ids, Max(at, s.last)).Ok?
    ensures Next(cfg, s, Step(SubmitWorkflow(w, ids), at))
         == System(WorkflowTx(cfg, s.db, w, ids, Max(at, s.last)).value.db, Max(at, s.last))
  {
    hide SubmitTx, WorkflowTx, RedriveTx, RetryTx, PerformLeasing, PerformUpkeep;
  }

  /** The same for workflows: the key is answered with the rows of the first submission for good. */
  lemma WorkflowsReplay(
      cfg: Config, s: System, w: WorkflowSubmission, ids: nat -> string, at: int, steps: seq<Step>,
      other: WorkflowSubmission, ids2: nat -> string, at2: int)
    requires Healthy(s) && WorkflowTx(cfg, s.db, w, ids, Max(at, s.last)).Ok?
    requires !WorkflowTx(cfg, s.db, w, ids, Max(at, s.last)).value.reply.duplicate
    requires other.key == w.key && TenantOf(other) == TenantOf(w) && !Blank(other.digest)
    ensures var z := Run(cfg, Next(cfg, s, Step(SubmitWorkflow(w, ids), at)), steps);
      WorkflowTx(cfg, z.db, other, ids2, Max(at2, z.last))
        == if other.digest == w.digest
           then Ok(Tx(z.db, Accepted(WorkflowTx(cfg, s.db, w, ids, Max(at, s.last)).value.reply.rows, true)))
           else Err(IdempotencyConflict)
  {
    hide Run, Next, WorkflowTx, Blank, Consistent, Timely, NodeWaits, NodeEdges, JobEdges;
    var now := Max(at, s.last);
    WorkflowStored(cfg, s.db, w, ids, now);
    WorkflowEffect(cfg, s.db, w, ids, now);
    WorkflowStep(cfg, s, w, ids, at);
    NextHealthy(cfg, s, Step(SubmitWorkflow(w, ids), at));
    var a := Next(cfg, s, Step(SubmitWorkflow(w, ids), at));
    RepliesStay(cfg, a, steps, ids(0));
    var z := Run(cfg, a, steps);
    StoredWorkflowAnswer(cfg, z.db, other, ids2, Max(at2, z.last));
  }

  /** Idempotent operations over whole runs: a stored reply answers its key for good. */
  lemma OperationsReplay(cfg: Config, s: System, steps: seq<Step>, cmd: ControlCommand, clone: CloneCommand, id: string, at: int)
    requires Healthy(s) && cmd.job in s.db.jobs && clone.job in s.db.jobs
    ensures var z := Run(cfg, s, steps); var now := Max(at, z.last); var tenant := s.db.jobs[cmd.job].tenant;
      var k := OperationKey(tenant, cmd.action.Name(), cmd.key);
      k in s.db.operations ==>
        ControlTx(z.db, cmd, now)
          == if s.db.operations[k].digest == cmd.digest then Ok(Tx(z.db, s.db.operations[k].response))
              else Err(IdempotencyConflict)
    ensures var z := Run(cfg, s, steps); var now := Max(at, z.last); var tenant := s.db.jobs[clone.job].tenant;
      var k := OperationKey(tenant, RETRY, clone.key);
      k in s.db.operations ==>
        RetryTx(cfg, z.db, clone, id, now)
          == if s.db.operations[k].digest == clone.digest then Ok(Tx(z.db, s.db.operations[k].response))
              else Err(IdempotencyConflict)
    ensures var z := Run(cfg, s, steps); var now := Max(at, z.last); var tenant := s.db.jobs[clone.job].tenant;
      var k := OperationKey(tenant, REDRIVE, clone.key);
      k in s.db.operations && clone.job in s.db.deadLetters ==>
        RedriveTx(cfg, z.db, clone, id, now)
          == if s.db.operations[k].digest == clone.digest then Ok(Tx(z.db, s.db.operations[k].response))
              else Err(IdempotencyConflict)
  {
    hide Healthy, Run, Controlled, Propagate, CloneJob;
    RepliesStay(cfg, s, steps, cmd.job);
    RepliesStay(cfg, s, steps, clone.job);
  }
}
