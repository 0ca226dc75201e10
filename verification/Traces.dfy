/** What a transaction leaves behind in the event log, the time stamps and the stored replies. */
module Traces {
  import opened Wrappers
  import opened Domain
  import opened Database
  import opened Transactions
  import opened Ledger
  import Scheduler

  /** No event repeats the version of its job. */
  ghost predicate NoMarkers(events: seq<Event>) {
    forall i :: 0 <= i < |events| ==> !events[i].kind.Marker()
  }

  /** The log grew, and by no marker. */
  ghost predicate Unmarked(a: seq<Event>, b: seq<Event>) {
    a <= b && forall i :: |a| <= i < |b| ==> !b[i].kind.Marker()
  }

  ghost predicate JobRestamped(a: Job, b: Job, now: int) {
    b.updatedAt == a.updatedAt || b.updatedAt == now
  }

  ghost predicate AttemptRestamped(a: Attempt, b: Attempt, now: int) {
    && (b.heartbeatAt == a.heartbeatAt || b.heartbeatAt == now)
    && (a.completedAt.Some? ==> b.completedAt == a.completedAt || b.completedAt == Some(now))
  }

  /** No stamp disappears: it stays or gives way to `now`. */
  ghost predicate Restamped(a: Db, b: Db, now: int) {
    && (forall id :: id in a.jobs ==> id in b.jobs && JobRestamped(a.jobs[id], b.jobs[id], now))
    && (forall k :: k in a.attempts ==> k in b.attempts && AttemptRestamped(a.attempts[k], b.attempts[k], now))
    && (forall id :: id in a.completions ==>
          && id in b.completions
          && (b.completions[id].committedAt == a.completions[id].committedAt || b.completions[id].committedAt == now))
  }

  /** What every transaction does but those that admit jobs. */
  ghost predicate Leaves(a: Db, b: Db, now: int) {
    Unmarked(a.events, b.events) && Restamped(a, b, now) && b.requests == a.requests
  }

  lemma LeavesAll(db: Db, now: int)
    ensures Leaves(db, db, now)
  {
  }

  lemma LeavesChain(a: Db, b: Db, c: Db, now: int)
    requires Leaves(a, b, now) && Leaves(b, c, now)
    ensures Leaves(a, c, now)
  {
    hide Unmarked, Restamped;
    UnmarkedChain(a.events, b.events, c.events);
    RestampedChain(a, b, c, now);
  }

  lemma UnmarkedChain(a: seq<Event>, b: seq<Event>, c: seq<Event>)
    requires Unmarked(a, b) && Unmarked(b, c)
    ensures Unmarked(a, c)
  {
    forall i | |a| <= i < |c| ensures !c[i].kind.Marker() {
      if i < |b| { assert c[i] == b[i]; }
    }
  }

  lemma RestampedChain(a: Db, b: Db, c: Db, now: int)
    requires Restamped(a, b, now) && Restamped(b, c, now)
    ensures Restamped(a, c, now)
  {
    forall id | id in a.jobs ensures id in c.jobs && JobRestamped(a.jobs[id], c.jobs[id], now) {
      assert JobRestamped(a.jobs[id], b.jobs[id], now) && JobRestamped(b.jobs[id], c.jobs[id], now);
    }
    forall k | k in a.attempts ensures k in c.attempts && AttemptRestamped(a.attempts[k], c.attempts[k], now) {
      assert AttemptRestamped(a.attempts[k], b.attempts[k], now) && AttemptRestamped(b.attempts[k], c.attempts[k], now);
    }
  }

  // -------------------------------------------------------------------- the row changes

  lemma WrittenLeaves(db: Db, id: string, job: Job, kind: EventKind, now: int)
    requires !kind.Marker() && job.updatedAt == now
    ensures Leaves(db, Written(db, id, job, kind, now), now)
  {
  }

  lemma MoveLeaves(db: Db, id: string, next: Job, kind: EventKind, now: int)
    requires id in db.jobs && !kind.Marker() && Move(db, id, next, kind, now).Ok?
    ensures Leaves(db, Move(db, id, next, kind, now).value, now)
  {
    hide Exchange, Written, Leaves;
    var job := next.(version := db.jobs[id].version + 1, updatedAt := now);
    ExchangeFrame(db, db.jobs[id], job);
    var charged := Exchange(db, db.jobs[id], job).value;
    CountersLeave(db, charged, now);
    WrittenLeaves(charged, id, job, kind, now);
    LeavesChain(db, charged, Written(charged, id, job, kind, now), now);
  }

  /** Counters carry no stamps. */
  lemma CountersLeave(db: Db, r: Db, now: int)
    requires r.events == db.events && r.jobs == db.jobs && r.attempts == db.attempts && r.completions == db.completions
    requires r.requests == db.requests
    ensures Leaves(db, r, now)
  {
  }

  lemma AttemptLeaves(db: Db, k: AttemptKey, a: Attempt, now: int)
    requires k in db.attempts ==> AttemptRestamped(db.attempts[k], a, now)
    ensures Leaves(db, db.(attempts := db.attempts[k := a]), now)
  {
  }

  /** An attempt, the ready counter and a job change together. */
  lemma MoveWithAttempt(db: Db, k: AttemptKey, a: Attempt, n: nat, id: string, next: Job, kind: EventKind, now: int)
    requires k in db.attempts ==> AttemptRestamped(db.attempts[k], a, now)
    requires var base := db.(attempts := db.attempts[k := a], readySeq := n);
      id in db.jobs && !kind.Marker() && Move(base, id, next, kind, now).Ok?
    ensures Leaves(db, Move(db.(attempts := db.attempts[k := a], readySeq := n), id, next, kind, now).value, now)
  {
    hide Move, Leaves, AttemptRestamped;
    var held := db.(attempts := db.attempts[k := a]);
    var base := held.(readySeq := n);
    AttemptLeaves(db, k, a, now);
    CountersLeave(held, base, now);
    MoveLeaves(base, id, next, kind, now);
    LeavesChain(db, held, base, now);
    LeavesChain(db, base, Move(base, id, next, kind, now).value, now);
  }

  lemma ReadyRowLeaves(db: Db, row: Row, kind: EventKind, now: int)
    requires !kind.Marker() && ReadyRow(db, row, kind, now).Ok?
    ensures Leaves(db, ReadyRow(db, row, kind, now).value, now)
  {
    hide Move, Leaves;
    var counted := db.(readySeq := db.readySeq + 1);
    CountersLeave(db, counted, now);
    var next := db.jobs[row.id].(state := Pending, readySeq := db.readySeq + 1);
    MoveLeaves(counted, row.id, next, kind, now);
    LeavesChain(db, counted, Move(counted, row.id, next, kind, now).value, now);
  }

  lemma {:induction false} ReadyRowsLeave(db: Db, rows: seq<Row>, kind: EventKind, now: int)
    requires !kind.Marker() && ReadyRows(db, rows, kind, now).Ok?
    ensures Leaves(db, ReadyRows(db, rows, kind, now).value, now)
    decreases |rows|
  {
    hide ReadyRow, Leaves;
    LeavesAll(db, now);
    if rows != [] {
      var init := rows[..|rows| - 1];
      ReadyRowsLeave(db, init, kind, now);
      var before := ReadyRows(db, init, kind, now).value;
      ReadyRowLeaves(before, rows[|rows| - 1], kind, now);
      LeavesChain(db, before, ReadyRow(before, rows[|rows| - 1], kind, now).value, now);
    }
  }

  lemma {:induction false} FailRowsLeave(db: Db, rows: seq<Row>, now: int)
    requires FailRows(db, rows, now).Ok?
    ensures Leaves(db, FailRows(db, rows, now).value, now)
    decreases |rows|
  {
    hide Move, Leaves;
    LeavesAll(db, now);
    if rows != [] {
      var init, row := rows[..|rows| - 1], rows[|rows| - 1];
      FailRowsLeave(db, init, now);
      var before := FailRows(db, init, now).value;
      var next := Settled(before.jobs[row.id], DeadLetter, Some(UPSTREAM_FAILED), now);
      MoveLeaves(before, row.id, next, UpstreamFailed, now);
      LeavesChain(db, before, Move(before, row.id, next, UpstreamFailed, now).value, now);
    }
  }

  lemma PropagateLeaves(db: Db, id: string, state: JobState, now: int)
    requires Propagate(db, id, state, now).Ok?
    ensures Leaves(db, Propagate(db, id, state, now).value, now)
  {
    hide Leaves, ReadyRows, FailRows, ChildRows, DescendantRows;
    if state.Succeeded? {
      ReadyRowsLeave(db, ChildRows(db, id, now), DependencyReleased, now);
    } else if state.Terminal() {
      FailRowsLeave(db, DescendantRows(db, id), now);
    } else {
      LeavesAll(db, now);
    }
  }

  // ------------------------------------------------------------------- leases

  lemma StartLeaves(db: Db, worker: string, ref: LeaseRef, now: int)
    requires StartTx(db, worker, ref, now).Ok?
    ensures Leaves(db, StartTx(db, worker, ref, now).value, now)
  {
    hide Move, Leaves;
    LeavesAll(db, now);
    var k := AttemptKey(ref.job, ref.attemptNo);
    if StartTx(db, worker, ref, now).value != db {
      var a := db.attempts[k].(state := LeaseRunning);
      assert db.(attempts := db.attempts[k := a], readySeq := db.readySeq) == db.(attempts := db.attempts[k := a]);
      MoveWithAttempt(db, k, a, db.readySeq, ref.job, db.jobs[ref.job].(state := Running), AttemptStarted, now);
    }
  }

  lemma {:induction false} StartAllLeaves(db: Db, worker: string, refs: seq<LeaseRef>, now: int)
    requires StartAll(db, worker, refs, now).Ok?
    ensures Leaves(db, StartAll(db, worker, refs, now).value.db, now)
    decreases |refs|
  {
    hide StartTx, Leaves;
    LeavesAll(db, now);
    if refs != [] {
      var init := refs[..|refs| - 1];
      StartAllLeaves(db, worker, init, now);
      var before := StartAll(db, worker, init, now).value.db;
      var r := StartTx(before, worker, refs[|refs| - 1], now);
      if r.Ok? {
        StartLeaves(before, worker, refs[|refs| - 1], now);
        LeavesChain(db, before, r.value, now);
      }
    }
  }

  lemma {:induction false} BeatAllLeaves(db: Db, worker: string, refs: seq<LeaseRef>, ttl: int, now: int)
    ensures Leaves(db, BeatAll(db, worker, refs, ttl, now).db, now)
    decreases |refs|
  {
    hide Leaves, BeatAccepted;
    LeavesAll(db, now);
    if refs != [] {
      var init, ref := refs[..|refs| - 1], refs[|refs| - 1];
      BeatAllLeaves(db, worker, init, ttl, now);
      var before := BeatAll(db, worker, init, ttl, now).db;
      BeatLeaves(before, worker, ref, ttl, now);
      LeavesChain(db, before, Beat(before, worker, ref, ttl, now), now);
    }
  }

  lemma BeatLeaves(db: Db, worker: string, ref: LeaseRef, ttl: int, now: int)
    ensures Leaves(db, Beat(db, worker, ref, ttl, now), now)
  {
    hide Leaves;
    LeavesAll(db, now);
    if BeatAccepted(db, worker, ref, now) {
      var k := AttemptKey(ref.job, ref.attemptNo);
      var a := db.attempts[k];
      AttemptLeaves(db, k, a.(heartbeatAt := now, expiresAt := Max(a.expiresAt, now + ttl)), now);
    }
  }

  lemma CloseLeaves(cfg: Config, db: Db, c: Completion, now: int)
    requires c.ref.job in db.jobs && AttemptKey(c.ref.job, c.ref.attemptNo) in db.attempts && CloseLease(cfg, db, c, now).Ok?
    ensures Leaves(db, CloseLease(cfg, db, c, now).value, now)
  {
    hide Move, Leaves, RetryAt;
    var k := AttemptKey(c.ref.job, c.ref.attemptNo);
    var job := db.jobs[c.ref.job];
    var state := Verdict(job, c);
    var at := if state.Retrying? then RetryAt(cfg, c, now).value else now;
    var next := if state.Terminal() then Settled(job, state, FailureOf(c), now)
                else job.(state := state, readySeq := 0, terminalAt := None, failure := FailureOf(c));
    var closing := Closing(c, state, job.version + 1, now);
    var a := Closed(db.attempts[k], if c.success then LeaseSucceeded else LeaseFailed, FailureOf(c), Some(closing), now);
    assert db.(attempts := db.attempts[k := a], readySeq := db.readySeq) == db.(attempts := db.attempts[k := a]);
    MoveWithAttempt(db, k, a, db.readySeq, c.ref.job, next.(availableAt := at), if state.Terminal() then JobCompleted
        else RetryScheduled, now);
  }

  lemma CompleteLeaves(cfg: Config, db: Db, c: Completion, now: int)
    requires CompleteTx(cfg, db, c, now).Ok?
    ensures Leaves(db, CompleteTx(cfg, db, c, now).value.db, now)
  {
    hide CloseLease, Propagate, Leaves, Completable;
    LeavesAll(db, now);
    var k := AttemptKey(c.ref.job, c.ref.attemptNo);
    if db.attempts[k].closing.None? {
      CloseLeaves(cfg, db, c, now);
      var closed := CloseLease(cfg, db, c, now).value;
      PropagateLeaves(closed, c.ref.job, Verdict(db.jobs[c.ref.job], c), now);
      LeavesChain(db, closed, CompleteTx(cfg, db, c, now).value.db, now);
    }
  }

  lemma {:induction false} CompleteAllLeaves(cfg: Config, db: Db, cs: seq<Completion>, now: int)
    requires CompleteAll(cfg, db, cs, now).Ok?
    ensures Leaves(db, CompleteAll(cfg, db, cs, now).value.db, now)
    decreases |cs|
  {
    hide CompleteTx, Leaves;
    LeavesAll(db, now);
    if cs != [] {
      var init := cs[..|cs| - 1];
      CompleteAllLeaves(cfg, db, init, now);
      var before := CompleteAll(cfg, db, init, now).value.db;
      var r := CompleteTx(cfg, before, cs[|cs| - 1], now);
      if r.Ok? {
        CompleteLeaves(cfg, before, cs[|cs| - 1], now);
        LeavesChain(db, before, r.value.db, now);
      }
    }
  }

  lemma LeaseLeaves(db: Db, row: Row, req: AcquireRequest, token: string, now: int)
    requires LeaseRow(db, row, req, token, now).Ok?
    ensures Leaves(db, LeaseRow(db, row, req, token, now).value.db, now)
  {
    hide Move, Leaves;
    var job, k := db.jobs[row.id], AttemptKey(row.id, db.jobs[row.id].attemptNo + 1);
    var a := NewAttempt(job, req, token, now);
    assert db.(attempts := db.attempts[k := a], readySeq := db.readySeq) == db.(attempts := db.attempts[k := a]);
    MoveWithAttempt(db, k, a, db.readySeq, row.id, LeasedJob(job), LeaseAcquired, now);
  }

  lemma {:induction false} LeaseGrantsLeave(
      db: Db, origin: Db, grants: seq<Scheduler.Grant>, req: AcquireRequest, tokens: nat -> string, now: int)
    requires LeaseGrants(db, origin, grants, req, tokens, now).Ok?
    ensures Leaves(db, LeaseGrants(db, origin, grants, req, tokens, now).value.db, now)
    decreases |grants|
  {
    hide LeaseRow, Leaves;
    LeavesAll(db, now);
    if grants != [] {
      var n := |grants| - 1;
      LeaseGrantsLeave(db, origin, grants[..n], req, tokens, now);
      var before := LeaseGrants(db, origin, grants[..n], req, tokens, now).value.db;
      var row := Row(grants[n].job, origin.jobs[grants[n].job]);
      LeaseLeaves(before, row, req, tokens(n), now);
      LeavesChain(db, before, LeaseRow(before, row, req, tokens(n), now).value.db, now);
    }
  }

  lemma AcquireLeaves(db: Db, req: AcquireRequest, tokens: nat -> string, now: int)
    requires AcquireTx(db, req, tokens, now).Ok?
    ensures Leaves(db, AcquireTx(db, req, tokens, now).value.db, now)
  {
    hide LeaseGrants, Leaves, Scheduler.Decide, PlannedQueues, PlanSnapshot, HasRecovery;
    LeavesAll(db, now);
    var queues := PlannedQueues(db, now, req.limit);
    var slots := UsableSlots(req.slots, req.reserve, HasRecovery(queues));
    if queues != [] && slots != 0 {
      var input := PlanSnapshot(db, queues, slots, req.limit, now);
      var grants := Scheduler.Decide(input).value.grants;
      LeaseGrantsLeave(db, db, grants, req, tokens, now);
      var leased := LeaseGrants(db, db, grants, req, tokens, now).value.db;
      CountersLeave(leased, PersistPlan(leased, input, Scheduler.Decide(input).value).value, now);
      LeavesChain(db, leased, AcquireTx(db, req, tokens, now).value.db, now);
    }
  }

  // ------------------------------------------------------------ maintenance and control

  lemma ReapRowLeaves(db: Db, h: HeldLease, now: int)
    requires ReapRow(db, h, now).Ok?
    ensures Leaves(db, ReapRow(db, h, now).value, now)
  {
    hide Move, Leaves, FailRows, DescendantRows, ReleaseSlots;
    var job, expired := db.jobs[h.id], ExpireAttempt(db, h, now);
    ExpireLeaves(db, h, now);
    if job.attemptNo < job.retry.maxAttempts {
      var n := db.readySeq + 1;
      var counted := expired.(readySeq := n);
      var next := job.(state := Pending, availableAt := now, readySeq := n, recovery := true, failure := Some(LEASE_EXPIRED));
      CountersLeave(expired, counted, now);
      MoveLeaves(counted, h.id, next, LeaseReaped, now);
      LeavesChain(db, expired, counted, now);
      LeavesChain(db, counted, ReapRow(db, h, now).value, now);
    } else {
      var next := Settled(job, DeadLetter, Some(LEASE_EXPIRED), now);
      var dead := Move(expired, h.id, next, LeaseReaped, now).value;
      MoveLeaves(expired, h.id, next, LeaseReaped, now);
      FailRowsLeave(dead, DescendantRows(dead, h.id), now);
      LeavesChain(db, expired, dead, now);
      LeavesChain(db, dead, ReapRow(db, h, now).value, now);
    }
  }

  lemma ExpireLeaves(db: Db, h: HeldLease, now: int)
    ensures Leaves(db, ExpireAttempt(db, h, now), now) && ExpireAttempt(db, h, now).jobs == db.jobs
  {
    hide Leaves;
    LeavesAll(db, now);
    var k := AttemptKey(h.id, h.job.attemptNo);
    if k in db.attempts && db.attempts[k].Open() {
      AttemptLeaves(db, k, Closed(db.attempts[k], LeaseExpired, Some(LEASE_EXPIRED), db.attempts[k].closing, now), now);
    }
  }

  lemma {:induction false} ReapRowsLeave(db: Db, rows: seq<HeldLease>, now: int)
    requires ReapRows(db, rows, now).Ok?
    ensures Leaves(db, ReapRows(db, rows, now).value, now)
    decreases |rows|
  {
    hide ReapRow, Leaves;
    LeavesAll(db, now);
    if rows != [] {
      var init := rows[..|rows| - 1];
      ReapRowsLeave(db, init, now);
      var before := ReapRows(db, init, now).value;
      ReapRowLeaves(before, rows[|rows| - 1], now);
      LeavesChain(db, before, ReapRow(before, rows[|rows| - 1], now).value, now);
    }
  }

  lemma ControlledLeaves(db: Db, id: string, cmd: ControlCommand, now: int)
    requires id in db.jobs && Controlled(db, id, cmd, now).Ok?
    ensures Leaves(db, Controlled(db, id, cmd, now).value, now)
  {
    hide Move, Leaves, ControlledJob;
    var fenced := Fence(db, id, ControlFailure(cmd), now).value;
    FenceLeaves(db, id, ControlFailure(cmd), now);
    var counted := fenced.(readySeq := ControlSeq(db, cmd));
    CountersLeave(fenced, counted, now);
    MoveLeaves(counted, id, ControlledJob(db, db.jobs[id], cmd, now), cmd.action.Kind(), now);
    LeavesChain(db, fenced, counted, now);
    LeavesChain(db, counted, Controlled(db, id, cmd, now).value, now);
  }

  lemma FenceLeaves(db: Db, id: string, failure: Failure, now: int)
    requires id in db.jobs && Fence(db, id, failure, now).Ok?
    ensures Leaves(db, Fence(db, id, failure, now).value, now) && Fence(db, id, failure, now).value.jobs == db.jobs
  {
    hide Leaves;
    LeavesAll(db, now);
    var k := Current(db, id);
    if db.jobs[id].state.Active() {
      var a := db.attempts[k];
      var kept := if a.failure.Some? then a.failure else Some(failure);
      AttemptLeaves(db, k, Closed(a, LeaseExpired, kept, a.closing, now), now);
    }
  }

  lemma ControlLeaves(db: Db, cmd: ControlCommand, now: int)
    requires ControlTx(db, cmd, now).Ok?
    ensures Leaves(db, ControlTx(db, cmd, now).value.db, now)
  {
    hide Controlled, Propagate, Leaves;
    LeavesAll(db, now);
    var k := OperationKey(db.jobs[cmd.job].tenant, cmd.action.Name(), cmd.key);
    if k !in db.operations {
      var moved := Controlled(db, cmd.job, cmd, now).value;
      var done := Propagate(moved, cmd.job, cmd.action.State(), now).value;
      ControlledLeaves(db, cmd.job, cmd, now);
      PropagateLeaves(moved, cmd.job, cmd.action.State(), now);
      LeavesChain(db, moved, done, now);
      CountersLeave(done, ControlTx(db, cmd, now).value.db, now);
      LeavesChain(db, done, ControlTx(db, cmd, now).value.db, now);
    }
  }

  // -------------------------------------------------------------------------- admission

  lemma AdmitLeaves(db: Db, id: string, job: Job, parents: set<string>, now: int)
    requires job.updatedAt == now && Admit(db, id, job, parents, now).Ok?
    ensures Leaves(db, Admit(db, id, job, parents, now).value, now)
  {
    hide Leaves, Written, Unsettled;
    var linked := db.(deps := db.deps + EdgesTo(id, parents));
    CountersLeave(db, linked, now);
    WrittenLeaves(linked, id, job, Admitted, now);
    LeavesChain(db, linked, Written(linked, id, job, Admitted, now), now);
  }

  lemma PreparedLeaves(cfg: Config, db: Db, tenant: string, queue: string, n: nat, ready: bool, now: int)
    requires EnsureAdmission(cfg, db, tenant, n).Ok?
    ensures Leaves(db, EnsureAdmission(cfg, db, tenant, n).value, now)
    ensures Leaves(db, Stamp(EnsureQueue(EnsureAdmission(cfg, db, tenant, n).value, tenant, queue), ready), now)
  {
    hide Leaves, EnsureAdmission, EnsureQueue, Stamp;
    var ensured := EnsureAdmission(cfg, db, tenant, n).value;
    EnsuredTables(cfg, db, tenant, n);
    QueuedTables(ensured, tenant, queue, ready);
    CountersLeave(db, ensured, now);
    CountersLeave(db, Stamp(EnsureQueue(ensured, tenant, queue), ready), now);
  }

  lemma EnsuredTables(cfg: Config, db: Db, tenant: string, n: nat)
    requires EnsureAdmission(cfg, db, tenant, n).Ok?
    ensures var r := EnsureAdmission(cfg, db, tenant, n).value; r == db.(tenants := r.tenants)
  {
    hide OpenJobs;
  }

  lemma QueuedTables(db: Db, tenant: string, queue: string, ready: bool)
    ensures var r := Stamp(EnsureQueue(db, tenant, queue), ready); r == db.(queues := r.queues, readySeq := r.readySeq)
  {
  }

  /** The new key, its reply aside. */
  ghost predicate Adds(a: Db, b: Db, now: int) {
    Unmarked(a.events, b.events) && Restamped(a, b, now)
  }

  lemma LeavesAdds(a: Db, b: Db, r: Db, now: int)
    requires Leaves(a, b, now) && r.events == b.events && r.jobs == b.jobs
    requires r.attempts == b.attempts && r.completions == b.completions
    ensures Adds(a, r, now)
  {
  }

  lemma SubmitAdds(cfg: Config, db: Db, sub: Submission, id: string, now: int)
    requires SubmitTx(cfg, db, sub, id, now).Ok?
    ensures Adds(db, SubmitTx(cfg, db, sub, id, now).value.db, now)
  {
    hide Blank, JobSpec.Valid, CheckDependencies, EnsureAdmission, EnsureQueue, Stamp, Admit, Leaves, Adds,
      AllSucceeded, AnyFailed;
    var spec := sub.spec.Normalize();
    LeavesAll(db, now);
    LeavesAdds(db, db, db, now);
    if RequestKey(spec.tenant, sub.key) !in db.requests {
      var ready := AllSucceeded(db, spec.dependsOn) && AvailableAt(spec, now) <= now;
      var queued := Stamp(EnsureQueue(EnsureAdmission(cfg, db, spec.tenant, 1).value, spec.tenant, spec.queue), ready);
      var job, parents := SubmittedJob(db, spec, now), (set d | d in spec.dependsOn);
      PreparedLeaves(cfg, db, spec.tenant, spec.queue, 1, ready, now);
      AdmitLeaves(queued, id, job, parents, now);
      var admitted := Admit(queued, id, job, parents, now).value;
      LeavesChain(db, queued, admitted, now);
      LeavesAdds(db, admitted, SubmitTx(cfg, db, sub, id, now).value.db, now);
    }
  }

  lemma NodeLeaves(db: Db, tenant: string, node: Node, id: string, now: int)
    requires AdmitNode(db, tenant, node, id, now).Ok?
    ensures Leaves(db, AdmitNode(db, tenant, node, id, now).value, now)
  {
    hide Leaves, Admit;
    var spec := NodeSpec(tenant, node);
    var ready := spec.dependsOn == [] && AvailableAt(spec, now) <= now;
    var queued := Stamp(EnsureQueue(db, tenant, spec.queue), ready);
    CountersLeave(db, queued, now);
    AdmitLeaves(queued, id, NodeJob(db, tenant, node, now), {}, now);
    LeavesChain(db, queued, AdmitNode(db, tenant, node, id, now).value, now);
  }

  lemma {:induction false} NodesLeave(db: Db, tenant: string, nodes: seq<Node>, ids: nat -> string, now: int)
    requires AdmitNodes(db, tenant, nodes, ids, now).Ok?
    ensures Leaves(db, AdmitNodes(db, tenant, nodes, ids, now).value, now)
    decreases |nodes|
  {
    hide AdmitNode, Leaves;
    LeavesAll(db, now);
    if nodes != [] {
      var n := |nodes| - 1;
      NodesLeave(db, tenant, nodes[..n], ids, now);
      var before := AdmitNodes(db, tenant, nodes[..n], ids, now).value;
      NodeLeaves(before, tenant, nodes[n], ids(n), now);
      LeavesChain(db, before, AdmitNode(before, tenant, nodes[n], ids(n), now).value, now);
    }
  }

  lemma WorkflowAdds(cfg: Config, db: Db, w: WorkflowSubmission, ids: nat -> string, now: int)
    requires WorkflowTx(cfg, db, w, ids, now).Ok?
    ensures Adds(db, WorkflowTx(cfg, db, w, ids, now).value.db, now)
  {
    hide Blank, NodesValid, EnsureAdmission, AdmitNodes, Leaves, Adds, NodeEdges, JobEdges;
    var tenant := if w.tenant == "" then "default" else w.tenant;
    LeavesAll(db, now);
    LeavesAdds(db, db, db, now);
    if RequestKey(tenant, w.key) !in db.requests {
      var ensured := EnsureAdmission(cfg, db, tenant, |w.nodes|).value;
      PreparedLeaves(cfg, db, tenant, "", |w.nodes|, false, now);
      NodesLeave(ensured, tenant, w.nodes, ids, now);
      var admitted := AdmitNodes(ensured, tenant, w.nodes, ids, now).value;
      LeavesChain(db, ensured, admitted, now);
      LeavesAdds(db, admitted, WorkflowTx(cfg, db, w, ids, now).value.db, now);
    }
  }

  lemma CloneLeaves(cfg: Config, db: Db, original: Job, id: string, now: int)
    requires CloneJob(cfg, db, original, id, now).Ok?
    ensures Leaves(db, CloneJob(cfg, db, original, id, now).value.db, now)
  {
    hide EnsureAdmission, EnsureQueue, Stamp, Admit, Leaves;
    var queued := Stamp(EnsureQueue(EnsureAdmission(cfg, db, original.tenant, 1).value, original.tenant, original.queue), true);
    var job := NewJob(CloneSpec(original), now, db.readySeq + 1, now);
    PreparedLeaves(cfg, db, original.tenant, original.queue, 1, true, now);
    AdmitLeaves(queued, id, job, {}, now);
    LeavesChain(db, queued, Admit(queued, id, job, {}, now).value, now);
  }

  /** Redrive and retry keep stamps and stored replies to submissions. */
  lemma ClonesRestamp(cfg: Config, db: Db, cmd: CloneCommand, id: string, now: int)
    ensures RedriveTx(cfg, db, cmd, id, now).Ok? ==>
      var r := RedriveTx(cfg, db, cmd, id, now).value.db; Restamped(db, r, now) && r.requests == db.requests
    ensures RetryTx(cfg, db, cmd, id, now).Ok? ==>
      var r := RetryTx(cfg, db, cmd, id, now).value.db; Restamped(db, r, now) && r.requests == db.requests
  {
    RedriveRestamps(cfg, db, cmd, id, now);
    RetryRestamps(cfg, db, cmd, id, now);
  }

  lemma RestampedWith(db: Db, b: Db, r: Db, now: int)
    requires Leaves(db, b, now) && r.jobs == b.jobs && r.attempts == b.attempts && r.completions == b.completions
    ensures Restamped(db, r, now)
  {
  }

  lemma RedriveRestamps(cfg: Config, db: Db, cmd: CloneCommand, id: string, now: int)
    ensures RedriveTx(cfg, db, cmd, id, now).Ok? ==>
      var r := RedriveTx(cfg, db, cmd, id, now).value.db; Restamped(db, r, now) && r.requests == db.requests
  {
    hide CloneJob, Leaves, Restamped;
    LeavesAll(db, now);
    RestampedWith(db, db, db, now);
    if RedriveTx(cfg, db, cmd, id, now).Ok? && RedriveTx(cfg, db, cmd, id, now).value.db != db {
      CloneLeaves(cfg, db, db.jobs[cmd.job], id, now);
      var cloned := CloneJob(cfg, db, db.jobs[cmd.job], id, now).value.db;
      SameReplies(db, cloned, now);
      RestampedWith(db, cloned, RedriveTx(cfg, db, cmd, id, now).value.db, now);
    }
  }

  lemma RetryRestamps(cfg: Config, db: Db, cmd: CloneCommand, id: string, now: int)
    ensures RetryTx(cfg, db, cmd, id, now).Ok? ==>
      var r := RetryTx(cfg, db, cmd, id, now).value.db; Restamped(db, r, now) && r.requests == db.requests
  {
    hide CloneJob, Leaves, Restamped;
    LeavesAll(db, now);
    RestampedWith(db, db, db, now);
    if RetryTx(cfg, db, cmd, id, now).Ok? && RetryTx(cfg, db, cmd, id, now).value.db != db {
      CloneLeaves(cfg, db, db.jobs[cmd.job], id, now);
      var cloned := CloneJob(cfg, db, db.jobs[cmd.job], id, now).value.db;
      SameReplies(db, cloned, now);
      RestampedWith(db, cloned, RetryTx(cfg, db, cmd, id, now).value.db, now);
    }
  }

  // ------------------------------------------------------------------ stored replies

  /** At most one reply is added, under a new key and about new jobs only. */
  ghost predicate Replies(a: Db, b: Db) {
    b.requests == a.requests || exists k: RequestKey, q: Request :: AddsReply(a, b, k, q)
  }

  ghost predicate AddsReply(a: Db, b: Db, k: RequestKey, q: Request) {
    k !in a.requests && b.requests == a.requests[k := q] && forall i :: 0 <= i < |q.rows| ==> q.rows[i].id !in a.jobs
  }

  lemma AdmittedNew(db: Db, id: string, job: Job, parents: set<string>, now: int)
    requires Admit(db, id, job, parents, now).Ok?
    ensures id !in db.jobs && Admit(db, id, job, parents, now).value.requests == db.requests
  {
  }

  lemma SubmitReplies(cfg: Config, db: Db, sub: Submission, id: string, now: int)
    requires SubmitTx(cfg, db, sub, id, now).Ok?
    ensures Replies(db, SubmitTx(cfg, db, sub, id, now).value.db)
  {
    hide Blank, JobSpec.Valid, CheckDependencies, EnsureAdmission, EnsureQueue, Stamp, Admit, Leaves, AllSucceeded, AnyFailed;
    var spec := sub.spec.Normalize();
    var k := RequestKey(spec.tenant, sub.key);
    if k !in db.requests {
      var ready := AllSucceeded(db, spec.dependsOn) && AvailableAt(spec, now) <= now;
      var queued := Stamp(EnsureQueue(EnsureAdmission(cfg, db, spec.tenant, 1).value, spec.tenant, spec.queue), ready);
      var job, parents := SubmittedJob(db, spec, now), (set d | d in spec.dependsOn);
      PreparedSame(cfg, db, spec.tenant, spec.queue, ready);
      AdmittedNew(queued, id, job, parents, now);
      var r := SubmitTx(cfg, db, sub, id, now).value.db;
      assert AddsReply(db, r, k, Request(JobRequest, sub.digest, [Row(id, job)]));
    }
  }

  lemma PreparedSame(cfg: Config, db: Db, tenant: string, queue: string, ready: bool)
    requires EnsureAdmission(cfg, db, tenant, 1).Ok?
    ensures var s := Stamp(EnsureQueue(EnsureAdmission(cfg, db, tenant, 1).value, tenant, queue), ready);
      s.jobs == db.jobs && s.requests == db.requests
  {
    hide EnsureAdmission, EnsureQueue, Stamp;
    EnsuredTables(cfg, db, tenant, 1);
    QueuedTables(EnsureAdmission(cfg, db, tenant, 1).value, tenant, queue, ready);
  }

  lemma WorkflowRequests(cfg: Config, db: Db, w: WorkflowSubmission, ids: nat -> string, now: int)
    requires WorkflowTx(cfg, db, w, ids, now).Ok?
    ensures var r := WorkflowTx(cfg, db, w, ids, now).value;
      var k := RequestKey(if w.tenant == "" then "default" else w.tenant, w.key);
      if r.reply.duplicate then r.db == db
      else k !in db.requests && r.db.requests == db.requests[k := Request(WorkflowRequest, w.digest, r.reply.rows)]
    ensures var r := WorkflowTx(cfg, db, w, ids, now).value;
      !r.reply.duplicate ==> forall i :: 0 <= i < |r.reply.rows| ==> i < |w.nodes| && r.reply.rows[i].id == ids(i)
  {
    hide Blank, NodesValid, EnsureAdmission, AdmitNodes, NodeEdges, JobEdges, Leaves;
    var tenant := if w.tenant == "" then "default" else w.tenant;
    if RequestKey(tenant, w.key) !in db.requests {
      var ensured := EnsureAdmission(cfg, db, tenant, |w.nodes|).value;
      PreparedLeaves(cfg, db, tenant, "", |w.nodes|, false, now);
      NodesLeave(ensured, tenant, w.nodes, ids, now);
      SameReplies(db, ensured, now);
      SameReplies(ensured, AdmitNodes(ensured, tenant, w.nodes, ids, now).value, now);
    }
  }

  lemma SameReplies(a: Db, b: Db, now: int)
    requires Leaves(a, b, now)
    ensures b.requests == a.requests && Replies(a, b)
  {
  }
}
