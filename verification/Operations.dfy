/** Starting, heartbeats and operator control keep the store consistent. */
module Operations {
  import opened Graphs
  import opened Domain
  import opened Database
  import opened Transactions
  import opened Accounts
  import opened Ledger
  import opened Journal
  import opened Fencing
  import opened Lifetime
  import opened Dependencies
  import opened Invariant
  import opened Steps
  import opened Preservation

  // ------------------------------------------------------------- starting and heartbeats

  /** Starting either succeeds or finds the lease stale. */
  lemma StartKeeps(db: Db, worker: string, ref: LeaseRef, now: int)
    requires Consistent(db)
    ensures var r := StartTx(db, worker, ref, now);
      if r.Ok? then Kept(db, r.value, now) else r.error.StaleLease?
  {
    hide SlotsConserved, OneOutcome, Journaled, LifetimesBounded, BackoffKept, Fenced, Acyclic, Logged, Evolves,
      StartTx, NoStrays, Cleared, Gated;
    StartSound(db, worker, ref, now);
    var r := StartTx(db, worker, ref, now);
    if r.Ok? && r.value != db {
      ActiveHasBegun(db, ref.job);
      RetryGates(db, r.value, ref.job);
    }
  }

  /** A batch of starts never aborts. */
  lemma {:induction false} StartAllKeeps(db: Db, worker: string, refs: seq<LeaseRef>, now: int)
    requires Consistent(db)
    ensures StartAll(db, worker, refs, now).Ok? && Kept(db, StartAll(db, worker, refs, now).value.db, now)
    ensures |StartAll(db, worker, refs, now).value.reply| == |refs|
  {
    hide Consistent, Kept, Evolves, StartTx, Orderly;
    if refs == [] {
      KeptReflexive(db, now);
    } else {
      var init, last := refs[..|refs| - 1], refs[|refs| - 1];
      StartAllKeeps(db, worker, init, now);
      var before := StartAll(db, worker, init, now).value.db;
      KeptConsistent(db, before, now);
      StartKeeps(before, worker, last, now);
      var r := StartTx(before, worker, last, now);
      if r.Ok? { KeptChain(db, before, r.value, now); }
    }
  }

  lemma BeatKeeps(db: Db, worker: string, ref: LeaseRef, ttl: int, now: int)
    requires Consistent(db) && ttl > 0
    ensures Kept(db, Beat(db, worker, ref, ttl, now), now) && Beat(db, worker, ref, ttl, now).jobs == db.jobs
  {
    hide SlotsConserved, OneOutcome, Journaled, LifetimesBounded, BackoffKept, Fenced, Acyclic, Logged, Evolves, Beat,
      NoStrays, Cleared, Gated;
    BeatSound(db, worker, ref, ttl, now);
  }

  /** Heartbeats change no job. */
  lemma {:induction false} BeatAllKeeps(db: Db, worker: string, refs: seq<LeaseRef>, ttl: int, now: int)
    requires Consistent(db) && ttl > 0
    ensures Kept(db, BeatAll(db, worker, refs, ttl, now).db, now) && BeatAll(db, worker, refs, ttl, now).db.jobs == db.jobs
    ensures |BeatAll(db, worker, refs, ttl, now).reply| == |refs|
  {
    hide Consistent, Kept, Evolves, Beat, Orderly;
    if refs == [] {
      KeptReflexive(db, now);
    } else {
      var init, last := refs[..|refs| - 1], refs[|refs| - 1];
      BeatAllKeeps(db, worker, init, ttl, now);
      var before := BeatAll(db, worker, init, ttl, now).db;
      KeptConsistent(db, before, now);
      BeatKeeps(before, worker, last, ttl, now);
      KeptChain(db, before, Beat(before, worker, last, ttl, now), now);
    }
  }

  // -------------------------------------------------------------------- operator control

  /** A release of a job some of whose parents have not succeeded. */
  ghost predicate BlockedRelease(db: Db, cmd: ControlCommand) {
    cmd.action.ForceRelease? && !ParentsSucceeded(db, cmd.job)
  }

  /** Storing the reply of an operation under a new key changes nothing else. */
  lemma RecordKeeps(db: Db, k: OperationKey, digest: string, response: Response, now: int)
    requires Consistent(db) && k !in db.operations
    ensures Kept(db, RecordOperation(db, k, digest, response), now)
  {
    hide LifetimesBounded, BackoffKept, Fenced, Acyclic, OneOutcome, Journaled, Logged, Evolves, TenantsBalanced,
      QueuesBalanced, DepthBounded, Housed, Gated, Cleared, NoStrays;
    BooksSound(db, RecordOperation(db, k, digest, response), now);
  }

  lemma ReleaseGates(db: Db, r: Db, cmd: ControlCommand)
    requires Gated(db.jobs, db.deps) && Acyclic(db.deps) && cmd.job in db.jobs && !db.jobs[cmd.job].state.Terminal()
    requires cmd.action.ForceRelease? && ControlledTo(db, r, cmd.job, cmd)
    ensures Gated(r.jobs, r.deps)
    ensures Cleared(db.jobs, db.deps) && !BlockedRelease(db, cmd) ==> Cleared(r.jobs, r.deps)
  {
    hide Acyclic;
    assert r.jobs == db.jobs[cmd.job := r.jobs[cmd.job]];
    GatedMove(db.jobs, db.deps, cmd.job, r.jobs[cmd.job]);
    if Cleared(db.jobs, db.deps) && !BlockedRelease(db, cmd) {
      ClearedMove(db.jobs, db.deps, cmd.job, r.jobs[cmd.job]);
    }
  }

  lemma ControlPropagates(db: Db, cmd: ControlCommand, now: int)
    requires Consistent(db) && cmd.job in db.jobs && !db.jobs[cmd.job].state.Terminal()
    ensures Controlled(db, cmd.job, cmd, now).Ok?
    ensures var r := Propagate(Controlled(db, cmd.job, cmd, now).value, cmd.job, cmd.action.State(), now);
      && r.Ok? && Consistent(r.value) && Evolves(db, r.value, now) && r.value.operations == db.operations
      && (Orderly(db) && !BlockedRelease(db, cmd) ==> Orderly(r.value))
  {
    hide SlotsConserved, OneOutcome, Journaled, LifetimesBounded, BackoffKept, Fenced, Acyclic, Logged, Evolves,
      FailDescendants, Controlled, NoStrays, Cleared, Gated, BlockedRelease, TookDown;
    ControlSound(db, cmd.job, cmd, now);
    var moved := Controlled(db, cmd.job, cmd, now).value;
    if cmd.action.ForceRelease? {
      ReleaseGates(db, moved, cmd);
    } else {
      FailDescendantsKeeps(db, moved, cmd.job, now);
      NotBlocked(db, cmd);
    }
  }

  lemma NotBlocked(db: Db, cmd: ControlCommand)
    requires !cmd.action.ForceRelease?
    ensures !BlockedRelease(db, cmd)
  {
  }

  /** Operator control of an unfinished job always succeeds, and only a blocked release can make the
      store disorderly. */
  lemma ControlKeeps(db: Db, cmd: ControlCommand, now: int)
    requires Consistent(db)
    ensures var r := ControlTx(db, cmd, now);
      if r.Ok? then
        Consistent(r.value.db) && Evolves(db, r.value.db, now) && (Orderly(db) && !BlockedRelease(db, cmd) ==>
              Orderly(r.value.db))
      else r.error in {NotFound, IdempotencyConflict, TerminalJob}
  {
    hide Consistent, Evolves, Orderly, Controlled, Propagate, RecordOperation, BlockedRelease;
    EvolvesReflexive(db, now);
    if cmd.job in db.jobs && !db.jobs[cmd.job].state.Terminal() {
      ControlPropagates(db, cmd, now);
      var k := OperationKey(db.jobs[cmd.job].tenant, cmd.action.Name(), cmd.key);
      var done := Propagate(Controlled(db, cmd.job, cmd, now).value, cmd.job, cmd.action.State(), now).value;
      var response := Acted(ActionReceipt(cmd.job, cmd.action.State(), db.jobs[cmd.job].version + 1, now));
      if k !in db.operations {
        RecordKeeps(done, k, cmd.digest, response, now);
        EvolvesTransitive(db, done, RecordOperation(done, k, cmd.digest, response), now);
      }
    }
  }
}
