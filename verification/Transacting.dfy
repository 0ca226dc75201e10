/** The bodies of the store's transactions as code: queries, loops over their result rows, early
    returns.  Each method computes the transaction function of the same purpose. */
module Transacting {
  import opened Wrappers
  import opened Ordering
  import opened Graphs
  import opened Domain
  import opened Database
  import opened Transactions

  // --------------------------------------------------------------------------- queries

  ghost predicate FromTable(db: Db, r: Row) {
    r.id in db.jobs && r == Row(r.id, db.jobs[r.id])
  }

  lemma KeysTell(db: Db, x: Row, y: Row)
    requires FromTable(db, x) && FromTable(db, y)
    ensures DueKey(x) == DueKey(y) || IdKey(x) == IdKey(y) ==> x == y
  {
    assert DueKey(x)[1..] == Text(x.id) && DueKey(y)[1..] == Text(y.id);
    TextInjective(x.id, y.id);
  }

  method FindDue(tx: Db, now: int, limit: int) returns (rows: seq<Row>)
    ensures rows == DueRows(tx, now, limit)
  {
    hide Due;
    var matching := set id | id in tx.jobs && Due(tx, id, now) :: Row(id, tx.jobs[id]);
    forall x, y | x in matching && y in matching && DueKey(x) == DueKey(y) ensures x == y { KeysTell(tx, x, y); }
    var all := RunQuery(matching, DueKey);
    rows := Take(all, limit);
  }

  method FindChildren(tx: Db, parent: string, now: int) returns (rows: seq<Row>)
    ensures rows == ChildRows(tx, parent, now)
  {
    hide Activatable;
    var matching := set id | id in tx.jobs && Activatable(tx, id, parent, now) :: Row(id, tx.jobs[id]);
    forall x, y | x in matching && y in matching && IdKey(x) == IdKey(y) ensures x == y { KeysTell(tx, x, y); }
    rows := RunQuery(matching, IdKey);
  }

  method FindDescendants(tx: Db, root: string) returns (rows: seq<Row>)
    ensures rows == DescendantRows(tx, root)
  {
    hide Reaches;
    var found := CollectDescendants(tx.deps, root);
    var matching := set id | id in tx.jobs && id in found && !tx.jobs[id].state.Terminal() :: Row(id, tx.jobs[id]);
    assert matching
        == set id | id in tx.jobs && Reaches(tx.deps, root, id) && !tx.jobs[id].state.Terminal() :: Row(id, tx.jobs[id]);
    forall x, y | x in matching && y in matching && IdKey(x) == IdKey(y) ensures x == y { KeysTell(tx, x, y); }
    rows := RunQuery(matching, IdKey);
  }

  method FindExpired(tx: Db, now: int, limit: int) returns (rows: seq<HeldLease>)
    ensures rows == ExpiredRows(tx, now, limit)
  {
    hide Expired;
    var matching := ExpiredSet(tx, now);
    forall x, y | x in matching && y in matching && ExpiryKey(x) == ExpiryKey(y) ensures x == y {
      assert ExpiryKey(x)[1..] == Text(x.id) && ExpiryKey(y)[1..] == Text(y.id);
      TextInjective(x.id, y.id);
    }
    var all := RunQuery(matching, ExpiryKey);
    rows := Take(all, limit);
  }

  // ----------------------------------------------------------------- loops over the rows

  /** An error ends the loop, and with it the transaction. */
  lemma {:induction false} ReadyRowsStop(db: Db, rows: seq<Row>, n: nat, kind: EventKind, now: int)
    requires n <= |rows| && ReadyRows(db, rows[..n], kind, now).Err?
    ensures ReadyRows(db, rows, kind, now) == ReadyRows(db, rows[..n], kind, now)
    decreases |rows|
  {
    if n < |rows| {
      assert rows[..|rows| - 1][..n] == rows[..n];
      ReadyRowsStop(db, rows[..|rows| - 1], n, kind, now);
    } else {
      assert rows[..n] == rows;
    }
  }

  method ReadyAll(tx: Db, rows: seq<Row>, kind: EventKind, now: int) returns (r: Outcome)
    ensures r == ReadyRows(tx, rows, kind, now)
  {
    hide ReadyRow;
    var cur := tx;
    for n := 0 to |rows|
      invariant ReadyRows(tx, rows[..n], kind, now) == Ok(cur)
    {
      assert rows[..n + 1][..n] == rows[..n];
      var next := ReadyRow(cur, rows[n], kind, now);
      if next.Err? {
        ReadyRowsStop(tx, rows, n + 1, kind, now);
        return Err(next.error);
      }
      cur := next.value;
    }
    assert rows[..|rows|] == rows;
    r := Ok(cur);
  }

  lemma {:induction false} FailRowsStop(db: Db, rows: seq<Row>, n: nat, now: int)
    requires n <= |rows| && FailRows(db, rows[..n], now).Err?
    ensures FailRows(db, rows, now) == FailRows(db, rows[..n], now)
    decreases |rows|
  {
    if n < |rows| {
      assert rows[..|rows| - 1][..n] == rows[..n];
      FailRowsStop(db, rows[..|rows| - 1], n, now);
    } else {
      assert rows[..n] == rows;
    }
  }

  /** failDescendants. */
  method FailDescendantsTx(tx: Db, root: string, now: int) returns (r: Outcome)
    ensures r == FailDescendants(tx, root, now)
  {
    var rows := FindDescendants(tx, root);
    r := FailAll(tx, rows, now);
  }

  method FailAll(tx: Db, rows: seq<Row>, now: int) returns (r: Outcome)
    ensures r == FailRows(tx, rows, now)
  {
    hide FailRow;
    var cur := tx;
    for n := 0 to |rows|
      invariant FailRows(tx, rows[..n], now) == Ok(cur)
    {
      assert rows[..n + 1][..n] == rows[..n];
      var next := FailRow(cur, rows[n], now);
      if next.Err? {
        FailRowsStop(tx, rows, n + 1, now);
        return Err(next.error);
      }
      cur := next.value;
    }
    assert rows[..|rows|] == rows;
    r := Ok(cur);
  }

  /** activateChildren. */
  method ActivateChildrenTx(tx: Db, parent: string, now: int) returns (r: Outcome)
    ensures r == ActivateChildren(tx, parent, now)
  {
    var rows := FindChildren(tx, parent, now);
    r := ReadyAll(tx, rows, DependencyReleased, now);
  }

  method PropagateTx(tx: Db, id: string, state: JobState, now: int) returns (r: Outcome)
    ensures r == Propagate(tx, id, state, now)
  {
    hide ActivateChildren, FailDescendants;
    if state.Succeeded? {
      r := ActivateChildrenTx(tx, id, now);
    } else if state.Terminal() {
      r := FailDescendantsTx(tx, id, now);
    } else {
      r := Ok(tx);
    }
  }

  // ------------------------------------------------------------------------- completion

  /** applyCompletionTx. */
  method ApplyCompletion(cfg: Config, tx: Db, c: Completion, now: int) returns (r: Reply<Receipt>)
    ensures r == CompleteTx(cfg, tx, c, now)
  {
    hide CloseLease, Propagate;
    var k := AttemptKey(c.ref.job, c.ref.attemptNo);
    if k !in tx.attempts || c.ref.job !in tx.jobs { return Err(StaleLease); }
    var a := tx.attempts[k];
    if a.worker != c.worker || a.generation != c.ref.generation || a.token != c.ref.token { return Err(StaleLease); }
    if a.closing.Some? {
      if a.closing.value.request != c { return Err(StaleLease); }
      return Ok(Tx(tx, Receipt(c.ref.job, a.closing.value.state, a.closing.value.version, a.closing.value.committedAt, true)));
    }
    if !Completable(tx, c, now) { return Err(StaleLease); }
    var state := Verdict(tx.jobs[c.ref.job], c);
    var closed := CloseLease(cfg, tx, c, now);
    if closed.Err? { return Err(closed.error); }
    var done := PropagateTx(closed.value, c.ref.job, state, now);
    if done.Err? { return Err(done.error); }
    r := Ok(Tx(done.value, Receipt(c.ref.job, state, tx.jobs[c.ref.job].version + 1, now, false)));
  }

  lemma {:induction false} CompleteAllStops(cfg: Config, db: Db, cs: seq<Completion>, n: nat, now: int)
    requires n <= |cs| && CompleteAll(cfg, db, cs[..n], now).Err?
    ensures CompleteAll(cfg, db, cs, now) == CompleteAll(cfg, db, cs[..n], now)
    decreases |cs|
  {
    hide CompleteTx;
    if n < |cs| {
      assert cs[..|cs| - 1][..n] == cs[..n];
      CompleteAllStops(cfg, db, cs[..|cs| - 1], n, now);
    } else {
      assert cs[..n] == cs;
    }
  }

  /** The loop of CompleteBatch: one completion after the other, stale ones reported and skipped. */
  method ApplyCompletions(cfg: Config, tx: Db, cs: seq<Completion>, now: int) returns (r: Reply<seq<Option<Receipt>>>)
    ensures r == CompleteAll(cfg, tx, cs, now)
  {
    hide CompleteTx;
    var cur, results := tx, [];
    for n := 0 to |cs|
      invariant CompleteAll(cfg, tx, cs[..n], now) == Ok(Tx(cur, results))
    {
      assert cs[..n + 1][..n] == cs[..n];
      var one := ApplyCompletion(cfg, cur, cs[n], now);
      if one.Err? && one.error.StaleLease? {
        results := results + [None];
      } else if one.Err? {
        CompleteAllStops(cfg, tx, cs, n + 1, now);
        return Err(one.error);
      } else {
        cur, results := one.value.db, results + [Some(one.value.reply)];
      }
    }
    assert cs[..|cs|] == cs;
    r := Ok(Tx(cur, results));
  }

  // -------------------------------------------------------------- starting and heartbeats

  /** markRunningTx. */
  method StartOne(tx: Db, worker: string, ref: LeaseRef, now: int) returns (r: Outcome)
    ensures r == StartTx(tx, worker, ref, now)
  {
    hide Move;
    var k := AttemptKey(ref.job, ref.attemptNo);
    if k !in tx.attempts || ref.job !in tx.jobs { return Err(StaleLease); }
    var attempt, job := tx.attempts[k], tx.jobs[ref.job];
    if attempt.worker != worker || attempt.generation != ref.generation || attempt.token != ref.token { return Err(StaleLease); }
    if job.attemptNo != ref.attemptNo || job.generation != ref.generation { return Err(StaleLease); }
    if attempt.expiresAt <= now { return Err(StaleLease); }
    if attempt.state.LeaseRunning? && job.state.Running? { return Ok(tx); }
    if !attempt.state.LeaseHeld? || !job.state.Scheduled? { return Err(StaleLease); }
    var marked := tx.(attempts := tx.attempts[k := attempt.(state := LeaseRunning)]);
    r := Move(marked, ref.job, job.(state := Running), AttemptStarted, now);
  }

  lemma {:induction false} StartAllStops(db: Db, worker: string, refs: seq<LeaseRef>, n: nat, now: int)
    requires n <= |refs| && StartAll(db, worker, refs[..n], now).Err?
    ensures StartAll(db, worker, refs, now) == StartAll(db, worker, refs[..n], now)
    decreases |refs|
  {
    hide StartTx;
    if n < |refs| {
      assert refs[..|refs| - 1][..n] == refs[..n];
      StartAllStops(db, worker, refs[..|refs| - 1], n, now);
    } else {
      assert refs[..n] == refs;
    }
  }

  /** The loop of MarkRunningBatch. */
  method StartEach(tx: Db, worker: string, refs: seq<LeaseRef>, now: int) returns (r: Reply<seq<bool>>)
    ensures r == StartAll(tx, worker, refs, now)
  {
    hide StartTx;
    var cur, results := tx, [];
    for n := 0 to |refs|
      invariant StartAll(tx, worker, refs[..n], now) == Ok(Tx(cur, results))
    {
      assert refs[..n + 1][..n] == refs[..n];
      var one := StartOne(cur, worker, refs[n], now);
      if one.Err? && one.error.StaleLease? {
        results := results + [false];
      } else if one.Err? {
        StartAllStops(tx, worker, refs, n + 1, now);
        return Err(one.error);
      } else {
        cur, results := one.value, results + [true];
      }
    }
    assert refs[..|refs|] == refs;
    r := Ok(Tx(cur, results));
  }

  /** The loop of Heartbeat. */
  method BeatEach(tx: Db, worker: string, refs: seq<LeaseRef>, ttl: int, now: int) returns (r: Tx<seq<bool>>)
    ensures r == BeatAll(tx, worker, refs, ttl, now)
  {
    hide Beat, BeatAccepted;
    var cur, results := tx, [];
    for n := 0 to |refs|
      invariant BeatAll(tx, worker, refs[..n], ttl, now) == Tx(cur, results)
    {
      assert refs[..n + 1][..n] == refs[..n];
      results := results + [BeatAccepted(cur, worker, refs[n], now)];
      cur := Beat(cur, worker, refs[n], ttl, now);
    }
    assert refs[..|refs|] == refs;
    r := Tx(cur, results);
  }

  // ------------------------------------------------------------------------- maintenance

  method Promote(tx: Db, limit: int, now: int) returns (r: Reply<nat>)
    ensures r == PromoteTx(tx, limit, now)
  {
    hide DueRows;
    var rows := FindDue(tx, now, limit);
    var done := ReadyAll(tx, rows, Promoted, now);
    if done.Err? { return Err(done.error); }
    r := Ok(Tx(done.value, |rows|));
  }

  /** reapAttempt. */
  method ReapAttempt(tx: Db, h: HeldLease, now: int) returns (r: Outcome)
    ensures r == ReapRow(tx, h, now)
  {
    hide FailDescendants, Move, ReleaseSlots;
    if !StillHeld(tx, h) {
      var released := ReleaseSlots(tx, h.job.tenant, h.job.queue, h.job.cost);
      if released.Err? { return Err(released.error); }
      return Err(StaleLease);
    }
    var job, expired := tx.jobs[h.id], ExpireAttempt(tx, h, now);
    if job.attemptNo < job.retry.maxAttempts {
      var n := tx.readySeq + 1;
      r := Move(expired.(readySeq := n), h.id,
                job.(state := Pending, availableAt := now, readySeq := n, recovery := true, failure := Some(LEASE_EXPIRED)),
                LeaseReaped, now);
    } else {
      var dead := Move(expired, h.id, Settled(job, DeadLetter, Some(LEASE_EXPIRED), now), LeaseReaped, now);
      if dead.Err? { return Err(dead.error); }
      r := FailDescendantsTx(dead.value, h.id, now);
    }
  }

  lemma {:induction false} ReapRowsStop(db: Db, rows: seq<HeldLease>, n: nat, now: int)
    requires n <= |rows| && ReapRows(db, rows[..n], now).Err?
    ensures ReapRows(db, rows, now) == ReapRows(db, rows[..n], now)
    decreases |rows|
  {
    hide ReapRow;
    if n < |rows| {
      assert rows[..|rows| - 1][..n] == rows[..n];
      ReapRowsStop(db, rows[..|rows| - 1], n, now);
    } else {
      assert rows[..n] == rows;
    }
  }

  method Reap(tx: Db, limit: int, now: int) returns (r: Reply<seq<ReapedLease>>)
    ensures r == ReapTx(tx, limit, now)
  {
    hide ReapRow, ExpiredRows;
    var rows := FindExpired(tx, now, limit);
    var cur, reaped := tx, [];
    for n := 0 to |rows|
      invariant ReapRows(tx, rows[..n], now) == Ok(cur)
      invariant |reaped| == n && forall i :: 0 <= i < n ==> reaped[i] == Reaped(rows[i], now)
    {
      assert rows[..n + 1][..n] == rows[..n];
      var next := ReapAttempt(cur, rows[n], now);
      if next.Err? {
        ReapRowsStop(tx, rows, n + 1, now);
        return Err(next.error);
      }
      cur, reaped := next.value, reaped + [Reaped(rows[n], now)];
    }
    assert rows[..|rows|] == rows;
    assert reaped == ReapedAll(rows, now);
    r := Ok(Tx(cur, reaped));
  }

  // ------------------------------------------------------------------- operator control

  /** ApplyJobControl. */
  method ApplyControl(tx: Db, cmd: ControlCommand, now: int) returns (r: Reply<Response>)
    ensures r == ControlTx(tx, cmd, now)
  {
    hide Controlled, Propagate, RecordOperation;
    if cmd.job !in tx.jobs { return Err(NotFound); }
    var job := tx.jobs[cmd.job];
    var k := OperationKey(job.tenant, cmd.action.Name(), cmd.key);
    var found := ReadOperation(tx, k, cmd.digest);
    if found.Err? { return Err(found.error); }
    if found.value.Some? { return Ok(Tx(tx, found.value.value)); }
    if job.state.Terminal() { return Err(TerminalJob); }
    var moved := Controlled(tx, cmd.job, cmd, now);
    if moved.Err? { return Err(moved.error); }
    var done := PropagateTx(moved.value, cmd.job, cmd.action.State(), now);
    if done.Err? { return Err(done.error); }
    var response := Acted(ActionReceipt(cmd.job, cmd.action.State(), job.version + 1, now));
    r := Ok(Tx(RecordOperation(done.value, k, cmd.digest, response), response));
  }

  // ------------------------------------------------------------------- redrive and retry

  lemma CloneSettlesNothing(cfg: Config, db: Db, original: Job, id: string, now: int)
    requires CloneJob(cfg, db, original, id, now).Ok?
    ensures var r := CloneJob(cfg, db, original, id, now).value.db;
      r.deadLetters == db.deadLetters && forall j :: j in db.jobs ==> j in r.jobs
  {
    hide EnsureAdmission;
    EnsuredRows(cfg, db, original.tenant);
  }

  lemma EnsuredRows(cfg: Config, db: Db, tenant: string)
    requires EnsureAdmission(cfg, db, tenant, 1).Ok?
    ensures var r := EnsureAdmission(cfg, db, tenant, 1).value; r == db.(tenants := r.tenants)
  {
    hide OpenJobs;
  }

  /** cloneJob. */
  method CloneOne(cfg: Config, tx: Db, original: Job, id: string, now: int) returns (r: Reply<Row>)
    ensures r == CloneJob(cfg, tx, original, id, now)
  {
    hide EnsureAdmission, Admit;
    var ensured := EnsureAdmission(cfg, tx, original.tenant, 1);
    if ensured.Err? { return Err(ensured.error); }
    var queued := EnsureQueue(ensured.value, original.tenant, original.queue);
    var n := tx.readySeq + 1;
    var spec := JobSpec(
      original.tenant, original.queue, original.priority, original.cost, original.payload, original.retry, [], None);
    var job := NewJob(spec, now, n, now);
    var admitted := Admit(Stamp(queued, true), id, job, {}, now);
    if admitted.Err? { return Err(admitted.error); }
    r := Ok(Tx(admitted.value, Row(id, job)));
  }

  /** RedriveDeadLetterControl and RedriveDeadLetter. */
  method RedriveOne(cfg: Config, tx: Db, cmd: CloneCommand, id: string, now: int) returns (r: Reply<Response>)
    ensures r == RedriveTx(cfg, tx, cmd, id, now)
  {
    hide CloneJob, Note, RecordOperation;
    if cmd.job !in tx.deadLetters || cmd.job !in tx.jobs { return Err(NotFound); }
    var original := tx.jobs[cmd.job];
    var k := OperationKey(original.tenant, REDRIVE, cmd.key);
    var found := ReadOperation(tx, k, cmd.digest);
    if found.Err? { return Err(found.error); }
    if found.value.Some? { return Ok(Tx(tx, found.value.value)); }
    if tx.deadLetters[cmd.job].redriven.Some? { return Err(AlreadyRedriven); }
    var cloned := CloneOne(cfg, tx, original, id, now);
    if cloned.Err? { return Err(cloned.error); }
    CloneSettlesNothing(cfg, tx, original, id, now);
    var letters := cloned.value.db.deadLetters;
    var linked := cloned.value.db.(deadLetters := letters[cmd.job := letters[cmd.job].(redriven := Some(id))]);
    var noted := Note(linked, cmd.job, OperatorRedrive, now);
    var response := Created(cloned.value.reply);
    r := Ok(Tx(RecordOperation(noted, k, cmd.digest, response), response));
  }

  /** RetryJobControl. */
  method RetryOne(cfg: Config, tx: Db, cmd: CloneCommand, id: string, now: int) returns (r: Reply<Response>)
    ensures r == RetryTx(cfg, tx, cmd, id, now)
  {
    hide CloneJob, Note, RecordOperation;
    if cmd.job !in tx.jobs { return Err(NotFound); }
    var original := tx.jobs[cmd.job];
    var k := OperationKey(original.tenant, RETRY, cmd.key);
    var found := ReadOperation(tx, k, cmd.digest);
    if found.Err? { return Err(found.error); }
    if found.value.Some? { return Ok(Tx(tx, found.value.value)); }
    if !original.state.Terminal() { return Err(Conflict); }
    var cloned := CloneOne(cfg, tx, original, id, now);
    if cloned.Err? { return Err(cloned.error); }
    CloneSettlesNothing(cfg, tx, original, id, now);
    var noted := Note(cloned.value.db, cmd.job, OperatorRetry, now);
    var response := Created(cloned.value.reply);
    r := Ok(Tx(RecordOperation(noted, k, cmd.digest, response), response));
  }
}
