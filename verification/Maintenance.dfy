/** Promotion and reaping keep the store consistent, and exactly when reaping must abort. */
module Maintenance {
  import opened Wrappers
  import opened Ordering
  import opened Graphs
  import opened Domain
  import opened Database
  import opened Transactions
  import opened Accounts
  import opened Ledger
  import opened Journal
  import opened Fencing
  import opened Lifetime
  import opened Dependencies
  import opened Invariant
  import opened Steps
  import opened Loops
  import opened Preservation

  // ------------------------------------------------------------------------- promotion

  /** Promotion never fails; it makes min(limit, due) due jobs ready and touches no other. */
  lemma PromoteKeeps(db: Db, limit: int, now: int)
    requires Consistent(db)
    ensures var r, rows := PromoteTx(db, limit, now), DueRows(db, now, limit);
      && r.Ok? && Kept(db, r.value.db, now) && r.value.reply == |rows| && OnlyListed(db, r.value.db, rows)
      && forall i :: 0 <= i < |rows| ==> Due(db, rows[i].id, now) && Readied(db.jobs[rows[i].id], r.value.db.jobs[rows[i].id])
  {
    hide Sound, Evolves, ReadyRows, NoStrays, Cleared, Gated, DueRows, ParentsSucceeded, Readied;
    var rows := DueRows(db, now, limit);
    DueSelected(db, now, limit);
    forall i | 0 <= i < |rows| ensures Waiting(rows[i].job) && Due(db, rows[i].id, now) {
      assert rows[i].id in db.jobs;
    }
    ReadyRowsSound(db, rows, Promoted, now);
    var r := ReadyRows(db, rows, Promoted, now).value;
    forall j | j in db.jobs
      ensures r.jobs[j] == db.jobs[j] || (Waiting(db.jobs[j]) && ParentsSucceeded(db, j) && Readied(db.jobs[j], r.jobs[j]))
    {
      if Listed(rows, j) { var i :| 0 <= i < |rows| && rows[i].id == j; }
    }
    ReadiedGates(db, r);
  }

  // --------------------------------------------------------------------------- reaping

  /** Leases as the reaper selects them: current, open, each job once. */
  ghost predicate Held(db: Db, rows: seq<HeldLease>) {
    && (forall i :: 0 <= i < |rows| ==>
          rows[i].id in db.jobs && db.jobs[rows[i].id] == rows[i].job && rows[i].job.state.Active())
    && (forall i, j :: 0 <= i < j < |rows| ==> rows[i].id != rows[j].id)
  }

  lemma ExpiredHeld(db: Db, now: int, limit: int)
    ensures Held(db, ExpiredRows(db, now, limit))
    ensures |ExpiredRows(db, now, limit)|
         == if limit < 0 then 0 else if limit < |ExpiredSet(db, now)| then limit else |ExpiredSet(db, now)|
  {
    hide ExpiredSet, Expired, Query, Take;
    var s := ExpiredSet(db, now);
    var rows := Query(s, ExpiryKey);
    forall i | 0 <= i < |rows|
      ensures rows[i].id in db.jobs && db.jobs[rows[i].id] == rows[i].job && rows[i].job.state.Active()
    {
      assert rows[i] in s;
      ExpiredLease(db, now, rows[i]);
    }
    forall i, j | 0 <= i < j < |rows| ensures rows[i].id != rows[j].id {
      assert rows[i] in s && rows[j] in s;
      ExpiredLease(db, now, rows[i]);
      ExpiredLease(db, now, rows[j]);
    }
  }

  lemma ExpiredLease(db: Db, now: int, h: HeldLease)
    requires h in ExpiredSet(db, now)
    ensures h.id in db.jobs && Current(db, h.id) in db.attempts && Expired(db, h.id, now)
    ensures h == HeldLease(h.id, db.attempts[Current(db, h.id)], db.jobs[h.id])
  {
  }

  /** The last attempt the job's retry policy allows. */
  predicate Exhausted(h: HeldLease) {
    h.job.attemptNo >= h.job.retry.maxAttempts
  }

  /** An earlier exhausted lease of the batch takes row `i` down before its turn. */
  ghost predicate Doomed(db: Db, rows: seq<HeldLease>, i: int)
    requires 0 <= i < |rows|
  {
    exists k :: 0 <= k < i && Exhausted(rows[k]) && Reaches(db.deps, rows[k].id, rows[i].id)
  }

  ghost predicate SomeDoomed(db: Db, rows: seq<HeldLease>) {
    exists i :: 0 <= i < |rows| && Doomed(db, rows, i)
  }

  ghost predicate Hit(db: Db, rows: seq<HeldLease>, j: string) {
    exists i :: 0 <= i < |rows| && (rows[i].id == j || (Exhausted(rows[i]) && Reaches(db.deps, rows[i].id, j)))
  }

  /** The lease is over: its attempt is expired and the job runs no more. */
  ghost predicate Reclaimed(r: Db, h: HeldLease) {
    var k := AttemptKey(h.id, h.job.attemptNo);
    && k in r.attempts && r.attempts[k].state.LeaseExpired?
    && h.id in r.jobs && !r.jobs[h.id].state.Active() && (Exhausted(h) ==> r.jobs[h.id].state.DeadLetter?)
  }

  ghost predicate Swept(db: Db, r: Db, rows: seq<HeldLease>) {
    && r.jobs.Keys == db.jobs.Keys && r.deps == db.deps
    && (forall j :: j in db.jobs && !Hit(db, rows, j) ==> r.jobs[j] == db.jobs[j])
    && (forall i, j :: 0 <= i < |rows| && j in db.jobs && Exhausted(rows[i]) && Reaches(db.deps, rows[i].id, j) ==>
          r.jobs[j].state.Terminal())
    && (forall i :: 0 <= i < |rows| ==> Reclaimed(r, rows[i]))
  }

  ghost predicate Requeued(db: Db, r: Db, id: string, now: int) {
    && r.deps == db.deps && r.jobs.Keys == db.jobs.Keys && id in db.jobs
    && (forall j :: j in db.jobs && j != id ==> r.jobs[j] == db.jobs[j])
    && r.jobs[id].state.Pending? && r.jobs[id].readySeq > 0 && r.jobs[id].recovery && r.jobs[id].availableAt == now
  }

  /** Reaping one lease that is still held always succeeds. */
  lemma ReapRowKeeps(db: Db, h: HeldLease, now: int)
    requires Consistent(db) && h.id in db.jobs && db.jobs[h.id] == h.job && h.job.state.Active()
    ensures var r := ReapRow(db, h, now);
      && r.Ok? && Kept(db, r.value, now) && Reclaimed(r.value, h)
      && (if Exhausted(h) then TookDown(db, r.value, h.id) else Requeued(db, r.value, h.id, now))
  {
    hide Sound, Evolves, Move, FailDescendants, NoStrays, Cleared, Gated, TookDown;
    SoundFenced(db);
    OpenHasNoReceipt(db, h.id);
    if Exhausted(h) { ReapLast(db, h, now); } else { ReapAgain(db, h, now); }
  }

  lemma ReapLegal(db: Db, id: string, n: nat, now: int)
    requires Sound(db) && id in db.jobs && db.jobs[id].state.Active() && n > 0
    ensures var next := Settled(db.jobs[id], DeadLetter, Some(LEASE_EXPIRED), now);
      LegalMove(db.jobs[id], next, LeaseReaped) && WellFormed(next.(version := 1))
    ensures var next := db.jobs[id].(state := Pending, availableAt := now, readySeq := n, recovery := true,
        failure := Some(LEASE_EXPIRED));
      db.jobs[id].attemptNo < db.jobs[id].retry.maxAttempts ==>
        LegalMove(db.jobs[id], next, LeaseReaped) && WellFormed(next.(version := 1))
  {
    hide SlotsConserved, Journaled, LifetimesBounded, Acyclic, Logged, BackoffKept, Fenced, CompletionsMatch, DeadLettersMatch;
    assert WellFormed(db.jobs[id]);
  }

  lemma ReapAgain(db: Db, h: HeldLease, now: int)
    requires Consistent(db) && h.id in db.jobs && db.jobs[h.id] == h.job && h.job.state.Active() && !Exhausted(h)
    requires Current(db, h.id) in db.attempts && db.attempts[Current(db, h.id)].Open()
    ensures var r := ReapRow(db, h, now);
      r.Ok? && Kept(db, r.value, now) && Reclaimed(r.value, h) && Requeued(db, r.value, h.id, now)
  {
    hide SlotsConserved, OneOutcome, Journaled, LifetimesBounded, BackoffKept, Fenced, Acyclic, Logged, Evolves, Move,
      NoStrays, Cleared, Gated, LegalMove, WellFormed;
    var id, n, k := h.id, db.readySeq + 1, Current(db, h.id);
    var next := h.job.(state := Pending, availableAt := now, readySeq := n, recovery := true, failure := Some(LEASE_EXPIRED));
    var a := Closed(db.attempts[k], LeaseExpired, Some(LEASE_EXPIRED), db.attempts[k].closing, now);
    ReapLegal(db, id, n, now);
    FenceSound(db, id, a, n, next, LeaseReaped, now);
    assert ExpireAttempt(db, h, now).(readySeq := n) == Base(db, db.attempts[k := a], n);
    ActiveHasBegun(db, id);
    RetryGates(db, ReapRow(db, h, now).value, id);
  }

  lemma ReapLast(db: Db, h: HeldLease, now: int)
    requires Consistent(db) && h.id in db.jobs && db.jobs[h.id] == h.job && h.job.state.Active() && Exhausted(h)
    requires Current(db, h.id) in db.attempts && db.attempts[Current(db, h.id)].Open()
    ensures var r := ReapRow(db, h, now);
      r.Ok? && Kept(db, r.value, now) && Reclaimed(r.value, h) && TookDown(db, r.value, h.id)
  {
    hide SlotsConserved, OneOutcome, Journaled, LifetimesBounded, BackoffKept, Fenced, Acyclic, Logged, Evolves, Move,
      FailDescendants, NoStrays, Cleared, Gated, LegalMove, WellFormed;
    var id, k := h.id, Current(db, h.id);
    var next := Settled(h.job, DeadLetter, Some(LEASE_EXPIRED), now);
    var a := Closed(db.attempts[k], LeaseExpired, Some(LEASE_EXPIRED), db.attempts[k].closing, now);
    ReapLegal(db, id, 1, now);
    FenceSound(db, id, a, db.readySeq, next, LeaseReaped, now);
    assert ExpireAttempt(db, h, now) == Base(db, db.attempts[k := a], db.readySeq);
    var dead := Move(ExpireAttempt(db, h, now), id, next, LeaseReaped, now).value;
    FailDescendantsKeeps(db, dead, id, now);
    FailDescendantsEffect(db, dead, id, now);
    assert FailDescendants(dead, id, now).value.attempts == dead.attempts;
  }

  lemma HitPrefix(db: Db, rows: seq<HeldLease>, j: string)
    requires rows != [] && Hit(db, rows[..|rows| - 1], j)
    ensures Hit(db, rows, j)
  {
    var init := rows[..|rows| - 1];
    var i :| 0 <= i < |init| && (init[i].id == j || (Exhausted(init[i]) && Reaches(db.deps, init[i].id, j)));
    assert rows[i] == init[i];
  }

  lemma DoomedPrefix(db: Db, rows: seq<HeldLease>)
    requires rows != []
    ensures SomeDoomed(db, rows) <==> SomeDoomed(db, rows[..|rows| - 1]) || Doomed(db, rows, |rows| - 1)
  {
    var init := rows[..|rows| - 1];
    forall i | 0 <= i < |init| ensures Doomed(db, rows, i) <==> Doomed(db, init, i) {
      forall k | 0 <= k < i ensures rows[k] == init[k] { }
    }
  }

  /** Row by row: reaping aborts at the first lease that an earlier one has taken down. */
  lemma {:induction false} ReapRowsOutcome(db: Db, rows: seq<HeldLease>, now: int)
    requires Consistent(db) && Held(db, rows)
    ensures var r := ReapRows(db, rows, now);
      if SomeDoomed(db, rows) then r.Err? else r.Ok? && Kept(db, r.value, now) && Swept(db, r.value, rows)
  {
    hide Consistent, Evolves, Orderly, ReapRow, Reclaimed, Swept, SomeDoomed, Doomed;
    if rows == [] {
      KeptReflexive(db, now);
      SweptNone(db);
    } else {
      var n := |rows| - 1;
      var init, h := rows[..n], rows[n];
      ReapRowsOutcome(db, init, now);
      DoomedPrefix(db, rows);
      if !SomeDoomed(db, init) {
        var before := ReapRows(db, init, now).value;
        if Doomed(db, rows, n) {
          SweptDoomed(db, before, rows, now);
        } else {
          SweptUntouched(db, before, rows);
          ReapRowKeeps(before, h, now);
          var r := ReapRow(before, h, now).value;
          KeptChain(db, before, r, now);
          KeptConsistent(before, r, now);
          SweptGrows(db, before, r, rows, now);
        }
      }
    }
  }

  lemma SweptNone(db: Db)
    ensures Swept(db, db, []) && !SomeDoomed(db, [])
  {
  }

  lemma SweptDoomed(db: Db, before: Db, rows: seq<HeldLease>, now: int)
    requires rows != [] && Held(db, rows) && Swept(db, before, rows[..|rows| - 1]) && Doomed(db, rows, |rows| - 1)
    ensures ReapRow(before, rows[|rows| - 1], now).Err?
  {
    hide ReleaseSlots, Reclaimed;
    var init, h := rows[..|rows| - 1], rows[|rows| - 1];
    var k :| 0 <= k < |init| && Exhausted(rows[k]) && Reaches(db.deps, rows[k].id, h.id);
    assert init[k] == rows[k];
    assert before.jobs[h.id].state.Terminal();
  }

  lemma SweptUntouched(db: Db, before: Db, rows: seq<HeldLease>)
    requires rows != [] && Held(db, rows) && Swept(db, before, rows[..|rows| - 1]) && !Doomed(db, rows, |rows| - 1)
    ensures rows[|rows| - 1].id in before.jobs && before.jobs[rows[|rows| - 1].id] == rows[|rows| - 1].job
  {
    hide Reclaimed;
    var init, h := rows[..|rows| - 1], rows[|rows| - 1];
    forall i | 0 <= i < |init| ensures init[i].id != h.id && !(Exhausted(init[i]) && Reaches(db.deps, init[i].id, h.id)) {
      assert init[i] == rows[i];
    }
  }

  lemma SweptGrows(db: Db, before: Db, r: Db, rows: seq<HeldLease>, now: int)
    requires rows != [] && Held(db, rows) && Swept(db, before, rows[..|rows| - 1])
    requires Evolves(before, r, now) && Reclaimed(r, rows[|rows| - 1])
    requires rows[|rows| - 1].id in before.jobs
    requires if Exhausted(rows[|rows| - 1]) then TookDown(before, r, rows[|rows| - 1].id)
        else Requeued(before, r, rows[|rows| - 1].id, now)
    ensures Swept(db, r, rows)
  {
    hide OutcomesEvolve, RecordsEvolve, Punctual, Hit, Reclaimed, AttemptEvolves;
    var n := |rows| - 1;
    var init, h := rows[..n], rows[n];
    forall j | j in db.jobs && !Hit(db, rows, j) ensures r.jobs[j] == db.jobs[j] {
      if Hit(db, init, j) { HitPrefix(db, rows, j); }
      HitLast(db, rows, j);
    }
    forall i, j | 0 <= i < |rows| && j in db.jobs && Exhausted(rows[i]) && Reaches(db.deps, rows[i].id, j)
      ensures r.jobs[j].state.Terminal()
    {
      if i < n {
        assert init[i] == rows[i];
        assert JobEvolves(before.jobs[j], r.jobs[j]);
      } else if j == h.id {
        ReclaimedDead(r, h);
      }
    }
    forall i | 0 <= i < |rows| ensures Reclaimed(r, rows[i]) {
      if i < n { StaysReclaimed(before, r, init, i, h, now); }
    }
  }

  lemma ReclaimedDead(r: Db, h: HeldLease)
    requires Reclaimed(r, h) && Exhausted(h)
    ensures h.id in r.jobs && r.jobs[h.id].state.Terminal()
  {
  }

  lemma HitLast(db: Db, rows: seq<HeldLease>, j: string)
    requires rows != [] && !Hit(db, rows, j)
    ensures rows[|rows| - 1].id != j && !(Exhausted(rows[|rows| - 1]) && Reaches(db.deps, rows[|rows| - 1].id, j))
  {
  }

  lemma StaysReclaimed(before: Db, r: Db, init: seq<HeldLease>, i: nat, h: HeldLease, now: int)
    requires i < |init| && Reclaimed(before, init[i]) && init[i].id != h.id && h.id in before.jobs
    requires AttemptsEvolve(before.attempts, r.attempts, now) && JobsEvolve(before.jobs, r.jobs)
    requires if Exhausted(h) then TookDown(before, r, h.id) else Requeued(before, r, h.id, now)
    ensures Reclaimed(r, init[i])
  {
    var k := AttemptKey(init[i].id, init[i].job.attemptNo);
    assert AttemptEvolves(before.attempts[k], r.attempts[k], now);
    assert JobEvolves(before.jobs[init[i].id], r.jobs[init[i].id]);
  }

  /** Reaping aborts exactly when the batch holds an exhausted lease and, later in its order, a lease
      of a job that depends on it. Otherwise it reclaims the whole batch. */
  lemma ReapAborts(db: Db, limit: int, now: int)
    requires Consistent(db)
    ensures ReapTx(db, limit, now).Err? <==> SomeDoomed(db, ExpiredRows(db, now, limit))
    ensures var r := ReapTx(db, limit, now);
      r.Ok? ==> Kept(db, r.value.db, now) && Swept(db, r.value.db, ExpiredRows(db, now, limit))
  {
    hide Consistent, Kept, ReapRows, ExpiredRows, SomeDoomed, Swept;
    ExpiredHeld(db, now, limit);
    ReapRowsOutcome(db, ExpiredRows(db, now, limit), now);
  }

  /** Without blocked releases reaping never aborts and reclaims min(limit, expired) leases. */
  lemma ReapCompletes(db: Db, limit: int, now: int)
    requires Consistent(db) && Orderly(db) && limit >= 0
    ensures ReapTx(db, limit, now).Ok?
    ensures var n := |ExpiredSet(db, now)|; |ReapTx(db, limit, now).value.reply| == if limit < n then limit else n
  {
    hide SlotsConserved, OneOutcome, Journaled, LifetimesBounded, BackoffKept, Fenced, Acyclic, Logged, Cleared,
      NoStrays, Kept, Swept, ReapRows, ExpiredRows;
    ReapAborts(db, limit, now);
    ExpiredHeld(db, now, limit);
    var rows := ExpiredRows(db, now, limit);
    forall i | 0 <= i < |rows| ensures !Doomed(db, rows, i) {
      ActiveHasBegun(db, rows[i].id);
      forall k | 0 <= k < i ensures !Reaches(db.deps, rows[k].id, rows[i].id) {
        if Reaches(db.deps, rows[k].id, rows[i].id) { BegunAbove(db.jobs, db.deps, rows[k].id, rows[i].id); }
      }
    }
  }
}
