/** Transactions keep the store consistent. */
module Preservation {
  import opened Graphs
  import opened Domain
  import opened Database
  import opened Transactions
  import opened Accounts
  import opened Ledger
  import opened Journal
  import opened Fencing
  import opened Lifetime
  import opened Dependencies
  import opened Invariant
  import opened Steps
  import opened Loops

  /** A committed transaction: consistent again, only evolved, and still orderly if it was. */
  ghost predicate Kept(db: Db, r: Db, now: int) {
    Consistent(r) && Evolves(db, r, now) && (Orderly(db) ==> Orderly(r))
  }

  lemma KeptReflexive(db: Db, now: int)
    requires Consistent(db)
    ensures Kept(db, db, now)
  {
    hide Consistent, Evolves, Orderly;
    EvolvesReflexive(db, now);
  }

  lemma KeptChain(a: Db, b: Db, c: Db, now: int)
    requires Kept(a, b, now) && Kept(b, c, now)
    ensures Kept(a, c, now)
  {
    hide Consistent, Evolves, Orderly;
    EvolvesTransitive(a, b, c, now);
  }

  // ---------------------------------------------------------------------- propagation

  /** `db` is `before` after job `id` left its unfinished state. */
  ghost predicate Settles(before: Db, db: Db, id: string, now: int) {
    && Sound(db) && Evolves(before, db, now) && db.deps == before.deps
    && id in before.jobs && !before.jobs[id].state.Terminal()
    && db.jobs.Keys == before.jobs.Keys && (forall j :: j in before.jobs && j != id ==> db.jobs[j] == before.jobs[j])
    && db.jobs[id].state.Terminal() && db.jobs[id].readySeq == 0 && db.jobs[id].attemptNo == before.jobs[id].attemptNo
    && (NoStrays(before.jobs, before.attempts) ==> NoStrays(db.jobs, db.attempts))
  }

  lemma ActiveHasBegun(db: Db, id: string)
    requires Fenced(db.jobs, db.attempts) && id in db.jobs && db.jobs[id].state.Active()
    ensures Begun(db.jobs[id])
  {
    assert JobFits(id, db.jobs[id], db.attempts);
  }

  /** After a failure, unfinished descendants are dead letters and nobody else changed. */
  ghost predicate TookDown(before: Db, r: Db, root: string) {
    && r.jobs.Keys == before.jobs.Keys && r.deps == before.deps
    && (forall j :: j in before.jobs && j != root && !(Reaches(before.deps, root, j) && !before.jobs[j].state.Terminal()) ==>
          r.jobs[j] == before.jobs[j])
    && (forall j :: j in before.jobs && j != root && Reaches(before.deps, root, j) && !before.jobs[j].state.Terminal() ==>
          Killed(before.jobs[j], r.jobs[j]))
  }

  lemma FailDescendantsEffect(before: Db, db: Db, root: string, now: int)
    requires Settles(before, db, root, now)
    ensures var r := FailDescendants(db, root, now);
      && r.Ok? && Good(before, r.value, now) && TookDown(before, r.value, root)
      && r.value.jobs[root] == db.jobs[root] && r.value.attempts == db.attempts && r.value.operations == db.operations
  {
    hide Sound, Evolves, FailRows, NoStrays;
    DescendantsSelected(db, root);
    var rows := DescendantRows(db, root);
    forall i | 0 <= i < |rows| ensures !rows[i].job.state.Terminal() {
      assert Listed(rows, rows[i].id);
    }
    FailRowsSound(db, rows, now);
    var r := FailRows(db, rows, now).value;
    GoodChain(before, db, r, now);
    assert !Listed(rows, root);
    forall j | j in before.jobs && j != root && Reaches(before.deps, root, j) && !before.jobs[j].state.Terminal()
      ensures Killed(before.jobs[j], r.jobs[j])
    {
      assert Listed(rows, j);
      var i :| 0 <= i < |rows| && rows[i].id == j;
    }
  }

  lemma TookDownGated(before: Db, r: Db, root: string)
    requires Gated(before.jobs, before.deps) && root in before.jobs
    requires TookDown(before, r, root) && r.jobs[root].state.Terminal()
    ensures Gated(r.jobs, r.deps)
  {
    GatedAfterFailure(before.jobs, r.jobs, before.deps, root);
  }

  lemma TookDownCleared(before: Db, r: Db, root: string)
    requires Cleared(before.jobs, before.deps) && root in before.jobs && !before.jobs[root].state.Terminal()
    requires TookDown(before, r, root)
    requires r.jobs[root].state.Unsuccessful() && r.jobs[root].readySeq == 0
    requires r.jobs[root].attemptNo == before.jobs[root].attemptNo
    ensures Cleared(r.jobs, r.deps)
  {
    forall e | e in r.deps && e.child in r.jobs && e.parent in r.jobs && Begun(r.jobs[e.child])
      ensures r.jobs[e.parent].state.Succeeded?
    {
      assert Begun(before.jobs[e.child]);
      assert before.jobs[e.parent].state.Succeeded?;
      assert r.jobs[e.parent] == before.jobs[e.parent];
    }
  }

  lemma TookDownStrays(before: Db, db: Db, r: Db, root: string)
    requires Fenced(before.jobs, before.attempts) && Grounded(before.jobs, before.deps)
    requires Cleared(before.jobs, before.deps) && root in before.jobs && !before.jobs[root].state.Terminal()
    requires db.jobs.Keys == before.jobs.Keys && (forall j :: j in before.jobs && j != root ==> db.jobs[j] == before.jobs[j])
    requires TookDown(before, r, root) && r.jobs[root] == db.jobs[root] && r.attempts == db.attempts
    requires NoStrays(db.jobs, db.attempts)
    ensures NoStrays(r.jobs, r.attempts)
  {
    forall k | k in r.attempts && k.job in r.jobs && r.attempts[k].Open() ensures r.jobs[k.job].state.Active() {
      var j := k.job;
      assert db.jobs[j].state.Active();
      if j != root && Reaches(before.deps, root, j) {
        ActiveHasBegun(before, j);
        BegunAbove(before.jobs, before.deps, root, j);
      }
    }
  }

  /** A failure propagates without error and leaves the store consistent. */
  lemma FailDescendantsKeeps(before: Db, db: Db, root: string, now: int)
    requires Consistent(before) && Settles(before, db, root, now) && db.jobs[root].state.Unsuccessful()
    ensures FailDescendants(db, root, now).Ok? && Kept(before, FailDescendants(db, root, now).value, now)
    ensures TookDown(before, FailDescendants(db, root, now).value, root)
    ensures var r := FailDescendants(db, root, now).value; r.jobs[root] == db.jobs[root] && r.operations == db.operations
  {
    hide SlotsConserved, OneOutcome, Journaled, LifetimesBounded, BackoffKept, Fenced, Acyclic, Logged, Evolves,
      FailDescendants, TookDown, NoStrays, Cleared, Gated, Grounded;
    FailDescendantsEffect(before, db, root, now);
    var r := FailDescendants(db, root, now).value;
    TookDownGated(before, r, root);
    if Orderly(before) {
      TookDownCleared(before, r, root);
      TookDownStrays(before, db, r, root);
    }
  }

  lemma ActivateChildrenEffect(before: Db, db: Db, id: string, now: int)
    requires Settles(before, db, id, now)
    ensures var r := ActivateChildren(db, id, now);
      && r.Ok? && Good(before, r.value, now) && r.value.jobs.Keys == db.jobs.Keys && r.value.deps == db.deps
      && r.value.attempts == db.attempts
      && forall j :: j in db.jobs ==>
          if Activatable(db, j, id, now) then Readied(db.jobs[j], r.value.jobs[j]) else r.value.jobs[j] == db.jobs[j]
  {
    hide Sound, Evolves, ReadyRows, NoStrays;
    ChildrenSelected(db, id, now);
    var rows := ChildRows(db, id, now);
    forall i | 0 <= i < |rows| ensures Waiting(rows[i].job) {
      assert Listed(rows, rows[i].id);
    }
    ReadyRowsSound(db, rows, DependencyReleased, now);
    var r := ReadyRows(db, rows, DependencyReleased, now).value;
    GoodChain(before, db, r, now);
    forall j | j in db.jobs
      ensures if Activatable(db, j, id, now) then Readied(db.jobs[j], r.jobs[j]) else r.jobs[j] == db.jobs[j]
    {
      if Activatable(db, j, id, now) {
        assert Listed(rows, j);
        var i :| 0 <= i < |rows| && rows[i].id == j;
      }
    }
  }

  /** Readying waiting jobs whose parents all succeeded changes nothing for the gates. */
  lemma ReadiedGates(db: Db, r: Db)
    requires r.jobs.Keys == db.jobs.Keys && r.deps == db.deps && r.attempts == db.attempts
    requires forall j :: j in db.jobs ==>
      r.jobs[j] == db.jobs[j] || (Waiting(db.jobs[j]) && ParentsSucceeded(db, j) && Readied(db.jobs[j], r.jobs[j]))
    ensures Gated(db.jobs, db.deps) ==> Gated(r.jobs, r.deps)
    ensures Cleared(db.jobs, db.deps) ==> Cleared(r.jobs, r.deps)
    ensures NoStrays(db.jobs, db.attempts) ==> NoStrays(r.jobs, r.attempts)
  {
  }

  lemma SucceededGates(before: Db, db: Db, id: string, now: int)
    requires Consistent(before) && Settles(before, db, id, now) && db.jobs[id].state.Succeeded?
    requires Begun(before.jobs[id])
    ensures Gated(db.jobs, db.deps) && (Orderly(before) ==> Orderly(db))
  {
    hide SlotsConserved, OneOutcome, Journaled, LifetimesBounded, BackoffKept, Fenced, Acyclic, Logged, Evolves,
      NoStrays, Cleared, Gated;
    assert db.jobs == before.jobs[id := db.jobs[id]];
    GatedMove(before.jobs, before.deps, id, db.jobs[id]);
    if Orderly(before) {
      ClearedMove(before.jobs, before.deps, id, db.jobs[id]);
    }
  }

  /** A success wakes exactly the children that now wait for nothing else. */
  lemma ActivateChildrenKeeps(before: Db, db: Db, id: string, now: int)
    requires Consistent(before) && Settles(before, db, id, now) && db.jobs[id].state.Succeeded? && Begun(before.jobs[id])
    ensures ActivateChildren(db, id, now).Ok? && Kept(before, ActivateChildren(db, id, now).value, now)
    ensures ActivateChildren(db, id, now).value.jobs[id] == db.jobs[id]
  {
    hide SlotsConserved, OneOutcome, Journaled, LifetimesBounded, BackoffKept, Fenced, Acyclic, Logged, Evolves,
      ActivateChildren, NoStrays, Cleared, Gated;
    ActivateChildrenEffect(before, db, id, now);
    SucceededGates(before, db, id, now);
    ReadiedGates(db, ActivateChildren(db, id, now).value);
  }

  // ---------------------------------------------------------------------- completion

  /** A completion that is accepted leaves the store consistent; any other is stale. */
  lemma CompleteKeeps(cfg: Config, db: Db, c: Completion, now: int)
    requires Consistent(db)
    ensures var r := CompleteTx(cfg, db, c, now);
      if r.Ok? then Kept(db, r.value.db, now) else r.error.StaleLease?
  {
    hide Consistent, Kept, Evolves, Propagate, CloseLease;
    var k := AttemptKey(c.ref.job, c.ref.attemptNo);
    KeptReflexive(db, now);
    if k in db.attempts && c.ref.job in db.jobs && Completable(db, c, now) {
      var a := db.attempts[k];
      if a.worker == c.worker && a.generation == c.ref.generation && a.token == c.ref.token {
        CompletionSettles(cfg, db, c, now);
      }
    }
  }

  lemma CompletionSettles(cfg: Config, db: Db, c: Completion, now: int)
    requires Consistent(db) && Completable(db, c, now)
    requires var a := db.attempts[AttemptKey(c.ref.job, c.ref.attemptNo)];
             a.worker == c.worker && a.generation == c.ref.generation && a.token == c.ref.token
    ensures CloseLease(cfg, db, c, now).Ok?
    ensures var r := Propagate(CloseLease(cfg, db, c, now).value, c.ref.job, Verdict(db.jobs[c.ref.job], c), now);
      r.Ok? && Kept(db, r.value, now)
  {
    hide SlotsConserved, OneOutcome, Journaled, LifetimesBounded, BackoffKept, Fenced, Acyclic, Logged, Evolves,
      ActivateChildren, FailDescendants, NoStrays, Cleared, Gated, CloseLease;
    var id := c.ref.job;
    CloseSound(cfg, db, c, now);
    ActiveHasBegun(db, id);
    var closed := CloseLease(cfg, db, c, now).value;
    var state := Verdict(db.jobs[id], c);
    if state.Succeeded? {
      ActivateChildrenKeeps(db, closed, id, now);
    } else if state.Terminal() {
      FailDescendantsKeeps(db, closed, id, now);
    } else {
      RetryGates(db, closed, id);
    }
  }

  lemma RetryGates(db: Db, r: Db, id: string)
    requires Gated(db.jobs, db.deps) && Acyclic(db.deps) && id in db.jobs && !db.jobs[id].state.Terminal()
    requires r.jobs.Keys == db.jobs.Keys && r.deps == db.deps && (forall j :: j in db.jobs && j != id ==> r.jobs[j] == db.jobs[j])
    requires !r.jobs[id].state.Unsuccessful() && Begun(db.jobs[id])
    ensures Gated(r.jobs, r.deps)
    ensures Cleared(db.jobs, db.deps) ==> Cleared(r.jobs, r.deps)
  {
    hide Acyclic;
    assert r.jobs == db.jobs[id := r.jobs[id]];
    GatedMove(db.jobs, db.deps, id, r.jobs[id]);
    if Cleared(db.jobs, db.deps) { ClearedMove(db.jobs, db.deps, id, r.jobs[id]); }
  }

  /** A batch of completions never aborts: an item is accepted or stale, one after another. */
  lemma {:induction false} CompleteAllKeeps(cfg: Config, db: Db, cs: seq<Completion>, now: int)
    requires Consistent(db)
    ensures CompleteAll(cfg, db, cs, now).Ok? && Kept(db, CompleteAll(cfg, db, cs, now).value.db, now)
    ensures |CompleteAll(cfg, db, cs, now).value.reply| == |cs|
  {
    hide Consistent, Kept, Evolves, CompleteTx, Orderly;
    if cs == [] {
      KeptReflexive(db, now);
    } else {
      CompleteAllKeeps(cfg, db, cs[..|cs| - 1], now);
      var before := CompleteAll(cfg, db, cs[..|cs| - 1], now).value.db;
      KeptConsistent(db, before, now);
      CompleteKeeps(cfg, before, cs[|cs| - 1], now);
      var r := CompleteTx(cfg, before, cs[|cs| - 1], now);
      if r.Ok? { KeptChain(db, before, r.value.db, now); }
    }
  }

  lemma KeptConsistent(db: Db, r: Db, now: int)
    requires Kept(db, r, now)
    ensures Consistent(r) && Evolves(db, r, now)
  {
    hide Consistent, Evolves;
  }
}
