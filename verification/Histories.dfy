/** What whole runs leave in the event log and on the clock. */
module Histories {
  import opened Wrappers
  import opened Domain
  import opened Database
  import opened Transactions
  import opened Invariant
  import opened Journal
  import opened Traces
  import opened Runs
  import Effects

  // --------------------------------------------------------------------------- one step

  lemma AdmissionTraces(cfg: Config, db: Db, a: Action, now: int)
    requires a.Admits() && PerformAdmission(cfg, db, a, now).Ok?
    ensures var r := PerformAdmission(cfg, db, a, now).value;
      Restamped(db, r, now) && (!a.Redrive? && !a.Retry? ==> Unmarked(db.events, r.events))
  {
    hide SubmitTx, WorkflowTx, RedriveTx, RetryTx, Restamped, Unmarked;
    match a {
      case Submit(sub, id) => SubmitAdds(cfg, db, sub, id, now);
      case SubmitWorkflow(w, ids) => WorkflowAdds(cfg, db, w, ids, now);
      case Redrive(cmd, id) => ClonesRestamp(cfg, db, cmd, id, now);
      case Retry(cmd, id) => ClonesRestamp(cfg, db, cmd, id, now);
    }
  }

  lemma LeasingTraces(cfg: Config, db: Db, a: Action, now: int)
    requires a.Leases() && PerformLeasing(cfg, db, a, now).Ok?
    ensures Leaves(db, PerformLeasing(cfg, db, a, now).value, now)
  {
    hide AcquireTx, StartTx, StartAll, BeatAll, CompleteTx, CompleteAll, Leaves;
    match a {
      case Acquire(req, tokens) => AcquireLeaves(db, req, tokens, now);
      case Start(worker, ref) => StartLeaves(db, worker, ref, now);
      case StartBatch(worker, refs) => StartAllLeaves(db, worker, refs, now);
      case Heartbeat(worker, refs, ttl) => BeatAllLeaves(db, worker, refs, ttl, now);
      case Complete(c) => CompleteLeaves(cfg, db, c, now);
      case CompleteBatch(cs) => CompleteAllLeaves(cfg, db, cs, now);
    }
  }

  lemma UpkeepTraces(db: Db, a: Action, now: int)
    requires !a.Admits() && !a.Leases() && PerformUpkeep(db, a, now).Ok?
    ensures Leaves(db, PerformUpkeep(db, a, now).value, now)
  {
    hide ReadyRows, ReapRows, ControlTx, Leaves, DueRows, ExpiredRows;
    match a {
      case PromoteDue(limit) => ReadyRowsLeave(db, DueRows(db, now, limit), Promoted, now);
      case ReapExpired(limit) => ReapRowsLeave(db, ExpiredRows(db, now, limit), now);
      case Control(cmd) => ControlLeaves(db, cmd, now);
      case Restart => LeavesAll(db, now);
    }
  }

  /** Only redrives and retries write markers, and no operation loses a stamp. */
  lemma PerformTraces(cfg: Config, db: Db, a: Action, now: int)
    requires Perform(cfg, db, a, now).Ok?
    ensures var r := Perform(cfg, db, a, now).value;
      Restamped(db, r, now) && (!a.Redrive? && !a.Retry? ==> Unmarked(db.events, r.events))
  {
    hide PerformAdmission, PerformLeasing, PerformUpkeep, Restamped, Unmarked;
    if a.Admits() {
      AdmissionTraces(cfg, db, a, now);
    } else if a.Leases() {
      LeasingTraces(cfg, db, a, now);
    } else {
      UpkeepTraces(db, a, now);
    }
  }

  lemma AdmissionReplies(cfg: Config, db: Db, a: Action, now: int)
    requires Consistent(db) && a.Admits() && PerformAdmission(cfg, db, a, now).Ok?
    ensures Replies(db, PerformAdmission(cfg, db, a, now).value)
  {
    hide SubmitTx, WorkflowTx, RedriveTx, RetryTx, Consistent, Restamped;
    match a {
      case Submit(sub, id) => SubmitReplies(cfg, db, sub, id, now);
      case SubmitWorkflow(w, ids) =>
        var r := WorkflowTx(cfg, db, w, ids, now).value;
        WorkflowRequests(cfg, db, w, ids, now);
        if !r.reply.duplicate {
          Effects.WorkflowEffect(cfg, db, w, ids, now);
          var k := RequestKey(if w.tenant == "" then "default" else w.tenant, w.key);
          assert AddsReply(db, r.db, k, Request(WorkflowRequest, w.digest, r.reply.rows));
        }
      case Redrive(cmd, id) => ClonesRestamp(cfg, db, cmd, id, now);
      case Retry(cmd, id) => ClonesRestamp(cfg, db, cmd, id, now);
    }
  }

  lemma PerformReplies(cfg: Config, db: Db, a: Action, now: int)
    requires Consistent(db) && Perform(cfg, db, a, now).Ok?
    ensures Replies(db, Perform(cfg, db, a, now).value)
  {
    hide PerformAdmission, PerformLeasing, PerformUpkeep, Replies, Consistent, Leaves;
    if a.Admits() {
      AdmissionReplies(cfg, db, a, now);
    } else if a.Leases() {
      LeasingTraces(cfg, db, a, now);
      SameReplies(db, Perform(cfg, db, a, now).value, now);
    } else {
      UpkeepTraces(db, a, now);
      SameReplies(db, Perform(cfg, db, a, now).value, now);
    }
  }

  // --------------------------------------------------------------------- stored replies

  ghost predicate Answered(db: Db) {
    forall k :: k in db.requests ==> AnsweredBy(db.jobs, db.requests[k])
  }

  /** No two keys are answered with the same job. */
  ghost predicate Separate(requests: map<RequestKey, Request>) {
    forall k, l :: k in requests && l in requests && k != l ==> Disjoint(requests[k].rows, requests[l].rows)
  }

  ghost predicate Disjoint(a: seq<Row>, b: seq<Row>) {
    forall i, j :: 0 <= i < |a| && 0 <= j < |b| ==> a[i].id != b[j].id
  }

  lemma RepliesSeparate(a: Db, b: Db)
    requires Answered(a) && Separate(a.requests) && Replies(a, b)
    ensures Separate(b.requests)
  {
    if b.requests != a.requests {
      var n, q :| AddsReply(a, b, n, q);
      forall k, l | k in b.requests && l in b.requests && k != l ensures Disjoint(b.requests[k].rows, b.requests[l].rows) {
        if k != n { assert AnsweredBy(a.jobs, a.requests[k]); }
        if l != n { assert AnsweredBy(a.jobs, a.requests[l]); }
      }
    }
  }

  lemma AnsweredStays(a: Db, b: Db, now: int)
    requires Answered(a) && Evolves(a, b, now)
    ensures Answered(b) && forall k :: k in a.requests ==> k in b.requests && b.requests[k] == a.requests[k]
  {
    hide JobEvolves, AttemptsEvolve, OutcomesEvolve;
    forall k | k in b.requests ensures AnsweredBy(b.jobs, b.requests[k]) {
      if k in a.requests { assert AnsweredBy(a.jobs, a.requests[k]); }
    }
  }

  /** Every step keeps the stored replies, answered by existing jobs and apart. */
  lemma NextAnswers(cfg: Config, s: System, step: Step)
    requires Healthy(s) && Answered(s.db) && Separate(s.db.requests)
    ensures var z := Next(cfg, s, step);
      && Healthy(z) && Answered(z.db) && Separate(z.db.requests)
      && forall k :: k in s.db.requests ==> k in z.db.requests && z.db.requests[k] == s.db.requests[k]
  {
    hide Consistent, Perform, Evolves, Timely, Stamps, Answered, Separate, Replies;
    NextHealthy(cfg, s, step);
    var now := Max(step.at, s.last);
    if !step.action.Restart? && Dispatched(step.action) && Perform(cfg, s.db, step.action, now).Ok? {
      var r := Perform(cfg, s.db, step.action, now).value;
      PerformObeys(cfg, s.db, step.action, now);
      PerformReplies(cfg, s.db, step.action, now);
      AnsweredStays(s.db, r, now);
      RepliesSeparate(s.db, r);
    }
  }

  // ---------------------------------------------------------------------------- markers

  ghost predicate NoClones(steps: seq<Step>) {
    forall i :: 0 <= i < |steps| ==> !steps[i].action.Redrive? && !steps[i].action.Retry?
  }

  lemma NextUnmarked(cfg: Config, s: System, step: Step)
    requires !step.action.Redrive? && !step.action.Retry?
    ensures Unmarked(s.db.events, Next(cfg, s, step).db.events)
  {
    hide Perform, Restamped;
    var now := Max(step.at, s.last);
    if !step.action.Restart? && Dispatched(step.action) && Perform(cfg, s.db, step.action, now).Ok? {
      PerformTraces(cfg, s.db, step.action, now);
    }
  }

  lemma {:induction false} RunUnmarked(cfg: Config, s: System, steps: seq<Step>)
    requires NoClones(steps)
    ensures Unmarked(s.db.events, Run(cfg, s, steps).db.events)
    decreases |steps|
  {
    hide Next, Unmarked;
    if steps == [] {
      NothingMarked(s.db.events);
    } else {
      var init := steps[..|steps| - 1];
      RunUnmarked(cfg, s, init);
      var before := Run(cfg, s, init);
      NextUnmarked(cfg, before, steps[|steps| - 1]);
      UnmarkedChain(s.db.events, before.db.events, Run(cfg, s, steps).db.events);
    }
  }

  lemma NothingMarked(events: seq<Event>)
    ensures Unmarked(events, events)
  {
  }

  /** A run without redrives and retries writes no marker. */
  lemma NoClonesNoMarkers(cfg: Config, steps: seq<Step>)
    requires NoClones(steps)
    ensures NoMarkers(Run(cfg, BOOT, steps).db.events)
  {
    hide Run, NoClones;
    RunUnmarked(cfg, BOOT, steps);
  }

  // -------------------------------------------------------------------------- the clock

  /** The tables remember some time from `t` on. */
  ghost predicate StampSince(db: Db, t: int) {
    exists x :: x in Stamps(db) && x >= t
  }

  lemma StampStays(a: Db, b: Db, t: int, now: int)
    requires Restamped(a, b, now) && a.events <= b.events && t <= now && StampSince(a, t)
    ensures StampSince(b, t)
  {
    hide Restamped;
    var x :| x in Stamps(a) && x >= t;
    if i :| 0 <= i < |a.events| && a.events[i].at == x {
      assert b.events[i] in b.events;
      assert b.events[i].at in Stamps(b);
    } else if id :| id in a.jobs && a.jobs[id].updatedAt == x {
      JobStamp(a, b, now, id);
    } else if k :| k in a.attempts && (a.attempts[k].heartbeatAt == x || a.attempts[k].completedAt == Some(x)) {
      AttemptStamps(a, b, now, k);
    } else {
      var id :| id in a.completions && a.completions[id].committedAt == x;
      CompletionStamp(a, b, now, id);
    }
  }

  lemma JobStamp(a: Db, b: Db, now: int, id: string)
    requires Restamped(a, b, now) && id in a.jobs
    ensures a.jobs[id].updatedAt in Stamps(b) || now in Stamps(b)
  {
    assert JobRestamped(a.jobs[id], b.jobs[id], now) && b.jobs[id].updatedAt in Stamps(b);
  }

  lemma AttemptStamps(a: Db, b: Db, now: int, k: AttemptKey)
    requires Restamped(a, b, now) && k in a.attempts
    ensures a.attempts[k].heartbeatAt in Stamps(b) || now in Stamps(b)
    ensures a.attempts[k].completedAt.Some? ==> a.attempts[k].completedAt.value in Stamps(b) || now in Stamps(b)
  {
    assert AttemptRestamped(a.attempts[k], b.attempts[k], now) && b.attempts[k].heartbeatAt in Stamps(b);
  }

  lemma CompletionStamp(a: Db, b: Db, now: int, id: string)
    requires Restamped(a, b, now) && id in a.completions
    ensures a.completions[id].committedAt in Stamps(b) || now in Stamps(b)
  {
    assert b.completions[id].committedAt in Stamps(b);
  }

  lemma NextRemembers(cfg: Config, s: System, step: Step, t: int)
    requires Healthy(s) && t <= s.last && StampSince(s.db, t)
    ensures StampSince(Next(cfg, s, step).db, t) && t <= Next(cfg, s, step).last
    ensures Persists(s.db, Next(cfg, s, step).db, t)
  {
    hide Consistent, Perform, Evolves, Persists, Timely, Stamps, Restamped;
    var now := Max(step.at, s.last);
    PersistsReflexive(s.db, t);
    if !step.action.Restart? && Dispatched(step.action) && Perform(cfg, s.db, step.action, now).Ok? {
      var r := Perform(cfg, s.db, step.action, now).value;
      PerformTraces(cfg, s.db, step.action, now);
      PerformObeys(cfg, s.db, step.action, now);
      EvolvesPunctual(s.db, r, now);
      LogGrows(s.db, r, now);
      StampStays(s.db, r, t, now);
      EventsStay(s.db, r, t, now);
    }
  }

  lemma LogGrows(a: Db, b: Db, now: int)
    requires Persists(a, b, now)
    ensures a.events <= b.events
  {
  }

  /** A time the tables remember is never forgotten: the clock stays beyond it through restarts. */
  lemma {:induction false} RunRemembers(cfg: Config, s: System, steps: seq<Step>, t: int)
    requires Healthy(s) && t <= s.last && StampSince(s.db, t)
    ensures var z := Run(cfg, s, steps); Healthy(z) && StampSince(z.db, t) && t <= z.last && Persists(s.db, z.db, t)
    decreases |steps|
  {
    hide Healthy, Persists, Next, StampSince;
    if steps == [] {
      PersistsReflexive(s.db, t);
    } else {
      var init := steps[..|steps| - 1];
      RunRemembers(cfg, s, init, t);
      var before := Run(cfg, s, init);
      NextHealthy(cfg, before, steps[|steps| - 1]);
      NextRemembers(cfg, before, steps[|steps| - 1], t);
      PersistsTransitive(s.db, before.db, Next(cfg, before, steps[|steps| - 1]).db, t, t);
    }
  }

  // ---------------------------------------------------------------------------- fencing

  /** An expiry that the tables remember fences its lease through every run and restart. */
  lemma FencedThroughRestarts(
      cfg: Config, s: System, steps: seq<Step>, worker: string, ref: LeaseRef, c: Completion, ttl: int, at: int)
    requires Healthy(s) && AttemptKey(ref.job, ref.attemptNo) in s.db.attempts && c.ref == ref
    requires var t := s.db.attempts[AttemptKey(ref.job, ref.attemptNo)].expiresAt; t <= s.last && t <= Latest(Stamps(s.db))
    ensures var z := Run(cfg, s, steps); var now := Max(at, z.last);
      && StartTx(z.db, worker, ref, now) == Err(StaleLease)
      && Beat(z.db, worker, ref, ttl, now) == z.db
      && (CompleteTx(cfg, z.db, c, now).Ok? ==> CompleteTx(cfg, z.db, c, now).value.db == z.db)
  {
    hide Consistent, StartTx, Beat, CompleteTx, Run, Timely, Stamps;
    var k := AttemptKey(ref.job, ref.attemptNo);
    var t := s.db.attempts[k].expiresAt;
    AttemptHasStamp(s.db, k);
    assert StampSince(s.db, t);
    RunRemembers(cfg, s, steps, t);
    var z := Run(cfg, s, steps);
    SpentStays(s.db, z.db, k, t, Max(at, z.last));
    SpentChangesNothing(cfg, z.db, k, worker, ref, c, ttl, Max(at, z.last));
  }

  lemma AttemptHasStamp(db: Db, k: AttemptKey)
    requires k in db.attempts
    ensures Stamps(db) != {}
  {
    assert db.attempts[k].heartbeatAt in Stamps(db);
  }

  /** No start citing the lease succeeds after any later steps. */
  ghost predicate NeverStarts(cfg: Config, s: System, worker: string, ref: LeaseRef) {
    forall steps: seq<Step>, at: int ::
      var z := Run(cfg, s, steps); StartTx(z.db, worker, ref, Max(at, z.last)) == Err(StaleLease)
  }

  /** The process's clock has reached the expiry of a lease that is still open: it is fenced through every
      run exactly when the tables remember a time from the expiry on, which a restart falls back to. */
  lemma ExpiryOutlivesRestarts(cfg: Config, s: System, worker: string, ref: LeaseRef)
    requires Healthy(s) && Cites(s.db, worker, ref) && s.db.jobs[ref.job].state.Active()
    requires s.db.attempts[AttemptKey(ref.job, ref.attemptNo)].expiresAt <= s.last
    ensures NeverStarts(cfg, s, worker, ref)
      <==> s.db.attempts[AttemptKey(ref.job, ref.attemptNo)].expiresAt <= Latest(Stamps(s.db))
  {
    hide Healthy, Run, Stamps, StartTx, Cites, NeverStarts;
    var k := AttemptKey(ref.job, ref.attemptNo);
    CitedAttempt(s.db, worker, ref);
    var t := s.db.attempts[k].expiresAt;
    if t <= Latest(Stamps(s.db)) {
      StaysFenced(cfg, s, worker, ref);
    } else {
      RestartStarts(cfg, s, worker, ref);
    }
  }

  lemma CitedAttempt(db: Db, worker: string, ref: LeaseRef)
    requires Cites(db, worker, ref)
    ensures AttemptKey(ref.job, ref.attemptNo) in db.attempts && ref.job in db.jobs
  {
  }

  lemma StaysFenced(cfg: Config, s: System, worker: string, ref: LeaseRef)
    requires Healthy(s) && AttemptKey(ref.job, ref.attemptNo) in s.db.attempts
    requires var t := s.db.attempts[AttemptKey(ref.job, ref.attemptNo)].expiresAt; t <= s.last && t <= Latest(Stamps(s.db))
    ensures NeverStarts(cfg, s, worker, ref)
  {
    hide Healthy, Run, StartTx, Stamps;
    var c := Completion(ref, worker, true, false, "", None);
    forall steps: seq<Step>, at: int
      ensures var z := Run(cfg, s, steps); StartTx(z.db, worker, ref, Max(at, z.last)) == Err(StaleLease)
    {
      FencedThroughRestarts(cfg, s, steps, worker, ref, c, 1, at);
    }
  }

  lemma RestartStarts(cfg: Config, s: System, worker: string, ref: LeaseRef)
    requires Healthy(s) && Cites(s.db, worker, ref) && s.db.jobs[ref.job].state.Active()
    requires s.db.attempts[AttemptKey(ref.job, ref.attemptNo)].expiresAt > Latest(Stamps(s.db))
    ensures !NeverStarts(cfg, s, worker, ref)
  {
    hide Run, Stamps, Consistent, StartTx;
    var steps := [Step(Restart, 0)];
    var z := Run(cfg, s, steps);
    OneStep(cfg, s, Step(Restart, 0));
    var t := Latest(Stamps(s.db));
    LeaseAccepted(s.db, worker, ref, t);
    assert Max(t, z.last) == t;
  }

  lemma OneStep(cfg: Config, s: System, step: Step)
    ensures Run(cfg, s, [step]) == Next(cfg, s, step)
  {
    hide Next;
    assert [step][..0] == [];
    assert Run(cfg, s, []) == s;
  }

  lemma LeaseAccepted(db: Db, worker: string, ref: LeaseRef, now: int)
    requires Consistent(db) && Cites(db, worker, ref) && db.jobs[ref.job].state.Active()
    requires db.attempts[AttemptKey(ref.job, ref.attemptNo)].expiresAt > now
    ensures StartTx(db, worker, ref, now).Ok?
  {
    hide StartTx, Consistent;
    Effects.StartEffect(db, worker, ref, now);
  }
}
