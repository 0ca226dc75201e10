/** The single changes transactions are made of keep the store invariant. */
module Steps {
  import opened Wrappers
  import opened Graphs
  import opened Domain
  import opened Database
  import opened Transactions
  import opened Accounts
  import opened Ledger
  import opened Journal
  import opened Fencing
  import opened Lifetime
  import opened Dependencies
  import opened Invariant
  import Backoff
  import DecisionLog

  /** The change succeeded, kept the invariant and only evolved the tables. */
  ghost predicate Good(db: Db, r: Db, now: int) {
    Sound(r) && Evolves(db, r, now)
  }

  lemma GoodChain(a: Db, b: Db, c: Db, now: int)
    requires Evolves(a, b, now) && Good(b, c, now)
    ensures Good(a, c, now)
  {
    hide Sound;
    EvolvesTransitive(a, b, c, now);
  }

  // --------------------------------------------------------------- jobs without a lease

  /** Moving a job without touching its attempts. */
  lemma ShiftSound(db: Db, n: nat, id: string, next: Job, kind: EventKind, now: int)
    requires Sound(db) && id in db.jobs
    requires SameSpec(db.jobs[id], next) && LegalMove(db.jobs[id], next, kind) && WellFormed(next.(version := 1))
    requires next.attemptNo == db.jobs[id].attemptNo && next.generation == db.jobs[id].generation && !next.state.Active()
    requires db.jobs[id].state.Active() ==> next.state.DeadLetter?
    requires next.state.Terminal() || kind.OperatorRelease? || next.availableAt == db.jobs[id].availableAt
    ensures var r := Move(Base(db, db.attempts, n), id, next, kind, now);
      && r.Ok? && Good(db, r.value, now)
      && MovedTo(db, r.value, db.attempts, n, id, Stamped(db, id, next, now), kind, now)
  {
    hide SlotsConserved, OneOutcome, Journaled, LifetimesBounded, Acyclic, Logged, BackoffKept, Fenced, Move,
      AttemptEvolves, WellFormed, LegalMove;
    var job := Stamped(db, id, next, now);
    Legal(db.jobs[id], next, job, kind);
    NoLeasing(db.jobs[id], next, kind);
    ShiftFenced(db.jobs, db.attempts, id, job);
    BackoffWritten(db.jobs, db.attempts, db.events, db.attempts, id, job, EventOf(id, job, kind, now));
    MoveSound(db, db.attempts, n, id, next, kind, now);
    AttemptsSame(db.attempts, now);
    MoveEvolves(db, Move(Base(db, db.attempts, n), id, next, kind, now).value, db.attempts, n, id, job, kind, now);
  }

  lemma NoLeasing(a: Job, b: Job, kind: EventKind)
    requires LegalMove(a, b, kind) && !b.state.Active()
    ensures !kind.LeaseAcquired?
  {
  }

  lemma AttemptsSame(attempts: map<AttemptKey, Attempt>, now: int)
    ensures AttemptsEvolve(attempts, attempts, now)
  {
  }

  /** A waiting job becomes ready. */
  lemma ReadySound(db: Db, id: string, kind: EventKind, now: int)
    requires Sound(db) && id in db.jobs && kind in {Promoted, DependencyReleased}
    requires !db.jobs[id].state.Terminal() && !db.jobs[id].state.Active() && db.jobs[id].readySeq == 0
    ensures var r := MakeReady(db, id, kind, now);
      && r.Ok? && Good(db, r.value, now)
      && MovedTo(db, r.value, db.attempts, db.readySeq + 1, id,
                 Stamped(db, id, db.jobs[id].(state := Pending, readySeq := db.readySeq + 1), now), kind, now)
  {
    hide SlotsConserved, Journaled, LifetimesBounded, Acyclic, Logged, BackoffKept, Fenced, Move, CompletionsMatch,
      DeadLettersMatch, Evolves, MovedTo;
    var n := db.readySeq + 1;
    assert WellFormed(db.jobs[id]);
    ShiftSound(db, n, id, db.jobs[id].(state := Pending, readySeq := n), kind, now);
    assert Base(db, db.attempts, n) == db.(readySeq := n);
  }

  /** A failed ancestor takes an unfinished job down. */
  lemma KillSound(db: Db, id: string, now: int)
    requires Sound(db) && id in db.jobs && !db.jobs[id].state.Terminal()
    ensures var next := Settled(db.jobs[id], DeadLetter, Some(UPSTREAM_FAILED), now);
      var r := Move(db, id, next, UpstreamFailed, now);
      && r.Ok? && Good(db, r.value, now)
      && MovedTo(db, r.value, db.attempts, db.readySeq, id, Stamped(db, id, next, now), UpstreamFailed, now)
  {
    hide SlotsConserved, Journaled, LifetimesBounded, Acyclic, Logged, BackoffKept, Fenced, Move, CompletionsMatch,
      DeadLettersMatch, Evolves, MovedTo;
    assert WellFormed(db.jobs[id]);
    ShiftSound(db, db.readySeq, id, Settled(db.jobs[id], DeadLetter, Some(UPSTREAM_FAILED), now), UpstreamFailed, now);
    assert Base(db, db.attempts, db.readySeq) == db;
  }

  // ------------------------------------------------------------------- taking a lease

  lemma AttemptAdded(attempts: map<AttemptKey, Attempt>, k: AttemptKey, a: Attempt, now: int)
    requires k !in attempts
    ensures AttemptsEvolve(attempts, attempts[k := a], now)
  {
  }

  /** Leasing an available ready job succeeds unless its tenant is at its slot limit or no token
      could be drawn. */
  lemma LeaseSound(db: Db, row: Row, req: AcquireRequest, token: string, now: int)
    requires Sound(db) && row.id in db.jobs && db.jobs[row.id] == row.job
    requires row.job.state.Pending? && row.job.readySeq > 0 && row.job.availableAt <= now
    ensures var r := LeaseRow(db, row, req, token, now);
      if r.Ok? then
        && Good(db, r.value.db, now)
        && r.value.db.jobs == db.jobs[row.id := Stamped(db, row.id, LeasedJob(row.job), now)]
        && r.value.db.deps == db.deps && r.value.db.log == db.log && r.value.db.schedulerSeq == db.schedulerSeq
        && r.value.db.queues.Keys == db.queues.Keys
        && (NoStrays(db.jobs, db.attempts) ==> NoStrays(r.value.db.jobs, r.value.db.attempts))
      else r.error.CapacityChanged? || (token == "" && r.error.NoId?)
  {
    hide SlotsConserved, Journaled, LifetimesBounded, Acyclic, Logged, BackoffKept, Fenced, Move, CompletionsMatch,
      DeadLettersMatch, Evolves, NoStrays, AttemptsEvolve;
    var id, next := row.id, LeasedJob(row.job);
    var job, a := Stamped(db, id, next, now), NewAttempt(row.job, req, token, now);
    var k, e := AttemptKey(id, job.attemptNo), EventOf(id, job, LeaseAcquired, now);
    GenerationIsAttempt(db, id);
    assert WellFormed(row.job);
    LeaseFenced(db.jobs, db.attempts, id, job, a);
    BackoffLeased(db.jobs, db.attempts, db.events, id, job, a, e);
    var attempts := db.attempts[k := a];
    MoveSound(db, attempts, db.readySeq, id, next, LeaseAcquired, now);
    AttemptAdded(db.attempts, k, a, now);
    var r := Move(Base(db, attempts, db.readySeq), id, next, LeaseAcquired, now);
    assert Base(db, attempts, db.readySeq) == db.(attempts := attempts);
    if r.Ok? {
      MoveEvolves(db, r.value, attempts, db.readySeq, id, job, LeaseAcquired, now);
    }
  }

  lemma GenerationIsAttempt(db: Db, id: string)
    requires Fenced(db.jobs, db.attempts) && id in db.jobs
    ensures db.jobs[id].generation == db.jobs[id].attemptNo
    ensures db.jobs[id].state.Active() ==> Current(db, id) in db.attempts && db.attempts[Current(db, id)].Open()
  {
    assert JobFits(id, db.jobs[id], db.attempts);
  }

  // ------------------------------------------------------------- using and ending a lease

  lemma AttemptChanged(attempts: map<AttemptKey, Attempt>, k: AttemptKey, a: Attempt, now: int)
    requires k in attempts && AttemptEvolves(attempts[k], a, now)
    ensures AttemptsEvolve(attempts, attempts[k := a], now)
  {
  }

  lemma StartSound(db: Db, worker: string, ref: LeaseRef, now: int)
    requires Sound(db)
    ensures var r := StartTx(db, worker, ref, now);
      if r.Ok? then
        && Good(db, r.value, now) && r.value.deps == db.deps
        && (NoStrays(db.jobs, db.attempts) ==> NoStrays(r.value.jobs, r.value.attempts))
        && (r.value == db || (ref.job in db.jobs && db.jobs[ref.job].state.Scheduled?
              && r.value.jobs == db.jobs[ref.job := Stamped(db, ref.job, db.jobs[ref.job].(state := Running), now)]))
      else r.error.StaleLease?
  {
    hide SlotsConserved, Journaled, LifetimesBounded, Acyclic, Logged, BackoffKept, Fenced, Move, CompletionsMatch,
      DeadLettersMatch, Evolves, NoStrays, AttemptsEvolve;
    var r := StartTx(db, worker, ref, now);
    EvolvesReflexive(db, now);
    if Cites(db, worker, ref) {
      var id, k := ref.job, AttemptKey(ref.job, ref.attemptNo);
      var a := db.attempts[k];
      if a.expiresAt > now && a.state.LeaseHeld? && db.jobs[id].state.Scheduled? {
        var next, after := db.jobs[id].(state := Running), a.(state := LeaseRunning);
        var job, attempts := Stamped(db, id, next, now), db.attempts[k := after];
        assert WellFormed(db.jobs[id]);
        StartFenced(db.jobs, db.attempts, id, job);
        BackoffWritten(db.jobs, db.attempts, db.events, attempts, id, job, EventOf(id, job, AttemptStarted, now));
        MoveSound(db, attempts, db.readySeq, id, next, AttemptStarted, now);
        AttemptChanged(db.attempts, k, after, now);
        assert Base(db, attempts, db.readySeq) == db.(attempts := attempts);
        MoveEvolves(db, r.value, attempts, db.readySeq, id, job, AttemptStarted, now);
      }
    }
  }

  lemma BeatSound(db: Db, worker: string, ref: LeaseRef, ttl: int, now: int)
    requires Sound(db) && ttl > 0
    ensures var r := Beat(db, worker, ref, ttl, now);
      && Good(db, r, now) && r.jobs == db.jobs && r.deps == db.deps
      && (NoStrays(db.jobs, db.attempts) ==> NoStrays(r.jobs, r.attempts))
  {
    hide SlotsConserved, OneOutcome, Journaled, LifetimesBounded, Acyclic, Logged, Fenced, NoStrays, Releases, BackoffKept;
    EvolvesReflexive(db, now);
    if BeatAccepted(db, worker, ref, now) {
      var k := AttemptKey(ref.job, ref.attemptNo);
      var a := db.attempts[k];
      var r := Beat(db, worker, ref, ttl, now);
      BeatFenced(db.jobs, db.attempts, k, now, Max(a.expiresAt, now + ttl));
      SameTables(db, r);
      SameLog(db, r);
      PausesKept(db.jobs, db.attempts, db.events, r.attempts);
      AttemptChanged(db.attempts, k, r.attempts[k], now);
    }
  }

  lemma PausesKept(
      jobs: map<string, Job>, attempts: map<AttemptKey, Attempt>, events: seq<Event>, after: map<AttemptKey, Attempt>)
    requires BackoffKept(jobs, attempts, events) && SamePauses(attempts, after)
    ensures BackoffKept(jobs, after, events)
  {
    hide Leasings, ReleasesAfter;
    forall id | id in jobs && ReleasesAfter(events, id, jobs[id].attemptNo) == 0 ensures Resting(id, jobs[id], after) {
      assert Resting(id, jobs[id], attempts);
    }
    forall k | k in after && k.no >= 1 && ReleasesAfter(events, k.job, k.no) == 0 ensures Spaced(after, k) {
      assert Spaced(attempts, k);
    }
  }

  /** The row a completion writes. */
  function CompletedJob(job: Job, c: Completion, at: int, now: int): Job {
    var state := Verdict(job, c);
    (if state.Terminal() then Settled(job, state, FailureOf(c), now)
     else job.(state := state, readySeq := 0, terminalAt := None, failure := FailureOf(c))).(availableAt := at)
  }

  /** A completion of the current attempt always closes it. */
  lemma CloseSound(cfg: Config, db: Db, c: Completion, now: int)
    requires Sound(db) && Completable(db, c, now)
    requires var a := db.attempts[AttemptKey(c.ref.job, c.ref.attemptNo)];
             a.worker == c.worker && a.generation == c.ref.generation && a.token == c.ref.token
    ensures var r, id := CloseLease(cfg, db, c, now), c.ref.job;
      && r.Ok? && Good(db, r.value, now) && r.value.deps == db.deps
      && r.value.jobs.Keys == db.jobs.Keys && (forall j :: j in db.jobs && j != id ==> r.value.jobs[j] == db.jobs[j])
      && r.value.jobs[id].state == Verdict(db.jobs[id], c) && r.value.jobs[id].readySeq == 0
      && r.value.jobs[id].attemptNo == db.jobs[id].attemptNo
      && r.value.jobs[id].version == db.jobs[id].version + 1
      && (NoStrays(db.jobs, db.attempts) ==> NoStrays(r.value.jobs, r.value.attempts))
      && AttemptKey(id, c.ref.attemptNo) in r.value.attempts
      && r.value.attempts[AttemptKey(id, c.ref.attemptNo)].closing
           == Some(Closing(c, Verdict(db.jobs[id], c), db.jobs[id].version + 1, now))
  {
    hide Sound, BackoffKept, Fenced, Move, Evolves, NoStrays, AttemptsEvolve, CloseLease, LegalMove, WellFormed, RetryAt;
    var id, k := c.ref.job, AttemptKey(c.ref.job, c.ref.attemptNo);
    var row, state := db.jobs[id], Verdict(db.jobs[id], c);
    SoundFenced(db);
    AttemptPositive(db, id);
    var at := CloseAsMove(cfg, db, c, now);
    var next, a := CompletedJob(row, c, at, now), ClosedAttempt(db, c, now);
    var kind := if state.Terminal() then JobCompleted else RetryScheduled;
    var job, attempts := Stamped(db, id, next, now), db.attempts[k := a];
    CloseLegal(db, c, at, now);
    CloseFenced(db.jobs, db.attempts, id, job, a);
    SoundBackoff(db);
    BackoffClosed(db.jobs, db.attempts, db.events, id, job, a, EventOf(id, job, kind, now));
    MoveSound(db, attempts, db.readySeq, id, next, kind, now);
    AttemptChanged(db.attempts, k, a, now);
    MoveEvolves(db, CloseLease(cfg, db, c, now).value, attempts, db.readySeq, id, job, kind, now);
  }

  /** The attempt row a completion writes. */
  function ClosedAttempt(db: Db, c: Completion, now: int): Attempt
    requires c.ref.job in db.jobs && AttemptKey(c.ref.job, c.ref.attemptNo) in db.attempts
  {
    var state := Verdict(db.jobs[c.ref.job], c);
    Closed(db.attempts[AttemptKey(c.ref.job, c.ref.attemptNo)], if c.success then LeaseSucceeded else LeaseFailed, FailureOf(c),
           Some(Closing(c, state, db.jobs[c.ref.job].version + 1, now)), now)
  }

  lemma SoundBackoff(db: Db)
    requires Sound(db)
    ensures BackoffKept(db.jobs, db.attempts, db.events)
  {
  }

  /** A completion is one move; a retry is not due before its backoff. */
  lemma CloseAsMove(cfg: Config, db: Db, c: Completion, now: int) returns (at: int)
    requires c.ref.job in db.jobs && AttemptKey(c.ref.job, c.ref.attemptNo) in db.attempts && Sound(db) && c.ref.attemptNo >= 1
    ensures var id, k := c.ref.job, AttemptKey(c.ref.job, c.ref.attemptNo); var state := Verdict(db.jobs[id], c);
      CloseLease(cfg, db, c, now)
        == Move(Base(db, db.attempts[k := ClosedAttempt(db, c, now)], db.readySeq), id, CompletedJob(db.jobs[id], c, at, now),
                if state.Terminal() then JobCompleted else RetryScheduled, now)
    ensures Verdict(db.jobs[c.ref.job], c).Retrying? ==> at >= now + Backoff.Shortest(c.ref.attemptNo)
  {
    hide SlotsConserved, Journaled, LifetimesBounded, Acyclic, Logged, BackoffKept, Fenced, Move, CompletionsMatch,
      DeadLettersMatch;
    assert c.ref.job != "";
    at := if Verdict(db.jobs[c.ref.job], c).Retrying? then RetryAt(cfg, c, now).value else now;
    var attempts := db.attempts[AttemptKey(c.ref.job, c.ref.attemptNo) := ClosedAttempt(db, c, now)];
    assert Base(db, attempts, db.readySeq) == db.(attempts := attempts);
  }

  lemma CloseLegal(db: Db, c: Completion, at: int, now: int)
    requires Sound(db) && c.ref.job in db.jobs && db.jobs[c.ref.job].state.Active()
    requires c.ref.attemptNo == db.jobs[c.ref.job].attemptNo
    ensures var next := CompletedJob(db.jobs[c.ref.job], c, at, now);
      && LegalMove(db.jobs[c.ref.job], next, if Verdict(db.jobs[c.ref.job], c).Terminal() then JobCompleted else RetryScheduled)
      && WellFormed(next.(version := 1))
  {
    hide SlotsConserved, Journaled, LifetimesBounded, Acyclic, Logged, BackoffKept, Fenced, CompletionsMatch, DeadLettersMatch;
    assert WellFormed(db.jobs[c.ref.job]);
  }

  lemma AttemptPositive(db: Db, id: string)
    requires Fenced(db.jobs, db.attempts) && id in db.jobs && db.jobs[id].state.Active()
    ensures db.jobs[id].attemptNo >= 1
  {
    assert JobFits(id, db.jobs[id], db.attempts);
  }

  /** Fencing the current attempt without a receipt: reaping and operator control. */
  lemma FenceSound(db: Db, id: string, a: Attempt, n: nat, next: Job, kind: EventKind, now: int)
    requires Sound(db) && id in db.jobs && db.jobs[id].state.Active() && !next.state.Active()
    requires SameSpec(db.jobs[id], next) && LegalMove(db.jobs[id], next, kind) && WellFormed(next.(version := 1))
    requires next.attemptNo == db.jobs[id].attemptNo && next.generation == db.jobs[id].generation
    requires Current(db, id) in db.attempts
    requires a == Closed(db.attempts[Current(db, id)], LeaseExpired, a.failure, db.attempts[Current(db, id)].closing, now)
    ensures var attempts := db.attempts[Current(db, id) := a];
      var r := Move(Base(db, attempts, n), id, next, kind, now);
      && r.Ok? && Good(db, r.value, now)
      && MovedTo(db, r.value, attempts, n, id, Stamped(db, id, next, now), kind, now)
      && (NoStrays(db.jobs, db.attempts) ==> NoStrays(r.value.jobs, r.value.attempts))
  {
    hide SlotsConserved, OneOutcome, Journaled, LifetimesBounded, Acyclic, Logged, BackoffKept, Fenced, Move, Evolves,
      NoStrays, AttemptsEvolve, LegalMove, WellFormed;
    var k, job := Current(db, id), Stamped(db, id, next, now);
    var attempts := db.attempts[k := a];
    OpenHasNoReceipt(db, id);
    NoLeasing(db.jobs[id], next, kind);
    CloseFenced(db.jobs, db.attempts, id, job, a);
    BackoffWritten(db.jobs, db.attempts, db.events, attempts, id, job, EventOf(id, job, kind, now));
    MoveSound(db, attempts, n, id, next, kind, now);
    AttemptChanged(db.attempts, k, a, now);
    MoveEvolves(db, Move(Base(db, attempts, n), id, next, kind, now).value, attempts, n, id, job, kind, now);
  }

  lemma OpenHasNoReceipt(db: Db, id: string)
    requires Fenced(db.jobs, db.attempts) && id in db.jobs && db.jobs[id].state.Active()
    ensures Current(db, id) in db.attempts
    ensures db.attempts[Current(db, id)].Open() && db.attempts[Current(db, id)].closing.None?
  {
    assert JobFits(id, db.jobs[id], db.attempts);
    assert AttemptFits(Current(db, id), db.attempts[Current(db, id)], db.jobs[id]);
  }

  /** What an operator action does to its job. */
  ghost predicate ControlledTo(db: Db, r: Db, id: string, cmd: ControlCommand)
    requires id in db.jobs
  {
    && r.deps == db.deps && r.operations == db.operations
    && r.jobs.Keys == db.jobs.Keys && (forall j :: j in db.jobs && j != id ==> r.jobs[j] == db.jobs[j])
    && id in r.jobs && r.jobs[id].state == cmd.action.State() && (r.jobs[id].readySeq > 0 <==> cmd.action.ForceRelease?)
    && r.jobs[id].attemptNo == db.jobs[id].attemptNo && r.jobs[id].version == db.jobs[id].version + 1
  }

  /** Every way of controlling an unfinished job succeeds. */
  lemma ControlSound(db: Db, id: string, cmd: ControlCommand, now: int)
    requires Sound(db) && id in db.jobs && !db.jobs[id].state.Terminal()
    ensures var r := Controlled(db, id, cmd, now);
      && r.Ok? && Good(db, r.value, now) && ControlledTo(db, r.value, id, cmd)
      && (NoStrays(db.jobs, db.attempts) ==> NoStrays(r.value.jobs, r.value.attempts))
  {
    hide Sound, Fenced, Move, Evolves, NoStrays, LegalMove, WellFormed, Fence, Controlled;
    var next, n := ControlledJob(db, db.jobs[id], cmd, now), ControlSeq(db, cmd);
    ControlLegal(db, id, cmd, now);
    if db.jobs[id].state.Active() {
      FenceLeased(db, id, ControlFailure(cmd), now);
      var a := Fence(db, id, ControlFailure(cmd), now).value.attempts[Current(db, id)];
      ControlAsMove(db, id, cmd, db.attempts[Current(db, id) := a], now);
      FenceSound(db, id, a, n, next, cmd.action.Kind(), now);
    } else {
      FenceIdle(db, id, ControlFailure(cmd), now);
      ControlAsMove(db, id, cmd, db.attempts, now);
      ShiftSound(db, n, id, next, cmd.action.Kind(), now);
      SoundFenced(db);
      ShiftStrays(db, id, Stamped(db, id, next, now));
    }
  }

  lemma ControlAsMove(db: Db, id: string, cmd: ControlCommand, attempts: map<AttemptKey, Attempt>, now: int)
    requires id in db.jobs && Fence(db, id, ControlFailure(cmd), now) == Ok(db.(attempts := attempts))
    ensures Controlled(db, id, cmd, now)
         == Move(Base(db, attempts, ControlSeq(db, cmd)), id, ControlledJob(db, db.jobs[id], cmd, now), cmd.action.Kind(), now)
  {
    hide Fence, Move, ControlledJob;
  }

  lemma SoundFenced(db: Db)
    requires Sound(db)
    ensures Fenced(db.jobs, db.attempts)
  {
  }

  lemma ControlLegal(db: Db, id: string, cmd: ControlCommand, now: int)
    requires Sound(db) && id in db.jobs && !db.jobs[id].state.Terminal()
    ensures LegalMove(db.jobs[id], ControlledJob(db, db.jobs[id], cmd, now), cmd.action.Kind())
    ensures WellFormed(ControlledJob(db, db.jobs[id], cmd, now).(version := 1))
  {
    hide SlotsConserved, Journaled, LifetimesBounded, Acyclic, Logged, BackoffKept, Fenced, CompletionsMatch, DeadLettersMatch;
    assert WellFormed(db.jobs[id]);
  }

  lemma FenceIdle(db: Db, id: string, failure: Failure, now: int)
    requires id in db.jobs && !db.jobs[id].state.Active()
    ensures Fence(db, id, failure, now) == Ok(db)
  {
  }

  lemma FenceLeased(db: Db, id: string, failure: Failure, now: int)
    requires Sound(db) && id in db.jobs && db.jobs[id].state.Active()
    ensures Current(db, id) in db.attempts && Fence(db, id, failure, now).Ok?
    ensures var r, k := Fence(db, id, failure, now).value, Current(db, id);
      && k in r.attempts && r == db.(attempts := db.attempts[k := r.attempts[k]])
      && r.attempts[k] == Closed(db.attempts[k], LeaseExpired, r.attempts[k].failure, db.attempts[k].closing, now)
  {
    hide SlotsConserved, OneOutcome, Journaled, LifetimesBounded, Acyclic, Logged, BackoffKept, Fenced;
    OpenHasNoReceipt(db, id);
  }

  lemma ShiftStrays(db: Db, id: string, job: Job)
    requires Fenced(db.jobs, db.attempts) && id in db.jobs && !db.jobs[id].state.Active()
    ensures NoStrays(db.jobs, db.attempts) ==> NoStrays(db.jobs[id := job], db.attempts)
  {
    hide JobFits;
    var moved := db.jobs[id := job];
    forall k | NoStrays(db.jobs, db.attempts) && k in db.attempts && k.job in moved && db.attempts[k].Open()
      ensures moved[k.job].state.Active()
    {
      assert k.job in db.jobs;
    }
  }

  // --------------------------------------------------------------------- admitting jobs

  /** What an admission adds. */
  ghost predicate AdmittedAs(db: Db, r: Db, id: string, job: Job, parents: set<string>) {
    && id !in db.jobs && r.jobs == db.jobs[id := job] && r.deps == db.deps + EdgesTo(id, parents)
    && r.attempts == db.attempts && r.log == db.log && r.schedulerSeq == db.schedulerSeq && r.readySeq == db.readySeq
    && r.tenants == db.tenants && r.queues == db.queues && r.requests == db.requests && r.operations == db.operations
    && (forall d :: d in db.deadLetters ==> d in r.deadLetters && r.deadLetters[d] == db.deadLetters[d])
  }

  ghost predicate Fresh(job: Job) {
    && job.attemptNo == job.generation == 0 && job.version == 1 && !job.state.Active() && !job.state.Retrying?
    && job.cost >= 1 && job.state != Succeeded
  }

  lemma AdmitSound(db: Db, id: string, job: Job, parents: set<string>, now: int)
    requires Sound(db) && WellFormed(job) && Fresh(job) && parents <= db.jobs.Keys
    requires job.tenant in db.tenants && QueueId(job.tenant, job.queue) in db.queues
    requires job.state.Terminal() || Roomy(db, job.tenant, 1)
    ensures var r := Admit(db, id, job, parents, now);
      if r.Ok? then Good(db, r.value, now) && AdmittedAs(db, r.value, id, job, parents) && id != ""
      else r.error in {NoId, IdTaken}
  {
    hide SlotsConserved, Journaled, LifetimesBounded, Logged, BackoffKept, Fenced, Acyclic, CompletionsMatch,
      DeadLettersMatch, Releases;
    var r := Admit(db, id, job, parents, now);
    AdmitSettles(db, id, job, parents, now);
    if r.Ok? {
      AdmitConserves(db, id, job, parents, now);
      AdmitJournaled(db, id, job, parents, now);
      AdmitFenced(db.jobs, db.attempts, id, job);
      BoundedWritten(db.(deps := db.deps + EdgesTo(id, parents)), id, job, Admitted, now);
      BackoffWritten(db.jobs, db.attempts, db.events, db.attempts, id, job, EventOf(id, job, Admitted, now));
      LeafAcyclic(db.deps, db.jobs.Keys, id, parents);
      SameLog(db, r.value);
      AttemptsSame(db.attempts, now);
      AdmitEvolves(db, id, job, parents, now);
    }
  }

  lemma AdmitEvolves(db: Db, id: string, job: Job, parents: set<string>, now: int)
    requires Admit(db, id, job, parents, now).Ok?
    requires CompletionsMatch(db.jobs, db.completions) && DeadLettersMatch(db.jobs, db.deadLetters)
    ensures Evolves(db, Admit(db, id, job, parents, now).value, now)
    ensures AdmittedAs(db, Admit(db, id, job, parents, now).value, id, job, parents)
  {
    hide AttemptsEvolve, OutcomesEvolve, JobsEvolve;
    AttemptsSame(db.attempts, now);
    AdmitOutcomes(db, id, job, parents, now);
    var r := Admit(db, id, job, parents, now).value;
    assert RecordsEvolve(db, r);
  }

  lemma AdmitOutcomes(db: Db, id: string, job: Job, parents: set<string>, now: int)
    requires Admit(db, id, job, parents, now).Ok?
    requires CompletionsMatch(db.jobs, db.completions) && DeadLettersMatch(db.jobs, db.deadLetters)
    ensures var r := Admit(db, id, job, parents, now).value; OutcomesEvolve(db, r) && JobsEvolve(db.jobs, r.jobs)
  {
  }

  // ------------------------------------------------------------------------- bookkeeping

  /** Tables that agree on everything the invariant reads of jobs, attempts, events and graph. */
  lemma BooksSound(db: Db, r: Db, now: int)
    requires Sound(db) && SlotsConserved(r)
    requires r == db.(tenants := r.tenants, queues := r.queues, readySeq := r.readySeq, requests := r.requests,
        operations := r.operations, cursor := r.cursor)
    requires forall k :: k in db.requests ==> k in r.requests && r.requests[k] == db.requests[k]
    requires forall k :: k in r.requests && k !in db.requests ==> AnsweredBy(r.jobs, r.requests[k])
    requires forall k :: k in db.operations ==> k in r.operations && r.operations[k] == db.operations[k]
    ensures Good(db, r, now)
  {
    hide SlotsConserved, LifetimesBounded, BackoffKept, Fenced, Acyclic, CompletionsMatch, DeadLettersMatch,
      Consecutive, Tells, DecisionLog.Recorded;
    AttemptsSame(db.attempts, now);
  }

  lemma EnsureSound(cfg: Config, db: Db, tenant: string, queue: string, ready: bool, now: int)
    requires Sound(db)
    ensures Good(db, EnsureTenant(cfg, db, tenant), now)
    ensures Good(db, EnsureQueue(db, tenant, queue), now)
    ensures Good(db, Stamp(db, ready), now)
  {
    hide Sound, Evolves, EnsureTenant, EnsureQueue, Stamp, SlotsConserved;
    SoundSlots(db);
    EnsureTenantConserves(cfg, db, tenant);
    EnsureQueueConserves(db, tenant, queue);
    StampConserves(db, ready);
    EnsureFrame(cfg, db, tenant, queue, ready);
    BooksSound(db, EnsureTenant(cfg, db, tenant), now);
    BooksSound(db, EnsureQueue(db, tenant, queue), now);
    BooksSound(db, Stamp(db, ready), now);
  }

  lemma SoundSlots(db: Db)
    requires Sound(db)
    ensures SlotsConserved(db)
  {
  }

  lemma StampConserves(db: Db, ready: bool)
    requires SlotsConserved(db)
    ensures SlotsConserved(Stamp(db, ready))
  {
    hide TenantsBalanced, QueuesBalanced, DepthBounded, Housed;
  }

  lemma EnsureFrame(cfg: Config, db: Db, tenant: string, queue: string, ready: bool)
    ensures EnsureTenant(cfg, db, tenant) == db.(tenants := EnsureTenant(cfg, db, tenant).tenants)
    ensures EnsureQueue(db, tenant, queue) == db.(queues := EnsureQueue(db, tenant, queue).queues)
    ensures Stamp(db, ready) == db.(readySeq := Stamp(db, ready).readySeq)
  {
  }

  lemma NoteSound(db: Db, id: string, kind: EventKind, now: int)
    requires Sound(db) && id in db.jobs && kind.Marker()
    ensures Good(db, Note(db, id, kind, now), now)
  {
    hide TenantsBalanced, QueuesBalanced, DepthBounded, Housed, CompletionsMatch, DeadLettersMatch, LifetimesBounded,
      BackoffKept, Fenced, Acyclic, Journaled, DecisionLog.Recorded;
    NoteJournaled(db, id, kind, now);
    var e := Event(id, kind, db.jobs[id].state, db.jobs[id].version, now);
    BoundedNoted(db.jobs, db.events, e);
    BackoffNoted(db.jobs, db.attempts, db.events, e);
    AttemptsSame(db.attempts, now);
  }

  lemma LinkSound(db: Db, source: string, created: string, now: int)
    requires Sound(db) && source in db.deadLetters && created in db.jobs && db.deadLetters[source].redriven.None?
    ensures Good(db, db.(deadLetters := db.deadLetters[source := db.deadLetters[source].(redriven := Some(created))]), now)
  {
    hide TenantsBalanced, QueuesBalanced, DepthBounded, Housed, OneOutcome, LifetimesBounded, BackoffKept, Fenced,
      Acyclic, Consecutive, Tells, DecisionLog.Recorded;
    LinkSettles(db, source, created);
    AttemptsSame(db.attempts, now);
  }
}
