/** The store invariant, and what every change of the tables preserves. */
module Invariant {
  import opened Graphs
  import opened Domain
  import opened Database
  import opened Accounts
  import opened Ledger
  import opened Journal
  import opened Fencing
  import opened Lifetime
  import opened Dependencies
  import DecisionLog

  ghost predicate Logged(db: Db) {
    DecisionLog.Recorded(db.log) && |db.log| == db.schedulerSeq
  }

  /** What holds after every single change, also in the middle of a transaction. */
  ghost predicate Sound(db: Db) {
    && SlotsConserved(db)
    && OneOutcome(db)
    && Journaled(db)
    && Fenced(db.jobs, db.attempts)
    && LifetimesBounded(db.jobs, db.events)
    && BackoffKept(db.jobs, db.attempts, db.events)
    && Grounded(db.jobs, db.deps) && Acyclic(db.deps)
    && Logged(db)
  }

  /** What holds between transactions. */
  ghost predicate Consistent(db: Db) {
    Sound(db) && Gated(db.jobs, db.deps)
  }

  /** What holds in addition as long as no operator releases a blocked job. */
  ghost predicate Orderly(db: Db) {
    Cleared(db.jobs, db.deps) && NoStrays(db.jobs, db.attempts)
  }

  lemma EmptyConsistent()
    ensures Consistent(EMPTY) && Orderly(EMPTY)
  {
    forall x: string ensures !Reaches(EMPTY.deps, x, x) {
      if p :| Connects(EMPTY.deps, p, x, x) { assert Edge(p[1], p[0]) in EMPTY.deps; }
    }
  }

  // ----------------------------------------------------------------------- evolution

  ghost predicate JobEvolves(a: Job, b: Job) {
    SameSpec(a, b) && a.version <= b.version && a.attemptNo <= b.attemptNo && (a.state.Terminal() ==> b == a)
  }

  /** A closed attempt never changes; a lease that ran out by `clock` is never extended. */
  ghost predicate AttemptEvolves(a: Attempt, b: Attempt, clock: int) {
    && a.worker == b.worker && a.generation == b.generation && a.token == b.token && a.leasedAt == b.leasedAt
    && (!a.Open() ==> b == a)
    && (a.expiresAt <= clock ==> b.expiresAt == a.expiresAt)
  }

  ghost predicate JobsEvolve(a: map<string, Job>, b: map<string, Job>) {
    forall id :: id in a ==> id in b && JobEvolves(a[id], b[id])
  }

  ghost predicate AttemptsEvolve(a: map<AttemptKey, Attempt>, b: map<AttemptKey, Attempt>, clock: int) {
    forall k :: k in a ==> k in b && AttemptEvolves(a[k], b[k], clock)
  }

  ghost predicate OutcomesEvolve(a: Db, b: Db) {
    && (forall id :: id in a.completions ==> id in b.completions && b.completions[id] == a.completions[id])
    && (forall id :: id in a.deadLetters ==>
          && id in b.deadLetters
          && b.deadLetters[id].createdAt == a.deadLetters[id].createdAt
          && (a.deadLetters[id].redriven.Some? ==> b.deadLetters[id] == a.deadLetters[id]))
  }

  /** A stored reply names jobs that exist; the reply to a single submission names one. */
  predicate AnsweredBy(jobs: map<string, Job>, r: Request) {
    (forall i :: 0 <= i < |r.rows| ==> r.rows[i].id in jobs) && (r.kind.JobRequest? ==> |r.rows| == 1)
  }

  ghost predicate RecordsEvolve(a: Db, b: Db) {
    && a.events <= b.events && a.log <= b.log
    && (forall k :: k in a.requests ==> k in b.requests && b.requests[k] == a.requests[k])
    && (forall k :: k in b.requests && k !in a.requests ==> AnsweredBy(b.jobs, b.requests[k]))
    && (forall k :: k in a.operations ==> k in b.operations && b.operations[k] == a.operations[k])
    && a.deps <= b.deps && (forall e :: e in b.deps && e.child in a.jobs ==> e in a.deps)
  }

  /** How tables may change: settled jobs, closed attempts, outcomes, logs and stored replies stay. */
  ghost predicate Persists(a: Db, b: Db, clock: int) {
    && JobsEvolve(a.jobs, b.jobs)
    && AttemptsEvolve(a.attempts, b.attempts, clock)
    && OutcomesEvolve(a, b)
    && RecordsEvolve(a, b)
  }

  /** How one transaction at time `now` may change the tables. */
  ghost predicate Evolves(a: Db, b: Db, now: int) {
    Persists(a, b, now) && Punctual(a.events, b.events, now)
  }

  lemma EvolvesTransitive(a: Db, b: Db, c: Db, now: int)
    requires Evolves(a, b, now) && Evolves(b, c, now)
    ensures Evolves(a, c, now)
  {
    hide Persists;
    PersistsTransitive(a, b, c, now, now);
    assert Persists(a, b, now) && Persists(b, c, now);
    PunctualTransitive(a.events, b.events, c.events, now);
  }

  lemma PersistsTransitive(a: Db, b: Db, c: Db, t: int, u: int)
    requires Persists(a, b, t) && Persists(b, c, u) && t <= u
    ensures Persists(a, c, t)
  {
    JobsTransitive(a.jobs, b.jobs, c.jobs);
    AttemptsTransitive(a.attempts, b.attempts, c.attempts, t, u);
    RecordsTransitive(a, b, c);
  }

  lemma JobsTransitive(a: map<string, Job>, b: map<string, Job>, c: map<string, Job>)
    requires JobsEvolve(a, b) && JobsEvolve(b, c)
    ensures JobsEvolve(a, c)
  {
    forall id | id in a ensures id in c && JobEvolves(a[id], c[id]) {
      assert JobEvolves(a[id], b[id]) && JobEvolves(b[id], c[id]);
    }
  }

  lemma AttemptsTransitive(a: map<AttemptKey, Attempt>, b: map<AttemptKey, Attempt>, c: map<AttemptKey, Attempt>, t: int, u: int)
    requires AttemptsEvolve(a, b, t) && AttemptsEvolve(b, c, u) && t <= u
    ensures AttemptsEvolve(a, c, t)
  {
    forall k | k in a ensures k in c && AttemptEvolves(a[k], c[k], t) {
      assert AttemptEvolves(a[k], b[k], t) && AttemptEvolves(b[k], c[k], u);
    }
  }

  lemma RecordsTransitive(a: Db, b: Db, c: Db)
    requires RecordsEvolve(a, b) && RecordsEvolve(b, c) && JobsEvolve(a.jobs, b.jobs) && JobsEvolve(b.jobs, c.jobs)
    ensures RecordsEvolve(a, c)
  {
    hide JobEvolves;
    forall e | e in c.deps && e.child in a.jobs ensures e in a.deps {
      assert e.child in b.jobs;
    }
  }

  lemma PunctualTransitive(a: seq<Event>, b: seq<Event>, c: seq<Event>, now: int)
    requires Punctual(a, b, now) && Punctual(b, c, now)
    ensures Punctual(a, c, now)
  {
    forall i | |a| <= i < |c| ensures c[i].at == now {
      if i < |b| { assert b[i] == c[i]; }
    }
  }

  lemma EvolvesReflexive(a: Db, clock: int)
    ensures Evolves(a, a, clock)
  {
  }

  // ---------------------------------------------------------------------- a job moves

  /** The row a move writes. */
  function Stamped(db: Db, id: string, next: Job, now: int): Job
    requires id in db.jobs
  {
    next.(version := db.jobs[id].version + 1, updatedAt := now)
  }

  function EventOf(id: string, job: Job, kind: EventKind, now: int): Event {
    Event(id, kind, job.state, job.version, now)
  }

  /** The tables a move starts from: the attempt table and the ready counter may change with it. */
  function Base(db: Db, attempts: map<AttemptKey, Attempt>, readySeq: nat): Db {
    db.(attempts := attempts, readySeq := readySeq)
  }

  /** What a successful move leaves behind, slot counters and outcome rows aside. */
  ghost predicate MovedTo(
      db: Db, r: Db, attempts: map<AttemptKey, Attempt>, readySeq: nat, id: string, job: Job, kind: EventKind,
      now: int) {
    && r.jobs == db.jobs[id := job] && r.deps == db.deps && r.attempts == attempts
    && r.events == db.events + [EventOf(id, job, kind, now)]
    && r.readySeq == readySeq && r.schedulerSeq == db.schedulerSeq && r.cursor == db.cursor && r.log == db.log
    && r.requests == db.requests && r.operations == db.operations
    && r.tenants.Keys == db.tenants.Keys && r.queues.Keys == db.queues.Keys
  }

  lemma MoveFrame(db: Db, attempts: map<AttemptKey, Attempt>, n: nat, id: string, next: Job, kind: EventKind, now: int)
    requires id in db.jobs && Move(Base(db, attempts, n), id, next, kind, now).Ok?
    ensures MovedTo(db, Move(Base(db, attempts, n), id, next, kind, now).value, attempts, n, id,
        Stamped(db, id, next, now), kind, now)
    ensures OutcomesEvolve(db, Move(Base(db, attempts, n), id, next, kind, now).value)
  {
    hide Exchange;
    ExchangeFrame(Base(db, attempts, n), db.jobs[id], Stamped(db, id, next, now));
  }

  /** A legal move of an unfinished job keeps the invariant and cannot fail, except that a tenant at
      its slot limit refuses a new lease. */
  lemma MoveSound(db: Db, attempts: map<AttemptKey, Attempt>, n: nat, id: string, next: Job, kind: EventKind, now: int)
    requires Sound(db) && id in db.jobs
    requires SameSpec(db.jobs[id], next) && LegalMove(db.jobs[id], next, kind) && WellFormed(next.(version := 1))
    requires Fenced(db.jobs[id := Stamped(db, id, next, now)], attempts)
    requires BackoffKept(db.jobs[id := Stamped(db, id, next, now)], attempts,
        db.events + [EventOf(id, Stamped(db, id, next, now), kind, now)])
    ensures var r := Move(Base(db, attempts, n), id, next, kind, now);
      if r.Ok? then
        && Sound(r.value) && MovedTo(db, r.value, attempts, n, id, Stamped(db, id, next, now), kind, now)
        && OutcomesEvolve(db, r.value)
      else r.error.CapacityChanged? && !db.jobs[id].state.Active() && next.state.Active()
  {
    hide SlotsConserved, OneOutcome, Journaled, Fenced, LifetimesBounded, BackoffKept, Acyclic, LegalMove, WellFormed,
      Logged, Exchange;
    var base, job := Base(db, attempts, n), Stamped(db, id, next, now);
    SameTables(db, base);
    Legal(db.jobs[id], next, job, kind);
    MoveConserves(base, id, next, kind, now);
    MoveSettles(base, id, next, kind, now);
    var r := Move(base, id, next, kind, now);
    if r.Ok? {
      MoveFrame(db, attempts, n, id, next, kind, now);
      MoveJournaled(base, id, next, kind, now);
      BoundedWritten(base, id, job, kind, now);
      SameLog(db, r.value);
    }
  }

  lemma SameTables(db: Db, base: Db)
    requires base == db.(attempts := base.attempts, readySeq := base.readySeq)
    ensures SlotsConserved(db) ==> SlotsConserved(base)
    ensures OneOutcome(db) ==> OneOutcome(base)
    ensures Journaled(db) ==> Journaled(base)
  {
    hide TenantsBalanced, QueuesBalanced, DepthBounded, Housed, CompletionsMatch, DeadLettersMatch, Consecutive, Tells;
  }

  lemma SameLog(db: Db, r: Db)
    requires Logged(db) && r.log == db.log && r.schedulerSeq == db.schedulerSeq
    ensures Logged(r)
  {
    hide DecisionLog.Recorded;
  }

  lemma Legal(a: Job, next: Job, job: Job, kind: EventKind)
    requires LegalMove(a, next, kind) && job == next.(version := job.version, updatedAt := job.updatedAt)
    ensures LegalMove(a, job, kind) && !a.state.Terminal() && !kind.Marker() && next.retry == a.retry
  {
  }

  lemma MoveEvolves(db: Db, r: Db, attempts: map<AttemptKey, Attempt>, n: nat, id: string, job: Job, kind: EventKind, now: int)
    requires id in db.jobs && MovedTo(db, r, attempts, n, id, job, kind, now) && OutcomesEvolve(db, r)
    requires JobEvolves(db.jobs[id], job) && AttemptsEvolve(db.attempts, attempts, now)
    ensures Evolves(db, r, now)
  {
  }
}
