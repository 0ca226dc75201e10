/** Whole runs of the store: every operation at any time, in any order, with restarts. */
module Runs {
  import opened Wrappers
  import opened Graphs
  import opened Domain
  import opened Database
  import opened Transactions
  import opened Accounts
  import opened Ledger
  import opened Journal
  import opened Fencing
  import opened Lifetime
  import opened Dependencies
  import opened Invariant
  import opened Steps
  import opened Preservation
  import opened Maintenance
  import opened Operations
  import opened Admission
  import opened Workflows
  import opened Acquisition
  import DecisionLog
  import Scheduler

  datatype Action =
    | Submit(sub: Submission, id: string)
    | SubmitWorkflow(w: WorkflowSubmission, ids: nat -> string)
    | Acquire(req: AcquireRequest, tokens: nat -> string)
    | Start(worker: string, ref: LeaseRef)
    | StartBatch(worker: string, refs: seq<LeaseRef>)
    | Heartbeat(worker: string, refs: seq<LeaseRef>, ttl: int)
    | Complete(completion: Completion)
    | CompleteBatch(completions: seq<Completion>)
    | PromoteDue(limit: int)
    | ReapExpired(limit: int)
    | Control(cmd: ControlCommand)
    | Redrive(clone: CloneCommand, id: string)
    | Retry(clone: CloneCommand, id: string)
    | Restart
  {
    /** Operations that create jobs. */
    predicate Admits() {
      Submit? || SubmitWorkflow? || Redrive? || Retry?
    }

    /** Operations on leases. */
    predicate Leases() {
      Acquire? || Start? || StartBatch? || Heartbeat? || Complete? || CompleteBatch?
    }
  }

  const MAX_BATCH := 128

  /** The checks an operation passes before it reads the clock and opens a transaction. */
  predicate Dispatched(a: Action) {
    match a
    case Acquire(req, _) => req.worker != "" && req.slots >= 1 && req.limit >= 1 && req.ttl > 0 && req.reserve >= 0
    case StartBatch(_, refs) => 1 <= |refs| <= MAX_BATCH
    case CompleteBatch(cs) => 1 <= |cs| <= MAX_BATCH
    case Heartbeat(_, _, ttl) => ttl > 0
    case PromoteDue(limit) => limit >= 1
    case ReapExpired(limit) => limit >= 1
    case Restart => false
    case _ => true
  }

  ghost function Stored<T>(r: Reply<T>): Outcome {
    if r.Ok? then Ok(r.value.db) else Err(r.error)
  }

  /** The tables an operation commits at time `now`, or the error that rolls it back. */
  ghost function Perform(cfg: Config, db: Db, a: Action, now: int): Outcome {
    if a.Admits() then PerformAdmission(cfg, db, a, now)
    else if a.Leases() then PerformLeasing(cfg, db, a, now)
    else PerformUpkeep(db, a, now)
  }

  ghost function PerformAdmission(cfg: Config, db: Db, a: Action, now: int): Outcome
    requires a.Admits()
  {
    match a
    case Submit(sub, id) => Stored(SubmitTx(cfg, db, sub, id, now))
    case SubmitWorkflow(w, ids) => Stored(WorkflowTx(cfg, db, w, ids, now))
    case Redrive(cmd, id) => Stored(RedriveTx(cfg, db, cmd, id, now))
    case Retry(cmd, id) => Stored(RetryTx(cfg, db, cmd, id, now))
  }

  ghost function PerformLeasing(cfg: Config, db: Db, a: Action, now: int): Outcome
    requires a.Leases()
  {
    match a
    case Acquire(req, tokens) => Stored(AcquireTx(db, req, tokens, now))
    case Start(worker, ref) => StartTx(db, worker, ref, now)
    case StartBatch(worker, refs) => Stored(StartAll(db, worker, refs, now))
    case Heartbeat(worker, refs, ttl) => Ok(BeatAll(db, worker, refs, ttl, now).db)
    case Complete(c) => Stored(CompleteTx(cfg, db, c, now))
    case CompleteBatch(cs) => Stored(CompleteAll(cfg, db, cs, now))
  }

  ghost function PerformUpkeep(db: Db, a: Action, now: int): Outcome
    requires !a.Admits() && !a.Leases()
  {
    match a
    case PromoteDue(limit) => Stored(PromoteTx(db, limit, now))
    case ReapExpired(limit) => Stored(ReapTx(db, limit, now))
    case Control(cmd) => Stored(ControlTx(db, cmd, now))
    case Restart => Ok(db)
  }

  ghost predicate ReleasesBlocked(db: Db, a: Action) {
    a.Control? && BlockedRelease(db, a.cmd)
  }

  /** What every operation does to a consistent store. */
  ghost predicate Obeys(db: Db, a: Action, r: Outcome, now: int) {
    if r.Ok? then
      Consistent(r.value) && Evolves(db, r.value, now) && (Orderly(db) && !ReleasesBlocked(db, a) ==> Orderly(r.value))
    else !r.error.Corruption() || (a.ReapExpired? && !Orderly(db))
  }

  lemma AdmissionObeys(cfg: Config, db: Db, a: Action, now: int)
    requires Consistent(db) && a.Admits()
    ensures Obeys(db, a, PerformAdmission(cfg, db, a, now), now)
  {
    hide Consistent, Evolves, Orderly, SubmitTx, WorkflowTx, RedriveTx, RetryTx, BlockedRelease;
    match a {
      case Submit(sub, id) => SubmitKeeps(cfg, db, sub, id, now);
      case SubmitWorkflow(w, ids) => WorkflowKeeps(cfg, db, w, ids, now);
      case Redrive(cmd, id) => RedriveKeeps(cfg, db, cmd, id, now);
      case Retry(cmd, id) => RetryKeeps(cfg, db, cmd, id, now);
    }
  }

  lemma LeasingObeys(cfg: Config, db: Db, a: Action, now: int)
    requires Consistent(db) && a.Leases() && Dispatched(a)
    ensures Obeys(db, a, PerformLeasing(cfg, db, a, now), now)
  {
    hide Consistent, Evolves, Orderly, AcquireTx, StartTx, StartAll, BeatAll, CompleteTx, CompleteAll, BlockedRelease;
    match a {
      case Acquire(req, tokens) => AcquireKeeps(db, req, tokens, now);
      case Start(worker, ref) => StartKeeps(db, worker, ref, now);
      case StartBatch(worker, refs) => StartAllKeeps(db, worker, refs, now);
      case Heartbeat(worker, refs, ttl) => BeatAllKeeps(db, worker, refs, ttl, now);
      case Complete(c) => CompleteKeeps(cfg, db, c, now);
      case CompleteBatch(cs) => CompleteAllKeeps(cfg, db, cs, now);
    }
  }

  lemma UpkeepObeys(db: Db, a: Action, now: int)
    requires Consistent(db) && !a.Admits() && !a.Leases() && Dispatched(a)
    ensures Obeys(db, a, PerformUpkeep(db, a, now), now)
  {
    hide Consistent, Evolves, Orderly, PromoteTx, ReapTx, ControlTx, BlockedRelease, Swept, SomeDoomed, DueRows,
      ExpiredRows, ExpiredSet;
    match a {
      case PromoteDue(limit) => PromoteKeeps(db, limit, now);
      case ReapExpired(limit) =>
        ReapAborts(db, limit, now);
        if Orderly(db) { ReapCompletes(db, limit, now); }
      case Control(cmd) => ControlKeeps(db, cmd, now);
    }
  }

  lemma PerformObeys(cfg: Config, db: Db, a: Action, now: int)
    requires Consistent(db) && Dispatched(a)
    ensures Obeys(db, a, Perform(cfg, db, a, now), now)
  {
    hide Consistent, Obeys, PerformAdmission, PerformLeasing, PerformUpkeep;
    if a.Admits() {
      AdmissionObeys(cfg, db, a, now);
    } else if a.Leases() {
      LeasingObeys(cfg, db, a, now);
    } else {
      UpkeepObeys(db, a, now);
    }
  }

  // ---------------------------------------------------------------------------- the clock

  /** Every time stamp the tables hold. */
  function Stamps(db: Db): set<int> {
    (set e | e in db.events :: e.at)
    + (set id | id in db.jobs :: db.jobs[id].updatedAt)
    + (set k | k in db.attempts :: db.attempts[k].heartbeatAt)
    + (set k | k in db.attempts && db.attempts[k].completedAt.Some? :: db.attempts[k].completedAt.value)
    + (set id | id in db.completions :: db.completions[id].committedAt)
  }

  /** The greatest stamp, or 0 in an empty store. */
  ghost function Latest(s: set<int>): (m: int)
    ensures s == {} ==> m == 0
    ensures s != {} ==> m in s
    ensures forall x :: x in s ==> x <= m
    decreases |s|
  {
    if !exists x :: x in s then assert s == {}; 0 else
      var x :| x in s;
      var rest := s - {x};
      assert s == rest + {x};
      if rest == {} then x else Max(x, Latest(rest))
  }

  /** The tables and the last time a write was stamped with. */
  datatype System = System(db: Db, last: int)

  const BOOT := System(EMPTY, 0)

  /** An operation asked for when the clock showed `at`. */
  datatype Step = Step(action: Action, at: int)

  ghost function Next(cfg: Config, s: System, step: Step): System {
    if step.action.Restart? then System(s.db, Latest(Stamps(s.db)))
    else if !Dispatched(step.action) then s
    else
      var now := Max(step.at, s.last);
      var r := Perform(cfg, s.db, step.action, now);
      System(if r.Ok? then r.value else s.db, now)
  }

  ghost function Run(cfg: Config, s: System, steps: seq<Step>): System {
    if steps == [] then s else Next(cfg, Run(cfg, s, steps[..|steps| - 1]), steps[|steps| - 1])
  }

  /** A submission as a step of the system. */
  lemma SubmitStep(cfg: Config, s: System, sub: Submission, id: string, at: int)
    ensures var now := Max(at, s.last); var r := SubmitTx(cfg, s.db, sub, id, now);
      Next(cfg, s, Step(Submit(sub, id), at)) == System(if r.Ok? then r.value.db else s.db, now)
  {
    hide SubmitTx, WorkflowTx, RedriveTx, RetryTx, PerformLeasing, PerformUpkeep;
  }

  // -------------------------------------------------------------------------- invariance

  ghost predicate Healthy(s: System) {
    Consistent(s.db) && Timely(s.db.events, s.last)
  }

  lemma RestartTimely(events: seq<Event>, db: Db, last: int)
    requires db.events == events && Timely(events, last)
    ensures Timely(events, Latest(Stamps(db)))
  {
    forall i | 0 <= i < |events| ensures events[i].at <= Latest(Stamps(db)) {
      assert events[i] in db.events;
      assert events[i].at in Stamps(db);
    }
  }

  lemma NextHealthy(cfg: Config, s: System, step: Step)
    requires Healthy(s)
    ensures Healthy(Next(cfg, s, step))
  {
    hide Consistent, Perform, Evolves, Stamps, Timely;
    if step.action.Restart? {
      RestartTimely(s.db.events, s.db, s.last);
    } else if Dispatched(step.action) {
      var now := Max(step.at, s.last);
      PerformObeys(cfg, s.db, step.action, now);
      var r := Perform(cfg, s.db, step.action, now);
      EvolvesReflexive(s.db, now);
      EvolvesPunctual(s.db, if r.Ok? then r.value else s.db, now);
      TimelyGrows(s.db.events, if r.Ok? then r.value.events else s.db.events, s.last, now);
    }
  }

  lemma EvolvesPunctual(a: Db, b: Db, now: int)
    requires Evolves(a, b, now)
    ensures Punctual(a.events, b.events, now) && Persists(a, b, now)
  {
    hide Persists;
  }

  lemma {:induction false} RunHealthy(cfg: Config, s: System, steps: seq<Step>)
    requires Healthy(s)
    ensures Healthy(Run(cfg, s, steps))
    decreases |steps|
  {
    hide Healthy, Next;
    if steps != [] {
      RunHealthy(cfg, s, steps[..|steps| - 1]);
      NextHealthy(cfg, Run(cfg, s, steps[..|steps| - 1]), steps[|steps| - 1]);
    }
  }

  lemma BootHealthy()
    ensures Healthy(BOOT) && Orderly(BOOT.db)
  {
    hide Consistent, Orderly;
    EmptyConsistent();
  }

  /** Every reachable state is consistent, and its event log is in time order across restarts. */
  lemma Reachable(cfg: Config, steps: seq<Step>)
    ensures Healthy(Run(cfg, BOOT, steps))
  {
    BootHealthy();
    RunHealthy(cfg, BOOT, steps);
  }

  // ------------------------------------------------------------- without blocked releases

  /** Every release in the run meets a job whose parents have all succeeded. */
  ghost predicate NoBlockedRelease(cfg: Config, s: System, steps: seq<Step>) {
    steps == [] ||
    var before := Run(cfg, s, steps[..|steps| - 1]);
    NoBlockedRelease(cfg, s, steps[..|steps| - 1]) && !ReleasesBlocked(before.db, steps[|steps| - 1].action)
  }

  lemma {:induction false} RunOrderly(cfg: Config, s: System, steps: seq<Step>)
    requires Healthy(s) && Orderly(s.db) && NoBlockedRelease(cfg, s, steps)
    ensures Orderly(Run(cfg, s, steps).db)
    decreases |steps|
  {
    hide Consistent, Perform, Orderly, Evolves, Timely, ReleasesBlocked;
    if steps != [] {
      var init, step := steps[..|steps| - 1], steps[|steps| - 1];
      RunOrderly(cfg, s, init);
      RunHealthy(cfg, s, init);
      var before := Run(cfg, s, init);
      if Dispatched(step.action) {
        PerformObeys(cfg, before.db, step.action, Max(step.at, before.last));
      }
    }
  }

  /** Dependency order over whole runs: whatever is ready or was ever leased has only succeeded
      ancestors. */
  lemma AncestorsFirst(cfg: Config, steps: seq<Step>, root: string, id: string)
    requires NoBlockedRelease(cfg, BOOT, steps)
    requires var db := Run(cfg, BOOT, steps).db;
      id in db.jobs && (db.jobs[id].readySeq > 0 || db.jobs[id].attemptNo > 0) && Reaches(db.deps, root, id)
    ensures var db := Run(cfg, BOOT, steps).db; root in db.jobs && db.jobs[root].state.Succeeded?
  {
    hide SlotsConserved, OneOutcome, Journaled, LifetimesBounded, BackoffKept, Fenced, Acyclic, Logged, Run, NoStrays,
      NoBlockedRelease, Timely;
    BootHealthy();
    Reachable(cfg, steps);
    RunOrderly(cfg, BOOT, steps);
    var db := Run(cfg, BOOT, steps).db;
    var p :| Connects(db.deps, p, root, id);
    AncestorsSucceeded(db.jobs, db.deps, p);
  }

  /** Reaping over whole runs: it never aborts and reclaims min(limit, expired) leases. */
  lemma ReapingCompletes(cfg: Config, steps: seq<Step>, limit: nat, now: int)
    requires NoBlockedRelease(cfg, BOOT, steps)
    ensures var db := Run(cfg, BOOT, steps).db; var n := |ExpiredSet(db, now)|;
      ReapTx(db, limit, now).Ok? && |ReapTx(db, limit, now).value.reply| == if limit < n then limit else n
  {
    hide Consistent, Orderly, Run, NoBlockedRelease, ReapTx, ExpiredSet, Timely;
    BootHealthy();
    Reachable(cfg, steps);
    RunOrderly(cfg, BOOT, steps);
    ReapCompletes(Run(cfg, BOOT, steps).db, limit, now);
  }

  /** No operation of a run ever reports inconsistent tables. */
  lemma NeverCorrupt(cfg: Config, steps: seq<Step>, step: Step)
    requires NoBlockedRelease(cfg, BOOT, steps) && Dispatched(step.action)
    ensures var s := Run(cfg, BOOT, steps); var r := Perform(cfg, s.db, step.action, Max(step.at, s.last));
      r.Err? ==> !r.error.Corruption()
  {
    hide Consistent, Orderly, Run, NoBlockedRelease, Perform, Evolves, Timely;
    BootHealthy();
    Reachable(cfg, steps);
    RunOrderly(cfg, BOOT, steps);
    var s := Run(cfg, BOOT, steps);
    PerformObeys(cfg, s.db, step.action, Max(step.at, s.last));
  }

  /** Dependencies never deadlock: with work left, some unfinished job waits for no parent. */
  lemma SomeJobCanProceed(cfg: Config, steps: seq<Step>, id: string) returns (next: string)
    requires var db := Run(cfg, BOOT, steps).db; id in db.jobs && !db.jobs[id].state.Terminal()
    ensures var db := Run(cfg, BOOT, steps).db;
      next in db.jobs && !db.jobs[next].state.Terminal() && ParentsSucceeded(db, next)
  {
    hide SlotsConserved, OneOutcome, Journaled, LifetimesBounded, BackoffKept, Fenced, Logged, Run, Timely;
    Reachable(cfg, steps);
    var db := Run(cfg, BOOT, steps).db;
    next := NoDeadlock(db.jobs, db.deps, id);
  }

  // ------------------------------------------------------------------ what never changes

  ghost predicate NoRestart(steps: seq<Step>) {
    forall i :: 0 <= i < |steps| ==> !steps[i].action.Restart?
  }

  /** Time `t` lies behind the clock for good: no restart follows, or an event carries it. */
  ghost predicate Behind(s: System, t: int, steps: seq<Step>) {
    t <= s.last && (NoRestart(steps) || EventSince(s.db.events, t))
  }

  ghost predicate EventSince(events: seq<Event>, t: int) {
    exists i :: 0 <= i < |events| && events[i].at >= t
  }

  lemma NextPersists(cfg: Config, s: System, step: Step, t: int)
    requires Healthy(s) && t <= s.last
    ensures Persists(s.db, Next(cfg, s, step).db, t)
    ensures !step.action.Restart? || EventSince(s.db.events, t) ==> t <= Next(cfg, s, step).last
    ensures EventSince(s.db.events, t) ==> EventSince(Next(cfg, s, step).db.events, t)
  {
    hide Consistent, Perform, Evolves, Timely;
    var now := Max(step.at, s.last);
    EvolvesReflexive(s.db, now);
    EvolvesPunctual(s.db, s.db, now);
    if step.action.Restart? {
      if EventSince(s.db.events, t) { RestartAfter(s.db, t); }
    } else if Dispatched(step.action) {
      PerformObeys(cfg, s.db, step.action, now);
      var r := Perform(cfg, s.db, step.action, now);
      if r.Ok? { EvolvesPunctual(s.db, r.value, now); }
    }
    EventsStay(s.db, Next(cfg, s, step).db, t, now);
  }

  lemma RestartAfter(db: Db, t: int)
    requires EventSince(db.events, t)
    ensures t <= Latest(Stamps(db))
  {
    var i :| 0 <= i < |db.events| && db.events[i].at >= t;
    assert db.events[i] in db.events;
    assert db.events[i].at in Stamps(db);
  }

  /** What persists at a time persists at any earlier time. */
  lemma EventsStay(a: Db, b: Db, t: int, now: int)
    requires Persists(a, b, now) && t <= now
    ensures Persists(a, b, t)
    ensures EventSince(a.events, t) ==> EventSince(b.events, t)
  {
    if EventSince(a.events, t) {
      var i :| 0 <= i < |a.events| && a.events[i].at >= t;
      assert b.events[i] == a.events[i];
    }
  }

  /** Settled jobs, closed attempts, outcomes, logs and stored replies survive every run. */
  lemma {:induction false} RunPersists(cfg: Config, s: System, steps: seq<Step>, t: int)
    requires Healthy(s) && Behind(s, t, steps)
    ensures Persists(s.db, Run(cfg, s, steps).db, t) && t <= Run(cfg, s, steps).last
    ensures EventSince(s.db.events, t) ==> EventSince(Run(cfg, s, steps).db.events, t)
    decreases |steps|
  {
    hide Healthy, Persists, Next, EventSince;
    if steps == [] {
      PersistsReflexive(s.db, t);
    } else {
      var init := steps[..|steps| - 1];
      RunPersists(cfg, s, init, t);
      RunHealthy(cfg, s, init);
      var before := Run(cfg, s, init);
      NextPersists(cfg, before, steps[|steps| - 1], t);
      PersistsTransitive(s.db, before.db, Next(cfg, before, steps[|steps| - 1]).db, t, t);
    }
  }

  lemma PersistsReflexive(db: Db, t: int)
    ensures Persists(db, db, t)
  {
    EvolvesReflexive(db, t);
    EvolvesPunctual(db, db, t);
  }

  // ---------------------------------------------------------------------------- fencing

  /** The attempt is closed, or its lease had run out by `now`. */
  ghost predicate Spent(db: Db, k: AttemptKey, now: int) {
    k in db.attempts && (!db.attempts[k].Open() || db.attempts[k].expiresAt <= now)
  }

  /** Nothing that cites a spent attempt changes the store. */
  lemma SpentChangesNothing(cfg: Config, db: Db, k: AttemptKey, worker: string, ref: LeaseRef, c: Completion, ttl: int, now: int)
    requires Consistent(db) && Spent(db, k, now)
    requires AttemptKey(ref.job, ref.attemptNo) == k && c.ref == ref
    ensures StartTx(db, worker, ref, now) == Err(StaleLease)
    ensures Beat(db, worker, ref, ttl, now) == db
    ensures CompleteTx(cfg, db, c, now).Ok? ==> CompleteTx(cfg, db, c, now).value.db == db
  {
    hide Consistent, CloseLease, Propagate, Move;
  }

  /** Fencing over whole runs: once an attempt is closed, or its expiry lies behind the clock for good, no
      start, heartbeat or completion that cites it ever changes the store again. */
  lemma FencedForGood(
      cfg: Config, s: System, steps: seq<Step>, k: AttemptKey, worker: string, ref: LeaseRef, c: Completion, ttl: int,
      at: int)
    requires Healthy(s) && Spent(s.db, k, s.last)
    requires !s.db.attempts[k].Open() || Behind(s, s.db.attempts[k].expiresAt, steps)
    requires AttemptKey(ref.job, ref.attemptNo) == k && c.ref == ref
    ensures var z := Run(cfg, s, steps); var now := Max(at, z.last);
      && StartTx(z.db, worker, ref, now) == Err(StaleLease)
      && Beat(z.db, worker, ref, ttl, now) == z.db
      && (CompleteTx(cfg, z.db, c, now).Ok? ==> CompleteTx(cfg, z.db, c, now).value.db == z.db)
  {
    hide Consistent, StartTx, Beat, CompleteTx, Run, Timely;
    var z := Run(cfg, s, steps);
    var now := Max(at, z.last);
    RunHealthy(cfg, s, steps);
    if s.db.attempts[k].Open() {
      var t := s.db.attempts[k].expiresAt;
      RunPersists(cfg, s, steps, t);
      SpentStays(s.db, z.db, k, t, now);
    } else {
      ClosedAfterEvent(cfg, s, steps, k);
      SpentStays(s.db, z.db, k, s.last, now);
    }
    SpentChangesNothing(cfg, z.db, k, worker, ref, c, ttl, now);
  }

  lemma SpentStays(a: Db, b: Db, k: AttemptKey, last: int, now: int)
    requires Spent(a, k, last) && k in b.attempts
    requires (!a.attempts[k].Open() && b.attempts[k] == a.attempts[k]) || (Persists(a, b, last) && last <= now)
    ensures Spent(b, k, now)
  {
    assert (!a.attempts[k].Open() && b.attempts[k] == a.attempts[k]) || AttemptEvolves(a.attempts[k], b.attempts[k], last);
  }

  /** A closed attempt's job has an event, so closed attempts outlive restarts too. */
  lemma ClosedAfterEvent(cfg: Config, s: System, steps: seq<Step>, k: AttemptKey)
    requires Healthy(s) && k in s.db.attempts
    ensures k in Run(cfg, s, steps).db.attempts
    ensures !s.db.attempts[k].Open() ==> Run(cfg, s, steps).db.attempts[k] == s.db.attempts[k]
  {
    hide SlotsConserved, OneOutcome, LifetimesBounded, BackoffKept, Acyclic, Logged, Gated, Grounded, Run,
      Consecutive, AttemptFits, JobFits, Tip;
    assert k.job in s.db.jobs;
    var t := FirstEvent(s, k.job);
    RunPersists(cfg, s, steps, t);
    assert AttemptEvolves(s.db.attempts[k], Run(cfg, s, steps).db.attempts[k], t);
  }

  lemma FirstEvent(s: System, id: string) returns (t: int)
    requires Timely(s.db.events, s.last) && Tip(s.db.events, id).Some?
    ensures t <= s.last && EventSince(s.db.events, t)
  {
    assert s.db.events != [];
    t := s.db.events[0].at;
  }

  // --------------------------------------------------------------------------- receipts

  ghost predicate Receipts(db: Db, c: Completion, r: Receipt) {
    var k := AttemptKey(c.ref.job, c.ref.attemptNo);
    && k in db.attempts && !db.attempts[k].Open()
    && db.attempts[k].worker == c.worker && db.attempts[k].generation == c.ref.generation && db.attempts[k].token == c.ref.token
    && db.attempts[k].closing == Some(Closing(c, r.state, r.version, r.committedAt)) && r.job == c.ref.job && c.ref.job in db.jobs
  }

  /** An accepted completion stores its receipt with the attempt. */
  lemma CompletionReceipted(cfg: Config, db: Db, c: Completion, now: int)
    requires Consistent(db) && CompleteTx(cfg, db, c, now).Ok?
    ensures Receipts(CompleteTx(cfg, db, c, now).value.db, c, CompleteTx(cfg, db, c, now).value.reply)
  {
    hide SlotsConserved, OneOutcome, Journaled, LifetimesBounded, BackoffKept, Acyclic, Logged, Gated, Grounded,
      CloseLease, Propagate, Evolves, Completable;
    var k := AttemptKey(c.ref.job, c.ref.attemptNo);
    var a := db.attempts[k];
    if a.closing.Some? {
      assert AttemptFits(k, a, db.jobs[k.job]);
    } else {
      PropagateAttempts(cfg, db, c, now);
      ReceiptClosed(cfg, db, c, now);
    }
  }

  lemma PropagateAttempts(cfg: Config, db: Db, c: Completion, now: int)
    requires Sound(db) && Completable(db, c, now)
    requires var a := db.attempts[AttemptKey(c.ref.job, c.ref.attemptNo)];
             a.worker == c.worker && a.generation == c.ref.generation && a.token == c.ref.token
    ensures CloseLease(cfg, db, c, now).Ok?
    ensures var closed := CloseLease(cfg, db, c, now).value;
      var r, k := Propagate(closed, c.ref.job, Verdict(db.jobs[c.ref.job], c), now), AttemptKey(c.ref.job, c.ref.attemptNo);
      && r.Ok? && r.value.attempts == closed.attempts && c.ref.job in r.value.jobs
      && k in closed.attempts
      && closed.attempts[k].closing == Some(Closing(c, Verdict(db.jobs[c.ref.job], c), db.jobs[c.ref.job].version + 1, now))
  {
    hide Sound, CloseLease, ActivateChildren, FailDescendants, NoStrays, Evolves;
    CloseSound(cfg, db, c, now);
    var closed := CloseLease(cfg, db, c, now).value;
    var state := Verdict(db.jobs[c.ref.job], c);
    if state.Succeeded? {
      ActivateChildrenEffect(db, closed, c.ref.job, now);
    } else if state.Terminal() {
      FailDescendantsEffect(db, closed, c.ref.job, now);
    }
  }

  lemma ReceiptClosed(cfg: Config, db: Db, c: Completion, now: int)
    requires c.ref.job in db.jobs && AttemptKey(c.ref.job, c.ref.attemptNo) in db.attempts && CloseLease(cfg, db, c, now).Ok?
    ensures var k := AttemptKey(c.ref.job, c.ref.attemptNo); var r := CloseLease(cfg, db, c, now).value;
      && k in r.attempts && !r.attempts[k].Open()
      && r.attempts[k].worker == db.attempts[k].worker && r.attempts[k].generation == db.attempts[k].generation
      && r.attempts[k].token == db.attempts[k].token
  {
    hide Exchange, RetryAt;
    var id, k := c.ref.job, AttemptKey(c.ref.job, c.ref.attemptNo);
    forall next: Job, d: Db | Exchange(d, db.jobs[id], next).Ok?
      ensures Exchange(d, db.jobs[id], next).value.attempts == d.attempts
    {
      ExchangeFrame(d, db.jobs[id], next);
    }
  }

  /** Receipts over whole runs: a committed completion is answered with the same receipt, marked as a
      duplicate, after any later steps and restarts, and every other completion of that attempt is
      stale. */
  lemma ReceiptsReplay(cfg: Config, s: System, c: Completion, r: Receipt, steps: seq<Step>, other: Completion, at: int)
    requires Healthy(s) && Receipts(s.db, c, r)
    requires other.ref.job == c.ref.job && other.ref.attemptNo == c.ref.attemptNo
    ensures var z := Run(cfg, s, steps); var now := Max(at, z.last);
      CompleteTx(cfg, z.db, other, now) == if other == c then Ok(Tx(z.db, r.(duplicate := true))) else Err(StaleLease)
  {
    hide Consistent, Run, Timely, CloseLease, Propagate;
    var z := Run(cfg, s, steps);
    var k := AttemptKey(c.ref.job, c.ref.attemptNo);
    ClosedAfterEvent(cfg, s, steps, k);
    JobStays(cfg, s, steps, c.ref.job);
  }

  lemma JobStays(cfg: Config, s: System, steps: seq<Step>, id: string)
    requires Healthy(s) && id in s.db.jobs
    ensures id in Run(cfg, s, steps).db.jobs
    ensures JobEvolves(s.db.jobs[id], Run(cfg, s, steps).db.jobs[id])
  {
    hide SlotsConserved, OneOutcome, LifetimesBounded, BackoffKept, Acyclic, Logged, Gated, Grounded, Fenced, Run,
      Consecutive, Tip, JobEvolves;
    var t := FirstEvent(s, id);
    RunPersists(cfg, s, steps, t);
  }

  // ------------------------------------------------------------------ further consequences

  /** One terminal outcome: a finished job's row and its outcome rows never change again. */
  lemma FinishedForGood(cfg: Config, s: System, steps: seq<Step>, id: string)
    requires Healthy(s) && id in s.db.jobs && s.db.jobs[id].state.Terminal()
    ensures var z := Run(cfg, s, steps).db;
      && id in z.jobs && z.jobs[id] == s.db.jobs[id]
      && id in s.db.completions && id in z.completions && z.completions[id] == s.db.completions[id]
      && (id in s.db.deadLetters <==> s.db.jobs[id].state.DeadLetter?) && (id in z.deadLetters <==> id in s.db.deadLetters)
      && (id in s.db.deadLetters && s.db.deadLetters[id].redriven.Some? ==> z.deadLetters[id] == s.db.deadLetters[id])
  {
    hide SlotsConserved, LifetimesBounded, BackoffKept, Acyclic, Logged, Gated, Grounded, Fenced, Run, Consecutive,
      Tip, AttemptsEvolve, RecordsEvolve, WellFormed;
    var t := FirstEvent(s, id);
    RunPersists(cfg, s, steps, t);
    RunHealthy(cfg, s, steps);
    assert JobEvolves(s.db.jobs[id], Run(cfg, s, steps).db.jobs[id]);
  }

  /** The exported decision log of every reachable state reads back and replays without divergence. */
  lemma LogReplays(cfg: Config, steps: seq<Step>, encode: Scheduler.Decision -> DecisionLog.Bytes)
    ensures var log := Run(cfg, BOOT, steps).db.log; var lines := DecisionLog.Export(log);
      && DecisionLog.Readable(lines) && DecisionLog.Entries(lines) == log && |log| == Run(cfg, BOOT, steps).db.schedulerSeq
      && forall i :: 0 <= i < |log| ==> log[i].sequence == i + 1 && DecisionLog.Reproduces(log[i], encode)
  {
    hide SlotsConserved, OneOutcome, Journaled, LifetimesBounded, BackoffKept, Acyclic, Gated, Grounded, Fenced, Run,
      Timely, DecisionLog.Recorded, DecisionLog.Reproduces, DecisionLog.Chain;
    Reachable(cfg, steps);
    var log := Run(cfg, BOOT, steps).db.log;
    DecisionLog.RecordedReplays(log, encode);
    DecisionLog.ExportReadsBack(log);
  }

  /** Bounded lifetimes over whole runs. */
  lemma LifetimeBounds(cfg: Config, steps: seq<Step>, id: string)
    requires id in Run(cfg, BOOT, steps).db.jobs
    ensures var db := Run(cfg, BOOT, steps).db; var job, r := db.jobs[id], Releases(db.events, id);
      job.attemptNo <= job.retry.maxAttempts + r && job.version <= 4 * job.retry.maxAttempts + 5 * r + 1
  {
    hide SlotsConserved, OneOutcome, Journaled, BackoffKept, Acyclic, Gated, Grounded, Fenced, Run, Timely, Logged,
      Releases, Bounded;
    Reachable(cfg, steps);
    var db := Run(cfg, BOOT, steps).db;
    BoundedLifetime(db.jobs[id], Releases(db.events, id));
  }

  /** Backoff over whole runs: after a retryable failure of attempt k committed at time t, attempt
      k + 1 is leased no earlier than t plus the shortest delay, unless the job was released in between. */
  lemma BackoffHonoured(cfg: Config, steps: seq<Step>, k: AttemptKey)
    requires var db := Run(cfg, BOOT, steps).db;
      AwaitsRetry(db.attempts, k) && AttemptKey(k.job, k.no + 1) in db.attempts && ReleasesAfter(db.events, k.job, k.no) == 0
    ensures var db := Run(cfg, BOOT, steps).db;
      db.attempts[AttemptKey(k.job, k.no + 1)].leasedAt >= Earliest(db.attempts, k)
  {
    hide SlotsConserved, OneOutcome, Journaled, LifetimesBounded, Acyclic, Gated, Grounded, Fenced, Run, Timely,
      Logged, Leasings, ReleasesAfter;
    Reachable(cfg, steps);
    assert Spaced(Run(cfg, BOOT, steps).db.attempts, k);
  }
}
