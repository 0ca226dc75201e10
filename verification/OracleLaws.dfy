/** Exactly which reachable states the oracle accepts. */
module OracleLaws {
  import opened Wrappers
  import opened Ordering
  import opened Domain
  import opened Database
  import opened Accounts
  import opened Ledger
  import opened Journal
  import opened Fencing
  import opened Lifetime
  import opened Dependencies
  import opened Invariant
  import opened Planning
  import opened Transactions
  import opened Runs
  import opened Traces
  import opened Histories
  import opened Oracle
  import Effects
  import Scheduler

  // -------------------------------------------------------------- the rows the oracle reads

  function JobKey(l: JobLine): Key {
    Text(l.id)
  }

  function OutcomeKey(l: OutcomeLine): Key {
    Text(l.job)
  }

  function AttemptLineKey(l: AttemptLine): Key {
    Text(l.job) + ([-1] + [l.no])
  }

  ghost function JobLines(db: Db): seq<JobLine> {
    Query(set id | id in db.jobs :: JobLine(id, db.jobs[id].state, db.jobs[id].version), JobKey)
  }

  ghost function OutcomeLines(db: Db): seq<OutcomeLine> {
    Query(set id | id in db.completions :: OutcomeLine(id, db.completions[id].state), OutcomeKey)
  }

  ghost function AttemptLines(db: Db): seq<AttemptLine> {
    Query(set k | k in db.attempts :: AttemptLine(k.job, k.no, db.attempts[k].generation, db.attempts[k].state), AttemptLineKey)
  }

  function EventLines(events: seq<Event>): (r: seq<EventLine>)
    ensures |r| == |events| && forall i :: 0 <= i < |r| ==> r[i] == EventLine(i + 1, None, events[i])
  {
    seq(|events|, i requires 0 <= i < |events| => EventLine(i + 1, None, events[i]))
  }

  /** ReadDatabaseSnapshot of a database without integrity failures. */
  ghost function SnapshotOf(db: Db): Snapshot {
    Snapshot([], [], JobLines(db), OutcomeLines(db), AttemptLines(db), EventLines(db.events))
  }

  // --------------------------------------------------------------------------- the tables

  lemma {:induction false} JobMapAt(rows: seq<JobLine>, i: nat)
    requires JobsClean(rows) && i < |rows|
    ensures JobMap(rows)[rows[i].id] == rows[i]
    decreases |rows|
  {
    var init := rows[..|rows| - 1];
    assert forall k :: 0 <= k < |init| ==> init[k] == rows[k];
    if i < |init| {
      JobMapAt(init, i);
    }
  }

  function JobLineOf(db: Db, id: string): JobLine
    requires id in db.jobs
  {
    JobLine(id, db.jobs[id].state, db.jobs[id].version)
  }

  /** The rows are the jobs, each once. */
  lemma JobsListed(db: Db)
    ensures forall i :: 0 <= i < |JobLines(db)| ==>
        JobLines(db)[i].id in db.jobs && JobLines(db)[i] == JobLineOf(db, JobLines(db)[i].id)
    ensures forall id :: id in db.jobs ==> JobLineOf(db, id) in JobLines(db)
    ensures JobsClean(JobLines(db))
  {
    hide Query;
    var s := set id | id in db.jobs :: JobLine(id, db.jobs[id].state, db.jobs[id].version);
    var rows := JobLines(db);
    forall i | 0 <= i < |rows| ensures rows[i].id in db.jobs && rows[i] == JobLineOf(db, rows[i].id) { assert rows[i] in s; }
    forall id | id in db.jobs ensures JobLineOf(db, id) in rows { assert JobLineOf(db, id) in s; }
  }

  lemma JobsMirrored(db: Db)
    ensures JobsClean(JobLines(db)) && JobMap(JobLines(db)).Keys == db.jobs.Keys
    ensures forall id :: id in db.jobs ==> JobMap(JobLines(db))[id] == JobLine(id, db.jobs[id].state, db.jobs[id].version)
    ensures (forall i :: 0 <= i < |JobLines(db)| ==> JobLines(db)[i].state.Terminal()) <==> forall id :: id in db.jobs ==>
        db.jobs[id].state.Terminal()
  {
    hide JobMap, JobLines, JobsClean;
    JobsListed(db);
    var rows := JobLines(db);
    forall id | id in db.jobs ensures id in JobMap(rows) && JobMap(rows)[id] == JobLineOf(db, id) {
      var i :| 0 <= i < |rows| && rows[i] == JobLineOf(db, id);
      JobMapAt(rows, i);
    }
  }

  function OutcomeOf(db: Db, id: string): OutcomeLine
    requires id in db.completions
  {
    OutcomeLine(id, db.completions[id].state)
  }

  lemma OutcomesListed(db: Db)
    ensures forall i :: 0 <= i < |OutcomeLines(db)| ==>
        OutcomeLines(db)[i].job in db.completions && OutcomeLines(db)[i] == OutcomeOf(db, OutcomeLines(db)[i].job)
    ensures forall id :: id in db.completions ==> OutcomeOf(db, id) in OutcomeLines(db)
    ensures Apart(OutcomeLines(db))
  {
    hide Query;
    var s := set id | id in db.completions :: OutcomeLine(id, db.completions[id].state);
    var rows := OutcomeLines(db);
    forall i | 0 <= i < |rows|
      ensures rows[i].job in db.completions && rows[i] == OutcomeOf(db, rows[i].job)
    {
      assert rows[i] in s;
    }
    forall id | id in db.completions ensures OutcomeOf(db, id) in rows { assert OutcomeOf(db, id) in s; }
  }

  lemma OutcomesMirrored(db: Db)
    ensures var rows := OutcomeLines(db);
      && Apart(rows)
      && (forall i :: 0 <= i < |rows| ==> rows[i].job in db.completions && rows[i].state == db.completions[rows[i].job].state)
      && (forall id :: HasOutcome(rows, id) <==> id in db.completions)
      && (forall id :: id in db.completions ==> OutcomeLine(id, db.completions[id].state) in rows)
  {
    hide OutcomeLines, Apart;
    OutcomesListed(db);
    var rows := OutcomeLines(db);
    forall id | id in db.completions ensures HasOutcome(rows, id) {
      var i :| 0 <= i < |rows| && rows[i] == OutcomeOf(db, id);
    }
  }

  function LineOf(db: Db, k: AttemptKey): AttemptLine
    requires k in db.attempts
  {
    AttemptLine(k.job, k.no, db.attempts[k].generation, db.attempts[k].state)
  }

  /** The rows are the attempts, each once. */
  lemma AttemptsListed(db: Db)
    ensures forall i :: 0 <= i < |AttemptLines(db)| ==> IsLine(db, AttemptLines(db)[i])
    ensures forall k :: k in db.attempts ==> LineOf(db, k) in AttemptLines(db)
    ensures Ordered(AttemptLines(db), AttemptLineKey)
    ensures forall i, j :: 0 <= i < j < |AttemptLines(db)| ==> AttemptLines(db)[i] != AttemptLines(db)[j]
  {
    var s := set k | k in db.attempts :: LineOf(db, k);
    var rows := AttemptLines(db);
    assert s == set k | k in db.attempts :: AttemptLine(k.job, k.no, db.attempts[k].generation, db.attempts[k].state);
    QueryOrdered(s, AttemptLineKey);
    forall i | 0 <= i < |rows| ensures IsLine(db, rows[i]) {
      assert rows[i] in s;
      var k :| k in db.attempts && rows[i] == LineOf(db, k);
      assert k == AttemptKey(rows[i].job, rows[i].no);
    }
    forall k | k in db.attempts ensures LineOf(db, k) in rows { assert LineOf(db, k) in s; }
  }

  ghost predicate IsLine(db: Db, l: AttemptLine) {
    var k := AttemptKey(l.job, l.no);
    k in db.attempts && l == LineOf(db, k)
  }

  lemma LinePositive(db: Db, l: AttemptLine)
    requires Fenced(db.jobs, db.attempts) && IsLine(db, l)
    ensures l.no > 0 && l.generation == l.no
  {
    hide JobFits;
    var k := AttemptKey(l.job, l.no);
    assert AttemptFits(k, db.attempts[k], db.jobs[k.job]);
  }

  lemma AttemptsMirrored(db: Db)
    requires Fenced(db.jobs, db.attempts)
    ensures AttemptsClean(AttemptLines(db))
  {
    hide Fenced, AttemptLines, IsLine, LineOf, AttemptLineKey;
    AttemptsListed(db);
    var rows := AttemptLines(db);
    forall i | 0 <= i < |rows| ensures rows[i].no > 0 && rows[i].generation == rows[i].no { LinePositive(db, rows[i]); }
    forall i, j | 0 <= i < j < |rows| && rows[i].job == rows[j].job ensures rows[i].no < rows[j].no {
      AttemptKeyOrder(rows[j], rows[i]);
      if rows[i].no == rows[j].no { SameLine(db, rows[i], rows[j]); }
    }
  }

  lemma SameLine(db: Db, a: AttemptLine, b: AttemptLine)
    requires IsLine(db, a) && IsLine(db, b) && a.job == b.job && a.no == b.no
    ensures a == b
  {
  }

  lemma AttemptKeyOrder(a: AttemptLine, b: AttemptLine)
    requires a.job == b.job
    ensures Less(AttemptLineKey(a), AttemptLineKey(b)) <==> a.no < b.no
  {
    Scheduler.SeparatedOrder(a.job, b.job, [a.no], [b.no]);
  }

  // --------------------------------------------------------------------------- the events

  lemma {:induction false} ConsecutiveAt(events: seq<Event>, i: nat)
    requires Consecutive(events) && i < |events|
    ensures events[i].version == TipVersion(events[..i], events[i].job) + (if events[i].kind.Marker() then 0 else 1)
    decreases |events|
  {
    var init := events[..|events| - 1];
    if i < |init| {
      ConsecutiveAt(init, i);
      assert init[..i] == events[..i];
    }
  }

  lemma EventMirrored(events: seq<Event>, i: nat)
    requires Consecutive(events) && i < |events|
    ensures EventClean(EventLines(events), i) <==> !events[i].kind.Marker()
  {
    hide Tip, Consecutive;
    var rows := EventLines(events);
    assert Plain(rows[..i]) == events[..i];
    ConsecutiveAt(events, i);
  }

  lemma EventsMirrored(db: Db, jobs: map<string, JobLine>)
    requires Journaled(db) && jobs.Keys == db.jobs.Keys
    requires forall id :: id in db.jobs ==> jobs[id] == JobLine(id, db.jobs[id].state, db.jobs[id].version)
    ensures EventsClean(EventLines(db.events), jobs) <==> NoMarkers(db.events)
  {
    hide Tip, Consecutive, EventClean;
    var rows := EventLines(db.events);
    forall i | 0 <= i < |rows| ensures EventClean(rows, i) <==> !db.events[i].kind.Marker() { EventMirrored(db.events, i); }
    assert Plain(rows) == db.events;
    if jobs != map[] && rows == [] {
      var id :| id in jobs;
      NothingTold(id);
    }
  }

  lemma NothingTold(id: string)
    ensures Tip([], id) == None
  {
  }

  // -------------------------------------------------------------------------- the verdict

  /** The accepted jobs are all jobs, each named once. */
  ghost predicate NamesAll(accepted: seq<string>, db: Db) {
    Unique(accepted) && forall id :: id in accepted <==> id in db.jobs
  }

  ghost predicate Meets(db: Db, e: Expectation) {
    && (e.terminal ==> forall id :: id in db.jobs ==> db.jobs[id].state.Terminal())
    && (e.succeeded ==> forall id :: id in db.jobs ==> db.jobs[id].state.Succeeded?)
    && (e.quiescent ==>
          (forall id :: id in db.jobs ==> db.jobs[id].state.Terminal()) && forall k :: k in db.attempts ==>
              !db.attempts[k].Open())
  }

  lemma OutcomesAccepted(db: Db, accepted: set<string>, jobs: map<string, JobLine>)
    requires OneOutcome(db) && accepted == db.jobs.Keys == jobs.Keys
    requires forall id :: id in db.jobs ==> jobs[id] == JobLine(id, db.jobs[id].state, db.jobs[id].version)
    ensures OutcomesClean(OutcomeLines(db), accepted, jobs) && AcceptedClean(accepted, jobs, OutcomeLines(db))
    ensures AllFinished(accepted, OutcomeLines(db)) <==> forall id :: id in db.jobs ==> db.jobs[id].state.Terminal()
    ensures Oracle.AllSucceeded(accepted, OutcomeLines(db)) <==> forall id :: id in db.jobs ==> db.jobs[id].state.Succeeded?
  {
    hide OutcomeLines, HasOutcome, WellFormed, DeadLettersMatch;
    OutcomesMirrored(db);
    var rows := OutcomeLines(db);
    forall id | id in db.jobs ensures OutcomeLine(id, Succeeded) in rows <==> db.jobs[id].state.Succeeded? {
      if OutcomeLine(id, Succeeded) in rows {
        var i :| 0 <= i < |rows| && rows[i] == OutcomeLine(id, Succeeded);
        assert id in db.completions;
      }
      if db.jobs[id].state.Succeeded? { assert id in db.completions; }
    }
  }

  lemma QuiescentMirrored(db: Db)
    requires Fenced(db.jobs, db.attempts)
    ensures Quiescent(SnapshotOf(db)) <==>
      (forall id :: id in db.jobs ==> db.jobs[id].state.Terminal()) && forall k :: k in db.attempts ==> !db.attempts[k].Open()
  {
    hide Fenced, JobLines, AttemptLines, JobMap, JobsClean;
    JobsMirrored(db);
    AttemptsListed(db);
    var rows := AttemptLines(db);
    if forall i :: 0 <= i < |rows| ==> !rows[i].state.LeaseHeld? && !rows[i].state.LeaseRunning? {
      forall k | k in db.attempts ensures !db.attempts[k].Open() {
        var i :| 0 <= i < |rows| && rows[i] == LineOf(db, k);
      }
    }
    if forall k :: k in db.attempts ==> !db.attempts[k].Open() {
      forall i | 0 <= i < |rows| ensures !rows[i].state.LeaseHeld? && !rows[i].state.LeaseRunning? {
        assert IsLine(db, rows[i]);
      }
    }
  }

  /** The oracle accepts a consistent store exactly when its event log holds no redrive or retry marker
      and the store meets what the caller requires. */
  lemma Verdict(db: Db, e: Expectation)
    requires Consistent(db) && NamesAll(e.accepted, db)
    ensures Clean(SnapshotOf(db), e) <==> NoMarkers(db.events) && Meets(db, e)
  {
    hide SlotsConserved, LifetimesBounded, BackoffKept, Gated, Grounded, Logged, Fenced, Journaled, OneOutcome, NoMarkers,
      JobLines, OutcomeLines, AttemptLines, JobMap, JobsClean, OutcomesClean, AcceptedClean, AttemptsClean,
      EventsClean, AllFinished, Oracle.AllSucceeded, Quiescent;
    var accepted, jobs := (set id | id in e.accepted), JobMap(JobLines(db));
    assert accepted == db.jobs.Keys;
    JobsMirrored(db);
    OutcomesAccepted(db, accepted, jobs);
    AttemptsMirrored(db);
    EventsMirrored(db, jobs);
    QuiescentMirrored(db);
  }

  /** The oracle on whole runs: without redrive and retry steps every reachable state passes; once every
      job is terminal it passes with RequireTerminal, and without blocked releases with
      RequireQuiescent too. */
  lemma OracleAccepts(cfg: Config, steps: seq<Step>, accepted: seq<string>, terminal: bool, quiescent: bool)
    requires NoClones(steps)
    requires var db := Run(cfg, BOOT, steps).db;
      && NamesAll(accepted, db)
      && (terminal || quiescent ==> forall id :: id in db.jobs ==> db.jobs[id].state.Terminal())
    requires quiescent ==> NoBlockedRelease(cfg, BOOT, steps)
    ensures Clean(SnapshotOf(Run(cfg, BOOT, steps).db), Expectation(accepted, terminal, false, quiescent))
  {
    hide Consistent, Run, NoBlockedRelease, NoMarkers, Clean, SnapshotOf, Timely, Cleared, NoClones;
    Reachable(cfg, steps);
    NoClonesNoMarkers(cfg, steps);
    var db := Run(cfg, BOOT, steps).db;
    if quiescent {
      BootHealthy();
      RunOrderly(cfg, BOOT, steps);
      AllClosed(db);
    }
    Verdict(db, Expectation(accepted, terminal, false, quiescent));
  }

  lemma AllClosed(db: Db)
    requires Consistent(db) && Orderly(db) && forall id :: id in db.jobs ==> db.jobs[id].state.Terminal()
    ensures forall k :: k in db.attempts ==> !db.attempts[k].Open()
  {
    hide SlotsConserved, OneOutcome, Journaled, LifetimesBounded, BackoffKept, Gated, Grounded, Logged, Cleared, JobFits;
    forall k | k in db.attempts ensures !db.attempts[k].Open() {
      assert k.job in db.jobs;
    }
  }

  /** Every redrive and every retry writes a marker... */
  lemma ClonesMark(cfg: Config, db: Db, cmd: CloneCommand, id: string, now: int)
    ensures RedriveTx(cfg, db, cmd, id, now).Ok? && Effects.NewKey(db, cmd, REDRIVE) ==>
      !NoMarkers(RedriveTx(cfg, db, cmd, id, now).value.db.events)
    ensures RetryTx(cfg, db, cmd, id, now).Ok? && Effects.NewKey(db, cmd, RETRY) ==>
      !NoMarkers(RetryTx(cfg, db, cmd, id, now).value.db.events)
  {
    hide CloneJob;
    forall events: seq<Event>, e: Event | e.kind.Marker()
      ensures !NoMarkers(events + [e])
    {
      assert (events + [e])[|events|] == e;
    }
  }

  /** ... and from a marker on the oracle refuses every later state, whatever is required of it. */
  lemma MarkedForGood(cfg: Config, s: System, steps: seq<Step>, e: Expectation)
    requires Healthy(s) && !NoMarkers(s.db.events) && NamesAll(e.accepted, Run(cfg, s, steps).db)
    ensures !Clean(SnapshotOf(Run(cfg, s, steps).db), e)
  {
    hide Consistent, Run, Clean, SnapshotOf, Meets, JobsEvolve, AttemptsEvolve, OutcomesEvolve;
    RunHealthy(cfg, s, steps);
    var z := Run(cfg, s, steps).db;
    var i :| 0 <= i < |s.db.events| && s.db.events[i].kind.Marker();
    var t := s.db.events[i].at;
    assert EventSince(s.db.events, t);
    RunPersists(cfg, s, steps, t);
    assert z.events[i] == s.db.events[i];
    Verdict(z, e);
  }
}
