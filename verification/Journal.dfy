/** The event log: for every job a gapless run of versions that ends at its row. */
module Journal {
  import opened Wrappers
  import opened Domain
  import opened Database
  import opened Transactions
  import opened Ledger

  /** The last event of a job. */
  ghost function Tip(events: seq<Event>, id: string): Option<Event> {
    if events == [] then None
    else if events[|events| - 1].job == id then Some(events[|events| - 1])
    else Tip(events[..|events| - 1], id)
  }

  ghost function TipVersion(events: seq<Event>, id: string): nat {
    var e := Tip(events, id);
    if e.Some? then e.value.version else 0
  }

  lemma TipGrows(events: seq<Event>, e: Event, id: string)
    ensures Tip(events + [e], id) == if e.job == id then Some(e) else Tip(events, id)
  {
    assert (events + [e])[..|events|] == events;
  }

  /** Every event raises its job's version by one; a marker repeats it. */
  ghost predicate Consecutive(events: seq<Event>) {
    events == [] ||
    var e, before := events[|events| - 1], events[..|events| - 1];
    && Consecutive(before)
    && e.version == TipVersion(before, e.job) + (if e.kind.Marker() then 0 else 1)
  }

  lemma ConsecutiveGrows(events: seq<Event>, e: Event)
    requires Consecutive(events)
    requires e.version == TipVersion(events, e.job) + (if e.kind.Marker() then 0 else 1)
    ensures Consecutive(events + [e])
  {
    assert (events + [e])[..|events|] == events;
  }

  /** Folding the events of a job gives its row. */
  ghost predicate Tells(events: seq<Event>, jobs: map<string, Job>) {
    && (forall id :: id in jobs ==>
          && Tip(events, id).Some? && Tip(events, id).value.state == jobs[id].state
          && Tip(events, id).value.version == jobs[id].version)
    && (forall id :: id !in jobs ==> Tip(events, id).None?)
  }

  ghost predicate Journaled(db: Db) {
    Consecutive(db.events) && Tells(db.events, db.jobs)
  }

  /** Writing a row together with its event keeps the journal. */
  lemma WrittenJournaled(db: Db, id: string, job: Job, kind: EventKind, now: int)
    requires Journaled(db) && !kind.Marker()
    requires job.version == (if id in db.jobs then db.jobs[id].version else 0) + 1
    ensures Journaled(Written(db, id, job, kind, now))
  {
    hide Tip, Consecutive;
    var e := Event(id, kind, job.state, job.version, now);
    ConsecutiveGrows(db.events, e);
    forall j ensures Tip(db.events + [e], j) == if j == id then Some(e) else Tip(db.events, j) {
      TipGrows(db.events, e, j);
    }
  }

  lemma MoveJournaled(db: Db, id: string, next: Job, kind: EventKind, now: int)
    requires Journaled(db) && id in db.jobs && !kind.Marker() && Move(db, id, next, kind, now).Ok?
    ensures Journaled(Move(db, id, next, kind, now).value)
  {
    hide Tip, Consecutive, Tells;
    var job := next.(version := db.jobs[id].version + 1, updatedAt := now);
    ExchangeFrame(db, db.jobs[id], job);
    WrittenJournaled(Exchange(db, db.jobs[id], job).value, id, job, kind, now);
  }

  lemma AdmitJournaled(db: Db, id: string, job: Job, parents: set<string>, now: int)
    requires Journaled(db) && job.version == 1 && Admit(db, id, job, parents, now).Ok?
    ensures Journaled(Admit(db, id, job, parents, now).value)
  {
    hide Tip, Consecutive, Tells;
    WrittenJournaled(db.(deps := db.deps + EdgesTo(id, parents)), id, job, Admitted, now);
  }

  lemma NoteJournaled(db: Db, id: string, kind: EventKind, now: int)
    requires Journaled(db) && id in db.jobs && kind.Marker()
    ensures Journaled(Note(db, id, kind, now))
  {
    hide Tip, Consecutive;
    var e := Event(id, kind, db.jobs[id].state, db.jobs[id].version, now);
    ConsecutiveGrows(db.events, e);
    forall j ensures Tip(db.events + [e], j) == if j == id then Some(e) else Tip(db.events, j) {
      TipGrows(db.events, e, j);
    }
  }

  // ---------------------------------------------------------------- operator releases

  /** How often an operator released a job. */
  ghost function Releases(events: seq<Event>, id: string): nat {
    if events == [] then 0 else
      var e := events[|events| - 1];
      Releases(events[..|events| - 1], id) + (if e.job == id && e.kind.OperatorRelease? then 1 else 0)
  }

  lemma ReleasesGrow(events: seq<Event>, e: Event, id: string)
    ensures Releases(events + [e], id) == Releases(events, id) + (if e.job == id && e.kind.OperatorRelease? then 1 else 0)
  {
    assert (events + [e])[..|events|] == events;
  }

  /** How often a job was leased. */
  ghost function Leasings(events: seq<Event>, id: string): nat {
    if events == [] then 0 else
      var e := events[|events| - 1];
      Leasings(events[..|events| - 1], id) + (if e.job == id && e.kind.LeaseAcquired? then 1 else 0)
  }

  /** How often an operator released a job between its lease number `n` and the next. */
  ghost function ReleasesAfter(events: seq<Event>, id: string, n: nat): nat {
    if events == [] then 0 else
      var e, before := events[|events| - 1], events[..|events| - 1];
      ReleasesAfter(before, id, n) + (if e.job == id && e.kind.OperatorRelease? && Leasings(before, id) == n then 1 else 0)
  }

  lemma LeasingsGrow(events: seq<Event>, e: Event, id: string, n: nat)
    ensures Leasings(events + [e], id) == Leasings(events, id) + (if e.job == id && e.kind.LeaseAcquired? then 1 else 0)
    ensures ReleasesAfter(events + [e], id, n)
         == ReleasesAfter(events, id, n) + (if e.job == id && e.kind.OperatorRelease? && Leasings(events, id) == n then 1 else 0)
  {
    assert (events + [e])[..|events|] == events;
  }

  // -------------------------------------------------------------------------- time

  /** Events are stamped in commit order, never after the clock. */
  ghost predicate Timely(events: seq<Event>, clock: int) {
    && (forall i, j :: 0 <= i < j < |events| ==> events[i].at <= events[j].at)
    && (forall i :: 0 <= i < |events| ==> events[i].at <= clock)
  }

  /** Only events of time `now` were added. */
  ghost predicate Punctual(a: seq<Event>, b: seq<Event>, now: int) {
    a <= b && forall i :: |a| <= i < |b| ==> b[i].at == now
  }

  lemma TimelyGrows(a: seq<Event>, b: seq<Event>, clock: int, now: int)
    requires Timely(a, clock) && clock <= now && Punctual(a, b, now)
    ensures Timely(b, now)
  {
    forall i | 0 <= i < |b| ensures b[i].at <= now && (i < |a| ==> b[i] == a[i]) {
      if i < |a| { assert b[i] == a[i]; }
    }
  }
}
