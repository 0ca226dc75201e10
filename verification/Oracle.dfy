/** The independent reconciliation oracle (qa/p1/reconcile.go). */
module Oracle {
  import opened Wrappers
  import opened Domain
  import opened Journal

  datatype JobLine = JobLine(id: string, state: JobState, version: int)
  datatype OutcomeLine = OutcomeLine(job: string, state: JobState)
  datatype AttemptLine = AttemptLine(job: string, no: int, generation: int, state: AttemptState)

  /** `from` is absent in the default query. */
  datatype EventLine = EventLine(sequence: int, from: Option<JobState>, event: Event)

  datatype Snapshot = Snapshot(
    integrity: seq<string>, foreignKeys: seq<string>,
    jobs: seq<JobLine>, completions: seq<OutcomeLine>, attempts: seq<AttemptLine>, events: seq<EventLine>)

  datatype Expectation = Expectation(accepted: seq<string>, terminal: bool, succeeded: bool, quiescent: bool)

  datatype Fault =
    | DuplicateJob(id: string) | NoJobRow(id: string) | StateDisagrees(id: string) | NoCompletion(id: string)
    | AttemptOrder(id: string) | DuplicateAttempt(id: string) | DuplicateGeneration(id: string)
    | NoEvents | SequenceGap(at: int) | VersionGap(id: string) | WrongFrom(id: string) | FoldDisagrees(id: string)

  datatype Report = Report(
    lost: seq<string>, orphans: seq<string>, duplicateAccepted: seq<string>, duplicateCompletions: map<string, nat>,
    unsuccessful: set<string>, activeJobs: seq<string>, activeAttempts: seq<AttemptLine>,
    materialization: seq<Fault>, attemptFaults: seq<Fault>, eventFaults: seq<Fault>,
    integrity: seq<string>, foreignKeys: seq<string>)

  /** ReconcileReport.Passed. */
  predicate Passed(r: Report, e: Expectation) {
    && r.orphans == [] && r.duplicateAccepted == [] && r.duplicateCompletions == map[]
    && r.materialization == [] && r.attemptFaults == [] && r.eventFaults == []
    && r.integrity == [] && r.foreignKeys == []
    && (e.terminal ==> r.lost == [])
    && (e.succeeded ==> r.unsuccessful == {})
    && (e.quiescent ==> r.activeJobs == [] && r.activeAttempts == [])
  }

  // ----------------------------------------------------------- what a clean database means

  predicate Unique(s: seq<string>) {
    forall i, j :: 0 <= i < j < |s| ==> s[i] != s[j]
  }

  function JobMap(rows: seq<JobLine>): (m: map<string, JobLine>)
    ensures forall id :: id in m <==> exists i :: 0 <= i < |rows| && rows[i].id == id
  {
    if rows == [] then map[] else
      var last, init := rows[|rows| - 1], rows[..|rows| - 1];
      assert forall i :: 0 <= i < |init| ==> rows[i] == init[i];
      JobMap(init)[last.id := last]
  }

  ghost predicate JobsClean(rows: seq<JobLine>) {
    forall i, j :: 0 <= i < j < |rows| ==> rows[i].id != rows[j].id
  }

  ghost predicate OutcomesClean(rows: seq<OutcomeLine>, accepted: set<string>, jobs: map<string, JobLine>) {
    && Apart(rows)
    && (forall i :: 0 <= i < |rows| ==>
          && rows[i].job in accepted && rows[i].job in jobs && jobs[rows[i].job].state.Terminal()
          && jobs[rows[i].job].state == rows[i].state)
  }

  predicate HasOutcome(rows: seq<OutcomeLine>, id: string) {
    exists i :: 0 <= i < |rows| && rows[i].job == id
  }

  ghost predicate AcceptedClean(accepted: set<string>, jobs: map<string, JobLine>, rows: seq<OutcomeLine>) {
    forall id :: id in accepted ==> id in jobs && (jobs[id].state.Terminal() ==> HasOutcome(rows, id))
  }

  ghost predicate AttemptsClean(rows: seq<AttemptLine>) {
    && (forall i :: 0 <= i < |rows| ==> rows[i].no > 0 && rows[i].generation > 0)
    && (forall i, j :: 0 <= i < j < |rows| && rows[i].job == rows[j].job ==>
          rows[i].no < rows[j].no && rows[i].generation < rows[j].generation)
  }

  function Plain(rows: seq<EventLine>): (r: seq<Event>)
    ensures |r| == |rows| && forall i :: 0 <= i < |r| ==> r[i] == rows[i].event
  {
    seq(|rows|, i requires 0 <= i < |rows| => rows[i].event)
  }

  ghost predicate EventClean(rows: seq<EventLine>, i: nat)
    requires i < |rows|
  {
    var before := Plain(rows[..i]);
    && rows[i].sequence == i + 1 && rows[i].event.version == TipVersion(before, rows[i].event.job) + 1
    && (rows[i].from.Some? ==>
          Tip(before, rows[i].event.job).Some? && Tip(before, rows[i].event.job).value.state == rows[i].from.value)
  }

  ghost predicate FoldsTo(events: seq<Event>, job: JobLine) {
    Tip(events, job.id).Some? && Tip(events, job.id).value.state == job.state && Tip(events, job.id).value.version == job.version
  }

  ghost predicate EventsClean(rows: seq<EventLine>, jobs: map<string, JobLine>) {
    && (jobs != map[] ==> rows != [])
    && (forall i :: 0 <= i < |rows| ==> EventClean(rows, i))
    && (forall id :: id in jobs ==> FoldsTo(Plain(rows), jobs[id]))
  }

  /** Everything the oracle asks of a database. */
  ghost predicate Clean(s: Snapshot, e: Expectation) {
    var accepted, jobs := (set id | id in e.accepted), JobMap(s.jobs);
    && s.integrity == [] && s.foreignKeys == [] && Unique(e.accepted)
    && JobsClean(s.jobs) && OutcomesClean(s.completions, accepted, jobs) && AcceptedClean(accepted, jobs, s.completions)
    && AttemptsClean(s.attempts) && EventsClean(s.events, jobs)
    && (e.terminal ==> AllFinished(accepted, s.completions))
    && (e.succeeded ==> AllSucceeded(accepted, s.completions))
    && (e.quiescent ==> Quiescent(s))
  }

  ghost predicate AllFinished(accepted: set<string>, rows: seq<OutcomeLine>) {
    forall id :: id in accepted ==> HasOutcome(rows, id)
  }

  ghost predicate AllSucceeded(accepted: set<string>, rows: seq<OutcomeLine>) {
    forall id :: id in accepted ==> OutcomeLine(id, Succeeded) in rows
  }

  ghost predicate Quiescent(s: Snapshot) {
    && (forall i :: 0 <= i < |s.jobs| ==> s.jobs[i].state.Terminal())
    && (forall i :: 0 <= i < |s.attempts| ==> !s.attempts[i].state.LeaseHeld? && !s.attempts[i].state.LeaseRunning?)
  }

  // ------------------------------------------------------------------------- the loops

  method CollectAccepted(ids: seq<string>) returns (accepted: set<string>, duplicates: seq<string>)
    ensures accepted == (set id | id in ids) && (duplicates == [] <==> Unique(ids))
  {
    accepted, duplicates := {}, [];
    for n := 0 to |ids|
      invariant accepted == (set id | id in ids[..n]) && (duplicates == [] <==> Unique(ids[..n]))
    {
      assert ids[..n + 1] == ids[..n] + [ids[n]];
      if ids[n] in accepted {
        var i :| 0 <= i < n && ids[i] == ids[n];
        assert ids[..n + 1][i] == ids[..n + 1][n];
        duplicates := duplicates + [ids[n]];
      } else {
        forall i | 0 <= i < n ensures ids[i] != ids[n] { assert ids[..n][i] in accepted; }
        UniqueGrows(ids[..n], ids[n]);
      }
      accepted := accepted + {ids[n]};
    }
    assert ids[..|ids|] == ids;
  }

  lemma UniqueGrows(s: seq<string>, x: string)
    requires x !in s
    ensures Unique(s + [x]) <==> Unique(s)
  {
    var all := s + [x];
    if Unique(all) {
      forall i, j | 0 <= i < j < |s| ensures s[i] != s[j] { assert all[i] == s[i] && all[j] == s[j]; }
    }
  }

  method CollectJobs(rows: seq<JobLine>) returns (jobs: map<string, JobLine>, faults: seq<Fault>, active: seq<string>)
    ensures jobs == JobMap(rows) && (faults == [] <==> JobsClean(rows))
    ensures active == [] <==> forall i :: 0 <= i < |rows| ==> rows[i].state.Terminal()
  {
    hide JobMap, JobsClean;
    jobs, faults, active := map[], [], [];
    NoJobs();
    for n := 0 to |rows|
      invariant jobs == JobMap(rows[..n]) && (faults == [] <==> JobsClean(rows[..n]))
      invariant active == [] <==> forall i :: 0 <= i < n ==> rows[i].state.Terminal()
    {
      var row := rows[n];
      JobsCleanGrows(rows, n);
      if row.id in jobs {
        faults := faults + [DuplicateJob(row.id)];
      }
      jobs := jobs[row.id := row];
      if !row.state.Terminal() { active := active + [row.id]; }
    }
    assert rows[..|rows|] == rows;
  }

  lemma NoJobs()
    ensures JobMap([]) == map[] && JobsClean([])
  {
  }

  lemma JobsCleanGrows(rows: seq<JobLine>, n: nat)
    requires n < |rows|
    ensures JobMap(rows[..n + 1]) == JobMap(rows[..n])[rows[n].id := rows[n]]
    ensures JobsClean(rows[..n + 1]) <==> JobsClean(rows[..n]) && rows[n].id !in JobMap(rows[..n])
  {
    var a, b := rows[..n], rows[..n + 1];
    assert b[..n] == a;
    assert forall i :: 0 <= i < n ==> b[i] == a[i];
    hide JobMap;
    if rows[n].id in JobMap(a) {
      var i :| 0 <= i < n && a[i].id == rows[n].id;
      assert b[i].id == b[n].id;
    } else {
      forall i | 0 <= i < n ensures a[i].id != rows[n].id { assert a[i].id in JobMap(a); }
    }
    if JobsClean(b) {
      forall i, j | 0 <= i < j < |a| ensures a[i].id != a[j].id { assert b[i] == a[i] && b[j] == a[j]; }
    }
  }

  function Counts(rows: seq<OutcomeLine>): (m: map<string, nat>)
    ensures forall id :: id in m <==> HasOutcome(rows, id)
    ensures forall id :: id in m ==> m[id] >= 1
  {
    if rows == [] then map[] else
      var last, init := rows[|rows| - 1], rows[..|rows| - 1];
      var m := Counts(init);
      assert forall i :: 0 <= i < |init| ==> rows[i] == init[i];
      m[last.job := (if last.job in m then m[last.job] else 0) + 1]
  }

  function States(rows: seq<OutcomeLine>): (m: map<string, JobState>)
    ensures forall id :: id in m ==> OutcomeLine(id, m[id]) in rows
    ensures m.Keys == Counts(rows).Keys
  {
    if rows == [] then map[] else
      var last, init := rows[|rows| - 1], rows[..|rows| - 1];
      assert rows == init + [last];
      States(init)[last.job := last.state]
  }

  ghost predicate Apart(rows: seq<OutcomeLine>) {
    forall i, j :: 0 <= i < j < |rows| ==> rows[i].job != rows[j].job
  }

  ghost predicate Single(m: map<string, nat>) {
    forall id :: id in m ==> m[id] == 1
  }

  lemma ApartGrows(rows: seq<OutcomeLine>, last: OutcomeLine)
    ensures Apart(rows + [last]) <==> Apart(rows) && !HasOutcome(rows, last.job)
  {
    var all := rows + [last];
    assert forall i :: 0 <= i < |rows| ==> all[i] == rows[i];
    if Apart(all) {
      forall i, j | 0 <= i < j < |rows| ensures rows[i].job != rows[j].job { assert all[i] == rows[i] && all[j] == rows[j]; }
      forall i | 0 <= i < |rows| ensures rows[i].job != last.job { assert all[i].job != all[|rows|].job; }
    }
  }

  lemma SingleGrows(m: map<string, nat>, id: string)
    requires forall x :: x in m ==> m[x] >= 1
    ensures Single(m[id := (if id in m then m[id] else 0) + 1]) <==> Single(m) && id !in m
  {
    var after := m[id := (if id in m then m[id] else 0) + 1];
    if Single(after) {
      assert after[id] == 1;
      forall x | x in m ensures m[x] == 1 { assert after[x] == 1; }
    }
  }

  /** Counts of one mean distinct rows. */
  lemma {:induction false} CountedOnce(rows: seq<OutcomeLine>)
    ensures Single(Counts(rows)) <==> Apart(rows)
    decreases |rows|
  {
    hide Counts, Apart, Single;
    if rows == [] {
      NoOutcomes();
    } else {
      var n := |rows| - 1;
      CountedOnce(rows[..n]);
      CountsGrow(rows, n);
      assert rows == rows[..n] + [rows[n]] && rows[..n + 1] == rows;
      ApartGrows(rows[..n], rows[n]);
      SingleGrows(Counts(rows[..n]), rows[n].job);
    }
  }

  method CountOutcomes(rows: seq<OutcomeLine>) returns (counts: map<string, nat>, states: map<string, JobState>)
    ensures counts == Counts(rows) && states == States(rows)
  {
    hide Counts, States;
    counts, states := map[], map[];
    NoOutcomes();
    for n := 0 to |rows|
      invariant counts == Counts(rows[..n]) && states == States(rows[..n])
    {
      CountsGrow(rows, n);
      StatesGrow(rows, n);
      counts := counts[rows[n].job := (if rows[n].job in counts then counts[rows[n].job] else 0) + 1];
      states := states[rows[n].job := rows[n].state];
    }
    assert rows[..|rows|] == rows;
  }

  lemma NoOutcomes()
    ensures Counts([]) == map[] && States([]) == map[] && Apart([]) && Single(map[])
  {
  }

  lemma CountsGrow(rows: seq<OutcomeLine>, n: nat)
    requires n < |rows|
    ensures var m := Counts(rows[..n]);
      Counts(rows[..n + 1]) == m[rows[n].job := (if rows[n].job in m then m[rows[n].job] else 0) + 1]
  {
    assert rows[..n + 1][..n] == rows[..n];
  }

  lemma StatesGrow(rows: seq<OutcomeLine>, n: nat)
    requires n < |rows|
    ensures States(rows[..n + 1]) == States(rows[..n])[rows[n].job := rows[n].state]
  {
    hide Counts;
    assert rows[..n + 1][..n] == rows[..n];
  }

  predicate OutcomeFits(id: string, state: JobState, jobs: map<string, JobLine>) {
    id in jobs && jobs[id].state.Terminal() && jobs[id].state == state
  }

  /** The loop over the completion counts. */
  method CheckOutcomes(counts: map<string, nat>, states: map<string, JobState>, accepted: set<string>, jobs: map<string, JobLine>)
    returns (duplicates: map<string, nat>, orphans: seq<string>, faults: seq<Fault>)
    requires counts.Keys == states.Keys && forall id :: id in counts ==> counts[id] >= 1
    ensures duplicates == map[] <==> Single(counts)
    ensures orphans == [] <==> forall id :: id in counts ==> id in accepted
    ensures faults == [] <==> forall id :: id in counts ==> OutcomeFits(id, states[id], jobs)
  {
    duplicates, orphans, faults := map[], [], [];
    var rest := counts.Keys;
    while rest != {}
      invariant rest <= counts.Keys
      invariant duplicates == map[] <==> forall id :: id in counts && id !in rest ==> counts[id] == 1
      invariant orphans == [] <==> forall id :: id in counts && id !in rest ==> id in accepted
      invariant faults == [] <==> forall id :: id in counts && id !in rest ==> OutcomeFits(id, states[id], jobs)
      decreases |rest|
    {
      var id :| id in rest;
      rest := rest - {id};
      if counts[id] > 1 {
        duplicates := duplicates[id := counts[id] - 1];
        assert id in duplicates;
      }
      if id !in accepted { orphans := orphans + [id]; }
      if id !in jobs {
        faults := faults + [NoJobRow(id)];
      } else if !jobs[id].state.Terminal() || jobs[id].state != states[id] {
        faults := faults + [StateDisagrees(id)];
      }
    }
  }

  /** The loop over the accepted jobs. */
  method CheckAccepted(
      accepted: set<string>, jobs: map<string, JobLine>, counts: map<string, nat>, states: map<string, JobState>,
      succeeded: bool)
    returns (lost: seq<string>, unsuccessful: set<string>, faults: seq<Fault>)
    ensures lost == [] <==> forall id :: id in accepted ==> id in counts
    ensures unsuccessful == {} <==> !succeeded || forall id :: id in accepted ==> id in states && states[id].Succeeded?
    ensures faults == [] <==> forall id :: id in accepted ==> id in jobs && (jobs[id].state.Terminal() ==> id in counts)
  {
    lost, unsuccessful, faults := [], {}, [];
    var rest := accepted;
    while rest != {}
      invariant rest <= accepted
      invariant lost == [] <==> forall id :: id in accepted && id !in rest ==> id in counts
      invariant unsuccessful == {} <==> !succeeded || forall id :: id in accepted && id !in rest ==>
          id in states && states[id].Succeeded?
      invariant faults == [] <==> forall id :: id in accepted && id !in rest ==>
          id in jobs && (jobs[id].state.Terminal() ==> id in counts)
      decreases |rest|
    {
      var id :| id in rest;
      rest := rest - {id};
      if id !in jobs { faults := faults + [NoJobRow(id)]; }
      if id !in counts { lost := lost + [id]; }
      if succeeded && (id !in states || !states[id].Succeeded?) {
        unsuccessful := unsuccessful + {id};
        assert id in unsuccessful;
      }
      if id in jobs && jobs[id].state.Terminal() && id !in counts { faults := faults + [NoCompletion(id)]; }
    }
  }

  /** The latest attempt of each job, as far as the rows ascend. */
  ghost predicate Latest(rows: seq<AttemptLine>, lastNo: map<string, int>, lastGeneration: map<string, int>) {
    && lastNo.Keys == lastGeneration.Keys
    && (forall i :: 0 <= i < |rows| ==>
          rows[i].job in lastNo && rows[i].no <= lastNo[rows[i].job] && rows[i].generation <= lastGeneration[rows[i].job])
    && (forall id :: id in lastNo ==> IsLast(rows, id, lastNo[id], lastGeneration[id]))
  }

  ghost predicate IsLast(rows: seq<AttemptLine>, id: string, no: int, generation: int) {
    exists i :: 0 <= i < |rows| && rows[i].job == id && rows[i].no == no && rows[i].generation == generation
  }

  function At(m: map<string, int>, id: string): int {
    if id in m then m[id] else 0
  }

  lemma AttemptAscends(rows: seq<AttemptLine>, row: AttemptLine, lastNo: map<string, int>, lastGeneration: map<string, int>)
    requires AttemptsClean(rows) && Latest(rows, lastNo, lastGeneration)
    ensures AttemptsClean(rows + [row]) <==> row.no > At(lastNo, row.job) && row.generation > At(lastGeneration, row.job)
    ensures AttemptsClean(rows + [row]) ==>
        Latest(rows + [row], lastNo[row.job := row.no], lastGeneration[row.job := row.generation])
  {
    var all := rows + [row];
    if AttemptsClean(all) {
      AboveLast(rows, row, lastNo, lastGeneration);
      LatestGrows(rows, row, lastNo, lastGeneration);
    }
    if row.no > At(lastNo, row.job) && row.generation > At(lastGeneration, row.job) {
      BeyondAll(rows, row, lastNo, lastGeneration);
    }
  }

  lemma AboveLast(rows: seq<AttemptLine>, row: AttemptLine, lastNo: map<string, int>, lastGeneration: map<string, int>)
    requires AttemptsClean(rows + [row]) && Latest(rows, lastNo, lastGeneration)
    ensures row.no > At(lastNo, row.job) && row.generation > At(lastGeneration, row.job)
  {
    var all := rows + [row];
    assert all[|rows|] == row;
    if row.job in lastNo {
      assert IsLast(rows, row.job, lastNo[row.job], lastGeneration[row.job]);
      var i :| 0 <= i < |rows| && rows[i].job == row.job
               && rows[i].no == lastNo[row.job] && rows[i].generation == lastGeneration[row.job];
      assert all[i] == rows[i];
    }
  }

  lemma BeyondAll(rows: seq<AttemptLine>, row: AttemptLine, lastNo: map<string, int>, lastGeneration: map<string, int>)
    requires AttemptsClean(rows) && Latest(rows, lastNo, lastGeneration)
    requires row.no > At(lastNo, row.job) && row.generation > At(lastGeneration, row.job)
    ensures AttemptsClean(rows + [row])
  {
    hide IsLast;
    var all := rows + [row];
    assert all[|rows|] == row && forall i :: 0 <= i < |rows| ==> all[i] == rows[i];
    assert row.no > 0 && row.generation > 0 by {
      if row.job in lastNo { LastPositive(rows, row.job, lastNo[row.job], lastGeneration[row.job]); }
    }
  }

  lemma LastPositive(rows: seq<AttemptLine>, id: string, no: int, generation: int)
    requires AttemptsClean(rows) && IsLast(rows, id, no, generation)
    ensures no > 0 && generation > 0
  {
  }

  lemma LatestGrows(rows: seq<AttemptLine>, row: AttemptLine, lastNo: map<string, int>, lastGeneration: map<string, int>)
    requires Latest(rows, lastNo, lastGeneration) && AttemptsClean(rows + [row])
    ensures Latest(rows + [row], lastNo[row.job := row.no], lastGeneration[row.job := row.generation])
  {
    var all := rows + [row];
    var a, g := lastNo[row.job := row.no], lastGeneration[row.job := row.generation];
    assert all[|rows|] == row;
    forall i | 0 <= i < |all| ensures all[i].job in a && all[i].no <= a[all[i].job] && all[i].generation <= g[all[i].job] {
      if i < |rows| { assert all[i] == rows[i]; }
    }
    forall id | id in a ensures IsLast(all, id, a[id], g[id]) {
      if id != row.job {
        assert IsLast(rows, id, lastNo[id], lastGeneration[id]);
        var i :| 0 <= i < |rows| && rows[i].job == id && rows[i].no == lastNo[id] && rows[i].generation == lastGeneration[id];
        assert all[i] == rows[i];
      }
    }
  }

  lemma AttemptsCleanPrefix(rows: seq<AttemptLine>, n: nat)
    requires n <= |rows| && AttemptsClean(rows)
    ensures AttemptsClean(rows[..n])
  {
  }

  /** analyzeAttempts. */
  method CheckAttempts(rows: seq<AttemptLine>) returns (faults: seq<Fault>, active: seq<AttemptLine>)
    ensures faults == [] <==> AttemptsClean(rows)
    ensures active == [] <==> forall i :: 0 <= i < |rows| ==> !rows[i].state.LeaseHeld? && !rows[i].state.LeaseRunning?
  {
    hide Latest, AttemptsClean;
    faults, active := [], [];
    var lastNo: map<string, int>, lastGeneration: map<string, int> := map[], map[];
    var seenNo: set<(string, int)>, seenGeneration: set<(string, int)> := {}, {};
    NoAttempts();
    for n := 0 to |rows|
      invariant faults == [] ==> AttemptsClean(rows[..n]) && Latest(rows[..n], lastNo, lastGeneration)
      invariant faults != [] ==> !AttemptsClean(rows)
      invariant forall x :: x in seenNo ==> exists i :: 0 <= i < n && rows[i].job == x.0 && rows[i].no == x.1
      invariant forall x :: x in seenGeneration ==> exists i :: 0 <= i < n && rows[i].job == x.0 && rows[i].generation == x.1
      invariant active == [] <==> forall i :: 0 <= i < n ==> !rows[i].state.LeaseHeld? && !rows[i].state.LeaseRunning?
    {
      var row := rows[n];
      assert rows[..n + 1] == rows[..n] + [row];
      if (row.job, row.no) in seenNo {
        var i :| 0 <= i < n && rows[i].job == row.job && rows[i].no == row.no;
        Repeats(rows, i, n);
        faults := faults + [DuplicateAttempt(row.job)];
      }
      if (row.job, row.generation) in seenGeneration {
        var i :| 0 <= i < n && rows[i].job == row.job && rows[i].generation == row.generation;
        Repeats(rows, i, n);
        faults := faults + [DuplicateGeneration(row.job)];
      }
      if faults == [] { AttemptAscends(rows[..n], row, lastNo, lastGeneration); }
      if row.no <= At(lastNo, row.job) || row.generation <= At(lastGeneration, row.job) {
        if faults == [] && AttemptsClean(rows) { AttemptsCleanPrefix(rows, n + 1); }
        faults := faults + [AttemptOrder(row.job)];
      }
      seenNo, seenGeneration := seenNo + {(row.job, row.no)}, seenGeneration + {(row.job, row.generation)};
      lastNo, lastGeneration := lastNo[row.job := row.no], lastGeneration[row.job := row.generation];
      if row.state.LeaseHeld? || row.state.LeaseRunning? { active := active + [row]; }
    }
    assert rows[..|rows|] == rows;
  }

  lemma Repeats(rows: seq<AttemptLine>, i: nat, j: nat)
    requires i < j < |rows| && rows[i].job == rows[j].job
    requires (rows[i].no == rows[j].no || rows[i].generation == rows[j].generation)
    ensures !AttemptsClean(rows)
  {
  }

  lemma NoAttempts()
    ensures Latest([], map[], map[]) && AttemptsClean([])
  {
  }

  ghost predicate Folded(events: seq<Event>, lastState: map<string, JobState>, lastVersion: map<string, int>) {
    && (forall id :: id in lastState <==> Tip(events, id).Some?) && lastVersion.Keys == lastState.Keys
    && (forall id :: id in lastState && Tip(events, id).Some? ==>
          lastState[id] == Tip(events, id).value.state && lastVersion[id] == Tip(events, id).value.version)
  }

  lemma FoldGrows(events: seq<Event>, e: Event, lastState: map<string, JobState>, lastVersion: map<string, int>)
    requires Folded(events, lastState, lastVersion)
    ensures Folded(events + [e], lastState[e.job := e.state], lastVersion[e.job := e.version])
  {
    hide Tip;
    forall id ensures Tip(events + [e], id) == if e.job == id then Some(e) else Tip(events, id) { TipGrows(events, e, id); }
  }

  lemma NothingFolded()
    ensures Folded([], map[], map[])
  {
  }

  lemma EventChecked(rows: seq<EventLine>, n: nat, lastState: map<string, JobState>, lastVersion: map<string, int>)
    requires n < |rows| && Folded(Plain(rows[..n]), lastState, lastVersion)
    ensures var e := rows[n].event;
      EventClean(rows, n) <==>
        && rows[n].sequence == n + 1 && e.version == At(lastVersion, e.job) + 1
        && !(rows[n].from.Some? && (e.job !in lastState || lastState[e.job] != rows[n].from.value))
  {
    hide Tip;
  }

  lemma FoldChecked(events: seq<Event>, job: JobLine, lastState: map<string, JobState>, lastVersion: map<string, int>)
    requires Folded(events, lastState, lastVersion)
    ensures FoldsTo(events, job)
      <==> job.id in lastState && lastState[job.id] == job.state && At(lastVersion, job.id) == job.version
  {
    hide Tip;
  }

  /** analyzeEvents. */
  method CheckEvents(rows: seq<EventLine>, jobs: map<string, JobLine>) returns (faults: seq<Fault>)
    requires forall id :: id in jobs ==> jobs[id].id == id
    ensures faults == [] <==> EventsClean(rows, jobs)
  {
    hide Tip, EventClean, FoldsTo, Folded;
    if |jobs| > 0 && |rows| == 0 {
      assert jobs != map[];
      return [NoEvents];
    }
    faults := [];
    var lastState: map<string, JobState>, lastVersion: map<string, int> := map[], map[];
    NothingFolded();
    assert Plain(rows[..0]) == [];
    for n := 0 to |rows|
      invariant Folded(Plain(rows[..n]), lastState, lastVersion)
      invariant faults == [] <==> forall i :: 0 <= i < n ==> EventClean(rows, i)
    {
      var e := rows[n].event;
      EventChecked(rows, n, lastState, lastVersion);
      if rows[n].sequence != n + 1 { faults := faults + [SequenceGap(n)]; }
      if e.version != At(lastVersion, e.job) + 1 { faults := faults + [VersionGap(e.job)]; }
      if rows[n].from.Some? && (e.job !in lastState || lastState[e.job] != rows[n].from.value) {
        faults := faults + [WrongFrom(e.job)];
      }
      FoldGrows(Plain(rows[..n]), e, lastState, lastVersion);
      assert Plain(rows[..n + 1]) == Plain(rows[..n]) + [e];
      lastState, lastVersion := lastState[e.job := e.state], lastVersion[e.job := e.version];
    }
    assert rows[..|rows|] == rows;
    var rest := jobs.Keys;
    while rest != {}
      invariant rest <= jobs.Keys
      invariant faults == [] <==>
        (forall i :: 0 <= i < |rows| ==>
              EventClean(rows, i)) && (forall id :: id in jobs && id !in rest ==> FoldsTo(Plain(rows), jobs[id]))
      decreases |rest|
    {
      var id :| id in rest;
      rest := rest - {id};
      FoldChecked(Plain(rows), jobs[id], lastState, lastVersion);
      if id !in lastState || lastState[id] != jobs[id].state || At(lastVersion, id) != jobs[id].version {
        faults := faults + [FoldDisagrees(id)];
      }
    }
  }

  lemma {:induction false} JobMapKeys(rows: seq<JobLine>)
    ensures forall id :: id in JobMap(rows) ==> JobMap(rows)[id].id == id
    decreases |rows|
  {
    if rows != [] { JobMapKeys(rows[..|rows| - 1]); }
  }

  lemma OutcomesAgree(rows: seq<OutcomeLine>, accepted: set<string>, jobs: map<string, JobLine>)
    ensures OutcomesClean(rows, accepted, jobs) <==>
      var counts, states := Counts(rows), States(rows);
      && Single(counts) && (forall id :: id in counts ==> id in accepted)
      && (forall id :: id in counts ==> OutcomeFits(id, states[id], jobs))
  {
    hide Counts, States;
    CountedOnce(rows);
    var counts, states := Counts(rows), States(rows);
    if Apart(rows) {
      forall i | 0 <= i < |rows| ensures rows[i].job in counts && states[rows[i].job] == rows[i].state { OutcomeAt(rows, i); }
      forall id | id in counts ensures OutcomeLine(id, states[id]) in rows { }
    }
  }

  lemma OutcomeAt(rows: seq<OutcomeLine>, i: nat)
    requires i < |rows| && Apart(rows)
    ensures rows[i].job in Counts(rows) && States(rows)[rows[i].job] == rows[i].state
  {
    hide Counts, States;
    assert HasOutcome(rows, rows[i].job);
    assert OutcomeLine(rows[i].job, States(rows)[rows[i].job]) in rows;
    var j :| 0 <= j < |rows| && rows[j] == OutcomeLine(rows[i].job, States(rows)[rows[i].job]);
  }

  lemma SucceededAgrees(rows: seq<OutcomeLine>, accepted: set<string>)
    requires forall i, j :: 0 <= i < j < |rows| ==> rows[i].job != rows[j].job
    ensures (forall id :: id in accepted ==> id in States(rows) && States(rows)[id].Succeeded?) <==> AllSucceeded(accepted, rows)
  {
    hide Counts, States;
    forall id ensures (id in States(rows) && States(rows)[id].Succeeded?) <==> OutcomeLine(id, Succeeded) in rows {
      if OutcomeLine(id, Succeeded) in rows {
        var i :| 0 <= i < |rows| && rows[i] == OutcomeLine(id, Succeeded);
        assert HasOutcome(rows, id);
        var j :| 0 <= j < |rows| && rows[j] == OutcomeLine(id, States(rows)[id]);
      }
    }
  }

  lemma AcceptedAgree(accepted: set<string>, jobs: map<string, JobLine>, rows: seq<OutcomeLine>)
    ensures AcceptedClean(accepted, jobs, rows)
       <==> forall id :: id in accepted ==> id in jobs && (jobs[id].state.Terminal() ==> id in Counts(rows))
    ensures AllFinished(accepted, rows) <==> forall id :: id in accepted ==> id in Counts(rows)
  {
    hide Counts, HasOutcome;
  }

  lemma DistinctOutcomes(rows: seq<OutcomeLine>, accepted: set<string>, jobs: map<string, JobLine>)
    requires OutcomesClean(rows, accepted, jobs)
    ensures forall i, j :: 0 <= i < j < |rows| ==> rows[i].job != rows[j].job
  {
  }

  /** AnalyzeDatabaseSnapshot: the report passes exactly when the database is clean. */
  method Analyze(s: Snapshot, e: Expectation) returns (r: Report)
    ensures Passed(r, e) <==> Clean(s, e)
  {
    hide AttemptsClean, EventsClean, JobsClean, Unique, OutcomesClean, JobMap, Counts, States, HasOutcome,
      OutcomeFits, AcceptedClean, AllFinished, AllSucceeded;
    var accepted, duplicateAccepted := CollectAccepted(e.accepted);
    var jobs, jobFaults, activeJobs := CollectJobs(s.jobs);
    var counts, states := CountOutcomes(s.completions);
    var duplicates, orphans, outcomeFaults := CheckOutcomes(counts, states, accepted, jobs);
    OutcomesAgree(s.completions, accepted, jobs);
    AcceptedAgree(accepted, jobs, s.completions);
    var lost, unsuccessful, acceptedFaults := CheckAccepted(accepted, jobs, counts, states, e.succeeded);
    if OutcomesClean(s.completions, accepted, jobs) {
      DistinctOutcomes(s.completions, accepted, jobs);
      SucceededAgrees(s.completions, accepted);
    }
    var attemptFaults, activeAttempts := CheckAttempts(s.attempts);
    JobMapKeys(s.jobs);
    var eventFaults := CheckEvents(s.events, jobs);
    var materialization := jobFaults + outcomeFaults + acceptedFaults;
    assert materialization == [] <==> jobFaults == [] && outcomeFaults == [] && acceptedFaults == [];
    r := Report(lost, orphans, duplicateAccepted, duplicates, unsuccessful, activeJobs, activeAttempts,
                materialization, attemptFaults, eventFaults, s.integrity, s.foreignKeys);
  }
}
