/** The loops over result rows keep the store invariant and change exactly the selected jobs. */
module Loops {
  import opened Ordering
  import opened Graphs
  import opened Domain
  import opened Database
  import opened Invariant
  import opened Steps

  /** Rows as a query returns them: current, and each job once. */
  ghost predicate Selected(db: Db, rows: seq<Row>) {
    && (forall i :: 0 <= i < |rows| ==> rows[i].id in db.jobs && db.jobs[rows[i].id] == rows[i].job)
    && (forall i, j :: 0 <= i < j < |rows| ==> rows[i].id != rows[j].id)
  }

  ghost predicate Listed(rows: seq<Row>, id: string) {
    exists i :: 0 <= i < |rows| && rows[i].id == id
  }

  ghost predicate Waiting(job: Job) {
    !job.state.Terminal() && !job.state.Active() && job.readySeq == 0
  }

  /** What becoming ready changes. */
  ghost predicate Readied(a: Job, b: Job) {
    b.state.Pending? && b.readySeq > 0 && b.attemptNo == a.attemptNo && b.availableAt == a.availableAt
  }

  ghost predicate Killed(a: Job, b: Job) {
    b.state.DeadLetter? && b.readySeq == 0 && b.attemptNo == a.attemptNo
  }

  /** Only the listed jobs change. */
  ghost predicate OnlyListed(db: Db, r: Db, rows: seq<Row>) {
    && r.jobs.Keys == db.jobs.Keys && r.deps == db.deps && r.attempts == db.attempts && r.operations == db.operations
    && forall id :: id in db.jobs && !Listed(rows, id) ==> r.jobs[id] == db.jobs[id]
  }

  lemma ListedPrefix(rows: seq<Row>, id: string)
    requires rows != []
    ensures Listed(rows, id) <==> Listed(rows[..|rows| - 1], id) || rows[|rows| - 1].id == id
  {
    var init := rows[..|rows| - 1];
    if Listed(rows, id) {
      var i :| 0 <= i < |rows| && rows[i].id == id;
      if i < |init| { assert init[i].id == id; }
    }
    if Listed(init, id) {
      var i :| 0 <= i < |init| && init[i].id == id;
      assert rows[i].id == id;
    }
  }

  lemma LastUnlisted(db: Db, rows: seq<Row>)
    requires rows != [] && Selected(db, rows)
    ensures !Listed(rows[..|rows| - 1], rows[|rows| - 1].id)
  {
    var init := rows[..|rows| - 1];
    assert forall i :: 0 <= i < |init| ==> init[i] == rows[i];
  }

  lemma GoodReflexive(db: Db, now: int)
    requires Sound(db)
    ensures Good(db, db, now)
  {
    hide Sound;
    EvolvesReflexive(db, now);
  }

  lemma GoodSound(db: Db, r: Db, now: int)
    requires Good(db, r, now)
    ensures Sound(r) && Evolves(db, r, now)
  {
    hide Sound, Evolves;
  }

  /** Exactly one job changes. */
  ghost predicate OneChanged(db: Db, r: Db, id: string) {
    && id in r.jobs && r.jobs == db.jobs[id := r.jobs[id]] && r.deps == db.deps && r.attempts == db.attempts
    && r.operations == db.operations
  }

  lemma ReadyRowSound(db: Db, row: Row, kind: EventKind, now: int)
    requires Sound(db) && kind in {Promoted, DependencyReleased}
    requires row.id in db.jobs && db.jobs[row.id] == row.job && Waiting(row.job)
    ensures var r := ReadyRow(db, row, kind, now);
      r.Ok? && Good(db, r.value, now) && OneChanged(db, r.value, row.id) && Readied(row.job, r.value.jobs[row.id])
  {
    hide Sound, Evolves, MakeReady;
    ReadySound(db, row.id, kind, now);
  }

  lemma FailRowSound(db: Db, row: Row, now: int)
    requires Sound(db)
    requires row.id in db.jobs && db.jobs[row.id] == row.job && !row.job.state.Terminal()
    ensures var r := FailRow(db, row, now);
      r.Ok? && Good(db, r.value, now) && OneChanged(db, r.value, row.id) && Killed(row.job, r.value.jobs[row.id])
  {
    hide Sound, Evolves, Move;
    KillSound(db, row.id, now);
  }

  /** Making rows ready always succeeds. */
  lemma {:induction false} ReadyRowsSound(db: Db, rows: seq<Row>, kind: EventKind, now: int)
    requires Sound(db) && Selected(db, rows) && kind in {Promoted, DependencyReleased}
    requires forall i :: 0 <= i < |rows| ==> Waiting(rows[i].job)
    ensures var r := ReadyRows(db, rows, kind, now);
      && r.Ok? && Good(db, r.value, now) && OnlyListed(db, r.value, rows)
      && forall i :: 0 <= i < |rows| ==> Readied(rows[i].job, r.value.jobs[rows[i].id])
  {
    hide Sound, Evolves, ReadyRow, Waiting, Readied, Listed, Good;
    GoodReflexive(db, now);
    if rows != [] {
      var init, last := rows[..|rows| - 1], rows[|rows| - 1];
      ReadyRowsSound(db, init, kind, now);
      var before := ReadyRows(db, init, kind, now).value;
      LastUnlisted(db, rows);
      GoodSound(db, before, now);
      ReadyRowSound(before, last, kind, now);
      var r := ReadyRow(before, last, kind, now).value;
      GoodChain(db, before, r, now);
      forall id | id in db.jobs && !Listed(rows, id) ensures r.jobs[id] == db.jobs[id] {
        ListedPrefix(rows, id);
      }
      forall i | 0 <= i < |rows| ensures Readied(rows[i].job, r.jobs[rows[i].id]) {
        if i < |init| { assert init[i] == rows[i]; }
      }
    }
  }

  /** Failing descendants always succeeds. */
  lemma {:induction false} FailRowsSound(db: Db, rows: seq<Row>, now: int)
    requires Sound(db) && Selected(db, rows)
    requires forall i :: 0 <= i < |rows| ==> !rows[i].job.state.Terminal()
    ensures var r := FailRows(db, rows, now);
      && r.Ok? && Good(db, r.value, now) && OnlyListed(db, r.value, rows)
      && forall i :: 0 <= i < |rows| ==> Killed(rows[i].job, r.value.jobs[rows[i].id])
  {
    hide Sound, Evolves, FailRow, Killed, Listed, Good;
    GoodReflexive(db, now);
    if rows != [] {
      var init, last := rows[..|rows| - 1], rows[|rows| - 1];
      FailRowsSound(db, init, now);
      var before := FailRows(db, init, now).value;
      LastUnlisted(db, rows);
      GoodSound(db, before, now);
      FailRowSound(before, last, now);
      var r := FailRow(before, last, now).value;
      GoodChain(db, before, r, now);
      forall id | id in db.jobs && !Listed(rows, id) ensures r.jobs[id] == db.jobs[id] {
        ListedPrefix(rows, id);
      }
      forall i | 0 <= i < |rows| ensures Killed(rows[i].job, r.jobs[rows[i].id]) {
        if i < |init| { assert init[i] == rows[i]; }
      }
    }
  }

  // ---------------------------------------------------------------------- selections

  lemma TakeSelected(db: Db, all: seq<Row>, limit: int)
    requires Selected(db, all)
    ensures Selected(db, Take(all, limit))
  {
  }

  /** The rows of a query over the job table. */
  lemma QuerySelected(db: Db, s: set<Row>, key: Row -> Key)
    requires forall r :: r in s ==> r.id in db.jobs && db.jobs[r.id] == r.job
    ensures Selected(db, Query(s, key))
    ensures forall id :: Listed(Query(s, key), id) <==> id in db.jobs && Row(id, db.jobs[id]) in s
  {
    var rows := Query(s, key);
    forall i | 0 <= i < |rows| ensures rows[i] in s && rows[i] == Row(rows[i].id, db.jobs[rows[i].id]) {
      assert rows[i] in rows;
    }
    forall id ensures Listed(rows, id) <==> id in db.jobs && Row(id, db.jobs[id]) in s {
      if id in db.jobs && Row(id, db.jobs[id]) in s {
        assert Row(id, db.jobs[id]) in rows;
        var i :| 0 <= i < |rows| && rows[i] == Row(id, db.jobs[id]);
        assert rows[i].id == id;
      }
    }
  }

  lemma DueSelected(db: Db, now: int, limit: int)
    ensures Selected(db, DueRows(db, now, limit))
    ensures forall i :: 0 <= i < |DueRows(db, now, limit)| ==> Due(db, DueRows(db, now, limit)[i].id, now)
  {
    var s := set id | id in db.jobs && Due(db, id, now) :: Row(id, db.jobs[id]);
    QuerySelected(db, s, DueKey);
    var rows := Query(s, DueKey);
    forall i | 0 <= i < |rows| ensures Due(db, rows[i].id, now) {
      assert rows[i] in s;
    }
    TakeSelected(db, rows, limit);
  }

  lemma ChildrenSelected(db: Db, parent: string, now: int)
    ensures Selected(db, ChildRows(db, parent, now))
    ensures forall id :: Listed(ChildRows(db, parent, now), id) <==> Activatable(db, id, parent, now)
  {
    var s := set id | id in db.jobs && Activatable(db, id, parent, now) :: Row(id, db.jobs[id]);
    QuerySelected(db, s, IdKey);
  }

  lemma DescendantsSelected(db: Db, root: string)
    ensures Selected(db, DescendantRows(db, root))
    ensures forall id ::
      Listed(DescendantRows(db, root), id) <==> id in db.jobs && Reaches(db.deps, root, id) && !db.jobs[id].state.Terminal()
  {
    var s := set id | id in db.jobs && Reaches(db.deps, root, id) && !db.jobs[id].state.Terminal() :: Row(id, db.jobs[id]);
    QuerySelected(db, s, IdKey);
  }
}
