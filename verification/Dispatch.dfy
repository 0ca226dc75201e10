/** buildSchedulePlan and acquire as code (internal/store/sqlite/scheduling.go, leases.go): rows are
    ranked and cut by the query, grouped into queues in a map, and handed to the scheduler in
    whatever order the map yields them. */
module Dispatch {
  import opened Wrappers
  import opened Ordering
  import opened Domain
  import opened Database
  import opened Transactions
  import opened Planning
  import DecisionLog
  import S = Scheduler
  import L = SchedulerLaws

  // ------------------------------------------------------------------ ranking by counting

  /** ROW_NUMBER() - 1: how many eligible rows of the same queue rank before this one. */
  function RowsAhead(db: Db, now: int, r: Row): set<Row> {
    set s | s in EligibleRows(db, now) && QueueIdOf(s) == QueueIdOf(r) && Less(Transactions.RankKey(s), Transactions.RankKey(r))
  }

  /** The rows with candidate_rank <= limit. */
  function SelectedRows(db: Db, now: int, limit: int): set<Row> {
    set r | r in EligibleRows(db, now) && |RowsAhead(db, now, r)| < limit
  }

  lemma RankKeyTells(a: Row, b: Row)
    requires Transactions.RankKey(a) == Transactions.RankKey(b)
    ensures a.id == b.id
  {
    var ka, kb := Transactions.RankKey(a), Transactions.RankKey(b);
    assert ka[3..] == Text(a.id) && kb[3..] == Text(b.id);
    TextInjective(a.id, b.id);
  }

  lemma {:induction false} SeqSet<T>(p: seq<T>, s: set<T>)
    requires (forall x :: x in s <==> x in p) && forall i, j :: 0 <= i < j < |p| ==> p[i] != p[j]
    ensures |s| == |p|
    decreases |p|
  {
    if p == [] {
      assert s == {};
    } else {
      var init, last := p[..|p| - 1], p[|p| - 1];
      assert p == init + [last];
      assert last !in init;
      SeqSet(init, s - {last});
    }
  }

  /** The row at position k of a queue's ranking has exactly k rows ahead of it. */
  lemma PositionIsRank(db: Db, now: int, q: QueueId, k: nat)
    requires k < |AllRanked(db, now, q)|
    ensures |RowsAhead(db, now, AllRanked(db, now, q)[k])| == k
  {
    hide EligibleRows;
    var rows := AllRanked(db, now, q);
    AllRankedMembers(db, now, q);
    var r, ahead := rows[k], RowsAhead(db, now, rows[k]);
    assert r in EligibleRows(db, now) && QueueIdOf(r) == q;
    forall s ensures s in ahead <==> s in rows[..k] {
      if s in ahead {
        assert s in rows;
        var i :| 0 <= i < |rows| && rows[i] == s;
        Trichotomy(Transactions.RankKey(s), Transactions.RankKey(r));
      }
      if s in rows[..k] {
        var i :| 0 <= i < k && rows[i] == s;
        assert !Less(Transactions.RankKey(rows[k]), Transactions.RankKey(rows[i]));
        Trichotomy(Transactions.RankKey(s), Transactions.RankKey(r));
        if Transactions.RankKey(s) == Transactions.RankKey(r) { RankKeyTells(s, r); }
        assert s in EligibleRows(db, now) && QueueIdOf(s) == q;
      }
    }
    SeqSet(rows[..k], ahead);
  }

  lemma AllRankedMembers(db: Db, now: int, q: QueueId)
    ensures forall r :: r in AllRanked(db, now, q) <==> r in EligibleRows(db, now) && QueueIdOf(r) == q
  {
    hide EligibleRows;
    var s := set r | r in EligibleRows(db, now) && QueueIdOf(r) == q;
    assert AllRanked(db, now, q) == Query(s, Transactions.RankKey);
  }

  /** Counting and sorting select the same rows. */
  lemma SelectedIsRanked(db: Db, now: int, limit: int, q: QueueId, r: Row)
    ensures r in RankedRows(db, now, limit, q) <==> r in SelectedRows(db, now, limit) && QueueIdOf(r) == q
  {
    hide EligibleRows, RowsAhead, AllRanked, RankedRows;
    RankedIsCut(db, now, limit, q);
    AllRankedMembers(db, now, q);
    var all := AllRanked(db, now, q);
    forall k | 0 <= k < |all| ensures |RowsAhead(db, now, all[k])| == k { PositionIsRank(db, now, q, k); }
    if r in all {
      var k :| 0 <= k < |all| && all[k] == r;
      assert k < limit ==> Take(all, limit)[k] == r;
    }
    if r in Take(all, limit) {
      var k :| 0 <= k < |Take(all, limit)| && Take(all, limit)[k] == r;
      assert all[k] == r;
    }
  }

  // ------------------------------------------------------------------------- grouping

  /** The order in which the query returns the selected rows. */
  function ResultKey(r: Row): Key {
    Text(r.job.tenant) + ([-1] + (Text(r.job.queue) + ([-1] + ([-r.job.priority, r.job.readySeq] + Text(r.id)))))
  }

  lemma ResultKeyTells(a: Row, b: Row)
    requires ResultKey(a) == ResultKey(b)
    ensures a.id == b.id
  {
    var ta, tb := [-a.job.priority, a.job.readySeq] + Text(a.id), [-b.job.priority, b.job.readySeq] + Text(b.id);
    S.SeparatedOrder(a.job.tenant, b.job.tenant, Text(a.job.queue) + ([-1] + ta), Text(b.job.queue) + ([-1] + tb));
    S.SeparatedOrder(a.job.queue, b.job.queue, ta, tb);
    assert ta[2..] == Text(a.id) && tb[2..] == Text(b.id);
    TextInjective(a.id, b.id);
  }

  method SelectRows(tx: Db, now: int, limit: int) returns (rows: seq<Row>)
    ensures forall r :: r in rows <==> r in SelectedRows(tx, now, limit)
    ensures forall i, j :: 0 <= i < j < |rows| ==> rows[i] != rows[j]
  {
    hide EligibleRows, RowsAhead;
    var selected := SelectedRows(tx, now, limit);
    forall x, y | x in selected && y in selected && ResultKey(x) == ResultKey(y) ensures x == y {
      ResultKeyTells(x, y);
      SameId(tx, now, x, y);
    }
    rows := RunQuery(selected, ResultKey);
  }

  /** The rows of one queue, in the order they came. */
  function OfQueue(rows: seq<Row>, q: QueueId): (r: seq<Row>)
    ensures forall x :: x in r <==> x in rows && QueueIdOf(x) == q
  {
    if rows == [] then [] else
      var last := rows[|rows| - 1];
      assert rows == rows[..|rows| - 1] + [last];
      OfQueue(rows[..|rows| - 1], q) + (if QueueIdOf(last) == q then [last] else [])
  }

  lemma {:induction false} OfQueueDistinct(rows: seq<Row>, q: QueueId)
    requires forall i, j :: 0 <= i < j < |rows| ==> rows[i] != rows[j]
    ensures forall i, j :: 0 <= i < j < |OfQueue(rows, q)| ==> OfQueue(rows, q)[i] != OfQueue(rows, q)[j]
    decreases |rows|
  {
    if rows != [] {
      var init, last := rows[..|rows| - 1], rows[|rows| - 1];
      OfQueueDistinct(init, q);
      assert last !in init;
      assert last !in OfQueue(init, q);
    }
  }

  function GroupOf(tx: Db, rows: seq<Row>, q: QueueId): S.Queue
    requires q in tx.queues
  {
    S.Queue(q.tenant, q.name, tx.queues[q].weight, tx.queues[q].deficit, CandidatesOf(OfQueue(rows, q)))
  }

  ghost predicate HasRow(rows: seq<Row>, q: QueueId) {
    exists r :: r in rows && QueueIdOf(r) == q
  }

  ghost predicate Grouped(tx: Db, rows: seq<Row>, queues: map<QueueId, S.Queue>) {
    && (forall q :: q in queues <==> HasRow(rows, q))
    && (forall q :: q in queues ==> q in tx.queues && queues[q] == GroupOf(tx, rows, q))
  }

  lemma GroupGrows(tx: Db, rows: seq<Row>, queues: map<QueueId, S.Queue>, row: Row)
    requires Grouped(tx, rows, queues) && QueueIdOf(row) in tx.queues
    ensures var q := QueueIdOf(row);
      var queue := if q in queues then queues[q] else S.Queue(q.tenant, q.name, tx.queues[q].weight, tx.queues[q].deficit, []);
      Grouped(tx, rows + [row], queues[q := queue.(candidates := queue.candidates + [CandidateOf(row)])])
  {
    hide HasRow, GroupOf;
    var all, q0 := rows + [row], QueueIdOf(row);
    forall q ensures HasRow(all, q) <==> HasRow(rows, q) || q == q0 { RowAdded(rows, row, q); }
    forall q | q in tx.queues
      ensures GroupOf(tx, all, q)
           == if q == q0 then GroupOf(tx, rows, q).(candidates := GroupOf(tx, rows, q).candidates + [CandidateOf(row)])
              else GroupOf(tx, rows, q)
    {
      GroupAdded(tx, rows, row, q);
    }
    if q0 !in queues { NoGroup(tx, rows, q0); }
  }

  lemma RowAdded(rows: seq<Row>, row: Row, q: QueueId)
    ensures HasRow(rows + [row], q) <==> HasRow(rows, q) || q == QueueIdOf(row)
  {
    var all := rows + [row];
    assert row in all;
    if r :| r in rows && QueueIdOf(r) == q { assert r in all; }
  }

  lemma GroupAdded(tx: Db, rows: seq<Row>, row: Row, q: QueueId)
    requires q in tx.queues
    ensures GroupOf(tx, rows + [row], q)
         == if q == QueueIdOf(row)
            then GroupOf(tx, rows, q).(candidates := GroupOf(tx, rows, q).candidates + [CandidateOf(row)])
            else GroupOf(tx, rows, q)
  {
    assert (rows + [row])[..|rows|] == rows;
    assert OfQueue(rows + [row], q) == OfQueue(rows, q) + (if QueueIdOf(row) == q then [row] else []);
    assert CandidatesOf(OfQueue(rows, q) + [row]) == CandidatesOf(OfQueue(rows, q)) + [CandidateOf(row)];
    assert OfQueue(rows, q) + [] == OfQueue(rows, q);
  }

  lemma {:induction false} NoRows(rows: seq<Row>, q: QueueId)
    requires !HasRow(rows, q)
    ensures OfQueue(rows, q) == []
    decreases |rows|
  {
    if rows != [] {
      var init, last := rows[..|rows| - 1], rows[|rows| - 1];
      assert rows == init + [last];
      RowAdded(init, last, q);
      NoRows(init, q);
    }
  }

  lemma NoGroup(tx: Db, rows: seq<Row>, q: QueueId)
    requires q in tx.queues && !HasRow(rows, q)
    ensures GroupOf(tx, rows, q) == S.Queue(q.tenant, q.name, tx.queues[q].weight, tx.queues[q].deficit, [])
  {
    NoRows(rows, q);
  }

  datatype Plan = Plan(queues: seq<S.Queue>, recovery: bool)

  /** The row loop and the walk over the queue map. */
  method GroupRows(tx: Db, rows: seq<Row>) returns (plan: Plan, ghost queues: map<QueueId, S.Queue>)
    requires forall r :: r in rows ==> QueueIdOf(r) in tx.queues
    ensures Grouped(tx, rows, queues)
    ensures forall x :: x in plan.queues <==> exists q :: q in queues && queues[q] == x
    ensures forall i, j :: 0 <= i < j < |plan.queues| ==> plan.queues[i] != plan.queues[j]
    ensures plan.recovery <==> exists r :: r in rows && r.job.recovery
  {
    hide Grouped;
    var grouped: map<QueueId, S.Queue>, recovery := map[], false;
    NothingGrouped(tx);
    for n := 0 to |rows|
      invariant Grouped(tx, rows[..n], grouped)
      invariant recovery <==> exists r :: r in rows[..n] && r.job.recovery
    {
      var row := rows[n];
      var q := QueueIdOf(row);
      var queue := if q in grouped then grouped[q] else S.Queue(q.tenant, q.name, tx.queues[q].weight, tx.queues[q].deficit, []);
      GroupGrows(tx, rows[..n], grouped, row);
      assert rows[..n + 1] == rows[..n] + [row];
      grouped := grouped[q := queue.(candidates := queue.candidates + [CandidateOf(row)])];
      if row.job.recovery {
        assert row in rows[..n + 1];
        recovery := true;
      } else if recovery {
        var r :| r in rows[..n] && r.job.recovery;
        assert r in rows[..n + 1];
      }
    }
    assert rows[..|rows|] == rows;
    var rest, values := grouped.Keys, [];
    while rest != {}
      invariant rest <= grouped.Keys
      invariant forall x :: x in values <==> exists q :: q in grouped && q !in rest && grouped[q] == x
      invariant forall i, j :: 0 <= i < j < |values| ==> values[i] != values[j]
      decreases |rest|
    {
      var q :| q in rest;
      GroupsDiffer(tx, rows, grouped);
      assert grouped[q] !in values;
      ghost var before := values;
      values := values + [grouped[q]];
      rest := rest - {q};
      forall x ensures x in values <==> exists p :: p in grouped && p !in rest && grouped[p] == x {
        assert x in values <==> x in before || x == grouped[q];
      }
    }
    plan, queues := Plan(values, recovery), grouped;
  }

  lemma NothingGrouped(tx: Db)
    ensures Grouped(tx, [], map[])
  {
  }

  lemma GroupsDiffer(tx: Db, rows: seq<Row>, queues: map<QueueId, S.Queue>)
    requires Grouped(tx, rows, queues)
    ensures forall p, q :: p in queues && q in queues && queues[p] == queues[q] ==> p == q
  {
    forall p, q | p in queues && q in queues && queues[p] == queues[q] ensures p == q {
      assert queues[p] == GroupOf(tx, rows, p) && queues[q] == GroupOf(tx, rows, q);
    }
  }

  // ------------------------------------------------------------- the plan is the plan

  lemma EligibleQueue(tx: Db, now: int, r: Row)
    requires r in EligibleRows(tx, now)
    ensures QueueIdOf(r) in tx.queues
  {
  }

  /** A queue is grouped exactly when it has work, and then with the ranked candidates. */
  lemma GroupMatches(tx: Db, now: int, limit: int, rows: seq<Row>, queues: map<QueueId, S.Queue>, q: QueueId)
    requires limit >= 1 && Grouped(tx, rows, queues)
    requires forall r :: r in rows <==> r in SelectedRows(tx, now, limit)
    requires forall i, j :: 0 <= i < j < |rows| ==> rows[i] != rows[j]
    ensures q in queues <==> HasWork(tx, now, q)
    ensures q in queues ==>
        && q in tx.queues && L.Reordered(PlannedQueue(tx, now, limit, q), queues[q])
        && L.DistinctJobs(PlannedQueue(tx, now, limit, q))
  {
    hide EligibleRows, RowsAhead, RankedRows, AllRanked;
    if HasWork(tx, now, q) {
      var r0 :| r0 in EligibleRows(tx, now) && QueueIdOf(r0) == q;
      BestSelected(tx, now, limit, q, r0);
      var r :| r in SelectedRows(tx, now, limit) && QueueIdOf(r) == q;
      assert r in rows;
    }
    if q in queues {
      var r :| r in rows && QueueIdOf(r) == q;
      EligibleQueue(tx, now, r);
      ReorderedGroup(tx, now, limit, rows, q);
    }
  }

  lemma BestSelected(tx: Db, now: int, limit: int, q: QueueId, r: Row)
    requires limit >= 1 && r in EligibleRows(tx, now) && QueueIdOf(r) == q
    ensures exists s :: s in SelectedRows(tx, now, limit) && QueueIdOf(s) == q
  {
    hide EligibleRows, RowsAhead, AllRanked;
    AllRankedMembers(tx, now, q);
    var all := AllRanked(tx, now, q);
    assert r in all;
    PositionIsRank(tx, now, q, 0);
    assert all[0] in all && all[0] in SelectedRows(tx, now, limit);
  }

  lemma ReorderedGroup(tx: Db, now: int, limit: int, rows: seq<Row>, q: QueueId)
    requires q in tx.queues
    requires forall r :: r in rows <==> r in SelectedRows(tx, now, limit)
    requires forall i, j :: 0 <= i < j < |rows| ==> rows[i] != rows[j]
    ensures L.Reordered(PlannedQueue(tx, now, limit, q), GroupOf(tx, rows, q)) && L.DistinctJobs(PlannedQueue(tx, now, limit, q))
  {
    hide EligibleRows, RowsAhead, RankedRows, AllRanked, SelectedRows;
    var a, b := RankedRows(tx, now, limit, q), OfQueue(rows, q);
    forall r ensures r in a <==> r in b { SelectedIsRanked(tx, now, limit, q, r); }
    OfQueueDistinct(rows, q);
    forall i, j | 0 <= i < |a| && 0 <= j < |a| && a[i].id == a[j].id ensures i == j { RankedDistinct(tx, now, limit, q, i, j); }
    forall i, j | 0 <= i < |b| && 0 <= j < |b| && b[i].id == b[j].id ensures i == j {
      assert b[i] in a && b[j] in a;
      var k :| 0 <= k < |a| && a[k] == b[i];
      var l :| 0 <= l < |a| && a[l] == b[j];
    }
    CandidatesMatch(a, b);
  }

  /** The same rows give the same candidates, whatever their order. */
  lemma CandidatesMatch(a: seq<Row>, b: seq<Row>)
    requires forall r :: r in a <==> r in b
    requires forall i, j :: 0 <= i < |a| && 0 <= j < |a| && a[i].id == a[j].id ==> i == j
    requires forall i, j :: 0 <= i < |b| && 0 <= j < |b| && b[i].id == b[j].id ==> i == j
    ensures multiset(CandidatesOf(a)) == multiset(CandidatesOf(b))
  {
    var ca, cb := CandidatesOf(a), CandidatesOf(b);
    forall c ensures c in ca <==> c in cb {
      if c in ca {
        var i :| 0 <= i < |a| && ca[i] == c;
        assert a[i] in b;
        var j :| 0 <= j < |b| && b[j] == a[i];
        assert cb[j] == c;
      }
      if c in cb {
        var i :| 0 <= i < |b| && cb[i] == c;
        assert b[i] in a;
        var j :| 0 <= j < |a| && a[j] == b[i];
        assert ca[j] == c;
      }
    }
    SameElements(ca, cb);
  }

  /** However the map orders the queues, the scheduler sees the same canonical snapshot. */
  lemma PlanIsCanonical(tx: Db, now: int, limit: int, rows: seq<Row>, queues: map<QueueId, S.Queue>, values: seq<S.Queue>)
    requires limit >= 1 && Grouped(tx, rows, queues)
    requires forall r :: r in rows <==> r in SelectedRows(tx, now, limit)
    requires forall i, j :: 0 <= i < j < |rows| ==> rows[i] != rows[j]
    requires forall x :: x in values <==> exists q :: q in queues && queues[q] == x
    requires forall i, j :: 0 <= i < j < |values| ==> values[i] != values[j]
    ensures S.Canonical(values) == S.Canonical(PlannedQueues(tx, now, limit))
  {
    hide EligibleRows, PlannedQueues, PlannedQueue, Grouped, SelectedRows, HasWork, S.Canonical, L.Reordered, L.DistinctJobs;
    var a := PlannedQueues(tx, now, limit);
    PlannedMembers(tx, now, limit);
    forall i | 0 <= i < |a| ensures QueueId(a[i].tenant, a[i].name) in queues {
      assert Lists(tx, now, limit, a[i]);
      GroupMatches(tx, now, limit, rows, queues, QueueId(a[i].tenant, a[i].name));
    }
    var b := seq(|a|,
        i requires 0 <= i < |a| && QueueId(a[i].tenant, a[i].name) in queues => queues[QueueId(a[i].tenant, a[i].name)]);
    forall i | 0 <= i < |a| ensures L.Reordered(a[i], b[i]) && L.DistinctJobs(a[i]) {
      assert Lists(tx, now, limit, a[i]);
      GroupMatches(tx, now, limit, rows, queues, QueueId(a[i].tenant, a[i].name));
    }
    PlannedApart(tx, now, limit);
    GroupsDiffer(tx, rows, queues);
    forall x ensures x in b <==> x in values {
      if x in values {
        var q :| q in queues && queues[q] == x;
        GroupMatches(tx, now, limit, rows, queues, q);
        assert PlannedQueue(tx, now, limit, q) in a;
        var i :| 0 <= i < |a| && a[i] == PlannedQueue(tx, now, limit, q);
        PlannedNames(tx, now, limit, q);
        assert b[i] == x;
      }
    }
    SameElements(b, values);
    L.CanonicalPermuted(a, b, values);
  }

  lemma PlannedApart(tx: Db, now: int, limit: int)
    ensures L.DistinctQueues(PlannedQueues(tx, now, limit))
    ensures var a := PlannedQueues(tx, now, limit);
      forall i, j :: 0 <= i < j < |a| ==> QueueId(a[i].tenant, a[i].name) != QueueId(a[j].tenant, a[j].name)
  {
    hide PlannedQueues;
    var a := PlannedQueues(tx, now, limit);
    forall i, j | 0 <= i < |a| && 0 <= j < |a| && a[i].tenant == a[j].tenant && a[i].name == a[j].name ensures i == j {
      QueuesDistinct(tx, now, limit, i, j);
    }
  }

  lemma RecoveryMatches(tx: Db, now: int, limit: int, rows: seq<Row>)
    requires forall r :: r in rows <==> r in SelectedRows(tx, now, limit)
    ensures (exists r :: r in rows && r.job.recovery) <==> HasRecovery(PlannedQueues(tx, now, limit))
    ensures rows == [] || limit < 1 <==> PlannedQueues(tx, now, limit) == [] || limit < 1
  {
    hide EligibleRows, PlannedQueues, SelectedRows, RankedRows, RowsAhead;
    var a := PlannedQueues(tx, now, limit);
    PlannedMembers(tx, now, limit);
    if r :| r in rows && r.job.recovery {
      var i, k := RowPlace(tx, now, limit, r);
      assert a[i].candidates[k].recovery;
    }
    if HasRecovery(a) {
      var i, k :| 0 <= i < |a| && 0 <= k < |a[i].candidates| && a[i].candidates[k].recovery;
      var row := OfferedRow(tx, now, limit, i, k);
      SelectedIsRanked(tx, now, limit, QueueIdOf(row), row);
      assert row in rows;
    }
    if rows != [] {
      assert rows[0] in rows;
      var i, k := RowPlace(tx, now, limit, rows[0]);
    }
    if a != [] && limit >= 1 {
      assert Lists(tx, now, limit, a[0]);
      var q := QueueId(a[0].tenant, a[0].name);
      var r0 :| r0 in EligibleRows(tx, now) && QueueIdOf(r0) == q;
      BestSelected(tx, now, limit, q, r0);
      var s :| s in SelectedRows(tx, now, limit) && QueueIdOf(s) == q;
      assert s in rows;
    }
  }

  /** Where a selected row stands in the plan. */
  lemma RowPlace(tx: Db, now: int, limit: int, r: Row) returns (i: nat, k: nat)
    requires r in SelectedRows(tx, now, limit)
    ensures i < |PlannedQueues(tx, now, limit)| && k < |PlannedQueues(tx, now, limit)[i].candidates|
    ensures PlannedQueues(tx, now, limit)[i].candidates[k] == CandidateOf(r)
  {
    hide EligibleRows, PlannedQueues, RankedRows, RowsAhead;
    var q := QueueIdOf(r);
    SelectedIsRanked(tx, now, limit, q, r);
    EligibleQueue(tx, now, r);
    PlannedMembers(tx, now, limit);
    assert HasWork(tx, now, q);
    var a := PlannedQueues(tx, now, limit);
    assert PlannedQueue(tx, now, limit, q) in a;
    i :| 0 <= i < |a| && a[i] == PlannedQueue(tx, now, limit, q);
    k :| 0 <= k < |RankedRows(tx, now, limit, q)| && RankedRows(tx, now, limit, q)[k] == r;
  }

  // ------------------------------------------------------------------------- acquiring

  lemma SamePlan(db: Db, a: S.Snapshot, b: S.Snapshot, req: AcquireRequest, tokens: nat -> string, now: int)
    requires a == b.(queues := a.queues) && S.Canonical(a.queues) == S.Canonical(b.queues)
    ensures GrantPlan(db, a, req, tokens, now) == GrantPlan(db, b, req, tokens, now)
  {
    hide LeaseGrants, S.Canonical, SetDeficits, S.Outcome;
    var q0 := S.Canonical(a.queues);
    assert S.Precheck(a) == S.Precheck(b);
    if S.Precheck(a).Pass? { SameOutcome(q0, a, b); }
    assert S.Decide(a) == S.Decide(b);
    assert S.CanonicalSnapshot(a) == S.CanonicalSnapshot(b);
  }

  lemma SameOutcome(q0: seq<S.Queue>, a: S.Snapshot, b: S.Snapshot)
    requires a == b.(queues := a.queues) && a.workerSlots >= 0
    ensures S.Outcome(q0, a) == S.Outcome(q0, b)
  {
    hide S.Loop;
  }

  lemma {:induction false} LeaseGrantsStop(
      db: Db, grants: seq<S.Grant>, n: nat, req: AcquireRequest, tokens: nat -> string, now: int)
    requires n <= |grants| && LeaseGrants(db, db, grants[..n], req, tokens, now).Err?
    ensures LeaseGrants(db, db, grants, req, tokens, now) == LeaseGrants(db, db, grants[..n], req, tokens, now)
    decreases |grants|
  {
    hide LeaseRow;
    if n < |grants| {
      assert grants[..|grants| - 1][..n] == grants[..n];
      LeaseGrantsStop(db, grants[..|grants| - 1], n, req, tokens, now);
    } else {
      assert grants[..n] == grants;
    }
  }

  /** The grant loop of acquire. */
  method LeaseEach(
      tx: Db, grants: seq<S.Grant>, req: AcquireRequest, tokens: nat -> string,
      now: int) returns (r: Reply<seq<Lease>>)
    ensures r == LeaseGrants(tx, tx, grants, req, tokens, now)
  {
    hide LeaseRow;
    var cur, leases := tx, [];
    for n := 0 to |grants|
      invariant LeaseGrants(tx, tx, grants[..n], req, tokens, now) == Ok(Tx(cur, leases))
    {
      assert grants[..n + 1][..n] == grants[..n];
      if grants[n].job !in tx.jobs {
        LeaseGrantsStop(tx, grants, n + 1, req, tokens, now);
        return Err(UnknownGrant);
      }
      var leased := LeaseRow(cur, Row(grants[n].job, tx.jobs[grants[n].job]), req, tokens(n), now);
      if leased.Err? {
        LeaseGrantsStop(tx, grants, n + 1, req, tokens, now);
        return Err(leased.error);
      }
      cur, leases := leased.value.db, leases + [leased.value.reply];
    }
    assert grants[..|grants|] == grants;
    r := Ok(Tx(cur, leases));
  }

  /** The deficit loop of persistSchedulePlan. */
  method StoreDeficits(queues: map<QueueId, QueueRow>, states: seq<S.QueueState>) returns (r: map<QueueId, QueueRow>)
    ensures r == SetDeficits(queues, states)
  {
    r := queues;
    for n := 0 to |states|
      invariant r == SetDeficits(queues, states[..n])
    {
      assert states[..n + 1][..n] == states[..n];
      var q := QueueId(states[n].tenant, states[n].queue);
      if q in r { r := r[q := r[q].(deficit := states[n].deficit)]; }
    }
    assert states[..|states|] == states;
  }

  method Persist(tx: Db, input: S.Snapshot, decision: S.Decision) returns (r: Outcome)
    ensures r == PersistPlan(tx, input, decision)
  {
    var queues := StoreDeficits(tx.queues, decision.queues);
    var record := DecisionLog.NewRecord(DecisionLog.LinkBefore(tx.log, |tx.log|), input, decision);
    if record.Err? { return Err(LogRejected); }
    r := Ok(tx.(queues := queues, cursor := decision.nextCursor, schedulerSeq := tx.schedulerSeq + 1,
        log := tx.log + [record.value]));
  }

  /** acquire: plan, lease the grants, persist the plan. */
  method AcquireLeases(tx: Db, req: AcquireRequest, tokens: nat -> string, now: int) returns (r: Reply<seq<Lease>>)
    requires req.limit >= 1
    ensures r == AcquireTx(tx, req, tokens, now)
  {
    hide EligibleRows, PlannedQueues, SelectedRows, HasRecovery, S.Decide, LeaseGrants, PersistPlan, Grouped,
      S.Canonical, UsableSlots;
    var rows := SelectRows(tx, now, req.limit);
    RowsHaveQueues(tx, now, req.limit, rows);
    var plan, queues := GroupRows(tx, rows);
    RecoveryMatches(tx, now, req.limit, rows);
    if |rows| == 0 { return Ok(Tx(tx, [])); }
    var slots := UsableSlots(req.slots, req.reserve, plan.recovery);
    if slots == 0 { return Ok(Tx(tx, [])); }
    var input := PlanSnapshot(tx, plan.queues, slots, req.limit, now);
    PlanIsCanonical(tx, now, req.limit, rows, queues, plan.queues);
    SamePlan(tx, input, PlanSnapshot(tx, PlannedQueues(tx, now, req.limit), slots, req.limit, now), req, tokens, now);
    var decision := S.RunDecide(input);
    if decision.Err? { return Err(Undecided); }
    var leased := LeaseEach(tx, decision.value.grants, req, tokens, now);
    if leased.Err? { return Err(leased.error); }
    var persisted := Persist(leased.value.db, input, decision.value);
    if persisted.Err? { return Err(persisted.error); }
    r := Ok(Tx(persisted.value, leased.value.reply));
  }

  lemma RowsHaveQueues(tx: Db, now: int, limit: int, rows: seq<Row>)
    requires forall r :: r in rows <==> r in SelectedRows(tx, now, limit)
    ensures forall r :: r in rows ==> QueueIdOf(r) in tx.queues
  {
    hide EligibleRows, RowsAhead;
    forall r | r in rows ensures QueueIdOf(r) in tx.queues {
      assert r in SelectedRows(tx, now, limit);
      EligibleQueue(tx, now, r);
    }
  }
}
