/** What the acquisition query hands to the scheduler. */
module Planning {
  import opened Ordering
  import opened Domain
  import opened Database
  import opened Transactions
  import S = Scheduler
  import L = SchedulerLaws

  lemma QueryOrdered<T(!new)>(s: set<T>, key: T -> Key)
    ensures Ordered(Query(s, key), key)
  {
    SortOrders(Listing(s), key);
  }

  /** The eligible rows of one queue in rank order, not cut. */
  ghost function AllRanked(db: Db, now: int, q: QueueId): (rows: seq<Row>)
    ensures forall i :: 0 <= i < |rows| ==> rows[i] in EligibleRows(db, now) && QueueIdOf(rows[i]) == q
    ensures forall i, j :: 0 <= i < j < |rows| ==> rows[i].id != rows[j].id
    ensures Ordered(rows, Transactions.RankKey)
  {
    var s := set r | r in EligibleRows(db, now) && QueueIdOf(r) == q;
    var rows := Query(s, Transactions.RankKey);
    QueryOrdered(s, Transactions.RankKey);
    assert forall i :: 0 <= i < |rows| ==> rows[i] in s;
    assert forall r :: r in s ==> r.id in db.jobs && r == Row(r.id, db.jobs[r.id]);
    rows
  }

  lemma RankedIsCut(db: Db, now: int, limit: int, q: QueueId)
    ensures RankedRows(db, now, limit, q) == Take(AllRanked(db, now, q), limit)
  {
  }

  lemma CandidatesOrdered(rows: seq<Row>)
    requires Ordered(rows, Transactions.RankKey)
    ensures Ordered(CandidatesOf(rows), S.CandidateKey)
  {
    var cs := CandidatesOf(rows);
    forall i, j | 0 <= i < j < |cs| ensures !Less(S.CandidateKey(cs[j]), S.CandidateKey(cs[i])) {
      assert S.CandidateKey(cs[i]) == Transactions.RankKey(rows[i]) && S.CandidateKey(cs[j]) == Transactions.RankKey(rows[j]);
    }
  }

  // ------------------------------------------------------------------- the queue list

  ghost predicate HasWork(db: Db, now: int, q: QueueId) {
    q in db.queues && exists r :: r in EligibleRows(db, now) && QueueIdOf(r) == q
  }

  ghost function FullQueue(db: Db, now: int, q: QueueId): S.Queue
    requires q in db.queues
  {
    S.Queue(q.tenant, q.name, db.queues[q].weight, db.queues[q].deficit, CandidatesOf(AllRanked(db, now, q)))
  }

  /** The whole ready set, nothing cut away. */
  ghost function FullQueues(db: Db, now: int): seq<S.Queue> {
    Query(set q | q in db.queues && HasWork(db, now, q) :: FullQueue(db, now, q), S.QueueKey)
  }

  /** A queue is listed once, under its own row. */
  ghost predicate Lists(db: Db, now: int, limit: int, queue: S.Queue) {
    var q := QueueId(queue.tenant, queue.name);
    HasWork(db, now, q) && queue == PlannedQueue(db, now, limit, q)
  }

  lemma PlannedNames(db: Db, now: int, limit: int, q: QueueId)
    requires q in db.queues
    ensures var queue := PlannedQueue(db, now, limit, q); QueueId(queue.tenant, queue.name) == q
  {
    hide RankedRows;
  }

  lemma PlannedMembers(db: Db, now: int, limit: int)
    ensures forall i :: 0 <= i < |PlannedQueues(db, now, limit)| ==> Lists(db, now, limit, PlannedQueues(db, now, limit)[i])
    ensures forall q :: HasWork(db, now, q) ==> PlannedQueue(db, now, limit, q) in PlannedQueues(db, now, limit)
  {
    hide PlannedQueue, EligibleRows;
    var s := set q | q in db.queues && (exists r :: r in EligibleRows(db, now) && QueueIdOf(r) == q)
               :: PlannedQueue(db, now, limit, q);
    var queues := PlannedQueues(db, now, limit);
    assert queues == Query(s, S.QueueKey);
    forall i | 0 <= i < |queues| ensures Lists(db, now, limit, queues[i]) {
      assert queues[i] in s;
      var q :| q in db.queues && HasWork(db, now, q) && queues[i] == PlannedQueue(db, now, limit, q);
      PlannedNames(db, now, limit, q);
    }
  }

  /** The plan is already in canonical order. */
  lemma PlannedCanonical(db: Db, now: int, limit: int)
    ensures S.Canonical(PlannedQueues(db, now, limit)) == PlannedQueues(db, now, limit)
  {
    hide RankedRows;
    var queues := PlannedQueues(db, now, limit);
    PlannedMembers(db, now, limit);
    forall i | 0 <= i < |queues| ensures S.SortQueue(queues[i]) == queues[i] {
      var q := QueueId(queues[i].tenant, queues[i].name);
      assert Lists(db, now, limit, queues[i]);
      RankedIsCut(db, now, limit, q);
      var rows := RankedRows(db, now, limit, q);
      assert Ordered(rows, Transactions.RankKey);
      CandidatesOrdered(rows);
      SortFixed(queues[i].candidates, S.CandidateKey);
    }
    assert S.SortEach(queues) == queues;
    QueryOrdered((set q | q in db.queues && (exists r :: r in EligibleRows(db, now) && QueueIdOf(r) == q)
                    :: PlannedQueue(db, now, limit, q)), S.QueueKey);
    SortFixed(queues, S.QueueKey);
  }

  // ------------------------------------------------------------------- what is offered

  ghost function Pool(db: Db, now: int): set<S.Candidate> {
    set r | r in EligibleRows(db, now) :: CandidateOf(r)
  }

  /** Candidate `k` of queue `i` stands for an eligible row of that queue. */
  lemma OfferedRow(db: Db, now: int, limit: int, i: nat, k: nat) returns (row: Row)
    requires i < |PlannedQueues(db, now, limit)| && k < |PlannedQueues(db, now, limit)[i].candidates|
    ensures var queue := PlannedQueues(db, now, limit)[i]; var q := QueueId(queue.tenant, queue.name);
      && row in EligibleRows(db, now) && QueueIdOf(row) == q && queue.candidates[k] == CandidateOf(row)
      && k < |RankedRows(db, now, limit, q)| && row == RankedRows(db, now, limit, q)[k]
  {
    hide RankedRows, EligibleRows, PlannedQueues;
    PlannedMembers(db, now, limit);
    var queue := PlannedQueues(db, now, limit)[i];
    assert Lists(db, now, limit, queue);
    var q := QueueId(queue.tenant, queue.name);
    RankedIsCut(db, now, limit, q);
    row := RankedRows(db, now, limit, q)[k];
    assert row == AllRanked(db, now, q)[k];
  }

  lemma SameId(db: Db, now: int, a: Row, b: Row)
    requires a in EligibleRows(db, now) && b in EligibleRows(db, now) && a.id == b.id
    ensures a == b
  {
  }

  lemma RankedDistinct(db: Db, now: int, limit: int, q: QueueId, k: nat, l: nat)
    requires k < |RankedRows(db, now, limit, q)| && l < |RankedRows(db, now, limit, q)|
    requires RankedRows(db, now, limit, q)[k].id == RankedRows(db, now, limit, q)[l].id
    ensures k == l
  {
    RankedIsCut(db, now, limit, q);
    var all := AllRanked(db, now, q);
    assert RankedRows(db, now, limit, q)[k] == all[k] && RankedRows(db, now, limit, q)[l] == all[l];
  }

  /** Every job is offered at most once. */
  lemma OfferedApart(db: Db, now: int, limit: int)
    ensures L.Drawn(Pool(db, now), PlannedQueues(db, now, limit), [])
    ensures L.Apart(PlannedQueues(db, now, limit), [])
  {
    hide RankedRows, EligibleRows, PlannedQueues;
    var queues := PlannedQueues(db, now, limit);
    forall i, k | 0 <= i < |queues| && 0 <= k < |queues[i].candidates| ensures queues[i].candidates[k] in Pool(db, now) {
      var row := OfferedRow(db, now, limit, i, k);
    }
    forall i, k, j, l | 0 <= i < |queues| && 0 <= k < |queues[i].candidates|
                        && 0 <= j < |queues| && 0 <= l < |queues[j].candidates|
        && queues[i].candidates[k].job == queues[j].candidates[l].job
      ensures i == j && k == l
    {
      var a := OfferedRow(db, now, limit, i, k);
      var b := OfferedRow(db, now, limit, j, l);
      SameId(db, now, a, b);
      QueuesDistinct(db, now, limit, i, j);
      RankedDistinct(db, now, limit, QueueIdOf(a), k, l);
    }
  }

  lemma QueuesDistinct(db: Db, now: int, limit: int, i: nat, j: nat)
    requires i < |PlannedQueues(db, now, limit)| && j < |PlannedQueues(db, now, limit)|
    requires PlannedQueues(db, now, limit)[i].tenant == PlannedQueues(db, now, limit)[j].tenant
    requires PlannedQueues(db, now, limit)[i].name == PlannedQueues(db, now, limit)[j].name
    ensures i == j
  {
    hide RankedRows, EligibleRows;
    PlannedMembers(db, now, limit);
    var queues := PlannedQueues(db, now, limit);
    assert Lists(db, now, limit, queues[i]) && Lists(db, now, limit, queues[j]);
  }

  /** Costs are positive because the rows' are. */
  lemma OfferedCosted(db: Db, now: int, limit: int)
    requires forall id :: id in db.jobs ==> db.jobs[id].cost >= 1
    ensures forall i :: 0 <= i < |PlannedQueues(db, now, limit)| ==> L.Costed(PlannedQueues(db, now, limit)[i])
  {
    hide RankedRows, EligibleRows, PlannedQueues;
    var queues := PlannedQueues(db, now, limit);
    forall i | 0 <= i < |queues| ensures L.Costed(queues[i]) {
      forall k | 0 <= k < |queues[i].candidates| ensures queues[i].candidates[k].cost >= 1 {
        var row := OfferedRow(db, now, limit, i, k);
        EligibleRow(db, now, row);
      }
    }
  }

  lemma EligibleRow(db: Db, now: int, row: Row)
    requires row in EligibleRows(db, now)
    ensures row.id in db.jobs && row.job == db.jobs[row.id] && Eligible(db, row.id, now)
  {
  }

  // -------------------------------------------------------------------------- the cut

  lemma SameElements<T(!new)>(a: seq<T>, b: seq<T>)
    requires forall x :: x in a <==> x in b
    requires forall i, j :: 0 <= i < j < |a| ==> a[i] != a[j]
    requires forall i, j :: 0 <= i < j < |b| ==> b[i] != b[j]
    ensures multiset(a) == multiset(b)
  {
    forall x ensures multiset(a)[x] == multiset(b)[x] {
      CountOnce(a, x);
      CountOnce(b, x);
    }
  }

  lemma {:induction false} CountOnce<T>(a: seq<T>, x: T)
    requires forall i, j :: 0 <= i < j < |a| ==> a[i] != a[j]
    ensures multiset(a)[x] == if x in a then 1 else 0
    decreases |a|
  {
    if a != [] {
      var init, last := a[..|a| - 1], a[|a| - 1];
      assert a == init + [last];
      CountOnce(init, x);
      assert last !in init;
    }
  }

  ghost predicate ListsFull(db: Db, now: int, queue: S.Queue) {
    var q := QueueId(queue.tenant, queue.name);
    HasWork(db, now, q) && queue == FullQueue(db, now, q)
  }

  lemma FullMembers(db: Db, now: int)
    ensures forall i :: 0 <= i < |FullQueues(db, now)| ==> ListsFull(db, now, FullQueues(db, now)[i])
    ensures forall q :: HasWork(db, now, q) ==> FullQueue(db, now, q) in FullQueues(db, now)
    ensures forall i, j :: 0 <= i < j < |FullQueues(db, now)| ==> FullQueues(db, now)[i] != FullQueues(db, now)[j]
    ensures Ordered(FullQueues(db, now), S.QueueKey)
  {
    hide AllRanked, EligibleRows;
    var s := set q | q in db.queues && HasWork(db, now, q) :: FullQueue(db, now, q);
    var queues := FullQueues(db, now);
    QueryOrdered(s, S.QueueKey);
    forall i | 0 <= i < |queues| ensures ListsFull(db, now, queues[i]) {
      assert queues[i] in s;
      var q :| q in db.queues && HasWork(db, now, q) && queues[i] == FullQueue(db, now, q);
      assert QueueId(queues[i].tenant, queues[i].name) == q;
    }
  }

  /** One queue of the plan is the full queue, cut. */
  lemma CutQueueOf(db: Db, now: int, limit: int, q: QueueId)
    requires q in db.queues
    ensures PlannedQueue(db, now, limit, q)
         == FullQueue(db, now, q).(candidates := Take(FullQueue(db, now, q).candidates, limit))
  {
    hide AllRanked, RankedRows;
    RankedIsCut(db, now, limit, q);
    var all := AllRanked(db, now, q);
    assert CandidatesOf(Take(all, limit)) == Take(CandidatesOf(all), limit);
  }

  /** The SQL cut is the full ready set with each queue cut in rank order. */
  lemma PlanIsCut(db: Db, now: int, limit: int)
    ensures PlannedQueues(db, now, limit) == L.CutEach(FullQueues(db, now), limit)
  {
    hide AllRanked, RankedRows, EligibleRows, PlannedQueues, FullQueues, PlannedQueue, FullQueue, HasWork;
    var plan, full := PlannedQueues(db, now, limit), FullQueues(db, now);
    var cut := L.CutEach(full, limit);
    PlannedMembers(db, now, limit);
    FullMembers(db, now);
    PlannedOrdered(db, now, limit);
    CutOrdered(db, now, limit);
    forall x ensures x in plan <==> x in cut {
      if x in plan {
        var i :| 0 <= i < |plan| && plan[i] == x;
        assert Lists(db, now, limit, x);
        var q := QueueId(x.tenant, x.name);
        ListedFull(db, now, limit, q);
      }
      if x in cut {
        var i :| 0 <= i < |cut| && cut[i] == x;
        assert ListsFull(db, now, full[i]);
        ListedFull(db, now, limit, QueueId(full[i].tenant, full[i].name));
      }
    }
    SameElements(plan, cut);
    SortedUnique(plan, cut, S.QueueKey);
  }

  lemma ListedFull(db: Db, now: int, limit: int, q: QueueId)
    requires HasWork(db, now, q)
    ensures q in db.queues && PlannedQueue(db, now, limit, q) in PlannedQueues(db, now, limit)
    ensures PlannedQueue(db, now, limit, q) in L.CutEach(FullQueues(db, now), limit)
    ensures PlannedQueue(db, now, limit, q) == FullQueue(db, now, q).(candidates := Take(FullQueue(db, now, q).candidates, limit))
  {
    hide AllRanked, RankedRows, EligibleRows, PlannedQueues, FullQueues, PlannedQueue, FullQueue;
    PlannedMembers(db, now, limit);
    FullMembers(db, now);
    CutQueueOf(db, now, limit, q);
    var full := FullQueues(db, now);
    var i :| 0 <= i < |full| && full[i] == FullQueue(db, now, q);
    assert L.CutEach(full, limit)[i] == PlannedQueue(db, now, limit, q);
  }

  lemma PlannedOrdered(db: Db, now: int, limit: int)
    ensures var plan := PlannedQueues(db, now, limit);
      && Ordered(plan, S.QueueKey) && Injective(plan, S.QueueKey)
      && (forall i, j :: 0 <= i < j < |plan| ==> plan[i] != plan[j])
  {
    hide RankedRows, EligibleRows;
    QueryOrdered((set q | q in db.queues && (exists r :: r in EligibleRows(db, now) && QueueIdOf(r) == q)
                    :: PlannedQueue(db, now, limit, q)), S.QueueKey);
    var plan := PlannedQueues(db, now, limit);
    forall i, j | 0 <= i < |plan| && 0 <= j < |plan| && S.QueueKey(plan[i]) == S.QueueKey(plan[j]) ensures plan[i] == plan[j] {
      S.QueueKeyOrder(plan[i], plan[j]);
      QueuesDistinct(db, now, limit, i, j);
    }
  }

  lemma CutOrdered(db: Db, now: int, limit: int)
    ensures var cut := L.CutEach(FullQueues(db, now), limit);
      Ordered(cut, S.QueueKey) && (forall i, j :: 0 <= i < j < |cut| ==> cut[i] != cut[j])
  {
    hide AllRanked, EligibleRows, FullQueues, HasWork;
    FullMembers(db, now);
    var full := FullQueues(db, now);
    var cut := L.CutEach(full, limit);
    forall i, j | 0 <= i < j < |cut| ensures !Less(S.QueueKey(cut[j]), S.QueueKey(cut[i])) && cut[i] != cut[j] {
      assert S.QueueKey(cut[i]) == S.QueueKey(full[i]) && S.QueueKey(cut[j]) == S.QueueKey(full[j]);
      assert ListsFull(db, now, full[i]) && ListsFull(db, now, full[j]);
    }
  }

  lemma FullCanonical(db: Db, now: int)
    ensures S.Canonical(FullQueues(db, now)) == FullQueues(db, now)
  {
    hide EligibleRows, HasWork;
    FullMembers(db, now);
    var queues := FullQueues(db, now);
    forall i | 0 <= i < |queues| ensures S.SortQueue(queues[i]) == queues[i] {
      assert ListsFull(db, now, queues[i]);
      CandidatesOrdered(AllRanked(db, now, QueueId(queues[i].tenant, queues[i].name)));
      SortFixed(queues[i].candidates, S.CandidateKey);
    }
    assert S.SortEach(queues) == queues;
    SortFixed(queues, S.QueueKey);
  }

  /** Ranking and cutting in SQL gives the decision that the full ready set would have given. */
  lemma CutPlanDecides(db: Db, slots: int, limit: int, now: int)
    ensures S.Decide(PlanSnapshot(db, PlannedQueues(db, now, limit), slots, limit, now))
         == S.Decide(PlanSnapshot(db, FullQueues(db, now), slots, limit, now))
  {
    hide S.Decide, PlannedQueues, FullQueues, S.Canonical;
    FullCanonical(db, now);
    PlanIsCut(db, now, limit);
    var input := PlanSnapshot(db, FullQueues(db, now), slots, limit, now);
    L.CutPreservesDecision(input);
    assert input.(queues := PlannedQueues(db, now, limit)) == PlanSnapshot(db, PlannedQueues(db, now, limit), slots, limit, now);
  }

  /** The cut never hides that a recovered job is waiting: recovered rows rank first. */
  lemma CutShowsRecovery(db: Db, now: int, limit: int)
    requires limit >= 1
    ensures HasRecovery(PlannedQueues(db, now, limit)) <==> HasRecovery(FullQueues(db, now))
  {
    hide PlannedQueues, FullQueues, S.Canonical;
    PlanIsCut(db, now, limit);
    FullCanonical(db, now);
    var full, cut := FullQueues(db, now), PlannedQueues(db, now, limit);
    L.CanonicalSorted(full);
    if HasRecovery(full) {
      var i, k :| 0 <= i < |full| && 0 <= k < |full[i].candidates| && full[i].candidates[k].recovery;
      var cs := full[i].candidates;
      if k > 0 { assert !Less(S.CandidateKey(cs[k]), S.CandidateKey(cs[0])); }
      assert cs[0].recovery;
      assert cut[i].candidates[0] == cs[0];
    }
    if HasRecovery(cut) {
      var i, k :| 0 <= i < |cut| && 0 <= k < |cut[i].candidates| && cut[i].candidates[k].recovery;
      assert full[i].candidates[k] == cut[i].candidates[k];
    }
  }
}
