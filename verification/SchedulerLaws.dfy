/** What deficit round robin guarantees about one decision. */
module SchedulerLaws {
  import opened Ordering
  import opened Wrappers
  import opened Scheduler

  function Slots(gs: seq<Grant>): int {
    if gs == [] then 0 else Slots(gs[..|gs| - 1]) + gs[|gs| - 1].cost
  }

  lemma {:induction false} SlotsSplit(a: seq<Grant>, b: seq<Grant>)
    ensures Slots(a + b) == Slots(a) + Slots(b)
  {
    if b == [] {
      assert a + b == a;
    } else {
      SlotsSplit(a, b[..|b| - 1]);
      assert (a + b)[..|a + b| - 1] == a + b[..|b| - 1];
    }
  }

  function GrantsOf(cs: seq<Candidate>): (gs: seq<Grant>)
    ensures |gs| == |cs| && forall i :: 0 <= i < |gs| ==> gs[i] == GrantOf(cs[i])
  {
    seq(|cs|, i requires 0 <= i < |cs| => GrantOf(cs[i]))
  }

  /** The grants one queue received, in the order it received them. */
  function GrantsTo(visits: seq<Visit>, i: nat): seq<Grant> {
    if visits == [] then [] else
      var last := visits[|visits| - 1];
      GrantsTo(visits[..|visits| - 1], i) + (if last.index == i then last.granted else [])
  }

  function VisitsTo(visits: seq<Visit>, i: nat): nat {
    if visits == [] then 0 else
      VisitsTo(visits[..|visits| - 1], i) + (if visits[|visits| - 1].index == i then 1 else 0)
  }

  /** Visits that found work; only these earn a quantum. */
  function EarningVisits(visits: seq<Visit>, i: nat): (n: nat)
    ensures n <= VisitsTo(visits, i)
  {
    if visits == [] then 0 else
      var last := visits[|visits| - 1];
      EarningVisits(visits[..|visits| - 1], i) + (if last.index == i && last.nonempty then 1 else 0)
  }

  // ------------------------------------------------------------- one visit

  /** A visit takes a prefix of the candidates and pays for it. */
  ghost predicate Took(q: Queue, remaining: int, s: Served) {
    var k := |s.granted|;
    && k <= |q.candidates|
    && s.granted == GrantsOf(q.candidates[..k])
    && s.queue == q.(deficit := q.deficit - Slots(s.granted), candidates := q.candidates[k..])
    && s.remaining == remaining - Slots(s.granted)
    && (q.deficit >= 0 ==> s.queue.deficit >= 0)
  }

  lemma {:induction false} ServeTakesPrefix(q: Queue, remaining: int, room: nat)
    requires Serve(q, remaining, room).Ok?
    ensures Took(q, remaining, Serve(q, remaining, room).value)
    decreases room
  {
    hide Took;
    var s := Serve(q, remaining, room).value;
    if s.granted != [] {
      var c := q.candidates[0];
      var rest := q.(deficit := q.deficit - c.cost, candidates := q.candidates[1..]);
      ServeTakesPrefix(rest, remaining - c.cost, room - 1);
      TookOneMore(q, remaining, Serve(rest, remaining - c.cost, room - 1).value);
    } else {
      TookNothing(q, remaining);
    }
  }

  lemma TookNothing(q: Queue, remaining: int)
    ensures Took(q, remaining, Served(q, remaining, []))
  {
    assert q.candidates[0..] == q.candidates;
  }

  lemma TookOneMore(q: Queue, remaining: int, t: Served)
    requires q.candidates != [] && q.candidates[0].cost <= q.deficit
    requires var c := q.candidates[0];
      Took(q.(deficit := q.deficit - c.cost, candidates := q.candidates[1..]), remaining - c.cost, t)
    ensures Took(q, remaining, t.(granted := [GrantOf(q.candidates[0])] + t.granted))
  {
    hide Slots;
    var c := q.candidates[0];
    SlotsSplit([GrantOf(c)], t.granted);
    OneSlot(GrantOf(c));
    var k := |t.granted| + 1;
    assert q.candidates[..k] == [c] + q.candidates[1..][..k - 1];
    assert q.candidates[1..][k - 1..] == q.candidates[k..];
  }

  lemma OneSlot(g: Grant)
    ensures Slots([g]) == g.cost
  {
    assert [g][..0] == [];
  }

  // ----------------------------------------------------------- whole decisions

  /** A queue's books: what it started with, what it has left and what it was granted. */
  ghost predicate Balanced(a: Queue, b: Queue, visits: seq<Visit>, i: nat) {
    var g := GrantsTo(visits, i);
    && b.tenant == a.tenant && b.name == a.name && b.weight == a.weight
    && |g| <= |a.candidates|
    && g == GrantsOf(a.candidates[..|g|])
    && b.candidates == a.candidates[|g|..]
    && b.deficit == a.deficit + a.Quantum() * EarningVisits(visits, i) - Slots(g)
    && (a.deficit >= 0 ==> b.deficit >= 0)
  }

  ghost predicate Audited(q0: seq<Queue>, slots: int, limit: int, st: Drr) {
    && |st.queues| == |q0|
    && (forall i :: 0 <= i < |q0| ==> Balanced(q0[i], st.queues[i], st.visits, i))
    && st.remaining == slots - Slots(st.grants)
    && 0 <= st.remaining
    && |st.grants| <= limit
  }

  lemma BalancedStep(a: Queue, b: Queue, visits: seq<Visit>, v: Visit, i: nat, remaining: int, s: Served)
    requires Balanced(a, b, visits, i)
    requires v.index == i && v.nonempty && v.granted == s.granted
    requires Took(b.(deficit := b.deficit + b.Quantum()), remaining, s)
    ensures Balanced(a, s.queue, visits + [v], i)
  {
    hide GrantsTo, EarningVisits;
    var g, k := GrantsTo(visits, i), |v.granted|;
    VisitAdds(visits, v, i);
    SlotsSplit(g, v.granted);
    PrefixGrows(a.candidates, |g|, k);
    OneMoreQuantum(a.Quantum(), EarningVisits(visits, i));
  }

  lemma VisitAdds(visits: seq<Visit>, v: Visit, i: nat)
    ensures GrantsTo(visits + [v], i) == GrantsTo(visits, i) + (if v.index == i then v.granted else [])
    ensures EarningVisits(visits + [v], i) == EarningVisits(visits, i) + (if v.index == i && v.nonempty then 1 else 0)
  {
    assert (visits + [v])[..|visits|] == visits;
  }

  lemma PrefixGrows(cs: seq<Candidate>, m: nat, k: nat)
    requires m + k <= |cs|
    ensures GrantsOf(cs[..m + k]) == GrantsOf(cs[..m]) + GrantsOf(cs[m..][..k])
    ensures cs[m + k..] == cs[m..][k..]
  {
    assert cs[..m + k] == cs[..m] + cs[m..][..k];
  }

  lemma OneMoreQuantum(q: int, n: int)
    ensures q * (n + 1) == q * n + q
  {
  }

  lemma BalancedOther(a: Queue, b: Queue, visits: seq<Visit>, v: Visit, i: nat)
    requires Balanced(a, b, visits, i)
    requires v.index != i || (!v.nonempty && v.granted == [])
    ensures Balanced(a, b, visits + [v], i)
  {
    VisitAdds(visits, v, i);
    assert GrantsTo(visits, i) + [] == GrantsTo(visits, i);
  }

  lemma RoundAudited(q0: seq<Queue>, slots: int, limit: int, st: Drr)
    requires Audited(q0, slots, limit, st)
    requires st.cursor < |st.queues| && st.Running(limit) && Round(st, limit).Ok?
    ensures Audited(q0, slots, limit, Round(st, limit).value)
  {
    hide Serve, Balanced;
    var next := Round(st, limit).value;
    var v := next.visits[|next.visits| - 1];
    var b := st.queues[st.cursor];
    if v.nonempty {
      var room := limit - |st.grants|;
      var q := b.(deficit := b.deficit + b.Quantum());
      ServeTakesPrefix(q, st.remaining, room);
      BalancedStep(q0[st.cursor], b, st.visits, v, st.cursor, st.remaining, Serve(q, st.remaining, room).value);
      SlotsSplit(st.grants, v.granted);
    }
    forall i | 0 <= i < |q0| ensures Balanced(q0[i], next.queues[i], next.visits, i) {
      if i != st.cursor || !v.nonempty {
        BalancedOther(q0[i], st.queues[i], st.visits, v, i);
      }
    }
  }

  lemma {:induction false} LoopAudited(q0: seq<Queue>, slots: int, limit: int, st: Drr)
    requires Audited(q0, slots, limit, st)
    requires st.cursor < |st.queues| && Loop(st, limit).Ok?
    ensures Audited(q0, slots, limit, Loop(st, limit).value)
    decreases st.remaining, |st.queues| - st.idle
  {
    if st.Running(limit) {
      RoundAudited(q0, slots, limit, st);
      LoopAudited(q0, slots, limit, Round(st, limit).value);
    }
  }

  lemma StartAudited(q0: seq<Queue>, slots: int, limit: int, st: Drr)
    requires st.queues == q0 && st.visits == [] && st.grants == [] && st.remaining == slots >= 0 && limit >= 0
    ensures Audited(q0, slots, limit, st)
  {
    forall i | 0 <= i < |q0| ensures Balanced(q0[i], st.queues[i], st.visits, i) {
      assert q0[i].candidates[..0] == [] && q0[i].candidates[0..] == q0[i].candidates;
      assert q0[i].Quantum() * 0 == 0;
    }
  }

  /** The final state of a successful decision. */
  ghost function Final(input: Snapshot): Drr
    requires Decide(input).Ok?
  {
    Outcome(Canonical(input.queues), input).value
  }

  /** Accounting: a decision spends no more slots and jobs than it was given, every queue is
      granted a prefix of its sorted candidates, and every deficit is explained by the quanta
      earned and the slots granted. */
  lemma DecideAudited(input: Snapshot)
    requires Decide(input).Ok?
    ensures Audited(Canonical(input.queues), input.workerSlots, input.batchLimit, Final(input))
    ensures Slots(Decide(input).value.grants) <= input.workerSlots
    ensures |Decide(input).value.grants| <= input.batchLimit
  {
    var q0 := Canonical(input.queues);
    if |q0| == 0 || input.workerSlots == 0 || input.batchLimit == 0 {
      StartAudited(q0, input.workerSlots, input.batchLimit, Final(input));
    } else {
      StartAudited(q0, input.workerSlots, input.batchLimit, Start(q0, input));
      LoopAudited(q0, input.workerSlots, input.batchLimit, Start(q0, input));
    }
  }

  // ------------------------------------------------------------ where grants come from

  ghost predicate FromPool(pool: set<Candidate>, g: Grant) {
    exists c :: c in pool && g == GrantOf(c)
  }

  /** Grants are drawn from a pool of candidates, each job at most once. */
  ghost predicate Drawn(pool: set<Candidate>, queues: seq<Queue>, grants: seq<Grant>) {
    && (forall i, k :: 0 <= i < |queues| && 0 <= k < |queues[i].candidates| ==> queues[i].candidates[k] in pool)
    && (forall g :: 0 <= g < |grants| ==> FromPool(pool, grants[g]))
  }

  ghost predicate Apart(queues: seq<Queue>, grants: seq<Grant>) {
    && (forall i, k, j, l ::
          0 <= i < |queues| && 0 <= k < |queues[i].candidates| && 0 <= j < |queues| && 0 <= l < |queues[j].candidates|
          && queues[i].candidates[k].job == queues[j].candidates[l].job
          ==> i == j && k == l)
    && (forall g, i, k ::
          0 <= g < |grants| && 0 <= i < |queues| && 0 <= k < |queues[i].candidates|
          ==> grants[g].job != queues[i].candidates[k].job)
    && (forall g, h :: 0 <= g < h < |grants| ==> grants[g].job != grants[h].job)
  }

  lemma RoundDrawn(pool: set<Candidate>, st: Drr, limit: int)
    requires st.cursor < |st.queues| && st.Running(limit) && Round(st, limit).Ok?
    requires Drawn(pool, st.queues, st.grants)
    ensures Drawn(pool, Round(st, limit).value.queues, Round(st, limit).value.grants)
  {
    hide Serve;
    var next, q := Round(st, limit).value, st.queues[st.cursor];
    if q.candidates != [] {
      ServeTakesPrefix(q.(deficit := q.deficit + q.Quantum()), st.remaining, limit - |st.grants|);
      forall g | 0 <= g < |next.grants| ensures FromPool(pool, next.grants[g]) {
        if g >= |st.grants| {
          assert next.grants[g] == GrantOf(q.candidates[g - |st.grants|]);
        }
      }
    }
  }

  lemma RoundApart(st: Drr, limit: int)
    requires st.cursor < |st.queues| && st.Running(limit) && Round(st, limit).Ok?
    requires Apart(st.queues, st.grants)
    ensures Apart(Round(st, limit).value.queues, Round(st, limit).value.grants)
  {
    hide Serve, Apart;
    var next, q := Round(st, limit).value, st.queues[st.cursor];
    if q.candidates != [] {
      ServeTakesPrefix(q.(deficit := q.deficit + q.Quantum()), st.remaining, limit - |st.grants|);
      MovedApart(st.queues, st.grants, st.cursor, next.queues[st.cursor], |next.grants| - |st.grants|);
    }
  }

  /** Granting a prefix of one queue keeps jobs apart. */
  lemma MovedApart(queues: seq<Queue>, grants: seq<Grant>, i: nat, q: Queue, n: nat)
    requires Apart(queues, grants) && i < |queues| && n <= |queues[i].candidates|
    requires q.candidates == queues[i].candidates[n..]
    ensures Apart(queues[i := q], grants + GrantsOf(queues[i].candidates[..n]))
  {
    var more := grants + GrantsOf(queues[i].candidates[..n]);
    var rest := queues[i := q];
    assert forall k :: 0 <= k < |q.candidates| ==> q.candidates[k] == queues[i].candidates[n + k];
    forall g, j, k | 0 <= g < |more| && 0 <= j < |rest| && 0 <= k < |rest[j].candidates|
      ensures more[g].job != rest[j].candidates[k].job
    {
      var l := if j == i then n + k else k;
      assert rest[j].candidates[k] == queues[j].candidates[l];
      if g >= |grants| {
        assert more[g] == GrantOf(queues[i].candidates[g - |grants|]);
      }
    }
    forall g, h | 0 <= g < h < |more| ensures more[g].job != more[h].job {
      if h >= |grants| {
        assert more[h] == GrantOf(queues[i].candidates[h - |grants|]);
        if g >= |grants| {
          assert more[g] == GrantOf(queues[i].candidates[g - |grants|]);
        }
      }
    }
  }

  lemma {:induction false} LoopDrawn(pool: set<Candidate>, st: Drr, limit: int)
    requires st.cursor < |st.queues| && st.remaining >= 0 && Loop(st, limit).Ok?
    requires Drawn(pool, st.queues, st.grants) && Apart(st.queues, st.grants)
    ensures Drawn(pool, Loop(st, limit).value.queues, Loop(st, limit).value.grants)
    ensures Apart(Loop(st, limit).value.queues, Loop(st, limit).value.grants)
    decreases st.remaining, |st.queues| - st.idle
  {
    if st.Running(limit) {
      RoundDrawn(pool, st, limit);
      RoundApart(st, limit);
      LoopDrawn(pool, Round(st, limit).value, limit);
    }
  }

  /** Every grant names a candidate it was offered, and no job is granted twice. */
  lemma DecideDraws(input: Snapshot, pool: set<Candidate>)
    requires Decide(input).Ok?
    requires Drawn(pool, Canonical(input.queues), []) && Apart(Canonical(input.queues), [])
    ensures Drawn(pool, [], Decide(input).value.grants)
    ensures Apart([], Decide(input).value.grants)
  {
    var q0 := Canonical(input.queues);
    if !(|q0| == 0 || input.workerSlots == 0 || input.batchLimit == 0) {
      LoopDrawn(pool, Start(q0, input), input.batchLimit);
    }
  }

  // ------------------------------------------------------------------ no errors

  ghost predicate Costed(q: Queue) {
    forall k :: 0 <= k < |q.candidates| ==> q.candidates[k].cost >= 1
  }

  lemma {:induction false} ServeSucceeds(q: Queue, remaining: int, room: nat)
    requires Costed(q)
    ensures Serve(q, remaining, room).Ok?
    ensures Costed(Serve(q, remaining, room).value.queue)
    decreases room
  {
    if q.candidates != [] && room > 0 {
      var c := q.candidates[0];
      ServeSucceeds(q.(deficit := q.deficit - c.cost, candidates := q.candidates[1..]), remaining - c.cost, room - 1);
    }
  }

  lemma {:induction false} LoopSucceeds(st: Drr, limit: int)
    requires st.cursor < |st.queues| && st.remaining >= 0
    requires forall i :: 0 <= i < |st.queues| ==> Costed(st.queues[i])
    ensures Loop(st, limit).Ok?
    decreases st.remaining, |st.queues| - st.idle
  {
    if st.Running(limit) {
      var q := st.queues[st.cursor];
      ServeSucceeds(q.(deficit := q.deficit + q.Quantum()), st.remaining, limit - |st.grants|);
      LoopSucceeds(Round(st, limit).value, limit);
    }
  }

  /** With positive costs a well-formed request is always decided. */
  lemma DecideSucceeds(input: Snapshot)
    requires Precheck(input).Pass?
    requires forall i :: 0 <= i < |Canonical(input.queues)| ==> Costed(Canonical(input.queues)[i])
    ensures Decide(input).Ok?
  {
    var q0 := Canonical(input.queues);
    if !(|q0| == 0 || input.workerSlots == 0 || input.batchLimit == 0) {
      LoopSucceeds(Start(q0, input), input.batchLimit);
    }
  }

  // ----------------------------------------------------------------- rotation

  /** Positions the cursor has passed since it last stood at `start`. */
  predicate Passed(start: nat, cursor: nat, i: nat) {
    if start <= cursor then start <= i < cursor else i >= start || i < cursor
  }

  /** Every queue has had `laps` visits, and those the cursor has passed one more. */
  ghost predicate Rotated(start: nat, laps: nat, st: Drr) {
    start < |st.queues| &&
    forall i :: 0 <= i < |st.queues| ==>
      VisitsTo(st.visits, i) == laps + (if Passed(start, st.cursor, i) then 1 else 0)
  }

  lemma RoundRotated(start: nat, laps: nat, st: Drr, limit: int) returns (laps': nat)
    requires st.cursor < |st.queues| && st.Running(limit) && Round(st, limit).Ok?
    requires Rotated(start, laps, st)
    ensures Rotated(start, laps', Round(st, limit).value)
  {
    var next := Round(st, limit).value;
    laps' := if next.cursor == start then laps + 1 else laps;
    assert next.visits[..|next.visits| - 1] == st.visits;
  }

  lemma {:induction false} LoopRotated(start: nat, laps: nat, st: Drr, limit: int) returns (laps': nat)
    requires st.cursor < |st.queues| && st.remaining >= 0 && Loop(st, limit).Ok?
    requires Rotated(start, laps, st)
    ensures Rotated(start, laps', Loop(st, limit).value)
    decreases st.remaining, |st.queues| - st.idle
  {
    laps' := laps;
    if st.Running(limit) {
      laps' := RoundRotated(start, laps, st, limit);
      laps' := LoopRotated(start, laps', Round(st, limit).value, limit);
    }
  }

  /** Round robin: no queue is ever visited two times more than another. */
  lemma VisitsEven(input: Snapshot, i: nat, j: nat)
    requires Decide(input).Ok? && i < |Final(input).queues| && j < |Final(input).queues|
    ensures VisitsTo(Final(input).visits, i) <= VisitsTo(Final(input).visits, j) + 1
  {
    hide Canonical, Loop;
    var q0 := Canonical(input.queues);
    if !(|q0| == 0 || input.workerSlots == 0 || input.batchLimit == 0) {
      var st := Start(q0, input);
      assert Rotated(st.cursor, 0, st);
      var laps := LoopRotated(st.cursor, 0, st, input.batchLimit);
    }
  }

  // ----------------------------------------------------------------- fairness

  /** A queue that was never found empty and whose head no longer fits its deficit. */
  ghost predicate Backlogged(st: Drr, i: nat, largest: int)
    requires i < |st.queues|
  {
    && EarningVisits(st.visits, i) == VisitsTo(st.visits, i)
    && st.queues[i].candidates != []
    && st.queues[i].deficit < st.queues[i].candidates[0].cost <= largest
  }

  /** Fairness: two backlogged queues of equal weight are granted the same number of slots up
      to their initial deficit gap, one quantum and one job. */
  lemma Fairness(input: Snapshot, i: nat, j: nat, largest: int)
    requires Decide(input).Ok?
    requires i < |Final(input).queues| && j < |Final(input).queues|
    requires Backlogged(Final(input), i, largest) && Backlogged(Final(input), j, largest)
    requires var q0 := Canonical(input.queues); |q0| == |Final(input).queues| ==>
               q0[i].Quantum() == q0[j].Quantum() && q0[i].deficit >= 0 && q0[j].deficit >= 0
    ensures |Canonical(input.queues)| == |Final(input).queues|
    ensures var a, b := Canonical(input.queues)[i], Canonical(input.queues)[j];
            Slots(GrantsTo(Final(input).visits, i)) - Slots(GrantsTo(Final(input).visits, j))
              < (a.deficit - b.deficit) + a.Quantum() + largest
  {
    DecideAudited(input);
    VisitsEven(input, i, j);
    var a, b := Canonical(input.queues)[i], Canonical(input.queues)[j];
    var st := Final(input);
    assert Balanced(a, st.queues[i], st.visits, i) && Balanced(b, st.queues[j], st.visits, j);
    QuantumGap(a.Quantum(), VisitsTo(st.visits, i), VisitsTo(st.visits, j));
  }

  lemma QuantumGap(q: int, m: int, n: int)
    requires q >= 1 && m <= n + 1
    ensures q * m <= q * n + q
  {
    OneMoreQuantum(q, n);
    if m < n + 1 { assert q * (n + 1 - m) >= 0; }
  }

  // --------------------------------------------------------------- work conservation

  /** Nothing more can be granted from this queue: it is empty, or its head exceeds the deficit or the
      free slots. */
  predicate Blocked(q: Queue, remaining: int) {
    q.candidates == [] || q.candidates[0].cost > q.deficit || q.candidates[0].cost > remaining
  }

  /** A visit ends only when the queue is blocked or the batch is full. */
  lemma {:induction false} ServeStops(q: Queue, remaining: int, room: nat)
    requires Serve(q, remaining, room).Ok?
    ensures var s := Serve(q, remaining, room).value; |s.granted| == room || Blocked(s.queue, s.remaining)
    decreases room
  {
    var s := Serve(q, remaining, room).value;
    if s.granted != [] {
      var c := q.candidates[0];
      ServeStops(q.(deficit := q.deficit - c.cost, candidates := q.candidates[1..]), remaining - c.cost, room - 1);
    }
  }

  /** The queue visited `d` visits before the cursor. */
  function Ago(cursor: nat, d: nat, n: nat): nat
    requires cursor < n && 1 <= d <= n
  {
    if d <= cursor then cursor - d else cursor + n - d
  }

  /** Every queue visited since the last grant is blocked. */
  ghost predicate IdleBlocked(st: Drr) {
    && st.cursor < |st.queues| && st.idle <= |st.queues|
    && forall d :: 1 <= d <= st.idle ==> Blocked(st.queues[Ago(st.cursor, d, |st.queues|)], st.remaining)
  }

  lemma RoundBlocked(st: Drr, limit: int)
    requires IdleBlocked(st) && st.Running(limit) && Round(st, limit).Ok?
    ensures IdleBlocked(Round(st, limit).value)
  {
    hide Serve;
    var r, n := Round(st, limit).value, |st.queues|;
    var q := st.queues[st.cursor];
    if q.candidates != [] {
      var paid := q.(deficit := q.deficit + q.Quantum());
      ServeStops(paid, st.remaining, limit - |st.grants|);
      ServeTakesPrefix(paid, st.remaining, limit - |st.grants|);
    }
    forall d | 1 <= d <= r.idle ensures Blocked(r.queues[Ago(r.cursor, d, n)], r.remaining) {
      if d == 1 {
        assert Ago(r.cursor, d, n) == st.cursor;
      } else {
        assert Ago(r.cursor, d, n) == Ago(st.cursor, d - 1, n) != st.cursor;
      }
    }
  }

  lemma {:induction false} LoopBlocked(st: Drr, limit: int)
    requires IdleBlocked(st) && st.remaining >= 0 && Loop(st, limit).Ok?
    ensures IdleBlocked(Loop(st, limit).value) && !Loop(st, limit).value.Running(limit)
    decreases st.remaining, |st.queues| - st.idle
  {
    hide Round, IdleBlocked;
    assert st.cursor < |st.queues| && st.idle <= |st.queues| by { IdleBounds(st); }
    if st.Running(limit) {
      RoundBlocked(st, limit);
      LoopBlocked(Round(st, limit).value, limit);
    }
  }

  lemma IdleBounds(st: Drr)
    requires IdleBlocked(st)
    ensures st.cursor < |st.queues| && st.idle <= |st.queues|
  {
  }

  /** Work conservation: a decision that leaves slots free and the batch unfilled has left no queue
      whose head it could still grant. */
  lemma WorkConserving(input: Snapshot, i: nat)
    requires Decide(input).Ok? && i < |Final(input).queues|
    requires |Decide(input).value.grants| < input.batchLimit && Slots(Decide(input).value.grants) < input.workerSlots
    ensures Blocked(Final(input).queues[i], input.workerSlots - Slots(Decide(input).value.grants))
  {
    hide Canonical, Loop, Blocked;
    DecideAudited(input);
    var st := Final(input);
    assert Slots([]) == 0;
    if input.workerSlots > 0 {
      LoopBlocked(Start(Canonical(input.queues), input), input.batchLimit);
      var n := |st.queues|;
      assert st.idle == n;
      var d := if i < st.cursor then st.cursor - i else st.cursor + n - i;
      assert Ago(st.cursor, d, n) == i;
    }
  }

  // ------------------------------------------------------- input order is immaterial

  ghost predicate DistinctJobs(q: Queue) {
    forall i, j :: 0 <= i < |q.candidates| && 0 <= j < |q.candidates| && q.candidates[i].job == q.candidates[j].job
      ==> q.candidates[i] == q.candidates[j]
  }

  ghost predicate DistinctQueues(queues: seq<Queue>) {
    forall i, j ::
      0 <= i < |queues| && 0 <= j < |queues| && queues[i].tenant == queues[j].tenant && queues[i].name == queues[j].name
      ==> queues[i] == queues[j]
  }

  /** The same queue, its candidates in another order. */
  ghost predicate Reordered(a: Queue, b: Queue) {
    multiset(a.candidates) == multiset(b.candidates) && a == b.(candidates := a.candidates)
  }

  lemma SortQueueReordered(a: Queue, b: Queue)
    requires Reordered(a, b) && DistinctJobs(a)
    ensures SortQueue(a) == SortQueue(b)
  {
    assert Injective(a.candidates, CandidateKey) by {
      forall i, j | 0 <= i < |a.candidates| && 0 <= j < |a.candidates|
          && CandidateKey(a.candidates[i]) == CandidateKey(a.candidates[j])
        ensures a.candidates[i] == a.candidates[j]
      {
        CandidateKeyOrder(a.candidates[i], a.candidates[j]);
      }
    }
    SortPermuted(a.candidates, b.candidates, CandidateKey);
  }

  /** The canonical form does not depend on the order in which queues and candidates are presented. */
  lemma CanonicalPermuted(a: seq<Queue>, b: seq<Queue>, c: seq<Queue>)
    requires |a| == |b| && (forall i :: 0 <= i < |a| ==> Reordered(a[i], b[i]) && DistinctJobs(a[i]))
    requires multiset(b) == multiset(c) && DistinctQueues(a)
    ensures Canonical(a) == Canonical(c)
  {
    forall i | 0 <= i < |a| ensures SortEach(a)[i] == SortEach(b)[i] {
      SortQueueReordered(a[i], b[i]);
    }
    assert SortEach(a) == SortEach(b);
    SortEachPermuted(b, c);
    var s := SortEach(a);
    assert Injective(s, QueueKey) by {
      forall i, j | 0 <= i < |s| && 0 <= j < |s| && QueueKey(s[i]) == QueueKey(s[j]) ensures s[i] == s[j] {
        QueueKeyOrder(s[i], s[j]);
        assert s[i] == SortQueue(a[i]) && s[j] == SortQueue(a[j]);
      }
    }
    SortPermuted(s, SortEach(c), QueueKey);
  }

  /** So a decision does not depend on the order of queues or candidates in its input. */
  lemma DecidePermuted(input: Snapshot, b: seq<Queue>, c: seq<Queue>)
    requires |input.queues| == |b|
    requires (forall i :: 0 <= i < |b| ==> Reordered(input.queues[i], b[i]) && DistinctJobs(input.queues[i]))
    requires multiset(b) == multiset(c) && DistinctQueues(input.queues)
    ensures Decide(input.(queues := c)) == Decide(input)
  {
    hide Canonical, Loop, Reordered, DistinctJobs, DistinctQueues;
    CanonicalPermuted(input.queues, b, c);
  }

  lemma {:induction false} SortEachPermuted(b: seq<Queue>, c: seq<Queue>)
    requires multiset(b) == multiset(c)
    ensures multiset(SortEach(b)) == multiset(SortEach(c))
  {
    if b == [] {
      assert |multiset(c)| == 0;
      assert c == [];
    } else {
      var x := b[|b| - 1];
      assert b == b[..|b| - 1] + [x];
      assert x in multiset(c);
      var k :| 0 <= k < |c| && c[k] == x;
      var c' := c[..k] + c[k + 1..];
      assert c == c[..k] + ([x] + c[k + 1..]);
      assert multiset(c') == multiset(c) - multiset{x};
      assert multiset(b[..|b| - 1]) == multiset(b) - multiset{x};
      SortEachPermuted(b[..|b| - 1], c');
      SortEachSplit(b[..|b| - 1], [x]);
      SortEachSplit(c[..k], [x] + c[k + 1..]);
      SortEachSplit([x], c[k + 1..]);
      SortEachSplit(c[..k], c[k + 1..]);
    }
  }

  lemma SortEachSplit(a: seq<Queue>, b: seq<Queue>)
    ensures SortEach(a + b) == SortEach(a) + SortEach(b)
  {
  }

  /** Canonicalising twice changes nothing. */
  lemma CanonicalIdempotent(queues: seq<Queue>)
    ensures Canonical(Canonical(queues)) == Canonical(queues)
  {
    var c := Canonical(queues);
    SortOrders(SortEach(queues), QueueKey);
    forall i | 0 <= i < |c| ensures SortQueue(c[i]) == c[i] {
      assert c[i] in multiset(c);
      assert c[i] in multiset(SortEach(queues));
      var k :| 0 <= k < |queues| && c[i] == SortQueue(queues[k]);
      SortOrders(queues[k].candidates, CandidateKey);
      SortFixed(c[i].candidates, CandidateKey);
    }
    assert SortEach(c) == c;
    SortFixed(c, QueueKey);
  }

  /** The canonical form of a snapshot decides exactly as the snapshot itself. */
  lemma DecideCanonical(input: Snapshot)
    ensures Decide(CanonicalSnapshot(input)) == Decide(input)
    ensures CanonicalSnapshot(CanonicalSnapshot(input)) == CanonicalSnapshot(input)
  {
    CanonicalIdempotent(input.queues);
    var c := CanonicalSnapshot(input);
    var q0 := Canonical(input.queues);
    assert c.queues == q0 && Canonical(c.queues) == q0;
    assert Precheck(c) == Precheck(input);
    if Precheck(input).Pass? {
      assert Outcome(q0, c) == Outcome(q0, input);
    }
  }

  // ------------------------------------------------------------------ the cut

  /** A queue holding only a prefix of the candidates, yet enough to fill the batch. */
  ghost predicate CutQueue(full: Queue, cut: Queue, room: int) {
    && cut == full.(candidates := cut.candidates)
    && cut.candidates <= full.candidates
    && (cut.candidates == full.candidates || |cut.candidates| >= room)
  }

  ghost predicate CutState(full: Drr, cut: Drr, limit: int) {
    && cut == full.(queues := cut.queues)
    && |cut.queues| == |full.queues|
    && forall i :: 0 <= i < |full.queues| ==> CutQueue(full.queues[i], cut.queues[i], limit - |full.grants|)
  }

  lemma {:induction false} ServeCut(full: Queue, cut: Queue, remaining: int, room: nat)
    requires CutQueue(full, cut, room)
    ensures var a, b := Serve(full, remaining, room), Serve(cut, remaining, room);
            if a.Err? then b == a else
            && b.Ok? && b.value == a.value.(queue := b.value.queue)
            && CutQueue(a.value.queue, b.value.queue, room - |a.value.granted|)
    decreases room
  {
    if full.candidates != [] && room > 0 {
      var c := full.candidates[0];
      assert cut.candidates[0] == c;
      if 1 <= c.cost <= full.deficit && c.cost <= remaining {
        ServeCut(full.(deficit := full.deficit - c.cost, candidates := full.candidates[1..]),
                 cut.(deficit := cut.deficit - c.cost, candidates := cut.candidates[1..]),
                 remaining - c.cost, room - 1);
      }
    }
  }

  lemma RoundCut(full: Drr, cut: Drr, limit: int)
    requires CutState(full, cut, limit)
    requires full.cursor < |full.queues| && full.Running(limit)
    ensures var a, b := Round(full, limit), Round(cut, limit);
            if a.Err? then b == a else b.Ok? && CutState(a.value, b.value, limit)
  {
    hide Serve, CutQueue;
    var q, c := full.queues[full.cursor], cut.queues[full.cursor];
    var room := limit - |full.grants|;
    assert CutQueue(q, c, room);
    CutHead(q, c, room);
    if q.candidates != [] {
      ServeCut(q.(deficit := q.deficit + q.Quantum()), c.(deficit := c.deficit + c.Quantum()), full.remaining, room);
      var a, b := Round(full, limit), Round(cut, limit);
      if a.Ok? {
        forall i | 0 <= i < |full.queues|
          ensures CutQueue(a.value.queues[i], b.value.queues[i], limit - |a.value.grants|)
        {
          if i != full.cursor { CutLater(full.queues[i], cut.queues[i], room, limit - |a.value.grants|); }
        }
      }
    }
  }

  lemma CutHead(q: Queue, c: Queue, room: int)
    requires CutQueue(q, c, room) && room > 0
    ensures (q.candidates == [] <==> c.candidates == []) && c.Quantum() == q.Quantum()
    ensures CutQueue(q.(deficit := q.deficit + q.Quantum()), c.(deficit := c.deficit + c.Quantum()), room)
  {
  }

  lemma CutLater(q: Queue, c: Queue, room: int, less: int)
    requires CutQueue(q, c, room) && less <= room
    ensures CutQueue(q, c, less)
  {
  }

  lemma {:induction false} LoopCut(full: Drr, cut: Drr, limit: int)
    requires CutState(full, cut, limit)
    requires full.cursor < |full.queues| && full.remaining >= 0
    ensures var a, b := Loop(full, limit), Loop(cut, limit);
            if a.Err? then b == a else b.Ok? && CutState(a.value, b.value, limit)
    decreases full.remaining, |full.queues| - full.idle
  {
    if full.Running(limit) {
      RoundCut(full, cut, limit);
      if Round(full, limit).Ok? {
        LoopCut(Round(full, limit).value, Round(cut, limit).value, limit);
      }
    }
  }

  /** LIMIT on each partition: only the first `limit` candidates of a queue in rank order. */
  function CutEach(queues: seq<Queue>, limit: int): (r: seq<Queue>)
    ensures |r| == |queues|
    ensures forall i :: 0 <= i < |r| ==> r[i] == queues[i].(candidates := Take(queues[i].candidates, limit))
  {
    seq(|queues|, i requires 0 <= i < |queues| => queues[i].(candidates := Take(queues[i].candidates, limit)))
  }

  /** Showing the scheduler only the best `batchLimit` candidates of each queue does not change
      its decision. */
  lemma CutPreservesDecision(input: Snapshot)
    ensures Decide(input.(queues := CutEach(Canonical(input.queues), input.batchLimit))) == Decide(input)
  {
    var q0 := Canonical(input.queues);
    CutIsCanonical(input.queues, input.batchLimit);
    CutDecision(q0, input, input.(queues := CutEach(q0, input.batchLimit)));
  }

  lemma CutDecision(q0: seq<Queue>, input: Snapshot, cut: Snapshot)
    requires Canonical(input.queues) == q0
    requires cut == input.(queues := CutEach(q0, input.batchLimit)) && Canonical(cut.queues) == cut.queues
    ensures Decide(cut) == Decide(input)
  {
    assert Precheck(cut) == Precheck(input);
    if Precheck(input).Pass? {
      CutOutcome(q0, input, cut);
      DecideReports(input, q0);
      DecideReports(cut, cut.queues);
      SameReport(input.sequence, Outcome(q0, input), Outcome(cut.queues, cut));
    }
  }

  lemma DecideReports(input: Snapshot, q0: seq<Queue>)
    requires Precheck(input).Pass? && Canonical(input.queues) == q0
    ensures Decide(input) == Report(input.sequence, Outcome(q0, input))
  {
  }

  lemma SameReport(sequence: int, a: Result<Drr, Error>, b: Result<Drr, Error>)
    requires if a.Err? then b == a else
             && b.Ok? && b.value == a.value.(queues := b.value.queues)
             && States(a.value.queues) == States(b.value.queues)
    ensures Report(sequence, a) == Report(sequence, b)
  {
  }

  lemma CutOutcome(q0: seq<Queue>, input: Snapshot, cut: Snapshot)
    requires Precheck(input).Pass? && cut == input.(queues := CutEach(q0, input.batchLimit))
    ensures var a, b := Outcome(q0, input), Outcome(cut.queues, cut);
            if a.Err? then b == a else
            && b.Ok? && b.value == a.value.(queues := b.value.queues)
            && States(a.value.queues) == States(b.value.queues)
  {
    if !(|q0| == 0 || input.workerSlots == 0 || input.batchLimit == 0) {
      LoopCut(Start(q0, input), Start(cut.queues, cut), input.batchLimit);
    }
    var a, b := Outcome(q0, input), Outcome(cut.queues, cut);
    if a.Ok? {
      assert States(a.value.queues) == States(b.value.queues);
    }
  }

  lemma CutIsCanonical(queues: seq<Queue>, limit: int)
    ensures Canonical(CutEach(Canonical(queues), limit)) == CutEach(Canonical(queues), limit)
  {
    var q0 := Canonical(queues);
    var cut := CutEach(q0, limit);
    CanonicalIdempotent(queues);
    CanonicalSorted(queues);
    forall i | 0 <= i < |cut| ensures SortQueue(cut[i]) == cut[i] {
      assert cut[i].candidates <= q0[i].candidates;
      SortFixed(cut[i].candidates, CandidateKey);
    }
    assert SortEach(cut) == cut;
    SortFixed(cut, QueueKey);
  }

  lemma CanonicalSorted(queues: seq<Queue>)
    ensures Ordered(Canonical(queues), QueueKey)
    ensures forall i :: 0 <= i < |Canonical(queues)| ==> Ordered(Canonical(queues)[i].candidates, CandidateKey)
  {
    var c := Canonical(queues);
    SortOrders(SortEach(queues), QueueKey);
    forall i | 0 <= i < |c| ensures Ordered(c[i].candidates, CandidateKey) {
      assert c[i] in multiset(c);
      assert c[i] in multiset(SortEach(queues));
      var k :| 0 <= k < |queues| && c[i] == SortQueue(queues[k]);
      SortOrders(queues[k].candidates, CandidateKey);
    }
  }
}
