/** Deficit round robin over the ready queues (internal/scheduler/scheduler.go). */
module Scheduler {
  import opened Ordering
  import opened Wrappers

  const ALGORITHM := "drr-v1"

  datatype Candidate = Candidate(
    job: string, tenant: string, queue: string,
    priority: int, readySeq: int, cost: int, recovery: bool)

  datatype Queue = Queue(
    tenant: string, name: string, weight: int, deficit: int, candidates: seq<Candidate>)
  {
    function Quantum(): (q: int)
      ensures q >= 1
    {
      if weight < 1 then 1 else weight
    }
  }

  datatype Snapshot = Snapshot(
    sequence: int, time: int, workerSlots: int, batchLimit: int, cursor: int,
    queues: seq<Queue>, config: string, algorithm: string)

  datatype Grant = Grant(job: string, tenant: string, queue: string, cost: int)

  datatype QueueState = QueueState(tenant: string, queue: string, deficit: int)

  datatype Decision = Decision(
    sequence: int, grants: seq<Grant>, queues: seq<QueueState>, nextCursor: int)

  datatype Error =
    | NegativeSlots
    | NegativeLimit
    | UnsupportedAlgorithm(name: string)
    | InvalidCost(job: string, cost: int)

  // ------------------------------------------------------------------- sorting

  /** The comparator of the candidate sort: recovered jobs first, then priority,
      then the order in which jobs became ready, then the job ID. */
  predicate CandidateBefore(a: Candidate, b: Candidate) {
    if a.recovery != b.recovery then a.recovery
    else if a.priority != b.priority then a.priority > b.priority
    else if a.readySeq != b.readySeq then a.readySeq < b.readySeq
    else Less(Text(a.job), Text(b.job))
  }

  /** The comparator of the queue sort. */
  predicate QueueBefore(a: Queue, b: Queue) {
    if a.tenant != b.tenant then Less(Text(a.tenant), Text(b.tenant))
    else Less(Text(a.name), Text(b.name))
  }

  function RankKey(recovery: bool, priority: int, readySeq: int, job: string): Key {
    [if recovery then 0 else 1, -priority, readySeq] + Text(job)
  }

  function CandidateKey(c: Candidate): Key {
    RankKey(c.recovery, c.priority, c.readySeq, c.job)
  }

  /** Tenant, a separator below every character, queue name. */
  function PairKey(tenant: string, name: string): Key {
    Text(tenant) + ([-1] + Text(name))
  }

  function QueueKey(q: Queue): Key {
    PairKey(q.tenant, q.name)
  }

  /** The flattened key orders candidates exactly as the comparator does. */
  lemma CandidateKeyOrder(a: Candidate, b: Candidate)
    ensures Less(CandidateKey(a), CandidateKey(b)) <==> CandidateBefore(a, b)
    ensures CandidateKey(a) == CandidateKey(b) ==> a.job == b.job
  {
    hide Less, Text;
    var ra, rb := if a.recovery then 0 else 1, if b.recovery then 0 else 1;
    assert CandidateKey(a) == [ra] + ([-a.priority] + ([a.readySeq] + Text(a.job)));
    assert CandidateKey(b) == [rb] + ([-b.priority] + ([b.readySeq] + Text(b.job)));
    FirstDecides(ra, [-a.priority] + ([a.readySeq] + Text(a.job)), rb, [-b.priority] + ([b.readySeq] + Text(b.job)));
    FirstDecides(-a.priority, [a.readySeq] + Text(a.job), -b.priority, [b.readySeq] + Text(b.job));
    FirstDecides(a.readySeq, Text(a.job), b.readySeq, Text(b.job));
    TextInjective(a.job, b.job);
  }

  lemma FirstDecides(x: int, a: Key, y: int, b: Key)
    ensures Less([x] + a, [y] + b) <==> if x == y then Less(a, b) else x < y
    ensures [x] + a == [y] + b <==> x == y && a == b
  {
    assert ([x] + a)[1..] == a && ([y] + b)[1..] == b;
    assert ([x] + a)[0] == x && ([y] + b)[0] == y;
  }

  lemma {:induction false} SeparatedOrder(a: string, b: string, x: Key, y: Key)
    ensures Less(Text(a) + ([-1] + x), Text(b) + ([-1] + y))
       <==> if a == b then Less(x, y) else Less(Text(a), Text(b))
    ensures Text(a) + ([-1] + x) == Text(b) + ([-1] + y) <==> a == b && x == y
  {
    hide Less, Text;
    EmptyText(x, y);
    if a != "" { TextHead(a, [-1] + x); }
    if b != "" { TextHead(b, [-1] + y); }
    if a != "" && b != "" {
      SeparatedOrder(a[1..], b[1..], x, y);
      assert a == [a[0]] + a[1..] && b == [b[0]] + b[1..];
      FirstDecides(a[0] as int, Text(a[1..]) + ([-1] + x), b[0] as int, Text(b[1..]) + ([-1] + y));
      FirstDecides(a[0] as int, Text(a[1..]), b[0] as int, Text(b[1..]));
    } else if a != "" {
      FirstDecides(a[0] as int, Text(a[1..]) + ([-1] + x), -1, y);
      FirstDecides(a[0] as int, Text(a[1..]), -1, y);
      LessEmpty(Text(a));
    } else if b != "" {
      FirstDecides(-1, x, b[0] as int, Text(b[1..]) + ([-1] + y));
      LessEmpty(Text(b));
    } else {
      FirstDecides(-1, x, -1, y);
    }
  }

  lemma EmptyText(x: Key, y: Key)
    ensures Text("") + ([-1] + x) == [-1] + x && Text("") + ([-1] + y) == [-1] + y && Text("") == []
  {
  }

  lemma TextHead(a: string, rest: Key)
    requires a != ""
    ensures Text(a) == [a[0] as int] + Text(a[1..]) && Text(a) + rest == [a[0] as int] + (Text(a[1..]) + rest)
  {
  }

  lemma LessEmpty(k: Key)
    requires k != []
    ensures Less([], k) && !Less(k, [])
  {
  }

  lemma PairKeyOrder(t1: string, n1: string, t2: string, n2: string)
    ensures Less(PairKey(t1, n1), PairKey(t2, n2))
       <==> if t1 != t2 then Less(Text(t1), Text(t2)) else Less(Text(n1), Text(n2))
    ensures PairKey(t1, n1) == PairKey(t2, n2) <==> t1 == t2 && n1 == n2
  {
    SeparatedOrder(t1, t2, Text(n1), Text(n2));
    TextInjective(n1, n2);
  }

  lemma QueueKeyOrder(a: Queue, b: Queue)
    ensures Less(QueueKey(a), QueueKey(b)) <==> QueueBefore(a, b)
    ensures QueueKey(a) == QueueKey(b) <==> a.tenant == b.tenant && a.name == b.name
  {
    PairKeyOrder(a.tenant, a.name, b.tenant, b.name);
  }

  function SortQueue(q: Queue): Queue {
    q.(candidates := Sort(q.candidates, CandidateKey))
  }

  function SortEach(queues: seq<Queue>): (r: seq<Queue>)
    ensures |r| == |queues|
    ensures forall i :: 0 <= i < |r| ==> r[i] == SortQueue(queues[i])
  {
    seq(|queues|, i requires 0 <= i < |queues| => SortQueue(queues[i]))
  }

  /** cloneAndSort as a function. */
  function Canonical(queues: seq<Queue>): seq<Queue> {
    Sort(SortEach(queues), QueueKey)
  }

  function CanonicalSnapshot(input: Snapshot): Snapshot {
    input.(queues := Canonical(input.queues),
           algorithm := if input.algorithm == "" then ALGORITHM else input.algorithm)
  }

  method CloneAndSort(input: seq<Queue>) returns (queues: seq<Queue>)
    ensures queues == Canonical(input)
    ensures forall q :: q in queues ==> Ordered(q.candidates, CandidateKey)
    ensures Ordered(queues, QueueKey)
  {
    queues := [];
    for n := 0 to |input|
      invariant |queues| == n
      invariant forall i :: 0 <= i < n ==> queues[i] == SortQueue(input[i])
    {
      var sorted := SortInto(input[n].candidates, CandidateKey);
      queues := queues + [input[n].(candidates := sorted)];
    }
    assert queues == SortEach(input);
    queues := SortInto(queues, QueueKey);
    forall q | q in queues ensures Ordered(q.candidates, CandidateKey) {
      SortedMember(input, q);
    }
  }

  lemma SortedMember(input: seq<Queue>, q: Queue)
    requires q in Canonical(input)
    ensures Ordered(q.candidates, CandidateKey)
  {
    assert q in multiset(Canonical(input));
    assert q in SortEach(input);
    var i :| 0 <= i < |input| && q == SortQueue(input[i]);
    SortOrders(input[i].candidates, CandidateKey);
  }

  // --------------------------------------------------------------- one decision

  /** What one visit to a queue leaves behind. */
  datatype Served = Served(queue: Queue, remaining: int, granted: seq<Grant>)

  function GrantOf(c: Candidate): Grant {
    Grant(c.job, c.tenant, c.queue, c.cost)
  }

  function Prepend(g: seq<Grant>, r: Result<Served, Error>): Result<Served, Error> {
    if r.Ok? then Ok(r.value.(granted := g + r.value.granted)) else r
  }

  /** Serves the head of a queue while its deficit, the free slots and the batch allow. */
  function Serve(q: Queue, remaining: int, room: nat): (r: Result<Served, Error>)
    ensures r.Ok? && remaining >= 0 ==> 0 <= r.value.remaining <= remaining
    ensures r.Ok? && r.value.granted != [] ==> r.value.remaining < remaining
    ensures r.Ok? ==> |r.value.granted| <= room
    decreases room
  {
    if q.candidates == [] || room == 0 then Ok(Served(q, remaining, []))
    else
      var c := q.candidates[0];
      if c.cost < 1 then Err(InvalidCost(c.job, c.cost))
      else if c.cost > q.deficit || c.cost > remaining then Ok(Served(q, remaining, []))
      else
        Prepend([GrantOf(c)],
          Serve(q.(deficit := q.deficit - c.cost, candidates := q.candidates[1..]), remaining - c.cost, room - 1))
  }

  /** One visit of the round-robin loop, kept as history. */
  datatype Visit = Visit(index: nat, nonempty: bool, granted: seq<Grant>)

  /** The loop state of Decide; `visits` records how it came about. */
  datatype Drr = Drr(
    queues: seq<Queue>, cursor: nat, remaining: int, grants: seq<Grant>, idle: nat, visits: seq<Visit>)
  {
    predicate Running(limit: int) {
      |grants| < limit && remaining > 0 && idle < |queues|
    }
  }

  function NextCursor(cursor: nat, n: nat): (r: nat)
    requires cursor < n
    ensures r < n && r == (cursor + 1) % n
  {
    if cursor + 1 == n then 0 else cursor + 1
  }

  function Round(st: Drr, limit: int): (r: Result<Drr, Error>)
    requires st.cursor < |st.queues| && st.Running(limit)
    ensures r.Ok? ==> |r.value.queues| == |st.queues| && r.value.cursor < |st.queues|
    ensures r.Ok? ==> 0 <= r.value.remaining <= st.remaining && |r.value.grants| <= limit
    ensures r.Ok? ==> r.value.remaining < st.remaining || r.value.idle == st.idle + 1
  {
    var q := st.queues[st.cursor];
    var next := st.(cursor := NextCursor(st.cursor, |st.queues|));
    if q.candidates == [] then
      Ok(next.(idle := st.idle + 1, visits := st.visits + [Visit(st.cursor, false, [])]))
    else
      var served :- Serve(q.(deficit := q.deficit + q.Quantum()), st.remaining, limit - |st.grants|);
      Ok(next.(
         queues := st.queues[st.cursor := served.queue],
         remaining := served.remaining,
         grants := st.grants + served.granted,
         idle := if served.granted == [] then st.idle + 1 else 0,
         visits := st.visits + [Visit(st.cursor, true, served.granted)]))
  }

  function Loop(st: Drr, limit: int): (r: Result<Drr, Error>)
    requires st.cursor < |st.queues| && st.remaining >= 0
    decreases st.remaining, |st.queues| - st.idle
  {
    if st.Running(limit) then
      var next :- Round(st, limit);
      Loop(next, limit)
    else Ok(st)
  }

  function States(queues: seq<Queue>): (r: seq<QueueState>)
    ensures |r| == |queues|
    ensures forall i :: 0 <= i < |r| ==> r[i] == QueueState(queues[i].tenant, queues[i].name, queues[i].deficit)
  {
    seq(|queues|, i requires 0 <= i < |queues| => QueueState(queues[i].tenant, queues[i].name, queues[i].deficit))
  }

  function StartCursor(cursor: int, n: nat): (r: nat)
    requires n > 0
    ensures r < n
  {
    (if cursor < 0 then 0 else cursor) % n
  }

  function Start(queues: seq<Queue>, input: Snapshot): (st: Drr)
    requires |queues| > 0
    ensures st.cursor < |st.queues|
  {
    Drr(queues, StartCursor(input.cursor, |queues|), input.workerSlots, [], 0, [])
  }

  /** The final loop state of a decision over already sorted queues. */
  function Outcome(queues: seq<Queue>, input: Snapshot): Result<Drr, Error>
    requires input.workerSlots >= 0
  {
    if |queues| == 0 || input.workerSlots == 0 || input.batchLimit == 0
    then Ok(Drr(queues, 0, input.workerSlots, [], 0, []))
    else Loop(Start(queues, input), input.batchLimit)
  }

  function Precheck(input: Snapshot): Check<Error> {
    if input.workerSlots < 0 then Fail(NegativeSlots)
    else if input.batchLimit < 0 then Fail(NegativeLimit)
    else if input.algorithm != "" && input.algorithm != ALGORITHM then Fail(UnsupportedAlgorithm(input.algorithm))
    else Pass
  }

  /** buildDecision. */
  function Report(sequence: int, st: Result<Drr, Error>): Result<Decision, Error> {
    if st.Err? then Err(st.error)
    else Ok(Decision(sequence, st.value.grants, States(st.value.queues), st.value.cursor))
  }

  function Decide(input: Snapshot): Result<Decision, Error> {
    if Precheck(input).Fail? then Err(Precheck(input).error)
    else Report(input.sequence, Outcome(Canonical(input.queues), input))
  }

  // ---------------------------------------------------------------- as code

  lemma PrependLaws(a: seq<Grant>, b: seq<Grant>, r: Result<Served, Error>)
    ensures Prepend([], r) == r
    ensures Prepend(a, Prepend(b, r)) == Prepend(a + b, r)
  {
    if r.Ok? {
      assert [] + r.value.granted == r.value.granted;
      assert a + (b + r.value.granted) == (a + b) + r.value.granted;
    }
  }

  /** The inner loop of Decide. */
  method ServeQueue(q: Queue, slots: int, room: nat) returns (r: Result<Served, Error>)
    ensures r == Serve(q, slots, room)
  {
    var queue, remaining, granted := q, slots, [];
    PrependLaws([], [], Serve(q, slots, room));
    while |queue.candidates| > 0 && |granted| < room
      invariant |granted| <= room
      invariant Serve(q, slots, room) == Prepend(granted, Serve(queue, remaining, room - |granted|))
      decreases |queue.candidates|
    {
      var candidate := queue.candidates[0];
      if candidate.cost < 1 {
        return Err(InvalidCost(candidate.job, candidate.cost));
      }
      if candidate.cost > queue.deficit || candidate.cost > remaining { break; }
      ghost var before := granted;
      granted := granted + [GrantOf(candidate)];
      queue := queue.(deficit := queue.deficit - candidate.cost, candidates := queue.candidates[1..]);
      remaining := remaining - candidate.cost;
      PrependLaws(before, [GrantOf(candidate)], Serve(queue, remaining, room - |granted|));
    }
    assert granted + [] == granted;
    r := Ok(Served(queue, remaining, granted));
  }

  /** The outer loop of Decide. */
  method RunLoop(start: Drr, limit: int) returns (r: Result<Drr, Error>)
    requires start.cursor < |start.queues| && start.remaining >= 0
    ensures r == Loop(start, limit)
  {
    hide Loop, Serve;
    var queues, grants, visits := start.queues, start.grants, start.visits;
    var cursor: nat, idle: nat, remaining := start.cursor, start.idle, start.remaining;
    while |grants| < limit && remaining > 0 && idle < |queues|
      invariant cursor < |queues| && 0 <= remaining
      invariant Loop(Drr(queues, cursor, remaining, grants, idle, visits), limit) == Loop(start, limit)
      decreases remaining, |queues| - idle
    {
      LoopUnfolds(Drr(queues, cursor, remaining, grants, idle, visits), limit);
      var index := cursor;
      var queue := queues[index];
      cursor := (cursor + 1) % |queues|;
      if |queue.candidates| == 0 {
        idle, visits := idle + 1, visits + [Visit(index, false, [])];
      } else {
        queue := queue.(deficit := queue.deficit + queue.Quantum());
        var served := ServeQueue(queue, remaining, limit - |grants|);
        if served.Err? { return Err(served.error); }
        queues := queues[index := served.value.queue];
        remaining := served.value.remaining;
        grants := grants + served.value.granted;
        idle := if served.value.granted == [] then idle + 1 else 0;
        visits := visits + [Visit(index, true, served.value.granted)];
      }
    }
    LoopUnfolds(Drr(queues, cursor, remaining, grants, idle, visits), limit);
    r := Ok(Drr(queues, cursor, remaining, grants, idle, visits));
  }

  lemma LoopUnfolds(st: Drr, limit: int)
    requires st.cursor < |st.queues| && st.remaining >= 0
    ensures !st.Running(limit) ==> Loop(st, limit) == Ok(st)
    ensures st.Running(limit) ==>
      Loop(st, limit) == if Round(st, limit).Ok? then Loop(Round(st, limit).value, limit) else Err(Round(st, limit).error)
  {
    hide Round;
  }

  /** Decide as code; it computes the function above. */
  method RunDecide(input: Snapshot) returns (r: Result<Decision, Error>)
    ensures r == Decide(input)
  {
    if input.workerSlots < 0 { return Err(NegativeSlots); }
    if input.batchLimit < 0 { return Err(NegativeLimit); }
    if input.algorithm != "" && input.algorithm != ALGORITHM {
      return Err(UnsupportedAlgorithm(input.algorithm));
    }
    var queues := CloneAndSort(input.queues);
    if |queues| == 0 || input.workerSlots == 0 || input.batchLimit == 0 {
      return Ok(Decision(input.sequence, [], States(queues), 0));
    }
    var final := RunLoop(Start(queues, input), input.batchLimit);
    if final.Err? { return Err(final.error); }
    r := Ok(Decision(input.sequence, final.value.grants, States(final.value.queues), final.value.cursor));
  }
}
