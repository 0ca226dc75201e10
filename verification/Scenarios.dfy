/** Concrete runs of the store on which a promise one might expect of it fails. */
module Scenarios {
  import opened Wrappers
  import opened Ordering
  import opened Graphs
  import opened Domain
  import opened Database
  import opened Transactions
  import opened Invariant
  import opened Planning
  import opened Acquisition
  import opened Maintenance
  import opened Runs
  import opened Effects
  import opened Oracle
  import opened OracleLaws
  import S = Scheduler
  import Traces
  import Histories
  import DecisionLog
  import Journal
  import Preservation

  // ------------------------------------------------------------------------- submissions

  const QUEUE := QueueId("t", "q")

  /** One attempt, one slot. */
  function Spec(parents: seq<string>): JobSpec {
    JobSpec("t", "q", 0, 1, Noop(0), RetryPolicy(1, true), parents, None)
  }

  function Row0(n: nat): Job {
    NewJob(Spec([]), 0, n, 0)
  }

  function Ask(id: string, parents: seq<string>): Submission {
    Submission(Spec(parents), id, "digest")
  }

  function Submitting(id: string, parents: seq<string>): Step {
    Step(Submit(Ask(id, parents), id), 0)
  }

  function Reply(id: string, n: nat): Request {
    Request(JobRequest, "digest", [Row(id, Row0(n))])
  }

  /** The tables after job "a" was submitted. */
  function OneJob(cfg: Config): Db {
    EMPTY.(
      jobs := map["a" := Row0(1)], events := [Event("a", Admitted, Pending, 1, 0)],
      tenants := map["t" := Tenant(cfg.defaultDepth, cfg.defaultSlots, 0)], queues := map[QUEUE := QueueRow(1, 0, 0)],
      readySeq := 1, requests := map[RequestKey("t", "a") := Reply("a", 1)])
  }

  /** And after job "b", which depends on it or not. */
  function TwoJobs(cfg: Config, dependent: bool): Db {
    var n := if dependent then 0 else 2;
    OneJob(cfg).(
      jobs := map["a" := Row0(1), "b" := Row0(n)], deps := if dependent then {Edge("b", "a")} else {},
      events := [Event("a", Admitted, Pending, 1, 0), Event("b", Admitted, Pending, 1, 0)],
      readySeq := if dependent then 1 else 2,
      requests := map[RequestKey("t", "a") := Reply("a", 1), RequestKey("t", "b") := Reply("b", n)])
  }

  lemma RunOn(cfg: Config, s: System, steps: seq<Step>, step: Step)
    ensures Run(cfg, s, steps + [step]) == Next(cfg, Run(cfg, s, steps), step)
  {
    hide Next;
    assert (steps + [step])[..|steps|] == steps;
  }

  lemma NotBlank(id: string)
    requires id == "a" || id == "b"
    ensures !Blank(id) && !Blank("digest")
  {
    assert id[0] in id && "digest"[0] in "digest";
  }

  /** A valid submission under a new key, step by step. */
  lemma Accepts(cfg: Config, db: Db, sub: Submission, id: string, now: int, queued: Db, job: Job)
    requires var spec := sub.spec.Normalize();
      && !Blank(sub.key) && !Blank(sub.digest) && RequestKey(spec.tenant, sub.key) !in db.requests
      && spec.Valid(cfg.maxCost, cfg.allowShell) && CheckDependencies(db, spec.tenant, spec.dependsOn).Ok?
      && EnsureAdmission(cfg, db, spec.tenant, 1).Ok? && job == SubmittedJob(db, spec, now)
      && queued == Stamp(EnsureQueue(EnsureAdmission(cfg, db, spec.tenant, 1).value, spec.tenant, spec.queue),
                         Transactions.AllSucceeded(db, spec.dependsOn) && AvailableAt(spec, now) <= now)
      && id != "" && id !in db.jobs && !job.state.Terminal() && queued.jobs == db.jobs
    ensures var spec := sub.spec.Normalize(); var k := RequestKey(spec.tenant, sub.key); var rows := [Row(id, job)];
      var admitted := Written(queued.(deps := queued.deps + EdgesTo(id, set d | d in spec.dependsOn)), id, job, Admitted, now);
      SubmitTx(cfg, db, sub, id, now)
        == Ok(Tx(admitted.(requests := admitted.requests[k := Request(JobRequest, sub.digest, rows)]), Accepted(rows, false)))
  {
    hide Blank, JobSpec.Valid, CheckDependencies, EnsureAdmission, EnsureQueue, Stamp, SubmittedJob,
      Transactions.AllSucceeded, Written, EdgesTo;
  }

  lemma NoParents(db: Db)
    ensures Transactions.AllSucceeded(db, []) && !Transactions.AnyFailed(db, []) && CheckDependencies(db, "t", []).Ok?
  {
  }

  lemma FirstSubmitted(cfg: Config)
    ensures SubmitTx(cfg, EMPTY, Ask("a", []), "a", 0) == Ok(Tx(OneJob(cfg), Accepted([Row("a", Row0(1))], false)))
  {
    hide Blank, SubmitTx, CheckDependencies, Transactions.AllSucceeded, Transactions.AnyFailed, Written, EdgesTo;
    NotBlank("a");
    NoParents(EMPTY);
    assert OpenJobs(EMPTY.jobs, "t") == {};
    var ready := OneJob(cfg).(jobs := map[], events := [], requests := map[]);
    Accepts(cfg, EMPTY, Ask("a", []), "a", 0, ready, Row0(1));
    FirstWritten(cfg);
  }

  lemma FirstWritten(cfg: Config)
    ensures var ready := OneJob(cfg).(jobs := map[], events := [], requests := map[]);
      Written(ready.(deps := ready.deps + EdgesTo("a", {})), "a", Row0(1), Admitted, 0) == OneJob(cfg).(requests := map[])
  {
  }

  lemma ParentKnown(cfg: Config)
    ensures CheckDependencies(OneJob(cfg), "t", ["a"]).Ok?
    ensures !Transactions.AllSucceeded(OneJob(cfg), ["a"]) && !Transactions.AnyFailed(OneJob(cfg), ["a"])
  {
    assert ["a"][..0] == [] && CheckDependencies(OneJob(cfg), "t", []).Ok?;
    assert "a" in ["a"];
  }

  function Parents(dependent: bool): seq<string> {
    if dependent then ["a"] else []
  }

  lemma SecondSubmitted(cfg: Config, dependent: bool)
    requires cfg.defaultDepth >= 2
    ensures SubmitTx(cfg, OneJob(cfg), Ask("b", Parents(dependent)), "b", 0)
         == Ok(Tx(TwoJobs(cfg, dependent), Accepted([Row("b", Row0(if dependent then 0 else 2))], false)))
  {
    hide Blank, SubmitTx, CheckDependencies, Transactions.AllSucceeded, Transactions.AnyFailed, Written, EdgesTo;
    NotBlank("b");
    NoParents(OneJob(cfg));
    ParentKnown(cfg);
    assert OpenJobs(OneJob(cfg).jobs, "t") == {"a"};
    var n := if dependent then 0 else 2;
    var ready := OneJob(cfg).(readySeq := if dependent then 1 else 2);
    Accepts(cfg, OneJob(cfg), Ask("b", Parents(dependent)), "b", 0, ready, Row0(n));
    SecondWritten(cfg, dependent);
  }

  lemma SecondWritten(cfg: Config, dependent: bool)
    ensures var ready, n := OneJob(cfg).(readySeq := if dependent then 1 else 2), if dependent then 0 else 2;
      Written(ready.(deps := ready.deps + EdgesTo("b", set d | d in Parents(dependent))), "b", Row0(n), Admitted, 0)
        == TwoJobs(cfg, dependent).(requests := OneJob(cfg).requests)
  {
    assert (set d | d in Parents(true)) == {"a"} && (set d | d in Parents(false)) == {};
    assert EdgesTo("b", {"a"}) == {Edge("b", "a")} && EdgesTo("b", {}) == {};
  }

  // ------------------------------------------------------------------ the blocked release

  const RELEASE := ControlCommand("b", ForceRelease, "stuck", "release", "digest")

  function Released(cfg: Config): Db {
    var db := TwoJobs(cfg, true);
    db.(jobs := db.jobs["b" := Row0(2).(version := 2)], readySeq := 2,
        events := db.events + [Event("b", OperatorRelease, Pending, 2, 0)],
        operations := map[OperationKey("t", RELEASE.action.Name(), "release")
                            := Operation("digest", Acted(ActionReceipt("b", Pending, 2, 0)))])
  }

  lemma ReleaseMoves(cfg: Config)
    ensures Controlled(TwoJobs(cfg, true), "b", RELEASE, 0) == Ok(Released(cfg).(operations := map[]))
  {
  }

  lemma ReleaseCommits(cfg: Config)
    ensures ControlTx(TwoJobs(cfg, true), RELEASE, 0).Ok? && ControlTx(TwoJobs(cfg, true), RELEASE, 0).value.db == Released(cfg)
  {
    hide Controlled;
    ReleaseMoves(cfg);
  }

  // ------------------------------------------------------------------------ the decisions

  lemma PairQuery<T(!new)>(s: set<T>, key: T -> Key, x: T, y: T)
    requires s == {x, y} && x != y && Less(key(x), key(y))
    ensures Query(s, key) == [x, y]
  {
    hide Sort, Listing;
    SortOrders(Listing(s), key);
    var rows := Query(s, key);
    assert x in rows && y in rows && |rows| == 2;
  }

  lemma SingleQuery<T(!new)>(s: set<T>, key: T -> Key, x: T)
    requires s == {x}
    ensures Query(s, key) == [x]
  {
    hide Sort, Listing;
    assert x in Query(s, key);
  }

  /** A ready job of one slot, the `n`-th to become ready. */
  predicate Offers(job: Job, n: nat) {
    && job.tenant == "t" && job.queue == "q" && job.priority == 0 && job.cost == 1 && !job.recovery
    && job.state.Pending? && job.readySeq == n && job.availableAt == 0
  }

  /** One queue with nothing leased yet. */
  ghost predicate Untouched(db: Db, slots: nat) {
    && db.queues == map[QUEUE := QueueRow(1, 0, 0)] && "t" in db.tenants && db.tenants["t"].maxSlots == slots
    && db.tenants["t"].activeSlots == 0
  }

  ghost predicate OneReady(db: Db) {
    db.jobs.Keys == {"a"} && Offers(db.jobs["a"], 1)
  }

  ghost predicate TwoReady(db: Db) {
    db.jobs.Keys == {"a", "b"} && Offers(db.jobs["a"], 1) && Offers(db.jobs["b"], 2)
  }

  function Offer1(id: string, n: nat): S.Candidate {
    S.Candidate(id, "t", "q", 0, n, 1, false)
  }

  lemma OneEligible(db: Db, slots: nat, now: int)
    requires Untouched(db, slots) && OneReady(db) && now >= 0
    ensures EligibleRows(db, now) == {Row("a", db.jobs["a"])}
  {
    assert Eligible(db, "a", now);
  }

  lemma TwoEligible(db: Db, slots: nat, now: int)
    requires Untouched(db, slots) && TwoReady(db) && now >= 0
    ensures EligibleRows(db, now) == {Row("a", db.jobs["a"]), Row("b", db.jobs["b"])}
  {
    assert Eligible(db, "a", now) && Eligible(db, "b", now);
  }

  lemma OneOffered(db: Db, slots: nat, now: int)
    requires Untouched(db, slots) && OneReady(db) && now >= 0
    ensures FullQueues(db, now) == [S.Queue("t", "q", 1, 0, [Offer1("a", 1)])]
  {
    hide EligibleRows, Query;
    OneEligible(db, slots, now);
    var a := Row("a", db.jobs["a"]);
    assert (set r | r in EligibleRows(db, now) && QueueIdOf(r) == QUEUE) == {a};
    SingleQuery({a}, Transactions.RankKey, a);
    assert AllRanked(db, now, QUEUE) == [a];
    assert CandidatesOf([a]) == [Offer1("a", 1)];
    OnlyQueue(db, now, a);
  }

  lemma TwoOffered(db: Db, slots: nat, now: int)
    requires Untouched(db, slots) && TwoReady(db) && now >= 0
    ensures FullQueues(db, now) == [S.Queue("t", "q", 1, 0, [Offer1("a", 1), Offer1("b", 2)])]
  {
    hide EligibleRows, Query, AllRanked;
    TwoEligible(db, slots, now);
    var a, b := Row("a", db.jobs["a"]), Row("b", db.jobs["b"]);
    TwoRanked(db, now, a, b);
    assert CandidatesOf([a, b]) == [Offer1("a", 1), Offer1("b", 2)];
    OnlyQueue(db, now, a);
  }

  lemma TwoRanked(db: Db, now: int, a: Row, b: Row)
    requires Offers(a.job, 1) && Offers(b.job, 2) && EligibleRows(db, now) == {a, b}
    ensures AllRanked(db, now, QUEUE) == [a, b]
  {
    hide EligibleRows, Query;
    EarlierFirst(a, b);
    assert (set r | r in EligibleRows(db, now) && QueueIdOf(r) == QUEUE) == {a, b};
    PairQuery({a, b}, Transactions.RankKey, a, b);
  }

  lemma EarlierFirst(a: Row, b: Row)
    requires Offers(a.job, 1) && Offers(b.job, 2)
    ensures Less(Transactions.RankKey(a), Transactions.RankKey(b))
  {
    S.CandidateKeyOrder(CandidateOf(a), CandidateOf(b));
  }

  lemma OnlyQueue(db: Db, now: int, row: Row)
    requires db.queues.Keys == {QUEUE} && row in EligibleRows(db, now) && QueueIdOf(row) == QUEUE
    ensures FullQueues(db, now) == [FullQueue(db, now, QUEUE)]
  {
    hide EligibleRows, Query, AllRanked;
    assert HasWork(db, now, QUEUE);
    var queue := FullQueue(db, now, QUEUE);
    assert (set q | q in db.queues && HasWork(db, now, q) :: FullQueue(db, now, q)) == {queue};
    SingleQuery({queue}, S.QueueKey, queue);
  }

  /** One candidate, one slot: it is granted. */
  lemma OneGranted(input: S.Snapshot)
    requires input.queues == [S.Queue("t", "q", 1, 0, [Offer1("a", 1)])] && S.Canonical(input.queues) == input.queues
    requires input.workerSlots == 1 && input.batchLimit == 1 && input.algorithm == S.ALGORITHM
    ensures S.Decide(input).Ok? && S.Decide(input).value.grants == [S.GrantOf(Offer1("a", 1))]
  {
    hide S.Canonical;
    var c := Offer1("a", 1);
    var st := S.Start(input.queues, input);
    Served1(1, 1, c, []);
    S.LoopUnfolds(st, 1);
    S.LoopUnfolds(S.Round(st, 1).value, 1);
  }

  /** A queue whose deficit pays for one job serves one job. */
  lemma Served1(slots: int, room: nat, c: S.Candidate, rest: seq<S.Candidate>)
    requires c.cost == 1 && slots >= 1 && room >= 1 && (rest == [] || rest[0].cost == 1)
    ensures S.Serve(S.Queue("t", "q", 1, 1, [c] + rest), slots, room)
         == Ok(S.Served(S.Queue("t", "q", 1, 0, rest), slots - 1, [S.GrantOf(c)]))
  {
    var q, later := S.Queue("t", "q", 1, 1, [c] + rest), S.Queue("t", "q", 1, 0, rest);
    assert q.candidates[0] == c && q.candidates[1..] == rest;
    assert q.(deficit := q.deficit - c.cost, candidates := q.candidates[1..]) == later;
    assert S.Serve(later, slots - 1, room - 1) == Ok(S.Served(later, slots - 1, []));
    assert [S.GrantOf(c)] + [] == [S.GrantOf(c)];
  }

  /** Two candidates, two slots: both are granted, one a round. */
  lemma TwoGranted(input: S.Snapshot)
    requires input.queues == [S.Queue("t", "q", 1, 0, [Offer1("a", 1), Offer1("b", 2)])]
    requires S.Canonical(input.queues) == input.queues
    requires input.workerSlots == 2 && input.batchLimit == 2 && input.algorithm == S.ALGORITHM
    ensures S.Decide(input).Ok? && S.Decide(input).value.grants == [S.GrantOf(Offer1("a", 1)), S.GrantOf(Offer1("b", 2))]
  {
    hide S.Canonical, S.Serve;
    var a, b := Offer1("a", 1), Offer1("b", 2);
    var st := S.Start(input.queues, input);
    assert [a] + [b] == [a, b] && [b] + [] == [b];
    Served1(2, 2, a, [b]);
    Served1(1, 1, b, []);
    S.LoopUnfolds(st, 2);
    var one := S.Round(st, 2).value;
    assert one.queues == [S.Queue("t", "q", 1, 0, [b])] && one.remaining == 1 && one.grants == [S.GrantOf(a)];
    S.LoopUnfolds(one, 2);
    var two := S.Round(one, 2).value;
    assert two.grants == [S.GrantOf(a), S.GrantOf(b)];
    S.LoopUnfolds(two, 2);
  }

  // ------------------------------------------------------------------- leases in the tables

  const TOKENS: nat -> string := (i: nat) => "token"

  /** Two slots for at most two jobs, for ten time units. */
  const BOTH := AcquireRequest("w", 2, 2, 10, 0)

  const ONE := AcquireRequest("w", 1, 1, 10, 0)

  lemma NothingRecovers(queues: seq<S.Queue>)
    requires |queues| == 1 && forall k :: 0 <= k < |queues[0].candidates| ==> !queues[0].candidates[k].recovery
    ensures !HasRecovery(queues)
  {
  }

  lemma TwoDecided(db: Db, slots: nat, now: int)
    requires Untouched(db, slots) && TwoReady(db) && now >= 0
    ensures FullQueues(db, now) != [] && FullInput(db, BOTH, now).workerSlots == 2 && S.Decide(FullInput(db, BOTH, now)).Ok?
    ensures S.Decide(FullInput(db, BOTH, now)).value.grants == [S.GrantOf(Offer1("a", 1)), S.GrantOf(Offer1("b", 2))]
  {
    hide FullQueues, S.Decide, HasRecovery, S.Canonical;
    TwoOffered(db, slots, now);
    FullCanonical(db, now);
    NothingRecovers(FullQueues(db, now));
    TwoGranted(FullInput(db, BOTH, now));
  }

  /** Both jobs hold a lease until time ten. */
  ghost predicate BothLeased(r: Db) {
    && r.jobs.Keys == {"a", "b"} && Edge("b", "a") in r.deps && Leased(r, "a") && Leased(r, "b")
  }

  ghost predicate Leased(r: Db, id: string) {
    && id in r.jobs && Current(r, id) in r.attempts && r.jobs[id].state.Active()
    && r.jobs[id].attemptNo >= r.jobs[id].retry.maxAttempts
    && r.attempts[Current(r, id)].generation == r.jobs[id].generation
    && r.attempts[Current(r, id)].Open() && r.attempts[Current(r, id)].expiresAt == 10
  }

  lemma LiveIsLeased(db: Db, r: Db, lease: Lease, now: int)
    requires Consistent(r) && Evolves(db, r, now) && Live(r, lease, "w", 10)
    requires lease.job in db.jobs && db.jobs[lease.job].retry.maxAttempts == 1
    ensures Leased(r, lease.job)
  {
    hide Consistent, AttemptsEvolve, OutcomesEvolve, RecordsEvolve, Journal.Punctual;
    ActiveAttempt(r, lease.job);
    assert JobEvolves(db.jobs[lease.job], r.jobs[lease.job]);
  }

  lemma BothGranted(cfg: Config)
    requires cfg.defaultSlots == 0 && Consistent(Released(cfg))
    ensures AcquireTx(Released(cfg), BOTH, TOKENS, 0).Ok? && BothLeased(AcquireTx(Released(cfg), BOTH, TOKENS, 0).value.db)
  {
    hide AcquireTx, Consistent, FullQueues, FullInput, S.Decide, Live, Leased, Evolves, Demand, EligibleIds, Orderly;
    var db := Released(cfg);
    TwoDecided(db, 0, 0);
    AcquireDelivers(db, BOTH, TOKENS, 0);
    AcquireEffect(db, BOTH, TOKENS, 0);
    AcquireKeeps(db, BOTH, TOKENS, 0);
    var r := AcquireTx(db, BOTH, TOKENS, 0).value;
    assert r.reply[0].job == "a" && r.reply[1].job == "b";
    LiveIsLeased(db, r.db, r.reply[0], 0);
    LiveIsLeased(db, r.db, r.reply[1], 0);
  }

  // --------------------------------------------------------------------------- the runs

  lemma BootRun(cfg: Config)
    ensures Run(cfg, BOOT, [Submitting("a", [])]) == System(OneJob(cfg), 0)
  {
    hide Next, SubmitTx;
    FirstSubmitted(cfg);
    SubmitStep(cfg, BOOT, Ask("a", []), "a", 0);
    RunOn(cfg, BOOT, [], Submitting("a", []));
    assert [] + [Submitting("a", [])] == [Submitting("a", [])];
  }

  function Opening(dependent: bool): seq<Step> {
    [Submitting("a", []), Submitting("b", Parents(dependent))]
  }

  lemma OpeningRun(cfg: Config, dependent: bool)
    requires cfg.defaultDepth >= 2
    ensures Run(cfg, BOOT, Opening(dependent)) == System(TwoJobs(cfg, dependent), 0)
  {
    hide Next, SubmitTx, Run;
    BootRun(cfg);
    SecondSubmitted(cfg, dependent);
    SubmitStep(cfg, System(OneJob(cfg), 0), Ask("b", Parents(dependent)), "b", 0);
    RunOn(cfg, BOOT, [Submitting("a", [])], Submitting("b", Parents(dependent)));
    assert [Submitting("a", [])] + [Submitting("b", Parents(dependent))] == Opening(dependent);
  }

  /** An operation that always fails changes nothing, however often it is repeated. */
  lemma {:induction false} Fruitless(cfg: Config, s: System, steps: seq<Step>, from: int)
    requires forall i :: 0 <= i < |steps| ==> !steps[i].action.Restart? && steps[i].at >= from
    requires forall i, now :: 0 <= i < |steps| && now >= from ==> Perform(cfg, s.db, steps[i].action, now).Err?
    ensures Run(cfg, s, steps).db == s.db
    decreases |steps|
  {
    hide Perform;
    if steps != [] {
      var init, step := steps[..|steps| - 1], steps[|steps| - 1];
      forall i | 0 <= i < |init| ensures init[i] == steps[i] { }
      Fruitless(cfg, s, init, from);
      var before := Run(cfg, s, init);
      var now := Max(step.at, before.last);
      assert Perform(cfg, s.db, steps[|init|].action, now).Err?;
    }
  }

  // ------------------------------------------------------------------- reaping gets stuck

  /** A parent with one attempt, a dependent child, the release of the child, and leases for both. */
  const STRANDING := Opening(true) + [Step(Control(RELEASE), 0)] + [Step(Acquire(BOTH, TOKENS), 0)]

  lemma ReleasedRun(cfg: Config)
    requires cfg.defaultDepth >= 2
    ensures Run(cfg, BOOT, Opening(true) + [Step(Control(RELEASE), 0)]) == System(Released(cfg), 0)
  {
    hide Run, ControlTx, PerformAdmission, PerformLeasing, PromoteTx, ReapTx;
    OpeningRun(cfg, true);
    ReleaseCommits(cfg);
    RunOn(cfg, BOOT, Opening(true), Step(Control(RELEASE), 0));
  }

  lemma Stranded(cfg: Config)
    requires cfg.defaultDepth >= 2 && cfg.defaultSlots == 0
    ensures var s := Run(cfg, BOOT, STRANDING); BothLeased(s.db) && Consistent(s.db)
  {
    hide Run, AcquireTx, BothLeased, Consistent, Journal.Timely;
    var steps := Opening(true) + [Step(Control(RELEASE), 0)];
    ReleasedRun(cfg);
    Reachable(cfg, steps);
    BothGranted(cfg);
    RunOn(cfg, BOOT, steps, Step(Acquire(BOTH, TOKENS), 0));
    Reachable(cfg, STRANDING);
  }

  lemma LeasedExpires(r: Db, now: int)
    requires BothLeased(r) && now >= 10
    ensures ExpiredSet(r, now) == {HeldLease("a", r.attempts[Current(r, "a")], r.jobs["a"]),
        HeldLease("b", r.attempts[Current(r, "b")], r.jobs["b"])}
  {
    assert Expired(r, "a", now) && Expired(r, "b", now);
  }

  lemma ParentFirst(a: HeldLease, b: HeldLease)
    requires a.id == "a" && b.id == "b" && a.attempt.expiresAt == b.attempt.expiresAt
    ensures Less(ExpiryKey(a), ExpiryKey(b))
  {
    S.FirstDecides(a.attempt.expiresAt, Text("a"), b.attempt.expiresAt, Text("b"));
    assert Text("a")[0] < Text("b")[0];
  }

  lemma LeasedDoomed(r: Db, limit: int, now: int)
    requires BothLeased(r) && limit >= 2 && now >= 10
    ensures SomeDoomed(r, ExpiredRows(r, now, limit)) && |ExpiredSet(r, now)| == 2
  {
    hide Reaches, ExpiredSet, Query;
    LeasedExpires(r, now);
    var a := HeldLease("a", r.attempts[Current(r, "a")], r.jobs["a"]);
    var b := HeldLease("b", r.attempts[Current(r, "b")], r.jobs["b"]);
    ParentFirst(a, b);
    PairQuery(ExpiredSet(r, now), ExpiryKey, a, b);
    EdgeReaches(r.deps, "a", "b");
    assert Exhausted(ExpiredRows(r, now, limit)[0]);
    assert Doomed(r, ExpiredRows(r, now, limit), 1);
  }

  /** Both leases have run out, and every reaping of them fails. */
  lemma ReapingStuck(cfg: Config, limit: int, now: int)
    requires cfg.defaultDepth >= 2 && cfg.defaultSlots == 0 && limit >= 2 && now >= 10
    ensures var db := Run(cfg, BOOT, STRANDING).db; |ExpiredSet(db, now)| == 2 && ReapTx(db, limit, now).Err?
  {
    hide Run, BothLeased, Consistent, ReapTx, ExpiredSet, SomeDoomed, Swept, ExpiredRows;
    Stranded(cfg);
    var db := Run(cfg, BOOT, STRANDING).db;
    LeasedDoomed(db, limit, now);
    ReapAborts(db, limit, now);
  }

  /** However often the reaper runs, the tables stay as they are: neither lease is ever reclaimed. */
  lemma StuckForGood(cfg: Config, reaps: seq<Step>)
    requires cfg.defaultDepth >= 2 && cfg.defaultSlots == 0
    requires forall i :: 0 <= i < |reaps| ==> reaps[i].action.ReapExpired? && reaps[i].action.limit >= 2 && reaps[i].at >= 10
    ensures Run(cfg, Run(cfg, BOOT, STRANDING), reaps).db == Run(cfg, BOOT, STRANDING).db
  {
    hide Run, ReapTx, Perform, ExpiredSet;
    var s := Run(cfg, BOOT, STRANDING);
    forall i, now | 0 <= i < |reaps| && now >= 10 ensures Perform(cfg, s.db, reaps[i].action, now).Err? {
      ReapingStuck(cfg, reaps[i].action.limit, now);
      ReapPerforms(cfg, s.db, reaps[i].action.limit, now);
    }
    Fruitless(cfg, s, reaps, 10);
  }

  lemma ReapPerforms(cfg: Config, db: Db, limit: int, now: int)
    ensures Perform(cfg, db, ReapExpired(limit), now).Err? <==> ReapTx(db, limit, now).Err?
  {
    hide ReapTx, PromoteTx, ControlTx, PerformAdmission, PerformLeasing;
  }

  // --------------------------------------------------------------- acquisition fails

  lemma Overdraws(cfg: Config)
    requires cfg.defaultSlots == 1
    ensures Overdrawn(TwoJobs(cfg, false), [S.GrantOf(Offer1("a", 1)), S.GrantOf(Offer1("b", 2))])
  {
    var g := [S.GrantOf(Offer1("a", 1)), S.GrantOf(Offer1("b", 2))];
    assert g[..1] == [g[0]] && [g[0]][..0] == [];
    assert TenantSlots([g[0]], "t") == 1 && TenantSlots(g, "t") == 2;
    assert Full(TwoJobs(cfg, false), "t", TenantSlots(g, "t"));
  }

  /** Either job fits its tenant's one slot, and a request for both fails, at any time and with any
      tokens. */
  lemma AcquisitionFails(cfg: Config, tokens: nat -> string, now: int)
    requires cfg.defaultDepth >= 2 && cfg.defaultSlots == 1 && now >= 0
    ensures var db := Run(cfg, BOOT, Opening(false)).db;
      Eligible(db, "a", now) && Eligible(db, "b", now) && AcquireTx(db, BOTH, tokens, now).Err?
  {
    hide Run, Consistent, FullQueues, FullInput, S.Decide, PlannedQueues, Overdrawn, GrantPlan, Preservation.Kept,
      Carried, Live, Journal.Timely, HasRecovery;
    OpeningRun(cfg, false);
    Reachable(cfg, Opening(false));
    var db := TwoJobs(cfg, false);
    TwoDecided(db, 1, now);
    Overdraws(cfg);
    SameDecision(db, BOTH, now);
    GrantPlanKeeps(db, BOTH, tokens, now);
  }

  /** Repeating the request never helps. */
  lemma AcquisitionFailsForGood(cfg: Config, requests: seq<Step>)
    requires cfg.defaultDepth >= 2 && cfg.defaultSlots == 1
    requires forall i :: 0 <= i < |requests| ==>
        requests[i].action.Acquire? && requests[i].action.req == BOTH && requests[i].at >= 0
    ensures Run(cfg, Run(cfg, BOOT, Opening(false)), requests).db == Run(cfg, BOOT, Opening(false)).db
  {
    hide Run, AcquireTx, Perform, Eligible;
    var s := Run(cfg, BOOT, Opening(false));
    forall i, now | 0 <= i < |requests| && now >= 0 ensures Perform(cfg, s.db, requests[i].action, now).Err? {
      AcquisitionFails(cfg, requests[i].action.tokens, now);
      AcquirePerforms(cfg, s.db, requests[i].action.tokens, now);
    }
    Fruitless(cfg, s, requests, 0);
  }

  lemma AcquirePerforms(cfg: Config, db: Db, tokens: nat -> string, now: int)
    ensures Perform(cfg, db, Acquire(BOTH, tokens), now).Err? <==> AcquireTx(db, BOTH, tokens, now).Err?
  {
    hide AcquireTx, StartTx, StartAll, BeatAll, CompleteTx, CompleteAll, PerformAdmission, PerformUpkeep;
  }

  // --------------------------------------------------------------- the oracle refuses

  const CANCEL := ControlCommand("a", Cancel, "unwanted", "cancel", "digest")

  const AGAIN := CloneCommand("a", "again", "digest")

  /** A job is cancelled and retried. */
  const RETRYING := [Submitting("a", [])] + [Step(Control(CANCEL), 0)] + [Step(Retry(AGAIN, "c"), 0)]

  function Cancelled(cfg: Config): Db {
    var db := OneJob(cfg);
    var job := Settled(Row0(1), Failed, Some(ControlFailure(CANCEL)), 0).(version := 2);
    db.(jobs := map["a" := job], completions := map["a" := CompletionRow(Failed, 2, 0, 0)],
        events := db.events + [Event("a", OperatorCancel, Failed, 2, 0)],
        operations := map[OperationKey("t", CANCEL.action.Name(), "cancel")
                            := Operation("digest", Acted(ActionReceipt("a", Failed, 2, 0)))])
  }

  lemma NoDescendants(db: Db, id: string)
    requires db.deps == {}
    ensures FailDescendants(db, id, 0) == Ok(db)
  {
    forall j: string ensures !Reaches(db.deps, id, j) { NoEdges(id, j); }
    assert DescendantRows(db, id) == [];
  }

  lemma NoEdges(from: string, to: string)
    ensures !Reaches({}, from, to)
  {
    var none: set<Edge<string>> := {};
    forall p ensures !Connects(none, p, from, to) {
      if |p| > 1 { assert Edge(p[1], p[0]) !in none; }
    }
  }

  lemma CancelMoves(cfg: Config)
    ensures Controlled(OneJob(cfg), "a", CANCEL, 0) == Ok(Cancelled(cfg).(operations := map[]))
  {
    var job, row := Cancelled(cfg).jobs["a"], CompletionRow(Failed, 2, 0, 0);
    assert OneJob(cfg).jobs["a" := job] == map["a" := job] && OneJob(cfg).completions["a" := row] == map["a" := row];
  }

  lemma CancelledRun(cfg: Config)
    ensures Run(cfg, BOOT, [Submitting("a", [])] + [Step(Control(CANCEL), 0)]) == System(Cancelled(cfg), 0)
  {
    hide Run, Controlled, FailDescendants, PerformAdmission, PerformLeasing, PromoteTx, ReapTx;
    BootRun(cfg);
    CancelMoves(cfg);
    NoDescendants(Cancelled(cfg).(operations := map[]), "a");
    RunOn(cfg, BOOT, [Submitting("a", [])], Step(Control(CANCEL), 0));
  }

  lemma RetryCommits(cfg: Config)
    ensures RetryTx(cfg, Cancelled(cfg), AGAIN, "c", 0).Ok?
  {
    assert OpenJobs(Cancelled(cfg).jobs, "t") == {};
  }

  /** The tables after a retry, two jobs and a log that repeats a version, fail the oracle in every way one
      can ask it. */
  lemma OracleRefuses(cfg: Config, e: Expectation)
    requires e.accepted == ["a", "c"]
    ensures var db := Run(cfg, BOOT, RETRYING).db; NamesAll(e.accepted, db) && !Clean(SnapshotOf(db), e)
  {
    hide Run, RetryTx, RedriveTx, Clean, SnapshotOf, Healthy, Traces.NoMarkers, Next;
    var steps := [Submitting("a", [])] + [Step(Control(CANCEL), 0)];
    CancelledRun(cfg);
    RetryCommits(cfg);
    RetryEffect(cfg, Cancelled(cfg), AGAIN, "c", 0);
    ClonesMark(cfg, Cancelled(cfg), AGAIN, "c", 0);
    RunOn(cfg, BOOT, steps, Step(Retry(AGAIN, "c"), 0));
    RetryStep(cfg, System(Cancelled(cfg), 0), AGAIN, "c", 0);
    Reachable(cfg, RETRYING);
    var s := Run(cfg, BOOT, RETRYING);
    assert s.db.jobs.Keys == {"a", "c"};
    NoSteps(cfg, s);
    MarkedForGood(cfg, s, [], e);
  }

  lemma RetryStep(cfg: Config, s: System, cmd: CloneCommand, id: string, at: int)
    ensures var now := Max(at, s.last); var r := RetryTx(cfg, s.db, cmd, id, now);
      Next(cfg, s, Step(Retry(cmd, id), at)) == System(if r.Ok? then r.value.db else s.db, now)
  {
    hide SubmitTx, WorkflowTx, RedriveTx, RetryTx, PerformLeasing, PerformUpkeep;
  }

  lemma NoSteps(cfg: Config, s: System)
    ensures Run(cfg, s, []) == s
  {
  }

  // ------------------------------------------------------------ a restart revives a lease

  /** A lease until time ten, and a heartbeat of nobody at that time. */
  const EXPIRING := [Submitting("a", [])] + [Step(Acquire(ONE, TOKENS), 0)] + [Step(Heartbeat("w", [], 1), 10)]

  const LEASE := LeaseRef("a", 1, 1, "token")

  lemma OneDecided(cfg: Config)
    ensures var db := OneJob(cfg);
      && PlannedQueues(db, 0, 1) != [] && Offer(db, ONE, 0) == 1 && S.Decide(PlanInput(db, ONE, 0)).Ok?
      && S.Decide(PlanInput(db, ONE, 0)).value.grants == [S.GrantOf(Offer1("a", 1))]
  {
    hide FullQueues, S.Decide, HasRecovery, S.Canonical, PlannedQueues;
    var db := OneJob(cfg);
    OneOffered(db, cfg.defaultSlots, 0);
    FullCanonical(db, 0);
    NothingRecovers(FullQueues(db, 0));
    OneGranted(FullInput(db, ONE, 0));
    SameDecision(db, ONE, 0);
  }

  function LeasedRow(): Job {
    Row0(1).(state := Scheduled, attemptNo := 1, generation := 1, readySeq := 0, version := 2)
  }

  /** The rows that carry stamps. */
  ghost predicate HoldsLease(cfg: Config, r: Db) {
    && r.jobs == map["a" := LeasedRow()]
    && r.attempts == map[AttemptKey("a", 1) := NewAttempt(Row0(1), ONE, "token", 0)]
    && r.events == OneJob(cfg).events + [Event("a", LeaseAcquired, Scheduled, 2, 0)] && r.completions == map[]
  }

  lemma GrantLeases(cfg: Config)
    ensures var db := OneJob(cfg); var r := LeaseGrants(db, db, [S.GrantOf(Offer1("a", 1))], ONE, TOKENS, 0);
      r.Ok? && HoldsLease(cfg, r.value.db)
  {
    var db, g := OneJob(cfg), S.GrantOf(Offer1("a", 1));
    assert [g][..0] == [] && LeaseGrants(db, db, [], ONE, TOKENS, 0) == Ok(Tx(db, []));
    assert LeaseRow(db, Row("a", db.jobs["a"]), ONE, "token", 0).Ok?;
    assert db.jobs["a" := LeasedRow()] == map["a" := LeasedRow()];
  }

  lemma LeaseHeldRun(cfg: Config)
    ensures var s := Run(cfg, BOOT, EXPIRING); HoldsLease(cfg, s.db) && s.last == 10
  {
    hide Run, Next, HoldsLease, AcquireTx, Healthy;
    var steps := [Submitting("a", [])];
    BootRun(cfg);
    Reachable(cfg, steps);
    OneAcquired(cfg);
    AcquireStep(cfg, System(OneJob(cfg), 0), ONE, TOKENS, 0);
    RunOn(cfg, BOOT, steps, Step(Acquire(ONE, TOKENS), 0));
    RunOn(cfg, BOOT, steps + [Step(Acquire(ONE, TOKENS), 0)], Step(Heartbeat("w", [], 1), 10));
    NobodyBeats(cfg, Run(cfg, BOOT, steps + [Step(Acquire(ONE, TOKENS), 0)]));
  }

  lemma AcquireStep(cfg: Config, s: System, req: AcquireRequest, tokens: nat -> string, at: int)
    requires Dispatched(Acquire(req, tokens))
    ensures var now := Max(at, s.last); var r := AcquireTx(s.db, req, tokens, now);
      Next(cfg, s, Step(Acquire(req, tokens), at)) == System(if r.Ok? then r.value.db else s.db, now)
  {
    hide AcquireTx, StartTx, StartAll, BeatAll, CompleteTx, CompleteAll, PerformAdmission, PerformUpkeep;
  }

  lemma NobodyBeats(cfg: Config, s: System)
    ensures Next(cfg, s, Step(Heartbeat("w", [], 1), 10)) == System(s.db, Max(10, s.last))
  {
    hide AcquireTx, StartTx, StartAll, CompleteTx, CompleteAll, PerformAdmission, PerformUpkeep;
  }

  lemma OneAcquired(cfg: Config)
    requires Healthy(System(OneJob(cfg), 0))
    ensures var r := AcquireTx(OneJob(cfg), ONE, TOKENS, 0); r.Ok? && HoldsLease(cfg, r.value.db)
  {
    hide LeaseGrants, S.Decide, PlannedQueues, HasRecovery, SetDeficits, DecisionLog.NewRecord, Consistent, PlanSnapshot;
    OneDecided(cfg);
    GrantLeases(cfg);
    OneDelivers(cfg);
  }

  lemma OneDelivers(cfg: Config)
    requires Consistent(OneJob(cfg))
    ensures AcquireTx(OneJob(cfg), ONE, TOKENS, 0).Ok?
  {
    hide Consistent, AcquireTx, S.Decide;
    OneDecided(cfg);
    AcquireAborts(OneJob(cfg), ONE, TOKENS, 0);
    assert [S.GrantOf(Offer1("a", 1))][..0] == [];
    assert TenantSlots([S.GrantOf(Offer1("a", 1))], "t") == 1;
    forall t ensures !Full(OneJob(cfg), t, TenantSlots([S.GrantOf(Offer1("a", 1))], t)) { }
  }

  /** The clock has reached the expiry and refuses the start; after a restart it is back at zero and the
      same start succeeds. */
  lemma RestartRevives(cfg: Config)
    ensures var s := Run(cfg, BOOT, EXPIRING);
      && AttemptKey("a", 1) in s.db.attempts && s.db.attempts[AttemptKey("a", 1)].expiresAt == 10 == s.last
      && StartTx(s.db, "w", LEASE, Max(5, s.last)) == Err(StaleLease)
    ensures var z := Run(cfg, BOOT, EXPIRING + [Step(Restart, 0)]); StartTx(z.db, "w", LEASE, Max(5, z.last)).Ok?
  {
    hide Run, Move, Stamps, Consistent, Journal.Timely, Perform;
    LeaseHeldRun(cfg);
    RunOn(cfg, BOOT, EXPIRING, Step(Restart, 0));
    var s, z := Run(cfg, BOOT, EXPIRING), Run(cfg, BOOT, EXPIRING + [Step(Restart, 0)]);
    OnlyZero(cfg, s.db);
    Reachable(cfg, EXPIRING);
    Histories.LeaseAccepted(z.db, "w", LEASE, 5);
  }

  lemma OnlyZero(cfg: Config, r: Db)
    requires HoldsLease(cfg, r)
    ensures Runs.Latest(Stamps(r)) == 0
  {
    hide Runs.Latest;
    forall e | e in r.events ensures e.at == 0 { EventsAtZero(cfg, e); }
    StampsOf(r);
    SmallLatest(Stamps(r));
  }

  lemma EventsAtZero(cfg: Config, e: Event)
    requires e in OneJob(cfg).events + [Event("a", LeaseAcquired, Scheduled, 2, 0)]
    ensures e.at == 0
  {
  }

  lemma StampsOf(r: Db)
    requires (forall e :: e in r.events ==> e.at == 0) && (forall id :: id in r.jobs ==> r.jobs[id].updatedAt == 0)
    requires (forall k :: k in r.attempts ==> r.attempts[k].heartbeatAt == 0 && r.attempts[k].completedAt.None?)
    requires r.completions == map[]
    ensures Stamps(r) <= {0}
  {
  }

  lemma SmallLatest(s: set<int>)
    requires s <= {0}
    ensures Runs.Latest(s) == 0
  {
    hide Runs.Latest;
  }
}
