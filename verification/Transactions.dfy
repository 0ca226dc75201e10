/** The store's transactions as functions from tables to tables.

    Clock readings, fresh identifiers and lease tokens are parameters; an empty identifier stands
    for a failed draw. */
module Transactions {
  import opened Wrappers
  import opened Ordering
  import opened Graphs
  import opened Domain
  import opened Database
  import Scheduler
  import Backoff
  import DecisionLog

  type Positive = n: int | n >= 1 witness 1

  /** Options the store opens with; 0 default slots mean no limit. */
  datatype Config = Config(
    defaultDepth: Positive, defaultSlots: nat, maxCost: Positive, allowShell: bool, jitter: (string, int) -> bv16)

  datatype Tx<+T> = Tx(db: Db, reply: T)

  type Reply<+T> = Result<Tx<T>, StoreError>

  // ----------------------------------------------------------------- admission

  /** strings.TrimSpace leaves nothing. */
  predicate Blank(s: string) {
    forall c :: c in s ==> c in {' ', '\t', '\n', '\r', '\U{0B}', '\U{0C}', '\U{85}', '\U{A0}'}
  }

  function OpenJobs(jobs: map<string, Job>, tenant: string): set<string> {
    set id | id in jobs && jobs[id].tenant == tenant && !jobs[id].state.Terminal()
  }

  function EnsureTenant(cfg: Config, db: Db, tenant: string): Db {
    if tenant in db.tenants then db
    else db.(tenants := db.tenants[tenant := Tenant(cfg.defaultDepth, cfg.defaultSlots, 0)])
  }

  function EnsureAdmission(cfg: Config, db: Db, tenant: string, incoming: nat): Outcome {
    var ensured := EnsureTenant(cfg, db, tenant);
    var depth := ensured.tenants[tenant].maxDepth;
    if depth > 0 && |OpenJobs(db.jobs, tenant)| + incoming > depth then Err(QueueFull) else Ok(ensured)
  }

  function EnsureQueue(db: Db, tenant: string, queue: string): Db {
    var q := QueueId(tenant, queue);
    if q in db.queues then db else db.(queues := db.queues[q := QueueRow(1, 0, 0)])
  }

  function NewJob(spec: JobSpec, availableAt: int, readySeq: nat, now: int): Job {
    Job(spec.tenant, spec.queue, spec.priority, spec.cost, spec.payload, spec.retry,
        Pending, 0, 1, 0, availableAt, readySeq, false, now, None, None)
  }

  function AvailableAt(spec: JobSpec, now: int): int {
    if spec.availableAt.Some? then spec.availableAt.value else now
  }

  /** Draws the next ready sequence number when the job can be scheduled at once. */
  function Stamp(db: Db, ready: bool): Db {
    if ready then db.(readySeq := db.readySeq + 1) else db
  }

  function CheckDependencies(db: Db, tenant: string, deps: seq<string>): Result<(), StoreError> {
    if deps == [] then Ok(()) else
      var last, init := deps[|deps| - 1], deps[..|deps| - 1];
      var _ :- CheckDependencies(db, tenant, init);
      if last == "" || last in init then Err(BadRequest)
      else if last !in db.jobs then Err(NotFound)
      else if db.jobs[last].tenant != tenant then Err(BadRequest)
      else Ok(())
  }

  predicate AllSucceeded(db: Db, deps: seq<string>) {
    forall d :: d in deps && d in db.jobs ==> db.jobs[d].state.Succeeded?
  }

  predicate AnyFailed(db: Db, deps: seq<string>) {
    exists d :: d in deps && d in db.jobs && db.jobs[d].state.Unsuccessful()
  }

  datatype Submission = Submission(spec: JobSpec, key: string, digest: string)

  datatype Accepted = Accepted(rows: seq<Row>, duplicate: bool)

  function ReadRequest(db: Db, k: RequestKey, kind: RequestKind, digest: string): Result<Option<seq<Row>>, StoreError> {
    if k !in db.requests then Ok(None)
    else if db.requests[k].kind != kind || db.requests[k].digest != digest then Err(IdempotencyConflict)
    else Ok(Some(db.requests[k].rows))
  }

  /** The row a submission inserts: dead on arrival when a parent already failed. */
  function SubmittedJob(db: Db, spec: JobSpec, now: int): Job {
    var at := AvailableAt(spec, now);
    var ready := AllSucceeded(db, spec.dependsOn) && at <= now;
    var job := NewJob(spec, at, if ready then db.readySeq + 1 else 0, now);
    if AnyFailed(db, spec.dependsOn) then Settled(job, DeadLetter, Some(UPSTREAM_FAILED), now) else job
  }

  function SubmitTx(cfg: Config, db: Db, sub: Submission, id: string, now: int): Reply<Accepted> {
    var spec := sub.spec.Normalize();
    var k := RequestKey(spec.tenant, sub.key);
    :- Need(!Blank(sub.key) && !Blank(sub.digest), BadRequest);
    var found :- ReadRequest(db, k, JobRequest, sub.digest);
    if found.Some? then Ok(Tx(db, Accepted(found.value, true)))
    else
      :- Need(spec.Valid(cfg.maxCost, cfg.allowShell), BadRequest);
      var _ :- CheckDependencies(db, spec.tenant, spec.dependsOn);
      var ensured :- EnsureAdmission(cfg, db, spec.tenant, 1);
      var queued := EnsureQueue(ensured, spec.tenant, spec.queue);
      var ready := AllSucceeded(db, spec.dependsOn) && AvailableAt(spec, now) <= now;
      var job := SubmittedJob(db, spec, now);
      var admitted :- Admit(Stamp(queued, ready), id, job, (set d | d in spec.dependsOn), now);
      var rows := [Row(id, job)];
      Ok(Tx(admitted.(requests := admitted.requests[k := Request(JobRequest, sub.digest, rows)]), Accepted(rows, false)))
  }

  // ----------------------------------------------------------------- workflows

  datatype Node = Node(key: string, spec: JobSpec)

  datatype WorkflowSubmission = WorkflowSubmission(tenant: string, nodes: seq<Node>, key: string, digest: string)

  function NodeSpec(tenant: string, node: Node): JobSpec {
    node.spec.(tenant := tenant).Normalize()
  }

  predicate DistinctStrings(s: seq<string>) {
    forall i, j :: 0 <= i < j < |s| ==> s[i] != s[j]
  }

  /** Everything validateWorkflow checks of the nodes, cycles aside. */
  predicate NodesValid(cfg: Config, tenant: string, nodes: seq<Node>) {
    && nodes != []
    && (forall i :: 0 <= i < |nodes| ==> !Blank(nodes[i].key))
    && (forall i, j :: 0 <= i < j < |nodes| ==> nodes[i].key != nodes[j].key)
    && (forall i :: 0 <= i < |nodes| ==> NodeSpec(tenant, nodes[i]).Valid(cfg.maxCost, cfg.allowShell))
    && (forall i :: 0 <= i < |nodes| ==> DistinctStrings(nodes[i].spec.dependsOn))
    && (forall i, d :: 0 <= i < |nodes| && d in nodes[i].spec.dependsOn ==> KnownKey(nodes, d))
  }

  predicate KnownKey(nodes: seq<Node>, key: string) {
    exists k :: 0 <= k < |nodes| && nodes[k].key == key
  }

  /** The dependencies by node index. */
  function NodeEdges(nodes: seq<Node>): set<Edge<nat>> {
    set i: nat, k: nat | i < |nodes| && k < |nodes| && nodes[k].key in nodes[i].spec.dependsOn :: Edge(i, k)
  }

  function NodeJob(db: Db, tenant: string, node: Node, now: int): Job {
    var spec := NodeSpec(tenant, node);
    var at := AvailableAt(spec, now);
    NewJob(spec, at, if spec.dependsOn == [] && at <= now then db.readySeq + 1 else 0, now)
  }

  function AdmitNode(db: Db, tenant: string, node: Node, id: string, now: int): Outcome {
    var spec := NodeSpec(tenant, node);
    var queued := EnsureQueue(db, tenant, spec.queue);
    var ready := spec.dependsOn == [] && AvailableAt(spec, now) <= now;
    Admit(Stamp(queued, ready), id, NodeJob(db, tenant, node, now), {}, now)
  }

  function AdmitNodes(db: Db, tenant: string, nodes: seq<Node>, ids: nat -> string, now: int): Outcome {
    if nodes == [] then Ok(db) else
      var before :- AdmitNodes(db, tenant, nodes[..|nodes| - 1], ids, now);
      AdmitNode(before, tenant, nodes[|nodes| - 1], ids(|nodes| - 1), now)
  }

  /** The job identifiers of the edges. */
  function JobEdges(edges: set<Edge<nat>>, ids: nat -> string): set<Edge<string>> {
    set e | e in edges :: Edge(ids(e.child), ids(e.parent))
  }

  function NodeRows(db: Db, ids: nat -> string, n: nat): seq<Row>
    requires forall i: nat :: i < n ==> ids(i) in db.jobs
  {
    seq(n, i requires 0 <= i < n && ids(i) in db.jobs => Row(ids(i), db.jobs[ids(i)]))
  }

  ghost function WorkflowTx(cfg: Config, db: Db, w: WorkflowSubmission, ids: nat -> string, now: int): Reply<Accepted> {
    var tenant := if w.tenant == "" then "default" else w.tenant;
    var k := RequestKey(tenant, w.key);
    :- Need(!Blank(w.key) && !Blank(w.digest), BadRequest);
    var found :- ReadRequest(db, k, WorkflowRequest, w.digest);
    if found.Some? then Ok(Tx(db, Accepted(found.value, true)))
    else
      :- Need(NodesValid(cfg, tenant, w.nodes), BadRequest);
      :- Need(Acyclic(NodeEdges(w.nodes)), CycleDetected);
      var ensured :- EnsureAdmission(cfg, db, tenant, |w.nodes|);
      var admitted :- AdmitNodes(ensured, tenant, w.nodes, ids, now);
      var linked := admitted.(deps := admitted.deps + JobEdges(NodeEdges(w.nodes), ids));
      var rows := if forall i: nat :: i < |w.nodes| ==> ids(i) in linked.jobs then NodeRows(linked, ids, |w.nodes|) else [];
      Ok(Tx(linked.(requests := linked.requests[k := Request(WorkflowRequest, w.digest, rows)]), Accepted(rows, false)))
  }

  // ---------------------------------------------------------------- acquisition

  predicate Eligible(db: Db, id: string, now: int) {
    && id in db.jobs && db.jobs[id].state.Pending? && db.jobs[id].readySeq > 0 && db.jobs[id].availableAt <= now
    && db.jobs[id].tenant in db.tenants && QueueId(db.jobs[id].tenant, db.jobs[id].queue) in db.queues
    && var t := db.tenants[db.jobs[id].tenant];
       t.maxSlots == 0 || t.activeSlots + db.jobs[id].cost <= t.maxSlots
  }

  function EligibleRows(db: Db, now: int): set<Row> {
    set id | id in db.jobs && Eligible(db, id, now) :: Row(id, db.jobs[id])
  }

  function QueueIdOf(r: Row): QueueId {
    QueueId(r.job.tenant, r.job.queue)
  }

  function RankKey(r: Row): Key {
    Scheduler.RankKey(r.job.recovery, r.job.priority, r.job.readySeq, r.id)
  }

  function CandidateOf(r: Row): Scheduler.Candidate {
    Scheduler.Candidate(r.id, r.job.tenant, r.job.queue, r.job.priority, r.job.readySeq, r.job.cost, r.job.recovery)
  }

  function CandidatesOf(rows: seq<Row>): (cs: seq<Scheduler.Candidate>)
    ensures |cs| == |rows| && forall i :: 0 <= i < |rows| ==> cs[i] == CandidateOf(rows[i])
  {
    seq(|rows|, i requires 0 <= i < |rows| => CandidateOf(rows[i]))
  }

  /** The best `limit` rows of one queue, as ROW_NUMBER ranks them. */
  ghost function RankedRows(db: Db, now: int, limit: int, q: QueueId): seq<Row> {
    Take(Query((set r | r in EligibleRows(db, now) && QueueIdOf(r) == q), RankKey), limit)
  }

  ghost function PlannedQueue(db: Db, now: int, limit: int, q: QueueId): Scheduler.Queue
    requires q in db.queues
  {
    Scheduler.Queue(q.tenant, q.name, db.queues[q].weight, db.queues[q].deficit, CandidatesOf(RankedRows(db, now, limit, q)))
  }

  /** Every queue with at least one eligible row, ordered by tenant and name. */
  ghost function PlannedQueues(db: Db, now: int, limit: int): seq<Scheduler.Queue> {
    Query(set q | q in db.queues && (exists r :: r in EligibleRows(db, now) && QueueIdOf(r) == q)
                  :: PlannedQueue(db, now, limit, q),
          Scheduler.QueueKey)
  }

  predicate HasRecovery(queues: seq<Scheduler.Queue>) {
    exists i, k :: 0 <= i < |queues| && 0 <= k < |queues[i].candidates| && queues[i].candidates[k].recovery
  }

  /** Part of a worker's slots is withheld while nothing waits for recovery. */
  function UsableSlots(slots: int, reserve: int, recovery: bool): int {
    if recovery then slots else slots - (if slots < reserve then slots else reserve)
  }

  const CONFIG_HASH := "sha256(drr-v1)"

  function PlanSnapshot(db: Db, queues: seq<Scheduler.Queue>, slots: int, limit: int, now: int): Scheduler.Snapshot {
    Scheduler.Snapshot(db.schedulerSeq + 1, now, slots, limit, db.cursor, queues, CONFIG_HASH, Scheduler.ALGORITHM)
  }

  datatype AcquireRequest = AcquireRequest(worker: string, slots: int, limit: int, ttl: int, reserve: int)

  function LeasedJob(job: Job): Job {
    job.(state := Scheduled, attemptNo := job.attemptNo + 1, generation := job.generation + 1, readySeq := 0, recovery := false)
  }

  function NewAttempt(job: Job, req: AcquireRequest, token: string, now: int): Attempt {
    Attempt(req.worker, job.generation + 1, token, LeaseHeld, now, now, now + req.ttl, None, None, None)
  }

  /** One grant becomes a lease: reserve, schedule, record the attempt. */
  function LeaseRow(db: Db, row: Row, req: AcquireRequest, token: string, now: int): Reply<Lease> {
    var id := row.id;
    :- Need(Unchanged(db, row) && row.job.state.Pending? && db.jobs[id].readySeq > 0, RowChanged);
    var job, k := db.jobs[id], AttemptKey(id, db.jobs[id].attemptNo + 1);
    :- Need(k !in db.attempts, DuplicateRow);
    var leased :- Move(db.(attempts := db.attempts[k := NewAttempt(job, req, token, now)]), id, LeasedJob(job),
        LeaseAcquired, now);
    :- Need(token != "", NoId);
    Ok(Tx(leased, Lease(id, k.no, job.generation + 1, token, req.worker, now + req.ttl, job.updatedAt, job.cost, job.payload)))
  }

  /** `origin` holds the candidate rows as they were selected. */
  function LeaseGrants(
      db: Db, origin: Db, grants: seq<Scheduler.Grant>, req: AcquireRequest, tokens: nat -> string,
      now: int): Reply<seq<Lease>> {
    if grants == [] then Ok(Tx(db, [])) else
      var n := |grants| - 1;
      var before :- LeaseGrants(db, origin, grants[..n], req, tokens, now);
      :- Need(grants[n].job in origin.jobs, UnknownGrant);
      var leased :- LeaseRow(before.db, Row(grants[n].job, origin.jobs[grants[n].job]), req, tokens(n), now);
      Ok(Tx(leased.db, before.reply + [leased.reply]))
  }

  function SetDeficits(queues: map<QueueId, QueueRow>, states: seq<Scheduler.QueueState>): map<QueueId, QueueRow> {
    if states == [] then queues else
      var rest := SetDeficits(queues, states[..|states| - 1]);
      var s := states[|states| - 1];
      var q := QueueId(s.tenant, s.queue);
      if q in rest then rest[q := rest[q].(deficit := s.deficit)] else rest
  }

  /** Deficits, cursor and the decision record. */
  function PersistPlan(db: Db, input: Scheduler.Snapshot, decision: Scheduler.Decision): Outcome {
    var record := DecisionLog.NewRecord(DecisionLog.LinkBefore(db.log, |db.log|), input, decision);
    :- Need(record.Ok?, LogRejected);
    Ok(db.(queues := SetDeficits(db.queues, decision.queues),
           cursor := decision.nextCursor,
           schedulerSeq := db.schedulerSeq + 1,
           log := db.log + [record.value]))
  }

  /** Carries out a decision over the planned queues. */
  function GrantPlan(db: Db, input: Scheduler.Snapshot, req: AcquireRequest, tokens: nat -> string, now: int): Reply<seq<Lease>> {
    var decision := Scheduler.Decide(input);
    :- Need(decision.Ok?, Undecided);
    var leased :- LeaseGrants(db, db, decision.value.grants, req, tokens, now);
    var persisted :- PersistPlan(leased.db, input, decision.value);
    Ok(Tx(persisted, leased.reply))
  }

  ghost function AcquireTx(db: Db, req: AcquireRequest, tokens: nat -> string, now: int): Reply<seq<Lease>> {
    var queues := PlannedQueues(db, now, req.limit);
    var slots := UsableSlots(req.slots, req.reserve, HasRecovery(queues));
    if queues == [] || slots == 0 then Ok(Tx(db, []))
    else GrantPlan(db, PlanSnapshot(db, queues, slots, req.limit, now), req, tokens, now)
  }

  // -------------------------------------------------------- starting, heartbeats

  /** A reference names the current attempt of its job. */
  predicate Cites(db: Db, worker: string, ref: LeaseRef) {
    var k := AttemptKey(ref.job, ref.attemptNo);
    && k in db.attempts && ref.job in db.jobs
    && db.attempts[k].worker == worker && db.attempts[k].generation == ref.generation && db.attempts[k].token == ref.token
    && db.jobs[ref.job].attemptNo == ref.attemptNo && db.jobs[ref.job].generation == ref.generation
  }

  function StartTx(db: Db, worker: string, ref: LeaseRef, now: int): Outcome {
    if !Cites(db, worker, ref) then Err(StaleLease)
    else
      var k := AttemptKey(ref.job, ref.attemptNo);
      var attempt, job := db.attempts[k], db.jobs[ref.job];
      if attempt.expiresAt <= now then Err(StaleLease)
      else if attempt.state.LeaseRunning? && job.state.Running? then Ok(db)
      else if !attempt.state.LeaseHeld? || !job.state.Scheduled? then Err(StaleLease)
      else
        Move(db.(attempts := db.attempts[k := attempt.(state := LeaseRunning)]), ref.job, job.(state := Running),
            AttemptStarted, now)
  }

  function StartAll(db: Db, worker: string, refs: seq<LeaseRef>, now: int): Reply<seq<bool>> {
    if refs == [] then Ok(Tx(db, [])) else
      var before :- StartAll(db, worker, refs[..|refs| - 1], now);
      var r := StartTx(before.db, worker, refs[|refs| - 1], now);
      if r.Ok? then Ok(Tx(r.value, before.reply + [true]))
      else if r.error.StaleLease? then Ok(Tx(before.db, before.reply + [false]))
      else Err(r.error)
  }

  predicate BeatAccepted(db: Db, worker: string, ref: LeaseRef, now: int) {
    var k := AttemptKey(ref.job, ref.attemptNo);
    Cites(db, worker, ref) && db.attempts[k].expiresAt > now && db.attempts[k].Open() && db.jobs[ref.job].state.Active()
  }

  function Max(a: int, b: int): int {
    if a < b then b else a
  }

  function Beat(db: Db, worker: string, ref: LeaseRef, ttl: int, now: int): Db {
    if BeatAccepted(db, worker, ref, now) then
      var k := AttemptKey(ref.job, ref.attemptNo);
      var a := db.attempts[k];
      db.(attempts := db.attempts[k := a.(heartbeatAt := now, expiresAt := Max(a.expiresAt, now + ttl))])
    else db
  }

  function BeatAll(db: Db, worker: string, refs: seq<LeaseRef>, ttl: int, now: int): Tx<seq<bool>> {
    if refs == [] then Tx(db, []) else
      var before := BeatAll(db, worker, refs[..|refs| - 1], ttl, now);
      var ref := refs[|refs| - 1];
      Tx(Beat(before.db, worker, ref, ttl, now), before.reply + [BeatAccepted(before.db, worker, ref, now)])
  }

  // ----------------------------------------------------------------- completion

  /** The state a completion leads to. */
  function Verdict(job: Job, c: Completion): JobState {
    if c.success then Succeeded
    else if c.retryable && job.retry.retryable && c.ref.attemptNo < job.retry.maxAttempts then Retrying
    else if c.retryable then DeadLetter
    else Failed
  }

  function FailureOf(c: Completion): Option<Failure> {
    if c.success then None else if c.failure.None? then Some(ATTEMPT_FAILED) else c.failure
  }

  function Closed(a: Attempt, state: AttemptState, failure: Option<Failure>, closing: Option<Closing>, now: int): Attempt {
    a.(state := state, completedAt := Some(now), failure := failure, closing := closing)
  }

  function RetryAt(cfg: Config, c: Completion, now: int): Result<int, StoreError> {
    var at := Backoff.ReleaseAt(now, c.ref.job, c.ref.attemptNo, cfg.jitter(c.ref.job, c.ref.attemptNo));
    if at.Ok? then Ok(at.value) else Err(BadDelay)
  }

  /** The attempt is closed and the job leaves its lease. */
  function CloseLease(cfg: Config, db: Db, c: Completion, now: int): Outcome
    requires c.ref.job in db.jobs && AttemptKey(c.ref.job, c.ref.attemptNo) in db.attempts
  {
    var id, k := c.ref.job, AttemptKey(c.ref.job, c.ref.attemptNo);
    var job := db.jobs[id];
    var state := Verdict(job, c);
    var at :- if state.Retrying? then RetryAt(cfg, c, now) else Ok(now);
    var next := if state.Terminal() then Settled(job, state, FailureOf(c), now)
                else job.(state := state, readySeq := 0, terminalAt := None, failure := FailureOf(c));
    var closing := Closing(c, state, job.version + 1, now);
    var attempt := Closed(db.attempts[k], if c.success then LeaseSucceeded else LeaseFailed, FailureOf(c), Some(closing), now);
    Move(db.(attempts := db.attempts[k := attempt]), id, next.(availableAt := at), if state.Terminal() then JobCompleted
        else RetryScheduled, now)
  }

  /** A settled job wakes its children or fails its descendants. */
  ghost function Propagate(db: Db, id: string, state: JobState, now: int): Outcome {
    if state.Succeeded? then ActivateChildren(db, id, now)
    else if state.Terminal() then FailDescendants(db, id, now)
    else Ok(db)
  }

  /** A completion that may still change its job. */
  predicate Completable(db: Db, c: Completion, now: int) {
    var k := AttemptKey(c.ref.job, c.ref.attemptNo);
    && c.ref.job in db.jobs && k in db.attempts
    && db.jobs[c.ref.job].attemptNo == c.ref.attemptNo && db.jobs[c.ref.job].generation == c.ref.generation
    && db.jobs[c.ref.job].state.Active() && db.attempts[k].Open() && db.attempts[k].expiresAt > now
  }

  ghost function CompleteTx(cfg: Config, db: Db, c: Completion, now: int): Reply<Receipt> {
    var k := AttemptKey(c.ref.job, c.ref.attemptNo);
    if k !in db.attempts || c.ref.job !in db.jobs then Err(StaleLease)
    else
      var a := db.attempts[k];
      if a.worker != c.worker || a.generation != c.ref.generation || a.token != c.ref.token then Err(StaleLease)
      else if a.closing.Some? then
        var r := a.closing.value;
        if r.request != c then Err(StaleLease)
        else Ok(Tx(db, Receipt(c.ref.job, r.state, r.version, r.committedAt, true)))
      else if !Completable(db, c, now) then Err(StaleLease)
      else
        var state := Verdict(db.jobs[c.ref.job], c);
        var closed :- CloseLease(cfg, db, c, now);
        var done :- Propagate(closed, c.ref.job, state, now);
        Ok(Tx(done, Receipt(c.ref.job, state, db.jobs[c.ref.job].version + 1, now, false)))
  }

  ghost function CompleteAll(cfg: Config, db: Db, cs: seq<Completion>, now: int): Reply<seq<Option<Receipt>>> {
    if cs == [] then Ok(Tx(db, [])) else
      var before :- CompleteAll(cfg, db, cs[..|cs| - 1], now);
      var r := CompleteTx(cfg, before.db, cs[|cs| - 1], now);
      if r.Ok? then Ok(Tx(r.value.db, before.reply + [Some(r.value.reply)]))
      else if r.error.StaleLease? then Ok(Tx(before.db, before.reply + [None]))
      else Err(r.error)
  }

  // ---------------------------------------------------------------- maintenance

  ghost function PromoteTx(db: Db, limit: int, now: int): Reply<nat> {
    var rows := DueRows(db, now, limit);
    var done :- ReadyRows(db, rows, Promoted, now);
    Ok(Tx(done, |rows|))
  }

  datatype ReapedLease = ReapedLease(job: string, worker: string, generation: nat, expiredAt: int, nextAvailableAt: Option<int>)

  /** The job row is as it was when the expired lease was selected. */
  predicate StillHeld(db: Db, h: HeldLease) {
    && h.id in db.jobs && db.jobs[h.id].attemptNo == h.job.attemptNo && db.jobs[h.id].generation == h.job.generation
    && db.jobs[h.id].version == h.job.version && db.jobs[h.id].state.Active()
  }

  function ExpireAttempt(db: Db, h: HeldLease, now: int): Db {
    var k := AttemptKey(h.id, h.job.attemptNo);
    if k in db.attempts && db.attempts[k].Open()
    then db.(attempts := db.attempts[k := Closed(db.attempts[k], LeaseExpired, Some(LEASE_EXPIRED), db.attempts[k].closing, now)])
    else db
  }

  ghost function ReapRow(db: Db, h: HeldLease, now: int): Outcome {
    if !StillHeld(db, h) then
      var _ :- ReleaseSlots(db, h.job.tenant, h.job.queue, h.job.cost);
      Err(StaleLease)
    else
      var job, expired := db.jobs[h.id], ExpireAttempt(db, h, now);
      if job.attemptNo < job.retry.maxAttempts then
        var n := db.readySeq + 1;
        Move(expired.(readySeq := n), h.id,
             job.(state := Pending, availableAt := now, readySeq := n, recovery := true, failure := Some(LEASE_EXPIRED)),
             LeaseReaped, now)
      else
        var dead :- Move(expired, h.id, Settled(job, DeadLetter, Some(LEASE_EXPIRED), now), LeaseReaped, now);
        FailDescendants(dead, h.id, now)
  }

  ghost function ReapRows(db: Db, rows: seq<HeldLease>, now: int): Outcome {
    if rows == [] then Ok(db) else
      var before :- ReapRows(db, rows[..|rows| - 1], now);
      ReapRow(before, rows[|rows| - 1], now)
  }

  function Reaped(h: HeldLease, now: int): ReapedLease {
    ReapedLease(h.id, h.attempt.worker, h.attempt.generation, h.attempt.expiresAt,
                if h.job.attemptNo >= h.job.retry.maxAttempts then None else Some(now))
  }

  function ReapedAll(rows: seq<HeldLease>, now: int): (r: seq<ReapedLease>)
    ensures |r| == |rows| && forall i :: 0 <= i < |rows| ==> r[i] == Reaped(rows[i], now)
  {
    seq(|rows|, i requires 0 <= i < |rows| => Reaped(rows[i], now))
  }

  ghost function ReapTx(db: Db, limit: int, now: int): Reply<seq<ReapedLease>> {
    var rows := ExpiredRows(db, now, limit);
    var done :- ReapRows(db, rows, now);
    Ok(Tx(done, ReapedAll(rows, now)))
  }

  // ------------------------------------------------------------ operator control

  datatype ControlAction = Cancel | ForceFail | ForceDeadLetter | ForceRelease {
    function State(): JobState {
      match this
      case Cancel => Failed
      case ForceFail => Failed
      case ForceDeadLetter => DeadLetter
      case ForceRelease => Pending
    }

    function Kind(): EventKind {
      match this
      case Cancel => OperatorCancel
      case ForceFail => OperatorFail
      case ForceDeadLetter => OperatorDeadLetter
      case ForceRelease => OperatorRelease
    }

    function Label(): string {
      match this
      case Cancel => "cancel"
      case ForceFail => "fail"
      case ForceDeadLetter => "dead_letter"
      case ForceRelease => "release"
    }

    function Name(): string {
      if Cancel? then "job.cancel" else "job.force." + Label()
    }
  }

  datatype ControlCommand = ControlCommand(job: string, action: ControlAction, reason: string, key: string, digest: string)

  function ReadOperation(db: Db, k: OperationKey, digest: string): Result<Option<Response>, StoreError> {
    if k !in db.operations then Ok(None)
    else if db.operations[k].digest != digest then Err(IdempotencyConflict)
    else Ok(Some(db.operations[k].response))
  }

  function RecordOperation(db: Db, k: OperationKey, digest: string, response: Response): Db {
    db.(operations := db.operations[k := Operation(digest, response)])
  }

  /** Fences the current attempt of a leased job. */
  function Fence(db: Db, id: string, failure: Failure, now: int): Outcome
    requires id in db.jobs
  {
    var k := Current(db, id);
    if !db.jobs[id].state.Active() then Ok(db)
    else if k !in db.attempts || !db.attempts[k].Open() then Err(StaleLease)
    else
      var a := db.attempts[k];
      var kept := if a.failure.Some? then a.failure else Some(failure);
      Ok(db.(attempts := db.attempts[k := Closed(a, LeaseExpired, kept, a.closing, now)]))
  }

  function ControlFailure(cmd: ControlCommand): Failure {
    Failure("operator_" + cmd.action.Label(), cmd.reason)
  }

  /** Only a release draws a ready sequence number. */
  function ControlSeq(db: Db, cmd: ControlCommand): nat {
    if cmd.action.ForceRelease? then db.readySeq + 1 else db.readySeq
  }

  function ControlledJob(db: Db, job: Job, cmd: ControlCommand, now: int): Job {
    if cmd.action.ForceRelease? then
      job.(state := Pending, availableAt := now, readySeq := ControlSeq(db, cmd), recovery := job.state.Active(),
          terminalAt := None, failure := None)
    else
      Settled(job, cmd.action.State(), Some(ControlFailure(cmd)), now).(availableAt := now, recovery := false)
  }

  /** Fences the attempt, if any, and moves the job where the operator wants it. */
  function Controlled(db: Db, id: string, cmd: ControlCommand, now: int): Outcome
    requires id in db.jobs
  {
    var fenced :- Fence(db, id, ControlFailure(cmd), now);
    Move(fenced.(readySeq := ControlSeq(db, cmd)), id, ControlledJob(db, db.jobs[id], cmd, now), cmd.action.Kind(), now)
  }

  ghost function ControlTx(db: Db, cmd: ControlCommand, now: int): Reply<Response> {
    var id := cmd.job;
    :- Need(id in db.jobs, NotFound);
    var job := db.jobs[id];
    var k := OperationKey(job.tenant, cmd.action.Name(), cmd.key);
    var found :- ReadOperation(db, k, cmd.digest);
    if found.Some? then Ok(Tx(db, found.value))
    else
      :- Need(!job.state.Terminal(), TerminalJob);
      var moved :- Controlled(db, id, cmd, now);
      var done :- Propagate(moved, id, cmd.action.State(), now);
      var response := Acted(ActionReceipt(id, cmd.action.State(), job.version + 1, now));
      Ok(Tx(RecordOperation(done, k, cmd.digest, response), response))
  }

  // ------------------------------------------------------------- redrive and retry

  datatype CloneCommand = CloneCommand(job: string, key: string, digest: string)

  /** An event on a settled job that leaves its row alone. */
  function Note(db: Db, id: string, kind: EventKind, now: int): Db
    requires id in db.jobs
  {
    db.(events := db.events + [Event(id, kind, db.jobs[id].state, db.jobs[id].version, now)])
  }

  function CloneSpec(job: Job): JobSpec {
    JobSpec(job.tenant, job.queue, job.priority, job.cost, job.payload, job.retry, [], None)
  }

  function CloneJob(cfg: Config, db: Db, original: Job, id: string, now: int): Reply<Row> {
    var ensured :- EnsureAdmission(cfg, db, original.tenant, 1);
    var queued := EnsureQueue(ensured, original.tenant, original.queue);
    var job := NewJob(CloneSpec(original), now, db.readySeq + 1, now);
    var admitted :- Admit(Stamp(queued, true), id, job, {}, now);
    Ok(Tx(admitted, Row(id, job)))
  }

  const REDRIVE := "dead_letter.redrive"
  const RETRY := "job.retry"

  /** Both redrive entry points: the operator control and the worker API. */
  function RedriveTx(cfg: Config, db: Db, cmd: CloneCommand, id: string, now: int): Reply<Response> {
    var source := cmd.job;
    :- Need(source in db.deadLetters && source in db.jobs, NotFound);
    var original := db.jobs[source];
    var k := OperationKey(original.tenant, REDRIVE, cmd.key);
    var found :- ReadOperation(db, k, cmd.digest);
    if found.Some? then Ok(Tx(db, found.value))
    else
      :- Need(db.deadLetters[source].redriven.None?, AlreadyRedriven);
      var cloned :- CloneJob(cfg, db, original, id, now);
      var linked := cloned.db.(deadLetters := cloned.db.deadLetters[source := db.deadLetters[source].(redriven := Some(id))]);
      :- Need(source in linked.jobs, NotFound);
      var response := Created(cloned.reply);
      Ok(Tx(RecordOperation(Note(linked, source, OperatorRedrive, now), k, cmd.digest, response), response))
  }

  function RetryTx(cfg: Config, db: Db, cmd: CloneCommand, id: string, now: int): Reply<Response> {
    var source := cmd.job;
    :- Need(source in db.jobs, NotFound);
    var original := db.jobs[source];
    var k := OperationKey(original.tenant, RETRY, cmd.key);
    var found :- ReadOperation(db, k, cmd.digest);
    if found.Some? then Ok(Tx(db, found.value))
    else
      :- Need(original.state.Terminal(), Conflict);
      var cloned :- CloneJob(cfg, db, original, id, now);
      :- Need(source in cloned.db.jobs, NotFound);
      var response := Created(cloned.reply);
      Ok(Tx(RecordOperation(Note(cloned.db, source, OperatorRetry, now), k, cmd.digest, response), response))
  }
}
