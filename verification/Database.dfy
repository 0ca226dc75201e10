/** The tables and the row changes that transactions are made of.

    A transaction works on a copy of the tables and replaces them when it commits, so each change
    is a function from tables to tables, or an error that rolls everything back. */
module Database {
  import opened Wrappers
  import opened Ordering
  import opened Graphs
  import opened Domain
  import DecisionLog

  datatype RequestKey = RequestKey(tenant: string, key: string)

  datatype RequestKind = JobRequest | WorkflowRequest

  datatype Request = Request(kind: RequestKind, digest: string, rows: seq<Row>)

  datatype OperationKey = OperationKey(tenant: string, action: string, key: string)

  datatype ActionReceipt = ActionReceipt(job: string, state: JobState, version: nat, committedAt: int)

  datatype Response = Acted(receipt: ActionReceipt) | Created(row: Row)

  datatype Operation = Operation(digest: string, response: Response)

  datatype Db = Db(
    jobs: map<string, Job>,
    deps: set<Edge<string>>,
    attempts: map<AttemptKey, Attempt>,
    completions: map<string, CompletionRow>,
    deadLetters: map<string, DeadLetterRow>,
    events: seq<Event>,
    tenants: map<string, Tenant>,
    queues: map<QueueId, QueueRow>,
    readySeq: nat,
    schedulerSeq: nat,
    cursor: int,
    log: seq<DecisionLog.Record>,
    requests: map<RequestKey, Request>,
    operations: map<OperationKey, Operation>)

  type Outcome = Result<Db, StoreError>

  /** The tables right after the migrations. */
  const EMPTY := Db(map[], {}, map[], map[], map[], [], map[], map[], 0, 0, 0, [], map[], map[])

  // -------------------------------------------------------------------- slots

  function ReserveSlots(db: Db, tenant: string, queue: string, cost: int): Outcome {
    var q := QueueId(tenant, queue);
    if tenant !in db.tenants then Err(CapacityChanged)
    else if db.tenants[tenant].maxSlots != 0 && db.tenants[tenant].activeSlots + cost > db.tenants[tenant].maxSlots
    then Err(CapacityChanged)
    else if q !in db.queues then Err(QueueMissing)
    else Ok(Charge(db, tenant, q, cost))
  }

  function ReleaseSlots(db: Db, tenant: string, queue: string, cost: int): Outcome {
    var q := QueueId(tenant, queue);
    if tenant !in db.tenants || db.tenants[tenant].activeSlots < cost then Err(TenantSlotsInconsistent)
    else if q !in db.queues || db.queues[q].activeSlots < cost then Err(QueueSlotsInconsistent)
    else Ok(Charge(db, tenant, q, -cost))
  }

  function Charge(db: Db, tenant: string, q: QueueId, cost: int): Db
    requires tenant in db.tenants && q in db.queues
  {
    var t, r := db.tenants[tenant], db.queues[q];
    db.(tenants := db.tenants[tenant := t.(activeSlots := t.activeSlots + cost)],
        queues := db.queues[q := r.(activeSlots := r.activeSlots + cost)])
  }

  /** The slot movement that goes with a change of a job's state. */
  function Exchange(db: Db, before: Job, after: Job): Outcome {
    if !before.state.Active() && after.state.Active() then ReserveSlots(db, before.tenant, before.queue, before.cost)
    else if before.state.Active() && !after.state.Active() then ReleaseSlots(db, before.tenant, before.queue, before.cost)
    else Ok(db)
  }

  // ------------------------------------------------------------- job row changes

  /** One versioned update of a job row with everything that accompanies it: the slot movement, the
      event, and for a terminal state the completion and dead-letter rows. */
  function Move(db: Db, id: string, next: Job, kind: EventKind, now: int): Outcome
    requires id in db.jobs
  {
    var job := next.(version := db.jobs[id].version + 1, updatedAt := now);
    var charged :- Exchange(db, db.jobs[id], job);
    var _ :- Unsettled(db, id, job.state);
    Ok(Written(charged, id, job, kind, now))
  }

  /** The primary keys of the completion and dead-letter tables. */
  function Unsettled(db: Db, id: string, state: JobState): Result<(), StoreError> {
    if state.Terminal() && id in db.completions then Err(DuplicateRow)
    else if state.DeadLetter? && id in db.deadLetters then Err(DuplicateRow)
    else Ok(())
  }

  function Written(db: Db, id: string, job: Job, kind: EventKind, now: int): Db {
    db.(jobs := db.jobs[id := job],
        completions := if job.state.Terminal()
                       then db.completions[id := CompletionRow(job.state, job.version, job.attemptNo, now)]
                       else db.completions,
        deadLetters := if job.state.DeadLetter?
                       then db.deadLetters[id := DeadLetterRow(now, None)]
                       else db.deadLetters,
        events := db.events + [Event(id, kind, job.state, job.version, now)])
  }

  /** Inserts a job with its dependencies and its admission event. */
  function Admit(db: Db, id: string, job: Job, parents: set<string>, now: int): Outcome {
    if id == "" then Err(NoId)
    else if id in db.jobs then Err(IdTaken)
    else
      var _ :- Unsettled(db, id, job.state);
      Ok(Written(db.(deps := db.deps + EdgesTo(id, parents)), id, job, Admitted, now))
  }

  function EdgesTo(id: string, parents: set<string>): (r: set<Edge<string>>)
    ensures forall e :: e in r <==> e.child == id && e.parent in parents
  {
    set p | p in parents :: Edge(id, p)
  }

  /** Makes a waiting job ready: it takes the next ready sequence number. */
  function MakeReady(db: Db, id: string, kind: EventKind, now: int): Outcome
    requires id in db.jobs
  {
    var n := db.readySeq + 1;
    Move(db.(readySeq := n), id, db.jobs[id].(state := Pending, readySeq := n), kind, now)
  }

  /** Ends a job for good. */
  function Settled(job: Job, state: JobState, failure: Option<Failure>, now: int): Job {
    job.(state := state, readySeq := 0, terminalAt := Some(now), failure := failure)
  }

  // ------------------------------------------------------------------- queries

  function IdKey(r: Row): Key {
    Text(r.id)
  }

  function DueKey(r: Row): Key {
    [r.job.availableAt] + Text(r.id)
  }

  predicate ParentsSucceeded(db: Db, id: string) {
    forall e :: e in db.deps && e.child == id && e.parent in db.jobs ==> db.jobs[e.parent].state.Succeeded?
  }

  predicate Due(db: Db, id: string, now: int) {
    && id in db.jobs
    && (db.jobs[id].state.Pending? || db.jobs[id].state.Retrying?)
    && db.jobs[id].readySeq == 0
    && db.jobs[id].availableAt <= now
    && ParentsSucceeded(db, id)
  }

  ghost function DueRows(db: Db, now: int, limit: int): seq<Row> {
    Take(Query(set id | id in db.jobs && Due(db, id, now) :: Row(id, db.jobs[id]), DueKey), limit)
  }

  predicate Activatable(db: Db, id: string, parent: string, now: int) {
    && id in db.jobs && Edge(id, parent) in db.deps
    && db.jobs[id].state.Pending? && db.jobs[id].readySeq == 0 && db.jobs[id].availableAt <= now
    && ParentsSucceeded(db, id)
  }

  ghost function ChildRows(db: Db, parent: string, now: int): seq<Row> {
    Query(set id | id in db.jobs && Activatable(db, id, parent, now) :: Row(id, db.jobs[id]), IdKey)
  }

  /** Unfinished jobs that depend on `root`, directly or through others. */
  ghost function DescendantRows(db: Db, root: string): seq<Row> {
    Query(set id | id in db.jobs && Reaches(db.deps, root, id) && !db.jobs[id].state.Terminal() :: Row(id, db.jobs[id]), IdKey)
  }

  /** An open attempt joined with its job. */
  datatype HeldLease = HeldLease(id: string, attempt: Attempt, job: Job)

  function ExpiryKey(h: HeldLease): Key {
    [h.attempt.expiresAt] + Text(h.id)
  }

  function Current(db: Db, id: string): AttemptKey
    requires id in db.jobs
  {
    AttemptKey(id, db.jobs[id].attemptNo)
  }

  predicate Expired(db: Db, id: string, now: int) {
    && id in db.jobs && Current(db, id) in db.attempts
    && db.attempts[Current(db, id)].generation == db.jobs[id].generation
    && db.attempts[Current(db, id)].Open() && db.attempts[Current(db, id)].expiresAt <= now
    && db.jobs[id].state.Active()
  }

  function ExpiredSet(db: Db, now: int): set<HeldLease> {
    set id | id in db.jobs && Expired(db, id, now) :: HeldLease(id, db.attempts[Current(db, id)], db.jobs[id])
  }

  ghost function ExpiredRows(db: Db, now: int, limit: int): seq<HeldLease> {
    Take(Query(ExpiredSet(db, now), ExpiryKey), limit)
  }

  // ---------------------------------------------------------- loops over result rows

  /** A row still has the state and version it was selected with. */
  predicate Unchanged(db: Db, row: Row) {
    row.id in db.jobs && db.jobs[row.id].state == row.job.state && db.jobs[row.id].version == row.job.version
  }

  /** Promotion and activation: every selected row becomes ready, in the order selected. */
  function ReadyRow(db: Db, row: Row, kind: EventKind, now: int): Outcome {
    if Unchanged(db, row) && db.jobs[row.id].readySeq == 0 then MakeReady(db, row.id, kind, now)
    else Err(RowChanged)
  }

  function ReadyRows(db: Db, rows: seq<Row>, kind: EventKind, now: int): Outcome {
    if rows == [] then Ok(db) else
      var before :- ReadyRows(db, rows[..|rows| - 1], kind, now);
      ReadyRow(before, rows[|rows| - 1], kind, now)
  }

  function FailRow(db: Db, row: Row, now: int): Outcome {
    if Unchanged(db, row) && !db.jobs[row.id].state.Terminal()
    then Move(db, row.id, Settled(db.jobs[row.id], DeadLetter, Some(UPSTREAM_FAILED), now), UpstreamFailed, now)
    else Err(RowChanged)
  }

  function FailRows(db: Db, rows: seq<Row>, now: int): Outcome {
    if rows == [] then Ok(db) else
      var before :- FailRows(db, rows[..|rows| - 1], now);
      FailRow(before, rows[|rows| - 1], now)
  }

  ghost function ActivateChildren(db: Db, parent: string, now: int): Outcome {
    ReadyRows(db, ChildRows(db, parent, now), DependencyReleased, now)
  }

  ghost function FailDescendants(db: Db, root: string, now: int): Outcome {
    FailRows(db, DescendantRows(db, root), now)
  }
}
