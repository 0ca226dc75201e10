/** Rows and requests of the store (internal/domain/domain.go and the table definitions). */
module Domain {
  import opened Wrappers

  datatype JobState = Pending | Scheduled | Running | Retrying | Succeeded | Failed | DeadLetter {
    predicate Terminal() {
      Succeeded? || Failed? || DeadLetter?
    }

    /** States in which a job occupies slots. */
    predicate Active() {
      Scheduled? || Running?
    }

    predicate Unsuccessful() {
      Failed? || DeadLetter?
    }
  }

  datatype RetryPolicy = RetryPolicy(maxAttempts: int, retryable: bool)

  datatype Payload = Noop(durationMs: int) | Shell(args: seq<string>) | Unsupported

  datatype Failure = Failure(class_: string, message: string)

  const UPSTREAM_FAILED := Failure("upstream_failed", "an upstream dependency did not succeed")
  const LEASE_EXPIRED := Failure("lease_expired", "worker lease expired before completion")
  const ATTEMPT_FAILED := Failure("attempt_failed", "worker reported an unsuccessful attempt")

  datatype JobSpec = JobSpec(
    tenant: string, queue: string, priority: int, cost: int, payload: Payload, retry: RetryPolicy,
    dependsOn: seq<string>, availableAt: Option<int>)
  {
    function Normalize(): JobSpec {
      this.(tenant := if tenant == "" then "default" else tenant,
            queue := if queue == "" then "default" else queue,
            cost := if cost == 0 then 1 else cost,
            retry := if retry.maxAttempts == 0 then RetryPolicy(5, true) else retry)
    }

    /** Of an already normalized specification. */
    predicate Valid(maxCost: int, allowShell: bool) {
      && 1 <= cost <= maxCost
      && 1 <= retry.maxAttempts <= 100
      && match payload
         case Noop(ms) => ms >= 0
         case Shell(args) => allowShell && |args| > 0 && args[0] != ""
         case Unsupported => false
    }
  }

  datatype Job = Job(
    tenant: string, queue: string, priority: int, cost: int, payload: Payload, retry: RetryPolicy,
    state: JobState, attemptNo: nat, version: nat, generation: nat,
    availableAt: int, readySeq: nat, recovery: bool, updatedAt: int,
    terminalAt: Option<int>, failure: Option<Failure>)

  /** A job row as a query returned it. */
  datatype Row = Row(id: string, job: Job)

  datatype LeaseRef = LeaseRef(job: string, attemptNo: int, generation: int, token: string)

  datatype Completion = Completion(
    ref: LeaseRef, worker: string, success: bool, retryable: bool, output: string, failure: Option<Failure>)

  datatype Receipt = Receipt(job: string, state: JobState, version: nat, committedAt: int, duplicate: bool)

  datatype AttemptState = LeaseHeld | LeaseRunning | LeaseSucceeded | LeaseFailed | LeaseExpired

  /** The completion digest and the receipt columns, which are written together. */
  datatype Closing = Closing(request: Completion, state: JobState, version: nat, committedAt: int)

  datatype Attempt = Attempt(
    worker: string, generation: nat, token: string, state: AttemptState,
    leasedAt: int, heartbeatAt: int, expiresAt: int, completedAt: Option<int>,
    failure: Option<Failure>, closing: Option<Closing>)
  {
    predicate Open() {
      state.LeaseHeld? || state.LeaseRunning?
    }
  }

  datatype AttemptKey = AttemptKey(job: string, no: int)

  datatype CompletionRow = CompletionRow(state: JobState, version: nat, attemptNo: nat, committedAt: int)

  datatype DeadLetterRow = DeadLetterRow(createdAt: int, redriven: Option<string>)

  datatype EventKind =
    | Admitted | Promoted | DependencyReleased | LeaseAcquired | AttemptStarted
    | RetryScheduled | JobCompleted | LeaseReaped | UpstreamFailed
    | OperatorCancel | OperatorFail | OperatorDeadLetter | OperatorRelease
    | OperatorRedrive | OperatorRetry
  {
    /** Events that note an operator action on a settled job without changing its row. */
    predicate Marker() {
      OperatorRedrive? || OperatorRetry?
    }
  }

  datatype Event = Event(job: string, kind: EventKind, state: JobState, version: nat, at: int)

  datatype Tenant = Tenant(maxDepth: nat, maxSlots: nat, activeSlots: int)

  datatype QueueId = QueueId(tenant: string, name: string)

  datatype QueueRow = QueueRow(weight: int, deficit: int, activeSlots: int)

  datatype Lease = Lease(
    job: string, attemptNo: nat, generation: nat, token: string, worker: string,
    expiresAt: int, readyAt: int, cost: int, payload: Payload)

  datatype StoreError =
    | StaleLease | CapacityChanged | QueueMissing | TenantSlotsInconsistent | QueueSlotsInconsistent
    | DuplicateRow | RowChanged | UnknownGrant | Undecided | LogRejected | BadDelay
    | NoId | IdTaken | NotFound | TerminalJob | Conflict | IdempotencyConflict
    | QueueFull | AlreadyRedriven | CycleDetected | BadRequest
  {
    /** Errors that would mean the store's tables disagree with each other. */
    predicate Corruption() {
      || QueueMissing? || TenantSlotsInconsistent? || QueueSlotsInconsistent? || DuplicateRow?
      || RowChanged? || UnknownGrant? || Undecided? || LogRejected? || BadDelay?
    }
  }
}
