# Rail Yard, verified

A Dafny model of Rail Yard's job store, scheduler, worker loop and ingestion, with proofs of what they promise.

**The store.** The tables of the SQLite store are one value, `Db` (`Database.dfy`). A transaction is a function from
tables to tables or an error that rolls it back (`Transactions.dfy`). `Transacting.dfy`, `Dispatch.dfy` and `Store.dfy`
hold the code as the program has it: loops over selected rows and a class whose methods read the write clock, run one
transaction and commit. Every method keeps the store invariant and is one step of a run (`Runs.dfy`), a restart too, so
that theorems about runs are theorems about the object. The invariant `Consistent` conjoins slot conservation (`Accounts`), one terminal outcome
(`Ledger`), the event journal (`Journal`), lease fencing (`Fencing`), bounded lifetimes and backoff (`Lifetime`),
dependency gating (`Dependencies`) and the decision log. `Steps.dfy` and `Loops.dfy` prove it for single row changes and
for loops over rows; `Preservation`, `Maintenance`, `Operations`, `Admission`, `Workflows` and `Acquisition` for whole
transactions; `Runs` for every reachable state. `Effects.dfy` says what each transaction does to whom, in terms of the
rows before and after and not of its own code. `Traces.dfy` and `Histories.dfy` follow what transactions and runs leave
behind in events, stamps and stored replies, and `Scenarios.dfy` holds concrete runs from empty tables on which something
fails.

**The scheduler.** `Scheduler.dfy` is deficit round robin with its loops, `SchedulerLaws.dfy` its accounting, fairness,
work conservation and independence of input order, `Planning.dfy` and `Dispatch.dfy` the SQL ranking that feeds it, and
`DecisionLog.dfy` the hash chain and the replay.

**The rest.** `Worker*.dfy` is the worker's event loop, `WriteGate.dfy` the priority write gate under every
interleaving, `Topology.dfy` and `WorkflowCheck.dfy` Kahn's algorithm in its two forms, `Oracle*.dfy` the independent
reconciliation, and `Ingestion.dfy` the two-transaction cron and Redis ingestion under crashes.

Clock readings, fresh identifiers, lease tokens, jitter digests and failures of outside calls are parameters. SHA-256
digests and JSON encodings stand for the values they encode, so equal digests mean equal values. Integers are unbounded.
An order by several columns is an order on integer sequences (`Ordering.dfy`).

Five things the program's own words suggest are not true of its code. Each has a concrete run that shows it and the
condition under which the promise does hold:

- Reaping does not always complete. After an operator released a job whose parents had not succeeded, one exhausted
  lease can take down another lease of the same batch. Then the whole batch fails (`Scenarios.ReapingStuck`), and
  reaping again never gets past it (`Scenarios.StuckForGood`). It fails exactly when the batch holds an exhausted lease
  and, after it, a lease of a job that depends on it (`Maintenance.ReapAborts`), and never without such a release
  (`Runs.ReapingCompletes`).
- Acquisition does not always deliver. Candidates pass the tenant limit one by one, and the batch fails exactly when its
  grants together exceed it (`Acquisition.AcquireAborts`). Two one-slot jobs of a one-slot tenant are enough, and the
  same request never succeeds (`Scenarios.AcquisitionFails`, `Scenarios.AcquisitionFailsForGood`). Where the ready jobs
  of every limited tenant fit its free slots, acquisition delivers (`Acquisition.AcquireDelivers`).
- The oracle does not accept every healthy store. It refuses exactly those whose log holds a redrive or retry event,
  because these repeat a version (`OracleLaws.Verdict`). Every committed redrive or retry writes one
  (`OracleLaws.ClonesMark`), from then on every state is refused (`OracleLaws.MarkedForGood`, a run in
  `Scenarios.OracleRefuses`), and runs without these operations never write one (`Histories.NoClonesNoMarkers`).
- Redis keys do not tell all messages apart. With message identifiers free of colons two keys agree exactly when trigger
  and stream read the same with a colon between them (`Ingestion.KeysAgree`, `Ingestion.KeysMayCollide`). Messages that
  share tenant and key share one job (`Ingestion.KeysDecideJobs`), the second one creates nothing
  (`Ingestion.CollisionCreatesNothing`), and without colons every acknowledged message has its own
  (`Ingestion.MessagesHaveOwnJobs`).
- An expired lease is not fenced for good. An expiry that only the running process's clock has reached is forgotten by a
  restart, and a start succeeds afterwards (`Scenarios.RestartRevives`). An open lease past its expiry is fenced through
  every later run exactly when some stamp in the tables has reached the expiry (`Histories.ExpiryOutlivesRestarts`).

One smaller observation: the sequence column of a decision record is not covered by its hash
(`DecisionLog.SequenceNotHashed`, `DecisionLog.SequenceMayDiffer`).

## Model

| member | source | states |
|---|---|---|
| `Runs.Reachable` | internal/store/sqlite/sqlite.go:91-160 | every state reachable from empty tables by any operations, errors and restarts satisfies the whole store invariant, and no event is stamped later than the write clock |
| `Runs.PerformObeys` | internal/store/sqlite/leases.go:64-776 | every operation at any time keeps the invariant, changes tables only in ways that keep settled rows, closed attempts, logs and stored replies, and reports corruption only after a blocked release |
| `Runs.NeverCorrupt` | internal/store/sqlite/leases.go:905-954 | without blocked releases no operation of any run reports inconsistent slots, duplicate rows, changed rows or any other corruption |
| `Runs.RunOrderly` | internal/store/sqlite/operations.go:566-592 | as long as every release meets a job whose parents succeeded, jobs begin only after all parents succeeded and no attempt stays open without a leased job |
| `Runs.AncestorsFirst` | internal/store/sqlite/maintenance.go:410-503 | without blocked releases a job that is ready or has ever been leased has only succeeded ancestors |
| `Runs.SomeJobCanProceed` | internal/store/sqlite/maintenance.go:505-648 | in every reachable state with an unfinished job, some unfinished job has only succeeded parents: dependencies never deadlock |
| `Runs.ReapingCompletes` | internal/store/sqlite/maintenance.go:144-239 | over runs without blocked releases reaping never aborts and reclaims exactly min(limit, number expired) leases |
| `Runs.FencedForGood` | internal/store/sqlite/leases.go:303-466 | once an attempt is closed, or its expiry was reached and stays behind the clock through every later restart, no start, heartbeat or completion citing it changes anything after any later steps |
| `Histories.FencedThroughRestarts` | internal/store/sqlite/sqlite.go:125-160 | an expiry that the clock has reached and some stamp in the tables too fences its lease through every later run and restart |
| `Histories.ExpiryOutlivesRestarts` | internal/store/sqlite/sqlite.go:125-147 | an open lease past its expiry can never be started again, over all later runs, exactly when the latest stamp in the tables has reached the expiry |
| `Scenarios.RestartRevives` | internal/store/sqlite/sqlite.go:125-147 | a run from empty tables in which the start of an expired lease is refused, and after a restart the same start at the same clock reading succeeds |
| `Runs.CompletionReceipted` | internal/store/sqlite/leases.go:710-734 | an accepted completion leaves its receipt on the closed attempt |
| `Runs.ReceiptsReplay` | internal/store/sqlite/leases.go:573-601 | after any later steps and restarts the completion that closed an attempt gets its receipt again, marked duplicate and changing nothing, and every other completion of that attempt is stale |
| `Runs.FinishedForGood` | internal/store/sqlite/leases.go:642-708 | a terminal job's row, its completion row and its redrive link never change again; a dead-letter row exists exactly for dead letters |
| `Runs.LogReplays` | internal/store/sqlite/decisionlog.go:9-33 | the exported decision log of every reachable state has sequences 1..n, reads back as written, and every decision is reproduced byte for byte from its recorded input |
| `Runs.LifetimeBounds` | internal/store/sqlite/leases.go:622-640 | with r operator releases a job never exceeds MaxAttempts + r attempts and 4·MaxAttempts + 5r + 1 versions |
| `Runs.BackoffHonoured` | internal/store/sqlite/leases.go:622-640 | after a retryable failure of attempt k committed at t, attempt k + 1 is leased no earlier than t plus the shortest delay of k, unless the job was released between the two leases |
| `Runs.RunPersists` | internal/store/sqlite/sqlite.go:149-160 | settled jobs, closed attempts, expired leases, outcomes, logs, edges and stored replies survive every run |
| `Effects.CompleteEffect` | internal/store/sqlite/leases.go:555-776 | a completion is accepted exactly from the lease holder, as a replay or while the lease is current; success readies exactly the jobs that waited only for it, an allowed retry waits between the shortest and the longest delay, any other failure dead-letters exactly the unfinished descendants; nobody else changes |
| `Effects.StartEffect` | internal/store/sqlite/leases.go:303-384 | a start is accepted exactly while the cited lease is current and unexpired and its job leased; only that job changes, and repeating the start changes nothing |
| `Effects.HeartbeatEffect` | internal/store/sqlite/leases.go:386-466 | a heartbeat is accepted exactly while the cited lease is current and unexpired and its job leased; it extends that lease to at least now + ttl, never shortens it, and touches nothing else |
| `Effects.CompleteBatchIsFold` | internal/store/sqlite/leases.go:514-553 | a batch of completions never aborts; each item gets the reply and leaves the tables it would on its own after the items before it, and a stale item leaves them untouched |
| `Effects.StartBatchIsFold` | internal/store/sqlite/leases.go:262-301 | the same for a batch of starts |
| `Effects.AcquireEffect` | internal/store/sqlite/leases.go:64-234 | the leases are, in order, the grants the scheduler would make on the whole ready set, each live for the worker; only granted jobs change, and cursor, deficits and one log record are those of that decision |
| `Effects.LeasesAreNew` | internal/store/sqlite/leases.go:136-189 | every lease is of an attempt that did not exist before, and no job is leased twice in one batch |
| `Effects.NeverLeasedAgain` | internal/store/sqlite/leases.go:136-189 | no attempt is leased a second time after any later steps and restarts |
| `Effects.ControlEffect` | internal/store/sqlite/operations.go:478-678 | a stored reply is repeated; otherwise an unfinished job reaches the requested state, its lease is fenced, a release moves nobody else and any other action dead-letters exactly the unfinished descendants |
| `Effects.SubmitEffect` | internal/store/sqlite/submissions.go:16-179 | a new key adds exactly one job and its edges: dead on arrival exactly when a parent failed, ready exactly when all parents succeeded and its time has come; a known key changes nothing |
| `Effects.WorkflowEffect` | internal/store/sqlite/submissions.go:181-321 | a workflow adds one waiting job per node under distinct identifiers and exactly the declared edges, and leaves every other job alone |
| `Effects.RedriveEffect` | internal/store/sqlite/operations.go:680-791 | a new redrive repeats a dead letter that had not been redriven as one ready job with the same specification, links the two and leaves every other job alone |
| `Effects.RetryEffect` | internal/store/sqlite/operations.go:793-925 | a new retry repeats a terminal job as one ready job with the same specification and leaves every other job alone |
| `Effects.SubmissionsReplay` | internal/store/sqlite/submissions.go:338-375 | after any later steps and restarts the key of a committed submission is answered with the same row and changes nothing, and with another digest it is a conflict |
| `Effects.WorkflowsReplay` | internal/store/sqlite/submissions.go:181-375 | the same for workflows: the key is answered with the rows of the first submission for good, and with another digest it is a conflict |
| `Effects.OperationsReplay` | internal/store/sqlite/operations.go:1515-1540 | stored replies of control, retry and redrive answer their key for good; another digest is a conflict |
| `Preservation.CompleteKeeps` | internal/store/sqlite/leases.go:555-776 | a completion keeps the invariant or is stale; under the invariant no other error exists |
| `Preservation.CompleteAllKeeps` | internal/store/sqlite/leases.go:514-553 | under the invariant a batch of completions cannot abort and answers every item |
| `Preservation.FailDescendantsKeeps` | internal/store/sqlite/maintenance.go:505-648 | propagating a failure cannot fail, dead-letters exactly the unfinished jobs that depend on it, directly or not, and restores the invariant |
| `Preservation.ActivateChildrenKeeps` | internal/store/sqlite/maintenance.go:410-503 | waking children after a success cannot fail and restores the invariant |
| `Maintenance.PromoteKeeps` | internal/store/sqlite/maintenance.go:13-128 | promotion cannot fail, readies exactly the earliest due jobs up to the limit, each with all parents succeeded, and changes no other job |
| `Maintenance.ReapAborts` | internal/store/sqlite/maintenance.go:144-408 | reaping fails exactly when the batch holds an exhausted lease and, after it, a lease of a job depending on it; otherwise every lease of the batch is reclaimed, exhausted ones take their descendants down and nobody else changes |
| `Maintenance.ReapCompletes` | internal/store/sqlite/maintenance.go:144-239 | in orderly states reaping succeeds and reports min(limit, number expired) leases |
| `Scenarios.ReapingStuck` | internal/store/sqlite/maintenance.go:241-280 | a run of four steps from empty tables, with room for two open jobs and no slot limit: parent with one attempt, dependent child, forced release of the child, leases for both; from the expiry on every reaping with limit at least two fails although two leases have expired |
| `Scenarios.StuckForGood` | internal/store/sqlite/maintenance.go:144-239 | after that run any number of reapings leaves the tables as they are |
| `Operations.StartKeeps` | internal/store/sqlite/leases.go:303-384 | a start keeps the invariant or is stale |
| `Operations.StartAllKeeps` | internal/store/sqlite/leases.go:262-301 | under the invariant a batch of starts cannot abort |
| `Operations.BeatAllKeeps` | internal/store/sqlite/leases.go:386-466 | heartbeats keep the invariant and no job row changes |
| `Operations.ControlKeeps` | internal/store/sqlite/operations.go:478-678 | operator control keeps the invariant, fails only for unknown or terminal jobs or a reused key, and can break orderliness only by a blocked release |
| `Admission.SubmitKeeps` | internal/store/sqlite/submissions.go:16-179 | a submission keeps the invariant or fails with one of its own errors; a duplicate changes nothing |
| `Admission.RedriveKeeps` | internal/store/sqlite/deadletters.go:65-215 | a redrive keeps the invariant, and tables that change link a dead letter that had no link before, through either entry point |
| `Admission.RetryKeeps` | internal/store/sqlite/operations.go:793-878 | a retry keeps the invariant or fails with one of its own errors |
| `Workflows.WorkflowKeeps` | internal/store/sqlite/submissions.go:181-321 | a workflow keeps the invariant, including acyclicity of the whole dependency graph, or fails with one of its own errors |
| `Acquisition.AcquireKeeps` | internal/store/sqlite/leases.go:64-234 | an acquisition keeps the invariant and every lease handed out is live, or it fails for want of an identifier or of tenant capacity |
| `Acquisition.AcquireAborts` | internal/store/sqlite/leases.go:120-189 | with identifiers at hand acquisition fails exactly when the decision's grants together exceed what some tenant may still use |
| `Acquisition.AcquireDelivers` | internal/store/sqlite/scheduling.go:33-58 | where every limited tenant has room for all its ready jobs together, acquisition delivers |
| `Scenarios.AcquisitionFails` | internal/store/sqlite/leases.go:120-189 | a run from empty tables, with a tenant limit of one slot, after which two one-slot jobs are both eligible and a request for both fails, at any time and with any identifiers |
| `Scenarios.AcquisitionFailsForGood` | internal/store/sqlite/leases.go:64-234 | repeating that request any number of times leaves the tables as they are |
| `Acquisition.AcquireBounded` | internal/store/sqlite/leases.go:64-118 | at most `limit` leases are handed out, and their slots stay within the worker's less the recovery reserve |
| `Planning.CutPlanDecides` | internal/store/sqlite/scheduling.go:23-170 | cutting every queue to its best `limit` rows in SQL rank order gives the same grants, deficits and cursor as the whole ready set |
| `Planning.CutShowsRecovery` | internal/store/sqlite/scheduling.go:117-140 | the cut shows a waiting recovery exactly when the whole ready set has one |
| `Planning.PlannedCanonical` | internal/store/sqlite/scheduling.go:23-170 | the planned queues are already in the scheduler's canonical order |
| `Dispatch.SelectedIsRanked` | internal/store/sqlite/scheduling.go:33-58 | selecting rows by their row number within tenant and queue is taking the best `limit` of each queue's ranking |
| `Dispatch.PlanIsCanonical` | internal/store/sqlite/scheduling.go:60-160 | grouping the selected rows by queue in result order gives, once canonical, exactly the planned queues |
| `Dispatch.AcquireLeases` | internal/store/sqlite/leases.go:64-234 | the loops that select, group, decide, lease and persist compute the acquisition transaction |
| `Scheduler.CloneAndSort` | internal/scheduler/scheduler.go:144-171 | queues come out ordered by tenant and name, each with its candidates by recovery, priority, ready sequence and identifier, as the canonical form |
| `Scheduler.RunDecide` | internal/scheduler/scheduler.go:71-142 | the nested loops compute the decision function that all scheduler laws are about |
| `SchedulerLaws.DecideAudited` | internal/scheduler/scheduler.go:71-142 | a decision grants at most WorkerSlots slots and BatchLimit jobs; each queue gets a prefix of its sorted candidates, and its deficit is the initial one plus a quantum per nonempty visit less the slots granted |
| `SchedulerLaws.WorkConserving` | internal/scheduler/scheduler.go:91-138 | a decision that leaves slots free and the batch unfilled leaves no queue whose head fits its deficit and the free slots |
| `SchedulerLaws.VisitsEven` | internal/scheduler/scheduler.go:91-94 | visits to any two queues differ by at most one |
| `SchedulerLaws.Fairness` | internal/scheduler/scheduler.go:96-138 | two queues of equal weight, never found empty and stopped by their deficits, differ in granted slots by less than the initial deficit gap plus one quantum plus the largest cost |
| `SchedulerLaws.DecideDraws` | internal/scheduler/scheduler.go:112-131 | every grant is of an offered candidate and no job is granted twice |
| `SchedulerLaws.DecideSucceeds` | internal/scheduler/scheduler.go:71-120 | with valid limits and positive costs a decision is always reached |
| `SchedulerLaws.DecidePermuted` | internal/scheduler/scheduler.go:71-171 | permuting queues with distinct names or candidates with distinct jobs does not change the decision |
| `SchedulerLaws.DecideCanonical` | internal/scheduler/scheduler.go:60-69 | deciding the canonical snapshot is deciding the snapshot, and canonicalisation is idempotent |
| `SchedulerLaws.CutPreservesDecision` | internal/scheduler/scheduler.go:96-169 | candidates beyond the first BatchLimit of a sorted queue never influence a decision |
| `DecisionLog.NewRecordVerifies` | internal/decisionlog/log.go:36-77 | a new record verifies against its predecessor, keeps its decision, and its recorded input leads to the same decision |
| `DecisionLog.Writer.Append` | internal/decisionlog/log.go:97-115 | appending extends the chain by the new record, or changes nothing on error |
| `DecisionLog.ReadAll` | internal/decisionlog/log.go:123-158 | a log is read exactly when every line decodes, sequences are 1..n and every record verifies against the one before; blank lines are skipped |
| `DecisionLog.HeadDeterminesLog` | internal/decisionlog/log.go:62-77 | two readable logs with the same head hash have the same length, decisions and canonical inputs |
| `DecisionLog.SequenceNotHashed` | internal/decisionlog/log.go:62-77 | verification does not depend on the record's sequence column |
| `DecisionLog.SequenceMayDiffer` | internal/decisionlog/log.go:123-158 | some readable log has a record whose sequence differs from its input's |
| `DecisionLog.Divergence` | internal/replay/replay.go:71-100 | the reported offset is the first byte at which the two encodings differ |
| `DecisionLog.Run` | internal/replay/replay.go:36-69 | replay succeeds exactly when the log is readable and every decision is reproduced from its input, and then outputs all of them; otherwise it names the first that is not |
| `DecisionLog.RecordedReplays` | internal/replay/replay.go:36-69 | a log written from decisions in sequence is readable and replays |
| `Backoff.Delay` | internal/retry/backoff.go:17-39 | a delay exists exactly for a named job and a positive attempt and lies between 0.8 times the cap and the cap |
| `Backoff.ReleaseAt` | internal/retry/backoff.go:41-47 | the release lies that delay after now |
| `Transacting.FindDescendants` | internal/store/sqlite/maintenance.go:511-540 | the recursive query returns exactly the unfinished jobs reachable over dependency edges, by identifier |
| `Transacting.FailDescendantsTx` | internal/store/sqlite/maintenance.go:505-648 | the loop computes failure propagation, error path included |
| `Transacting.ActivateChildrenTx` | internal/store/sqlite/maintenance.go:410-503 | the loop computes activation of children |
| `Transacting.ApplyCompletion` | internal/store/sqlite/leases.go:555-776 | the code computes the completion transaction |
| `Transacting.ApplyCompletions` | internal/store/sqlite/leases.go:514-553 | the loop computes the batch, going on after stale items and stopping at any other error |
| `Transacting.StartOne` | internal/store/sqlite/leases.go:303-384 | the code computes the start transaction |
| `Transacting.StartEach` | internal/store/sqlite/leases.go:262-301 | the loop computes the batch of starts |
| `Transacting.BeatEach` | internal/store/sqlite/leases.go:386-466 | the loop computes the heartbeats |
| `Transacting.Promote` | internal/store/sqlite/maintenance.go:13-128 | the loop computes promotion |
| `Transacting.Reap` | internal/store/sqlite/maintenance.go:144-239 | the loop computes reaping, stopping at the first error |
| `Transacting.ApplyControl` | internal/store/sqlite/operations.go:478-678 | the code computes operator control |
| `Transacting.CloneOne` | internal/store/sqlite/operations.go:880-925 | the code computes the copy of a job |
| `Transacting.RedriveOne` | internal/store/sqlite/operations.go:680-791 | the code computes the redrive transaction |
| `Transacting.RetryOne` | internal/store/sqlite/operations.go:793-878 | the code computes the retry transaction |
| `Store.CheckParents` | internal/store/sqlite/submissions.go:377-424 | the loop accepts exactly distinct, existing parents of the same tenant, reports the first error, and tells whether all succeeded and whether any failed |
| `Store.SubmitOne` | internal/store/sqlite/submissions.go:16-179 | the code computes the submission transaction |
| `Store.SubmitMany` | internal/store/sqlite/submissions.go:181-321 | the loops compute the workflow transaction |
| `Store.Store.WriteTime` | internal/store/sqlite/sqlite.go:149-160 | stamps never go back while the process lives |
| `Store.Store.Reopen` | internal/store/sqlite/sqlite.go:125-147 | the loop over the stamps takes the restart step: the store invariant is kept, the tables stay and the clock falls back to the latest stamp |
| `Store.Store.SubmitJob` | internal/store/sqlite/submissions.go:16-179 | keeps the store invariant, takes exactly one submission step of a run at the monotone time, and answers as the transaction does |
| `Store.Store.SubmitWorkflow` | internal/store/sqlite/submissions.go:181-321 | keeps the store invariant, takes one step of a run and answers as the workflow transaction does |
| `Store.Store.Acquire` | internal/store/sqlite/leases.go:64-234 | keeps the store invariant, takes one step of a run and answers as the acquisition transaction does; a malformed request changes neither tables nor clock |
| `Store.Store.MarkRunning` | internal/store/sqlite/leases.go:236-260 | keeps the store invariant as one step of a run; succeeds exactly for the holder of a current, unexpired lease of a leased job, then only that job changes and it runs; otherwise the lease is stale and nothing changes |
| `Store.Store.MarkRunningBatch` | internal/store/sqlite/leases.go:262-301 | keeps the store invariant, takes one step of a run and answers as the start batch transaction does; an empty or oversized batch changes nothing |
| `Store.Store.Heartbeat` | internal/store/sqlite/leases.go:386-466 | keeps the store invariant, takes one step of a run and answers as the heartbeat transaction does; a nonpositive ttl changes nothing |
| `Store.Store.Complete` | internal/store/sqlite/leases.go:488-512 | keeps the store invariant, takes one step of a run and answers as the completion transaction does |
| `Store.Store.CompleteBatch` | internal/store/sqlite/leases.go:514-553 | keeps the store invariant, takes one step of a run and answers as the completion batch transaction does; an empty or oversized batch changes nothing |
| `Store.Store.PromoteDue` | internal/store/sqlite/maintenance.go:13-128 | keeps the store invariant, takes one step of a run and answers as the promotion transaction does; a limit below one changes nothing |
| `Store.Store.ReapExpired` | internal/store/sqlite/maintenance.go:144-239 | keeps the store invariant, takes one step of a run and answers as the reaping transaction does; a limit below one changes nothing |
| `Store.Store.ApplyJobControl` | internal/store/sqlite/operations.go:478-678 | keeps the store invariant, takes one step of a run and answers as the control transaction does |
| `Store.Store.RedriveDeadLetter` | internal/store/sqlite/deadletters.go:65-215 | keeps the store invariant as one step of a run; success under a new key repeats a dead letter that had no link, as one ready job with the same specification, and links the two |
| `Store.Store.RetryJob` | internal/store/sqlite/operations.go:793-878 | keeps the store invariant as one step of a run; success under a new key repeats a terminal job as one ready job with the same specification |
| `WorkflowCheck.ValidateWorkflow` | internal/store/sqlite/submissions.go:426-507 | a workflow is accepted exactly when its nodes are valid and acyclic; a cycle among otherwise valid nodes is reported as such |
| `Topology.TopologicalOrder` | internal/dag/dag.go:15-71 | an order is returned exactly for well-formed acyclic nodes; it respects every dependency, lists every node once and takes the least available key at each place; a cycle is reported exactly when one exists among well-formed nodes |
| `Topology.InsertSorted` | internal/dag/dag.go:73-79 | insertion keeps a sorted list sorted and adds exactly the value, repeats included |
| `Topology.GreedyLeast` | internal/dag/dag.go:15-71 | an order that takes the least available key at each place is lexicographically least among all orders that respect the dependencies |
| `Topology.KahnEnds` | internal/dag/dag.go:53-70 | an exhausted ready list has listed every node exactly when the graph is acyclic |
| `Oracle.Analyze` | qa/p1/reconcile.go:257-341 | the report passes exactly when the snapshot is clean for the expectation: accepted jobs, outcomes, attempts and events all as stated |
| `Oracle.CheckAttempts` | qa/p1/reconcile.go:343-375 | attempt faults are reported exactly when numbers or generations of a job are not positive and strictly increasing |
| `Oracle.CheckEvents` | qa/p1/reconcile.go:377-415 | event faults are reported exactly when sequences have gaps, versions of a job are not consecutive, a recorded previous state is wrong or the events do not fold to the job row |
| `OracleLaws.Verdict` | qa/p1/reconcile.go:257-469 | the oracle accepts a consistent store exactly when its log holds no redrive or retry event and it meets the caller's requirements |
| `OracleLaws.OracleAccepts` | qa/p1/reconcile.go:448-469 | every state reached without redrive and retry steps passes; with all jobs terminal also with RequireTerminal, and with RequireQuiescent when no release was blocked |
| `Histories.NoClonesNoMarkers` | internal/store/sqlite/operations.go:680-925 | over runs without redrive and retry steps, whatever else they do, no event repeats a version |
| `OracleLaws.ClonesMark` | internal/store/sqlite/operations.go:758-765 | every redrive or retry committed under a new key leaves an event that repeats its job's version |
| `OracleLaws.MarkedForGood` | qa/p1/reconcile.go:377-415 | once such an event exists the oracle refuses every later state, whatever is required of it |
| `Scenarios.OracleRefuses` | qa/p1/reconcile.go:377-415 | a run from empty tables, submission, cancellation and retry, whose final state the oracle refuses whatever is required of it |
| `WriteGate.OneHolder` | internal/store/sqlite/sqlite.go:181-206 | under every interleaving at most one thread holds the gate |
| `WriteGate.EntryRespectsPriority` | internal/store/sqlite/sqlite.go:181-199 | a thread enters only a free gate and only when no counted waiter has higher priority |
| `WriteGate.SleepersAreWatched` | internal/store/sqlite/sqlite.go:181-206 | no wakeup is lost: at a free gate every sleeping waiter has an awake waiter of higher priority |
| `WriteGate.SomebodyEnters` | internal/store/sqlite/sqlite.go:181-206 | from every reachable state with a free gate and a waiter, at most three steps of the waiters themselves let one in |
| `WriteGate.HasHigherWaiter` | internal/store/sqlite/sqlite.go:192-199 | the scan finds a waiter of higher priority exactly when one is counted |
| `WorkerRuns.RunSteady` | internal/worker/run.go:145-694 | the loop invariant holds after every sequence of replies, ticks and registrations |
| `WorkerRuns.NobodyStranded` | internal/worker/run.go:386-434 | every active attempt has exactly one thing that will move it on, by phase: a start call, a retry or a pending execution awaiting registration; an execution; a queue place with the timer armed or a retry awaiting registration; a completion call |
| `WorkerRuns.NothingTwice` | internal/worker/run.go:258-343 | no attempt is handed to the executor twice or is in two completion calls |
| `WorkerRuns.CapacityKept` | internal/worker/run.go:199-256 | the slots in use are the sum over active attempts and within the worker's, no job has two active attempts, no attempt is reported more often than allowed, and of acquire, heartbeat and registration calls at most one each is outstanding, exactly while its flag is set |
| `WorkerRuns.DeferredSafe` | internal/worker/run.go:466-509 | while an acquisition is deferred no acquire call is outstanding, so it is never overwritten |
| `WorkerLoop.EventLoop.TakeLeases` | internal/worker/run.go:466-509 | taking leases one by one computes the handler's function |
| `WorkerLoop.EventLoop.FlushCompletions` | internal/worker/run.go:386-417 | the loop over the queue computes the flush |
| `WorkerLoop.EventLoop.QueueCompletion` | internal/worker/run.go:419-434 | queueing flushes at the batch size and arms the timer otherwise |
| `WorkerLoop.EventLoop.OnAcquired` | internal/worker/run.go:523-534 | the reply to an acquire call: processed at once, or deferred while a registration is needed, as the function the loop laws are about |
| `WorkerLoop.EventLoop.OnStarted` | internal/worker/run.go:536-568 | the reply to a start call, by phase, epoch and kind of error, as the function the loop laws are about |
| `WorkerLoop.EventLoop.OnExecuted` | internal/worker/run.go:570-575 | a finished execution is queued for completion, and any other is ignored, as the function the loop laws are about |
| `WorkerLoop.EventLoop.OnCompleted` | internal/worker/run.go:577-609 | completion replies item by item: done, requeued, held for registration or given up, as the function the loop laws are about |
| `WorkerLoop.EventLoop.OnHeartbeat` | internal/worker/run.go:611-637 | a heartbeat reply drops exactly the rejected leases that are still the same, as the function the loop laws are about |
| `WorkerLoop.EventLoop.OnRegistered` | internal/worker/run.go:639-677 | a registration starts a new epoch, resumes every held attempt in any order and processes a deferred acquisition, as the function the loop laws are about |
| `Ingestion.AtMostOneJob` | internal/store/sqlite/triggers.go:130-319 | under any crashes, redeliveries, competing consumers and other store traffic a cron occurrence or Redis message creates at most one job |
| `Ingestion.AcknowledgedHasJob` | internal/trigger/redis.go:155-173 | an acknowledged message has a delivery row naming an existing job, and any job its submissions created is that one |
| `Ingestion.KeysDecideJobs` | internal/store/sqlite/triggers.go:241-319 | over every run two recorded sources have the same job exactly when they share tenant and key, and then they have the same digest |
| `Ingestion.CollisionCreatesNothing` | internal/store/sqlite/triggers.go:241-319 | a message that shares tenant and key with a recorded one creates no job: it is given the other's job, or refused, always so under another digest |
| `Ingestion.MessagesHaveOwnJobs` | internal/trigger/redis.go:20-22 | with trigger and message identifiers free of colons, distinct acknowledged messages have distinct jobs |
| `Ingestion.NoConflict` | internal/store/sqlite/triggers.go:291-312 | recording a delivery never meets a different job |
| `Ingestion.FiredIsRecorded` | internal/store/sqlite/triggers.go:208-236 | a trigger leaves a nominal time only when that occurrence is recorded with an existing job |
| `Ingestion.KeysAgree` | internal/trigger/redis.go:20-22 | two message keys agree exactly when the identifiers agree and trigger and stream read the same joined by a colon |
| `Ingestion.KeysMayCollide` | internal/trigger/redis.go:20-22 | two different streams with the same key |
| `Ingestion.KeysTellApart` | internal/trigger/redis.go:20-22 | with trigger identifiers free of colons, keys determine trigger, stream and message |
| `Ingestion.Ingestor.HandleMessages` | internal/trigger/redis.go:155-173 | the loop is a sequence of turns that acknowledges exactly the messages it counts and stops early only at a store failure, a refused submission or a failed acknowledgement |
| `Ingestion.Ingestor.DeliverRedis` | internal/store/sqlite/triggers.go:241-319 | a delivery is recorded unless the submission is refused or the second transaction fails; nothing is acknowledged |
| `Ingestion.Ingestor.FireDueCron` | internal/store/sqlite/triggers.go:130-239 | the loop records the due occurrences in order of time and identifier, moves exactly their triggers on to the next fire time, and stops early only at a refused submission or a failed transaction |

## Left out

- HTTP handlers, authentication, the dashboard, telemetry, metrics, configuration parsing, process execution and the evidence scripts: plumbing without the properties above.
- SQL text and migrations: a query is the sorted list of the matching rows, and counters start at zero.
- JSON and SHA-256: equality of digests is equality of the digested values; event payloads, output digests, actors and audit events are not part of the tables.
- Integer width: times, counters and slot counts do not wrap around.
- Restart clock: only the stamp columns of modelled tables count, without audit events, workflow runs and operation records; the condition of `Histories.ExpiryOutlivesRestarts` speaks of those columns. The process's monotonic clock is part of the clock reading given to each operation.
- SubmitJobOperation, SubmitDAGOperation and SaveDAG: the same admission with operation records and audit rows around it.
- Operation replies: the duplicate flag of a repeated receipt is not modelled; the stored reply itself is.
- Both redrive entry points are one transaction here; they differ in actor and reply format only.
- The worker registry and per-worker slot totals in the database: the server trusts the figure the worker reports.
- `Transactions.WorkflowTx` draws identifiers as it inserts; the order of errors between a failed draw and a later validation is not distinguished.
- Fairness across separate decisions: the cursor indexes only queues that currently have work, so nothing follows from one call to the next.
- The worker loop assumes that a reply never offers again an attempt it has let go; `Effects.NeverLeasedAgain` is the server's half of that. Shutdown, tick periods and the contents of results are not modelled.
- Cron parsing: the next fire time is a parameter. A trigger is registered with its first fire time.
- The order in which the oracle lists its findings.
- Liveness beyond `WriteGate.SomebodyEnters`: that some thread is scheduled, a worker polls or a reaper runs is outside the model.
