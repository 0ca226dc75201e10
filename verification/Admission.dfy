/** Submissions, workflows, redrives and retries keep the store consistent. */
module Admission {
  import opened Wrappers
  import opened Graphs
  import opened Domain
  import opened Database
  import opened Transactions
  import opened Accounts
  import opened Ledger
  import opened Journal
  import opened Fencing
  import opened Lifetime
  import opened Dependencies
  import opened Invariant
  import opened Steps
  import opened Preservation
  import opened Operations

  /** Changes that leave jobs, dependencies and attempts alone. */
  lemma SameGates(db: Db, r: Db, now: int)
    requires Consistent(db) && Good(db, r, now) && r.jobs == db.jobs && r.deps == db.deps && r.attempts == db.attempts
    ensures Kept(db, r, now)
  {
    hide Sound, Evolves, Gated, Cleared, NoStrays;
  }

  lemma EnsureKeeps(cfg: Config, db: Db, tenant: string, queue: string, ready: bool, now: int)
    requires Consistent(db)
    ensures Kept(db, EnsureTenant(cfg, db, tenant), now)
    ensures Kept(db, EnsureQueue(db, tenant, queue), now)
    ensures Kept(db, Stamp(db, ready), now)
  {
    hide Sound, Kept, Evolves, Gated;
    EnsureSound(cfg, db, tenant, queue, ready, now);
    SameGates(db, EnsureTenant(cfg, db, tenant), now);
    SameGates(db, EnsureQueue(db, tenant, queue), now);
    SameGates(db, Stamp(db, ready), now);
  }

  /** Everything admission needs before the job row is inserted. */
  ghost predicate Prepared(db: Db, r: Db, tenant: string, queue: string) {
    && r == db.(tenants := r.tenants, queues := r.queues, readySeq := r.readySeq)
    && tenant in r.tenants && QueueId(tenant, queue) in r.queues
  }

  lemma PrepareKeeps(cfg: Config, db: Db, tenant: string, queue: string, ready: bool, now: int)
    requires Consistent(db)
    ensures var r := EnsureAdmission(cfg, db, tenant, 1);
      if r.Ok? then
        var s := Stamp(EnsureQueue(r.value, tenant, queue), ready);
        Kept(db, s, now) && Prepared(db, s, tenant, queue) && Roomy(s, tenant, 1)
      else r.error.QueueFull?
  {
    hide Consistent, Kept, Evolves, Orderly, EnsureTenant, EnsureQueue, Stamp, Prepared, Roomy;
    EnsureKeeps(cfg, db, tenant, queue, ready, now);
    var ensured := EnsureTenant(cfg, db, tenant);
    KeptConsistent(db, ensured, now);
    EnsureKeeps(cfg, ensured, tenant, queue, ready, now);
    var queued := EnsureQueue(ensured, tenant, queue);
    KeptConsistent(ensured, queued, now);
    EnsureKeeps(cfg, queued, tenant, queue, ready, now);
    KeptChain(db, ensured, queued, now);
    KeptChain(db, queued, Stamp(queued, ready), now);
    EnsureShape(cfg, db, tenant, queue, ready);
  }

  lemma EnsureShape(cfg: Config, db: Db, tenant: string, queue: string, ready: bool)
    ensures var r := EnsureAdmission(cfg, db, tenant, 1);
      if r.Ok? then
        var s := Stamp(EnsureQueue(r.value, tenant, queue), ready);
        r.value == EnsureTenant(cfg, db, tenant) && Prepared(db, s, tenant, queue) && Roomy(s, tenant, 1)
      else r.error.QueueFull?
  {
    hide EnsureTenant, OpenJobs;
    var ensured := EnsureTenant(cfg, db, tenant);
    TenantShape(cfg, db, tenant);
    StampShape(EnsureQueue(ensured, tenant, queue), ready);
  }

  lemma TenantShape(cfg: Config, db: Db, tenant: string)
    ensures var r := EnsureTenant(cfg, db, tenant); r == db.(tenants := r.tenants) && tenant in r.tenants
  {
  }

  lemma StampShape(db: Db, ready: bool)
    ensures Stamp(db, ready) == db.(readySeq := Stamp(db, ready).readySeq)
  {
  }

  /** What the dependency gates ask of a new job. */
  ghost predicate Admissible(db: Db, job: Job, parents: set<string>)
  {
    && parents <= db.jobs.Keys
    && (job.state.Terminal() || forall p :: p in parents ==> !db.jobs[p].state.Unsuccessful())
    && (Begun(job) ==> forall p :: p in parents ==> db.jobs[p].state.Succeeded?)
  }

  lemma AdmitGates(db: Db, r: Db, id: string, job: Job, parents: set<string>)
    requires Grounded(db.jobs, db.deps) && id !in db.jobs && Admissible(db, job, parents)
    requires r.jobs == db.jobs[id := job] && r.deps == db.deps + EdgesTo(id, parents)
    ensures Gated(db.jobs, db.deps) ==> Gated(r.jobs, r.deps)
    ensures Cleared(db.jobs, db.deps) ==> Cleared(r.jobs, r.deps)
  {
  }

  lemma AdmitKeeps(db: Db, id: string, job: Job, parents: set<string>, now: int)
    requires Consistent(db) && WellFormed(job) && Fresh(job) && Admissible(db, job, parents)
    requires job.tenant in db.tenants && QueueId(job.tenant, job.queue) in db.queues
    requires job.state.Terminal() || Roomy(db, job.tenant, 1)
    ensures var r := Admit(db, id, job, parents, now);
      if r.Ok? then Kept(db, r.value, now) && AdmittedAs(db, r.value, id, job, parents) && id != ""
      else r.error in {NoId, IdTaken}
  {
    hide SlotsConserved, OneOutcome, Journaled, LifetimesBounded, BackoffKept, Fenced, Acyclic, Logged, Evolves,
      Admit, Gated, Cleared, NoStrays, Grounded, WellFormed;
    AdmitSound(db, id, job, parents, now);
    var r := Admit(db, id, job, parents, now);
    if r.Ok? {
      AdmitGates(db, r.value, id, job, parents);
      AdmitFenced(db.jobs, db.attempts, id, job);
    }
  }

  // ---------------------------------------------------------------------- one submission

  lemma {:induction false} DependenciesKnown(db: Db, tenant: string, deps: seq<string>)
    requires CheckDependencies(db, tenant, deps).Ok?
    ensures forall d :: d in deps ==> d in db.jobs && db.jobs[d].tenant == tenant
    decreases |deps|
  {
    if deps != [] {
      var init := deps[..|deps| - 1];
      DependenciesKnown(db, tenant, init);
      assert deps == init + [deps[|deps| - 1]];
    }
  }

  lemma {:induction false} DependencyErrors(db: Db, tenant: string, deps: seq<string>)
    requires CheckDependencies(db, tenant, deps).Err?
    ensures CheckDependencies(db, tenant, deps).error in {BadRequest, NotFound}
    decreases |deps|
  {
    if deps != [] && CheckDependencies(db, tenant, deps[..|deps| - 1]).Err? {
      DependencyErrors(db, tenant, deps[..|deps| - 1]);
    }
  }

  lemma SubmittedFits(cfg: Config, db: Db, spec: JobSpec, now: int)
    requires spec.Valid(cfg.maxCost, cfg.allowShell) && forall d :: d in spec.dependsOn ==> d in db.jobs
    ensures var job := SubmittedJob(db, spec, now);
      && WellFormed(job) && Fresh(job) && Admissible(db, job, set d | d in spec.dependsOn) && job.tenant == spec.tenant
      && job.queue == spec.queue
  {
  }

  /** Storing the reply of a submission under a new key. */
  lemma RequestKeeps(db: Db, k: RequestKey, request: Request, now: int)
    requires Consistent(db) && k !in db.requests && AnsweredBy(db.jobs, request)
    ensures Kept(db, db.(requests := db.requests[k := request]), now)
  {
    hide LifetimesBounded, BackoffKept, Fenced, Acyclic, OneOutcome, Journaled, Logged, Evolves, TenantsBalanced,
      QueuesBalanced, DepthBounded, Housed, Gated, Cleared, NoStrays;
    BooksSound(db, db.(requests := db.requests[k := request]), now);
  }

  /** Admissible jobs stay admissible while only slots and counters change. */
  lemma PreparedAdmissible(db: Db, r: Db, job: Job, parents: set<string>)
    requires r.jobs == db.jobs && Admissible(db, job, parents)
    ensures Admissible(r, job, parents)
  {
  }

  /** The part of a submission after its checks. */
  lemma SubmitAdmits(cfg: Config, db: Db, spec: JobSpec, id: string, k: RequestKey, digest: string, now: int)
    requires Consistent(db) && spec.Valid(cfg.maxCost, cfg.allowShell) && CheckDependencies(db, spec.tenant, spec.dependsOn).Ok?
    requires k !in db.requests && EnsureAdmission(cfg, db, spec.tenant, 1).Ok?
    ensures var queued := EnsureQueue(EnsureAdmission(cfg, db, spec.tenant, 1).value, spec.tenant, spec.queue);
      var ready := AllSucceeded(db, spec.dependsOn) && AvailableAt(spec, now) <= now;
      var job := SubmittedJob(db, spec, now);
      var r := Admit(Stamp(queued, ready), id, job, (set d | d in spec.dependsOn), now);
      if r.Ok? then
        && id !in db.jobs && id in r.value.jobs
        && Kept(db, r.value.(requests := r.value.requests[k := Request(JobRequest, digest, [Row(id, job)])]), now)
      else r.error in {NoId, IdTaken}
  {
    hide Consistent, Kept, Evolves, Orderly, Admit, WellFormed, Fresh, EnsureAdmission, EnsureQueue, Stamp,
      SubmittedJob, Admissible, Roomy, CheckDependencies, JobSpec.Valid, Transactions.AllSucceeded;
    DependenciesKnown(db, spec.tenant, spec.dependsOn);
    SubmittedFits(cfg, db, spec, now);
    var ready := AllSucceeded(db, spec.dependsOn) && AvailableAt(spec, now) <= now;
    PrepareKeeps(cfg, db, spec.tenant, spec.queue, ready, now);
    var s := Stamp(EnsureQueue(EnsureAdmission(cfg, db, spec.tenant, 1).value, spec.tenant, spec.queue), ready);
    var job := SubmittedJob(db, spec, now);
    var parents := set d | d in spec.dependsOn;
    PreparedAdmissible(db, s, job, parents);
    KeptConsistent(db, s, now);
    AdmitKeeps(s, id, job, parents, now);
    var r := Admit(s, id, job, parents, now);
    if r.Ok? {
      var request := Request(JobRequest, digest, [Row(id, job)]);
      KeptChain(db, s, r.value, now);
      KeptConsistent(s, r.value, now);
      RequestKeeps(r.value, k, request, now);
      KeptChain(db, r.value, r.value.(requests := r.value.requests[k := request]), now);
    }
  }

  /** Submission keeps the store consistent; a repeated key never changes it. */
  lemma SubmitKeeps(cfg: Config, db: Db, sub: Submission, id: string, now: int)
    requires Consistent(db)
    ensures var r := SubmitTx(cfg, db, sub, id, now);
      if r.Ok? then Kept(db, r.value.db, now) && (r.value.reply.duplicate ==> r.value.db == db)
      else r.error in {BadRequest, IdempotencyConflict, NotFound, QueueFull, NoId, IdTaken}
  {
    hide Consistent, Kept, Evolves, Orderly, Admit, EnsureAdmission, EnsureQueue, Stamp, SubmittedJob, JobSpec.Valid,
      Blank, CheckDependencies;
    var spec := sub.spec.Normalize();
    var k := RequestKey(spec.tenant, sub.key);
    KeptReflexive(db, now);
    if k !in db.requests && spec.Valid(cfg.maxCost, cfg.allowShell) {
      if CheckDependencies(db, spec.tenant, spec.dependsOn).Ok? {
        PrepareKeeps(cfg, db, spec.tenant, spec.queue, true, now);
        if EnsureAdmission(cfg, db, spec.tenant, 1).Ok? { SubmitAdmits(cfg, db, spec, id, k, sub.digest, now); }
      } else {
        DependencyErrors(db, spec.tenant, spec.dependsOn);
      }
    }
  }

  // -------------------------------------------------------------------- redrive and retry

  lemma CloneKeeps(cfg: Config, db: Db, source: string, id: string, now: int)
    requires Consistent(db) && source in db.jobs
    ensures var r := CloneJob(cfg, db, db.jobs[source], id, now);
      if r.Ok? then
        && Kept(db, r.value.db, now) && id !in db.jobs && id in r.value.db.jobs && r.value.db.operations == db.operations
        && (source in db.deadLetters ==>
              source in r.value.db.deadLetters && r.value.db.deadLetters[source] == db.deadLetters[source])
      else r.error in {QueueFull, NoId, IdTaken}
  {
    hide Consistent, Kept, Evolves, Orderly, Admit, EnsureAdmission, EnsureQueue, Stamp;
    var original := db.jobs[source];
    CloneFits(db, source, now);
    PrepareKeeps(cfg, db, original.tenant, original.queue, true, now);
    if EnsureAdmission(cfg, db, original.tenant, 1).Ok? {
      var s := Stamp(EnsureQueue(EnsureAdmission(cfg, db, original.tenant, 1).value, original.tenant, original.queue), true);
      var job := NewJob(CloneSpec(original), now, db.readySeq + 1, now);
      KeptConsistent(db, s, now);
      AdmitKeeps(s, id, job, {}, now);
      var r := Admit(s, id, job, {}, now);
      if r.Ok? { KeptChain(db, s, r.value, now); }
    }
  }

  lemma CloneFits(db: Db, source: string, now: int)
    requires Consistent(db) && source in db.jobs
    ensures var job := NewJob(CloneSpec(db.jobs[source]), now, db.readySeq + 1, now); WellFormed(job) && Fresh(job)
  {
    hide TenantsBalanced, QueuesBalanced, DepthBounded, Journaled, LifetimesBounded, Acyclic, Logged, BackoffKept,
      Fenced, CompletionsMatch, DeadLettersMatch, Gated;
    assert WellFormed(db.jobs[source]);
  }

  lemma NoteKeeps(db: Db, id: string, kind: EventKind, now: int)
    requires Consistent(db) && id in db.jobs && kind.Marker()
    ensures Kept(db, Note(db, id, kind, now), now)
  {
    hide Sound, Kept, Evolves, Gated;
    NoteSound(db, id, kind, now);
    SameGates(db, Note(db, id, kind, now), now);
  }

  /** The marker event and the stored reply that end a redrive or a retry. */
  lemma ReportKeeps(db: Db, id: string, kind: EventKind, k: OperationKey, digest: string, response: Response, now: int)
    requires Consistent(db) && id in db.jobs && kind.Marker() && k !in db.operations
    ensures Kept(db, RecordOperation(Note(db, id, kind, now), k, digest, response), now)
  {
    hide Consistent, Kept, Evolves, Orderly;
    NoteKeeps(db, id, kind, now);
    var noted := Note(db, id, kind, now);
    KeptConsistent(db, noted, now);
    RecordKeeps(noted, k, digest, response, now);
    KeptChain(db, noted, RecordOperation(noted, k, digest, response), now);
  }

  lemma LinkKeeps(db: Db, source: string, created: string, now: int)
    requires Consistent(db) && source in db.deadLetters && created in db.jobs && db.deadLetters[source].redriven.None?
    ensures Kept(db, db.(deadLetters := db.deadLetters[source := db.deadLetters[source].(redriven := Some(created))]), now)
  {
    hide Sound, Kept, Evolves, Gated;
    LinkSound(db, source, created, now);
    SameGates(db, db.(deadLetters := db.deadLetters[source := db.deadLetters[source].(redriven := Some(created))]), now);
  }

  /** A redrive clones a dead letter once: it links the clone and refuses every other key. */
  lemma RedriveKeeps(cfg: Config, db: Db, cmd: CloneCommand, id: string, now: int)
    requires Consistent(db)
    ensures var r := RedriveTx(cfg, db, cmd, id, now);
      if r.Ok? then
        && Kept(db, r.value.db, now)
        && (r.value.db == db || (cmd.job in db.deadLetters && db.deadLetters[cmd.job].redriven.None?
              && cmd.job in r.value.db.deadLetters && r.value.db.deadLetters[cmd.job].redriven == Some(id)))
      else r.error in {NotFound, IdempotencyConflict, AlreadyRedriven, QueueFull, NoId, IdTaken}
  {
    hide Consistent, Kept, Evolves, Orderly, CloneJob;
    KeptReflexive(db, now);
    if cmd.job in db.deadLetters && cmd.job in db.jobs {
      CloneKeeps(cfg, db, cmd.job, id, now);
      var k := OperationKey(db.jobs[cmd.job].tenant, REDRIVE, cmd.key);
      var cloned := CloneJob(cfg, db, db.jobs[cmd.job], id, now);
      if k !in db.operations && db.deadLetters[cmd.job].redriven.None? && cloned.Ok? {
        var c := cloned.value.db;
        KeptConsistent(db, c, now);
        LinkKeeps(c, cmd.job, id, now);
        var linked := c.(deadLetters := c.deadLetters[cmd.job := c.deadLetters[cmd.job].(redriven := Some(id))]);
        KeptConsistent(c, linked, now);
        KeptChain(db, c, linked, now);
        SourceStays(db, c, cmd.job, now);
        ReportKeeps(linked, cmd.job, OperatorRedrive, k, cmd.digest, Created(cloned.value.reply), now);
        KeptChain(db, linked,
            RecordOperation(Note(linked, cmd.job, OperatorRedrive, now), k, cmd.digest, Created(cloned.value.reply)), now);
      }
    }
  }

  lemma SourceStays(db: Db, r: Db, id: string, now: int)
    requires Evolves(db, r, now) && id in db.jobs
    ensures id in r.jobs
  {
  }

  /** A retry clones a finished job. */
  lemma RetryKeeps(cfg: Config, db: Db, cmd: CloneCommand, id: string, now: int)
    requires Consistent(db)
    ensures var r := RetryTx(cfg, db, cmd, id, now);
      if r.Ok? then Kept(db, r.value.db, now) else r.error in {NotFound, IdempotencyConflict, Conflict, QueueFull, NoId, IdTaken}
  {
    hide Consistent, Kept, Evolves, Orderly, CloneJob;
    KeptReflexive(db, now);
    if cmd.job in db.jobs {
      CloneKeeps(cfg, db, cmd.job, id, now);
      var k := OperationKey(db.jobs[cmd.job].tenant, RETRY, cmd.key);
      var cloned := CloneJob(cfg, db, db.jobs[cmd.job], id, now);
      if k !in db.operations && cloned.Ok? {
        var c := cloned.value.db;
        KeptConsistent(db, c, now);
        SourceStays(db, c, cmd.job, now);
        ReportKeeps(c, cmd.job, OperatorRetry, k, cmd.digest, Created(cloned.value.reply), now);
        KeptChain(db, c, RecordOperation(Note(c, cmd.job, OperatorRetry, now), k, cmd.digest, Created(cloned.value.reply)), now);
      }
    }
  }
}
