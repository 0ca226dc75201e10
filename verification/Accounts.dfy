/** Slot conservation: the slot counters of tenants and queues always equal what their scheduled
    and running jobs occupy. */
module Accounts {
  import opened Domain
  import opened Database
  import opened Transactions

  /** Whose slots are counted. */
  datatype Account = TenantAccount(tenant: string) | QueueAccount(queue: QueueId)

  predicate Owns(a: Account, job: Job) {
    match a
    case TenantAccount(t) => job.tenant == t
    case QueueAccount(q) => QueueId(job.tenant, job.queue) == q
  }

  function Weight(job: Job, a: Account): int {
    if job.state.Active() && Owns(a, job) then job.cost else 0
  }

  /** The slots that active jobs occupy on an account. */
  ghost function Usage(jobs: map<string, Job>, a: Account): int
    decreases |jobs|
  {
    if jobs == map[] then 0 else
      var id :| id in jobs;
      assert (jobs - {id}).Keys == jobs.Keys - {id};
      Weight(jobs[id], a) + Usage(jobs - {id}, a)
  }

  lemma {:induction false} UsageSplit(jobs: map<string, Job>, a: Account, id: string)
    requires id in jobs
    ensures Usage(jobs, a) == Weight(jobs[id], a) + Usage(jobs - {id}, a)
    decreases |jobs|
  {
    var x :| x in jobs && Usage(jobs, a) == Weight(jobs[x], a) + Usage(jobs - {x}, a);
    if x != id {
      assert (jobs - {x}).Keys == jobs.Keys - {x} && (jobs - {id}).Keys == jobs.Keys - {id};
      UsageSplit(jobs - {x}, a, id);
      UsageSplit(jobs - {id}, a, x);
      assert jobs - {x} - {id} == jobs - {id} - {x};
    }
  }

  lemma UsageUpdate(jobs: map<string, Job>, id: string, job: Job, a: Account)
    ensures Usage(jobs[id := job], a)
         == Usage(jobs, a) - (if id in jobs then Weight(jobs[id], a) else 0) + Weight(job, a)
  {
    var after := jobs[id := job];
    UsageSplit(after, a, id);
    assert after - {id} == jobs - {id};
    if id in jobs {
      UsageSplit(jobs, a, id);
    } else {
      assert jobs - {id} == jobs;
    }
  }

  lemma {:induction false} UsageCovers(jobs: map<string, Job>, a: Account, id: string)
    requires id in jobs && forall j :: j in jobs ==> jobs[j].cost >= 0
    ensures Usage(jobs, a) >= Weight(jobs[id], a)
    decreases |jobs|
  {
    UsageSplit(jobs, a, id);
    var rest := jobs - {id};
    if rest != map[] {
      var j :| j in rest;
      assert rest.Keys == jobs.Keys - {id};
      UsageCovers(rest, a, j);
    }
  }

  lemma {:induction false} UsageOfNone(jobs: map<string, Job>, a: Account)
    requires forall j :: j in jobs ==> !Owns(a, jobs[j])
    ensures Usage(jobs, a) == 0
    decreases |jobs|
  {
    if jobs != map[] {
      var id :| id in jobs;
      UsageSplit(jobs, a, id);
      assert (jobs - {id}).Keys == jobs.Keys - {id};
      UsageOfNone(jobs - {id}, a);
    }
  }

  // ---------------------------------------------------------------- the invariant

  /** Every job has its tenant and queue rows and a positive cost. */
  ghost predicate Housed(jobs: map<string, Job>, tenants: map<string, Tenant>, queues: map<QueueId, QueueRow>) {
    && (forall id :: id in jobs ==>
          jobs[id].cost >= 1 && jobs[id].tenant in tenants && QueueId(jobs[id].tenant, jobs[id].queue) in queues)
  }

  ghost predicate TenantsBalanced(jobs: map<string, Job>, tenants: map<string, Tenant>) {
    forall t :: t in tenants ==>
      && tenants[t].activeSlots == Usage(jobs, TenantAccount(t))
      && (tenants[t].maxSlots > 0 ==> tenants[t].activeSlots <= tenants[t].maxSlots)
  }

  ghost predicate QueuesBalanced(jobs: map<string, Job>, queues: map<QueueId, QueueRow>) {
    forall q :: q in queues ==> queues[q].activeSlots == Usage(jobs, QueueAccount(q))
  }

  ghost predicate DepthBounded(jobs: map<string, Job>, tenants: map<string, Tenant>) {
    forall t :: t in tenants && tenants[t].maxDepth > 0 ==> |OpenJobs(jobs, t)| <= tenants[t].maxDepth
  }

  /** Slot conservation and the tenant limits. */
  ghost predicate SlotsConserved(db: Db) {
    && Housed(db.jobs, db.tenants, db.queues)
    && TenantsBalanced(db.jobs, db.tenants)
    && QueuesBalanced(db.jobs, db.queues)
    && DepthBounded(db.jobs, db.tenants)
  }

  /** The columns of a job that no transaction changes. */
  ghost predicate SameSpec(a: Job, b: Job) {
    a.tenant == b.tenant && a.queue == b.queue && a.cost == b.cost && a.retry == b.retry
    && a.payload == b.payload && a.priority == b.priority
  }

  lemma TenantsCharged(jobs: map<string, Job>, id: string, job: Job, tenants: map<string, Tenant>, after: map<string, Tenant>)
    requires TenantsBalanced(jobs, tenants) && id in jobs && SameSpec(jobs[id], job)
    requires after.Keys == tenants.Keys
    requires forall t :: t in tenants && t != job.tenant ==> after[t] == tenants[t]
    requires job.tenant in tenants
    requires var t := job.tenant;
      && after[t].maxSlots == tenants[t].maxSlots
      && after[t].activeSlots == tenants[t].activeSlots - Weight(jobs[id], TenantAccount(t)) + Weight(job, TenantAccount(t))
      && (after[t].maxSlots > 0 ==> after[t].activeSlots <= after[t].maxSlots)
    ensures TenantsBalanced(jobs[id := job], after)
  {
    forall t | t in after ensures
      && after[t].activeSlots == Usage(jobs[id := job], TenantAccount(t))
      && (after[t].maxSlots > 0 ==> after[t].activeSlots <= after[t].maxSlots)
    {
      UsageUpdate(jobs, id, job, TenantAccount(t));
    }
  }

  lemma QueuesCharged(jobs: map<string, Job>, id: string, job: Job, queues: map<QueueId, QueueRow>, after: map<QueueId, QueueRow>)
    requires QueuesBalanced(jobs, queues) && id in jobs && SameSpec(jobs[id], job)
    requires after.Keys == queues.Keys
    requires forall q :: q in queues && q != QueueId(job.tenant, job.queue) ==> after[q] == queues[q]
    requires QueueId(job.tenant, job.queue) in queues
    requires var q := QueueId(job.tenant, job.queue);
      after[q].activeSlots == queues[q].activeSlots - Weight(jobs[id], QueueAccount(q)) + Weight(job, QueueAccount(q))
    ensures QueuesBalanced(jobs[id := job], after)
  {
    forall q | q in after ensures after[q].activeSlots == Usage(jobs[id := job], QueueAccount(q)) {
      UsageUpdate(jobs, id, job, QueueAccount(q));
    }
  }

  lemma DepthMoved(jobs: map<string, Job>, id: string, job: Job, tenants: map<string, Tenant>, after: map<string, Tenant>)
    requires DepthBounded(jobs, tenants) && id in jobs && jobs[id].tenant == job.tenant && !jobs[id].state.Terminal()
    requires after.Keys == tenants.Keys && forall t :: t in tenants ==> after[t].maxDepth == tenants[t].maxDepth
    ensures DepthBounded(jobs[id := job], after)
  {
    forall t | t in after && after[t].maxDepth > 0 ensures |OpenJobs(jobs[id := job], t)| <= after[t].maxDepth {
      SubsetSize(OpenJobs(jobs[id := job], t), OpenJobs(jobs, t));
    }
  }

  lemma {:induction false} SubsetSize(a: set<string>, b: set<string>)
    requires a <= b
    ensures |a| <= |b|
    decreases |a|
  {
    if a != {} {
      var x :| x in a;
      SubsetSize(a - {x}, b - {x});
    }
  }

  /** What a slot movement does to the two counters it touches. */
  lemma ExchangeEffect(db: Db, row: Job, job: Job)
    requires SameSpec(row, job)
    requires row.tenant in db.tenants && QueueId(row.tenant, row.queue) in db.queues
    requires row.state.Active() ==>
      row.cost <= db.tenants[row.tenant].activeSlots && row.cost <= db.queues[QueueId(row.tenant, row.queue)].activeSlots
    ensures Exchange(db, row, job).Err? ==>
        Exchange(db, row, job).error.CapacityChanged? && !row.state.Active() && job.state.Active()
    ensures Exchange(db, row, job).Ok? ==>
      var after, t, q := Exchange(db, row, job).value, row.tenant, QueueId(row.tenant, row.queue);
      var ta, qa := TenantAccount(t), QueueAccount(q);
      && after == db.(tenants := after.tenants, queues := after.queues)
      && after.tenants.Keys == db.tenants.Keys && after.queues.Keys == db.queues.Keys
      && (forall u :: u in db.tenants && u != t ==> after.tenants[u] == db.tenants[u])
      && (forall u :: u in db.queues && u != q ==> after.queues[u] == db.queues[u])
      && after.tenants[t] == db.tenants[t].(activeSlots := db.tenants[t].activeSlots - Weight(row, ta) + Weight(job, ta))
      && after.queues[q] == db.queues[q].(activeSlots := db.queues[q].activeSlots - Weight(row, qa) + Weight(job, qa))
      && (!row.state.Active() && job.state.Active() && db.tenants[t].maxSlots > 0 ==>
            after.tenants[t].activeSlots <= db.tenants[t].maxSlots)
  {
    hide ReserveSlots, ReleaseSlots;
    if !row.state.Active() && job.state.Active() {
      ReserveEffect(db, row.tenant, row.queue, row.cost);
    } else if row.state.Active() && !job.state.Active() {
      ReleaseEffect(db, row.tenant, row.queue, row.cost);
    }
  }

  /** Both counters move together. */
  ghost predicate Shifted(db: Db, after: Db, tenant: string, q: QueueId, cost: int) {
    && tenant in db.tenants && q in db.queues
    && after == db.(tenants := after.tenants, queues := after.queues)
    && after.tenants == db.tenants[tenant := db.tenants[tenant].(activeSlots := db.tenants[tenant].activeSlots + cost)]
    && after.queues == db.queues[q := db.queues[q].(activeSlots := db.queues[q].activeSlots + cost)]
  }

  lemma ReserveEffect(db: Db, tenant: string, queue: string, cost: int)
    requires tenant in db.tenants && QueueId(tenant, queue) in db.queues
    ensures var r := ReserveSlots(db, tenant, queue, cost);
      if r.Ok? then Shifted(db, r.value, tenant, QueueId(tenant, queue), cost)
        && (db.tenants[tenant].maxSlots > 0 ==> db.tenants[tenant].activeSlots + cost <= db.tenants[tenant].maxSlots)
      else r.error.CapacityChanged?
  {
  }

  lemma ReleaseEffect(db: Db, tenant: string, queue: string, cost: int)
    requires tenant in db.tenants && QueueId(tenant, queue) in db.queues
    requires cost <= db.tenants[tenant].activeSlots && cost <= db.queues[QueueId(tenant, queue)].activeSlots
    ensures var r := ReleaseSlots(db, tenant, queue, cost); r.Ok? && Shifted(db, r.value, tenant, QueueId(tenant, queue), -cost)
  {
  }

  /** Moving a job row keeps the books; the only possible refusal is a tenant at its slot limit. */
  lemma MoveConserves(db: Db, id: string, next: Job, kind: EventKind, now: int)
    requires SlotsConserved(db) && id in db.jobs
    requires SameSpec(db.jobs[id], next) && !db.jobs[id].state.Terminal()
    ensures Move(db, id, next, kind, now).Ok? ==> SlotsConserved(Move(db, id, next, kind, now).value)
    ensures Move(db, id, next, kind, now).Err? && Unsettled(db, id, next.state).Ok? ==>
      Move(db, id, next, kind, now).error.CapacityChanged? && !db.jobs[id].state.Active() && next.state.Active()
  {
    hide TenantsBalanced, QueuesBalanced, DepthBounded, Housed, Exchange;
    ExchangeConserves(db, id, next.(version := db.jobs[id].version + 1, updatedAt := now));
  }

  lemma ExchangeConserves(db: Db, id: string, job: Job)
    requires SlotsConserved(db) && id in db.jobs
    requires SameSpec(db.jobs[id], job) && !db.jobs[id].state.Terminal()
    ensures Exchange(db, db.jobs[id], job).Err? ==>
      Exchange(db, db.jobs[id], job).error.CapacityChanged? && !db.jobs[id].state.Active() && job.state.Active()
    ensures Exchange(db, db.jobs[id], job).Ok? ==>
      var after, jobs := Exchange(db, db.jobs[id], job).value, db.jobs[id := job];
      && after == db.(tenants := after.tenants, queues := after.queues)
      && Housed(jobs, after.tenants, after.queues) && TenantsBalanced(jobs, after.tenants)
      && QueuesBalanced(jobs, after.queues) && DepthBounded(jobs, after.tenants)
  {
    hide Usage, TenantsBalanced, QueuesBalanced, DepthBounded, Housed, Exchange;
    Covered(db, id);
    ExchangeEffect(db, db.jobs[id], job);
    if Exchange(db, db.jobs[id], job).Ok? {
      var after := Exchange(db, db.jobs[id], job).value;
      TenantsCharged(db.jobs, id, job, db.tenants, after.tenants);
      QueuesCharged(db.jobs, id, job, db.queues, after.queues);
      DepthMoved(db.jobs, id, job, db.tenants, after.tenants);
      HousedMoved(db, after, id, job);
    }
  }

  /** The counters cover every lease that is out. */
  lemma Covered(db: Db, id: string)
    requires SlotsConserved(db) && id in db.jobs
    ensures var row := db.jobs[id];
      && row.tenant in db.tenants && QueueId(row.tenant, row.queue) in db.queues && row.cost >= 1
      && (db.tenants[row.tenant].maxSlots > 0 ==> db.tenants[row.tenant].activeSlots <= db.tenants[row.tenant].maxSlots)
      && (row.state.Active() ==>
            row.cost <= db.tenants[row.tenant].activeSlots && row.cost <= db.queues[QueueId(row.tenant, row.queue)].activeSlots)
  {
    hide Usage;
    UsageCovers(db.jobs, TenantAccount(db.jobs[id].tenant), id);
    UsageCovers(db.jobs, QueueAccount(QueueId(db.jobs[id].tenant, db.jobs[id].queue)), id);
  }

  lemma HousedMoved(db: Db, charged: Db, id: string, job: Job)
    requires Housed(db.jobs, db.tenants, db.queues) && id in db.jobs && SameSpec(db.jobs[id], job)
    requires charged.tenants.Keys == db.tenants.Keys && charged.queues.Keys == db.queues.Keys
    ensures Housed(db.jobs[id := job], charged.tenants, charged.queues)
  {
  }

  /** The tenant may take `incoming` more unfinished jobs. */
  ghost predicate Roomy(db: Db, tenant: string, incoming: nat) {
    tenant in db.tenants && (db.tenants[tenant].maxDepth > 0 ==>
          |OpenJobs(db.jobs, tenant)| + incoming <= db.tenants[tenant].maxDepth)
  }

  /** Admitting a job that holds no slots keeps the books, once its tenant has room. */
  lemma AdmitConserves(db: Db, id: string, job: Job, parents: set<string>, now: int)
    requires SlotsConserved(db) && Admit(db, id, job, parents, now).Ok?
    requires !job.state.Active() && job.cost >= 1
    requires job.tenant in db.tenants && QueueId(job.tenant, job.queue) in db.queues
    requires job.state.Terminal() || Roomy(db, job.tenant, 1)
    ensures SlotsConserved(Admit(db, id, job, parents, now).value)
  {
    hide Usage, TenantsBalanced, QueuesBalanced, DepthBounded, Roomy;
    AdmitBalanced(db.jobs, id, job, db.tenants, db.queues);
    AdmitDepth(db, id, job);
  }

  /** A job without slots weighs nothing. */
  lemma AdmitBalanced(jobs: map<string, Job>, id: string, job: Job, tenants: map<string, Tenant>, queues: map<QueueId, QueueRow>)
    requires TenantsBalanced(jobs, tenants) && QueuesBalanced(jobs, queues) && id !in jobs && !job.state.Active()
    ensures TenantsBalanced(jobs[id := job], tenants) && QueuesBalanced(jobs[id := job], queues)
  {
    hide Usage;
    forall t | t in tenants ensures Usage(jobs[id := job], TenantAccount(t)) == Usage(jobs, TenantAccount(t)) {
      UsageUpdate(jobs, id, job, TenantAccount(t));
    }
    forall q | q in queues ensures Usage(jobs[id := job], QueueAccount(q)) == Usage(jobs, QueueAccount(q)) {
      UsageUpdate(jobs, id, job, QueueAccount(q));
    }
  }

  lemma AdmitDepth(db: Db, id: string, job: Job)
    requires DepthBounded(db.jobs, db.tenants) && id !in db.jobs && (job.state.Terminal() || Roomy(db, job.tenant, 1))
    ensures DepthBounded(db.jobs[id := job], db.tenants)
  {
    hide OpenJobs;
    forall t | t in db.tenants && db.tenants[t].maxDepth > 0 ensures |OpenJobs(db.jobs[id := job], t)| <= db.tenants[t].maxDepth {
      OpenAfter(db.jobs, id, job, t);
    }
  }

  lemma OpenAfter(jobs: map<string, Job>, id: string, job: Job, t: string)
    requires id !in jobs
    ensures id !in OpenJobs(jobs, t)
    ensures OpenJobs(jobs[id := job], t) == OpenJobs(jobs, t) + (if t == job.tenant && !job.state.Terminal() then {id} else {})
  {
  }

  lemma EnsureTenantConserves(cfg: Config, db: Db, tenant: string)
    requires SlotsConserved(db)
    ensures SlotsConserved(EnsureTenant(cfg, db, tenant))
  {
    hide Usage;
    if tenant !in db.tenants {
      UsageOfNone(db.jobs, TenantAccount(tenant));
      assert OpenJobs(db.jobs, tenant) == {};
    }
  }

  lemma EnsureQueueConserves(db: Db, tenant: string, queue: string)
    requires SlotsConserved(db)
    ensures SlotsConserved(EnsureQueue(db, tenant, queue))
  {
    hide Usage;
    if QueueId(tenant, queue) !in db.queues {
      UsageOfNone(db.jobs, QueueAccount(QueueId(tenant, queue)));
    }
  }
}
