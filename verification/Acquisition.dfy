/** Acquiring leases keeps the store consistent, and exactly when it must abort. */
module Acquisition {
  import opened Wrappers
  import opened Graphs
  import opened Domain
  import opened Database
  import opened Transactions
  import opened Accounts
  import opened Ledger
  import opened Journal
  import opened Fencing
  import opened Lifetime
  import opened Dependencies
  import opened Invariant
  import opened Steps
  import opened Preservation
  import opened Planning
  import DecisionLog
  import S = Scheduler
  import L = SchedulerLaws

  // ---------------------------------------------------------------------- one lease

  /** The grant names a job that is ready now. */
  ghost predicate Grantable(db: Db, g: S.Grant, now: int) {
    && g.job in db.jobs && g.tenant == db.jobs[g.job].tenant && g.cost == db.jobs[g.job].cost
    && db.jobs[g.job].state.Pending? && db.jobs[g.job].readySeq > 0 && db.jobs[g.job].availableAt <= now
  }

  /** The lease a worker was handed names a current, open attempt with that expiry. */
  ghost predicate Live(db: Db, lease: Lease, worker: string, expiresAt: int) {
    var k := AttemptKey(lease.job, lease.attemptNo);
    && Cites(db, worker, LeaseRef(lease.job, lease.attemptNo, lease.generation, lease.token))
    && db.attempts[k].state.LeaseHeld? && db.attempts[k].expiresAt == expiresAt == lease.expiresAt
    && db.jobs[lease.job].state.Scheduled? && lease.cost == db.jobs[lease.job].cost
  }

  ghost predicate LeasedOne(db: Db, r: Db, id: string) {
    && id in db.jobs && id in r.jobs && r.jobs == db.jobs[id := r.jobs[id]] && r.deps == db.deps
    && r.log == db.log && r.schedulerSeq == db.schedulerSeq && r.queues.Keys == db.queues.Keys
    && (forall k :: k in db.attempts ==> k in r.attempts && r.attempts[k] == db.attempts[k])
  }

  /** The tenant's counter after a charge. */
  ghost predicate Charged(db: Db, r: Db, tenant: string, cost: int) {
    && r.tenants.Keys == db.tenants.Keys && tenant in db.tenants
    && (forall t :: t in db.tenants ==>
          r.tenants[t] == db.tenants[t].(activeSlots := db.tenants[t].activeSlots + (if t == tenant then cost else 0)))
  }

  ghost predicate Full(db: Db, tenant: string, cost: int) {
    tenant in db.tenants && db.tenants[tenant].maxSlots > 0 && db.tenants[tenant].activeSlots + cost > db.tenants[tenant].maxSlots
  }

  lemma LeaseKeeps(db: Db, g: S.Grant, req: AcquireRequest, token: string, now: int)
    requires Consistent(db) && Grantable(db, g, now) && token != ""
    ensures var r := LeaseRow(db, Row(g.job, db.jobs[g.job]), req, token, now);
      if r.Ok? then
        && Kept(db, r.value.db, now) && LeasedOne(db, r.value.db, g.job)
        && Live(r.value.db, r.value.reply, req.worker, now + req.ttl) && r.value.reply.job == g.job
      else r.error.CapacityChanged?
  {
    hide SlotsConserved, OneOutcome, Journaled, LifetimesBounded, BackoffKept, Fenced, Acyclic, Logged, Evolves,
      NoStrays, Cleared, Gated, LeaseRow, Live;
    var row := Row(g.job, db.jobs[g.job]);
    LeaseSound(db, row, req, token, now);
    var r := LeaseRow(db, row, req, token, now);
    if r.Ok? {
      var job := Stamped(db, g.job, LeasedJob(row.job), now);
      GatedMove(db.jobs, db.deps, g.job, job);
      if Orderly(db) { ClearedMove(db.jobs, db.deps, g.job, job); }
      LeaseIsLive(db, row, req, token, now);
    }
  }

  lemma LeaseIsLive(db: Db, row: Row, req: AcquireRequest, token: string, now: int)
    requires LeaseRow(db, row, req, token, now).Ok? && row.id in db.jobs && db.jobs[row.id] == row.job
    ensures var r := LeaseRow(db, row, req, token, now).value;
      && Live(r.db, r.reply, req.worker, now + req.ttl) && r.reply.job == row.id
      && (forall k :: k in db.attempts ==> k in r.db.attempts && r.db.attempts[k] == db.attempts[k])
  {
    hide Exchange;
    var k := AttemptKey(row.id, row.job.attemptNo + 1);
    var base := db.(attempts := db.attempts[k := NewAttempt(row.job, req, token, now)]);
    ExchangeFrame(base, row.job, LeasedJob(row.job).(version := row.job.version + 1, updatedAt := now));
  }

  lemma LeaseCharges(db: Db, g: S.Grant, req: AcquireRequest, token: string, now: int)
    requires Grantable(db, g, now) && token != "" && AttemptKey(g.job, db.jobs[g.job].attemptNo + 1) !in db.attempts
    requires g.tenant in db.tenants && QueueId(g.tenant, db.jobs[g.job].queue) in db.queues
    ensures var r := LeaseRow(db, Row(g.job, db.jobs[g.job]), req, token, now);
      && (r.Err? <==> Full(db, g.tenant, g.cost))
      && (r.Ok? ==> Charged(db, r.value.db, g.tenant, g.cost))
  {
    hide Exchange, Full, Charged;
    var k := AttemptKey(g.job, db.jobs[g.job].attemptNo + 1);
    var base := db.(attempts := db.attempts[k := NewAttempt(db.jobs[g.job], req, token, now)]);
    forall after: Job | after.state.Scheduled?
      ensures var e := Exchange(base, db.jobs[g.job], after);
        (e.Err? <==> Full(db, g.tenant, g.cost)) && (e.Ok? ==> Charged(db, e.value, g.tenant, g.cost))
    {
      ReserveCharges(db, base, db.jobs[g.job], after);
    }
    SameCharge(db, g.tenant, g.cost);
  }

  lemma ReserveCharges(db: Db, base: Db, before: Job, after: Job)
    requires !before.state.Active() && after.state.Scheduled? && base == db.(attempts := base.attempts)
    requires before.tenant in db.tenants && QueueId(before.tenant, before.queue) in db.queues
    ensures var e := Exchange(base, before, after);
      (e.Err? <==> Full(db, before.tenant, before.cost)) && (e.Ok? ==> Charged(db, e.value, before.tenant, before.cost))
  {
  }

  lemma SameCharge(db: Db, tenant: string, cost: int)
    ensures forall a: Db, b: Db :: Charged(db, a, tenant, cost) && b.tenants == a.tenants && b.queues == a.queues ==>
        Charged(db, b, tenant, cost)
  {
  }

  // --------------------------------------------------------------------- all leases

  function TenantSlots(grants: seq<S.Grant>, tenant: string): int {
    if grants == [] then 0 else
      var g := grants[|grants| - 1];
      TenantSlots(grants[..|grants| - 1], tenant) + (if g.tenant == tenant then g.cost else 0)
  }

  ghost predicate GrantsFit(db: Db, grants: seq<S.Grant>, now: int) {
    && (forall i :: 0 <= i < |grants| ==> Grantable(db, grants[i], now))
    && (forall i, j :: 0 <= i < j < |grants| ==> grants[i].job != grants[j].job)
  }

  /** Together the grants exceed what some tenant may still use. */
  ghost predicate Overdrawn(db: Db, grants: seq<S.Grant>) {
    exists t :: Full(db, t, TenantSlots(grants, t))
  }

  ghost predicate Granted(grants: seq<S.Grant>, id: string) {
    exists i :: 0 <= i < |grants| && grants[i].job == id
  }

  ghost predicate LeasedAll(db: Db, r: Db, grants: seq<S.Grant>, leases: seq<Lease>, req: AcquireRequest, now: int) {
    && |leases| == |grants| && r.jobs.Keys == db.jobs.Keys && r.deps == db.deps
    && r.log == db.log && r.schedulerSeq == db.schedulerSeq && r.queues.Keys == db.queues.Keys
    && r.tenants.Keys == db.tenants.Keys
    && (forall id :: id in db.jobs && !Granted(grants, id) ==> r.jobs[id] == db.jobs[id])
    && (forall i :: 0 <= i < |leases| ==> leases[i].job == grants[i].job && Live(r, leases[i], req.worker, now + req.ttl))
    && (forall t :: t in db.tenants ==>
          r.tenants[t] == db.tenants[t].(activeSlots := db.tenants[t].activeSlots + TenantSlots(grants, t)))
  }

  lemma LiveStays(b: Db, r: Db, id: string, lease: Lease, worker: string, expiresAt: int)
    requires LeasedOne(b, r, id) && Live(b, lease, worker, expiresAt) && lease.job != id
    ensures Live(r, lease, worker, expiresAt)
  {
  }

  lemma ChargesAdd(db: Db, b: Db, r: Db, grants: seq<S.Grant>, t: string)
    requires grants != [] && t in db.tenants && b.tenants.Keys == db.tenants.Keys
    requires b.tenants[t] == db.tenants[t].(activeSlots := db.tenants[t].activeSlots + TenantSlots(grants[..|grants| - 1], t))
    requires Charged(b, r, grants[|grants| - 1].tenant, grants[|grants| - 1].cost)
    ensures t in r.tenants && r.tenants[t] == db.tenants[t].(activeSlots := db.tenants[t].activeSlots + TenantSlots(grants, t))
  {
  }

  lemma UngrantedBefore(grants: seq<S.Grant>, id: string)
    requires grants != [] && !Granted(grants, id)
    ensures grants[|grants| - 1].job != id && !Granted(grants[..|grants| - 1], id)
  {
    var init := grants[..|grants| - 1];
    assert forall i :: 0 <= i < |init| ==> init[i] == grants[i];
  }

  lemma LeasedGrows(db: Db, b: Db, r: Db, grants: seq<S.Grant>, leases: seq<Lease>, lease: Lease, req: AcquireRequest, now: int)
    requires grants != [] && GrantsFit(db, grants, now)
    requires LeasedAll(db, b, grants[..|grants| - 1], leases, req, now)
    requires LeasedOne(b, r, grants[|grants| - 1].job) && Charged(b, r, grants[|grants| - 1].tenant, grants[|grants| - 1].cost)
    requires Live(r, lease, req.worker, now + req.ttl) && lease.job == grants[|grants| - 1].job
    ensures LeasedAll(db, r, grants, leases + [lease], req, now)
  {
    hide Grantable, Live, TenantSlots, Granted;
    var n := |grants| - 1;
    var init, g, all := grants[..n], grants[n], leases + [lease];
    forall id | id in db.jobs && !Granted(grants, id) ensures r.jobs[id] == db.jobs[id] {
      UngrantedBefore(grants, id);
    }
    forall i | 0 <= i < |all| ensures all[i].job == grants[i].job && Live(r, all[i], req.worker, now + req.ttl) {
      if i < n {
        assert init[i] == grants[i] && all[i] == leases[i];
        LiveStays(b, r, g.job, leases[i], req.worker, now + req.ttl);
      }
    }
    forall t | t in db.tenants
      ensures r.tenants[t] == db.tenants[t].(activeSlots := db.tenants[t].activeSlots + TenantSlots(grants, t))
    {
      ChargesAdd(db, b, r, grants, t);
    }
  }

  /** The row of a grant that has not been served yet. */
  lemma NextGrant(db: Db, b: Db, grants: seq<S.Grant>, leases: seq<Lease>, req: AcquireRequest, now: int)
    requires grants != [] && GrantsFit(db, grants, now) && LeasedAll(db, b, grants[..|grants| - 1], leases, req, now)
    ensures var g := grants[|grants| - 1];
      && Grantable(b, g, now) && g.job in db.jobs && b.jobs[g.job] == db.jobs[g.job]
  {
    hide Live;
    var init, g := grants[..|grants| - 1], grants[|grants| - 1];
    forall i | 0 <= i < |init| ensures init[i].job != g.job { assert init[i] == grants[i]; }
    assert Grantable(db, g, now);
  }

  /** One more grant overdraws exactly when its tenant is full after the earlier ones. */
  lemma OverdrawnGrows(db: Db, b: Db, grants: seq<S.Grant>, leases: seq<Lease>, req: AcquireRequest, now: int)
    requires grants != [] && GrantsFit(db, grants, now) && LeasedAll(db, b, grants[..|grants| - 1], leases, req, now)
    requires !Overdrawn(db, grants[..|grants| - 1]) && grants[|grants| - 1].tenant in db.tenants
    ensures Overdrawn(db, grants) <==> Full(b, grants[|grants| - 1].tenant, grants[|grants| - 1].cost)
  {
    hide GrantsFit, Live;
    var init, g := grants[..|grants| - 1], grants[|grants| - 1];
    assert Full(db, g.tenant, TenantSlots(grants, g.tenant)) <==> Full(b, g.tenant, g.cost);
    forall t | t != g.tenant ensures Full(db, t, TenantSlots(grants, t)) <==> Full(db, t, TenantSlots(init, t)) {
    }
  }

  lemma OverdrawnStays(db: Db, grants: seq<S.Grant>, now: int)
    requires grants != [] && GrantsFit(db, grants, now) && forall id :: id in db.jobs ==> db.jobs[id].cost >= 1
    requires Overdrawn(db, grants[..|grants| - 1])
    ensures Overdrawn(db, grants)
  {
    var init := grants[..|grants| - 1];
    var t :| Full(db, t, TenantSlots(init, t));
    assert Grantable(db, grants[|grants| - 1], now);
    assert Full(db, t, TenantSlots(grants, t));
  }

  lemma CostsPositive(db: Db)
    requires Sound(db)
    ensures forall id :: id in db.jobs ==>
        db.jobs[id].cost >= 1 && db.jobs[id].tenant in db.tenants && QueueId(db.jobs[id].tenant, db.jobs[id].queue) in db.queues
  {
    hide TenantsBalanced, QueuesBalanced, DepthBounded, OneOutcome, Journaled, LifetimesBounded, BackoffKept, Fenced,
      Acyclic, Logged;
  }

  lemma NextAttemptFree(db: Db, id: string)
    requires Sound(db) && id in db.jobs
    ensures AttemptKey(id, db.jobs[id].attemptNo + 1) !in db.attempts
  {
    hide SlotsConserved, OneOutcome, Journaled, LifetimesBounded, BackoffKept, Acyclic, Logged;
    var k := AttemptKey(id, db.jobs[id].attemptNo + 1);
    assert k in db.attempts ==> AttemptFits(k, db.attempts[k], db.jobs[id]);
  }

  /** What one more grant does after the earlier ones were leased. */
  lemma LeaseNext(db: Db, b: Db, grants: seq<S.Grant>, leases: seq<Lease>, req: AcquireRequest, token: string, now: int)
    requires Consistent(db) && grants != [] && GrantsFit(db, grants, now) && token != ""
    requires Kept(db, b, now) && LeasedAll(db, b, grants[..|grants| - 1], leases, req, now)
    requires !Overdrawn(db, grants[..|grants| - 1])
    ensures grants[|grants| - 1].job in db.jobs
    ensures var g := grants[|grants| - 1]; var r := LeaseRow(b, Row(g.job, db.jobs[g.job]), req, token, now);
      if Overdrawn(db, grants) then r == Err(CapacityChanged)
      else r.Ok? && Kept(db, r.value.db, now) && LeasedAll(db, r.value.db, grants, leases + [r.value.reply], req, now)
  {
    hide Consistent, Evolves, Orderly, LeaseRow, LeasedAll, LeasedOne, Charged, Live, Overdrawn, GrantsFit, Full;
    var g := grants[|grants| - 1];
    NextGrant(db, b, grants, leases, req, now);
    KeptSound(b);
    CostsPositive(b);
    NextAttemptFree(b, g.job);
    KeptSound(db);
    CostsPositive(db);
    LeaseKeeps(b, g, req, token, now);
    LeaseCharges(b, g, req, token, now);
    OverdrawnGrows(db, b, grants, leases, req, now);
    var r := LeaseRow(b, Row(g.job, db.jobs[g.job]), req, token, now);
    if r.Ok? {
      KeptChain(db, b, r.value.db, now);
      LeasedGrows(db, b, r.value.db, grants, leases, r.value.reply, req, now);
    }
  }

  lemma KeptSound(db: Db)
    requires Consistent(db)
    ensures Sound(db)
  {
  }

  /** Leasing the grants one after another: all of them, or none because a tenant is overdrawn. */
  lemma {:induction false} LeaseGrantsKeep(db: Db, grants: seq<S.Grant>, req: AcquireRequest, tokens: nat -> string, now: int)
    requires Consistent(db) && GrantsFit(db, grants, now)
    ensures var r := LeaseGrants(db, db, grants, req, tokens, now);
      && (r.Ok? ==>
            Kept(db, r.value.db, now) && LeasedAll(db, r.value.db, grants, r.value.reply, req, now) && !Overdrawn(db, grants))
      && (r.Err? ==> r.error in {NoId, CapacityChanged})
      && ((forall i: nat :: i < |grants| ==> tokens(i) != "") ==> (r.Err? <==> Overdrawn(db, grants)))
    decreases |grants|
  {
    hide Consistent, Kept, Evolves, Orderly, LeaseRow, LeasedAll, Overdrawn, Grantable;
    if grants == [] {
      KeptReflexive(db, now);
      LeasedNone(db, req, now);
    } else {
      var n := |grants| - 1;
      var init, g := grants[..n], grants[n];
      assert GrantsFit(db, init, now) by { assert forall i :: 0 <= i < |init| ==> init[i] == grants[i]; }
      LeaseGrantsKeep(db, init, req, tokens, now);
      var before := LeaseGrants(db, db, init, req, tokens, now);
      if before.Ok? {
        GrantableKnown(db, g, now);
        if tokens(n) != "" {
          LeaseNext(db, before.value.db, grants, before.value.reply, req, tokens(n), now);
        } else {
          NoToken(db, before.value.db, grants, before.value.reply, req, now);
        }
      } else if Overdrawn(db, init) {
        KeptSound(db);
        CostsPositive(db);
        OverdrawnStays(db, grants, now);
      }
    }
  }

  lemma GrantableKnown(db: Db, g: S.Grant, now: int)
    requires Grantable(db, g, now)
    ensures g.job in db.jobs
  {
  }

  lemma NoToken(db: Db, b: Db, grants: seq<S.Grant>, leases: seq<Lease>, req: AcquireRequest, now: int)
    requires Kept(db, b, now) && grants != [] && GrantsFit(db, grants, now)
    requires LeasedAll(db, b, grants[..|grants| - 1], leases, req, now)
    ensures grants[|grants| - 1].job in db.jobs
    ensures var g := grants[|grants| - 1]; var r := LeaseRow(b, Row(g.job, db.jobs[g.job]), req, "", now);
      r.Err? && r.error in {NoId, CapacityChanged}
  {
    hide Consistent, Evolves, Orderly, LeasedAll, GrantsFit, Sound, Move, Good;
    KeptSound(b);
    NextGrant(db, b, grants, leases, req, now);
    var g := grants[|grants| - 1];
    LeaseSound(b, Row(g.job, db.jobs[g.job]), req, "", now);
  }

  lemma LeasedNone(db: Db, req: AcquireRequest, now: int)
    requires Consistent(db)
    ensures LeasedAll(db, db, [], [], req, now) && !Overdrawn(db, [])
  {
    hide OneOutcome, Journaled, LifetimesBounded, BackoffKept, Fenced, Acyclic, Logged, Gated;
  }

  // ----------------------------------------------------------------- persisting the plan

  /** Storing deficits leaves the slot counters alone. */
  lemma {:induction false} DeficitsStored(queues: map<QueueId, QueueRow>, states: seq<S.QueueState>)
    ensures SetDeficits(queues, states).Keys == queues.Keys
    ensures forall q :: q in queues ==>
        SetDeficits(queues, states)[q] == queues[q].(deficit := SetDeficits(queues, states)[q].deficit)
    decreases |states|
  {
    if states != [] { DeficitsStored(queues, states[..|states| - 1]); }
  }

  lemma DeficitsBalanced(
      jobs: map<string, Job>, tenants: map<string, Tenant>, queues: map<QueueId, QueueRow>, states: seq<S.QueueState>)
    requires QueuesBalanced(jobs, queues) && Housed(jobs, tenants, queues)
    ensures QueuesBalanced(jobs, SetDeficits(queues, states)) && Housed(jobs, tenants, SetDeficits(queues, states))
  {
    hide Usage, SetDeficits;
    DeficitsStored(queues, states);
  }

  lemma PersistKeeps(db: Db, input: S.Snapshot, now: int)
    requires Consistent(db) && S.Decide(input).Ok? && input.sequence == db.schedulerSeq + 1
    ensures var r := PersistPlan(db, input, S.Decide(input).value);
      && r.Ok? && Kept(db, r.value, now) && r.value.jobs == db.jobs && r.value.attempts == db.attempts
      && r.value.tenants == db.tenants
  {
    hide OneOutcome, Journaled, LifetimesBounded, BackoffKept, Fenced, Acyclic, Evolves, Gated, Cleared, NoStrays,
      TenantsBalanced, QueuesBalanced, DepthBounded, Housed, SetDeficits, S.Canonical, S.Outcome;
    var decision := S.Decide(input).value;
    DeficitsBalanced(db.jobs, db.tenants, db.queues, decision.queues);
    var r := PersistPlan(db, input, decision).value;
    DecisionLog.RecordedGrows(db.log, r.log[|db.log|], input);
    PersistEvolves(db, r, now);
    PersistFrame(db, r);
  }

  lemma PersistFrame(db: Db, r: Db)
    requires r.jobs == db.jobs && r.events == db.events && r.completions == db.completions && r.deadLetters == db.deadLetters
    ensures OneOutcome(db) ==> OneOutcome(r)
    ensures Journaled(db) ==> Journaled(r)
  {
    hide CompletionsMatch, DeadLettersMatch, Consecutive, Tells;
  }

  lemma PersistEvolves(db: Db, r: Db, now: int)
    requires db.log <= r.log
    requires r == db.(queues := r.queues, cursor := r.cursor, schedulerSeq := r.schedulerSeq, log := r.log)
    ensures Evolves(db, r, now)
  {
    AttemptsSame(db.attempts, now);
  }

  // -------------------------------------------------------------------------- acquiring

  lemma DrawnGrantable(db: Db, now: int, grants: seq<S.Grant>, i: nat)
    requires i < |grants| && L.Drawn(Pool(db, now), [], grants)
    ensures Grantable(db, grants[i], now) && Eligible(db, grants[i].job, now)
  {
    assert L.FromPool(Pool(db, now), grants[i]);
    var c :| c in Pool(db, now) && grants[i] == S.GrantOf(c);
    PoolRow(db, now, c);
  }

  lemma PoolRow(db: Db, now: int, c: S.Candidate)
    requires c in Pool(db, now)
    ensures Grantable(db, S.GrantOf(c), now) && Eligible(db, c.job, now)
  {
  }

  /** The plan's grants name ready jobs, each once. */
  lemma PlanFits(db: Db, slots: int, limit: int, now: int)
    requires Sound(db) && slots >= 0 && limit >= 0
    ensures var input := PlanSnapshot(db, PlannedQueues(db, now, limit), slots, limit, now);
      && S.Decide(input).Ok? && GrantsFit(db, S.Decide(input).value.grants, now)
      && forall i :: 0 <= i < |S.Decide(input).value.grants| ==> Eligible(db, S.Decide(input).value.grants[i].job, now)
  {
    hide Sound, S.Decide, PlannedQueues, S.Canonical, EligibleRows, Grantable, Eligible;
    var input := PlanSnapshot(db, PlannedQueues(db, now, limit), slots, limit, now);
    PlannedCanonical(db, now, limit);
    CostsPositive(db);
    OfferedCosted(db, now, limit);
    L.DecideSucceeds(input);
    OfferedApart(db, now, limit);
    L.DecideDraws(input, Pool(db, now));
    var grants := S.Decide(input).value.grants;
    forall i | 0 <= i < |grants| ensures Grantable(db, grants[i], now) && Eligible(db, grants[i].job, now) {
      DrawnGrantable(db, now, grants, i);
    }
  }

  /** What a worker may have at most. */
  ghost function Offer(db: Db, req: AcquireRequest, now: int): int {
    UsableSlots(req.slots, req.reserve, HasRecovery(PlannedQueues(db, now, req.limit)))
  }

  ghost function PlanInput(db: Db, req: AcquireRequest, now: int): S.Snapshot {
    PlanSnapshot(db, PlannedQueues(db, now, req.limit), Offer(db, req, now), req.limit, now)
  }

  lemma GrantPlanKeeps(db: Db, req: AcquireRequest, tokens: nat -> string, now: int)
    requires Consistent(db) && req.slots >= 1 && req.limit >= 1 && req.reserve >= 0
    ensures S.Decide(PlanInput(db, req, now)).Ok?
    ensures var r := GrantPlan(db, PlanInput(db, req, now), req, tokens, now);
      var grants := S.Decide(PlanInput(db, req, now)).value.grants;
      && (r.Ok? ==>
            && Kept(db, r.value.db, now) && |r.value.reply| == |grants| && !Overdrawn(db, grants)
            && Carried(db, r.value.db, S.Decide(PlanInput(db, req, now)).value)
            && (forall i :: 0 <= i < |grants| ==>
                  r.value.reply[i].job == grants[i].job && Live(r.value.db, r.value.reply[i], req.worker, now + req.ttl)))
      && (r.Err? ==> r.error in {NoId, CapacityChanged})
      && ((forall i: nat :: i < |grants| ==> tokens(i) != "") ==> (r.Err? <==> Overdrawn(db, grants)))
  {
    hide Consistent, Kept, Evolves, Orderly, LeaseGrants, PersistPlan, S.Decide, PlannedQueues, GrantsFit, Overdrawn,
      HasRecovery, LeasedAll, Live, Carried;
    var input := PlanInput(db, req, now);
    KeptSound(db);
    PlanFits(db, Offer(db, req, now), req.limit, now);
    var grants := S.Decide(input).value.grants;
    LeaseGrantsKeep(db, grants, req, tokens, now);
    var leased := LeaseGrants(db, db, grants, req, tokens, now);
    if leased.Ok? { PersistDelivers(db, leased.value.db, input, leased.value.reply, req, now); }
  }

  /** The decision is carried out and on record: only granted jobs change, the cursor is the decision's,
      its deficits are stored, and the log grows by the one record of it. */
  ghost predicate Carried(db: Db, r: Db, d: S.Decision) {
    && r.jobs.Keys == db.jobs.Keys && r.deps == db.deps
    && (forall id :: id in db.jobs && !Granted(d.grants, id) ==> r.jobs[id] == db.jobs[id])
    && r.cursor == d.nextCursor && r.queues.Keys == db.queues.Keys
    && (forall i :: 0 <= i < |d.queues| && Last(d.queues, i) && QueueId(d.queues[i].tenant, d.queues[i].queue) in r.queues ==>
          r.queues[QueueId(d.queues[i].tenant, d.queues[i].queue)].deficit == d.queues[i].deficit)
    && |r.log| == |db.log| + 1 && db.log <= r.log && r.log[|db.log|].decision == d
  }

  /** No later entry names the same queue. */
  ghost predicate Last(states: seq<S.QueueState>, i: nat)
    requires i < |states|
  {
    forall j :: i < j < |states| ==> states[j].tenant != states[i].tenant || states[j].queue != states[i].queue
  }

  lemma {:induction false} DeficitStored(queues: map<QueueId, QueueRow>, states: seq<S.QueueState>, i: nat)
    requires i < |states| && Last(states, i) && QueueId(states[i].tenant, states[i].queue) in queues
    ensures var q := QueueId(states[i].tenant, states[i].queue); var r := SetDeficits(queues, states);
      q in r && r[q].deficit == states[i].deficit
    decreases |states|
  {
    var init := states[..|states| - 1];
    DeficitsStored(queues, init);
    if i < |init| {
      assert Last(init, i) by { assert forall j :: 0 <= j < |init| ==> init[j] == states[j]; }
      DeficitStored(queues, init, i);
    }
  }

  lemma PersistCarries(db: Db, input: S.Snapshot)
    requires S.Decide(input).Ok? && PersistPlan(db, input, S.Decide(input).value).Ok?
    ensures var d := S.Decide(input).value; var r := PersistPlan(db, input, d).value;
      && r.deps == db.deps && r.cursor == d.nextCursor && r.queues.Keys == db.queues.Keys
      && (forall i :: 0 <= i < |d.queues| && Last(d.queues, i) && QueueId(d.queues[i].tenant, d.queues[i].queue) in r.queues ==>
            r.queues[QueueId(d.queues[i].tenant, d.queues[i].queue)].deficit == d.queues[i].deficit)
      && |r.log| == |db.log| + 1 && db.log <= r.log && r.log[|db.log|].decision == d
  {
    hide S.Decide, DecisionLog.NewRecord, SetDeficits;
    var d := S.Decide(input).value;
    DecisionLog.NewRecordVerifies(DecisionLog.LinkBefore(db.log, |db.log|), input, d);
    DeficitsStored(db.queues, d.queues);
    forall i | 0 <= i < |d.queues| && Last(d.queues, i) && QueueId(d.queues[i].tenant, d.queues[i].queue) in db.queues
      ensures SetDeficits(db.queues, d.queues)[QueueId(d.queues[i].tenant, d.queues[i].queue)].deficit == d.queues[i].deficit
    {
      DeficitStored(db.queues, d.queues, i);
    }
  }

  /** Persisting the plan leaves the leases live. */
  lemma PersistDelivers(db: Db, leased: Db, input: S.Snapshot, leases: seq<Lease>, req: AcquireRequest, now: int)
    requires S.Decide(input).Ok? && Kept(db, leased, now) && LeasedAll(db, leased, S.Decide(input).value.grants, leases, req, now)
    requires input.sequence == db.schedulerSeq + 1
    ensures var r, grants := PersistPlan(leased, input, S.Decide(input).value), S.Decide(input).value.grants;
      && r.Ok? && Kept(db, r.value, now) && |leases| == |grants| && Carried(db, r.value, S.Decide(input).value)
      && forall i :: 0 <= i < |grants| ==> leases[i].job == grants[i].job && Live(r.value, leases[i], req.worker, now + req.ttl)
  {
    hide Consistent, Kept, Evolves, PersistPlan, S.Decide, TenantSlots, Granted, Live;
    KeptConsistent(db, leased, now);
    PersistKeeps(leased, input, now);
    PersistCarries(leased, input);
    var r := PersistPlan(leased, input, S.Decide(input).value).value;
    KeptChain(db, leased, r, now);
    var grants := S.Decide(input).value.grants;
    forall i | 0 <= i < |grants| ensures leases[i].job == grants[i].job && Live(r, leases[i], req.worker, now + req.ttl) {
      LiveSame(leased, r, leases[i], req.worker, now + req.ttl);
    }
  }

  lemma LiveSame(a: Db, b: Db, lease: Lease, worker: string, expiresAt: int)
    requires Live(a, lease, worker, expiresAt) && b.jobs == a.jobs && b.attempts == a.attempts
    ensures Live(b, lease, worker, expiresAt)
  {
  }

  /** Acquisition either commits leases that are all live, or leaves the store alone: because an
      identifier could not be drawn, or because the batch overdraws a tenant. */
  lemma AcquireKeeps(db: Db, req: AcquireRequest, tokens: nat -> string, now: int)
    requires Consistent(db) && req.slots >= 1 && req.limit >= 1 && req.reserve >= 0
    ensures var r := AcquireTx(db, req, tokens, now);
      && (r.Ok? ==> Kept(db, r.value.db, now))
      && (r.Ok? ==> forall i :: 0 <= i < |r.value.reply| ==> Live(r.value.db, r.value.reply[i], req.worker, now + req.ttl))
      && (r.Err? ==> r.error in {NoId, CapacityChanged})
  {
    hide Consistent, Kept, Evolves, Orderly, GrantPlan, S.Decide, PlannedQueues, Overdrawn, HasRecovery, Live;
    KeptReflexive(db, now);
    GrantPlanKeeps(db, req, tokens, now);
  }

  /** With identifiers at hand, acquisition aborts exactly when the decision overdraws a tenant. */
  lemma AcquireAborts(db: Db, req: AcquireRequest, tokens: nat -> string, now: int)
    requires Consistent(db) && req.slots >= 1 && req.limit >= 1 && req.reserve >= 0
    requires forall i: nat :: tokens(i) != ""
    ensures S.Decide(PlanInput(db, req, now)).Ok?
    ensures AcquireTx(db, req, tokens, now).Err? <==> Overdrawn(db, S.Decide(PlanInput(db, req, now)).value.grants)
  {
    hide Kept, Evolves, Orderly, GrantPlan, PlannedQueues, Overdrawn, HasRecovery, Live, Sound, Gated, S.Canonical, S.Loop;
    GrantPlanKeeps(db, req, tokens, now);
    if PlannedQueues(db, now, req.limit) == [] || Offer(db, req, now) == 0 {
      PlannedCanonical(db, now, req.limit);
      LeasedNone(db, req, now);
    }
  }

  /** The slots that some jobs of a tenant would take together. */
  ghost function Demand(db: Db, ids: set<string>, t: string): int
    requires ids <= db.jobs.Keys
    decreases |ids|
  {
    if !exists id :: id in ids then 0 else
      var id :| id in ids;
      Demand(db, ids - {id}, t) + (if db.jobs[id].tenant == t then db.jobs[id].cost else 0)
  }

  lemma {:induction false} DemandSplit(db: Db, ids: set<string>, t: string, id: string)
    requires ids <= db.jobs.Keys && id in ids
    ensures Demand(db, ids, t) == Demand(db, ids - {id}, t) + (if db.jobs[id].tenant == t then db.jobs[id].cost else 0)
    decreases |ids|
  {
    var x :| x in ids && Demand(db, ids, t) == Demand(db, ids - {x}, t) + (if db.jobs[x].tenant == t then db.jobs[x].cost else 0);
    if x != id {
      DemandSplit(db, ids - {x}, t, id);
      DemandSplit(db, ids - {id}, t, x);
      assert ids - {x} - {id} == ids - {id} - {x};
    }
  }

  /** Distinct grants take at most what all of `ids` would take. */
  lemma {:induction false} GrantsWithinDemand(db: Db, grants: seq<S.Grant>, ids: set<string>, t: string, now: int)
    requires GrantsFit(db, grants, now) && ids <= db.jobs.Keys && forall id :: id in ids ==> db.jobs[id].cost >= 1
    requires forall i :: 0 <= i < |grants| ==> grants[i].job in ids
    ensures 0 <= TenantSlots(grants, t) <= Demand(db, ids, t)
    decreases |ids|
  {
    if grants == [] {
      DemandPositive(db, ids, t);
    } else {
      var init, g := grants[..|grants| - 1], grants[|grants| - 1];
      assert Grantable(db, g, now);
      forall i | 0 <= i < |init| ensures init[i].job in ids - {g.job} { assert init[i] == grants[i]; }
      assert GrantsFit(db, init, now) by { assert forall i :: 0 <= i < |init| ==> init[i] == grants[i]; }
      GrantsWithinDemand(db, init, ids - {g.job}, t, now);
      DemandSplit(db, ids, t, g.job);
    }
  }

  lemma {:induction false} DemandPositive(db: Db, ids: set<string>, t: string)
    requires ids <= db.jobs.Keys && forall id :: id in ids ==> db.jobs[id].cost >= 1
    ensures Demand(db, ids, t) >= 0
    decreases |ids|
  {
    if id :| id in ids {
      DemandPositive(db, ids - {id}, t);
      DemandSplit(db, ids, t, id);
    }
  }

  ghost function EligibleIds(db: Db, now: int): (ids: set<string>)
    ensures ids <= db.jobs.Keys
  {
    set id | id in db.jobs && Eligible(db, id, now)
  }

  /** Told from the tables alone: where every limited tenant has room for all its ready jobs together,
      acquisition delivers. */
  lemma AcquireDelivers(db: Db, req: AcquireRequest, tokens: nat -> string, now: int)
    requires Consistent(db) && req.slots >= 1 && req.limit >= 1 && req.reserve >= 0
    requires forall i: nat :: tokens(i) != ""
    requires forall t :: t in db.tenants && db.tenants[t].maxSlots > 0 ==>
      db.tenants[t].activeSlots + Demand(db, EligibleIds(db, now), t) <= db.tenants[t].maxSlots
    ensures AcquireTx(db, req, tokens, now).Ok?
  {
    hide Consistent, AcquireTx, S.Decide, PlannedQueues, HasRecovery, Demand, Eligible;
    AcquireAborts(db, req, tokens, now);
    PlanBounded(db, req, now);
    KeptSound(db);
    CostsPositive(db);
    PlanInputShape(db, req, now);
    OfferBounded(db, req, now);
    PlanFits(db, Offer(db, req, now), req.limit, now);
    var grants := S.Decide(PlanInput(db, req, now)).value.grants;
    forall t ensures !Full(db, t, TenantSlots(grants, t)) {
      GrantsWithinDemand(db, grants, EligibleIds(db, now), t, now);
    }
  }

  function LeaseSlots(leases: seq<Lease>): int {
    if leases == [] then 0 else LeaseSlots(leases[..|leases| - 1]) + leases[|leases| - 1].cost
  }

  lemma {:induction false} SameSlots(
      db: Db, grants: seq<S.Grant>, leases: seq<Lease>, r: Db, worker: string, expiresAt: int, now: int)
    requires |leases| == |grants| && GrantsFit(db, grants, now) && JobsEvolve(db.jobs, r.jobs)
    requires forall i :: 0 <= i < |grants| ==> leases[i].job == grants[i].job && Live(r, leases[i], worker, expiresAt)
    ensures LeaseSlots(leases) == L.Slots(grants)
    decreases |grants|
  {
    if grants != [] {
      var n := |grants| - 1;
      var init, ls := grants[..n], leases[..n];
      assert forall i :: 0 <= i < n ==> init[i] == grants[i] && ls[i] == leases[i];
      SameSlots(db, init, ls, r, worker, expiresAt, now);
      assert Grantable(db, grants[n], now) && Live(r, leases[n], worker, expiresAt);
      assert JobEvolves(db.jobs[grants[n].job], r.jobs[grants[n].job]);
    }
  }

  /** A worker never receives more jobs than the batch limit or more slots than it offered. */
  lemma AcquireBounded(db: Db, req: AcquireRequest, tokens: nat -> string, now: int)
    requires Consistent(db) && req.slots >= 1 && req.limit >= 1 && req.reserve >= 0
    requires AcquireTx(db, req, tokens, now).Ok?
    ensures var leases := AcquireTx(db, req, tokens, now).value.reply;
      |leases| <= req.limit && LeaseSlots(leases) <= Offer(db, req, now) <= req.slots
  {
    hide Consistent, Kept, Evolves, Orderly, GrantPlan, S.Decide, PlannedQueues, Overdrawn, HasRecovery, Live,
      GrantsFit, Sound, PlanInput, Offer, LeaseSlots, L.Slots, PlanSnapshot;
    OfferBounded(db, req, now);
    GrantPlanKeeps(db, req, tokens, now);
    PlanBounded(db, req, now);
    var input := PlanInput(db, req, now);
    if PlannedQueues(db, now, req.limit) == [] || Offer(db, req, now) == 0 {
      AcquireNothing(db, req, tokens, now);
    } else {
      AcquireGrants(db, req, tokens, now);
      var r := GrantPlan(db, input, req, tokens, now).value;
      KeptConsistent(db, r.db, now);
      EvolvesJobs(db, r.db, now);
      SameSlots(db, S.Decide(input).value.grants, r.reply, r.db, req.worker, now + req.ttl, now);
    }
  }

  lemma PlanBounded(db: Db, req: AcquireRequest, now: int)
    requires Consistent(db) && req.slots >= 1 && req.limit >= 1 && req.reserve >= 0
    ensures S.Decide(PlanInput(db, req, now)).Ok?
    ensures var grants := S.Decide(PlanInput(db, req, now)).value.grants;
      GrantsFit(db, grants, now) && |grants| <= req.limit && L.Slots(grants) <= Offer(db, req, now)
  {
    hide Consistent, S.Decide, PlannedQueues, GrantsFit, Sound, L.Audited, PlanInput, Offer, L.Slots, S.Canonical;
    OfferBounded(db, req, now);
    KeptSound(db);
    PlanFits(db, Offer(db, req, now), req.limit, now);
    PlanInputShape(db, req, now);
    L.DecideAudited(PlanInput(db, req, now));
  }

  lemma OfferBounded(db: Db, req: AcquireRequest, now: int)
    requires req.slots >= 0 && req.reserve >= 0
    ensures 0 <= Offer(db, req, now) <= req.slots
  {
  }

  lemma PlanInputShape(db: Db, req: AcquireRequest, now: int)
    ensures PlanInput(db, req, now) == PlanSnapshot(db, PlannedQueues(db, now, req.limit), Offer(db, req, now), req.limit, now)
    ensures PlanInput(db, req, now).workerSlots == Offer(db, req, now) && PlanInput(db, req, now).batchLimit == req.limit
  {
  }

  lemma AcquireNothing(db: Db, req: AcquireRequest, tokens: nat -> string, now: int)
    requires PlannedQueues(db, now, req.limit) == [] || Offer(db, req, now) == 0
    ensures AcquireTx(db, req, tokens, now) == Ok(Tx(db, [])) && LeaseSlots([]) == 0
  {
    hide PlannedQueues, HasRecovery;
  }

  lemma AcquireGrants(db: Db, req: AcquireRequest, tokens: nat -> string, now: int)
    requires PlannedQueues(db, now, req.limit) != [] && Offer(db, req, now) != 0
    ensures AcquireTx(db, req, tokens, now) == GrantPlan(db, PlanInput(db, req, now), req, tokens, now)
  {
    hide PlannedQueues, HasRecovery, GrantPlan;
  }

  lemma EvolvesJobs(a: Db, b: Db, now: int)
    requires Evolves(a, b, now)
    ensures JobsEvolve(a.jobs, b.jobs)
  {
  }
}
