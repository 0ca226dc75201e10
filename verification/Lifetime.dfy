/** Bounded lifetimes: attempts, versions and the pause before a retry. */
module Lifetime {
  import opened Domain
  import opened Database
  import opened Journal
  import opened Fencing
  import Backoff

  /** A job's progress is paid for: four versions per attempt, and each of `r` operator releases
      buys one more attempt and one more version. */
  ghost predicate Bounded(job: Job, r: nat) {
    var m, a := job.retry.maxAttempts + r, job.attemptNo;
    && a <= m
    && (!job.state.Terminal() && !job.state.Active() ==> a < m)
    && (job.state.Active() ==> a >= 1)
    && job.version <= r + VersionAllowance(job, m)
  }

  ghost function VersionAllowance(job: Job, m: int): int {
    match job.state
    case Pending => 4 * job.attemptNo + (if job.readySeq > 0 then 2 else 1)
    case Scheduled => 4 * job.attemptNo - 1
    case Running => 4 * job.attemptNo
    case Retrying => 4 * job.attemptNo + 1
    case _ => 4 * m + 1
  }

  /** The attempt and version bounds that every job keeps. */
  lemma BoundedLifetime(job: Job, r: nat)
    requires Bounded(job, r)
    ensures job.attemptNo <= job.retry.maxAttempts + r
    ensures job.version <= 4 * job.retry.maxAttempts + 5 * r + 1
  {
  }

  /** The moves a job row makes. */
  ghost predicate LegalMove(a: Job, b: Job, kind: EventKind) {
    && b.retry == a.retry && !a.state.Terminal() && !kind.Marker()
    && (kind.OperatorRelease? ==> b.state.Pending?) && (kind.LeaseAcquired? <==> b.state.Scheduled?)
    && match b.state
       case Pending =>
         && b.attemptNo == a.attemptNo && b.readySeq > 0
         && (kind.OperatorRelease?
             || (!a.state.Active() && a.readySeq == 0)
             || (a.state.Active() && a.attemptNo < a.retry.maxAttempts))
       case Scheduled => a.state.Pending? && a.readySeq > 0 && b.attemptNo == a.attemptNo + 1
       case Running => a.state.Scheduled? && b.attemptNo == a.attemptNo
       case Retrying => a.state.Active() && a.attemptNo < a.retry.maxAttempts && b.attemptNo == a.attemptNo
       case _ => b.attemptNo == a.attemptNo
  }

  lemma BoundedMove(a: Job, b: Job, kind: EventKind, r: nat)
    requires Bounded(a, r) && LegalMove(a, b, kind) && b.version == a.version + 1
    ensures Bounded(b, r + (if kind.OperatorRelease? then 1 else 0))
  {
  }

  ghost predicate LifetimesBounded(jobs: map<string, Job>, events: seq<Event>) {
    forall id :: id in jobs ==> Bounded(jobs[id], Releases(events, id))
  }

  lemma BoundedWritten(db: Db, id: string, job: Job, kind: EventKind, now: int)
    requires LifetimesBounded(db.jobs, db.events)
    requires id in db.jobs ==> LegalMove(db.jobs[id], job, kind) && job.version == db.jobs[id].version + 1
    requires id !in db.jobs ==> !kind.OperatorRelease? && Bounded(job, Releases(db.events, id))
    ensures LifetimesBounded(Written(db, id, job, kind, now).jobs, Written(db, id, job, kind, now).events)
  {
    hide Bounded, LegalMove, Releases;
    var e := Event(id, kind, job.state, job.version, now);
    if id in db.jobs {
      BoundedMove(db.jobs[id], job, kind, Releases(db.events, id));
    }
    var after := db.jobs[id := job];
    forall j | j in after ensures Bounded(after[j], Releases(db.events + [e], j)) {
      ReleasesGrow(db.events, e, j);
    }
  }

  lemma BoundedNoted(jobs: map<string, Job>, events: seq<Event>, e: Event)
    requires LifetimesBounded(jobs, events) && !e.kind.OperatorRelease?
    ensures LifetimesBounded(jobs, events + [e])
  {
    hide Bounded, Releases;
    forall j | j in jobs ensures Bounded(jobs[j], Releases(events + [e], j)) {
      ReleasesGrow(events, e, j);
    }
  }

  // ------------------------------------------------------------------------- backoff

  ghost predicate AwaitsRetry(attempts: map<AttemptKey, Attempt>, k: AttemptKey) {
    k in attempts && attempts[k].closing.Some? && attempts[k].closing.value.state.Retrying? && k.no >= 1
  }

  /** When the attempt after `k` may be leased at the earliest. */
  ghost function Earliest(attempts: map<AttemptKey, Attempt>, k: AttemptKey): int
    requires AwaitsRetry(attempts, k)
  {
    attempts[k].closing.value.committedAt + Backoff.Shortest(k.no)
  }

  /** A job between attempts is not available before its backoff has passed. */
  ghost predicate Resting(id: string, job: Job, attempts: map<AttemptKey, Attempt>) {
    var k := AttemptKey(id, job.attemptNo);
    !job.state.Active() && !job.state.Terminal() && AwaitsRetry(attempts, k) ==> job.availableAt >= Earliest(attempts, k)
  }

  /** Consecutive attempts are at least the backoff apart. */
  ghost predicate Spaced(attempts: map<AttemptKey, Attempt>, k: AttemptKey) {
    AttemptKey(k.job, k.no + 1) in attempts && AwaitsRetry(attempts, k)
    ==> attempts[AttemptKey(k.job, k.no + 1)].leasedAt >= Earliest(attempts, k)
  }

  /** Every lease is in the log. */
  ghost predicate LeasesTold(jobs: map<string, Job>, events: seq<Event>) {
    && (forall id :: id in jobs ==> Leasings(events, id) == jobs[id].attemptNo)
    && (forall id :: id !in jobs ==> Leasings(events, id) == 0)
  }

  /** Unless an operator released the job in between. */
  ghost predicate BackoffKept(jobs: map<string, Job>, attempts: map<AttemptKey, Attempt>, events: seq<Event>) {
    && LeasesTold(jobs, events)
    && (forall id :: id in jobs && ReleasesAfter(events, id, jobs[id].attemptNo) == 0 ==> Resting(id, jobs[id], attempts))
    && (forall k :: k in attempts && k.no >= 1 && ReleasesAfter(events, k.job, k.no) == 0 ==> Spaced(attempts, k))
  }

  /** The same attempts as far as the backoff is concerned. */
  ghost predicate SamePauses(a: map<AttemptKey, Attempt>, b: map<AttemptKey, Attempt>) {
    a.Keys == b.Keys && forall k :: k in a ==> a[k].leasedAt == b[k].leasedAt && a[k].closing == b[k].closing
  }

  lemma TellsOn(jobs: map<string, Job>, events: seq<Event>, id: string, job: Job, e: Event)
    requires LeasesTold(jobs, events) && e.job == id
    requires job.attemptNo == (if id in jobs then jobs[id].attemptNo else 0) + (if e.kind.LeaseAcquired? then 1 else 0)
    ensures LeasesTold(jobs[id := job], events + [e])
  {
    hide Leasings, ReleasesAfter;
    forall j ensures Leasings(events + [e], j) == Leasings(events, j) + (if e.job == j && e.kind.LeaseAcquired? then 1 else 0) {
      LeasingsGrow(events, e, j, 0);
    }
  }

  /** Releases are only added. */
  lemma ReleasedBefore(events: seq<Event>, e: Event, id: string, n: nat)
    ensures ReleasesAfter(events + [e], id, n) == 0 ==> ReleasesAfter(events, id, n) == 0
    ensures ReleasesAfter(events + [e], id, n) == 0 && e.job == id && Leasings(events, id) == n ==> !e.kind.OperatorRelease?
  {
    hide Leasings, ReleasesAfter;
    LeasingsGrow(events, e, id, n);
  }

  /** Any write that neither leases nor schedules a retry keeps the pauses. */
  lemma BackoffWritten(jobs: map<string, Job>, attempts: map<AttemptKey, Attempt>, events: seq<Event>,
                       after: map<AttemptKey, Attempt>, id: string, job: Job, e: Event)
    requires BackoffKept(jobs, attempts, events) && SamePauses(attempts, after) && e.job == id && !e.kind.LeaseAcquired?
    requires id in jobs ==> job.attemptNo == jobs[id].attemptNo
    requires id !in jobs ==> job.attemptNo == 0
    requires job.state.Active() || job.state.Terminal() || e.kind.OperatorRelease?
             || (id in jobs && !jobs[id].state.Active() && !jobs[id].state.Terminal() && job.availableAt == jobs[id].availableAt)
             || !AwaitsRetry(attempts, AttemptKey(id, job.attemptNo))
    ensures BackoffKept(jobs[id := job], after, events + [e])
  {
    hide Leasings, ReleasesAfter;
    TellsOn(jobs, events, id, job, e);
    var moved := jobs[id := job];
    forall j | j in moved && ReleasesAfter(events + [e], j, moved[j].attemptNo) == 0 ensures Resting(j, moved[j], after) {
      ReleasedBefore(events, e, j, moved[j].attemptNo);
      if j in jobs { assert Resting(j, jobs[j], attempts); }
    }
    forall k | k in after && k.no >= 1 && ReleasesAfter(events + [e], k.job, k.no) == 0 ensures Spaced(after, k) {
      ReleasedBefore(events, e, k.job, k.no);
      assert Spaced(attempts, k);
    }
  }

  lemma BackoffLeased(jobs: map<string, Job>, attempts: map<AttemptKey, Attempt>, events: seq<Event>,
                      id: string, job: Job, a: Attempt, e: Event)
    requires BackoffKept(jobs, attempts, events) && Fenced(jobs, attempts)
    requires id in jobs && !jobs[id].state.Active() && !jobs[id].state.Terminal()
    requires job.state.Active() && job.attemptNo == jobs[id].attemptNo + 1
    requires a.closing.None? && jobs[id].availableAt <= a.leasedAt
    requires e.job == id && e.kind.LeaseAcquired? && AttemptKey(id, job.attemptNo) !in attempts
    ensures BackoffKept(jobs[id := job], attempts[AttemptKey(id, job.attemptNo) := a], events + [e])
  {
    hide Leasings, ReleasesAfter;
    TellsOn(jobs, events, id, job, e);
    var moved, key := jobs[id := job], AttemptKey(id, job.attemptNo);
    var after := attempts[key := a];
    forall j | j in moved && ReleasesAfter(events + [e], j, moved[j].attemptNo) == 0 ensures Resting(j, moved[j], after) {
      ReleasedBefore(events, e, j, moved[j].attemptNo);
      if j != id { assert Resting(j, jobs[j], attempts); }
    }
    forall k | k in after && k.no >= 1 && ReleasesAfter(events + [e], k.job, k.no) == 0 ensures Spaced(after, k) {
      ReleasedBefore(events, e, k.job, k.no);
      if k != key {
        assert Spaced(attempts, k);
        if k == AttemptKey(id, jobs[id].attemptNo) { assert Resting(id, jobs[id], attempts); }
      }
    }
  }

  lemma BackoffClosed(jobs: map<string, Job>, attempts: map<AttemptKey, Attempt>, events: seq<Event>,
                      id: string, job: Job, a: Attempt, e: Event)
    requires BackoffKept(jobs, attempts, events) && Fenced(jobs, attempts)
    requires id in jobs && jobs[id].state.Active() && job.attemptNo == jobs[id].attemptNo
    requires AttemptKey(id, job.attemptNo) in attempts && attempts[AttemptKey(id, job.attemptNo)].leasedAt == a.leasedAt
    requires e.job == id && !e.kind.LeaseAcquired? && a.closing.Some? && a.closing.value.state == job.state
    requires job.state.Terminal() || job.availableAt >= a.closing.value.committedAt + Backoff.Shortest(MaxOne(job.attemptNo))
    ensures BackoffKept(jobs[id := job], attempts[AttemptKey(id, job.attemptNo) := a], events + [e])
  {
    hide Leasings, ReleasesAfter;
    TellsOn(jobs, events, id, job, e);
    var moved, key := jobs[id := job], AttemptKey(id, job.attemptNo);
    var after := attempts[key := a];
    assert JobFits(id, jobs[id], attempts);
    forall j | j in moved && ReleasesAfter(events + [e], j, moved[j].attemptNo) == 0 ensures Resting(j, moved[j], after) {
      ReleasedBefore(events, e, j, moved[j].attemptNo);
      if j != id { assert Resting(j, jobs[j], attempts); }
    }
    var next := AttemptKey(id, job.attemptNo + 1);
    assert next in attempts ==> AttemptFits(next, attempts[next], jobs[id]);
    forall k | k in after && k.no >= 1 && ReleasesAfter(events + [e], k.job, k.no) == 0 ensures Spaced(after, k) {
      ReleasedBefore(events, e, k.job, k.no);
      assert Spaced(attempts, k);
    }
  }

  function MaxOne(n: nat): (m: nat)
    ensures m >= 1 && m >= n && (n >= 1 ==> m == n)
  {
    if n == 0 then 1 else n
  }

  lemma BackoffNoted(jobs: map<string, Job>, attempts: map<AttemptKey, Attempt>, events: seq<Event>, e: Event)
    requires BackoffKept(jobs, attempts, events) && e.kind.Marker() && e.job in jobs
    ensures BackoffKept(jobs, attempts, events + [e])
  {
    hide Leasings, ReleasesAfter;
    TellsOn(jobs, events, e.job, jobs[e.job], e);
    assert jobs[e.job := jobs[e.job]] == jobs;
    forall j, n: nat ensures ReleasesAfter(events + [e], j, n) == 0 ==> ReleasesAfter(events, j, n) == 0 {
      ReleasedBefore(events, e, j, n);
    }
  }
}
