/** Lease fencing: attempts are numbered without gaps and at most the last one is open. */
module Fencing {
  import opened Domain

  /** An attempt row seen from its job. */
  ghost predicate AttemptFits(k: AttemptKey, a: Attempt, job: Job) {
    && 1 <= k.no <= job.attemptNo && a.generation == k.no
    && (a.Open() ==> k.no == job.attemptNo && a.closing.None? && (job.state.Active() || job.state.DeadLetter?))
    && (a.closing.Some? ==> Receipted(k, a, a.closing.value))
  }

  /** A stored receipt answers exactly the completion that closed the attempt. */
  ghost predicate Receipted(k: AttemptKey, a: Attempt, c: Closing) {
    && c.request.ref == LeaseRef(k.job, k.no, a.generation, a.token) && c.request.worker == a.worker
  }

  /** A job seen from its attempts. */
  ghost predicate JobFits(id: string, job: Job, attempts: map<AttemptKey, Attempt>) {
    && job.attemptNo == job.generation
    && (forall n :: 1 <= n <= job.attemptNo ==> AttemptKey(id, n) in attempts)
    && (job.state.Active() ==> job.attemptNo >= 1)
    && (job.state.Scheduled? ==> attempts[AttemptKey(id, job.attemptNo)].state.LeaseHeld?)
    && (job.state.Running? ==> attempts[AttemptKey(id, job.attemptNo)].state.LeaseRunning?)
  }

  ghost predicate Fenced(jobs: map<string, Job>, attempts: map<AttemptKey, Attempt>) {
    && (forall k :: k in attempts ==> k.job in jobs && AttemptFits(k, attempts[k], jobs[k.job]))
    && (forall id :: id in jobs ==> JobFits(id, jobs[id], attempts))
  }

  /** No open attempt without a leased job. */
  ghost predicate NoStrays(jobs: map<string, Job>, attempts: map<AttemptKey, Attempt>) {
    forall k :: k in attempts && k.job in jobs && attempts[k].Open() ==> jobs[k.job].state.Active()
  }

  /** A change of a job that leaves its attempts alone: an unleased job stays unleased, or a leased
      one becomes a dead letter. */
  lemma ShiftFenced(jobs: map<string, Job>, attempts: map<AttemptKey, Attempt>, id: string, job: Job)
    requires Fenced(jobs, attempts) && id in jobs && !jobs[id].state.Terminal()
    requires job.attemptNo == jobs[id].attemptNo && job.generation == jobs[id].generation && !job.state.Active()
    requires jobs[id].state.Active() ==> job.state.DeadLetter?
    ensures Fenced(jobs[id := job], attempts)
    ensures NoStrays(jobs, attempts) && !jobs[id].state.Active() ==> NoStrays(jobs[id := job], attempts)
  {
    var moved := jobs[id := job];
    assert JobFits(id, jobs[id], attempts);
    forall k | k in attempts ensures k.job in moved && AttemptFits(k, attempts[k], moved[k.job]) {
      assert AttemptFits(k, attempts[k], jobs[k.job]);
    }
  }

  lemma LeaseFenced(jobs: map<string, Job>, attempts: map<AttemptKey, Attempt>, id: string, job: Job, a: Attempt)
    requires Fenced(jobs, attempts) && id in jobs && !jobs[id].state.Terminal() && !jobs[id].state.Active()
    requires job.attemptNo == jobs[id].attemptNo + 1 == job.generation && job.state.Scheduled?
    requires a.generation == job.generation && a.state.LeaseHeld? && a.closing.None?
    ensures AttemptKey(id, job.attemptNo) !in attempts
    ensures Fenced(jobs[id := job], attempts[AttemptKey(id, job.attemptNo) := a])
    ensures NoStrays(jobs, attempts) ==> NoStrays(jobs[id := job], attempts[AttemptKey(id, job.attemptNo) := a])
  {
    var moved := jobs[id := job];
    var key := AttemptKey(id, job.attemptNo);
    assert JobFits(id, jobs[id], attempts);
    assert key in attempts ==> AttemptFits(key, attempts[key], jobs[id]);
    var after := attempts[key := a];
    forall k | k in after ensures k.job in moved && AttemptFits(k, after[k], moved[k.job]) {
      if k != key { assert AttemptFits(k, attempts[k], jobs[k.job]); }
    }
    forall j | j in moved ensures JobFits(j, moved[j], after) {
      if j != id { assert JobFits(j, jobs[j], attempts); }
    }
  }

  lemma StartFenced(jobs: map<string, Job>, attempts: map<AttemptKey, Attempt>, id: string, job: Job)
    requires Fenced(jobs, attempts) && id in jobs && jobs[id].state.Scheduled? && job.state.Running?
    requires job.attemptNo == jobs[id].attemptNo && job.generation == jobs[id].generation
    ensures AttemptKey(id, job.attemptNo) in attempts
    ensures var k := AttemptKey(id, job.attemptNo); var after := attempts[k := attempts[k].(state := LeaseRunning)];
            Fenced(jobs[id := job], after) && (NoStrays(jobs, attempts) ==> NoStrays(jobs[id := job], after))
  {
    var moved := jobs[id := job];
    assert JobFits(id, jobs[id], attempts);
    var key := AttemptKey(id, job.attemptNo);
    var after := attempts[key := attempts[key].(state := LeaseRunning)];
    forall k | k in after ensures k.job in moved && AttemptFits(k, after[k], moved[k.job]) {
      assert AttemptFits(k, attempts[k], jobs[k.job]);
    }
    forall j | j in moved ensures JobFits(j, moved[j], after) {
      assert JobFits(j, jobs[j], attempts);
    }
  }

  lemma BeatFenced(jobs: map<string, Job>, attempts: map<AttemptKey, Attempt>, key: AttemptKey, heartbeatAt: int, expiresAt: int)
    requires Fenced(jobs, attempts) && key in attempts
    ensures var after := attempts[key := attempts[key].(heartbeatAt := heartbeatAt, expiresAt := expiresAt)];
            Fenced(jobs, after) && (NoStrays(jobs, attempts) ==> NoStrays(jobs, after))
  {
    var after := attempts[key := attempts[key].(heartbeatAt := heartbeatAt, expiresAt := expiresAt)];
    forall k | k in after ensures k.job in jobs && AttemptFits(k, after[k], jobs[k.job]) {
      assert AttemptFits(k, attempts[k], jobs[k.job]);
    }
    forall j | j in jobs ensures JobFits(j, jobs[j], after) {
      assert JobFits(j, jobs[j], attempts);
    }
  }

  lemma CloseFenced(jobs: map<string, Job>, attempts: map<AttemptKey, Attempt>, id: string, job: Job, a: Attempt)
    requires Fenced(jobs, attempts) && id in jobs && jobs[id].state.Active() && !job.state.Active()
    requires job.attemptNo == jobs[id].attemptNo && job.generation == jobs[id].generation
    requires AttemptKey(id, job.attemptNo) in attempts
    requires var b := attempts[AttemptKey(id, job.attemptNo)];
             a.worker == b.worker && a.generation == b.generation && a.token == b.token
    requires !a.Open() && (a.closing.Some? ==> Receipted(AttemptKey(id, job.attemptNo), a, a.closing.value))
    ensures Fenced(jobs[id := job], attempts[AttemptKey(id, job.attemptNo) := a])
    ensures NoStrays(jobs, attempts) ==> NoStrays(jobs[id := job], attempts[AttemptKey(id, job.attemptNo) := a])
  {
    var moved := jobs[id := job];
    var key := AttemptKey(id, job.attemptNo);
    assert JobFits(id, jobs[id], attempts) && AttemptFits(key, attempts[key], jobs[id]);
    var after := attempts[key := a];
    forall k | k in after
      ensures k.job in moved && AttemptFits(k, after[k], moved[k.job])
      ensures k.job == id ==> !after[k].Open()
    {
      if k != key { assert AttemptFits(k, attempts[k], jobs[k.job]); }
    }
    forall j | j in moved ensures JobFits(j, moved[j], after) {
      assert JobFits(j, jobs[j], attempts);
    }
  }

  lemma AdmitFenced(jobs: map<string, Job>, attempts: map<AttemptKey, Attempt>, id: string, job: Job)
    requires Fenced(jobs, attempts) && id !in jobs && job.attemptNo == job.generation == 0 && !job.state.Active()
    ensures Fenced(jobs[id := job], attempts)
    ensures NoStrays(jobs, attempts) ==> NoStrays(jobs[id := job], attempts)
  {
    var moved := jobs[id := job];
    forall k | k in attempts ensures k.job in moved && AttemptFits(k, attempts[k], moved[k.job]) {
      assert k.job in jobs && AttemptFits(k, attempts[k], jobs[k.job]);
    }
    forall j | j in moved ensures JobFits(j, moved[j], attempts) {
      if j != id { assert JobFits(j, jobs[j], attempts); }
    }
  }
}
