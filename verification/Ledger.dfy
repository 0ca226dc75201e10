/** One terminal outcome: completion and dead-letter rows mirror the job states. */
module Ledger {
  import opened Wrappers
  import opened Domain
  import opened Database

  ghost predicate WellFormed(job: Job) {
    && job.version >= 1 && job.retry.maxAttempts >= 1
    && (job.readySeq > 0 ==> job.state.Pending?)
    && (job.terminalAt.Some? <==> job.state.Terminal())
  }

  ghost predicate CompletionsMatch(jobs: map<string, Job>, completions: map<string, CompletionRow>) {
    && (forall id :: id in completions ==> id in jobs && jobs[id].state.Terminal())
    && (forall id :: id in jobs && jobs[id].state.Terminal() ==> id in completions)
    && (forall id :: id in completions && id in jobs ==>
          && completions[id].state == jobs[id].state && completions[id].version == jobs[id].version
          && completions[id].attemptNo == jobs[id].attemptNo)
  }

  ghost predicate DeadLettersMatch(jobs: map<string, Job>, deadLetters: map<string, DeadLetterRow>) {
    && (forall id :: id in deadLetters ==> id in jobs && jobs[id].state.DeadLetter?)
    && (forall id :: id in jobs && jobs[id].state.DeadLetter? ==> id in deadLetters)
    && (forall id :: id in deadLetters && deadLetters[id].redriven.Some? ==> deadLetters[id].redriven.value in jobs)
  }

  /** A completion row exists exactly for terminal jobs and carries their state and version; a
      dead-letter row exists exactly for dead letters. */
  ghost predicate OneOutcome(db: Db) {
    && "" !in db.jobs
    && (forall id :: id in db.jobs ==> WellFormed(db.jobs[id]))
    && CompletionsMatch(db.jobs, db.completions)
    && DeadLettersMatch(db.jobs, db.deadLetters)
  }

  /** A move out of an unfinished state never collides with an existing outcome. */
  lemma MoveSettles(db: Db, id: string, next: Job, kind: EventKind, now: int)
    requires OneOutcome(db) && id in db.jobs && !db.jobs[id].state.Terminal()
    requires WellFormed(next.(version := 1)) && next.retry == db.jobs[id].retry
    ensures Unsettled(db, id, next.state).Ok?
    ensures Move(db, id, next, kind, now).Ok? ==> OneOutcome(Move(db, id, next, kind, now).value)
  {
    hide Exchange, CompletionsMatch, DeadLettersMatch, Unsettled, WellFormed;
    var job := next.(version := db.jobs[id].version + 1, updatedAt := now);
    CompletionsWritten(db, id, job, kind, now);
    DeadLettersWritten(db, id, job, kind, now);
    WellFormedVersion(next, job);
    if Move(db, id, next, kind, now).Ok? {
      ExchangeFrame(db, db.jobs[id], job);
    }
  }

  lemma WellFormedVersion(a: Job, b: Job)
    requires WellFormed(a.(version := 1)) && b == a.(version := b.version, updatedAt := b.updatedAt) && b.version >= 1
    ensures WellFormed(b)
  {
  }

  lemma CompletionsWritten(db: Db, id: string, job: Job, kind: EventKind, now: int)
    requires CompletionsMatch(db.jobs, db.completions) && DeadLettersMatch(db.jobs, db.deadLetters)
    requires id !in db.jobs || !db.jobs[id].state.Terminal()
    ensures Unsettled(db, id, job.state).Ok?
    ensures CompletionsMatch(Written(db, id, job, kind, now).jobs, Written(db, id, job, kind, now).completions)
  {
  }

  lemma DeadLettersWritten(db: Db, id: string, job: Job, kind: EventKind, now: int)
    requires DeadLettersMatch(db.jobs, db.deadLetters)
    requires id !in db.jobs || !db.jobs[id].state.Terminal()
    ensures DeadLettersMatch(Written(db, id, job, kind, now).jobs, Written(db, id, job, kind, now).deadLetters)
  {
  }

  lemma ExchangeFrame(db: Db, before: Job, after: Job)
    requires Exchange(db, before, after).Ok?
    ensures var r := Exchange(db, before, after).value;
            && r == db.(tenants := r.tenants, queues := r.queues)
            && r.tenants.Keys == db.tenants.Keys && r.queues.Keys == db.queues.Keys
  {
  }

  lemma AdmitSettles(db: Db, id: string, job: Job, parents: set<string>, now: int)
    requires OneOutcome(db) && WellFormed(job)
    ensures id != "" && id !in db.jobs ==> Admit(db, id, job, parents, now).Ok?
    ensures Admit(db, id, job, parents, now).Ok? ==> OneOutcome(Admit(db, id, job, parents, now).value)
  {
    hide CompletionsMatch, DeadLettersMatch, Unsettled, WellFormed;
    if id !in db.jobs {
      var linked := db.(deps := db.deps + EdgesTo(id, parents));
      CompletionsWritten(linked, id, job, Admitted, now);
      DeadLettersWritten(linked, id, job, Admitted, now);
      SameUnsettled(db, linked, id, job.state);
    }
  }

  lemma SameUnsettled(a: Db, b: Db, id: string, state: JobState)
    requires a.completions == b.completions && a.deadLetters == b.deadLetters
    ensures Unsettled(a, id, state) == Unsettled(b, id, state)
  {
  }

  lemma LinkSettles(db: Db, source: string, created: string)
    requires OneOutcome(db) && source in db.deadLetters && created in db.jobs
    ensures OneOutcome(db.(deadLetters := db.deadLetters[source := db.deadLetters[source].(redriven := Some(created))]))
  {
  }
}
