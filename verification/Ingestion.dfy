/** Cron occurrences and Redis messages become jobs in two transactions (internal/store/sqlite/triggers.go,
    internal/trigger/redis.go).  A crash may fall between any two steps, several consumers may work on
    the same source, and everybody else keeps using the store. */
module Ingestion {
  import opened Wrappers
  import opened Domain
  import opened Database
  import opened Transactions
  import opened Invariant
  import opened Runs
  import opened Histories
  import opened Ordering

  /** Where a job comes from. */
  datatype Source = Occurrence(trigger: string, nominal: int) | Message(trigger: string, stream: string, id: string)

  /** RedisDelivery.IdempotencyKey. */
  function MessageKey(trigger: string, stream: string, id: string): string {
    "redis:" + trigger + ":" + stream + ":" + id
  }

  /** What a source stands for, once and for all: its job, if it can be decoded, and its digest.
      `occurrenceKey` is the digest-based key of a cron occurrence. */
  datatype Feed = Feed(spec: Source -> Option<JobSpec>, digest: Source -> string, occurrenceKey: (string, int) -> string)

  function KeyOf(f: Feed, s: Source): string {
    match s
    case Occurrence(t, n) => f.occurrenceKey(t, n)
    case Message(t, st, id) => MessageKey(t, st, id)
  }

  function SubmissionOf(f: Feed, s: Source, spec: JobSpec): Submission {
    Submission(spec, KeyOf(f, s), f.digest(s))
  }

  function RequestOf(f: Feed, s: Source, spec: JobSpec): RequestKey {
    RequestKey(spec.Normalize().tenant, KeyOf(f, s))
  }

  /** A consumer that has submitted a source and holds its job. */
  datatype Holding = Holding(source: Source, job: string)

  /** The durable tables, and in `held` and `noted` what consumers remember until a crash.  `made` lists
      the jobs that submissions of sources created; `recorded` is the table of occurrences and
      deliveries; `fires` the next fire times. */
  datatype Pipe = Pipe(
    store: System, made: seq<Holding>, recorded: map<Source, string>, acked: set<Source>, fires: map<string, int>,
    held: set<Holding>, noted: set<Source>)

  datatype Turn =
    | Elsewhere(step: Step)
    | Hand(source: Source, id: string, at: int)
    | Note(holding: Holding, nextFire: int)
    | Acknowledge(source: Source)
    | Register(trigger: string, firstFire: int)
    | Crash

  /** The first transaction: submit under the source's own key. */
  function Submitted(cfg: Config, f: Feed, p: Pipe, s: Source, id: string, at: int): Pipe {
    if f.spec(s).None? then p else
    var now := Max(at, p.store.last);
    var r := SubmitTx(cfg, p.store.db, SubmissionOf(f, s, f.spec(s).value), id, now);
    if r.Err? then p.(store := System(p.store.db, now))
    else
      var job := if r.value.reply.rows == [] then "" else r.value.reply.rows[0].id;
      p.(store := System(r.value.db, now),
         made := if r.value.reply.duplicate then p.made else p.made + [Holding(s, job)],
         held := p.held + {Holding(s, job)})
  }

  /** The second transaction: record the job of the source; a different one already recorded is a
      conflict.  An occurrence also advances its trigger, unless that has moved on. */
  function Recorded(p: Pipe, h: Holding, nextFire: int): Pipe {
    var q := p.(held := p.held - {h});
    var s := h.source;
    if s in q.recorded && s.Message? && q.recorded[s] != h.job then q
    else
      q.(recorded := if s in q.recorded then q.recorded else q.recorded[s := h.job],
         noted := q.noted + {s},
         fires := if s.Occurrence? && s.trigger in q.fires && q.fires[s.trigger] == s.nominal then q.fires[s.trigger := nextFire]
             else q.fires)
  }

  ghost function Advance(cfg: Config, f: Feed, p: Pipe, t: Turn): Pipe {
    match t
    case Elsewhere(step) => p.(store := Next(cfg, p.store, step))
    case Hand(s, id, at) => Submitted(cfg, f, p, s, id, at)
    case Note(h, nextFire) => if h in p.held then Recorded(p, h, nextFire) else p
    case Acknowledge(s) => if s in p.noted && s.Message? then p.(acked := p.acked + {s}, noted := p.noted - {s}) else p
    case Register(t, first) => if t in p.fires then p else p.(fires := p.fires[t := first])
    case Crash => p.(held := {}, noted := {})
  }

  ghost function Go(cfg: Config, f: Feed, p: Pipe, turns: seq<Turn>): Pipe {
    if turns == [] then p else Advance(cfg, f, Go(cfg, f, p, turns[..|turns| - 1]), turns[|turns| - 1])
  }

  const START := Pipe(BOOT, [], map[], {}, map[], {}, {})

  // ------------------------------------------------------------------------- the invariant

  /** The store remembers the job of a source under the source's key and digest. */
  ghost predicate Known(f: Feed, db: Db, s: Source, job: string) {
    f.spec(s).Some? &&
    var k := RequestOf(f, s, f.spec(s).value);
    && k in db.requests && db.requests[k].kind.JobRequest? && db.requests[k].digest == f.digest(s)
    && |db.requests[k].rows| == 1 && db.requests[k].rows[0].id == job
  }

  ghost predicate Sane(f: Feed, p: Pipe) {
    && Healthy(p.store) && Answered(p.store.db) && Separate(p.store.db.requests)
    && (forall i :: 0 <= i < |p.made| ==> Known(f, p.store.db, p.made[i].source, p.made[i].job))
    && (forall i, j :: 0 <= i < j < |p.made| ==> p.made[i].source != p.made[j].source)
    && (forall h :: h in p.held ==> Known(f, p.store.db, h.source, h.job))
    && (forall s :: s in p.recorded ==> Known(f, p.store.db, s, p.recorded[s]))
    && (forall s :: s in p.noted || s in p.acked ==> s in p.recorded)
  }

  /** The store may move on: what it knows of a source stays. */
  lemma KnownStays(f: Feed, a: Db, b: Db, s: Source, job: string)
    requires Known(f, a, s, job) && forall k :: k in a.requests ==> k in b.requests && b.requests[k] == a.requests[k]
    ensures Known(f, b, s, job)
  {
  }

  lemma SaneStore(f: Feed, p: Pipe, z: System)
    requires Sane(f, p) && Healthy(z) && Answered(z.db) && Separate(z.db.requests)
    requires forall k :: k in p.store.db.requests ==> k in z.db.requests && z.db.requests[k] == p.store.db.requests[k]
    ensures Sane(f, p.(store := z))
  {
    hide Healthy, Answered, Known, Separate;
    var a, b := p.store.db, z.db;
    forall i | 0 <= i < |p.made|
      ensures Known(f, b, p.made[i].source, p.made[i].job)
    {
      KnownStays(f, a, b, p.made[i].source, p.made[i].job);
    }
    forall h | h in p.held ensures Known(f, b, h.source, h.job) { KnownStays(f, a, b, h.source, h.job); }
    forall s | s in p.recorded ensures Known(f, b, s, p.recorded[s]) { KnownStays(f, a, b, s, p.recorded[s]); }
  }

  lemma ElsewhereSane(cfg: Config, f: Feed, p: Pipe, step: Step)
    requires Sane(f, p)
    ensures Sane(f, p.(store := Next(cfg, p.store, step)))
  {
    hide Answered, Known, Healthy, Separate, Next;
    NextAnswers(cfg, p.store, step);
    SaneStore(f, p, Next(cfg, p.store, step));
  }

  /** A submission either finds its key or creates the one job of its source. */
  lemma SubmitKnows(cfg: Config, f: Feed, db: Db, s: Source, id: string, now: int)
    requires f.spec(s).Some? && Answered(db)
    ensures var sub := SubmissionOf(f, s, f.spec(s).value); var r := SubmitTx(cfg, db, sub, id, now);
      var k := RequestOf(f, s, f.spec(s).value);
      r.Ok? ==>
        && |r.value.reply.rows| == 1 && Known(f, r.value.db, s, r.value.reply.rows[0].id)
        && (r.value.reply.duplicate <==> k in db.requests) && (r.value.reply.duplicate ==> r.value.db == db)
  {
    hide Blank, JobSpec.Valid, CheckDependencies, EnsureAdmission, Admit, SubmittedJob;
    var spec := f.spec(s).value.Normalize();
    var k := RequestKey(spec.tenant, KeyOf(f, s));
    if k in db.requests { assert AnsweredBy(db.jobs, db.requests[k]); }
  }

  lemma HandSane(cfg: Config, f: Feed, p: Pipe, s: Source, id: string, at: int)
    requires Sane(f, p)
    ensures Sane(f, Submitted(cfg, f, p, s, id, at))
  {
    hide Answered, Known, SubmitTx, Healthy, KeyOf, RequestOf, SubmissionOf, Separate;
    if f.spec(s).Some? {
      var now := Max(at, p.store.last);
      var sub := SubmissionOf(f, s, f.spec(s).value);
      var r := SubmitTx(cfg, p.store.db, sub, id, now);
      var z := System(if r.Ok? then r.value.db else p.store.db, now);
      SubmitHealthy(cfg, p.store, sub, id, at);
      SaneStore(f, p, z);
      SubmitKnows(cfg, f, p.store.db, s, id, now);
      if r.Ok? && !r.value.reply.duplicate { NotYetMade(f, p, s); }
    }
  }

  lemma NotYetMade(f: Feed, p: Pipe, s: Source)
    requires Sane(f, p) && f.spec(s).Some? && RequestOf(f, s, f.spec(s).value) !in p.store.db.requests
    ensures forall i :: 0 <= i < |p.made| ==> p.made[i].source != s
  {
    hide Healthy, Answered, Separate;
    forall i | 0 <= i < |p.made| ensures p.made[i].source != s {
      assert Known(f, p.store.db, p.made[i].source, p.made[i].job);
    }
  }

  lemma SubmitHealthy(cfg: Config, s: System, sub: Submission, id: string, at: int)
    requires Healthy(s) && Answered(s.db) && Separate(s.db.requests)
    ensures var now := Max(at, s.last); var r := SubmitTx(cfg, s.db, sub, id, now);
      var z := System(if r.Ok? then r.value.db else s.db, now);
      && Healthy(z) && Answered(z.db) && Separate(z.db.requests)
      && forall k :: k in s.db.requests ==> k in z.db.requests && z.db.requests[k] == s.db.requests[k]
  {
    hide Answered, SubmitTx, Healthy, Separate, Next;
    SubmitStep(cfg, s, sub, id, at);
    NextAnswers(cfg, s, Step(Submit(sub, id), at));
  }

  lemma AdvanceSane(cfg: Config, f: Feed, p: Pipe, t: Turn)
    requires Sane(f, p)
    ensures Sane(f, Advance(cfg, f, p, t))
  {
    hide Answered, Known, Healthy, Next, Submitted, Separate;
    match t {
      case Elsewhere(step) => ElsewhereSane(cfg, f, p, step);
      case Hand(s, id, at) => HandSane(cfg, f, p, s, id, at);
      case _ =>
    }
  }

  lemma {:induction false} GoSane(cfg: Config, f: Feed, p: Pipe, turns: seq<Turn>)
    requires Sane(f, p)
    ensures Sane(f, Go(cfg, f, p, turns))
    decreases |turns|
  {
    hide Sane, Advance;
    if turns != [] {
      GoSane(cfg, f, p, turns[..|turns| - 1]);
      AdvanceSane(cfg, f, Go(cfg, f, p, turns[..|turns| - 1]), turns[|turns| - 1]);
    }
  }

  lemma StartSane(f: Feed)
    ensures Sane(f, START)
  {
    hide Healthy;
    BootHealthy();
  }

  // ------------------------------------------------------------------------- the theorems

  /** Under any crashes, redeliveries and interleavings a source creates at most one job. */
  lemma AtMostOneJob(cfg: Config, f: Feed, turns: seq<Turn>, i: nat, j: nat)
    requires var p := Go(cfg, f, START, turns); i < |p.made| && j < |p.made| && p.made[i].source == p.made[j].source
    ensures i == j
  {
    hide Go, Known, Answered, Healthy;
    StartSane(f);
    GoSane(cfg, f, START, turns);
  }

  /** An acknowledged message has exactly one job: its delivery row names a job that exists, and any job
      a submission of it created is that one. */
  lemma AcknowledgedHasJob(cfg: Config, f: Feed, turns: seq<Turn>, s: Source)
    requires s in Go(cfg, f, START, turns).acked
    ensures var p := Go(cfg, f, START, turns);
      && s in p.recorded && p.recorded[s] in p.store.db.jobs
      && forall i :: 0 <= i < |p.made| && p.made[i].source == s ==> p.made[i].job == p.recorded[s]
  {
    hide Go, Healthy;
    StartSane(f);
    GoSane(cfg, f, START, turns);
    var p := Go(cfg, f, START, turns);
    RecordedHasJob(f, p, s);
    assert Known(f, p.store.db, s, p.recorded[s]);
    forall i | 0 <= i < |p.made| && p.made[i].source == s ensures p.made[i].job == p.recorded[s] {
      assert Known(f, p.store.db, p.made[i].source, p.made[i].job);
    }
  }

  /** Recording never meets a conflict: whoever holds a source holds the recorded job. */
  lemma NoConflict(cfg: Config, f: Feed, turns: seq<Turn>, h: Holding)
    requires var p := Go(cfg, f, START, turns); h in p.held && h.source in p.recorded
    ensures Go(cfg, f, START, turns).recorded[h.source] == h.job
  {
    hide Go, Sane;
    StartSane(f);
    GoSane(cfg, f, START, turns);
    HeldAgrees(f, Go(cfg, f, START, turns), h);
  }

  lemma StepFires(cfg: Config, f: Feed, p: Pipe, t: Turn, trigger: string)
    requires trigger in p.fires
    ensures var q := Advance(cfg, f, p, t);
      && trigger in q.fires && (forall s :: s in p.recorded ==> s in q.recorded)
      && (q.fires[trigger] != p.fires[trigger] ==> Occurrence(trigger, p.fires[trigger]) in q.recorded)
  {
    hide SubmitTx, Next;
  }

  /** No fire time is skipped: a trigger leaves a nominal time only when that occurrence has its job. */
  lemma FiredIsRecorded(cfg: Config, f: Feed, p: Pipe, turns: seq<Turn>, trigger: string)
    requires trigger in p.fires && Sane(f, p)
    ensures var q := Go(cfg, f, p, turns);
      trigger in q.fires && (q.fires[trigger] != p.fires[trigger] ==>
        var s := Occurrence(trigger, p.fires[trigger]); s in q.recorded && q.recorded[s] in q.store.db.jobs)
  {
    hide Advance, Sane;
    FiresKept(cfg, f, p, turns, trigger);
    GoSane(cfg, f, p, turns);
    forall s | s in Go(cfg, f, p, turns).recorded ensures Go(cfg, f, p, turns).recorded[s] in Go(cfg, f, p, turns).store.db.jobs {
      RecordedHasJob(f, Go(cfg, f, p, turns), s);
    }
  }

  lemma {:induction false} FiresKept(cfg: Config, f: Feed, p: Pipe, turns: seq<Turn>, trigger: string)
    requires trigger in p.fires
    ensures var q := Go(cfg, f, p, turns);
      trigger in q.fires && (q.fires[trigger] != p.fires[trigger] ==> Occurrence(trigger, p.fires[trigger]) in q.recorded)
    decreases |turns|
  {
    hide Advance;
    if turns != [] {
      var init := turns[..|turns| - 1];
      FiresKept(cfg, f, p, init, trigger);
      StepFires(cfg, f, Go(cfg, f, p, init), turns[|turns| - 1], trigger);
    }
  }

  lemma RecordedHasJob(f: Feed, p: Pipe, s: Source)
    requires Sane(f, p) && s in p.recorded
    ensures p.recorded[s] in p.store.db.jobs
  {
    hide Healthy;
    assert Known(f, p.store.db, s, p.recorded[s]);
    var k := RequestOf(f, s, f.spec(s).value);
    assert AnsweredBy(p.store.db.jobs, p.store.db.requests[k]);
  }

  /** Two recorded sources have the same job exactly when they share tenant and key, and then they have the
      same digest too: a source that collides with another under a different digest is never recorded. */
  lemma KeysDecideJobs(cfg: Config, f: Feed, turns: seq<Turn>, s: Source, t: Source)
    requires var p := Go(cfg, f, START, turns); s in p.recorded && t in p.recorded
    ensures var p := Go(cfg, f, START, turns);
      && f.spec(s).Some? && f.spec(t).Some?
      && (p.recorded[s] == p.recorded[t] <==> RequestOf(f, s, f.spec(s).value) == RequestOf(f, t, f.spec(t).value))
      && (p.recorded[s] == p.recorded[t] ==> f.digest(s) == f.digest(t))
  {
    hide Go, Healthy, Answered, RequestOf;
    StartSane(f);
    GoSane(cfg, f, START, turns);
    var p := Go(cfg, f, START, turns);
    assert Known(f, p.store.db, s, p.recorded[s]) && Known(f, p.store.db, t, p.recorded[t]);
  }

  /** A message that shares tenant and key with a recorded one never creates a job: under the same digest it
      is given the other's job, under another it is refused. */
  lemma CollisionCreatesNothing(cfg: Config, f: Feed, p: Pipe, s: Source, t: Source, id: string, at: int)
    requires Sane(f, p) && s in p.recorded && f.spec(t).Some? && f.spec(s).Some?
    requires RequestOf(f, t, f.spec(t).value) == RequestOf(f, s, f.spec(s).value)
    ensures Submitted(cfg, f, p, t, id, at).made == p.made
    ensures Refused(cfg, f, p, t, id, at) || Holding(t, p.recorded[s]) in Submitted(cfg, f, p, t, id, at).held
    ensures f.digest(t) != f.digest(s) ==> Refused(cfg, f, p, t, id, at)
  {
    hide Healthy, Answered, Separate;
    hide Blank, JobSpec.Valid, CheckDependencies, EnsureAdmission, Admit, SubmittedJob;
    assert Known(f, p.store.db, s, p.recorded[s]);
  }

  // ------------------------------------------------------------------------- message keys

  predicate ColonFree(s: string) {
    ':' !in s
  }

  lemma LastColon(a: string, m: string, b: string, n: string)
    requires a + [':'] + m == b + [':'] + n && ColonFree(m) && ColonFree(n)
    ensures a == b && m == n
  {
    var x, y := a + [':'] + m, b + [':'] + n;
    assert x[|a|] == ':' && y[|b|] == ':';
    forall i | |a| < i < |x| ensures x[i] != ':' { assert x[i] == m[i - |a| - 1]; }
    forall i | |b| < i < |y| ensures y[i] != ':' { assert y[i] == n[i - |b| - 1]; }
    assert |a| == |b|;
    assert x[..|a|] == a && x[|a| + 1..] == m && y[..|b|] == b && y[|b| + 1..] == n;
  }

  /** With message identifiers free of colons, as Redis makes them, two keys agree exactly when the
      identifiers agree and trigger and stream read the same with the colon between them. */
  lemma KeysAgree(t1: string, s1: string, m1: string, t2: string, s2: string, m2: string)
    requires ColonFree(m1) && ColonFree(m2)
    ensures MessageKey(t1, s1, m1) == MessageKey(t2, s2, m2) <==> m1 == m2 && t1 + ":" + s1 == t2 + ":" + s2
  {
    var p := "redis:";
    var a, b := t1 + ":" + s1, t2 + ":" + s2;
    assert MessageKey(t1, s1, m1) == p + (a + [':'] + m1) && MessageKey(t2, s2, m2) == p + (b + [':'] + m2);
    assert (p + (a + [':'] + m1))[|p|..] == a + [':'] + m1 && (p + (b + [':'] + m2))[|p|..] == b + [':'] + m2;
    if MessageKey(t1, s1, m1) == MessageKey(t2, s2, m2) { LastColon(a, m1, b, m2); }
  }

  /** So streams may collide when trigger identifiers contain colons... */
  lemma KeysMayCollide()
    ensures MessageKey("a:b", "c", "1-0") == MessageKey("a", "b:c", "1-0")
  {
  }

  lemma FirstColon(a: string, x: string, b: string, y: string)
    requires a + [':'] + x == b + [':'] + y && ColonFree(a) && ColonFree(b)
    ensures a == b && x == y
  {
    var s, t := a + [':'] + x, b + [':'] + y;
    assert s[|a|] == ':' && t[|b|] == ':';
    forall i | 0 <= i < |a| ensures s[i] != ':' { assert s[i] == a[i]; }
    forall i | 0 <= i < |b| ensures t[i] != ':' { assert t[i] == b[i]; }
    assert |a| == |b|;
    assert s[..|a|] == a && s[|a| + 1..] == x && t[..|b|] == b && t[|b| + 1..] == y;
  }

  /** ... and never when they do not. */
  lemma KeysTellApart(t1: string, s1: string, m1: string, t2: string, s2: string, m2: string)
    requires ColonFree(m1) && ColonFree(m2) && ColonFree(t1) && ColonFree(t2)
    requires MessageKey(t1, s1, m1) == MessageKey(t2, s2, m2)
    ensures t1 == t2 && s1 == s2 && m1 == m2
  {
    KeysAgree(t1, s1, m1, t2, s2, m2);
    assert t1 + ":" + s1 == t1 + [':'] + s1 && t2 + ":" + s2 == t2 + [':'] + s2;
    FirstColon(t1, s1, t2, s2);
  }

  /** With trigger and message identifiers free of colons, distinct acknowledged messages have distinct
      jobs. */
  lemma MessagesHaveOwnJobs(cfg: Config, f: Feed, turns: seq<Turn>, s: Source, t: Source)
    requires var p := Go(cfg, f, START, turns); s in p.acked && t in p.acked && s != t && s.Message? && t.Message?
    requires ColonFree(s.id) && ColonFree(t.id) && ColonFree(s.trigger) && ColonFree(t.trigger)
    ensures var p := Go(cfg, f, START, turns); s in p.recorded && t in p.recorded && p.recorded[s] != p.recorded[t]
  {
    hide Go, ColonFree;
    AcknowledgedHasJob(cfg, f, turns, s);
    AcknowledgedHasJob(cfg, f, turns, t);
    KeysDecideJobs(cfg, f, turns, s, t);
    if MessageKey(s.trigger, s.stream, s.id) == MessageKey(t.trigger, t.stream, t.id) {
      KeysTellApart(s.trigger, s.stream, s.id, t.trigger, t.stream, t.id);
    }
  }

  // ---------------------------------------------------------------------------- as code

  function DueSourceKey(s: Source): Key {
    if s.Occurrence? then [s.nominal] + Text(s.trigger) else []
  }

  /** The due occurrences: every trigger whose next fire time has come, earliest first. */
  ghost function DueSources(fires: map<string, int>, now: int, limit: int): seq<Source> {
    Take(Query(set t | t in fires && fires[t] <= now :: Occurrence(t, fires[t]), DueSourceKey), limit)
  }

  method FindDueSources(fires: map<string, int>, now: int, limit: int) returns (due: seq<Source>)
    ensures due == DueSources(fires, now, limit)
    ensures forall i :: 0 <= i < |due| ==>
        due[i].Occurrence? && due[i].trigger in fires && due[i].nominal == fires[due[i].trigger]
    ensures forall i, j :: 0 <= i < j < |due| ==> due[i].trigger != due[j].trigger
  {
    var matching := set t | t in fires && fires[t] <= now :: Occurrence(t, fires[t]);
    forall x, y | x in matching && y in matching && DueSourceKey(x) == DueSourceKey(y) ensures x == y {
      assert DueSourceKey(x)[1..] == Text(x.trigger) && DueSourceKey(y)[1..] == Text(y.trigger);
      TextInjective(x.trigger, y.trigger);
    }
    var all := RunQuery(matching, DueSourceKey);
    due := Take(all, limit);
    forall i | 0 <= i < |due| ensures due[i].Occurrence? && due[i].trigger in fires && due[i].nominal == fires[due[i].trigger] {
      assert all[i] in matching;
    }
    forall i, j | 0 <= i < j < |due| ensures due[i].trigger != due[j].trigger { assert all[i] != all[j]; }
  }

  ghost predicate FiredIn(due: seq<Source>, trigger: string) {
    exists i :: 0 <= i < |due| && due[i].trigger == trigger
  }

  /** The fire times after the occurrences in `due` have fired. */
  ghost predicate MovedOn(before: map<string, int>, after: map<string, int>, due: seq<Source>, nextFire: string -> int) {
    && after.Keys == before.Keys
    && forall t :: t in before ==> after[t] == if FiredIn(due, t) then nextFire(t) else before[t]
  }

  lemma MovedOne(before: map<string, int>, p: Pipe, due: seq<Source>, n: nat, h: Holding, nextFire: string -> int)
    requires n < |due| && h.source == due[n] && due[n].Occurrence?
    requires due[n].trigger in before && due[n].nominal == before[due[n].trigger]
    requires forall i, j :: 0 <= i < j < |due| ==> due[i].trigger != due[j].trigger
    requires MovedOn(before, p.fires, due[..n], nextFire)
    ensures MovedOn(before, Recorded(p, h, nextFire(due[n].trigger)).fires, due[..n + 1], nextFire)
  {
    var s, a, b := due[n], due[..n], due[..n + 1];
    assert forall i :: 0 <= i < n ==> b[i] == a[i];
    assert !FiredIn(a, s.trigger);
    forall t ensures FiredIn(b, t) <==> FiredIn(a, t) || t == s.trigger {
      if t == s.trigger { assert b[n].trigger == t; }
      if FiredIn(a, t) {
        var i :| 0 <= i < |a| && a[i].trigger == t;
        assert b[i].trigger == t;
      }
    }
  }

  /** The submission of a source would fail: nothing to decode, or the store turns it down. */
  ghost predicate Refused(cfg: Config, f: Feed, p: Pipe, s: Source, id: string, at: int) {
    f.spec(s).None? || SubmitTx(cfg, p.store.db, SubmissionOf(f, s, f.spec(s).value), id, Max(at, p.store.last)).Err?
  }

  class Ingestor {
    const cfg: Config
    const feed: Feed
    var pipe: Pipe

    ghost predicate Valid()
      reads this
    {
      Sane(feed, pipe)
    }

    constructor (cfg: Config, feed: Feed)
      ensures Valid() && this.cfg == cfg && this.feed == feed && pipe == START
    {
      this.cfg, this.feed, pipe := cfg, feed, START;
      StartSane(feed);
    }

    /** SubmitJob under the source's key; a refused source is not held. */
    method Submit(s: Source, id: string, at: int) returns (job: Option<string>)
      modifies this
      ensures pipe == Submitted(cfg, feed, old(pipe), s, id, at)
      ensures job.None? <==> Refused(cfg, feed, old(pipe), s, id, at)
      ensures job.Some? ==> Holding(s, job.value) in pipe.held
    {
      hide SubmitTx;
      if feed.spec(s).None? { return None; }
      var now := Max(at, pipe.store.last);
      var r := SubmitTx(cfg, pipe.store.db, SubmissionOf(feed, s, feed.spec(s).value), id, now);
      if r.Err? {
        pipe := pipe.(store := System(pipe.store.db, now));
        return None;
      }
      var j := if r.value.reply.rows == [] then "" else r.value.reply.rows[0].id;
      pipe := pipe.(store := System(r.value.db, now),
                    made := if r.value.reply.duplicate then pipe.made else pipe.made + [Holding(s, j)],
                    held := pipe.held + {Holding(s, j)});
      job := Some(j);
    }

    /** DeliverRedis: both transactions, the second of which may fail for outside reasons. */
    method DeliverRedis(s: Source, id: string, at: int, fails: bool) returns (ok: bool, ghost turns: seq<Turn>)
      requires Valid() && s.Message?
      modifies this
      ensures Valid() && pipe == Go(cfg, feed, old(pipe), turns) && pipe.acked == old(pipe).acked
      ensures ok ==> s in pipe.noted
      ensures !ok ==> fails || Refused(cfg, feed, pipe, s, id, at)
    {
      hide Submitted, Refused, Go, Sane;
      ghost var before := pipe;
      NoTurns(cfg, feed, before);
      turns := [];
      Extend(cfg, feed, before, turns, Hand(s, id, at));
      HandIs(cfg, feed, before, s, id, at);
      RefusedStays(cfg, feed, before, s, id, at);
      turns := turns + [Hand(s, id, at)];
      var job := Submit(s, id, at);
      if job.None? || fails { return false, turns; }
      var h := Holding(s, job.value);
      HeldAgrees(feed, pipe, h);
      Extend(cfg, feed, before, turns, Note(h, 0));
      turns := turns + [Note(h, 0)];
      ok := !(s in pipe.recorded && pipe.recorded[s] != h.job);
      pipe := Recorded(pipe, h, 0);
    }

    /** handleMessages: persist, then acknowledge, one message after the other, up to the first error. */
    method HandleMessages(messages: seq<Source>, ids: nat -> string, at: int, storeFails: nat -> bool, ackFails: nat -> bool)
      returns (handled: nat, ghost turns: seq<Turn>)
      requires Valid() && forall s :: s in messages ==> s.Message?
      modifies this
      ensures Valid() && pipe == Go(cfg, feed, old(pipe), turns)
      ensures handled <= |messages| && pipe.acked == old(pipe).acked + (set s | s in messages[..handled])
      ensures handled < |messages| ==>
        storeFails(handled) || ackFails(handled) || Refused(cfg, feed, pipe, messages[handled], ids(handled), at)
    {
      hide Go, Advance, Sane, Refused;
      ghost var before := pipe;
      handled, turns := 0, [];
      NoTurns(cfg, feed, before);
      while handled < |messages|
        invariant handled <= |messages| && Sane(feed, pipe) && pipe == Go(cfg, feed, before, turns)
        invariant pipe.acked == before.acked + (set s | s in messages[..handled])
        decreases |messages| - handled
      {
        var s := messages[handled];
        assert s in messages;
        var ok, more := DeliverRedis(s, ids(handled), at, storeFails(handled));
        GoConcat(cfg, feed, before, turns, more);
        turns := turns + more;
        if !ok || ackFails(handled) { return handled, turns; }
        Extend(cfg, feed, before, turns, Acknowledge(s));
        AcknowledgeIs(cfg, feed, pipe, s);
        turns := turns + [Acknowledge(s)];
        pipe := pipe.(acked := pipe.acked + {s}, noted := pipe.noted - {s});
        assert messages[..handled + 1] == messages[..handled] + [s];
        handled := handled + 1;
      }
    }

    /** FireDueCron: for every due occurrence submit, then record it and advance its trigger, up to the
        first error. */
    method FireDueCron(now: int, limit: int, ids: nat -> string, nextFire: string -> int, fails: nat -> bool)
      returns (fired: nat, ghost turns: seq<Turn>)
      requires Valid()
      modifies this
      ensures Valid() && pipe == Go(cfg, feed, old(pipe), turns)
      ensures var due := DueSources(old(pipe).fires, now, limit);
        && fired <= |due| && (forall i :: 0 <= i < fired ==> due[i] in pipe.recorded)
        && MovedOn(old(pipe).fires, pipe.fires, due[..fired], nextFire)
        && (fired < |due| ==> fails(fired) || Refused(cfg, feed, pipe, due[fired], ids(fired), now))
    {
      hide Go, Advance, Submitted, DueSources, Sane, Refused, MovedOn, Recorded;
      ghost var before := pipe;
      fired, turns := 0, [];
      NoTurns(cfg, feed, before);
      var due := FindDueSources(pipe.fires, now, limit);
      NoneMoved(before.fires, due, nextFire);
      while fired < |due|
        invariant fired <= |due| && Sane(feed, pipe) && pipe == Go(cfg, feed, before, turns)
        invariant MovedOn(before.fires, pipe.fires, due[..fired], nextFire)
        invariant forall i :: 0 <= i < fired ==> due[i] in pipe.recorded
        decreases |due| - fired
      {
        var s := due[fired];
        Extend(cfg, feed, before, turns, Hand(s, ids(fired), now));
        HandIs(cfg, feed, pipe, s, ids(fired), now);
        RefusedStays(cfg, feed, pipe, s, ids(fired), now);
        turns := turns + [Hand(s, ids(fired), now)];
        var job := Submit(s, ids(fired), now);
        if job.None? || fails(fired) { return fired, turns; }
        var h := Holding(s, job.value);
        Extend(cfg, feed, before, turns, Note(h, nextFire(s.trigger)));
        NoteIs(cfg, feed, pipe, h, nextFire(s.trigger));
        MovedOne(before.fires, pipe, due, fired, h, nextFire);
        turns := turns + [Note(h, nextFire(s.trigger))];
        pipe := Recorded(pipe, h, nextFire(s.trigger));
        fired := fired + 1;
      }
    }
  }

  /** One more turn from a sane pipe. */
  lemma Extend(cfg: Config, f: Feed, p: Pipe, turns: seq<Turn>, t: Turn)
    requires Sane(f, Go(cfg, f, p, turns))
    ensures var q := Advance(cfg, f, Go(cfg, f, p, turns), t); Go(cfg, f, p, turns + [t]) == q && Sane(f, q)
  {
    hide Advance, Sane;
    assert (turns + [t])[..|turns|] == turns;
    AdvanceSane(cfg, f, Go(cfg, f, p, turns), t);
  }

  lemma RefusedStays(cfg: Config, f: Feed, p: Pipe, s: Source, id: string, at: int)
    ensures Refused(cfg, f, p, s, id, at) ==> Refused(cfg, f, Submitted(cfg, f, p, s, id, at), s, id, at)
  {
    hide SubmitTx;
  }

  lemma HeldAgrees(f: Feed, p: Pipe, h: Holding)
    requires Sane(f, p) && h in p.held
    ensures h.source in p.recorded ==> p.recorded[h.source] == h.job
  {
    hide Healthy, Answered;
    if h.source in p.recorded {
      assert Known(f, p.store.db, h.source, h.job) && Known(f, p.store.db, h.source, p.recorded[h.source]);
    }
  }

  lemma NoneMoved(fires: map<string, int>, due: seq<Source>, nextFire: string -> int)
    ensures MovedOn(fires, fires, due[..0], nextFire)
  {
  }

  lemma NoTurns(cfg: Config, f: Feed, p: Pipe)
    ensures Go(cfg, f, p, []) == p
  {
  }

  lemma AcknowledgeIs(cfg: Config, f: Feed, p: Pipe, s: Source)
    requires s in p.noted && s.Message?
    ensures Advance(cfg, f, p, Acknowledge(s)) == p.(acked := p.acked + {s}, noted := p.noted - {s})
  {
  }

  lemma HandIs(cfg: Config, f: Feed, p: Pipe, s: Source, id: string, at: int)
    ensures Advance(cfg, f, p, Hand(s, id, at)) == Submitted(cfg, f, p, s, id, at)
    ensures var q := Submitted(cfg, f, p, s, id, at); q.recorded == p.recorded && q.acked == p.acked && q.fires == p.fires
  {
    hide SubmitTx;
  }

  lemma NoteIs(cfg: Config, f: Feed, p: Pipe, h: Holding, nextFire: int)
    requires h in p.held
    ensures Advance(cfg, f, p, Note(h, nextFire)) == Recorded(p, h, nextFire)
    ensures h.source.Occurrence? ==> h.source in Recorded(p, h, nextFire).recorded
    ensures forall s :: s in p.recorded ==> s in Recorded(p, h, nextFire).recorded
  {
  }

  lemma {:induction false} GoConcat(cfg: Config, f: Feed, p: Pipe, a: seq<Turn>, b: seq<Turn>)
    ensures Go(cfg, f, p, a + b) == Go(cfg, f, Go(cfg, f, p, a), b)
    decreases |b|
  {
    hide Advance;
    if b == [] {
      assert a + b == a;
    } else {
      var init := b[..|b| - 1];
      GoConcat(cfg, f, p, a, init);
      assert (a + b)[..|a + b| - 1] == a + init;
    }
  }
}
