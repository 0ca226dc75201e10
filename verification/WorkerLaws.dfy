/** What the worker loop keeps in every run: no attempt is stranded or executed twice, slots add up,
    and every kind of call is outstanding at most once. */
module WorkerLaws {
  import opened Worker

  // ------------------------------------------------------------------------------- slots

  ghost function Total(active: map<Key, Attempt>): int
    decreases |active|
  {
    if active == map[] then 0 else
      var k :| k in active;
      assert (active - {k}).Keys == active.Keys - {k};
      active[k].lease.cost + Total(active - {k})
  }

  lemma {:induction false} TotalSplit(active: map<Key, Attempt>, k: Key)
    requires k in active
    ensures Total(active) == active[k].lease.cost + Total(active - {k})
    decreases |active|
  {
    var x :| x in active && Total(active) == active[x].lease.cost + Total(active - {x});
    if x != k {
      assert (active - {x}).Keys == active.Keys - {x} && (active - {k}).Keys == active.Keys - {k};
      TotalSplit(active - {x}, k);
      TotalSplit(active - {k}, x);
      assert active - {x} - {k} == active - {k} - {x};
    }
  }

  lemma TotalPut(active: map<Key, Attempt>, k: Key, a: Attempt)
    ensures Total(active[k := a]) == Total(active - {k}) + a.lease.cost
    ensures k in active && active[k].lease == a.lease ==> Total(active[k := a]) == Total(active)
    ensures k !in active ==> active - {k} == active
  {
    TotalSplit(active[k := a], k);
    assert active[k := a] - {k} == active - {k};
    if k in active { TotalSplit(active, k); } else { assert active - {k} == active; }
  }

  lemma {:induction false} TotalSame(a: map<Key, Attempt>, b: map<Key, Attempt>)
    requires a.Keys == b.Keys && forall k :: k in a ==> a[k].lease == b[k].lease
    ensures Total(a) == Total(b)
    decreases |a|
  {
    if a != map[] {
      var k :| k in a;
      TotalSplit(a, k);
      TotalSplit(b, k);
      assert (a - {k}).Keys == a.Keys - {k} && (b - {k}).Keys == b.Keys - {k};
      TotalSame(a - {k}, b - {k});
    } else {
      assert b.Keys == {};
      assert b == map[];
    }
  }

  // --------------------------------------------------------------------------- the invariant

  /** Slots add up, and a job has at most one active attempt. */
  ghost predicate Books(c: Config, w: Loop) {
    && w.used == Total(w.active) && w.used <= c.slots
    && (forall k :: k in w.active ==> w.active[k].lease.key == k && w.active[k].lease.cost >= 1)
    && (forall k, l :: k in w.active && l in w.active && k.job == l.job ==> k == l)
  }

  ghost predicate InCall(w: Loop, k: Key) {
    exists id :: id in w.completing && k in w.completing[id].keys
  }

  predicate Distinct(s: seq<Key>) {
    forall i, j :: 0 <= i < j < |s| ==> s[i] != s[j]
  }

  /** No attempt is part of two outstanding completion calls. */
  ghost predicate CallsApart(w: Loop) {
    && (forall id :: id in w.completing ==> id < w.nextCall && Distinct(w.completing[id].keys))
    && (forall i, j, k :: i in w.completing && j in w.completing && k in w.completing[i].keys && k in w.completing[j].keys ==>
          i == j)
  }

  /** Calls and queue entries only name attempts the worker once took. */
  ghost predicate Remembered(w: Loop) {
    && w.active.Keys <= w.seen && w.starts.Keys <= w.seen && w.running <= w.seen
    && (forall k :: k in w.ran ==> k in w.seen && w.ran[k] == 1)
    && (forall k :: k in w.pending ==> k in w.seen)
    && (forall id, k :: id in w.completing && k in w.completing[id].keys ==> k in w.seen)
  }

  /** The flush timer is armed exactly while completions wait, and the queue never reaches its size. */
  ghost predicate QueueFits(c: Config, w: Loop) {
    && (w.timer <==> w.pending != [])
    && (w.pending != [] ==> c.batching && c.batchWait > 0 && |w.pending| < c.batchSize)
  }

  predicate ExactlyOne(a: bool, b: bool, c: bool) {
    (a && !b && !c) || (!a && b && !c) || (!a && !b && c)
  }

  predicate Idle(a: Attempt) {
    !a.startInFlight && !a.startRetry && !a.executePending && !a.completeRetry
  }

  /** Everything the loop knows about one active attempt. */
  datatype Site = Site(attempt: Attempt, startCalled: bool, running: bool, ran: bool, completeCalled: bool,
      queued: bool, needed: bool)

  ghost function SiteOf(w: Loop, k: Key): Site
    requires k in w.active
  {
    Site(w.active[k], k in w.starts, k in w.running, k in w.ran, InCall(w, k), k in w.pending, w.needed)
  }

  /** Where an attempt stands and what moves it on.  `todo` marks an attempt that the current handler
      still has to place, `late` one it has yet to visit after a registration. */
  predicate Fits(maxTries: int, s: Site, todo: bool, late: bool) {
    var a := s.attempt;
    && (a.startInFlight <==> s.startCalled)
    && (s.running <==> a.phase.Executing?)
    && (s.ran <==> !a.phase.Starting?)
    && (s.completeCalled <==> a.phase.Completing? && !todo)
    && (a.startRetry || a.executePending || a.completeRetry ==> s.needed || late)
    && (s.queued ==> a.phase.ReadyToComplete? && !todo)
    && match a.phase
       case Starting => a.tries == 0 && !a.completeRetry && (if todo then Idle(a)
           else ExactlyOne(a.startInFlight, a.startRetry, a.executePending))
       case Executing => a.tries == 0 && Idle(a) && !todo
       case ReadyToComplete =>
         && a.tries < maxTries && !a.startInFlight && !a.startRetry && !a.executePending
         && (if todo then !a.completeRetry else (a.completeRetry <==> !s.queued))
       case Completing => 1 <= a.tries <= maxTries && Idle(a)
  }

  ghost predicate AllPlaced(c: Config, w: Loop, todo: set<Key>, late: set<Key>) {
    forall k :: k in w.active ==> Fits(c.maxTries, SiteOf(w, k), k in todo, k in late)
  }

  /** Of each kind at most one call is outstanding, exactly while its flag is set. */
  ghost predicate Single(l: Links) {
    && |l.acquires| == (if l.acquiring then 1 else 0)
    && |l.beats| == (if l.beating then 1 else 0)
    && l.registrations == (if l.registering then 1 else 0)
  }

  /** The flags tell the outstanding calls; a deferred acquisition waits for the registration, and no other
      acquisition can overwrite it. */
  ghost predicate LinksFit(w: Loop) {
    Single(w.links) && (w.deferred.Some? ==> w.needed && !w.links.acquiring)
  }

  ghost predicate Base(c: Config, w: Loop) {
    && c.Valid() && Books(c, w) && CallsApart(w) && Remembered(w) && Distinct(w.pending)
  }

  ghost predicate Inv(c: Config, w: Loop, todo: set<Key>, late: set<Key>) {
    Base(c, w) && QueueFits(c, w) && AllPlaced(c, w, todo, late)
  }

  /** The invariant between events. */
  ghost predicate Steady(c: Config, w: Loop) {
    Inv(c, w, {}, {}) && LinksFit(w)
  }

  // --------------------------------------------------------------- what the pieces preserve

  lemma DropInv(c: Config, w: Loop, k: Key, todo: set<Key>, late: set<Key>)
    requires Inv(c, w, todo, late)
    ensures Inv(c, Drop(w, k), todo, late) && Inv(c, Drop(w, k), todo - {k}, late)
  {
    if k in w.active {
      TotalSplit(w.active, k);
      DropPlaced(c, w, k, todo, late);
    } else {
      OthersPlaced(c, w, k, todo, late);
    }
  }

  lemma DropPlaced(c: Config, w: Loop, k: Key, todo: set<Key>, late: set<Key>)
    requires AllPlaced(c, w, todo, late) && k in w.active
    ensures AllPlaced(c, Drop(w, k), todo, late) && AllPlaced(c, Drop(w, k), todo - {k}, late)
  {
    hide Fits;
    var z := Drop(w, k);
    forall j | j in z.active ensures SiteOf(z, j) == SiteOf(w, j) { SameCalls(w, z, j); }
  }

  lemma SameCalls(w: Loop, z: Loop, k: Key)
    requires z.completing == w.completing
    ensures InCall(z, k) <==> InCall(w, k)
  {
  }

  lemma OthersPlaced(c: Config, w: Loop, k: Key, todo: set<Key>, late: set<Key>)
    requires AllPlaced(c, w, todo, late) && k !in w.active
    ensures AllPlaced(c, w, todo - {k}, late)
  {
    hide Fits, SiteOf;
  }

  lemma FitsNeeded(maxTries: int, s: Site, todo: bool, late: bool)
    requires Fits(maxTries, s, todo, late)
    ensures Fits(maxTries, s.(needed := true), todo, late)
  {
  }

  /** One attempt moves; the others stay where they were. */
  lemma OneMoved(c: Config, w: Loop, z: Loop, k: Key, todo: set<Key>, after: set<Key>, late: set<Key>)
    requires AllPlaced(c, w, todo, late) && z.active.Keys == w.active.Keys && k in w.active && (w.needed ==> z.needed)
    requires forall j :: j in w.active && j != k ==>
        SiteOf(z, j) == SiteOf(w, j).(needed := z.needed) && (j in after <==> j in todo)
    requires Fits(c.maxTries, SiteOf(z, k), k in after, k in late)
    ensures AllPlaced(c, z, after, late)
  {
    hide Fits, SiteOf;
    forall j | j in z.active ensures Fits(c.maxTries, SiteOf(z, j), j in after, j in late) {
      if j != k {
        assert Fits(c.maxTries, SiteOf(w, j), j in todo, j in late);
        if z.needed { FitsNeeded(c.maxTries, SiteOf(w, j), j in todo, j in late); } else { SiteNeeded(w, j); }
      }
    }
  }

  lemma SiteNeeded(w: Loop, k: Key)
    requires k in w.active
    ensures SiteOf(w, k).needed == w.needed
  {
  }

  lemma FitsStart(maxTries: int, s: Site, late: bool)
    requires Fits(maxTries, s, true, late) && s.attempt.phase.Starting?
    ensures !s.startCalled && Fits(maxTries, s.(attempt := s.attempt.(startInFlight := true), startCalled := true), false, late)
  {
  }

  lemma FitsExecute(maxTries: int, s: Site, late: bool)
    requires Fits(maxTries, s, true, late) && s.attempt.phase.Starting?
    ensures !s.running && !s.ran
    ensures Fits(maxTries, s.(attempt := s.attempt.(phase := Executing), running := true, ran := true), false, late)
  {
  }

  lemma FitsFlag(maxTries: int, s: Site, a: Attempt, late: bool)
    requires Fits(maxTries, s, true, late)
    requires (s.attempt.phase.Starting? && (a == s.attempt.(startRetry := true) || a == s.attempt.(executePending := true)))
          || (s.attempt.phase.ReadyToComplete? && a == s.attempt.(completeRetry := true))
    ensures Fits(maxTries, s.(attempt := a, needed := true), false, late)
  {
  }

  lemma FitsSend(maxTries: int, s: Site, late: bool)
    requires Fits(maxTries, s, true, late) && s.attempt.phase.ReadyToComplete?
    ensures !s.completeCalled && Fits(maxTries, s.(attempt := Sent(s.attempt), completeCalled := true), false, late)
  {
  }

  lemma FitsQueue(maxTries: int, s: Site, late: bool)
    requires Fits(maxTries, s, true, late) && s.attempt.phase.ReadyToComplete?
    ensures !s.queued && Fits(maxTries, s.(queued := true), false, late)
  {
  }

  /** What a step changes: one attempt's row, and which calls are out. */
  ghost predicate Steps(w: Loop, z: Loop, k: Key)
    requires k in w.active
  {
    && k in z.active && z.active == w.active[k := z.active[k]] && z.active[k].lease == w.active[k].lease && z.used == w.used
    && z.seen == w.seen && z.pending == w.pending && z.timer == w.timer
  }

  lemma StepBooks(c: Config, w: Loop, z: Loop, k: Key)
    requires Books(c, w) && k in w.active && Steps(w, z, k)
    ensures Books(c, z)
  {
    TotalPut(w.active, k, z.active[k]);
  }

  lemma StartOneSteps(w: Loop, k: Key)
    requires k in w.active
    ensures var z := StartOne(w, k);
      && Steps(w, z, k) && z.completing == w.completing && z.nextCall == w.nextCall && z.running == w.running && z.ran == w.ran
      && z.starts == w.starts[k := w.epoch] && z.needed == w.needed && z.active[k] == w.active[k].(startInFlight := true)
  {
  }

  lemma StartOneInv(c: Config, w: Loop, k: Key, todo: set<Key>, late: set<Key>)
    requires Inv(c, w, todo, late) && k in w.active && k in todo && w.active[k].phase.Starting?
    ensures Inv(c, StartOne(w, k), todo - {k}, late)
    ensures k !in w.starts
  {
    hide Books, Fits, CallsApart, StartOne, InCall, AllPlaced;
    var z := StartOne(w, k);
    StartOneSteps(w, k);
    StepBooks(c, w, z, k);
    SameApart(w, z);
    StartOnePlaced(c, w, k, todo, late);
  }

  lemma StartOnePlaced(c: Config, w: Loop, k: Key, todo: set<Key>, late: set<Key>)
    requires AllPlaced(c, w, todo, late) && k in w.active && k in todo && w.active[k].phase.Starting?
    ensures AllPlaced(c, StartOne(w, k), todo - {k}, late) && k !in w.starts
  {
    hide Fits, StartOne, InCall;
    var z := StartOne(w, k);
    StartOneSteps(w, k);
    FitsStart(c.maxTries, SiteOf(w, k), k in late);
    SameInCalls(w, z);
    OneMoved(c, w, z, k, todo, todo - {k}, late);
  }

  lemma SameInCalls(w: Loop, z: Loop)
    requires z.completing == w.completing
    ensures forall j :: InCall(z, j) <==> InCall(w, j)
  {
  }

  lemma SameApart(w: Loop, z: Loop)
    requires CallsApart(w) && z.completing == w.completing && z.nextCall == w.nextCall
    ensures CallsApart(z)
  {
  }

  lemma SameBooks(c: Config, w: Loop, z: Loop)
    requires Books(c, w) && z.active == w.active && z.used == w.used
    ensures Books(c, z)
  {
  }

  lemma ExecuteSteps(w: Loop, k: Key)
    requires k in w.active
    ensures var z := Execute(w, k);
      && Steps(w, z, k) && z.completing == w.completing && z.nextCall == w.nextCall && z.starts == w.starts
      && z.needed == w.needed
      && z.running == w.running + {k} && z.ran == w.ran[k := Runs(w, k) + 1] && z.active[k] == w.active[k].(phase := Executing)
  {
  }

  /** Execution starts: this attempt was never executed before. */
  lemma ExecuteInv(c: Config, w: Loop, k: Key, todo: set<Key>, late: set<Key>)
    requires Inv(c, w, todo, late) && k in w.active && k in todo && w.active[k].phase.Starting?
    ensures Inv(c, Execute(w, k), todo - {k}, late)
    ensures k !in w.ran && k !in w.running
  {
    hide Books, Fits, CallsApart, Execute, InCall, AllPlaced;
    var z := Execute(w, k);
    ExecuteSteps(w, k);
    StepBooks(c, w, z, k);
    SameApart(w, z);
    ExecutePlaced(c, w, k, todo, late);
  }

  lemma ExecutePlaced(c: Config, w: Loop, k: Key, todo: set<Key>, late: set<Key>)
    requires AllPlaced(c, w, todo, late) && k in w.active && k in todo && w.active[k].phase.Starting?
    ensures AllPlaced(c, Execute(w, k), todo - {k}, late) && k !in w.ran && k !in w.running
  {
    hide Fits, Execute, InCall;
    var z := Execute(w, k);
    ExecuteSteps(w, k);
    FitsExecute(c.maxTries, SiteOf(w, k), k in late);
    SameInCalls(w, z);
    OneMoved(c, w, z, k, todo, todo - {k}, late);
  }

  /** A flag that waits for the registration. */
  lemma FlagInv(c: Config, w: Loop, k: Key, a: Attempt, todo: set<Key>, late: set<Key>)
    requires Inv(c, w, todo, late) && k in w.active && k in todo && w.needed
    requires (w.active[k].phase.Starting? && (a == w.active[k].(startRetry := true) || a == w.active[k].(executePending := true)))
          || (w.active[k].phase.ReadyToComplete? && a == w.active[k].(completeRetry := true))
    ensures Inv(c, Put(w, k, a), todo - {k}, late)
  {
    hide Books, Fits, CallsApart, InCall, AllPlaced;
    var z := Put(w, k, a);
    StepBooks(c, w, z, k);
    SameApart(w, z);
    FlagPlaced(c, w, k, a, todo, late);
  }

  lemma FlagPlaced(c: Config, w: Loop, k: Key, a: Attempt, todo: set<Key>, late: set<Key>)
    requires AllPlaced(c, w, todo, late) && k in w.active && k in todo && w.needed
    requires (w.active[k].phase.Starting? && (a == w.active[k].(startRetry := true) || a == w.active[k].(executePending := true)))
          || (w.active[k].phase.ReadyToComplete? && a == w.active[k].(completeRetry := true))
    ensures AllPlaced(c, Put(w, k, a), todo - {k}, late)
  {
    hide Fits, InCall;
    var z := Put(w, k, a);
    FitsFlag(c.maxTries, SiteOf(w, k), a, k in late);
    SameInCalls(w, z);
    OneMoved(c, w, z, k, todo, todo - {k}, late);
  }

  /** Fields no invariant but the deferred one reads. */
  lemma Unread(c: Config, w: Loop, z: Loop, todo: set<Key>, late: set<Key>)
    requires Inv(c, w, todo, late)
    requires z == w.(links := z.links, paused := z.paused, needed := z.needed, epoch := z.epoch, deferred := z.deferred)
    requires w.needed ==> z.needed
    ensures Inv(c, z, todo, late)
  {
    hide Books, Fits, CallsApart;
    SameBooks(c, w, z);
    SameApart(w, z);
    SameInCalls(w, z);
    forall k | k in z.active ensures Fits(c.maxTries, SiteOf(z, k), k in todo, k in late) {
      assert SiteOf(z, k) == SiteOf(w, k).(needed := z.needed);
      if z.needed { FitsNeeded(c.maxTries, SiteOf(w, k), k in todo, k in late); }
    }
  }

  // ------------------------------------------------------------------------- completions

  ghost predicate Picks(active: map<Key, Attempt>, pending: seq<Key>, k: Key) {
    k in pending && k in active && active[k].phase.ReadyToComplete?
  }

  lemma {:induction false} FlushEffect(active: map<Key, Attempt>, pending: seq<Key>)
    requires Distinct(pending)
    ensures var f := FlushEach(active, pending);
      && f.active.Keys == active.Keys && Distinct(f.keys) && (forall k :: k in f.keys <==> Picks(active, pending, k))
      && (forall k :: k in active ==> f.active[k] == if k in f.keys then Sent(active[k]) else active[k])
    decreases |pending|
  {
    if pending != [] {
      var init, k := pending[..|pending| - 1], pending[|pending| - 1];
      FlushEffect(active, init);
      assert pending == init + [k];
      assert k !in init;
    }
  }

  lemma FlushBooks(c: Config, w: Loop)
    requires Books(c, w) && Distinct(w.pending)
    ensures Books(c, FlushCompletions(w))
  {
    hide FlushEach, Total, FlushCompletions;
    FlushShape(w);
    FlushEffect(w.active, w.pending);
    TotalSame(w.active, FlushEach(w.active, w.pending).active);
  }

  lemma FlushCalls(w: Loop)
    requires CallsApart(w) && Distinct(w.pending)
    requires forall k :: Picks(w.active, w.pending, k) ==> !InCall(w, k)
    ensures CallsApart(FlushCompletions(w))
    ensures forall k :: InCall(FlushCompletions(w), k) <==> InCall(w, k) || Picks(w.active, w.pending, k)
  {
    hide FlushEach, FlushCompletions;
    FlushShape(w);
    FlushEffect(w.active, w.pending);
    var f, z := FlushEach(w.active, w.pending), FlushCompletions(w);
    NewCall(w, z, f.keys);
  }

  /** Adding one call of fresh keys. */
  lemma NewCall(w: Loop, z: Loop, keys: seq<Key>)
    requires CallsApart(w) && Distinct(keys) && forall k :: k in keys ==> !InCall(w, k)
    requires if keys == [] then z.completing == w.completing && z.nextCall == w.nextCall
             else z.completing == w.completing[w.nextCall := Batch(keys, w.epoch)] && z.nextCall == w.nextCall + 1
    ensures CallsApart(z) && forall k :: InCall(z, k) <==> InCall(w, k) || k in keys
  {
    forall k ensures InCall(z, k) <==> InCall(w, k) || k in keys {
      if k in keys { assert w.nextCall in z.completing && k in z.completing[w.nextCall].keys; }
      if InCall(w, k) {
        var id :| id in w.completing && k in w.completing[id].keys;
        assert id in z.completing && k in z.completing[id].keys;
      }
    }
  }

  lemma FlushPlaced(c: Config, w: Loop, todo: set<Key>, late: set<Key>)
    requires Base(c, w) && AllPlaced(c, w, todo, late)
    ensures AllPlaced(c, FlushCompletions(w), todo, late)
  {
    hide Books, FlushEach, FlushCompletions, Fits;
    NotCalled(c, w, todo, late);
    FlushCalls(w);
    FlushShape(w);
    FlushEffect(w.active, w.pending);
    var z := FlushCompletions(w);
    forall k | k in z.active ensures Fits(c.maxTries, SiteOf(z, k), k in todo, k in late) {
      assert Fits(c.maxTries, SiteOf(w, k), k in todo, k in late);
      FitsFlush(c.maxTries, SiteOf(w, k), k in todo, k in late);
    }
  }

  /** A flush sends what is queued. */
  lemma FitsFlush(maxTries: int, s: Site, todo: bool, late: bool)
    requires Fits(maxTries, s, todo, late)
    ensures s.queued ==> s.attempt.phase.ReadyToComplete? && !s.completeCalled
    ensures s.queued ==> Fits(maxTries, s.(attempt := Sent(s.attempt), completeCalled := true, queued := false), todo, late)
    ensures !s.queued ==> Fits(maxTries, s.(queued := false), todo, late)
  {
  }

  lemma NotCalled(c: Config, w: Loop, todo: set<Key>, late: set<Key>)
    requires AllPlaced(c, w, todo, late)
    ensures forall k :: Picks(w.active, w.pending, k) ==> !InCall(w, k)
  {
    forall k | Picks(w.active, w.pending, k) ensures !InCall(w, k) { FitsFlush(c.maxTries, SiteOf(w, k), k in todo, k in late); }
  }

  lemma FlushInv(c: Config, w: Loop, todo: set<Key>, late: set<Key>)
    requires Base(c, w) && AllPlaced(c, w, todo, late)
    ensures Inv(c, FlushCompletions(w), todo, late)
  {
    hide Books, AllPlaced, FlushEach, CallsApart, FlushCompletions, Remembered;
    FlushShape(w);
    FlushBooks(c, w);
    NotCalled(c, w, todo, late);
    FlushCalls(w);
    FlushPlaced(c, w, todo, late);
    FlushEffect(w.active, w.pending);
    FlushRemembered(w);
  }

  lemma FlushRemembered(w: Loop)
    requires Remembered(w) && Distinct(w.pending)
    ensures Remembered(FlushCompletions(w))
  {
    hide FlushEach, FlushCompletions;
    FlushShape(w);
    FlushEffect(w.active, w.pending);
  }

  /** A finished attempt is queued or sent. */
  lemma QueueInv(c: Config, w: Loop, k: Key, todo: set<Key>, late: set<Key>)
    requires Inv(c, w, todo, late) && k in w.active && k in todo && w.active[k].phase.ReadyToComplete?
    ensures Inv(c, QueueCompletion(c, w, k), todo - {k}, late)
  {
    hide Books, FlushCompletions, Fits, CallsApart, Remembered, AllPlaced;
    if !c.batching {
      AloneInv(c, w, k, todo, late);
    } else {
      var queued := w.(pending := w.pending + [k]);
      QueuedBase(c, w, k, todo, late);
      FlushInv(c, queued, todo - {k}, late);
      ArmedInv(c, queued, todo - {k}, late);
    }
  }

  lemma QueuedBase(c: Config, w: Loop, k: Key, todo: set<Key>, late: set<Key>)
    requires Inv(c, w, todo, late) && k in w.active && k in todo && w.active[k].phase.ReadyToComplete?
    ensures Base(c, w.(pending := w.pending + [k])) && AllPlaced(c, w.(pending := w.pending + [k]), todo - {k}, late)
  {
    hide Books, Fits, CallsApart;
    var z := w.(pending := w.pending + [k]);
    FitsQueue(c.maxTries, SiteOf(w, k), k in late);
    SameBooks(c, w, z);
    SameApart(w, z);
    SameInCalls(w, z);
    OneMoved(c, w, z, k, todo, todo - {k}, late);
  }

  lemma ArmedInv(c: Config, w: Loop, todo: set<Key>, late: set<Key>)
    requires Base(c, w) && AllPlaced(c, w, todo, late)
    ensures Base(c, w.(timer := true)) && AllPlaced(c, w.(timer := true), todo, late)
  {
    hide Books, Fits, CallsApart;
    var z := w.(timer := true);
    SameBooks(c, w, z);
    SameApart(w, z);
    SameInCalls(w, z);
    forall k | k in z.active ensures SiteOf(z, k) == SiteOf(w, k) { }
  }

  lemma AloneSteps(w: Loop, k: Key)
    requires k in w.active
    ensures var z := CompleteAlone(w, k);
      && Steps(w, z, k) && z.starts == w.starts && z.running == w.running && z.ran == w.ran && z.needed == w.needed
      && z.active[k] == Sent(w.active[k])
      && z.completing == w.completing[w.nextCall := Batch([k], w.epoch)] && z.nextCall == w.nextCall + 1
  {
  }

  lemma AloneInv(c: Config, w: Loop, k: Key, todo: set<Key>, late: set<Key>)
    requires Inv(c, w, todo, late) && k in w.active && k in todo && w.active[k].phase.ReadyToComplete?
    ensures Inv(c, CompleteAlone(w, k), todo - {k}, late)
  {
    hide Books, Fits, CallsApart, CompleteAlone, InCall;
    var z := CompleteAlone(w, k);
    AloneSteps(w, k);
    FitsSend(c.maxTries, SiteOf(w, k), k in late);
    StepBooks(c, w, z, k);
    assert forall j :: j in [k] <==> j == k;
    NewCall(w, z, [k]);
    OneMoved(c, w, z, k, todo, todo - {k}, late);
  }
}
