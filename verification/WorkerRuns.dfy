/** Every event handler keeps the worker's invariant, so it holds in every run. */
module WorkerRuns {
  import opened Wrappers
  import opened Worker
  import opened WorkerLaws

  // ------------------------------------------------------------------- one attempt changes

  /** A handler changes one attempt and no call but its own. */
  lemma MoveInv(c: Config, w: Loop, z: Loop, k: Key, todo: set<Key>, after: set<Key>, late: set<Key>)
    requires Inv(c, w, todo, late) && k in w.active && Steps(w, z, k) && z.needed == w.needed
    requires z.completing == w.completing && z.nextCall == w.nextCall && z.ran == w.ran
    requires z.starts.Keys <= w.starts.Keys && z.running <= w.running
    requires forall j :: j != k ==>
        (j in z.starts <==> j in w.starts) && (j in z.running <==> j in w.running) && (j in after <==> j in todo)
    requires Fits(c.maxTries, SiteOf(z, k), k in after, k in late)
    ensures Inv(c, z, after, late)
  {
    hide Books, Fits, CallsApart, InCall, SiteOf, AllPlaced;
    StepBooks(c, w, z, k);
    SameApart(w, z);
    forall j | j in w.active && j != k ensures SiteOf(z, j) == SiteOf(w, j).(needed := z.needed) { SameSite(w, z, k, j); }
    OneMoved(c, w, z, k, todo, after, late);
  }

  lemma SameSite(w: Loop, z: Loop, k: Key, j: Key)
    requires k in w.active && Steps(w, z, k) && z.needed == w.needed && j in w.active && j != k
    requires z.completing == w.completing && z.ran == w.ran
    requires (j in z.starts <==> j in w.starts) && (j in z.running <==> j in w.running)
    ensures SiteOf(z, j) == SiteOf(w, j).(needed := z.needed)
  {
    hide InCall;
    SameInCalls(w, z);
  }

  lemma FitsStarted(maxTries: int, s: Site, late: bool)
    requires Fits(maxTries, s, false, late) && s.startCalled
    ensures s.attempt.phase.Starting?
    ensures Fits(maxTries, s.(attempt := s.attempt.(startInFlight := false), startCalled := false), true, late)
  {
  }

  lemma FitsExecuted(maxTries: int, s: Site, late: bool)
    requires maxTries >= 1 && Fits(maxTries, s, false, late) && s.running
    ensures s.attempt.phase.Executing?
    ensures Fits(maxTries, s.(attempt := s.attempt.(phase := ReadyToComplete), running := false), true, late)
  {
  }

  lemma FitsAgain(maxTries: int, s: Site, late: bool)
    requires Fits(maxTries, s, true, late) && s.attempt.phase.Completing?
    ensures Fits(maxTries, s.(attempt := Again(s.attempt)), true, late)
    ensures s.attempt.tries < maxTries ==> Fits(maxTries, s.(attempt := s.attempt.(phase := ReadyToComplete)), true, late)
  {
  }

  /** What a registration finds waiting: at most one kind of retry. */
  lemma FitsWaiting(maxTries: int, s: Site, late: bool)
    requires Fits(maxTries, s, false, late)
    ensures var a := s.attempt;
      && (a.startRetry ==> a.phase.Starting? && !a.startInFlight && !a.executePending && !a.completeRetry)
      && (a.executePending ==> a.phase.Starting? && !a.startRetry && !a.completeRetry)
      && (a.completeRetry ==> a.phase.ReadyToComplete? && !a.startRetry && !a.executePending)
    ensures s.attempt.startRetry ==> Fits(maxTries, s.(attempt := s.attempt.(startRetry := false)), true, late)
    ensures s.attempt.executePending ==> Fits(maxTries, s.(attempt := s.attempt.(executePending := false)), true, late)
    ensures s.attempt.completeRetry ==>
        Fits(maxTries, s.(attempt := s.attempt.(completeRetry := false, phase := ReadyToComplete)), true, late)
  {
  }

  // -------------------------------------------------------------------------- new leases

  /** The server never offers again an attempt that the worker has let go. */
  ghost predicate Offered(w: Loop, leases: seq<Lease>) {
    forall l :: l in leases && l.key in w.seen ==> l.key in w.active
  }

  lemma TakeBooks(c: Config, w: Loop, l: Lease)
    requires Books(c, w) && Takes(c, w, l)
    ensures Books(c, Take(w, l))
  {
    TotalPut(w.active, l.key, Take(w, l).active[l.key]);
    var z := Take(w, l);
    forall j, k | j in z.active && k in z.active && j.job == k.job ensures j == k {
      assert j in w.active ==> JobActive(w, j.job);
      assert k in w.active ==> JobActive(w, k.job);
    }
  }

  lemma TakePlaced(c: Config, w: Loop, l: Lease, todo: set<Key>, late: set<Key>)
    requires AllPlaced(c, w, todo, late) && Remembered(w) && l.key !in w.seen
    ensures AllPlaced(c, Take(w, l), todo + {l.key}, late)
  {
    hide Fits, InCall;
    var z := Take(w, l);
    SameInCalls(w, z);
    NeverCalled(w, l.key);
    forall k | k in z.active ensures Fits(c.maxTries, SiteOf(z, k), k in todo + {l.key}, k in late) {
      if k == l.key { FitsFresh(c.maxTries, l, w.needed, k in late); } else { assert SiteOf(z, k) == SiteOf(w, k); }
    }
  }

  lemma FitsFresh(maxTries: int, l: Lease, needed: bool, late: bool)
    ensures Fits(maxTries,
        Site(Attempt(l, Starting, 0, false, false, false, false), false, false, false, false, false, needed), true, late)
  {
  }

  lemma NeverCalled(w: Loop, k: Key)
    requires Remembered(w) && k !in w.seen
    ensures k !in w.starts && k !in w.running && k !in w.ran && k !in w.pending && !InCall(w, k)
  {
  }

  lemma TakeInv(c: Config, w: Loop, l: Lease, todo: set<Key>, late: set<Key>)
    requires Inv(c, w, todo, late) && Takes(c, w, l) && l.key !in w.seen
    ensures Inv(c, Take(w, l), todo + {l.key}, late)
  {
    hide Books, AllPlaced, CallsApart;
    TakeBooks(c, w, l);
    TakePlaced(c, w, l, todo, late);
    SameApart(w, Take(w, l));
  }

  /** What taking leases leaves alone. */
  ghost predicate SameLinks(w: Loop, z: Loop) {
    z.needed == w.needed && z.deferred == w.deferred && z.links == w.links && z.epoch == w.epoch
  }

  ghost predicate AllStarting(w: Loop, keys: seq<Key>) {
    Distinct(keys) && forall k :: k in keys ==> k in w.active && w.active[k].phase.Starting?
  }

  /** The leases taken so far wait to be started. */
  ghost predicate Taking(c: Config, w: Loop, t: Taken) {
    && Inv(c, t.loop, (set k | k in t.keys), {}) && AllStarting(t.loop, t.keys) && SameLinks(w, t.loop)
    && (forall k :: k in t.loop.seen ==> k in w.seen || k in t.loop.active) && w.active.Keys <= t.loop.active.Keys
  }

  lemma TakeStep(c: Config, w: Loop, t: Taken, l: Lease)
    requires Taking(c, w, t) && Takes(c, t.loop, l) && (l.key in w.seen ==> l.key in w.active)
    ensures Taking(c, w, Taken(Take(t.loop, l), t.keys + [l.key]))
  {
    hide Inv, Takes;
    NotTaken(c, t.loop, l);
    TakeInv(c, t.loop, l, (set k | k in t.keys), {});
    assert (set k | k in t.keys + [l.key]) == (set k | k in t.keys) + {l.key};
  }

  lemma {:induction false} TakeEachInv(c: Config, w: Loop, leases: seq<Lease>)
    requires Inv(c, w, {}, {}) && Offered(w, leases)
    ensures Taking(c, w, TakeEach(c, w, leases))
    decreases |leases|
  {
    hide Inv, Takes, Taking, Take;
    if leases == [] {
      NothingTaken(c, w);
    } else {
      var n := |leases| - 1;
      var init, l := leases[..n], leases[n];
      assert leases == init + [l] && l in leases;
      assert forall x :: x in init ==> x in leases;
      TakeEachInv(c, w, init);
      if Takes(c, TakeEach(c, w, init).loop, l) { TakeStep(c, w, TakeEach(c, w, init), l); }
    }
  }

  lemma NothingTaken(c: Config, w: Loop)
    requires Inv(c, w, {}, {})
    ensures Taking(c, w, Taken(w, []))
  {
    hide Inv;
    assert (set k: Key | k in Taken(w, []).keys) == {};
  }

  lemma NotTaken(c: Config, w: Loop, l: Lease)
    requires Takes(c, w, l)
    ensures l.key !in w.active
  {
  }

  lemma {:induction false} StartAttemptsInv(c: Config, w: Loop, keys: seq<Key>, todo: set<Key>)
    requires Inv(c, w, todo, {}) && AllStarting(w, keys) && forall k :: k in keys ==> k in todo
    ensures Inv(c, StartAttempts(w, keys), todo - (set k | k in keys), {})
    ensures StartsOnly(w, StartAttempts(w, keys), keys)
    decreases |keys|
  {
    hide Inv, StartOne, StartsOnly;
    if keys == [] {
      assert todo - (set k | k in keys) == todo;
      NothingStarted(w);
    } else {
      var n := |keys| - 1;
      var init, k := keys[..n], keys[n];
      assert keys == init + [k] && k !in init && k in keys;
      StartAttemptsInv(c, w, init, todo);
      var z := StartAttempts(w, init);
      StillStarting(w, z, init, k);
      StartOneInv(c, z, k, todo - (set j | j in init), {});
      StartedOne(w, z, init, k);
      assert todo - (set j | j in keys) == todo - (set j | j in init) - {k};
    }
  }

  /** Starting touches nothing but the attempts it starts. */
  ghost predicate StartsOnly(w: Loop, z: Loop, keys: seq<Key>) {
    && SameLinks(w, z) && z.seen == w.seen && z.active.Keys == w.active.Keys
    && forall k :: k in w.active && k !in keys ==> z.active[k] == w.active[k]
  }

  lemma NothingStarted(w: Loop)
    ensures StartsOnly(w, w, [])
  {
  }

  lemma StillStarting(w: Loop, z: Loop, keys: seq<Key>, k: Key)
    requires StartsOnly(w, z, keys) && k in w.active && k !in keys
    ensures k in z.active && z.active[k] == w.active[k]
  {
  }

  lemma StartedOne(w: Loop, z: Loop, keys: seq<Key>, k: Key)
    requires StartsOnly(w, z, keys) && k in z.active
    ensures StartsOnly(w, StartOne(z, k), keys + [k])
  {
    hide StartOne;
    StartOneFrame(z, k);
  }

  lemma StartOneFrame(w: Loop, k: Key)
    requires k in w.active
    ensures var z := StartOne(w, k);
      SameLinks(w, z) && z.seen == w.seen && z.active.Keys == w.active.Keys && forall j :: j in w.active && j != k ==>
          z.active[j] == w.active[j]
  {
  }

  // ------------------------------------------------------------------- acquire and heartbeat

  lemma AcquireInv(c: Config, w: Loop, todo: set<Key>, late: set<Key>)
    requires Inv(c, w, todo, late)
    ensures Inv(c, StartAcquire(c, w), todo, late) && (LinksFit(w) ==> LinksFit(StartAcquire(c, w)))
  {
    hide Inv;
    Unread(c, w, StartAcquire(c, w), todo, late);
  }

  lemma RegistrationInv(c: Config, w: Loop, todo: set<Key>, late: set<Key>)
    requires Inv(c, w, todo, late)
    ensures Inv(c, StartRegistration(w), todo, late) && (LinksFit(w) ==> LinksFit(StartRegistration(w)))
  {
    hide Inv;
    Unread(c, w, StartRegistration(w), todo, late);
  }

  lemma HeartbeatInv(c: Config, w: Loop, todo: set<Key>, late: set<Key>)
    requires Inv(c, w, todo, late)
    ensures Inv(c, StartHeartbeat(w), todo, late) && (LinksFit(w) ==> LinksFit(StartHeartbeat(w)))
  {
    hide Inv, References;
    Unread(c, w, StartHeartbeat(w), todo, late);
  }

  lemma TakeLeasesInv(c: Config, w: Loop, leases: seq<Lease>)
    requires Inv(c, w, {}, {}) && Offered(w, leases) && LinksFit(w)
    ensures Steady(c, TakeLeases(c, w, leases))
  {
    hide Inv, TakeEach, StartAttempts, StartAcquire;
    TakeEachInv(c, w, leases);
    var t := TakeEach(c, w, leases);
    var todo := set k | k in t.keys;
    StartAttemptsInv(c, t.loop, t.keys, todo);
    assert todo - (set k | k in t.keys) == {};
    AcquireInv(c, StartAttempts(t.loop, t.keys), {}, {});
  }

  lemma AcquiredSteady(c: Config, w: Loop, i: nat, reply: AcquireReply)
    requires Steady(c, w) && i < |w.links.acquires| && (reply.Granted? && !w.needed ==> Offered(w, reply.leases))
    ensures Steady(c, OnAcquired(c, w, i, reply))
    ensures w.deferred.None?
  {
    hide Inv, TakeLeases, StartAcquire, StartRegistration;
    var u := AcquireReturned(w, i);
    Unread(c, w, u, {}, {});
    RegistrationInv(c, u, {}, {});
    match reply {
      case Granted(leases) =>
        if u.needed { Unread(c, w, u.(deferred := Some(leases)), {}, {}); } else { TakeLeasesInv(c, u, leases); }
      case AcquireUnregistered =>
        Unread(c, w, u.(paused := false), {}, {});
        AcquireInv(c, u.(paused := false), {}, {});
      case AcquireFailed => Unread(c, w, u.(paused := true), {}, {});
    }
  }

  // ------------------------------------------------------------------------------- starts

  lemma ForgottenStart(c: Config, w: Loop, k: Key)
    requires Inv(c, w, {}, {}) && k !in w.active
    ensures Inv(c, w.(starts := w.starts - {k}), {}, {})
  {
    hide Books, Fits, CallsApart, InCall;
    var z := w.(starts := w.starts - {k});
    SameBooks(c, w, z);
    SameApart(w, z);
    SameInCalls(w, z);
    forall j | j in z.active ensures SiteOf(z, j) == SiteOf(w, j) { }
  }

  lemma StartReturned(c: Config, w: Loop, k: Key)
    requires Inv(c, w, {}, {}) && k in w.active && k in w.starts
    ensures var z := Put(w.(starts := w.starts - {k}), k, w.active[k].(startInFlight := false));
      Inv(c, z, {k}, {}) && z.active[k].phase.Starting? && Idle(z.active[k])
  {
    hide Books, Fits, CallsApart, InCall;
    var z := Put(w.(starts := w.starts - {k}), k, w.active[k].(startInFlight := false));
    FitsStarted(c.maxTries, SiteOf(w, k), false);
    SameInCalls(w, z);
    assert SiteOf(z, k) == SiteOf(w, k).(attempt := z.active[k], startCalled := false);
    MoveInv(c, w, z, k, {}, {k}, {});
    IdleTodo(c.maxTries, SiteOf(z, k), false);
  }

  lemma IdleTodo(maxTries: int, s: Site, late: bool)
    requires Fits(maxTries, s, true, late) && s.attempt.phase.Starting?
    ensures Idle(s.attempt)
  {
  }

  lemma StartedSteady(c: Config, w: Loop, k: Key, reply: Reply)
    requires Steady(c, w) && k in w.starts
    ensures Steady(c, OnStarted(c, w, k, reply))
  {
    hide Inv, Execute, StartOne, StartAcquire, Drop;
    var u := w.(starts := w.starts - {k});
    if k !in w.active {
      ForgottenStart(c, w, k);
    } else {
      StartReturned(c, w, k);
      var v := Put(u, k, w.active[k].(startInFlight := false));
      StartUnregistered(c, v, k, w.starts[k]);
      StartFine(c, v, k);
      StartLost(c, v, k);
    }
  }

  ghost predicate Answered(c: Config, v: Loop, k: Key) {
    Inv(c, v, {k}, {}) && LinksFit(v) && k in v.active && v.active[k].phase.Starting? && Idle(v.active[k])
  }

  lemma StartUnregistered(c: Config, v: Loop, k: Key, e: nat)
    requires Answered(c, v, k)
    ensures e < v.epoch && !v.needed ==> Steady(c, StartOne(v, k))
    ensures Steady(c, StartRegistration(Put(v, k, v.active[k].(startRetry := true))))
  {
    hide Inv, StartOne, Put, StartRegistration;
    if e < v.epoch && !v.needed {
      assert {k} - {k} == {};
      StartOneInv(c, v, k, {k}, {});
      StartOneFrame(v, k);
    }
    RetryNoted(c, v, k, v.active[k].(startRetry := true));
  }

  lemma RetryNoted(c: Config, v: Loop, k: Key, a: Attempt)
    requires Answered(c, v, k) && a == v.active[k].(startRetry := true)
    ensures Steady(c, StartRegistration(Put(v, k, a)))
  {
    hide Inv;
    assert {k} - {k} == {};
    RegistrationInv(c, v, {k}, {});
    FlagInv(c, StartRegistration(v), k, a, {k}, {});
  }

  lemma StartFine(c: Config, v: Loop, k: Key)
    requires Answered(c, v, k)
    ensures if v.needed then Steady(c, Put(v, k, v.active[k].(executePending := true))) else Steady(c, Execute(v, k))
  {
    hide Inv, Execute;
    assert {k} - {k} == {};
    if v.needed { FlagInv(c, v, k, v.active[k].(executePending := true), {k}, {}); } else {
      ExecuteInv(c, v, k, {k}, {});
      ExecuteFrame(v, k);
    }
  }

  lemma StartLost(c: Config, v: Loop, k: Key)
    requires Answered(c, v, k)
    ensures Steady(c, StartAcquire(c, Drop(v, k)))
  {
    hide Inv, Drop, StartAcquire;
    assert {k} - {k} == {};
    DropInv(c, v, k, {k}, {});
    DropFrame(v, k);
    AcquireInv(c, Drop(v, k), {}, {});
  }

  lemma ExecuteFrame(w: Loop, k: Key)
    requires k in w.active
    ensures SameLinks(w, Execute(w, k)) && Execute(w, k).active.Keys == w.active.Keys && Execute(w, k).seen == w.seen
  {
  }

  lemma DropFrame(w: Loop, k: Key)
    ensures SameLinks(w, Drop(w, k)) && Drop(w, k).active == w.active - {k} && Drop(w, k).seen == w.seen
  {
    if k !in w.active { assert w.active - {k} == w.active; }
  }

  // --------------------------------------------------------------------------- executions

  /** What queueing and flushing leave alone. */
  ghost predicate QueueSpares(w: Loop, z: Loop, k: Key) {
    && SameLinks(w, z) && z.active.Keys == w.active.Keys && z.seen == w.seen
    && forall j :: j in w.active && j != k && !w.active[j].phase.ReadyToComplete? ==> z.active[j] == w.active[j]
  }

  lemma FlushFrame(w: Loop, k: Key)
    requires Distinct(w.pending)
    ensures QueueSpares(w, FlushCompletions(w), k)
  {
    hide FlushEach, FlushCompletions;
    FlushShape(w);
    FlushEffect(w.active, w.pending);
  }

  lemma AloneFrame(w: Loop, k: Key)
    requires k in w.active
    ensures QueueSpares(w, CompleteAlone(w, k), k)
  {
  }

  lemma SparesQueued(w: Loop, queued: Loop, z: Loop, k: Key)
    requires queued == w.(pending := queued.pending, timer := queued.timer) && QueueSpares(queued, z, k)
    ensures QueueSpares(w, z, k)
  {
  }

  lemma SparesItself(w: Loop, k: Key)
    ensures QueueSpares(w, w, k)
  {
  }

  lemma QueueFrame(c: Config, w: Loop, k: Key)
    requires k in w.active && Distinct(w.pending + [k])
    ensures QueueSpares(w, QueueCompletion(c, w, k), k)
  {
    hide FlushCompletions, CompleteAlone, QueueSpares;
    if c.batching {
      var queued := w.(pending := w.pending + [k]);
      var armed := queued.(timer := true);
      FlushFrame(queued, k);
      SparesQueued(w, queued, FlushCompletions(queued), k);
      SparesItself(armed, k);
      SparesQueued(w, armed, armed, k);
    } else {
      AloneFrame(w, k);
    }
  }

  lemma QueueDistinct(c: Config, w: Loop, k: Key, todo: set<Key>, late: set<Key>)
    requires Inv(c, w, todo, late) && k in w.active && k in todo && w.active[k].phase.ReadyToComplete?
    ensures Distinct(w.pending + [k])
  {
    hide Books, Fits, CallsApart;
    FitsQueue(c.maxTries, SiteOf(w, k), k in late);
  }

  /** Queueing a finished attempt, with what it leaves alone. */
  lemma QueueStep(c: Config, w: Loop, k: Key, todo: set<Key>, late: set<Key>)
    requires Inv(c, w, todo, late) && k in w.active && k in todo && w.active[k].phase.ReadyToComplete?
    ensures Inv(c, QueueCompletion(c, w, k), todo - {k}, late) && QueueSpares(w, QueueCompletion(c, w, k), k)
  {
    hide Inv, QueueCompletion, QueueSpares;
    QueueInv(c, w, k, todo, late);
    QueueDistinct(c, w, k, todo, late);
    QueueFrame(c, w, k);
  }

  lemma ForgottenRun(c: Config, w: Loop, k: Key)
    requires Inv(c, w, {}, {}) && k !in w.active
    ensures Inv(c, w.(running := w.running - {k}), {}, {})
  {
    hide Books, Fits, CallsApart, InCall;
    var z := w.(running := w.running - {k});
    SameBooks(c, w, z);
    SameApart(w, z);
    SameInCalls(w, z);
    forall j | j in z.active ensures SiteOf(z, j) == SiteOf(w, j) { }
  }

  lemma RunReturned(c: Config, w: Loop, k: Key)
    requires Inv(c, w, {}, {}) && k in w.active && k in w.running
    ensures var z := Put(w.(running := w.running - {k}), k, w.active[k].(phase := ReadyToComplete));
      Inv(c, z, {k}, {}) && w.active[k].phase.Executing?
  {
    hide Books, Fits, CallsApart, InCall;
    var z := Put(w.(running := w.running - {k}), k, w.active[k].(phase := ReadyToComplete));
    FitsExecuted(c.maxTries, SiteOf(w, k), false);
    SameInCalls(w, z);
    assert SiteOf(z, k) == SiteOf(w, k).(attempt := z.active[k], running := false);
    MoveInv(c, w, z, k, {}, {k}, {});
  }

  lemma ExecutedSteady(c: Config, w: Loop, k: Key)
    requires Steady(c, w) && k in w.running
    ensures Steady(c, OnExecuted(c, w, k))
  {
    hide Inv, QueueCompletion;
    var u := w.(running := w.running - {k});
    if k !in w.active {
      ForgottenRun(c, w, k);
    } else {
      RunReturned(c, w, k);
      var v := Put(u, k, u.active[k].(phase := ReadyToComplete));
      QueueStep(c, v, k, {k}, {});
      assert {k} - {k} == {};
    }
  }

  // -------------------------------------------------------------------------- completions

  ghost predicate ReturnedKeys(w: Loop, keys: seq<Key>, n: nat)
    requires n <= |keys|
  {
    forall k :: k in keys[n..] && k in w.active ==> w.active[k].phase.Completing?
  }

  function Rest(keys: seq<Key>, n: nat): set<Key>
    requires n <= |keys|
  {
    set k | k in keys[n..]
  }

  lemma CallGone(w: Loop, id: nat)
    requires CallsApart(w) && id in w.completing
    ensures var z := w.(completing := w.completing - {id});
      CallsApart(z) && forall k :: InCall(z, k) <==> InCall(w, k) && k !in w.completing[id].keys
  {
    var z := w.(completing := w.completing - {id});
    forall k ensures InCall(z, k) <==> InCall(w, k) && k !in w.completing[id].keys {
      if InCall(w, k) && k !in w.completing[id].keys {
        var i :| i in w.completing && k in w.completing[i].keys;
        assert i in z.completing && k in z.completing[i].keys;
      }
      if InCall(z, k) {
        var i :| i in z.completing && k in z.completing[i].keys;
        assert i in w.completing && k in w.completing[i].keys;
      }
    }
  }

  lemma FitsReturned(maxTries: int, s: Site, late: bool)
    requires Fits(maxTries, s, false, late) && s.completeCalled
    ensures s.attempt.phase.Completing? && Fits(maxTries, s.(completeCalled := false), true, late)
  {
  }

  /** The reply to a completion call hands its attempts back to the handler. */
  lemma BatchReturned(c: Config, w: Loop, id: nat)
    requires Inv(c, w, {}, {}) && id in w.completing
    ensures var z, keys := w.(completing := w.completing - {id}), w.completing[id].keys;
      Inv(c, z, Rest(keys, 0), {}) && ReturnedKeys(z, keys, 0) && Distinct(keys)
  {
    hide Books, Fits, InCall;
    var z, keys := w.(completing := w.completing - {id}), w.completing[id].keys;
    assert keys[0..] == keys;
    SameBooks(c, w, z);
    CallGone(w, id);
    forall k | k in z.active
      ensures Fits(c.maxTries, SiteOf(z, k), k in Rest(keys, 0), false) && (k in keys ==> z.active[k].phase.Completing?)
    {
      assert Fits(c.maxTries, SiteOf(w, k), false, false);
      if k in keys {
        CalledNow(w, id, k);
        FitsReturned(c.maxTries, SiteOf(w, k), false);
        assert SiteOf(z, k) == SiteOf(w, k).(completeCalled := false);
      } else {
        assert SiteOf(z, k) == SiteOf(w, k);
      }
    }
  }

  lemma CalledNow(w: Loop, id: nat, k: Key)
    requires id in w.completing && k in w.completing[id].keys
    ensures InCall(w, k)
  {
  }

  /** What handling one item may change elsewhere. */
  ghost predicate Spares(w: Loop, z: Loop, k: Key) {
    && (forall j :: j in z.active ==> j in w.active) && z.seen == w.seen && z.deferred == w.deferred
    && z.links.acquiring == w.links.acquiring && (Single(w.links) ==> Single(z.links)) && (w.needed ==> z.needed)
    && (forall j :: j in z.active && j != k && w.active[j].phase.Completing? ==> z.active[j] == w.active[j])
  }

  lemma AgainInv(c: Config, w: Loop, k: Key, a: Attempt, todo: set<Key>)
    requires Inv(c, w, todo, {}) && k in todo && k in w.active && w.active[k].phase.Completing?
    requires a == Again(w.active[k]) || (w.active[k].tries < c.maxTries && a == w.active[k].(phase := ReadyToComplete))
    ensures Inv(c, Put(w, k, a), todo, {})
  {
    hide Books, Fits, CallsApart, InCall;
    var z := Put(w, k, a);
    FitsAgain(c.maxTries, SiteOf(w, k), false);
    SameInCalls(w, z);
    assert SiteOf(z, k) == SiteOf(w, k).(attempt := a);
    MoveInv(c, w, z, k, todo, todo, {});
  }

  lemma RetriedInv(c: Config, w: Loop, k: Key, a: Attempt, todo: set<Key>)
    requires Inv(c, w, todo, {}) && k in todo && k in w.active && w.active[k].phase.Completing?
    requires a == Again(w.active[k]) || (w.active[k].tries < c.maxTries && a == w.active[k].(phase := ReadyToComplete))
    ensures Inv(c, QueueCompletion(c, Put(w, k, a), k), todo - {k}, {}) && Spares(w, QueueCompletion(c, Put(w, k, a), k), k)
  {
    hide Inv, QueueCompletion;
    AgainInv(c, w, k, a, todo);
    QueueStep(c, Put(w, k, a), k, todo, {});
  }

  lemma PostponedInv(c: Config, w: Loop, k: Key, todo: set<Key>)
    requires Inv(c, w, todo, {}) && k in todo && k in w.active && w.active[k].phase.Completing?
    ensures var z := StartRegistration(Put(w, k, Again(w.active[k]).(completeRetry := true)));
      Inv(c, z, todo - {k}, {}) && Spares(w, z, k)
  {
    hide Inv, Spares;
    var a := Again(w.active[k]);
    AgainInv(c, w, k, a, todo);
    RegistrationInv(c, Put(w, k, a), todo, {});
    FlagInv(c, StartRegistration(Put(w, k, a)), k, a.(completeRetry := true), todo, {});
    PutTwice(w, k, a, a.(completeRetry := true));
    RegistrationSpares(w, k, a.(completeRetry := true));
  }

  lemma RegistrationSpares(w: Loop, k: Key, a: Attempt)
    requires k in w.active
    ensures Spares(w, StartRegistration(Put(w, k, a)), k)
  {
  }

  lemma CompleteOneInv(c: Config, w: Loop, k: Key, reply: Reply, epoch: nat, todo: set<Key>)
    requires Inv(c, w, todo, {}) && k in todo && (k in w.active ==> w.active[k].phase.Completing?)
    ensures Inv(c, CompleteOne(c, w, k, reply, epoch), todo - {k}, {}) && Spares(w, CompleteOne(c, w, k, reply, epoch), k)
  {
    hide Inv, Drop, QueueCompletion, Put, StartRegistration, Spares;
    DropInv(c, w, k, todo, {});
    DropSpares(w, k);
    if k !in w.active {
      NothingDropped(w, k);
    } else {
      PostponedInv(c, w, k, todo);
      RetriedInv(c, w, k, Again(w.active[k]), todo);
      if w.active[k].tries < c.maxTries { RetriedInv(c, w, k, w.active[k].(phase := ReadyToComplete), todo); }
    }
  }

  lemma DropSpares(w: Loop, k: Key)
    ensures Spares(w, Drop(w, k), k)
  {
  }

  lemma PutTwice(w: Loop, k: Key, a: Attempt, b: Attempt)
    ensures Put(StartRegistration(Put(w, k, a)), k, b) == StartRegistration(Put(w, k, b))
  {
    assert w.active[k := a][k := b] == w.active[k := b];
  }

  lemma NothingDropped(w: Loop, k: Key)
    requires k !in w.active
    ensures Drop(w, k) == w
  {
  }

  lemma RestShrinks(keys: seq<Key>, n: nat)
    requires n < |keys| && Distinct(keys)
    ensures Rest(keys, n + 1) == Rest(keys, n) - {keys[n]} && keys[n] in Rest(keys, n)
  {
    var rest := keys[n + 1..];
    assert keys[n..] == [keys[n]] + rest;
    assert forall i :: 0 <= i < |rest| ==> rest[i] == keys[n + 1 + i];
  }

  lemma {:induction false} CompleteEachInv(c: Config, w: Loop, keys: seq<Key>, replies: seq<Reply>, epoch: nat, n: nat)
    requires n <= |keys| == |replies| && Distinct(keys) && Inv(c, w, Rest(keys, 0), {}) && ReturnedKeys(w, keys, 0)
    ensures var z := CompleteEach(c, w, keys[..n], replies[..n], epoch);
      && Inv(c, z, Rest(keys, n), {}) && ReturnedKeys(z, keys, n)
      && (forall j :: j in z.active ==> j in w.active) && z.seen == w.seen && z.deferred == w.deferred
      && z.links.acquiring == w.links.acquiring && (Single(w.links) ==> Single(z.links)) && (w.needed ==> z.needed)
    decreases n
  {
    hide Inv, CompleteOne;
    if n > 0 {
      CompleteEachInv(c, w, keys, replies, epoch, n - 1);
      var b, k := CompleteEach(c, w, keys[..n - 1], replies[..n - 1], epoch), keys[n - 1];
      assert keys[..n][..n - 1] == keys[..n - 1] && replies[..n][..n - 1] == replies[..n - 1];
      RestShrinks(keys, n - 1);
      CompleteOneInv(c, b, k, replies[n - 1], epoch, Rest(keys, n - 1));
      var z := CompleteOne(c, b, k, replies[n - 1], epoch);
      forall j | j in keys[n..] && j in z.active ensures z.active[j].phase.Completing? {
        assert j in Rest(keys, n) && j in Rest(keys, n - 1) && j != k;
        assert j in keys[n - 1..];
      }
    }
  }

  lemma CompletedSteady(c: Config, w: Loop, id: nat, replies: seq<Reply>)
    requires Steady(c, w) && id in w.completing && |replies| == |w.completing[id].keys|
    ensures Steady(c, OnCompleted(c, w, id, replies))
  {
    hide Inv, CompleteEach, StartAcquire;
    BatchReturned(c, w, id);
    var u, b := w.(completing := w.completing - {id}), w.completing[id];
    CompleteEachInv(c, u, b.keys, replies, b.epoch, |b.keys|);
    assert b.keys[..|b.keys|] == b.keys && replies[..|b.keys|] == replies && Rest(b.keys, |b.keys|) == {};
    AcquireInv(c, CompleteEach(c, u, b.keys, replies, b.epoch), {}, {});
  }

  // --------------------------------------------------------------------------- heartbeats

  lemma {:induction false} RejectEachInv(c: Config, w: Loop, refs: set<Ref>, results: seq<Beaten>)
    requires Inv(c, w, {}, {})
    ensures Inv(c, RejectEach(w, refs, results), {}, {}) && SameLinks(w, RejectEach(w, refs, results))
    decreases |results|
  {
    hide Inv, Drop;
    if results != [] {
      var init, r := results[..|results| - 1], results[|results| - 1];
      RejectEachInv(c, w, refs, init);
      var u := RejectEach(w, refs, init);
      forall k ensures Inv(c, Drop(u, k), {}, {}) && SameLinks(u, Drop(u, k)) {
        DropInv(c, u, k, {}, {});
        DropFrame(u, k);
      }
    }
  }

  lemma BeatenSteady(c: Config, w: Loop, i: nat, reply: BeatReply)
    requires Steady(c, w) && i < |w.links.beats|
    ensures Steady(c, OnHeartbeat(c, w, i, reply))
  {
    hide Inv, StartAcquire, StartRegistration, StartHeartbeat, RejectEach;
    var b, u := w.links.beats[i], BeatReturned(w, i);
    Unread(c, w, u, {}, {});
    RegistrationInv(c, u, {}, {});
    HeartbeatInv(c, u, {}, {});
    if reply.Results? {
      RejectEachInv(c, u, b.refs, reply.results);
      AcquireInv(c, RejectEach(u, b.refs, reply.results), {}, {});
    }
  }

  // ------------------------------------------------------------------------- registration

  lemma FitsLate(maxTries: int, s: Site, todo: bool)
    requires Fits(maxTries, s, todo, false)
    ensures Fits(maxTries, s.(needed := false), todo, true)
  {
  }

  /** After the registration nothing is needed any more; all attempts are still to be visited. */
  lemma Renewed(c: Config, w: Loop)
    requires Inv(c, w, {}, {})
    ensures Inv(c, w.(needed := false, paused := false, epoch := w.epoch + 1), {}, w.active.Keys)
  {
    hide Books, Fits, CallsApart, InCall;
    var z := w.(needed := false, paused := false, epoch := w.epoch + 1);
    SameBooks(c, w, z);
    SameApart(w, z);
    SameInCalls(w, z);
    forall k | k in z.active ensures Fits(c.maxTries, SiteOf(z, k), false, true) {
      assert SiteOf(z, k) == SiteOf(w, k).(needed := false);
      FitsLate(c.maxTries, SiteOf(w, k), false);
    }
  }

  lemma FitsVisited(maxTries: int, s: Site, todo: bool)
    requires Fits(maxTries, s, todo, true) && !s.attempt.startRetry && !s.attempt.executePending && !s.attempt.completeRetry
    ensures Fits(maxTries, s, todo, false)
  {
  }

  lemma Visited(c: Config, w: Loop, k: Key, todo: set<Key>, late: set<Key>)
    requires Inv(c, w, todo, late)
    requires k in w.active ==> !w.active[k].startRetry && !w.active[k].executePending && !w.active[k].completeRetry
    ensures Inv(c, w, todo, late - {k})
  {
    hide Books, Fits, CallsApart, InCall;
    forall j | j in w.active ensures Fits(c.maxTries, SiteOf(w, j), j in todo, j in late - {k}) {
      assert Fits(c.maxTries, SiteOf(w, j), j in todo, j in late);
      if j == k && k in late { FitsVisited(c.maxTries, SiteOf(w, k), k in todo); }
    }
  }

  lemma SiteFits(c: Config, w: Loop, k: Key, todo: set<Key>, late: set<Key>)
    requires Inv(c, w, todo, late) && k in w.active
    ensures Fits(c.maxTries, SiteOf(w, k), k in todo, k in late)
  {
    hide Books, Fits, CallsApart, InCall;
  }

  lemma SitePut(w: Loop, k: Key, a: Attempt)
    requires k in w.active
    ensures SiteOf(Put(w, k, a), k) == SiteOf(w, k).(attempt := a)
  {
    hide InCall;
    SameInCalls(w, Put(w, k, a));
  }

  /** An attempt found waiting is taken up again. */
  lemma TakenUp(c: Config, w: Loop, k: Key, a: Attempt, todo: set<Key>, late: set<Key>)
    requires Inv(c, w, todo, late) && k in w.active && k !in todo && a.lease == w.active[k].lease
    requires Fits(c.maxTries, SiteOf(w, k).(attempt := a), true, k in late)
    requires !a.startRetry && !a.executePending && !a.completeRetry
    ensures Inv(c, Put(w, k, a), todo + {k}, late) && Inv(c, Put(w, k, a), todo + {k}, late - {k})
  {
    hide Inv, Fits, InCall;
    var z := Put(w, k, a);
    SitePut(w, k, a);
    MoveInv(c, w, z, k, todo, todo + {k}, late);
    Visited(c, z, k, todo + {k}, late);
  }

  lemma ResumeStart(c: Config, w: Loop, k: Key, todo: set<Key>, late: set<Key>)
    requires Inv(c, w, todo, late) && k in w.active && k !in todo && w.active[k].startRetry
    ensures var z := Put(w, k, w.active[k].(startRetry := false));
      Inv(c, z, todo + {k}, late - {k}) && z.active[k].phase.Starting?
  {
    hide Inv, Fits, InCall;
    SiteFits(c, w, k, todo, late);
    FitsWaiting(c.maxTries, SiteOf(w, k), k in late);
    TakenUp(c, w, k, w.active[k].(startRetry := false), todo, late);
  }

  lemma ResumeRun(c: Config, w: Loop, k: Key, todo: set<Key>, late: set<Key>)
    requires Inv(c, w, todo, late) && k in w.active && k !in todo && w.active[k].executePending
    ensures var z := Execute(Put(w, k, w.active[k].(executePending := false)), k);
      Inv(c, z, todo, late - {k}) && QueueSpares(w, z, k)
  {
    hide Inv, Fits, InCall;
    SiteFits(c, w, k, todo, late);
    FitsWaiting(c.maxTries, SiteOf(w, k), k in late);
    var a := w.active[k].(executePending := false);
    WasRetry(c.maxTries, SiteOf(w, k), k in late);
    TakenUp(c, w, k, a, todo, late);
    ExecuteInv(c, Put(w, k, a), k, todo + {k}, late - {k});
    assert todo + {k} - {k} == todo;
  }

  lemma WasRetry(maxTries: int, s: Site, late: bool)
    requires Fits(maxTries, s, false, late) && s.attempt.executePending
    ensures !s.attempt.startRetry && !s.attempt.completeRetry
  {
  }

  lemma ResumeCompletion(c: Config, w: Loop, k: Key, todo: set<Key>, late: set<Key>)
    requires Inv(c, w, todo, late) && k in w.active && k !in todo && w.active[k].completeRetry
    ensures var z := QueueCompletion(c, Put(w, k, w.active[k].(completeRetry := false, phase := ReadyToComplete)), k);
      Inv(c, z, todo, late - {k}) && QueueSpares(w, z, k)
  {
    hide Inv, Fits, InCall, QueueCompletion;
    SiteFits(c, w, k, todo, late);
    FitsWaiting(c.maxTries, SiteOf(w, k), k in late);
    var a := w.active[k].(completeRetry := false, phase := ReadyToComplete);
    TakenUp(c, w, k, a, todo, late);
    QueueStep(c, Put(w, k, a), k, todo + {k}, late - {k});
    assert todo + {k} - {k} == todo;
  }

  /** The state of the loop over active attempts: those visited are placed, or to be started again. */
  ghost predicate Resuming(c: Config, w: Loop, r: Resumed, late: set<Key>) {
    && Inv(c, r.loop, (set k | k in r.retry), late) && AllStarting(r.loop, r.retry)
    && SameLinks(w, r.loop) && r.loop.active.Keys == w.active.Keys && r.loop.seen == w.seen
    && forall k :: k in r.retry ==> k !in late
  }

  /** Exactly one of the three branches of the loop body acts. */
  lemma ResumeShapes(c: Config, r: Resumed, k: Key)
    requires k in r.loop.active
    ensures var a, w := r.loop.active[k], r.loop;
      && (a.startRetry && !a.startInFlight && !a.executePending && !a.completeRetry ==>
            ResumeOne(c, r, k) == Resumed(Put(w, k, a.(startRetry := false)), r.retry + [k]))
      && (!a.startRetry && !a.completeRetry && a.executePending ==>
            ResumeOne(c, r, k) == r.(loop := Execute(Put(w, k, a.(executePending := false)), k)))
      && (!a.startRetry && !a.executePending && a.completeRetry ==>
            ResumeOne(c, r,
                k) == r.(loop := QueueCompletion(c, Put(w, k, a.(completeRetry := false, phase := ReadyToComplete)), k)))
      && (!a.startRetry && !a.executePending && !a.completeRetry ==> ResumeOne(c, r, k) == r)
  {
    hide QueueCompletion;
  }

  lemma ResumeShape(c: Config, r: Resumed, k: Key, todo: set<Key>, late: set<Key>)
    requires Inv(c, r.loop, todo, late) && k in r.loop.active && k !in todo
    ensures var a, w := r.loop.active[k], r.loop;
      ResumeOne(c, r, k) ==
        if a.startRetry then Resumed(Put(w, k, a.(startRetry := false)), r.retry + [k])
        else if a.executePending then r.(loop := Execute(Put(w, k, a.(executePending := false)), k))
        else if a.completeRetry
        then r.(loop := QueueCompletion(c, Put(w, k, a.(completeRetry := false, phase := ReadyToComplete)), k))
        else r
  {
    hide Inv, Fits, QueueCompletion, Put, Execute, ResumeOne, InCall;
    SiteFits(c, r.loop, k, todo, late);
    FitsWaiting(c.maxTries, SiteOf(r.loop, k), k in late);
    ResumeShapes(c, r, k);
  }

  lemma ResumedElsewhere(c: Config, w: Loop, r: Resumed, z: Loop, k: Key, late: set<Key>)
    requires Resuming(c, w, r, late) && k in late && Inv(c, z, (set j | j in r.retry), late - {k})
    requires QueueSpares(r.loop, z, k)
    ensures Resuming(c, w, r.(loop := z), late - {k})
  {
    hide Inv;
  }

  lemma ResumedStart(c: Config, w: Loop, r: Resumed, k: Key, late: set<Key>)
    requires Resuming(c, w, r, late) && k in w.active && k in late && r.loop.active[k].startRetry
    ensures Resuming(c, w, Resumed(Put(r.loop, k, r.loop.active[k].(startRetry := false)), r.retry + [k]), late - {k})
  {
    hide Inv;
    var todo := set j | j in r.retry;
    ResumeStart(c, r.loop, k, todo, late);
    assert (set j | j in r.retry + [k]) == todo + {k};
  }

  lemma ResumeOneInv(c: Config, w: Loop, r: Resumed, k: Key, late: set<Key>)
    requires Resuming(c, w, r, late) && k in w.active && k in late
    ensures Resuming(c, w, ResumeOne(c, r, k), late - {k})
  {
    hide Inv, QueueCompletion, Execute, ResumeOne, AllStarting, Put, QueueSpares;
    var a, todo := r.loop.active[k], (set j | j in r.retry);
    ResumeShape(c, r, k, todo, late);
    if a.startRetry {
      ResumedStart(c, w, r, k, late);
    } else if a.executePending {
      ResumeRun(c, r.loop, k, todo, late);
      ResumedElsewhere(c, w, r, Execute(Put(r.loop, k, a.(executePending := false)), k), k, late);
    } else if a.completeRetry {
      ResumeCompletion(c, r.loop, k, todo, late);
      ResumedElsewhere(c, w, r,
          QueueCompletion(c, Put(r.loop, k, a.(completeRetry := false, phase := ReadyToComplete)), k), k, late);
    } else {
      Visited(c, r.loop, k, todo, late);
      SparesItself(r.loop, k);
      ResumedElsewhere(c, w, r, r.loop, k, late);
    }
  }

  lemma {:induction false} ResumeEachInv(c: Config, w: Loop, order: seq<Key>, n: nat)
    requires n <= |order| && Distinct(order) && (forall k :: k in order <==> k in w.active)
    requires Inv(c, w, {}, w.active.Keys)
    ensures Resuming(c, w, ResumeEach(c, w, order[..n]), Rest(order, n))
    decreases n
  {
    hide Inv, ResumeOne, Resuming;
    if n == 0 {
      NoneResumed(c, w, order);
    } else {
      ResumeEachInv(c, w, order, n - 1);
      assert order[..n][..n - 1] == order[..n - 1];
      RestShrinks(order, n - 1);
      assert order[n - 1] in order;
      ResumeOneInv(c, w, ResumeEach(c, w, order[..n - 1]), order[n - 1], Rest(order, n - 1));
    }
  }

  lemma NoneResumed(c: Config, w: Loop, order: seq<Key>)
    requires Inv(c, w, {}, w.active.Keys) && (forall k :: k in order <==> k in w.active)
    ensures Resuming(c, w, ResumeEach(c, w, order[..0]), Rest(order, 0))
  {
    hide Inv;
    assert order[0..] == order;
    assert Rest(order, 0) == w.active.Keys;
    assert (set k: Key | k in ResumeEach(c, w, order[..0]).retry) == {};
  }

  lemma RegisteredSteady(c: Config, w: Loop, ok: bool, order: seq<Key>)
    requires Steady(c, w) && w.links.registrations > 0 && Distinct(order) && (forall k :: k in order <==> k in w.active)
    requires ok && w.deferred.Some? ==> Offered(w, w.deferred.value)
    ensures Steady(c, OnRegistered(c, w, ok, order))
  {
    hide Inv, ResumeEach, StartAttempts, TakeLeases, StartHeartbeat, StartAcquire, AllStarting;
    var u := RegistrationReturned(w);
    Unread(c, w, u, {}, {});
    if ok {
      Renewed(c, u);
      var v := u.(needed := false, paused := false, epoch := u.epoch + 1);
      ResumeEachInv(c, v, order, |order|);
      assert order[..|order|] == order && Rest(order, |order|) == {};
      var r := ResumeEach(c, v, order);
      var todo := set k | k in r.retry;
      StartAttemptsInv(c, r.loop, r.retry, todo);
      assert todo - (set k | k in r.retry) == {};
      var started := StartAttempts(r.loop, r.retry);
      HeartbeatInv(c, started, {}, {});
      BeatFrame(started);
      RegisteredRest(c, StartHeartbeat(started));
    }
  }

  lemma BeatFrame(w: Loop)
    ensures var z := StartHeartbeat(w);
      && z.active == w.active && z.seen == w.seen && z.deferred == w.deferred
      && z.links.acquiring == w.links.acquiring && (Single(w.links) ==> Single(z.links))
  {
    hide References;
  }

  lemma RegisteredRest(c: Config, s: Loop)
    requires Inv(c, s, {}, {}) && Single(s.links) && (s.deferred.Some? ==> Offered(s, s.deferred.value))
    ensures Steady(c, StartAcquire(c, if s.deferred.Some? then TakeLeases(c, s.(deferred := None), s.deferred.value) else s))
  {
    hide Inv, TakeLeases, StartAcquire;
    if s.deferred.Some? {
      var t := s.(deferred := None);
      Unread(c, s, t, {}, {});
      TakeLeasesInv(c, t, s.deferred.value);
      AcquireInv(c, TakeLeases(c, t, s.deferred.value), {}, {});
    } else {
      AcquireInv(c, s, {}, {});
    }
  }

  // ---------------------------------------------------------------------- timer and ticker

  lemma TimerSteady(c: Config, w: Loop)
    requires Steady(c, w) && w.timer
    ensures Steady(c, OnTimer(w))
  {
    hide Books, Fits, CallsApart, InCall, FlushCompletions, Remembered;
    var v := w.(timer := false);
    SameBooks(c, w, v);
    SameApart(w, v);
    SameInCalls(w, v);
    TimerRemembered(w, v);
    forall k | k in v.active ensures SiteOf(v, k) == SiteOf(w, k) { }
    FlushInv(c, v, {}, {});
    FlushShape(v);
  }

  lemma TimerRemembered(w: Loop, v: Loop)
    requires Remembered(w) && v == w.(timer := false)
    ensures Remembered(v)
  {
  }

  lemma TickSteady(c: Config, w: Loop)
    requires Steady(c, w)
    ensures Steady(c, OnTick(c, w))
  {
    hide Inv, StartAcquire, StartRegistration, StartHeartbeat;
    RegistrationInv(c, w, {}, {});
    var u := w.(paused := false);
    Unread(c, w, u, {}, {});
    HeartbeatInv(c, u, {}, {});
    AcquireInv(c, StartHeartbeat(u), {}, {});
  }

  // --------------------------------------------------------------------------- whole runs

  datatype Event =
    | Acquired(call: nat, acquired: AcquireReply)
    | Started(key: Key, started: Reply)
    | Executed(key: Key)
    | Completed(call: nat, replies: seq<Reply>)
    | Heartbeat(call: nat, beaten: BeatReply)
    | Registered(ok: bool, order: seq<Key>)
    | TimerFired
    | Ticked

  /** The event can arrive: its call is outstanding. */
  predicate Possible(w: Loop, e: Event) {
    match e
    case Acquired(i, _) => i < |w.links.acquires|
    case Started(k, _) => k in w.starts
    case Executed(k) => k in w.running
    case Completed(id, replies) => id in w.completing && |replies| == |w.completing[id].keys|
    case Heartbeat(i, _) => i < |w.links.beats|
    case Registered(_, order) =>
      w.links.registrations > 0 && Distinct(order) && (forall k :: k in order ==>
            k in w.active) && (forall k :: k in w.active ==> k in order)
    case TimerFired => w.timer
    case Ticked => true
  }

  /** What the worker relies on: an attempt it let go is never offered again. */
  ghost predicate Honest(w: Loop, e: Event) {
    match e
    case Acquired(_, reply) => reply.Granted? && !w.needed ==> Offered(w, reply.leases)
    case Registered(ok, _) => ok && w.deferred.Some? ==> Offered(w, w.deferred.value)
    case _ => true
  }

  ghost function Handle(c: Config, w: Loop, e: Event): Loop {
    if !Possible(w, e) then w else
    match e
    case Acquired(i, reply) => OnAcquired(c, w, i, reply)
    case Started(k, reply) => OnStarted(c, w, k, reply)
    case Executed(k) => OnExecuted(c, w, k)
    case Completed(id, replies) => OnCompleted(c, w, id, replies)
    case Heartbeat(i, reply) => OnHeartbeat(c, w, i, reply)
    case Registered(ok, order) => OnRegistered(c, w, ok, order)
    case TimerFired => OnTimer(w)
    case Ticked => OnTick(c, w)
  }

  lemma HandleSteady(c: Config, w: Loop, e: Event)
    requires Steady(c, w) && Honest(w, e)
    ensures Steady(c, Handle(c, w, e))
  {
    hide Steady, OnAcquired, OnStarted, OnExecuted, OnCompleted, OnHeartbeat, OnRegistered, OnTimer, OnTick, Offered, Distinct;
    if Possible(w, e) {
      match e {
        case Acquired(i, reply) => AcquiredSteady(c, w, i, reply);
        case Started(k, reply) => StartedSteady(c, w, k, reply);
        case Executed(k) => ExecutedSteady(c, w, k);
        case Completed(id, replies) => CompletedSteady(c, w, id, replies);
        case Heartbeat(i, reply) => BeatenSteady(c, w, i, reply);
        case Registered(ok, order) => RegisteredSteady(c, w, ok, order);
        case TimerFired => TimerSteady(c, w);
        case Ticked => TickSteady(c, w);
      }
    }
  }

  /** The loop after its first registration and a sequence of events. */
  ghost function Run(c: Config, events: seq<Event>): Loop {
    if events == [] then StartAcquire(c, IDLE) else Handle(c, Run(c, events[..|events| - 1]), events[|events| - 1])
  }

  ghost predicate HonestRun(c: Config, events: seq<Event>) {
    events == [] || (HonestRun(c, events[..|events| - 1]) && Honest(Run(c, events[..|events| - 1]), events[|events| - 1]))
  }

  lemma BootSteady(c: Config)
    requires c.Valid()
    ensures Steady(c, StartAcquire(c, IDLE))
  {
    assert IDLE.active == map[] && Total(IDLE.active) == 0;
    assert Inv(c, IDLE, {}, {});
    AcquireInv(c, IDLE, {}, {});
  }

  /** The invariant holds in every run. */
  lemma {:induction false} RunSteady(c: Config, events: seq<Event>)
    requires c.Valid() && HonestRun(c, events)
    ensures Steady(c, Run(c, events))
    decreases |events|
  {
    hide Steady, Handle, Honest;
    if events == [] {
      BootSteady(c);
    } else {
      RunSteady(c, events[..|events| - 1]);
      HandleSteady(c, Run(c, events[..|events| - 1]), events[|events| - 1]);
    }
  }

  /** No attempt is ever stranded: whatever its phase, exactly one thing will move it on. */
  lemma NobodyStranded(c: Config, events: seq<Event>, k: Key)
    requires c.Valid() && HonestRun(c, events) && k in Run(c, events).active
    ensures var w := Run(c, events); var a := w.active[k];
      match a.phase
      case Starting => ExactlyOne(k in w.starts, a.startRetry && w.needed, a.executePending && w.needed)
      case Executing => k in w.running && !InCall(w, k)
      case ReadyToComplete => (k in w.pending && w.timer && !a.completeRetry) || (k !in w.pending && a.completeRetry && w.needed)
      case Completing => InCall(w, k) && k !in w.running
  {
    hide Books, CallsApart, Run, HonestRun;
    RunSteady(c, events);
    var w := Run(c, events);
    assert Fits(c.maxTries, SiteOf(w, k), false, false);
  }

  /** No attempt is ever handed to the executor twice, and none is in two completion calls. */
  lemma NothingTwice(c: Config, events: seq<Event>, k: Key)
    requires c.Valid() && HonestRun(c, events)
    ensures var w := Run(c, events); Runs(w, k) <= 1
    ensures var w := Run(c, events);
      forall i, j :: i in w.completing && j in w.completing && k in w.completing[i].keys && k in w.completing[j].keys ==> i == j
  {
    hide Books, Run, HonestRun, Fits;
    RunSteady(c, events);
  }

  /** Capacity: the slots in use are those of the active attempts and never exceed the worker's; no job
      has two active attempts; no attempt is reported more often than allowed; and of acquire, heartbeat and
      registration calls at most one each is outstanding, exactly while its flag is set. */
  lemma CapacityKept(c: Config, events: seq<Event>)
    requires c.Valid() && HonestRun(c, events)
    ensures var w := Run(c, events);
      && 0 <= w.used == Total(w.active) <= c.slots
      && (forall k, l :: k in w.active && l in w.active && k.job == l.job ==> k == l)
      && (forall k :: k in w.active ==> w.active[k].tries <= c.maxTries)
    ensures var l := Run(c, events).links;
      && |l.acquires| <= 1 && (|l.acquires| == 1 <==> l.acquiring)
      && |l.beats| <= 1 && (|l.beats| == 1 <==> l.beating)
      && l.registrations <= 1 && (l.registrations == 1 <==> l.registering)
  {
    hide CallsApart, Run, HonestRun, InCall;
    RunSteady(c, events);
    var w := Run(c, events);
    TotalPositive(w.active);
    forall k | k in w.active ensures w.active[k].tries <= c.maxTries { assert Fits(c.maxTries, SiteOf(w, k), false, false); }
  }

  lemma {:induction false} TotalPositive(active: map<Key, Attempt>)
    requires forall k :: k in active ==> active[k].lease.cost >= 1
    ensures Total(active) >= 0
    decreases |active|
  {
    if active != map[] {
      var k :| k in active;
      TotalSplit(active, k);
      assert (active - {k}).Keys == active.Keys - {k};
      TotalPositive(active - {k});
    }
  }

  /** A deferred acquisition is never overwritten: none can arrive while one waits. */
  lemma DeferredSafe(c: Config, events: seq<Event>)
    requires c.Valid() && HonestRun(c, events) && Run(c, events).deferred.Some?
    ensures Run(c, events).links.acquires == [] && Run(c, events).needed
  {
    hide Inv, Run, HonestRun;
    RunSteady(c, events);
  }
}
