/** The worker loop as code: the state in one object, its closures and event branches as methods with
    the loops of the source, each proved to compute the handler function of the same name. */
module WorkerLoop {
  import opened Wrappers
  import opened Worker
  import opened WorkerLaws

  lemma {:induction false} TakeEachPrefix(c: Config, w: Loop, leases: seq<Lease>, n: nat)
    requires n < |leases|
    ensures var t := TakeEach(c, w, leases[..n]);
      TakeEach(c, w, leases[..n + 1])
        == if Takes(c, t.loop, leases[n]) then Taken(Take(t.loop, leases[n]), t.keys + [leases[n].key]) else t
  {
    assert leases[..n + 1][..n] == leases[..n];
  }

  class EventLoop {
    const config: Config
    var state: Loop

    /** The loop as it starts, after the first registration. */
    constructor (config: Config)
      ensures this.config == config && state == Worker.StartAcquire(config, IDLE)
    {
      this.config := config;
      state := Worker.StartAcquire(config, IDLE);
    }

    /** hasActiveJob. */
    method HasActiveJob(job: string) returns (found: bool)
      ensures found <==> JobActive(state, job)
    {
      var rest := state.active.Keys;
      while rest != {}
        invariant rest <= state.active.Keys
        invariant forall k :: k in state.active && k !in rest ==> k.job != job
        decreases |rest|
      {
        var k :| k in rest;
        if k.job == job { return true; }
        rest := rest - {k};
      }
      found := false;
    }

    /** startAttempts: chunk by chunk, every key once. */
    method StartAttempts(keys: seq<Key>)
      requires config.startBatch >= 1 && forall k :: k in keys ==> k in state.active
      modifies this
      ensures state == Worker.StartAttempts(old(state), keys)
    {
      hide StartOne;
      var offset := 0;
      ghost var before := state;
      while offset < |keys|
        invariant 0 <= offset <= |keys|
        invariant state == Worker.StartAttempts(before, keys[..offset])
      {
        var end := if offset + config.startBatch < |keys| then offset + config.startBatch else |keys|;
        for i := offset to end
          invariant state == Worker.StartAttempts(before, keys[..i])
        {
          assert keys[..i + 1][..i] == keys[..i];
          assert keys[i] in keys;
          state := StartOne(state, keys[i]);
        }
        offset := end;
      }
      assert keys[..|keys|] == keys;
    }

    /** flushCompletions. */
    method FlushCompletions()
      modifies this
      ensures state == Worker.FlushCompletions(old(state))
    {
      var pending := state.pending;
      var active, keys := state.active, [];
      for i := 0 to |pending|
        invariant Flushed(active, keys) == FlushEach(state.active, pending[..i]) && state == old(state)
      {
        assert pending[..i + 1][..i] == pending[..i];
        var k := pending[i];
        if k in active && active[k].phase.ReadyToComplete? {
          active, keys := active[k := Sent(active[k])], keys + [k];
        }
      }
      assert pending[..|pending|] == pending;
      ghost var w := state;
      state := state.(timer := false, pending := [], active := active);
      if |keys| > 0 {
        state := state.(completing := state.completing[state.nextCall := Batch(keys, state.epoch)],
            nextCall := state.nextCall + 1);
      }
    }

    /** queueCompletion. */
    method QueueCompletion(k: Key)
      requires k in state.active
      modifies this
      ensures state == Worker.QueueCompletion(config, old(state), k)
    {
      hide Worker.FlushCompletions, CompleteAlone;
      if !config.batching {
        state := CompleteAlone(state, k);
        return;
      }
      state := state.(pending := state.pending + [k]);
      if |state.pending| >= config.batchSize || config.batchWait == 0 {
        FlushCompletions();
        return;
      }
      state := state.(timer := true);
    }

    /** processAcquired, the branch without an error. */
    method TakeLeases(leases: seq<Lease>)
      requires config.startBatch >= 1
      modifies this
      ensures state == Worker.TakeLeases(config, old(state), leases)
    {
      hide Take, Worker.StartAcquire, Worker.StartAttempts, Takes;
      var keys := [];
      ghost var before := state;
      for i := 0 to |leases|
        invariant Taken(state, keys) == TakeEach(config, before, leases[..i])
      {
        TakeEachPrefix(config, before, leases, i);
        var l := leases[i];
        var conflict := HasActiveJob(l.key.job);
        TakesIs(config, state, l);
        if l.cost < 1 || l.cost > config.slots - state.used { continue; }
        if l.worker != "" && l.worker != config.worker { continue; }
        if l.key in state.active || conflict { continue; }
        state, keys := Take(state, l), keys + [l.key];
      }
      assert leases[..|leases|] == leases;
      StartAttempts(keys);
      state := Worker.StartAcquire(config, state);
    }

    /** The reply to the acquire call `i`. */
    method OnAcquired(i: nat, reply: AcquireReply)
      requires config.startBatch >= 1 && i < |state.links.acquires|
      modifies this
      ensures state == Worker.OnAcquired(config, old(state), i, reply)
    {
      hide Worker.TakeLeases, Worker.StartAcquire, Worker.StartRegistration;
      var epoch := state.links.acquires[i];
      state := AcquireReturned(state, i);
      match reply {
        case Granted(leases) =>
          if state.needed { state := state.(deferred := Some(leases)); } else { TakeLeases(leases); }
        case AcquireUnregistered =>
          if epoch == state.epoch || state.needed { state := Worker.StartRegistration(state); }
          else { state := Worker.StartAcquire(config, state.(paused := false)); }
        case AcquireFailed => state := state.(paused := true);
      }
    }

    method OnExecuted(k: Key)
      requires k in state.running
      modifies this
      ensures state == Worker.OnExecuted(config, old(state), k)
    {
      hide Worker.QueueCompletion;
      state := state.(running := state.running - {k});
      if k !in state.active || !state.active[k].phase.Executing? { return; }
      state := Put(state, k, state.active[k].(phase := ReadyToComplete));
      QueueCompletion(k);
    }

    /** One item of a completion reply. */
    method CompleteOne(k: Key, reply: Reply, epoch: nat)
      modifies this
      ensures state == Worker.CompleteOne(config, old(state), k, reply, epoch)
    {
      hide Worker.QueueCompletion, Drop, Worker.StartRegistration;
      if k !in state.active { return; }
      var a := state.active[k];
      if reply.Unregistered? {
        if epoch < state.epoch && !state.needed {
          state := Put(state, k, Again(a));
          QueueCompletion(k);
        } else {
          state := Worker.StartRegistration(Put(state, k, Again(a).(completeRetry := true)));
        }
      } else if reply.Transient? && a.tries < config.maxTries {
        state := Put(state, k, a.(phase := ReadyToComplete));
        QueueCompletion(k);
      } else {
        state := Drop(state, k);
      }
    }

    method OnCompleted(id: nat, replies: seq<Reply>)
      requires id in state.completing && |replies| == |state.completing[id].keys|
      modifies this
      ensures state == Worker.OnCompleted(config, old(state), id, replies)
    {
      hide Worker.CompleteOne, Worker.StartAcquire;
      var b := state.completing[id];
      state := state.(completing := state.completing - {id});
      ghost var before := state;
      for i := 0 to |b.keys|
        invariant state == CompleteEach(config, before, b.keys[..i], replies[..i], b.epoch)
      {
        assert b.keys[..i + 1][..i] == b.keys[..i] && replies[..i + 1][..i] == replies[..i];
        CompleteOne(b.keys[i], replies[i], b.epoch);
      }
      assert b.keys[..|b.keys|] == b.keys && replies[..|b.keys|] == replies;
      state := Worker.StartAcquire(config, state);
    }

    /** The inner loop over the references of a heartbeat. */
    method RejectRefs(refs: set<Ref>, job: string)
      requires Books(config, state)
      modifies this
      ensures state == RejectJob(old(state), refs, job) && Books(config, state)
    {
      hide Books;
      ghost var before := state;
      var rest := refs;
      while rest != {}
        invariant rest <= refs && Books(config, state)
        invariant state == before || (exists k :: Rejected(before, refs, job, k) && state == Drop(before, k))
        invariant state == before ==> forall r :: r in refs && r !in rest && r.key.job == job ==> !Names(before, r)
        decreases |rest|
      {
        var ref :| ref in rest;
        rest := rest - {ref};
        if ref.key.job == job && Names(state, ref) {
          OneRejected(config, before, refs, job, state, ref.key);
          state := Drop(state, ref.key);
        }
      }
      RejectionDone(config, before, refs, job, state);
    }

    /** The reply to the heartbeat call `i`. */
    method OnHeartbeat(i: nat, reply: BeatReply)
      requires Steady(config, state) && i < |state.links.beats|
      modifies this
      ensures state == Worker.OnHeartbeat(config, old(state), i, reply)
    {
      hide Books, RejectJob, Worker.StartAcquire, Worker.StartHeartbeat, Worker.StartRegistration, CallsApart, Fits, Remembered;
      var b := state.links.beats[i];
      SameBooks(config, state, BeatReturned(state, i));
      state := BeatReturned(state, i);
      match reply {
        case BeatUnregistered =>
          if b.epoch < state.epoch && !state.needed {
            state := Worker.StartHeartbeat(state);
          } else {
            state := Worker.StartRegistration(state);
          }
        case BeatFailed =>
        case Results(results) =>
          ghost var before := state;
          for n := 0 to |results|
            invariant state == RejectEach(before, b.refs, results[..n]) && Books(config, state)
          {
            assert results[..n + 1][..n] == results[..n];
            if !results[n].accepted { RejectRefs(b.refs, results[n].job); }
          }
          assert results[..|results|] == results;
          state := Worker.StartAcquire(config, state);
      }
    }

    /** The keys of the map of active attempts, in no particular order. */
    method ActiveKeys() returns (keys: seq<Key>)
      ensures Distinct(keys) && forall k :: k in keys <==> k in state.active
    {
      keys := [];
      var rest := state.active.Keys;
      while rest != {}
        invariant rest <= state.active.Keys && Distinct(keys)
        invariant forall k :: k in keys <==> k in state.active && k !in rest
        decreases |rest|
      {
        var k :| k in rest;
        keys, rest := keys + [k], rest - {k};
      }
    }

    /** The loop over active attempts after a registration. */
    method Resume(keys: seq<Key>) returns (retry: seq<Key>)
      modifies this
      ensures Resumed(state, retry) == ResumeEach(config, old(state), keys)
    {
      hide ResumeOne;
      ghost var before := state;
      retry := [];
      for i := 0 to |keys|
        invariant Resumed(state, retry) == ResumeEach(config, before, keys[..i])
      {
        assert keys[..i + 1][..i] == keys[..i];
        ResumeKeeps(config, Resumed(state, retry), keys[i]);
        var next := ResumeOne(config, Resumed(state, retry), keys[i]);
        state, retry := next.loop, next.retry;
      }
      assert keys[..|keys|] == keys;
    }

    /** The map of active attempts is walked in no particular order; `order` is the one taken. */
    method OnRegistered(ok: bool) returns (ghost order: seq<Key>)
      requires config.startBatch >= 1 && state.links.registrations > 0
      modifies this
      ensures Distinct(order) && forall k :: k in order <==> k in old(state).active
      ensures state == Worker.OnRegistered(config, old(state), ok, order)
    {
      hide Worker.TakeLeases, Worker.StartAcquire, Worker.StartHeartbeat, Worker.StartAttempts, ResumeEach;
      var keys := ActiveKeys();
      order := keys;
      state := RegistrationReturned(state);
      if !ok { return; }
      state := state.(needed := false, paused := false, epoch := state.epoch + 1);
      var retry := Resume(keys);
      StartAttempts(retry);
      state := Worker.StartHeartbeat(state);
      if state.deferred.Some? {
        var leases := state.deferred.value;
        state := state.(deferred := None);
        TakeLeases(leases);
      }
      state := Worker.StartAcquire(config, state);
    }

    method OnStarted(k: Key, reply: Reply)
      requires k in state.starts
      modifies this
      ensures state == Worker.OnStarted(config, old(state), k, reply)
    {
      hide Execute, StartOne, Worker.StartAcquire, Worker.StartRegistration, Drop;
      var epoch := state.starts[k];
      state := state.(starts := state.starts - {k});
      if k !in state.active { return; }
      var a := state.active[k].(startInFlight := false);
      state := Put(state, k, a);
      if reply.Unregistered? {
        if epoch < state.epoch && !state.needed {
          state := StartOne(state, k);
        } else {
          state := Worker.StartRegistration(Put(state, k, a.(startRetry := true)));
        }
      } else if !reply.Fine? {
        state := Worker.StartAcquire(config, Drop(state, k));
      } else if a.phase.Starting? {
        state := if state.needed then Put(state, k, a.(executePending := true)) else Execute(state, k);
      }
    }

    method OnTimer()
      requires state.timer
      modifies this
      ensures state == Worker.OnTimer(old(state))
    {
      hide Worker.FlushCompletions;
      state := state.(timer := false);
      FlushCompletions();
    }

    method OnTick()
      modifies this
      ensures state == Worker.OnTick(config, old(state))
    {
      if state.needed {
        state := Worker.StartRegistration(state);
      } else {
        state := Worker.StartAcquire(config, Worker.StartHeartbeat(state.(paused := false)));
      }
    }
  }

  lemma TakesIs(c: Config, w: Loop, l: Lease)
    ensures Takes(c, w, l) <==>
      && !(l.cost < 1 || l.cost > c.slots - w.used) && !(l.worker != "" && l.worker != c.worker)
      && !(l.key in w.active || JobActive(w, l.key.job))
  {
  }

  // ------------------------------------------------------------------- rejected attempts

  /** A job has one active attempt, so at most one is rejected. */
  lemma OneRejected(c: Config, before: Loop, refs: set<Ref>, job: string, now: Loop, k: Key)
    requires Books(c, before) && k in now.active && k.job == job && RefOf(now.active[k].lease) in refs && Books(c, now)
    requires now == before || (exists j :: Rejected(before, refs, job, j) && now == Drop(before, j))
    ensures now == before && Rejected(before, refs, job, k) && Books(c, Drop(before, k))
  {
    TotalSplit(before.active, k);
  }

  /** sameLease, with the attempt still active. */
  predicate Names(w: Loop, r: Ref) {
    r.key in w.active && RefOf(w.active[r.key].lease) == r
  }

  lemma RejectionDone(c: Config, before: Loop, refs: set<Ref>, job: string, now: Loop)
    requires Books(c, before)
    requires now == before || (exists k :: Rejected(before, refs, job, k) && now == Drop(before, k))
    requires now == before ==> forall r :: r in refs && r.key.job == job ==> !Names(before, r)
    ensures now == RejectJob(before, refs, job)
  {
    forall k | Rejected(before, refs, job, k) ensures Names(before, RefOf(before.active[k].lease)) && now != before {
      assert RefOf(before.active[k].lease) in refs;
    }
    if now != before {
      var k :| Rejected(before, refs, job, k) && now == Drop(before, k);
      forall j | Rejected(before, refs, job, j) ensures j == k { }
    }
  }
}
