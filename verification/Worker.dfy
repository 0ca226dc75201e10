/** The worker's event loop (internal/worker/run.go): its state and one function per event.

    Calls to the server and the executor run beside the loop; the state records which are outstanding.
    Iteration order over the map of active attempts is a parameter. */
module Worker {
  import opened Wrappers

  datatype Key = Key(job: string, no: int, generation: int)

  datatype Lease = Lease(key: Key, token: string, worker: string, cost: int)

  datatype Ref = Ref(key: Key, token: string)

  function RefOf(l: Lease): Ref {
    Ref(l.key, l.token)
  }

  datatype Phase = Starting | Executing | ReadyToComplete | Completing

  datatype Attempt = Attempt(
    lease: Lease, phase: Phase, tries: nat,
    startInFlight: bool, startRetry: bool, executePending: bool, completeRetry: bool)

  /** A normalized configuration; `batching` says that the server takes completions in batches. */
  datatype Config = Config(
    worker: string, slots: int, maxTries: int, startBatch: int, batchSize: int, batchWait: int, batching: bool)
  {
    predicate Valid() {
      slots >= 1 && maxTries >= 1 && startBatch >= 1 && batchSize >= 1 && batchWait >= 0
    }
  }

  /** One outstanding completion call. */
  datatype Batch = Batch(keys: seq<Key>, epoch: nat)

  /** One outstanding heartbeat call. */
  datatype Beat = Beat(refs: set<Ref>, epoch: nat)

  /** The loop's flags for acquire, heartbeat and registration calls, and beside them the calls of each
      kind that are really outstanding. */
  datatype Links = Links(
    acquiring: bool, acquires: seq<nat>, beating: bool, beats: seq<Beat>, registering: bool, registrations: nat)

  const QUIET := Links(false, [], false, [], false, 0)

  /** `links`, `starts`, `running` and `completing` hold the outstanding calls, each with the epoch it was
      made in; `seen` remembers every key ever taken and `ran` counts how often each was handed to the
      executor. */
  datatype Loop = Loop(
    active: map<Key, Attempt>, used: int, links: Links, paused: bool,
    needed: bool, epoch: nat, deferred: Option<seq<Lease>>,
    timer: bool, pending: seq<Key>,
    starts: map<Key, nat>, running: set<Key>, completing: map<nat, Batch>, nextCall: nat,
    seen: set<Key>, ran: map<Key, nat>)

  const IDLE := Loop(map[], 0, QUIET, false, false, 0, None, false, [], map[], {}, map[], 0, {}, map[])

  // -------------------------------------------------------------------------- the closures

  function StartAcquire(c: Config, w: Loop): Loop {
    if w.links.acquiring || w.paused || w.needed || c.slots - w.used <= 0 then w
    else w.(links := w.links.(acquiring := true, acquires := w.links.acquires + [w.epoch]))
  }

  function StartRegistration(w: Loop): Loop {
    var u := w.(paused := true, needed := true);
    if u.links.registering then u
    else u.(links := u.links.(registering := true, registrations := u.links.registrations + 1))
  }

  function References(w: Loop): set<Ref> {
    set k | k in w.active :: RefOf(w.active[k].lease)
  }

  function StartHeartbeat(w: Loop): Loop {
    if w.links.beating || w.needed then w
    else w.(links := w.links.(beating := true, beats := w.links.beats + [Beat(References(w), w.epoch)]))
  }

  function Drop(w: Loop, k: Key): Loop {
    if k !in w.active then w else w.(active := w.active - {k}, used := w.used - w.active[k].lease.cost)
  }

  function Put(w: Loop, k: Key, a: Attempt): (r: Loop)
    ensures k in r.active && r.active[k] == a
  {
    w.(active := w.active[k := a])
  }

  /** One start call, alone or as an item of a batch. */
  function StartOne(w: Loop, k: Key): Loop
    requires k in w.active
  {
    Put(w, k, w.active[k].(startInFlight := true)).(starts := w.starts[k := w.epoch])
  }

  function StartAttempts(w: Loop, keys: seq<Key>): (r: Loop)
    requires forall k :: k in keys ==> k in w.active
    ensures r.active.Keys == w.active.Keys
  {
    if keys == [] then w else
      var last := keys[|keys| - 1];
      assert last in keys;
      StartOne(StartAttempts(w, keys[..|keys| - 1]), last)
  }

  /** How often the attempt was handed to the executor. */
  function Runs(w: Loop, k: Key): nat {
    if k in w.ran then w.ran[k] else 0
  }

  function Execute(w: Loop, k: Key): Loop
    requires k in w.active
  {
    Put(w, k, w.active[k].(phase := Executing)).(running := w.running + {k}, ran := w.ran[k := Runs(w, k) + 1])
  }

  /** startCompletion: a call of its own. */
  function CompleteAlone(w: Loop, k: Key): Loop
    requires k in w.active
  {
    Put(w, k, Sent(w.active[k])).(completing := w.completing[w.nextCall := Batch([k], w.epoch)], nextCall := w.nextCall + 1)
  }

  function Sent(a: Attempt): Attempt {
    a.(phase := Completing, tries := a.tries + 1)
  }

  datatype Flushed = Flushed(active: map<Key, Attempt>, keys: seq<Key>)

  /** The loop of flushCompletions. */
  function FlushEach(active: map<Key, Attempt>, pending: seq<Key>): Flushed {
    if pending == [] then Flushed(active, []) else
      var f, k := FlushEach(active, pending[..|pending| - 1]), pending[|pending| - 1];
      if k !in f.active || !f.active[k].phase.ReadyToComplete? then f
      else Flushed(f.active[k := Sent(f.active[k])], f.keys + [k])
  }

  function FlushCompletions(w: Loop): Loop {
    var f := FlushEach(w.active, w.pending);
    var quiet := w.(timer := false, pending := [], active := f.active);
    if f.keys == [] then quiet
    else quiet.(completing := w.completing[w.nextCall := Batch(f.keys, w.epoch)], nextCall := w.nextCall + 1)
  }

  function QueueCompletion(c: Config, w: Loop, k: Key): Loop
    requires k in w.active
  {
    if !c.batching then CompleteAlone(w, k)
    else
      var queued := w.(pending := w.pending + [k]);
      if |queued.pending| >= c.batchSize || c.batchWait == 0 then FlushCompletions(queued) else queued.(timer := true)
  }

  // ---------------------------------------------------------------------- acquired leases

  datatype AcquireReply = Granted(leases: seq<Lease>) | AcquireUnregistered | AcquireFailed

  datatype Taken = Taken(loop: Loop, keys: seq<Key>)

  predicate JobActive(w: Loop, job: string) {
    exists k :: k in w.active && k.job == job
  }

  predicate Takes(c: Config, w: Loop, l: Lease) {
    && 1 <= l.cost <= c.slots - w.used && (l.worker == "" || l.worker == c.worker)
    && l.key !in w.active && !JobActive(w, l.key.job)
  }

  function Take(w: Loop, l: Lease): Loop {
    Put(w, l.key, Attempt(l, Starting, 0, false, false, false, false)).(used := w.used + l.cost, seen := w.seen + {l.key})
  }

  function TakeEach(c: Config, w: Loop, leases: seq<Lease>): (r: Taken)
    ensures forall k :: k in r.keys ==> k in r.loop.active
  {
    if leases == [] then Taken(w, []) else
      var t, l := TakeEach(c, w, leases[..|leases| - 1]), leases[|leases| - 1];
      if Takes(c, t.loop, l) then Taken(Take(t.loop, l), t.keys + [l.key]) else t
  }

  function TakeLeases(c: Config, w: Loop, leases: seq<Lease>): Loop {
    var t := TakeEach(c, w, leases);
    StartAcquire(c, StartAttempts(t.loop, t.keys))
  }

  function Without<T>(s: seq<T>, i: nat): seq<T>
    requires i < |s|
  {
    s[..i] + s[i + 1..]
  }

  /** The acquire call `i` returns. */
  function AcquireReturned(w: Loop, i: nat): Loop
    requires i < |w.links.acquires|
  {
    w.(links := w.links.(acquiring := false, acquires := Without(w.links.acquires, i)))
  }

  function OnAcquired(c: Config, w: Loop, i: nat, reply: AcquireReply): Loop
    requires i < |w.links.acquires|
  {
    var e, u := w.links.acquires[i], AcquireReturned(w, i);
    match reply
    case Granted(leases) => if u.needed then u.(deferred := Some(leases)) else TakeLeases(c, u, leases)
    case AcquireUnregistered => if e == u.epoch || u.needed then StartRegistration(u) else StartAcquire(c, u.(paused := false))
    case AcquireFailed => u.(paused := true)
  }

  // -------------------------------------------------------------------------- other replies

  datatype Reply = Fine | Stale | Unregistered | Transient | Fatal

  function OnStarted(c: Config, w: Loop, k: Key, reply: Reply): Loop
    requires k in w.starts
  {
    var e, u := w.starts[k], w.(starts := w.starts - {k});
    if k !in u.active then u else
    var a := u.active[k].(startInFlight := false);
    var v := Put(u, k, a);
    match reply
    case Unregistered => if e < v.epoch && !v.needed then StartOne(v, k) else StartRegistration(Put(v, k, a.(startRetry := true)))
    case Fine => if !a.phase.Starting? then v else if v.needed then Put(v, k, a.(executePending := true)) else Execute(v, k)
    case _ => StartAcquire(c, Drop(v, k))
  }

  function OnExecuted(c: Config, w: Loop, k: Key): Loop
    requires k in w.running
  {
    var u := w.(running := w.running - {k});
    if k !in u.active || !u.active[k].phase.Executing? then u
    else QueueCompletion(c, Put(u, k, u.active[k].(phase := ReadyToComplete)), k)
  }

  function Again(a: Attempt): Attempt {
    a.(phase := ReadyToComplete, tries := if a.tries > 0 then a.tries - 1 else 0)
  }

  function CompleteOne(c: Config, w: Loop, k: Key, reply: Reply, epoch: nat): Loop {
    if k !in w.active then w else
    var a := w.active[k];
    match reply
    case Fine => Drop(w, k)
    case Stale => Drop(w, k)
    case Unregistered =>
      if epoch < w.epoch && !w.needed then QueueCompletion(c, Put(w, k, Again(a)), k)
      else StartRegistration(Put(w, k, Again(a).(completeRetry := true)))
    case Transient => if a.tries < c.maxTries then QueueCompletion(c, Put(w, k, a.(phase := ReadyToComplete)), k) else Drop(w, k)
    case Fatal => Drop(w, k)
  }

  function CompleteEach(c: Config, w: Loop, keys: seq<Key>, replies: seq<Reply>, epoch: nat): Loop
    requires |replies| == |keys|
  {
    if keys == [] then w else
      var n := |keys| - 1;
      CompleteOne(c, CompleteEach(c, w, keys[..n], replies[..n], epoch), keys[n], replies[n], epoch)
  }

  function OnCompleted(c: Config, w: Loop, id: nat, replies: seq<Reply>): Loop
    requires id in w.completing && |replies| == |w.completing[id].keys|
  {
    var b := w.completing[id];
    StartAcquire(c, CompleteEach(c, w.(completing := w.completing - {id}), b.keys, replies, b.epoch))
  }

  datatype BeatReply = Results(results: seq<Beaten>) | BeatUnregistered | BeatFailed

  datatype Beaten = Beaten(job: string, accepted: bool)

  predicate Rejected(w: Loop, refs: set<Ref>, job: string, k: Key) {
    k in w.active && k.job == job && RefOf(w.active[k].lease) in refs
  }

  /** Everything the heartbeat asked about for this job goes. */
  ghost function RejectJob(w: Loop, refs: set<Ref>, job: string): Loop {
    if exists k :: Rejected(w, refs, job, k) then
      var k :| Rejected(w, refs, job, k);
      Drop(w, k)
    else w
  }

  ghost function RejectEach(w: Loop, refs: set<Ref>, results: seq<Beaten>): Loop {
    if results == [] then w else
      var u, r := RejectEach(w, refs, results[..|results| - 1]), results[|results| - 1];
      if r.accepted then u else RejectJob(u, refs, r.job)
  }

  /** The heartbeat call `i` returns. */
  function BeatReturned(w: Loop, i: nat): Loop
    requires i < |w.links.beats|
  {
    w.(links := w.links.(beating := false, beats := Without(w.links.beats, i)))
  }

  ghost function OnHeartbeat(c: Config, w: Loop, i: nat, reply: BeatReply): Loop
    requires i < |w.links.beats|
  {
    var b, u := w.links.beats[i], BeatReturned(w, i);
    match reply
    case BeatUnregistered => if b.epoch < u.epoch && !u.needed then StartHeartbeat(u) else StartRegistration(u)
    case BeatFailed => u
    case Results(results) => StartAcquire(c, RejectEach(u, b.refs, results))
  }

  datatype Resumed = Resumed(loop: Loop, retry: seq<Key>)

  function RetryStart(r: Resumed, k: Key): (z: Resumed)
    requires k in r.loop.active
    ensures z.loop.active.Keys == r.loop.active.Keys && (z.retry == r.retry || z.retry == r.retry + [k])
  {
    var a := r.loop.active[k];
    if a.startRetry && !a.startInFlight then Resumed(Put(r.loop, k, a.(startRetry := false)), r.retry + [k]) else r
  }

  function RunPending(w: Loop, k: Key): (z: Loop)
    requires k in w.active
    ensures z.active.Keys == w.active.Keys
  {
    if w.active[k].executePending then Execute(Put(w, k, w.active[k].(executePending := false)), k) else w
  }

  function RetryCompletion(c: Config, w: Loop, k: Key): (z: Loop)
    requires k in w.active
    ensures z.active.Keys == w.active.Keys
  {
    if w.active[k].completeRetry
    then QueueKeys(c, Put(w, k, w.active[k].(completeRetry := false, phase := ReadyToComplete)), k);
         QueueCompletion(c, Put(w, k, w.active[k].(completeRetry := false, phase := ReadyToComplete)), k) else w
  }

  /** One turn of the loop over active attempts after a registration. */
  function ResumeOne(c: Config, r: Resumed, k: Key): Resumed {
    if k !in r.loop.active then r else
    var s := RetryStart(r, k);
    s.(loop := RetryCompletion(c, RunPending(s.loop, k), k))
  }

  function ResumeEach(c: Config, w: Loop, order: seq<Key>): (z: Resumed)
    ensures forall j :: j in z.retry ==> j in z.loop.active
  {
    if order == [] then Resumed(w, []) else
      var r := ResumeEach(c, w, order[..|order| - 1]);
      ResumeKeeps(c, r, order[|order| - 1]);
      ResumeOne(c, r, order[|order| - 1])
  }

  lemma {:induction false} FlushKeys(active: map<Key, Attempt>, pending: seq<Key>)
    ensures FlushEach(active, pending).active.Keys == active.Keys
    decreases |pending|
  {
    if pending != [] { FlushKeys(active, pending[..|pending| - 1]); }
  }

  /** What a flush changes. */
  lemma FlushShape(w: Loop)
    ensures var f, z := FlushEach(w.active, w.pending), FlushCompletions(w);
      && z.active == f.active && z.pending == [] && !z.timer
      && z.used == w.used && z.needed == w.needed && z.epoch == w.epoch && z.links == w.links && z.deferred == w.deferred
      && z.starts == w.starts && z.running == w.running && z.seen == w.seen && z.ran == w.ran
      && if f.keys == [] then z.completing == w.completing && z.nextCall == w.nextCall
         else z.completing == w.completing[w.nextCall := Batch(f.keys, w.epoch)] && z.nextCall == w.nextCall + 1
  {
    hide FlushEach;
  }

  lemma QueueKeys(c: Config, w: Loop, k: Key)
    requires k in w.active
    ensures QueueCompletion(c, w, k).active.Keys == w.active.Keys
  {
    hide FlushEach, FlushCompletions;
    var queued := w.(pending := w.pending + [k]);
    FlushShape(queued);
    FlushKeys(w.active, queued.pending);
  }

  lemma ResumeKeeps(c: Config, r: Resumed, k: Key)
    requires forall j :: j in r.retry ==> j in r.loop.active
    ensures var z := ResumeOne(c, r, k);
      z.loop.active.Keys == r.loop.active.Keys && forall j :: j in z.retry ==> j in z.loop.active
  {
    hide RetryStart, RunPending, RetryCompletion;
  }

  /** A registration call returns. */
  function RegistrationReturned(w: Loop): Loop
    requires w.links.registrations > 0
  {
    w.(links := w.links.(registering := false, registrations := w.links.registrations - 1))
  }

  /** `order` is the order in which the map of active attempts is walked. */
  function OnRegistered(c: Config, w: Loop, ok: bool, order: seq<Key>): Loop
    requires w.links.registrations > 0
  {
    var u := RegistrationReturned(w);
    if !ok then u
    else
      var r := ResumeEach(c, u.(needed := false, paused := false, epoch := u.epoch + 1), order);
      var s := StartHeartbeat(StartAttempts(r.loop, r.retry));
      StartAcquire(c, if s.deferred.Some? then TakeLeases(c, s.(deferred := None), s.deferred.value) else s)
  }

  function OnTimer(w: Loop): Loop
    requires w.timer
  {
    FlushCompletions(w.(timer := false))
  }

  function OnTick(c: Config, w: Loop): Loop {
    if w.needed then StartRegistration(w) else StartAcquire(c, StartHeartbeat(w.(paused := false)))
  }
}
