/** The priority write gate (internal/store/sqlite/sqlite.go): a mutex, a condition variable and a count
    of waiters per priority, under every interleaving of any number of threads. */
module WriteGate {
  import opened Wrappers

  const PRIORITIES := 3

  /** Where a thread is.  `Checking` owns the mutex and is about to evaluate the loop condition. */
  datatype Pc =
    | Outside
    | Arriving(priority: nat)
    | Checking(priority: nat)
    | Sleeping(priority: nat)
    | Woken(priority: nat)
    | Holding
    | Leaving
  {
    /** The thread is included in the waiter counts. */
    predicate Counted() {
      Checking? || Sleeping? || Woken?
    }

    /** It will look at the gate again without anybody's help. */
    predicate Alert() {
      Checking? || Woken?
    }
  }

  datatype Gate = Gate(active: bool, waiters: seq<int>, mutex: Option<nat>, pc: map<nat, Pc>)

  predicate HigherWaiter(waiters: seq<int>, priority: nat) {
    exists c :: priority < c < |waiters| && waiters[c] > 0
  }

  /** hasHigherWaiter. */
  method HasHigherWaiter(waiters: seq<int>, priority: nat) returns (found: bool)
    ensures found <==> HigherWaiter(waiters, priority)
  {
    var candidate := priority + 1;
    while candidate < |waiters|
      invariant priority < candidate
      invariant forall c :: priority < c < candidate && c < |waiters| ==> waiters[c] <= 0
    {
      if waiters[candidate] > 0 { return true; }
      candidate := candidate + 1;
    }
    found := false;
  }

  // --------------------------------------------------------------------------- the steps

  datatype Step =
    | Arrive(thread: nat, priority: nat)  // calls lock
    | Enter(thread: nat)                  // takes the mutex and counts itself
    | Test(thread: nat)                   // evaluates the loop condition: sleeps, or takes the gate
    | Retake(thread: nat)                 // takes the mutex again after a broadcast
    | Finish(thread: nat)                 // calls unlock
    | Release(thread: nat)                // opens the gate, broadcasts, lets the mutex go

  predicate Enabled(g: Gate, s: Step) {
    s.thread in g.pc &&
    match s
    case Arrive(t, p) => g.pc[t].Outside? && p < PRIORITIES
    case Enter(t) => g.pc[t].Arriving? && g.mutex.None?
    case Test(t) => g.pc[t].Checking? && g.mutex == Some(t)
    case Retake(t) => g.pc[t].Woken? && g.mutex.None?
    case Finish(t) => g.pc[t].Holding?
    case Release(t) => g.pc[t].Leaving? && g.mutex.None?
  }

  function Adjust(waiters: seq<int>, p: nat, d: int): seq<int> {
    if p < |waiters| then waiters[p := waiters[p] + d] else waiters
  }

  /** sync.Cond.Broadcast. */
  function Broadcast(pc: map<nat, Pc>): map<nat, Pc> {
    map t | t in pc :: if pc[t].Sleeping? then Woken(pc[t].priority) else pc[t]
  }

  function Next(g: Gate, s: Step): Gate {
    if !Enabled(g, s) then g else
    match s
    case Arrive(t, p) => g.(pc := g.pc[t := Arriving(p)])
    case Enter(t) =>
      var p := g.pc[t].priority;
      Gate(g.active, Adjust(g.waiters, p, 1), Some(t), g.pc[t := Checking(p)])
    case Test(t) =>
      var p := g.pc[t].priority;
      if g.active || HigherWaiter(g.waiters, p) then g.(mutex := None, pc := g.pc[t := Sleeping(p)])
      else Gate(true, Adjust(g.waiters, p, -1), None, g.pc[t := Holding])
    case Retake(t) => g.(mutex := Some(t), pc := g.pc[t := Checking(g.pc[t].priority)])
    case Finish(t) => g.(pc := g.pc[t := Leaving])
    case Release(t) => g.(active := false, pc := Broadcast(g.pc[t := Outside]))
  }

  // ----------------------------------------------------------------------- the invariant

  function Waiters(pc: map<nat, Pc>, p: nat): set<nat> {
    set t | t in pc && pc[t].Counted() && pc[t].priority == p
  }

  predicate Occupies(pc: Pc) {
    pc.Holding? || pc.Leaving?
  }

  /** The counters agree with where the threads are. */
  ghost predicate CountersFit(g: Gate) {
    && |g.waiters| == PRIORITIES
    && (forall t :: t in g.pc && (g.pc[t].Arriving? || g.pc[t].Counted()) ==> g.pc[t].priority < PRIORITIES)
    && (forall p :: 0 <= p < PRIORITIES ==> g.waiters[p] == |Waiters(g.pc, p)|)
  }

  /** The thread that owns the mutex is the one that checks. */
  ghost predicate MutexFits(g: Gate) {
    && (forall t :: t in g.pc && g.pc[t].Checking? ==> g.mutex == Some(t))
    && (g.mutex.Some? ==> g.mutex.value in g.pc && g.pc[g.mutex.value].Checking?)
  }

  /** The flag is set exactly while one thread occupies the gate. */
  ghost predicate HolderFits(g: Gate) {
    && (forall t, u :: t in g.pc && u in g.pc && Occupies(g.pc[t]) && Occupies(g.pc[u]) ==> t == u)
    && (g.active <==> exists t :: t in g.pc && Occupies(g.pc[t]))
  }

  ghost predicate Valid(g: Gate) {
    CountersFit(g) && MutexFits(g) && HolderFits(g)
  }

  /** An alert thread of higher priority. */
  ghost predicate Watched(g: Gate, t: nat)
    requires t in g.pc && g.pc[t].Counted()
  {
    exists u :: u in g.pc && g.pc[u].Alert() && g.pc[u].priority > g.pc[t].priority
  }

  /** No wakeup is lost: at a free gate every sleeper is watched. */
  ghost predicate NoLostWakeup(g: Gate) {
    !g.active ==> forall t :: t in g.pc && g.pc[t].Sleeping? ==> Watched(g, t)
  }

  lemma CountsOne(g: Gate, t: nat)
    requires Valid(g) && t in g.pc && g.pc[t].Counted()
    ensures g.pc[t].priority < |g.waiters| && g.waiters[g.pc[t].priority] >= 1
  {
    assert t in Waiters(g.pc, g.pc[t].priority);
  }

  /** A thread moves between places that count alike. */
  lemma CountKept(pc: map<nat, Pc>, t: nat, to: Pc, p: nat)
    requires t in pc && pc[t].Counted() == to.Counted() && (to.Counted() ==> pc[t].priority == to.priority)
    ensures Waiters(pc[t := to], p) == Waiters(pc, p)
  {
  }

  lemma CountMoved(pc: map<nat, Pc>, t: nat, to: Pc, p: nat)
    requires t in pc && pc[t].Counted() != to.Counted()
    ensures |Waiters(pc[t := to], p)| == |Waiters(pc, p)|
      + (if to.Counted() && to.priority == p then 1 else 0) - (if pc[t].Counted() && pc[t].priority == p then 1 else 0)
  {
    var a, b := Waiters(pc, p), Waiters(pc[t := to], p);
    if to.Counted() && to.priority == p {
      assert b == a + {t};
    } else if pc[t].Counted() && pc[t].priority == p {
      assert b == a - {t} && t in a;
    } else {
      assert b == a;
    }
  }

  lemma BroadcastCounts(pc: map<nat, Pc>, p: nat)
    ensures Waiters(Broadcast(pc), p) == Waiters(pc, p)
  {
  }

  lemma CountersKept(g: Gate, s: Step)
    requires Valid(g)
    ensures CountersFit(Next(g, s))
  {
    hide HigherWaiter;
    var n := Next(g, s);
    if Enabled(g, s) {
      var t := s.thread;
      forall p | 0 <= p < PRIORITIES ensures n.waiters[p] == |Waiters(n.pc, p)| {
        match s {
          case Arrive(_, q) => CountKept(g.pc, t, Arriving(q), p);
          case Enter(_) => CountMoved(g.pc, t, n.pc[t], p);
          case Test(_) => if n.active && !g.active { CountMoved(g.pc, t, Holding, p); } else { CountKept(g.pc, t, n.pc[t], p); }
          case Retake(_) => CountKept(g.pc, t, n.pc[t], p);
          case Finish(_) => CountKept(g.pc, t, Leaving, p);
          case Release(_) =>
            CountKept(g.pc, t, Outside, p);
            BroadcastCounts(g.pc[t := Outside], p);
        }
      }
    }
  }

  lemma MutexKept(g: Gate, s: Step)
    requires Valid(g)
    ensures MutexFits(Next(g, s))
  {
    hide Waiters, HigherWaiter, HolderFits;
  }

  lemma HolderKept(g: Gate, s: Step)
    requires Valid(g)
    ensures HolderFits(Next(g, s))
  {
    hide Waiters, HigherWaiter, MutexFits;
    var n := Next(g, s);
    if Enabled(g, s) {
      var t := s.thread;
      if s.Test? && n.active && !g.active { assert Occupies(n.pc[t]); }
      if s.Finish? { assert Occupies(g.pc[t]) && Occupies(n.pc[t]); }
      if s.Release? {
        assert Occupies(g.pc[t]);
        forall u | u in n.pc ensures !Occupies(n.pc[u]) { }
      } else if g.active {
        var u :| u in g.pc && Occupies(g.pc[u]);
        assert Occupies(n.pc[u]);
      }
    }
  }

  lemma NextValid(g: Gate, s: Step)
    requires Valid(g)
    ensures Valid(Next(g, s))
  {
    hide CountersFit, MutexFits, HolderFits, Next;
    CountersKept(g, s);
    MutexKept(g, s);
    HolderKept(g, s);
  }

  /** A counted waiter of higher priority is alert, or asleep and watched itself. */
  lemma HigherIsWatched(g: Gate, p: nat) returns (u: nat)
    requires Valid(g) && NoLostWakeup(g) && !g.active && HigherWaiter(g.waiters, p)
    ensures u in g.pc && g.pc[u].Alert() && g.pc[u].priority > p
  {
    var c :| p < c < |g.waiters| && g.waiters[c] > 0;
    assert Waiters(g.pc, c) != {};
    u :| u in Waiters(g.pc, c);
    if g.pc[u].Sleeping? {
      assert Watched(g, u);
      u :| u in g.pc && g.pc[u].Alert() && g.pc[u].priority > c;
    }
  }

  lemma NextWatched(g: Gate, s: Step)
    requires Valid(g) && NoLostWakeup(g)
    ensures NoLostWakeup(Next(g, s))
  {
    hide Waiters, HigherWaiter;
    var n := Next(g, s);
    if Enabled(g, s) && !n.active && !s.Release? {
      var t := s.thread;
      forall x | x in n.pc && n.pc[x].Sleeping? ensures Watched(n, x) {
        var u: nat;
        if s.Test? && x == t {
          u := HigherIsWatched(g, g.pc[t].priority);
        } else {
          assert g.pc[x].Sleeping? && Watched(g, x);
          u :| u in g.pc && g.pc[u].Alert() && g.pc[u].priority > g.pc[x].priority;
          if s.Test? && u == t {
            u := HigherIsWatched(g, g.pc[t].priority);
          }
        }
        assert n.pc[u].Alert() && n.pc[u].priority > n.pc[x].priority;
      }
    }
  }

  // ------------------------------------------------------------------------- whole runs

  ghost predicate Fresh(g: Gate) {
    && g.active == false && g.waiters == [0, 0, 0] && g.mutex.None? && forall t :: t in g.pc ==> g.pc[t].Outside?
  }

  ghost predicate Good(g: Gate) {
    Valid(g) && NoLostWakeup(g)
  }

  lemma FreshGood(g: Gate)
    requires Fresh(g)
    ensures Good(g)
  {
    forall p | 0 <= p < PRIORITIES ensures Waiters(g.pc, p) == {} { }
  }

  /** The gate after a schedule of steps; a step that is not enabled does nothing. */
  ghost function Run(g: Gate, steps: seq<Step>): Gate {
    if steps == [] then g else Next(Run(g, steps[..|steps| - 1]), steps[|steps| - 1])
  }

  lemma {:induction false} RunGood(g: Gate, steps: seq<Step>)
    requires Good(g)
    ensures Good(Run(g, steps))
    decreases |steps|
  {
    hide Next, Valid, NoLostWakeup;
    if steps != [] {
      var before := Run(g, steps[..|steps| - 1]);
      RunGood(g, steps[..|steps| - 1]);
      NextValid(before, steps[|steps| - 1]);
      NextWatched(before, steps[|steps| - 1]);
    }
  }

  lemma Reachable(g: Gate, steps: seq<Step>)
    requires Fresh(g)
    ensures Good(Run(g, steps))
  {
    FreshGood(g);
    RunGood(g, steps);
  }

  /** Mutual exclusion: two threads never hold the gate together. */
  lemma OneHolder(g: Gate, steps: seq<Step>, t: nat, u: nat)
    requires Fresh(g)
    requires var z := Run(g, steps); t in z.pc && u in z.pc && z.pc[t].Holding? && z.pc[u].Holding?
    ensures t == u
  {
    Reachable(g, steps);
    var z := Run(g, steps);
    assert Occupies(z.pc[t]) && Occupies(z.pc[u]);
  }

  /** Priority: a thread that takes the gate outranks or equals every counted waiter, and the gate was
      free. */
  lemma EntryRespectsPriority(g: Gate, steps: seq<Step>, s: Step, u: nat)
    requires Fresh(g)
    requires var z := Run(g, steps); s.thread in z.pc && !z.pc[s.thread].Holding? && Next(z, s).pc[s.thread].Holding?
    requires var z := Run(g, steps); u in z.pc && z.pc[u].Counted()
    ensures var z := Run(g, steps);
      s.Test? && !z.active && z.pc[s.thread].Counted() && z.pc[u].priority <= z.pc[s.thread].priority
  {
    Reachable(g, steps);
    var z := Run(g, steps);
    CountsOne(z, u);
  }

  /** No lost wakeup: at a free gate every sleeper has an alert thread of higher priority above it. */
  lemma SleepersAreWatched(g: Gate, steps: seq<Step>, t: nat)
    requires Fresh(g)
    requires var z := Run(g, steps); !z.active && t in z.pc && z.pc[t].Sleeping?
    ensures Watched(Run(g, steps), t)
  {
    Reachable(g, steps);
  }

  lemma {:induction false} HighestWaiter(pc: map<nat, Pc>, p: nat) returns (t: nat)
    requires exists u :: u in pc && pc[u].Counted() && pc[u].priority >= p
    requires forall u :: u in pc && pc[u].Counted() ==> pc[u].priority < PRIORITIES
    ensures t in pc && pc[t].Counted() && forall u :: u in pc && pc[u].Counted() ==> pc[u].priority <= pc[t].priority
    decreases PRIORITIES - p
  {
    if u :| u in pc && pc[u].Counted() && pc[u].priority > p {
      t := HighestWaiter(pc, p + 1);
    } else {
      t :| t in pc && pc[t].Counted() && pc[t].priority >= p;
    }
  }

  /** The waiter of highest priority at a free gate is alert and would be let in. */
  lemma Foremost(z: Gate, waiter: nat) returns (t: nat)
    requires Good(z) && !z.active && waiter in z.pc && z.pc[waiter].Counted()
    ensures t in z.pc && z.pc[t].Alert() && !HigherWaiter(z.waiters, z.pc[t].priority)
  {
    t := HighestWaiter(z.pc, 0);
    forall c | z.pc[t].priority < c < |z.waiters| ensures z.waiters[c] == 0 {
      assert Waiters(z.pc, c) == {};
    }
  }

  lemma TwoSteps(g: Gate, a: Step, b: Step)
    requires Good(g)
    ensures Run(g, [a]) == Next(g, a) && Good(Next(g, a)) && Run(g, [a, b]) == Next(Next(g, a), b)
  {
    RunGood(g, [a]);
    assert [a][..0] == [] && [a, b][..1] == [a];
    assert Run(g, [a]) == Next(Run(g, []), a);
    assert Run(g, [a, b]) == Next(Run(g, [a]), b);
  }

  /** With the mutex free, the foremost waiter takes the gate in two steps. */
  lemma ForemostEnters(z: Gate, waiter: nat) returns (steps: seq<Step>, t: nat)
    requires Good(z) && !z.active && z.mutex.None? && waiter in z.pc && z.pc[waiter].Counted()
    ensures |steps| == 2 && t in Run(z, steps).pc && Run(z, steps).pc[t].Holding?
  {
    t := Foremost(z, waiter);
    steps := [Retake(t), Test(t)];
    TwoSteps(z, Retake(t), Test(t));
    assert Next(z, Retake(t)).waiters == z.waiters;
  }

  lemma {:induction false} RunSplit(g: Gate, a: Step, rest: seq<Step>)
    ensures Run(g, [a] + rest) == Run(Next(g, a), rest)
    decreases |rest|
  {
    hide Next, Good;
    if rest == [] {
      assert [a] + rest == [a] && [a][..0] == [];
      assert Run(g, [a]) == Next(Run(g, []), a);
    } else {
      var init, all := rest[..|rest| - 1], [a] + rest;
      RunSplit(g, a, init);
      assert all[..|all| - 1] == [a] + init && all[|all| - 1] == rest[|rest| - 1];
    }
  }

  /** No deadlock: from every reachable state with a free gate and a waiter, at most three steps of the
      waiters themselves put one of them in. */
  lemma SomebodyEnters(g: Gate, steps: seq<Step>, waiter: nat) returns (more: seq<Step>, t: nat)
    requires Fresh(g)
    requires var z := Run(g, steps); !z.active && waiter in z.pc && z.pc[waiter].Counted()
    ensures |more| <= 3 && t in Run(Run(g, steps), more).pc && Run(Run(g, steps), more).pc[t].Holding?
  {
    Reachable(g, steps);
    var z := Run(g, steps);
    if z.mutex.None? {
      more, t := ForemostEnters(z, waiter);
    } else {
      var m := z.mutex.value;
      TwoSteps(z, Test(m), Test(m));
      if HigherWaiter(z.waiters, z.pc[m].priority) {
        var n := Next(z, Test(m));
        var rest;
        rest, t := ForemostEnters(n, m);
        more := [Test(m)] + rest;
        RunSplit(z, Test(m), rest);
      } else {
        more, t := [Test(m)], m;
      }
    }
  }
}
