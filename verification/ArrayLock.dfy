/**
  The array queue lock: a ring of 64 flags and a 32-bit ticket counter that wraps around.

  One lock instance; `sIndex` is thread-local.
*/
module ArrayLock {
  import opened Sequences

  const CAPACITY: nat := 64
  const TAIL_RANGE: nat := 0x1_0000_0000

  datatype Pc = Idle | FetchAdd | Spin(i: nat) | Holding(i: nat) | ClearFlag(i: nat) | SetNext(i: nat)

  datatype State = State(flags: seq<bool>, tail: nat, threads: seq<Pc>)

  datatype Step = BeginLock(t: nat) | BeginUnlock(t: nat) | Run(t: nat)

  ghost predicate Init(s: State) {
    && |s.flags| == CAPACITY && s.tail == 0
    && (forall i :: 0 <= i < CAPACITY ==> (s.flags[i] <==> i == 0))
    && forall t :: 0 <= t < |s.threads| ==> s.threads[t].Idle?
  }

  predicate Enabled(s: State, a: Step) {
    && a.t < |s.threads| && |s.flags| == CAPACITY
    && match a
       case BeginLock(t) => s.threads[t].Idle?
       case BeginUnlock(t) => s.threads[t].Holding?
       case Run(t) =>
         match s.threads[t]
         case Idle => false
         case Holding(_) => false
         case FetchAdd => true
         case Spin(i) => i < CAPACITY
         case ClearFlag(i) => i < CAPACITY
         case SetNext(i) => i < CAPACITY
  }

  function Goto(s: State, t: nat, pc: Pc): State
    requires t < |s.threads|
  {
    s.(threads := s.threads[t := pc])
  }

  function Next(s: State, a: Step): (s': State)
    requires Enabled(s, a)
    ensures |s'.threads| == |s.threads| && s'.threads == s.threads[a.t := s'.threads[a.t]] && |s'.flags| == CAPACITY
  {
    match a
    case BeginLock(t) => Goto(s, t, FetchAdd)
    case BeginUnlock(t) => Goto(s, t, ClearFlag(s.threads[t].i))
    case Run(t) =>
      match s.threads[t]
      case FetchAdd => Goto(s.(tail := (s.tail + 1) % TAIL_RANGE), t, Spin(s.tail % CAPACITY))
      case Spin(i) => if s.flags[i] then Goto(s, t, Holding(i)) else s
      case ClearFlag(i) => Goto(s.(flags := s.flags[i := false]), t, SetNext(i))
      case SetNext(i) => Goto(s.(flags := s.flags[(i + 1) % CAPACITY := true]), t, Idle)
  }

  // ---------------------------------------------------------------- the invariant

  /** How many threads have been served, and the threads between `fetch_add` and their last store. */
  datatype Aux = Aux(served: nat, who: seq<nat>)

  predicate Queued(pc: Pc) { pc.Spin? || HasLock(pc) }

  predicate HasLock(pc: Pc) { pc.Holding? || pc.ClearFlag? || pc.SetNext? }

  ghost predicate MemberOk(s: State, x: Aux, i: nat)
    requires i < |x.who|
  {
    && x.who[i] < |s.threads|
    && var pc := s.threads[x.who[i]];
       Queued(pc) && pc.i == (x.served + i) % CAPACITY && (HasLock(pc) ==> i == 0)
  }

  /** The first thread is between clearing its flag and setting the next one. */
  predicate Handing(s: State, x: Aux) { x.who != [] && x.who[0] < |s.threads| && s.threads[x.who[0]].SetNext? }

  ghost predicate FlagsOk(s: State, x: Aux) {
    && |s.flags| == CAPACITY
    && forall i :: 0 <= i < CAPACITY ==> (s.flags[i] <==> i == x.served % CAPACITY && !Handing(s, x))
  }

  ghost predicate Inv(s: State, x: Aux) {
    && Distinct(x.who) && FlagsOk(s, x)
    && s.tail == (x.served + |x.who|) % TAIL_RANGE
    && (forall i :: 0 <= i < |x.who| ==> MemberOk(s, x, i))
    && forall t :: 0 <= t < |s.threads| ==> (Queued(s.threads[t]) <==> t in x.who)
  }

  function AuxNext(s: State, a: Step, x: Aux): Aux
    requires Enabled(s, a)
  {
    if !a.Run? then x else
    match s.threads[a.t]
    case FetchAdd => x.(who := x.who + [a.t])
    case SetNext(_) => if x.who != [] then Aux(x.served + 1, x.who[1..]) else x
    case _ => x
  }

  // ---------------------------------------------------------------- modular arithmetic

  /** Wrapping the ticket counter does not disturb the ring, because 64 divides its range. */
  lemma WrapIsHarmless(n: nat)
    ensures (n % TAIL_RANGE) % CAPACITY == n % CAPACITY
    ensures (n % TAIL_RANGE + 1) % TAIL_RANGE == (n + 1) % TAIL_RANGE
  {
    var q := n / TAIL_RANGE;
    assert n == TAIL_RANGE * q + n % TAIL_RANGE;
    assert TAIL_RANGE * q == CAPACITY * (67108864 * q);
  }

  lemma SlotsDiffer(n: nat, i: nat)
    requires 0 < i < CAPACITY
    ensures (n + i) % CAPACITY != n % CAPACITY
  {
  }

  lemma NextSlot(n: nat)
    ensures (n % CAPACITY + 1) % CAPACITY == (n + 1) % CAPACITY
  {
  }

  // ---------------------------------------------------------------- how many threads are queued

  /** The threads between `fetch_add` and their last store. */
  function QueuedThreads(s: State): set<nat> { set t: nat | t < |s.threads| && Queued(s.threads[t]) }

  lemma QueueFits(s: State, x: Aux)
    requires Inv(s, x)
    ensures |x.who| <= |QueuedThreads(s)|
  {
    forall i | 0 <= i < |x.who| ensures x.who[i] in QueuedThreads(s) {
      assert MemberOk(s, x, i);
    }
    PigeonSet(x.who, QueuedThreads(s));
  }

  lemma {:induction false} AtMostBelow(r: set<nat>, n: nat)
    requires forall t :: t in r ==> t < n
    ensures |r| <= n
  {
    if n == 0 {
      assert r == {};
    } else {
      AtMostBelow(r - {n - 1}, n - 1);
      assert r <= (r - {n - 1}) + {n - 1};
    }
  }

  // ---------------------------------------------------------------- the steps

  lemma PositionOf(s: State, x: Aux, t: nat) returns (i: nat)
    requires Inv(s, x) && t < |s.threads| && Queued(s.threads[t])
    ensures i < |x.who| && x.who[i] == t && MemberOk(s, x, i)
    ensures HasLock(s.threads[t]) ==> i == 0
    ensures s.threads[t].Spin? && |x.who| <= CAPACITY ==>
              s.threads[t].i < CAPACITY && (s.flags[s.threads[t].i] ==> i == 0)
  {
    i :| 0 <= i < |x.who| && x.who[i] == t;
    assert MemberOk(s, x, i);
    if 0 < i < CAPACITY {
      SlotsDiffer(x.served, i);
    }
  }

  lemma FetchKeeps(s: State, x: Aux, t: nat)
    requires Inv(s, x) && Enabled(s, Run(t)) && s.threads[t].FetchAdd?
    ensures Inv(Next(s, Run(t)), AuxNext(s, Run(t), x))
  {
    var s', x' := Next(s, Run(t)), AuxNext(s, Run(t), x);
    WrapIsHarmless(x.served + |x.who|);
    assert t !in x.who;
    forall i | 0 <= i < |x'.who| ensures MemberOk(s', x', i) {
      if i < |x.who| {
        assert MemberOk(s, x, i);
      }
    }
    assert x'.who[|x.who|] == t;
    assert Handing(s', x') <==> Handing(s, x);
  }

  lemma StayKeeps(s: State, x: Aux, a: Step)
    requires Inv(s, x) && Enabled(s, a) && |x.who| <= CAPACITY
    requires a.Run? ==> s.threads[a.t].Spin? || s.threads[a.t].ClearFlag?
    ensures Inv(Next(s, a), x)
  {
    var s' := Next(s, a);
    if Queued(s.threads[a.t]) {
      var k := PositionOf(s, x, a.t);
    }
    forall i | 0 <= i < |x.who| ensures MemberOk(s', x, i) {
      assert MemberOk(s, x, i);
    }
  }

  lemma PassOnKeeps(s: State, x: Aux, t: nat)
    requires Inv(s, x) && Enabled(s, Run(t)) && s.threads[t].SetNext?
    ensures x.who != [] && x.who[0] == t && Inv(Next(s, Run(t)), AuxNext(s, Run(t), x))
  {
    var k := PositionOf(s, x, t);
    var s', x' := Next(s, Run(t)), AuxNext(s, Run(t), x);
    NextSlot(x.served);
    forall i | 0 <= i < |x'.who| ensures MemberOk(s', x', i) {
      assert MemberOk(s, x, i + 1);
    }
    forall u | 0 <= u < |s'.threads| ensures Queued(s'.threads[u]) <==> u in x'.who {
      if u in x.who && u != t {
        var j :| 0 <= j < |x.who| && x.who[j] == u;
        assert x'.who[j - 1] == u;
      }
    }
    assert !Handing(s', x') by {
      if x'.who != [] {
        assert MemberOk(s, x, 1);
      }
    }
  }

  /** Every step of every thread keeps the invariant while at most 64 threads are queued. */
  lemma StepKeeps(s: State, x: Aux, a: Step)
    requires Inv(s, x) && Enabled(s, a) && |QueuedThreads(s)| <= CAPACITY
    ensures Inv(Next(s, a), AuxNext(s, a, x))
  {
    QueueFits(s, x);
    hide QueuedThreads;
    if a.Run? && s.threads[a.t].FetchAdd? {
      FetchKeeps(s, x, a.t);
    } else if a.Run? && s.threads[a.t].SetNext? {
      PassOnKeeps(s, x, a.t);
    } else {
      StayKeeps(s, x, a);
    }
  }

  // ---------------------------------------------------------------- whole runs

  ghost predicate IsRun(states: seq<State>, steps: seq<Step>) {
    && |states| == |steps| + 1 && Init(states[0])
    && forall i :: 0 <= i < |steps| ==> Enabled(states[i], steps[i]) && states[i + 1] == Next(states[i], steps[i])
  }

  predicate Arrives(s: State, a: Step) { a.Run? && a.t < |s.threads| && s.threads[a.t].FetchAdd? }

  predicate Departs(s: State, a: Step) { a.Run? && a.t < |s.threads| && s.threads[a.t].SetNext? }

  ghost function Arrivals(states: seq<State>, steps: seq<Step>, n: nat): seq<nat>
    requires IsRun(states, steps) && n <= |steps|
  {
    if n == 0 then []
    else Arrivals(states, steps, n - 1) + if Arrives(states[n - 1], steps[n - 1]) then [steps[n - 1].t] else []
  }

  ghost function Departures(states: seq<State>, steps: seq<Step>, n: nat): seq<nat>
    requires IsRun(states, steps) && n <= |steps|
  {
    if n == 0 then []
    else Departures(states, steps, n - 1) + if Departs(states[n - 1], steps[n - 1]) then [steps[n - 1].t] else []
  }

  lemma InitOk(s: State)
    requires Init(s)
    ensures Inv(s, Aux(0, []))
  {
  }

  lemma WhoMoves(s: State, x: Aux, a: Step)
    requires Inv(s, x) && Enabled(s, a)
    ensures var who' := AuxNext(s, a, x).who;
            if Arrives(s, a) then who' == x.who + [a.t]
            else if Departs(s, a) then x.who == [a.t] + who'
            else who' == x.who
  {
    if Departs(s, a) {
      PassOnKeeps(s, x, a.t);
    }
  }

  lemma OneEvent(s: State, a: Step)
    ensures !(Arrives(s, a) && Departs(s, a))
  {
  }

  /** In each of the first `n` states at most `limit` threads are queued. */
  ghost predicate QueueBelow(states: seq<State>, n: nat, limit: nat)
    requires n <= |states|
  {
    forall i :: 0 <= i < n ==> |QueuedThreads(states[i])| <= limit
  }

  lemma {:induction false} RunKeeps(states: seq<State>, steps: seq<Step>, n: nat) returns (x: Aux)
    requires IsRun(states, steps) && n <= |steps| && QueueBelow(states, n, CAPACITY)
    ensures Inv(states[n], x) && Arrivals(states, steps, n) == Departures(states, steps, n) + x.who
  {
    hide Inv, Next, Enabled, Arrives, Departs, QueuedThreads;
    if n == 0 {
      InitOk(states[0]);
      x := Aux(0, []);
    } else {
      var x0 := RunKeeps(states, steps, n - 1);
      StepKeeps(states[n - 1], x0, steps[n - 1]);
      WhoMoves(states[n - 1], x0, steps[n - 1]);
      OneEvent(states[n - 1], steps[n - 1]);
      x := AuxNext(states[n - 1], steps[n - 1], x0);
    }
  }

  lemma HolderIsFirst(s: State, x: Aux, t: nat)
    requires Inv(s, x) && t < |s.threads| && HasLock(s.threads[t])
    ensures x.who != [] && x.who[0] == t
  {
    var i := PositionOf(s, x, t);
  }

  /** First come, first served, even after the 32-bit counter has wrapped around. */
  lemma ServedInOrder(states: seq<State>, steps: seq<Step>, n: nat, t: nat)
    requires IsRun(states, steps) && n <= |steps| && QueueBelow(states, n, CAPACITY)
    ensures Departures(states, steps, n) <= Arrivals(states, steps, n)
    ensures t < |states[n].threads| && HasLock(states[n].threads[t]) ==>
              && |Departures(states, steps, n)| < |Arrivals(states, steps, n)|
              && Arrivals(states, steps, n)[|Departures(states, steps, n)|] == t
  {
    hide Inv;
    var x := RunKeeps(states, steps, n);
    if t < |states[n].threads| && HasLock(states[n].threads[t]) {
      HolderIsFirst(states[n], x, t);
    }
  }

  lemma AtMostOneFlag(states: seq<State>, steps: seq<Step>, n: nat, i: nat, j: nat)
    requires IsRun(states, steps) && n <= |steps| && QueueBelow(states, n, CAPACITY)
    requires i < CAPACITY && j < CAPACITY && |states[n].flags| == CAPACITY && states[n].flags[i] && states[n].flags[j]
    ensures i == j
  {
    var x := RunKeeps(states, steps, n);
  }

  ghost predicate Exclusive(s: State) {
    forall t, u :: 0 <= t < u < |s.threads| ==> !(HasLock(s.threads[t]) && HasLock(s.threads[u]))
  }

  /** Any number of threads may use the lock, as long as at most 64 of them are queued at a time. */
  lemma ShortQueueExcludes(states: seq<State>, steps: seq<Step>, n: nat)
    requires IsRun(states, steps) && n <= |steps| && QueueBelow(states, n, CAPACITY)
    ensures Exclusive(states[n])
  {
    var x := RunKeeps(states, steps, n);
    hide Inv, IsRun;
    forall t, u | 0 <= t < u < |states[n].threads|
      ensures !(HasLock(states[n].threads[t]) && HasLock(states[n].threads[u]))
    {
      if HasLock(states[n].threads[t]) && HasLock(states[n].threads[u]) {
        HolderIsFirst(states[n], x, t);
        HolderIsFirst(states[n], x, u);
      }
    }
  }

  lemma {:induction false} SameThreads(states: seq<State>, steps: seq<Step>, n: nat)
    requires IsRun(states, steps) && n <= |steps|
    ensures |states[n].threads| == |states[0].threads|
  {
    if n > 0 {
      SameThreads(states, steps, n - 1);
    }
  }

  lemma FewThreadsQueue(states: seq<State>, steps: seq<Step>)
    requires IsRun(states, steps) && |states[0].threads| <= CAPACITY
    ensures QueueBelow(states, |states|, CAPACITY)
  {
    forall i | 0 <= i < |states| ensures |QueuedThreads(states[i])| <= CAPACITY {
      SameThreads(states, steps, i);
      AtMostBelow(QueuedThreads(states[i]), |states[i].threads|);
    }
  }

  // ---------------------------------------------------------------- one thread too many

  /** Thread 0 has the lock and the next threads up to `k` wait. */
  function Crowd(threads: nat, k: nat): State {
    State(
      seq(CAPACITY, i => i == 0), k,
      seq(threads, t => if t == 0 then Holding(0) else if t < k then Spin(t % CAPACITY) else Idle))
  }

  /** Only threads below `k` are ever queued. */
  ghost predicate QueuedBelow(s: State, k: nat) { forall t :: k <= t < |s.threads| ==> !Queued(s.threads[t]) }

  lemma Extend(states: seq<State>, steps: seq<Step>, a: Step) returns (more: seq<State>, longer: seq<Step>)
    requires IsRun(states, steps) && Enabled(states[|steps|], a)
    ensures more == states + [Next(states[|steps|], a)] && longer == steps + [a] && IsRun(more, longer)
  {
    more, longer := states + [Next(states[|steps|], a)], steps + [a];
    hide Init, Enabled, Next;
    forall i | 0 <= i < |longer| ensures Enabled(more[i], longer[i]) && more[i + 1] == Next(more[i], longer[i]) {
      assert i < |steps| ==> more[i] == states[i] && more[i + 1] == states[i + 1] && longer[i] == steps[i];
    }
  }

  lemma {:induction false} CrowdIsReachable(threads: nat, k: nat) returns (states: seq<State>, steps: seq<Step>)
    requires 1 <= k <= threads && k <= CAPACITY + 1
    ensures IsRun(states, steps) && states[|steps|] == Crowd(threads, k) && |states[0].threads| == threads
    ensures forall i :: 0 <= i < |states| ==> QueuedBelow(states[i], k)
  {
    if k == 1 {
      var s0 := State(seq(CAPACITY, i => i == 0), 0, seq(threads, t => Idle));
      states, steps := [s0], [];
      states, steps := Extend(states, steps, BeginLock(0));
      states, steps := Extend(states, steps, Run(0));
      states, steps := Extend(states, steps, Run(0));
      assert states[3].threads == Crowd(threads, 1).threads;
    } else {
      states, steps := CrowdIsReachable(threads, k - 1);
      hide IsRun;
      states, steps := Arrival(states, steps, threads, k);
    }
  }

  lemma Arrival(states0: seq<State>, steps0: seq<Step>, threads: nat, k: nat)
    returns (states: seq<State>, steps: seq<Step>)
    requires IsRun(states0, steps0) && 2 <= k <= threads && k <= CAPACITY + 1
    requires states0[|steps0|] == Crowd(threads, k - 1)
    requires forall i :: 0 <= i < |states0| ==> QueuedBelow(states0[i], k - 1)
    ensures IsRun(states, steps) && states[|steps|] == Crowd(threads, k) && states[0] == states0[0]
    ensures forall i :: 0 <= i < |states| ==> QueuedBelow(states[i], k)
  {
    states, steps := Extend(states0, steps0, BeginLock(k - 1));
    states, steps := Extend(states, steps, Run(k - 1));
    assert states[|steps|].threads == Crowd(threads, k).threads;
    hide IsRun;
    forall i | 0 <= i < |states| ensures QueuedBelow(states[i], k) {
      assert i < |states0| ==> states[i] == states0[i];
    }
  }

  lemma ManyThreadsCollide(threads: nat) returns (states: seq<State>, steps: seq<Step>)
    requires threads > CAPACITY
    ensures IsRun(states, steps) && |states[0].threads| == threads && !Exclusive(states[|steps|])
    ensures QueueBelow(states, |states|, CAPACITY + 1)
  {
    states, steps := CrowdIsReachable(threads, CAPACITY + 1);
    assert states[|steps|].threads[CAPACITY] == Spin(0);
    states, steps := Extend(states, steps, Run(CAPACITY));
    assert HasLock(states[|steps|].threads[0]) && HasLock(states[|steps|].threads[CAPACITY]);
    hide IsRun;
    forall i | 0 <= i < |states| ensures |QueuedThreads(states[i])| <= CAPACITY + 1 {
      assert QueuedBelow(states[i], CAPACITY + 1);
      AtMostBelow(QueuedThreads(states[i]), CAPACITY + 1);
    }
  }

  /** Mutual exclusion in every run of `threads` threads of which at most `limit` are queued at a time. */
  ghost predicate AlwaysExclusive(threads: nat, limit: nat) {
    forall states: seq<State>, steps: seq<Step> ::
      IsRun(states, steps) && |states[0].threads| == threads && QueueBelow(states, |states|, limit) ==>
        Exclusive(states[|steps|])
  }

  /** It holds if and only if no more than 64 threads can be queued at a time. */
  lemma ExclusiveIff(threads: nat, limit: nat)
    ensures AlwaysExclusive(threads, limit) <==> threads <= CAPACITY || limit <= CAPACITY
  {
    if threads <= CAPACITY || limit <= CAPACITY {
      forall states: seq<State>, steps: seq<Step>
        | IsRun(states, steps) && |states[0].threads| == threads && QueueBelow(states, |states|, limit)
        ensures Exclusive(states[|steps|])
      {
        if threads <= CAPACITY {
          FewThreadsQueue(states, steps);
        }
        hide QueuedThreads;
        ShortQueueExcludes(states, steps, |steps|);
      }
    } else {
      var states, steps := ManyThreadsCollide(threads);
      hide QueuedThreads, Exclusive;
      assert QueueBelow(states, |states|, limit);
    }
  }
}
