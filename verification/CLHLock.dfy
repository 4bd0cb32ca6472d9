/**
  The CLH queue lock.  `unlock` keeps the predecessor's node as the thread's own next node, so a
  fixed stock of nodes circulates among the threads.

  One lock instance; `sMyNode` and `sPredNode` are thread-local, and no other thread writes them.
*/
module CLHLock {
  import opened Sequences

  datatype Pc = Idle | SetLocked | Exchange | Spin | Holding | Swap | Release(mine: int)

  /** `my` is `sMyNode`, `pred` is `sPredNode`. */
  datatype Thread = Thread(my: int, pred: int, pc: Pc)

  datatype State = State(locked: seq<bool>, tail: int, threads: seq<Thread>)

  /** A call of `lock`, a call of `unlock` by the holder, or the next atomic step of a call. */
  datatype Step = BeginLock(t: nat) | BeginUnlock(t: nat) | Run(t: nat)

  /** Node 0 is the constructor's node; thread `t` starts with node `t + 1`. */
  ghost predicate Init(s: State) {
    && |s.locked| == |s.threads| + 1 && s.tail == 0 && !s.locked[0]
    && forall t :: 0 <= t < |s.threads| ==> s.threads[t].my == t + 1 && s.threads[t].pc.Idle?
  }

  predicate IsNode(s: State, n: int) { 0 <= n < |s.locked| }

  /** The node the next step reads or writes exists. */
  predicate Enabled(s: State, a: Step) {
    && a.t < |s.threads|
    && match a
       case BeginLock(t) => s.threads[t].pc.Idle?
       case BeginUnlock(t) => s.threads[t].pc.Holding?
       case Run(t) =>
         match s.threads[t].pc
         case Idle => false
         case Holding => false
         case SetLocked => IsNode(s, s.threads[t].my)
         case Spin => IsNode(s, s.threads[t].pred)
         case Release(n) => IsNode(s, n)
         case _ => true
  }

  function Put(s: State, t: nat, th: Thread): State
    requires t < |s.threads|
  {
    s.(threads := s.threads[t := th])
  }

  function Next(s: State, a: Step): (s': State)
    requires Enabled(s, a)
    ensures |s'.threads| == |s.threads| && s'.threads == s.threads[a.t := s'.threads[a.t]] && |s'.locked| == |s.locked|
  {
    var th := s.threads[a.t];
    match a
    case BeginLock(t) => Put(s, t, th.(pc := SetLocked))
    case BeginUnlock(t) => Put(s, t, th.(pc := Swap))
    case Run(t) =>
      match th.pc
      case SetLocked => Put(s.(locked := s.locked[th.my := true]), t, th.(pc := Exchange))
      case Exchange => Put(s.(tail := th.my), t, th.(pred := s.tail, pc := Spin))
      case Spin => if s.locked[th.pred] then s else Put(s, t, th.(pc := Holding))
      case Swap => Put(s, t, th.(my := th.pred, pc := Release(th.my)))
      case Release(n) => Put(s.(locked := s.locked[n := false]), t, th.(pc := Idle))
  }

  // ---------------------------------------------------------------- the invariant

  /** The nodes in the queue, oldest first, and the threads that wait at all but the first. */
  datatype Aux = Aux(q: seq<int>, who: seq<nat>)

  predicate Queued(pc: Pc) { pc.Spin? || pc.Holding? || pc.Swap? || pc.Release? }

  predicate HasLock(pc: Pc) { pc.Holding? || pc.Swap? || pc.Release? }

  /** The node whose flag the thread's successor watches. */
  function QueueNode(th: Thread): int { if th.pc.Release? then th.pc.mine else th.my }

  ghost predicate QueueOk(s: State, x: Aux) {
    && |x.q| == |x.who| + 1 && Distinct(x.q) && Distinct(x.who)
    && s.tail == x.q[|x.q| - 1]
    && (forall i :: 0 <= i < |x.q| ==> IsNode(s, x.q[i]))
    && !s.locked[x.q[0]]
    && (forall i :: 0 < i < |x.q| ==> s.locked[x.q[i]])
  }

  /** The thread at position `i` of the queue. */
  ghost predicate WaiterOk(s: State, x: Aux, i: nat)
    requires i < |x.who| && |x.q| == |x.who| + 1
  {
    && x.who[i] < |s.threads|
    && var th := s.threads[x.who[i]];
       && Queued(th.pc) && QueueNode(th) == x.q[i + 1] && th.pred == x.q[i]
       && (HasLock(th.pc) ==> i == 0)
       && (th.pc.Release? ==> th.my == th.pred)
  }

  ghost predicate ThreadOk(s: State, x: Aux, t: nat)
    requires t < |s.threads|
  {
    var th := s.threads[t];
    && (Queued(th.pc) <==> t in x.who)
    && (!Queued(th.pc) ==> IsNode(s, th.my) && th.my !in x.q)
    && (th.pc.Exchange? ==> IsNode(s, th.my) && s.locked[th.my])
  }

  /** The spare nodes of threads outside the queue are different nodes. */
  ghost predicate SparesDistinct(s: State) {
    forall t, u :: 0 <= t < u < |s.threads| && !Queued(s.threads[t].pc) && !Queued(s.threads[u].pc)
      ==> s.threads[t].my != s.threads[u].my
  }

  ghost predicate SpareOf(s: State, n: int, t: int) {
    0 <= t < |s.threads| && !Queued(s.threads[t].pc) && s.threads[t].my == n
  }

  /** Every node is in the queue or is the spare node of a thread. */
  ghost predicate AllPlaced(s: State, x: Aux) {
    forall n :: 0 <= n < |s.locked| ==> n in x.q || exists t :: SpareOf(s, n, t)
  }

  ghost predicate Inv(s: State, x: Aux) {
    && QueueOk(s, x) && SparesDistinct(s) && AllPlaced(s, x)
    && (forall i :: 0 <= i < |x.who| ==> WaiterOk(s, x, i))
    && forall t :: 0 <= t < |s.threads| ==> ThreadOk(s, x, t)
  }

  function AuxNext(s: State, a: Step, x: Aux): Aux
    requires Enabled(s, a)
  {
    if !a.Run? then x else
    match s.threads[a.t].pc
    case Exchange => Aux(x.q + [s.threads[a.t].my], x.who + [a.t])
    case Release(_) => if x.q != [] && x.who != [] then Aux(x.q[1..], x.who[1..]) else x
    case _ => x
  }

  // ---------------------------------------------------------------- the steps

  /** Steps that move one thread and neither the flags nor the tail. */
  lemma QuietKeeps(s: State, x: Aux, t: nat, s': State)
    requires Inv(s, x) && t < |s.threads| && s'.locked == s.locked && s'.tail == s.tail
    requires |s'.threads| == |s.threads| && s'.threads == s.threads[t := s'.threads[t]]
    requires var th, th' := s.threads[t], s'.threads[t];
             && (Queued(th'.pc) <==> Queued(th.pc))
             && (!Queued(th.pc) ==> th'.my == th.my && !th'.pc.Exchange?)
             && (Queued(th.pc) ==> QueueNode(th') == QueueNode(th) && th'.pred == th.pred
                                   && (th'.pc.Release? ==> th'.my == th'.pred)
                                   && (HasLock(th'.pc) ==>
                                          HasLock(th.pc) || (IsNode(s, th.pred) && !s.locked[th.pred])))
    ensures Inv(s', x)
  {
    forall n | 0 <= n < |s'.locked| ensures n in x.q || exists u :: SpareOf(s', n, u) {
      if n !in x.q {
        var u :| SpareOf(s, n, u);
        assert SpareOf(s', n, u);
      }
    }
    forall i | 0 <= i < |x.who| ensures WaiterOk(s', x, i) {
      assert WaiterOk(s, x, i);
    }
    forall u | 0 <= u < |s'.threads| ensures ThreadOk(s', x, u) {
      assert ThreadOk(s, x, u);
    }
  }

  lemma SetLockedKeeps(s: State, x: Aux, t: nat)
    requires Inv(s, x) && Enabled(s, Run(t)) && s.threads[t].pc.SetLocked?
    ensures Inv(Next(s, Run(t)), x)
  {
    var s' := Next(s, Run(t));
    assert ThreadOk(s, x, t);
    forall n | 0 <= n < |s'.locked| ensures n in x.q || exists u :: SpareOf(s', n, u) {
      if n !in x.q {
        var u :| SpareOf(s, n, u);
        assert SpareOf(s', n, u);
      }
    }
    forall i | 0 <= i < |x.who| ensures WaiterOk(s', x, i) {
      assert WaiterOk(s, x, i);
    }
    forall u | 0 <= u < |s'.threads| ensures ThreadOk(s', x, u) {
      assert ThreadOk(s, x, u);
    }
  }

  lemma ExchangeKeeps(s: State, x: Aux, t: nat)
    requires Inv(s, x) && Enabled(s, Run(t)) && s.threads[t].pc.Exchange?
    ensures Inv(Next(s, Run(t)), AuxNext(s, Run(t), x))
  {
    var s', x' := Next(s, Run(t)), AuxNext(s, Run(t), x);
    assert ThreadOk(s, x, t);
    forall n | 0 <= n < |s'.locked| ensures n in x'.q || exists u :: SpareOf(s', n, u) {
      if n in x.q || n == s.threads[t].my {
        assert x'.q[|x.q|] == s.threads[t].my;
        if n in x.q {
          var i :| 0 <= i < |x.q| && x.q[i] == n;
          assert x'.q[i] == n;
        }
      } else {
        var u :| SpareOf(s, n, u);
        assert SpareOf(s', n, u);
      }
    }
    forall i | 0 <= i < |x'.who| ensures WaiterOk(s', x', i) {
      if i < |x.who| {
        assert WaiterOk(s, x, i);
      }
    }
    forall u | 0 <= u < |s'.threads| ensures ThreadOk(s', x', u) {
      assert ThreadOk(s, x, u);
      assert x'.who[|x.who|] == t;
    }
  }

  lemma ReleaseKeeps(s: State, x: Aux, t: nat)
    requires Inv(s, x) && Enabled(s, Run(t)) && s.threads[t].pc.Release?
    ensures Inv(Next(s, Run(t)), AuxNext(s, Run(t), x))
    ensures x.who != [] && x.who[0] == t
  {
    var s', x' := Next(s, Run(t)), AuxNext(s, Run(t), x);
    assert ThreadOk(s, x, t);
    var k :| 0 <= k < |x.who| && x.who[k] == t;
    assert WaiterOk(s, x, k) && k == 0;
    assert s.threads[t].my == x.q[0] && s.threads[t].pc.mine == x.q[1];
    forall u | 0 <= u < |s.threads| && !Queued(s.threads[u].pc) ensures s.threads[u].my != x.q[0] {
      assert ThreadOk(s, x, u);
    }
    forall n | 0 <= n < |s'.locked| ensures n in x'.q || exists u :: SpareOf(s', n, u) {
      if n == x.q[0] {
        assert SpareOf(s', n, t);
      } else if n !in x.q {
        var u :| SpareOf(s, n, u);
        assert SpareOf(s', n, u);
      }
    }
    forall i | 0 <= i < |x'.who| ensures WaiterOk(s', x', i) {
      assert WaiterOk(s, x, i + 1);
    }
    forall u | 0 <= u < |s'.threads| ensures ThreadOk(s', x', u) {
      assert ThreadOk(s, x, u);
    }
  }

  /** Every step of every thread keeps the invariant. */
  lemma StepKeeps(s: State, x: Aux, a: Step)
    requires Inv(s, x) && Enabled(s, a)
    ensures Inv(Next(s, a), AuxNext(s, a, x))
  {
    var pc := s.threads[a.t].pc;
    if a.Run? && pc.SetLocked? {
      SetLockedKeeps(s, x, a.t);
    } else if a.Run? && pc.Exchange? {
      ExchangeKeeps(s, x, a.t);
    } else if a.Run? && pc.Release? {
      ReleaseKeeps(s, x, a.t);
    } else {
      assert ThreadOk(s, x, a.t);
      hide Inv, ThreadOk, QueueOk;
      QuietKeeps(s, x, a.t, Next(s, a));
    }
  }

  /** A running thread finds its nodes; its own queue node is never the spare of another thread. */
  lemma NoFault(s: State, x: Aux, t: nat)
    requires Inv(s, x) && t < |s.threads| && !s.threads[t].pc.Idle? && !s.threads[t].pc.Holding?
    ensures Enabled(s, Run(t))
  {
    assert ThreadOk(s, x, t);
    if t in x.who {
      var i :| 0 <= i < |x.who| && x.who[i] == t;
      assert WaiterOk(s, x, i);
    }
  }

  /** The node a waiting or holding thread watches is nobody's to reuse: no other thread has it as its own. */
  lemma WatchedIsNotReused(s: State, x: Aux, t: nat, u: nat)
    requires Inv(s, x) && t < |s.threads| && u < |s.threads| && t != u
    requires s.threads[t].pc.Spin? || s.threads[t].pc.Holding? || s.threads[t].pc.Swap?
    ensures !Queued(s.threads[u].pc) ==> s.threads[u].my != s.threads[t].pred
  {
    assert ThreadOk(s, x, t) && ThreadOk(s, x, u);
    var i :| 0 <= i < |x.who| && x.who[i] == t;
    assert WaiterOk(s, x, i);
  }

  lemma HolderIsFirst(s: State, x: Aux, t: nat)
    requires Inv(s, x) && t < |s.threads| && HasLock(s.threads[t].pc)
    ensures x.who != [] && x.who[0] == t
  {
    assert ThreadOk(s, x, t);
    var i :| 0 <= i < |x.who| && x.who[i] == t;
    assert WaiterOk(s, x, i);
  }

  /** No lost hand-over: the first thread of the queue finds its predecessor's flag down. */
  lemma FirstCanEnter(s: State, x: Aux)
    requires Inv(s, x) && x.who != []
    ensures x.who[0] < |s.threads|
    ensures var th := s.threads[x.who[0]]; th.pc.Spin? ==> IsNode(s, th.pred) && !s.locked[th.pred]
  {
    assert WaiterOk(s, x, 0);
  }

  // ---------------------------------------------------------------- whole runs

  ghost predicate IsRun(states: seq<State>, steps: seq<Step>) {
    && |states| == |steps| + 1 && Init(states[0])
    && forall i :: 0 <= i < |steps| ==> Enabled(states[i], steps[i]) && states[i + 1] == Next(states[i], steps[i])
  }

  /** The threads that have executed the tail exchange, in that order. */
  ghost function Arrivals(states: seq<State>, steps: seq<Step>, n: nat): seq<nat>
    requires IsRun(states, steps) && n <= |steps|
  {
    if n == 0 then []
    else Arrivals(states, steps, n - 1) +
         if steps[n - 1].Run? && states[n - 1].threads[steps[n - 1].t].pc.Exchange? then [steps[n - 1].t] else []
  }

  /** The threads that have released the lock, in that order. */
  ghost function Departures(states: seq<State>, steps: seq<Step>, n: nat): seq<nat>
    requires IsRun(states, steps) && n <= |steps|
  {
    if n == 0 then []
    else Departures(states, steps, n - 1) +
         if steps[n - 1].Run? && states[n - 1].threads[steps[n - 1].t].pc.Release? then [steps[n - 1].t] else []
  }

  lemma InitOk(s: State)
    requires Init(s)
    ensures Inv(s, Aux([0], []))
  {
    forall n | 0 <= n < |s.locked| ensures n in [0] || exists t :: SpareOf(s, n, t) {
      if n != 0 {
        assert SpareOf(s, n, n - 1);
      }
    }
  }

  lemma {:induction false} RunKeeps(states: seq<State>, steps: seq<Step>, n: nat) returns (x: Aux)
    requires IsRun(states, steps) && n <= |steps|
    ensures Inv(states[n], x) && Arrivals(states, steps, n) == Departures(states, steps, n) + x.who
  {
    hide Inv, Next, Enabled;
    if n == 0 {
      InitOk(states[0]);
      x := Aux([0], []);
    } else {
      var x0 := RunKeeps(states, steps, n - 1);
      var s, a := states[n - 1], steps[n - 1];
      StepKeeps(s, x0, a);
      x := AuxNext(s, a, x0);
      WhoMoves(s, x0, a);
    }
  }

  /** The queue of threads gains the arriving thread and loses the departing one at its front. */
  lemma WhoMoves(s: State, x: Aux, a: Step)
    requires Inv(s, x) && Enabled(s, a)
    ensures a.t < |s.threads|
    ensures var pc, who' := s.threads[a.t].pc, AuxNext(s, a, x).who;
            if a.Run? && pc.Exchange? then who' == x.who + [a.t]
            else if a.Run? && pc.Release? then x.who == [a.t] + who'
            else who' == x.who
  {
    if a.Run? && s.threads[a.t].pc.Release? {
      ReleaseKeeps(s, x, a.t);
    }
  }

  /** Every thread inside `lock` or `unlock` can take its next step without a fault, in every reachable state. */
  lemma RunsAreSafe(states: seq<State>, steps: seq<Step>, n: nat, t: nat)
    requires IsRun(states, steps) && n <= |steps| && t < |states[n].threads|
    requires !states[n].threads[t].pc.Idle? && !states[n].threads[t].pc.Holding?
    ensures Enabled(states[n], Run(t))
  {
    hide Inv, Enabled;
    var x := RunKeeps(states, steps, n);
    NoFault(states[n], x, t);
  }

  /** Mutual exclusion in every reachable state. */
  lemma MutualExclusion(states: seq<State>, steps: seq<Step>, n: nat, t: nat, u: nat)
    requires IsRun(states, steps) && n <= |steps| && t < |states[n].threads| && u < |states[n].threads|
    requires HasLock(states[n].threads[t].pc) && HasLock(states[n].threads[u].pc)
    ensures t == u
  {
    hide Inv;
    var x := RunKeeps(states, steps, n);
    HolderIsFirst(states[n], x, t);
    HolderIsFirst(states[n], x, u);
  }

  /**
    First come, first served: the threads release the lock in the order of their tail exchanges,
    and whoever has the lock is the earliest arrival that has not released it.
  */
  lemma ServedInOrder(states: seq<State>, steps: seq<Step>, n: nat, t: nat)
    requires IsRun(states, steps) && n <= |steps|
    ensures Departures(states, steps, n) <= Arrivals(states, steps, n)
    ensures t < |states[n].threads| && HasLock(states[n].threads[t].pc) ==>
              && |Departures(states, steps, n)| < |Arrivals(states, steps, n)|
              && Arrivals(states, steps, n)[|Departures(states, steps, n)|] == t
  {
    hide Inv;
    var x := RunKeeps(states, steps, n);
    if t < |states[n].threads| && HasLock(states[n].threads[t].pc) {
      HolderIsFirst(states[n], x, t);
    }
  }

  /**
    The nodes stay partitioned: every node is either in the queue or the spare of exactly one
    thread outside it, and no spare is in the queue.
  */
  lemma NodesArePartitioned(states: seq<State>, steps: seq<Step>, n: nat) returns (q: seq<int>)
    requires IsRun(states, steps) && n <= |steps|
    ensures Distinct(q) && SparesDistinct(states[n]) && q != [] && states[n].tail == q[|q| - 1]
    ensures forall c :: 0 <= c < |states[n].locked| ==> c in q || exists t :: SpareOf(states[n], c, t)
    ensures forall c, t :: SpareOf(states[n], c, t) ==> c !in q
  {
    var x := RunKeeps(states, steps, n);
    q := x.q;
    forall c, t | SpareOf(states[n], c, t) ensures c !in q {
      assert ThreadOk(states[n], x, t);
    }
  }
}
