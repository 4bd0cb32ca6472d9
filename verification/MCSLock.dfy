/**
  The MCS queue lock: each thread has one node, waits on the flag of its own node, and is let in
  by its predecessor, which it has told where to find it.

  One lock instance; node `t` is the node of thread `t`.
*/
module MCSLock {
  const NULL: int := -1

  datatype Pc =
    | Idle
    | SetLocked
    | ClearNext
    | Exchange
    | LinkPred(pred: int)
    | Spin
    | Holding
    | CheckNext
    | CasTail
    | WaitNext
    | LoadNext
    | AssertLocked(succ: int)
    | Grant(succ: int)
    | ClearOwn

  datatype Node = Node(next: int, locked: bool)

  datatype State = State(nodes: seq<Node>, tail: int, threads: seq<Pc>)

  datatype Step = BeginLock(t: nat) | BeginUnlock(t: nat) | Run(t: nat)

  ghost predicate Init(s: State) {
    && |s.nodes| == |s.threads| && s.tail == NULL
    && (forall t :: 0 <= t < |s.nodes| ==> s.nodes[t] == Node(NULL, false))
    && forall t :: 0 <= t < |s.threads| ==> s.threads[t].Idle?
  }

  predicate IsNode(s: State, n: int) { 0 <= n < |s.nodes| }

  /** The nodes the next step touches exist, and the assertion before a hand-over holds. */
  predicate Enabled(s: State, a: Step) {
    && a.t < |s.threads| == |s.nodes|
    && match a
       case BeginLock(t) => s.threads[t].Idle?
       case BeginUnlock(t) => s.threads[t].Holding?
       case Run(t) =>
         match s.threads[t]
         case Idle => false
         case Holding => false
         case LinkPred(pred) => IsNode(s, pred)
         case AssertLocked(succ) => IsNode(s, succ) && s.nodes[succ].locked
         case Grant(succ) => IsNode(s, succ)
         case _ => true
  }

  function Goto(s: State, t: nat, pc: Pc): State
    requires t < |s.threads|
  {
    s.(threads := s.threads[t := pc])
  }

  function SetNode(s: State, n: int, node: Node): State
    requires IsNode(s, n)
  {
    s.(nodes := s.nodes[n := node])
  }

  function Next(s: State, a: Step): (s': State)
    requires Enabled(s, a)
    ensures |s'.threads| == |s.threads| && s'.threads == s.threads[a.t := s'.threads[a.t]] && |s'.nodes| == |s.nodes|
  {
    var mine := s.nodes[a.t];
    match a
    case BeginLock(t) => Goto(s, t, SetLocked)
    case BeginUnlock(t) => Goto(s, t, CheckNext)
    case Run(t) =>
      match s.threads[t]
      case SetLocked => Goto(SetNode(s, t, mine.(locked := true)), t, ClearNext)
      case ClearNext => Goto(SetNode(s, t, mine.(next := NULL)), t, Exchange)
      case Exchange => Goto(s.(tail := t), t, if s.tail == NULL then Holding else LinkPred(s.tail))
      case LinkPred(pred) => Goto(SetNode(s, pred, s.nodes[pred].(next := t)), t, Spin)
      case Spin => if mine.locked then s else Goto(s, t, Holding)
      case CheckNext => Goto(s, t, if mine.next == NULL then CasTail else LoadNext)
      case CasTail => if s.tail == t then Goto(s.(tail := NULL), t, Idle) else Goto(s, t, WaitNext)
      case WaitNext => if mine.next == NULL then s else Goto(s, t, LoadNext)
      case LoadNext => Goto(s, t, AssertLocked(mine.next))
      case AssertLocked(succ) => Goto(s, t, Grant(succ))
      case Grant(succ) => Goto(SetNode(s, succ, s.nodes[succ].(locked := false)), t, ClearOwn)
      case ClearOwn => Goto(SetNode(s, t, mine.(next := NULL)), t, Idle)
  }

  // ---------------------------------------------------------------- the invariant

  predicate Waiting(pc: Pc) { pc.LinkPred? || pc.Spin? }

  /** Past `lock` and not yet past the CAS or store that releases. */
  predicate HasLock(pc: Pc) {
    pc.Holding? || pc.CheckNext? || pc.CasTail? || pc.WaitNext? || pc.LoadNext? || pc.AssertLocked? || pc.Grant?
  }

  predicate Queued(pc: Pc) { Waiting(pc) || HasLock(pc) }

  ghost predicate QueueOk(s: State, q: seq<nat>) {
    && |s.nodes| == |s.threads|
    && (forall i, j :: 0 <= i < j < |q| ==> q[i] != q[j])
    && (forall i :: 0 <= i < |q| ==> q[i] < |s.threads|)
    && s.tail == if q == [] then NULL else q[|q| - 1]
  }

  /** The thread at position `i`, and its link to the thread behind it. */
  ghost predicate MemberOk(s: State, q: seq<nat>, i: nat)
    requires i < |q| && |s.nodes| == |s.threads| && q[i] < |s.threads|
  {
    var t := q[i];
    var pc := s.threads[t];
    && Queued(pc)
    && (i == 0 ==> HasLock(pc) || (pc.Spin? && !s.nodes[t].locked))
    && (i > 0 ==> Waiting(pc) && s.nodes[t].locked && (pc.LinkPred? ==> pc.pred == q[i - 1]))
    && (i + 1 == |q| ==> s.nodes[t].next == NULL)
    && (i + 1 < |q| ==>
          && q[i + 1] < |s.threads|
          && s.nodes[t].next == if s.threads[q[i + 1]].LinkPred? then NULL else q[i + 1])
    && (pc.WaitNext? ==> i + 1 < |q|)
    && (pc.LoadNext? ==> s.nodes[t].next != NULL)
    && (pc.AssertLocked? || pc.Grant? ==> pc.succ == s.nodes[t].next && pc.succ != NULL)
  }

  ghost predicate ThreadOk(s: State, q: seq<nat>, t: nat)
    requires t < |s.threads| == |s.nodes|
  {
    && (Queued(s.threads[t]) <==> t in q)
    && (s.threads[t].ClearNext? || s.threads[t].Exchange? ==> s.nodes[t].locked)
    && (s.threads[t].Exchange? ==> s.nodes[t].next == NULL)
  }

  /** `q` lists the threads from the holder to the tail. */
  ghost predicate Inv(s: State, q: seq<nat>) {
    && QueueOk(s, q)
    && (forall i :: 0 <= i < |q| ==> MemberOk(s, q, i))
    && forall t :: 0 <= t < |s.threads| ==> ThreadOk(s, q, t)
  }

  function QueueNext(s: State, a: Step, q: seq<nat>): seq<nat>
    requires Enabled(s, a)
  {
    if !a.Run? then q else
    match s.threads[a.t]
    case Exchange => q + [a.t]
    case CasTail => if s.tail == a.t && q != [] then q[1..] else q
    case Grant(_) => if q != [] then q[1..] else q
    case _ => q
  }

  // ---------------------------------------------------------------- the steps

  lemma PositionOf(s: State, q: seq<nat>, t: nat) returns (i: nat)
    requires Inv(s, q) && t < |s.threads| && Queued(s.threads[t])
    ensures i < |q| && q[i] == t && MemberOk(s, q, i)
    ensures HasLock(s.threads[t]) ==> i == 0
  {
    assert ThreadOk(s, q, t);
    i :| 0 <= i < |q| && q[i] == t;
    assert MemberOk(s, q, i);
  }

  /** Steps of a thread outside the queue. */
  lemma OutsideKeeps(s: State, q: seq<nat>, a: Step)
    requires Inv(s, q) && Enabled(s, a)
    requires !a.Run? ==> a.BeginLock?
    requires a.Run? ==> s.threads[a.t].SetLocked? || s.threads[a.t].ClearNext? || s.threads[a.t].ClearOwn?
    ensures Inv(Next(s, a), q)
  {
    var s' := Next(s, a);
    assert ThreadOk(s, q, a.t);
    forall i | 0 <= i < |q| ensures MemberOk(s', q, i) {
      assert MemberOk(s, q, i);
    }
    forall t | 0 <= t < |s'.threads| ensures ThreadOk(s', q, t) {
      assert ThreadOk(s, q, t);
    }
  }

  /** Steps of a queued thread that only read. */
  lemma InsideKeeps(s: State, q: seq<nat>, a: Step)
    requires Inv(s, q) && Enabled(s, a) && Queued(s.threads[a.t])
    requires a.Run? ==> var pc := s.threads[a.t];
                        (|| pc.Spin? || pc.CheckNext? || pc.WaitNext? || pc.LoadNext? || pc.AssertLocked?
                         || (pc.CasTail? && s.tail != a.t))
    ensures Inv(Next(s, a), q)
  {
    var s' := Next(s, a);
    var k := PositionOf(s, q, a.t);
    forall i | 0 <= i < |q| ensures MemberOk(s', q, i) {
      assert MemberOk(s, q, i);
    }
    forall t | 0 <= t < |s'.threads| ensures ThreadOk(s', q, t) {
      assert ThreadOk(s, q, t);
    }
  }

  lemma ExchangeKeeps(s: State, q: seq<nat>, t: nat)
    requires Inv(s, q) && Enabled(s, Run(t)) && s.threads[t].Exchange?
    ensures Inv(Next(s, Run(t)), q + [t])
  {
    var s', q' := Next(s, Run(t)), q + [t];
    assert ThreadOk(s, q, t);
    forall i | 0 <= i < |q'| ensures MemberOk(s', q', i) {
      if i < |q| {
        assert MemberOk(s, q, i);
      }
    }
    forall u | 0 <= u < |s'.threads| ensures ThreadOk(s', q', u) {
      assert ThreadOk(s, q, u);
      assert q'[|q|] == t;
    }
  }

  lemma LinkKeeps(s: State, q: seq<nat>, t: nat)
    requires Inv(s, q) && Enabled(s, Run(t)) && s.threads[t].LinkPred?
    ensures Inv(Next(s, Run(t)), q)
  {
    var s' := Next(s, Run(t));
    var k := PositionOf(s, q, t);
    assert k > 0 && s.threads[t].pred == q[k - 1];
    assert MemberOk(s, q, k - 1);
    forall i | 0 <= i < |q| ensures MemberOk(s', q, i) {
      assert MemberOk(s, q, i);
    }
    forall u | 0 <= u < |s'.threads| ensures ThreadOk(s', q, u) {
      assert ThreadOk(s, q, u);
    }
  }

  lemma LeaveKeeps(s: State, q: seq<nat>, t: nat)
    requires Inv(s, q) && Enabled(s, Run(t)) && s.threads[t].CasTail? && s.tail == t
    ensures q == [t] && Inv(Next(s, Run(t)), [])
  {
    var k := PositionOf(s, q, t);
    forall u | 0 <= u < |s.threads| ensures ThreadOk(Next(s, Run(t)), [], u) {
      assert ThreadOk(s, q, u);
    }
  }

  lemma GrantKeeps(s: State, q: seq<nat>, t: nat)
    requires Inv(s, q) && Enabled(s, Run(t)) && s.threads[t].Grant?
    ensures |q| > 1 && q[0] == t && s.threads[t].succ == q[1] && Inv(Next(s, Run(t)), q[1..])
  {
    var k := PositionOf(s, q, t);
    var s', q' := Next(s, Run(t)), q[1..];
    assert MemberOk(s, q, 1);
    forall i | 0 <= i < |q'| ensures MemberOk(s', q', i) {
      assert MemberOk(s, q, i + 1);
    }
    forall u | 0 <= u < |s'.threads| ensures ThreadOk(s', q', u) {
      assert ThreadOk(s, q, u);
      if u in q && u != t {
        var j :| 0 <= j < |q| && q[j] == u;
        assert q'[j - 1] == u;
      }
    }
  }

  /** Every step of every thread keeps the queue. */
  lemma StepKeeps(s: State, q: seq<nat>, a: Step)
    requires Inv(s, q) && Enabled(s, a)
    ensures Inv(Next(s, a), QueueNext(s, a, q))
  {
    var pc := s.threads[a.t];
    if a.BeginLock? || (a.Run? && (pc.SetLocked? || pc.ClearNext? || pc.ClearOwn?)) {
      OutsideKeeps(s, q, a);
    } else if a.Run? && pc.Exchange? {
      ExchangeKeeps(s, q, a.t);
    } else if a.Run? && pc.LinkPred? {
      LinkKeeps(s, q, a.t);
    } else if a.Run? && pc.CasTail? && s.tail == a.t {
      LeaveKeeps(s, q, a.t);
    } else if a.Run? && pc.Grant? {
      GrantKeeps(s, q, a.t);
    } else {
      InsideKeeps(s, q, a);
    }
  }

  /** No step faults; in particular `assert(next->mLocked)` holds whenever it is reached. */
  lemma NoFault(s: State, q: seq<nat>, t: nat)
    requires Inv(s, q) && t < |s.threads| && !s.threads[t].Idle? && !s.threads[t].Holding?
    ensures Enabled(s, Run(t))
  {
    if Queued(s.threads[t]) {
      var i := PositionOf(s, q, t);
      if i + 1 < |q| {
        assert MemberOk(s, q, i + 1);
      }
    }
  }

  lemma HolderIsFirst(s: State, q: seq<nat>, t: nat)
    requires Inv(s, q) && t < |s.threads| && HasLock(s.threads[t])
    ensures q != [] && q[0] == t
  {
    var i := PositionOf(s, q, t);
  }

  /**
    An unlocker that waits for a null link has a successor that has exchanged the tail and is about
    to store the link, and no other thread is about to store into its node.
  */
  lemma LinkIsComing(s: State, q: seq<nat>, t: nat) returns (u: nat)
    requires Inv(s, q) && t < |s.threads| && s.threads[t].WaitNext? && s.nodes[t].next == NULL
    ensures u < |s.threads| && s.threads[u] == LinkPred(t)
    ensures forall v :: 0 <= v < |s.threads| && s.threads[v] == LinkPred(t) ==> v == u
  {
    var i := PositionOf(s, q, t);
    u := q[i + 1];
    assert MemberOk(s, q, i + 1);
    forall v | 0 <= v < |s.threads| && s.threads[v] == LinkPred(t) ensures v == u {
      var j := PositionOf(s, q, v);
    }
  }

  // ---------------------------------------------------------------- whole runs

  ghost predicate IsRun(states: seq<State>, steps: seq<Step>) {
    && |states| == |steps| + 1 && Init(states[0])
    && forall i :: 0 <= i < |steps| ==> Enabled(states[i], steps[i]) && states[i + 1] == Next(states[i], steps[i])
  }

  predicate Arrives(s: State, a: Step) { a.Run? && a.t < |s.threads| && s.threads[a.t].Exchange? }

  /** The CAS or store that gives the lock up. */
  predicate Departs(s: State, a: Step) {
    a.Run? && a.t < |s.threads| && ((s.threads[a.t].CasTail? && s.tail == a.t) || s.threads[a.t].Grant?)
  }

  ghost function Arrivals(states: seq<State>, steps: seq<Step>, n: nat): seq<nat>
    requires IsRun(states, steps) && n <= |steps|
  {
    if n == 0 then []
    else Arrivals(states, steps, n - 1) + if Arrives(states[n - 1], steps[n - 1]) then [steps[n - 1].t] else []
  }

  ghost function Departures(states: seq<State>, steps: seq<Step>, n: nat): seq<nat>
    requires IsRun(states, steps) && n <= |steps|
  {
    if n == 0 then []
    else Departures(states, steps, n - 1) + if Departs(states[n - 1], steps[n - 1]) then [steps[n - 1].t] else []
  }

  lemma QueueMoves(s: State, q: seq<nat>, a: Step)
    requires Inv(s, q) && Enabled(s, a)
    ensures var q' := QueueNext(s, a, q);
            if Arrives(s, a) then q' == q + [a.t] else if Departs(s, a) then q == [a.t] + q' else q' == q
  {
    if Departs(s, a) {
      HolderIsFirst(s, q, a.t);
    }
  }

  lemma {:induction false} RunKeeps(states: seq<State>, steps: seq<Step>, n: nat) returns (q: seq<nat>)
    requires IsRun(states, steps) && n <= |steps|
    ensures Inv(states[n], q) && Arrivals(states, steps, n) == Departures(states, steps, n) + q
  {
    hide Inv, Next, Enabled, Arrives, Departs;
    if n == 0 {
      q := [];
      InitOk(states[0]);
    } else {
      var q0 := RunKeeps(states, steps, n - 1);
      StepKeeps(states[n - 1], q0, steps[n - 1]);
      QueueMoves(states[n - 1], q0, steps[n - 1]);
      OneEvent(states[n - 1], steps[n - 1]);
      q := QueueNext(states[n - 1], steps[n - 1], q0);
    }
  }

  lemma OneEvent(s: State, a: Step)
    ensures !(Arrives(s, a) && Departs(s, a))
  {
  }

  lemma InitOk(s: State)
    requires Init(s)
    ensures Inv(s, [])
  {
  }

  /** Mutual exclusion in every reachable state. */
  lemma MutualExclusion(states: seq<State>, steps: seq<Step>, n: nat, t: nat, u: nat)
    requires IsRun(states, steps) && n <= |steps| && t < |states[n].threads| && u < |states[n].threads|
    requires HasLock(states[n].threads[t]) && HasLock(states[n].threads[u])
    ensures t == u
  {
    hide Inv;
    var q := RunKeeps(states, steps, n);
    HolderIsFirst(states[n], q, t);
    HolderIsFirst(states[n], q, u);
  }

  /** No run faults or fails the assertion. */
  lemma RunsAreSafe(states: seq<State>, steps: seq<Step>, n: nat, t: nat)
    requires IsRun(states, steps) && n <= |steps| && t < |states[n].threads|
    requires !states[n].threads[t].Idle? && !states[n].threads[t].Holding?
    ensures Enabled(states[n], Run(t))
  {
    hide Inv, Enabled;
    var q := RunKeeps(states, steps, n);
    NoFault(states[n], q, t);
  }

  /** The lock is released, and so granted, in the order of the tail exchanges. */
  lemma ServedInOrder(states: seq<State>, steps: seq<Step>, n: nat, t: nat)
    requires IsRun(states, steps) && n <= |steps|
    ensures Departures(states, steps, n) <= Arrivals(states, steps, n)
    ensures t < |states[n].threads| && HasLock(states[n].threads[t]) ==>
              && |Departures(states, steps, n)| < |Arrivals(states, steps, n)|
              && Arrivals(states, steps, n)[|Departures(states, steps, n)|] == t
  {
    hide Inv;
    var q := RunKeeps(states, steps, n);
    if t < |states[n].threads| && HasLock(states[n].threads[t]) {
      HolderIsFirst(states[n], q, t);
    }
  }
}
