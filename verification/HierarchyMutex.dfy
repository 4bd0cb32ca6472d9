/**
  Mutexes with hierarchy levels: a thread may only lock a mutex of a lower level than the one it
  locked last, and must unlock in reverse order.

  The check before an acquisition, the acquisition and the bookkeeping after it are separate
  steps; the bookkeeping touches only thread-local state and a field that the mutex protects.
*/
module HierarchyMutex {
  const FREE: int := -1

  /** `numeric_limits<unsigned long long>::max()`. */
  const TOP: nat := 0xFFFF_FFFF_FFFF_FFFF

  /** The mutexes a thread has locked, the latest on top. */
  datatype Stack = Bottom | Held(m: nat, rest: Stack)

  /** `Threw` is the exception a check raised, which ends the call. */
  datatype Pc =
    | Idle
    | CheckLock(m: nat, try: bool)
    | Acquire(m: nat, try: bool)
    | Update(m: nat)
    | CheckUnlock(m: nat)
    | Unlock(m: nat)
    | Threw
    | TryFailed

  /** `level` is `sThisThreadHierarchy`. */
  datatype Thread = Thread(level: nat, stack: Stack, pc: Pc)

  /** `levels` is `mHierarchy` and `previous` is `mPreviousHierarchy` of each mutex. */
  datatype State = State(levels: seq<nat>, previous: seq<nat>, owner: seq<int>, threads: seq<Thread>)

  datatype Step = BeginLock(t: nat, m: nat, try: bool) | BeginUnlock(t: nat, m: nat) | Return(t: nat) | Run(t: nat)

  ghost predicate Init(s: State) {
    && |s.levels| == |s.previous| == |s.owner|
    && (forall m :: 0 <= m < |s.owner| ==> s.owner[m] == FREE)
    && forall t :: 0 <= t < |s.threads| ==> s.threads[t] == Thread(TOP, Bottom, Idle)
  }

  predicate IsMutex(s: State, m: nat) { m < |s.levels| == |s.previous| == |s.owner| }

  predicate On(st: Stack, m: nat) { st.Held? && (st.m == m || On(st.rest, m)) }

  /** A thread unlocks only what it holds; a blocking acquisition waits until the mutex is free. */
  predicate Enabled(s: State, a: Step) {
    && a.t < |s.threads|
    && var th := s.threads[a.t];
       match a
       case BeginLock(t, m, _) => th.pc.Idle? && IsMutex(s, m)
       case BeginUnlock(t, m) => th.pc.Idle? && IsMutex(s, m) && On(th.stack, m)
       case Return(t) => th.pc.Threw? || th.pc.TryFailed?
       case Run(t) =>
         match th.pc
         case CheckLock(m, _) => IsMutex(s, m)
         case Acquire(m, try) => IsMutex(s, m) && (try || s.owner[m] == FREE)
         case Update(m) => IsMutex(s, m)
         case CheckUnlock(m) => IsMutex(s, m)
         case Unlock(m) => IsMutex(s, m)
         case _ => false
  }

  function Put(s: State, t: nat, th: Thread): State
    requires t < |s.threads|
  {
    s.(threads := s.threads[t := th])
  }

  function Next(s: State, a: Step): (s': State)
    requires Enabled(s, a)
    ensures |s'.threads| == |s.threads| && s'.threads == s.threads[a.t := s'.threads[a.t]] && s'.levels == s.levels
  {
    var th := s.threads[a.t];
    match a
    case BeginLock(t, m, try) => Put(s, t, th.(pc := CheckLock(m, try)))
    case BeginUnlock(t, m) => Put(s, t, th.(pc := CheckUnlock(m)))
    case Return(t) => Put(s, t, th.(pc := Idle))
    case Run(t) =>
      match th.pc
      case CheckLock(m, try) => Put(s, t, th.(pc := if th.level <= s.levels[m] then Threw else Acquire(m, try)))
      case Acquire(m, _) =>
        if s.owner[m] == FREE
        then Put(s.(owner := s.owner[m := t]), t, th.(pc := Update(m), stack := Held(m, th.stack)))
        else Put(s, t, th.(pc := TryFailed))
      case Update(m) => Put(s.(previous := s.previous[m := th.level]), t, th.(level := s.levels[m], pc := Idle))
      case CheckUnlock(m) =>
        if th.level != s.levels[m] then Put(s, t, th.(pc := Threw))
        else Put(s, t, th.(level := s.previous[m], pc := Unlock(m)))
      case Unlock(m) =>
        var rest := if th.stack.Held? then th.stack.rest else th.stack;
        Put(s.(owner := s.owner[m := FREE]), t, th.(pc := Idle, stack := rest))
  }

  // ---------------------------------------------------------------- the invariant

  /** The level of the mutex on top. */
  function TopLevel(levels: seq<nat>, st: Stack): nat {
    if st.Held? && st.m < |levels| then levels[st.m] else TOP
  }

  /** Thread `t` owns the mutexes of the stack, their levels decrease, and each records the level below. */
  ghost predicate StackOk(s: State, t: int, st: Stack) {
    st.Held? ==>
      && IsMutex(s, st.m) && s.owner[st.m] == t
      && s.levels[st.m] < TopLevel(s.levels, st.rest) == s.previous[st.m]
      && StackOk(s, t, st.rest)
  }

  /** The stack while the mutex on top has been acquired but not recorded yet. */
  ghost predicate FreshTop(s: State, t: int, st: Stack, m: nat) {
    && st.Held? && st.m == m && IsMutex(s, m) && s.owner[m] == t && s.levels[m] < TopLevel(s.levels, st.rest)
    && StackOk(s, t, st.rest)
  }

  /** `sThisThreadHierarchy` is the level of the mutex locked last. */
  ghost predicate ThreadOk(s: State, t: nat)
    requires t < |s.threads|
  {
    var th := s.threads[t];
    && (if th.pc.Update? then FreshTop(s, t, th.stack, th.pc.m) else StackOk(s, t, th.stack))
    && match th.pc
       case Update(m) => th.stack.Held? && th.level == TopLevel(s.levels, th.stack.rest)
       case Unlock(m) => th.stack.Held? && th.stack.m == m && th.level == TopLevel(s.levels, th.stack.rest)
       case Acquire(m, _) => th.level == TopLevel(s.levels, th.stack) && IsMutex(s, m) && s.levels[m] < th.level
       case CheckLock(m, _) => th.level == TopLevel(s.levels, th.stack) && IsMutex(s, m)
       case CheckUnlock(m) => th.level == TopLevel(s.levels, th.stack) && On(th.stack, m)
       case _ => th.level == TopLevel(s.levels, th.stack)
  }

  ghost predicate OwnerOk(s: State, m: nat)
    requires m < |s.owner|
  {
    s.owner[m] != FREE ==> 0 <= s.owner[m] < |s.threads| && On(s.threads[s.owner[m]].stack, m)
  }

  ghost predicate Inv(s: State) {
    && |s.levels| == |s.previous| == |s.owner|
    && (forall m :: 0 <= m < |s.owner| ==> OwnerOk(s, m))
    && forall t :: 0 <= t < |s.threads| ==> ThreadOk(s, t)
  }

  // ---------------------------------------------------------------- stacks

  /** Owned mutexes that keep owner and record keep the stack. */
  lemma {:induction false} StackKept(s: State, s': State, t: int, st: Stack)
    requires StackOk(s, t, st) && s'.levels == s.levels && |s'.previous| == |s.previous| && |s'.owner| == |s.owner|
    requires forall m :: 0 <= m < |s.owner| && On(st, m) && m < |s.previous| ==>
               s'.owner[m] == s.owner[m] && s'.previous[m] == s.previous[m]
    ensures StackOk(s', t, st)
  {
    if st.Held? {
      StackKept(s, s', t, st.rest);
    }
  }

  /** What lies in a stack is owned by its thread and has at least the level of its top. */
  lemma {:induction false} StackMember(s: State, t: int, st: Stack, m: nat)
    requires StackOk(s, t, st) && On(st, m)
    ensures IsMutex(s, m) && s.owner[m] == t && TopLevel(s.levels, st) <= s.levels[m]
    ensures st.Held? && (st.m == m <==> TopLevel(s.levels, st) == s.levels[m])
  {
    if st.m != m {
      StackMember(s, t, st.rest, m);
    }
  }

  lemma NotBelow(s: State, t: int, st: Stack, m: nat)
    requires StackOk(s, t, st) && IsMutex(s, m) && (s.levels[m] < TopLevel(s.levels, st) || s.owner[m] != t)
    ensures !On(st, m)
  {
    if On(st, m) {
      StackMember(s, t, st, m);
    }
  }

  /** Unlocking a held mutex passes the check exactly when it was locked last: unlocking is LIFO. */
  lemma UnlockPassesIff(s: State, t: nat, m: nat)
    requires Inv(s) && t < |s.threads| && s.threads[t].pc == CheckUnlock(m)
    ensures s.threads[t].stack.Held? && IsMutex(s, m)
    ensures s.threads[t].level == s.levels[m] <==> s.threads[t].stack.m == m
  {
    assert ThreadOk(s, t);
    StackMember(s, t, s.threads[t].stack, m);
  }

  // ---------------------------------------------------------------- the steps

  lemma OtherKeeps(s: State, s': State, u: nat)
    requires u < |s.threads| == |s'.threads| && ThreadOk(s, u) && s'.threads[u] == s.threads[u]
    requires s'.levels == s.levels && |s'.previous| == |s.previous| && |s'.owner| == |s.owner|
    requires forall m :: 0 <= m < |s.owner| && s.owner[m] == u && m < |s.previous| ==>
               s'.owner[m] == u && s'.previous[m] == s.previous[m]
    ensures ThreadOk(s', u)
  {
    var th := s.threads[u];
    var st := if th.pc.Update? then th.stack.rest else th.stack;
    forall m | 0 <= m < |s.owner| && On(st, m) && m < |s.previous|
      ensures s'.owner[m] == s.owner[m] && s'.previous[m] == s.previous[m]
    {
      StackMember(s, u, st, m);
    }
    StackKept(s, s', u, st);
  }

  lemma OwnAcquire(s: State, t: nat)
    requires Inv(s) && Enabled(s, Run(t)) && s.threads[t].pc.Acquire?
    ensures ThreadOk(Next(s, Run(t)), t)
  {
    assert ThreadOk(s, t);
    var th := s.threads[t];
    NotBelow(s, t, th.stack, th.pc.m);
    StackKept(s, Next(s, Run(t)), t, th.stack);
  }

  lemma OwnUpdate(s: State, t: nat)
    requires Inv(s) && Enabled(s, Run(t)) && s.threads[t].pc.Update?
    ensures ThreadOk(Next(s, Run(t)), t)
  {
    assert ThreadOk(s, t);
    var th := s.threads[t];
    NotBelow(s, t, th.stack.rest, th.pc.m);
    StackKept(s, Next(s, Run(t)), t, th.stack.rest);
  }

  lemma OwnUnlock(s: State, t: nat)
    requires Inv(s) && Enabled(s, Run(t)) && s.threads[t].pc.Unlock?
    ensures ThreadOk(Next(s, Run(t)), t)
  {
    assert ThreadOk(s, t);
    var th := s.threads[t];
    NotBelow(s, t, th.stack.rest, th.pc.m);
    StackKept(s, Next(s, Run(t)), t, th.stack.rest);
  }

  /** Steps that change only the thread's own level and program point. */
  lemma OwnOther(s: State, a: Step)
    requires Inv(s) && Enabled(s, a)
    requires a.Run? ==> s.threads[a.t].pc.CheckLock? || s.threads[a.t].pc.CheckUnlock?
    ensures ThreadOk(Next(s, a), a.t)
  {
    assert ThreadOk(s, a.t);
    var th := s.threads[a.t];
    StackKept(s, Next(s, a), a.t, th.stack);
    if a.Run? && th.pc.CheckUnlock? {
      UnlockPassesIff(s, a.t, th.pc.m);
    }
  }

  lemma OwnersKeep(s: State, a: Step, m: nat)
    requires Inv(s) && Enabled(s, a) && m < |s.owner|
    ensures |Next(s, a).owner| == |s.owner| && |Next(s, a).previous| == |s.previous| && OwnerOk(Next(s, a), m)
  {
    assert ThreadOk(s, a.t) && OwnerOk(s, m);
    var th := s.threads[a.t];
    if a.Run? && th.pc.Unlock? && s.owner[m] == a.t && m != th.pc.m {
      assert On(th.stack, m);
    }
  }

  /** A step leaves alone the mutexes of other threads. */
  lemma OthersKeep(s: State, a: Step, u: nat)
    requires Inv(s) && Enabled(s, a) && u < |s.threads| && u != a.t
    ensures u < |Next(s, a).threads| && ThreadOk(Next(s, a), u)
  {
    assert ThreadOk(s, a.t) && ThreadOk(s, u);
    if a.Run? && s.threads[a.t].pc.Unlock? {
      StackMember(s, a.t, s.threads[a.t].stack, s.threads[a.t].pc.m);
    }
    OtherKeeps(s, Next(s, a), u);
  }

  /** Every step of every thread keeps the stacks. */
  lemma StepKeeps(s: State, a: Step)
    requires Inv(s) && Enabled(s, a)
    ensures Inv(Next(s, a))
  {
    var pc := s.threads[a.t].pc;
    if a.Run? && pc.Acquire? {
      OwnAcquire(s, a.t);
    } else if a.Run? && pc.Update? {
      OwnUpdate(s, a.t);
    } else if a.Run? && pc.Unlock? {
      OwnUnlock(s, a.t);
    } else {
      OwnOther(s, a);
    }
    var s' := Next(s, a);
    assert |s.owner| == |s.levels| == |s.previous|;
    assert |s'.owner| == |s.owner| && |s'.previous| == |s.previous|;
    hide ThreadOk, OwnerOk, Next, Enabled;
    forall m | 0 <= m < |s'.owner| ensures OwnerOk(s', m) {
      OwnersKeep(s, a, m);
    }
    forall u | 0 <= u < |s'.threads| ensures ThreadOk(s', u) {
      if u != a.t {
        OthersKeep(s, a, u);
      }
    }
  }

  // ---------------------------------------------------------------- waiting

  /** Thread `t` waits for a mutex that thread `u` owns. */
  predicate WaitsFor(s: State, t: nat, u: nat) {
    && t < |s.threads| && u < |s.threads|
    && s.threads[t].pc.Acquire? && !s.threads[t].pc.try
    && IsMutex(s, s.threads[t].pc.m) && s.owner[s.threads[t].pc.m] == u
  }

  predicate IsPath(s: State, path: seq<nat>) { forall i :: 0 <= i < |path| - 1 ==> WaitsFor(s, path[i], path[i + 1]) }

  /** A thread that waits wants a lower level than that of anything it owns. */
  lemma WantsLower(s: State, t: nat, m: nat)
    requires Inv(s) && t < |s.threads| && s.threads[t].pc.Acquire? && m < |s.owner| && s.owner[m] == t
    ensures IsMutex(s, s.threads[t].pc.m) && IsMutex(s, m) && s.levels[s.threads[t].pc.m] < s.levels[m]
  {
    assert ThreadOk(s, t) && OwnerOk(s, m);
    StackMember(s, t, s.threads[t].stack, m);
  }

  /** Along a chain of waiting threads the wanted levels decrease strictly. */
  lemma {:induction false} ChainDecreases(s: State, path: seq<nat>)
    requires Inv(s) && |path| >= 2 && IsPath(s, path)
    requires path[|path| - 1] < |s.threads| && s.threads[path[|path| - 1]].pc.Acquire?
    ensures WaitsFor(s, path[0], path[1])
    ensures var last := s.threads[path[|path| - 1]].pc.m;
            IsMutex(s, last) && s.levels[last] < s.levels[s.threads[path[0]].pc.m]
  {
    assert WaitsFor(s, path[0], path[1]);
    var n := |path|;
    var u := path[n - 1];
    assert WaitsFor(s, path[n - 2], path[n - 1]);
    WantsLower(s, u, s.threads[path[n - 2]].pc.m);
    if n > 2 {
      var shorter := path[..n - 1];
      assert forall i :: 0 <= i < |shorter| - 1 ==> WaitsFor(s, shorter[i], shorter[i + 1]) by {
        assert forall i :: 0 <= i < n - 1 ==> WaitsFor(s, path[i], path[i + 1]);
      }
      ChainDecreases(s, shorter);
    }
  }

  /** No deadlock: no chain of waiting threads comes back to where it began. */
  lemma NoCycle(s: State, path: seq<nat>)
    requires Inv(s) && |path| >= 2 && IsPath(s, path)
    ensures path[0] != path[|path| - 1]
  {
    if path[0] == path[|path| - 1] {
      assert WaitsFor(s, path[0], path[1]);
      ChainDecreases(s, path);
    }
  }

  // ---------------------------------------------------------------- whole runs

  ghost predicate IsRun(states: seq<State>, steps: seq<Step>) {
    && |states| == |steps| + 1 && Init(states[0])
    && forall i :: 0 <= i < |steps| ==> Enabled(states[i], steps[i]) && states[i + 1] == Next(states[i], steps[i])
  }

  lemma {:induction false} RunKeeps(states: seq<State>, steps: seq<Step>, n: nat)
    requires IsRun(states, steps) && n <= |steps|
    ensures Inv(states[n])
  {
    if n != 0 {
      RunKeeps(states, steps, n - 1);
      hide Inv, Next, Enabled;
      StepKeeps(states[n - 1], steps[n - 1]);
    }
  }

  /** The wait-for graph is acyclic in every reachable state. */
  lemma RunsNeverDeadlock(states: seq<State>, steps: seq<Step>, n: nat, path: seq<nat>)
    requires IsRun(states, steps) && n <= |steps| && |path| >= 2 && IsPath(states[n], path)
    ensures path[0] != path[|path| - 1]
  {
    RunKeeps(states, steps, n);
    NoCycle(states[n], path);
  }

  ghost predicate Decreasing(levels: seq<nat>, st: Stack) {
    st.Held? ==> st.m < |levels| && levels[st.m] < TopLevel(levels, st.rest) && Decreasing(levels, st.rest)
  }

  lemma {:induction false} StackDecreases(s: State, t: int, st: Stack)
    requires StackOk(s, t, st)
    ensures Decreasing(s.levels, st)
  {
    if st.Held? {
      StackDecreases(s, t, st.rest);
    }
  }

  /** In every reachable state each thread's held levels decrease strictly, topped by its own level when it is idle. */
  lemma HeldLevelsDecrease(states: seq<State>, steps: seq<Step>, n: nat, t: nat)
    requires IsRun(states, steps) && n <= |steps| && t < |states[n].threads|
    ensures var s := states[n];
            && Decreasing(s.levels, s.threads[t].stack)
            && (s.threads[t].pc.Idle? ==> s.threads[t].level == TopLevel(s.levels, s.threads[t].stack))
  {
    RunKeeps(states, steps, n);
    var s, th := states[n], states[n].threads[t];
    assert ThreadOk(s, t);
    StackDecreases(s, t, if th.pc.Update? then th.stack.rest else th.stack);
  }
}
