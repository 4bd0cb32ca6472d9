/**
  The list of hazard slots and its counter: any number of threads append slots, while others
  decide on a scan by the counter and then walk the list.

  A slot is linked once and never taken out.  `append` raises the counter before its CAS loop.
*/
module HazardSlots {
  import opened Sequences

  const NULL: int := -1

  /** `size` is the counter value a scan was decided on, `seen` the slots it has visited. */
  datatype Pc =
    | Idle
    | LoadHead(n: int)
    | RaiseSize(n: int)
    | CasHead(n: int)
    | LoadSize
    | WalkHead(size: nat)
    | Walk(size: nat, cur: int, seen: nat)
    | Walked(size: nat, seen: nat)

  datatype State = State(next: seq<int>, head: int, mSize: nat, threads: seq<Pc>)

  datatype Step = BeginAppend(t: nat) | BeginScan(t: nat) | Run(t: nat) | FailSpuriously(t: nat)

  ghost predicate Init(s: State) {
    s.next == [] && s.head == NULL && s.mSize == 0 && forall t :: 0 <= t < |s.threads| ==> s.threads[t].Idle?
  }

  predicate IsSlot(s: State, n: int) { 0 <= n < |s.next| }

  predicate Enabled(s: State, a: Step) {
    && a.t < |s.threads|
    && match a
       case BeginAppend(t) => s.threads[t].Idle?
       case BeginScan(t) => s.threads[t].Idle?
       case FailSpuriously(t) => s.threads[t].CasHead? && IsSlot(s, s.threads[t].n)
       case Run(t) =>
         match s.threads[t]
         case Idle => false
         case LoadHead(n) => IsSlot(s, n)
         case CasHead(n) => IsSlot(s, n)
         case Walk(_, cur, _) => cur != NULL ==> IsSlot(s, cur)
         case _ => true
  }

  function Goto(s: State, t: nat, pc: Pc): State
    requires t < |s.threads|
  {
    s.(threads := s.threads[t := pc])
  }

  function Next(s: State, a: Step): (s': State)
    requires Enabled(s, a)
    ensures |s'.threads| == |s.threads| && s'.threads == s.threads[a.t := s'.threads[a.t]]
  {
    match a
    case BeginAppend(t) => Goto(s.(next := s.next + [NULL]), t, LoadHead(|s.next|))
    case BeginScan(t) => Goto(s, t, LoadSize)
    case FailSpuriously(t) => s.(next := s.next[s.threads[t].n := s.head])
    case Run(t) =>
      match s.threads[t]
      case LoadHead(n) => Goto(s.(next := s.next[n := s.head]), t, RaiseSize(n))
      case RaiseSize(n) => Goto(s.(mSize := s.mSize + 1), t, CasHead(n))
      case CasHead(n) =>
        if s.head == s.next[n] then Goto(s.(head := n), t, Idle) else s.(next := s.next[n := s.head])
      case LoadSize => Goto(s, t, WalkHead(s.mSize))
      case WalkHead(size) => Goto(s, t, Walk(size, s.head, 0))
      case Walk(size, cur, seen) =>
        Goto(s, t, if cur == NULL then Walked(size, seen) else Walk(size, s.next[cur], seen + 1))
      case Walked(_, _) => Goto(s, t, Idle)
  }

  // ---------------------------------------------------------------- the invariant

  /** The slot behind position `i`. */
  function Follower(c: seq<int>, i: nat): int
    requires i < |c|
  {
    if i + 1 < |c| then c[i + 1] else NULL
  }

  ghost predicate Chain(next: seq<int>, head: int, c: seq<int>) {
    && head == (if c == [] then NULL else c[0])
    && forall i :: 0 <= i < |c| ==> 0 <= c[i] < |next| && next[c[i]] == Follower(c, i)
  }

  /** The slot a thread has made and not linked yet. */
  function OwnSlot(pc: Pc): int { if pc.LoadHead? || pc.RaiseSize? || pc.CasHead? then pc.n else NULL }

  /** A walk has seen no more slots than lie before the one it looks at. */
  ghost predicate WalkOk(c: seq<int>, cur: int, seen: nat) {
    if cur == NULL then seen <= |c| else exists p :: seen <= p < |c| && c[p] == cur
  }

  ghost predicate ThreadOk(s: State, c: seq<int>, pc: Pc) {
    && (OwnSlot(pc) != NULL ==> IsSlot(s, OwnSlot(pc)) && OwnSlot(pc) !in c)
    && match pc
       case WalkHead(size) => size <= s.mSize
       case Walk(size, cur, seen) => size <= s.mSize && WalkOk(c, cur, seen)
       case Walked(size, seen) => size <= s.mSize && seen <= |c|
       case _ => true
  }

  /** Slots that are counted and not linked. */
  function Pending(pc: Pc): int { if pc.CasHead? then 1 else 0 }

  function AllPending(ths: seq<Pc>): int { Sum(seq(|ths|, t requires 0 <= t < |ths| => Pending(ths[t]))) }

  ghost predicate SlotsDistinct(ths: seq<Pc>) {
    forall t, u :: 0 <= t < u < |ths| && OwnSlot(ths[t]) != NULL ==> OwnSlot(ths[t]) != OwnSlot(ths[u])
  }

  /** `c` lists the linked slots, newest first. */
  ghost predicate Inv(s: State, c: seq<int>) {
    && Chain(s.next, s.head, c)
    && s.mSize == |c| + AllPending(s.threads)
    && SlotsDistinct(s.threads)
    && forall t :: 0 <= t < |s.threads| ==> ThreadOk(s, c, s.threads[t])
  }

  function ChainNext(s: State, a: Step, c: seq<int>): seq<int>
    requires Enabled(s, a)
  {
    if a.Run? && s.threads[a.t].CasHead? && s.head == s.next[s.threads[a.t].n] then [s.threads[a.t].n] + c else c
  }

  lemma PendingMoves(ths: seq<Pc>, t: nat, pc: Pc)
    requires t < |ths|
    ensures AllPending(ths[t := pc]) == AllPending(ths) - Pending(ths[t]) + Pending(pc)
  {
    var counted := seq(|ths|, u requires 0 <= u < |ths| => Pending(ths[u]));
    SumUpdate(counted, t, Pending(pc));
    assert counted[t := Pending(pc)] == seq(|ths|, u requires 0 <= u < |ths| => Pending(ths[t := pc][u]));
  }

  lemma PendingIsNatural(ths: seq<Pc>)
    ensures AllPending(ths) >= 0
  {
    SumIsNatural(seq(|ths|, t requires 0 <= t < |ths| => Pending(ths[t])));
  }

  lemma WalkSurvives(c: seq<int>, n: int, cur: int, seen: nat)
    requires WalkOk(c, cur, seen)
    ensures WalkOk([n] + c, cur, seen)
  {
    if cur != NULL {
      var p :| seen <= p < |c| && c[p] == cur;
      assert ([n] + c)[p + 1] == cur;
    }
  }

  lemma ChainKeeps(s: State, c: seq<int>, a: Step)
    requires Inv(s, c) && Enabled(s, a)
    ensures Chain(Next(s, a).next, Next(s, a).head, ChainNext(s, a, c))
  {
    var pc := s.threads[a.t];
    assert ThreadOk(s, c, pc);
    assert OwnSlot(pc) != NULL ==> OwnSlot(pc) !in c;
    hide AllPending, SlotsDistinct, WalkOk;
  }

  lemma SizeKeeps(s: State, c: seq<int>, a: Step)
    requires Inv(s, c) && Enabled(s, a)
    ensures Next(s, a).mSize == |ChainNext(s, a, c)| + AllPending(Next(s, a).threads)
    ensures Next(s, a).mSize >= s.mSize
  {
    PendingMoves(s.threads, a.t, Next(s, a).threads[a.t]);
    hide AllPending, SlotsDistinct, Chain, ThreadOk;
  }

  lemma DistinctKeeps(s: State, c: seq<int>, a: Step)
    requires Inv(s, c) && Enabled(s, a)
    ensures SlotsDistinct(Next(s, a).threads)
  {
    forall t, u | 0 <= t < u < |s.threads| && OwnSlot(Next(s, a).threads[t]) != NULL
      ensures OwnSlot(Next(s, a).threads[t]) != OwnSlot(Next(s, a).threads[u])
    {
      assert ThreadOk(s, c, s.threads[t]) && ThreadOk(s, c, s.threads[u]);
    }
  }

  lemma OtherKeeps(s: State, c: seq<int>, a: Step, u: nat)
    requires Inv(s, c) && Enabled(s, a) && u < |s.threads| && u != a.t
    ensures ThreadOk(Next(s, a), ChainNext(s, a, c), s.threads[u])
  {
    var pc := s.threads[u];
    assert ThreadOk(s, c, pc);
    SizeKeeps(s, c, a);
    if pc.Walk? {
      WalkSurvives(c, OwnSlot(s.threads[a.t]), pc.cur, pc.seen);
    }
    hide AllPending, Chain, WalkOk;
  }

  lemma OwnKeeps(s: State, c: seq<int>, a: Step)
    requires Inv(s, c) && Enabled(s, a)
    ensures ThreadOk(Next(s, a), ChainNext(s, a, c), Next(s, a).threads[a.t])
  {
    var pc := s.threads[a.t];
    assert ThreadOk(s, c, pc);
    if a.Run? && pc.Walk? && pc.cur != NULL {
      var p :| pc.seen <= p < |c| && c[p] == pc.cur;
      assert s.next[c[p]] == Follower(c, p);
      assert WalkOk(c, s.next[pc.cur], pc.seen + 1);
    } else if a.Run? && pc.WalkHead? {
      assert WalkOk(c, s.head, 0) by { assert c != [] ==> c[0] == s.head; }
    }
    hide AllPending, SlotsDistinct;
  }

  /** Every step keeps the counter equal to the linked slots and those about to be linked. */
  lemma StepKeeps(s: State, c: seq<int>, a: Step)
    requires Inv(s, c) && Enabled(s, a)
    ensures Inv(Next(s, a), ChainNext(s, a, c)) && Next(s, a).mSize >= s.mSize
  {
    ChainKeeps(s, c, a);
    SizeKeeps(s, c, a);
    DistinctKeeps(s, c, a);
    OwnKeeps(s, c, a);
    hide ThreadOk, SlotsDistinct, Chain, AllPending, ChainNext;
    forall u | 0 <= u < |s.threads| && u != a.t ensures ThreadOk(Next(s, a), ChainNext(s, a, c), s.threads[u]) {
      OtherKeeps(s, c, a, u);
    }
  }

  // ---------------------------------------------------------------- whole runs

  ghost predicate IsRun(states: seq<State>, steps: seq<Step>) {
    && |states| == |steps| + 1 && Init(states[0])
    && forall i :: 0 <= i < |steps| ==> Enabled(states[i], steps[i]) && states[i + 1] == Next(states[i], steps[i])
  }

  lemma InitOk(s: State)
    requires Init(s)
    ensures Inv(s, [])
  {
    NonePending(s.threads);
  }

  lemma NonePending(ths: seq<Pc>)
    requires forall t :: 0 <= t < |ths| ==> ths[t].Idle?
    ensures AllPending(ths) == 0
  {
    SumOfZeros(seq(|ths|, t requires 0 <= t < |ths| => Pending(ths[t])));
  }

  lemma {:induction false} RunKeeps(states: seq<State>, steps: seq<Step>, n: nat) returns (c: seq<int>)
    requires IsRun(states, steps) && n <= |steps|
    ensures Inv(states[n], c)
  {
    hide Inv, Next, Enabled;
    if n == 0 {
      InitOk(states[0]);
      c := [];
    } else {
      var c0 := RunKeeps(states, steps, n - 1);
      StepKeeps(states[n - 1], c0, steps[n - 1]);
      c := ChainNext(states[n - 1], steps[n - 1], c0);
    }
  }

  /**
    Whatever threads append meanwhile: the counter value a scan was decided on and the number of
    slots the scan has visited are at most the counter's value when the scan is done.
  */
  lemma ScanSeesCounted(states: seq<State>, steps: seq<Step>, n: nat, t: nat)
    requires IsRun(states, steps) && n <= |steps| && t < |states[n].threads| && states[n].threads[t].Walked?
    ensures states[n].threads[t].size <= states[n].mSize && states[n].threads[t].seen <= states[n].mSize
  {
    var c := RunKeeps(states, steps, n);
    assert ThreadOk(states[n], c, states[n].threads[t]);
    PendingIsNatural(states[n].threads);
  }

  /** The counter never decreases. */
  lemma {:induction false} CounterGrows(states: seq<State>, steps: seq<Step>, i: nat, j: nat)
    requires IsRun(states, steps) && i <= j <= |steps|
    ensures states[i].mSize <= states[j].mSize
    decreases j
  {
    if i < j {
      CounterGrows(states, steps, i, j - 1);
    }
  }
}
