/**
  `retire` and the reclamation it starts, over one run: threads that add hazard slots, store
  pointers in them, retire pointers, take over the global list, read the slots one by one and free
  what they have not found there, in any interleaving.

  The list of slots is that of `HazardSlots`, what a scan keeps is that of `DeleteLists`.  Taking
  over the exchanged list and filtering one's own touch no shared state and are one step each; an
  exit is its successful CAS (`RetiredLists` has the loop).
*/
module HazardDomain {
  import opened Sequences
  import D = DeleteLists
  import H = HazardSlots

  /** Where a thread stands in `retire`; `found` are the pointers it has read from slots so far. */
  datatype Work = Resting | Testing | Looking | Taking | Scanning(found: seq<int>) | Exited

  /** `values[n]` is the pointer in slot `n`. */
  datatype State = State(
    slots: H.State, values: seq<int>, global: seq<int>, local: seq<seq<int>>, work: seq<Work>)

  datatype Step =
    | Slot(a: H.Step)
    | Store(n: int, p: int)
    | Retire(t: nat, p: int)
    | Test(t: nat)
    | Reclaim(t: nat)
    | Look(t: nat)
    | Take(t: nat)
    | Scan(t: nat)
    | Filter(t: nat)
    | Exit(t: nat)

  ghost predicate Init(s: State) {
    && H.Init(s.slots) && s.values == [] && s.global == [] && |s.local| == |s.work| == |s.slots.threads|
    && forall t :: 0 <= t < |s.work| ==> s.local[t] == [] && s.work[t] == Resting
  }

  predicate IsThread(s: State, t: nat) { t < |s.work| == |s.local| == |s.slots.threads| }

  /** The thread is in no call that works on the list of slots. */
  predicate IsFree(s: State, t: nat) { IsThread(s, t) && s.work[t].Resting? && s.slots.threads[t].Idle? }

  /** Nobody has retired `p` since it was last freed. */
  ghost predicate Unretired(s: State, p: int) {
    p !in s.global && forall t :: 0 <= t < |s.local| ==> p !in s.local[t]
  }

  ghost predicate Enabled(s: State, a: Step) {
    && |s.values| == |s.slots.next|
    && match a
       case Slot(b) => IsThread(s, b.t) && s.work[b.t].Resting? && !b.BeginScan? && H.Enabled(s.slots, b)
       case Store(n, _) => H.IsSlot(s.slots, n)
       case Retire(t, p) => IsFree(s, t) && Unretired(s, p)
       case Test(t) => IsThread(s, t) && s.work[t].Testing?
       case Reclaim(t) => IsFree(s, t)
       case Look(t) => IsThread(s, t) && s.work[t].Looking? && s.slots.threads[t].Idle?
       case Take(t) => IsThread(s, t) && s.work[t].Taking? && s.slots.threads[t].Idle?
       case Scan(t) => ReadsSlots(s, t) && !s.slots.threads[t].Walked?
       case Filter(t) => ReadsSlots(s, t) && s.slots.threads[t].Walked?
       case Exit(t) => IsFree(s, t)
  }

  predicate ReadsSlots(s: State, t: nat) {
    IsThread(s, t) && s.work[t].Scanning? && H.Enabled(s.slots, H.Run(t))
  }

  /** The pointers found after the next step of a scan. */
  function FoundNext(s: State, t: nat): seq<int>
    requires ReadsSlots(s, t) && |s.values| == |s.slots.next|
  {
    var pc := s.slots.threads[t];
    if pc.Walk? && pc.cur != H.NULL then s.work[t].found + [s.values[pc.cur]] else s.work[t].found
  }

  function BeginScan(s: State, t: nat): State
    requires IsThread(s, t) && s.slots.threads[t].Idle?
  {
    s.(slots := H.Next(s.slots, H.BeginScan(t)), work := s.work[t := Scanning([])])
  }

  ghost function Next(s: State, a: Step): State
    requires Enabled(s, a)
  {
    match a
    case Slot(b) => s.(slots := H.Next(s.slots, b), values := if b.BeginAppend? then s.values + [H.NULL] else s.values)
    case Store(n, p) => s.(values := s.values[n := p])
    case Retire(t, p) => s.(local := s.local[t := [p] + s.local[t]], work := s.work[t := Testing])
    case Test(t) =>
      s.(work := s.work[t := if 2 * s.slots.mSize < |s.local[t]| then Looking else Resting])
    case Reclaim(t) => s.(work := s.work[t := Looking])
    case Look(t) => if s.global == [] then BeginScan(s, t) else s.(work := s.work[t := Taking])
    case Take(t) => BeginScan(s.(global := [], local := s.local[t := D.Reversed(s.global) + s.local[t]]), t)
    case Scan(t) => s.(slots := H.Next(s.slots, H.Run(t)), work := s.work[t := Scanning(FoundNext(s, t))])
    case Filter(t) =>
      var kept := D.Reversed(D.Kept(s.local[t], s.work[t].found));
      s.(slots := H.Next(s.slots, H.Run(t)), local := s.local[t := kept], work := s.work[t := Resting])
    case Exit(t) => s.(global := s.local[t] + s.global, local := s.local[t := []], work := s.work[t := Exited])
  }

  // ---------------------------------------------------------------- the invariant

  predicate Scans(pc: H.Pc) { pc.LoadSize? || pc.WalkHead? || pc.Walk? || pc.Walked? }

  function Visited(pc: H.Pc): nat { if pc.Walk? || pc.Walked? then pc.seen else 0 }

  ghost predicate WorkOk(mSize: nat, pc: H.Pc, l: seq<int>, w: Work) {
    match w
    case Resting => !Scans(pc) && |l| <= 2 * mSize
    case Testing => pc.Idle? && |l| <= 2 * mSize + 1
    case Looking => pc.Idle?
    case Taking => pc.Idle?
    case Scanning(found) => Scans(pc) && |found| == Visited(pc)
    case Exited => pc.Idle? && l == []
  }

  ghost predicate Apart(a: seq<int>, b: seq<int>) { forall p :: p in a ==> p !in b }

  /** No pointer is listed twice. */
  ghost predicate ListsOk(local: seq<seq<int>>, global: seq<int>) {
    && Distinct(global)
    && (forall t :: 0 <= t < |local| ==> Distinct(local[t]) && Apart(local[t], global))
    && forall t, u :: 0 <= t < |local| && 0 <= u < |local| && t != u ==> Apart(local[t], local[u])
  }

  ghost predicate Inv(s: State, c: seq<int>) {
    && H.Inv(s.slots, c) && |s.values| == |s.slots.next| && |s.local| == |s.work| == |s.slots.threads|
    && ListsOk(s.local, s.global)
    && forall t :: 0 <= t < |s.work| ==> WorkOk(s.slots.mSize, s.slots.threads[t], s.local[t], s.work[t])
  }

  /** The step of the list of slots that a step contains, if any. */
  ghost function SlotStep(s: State, a: Step): Option<H.Step>
    requires Enabled(s, a)
  {
    match a
    case Slot(b) => Some(b)
    case Look(t) => if s.global == [] then Some(H.BeginScan(t)) else None
    case Take(t) => Some(H.BeginScan(t))
    case Scan(t) => Some(H.Run(t))
    case Filter(t) => Some(H.Run(t))
    case _ => None
  }

  ghost function ChainNext(s: State, a: Step, c: seq<int>): seq<int>
    requires Enabled(s, a)
  {
    var b := SlotStep(s, a);
    if b.Some? then H.ChainNext(s.slots, b.value, c) else c
  }

  // ---------------------------------------------------------------- every step keeps it

  /** The new list of a thread and the new global list have nothing in common with the other lists. */
  lemma ListsMove(local: seq<seq<int>>, global: seq<int>, t: nat, l: seq<int>, global': seq<int>)
    requires ListsOk(local, global) && t < |local| && Distinct(l) && Distinct(global') && Apart(l, global')
    requires forall u :: 0 <= u < |local| && u != t ==> Apart(l, local[u]) && Apart(global', local[u])
    ensures ListsOk(local[t := l], global')
  {
    var local' := local[t := l];
    forall u, v | 0 <= u < |local| && 0 <= v < |local| && u != v ensures Apart(local'[u], local'[v]) {
      assert Apart(local[u], local[v]);
    }
  }

  lemma JoinDistinct(a: seq<int>, b: seq<int>)
    requires Distinct(a) && Distinct(b) && Apart(a, b)
    ensures Distinct(a + b)
  {
    forall i, j | 0 <= i < j < |a + b| ensures (a + b)[i] != (a + b)[j] {
      if i < |a| <= j {
        assert a[i] in a && b[j - |a|] in b;
      }
    }
  }

  lemma {:induction false} ReversedDistinct(q: seq<int>)
    requires Distinct(q)
    ensures Distinct(D.Reversed(q))
  {
    if q != [] {
      ReversedDistinct(q[1..]);
      JoinDistinct(D.Reversed(q[1..]), [q[0]]);
    }
  }

  lemma RetireLists(s: State, t: nat, p: int)
    requires ListsOk(s.local, s.global) && t < |s.local| && Unretired(s, p)
    ensures ListsOk(s.local[t := [p] + s.local[t]], s.global)
  {
    JoinDistinct([p], s.local[t]);
    ListsMove(s.local, s.global, t, [p] + s.local[t], s.global);
  }

  lemma TakeLists(s: State, t: nat)
    requires ListsOk(s.local, s.global) && t < |s.local|
    ensures ListsOk(s.local[t := D.Reversed(s.global) + s.local[t]], [])
  {
    ReversedDistinct(s.global);
    JoinDistinct(D.Reversed(s.global), s.local[t]);
    ListsMove(s.local, s.global, t, D.Reversed(s.global) + s.local[t], []);
  }

  lemma ExitLists(s: State, t: nat)
    requires ListsOk(s.local, s.global) && t < |s.local|
    ensures ListsOk(s.local[t := []], s.local[t] + s.global)
  {
    JoinDistinct(s.local[t], s.global);
    ListsMove(s.local, s.global, t, [], s.local[t] + s.global);
  }

  /** What survives a scan are different pointers that it has found in slots. */
  lemma FilterLists(s: State, t: nat, found: seq<int>)
    requires ListsOk(s.local, s.global) && t < |s.local|
    ensures var kept := D.Reversed(D.Kept(s.local[t], found));
            ListsOk(s.local[t := kept], s.global) && |kept| <= |found|
  {
    var kept := D.Kept(s.local[t], found);
    D.KeptDistinct(s.local[t], found);
    D.ScanBound(s.local[t], found);
    ReversedDistinct(kept);
    ListsMove(s.local, s.global, t, D.Reversed(kept), s.global);
  }

  lemma ListsKeep(s: State, a: Step, c: seq<int>)
    requires Inv(s, c) && Enabled(s, a)
    ensures ListsOk(Next(s, a).local, Next(s, a).global)
  {
    hide ListsOk, H.Inv, Unretired;
    match a
    case Retire(t, p) => RetireLists(s, t, p);
    case Take(t) => TakeLists(s, t);
    case Exit(t) => ExitLists(s, t);
    case Filter(t) => FilterLists(s, t, s.work[t].found);
    case _ =>
  }

  /** The thread a step belongs to; storing a pointer in a slot changes no thread. */
  function Actor(a: Step): int {
    match a
    case Slot(b) => b.t
    case Store(_, _) => -1
    case _ => a.t
  }

  lemma OthersKeep(s: State, a: Step)
    requires Enabled(s, a) && |s.local| == |s.work| == |s.slots.threads|
    ensures var s' := Next(s, a);
            && |s'.values| == |s'.slots.next| && |s'.local| == |s'.work| == |s'.slots.threads| == |s.work|
            && forall u :: 0 <= u < |s.work| && u != Actor(a) ==>
                 s'.slots.threads[u] == s.slots.threads[u] && s'.local[u] == s.local[u] && s'.work[u] == s.work[u]
  {
    hide Unretired;
  }

  lemma SlotsKeep(s: State, a: Step, c: seq<int>)
    requires Inv(s, c) && Enabled(s, a)
    ensures H.Inv(Next(s, a).slots, ChainNext(s, a, c)) && Next(s, a).slots.mSize >= s.slots.mSize
  {
    var b := SlotStep(s, a);
    hide H.Inv, H.ChainNext, ListsOk, WorkOk, Unretired, D.Kept;
    if b.Some? {
      hide Next;
      H.StepKeeps(s.slots, c, b.value);
      SlotsMove(s, a);
    }
  }

  lemma SlotsMove(s: State, a: Step)
    requires Enabled(s, a) && SlotStep(s, a).Some?
    ensures H.Enabled(s.slots, SlotStep(s, a).value)
    ensures Next(s, a).slots == H.Next(s.slots, SlotStep(s, a).value)
  {
    hide H.Next, Unretired;
  }

  /** A scan that ends has visited at most as many slots as the counter says. */
  lemma WalkIsCounted(slots: H.State, c: seq<int>, t: nat)
    requires H.Inv(slots, c) && t < |slots.threads| && slots.threads[t].Walked?
    ensures slots.threads[t].seen <= slots.mSize
  {
    assert H.ThreadOk(slots, c, slots.threads[t]);
    H.PendingIsNatural(slots.threads);
  }

  lemma FilterKeeps(s: State, t: nat, c: seq<int>)
    requires Inv(s, c) && Enabled(s, Filter(t))
    ensures var s' := Next(s, Filter(t));
            && t < |s'.work| == |s'.local| == |s'.slots.threads|
            && WorkOk(s'.slots.mSize, s'.slots.threads[t], s'.local[t], s'.work[t])
  {
    assert WorkOk(s.slots.mSize, s.slots.threads[t], s.local[t], s.work[t]);
    FilterLists(s, t, s.work[t].found);
    WalkIsCounted(s.slots, c, t);
    hide H.Inv, ListsOk, Unretired;
  }

  lemma ActorKeeps(s: State, a: Step)
    requires Enabled(s, a) && Actor(a) >= 0 && !a.Filter? && |s.local| == |s.work| == |s.slots.threads|
    requires WorkOk(s.slots.mSize, s.slots.threads[Actor(a)], s.local[Actor(a)], s.work[Actor(a)])
    requires Next(s, a).slots.mSize >= s.slots.mSize
    ensures var s', t := Next(s, a), Actor(a);
            && t < |s'.work| == |s'.local| == |s'.slots.threads|
            && WorkOk(s'.slots.mSize, s'.slots.threads[t], s'.local[t], s'.work[t])
  {
    hide Unretired;
  }

  /** Every step keeps the lists within their bounds and each pointer in one list. */
  lemma StepKeeps(s: State, a: Step, c: seq<int>)
    requires Inv(s, c) && Enabled(s, a)
    ensures Inv(Next(s, a), ChainNext(s, a, c))
  {
    ListsKeep(s, a, c);
    SlotsKeep(s, a, c);
    OthersKeep(s, a);
    if a.Filter? {
      FilterKeeps(s, a.t, c);
    } else if Actor(a) >= 0 {
      ActorInRange(s, a);
      hide Next;
      ActorKeeps(s, a);
    }
    hide H.Inv, ListsOk, Next, Enabled, ChainNext;
  }

  lemma ActorInRange(s: State, a: Step)
    requires Enabled(s, a) && Actor(a) >= 0
    ensures Actor(a) < |s.work|
  {
    hide Unretired;
  }

  // ---------------------------------------------------------------- whole runs

  ghost predicate IsRun(states: seq<State>, steps: seq<Step>) {
    && |states| == |steps| + 1 && Init(states[0])
    && forall i :: 0 <= i < |steps| ==> Enabled(states[i], steps[i]) && states[i + 1] == Next(states[i], steps[i])
  }

  lemma {:induction false} RunKeeps(states: seq<State>, steps: seq<Step>, n: nat) returns (c: seq<int>)
    requires IsRun(states, steps) && n <= |steps|
    ensures Inv(states[n], c)
  {
    if n == 0 {
      H.InitOk(states[0].slots);
      c := [];
    } else {
      var c0 := RunKeeps(states, steps, n - 1);
      hide Inv, Next, Enabled;
      StepKeeps(states[n - 1], steps[n - 1], c0);
      c := ChainNext(states[n - 1], steps[n - 1], c0);
    }
  }

  /**
    In every run, whatever other threads append, store, retire, scan or leave behind: a thread that
    is not inside `retire` has at most twice as many pointers in its list as the counter of hazard
    slots says.
  */
  lemma ListsAreBounded(states: seq<State>, steps: seq<Step>, n: nat, t: nat)
    requires IsRun(states, steps) && n <= |steps| && t < |states[n].work| && states[n].work[t].Resting?
    ensures t < |states[n].local| && |states[n].local[t]| <= 2 * states[n].slots.mSize
  {
    var c := RunKeeps(states, steps, n);
    hide H.Inv, ListsOk;
    assert WorkOk(states[n].slots.mSize, states[n].slots.threads[t], states[n].local[t], states[n].work[t]);
  }

  // ---------------------------------------------------------------- nothing is lost

  function RetiredIn(a: Step): multiset<int> { if a.Retire? then multiset{a.p} else multiset{} }

  /** What a step frees: the pointers of the list that the scan has not found in a slot. */
  ghost function FreedIn(s: State, a: Step): multiset<int>
    requires Enabled(s, a)
  {
    if a.Filter? then multiset(D.Freed(s.local[a.t], s.work[a.t].found)) else multiset{}
  }

  ghost function RetiredBy(steps: seq<Step>, n: nat): multiset<int>
    requires n <= |steps|
  {
    if n == 0 then multiset{} else RetiredBy(steps, n - 1) + RetiredIn(steps[n - 1])
  }

  ghost function FreedBy(states: seq<State>, steps: seq<Step>, n: nat): multiset<int>
    requires IsRun(states, steps) && n <= |steps|
  {
    if n == 0 then multiset{} else FreedBy(states, steps, n - 1) + FreedIn(states[n - 1], steps[n - 1])
  }

  /** The pointers in the threads' lists. */
  ghost function Held(local: seq<seq<int>>): multiset<int> {
    if local == [] then multiset{} else multiset(local[0]) + Held(local[1..])
  }

  /** If two parts of a whole change in step, so does the whole. */
  lemma Balance(
    h: multiset<int>, l: multiset<int>, h': multiset<int>, l': multiset<int>, g: multiset<int>, g': multiset<int>)
    requires h' + l == h + l' && l' + g' == l + g
    ensures h' + g' == h + g
  {
    forall p ensures (h' + g')[p] == (h + g)[p] {
      assert (h' + l)[p] == (h + l')[p] && (l' + g')[p] == (l + g)[p];
    }
  }

  lemma Account(r: multiset<int>, f: multiset<int>, h: multiset<int>, g: multiset<int>, h': multiset<int>,
      g': multiset<int>, retired: multiset<int>, freed: multiset<int>)
    requires r == f + h + g && h' + (g' + freed) == h + (g + retired)
    ensures r + retired == (f + freed) + h' + g'
  {
    forall p ensures (r + retired)[p] == ((f + freed) + h' + g')[p] {
      assert r[p] == (f + h + g)[p] && (h' + (g' + freed))[p] == (h + (g + retired))[p];
    }
  }

  lemma Beside(r: multiset<int>, h: multiset<int>, l: multiset<int>, h': multiset<int>, l': multiset<int>)
    requires h' + l == h + l'
    ensures (r + h') + l == (r + h) + l'
  {
    forall p ensures ((r + h') + l)[p] == ((r + h) + l')[p] {
      assert (h' + l)[p] == (h + l')[p];
    }
  }

  lemma {:induction false} HeldUpdate(local: seq<seq<int>>, t: nat, l: seq<int>)
    requires t < |local|
    ensures Held(local[t := l]) + multiset(local[t]) == Held(local) + multiset(l)
  {
    if t == 0 {
      assert local[0 := l][1..] == local[1..];
    } else {
      HeldUpdate(local[1..], t - 1, l);
      assert local[t := l][1..] == local[1..][t - 1 := l];
      Beside(multiset(local[0]), Held(local[1..]), multiset(local[t]), Held(local[1..][t - 1 := l]), multiset(l));
    }
  }

  /** What the thread of the step has in its list before and after. */
  lemma OwnStep(s: State, t: nat, a: Step)
    requires Enabled(s, a) && (a == Take(t) || a == Exit(t) || (a.Retire? && a.t == t))
    ensures var s' := Next(s, a);
            && t < |s.local| && s'.local == s.local[t := s'.local[t]]
            && multiset(s'.local[t]) + (multiset(s'.global) + FreedIn(s, a))
                 == multiset(s.local[t]) + (multiset(s.global) + RetiredIn(a))
  {
    if a.Take? {
      D.ReversedSame(s.global);
    }
    hide D.Reversed, Unretired, H.Next;
  }

  lemma FilterStep(s: State, t: nat)
    requires Enabled(s, Filter(t))
    ensures var a, s' := Filter(t), Next(s, Filter(t));
            && t < |s.local| && s'.local == s.local[t := s'.local[t]]
            && multiset(s'.local[t]) + (multiset(s'.global) + FreedIn(s, a))
                 == multiset(s.local[t]) + (multiset(s.global) + RetiredIn(a))
  {
    D.ScanConserves(s.local[t], s.work[t].found);
    D.ReversedSame(D.Kept(s.local[t], s.work[t].found));
    hide D.Kept, D.Freed, D.Reversed, Unretired, H.Next, H.Enabled;
  }

  lemma OtherSteps(s: State, a: Step)
    requires Enabled(s, a) && !a.Filter? && !a.Take? && !a.Exit? && !a.Retire?
    ensures Next(s, a).local == s.local && Next(s, a).global == s.global
  {
    hide Unretired, H.Next;
  }

  lemma StepConserves(s: State, a: Step)
    requires Enabled(s, a)
    ensures Held(Next(s, a).local) + (multiset(Next(s, a).global) + FreedIn(s, a))
         == Held(s.local) + (multiset(s.global) + RetiredIn(a))
  {
    if a.Filter? || a.Take? || a.Exit? || a.Retire? {
      if a.Filter? {
        FilterStep(s, a.t);
      } else {
        OwnStep(s, a.t, a);
      }
      HeldUpdate(s.local, a.t, Next(s, a).local[a.t]);
      hide Next, Enabled, FreedIn;
      Balance(Held(s.local), multiset(s.local[a.t]), Held(Next(s, a).local), multiset(Next(s, a).local[a.t]),
              multiset(s.global) + RetiredIn(a), multiset(Next(s, a).global) + FreedIn(s, a));
    } else {
      OtherSteps(s, a);
      hide Next, Enabled;
    }
  }

  /** In every run each pointer that was retired has been freed or is in a list, as often as it was retired. */
  lemma {:induction false} NothingLost(states: seq<State>, steps: seq<Step>, n: nat)
    requires IsRun(states, steps) && n <= |steps|
    ensures RetiredBy(steps, n) == FreedBy(states, steps, n) + Held(states[n].local) + multiset(states[n].global)
  {
    if n == 0 {
      NothingHeld(states[0].local);
    } else {
      NothingLost(states, steps, n - 1);
      var s, a, s' := states[n - 1], steps[n - 1], states[n];
      assert Enabled(s, a) && s' == Next(s, a);
      hide IsRun, FreedIn, RetiredIn, Next, Enabled;
      StepConserves(s, a);
      Account(RetiredBy(steps, n - 1), FreedBy(states, steps, n - 1), Held(s.local), multiset(s.global),
              Held(s'.local), multiset(s'.global), RetiredIn(a), FreedIn(s, a));
    }
  }

  lemma {:induction false} NothingHeld(local: seq<seq<int>>)
    requires forall t :: 0 <= t < |local| ==> local[t] == []
    ensures Held(local) == multiset{}
  {
    if local != [] {
      NothingHeld(local[1..]);
    }
  }

  ghost function Times(m: nat, k: nat): nat { if k == 0 then 0 else m + Times(m, k - 1) }

  lemma {:induction false} TimesIsProduct(m: nat, k: nat)
    ensures Times(m, k) == m * k
  {
    if k > 0 {
      TimesIsProduct(m, k - 1);
      assert m * k == m + m * (k - 1);
    }
  }

  lemma {:induction false} HeldBound(local: seq<seq<int>>, m: nat)
    requires forall t :: 0 <= t < |local| ==> |local[t]| <= m
    ensures |Held(local)| <= Times(m, |local|)
  {
    if local != [] {
      HeldBound(local[1..], m);
    }
  }

  /**
    When no thread is inside `retire`, the pointers retired and not yet freed are at most twice the
    counter of hazard slots for each thread, and those that exited threads have left behind.
  */
  lemma OutstandingIsBounded(states: seq<State>, steps: seq<Step>, n: nat)
    requires IsRun(states, steps) && n <= |steps|
    requires forall t :: 0 <= t < |states[n].work| ==> states[n].work[t].Resting? || states[n].work[t].Exited?
    ensures |RetiredBy(steps, n)| - |FreedBy(states, steps, n)|
         <= (2 * states[n].slots.mSize) * |states[n].work| + |states[n].global|
  {
    NothingLost(states, steps, n);
    HeldIsBounded(states, steps, n);
    hide IsRun, FreedBy, RetiredBy, Held;
  }

  lemma HeldIsBounded(states: seq<State>, steps: seq<Step>, n: nat)
    requires IsRun(states, steps) && n <= |steps|
    requires forall t :: 0 <= t < |states[n].work| ==> states[n].work[t].Resting? || states[n].work[t].Exited?
    ensures |Held(states[n].local)| <= (2 * states[n].slots.mSize) * |states[n].work|
  {
    var s, m := states[n], 2 * states[n].slots.mSize;
    var c := RunKeeps(states, steps, n);
    hide IsRun, H.Inv, ListsOk;
    forall t | 0 <= t < |s.local| ensures |s.local[t]| <= m {
      assert WorkOk(s.slots.mSize, s.slots.threads[t], s.local[t], s.work[t]);
    }
    hide Inv, WorkOk;
    HeldBound(s.local, m);
    TimesIsProduct(m, |s.work|);
  }
}
