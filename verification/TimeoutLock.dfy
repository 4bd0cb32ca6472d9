/**
  The CLH queue lock with timeout, its nodes allocated and deleted by hand on a memory whose
  cells are reused.

  One step is one atomic access or one `new` or `delete`.  The clock is a free choice: after
  each turn of the waiting loop a thread either goes round again or gives up.
*/
module TimeoutLock {
  import opened Sequences

  /** `mPred`: null while its thread waits or holds the lock, `Available` after a release. */
  datatype Pred = Null | Available | At(node: int)

  const NONE: int := -1

  datatype Pc =
    | Idle
    | Enqueue(n: int)
    | FirstCheck(n: int, pred: int)
    | Spin(n: int, pred: int)
    | Decide(n: int, pred: int)
    | SkipDelete(n: int, pred: int, predPred: int)
    | AcquireDelete(n: int, pred: int)
    | Holding(n: int)
    | UnlockCas(n: int)
    | Release(n: int)
    | GiveUpCas(n: int, pred: int)
    | Abandon(n: int, pred: int)
    | DeleteOwn(n: int)

  datatype State = State(pred: seq<Pred>, alive: seq<bool>, tail: int, threads: seq<Pc>)

  /** `Begin` allocates cell `n` for a new `tryLock`; `TimeOut` and `GoRound` decide the waiting loop. */
  datatype Step = Begin(t: nat, n: int) | Run(t: nat) | GoRound(t: nat) | TimeOut(t: nat) | BeginUnlock(t: nat)

  predicate IsCell(s: State, n: int) { 0 <= n < |s.pred| == |s.alive| }

  predicate Live(s: State, n: int) { IsCell(s, n) && s.alive[n] }

  ghost predicate Init(s: State) {
    && |s.alive| == |s.pred| && (forall n :: 0 <= n < |s.alive| ==> !s.alive[n])
    && s.tail == NONE && forall t :: 0 <= t < |s.threads| ==> s.threads[t].Idle?
  }

  /** Every node the next step reads, writes or deletes is allocated. */
  predicate Enabled(s: State, a: Step) {
    && a.t < |s.threads|
    && match a
       case Begin(t, n) => s.threads[t].Idle? && IsCell(s, n) && !s.alive[n]
       case GoRound(t) => s.threads[t].Decide?
       case TimeOut(t) => s.threads[t].Decide?
       case BeginUnlock(t) => s.threads[t].Holding?
       case Run(t) =>
         match s.threads[t]
         case Idle => false
         case Holding(_) => false
         case Decide(_, _) => false
         case FirstCheck(_, pred) => Live(s, pred)
         case Spin(_, pred) => Live(s, pred)
         case SkipDelete(_, pred, _) => Live(s, pred)
         case AcquireDelete(_, pred) => Live(s, pred)
         case Release(n) => Live(s, n)
         case Abandon(n, _) => Live(s, n)
         case DeleteOwn(n) => Live(s, n)
         case _ => true
  }

  function Goto(s: State, t: nat, pc: Pc): State
    requires t < |s.threads|
  {
    s.(threads := s.threads[t := pc])
  }

  function Delete(s: State, n: int): State
    requires Live(s, n)
  {
    s.(alive := s.alive[n := false])
  }

  function SetPred(s: State, n: int, p: Pred): State
    requires Live(s, n)
  {
    s.(pred := s.pred[n := p])
  }

  function RunNext(s: State, t: nat): State
    requires Enabled(s, Run(t))
  {
    match s.threads[t]
    case Enqueue(n) => Goto(s.(tail := n), t, if s.tail == NONE then Holding(n) else FirstCheck(n, s.tail))
    case FirstCheck(n, pred) => Goto(s, t, if s.pred[pred] == Available then AcquireDelete(n, pred) else Spin(n, pred))
    case Spin(n, pred) =>
      (match s.pred[pred]
       case Available => Goto(s, t, AcquireDelete(n, pred))
       case Null => Goto(s, t, Decide(n, pred))
       case At(m) => Goto(s, t, SkipDelete(n, pred, m)))
    case SkipDelete(n, pred, predPred) => Goto(Delete(s, pred), t, Decide(n, predPred))
    case AcquireDelete(n, pred) => Goto(Delete(s, pred), t, Holding(n))
    case UnlockCas(n) => if s.tail == n then Goto(s.(tail := NONE), t, DeleteOwn(n)) else Goto(s, t, Release(n))
    case Release(n) => Goto(SetPred(s, n, Available), t, Idle)
    case GiveUpCas(n, pred) =>
      if s.tail == n then Goto(s.(tail := pred), t, DeleteOwn(n)) else Goto(s, t, Abandon(n, pred))
    case Abandon(n, pred) => Goto(SetPred(s, n, At(pred)), t, Idle)
    case DeleteOwn(n) => Goto(Delete(s, n), t, Idle)
  }

  function Next(s: State, a: Step): State
    requires Enabled(s, a)
  {
    match a
    case Begin(t, n) => Goto(s.(alive := s.alive[n := true], pred := s.pred[n := Null]), t, Enqueue(n))
    case Run(t) => RunNext(s, t)
    case GoRound(t) => Goto(s, t, Spin(s.threads[t].n, s.threads[t].pred))
    case TimeOut(t) => Goto(s, t, GiveUpCas(s.threads[t].n, s.threads[t].pred))
    case BeginUnlock(t) => Goto(s, t, UnlockCas(s.threads[t].n))
  }

  // ---------------------------------------------------------------- the invariant

  /** Who is responsible for a cell: nobody, a thread that is running a call, or the next waiter. */
  datatype Loc = Free | Owned(t: nat) | Orphan

  /** The queue of nodes, oldest first, and the owner of each cell. */
  datatype Aux = Aux(q: seq<int>, loc: seq<Loc>)

  function Node(pc: Pc): int { if pc.Idle? then NONE else pc.n }

  predicate Waiting(pc: Pc) {
    pc.FirstCheck? || pc.Spin? || pc.Decide? || pc.SkipDelete? || pc.AcquireDelete? || pc.GiveUpCas? || pc.Abandon?
  }

  /** The thread has been granted the lock and has not released it yet. */
  predicate Owning(pc: Pc) { pc.Holding? || pc.UnlockCas? || pc.Release? }

  predicate Queued(pc: Pc) { Waiting(pc) || Owning(pc) }

  /** `n` is in the queue right behind `p`. */
  ghost predicate Adjacent(q: seq<int>, p: int, n: int) {
    exists i :: 0 < i < |q| && q[i - 1] == p && q[i] == n
  }

  ghost predicate MemoryOk(s: State, x: Aux) {
    && |s.pred| == |s.alive| == |x.loc|
    && (forall n :: 0 <= n < |x.loc| ==> (s.alive[n] <==> x.loc[n] != Free))
    && (forall n :: 0 <= n < |x.loc| && x.loc[n].Owned? ==> s.pred[n] == Null)
  }

  ghost predicate Tail(tail: int, q: seq<int>) { tail == if q == [] then NONE else q[|q| - 1] }

  /** The queue holds allocated cells, each once, and every orphan. */
  ghost predicate QueueOk(q: seq<int>, loc: seq<Loc>) {
    && (forall n :: n in q ==> 0 <= n < |loc| && loc[n] != Free)
    && Distinct(q)
    && (forall n :: 0 <= n < |loc| && loc[n] == Orphan ==> n in q)
  }

  /** An orphan is a released node at the front, or an abandoned one that names the node before it. */
  ghost predicate OrphanOk(q: seq<int>, pred: seq<Pred>, n: int) {
    && 0 <= n < |pred|
    && match pred[n]
       case Null => false
       case Available => q != [] && q[0] == n
       case At(m) => Adjacent(q, m, n)
  }

  ghost predicate OrphansOk(q: seq<int>, pred: seq<Pred>, loc: seq<Loc>) {
    forall n :: 0 <= n < |loc| && loc[n] == Orphan ==> OrphanOk(q, pred, n)
  }

  /** Owned cells belong to the thread that runs with them. */
  ghost predicate OwnersOk(loc: seq<Loc>, ths: seq<Pc>) {
    forall n :: 0 <= n < |loc| && loc[n].Owned? ==> loc[n].t < |ths| && Node(ths[loc[n].t]) == n
  }

  ghost predicate ThreadOk(s: State, x: Aux, pc: Pc, t: nat) {
    !pc.Idle? ==>
      && 0 <= pc.n < |s.pred| == |x.loc| && x.loc[pc.n] == Owned(t) && s.pred[pc.n] == Null
      && (Queued(pc) <==> pc.n in x.q)
      && (Waiting(pc) ==> Adjacent(x.q, pc.pred, pc.n))
      && (Owning(pc) ==> x.q != [] && x.q[0] == pc.n)
      && (pc.AcquireDelete? ==> 0 <= pc.pred < |s.pred| && s.pred[pc.pred] == Available)
      && (pc.SkipDelete? ==> 0 <= pc.pred < |s.pred| && s.pred[pc.pred] == At(pc.predPred))
  }

  ghost predicate Inv(s: State, x: Aux) {
    && MemoryOk(s, x) && Tail(s.tail, x.q) && QueueOk(x.q, x.loc) && OrphansOk(x.q, s.pred, x.loc)
    && OwnersOk(x.loc, s.threads)
    && forall t :: 0 <= t < |s.threads| ==> ThreadOk(s, x, s.threads[t], t)
  }

  function Without(q: seq<int>, n: int): (r: seq<int>)
    ensures |r| <= |q| && n !in r
    ensures forall m :: m in r <==> m in q && m != n
  {
    if q == [] then [] else if q[0] == n then Without(q[1..], n) else [q[0]] + Without(q[1..], n)
  }

  function AuxNext(s: State, a: Step, x: Aux): Aux
    requires Enabled(s, a) && |x.loc| == |s.pred|
  {
    match a
    case Begin(t, n) => x.(loc := x.loc[n := Owned(t)])
    case Run(t) =>
      (match s.threads[t]
       case Enqueue(n) => x.(q := x.q + [n])
       case SkipDelete(_, pred, _) => Aux(Without(x.q, pred), x.loc[pred := Free])
       case AcquireDelete(_, pred) => Aux(Without(x.q, pred), x.loc[pred := Free])
       case UnlockCas(n) => if s.tail == n then x.(q := Without(x.q, n)) else x
       case GiveUpCas(n, _) => if s.tail == n then x.(q := Without(x.q, n)) else x
       case Release(n) => x.(loc := x.loc[n := Orphan])
       case Abandon(n, _) => x.(loc := x.loc[n := Orphan])
       case DeleteOwn(n) => x.(loc := x.loc[n := Free])
       case _ => x)
    case _ => x
  }

  // ---------------------------------------------------------------- sequences

  lemma {:induction false} WithoutIsCut(q: seq<int>, i: nat)
    requires Distinct(q) && i < |q|
    ensures Without(q, q[i]) == q[..i] + q[i + 1..]
  {
    if i == 0 {
      WithoutAbsent(q[1..], q[0]);
    } else {
      assert q[1..][i - 1] == q[i];
      WithoutIsCut(q[1..], i - 1);
      assert [q[0]] + q[1..][..i - 1] == q[..i] && q[1..][i..] == q[i + 1..];
    }
  }

  lemma {:induction false} WithoutAbsent(q: seq<int>, n: int)
    requires n !in q
    ensures Without(q, n) == q
  {
    if q != [] {
      WithoutAbsent(q[1..], n);
    }
  }

  lemma WithoutDistinct(q: seq<int>, n: int)
    requires Distinct(q)
    ensures Distinct(Without(q, n))
  {
    if n in q {
      var i :| 0 <= i < |q| && q[i] == n;
      WithoutIsCut(q, i);
    } else {
      WithoutAbsent(q, n);
    }
  }

  /** Taking out `n` keeps the neighbours not involving it. */
  lemma AdjacentWithout(q: seq<int>, n: int, a: int, b: int)
    requires Distinct(q) && Adjacent(q, a, b) && a != n && b != n
    ensures Adjacent(Without(q, n), a, b)
  {
    var k :| 0 < k < |q| && q[k - 1] == a && q[k] == b;
    if n in q {
      var i :| 0 <= i < |q| && q[i] == n;
      WithoutIsCut(q, i);
      var q' := Without(q, n);
      var k' := if k < i then k else k - 1;
      assert q'[k' - 1] == a && q'[k'] == b;
    } else {
      WithoutAbsent(q, n);
    }
  }

  /** Taking out the middle one of three makes the outer ones neighbours. */
  lemma AdjacentSkip(q: seq<int>, a: int, n: int, b: int)
    requires Distinct(q) && Adjacent(q, a, n) && Adjacent(q, n, b)
    ensures Adjacent(Without(q, n), a, b)
  {
    var k :| 0 < k < |q| && q[k - 1] == a && q[k] == n;
    var m :| 0 < m < |q| && q[m - 1] == n && q[m] == b;
    assert m == k + 1;
    WithoutIsCut(q, k);
    var q' := Without(q, n);
    assert q'[k - 1] == a && q'[k] == b;
  }

  lemma AdjacentAppend(q: seq<int>, n: int, a: int, b: int)
    requires Adjacent(q, a, b)
    ensures Adjacent(q + [n], a, b)
  {
    var k :| 0 < k < |q| && q[k - 1] == a && q[k] == b;
    assert (q + [n])[k - 1] == a && (q + [n])[k] == b;
  }

  lemma AdjacentIn(q: seq<int>, a: int, b: int)
    requires Adjacent(q, a, b)
    ensures a in q && b in q
  {
  }

  lemma AdjacentUnique(q: seq<int>, a: int, b: int, c: int, d: int)
    requires Distinct(q) && Adjacent(q, a, b) && Adjacent(q, c, d)
    ensures a in q && b in q && a != b
    ensures a == c <==> b == d
    ensures q != [] && b != q[0]
  {
    var k :| 0 < k < |q| && q[k - 1] == a && q[k] == b;
    var m :| 0 < m < |q| && q[m - 1] == c && q[m] == d;
  }

  /** Taking out a node keeps the front, unless it was the front. */
  lemma FrontWithout(q: seq<int>, n: int)
    requires Distinct(q) && q != [] && n != q[0]
    ensures Without(q, n) != [] && Without(q, n)[0] == q[0]
  {
    if n in q {
      var i :| 0 <= i < |q| && q[i] == n;
      WithoutIsCut(q, i);
    } else {
      WithoutAbsent(q, n);
    }
  }

  lemma FrontRemoved(q: seq<int>, a: int, b: int)
    requires Distinct(q) && Adjacent(q, a, b) && q[0] == a
    ensures Without(q, a) != [] && Without(q, a)[0] == b
  {
    var k :| 0 < k < |q| && q[k - 1] == a && q[k] == b;
    assert k == 1;
    WithoutIsCut(q, 0);
  }

  /** The tail after taking out a node. */
  lemma TailWithout(q: seq<int>, n: int)
    requires Distinct(q) && q != []
    ensures n != q[|q| - 1] ==> Tail(q[|q| - 1], Without(q, n))
    ensures n == q[|q| - 1] ==> Tail(if |q| == 1 then NONE else q[|q| - 2], Without(q, n))
  {
    if n in q {
      var i :| 0 <= i < |q| && q[i] == n;
      WithoutIsCut(q, i);
      if i == |q| - 1 {
        assert Without(q, n) == q[..|q| - 1];
      } else {
        assert Without(q, n)[|q| - 2] == q[|q| - 1];
      }
    } else {
      WithoutAbsent(q, n);
    }
  }

  // ---------------------------------------------------------------- what a step means for the others

  /** Neighbours and front of the queue survive, as seen from nodes other than `own` and `gone`. */
  ghost predicate QueueMoves(q: seq<int>, q': seq<int>, own: int, gone: int) {
    && (forall a, b :: Adjacent(q, a, b) && a != gone && b != gone && b != own ==> Adjacent(q', a, b))
    && (q != [] && q[0] != gone && q[0] != own ==> q' != [] && q'[0] == q[0])
    && (forall n :: n != own && n != gone ==> (n in q <==> n in q'))
  }

  /**
    A step of thread `t`, seen from the others: it writes only its own node `own`, and a node
    `gone` that it takes out of the queue is its own or the one right before its own.
  */
  ghost predicate Moves(s: State, x: Aux, s': State, x': Aux, t: nat, gone: int)
    requires t < |s.threads|
  {
    var own := Node(s.threads[t]);
    && |s'.pred| == |s.pred| == |x.loc| == |x'.loc|
    && (forall n :: 0 <= n < |s.pred| && n != own && x.loc[n] != Free ==> s'.pred[n] == s.pred[n])
    && (forall n :: 0 <= n < |x.loc| && n != own && n != gone && x.loc[n] != Free ==> x'.loc[n] == x.loc[n])
    && (|| gone == NONE || gone == own
        || (0 <= gone < |x.loc| && x.loc[gone] == Orphan && own in x.q && Adjacent(x.q, gone, own)))
    && (gone == own != NONE ==> x.q != [] && x.q[|x.q| - 1] == own)
    && QueueMoves(x.q, x'.q, own, gone)
  }

  lemma NoSuccessor(q: seq<int>, a: int, b: int)
    requires Distinct(q) && q != [] && q[|q| - 1] == a
    ensures !Adjacent(q, a, b)
  {
  }

  /** Orphans other than the two cells of the step stay in place. */
  lemma OrphanKeeps(s: State, x: Aux, s': State, x': Aux, t: nat, gone: int, n: int)
    requires t < |s.threads| && QueueOk(x.q, x.loc) && ThreadOk(s, x, s.threads[t], t)
    requires Moves(s, x, s', x', t, gone)
    requires 0 <= n < |x.loc| && x.loc[n] == Orphan && OrphanOk(x.q, s.pred, n) && n != gone
    ensures OrphanOk(x'.q, s'.pred, n)
  {
    var own := Node(s.threads[t]);
    assert n != own && Distinct(x.q);
    match s.pred[n]
    case At(m) =>
      AdjacentIn(x.q, m, n);
      if gone != NONE {
        if gone != own {
          AdjacentUnique(x.q, gone, own, m, n);
        } else {
          NoSuccessor(x.q, own, n);
        }
      }
      assert m != gone;
    case _ =>
  }

  lemma OtherKeeps(s: State, x: Aux, s': State, x': Aux, t: nat, gone: int, u: nat)
    requires t < |s.threads| && u < |s.threads| && u != t
    requires QueueOk(x.q, x.loc) && ThreadOk(s, x, s.threads[t], t) && ThreadOk(s, x, s.threads[u], u)
    requires Moves(s, x, s', x', t, gone)
    ensures ThreadOk(s', x', s.threads[u], u)
  {
    var pc, own := s.threads[u], Node(s.threads[t]);
    if !pc.Idle? {
      assert pc.n != own && pc.n != gone;
      if Waiting(pc) && gone != NONE {
        assert Distinct(x.q);
        if gone != own {
          AdjacentUnique(x.q, gone, own, pc.pred, pc.n);
        } else {
          NoSuccessor(x.q, own, pc.n);
        }
      }
      if Waiting(pc) {
        AdjacentIn(x.q, pc.pred, pc.n);
        assert pc.pred != gone ==> Adjacent(x'.q, pc.pred, pc.n);
      }
    }
  }

  /** What a step lemma establishes. */
  ghost predicate StepOk(s: State, x: Aux, s': State, x': Aux, t: nat, gone: int) {
    && t < |s.threads| == |s'.threads| && s'.threads == s.threads[t := s'.threads[t]]
    && Moves(s, x, s', x', t, gone)
    && MemoryOk(s', x') && Tail(s'.tail, x'.q) && QueueOk(x'.q, x'.loc)
    && (gone != NONE && gone != Node(s.threads[t]) ==> x'.loc[gone] == Free)
    && ThreadOk(s', x', s'.threads[t], t)
    && (forall n :: 0 <= n < |x'.loc| && x'.loc[n] == Owned(t) ==> Node(s'.threads[t]) == n)
    && (forall n :: 0 <= n < |x.loc| && x.loc[n] == Free ==> x'.loc[n] == Free || x'.loc[n] == Owned(t))
    && (var own := Node(s.threads[t]);
        0 <= own < |x'.loc| ==>
          && (x'.loc[own] == Orphan ==> OrphanOk(x'.q, s'.pred, own))
          && (x'.loc[own].Owned? ==> x'.loc[own].t == t))
  }

  lemma Frame(s: State, x: Aux, s': State, x': Aux, t: nat, gone: int)
    requires Inv(s, x) && StepOk(s, x, s', x', t, gone)
    ensures Inv(s', x')
  {
    hide QueueMoves, Adjacent;
    assert ThreadOk(s, x, s.threads[t], t);
    forall n | 0 <= n < |x'.loc| && x'.loc[n] == Orphan ensures OrphanOk(x'.q, s'.pred, n) {
      if n != Node(s.threads[t]) {
        OrphanKeeps(s, x, s', x', t, gone, n);
      }
    }
    forall u | 0 <= u < |s'.threads| ensures ThreadOk(s', x', s'.threads[u], u) {
      if u != t {
        OtherKeeps(s, x, s', x', t, gone, u);
      }
    }
  }

  /** What is known of the stepping thread. */
  ghost predicate Stepping(s: State, x: Aux, t: nat) {
    && MemoryOk(s, x) && Tail(s.tail, x.q) && QueueOk(x.q, x.loc) && OrphansOk(x.q, s.pred, x.loc)
    && OwnersOk(x.loc, s.threads) && t < |s.threads| && ThreadOk(s, x, s.threads[t], t)
  }

  // ---------------------------------------------------------------- the steps

  lemma StepEnabled(s: State, x: Aux, t: nat)
    requires Stepping(s, x, t) && !s.threads[t].Idle? && !s.threads[t].Holding? && !s.threads[t].Decide?
    ensures Enabled(s, Run(t))
  {
    if Waiting(s.threads[t]) {
      AdjacentIn(x.q, s.threads[t].pred, s.threads[t].n);
    }
  }

  lemma BeginOk(s: State, x: Aux, t: nat, n: int)
    requires Stepping(s, x, t) && Enabled(s, Begin(t, n))
    ensures StepOk(s, x, Next(s, Begin(t, n)), AuxNext(s, Begin(t, n), x), t, NONE)
  {
  }

  lemma AppendMoves(q: seq<int>, n: int)
    requires Distinct(q) && n !in q
    ensures QueueMoves(q, q + [n], n, NONE) && Distinct(q + [n])
    ensures q != [] ==> Adjacent(q + [n], q[|q| - 1], n)
    ensures forall m :: m in q + [n] <==> m in q || m == n
  {
    forall a, b | Adjacent(q, a, b) ensures Adjacent(q + [n], a, b) {
      AdjacentAppend(q, n, a, b);
    }
    if q != [] {
      assert (q + [n])[|q| - 1] == q[|q| - 1] && (q + [n])[|q|] == n;
    }
  }

  lemma EnqueueOk(s: State, x: Aux, t: nat)
    requires Stepping(s, x, t) && s.threads[t].Enqueue? && Enabled(s, Run(t))
    ensures StepOk(s, x, Next(s, Run(t)), AuxNext(s, Run(t), x), t, NONE)
  {
    hide Adjacent, QueueMoves, OrphanOk, OrphansOk;
    assert Distinct(x.q);
    AppendMoves(x.q, s.threads[t].n);
    if x.q != [] {
      assert x.q[|x.q| - 1] in x.q;
    }
  }

  /** Steps that touch neither memory nor queue. */
  lemma ReadOk(s: State, x: Aux, t: nat, s': State)
    requires Stepping(s, x, t) && s' == s.(threads := s'.threads) && |s'.threads| == |s.threads|
    requires s'.threads == s.threads[t := s'.threads[t]]
    requires !s.threads[t].Idle? && !s'.threads[t].Idle? && s'.threads[t].n == s.threads[t].n
    requires ThreadOk(s, x, s'.threads[t], t)
    ensures StepOk(s, x, s', x, t, NONE)
  {
  }

  /** Taking the node before `n` out of the queue, as seen from the rest of the queue. */
  lemma CutBefore(q: seq<int>, gone: int, n: int)
    requires Distinct(q) && Adjacent(q, gone, n)
    ensures QueueMoves(q, Without(q, gone), n, gone) && Distinct(Without(q, gone))
    ensures q != [] && Tail(q[|q| - 1], Without(q, gone)) && n in q && gone != n
  {
    var q' := Without(q, gone);
    AdjacentUnique(q, gone, n, gone, n);
    WithoutDistinct(q, gone);
    LastIsNot(q, gone, n);
    TailWithout(q, gone);
    forall a, b | Adjacent(q, a, b) && a != gone && b != gone ensures Adjacent(q', a, b) {
      AdjacentWithout(q, gone, a, b);
    }
    if q[0] != gone {
      FrontWithout(q, gone);
    }
  }

  lemma LastIsNot(q: seq<int>, a: int, b: int)
    requires Distinct(q) && Adjacent(q, a, b)
    ensures q[|q| - 1] != a
  {
  }

  lemma PredIsOrphan(s: State, x: Aux, t: nat)
    requires Stepping(s, x, t) && (s.threads[t].SkipDelete? || s.threads[t].AcquireDelete?)
    ensures 0 <= s.threads[t].pred < |x.loc| && x.loc[s.threads[t].pred] == Orphan
    ensures OrphanOk(x.q, s.pred, s.threads[t].pred)
  {
    AdjacentIn(x.q, s.threads[t].pred, s.threads[t].n);
  }

  /** The node right behind the one taken out gets its predecessor, or becomes the front. */
  lemma AfterDelete(s: State, x: Aux, t: nat)
    requires Stepping(s, x, t) && (s.threads[t].SkipDelete? || s.threads[t].AcquireDelete?)
    ensures var q', pc := Without(x.q, s.threads[t].pred), s.threads[t];
            && (pc.SkipDelete? ==> Adjacent(q', pc.predPred, pc.n))
            && (pc.AcquireDelete? ==> q' != [] && q'[0] == pc.n)
  {
    var pc := s.threads[t];
    PredIsOrphan(s, x, t);
    assert Distinct(x.q);
    if pc.SkipDelete? {
      AdjacentSkip(x.q, pc.predPred, pc.pred, pc.n);
    } else {
      FrontRemoved(x.q, pc.pred, pc.n);
    }
  }

  /** Deleting the orphan right before the own node. */
  lemma DeleteOk(s: State, x: Aux, t: nat)
    requires Stepping(s, x, t) && (s.threads[t].SkipDelete? || s.threads[t].AcquireDelete?) && Enabled(s, Run(t))
    ensures StepOk(s, x, Next(s, Run(t)), AuxNext(s, Run(t), x), t, s.threads[t].pred)
  {
    hide Adjacent, QueueMoves, OrphanOk, OrphansOk;
    assert Distinct(x.q);
    CutBefore(x.q, s.threads[t].pred, s.threads[t].n);
    PredIsOrphan(s, x, t);
    AfterDelete(s, x, t);
  }

  /** `unlock` with nobody behind: the queue becomes empty. */
  lemma UnlockCasOk(s: State, x: Aux, t: nat)
    requires Stepping(s, x, t) && s.threads[t].UnlockCas? && s.tail == s.threads[t].n && Enabled(s, Run(t))
    ensures StepOk(s, x, Next(s, Run(t)), AuxNext(s, Run(t), x), t, s.threads[t].n)
  {
    assert x.q[0] in x.q;
    assert x.q == [s.threads[t].n];
  }

  /** Taking the last node out of the queue, as seen from the rest of the queue. */
  lemma CutLast(q: seq<int>, n: int)
    requires Distinct(q) && q != [] && q[|q| - 1] == n
    ensures QueueMoves(q, Without(q, n), n, n) && Distinct(Without(q, n))
    ensures Without(q, n) == q[..|q| - 1]
  {
    WithoutIsCut(q, |q| - 1);
    forall a, b | Adjacent(q, a, b) && a != n && b != n ensures Adjacent(Without(q, n), a, b) {
      AdjacentWithout(q, n, a, b);
    }
  }

  /** Giving up as the last waiter: the predecessor becomes the tail again. */
  lemma GiveUpCasOk(s: State, x: Aux, t: nat)
    requires Stepping(s, x, t) && s.threads[t].GiveUpCas? && s.tail == s.threads[t].n && Enabled(s, Run(t))
    ensures StepOk(s, x, Next(s, Run(t)), AuxNext(s, Run(t), x), t, s.threads[t].n)
  {
    var q, n, pred := x.q, s.threads[t].n, s.threads[t].pred;
    AdjacentIn(q, pred, n);
    assert Distinct(q) && q[|q| - 1] == n;
    CutLast(q, n);
    assert |q| >= 2 && q[|q| - 2] == pred;
    hide Adjacent, QueueMoves, OrphanOk, OrphansOk;
  }

  lemma SameQueue(q: seq<int>, own: int, gone: int)
    ensures QueueMoves(q, q, own, gone)
  {
  }

  /** Releasing or abandoning the own node leaves it to the next waiter. */
  lemma OrphanOwnOk(s: State, x: Aux, t: nat)
    requires Stepping(s, x, t) && (s.threads[t].Release? || s.threads[t].Abandon?) && Enabled(s, Run(t))
    ensures StepOk(s, x, Next(s, Run(t)), AuxNext(s, Run(t), x), t, NONE)
  {
    hide Adjacent, QueueMoves;
    SameQueue(x.q, s.threads[t].n, NONE);
  }

  lemma DeleteOwnOk(s: State, x: Aux, t: nat)
    requires Stepping(s, x, t) && s.threads[t].DeleteOwn? && Enabled(s, Run(t))
    ensures StepOk(s, x, Next(s, Run(t)), AuxNext(s, Run(t), x), t, NONE)
  {
    hide Adjacent, QueueMoves;
    SameQueue(x.q, s.threads[t].n, NONE);
  }

  /** Steps that read memory and choose where to go next. */
  lemma LookOk(s: State, x: Aux, t: nat)
    requires Stepping(s, x, t) && Enabled(s, Run(t))
    requires s.threads[t].FirstCheck? || s.threads[t].Spin?
          || (s.tail != s.threads[t].n && (s.threads[t].UnlockCas? || s.threads[t].GiveUpCas?))
    ensures StepOk(s, x, Next(s, Run(t)), AuxNext(s, Run(t), x), t, NONE)
  {
    hide Adjacent, QueueMoves, OrphanOk, OrphansOk;
    ReadOk(s, x, t, Next(s, Run(t)));
  }

  /** The node a step takes out of the queue, if any. */
  function Gone(s: State, a: Step): int
    requires a.t < |s.threads|
  {
    var pc := s.threads[a.t];
    if !a.Run? then NONE
    else if pc.SkipDelete? || pc.AcquireDelete? then pc.pred
    else if (pc.UnlockCas? || pc.GiveUpCas?) && s.tail == pc.n then pc.n
    else NONE
  }

  lemma AnyStepOk(s: State, x: Aux, a: Step)
    requires Stepping(s, x, a.t) && Enabled(s, a)
    ensures StepOk(s, x, Next(s, a), AuxNext(s, a, x), a.t, Gone(s, a))
  {
    hide StepOk, Adjacent, QueueMoves, OrphanOk, OrphansOk;
    var pc := s.threads[a.t];
    if a.Begin? {
      BeginOk(s, x, a.t, a.n);
    } else if !a.Run? {
      ReadOk(s, x, a.t, Next(s, a));
    } else {
      match pc
      case Enqueue(_) => EnqueueOk(s, x, a.t);
      case SkipDelete(_, _, _) => DeleteOk(s, x, a.t);
      case AcquireDelete(_, _) => DeleteOk(s, x, a.t);
      case Release(_) => OrphanOwnOk(s, x, a.t);
      case Abandon(_, _) => OrphanOwnOk(s, x, a.t);
      case DeleteOwn(_) => DeleteOwnOk(s, x, a.t);
      case UnlockCas(_) => if s.tail == pc.n { UnlockCasOk(s, x, a.t); } else { LookOk(s, x, a.t); }
      case GiveUpCas(_, _) => if s.tail == pc.n { GiveUpCasOk(s, x, a.t); } else { LookOk(s, x, a.t); }
      case _ => LookOk(s, x, a.t);
    }
  }

  /** Every step of every thread keeps the invariant. */
  lemma StepKeeps(s: State, x: Aux, a: Step)
    requires Inv(s, x) && Enabled(s, a)
    ensures Inv(Next(s, a), AuxNext(s, a, x))
  {
    hide StepOk, Adjacent, QueueMoves, OrphanOk, OrphansOk, ThreadOk;
    assert Stepping(s, x, a.t);
    AnyStepOk(s, x, a);
    Frame(s, x, Next(s, a), AuxNext(s, a, x), a.t, Gone(s, a));
  }

  /** No use after free and no double delete: a running thread always finds its nodes allocated. */
  lemma NoFault(s: State, x: Aux, t: nat)
    requires Inv(s, x) && t < |s.threads| && !s.threads[t].Idle? && !s.threads[t].Holding? && !s.threads[t].Decide?
    ensures Enabled(s, Run(t))
  {
    hide Enabled, ThreadOk, OrphanOk, OrphansOk, Adjacent;
    assert Stepping(s, x, t);
    StepEnabled(s, x, t);
  }

  lemma Sizes(s: State, x: Aux)
    requires Inv(s, x)
    ensures |x.loc| == |s.pred| == |s.alive|
  {
  }

  lemma InitOk(s: State) returns (x: Aux)
    requires Init(s)
    ensures Inv(s, x) && x.q == [] && |x.loc| == |s.pred|
  {
    x := Aux([], seq(|s.pred|, _ => Free));
  }

  // ---------------------------------------------------------------- whole runs

  ghost predicate IsRun(states: seq<State>, steps: seq<Step>) {
    && |states| == |steps| + 1 && Init(states[0])
    && forall i :: 0 <= i < |steps| ==> Enabled(states[i], steps[i]) && states[i + 1] == Next(states[i], steps[i])
  }

  /** Every reachable state has a queue and owners that explain it. */
  lemma {:induction false} RunKeeps(states: seq<State>, steps: seq<Step>, n: nat) returns (x: Aux)
    requires IsRun(states, steps) && n <= |steps|
    ensures Inv(states[n], x)
  {
    hide Inv, Next, Enabled;
    if n == 0 {
      x := InitOk(states[0]);
    } else {
      var x0 := RunKeeps(states, steps, n - 1);
      Sizes(states[n - 1], x0);
      StepKeeps(states[n - 1], x0, steps[n - 1]);
      x := AuxNext(states[n - 1], steps[n - 1], x0);
    }
  }

  /** The thread holds the lock: it has been granted it and is not past the store or CAS that releases it. */
  predicate HasLock(pc: Pc) { Owning(pc) || pc.AcquireDelete? }

  /** Mutual exclusion: whoever has the lock is at the front of the queue. */
  lemma AtMostOneHolder(s: State, x: Aux, t: nat, u: nat)
    requires Inv(s, x) && t < |s.threads| && u < |s.threads| && HasLock(s.threads[t]) && HasLock(s.threads[u])
    ensures t == u
  {
    assert ThreadOk(s, x, s.threads[t], t) && ThreadOk(s, x, s.threads[u], u);
    HolderIsFirst(s, x, t);
    HolderIsFirst(s, x, u);
  }

  /** Only the released node of the last holder can stand before the holder. */
  lemma HolderIsFirst(s: State, x: Aux, t: nat)
    requires Inv(s, x) && t < |s.threads| && HasLock(s.threads[t])
    ensures x.q != []
    ensures Owning(s.threads[t]) ==> x.q[0] == s.threads[t].n
    ensures s.threads[t].AcquireDelete? ==> |x.q| > 1 && x.loc[x.q[0]] == Orphan && x.q[1] == s.threads[t].n
  {
    assert Stepping(s, x, t);
    if s.threads[t].AcquireDelete? {
      PredIsOrphan(s, x, t);
    }
  }

  lemma MutualExclusion(states: seq<State>, steps: seq<Step>, n: nat, t: nat, u: nat)
    requires IsRun(states, steps) && n <= |steps| && t < |states[n].threads| && u < |states[n].threads|
    requires HasLock(states[n].threads[t]) && HasLock(states[n].threads[u])
    ensures t == u
  {
    hide Inv;
    var x := RunKeeps(states, steps, n);
    AtMostOneHolder(states[n], x, t, u);
  }

  lemma RunsAreSafe(states: seq<State>, steps: seq<Step>, n: nat, t: nat)
    requires IsRun(states, steps) && n <= |steps| && t < |states[n].threads|
    requires !states[n].threads[t].Idle? && !states[n].threads[t].Holding? && !states[n].threads[t].Decide?
    ensures Enabled(states[n], Run(t))
  {
    hide Inv, Enabled;
    var x := RunKeeps(states, steps, n);
    NoFault(states[n], x, t);
  }

  // ---------------------------------------------------------------- the order of grants

  /** Each node's place among the tail exchanges, their number, and the place of the last grant. */
  datatype History = History(stamp: seq<int>, clock: int, last: int)

  function HistoryNext(s: State, a: Step, h: History): History
    requires Enabled(s, a) && |h.stamp| == |s.pred|
  {
    if !a.Run? then h else
    match s.threads[a.t]
    case Enqueue(n) =>
      if 0 <= n < |h.stamp| then
        History(h.stamp[n := h.clock], h.clock + 1, if s.tail == NONE then h.clock else h.last)
      else h
    case AcquireDelete(n, _) => if 0 <= n < |h.stamp| then h.(last := h.stamp[n]) else h
    case _ => h
  }

  lemma CellsKept(s: State, a: Step)
    requires Enabled(s, a)
    ensures |Next(s, a).pred| == |s.pred|
  {
  }

  ghost function HistoryAt(states: seq<State>, steps: seq<Step>, n: nat): (h: History)
    requires IsRun(states, steps) && n <= |steps|
    ensures |h.stamp| == |states[n].pred|
  {
    if n == 0 then History(seq(|states[0].pred|, _ => 0), 0, -1)
    else
      CellsKept(states[n - 1], steps[n - 1]);
      HistoryNext(states[n - 1], steps[n - 1], HistoryAt(states, steps, n - 1))
  }

  /** The step that makes thread `a.t` the holder. */
  predicate Grants(s: State, a: Step) {
    a.Run? && a.t < |s.threads| && (s.threads[a.t].AcquireDelete? || (s.threads[a.t].Enqueue? && s.tail == NONE))
  }

  ghost predicate Increasing(q: seq<int>, stamp: seq<int>) {
    forall i, j :: 0 <= i < j < |q| && 0 <= q[i] < |stamp| && 0 <= q[j] < |stamp| ==> stamp[q[i]] < stamp[q[j]]
  }

  ghost predicate OrderOk(x: Aux, h: History) {
    && |h.stamp| == |x.loc| && h.last < h.clock && Increasing(x.q, h.stamp)
    && forall n :: n in x.q && 0 <= n < |h.stamp| ==> h.last <= h.stamp[n] < h.clock
  }

  lemma IncreasingWithout(q: seq<int>, stamp: seq<int>, n: int)
    requires Distinct(q) && Increasing(q, stamp)
    ensures Increasing(Without(q, n), stamp)
  {
    if n in q {
      var i :| 0 <= i < |q| && q[i] == n;
      WithoutIsCut(q, i);
    } else {
      WithoutAbsent(q, n);
    }
  }

  lemma AppendOrder(x: Aux, h: History, n: int, last: int)
    requires OrderOk(x, h) && 0 <= n < |h.stamp| && n !in x.q
    requires last == if x.q == [] then h.clock else h.last
    ensures OrderOk(x.(q := x.q + [n]), History(h.stamp[n := h.clock], h.clock + 1, last))
  {
    var q', stamp' := x.q + [n], h.stamp[n := h.clock];
    forall i, j | 0 <= i < j < |q'| && 0 <= q'[i] < |stamp'| && 0 <= q'[j] < |stamp'|
      ensures stamp'[q'[i]] < stamp'[q'[j]]
    {
      assert x.q[i] in x.q;
      if j < |x.q| {
        assert x.q[j] in x.q;
      }
    }
  }

  lemma CutOrder(x: Aux, h: History, n: int, x': Aux)
    requires OrderOk(x, h) && Distinct(x.q) && x'.q == Without(x.q, n) && |x'.loc| == |x.loc|
    ensures OrderOk(x', h)
  {
    IncreasingWithout(x.q, h.stamp, n);
  }

  /** Granting the lock to the node now at the front. */
  lemma FrontOrder(x: Aux, h: History)
    requires OrderOk(x, h) && x.q != [] && 0 <= x.q[0] < |h.stamp|
    ensures OrderOk(x, h.(last := h.stamp[x.q[0]]))
  {
    assert x.q[0] in x.q;
  }

  lemma GrantMoves(s: State, x: Aux, a: Step, h: History)
    requires Stepping(s, x, a.t) && Enabled(s, a) && OrderOk(x, h) && |h.stamp| == |s.pred|
    ensures OrderOk(AuxNext(s, a, x), HistoryNext(s, a, h))
    ensures Grants(s, a) ==> h.last < HistoryNext(s, a, h).last
  {
    hide OrphanOk, OrphansOk, OwnersOk, Increasing, Adjacent, Distinct;
    var pc := s.threads[a.t];
    if a.Run? && pc.Enqueue? {
      assert x.q != [] ==> x.q[|x.q| - 1] in x.q;
      AppendOrder(x, h, pc.n, HistoryNext(s, a, h).last);
    } else if a.Run? && (pc.SkipDelete? || pc.AcquireDelete?) {
      var x' := AuxNext(s, a, x);
      CutOrder(x, h, pc.pred, x');
      AfterDelete(s, x, a.t);
      if pc.AcquireDelete? {
        FrontOrder(x', h);
        LaterStamp(x.q, h.stamp, pc.pred, pc.n);
      }
    } else if a.Run? && (pc.UnlockCas? || pc.GiveUpCas?) && s.tail == pc.n {
      CutOrder(x, h, pc.n, AuxNext(s, a, x));
    }
  }

  lemma LaterStamp(q: seq<int>, stamp: seq<int>, a: int, b: int)
    requires Increasing(q, stamp) && Adjacent(q, a, b) && 0 <= a < |stamp| && 0 <= b < |stamp|
    ensures stamp[a] < stamp[b] && a in q
  {
  }

  lemma InvStepping(s: State, x: Aux, a: Step)
    requires Inv(s, x) && Enabled(s, a)
    ensures Stepping(s, x, a.t)
  {
  }

  lemma InitOrder(x: Aux, h: History)
    requires x.q == [] && |h.stamp| == |x.loc| && h.last < h.clock
    ensures OrderOk(x, h)
  {
  }

  lemma {:induction false} RunKeepsOrder(states: seq<State>, steps: seq<Step>, n: nat) returns (x: Aux)
    requires IsRun(states, steps) && n <= |steps|
    ensures Inv(states[n], x) && OrderOk(x, HistoryAt(states, steps, n))
  {
    hide Inv, Next, Enabled, OrderOk, HistoryNext;
    if n == 0 {
      x := InitOk(states[0]);
      InitOrder(x, HistoryAt(states, steps, 0));
    } else {
      var x0 := RunKeepsOrder(states, steps, n - 1);
      Sizes(states[n - 1], x0);
      StepKeeps(states[n - 1], x0, steps[n - 1]);
      InvStepping(states[n - 1], x0, steps[n - 1]);
      GrantMoves(states[n - 1], x0, steps[n - 1], HistoryAt(states, steps, n - 1));
      x := AuxNext(states[n - 1], steps[n - 1], x0);
    }
  }

  /** The lock is granted in the order of the tail exchanges, whoever times out in between. */
  lemma GrantedInArrivalOrder(states: seq<State>, steps: seq<Step>, n: nat)
    requires IsRun(states, steps) && n < |steps| && Grants(states[n], steps[n])
    ensures HistoryAt(states, steps, n).last < HistoryAt(states, steps, n + 1).last
  {
    hide Inv, OrderOk;
    var x := RunKeepsOrder(states, steps, n);
    InvStepping(states[n], x, steps[n]);
    GrantMoves(states[n], x, steps[n], HistoryAt(states, steps, n));
  }

  // ---------------------------------------------------------------- the lock is never lost

  /** The front of a non-empty queue is the holder's node, or a released one. */
  lemma FrontIsHeldOrReleased(s: State, x: Aux)
    requires Inv(s, x) && x.q != []
    ensures 0 <= x.q[0] < |x.loc|
    ensures
      || (x.loc[x.q[0]] == Orphan && s.pred[x.q[0]] == Available)
      || (x.loc[x.q[0]].Owned? && x.loc[x.q[0]].t < |s.threads| && Owning(s.threads[x.loc[x.q[0]].t]))
  {
    var n := x.q[0];
    assert n in x.q && Distinct(x.q);
    FrontHasNoPred(x.q);
    if x.loc[n] == Orphan {
      assert OrphanOk(x.q, s.pred, n);
    } else {
      assert ThreadOk(s, x, s.threads[x.loc[n].t], x.loc[n].t);
    }
  }

  lemma FrontHasNoPred(q: seq<int>)
    requires Distinct(q) && q != []
    ensures forall a :: !Adjacent(q, a, q[0])
  {
  }

  /** `s'` is reached from `s` by the steps `run`. */
  ghost predicate Leads(s: State, run: seq<Step>, s': State)
    decreases |run|
  {
    if run == [] then s' == s else Enabled(s, run[0]) && Leads(Next(s, run[0]), run[1..], s')
  }

  lemma {:induction false} LeadsConcat(s: State, run: seq<Step>, s': State, more: seq<Step>, s'': State)
    requires Leads(s, run, s') && Leads(s', more, s'')
    ensures Leads(s, run + more, s'')
    decreases |run|
  {
    if run == [] {
      assert run + more == more;
    } else {
      LeadsConcat(Next(s, run[0]), run[1..], s', more, s'');
      assert (run + more)[1..] == run[1..] + more;
    }
  }

  lemma LeadsOnce(s: State, a: Step)
    requires Enabled(s, a)
    ensures Leads(s, [a], Next(s, a))
  {
    assert [a][1..] == [];
  }

  lemma LeadsTwice(s: State, a: Step, b: Step)
    requires Enabled(s, a) && Enabled(Next(s, a), b)
    ensures Leads(s, [a, b], Next(Next(s, a), b))
  {
    assert [a, b][1..] == [b];
    LeadsOnce(Next(s, a), b);
  }

  /** Steps of thread `t` that neither begin a call nor give up waiting. */
  predicate Alone(run: seq<Step>, t: nat) {
    forall i :: 0 <= i < |run| ==> run[i].t == t && (run[i].Run? || run[i].GoRound?)
  }

  /** Thread `t` waits at node `q[k]` and every node before it is released or abandoned. */
  ghost predicate FirstWaiter(s: State, x: Aux, t: nat, k: int) {
    && t < |s.threads| && Waiting(s.threads[t]) && 0 < k < |x.q| && x.q[k] == s.threads[t].n
    && forall i :: 0 <= i < k ==> 0 <= x.q[i] < |x.loc| && x.loc[x.q[i]] == Orphan
  }

  lemma FirstWaiterPred(s: State, x: Aux, t: nat, k: int)
    requires Inv(s, x) && FirstWaiter(s, x, t, k)
    ensures s.threads[t].pred == x.q[k - 1] && 0 <= x.q[k - 1] < |s.pred|
    ensures k == 1 ==> s.pred[x.q[0]] == Available
    ensures k > 1 ==> s.pred[x.q[k - 1]] == At(x.q[k - 2])
  {
    assert ThreadOk(s, x, s.threads[t], t) && Distinct(x.q);
    assert OrphanOk(x.q, s.pred, x.q[k - 1]);
  }

  /** What the first waiter sees when it looks at its predecessor. */
  lemma FirstWaiterLooks(s: State, x: Aux, t: nat, k: int)
    requires Inv(s, x) && FirstWaiter(s, x, t, k) && s.threads[t].Spin?
    ensures Enabled(s, Run(t)) && Inv(Next(s, Run(t)), x) && FirstWaiter(Next(s, Run(t)), x, t, k)
    ensures Leads(s, [Run(t)], Next(s, Run(t)))
    ensures var s', n := Next(s, Run(t)), s.threads[t].n;
            && s'.threads == s.threads[t := s'.threads[t]]
            && s'.threads[t] == (if k == 1 then AcquireDelete(n, x.q[0]) else SkipDelete(n, x.q[k - 1], x.q[k - 2]))
            && Enabled(s', Run(t))
  {
    FirstWaiterEnabled(s, x, t);
    LeadsOnce(s, Run(t));
    FirstWaiterPred(s, x, t, k);
    hide Inv, Adjacent, OrphanOk, OwnersOk, OrphansOk, MemoryOk, QueueOk, ThreadOk;
    StepKeeps(s, x, Run(t));
    FirstWaiterEnabled(Next(s, Run(t)), x, t);
  }

  lemma FirstWaiterEnabled(s: State, x: Aux, t: nat)
    requires Inv(s, x) && t < |s.threads|
    requires s.threads[t].Spin? || s.threads[t].SkipDelete? || s.threads[t].AcquireDelete?
    ensures Enabled(s, Run(t))
  {
    hide Inv;
    NoFault(s, x, t);
  }

  /** Skipping an abandoned node brings the waiter one place forward. */
  lemma FirstWaiterSkips(s: State, x: Aux, t: nat, k: int)
    requires Inv(s, x) && FirstWaiter(s, x, t, k) && s.threads[t].SkipDelete? && Enabled(s, Run(t)) && k > 1
    ensures FirstWaiter(Next(s, Run(t)), AuxNext(s, Run(t), x), t, k - 1)
    ensures Inv(Next(s, Run(t)), AuxNext(s, Run(t), x))
    ensures Next(s, Run(t)).threads == s.threads[t := Decide(s.threads[t].n, s.threads[t].predPred)]
    ensures Leads(s, [Run(t)], Next(s, Run(t)))
  {
    LeadsOnce(s, Run(t));
    StepKeeps(s, x, Run(t));
    FirstWaiterPred(s, x, t, k);
    assert Distinct(x.q);
    hide Inv, Distinct, Live, IsCell;
    OrphansAfterCut(x, s.threads[t].pred, AuxNext(s, Run(t), x), k);
  }

  /** Without the last of `k` orphans at its front, the queue still starts with `k - 1` orphans. */
  lemma OrphansAfterCut(x: Aux, gone: int, x': Aux, k: int)
    requires Distinct(x.q) && 1 < k < |x.q| && gone == x.q[k - 1] && 0 <= gone < |x.loc|
    requires x' == Aux(Without(x.q, gone), x.loc[gone := Free])
    requires forall i :: 0 <= i < k ==> 0 <= x.q[i] < |x.loc| && x.loc[x.q[i]] == Orphan
    ensures k - 1 < |x'.q| && x'.q[k - 1] == x.q[k]
    ensures forall i :: 0 <= i < k - 1 ==> 0 <= x'.q[i] < |x'.loc| && x'.loc[x'.q[i]] == Orphan
  {
    CutAt(x.q, k - 1);
    hide Distinct;
  }

  lemma CutAt(q: seq<int>, k: int)
    requires Distinct(q) && 0 <= k < |q|
    ensures var q' := Without(q, q[k]);
            && |q'| == |q| - 1
            && (forall i :: 0 <= i < k ==> q'[i] == q[i] != q[k])
            && (k + 1 < |q| ==> q'[k] == q[k + 1])
  {
    WithoutIsCut(q, k);
  }

  lemma FirstWaiterGoesRound(s: State, x: Aux, t: nat, k: int)
    requires Inv(s, x) && FirstWaiter(s, x, t, k) && s.threads[t].Decide?
    ensures Enabled(s, GoRound(t)) && Inv(Next(s, GoRound(t)), x) && FirstWaiter(Next(s, GoRound(t)), x, t, k)
    ensures Next(s, GoRound(t)).threads == s.threads[t := Spin(s.threads[t].n, s.threads[t].pred)]
    ensures Leads(s, [GoRound(t)], Next(s, GoRound(t)))
  {
    LeadsOnce(s, GoRound(t));
    hide Inv;
    StepKeeps(s, x, GoRound(t));
  }

  lemma UpdateAgain(ths: seq<Pc>, t: nat, pc: Pc, pc': Pc)
    requires t < |ths|
    ensures ths[t := pc][t := pc'] == ths[t := pc']
  {
  }

  /** From the skipped node back to the head of the waiting loop. */
  lemma FirstWaiterReturns(s: State, x: Aux, t: nat, k: int) returns (run: seq<Step>, s': State, x': Aux)
    requires Inv(s, x) && FirstWaiter(s, x, t, k) && s.threads[t].SkipDelete? && Enabled(s, Run(t)) && k > 1
    ensures Leads(s, run, s') && Alone(run, t)
    ensures Inv(s', x') && FirstWaiter(s', x', t, k - 1)
    ensures s'.threads == s.threads[t := Spin(s.threads[t].n, s.threads[t].predPred)]
  {
    assert t < |s.threads|;
    Sizes(s, x);
    FirstWaiterSkips(s, x, t, k);
    hide Inv, Enabled, Next, AuxNext, FirstWaiter, Leads;
    var s1;
    s1, x' := Next(s, Run(t)), AuxNext(s, Run(t), x);
    FirstWaiterGoesRound(s1, x', t, k - 1);
    s' := Next(s1, GoRound(t));
    UpdateAgain(s.threads, t, s1.threads[t], s'.threads[t]);
    LeadsConcat(s, [Run(t)], s1, [GoRound(t)], s');
    run := [Run(t)] + [GoRound(t)];
  }

  /** Going round the waiting loop once, past an abandoned node. */
  lemma FirstWaiterRound(s: State, x: Aux, t: nat, k: int) returns (run: seq<Step>, s': State, x': Aux)
    requires Inv(s, x) && FirstWaiter(s, x, t, k) && s.threads[t].Spin? && k > 1
    ensures Leads(s, run, s') && Alone(run, t)
    ensures Inv(s', x') && FirstWaiter(s', x', t, k - 1)
    ensures s'.threads == s.threads[t := s'.threads[t]] && s'.threads[t].Spin? && s'.threads[t].n == s.threads[t].n
  {
    assert t < |s.threads|;
    FirstWaiterLooks(s, x, t, k);
    hide Inv, Enabled, Next, AuxNext, FirstWaiter, Leads;
    var s1 := Next(s, Run(t));
    run, s', x' := FirstWaiterReturns(s1, x, t, k);
    UpdateAgain(s.threads, t, s1.threads[t], s'.threads[t]);
    LeadsConcat(s, [Run(t)], s1, run, s');
    run := [Run(t)] + run;
  }

  /** From the head of the waiting loop the first waiter gets the lock. */
  lemma {:induction false} SpinnerAcquires(s: State, x: Aux, t: nat, k: int) returns (run: seq<Step>, s': State)
    requires Inv(s, x) && FirstWaiter(s, x, t, k) && s.threads[t].Spin?
    ensures Leads(s, run, s') && Alone(run, t)
    ensures s'.threads == s.threads[t := Holding(s.threads[t].n)]
    decreases k
  {
    hide Inv, Leads;
    if k == 1 {
      FirstWaiterLooks(s, x, t, k);
      run, s' := [Run(t), Run(t)], Next(Next(s, Run(t)), Run(t));
      LeadsTwice(s, Run(t), Run(t));
    } else {
      var first, s1, x1 := FirstWaiterRound(s, x, t, k);
      var rest;
      rest, s' := SpinnerAcquires(s1, x1, t, k - 1);
      LeadsConcat(s, first, s1, rest, s');
      run := first + rest;
    }
  }

  predicate Leaving(pc: Pc) { pc.GiveUpCas? || pc.Abandon? }

  lemma FirstWaiterChecks(s: State, x: Aux, t: nat, k: int)
    requires Inv(s, x) && FirstWaiter(s, x, t, k) && s.threads[t].FirstCheck?
    ensures Enabled(s, Run(t)) && Inv(Next(s, Run(t)), x) && FirstWaiter(Next(s, Run(t)), x, t, k)
    ensures Leads(s, [Run(t)], Next(s, Run(t)))
    ensures var s', n := Next(s, Run(t)), s.threads[t].n;
            && s'.threads == s.threads[t := s'.threads[t]] && s'.threads[t].n == n
            && (s'.threads[t].Spin? || s'.threads[t].AcquireDelete?)
  {
    NoFault(s, x, t);
    LeadsOnce(s, Run(t));
    hide Inv;
    StepKeeps(s, x, Run(t));
  }

  lemma Deletes(s: State, x: Aux, t: nat)
    requires Inv(s, x) && t < |s.threads| && s.threads[t].AcquireDelete?
    ensures Enabled(s, Run(t)) && Leads(s, [Run(t)], Next(s, Run(t)))
    ensures Next(s, Run(t)).threads == s.threads[t := Holding(s.threads[t].n)]
  {
    NoFault(s, x, t);
    LeadsOnce(s, Run(t));
  }

  lemma SkipsOrphan(s: State, x: Aux, t: nat, k: int)
    requires Inv(s, x) && FirstWaiter(s, x, t, k) && s.threads[t].SkipDelete?
    ensures k > 1 && Enabled(s, Run(t))
  {
    NoFault(s, x, t);
    FirstWaiterPred(s, x, t, k);
    assert ThreadOk(s, x, s.threads[t], t);
  }

  /**
    No deadlock and no lost release: once the nodes before a waiter are all released or abandoned,
    that waiter alone, run on, deletes them and gets the lock, wherever in the waiting loop it is.
  */
  lemma {:induction false} FirstWaiterAcquires(s: State, x: Aux, t: nat, k: int) returns (run: seq<Step>, s': State)
    requires Inv(s, x) && FirstWaiter(s, x, t, k) && !Leaving(s.threads[t])
    ensures Leads(s, run, s') && Alone(run, t)
    ensures s'.threads == s.threads[t := Holding(s.threads[t].n)]
    decreases s.threads[t].FirstCheck?
  {
    hide Inv, Leads, Adjacent;
    assert t < |s.threads|;
    var pc, first, rest, s1, x1 := s.threads[t], [Run(t)], [], s, x;
    if pc.Spin? {
      run, s' := SpinnerAcquires(s, x, t, k);
    } else if pc.AcquireDelete? {
      Deletes(s, x, t);
      run, s' := first, Next(s, Run(t));
    } else {
      if pc.Decide? {
        FirstWaiterGoesRound(s, x, t, k);
        first, s1 := [GoRound(t)], Next(s, GoRound(t));
        hide FirstWaiter, Next, Enabled;
        rest, s' := SpinnerAcquires(s1, x1, t, k);
      } else if pc.SkipDelete? {
        SkipsOrphan(s, x, t, k);
        hide FirstWaiter, Next, Enabled;
        first, s1, x1 := FirstWaiterReturns(s, x, t, k);
        rest, s' := SpinnerAcquires(s1, x1, t, k - 1);
      } else {
        FirstWaiterChecks(s, x, t, k);
        s1 := Next(s, Run(t));
        hide FirstWaiter, Next, Enabled;
        rest, s' := FirstWaiterAcquires(s1, x1, t, k);
      }
      LeadsConcat(s, first, s1, rest, s');
      UpdateAgain(s.threads, t, s1.threads[t], s'.threads[t]);
      run := first + rest;
    }
  }

  /** If nobody has the lock and someone waits, there is a first waiter. */
  lemma {:induction false} SomeFirstWaiter(s: State, x: Aux, k: nat) returns (u: nat, j: int)
    requires Inv(s, x) && k < |x.q| && 0 <= x.q[k] < |x.loc| && x.loc[x.q[k]].Owned?
    requires forall t :: 0 <= t < |s.threads| ==> !Owning(s.threads[t])
    ensures FirstWaiter(s, x, u, j)
  {
    assert forall i :: 0 <= i < |x.q| ==> x.q[i] in x.q;
    if i :| 0 <= i < k && x.loc[x.q[i]].Owned? {
      u, j := SomeFirstWaiter(s, x, i);
    } else {
      var n := x.q[k];
      u, j := x.loc[n].t, k;
      assert ThreadOk(s, x, s.threads[u], u);
      AdjacentUnique(x.q, s.threads[u].pred, n, s.threads[u].pred, n);
    }
  }

  lemma WaiterIsQueued(s: State, x: Aux, t: nat) returns (k: nat)
    requires Inv(s, x) && t < |s.threads| && Waiting(s.threads[t])
    ensures k < |x.q| && 0 <= x.q[k] < |x.loc| && x.loc[x.q[k]].Owned?
  {
    assert ThreadOk(s, x, s.threads[t], t);
    k :| 0 <= k < |x.q| && x.q[k] == s.threads[t].n;
  }

  lemma LeaverTries(s: State, x: Aux, t: nat) returns (s': State, x': Aux)
    requires Inv(s, x) && t < |s.threads| && s.threads[t].GiveUpCas?
    ensures Inv(s', x') && Leads(s, [Run(t)], s') && |s'.threads| == |s.threads|
    ensures s'.threads == s.threads[t := s'.threads[t]]
    ensures s'.threads[t].DeleteOwn? || s'.threads[t].Abandon?
  {
    NoFault(s, x, t);
    LeadsOnce(s, Run(t));
    Sizes(s, x);
    s', x' := Next(s, Run(t)), AuxNext(s, Run(t), x);
    hide Inv, AuxNext;
    StepKeeps(s, x, Run(t));
  }

  lemma LeaverEnds(s: State, x: Aux, t: nat) returns (s': State, x': Aux)
    requires Inv(s, x) && t < |s.threads| && (s.threads[t].DeleteOwn? || s.threads[t].Abandon?)
    ensures Inv(s', x') && Leads(s, [Run(t)], s') && s'.threads == s.threads[t := Idle]
  {
    NoFault(s, x, t);
    LeadsOnce(s, Run(t));
    Sizes(s, x);
    s', x' := Next(s, Run(t)), AuxNext(s, Run(t), x);
    hide Inv, AuxNext;
    StepKeeps(s, x, Run(t));
  }

  /** A thread that gives up returns without waiting for anybody. */
  lemma LeaverReturns(s: State, x: Aux, t: nat) returns (run: seq<Step>, s': State, x': Aux)
    requires Inv(s, x) && t < |s.threads| && Leaving(s.threads[t])
    ensures Leads(s, run, s') && Alone(run, t)
    ensures Inv(s', x') && s'.threads == s.threads[t := Idle]
  {
    hide Inv, Leads;
    if s.threads[t].GiveUpCas? {
      var s1, x1 := LeaverTries(s, x, t);
      s', x' := LeaverEnds(s1, x1, t);
      UpdateAgain(s.threads, t, s1.threads[t], Idle);
      LeadsConcat(s, [Run(t)], s1, [Run(t)], s');
      run := [Run(t)] + [Run(t)];
    } else {
      s', x' := LeaverEnds(s, x, t);
      run := [Run(t)];
    }
  }

  function Waiters(ths: seq<Pc>): set<nat> { set t: nat | t < |ths| && Waiting(ths[t]) }

  /** Only threads that wait in `ths` take steps, and none of them gives up on the way. */
  ghost predicate ByWaiters(run: seq<Step>, ths: seq<Pc>) {
    forall i :: 0 <= i < |run| ==> run[i].t in Waiters(ths) && (run[i].Run? || run[i].GoRound?)
  }

  /**
    Whoever has given up leaves, and then somebody gets the lock: a lock that nobody has is taken
    as soon as the waiting threads run on.
  */
  lemma {:induction false} FreeLockIsTaken(s: State, x: Aux, t: nat) returns (run: seq<Step>, s': State, u: nat)
    requires Inv(s, x) && t < |s.threads| && Waiting(s.threads[t]) && !Leaving(s.threads[t])
    requires forall v :: 0 <= v < |s.threads| ==> !Owning(s.threads[v])
    ensures Leads(s, run, s') && ByWaiters(run, s.threads)
    ensures u < |s'.threads| && s'.threads[u].Holding?
    decreases |Waiters(s.threads)|
  {
    hide Inv, Leads;
    var k := WaiterIsQueued(s, x, t);
    var j;
    u, j := SomeFirstWaiter(s, x, k);
    assert u in Waiters(s.threads);
    if Leaving(s.threads[u]) {
      var first, s1, x1 := LeaverReturns(s, x, u);
      var rest;
      assert s1.threads[t] == s.threads[t];
      assert Waiters(s1.threads) == Waiters(s.threads) - {u};
      rest, s', u := FreeLockIsTaken(s1, x1, t);
      LeadsConcat(s, first, s1, rest, s');
      run := first + rest;
    } else {
      run, s' := FirstWaiterAcquires(s, x, u, j);
    }
  }

  /**
    In every reachable state in which nobody has the lock and some thread wants it, the waiting threads
    can take it.
  */
  lemma NoLostRelease(states: seq<State>, steps: seq<Step>, n: nat, t: nat)
    returns (run: seq<Step>, s': State, u: nat)
    requires IsRun(states, steps) && n <= |steps| && t < |states[n].threads|
    requires Waiting(states[n].threads[t]) && !Leaving(states[n].threads[t])
    requires forall v :: 0 <= v < |states[n].threads| ==> !Owning(states[n].threads[v])
    ensures Leads(states[n], run, s') && ByWaiters(run, states[n].threads)
    ensures u < |s'.threads| && s'.threads[u].Holding?
  {
    hide Inv, Leads;
    var x := RunKeeps(states, steps, n);
    hide IsRun;
    run, s', u := FreeLockIsTaken(states[n], x, t);
  }

  // ---------------------------------------------------------------- destruction

  ghost predicate Quiescent(s: State) { forall t :: 0 <= t < |s.threads| ==> s.threads[t].Idle? }

  /** The cells of the chain that `p` starts, from the tail of the queue back to its front. */
  ghost predicate ChainOf(q: seq<int>, pred: seq<Pred>) { forall i: nat :: i < |q| ==> ChainAt(q, pred, i) }

  ghost predicate ChainAt(q: seq<int>, pred: seq<Pred>, i: nat)
    requires i < |q|
  {
    0 <= q[i] < |pred| && pred[q[i]] == if i == 0 then Available else At(q[i - 1])
  }

  /**
    When no call is running, the chain that starts at the tail and follows `mPred` visits every
    allocated cell once and ends at `Available`.
  */
  lemma QuiescentChain(s: State, x: Aux)
    requires Inv(s, x) && Quiescent(s)
    ensures ChainOf(x.q, s.pred) && Distinct(x.q)
    ensures forall n :: 0 <= n < |s.alive| ==> (s.alive[n] <==> n in x.q)
  {
    forall n | n in x.q ensures 0 <= n < |x.loc| && x.loc[n] == Orphan {
      assert x.loc[n] != Free;
    }
    forall i: nat | i < |x.q| ensures ChainAt(x.q, s.pred, i) {
      assert x.q[i] in x.q && OrphanOk(x.q, s.pred, x.q[i]) && Distinct(x.q);
      if s.pred[x.q[i]].At? {
        AdjacentUnique(x.q, s.pred[x.q[i]].node, x.q[i], s.pred[x.q[i]].node, x.q[i]);
      }
    }
  }

  /** The last node of a prefix of the chain, and what comes before it. */
  lemma LastOfPrefix(q: seq<int>, pred: seq<Pred>, k: nat)
    requires ChainOf(q, pred) && Distinct(q) && 0 < k <= |q|
    ensures 0 <= q[k - 1] < |pred| && q[k - 1] in q[..k]
    ensures pred[q[k - 1]] == if k == 1 then Available else At(q[k - 2])
    ensures forall n :: n in q[..k - 1] <==> n in q[..k] && n != q[k - 1]
  {
    var init := q[..k - 1];
    assert q[..k] == init + [q[k - 1]];
    assert ChainAt(q, pred, k - 1);
    assert forall j :: 0 <= j < |init| ==> init[j] == q[j];
  }

  /** The lock as its destructor sees it: no thread is inside a call any more. */
  class DyingLock {
    var mPred: array<Pred>
    var alive: array<bool>
    var mTail: int

    constructor (s: State)
      requires |s.pred| == |s.alive|
      ensures mPred[..] == s.pred && alive[..] == s.alive && mTail == s.tail
      ensures fresh(mPred) && fresh(alive)
    {
      mPred := new Pred[|s.pred|](i requires 0 <= i < |s.pred| => s.pred[i]);
      alive := new bool[|s.alive|](i requires 0 <= i < |s.alive| => s.alive[i]);
      mTail := s.tail;
    }

    /** Deleting a cell a second time is an error. */
    method Delete(n: int)
      requires mPred.Length == alive.Length && 0 <= n < alive.Length && alive[n]
      modifies alive
      ensures alive[..] == old(alive[..])[n := false]
    {
      alive[n] := false;
    }

    /** Follows the chain from the tail and deletes each of its nodes; afterwards none is left. */
    method Destroy(ghost s: State, ghost x: Aux)
      requires mPred[..] == s.pred && alive[..] == s.alive && mTail == s.tail
      requires Inv(s, x) && Quiescent(s)
      modifies this`mTail, alive
      ensures mTail == NONE && mPred == old(mPred) && alive == old(alive)
      ensures forall n :: 0 <= n < alive.Length ==> !alive[n]
    {
      QuiescentChain(s, x);
      assert |s.pred| == |s.alive| && Tail(s.tail, x.q);
      assert x.q != [] ==> ChainAt(x.q, s.pred, |x.q| - 1);
      hide Inv, Quiescent, ChainOf, Distinct;
      var node := if mTail == NONE then Null else At(mTail);
      mTail := NONE;
      ghost var k := |x.q|;
      while node.At?
        invariant 0 <= k <= |x.q|
        invariant mTail == NONE && mPred[..] == s.pred && |alive[..]| == |s.pred|
        invariant k > 0 ==> node == At(x.q[k - 1])
        invariant k == 0 ==> !node.At?
        invariant forall n :: 0 <= n < alive.Length ==> (alive[n] <==> n in x.q[..k])
        decreases k
      {
        var n := node.node;
        LastOfPrefix(x.q, s.pred, k);
        assert mPred[n] == mPred[..][n];
        var pred := mPred[n];
        Delete(n);
        node := pred;
        k := k - 1;
      }
    }
  }

  /** At quiescence of any run the destructor's precondition holds. */
  lemma QuiescentRunsCanBeDestroyed(states: seq<State>, steps: seq<Step>, n: nat) returns (x: Aux)
    requires IsRun(states, steps) && n <= |steps| && Quiescent(states[n])
    ensures Inv(states[n], x) && ChainOf(x.q, states[n].pred) && Tail(states[n].tail, x.q) && Distinct(x.q)
    ensures forall c :: 0 <= c < |states[n].alive| ==> (states[n].alive[c] <==> c in x.q)
  {
    x := RunKeeps(states, steps, n);
    QuiescentChain(states[n], x);
  }
}
