/**
  The striped hash map: a fixed vector of mutexes, each guarding every bucket whose index is
  congruent to its own, and a table that doubles while all mutexes are held.

  One step is one atomic access, one mutex operation, or work on one bucket; the work on a bucket
  is two steps, so that the locks have to keep the position that was looked up valid.
*/
module StripedMap {
  import opened Arithmetic
  import opened BucketTable
  import opened Sequences

  const FREE: int := -1
  const SIZE_RANGE: nat := 0x1_0000_0000_0000_0000

  datatype Pc =
    | Idle
    | Acquire
    | Look
    | Act(i: nat, p: nat)
    | IncSize
    | DecSize
    | Unlock
    | ReadSize
    | Drop(prev: nat)
    | LockAll(prev: nat, j: nat)
    | CheckSize(prev: nat)
    | Build(prev: nat, j: nat, table: seq<Bucket>)
    | Swap(prev: nat, table: seq<Bucket>)
    | UnlockAll(j: nat)

  datatype Thread = Thread(op: Op, result: Option<Value>, pc: Pc)

  datatype State = State(hash: Hash, locks: seq<int>, buckets: seq<Bucket>, size: nat, threads: seq<Thread>)

  datatype Step = Begin(t: nat, op: Op) | Run(t: nat)

  ghost predicate Init(s: State) {
    && s.buckets != [] && s.buckets == EmptyTable(|s.buckets|)
    && |s.locks| == |s.buckets| && (forall i :: 0 <= i < |s.locks| ==> s.locks[i] == FREE)
    && s.size == 0
    && forall t :: 0 <= t < |s.threads| ==> s.threads[t].pc.Idle?
  }

  // ---------------------------------------------------------------- steps

  /** `hashValue % mLocks.size()`. */
  function Slot(s: State, th: Thread): (i: nat)
    requires s.locks != []
    ensures i < |s.locks|
  {
    Index(s.hash(th.op.key), |s.locks|)
  }

  /** The next step waits for a mutex that is taken. */
  predicate Blocked(s: State, t: nat)
    requires t < |s.threads|
  {
    match s.threads[t].pc
    case Acquire => s.locks != [] && s.locks[Slot(s, s.threads[t])] != FREE
    case LockAll(_, j) => j < |s.locks| && s.locks[j] != FREE
    case _ => false
  }

  predicate Owns(s: State, t: nat)
    requires t < |s.threads|
  {
    s.locks != [] && s.locks[Slot(s, s.threads[t])] == t
  }

  /** Every index is in range and every mutex that is released is held by the thread. */
  predicate InBounds(s: State, t: nat)
    requires t < |s.threads|
  {
    && s.buckets != [] && s.locks != []
    && match s.threads[t].pc
       case Unlock => Owns(s, t)
       case Drop(_) => Owns(s, t)
       case Act(i, _) => i < |s.buckets|
       case CheckSize(prev) => prev > 0
       case Build(_, _, table) => table != []
       case UnlockAll(j) => j < |s.locks| ==> s.locks[j] == t
       case _ => true
  }

  predicate Enabled(s: State, a: Step) {
    && a.t < |s.threads|
    && match a
       case Begin(t, op) => s.threads[t].pc.Idle?
       case Run(t) => !s.threads[t].pc.Idle? && InBounds(s, t) && !Blocked(s, t)
  }

  function Goto(s: State, t: nat, pc: Pc): State
    requires t < |s.threads|
  {
    s.(threads := s.threads[t := s.threads[t].(pc := pc)])
  }

  function SetLock(s: State, i: nat, holder: int): State
    requires i < |s.locks|
  {
    s.(locks := s.locks[i := holder])
  }

  function Answer(s: State, t: nat): Option<Value>
    requires t < |s.threads| && s.threads[t].pc.Act? && s.threads[t].pc.i < |s.buckets|
  {
    var pc := s.threads[t].pc;
    var b := s.buckets[pc.i];
    if s.threads[t].op.FindKey? && pc.p < |b| then Some(b[pc.p].1) else None
  }

  /** The bodies of `find`, `addOrUpdate` and `remove` between acquiring and releasing the lock. */
  function DoAct(s: State, t: nat): State
    requires t < |s.threads| && s.threads[t].pc.Act? && s.threads[t].pc.i < |s.buckets|
  {
    var th, pc := s.threads[t], s.threads[t].pc;
    var b := s.buckets[pc.i];
    match th.op
    case FindKey(_) => s.(threads := s.threads[t := Thread(th.op, Answer(s, t), Unlock)])
    case AddOrUpdate(k, v) =>
      Goto(s.(buckets := s.buckets[pc.i := WriteAt(b, pc.p, k, v)]), t, if pc.p < |b| then Unlock else IncSize)
    case Remove(k) =>
      Goto(s.(buckets := s.buckets[pc.i := EraseAt(b, pc.p)]), t, if pc.p < |b| then DecSize else Unlock)
  }

  function DoLook(s: State, t: nat): State
    requires t < |s.threads| && s.buckets != []
  {
    var k := s.threads[t].op.key;
    var i := Index(s.hash(k), |s.buckets|);
    Goto(s, t, Act(i, Position(s.buckets[i], k)))
  }

  function DoBuild(s: State, t: nat, prev: nat, j: nat, table: seq<Bucket>): State
    requires t < |s.threads| && table != []
  {
    Goto(s, t, if j < |s.buckets| then Build(prev, j + 1, PlaceBucket(s.hash, table, s.buckets[j]))
               else Swap(prev, table))
  }

  function Next(s: State, a: Step): (s': State)
    requires Enabled(s, a)
    ensures |s'.threads| == |s.threads| && s'.threads == s.threads[a.t := s'.threads[a.t]]
    ensures s'.hash == s.hash && |s'.locks| == |s.locks|
  {
    match a
    case Begin(t, op) => s.(threads := s.threads[t := Thread(op, None, Acquire)])
    case Run(t) =>
      var th := s.threads[t];
      match th.pc
      case Acquire => Goto(SetLock(s, Slot(s, th), t), t, Look)
      case Look => DoLook(s, t)
      case Act(_, _) => DoAct(s, t)
      case IncSize =>
        Goto(s.(size := (s.size + 1) % SIZE_RANGE), t, if s.size / |s.buckets| > THRESHOLD then ReadSize else Unlock)
      case DecSize => Goto(s.(size := (s.size + SIZE_RANGE - 1) % SIZE_RANGE), t, Unlock)
      case Unlock => Goto(SetLock(s, Slot(s, th), FREE), t, Idle)
      case ReadSize => Goto(s, t, Drop(|s.buckets|))
      case Drop(prev) => Goto(SetLock(s, Slot(s, th), FREE), t, LockAll(prev, 0))
      case LockAll(prev, j) =>
        if j < |s.locks| then Goto(SetLock(s, j, t), t, LockAll(prev, j + 1)) else Goto(s, t, CheckSize(prev))
      case CheckSize(prev) =>
        Goto(s, t, if prev == |s.buckets| then Build(prev, 0, EmptyTable(2 * prev)) else UnlockAll(0))
      case Build(prev, j, table) => DoBuild(s, t, prev, j, table)
      case Swap(prev, table) => Goto(s.(buckets := table), t, UnlockAll(0))
      case UnlockAll(j) => if j < |s.locks| then Goto(SetLock(s, j, FREE), t, UnlockAll(j + 1)) else Goto(s, t, Idle)
  }

  function EventOf(s: State, a: Step): Event
    requires Enabled(s, a)
  {
    if a.Run? && s.threads[a.t].pc.Act? then Did(s.threads[a.t].op, Answer(s, a.t)) else Silent
  }

  // ---------------------------------------------------------------- the invariant

  /** The thread is inside `find`, `addOrUpdate` or `remove`, with the mutex of its key. */
  predicate Inside(pc: Pc) {
    pc.Look? || pc.Act? || pc.IncSize? || pc.DecSize? || pc.Unlock? || pc.ReadSize? || pc.Drop?
  }

  /** The thread holds every mutex. */
  predicate HoldsAll(pc: Pc) { pc.CheckSize? || pc.Build? || pc.Swap? }

  predicate HoldsLock(s: State, t: nat, i: nat)
    requires t < |s.threads|
  {
    var pc := s.threads[t].pc;
    || (Inside(pc) && s.locks != [] && Slot(s, s.threads[t]) == i)
    || (pc.LockAll? && i < pc.j)
    || HoldsAll(pc)
    || (pc.UnlockAll? && pc.j <= i)
  }

  /** The mutexes that are taken are exactly those that threads hold. */
  ghost predicate LocksOk(s: State) {
    && s.locks != []
    && (forall i :: 0 <= i < |s.locks| && s.locks[i] != FREE ==>
           0 <= s.locks[i] < |s.threads| && HoldsLock(s, s.locks[i], i))
    && forall t, i :: 0 <= t < |s.threads| && 0 <= i < |s.locks| && HoldsLock(s, t, i) ==> s.locks[i] == t
  }

  /** The number of buckets is a power-of-two multiple of the number of mutexes. */
  ghost predicate Stripes(locks: nat, buckets: nat) { exists e: nat :: buckets == locks * Pow2(e) }

  ghost predicate TableIs(s: State, m: map<Key, Value>) {
    TableOk(s.hash, s.buckets) && Represents(s.hash, s.buckets, m) && Stripes(|s.locks|, |s.buckets|)
  }

  ghost predicate WorkOk(s: State, t: nat)
    requires t < |s.threads| && s.buckets != []
  {
    var th := s.threads[t];
    match th.pc
    case Act(i, p) => i == Index(s.hash(th.op.key), |s.buckets|) && p == Position(s.buckets[i], th.op.key)
    case Drop(prev) => prev > 0
    case LockAll(prev, j) => j <= |s.locks| && prev > 0
    case CheckSize(prev) => prev > 0
    case Build(prev, j, table) =>
      prev == |s.buckets| && j <= |s.buckets| && table == Rehashed(s.hash, s.buckets[..j], 2 * prev)
    case Swap(prev, table) => prev == |s.buckets| && table == Rehashed(s.hash, s.buckets, 2 * prev)
    case UnlockAll(j) => j <= |s.locks|
    case _ => true
  }

  function Owed(th: Thread): int { if th.pc.IncSize? then 1 else if th.pc.DecSize? then -1 else 0 }

  function TotalOwed(ths: seq<Thread>): int { Sum(seq(|ths|, t requires 0 <= t < |ths| => Owed(ths[t]))) }

  ghost predicate CountOk(s: State, m: map<Key, Value>) {
    s.size < SIZE_RANGE && (s.size + TotalOwed(s.threads) - |m|) % SIZE_RANGE == 0
  }

  ghost predicate Inv(s: State, m: map<Key, Value>) {
    && TableIs(s, m) && LocksOk(s) && CountOk(s, m)
    && forall t :: 0 <= t < |s.threads| ==> WorkOk(s, t)
  }

  // ---------------------------------------------------------------- stripes

  /** The remainder by the number of mutexes can be read off the bucket index. */
  lemma SameStripe(h: nat, locks: nat, buckets: nat)
    requires locks > 0 && buckets > 0 && Stripes(locks, buckets)
    ensures Index(Index(h, buckets), locks) == Index(h, locks)
  {
    var e: nat :| buckets == locks * Pow2(e);
    var q, r := h / buckets, h % buckets;
    Regroup(locks, Pow2(e), q, r / locks);
    hide Pow2;
    DivModUnique(h, locks, Pow2(e) * q + r / locks, r % locks);
  }

  lemma Regroup(a: nat, b: nat, q: nat, u: nat)
    ensures a * (b * q + u) == (a * b) * q + a * u
  {
    assert a * (b * q + u) == a * (b * q) + a * u;
    assert a * (b * q) == (a * b) * q;
  }

  lemma DoubleStripes(locks: nat, buckets: nat)
    requires Stripes(locks, buckets)
    ensures Stripes(locks, 2 * buckets)
  {
    var e: nat :| buckets == locks * Pow2(e);
    assert 2 * buckets == locks * Pow2(e + 1);
  }

  /** Keys in one bucket share one mutex, so two threads inside operations work on different buckets. */
  lemma BucketsDiffer(s: State, m: map<Key, Value>, t: nat, u: nat)
    requires TableIs(s, m) && LocksOk(s) && t < |s.threads| && u < |s.threads| && t != u
    requires Inside(s.threads[t].pc) && Inside(s.threads[u].pc)
    ensures Index(s.hash(s.threads[t].op.key), |s.buckets|) != Index(s.hash(s.threads[u].op.key), |s.buckets|)
  {
    assert HoldsLock(s, t, Slot(s, s.threads[t])) && HoldsLock(s, u, Slot(s, s.threads[u]));
    SameStripe(s.hash(s.threads[t].op.key), |s.locks|, |s.buckets|);
    SameStripe(s.hash(s.threads[u].op.key), |s.locks|, |s.buckets|);
  }

  /** While a thread holds every mutex nobody is inside an operation and nobody else rebuilds. */
  lemma RebuildIsExclusive(s: State, r: nat, u: nat)
    requires LocksOk(s) && r < |s.threads| && u < |s.threads| && u != r && HoldsAll(s.threads[r].pc)
    ensures !Inside(s.threads[u].pc) && !HoldsAll(s.threads[u].pc)
  {
    if Inside(s.threads[u].pc) {
      OneHolder(s, r, u, Slot(s, s.threads[u]));
    } else if HoldsAll(s.threads[u].pc) {
      OneHolder(s, r, u, 0);
    }
  }

  lemma OneHolder(s: State, t: nat, u: nat, i: nat)
    requires LocksOk(s) && t < |s.threads| && u < |s.threads| && i < |s.locks| && HoldsLock(s, t, i)
    requires HoldsLock(s, u, i)
    ensures t == u
  {
  }

  // ---------------------------------------------------------------- mutexes

  /** The thread moves on and keeps exactly the mutexes it held. */
  lemma LocksStay(s: State, s': State, t: nat)
    requires LocksOk(s) && t < |s.threads| == |s'.threads| && s'.hash == s.hash && s'.locks == s.locks
    requires s'.threads == s.threads[t := s'.threads[t]]
    requires forall i :: 0 <= i < |s.locks| ==> (HoldsLock(s', t, i) <==> HoldsLock(s, t, i))
    ensures LocksOk(s')
  {
    forall u, i | 0 <= u < |s'.threads| && 0 <= i < |s'.locks| && HoldsLock(s', u, i) ensures s'.locks[i] == u {
      assert HoldsLock(s, u, i);
    }
    forall i | 0 <= i < |s'.locks| && s'.locks[i] != FREE
      ensures 0 <= s'.locks[i] < |s'.threads| && HoldsLock(s', s'.locks[i], i)
    {
      assert HoldsLock(s, s.locks[i], i);
    }
  }

  /** The thread takes or gives back mutex `k`. */
  lemma LockMoves(s: State, s': State, t: nat, k: nat)
    requires LocksOk(s) && t < |s.threads| == |s'.threads| && s'.hash == s.hash
    requires s'.threads == s.threads[t := s'.threads[t]] && k < |s.locks|
    requires
      || (s.locks[k] == FREE && s'.locks == s.locks[k := t] && HoldsLock(s', t, k))
      || (s.locks[k] == t && s'.locks == s.locks[k := FREE] && !HoldsLock(s', t, k))
    requires forall i :: 0 <= i < |s.locks| && i != k ==> (HoldsLock(s', t, i) <==> HoldsLock(s, t, i))
    ensures LocksOk(s')
  {
    forall u, i | 0 <= u < |s'.threads| && 0 <= i < |s'.locks| && HoldsLock(s', u, i) ensures s'.locks[i] == u {
      if u != t || i != k {
        assert HoldsLock(s, u, i);
      }
    }
    forall i | 0 <= i < |s'.locks| && s'.locks[i] != FREE
      ensures 0 <= s'.locks[i] < |s'.threads| && HoldsLock(s', s'.locks[i], i)
    {
      if i != k {
        assert HoldsLock(s, s.locks[i], i);
      }
    }
  }

  predicate MovesLock(s: State, t: nat)
    requires t < |s.threads|
  {
    var pc := s.threads[t].pc;
    pc.Acquire? || pc.Unlock? || pc.Drop? || (pc.LockAll? && pc.j < |s.locks|) || (pc.UnlockAll? && pc.j < |s.locks|)
  }

  lemma TakingKeepsLocks(s: State, t: nat)
    requires LocksOk(s) && Enabled(s, Run(t)) && MovesLock(s, t)
    ensures LocksOk(Next(s, Run(t)))
  {
    var pc := s.threads[t].pc;
    var k := if pc.LockAll? || pc.UnlockAll? then pc.j else Slot(s, s.threads[t]);
    var s' := Next(s, Run(t));
    assert HoldsLock(s, t, k) <==> s.locks[k] == t;
    hide LocksOk;
    LockMoves(s, s', t, k);
  }

  lemma OthersKeepLocks(s: State, a: Step)
    requires LocksOk(s) && s.buckets != [] && Enabled(s, a) && (a.Run? ==> !MovesLock(s, a.t))
    requires a.t < |s.threads| && WorkOk(s, a.t)
    ensures LocksOk(Next(s, a))
  {
    var s' := Next(s, a);
    hide LocksOk, Position, PlaceBucket, WriteAt, EraseAt;
    LocksStay(s, s', a.t);
  }

  // ---------------------------------------------------------------- the steps

  /** The bucket operation does to the table what the call does to the abstract map. */
  lemma ActRefines(s: State, m: map<Key, Value>, t: nat)
    requires TableIs(s, m) && t < |s.threads| && s.threads[t].pc.Act?
    requires var th := s.threads[t];
             && th.pc.i == Index(s.hash(th.op.key), |s.buckets|) && th.pc.p == Position(s.buckets[th.pc.i], th.op.key)
    ensures TableIs(DoAct(s, t), Apply(m, s.threads[t].op))
    ensures Answer(s, t) == AnswerOn(m, s.threads[t].op)
    ensures s.threads[t].pc.p < |s.buckets[s.threads[t].pc.i]| <==> s.threads[t].op.key in m
  {
    var op := s.threads[t].op;
    assert FindIn(s.hash, s.buckets, op.key) == if op.key in m then Some(m[op.key]) else Option.None;
    match op
    case FindKey(_) =>
    case AddOrUpdate(k, v) => WriteRepresents(s.hash, s.buckets, m, k, v);
    case Remove(k) => EraseRepresents(s.hash, s.buckets, m, k);
  }

  ghost predicate Local(s: State, m: map<Key, Value>, t: nat) {
    TableIs(s, m) && LocksOk(s) && t < |s.threads| && WorkOk(s, t)
  }

  lemma SwapKeepsTable(s: State, m: map<Key, Value>, t: nat)
    requires Local(s, m, t) && Enabled(s, Run(t)) && s.threads[t].pc.Swap?
    ensures TableIs(Next(s, Run(t)), m)
  {
    RehashKeeps(s.hash, s.buckets, 2 * |s.buckets|, m);
    DoubleStripes(|s.locks|, |s.buckets|);
  }

  lemma TableKeeps(s: State, m: map<Key, Value>, a: Step)
    requires Local(s, m, a.t) && Enabled(s, a)
    ensures TableIs(Next(s, a), Update(m, EventOf(s, a)))
  {
    if a.Run? && s.threads[a.t].pc.Act? {
      ActRefines(s, m, a.t);
      hide TableIs, Apply;
    } else if a.Run? && s.threads[a.t].pc.Swap? {
      SwapKeepsTable(s, m, a.t);
    } else {
      QuietTable(s, a);
    }
  }

  lemma QuietTable(s: State, a: Step)
    requires Enabled(s, a) && (a.Run? ==> !s.threads[a.t].pc.Act? && !s.threads[a.t].pc.Swap?)
    ensures Next(s, a).buckets == s.buckets && Next(s, a).hash == s.hash && |Next(s, a).locks| == |s.locks|
    ensures EventOf(s, a) == Silent
  {
    hide InBounds, Blocked, PlaceBucket, Position;
  }

  /** A step of thread `a.t`, seen from the work of another thread. */
  lemma OtherWork(s: State, m: map<Key, Value>, a: Step, u: nat)
    requires Local(s, m, a.t) && Enabled(s, a) && u < |s.threads| && u != a.t && WorkOk(s, u)
    ensures Next(s, a).buckets != [] && WorkOk(Next(s, a), u)
  {
    var t := a.t;
    if a.Run? && s.threads[t].pc.Act? {
      if s.threads[u].pc.Act? {
        BucketsDiffer(s, m, t, u);
      }
      if HoldsAll(s.threads[u].pc) {
        RebuildIsExclusive(s, u, t);
      }
      ActFrame(s, t);
    } else if a.Run? && s.threads[t].pc.Swap? {
      RebuildIsExclusive(s, t, u);
    } else {
      QuietTable(s, a);
    }
    hide LocksOk, TableOk, Represents, Enabled;
  }

  lemma ActFrame(s: State, t: nat)
    requires Enabled(s, Run(t)) && s.threads[t].pc.Act?
    ensures var b := Next(s, Run(t)).buckets;
            |b| == |s.buckets| && forall j :: 0 <= j < |b| && j != s.threads[t].pc.i ==> b[j] == s.buckets[j]
  {
  }

  lemma OwnWork(s: State, m: map<Key, Value>, a: Step)
    requires Local(s, m, a.t) && Enabled(s, a)
    ensures Next(s, a).buckets != [] && WorkOk(Next(s, a), a.t)
  {
    if a.Run? && s.threads[a.t].pc.Build? {
      OwnBuild(s, m, a.t);
    } else {
      assert s.buckets[..0] == [];
      hide LocksOk, Represents, PlaceBucket, Position;
    }
  }

  lemma OwnBuild(s: State, m: map<Key, Value>, t: nat)
    requires Local(s, m, t) && Enabled(s, Run(t)) && s.threads[t].pc.Build?
    ensures Next(s, Run(t)).buckets != [] && WorkOk(Next(s, Run(t)), t)
  {
    var pc := s.threads[t].pc;
    if pc.j < |s.buckets| {
      assert s.buckets[..pc.j + 1][..pc.j] == s.buckets[..pc.j];
      assert Rehashed(s.hash, s.buckets[..pc.j + 1], 2 * pc.prev) == PlaceBucket(s.hash, pc.table, s.buckets[pc.j]);
    } else {
      assert s.buckets[..pc.j] == s.buckets;
    }
    hide LocksOk, TableIs, PlaceBucket, PlaceTable;
  }

  // ---------------------------------------------------------------- the counter

  lemma TotalOwedUpdate(ths: seq<Thread>, t: nat, th: Thread)
    requires t < |ths|
    ensures TotalOwed(ths[t := th]) == TotalOwed(ths) - Owed(ths[t]) + Owed(th)
  {
    var debts := seq(|ths|, u requires 0 <= u < |ths| => Owed(ths[u]));
    SumUpdate(debts, t, Owed(th));
    assert debts[t := Owed(th)] == seq(|ths|, u requires 0 <= u < |ths| => Owed(ths[t := th][u]));
  }

  lemma TotalOwedIdle(ths: seq<Thread>)
    requires forall t :: 0 <= t < |ths| ==> ths[t].pc.Idle?
    ensures TotalOwed(ths) == 0
  {
    SumOfZeros(seq(|ths|, t requires 0 <= t < |ths| => Owed(ths[t])));
  }

  function CounterMove(s: State, a: Step): int
    requires a.t < |s.threads|
  {
    if !a.Run? then 0 else if s.threads[a.t].pc.IncSize? then 1 else if s.threads[a.t].pc.DecSize? then -1 else 0
  }

  /** Counter, debts and map move together. */
  ghost predicate CountStep(s: State, m: map<Key, Value>, a: Step, s': State, m': map<Key, Value>)
    requires a.t < |s.threads|
  {
    && |s'.threads| == |s.threads| && s'.threads == s.threads[a.t := s'.threads[a.t]]
    && s'.size == Wrapped(s.size, CounterMove(s, a), SIZE_RANGE)
    && Owed(s'.threads[a.t]) - Owed(s.threads[a.t]) == |m'| - |m| - CounterMove(s, a)
  }

  lemma ActCounts(s: State, m: map<Key, Value>, t: nat)
    requires Local(s, m, t) && Enabled(s, Run(t)) && s.threads[t].pc.Act?
    ensures CountStep(s, m, Run(t), Next(s, Run(t)), Update(m, EventOf(s, Run(t))))
  {
    ActRefines(s, m, t);
    ApplySize(m, s.threads[t].op);
    hide Local, TableIs, WriteAt, EraseAt, InBounds, Blocked, Apply;
  }

  lemma OtherCounts(s: State, m: map<Key, Value>, a: Step)
    requires Enabled(s, a) && (a.Run? ==> !s.threads[a.t].pc.Act?)
    ensures CountStep(s, m, a, Next(s, a), Update(m, EventOf(s, a)))
  {
    hide InBounds, Blocked, PlaceBucket, Position;
  }

  lemma CountStepKeeps(s: State, m: map<Key, Value>, a: Step, s': State, m': map<Key, Value>)
    requires a.t < |s.threads| && CountOk(s, m) && CountStep(s, m, a, s', m')
    ensures CountOk(s', m')
  {
    TotalOwedUpdate(s.threads, a.t, s'.threads[a.t]);
    var d := CounterMove(s, a);
    hide TotalOwed, Owed;
    CountMoves(s.size, TotalOwed(s.threads), |m|, s'.size, TotalOwed(s'.threads), |m'|, d, SIZE_RANGE);
  }

  lemma CountKeeps(s: State, m: map<Key, Value>, a: Step)
    requires Local(s, m, a.t) && CountOk(s, m) && Enabled(s, a)
    ensures CountOk(Next(s, a), Update(m, EventOf(s, a)))
  {
    assert a.t < |s.threads|;
    hide Local, CountStep, CountOk;
    if a.Run? && s.threads[a.t].pc.Act? {
      ActCounts(s, m, a.t);
    } else {
      OtherCounts(s, m, a);
    }
    hide Next, Enabled, Update;
    CountStepKeeps(s, m, a, Next(s, a), Update(m, EventOf(s, a)));
  }

  /** Every step of every thread keeps the protocol and does to the map what its event says. */
  lemma StepKeeps(s: State, m: map<Key, Value>, a: Step)
    requires Inv(s, m) && Enabled(s, a)
    ensures Inv(Next(s, a), Update(m, EventOf(s, a)))
  {
    assert Local(s, m, a.t) && s.buckets != [];
    TableKeeps(s, m, a);
    CountKeeps(s, m, a);
    if a.Run? && MovesLock(s, a.t) {
      TakingKeepsLocks(s, a.t);
    } else {
      OthersKeepLocks(s, a);
    }
    OwnWork(s, m, a);
    hide Next, Enabled, LocksOk, CountOk, TableIs, WorkOk, Local, Update, EventOf;
    forall u | 0 <= u < |Next(s, a).threads| ensures WorkOk(Next(s, a), u) {
      if u != a.t {
        OtherWork(s, m, a, u);
      }
    }
  }

  // ---------------------------------------------------------------- what the invariant says

  lemma NoFault(s: State, m: map<Key, Value>, t: nat)
    requires Inv(s, m) && t < |s.threads| && !s.threads[t].pc.Idle?
    ensures InBounds(s, t) && (Enabled(s, Run(t)) <==> !Blocked(s, t))
  {
    assert WorkOk(s, t);
    var pc := s.threads[t].pc;
    if Inside(pc) {
      assert HoldsLock(s, t, Slot(s, s.threads[t]));
    }
    if pc.UnlockAll? && pc.j < |s.locks| {
      assert HoldsLock(s, t, pc.j);
    }
    hide TableIs, CountOk;
  }

  /** The mutex that thread `t` is about to take. */
  predicate WaitsAt(s: State, t: nat, i: nat)
    requires t < |s.threads| && s.locks != []
  {
    var pc := s.threads[t].pc;
    (pc.Acquire? && Slot(s, s.threads[t]) == i) || (pc.LockAll? && pc.j == i)
  }

  /**
    No deadlock: all mutexes are taken in ascending order, so following the holder of the mutex a
    thread waits for leads to a thread that can take a step.
  */
  lemma {:induction false} SomeoneRuns(s: State, m: map<Key, Value>, t: nat, i: nat) returns (u: nat)
    requires Inv(s, m) && t < |s.threads| && i < |s.locks| && WaitsAt(s, t, i) && Blocked(s, t)
    ensures u < |s.threads| && Enabled(s, Run(u))
    decreases |s.locks| - i
  {
    var h := s.locks[i];
    assert h != FREE && HoldsLock(s, h, i);
    NoFault(s, m, h);
    if Blocked(s, h) {
      assert s.threads[h].pc.LockAll?;
      u := SomeoneRuns(s, m, h, s.threads[h].pc.j);
    } else {
      u := h;
    }
  }

  // ---------------------------------------------------------------- whole runs

  ghost predicate IsRun(states: seq<State>, steps: seq<Step>) {
    && |states| == |steps| + 1 && Init(states[0])
    && forall i :: 0 <= i < |steps| ==> Enabled(states[i], steps[i]) && states[i + 1] == Next(states[i], steps[i])
  }

  ghost function ModelAt(states: seq<State>, steps: seq<Step>, n: nat): map<Key, Value>
    requires IsRun(states, steps) && n <= |steps|
  {
    if n == 0 then map[] else Update(ModelAt(states, steps, n - 1), EventOf(states[n - 1], steps[n - 1]))
  }

  lemma InitOk(s: State)
    requires Init(s)
    ensures Inv(s, map[])
  {
    EmptyTableOk(s.hash, |s.buckets|);
    TotalOwedIdle(s.threads);
    assert |s.buckets| == |s.locks| * Pow2(0);
    hide TableOk;
  }

  lemma {:induction false} RunKeeps(states: seq<State>, steps: seq<Step>, n: nat)
    requires IsRun(states, steps) && n <= |steps|
    ensures Inv(states[n], ModelAt(states, steps, n))
  {
    hide Inv, Next;
    if n == 0 {
      InitOk(states[0]);
    } else {
      RunKeeps(states, steps, n - 1);
      StepKeeps(states[n - 1], ModelAt(states, steps, n - 1), steps[n - 1]);
    }
  }

  /** Every operation answers as the abstract map does at the instant of its bucket operation. */
  lemma RunRefinesMap(states: seq<State>, steps: seq<Step>, n: nat)
    requires IsRun(states, steps) && n < |steps| && EventOf(states[n], steps[n]).Did?
    ensures var e, m := EventOf(states[n], steps[n]), ModelAt(states, steps, n);
            && e.op == states[n].threads[steps[n].t].op && e.answer == AnswerOn(m, e.op)
            && ModelAt(states, steps, n + 1) == Apply(m, e.op)
  {
    RunKeeps(states, steps, n);
    assert WorkOk(states[n], steps[n].t);
    hide Next, Enabled, LocksOk, CountOk, TableIs;
    ActRefines(states[n], ModelAt(states, steps, n), steps[n].t);
  }

  /** What thread `t` has done since its latest call began. */
  ghost function CallEvents(states: seq<State>, steps: seq<Step>, n: nat, t: nat): seq<Event>
    requires IsRun(states, steps) && n <= |steps|
  {
    if n == 0 then []
    else if steps[n - 1].t != t then CallEvents(states, steps, n - 1, t)
    else if steps[n - 1].Begin? then []
    else if EventOf(states[n - 1], steps[n - 1]).Silent? then CallEvents(states, steps, n - 1, t)
    else CallEvents(states, steps, n - 1, t) + [EventOf(states[n - 1], steps[n - 1])]
  }

  /** The call is past its bucket operation. */
  predicate PastAct(pc: Pc) { !pc.Idle? && !pc.Acquire? && !pc.Look? && !pc.Act? }

  ghost predicate CallOk(th: Thread, events: seq<Event>) {
    && (!th.pc.Idle? ==> events == if PastAct(th.pc) then [Did(th.op, th.result)] else [])
    && (!th.pc.Idle? && !PastAct(th.pc) ==> th.result == Option.None)
  }

  /** Only the bucket operation moves a call from before to past its effect. */
  lemma PastActKept(s: State, t: nat)
    requires Enabled(s, Run(t)) && !s.threads[t].pc.Act?
    ensures var th, th' := s.threads[t], Next(s, Run(t)).threads[t];
            th'.op == th.op && th'.result == th.result && (th'.pc.Idle? || (PastAct(th'.pc) <==> PastAct(th.pc)))
  {
    hide InBounds, Blocked, PlaceBucket, Position;
  }

  lemma ActEvent(s: State, t: nat)
    requires Enabled(s, Run(t)) && s.threads[t].pc.Act? && s.threads[t].result == Option.None
    ensures var th, th' := s.threads[t], Next(s, Run(t)).threads[t];
            PastAct(th'.pc) && EventOf(s, Run(t)) == Did(th'.op, th'.result)
  {
    hide Blocked, WriteAt, EraseAt;
  }

  lemma CallStep(s: State, a: Step, events: seq<Event>)
    requires Enabled(s, a) && CallOk(s.threads[a.t], events)
    ensures var e := EventOf(s, a);
            CallOk(Next(s, a).threads[a.t], if a.Begin? then [] else if e.Silent? then events else events + [e])
  {
    if a.Run? {
      if s.threads[a.t].pc.Act? {
        ActEvent(s, a.t);
      } else {
        PastActKept(s, a.t);
      }
      hide Next;
    }
    hide InBounds, Blocked, Answer;
  }

  /**
    Each call operates on the abstract map exactly once, between its begin and its return, and
    returns the answer it got there.
  */
  lemma {:induction false} CallsAreAtomic(states: seq<State>, steps: seq<Step>, n: nat, t: nat)
    requires IsRun(states, steps) && n <= |steps| && t < |states[n].threads|
    ensures CallOk(states[n].threads[t], CallEvents(states, steps, n, t))
  {
    if n != 0 {
      var s, a := states[n - 1], steps[n - 1];
      assert Enabled(s, a) && a.t < |s.threads|;
      hide Next, Enabled, CallOk, EventOf;
      CallsAreAtomic(states, steps, n - 1, t);
      if a.t == t {
        CallStep(s, a, CallEvents(states, steps, n - 1, t));
      }
    }
  }

  /**
    In every reachable state the bucket count is a power-of-two multiple of the mutex count, no two
    threads inside operations share a bucket, and nobody is inside while the table is rebuilt.
  */
  lemma StripesGuardBuckets(states: seq<State>, steps: seq<Step>, n: nat, t: nat, u: nat)
    requires IsRun(states, steps) && n <= |steps| && t < |states[n].threads| && u < |states[n].threads| && t != u
    ensures Stripes(|states[n].locks|, |states[n].buckets|) && states[n].buckets != []
    ensures !states[n].threads[t].pc.Idle? ==> InBounds(states[n], t)
    ensures HoldsAll(states[n].threads[u].pc) ==> !Inside(states[n].threads[t].pc)
    ensures Inside(states[n].threads[t].pc) && Inside(states[n].threads[u].pc) ==>
              Index(states[n].hash(states[n].threads[t].op.key), |states[n].buckets|)
              != Index(states[n].hash(states[n].threads[u].op.key), |states[n].buckets|)
  {
    var s, m := states[n], ModelAt(states, steps, n);
    RunKeeps(states, steps, n);
    assert TableIs(s, m) && LocksOk(s) && s.buckets != [];
    if !s.threads[t].pc.Idle? {
      NoFault(s, m, t);
    }
    hide Inv, IsRun, LocksOk, InBounds;
    if HoldsAll(s.threads[u].pc) {
      RebuildIsExclusive(s, u, t);
    }
    if Inside(s.threads[t].pc) && Inside(s.threads[u].pc) {
      BucketsDiffer(s, m, t, u);
    }
  }

  /** With no call in progress the counter is the number of keys. */
  lemma QuiescentSize(states: seq<State>, steps: seq<Step>, n: nat)
    requires IsRun(states, steps) && n <= |steps|
    requires forall t :: 0 <= t < |states[n].threads| ==> states[n].threads[t].pc.Idle?
    ensures states[n].size == |ModelAt(states, steps, n)| % SIZE_RANGE
  {
    assert n < |states|;
    RunKeeps(states, steps, n);
    hide IsRun, TotalOwed;
    TotalOwedIdle(states[n].threads);
    NothingOwed(states[n], ModelAt(states, steps, n));
  }

  lemma NothingOwed(s: State, m: map<Key, Value>)
    requires Inv(s, m) && TotalOwed(s.threads) == 0
    ensures s.size == |m| % SIZE_RANGE
  {
    ResidueIsUnique(s.size, TotalOwed(s.threads), |m|, SIZE_RANGE);
  }
}
