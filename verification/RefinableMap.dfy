/**
  The refinable hash map: one mutex per bucket, and a vector of mutexes that is replaced when the
  table is rebuilt.  One step is one atomic access, one mutex operation, or work on one bucket.

  The work on a bucket is two steps, looking up a position and then using it, so that the lock
  protocol has to keep the position valid in between.  Mutex vectors are numbered in the order
  in which they are published; the hazard pointer that keeps an old one allocated has no state
  here.
*/
module RefinableMap {
  import opened Arithmetic
  import opened BucketTable
  import opened Sequences

  const FREE: int := -1
  const NONE: int := -1
  const SIZE_RANGE: nat := 0x1_0000_0000_0000_0000

  /** `locks` is the number of the mutex vector a thread has loaded, `prev` the bucket count it has read. */
  datatype Pc =
    | Idle
    | AcqSpin
    | AcqLoad
    | AcqReload(locks: nat)
    | AcqLock(locks: nat)
    | AcqHeld(locks: nat)
    | AcqCheck(locks: nat)
    | AcqDrop(locks: nat)
    | Look(locks: nat)
    | Act(locks: nat, i: nat, p: nat)
    | IncSize(locks: nat)
    | DecSize(locks: nat)
    | Unlock(locks: nat)
    | ReadSize(locks: nat)
    | Drop(locks: nat, prev: nat)
    | SetFlag(prev: nat)
    | CheckSize(prev: nat)
    | LoadLocks(prev: nat)
    | LockOld(prev: nat, vec: nat, j: nat)
    | UnlockOld(prev: nat, vec: nat, j: nat)
    | Build(prev: nat, vec: nat, j: nat, table: seq<Bucket>)
    | Swap(prev: nat, vec: nat, table: seq<Bucket>)
    | Publish(prev: nat, vec: nat)
    | ClearFlag

  datatype Thread = Thread(op: Op, result: Option<Value>, pc: Pc)

  datatype State = State(
    hash: Hash,
    locks: seq<seq<int>>, cur: nat, rehash: bool, buckets: seq<Bucket>, size: nat, threads: seq<Thread>)

  datatype Step = Begin(t: nat, op: Op) | Run(t: nat)

  ghost predicate Init(s: State) {
    && s.buckets != [] && s.buckets == EmptyTable(|s.buckets|)
    && s.locks == [Unlocked(|s.buckets|)] && s.cur == 0
    && !s.rehash && s.size == 0
    && forall t :: 0 <= t < |s.threads| ==> s.threads[t].pc.Idle?
  }

  function Unlocked(n: nat): seq<int> { seq(n, _ => FREE) }

  // ---------------------------------------------------------------- steps

  predicate IsLocks(s: State, v: nat) { v < |s.locks| && s.locks[v] != [] }

  /** `hashValue % locks->size()`. */
  function Slot(s: State, th: Thread, v: nat): (i: nat)
    requires IsLocks(s, v)
    ensures i < |s.locks[v]|
  {
    Index(s.hash(th.op.key), |s.locks[v]|)
  }

  /** The next step waits for a mutex that is taken. */
  predicate Blocked(s: State, t: nat)
    requires t < |s.threads|
  {
    match s.threads[t].pc
    case AcqLock(v) => IsLocks(s, v) && s.locks[v][Slot(s, s.threads[t], v)] != FREE
    case LockOld(_, v, j) => v < |s.locks| && j < |s.locks[v]| && s.locks[v][j] != FREE
    case _ => false
  }

  predicate Owns(s: State, t: nat, v: nat)
    requires t < |s.threads|
  {
    IsLocks(s, v) && s.locks[v][Slot(s, s.threads[t], v)] == t
  }

  /** Every index is in range and every mutex that is released is held by the thread. */
  predicate InBounds(s: State, t: nat)
    requires t < |s.threads|
  {
    && s.buckets != []
    && match s.threads[t].pc
       case AcqLock(v) => IsLocks(s, v)
       case AcqDrop(v) => Owns(s, t, v)
       case Unlock(v) => Owns(s, t, v)
       case Drop(v, _) => Owns(s, t, v)
       case Act(_, i, _) => i < |s.buckets|
       case LockOld(prev, v, _) => v < |s.locks| && prev > 0
       case UnlockOld(_, v, j) => v < |s.locks| && j < |s.locks[v]| && s.locks[v][j] == t
       case Build(_, _, _, table) => table != []
       case _ => true
  }

  predicate Enabled(s: State, a: Step) {
    && a.t < |s.threads|
    && match a
       case Begin(t, op) => s.threads[t].pc.Idle?
       case Run(t) => !s.threads[t].pc.Idle? && InBounds(s, t) && !Blocked(s, t)
  }

  function Goto(s: State, t: nat, pc: Pc): State
    requires t < |s.threads|
  {
    s.(threads := s.threads[t := s.threads[t].(pc := pc)])
  }

  function SetLock(s: State, v: nat, i: nat, holder: int): State
    requires v < |s.locks| && i < |s.locks[v]|
  {
    s.(locks := s.locks[v := s.locks[v][i := holder]])
  }

  function Answer(s: State, t: nat): Option<Value>
    requires t < |s.threads| && s.threads[t].pc.Act? && s.threads[t].pc.i < |s.buckets|
  {
    var pc := s.threads[t].pc;
    var b := s.buckets[pc.i];
    if s.threads[t].op.FindKey? && pc.p < |b| then Some(b[pc.p].1) else None
  }

  /** The bodies of `find`, `addOrUpdate` and `remove` between acquiring and releasing the lock. */
  function DoAct(s: State, t: nat): State
    requires t < |s.threads| && s.threads[t].pc.Act? && s.threads[t].pc.i < |s.buckets|
  {
    var th, pc := s.threads[t], s.threads[t].pc;
    var b := s.buckets[pc.i];
    match th.op
    case FindKey(_) => s.(threads := s.threads[t := Thread(th.op, Answer(s, t), Unlock(pc.locks))])
    case AddOrUpdate(k, v) =>
      Goto(s.(buckets := s.buckets[pc.i := WriteAt(b, pc.p, k, v)]), t,
           if pc.p < |b| then Unlock(pc.locks) else IncSize(pc.locks))
    case Remove(k) =>
      Goto(s.(buckets := s.buckets[pc.i := EraseAt(b, pc.p)]), t,
           if pc.p < |b| then DecSize(pc.locks) else Unlock(pc.locks))
  }

  function DoLook(s: State, t: nat, v: nat): State
    requires t < |s.threads| && s.buckets != []
  {
    var k := s.threads[t].op.key;
    var i := Index(s.hash(k), |s.buckets|);
    Goto(s, t, Act(v, i, Position(s.buckets[i], k)))
  }

  function DoLockOld(s: State, t: nat, prev: nat, v: nat, j: nat): State
    requires t < |s.threads| && v < |s.locks|
  {
    if j < |s.locks[v]| then Goto(SetLock(s, v, j, t), t, UnlockOld(prev, v, j))
    else Goto(s, t, Build(prev, v, 0, EmptyTable(2 * prev)))
  }

  function DoBuild(s: State, t: nat, prev: nat, v: nat, j: nat, table: seq<Bucket>): State
    requires t < |s.threads| && table != []
  {
    Goto(s, t, if j < |s.buckets| then Build(prev, v, j + 1, PlaceBucket(s.hash, table, s.buckets[j]))
               else Swap(prev, v, table))
  }

  function Next(s: State, a: Step): (s': State)
    requires Enabled(s, a)
    ensures |s'.threads| == |s.threads| && s'.threads == s.threads[a.t := s'.threads[a.t]] && s'.hash == s.hash
  {
    match a
    case Begin(t, op) => s.(threads := s.threads[t := Thread(op, None, AcqSpin)])
    case Run(t) =>
      var th := s.threads[t];
      match th.pc
      case AcqSpin => if s.rehash then s else Goto(s, t, AcqLoad)
      case AcqLoad => Goto(s, t, AcqReload(s.cur))
      case AcqReload(v) => Goto(s, t, if v == s.cur then AcqLock(v) else AcqSpin)
      case AcqLock(v) => Goto(SetLock(s, v, Slot(s, th, v), t), t, AcqHeld(v))
      case AcqHeld(v) => Goto(s, t, if s.rehash then AcqDrop(v) else AcqCheck(v))
      case AcqCheck(v) => Goto(s, t, if v == s.cur then Look(v) else AcqDrop(v))
      case AcqDrop(v) => Goto(SetLock(s, v, Slot(s, th, v), FREE), t, AcqSpin)
      case Look(v) => DoLook(s, t, v)
      case Act(_, _, _) => DoAct(s, t)
      case IncSize(v) =>
        Goto(s.(size := (s.size + 1) % SIZE_RANGE), t,
             if s.size / |s.buckets| > THRESHOLD then ReadSize(v) else Unlock(v))
      case DecSize(v) => Goto(s.(size := (s.size + SIZE_RANGE - 1) % SIZE_RANGE), t, Unlock(v))
      case Unlock(v) => Goto(SetLock(s, v, Slot(s, th, v), FREE), t, Idle)
      case ReadSize(v) => Goto(s, t, Drop(v, |s.buckets|))
      case Drop(v, prev) => Goto(SetLock(s, v, Slot(s, th, v), FREE), t, SetFlag(prev))
      case SetFlag(prev) => if s.rehash then s else Goto(s.(rehash := true), t, CheckSize(prev))
      case CheckSize(prev) => Goto(s, t, if prev == |s.buckets| then LoadLocks(prev) else ClearFlag)
      case LoadLocks(prev) => Goto(s, t, LockOld(prev, s.cur, 0))
      case LockOld(prev, v, j) => DoLockOld(s, t, prev, v, j)
      case UnlockOld(prev, v, j) => Goto(SetLock(s, v, j, FREE), t, LockOld(prev, v, j + 1))
      case Build(prev, v, j, table) => DoBuild(s, t, prev, v, j, table)
      case Swap(prev, v, table) => Goto(s.(buckets := table), t, Publish(prev, v))
      case Publish(prev, v) => Goto(s.(locks := s.locks + [Unlocked(2 * prev)], cur := |s.locks|), t, ClearFlag)
      case ClearFlag => Goto(s.(rehash := false), t, Idle)
  }

  function EventOf(s: State, a: Step): Event
    requires Enabled(s, a)
  {
    if a.Run? && s.threads[a.t].pc.Act? then Did(s.threads[a.t].op, Answer(s, a.t)) else Silent
  }

  // ---------------------------------------------------------------- the invariant

  /** The abstract map and the thread that is rebuilding the table, if any. */
  datatype Aux = Aux(model: map<Key, Value>, rh: int)

  /** The thread holds the mutex of its key in vector `pc.locks`. */
  predicate Holding(pc: Pc) { pc.AcqHeld? || pc.AcqDrop? || Critical(pc) }

  /** It has seen the flag down while holding its mutex. */
  predicate Critical(pc: Pc) { pc.AcqCheck? || Validated(pc) }

  /** `acquire` has returned and the mutex is not released yet. */
  predicate Validated(pc: Pc) {
    pc.Look? || pc.Act? || pc.IncSize? || pc.DecSize? || pc.Unlock? || pc.ReadSize? || pc.Drop?
  }

  predicate Rehashing(pc: Pc) { pc.CheckSize? || pc.LoadLocks? || Rebuilding(pc) || pc.ClearFlag? }

  /** It has found the bucket count unchanged and loaded the mutex vector. */
  predicate Rebuilding(pc: Pc) { pc.LockOld? || pc.UnlockOld? || pc.Build? || pc.Swap? || pc.Publish? }

  /** The rehasher has not yet waited for mutex `i` of the current vector. */
  predicate NotPast(pc: Pc, i: nat) {
    match pc
    case LockOld(_, _, j) => j <= i
    case UnlockOld(_, _, j) => j <= i
    case Build(_, _, _, _) => false
    case Swap(_, _, _) => false
    case Publish(_, _) => false
    case _ => true
  }

  ghost predicate LocksOk(s: State) {
    && s.cur == |s.locks| - 1
    && forall v :: 0 <= v < |s.locks| ==> s.locks[v] != []
  }

  /** A mutex is free or held by a thread that knows it. */
  ghost predicate HoldsAt(s: State, t: nat, v: nat, i: nat)
    requires t < |s.threads|
  {
    var pc := s.threads[t].pc;
    || (Holding(pc) && pc.locks == v && IsLocks(s, v) && Slot(s, s.threads[t], v) == i)
    || (pc.UnlockOld? && pc.vec == v && pc.j == i)
  }

  ghost predicate HolderOk(s: State, v: nat, i: nat)
    requires v < |s.locks| && i < |s.locks[v]|
  {
    var h := s.locks[v][i];
    h != FREE ==> 0 <= h < |s.threads| && HoldsAt(s, h, v, i)
  }

  ghost predicate HoldersOk(s: State) {
    forall v, i :: 0 <= v < |s.locks| && 0 <= i < |s.locks[v]| ==> HolderOk(s, v, i)
  }

  ghost predicate FlagOk(s: State, x: Aux) {
    && (s.rehash <==> x.rh != NONE)
    && (x.rh != NONE ==> 0 <= x.rh < |s.threads| && Rehashing(s.threads[x.rh].pc))
  }

  predicate Publishing(s: State, x: Aux) { 0 <= x.rh < |s.threads| && s.threads[x.rh].pc.Publish? }

  /** Outside the gap between swapping the tables and publishing the mutexes the sizes agree. */
  ghost predicate SizesOk(s: State, x: Aux)
    requires s.cur < |s.locks|
  {
    if Publishing(s, x) then |s.buckets| == 2 * |s.locks[s.cur]| else |s.buckets| == |s.locks[s.cur]|
  }

  ghost predicate TableIs(s: State, x: Aux) {
    TableOk(s.hash, s.buckets) && Represents(s.hash, s.buckets, x.model)
  }

  ghost predicate SharedOk(s: State, x: Aux) {
    LocksOk(s) && FlagOk(s, x) && SizesOk(s, x) && TableIs(s, x)
  }

  /** The part of a thread's state that is about its mutex. */
  ghost predicate LockingOk(s: State, x: Aux, t: nat)
    requires t < |s.threads|
  {
    var th := s.threads[t];
    && (th.pc.AcqReload? || th.pc.AcqLock? ==> IsLocks(s, th.pc.locks))
    && (Holding(th.pc) ==> Owns(s, t, th.pc.locks))
    && (Validated(th.pc) ==> th.pc.locks == s.cur)
    && (Critical(th.pc) && th.pc.locks == s.cur && 0 <= x.rh < |s.threads| && IsLocks(s, s.cur)
        ==> NotPast(s.threads[x.rh].pc, Slot(s, th, s.cur)))
  }

  /** The part that is about the table and its rebuilding. */
  ghost predicate WorkOk(s: State, x: Aux, t: nat)
    requires t < |s.threads| && s.buckets != [] && s.cur < |s.locks|
  {
    var th := s.threads[t];
    && (Rehashing(th.pc) <==> x.rh == t)
    && match th.pc
       case Act(_, i, p) => i == Index(s.hash(th.op.key), |s.buckets|) && p == Position(s.buckets[i], th.op.key)
       case LoadLocks(prev) => prev == |s.buckets|
       case LockOld(prev, v, j) => prev == |s.buckets| && v == s.cur && j <= |s.locks[v]|
       case UnlockOld(prev, v, j) => prev == |s.buckets| && v == s.cur && j < |s.locks[v]| && s.locks[v][j] == t
       case Build(prev, v, j, table) =>
         && prev == |s.buckets| && v == s.cur && j <= |s.buckets|
         && table == Rehashed(s.hash, s.buckets[..j], 2 * prev)
       case Swap(prev, v, table) => prev == |s.buckets| && v == s.cur && table == Rehashed(s.hash, s.buckets, 2 * prev)
       case Publish(prev, v) => 2 * prev == |s.buckets| && v == s.cur
       case _ => true
  }

  function Owed(th: Thread): int { if th.pc.IncSize? then 1 else if th.pc.DecSize? then -1 else 0 }

  function TotalOwed(ths: seq<Thread>): int { Sum(seq(|ths|, t requires 0 <= t < |ths| => Owed(ths[t]))) }

  /** `mSize` is the number of keys, up to the updates that threads still have to make to it. */
  ghost predicate CountOk(s: State, x: Aux) {
    s.size < SIZE_RANGE && (s.size + TotalOwed(s.threads) - |x.model|) % SIZE_RANGE == 0
  }

  ghost predicate ThreadOk(s: State, x: Aux, t: nat)
    requires t < |s.threads| && s.buckets != [] && s.cur < |s.locks|
  {
    LockingOk(s, x, t) && WorkOk(s, x, t)
  }

  ghost predicate Inv(s: State, x: Aux) {
    && SharedOk(s, x) && HoldersOk(s) && CountOk(s, x)
    && forall t :: 0 <= t < |s.threads| ==> ThreadOk(s, x, t)
  }

  function AuxNext(s: State, a: Step, x: Aux): Aux
    requires Enabled(s, a)
  {
    if !a.Run? then x else
    match s.threads[a.t].pc
    case Act(_, _, _) => x.(model := Apply(x.model, s.threads[a.t].op))
    case SetFlag(_) => if s.rehash then x else x.(rh := a.t)
    case ClearFlag => x.(rh := NONE)
    case _ => x
  }

  // ---------------------------------------------------------------- a step, seen by the other threads

  /** The mutexes of other threads stay theirs; vectors are only added. */
  ghost predicate LocksMove(s: State, s': State, t: nat) {
    && |s.locks| <= |s'.locks|
    && forall v :: 0 <= v < |s.locks| ==> LockVectorMoves(s.locks[v], s'.locks[v], t)
  }

  ghost predicate LockVectorMoves(a: seq<int>, b: seq<int>, t: nat) {
    && |b| == |a|
    && forall i :: 0 <= i < |a| && a[i] != t && a[i] != FREE ==> b[i] == a[i]
  }

  ghost predicate BucketsMove(s: State, s': State, t: nat)
    requires t < |s.threads|
  {
    var pc := s.threads[t].pc;
    || s'.buckets == s.buckets
    || (pc.Act? && |s'.buckets| == |s.buckets|
        && forall j :: 0 <= j < |s.buckets| && j != pc.i ==> s'.buckets[j] == s.buckets[j])
    || (pc.Swap? && s'.buckets != [])
  }

  /** The rehasher passes a mutex only while nobody else holds it. */
  ghost predicate RehasherMoves(s: State, x: Aux, s': State, x': Aux, t: nat)
    requires t < |s.threads| == |s'.threads| && s.cur < |s.locks|
  {
    && (x'.rh == x.rh || (x.rh == NONE && x'.rh == t) || (x.rh == t && x'.rh == NONE))
    && (x'.rh == t ==>
        forall i :: 0 <= i < |s.locks[s.cur]| && s.locks[s.cur][i] != t && s.locks[s.cur][i] != FREE ==>
          (x.rh == t && !NotPast(s.threads[t].pc, i)) || NotPast(s'.threads[t].pc, i))
  }

  ghost predicate Moves(s: State, x: Aux, s': State, x': Aux, t: nat)
    requires t < |s.threads| && s.cur < |s.locks|
  {
    && s'.hash == s.hash && |s'.threads| == |s.threads| && s'.threads == s.threads[t := s'.threads[t]]
    && LocksMove(s, s', t)
    && (s'.cur == s.cur || (s.threads[t].pc.Publish? && s'.cur >= |s.locks|)) && s'.cur < |s'.locks|
    && BucketsMove(s, s', t)
    && RehasherMoves(s, x, s', x', t)
  }

  lemma OwnsKept(s: State, s': State, t: nat, u: nat, v: nat)
    requires t < |s.threads| && u < |s.threads| && u != t && Owns(s, u, v)
    requires s'.hash == s.hash && |s'.threads| == |s.threads| && s'.threads[u] == s.threads[u] && LocksMove(s, s', t)
    ensures Owns(s', u, v) && Slot(s', s'.threads[u], v) == Slot(s, s.threads[u], v)
  {
    assert LockVectorMoves(s.locks[v], s'.locks[v], t);
  }

  /** While the rehasher builds, swaps or publishes, no other thread is in its critical section. */
  lemma NobodyInside(s: State, x: Aux, u: nat, r: nat)
    requires SharedOk(s, x) && u < |s.threads| && r < |s.threads| && ThreadOk(s, x, u) && ThreadOk(s, x, r)
    requires Critical(s.threads[u].pc) && s.threads[u].pc.locks == s.cur
    ensures !s.threads[r].pc.Build? && !s.threads[r].pc.Swap? && !s.threads[r].pc.Publish?
    ensures !Publishing(s, x) && |s.buckets| == |s.locks[s.cur]|
  {
  }

  lemma LockingKeeps(s: State, x: Aux, s': State, x': Aux, t: nat, u: nat)
    requires SharedOk(s, x) && t < |s.threads| && u < |s.threads| && u != t
    requires ThreadOk(s, x, t) && ThreadOk(s, x, u) && Moves(s, x, s', x', t)
    ensures LockingOk(s', x', u)
  {
    var th := s.threads[u];
    assert s'.threads[u] == th;
    forall v: nat | IsLocks(s, v) ensures IsLocks(s', v) {
      assert LockVectorMoves(s.locks[v], s'.locks[v], t);
    }
    if Holding(th.pc) {
      OwnsKept(s, s', t, u, th.pc.locks);
    }
    if Critical(th.pc) && th.pc.locks == s.cur {
      NobodyInside(s, x, u, t);
    }
  }

  /** Two threads inside `find`, `addOrUpdate` or `remove` work on different buckets. */
  lemma BucketsDiffer(s: State, x: Aux, t: nat, u: nat)
    requires SharedOk(s, x) && t < |s.threads| && u < |s.threads| && u != t && ThreadOk(s, x, t) && ThreadOk(s, x, u)
    requires Validated(s.threads[t].pc) && Validated(s.threads[u].pc)
    ensures Index(s.hash(s.threads[t].op.key), |s.buckets|) != Index(s.hash(s.threads[u].op.key), |s.buckets|)
  {
    NobodyInside(s, x, u, t);
  }

  lemma WorkKeeps(s: State, x: Aux, s': State, x': Aux, t: nat, u: nat)
    requires SharedOk(s, x) && t < |s.threads| && u < |s.threads| && u != t
    requires ThreadOk(s, x, t) && ThreadOk(s, x, u) && Moves(s, x, s', x', t)
    ensures s'.buckets != [] && WorkOk(s', x', u)
  {
    var th := s.threads[u];
    assert s'.threads[u] == th;
    assert LockVectorMoves(s.locks[s.cur], s'.locks[s.cur], t);
    if th.pc.Act? {
      NobodyInside(s, x, u, t);
      if s.threads[t].pc.Act? {
        BucketsDiffer(s, x, t, u);
      }
    }
    if s.threads[t].pc.Act? {
      NobodyInside(s, x, t, u);
    }
  }

  // ---------------------------------------------------------------- a step, seen by its own thread

  ghost predicate HolderMoves(s: State, s': State, t: nat, v: nat, i: nat)
    requires v < |s'.locks| && i < |s'.locks[v]| && t < |s'.threads|
  {
    var h := s'.locks[v][i];
    || h == FREE
    || (h == t && HoldsAt(s', t, v, i))
    || (h != t && v < |s.locks| && i < |s.locks[v]| && s.locks[v][i] == h)
  }

  lemma HoldersKeep(s: State, s': State, t: nat)
    requires HoldersOk(s) && t < |s.threads| == |s'.threads| && s'.hash == s.hash
    requires s'.threads == s.threads[t := s'.threads[t]] && LocksMove(s, s', t)
    requires forall v, i :: 0 <= v < |s'.locks| && 0 <= i < |s'.locks[v]| ==> HolderMoves(s, s', t, v, i)
    ensures HoldersOk(s')
  {
    forall v, i | 0 <= v < |s'.locks| && 0 <= i < |s'.locks[v]| ensures HolderOk(s', v, i) {
      assert HolderMoves(s, s', t, v, i);
      if s'.locks[v][i] != FREE && s'.locks[v][i] != t {
        assert HolderOk(s, v, i) && LockVectorMoves(s.locks[v], s'.locks[v], t);
      }
    }
  }

  lemma LocksSame(s: State, s': State, t: nat)
    requires s'.locks == s.locks
    ensures LocksMove(s, s', t)
  {
  }

  lemma LockSet(s: State, s': State, t: nat, v: nat, i: nat, h: int)
    requires v < |s.locks| && i < |s.locks[v]| && s'.locks == SetLock(s, v, i, h).locks
    requires s.locks[v][i] == t || s.locks[v][i] == FREE
    ensures LocksMove(s, s', t)
  {
  }

  /** The thread moves on and the mutexes stay. */
  lemma HoldersSame(s: State, s': State, t: nat)
    requires HoldersOk(s) && t < |s.threads| == |s'.threads| && s'.hash == s.hash
    requires s'.threads == s.threads[t := s'.threads[t]] && s'.locks == s.locks && s'.threads[t].op == s.threads[t].op
    requires Holding(s.threads[t].pc) ==> Holding(s'.threads[t].pc) && s'.threads[t].pc.locks == s.threads[t].pc.locks
    requires !s.threads[t].pc.UnlockOld?
    ensures HoldersOk(s') && LocksMove(s, s', t)
  {
    LocksSame(s, s', t);
    forall v, i | 0 <= v < |s'.locks| && 0 <= i < |s'.locks[v]| ensures HolderMoves(s, s', t, v, i) {
      assert HolderOk(s, v, i);
    }
    HoldersKeep(s, s', t);
  }

  lemma HoldersTake(s: State, s': State, t: nat, v: nat, i: nat)
    requires HoldersOk(s) && t < |s.threads| == |s'.threads| && s'.hash == s.hash
    requires s'.threads == s.threads[t := s'.threads[t]]
    requires v < |s.locks| && i < |s.locks[v]| && s.locks[v][i] == FREE && s'.locks == SetLock(s, v, i, t).locks
    requires !Holding(s.threads[t].pc) && !s.threads[t].pc.UnlockOld? && HoldsAt(s', t, v, i)
    ensures HoldersOk(s') && LocksMove(s, s', t)
  {
    LockSet(s, s', t, v, i, t);
    forall w, j | 0 <= w < |s'.locks| && 0 <= j < |s'.locks[w]| ensures HolderMoves(s, s', t, w, j) {
      assert HolderOk(s, w, j);
    }
    HoldersKeep(s, s', t);
  }

  lemma HoldersRelease(s: State, s': State, t: nat, v: nat, i: nat)
    requires HoldersOk(s) && t < |s.threads| == |s'.threads| && s'.hash == s.hash
    requires s'.threads == s.threads[t := s'.threads[t]]
    requires v < |s.locks| && i < |s.locks[v]| && s.locks[v][i] == t && s'.locks == SetLock(s, v, i, FREE).locks
    requires HoldsAt(s, t, v, i)
    ensures HoldersOk(s') && LocksMove(s, s', t)
  {
    LockSet(s, s', t, v, i, FREE);
    forall w, j | 0 <= w < |s'.locks| && 0 <= j < |s'.locks[w]| ensures HolderMoves(s, s', t, w, j) {
      assert HolderOk(s, w, j);
    }
    HoldersKeep(s, s', t);
  }

  lemma HoldersPublish(s: State, s': State, t: nat, n: nat)
    requires HoldersOk(s) && t < |s.threads| == |s'.threads| && s'.hash == s.hash
    requires s'.threads == s.threads[t := s'.threads[t]] && s'.locks == s.locks + [Unlocked(n)]
    requires !Holding(s.threads[t].pc) && !s.threads[t].pc.UnlockOld?
    ensures HoldersOk(s') && LocksMove(s, s', t)
  {
    forall w, j | 0 <= w < |s'.locks| && 0 <= j < |s'.locks[w]| ensures HolderMoves(s, s', t, w, j) {
      if w < |s.locks| {
        assert HolderOk(s, w, j);
      }
    }
    HoldersKeep(s, s', t);
  }

  /** What is known of the stepping thread. */
  ghost predicate Local(s: State, x: Aux, t: nat) {
    SharedOk(s, x) && HoldersOk(s) && t < |s.threads| && ThreadOk(s, x, t)
  }

  ghost predicate StepOk(s: State, x: Aux, s': State, x': Aux, t: nat)
    requires t < |s.threads| && s.cur < |s.locks|
  {
    && Moves(s, x, s', x', t)
    && SharedOk(s', x') && HoldersOk(s') && ThreadOk(s', x', t)
  }

  lemma StepInBounds(s: State, x: Aux, t: nat)
    requires Local(s, x, t) && !s.threads[t].pc.Idle?
    ensures InBounds(s, t)
  {
  }

  /** Steps of `acquire` that only look. */
  lemma AcquireOk(s: State, x: Aux, t: nat)
    requires Local(s, x, t) && Enabled(s, Run(t))
    requires var pc := s.threads[t].pc; pc.AcqSpin? || pc.AcqLoad? || pc.AcqReload? || pc.AcqHeld? || pc.AcqCheck?
    ensures StepOk(s, x, Next(s, Run(t)), x, t)
  {
    var s' := Next(s, Run(t));
    HoldersSame(s, s', t);
    hide LocksMove, HoldersOk, TableIs, Enabled;
  }

  /** Steps inside an operation that change neither table nor mutexes. */
  lemma InsideOk(s: State, x: Aux, t: nat)
    requires Local(s, x, t) && Enabled(s, Run(t))
    requires var pc := s.threads[t].pc;
             pc.Look? || pc.IncSize? || pc.DecSize? || pc.ReadSize? || (pc.SetFlag? && s.rehash)
    ensures StepOk(s, x, Next(s, Run(t)), x, t)
  {
    var s' := Next(s, Run(t));
    HoldersSame(s, s', t);
    hide LocksMove, HoldersOk, Represents, TableOk;
  }

  lemma BeginOk(s: State, x: Aux, t: nat, op: Op)
    requires Local(s, x, t) && Enabled(s, Begin(t, op))
    ensures StepOk(s, x, Next(s, Begin(t, op)), x, t)
  {
    var s' := Next(s, Begin(t, op));
    LocksSame(s, s', t);
    forall v, i | 0 <= v < |s'.locks| && 0 <= i < |s'.locks[v]| ensures HolderMoves(s, s', t, v, i) {
      assert HolderOk(s, v, i);
    }
    HoldersKeep(s, s', t);
    hide LocksMove, HoldersOk, Represents, TableOk;
  }

  lemma TakeOk(s: State, x: Aux, t: nat)
    requires Local(s, x, t) && Enabled(s, Run(t)) && s.threads[t].pc.AcqLock?
    ensures StepOk(s, x, Next(s, Run(t)), x, t)
  {
    var s', v := Next(s, Run(t)), s.threads[t].pc.locks;
    HoldersTake(s, s', t, v, Slot(s, s.threads[t], v));
    hide LocksMove, HoldersOk, Represents, TableOk;
  }

  lemma ReleaseOk(s: State, x: Aux, t: nat)
    requires Local(s, x, t) && Enabled(s, Run(t))
    requires s.threads[t].pc.AcqDrop? || s.threads[t].pc.Unlock? || s.threads[t].pc.Drop?
    ensures StepOk(s, x, Next(s, Run(t)), x, t)
  {
    var s', v := Next(s, Run(t)), s.threads[t].pc.locks;
    HoldersRelease(s, s', t, v, Slot(s, s.threads[t], v));
    hide LocksMove, HoldersOk, Represents, TableOk;
  }

  /** The bucket operation does to the table what the call does to the abstract map. */
  lemma ActRefines(s: State, x: Aux, t: nat)
    requires TableIs(s, x) && t < |s.threads| && s.threads[t].pc.Act?
    requires var th := s.threads[t];
             && th.pc.i == Index(s.hash(th.op.key), |s.buckets|) && th.pc.p == Position(s.buckets[th.pc.i], th.op.key)
    ensures TableIs(DoAct(s, t), x.(model := Apply(x.model, s.threads[t].op)))
    ensures Answer(s, t) == AnswerOn(x.model, s.threads[t].op)
    ensures s.threads[t].pc.p < |s.buckets[s.threads[t].pc.i]| <==> s.threads[t].op.key in x.model
    ensures |DoAct(s, t).buckets| == |s.buckets|
  {
    var op := s.threads[t].op;
    assert FindIn(s.hash, s.buckets, op.key) == if op.key in x.model then Some(x.model[op.key]) else Option.None;
    match op
    case FindKey(_) =>
    case AddOrUpdate(k, v) => WriteRepresents(s.hash, s.buckets, x.model, k, v);
    case Remove(k) => EraseRepresents(s.hash, s.buckets, x.model, k);
  }

  /** What the bucket operation leaves alone. */
  lemma ActMoves(s: State, t: nat)
    requires t < |s.threads| && s.threads[t].pc.Act? && s.threads[t].pc.i < |s.buckets|
    ensures var s', th, th' := DoAct(s, t), s.threads[t], DoAct(s, t).threads[t];
            && |s'.threads| == |s.threads| && s' == s.(threads := s.threads[t := th'], buckets := s'.buckets)
            && th'.op == th.op
            && (th'.pc == Unlock(th.pc.locks) || th'.pc == IncSize(th.pc.locks) || th'.pc == DecSize(th.pc.locks))
            && (th'.pc.IncSize? ==> th.op.AddOrUpdate?)
  {
    hide WriteAt, EraseAt;
  }

  lemma ActOk(s: State, x: Aux, t: nat)
    requires Local(s, x, t) && Enabled(s, Run(t)) && s.threads[t].pc.Act?
    ensures StepOk(s, x, Next(s, Run(t)), AuxNext(s, Run(t), x), t)
  {
    assert Next(s, Run(t)) == DoAct(s, t);
    ActRefines(s, x, t);
    ActMoves(s, t);
    hide HoldersOk, TableIs, Next, Enabled, DoAct;
    HoldersSame(s, Next(s, Run(t)), t);
    hide LocksMove;
  }

  lemma FlagStepOk(s: State, x: Aux, t: nat)
    requires Local(s, x, t) && Enabled(s, Run(t))
    requires s.threads[t].pc.ClearFlag? || (s.threads[t].pc.SetFlag? && !s.rehash)
    ensures StepOk(s, x, Next(s, Run(t)), AuxNext(s, Run(t), x), t)
  {
    var s' := Next(s, Run(t));
    HoldersSame(s, s', t);
    hide LocksMove, HoldersOk, Represents, TableOk;
  }

  lemma RehashLookOk(s: State, x: Aux, t: nat)
    requires Local(s, x, t) && Enabled(s, Run(t))
    requires s.threads[t].pc.CheckSize? || s.threads[t].pc.LoadLocks?
    ensures StepOk(s, x, Next(s, Run(t)), x, t)
  {
    var s' := Next(s, Run(t));
    HoldersSame(s, s', t);
    hide LocksMove, HoldersOk, Represents, TableOk;
  }

  lemma LockOldOk(s: State, x: Aux, t: nat)
    requires Local(s, x, t) && Enabled(s, Run(t)) && s.threads[t].pc.LockOld?
    ensures StepOk(s, x, Next(s, Run(t)), x, t)
  {
    var s', pc := Next(s, Run(t)), s.threads[t].pc;
    if pc.j < |s.locks[pc.vec]| {
      HoldersTake(s, s', t, pc.vec, pc.j);
    } else {
      HoldersSame(s, s', t);
      assert s.buckets[..0] == [];
    }
    hide LocksMove, HoldersOk, Represents, TableOk;
  }

  lemma UnlockOldOk(s: State, x: Aux, t: nat)
    requires Local(s, x, t) && Enabled(s, Run(t)) && s.threads[t].pc.UnlockOld?
    ensures StepOk(s, x, Next(s, Run(t)), x, t)
  {
    var s', pc := Next(s, Run(t)), s.threads[t].pc;
    HoldersRelease(s, s', t, pc.vec, pc.j);
    hide LocksMove, HoldersOk, Represents, TableOk;
  }

  lemma BuildOk(s: State, x: Aux, t: nat)
    requires Local(s, x, t) && Enabled(s, Run(t)) && s.threads[t].pc.Build?
    ensures StepOk(s, x, Next(s, Run(t)), x, t)
  {
    var s', pc := Next(s, Run(t)), s.threads[t].pc;
    HoldersSame(s, s', t);
    if pc.j < |s.buckets| {
      assert s.buckets[..pc.j + 1][..pc.j] == s.buckets[..pc.j];
      assert Rehashed(s.hash, s.buckets[..pc.j + 1], 2 * pc.prev) == PlaceBucket(s.hash, pc.table, s.buckets[pc.j]);
    } else {
      assert s.buckets[..pc.j] == s.buckets;
    }
    hide LocksMove, HoldersOk, Represents, TableOk, PlaceBucket, PlaceTable;
  }

  lemma SwapOk(s: State, x: Aux, t: nat)
    requires Local(s, x, t) && Enabled(s, Run(t)) && s.threads[t].pc.Swap?
    ensures StepOk(s, x, Next(s, Run(t)), x, t)
  {
    var s', pc := Next(s, Run(t)), s.threads[t].pc;
    HoldersSame(s, s', t);
    RehashKeeps(s.hash, s.buckets, 2 * pc.prev, x.model);
    hide LocksMove, HoldersOk, Represents, TableOk, Rehashed;
  }

  lemma PublishOk(s: State, x: Aux, t: nat)
    requires Local(s, x, t) && Enabled(s, Run(t)) && s.threads[t].pc.Publish?
    ensures StepOk(s, x, Next(s, Run(t)), x, t)
  {
    var s', pc := Next(s, Run(t)), s.threads[t].pc;
    HoldersPublish(s, s', t, 2 * pc.prev);
    hide LocksMove, HoldersOk, Represents, TableOk;
  }

  lemma AnyStepOk(s: State, x: Aux, a: Step)
    requires Local(s, x, a.t) && Enabled(s, a)
    ensures StepOk(s, x, Next(s, a), AuxNext(s, a, x), a.t)
  {
    hide StepOk, HoldersOk, Represents, TableOk;
    if a.Begin? {
      BeginOk(s, x, a.t, a.op);
    } else {
      match s.threads[a.t].pc
      case AcqLock(_) => TakeOk(s, x, a.t);
      case AcqDrop(_) => ReleaseOk(s, x, a.t);
      case Unlock(_) => ReleaseOk(s, x, a.t);
      case Drop(_, _) => ReleaseOk(s, x, a.t);
      case Act(_, _, _) => ActOk(s, x, a.t);
      case SetFlag(_) => if s.rehash { InsideOk(s, x, a.t); } else { FlagStepOk(s, x, a.t); }
      case ClearFlag => FlagStepOk(s, x, a.t);
      case CheckSize(_) => RehashLookOk(s, x, a.t);
      case LoadLocks(_) => RehashLookOk(s, x, a.t);
      case LockOld(_, _, _) => LockOldOk(s, x, a.t);
      case UnlockOld(_, _, _) => UnlockOldOk(s, x, a.t);
      case Build(_, _, _, _) => BuildOk(s, x, a.t);
      case Swap(_, _, _) => SwapOk(s, x, a.t);
      case Publish(_, _) => PublishOk(s, x, a.t);
      case Look(_) => InsideOk(s, x, a.t);
      case IncSize(_) => InsideOk(s, x, a.t);
      case DecSize(_) => InsideOk(s, x, a.t);
      case ReadSize(_) => InsideOk(s, x, a.t);
      case _ => AcquireOk(s, x, a.t);
    }
  }

  // ---------------------------------------------------------------- the counter

  lemma TotalOwedUpdate(ths: seq<Thread>, t: nat, th: Thread)
    requires t < |ths|
    ensures TotalOwed(ths[t := th]) == TotalOwed(ths) - Owed(ths[t]) + Owed(th)
  {
    var debts := seq(|ths|, u requires 0 <= u < |ths| => Owed(ths[u]));
    SumUpdate(debts, t, Owed(th));
    assert debts[t := Owed(th)] == seq(|ths|, u requires 0 <= u < |ths| => Owed(ths[t := th][u]));
  }

  lemma TotalOwedIdle(ths: seq<Thread>)
    requires forall t :: 0 <= t < |ths| ==> ths[t].pc.Idle?
    ensures TotalOwed(ths) == 0
  {
    SumOfZeros(seq(|ths|, t requires 0 <= t < |ths| => Owed(ths[t])));
  }

  function CounterMove(s: State, a: Step): int
    requires a.t < |s.threads|
  {
    if !a.Run? then 0 else if s.threads[a.t].pc.IncSize? then 1 else if s.threads[a.t].pc.DecSize? then -1 else 0
  }

  /** Counter, debts and map move together. */
  ghost predicate CountStep(s: State, x: Aux, a: Step, s': State, x': Aux)
    requires a.t < |s.threads|
  {
    var d := CounterMove(s, a);
    && |s'.threads| == |s.threads| && s'.threads == s.threads[a.t := s'.threads[a.t]]
    && s'.size == Wrapped(s.size, d, SIZE_RANGE)
    && Owed(s'.threads[a.t]) - Owed(s.threads[a.t]) == |x'.model| - |x.model| - d
  }

  lemma ActCounts(s: State, x: Aux, t: nat)
    requires Local(s, x, t) && Enabled(s, Run(t)) && s.threads[t].pc.Act?
    ensures CountStep(s, x, Run(t), Next(s, Run(t)), AuxNext(s, Run(t), x))
  {
    ActRefines(s, x, t);
    ApplySize(x.model, s.threads[t].op);
    hide Local, TableIs, WriteAt, EraseAt, InBounds, Blocked, Apply;
  }

  lemma StepCounts(s: State, x: Aux, a: Step)
    requires Enabled(s, a) && (a.Run? ==> !s.threads[a.t].pc.Act?)
    ensures CountStep(s, x, a, Next(s, a), AuxNext(s, a, x))
  {
    hide InBounds, PlaceBucket;
  }

  lemma CountStepKeeps(s: State, x: Aux, a: Step, s': State, x': Aux)
    requires a.t < |s.threads| && CountOk(s, x) && CountStep(s, x, a, s', x')
    ensures CountOk(s', x')
  {
    TotalOwedUpdate(s.threads, a.t, s'.threads[a.t]);
    var d := CounterMove(s, a);
    hide TotalOwed, Owed;
    CountMoves(s.size, TotalOwed(s.threads), |x.model|, s'.size, TotalOwed(s'.threads), |x'.model|, d, SIZE_RANGE);
  }

  lemma CountKeeps(s: State, x: Aux, a: Step)
    requires Local(s, x, a.t) && CountOk(s, x) && Enabled(s, a)
    ensures CountOk(Next(s, a), AuxNext(s, a, x))
  {
    assert a.t < |s.threads|;
    hide Local, CountStep, CountOk;
    if a.Run? && s.threads[a.t].pc.Act? {
      ActCounts(s, x, a.t);
    } else {
      StepCounts(s, x, a);
    }
    hide Next, Enabled, AuxNext;
    CountStepKeeps(s, x, a, Next(s, a), AuxNext(s, a, x));
  }

  /** Every step of every thread keeps the invariant. */
  lemma StepKeeps(s: State, x: Aux, a: Step)
    requires Inv(s, x) && Enabled(s, a)
    ensures Inv(Next(s, a), AuxNext(s, a, x))
  {
    var s', x', t := Next(s, a), AuxNext(s, a, x), a.t;
    AnyStepOk(s, x, a);
    CountKeeps(s, x, a);
    hide Next, AuxNext, Enabled, HoldersOk, CountOk, Moves;
    forall u | 0 <= u < |s'.threads| ensures ThreadOk(s', x', u) {
      if u != t {
        assert ThreadOk(s, x, u) && ThreadOk(s, x, t);
        OtherKeeps(s, x, s', x', t, u);
      }
    }
  }

  lemma OtherKeeps(s: State, x: Aux, s': State, x': Aux, t: nat, u: nat)
    requires SharedOk(s, x) && t < |s.threads| && u < |s.threads| && u != t
    requires ThreadOk(s, x, t) && ThreadOk(s, x, u) && Moves(s, x, s', x', t)
    ensures s'.buckets != [] && u < |s'.threads| && ThreadOk(s', x', u)
  {
    hide SharedOk, LocksMove, BucketsMove, RehasherMoves;
    LockingKeeps(s, x, s', x', t, u);
    WorkKeeps(s, x, s', x', t, u);
  }

  // ---------------------------------------------------------------- what the invariant says

  /** Indices stay in range and mutexes are released by their holders; a thread can only wait. */
  lemma NoFault(s: State, x: Aux, t: nat)
    requires Inv(s, x) && t < |s.threads| && !s.threads[t].pc.Idle?
    ensures InBounds(s, t) && (Enabled(s, Run(t)) <==> !Blocked(s, t))
  {
    StepInBounds(s, x, t);
  }

  /** No deadlock: whoever holds the mutex a thread waits for is not itself waiting. */
  lemma HolderRuns(s: State, x: Aux, t: nat) returns (u: nat)
    requires Inv(s, x) && t < |s.threads| && Blocked(s, t)
    ensures u < |s.threads| && u != t && Enabled(s, Run(u))
    ensures Holding(s.threads[u].pc) || s.threads[u].pc.UnlockOld?
  {
    var th := s.threads[t];
    var v := if th.pc.AcqLock? then th.pc.locks else th.pc.vec;
    var i := if th.pc.AcqLock? then Slot(s, th, th.pc.locks) else th.pc.j;
    assert HolderOk(s, v, i);
    u := s.locks[v][i];
    StepInBounds(s, x, u);
  }

  /** While the table is rebuilt and swapped nobody is inside a map operation. */
  lemma RebuildIsExclusive(s: State, x: Aux, r: nat, u: nat)
    requires Inv(s, x) && r < |s.threads| && u < |s.threads|
    requires s.threads[r].pc.Build? || s.threads[r].pc.Swap? || s.threads[r].pc.Publish?
    ensures !Validated(s.threads[u].pc)
    ensures Rehashing(s.threads[u].pc) ==> u == r
  {
    assert ThreadOk(s, x, u) && ThreadOk(s, x, r);
    if Validated(s.threads[u].pc) {
      NobodyInside(s, x, u, r);
    }
  }

  /**
    A thread inside a map operation holds a mutex of the current vector, which has one mutex per
    bucket, and no other thread inside an operation works on its bucket.
  */
  lemma InsideIsExclusive(s: State, x: Aux, t: nat, u: nat)
    requires Inv(s, x) && t < |s.threads| && u < |s.threads| && t != u
    requires Validated(s.threads[t].pc) && Validated(s.threads[u].pc)
    ensures s.threads[t].pc.locks == s.cur && Owns(s, t, s.cur) && |s.locks[s.cur]| == |s.buckets|
    ensures Index(s.hash(s.threads[t].op.key), |s.buckets|) != Index(s.hash(s.threads[u].op.key), |s.buckets|)
  {
    assert ThreadOk(s, x, t) && ThreadOk(s, x, u);
    NobodyInside(s, x, t, u);
    BucketsDiffer(s, x, t, u);
  }

  // ---------------------------------------------------------------- whole runs

  ghost predicate IsRun(states: seq<State>, steps: seq<Step>) {
    && |states| == |steps| + 1 && Init(states[0])
    && forall i :: 0 <= i < |steps| ==> Enabled(states[i], steps[i]) && states[i + 1] == Next(states[i], steps[i])
  }

  /** The abstract map after `n` steps: the completed operations, one after the other. */
  ghost function ModelAt(states: seq<State>, steps: seq<Step>, n: nat): map<Key, Value>
    requires IsRun(states, steps) && n <= |steps|
  {
    if n == 0 then map[] else Update(ModelAt(states, steps, n - 1), EventOf(states[n - 1], steps[n - 1]))
  }

  lemma InitOk(s: State)
    requires Init(s)
    ensures Inv(s, Aux(map[], NONE))
  {
    EmptyTableOk(s.hash, |s.buckets|);
    TotalOwedIdle(s.threads);
    hide TableOk;
  }

  lemma {:induction false} RunKeeps(states: seq<State>, steps: seq<Step>, n: nat) returns (x: Aux)
    requires IsRun(states, steps) && n <= |steps|
    ensures Inv(states[n], x) && x.model == ModelAt(states, steps, n)
  {
    hide Inv, Next;
    if n == 0 {
      InitOk(states[0]);
      x := Aux(map[], NONE);
    } else {
      var x0 := RunKeeps(states, steps, n - 1);
      StepKeeps(states[n - 1], x0, steps[n - 1]);
      x := AuxNext(states[n - 1], steps[n - 1], x0);
    }
  }

  /** Every operation answers as the abstract map does at the instant of its bucket operation. */
  lemma RunRefinesMap(states: seq<State>, steps: seq<Step>, n: nat)
    requires IsRun(states, steps) && n < |steps| && EventOf(states[n], steps[n]).Did?
    ensures var e, m := EventOf(states[n], steps[n]), ModelAt(states, steps, n);
            && e.op == states[n].threads[steps[n].t].op && e.answer == AnswerOn(m, e.op)
            && ModelAt(states, steps, n + 1) == Apply(m, e.op)
  {
    var x := RunKeeps(states, steps, n);
    assert ThreadOk(states[n], x, steps[n].t);
    hide Next, Enabled, SharedOk;
    ActRefines(states[n], x, steps[n].t);
  }

  /** What thread `t` has done since its latest call began. */
  ghost function CallEvents(states: seq<State>, steps: seq<Step>, n: nat, t: nat): seq<Event>
    requires IsRun(states, steps) && n <= |steps|
  {
    if n == 0 then []
    else if steps[n - 1].t != t then CallEvents(states, steps, n - 1, t)
    else if steps[n - 1].Begin? then []
    else if EventOf(states[n - 1], steps[n - 1]).Silent? then CallEvents(states, steps, n - 1, t)
    else CallEvents(states, steps, n - 1, t) + [EventOf(states[n - 1], steps[n - 1])]
  }

  /** The call is past its bucket operation. */
  predicate PastAct(pc: Pc) {
    pc.IncSize? || pc.DecSize? || pc.Unlock? || pc.ReadSize? || pc.Drop? || pc.SetFlag? || Rehashing(pc)
  }

  ghost predicate CallOk(th: Thread, events: seq<Event>) {
    && (!th.pc.Idle? ==> events == if PastAct(th.pc) then [Did(th.op, th.result)] else [])
    && (!th.pc.Idle? && !PastAct(th.pc) ==> th.result == Option.None)
  }

  /** The pcs of a call that has not reached its bucket operation, one that has, and one that has returned. */
  predicate CallMoves(th: Thread, th': Thread) {
    && th'.op == th.op && th'.result == th.result && (th'.pc.Idle? || (PastAct(th'.pc) <==> PastAct(th.pc)))
  }

  lemma BeforeAct(s: State, t: nat)
    requires Enabled(s, Run(t)) && !s.threads[t].pc.Act? && !PastAct(s.threads[t].pc)
    ensures CallMoves(s.threads[t], Next(s, Run(t)).threads[t])
  {
    hide InBounds, Blocked, PlaceBucket, WriteAt, EraseAt, Position;
  }

  lemma AfterAct(s: State, t: nat)
    requires Enabled(s, Run(t)) && PastAct(s.threads[t].pc)
    ensures CallMoves(s.threads[t], Next(s, Run(t)).threads[t])
  {
    hide InBounds, Blocked, PlaceBucket, WriteAt, EraseAt, Position;
  }

  /** Only the bucket operation moves a call from before to past its effect. */
  lemma PastActKept(s: State, t: nat)
    requires Enabled(s, Run(t)) && !s.threads[t].pc.Act?
    ensures CallMoves(s.threads[t], Next(s, Run(t)).threads[t])
  {
    assert t < |s.threads|;
    hide Enabled, Next, CallMoves;
    if PastAct(s.threads[t].pc) {
      AfterAct(s, t);
    } else {
      BeforeAct(s, t);
    }
  }

  lemma ActEvent(s: State, t: nat)
    requires Enabled(s, Run(t)) && s.threads[t].pc.Act? && s.threads[t].result == Option.None
    ensures var th, th' := s.threads[t], Next(s, Run(t)).threads[t];
            PastAct(th'.pc) && EventOf(s, Run(t)) == Did(th'.op, th'.result)
  {
    hide InBounds, Blocked, PlaceBucket, WriteAt, EraseAt, Position;
  }

  lemma CallStep(s: State, a: Step, events: seq<Event>)
    requires Enabled(s, a) && CallOk(s.threads[a.t], events)
    ensures var e := EventOf(s, a);
            CallOk(Next(s, a).threads[a.t], if a.Begin? then [] else if e.Silent? then events else events + [e])
  {
    if a.Run? {
      if s.threads[a.t].pc.Act? {
        ActEvent(s, a.t);
      } else {
        PastActKept(s, a.t);
      }
      hide Next;
    }
    hide InBounds, Blocked, Answer;
  }

  /**
    Each call operates on the abstract map exactly once, between its begin and its return, and
    returns the answer it got there, whatever rebuilding happens around it.
  */
  lemma {:induction false} CallsAreAtomic(states: seq<State>, steps: seq<Step>, n: nat, t: nat)
    requires IsRun(states, steps) && n <= |steps| && t < |states[n].threads|
    ensures CallOk(states[n].threads[t], CallEvents(states, steps, n, t))
  {
    if n != 0 {
      var s, a := states[n - 1], steps[n - 1];
      assert Enabled(s, a) && a.t < |s.threads|;
      hide Next, Enabled, CallOk, EventOf;
      CallsAreAtomic(states, steps, n - 1, t);
      if a.t == t {
        CallStep(s, a, CallEvents(states, steps, n - 1, t));
      }
    }
  }

  /** Outside the gap between swap and publication there is one mutex per bucket. */
  lemma LocksMatchBuckets(states: seq<State>, steps: seq<Step>, n: nat)
    requires IsRun(states, steps) && n <= |steps|
    requires forall t :: 0 <= t < |states[n].threads| ==> !states[n].threads[t].pc.Publish?
    ensures states[n].cur < |states[n].locks| && |states[n].locks[states[n].cur]| == |states[n].buckets|
  {
    var x := RunKeeps(states, steps, n);
  }

  /** No reachable state has a fault, two threads on one bucket, or a thread inside during a rebuild. */
  lemma RunsAreSafe(states: seq<State>, steps: seq<Step>, n: nat, t: nat, u: nat)
    requires IsRun(states, steps) && n <= |steps| && t < |states[n].threads| && u < |states[n].threads| && t != u
    ensures !states[n].threads[t].pc.Idle? ==> InBounds(states[n], t)
    ensures Validated(states[n].threads[t].pc) ==>
              !states[n].threads[u].pc.Build? && !states[n].threads[u].pc.Swap? && !states[n].threads[u].pc.Publish?
    ensures Validated(states[n].threads[t].pc) && Validated(states[n].threads[u].pc) ==>
              states[n].buckets != [] &&
              Index(states[n].hash(states[n].threads[t].op.key), |states[n].buckets|)
              != Index(states[n].hash(states[n].threads[u].op.key), |states[n].buckets|)
  {
    hide Inv, InBounds;
    var s := states[n];
    var x := RunKeeps(states, steps, n);
    if !s.threads[t].pc.Idle? {
      NoFault(s, x, t);
    }
    if s.threads[u].pc.Build? || s.threads[u].pc.Swap? || s.threads[u].pc.Publish? {
      RebuildIsExclusive(s, x, u, t);
    }
    if Validated(s.threads[t].pc) && Validated(s.threads[u].pc) {
      NoBucketsEmpty(s, x);
      InsideIsExclusive(s, x, t, u);
    }
  }

  lemma NoBucketsEmpty(s: State, x: Aux)
    requires Inv(s, x)
    ensures s.buckets != [] && s.cur < |s.locks|
  {
  }

  /** With no call in progress the counter is the number of keys. */
  lemma QuiescentSize(states: seq<State>, steps: seq<Step>, n: nat)
    requires IsRun(states, steps) && n <= |steps|
    requires forall t :: 0 <= t < |states[n].threads| ==> states[n].threads[t].pc.Idle?
    ensures states[n].size == |ModelAt(states, steps, n)| % SIZE_RANGE
  {
    assert n < |states|;
    hide Inv, Next, Enabled, EventOf, IsRun, TotalOwed;
    var x := RunKeeps(states, steps, n);
    TotalOwedIdle(states[n].threads);
    NothingOwed(states[n], x);
  }

  lemma NothingOwed(s: State, x: Aux)
    requires Inv(s, x) && TotalOwed(s.threads) == 0
    ensures s.size == |x.model| % SIZE_RANGE
  {
    ResidueIsUnique(s.size, TotalOwed(s.threads), |x.model|, SIZE_RANGE);
  }
}
