/**
  The lock-free hash map as a step machine: one sorted list of nodes with markable links,
  a growing table of bucket slots pointing at sentinels of that list, and any number of
  threads running `insert`, `remove` and `find`.

  Every step performs one atomic load, store, compare-and-swap or fetch-add of the source.
  Storing a hazard pointer and re-reading the link changes no list state, so claiming a
  pointer is the one read whose value is kept.  Node identities are fresh: a node index is
  never handed out twice.
*/
module LockFreeHashMap {
  import opened Arithmetic
  import opened Sequences
  import opened SplitOrder

  /** The source's template parameters; nothing but equality of keys is used. */
  type Key = int
  type Value = int

  const NULL: int := -1
  const THRESHOLD: nat := 2
  const SIZE_RANGE: nat := 0x1_0000_0000

  datatype Item = Sentinel | Entry(key: Key, value: Value)

  datatype Node = Node(hash: nat, item: Item, next: int, mark: bool) {
    predicate HasKey(k: Key) { item.Entry? && item.key == k }

    /** Linked in the list, such a node is an element of the map. */
    predicate LiveKey(k: Key) { HasKey(k) && !mark }
  }

  datatype Op = Insert(key: Key, value: Value) | Remove(key: Key) | Find(key: Key)

  /** Where a thread stands; the arguments are the local variables still in use. */
  datatype Pc =
    | LoadSlot
    | StartWalk
    | LoadFirst(pred: int)
    | LoadNext(pred: int, cur: int)
    | Unlink(pred: int, cur: int, succ: int)
    | Found(pred: int, cur: int)
    | LinkNode(pred: int, cur: int)
    | LoadVictim(pred: int, cur: int)
    | MarkVictim(pred: int, cur: int, succ: int)
    | UnlinkVictim(pred: int, cur: int, succ: int)
    | CheckSlot(sentinel: int)
    | StoreSlot(sentinel: int)
    | IncSize
    | TestLoad(prev: nat)
    | ExtendLoad
    | ExtendCas(exp: nat)
    | DecSize
    | Return(result: bool)
    | GetHead
    | GetFirst(pred: int)
    | GetWalk(cur: int, mark: bool)
    | GetReturn(found: Option<Value>)

  /**
    A busy thread runs `op` with the bucket count `Pow2(bits)` it has read.  `pending` holds the
    sentinels it still has to insert (the recursion of `insertSentinel`, innermost last) and
    `node` is the node it has allocated but not linked yet.
  */
  datatype Thread = Idle | Busy(op: Op, bits: nat, pending: seq<nat>, node: int, pc: Pc)

  /** The width of the hash type and the hash function. */
  datatype Config = Config(width: nat, hash: Key -> nat)

  datatype State = State(
    cfg: Config,
    heap: seq<Node>, slots: map<nat, int>, bits: nat, size: nat, threads: seq<Thread>)

  /** One scheduling decision: a call begins, or a busy thread takes its next step. */
  datatype Step = Start(t: nat, op: Op) | Run(t: nat)

  datatype Event = Silent | Added(key: Key, value: Value) | Removed(key: Key)

  const HEAD := 0
  const LAST := 1

  ghost predicate Init(s: State) {
    && s.cfg.width >= 3
    && s.heap == [Node(0, Sentinel, LAST, false), Node(MaxKey(s.cfg.width), Sentinel, NULL, false)]
    && s.slots == map[0 := HEAD]
    && s.bits == 1
    && s.size == 0
    && forall t :: 0 <= t < |s.threads| ==> s.threads[t].Idle?
  }

  // ---------------------------------------------------------------- what a walk looks for

  function OrdKey(cfg: Config, k: Key): nat
    requires cfg.width >= 2
  {
    OrdinaryKey(cfg.width, cfg.hash(k))
  }

  /** The sentinel being inserted, if any. */
  function Top(th: Thread): nat
    requires th.Busy? && th.pending != []
  {
    th.pending[|th.pending| - 1]
  }

  function TargetHash(cfg: Config, th: Thread): nat
    requires cfg.width >= 2 && th.Busy?
  {
    if th.pending == [] then OrdKey(cfg, th.op.key) else SentinelKey(cfg.width, Top(th))
  }

  function ParentOf(i: nat): nat { if i == 0 then 0 else Parent(i) }

  /** The slot the walk starts from. */
  function StartIndex(cfg: Config, th: Thread): nat
    requires th.Busy?
  {
    if th.pending == [] then Low(cfg.hash(th.op.key), th.bits) else ParentOf(Top(th))
  }

  /** The exit test of `find`. */
  predicate Stops(cfg: Config, th: Thread, cur: Node)
    requires cfg.width >= 2 && th.Busy?
  {
    var h := TargetHash(cfg, th);
    || h < cur.hash
    || (h == cur.hash && cur.item.Sentinel?)
    || (th.pending == [] && h == cur.hash && cur.item.Entry? && cur.item.key == th.op.key)
  }

  predicate Matches(cfg: Config, th: Thread, cur: Node)
    requires cfg.width >= 2 && th.Busy?
  {
    cur.hash == TargetHash(cfg, th) && (th.pending == [] ==> cur.item.Entry? && cur.item.key == th.op.key)
  }

  /** The loop test of `get`; the key is looked at only when the hash values agree. */
  predicate GetGoesOn(cfg: Config, th: Thread, cur: Node)
    requires cfg.width >= 2 && th.Busy?
  {
    cur.hash < TargetHash(cfg, th) || (cur.hash == TargetHash(cfg, th) && !cur.HasKey(th.op.key))
  }

  // ---------------------------------------------------------------- steps

  predicate IsNode(s: State, n: int) { 0 <= n < |s.heap| }

  /** Every node the next step dereferences exists. */
  predicate Enabled(s: State, a: Step) {
    && s.cfg.width >= 3
    && a.t < |s.threads|
    && match a
       case Start(t, op) => s.threads[t].Idle?
       case Run(t) =>
         && s.threads[t].Busy?
         && var th := s.threads[t];
            match th.pc
            case LoadFirst(pred) => IsNode(s, pred)
            case LoadNext(_, cur) => IsNode(s, cur)
            case Unlink(pred, _, _) => IsNode(s, pred)
            case Found(_, cur) => IsNode(s, cur) && (NeedsNode(th) ==> IsNode(s, th.node))
            case LinkNode(pred, _) => IsNode(s, pred) && IsNode(s, th.node)
            case LoadVictim(_, cur) => IsNode(s, cur)
            case MarkVictim(_, cur, _) => IsNode(s, cur)
            case UnlinkVictim(pred, _, _) => IsNode(s, pred)
            case StartWalk => StartIndex(s.cfg, th) in s.slots
            case CheckSlot(_) => th.pending != []
            case StoreSlot(_) => th.pending != []
            case GetHead => StartIndex(s.cfg, th) in s.slots
            case GetFirst(pred) => IsNode(s, pred)
            case GetWalk(cur, _) =>
              IsNode(s, cur) && (s.heap[cur].hash == TargetHash(s.cfg, th) ==> s.heap[cur].item.Entry?)
            case _ => true
  }

  predicate NeedsNode(th: Thread)
    requires th.Busy?
  {
    th.pending != [] || th.op.Insert?
  }

  function Put(s: State, t: nat, th: Thread): State
    requires t < |s.threads|
  {
    s.(threads := s.threads[t := th])
  }

  function Goto(s: State, t: nat, pc: Pc): State
    requires t < |s.threads| && s.threads[t].Busy?
  {
    Put(s, t, s.threads[t].(pc := pc))
  }

  function SetNode(s: State, n: int, node: Node): State
    requires IsNode(s, n)
  {
    s.(heap := s.heap[n := node])
  }

  /** `make_unique<Node>()` before the retry loops of `add` and `insertSentinel`; `remove` and `get` need no node. */
  function BeginWalk(s: State, t: nat, th: Thread): State
    requires s.cfg.width >= 2 && t < |s.threads| && th.Busy?
  {
    if NeedsNode(th) then
      var item := if th.pending == [] then Entry(th.op.key, th.op.value) else Sentinel;
      var created := Node(TargetHash(s.cfg, th), item, NULL, false);
      Put(s.(heap := s.heap + [created]), t, th.(node := |s.heap|, pc := StartWalk))
    else
      Put(s, t, th.(pc := if th.op.Find? then GetHead else StartWalk))
  }

  /** The innermost `insertSentinel` returns to its caller. */
  function PopSentinel(s: State, t: nat, th: Thread): State
    requires s.cfg.width >= 2 && t < |s.threads| && th.Busy? && th.pending != []
  {
    BeginWalk(s, t, th.(pending := th.pending[..|th.pending| - 1], node := NULL))
  }

  /** `pred->mNext.compare_exchange_strong(cur, desired)` between unmarked links. */
  predicate CasSucceeds(s: State, n: int, expected: int)
    requires IsNode(s, n)
  {
    s.heap[n].next == expected && !s.heap[n].mark
  }

  function DoLoadSlot(s: State, t: nat): State
    requires s.cfg.width >= 2 && t < |s.threads| && s.threads[t].Busy?
  {
    var th := s.threads[t];
    var i := StartIndex(s.cfg, th);
    if i in s.slots then BeginWalk(s, t, th) else Put(s, t, th.(pending := th.pending + [i]))
  }

  function DoLoadNext(s: State, t: nat, pred: int, cur: int): State
    requires s.cfg.width >= 2 && t < |s.threads| && s.threads[t].Busy? && IsNode(s, cur)
  {
    var c := s.heap[cur];
    if c.mark then Goto(s, t, Unlink(pred, cur, c.next))
    else if Stops(s.cfg, s.threads[t], c) then Goto(s, t, Found(pred, cur))
    else Goto(s, t, LoadNext(cur, c.next))
  }

  function DoUnlink(s: State, t: nat, pred: int, cur: int, succ: int): State
    requires t < |s.threads| && s.threads[t].Busy? && IsNode(s, pred)
  {
    if CasSucceeds(s, pred, cur)
    then Goto(SetNode(s, pred, s.heap[pred].(next := succ)), t, LoadNext(pred, succ))
    else Goto(s, t, StartWalk)
  }

  function DoFound(s: State, t: nat, pred: int, cur: int): State
    requires s.cfg.width >= 2 && t < |s.threads| && s.threads[t].Busy? && IsNode(s, cur)
    requires NeedsNode(s.threads[t]) ==> IsNode(s, s.threads[t].node)
  {
    var th := s.threads[t];
    var matches := Matches(s.cfg, th, s.heap[cur]);
    if th.pending != [] && matches then Goto(s, t, CheckSlot(cur))
    else if NeedsNode(th) && !matches then
      Goto(SetNode(s, th.node, s.heap[th.node].(next := cur)), t, LinkNode(pred, cur))
    else if th.op.Insert? || !matches then Put(s, t, th.(node := NULL, pc := Return(false)))
    else Goto(s, t, LoadVictim(pred, cur))
  }

  function DoLinkNode(s: State, t: nat, pred: int, cur: int): State
    requires t < |s.threads| && s.threads[t].Busy? && IsNode(s, pred)
  {
    var th := s.threads[t];
    if CasSucceeds(s, pred, cur) then
      Put(SetNode(s, pred, s.heap[pred].(next := th.node)), t,
          if th.pending == [] then th.(node := NULL, pc := IncSize)
          else th.(node := NULL, pc := CheckSlot(th.node)))
    else
      Goto(s, t, StartWalk)
  }

  function DoMarkVictim(s: State, t: nat, pred: int, cur: int, succ: int): State
    requires t < |s.threads| && s.threads[t].Busy? && IsNode(s, cur)
  {
    if CasSucceeds(s, cur, succ)
    then Goto(SetNode(s, cur, s.heap[cur].(mark := true)), t, UnlinkVictim(pred, cur, succ))
    else Goto(s, t, StartWalk)
  }

  function DoUnlinkVictim(s: State, t: nat, pred: int, cur: int, succ: int): State
    requires t < |s.threads| && s.threads[t].Busy? && IsNode(s, pred)
  {
    Goto(if CasSucceeds(s, pred, cur) then SetNode(s, pred, s.heap[pred].(next := succ)) else s, t, DecSize)
  }

  function DoCheckSlot(s: State, t: nat, sentinel: int): State
    requires s.cfg.width >= 2 && t < |s.threads| && s.threads[t].Busy? && s.threads[t].pending != []
  {
    var th := s.threads[t];
    if Top(th) in s.slots then PopSentinel(s, t, th) else Goto(s, t, StoreSlot(sentinel))
  }

  function DoStoreSlot(s: State, t: nat, sentinel: int): State
    requires s.cfg.width >= 2 && t < |s.threads| && s.threads[t].Busy? && s.threads[t].pending != []
  {
    var th := s.threads[t];
    PopSentinel(s.(slots := s.slots[Top(th) := sentinel]), t, th)
  }

  function DoGetWalk(s: State, t: nat, cur: int, mark: bool): State
    requires s.cfg.width >= 2 && t < |s.threads| && s.threads[t].Busy? && IsNode(s, cur)
  {
    var th, c := s.threads[t], s.heap[cur];
    if GetGoesOn(s.cfg, th, c) then Goto(s, t, GetWalk(c.next, c.mark))
    else if c.hash != TargetHash(s.cfg, th) || !c.HasKey(th.op.key) || mark then Goto(s, t, GetReturn(None))
    else Goto(s, t, GetReturn(Some(c.item.value)))
  }

  /** The exponent stays within the range for which bucket indices survive the key mask. */
  function DoExtendCas(s: State, t: nat, exp: nat): State
    requires t < |s.threads| && s.threads[t].Busy?
  {
    Goto(if s.bits == exp && exp + 1 <= s.cfg.width - 2 then s.(bits := exp + 1) else s, t, Return(true))
  }

  function Next(s: State, a: Step): (s': State)
    requires Enabled(s, a)
  {
    match a
    case Start(t, op) => Put(s, t, Busy(op, s.bits, [], NULL, LoadSlot))
    case Run(t) =>
      var th := s.threads[t];
      match th.pc
      case LoadSlot => DoLoadSlot(s, t)
      case StartWalk => Goto(s, t, LoadFirst(s.slots[StartIndex(s.cfg, th)]))
      case LoadFirst(pred) => Goto(s, t, LoadNext(pred, s.heap[pred].next))
      case LoadNext(pred, cur) => DoLoadNext(s, t, pred, cur)
      case Unlink(pred, cur, succ) => DoUnlink(s, t, pred, cur, succ)
      case Found(pred, cur) => DoFound(s, t, pred, cur)
      case LinkNode(pred, cur) => DoLinkNode(s, t, pred, cur)
      case LoadVictim(pred, cur) => Goto(s, t, MarkVictim(pred, cur, s.heap[cur].next))
      case MarkVictim(pred, cur, succ) => DoMarkVictim(s, t, pred, cur, succ)
      case UnlinkVictim(pred, cur, succ) => DoUnlinkVictim(s, t, pred, cur, succ)
      case CheckSlot(sentinel) => DoCheckSlot(s, t, sentinel)
      case StoreSlot(sentinel) => DoStoreSlot(s, t, sentinel)
      case IncSize => Goto(s.(size := (s.size + 1) % SIZE_RANGE), t, TestLoad(s.size))
      case TestLoad(prev) => Goto(s, t, if Shr(prev, s.bits) > THRESHOLD then ExtendLoad else Return(true))
      case ExtendLoad => Goto(s, t, ExtendCas(s.bits))
      case ExtendCas(exp) => DoExtendCas(s, t, exp)
      case DecSize => Goto(s.(size := (s.size + SIZE_RANGE - 1) % SIZE_RANGE), t, Return(true))
      case Return(_) => Put(s, t, Idle)
      case GetHead => Goto(s, t, GetFirst(s.slots[StartIndex(s.cfg, th)]))
      case GetFirst(pred) => Goto(s, t, GetWalk(s.heap[pred].next, s.heap[pred].mark))
      case GetWalk(cur, mark) => DoGetWalk(s, t, cur, mark)
      case GetReturn(_) => Put(s, t, Idle)
  }

  /** What a step does to the abstract map: a successful linking or marking CAS is one update. */
  function EventOf(s: State, a: Step): Event
    requires Enabled(s, a)
  {
    if a.Start? then Silent else
      var th := s.threads[a.t];
      match th.pc
      case LinkNode(pred, cur) =>
        if th.pending == [] && th.op.Insert? && CasSucceeds(s, pred, cur) then Added(th.op.key, th.op.value) else Silent
      case MarkVictim(_, cur, succ) =>
        if CasSucceeds(s, cur, succ) then Removed(th.op.key) else Silent
      case _ => Silent
  }
}
