/**
  The lock-free queue whose dummy tail node is filled by the data CAS of `push`.

  One step is one atomic access to `mHead`, `mTail`, or to the `mData` or `mNext` of a node.
  Node identities are fresh (indices into `heap`); storing and clearing a hazard pointer
  changes no queue state and is part of the neighbouring load.
*/
module MSQueue {
  import opened Sequences

  type Value = int
  const NULL: int := -1

  datatype Node = Node(data: Option<Value>, next: int)

  /** `node` is the spare node of a push, `spare` that of a pop (`newTail`). */
  datatype Pc =
    | Idle
    | PushLoadTail
    | PushCheckTail(tail: int)
    | PushCasData(tail: int)
    | PushCasNext(tail: int, done: bool)
    | PushCasTail(tail: int, next: int, done: bool)
    | PushReturn
    | PopLoadHead
    | PopLoadTail(head: int)
    | PopRecheckTail(tail: int)
    | PopLoadData(tail: int)
    | PopLoadNext(tail: int)
    | PopCasNext(tail: int)
    | PopReloadNext(tail: int)
    | PopCasTail(tail: int, next: int)
    | PopRecheckHead(head: int)
    | PopReadNext(head: int)
    | PopCasHead(head: int, next: int)
    | PopReturn(result: Option<Value>)

  datatype Thread = Thread(value: Value, spare: int, pc: Pc)

  datatype State = State(heap: seq<Node>, head: int, tail: int, threads: seq<Thread>)

  datatype Step = BeginPush(t: nat, v: Value) | BeginPop(t: nat) | Run(t: nat)

  datatype Event = Silent | Pushed(v: Value) | Popped(v: Value) | SawEmpty

  ghost predicate Init(s: State) {
    && s.heap == [Node(None, NULL)] && s.head == 0 && s.tail == 0
    && forall t :: 0 <= t < |s.threads| ==> s.threads[t].pc == Idle && s.threads[t].spare == NULL
  }

  predicate IsNode(s: State, n: int) { 0 <= n < |s.heap| }

  /** The nodes the next step dereferences exist, and a pop finds data in the node it takes. */
  predicate Enabled(s: State, a: Step) {
    && a.t < |s.threads|
    && match a
       case BeginPush(t, _) => s.threads[t].pc.Idle?
       case BeginPop(t) => s.threads[t].pc.Idle?
       case Run(t) =>
         match s.threads[t].pc
         case Idle => false
         case PushCasData(tail) => IsNode(s, tail)
         case PushCasNext(tail, _) => IsNode(s, tail) && IsNode(s, s.threads[t].spare)
         case PopLoadData(tail) => IsNode(s, tail)
         case PopLoadNext(tail) => IsNode(s, tail)
         case PopCasNext(tail) => IsNode(s, tail)
         case PopReloadNext(tail) => IsNode(s, tail)
         case PopReadNext(head) => IsNode(s, head)
         case PopCasHead(head, _) => IsNode(s, head) && (s.head == head ==> s.heap[head].data.Some?)
         case _ => true
  }

  function Put(s: State, t: nat, th: Thread): State
    requires t < |s.threads|
  {
    s.(threads := s.threads[t := th])
  }

  function Goto(s: State, t: nat, pc: Pc): State
    requires t < |s.threads|
  {
    Put(s, t, s.threads[t].(pc := pc))
  }

  /** `tail->mNext.compare_exchange_strong(nullptr, node)`; a used node is replaced by a new one. */
  function DoPushCasNext(s: State, t: nat, tail: int, done: bool): State
    requires t < |s.threads| && IsNode(s, tail)
  {
    var th := s.threads[t];
    if s.heap[tail].next == NULL then
      var linked := s.(heap := s.heap[tail := s.heap[tail].(next := th.spare)]);
      if done then Put(linked, t, th.(spare := NULL, pc := PushCasTail(tail, th.spare, done)))
      else Put(linked.(heap := linked.heap + [Node(None, NULL)]), t,
               th.(spare := |s.heap|, pc := PushCasTail(tail, th.spare, done)))
    else Goto(s, t, PushCasTail(tail, s.heap[tail].next, done))
  }

  /** `newTail` is made on first use and kept when the CAS fails. */
  function DoPopLoadNext(s: State, t: nat, tail: int): State
    requires t < |s.threads| && IsNode(s, tail)
  {
    var th := s.threads[t];
    if s.heap[tail].next != NULL then Goto(s, t, PopCasTail(tail, s.heap[tail].next))
    else if th.spare != NULL then Goto(s, t, PopCasNext(tail))
    else Put(s.(heap := s.heap + [Node(None, NULL)]), t, th.(spare := |s.heap|, pc := PopCasNext(tail)))
  }

  function DoPopCasNext(s: State, t: nat, tail: int): State
    requires t < |s.threads| && IsNode(s, tail)
  {
    var th := s.threads[t];
    if s.heap[tail].next == NULL then
      Put(s.(heap := s.heap[tail := s.heap[tail].(next := th.spare)]), t,
          th.(spare := NULL, pc := PopCasTail(tail, th.spare)))
    else Goto(s, t, PopReloadNext(tail))
  }

  function RunNext(s: State, t: nat): State
    requires Enabled(s, Run(t))
  {
    var th := s.threads[t];
    match th.pc
    case PushLoadTail => Goto(s, t, PushCheckTail(s.tail))
    case PushCheckTail(tail) => Goto(s, t, if s.tail == tail then PushCasData(tail) else PushLoadTail)
    case PushCasData(tail) =>
      if s.heap[tail].data == None
      then Goto(s.(heap := s.heap[tail := s.heap[tail].(data := Some(th.value))]), t, PushCasNext(tail, true))
      else Goto(s, t, PushCasNext(tail, false))
    case PushCasNext(tail, done) => DoPushCasNext(s, t, tail, done)
    case PushCasTail(tail, next, done) =>
      Goto(if s.tail == tail then s.(tail := next) else s, t, if done then PushReturn else PushLoadTail)
    case PushReturn => Put(s, t, th.(spare := NULL, pc := Idle))
    case PopLoadHead => Goto(s, t, PopLoadTail(s.head))
    case PopLoadTail(head) => Goto(s, t, if head == s.tail then PopRecheckTail(head) else PopRecheckHead(head))
    case PopRecheckTail(tail) => Goto(s, t, if s.tail == tail then PopLoadData(tail) else PopLoadHead)
    case PopLoadData(tail) => Goto(s, t, if s.heap[tail].data == None then PopReturn(None) else PopLoadNext(tail))
    case PopLoadNext(tail) => DoPopLoadNext(s, t, tail)
    case PopCasNext(tail) => DoPopCasNext(s, t, tail)
    case PopReloadNext(tail) => Goto(s, t, PopCasTail(tail, s.heap[tail].next))
    case PopCasTail(tail, next) => Goto(if s.tail == tail then s.(tail := next) else s, t, PopLoadHead)
    case PopRecheckHead(head) => Goto(s, t, if s.head == head then PopReadNext(head) else PopLoadHead)
    case PopReadNext(head) => Goto(s, t, PopCasHead(head, s.heap[head].next))
    case PopCasHead(head, next) =>
      if s.head == head then Goto(s.(head := next), t, PopReturn(s.heap[head].data)) else Goto(s, t, PopLoadHead)
    case PopReturn(_) => Put(s, t, th.(spare := NULL, pc := Idle))
  }

  function Next(s: State, a: Step): State
    requires Enabled(s, a)
  {
    match a
    case BeginPush(t, v) => Put(s.(heap := s.heap + [Node(None, NULL)]), t, Thread(v, |s.heap|, PushLoadTail))
    case BeginPop(t) => Put(s, t, Thread(0, NULL, PopLoadHead))
    case Run(t) => RunNext(s, t)
  }

  /** A push takes effect with its data CAS, a pop with its head CAS or, empty-handed, with its data load. */
  function EventOf(s: State, a: Step): Event
    requires Enabled(s, a)
  {
    if !a.Run? then Silent else
      var th := s.threads[a.t];
      match th.pc
      case PushCasData(tail) => if s.heap[tail].data == None then Pushed(th.value) else Silent
      case PopLoadData(tail) => if s.heap[tail].data == None then SawEmpty else Silent
      case PopCasHead(head, _) => if s.head == head then Popped(s.heap[head].data.value) else Silent
      case _ => Silent
  }

  // ---------------------------------------------------------------- the invariant

  /** `chain` lists the nodes ever linked, `hd` and `tl` are the positions of `mHead` and `mTail`. */
  datatype Aux = Aux(chain: seq<int>, hd: nat, tl: nat)

  function Follower(c: seq<int>, i: nat): int
    requires i < |c|
  {
    if i + 1 < |c| then c[i + 1] else NULL
  }

  ghost predicate ChainOk(heap: seq<Node>, c: seq<int>) {
    && |c| >= 1
    && (forall i :: 0 <= i < |c| ==> 0 <= c[i] < |heap|)
    && (forall i, j :: 0 <= i < j < |c| ==> c[i] != c[j])
    && (forall i :: 0 <= i < |c| ==> heap[c[i]].next == Follower(c, i))
    && (forall i :: 0 <= i < |c| - 1 ==> heap[c[i]].data.Some?)
  }

  ghost predicate QueueOk(s: State, x: Aux) {
    && ChainOk(s.heap, x.chain)
    && x.hd <= x.tl < |x.chain| && s.head == x.chain[x.hd] && s.tail == x.chain[x.tl]
  }

  /** `n` is a linked node at or before the tail position `limit`. */
  ghost predicate Behind(c: seq<int>, n: int, limit: int) {
    exists i :: 0 <= i < |c| && i <= limit && c[i] == n
  }

  /** `m` follows `n` on the chain. */
  ghost predicate Adjacent(c: seq<int>, n: int, m: int, limit: int) {
    exists i :: 0 <= i < |c| - 1 && i <= limit && c[i] == n && c[i + 1] == m
  }

  ghost predicate SpareOk(heap: seq<Node>, c: seq<int>, n: int) {
    0 <= n < |heap| && n !in c && heap[n] == Node(None, NULL)
  }

  ghost predicate ThreadOk(heap: seq<Node>, x: Aux, th: Thread) {
    var c := x.chain;
    && (th.spare != NULL ==> SpareOk(heap, c, th.spare))
    && match th.pc
       case Idle => th.spare == NULL
       case PushLoadTail => th.spare != NULL
       case PushCheckTail(tail) => th.spare != NULL && Behind(c, tail, x.tl)
       case PushCasData(tail) => th.spare != NULL && Behind(c, tail, x.tl)
       case PushCasNext(tail, _) =>
         th.spare != NULL && Behind(c, tail, x.tl) && 0 <= tail < |heap| && heap[tail].data.Some?
       case PushCasTail(tail, next, done) => (!done ==> th.spare != NULL) && Adjacent(c, tail, next, x.tl)
       case PopLoadTail(head) => Behind(c, head, x.hd)
       case PopRecheckTail(tail) => Behind(c, tail, x.hd)
       case PopLoadData(tail) => Behind(c, tail, x.hd)
       case PopLoadNext(tail) => Behind(c, tail, x.tl) && 0 <= tail < |heap| && heap[tail].data.Some?
       case PopCasNext(tail) => th.spare != NULL && Behind(c, tail, x.tl) && 0 <= tail < |heap| && heap[tail].data.Some?
       case PopReloadNext(tail) => Behind(c, tail, x.tl) && 0 <= tail < |heap| && heap[tail].next != NULL
       case PopCasTail(tail, next) => Adjacent(c, tail, next, x.tl)
       case PopRecheckHead(head) => Behind(c, head, x.tl - 1)
       case PopReadNext(head) => Behind(c, head, x.tl - 1)
       case PopCasHead(head, next) => Adjacent(c, head, next, x.tl - 1)
       case _ => true
  }

  ghost predicate SparesDistinct(ths: seq<Thread>) {
    forall t, u :: 0 <= t < u < |ths| && ths[t].spare != NULL ==> ths[t].spare != ths[u].spare
  }

  ghost predicate Inv(s: State, x: Aux) {
    && QueueOk(s, x)
    && SparesDistinct(s.threads)
    && forall t :: 0 <= t < |s.threads| ==> ThreadOk(s.heap, x, s.threads[t])
  }

  /** The queue: the data of the chain from the head on. */
  function Contents(heap: seq<Node>, c: seq<int>, i: nat): seq<Value>
    decreases |c| - i
  {
    if i >= |c| || !(0 <= c[i] < |heap|) || heap[c[i]].data.None? then []
    else [heap[c[i]].data.value] + Contents(heap, c, i + 1)
  }

  ghost predicate QueueStep(q: seq<Value>, e: Event, q': seq<Value>) {
    match e
    case Silent => q' == q
    case Pushed(v) => q' == q + [v]
    case Popped(v) => q != [] && q[0] == v && q' == q[1..]
    case SawEmpty => q == [] && q' == q
  }

  /** How the auxiliary data follows a step. */
  function AuxNext(s: State, a: Step, x: Aux): Aux
    requires Enabled(s, a)
  {
    if !a.Run? then x else
      var th := s.threads[a.t];
      match th.pc
      case PushCasNext(tail, _) => if s.heap[tail].next == NULL then x.(chain := x.chain + [th.spare]) else x
      case PopCasNext(tail) => if s.heap[tail].next == NULL then x.(chain := x.chain + [th.spare]) else x
      case PushCasTail(tail, _, _) => if s.tail == tail then x.(tl := x.tl + 1) else x
      case PopCasTail(tail, _) => if s.tail == tail then x.(tl := x.tl + 1) else x
      case PopCasHead(head, _) => if s.head == head then x.(hd := x.hd + 1) else x
      case _ => x
  }

  // ---------------------------------------------------------------- frame

  /** The chain only grows, by nodes that were spare; data and links are set once. */
  ghost predicate Evolves(heap: seq<Node>, x: Aux, heap': seq<Node>, x': Aux, own: int) {
    && |heap| <= |heap'|
    && |x.chain| <= |x'.chain| && (forall i :: 0 <= i < |x.chain| ==> x'.chain[i] == x.chain[i])
    && (forall i :: |x.chain| <= i < |x'.chain| ==> x'.chain[i] == own)
    && x.hd <= x'.hd && x.tl <= x'.tl
    && (forall n :: 0 <= n < |heap| && heap[n].data.Some? ==> heap'[n].data == heap[n].data)
    && (forall n :: 0 <= n < |heap| && heap[n].next != NULL ==> heap'[n].next == heap[n].next)
    && (forall n :: 0 <= n < |heap| && n !in x.chain && n != own ==> heap'[n] == heap[n])
  }

  lemma BehindGrows(x: Aux, x': Aux, n: int, limit: int, limit': int)
    requires |x.chain| <= |x'.chain| && (forall i :: 0 <= i < |x.chain| ==> x'.chain[i] == x.chain[i])
    requires limit <= limit' && Behind(x.chain, n, limit)
    ensures Behind(x'.chain, n, limit')
  {
    var i :| 0 <= i < |x.chain| && i <= limit && x.chain[i] == n;
    assert x'.chain[i] == n;
  }

  lemma AdjacentGrows(x: Aux, x': Aux, n: int, m: int, limit: int, limit': int)
    requires |x.chain| <= |x'.chain| && (forall i :: 0 <= i < |x.chain| ==> x'.chain[i] == x.chain[i])
    requires limit <= limit' && Adjacent(x.chain, n, m, limit)
    ensures Adjacent(x'.chain, n, m, limit')
  {
    var i :| 0 <= i < |x.chain| - 1 && i <= limit && x.chain[i] == n && x.chain[i + 1] == m;
    assert x'.chain[i] == n && x'.chain[i + 1] == m;
  }

  lemma OtherKeeps(heap: seq<Node>, x: Aux, heap': seq<Node>, x': Aux, own: int, th: Thread)
    requires Evolves(heap, x, heap', x', own) && ThreadOk(heap, x, th)
    requires own != NULL ==> th.spare != own
    ensures ThreadOk(heap', x', th)
  {
    hide Behind, Adjacent;
    forall n, limit, limit' | limit <= limit' && Behind(x.chain, n, limit) ensures Behind(x'.chain, n, limit') {
      BehindGrows(x, x', n, limit, limit');
    }
    forall n, m, limit, limit' | limit <= limit' && Adjacent(x.chain, n, m, limit)
      ensures Adjacent(x'.chain, n, m, limit')
    {
      AdjacentGrows(x, x', n, m, limit, limit');
    }
  }

  /** What a step lemma establishes. */
  ghost predicate StepOk(s: State, x: Aux, s': State, x': Aux, t: nat) {
    && t < |s.threads| == |s'.threads| && s'.threads == s.threads[t := s'.threads[t]]
    && QueueOk(s', x')
    && Evolves(s.heap, x, s'.heap, x', s.threads[t].spare)
    && ThreadOk(s'.heap, x', s'.threads[t])
    && (var n := s'.threads[t].spare; n == NULL || n == s.threads[t].spare || n >= |s.heap|)
  }

  lemma Frame(s: State, x: Aux, s': State, x': Aux, t: nat)
    requires Inv(s, x) && StepOk(s, x, s', x', t)
    ensures Inv(s', x')
  {
    hide QueueOk, ThreadOk, Evolves;
    forall u | 0 <= u < |s'.threads| ensures ThreadOk(s'.heap, x', s'.threads[u]) {
      if u != t {
        OtherKeeps(s.heap, x, s'.heap, x', s.threads[t].spare, s.threads[u]);
      }
    }
    forall u | 0 <= u < |s.threads| ensures s.threads[u].spare < |s.heap| {
      SpareInRange(s.heap, x, s.threads[u]);
    }
  }

  lemma SpareInRange(heap: seq<Node>, x: Aux, th: Thread)
    requires ThreadOk(heap, x, th)
    ensures th.spare < |heap|
  {
  }

  /** What is known of the stepping thread. */
  ghost predicate At(s: State, x: Aux, t: nat) {
    QueueOk(s, x) && t < |s.threads| && ThreadOk(s.heap, x, s.threads[t])
  }

  // ---------------------------------------------------------------- one lemma per kind of step

  /** A freshly made node. */
  lemma Allocate(s: State, x: Aux, heap': seq<Node>)
    requires QueueOk(s, x) && heap' == s.heap + [Node(None, NULL)]
    ensures ChainOk(heap', x.chain) && SpareOk(heap', x.chain, |s.heap|)
    ensures forall own :: Evolves(s.heap, x, heap', x, own)
  {
  }

  lemma StepBegin(s: State, a: Step, x: Aux)
    requires (a.BeginPush? || a.BeginPop?) && Enabled(s, a) && At(s, x, a.t)
    ensures StepOk(s, x, Next(s, a), x, a.t)
  {
    Allocate(s, x, s.heap + [Node(None, NULL)]);
  }

  predicate IsLoad(pc: Pc) {
    || pc.PushLoadTail? || pc.PushCheckTail? || pc.PushReturn? || pc.PopLoadHead? || pc.PopLoadTail?
    || pc.PopRecheckTail?
    || pc.PopLoadData? || pc.PopReloadNext? || pc.PopRecheckHead? || pc.PopReadNext? || pc.PopReturn?
  }

  /** A node with a successor is followed by it on the chain. */
  lemma NextIsAdjacent(heap: seq<Node>, c: seq<int>, n: int, limit: int)
    requires ChainOk(heap, c) && Behind(c, n, limit) && 0 <= n < |heap|
    ensures heap[n].next != NULL ==> Adjacent(c, n, heap[n].next, limit)
    ensures limit < |c| - 1 ==> heap[n].next != NULL
  {
    var i :| 0 <= i < |c| && i <= limit && c[i] == n;
    assert heap[c[i]].next == Follower(c, i);
  }

  /** The tail, and with it the head, is a node of the chain. */
  lemma TailIsBehind(s: State, x: Aux)
    requires QueueOk(s, x)
    ensures Behind(x.chain, s.tail, x.tl) && Behind(x.chain, s.head, x.hd)
    ensures forall n :: Behind(x.chain, n, x.hd) ==> Behind(x.chain, n, x.tl) && IsNode(s, n)
  {
    forall n | Behind(x.chain, n, x.hd) ensures Behind(x.chain, n, x.tl) && IsNode(s, n) {
      BehindGrows(x, x, n, x.hd, x.tl);
    }
  }

  /** A head seen before a different tail lies strictly before the tail. */
  lemma HeadIsStrictlyBehind(s: State, x: Aux, n: int)
    requires QueueOk(s, x) && Behind(x.chain, n, x.hd) && n != s.tail
    ensures Behind(x.chain, n, x.tl - 1)
  {
    hide ChainOk;
    var i :| 0 <= i < |x.chain| && i <= x.hd && x.chain[i] == n;
    assert i <= x.tl - 1 && x.chain[i] == n;
  }

  lemma RunLoad(s: State, x: Aux, t: nat)
    requires At(s, x, t) && Enabled(s, Run(t)) && IsLoad(s.threads[t].pc)
    ensures StepOk(s, x, Next(s, Run(t)), x, t)
  {
    hide Behind, Adjacent, ChainOk;
    var pc := s.threads[t].pc;
    TailIsBehind(s, x);
    match pc {
      case PopReloadNext(tail) => NextIsAdjacent(s.heap, x.chain, tail, x.tl);
      case PopReadNext(head) => NextIsAdjacent(s.heap, x.chain, head, x.tl - 1);
      case PopLoadTail(head) => if head != s.tail { HeadIsStrictlyBehind(s, x, head); }
      case _ =>
    }
  }

  lemma LastNode(heap: seq<Node>, c: seq<int>, n: int, limit: int) returns (i: nat)
    requires ChainOk(heap, c) && Behind(c, n, limit) && 0 <= n < |heap|
    ensures i < |c| && c[i] == n && i <= limit
    ensures heap[n].next == NULL ==> i == |c| - 1
    ensures heap[n].data.None? ==> i == |c| - 1
  {
    i :| 0 <= i < |c| && i <= limit && c[i] == n;
    assert heap[c[i]].next == Follower(c, i);
  }

  /** The data CAS fills the last node. */
  lemma RunCasData(s: State, x: Aux, t: nat)
    requires At(s, x, t) && Enabled(s, Run(t)) && s.threads[t].pc.PushCasData?
    ensures StepOk(s, x, Next(s, Run(t)), x, t)
  {
    var tail := s.threads[t].pc.tail;
    var i := LastNode(s.heap, x.chain, tail, x.tl);
  }

  /** The link CAS appends the spare node `m` behind the last node `n`. */
  lemma Append(heap: seq<Node>, x: Aux, n: int, m: int)
    requires ChainOk(heap, x.chain) && Behind(x.chain, n, x.tl) && 0 <= n < |heap| && heap[n].next == NULL
    requires heap[n].data.Some?
    requires SpareOk(heap, x.chain, m)
    ensures var heap', x' := heap[n := heap[n].(next := m)], x.(chain := x.chain + [m]);
            ChainOk(heap', x'.chain) && Evolves(heap, x, heap', x', m) && Adjacent(x'.chain, n, m, x.tl)
  {
    var c := x.chain;
    var i := LastNode(heap, c, n, x.tl);
    var heap', c' := heap[n := heap[n].(next := m)], c + [m];
    forall j | 0 <= j < |c'| ensures heap'[c'[j]].next == Follower(c', j) {
      assert j < |c| ==> heap[c[j]].next == Follower(c, j);
    }
    assert c'[i] == n && c'[i + 1] == m;
  }

  lemma Appended(s: State, x: Aux, t: nat, tail: int, s': State)
    requires At(s, x, t) && IsNode(s, tail) && Behind(x.chain, tail, x.tl) && s.heap[tail].next == NULL
    requires s.heap[tail].data.Some?
    requires s.threads[t].spare != NULL && |s'.threads| == |s.threads| && s'.threads == s.threads[t := s'.threads[t]]
    requires s'.head == s.head && s'.tail == s.tail
    requires var linked := s.heap[tail := s.heap[tail].(next := s.threads[t].spare)];
             (s'.heap == linked && s'.threads[t].spare == NULL)
             || (s'.heap == linked + [Node(None, NULL)] && s'.threads[t].spare == |s.heap|)
    ensures var x' := x.(chain := x.chain + [s.threads[t].spare]);
            && QueueOk(s', x') && Evolves(s.heap, x, s'.heap, x', s.threads[t].spare)
            && Adjacent(x'.chain, tail, s.threads[t].spare, x.tl)
            && (s'.threads[t].spare != NULL ==> SpareOk(s'.heap, x'.chain, s'.threads[t].spare))
  {
    hide Behind, Adjacent, ChainOk;
    Append(s.heap, x, tail, s.threads[t].spare);
    NextIsAdjacent(s.heap, x.chain, tail, x.tl);
    ChainGrows(s.heap[tail := s.heap[tail].(next := s.threads[t].spare)], x.chain + [s.threads[t].spare]);
    ChainGrows(s.heap, x.chain);
  }

  lemma ChainGrows(heap: seq<Node>, c: seq<int>)
    requires ChainOk(heap, c)
    ensures ChainOk(heap + [Node(None, NULL)], c) && |heap| !in c
  {
  }

  lemma RunPushCasNext(s: State, x: Aux, t: nat)
    requires At(s, x, t) && Enabled(s, Run(t)) && s.threads[t].pc.PushCasNext?
    ensures StepOk(s, x, Next(s, Run(t)), AuxNext(s, Run(t), x), t)
  {
    hide StepOk, Behind, Adjacent, ChainOk, QueueOk;
    var tail, s' := s.threads[t].pc.tail, Next(s, Run(t));
    if s.heap[tail].next == NULL {
      PushAppends(s, x, t, s');
    } else {
      PushFollows(s, x, t, s');
    }
  }

  lemma PushAppends(s: State, x: Aux, t: nat, s': State)
    requires At(s, x, t) && s.threads[t].pc.PushCasNext? && IsNode(s, s.threads[t].pc.tail)
    requires s.heap[s.threads[t].pc.tail].next == NULL
    requires s' == DoPushCasNext(s, t, s.threads[t].pc.tail, s.threads[t].pc.done)
    ensures StepOk(s, x, s', x.(chain := x.chain + [s.threads[t].spare]), t)
  {
    hide Behind, Adjacent, ChainOk;
    Appended(s, x, t, s.threads[t].pc.tail, s');
  }

  lemma PushFollows(s: State, x: Aux, t: nat, s': State)
    requires At(s, x, t) && s.threads[t].pc.PushCasNext? && IsNode(s, s.threads[t].pc.tail)
    requires s.heap[s.threads[t].pc.tail].next != NULL
    requires s' == DoPushCasNext(s, t, s.threads[t].pc.tail, s.threads[t].pc.done)
    ensures StepOk(s, x, s', x, t)
  {
    hide Behind, Adjacent, ChainOk;
    NextIsAdjacent(s.heap, x.chain, s.threads[t].pc.tail, x.tl);
  }

  lemma RunPopLoadNext(s: State, x: Aux, t: nat)
    requires At(s, x, t) && Enabled(s, Run(t)) && s.threads[t].pc.PopLoadNext?
    ensures StepOk(s, x, Next(s, Run(t)), x, t)
  {
    hide Behind, Adjacent, ChainOk;
    var tail, s' := s.threads[t].pc.tail, Next(s, Run(t));
    NextIsAdjacent(s.heap, x.chain, tail, x.tl);
    Allocate(s, x, s.heap + [Node(None, NULL)]);
    BehindGrows(x, x, tail, x.tl, x.tl);
    assert Evolves(s.heap, x, s'.heap, x, s.threads[t].spare) by { hide SpareOk; }
  }

  lemma RunPopCasNext(s: State, x: Aux, t: nat)
    requires At(s, x, t) && Enabled(s, Run(t)) && s.threads[t].pc.PopCasNext?
    ensures StepOk(s, x, Next(s, Run(t)), AuxNext(s, Run(t), x), t)
  {
    hide StepOk, Behind, Adjacent, ChainOk, QueueOk;
    var tail, s' := s.threads[t].pc.tail, Next(s, Run(t));
    if s.heap[tail].next == NULL {
      PopAppends(s, x, t, s');
    } else {
      PopReloads(s, x, t, s');
    }
  }

  lemma PopAppends(s: State, x: Aux, t: nat, s': State)
    requires At(s, x, t) && s.threads[t].pc.PopCasNext? && IsNode(s, s.threads[t].pc.tail)
    requires s.heap[s.threads[t].pc.tail].next == NULL && s' == DoPopCasNext(s, t, s.threads[t].pc.tail)
    ensures StepOk(s, x, s', x.(chain := x.chain + [s.threads[t].spare]), t)
  {
    hide Behind, Adjacent, ChainOk;
    Appended(s, x, t, s.threads[t].pc.tail, s');
  }

  lemma PopReloads(s: State, x: Aux, t: nat, s': State)
    requires At(s, x, t) && s.threads[t].pc.PopCasNext? && IsNode(s, s.threads[t].pc.tail)
    requires s.heap[s.threads[t].pc.tail].next != NULL && s' == DoPopCasNext(s, t, s.threads[t].pc.tail)
    ensures StepOk(s, x, s', x, t)
  {
    hide Behind, Adjacent, ChainOk;
  }

  /** An adjacent pair that starts at position `k`. */
  lemma PairAt(heap: seq<Node>, c: seq<int>, n: int, m: int, limit: int, k: nat)
    requires ChainOk(heap, c) && Adjacent(c, n, m, limit) && k < |c| && c[k] == n
    ensures k + 1 < |c| && c[k + 1] == m && k <= limit && heap[n].data.Some?
  {
    var i :| 0 <= i < |c| - 1 && i <= limit && c[i] == n && c[i + 1] == m;
  }

  /** Advancing the tail, by whichever thread helps first. */
  lemma RunCasTail(s: State, x: Aux, t: nat)
    requires At(s, x, t) && Enabled(s, Run(t)) && (s.threads[t].pc.PushCasTail? || s.threads[t].pc.PopCasTail?)
    ensures StepOk(s, x, Next(s, Run(t)), AuxNext(s, Run(t), x), t)
  {
    hide Behind, Adjacent, ChainOk;
    var pc := s.threads[t].pc;
    if s.tail == pc.tail {
      PairAt(s.heap, x.chain, pc.tail, pc.next, x.tl, x.tl);
    }
  }

  /** Advancing the head never overtakes the tail, and the new head is a node. */
  lemma RunCasHead(s: State, x: Aux, t: nat)
    requires At(s, x, t) && Enabled(s, Run(t)) && s.threads[t].pc.PopCasHead?
    ensures StepOk(s, x, Next(s, Run(t)), AuxNext(s, Run(t), x), t)
  {
    hide Behind, Adjacent, ChainOk;
    var pc := s.threads[t].pc;
    if s.head == pc.head {
      PairAt(s.heap, x.chain, pc.head, pc.next, x.tl - 1, x.hd);
    }
  }

  // ---------------------------------------------------------------- every step

  lemma RunOk(s: State, x: Aux, t: nat)
    requires At(s, x, t) && Enabled(s, Run(t))
    ensures StepOk(s, x, Next(s, Run(t)), AuxNext(s, Run(t), x), t)
  {
    hide At, StepOk, Next;
    match s.threads[t].pc
    case PushCasData(_) => RunCasData(s, x, t);
    case PushCasNext(_, _) => RunPushCasNext(s, x, t);
    case PushCasTail(_, _, _) => RunCasTail(s, x, t);
    case PopLoadNext(_) => RunPopLoadNext(s, x, t);
    case PopCasNext(_) => RunPopCasNext(s, x, t);
    case PopCasTail(_, _) => RunCasTail(s, x, t);
    case PopCasHead(_, _) => RunCasHead(s, x, t);
    case _ => RunLoad(s, x, t);
  }

  lemma InvAt(s: State, x: Aux, t: nat)
    requires Inv(s, x) && t < |s.threads|
    ensures At(s, x, t)
  {
  }

  /** Every step keeps the invariant. */
  lemma StepKeeps(s: State, a: Step, x: Aux)
    requires Inv(s, x) && Enabled(s, a)
    ensures Inv(Next(s, a), AuxNext(s, a, x))
  {
    hide Inv, At, StepOk, Next;
    InvAt(s, x, a.t);
    if a.Run? {
      RunOk(s, x, a.t);
    } else {
      StepBegin(s, a, x);
    }
    Frame(s, x, Next(s, a), AuxNext(s, a, x), a.t);
  }

  // ---------------------------------------------------------------- the queue

  /** Steps that write no data on the chain and move no head leave the contents alone. */
  lemma {:induction false} ContentsSame(heap: seq<Node>, x: Aux, heap': seq<Node>, x': Aux, own: int, i: nat)
    requires Evolves(heap, x, heap', x', own) && ChainOk(heap, x.chain) && ChainOk(heap', x'.chain)
    requires forall j :: 0 <= j < |x.chain| ==> heap'[x.chain[j]].data == heap[x.chain[j]].data
    requires forall j :: |x.chain| <= j < |x'.chain| ==> heap'[x'.chain[j]].data.None?
    ensures Contents(heap', x'.chain, i) == Contents(heap, x.chain, i)
    decreases |x'.chain| - i
  {
    if i < |x'.chain| {
      ContentsSame(heap, x, heap', x', own, i + 1);
    }
  }

  lemma {:induction false} ContentsFilled(heap: seq<Node>, c: seq<int>, heap': seq<Node>, i: nat, v: Value)
    requires i < |c| && |heap| == |heap'| && (forall j :: 0 <= j < |c| ==> 0 <= c[j] < |heap|)
    requires forall j :: 0 <= j < |c| - 1 ==> heap[c[j]].data.Some? && heap'[c[j]].data == heap[c[j]].data
    requires heap[c[|c| - 1]].data.None? && heap'[c[|c| - 1]].data == Some(v)
    ensures Contents(heap', c, i) == Contents(heap, c, i) + [v]
    decreases |c| - i
  {
    if i == |c| - 1 {
      assert Contents(heap', c, i + 1) == [];
    } else {
      ContentsFilled(heap, c, heap', i + 1, v);
    }
  }

  /** The effect of a step on the queue. */
  ghost predicate EffectOk(s: State, a: Step, x: Aux)
    requires Enabled(s, a)
  {
    var x' := AuxNext(s, a, x);
    QueueStep(Contents(s.heap, x.chain, x.hd), EventOf(s, a), Contents(Next(s, a).heap, x'.chain, x'.hd))
  }

  /** Every step has the effect of its event on the queue. */
  lemma StepRefines(s: State, a: Step, x: Aux)
    requires Inv(s, x) && Enabled(s, a)
    ensures EffectOk(s, a, x)
  {
    hide Inv, At, StepOk, Next;
    InvAt(s, x, a.t);
    if a.Run? {
      RunOk(s, x, a.t);
      match s.threads[a.t].pc
      case PushCasData(_) => DataEffect(s, x, a.t);
      case PopLoadData(_) => EmptyEffect(s, x, a.t);
      case PopCasHead(_, _) => HeadEffect(s, x, a.t);
      case _ => QuietEffect(s, a, x);
    } else {
      StepBegin(s, a, x);
      QuietEffect(s, a, x);
    }
  }

  lemma QuietEffect(s: State, a: Step, x: Aux)
    requires Enabled(s, a) && At(s, x, a.t) && StepOk(s, x, Next(s, a), AuxNext(s, a, x), a.t)
    requires a.Run? ==>
               !s.threads[a.t].pc.PushCasData? && !s.threads[a.t].pc.PopLoadData? && !s.threads[a.t].pc.PopCasHead?
    ensures EffectOk(s, a, x)
  {
    var s', x' := Next(s, a), AuxNext(s, a, x);
    QuietShape(s, a, x);
    OnlySparesAppended(s, a, x);
    AppendedEmpty(s, x, s', x', a.t);
    hide ChainOk, ThreadOk, Next, AuxNext, Enabled, EventOf;
    ContentsSame(s.heap, x, s'.heap, x', s.threads[a.t].spare, x.hd);
  }

  lemma OnlySparesAppended(s: State, a: Step, x: Aux)
    requires Enabled(s, a) && At(s, x, a.t)
    ensures |AuxNext(s, a, x).chain| > |x.chain| ==> s.threads[a.t].spare != NULL
  {
    hide ChainOk;
  }

  lemma QuietShape(s: State, a: Step, x: Aux)
    requires Enabled(s, a)
    requires a.Run? ==>
               !s.threads[a.t].pc.PushCasData? && !s.threads[a.t].pc.PopLoadData? && !s.threads[a.t].pc.PopCasHead?
    ensures AuxNext(s, a, x).hd == x.hd && EventOf(s, a) == Silent
    ensures forall n :: 0 <= n < |s.heap| ==> n < |Next(s, a).heap| && Next(s, a).heap[n].data == s.heap[n].data
  {
    var s' := Next(s, a);
    if a.Run? {
      match s.threads[a.t].pc
      case PushCasNext(tail, done) => assert s' == DoPushCasNext(s, a.t, tail, done);
      case PopCasNext(tail) => assert s' == DoPopCasNext(s, a.t, tail);
      case PopLoadNext(tail) => assert s' == DoPopLoadNext(s, a.t, tail);
      case _ =>
    }
  }

  /** A node that has just been linked holds no data yet. */
  lemma AppendedEmpty(s: State, x: Aux, s': State, x': Aux, t: nat)
    requires At(s, x, t) && StepOk(s, x, s', x', t)
    requires forall n :: 0 <= n < |s.heap| ==> n < |s'.heap| && s'.heap[n].data == s.heap[n].data
    requires |x'.chain| > |x.chain| ==> s.threads[t].spare != NULL
    ensures forall j :: |x.chain| <= j < |x'.chain| ==> s'.heap[x'.chain[j]].data.None?
  {
    hide ChainOk;
  }

  lemma DataEffect(s: State, x: Aux, t: nat)
    requires Enabled(s, Run(t)) && At(s, x, t) && s.threads[t].pc.PushCasData?
    ensures EffectOk(s, Run(t), x)
  {
    var tail := s.threads[t].pc.tail;
    var i := LastNode(s.heap, x.chain, tail, x.tl);
    if s.heap[tail].data.None? {
      ContentsFilled(s.heap, x.chain, Next(s, Run(t)).heap, x.hd, s.threads[t].value);
    }
  }

  /** A pop that finds no data looks at the head itself, and the queue is empty at that instant. */
  lemma EmptyEffect(s: State, x: Aux, t: nat)
    requires Enabled(s, Run(t)) && At(s, x, t) && s.threads[t].pc.PopLoadData?
    ensures EffectOk(s, Run(t), x)
  {
    var tail := s.threads[t].pc.tail;
    var i := LastNode(s.heap, x.chain, tail, x.hd);
  }

  lemma HeadEffect(s: State, x: Aux, t: nat)
    requires Enabled(s, Run(t)) && At(s, x, t) && s.threads[t].pc.PopCasHead?
    ensures EffectOk(s, Run(t), x)
  {
    hide Behind, Adjacent, ChainOk;
    var pc := s.threads[t].pc;
    if s.head == pc.head {
      PairAt(s.heap, x.chain, pc.head, pc.next, x.tl - 1, x.hd);
    }
  }

  /** No step dereferences null, and a pop always finds data in the node it takes. */
  lemma NoFault(s: State, x: Aux, t: nat)
    requires Inv(s, x) && t < |s.threads| && !s.threads[t].pc.Idle?
    ensures Enabled(s, Run(t))
  {
    assert ThreadOk(s.heap, x, s.threads[t]);
  }

  // ---------------------------------------------------------------- whole runs

  /** Any schedule of pushes and pops of any number of threads, from the constructed queue. */
  ghost predicate IsRun(states: seq<State>, steps: seq<Step>) {
    && |states| == |steps| + 1
    && Init(states[0])
    && forall i :: 0 <= i < |steps| ==> Enabled(states[i], steps[i]) && states[i + 1] == Next(states[i], steps[i])
  }

  function QueueAfter(q: seq<Value>, e: Event): seq<Value> {
    match e
    case Pushed(v) => q + [v]
    case Popped(_) => if q == [] then [] else q[1..]
    case _ => q
  }

  /** The abstract queue after `n` steps. */
  ghost function QueueAt(states: seq<State>, steps: seq<Step>, n: nat): seq<Value>
    requires IsRun(states, steps) && n <= |steps|
  {
    if n == 0 then [] else QueueAfter(QueueAt(states, steps, n - 1), EventOf(states[n - 1], steps[n - 1]))
  }

  lemma InitOk(s: State)
    requires Init(s)
    ensures Inv(s, Aux([0], 0, 0)) && Contents(s.heap, [0], 0) == []
  {
  }

  lemma {:induction false} RunKeeps(states: seq<State>, steps: seq<Step>, n: nat) returns (x: Aux)
    requires IsRun(states, steps) && n <= |steps|
    ensures Inv(states[n], x) && Contents(states[n].heap, x.chain, x.hd) == QueueAt(states, steps, n)
  {
    hide Inv, Next, Enabled, Contents, EventOf;
    if n == 0 {
      InitOk(states[0]);
      x := Aux([0], 0, 0);
    } else {
      var x0 := RunKeeps(states, steps, n - 1);
      StepKeeps(states[n - 1], steps[n - 1], x0);
      StepRefines(states[n - 1], steps[n - 1], x0);
      x := AuxNext(states[n - 1], steps[n - 1], x0);
    }
  }

  /**
    First in, first out: in every run each event appends to the queue, removes its oldest value,
    or is a pop that returns null at an instant when the queue is empty.
  */
  lemma RunRefinesQueue(states: seq<State>, steps: seq<Step>, n: nat)
    requires IsRun(states, steps) && n < |steps|
    ensures QueueStep(QueueAt(states, steps, n), EventOf(states[n], steps[n]), QueueAt(states, steps, n + 1))
  {
    hide Inv, Next, Enabled, Contents, EventOf;
    var x := RunKeeps(states, steps, n);
    StepRefines(states[n], steps[n], x);
  }

  /** The argument of the latest call of thread `t`, if that is a push. */
  function CallArgument(steps: seq<Step>, n: nat, t: nat): Option<Value>
    requires n <= |steps|
  {
    if n == 0 then None
    else if steps[n - 1].BeginPush? && steps[n - 1].t == t then Some(steps[n - 1].v)
    else if steps[n - 1].BeginPop? && steps[n - 1].t == t then None
    else CallArgument(steps, n - 1, t)
  }

  /** The effects of the latest call of thread `t`, in order. */
  ghost function CallEvents(states: seq<State>, steps: seq<Step>, n: nat, t: nat): seq<Event>
    requires IsRun(states, steps) && n <= |steps|
  {
    if n == 0 then []
    else if steps[n - 1].t != t then CallEvents(states, steps, n - 1, t)
    else if !steps[n - 1].Run? then []
    else EventsAfter(CallEvents(states, steps, n - 1, t), EventOf(states[n - 1], steps[n - 1]))
  }

  function EventsAfter(es: seq<Event>, e: Event): seq<Event> { if e == Silent then es else es + [e] }

  /** What a thread at its program counter has done in this call. */
  ghost predicate CallOk(th: Thread, es: seq<Event>, arg: Option<Value>) {
    match th.pc
    case Idle => true
    case PushLoadTail => es == [] && arg == Some(th.value)
    case PushCheckTail(_) => es == [] && arg == Some(th.value)
    case PushCasData(_) => es == [] && arg == Some(th.value)
    case PushCasNext(_, done) => es == (if done then [Pushed(th.value)] else []) && arg == Some(th.value)
    case PushCasTail(_, _, done) => es == (if done then [Pushed(th.value)] else []) && arg == Some(th.value)
    case PushReturn => es == [Pushed(th.value)] && arg == Some(th.value)
    case PopReturn(result) => es == [if result.None? then SawEmpty else Popped(result.value)]
    case _ => es == []
  }

  lemma CallStep(s: State, t: nat, es: seq<Event>, arg: Option<Value>)
    requires Enabled(s, Run(t)) && CallOk(s.threads[t], es, arg)
    ensures CallOk(Next(s, Run(t)).threads[t], EventsAfter(es, EventOf(s, Run(t))), arg)
  {
    var pc := s.threads[t].pc;
    if pc.PushCasNext? {
      assert RunNext(s, t) == DoPushCasNext(s, t, pc.tail, pc.done);
    } else if pc.PopLoadNext? {
      assert RunNext(s, t) == DoPopLoadNext(s, t, pc.tail);
    } else if pc.PopCasNext? {
      assert RunNext(s, t) == DoPopCasNext(s, t, pc.tail);
    }
  }

  lemma OthersStay(s: State, a: Step, u: nat)
    requires Enabled(s, a) && u < |Next(s, a).threads| && u != a.t
    ensures u < |s.threads| && Next(s, a).threads[u] == s.threads[u]
  {
  }

  /**
    Linearizability of the calls: a push that returns has appended its argument, once; a pop that
    returns a value has removed that value from the front, once; and a pop that returns null saw
    the queue empty during the call and removed nothing.
  */
  lemma {:induction false} CallsAreAtomic(states: seq<State>, steps: seq<Step>, n: nat, t: nat)
    requires IsRun(states, steps) && n <= |steps| && t < |states[n].threads|
    ensures CallOk(states[n].threads[t], CallEvents(states, steps, n, t), CallArgument(steps, n, t))
    ensures match states[n].threads[t].pc
            case PushReturn =>
              && CallArgument(steps, n, t).Some?
              && CallEvents(states, steps, n, t) == [Pushed(CallArgument(steps, n, t).value)]
            case PopReturn(result) =>
              CallEvents(states, steps, n, t) == [if result.None? then SawEmpty else Popped(result.value)]
            case _ => true
  {
    if n != 0 {
      var s, a := states[n - 1], steps[n - 1];
      assert Enabled(s, a) && states[n] == Next(s, a);
      if a.t != t {
        OthersStay(s, a, t);
        hide Next, Enabled, EventOf;
        CallsAreAtomic(states, steps, n - 1, t);
      } else if a.Run? {
        hide Next, EventOf, CallOk;
        CallsAreAtomic(states, steps, n - 1, t);
        CallStep(s, t, CallEvents(states, steps, n - 1, t), CallArgument(steps, n - 1, t));
      }
    }
  }

  function PushedIn(e: Event): seq<Value> { match e case Pushed(v) => [v] case _ => [] }

  function PoppedIn(e: Event): seq<Value> { match e case Popped(v) => [v] case _ => [] }

  ghost function PushedBy(states: seq<State>, steps: seq<Step>, n: nat): seq<Value>
    requires IsRun(states, steps) && n <= |steps|
  {
    if n == 0 then [] else PushedBy(states, steps, n - 1) + PushedIn(EventOf(states[n - 1], steps[n - 1]))
  }

  ghost function PoppedBy(states: seq<State>, steps: seq<Step>, n: nat): seq<Value>
    requires IsRun(states, steps) && n <= |steps|
  {
    if n == 0 then [] else PoppedBy(states, steps, n - 1) + PoppedIn(EventOf(states[n - 1], steps[n - 1]))
  }

  /** The values popped so far are exactly the first ones pushed, in that order; the rest is queued. */
  lemma {:induction false} PopsFollowPushes(states: seq<State>, steps: seq<Step>, n: nat)
    requires IsRun(states, steps) && n <= |steps|
    ensures PushedBy(states, steps, n) == PoppedBy(states, steps, n) + QueueAt(states, steps, n)
  {
    hide Inv, Next, Enabled, EventOf;
    if n != 0 {
      PopsFollowPushes(states, steps, n - 1);
      RunRefinesQueue(states, steps, n - 1);
      var e, q := EventOf(states[n - 1], steps[n - 1]), QueueAt(states, steps, n - 1);
      assert e.Popped? ==> q == [q[0]] + q[1..];
    }
  }

  /**
    Shape of every reachable state: the links from any node ever linked run along one chain on
    which the head is at or before the tail; only the last node may lack data, and neither head
    nor tail is null.
  */
  lemma HeadBeforeTail(states: seq<State>, steps: seq<Step>, n: nat) returns (x: Aux)
    requires IsRun(states, steps) && n <= |steps|
    ensures ChainOk(states[n].heap, x.chain)
    ensures x.hd <= x.tl < |x.chain| && states[n].head == x.chain[x.hd] && states[n].tail == x.chain[x.tl]
    ensures IsNode(states[n], states[n].head) && IsNode(states[n], states[n].tail)
  {
    x := RunKeeps(states, steps, n);
  }

  /** Data and link of a node are set at most once. */
  lemma {:induction false} SetOnce(states: seq<State>, steps: seq<Step>, i: nat, j: nat, m: nat)
    requires IsRun(states, steps) && i <= j <= |steps| && m < |states[i].heap|
    ensures m < |states[j].heap|
    ensures states[i].heap[m].data.Some? ==> states[j].heap[m].data == states[i].heap[m].data
    ensures states[i].heap[m].next != NULL ==> states[j].heap[m].next == states[i].heap[m].next
    decreases j
  {
    hide Inv, Next, StepOk;
    if i < j {
      SetOnce(states, steps, i, j - 1, m);
      var x := RunKeeps(states, steps, j - 1);
      var s, a := states[j - 1], steps[j - 1];
      InvAt(s, x, a.t);
      if a.Run? {
        RunOk(s, x, a.t);
      } else {
        StepBegin(s, a, x);
      }
      OkEvolves(s, x, Next(s, a), AuxNext(s, a, x), a.t);
    }
  }

  lemma OkEvolves(s: State, x: Aux, s': State, x': Aux, t: nat)
    requires StepOk(s, x, s', x', t)
    ensures Evolves(s.heap, x, s'.heap, x', s.threads[t].spare)
  {
  }

  /** Threads never fault, in every reachable state. */
  lemma RunsAreSafe(states: seq<State>, steps: seq<Step>, n: nat, t: nat)
    requires IsRun(states, steps) && n <= |steps| && t < |states[n].threads| && !states[n].threads[t].pc.Idle?
    ensures Enabled(states[n], Run(t))
  {
    hide Inv, Enabled;
    var x := RunKeeps(states, steps, n);
    NoFault(states[n], x, t);
  }
}
