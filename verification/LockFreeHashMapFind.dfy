/**
  The answers of the lock-free hash map: the search of `get` on one state of the list, and the
  map used by one thread.

  `get` tests the mark of the node before the one it returns.  That is the right answer exactly
  when this node and its predecessor are both marked or both unmarked, as they are whenever a
  single thread uses the map.
*/
module LockFreeHashMapFind {
  import opened Arithmetic
  import opened Sequences
  import opened SplitOrder
  import opened LockFreeHashMap
  import opened LockFreeHashMapProof
  import opened LockFreeHashMapSteps

  function MapLookup(m: map<Key, Value>, k: Key): Option<Value> { if k in m then Some(m[k]) else None }

  /** What `get` returns on a list: the value of the key's node, unless the node before it is marked. */
  ghost predicate Answers(heap: seq<Node>, c: seq<nat>, k: Key, r: Option<Value>)
    requires ChainOk(heap, c)
  {
    && (forall j :: 0 < j < |c| && heap[c[j]].HasKey(k) ==>
          r == if heap[c[j - 1]].mark then None else Some(heap[c[j]].item.value))
    && ((forall j :: 0 < j < |c| ==> !heap[c[j]].HasKey(k)) ==> r == None)
  }

  /** The node of the key, if linked, and the node before it are both marked or both unmarked. */
  ghost predicate MarksAgree(heap: seq<Node>, c: seq<nat>, k: Key)
    requires ChainOk(heap, c)
  {
    forall j :: 0 < j < |c| && heap[c[j]].HasKey(k) ==> (heap[c[j - 1]].mark <==> heap[c[j]].mark)
  }

  /** A node from which a search for `k` may start: a sentinel of the list that precedes the key. */
  ghost predicate StartsFor(s: State, x: Aux, head: int, k: Key)
    requires s.cfg.width >= 3
  {
    IsNode(s, head) && head in x.chain && s.heap[head].item.Sentinel? && s.heap[head].hash < OrdKey(s.cfg, k)
  }

  lemma StartOfWalk(s: State, x: Aux, head: int, k: Key) returns (i: nat)
    requires ListOk(s, x) && StartsFor(s, x, head, k)
    ensures i + 1 < |x.chain| && x.chain[i] == head
  {
    assert NodeOk(s.cfg, head, s.heap[head]) && OrdKey(s.cfg, k) < MaxKey(s.cfg.width) by {
      KeyShape(s.cfg.width, s.cfg.hash(k));
    }
    i :| 0 <= i < |x.chain| && x.chain[i] == head;
  }

  /** The sentinel that a filled slot points at precedes every key of its bucket. */
  lemma SlotStarts(s: State, x: Aux, k: Key, bits: nat)
    requires ListOk(s, x) && 1 <= bits <= s.bits && Low(s.cfg.hash(k), bits) in s.slots
    ensures StartsFor(s, x, s.slots[Low(s.cfg.hash(k), bits)], k)
  {
    var b := Low(s.cfg.hash(k), bits);
    assert SlotOk(s.cfg, s.heap, x.published, b, s.slots[b]);
    LowOfSmall(s.cfg.hash(k), bits);
    SplitOrderInterval(s.cfg.width, bits, s.cfg.hash(k), b);
  }

  /** Node `n` is at position `i + 1` of the list, and no node before it has key `k`. */
  ghost predicate Passed(heap: seq<Node>, c: seq<nat>, i: nat, n: int, k: Key) {
    i + 1 < |c| && c[i + 1] == n && forall j :: 0 <= j <= i && c[j] < |heap| ==> !heap[c[j]].HasKey(k)
  }

  /** What the loop of `get` uses of two neighbours. */
  lemma Neighbours(s: State, x: Aux, i: nat, k: Key)
    requires ListOk(s, x) && i + 1 < |x.chain|
    ensures s.cfg.width >= 3 && IsNode(s, x.chain[i]) && IsNode(s, x.chain[i + 1])
    ensures s.heap[x.chain[i]].next == x.chain[i + 1]
    ensures var n := s.heap[x.chain[i + 1]];
            && (n.hash == OrdKey(s.cfg, k) ==> n.item.Entry?)
            && (n.HasKey(k) ==> n.hash == OrdKey(s.cfg, k))
            && (n.hash <= OrdKey(s.cfg, k) ==> i + 2 < |x.chain|)
  {
    KeyShape(s.cfg.width, s.cfg.hash(k));
    assert NodeOk(s.cfg, x.chain[i + 1], s.heap[x.chain[i + 1]]);
  }

  /** The search loop of `get`, from a sentinel that precedes the key. */
  method Get(s: State, ghost x: Aux, head: int, k: Key) returns (r: Option<Value>)
    requires ListOk(s, x) && StartsFor(s, x, head, k)
    ensures Answers(s.heap, x.chain, k, r)
  {
    ghost var c := x.chain;
    ghost var i := StartOfWalk(s, x, head, k);
    NothingBefore(s, x, k, i);
    var h := OrdKey(s.cfg, k);
    hide ListOk, Answers, ChainOk, OrdKey;
    Neighbours(s, x, i, k);
    var pred := head;
    var cur, mark := s.heap[pred].next, s.heap[pred].mark;
    while s.heap[cur].hash < h || (s.heap[cur].hash == h && s.heap[cur].item.key != k)
      invariant i + 1 < |c| && c[i] == pred && IsNode(s, pred) && IsNode(s, cur) && mark == s.heap[pred].mark
      invariant Passed(s.heap, c, i, cur, k)
      invariant s.heap[cur].hash == h ==> s.heap[cur].item.Entry?
      decreases |c| - i
    {
      Neighbours(s, x, i, k);
      Neighbours(s, x, i + 1, k);
      mark := s.heap[cur].mark;
      pred, cur := cur, s.heap[cur].next;
      i := i + 1;
    }
    Neighbours(s, x, i, k);
    if s.heap[cur].hash != h || s.heap[cur].item.key != k || mark {
      r := None;
    } else {
      r := Some(s.heap[cur].item.value);
    }
    AnswerIs(s, x, k, i, r);
  }

  /** Where the loop ends, the node at hand decides the answer. */
  lemma AnswerIs(s: State, x: Aux, k: Key, i: nat, r: Option<Value>)
    requires ListOk(s, x) && i + 1 < |x.chain| && Passed(s.heap, x.chain, i, x.chain[i + 1], k)
    requires var n := s.heap[x.chain[i + 1]];
             && (n.hash > OrdKey(s.cfg, k) || n.HasKey(k))
             && r == if n.HasKey(k) && !s.heap[x.chain[i]].mark then Some(n.item.value) else None
    ensures Answers(s.heap, x.chain, k, r)
  {
    OnlyHere(s, x, k, i);
  }

  lemma NothingBefore(s: State, x: Aux, k: Key, i: nat)
    requires ListOk(s, x) && i + 1 < |x.chain| && s.heap[x.chain[i]].hash < OrdKey(s.cfg, k)
    ensures forall j :: 0 <= j <= i ==> !s.heap[x.chain[j]].HasKey(k)
    ensures s.heap[x.chain[i + 1]].hash == OrdKey(s.cfg, k) ==> s.heap[x.chain[i + 1]].item.Entry?
  {
    KeyShape(s.cfg.width, s.cfg.hash(k));
    assert NodeOk(s.cfg, x.chain[i + 1], s.heap[x.chain[i + 1]]);
    forall j | 0 <= j <= i ensures !s.heap[x.chain[j]].HasKey(k) {
      assert NodeOk(s.cfg, x.chain[j], s.heap[x.chain[j]]);
      assert j < i ==> Before(s.heap[x.chain[j]], s.heap[x.chain[i]]);
    }
  }

  /** Where the loop stops, the key is found there or nowhere. */
  lemma OnlyHere(s: State, x: Aux, k: Key, i: nat)
    requires ListOk(s, x) && i + 1 < |x.chain|
    requires var cur := s.heap[x.chain[i + 1]]; cur.hash > OrdKey(s.cfg, k) || cur.HasKey(k)
    ensures forall j :: i + 1 < j < |x.chain| ==> !s.heap[x.chain[j]].HasKey(k)
  {
    forall j | i + 1 < j < |x.chain| ensures !s.heap[x.chain[j]].HasKey(k) {
      assert NodeOk(s.cfg, x.chain[j], s.heap[x.chain[j]]) && NodeOk(s.cfg, x.chain[i + 1], s.heap[x.chain[i + 1]]);
      assert Before(s.heap[x.chain[i + 1]], s.heap[x.chain[j]]);
    }
  }

  lemma NoTwin(s: State, x: Aux, k: Key, i: nat, j: nat)
    requires ListOk(s, x) && i < |x.chain| && j < |x.chain|
    requires s.heap[x.chain[i]].HasKey(k) && s.heap[x.chain[j]].HasKey(k)
    ensures i == j
  {
    assert NodeOk(s.cfg, x.chain[i], s.heap[x.chain[i]]) && NodeOk(s.cfg, x.chain[j], s.heap[x.chain[j]]);
    assert i < j ==> Before(s.heap[x.chain[i]], s.heap[x.chain[j]]);
    assert j < i ==> Before(s.heap[x.chain[j]], s.heap[x.chain[i]]);
  }

  lemma LookupAt(s: State, x: Aux, k: Key, j: nat)
    requires ListOk(s, x) && j < |x.chain| && s.heap[x.chain[j]].HasKey(k)
    ensures MapLookup(x.model, k) == if s.heap[x.chain[j]].mark then None else Some(s.heap[x.chain[j]].item.value)
  {
    assert Holds(x.model, s.heap[x.chain[j]]);
    if k in x.model {
      assert Somewhere(s.heap, x.chain, k);
      var i :| 0 <= i < |x.chain| && x.chain[i] < |s.heap| && s.heap[x.chain[i]].LiveKey(k);
      NoTwin(s, x, k, i, j);
    }
  }

  /** `get` answers as the map does if and only if the two marks agree. */
  lemma GetIsRightIff(s: State, x: Aux, k: Key, r: Option<Value>)
    requires ListOk(s, x) && Answers(s.heap, x.chain, k, r)
    ensures r == MapLookup(x.model, k) <==> MarksAgree(s.heap, x.chain, k)
  {
    var c := x.chain;
    assert NodeOk(s.cfg, c[0], s.heap[c[0]]);
    if j :| 0 < j < |c| && s.heap[c[j]].HasKey(k) {
      forall i | 0 <= i < |c| && s.heap[c[i]].HasKey(k) ensures i == j {
        NoTwin(s, x, k, i, j);
      }
      LookupAt(s, x, k, j);
      assert r == if s.heap[c[j - 1]].mark then None else Some(s.heap[c[j]].item.value);
      assert MarksAgree(s.heap, c, k) <==> (s.heap[c[j - 1]].mark <==> s.heap[c[j]].mark);
    } else {
      assert k in x.model ==> Somewhere(s.heap, c, k);
    }
  }

  /** No node that is linked is marked. */
  ghost predicate Clean(s: State) {
    forall c: seq<nat> :: ChainOk(s.heap, c) ==> NoneMarked(s.heap, c)
  }

  ghost predicate NoneMarked(heap: seq<Node>, c: seq<nat>) {
    forall i :: 0 <= i < |c| && c[i] < |heap| ==> !heap[c[i]].mark
  }

  // ---------------------------------------------------------------- one thread

  /** The links of a list determine the chain. */
  lemma ChainUnique(heap: seq<Node>, c: seq<nat>, d: seq<nat>)
    requires ChainOk(heap, c) && ChainOk(heap, d)
    ensures c == d
  {
    var m := if |c| <= |d| then |c| else |d|;
    SamePrefix(heap, c, d, m);
    assert c[m - 1] == c[..m][m - 1] == d[..m][m - 1] == d[m - 1];
  }

  lemma {:induction false} SamePrefix(heap: seq<Node>, c: seq<nat>, d: seq<nat>, n: nat)
    requires ChainOk(heap, c) && ChainOk(heap, d) && n <= |c| && n <= |d|
    ensures c[..n] == d[..n]
  {
    if n > 1 {
      SamePrefix(heap, c, d, n - 1);
      assert c[n - 2] == c[..n - 1][n - 2] == d[..n - 1][n - 2] == d[n - 2];
      assert heap[c[n - 2]].next == c[n - 1] && heap[d[n - 2]].next == d[n - 1];
    }
  }

  ghost predicate NextTo(c: seq<nat>, p: int, q: int) { exists i :: 0 <= i < |c| - 1 && c[i] == p && c[i + 1] == q }

  /** A thread that runs alone stands at linked neighbours. */
  ghost predicate StandsOk(heap: seq<Node>, c: seq<nat>, pc: Pc) {
    match pc
    case LoadFirst(pred) => pred != LAST && pred in c
    case LoadNext(pred, cur) => NextTo(c, pred, cur)
    case Found(pred, cur) => NextTo(c, pred, cur)
    case LinkNode(pred, cur) => NextTo(c, pred, cur)
    case LoadVictim(pred, cur) => NextTo(c, pred, cur)
    case MarkVictim(pred, cur, succ) => NextTo(c, pred, cur) && 0 <= cur < |heap| && heap[cur].next == succ
    case UnlinkVictim(pred, cur, succ) => NextTo(c, pred, cur) && 0 <= cur < |heap| && heap[cur].next == succ
    case Unlink(_, _, _) => false
    case _ => true
  }

  /** Only the victim between its marking and its unlinking is marked and linked. */
  ghost predicate OnlyVictim(heap: seq<Node>, c: seq<nat>, th: Thread) {
    forall i :: 0 <= i < |c| && c[i] < |heap| && heap[c[i]].mark ==>
      th.Busy? && th.pc.UnlinkVictim? && c[i] == th.pc.cur
  }

  ghost predicate Solo(s: State, c: seq<nat>) {
    && |s.threads| == 1 && ChainOk(s.heap, c)
    && OnlyVictim(s.heap, c, s.threads[0])
    && (s.threads[0].Busy? ==> StandsOk(s.heap, c, s.threads[0].pc))
  }

  /** The list stays, or only grows by nodes that are not linked yet. */
  lemma SameChain(heap: seq<Node>, heap': seq<Node>, c: seq<nat>)
    requires ChainOk(heap, c) && |heap| <= |heap'| && forall i :: 0 <= i < |c| ==> heap'[c[i]] == heap[c[i]]
    ensures ChainOk(heap', c)
  {
    forall i, j | 0 <= i < j < |c| ensures Before(heap'[c[i]], heap'[c[j]]) {
      assert Before(heap[c[i]], heap[c[j]]);
    }
  }

  lemma NodeBehind(heap: seq<Node>, c: seq<nat>, n: int)
    requires ChainOk(heap, c) && n in c && n != LAST
    ensures 0 <= n < |heap| && NextTo(c, n, heap[n].next)
  {
    var i :| 0 <= i < |c| && c[i] == n;
    assert heap[c[i]].next == c[i + 1];
  }

  lemma NextToIn(heap: seq<Node>, c: seq<nat>, p: int, q: int)
    requires ChainOk(heap, c) && NextTo(c, p, q)
    ensures p in c && q in c && p != LAST && p != q && 0 <= p < |heap| && 0 <= q < |heap| && heap[p].next == q
  {
  }

  /** Program points at which a thread holds no pointer that it will write through. */
  predicate Light(pc: Pc) {
    || pc.LoadSlot? || pc.StartWalk? || pc.CheckSlot? || pc.StoreSlot? || pc.IncSize? || pc.TestLoad? || pc.ExtendLoad?
    || pc.ExtendCas? || pc.DecSize? || pc.Return? || Gets(pc)
  }

  predicate Gets(pc: Pc) { pc.GetHead? || pc.GetFirst? || pc.GetWalk? || pc.GetReturn? }

  predicate LightThread(th: Thread) { th.Busy? ==> Light(th.pc) }

  /** Heap cells stay; new ones may be added. */
  predicate Grows(heap: seq<Node>, heap': seq<Node>) {
    |heap| <= |heap'| && forall n :: 0 <= n < |heap| ==> heap'[n] == heap[n]
  }

  lemma StartIsLight(s: State, a: Step)
    requires Enabled(s, a) && a.Start?
    ensures |Next(s, a).threads| == |s.threads| && Grows(s.heap, Next(s, a).heap)
    ensures LightThread(Next(s, a).threads[a.t])
  {
  }

  lemma CountersAreLight(s: State, t: nat)
    requires Enabled(s, Run(t))
    requires var pc := s.threads[t].pc;
             pc.IncSize? || pc.TestLoad? || pc.ExtendLoad? || pc.ExtendCas? || pc.DecSize? || pc.Return?
    ensures var s' := Next(s, Run(t));
            |s'.threads| == |s.threads| && Grows(s.heap, s'.heap) && LightThread(s'.threads[t])
  {
    hide Shr;
  }

  lemma GetsAreLight(s: State, t: nat)
    requires Enabled(s, Run(t)) && Gets(s.threads[t].pc)
    ensures var s' := Next(s, Run(t));
            && |s'.threads| == |s.threads| && s'.heap == s.heap && LightThread(s'.threads[t])
            && EventOf(s, Run(t)) == Silent
  {
    hide StartIndex, TargetHash;
  }

  lemma SlotsAreLight(s: State, t: nat)
    requires Enabled(s, Run(t))
    requires var pc := s.threads[t].pc; pc.LoadSlot? || pc.CheckSlot? || pc.StoreSlot?
    ensures var s' := Next(s, Run(t));
            |s'.threads| == |s.threads| && Grows(s.heap, s'.heap) && LightThread(s'.threads[t])
  {
    hide StartIndex, TargetHash;
  }

  lemma LightIsSolo(s: State, s': State, c: seq<nat>)
    requires Solo(s, c) && LightThread(s.threads[0])
    requires |s'.threads| == 1 && Grows(s.heap, s'.heap) && LightThread(s'.threads[0])
    ensures Solo(s', c)
  {
    SameChain(s.heap, s'.heap, c);
  }

  lemma SoloStart(s: State, x: Aux, t: nat)
    requires ListOk(s, x) && Enabled(s, Run(t)) && Solo(s, x.chain) && s.threads[t].pc.StartWalk?
    ensures Solo(Next(s, Run(t)), x.chain)
  {
    var i := StartIndex(s.cfg, s.threads[t]);
    assert SlotOk(s.cfg, s.heap, x.published, i, s.slots[i]) && NodeOk(s.cfg, s.slots[i], s.heap[s.slots[i]]);
    assert s.slots[i] in x.chain;
    hide ListOk, ChainOk, StartIndex;
  }

  lemma SoloReads(s: State, t: nat)
    requires Enabled(s, Run(t)) && (s.threads[t].pc.LoadFirst? || s.threads[t].pc.LoadVictim?)
    ensures var s', pc := Next(s, Run(t)), s.threads[t].pc;
            && |s'.threads| == |s.threads| && s'.heap == s.heap && s'.threads[t].Busy?
            && (pc.LoadFirst? ==> s'.threads[t].pc == LoadNext(pc.pred, s.heap[pc.pred].next))
            && (pc.LoadVictim? ==> s'.threads[t].pc == MarkVictim(pc.pred, pc.cur, s.heap[pc.cur].next))
  {
  }

  /** Reading along the list. */
  lemma SoloWalk(s: State, x: Aux, t: nat)
    requires Enabled(s, Run(t)) && Solo(s, x.chain)
    requires s.threads[t].pc.LoadFirst? || s.threads[t].pc.LoadVictim?
    ensures Solo(Next(s, Run(t)), x.chain)
  {
    var pc := s.threads[t].pc;
    assert t == 0 && ChainOk(s.heap, x.chain);
    SoloReads(s, t);
    hide Enabled, Next, ChainOk;
    if pc.LoadFirst? {
      NodeBehind(s.heap, x.chain, pc.pred);
    } else {
      NextToIn(s.heap, x.chain, pc.pred, pc.cur);
    }
    hide NextTo;
    SoloMoves(s, Next(s, Run(t)), x.chain);
  }

  /** The thread moves on and the linked cells stay. */
  lemma SoloMoves(s: State, s': State, c: seq<nat>)
    requires Solo(s, c) && s.threads[0].Busy? && !s.threads[0].pc.UnlinkVictim? && |s'.threads| == 1
    requires |s.heap| <= |s'.heap| && forall i :: 0 <= i < |c| ==> s'.heap[c[i]] == s.heap[c[i]]
    requires s'.threads[0].Busy? ==> StandsOk(s'.heap, c, s'.threads[0].pc)
    ensures Solo(s', c)
  {
    SameChain(s.heap, s'.heap, c);
  }

  lemma SoloLoadNext(s: State, x: Aux, t: nat)
    requires ListOk(s, x) && Enabled(s, Run(t)) && Solo(s, x.chain) && s.threads[t].pc.LoadNext?
    requires PendingOk(s, s.threads[t])
    ensures Solo(Next(s, Run(t)), x.chain)
  {
    var th, cur := s.threads[t], s.threads[t].pc.cur;
    NextToIn(s.heap, x.chain, th.pc.pred, cur);
    var i :| 0 <= i < |x.chain| && x.chain[i] == cur;
    assert !s.heap[cur].mark;
    LastStops(s, x, th);
    if cur != LAST {
      NodeBehind(s.heap, x.chain, cur);
    }
    assert Next(s, Run(t)) == DoLoadNext(s, t, th.pc.pred, cur);
    hide ListOk, Stops, ChainOk, NextTo, Enabled, Next;
    SoloMoves(s, DoLoadNext(s, t, th.pc.pred, cur), x.chain);
  }

  lemma LastStops(s: State, x: Aux, th: Thread)
    requires ListOk(s, x) && th.Busy? && PendingOk(s, th)
    ensures Stops(s.cfg, th, s.heap[LAST])
  {
    assert NodeOk(s.cfg, LAST, s.heap[LAST]);
    KeyShape(s.cfg.width, s.cfg.hash(th.op.key));
    if th.pending != [] {
      KeyShape(s.cfg.width, Top(th));
    }
  }

  /** Preparing the private node, or deciding that there is nothing to do. */
  lemma SoloFound(s: State, x: Aux, t: nat, seen: Seen)
    requires ListOk(s, x) && Enabled(s, Run(t)) && Solo(s, x.chain) && s.threads[t].pc.Found?
    requires PcOk(s, x, s.threads[t], seen)
    ensures Solo(Next(s, Run(t)), x.chain)
  {
    var th := s.threads[t];
    assert t == 0 && th.Busy?;
    ListBounds(s, x);
    ChainPublished(s, x);
    hide ListOk, PcOk, ChainOk, NextTo, NeedsNode;
    FoundPrivate(s, x, th, seen);
    FoundWrites(s, t);
    hide Enabled, Next;
    SoloMoves(s, Next(s, Run(t)), x.chain);
  }

  lemma FoundPrivate(s: State, x: Aux, th: Thread, seen: Seen)
    requires s.cfg.width >= 3 && th.Busy? && th.pc.Found? && PcOk(s, x, th, seen)
    ensures NeedsNode(th) ==> th.node !in x.published
  {
    hide PredOk, CurOk;
  }

  lemma FoundWrites(s: State, t: nat)
    requires Enabled(s, Run(t)) && s.threads[t].pc.Found?
    ensures var s', th := Next(s, Run(t)), s.threads[t];
            && |s'.threads| == |s.threads| && |s'.heap| == |s.heap|
            && (forall n :: 0 <= n < |s.heap| && !(NeedsNode(th) && n == th.node) ==> s'.heap[n] == s.heap[n])
            && s'.threads[t].Busy?
            && var pc := s'.threads[t].pc;
                || pc.CheckSlot? || pc.Return? || pc == LinkNode(th.pc.pred, th.pc.cur)
                || pc == LoadVictim(th.pc.pred, th.pc.cur)
  {
    hide Matches;
  }

  lemma ChainPublished(s: State, x: Aux)
    requires ListOk(s, x)
    ensures forall i :: 0 <= i < |x.chain| ==> x.chain[i] in x.published && x.chain[i] < |s.heap|
  {
  }

  lemma Unmarked(s: State, c: seq<nat>, n: int)
    requires Solo(s, c) && n in c && (s.threads[0].Busy? && s.threads[0].pc.UnlinkVictim? ==> n != s.threads[0].pc.cur)
    ensures 0 <= n < |s.heap| && !s.heap[n].mark
  {
    var i :| 0 <= i < |c| && c[i] == n;
  }

  /** A list with a new node behind position `i` and no marks. */
  lemma LinkedSolo(s: State, c: seq<nat>, i: nat, own: nat, s': State)
    requires Solo(s, c) && s.threads[0].Busy? && !s.threads[0].pc.UnlinkVictim?
    requires |s'.threads| == 1 && LightThread(s'.threads[0])
    requires i + 1 < |c| && own < |s.heap| && Fits(s.heap, c, c[i], c[i + 1], own) && own !in c
    requires s.heap[own].next == c[i + 1] && !s.heap[own].mark
    requires s'.heap == s.heap[c[i] := s.heap[c[i]].(next := own)]
    ensures Solo(s', c[..i + 1] + [own] + c[i + 1..])
  {
    var c' := c[..i + 1] + [own] + c[i + 1..];
    LinkIntoChain(s.heap, c, i, own, s'.heap, c');
    InsertedAt(c, i, own);
    hide Fits;
  }

  /** A list without its node at position `i + 1`, the only marked one. */
  lemma UnlinkedSolo(s: State, c: seq<nat>, i: nat, s': State)
    requires Solo(s, c) && |s'.threads| == 1 && LightThread(s'.threads[0])
    requires s.threads[0].Busy? && s.threads[0].pc.UnlinkVictim? && i + 2 < |c| && c[i + 1] == s.threads[0].pc.cur
    requires s'.heap == s.heap[c[i] := s.heap[c[i]].(next := c[i + 2])]
    ensures Solo(s', c[..i + 1] + c[i + 2..])
  {
    var c' := c[..i + 1] + c[i + 2..];
    UnlinkFromChain(s.heap, c, i, s'.heap, c');
    WithoutNode(s.heap, c, i);
    assert forall j :: 0 <= j < |c'| ==> !s.heap[c'[j]].mark;
    assert s'.heap[c[i]].mark == s.heap[c[i]].mark;
    hide ChainOk;
  }

  lemma WithoutNode(heap: seq<Node>, c: seq<nat>, i: nat)
    requires ChainOk(heap, c) && i + 2 < |c|
    ensures var c' := c[..i + 1] + c[i + 2..];
            forall j :: 0 <= j < |c'| ==> c'[j] == c[if j <= i then j else j + 1] && c'[j] != c[i + 1] && c'[j] < |heap|
  {
    hide Before;
  }

  lemma LinkPlace(s: State, x: Aux, seen: Seen) returns (i: nat, own: nat)
    requires ListOk(s, x) && Solo(s, x.chain) && s.threads[0].Busy? && s.threads[0].pc.LinkNode?
    requires PcOk(s, x, s.threads[0], seen)
    ensures var th, c := s.threads[0], x.chain;
            && i + 1 < |c| && c[i] == th.pc.pred && c[i + 1] == th.pc.cur && own == th.node && own < |s.heap|
            && Fits(s.heap, c, c[i], c[i + 1], own) && own !in c
            && s.heap[own].next == c[i + 1] && !s.heap[own].mark
            && IsNode(s, th.pc.pred) && CasSucceeds(s, th.pc.pred, th.pc.cur)
  {
    var th, c := s.threads[0], x.chain;
    NextToIn(s.heap, c, th.pc.pred, th.pc.cur);
    Unmarked(s, c, th.pc.pred);
    ChainPublished(s, x);
    LinkFits(s, x, th, seen);
    own := th.node;
    i :| 0 <= i < |c| - 1 && c[i] == th.pc.pred && c[i + 1] == th.pc.cur;
  }

  lemma LinkWrites(s: State, t: nat)
    requires Enabled(s, Run(t)) && s.threads[t].pc.LinkNode?
    requires CasSucceeds(s, s.threads[t].pc.pred, s.threads[t].pc.cur)
    ensures var s', pred := Next(s, Run(t)), s.threads[t].pc.pred;
            && s'.heap == s.heap[pred := s.heap[pred].(next := s.threads[t].node)]
            && |s'.threads| == |s.threads| && LightThread(s'.threads[t])
  {
  }

  /** Alone, the linking CAS succeeds. */
  lemma SoloLink(s: State, x: Aux, t: nat, seen: Seen) returns (c': seq<nat>)
    requires ListOk(s, x) && Enabled(s, Run(t)) && Solo(s, x.chain) && s.threads[t].pc.LinkNode?
    requires PcOk(s, x, s.threads[t], seen)
    ensures Solo(Next(s, Run(t)), c')
  {
    assert t == 0 && s.threads[0].Busy?;
    hide *;
    var i, own := LinkPlace(s, x, seen);
    LinkWrites(s, t);
    LinkedSolo(s, x.chain, i, own, Next(s, Run(t)));
    c' := x.chain[..i + 1] + [own] + x.chain[i + 1..];
  }

  lemma MarkWrites(s: State, t: nat)
    requires Enabled(s, Run(t)) && s.threads[t].pc.MarkVictim?
    requires CasSucceeds(s, s.threads[t].pc.cur, s.threads[t].pc.succ)
    ensures var s', pc := Next(s, Run(t)), s.threads[t].pc;
            && s'.heap == s.heap[pc.cur := s.heap[pc.cur].(mark := true)]
            && |s'.threads| == |s.threads| && s'.threads[t].Busy?
            && s'.threads[t].pc == UnlinkVictim(pc.pred, pc.cur, pc.succ)
  {
  }

  lemma MarkedSolo(s: State, x: Aux, s': State, seen: Seen)
    requires ListOk(s, x) && Solo(s, x.chain) && s.threads[0].Busy? && s.threads[0].pc.MarkVictim?
    requires PcOk(s, x, s.threads[0], seen)
    requires var pc := s.threads[0].pc;
             && 0 <= pc.cur < |s.heap| && s'.heap == s.heap[pc.cur := s.heap[pc.cur].(mark := true)]
             && |s'.threads| == 1 && s'.threads[0].Busy? && s'.threads[0].pc == UnlinkVictim(pc.pred, pc.cur, pc.succ)
    ensures Solo(s', x.chain)
  {
    MarkInChain(s.cfg, s.heap, x.chain, x.published, s.threads[0].pc.cur, s'.heap);
    hide ListOk, PcOk, ChainOk, NextTo;
  }

  lemma SoloMark(s: State, x: Aux, t: nat, seen: Seen)
    requires ListOk(s, x) && Enabled(s, Run(t)) && Solo(s, x.chain) && s.threads[t].pc.MarkVictim?
    requires PcOk(s, x, s.threads[t], seen)
    ensures Solo(Next(s, Run(t)), x.chain)
  {
    var pc := s.threads[0].pc;
    assert t == 0 && s.threads[0].Busy?;
    NextToIn(s.heap, x.chain, pc.pred, pc.cur);
    Unmarked(s, x.chain, pc.cur);
    assert CasSucceeds(s, pc.cur, pc.succ);
    hide ListOk, PcOk, Next, Enabled, Solo, CasSucceeds;
    MarkWrites(s, t);
    MarkedSolo(s, x, Next(s, Run(t)), seen);
  }

  lemma UnlinkWrites(s: State, t: nat)
    requires Enabled(s, Run(t)) && s.threads[t].pc.UnlinkVictim?
    requires CasSucceeds(s, s.threads[t].pc.pred, s.threads[t].pc.cur)
    ensures var s', pc := Next(s, Run(t)), s.threads[t].pc;
            && s'.heap == s.heap[pc.pred := s.heap[pc.pred].(next := pc.succ)]
            && |s'.threads| == |s.threads| && LightThread(s'.threads[t])
  {
  }

  lemma VictimPlace(s: State, x: Aux, seen: Seen) returns (i: nat)
    requires ListOk(s, x) && Solo(s, x.chain) && s.threads[0].Busy? && s.threads[0].pc.UnlinkVictim?
    requires PcOk(s, x, s.threads[0], seen)
    ensures var pc, c := s.threads[0].pc, x.chain;
            && i + 2 < |c| && c[i] == pc.pred && c[i + 1] == pc.cur && c[i + 2] == pc.succ
            && IsNode(s, pc.pred) && CasSucceeds(s, pc.pred, pc.cur)
  {
    var pc, c := s.threads[0].pc, x.chain;
    NextToIn(s.heap, c, pc.pred, pc.cur);
    Unmarked(s, c, pc.pred);
    i :| 0 <= i < |c| - 1 && c[i] == pc.pred && c[i + 1] == pc.cur;
    assert NodeOk(s.cfg, LAST, s.heap[LAST]);
    assert c[i + 1] != LAST;
    assert s.heap[c[i + 1]].next == c[i + 2];
  }

  /** Alone, the unlinking CAS succeeds. */
  lemma SoloUnlink(s: State, x: Aux, t: nat, seen: Seen) returns (c': seq<nat>)
    requires ListOk(s, x) && Enabled(s, Run(t)) && Solo(s, x.chain) && s.threads[t].pc.UnlinkVictim?
    requires PcOk(s, x, s.threads[t], seen)
    ensures Solo(Next(s, Run(t)), c')
  {
    assert t == 0 && s.threads[0].Busy?;
    hide ListOk, PcOk, Next, Enabled, Solo, CasSucceeds;
    var i := VictimPlace(s, x, seen);
    UnlinkWrites(s, t);
    UnlinkedSolo(s, x.chain, i, Next(s, Run(t)));
    c' := x.chain[..i + 1] + x.chain[i + 2..];
  }

  lemma SoloStep(s: State, x: Aux, a: Step) returns (c': seq<nat>)
    requires Inv(s, x) && Enabled(s, a) && Solo(s, x.chain)
    ensures Solo(Next(s, a), c')
  {
    var t, c := a.t, x.chain;
    c' := c;
    if a.Start? {
      StartIsLight(s, a);
      LightIsSolo(s, Next(s, a), c);
    } else {
      assert t == 0 && ThreadOk(s, x, s.threads[t], x.seen[t]);
      var th := s.threads[t];
      assert PendingOk(s, th) && PcOk(s, x, th, x.seen[t]) && ListOk(s, x);
      hide Inv, ThreadOk, ListOk, PendingOk, PcOk, Next, Enabled, Solo, StandsOk;
      SoloNeverHelps(s, c, t);
      match th.pc
      case StartWalk => SoloStart(s, x, t);
      case LoadFirst(_) => SoloWalk(s, x, t);
      case LoadVictim(_, _) => SoloWalk(s, x, t);
      case LoadNext(_, _) => SoloLoadNext(s, x, t);
      case Found(_, _) => SoloFound(s, x, t, x.seen[t]);
      case LinkNode(_, _) => c' := SoloLink(s, x, t, x.seen[t]);
      case MarkVictim(_, _, _) => SoloMark(s, x, t, x.seen[t]);
      case UnlinkVictim(_, _, _) => c' := SoloUnlink(s, x, t, x.seen[t]);
      case Unlink(_, _, _) =>
      case LoadSlot => SoloSlots(s, c, t);
      case CheckSlot(_) => SoloSlots(s, c, t);
      case StoreSlot(_) => SoloSlots(s, c, t);
      case GetHead => SoloGets(s, c, t);
      case GetFirst(_) => SoloGets(s, c, t);
      case GetWalk(_, _) => SoloGets(s, c, t);
      case GetReturn(_) => SoloGets(s, c, t);
      case _ => SoloCounters(s, c, t);
    }
  }

  lemma SoloNeverHelps(s: State, c: seq<nat>, t: nat)
    requires Solo(s, c) && t < |s.threads| && s.threads[t].Busy?
    ensures !s.threads[t].pc.Unlink?
  {
  }

  lemma SoloSlots(s: State, c: seq<nat>, t: nat)
    requires Solo(s, c) && Enabled(s, Run(t))
    requires var pc := s.threads[t].pc; pc.LoadSlot? || pc.CheckSlot? || pc.StoreSlot?
    ensures Solo(Next(s, Run(t)), c)
  {
    SlotsAreLight(s, t);
    LightIsSolo(s, Next(s, Run(t)), c);
  }

  lemma SoloGets(s: State, c: seq<nat>, t: nat)
    requires Solo(s, c) && Enabled(s, Run(t)) && Gets(s.threads[t].pc)
    ensures Solo(Next(s, Run(t)), c)
  {
    GetsAreLight(s, t);
    LightIsSolo(s, Next(s, Run(t)), c);
  }

  lemma SoloCounters(s: State, c: seq<nat>, t: nat)
    requires Solo(s, c) && Enabled(s, Run(t))
    requires var pc := s.threads[t].pc;
             pc.IncSize? || pc.TestLoad? || pc.ExtendLoad? || pc.ExtendCas? || pc.DecSize? || pc.Return?
    ensures Solo(Next(s, Run(t)), c)
  {
    CountersAreLight(s, t);
    LightIsSolo(s, Next(s, Run(t)), c);
  }

  lemma SoloChain(s: State, x: Aux, c: seq<nat>)
    requires Inv(s, x) && Solo(s, c)
    ensures Solo(s, x.chain)
  {
    ChainUnique(s.heap, c, x.chain);
  }

  lemma InitSolo(s: State, x: Aux)
    requires Init(s) && |s.threads| == 1 && Inv(s, x)
    ensures Solo(s, x.chain) && s.cfg.width >= 3 && LooksOk(s, x, s.threads[0])
  {
  }

  // ---------------------------------------------------------------- the answers of one thread

  ghost predicate PassedBy(s: State, x: Aux, n: int, k: Key) { exists i: nat :: Passed(s.heap, x.chain, i, n, k) }

  /** A thread that runs alone has searched all nodes before the one in hand, and finds what the map holds. */
  ghost predicate LooksOk(s: State, x: Aux, th: Thread)
    requires s.cfg.width >= 3
  {
    th.Busy? ==>
      && (th.pc.GetFirst? ==> StartsFor(s, x, th.pc.pred, th.op.key))
      && (th.pc.GetWalk? ==> !th.pc.mark && PassedBy(s, x, th.pc.cur, th.op.key))
      && (th.pc.GetReturn? ==> th.pc.found == MapLookup(x.model, th.op.key))
  }

  lemma LookHead(s: State, x: Aux)
    requires ListOk(s, x) && Enabled(s, Run(0)) && Solo(s, x.chain) && s.threads[0].pc.GetHead?
    requires s.threads[0].pending == [] && PendingOk(s, s.threads[0])
    ensures LooksOk(s, x, Next(s, Run(0)).threads[0])
  {
    hide ChainOk, ModelOk, HeapOk, PublishedOk;
    SlotStarts(s, x, s.threads[0].op.key, s.threads[0].bits);
  }

  lemma LookFirst(s: State, x: Aux)
    requires ListOk(s, x) && Enabled(s, Run(0)) && Solo(s, x.chain) && s.threads[0].pc.GetFirst?
    requires StartsFor(s, x, s.threads[0].pc.pred, s.threads[0].op.key)
    ensures LooksOk(s, x, Next(s, Run(0)).threads[0])
  {
    var pred, k := s.threads[0].pc.pred, s.threads[0].op.key;
    var i := StartOfWalk(s, x, pred, k);
    NothingBefore(s, x, k, i);
    Unmarked(s, x.chain, pred);
    assert s.heap[x.chain[i]].next == x.chain[i + 1];
    assert Passed(s.heap, x.chain, i, x.chain[i + 1], k);
    hide ListOk, Passed;
  }

  /** The loop passes a node without the key. */
  lemma PassNode(s: State, x: Aux, th: Thread, n: int)
    requires ListOk(s, x) && th.Busy? && th.pending == [] && PassedBy(s, x, n, th.op.key)
    requires IsNode(s, n) && GetGoesOn(s.cfg, th, s.heap[n])
    ensures PassedBy(s, x, s.heap[n].next, th.op.key)
  {
    var i: nat :| Passed(s.heap, x.chain, i, n, th.op.key);
    GetReads(s, x, th, n);
    NextNode(s, x, i + 1);
    KeyHash(s, x, n, th.op.key);
    hide ListOk;
    assert Passed(s.heap, x.chain, i + 1, s.heap[n].next, th.op.key);
  }

  lemma NextNode(s: State, x: Aux, i: nat)
    requires ListOk(s, x) && i < |x.chain| && x.chain[i] != LAST
    ensures i + 1 < |x.chain| && IsNode(s, x.chain[i]) && s.heap[x.chain[i]].next == x.chain[i + 1]
  {
  }

  /** Where the loop ends, the key is found in the node at hand or nowhere. */
  lemma EndNode(s: State, x: Aux, th: Thread, n: int)
    requires ListOk(s, x) && th.Busy? && th.pending == [] && PassedBy(s, x, n, th.op.key)
    requires IsNode(s, n) && !GetGoesOn(s.cfg, th, s.heap[n]) && !s.heap[n].mark
    ensures MapLookup(x.model, th.op.key) == if s.heap[n].HasKey(th.op.key) then Some(s.heap[n].item.value) else None
  {
    var c, k := x.chain, th.op.key;
    var i: nat :| Passed(s.heap, c, i, n, k);
    if s.heap[n].HasKey(k) {
      LookupAt(s, x, k, i + 1);
    } else {
      OnlyHere(s, x, k, i);
      assert forall j :: 0 <= j < |c| ==> !s.heap[c[j]].HasKey(k);
      assert k in x.model ==> Somewhere(s.heap, c, k);
    }
  }

  lemma InChain(s: State, x: Aux, n: int, k: Key)
    requires PassedBy(s, x, n, k)
    ensures n in x.chain
  {
    var i: nat :| Passed(s.heap, x.chain, i, n, k);
  }

  lemma LookWalk(s: State, x: Aux)
    requires ListOk(s, x) && Enabled(s, Run(0)) && Solo(s, x.chain) && s.threads[0].pc.GetWalk?
    requires s.threads[0].pending == []
    requires !s.threads[0].pc.mark && PassedBy(s, x, s.threads[0].pc.cur, s.threads[0].op.key)
    ensures LooksOk(s, x, Next(s, Run(0)).threads[0])
  {
    var th, cur := s.threads[0], s.threads[0].pc.cur;
    InChain(s, x, cur, th.op.key);
    Unmarked(s, x.chain, cur);
    KeyHash(s, x, cur, th.op.key);
    assert Next(s, Run(0)) == DoGetWalk(s, 0, cur, false);
    hide ListOk, Solo, PassedBy, ChainOk, Next, Enabled;
    if GetGoesOn(s.cfg, th, s.heap[cur]) {
      PassNode(s, x, th, cur);
    } else {
      EndNode(s, x, th, cur);
    }
  }

  lemma KeyHash(s: State, x: Aux, n: int, k: Key)
    requires ListOk(s, x) && IsNode(s, n)
    ensures s.heap[n].HasKey(k) ==> s.heap[n].hash == OrdKey(s.cfg, k)
  {
    assert NodeOk(s.cfg, n, s.heap[n]);
  }

  lemma OnlyGetsLook(s: State, t: nat)
    requires Enabled(s, Run(t)) && !Gets(s.threads[t].pc)
    ensures var th' := Next(s, Run(t)).threads[t]; th'.Busy? ==> !Gets(th'.pc) || th'.pc.GetHead?
  {
    if Simple(s.threads[t].pc) {
      SimpleDoNotLook(s, t);
    }
  }

  lemma SimpleDoNotLook(s: State, t: nat)
    requires Enabled(s, Run(t)) && !Gets(s.threads[t].pc) && Simple(s.threads[t].pc)
    ensures var th' := Next(s, Run(t)).threads[t]; th'.Busy? ==> !Gets(th'.pc) || th'.pc.GetHead?
  {
  }

  /** What `LooksOk` says depends on the list, the map and the thread. */
  lemma SameLook(s: State, s': State, x: Aux, y: Aux, th: Thread)
    requires s.cfg.width >= 3 && s'.heap == s.heap && s'.cfg == s.cfg && y.model == x.model && y.chain == x.chain
    requires LooksOk(s, x, th)
    ensures LooksOk(s', y, th)
  {
    hide Passed;
  }

  lemma LookStep(s: State, x: Aux, y: Aux, s': State)
    requires |s.threads| == 1 && s.cfg.width >= 3 && |s'.threads| == 1 && s'.cfg == s.cfg
    requires Enabled(s, Run(0)) && Gets(s.threads[0].pc) && s' == Next(s, Run(0))
    requires Inv(s, x) && Solo(s, x.chain) && LooksOk(s, x, s.threads[0])
    requires Solo(s', y.chain) && y.model == x.model
    ensures LooksOk(s', y, s'.threads[0])
  {
    var th := s.threads[0];
    GetFacts(s, x);
    GetsAreLight(s, 0);
    hide Inv, ListOk, PendingOk, StartsFor, PassedBy;
    SoloGets(s, x.chain, 0);
    SameChains(s', x.chain, y.chain);
    GetEnds(s, 0);
    hide Enabled, Solo, Next;
    if th.pc.GetHead? {
      LookHead(s, x);
    } else if th.pc.GetFirst? {
      LookFirst(s, x);
    } else if th.pc.GetWalk? {
      LookWalk(s, x);
    }
    hide LooksOk;
    SameLook(s, s', x, y, s'.threads[0]);
  }

  lemma GetFacts(s: State, x: Aux)
    requires Inv(s, x) && Enabled(s, Run(0)) && Gets(s.threads[0].pc)
    ensures ListOk(s, x) && s.cfg.width >= 3 && PendingOk(s, s.threads[0]) && s.threads[0].pending == []
  {
    assert ThreadOk(s, x, s.threads[0], x.seen[0]);
    hide ListOk, PendingOk;
  }

  lemma SameChains(s: State, c: seq<nat>, d: seq<nat>)
    requires Solo(s, c) && Solo(s, d)
    ensures c == d
  {
    ChainUnique(s.heap, c, d);
  }

  lemma GetEnds(s: State, t: nat)
    requires Enabled(s, Run(t)) && Gets(s.threads[t].pc)
    ensures s.threads[t].pc.GetReturn? ==> Next(s, Run(t)).threads[t].Idle?
  {
  }

  /**
    In every run of a single thread no marked node is linked but the victim in hand, and a search
    has passed no node with its key.
  */
  lemma {:induction false} SoloRun(states: seq<State>, steps: seq<Step>, n: nat) returns (x: Aux)
    requires IsRun(states, steps) && n <= |steps| && |states[0].threads| == 1
    ensures Inv(states[n], x) && x.model == ModelAt(states, steps, n) && Solo(states[n], x.chain)
    ensures |states[n].threads| == 1 && states[n].cfg.width >= 3 && LooksOk(states[n], x, states[n].threads[0])
  {
    x := RunKeeps(states, steps, n);
    hide Inv, Next, Enabled, Solo, LooksOk, EventOf, Update, SeenMeans;
    if n == 0 {
      InitSolo(states[0], x);
    } else {
      var x0 := SoloRun(states, steps, n - 1);
      var c := SoloStep(states[n - 1], x0, steps[n - 1]);
      SoloChain(states[n], x, c);
      LookOn(states[n - 1], steps[n - 1], x0, x);
    }
  }

  lemma StartsAtSlot(s: State, a: Step)
    requires Enabled(s, a)
    ensures a.Start? ==>
              a.t < |Next(s, a).threads| && Next(s, a).threads[a.t].Busy? && Next(s, a).threads[a.t].pc == LoadSlot
  {
  }

  lemma SilentUpdate(m: map<Key, Value>)
    ensures Update(m, Silent) == m
  {
  }

  lemma LookOn(s: State, a: Step, x: Aux, y: Aux)
    requires Inv(s, x) && Enabled(s, a) && Solo(s, x.chain) && LooksOk(s, x, s.threads[0])
    requires Inv(Next(s, a), y) && Solo(Next(s, a), y.chain) && y.model == Update(x.model, EventOf(s, a))
    ensures var s' := Next(s, a); |s'.threads| == 1 && s'.cfg.width >= 3 && LooksOk(s', y, s'.threads[0])
  {
    assert a.t == 0 && s.cfg.width >= 3;
    CallsKeepOp(s, a, 0);
    StartsAtSlot(s, a);
    hide Inv, Solo, LooksOk, Next, Enabled, EventOf, Update;
    if a.Run? {
      if Gets(s.threads[0].pc) {
        GetsAreLight(s, 0);
        assert Update(x.model, Silent) == x.model by { SilentUpdate(x.model); }
        LookStep(s, x, y, Next(s, a));
      } else {
        OnlyGetsLook(s, 0);
        NothingToLook(Next(s, a), y);
      }
    } else {
      NothingToLook(Next(s, a), y);
    }
  }

  lemma NothingToLook(s: State, x: Aux)
    requires |s.threads| == 1 && s.cfg.width >= 3
    requires s.threads[0].Busy? ==> !Gets(s.threads[0].pc) || s.threads[0].pc.GetHead?
    ensures LooksOk(s, x, s.threads[0])
  {
  }

  // ---------------------------------------------------------------- one thread and a simple map

  /** What a call answers. */
  datatype Answer = Did(result: bool) | Got(found: Option<Value>)

  function Answered(pc: Pc): Answer
    requires Returning(pc)
  {
    if pc.Return? then Did(pc.result) else Got(pc.found)
  }

  /** An operation on a simple map. */
  function SimpleStep(m: map<Key, Value>, op: Op): (map<Key, Value>, Answer) {
    match op
    case Insert(k, v) => if k in m then (m, Did(false)) else (m[k := v], Did(true))
    case Remove(k) => (m - {k}, Did(k in m))
    case Find(k) => (m, Got(MapLookup(m, k)))
  }

  function SimpleMap(calls: seq<(Op, Answer)>): map<Key, Value> {
    if calls == [] then map[] else SimpleStep(SimpleMap(calls[..|calls| - 1]), calls[|calls| - 1].0).0
  }

  /** A simple map, starting empty, gives every answer of the history. */
  ghost predicate SimpleHistory(calls: seq<(Op, Answer)>) {
    forall i :: 0 <= i < |calls| ==> SimpleStep(SimpleMap(calls[..i]), calls[i].0).1 == calls[i].1
  }

  /** The calls that have returned within the first `n` steps of thread 0, with their answers. */
  ghost function Calls(states: seq<State>, steps: seq<Step>, n: nat): seq<(Op, Answer)>
    requires IsRun(states, steps) && n <= |steps|
  {
    if n == 0 then []
    else
      var before := Calls(states, steps, n - 1);
      var s, a := states[n - 1], steps[n - 1];
      if a == Run(0) && Returning(s.threads[0].pc) then before + [(s.threads[0].op, Answered(s.threads[0].pc))]
      else before
  }

  lemma RemoverRemoves(s: State, x: Aux, t: nat)
    requires Inv(s, x) && t < |s.threads| && s.threads[t].Busy? && s.threads[t].pc.MarkVictim?
    ensures s.threads[t].op.Remove?
  {
    InvLocal(s, x, t);
    hide ListOk, PendingOk, WalkOk, PredOk;
  }

  /** The event of a step concerns the operation of its call. */
  lemma EventIsOfCall(s: State, x: Aux, t: nat)
    requires Inv(s, x) && Enabled(s, Run(t))
    ensures match EventOf(s, Run(t))
            case Silent => true
            case Added(k, v) => s.threads[t].op == Insert(k, v)
            case Removed(k) => s.threads[t].op == Remove(k)
  {
    if s.threads[t].pc.MarkVictim? {
      RemoverRemoves(s, x, t);
    }
    hide Inv, CasSucceeds;
  }

  ghost predicate UpdatesOnce(m: map<Key, Value>, op: Op, m': map<Key, Value>) {
    match op
    case Insert(k, v) => k !in m && m' == m[k := v]
    case Remove(k) => k in m && m' == m - {k}
    case Find(_) => false
  }

  /** Between the begin of the only thread's call and step `n` nothing but this call has changed the map. */
  ghost predicate OwnEffects(states: seq<State>, steps: seq<Step>, n: nat)
    requires IsRun(states, steps) && n <= |steps| && |states[n].threads| == 1 && states[n].threads[0].Busy?
  {
    var from := CallStart(steps, n, 0);
    var effects := Effects(states, steps, from, n, 0);
    && (effects == 0 ==> forall j :: from <= j <= n ==> ModelAt(states, steps, j) == ModelAt(states, steps, from))
    && (effects == 1 ==> UpdatesOnce(ModelAt(states, steps, from), states[n].threads[0].op, ModelAt(states, steps, n)))
  }

  lemma {:induction false} ThreadCount(states: seq<State>, steps: seq<Step>, n: nat)
    requires IsRun(states, steps) && n <= |steps|
    ensures |states[n].threads| == |states[0].threads|
  {
    if n > 0 {
      ThreadCount(states, steps, n - 1);
      hide Next, Enabled;
      CallsKeepOp(states[n - 1], steps[n - 1], steps[n - 1].t);
    }
  }

  lemma {:induction false} SoloEffects(states: seq<State>, steps: seq<Step>, n: nat)
    requires IsRun(states, steps) && n <= |steps| && |states[n].threads| == 1 && states[n].threads[0].Busy?
    ensures OwnEffects(states, steps, n)
  {
    hide Next, EventOf, Inv;
    if n > 0 {
      var s, a := states[n - 1], steps[n - 1];
      ThreadCount(states, steps, n);
      ThreadCount(states, steps, n - 1);
      BeginOrGoOn(s, a);
      if a.Run? {
        SoloEffects(states, steps, n - 1);
        var x := RunKeeps(states, steps, n - 1);
        EventIsOfCall(s, x, 0);
        EventsAreUpdates(states, steps, n - 1);
      }
    }
  }

  /** A step of the only thread begins a call or belongs to the call in progress. */
  lemma BeginOrGoOn(s: State, a: Step)
    requires Enabled(s, a) && |s.threads| == 1
    ensures a.t == 0
    ensures a.Start? ==> s.threads[0].Idle? && EventOf(s, a) == Silent
    ensures a.Run? ==> a == Run(0) && s.threads[0].Busy?
    ensures var th' := Next(s, a).threads[0];
            && |Next(s, a).threads| == 1
            && (a.Start? ==> th'.Busy? && th'.op == a.op)
            && (a.Run? && th'.Busy? ==> th'.op == s.threads[0].op)
  {
    CallsKeepOp(s, a, 0);
    hide Next;
  }

  /**
    The map used by one thread, with sentinels created lazily and the bucket count doubling at any
    time: every returning `insert`, `remove` and `find` answers as a simple map does, and has done
    to the map what the operation does to a simple map.
  */
  lemma SequentialCall(states: seq<State>, steps: seq<Step>, n: nat)
    requires IsRun(states, steps) && n <= |steps| && |states[0].threads| == 1
    requires |states[n].threads| == 1 && states[n].threads[0].Busy? && Returning(states[n].threads[0].pc)
    ensures var th := states[n].threads[0];
            SimpleStep(ModelAt(states, steps, CallStart(steps, n, 0)), th.op)
              == (ModelAt(states, steps, n), Answered(th.pc))
  {
    assert n < |states|;
    hide IsRun, Inv, Solo, Next, EventOf;
    var from, th := CallStart(steps, n, 0), states[n].threads[0];
    var x := SoloRun(states, steps, n);
    CallsAreAtomic(states, steps, n, 0);
    SoloEffects(states, steps, n);
    if th.pc == Return(false) {
      SawOneMap(states, steps, n);
    }
    CallAnswers(ModelAt(states, steps, from), ModelAt(states, steps, n), th, Effects(states, steps, from, n, 0));
  }

  lemma CallAnswers(m: map<Key, Value>, m': map<Key, Value>, th: Thread, effects: nat)
    requires th.Busy? && Returning(th.pc) && (th.pc.GetReturn? <==> th.op.Find?)
    requires effects == if th.pc.Return? && th.pc.result then 1 else 0
    requires if effects == 0 then m' == m else UpdatesOnce(m, th.op, m')
    requires th.pc == Return(false) ==> (th.op.key in m <==> th.op.Insert?)
    requires th.pc.GetReturn? ==> th.pc.found == MapLookup(m, th.op.key)
    ensures SimpleStep(m, th.op) == (m', Answered(th.pc))
  {
    if th.pc == Return(false) && th.op.Remove? {
      assert m - {th.op.key} == m;
    }
  }

  /** A call without effect has seen one map only. */
  lemma SawOneMap(states: seq<State>, steps: seq<Step>, n: nat)
    requires IsRun(states, steps) && n <= |steps| && |states[n].threads| == 1 && states[n].threads[0].Busy?
    requires OwnEffects(states, steps, n) && Effects(states, steps, CallStart(steps, n, 0), n, 0) == 0
    ensures var from, k := CallStart(steps, n, 0), states[n].threads[0].op.key;
            && (AbsentSomewhen(states, steps, from, n, k) ==> k !in ModelAt(states, steps, from))
            && (PresentSomewhen(states, steps, from, n, k) ==> k in ModelAt(states, steps, from))
  {
    hide IsRun;
  }

  /** A call of the only thread ends where it returns. */
  lemma EndOrGoOn(s: State)
    requires Enabled(s, Run(0))
    ensures var th' := Next(s, Run(0)).threads[0]; th'.Busy? <==> !Returning(s.threads[0].pc)
    ensures Returning(s.threads[0].pc) ==> EventOf(s, Run(0)) == Silent
  {
    if Simple(s.threads[0].pc) {
      SimpleEnds(s);
    }
  }

  lemma SimpleEnds(s: State)
    requires Enabled(s, Run(0)) && Simple(s.threads[0].pc)
    ensures var th' := Next(s, Run(0)).threads[0]; th'.Busy? <==> !Returning(s.threads[0].pc)
    ensures Returning(s.threads[0].pc) ==> EventOf(s, Run(0)) == Silent
  {
  }

  lemma AddCall(calls: seq<(Op, Answer)>, op: Op, answer: Answer)
    requires SimpleHistory(calls) && SimpleStep(SimpleMap(calls), op).1 == answer
    ensures SimpleHistory(calls + [(op, answer)])
    ensures SimpleMap(calls + [(op, answer)]) == SimpleStep(SimpleMap(calls), op).0
  {
    var more := calls + [(op, answer)];
    assert more[..|calls|] == calls;
    forall i | 0 <= i < |more| ensures SimpleStep(SimpleMap(more[..i]), more[i].0).1 == more[i].1 {
      assert more[..i] == calls[..i];
    }
  }

  /** Between calls nothing changes the map. */
  lemma IdleKeepsModel(states: seq<State>, steps: seq<Step>, n: nat)
    requires IsRun(states, steps) && n < |steps| && EventOf(states[n], steps[n]) == Silent
    ensures ModelAt(states, steps, n + 1) == ModelAt(states, steps, n)
  {
  }

  /**
    One thread, any sequence of calls: the answers are those a simple map would have given to the
    same calls, and so is the map when no call is in progress (or was, when the call began).
  */
  lemma {:induction false} SequentialMap(states: seq<State>, steps: seq<Step>, n: nat)
    requires IsRun(states, steps) && n <= |steps| && |states[0].threads| == 1
    ensures SimpleHistory(Calls(states, steps, n))
    ensures |states[n].threads| == 1
    ensures ModelAt(states, steps, if states[n].threads[0].Idle? then n else CallStart(steps, n, 0))
              == SimpleMap(Calls(states, steps, n))
  {
    hide Next, EventOf;
    ThreadCount(states, steps, n);
    if n > 0 {
      var s, a := states[n - 1], steps[n - 1];
      SequentialMap(states, steps, n - 1);
      BeginOrGoOn(s, a);
      if a.Start? {
        IdleKeepsModel(states, steps, n - 1);
      } else {
        EndOrGoOn(s);
        if Returning(s.threads[0].pc) {
          SequentialCall(states, steps, n - 1);
          IdleKeepsModel(states, steps, n - 1);
          AddCall(Calls(states, steps, n - 1), s.threads[0].op, Answered(s.threads[0].pc));
        }
      }
    }
  }
}
