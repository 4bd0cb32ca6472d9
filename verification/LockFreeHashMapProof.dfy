/**
  The invariant of the lock-free hash map and the proof that every run refines a map.
*/
module LockFreeHashMapProof {
  import opened Arithmetic
  import opened Sequences
  import opened SplitOrder
  import opened LockFreeHashMap

  /**
    What has been observed about the key of a running call since the call began: whether the
    key was absent (present) in the abstract map at some instant, and how often the call itself
    has changed the map.
  */
  datatype Seen = Seen(absent: bool, present: bool, effects: nat)

  /**
    Auxiliary data of the proof.  `chain` lists the nodes reachable from the head, `published`
    every node ever linked, `model` is the abstract map.
  */
  datatype Aux = Aux(chain: seq<nat>, published: set<nat>, model: map<Key, Value>, seen: seq<Seen>)

  // ---------------------------------------------------------------- the list

  ghost predicate NodeOk(cfg: Config, n: int, node: Node)
    requires cfg.width >= 2
  {
    && (n == HEAD ==> node.item.Sentinel? && node.hash == 0)
    && (n == LAST ==> node == Node(MaxKey(cfg.width), Sentinel, NULL, false))
    && (n != LAST && node.item.Sentinel? ==> node.hash % 4 == 0 && node.hash < MaxKey(cfg.width) && !node.mark)
    && (node.item.Entry? ==>
           node.hash == OrdKey(cfg, node.item.key) && node.hash % 4 == 1 && node.hash < MaxKey(cfg.width))
  }

  ghost predicate HeapOk(cfg: Config, heap: seq<Node>)
    requires cfg.width >= 2
  {
    |heap| >= 2 && forall n :: 0 <= n < |heap| ==> NodeOk(cfg, n, heap[n])
  }

  /** Strict order of linked nodes; only elements with colliding hashes share a hash value. */
  ghost predicate Before(a: Node, b: Node) {
    || a.hash < b.hash
    || (a.hash == b.hash && a.item.Entry? && b.item.Entry? && a.item.key != b.item.key)
  }

  ghost predicate LeadsOn(heap: seq<Node>, published: set<nat>, n: int) {
    0 <= n < |heap| && heap[n].next in published
  }

  /** The published nodes exist, lead to published nodes, and are linked unless they are marked. */
  ghost predicate PublishedOk(heap: seq<Node>, c: seq<nat>, published: set<nat>) {
    && (forall n :: n in published ==> n < |heap|)
    && (forall n {:trigger LeadsOn(heap, published, n)} :: n in published && n != LAST ==> LeadsOn(heap, published, n))
    && (forall n :: n in published && !heap[n].mark ==> n in c)
    && (forall i :: 0 <= i < |c| ==> c[i] in published)
  }

  /** The chain starts at the head, ends at the last node and follows the links in strict order. */
  ghost predicate ChainOk(heap: seq<Node>, c: seq<nat>) {
    && |c| >= 2 && c[0] == HEAD && c[|c| - 1] == LAST
    && (forall i :: 0 <= i < |c| ==> c[i] < |heap|)
    && (forall i :: 0 <= i < |c| - 1 ==> heap[c[i]].next == c[i + 1])
    && (forall i, j :: 0 <= i < j < |c| ==> c[i] != c[j])
    && (forall i, j :: 0 <= i < j < |c| ==> Before(heap[c[i]], heap[c[j]]))
  }

  ghost predicate Holds(m: map<Key, Value>, node: Node) {
    node.item.Entry? && !node.mark ==> node.item.key in m && m[node.item.key] == node.item.value
  }

  ghost predicate Somewhere(heap: seq<Node>, c: seq<nat>, k: Key) {
    exists i :: 0 <= i < |c| && c[i] < |heap| && heap[c[i]].LiveKey(k)
  }

  /** The abstract map holds exactly the linked unmarked elements. */
  ghost predicate ModelOk(heap: seq<Node>, c: seq<nat>, m: map<Key, Value>) {
    && (forall i :: 0 <= i < |c| && c[i] < |heap| ==> Holds(m, heap[c[i]]))
    && (forall k :: k in m ==> Somewhere(heap, c, k))
  }

  /** A slot points at the sentinel of its own bucket. */
  ghost predicate SlotOk(cfg: Config, heap: seq<Node>, published: set<nat>, i: nat, n: int)
    requires cfg.width >= 2
  {
    && i < Pow2(cfg.width - 2)
    && 0 <= n < |heap| && n in published && n != LAST
    && heap[n].item.Sentinel? && heap[n].hash == SentinelKey(cfg.width, i)
  }

  ghost predicate SlotsOk(cfg: Config, heap: seq<Node>, published: set<nat>, slots: map<nat, int>)
    requires cfg.width >= 2
  {
    && 0 in slots
    && forall i :: i in slots ==> SlotOk(cfg, heap, published, i, slots[i])
  }

  ghost predicate ListOk(s: State, x: Aux) {
    && s.cfg.width >= 3 && 1 <= s.bits <= s.cfg.width - 2
    && HeapOk(s.cfg, s.heap)
    && PublishedOk(s.heap, x.chain, x.published)
    && ChainOk(s.heap, x.chain)
    && ModelOk(s.heap, x.chain, x.model)
    && SlotsOk(s.cfg, s.heap, x.published, s.slots)
  }

  // ---------------------------------------------------------------- the threads

  /** No linked element with key `k` lies before node `n` of the chain. */
  ghost predicate NoneBefore(heap: seq<Node>, c: seq<nat>, n: int, k: Key) {
    forall i, j :: 0 <= j < i < |c| && c[i] == n && 0 <= c[j] < |heap| ==> !heap[c[j]].HasKey(k)
  }

  ghost predicate PendingOk(s: State, th: Thread)
    requires th.Busy? && s.cfg.width >= 3
  {
    var p := th.pending;
    && 1 <= th.bits <= s.bits
    && (forall j :: 0 <= j < |p| ==> 0 < p[j] < Pow2(th.bits))
    && (p != [] ==> p[0] == Low(s.cfg.hash(th.op.key), th.bits))
    && (forall j :: 0 <= j < |p| - 1 ==> p[j + 1] == ParentOf(p[j]))
  }

  /** The private node of a thread. */
  ghost predicate PrivateOk(s: State, x: Aux, th: Thread)
    requires th.Busy? && s.cfg.width >= 3
  {
    && IsNode(s, th.node) && th.node !in x.published && th.node > LAST
    && s.heap[th.node].hash == TargetHash(s.cfg, th)
    && s.heap[th.node].item == (if th.pending == [] && th.op.Insert? then Entry(th.op.key, th.op.value) else Sentinel)
    && !s.heap[th.node].mark
  }

  /** `n` may be the predecessor of the wanted key: nothing wanted lies at or before it. */
  ghost predicate PredOk(s: State, x: Aux, th: Thread, n: int)
    requires th.Busy? && s.cfg.width >= 3
  {
    var h := TargetHash(s.cfg, th);
    && IsNode(s, n) && n in x.published && n != LAST
    && s.heap[n].hash <= h
    && (s.heap[n].hash == h ==> th.pending == [] && s.heap[n].item.Entry?)
    && (th.pending == [] ==>
          && NoneBefore(s.heap, x.chain, n, th.op.key)
          && !(s.heap[n].item.Entry? && s.heap[n].item.key == th.op.key))
  }

  /** `n` was the successor of such a predecessor. */
  ghost predicate CurOk(s: State, x: Aux, th: Thread, seen: Seen, n: int)
    requires th.Busy? && s.cfg.width >= 3
  {
    var h := TargetHash(s.cfg, th);
    && IsNode(s, n) && n in x.published
    && (th.pending == [] ==> if s.heap[n].hash <= h then NoneBefore(s.heap, x.chain, n, th.op.key) else seen.absent)
  }

  ghost predicate VictimOk(s: State, x: Aux, th: Thread, n: int)
    requires th.Busy?
  {
    && th.pending == [] && th.op.Remove?
    && IsNode(s, n) && n in x.published && s.heap[n].item.Entry? && s.heap[n].item.key == th.op.key
  }

  /** The walk of a `find`: its private node is ready and the slot it starts from is filled. */
  ghost predicate WalkOk(s: State, x: Aux, th: Thread, seen: Seen)
    requires th.Busy? && s.cfg.width >= 3
  {
    && seen.effects == 0 && (th.pending == [] ==> !th.op.Find?)
    && StartIndex(s.cfg, th) in s.slots
    && if NeedsNode(th) then PrivateOk(s, x, th) else th.node == NULL
  }

  ghost predicate PcOk(s: State, x: Aux, th: Thread, seen: Seen)
    requires th.Busy? && s.cfg.width >= 3
  {
    match th.pc
    case LoadSlot => seen.effects == 0 && th.node == NULL
    case StartWalk => WalkOk(s, x, th, seen)
    case LoadFirst(pred) => WalkOk(s, x, th, seen) && PredOk(s, x, th, pred) && s.heap[pred].item.Sentinel?
    case LoadNext(pred, cur) => WalkOk(s, x, th, seen) && PredOk(s, x, th, pred) && CurOk(s, x, th, seen, cur)
    case Unlink(pred, cur, succ) =>
      && WalkOk(s, x, th, seen) && PredOk(s, x, th, pred) && CurOk(s, x, th, seen, cur)
      && s.heap[cur].mark && s.heap[cur].next == succ
    case Found(pred, cur) =>
      && WalkOk(s, x, th, seen) && PredOk(s, x, th, pred) && CurOk(s, x, th, seen, cur)
      && (Matches(s.cfg, th, s.heap[cur]) || s.heap[cur].hash > TargetHash(s.cfg, th))
      && (th.pending == [] && Matches(s.cfg, th, s.heap[cur]) ==> seen.present)
    case LinkNode(pred, cur) =>
      && WalkOk(s, x, th, seen) && PredOk(s, x, th, pred) && CurOk(s, x, th, seen, cur)
      && NeedsNode(th) && s.heap[th.node].next == cur && s.heap[cur].hash > TargetHash(s.cfg, th)
    case LoadVictim(pred, cur) => WalkOk(s, x, th, seen) && PredOk(s, x, th, pred) && VictimOk(s, x, th, cur)
    case MarkVictim(pred, cur, _) => WalkOk(s, x, th, seen) && PredOk(s, x, th, pred) && VictimOk(s, x, th, cur)
    case UnlinkVictim(pred, cur, succ) =>
      && seen.effects == 1 && th.node == NULL
      && PredOk(s, x, th, pred) && VictimOk(s, x, th, cur) && s.heap[cur].mark && s.heap[cur].next == succ
    case CheckSlot(n) => seen.effects == 0 && SentinelOk(s, x, th, n)
    case StoreSlot(n) => seen.effects == 0 && SentinelOk(s, x, th, n)
    case Return(result) =>
      && th.pending == [] && !th.op.Find? && th.node == NULL
      && seen.effects == (if result then 1 else 0)
      && (!result ==> if th.op.Insert? then seen.present else seen.absent)
    case DecSize => th.pending == [] && th.op.Remove? && seen.effects == 1 && th.node == NULL
    case GetHead => Getting(th, seen) && StartIndex(s.cfg, th) in s.slots
    case GetFirst(pred) => Getting(th, seen) && IsNode(s, pred) && pred in x.published && pred != LAST
    case GetWalk(cur, _) => Getting(th, seen) && IsNode(s, cur) && cur in x.published
    case GetReturn(_) => Getting(th, seen)
    case _ => th.pending == [] && th.op.Insert? && seen.effects == 1 && th.node == NULL
  }

  ghost predicate Getting(th: Thread, seen: Seen)
    requires th.Busy?
  {
    th.pending == [] && th.op.Find? && seen.effects == 0 && th.node == NULL
  }

  ghost predicate SentinelOk(s: State, x: Aux, th: Thread, n: int)
    requires th.Busy? && s.cfg.width >= 3
  {
    && th.pending != [] && StartIndex(s.cfg, th) in s.slots
    && IsNode(s, n) && n in x.published && n != LAST
    && s.heap[n].item.Sentinel? && s.heap[n].hash == SentinelKey(s.cfg.width, Top(th))
  }

  ghost predicate ThreadOk(s: State, x: Aux, th: Thread, seen: Seen)
    requires s.cfg.width >= 3
  {
    th.Busy? ==> PendingOk(s, th) && PcOk(s, x, th, seen)
  }

  /** What a thread still owes to `mSize`. */
  function Owed(th: Thread): int {
    if !th.Busy? then 0
    else if th.pc.IncSize? then 1
    else if th.pc.UnlinkVictim? || th.pc.DecSize? then -1
    else 0
  }

  function TotalOwed(ths: seq<Thread>): int { Sum(seq(|ths|, t requires 0 <= t < |ths| => Owed(ths[t]))) }

  function OwnNode(th: Thread): int { if th.Busy? && th.node >= 0 && HoldsNode(th.pc) then th.node else NULL }

  predicate HoldsNode(pc: Pc) { !pc.CheckSlot? && !pc.StoreSlot? }

  ghost predicate NodesDistinct(ths: seq<Thread>) {
    forall t, u :: 0 <= t < u < |ths| && OwnNode(ths[t]) != NULL ==> OwnNode(ths[t]) != OwnNode(ths[u])
  }

  ghost predicate Inv(s: State, x: Aux) {
    && ListOk(s, x)
    && |x.seen| == |s.threads|
    && (forall t :: 0 <= t < |s.threads| ==> ThreadOk(s, x, s.threads[t], x.seen[t]))
    && NodesDistinct(s.threads)
    && 0 <= s.size < SIZE_RANGE
    && (s.size + TotalOwed(s.threads) - |x.model|) % SIZE_RANGE == 0
  }

  // ---------------------------------------------------------------- the abstract side

  /** The one update an event stands for. */
  ghost predicate ModelStep(m: map<Key, Value>, e: Event, m': map<Key, Value>) {
    match e
    case Silent => m' == m
    case Added(k, v) => k !in m && m' == m[k := v]
    case Removed(k) => k in m && m' == m - {k}
  }

  function KeyOf(s: State, t: nat): Key
    requires t < |s.threads| && s.threads[t].Busy?
  {
    s.threads[t].op.key
  }

  function Sees(seen: Seen, k: Key, m: map<Key, Value>, effects: nat): Seen {
    Seen(seen.absent || k !in m, seen.present || k in m, seen.effects + effects)
  }

  /** The observations of thread `t` after a step that led to state `s'` and map `m'`. */
  function Observe(s: State, a: Step, s': State, m': map<Key, Value>, before: Seen, t: nat): Seen
    requires Enabled(s, a) && t < |s'.threads|
  {
    if !s'.threads[t].Busy? then Seen(false, false, 0)
    else
      var k := KeyOf(s', t);
      if a == Start(t, s'.threads[t].op) then Seen(k !in m', k in m', 0)
      else Sees(before, k, m', if a.t == t && !EventOf(s, a).Silent? then 1 else 0)
  }

  ghost predicate SeenStep(s: State, a: Step, x: Aux, s': State, x': Aux)
    requires Enabled(s, a)
  {
    && |x.seen| == |x'.seen| == |s'.threads|
    && forall t :: 0 <= t < |s'.threads| ==> x'.seen[t] == Observe(s, a, s', x'.model, x.seen[t], t)
  }

  // ---------------------------------------------------------------- evolution of the list

  /** Nodes keep their keys, marked nodes never change, private nodes other than `own` stay private. */
  ghost predicate HeapEvolves(heap: seq<Node>, pub: set<nat>, heap': seq<Node>, pub': set<nat>, own: int) {
    && |heap| <= |heap'|
    && pub <= pub'
    && (forall n :: 0 <= n < |heap| ==> heap'[n].hash == heap[n].hash && heap'[n].item == heap[n].item)
    && (forall n :: 0 <= n < |heap| && heap[n].mark ==> heap'[n] == heap[n])
    && (forall n :: 0 <= n < |heap| && n !in pub && n != own ==> heap'[n] == heap[n] && n !in pub')
  }

  /** A node with nothing wanted before it keeps that property. */
  ghost predicate WalksSurvive(cfg: Config, heap: seq<Node>, x: Aux, heap': seq<Node>, c': seq<nat>)
    requires cfg.width >= 2
  {
    forall n, k :: n in x.published && 0 <= n < |heap| && heap[n].hash <= OrdKey(cfg, k) ==>
      (NoneBefore(heap, x.chain, n, k) ==> NoneBefore(heap', c', n, k))
  }

  ghost predicate Evolves(s: State, x: Aux, s': State, x': Aux, own: int)
    requires s.cfg.width >= 3
  {
    && s'.cfg == s.cfg && s.bits <= s'.bits
    && HeapEvolves(s.heap, x.published, s'.heap, x'.published, own)
    && (forall i :: i in s.slots ==> i in s'.slots && s'.slots[i] == s.slots[i])
    && WalksSurvive(s.cfg, s.heap, x, s'.heap, x'.chain)
  }

  /** A step that only moves a thread and counters leaves the list alone. */
  lemma SameList(s: State, x: Aux, s': State)
    requires ListOk(s, x)
    requires s'.cfg == s.cfg && s'.heap == s.heap && s'.slots == s.slots
    requires s.bits <= s'.bits <= s.cfg.width - 2
    ensures ListOk(s', x) && Evolves(s, x, s', x, NULL)
  {
  }

  lemma NewNode(s: State, x: Aux, s': State, node: Node)
    requires ListOk(s, x)
    requires s'.cfg == s.cfg && s'.slots == s.slots && s'.bits == s.bits
    requires s'.heap == s.heap + [node] && NodeOk(s.cfg, |s.heap|, node)
    ensures ListOk(s', x) && Evolves(s, x, s', x, NULL)
    ensures |s.heap| !in x.published
  {
    ModelUnmoved(s.heap, x.chain, x.model, s'.heap);
    LinksKept(s.heap, x.chain, x.published, s'.heap, x.published);
    forall n, k | NoneBefore(s.heap, x.chain, n, k) ensures NoneBefore(s'.heap, x.chain, n, k) {
    }
  }

  /** Links that stay, or change to published nodes, lead to published nodes. */
  lemma LinksKept(heap: seq<Node>, c: seq<nat>, pub: set<nat>, heap': seq<Node>, pub': set<nat>)
    requires PublishedOk(heap, c, pub) && |heap| <= |heap'| && pub <= pub'
    requires forall n :: n in pub && n != LAST ==> heap'[n].next == heap[n].next || heap'[n].next in pub'
    ensures forall n {:trigger LeadsOn(heap', pub', n)} :: n in pub && n != LAST ==> LeadsOn(heap', pub', n)
  {
    forall n | n in pub && n != LAST ensures LeadsOn(heap', pub', n) {
      assert LeadsOn(heap, pub, n);
    }
  }

  lemma ModelUnmoved(heap: seq<Node>, c: seq<nat>, m: map<Key, Value>, heap': seq<Node>)
    requires ModelOk(heap, c, m)
    requires |heap| <= |heap'|
    requires forall i :: 0 <= i < |c| ==> c[i] < |heap| && heap'[c[i]].(next := NULL) == heap[c[i]].(next := NULL)
    ensures ModelOk(heap', c, m)
  {
    forall k | k in m ensures Somewhere(heap', c, k) {
      assert Somewhere(heap, c, k);
      var i :| 0 <= i < |c| && heap[c[i]].LiveKey(k);
      assert heap'[c[i]].LiveKey(k) by { assert heap'[c[i]].(next := NULL) == heap[c[i]].(next := NULL); }
    }
    forall i | 0 <= i < |c| ensures Holds(m, heap'[c[i]]) {
      assert Holds(m, heap[c[i]]);
      assert heap'[c[i]].(next := NULL) == heap[c[i]].(next := NULL);
    }
  }

  /** Writing a node that is not linked leaves the chain as it is. */
  lemma OffChain(heap: seq<Node>, c: seq<nat>, own: int, node: Node)
    requires ChainOk(heap, c) && 0 <= own < |heap| && own !in c
    ensures ChainOk(heap[own := node], c)
    ensures forall n, k :: NoneBefore(heap, c, n, k) ==> NoneBefore(heap[own := node], c, n, k)
  {
    var heap' := heap[own := node];
    forall i | 0 <= i < |c| ensures heap'[c[i]] == heap[c[i]] {
      assert c[i] != own;
    }
    forall n, k | NoneBefore(heap, c, n, k) ensures NoneBefore(heap', c, n, k) {
      forall i, j | 0 <= j < i < |c| && c[i] == n && 0 <= c[j] < |heap'| ensures !heap'[c[j]].HasKey(k) {
        assert heap'[c[j]] == heap[c[j]];
      }
    }
  }

  lemma WritePrivate(s: State, x: Aux, s': State, own: int, next: int)
    requires ListOk(s, x)
    requires s'.cfg == s.cfg && s'.slots == s.slots && s'.bits == s.bits
    requires IsNode(s, own) && own !in x.published && own > LAST && !s.heap[own].mark
    requires s'.heap == s.heap[own := s.heap[own].(next := next)]
    ensures ListOk(s', x) && Evolves(s, x, s', x, own)
  {
    OffChain(s.heap, x.chain, own, s.heap[own].(next := next));
    ModelUnmoved(s.heap, x.chain, x.model, s'.heap);
    assert NodeOk(s.cfg, own, s.heap[own]);
    assert HeapOk(s.cfg, s'.heap);
    LinksKept(s.heap, x.chain, x.published, s'.heap, x.published);
    assert PublishedOk(s'.heap, x.chain, x.published);
    forall i | i in s.slots ensures SlotOk(s.cfg, s'.heap, x.published, i, s.slots[i]) {
      assert SlotOk(s.cfg, s.heap, x.published, i, s.slots[i]);
    }
  }

  // ---------------------------------------------------------------- the three updates of the chain

  /** An unmarked published node is linked, and its successor is next on the chain. */
  lemma LinkedPair(heap: seq<Node>, c: seq<nat>, pub: set<nat>, pred: int) returns (i: nat)
    requires ChainOk(heap, c) && PublishedOk(heap, c, pub)
    requires pred in pub && pred != LAST && !heap[pred].mark
    ensures i + 1 < |c| && c[i] == pred && c[i + 1] == heap[pred].next
  {
    i :| 0 <= i < |c| && c[i] == pred;
  }

  /** The successful `pred->mNext` CAS from a marked node to its successor takes that node out. */
  lemma UnlinkFromChain(heap: seq<Node>, c: seq<nat>, i: nat, heap': seq<Node>, c': seq<nat>)
    requires ChainOk(heap, c)
    requires i + 2 < |c| && c' == c[..i + 1] + c[i + 2..] && heap' == heap[c[i] := heap[c[i]].(next := c[i + 2])]
    ensures ChainOk(heap', c')
  {
    forall j | 0 <= j < |c'| ensures c'[j] == c[if j <= i then j else j + 1] {}
    forall a, b | 0 <= a < b < |c'| ensures c'[a] != c'[b] && Before(heap'[c'[a]], heap'[c'[b]]) {
      var a', b' := if a <= i then a else a + 1, if b <= i then b else b + 1;
      assert Before(heap[c[a']], heap[c[b']]);
    }
    forall j | 0 <= j < |c'| - 1 ensures heap'[c'[j]].next == c'[j + 1] {
      if j < i {
        assert c[j] != c[i] && heap[c[j]].next == c[j + 1];
      } else if j > i + 1 {
        assert c[j - 1] != c[i] && heap[c[j - 1]].next == c[j];
      }
    }
  }

  lemma UnlinkKeepsPublished(heap: seq<Node>, c: seq<nat>, pub: set<nat>, i: nat, heap': seq<Node>, c': seq<nat>)
    requires PublishedOk(heap, c, pub)
    requires i + 2 < |c| && c' == c[..i + 1] + c[i + 2..] && heap' == heap[c[i] := heap[c[i]].(next := c[i + 2])]
    requires heap[c[i + 1]].mark
    ensures PublishedOk(heap', c', pub)
  {
    LinksKept(heap, c, pub, heap', pub);
    forall j | 0 <= j < |c'| ensures c'[j] == c[if j <= i then j else j + 1] {}
    forall n | n in pub && !heap'[n].mark ensures n in c' {
      var j :| 0 <= j < |c| && c[j] == n;
      assert c'[if j <= i then j else j - 1] == n;
    }
  }

  lemma UnlinkKeepsModel(heap: seq<Node>, c: seq<nat>, m: map<Key, Value>, i: nat, succ: int)
    requires ChainOk(heap, c) && ModelOk(heap, c, m)
    requires i + 2 < |c| && heap[c[i + 1]].mark
    ensures var heap', c' := heap[c[i] := heap[c[i]].(next := succ)], c[..i + 1] + c[i + 2..];
            ModelOk(heap', c', m) && forall n, k :: NoneBefore(heap, c, n, k) ==> NoneBefore(heap', c', n, k)
  {
    var heap', c' := heap[c[i] := heap[c[i]].(next := succ)], c[..i + 1] + c[i + 2..];
    forall j | 0 <= j < |c'| ensures c'[j] == c[if j <= i then j else j + 1] {}
    forall k | k in m ensures Somewhere(heap', c', k) {
      assert Somewhere(heap, c, k);
      var j :| 0 <= j < |c| && heap[c[j]].LiveKey(k);
      assert heap'[c'[if j <= i then j else j - 1]].LiveKey(k);
    }
    forall j | 0 <= j < |c'| ensures Holds(m, heap'[c'[j]]) {
      assert Holds(m, heap[c[if j <= i then j else j + 1]]);
    }
    forall n, k | NoneBefore(heap, c, n, k) ensures NoneBefore(heap', c', n, k) {
      forall a, b | 0 <= b < a < |c'| && c'[a] == n && 0 <= c'[b] < |heap'| ensures !heap'[c'[b]].HasKey(k) {
        assert c[if a <= i then a else a + 1] == n;
        assert !heap[c[if b <= i then b else b + 1]].HasKey(k);
      }
    }
  }

  /** `own` fits between two neighbours of the chain. */
  ghost predicate Fits(heap: seq<Node>, c: seq<nat>, pred: int, cur: int, own: int) {
    && 0 <= pred < |heap| && 0 <= cur < |heap| && 0 <= own < |heap|
    && heap[pred].hash <= heap[own].hash < heap[cur].hash
    && (heap[pred].hash == heap[own].hash ==> heap[pred].item.Entry? && heap[own].item.Entry?)
    && (heap[own].item.Entry? ==>
          NoneBefore(heap, c, pred, heap[own].item.key) && !heap[pred].HasKey(heap[own].item.key))
  }

  lemma InsertedAt(c: seq<nat>, i: nat, own: nat)
    requires i + 1 < |c|
    ensures var c' := c[..i + 1] + [own] + c[i + 1..];
            |c'| == |c| + 1 && forall j :: 0 <= j < |c'| ==>
              c'[j] == if j <= i then c[j] else if j == i + 1 then own else c[j - 1]
  {
  }

  /** The successful `pred->mNext` CAS of `add` and `insertSentinel` puts `own` behind `pred`. */
  lemma LinkIntoChain(heap: seq<Node>, c: seq<nat>, i: nat, own: int, heap': seq<Node>, c': seq<nat>)
    requires ChainOk(heap, c)
    requires i + 1 < |c| && Fits(heap, c, c[i], c[i + 1], own) && own !in c && heap[own].next == c[i + 1]
    requires c' == c[..i + 1] + [own] + c[i + 1..] && heap' == heap[c[i] := heap[c[i]].(next := own)]
    ensures ChainOk(heap', c')
  {
    LinkedLinks(heap, c, i, own, heap', c');
    hide Before, Fits;
    forall a, b | 0 <= a < b < |c'| ensures c'[a] != c'[b] && Before(heap'[c'[a]], heap'[c'[b]]) {
      LinkedOrder(heap, c, i, own, heap', c', a, b);
    }
  }

  lemma LinkedLinks(heap: seq<Node>, c: seq<nat>, i: nat, own: int, heap': seq<Node>, c': seq<nat>)
    requires ChainOk(heap, c) && i + 1 < |c| && 0 <= own < |heap| && own !in c && heap[own].next == c[i + 1]
    requires c' == c[..i + 1] + [own] + c[i + 1..] && heap' == heap[c[i] := heap[c[i]].(next := own)]
    ensures |c'| == |c| + 1 && c'[0] == HEAD && c'[|c'| - 1] == LAST
    ensures forall j :: 0 <= j < |c'| ==> c'[j] < |heap'|
    ensures forall j :: 0 <= j < |c'| - 1 ==> heap'[c'[j]].next == c'[j + 1]
  {
    InsertedAt(c, i, own);
    hide Before;
    forall j | 0 <= j < |c'| - 1 ensures heap'[c'[j]].next == c'[j + 1] {
      if j < i {
        assert c[j] != c[i] && heap[c[j]].next == c[j + 1];
      } else if j > i + 1 {
        assert c[j - 1] != c[i] && heap[c[j - 1]].next == c[j];
      }
    }
  }

  lemma LinkedOrder(heap: seq<Node>, c: seq<nat>, i: nat, own: int, heap': seq<Node>, c': seq<nat>, a: nat, b: nat)
    requires ChainOk(heap, c)
    requires i + 1 < |c| && Fits(heap, c, c[i], c[i + 1], own) && own !in c
    requires c' == c[..i + 1] + [own] + c[i + 1..] && heap' == heap[c[i] := heap[c[i]].(next := own)]
    requires a < b < |c'|
    ensures c'[a] < |heap'| && c'[b] < |heap'| && c'[a] != c'[b] && Before(heap'[c'[a]], heap'[c'[b]])
  {
    if b == i + 1 {
      LinkedBefore(heap, c, i, own, a);
    } else if a == i + 1 {
      LinkedAfter(heap, c, i, own, b - 1);
    } else {
      assert Before(heap[c[if a <= i then a else a - 1]], heap[c[if b <= i then b else b - 1]]);
    }
  }

  lemma LinkedBefore(heap: seq<Node>, c: seq<nat>, i: nat, own: int, a: nat)
    requires ChainOk(heap, c) && i + 1 < |c| && Fits(heap, c, c[i], c[i + 1], own)
    requires a <= i
    ensures Before(heap[c[a]], heap[own])
  {
    if a < i {
      assert Before(heap[c[a]], heap[c[i]]);
      if heap[own].item.Entry? {
        assert !heap[c[a]].HasKey(heap[own].item.key);
      }
    }
  }

  lemma LinkedAfter(heap: seq<Node>, c: seq<nat>, i: nat, own: int, b: nat)
    requires ChainOk(heap, c) && i + 1 < |c| && Fits(heap, c, c[i], c[i + 1], own)
    requires i < b < |c|
    ensures Before(heap[own], heap[c[b]])
  {
    if i + 1 < b {
      assert Before(heap[c[i + 1]], heap[c[b]]);
    }
  }

  lemma LinkKeepsPublished(heap: seq<Node>, c: seq<nat>, pub: set<nat>, i: nat, own: nat, heap': seq<Node>,
      c': seq<nat>)
    requires PublishedOk(heap, c, pub) && i + 1 < |c| && own < |heap| && heap[own].next == c[i + 1]
    requires c' == c[..i + 1] + [own] + c[i + 1..] && heap' == heap[c[i] := heap[c[i]].(next := own)]
    ensures PublishedOk(heap', c', pub + {own})
  {
    InsertedAt(c, i, own);
    LinksKept(heap, c, pub, heap', pub + {own});
    assert LeadsOn(heap', pub + {own}, own);
    forall n | n in pub + {own} && !heap'[n].mark ensures n in c' {
      if n != own {
        var j :| 0 <= j < |c| && c[j] == n;
        assert c'[if j <= i then j else j + 1] == n;
      } else {
        assert c'[i + 1] == own;
      }
    }
  }

  function WithItem(m: map<Key, Value>, item: Item): map<Key, Value> {
    if item.Entry? then m[item.key := item.value] else m
  }

  lemma LinkKeepsModel(heap: seq<Node>, c: seq<nat>, m: map<Key, Value>, i: nat, own: nat, heap': seq<Node>,
      c': seq<nat>)
    requires ModelOk(heap, c, m) && i + 1 < |c| && own < |heap| && own !in c && !heap[own].mark
    requires forall j :: 0 <= j < |c| ==> c[j] < |heap|
    requires heap[own].item.Entry? ==> heap[own].item.key !in m
    requires c' == c[..i + 1] + [own] + c[i + 1..] && heap' == heap[c[i] := heap[c[i]].(next := own)]
    ensures ModelOk(heap', c', WithItem(m, heap[own].item))
  {
    var item := heap[own].item;
    var m' := WithItem(m, item);
    InsertedAt(c, i, own);
    forall k | k in m' ensures Somewhere(heap', c', k) {
      if item.Entry? && k == item.key {
        assert heap'[c'[i + 1]].LiveKey(k);
      } else {
        assert Somewhere(heap, c, k);
        var j :| 0 <= j < |c| && heap[c[j]].LiveKey(k);
        assert heap'[c'[if j <= i then j else j + 1]].LiveKey(k);
      }
    }
    forall j | 0 <= j < |c'| ensures Holds(m', heap'[c'[j]]) {
      if j != i + 1 {
        assert Holds(m, heap[c[if j <= i then j else j - 1]]);
      }
    }
  }

  /** Nothing at or before position `i` has key `k`, and everything behind it is too large: `k` is absent. */
  lemma KeyAbsent(cfg: Config, heap: seq<Node>, c: seq<nat>, m: map<Key, Value>, i: nat, k: Key)
    requires cfg.width >= 2 && HeapOk(cfg, heap) && ChainOk(heap, c) && ModelOk(heap, c, m)
    requires i + 1 < |c| && heap[c[i + 1]].hash > OrdKey(cfg, k)
    requires NoneBefore(heap, c, c[i], k) && !heap[c[i]].HasKey(k)
    ensures k !in m
  {
    forall j | 0 <= j < |c| ensures !heap[c[j]].HasKey(k) {
      assert NodeOk(cfg, c[j], heap[c[j]]);
      assert j <= i + 1 || Before(heap[c[i + 1]], heap[c[j]]);
    }
    assert k in m ==> Somewhere(heap, c, k);
  }

  /** A node linked behind position `i` does not come before a node that a walk for `k` may reach. */
  lemma LinkKeepsNoneBefore(cfg: Config, heap: seq<Node>, c: seq<nat>, i: nat, own: int, n: int, k: Key)
    requires cfg.width >= 2 && HeapOk(cfg, heap) && ChainOk(heap, c)
    requires i + 1 < |c| && Fits(heap, c, c[i], c[i + 1], own) && n != own
    requires 0 <= n < |heap| && heap[n].hash <= OrdKey(cfg, k) && NoneBefore(heap, c, n, k)
    ensures NoneBefore(heap[c[i] := heap[c[i]].(next := own)], c[..i + 1] + [own] + c[i + 1..], n, k)
  {
    var heap', c' := heap[c[i] := heap[c[i]].(next := own)], c[..i + 1] + [own] + c[i + 1..];
    InsertedAt(c, i, own);
    assert 0 <= own < |heap| && forall j :: 0 <= j < |c| ==> c[j] < |heap|;
    hide HeapOk, ChainOk, Fits, OrdKey, NoneBefore;
    forall a, b | 0 <= b < a < |c'| && c'[a] == n && 0 <= c'[b] < |heap'| ensures !heap'[c'[b]].HasKey(k) {
      if b == i + 1 {
        BehindIsLarger(cfg, heap, c, i, own, a - 1, k);
      } else {
        NotBefore(heap, c, n, k, if a <= i then a else a - 1, if b <= i then b else b - 1);
      }
    }
    NoneBeforeIf(heap', c', n, k);
  }

  lemma NotBefore(heap: seq<Node>, c: seq<nat>, n: int, k: Key, a: nat, b: nat)
    requires NoneBefore(heap, c, n, k) && b < a < |c| && c[a] == n && c[b] < |heap|
    ensures !heap[c[b]].HasKey(k)
  {
  }

  lemma NoneBeforeIf(heap: seq<Node>, c: seq<nat>, n: int, k: Key)
    requires forall a, b :: 0 <= b < a < |c| && c[a] == n && 0 <= c[b] < |heap| ==> !heap[c[b]].HasKey(k)
    ensures NoneBefore(heap, c, n, k)
  {
  }

  /** Behind a node with key `k` that fits at position `i`, everything is larger than the key. */
  lemma BehindIsLarger(cfg: Config, heap: seq<Node>, c: seq<nat>, i: nat, own: int, a: nat, k: Key)
    requires cfg.width >= 2 && HeapOk(cfg, heap) && ChainOk(heap, c)
    requires i + 1 < |c| && Fits(heap, c, c[i], c[i + 1], own) && i < a < |c|
    ensures heap[own].HasKey(k) ==> heap[c[a]].hash > OrdKey(cfg, k)
  {
    assert NodeOk(cfg, own, heap[own]);
    assert a > i + 1 ==> Before(heap[c[i + 1]], heap[c[a]]);
  }

  lemma LinkKeepsWalks(cfg: Config, heap: seq<Node>, x: Aux, i: nat, own: int)
    requires var c := x.chain;
             && cfg.width >= 2 && HeapOk(cfg, heap) && ChainOk(heap, c)
             && i + 1 < |c| && Fits(heap, c, c[i], c[i + 1], own) && own !in x.published
    ensures var c := x.chain;
            WalksSurvive(cfg, heap, x, heap[c[i] := heap[c[i]].(next := own)], c[..i + 1] + [own] + c[i + 1..])
  {
    hide NoneBefore, HeapOk;
    var c := x.chain;
    forall n, k | n in x.published && 0 <= n < |heap| && heap[n].hash <= OrdKey(cfg, k) && NoneBefore(heap, c, n, k)
      ensures NoneBefore(heap[c[i] := heap[c[i]].(next := own)], c[..i + 1] + [own] + c[i + 1..], n, k)
    {
      LinkKeepsNoneBefore(cfg, heap, c, i, own, n, k);
    }
  }

  /** The successful marking CAS of `remove` leaves the chain as it is. */
  lemma MarkInChain(cfg: Config, heap: seq<Node>, c: seq<nat>, pub: set<nat>, cur: int, heap': seq<Node>)
    requires cfg.width >= 2 && HeapOk(cfg, heap) && ChainOk(heap, c) && PublishedOk(heap, c, pub)
    requires cur in pub && heap[cur].item.Entry? && heap' == heap[cur := heap[cur].(mark := true)]
    ensures HeapOk(cfg, heap') && ChainOk(heap', c) && PublishedOk(heap', c, pub)
  {
    assert NodeOk(cfg, cur, heap[cur]);
    LinksKept(heap, c, pub, heap', pub);
    forall a, b | 0 <= a < b < |c| ensures Before(heap'[c[a]], heap'[c[b]]) {
      assert Before(heap[c[a]], heap[c[b]]);
    }
  }

  lemma MarkKeepsWalks(heap: seq<Node>, c: seq<nat>, cur: int, heap': seq<Node>)
    requires 0 <= cur < |heap| && heap' == heap[cur := heap[cur].(mark := true)]
    ensures forall n, q :: NoneBefore(heap, c, n, q) ==> NoneBefore(heap', c, n, q)
  {
    forall n, q | NoneBefore(heap, c, n, q) ensures NoneBefore(heap', c, n, q) {
      forall a, b | 0 <= b < a < |c| && c[a] == n && 0 <= c[b] < |heap'| ensures !heap'[c[b]].HasKey(q) {
        assert !heap[c[b]].HasKey(q);
      }
    }
  }

  /** It deletes the element from the map. */
  lemma MarkRemoves(cfg: Config, heap: seq<Node>, c: seq<nat>, m: map<Key, Value>, i: nat, heap': seq<Node>)
    requires cfg.width >= 2 && HeapOk(cfg, heap) && ChainOk(heap, c) && ModelOk(heap, c, m)
    requires i < |c| && heap[c[i]].item.Entry? && !heap[c[i]].mark && heap' == heap[c[i] := heap[c[i]].(mark := true)]
    ensures heap[c[i]].item.key in m && ModelOk(heap', c, m - {heap[c[i]].item.key})
  {
    var k := heap[c[i]].item.key;
    var m' := m - {k};
    assert Holds(m, heap[c[i]]);
    assert NodeOk(cfg, c[i], heap[c[i]]);
    forall j | 0 <= j < |c| ensures Holds(m', heap'[c[j]]) {
      assert Holds(m, heap[c[j]]);
      assert NodeOk(cfg, c[j], heap[c[j]]);
      assert j < i ==> Before(heap[c[j]], heap[c[i]]);
      assert i < j ==> Before(heap[c[i]], heap[c[j]]);
    }
    forall q | q in m' ensures Somewhere(heap', c, q) {
      assert Somewhere(heap, c, q);
      var j :| 0 <= j < |c| && heap[c[j]].LiveKey(q);
      assert heap'[c[j]].LiveKey(q);
    }
  }

  // ---------------------------------------------------------------- threads that do not step

  ghost predicate SeenGrows(a: Seen, b: Seen) {
    (a.absent ==> b.absent) && (a.present ==> b.present) && a.effects == b.effects
  }

  lemma PredSurvives(s: State, x: Aux, s': State, x': Aux, own: int, th: Thread, n: int)
    requires s.cfg.width >= 3 && th.Busy? && Evolves(s, x, s', x', own)
    requires PredOk(s, x, th, n)
    ensures PredOk(s', x', th, n)
  {
  }

  lemma CurSurvives(s: State, x: Aux, s': State, x': Aux, own: int, th: Thread, seen: Seen, seen': Seen, n: int)
    requires s.cfg.width >= 3 && th.Busy? && Evolves(s, x, s', x', own) && SeenGrows(seen, seen')
    requires CurOk(s, x, th, seen, n)
    ensures CurOk(s', x', th, seen', n)
  {
  }

  lemma WalkSurvives(s: State, x: Aux, s': State, x': Aux, own: int, th: Thread, seen: Seen, seen': Seen)
    requires s.cfg.width >= 3 && th.Busy? && Evolves(s, x, s', x', own) && SeenGrows(seen, seen')
    requires WalkOk(s, x, th, seen) && (th.node != NULL ==> th.node != own)
    ensures WalkOk(s', x', th, seen')
    ensures NeedsNode(th) ==> s'.heap[th.node] == s.heap[th.node]
  {
  }

  predicate Searching(pc: Pc) { pc.LoadNext? || pc.Unlink? || pc.Found? || pc.LinkNode? }

  predicate Removing(pc: Pc) { pc.LoadVictim? || pc.MarkVictim? || pc.UnlinkVictim? }

  lemma SearchSurvives(s: State, x: Aux, s': State, x': Aux, own: int, th: Thread, seen: Seen, seen': Seen)
    requires s.cfg.width >= 3 && th.Busy? && Evolves(s, x, s', x', own) && SeenGrows(seen, seen')
    requires PcOk(s, x, th, seen) && (own != NULL ==> OwnNode(th) != own)
    requires Searching(th.pc)
    ensures PcOk(s', x', th, seen')
  {
    WalkSurvives(s, x, s', x', own, th, seen, seen');
    PredSurvives(s, x, s', x', own, th, th.pc.pred);
    CurSurvives(s, x, s', x', own, th, seen, seen', th.pc.cur);
  }

  lemma RemovalSurvives(s: State, x: Aux, s': State, x': Aux, own: int, th: Thread, seen: Seen, seen': Seen)
    requires s.cfg.width >= 3 && th.Busy? && Evolves(s, x, s', x', own) && SeenGrows(seen, seen')
    requires PcOk(s, x, th, seen) && (own != NULL ==> OwnNode(th) != own)
    requires Removing(th.pc)
    ensures PcOk(s', x', th, seen')
  {
    if !th.pc.UnlinkVictim? {
      WalkSurvives(s, x, s', x', own, th, seen, seen');
    }
    PredSurvives(s, x, s', x', own, th, th.pc.pred);
  }

  lemma EarlySurvives(s: State, x: Aux, s': State, x': Aux, own: int, th: Thread, seen: Seen, seen': Seen)
    requires s.cfg.width >= 3 && th.Busy? && Evolves(s, x, s', x', own) && SeenGrows(seen, seen')
    requires PcOk(s, x, th, seen) && (own != NULL ==> OwnNode(th) != own)
    requires th.pc.StartWalk? || th.pc.LoadFirst?
    ensures PcOk(s', x', th, seen')
  {
    WalkSurvives(s, x, s', x', own, th, seen, seen');
    if th.pc.LoadFirst? {
      PredSurvives(s, x, s', x', own, th, th.pc.pred);
    }
  }

  lemma PcSurvives(s: State, x: Aux, s': State, x': Aux, own: int, th: Thread, seen: Seen, seen': Seen)
    requires s.cfg.width >= 3 && th.Busy? && Evolves(s, x, s', x', own) && SeenGrows(seen, seen')
    requires PcOk(s, x, th, seen) && (own != NULL ==> OwnNode(th) != own)
    ensures PcOk(s', x', th, seen')
  {
    if Searching(th.pc) {
      SearchSurvives(s, x, s', x', own, th, seen, seen');
    } else if Removing(th.pc) {
      RemovalSurvives(s, x, s', x', own, th, seen, seen');
    } else if th.pc.StartWalk? || th.pc.LoadFirst? {
      EarlySurvives(s, x, s', x', own, th, seen, seen');
    }
  }

  lemma ThreadSurvives(s: State, x: Aux, s': State, x': Aux, own: int, th: Thread, seen: Seen, seen': Seen)
    requires s.cfg.width >= 3 && Evolves(s, x, s', x', own) && (th.Busy? ==> SeenGrows(seen, seen'))
    requires ThreadOk(s, x, th, seen) && (own != NULL ==> OwnNode(th) != own)
    ensures ThreadOk(s', x', th, seen')
  {
    if th.Busy? {
      PcSurvives(s, x, s', x', own, th, seen, seen');
    }
  }

  // ---------------------------------------------------------------- putting a step together

  /** What is known of the stepping thread before its step. */
  ghost predicate Local(s: State, x: Aux, t: nat, seen: Seen) {
    && ListOk(s, x) && t < |s.threads| && s.threads[t].Busy?
    && PendingOk(s, s.threads[t]) && PcOk(s, x, s.threads[t], seen)
  }

  /** What is established after it. */
  ghost predicate Outcome(s: State, x: Aux, s': State, y: Aux, t: nat, seen': Seen)
    requires s.cfg.width >= 3 && t < |s.threads|
  {
    && |s'.threads| == |s.threads| && s'.threads == s.threads[t := s'.threads[t]]
    && ListOk(s', y)
    && Evolves(s, x, s', y, OwnNode(s.threads[t]))
    && ThreadOk(s', y, s'.threads[t], seen')
    && OwnStep(s, s.threads[t], s'.threads[t])
  }

  lemma TotalOwedUpdate(ths: seq<Thread>, t: nat, th: Thread)
    requires t < |ths|
    ensures TotalOwed(ths[t := th]) == TotalOwed(ths) - Owed(ths[t]) + Owed(th)
  {
    var debts := seq(|ths|, u requires 0 <= u < |ths| => Owed(ths[u]));
    SumUpdate(debts, t, Owed(th));
    assert debts[t := Owed(th)] == seq(|ths|, u requires 0 <= u < |ths| => Owed(ths[t := th][u]));
  }

  /** The thread's private node after a step: none, the same one, or a fresh one. */
  ghost predicate OwnStep(s: State, th: Thread, th': Thread) {
    OwnNode(th') == NULL || OwnNode(th') == OwnNode(th) || OwnNode(th') >= |s.heap|
  }

  /** What the counter owes changes with the map and the counter. */
  ghost predicate SizeStep(s: State, x: Aux, s': State, x': Aux, t: nat)
    requires t < |s.threads| == |s'.threads|
  {
    && 0 <= s'.size < SIZE_RANGE
    && (s'.size - s.size + Owed(s'.threads[t]) - Owed(s.threads[t]) - |x'.model| + |x.model|) % SIZE_RANGE == 0
  }

  /** What a step lemma has to establish, for the auxiliary data `y` without its observations. */
  ghost predicate StepOk(s: State, a: Step, x: Aux, s': State, y: Aux)
    requires s.cfg.width >= 3 && Enabled(s, a) && |x.seen| == |s.threads|
  {
    && |s'.threads| == |s.threads|
    && Outcome(s, x, s', y, a.t, Observe(s, a, s', y.model, x.seen[a.t], a.t))
    && ModelStep(x.model, EventOf(s, a), y.model)
    && SizeStep(s, x, s', y, a.t)
  }

  lemma ThreadsAssemble(s: State, a: Step, x: Aux, s': State, y: Aux, x': Aux)
    requires Inv(s, x) && Enabled(s, a) && StepOk(s, a, x, s', y)
    requires x'.chain == y.chain && x'.published == y.published && x'.model == y.model
    requires SeenStep(s, a, x, s', x')
    ensures forall u :: 0 <= u < |s'.threads| ==> ThreadOk(s', x', s'.threads[u], x'.seen[u])
  {
    var own := OwnNode(s.threads[a.t]);
    hide ListOk, Evolves, PendingOk, PcOk, OwnStep, SizeStep, ModelStep;
    SeenIrrelevant(s, x, s', y, x', own);
    forall u | 0 <= u < |s'.threads| ensures ThreadOk(s', x', s'.threads[u], x'.seen[u]) {
      var th := s'.threads[u];
      if u == a.t {
        PcSeenIrrelevant(s', y, x', th, x'.seen[u]);
      } else {
        OtherAssembles(s, a, x, s', x', u);
      }
    }
  }

  lemma OtherAssembles(s: State, a: Step, x: Aux, s': State, x': Aux, u: nat)
    requires Inv(s, x) && Enabled(s, a) && u < |s.threads| == |s'.threads| && u != a.t && s'.threads[u] == s.threads[u]
    requires Evolves(s, x, s', x', OwnNode(s.threads[a.t])) && SeenStep(s, a, x, s', x')
    ensures ThreadOk(s', x', s'.threads[u], x'.seen[u])
  {
    var own, th := OwnNode(s.threads[a.t]), s.threads[u];
    assert ThreadOk(s, x, th, x.seen[u]);
    assert own != NULL ==> OwnNode(th) != own;
    hide ListOk, Evolves, PendingOk, PcOk;
    ThreadSurvives(s, x, s', x', own, th, x.seen[u], x'.seen[u]);
    hide ThreadOk;
  }

  lemma NodesAssemble(s: State, a: Step, x: Aux, s': State, y: Aux)
    requires Inv(s, x) && Enabled(s, a) && StepOk(s, a, x, s', y)
    ensures NodesDistinct(s'.threads)
  {
    forall u, v | 0 <= u < v < |s'.threads| && OwnNode(s'.threads[u]) != NULL
      ensures OwnNode(s'.threads[u]) != OwnNode(s'.threads[v])
    {
      OwnInRange(s, x, u);
      OwnInRange(s, x, v);
    }
  }

  lemma SizeMoves(s: State, x: Aux, s': State, y: Aux, t: nat)
    requires t < |s.threads| == |s'.threads| && s'.threads == s.threads[t := s'.threads[t]]
    requires (s.size + TotalOwed(s.threads) - |x.model|) % SIZE_RANGE == 0 && SizeStep(s, x, s', y, t)
    ensures (s'.size + TotalOwed(s'.threads) - |y.model|) % SIZE_RANGE == 0
  {
    TotalOwedUpdate(s.threads, t, s'.threads[t]);
    hide Owed, TotalOwed;
    SumOfMultiples(s.size + TotalOwed(s.threads) - |x.model|,
                   s'.size - s.size + Owed(s'.threads[t]) - Owed(s.threads[t]) - |y.model| + |x.model|, SIZE_RANGE);
  }

  lemma Assemble(s: State, a: Step, x: Aux, s': State, y: Aux) returns (x': Aux)
    requires Inv(s, x) && Enabled(s, a) && StepOk(s, a, x, s', y)
    ensures Inv(s', x') && SeenStep(s, a, x, s', x') && x'.model == y.model
    ensures Evolves(s, x, s', x', OwnNode(s.threads[a.t]))
  {
    hide Evolves, ThreadOk, ModelStep, HeapOk, ChainOk, ModelOk, SlotsOk, PublishedOk, OwnStep;
    var seen' := seq(|s.threads|, u requires 0 <= u < |s.threads| => Observe(s, a, s', y.model, x.seen[u], u));
    x' := y.(seen := seen');
    ThreadsAssemble(s, a, x, s', y, x');
    NodesAssemble(s, a, x, s', y);
    SizeMoves(s, x, s', y, a.t);
    SeenIrrelevant(s, x, s', y, x', OwnNode(s.threads[a.t]));
  }

  lemma OwnInRange(s: State, x: Aux, t: nat)
    requires Inv(s, x) && t < |s.threads|
    ensures OwnNode(s.threads[t]) < |s.heap|
  {
    assert ThreadOk(s, x, s.threads[t], x.seen[t]);
  }

  lemma SeenIrrelevant(s: State, x: Aux, s': State, y: Aux, x': Aux, own: int)
    requires s.cfg.width >= 3 && ListOk(s', y) && Evolves(s, x, s', y, own)
    requires x'.chain == y.chain && x'.published == y.published && x'.model == y.model
    ensures ListOk(s', x') && Evolves(s, x, s', x', own)
  {
  }

  lemma PcSeenIrrelevant(s: State, y: Aux, x': Aux, th: Thread, seen: Seen)
    requires s.cfg.width >= 3 && ThreadOk(s, y, th, seen)
    requires x'.chain == y.chain && x'.published == y.published
    ensures ThreadOk(s, x', th, seen)
  {
    if th.Busy? {
      PredSeenIrrelevant(s, y, x', th, seen);
      hide PendingOk, WalkOk, PredOk, CurOk;
      match th.pc
      case _ =>
    }
  }

  lemma PredSeenIrrelevant(s: State, y: Aux, x': Aux, th: Thread, seen: Seen)
    requires s.cfg.width >= 3 && th.Busy? && x'.chain == y.chain && x'.published == y.published
    ensures WalkOk(s, y, th, seen) ==> WalkOk(s, x', th, seen)
    ensures forall n :: PredOk(s, y, th, n) ==> PredOk(s, x', th, n)
    ensures forall n :: CurOk(s, y, th, seen, n) ==> CurOk(s, x', th, seen, n)
  {
  }
}
