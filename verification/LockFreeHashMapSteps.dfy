/**
  One lemma per program point of the lock-free hash map, and the theorems over whole runs.
*/
module LockFreeHashMapSteps {
  import opened Arithmetic
  import opened Sequences
  import opened SplitOrder
  import opened LockFreeHashMap
  import opened LockFreeHashMapProof

  // ---------------------------------------------------------------- facts about walks

  /** Nothing with key `k` lies before a linked node whose hash is smaller. */
  lemma SentinelClear(cfg: Config, heap: seq<Node>, c: seq<nat>, n: int, k: Key)
    requires cfg.width >= 2 && HeapOk(cfg, heap) && ChainOk(heap, c)
    requires 0 <= n < |heap| && heap[n].hash < OrdKey(cfg, k)
    ensures NoneBefore(heap, c, n, k)
  {
    forall i, j | 0 <= j < i < |c| && c[i] == n && 0 <= c[j] < |heap| ensures !heap[c[j]].HasKey(k) {
      assert Before(heap[c[j]], heap[c[i]]);
      assert NodeOk(cfg, c[j], heap[c[j]]);
    }
  }

  /** The walk starts at a sentinel that precedes everything it looks for. */
  lemma StartPrecedes(s: State, x: Aux, th: Thread, pred: int)
    requires ListOk(s, x) && th.Busy? && PendingOk(s, th)
    requires StartIndex(s.cfg, th) in s.slots && pred == s.slots[StartIndex(s.cfg, th)]
    ensures PredOk(s, x, th, pred) && s.heap[pred].item.Sentinel?
  {
    var w, b := s.cfg.width, StartIndex(s.cfg, th);
    assert SlotOk(s.cfg, s.heap, x.published, b, pred);
    if th.pending == [] {
      LowOfSmall(s.cfg.hash(th.op.key), th.bits);
      SplitOrderInterval(w, th.bits, s.cfg.hash(th.op.key), b);
      SentinelClear(s.cfg, s.heap, x.chain, pred, th.op.key);
    } else {
      ParentPrecedes(w, th.bits, Top(th));
    }
  }

  /** What lies behind a good predecessor at the moment its link is read. */
  lemma SuccessorOk(s: State, x: Aux, th: Thread, i: nat)
    requires ListOk(s, x) && th.Busy?
    requires i + 1 < |x.chain| && PredOk(s, x, th, x.chain[i])
    ensures var n := x.chain[i + 1];
            && IsNode(s, n) && n in x.published
            && (th.pending == [] ==>
                  if s.heap[n].hash <= TargetHash(s.cfg, th) then NoneBefore(s.heap, x.chain, n, th.op.key)
                  else th.op.key !in x.model)
  {
    var c, n := x.chain, x.chain[i + 1];
    if th.pending == [] {
      if s.heap[n].hash <= TargetHash(s.cfg, th) {
        forall a, b | 0 <= b < a < |c| && c[a] == n && 0 <= c[b] < |s.heap| ensures !s.heap[c[b]].HasKey(th.op.key) {
          assert a == i + 1;
        }
      } else {
        KeyAbsent(s.cfg, s.heap, c, x.model, i, th.op.key);
      }
    }
  }

  // ---------------------------------------------------------------- allocation and recursion

  lemma BeginWalkOk(s: State, x: Aux, t: nat, th: Thread, seen: Seen)
    requires ListOk(s, x) && t < |s.threads| && th.Busy? && PendingOk(s, th)
    requires th.node == NULL && seen.effects == 0 && StartIndex(s.cfg, th) in s.slots
    ensures var s' := BeginWalk(s, t, th);
            && ListOk(s', x) && Evolves(s, x, s', x, NULL)
            && ThreadOk(s', x, s'.threads[t], seen)
            && s'.threads[t].Busy? && (s'.threads[t].pc.StartWalk? || s'.threads[t].pc.GetHead?)
            && (OwnNode(s'.threads[t]) == NULL || OwnNode(s'.threads[t]) == |s.heap|)
  {
    var s' := BeginWalk(s, t, th);
    if NeedsNode(th) {
      var item := if th.pending == [] then Entry(th.op.key, th.op.value) else Sentinel;
      var node := Node(TargetHash(s.cfg, th), item, NULL, false);
      KeyShape(s.cfg.width, if th.pending == [] then s.cfg.hash(th.op.key) else Top(th));
      NewNode(s, x, s', node);
    } else {
      SameList(s, x, s');
    }
  }

  lemma PopSentinelOk(s: State, x: Aux, t: nat, th: Thread, seen: Seen)
    requires ListOk(s, x) && t < |s.threads| && th.Busy? && PendingOk(s, th)
    requires th.pending != [] && Top(th) in s.slots && seen.effects == 0
    ensures var s' := PopSentinel(s, t, th);
            && ListOk(s', x) && Evolves(s, x, s', x, NULL)
            && ThreadOk(s', x, s'.threads[t], seen)
            && s'.threads[t].Busy? && (s'.threads[t].pc.StartWalk? || s'.threads[t].pc.GetHead?)
            && (OwnNode(s'.threads[t]) == NULL || OwnNode(s'.threads[t]) == |s.heap|)
  {
    var n := |th.pending|;
    var th' := th.(pending := th.pending[..n - 1], node := NULL);
    assert StartIndex(s.cfg, th') == Top(th) by {
      if n > 1 { assert th.pending[n - 1] == ParentOf(th.pending[n - 2]); }
    }
    BeginWalkOk(s, x, t, th', seen);
  }

  // ---------------------------------------------------------------- one lemma per program point

  lemma ListBounds(s: State, x: Aux)
    requires ListOk(s, x)
    ensures s.cfg.width >= 3 && 1 <= s.bits <= s.cfg.width - 2
  {
  }

  /** The thread part of an invariant depends on no thread but its own. */
  lemma SameThread(s: State, x: Aux, s': State, th: Thread, seen: Seen)
    requires ListOk(s, x) && ThreadOk(s, x, th, seen)
    requires s'.cfg == s.cfg && s'.heap == s.heap && s'.slots == s.slots && s.bits <= s'.bits <= s.cfg.width - 2
    ensures ThreadOk(s', x, th, seen)
  {
    SameList(s, x, s');
    hide ListOk, Evolves, PcOk, PendingOk, OwnNode, ThreadOk;
    ThreadSurvives(s, x, s', x, NULL, th, seen, seen);
  }

  lemma EvolvesAlone(s: State, x: Aux, s': State, y: Aux, own: int)
    requires s.cfg.width >= 3 && Evolves(s, x, s', y, NULL)
    ensures Evolves(s, x, s', y, own)
  {
    hide WalksSurvive;
  }

  /** A step that leaves the list alone. */
  lemma Reread(s: State, x: Aux, s': State, t: nat, seen': Seen)
    requires ListOk(s, x) && t < |s.threads| == |s'.threads| && s'.threads == s.threads[t := s'.threads[t]]
    requires s'.cfg == s.cfg && s'.heap == s.heap && s'.slots == s.slots && s.bits <= s'.bits <= s.cfg.width - 2
    requires ThreadOk(s, x, s'.threads[t], seen') && OwnStep(s, s.threads[t], s'.threads[t])
    ensures Outcome(s, x, s', x, t, seen')
  {
    SameList(s, x, s');
    hide ListOk, Evolves, ThreadOk, OwnStep;
    ListBounds(s, x);
    SameThread(s, x, s', s'.threads[t], seen');
    EvolvesAlone(s, x, s', x, OwnNode(s.threads[t]));
  }

  /** Moving the program counter keeps what is known about the walk. */
  lemma Relabel(s: State, x: Aux, th: Thread, seen: Seen, seen': Seen, pc: Pc)
    requires s.cfg.width >= 3 && th.Busy? && PendingOk(s, th) && SeenGrows(seen, seen')
    ensures var th' := th.(pc := pc);
            && PendingOk(s, th') && TargetHash(s.cfg, th') == TargetHash(s.cfg, th)
            && StartIndex(s.cfg, th') == StartIndex(s.cfg, th) && NeedsNode(th') == NeedsNode(th)
            && (WalkOk(s, x, th, seen) ==> WalkOk(s, x, th', seen'))
            && (forall n :: PredOk(s, x, th, n) ==> PredOk(s, x, th', n))
            && (forall n :: CurOk(s, x, th, seen, n) ==> CurOk(s, x, th', seen', n))
  {
  }

  /** The node behind a predecessor, at the moment its link is read. */
  lemma Follow(s: State, x: Aux, th: Thread, seen: Seen, pred: int)
    requires ListOk(s, x) && th.Busy? && PredOk(s, x, th, pred) && !s.heap[pred].mark
    requires th.op.key !in x.model ==> seen.absent
    ensures CurOk(s, x, th, seen, s.heap[pred].next)
  {
    var i := LinkedPair(s.heap, x.chain, x.published, pred);
    SuccessorOk(s, x, th, i);
  }

  lemma AtLoadSlot(s: State, x: Aux, t: nat, seen: Seen, seen': Seen)
    requires Local(s, x, t, seen) && s.threads[t].pc.LoadSlot?
    requires seen' == Sees(seen, KeyOf(s, t), x.model, 0)
    ensures Outcome(s, x, DoLoadSlot(s, t), x, t, seen')
  {
    hide ListOk, Evolves, PendingOk;
    ListBounds(s, x);
    var th, s' := s.threads[t], DoLoadSlot(s, t);
    var i := StartIndex(s.cfg, th);
    if i in s.slots {
      BeginWalkOk(s, x, t, th, seen');
    } else {
      DescendOk(s, x, th, seen');
      Reread(s, x, s', t, seen');
    }
    hide ThreadOk;
  }

  /** The recursive call of `insertSentinel`. */
  lemma DescendOk(s: State, x: Aux, th: Thread, seen: Seen)
    requires ListOk(s, x) && th.Busy? && th.pc.LoadSlot? && th.node == NULL && seen.effects == 0 && PendingOk(s, th)
    requires StartIndex(s.cfg, th) !in s.slots
    ensures ThreadOk(s, x, th.(pending := th.pending + [StartIndex(s.cfg, th)]), seen)
  {
    assert 0 in s.slots;
    hide ListOk;
    if th.pending == [] {
      LowOfSmall(s.cfg.hash(th.op.key), th.bits);
    }
  }

  lemma AtStartWalk(s: State, x: Aux, t: nat, seen: Seen, seen': Seen, s': State)
    requires Local(s, x, t, seen) && s.threads[t].pc.StartWalk?
    requires seen' == Sees(seen, KeyOf(s, t), x.model, 0)
    requires s' == Goto(s, t, LoadFirst(s.slots[StartIndex(s.cfg, s.threads[t])]))
    ensures Outcome(s, x, s', x, t, seen')
  {
    var th, pred := s.threads[t], s.slots[StartIndex(s.cfg, s.threads[t])];
    hide ListOk, PendingOk;
    ListBounds(s, x);
    StartPrecedes(s, x, th, pred);
    Relabel(s, x, th, seen, seen', LoadFirst(pred));
    hide WalkOk, PredOk;
    Reread(s, x, s', t, seen');
  }

  lemma AtLoadFirst(s: State, x: Aux, t: nat, seen: Seen, seen': Seen, s': State)
    requires Local(s, x, t, seen) && s.threads[t].pc.LoadFirst?
    requires seen' == Sees(seen, KeyOf(s, t), x.model, 0)
    requires s' == Goto(s, t, LoadNext(s.threads[t].pc.pred, s.heap[s.threads[t].pc.pred].next))
    ensures Outcome(s, x, s', x, t, seen')
  {
    var th, pred := s.threads[t], s.threads[t].pc.pred;
    assert NodeOk(s.cfg, pred, s.heap[pred]) && IsNode(s, pred);
    hide ListOk, PendingOk;
    ListBounds(s, x);
    Follow(s, x, th, seen', pred);
    Relabel(s, x, th, seen, seen', LoadNext(pred, s.heap[pred].next));
    Relabel(s, x, th, seen', seen', LoadNext(pred, s.heap[pred].next));
    hide WalkOk, PredOk, CurOk;
    Reread(s, x, s', t, seen');
  }

  /** The exit test of `find` stops at a match or behind the target. */
  lemma StopsMeans(s: State, x: Aux, th: Thread, n: int)
    requires ListOk(s, x) && th.Busy? && IsNode(s, n)
    ensures TargetHash(s.cfg, th) < MaxKey(s.cfg.width)
    ensures TargetHash(s.cfg, th) % 4 == if th.pending == [] then 1 else 0
    ensures Stops(s.cfg, th, s.heap[n]) <==> Matches(s.cfg, th, s.heap[n]) || s.heap[n].hash > TargetHash(s.cfg, th)
    ensures !Stops(s.cfg, th, s.heap[n]) ==>
              && n != LAST
              && (s.heap[n].hash == TargetHash(s.cfg, th) ==> th.pending == [] && s.heap[n].item.Entry?)
              && (th.pending == [] ==> !(s.heap[n].item.Entry? && s.heap[n].item.key == th.op.key))
  {
    KeyShape(s.cfg.width, if th.pending == [] then s.cfg.hash(th.op.key) else Top(th));
    assert NodeOk(s.cfg, n, s.heap[n]);
  }

  lemma AtLoadNextMarked(s: State, x: Aux, t: nat, seen: Seen, seen': Seen, s': State)
    requires Local(s, x, t, seen) && s.threads[t].pc.LoadNext?
    requires seen' == Sees(seen, KeyOf(s, t), x.model, 0)
    requires var pc := s.threads[t].pc;
             s.heap[pc.cur].mark && s' == Goto(s, t, Unlink(pc.pred, pc.cur, s.heap[pc.cur].next))
    ensures Outcome(s, x, s', x, t, seen')
  {
    var th := s.threads[t];
    hide ListOk, PendingOk;
    ListBounds(s, x);
    Relabel(s, x, th, seen, seen', Unlink(th.pc.pred, th.pc.cur, s.heap[th.pc.cur].next));
    hide WalkOk, PredOk;
    Reread(s, x, s', t, seen');
  }

  lemma AtLoadNextStops(s: State, x: Aux, t: nat, seen: Seen, seen': Seen, s': State)
    requires Local(s, x, t, seen) && s.threads[t].pc.LoadNext?
    requires seen' == Sees(seen, KeyOf(s, t), x.model, 0)
    requires var pc := s.threads[t].pc;
             && !s.heap[pc.cur].mark && Stops(s.cfg, s.threads[t], s.heap[pc.cur])
             && s' == Goto(s, t, Found(pc.pred, pc.cur))
    ensures Outcome(s, x, s', x, t, seen')
  {
    hide ListOk, Stops, Evolves, PendingOk;
    var th := s.threads[t];
    ListBounds(s, x);
    StopsMeans(s, x, th, th.pc.cur);
    LinkedHere(s, x, th.pc.cur);
    Relabel(s, x, th, seen, seen', Found(th.pc.pred, th.pc.cur));
    hide WalkOk, PredOk;
    Reread(s, x, s', t, seen');
  }

  /** The walk passes a node that is not marked and does not stop it. */
  lemma PassOk(s: State, x: Aux, th: Thread, seen: Seen, cur: int)
    requires ListOk(s, x) && th.Busy? && CurOk(s, x, th, seen, cur)
    requires !Stops(s.cfg, th, s.heap[cur])
    ensures PredOk(s, x, th, cur)
  {
    hide ListOk;
    StopsMeans(s, x, th, cur);
  }

  lemma AtLoadNextGoesOn(s: State, x: Aux, t: nat, seen: Seen, seen': Seen, s': State)
    requires Local(s, x, t, seen) && s.threads[t].pc.LoadNext?
    requires seen' == Sees(seen, KeyOf(s, t), x.model, 0)
    requires var pc := s.threads[t].pc;
             && !s.heap[pc.cur].mark && !Stops(s.cfg, s.threads[t], s.heap[pc.cur])
             && s' == Goto(s, t, LoadNext(pc.cur, s.heap[pc.cur].next))
    ensures Outcome(s, x, s', x, t, seen')
  {
    var th, cur := s.threads[t], s.threads[t].pc.cur;
    assert IsNode(s, cur);
    hide ListOk, PendingOk, Stops, PredOk;
    ListBounds(s, x);
    PassOk(s, x, th, seen, cur);
    Follow(s, x, th, seen', cur);
    Relabel(s, x, th, seen, seen', LoadNext(cur, s.heap[cur].next));
    Relabel(s, x, th, seen', seen', LoadNext(cur, s.heap[cur].next));
    hide WalkOk, CurOk;
    Reread(s, x, s', t, seen');
  }

  lemma AtLoadNext(s: State, x: Aux, t: nat, seen: Seen, seen': Seen)
    requires Local(s, x, t, seen) && s.threads[t].pc.LoadNext?
    requires seen' == Sees(seen, KeyOf(s, t), x.model, 0)
    ensures Outcome(s, x, DoLoadNext(s, t, s.threads[t].pc.pred, s.threads[t].pc.cur), x, t, seen')
  {
    var th := s.threads[t];
    assert IsNode(s, th.pc.cur);
    var s' := DoLoadNext(s, t, th.pc.pred, th.pc.cur);
    hide Local, Outcome, Stops;
    if s.heap[th.pc.cur].mark {
      AtLoadNextMarked(s, x, t, seen, seen', s');
    } else if Stops(s.cfg, th, s.heap[th.pc.cur]) {
      AtLoadNextStops(s, x, t, seen, seen', s');
    } else {
      AtLoadNextGoesOn(s, x, t, seen, seen', s');
    }
  }

  /** An unmarked published element is in the map. */
  lemma LinkedHere(s: State, x: Aux, n: int)
    requires ListOk(s, x) && IsNode(s, n) && n in x.published && !s.heap[n].mark
    ensures s.heap[n].item.Entry? ==> s.heap[n].item.key in x.model
  {
    var i :| 0 <= i < |x.chain| && x.chain[i] == n;
    assert Holds(x.model, s.heap[x.chain[i]]);
  }

  /** Where the marked node `cur` behind `pred` stands. */
  lemma UnlinkPlace(s: State, x: Aux, pred: int, cur: int) returns (i: nat)
    requires ListOk(s, x)
    requires IsNode(s, pred) && pred in x.published && pred != LAST && CasSucceeds(s, pred, cur)
    requires IsNode(s, cur) && cur in x.published && s.heap[cur].mark
    ensures i + 2 < |x.chain| && x.chain[i] == pred && x.chain[i + 1] == cur && x.chain[i + 2] == s.heap[cur].next
  {
    assert NodeOk(s.cfg, cur, s.heap[cur]);
    i := LinkedPair(s.heap, x.chain, x.published, pred);
    assert s.heap[x.chain[i + 1]].next == x.chain[i + 2];
  }

  /** Taking the marked node `cur` out from behind `pred`. */
  lemma UnlinkList(s: State, x: Aux, s': State, pred: int, cur: int) returns (y: Aux, i: nat)
    requires ListOk(s, x)
    requires IsNode(s, pred) && pred in x.published && pred != LAST && CasSucceeds(s, pred, cur)
    requires IsNode(s, cur) && cur in x.published && s.heap[cur].mark
    requires s'.cfg == s.cfg && s'.slots == s.slots && s'.bits == s.bits
    requires s'.heap == s.heap[pred := s.heap[pred].(next := s.heap[cur].next)]
    ensures y.model == x.model && y.published == x.published
    ensures ListOk(s', y) && Evolves(s, x, s', y, NULL)
    ensures i + 1 < |y.chain| && y.chain[i] == pred && y.chain[i + 1] == s.heap[cur].next
  {
    var c := x.chain;
    i := UnlinkPlace(s, x, pred, cur);
    y := x.(chain := c[..i + 1] + c[i + 2..]);
    hide NoneBefore, HeapOk, ModelOk, SlotsOk, ChainOk, PublishedOk, Evolves;
    UnlinkFromChain(s.heap, c, i, s'.heap, y.chain);
    UnlinkKeepsPublished(s.heap, c, x.published, i, s'.heap, y.chain);
    UnlinkKeepsModel(s.heap, c, x.model, i, c[i + 2]);
    UnlinkedEvolves(s, x, s', i, y);
    RelinkKeepsSlots(s, x, s', y, pred, s.heap[cur].next);
  }

  lemma UnlinkedEvolves(s: State, x: Aux, s': State, i: nat, y: Aux)
    requires s.cfg.width >= 3 && PublishedOk(s.heap, x.chain, x.published)
    requires i + 2 < |x.chain| && !s.heap[x.chain[i]].mark
    requires s'.cfg == s.cfg && s'.slots == s.slots && s'.bits == s.bits
    requires s'.heap == s.heap[x.chain[i] := s.heap[x.chain[i]].(next := x.chain[i + 2])]
    requires y == x.(chain := x.chain[..i + 1] + x.chain[i + 2..])
    requires forall n, k :: NoneBefore(s.heap, x.chain, n, k) ==> NoneBefore(s'.heap, y.chain, n, k)
    ensures Evolves(s, x, s', y, NULL)
  {
    hide NoneBefore;
  }

  /** Redirecting one link keeps what the slots and the node invariants say. */
  lemma RelinkKeepsSlots(s: State, x: Aux, s': State, y: Aux, pred: int, next: int)
    requires s.cfg.width >= 3 && HeapOk(s.cfg, s.heap) && SlotsOk(s.cfg, s.heap, x.published, s.slots)
    requires IsNode(s, pred) && pred != LAST && !s.heap[pred].mark
    requires s'.cfg == s.cfg && s'.slots == s.slots
    requires s'.heap == s.heap[pred := s.heap[pred].(next := next)]
    requires x.published <= y.published
    ensures HeapOk(s.cfg, s'.heap) && SlotsOk(s.cfg, s'.heap, y.published, s'.slots)
  {
    forall n | 0 <= n < |s'.heap| ensures NodeOk(s.cfg, n, s'.heap[n]) {
      assert NodeOk(s.cfg, n, s.heap[n]);
    }
    forall j | j in s'.slots ensures SlotOk(s.cfg, s'.heap, y.published, j, s'.slots[j]) {
      assert SlotOk(s.cfg, s.heap, x.published, j, s.slots[j]);
    }
  }

  /** A compare-and-swap failed: the walk starts again. */
  lemma AtRetry(s: State, x: Aux, t: nat, seen: Seen, seen': Seen)
    requires Local(s, x, t, seen) && WalkOk(s, x, s.threads[t], seen)
    requires HoldsNode(s.threads[t].pc)
    requires seen' == Sees(seen, KeyOf(s, t), x.model, 0)
    ensures Outcome(s, x, Goto(s, t, StartWalk), x, t, seen')
  {
    hide ListOk, PendingOk;
    ListBounds(s, x);
    Relabel(s, x, s.threads[t], seen, seen', StartWalk);
    hide WalkOk;
    Reread(s, x, Goto(s, t, StartWalk), t, seen');
  }

  lemma UnlinkedThreadOk(s: State, x: Aux, s': State, y: Aux, th: Thread, seen: Seen, seen': Seen, i: nat)
    requires s.cfg.width >= 3 && th.Busy? && th.pc.Unlink? && PendingOk(s, th) && WalkOk(s, x, th, seen)
    requires PredOk(s, x, th, th.pc.pred)
    requires ListOk(s', y) && Evolves(s, x, s', y, NULL) && SeenGrows(seen, seen')
    requires th.op.key !in y.model ==> seen'.absent
    requires i + 1 < |y.chain| && y.chain[i] == th.pc.pred && y.chain[i + 1] == th.pc.succ
    ensures ThreadOk(s', y, th.(pc := LoadNext(th.pc.pred, th.pc.succ)), seen')
  {
    assert PendingOk(s', th);
    assert th.node != NULL ==> th.node >= 0;
    hide ListOk, PendingOk;
    WalkSurvives(s, x, s', y, NULL, th, seen, seen');
    PredSurvives(s, x, s', y, NULL, th, th.pc.pred);
    SuccessorOk(s', y, th, i);
    assert CurOk(s', y, th, seen', th.pc.succ);
    Relabel(s', y, th, seen', seen', LoadNext(th.pc.pred, th.pc.succ));
    hide WalkOk, PredOk, CurOk, Evolves;
  }

  lemma AtUnlinkSucceeds(s: State, x: Aux, t: nat, seen: Seen, seen': Seen, s': State) returns (y: Aux)
    requires Local(s, x, t, seen) && s.threads[t].pc.Unlink?
    requires seen' == Sees(seen, KeyOf(s, t), x.model, 0)
    requires var pc := s.threads[t].pc;
             CasSucceeds(s, pc.pred, pc.cur) && s' == DoUnlink(s, t, pc.pred, pc.cur, pc.succ)
    ensures y.model == x.model
    ensures Outcome(s, x, s', y, t, seen')
  {
    var th := s.threads[t];
    hide ListOk, PendingOk, Evolves, WalkOk;
    ListBounds(s, x);
    var i;
    y, i := UnlinkList(s, x, s', th.pc.pred, th.pc.cur);
    UnlinkedThreadOk(s, x, s', y, th, seen, seen', i);
    EvolvesAlone(s, x, s', y, OwnNode(th));
    hide ThreadOk;
  }

  lemma AtUnlink(s: State, x: Aux, t: nat, seen: Seen, seen': Seen) returns (y: Aux)
    requires Local(s, x, t, seen) && s.threads[t].pc.Unlink?
    requires seen' == Sees(seen, KeyOf(s, t), x.model, 0)
    ensures y.model == x.model
    ensures var pc := s.threads[t].pc; Outcome(s, x, DoUnlink(s, t, pc.pred, pc.cur, pc.succ), y, t, seen')
  {
    var pc := s.threads[t].pc;
    assert WalkOk(s, x, s.threads[t], seen) && IsNode(s, pc.pred);
    hide Local, Outcome, WalkOk;
    if CasSucceeds(s, pc.pred, pc.cur) {
      y := AtUnlinkSucceeds(s, x, t, seen, seen', DoUnlink(s, t, pc.pred, pc.cur, pc.succ));
    } else {
      y := x;
      AtRetry(s, x, t, seen, seen');
    }
  }

  // find has returned

  lemma AtFoundSentinel(s: State, x: Aux, t: nat, seen: Seen, seen': Seen, s': State)
    requires Local(s, x, t, seen) && s.threads[t].pc.Found?
    requires seen' == Sees(seen, KeyOf(s, t), x.model, 0)
    requires var pc := s.threads[t].pc;
             && s.threads[t].pending != [] && Matches(s.cfg, s.threads[t], s.heap[pc.cur])
             && s' == Goto(s, t, CheckSlot(pc.cur))
    ensures Outcome(s, x, s', x, t, seen')
  {
    var th := s.threads[t];
    assert NodeOk(s.cfg, th.pc.cur, s.heap[th.pc.cur]) && IsNode(s, th.pc.cur);
    hide ListOk, PendingOk;
    ListBounds(s, x);
    StopsMeans(s, x, th, th.pc.cur);
    assert SentinelOk(s, x, th, th.pc.cur);
    hide PredOk, CurOk;
    Relabel(s, x, th, seen, seen', CheckSlot(th.pc.cur));
    Reread(s, x, s', t, seen');
  }

  lemma AtFoundLink(s: State, x: Aux, t: nat, seen: Seen, seen': Seen, s': State)
    requires Local(s, x, t, seen) && s.threads[t].pc.Found?
    requires seen' == Sees(seen, KeyOf(s, t), x.model, 0)
    requires var th := s.threads[t];
             && NeedsNode(th) && !Matches(s.cfg, th, s.heap[th.pc.cur])
             && s' == Goto(SetNode(s, th.node, s.heap[th.node].(next := th.pc.cur)), t, LinkNode(th.pc.pred, th.pc.cur))
    ensures Outcome(s, x, s', x, t, seen')
  {
    var th := s.threads[t];
    hide ListOk, PendingOk, Evolves;
    ListBounds(s, x);
    WritePrivate(s, x, s', th.node, th.pc.cur);
    PreparedOk(s, x, s', th, seen, seen');
    hide ThreadOk;
  }

  lemma PreparedOk(s: State, x: Aux, s': State, th: Thread, seen: Seen, seen': Seen)
    requires s.cfg.width >= 3 && th.Busy? && th.pc.Found? && PendingOk(s, th) && PcOk(s, x, th, seen)
    requires SeenGrows(seen, seen')
    requires NeedsNode(th) && !Matches(s.cfg, th, s.heap[th.pc.cur])
    requires s'.cfg == s.cfg && s'.slots == s.slots && s'.bits == s.bits
    requires s'.heap == s.heap[th.node := s.heap[th.node].(next := th.pc.cur)]
    requires Evolves(s, x, s', x, th.node)
    ensures ThreadOk(s', x, th.(pc := LinkNode(th.pc.pred, th.pc.cur)), seen')
  {
    var pc := LinkNode(th.pc.pred, th.pc.cur);
    assert PendingOk(s', th);
    PredSurvives(s, x, s', x, th.node, th, th.pc.pred);
    CurSurvives(s, x, s', x, th.node, th, seen, seen', th.pc.cur);
    hide PendingOk, Evolves, PredOk;
    assert WalkOk(s', x, th, seen');
    Relabel(s', x, th, seen', seen', pc);
    hide WalkOk;
  }

  lemma AtFoundFails(s: State, x: Aux, t: nat, seen: Seen, seen': Seen, s': State)
    requires Local(s, x, t, seen) && s.threads[t].pc.Found?
    requires seen' == Sees(seen, KeyOf(s, t), x.model, 0)
    requires var th := s.threads[t];
             && th.pending == [] && (th.op.Insert? <==> Matches(s.cfg, th, s.heap[th.pc.cur]))
             && s' == Put(s, t, th.(node := NULL, pc := Return(false)))
    ensures Outcome(s, x, s', x, t, seen')
  {
    var th := s.threads[t];
    hide ListOk, PendingOk, PredOk, NoneBefore;
    ListBounds(s, x);
    RelabelFree(s, th, Return(false));
    Reread(s, x, s', t, seen');
  }

  /** A call that gives up its node has the same sentinels pending. */
  lemma RelabelFree(s: State, th: Thread, pc: Pc)
    requires s.cfg.width >= 3 && th.Busy? && PendingOk(s, th)
    ensures PendingOk(s, th.(node := NULL, pc := pc))
  {
  }

  lemma AtFoundVictim(s: State, x: Aux, t: nat, seen: Seen, seen': Seen, s': State)
    requires Local(s, x, t, seen) && s.threads[t].pc.Found?
    requires seen' == Sees(seen, KeyOf(s, t), x.model, 0)
    requires var th := s.threads[t];
             && !NeedsNode(th) && Matches(s.cfg, th, s.heap[th.pc.cur])
             && s' == Goto(s, t, LoadVictim(th.pc.pred, th.pc.cur))
    ensures Outcome(s, x, s', x, t, seen')
  {
    var th := s.threads[t];
    hide ListOk, PendingOk, NoneBefore;
    ListBounds(s, x);
    Relabel(s, x, th, seen, seen', LoadVictim(th.pc.pred, th.pc.cur));
    hide PredOk;
    assert VictimOk(s, x, th, th.pc.cur);
    Reread(s, x, s', t, seen');
  }

  lemma AtFound(s: State, x: Aux, t: nat, seen: Seen, seen': Seen)
    requires Local(s, x, t, seen) && s.threads[t].pc.Found?
    requires seen' == Sees(seen, KeyOf(s, t), x.model, 0)
    ensures Outcome(s, x, DoFound(s, t, s.threads[t].pc.pred, s.threads[t].pc.cur), x, t, seen')
  {
    var th := s.threads[t];
    assert IsNode(s, th.pc.cur) && (NeedsNode(th) ==> IsNode(s, th.node));
    var s' := DoFound(s, t, th.pc.pred, th.pc.cur);
    var matches := Matches(s.cfg, th, s.heap[th.pc.cur]);
    assert WalkOk(s, x, th, seen);
    hide Local, Outcome, Matches, PrivateOk;
    if th.pending != [] && matches {
      AtFoundSentinel(s, x, t, seen, seen', s');
    } else if NeedsNode(th) && !matches {
      AtFoundLink(s, x, t, seen, seen', s');
    } else if th.op.Insert? || !matches {
      AtFoundFails(s, x, t, seen, seen', s');
    } else {
      AtFoundVictim(s, x, t, seen, seen', s');
    }
  }

  // the linking CAS

  /** The element to be linked is not in the map. */
  lemma LinkPosition(s: State, x: Aux, pred: int, cur: int, own: nat) returns (i: nat)
    requires ListOk(s, x)
    requires IsNode(s, pred) && pred in x.published && pred != LAST && CasSucceeds(s, pred, cur)
    requires IsNode(s, own) && Fits(s.heap, x.chain, pred, cur, own)
    ensures i + 1 < |x.chain| && x.chain[i] == pred && x.chain[i + 1] == cur
    ensures s.heap[own].item.Entry? ==> s.heap[own].item.key !in x.model
  {
    i := LinkedPair(s.heap, x.chain, x.published, pred);
    assert NodeOk(s.cfg, own, s.heap[own]);
    if s.heap[own].item.Entry? {
      KeyAbsent(s.cfg, s.heap, x.chain, x.model, i, s.heap[own].item.key);
    }
  }

  lemma LinkedListOk(s: State, x: Aux, s': State, i: nat, own: nat, y: Aux)
    requires ListOk(s, x) && i + 1 < |x.chain| && own < |s.heap| && x.chain[i] != LAST && !s.heap[x.chain[i]].mark
    requires Fits(s.heap, x.chain, x.chain[i], x.chain[i + 1], own)
    requires own !in x.published && own !in x.chain && !s.heap[own].mark && s.heap[own].next == x.chain[i + 1]
    requires s.heap[own].item.Entry? ==> s.heap[own].item.key !in x.model
    requires s'.cfg == s.cfg && s'.slots == s.slots && s'.bits == s.bits
    requires s'.heap == s.heap[x.chain[i] := s.heap[x.chain[i]].(next := own)]
    requires y.chain == x.chain[..i + 1] + [own] + x.chain[i + 1..] && y.published == x.published + {own}
    requires y.model == WithItem(x.model, s.heap[own].item)
    ensures ListOk(s', y)
  {
    assert forall j :: 0 <= j < |x.chain| ==> x.chain[j] < |s.heap|;
    hide ChainOk, PublishedOk, ModelOk, SlotsOk, HeapOk, Fits;
    LinkIntoChain(s.heap, x.chain, i, own, s'.heap, y.chain);
    LinkKeepsPublished(s.heap, x.chain, x.published, i, own, s'.heap, y.chain);
    LinkKeepsModel(s.heap, x.chain, x.model, i, own, s'.heap, y.chain);
    RelinkKeepsSlots(s, x, s', y, x.chain[i], own);
  }

  /** Putting the private node `own` behind `pred`. */
  lemma LinkList(s: State, x: Aux, s': State, pred: int, cur: int, own: nat) returns (y: Aux)
    requires ListOk(s, x)
    requires IsNode(s, pred) && pred in x.published && pred != LAST && CasSucceeds(s, pred, cur)
    requires IsNode(s, own) && own !in x.published && !s.heap[own].mark && s.heap[own].next == cur
    requires Fits(s.heap, x.chain, pred, cur, own)
    requires s'.cfg == s.cfg && s'.slots == s.slots && s'.bits == s.bits
    requires s'.heap == s.heap[pred := s.heap[pred].(next := own)]
    ensures y.model == WithItem(x.model, s.heap[own].item) && y.published == x.published + {own}
    ensures s.heap[own].item.Entry? ==> s.heap[own].item.key !in x.model
    ensures ListOk(s', y) && Evolves(s, x, s', y, own)
  {
    var i := LinkPosition(s, x, pred, cur, own);
    y := x.(chain := x.chain[..i + 1] + [own] + x.chain[i + 1..],
            published := x.published + {own},
            model := WithItem(x.model, s.heap[own].item));
    PrivateOffChain(s.heap, x.chain, x.published, own);
    hide Fits, ChainOk, PublishedOk, HeapOk, ModelOk, SlotsOk, Evolves, WithItem;
    LinkedListOk(s, x, s', i, own, y);
    LinkedEvolves(s, x, s', i, own, y);
  }

  lemma PrivateOffChain(heap: seq<Node>, c: seq<nat>, pub: set<nat>, own: nat)
    requires PublishedOk(heap, c, pub) && own !in pub
    ensures own !in c
  {
  }

  lemma LinkedEvolves(s: State, x: Aux, s': State, i: nat, own: nat, y: Aux)
    requires s.cfg.width >= 3 && HeapOk(s.cfg, s.heap) && ChainOk(s.heap, x.chain)
    requires i + 1 < |x.chain| && own < |s.heap| && x.chain[i] in x.published && !s.heap[x.chain[i]].mark
    requires Fits(s.heap, x.chain, x.chain[i], x.chain[i + 1], own) && own !in x.published
    requires s'.cfg == s.cfg && s'.slots == s.slots && s'.bits == s.bits
    requires s'.heap == s.heap[x.chain[i] := s.heap[x.chain[i]].(next := own)]
    requires y.chain == x.chain[..i + 1] + [own] + x.chain[i + 1..] && y.published == x.published + {own}
    ensures Evolves(s, x, s', y, own)
  {
    LinkKeepsWalks(s.cfg, s.heap, x, i, own);
  }

  lemma LinkFits(s: State, x: Aux, th: Thread, seen: Seen)
    requires ListOk(s, x) && th.Busy? && th.pc.LinkNode? && PcOk(s, x, th, seen)
    ensures Fits(s.heap, x.chain, th.pc.pred, th.pc.cur, th.node)
  {
  }

  lemma LinkFacts(s: State, x: Aux, th: Thread, seen: Seen)
    requires s.cfg.width >= 3 && th.Busy? && th.pc.LinkNode? && PcOk(s, x, th, seen)
    ensures WalkOk(s, x, th, seen) && NeedsNode(th) && seen.effects == 0
    ensures IsNode(s, th.node) && th.node !in x.published && th.node > LAST
    ensures !s.heap[th.node].mark && s.heap[th.node].next == th.pc.cur
    ensures s.heap[th.node].item == if th.pending == [] then Entry(th.op.key, th.op.value) else Sentinel
    ensures IsNode(s, th.pc.pred) && th.pc.pred in x.published && th.pc.pred != LAST
  {
    hide CurOk, NoneBefore;
  }

  lemma AtLinkSucceeds(s: State, x: Aux, t: nat, seen: Seen, seen': Seen, s': State) returns (y: Aux)
    requires Local(s, x, t, seen) && s.threads[t].pc.LinkNode?
    requires var th := s.threads[t];
             && CasSucceeds(s, th.pc.pred, th.pc.cur) && s' == DoLinkNode(s, t, th.pc.pred, th.pc.cur)
             && seen' == Sees(seen, th.op.key, if th.pending == [] then x.model[th.op.key := th.op.value] else x.model,
                              if th.pending == [] then 1 else 0)
    ensures Outcome(s, x, s', y, t, seen')
    ensures var th := s.threads[t];
            if th.pending == [] then th.op.key !in x.model && y.model == x.model[th.op.key := th.op.value]
            else y.model == x.model
  {
    var th := s.threads[t];
    hide ListOk, PendingOk, Evolves, PcOk, Fits;
    ListBounds(s, x);
    LinkFits(s, x, th, seen);
    LinkFacts(s, x, th, seen);
    hide WalkOk;
    y := LinkList(s, x, s', th.pc.pred, th.pc.cur, th.node);
    LinkedThreadOk(s, x, s', y, th, seen, seen', s'.threads[t]);
    hide ThreadOk;
  }

  lemma LinkedThreadOk(s: State, x: Aux, s': State, y: Aux, th: Thread, seen: Seen, seen': Seen, th': Thread)
    requires s.cfg.width >= 3 && th.Busy? && th.pc.LinkNode? && PendingOk(s, th) && WalkOk(s, x, th, seen)
    requires NeedsNode(th)
    requires Evolves(s, x, s', y, th.node) && th.node in y.published
    requires th' == th.(node := NULL, pc := if th.pending == [] then IncSize else CheckSlot(th.node))
    requires seen'.effects == seen.effects + (if th.pending == [] then 1 else 0)
    ensures ThreadOk(s', y, th', seen')
  {
    assert PendingOk(s', th');
    hide PendingOk, WalksSurvive;
    if th.pending != [] {
      assert SentinelOk(s', y, th', th.node);
    }
    hide Evolves, PrivateOk, SentinelOk;
  }

  lemma AtLinkNode(s: State, x: Aux, t: nat, seen: Seen, seen': Seen) returns (y: Aux)
    requires Local(s, x, t, seen) && s.threads[t].pc.LinkNode?
    requires var th := s.threads[t];
             var added := th.pending == [] && CasSucceeds(s, th.pc.pred, th.pc.cur);
             seen' == Sees(seen, th.op.key, if added then x.model[th.op.key := th.op.value] else x.model,
                           if added then 1 else 0)
    ensures Outcome(s, x, DoLinkNode(s, t, s.threads[t].pc.pred, s.threads[t].pc.cur), y, t, seen')
    ensures var th := s.threads[t];
            if th.pending == [] && CasSucceeds(s, th.pc.pred, th.pc.cur)
            then th.op.Insert? && th.op.key !in x.model && y.model == x.model[th.op.key := th.op.value]
            else y.model == x.model
  {
    var th := s.threads[t];
    assert WalkOk(s, x, th, seen) && IsNode(s, th.pc.pred) && NeedsNode(th);
    hide Local, Outcome, WalkOk;
    if CasSucceeds(s, th.pc.pred, th.pc.cur) {
      y := AtLinkSucceeds(s, x, t, seen, seen', DoLinkNode(s, t, th.pc.pred, th.pc.cur));
    } else {
      y := x;
      AtRetry(s, x, t, seen, seen');
    }
  }

  // removal

  lemma AtLoadVictim(s: State, x: Aux, t: nat, seen: Seen, seen': Seen, s': State)
    requires Local(s, x, t, seen) && s.threads[t].pc.LoadVictim?
    requires seen' == Sees(seen, KeyOf(s, t), x.model, 0)
    requires var pc := s.threads[t].pc; s' == Goto(s, t, MarkVictim(pc.pred, pc.cur, s.heap[pc.cur].next))
    ensures Outcome(s, x, s', x, t, seen')
  {
    var th := s.threads[t];
    hide ListOk, PendingOk;
    ListBounds(s, x);
    Relabel(s, x, th, seen, seen', MarkVictim(th.pc.pred, th.pc.cur, s.heap[th.pc.cur].next));
    hide WalkOk, PredOk;
    Reread(s, x, s', t, seen');
  }

  /** Marking an element deletes it from the map. */
  lemma MarkList(s: State, x: Aux, s': State, cur: int) returns (y: Aux)
    requires ListOk(s, x)
    requires IsNode(s, cur) && cur in x.published && s.heap[cur].item.Entry? && !s.heap[cur].mark
    requires s'.cfg == s.cfg && s'.slots == s.slots && s'.bits == s.bits
    requires s'.heap == s.heap[cur := s.heap[cur].(mark := true)]
    ensures s.heap[cur].item.key in x.model && y == x.(model := x.model - {s.heap[cur].item.key})
    ensures ListOk(s', y) && Evolves(s, x, s', y, NULL)
  {
    var i :| 0 <= i < |x.chain| && x.chain[i] == cur;
    y := x.(model := x.model - {s.heap[cur].item.key});
    MarkKeepsSlots(s, x, s', cur);
    hide ChainOk, PublishedOk, ModelOk, SlotsOk, HeapOk, NoneBefore;
    MarkInChain(s.cfg, s.heap, x.chain, x.published, cur, s'.heap);
    MarkKeepsWalks(s.heap, x.chain, cur, s'.heap);
    MarkRemoves(s.cfg, s.heap, x.chain, x.model, i, s'.heap);
  }

  lemma MarkKeepsSlots(s: State, x: Aux, s': State, cur: int)
    requires s.cfg.width >= 3 && SlotsOk(s.cfg, s.heap, x.published, s.slots) && s'.slots == s.slots
    requires IsNode(s, cur) && s'.heap == s.heap[cur := s.heap[cur].(mark := true)]
    ensures SlotsOk(s.cfg, s'.heap, x.published, s'.slots)
  {
    forall j | j in s'.slots ensures SlotOk(s.cfg, s'.heap, x.published, j, s'.slots[j]) {
      assert SlotOk(s.cfg, s.heap, x.published, j, s.slots[j]);
    }
  }

  lemma AtMarkSucceeds(s: State, x: Aux, t: nat, seen: Seen, seen': Seen, s': State) returns (y: Aux)
    requires Local(s, x, t, seen) && s.threads[t].pc.MarkVictim?
    requires var th := s.threads[t];
             && CasSucceeds(s, th.pc.cur, th.pc.succ) && s' == DoMarkVictim(s, t, th.pc.pred, th.pc.cur, th.pc.succ)
             && seen' == Sees(seen, th.op.key, x.model - {th.op.key}, 1)
    ensures Outcome(s, x, s', y, t, seen')
    ensures var th := s.threads[t]; th.op.key in x.model && y.model == x.model - {th.op.key}
  {
    var th := s.threads[t];
    hide ListOk, PendingOk, Evolves, PredOk;
    ListBounds(s, x);
    y := MarkList(s, x, s', th.pc.cur);
    PredSurvives(s, x, s', y, NULL, th, th.pc.pred);
    MarkedThreadOk(s, x, s', y, th, seen, seen');
    EvolvesAlone(s, x, s', y, OwnNode(th));
    hide ThreadOk;
  }

  lemma AtMarkVictim(s: State, x: Aux, t: nat, seen: Seen, seen': Seen) returns (y: Aux)
    requires Local(s, x, t, seen) && s.threads[t].pc.MarkVictim?
    requires var th := s.threads[t];
             var removed := CasSucceeds(s, th.pc.cur, th.pc.succ);
             seen' == Sees(seen, th.op.key, if removed then x.model - {th.op.key} else x.model,
                           if removed then 1 else 0)
    ensures var pc := s.threads[t].pc; Outcome(s, x, DoMarkVictim(s, t, pc.pred, pc.cur, pc.succ), y, t, seen')
    ensures var th := s.threads[t];
            if CasSucceeds(s, th.pc.cur, th.pc.succ)
            then th.op.key in x.model && y.model == x.model - {th.op.key}
            else y.model == x.model
  {
    var th := s.threads[t];
    assert WalkOk(s, x, th, seen) && IsNode(s, th.pc.cur);
    hide Local, Outcome, WalkOk;
    if CasSucceeds(s, th.pc.cur, th.pc.succ) {
      y := AtMarkSucceeds(s, x, t, seen, seen', DoMarkVictim(s, t, th.pc.pred, th.pc.cur, th.pc.succ));
    } else {
      y := x;
      AtRetry(s, x, t, seen, seen');
    }
  }

  lemma MarkedThreadOk(s: State, x: Aux, s': State, y: Aux, th: Thread, seen: Seen, seen': Seen)
    requires s.cfg.width >= 3 && th.Busy? && th.pc.MarkVictim? && PendingOk(s, th) && PcOk(s, x, th, seen)
    requires s'.cfg == s.cfg && s'.bits == s.bits && y.published == x.published
    requires PredOk(s', y, th, th.pc.pred)
    requires CasSucceeds(s, th.pc.cur, th.pc.succ) && s'.heap == s.heap[th.pc.cur := s.heap[th.pc.cur].(mark := true)]
    requires seen'.effects == seen.effects + 1
    ensures ThreadOk(s', y, th.(pc := UnlinkVictim(th.pc.pred, th.pc.cur, th.pc.succ)), seen')
  {
    assert PendingOk(s', th);
    Relabel(s', y, th, seen', seen', UnlinkVictim(th.pc.pred, th.pc.cur, th.pc.succ));
    hide PendingOk, PredOk;
  }

  lemma AtUnlinkVictim(s: State, x: Aux, t: nat, seen: Seen, seen': Seen) returns (y: Aux)
    requires Local(s, x, t, seen) && s.threads[t].pc.UnlinkVictim?
    requires seen' == Sees(seen, KeyOf(s, t), x.model, 0)
    ensures y.model == x.model
    ensures var pc := s.threads[t].pc; Outcome(s, x, DoUnlinkVictim(s, t, pc.pred, pc.cur, pc.succ), y, t, seen')
  {
    var th, pc := s.threads[t], s.threads[t].pc;
    assert IsNode(s, pc.pred);
    var s' := DoUnlinkVictim(s, t, pc.pred, pc.cur, pc.succ);
    y := x;
    hide ListOk, Evolves, PendingOk;
    ListBounds(s, x);
    Relabel(s, x, th, seen, seen', DecSize);
    if CasSucceeds(s, pc.pred, pc.cur) {
      y := AtUnlinksVictim(s, x, t, seen, seen', s');
    } else {
      Reread(s, x, s', t, seen');
    }
    hide ThreadOk, PcOk;
  }

  lemma VictimDone(s: State, x: Aux, s': State, y: Aux, th: Thread, seen: Seen, seen': Seen)
    requires s.cfg.width >= 3 && th.Busy? && th.pc.UnlinkVictim? && PendingOk(s, th) && PcOk(s, x, th, seen)
    requires s'.cfg == s.cfg && s'.bits == s.bits && seen'.effects == seen.effects
    ensures ThreadOk(s', y, th.(pc := DecSize), seen')
  {
    assert PendingOk(s', th.(pc := DecSize));
    hide PendingOk, PredOk;
  }

  lemma AtUnlinksVictim(s: State, x: Aux, t: nat, seen: Seen, seen': Seen, s': State) returns (y: Aux)
    requires Local(s, x, t, seen) && s.threads[t].pc.UnlinkVictim?
    requires seen' == Sees(seen, KeyOf(s, t), x.model, 0)
    requires var pc := s.threads[t].pc;
             CasSucceeds(s, pc.pred, pc.cur) && s' == DoUnlinkVictim(s, t, pc.pred, pc.cur, pc.succ)
    ensures y.model == x.model
    ensures Outcome(s, x, s', y, t, seen')
  {
    var th, pc := s.threads[t], s.threads[t].pc;
    hide ListOk, Evolves, PendingOk, NoneBefore;
    ListBounds(s, x);
    var i;
    y, i := UnlinkList(s, x, s', pc.pred, pc.cur);
    hide PredOk;
    VictimDone(s, x, s', y, th, seen, seen');
    EvolvesAlone(s, x, s', y, OwnNode(th));
    hide ThreadOk, PcOk;
  }

  // bucket slots

  lemma AtCheckSlot(s: State, x: Aux, t: nat, seen: Seen, seen': Seen)
    requires Local(s, x, t, seen) && s.threads[t].pc.CheckSlot?
    requires seen' == Sees(seen, KeyOf(s, t), x.model, 0)
    ensures Outcome(s, x, DoCheckSlot(s, t, s.threads[t].pc.sentinel), x, t, seen')
  {
    var th := s.threads[t];
    assert th.pending != [] && seen.effects == 0 && PendingOk(s, th) && s.cfg.width >= 3;
    var s' := DoCheckSlot(s, t, th.pc.sentinel);
    hide Local, Outcome, ListOk, PendingOk, PcOk;
    if Top(th) in s.slots {
      AtCheckFilled(s, x, t, seen, seen', s');
    } else {
      AtCheckEmpty(s, x, t, seen, seen', s');
    }
  }

  lemma AtCheckFilled(s: State, x: Aux, t: nat, seen: Seen, seen': Seen, s': State)
    requires Local(s, x, t, seen) && s.threads[t].pc.CheckSlot?
    requires seen' == Sees(seen, KeyOf(s, t), x.model, 0)
    requires Top(s.threads[t]) in s.slots && s' == PopSentinel(s, t, s.threads[t])
    ensures Outcome(s, x, s', x, t, seen')
  {
    var th := s.threads[t];
    hide ListOk, Evolves, PendingOk;
    ListBounds(s, x);
    PopSentinelOk(s, x, t, th, seen');
    hide ThreadOk, PcOk;
  }

  lemma AtCheckEmpty(s: State, x: Aux, t: nat, seen: Seen, seen': Seen, s': State)
    requires Local(s, x, t, seen) && s.threads[t].pc.CheckSlot?
    requires seen' == Sees(seen, KeyOf(s, t), x.model, 0)
    requires s' == Goto(s, t, StoreSlot(s.threads[t].pc.sentinel))
    ensures Outcome(s, x, s', x, t, seen')
  {
    hide ListOk, PendingOk;
    ListBounds(s, x);
    Relabel(s, x, s.threads[t], seen, seen', s'.threads[t].pc);
    Reread(s, x, s', t, seen');
  }

  /** Filling a slot with the sentinel of its bucket. */
  lemma StoreList(s: State, x: Aux, s': State, i: nat, n: int, bits: nat)
    requires ListOk(s, x) && i < Pow2(bits) && bits <= s.bits
    requires IsNode(s, n) && n in x.published && n != LAST
    requires s.heap[n].item.Sentinel? && s.heap[n].hash == SentinelKey(s.cfg.width, i)
    requires s' == s.(slots := s.slots[i := n])
    ensures ListOk(s', x) && SlotOk(s.cfg, s.heap, x.published, i, n)
  {
    hide ChainOk, PublishedOk, ModelOk, HeapOk, SentinelKey;
    Pow2Monotone(bits, s.cfg.width - 2);
    forall j | j in s'.slots ensures SlotOk(s.cfg, s'.heap, x.published, j, s'.slots[j]) {
      assert j != i ==> SlotOk(s.cfg, s.heap, x.published, j, s.slots[j]);
    }
  }

  /** A slot that is filled twice gets the same sentinel: a sentinel is unique for its key. */
  lemma SameSentinel(s: State, x: Aux, m: int, n: int)
    requires ListOk(s, x)
    requires m in x.published && n in x.published && IsNode(s, m) && IsNode(s, n)
    requires s.heap[m].item.Sentinel? && s.heap[n].item.Sentinel? && s.heap[m].hash == s.heap[n].hash
    ensures m == n
  {
    assert NodeOk(s.cfg, m, s.heap[m]) && NodeOk(s.cfg, n, s.heap[n]);
    var i :| 0 <= i < |x.chain| && x.chain[i] == m;
    var j :| 0 <= j < |x.chain| && x.chain[j] == n;
    assert i < j ==> Before(s.heap[x.chain[i]], s.heap[x.chain[j]]);
    assert j < i ==> Before(s.heap[x.chain[j]], s.heap[x.chain[i]]);
  }

  lemma StoreAgain(s: State, x: Aux, i: nat, n: int)
    requires ListOk(s, x) && SlotOk(s.cfg, s.heap, x.published, i, n)
    ensures i in s.slots ==> s.slots[i] == n
  {
    if i in s.slots {
      assert SlotOk(s.cfg, s.heap, x.published, i, s.slots[i]);
      SameSentinel(s, x, n, s.slots[i]);
    }
  }

  /** The slot is filled, and nothing else has changed yet. */
  lemma StoreMid(s: State, x: Aux, t: nat, seen: Seen, mid: State)
    requires Local(s, x, t, seen) && s.threads[t].pc.StoreSlot?
    requires mid == s.(slots := s.slots[Top(s.threads[t]) := s.threads[t].pc.sentinel])
    ensures ListOk(mid, x) && PendingOk(mid, s.threads[t])
    ensures forall i :: i in s.slots ==> i in mid.slots && mid.slots[i] == s.slots[i]
  {
    var th := s.threads[t];
    var i, n := Top(th), th.pc.sentinel;
    assert PendingOk(mid, th);
    hide ListOk;
    ListBounds(s, x);
    StoreList(s, x, mid, i, n, th.bits);
    hide PendingOk, SlotOk;
    StoreAgain(s, x, i, n);
  }

  lemma AtStoreSlot(s: State, x: Aux, t: nat, seen: Seen, seen': Seen)
    requires Local(s, x, t, seen) && s.threads[t].pc.StoreSlot?
    requires seen' == Sees(seen, KeyOf(s, t), x.model, 0)
    ensures Outcome(s, x, DoStoreSlot(s, t, s.threads[t].pc.sentinel), x, t, seen')
  {
    var th := s.threads[t];
    var mid := s.(slots := s.slots[Top(th) := th.pc.sentinel]);
    hide ListOk, Evolves, PendingOk, WalkOk;
    ListBounds(s, x);
    StoreMid(s, x, t, seen, mid);
    AtStoreSlotMid(s, x, t, seen, seen', mid);
    hide ThreadOk, PcOk;
    EvolvesAfterStore(s, x, mid, DoStoreSlot(s, t, th.pc.sentinel));
  }

  lemma AtStoreSlotMid(s: State, x: Aux, t: nat, seen: Seen, seen': Seen, mid: State)
    requires s.cfg.width >= 3 && t < |s.threads| && s.threads[t].Busy? && s.threads[t].pc.StoreSlot?
    requires PcOk(s, x, s.threads[t], seen) && seen'.effects == seen.effects
    requires mid == s.(slots := s.slots[Top(s.threads[t]) := s.threads[t].pc.sentinel])
    requires ListOk(mid, x) && PendingOk(mid, s.threads[t])
    ensures var s' := DoStoreSlot(s, t, s.threads[t].pc.sentinel);
            && s'.threads == s.threads[t := s'.threads[t]]
            && ListOk(s', x) && Evolves(mid, x, s', x, NULL) && ThreadOk(s', x, s'.threads[t], seen')
            && OwnStep(s, s.threads[t], s'.threads[t])
  {
    hide ListOk, PendingOk, Evolves;
    PopSentinelOk(mid, x, t, s.threads[t], seen');
    hide ThreadOk;
  }

  lemma EvolvesAfterStore(s: State, x: Aux, mid: State, s': State)
    requires s.cfg.width >= 3 && mid.cfg == s.cfg && mid.heap == s.heap && mid.bits == s.bits
    requires forall i :: i in s.slots ==> i in mid.slots && mid.slots[i] == s.slots[i]
    requires Evolves(mid, x, s', x, NULL)
    ensures Evolves(s, x, s', x, NULL)
  {
  }

  // counters, begin and end of calls

  predicate Counting(pc: Pc) { pc.IncSize? || pc.TestLoad? || pc.ExtendLoad? || pc.ExtendCas? || pc.DecSize? }

  /** The counters and the bucket count move; the list stays. */
  lemma AtCounting(s: State, x: Aux, t: nat, seen: Seen, seen': Seen, s': State)
    requires Local(s, x, t, seen) && Counting(s.threads[t].pc)
    requires seen' == Sees(seen, KeyOf(s, t), x.model, 0)
    requires s'.cfg == s.cfg && s'.heap == s.heap && s'.slots == s.slots && s.bits <= s'.bits <= s.cfg.width - 2
    requires |s'.threads| == |s.threads| && s'.threads[t].Busy?
    requires s'.threads == s.threads[t := s.threads[t].(pc := s'.threads[t].pc)]
    requires match s'.threads[t].pc
             case Return(result) => result
             case DecSize => false
             case pc' => Counting(pc') && !s.threads[t].pc.DecSize?
    ensures Outcome(s, x, s', x, t, seen')
  {
    hide ListOk, PendingOk, WalkOk, PredOk, CurOk, VictimOk, SentinelOk;
    ListBounds(s, x);
    Relabel(s, x, s.threads[t], seen, seen', s'.threads[t].pc);
    Reread(s, x, s', t, seen');
  }

  lemma AtReturn(s: State, x: Aux, t: nat, seen: Seen, seen': Seen)
    requires Local(s, x, t, seen)
    ensures Outcome(s, x, Put(s, t, Idle), x, t, seen')
  {
    hide ListOk, PendingOk, PcOk;
    ListBounds(s, x);
    Reread(s, x, Put(s, t, Idle), t, seen');
  }

  lemma AtStart(s: State, x: Aux, t: nat, op: Op, seen': Seen)
    requires ListOk(s, x) && t < |s.threads| && s.threads[t].Idle? && seen'.effects == 0
    ensures Outcome(s, x, Put(s, t, Busy(op, s.bits, [], NULL, LoadSlot)), x, t, seen')
  {
    hide ListOk;
    ListBounds(s, x);
    Reread(s, x, Put(s, t, Busy(op, s.bits, [], NULL, LoadSlot)), t, seen');
  }

  // the loop of get

  lemma SlotFilled(s: State, x: Aux, i: nat)
    requires ListOk(s, x) && i in s.slots
    ensures var n := s.slots[i]; IsNode(s, n) && n in x.published && n != LAST
  {
    assert SlotOk(s.cfg, s.heap, x.published, i, s.slots[i]);
  }

  lemma AtGetHead(s: State, x: Aux, t: nat, seen: Seen, seen': Seen, s': State)
    requires Local(s, x, t, seen) && s.threads[t].pc.GetHead?
    requires seen' == Sees(seen, KeyOf(s, t), x.model, 0)
    requires s' == Goto(s, t, GetFirst(s.slots[StartIndex(s.cfg, s.threads[t])]))
    ensures Outcome(s, x, s', x, t, seen')
  {
    var th, i := s.threads[t], StartIndex(s.cfg, s.threads[t]);
    hide ListOk, PendingOk;
    ListBounds(s, x);
    SlotFilled(s, x, i);
    Relabel(s, x, th, seen, seen', s'.threads[t].pc);
    Reread(s, x, s', t, seen');
  }

  lemma NextPublished(s: State, x: Aux, n: int)
    requires ListOk(s, x) && IsNode(s, n) && n in x.published && n != LAST
    ensures IsNode(s, s.heap[n].next) && s.heap[n].next in x.published
  {
    assert LeadsOn(s.heap, x.published, n);
  }

  lemma AtGetFirst(s: State, x: Aux, t: nat, seen: Seen, seen': Seen, s': State)
    requires Local(s, x, t, seen) && s.threads[t].pc.GetFirst?
    requires seen' == Sees(seen, KeyOf(s, t), x.model, 0)
    requires var n := s.threads[t].pc.pred; s' == Goto(s, t, GetWalk(s.heap[n].next, s.heap[n].mark))
    ensures Outcome(s, x, s', x, t, seen')
  {
    var th := s.threads[t];
    hide ListOk, PendingOk;
    ListBounds(s, x);
    NextPublished(s, x, th.pc.pred);
    Relabel(s, x, th, seen, seen', s'.threads[t].pc);
    Reread(s, x, s', t, seen');
  }

  /** Where `get` reads the key of a node, the node has one; where it goes on, the node has a successor. */
  lemma GetReads(s: State, x: Aux, th: Thread, n: int)
    requires ListOk(s, x) && th.Busy? && th.pending == [] && IsNode(s, n)
    ensures s.heap[n].hash == TargetHash(s.cfg, th) ==> s.heap[n].item.Entry?
    ensures GetGoesOn(s.cfg, th, s.heap[n]) ==> n != LAST
  {
    KeyShape(s.cfg.width, s.cfg.hash(th.op.key));
    assert NodeOk(s.cfg, n, s.heap[n]);
  }

  lemma AtGetWalk(s: State, x: Aux, t: nat, seen: Seen, seen': Seen, s': State)
    requires Local(s, x, t, seen) && s.threads[t].pc.GetWalk?
    requires seen' == Sees(seen, KeyOf(s, t), x.model, 0)
    requires s' == DoGetWalk(s, t, s.threads[t].pc.cur, s.threads[t].pc.mark)
    ensures Outcome(s, x, s', x, t, seen')
  {
    var th, cur := s.threads[t], s.threads[t].pc.cur;
    assert IsNode(s, cur);
    hide Local, Outcome, GetGoesOn;
    if GetGoesOn(s.cfg, th, s.heap[cur]) {
      AtGetGoesOn(s, x, t, seen, seen', s');
    } else {
      AtGetEnds(s, x, t, seen, seen', s');
    }
  }

  lemma AtGetGoesOn(s: State, x: Aux, t: nat, seen: Seen, seen': Seen, s': State)
    requires Local(s, x, t, seen) && s.threads[t].pc.GetWalk?
    requires seen' == Sees(seen, KeyOf(s, t), x.model, 0)
    requires var th, n := s.threads[t], s.threads[t].pc.cur;
             GetGoesOn(s.cfg, th, s.heap[n]) && s' == Goto(s, t, GetWalk(s.heap[n].next, s.heap[n].mark))
    ensures Outcome(s, x, s', x, t, seen')
  {
    var th, cur := s.threads[t], s.threads[t].pc.cur;
    hide ListOk, PendingOk, GetGoesOn;
    ListBounds(s, x);
    GetReads(s, x, th, cur);
    NextPublished(s, x, cur);
    Relabel(s, x, th, seen, seen', s'.threads[t].pc);
    Reread(s, x, s', t, seen');
  }

  lemma AtGetEnds(s: State, x: Aux, t: nat, seen: Seen, seen': Seen, s': State)
    requires Local(s, x, t, seen) && s.threads[t].pc.GetWalk?
    requires seen' == Sees(seen, KeyOf(s, t), x.model, 0)
    requires |s'.threads| == |s.threads| && s'.threads == s.threads[t := s'.threads[t]]
    requires s' == s.(threads := s'.threads)
    requires s'.threads[t].Busy? && s'.threads[t].pc.GetReturn?
    requires s'.threads[t] == s.threads[t].(pc := s'.threads[t].pc)
    ensures Outcome(s, x, s', x, t, seen')
  {
    hide ListOk, PendingOk;
    ListBounds(s, x);
    Relabel(s, x, s.threads[t], seen, seen', s'.threads[t].pc);
    Reread(s, x, s', t, seen');
  }

  // ---------------------------------------------------------------- every step

  /**
    No step dereferences a null or unallocated node, and the assertions of the source hold: a
    walk starts at a sentinel, a marked node is an element, the victim of a removal is an
    element, and a sentinel to be linked is smaller than its successor.
  */
  lemma NoFault(s: State, x: Aux, t: nat)
    requires Inv(s, x) && t < |s.threads| && s.threads[t].Busy?
    ensures Enabled(s, Run(t))
    ensures var th := s.threads[t];
            match th.pc
            case LoadFirst(pred) => s.heap[pred].hash % 4 == 0
            case Unlink(_, cur, _) => s.heap[cur].item.Entry?
            case LinkNode(_, cur) => th.pending != [] ==> SentinelKey(s.cfg.width, Top(th)) < s.heap[cur].hash
            case LoadVictim(_, cur) => s.heap[cur].item.Entry?
            case _ => true
  {
    var th := s.threads[t];
    InvLocal(s, x, t);
    hide Inv, PendingOk, NoneBefore;
    if th.pc.LoadFirst? {
      assert NodeOk(s.cfg, th.pc.pred, s.heap[th.pc.pred]);
    } else if th.pc.Unlink? {
      assert NodeOk(s.cfg, th.pc.cur, s.heap[th.pc.cur]);
    } else if th.pc.GetWalk? {
      GetReads(s, x, th, th.pc.cur);
    }
    ListBounds(s, x);
    hide ListOk, CurOk;
  }

  lemma InvLocal(s: State, x: Aux, t: nat)
    requires Inv(s, x) && t < |s.threads| && s.threads[t].Busy?
    ensures Local(s, x, t, x.seen[t])
  {
    assert ThreadOk(s, x, s.threads[t], x.seen[t]);
  }

  /** A step without event that leaves the counter alone. */
  lemma QuietOk(s: State, x: Aux, t: nat, s': State, y: Aux)
    requires s.cfg.width >= 3 && Enabled(s, Run(t)) && |x.seen| == |s.threads| == |s'.threads|
    requires y.model == x.model && EventOf(s, Run(t)) == Silent
    requires s'.size == s.size && 0 <= s.size < SIZE_RANGE && Owed(s.threads[t]) == 0 && Owed(s'.threads[t]) == 0
    requires s'.threads[t].Busy? && s'.threads[t].op == s.threads[t].op
    requires Outcome(s, x, s', y, t, Sees(x.seen[t], KeyOf(s, t), x.model, 0))
    ensures StepOk(s, Run(t), x, s', y)
  {
    hide Outcome;
  }

  /** What the step lemmas use of the invariant. */
  ghost predicate Ready(s: State, x: Aux, t: nat) {
    && |x.seen| == |s.threads| && t < |s.threads| && 0 <= s.size < SIZE_RANGE
    && Local(s, x, t, x.seen[t]) && Enabled(s, Run(t))
  }

  lemma RunLoadSlot(s: State, x: Aux, t: nat)
    requires Ready(s, x, t) && s.threads[t].pc.LoadSlot?
    ensures StepOk(s, Run(t), x, Next(s, Run(t)), x)
  {
    hide ListOk, Evolves, PcOk, PendingOk;
    var s', seen' := Next(s, Run(t)), Sees(x.seen[t], KeyOf(s, t), x.model, 0);
    AtLoadSlot(s, x, t, x.seen[t], seen');
    QuietOk(s, x, t, s', x);
  }

  lemma RunStartWalk(s: State, x: Aux, t: nat)
    requires Ready(s, x, t) && s.threads[t].pc.StartWalk?
    ensures StepOk(s, Run(t), x, Next(s, Run(t)), x)
  {
    hide ListOk, Evolves, PcOk, PendingOk;
    var s', seen' := Next(s, Run(t)), Sees(x.seen[t], KeyOf(s, t), x.model, 0);
    AtStartWalk(s, x, t, x.seen[t], seen', s');
    QuietOk(s, x, t, s', x);
  }

  lemma RunLoadFirst(s: State, x: Aux, t: nat)
    requires Ready(s, x, t) && s.threads[t].pc.LoadFirst?
    ensures StepOk(s, Run(t), x, Next(s, Run(t)), x)
  {
    hide ListOk, Evolves, PcOk, PendingOk;
    var s', seen' := Next(s, Run(t)), Sees(x.seen[t], KeyOf(s, t), x.model, 0);
    AtLoadFirst(s, x, t, x.seen[t], seen', s');
    QuietOk(s, x, t, s', x);
  }

  lemma RunLoadNext(s: State, x: Aux, t: nat)
    requires Ready(s, x, t) && s.threads[t].pc.LoadNext?
    ensures StepOk(s, Run(t), x, Next(s, Run(t)), x)
  {
    hide ListOk, Evolves, PcOk, PendingOk;
    var s', seen' := Next(s, Run(t)), Sees(x.seen[t], KeyOf(s, t), x.model, 0);
    AtLoadNext(s, x, t, x.seen[t], seen');
    QuietOk(s, x, t, s', x);
  }

  lemma RunUnlink(s: State, x: Aux, t: nat) returns (y: Aux)
    requires Ready(s, x, t) && s.threads[t].pc.Unlink?
    ensures StepOk(s, Run(t), x, Next(s, Run(t)), y)
  {
    hide ListOk, Evolves, PcOk, PendingOk;
    var s', seen' := Next(s, Run(t)), Sees(x.seen[t], KeyOf(s, t), x.model, 0);
    y := AtUnlink(s, x, t, x.seen[t], seen');
    QuietOk(s, x, t, s', y);
  }

  lemma RunFound(s: State, x: Aux, t: nat)
    requires Ready(s, x, t) && s.threads[t].pc.Found?
    ensures StepOk(s, Run(t), x, Next(s, Run(t)), x)
  {
    hide ListOk, Evolves, PcOk, PendingOk;
    var s', seen' := Next(s, Run(t)), Sees(x.seen[t], KeyOf(s, t), x.model, 0);
    AtFound(s, x, t, x.seen[t], seen');
    QuietOk(s, x, t, s', x);
  }

  lemma RunLoadVictim(s: State, x: Aux, t: nat)
    requires Ready(s, x, t) && s.threads[t].pc.LoadVictim?
    ensures StepOk(s, Run(t), x, Next(s, Run(t)), x)
  {
    hide ListOk, Evolves, PcOk, PendingOk;
    var s', seen' := Next(s, Run(t)), Sees(x.seen[t], KeyOf(s, t), x.model, 0);
    AtLoadVictim(s, x, t, x.seen[t], seen', s');
    QuietOk(s, x, t, s', x);
  }

  lemma RunUnlinkVictim(s: State, x: Aux, t: nat) returns (y: Aux)
    requires Ready(s, x, t) && s.threads[t].pc.UnlinkVictim?
    ensures StepOk(s, Run(t), x, Next(s, Run(t)), y)
  {
    hide ListOk, Evolves, PendingOk;
    y := AtUnlinkVictim(s, x, t, x.seen[t], Sees(x.seen[t], KeyOf(s, t), x.model, 0));
  }

  lemma RunCheckSlot(s: State, x: Aux, t: nat)
    requires Ready(s, x, t) && s.threads[t].pc.CheckSlot?
    ensures StepOk(s, Run(t), x, Next(s, Run(t)), x)
  {
    hide ListOk, Evolves, PcOk, PendingOk;
    var s', seen' := Next(s, Run(t)), Sees(x.seen[t], KeyOf(s, t), x.model, 0);
    AtCheckSlot(s, x, t, x.seen[t], seen');
    QuietOk(s, x, t, s', x);
  }

  lemma RunStoreSlot(s: State, x: Aux, t: nat)
    requires Ready(s, x, t) && s.threads[t].pc.StoreSlot?
    ensures StepOk(s, Run(t), x, Next(s, Run(t)), x)
  {
    hide ListOk, Evolves, PcOk, PendingOk;
    var s', seen' := Next(s, Run(t)), Sees(x.seen[t], KeyOf(s, t), x.model, 0);
    AtStoreSlot(s, x, t, x.seen[t], seen');
    QuietOk(s, x, t, s', x);
  }

  predicate Extending(pc: Pc) { pc.TestLoad? || pc.ExtendLoad? || pc.ExtendCas? }

  lemma RunExtending(s: State, x: Aux, t: nat)
    requires Ready(s, x, t) && Extending(s.threads[t].pc)
    ensures StepOk(s, Run(t), x, Next(s, Run(t)), x)
  {
    hide ListOk, Evolves, PendingOk, Shr;
    ListBounds(s, x);
    var s', seen' := Next(s, Run(t)), Sees(x.seen[t], KeyOf(s, t), x.model, 0);
    hide PcOk;
    AtCounting(s, x, t, x.seen[t], seen', s');
    QuietOk(s, x, t, s', x);
  }

  lemma LinkerInserts(s: State, x: Aux, t: nat)
    requires Ready(s, x, t) && s.threads[t].pc.LinkNode?
    ensures NeedsNode(s.threads[t])
  {
  }

  lemma RunLinkNode(s: State, x: Aux, t: nat) returns (y: Aux)
    requires Ready(s, x, t) && s.threads[t].pc.LinkNode?
    ensures StepOk(s, Run(t), x, Next(s, Run(t)), y)
  {
    hide ListOk, Evolves, PcOk, PendingOk;
    var th := s.threads[t];
    LinkerInserts(s, x, t);
    var added := th.pending == [] && CasSucceeds(s, th.pc.pred, th.pc.cur);
    y := AtLinkNode(s, x, t, x.seen[t],
      Sees(x.seen[t], th.op.key, if added then x.model[th.op.key := th.op.value] else x.model, if added then 1 else 0));
  }

  lemma SizeWithout(m: map<Key, Value>, k: Key)
    requires k in m
    ensures |m - {k}| == |m| - 1
  {
    assert (m - {k})[k := m[k]] == m;
  }

  /** The successful marking CAS, seen from the abstract map and the counter. */
  lemma MarkedOk(s: State, x: Aux, t: nat, s': State, y: Aux)
    requires |x.seen| == |s.threads| && t < |s.threads| && 0 <= s.size < SIZE_RANGE
    requires Enabled(s, Run(t)) && s.threads[t].pc.MarkVictim?
    requires var th := s.threads[t];
             && CasSucceeds(s, th.pc.cur, th.pc.succ)
             && s' == DoMarkVictim(s, t, th.pc.pred, th.pc.cur, th.pc.succ)
             && th.op.key in x.model && y.model == x.model - {th.op.key}
             && Outcome(s, x, s', y, t, Sees(x.seen[t], th.op.key, y.model, 1))
    ensures StepOk(s, Run(t), x, s', y)
  {
    hide ListOk, Evolves, ThreadOk;
    SizeWithout(x.model, s.threads[t].op.key);
  }

  lemma RunMarkVictim(s: State, x: Aux, t: nat) returns (y: Aux)
    requires Ready(s, x, t) && s.threads[t].pc.MarkVictim?
    ensures StepOk(s, Run(t), x, Next(s, Run(t)), y)
  {
    hide ListOk, Evolves, PcOk, PendingOk, Outcome, StepOk;
    var th, s' := s.threads[t], Next(s, Run(t));
    if CasSucceeds(s, th.pc.cur, th.pc.succ) {
      y := AtMarkVictim(s, x, t, x.seen[t], Sees(x.seen[t], th.op.key, x.model - {th.op.key}, 1));
      MarkedOk(s, x, t, s', y);
    } else {
      y := AtMarkVictim(s, x, t, x.seen[t], Sees(x.seen[t], th.op.key, x.model, 0));
      QuietOk(s, x, t, s', y);
    }
  }

  lemma RunCounter(s: State, x: Aux, t: nat)
    requires Ready(s, x, t) && (s.threads[t].pc.IncSize? || s.threads[t].pc.DecSize?)
    ensures StepOk(s, Run(t), x, Next(s, Run(t)), x)
  {
    hide HeapOk, PublishedOk, ChainOk, ModelOk, SlotsOk, Evolves, PcOk, PendingOk;
    AtCounting(s, x, t, x.seen[t], Sees(x.seen[t], KeyOf(s, t), x.model, 0), Next(s, Run(t)));
  }

  lemma RunReturn(s: State, x: Aux, t: nat)
    requires Ready(s, x, t) && (s.threads[t].pc.Return? || s.threads[t].pc.GetReturn?)
    ensures StepOk(s, Run(t), x, Next(s, Run(t)), x)
  {
    hide ListOk, Evolves, PcOk, PendingOk;
    AtReturn(s, x, t, x.seen[t], Seen(false, false, 0));
  }

  lemma RunGetHead(s: State, x: Aux, t: nat)
    requires Ready(s, x, t) && s.threads[t].pc.GetHead?
    ensures StepOk(s, Run(t), x, Next(s, Run(t)), x)
  {
    hide ListOk, Evolves, PcOk, PendingOk;
    var s', seen' := Next(s, Run(t)), Sees(x.seen[t], KeyOf(s, t), x.model, 0);
    AtGetHead(s, x, t, x.seen[t], seen', s');
    QuietOk(s, x, t, s', x);
  }

  lemma RunGetFirst(s: State, x: Aux, t: nat)
    requires Ready(s, x, t) && s.threads[t].pc.GetFirst?
    ensures StepOk(s, Run(t), x, Next(s, Run(t)), x)
  {
    hide ListOk, Evolves, PcOk, PendingOk;
    var s', seen' := Next(s, Run(t)), Sees(x.seen[t], KeyOf(s, t), x.model, 0);
    AtGetFirst(s, x, t, x.seen[t], seen', s');
    QuietOk(s, x, t, s', x);
  }

  lemma RunGetWalk(s: State, x: Aux, t: nat)
    requires Ready(s, x, t) && s.threads[t].pc.GetWalk?
    ensures StepOk(s, Run(t), x, Next(s, Run(t)), x)
  {
    hide ListOk, Evolves, PcOk, PendingOk;
    var s', seen' := Next(s, Run(t)), Sees(x.seen[t], KeyOf(s, t), x.model, 0);
    AtGetWalk(s, x, t, x.seen[t], seen', s');
    QuietOk(s, x, t, s', x);
  }

  lemma StartOk(s: State, x: Aux, a: Step)
    requires Inv(s, x) && Enabled(s, a) && a.Start?
    ensures StepOk(s, a, x, Next(s, a), x)
  {
    var k := a.op.key;
    AtStart(s, x, a.t, a.op, Seen(k !in x.model, k in x.model, 0));
  }

  lemma RunOk(s: State, x: Aux, t: nat) returns (y: Aux)
    requires Inv(s, x) && Enabled(s, Run(t))
    ensures StepOk(s, Run(t), x, Next(s, Run(t)), y)
  {
    InvLocal(s, x, t);
    y := RunReady(s, x, t);
  }

  lemma RunReady(s: State, x: Aux, t: nat) returns (y: Aux)
    requires Ready(s, x, t)
    ensures StepOk(s, Run(t), x, Next(s, Run(t)), y)
  {
    y := x;
    assert t < |s.threads| && s.threads[t].Busy?;
    hide Ready, StepOk;
    match s.threads[t].pc {
      case LoadSlot => RunLoadSlot(s, x, t);
      case StartWalk => RunStartWalk(s, x, t);
      case LoadFirst(_) => RunLoadFirst(s, x, t);
      case LoadNext(_, _) => RunLoadNext(s, x, t);
      case Unlink(_, _, _) => y := RunUnlink(s, x, t);
      case Found(_, _) => RunFound(s, x, t);
      case LinkNode(_, _) => y := RunLinkNode(s, x, t);
      case LoadVictim(_, _) => RunLoadVictim(s, x, t);
      case MarkVictim(_, _, _) => y := RunMarkVictim(s, x, t);
      case UnlinkVictim(_, _, _) => y := RunUnlinkVictim(s, x, t);
      case CheckSlot(_) => RunCheckSlot(s, x, t);
      case StoreSlot(_) => RunStoreSlot(s, x, t);
      case IncSize => RunCounter(s, x, t);
      case DecSize => RunCounter(s, x, t);
      case Return(_) => RunReturn(s, x, t);
      case GetHead => RunGetHead(s, x, t);
      case GetFirst(_) => RunGetFirst(s, x, t);
      case GetWalk(_, _) => RunGetWalk(s, x, t);
      case GetReturn(_) => RunReturn(s, x, t);
      case _ => RunExtending(s, x, t);
    }
  }

  lemma StepParts(s: State, a: Step, x: Aux)
    requires Inv(s, x) && Enabled(s, a)
    ensures s.cfg.width >= 3 && |x.seen| == |s.threads| && a.t < |s.threads|
  {
  }

  lemma StepModel(s: State, a: Step, x: Aux, y: Aux)
    requires s.cfg.width >= 3 && |x.seen| == |s.threads| && Enabled(s, a) && StepOk(s, a, x, Next(s, a), y)
    ensures ModelStep(x.model, EventOf(s, a), y.model)
  {
  }

  /**
    The invariant survives every step, and every step has the effect of its event on the
    abstract map: a successful add or mark CAS is exactly one insertion or deletion.
  */
  lemma StepKeeps(s: State, a: Step, x: Aux) returns (x': Aux)
    requires Inv(s, x) && Enabled(s, a)
    ensures Inv(Next(s, a), x')
    ensures ModelStep(x.model, EventOf(s, a), x'.model)
    ensures SeenStep(s, a, x, Next(s, a), x')
    ensures Evolves(s, x, Next(s, a), x', OwnNode(s.threads[a.t]))
  {
    hide Inv, StepOk, Evolves, SeenStep;
    StepParts(s, a, x);
    var y := x;
    if a.Start? {
      StartOk(s, x, a);
    } else {
      y := RunOk(s, x, a.t);
    }
    StepModel(s, a, x, y);
    x' := Assemble(s, a, x, Next(s, a), y);
  }

  // ---------------------------------------------------------------- whole runs

  /** A run from the constructed map: any schedule of calls and steps of any number of threads. */
  ghost predicate IsRun(states: seq<State>, steps: seq<Step>) {
    && |states| == |steps| + 1
    && Init(states[0])
    && forall i :: 0 <= i < |steps| ==> Enabled(states[i], steps[i]) && states[i + 1] == Next(states[i], steps[i])
  }

  function Update(m: map<Key, Value>, e: Event): map<Key, Value> {
    match e
    case Silent => m
    case Added(k, v) => m[k := v]
    case Removed(k) => m - {k}
  }

  /** The abstract map after `n` steps: the updates of the events, one after the other. */
  ghost function ModelAt(states: seq<State>, steps: seq<Step>, n: nat): map<Key, Value>
    requires IsRun(states, steps) && n <= |steps|
  {
    if n == 0 then map[] else Update(ModelAt(states, steps, n - 1), EventOf(states[n - 1], steps[n - 1]))
  }

  /** Where the latest call of thread `t` began. */
  ghost function CallStart(steps: seq<Step>, n: nat, t: nat): (from: nat)
    requires n <= |steps|
    ensures from <= n
  {
    if n == 0 then 0
    else if steps[n - 1].Start? && steps[n - 1].t == t then n
    else CallStart(steps, n - 1, t)
  }

  /** How many of the steps `from..n` of thread `t` changed the abstract map. */
  ghost function Effects(states: seq<State>, steps: seq<Step>, from: nat, n: nat, t: nat): nat
    requires IsRun(states, steps) && n <= |steps|
  {
    if n <= from then 0
    else Effects(states, steps, from, n - 1, t)
         + if steps[n - 1].t == t && !EventOf(states[n - 1], steps[n - 1]).Silent? then 1 else 0
  }

  ghost predicate AbsentSomewhen(states: seq<State>, steps: seq<Step>, from: nat, n: nat, k: Key)
    requires IsRun(states, steps) && n <= |steps|
  {
    exists j :: from <= j <= n && k !in ModelAt(states, steps, j)
  }

  ghost predicate PresentSomewhen(states: seq<State>, steps: seq<Step>, from: nat, n: nat, k: Key)
    requires IsRun(states, steps) && n <= |steps|
  {
    exists j :: from <= j <= n && k in ModelAt(states, steps, j)
  }

  /** The observations of the proof are facts about the run. */
  ghost predicate SeenMeans(states: seq<State>, steps: seq<Step>, n: nat, t: nat, seen: Seen)
    requires IsRun(states, steps) && n <= |steps| && t < |states[n].threads|
  {
    states[n].threads[t].Busy? ==>
      var from, k := CallStart(steps, n, t), states[n].threads[t].op.key;
      && (seen.absent ==> AbsentSomewhen(states, steps, from, n, k))
      && (seen.present ==> PresentSomewhen(states, steps, from, n, k))
      && seen.effects == Effects(states, steps, from, n, t)
  }

  lemma TotalOwedIdle(ths: seq<Thread>)
    requires forall t :: 0 <= t < |ths| ==> ths[t].Idle?
    ensures TotalOwed(ths) == 0
  {
    SumOfZeros(seq(|ths|, t requires 0 <= t < |ths| => Owed(ths[t])));
  }

  lemma InitListOk(s: State, x: Aux)
    requires Init(s) && x.chain == [HEAD, LAST] && x.published == {HEAD, LAST} && x.model == map[]
    ensures ListOk(s, x)
  {
    KeyShape(s.cfg.width, 0);
    LowOfSmall(0, s.cfg.width - 2);
    ReverseBound(s.cfg.width, 0);
    assert MaxKey(s.cfg.width) > 0 by {
      assert Pow2(s.cfg.width) == 2 * Pow2(s.cfg.width - 1);
    }
    assert SlotOk(s.cfg, s.heap, x.published, 0, HEAD);
  }

  /** The constructed map satisfies the invariant and is empty. */
  lemma InitOk(s: State) returns (x: Aux)
    requires Init(s)
    ensures Inv(s, x) && x.model == map[]
  {
    hide ListOk, ChainOk, HeapOk, SlotsOk;
    x := Aux([HEAD, LAST], {HEAD, LAST}, map[], seq(|s.threads|, _ => Seen(false, false, 0)));
    InitListOk(s, x);
    TotalOwedIdle(s.threads);
  }

  lemma SeenMeansStep(states: seq<State>, steps: seq<Step>, n: nat, t: nat, seen: Seen, seen': Seen)
    requires IsRun(states, steps) && n < |steps|
    requires t < |states[n].threads| == |states[n + 1].threads|
    requires SeenMeans(states, steps, n, t, seen)
    requires seen' == Observe(states[n], steps[n], states[n + 1], ModelAt(states, steps, n + 1), seen, t)
    ensures SeenMeans(states, steps, n + 1, t, seen')
  {
    var th, th', a := states[n].threads[t], states[n + 1].threads[t], steps[n];
    if th'.Busy? {
      var from, from' := CallStart(steps, n, t), CallStart(steps, n + 1, t);
      var k := th'.op.key;
      assert k in ModelAt(states, steps, n + 1) ==> PresentSomewhen(states, steps, from', n + 1, k);
      assert k !in ModelAt(states, steps, n + 1) ==> AbsentSomewhen(states, steps, from', n + 1, k);
      CallsKeepOp(states[n], a, t);
      if !(a.Start? && a.t == t) {
        assert th.Busy? && th.op == th'.op && from' == from;
        if seen.absent {
          var j :| from <= j <= n && k !in ModelAt(states, steps, j);
          assert from <= j <= n + 1;
        }
        if seen.present {
          var j :| from <= j <= n && k in ModelAt(states, steps, j);
          assert from <= j <= n + 1;
        }
      }
    }
  }

  /** A thread keeps its operation until it returns. */
  lemma CallsKeepOp(s: State, a: Step, t: nat)
    requires Enabled(s, a) && t < |s.threads|
    ensures |Next(s, a).threads| == |s.threads| && Next(s, a).cfg == s.cfg
    ensures var th' := Next(s, a).threads[t];
            if a.Start? && a.t == t then th'.Busy? && th'.op == a.op
            else th'.Busy? ==> s.threads[t].Busy? && th'.op == s.threads[t].op
  {
    if a.Run? {
      RunKeepsOp(s, a.t);
      hide Next;
    }
  }

  predicate Simple(pc: Pc) {
    || pc.StartWalk? || pc.LoadFirst? || pc.LoadNext? || pc.Unlink? || pc.LoadVictim? || pc.MarkVictim?
    || pc.UnlinkVictim?
    || pc.GetHead? || pc.GetFirst? || pc.GetWalk? || pc.GetReturn? || pc.Return?
  }

  lemma RunKeepsOp(s: State, t: nat)
    requires Enabled(s, Run(t))
    ensures var s' := Next(s, Run(t));
            && |s'.threads| == |s.threads| && s'.threads == s.threads[t := s'.threads[t]] && s'.cfg == s.cfg
            && (s'.threads[t].Busy? ==> s'.threads[t].op == s.threads[t].op)
  {
    if Simple(s.threads[t].pc) {
      SimpleKeepsOp(s, t);
    }
  }

  lemma SimpleKeepsOp(s: State, t: nat)
    requires Enabled(s, Run(t)) && Simple(s.threads[t].pc)
    ensures var s' := Next(s, Run(t));
            && |s'.threads| == |s.threads| && s'.threads == s.threads[t := s'.threads[t]] && s'.cfg == s.cfg
            && (s'.threads[t].Busy? ==> s'.threads[t].op == s.threads[t].op)
  {
  }

  /** `x` explains the state after `n` steps, with the map the events build and the observations of each call. */
  ghost predicate Describes(states: seq<State>, steps: seq<Step>, n: nat, x: Aux)
    requires IsRun(states, steps) && n <= |steps|
  {
    && Inv(states[n], x) && x.model == ModelAt(states, steps, n) && |x.seen| == |states[n].threads|
    && forall t :: 0 <= t < |states[n].threads| ==> SeenMeans(states, steps, n, t, x.seen[t])
  }

  /** One more step of a run. */
  lemma RunStep(states: seq<State>, steps: seq<Step>, n: nat, x: Aux) returns (x': Aux)
    requires IsRun(states, steps) && n < |steps| && Describes(states, steps, n, x)
    ensures Describes(states, steps, n + 1, x') && SeenStep(states[n], steps[n], x, states[n + 1], x')
    ensures states[n].cfg.width >= 3 && Evolves(states[n], x, states[n + 1], x', OwnNode(states[n].threads[steps[n].t]))
  {
    hide Inv, Next, Evolves;
    x' := StepKeeps(states[n], steps[n], x);
    forall t | 0 <= t < |states[n + 1].threads| ensures SeenMeans(states, steps, n + 1, t, x'.seen[t]) {
      CallsKeepOp(states[n], steps[n], t);
      SeenMeansStep(states, steps, n, t, x.seen[t], x'.seen[t]);
    }
  }

  /** Every reachable state satisfies the invariant, with the map the events build. */
  lemma {:induction false} RunKeeps(states: seq<State>, steps: seq<Step>, n: nat) returns (x: Aux)
    requires IsRun(states, steps) && n <= |steps|
    ensures Describes(states, steps, n, x)
  {
    hide Inv, Next, Enabled, SeenMeans;
    if n == 0 {
      x := InitOk(states[0]);
      InitSeen(states[0], x);
      InitMeans(states, steps, x);
    } else {
      var x0 := RunKeeps(states, steps, n - 1);
      x := RunStep(states, steps, n - 1, x0);
    }
  }

  lemma InitMeans(states: seq<State>, steps: seq<Step>, x: Aux)
    requires IsRun(states, steps) && |x.seen| == |states[0].threads|
    ensures forall t :: 0 <= t < |states[0].threads| ==> SeenMeans(states, steps, 0, t, x.seen[t])
  {
  }

  lemma InitSeen(s: State, x: Aux)
    requires Inv(s, x)
    ensures |x.seen| == |s.threads|
  {
  }

  /**
    Linearizability of `insert` and `remove`.  A call that returns true has changed the abstract
    map exactly once, by its own key; a call that returns false has not changed it, and at some
    instant of the call its key was present (`insert`) or absent (`remove`).  A `find` that
    returns has not changed it either.
  */
  lemma CallsAreAtomic(states: seq<State>, steps: seq<Step>, n: nat, t: nat)
    requires IsRun(states, steps) && n <= |steps| && t < |states[n].threads|
    requires states[n].threads[t].Busy? && Returning(states[n].threads[t].pc)
    ensures var th, from := states[n].threads[t], CallStart(steps, n, t);
            && (th.pc.GetReturn? <==> th.op.Find?)
            && Effects(states, steps, from, n, t) == (if th.pc.Return? && th.pc.result then 1 else 0)
            && (th.pc == Return(false) && th.op.Insert? ==> PresentSomewhen(states, steps, from, n, th.op.key))
            && (th.pc == Return(false) && th.op.Remove? ==> AbsentSomewhen(states, steps, from, n, th.op.key))
  {
    hide Inv;
    var x := RunKeeps(states, steps, n);
    assert SeenMeans(states, steps, n, t, x.seen[t]);
    ReturnOk(states[n], x, t);
  }

  predicate Returning(pc: Pc) { pc.Return? || pc.GetReturn? }

  lemma ReturnOk(s: State, x: Aux, t: nat)
    requires Inv(s, x) && t < |s.threads| == |x.seen| && s.threads[t].Busy? && Returning(s.threads[t].pc)
    ensures var th, seen := s.threads[t], x.seen[t];
            && (th.pc.GetReturn? <==> th.op.Find?)
            && seen.effects == (if th.pc.Return? && th.pc.result then 1 else 0)
            && (th.pc == Return(false) ==> if th.op.Insert? then seen.present else seen.absent)
  {
    hide ChainOk, ModelOk, SlotsOk, HeapOk, PublishedOk;
    assert ThreadOk(s, x, s.threads[t], x.seen[t]);
  }

  /** Every event of a run is a proper update: only absent keys are added, only present ones removed. */
  lemma EventsAreUpdates(states: seq<State>, steps: seq<Step>, n: nat)
    requires IsRun(states, steps) && n < |steps|
    ensures ModelStep(ModelAt(states, steps, n), EventOf(states[n], steps[n]), ModelAt(states, steps, n + 1))
  {
    hide Inv;
    var x := RunKeeps(states, steps, n);
    var x' := StepKeeps(states[n], steps[n], x);
  }

  /**
    In every reachable state the links from the head visit a strictly sorted list that ends at the
    last node; its unmarked elements are the abstract map, and no two nodes on it, marked or not,
    have the same key.
  */
  lemma ListIsTheMap(states: seq<State>, steps: seq<Step>, n: nat) returns (chain: seq<nat>)
    requires IsRun(states, steps) && n <= |steps|
    ensures ChainOk(states[n].heap, chain)
    ensures ModelOk(states[n].heap, chain, ModelAt(states, steps, n))
    ensures forall i, j :: 0 <= i < j < |chain| && states[n].heap[chain[i]].item.Entry?
              ==> !states[n].heap[chain[j]].HasKey(states[n].heap[chain[i]].item.key)
  {
    var x := RunKeeps(states, steps, n);
    chain := x.chain;
    var heap := states[n].heap;
    forall i, j | 0 <= i < j < |chain| && heap[chain[i]].item.Entry?
      ensures !heap[chain[j]].HasKey(heap[chain[i]].item.key)
    {
      assert NodeOk(states[n].cfg, chain[i], heap[chain[i]]) && NodeOk(states[n].cfg, chain[j], heap[chain[j]]);
      assert Before(heap[chain[i]], heap[chain[j]]);
    }
  }

  /** Threads never fault, in every reachable state. */
  lemma RunsAreSafe(states: seq<State>, steps: seq<Step>, n: nat, t: nat)
    requires IsRun(states, steps) && n <= |steps| && t < |states[n].threads| && states[n].threads[t].Busy?
    ensures Enabled(states[n], Run(t))
  {
    var x := RunKeeps(states, steps, n);
    NoFault(states[n], x, t);
  }

  /** Once a node is marked, neither its mark nor its link changes any more. */
  lemma {:induction false} MarkedIsFrozen(states: seq<State>, steps: seq<Step>, i: nat, j: nat, n: nat)
    requires IsRun(states, steps) && i <= j <= |steps|
    requires n < |states[i].heap| && states[i].heap[n].mark
    ensures n < |states[j].heap| && states[j].heap[n] == states[i].heap[n]
    decreases j
  {
    if i < j {
      MarkedIsFrozen(states, steps, i, j - 1, n);
      var x := RunKeeps(states, steps, j - 1);
      var x' := StepKeeps(states[j - 1], steps[j - 1], x);
    }
  }

  /** With no call in progress the counter is the number of elements, in 32-bit arithmetic. */
  lemma QuiescentSize(states: seq<State>, steps: seq<Step>, n: nat)
    requires IsRun(states, steps) && n <= |steps|
    requires forall t :: 0 <= t < |states[n].threads| ==> states[n].threads[t].Idle?
    ensures states[n].size == |ModelAt(states, steps, n)| % SIZE_RANGE
  {
    assert n < |states|;
    hide Inv, Next, Enabled, EventOf, IsRun, TotalOwed;
    var x := RunKeeps(states, steps, n);
    TotalOwedIdle(states[n].threads);
    NothingOwed(states[n], x);
  }

  lemma NothingOwed(s: State, x: Aux)
    requires Inv(s, x) && TotalOwed(s.threads) == 0
    ensures s.size == |x.model| % SIZE_RANGE
  {
    ResidueIsUnique(s.size, TotalOwed(s.threads), |x.model|, SIZE_RANGE);
  }
}
