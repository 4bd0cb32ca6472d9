/**
  What `find` answers while other threads work.

  It answers as the map does at some instant of the call if during the call no linked node is
  marked, whatever else any number of threads do; so it does in every run without `remove`.  With
  `remove` and a second thread it need not.
*/
module LockFreeHashMapAnswers {
  import opened Arithmetic
  import opened Sequences
  import opened SplitOrder
  import opened LockFreeHashMap
  import opened LockFreeHashMapProof
  import opened LockFreeHashMapSteps
  import opened LockFreeHashMapFind
  import opened LockFreeHashMapRaces

  /** The answer `r` is that of the abstract map at some instant from step `from` to step `n`. */
  ghost predicate RightSomewhen(
    states: seq<State>, steps: seq<Step>, from: nat, n: nat, k: Key, r: Option<Value>)
    requires IsRun(states, steps) && n <= |steps|
  {
    exists j :: from <= j <= n && r == MapLookup(ModelAt(states, steps, j), k)
  }

  /** If thread `t` is about to return from `find`, its answer was right at some instant of the call. */
  ghost predicate AnswersRight(states: seq<State>, steps: seq<Step>, n: nat, t: nat)
    requires IsRun(states, steps) && n <= |steps| && t < |states[n].threads|
  {
    var th := states[n].threads[t];
    th.Busy? && th.pc.GetReturn? ==>
      RightSomewhen(states, steps, CallStart(steps, n, t), n, th.op.key, th.pc.found)
  }

  ghost predicate CleanFrom(states: seq<State>, from: nat, n: nat)
    requires n < |states|
  {
    forall j :: from <= j <= n ==> Clean(states[j])
  }

  // ---------------------------------------------------------------- nodes are marked by `remove`

  /** The step is a successful marking CAS. */
  predicate Marks(s: State, a: Step) {
    && a.Run? && a.t < |s.threads| && s.threads[a.t].Busy? && s.threads[a.t].pc.MarkVictim?
    && IsNode(s, s.threads[a.t].pc.cur) && CasSucceeds(s, s.threads[a.t].pc.cur, s.threads[a.t].pc.succ)
  }

  lemma MarkerWrites(s: State, a: Step)
    requires Enabled(s, a) && Marks(s, a)
    ensures var cur := s.threads[a.t].pc.cur; Next(s, a).heap == s.heap[cur := s.heap[cur].(mark := true)]
  {
  }

  /** All other steps leave the marks alone, and new nodes are not marked. */
  ghost predicate SameMarks(heap: seq<Node>, heap': seq<Node>) {
    && |heap| <= |heap'|
    && (forall n :: 0 <= n < |heap| ==> heap'[n].mark == heap[n].mark)
    && (forall n :: |heap| <= n < |heap'| ==> !heap'[n].mark)
  }

  lemma OthersMarkNothing(s: State, a: Step)
    requires Enabled(s, a) && !Marks(s, a)
    ensures SameMarks(s.heap, Next(s, a).heap)
  {
    if a.Run? && Simple(s.threads[a.t].pc) {
      SimpleMarksNothing(s, a.t);
    }
  }

  lemma SimpleMarksNothing(s: State, t: nat)
    requires Enabled(s, Run(t)) && Simple(s.threads[t].pc) && !Marks(s, Run(t))
    ensures SameMarks(s.heap, Next(s, Run(t)).heap)
  {
  }

  lemma VictimIsEntry(s: State, x: Aux, t: nat)
    requires Inv(s, x) && t < |s.threads| && s.threads[t].Busy? && s.threads[t].pc.MarkVictim?
    ensures ListOk(s, x)
    ensures var n := s.threads[t].pc.cur; IsNode(s, n) && n in x.published && s.heap[n].item.Entry?
    ensures s.threads[t].op.Remove?
  {
    InvLocal(s, x, t);
    hide ListOk, PendingOk, WalkOk, PredOk;
  }

  /** A linked node that is not marked is not marked by a step that leaves the list clean. */
  lemma StaysUnmarked(s: State, a: Step, x: Aux, n: int)
    requires Inv(s, x) && Enabled(s, a) && Clean(Next(s, a))
    requires n in x.chain && IsNode(s, n) && !s.heap[n].mark
    ensures n < |Next(s, a).heap| && !Next(s, a).heap[n].mark
  {
    hide Inv, Next, Enabled, ListOk, Clean, Marks;
    if Marks(s, a) {
      MarkIsSeen(s, a, x);
    } else {
      OthersMarkNothing(s, a);
    }
  }

  /** The marking CAS marks a linked node. */
  lemma MarkIsSeen(s: State, a: Step, x: Aux)
    requires Inv(s, x) && Enabled(s, a) && Marks(s, a)
    ensures !Clean(Next(s, a))
  {
    var cur, s' := s.threads[a.t].pc.cur, Next(s, a);
    VictimIsEntry(s, x, a.t);
    MarkerWrites(s, a);
    hide Next, Enabled, Inv;
    var i :| 0 <= i < |x.chain| && x.chain[i] == cur;
    MarkInChain(s.cfg, s.heap, x.chain, x.published, cur, s'.heap);
    hide ListOk, ChainOk;
    assert s'.heap[x.chain[i]].mark;
  }

  // ---------------------------------------------------------------- a search of a clean list

  /** What is known of a search that has met no marked node. */
  ghost predicate SearchOk(s: State, x: Aux, th: Thread, seen: Seen)
    requires s.cfg.width >= 3
  {
    th.Busy? ==>
      && (th.pc.GetFirst? ==> PredOk(s, x, th, th.pc.pred) && s.heap[th.pc.pred].item.Sentinel?)
      && (th.pc.GetWalk? ==>
            && !th.pc.mark && CurOk(s, x, th, seen, th.pc.cur)
            && th.pc.cur in x.chain && !s.heap[th.pc.cur].mark)
  }

  /** Another thread's step. */
  lemma SearchSurvivesStep(s: State, a: Step, x: Aux, x': Aux, th: Thread, seen: Seen, seen': Seen)
    requires Inv(s, x) && Enabled(s, a) && Clean(Next(s, a)) && Inv(Next(s, a), x')
    requires s.cfg.width >= 3 && Next(s, a).cfg == s.cfg
    requires Evolves(s, x, Next(s, a), x', OwnNode(s.threads[a.t])) && SeenGrows(seen, seen')
    requires SearchOk(s, x, th, seen)
    ensures SearchOk(Next(s, a), x', th, seen')
  {
    var s', own := Next(s, a), OwnNode(s.threads[a.t]);
    hide Inv, Enabled, Next, Clean;
    if th.Busy? && th.pc.GetFirst? {
      PredSurvives(s, x, s', x', own, th, th.pc.pred);
    } else if th.Busy? && th.pc.GetWalk? {
      CurSurvives(s, x, s', x', own, th, seen, seen', th.pc.cur);
      StaysUnmarked(s, a, x, th.pc.cur);
      hide CurOk;
      StaysLinked(s', x', th, seen', th.pc.cur);
    }
    hide PredOk, CurOk, Evolves;
  }

  lemma StaysLinked(s: State, x: Aux, th: Thread, seen: Seen, n: int)
    requires Inv(s, x) && th.Busy? && s.cfg.width >= 3 && CurOk(s, x, th, seen, n) && !s.heap[n].mark
    ensures n in x.chain
  {
  }

  /** The own steps of a search, seen from the list it reads. */
  lemma SearchHead(s: State, x: Aux, t: nat, seen: Seen)
    requires s.cfg.width >= 3 && ListOk(s, x) && Enabled(s, Run(t)) && s.threads[t].pc.GetHead?
    requires s.threads[t].pending == [] && PendingOk(s, s.threads[t])
    ensures SearchOk(s, x, Next(s, Run(t)).threads[t], seen)
  {
    var th := s.threads[t];
    var pred := s.slots[StartIndex(s.cfg, th)];
    assert Next(s, Run(t)) == Goto(s, t, GetFirst(pred));
    hide ListOk, PendingOk, Next, Enabled;
    StartPrecedes(s, x, th, pred);
    Relabel(s, x, th, seen, seen, GetFirst(pred));
    hide PredOk;
  }

  lemma SearchFirst(s: State, x: Aux, t: nat, seen: Seen)
    requires s.cfg.width >= 3 && ListOk(s, x) && NoneMarked(s.heap, x.chain)
    requires Enabled(s, Run(t)) && s.threads[t].pc.GetFirst? && PendingOk(s, s.threads[t])
    requires SearchOk(s, x, s.threads[t], seen) && (s.threads[t].op.key !in x.model ==> seen.absent)
    ensures SearchOk(s, x, Next(s, Run(t)).threads[t], seen)
  {
    var th, pred := s.threads[t], s.threads[t].pc.pred;
    assert Next(s, Run(t)) == Goto(s, t, GetWalk(s.heap[pred].next, s.heap[pred].mark));
    assert NodeOk(s.cfg, pred, s.heap[pred]) && IsNode(s, pred);
    hide PendingOk, Next, Enabled;
    Follow(s, x, th, seen, pred);
    NextUnmarked(s, x, pred);
    hide ListOk, PredOk;
    Relabel(s, x, th, seen, seen, GetWalk(s.heap[pred].next, s.heap[pred].mark));
    hide CurOk;
  }

  lemma NextUnmarked(s: State, x: Aux, n: int)
    requires ListOk(s, x) && NoneMarked(s.heap, x.chain)
    requires IsNode(s, n) && n in x.published && n != LAST && !s.heap[n].mark
    ensures s.heap[n].next in x.chain && IsNode(s, s.heap[n].next) && !s.heap[s.heap[n].next].mark
  {
    var i := LinkedPair(s.heap, x.chain, x.published, n);
    assert x.chain[i + 1] == s.heap[n].next;
  }

  lemma SearchGoesOn(s: State, x: Aux, t: nat, seen: Seen)
    requires s.cfg.width >= 3 && ListOk(s, x) && NoneMarked(s.heap, x.chain)
    requires Enabled(s, Run(t)) && s.threads[t].pc.GetWalk? && PendingOk(s, s.threads[t]) && s.threads[t].pending == []
    requires SearchOk(s, x, s.threads[t], seen) && (s.threads[t].op.key !in x.model ==> seen.absent)
    requires GetGoesOn(s.cfg, s.threads[t], s.heap[s.threads[t].pc.cur])
    ensures SearchOk(s, x, Next(s, Run(t)).threads[t], seen)
  {
    var th, cur := s.threads[t], s.threads[t].pc.cur;
    var pc' := GetWalk(s.heap[cur].next, s.heap[cur].mark);
    assert Next(s, Run(t)) == Goto(s, t, pc') && IsNode(s, cur) && cur in x.published;
    hide PendingOk, Next, Enabled, ListOk, PredOk;
    GetReads(s, x, th, cur);
    KeyHash(s, x, cur, th.op.key);
    PassOk(s, x, th, seen, cur);
    Follow(s, x, th, seen, cur);
    NextUnmarked(s, x, cur);
    Relabel(s, x, th, seen, seen, pc');
    hide CurOk;
  }

  /** The answer is that of the map at this instant, or the key has been absent during the call. */
  lemma SearchEnds(s: State, x: Aux, t: nat, seen: Seen)
    requires s.cfg.width >= 3 && ListOk(s, x)
    requires Enabled(s, Run(t)) && s.threads[t].pc.GetWalk? && s.threads[t].pending == []
    requires SearchOk(s, x, s.threads[t], seen)
    requires !GetGoesOn(s.cfg, s.threads[t], s.heap[s.threads[t].pc.cur])
    ensures var pc, k := Next(s, Run(t)).threads[t].pc, s.threads[t].op.key;
            pc.GetReturn? && if pc.found.None? then seen.absent else pc.found == MapLookup(x.model, k)
  {
    var th, cur := s.threads[t], s.threads[t].pc.cur;
    KeyHash(s, x, cur, th.op.key);
    var i :| 0 <= i < |x.chain| && x.chain[i] == cur;
    assert Next(s, Run(t)) == DoGetWalk(s, t, cur, false);
    hide Next, Enabled;
    if s.heap[cur].HasKey(th.op.key) {
      LookupAt(s, x, th.op.key, i);
    }
    hide ListOk;
  }

  // ---------------------------------------------------------------- whole runs

  ghost predicate SearchDescribes(states: seq<State>, steps: seq<Step>, n: nat, t: nat, x: Aux)
    requires IsRun(states, steps) && n <= |steps| && t < |states[n].threads|
  {
    && Describes(states, steps, n, x)
    && states[n].cfg.width >= 3 && SearchOk(states[n], x, states[n].threads[t], x.seen[t])
  }

  lemma LaterIsRight(states: seq<State>, steps: seq<Step>, from: nat, n: nat, m: nat, k: Key, r: Option<Value>)
    requires IsRun(states, steps) && n <= m <= |steps| && RightSomewhen(states, steps, from, n, k, r)
    ensures RightSomewhen(states, steps, from, m, k, r)
  {
    var j :| from <= j <= n && r == MapLookup(ModelAt(states, steps, j), k);
    assert from <= j <= m;
  }

  /** A step of the run, and what the proof knows before and after it. */
  ghost predicate Carried(s: State, a: Step, s': State, x: Aux, x': Aux) {
    && Enabled(s, a) && s' == Next(s, a) && Inv(s, x) && Inv(s', x')
    && s.cfg.width >= 3 && s'.cfg == s.cfg && |s'.threads| == |s.threads|
    && SeenStep(s, a, x, s', x') && x'.model == Update(x.model, EventOf(s, a))
    && Evolves(s, x, s', x', OwnNode(s.threads[a.t]))
  }

  lemma CarriedStep(states: seq<State>, steps: seq<Step>, n: nat, x: Aux) returns (x': Aux)
    requires IsRun(states, steps) && n < |steps| && Describes(states, steps, n, x)
    ensures Describes(states, steps, n + 1, x') && Carried(states[n], steps[n], states[n + 1], x, x')
  {
    CallsKeepOp(states[n], steps[n], steps[n].t);
    hide Inv, Next, Evolves, SeenStep, SeenMeans, EventOf;
    x' := RunStep(states, steps, n, x);
  }

  /** A step of another thread. */
  lemma OtherSearch(s: State, a: Step, t: nat, s': State, x: Aux, x': Aux)
    requires Carried(s, a, s', x, x') && t < |s.threads| && a.t != t
    requires t < |x.seen| && t < |x'.seen| && SearchOk(s, x, s.threads[t], x.seen[t]) && Clean(s')
    ensures t < |s'.threads| && s'.threads[t] == s.threads[t] && SearchOk(s', x', s'.threads[t], x'.seen[t])
  {
    OthersStay(s, a, t);
    var th := s.threads[t];
    hide Inv, Next, Evolves, SearchOk;
    if th.Busy? {
      SearchSurvivesStep(s, a, x, x', th, x.seen[t], x'.seen[t]);
    } else {
      IdleSearch(s', x', th, x'.seen[t]);
    }
  }

  lemma OtherSteps(states: seq<State>, steps: seq<Step>, n: nat, t: nat, x: Aux, x': Aux)
    requires IsRun(states, steps) && n < |steps| && t < |states[n].threads| && steps[n].t != t
    requires SearchDescribes(states, steps, n, t, x) && AnswersRight(states, steps, n, t)
    requires Describes(states, steps, n + 1, x') && Carried(states[n], steps[n], states[n + 1], x, x')
    requires Clean(states[n + 1])
    ensures t < |states[n + 1].threads| && SearchDescribes(states, steps, n + 1, t, x')
    ensures AnswersRight(states, steps, n + 1, t)
  {
    var s, a, s' := states[n], steps[n], states[n + 1];
    assert s'.cfg == s.cfg && t < |s'.threads|;
    hide IsRun, Inv, Carried, SearchOk, ModelAt, Clean, SeenMeans, AnswersRight;
    OtherSearch(s, a, t, s', x, x');
    StaysRight(states, steps, n, t);
  }

  lemma StaysRight(states: seq<State>, steps: seq<Step>, n: nat, t: nat)
    requires IsRun(states, steps) && n < |steps| && t < |states[n].threads| && t < |states[n + 1].threads|
    requires steps[n].t != t && states[n + 1].threads[t] == states[n].threads[t] && AnswersRight(states, steps, n, t)
    ensures AnswersRight(states, steps, n + 1, t)
  {
    assert n < |states|;
    hide IsRun, ModelAt, RightSomewhen;
    var th := states[n].threads[t];
    if th.Busy? && th.pc.GetReturn? {
      LaterIsRight(states, steps, CallStart(steps, n, t), n, n + 1, th.op.key, th.pc.found);
    }
  }

  lemma IdleSearch(s: State, x: Aux, th: Thread, seen: Seen)
    requires s.cfg.width >= 3 && (th.Busy? ==> !th.pc.GetFirst? && !th.pc.GetWalk?)
    ensures SearchOk(s, x, th, seen)
  {
  }

  lemma OthersStay(s: State, a: Step, u: nat)
    requires Enabled(s, a) && u < |s.threads| && u != a.t
    ensures u < |Next(s, a).threads| && Next(s, a).threads[u] == s.threads[u]
  {
    if a.Run? {
      RunKeepsOp(s, a.t);
      hide Next;
    }
  }

  /** A step of the searching thread, between two clean states. */
  lemma OwnSearch(s: State, x: Aux, t: nat, s': State, x': Aux, seen: Seen, seen': Seen)
    requires Enabled(s, Run(t)) && Inv(s, x) && s.cfg.width >= 3 && SearchOk(s, x, s.threads[t], seen)
    requires s' == Next(s, Run(t)) && |s'.threads| == |s.threads| && Inv(s', x') && s'.cfg == s.cfg
    requires Clean(s) && Clean(s') && Evolves(s, x, s', x', OwnNode(s.threads[t]))
    requires s'.threads[t].Busy? && Gets(s.threads[t].pc) ==>
               SeenGrows(seen, seen') && (s.threads[t].op.key !in x.model ==> seen'.absent)
    ensures SearchOk(s', x', s'.threads[t], seen')
    ensures var th' := s'.threads[t];
            th'.Busy? && th'.pc.GetReturn? ==>
              if th'.pc.found.None? then seen'.absent else th'.pc.found == MapLookup(x.model, s.threads[t].op.key)
  {
    var th, th' := s.threads[t], s'.threads[t];
    hide Inv, Evolves, Clean, SearchOk;
    if !Gets(th.pc) {
      OnlyGetsLook(s, t);
      hide Next, Enabled;
      IdleSearch(s', x', th', seen');
    } else {
      GetEnds(s, t);
      hide Next, Enabled;
      if th'.Busy? && !th.pc.GetReturn? {
        SearchStep(s, x, t, seen, seen');
        SearchSurvivesStep(s, Run(t), x, x', th', seen', seen');
      } else {
        IdleSearch(s', x', th', seen');
      }
    }
  }

  lemma OwnObserves(s: State, t: nat, s': State, x: Aux, x': Aux)
    requires Carried(s, Run(t), s', x, x') && s'.threads[t].Busy? && Gets(s.threads[t].pc)
    ensures s'.threads[t].op == s.threads[t].op
    ensures SeenGrows(x.seen[t], x'.seen[t]) && (s.threads[t].op.key !in x.model ==> x'.seen[t].absent)
  {
    hide Inv, Evolves;
    GetsAreLight(s, t);
    CallsKeepOp(s, Run(t), t);
    hide Next, Enabled, EventOf;
  }

  lemma OwnStep(s: State, t: nat, s': State, x: Aux, x': Aux)
    requires Carried(s, Run(t), s', x, x') && t < |x.seen| && t < |x'.seen|
    requires SearchOk(s, x, s.threads[t], x.seen[t]) && Clean(s) && Clean(s')
    ensures SearchOk(s', x', s'.threads[t], x'.seen[t])
    ensures s'.threads[t].Busy? ==> s'.threads[t].op == s.threads[t].op
    ensures var th' := s'.threads[t];
            th'.Busy? && th'.pc.GetReturn? ==>
              if th'.pc.found.None? then x'.seen[t].absent else th'.pc.found == MapLookup(x.model, th'.op.key)
  {
    CallsKeepOp(s, Run(t), t);
    if s'.threads[t].Busy? && Gets(s.threads[t].pc) {
      OwnObserves(s, t, s', x, x');
    }
    hide Next, Enabled, Inv, Evolves, Clean, SearchOk, SeenStep;
    OwnSearch(s, x, t, s', x', x.seen[t], x'.seen[t]);
  }

  lemma OwnSteps(states: seq<State>, steps: seq<Step>, n: nat, t: nat, x: Aux, x': Aux)
    requires IsRun(states, steps) && n < |steps| && t < |states[n].threads| && steps[n] == Run(t)
    requires SearchDescribes(states, steps, n, t, x) && Clean(states[n]) && Clean(states[n + 1])
    requires Describes(states, steps, n + 1, x') && Carried(states[n], steps[n], states[n + 1], x, x')
    ensures t < |states[n + 1].threads| && SearchDescribes(states, steps, n + 1, t, x')
    ensures AnswersRight(states, steps, n + 1, t)
  {
    var s, s' := states[n], states[n + 1];
    assert s'.cfg == s.cfg && |s'.threads| == |s.threads|;
    hide IsRun, Inv, Carried, Clean, SearchOk, ModelAt;
    OwnStep(s, t, s', x, x');
    if s'.threads[t].Busy? && s'.threads[t].pc.GetReturn? {
      EndIsRight(states, steps, n, t, x, x');
    }
  }

  /** What the search has seen when it ends. */
  lemma EndIsRight(states: seq<State>, steps: seq<Step>, n: nat, t: nat, x: Aux, x': Aux)
    requires IsRun(states, steps) && n < |steps| && steps[n] == Run(t)
    requires t < |states[n + 1].threads| == |states[n].threads|
    requires states[n + 1].threads[t].Busy? && states[n + 1].threads[t].pc.GetReturn?
    requires x.model == ModelAt(states, steps, n) && t < |x'.seen| && SeenMeans(states, steps, n + 1, t, x'.seen[t])
    requires var th' := states[n + 1].threads[t];
             if th'.pc.found.None? then x'.seen[t].absent else th'.pc.found == MapLookup(x.model, th'.op.key)
    ensures AnswersRight(states, steps, n + 1, t)
  {
    var th', from := states[n + 1].threads[t], CallStart(steps, n + 1, t);
    hide IsRun, ModelAt;
    if th'.pc.found.None? {
      var j :| from <= j <= n + 1 && th'.op.key !in ModelAt(states, steps, j);
      assert MapLookup(ModelAt(states, steps, j), th'.op.key) == None;
    } else {
      assert from == CallStart(steps, n, t) <= n;
    }
  }

  /** A search that has met more is as good. */
  lemma SearchGrows(s: State, x: Aux, th: Thread, seen: Seen, seen': Seen)
    requires s.cfg.width >= 3 && th.Busy? && PendingOk(s, th) && SearchOk(s, x, th, seen) && SeenGrows(seen, seen')
    ensures SearchOk(s, x, th, seen')
  {
    Relabel(s, x, th, seen, seen', th.pc);
    assert th.(pc := th.pc) == th;
    hide PredOk, CurOk, PendingOk;
  }

  lemma SearchStep(s: State, x: Aux, t: nat, seen0: Seen, seen: Seen)
    requires Inv(s, x) && Enabled(s, Run(t)) && Gets(s.threads[t].pc) && !s.threads[t].pc.GetReturn?
    requires s.cfg.width >= 3 && Clean(s) && SearchOk(s, x, s.threads[t], seen0) && SeenGrows(seen0, seen)
    requires s.threads[t].op.key !in x.model ==> seen.absent
    ensures var th' := Next(s, Run(t)).threads[t];
            && SearchOk(s, x, th', seen)
            && (th'.Busy? && th'.pc.GetReturn? ==>
                  if th'.pc.found.None? then seen.absent else th'.pc.found == MapLookup(x.model, s.threads[t].op.key))
  {
    var th := s.threads[t];
    SearchFacts(s, x, t);
    hide Inv, ListOk, PendingOk, Clean, NoneMarked, SearchOk;
    SearchGrows(s, x, th, seen0, seen);
    if th.pc.GetHead? {
      SearchHead(s, x, t, seen);
      HeadGoesFirst(s, t);
    } else if th.pc.GetFirst? {
      SearchFirst(s, x, t, seen);
      HeadGoesFirst(s, t);
    } else if GetGoesOn(s.cfg, th, s.heap[th.pc.cur]) {
      SearchGoesOn(s, x, t, seen);
      GoesOnWalking(s, t);
    } else {
      SearchEnds(s, x, t, seen);
      hide Next;
      IdleSearch(s, x, Next(s, Run(t)).threads[t], seen);
    }
  }

  lemma HeadGoesFirst(s: State, t: nat)
    requires Enabled(s, Run(t)) && (s.threads[t].pc.GetHead? || s.threads[t].pc.GetFirst?)
    ensures !Next(s, Run(t)).threads[t].pc.GetReturn?
  {
  }

  lemma GoesOnWalking(s: State, t: nat)
    requires s.cfg.width >= 3 && Enabled(s, Run(t)) && s.threads[t].pc.GetWalk?
    requires GetGoesOn(s.cfg, s.threads[t], s.heap[s.threads[t].pc.cur])
    ensures !Next(s, Run(t)).threads[t].pc.GetReturn?
  {
  }

  lemma SearchFacts(s: State, x: Aux, t: nat)
    requires Inv(s, x) && Enabled(s, Run(t)) && Gets(s.threads[t].pc) && Clean(s)
    ensures ListOk(s, x) && PendingOk(s, s.threads[t]) && s.threads[t].pending == [] && NoneMarked(s.heap, x.chain)
  {
    assert ThreadOk(s, x, s.threads[t], x.seen[t]);
    assert ChainOk(s.heap, x.chain);
    hide ListOk, PendingOk, ChainOk, NoneMarked;
  }

  /**
    The search of a call during which no linked node is marked: its answer was right at some
    instant of the call.
  */
  lemma {:induction false} SearchRun(states: seq<State>, steps: seq<Step>, n: nat, t: nat) returns (x: Aux)
    requires IsRun(states, steps) && n <= |steps| && t < |states[n].threads|
    requires CleanFrom(states, CallStart(steps, n, t), n)
    ensures SearchDescribes(states, steps, n, t, x) && AnswersRight(states, steps, n, t)
  {
    hide Inv, Next, EventOf, Clean, Evolves, SearchDescribes, AnswersRight, ModelAt, Describes, Carried;
    if n == 0 {
      x := RunKeeps(states, steps, 0);
      NoSearchYet(states, steps, n, t, x);
    } else if steps[n - 1].Start? && steps[n - 1].t == t {
      x := RunKeeps(states, steps, n);
      StartsAtSlot(states[n - 1], steps[n - 1]);
      NoSearchYet(states, steps, n, t, x);
    } else {
      CallsKeepOp(states[n - 1], steps[n - 1], steps[n - 1].t);
      var x0 := SearchRun(states, steps, n - 1, t);
      SearchParts(states, steps, n - 1, t, x0);
      x := CarriedStep(states, steps, n - 1, x0);
      if steps[n - 1].t == t {
        OwnSteps(states, steps, n - 1, t, x0, x);
      } else {
        OtherSteps(states, steps, n - 1, t, x0, x);
      }
    }
  }

  lemma SearchParts(states: seq<State>, steps: seq<Step>, n: nat, t: nat, x: Aux)
    requires IsRun(states, steps) && n <= |steps| && t < |states[n].threads| && SearchDescribes(states, steps, n, t, x)
    ensures Describes(states, steps, n, x)
  {
    hide Describes;
  }

  lemma NoSearchYet(states: seq<State>, steps: seq<Step>, n: nat, t: nat, x: Aux)
    requires IsRun(states, steps) && n <= |steps| && t < |states[n].threads| && Describes(states, steps, n, x)
    requires states[n].threads[t].Busy? ==> states[n].threads[t].pc.LoadSlot?
    ensures SearchDescribes(states, steps, n, t, x) && AnswersRight(states, steps, n, t)
  {
    assert states[n].cfg.width >= 3;
    hide Inv, IsRun, ModelAt;
  }

  /** The theorem of `SearchRun`, for the returning call. */
  lemma CleanFindIsRight(states: seq<State>, steps: seq<Step>, n: nat, t: nat)
    requires IsRun(states, steps) && n <= |steps| && t < |states[n].threads|
    requires CleanFrom(states, CallStart(steps, n, t), n)
    ensures AnswersRight(states, steps, n, t)
  {
    var x := SearchRun(states, steps, n, t);
  }

  // ---------------------------------------------------------------- without `remove`

  ghost predicate NoRemoves(steps: seq<Step>) {
    forall i :: 0 <= i < |steps| && steps[i].Start? ==> !steps[i].op.Remove?
  }

  ghost predicate NothingMarked(s: State) {
    && (forall n :: 0 <= n < |s.heap| ==> !s.heap[n].mark)
    && (forall t :: 0 <= t < |s.threads| && s.threads[t].Busy? ==> !s.threads[t].op.Remove?)
  }

  lemma StillNothingMarked(s: State, a: Step, x: Aux)
    requires Inv(s, x) && Enabled(s, a) && NothingMarked(s) && (a.Start? ==> !a.op.Remove?)
    ensures NothingMarked(Next(s, a))
  {
    hide Inv, Next, Enabled, Marks;
    StillNoRemove(s, a);
    if Marks(s, a) {
      MarkerRemoves(s, a, x);
    }
    OthersMarkNothing(s, a);
  }

  lemma MarkerRemoves(s: State, a: Step, x: Aux)
    requires Inv(s, x) && Marks(s, a)
    ensures a.t < |s.threads| && s.threads[a.t].Busy? && s.threads[a.t].op.Remove?
  {
    hide Inv;
    VictimIsEntry(s, x, a.t);
  }

  lemma StillNoRemove(s: State, a: Step)
    requires Enabled(s, a) && NothingMarked(s) && (a.Start? ==> !a.op.Remove?)
    ensures forall t :: 0 <= t < |Next(s, a).threads| && Next(s, a).threads[t].Busy? ==>
              !Next(s, a).threads[t].op.Remove?
  {
    CallsKeepOp(s, a, a.t);
    assert a.t < |s.threads|;
    hide Next, Enabled;
    forall t | 0 <= t < |Next(s, a).threads| && Next(s, a).threads[t].Busy? ensures !Next(s, a).threads[t].op.Remove? {
      CallKeepsKind(s, a, t);
    }
  }

  lemma CallKeepsKind(s: State, a: Step, t: nat)
    requires Enabled(s, a) && t < |s.threads| && (a.Start? ==> !a.op.Remove?)
    requires s.threads[t].Busy? ==> !s.threads[t].op.Remove?
    ensures t < |Next(s, a).threads| && (Next(s, a).threads[t].Busy? ==> !Next(s, a).threads[t].op.Remove?)
  {
    CallsKeepOp(s, a, t);
    hide Next;
  }

  lemma {:induction false} NeverMarked(states: seq<State>, steps: seq<Step>, n: nat)
    requires IsRun(states, steps) && n <= |steps| && NoRemoves(steps)
    ensures NothingMarked(states[n])
  {
    hide Next, Inv, SeenMeans;
    if n > 0 {
      NeverMarked(states, steps, n - 1);
      var x := RunKeeps(states, steps, n - 1);
      hide NothingMarked;
      StillNothingMarked(states[n - 1], steps[n - 1], x);
    }
  }

  lemma UnmarkedIsClean(s: State)
    requires NothingMarked(s)
    ensures Clean(s)
  {
  }

  /**
    In every run without `remove`, of any number of threads, `find` answers as the map does at an
    instant of the call.
  */
  lemma FindsWithoutRemoves(states: seq<State>, steps: seq<Step>, n: nat, t: nat)
    requires IsRun(states, steps) && n <= |steps| && t < |states[n].threads| && NoRemoves(steps)
    ensures AnswersRight(states, steps, n, t)
  {
    assert |states| == |steps| + 1;
    hide IsRun;
    forall j | CallStart(steps, n, t) <= j <= n ensures Clean(states[j]) {
      NeverMarked(states, steps, j);
      UnmarkedIsClean(states[j]);
    }
    CleanFindIsRight(states, steps, n, t);
  }

  // ---------------------------------------------------------------- exactly when `find` is always right

  /** The same state with `k` more threads that do nothing. */
  function Padded(s: State, k: nat): State { s.(threads := s.threads + seq(k, _ => Idle)) }

  function PaddedRun(states: seq<State>, k: nat): seq<State> {
    seq(|states|, i requires 0 <= i < |states| => Padded(states[i], k))
  }

  lemma PadUpdate(ths: seq<Thread>, t: nat, th: Thread, k: nat)
    requires t < |ths|
    ensures (ths + seq(k, _ => Idle))[t := th] == ths[t := th] + seq(k, _ => Idle)
  {
  }

  lemma PadStep(s: State, a: Step, k: nat)
    requires Enabled(s, a)
    ensures Enabled(Padded(s, k), a) && Next(Padded(s, k), a) == Padded(Next(s, a), k)
    ensures EventOf(Padded(s, k), a) == EventOf(s, a)
  {
    PadUpdate(s.threads, a.t, Next(s, a).threads[a.t], k);
    if a.Run? && Simple(s.threads[a.t].pc) {
      PadSimple(s, a.t, k);
    }
  }

  lemma PadSimple(s: State, t: nat, k: nat)
    requires Enabled(s, Run(t)) && Simple(s.threads[t].pc)
    ensures Enabled(Padded(s, k), Run(t)) && Next(Padded(s, k), Run(t)) == Padded(Next(s, Run(t)), k)
    ensures EventOf(Padded(s, k), Run(t)) == EventOf(s, Run(t))
  {
    PadUpdate(s.threads, t, Next(s, Run(t)).threads[t], k);
  }

  /** Idle threads do not matter. */
  lemma PadRun(states: seq<State>, steps: seq<Step>, k: nat)
    requires IsRun(states, steps)
    ensures IsRun(PaddedRun(states, k), steps)
  {
    var padded := PaddedRun(states, k);
    assert Init(padded[0]);
    hide Init, Next, Enabled;
    forall i | 0 <= i < |steps| ensures Enabled(padded[i], steps[i]) && padded[i + 1] == Next(padded[i], steps[i]) {
      PadStep(states[i], steps[i], k);
    }
  }

  lemma {:induction false} PadModel(states: seq<State>, steps: seq<Step>, k: nat, n: nat)
    requires IsRun(states, steps) && IsRun(PaddedRun(states, k), steps) && n <= |steps|
    ensures ModelAt(PaddedRun(states, k), steps, n) == ModelAt(states, steps, n)
  {
    if n > 0 {
      PadModel(states, steps, k, n - 1);
      assert Enabled(states[n - 1], steps[n - 1]);
      hide IsRun, Next, Enabled, EventOf, Update;
      PadStep(states[n - 1], steps[n - 1], k);
    }
  }

  /** Every `find` of the run answers right. */
  ghost predicate AllRight(states: seq<State>, steps: seq<Step>)
    requires IsRun(states, steps)
  {
    forall n: nat, t: nat :: n <= |steps| && t < |states[n].threads| ==> AnswersRight(states, steps, n, t)
  }

  /** Every `find` of every run of `threads` threads answers right, of runs without `remove` unless `removes`. */
  ghost predicate AlwaysRight(threads: nat, removes: bool) {
    forall states: seq<State>, steps: seq<Step> :: IsRunOf(states, steps, threads, removes) ==> AllRight(states, steps)
  }

  ghost predicate IsRunOf(states: seq<State>, steps: seq<Step>, threads: nat, removes: bool) {
    IsRun(states, steps) && |states[0].threads| == threads && (removes || NoRemoves(steps))
  }

  lemma OneThreadAnswers(states: seq<State>, steps: seq<Step>, n: nat)
    requires IsRun(states, steps) && n <= |steps| && |states[0].threads| == |states[n].threads| == 1
    requires states[n].threads[0].Busy? && states[n].threads[0].pc.GetReturn?
    ensures states[n].threads[0].pc.found == MapLookup(ModelAt(states, steps, n), states[n].threads[0].op.key)
  {
    hide IsRun, ModelAt, Effects;
    CallsAreAtomic(states, steps, n, 0);
    SequentialCall(states, steps, n);
  }

  lemma OneThreadIsRight(states: seq<State>, steps: seq<Step>, n: nat, t: nat)
    requires IsRun(states, steps) && |states[0].threads| <= 1 && n <= |steps| && t < |states[n].threads|
    ensures AnswersRight(states, steps, n, t)
  {
    ThreadCount(states, steps, n);
    var th := states[n].threads[t];
    assert n < |states|;
    hide IsRun, ModelAt, RightSomewhen;
    if th.Busy? && th.pc.GetReturn? {
      OneThreadAnswers(states, steps, n);
      RightNow(states, steps, CallStart(steps, n, t), n, th.op.key, th.pc.found);
    }
  }

  lemma RightNow(states: seq<State>, steps: seq<Step>, from: nat, n: nat, k: Key, r: Option<Value>)
    requires IsRun(states, steps) && from <= n <= |steps| && r == MapLookup(ModelAt(states, steps, n), k)
    ensures RightSomewhen(states, steps, from, n, k, r)
  {
    hide IsRun, ModelAt;
  }

  lemma WrongWithTwo(threads: nat) returns (states: seq<State>, steps: seq<Step>)
    requires threads >= 2
    ensures IsRun(states, steps) && |states[0].threads| == threads && 1 < |states[|steps|].threads|
    ensures !AnswersRight(states, steps, |steps|, 1)
  {
    var states0, steps0 := PresentKeyNotFound();
    steps := steps0;
    ThreadCount(states0, steps, |steps|);
    states := PaddedRun(states0, threads - 2);
    PadRun(states0, steps, threads - 2);
    forall j | CallStart(steps, |steps|, 1) <= j <= |steps| ensures MapLookup(ModelAt(states, steps, j), 1) == Some(5) {
      PadModel(states0, steps, threads - 2, j);
    }
  }

  /**
    `find` answers in every run of `threads` threads as the map does at some instant of the call
    if and only if there is at most one thread or nobody calls `remove`.
  */
  lemma AlwaysRightIff(threads: nat, removes: bool)
    ensures AlwaysRight(threads, removes) <==> threads <= 1 || !removes
  {
    if threads <= 1 || !removes {
      forall states: seq<State>, steps: seq<Step> | IsRunOf(states, steps, threads, removes)
        ensures AllRight(states, steps)
      {
        forall n: nat, t: nat | n <= |steps| && t < |states[n].threads| ensures AnswersRight(states, steps, n, t) {
          if threads <= 1 {
            OneThreadIsRight(states, steps, n, t);
          } else {
            FindsWithoutRemoves(states, steps, n, t);
          }
        }
      }
    } else {
      var states, steps := WrongWithTwo(threads);
      hide IsRun, AnswersRight;
      assert IsRunOf(states, steps, threads, removes) && !AllRight(states, steps);
    }
  }
}
