/**
  Runs of two threads in which `find` answers wrongly.

  Keys 0 and 1 have one hash value, and key 0 is before key 1 on the list.  A marked node of key 0
  that is linked hides key 1 and shows key 0: while `remove(0)` is between its two CASes, and for
  ever after if its unlinking CAS has failed.  A search that stands on that node when it is marked
  and unlinked misses key 1 as well, although it has never read from a list with a marked node.
*/
module LockFreeHashMapRaces {
  import opened Arithmetic
  import opened Sequences
  import opened SplitOrder
  import opened LockFreeHashMap
  import opened LockFreeHashMapProof
  import opened LockFreeHashMapSteps
  import opened LockFreeHashMapFind

  const CONFIG: Config := Config(4, (k: Key) => if k == 2 then 0 else 2)

  const FIRST: Node := Node(0, Sentinel, LAST, false)
  const FINAL: Node := Node(15, Sentinel, NULL, false)
  const ZERO: Node := Node(5, Entry(0, 4), LAST, false)
  const UNIT: Node := Node(5, Entry(1, 5), LAST, false)

  /** The lists of the runs: key 0, then key 1 behind it, then key 0 marked, then unlinked. */
  const EMPTY: seq<Node> := [FIRST, FINAL]
  const ONE: seq<Node> := [FIRST.(next := 2), FINAL, ZERO]
  const TWO: seq<Node> := [FIRST.(next := 2), FINAL, ZERO.(next := 3), UNIT]
  const MARKED: seq<Node> := [FIRST.(next := 2), FINAL, ZERO.(next := 3, mark := true), UNIT]
  const UNLINKED: seq<Node> := [FIRST.(next := 3), FINAL, ZERO.(next := 3, mark := true), UNIT]

  /** A node of key 2, smaller than the others, before and after it is linked. */
  const SMALL: Node := Node(1, Entry(2, 6), 2, false)
  const LEFT: seq<Node> := [FIRST.(next := 4), FINAL, ZERO.(next := 3, mark := true), UNIT, SMALL]

  function At(heap: seq<Node>, size: nat, a: Thread, b: Thread): State {
    State(CONFIG, heap, map[0 := HEAD], 1, size, [a, b])
  }

  function In(op: Op, node: int, pc: Pc): Thread { Busy(op, 1, [], node, pc) }

  lemma SmallWords()
    ensures Reverse(4, 0) == 0 && Reverse(4, 2) == 4
  {
    assert Reverse(2, 0) == 0 && Pow2(2) == 4;
    assert Reverse(3, 1) == 4 && Reverse(3, 0) == 0;
  }

  lemma SmallKeys()
    ensures OrdinaryKey(4, 0) == 1 && OrdinaryKey(4, 2) == 5 && MaxKey(4) == 15
    ensures Low(0, 1) == 0 && Low(2, 1) == 0
  {
    assert Pow2(2) == 4 && Pow2(4) == 16;
    SmallWords();
    LowOfSmall(0, 2);
    LowOfSmall(2, 2);
    assert Low(1, 0) == 0 && Low(0, 0) == 0;
    hide Reverse;
  }

  lemma NoShift()
    ensures Shr(0, 1) == 0 && Shr(1, 1) == 0 && Shr(2, 1) == 1
  {
    assert Shr(1, 0) == 1;
  }

  // ---------------------------------------------------------------- building runs

  datatype Trace = Trace(states: seq<State>, steps: seq<Step>)

  /** A run and its last state. */
  ghost predicate Reaches(r: Trace, s: State) {
    IsRun(r.states, r.steps) && |r.states| == |r.steps| + 1 && r.states[|r.steps|] == s
  }

  /** Step `j` is of thread `t` and leads to one of these lists; it may begin a call if it is the first one. */
  ghost predicate NewStep(r: Trace, first: nat, t: nat, begins: bool, lists: set<seq<Node>>, j: int) {
    && 0 <= j < |r.steps| && j + 1 < |r.states|
    && r.steps[j].t == t && (r.steps[j].Start? ==> begins && j == first) && r.states[j + 1].heap in lists
  }

  /**
    The run `r` continues `r0` by steps of thread `t` alone, all its new states have one of these
    lists, and no call begins, except with the first new step if `begins`.
  */
  ghost predicate Extends(r0: Trace, r: Trace, t: nat, begins: bool, lists: set<seq<Node>>) {
    && |r0.states| == |r0.steps| + 1 && |r.states| == |r.steps| + 1
    && |r0.steps| <= |r.steps| && r.steps[..|r0.steps|] == r0.steps && r.states[..|r0.states|] == r0.states
    && forall j :: |r0.steps| <= j < |r.steps| ==> NewStep(r, |r0.steps|, t, begins, lists, j)
  }

  lemma Go(r0: Trace, a: Step, s: State, s': State) returns (r: Trace)
    requires Reaches(r0, s) && Enabled(s, a) && s' == Next(s, a)
    ensures Reaches(r, s') && r == Trace(r0.states + [s'], r0.steps + [a])
  {
    var more, longer := r0.states + [s'], r0.steps + [a];
    hide Init, Enabled, Next;
    forall i | 0 <= i < |longer| ensures Enabled(more[i], longer[i]) && more[i + 1] == Next(more[i], longer[i]) {
      if i < |r0.steps| {
        assert more[i] == r0.states[i] && more[i + 1] == r0.states[i + 1] && longer[i] == r0.steps[i];
      }
    }
    r := Trace(more, longer);
  }

  /** One more step of the thread that has taken all steps since `r0`. */
  lemma GoOn(r0: Trace, r1: Trace, t: nat, begins: bool, lists: set<seq<Node>>, s: State, s': State)
    returns (r: Trace)
    requires Reaches(r1, s) && Extends(r0, r1, t, begins, lists)
    requires Enabled(s, Run(t)) && s' == Next(s, Run(t)) && s'.heap in lists
    ensures Reaches(r, s') && Extends(r0, r, t, begins, lists) && r.steps == r1.steps + [Run(t)]
  {
    r := Go(r1, Run(t), s, s');
    hide Enabled, Next, Reaches;
    ExtendsOn(r0, r1, t, begins, lists, r, s');
  }

  lemma ExtendsOn(r0: Trace, r1: Trace, t: nat, begins: bool, lists: set<seq<Node>>, r: Trace, s': State)
    requires Extends(r0, r1, t, begins, lists) && s'.heap in lists
    requires r == Trace(r1.states + [s'], r1.steps + [Run(t)])
    ensures Extends(r0, r, t, begins, lists)
  {
    assert r.steps[..|r0.steps|] == r1.steps[..|r0.steps|];
    assert r.states[..|r0.states|] == r1.states[..|r0.states|];
    forall j | |r0.steps| <= j < |r.steps| ensures NewStep(r, |r0.steps|, t, begins, lists, j) {
      if j < |r1.steps| {
        assert NewStep(r1, |r0.steps|, t, begins, lists, j);
        assert r.steps[j] == r1.steps[j] && r.states[j + 1] == r1.states[j + 1];
      } else {
        assert r.steps[j] == Run(t) && r.states[j + 1] == s';
      }
    }
  }

  /** The first step since `r0`. */
  lemma GoFirst(r0: Trace, a: Step, lists: set<seq<Node>>, s: State, s': State) returns (r: Trace)
    requires Reaches(r0, s) && Enabled(s, a) && s' == Next(s, a) && s'.heap in lists
    ensures Reaches(r, s') && Extends(r0, r, a.t, a.Start?, lists) && |r.steps| == |r0.steps| + 1
    ensures r.steps[|r0.steps|] == a
  {
    r := Go(r0, a, s, s');
    hide Enabled, Next;
    assert r.steps[..|r0.steps|] == r0.steps && r.states[..|r0.states|] == r0.states;
    assert NewStep(r, |r0.steps|, a.t, a.Start?, lists, |r0.steps|);
  }

  lemma Begin() returns (r: Trace)
    ensures Reaches(r, At(EMPTY, 0, Idle, Idle))
  {
    SmallKeys();
    hide MaxKey, OrdinaryKey, Low, Enabled, Next;
    r := Trace([At(EMPTY, 0, Idle, Idle)], []);
  }

  /** `insert(0, 4)` into the empty map. */
  lemma InsertZero(r0: Trace) returns (r: Trace)
    requires Reaches(r0, At(EMPTY, 0, Idle, Idle))
    ensures Reaches(r, At(ONE, 1, Idle, Idle))
  {
    SmallKeys();
    hide Reaches, Extends, OrdinaryKey, MaxKey, Low, Shr;
    var op, heap := Insert(0, 4), EMPTY + [ZERO.(next := NULL)];
    var s0, s1 := At(EMPTY, 0, Idle, Idle), At(EMPTY, 0, In(op, NULL, LoadSlot), Idle);
    r := Go(r0, Start(0, op), s0, s1);
    var s2 := At(heap, 0, In(op, 2, StartWalk), Idle);
    r := Go(r, Run(0), s1, s2);
    var s3 := At(heap, 0, In(op, 2, LoadFirst(HEAD)), Idle);
    r := Go(r, Run(0), s2, s3);
    var s4 := At(heap, 0, In(op, 2, LoadNext(HEAD, LAST)), Idle);
    r := Go(r, Run(0), s3, s4);
    var s5 := At(heap, 0, In(op, 2, Found(HEAD, LAST)), Idle);
    r := Go(r, Run(0), s4, s5);
    var s6 := At(EMPTY + [ZERO], 0, In(op, 2, LinkNode(HEAD, LAST)), Idle);
    r := Go(r, Run(0), s5, s6);
    var s7 := At(ONE, 0, In(op, NULL, IncSize), Idle);
    r := Go(r, Run(0), s6, s7);
    r := Counted(r, ONE, 0, op);
  }

  /** The end of a successful `insert` of thread 0 that finds the buckets large enough. */
  lemma Counted(r0: Trace, heap: seq<Node>, size: nat, op: Op) returns (r: Trace)
    requires size <= 1 && op.Insert? && Reaches(r0, At(heap, size, In(op, NULL, IncSize), Idle))
    ensures Reaches(r, At(heap, size + 1, Idle, Idle))
  {
    NoShift();
    hide Reaches, Extends, Shr;
    var s1, s2 := At(heap, size, In(op, NULL, IncSize), Idle), At(heap, size + 1, In(op, NULL, TestLoad(size)), Idle);
    r := Go(r0, Run(0), s1, s2);
    var s3 := At(heap, size + 1, In(op, NULL, Return(true)), Idle);
    r := Go(r, Run(0), s2, s3);
    r := Go(r, Run(0), s3, At(heap, size + 1, Idle, Idle));
  }

  /** `insert(1, 5)`, whose node goes behind that of key 0. */
  lemma InsertOne(r0: Trace) returns (r: Trace)
    requires Reaches(r0, At(ONE, 1, Idle, Idle))
    ensures Reaches(r, At(TWO, 2, Idle, Idle))
  {
    SmallKeys();
    hide Reaches, Extends, OrdinaryKey, MaxKey, Low, Shr;
    var op, heap := Insert(1, 5), ONE + [UNIT.(next := NULL)];
    var s0, s1 := At(ONE, 1, Idle, Idle), At(ONE, 1, In(op, NULL, LoadSlot), Idle);
    r := Go(r0, Start(0, op), s0, s1);
    var s2 := At(heap, 1, In(op, 3, StartWalk), Idle);
    r := Go(r, Run(0), s1, s2);
    var s3 := At(heap, 1, In(op, 3, LoadFirst(HEAD)), Idle);
    r := Go(r, Run(0), s2, s3);
    var s4 := At(heap, 1, In(op, 3, LoadNext(HEAD, 2)), Idle);
    r := Go(r, Run(0), s3, s4);
    var s5 := At(heap, 1, In(op, 3, LoadNext(2, LAST)), Idle);
    r := Go(r, Run(0), s4, s5);
    var s6 := At(heap, 1, In(op, 3, Found(2, LAST)), Idle);
    r := Go(r, Run(0), s5, s6);
    var s7 := At(ONE + [UNIT], 1, In(op, 3, LinkNode(2, LAST)), Idle);
    r := Go(r, Run(0), s6, s7);
    var s8 := At(TWO, 1, In(op, NULL, IncSize), Idle);
    r := Go(r, Run(0), s7, s8);
    r := Counted(r, TWO, 1, op);
  }

  lemma BothInserted() returns (r: Trace)
    ensures Reaches(r, At(TWO, 2, Idle, Idle))
  {
    hide Reaches;
    r := Begin();
    r := InsertZero(r);
    r := InsertOne(r);
  }

  function Removing(pc: Pc): Thread { In(Remove(0), NULL, pc) }

  const VICTIM: Thread := Removing(UnlinkVictim(HEAD, 2, 3))

  /** `remove(0)` until it has found its victim; meanwhile the other thread stands still. */
  lemma FindVictim(r0: Trace, heap: seq<Node>, b: Thread, lists: set<seq<Node>>) returns (r: Trace)
    requires Reaches(r0, At(heap, 2, Idle, b)) && TWO <= heap && heap in lists
    ensures Reaches(r, At(heap, 2, Removing(Found(HEAD, 2)), b)) && Extends(r0, r, 0, true, lists)
  {
    SmallKeys();
    hide Reaches, Extends, OrdinaryKey, MaxKey, Low, Shr;
    var s0, s1 := At(heap, 2, Idle, b), At(heap, 2, Removing(LoadSlot), b);
    r := GoFirst(r0, Start(0, Remove(0)), lists, s0, s1);
    var s2 := At(heap, 2, Removing(StartWalk), b);
    r := GoOn(r0, r, 0, true, lists, s1, s2);
    var s3 := At(heap, 2, Removing(LoadFirst(HEAD)), b);
    r := GoOn(r0, r, 0, true, lists, s2, s3);
    var s4 := At(heap, 2, Removing(LoadNext(HEAD, 2)), b);
    r := GoOn(r0, r, 0, true, lists, s3, s4);
    r := GoOn(r0, r, 0, true, lists, s4, At(heap, 2, Removing(Found(HEAD, 2)), b));
  }

  /** `remove(0)` up to its unlinking CAS. */
  lemma RemoveZero(r0: Trace, rest: seq<Node>, b: Thread, lists: set<seq<Node>>) returns (r: Trace)
    requires Reaches(r0, At(TWO + rest, 2, Idle, b)) && {TWO + rest, MARKED + rest} <= lists
    ensures Reaches(r, At(MARKED + rest, 2, VICTIM, b)) && Extends(r0, r, 0, true, lists)
  {
    SmallKeys();
    hide Reaches, Extends, OrdinaryKey, MaxKey, Low, Shr;
    var heap := TWO + rest;
    assert heap in lists && MARKED + rest in lists;
    r := FindVictim(r0, heap, b, lists);
    var s5 := At(heap, 2, Removing(Found(HEAD, 2)), b);
    var s6 := At(heap, 2, Removing(LoadVictim(HEAD, 2)), b);
    r := GoOn(r0, r, 0, true, lists, s5, s6);
    var s7 := At(heap, 2, Removing(MarkVictim(HEAD, 2, 3)), b);
    r := GoOn(r0, r, 0, true, lists, s6, s7);
    assert heap[2 := heap[2].(mark := true)] == MARKED + rest;
    r := GoOn(r0, r, 0, true, lists, s7, At(MARKED + rest, 2, VICTIM, b));
  }

  function Finding(k: Key, pc: Pc): Thread { In(Find(k), NULL, pc) }

  /** A call of `find` by the second thread, up to its first node; the first thread stands still. */
  lemma StartFind(r0: Trace, heap: seq<Node>, a: Thread, k: Key) returns (r: Trace)
    requires Reaches(r0, At(heap, 2, a, Idle)) && 0 <= k <= 1 && |heap| > 2 && heap[0] == FIRST.(next := heap[0].next)
    ensures Reaches(r, At(heap, 2, a, Finding(k, GetWalk(heap[0].next, false)))) && Extends(r0, r, 1, true, {heap})
    ensures |r0.steps| < |r.steps| && r.steps[|r0.steps|] == Start(1, Find(k))
  {
    SmallKeys();
    hide Reaches, Extends, OrdinaryKey, MaxKey, Low, Shr;
    var lists := {heap};
    var s0, s1 := At(heap, 2, a, Idle), At(heap, 2, a, Finding(k, LoadSlot));
    r := GoFirst(r0, Start(1, Find(k)), lists, s0, s1);
    var s2 := At(heap, 2, a, Finding(k, GetHead));
    r := GoOn(r0, r, 1, true, lists, s1, s2);
    var s3 := At(heap, 2, a, Finding(k, GetFirst(HEAD)));
    r := GoOn(r0, r, 1, true, lists, s2, s3);
    r := GoOn(r0, r, 1, true, lists, s3, At(heap, 2, a, Finding(k, GetWalk(heap[0].next, false))));
  }

  // ---------------------------------------------------------------- what the map is during a call

  lemma MapOfList(heap: seq<Node>, c: seq<nat>, m: map<Key, Value>)
    requires heap in {TWO, MARKED, UNLINKED, LEFT} && ChainOk(heap, c) && ModelOk(heap, c, m)
    ensures MapLookup(m, 1) == Some(5) && (heap != TWO ==> MapLookup(m, 0) == None)
  {
    var i := if heap == LEFT then 3 else if heap == UNLINKED then 1 else 2;
    assert heap[c[0]].next == c[1] && heap[c[1]].next == c[2];
    assert c[2] != LAST ==> heap[c[2]].next == c[3];
    assert c[i] == 3;
    assert Holds(m, heap[c[i]]);
    assert 0 in m ==> Somewhere(heap, c, 0);
  }

  lemma MapDuring(states: seq<State>, steps: seq<Step>, n: nat)
    requires IsRun(states, steps) && n <= |steps| && states[n].heap in {TWO, MARKED, UNLINKED, LEFT}
    ensures MapLookup(ModelAt(states, steps, n), 1) == Some(5)
    ensures states[n].heap != TWO ==> MapLookup(ModelAt(states, steps, n), 0) == None
  {
    var c := ListIsTheMap(states, steps, n);
    hide IsRun;
    MapOfList(states[n].heap, c, ModelAt(states, steps, n));
  }

  /** No linked node of these lists is marked. */
  lemma CleanList(s: State)
    requires s.heap in {TWO, UNLINKED}
    ensures Clean(s)
  {
    forall c: seq<nat> | ChainOk(s.heap, c) ensures NoneMarked(s.heap, c) {
      assert s.heap[c[0]].next == c[1] && s.heap[c[1]].next == c[2];
    }
  }

  lemma {:induction false} StartIsAt(steps: seq<Step>, i: nat, n: nat)
    requires i < n <= |steps| && steps[i].Start? && steps[i].t == 1
    requires forall j :: i < j < n ==> !steps[j].Start? || steps[j].t != 1
    ensures CallStart(steps, n, 1) == i + 1
  {
    if i + 1 < n {
      StartIsAt(steps, i, n - 1);
    }
  }

  /** Thread 1 has run `find(k)` to its end, and the answer is `found`. */
  ghost predicate FindEnds(states: seq<State>, steps: seq<Step>, k: Key, found: Option<Value>) {
    && IsRun(states, steps) && |states[|steps|].threads| == 2
    && states[|steps|].threads[1] == Finding(k, GetReturn(found))
  }

  // ---------------------------------------------------------------- while `remove` is between its CASes

  /** A whole call of `find` while `remove(0)` is about to unlink its victim. */
  lemma FindDuringRemoval(k: Key, found: Option<Value>) returns (states: seq<State>, steps: seq<Step>)
    requires (k == 1 && found == None) || (k == 0 && found == Some(4))
    ensures FindEnds(states, steps, k, found)
    ensures forall j :: CallStart(steps, |steps|, 1) <= j <= |steps| ==> states[j].heap == MARKED
  {
    SmallKeys();
    hide OrdinaryKey, Reaches, IsRun, Extends;
    var r := BothInserted();
    assert TWO + [] == TWO && MARKED + [] == MARKED;
    r := RemoveZero(r, [], Idle, {TWO, MARKED});
    var r0, from := r, |r.steps| + 1;
    r := StartFind(r0, MARKED, VICTIM, k);
    var s1 := At(MARKED, 2, VICTIM, Finding(k, GetWalk(2, false)));
    var s2 := At(MARKED, 2, VICTIM, Finding(k, GetWalk(3, true)));
    if k == 1 {
      r := GoOn(r0, r, 1, true, {MARKED}, s1, s2);
    }
    var s3 := At(MARKED, 2, VICTIM, Finding(k, GetReturn(found)));
    r := GoOn(r0, r, 1, true, {MARKED}, if k == 1 then s2 else s1, s3);
    WholeCall(r0, r, MARKED, s3);
    states, steps := r.states, r.steps;
  }

  /** A call of thread 1 that is all of `r` after `r0`. */
  lemma WholeCall(r0: Trace, r: Trace, heap: seq<Node>, s: State)
    requires Extends(r0, r, 1, true, {heap}) && |r0.steps| < |r.steps| && r.steps[|r0.steps|].Start? && Reaches(r, s)
    ensures CallStart(r.steps, |r.steps|, 1) == |r0.steps| + 1
    ensures forall j :: |r0.steps| < j <= |r.steps| ==> r.states[j].heap == heap
    ensures IsRun(r.states, r.steps) && r.states[|r.steps|] == s
    ensures forall j :: |r0.steps| <= j < |r.steps| ==> r.steps[j].t == 1
    ensures r.states[|r0.steps|] == r0.states[|r0.steps|]
  {
    hide IsRun;
    forall j | |r0.steps| <= j < |r.steps|
      ensures r.steps[j].t == 1 && (r.steps[j].Start? ==> j == |r0.steps|) && r.states[j + 1].heap == heap
    {
      assert NewStep(r, |r0.steps|, 1, true, {heap}, j);
    }
    StartIsAt(r.steps, |r0.steps|, |r.steps|);
    forall j | |r0.steps| < j <= |r.steps| ensures r.states[j].heap == heap {
      assert r.steps[j - 1].t == 1;
    }
    assert r.states[|r0.steps|] == r.states[..|r0.states|][|r0.steps|];
  }

  /**
    `find(1)` returns nothing, although key 1 is in the map from the begin of the call to its
    return.
  */
  lemma PresentKeyNotFound() returns (states: seq<State>, steps: seq<Step>)
    ensures FindEnds(states, steps, 1, None)
    ensures forall j :: CallStart(steps, |steps|, 1) <= j <= |steps| ==>
              MapLookup(ModelAt(states, steps, j), 1) == Some(5)
  {
    states, steps := FindDuringRemoval(1, None);
    hide IsRun, ModelAt;
    forall j | CallStart(steps, |steps|, 1) <= j <= |steps| ensures MapLookup(ModelAt(states, steps, j), 1) == Some(5) {
      MapDuring(states, steps, j);
    }
  }

  /**
    `find(0)` returns the value of key 0, although that key has been removed before the call began
    and is never in the map during the call.
  */
  lemma RemovedKeyFound() returns (states: seq<State>, steps: seq<Step>)
    ensures FindEnds(states, steps, 0, Some(4))
    ensures forall j :: CallStart(steps, |steps|, 1) <= j <= |steps| ==> MapLookup(ModelAt(states, steps, j), 0) == None
  {
    states, steps := FindDuringRemoval(0, Some(4));
    hide IsRun, ModelAt;
    forall j | CallStart(steps, |steps|, 1) <= j <= |steps| ensures MapLookup(ModelAt(states, steps, j), 0) == None {
      MapDuring(states, steps, j);
    }
  }

  // ---------------------------------------------------------------- without reading a list with a marked node

  /** The end of `remove(0)`, whose unlinking CAS succeeds. */
  lemma UnlinkZero(r0: Trace, r1: Trace, b: Thread, lists: set<seq<Node>>) returns (r: Trace)
    requires Reaches(r1, At(MARKED, 2, VICTIM, b)) && Extends(r0, r1, 0, true, lists) && UNLINKED in lists
    ensures Reaches(r, At(UNLINKED, 1, Idle, b)) && Extends(r0, r, 0, true, lists)
  {
    hide Reaches, Extends;
    var s1 := At(UNLINKED, 2, Removing(DecSize), b);
    r := GoOn(r0, r1, 0, true, lists, At(MARKED, 2, VICTIM, b), s1);
    var s2 := At(UNLINKED, 1, Removing(Return(true)), b);
    r := GoOn(r0, r, 0, true, lists, s1, s2);
    r := GoOn(r0, r, 0, true, lists, s2, At(UNLINKED, 1, Idle, b));
  }

  const LISTS: set<seq<Node>> := {TWO, MARKED, UNLINKED}

  /**
    A search that stands on the node of key 0 while `remove(0)` marks and unlinks it misses key 1,
    which is in the map throughout.  No linked node is marked when the call begins, when it takes
    any of its steps, and when it returns.
  */
  lemma MissedWithoutMark() returns (states: seq<State>, steps: seq<Step>)
    ensures FindEnds(states, steps, 1, None)
    ensures forall j :: CallStart(steps, |steps|, 1) <= j <= |steps| ==>
              MapLookup(ModelAt(states, steps, j), 1) == Some(5)
    ensures Clean(states[CallStart(steps, |steps|, 1)]) && Clean(states[|steps|])
    ensures forall j :: CallStart(steps, |steps|, 1) <= j < |steps| && steps[j].t == 1 ==> Clean(states[j])
  {
    SmallKeys();
    hide OrdinaryKey, Reaches, IsRun, Extends, Clean, ModelAt;
    var r0 := BothInserted();
    var r1 := StartFind(r0, TWO, Idle, 1);
    var b := Finding(1, GetWalk(2, false));
    assert TWO + [] == TWO && MARKED + [] == MARKED;
    var r2 := RemoveZero(r1, [], b, LISTS);
    r2 := UnlinkZero(r1, r2, b, LISTS);
    var s1, s2 := At(UNLINKED, 1, Idle, b), At(UNLINKED, 1, Idle, Finding(1, GetWalk(3, true)));
    var r3 := GoFirst(r2, Run(1), {UNLINKED}, s1, s2);
    var s3 := At(UNLINKED, 1, Idle, Finding(1, GetReturn(None)));
    r3 := GoOn(r2, r3, 1, false, {UNLINKED}, s2, s3);
    ThreeParts(r0, r1, r2, r3, s1, s3);
    assert |r3.states| == |r3.steps| + 1 by {
      LastState(r3, s3);
    }
    states, steps := r3.states, r3.steps;
    forall j | CallStart(steps, |steps|, 1) <= j <= |steps|
      ensures MapLookup(ModelAt(states, steps, j), 1) == Some(5)
      ensures j == CallStart(steps, |steps|, 1) || j == |steps| || steps[j].t == 1 ==> Clean(states[j])
    {
      MapDuring(states, steps, j);
      if j == CallStart(steps, |steps|, 1) || j == |steps| || steps[j].t == 1 {
        CleanList(states[j]);
      }
    }
  }

  /** Thread 1 begins a call, thread 0 removes, thread 1 goes on. */
  lemma ThreeParts(r0: Trace, r1: Trace, r2: Trace, r3: Trace, s2: State, s3: State)
    requires Extends(r0, r1, 1, true, {TWO}) && |r0.steps| < |r1.steps| && r1.steps[|r0.steps|].Start?
    requires Extends(r1, r2, 0, true, LISTS) && Reaches(r2, s2) && s2.heap == UNLINKED
    requires Extends(r2, r3, 1, false, {UNLINKED}) && Reaches(r3, s3) && |r2.steps| < |r3.steps|
    ensures IsRun(r3.states, r3.steps) && r3.states[|r3.steps|] == s3
    ensures CallStart(r3.steps, |r3.steps|, 1) == |r0.steps| + 1
    ensures forall j :: |r0.steps| < j <= |r3.steps| ==> r3.states[j].heap in LISTS
    ensures forall j ::
              |r0.steps| < j <= |r3.steps| && (j == |r0.steps| + 1 || j == |r3.steps| || r3.steps[j].t == 1) ==>
              r3.states[j].heap in {TWO, UNLINKED}
  {
    hide IsRun;
    var steps := r3.steps;
    assert forall j :: 0 <= j < |r1.steps| ==> r2.steps[j] == r1.steps[j];
    assert forall j :: 0 <= j < |r2.steps| ==> r3.steps[j] == r2.steps[j];
    assert forall j :: 0 <= j < |r1.states| ==> r2.states[j] == r1.states[j];
    assert forall j :: 0 <= j < |r2.states| ==> r3.states[j] == r2.states[j];
    forall j | |r0.steps| <= j < |steps|
      ensures steps[j].t <= 1 && (steps[j].t == 1 && steps[j].Start? ==> j == |r0.steps|)
      ensures r3.states[j + 1].heap in LISTS
      ensures j < |r1.steps| ==> steps[j] == r1.steps[j] && steps[j].t == 1 && r3.states[j + 1].heap == TWO
      ensures |r1.steps| <= j < |r2.steps| ==> steps[j].t == 0
      ensures |r2.steps| <= j ==> r3.states[j + 1].heap == UNLINKED
    {
      if j < |r1.steps| {
        assert NewStep(r1, |r0.steps|, 1, true, {TWO}, j);
      } else if j < |r2.steps| {
        assert NewStep(r2, |r1.steps|, 0, true, LISTS, j);
      } else {
        assert NewStep(r3, |r2.steps|, 1, false, {UNLINKED}, j);
      }
    }
    assert steps[|r0.steps|].t == 1;
    StartIsAt(steps, |r0.steps|, |steps|);
    forall j | |r0.steps| < j <= |steps|
      ensures r3.states[j].heap in LISTS
      ensures j == |r0.steps| + 1 || j == |steps| || steps[j].t == 1 ==> r3.states[j].heap in {TWO, UNLINKED}
    {
      assert steps[j - 1].t <= 1;
      if j == |r2.steps| {
        assert r3.states[j] == r2.states[j] == s2;
      }
    }
  }

  // ---------------------------------------------------------------- with no other call in progress

  /** `insert(2, 6)` by thread 1 up to its linking CAS. */
  lemma InsertTwo(r0: Trace) returns (r: Trace)
    requires Reaches(r0, At(TWO, 2, Idle, Idle))
    ensures Reaches(r, At(TWO + [SMALL], 2, Idle, In(Insert(2, 6), 4, LinkNode(HEAD, 2))))
  {
    SmallKeys();
    hide Reaches, Extends, OrdinaryKey, MaxKey, Low, Shr;
    var op, heap := Insert(2, 6), TWO + [SMALL.(next := NULL)];
    var s0, s1 := At(TWO, 2, Idle, Idle), At(TWO, 2, Idle, In(op, NULL, LoadSlot));
    r := Go(r0, Start(1, op), s0, s1);
    var s2 := At(heap, 2, Idle, In(op, 4, StartWalk));
    r := Go(r, Run(1), s1, s2);
    var s3 := At(heap, 2, Idle, In(op, 4, LoadFirst(HEAD)));
    r := Go(r, Run(1), s2, s3);
    var s4 := At(heap, 2, Idle, In(op, 4, LoadNext(HEAD, 2)));
    r := Go(r, Run(1), s3, s4);
    var s5 := At(heap, 2, Idle, In(op, 4, Found(HEAD, 2)));
    r := Go(r, Run(1), s4, s5);
    r := Go(r, Run(1), s5, At(TWO + [SMALL], 2, Idle, In(op, 4, LinkNode(HEAD, 2))));
  }

  /** `insert(2, 6)` links its node, so the unlinking CAS of `remove(0)` fails; both calls return. */
  lemma BothReturn(r0: Trace) returns (r: Trace)
    requires Reaches(r0, At(MARKED + [SMALL], 2, VICTIM, In(Insert(2, 6), 4, LinkNode(HEAD, 2))))
    ensures Reaches(r, At(LEFT, 2, Idle, Idle))
  {
    NoShift();
    hide Reaches, Extends, Shr;
    var op := Insert(2, 6);
    var s0 := At(MARKED + [SMALL], 2, VICTIM, In(op, 4, LinkNode(HEAD, 2)));
    var s1 := At(LEFT, 2, VICTIM, In(op, NULL, IncSize));
    r := Go(r0, Run(1), s0, s1);
    var s2 := At(LEFT, 3, VICTIM, In(op, NULL, TestLoad(2)));
    r := Go(r, Run(1), s1, s2);
    var s3 := At(LEFT, 3, VICTIM, In(op, NULL, Return(true)));
    r := Go(r, Run(1), s2, s3);
    var s4 := At(LEFT, 3, VICTIM, Idle);
    r := Go(r, Run(1), s3, s4);
    var s5 := At(LEFT, 3, Removing(DecSize), Idle);
    r := Go(r, Run(0), s4, s5);
    var s6 := At(LEFT, 2, Removing(Return(true)), Idle);
    r := Go(r, Run(0), s5, s6);
    r := Go(r, Run(0), s6, At(LEFT, 2, Idle, Idle));
  }

  lemma MarkLeftBehind() returns (r: Trace)
    ensures Reaches(r, At(LEFT, 2, Idle, Idle))
  {
    hide Reaches, Extends;
    r := BothInserted();
    r := InsertTwo(r);
    r := RemoveZero(r, [SMALL], In(Insert(2, 6), 4, LinkNode(HEAD, 2)), {TWO + [SMALL], MARKED + [SMALL]});
    r := BothReturn(r);
  }

  /** The latest call of thread 1 began when both threads were idle, and nobody else has taken a step since. */
  ghost predicate Undisturbed(states: seq<State>, steps: seq<Step>) {
    var from := CallStart(steps, |steps|, 1);
    && 0 < from < |states| && states[from - 1].threads == [Idle, Idle]
    && forall j :: from - 1 <= j < |steps| ==> steps[j].t == 1
  }

  /** A whole call of `find` on a list where a marked node has been left behind. */
  lemma FindLater(k: Key, found: Option<Value>) returns (states: seq<State>, steps: seq<Step>)
    requires (k == 1 && found == None) || (k == 0 && found == Some(4))
    ensures FindEnds(states, steps, k, found) && Undisturbed(states, steps)
    ensures forall j :: CallStart(steps, |steps|, 1) <= j <= |steps| ==> states[j].heap == LEFT
  {
    SmallKeys();
    hide OrdinaryKey, Reaches, IsRun, Extends;
    var r0 := MarkLeftBehind();
    var r := StartFind(r0, LEFT, Idle, k);
    var s1, s2 := At(LEFT, 2, Idle, Finding(k, GetWalk(4, false))), At(LEFT, 2, Idle, Finding(k, GetWalk(2, false)));
    r := GoOn(r0, r, 1, true, {LEFT}, s1, s2);
    var s3 := At(LEFT, 2, Idle, Finding(k, GetWalk(3, true)));
    if k == 1 {
      r := GoOn(r0, r, 1, true, {LEFT}, s2, s3);
    }
    var s4 := At(LEFT, 2, Idle, Finding(k, GetReturn(found)));
    r := GoOn(r0, r, 1, true, {LEFT}, if k == 1 then s3 else s2, s4);
    WholeCall(r0, r, LEFT, s4);
    LastState(r0, At(LEFT, 2, Idle, Idle));
    LastState(r, s4);
    states, steps := r.states, r.steps;
  }

  lemma LastState(r: Trace, s: State)
    requires Reaches(r, s)
    ensures |r.states| == |r.steps| + 1 && r.states[|r.steps|] == s
  {
  }

  /** After all calls have returned, an undisturbed `find(1)` misses key 1, which is in the map. */
  lemma PresentKeyMissedLater() returns (states: seq<State>, steps: seq<Step>)
    ensures FindEnds(states, steps, 1, None) && Undisturbed(states, steps)
    ensures forall j :: CallStart(steps, |steps|, 1) <= j <= |steps| ==>
              MapLookup(ModelAt(states, steps, j), 1) == Some(5)
  {
    states, steps := FindLater(1, None);
    hide IsRun, ModelAt;
    forall j | CallStart(steps, |steps|, 1) <= j <= |steps| ensures MapLookup(ModelAt(states, steps, j), 1) == Some(5) {
      MapDuring(states, steps, j);
    }
  }

  /** Likewise an undisturbed `find(0)` finds key 0, which has been removed. */
  lemma RemovedKeyFoundLater() returns (states: seq<State>, steps: seq<Step>)
    ensures FindEnds(states, steps, 0, Some(4)) && Undisturbed(states, steps)
    ensures forall j :: CallStart(steps, |steps|, 1) <= j <= |steps| ==> MapLookup(ModelAt(states, steps, j), 0) == None
  {
    states, steps := FindLater(0, Some(4));
    hide IsRun, ModelAt;
    forall j | CallStart(steps, |steps|, 1) <= j <= |steps| ensures MapLookup(ModelAt(states, steps, j), 0) == None {
      MapDuring(states, steps, j);
    }
  }
}
