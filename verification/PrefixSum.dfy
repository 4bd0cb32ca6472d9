/**
  The parallel prefix sum: the range is cut into blocks, each block is summed in place by its own
  worker, and the running total is passed from block to block through promises.

  One step is one addition into a cell, one `get` or one `set_value`; the workers interleave freely.
*/
module PrefixSum {
  import opened Sequences

  const MIN_PER_THREAD: nat := 32

  /** How many workers there are for `dist` elements on a machine that reports `hardware` threads. */
  function NumThreads(dist: nat, hardware: nat): nat {
    var wanted := (dist + MIN_PER_THREAD - 1) / MIN_PER_THREAD;
    var available := if hardware == 0 then 2 else hardware;
    if wanted < available then wanted else available
  }

  /** Number of blocks, length of all but the last, and length of the range. */
  datatype Layout = Layout(blocks: nat, size: nat, dist: nat)

  function LayoutOf(dist: nat, hardware: nat): Layout
    requires dist > 0
  {
    var n := NumThreads(dist, hardware);
    Layout(n, dist / n, dist)
  }

  function Lo(l: Layout, b: nat): nat { if b == 0 then 0 else Lo(l, b - 1) + l.size }

  /** The last cell of block `b`. */
  function Hi(l: Layout, b: nat): int { if b + 1 < l.blocks then Lo(l, b) + l.size - 1 else l.dist - 1 }

  ghost predicate LayoutOk(l: Layout) { l.blocks > 0 && l.size > 0 && Lo(l, l.blocks) <= l.dist }

  lemma {:induction false} LoIs(l: Layout, b: nat)
    ensures Lo(l, b) == b * l.size
  {
    if b != 0 {
      LoIs(l, b - 1);
      assert b * l.size == (b - 1) * l.size + l.size;
    }
  }

  /** A non-empty range is cut into at least one block, and no block is empty. */
  lemma LayoutIsOk(dist: nat, hardware: nat)
    requires dist > 0
    ensures LayoutOk(LayoutOf(dist, hardware))
  {
    var l := LayoutOf(dist, hardware);
    LoIs(l, l.blocks);
    assert l.blocks <= dist;
    AtLeastOne(dist, l.blocks);
  }

  lemma AtLeastOne(dist: nat, n: nat)
    requires 0 < n <= dist
    ensures dist / n > 0 && n * (dist / n) <= dist
  {
    assert dist == n * (dist / n) + dist % n;
  }

  lemma {:induction false} LoGrows(l: Layout, b: nat, c: nat)
    requires b < c
    ensures Lo(l, b) + l.size <= Lo(l, c)
    decreases c
  {
    if b < c - 1 {
      LoGrows(l, b, c - 1);
    }
  }

  lemma BlockBounds(l: Layout, b: nat)
    requires LayoutOk(l) && b < l.blocks
    ensures Lo(l, b) <= Hi(l, b) < l.dist
    ensures b + 1 < l.blocks ==> Hi(l, b) + 1 == Lo(l, b + 1)
  {
    LoGrows(l, b, l.blocks);
  }

  predicate InBlock(l: Layout, b: nat, j: nat) { b < l.blocks && Lo(l, b) <= j <= Hi(l, b) }

  /** The blocks cover the range and do not overlap. */
  lemma BlocksPartition(l: Layout, j: nat) returns (b: nat)
    requires LayoutOk(l) && j < l.dist
    ensures InBlock(l, b, j) && forall c :: InBlock(l, c, j) ==> c == b
  {
    b := l.blocks - 1;
    while j < Lo(l, b)
      invariant b < l.blocks && j <= Hi(l, b)
      decreases b
    {
      b := b - 1;
      BlockBounds(l, b);
    }
    forall c | InBlock(l, c, j) ensures c == b {
      DisjointBlocks(l, b, c, j);
    }
  }

  lemma DisjointBlocks(l: Layout, b: nat, c: nat, j: nat)
    requires LayoutOk(l) && InBlock(l, b, j) && InBlock(l, c, j)
    ensures b == c
  {
    if b < c {
      LoGrows(l, b, c);
    } else if c < b {
      LoGrows(l, c, b);
    }
  }

  // ---------------------------------------------------------------- the workers

  /** `prev` is the running total received from the block before, 0 for the first block. */
  datatype Pc = Scan(j: nat) | Get | AddLast(prev: int) | SetValue(prev: int) | AddRest(j: nat, prev: int) | Done

  datatype State = State(layout: Layout, data: seq<int>, promises: seq<Option<int>>, workers: seq<Pc>)

  ghost predicate Init(s: State) {
    && LayoutOk(s.layout) && |s.data| == s.layout.dist
    && |s.workers| == |s.promises| == s.layout.blocks
    && (forall b :: 0 <= b < |s.workers| ==> s.workers[b] == Scan(Lo(s.layout, b) + 1))
    && forall b :: 0 <= b < |s.promises| ==> s.promises[b] == None
  }

  /** Worker `b` can take its next step: cells are in range, and a `get` waits for the value. */
  predicate Enabled(s: State, b: nat) {
    && b < |s.workers| == |s.promises|
    && match s.workers[b]
       case Scan(j) => 0 < j && Hi(s.layout, b) < |s.data|
       case Get => b > 0 && s.promises[b - 1].Some?
       case AddLast(_) => 0 <= Hi(s.layout, b) < |s.data|
       case SetValue(_) => 0 <= Hi(s.layout, b) < |s.data|
       case AddRest(_, _) => Hi(s.layout, b) < |s.data|
       case Done => false
  }

  function Goto(s: State, b: nat, pc: Pc): State
    requires b < |s.workers|
  {
    s.(workers := s.workers[b := pc])
  }

  function Add(s: State, j: nat, v: int): State
    requires j < |s.data|
  {
    s.(data := s.data[j := s.data[j] + v])
  }

  function Next(s: State, b: nat): (s': State)
    requires Enabled(s, b)
    ensures |s'.workers| == |s.workers| && s'.workers == s.workers[b := s'.workers[b]]
    ensures s'.layout == s.layout && |s'.data| == |s.data| && |s'.promises| == |s.promises|
  {
    var hi := Hi(s.layout, b);
    match s.workers[b]
    case Scan(j) =>
      if j <= hi then Goto(Add(s, j, s.data[j - 1]), b, Scan(j + 1)) else Goto(s, b, if b > 0 then Get else SetValue(0))
    case Get => Goto(s, b, AddLast(s.promises[b - 1].value))
    case AddLast(prev) => Goto(Add(s, hi, prev), b, SetValue(prev))
    case SetValue(prev) =>
      Goto(if b + 1 < |s.promises| then s.(promises := s.promises[b := Some(s.data[hi])]) else s, b,
           if b > 0 then AddRest(Lo(s.layout, b), prev) else Done)
    case AddRest(j, prev) => if j < hi then Goto(Add(s, j, prev), b, AddRest(j + 1, prev)) else Goto(s, b, Done)
  }

  // ---------------------------------------------------------------- the invariant

  /** The sum of the first `n` elements. */
  function Sum(a: seq<int>, n: nat): int
    requires n <= |a|
  {
    if n == 0 then 0 else Sum(a, n - 1) + a[n - 1]
  }

  /** The sequential result. */
  function PartialSums(a: seq<int>): seq<int> { seq(|a|, j requires 0 <= j < |a| => Sum(a, j + 1)) }

  /** What cell `j` of a block that starts at `lo` holds at program point `pc`. */
  function CellValue(orig: seq<int>, lo: nat, hi: int, pc: Pc, j: nat): int
    requires lo <= j < |orig|
  {
    var local := Sum(orig, j + 1) - Sum(orig, lo);
    match pc
    case Scan(i) => if j < i then local else orig[j]
    case Get => local
    case AddLast(_) => local
    case SetValue(_) => if j == hi then Sum(orig, j + 1) else local
    case AddRest(i, _) => if j < i || j == hi then Sum(orig, j + 1) else local
    case Done => Sum(orig, j + 1)
  }

  ghost predicate BlockOk(s: State, orig: seq<int>, b: nat)
    requires b < |s.workers| == |s.promises| && |orig| == |s.data|
  {
    var lo, hi, pc := Lo(s.layout, b), Hi(s.layout, b), s.workers[b];
    && lo <= hi < |s.data|
    && (forall j :: lo <= j <= hi ==> s.data[j] == CellValue(orig, lo, hi, pc, j))
    && (pc.Scan? ==> lo < pc.j <= hi + 1)
    && (pc.AddRest? ==> lo <= pc.j <= hi)
    && (pc.Get? || pc.AddLast? || pc.AddRest? ==> b > 0)
    && (pc.AddLast? || pc.SetValue? || pc.AddRest? ==> pc.prev == Sum(orig, lo))
    && (b + 1 < |s.workers| ==>
          s.promises[b] == if pc.AddRest? || pc.Done? then Some(Sum(orig, hi + 1)) else None)
  }

  ghost predicate Inv(s: State, orig: seq<int>) {
    && LayoutOk(s.layout) && |s.data| == |orig| == s.layout.dist && |s.workers| == |s.promises| == s.layout.blocks
    && forall b :: 0 <= b < |s.workers| ==> BlockOk(s, orig, b)
  }

  /** A worker writes cells and the promise of its own block only: no cell has two writers. */
  lemma WritesOwnBlock(s: State, orig: seq<int>, b: nat, c: nat)
    requires Inv(s, orig) && Enabled(s, b) && c < |s.workers| && c != b
    ensures forall j :: Lo(s.layout, c) <= j <= Hi(s.layout, c) && j < |s.data| ==> Next(s, b).data[j] == s.data[j]
    ensures Next(s, b).promises[c] == s.promises[c] && Next(s, b).workers[c] == s.workers[c]
  {
    assert BlockOk(s, orig, b) && BlockOk(s, orig, c);
    forall j | Lo(s.layout, c) <= j <= Hi(s.layout, c) && j < |s.data| ensures Next(s, b).data[j] == s.data[j] {
      if InBlock(s.layout, b, j) {
        DisjointBlocks(s.layout, b, c, j);
      }
    }
  }

  lemma OwnBlock(s: State, orig: seq<int>, b: nat)
    requires Inv(s, orig) && Enabled(s, b)
    ensures BlockOk(Next(s, b), orig, b)
  {
    assert BlockOk(s, orig, b);
    if s.workers[b].Get? {
      assert BlockOk(s, orig, b - 1);
      BlockBounds(s.layout, b - 1);
    }
  }

  lemma OtherBlock(s: State, orig: seq<int>, b: nat, c: nat)
    requires Inv(s, orig) && Enabled(s, b) && c < |s.workers| && c != b
    ensures BlockOk(Next(s, b), orig, c)
  {
    assert BlockOk(s, orig, c);
    WritesOwnBlock(s, orig, b, c);
    hide Enabled, Next, CellValue;
  }

  /** Every step of every worker keeps the meaning of every cell. */
  lemma StepKeeps(s: State, orig: seq<int>, b: nat)
    requires Inv(s, orig) && Enabled(s, b)
    ensures Inv(Next(s, b), orig)
  {
    hide BlockOk, Enabled;
    OwnBlock(s, orig, b);
    assert b < |s.workers| by { EnabledBound(s, b); }
    forall c | 0 <= c < |s.workers| ensures BlockOk(Next(s, b), orig, c) {
      if c != b {
        OtherBlock(s, orig, b, c);
      }
    }
  }

  lemma EnabledBound(s: State, b: nat)
    requires Enabled(s, b)
    ensures b < |s.workers| == |s.promises|
  {
  }

  // ---------------------------------------------------------------- progress

  /** Steps worker `b` still has to take. */
  function Work(l: Layout, b: nat, pc: Pc): nat {
    var lo, hi := Lo(l, b), Hi(l, b);
    var span := if lo <= hi then hi - lo else 0;
    match pc
    case Scan(j) => span + 5 + if j <= hi + 1 then hi + 1 - j else 0
    case Get => span + 4
    case AddLast(_) => span + 3
    case SetValue(_) => span + 2
    case AddRest(j, _) => 1 + if j <= hi then hi - j else 0
    case Done => 0
  }

  function TotalWork(l: Layout, workers: seq<Pc>): nat {
    if workers == [] then 0
    else TotalWork(l, workers[..|workers| - 1]) + Work(l, |workers| - 1, workers[|workers| - 1])
  }

  lemma {:induction false} TotalWorkUpdate(l: Layout, workers: seq<Pc>, b: nat, pc: Pc)
    requires b < |workers|
    ensures TotalWork(l, workers[b := pc]) == TotalWork(l, workers) - Work(l, b, workers[b]) + Work(l, b, pc)
  {
    var n := |workers| - 1;
    if b == n {
      assert workers[b := pc][..n] == workers[..n];
    } else {
      TotalWorkUpdate(l, workers[..n], b, pc);
      assert workers[b := pc][..n] == workers[..n][b := pc];
    }
  }

  /** Every schedule comes to an end. */
  lemma WorkDecreases(s: State, orig: seq<int>, b: nat)
    requires Inv(s, orig) && Enabled(s, b)
    ensures TotalWork(s.layout, Next(s, b).workers) < TotalWork(s.layout, s.workers)
  {
    assert BlockOk(s, orig, b);
    TotalWorkUpdate(s.layout, s.workers, b, Next(s, b).workers[b]);
    hide TotalWork, CellValue;
  }

  ghost predicate AllDone(s: State) { forall b :: 0 <= b < |s.workers| ==> s.workers[b].Done? }

  /** No deadlock: the first worker that is not done can move. */
  lemma {:induction false} SomeoneMoves(s: State, orig: seq<int>, c: nat) returns (b: nat)
    requires Inv(s, orig) && c < |s.workers| && !s.workers[c].Done?
    ensures Enabled(s, b)
    decreases c
  {
    assert BlockOk(s, orig, c);
    if c > 0 && !s.workers[c - 1].Done? {
      b := SomeoneMoves(s, orig, c - 1);
    } else {
      b := c;
      if c > 0 {
        assert BlockOk(s, orig, c - 1);
      }
    }
  }

  // ---------------------------------------------------------------- whole runs

  ghost predicate IsRun(states: seq<State>, steps: seq<nat>) {
    && |states| == |steps| + 1 && Init(states[0])
    && forall i :: 0 <= i < |steps| ==> Enabled(states[i], steps[i]) && states[i + 1] == Next(states[i], steps[i])
  }

  lemma InitOk(s: State)
    requires Init(s)
    ensures Inv(s, s.data)
  {
    forall b | 0 <= b < |s.workers| ensures BlockOk(s, s.data, b) {
      BlockBounds(s.layout, b);
    }
  }

  lemma {:induction false} RunKeeps(states: seq<State>, steps: seq<nat>, n: nat)
    requires IsRun(states, steps) && n <= |steps|
    ensures Inv(states[n], states[0].data) && states[n].layout == states[0].layout
    ensures n + TotalWork(states[n].layout, states[n].workers) <= TotalWork(states[0].layout, states[0].workers)
  {
    if n == 0 {
      InitOk(states[0]);
    } else {
      RunKeeps(states, steps, n - 1);
      hide Inv, Enabled, TotalWork;
      StepKeeps(states[n - 1], states[0].data, steps[n - 1]);
      WorkDecreases(states[n - 1], states[0].data, steps[n - 1]);
    }
  }

  /** No run is longer than the work there is at the start. */
  lemma RunsEnd(states: seq<State>, steps: seq<nat>)
    requires IsRun(states, steps)
    ensures |steps| <= TotalWork(states[0].layout, states[0].workers)
  {
    RunKeeps(states, steps, |steps|);
  }

  /**
    Whatever the schedule, a run that can go no further has finished, and the range holds exactly
    the sequential partial sums.
  */
  lemma EverySchedulePrefixSums(states: seq<State>, steps: seq<nat>)
    requires IsRun(states, steps) && forall b :: !Enabled(states[|steps|], b)
    ensures AllDone(states[|steps|]) && states[|steps|].data == PartialSums(states[0].data)
  {
    var s, orig := states[|steps|], states[0].data;
    RunKeeps(states, steps, |steps|);
    forall b | 0 <= b < |s.workers| ensures s.workers[b].Done? {
      if !s.workers[b].Done? {
        var c := SomeoneMoves(s, orig, b);
      }
    }
    DoneMeans(s, orig);
  }

  lemma DoneMeans(s: State, orig: seq<int>)
    requires Inv(s, orig) && AllDone(s)
    ensures s.data == PartialSums(orig)
  {
    forall j | 0 <= j < |s.data| ensures s.data[j] == Sum(orig, j + 1) {
      var b := BlocksPartition(s.layout, j);
      assert BlockOk(s, orig, b);
    }
  }
}
