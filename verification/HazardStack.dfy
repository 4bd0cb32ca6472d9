/**
  The lock-free stack on a fixed memory whose cells are reused, with hazard-pointer reclamation.

  `malloc` may return any cell that is not allocated, so a popped, freed and reallocated node
  can come back at the same address.  A scan reads the hazard slots one by one; threads may
  join while it runs.  Each step is one atomic access; the lists of retired nodes are held as
  sets, since their order decides nothing here.
*/
module HazardStack {
  import opened Sequences

  type Value = int
  const NULL: int := -1

  datatype Pc =
    | Idle
    | PushLoad(n: int)
    | PushCas(n: int)
    | PushReturn
    | PopLoad
    | PopPublish(h: int)
    | PopValidate(h: int)
    | PopRead(h: int)
    | PopCas(h: int, next: int)
    | PopClear(h: int)
    | PopTake(h: int)
    | Retire(h: int, v: Value)
    | Retired(v: Value)
    | ScanAdopt(v: Value)
    | ScanBegin(v: Value)
    | ScanWalk(v: Value, i: nat, arr: set<int>)
    | Sweep(v: Value, arr: set<int>, todo: set<int>)
    | PopReturn(result: Option<Value>)
    | Exited

  /** A thread with its thread-local delete list. */
  datatype Thread = Thread(pc: Pc, local: set<int>)

  datatype Cell = Cell(data: Option<Value>, next: int)

  datatype State = State(
    cells: seq<Cell>, alive: seq<bool>, head: int, hazards: seq<int>, global: set<int>, threads: seq<Thread>)

  /**
    `BeginPush` allocates cell `n`; `FailSpuriously` is a weak CAS that fails without cause;
    `Scan` is a `retire` whose list is long enough to be swept, `SweepOne` looks at one entry.
  */
  datatype Step =
    | BeginPush(t: nat, v: Value, n: int)
    | BeginPop(t: nat)
    | Run(t: nat)
    | FailSpuriously(t: nat)
    | Scan(t: nat)
    | SweepOne(t: nat, d: int)
    | Join
    | Exit(t: nat)

  datatype Event = Silent | Pushed(v: Value) | Popped(v: Value) | SawEmpty

  predicate IsCell(s: State, n: int) { 0 <= n < |s.cells| }

  ghost predicate Init(s: State) {
    && |s.alive| == |s.cells| && (forall n :: 0 <= n < |s.alive| ==> !s.alive[n])
    && s.head == NULL && s.hazards == [] && s.threads == [] && s.global == {}
  }

  /** Every cell the next step dereferences or deletes is allocated. */
  predicate Enabled(s: State, a: Step) {
    && |s.alive| == |s.cells| && |s.hazards| == |s.threads|
    && (!a.Join? ==> a.t < |s.threads|)
    && match a
       case BeginPush(t, _, n) => s.threads[t].pc.Idle? && IsCell(s, n) && !s.alive[n]
       case BeginPop(t) => s.threads[t].pc.Idle?
       case Scan(t) => s.threads[t].pc.Retired?
       case SweepOne(t, d) =>
         && s.threads[t].pc.Sweep? && d in s.threads[t].pc.todo
         && (d !in s.threads[t].pc.arr ==> IsCell(s, d) && s.alive[d])
       case FailSpuriously(t) => s.threads[t].pc.PushCas? && IsCell(s, s.threads[t].pc.n) && s.alive[s.threads[t].pc.n]
       case Join => true
       case Exit(t) => s.threads[t].pc.Idle?
       case Run(t) =>
         match s.threads[t].pc
         case Idle => false
         case Exited => false
         case PushLoad(n) => IsCell(s, n) && s.alive[n]
         case PushCas(n) => IsCell(s, n) && s.alive[n]
         case PopRead(h) => IsCell(s, h) && s.alive[h]
         case PopTake(h) => IsCell(s, h) && s.alive[h] && s.cells[h].data.Some?
         case ScanWalk(_, i, _) => i <= |s.hazards|
         case Sweep(_, _, todo) => todo == {}
         case _ => true
  }

  function Goto(s: State, t: nat, pc: Pc): State
    requires t < |s.threads|
  {
    s.(threads := s.threads[t := s.threads[t].(pc := pc)])
  }

  function SetNext(s: State, n: int, next: int): State
    requires IsCell(s, n)
  {
    s.(cells := s.cells[n := s.cells[n].(next := next)])
  }

  function RunNext(s: State, t: nat): State
    requires Enabled(s, Run(t))
  {
    var th := s.threads[t];
    match th.pc
    case PushLoad(n) => Goto(SetNext(s, n, s.head), t, PushCas(n))
    case PushCas(n) =>
      if s.head == s.cells[n].next then Goto(s.(head := n), t, PushReturn)
      else SetNext(s, n, s.head)
    case PushReturn => Goto(s, t, Idle)
    case PopLoad => Goto(s, t, PopPublish(s.head))
    case PopPublish(h) => Goto(s.(hazards := s.hazards[t := h]), t, PopValidate(h))
    case PopValidate(h) => Goto(s, t, if s.head != h then PopLoad else if h == NULL then PopClear(NULL) else PopRead(h))
    case PopRead(h) => Goto(s, t, PopCas(h, s.cells[h].next))
    case PopCas(h, next) => if s.head == h then Goto(s.(head := next), t, PopClear(h)) else Goto(s, t, PopLoad)
    case PopClear(h) => Goto(s.(hazards := s.hazards[t := NULL]), t, if h == NULL then PopReturn(None) else PopTake(h))
    case PopTake(h) =>
      Goto(s.(cells := s.cells[h := s.cells[h].(data := None)]), t, Retire(h, s.cells[h].data.value))
    case Retire(h, v) => s.(threads := s.threads[t := Thread(Retired(v), th.local + {h})])
    case Retired(v) => Goto(s, t, PopReturn(Some(v)))
    case ScanAdopt(v) => s.(global := {}, threads := s.threads[t := Thread(ScanBegin(v), th.local + s.global)])
    case ScanBegin(v) => Goto(s, t, ScanWalk(v, |s.hazards|, {}))
    case ScanWalk(v, i, arr) =>
      if i == 0 then s.(threads := s.threads[t := Thread(Sweep(v, arr, th.local), {})])
      else Goto(s, t, ScanWalk(v, i - 1, arr + {s.hazards[i - 1]}))
    case Sweep(v, _, _) => Goto(s, t, PopReturn(Some(v)))
    case PopReturn(_) => Goto(s, t, Idle)
  }

  function Next(s: State, a: Step): State
    requires Enabled(s, a)
  {
    match a
    case BeginPush(t, v, n) =>
      Goto(s.(cells := s.cells[n := Cell(Some(v), NULL)], alive := s.alive[n := true]), t, PushLoad(n))
    case BeginPop(t) => Goto(s, t, PopLoad)
    case Run(t) => RunNext(s, t)
    case FailSpuriously(t) => SetNext(s, s.threads[t].pc.n, s.head)
    case Scan(t) => Goto(s, t, ScanAdopt(s.threads[t].pc.v))
    case SweepOne(t, d) =>
      var th := s.threads[t];
      var pc := th.pc.(todo := th.pc.todo - {d});
      if d in pc.arr then s.(threads := s.threads[t := Thread(pc, th.local + {d})])
      else Goto(s.(alive := s.alive[d := false]), t, pc)
    case Join => s.(hazards := s.hazards + [NULL], threads := s.threads + [Thread(Idle, {})])
    case Exit(t) =>
      s.(hazards := s.hazards[t := NULL], global := s.global + s.threads[t].local,
         threads := s.threads[t := Thread(Exited, {})])
  }

  function EventOf(s: State, a: Step): Event
    requires Enabled(s, a)
  {
    if !a.Run? then Silent else
      match s.threads[a.t].pc
      case PushCas(n) =>
        if s.head == s.cells[n].next && s.cells[n].data.Some? then Pushed(s.cells[n].data.value) else Silent
      case PopValidate(h) => if s.head == h == NULL then SawEmpty else Silent
      case PopCas(h, _) =>
        if s.head == h && IsCell(s, h) && s.cells[h].data.Some? then Popped(s.cells[h].data.value) else Silent
      case _ => Silent
  }

  // ---------------------------------------------------------------- where each cell is

  /** The one place a cell belongs to. */
  datatype Loc = Free | Private(t: nat) | OnStack | Taken(t: nat) | Listed(t: nat) | InGlobal

  /** What the running call of a thread is about to push, or has done to the abstract stack. */
  datatype Got = Nothing | Pushing(v: Value) | Empty | GotValue(v: Value) | PutValue(v: Value)

  function Put(got: Got): Got { if got.Pushing? then PutValue(got.v) else Nothing }

  datatype Aux = Aux(stack: seq<int>, loc: seq<Loc>, got: seq<Got>)

  /** The node of a running push, or the node a pop has taken off the stack. */
  function PushNode(pc: Pc): int { match pc case PushLoad(n) => n case PushCas(n) => n case _ => NULL }

  function TakenNode(pc: Pc): int {
    match pc case PopClear(h) => h case PopTake(h) => h case Retire(h, _) => h case _ => NULL
  }

  /** The node a validated hazard pointer protects. */
  function Guarded(pc: Pc): int { match pc case PopRead(h) => h case PopCas(h, _) => h case _ => NULL }

  function Entries(th: Thread): set<int> {
    th.local + match th.pc case Sweep(_, _, todo) => todo case _ => {}
  }

  predicate Valid(x: Aux, n: int) { 0 <= n < |x.loc| }

  ghost predicate MemoryOk(s: State, x: Aux) {
    && |s.alive| == |s.cells| == |x.loc|
    && forall n :: 0 <= n < |x.loc| ==> (s.alive[n] <==> x.loc[n] != Free)
  }

  /** The node below position `i` of the stack. */
  function Below(st: seq<int>, i: nat): int
    requires i < |st|
  {
    if i + 1 < |st| then st[i + 1] else NULL
  }

  /** The stack lists exactly the cells that are on it, each once. */
  ghost predicate Members(st: seq<int>, loc: seq<Loc>) {
    && (forall i :: 0 <= i < |st| ==> 0 <= st[i] < |loc| && loc[st[i]] == OnStack)
    && (forall i, j :: 0 <= i < j < |st| ==> st[i] != st[j])
    && (forall n :: 0 <= n < |loc| && loc[n] == OnStack ==> n in st)
  }

  /** The links from the head run through the stack. */
  ghost predicate Links(cells: seq<Cell>, head: int, st: seq<int>) {
    && head == (if st == [] then NULL else st[0])
    && (forall i :: 0 <= i < |st| ==> 0 <= st[i] < |cells| && cells[st[i]].data.Some?)
    && (forall i :: 0 <= i < |st| ==> cells[st[i]].next == Below(st, i))
  }

  ghost predicate StackOk(cells: seq<Cell>, head: int, x: Aux) {
    |cells| == |x.loc| && Members(x.stack, x.loc) && Links(cells, head, x.stack)
  }

  ghost predicate GlobalOk(global: set<int>, x: Aux) {
    && (forall n :: n in global ==> Valid(x, n) && x.loc[n] == InGlobal)
    && (forall n :: 0 <= n < |x.loc| && x.loc[n] == InGlobal ==> n in global)
  }

  /** A node that may be dereferenced through a validated hazard pointer. */
  predicate Held(x: Aux, h: int) { Valid(x, h) && !x.loc[h].Free? && !x.loc[h].Private? }

  ghost predicate PlacesOk(x: Aux, th: Thread, t: nat) {
    && (PushNode(th.pc) != NULL ==> Valid(x, PushNode(th.pc)) && x.loc[PushNode(th.pc)] == Private(t))
    && (TakenNode(th.pc) != NULL ==> Valid(x, TakenNode(th.pc)) && x.loc[TakenNode(th.pc)] == Taken(t))
    && (forall n :: n in Entries(th) ==> Valid(x, n) && x.loc[n] == Listed(t))
    && (th.pc.Sweep? ==> th.local !! th.pc.todo)
  }

  /** Conversely, what is recorded for a thread is in its hands: nothing leaks. */
  ghost predicate NoLeak(x: Aux, ths: seq<Thread>) {
    forall n :: 0 <= n < |x.loc| ==> InHands(x.loc[n], n, ths)
  }

  ghost predicate InHands(l: Loc, n: int, ths: seq<Thread>) {
    match l
    case Private(t) => t < |ths| && PushNode(ths[t].pc) == n
    case Taken(t) => t < |ths| && TakenNode(ths[t].pc) == n
    case Listed(t) => t < |ths| && n in Entries(ths[t])
    case _ => true
  }

  ghost predicate PcOk(s: State, x: Aux, t: nat)
    requires t < |s.threads| == |s.hazards| == |x.got| && |s.cells| == |x.loc|
  {
    var hz, got := s.hazards[t], x.got[t];
    match s.threads[t].pc
    case Idle => hz == NULL
    case PushLoad(n) => got.Pushing? && Valid(x, n) && s.cells[n].data == Some(got.v) && hz == NULL
    case PushCas(n) => got.Pushing? && Valid(x, n) && s.cells[n].data == Some(got.v) && hz == NULL
    case PushReturn => got.PutValue? && hz == NULL
    case PopLoad => got == Nothing
    case PopPublish(h) => got == Nothing
    case PopValidate(h) => got == Nothing && hz == h
    case PopRead(h) => got == Nothing && h != NULL && hz == h && Held(x, h)
    case PopCas(h, next) => got == Nothing && h != NULL && hz == h && Held(x, h) && s.cells[h].next == next
    case PopClear(h) =>
      if h == NULL then got == Empty else Valid(x, h) && s.cells[h].data.Some? && got == GotValue(s.cells[h].data.value)
    case PopTake(h) =>
      h != NULL && Valid(x, h) && s.cells[h].data.Some? && got == GotValue(s.cells[h].data.value) && hz == NULL
    case Retire(h, v) => h != NULL && got == GotValue(v) && hz == NULL
    case PopReturn(result) => got == (if result.None? then Empty else GotValue(result.value)) && hz == NULL
    case Exited => hz == NULL
    case pc => got == GotValue(pc.v) && hz == NULL
  }

  /** The scan of `t` has seen, or will still see, every hazard pointer on an entry of its list. */
  ghost predicate ScanOk(x: Aux, ths: seq<Thread>, t: nat)
    requires t < |ths|
  {
    match ths[t].pc
    case ScanWalk(_, i, arr) =>
      i <= |ths| && forall u :: i <= u < |ths| ==> Noticed(x, Guarded(ths[u].pc), arr, t)
    case Sweep(_, arr, _) => forall u :: 0 <= u < |ths| ==> Noticed(x, Guarded(ths[u].pc), arr, t)
    case _ => true
  }

  ghost predicate Noticed(x: Aux, h: int, arr: set<int>, t: nat) {
    h != NULL && Valid(x, h) && x.loc[h] == Listed(t) ==> h in arr
  }

  ghost predicate Inv(s: State, x: Aux) {
    && MemoryOk(s, x)
    && StackOk(s.cells, s.head, x)
    && GlobalOk(s.global, x)
    && |s.hazards| == |s.threads| == |x.got|
    && NoLeak(x, s.threads)
    && forall t :: 0 <= t < |s.threads| ==>
         PlacesOk(x, s.threads[t], t) && PcOk(s, x, t) && ScanOk(x, s.threads, t)
  }

  /** Every cell at `from` moves to `to`. */
  function Relocate(loc: seq<Loc>, from: Loc, to: Loc): (r: seq<Loc>)
    ensures |r| == |loc|
    ensures forall n :: 0 <= n < |loc| ==> r[n] == if loc[n] == from then to else loc[n]
  {
    seq(|loc|, n requires 0 <= n < |loc| => if loc[n] == from then to else loc[n])
  }

  /** How the auxiliary data follows a step. */
  function AuxNext(s: State, a: Step, x: Aux): Aux
    requires Enabled(s, a) && |x.loc| == |s.cells| && |x.got| == |s.threads|
  {
    match a
    case BeginPush(t, v, n) => x.(loc := x.loc[n := Private(t)], got := x.got[t := Pushing(v)])
    case BeginPop(t) => x.(got := x.got[t := Nothing])
    case SweepOne(t, d) => if d in s.threads[t].pc.arr then x else x.(loc := x.loc[d := Free])
    case Join => x.(got := x.got + [Nothing])
    case Exit(t) => x.(loc := Relocate(x.loc, Listed(t), InGlobal))
    case Run(t) =>
      (match s.threads[t].pc
       case PushCas(n) =>
         if s.head == s.cells[n].next
         then Aux([n] + x.stack, x.loc[n := OnStack], x.got[t := Put(x.got[t])]) else x
       case PopValidate(h) => if s.head == h == NULL then x.(got := x.got[t := Empty]) else x
       case PopCas(h, _) =>
         if s.head == h && IsCell(s, h) && x.stack != []
         then Aux(x.stack[1..], x.loc[h := Taken(t)],
                  x.got[t := if s.cells[h].data.Some? then GotValue(s.cells[h].data.value) else Nothing]) else x
       case Retire(h, _) => if IsCell(s, h) then x.(loc := x.loc[h := Listed(t)]) else x
       case ScanAdopt(_) =>
         x.(loc := Relocate(x.loc, InGlobal, Listed(t)))
       case _ => x)
    case _ => x
  }

  // ---------------------------------------------------------------- what a step of t means for the others

  /** The moves a step of `t` may make; a cell is freed only when no hazard pointer guards it. */
  ghost predicate Shift(l: Loc, l': Loc, t: nat) {
    || l' == l
    || (l == Free && l' == Private(t))
    || (l == Private(t) && l' == OnStack)
    || (l == OnStack && l' == Taken(t))
    || (l == Taken(t) && l' == Listed(t))
    || (l == InGlobal && l' == Listed(t))
    || (l == Listed(t) && l' == InGlobal)
    || (l == Listed(t) && l' == Free)
  }

  ghost predicate LocsMove(x: Aux, x': Aux, ths: seq<Thread>, t: nat) {
    && |x'.loc| == |x.loc|
    && (forall n :: 0 <= n < |x.loc| ==> Shift(x.loc[n], x'.loc[n], t))
    && (forall n, u :: 0 <= n < |x.loc| && 0 <= u < |ths| && x.loc[n] != Free && x'.loc[n] == Free ==>
           Guarded(ths[u].pc) != n)
  }

  ghost predicate CellsMove(cells: seq<Cell>, cells': seq<Cell>, x: Aux, t: nat) {
    && |cells'| == |cells| == |x.loc|
    && (forall n :: 0 <= n < |cells| && x.loc[n] != Free && x.loc[n] != Private(t) ==> cells'[n].next == cells[n].next)
    && (forall n :: 0 <= n < |cells| && x.loc[n] != Free && x.loc[n] != Taken(t) ==> cells'[n].data == cells[n].data)
  }

  ghost predicate Moves(s: State, x: Aux, s': State, x': Aux, t: nat) {
    && t < |s.threads| == |s'.threads| == |s.hazards| == |s'.hazards| == |x.got| == |x'.got|
    && s'.threads == s.threads[t := s'.threads[t]]
    && s'.hazards == s.hazards[t := s'.hazards[t]]
    && x'.got == x.got[t := x'.got[t]]
    && LocsMove(x, x', s.threads, t)
    && CellsMove(s.cells, s'.cells, x, t)
    && (var g := Guarded(s'.threads[t].pc);
        g == NULL || g == Guarded(s.threads[t].pc) || (Valid(x', g) && x'.loc[g] == OnStack))
  }

  lemma OtherKeeps(s: State, x: Aux, s': State, x': Aux, t: nat, u: nat)
    requires |s.cells| == |x.loc| && Moves(s, x, s', x', t) && u < |s.threads| && u != t
    requires PlacesOk(x, s.threads[u], u) && PcOk(s, x, u)
    ensures PlacesOk(x', s'.threads[u], u) && PcOk(s', x', u)
  {
    var th := s.threads[u];
    forall n | n in Entries(th) ensures Valid(x', n) && x'.loc[n] == Listed(u) {
      assert Valid(x, n) && x.loc[n] == Listed(u);
    }
  }

  lemma OtherScanKeeps(s: State, x: Aux, s': State, x': Aux, t: nat, u: nat)
    requires Moves(s, x, s', x', t) && u < |s.threads| && u != t
    requires ScanOk(x, s.threads, u)
    ensures ScanOk(x', s'.threads, u)
  {
    forall v, arr | 0 <= v < |s.threads| && Noticed(x, Guarded(s.threads[v].pc), arr, u)
      ensures Noticed(x', Guarded(s'.threads[v].pc), arr, u)
    {
      var h := Guarded(s'.threads[v].pc);
      if h != NULL && Valid(x', h) && x'.loc[h] == Listed(u) {
        assert Shift(x.loc[h], x'.loc[h], t);
      }
    }
  }

  /** What is left to show for a step of `t` that satisfies `Moves`. */
  ghost predicate OwnOk(s': State, x': Aux, t: nat) {
    && MemoryOk(s', x') && StackOk(s'.cells, s'.head, x') && GlobalOk(s'.global, x')
    && |s'.hazards| == |s'.threads| == |x'.got| && t < |s'.threads|
    && NoLeak(x', s'.threads)
    && PlacesOk(x', s'.threads[t], t) && PcOk(s', x', t) && ScanOk(x', s'.threads, t)
  }

  lemma Frame(s: State, x: Aux, s': State, x': Aux, t: nat)
    requires Inv(s, x) && Moves(s, x, s', x', t) && OwnOk(s', x', t)
    ensures Inv(s', x')
  {
    hide MemoryOk, StackOk, GlobalOk, NoLeak, PlacesOk, PcOk, ScanOk;
    SameLength(s, x);
    forall u | 0 <= u < |s'.threads|
      ensures PlacesOk(x', s'.threads[u], u) && PcOk(s', x', u) && ScanOk(x', s'.threads, u)
    {
      if u != t {
        OtherKeeps(s, x, s', x', t, u);
        OtherScanKeeps(s, x, s', x', t, u);
      }
    }
  }

  lemma SameLength(s: State, x: Aux)
    requires MemoryOk(s, x)
    ensures |s.cells| == |x.loc| == |s.alive|
  {
  }

  lemma InvAt(s: State, x: Aux, t: nat)
    requires Inv(s, x) && t < |s.threads|
    ensures OwnOk(s, x, t)
  {
  }

  // ---------------------------------------------------------------- one lemma per kind of step

  /** What a step lemma establishes. */
  ghost predicate StepOk(s: State, x: Aux, s': State, x': Aux, t: nat) {
    Moves(s, x, s', x', t) && OwnOk(s', x', t)
  }

  /** A step that moves no cell between places. */
  lemma QuietStep(s: State, x: Aux, s': State, x': Aux, t: nat)
    requires OwnOk(s, x, t)
    requires s'.cells == s.cells && s'.alive == s.alive && s'.head == s.head && s'.global == s.global
    requires x'.stack == x.stack && x'.loc == x.loc
    requires Moves(s, x, s', x', t)
    requires PushNode(s'.threads[t].pc) == PushNode(s.threads[t].pc)
    requires TakenNode(s'.threads[t].pc) == TakenNode(s.threads[t].pc)
    requires Entries(s'.threads[t]) == Entries(s.threads[t])
    requires s'.threads[t].pc.Sweep? ==> s'.threads[t].local !! s'.threads[t].pc.todo
    requires PcOk(s', x', t) && ScanOk(x', s'.threads, t)
    ensures StepOk(s, x, s', x', t)
  {
    hide Members, Links, ScanOk, PcOk;
    assert NoLeak(x', s'.threads) by {
      forall m | 0 <= m < |x.loc| ensures InHands(x.loc[m], m, s'.threads) {
        assert InHands(x.loc[m], m, s.threads);
      }
    }
  }

  predicate IsQuiet(pc: Pc) {
    || pc.PushReturn? || pc.PopLoad? || pc.PopPublish? || pc.PopRead? || pc.PopClear?
    || pc.Retired? || pc.ScanBegin? || pc.PopReturn?
  }

  lemma RunQuiet(s: State, x: Aux, t: nat)
    requires OwnOk(s, x, t) && Enabled(s, Run(t)) && IsQuiet(s.threads[t].pc)
    ensures StepOk(s, x, Next(s, Run(t)), AuxNext(s, Run(t), x), t)
  {
    hide Members, Links, GlobalOk, NoLeak, StepOk;
    QuietStep(s, x, Next(s, Run(t)), AuxNext(s, Run(t), x), t);
  }

  /** A validated pointer is on the stack at that moment. */
  lemma RunValidate(s: State, x: Aux, t: nat)
    requires OwnOk(s, x, t) && Enabled(s, Run(t)) && s.threads[t].pc.PopValidate?
    ensures StepOk(s, x, Next(s, Run(t)), AuxNext(s, Run(t), x), t)
  {
    hide GlobalOk, NoLeak, StepOk;
    QuietStep(s, x, Next(s, Run(t)), AuxNext(s, Run(t), x), t);
  }

  /** Reading one more hazard slot: whatever it guards is noted. */
  lemma RunScanWalk(s: State, x: Aux, t: nat)
    requires Inv(s, x) && OwnOk(s, x, t) && Enabled(s, Run(t)) && s.threads[t].pc.ScanWalk?
    ensures StepOk(s, x, Next(s, Run(t)), AuxNext(s, Run(t), x), t)
  {
    hide Members, Links, GlobalOk, MemoryOk, NoLeak, StepOk;
    var s', i := Next(s, Run(t)), s.threads[t].pc.i;
    if i > 0 {
      assert PcOk(s, x, i - 1);
    }
    assert ScanOk(x, s'.threads, t);
    QuietStep(s, x, s', x, t);
  }

  lemma RunSweepEnd(s: State, x: Aux, t: nat)
    requires OwnOk(s, x, t) && Enabled(s, Run(t)) && s.threads[t].pc.Sweep?
    ensures StepOk(s, x, Next(s, Run(t)), AuxNext(s, Run(t), x), t)
  {
    hide Members, Links, GlobalOk, MemoryOk, NoLeak, StepOk;
    QuietStep(s, x, Next(s, Run(t)), x, t);
  }

  lemma StepScan(s: State, x: Aux, t: nat)
    requires OwnOk(s, x, t) && Enabled(s, Scan(t))
    ensures StepOk(s, x, Next(s, Scan(t)), AuxNext(s, Scan(t), x), t)
  {
    hide Members, Links, GlobalOk, MemoryOk, NoLeak, StepOk;
    QuietStep(s, x, Next(s, Scan(t)), x, t);
  }

  lemma StepBeginPop(s: State, x: Aux, t: nat)
    requires OwnOk(s, x, t) && Enabled(s, BeginPop(t))
    ensures StepOk(s, x, Next(s, BeginPop(t)), AuxNext(s, BeginPop(t), x), t)
  {
    hide Members, Links, GlobalOk, MemoryOk, NoLeak, StepOk;
    QuietStep(s, x, Next(s, BeginPop(t)), AuxNext(s, BeginPop(t), x), t);
  }

  // pushing

  /** Links and data off the stack do not matter to it. */
  lemma WriteOffStack(cells: seq<Cell>, head: int, x: Aux, n: int, c: Cell)
    requires StackOk(cells, head, x) && Valid(x, n) && x.loc[n] != OnStack
    ensures StackOk(cells[n := c], head, x)
  {
  }

  lemma MoveKeepsNoLeak(x: Aux, x': Aux, ths: seq<Thread>, t: nat, th': Thread, n: int)
    requires t < |ths| && NoLeak(x, ths) && Valid(x, n) && |x'.loc| == |x.loc|
    requires forall m :: 0 <= m < |x.loc| && m != n ==> x'.loc[m] == x.loc[m]
    requires InHands(x'.loc[n], n, ths[t := th'])
    requires PushNode(ths[t].pc) in {n, NULL, PushNode(th'.pc)}
    requires TakenNode(ths[t].pc) in {n, NULL, TakenNode(th'.pc)}
    requires Entries(ths[t]) - {n} <= Entries(th')
    ensures NoLeak(x', ths[t := th'])
  {
    forall m | 0 <= m < |x'.loc| ensures InHands(x'.loc[m], m, ths[t := th']) {
      if m != n { assert InHands(x.loc[m], m, ths); }
    }
  }

  /** Storing the expected head in the private node. */
  lemma WriteNext(s: State, x: Aux, s': State, t: nat, n: int)
    requires OwnOk(s, x, t) && PushNode(s.threads[t].pc) == n != NULL && IsCell(s, n)
    requires s' == Goto(SetNext(s, n, s.head), t, PushCas(n))
    ensures StepOk(s, x, s', x, t)
  {
    hide Members, Links, GlobalOk, NoLeak;
    WriteOffStack(s.cells, s.head, x, n, s'.cells[n]);
    MoveKeepsNoLeak(x, x, s.threads, t, s'.threads[t], n);
  }

  lemma RunPushLoad(s: State, x: Aux, t: nat)
    requires OwnOk(s, x, t) && Enabled(s, Run(t)) && s.threads[t].pc.PushLoad?
    ensures StepOk(s, x, Next(s, Run(t)), AuxNext(s, Run(t), x), t)
  {
    hide StepOk, Members, Links, GlobalOk, NoLeak;
    WriteNext(s, x, Next(s, Run(t)), t, s.threads[t].pc.n);
  }

  lemma PushRetries(s: State, x: Aux, t: nat, s': State)
    requires OwnOk(s, x, t) && s.threads[t].pc.PushCas? && IsCell(s, s.threads[t].pc.n)
    requires s' == SetNext(s, s.threads[t].pc.n, s.head)
    ensures StepOk(s, x, s', x, t)
  {
    hide StepOk, Members, Links, GlobalOk, NoLeak;
    assert s.threads[t := s.threads[t].(pc := PushCas(s.threads[t].pc.n))] == s.threads;
    WriteNext(s, x, s', t, s.threads[t].pc.n);
  }

  lemma PushLinks(cells: seq<Cell>, head: int, st: seq<int>, n: int)
    requires Links(cells, head, st) && 0 <= n < |cells| && cells[n].next == head && cells[n].data.Some?
    ensures Links(cells, n, [n] + st)
  {
    var st' := [n] + st;
    forall i | 0 <= i < |st'| ensures cells[st'[i]].next == Below(st', i) {
      if i > 0 { assert cells[st[i - 1]].next == Below(st, i - 1); }
    }
  }

  lemma PushMembers(st: seq<int>, loc: seq<Loc>, n: int)
    requires Members(st, loc) && 0 <= n < |loc| && loc[n] != OnStack
    ensures Members([n] + st, loc[n := OnStack])
  {
    var st', loc' := [n] + st, loc[n := OnStack];
    forall m | 0 <= m < |loc'| && loc'[m] == OnStack ensures m in st' {
      if m == n { assert st'[0] == m; } else {
        var i :| 0 <= i < |st| && st[i] == m;
        assert st'[i + 1] == m;
      }
    }
  }

  /** The successful push: the private node becomes the top of the stack. */
  lemma PushSucceeds(s: State, x: Aux, t: nat, s': State, x': Aux)
    requires OwnOk(s, x, t) && s.threads[t].pc.PushCas? && IsCell(s, s.threads[t].pc.n)
    requires var n := s.threads[t].pc.n;
             && s.head == s.cells[n].next && s' == Goto(s.(head := n), t, PushReturn)
             && x' == Aux([n] + x.stack, x.loc[n := OnStack], x.got[t := Put(x.got[t])])
    ensures StepOk(s, x, s', x', t)
  {
    hide NoLeak, Members, Links;
    var n := s.threads[t].pc.n;
    PushLinks(s.cells, s.head, x.stack, n);
    PushMembers(x.stack, x.loc, n);
    MoveKeepsNoLeak(x, x', s.threads, t, s'.threads[t], n);
  }

  lemma RunPushCas(s: State, x: Aux, t: nat)
    requires OwnOk(s, x, t) && Enabled(s, Run(t)) && s.threads[t].pc.PushCas?
    ensures StepOk(s, x, Next(s, Run(t)), AuxNext(s, Run(t), x), t)
  {
    hide StepOk, Members, Links, GlobalOk, NoLeak;
    var s', x', n := Next(s, Run(t)), AuxNext(s, Run(t), x), s.threads[t].pc.n;
    if s.head == s.cells[n].next {
      PushSucceeds(s, x, t, s', x');
    } else {
      PushRetries(s, x, t, s');
    }
  }

  lemma FreeIsOffStack(st: seq<int>, loc: seq<Loc>, n: int, l: Loc)
    requires Members(st, loc) && 0 <= n < |loc| && loc[n] != OnStack && l != OnStack
    ensures Members(st, loc[n := l])
  {
  }

  lemma StepBeginPush(s: State, x: Aux, t: nat, v: Value, n: int)
    requires OwnOk(s, x, t) && Enabled(s, BeginPush(t, v, n))
    ensures StepOk(s, x, Next(s, BeginPush(t, v, n)), AuxNext(s, BeginPush(t, v, n), x), t)
  {
    hide NoLeak, Members, Links;
    var a := BeginPush(t, v, n);
    var s', x' := Next(s, a), AuxNext(s, a, x);
    assert x.loc[n] == Free;
    MoveKeepsNoLeak(x, x', s.threads, t, s'.threads[t], n);
    WriteOffStack(s.cells, s.head, x, n, s'.cells[n]);
    FreeIsOffStack(x.stack, x.loc, n, Private(t));
  }

  // popping

  lemma PopMembers(st: seq<int>, loc: seq<Loc>, l: Loc)
    requires Members(st, loc) && st != [] && l != OnStack
    ensures Members(st[1..], loc[st[0] := l])
  {
    var st', loc' := st[1..], loc[st[0] := l];
    forall m | 0 <= m < |loc'| && loc'[m] == OnStack ensures m in st' {
      var i :| 0 <= i < |st| && st[i] == m;
      assert st'[i - 1] == m;
    }
  }

  lemma PopLinks(cells: seq<Cell>, head: int, st: seq<int>)
    requires Links(cells, head, st) && st != []
    ensures Links(cells, cells[head].next, st[1..])
  {
    var st' := st[1..];
    assert cells[st[0]].next == Below(st, 0);
    forall i | 0 <= i < |st'| ensures cells[st'[i]].next == Below(st', i) {
      assert cells[st[i + 1]].next == Below(st, i + 1);
    }
  }

  /** A guarded node that is the head again never left the stack: the CAS meets no ABA. */
  lemma HeadOnStack(s: State, x: Aux, h: int)
    requires StackOk(s.cells, s.head, x) && s.head == h != NULL
    ensures x.stack != [] && x.stack[0] == h && Valid(x, h) && x.loc[h] == OnStack && s.cells[h].data.Some?
  {
  }

  lemma PopSucceeds(s: State, x: Aux, t: nat, s': State, x': Aux)
    requires OwnOk(s, x, t) && s.threads[t].pc.PopCas?
    requires var h := s.threads[t].pc.h;
             && s.head == h && x.stack != [] && IsCell(s, h) && s.cells[h].data.Some?
             && s' == Goto(s.(head := s.threads[t].pc.next), t, PopClear(h))
             && x' == Aux(x.stack[1..], x.loc[h := Taken(t)], x.got[t := GotValue(s.cells[h].data.value)])
    ensures StepOk(s, x, s', x', t)
  {
    hide NoLeak, Members, Links;
    var h := s.threads[t].pc.h;
    HeadOnStack(s, x, h);
    PopMembers(x.stack, x.loc, Taken(t));
    PopLinks(s.cells, s.head, x.stack);
    MoveKeepsNoLeak(x, x', s.threads, t, s'.threads[t], h);
  }

  lemma PopRetries(s: State, x: Aux, t: nat, s': State)
    requires OwnOk(s, x, t) && s.threads[t].pc.PopCas? && s' == Goto(s, t, PopLoad)
    ensures StepOk(s, x, s', x, t)
  {
    hide StepOk, Members, Links, GlobalOk, NoLeak;
    QuietStep(s, x, s', x, t);
  }

  lemma RunPopCas(s: State, x: Aux, t: nat)
    requires OwnOk(s, x, t) && Enabled(s, Run(t)) && s.threads[t].pc.PopCas?
    ensures StepOk(s, x, Next(s, Run(t)), AuxNext(s, Run(t), x), t)
  {
    hide StepOk, Members, Links, GlobalOk, NoLeak;
    var h := s.threads[t].pc.h;
    if s.head == h {
      assert h != NULL;
      HeadAt(s, x, t, h);
      PopSucceeds(s, x, t, Next(s, Run(t)), AuxNext(s, Run(t), x));
    } else {
      PopRetries(s, x, t, Next(s, Run(t)));
    }
  }

  lemma HeadAt(s: State, x: Aux, t: nat, h: int)
    requires OwnOk(s, x, t) && s.head == h != NULL
    ensures x.stack != [] && IsCell(s, h) && s.cells[h].data.Some?
  {
    HeadOnStack(s, x, h);
  }

  /** The popper empties the data of the node it has taken. */
  lemma RunPopTake(s: State, x: Aux, t: nat)
    requires OwnOk(s, x, t) && Enabled(s, Run(t)) && s.threads[t].pc.PopTake?
    ensures StepOk(s, x, Next(s, Run(t)), AuxNext(s, Run(t), x), t)
  {
    hide StepOk, Members, Links, GlobalOk, NoLeak;
    TakeData(s, x, t, Next(s, Run(t)), AuxNext(s, Run(t), x));
  }

  lemma TakeData(s: State, x: Aux, t: nat, s': State, x': Aux)
    requires OwnOk(s, x, t) && s.threads[t].pc.PopTake? && x' == x
    requires var h := s.threads[t].pc.h;
             && IsCell(s, h) && s.cells[h].data.Some?
             && s' == Goto(s.(cells := s.cells[h := s.cells[h].(data := None)]), t, Retire(h, s.cells[h].data.value))
    ensures StepOk(s, x, s', x', t)
  {
    hide Members, Links, GlobalOk, NoLeak;
    var h := s.threads[t].pc.h;
    WriteOffStack(s.cells, s.head, x, h, s'.cells[h]);
    MoveKeepsNoLeak(x, x, s.threads, t, s'.threads[t], h);
  }

  lemma RunRetire(s: State, x: Aux, t: nat)
    requires OwnOk(s, x, t) && Enabled(s, Run(t)) && s.threads[t].pc.Retire?
    ensures StepOk(s, x, Next(s, Run(t)), AuxNext(s, Run(t), x), t)
  {
    hide Members, Links, NoLeak;
    var s', x', h := Next(s, Run(t)), AuxNext(s, Run(t), x), s.threads[t].pc.h;
    FreeIsOffStack(x.stack, x.loc, h, Listed(t));
    MoveKeepsNoLeak(x, x', s.threads, t, s'.threads[t], h);
  }

  // scanning and sweeping

  lemma RelocateMembers(st: seq<int>, loc: seq<Loc>, from: Loc, to: Loc)
    requires Members(st, loc) && from != OnStack && to != OnStack
    ensures Members(st, Relocate(loc, from, to))
  {
    var loc' := Relocate(loc, from, to);
    forall m | 0 <= m < |loc'| && loc'[m] == OnStack ensures m in st {
      assert loc[m] == OnStack;
    }
  }

  /** Adopting the nodes that exited threads left behind. */
  lemma RunScanAdopt(s: State, x: Aux, t: nat)
    requires OwnOk(s, x, t) && Enabled(s, Run(t)) && s.threads[t].pc.ScanAdopt?
    ensures StepOk(s, x, Next(s, Run(t)), AuxNext(s, Run(t), x), t)
  {
    hide Members, Links, NoLeak;
    var s', x' := Next(s, Run(t)), AuxNext(s, Run(t), x);
    RelocateMembers(x.stack, x.loc, InGlobal, Listed(t));
    AdoptNoLeak(s, x, t);
    forall m | m in Entries(s'.threads[t]) ensures Valid(x', m) && x'.loc[m] == Listed(t) {
      assert m in s.global || m in Entries(s.threads[t]);
    }
  }

  lemma AdoptNoLeak(s: State, x: Aux, t: nat)
    requires t < |s.threads| && s.threads[t].pc.ScanAdopt? && NoLeak(x, s.threads) && GlobalOk(s.global, x)
    ensures var th := s.threads[t];
            NoLeak(x.(loc := Relocate(x.loc, InGlobal, Listed(t))),
                   s.threads[t := Thread(ScanBegin(th.pc.v), th.local + s.global)])
  {
    var th := s.threads[t];
    var x' := x.(loc := Relocate(x.loc, InGlobal, Listed(t)));
    var ths' := s.threads[t := Thread(ScanBegin(th.pc.v), th.local + s.global)];
    forall m | 0 <= m < |x'.loc| ensures InHands(x'.loc[m], m, ths') {
      assert InHands(x.loc[m], m, s.threads);
    }
  }

  /** One entry of the sweep: kept when noted as guarded, freed otherwise. */
  lemma StepSweepOne(s: State, x: Aux, t: nat, d: int)
    requires OwnOk(s, x, t) && Enabled(s, SweepOne(t, d))
    ensures StepOk(s, x, Next(s, SweepOne(t, d)), AuxNext(s, SweepOne(t, d), x), t)
  {
    hide Members, Links, NoLeak;
    var a := SweepOne(t, d);
    var s', x' := Next(s, a), AuxNext(s, a, x);
    if d in s.threads[t].pc.arr {
      MoveKeepsNoLeak(x, x, s.threads, t, s'.threads[t], d);
    } else {
      FreeIsOffStack(x.stack, x.loc, d, Free);
      MoveKeepsNoLeak(x, x', s.threads, t, s'.threads[t], d);
      forall u | 0 <= u < |s.threads| ensures Guarded(s.threads[u].pc) != d {
        assert Noticed(x, Guarded(s.threads[u].pc), s.threads[t].pc.arr, t);
      }
    }
  }

  lemma ExitNoLeak(s: State, x: Aux, t: nat)
    requires t < |s.threads| && s.threads[t].pc.Idle? && NoLeak(x, s.threads)
    ensures NoLeak(x.(loc := Relocate(x.loc, Listed(t), InGlobal)), s.threads[t := Thread(Exited, {})])
  {
    var x', ths' := x.(loc := Relocate(x.loc, Listed(t), InGlobal)), s.threads[t := Thread(Exited, {})];
    forall m | 0 <= m < |x'.loc| ensures InHands(x'.loc[m], m, ths') {
      assert InHands(x.loc[m], m, s.threads);
    }
  }

  lemma StepExit(s: State, x: Aux, t: nat)
    requires OwnOk(s, x, t) && Enabled(s, Exit(t))
    ensures StepOk(s, x, Next(s, Exit(t)), AuxNext(s, Exit(t), x), t)
  {
    hide Members, Links, NoLeak;
    RelocateMembers(x.stack, x.loc, Listed(t), InGlobal);
    ExitNoLeak(s, x, t);
    var s', x' := Next(s, Exit(t)), AuxNext(s, Exit(t), x);
    forall m | 0 <= m < |x'.loc| && x'.loc[m] == InGlobal ensures m in s'.global {
      assert m in Entries(s.threads[t]) || x.loc[m] == InGlobal by {
        if x.loc[m] == Listed(t) { ListedHere(x, s.threads, t, m); }
      }
    }
    forall m | m in s'.global ensures Valid(x', m) && x'.loc[m] == InGlobal {
      if m in s.threads[t].local { assert m in Entries(s.threads[t]); }
    }
  }

  lemma ListedHere(x: Aux, ths: seq<Thread>, t: nat, m: int)
    requires NoLeak(x, ths) && Valid(x, m) && x.loc[m] == Listed(t)
    ensures t < |ths| && m in Entries(ths[t])
  {
    assert InHands(x.loc[m], m, ths);
  }

  /** A thread that joins guards nothing, so running scans need not see its slot. */
  lemma StepJoin(s: State, x: Aux)
    requires Inv(s, x) && Enabled(s, Join)
    ensures Inv(Next(s, Join), AuxNext(s, Join, x))
  {
    hide Members, Links;
    var s', x' := Next(s, Join), AuxNext(s, Join, x);
    forall m | 0 <= m < |x'.loc| ensures InHands(x'.loc[m], m, s'.threads) {
      assert InHands(x.loc[m], m, s.threads);
    }
    forall u | 0 <= u < |s'.threads|
      ensures PlacesOk(x', s'.threads[u], u) && PcOk(s', x', u) && ScanOk(x', s'.threads, u)
    {
      if u < |s.threads| {
        assert PlacesOk(x, s.threads[u], u) && PcOk(s, x, u) && ScanOk(x, s.threads, u);
        assert s'.threads[u] == s.threads[u];
      }
    }
  }

  // ---------------------------------------------------------------- every step

  lemma RunOk(s: State, x: Aux, t: nat)
    requires Inv(s, x) && OwnOk(s, x, t) && Enabled(s, Run(t))
    ensures StepOk(s, x, Next(s, Run(t)), AuxNext(s, Run(t), x), t)
  {
    hide OwnOk, StepOk, Next, Inv;
    var pc := s.threads[t].pc;
    match pc
    case PushLoad(_) => RunPushLoad(s, x, t);
    case PushCas(_) => RunPushCas(s, x, t);
    case PopValidate(_) => RunValidate(s, x, t);
    case PopCas(_, _) => RunPopCas(s, x, t);
    case PopTake(_) => RunPopTake(s, x, t);
    case Retire(_, _) => RunRetire(s, x, t);
    case ScanAdopt(_) => RunScanAdopt(s, x, t);
    case ScanWalk(_, _, _) => RunScanWalk(s, x, t);
    case Sweep(_, _, _) => RunSweepEnd(s, x, t);
    case _ => RunQuiet(s, x, t);
  }

  lemma ThreadStepOk(s: State, a: Step, x: Aux)
    requires Inv(s, x) && Enabled(s, a) && !a.Join? && OwnOk(s, x, a.t)
    ensures StepOk(s, x, Next(s, a), AuxNext(s, a, x), a.t)
  {
    hide OwnOk, StepOk, Inv;
    match a
    case BeginPush(t, v, n) => StepBeginPush(s, x, t, v, n);
    case BeginPop(t) => StepBeginPop(s, x, t);
    case Run(t) => RunOk(s, x, t);
    case FailSpuriously(t) => PushRetries(s, x, t, Next(s, a));
    case Scan(t) => StepScan(s, x, t);
    case SweepOne(t, d) => StepSweepOne(s, x, t, d);
    case Exit(t) => StepExit(s, x, t);
  }

  lemma InvLengths(s: State, x: Aux)
    requires Inv(s, x)
    ensures |s.cells| == |x.loc| == |s.alive| && |s.hazards| == |s.threads| == |x.got|
  {
  }

  /** Every step keeps the invariant. */
  lemma StepKeeps(s: State, a: Step, x: Aux)
    requires Inv(s, x) && Enabled(s, a) && |x.loc| == |s.cells| && |x.got| == |s.threads|
    ensures Inv(Next(s, a), AuxNext(s, a, x))
  {
    hide Inv, OwnOk, Next;
    if a.Join? {
      StepJoin(s, x);
    } else {
      InvAt(s, x, a.t);
      ThreadStepOk(s, a, x);
      Frame(s, x, Next(s, a), AuxNext(s, a, x), a.t);
    }
  }

  /** The abstract stack, top first. */
  function Values(cells: seq<Cell>, st: seq<int>): seq<Option<Value>> {
    seq(|st|, i requires 0 <= i < |st| => if 0 <= st[i] < |cells| then cells[st[i]].data else None)
  }

  /** A push puts its value on top, a pop takes the top, and a pop that gives up saw an empty stack. */
  ghost predicate StackStep(vs: seq<Option<Value>>, e: Event, vs': seq<Option<Value>>) {
    match e
    case Silent => vs' == vs
    case Pushed(v) => vs' == [Some(v)] + vs
    case Popped(v) => vs != [] && vs[0] == Some(v) && vs' == vs[1..]
    case SawEmpty => vs == [] && vs' == vs
  }

  lemma ValuesUnmoved(s: State, x: Aux, s': State, x': Aux, t: nat)
    requires StackOk(s.cells, s.head, x) && Moves(s, x, s', x', t)
    ensures Values(s'.cells, x.stack) == Values(s.cells, x.stack)
  {
    forall i | 0 <= i < |x.stack| ensures s'.cells[x.stack[i]].data == s.cells[x.stack[i]].data {
      assert x.loc[x.stack[i]] == OnStack;
    }
  }

  /** Every step has the effect of its event on the abstract stack. */
  lemma StepRefines(s: State, a: Step, x: Aux)
    requires Inv(s, x) && Enabled(s, a) && |x.loc| == |s.cells| && |x.got| == |s.threads|
    ensures StackStep(Values(s.cells, x.stack), EventOf(s, a), Values(Next(s, a).cells, AuxNext(s, a, x).stack))
  {
    if !a.Join? {
      InvAt(s, x, a.t);
      ThreadStepOk(s, a, x);
      StepEffect(s, a, x);
    }
  }

  lemma StepEffect(s: State, a: Step, x: Aux)
    requires Enabled(s, a) && !a.Join? && OwnOk(s, x, a.t)
    requires StepOk(s, x, Next(s, a), AuxNext(s, a, x), a.t)
    ensures StackStep(Values(s.cells, x.stack), EventOf(s, a), Values(Next(s, a).cells, AuxNext(s, a, x).stack))
  {
    hide OwnOk, StepOk, StackOk, PcOk, Values, StackStep;
    var t := a.t;
    OwnParts(s, x, t);
    var s', x' := Next(s, a), AuxNext(s, a, x);
    StepParts(s, x, s', x', t);
    ValuesUnmoved(s, x, s', x', t);
    if a.Run? && s.threads[t].pc.PushCas? {
      PushEffect(s, x, t, s', x');
    } else if a.Run? && s.threads[t].pc.PopCas? {
      PopEffect(s, x, t, s', x');
    } else {
      OtherEffect(s, a, x);
    }
  }

  lemma StepParts(s: State, x: Aux, s': State, x': Aux, t: nat)
    requires StepOk(s, x, s', x', t)
    ensures Moves(s, x, s', x', t)
  {
  }

  lemma PushEffect(s: State, x: Aux, t: nat, s': State, x': Aux)
    requires Enabled(s, Run(t)) && s.threads[t].pc.PushCas? && |s.threads| == |x.got| && |x.loc| == |s.cells|
    requires PcOk(s, x, t)
    requires s' == Next(s, Run(t)) && x' == AuxNext(s, Run(t), x)
    requires Values(s'.cells, x.stack) == Values(s.cells, x.stack)
    ensures StackStep(Values(s.cells, x.stack), EventOf(s, Run(t)), Values(s'.cells, x'.stack))
  {
    var n := s.threads[t].pc.n;
    if s.head == s.cells[n].next {
      assert Values(s'.cells, x'.stack) == [s.cells[n].data] + Values(s'.cells, x.stack);
    }
  }

  lemma PopEffect(s: State, x: Aux, t: nat, s': State, x': Aux)
    requires Enabled(s, Run(t)) && s.threads[t].pc.PopCas? && |s.threads| == |x.got| && |x.loc| == |s.cells|
    requires PcOk(s, x, t)
    requires StackOk(s.cells, s.head, x)
    requires s' == Next(s, Run(t)) && x' == AuxNext(s, Run(t), x)
    requires Values(s'.cells, x.stack) == Values(s.cells, x.stack)
    ensures StackStep(Values(s.cells, x.stack), EventOf(s, Run(t)), Values(s'.cells, x'.stack))
  {
    hide Members, Links;
    var h := s.threads[t].pc.h;
    if s.head == h {
      HeadOnStack(s, x, h);
      assert Values(s'.cells, x.stack[1..]) == Values(s'.cells, x.stack)[1..];
    }
  }

  /** Every other step leaves the stack alone; a pop that finds no head sees it empty. */
  lemma OtherEffect(s: State, a: Step, x: Aux)
    requires Enabled(s, a) && !a.Join? && |s.threads| == |x.got| && |x.loc| == |s.cells|
    requires !(a.Run? && (s.threads[a.t].pc.PushCas? || s.threads[a.t].pc.PopCas?))
    requires StackOk(s.cells, s.head, x)
    requires Values(Next(s, a).cells, x.stack) == Values(s.cells, x.stack)
    ensures StackStep(Values(s.cells, x.stack), EventOf(s, a), Values(Next(s, a).cells, AuxNext(s, a, x).stack))
  {
    hide Next, Members;
    EmptyHead(s.cells, s.head, x.stack);
    OtherEvent(s, a, x);
  }

  lemma EmptyHead(cells: seq<Cell>, head: int, st: seq<int>)
    requires Links(cells, head, st)
    ensures head == NULL ==> st == []
  {
  }

  lemma OtherEvent(s: State, a: Step, x: Aux)
    requires Enabled(s, a) && !a.Join? && |s.threads| == |x.got| && |x.loc| == |s.cells|
    requires !(a.Run? && (s.threads[a.t].pc.PushCas? || s.threads[a.t].pc.PopCas?))
    ensures AuxNext(s, a, x).stack == x.stack
    ensures EventOf(s, a) == Silent || (EventOf(s, a) == SawEmpty && s.head == NULL)
  {
  }

  lemma OwnParts(s: State, x: Aux, t: nat)
    requires OwnOk(s, x, t)
    ensures |s.threads| == |x.got| && |x.loc| == |s.cells| && |s.hazards| == |s.threads| && t < |s.threads|
    ensures StackOk(s.cells, s.head, x) && PcOk(s, x, t)
  {
  }

  /**
    No fault: a running thread never dereferences a freed node, and a sweep never deletes one.
    In particular `pop` reads `mNext` only of an allocated node.
  */
  lemma NoUseAfterFree(s: State, x: Aux, t: nat)
    requires Inv(s, x) && t < |s.threads|
    requires !s.threads[t].pc.Idle? && !s.threads[t].pc.Exited?
    ensures match s.threads[t].pc
            case Sweep(_, _, todo) =>
              if todo == {} then Enabled(s, Run(t)) else forall d :: d in todo ==> Enabled(s, SweepOne(t, d))
            case _ => Enabled(s, Run(t))
  {
    hide Members, Links, NoLeak;
    assert PlacesOk(x, s.threads[t], t) && PcOk(s, x, t) && ScanOk(x, s.threads, t);
    assert forall d :: d in Entries(s.threads[t]) ==> IsCell(s, d) && s.alive[d];
  }

  // ---------------------------------------------------------------- whole runs

  /** Any schedule of pushes, pops, joins, exits and scans, from an empty stack. */
  ghost predicate IsRun(states: seq<State>, steps: seq<Step>) {
    && |states| == |steps| + 1
    && Init(states[0])
    && forall i :: 0 <= i < |steps| ==> Enabled(states[i], steps[i]) && states[i + 1] == Next(states[i], steps[i])
  }

  function StackAfter(vs: seq<Value>, e: Event): seq<Value> {
    match e
    case Pushed(v) => [v] + vs
    case Popped(_) => if vs == [] then [] else vs[1..]
    case _ => vs
  }

  /** The abstract stack after `n` steps, top first. */
  ghost function StackAt(states: seq<State>, steps: seq<Step>, n: nat): seq<Value>
    requires IsRun(states, steps) && n <= |steps|
  {
    if n == 0 then [] else StackAfter(StackAt(states, steps, n - 1), EventOf(states[n - 1], steps[n - 1]))
  }

  /** The effects of the latest call of thread `t`, in order. */
  ghost function CallEvents(states: seq<State>, steps: seq<Step>, n: nat, t: nat): seq<Event>
    requires IsRun(states, steps) && n <= |steps|
  {
    if n == 0 then []
    else
      var a := steps[n - 1];
      if (a.BeginPush? || a.BeginPop?) && a.t == t then []
      else CallEvents(states, steps, n - 1, t)
           + if a.Run? && a.t == t && EventOf(states[n - 1], a) != Silent then [EventOf(states[n - 1], a)] else []
  }

  /** The argument of the latest call of thread `t`, if that is a push. */
  function CallArgument(steps: seq<Step>, n: nat, t: nat): Option<Value>
    requires n <= |steps|
  {
    if n == 0 then None
    else ArgumentAfter(CallArgument(steps, n - 1, t), steps[n - 1], t)
  }

  function ArgumentAfter(arg: Option<Value>, a: Step, t: nat): Option<Value> {
    if a.BeginPush? && a.t == t then Some(a.v) else if a.BeginPop? && a.t == t then None else arg
  }

  /** The value of `got`, the recorded effects of the call and its argument agree. */
  ghost predicate GotMeans(got: Got, es: seq<Event>, arg: Option<Value>) {
    match got
    case Nothing => es == []
    case Pushing(v) => es == [] && arg == Some(v)
    case Empty => es == [SawEmpty]
    case GotValue(v) => es == [Popped(v)]
    case PutValue(v) => es == [Pushed(v)] && arg == Some(v)
  }

  function Somes(vs: seq<Value>): seq<Option<Value>> { seq(|vs|, i requires 0 <= i < |vs| => Some(vs[i])) }

  lemma StackStepValues(vs: seq<Value>, e: Event, vs': seq<Option<Value>>)
    requires StackStep(Somes(vs), e, vs')
    ensures vs' == Somes(StackAfter(vs, e))
    ensures e.Popped? ==> vs != [] && vs[0] == e.v
    ensures e.SawEmpty? ==> vs == []
  {
    if e.Popped? {
      assert Somes(vs)[0] == Some(vs[0]);
    }
  }

  lemma GotStep(s: State, a: Step, x: Aux, t: nat, es: seq<Event>, arg: Option<Value>)
    requires Inv(s, x) && Enabled(s, a) && |x.loc| == |s.cells| && |x.got| == |s.threads| && t < |s.threads|
    requires GotMeans(x.got[t], es, arg)
    ensures GotMeans(AuxNext(s, a, x).got[t],
              if (a.BeginPush? || a.BeginPop?) && a.t == t then []
              else es + if a.Run? && a.t == t && EventOf(s, a) != Silent then [EventOf(s, a)] else [],
              ArgumentAfter(arg, a, t))
  {
    hide Next, Inv, OwnOk, StackOk, PcOk, AuxNext, EventOf;
    if !(a.Run? && a.t == t) {
      GotStays(s, a, x, t);
    } else {
      InvAt(s, x, t);
      OwnParts(s, x, t);
      if s.threads[t].pc.PushCas? {
        GotPush(s, x, t);
      } else if s.threads[t].pc.PopCas? {
        if s.head != NULL {
          HeadAt(s, x, t, s.head);
        }
        GotPop(s, x, t);
      } else {
        GotOther(s, x, t);
      }
    }
  }

  lemma GotStays(s: State, a: Step, x: Aux, t: nat)
    requires Enabled(s, a) && |x.loc| == |s.cells| && |x.got| == |s.threads| && t < |s.threads| && !(a.Run? && a.t == t)
    ensures AuxNext(s, a, x).got[t] ==
              if a.BeginPush? && a.t == t then Pushing(a.v) else if a.BeginPop? && a.t == t then Nothing else x.got[t]
  {
  }

  lemma GotPush(s: State, x: Aux, t: nat)
    requires Enabled(s, Run(t)) && s.threads[t].pc.PushCas? && |x.loc| == |s.cells| && |x.got| == |s.threads|
    requires PcOk(s, x, t)
    ensures var e, got' := EventOf(s, Run(t)), AuxNext(s, Run(t), x).got[t];
            || (e == Silent && got' == x.got[t])
            || (x.got[t].Pushing? && e == Pushed(x.got[t].v) && got' == PutValue(x.got[t].v))
  {
  }

  lemma GotPop(s: State, x: Aux, t: nat)
    requires Enabled(s, Run(t)) && s.threads[t].pc.PopCas? && |x.loc| == |s.cells| && |x.got| == |s.threads|
    requires PcOk(s, x, t)
    requires s.head != NULL ==> x.stack != [] && IsCell(s, s.head) && s.cells[s.head].data.Some?
    ensures var e, got' := EventOf(s, Run(t)), AuxNext(s, Run(t), x).got[t];
            || (e == Silent && got' == x.got[t])
            || (x.got[t] == Nothing && e.Popped? && got' == GotValue(e.v))
  {
  }

  lemma GotOther(s: State, x: Aux, t: nat)
    requires Enabled(s, Run(t)) && !s.threads[t].pc.PushCas? && !s.threads[t].pc.PopCas?
    requires |x.loc| == |s.cells| && |x.got| == |s.threads| && PcOk(s, x, t)
    ensures var e, got' := EventOf(s, Run(t)), AuxNext(s, Run(t), x).got[t];
            || (e == Silent && got' == x.got[t])
            || (x.got[t] == Nothing && e == SawEmpty && got' == Empty)
  {
  }

  /** The auxiliary data along a run. */
  ghost predicate Describes(states: seq<State>, steps: seq<Step>, n: nat, x: Aux)
    requires IsRun(states, steps) && n <= |steps|
  {
    && Inv(states[n], x)
    && |x.loc| == |states[n].cells| && |x.got| == |states[n].threads|
    && Values(states[n].cells, x.stack) == Somes(StackAt(states, steps, n))
    && forall t :: 0 <= t < |states[n].threads| ==>
         GotMeans(x.got[t], CallEvents(states, steps, n, t), CallArgument(steps, n, t))
  }

  lemma InitOk(s: State) returns (x: Aux)
    requires Init(s)
    ensures Inv(s, x) && x.stack == [] && x.got == [] && |x.loc| == |s.cells|
    ensures Values(s.cells, x.stack) == []
  {
    x := Aux([], seq(|s.cells|, _ => Free), []);
  }

  /** A thread that has not joined yet has had no effect. */
  lemma {:induction false} NoCallYet(states: seq<State>, steps: seq<Step>, n: nat, t: nat)
    requires IsRun(states, steps) && n <= |steps| && t >= |states[n].threads|
    ensures CallEvents(states, steps, n, t) == []
  {
    hide Next;
    if n > 0 {
      ThreadsGrow(states[n - 1], steps[n - 1]);
      NoCallYet(states, steps, n - 1, t);
    }
  }

  lemma ThreadsGrow(s: State, a: Step)
    requires Enabled(s, a)
    ensures |Next(s, a).threads| == |s.threads| + (if a.Join? then 1 else 0)
    ensures |Next(s, a).cells| == |s.cells|
    ensures !a.Join? ==> a.t < |s.threads|
  {
  }

  lemma {:induction false} RunKeeps(states: seq<State>, steps: seq<Step>, n: nat) returns (x: Aux)
    requires IsRun(states, steps) && n <= |steps|
    ensures Describes(states, steps, n, x)
  {
    hide Inv, Next, Enabled, Values, EventOf;
    if n == 0 {
      x := InitOk(states[0]);
      assert states[0].threads == [];
    } else {
      var x0 := RunKeeps(states, steps, n - 1);
      var s, a := states[n - 1], steps[n - 1];
      StepKeeps(s, a, x0);
      StepRefines(s, a, x0);
      StackStepValues(StackAt(states, steps, n - 1), EventOf(s, a), Values(Next(s, a).cells, AuxNext(s, a, x0).stack));
      x := AuxNext(s, a, x0);
      ThreadsGrow(s, a);
      InvLengths(states[n], x);
      forall t | 0 <= t < |states[n].threads|
        ensures GotMeans(x.got[t], CallEvents(states, steps, n, t), CallArgument(steps, n, t))
      {
        if t < |s.threads| {
          GotStep(s, a, x0, t, CallEvents(states, steps, n - 1, t), CallArgument(steps, n - 1, t));
        } else {
          NoCallYet(states, steps, n - 1, t);
        }
      }
    }
  }

  /** One operation of a sequential stack. */
  ghost predicate IsStackStep(vs: seq<Value>, e: Event, vs': seq<Value>) {
    match e
    case Silent => vs' == vs
    case Pushed(v) => vs' == [v] + vs
    case Popped(v) => vs != [] && vs[0] == v && vs' == vs[1..]
    case SawEmpty => vs == [] && vs' == vs
  }

  /** Every run refines a stack: each event is a push, a pop of the top, or a pop on the empty stack. */
  lemma RunRefinesStack(states: seq<State>, steps: seq<Step>, n: nat)
    requires IsRun(states, steps) && n < |steps|
    ensures IsStackStep(StackAt(states, steps, n), EventOf(states[n], steps[n]), StackAt(states, steps, n + 1))
  {
    hide Inv, Next, Enabled, Values, EventOf;
    var x := RunKeeps(states, steps, n);
    var s, a := states[n], steps[n];
    StepRefines(s, a, x);
    StackStepValues(StackAt(states, steps, n), EventOf(s, a), Values(Next(s, a).cells, AuxNext(s, a, x).stack));
  }

  /**
    A pop returns the value its own CAS took off the stack, and returns null only if it saw the
    stack empty during the call; a push that returns has pushed its argument, once.
  */
  lemma CallsAreAtomic(states: seq<State>, steps: seq<Step>, n: nat, t: nat)
    requires IsRun(states, steps) && n <= |steps| && t < |states[n].threads|
    ensures match states[n].threads[t].pc
            case PopReturn(result) =>
              CallEvents(states, steps, n, t) == [if result.None? then SawEmpty else Popped(result.value)]
            case PushReturn =>
              && CallArgument(steps, n, t).Some?
              && CallEvents(states, steps, n, t) == [Pushed(CallArgument(steps, n, t).value)]
            case _ => true
  {
    hide Inv, Next, Enabled, Values, EventOf;
    var x := RunKeeps(states, steps, n);
    InvAt(states[n], x, t);
    OwnParts(states[n], x, t);
  }

  /** No run dereferences or deletes a freed node, although freed cells are allocated again. */
  lemma RunsAreSafe(states: seq<State>, steps: seq<Step>, n: nat, t: nat)
    requires IsRun(states, steps) && n <= |steps| && t < |states[n].threads|
    requires !states[n].threads[t].pc.Idle? && !states[n].threads[t].pc.Exited?
    ensures match states[n].threads[t].pc
            case Sweep(_, _, todo) =>
              if todo == {} then Enabled(states[n], Run(t))
              else forall d :: d in todo ==> Enabled(states[n], SweepOne(t, d))
            case _ => Enabled(states[n], Run(t))
  {
    hide Inv;
    var x := RunKeeps(states, steps, n);
    NoUseAfterFree(states[n], x, t);
  }

  /**
    No ABA: while a hazard pointer is validated its node is not reused, so a pop whose CAS
    succeeds installs the node that is second on the stack at that very moment.
  */
  lemma PopInstallsSecond(states: seq<State>, steps: seq<Step>, n: nat, t: nat) returns (stack: seq<int>)
    requires IsRun(states, steps) && n <= |steps| && t < |states[n].threads|
    requires states[n].threads[t].pc.PopCas? && states[n].head == states[n].threads[t].pc.h
    ensures Links(states[n].cells, states[n].head, stack) && stack != []
    ensures states[n].threads[t].pc.next == Below(stack, 0)
  {
    hide Next, Enabled, EventOf;
    var x := RunKeeps(states, steps, n);
    stack := x.stack;
    assert PcOk(states[n], x, t);
  }

  /** Nothing leaks: an allocated cell is on the stack, in one call's hands, or in exactly one delete list. */
  lemma EveryCellHasAPlace(states: seq<State>, steps: seq<Step>, n: nat, c: int) returns (l: Loc)
    requires IsRun(states, steps) && n <= |steps| && IsCell(states[n], c) && c < |states[n].alive|
    ensures states[n].alive[c] <==> l != Free
    ensures InHands(l, c, states[n].threads)
    ensures l == InGlobal <==> c in states[n].global
    ensures forall t: nat :: t < |states[n].threads| ==> (l == Listed(t) <==> c in Entries(states[n].threads[t]))
  {
    hide Next, Enabled, EventOf, Members, Links;
    var x := RunKeeps(states, steps, n);
    l := x.loc[c];
    assert InHands(x.loc[c], c, states[n].threads);
    forall t: nat | t < |states[n].threads| ensures l == Listed(t) <==> c in Entries(states[n].threads[t]) {
      assert PlacesOk(x, states[n].threads[t], t);
    }
  }
}
