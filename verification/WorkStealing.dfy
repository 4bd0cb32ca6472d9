/**
  The lock-free work-stealing queue: one owner pushes and pops at the bottom, any number of
  thieves steal at the top of a circular array that the owner may replace by a larger one.

  Every step is one atomic access to `mTop`, `mBottom`, `mTasks` or an array slot.  A task is
  identified by the pointer its `new` returned, an array by its position in `arrays`; neither
  identity is reused.  Claiming the array with a hazard pointer is the load that is kept.
*/
module WorkStealing {
  import opened Sequences

  type Task = int
  const NULL: Task := -1

  // ---------------------------------------------------------------- the circular array

  /** `i % mTasks.size()` */
  function Slot(i: nat, capacity: nat): (r: nat)
    requires capacity > 0
    ensures r < capacity
  {
    i % capacity
  }

  function Get(a: seq<Task>, i: nat): Task
    requires |a| > 0
  {
    a[Slot(i, |a|)]
  }

  function Put(a: seq<Task>, i: nat, x: Task): (r: seq<Task>)
    requires |a| > 0
    ensures |r| == |a|
  {
    a[Slot(i, |a|) := x]
  }

  /** Copying the entries `from..bottom` of `a` into `b`, one by one. */
  function CopyRange(a: seq<Task>, b: seq<Task>, from: nat, bottom: nat): (r: seq<Task>)
    requires |a| > 0 && |b| > 0
    ensures |r| == |b|
    decreases bottom - from
  {
    if from >= bottom then b else CopyRange(a, Put(b, from, Get(a, from)), from + 1, bottom)
  }

  function Resized(a: seq<Task>, bottom: nat, top: nat): (r: seq<Task>)
    requires |a| > 0
    ensures |r| == 2 * |a|
  {
    CopyRange(a, seq(2 * |a|, _ => NULL), top, bottom)
  }

  lemma NoMultipleBetween(c: nat, q: int)
    ensures c * q <= 0 || c * q >= c
  {
    if q >= 1 {
      assert c * q >= c * 1;
    } else {
      assert c * q <= c * 0;
    }
  }

  /** Indices less than a capacity apart use different slots. */
  lemma SlotsDiffer(i: nat, j: nat, capacity: nat)
    requires 0 < capacity && i < j < i + capacity
    ensures Slot(i, capacity) != Slot(j, capacity)
  {
    var qi, qj := i / capacity, j / capacity;
    assert i == capacity * qi + i % capacity && j == capacity * qj + j % capacity;
    if i % capacity == j % capacity {
      assert j - i == capacity * (qj - qi);
      NoMultipleBetween(capacity, qj - qi);
    }
  }

  lemma PutGet(a: seq<Task>, i: nat, j: nat, x: Task)
    requires |a| > 0 && (i == j || (i < j < i + |a|) || (j < i < j + |a|))
    ensures Get(Put(a, i, x), j) == if i == j then x else Get(a, j)
  {
    if i < j { SlotsDiffer(i, j, |a|); }
    if j < i { SlotsDiffer(j, i, |a|); }
  }

  /** A copied range reads the same in the new array, and earlier entries are kept. */
  lemma {:induction false} CopyRangeGet(a: seq<Task>, b: seq<Task>, first: nat, from: nat, bottom: nat, j: nat)
    requires |a| > 0 && |b| > 0 && first <= from && first <= j < bottom && bottom - first <= |b|
    requires j < from ==> Get(b, j) == Get(a, j)
    ensures Get(CopyRange(a, b, from, bottom), j) == Get(a, j)
    decreases bottom - from
  {
    if from < bottom {
      PutGet(b, from, j, Get(a, from));
      CopyRangeGet(a, Put(b, from, Get(a, from)), first, from + 1, bottom, j);
    }
  }

  /** Doubling keeps every live entry. */
  lemma ResizedGet(a: seq<Task>, bottom: nat, top: nat, j: nat)
    requires |a| > 0 && top <= j < bottom && bottom - top <= 2 * |a|
    ensures Get(Resized(a, bottom, top), j) == Get(a, j)
  {
    CopyRangeGet(a, seq(2 * |a|, _ => NULL), top, top, bottom, j);
  }

  /** The circular array of the source, updated in place. */
  class CircularArray {
    const tasks: array<Task>

    constructor (capacity: nat)
      ensures fresh(tasks) && tasks[..] == seq(capacity, _ => NULL)
    {
      tasks := new Task[capacity](_ => NULL);
    }

    method At(i: nat) returns (x: Task)
      requires tasks.Length > 0
      ensures x == Get(tasks[..], i)
    {
      x := tasks[i % tasks.Length];
    }

    method Store(i: nat, x: Task)
      requires tasks.Length > 0
      modifies tasks
      ensures tasks[..] == Put(old(tasks[..]), i, x)
    {
      tasks[i % tasks.Length] := x;
    }

    /** `resize`: a new array of twice the capacity with the live entries copied. */
    method Resize(bottom: nat, top: nat) returns (newTasks: CircularArray)
      requires tasks.Length > 0
      ensures fresh(newTasks) && fresh(newTasks.tasks)
      ensures newTasks.tasks[..] == Resized(tasks[..], bottom, top)
      ensures bottom - top <= 2 * tasks.Length ==>
                forall j: nat :: top <= j < bottom ==> Get(newTasks.tasks[..], j) == Get(tasks[..], j)
    {
      newTasks := new CircularArray(tasks.Length * 2);
      ghost var a := tasks[..];
      var i := top;
      while i < bottom
        invariant tasks[..] == a && newTasks.tasks.Length == 2 * |a|
        invariant CopyRange(a, newTasks.tasks[..], i, bottom) == Resized(a, bottom, top)
        decreases bottom - i
      {
        var x := At(i);
        newTasks.Store(i, x);
        i := i + 1;
      }
      if bottom - top <= 2 * tasks.Length {
        forall j: nat | top <= j < bottom ensures Get(newTasks.tasks[..], j) == Get(tasks[..], j) {
          ResizedGet(a, bottom, top, j);
        }
      }
    }
  }

  // ---------------------------------------------------------------- states and steps

  datatype Owner =
    | OwnerIdle
    | PushLoadTop(b: int)
    | PushLoadTasks(b: int, t: int)
    | PushStoreTasks(b: int, tasks: seq<Task>)
    | PushPut(b: int)
    | PushStoreBottom(b: int, task: Task)
    | PopStoreBottom(b: int)
    | PopLoadTop(b: int)
    | PopRestore(t: int)
    | PopClaim(b: int, t: int)
    | PopGet(b: int, t: int, a: nat)
    | PopCas(t: int, task: Task)
    | PopFinish(t: int, result: Option<Task>)
    | PopReturn(result: Option<Task>)

  datatype Thief =
    | ThiefIdle
    | StealLoadBottom(t: int)
    | StealClaim(t: int)
    | StealGet(t: int, a: nat)
    | StealCas(t: int, task: Task)
    | StealReturn(result: Option<Task>)

  datatype State = State(
    arrays: seq<seq<Task>>, tasks: nat, top: int, bottom: int, created: nat, owner: Owner, thieves: seq<Thief>)

  datatype Step = BeginPush | BeginPop | OwnerRuns | BeginSteal(u: nat) | ThiefRuns(u: nat)

  /** The effect of a step on the abstract queue of tasks. */
  datatype Event = Silent | Pushed(task: Task) | Popped(task: Task) | FoundEmpty | Stolen(task: Task)

  ghost predicate Init(s: State) {
    && |s.arrays| == 1 && s.tasks == 0 && |s.arrays[0]| >= 1
    && s.top == 0 && s.bottom == 0 && s.created == 0 && s.owner == OwnerIdle
    && forall u :: 0 <= u < |s.thieves| ==> s.thieves[u] == ThiefIdle
  }

  predicate Enabled(s: State, a: Step) {
    match a
    case BeginPush => s.owner.OwnerIdle?
    case BeginPop => s.owner.OwnerIdle?
    case OwnerRuns => !s.owner.OwnerIdle? && OwnerSafe(s)
    case BeginSteal(u) => u < |s.thieves| && s.thieves[u].ThiefIdle?
    case ThiefRuns(u) => u < |s.thieves| && !s.thieves[u].ThiefIdle? && ThiefSafe(s, s.thieves[u])
  }

  predicate ArrayOk(s: State, a: nat) { a < |s.arrays| && |s.arrays[a]| > 0 }

  /** The arrays the owner's next step reads exist and are indexed by natural numbers. */
  predicate OwnerSafe(s: State) {
    match s.owner
    case PushLoadTasks(b, t) => ArrayOk(s, s.tasks) && 0 <= t <= b
    case PushPut(b) => ArrayOk(s, s.tasks) && b >= 0
    case PopGet(b, _, a) => ArrayOk(s, a) && b >= 0
    case _ => true
  }

  predicate ThiefSafe(s: State, th: Thief) {
    match th
    case StealGet(t, a) => ArrayOk(s, a) && t >= 0
    case _ => true
  }

  function OwnerNext(s: State): State
    requires !s.owner.OwnerIdle? && OwnerSafe(s)
  {
    match s.owner
    case PushLoadTop(b) => s.(owner := PushLoadTasks(b, s.top))
    case PushLoadTasks(b, t) =>
      var tasks := s.arrays[s.tasks];
      if |tasks| - 1 <= b - t then s.(owner := PushStoreTasks(b, Resized(tasks, b, t))) else s.(owner := PushPut(b))
    case PushStoreTasks(b, tasks) => s.(arrays := s.arrays + [tasks], tasks := |s.arrays|, owner := PushPut(b))
    case PushPut(b) =>
      s.(arrays := s.arrays[s.tasks := Put(s.arrays[s.tasks], b, s.created)], created := s.created + 1,
         owner := PushStoreBottom(b, s.created))
    case PushStoreBottom(b, _) => s.(bottom := b + 1, owner := OwnerIdle)
    case PopStoreBottom(b) => s.(bottom := b, owner := PopLoadTop(b))
    case PopLoadTop(b) => s.(owner := if b - s.top < 0 then PopRestore(s.top) else PopClaim(b, s.top))
    case PopRestore(t) => s.(bottom := t, owner := PopReturn(None))
    case PopClaim(b, t) => s.(owner := PopGet(b, t, s.tasks))
    case PopGet(b, t, a) =>
      var task := Get(s.arrays[a], b);
      s.(owner := if 0 < b - t then PopReturn(Some(task)) else PopCas(t, task))
    case PopCas(t, task) =>
      if s.top == t then s.(top := t + 1, owner := PopFinish(t, Some(task))) else s.(owner := PopFinish(t, None))
    case PopFinish(t, result) => s.(bottom := t + 1, owner := PopReturn(result))
    case PopReturn(_) => s.(owner := OwnerIdle)
  }

  function ThiefNext(s: State, u: nat): State
    requires u < |s.thieves| && !s.thieves[u].ThiefIdle? && ThiefSafe(s, s.thieves[u])
  {
    match s.thieves[u]
    case StealLoadBottom(t) =>
      s.(thieves := s.thieves[u := if s.bottom - t <= 0 then StealReturn(None) else StealClaim(t)])
    case StealClaim(t) => s.(thieves := s.thieves[u := StealGet(t, s.tasks)])
    case StealGet(t, a) => s.(thieves := s.thieves[u := StealCas(t, Get(s.arrays[a], t))])
    case StealCas(t, task) =>
      if s.top == t then s.(top := t + 1, thieves := s.thieves[u := StealReturn(Some(task))])
      else s.(thieves := s.thieves[u := StealReturn(None)])
    case StealReturn(_) => s.(thieves := s.thieves[u := ThiefIdle])
  }

  function Next(s: State, a: Step): State
    requires Enabled(s, a)
  {
    match a
    case BeginPush => s.(owner := PushLoadTop(s.bottom))
    case BeginPop => s.(owner := PopStoreBottom(s.bottom - 1))
    case OwnerRuns => OwnerNext(s)
    case BeginSteal(u) => s.(thieves := s.thieves[u := StealLoadBottom(s.top)])
    case ThiefRuns(u) => ThiefNext(s, u)
  }

  function OwnerEvent(s: State): Event
    requires !s.owner.OwnerIdle? && OwnerSafe(s)
  {
    match s.owner
    case PushStoreBottom(_, task) => Pushed(task)
    case PopLoadTop(b) => if b - s.top < 0 then FoundEmpty else Silent
    case PopGet(b, t, a) => if 0 < b - t then Popped(Get(s.arrays[a], b)) else Silent
    case PopCas(t, task) => if s.top == t then Popped(task) else FoundEmpty
    case _ => Silent
  }

  function EventOf(s: State, a: Step): Event
    requires Enabled(s, a)
  {
    match a
    case OwnerRuns => OwnerEvent(s)
    case ThiefRuns(u) =>
      if s.thieves[u].StealCas? && s.top == s.thieves[u].t then Stolen(s.thieves[u].task) else Silent
    case _ => Silent
  }

  // ---------------------------------------------------------------- the invariant

  /** The bottom of the abstract queue; the owner's store to `mBottom` runs ahead of it in `pop`. */
  function LogicalBottom(s: State): int {
    match s.owner
    case PopLoadTop(b) => b + 1
    case PopRestore(t) => t
    case PopClaim(b, _) => b + 1
    case PopGet(b, _, _) => b + 1
    case PopCas(t, _) => t + 1
    case PopFinish(t, _) => t + 1
    case _ => s.bottom
  }

  /** The index no thief may take any more: the owner has it without a CAS. */
  function Limit(s: State): int {
    match s.owner
    case PopClaim(b, t) => if t < b then b else b + 1
    case PopGet(b, t, _) => if t < b then b else b + 1
    case _ => LogicalBottom(s)
  }

  ghost predicate OwnerOk(s: State)
    requires ArrayOk(s, s.tasks) && s.top >= 0
  {
    var cap := |s.arrays[s.tasks]|;
    match s.owner
    case OwnerIdle => true
    case PushLoadTop(b) => b == s.bottom
    case PushLoadTasks(b, t) => b == s.bottom && 0 <= t <= s.top && b - t <= cap - 1
    case PushStoreTasks(b, tasks) =>
      && b == s.bottom && |tasks| == 2 * cap
      && forall j :: s.top <= j < b ==> Get(tasks, j) == Get(s.arrays[s.tasks], j)
    case PushPut(b) => b == s.bottom && b - s.top <= cap - 2
    case PushStoreBottom(b, task) =>
      0 <= b == s.bottom && b - s.top <= cap - 2 && Get(s.arrays[s.tasks], b) == task && 0 <= task < s.created
    case PopStoreBottom(b) => b + 1 == s.bottom
    case PopLoadTop(b) => b == s.bottom
    case PopRestore(t) => s.bottom == t - 1 && s.top == t
    case PopClaim(b, t) => b == s.bottom && 0 <= t <= b && t <= s.top && (t < b ==> s.top <= b)
    case PopGet(b, t, a) => b == s.bottom && 0 <= t <= b && t <= s.top && (t < b ==> s.top <= b) && a == s.tasks
    case PopCas(t, task) => s.bottom == t && 0 <= t <= s.top && Get(s.arrays[s.tasks], t) == task
    case PopFinish(t, _) => s.bottom == t && s.top == t + 1
    case PopReturn(_) => true
  }

  ghost predicate ThiefOk(s: State, dq: seq<Task>, th: Thief) {
    match th
    case ThiefIdle => true
    case StealLoadBottom(t) => 0 <= t <= s.top
    case StealClaim(t) => 0 <= t <= s.top && (t == s.top ==> t < Limit(s))
    case StealGet(t, a) =>
      && 0 <= t <= s.top && ArrayOk(s, a)
      && (t == s.top ==> t < Limit(s) && dq != [] && Get(s.arrays[a], t) == dq[0])
    case StealCas(t, task) => 0 <= t <= s.top && (t == s.top ==> t < Limit(s) && dq != [] && task == dq[0])
    case StealReturn(_) => true
  }

  /** The queue `dq` lies in the slots between top and logical bottom of the current array. */
  ghost predicate QueueOk(s: State, dq: seq<Task>)
    requires ArrayOk(s, s.tasks) && s.top >= 0
  {
    && |dq| == LogicalBottom(s) - s.top
    && LogicalBottom(s) - s.top <= |s.arrays[s.tasks]| - 1
    && forall j :: s.top <= j < LogicalBottom(s) ==> Get(s.arrays[s.tasks], j) == dq[j - s.top]
  }

  ghost predicate Inv(s: State, dq: seq<Task>) {
    && ArrayOk(s, s.tasks) && s.tasks == |s.arrays| - 1 && s.top >= 0
    && OwnerOk(s)
    && QueueOk(s, dq)
    && (forall u :: 0 <= u < |s.thieves| ==> ThiefOk(s, dq, s.thieves[u]))
    && (forall i :: 0 <= i < |dq| ==> 0 <= dq[i] < s.created)
  }

  /** A push appends, a pop takes the newest and a steal the oldest task; an owner that gives up saw an empty queue. */
  ghost predicate QueueStep(dq: seq<Task>, e: Event, dq': seq<Task>) {
    match e
    case Silent => dq' == dq
    case Pushed(x) => dq' == dq + [x]
    case Popped(x) => dq != [] && x == dq[|dq| - 1] && dq' == dq[..|dq| - 1]
    case FoundEmpty => dq == [] && dq' == dq
    case Stolen(x) => dq != [] && x == dq[0] && dq' == dq[1..]
  }

  /** The queue after an event. */
  function QueueAfter(dq: seq<Task>, e: Event): seq<Task> {
    match e
    case Silent => dq
    case Pushed(x) => dq + [x]
    case Popped(_) => if dq == [] then [] else dq[..|dq| - 1]
    case FoundEmpty => dq
    case Stolen(_) => if dq == [] then [] else dq[1..]
  }

  // ---------------------------------------------------------------- every step keeps it

  /** The thieves' view survives when top, the oldest task and their arrays' slots do. */
  lemma ThievesSurvive(s: State, dq: seq<Task>, s': State, dq': seq<Task>)
    requires s'.thieves == s.thieves && s.top <= s'.top
    requires forall u :: 0 <= u < |s.thieves| ==> ThiefOk(s, dq, s.thieves[u])
    requires s'.top == s.top ==>
               && (s.top < Limit(s) ==> s.top < Limit(s'))
               && (dq != [] && s.top < Limit(s) ==> dq' != [] && dq'[0] == dq[0])
    requires forall a: nat :: ArrayOk(s, a) ==> ArrayOk(s', a)
    requires s'.top == s.top && 0 <= s.top < Limit(s) ==>
               forall a: nat :: ArrayOk(s, a) && ArrayOk(s', a) ==> Get(s'.arrays[a], s.top) == Get(s.arrays[a], s.top)
    ensures forall u :: 0 <= u < |s'.thieves| ==> ThiefOk(s', dq', s'.thieves[u])
  {
    forall u | 0 <= u < |s'.thieves| ensures ThiefOk(s', dq', s'.thieves[u]) {
      assert ThiefOk(s, dq, s.thieves[u]);
    }
  }

  /** The owner's steps that write no array. */
  lemma OwnerMoves(s: State, dq: seq<Task>)
    requires Inv(s, dq) && Enabled(s, OwnerRuns)
    requires !s.owner.PushStoreTasks? && !s.owner.PushPut? && !s.owner.PushLoadTasks?
    requires !s.owner.PopGet? && !s.owner.PopCas?
    ensures var dq' := QueueAfter(dq, OwnerEvent(s));
            Inv(OwnerNext(s), dq') && QueueStep(dq, OwnerEvent(s), dq')
  {
    hide Slot;
    var s' := OwnerNext(s);
    var dq' := QueueAfter(dq, OwnerEvent(s));
    ThievesSurvive(s, dq, s', dq');
  }

  lemma OwnerLoadsTasks(s: State, dq: seq<Task>)
    requires Inv(s, dq) && s.owner.PushLoadTasks? && Enabled(s, OwnerRuns)
    ensures Inv(OwnerNext(s), dq)
  {
    hide Slot;
    var s', tasks, b, t := OwnerNext(s), s.arrays[s.tasks], s.owner.b, s.owner.t;
    if |tasks| - 1 <= b - t {
      forall j | s.top <= j < b ensures Get(Resized(tasks, b, t), j) == Get(tasks, j) {
        ResizedGet(tasks, b, t, j);
      }
    }
    ThievesSurvive(s, dq, s', dq);
  }

  lemma OwnerStoresTasks(s: State, dq: seq<Task>)
    requires Inv(s, dq) && s.owner.PushStoreTasks? && Enabled(s, OwnerRuns)
    ensures Inv(OwnerNext(s), dq)
  {
    hide Slot;
    ThievesSurvive(s, dq, OwnerNext(s), dq);
  }

  lemma OwnerPuts(s: State, dq: seq<Task>)
    requires Inv(s, dq) && s.owner.PushPut? && Enabled(s, OwnerRuns)
    ensures Inv(OwnerNext(s), dq)
  {
    hide Slot;
    var s', b, tasks := OwnerNext(s), s.owner.b, s.arrays[s.tasks];
    forall j | s.top <= j <= b ensures Get(s'.arrays[s.tasks], j) == if j == b then s.created else Get(tasks, j) {
      PutGet(tasks, b, j, s.created);
    }
    ThievesSurvive(s, dq, s', dq);
  }

  lemma OwnerGets(s: State, dq: seq<Task>)
    requires Inv(s, dq) && s.owner.PopGet? && Enabled(s, OwnerRuns)
    ensures var dq' := QueueAfter(dq, OwnerEvent(s));
            Inv(OwnerNext(s), dq') && QueueStep(dq, OwnerEvent(s), dq')
  {
    hide Slot;
    var s' := OwnerNext(s);
    var dq' := QueueAfter(dq, OwnerEvent(s));
    ThievesSurvive(s, dq, s', dq');
  }

  lemma OwnerCas(s: State, dq: seq<Task>)
    requires Inv(s, dq) && s.owner.PopCas? && Enabled(s, OwnerRuns)
    ensures var dq' := QueueAfter(dq, OwnerEvent(s));
            Inv(OwnerNext(s), dq') && QueueStep(dq, OwnerEvent(s), dq')
  {
    hide Slot;
    ThievesSurvive(s, dq, OwnerNext(s), QueueAfter(dq, OwnerEvent(s)));
  }

  /** A thief's step that takes nothing. */
  lemma ThiefReads(s: State, dq: seq<Task>, u: nat)
    requires Inv(s, dq) && Enabled(s, ThiefRuns(u)) && !(s.thieves[u].StealCas? && s.top == s.thieves[u].t)
    ensures Inv(ThiefNext(s, u), dq)
  {
    hide Slot;
    var s' := ThiefNext(s, u);
    assert ThiefOk(s, dq, s.thieves[u]);
    assert ThiefOk(s', dq, s'.thieves[u]);
    hide ThiefNext, QueueOk, OwnerOk;
    ThiefMoved(s, dq, u, s');
  }

  lemma ThiefMoved(s: State, dq: seq<Task>, u: nat, s': State)
    requires Inv(s, dq) && u < |s.thieves| == |s'.thieves| && s' == s.(thieves := s.thieves[u := s'.thieves[u]])
    requires ThiefOk(s', dq, s'.thieves[u])
    ensures Inv(s', dq)
  {
    hide Slot, Get;
    forall v | 0 <= v < |s'.thieves| ensures ThiefOk(s', dq, s'.thieves[v]) {
      assert ThiefOk(s, dq, s.thieves[v]);
    }
  }

  /** A thief's successful CAS takes the oldest task. */
  lemma ThiefTakes(s: State, dq: seq<Task>, u: nat)
    requires Inv(s, dq) && Enabled(s, ThiefRuns(u)) && s.thieves[u].StealCas? && s.top == s.thieves[u].t
    ensures dq != [] && s.thieves[u].task == dq[0] && Inv(ThiefNext(s, u), dq[1..])
  {
    hide Slot;
    assert ThiefOk(s, dq, s.thieves[u]);
    var s' := ThiefNext(s, u);
    forall v | 0 <= v < |s'.thieves| ensures ThiefOk(s', dq[1..], s'.thieves[v]) {
      assert ThiefOk(s, dq, s.thieves[v]);
    }
  }

  lemma ThiefMoves(s: State, dq: seq<Task>, u: nat)
    requires Inv(s, dq) && Enabled(s, ThiefRuns(u))
    ensures var a := ThiefRuns(u);
            var dq' := QueueAfter(dq, EventOf(s, a));
            Inv(Next(s, a), dq') && QueueStep(dq, EventOf(s, a), dq')
  {
    hide Slot, Inv;
    if s.thieves[u].StealCas? && s.top == s.thieves[u].t {
      ThiefTakes(s, dq, u);
    } else {
      ThiefReads(s, dq, u);
    }
    hide ThiefNext;
  }

  /** Every step keeps the invariant and has the effect of its event on the abstract queue. */
  lemma StepKeeps(s: State, a: Step, dq: seq<Task>)
    requires Inv(s, dq) && Enabled(s, a)
    ensures Inv(Next(s, a), QueueAfter(dq, EventOf(s, a)))
    ensures QueueStep(dq, EventOf(s, a), QueueAfter(dq, EventOf(s, a)))
  {
    hide Slot;
    match a
    case BeginPush => ThievesSurvive(s, dq, Next(s, a), dq);
    case BeginPop => ThievesSurvive(s, dq, Next(s, a), dq);
    case OwnerRuns =>
      match s.owner {
        case PushLoadTasks(_, _) => OwnerLoadsTasks(s, dq);
        case PushStoreTasks(_, _) => OwnerStoresTasks(s, dq);
        case PushPut(_) => OwnerPuts(s, dq);
        case PopGet(_, _, _) => OwnerGets(s, dq);
        case PopCas(_, _) => OwnerCas(s, dq);
        case _ => OwnerMoves(s, dq);
      }
    case BeginSteal(u) =>
      forall v | 0 <= v < |s.thieves| ensures ThiefOk(Next(s, a), dq, Next(s, a).thieves[v]) {
        assert ThiefOk(s, dq, s.thieves[v]);
      }
    case ThiefRuns(u) => ThiefMoves(s, dq, u);
  }

  /** Live indices never share a slot. */
  lemma LiveSlotsDiffer(s: State, dq: seq<Task>, i: nat, j: nat)
    requires Inv(s, dq) && s.top <= i < j < LogicalBottom(s)
    ensures Slot(i, |s.arrays[s.tasks]|) != Slot(j, |s.arrays[s.tasks]|)
  {
    SlotsDiffer(i, j, |s.arrays[s.tasks]|);
  }

  /** No step of a running call reads a missing array or a negative index. */
  lemma NoFault(s: State, dq: seq<Task>)
    requires Inv(s, dq)
    ensures !s.owner.OwnerIdle? ==> Enabled(s, OwnerRuns)
    ensures forall u: nat :: u < |s.thieves| && !s.thieves[u].ThiefIdle? ==> Enabled(s, ThiefRuns(u))
  {
    hide Slot;
    forall u: nat | u < |s.thieves| && !s.thieves[u].ThiefIdle? ensures Enabled(s, ThiefRuns(u)) {
      assert ThiefOk(s, dq, s.thieves[u]);
    }
  }

  // ---------------------------------------------------------------- whole runs

  /** Any interleaving of one owner and the thieves, from the constructed queue. */
  ghost predicate IsRun(states: seq<State>, steps: seq<Step>) {
    && |states| == |steps| + 1
    && Init(states[0])
    && forall i :: 0 <= i < |steps| ==> Enabled(states[i], steps[i]) && states[i + 1] == Next(states[i], steps[i])
  }

  /** The abstract queue after `n` steps. */
  ghost function QueueAt(states: seq<State>, steps: seq<Step>, n: nat): seq<Task>
    requires IsRun(states, steps) && n <= |steps|
  {
    if n == 0 then [] else QueueAfter(QueueAt(states, steps, n - 1), EventOf(states[n - 1], steps[n - 1]))
  }

  function PushedIn(e: Event): multiset<Task> {
    match e
    case Pushed(x) => multiset{x}
    case _ => multiset{}
  }

  function TakenIn(e: Event): multiset<Task> {
    match e
    case Popped(x) => multiset{x}
    case Stolen(x) => multiset{x}
    case _ => multiset{}
  }

  /** The tasks whose push has taken effect in the first `n` steps. */
  ghost function PushedBy(states: seq<State>, steps: seq<Step>, n: nat): multiset<Task>
    requires IsRun(states, steps) && n <= |steps|
  {
    if n == 0 then multiset{} else
      PushedBy(states, steps, n - 1) + PushedIn(EventOf(states[n - 1], steps[n - 1]))
  }

  /** The tasks handed out by the pops and steals that took effect in the first `n` steps. */
  ghost function TakenBy(states: seq<State>, steps: seq<Step>, n: nat): multiset<Task>
    requires IsRun(states, steps) && n <= |steps|
  {
    if n == 0 then multiset{} else
      TakenBy(states, steps, n - 1) + TakenIn(EventOf(states[n - 1], steps[n - 1]))
  }

  lemma {:induction false} RunKeeps(states: seq<State>, steps: seq<Step>, n: nat)
    requires IsRun(states, steps) && n <= |steps|
    ensures Inv(states[n], QueueAt(states, steps, n))
  {
    hide Slot;
    if n != 0 {
      RunKeeps(states, steps, n - 1);
      StepKeeps(states[n - 1], steps[n - 1], QueueAt(states, steps, n - 1));
    }
  }

  /**
    The queue discipline of every run: each event is a push at the bottom, a pop of the newest
    task, a steal of the oldest one, or an owner finding the queue empty.
  */
  lemma RunRefinesQueue(states: seq<State>, steps: seq<Step>, n: nat)
    requires IsRun(states, steps) && n < |steps|
    ensures QueueStep(QueueAt(states, steps, n), EventOf(states[n], steps[n]), QueueAt(states, steps, n + 1))
  {
    hide Inv;
    RunKeeps(states, steps, n);
    StepKeeps(states[n], steps[n], QueueAt(states, steps, n));
  }

  lemma QueueStepConserves(dq: seq<Task>, e: Event, dq': seq<Task>)
    requires QueueStep(dq, e, dq')
    ensures multiset(dq) + PushedIn(e) == multiset(dq') + TakenIn(e)
  {
    match e
    case Popped(x) => assert dq == dq[..|dq| - 1] + [x];
    case Stolen(x) => assert dq == [x] + dq[1..];
    case _ =>
  }

  lemma Exchange(p: multiset<Task>, t: multiset<Task>, q: multiset<Task>, pe: multiset<Task>, q': multiset<Task>,
      te: multiset<Task>)
    requires p == t + q && q + pe == q' + te
    ensures p + pe == (t + te) + q'
  {
    assert p + pe == t + (q + pe);
  }

  /** Conservation: what was pushed has been handed out or is still queued. */
  lemma {:induction false} NothingLost(states: seq<State>, steps: seq<Step>, n: nat)
    requires IsRun(states, steps) && n <= |steps|
    ensures PushedBy(states, steps, n) == TakenBy(states, steps, n) + multiset(QueueAt(states, steps, n))
  {
    hide Inv, Next, Enabled, EventOf, PushedIn, TakenIn, QueueAfter, QueueStep;
    if n != 0 {
      NothingLost(states, steps, n - 1);
      RunRefinesQueue(states, steps, n - 1);
      var e := EventOf(states[n - 1], steps[n - 1]);
      QueueStepConserves(QueueAt(states, steps, n - 1), e, QueueAt(states, steps, n));
      Exchange(PushedBy(states, steps, n - 1), TakenBy(states, steps, n - 1), multiset(QueueAt(states, steps, n - 1)),
               PushedIn(e), multiset(QueueAt(states, steps, n)), TakenIn(e));
    }
  }

  /** The task a push is about to publish, if any, and the numbering of tasks. */
  ghost predicate PushFresh(s: State, pushed: multiset<Task>) {
    && (forall x :: x in pushed ==> x < s.created && pushed[x] == 1)
    && (s.owner.PushStoreBottom? ==> s.owner.task !in pushed && s.owner.task < s.created)
  }

  /** A pushed pointer is pushed once: every `new` returns another one. */
  lemma {:induction false} PushedOnce(states: seq<State>, steps: seq<Step>, n: nat)
    requires IsRun(states, steps) && n <= |steps|
    ensures PushFresh(states[n], PushedBy(states, steps, n))
  {
    hide Next;
    if n != 0 {
      PushedOnce(states, steps, n - 1);
      PushFreshStep(states[n - 1], steps[n - 1], PushedBy(states, steps, n - 1));
    }
  }

  lemma PushFreshStep(s: State, a: Step, pushed: multiset<Task>)
    requires Enabled(s, a) && PushFresh(s, pushed)
    ensures PushFresh(Next(s, a), pushed + PushedIn(EventOf(s, a)))
  {
  }

  /**
    Exactly once: no task is handed out twice, in whatever way owner and thieves interleave and
    however often the array is replaced; a task handed out was pushed and is no longer queued.
  */
  lemma ExactlyOnce(states: seq<State>, steps: seq<Step>, n: nat, x: Task)
    requires IsRun(states, steps) && n <= |steps|
    ensures x in PushedBy(states, steps, n) ==>
              (TakenBy(states, steps, n)[x] == 1 && x !in QueueAt(states, steps, n))
              || (TakenBy(states, steps, n)[x] == 0 && x in QueueAt(states, steps, n))
    ensures x !in PushedBy(states, steps, n) ==> x !in TakenBy(states, steps, n) && x !in QueueAt(states, steps, n)
  {
    NothingLost(states, steps, n);
    PushedOnce(states, steps, n);
    var dq := QueueAt(states, steps, n);
    assert x in dq <==> multiset(dq)[x] > 0;
  }

  // ---------------------------------------------------------------- what calls return

  function EventsAfter(es: seq<Event>, e: Event): seq<Event> { if e == Silent then es else es + [e] }

  /** The effects of the owner's latest call, in order. */
  ghost function OwnerEvents(states: seq<State>, steps: seq<Step>, n: nat): seq<Event>
    requires IsRun(states, steps) && n <= |steps|
  {
    if n == 0 || steps[n - 1].BeginPush? || steps[n - 1].BeginPop? then []
    else if steps[n - 1].OwnerRuns? then
      EventsAfter(OwnerEvents(states, steps, n - 1), EventOf(states[n - 1], steps[n - 1]))
    else OwnerEvents(states, steps, n - 1)
  }

  /** The effects of the latest call of thief `u`, in order. */
  ghost function ThiefEvents(states: seq<State>, steps: seq<Step>, n: nat, u: nat): seq<Event>
    requires IsRun(states, steps) && n <= |steps|
  {
    if n == 0 || steps[n - 1] == BeginSteal(u) then []
    else if steps[n - 1] == ThiefRuns(u) then
      EventsAfter(ThiefEvents(states, steps, n - 1, u), EventOf(states[n - 1], steps[n - 1]))
    else ThiefEvents(states, steps, n - 1, u)
  }

  function PopEvent(result: Option<Task>): Event { if result.None? then FoundEmpty else Popped(result.value) }

  ghost predicate OwnerCallOk(o: Owner, es: seq<Event>) {
    match o
    case OwnerIdle => true
    case PopRestore(_) => es == [FoundEmpty]
    case PopFinish(_, result) => es == [PopEvent(result)]
    case PopReturn(result) => es == [PopEvent(result)]
    case _ => es == []
  }

  ghost predicate ThiefCallOk(th: Thief, es: seq<Event>) {
    match th
    case ThiefIdle => true
    case StealReturn(result) => es == if result.None? then [] else [Stolen(result.value)]
    case _ => es == []
  }

  /** Each call has the effect it reports. */
  lemma {:induction false} CallEffects(states: seq<State>, steps: seq<Step>, n: nat)
    requires IsRun(states, steps) && n <= |steps|
    ensures OwnerCallOk(states[n].owner, OwnerEvents(states, steps, n))
    ensures forall u: nat :: u < |states[n].thieves| ==>
              ThiefCallOk(states[n].thieves[u], ThiefEvents(states, steps, n, u))
  {
    if n != 0 {
      CallEffects(states, steps, n - 1);
      var s, a := states[n - 1], steps[n - 1];
      hide OwnerNext, OwnerEvent, ThiefNext, EventsAfter, OwnerCallOk, ThiefCallOk, OwnerSafe, ThiefSafe;
      match a
      case OwnerRuns => OwnerCallStep(s, OwnerEvents(states, steps, n - 1));
      case ThiefRuns(u) => ThiefCallStep(s, u, ThiefEvents(states, steps, n - 1, u));
      case BeginSteal(u) => assert ThiefCallOk(StealLoadBottom(s.top), []);
      case BeginPush => assert OwnerCallOk(PushLoadTop(s.bottom), []);
      case BeginPop => assert OwnerCallOk(PopStoreBottom(s.bottom - 1), []);
    }
  }

  lemma OwnerCallStep(s: State, es: seq<Event>)
    requires Enabled(s, OwnerRuns) && OwnerCallOk(s.owner, es)
    ensures OwnerNext(s).thieves == s.thieves
    ensures OwnerCallOk(OwnerNext(s).owner, EventsAfter(es, OwnerEvent(s)))
  {
    hide Slot, Get, Put, Resized;
  }

  lemma ThiefCallStep(s: State, u: nat, es: seq<Event>)
    requires Enabled(s, ThiefRuns(u)) && ThiefCallOk(s.thieves[u], es)
    ensures var s' := ThiefNext(s, u);
            && s'.owner == s.owner && |s'.thieves| == |s.thieves| && s'.thieves == s.thieves[u := s'.thieves[u]]
            && ThiefCallOk(s'.thieves[u], EventsAfter(es, EventOf(s, ThiefRuns(u))))
  {
    hide Slot, Get;
  }

  /**
    A pop that returns a task has taken exactly that task, once; a pop that returns null has taken
    none and found the queue empty during the call.  A steal that returns a task has taken exactly
    that task, once; one that returns null has taken none.  A push has no effect before its last
    step and publishes its task with it.
  */
  lemma CallsAreAtomic(states: seq<State>, steps: seq<Step>, n: nat, u: nat)
    requires IsRun(states, steps) && n <= |steps| && u < |states[n].thieves|
    ensures match states[n].owner
            case PopReturn(result) =>
              OwnerEvents(states, steps, n) == [if result.None? then FoundEmpty else Popped(result.value)]
            case PushStoreBottom(_, task) =>
              n < |steps| && steps[n] == OwnerRuns ==> OwnerEvents(states, steps, n + 1) == [Pushed(task)]
            case _ => true
    ensures match states[n].thieves[u]
            case StealReturn(result) =>
              ThiefEvents(states, steps, n, u) == if result.None? then [] else [Stolen(result.value)]
            case _ => true
  {
    CallEffects(states, steps, n);
  }

  function OneIf(b: bool): int { if b then 1 else 0 }

  /** The owner's pop has taken task `x` and not returned it yet. */
  function OwnerHolds(o: Owner, x: Task): int { OneIf((o.PopFinish? || o.PopReturn?) && o.result == Some(x)) }

  function ThiefHolds(th: Thief, x: Task): int { OneIf(th.StealReturn? && th.result == Some(x)) }

  /** How many thieves have taken task `x` and not returned it yet. */
  function ThievesHold(ths: seq<Thief>, x: Task): int {
    Sum(seq(|ths|, u requires 0 <= u < |ths| => ThiefHolds(ths[u], x)))
  }

  lemma ThievesHoldUpdate(ths: seq<Thief>, u: nat, th: Thief, x: Task)
    requires u < |ths|
    ensures ThievesHold(ths[u := th], x) == ThievesHold(ths, x) - ThiefHolds(ths[u], x) + ThiefHolds(th, x)
  {
    var held := seq(|ths|, v requires 0 <= v < |ths| => ThiefHolds(ths[v], x));
    SumUpdate(held, u, ThiefHolds(th, x));
    assert held[u := ThiefHolds(th, x)] == seq(|ths|, v requires 0 <= v < |ths| => ThiefHolds(ths[u := th][v], x));
  }

  /** The step lets a call return task `x`. */
  predicate Returns(s: State, a: Step, x: Task)
    requires Enabled(s, a)
  {
    match a
    case OwnerRuns => s.owner == PopReturn(Some(x))
    case ThiefRuns(u) => s.thieves[u] == StealReturn(Some(x))
    case _ => false
  }

  /** How often calls have returned task `x` in the first `n` steps. */
  ghost function TimesReturned(states: seq<State>, steps: seq<Step>, n: nat, x: Task): nat
    requires IsRun(states, steps) && n <= |steps|
  {
    if n == 0 then 0
    else TimesReturned(states, steps, n - 1, x) + if Returns(states[n - 1], steps[n - 1], x) then 1 else 0
  }

  predicate Takes(e: Event, x: Task) { e == Popped(x) || e == Stolen(x) }

  lemma OwnerHolding(s: State, x: Task)
    requires Enabled(s, OwnerRuns)
    ensures OwnerNext(s).thieves == s.thieves
    ensures OwnerHolds(OwnerNext(s).owner, x)
              == OwnerHolds(s.owner, x) + OneIf(Takes(OwnerEvent(s), x)) - OneIf(s.owner == PopReturn(Some(x)))
  {
    hide Slot, Get, Put, Resized;
  }

  lemma ThiefHolding(s: State, u: nat, x: Task)
    requires Enabled(s, ThiefRuns(u))
    ensures var s' := ThiefNext(s, u);
            && s'.owner == s.owner && |s'.thieves| == |s.thieves| && s'.thieves == s.thieves[u := s'.thieves[u]]
            && ThiefHolds(s'.thieves[u], x)
                 == ThiefHolds(s.thieves[u], x) + OneIf(Takes(EventOf(s, ThiefRuns(u)), x))
                    - OneIf(s.thieves[u] == StealReturn(Some(x)))
  {
    hide Slot, Get;
  }

  lemma HoldStep(s: State, a: Step, x: Task)
    requires Enabled(s, a)
    ensures var s' := Next(s, a);
            OwnerHolds(s'.owner, x) + ThievesHold(s'.thieves, x)
              == OwnerHolds(s.owner, x) + ThievesHold(s.thieves, x)
                 + OneIf(Takes(EventOf(s, a), x)) - OneIf(Returns(s, a, x))
  {
    hide ThievesHold, OwnerNext, OwnerEvent, ThiefNext;
    match a
    case OwnerRuns => OwnerHolding(s, x);
    case BeginSteal(u) => ThievesHoldUpdate(s.thieves, u, Next(s, a).thieves[u], x);
    case ThiefRuns(u) =>
      ThiefHolding(s, u, x);
      ThievesHoldUpdate(s.thieves, u, ThiefNext(s, u).thieves[u], x);
    case _ =>
  }

  lemma TakenCount(taken: multiset<Task>, e: Event, x: Task)
    ensures (taken + TakenIn(e))[x] == taken[x] + OneIf(Takes(e, x))
  {
  }

  lemma NothingHeld(ths: seq<Thief>, x: Task)
    requires forall u :: 0 <= u < |ths| ==> ths[u] == ThiefIdle
    ensures ThievesHold(ths, x) == 0
  {
    SumOfZeros(seq(|ths|, u requires 0 <= u < |ths| => ThiefHolds(ths[u], x)));
  }

  /** A task that has been taken has been returned, or the call that took it is about to return it. */
  lemma {:induction false} TakenIsReturned(states: seq<State>, steps: seq<Step>, n: nat, x: Task)
    requires IsRun(states, steps) && n <= |steps|
    ensures TakenBy(states, steps, n)[x]
              == TimesReturned(states, steps, n, x) + OwnerHolds(states[n].owner, x) + ThievesHold(states[n].thieves, x)
  {
    hide Next, Enabled, EventOf, TakenIn, Takes, ThievesHold, Returns;
    if n == 0 {
      NothingHeld(states[0].thieves, x);
    } else {
      TakenIsReturned(states, steps, n - 1, x);
      HoldStep(states[n - 1], steps[n - 1], x);
      TakenCount(TakenBy(states, steps, n - 1), EventOf(states[n - 1], steps[n - 1]), x);
    }
  }

  /** No task is returned by two calls, and a task that is returned was pushed and is no longer queued. */
  lemma ReturnedOnce(states: seq<State>, steps: seq<Step>, n: nat, x: Task)
    requires IsRun(states, steps) && n <= |steps|
    ensures TimesReturned(states, steps, n, x) <= 1
    ensures TimesReturned(states, steps, n, x) == 1 ==>
              x in PushedBy(states, steps, n) && x !in QueueAt(states, steps, n)
  {
    var ths := states[n].thieves;
    SumIsNatural(seq(|ths|, u requires 0 <= u < |ths| => ThiefHolds(ths[u], x)));
    hide IsRun;
    ExactlyOnce(states, steps, n, x);
    TakenIsReturned(states, steps, n, x);
  }

  /** `mTop` never decreases. */
  lemma {:induction false} TopIsMonotone(states: seq<State>, steps: seq<Step>, i: nat, j: nat)
    requires IsRun(states, steps) && i <= j <= |steps|
    ensures states[i].top <= states[j].top
    decreases j
  {
    if i < j {
      TopIsMonotone(states, steps, i, j - 1);
    }
  }
}
