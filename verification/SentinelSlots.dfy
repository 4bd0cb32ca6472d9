/**
  The bucket slots of the hash map in the growing tree: any number of threads look up the sentinel
  of a bucket, creating it and those of its ancestors if need be, while others extend the table.

  A slot keeps the index of the bucket whose sentinel it points at.  Searching for a sentinel's
  position and linking it are one step here (`LockFreeHashMap` has the list), which needs the
  parent's slot to be filled.  A thread may extend the table whenever it is in no call.
*/
module SentinelSlots {
  import opened Arithmetic
  import opened BucketTree
  import opened Sequences
  import opened SplitOrder

  // ---------------------------------------------------------------- places

  /**
    The slot that `operator[]` finds for index `i` below a root of height `h`: a leaf keeps the
    lowest digit only, and below an inner root too large an index leaves the array.
  */
  function Place(h: nat, i: nat): Option<nat> {
    if h == 0 then Some(i % SLOTS) else if i < Capacity(h + 1) then Some(i) else None
  }

  /** Places are what the paths of the tree say. */
  lemma PlaceIsPath(h: nat, i: nat, j: nat)
    ensures Place(h, i).Some? <==> InRange(Path(i, h))
    ensures Place(h, i).Some? && Place(h, j).Some? ==> (Place(h, i) == Place(h, j) <==> Path(i, h) == Path(j, h))
    ensures i < Capacity(h + 1) ==> Path(i, h + 1) == [0] + Path(i, h) && Place(h + 1, i) == Place(h, i)
  {
    PathInRange(i, h);
    if i < Capacity(h + 1) {
      LargerRoot(h, i);
      NewRootKeepsPaths(i, h);
    }
    if h > 0 && Place(h, i).Some? && Place(h, j).Some? && Path(i, h) == Path(j, h) {
      PathInjective(i, j, h);
    }
  }

  lemma LargerRoot(h: nat, i: nat)
    requires i < Capacity(h + 1)
    ensures Place(h, i) == Place(h + 1, i) == Some(i)
  {
    assert Capacity(0) == 1 && Capacity(1) == SLOTS * Capacity(0);
    assert Capacity(h + 2) == SLOTS * Capacity(h + 1);
  }

  function ParentOf(i: nat): nat { if i == 0 then 0 else Parent(i) }

  lemma {:induction false} SomePower(i: nat) returns (k: nat)
    ensures i < Pow2(k)
  {
    if i == 0 {
      k := 0;
    } else {
      k := SomePower(i - 1);
      k := k + 1;
    }
  }

  /** An index beyond the leaf and its parent have the same lowest digit. */
  lemma ParentKeepsDigit(i: nat)
    requires i >= SLOTS
    ensures Parent(i) < i && Parent(i) % SLOTS == i % SLOTS
  {
    var k := SomePower(i);
    var j := TopExponent(i, k);
    TopBitUnique(i, j);
    TenBits();
    assert j >= 10 by {
      if j < 10 {
        Pow2Order(j + 1, 10);
      }
    }
    Pow2Plus(10, j - 10);
    SameDigit(Parent(i), Pow2(j - 10));
  }

  lemma SameDigit(x: nat, y: nat)
    ensures (x + SLOTS * y) % SLOTS == x % SLOTS
  {
    DivModUnique(x + SLOTS * y, SLOTS, x / SLOTS + y, x % SLOTS);
  }

  lemma ParentBelow(i: nat)
    requires i > 0
    ensures Parent(i) < i
  {
    var k := SomePower(i);
    var j := TopExponent(i, k);
    TopBitUnique(i, j);
  }

  // ---------------------------------------------------------------- states and steps

  /** A suspended `insertSentinel(i)` with the reference to its parent's slot. */
  datatype Frame = Frame(i: nat, parent: nat)

  /** Where a thread stands; the arguments are references to slots. */
  datatype Pc =
    | Locate
    | Load(p: nat)
    | LocateParent
    | LoadParent(p: nat)
    | Walk(p: nat)
    | LocateCheck
    | Check(p: nat)
    | LocateStore
    | Store(p: nat)
    | LocateReturn
    | Return(p: nat)

  /** A call of `getSentinelNode` for bucket `i` that works on bucket `cur`. */
  datatype Thread = Idle | Busy(i: nat, frames: seq<Frame>, cur: nat, pc: Pc)

  /** The base array has `Pow2(b)` elements. */
  datatype State = State(b: nat, ext: Extent, slots: map<nat, nat>, threads: seq<Thread>)

  datatype Step = Begin(t: nat, i: nat) | Extend(t: nat) | Run(t: nat)

  ghost predicate Init(s: State) {
    s.ext == Extent(0, 1) && s.slots == map[0 := 0] && forall t :: 0 <= t < |s.threads| ==> s.threads[t].Idle?
  }

  function At(s: State, i: nat): Option<nat> { Place(s.ext.height, i) }

  /** No index leaves its array, and no null slot is followed. */
  predicate Enabled(s: State, a: Step) {
    && a.t < |s.threads|
    && match a
       case Begin(t, i) => s.threads[t].Idle? && i < Pow2(s.ext.exp)
       case Extend(t) => s.threads[t].Idle?
       case Run(t) =>
         && s.threads[t].Busy?
         && var th := s.threads[t];
            match th.pc
            case Locate => At(s, th.cur).Some?
            case LocateParent => At(s, ParentOf(th.cur)).Some?
            case Walk(p) => p in s.slots
            case LocateCheck => At(s, th.cur).Some?
            case LocateStore => At(s, th.cur).Some?
            case LocateReturn => At(s, th.cur).Some?
            case Return(p) => p in s.slots
            case _ => true
  }

  function Put(s: State, t: nat, th: Thread): State
    requires t < |s.threads|
  {
    s.(threads := s.threads[t := th])
  }

  /** `insertSentinel` returns: to the suspended one outside it, or to `getSentinelNode`. */
  function Done(th: Thread): Thread
    requires th.Busy?
  {
    if th.frames == [] then th.(pc := LocateReturn)
    else
      var last := th.frames[|th.frames| - 1];
      Busy(th.i, th.frames[..|th.frames| - 1], last.i, Walk(last.parent))
  }

  function RunNext(s: State, th: Thread): Thread
    requires th.Busy?
    requires match th.pc
             case Locate => At(s, th.cur).Some?
             case LocateParent => At(s, ParentOf(th.cur)).Some?
             case LocateCheck => At(s, th.cur).Some?
             case LocateStore => At(s, th.cur).Some?
             case LocateReturn => At(s, th.cur).Some?
             case _ => true
  {
    match th.pc
    case Locate => th.(pc := Load(At(s, th.cur).value))
    case Load(p) => th.(pc := if p in s.slots then Return(p) else LocateParent)
    case LocateParent => th.(pc := LoadParent(At(s, ParentOf(th.cur)).value))
    case LoadParent(p) =>
      if p in s.slots then th.(pc := Walk(p))
      else Busy(th.i, th.frames + [Frame(th.cur, p)], ParentOf(th.cur), LocateParent)
    case Walk(_) => th.(pc := LocateCheck)
    case LocateCheck => th.(pc := Check(At(s, th.cur).value))
    case Check(p) => if p in s.slots then Done(th) else th.(pc := LocateStore)
    case LocateStore => th.(pc := Store(At(s, th.cur).value))
    case Store(_) => Done(th)
    case LocateReturn => th.(pc := Return(At(s, th.cur).value))
    case Return(_) => Idle
  }

  function Next(s: State, a: Step): State
    requires Enabled(s, a)
  {
    match a
    case Begin(t, i) => Put(s, t, Busy(i, [], i, Locate))
    case Extend(t) => s.(ext := Extended(s.b, s.ext))
    case Run(t) =>
      var th := s.threads[t];
      Put(if th.pc.Store? then s.(slots := s.slots[th.pc.p := th.cur]) else s, t, RunNext(s, th))
  }

  // ---------------------------------------------------------------- the invariant

  /** Each suspended call waits for the one of its parent. */
  ghost predicate FramesOk(h: nat, th: Thread)
    requires th.Busy?
  {
    var fs := th.frames;
    && (if fs == [] then th.cur == th.i else fs[0].i == th.i && th.cur == ParentOf(fs[|fs| - 1].i))
    && (forall k :: 0 <= k < |fs| ==> fs[k].i > 0 && Some(fs[k].parent) == Place(h, ParentOf(fs[k].i)))
    && forall k :: 0 < k < |fs| ==> fs[k].i == ParentOf(fs[k - 1].i)
  }

  /** The references a thread has kept are what `operator[]` would give it now. */
  ghost predicate ThreadOk(h: nat, slots: map<nat, nat>, th: Thread) {
    th.Busy? ==>
      && FramesOk(h, th) && th.cur <= th.i
      && var own, parent := Place(h, th.cur), Place(h, ParentOf(th.cur));
         match th.pc
         case Locate => th.frames == []
         case Load(p) => th.frames == [] && own == Some(p)
         case LocateParent => th.cur > 0
         case LoadParent(p) => th.cur > 0 && parent == Some(p)
         case Walk(p) => th.cur > 0 && parent == Some(p) && p in slots
         case LocateCheck => ParentFilled(h, slots, th.cur)
         case Check(p) => ParentFilled(h, slots, th.cur) && own == Some(p)
         case LocateStore => own == Some(th.cur)
         case Store(p) => own == Some(p) && p == th.cur
         case LocateReturn => th.frames == [] && own.Some? && own.value in slots
         case Return(p) => th.frames == [] && own == Some(p) && p in slots
  }

  ghost predicate ParentFilled(h: nat, slots: map<nat, nat>, i: nat) {
    var parent := Place(h, ParentOf(i));
    i > 0 && parent.Some? && parent.value in slots
  }

  /** Every index of a thread has a place, although not always one of its own. */
  predicate NoOverrun(e: Extent) { e.height == 0 || Fits(e) }

  /** A filled slot holds the sentinel of its own bucket, and that of bucket 0 is filled. */
  ghost predicate SlotsOwn(slots: map<nat, nat>) { 0 in slots && forall p :: p in slots ==> slots[p] == p }

  ghost predicate Inv(s: State) {
    && NoOverrun(s.ext) && SlotsOwn(s.slots)
    && (forall t :: 0 <= t < |s.threads| && s.threads[t].Busy? ==> s.threads[t].i < Pow2(s.ext.exp))
    && forall t :: 0 <= t < |s.threads| ==> ThreadOk(s.ext.height, s.slots, s.threads[t])
  }

  lemma HasPlace(e: Extent, i: nat)
    requires NoOverrun(e) && i < Pow2(e.exp)
    ensures Place(e.height, i).Some?
  {
  }

  /** A slot that is null is not shared with the parent, whose slot is filled. */
  lemma NullIsOwn(h: nat, slots: map<nat, nat>, i: nat)
    requires Place(h, i).Some? && Place(h, i).value !in slots && ParentFilled(h, slots, i)
    ensures Place(h, i) == Some(i)
  {
    if h == 0 && i >= SLOTS {
      ParentKeepsDigit(i);
    }
  }

  /** What a thread knows survives what other threads do to the slots. */
  lemma StillOk(h: nat, slots: map<nat, nat>, slots': map<nat, nat>, th: Thread)
    requires ThreadOk(h, slots, th) && forall p :: p in slots ==> p in slots'
    ensures ThreadOk(h, slots', th)
  {
    hide FramesOk;
  }

  lemma PushFrame(h: nat, th: Thread, p: nat)
    requires th.Busy? && FramesOk(h, th) && th.cur > 0 && Place(h, ParentOf(th.cur)) == Some(p)
    ensures FramesOk(h, Busy(th.i, th.frames + [Frame(th.cur, p)], ParentOf(th.cur), LocateParent))
  {
  }

  lemma PopFrame(h: nat, th: Thread)
    requires th.Busy? && FramesOk(h, th) && th.frames != []
    ensures FramesOk(h, Done(th)) && Done(th).cur > 0 && ParentOf(Done(th).cur) == th.cur
    ensures Place(h, th.cur) == Some(Done(th).pc.p)
  {
  }

  lemma {:induction false} FramesDescend(h: nat, th: Thread, k: nat)
    requires th.Busy? && FramesOk(h, th) && k < |th.frames|
    ensures th.frames[k].i <= th.i
  {
    if k > 0 {
      FramesDescend(h, th, k - 1);
      ParentBelow(th.frames[k - 1].i);
    }
  }

  /** `insertSentinel` returns with its bucket's slot filled. */
  lemma DoneOk(h: nat, slots: map<nat, nat>, th: Thread)
    requires th.Busy? && FramesOk(h, th) && th.cur <= th.i
    requires Place(h, th.cur).Some? && Place(h, th.cur).value in slots
    ensures ThreadOk(h, slots, Done(th)) && Done(th).Busy? && Done(th).i == th.i
  {
    if th.frames != [] {
      PopFrame(h, th);
      FramesDescend(h, th, |th.frames| - 1);
    }
    hide Place;
  }

  lemma RunsOn(s: State, t: nat)
    requires Inv(s) && t < |s.threads| && s.threads[t].Busy?
    ensures Enabled(s, Run(t))
  {
    var th := s.threads[t];
    assert ThreadOk(s.ext.height, s.slots, th);
    HasPlace(s.ext, th.cur);
    if th.cur > 0 {
      ParentBelow(th.cur);
    }
    HasPlace(s.ext, ParentOf(th.cur));
    hide Place, FramesOk;
  }

  /** The thread goes on with the same call. */
  ghost predicate GoesOn(h: nat, slots: map<nat, nat>, th: Thread, th': Thread) {
    ThreadOk(h, slots, th') && (th'.Busy? ==> th.Busy? && th'.i == th.i)
  }

  lemma FirstPlace(h: nat)
    ensures Place(h, 0) == Some(0)
  {
    assert Capacity(h + 1) > 0;
  }

  lemma AtLoads(s: State, th: Thread)
    requires ThreadOk(s.ext.height, s.slots, th) && 0 in s.slots && th.Busy? && (th.pc.Load? || th.pc.LoadParent?)
    ensures GoesOn(s.ext.height, s.slots, th, RunNext(s, th))
  {
    var h := s.ext.height;
    FirstPlace(h);
    if th.pc.LoadParent? && th.pc.p !in s.slots {
      PushFrame(h, th, th.pc.p);
      ParentBelow(th.cur);
    }
    hide Place, Capacity, FramesOk, Parent;
  }

  lemma AtCheck(s: State, th: Thread)
    requires ThreadOk(s.ext.height, s.slots, th) && th.Busy? && th.pc.Check?
    ensures GoesOn(s.ext.height, s.slots, th, RunNext(s, th))
  {
    if th.pc.p in s.slots {
      DoneOk(s.ext.height, s.slots, th);
    } else {
      NullIsOwn(s.ext.height, s.slots, th.cur);
    }
    hide Place, Capacity, FramesOk, Parent;
  }

  lemma AtStore(s: State, th: Thread)
    requires ThreadOk(s.ext.height, s.slots, th) && th.Busy? && th.pc.Store? && SlotsOwn(s.slots)
    ensures SlotsOwn(s.slots[th.pc.p := th.cur])
    ensures GoesOn(s.ext.height, s.slots[th.pc.p := th.cur], th, RunNext(s, th))
  {
    DoneOk(s.ext.height, s.slots[th.pc.p := th.cur], th);
    hide Place, Capacity, FramesOk, Parent;
  }

  lemma AtOthers(s: State, t: nat)
    requires Enabled(s, Run(t)) && ThreadOk(s.ext.height, s.slots, s.threads[t])
    requires var pc := s.threads[t].pc; !pc.Load? && !pc.LoadParent? && !pc.Check? && !pc.Store?
    ensures GoesOn(s.ext.height, s.slots, s.threads[t], RunNext(s, s.threads[t]))
  {
    hide Place, Capacity, Parent;
  }

  lemma OwnOk(s: State, t: nat)
    requires Enabled(s, Run(t)) && ThreadOk(s.ext.height, s.slots, s.threads[t]) && SlotsOwn(s.slots)
    ensures var s' := Next(s, Run(t));
            SlotsOwn(s'.slots) && GoesOn(s.ext.height, s'.slots, s.threads[t], s'.threads[t])
  {
    var th := s.threads[t];
    hide ThreadOk, GoesOn, SlotsOwn, At, RunNext;
    if th.pc.Load? || th.pc.LoadParent? {
      OwnLoads(s, th);
    } else if th.pc.Check? {
      AtCheck(s, th);
    } else if th.pc.Store? {
      AtStore(s, th);
    } else {
      AtOthers(s, t);
    }
  }

  lemma OwnLoads(s: State, th: Thread)
    requires ThreadOk(s.ext.height, s.slots, th) && SlotsOwn(s.slots) && th.Busy? && (th.pc.Load? || th.pc.LoadParent?)
    ensures GoesOn(s.ext.height, s.slots, th, RunNext(s, th))
  {
    AtLoads(s, th);
    hide ThreadOk, GoesOn, RunNext;
  }

  lemma SlotsGrow(s: State, t: nat)
    requires Enabled(s, Run(t))
    ensures forall p :: p in s.slots ==> p in Next(s, Run(t)).slots
  {
    hide RunNext;
  }

  lemma RunKeepsInv(s: State, t: nat)
    requires Inv(s) && Enabled(s, Run(t))
    ensures Inv(Next(s, Run(t)))
  {
    var s' := Next(s, Run(t));
    OwnOk(s, t);
    SlotsGrow(s, t);
    hide ThreadOk, RunNext, SlotsOwn;
    forall u | 0 <= u < |s.threads| && u != t ensures ThreadOk(s.ext.height, s'.slots, s'.threads[u]) {
      StillOk(s.ext.height, s.slots, s'.slots, s.threads[u]);
    }
  }

  /** A thread's references stay right under a new root if all indices had places of their own. */
  lemma TallerOk(e: Extent, slots: map<nat, nat>, th: Thread)
    requires Fits(e) && ThreadOk(e.height, slots, th) && (th.Busy? ==> th.i < Pow2(e.exp))
    ensures ThreadOk(e.height + 1, slots, th)
  {
    if th.Busy? {
      var h := e.height;
      forall i: nat | i <= th.i ensures Place(h, i) == Place(h + 1, i) {
        LargerRoot(h, i);
      }
      if th.cur > 0 {
        ParentBelow(th.cur);
      }
      forall k | 0 <= k < |th.frames| ensures ParentOf(th.frames[k].i) <= th.i {
        FramesDescend(h, th, k);
        ParentBelow(th.frames[k].i);
      }
      hide Place, Capacity, Parent;
    }
  }

  /** Extending is harmless if it keeps the height, or the places, or comes between calls. */
  predicate Harmless(s: State) {
    || Extended(s.b, s.ext).height == s.ext.height
    || Fits(s.ext)
    || forall t :: 0 <= t < |s.threads| ==> s.threads[t].Idle?
  }

  lemma ExtendKeeps(s: State, t: nat)
    requires Inv(s) && Enabled(s, Extend(t)) && Harmless(s) && NoOverrun(Extended(s.b, s.ext))
    ensures Inv(Next(s, Extend(t)))
  {
    var e, e' := s.ext, Extended(s.b, s.ext);
    assert Pow2(e.exp) < Pow2(e'.exp);
    hide ThreadOk, Fits, GrowsInPlace;
    forall u | 0 <= u < |s.threads| ensures ThreadOk(e'.height, s.slots, s.threads[u]) {
      assert ThreadOk(e.height, s.slots, s.threads[u]);
      if e'.height != e.height {
        if Fits(e) {
          TallerOk(e, s.slots, s.threads[u]);
        } else {
          IdleOk(e'.height, s.slots);
        }
      }
    }
  }

  lemma IdleOk(h: nat, slots: map<nat, nat>)
    ensures ThreadOk(h, slots, Idle)
  {
  }

  lemma BeginKeeps(s: State, t: nat, i: nat)
    requires Inv(s) && Enabled(s, Begin(t, i))
    ensures Inv(Next(s, Begin(t, i)))
  {
    assert ThreadOk(s.ext.height, s.slots, Busy(i, [], i, Locate));
    hide ThreadOk;
  }

  /** Every step keeps each bucket's sentinel in the bucket's own slot and the references right. */
  lemma StepKeeps(s: State, a: Step)
    requires Inv(s) && Enabled(s, a)
    requires a.Extend? ==> Harmless(s) && NoOverrun(Extended(s.b, s.ext))
    ensures Inv(Next(s, a))
  {
    hide Inv, Next, Harmless, NoOverrun;
    match a
    case Begin(t, i) => BeginKeeps(s, t, i);
    case Extend(t) => ExtendKeeps(s, t);
    case Run(t) => RunKeepsInv(s, t);
  }

  // ---------------------------------------------------------------- where a search starts

  /** Bucket `q` is bucket `i`, its parent, the parent of its parent, and so on. */
  ghost predicate IsAncestor(q: nat, i: nat)
    decreases i
  {
    q == i || (i > 0 && (ParentBelow(i); IsAncestor(q, Parent(i))))
  }

  lemma {:induction false} DigitIsAncestor(i: nat)
    ensures IsAncestor(i % SLOTS, i)
  {
    if i >= SLOTS {
      ParentKeepsDigit(i);
      DigitIsAncestor(Parent(i));
    }
  }

  /** The sentinel of an ancestor is not behind that of the bucket, so a search may start from it. */
  lemma {:induction false} AncestorPrecedes(w: nat, k: nat, q: nat, i: nat)
    requires w >= 2 && k <= w - 2 && i < Pow2(k) && IsAncestor(q, i)
    ensures SentinelKey(w, q) <= SentinelKey(w, i)
    decreases i
  {
    if q != i {
      ParentPrecedes(w, k, i);
      AncestorPrecedes(w, k, q, Parent(i));
    }
  }

  /** The thread can go on, and what it returns is filled with the sentinel of an ancestor. */
  ghost predicate Right(s: State, t: nat)
    requires t < |s.threads|
  {
    var th := s.threads[t];
    th.Busy? ==>
      && Enabled(s, Run(t))
      && (th.pc.Return? ==> th.pc.p in s.slots && IsAncestor(s.slots[th.pc.p], th.i))
  }

  lemma InvIsRight(s: State, t: nat)
    requires Inv(s) && t < |s.threads|
    ensures Right(s, t)
  {
    var th := s.threads[t];
    if th.Busy? {
      RunsOn(s, t);
      assert ThreadOk(s.ext.height, s.slots, th);
      DigitIsAncestor(th.i);
      hide Enabled, Capacity;
    }
  }

  // ---------------------------------------------------------------- whole runs

  ghost predicate IsRun(states: seq<State>, steps: seq<Step>) {
    && |states| == |steps| + 1 && Init(states[0])
    && forall i :: 0 <= i < |steps| ==> Enabled(states[i], steps[i]) && states[i + 1] == Next(states[i], steps[i])
  }

  /** A run of `threads` threads over a base array of `Pow2(b)` elements whose size never exceeds `Pow2(limit)`. */
  ghost predicate IsRunOf(states: seq<State>, steps: seq<Step>, threads: nat, b: nat, limit: nat) {
    && IsRun(states, steps) && |states[0].threads| == threads && states[0].b == b
    && forall n :: 0 <= n < |states| ==> states[n].ext.exp <= limit
  }

  /** Every look-up of every such run goes right. */
  ghost predicate AlwaysRight(threads: nat, b: nat, limit: nat) {
    forall states: seq<State>, steps: seq<Step> ::
      IsRunOf(states, steps, threads, b, limit) ==> AllRight(states, steps)
  }

  ghost predicate AllRight(states: seq<State>, steps: seq<Step>)
    requires IsRun(states, steps)
  {
    forall n: nat, t: nat :: n <= |steps| && t < |states[n].threads| ==> Right(states[n], t)
  }

  predicate Safe(threads: nat, b: nat, limit: nat) {
    threads == 0 || b <= 9 || limit <= b + 1 || (threads == 1 && limit <= 20)
  }

  lemma NextExtent(s: State, a: Step)
    requires Enabled(s, a)
    ensures Next(s, a).b == s.b && |Next(s, a).threads| == |s.threads|
    ensures Next(s, a).ext == if a.Extend? then Extended(s.b, s.ext) else s.ext
  {
    hide RunNext, Extended;
  }

  lemma {:induction false} ExtentAt(states: seq<State>, steps: seq<Step>, n: nat)
    requires IsRun(states, steps) && n <= |steps|
    ensures states[n].b == states[0].b && |states[n].threads| == |states[0].threads| && states[n].ext.exp >= 1
    ensures states[n].ext == Extents(states[0].b, 1, states[n].ext.exp - 1)
  {
    hide Enabled, Next, GrowsInPlace;
    if n > 0 {
      ExtentAt(states, steps, n - 1);
      NextExtent(states[n - 1], steps[n - 1]);
    }
  }

  /** Within the limit no index overruns, and an extension is harmless. */
  lemma SafeExtent(threads: nat, b: nat, limit: nat, e: Extent)
    requires Safe(threads, b, limit) && threads > 0 && 1 <= e.exp <= limit && e == Extents(b, 1, e.exp - 1)
    ensures NoOverrun(e)
    ensures Fits(e) || (e.height == 0 && e.exp <= b + 1 && limit <= b + 1) || threads == 1
  {
    if b <= 9 {
      ExtentsFit(b, 1, e.exp - 1);
    } else if limit <= b + 1 {
      StaysOneLeaf(b, 1, e.exp - 1);
    } else {
      FitsMeans(e);
    }
  }

  lemma SafeStep(s: State, a: Step, threads: nat, limit: nat)
    requires Safe(threads, s.b, limit) && threads == |s.threads| && 1 <= s.ext.exp && Enabled(s, a) && a.Extend?
    requires s.ext == Extents(s.b, 1, s.ext.exp - 1) && s.ext.exp + 1 <= limit
    ensures Harmless(s) && NoOverrun(Extended(s.b, s.ext))
  {
    var e' := Extended(s.b, s.ext);
    assert e' == Extents(s.b, 1, e'.exp - 1);
    SafeExtent(threads, s.b, limit, s.ext);
    SafeExtent(threads, s.b, limit, e');
    if limit <= s.b + 1 {
      StaysOneLeaf(s.b, 1, e'.exp - 1);
    }
    hide Fits, GrowsInPlace;
  }

  lemma {:induction false} RunKeeps(states: seq<State>, steps: seq<Step>, threads: nat, b: nat, limit: nat, n: nat)
    requires IsRunOf(states, steps, threads, b, limit) && Safe(threads, b, limit) && n <= |steps| && threads > 0
    ensures Inv(states[n])
  {
    if n == 0 {
      FitsMeans(states[0].ext);
    } else {
      RunKeeps(states, steps, threads, b, limit, n - 1);
      ExtentAt(states, steps, n - 1);
      var s, a := states[n - 1], steps[n - 1];
      assert a.Extend? ==> states[n].ext.exp == s.ext.exp + 1;
      assert states[n].ext.exp <= limit && Enabled(s, a) && states[n] == Next(s, a);
      hide Inv, Next, Enabled, IsRun, Harmless, NoOverrun, Extents;
      if a.Extend? {
        SafeStep(s, a, threads, limit);
      }
      StepKeeps(s, a);
    }
  }

  // ---------------------------------------------------------------- runs that go wrong

  lemma {:induction false} ExtentsExp(b: nat, n: nat)
    ensures Extents(b, 1, n).exp == n + 1
  {
    if n > 0 {
      ExtentsExp(b, n - 1);
    }
  }

  /** A base array of at least 1024 elements has one inner node while the exponent is at most `2 * b + 1`. */
  lemma {:induction false} StaysTwoLevels(b: nat, n: nat)
    requires b < n <= 2 * b
    ensures Extents(b, 1, n) == Extent(1, n + 1)
  {
    if n == b + 1 {
      StaysOneLeaf(b, 1, b);
      GrowsMeans(b, Extent(0, b + 1));
    } else {
      StaysTwoLevels(b, n - 1);
      GrowsMeans(b, Extent(1, n));
    }
  }

  ghost predicate Reaches(states: seq<State>, steps: seq<Step>, threads: nat, b: nat, limit: nat, s: State) {
    IsRunOf(states, steps, threads, b, limit) && states[|steps|] == s
  }

  lemma Go(states: seq<State>, steps: seq<Step>, threads: nat, b: nat, limit: nat, a: Step, s: State, s': State)
    returns (more: seq<State>, longer: seq<Step>)
    requires Reaches(states, steps, threads, b, limit, s) && Enabled(s, a) && s' == Next(s, a) && s'.ext.exp <= limit
    ensures Reaches(more, longer, threads, b, limit, s')
  {
    more, longer := states + [s'], steps + [a];
    hide Init, Enabled, Next;
    forall i | 0 <= i < |longer| ensures Enabled(more[i], longer[i]) && more[i + 1] == Next(more[i], longer[i]) {
      if i < |steps| {
        assert more[i] == states[i] && more[i + 1] == states[i + 1] && longer[i] == steps[i];
      }
    }
  }

  function Resting(threads: nat): seq<Thread> { seq(threads, _ => Idle) }

  /** Thread 0 extends the table `k` times. */
  lemma {:induction false} ExtendTo(threads: nat, b: nat, limit: nat, k: nat)
    returns (states: seq<State>, steps: seq<Step>)
    requires threads > 0 && k + 1 <= limit
    ensures Reaches(states, steps, threads, b, limit, State(b, Extents(b, 1, k), map[0 := 0], Resting(threads)))
  {
    ExtentsExp(b, k);
    if k == 0 {
      states, steps := [State(b, Extent(0, 1), map[0 := 0], Resting(threads))], [];
    } else {
      states, steps := ExtendTo(threads, b, limit, k - 1);
      hide Reaches, GrowsInPlace;
      var s := State(b, Extents(b, 1, k - 1), map[0 := 0], Resting(threads));
      var s' := State(b, Extents(b, 1, k), map[0 := 0], Resting(threads));
      states, steps := Go(states, steps, threads, b, limit, Extend(0), s, s');
    }
  }

  /** Bucket 2^20 is below the size, and its place is beyond the root's array. */
  lemma Overruns(threads: nat, b: nat, limit: nat) returns (states: seq<State>, steps: seq<Step>)
    requires threads > 0 && b >= 10 && limit >= 21 && limit >= b + 2
    ensures IsRunOf(states, steps, threads, b, limit) && |states[|steps|].threads| > 0
    ensures !Right(states[|steps|], 0)
  {
    var e, i := if b + 2 > 21 then b + 2 else 21, Capacity(2);
    StaysTwoLevels(b, e - 1);
    CapacityIs(2);
    Pow2Order(e, 20);
    states, steps := ExtendTo(threads, b, limit, e - 1);
    var s := State(b, Extent(1, e), map[0 := 0], Resting(threads));
    var s' := s.(threads := s.threads[0 := Busy(i, [], i, Locate)]);
    hide Capacity, Pow2;
    states, steps := Go(states, steps, threads, b, limit, Begin(0, i), s, s');
  }

  // ---------------------------------------------------------------- a null slot is returned

  /** Thread 1 works, the others are between calls. */
  function Working(b: nat, e: Extent, slots: map<nat, nat>, th: Thread, rest: seq<Thread>): State {
    State(b, e, slots, [Idle, th] + rest)
  }

  const BUCKET: nat := 1025
  const START: map<nat, nat> := map[0 := 0]
  const FILLED: map<nat, nat> := map[0 := 0, 1 := 1]

  lemma ParentOfBucket()
    ensures Parent(BUCKET) == 1 && Parent(1) == 0
  {
    TenBits();
    TopBitUnique(BUCKET, 10);
    TopBitUnique(1, 0);
  }

  lemma WalkFromHead(
    states0: seq<State>, steps0: seq<Step>, b: nat, limit: nat, exp: nat, rest: seq<Thread>)
    returns (states: seq<State>, steps: seq<Step>)
    requires exp <= limit
    requires Reaches(states0, steps0, |rest| + 2, b, limit,
                     Working(b, Extent(0, exp), START, Busy(BUCKET, [Frame(BUCKET, 1)], 1, LocateParent), rest))
    ensures Reaches(states, steps, |rest| + 2, b, limit,
                    Working(b, Extent(0, exp), START, Busy(BUCKET, [Frame(BUCKET, 1)], 1, LocateCheck), rest))
  {
    ParentOfBucket();
    hide Reaches, Parent;
    var n, e, fs := |rest| + 2, Extent(0, exp), [Frame(BUCKET, 1)];
    var s5 := Working(b, e, START, Busy(BUCKET, fs, 1, LocateParent), rest);
    var s6 := Working(b, e, START, Busy(BUCKET, fs, 1, LoadParent(0)), rest);
    states, steps := Go(states0, steps0, n, b, limit, Run(1), s5, s6);
    var s7 := Working(b, e, START, Busy(BUCKET, fs, 1, Walk(0)), rest);
    states, steps := Go(states, steps, n, b, limit, Run(1), s6, s7);
    var s8 := Working(b, e, START, Busy(BUCKET, fs, 1, LocateCheck), rest);
    states, steps := Go(states, steps, n, b, limit, Run(1), s7, s8);
  }

  /** At height 0 bucket 1025 shares the slot of bucket 1: first the sentinel of bucket 1 is created. */
  lemma CreateParent(
    states0: seq<State>, steps0: seq<Step>, b: nat, limit: nat, exp: nat, rest: seq<Thread>)
    returns (states: seq<State>, steps: seq<Step>)
    requires exp <= limit && BUCKET < Pow2(exp)
    requires Reaches(states0, steps0, |rest| + 2, b, limit, Working(b, Extent(0, exp), START, Idle, rest))
    ensures Reaches(states, steps, |rest| + 2, b, limit,
                    Working(b, Extent(0, exp), START, Busy(BUCKET, [Frame(BUCKET, 1)], 1, LocateCheck), rest))
  {
    ParentOfBucket();
    hide Reaches, Parent, Pow2;
    var n, e := |rest| + 2, Extent(0, exp);
    var s0 := Working(b, e, START, Idle, rest);
    var s1 := Working(b, e, START, Busy(BUCKET, [], BUCKET, Locate), rest);
    states, steps := Go(states0, steps0, n, b, limit, Begin(1, BUCKET), s0, s1);
    var s2 := Working(b, e, START, Busy(BUCKET, [], BUCKET, Load(1)), rest);
    states, steps := Go(states, steps, n, b, limit, Run(1), s1, s2);
    var s3 := Working(b, e, START, Busy(BUCKET, [], BUCKET, LocateParent), rest);
    states, steps := Go(states, steps, n, b, limit, Run(1), s2, s3);
    var s4 := Working(b, e, START, Busy(BUCKET, [], BUCKET, LoadParent(1)), rest);
    states, steps := Go(states, steps, n, b, limit, Run(1), s3, s4);
    assert [] + [Frame(BUCKET, 1)] == [Frame(BUCKET, 1)];
    var s5 := Working(b, e, START, Busy(BUCKET, [Frame(BUCKET, 1)], 1, LocateParent), rest);
    states, steps := Go(states, steps, n, b, limit, Run(1), s4, s5);
    states, steps := WalkFromHead(states, steps, b, limit, exp, rest);
  }

  /** The slot is filled with it, so nothing is stored for bucket 1025. */
  lemma StoreParent(
    states0: seq<State>, steps0: seq<Step>, b: nat, limit: nat, exp: nat, rest: seq<Thread>)
    returns (states: seq<State>, steps: seq<Step>)
    requires exp <= limit
    requires Reaches(states0, steps0, |rest| + 2, b, limit,
                     Working(b, Extent(0, exp), START, Busy(BUCKET, [Frame(BUCKET, 1)], 1, LocateCheck), rest))
    ensures Reaches(states, steps, |rest| + 2, b, limit,
                    Working(b, Extent(0, exp), FILLED, Busy(BUCKET, [], BUCKET, LocateReturn), rest))
  {
    hide Reaches;
    var n, e, fs := |rest| + 2, Extent(0, exp), [Frame(BUCKET, 1)];
    var s0 := Working(b, e, START, Busy(BUCKET, fs, 1, LocateCheck), rest);
    var s1 := Working(b, e, START, Busy(BUCKET, fs, 1, Check(1)), rest);
    states, steps := Go(states0, steps0, n, b, limit, Run(1), s0, s1);
    var s2 := Working(b, e, START, Busy(BUCKET, fs, 1, LocateStore), rest);
    states, steps := Go(states, steps, n, b, limit, Run(1), s1, s2);
    var s3 := Working(b, e, START, Busy(BUCKET, fs, 1, Store(1)), rest);
    states, steps := Go(states, steps, n, b, limit, Run(1), s2, s3);
    assert fs[..0] == [];
    var s4 := Working(b, e, FILLED, Busy(BUCKET, [], BUCKET, Walk(1)), rest);
    states, steps := Go(states, steps, n, b, limit, Run(1), s3, s4);
    var s5 := Working(b, e, FILLED, Busy(BUCKET, [], BUCKET, LocateCheck), rest);
    states, steps := Go(states, steps, n, b, limit, Run(1), s4, s5);
    var s6 := Working(b, e, FILLED, Busy(BUCKET, [], BUCKET, Check(1)), rest);
    states, steps := Go(states, steps, n, b, limit, Run(1), s5, s6);
    var s7 := Working(b, e, FILLED, Busy(BUCKET, [], BUCKET, LocateReturn), rest);
    states, steps := Go(states, steps, n, b, limit, Run(1), s6, s7);
  }

  /**
    While a look-up of bucket 1025 is between its last check and its return, another thread's
    extension gives the table a second level.  The slot that is returned is the bucket's new one,
    which is null.
  */
  lemma NullReturned(threads: nat, b: nat, limit: nat) returns (states: seq<State>, steps: seq<Step>)
    requires threads >= 2 && b >= 10 && limit >= b + 2
    ensures IsRunOf(states, steps, threads, b, limit) && |states[|steps|].threads| > 1
    ensures states[|steps|].threads[1] == Busy(BUCKET, [], BUCKET, Return(BUCKET)) && BUCKET !in states[|steps|].slots
  {
    var rest, e := Resting(threads - 2), Extent(0, b + 1);
    StaysOneLeaf(b, 1, b);
    TenBits();
    Pow2Order(11, b + 1);
    assert Pow2(11) == 2048;
    states, steps := ExtendTo(threads, b, limit, b);
    assert Resting(threads) == [Idle, Idle] + rest;
    states, steps := CreateParent(states, steps, b, limit, b + 1, rest);
    states, steps := StoreParent(states, steps, b, limit, b + 1, rest);
    states, steps := AfterExtension(states, steps, b, limit, rest);
  }

  lemma AfterExtension(states0: seq<State>, steps0: seq<Step>, b: nat, limit: nat, rest: seq<Thread>)
    returns (states: seq<State>, steps: seq<Step>)
    requires b >= 10 && limit >= b + 2
    requires Reaches(states0, steps0, |rest| + 2, b, limit,
                     Working(b, Extent(0, b + 1), FILLED, Busy(BUCKET, [], BUCKET, LocateReturn), rest))
    ensures Reaches(states, steps, |rest| + 2, b, limit,
                    Working(b, Extent(1, b + 2), FILLED, Busy(BUCKET, [], BUCKET, Return(BUCKET)), rest))
  {
    GrowsMeans(b, Extent(0, b + 1));
    assert BUCKET < Capacity(2) by {
      assert Capacity(2) == SLOTS * Capacity(1) && Capacity(1) == SLOTS * Capacity(0);
    }
    hide Reaches, Capacity, GrowsInPlace;
    var th := Busy(BUCKET, [], BUCKET, LocateReturn);
    var s0, s1 := Working(b, Extent(0, b + 1), FILLED, th, rest), Working(b, Extent(1, b + 2), FILLED, th, rest);
    states, steps := Go(states0, steps0, |rest| + 2, b, limit, Extend(0), s0, s1);
    var s2 := Working(b, Extent(1, b + 2), FILLED, th.(pc := Return(BUCKET)), rest);
    states, steps := Go(states, steps, |rest| + 2, b, limit, Run(1), s1, s2);
  }

  // ---------------------------------------------------------------- exactly when the slots can be trusted

  /**
    In every run of `threads` threads that keeps the size at most `Pow2(limit)`, each look-up of a
    bucket stays within the arrays and returns a filled slot whose sentinel a search may start
    from, if and only if the base array has at most 512 elements, or the size never exceeds twice
    the base array, or there is one thread and the size never exceeds 2^20.
  */
  lemma AlwaysRightIff(threads: nat, b: nat, limit: nat)
    ensures AlwaysRight(threads, b, limit) <==>
              threads == 0 || b <= 9 || limit <= b + 1 || (threads == 1 && limit <= 20)
  {
    if Safe(threads, b, limit) {
      forall states: seq<State>, steps: seq<Step> | IsRunOf(states, steps, threads, b, limit)
        ensures AllRight(states, steps)
      {
        forall n: nat, t: nat | n <= |steps| && t < |states[n].threads| ensures Right(states[n], t) {
          ExtentAt(states, steps, n);
          RunKeeps(states, steps, threads, b, limit, n);
          InvIsRight(states[n], t);
        }
      }
    } else {
      NotAlways(threads, b, limit);
    }
  }

  lemma NotAlways(threads: nat, b: nat, limit: nat)
    requires !Safe(threads, b, limit)
    ensures !AlwaysRight(threads, b, limit)
  {
    if threads >= 2 {
      var states, steps := NullReturned(threads, b, limit);
      assert !Right(states[|steps|], 1);
      hide Right;
      assert !AllRight(states, steps);
    } else {
      var states, steps := Overruns(threads, b, limit);
      hide Right;
      assert !AllRight(states, steps);
    }
  }

  /** The default base array: right up to 2^11 buckets, or up to 2^20 if there is one thread. */
  lemma DefaultIsRightIff(threads: nat, limit: nat)
    ensures AlwaysRight(threads, 10, limit) <==> threads == 0 || limit <= if threads == 1 then 20 else 11
  {
    AlwaysRightIff(threads, 10, limit);
  }
}
