/**
  The global list of retired pointers under interference: threads that exit append their whole
  list with a CAS loop, others exchange the head for null and take the nodes over one by one.

  Cells are reused: a scan frees nodes, and a later `retire` may get a freed cell again.  The
  hazard slots decide which nodes a scan keeps; here that is its free choice.
*/
module RetiredLists {
  import opened Sequences

  const NULL: int := -1

  datatype Pc = Idle | ExitLoad | ExitCas | Exited | AdoptLook | AdoptTake | AdoptMove(cur: int)

  /** A thread with the nodes of its own list, first node first. */
  datatype Thread = Thread(list: seq<int>, pc: Pc)

  datatype State = State(next: seq<int>, alive: seq<bool>, head: int, threads: seq<Thread>)

  /** `Retire` puts cell `n` in front of the list; `Scan` frees all nodes of the list but `kept`. */
  datatype Step =
    | Retire(t: nat, n: int)
    | Scan(t: nat, kept: seq<int>)
    | BeginAdopt(t: nat)
    | BeginExit(t: nat)
    | Run(t: nat)
    | FailSpuriously(t: nat)

  predicate IsCell(s: State, n: int) { 0 <= n < |s.next| }

  ghost predicate Init(s: State) {
    && |s.alive| == |s.next| && (forall n :: 0 <= n < |s.alive| ==> !s.alive[n]) && s.head == NULL
    && forall t :: 0 <= t < |s.threads| ==> s.threads[t] == Thread([], Idle)
  }

  function First(l: seq<int>): int { if l == [] then NULL else l[0] }

  function Last(l: seq<int>): int
    requires l != []
  {
    l[|l| - 1]
  }

  ghost predicate Enabled(s: State, a: Step) {
    && a.t < |s.threads| && |s.alive| == |s.next|
    && var th := s.threads[a.t];
       match a
       case Retire(_, n) => th.pc.Idle? && IsCell(s, n) && !s.alive[n]
       case Scan(_, kept) =>
         th.pc.Idle? && Distinct(kept) && (forall i :: 0 <= i < |kept| ==> kept[i] in th.list) && AllCells(s, th.list)
       case BeginAdopt(_) => th.pc.Idle?
       case BeginExit(_) => th.pc.Idle?
       case FailSpuriously(_) => th.pc.ExitCas? && th.list != [] && IsCell(s, Last(th.list))
       case Run(_) =>
         match th.pc
         case Idle => false
         case Exited => false
         case ExitLoad => th.list != [] ==> IsCell(s, Last(th.list))
         case ExitCas => th.list != [] && IsCell(s, Last(th.list))
         case AdoptMove(cur) => cur != NULL ==> IsCell(s, cur)
         case _ => true
  }

  predicate AllCells(s: State, l: seq<int>) { forall i :: 0 <= i < |l| ==> IsCell(s, l[i]) }

  /** The links of `l`, last node to null. */
  function Relink(next: seq<int>, l: seq<int>): (r: seq<int>)
    requires forall i :: 0 <= i < |l| ==> 0 <= l[i] < |next|
    ensures |r| == |next| && forall n :: 0 <= n < |next| && n !in l ==> r[n] == next[n]
  {
    if l == [] then next else Relink(next, l[1..])[l[0] := First(l[1..])]
  }

  ghost function Kill(alive: seq<bool>, list: seq<int>, kept: seq<int>): (r: seq<bool>)
    ensures |r| == |alive|
    ensures forall n :: 0 <= n < |alive| ==> r[n] == (alive[n] && !(n in list && n !in kept))
  {
    seq(|alive|, n requires 0 <= n < |alive| => alive[n] && !(n in list && n !in kept))
  }

  function Put(s: State, t: nat, th: Thread): State
    requires t < |s.threads|
  {
    s.(threads := s.threads[t := th])
  }

  ghost function Next(s: State, a: Step): (s': State)
    requires Enabled(s, a)
    ensures |s'.threads| == |s.threads| && s'.threads == s.threads[a.t := s'.threads[a.t]]
    ensures |s'.next| == |s.next| && |s'.alive| == |s.alive|
  {
    var t, th := a.t, s.threads[a.t];
    match a
    case Retire(_, n) =>
      Put(s.(next := s.next[n := First(th.list)], alive := s.alive[n := true]), t, Thread([n] + th.list, Idle))
    case Scan(_, kept) =>
      Put(s.(next := Relink(s.next, kept), alive := Kill(s.alive, th.list, kept)), t, Thread(kept, Idle))
    case BeginAdopt(_) => Put(s, t, th.(pc := AdoptLook))
    case BeginExit(_) => Put(s, t, th.(pc := ExitLoad))
    case FailSpuriously(_) => s.(next := s.next[Last(th.list) := s.head])
    case Run(_) =>
      match th.pc
      case ExitLoad =>
        if th.list == [] then Put(s, t, th.(pc := Exited))
        else Put(s.(next := s.next[Last(th.list) := s.head]), t, th.(pc := ExitCas))
      case ExitCas =>
        if s.head == s.next[Last(th.list)] then Put(s.(head := th.list[0]), t, Thread([], Exited))
        else s.(next := s.next[Last(th.list) := s.head])
      case AdoptLook => Put(s, t, th.(pc := if s.head == NULL then Idle else AdoptTake))
      case AdoptTake => Put(s.(head := NULL), t, th.(pc := AdoptMove(s.head)))
      case AdoptMove(cur) =>
        if cur == NULL then Put(s, t, th.(pc := Idle))
        else Put(s.(next := s.next[cur := First(th.list)]), t, Thread([cur] + th.list, AdoptMove(s.next[cur])))
  }

  // ---------------------------------------------------------------- the invariant

  datatype Loc = Free | InGlobal | Local(t: nat) | Moving(t: nat)

  /** Where each cell is, the global list, and what each adopting thread has still to take over. */
  datatype Aux = Aux(loc: seq<Loc>, glob: seq<int>, rests: seq<seq<int>>)

  /** `l` lists exactly the cells at `place`, each once. */
  ghost predicate Lists(loc: seq<Loc>, l: seq<int>, place: Loc) {
    && Distinct(l)
    && (forall i :: 0 <= i < |l| ==> 0 <= l[i] < |loc| && loc[l[i]] == place)
    && (forall n :: 0 <= n < |loc| && loc[n] == place ==> n in l)
  }

  /** The links inside `l`. */
  ghost predicate Links(next: seq<int>, l: seq<int>) {
    && (forall i :: 0 <= i < |l| ==> 0 <= l[i] < |next|)
    && (forall i :: 0 <= i < |l| - 1 ==> next[l[i]] == l[i + 1])
  }

  /** The links from `head` run through `l` to null. */
  ghost predicate Chain(next: seq<int>, head: int, l: seq<int>) {
    && head == First(l) && Links(next, l) && (l != [] ==> next[Last(l)] == NULL)
  }

  ghost predicate ThreadOk(next: seq<int>, x: Aux, t: nat, th: Thread)
    requires t < |x.rests|
  {
    && Lists(x.loc, th.list, Local(t)) && Links(next, th.list)
    && (th.pc.ExitCas? ==> th.list != [])
    && (th.list != [] && !th.pc.ExitCas? ==> next[Last(th.list)] == NULL)
    && Lists(x.loc, x.rests[t], Moving(t))
    && (if th.pc.AdoptMove? then Chain(next, th.pc.cur, x.rests[t]) else x.rests[t] == [])
  }

  ghost predicate AliveOk(alive: seq<bool>, loc: seq<Loc>) {
    |alive| == |loc| && forall n :: 0 <= n < |loc| ==> (alive[n] <==> loc[n] != Free)
  }

  ghost predicate OwnersOk(loc: seq<Loc>, threads: nat) {
    forall n :: 0 <= n < |loc| ==> (loc[n].Local? || loc[n].Moving?) ==> loc[n].t < threads
  }

  ghost predicate Inv(s: State, x: Aux) {
    && |s.next| == |x.loc| && |x.rests| == |s.threads|
    && AliveOk(s.alive, x.loc) && OwnersOk(x.loc, |s.threads|)
    && Lists(x.loc, x.glob, InGlobal) && Chain(s.next, s.head, x.glob)
    && forall t :: 0 <= t < |s.threads| ==> ThreadOk(s.next, x, t, s.threads[t])
  }

  function Relocate(loc: seq<Loc>, from: Loc, to: Loc): (r: seq<Loc>)
    ensures |r| == |loc|
    ensures forall n :: 0 <= n < |loc| ==> r[n] == if loc[n] == from then to else loc[n]
  {
    seq(|loc|, n requires 0 <= n < |loc| => if loc[n] == from then to else loc[n])
  }

  ghost function Dropped(loc: seq<Loc>, list: seq<int>, kept: seq<int>): (r: seq<Loc>)
    ensures |r| == |loc|
    ensures forall n :: 0 <= n < |loc| ==> r[n] == if n in list && n !in kept then Free else loc[n]
  {
    seq(|loc|, n requires 0 <= n < |loc| => if n in list && n !in kept then Free else loc[n])
  }

  ghost function AuxNext(s: State, a: Step, x: Aux): Aux
    requires Enabled(s, a) && |x.rests| == |s.threads| && |x.loc| == |s.next|
  {
    var t, th := a.t, s.threads[a.t];
    match a
    case Retire(_, n) => x.(loc := x.loc[n := Local(t)])
    case Scan(_, kept) => x.(loc := Dropped(x.loc, th.list, kept))
    case Run(_) =>
      (match th.pc
       case ExitCas =>
         if s.head == s.next[Last(th.list)] then
           x.(loc := Relocate(x.loc, Local(t), InGlobal), glob := th.list + x.glob)
         else x
       case AdoptTake => Aux(Relocate(x.loc, InGlobal, Moving(t)), [], x.rests[t := x.glob])
       case AdoptMove(cur) =>
         if cur != NULL && x.rests[t] != [] then
           x.(loc := x.loc[cur := Local(t)], rests := x.rests[t := x.rests[t][1..]])
         else x
       case _ => x)
    case _ => x
  }

  // ---------------------------------------------------------------- frames

  /** A step of `t` touches no cell of another thread, and hands it none. */
  ghost predicate Elsewhere(l: Loc, t: nat) { (l.Local? || l.Moving?) && l.t != t }

  ghost predicate Spares(next: seq<int>, x: Aux, next': seq<int>, x': Aux, t: nat) {
    && |next'| == |next| == |x.loc| == |x'.loc|
    && (forall n :: 0 <= n < |x.loc| && Elsewhere(x.loc[n], t) ==> x'.loc[n] == x.loc[n] && next'[n] == next[n])
    && (forall n :: 0 <= n < |x.loc| && Elsewhere(x'.loc[n], t) ==> x'.loc[n] == x.loc[n])
    && |x'.rests| == |x.rests| && (forall u :: 0 <= u < |x.rests| && u != t ==> x'.rests[u] == x.rests[u])
  }

  lemma OtherKeeps(next: seq<int>, x: Aux, next': seq<int>, x': Aux, t: nat, u: nat, th: Thread)
    requires Spares(next, x, next', x', t) && u < |x.rests| && u != t && ThreadOk(next, x, u, th)
    ensures ThreadOk(next', x', u, th)
  {
    SameLists(x, x', th.list, Local(u), t);
    SameLists(x, x', x.rests[u], Moving(u), t);
    assert forall i :: 0 <= i < |th.list| ==> next'[th.list[i]] == next[th.list[i]];
    assert forall i :: 0 <= i < |x.rests[u]| ==> next'[x.rests[u][i]] == next[x.rests[u][i]];
    hide Lists;
  }

  lemma SameLists(x: Aux, x': Aux, l: seq<int>, place: Loc, t: nat)
    requires Lists(x.loc, l, place) && Elsewhere(place, t) && |x'.loc| == |x.loc|
    requires forall n :: 0 <= n < |x.loc| && Elsewhere(x.loc[n], t) ==> x'.loc[n] == x.loc[n]
    requires forall n :: 0 <= n < |x.loc| && Elsewhere(x'.loc[n], t) ==> x'.loc[n] == x.loc[n]
    ensures Lists(x'.loc, l, place)
  {
  }

  /** What a step lemma establishes. */
  ghost predicate StepOk(s: State, x: Aux, s': State, x': Aux, t: nat) {
    && t < |s.threads| == |s'.threads| == |x.rests| && s'.threads == s.threads[t := s'.threads[t]]
    && Spares(s.next, x, s'.next, x', t)
    && AliveOk(s'.alive, x'.loc) && OwnersOk(x'.loc, |s.threads|)
    && Lists(x'.loc, x'.glob, InGlobal) && Chain(s'.next, s'.head, x'.glob)
    && ThreadOk(s'.next, x', t, s'.threads[t])
  }

  lemma Frame(s: State, x: Aux, s': State, x': Aux, t: nat)
    requires Inv(s, x) && StepOk(s, x, s', x', t)
    ensures Inv(s', x')
  {
    hide Lists, Chain, Links, ThreadOk, AliveOk, OwnersOk;
    forall u | 0 <= u < |s'.threads| && u != t ensures ThreadOk(s'.next, x', u, s'.threads[u]) {
      hide Spares;
      OtherKeeps(s.next, x, s'.next, x', t, u, s.threads[u]);
    }
  }

  lemma Parts(s: State, x: Aux, s': State, x': Aux, t: nat)
    requires t < |s.threads| == |s'.threads| == |x.rests| && s'.threads == s.threads[t := s'.threads[t]]
    requires Spares(s.next, x, s'.next, x', t)
    requires AliveOk(s'.alive, x'.loc) && OwnersOk(x'.loc, |s.threads|)
    requires Lists(x'.loc, x'.glob, InGlobal) && Chain(s'.next, s'.head, x'.glob)
    requires ThreadOk(s'.next, x', t, s'.threads[t])
    ensures StepOk(s, x, s', x', t)
  {
    hide Spares, AliveOk, OwnersOk, Lists, Chain, ThreadOk;
  }

  // ---------------------------------------------------------------- the steps

  lemma FrontLists(loc: seq<Loc>, l: seq<int>, n: int, place: Loc)
    requires Lists(loc, l, place) && 0 <= n < |loc| && loc[n] != place
    ensures Lists(loc[n := place], [n] + l, place) && n !in l
  {
    var l', loc' := [n] + l, loc[n := place];
    assert forall i :: 0 < i < |l'| ==> l'[i] == l[i - 1];
    assert l'[0] == n;
    forall m | 0 <= m < |loc'| && loc'[m] == place ensures m in l' {
      if m != n {
        var i :| 0 <= i < |l| && l[i] == m;
        assert l'[i + 1] == m;
      }
    }
  }

  lemma FrontLinks(next: seq<int>, l: seq<int>, n: int)
    requires Links(next, l) && (l != [] ==> next[Last(l)] == NULL) && 0 <= n < |next| && n !in l
    ensures Links(next[n := First(l)], [n] + l) && next[n := First(l)][Last([n] + l)] == NULL
  {
    var l', next' := [n] + l, next[n := First(l)];
    assert l'[0] == n && forall i :: 0 < i < |l'| ==> l'[i] == l[i - 1];
    forall i | 0 <= i < |l'| - 1 ensures next'[l'[i]] == l'[i + 1] {
      if i > 0 {
        assert next[l[i - 1]] == l[i];
      }
    }
  }

  lemma PutInFront(next: seq<int>, loc: seq<Loc>, l: seq<int>, n: int, place: Loc)
    requires Lists(loc, l, place) && Links(next, l) && (l != [] ==> next[Last(l)] == NULL)
    requires 0 <= n < |loc| == |next| && loc[n] != place
    ensures Lists(loc[n := place], [n] + l, place) && Links(next[n := First(l)], [n] + l)
    ensures next[n := First(l)][Last([n] + l)] == NULL
  {
    hide Lists, Links;
    FrontLists(loc, l, n, place);
    FrontLinks(next, l, n);
  }

  /** Cells of other lists do not matter. */
  lemma OffList(next: seq<int>, loc: seq<Loc>, l: seq<int>, place: Loc, n: int, m: int, to: Loc)
    requires Lists(loc, l, place) && 0 <= n < |loc| == |next| && loc[n] != place && to != place
    ensures Lists(loc[n := to], l, place)
    ensures Links(next, l) ==> Links(next[n := m], l)
    ensures l != [] && 0 <= Last(l) < |next| ==> next[n := m][Last(l)] == next[Last(l)]
  {
  }

  lemma StepRetire(s: State, x: Aux, t: nat, n: int)
    requires Inv(s, x) && Enabled(s, Retire(t, n))
    ensures StepOk(s, x, Next(s, Retire(t, n)), AuxNext(s, Retire(t, n), x), t)
  {
    var th := s.threads[t];
    assert ThreadOk(s.next, x, t, th) && x.loc[n] == Free;
    PutInFront(s.next, x.loc, th.list, n, Local(t));
    OffList(s.next, x.loc, x.glob, InGlobal, n, First(th.list), Local(t));
    OffList(s.next, x.loc, x.rests[t], Moving(t), n, First(th.list), Local(t));
    var s', x' := Next(s, Retire(t, n)), AuxNext(s, Retire(t, n), x);
    hide Lists, Links;
    Parts(s, x, s', x', t);
  }

  lemma {:induction false} RelinkLinks(next: seq<int>, l: seq<int>)
    requires Distinct(l) && forall i :: 0 <= i < |l| ==> 0 <= l[i] < |next|
    ensures Links(Relink(next, l), l) && (l != [] ==> Relink(next, l)[Last(l)] == NULL)
  {
    if l != [] {
      RelinkLinks(next, l[1..]);
      assert forall i :: 0 <= i < |l[1..]| ==> l[1..][i] != l[0];
      var r := Relink(next, l);
      forall i | 0 <= i < |l| - 1 ensures r[l[i]] == l[i + 1] {
        if i > 0 {
          assert Relink(next, l[1..])[l[1..][i - 1]] == l[1..][i];
        }
      }
    }
  }

  /** A list whose cells keep their place and their links. */
  lemma Untouched(next: seq<int>, loc: seq<Loc>, next': seq<int>, loc': seq<Loc>, l: seq<int>, place: Loc)
    requires Lists(loc, l, place) && |loc'| == |loc| == |next| == |next'|
    requires forall n :: 0 <= n < |loc| ==> (loc[n] == place <==> loc'[n] == place)
    requires forall n :: 0 <= n < |loc| && loc[n] == place ==> next'[n] == next[n]
    ensures Lists(loc', l, place)
    ensures forall head :: Chain(next, head, l) ==> Chain(next', head, l)
  {
  }

  lemma KeptLists(loc: seq<Loc>, list: seq<int>, kept: seq<int>, place: Loc)
    requires Lists(loc, list, place) && Distinct(kept) && place != Free
    requires forall i :: 0 <= i < |kept| ==> kept[i] in list
    ensures Lists(Dropped(loc, list, kept), kept, place)
    ensures forall i :: 0 <= i < |kept| ==> 0 <= kept[i] < |loc| && loc[kept[i]] == place
    ensures forall n :: 0 <= n < |loc| && n in list ==> loc[n] == place
  {
    forall i | 0 <= i < |kept| ensures 0 <= kept[i] < |loc| && loc[kept[i]] == place {
      var j :| 0 <= j < |list| && list[j] == kept[i];
    }
  }

  lemma ScanShape(s: State, x: Aux, t: nat, kept: seq<int>)
    requires Enabled(s, Scan(t, kept)) && |x.rests| == |s.threads| && |x.loc| == |s.next|
    ensures (forall i :: 0 <= i < |kept| ==> IsCell(s, kept[i])) && Distinct(kept)
    ensures forall i :: 0 <= i < |kept| ==> kept[i] in s.threads[t].list
    ensures var th, a := s.threads[t], Scan(t, kept);
            && Next(s, a)
                 == State(Relink(s.next, kept), Kill(s.alive, th.list, kept), s.head,
                          s.threads[t := Thread(kept, Idle)])
            && AuxNext(s, a, x) == x.(loc := Dropped(x.loc, th.list, kept))
  {
    forall i | 0 <= i < |kept| ensures IsCell(s, kept[i]) {
      assert kept[i] in s.threads[t].list;
    }
  }

  /** A scan changes nothing about the cells that are not on the thread's list. */
  ghost predicate OffTheList(next: seq<int>, loc: seq<Loc>, next': seq<int>, loc': seq<Loc>, t: nat) {
    && |next| == |next'| == |loc| == |loc'|
    && (forall n :: 0 <= n < |loc| && loc[n] != Local(t) ==> loc'[n] == loc[n] && next'[n] == next[n])
    && (forall n :: 0 <= n < |loc| && loc[n] == Local(t) ==> loc'[n] == Local(t) || loc'[n] == Free)
  }

  lemma ScanElsewhere(next: seq<int>, loc: seq<Loc>, t: nat, list: seq<int>, kept: seq<int>)
    requires |next| == |loc| && Lists(loc, list, Local(t))
    requires forall i :: 0 <= i < |kept| ==> kept[i] in list && 0 <= kept[i] < |next| && loc[kept[i]] == Local(t)
    ensures OffTheList(next, loc, Relink(next, kept), Dropped(loc, list, kept), t)
  {
    hide Relink;
    assert forall n :: n in kept ==> loc[n] == Local(t);
    assert forall n :: n in list ==> loc[n] == Local(t);
  }

  lemma OffTheListSpares(next: seq<int>, x: Aux, next': seq<int>, loc': seq<Loc>, t: nat)
    requires OffTheList(next, x.loc, next', loc', t)
    ensures Spares(next, x, next', x.(loc := loc'), t)
  {
  }

  lemma OffTheListUntouched(
    next: seq<int>, loc: seq<Loc>, next': seq<int>, loc': seq<Loc>, t: nat, l: seq<int>, place: Loc)
    requires OffTheList(next, loc, next', loc', t) && Lists(loc, l, place) && place != Local(t) && place != Free
    ensures Lists(loc', l, place) && forall head :: Chain(next, head, l) ==> Chain(next', head, l)
  {
    hide Lists, Chain;
    Untouched(next, loc, next', loc', l, place);
  }

  lemma ScanKeeps(next: seq<int>, x: Aux, t: nat, th: Thread, kept: seq<int>)
    requires t < |x.rests| && |next| == |x.loc| && ThreadOk(next, x, t, th) && th.pc.Idle?
    requires Distinct(kept) && forall i :: 0 <= i < |kept| ==> kept[i] in th.list && 0 <= kept[i] < |next|
    ensures var next', loc' := Relink(next, kept), Dropped(x.loc, th.list, kept);
            OffTheList(next, x.loc, next', loc', t) && ThreadOk(next', x.(loc := loc'), t, Thread(kept, Idle))
  {
    var next', loc' := Relink(next, kept), Dropped(x.loc, th.list, kept);
    hide Lists, Links, Chain, Relink, OffTheList;
    KeptLists(x.loc, th.list, kept, Local(t));
    RelinkLinks(next, kept);
    ScanElsewhere(next, x.loc, t, th.list, kept);
    OffTheListUntouched(next, x.loc, next', loc', t, x.rests[t], Moving(t));
  }

  lemma ScanMarks(s: State, x: Aux, t: nat, kept: seq<int>)
    requires t < |s.threads| && AliveOk(s.alive, x.loc) && OwnersOk(x.loc, |s.threads|)
    ensures AliveOk(Kill(s.alive, s.threads[t].list, kept), Dropped(x.loc, s.threads[t].list, kept))
    ensures OwnersOk(Dropped(x.loc, s.threads[t].list, kept), |s.threads|)
  {
  }

  lemma StepScan(s: State, x: Aux, t: nat, kept: seq<int>)
    requires Inv(s, x) && Enabled(s, Scan(t, kept))
    ensures StepOk(s, x, Next(s, Scan(t, kept)), AuxNext(s, Scan(t, kept), x), t)
  {
    var th := s.threads[t];
    assert ThreadOk(s.next, x, t, th) && th.pc.Idle?;
    ScanShape(s, x, t, kept);
    hide Lists, Links, Chain, Enabled, Next, AuxNext, Relink, ThreadOk, Spares, AliveOk, OwnersOk, OffTheList;
    ScanKeeps(s.next, x, t, th, kept);
    ScanMarks(s, x, t, kept);
    OffTheListSpares(s.next, x, Relink(s.next, kept), Dropped(x.loc, th.list, kept), t);
    OffTheListUntouched(s.next, x.loc, Relink(s.next, kept), Dropped(x.loc, th.list, kept), t, x.glob, InGlobal);
    Parts(s, x, Next(s, Scan(t, kept)), AuxNext(s, Scan(t, kept), x), t);
  }

  /** The thread's CAS finds the head it expects. */
  predicate Appends(s: State, a: Step) {
    && a.Run? && a.t < |s.threads| && s.threads[a.t].pc.ExitCas? && s.threads[a.t].list != []
    && IsCell(s, Last(s.threads[a.t].list)) && s.head == s.next[Last(s.threads[a.t].list)]
  }

  /** Steps that leave all cells where they are; the last link of the thread's list may change. */
  predicate Stays(s: State, a: Step) {
    && a.t < |s.threads| && !a.Retire? && !a.Scan? && !Appends(s, a)
    && (a.Run? ==> !s.threads[a.t].pc.AdoptTake? && (s.threads[a.t].pc.AdoptMove? ==> s.threads[a.t].pc.cur == NULL))
  }

  lemma StaysSame(s: State, x: Aux, a: Step)
    requires Enabled(s, a) && Stays(s, a) && |x.rests| == |s.threads| && |x.loc| == |s.next|
    ensures var s', th, th' := Next(s, a), s.threads[a.t], Next(s, a).threads[a.t];
            && AuxNext(s, a, x) == x && s'.head == s.head && s'.alive == s.alive && th'.list == th.list
            && (th'.pc.ExitCas? ==> th.list != []) && (th.pc.ExitCas? ==> th'.pc.ExitCas?)
            && !th'.pc.AdoptMove?
            && (|| s'.next == s.next
                || (th'.pc.ExitCas? && th.list != [] && IsCell(s, Last(th.list))
                    && s'.next == s.next[Last(th.list) := s.head]))
  {
  }

  lemma StepStays(s: State, x: Aux, a: Step)
    requires Inv(s, x) && Enabled(s, a) && Stays(s, a)
    ensures StepOk(s, x, Next(s, a), AuxNext(s, a, x), a.t)
  {
    var th, s' := s.threads[a.t], Next(s, a);
    assert ThreadOk(s.next, x, a.t, th);
    StaysSame(s, x, a);
    RestEmpty(s, x, a);
    hide Enabled, Next, AuxNext, Stays, Relink;
    if s'.next != s.next {
      LastRelinked(s.next, x.loc, th.list, a.t, s.head);
      OffList(s.next, x.loc, x.glob, InGlobal, Last(th.list), s.head, Local(a.t));
    }
    hide Lists, Links;
    Parts(s, x, s', x, a.t);
  }

  lemma RestEmpty(s: State, x: Aux, a: Step)
    requires Inv(s, x) && Enabled(s, a) && Stays(s, a)
    ensures x.rests[a.t] == []
  {
    assert ThreadOk(s.next, x, a.t, s.threads[a.t]);
    hide Lists;
  }

  lemma LastRelinked(next: seq<int>, loc: seq<Loc>, l: seq<int>, t: nat, m: int)
    requires Lists(loc, l, Local(t)) && Links(next, l) && l != [] && |next| == |loc|
    ensures 0 <= Last(l) < |loc| && loc[Last(l)] == Local(t) && Links(next[Last(l) := m], l)
  {
    assert forall i :: 0 <= i < |l| - 1 ==> l[i] != Last(l);
  }

  /** Two lists one behind the other. */
  lemma JoinLists(next: seq<int>, loc: seq<Loc>, a: seq<int>, b: seq<int>, head: int, t: nat)
    requires |next| == |loc| && Lists(loc, a, Local(t)) && Links(next, a) && a != []
    requires Lists(loc, b, InGlobal) && Chain(next, head, b) && next[Last(a)] == head
    ensures Lists(Relocate(loc, Local(t), InGlobal), a + b, InGlobal) && Chain(next, a[0], a + b)
  {
    var c := a + b;
    forall i, j | 0 <= i < j < |c| ensures c[i] != c[j] {
      if i < |a| <= j {
        assert loc[c[i]] != loc[c[j]];
      }
    }
    forall i | 0 <= i < |c| - 1 ensures next[c[i]] == c[i + 1] {
    }
  }

  /** The successful CAS: the whole list is in front of the global one. */
  lemma StepAppend(s: State, x: Aux, t: nat)
    requires Inv(s, x) && Enabled(s, Run(t)) && Appends(s, Run(t))
    ensures StepOk(s, x, Next(s, Run(t)), AuxNext(s, Run(t), x), t)
  {
    var th := s.threads[t];
    assert ThreadOk(s.next, x, t, th);
    JoinLists(s.next, x.loc, th.list, x.glob, s.head, t);
    assert Lists(Relocate(x.loc, Local(t), InGlobal), [], Local(t));
    assert Lists(Relocate(x.loc, Local(t), InGlobal), x.rests[t], Moving(t));
    var s', x' := Next(s, Run(t)), AuxNext(s, Run(t), x);
    hide Lists, Links;
    Parts(s, x, s', x', t);
  }

  lemma TakeShape(s: State, x: Aux, t: nat)
    requires Enabled(s, Run(t)) && s.threads[t].pc.AdoptTake? && |x.rests| == |s.threads| && |x.loc| == |s.next|
    ensures Next(s, Run(t)) == s.(head := NULL, threads := s.threads[t := s.threads[t].(pc := AdoptMove(s.head))])
    ensures AuxNext(s, Run(t), x) == Aux(Relocate(x.loc, InGlobal, Moving(t)), [], x.rests[t := x.glob])
  {
  }

  /** The exchange: the thread has the whole global list to take over. */
  lemma StepTake(s: State, x: Aux, t: nat)
    requires Inv(s, x) && Enabled(s, Run(t)) && s.threads[t].pc.AdoptTake?
    ensures StepOk(s, x, Next(s, Run(t)), AuxNext(s, Run(t), x), t)
  {
    var th := s.threads[t];
    assert ThreadOk(s.next, x, t, th);
    TakeShape(s, x, t);
    var loc' := Relocate(x.loc, InGlobal, Moving(t));
    assert Lists(loc', [], InGlobal) && Lists(loc', th.list, Local(t));
    assert Lists(loc', x.glob, Moving(t));
    var s', x' := Next(s, Run(t)), AuxNext(s, Run(t), x);
    hide Lists, Links, Enabled, Next, AuxNext;
    Parts(s, x, s', x', t);
  }

  lemma TailOf(next: seq<int>, loc: seq<Loc>, l: seq<int>, place: Loc, to: Loc, m: int)
    requires |next| == |loc| && Lists(loc, l, place) && Chain(next, First(l), l) && l != [] && to != place
    ensures Lists(loc[l[0] := to], l[1..], place) && Chain(next[l[0] := m], next[l[0]], l[1..])
  {
    var l', next' := l[1..], next[l[0] := m];
    assert forall i :: 0 <= i < |l'| ==> l'[i] == l[i + 1] && l'[i] != l[0];
    forall n | 0 <= n < |loc| && loc[l[0] := to][n] == place ensures n in l' {
      var i :| 0 <= i < |l| && l[i] == n;
      assert l'[i - 1] == n;
    }
  }

  lemma MoveShape(s: State, x: Aux, t: nat)
    requires Enabled(s, Run(t)) && s.threads[t].pc.AdoptMove? && s.threads[t].pc.cur != NULL
    requires |x.rests| == |s.threads| && |x.loc| == |s.next| && x.rests[t] != []
    ensures var th, cur, a := s.threads[t], s.threads[t].pc.cur, Run(t);
            && IsCell(s, cur)
            && Next(s, a)
                 == s.(next := s.next[cur := First(th.list)],
                       threads := s.threads[t := Thread([cur] + th.list, AdoptMove(s.next[cur]))])
            && AuxNext(s, a, x) == x.(loc := x.loc[cur := Local(t)], rests := x.rests[t := x.rests[t][1..]])
  {
  }

  lemma MoveMarks(s: State, x: Aux, t: nat, cur: int, m: int)
    requires t < |s.threads| == |x.rests| && |s.next| == |x.loc| && IsCell(s, cur) && x.loc[cur] == Moving(t)
    requires x.rests[t] != []
    requires AliveOk(s.alive, x.loc) && OwnersOk(x.loc, |s.threads|)
    ensures var loc', rests' := x.loc[cur := Local(t)], x.rests[t := x.rests[t][1..]];
            && AliveOk(s.alive, loc') && OwnersOk(loc', |s.threads|)
            && Spares(s.next, x, s.next[cur := m], x.(loc := loc', rests := rests'), t)
  {
  }

  /** One node moves from the rest of the global list to the thread's list. */
  lemma StepMove(s: State, x: Aux, t: nat)
    requires Inv(s, x) && Enabled(s, Run(t)) && s.threads[t].pc.AdoptMove? && s.threads[t].pc.cur != NULL
    ensures StepOk(s, x, Next(s, Run(t)), AuxNext(s, Run(t), x), t)
  {
    var th, cur := s.threads[t], s.threads[t].pc.cur;
    assert ThreadOk(s.next, x, t, th);
    assert x.rests[t] != [] && x.rests[t][0] == cur && x.loc[cur] == Moving(t);
    MoveShape(s, x, t);
    MoveMarks(s, x, t, cur, First(th.list));
    hide Lists, Links, Enabled, Next, AuxNext, AliveOk, OwnersOk, Spares;
    PutInFront(s.next, x.loc, th.list, cur, Local(t));
    OffList(s.next, x.loc, x.glob, InGlobal, cur, First(th.list), Local(t));
    TailOf(s.next, x.loc, x.rests[t], Moving(t), Local(t), First(th.list));
    Parts(s, x, Next(s, Run(t)), AuxNext(s, Run(t), x), t);
  }

  /** Every step keeps each node in one place. */
  lemma StepKeeps(s: State, a: Step, x: Aux)
    requires Inv(s, x) && Enabled(s, a)
    ensures Inv(Next(s, a), AuxNext(s, a, x))
  {
    var pc := s.threads[a.t].pc;
    assert |x.rests| == |s.threads| && |x.loc| == |s.next| && a.t < |s.threads|;
    hide Inv, Enabled, Next, AuxNext, StepOk;
    match a {
      case Retire(t, n) => StepRetire(s, x, t, n);
      case Scan(t, kept) => StepScan(s, x, t, kept);
      case Run(t) =>
        if Appends(s, a) {
          StepAppend(s, x, t);
        } else if pc.AdoptTake? {
          StepTake(s, x, t);
        } else if pc.AdoptMove? && pc.cur != NULL {
          StepMove(s, x, t);
        } else {
          StepStays(s, x, a);
        }
      case _ => StepStays(s, x, a);
    }
    Frame(s, x, Next(s, a), AuxNext(s, a, x), a.t);
  }

  /** No running step touches a cell that is not allocated. */
  lemma NoFault(s: State, x: Aux, t: nat)
    requires Inv(s, x) && t < |s.threads| && !s.threads[t].pc.Idle? && !s.threads[t].pc.Exited?
    ensures Enabled(s, Run(t))
    ensures s.threads[t].pc.AdoptMove? && s.threads[t].pc.cur != NULL ==> s.alive[s.threads[t].pc.cur]
    ensures s.threads[t].pc.ExitCas? ==> s.alive[Last(s.threads[t].list)]
  {
    assert ThreadOk(s.next, x, t, s.threads[t]);
  }

  // ---------------------------------------------------------------- whole runs

  ghost predicate IsRun(states: seq<State>, steps: seq<Step>) {
    && |states| == |steps| + 1 && Init(states[0])
    && forall i :: 0 <= i < |steps| ==> Enabled(states[i], steps[i]) && states[i + 1] == Next(states[i], steps[i])
  }

  lemma InitOk(s: State) returns (x: Aux)
    requires Init(s)
    ensures Inv(s, x)
  {
    x := Aux(seq(|s.next|, _ => Free), [], seq(|s.threads|, _ => []));
  }

  lemma {:induction false} RunKeeps(states: seq<State>, steps: seq<Step>, n: nat) returns (x: Aux)
    requires IsRun(states, steps) && n <= |steps|
    ensures Inv(states[n], x)
  {
    if n == 0 {
      x := InitOk(states[0]);
    } else {
      var x0 := RunKeeps(states, steps, n - 1);
      hide Lists, Links, Chain, ThreadOk, Next, Enabled;
      StepKeeps(states[n - 1], steps[n - 1], x0);
      x := AuxNext(states[n - 1], steps[n - 1], x0);
    }
  }

  /** In every reachable state the next step of a thread at work touches allocated cells only. */
  lemma RunsAreSafe(states: seq<State>, steps: seq<Step>, n: nat, t: nat)
    requires IsRun(states, steps) && n <= |steps| && t < |states[n].threads|
    requires !states[n].threads[t].pc.Idle? && !states[n].threads[t].pc.Exited?
    ensures Enabled(states[n], Run(t))
    ensures var s, th := states[n], states[n].threads[t];
            && (th.pc.AdoptMove? && th.pc.cur != NULL ==> s.alive[th.pc.cur])
            && (th.pc.ExitCas? ==> s.alive[Last(th.list)])
  {
    hide Inv, Enabled;
    var x := RunKeeps(states, steps, n);
    NoFault(states[n], x, t);
  }

  /**
    Nothing is lost, whatever the interleaving of exits, adoptions, retirements and scans: a cell
    that was retired and not freed is in the global list, in one thread's list, or among the nodes
    one thread has just exchanged out; and in exactly one of these.
  */
  lemma EveryNodeOnce(states: seq<State>, steps: seq<Step>, n: nat)
    returns (glob: seq<int>, rests: seq<seq<int>>, loc: seq<Loc>)
    requires IsRun(states, steps) && n <= |steps|
    ensures |rests| == |states[n].threads| && |loc| == |states[n].alive| == |states[n].next|
    ensures Chain(states[n].next, states[n].head, glob) && Distinct(glob)
    ensures forall c :: 0 <= c < |loc| ==>
              (states[n].alive[c] <==> loc[c] != Free) && (loc[c] == InGlobal <==> c in glob)
    ensures forall t: nat, c :: t < |rests| && 0 <= c < |loc| ==>
              && (loc[c] == Local(t) <==> c in states[n].threads[t].list)
              && (loc[c] == Moving(t) <==> c in rests[t])
    ensures forall t: nat :: t < |rests| ==>
              if states[n].threads[t].pc.AdoptMove? then Chain(states[n].next, states[n].threads[t].pc.cur, rests[t])
              else rests[t] == []
  {
    var x := RunKeeps(states, steps, n);
    glob, rests, loc := x.glob, x.rests, x.loc;
    hide IsRun, Chain, Links;
    forall t: nat, c | t < |rests| && 0 <= c < |loc|
      ensures (loc[c] == Local(t) <==> c in states[n].threads[t].list) && (loc[c] == Moving(t) <==> c in rests[t])
    {
      assert ThreadOk(states[n].next, x, t, states[n].threads[t]);
    }
  }

  /**
    An exiting thread's successful CAS puts its list, complete and in order, in front of what the global
    list is then.
  */
  lemma ExitPrepends(states: seq<State>, steps: seq<Step>, n: nat, t: nat) returns (glob: seq<int>)
    requires IsRun(states, steps) && n < |steps| && steps[n] == Run(t)
    requires states[n].threads[t].pc.ExitCas? && states[n + 1].threads[t].pc.Exited?
    ensures Chain(states[n].next, states[n].head, glob)
    ensures Chain(states[n + 1].next, states[n + 1].head, states[n].threads[t].list + glob)
  {
    var x := RunKeeps(states, steps, n);
    glob := x.glob;
    assert Enabled(states[n], steps[n]) && states[n + 1] == Next(states[n], steps[n]);
    hide IsRun, Lists, Links, Chain, ThreadOk;
    StepKeeps(states[n], steps[n], x);
  }
}
