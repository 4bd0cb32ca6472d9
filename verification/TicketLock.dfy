/**
  The ticket lock: one 64-bit word holds the next ticket in its upper half and the ticket being
  served in its lower half; both are advanced by `fetch_add` on the whole word.
*/
module TicketLock {
  import opened Arithmetic
  import opened Sequences

  const HALF: nat := 0x1_0000_0000
  const WORD: nat := 0x1_0000_0000_0000_0000

  function Zip(owner: nat, next: nat): nat
    requires owner < HALF && next < HALF
  {
    next * HALF + owner
  }

  function Owner(data: nat): nat { data % HALF }

  function NextTicket(data: nat): nat { data / HALF }

  lemma ZipUnzip(owner: nat, next: nat)
    requires owner < HALF && next < HALF
    ensures Owner(Zip(owner, next)) == owner && NextTicket(Zip(owner, next)) == next && Zip(owner, next) < WORD
  {
    DivModUnique(next * HALF + owner, HALF, next, owner);
  }

  datatype Pc = Idle | FetchAdd | Spin(ticket: nat) | Holding | Release

  datatype State = State(data: nat, threads: seq<Pc>)

  datatype Step = BeginLock(t: nat) | BeginUnlock(t: nat) | Run(t: nat)

  ghost predicate Init(s: State) { s.data == 0 && forall t :: 0 <= t < |s.threads| ==> s.threads[t].Idle? }

  predicate Enabled(s: State, a: Step) {
    && a.t < |s.threads|
    && match a
       case BeginLock(t) => s.threads[t].Idle?
       case BeginUnlock(t) => s.threads[t].Holding?
       case Run(t) => !s.threads[t].Idle? && !s.threads[t].Holding?
  }

  function Goto(s: State, t: nat, pc: Pc): State
    requires t < |s.threads|
  {
    s.(threads := s.threads[t := pc])
  }

  function Next(s: State, a: Step): (s': State)
    requires Enabled(s, a)
    ensures |s'.threads| == |s.threads| && s'.threads == s.threads[a.t := s'.threads[a.t]]
  {
    match a
    case BeginLock(t) => Goto(s, t, FetchAdd)
    case BeginUnlock(t) => Goto(s, t, Release)
    case Run(t) =>
      match s.threads[t]
      case FetchAdd =>
        Goto(s.(data := (s.data + HALF) % WORD), t,
             if Owner(s.data) == NextTicket(s.data) then Holding else Spin(NextTicket(s.data)))
      case Spin(ticket) => if Owner(s.data) == ticket then Goto(s, t, Holding) else s
      case Release => Goto(s.(data := (s.data + 1) % WORD), t, Idle)
  }

  // ---------------------------------------------------------------- the invariant

  /** How many calls of `unlock` have finished, and the threads that have a ticket, in ticket order. */
  datatype Aux = Aux(served: nat, who: seq<nat>)

  predicate HasLock(pc: Pc) { pc.Holding? || pc.Release? }

  predicate Queued(pc: Pc) { pc.Spin? || HasLock(pc) }

  ghost predicate MemberOk(s: State, x: Aux, i: nat)
    requires i < |x.who|
  {
    && x.who[i] < |s.threads|
    && var pc := s.threads[x.who[i]];
       Queued(pc) && (pc.Spin? ==> pc.ticket == x.served + i) && (HasLock(pc) ==> i == 0)
  }

  ghost predicate Inv(s: State, x: Aux) {
    && x.served + |x.who| < HALF && s.data == Zip(x.served, x.served + |x.who|)
    && (forall i, j :: 0 <= i < j < |x.who| ==> x.who[i] != x.who[j])
    && (forall i :: 0 <= i < |x.who| ==> MemberOk(s, x, i))
    && forall t :: 0 <= t < |s.threads| ==> (Queued(s.threads[t]) <==> t in x.who)
  }

  predicate Arrives(s: State, a: Step) { a.Run? && a.t < |s.threads| && s.threads[a.t].FetchAdd? }

  predicate Departs(s: State, a: Step) { a.Run? && a.t < |s.threads| && s.threads[a.t].Release? }

  function AuxNext(s: State, a: Step, x: Aux): Aux
    requires Enabled(s, a)
  {
    if Arrives(s, a) then x.(who := x.who + [a.t])
    else if Departs(s, a) && x.who != [] then Aux(x.served + 1, x.who[1..])
    else x
  }

  lemma PositionOf(s: State, x: Aux, t: nat) returns (i: nat)
    requires Inv(s, x) && t < |s.threads| && Queued(s.threads[t])
    ensures i < |x.who| && x.who[i] == t && MemberOk(s, x, i)
    ensures HasLock(s.threads[t]) ==> i == 0
  {
    i :| 0 <= i < |x.who| && x.who[i] == t;
    assert MemberOk(s, x, i);
  }

  lemma Fields(s: State, x: Aux)
    requires Inv(s, x)
    ensures Owner(s.data) == x.served && NextTicket(s.data) == x.served + |x.who|
    ensures x.served + |x.who| + 1 < HALF ==> (s.data + HALF) % WORD == Zip(x.served, x.served + |x.who| + 1)
    ensures x.who != [] ==> (s.data + 1) % WORD == Zip(x.served + 1, x.served + |x.who|)
  {
    ZipUnzip(x.served, x.served + |x.who|);
    if x.served + |x.who| + 1 < HALF {
      ZipUnzip(x.served, x.served + |x.who| + 1);
      DivModUnique(s.data + HALF, WORD, 0, s.data + HALF);
    }
    if x.who != [] {
      ZipUnzip(x.served + 1, x.served + |x.who|);
      DivModUnique(s.data + 1, WORD, 0, s.data + 1);
    }
  }

  lemma FetchKeeps(s: State, x: Aux, t: nat)
    requires Inv(s, x) && Enabled(s, Run(t)) && s.threads[t].FetchAdd? && x.served + |x.who| + 1 < HALF
    ensures Inv(Next(s, Run(t)), AuxNext(s, Run(t), x))
  {
    var s', x' := Next(s, Run(t)), AuxNext(s, Run(t), x);
    Fields(s, x);
    hide Zip, Owner, NextTicket;
    forall i | 0 <= i < |x'.who| ensures MemberOk(s', x', i) {
      if i < |x.who| {
        assert MemberOk(s, x, i);
      }
    }
    assert x'.who[|x.who|] == t;
  }

  lemma ReleaseKeeps(s: State, x: Aux, t: nat)
    requires Inv(s, x) && Enabled(s, Run(t)) && s.threads[t].Release?
    ensures x.who != [] && x.who[0] == t && Inv(Next(s, Run(t)), AuxNext(s, Run(t), x))
  {
    var k := PositionOf(s, x, t);
    var s', x' := Next(s, Run(t)), AuxNext(s, Run(t), x);
    Fields(s, x);
    hide Zip, Owner, NextTicket;
    forall i | 0 <= i < |x'.who| ensures MemberOk(s', x', i) {
      assert MemberOk(s, x, i + 1);
    }
    forall u | 0 <= u < |s'.threads| ensures Queued(s'.threads[u]) <==> u in x'.who {
      if u in x.who && u != t {
        var j :| 0 <= j < |x.who| && x.who[j] == u;
        assert x'.who[j - 1] == u;
      }
    }
  }

  lemma StayKeeps(s: State, x: Aux, a: Step)
    requires Inv(s, x) && Enabled(s, a) && (a.Run? ==> s.threads[a.t].Spin?)
    ensures Inv(Next(s, a), x)
  {
    Fields(s, x);
    if Queued(s.threads[a.t]) {
      var k := PositionOf(s, x, a.t);
    }
    hide Zip, Owner, NextTicket;
    forall i | 0 <= i < |x.who| ensures MemberOk(Next(s, a), x, i) {
      assert MemberOk(s, x, i);
    }
  }

  /** Every step keeps the invariant while fewer than 2^32 tickets have been handed out. */
  lemma StepKeeps(s: State, x: Aux, a: Step)
    requires Inv(s, x) && Enabled(s, a) && (Arrives(s, a) ==> x.served + |x.who| + 1 < HALF)
    ensures Inv(Next(s, a), AuxNext(s, a, x))
  {
    if Arrives(s, a) {
      FetchKeeps(s, x, a.t);
    } else if Departs(s, a) {
      ReleaseKeeps(s, x, a.t);
    } else {
      StayKeeps(s, x, a);
    }
  }

  // ---------------------------------------------------------------- whole runs

  ghost predicate IsRun(states: seq<State>, steps: seq<Step>) {
    && |states| == |steps| + 1 && Init(states[0])
    && forall i :: 0 <= i < |steps| ==> Enabled(states[i], steps[i]) && states[i + 1] == Next(states[i], steps[i])
  }

  ghost function Arrivals(states: seq<State>, steps: seq<Step>, n: nat): seq<nat>
    requires IsRun(states, steps) && n <= |steps|
  {
    if n == 0 then []
    else Arrivals(states, steps, n - 1) + if Arrives(states[n - 1], steps[n - 1]) then [steps[n - 1].t] else []
  }

  ghost function Departures(states: seq<State>, steps: seq<Step>, n: nat): seq<nat>
    requires IsRun(states, steps) && n <= |steps|
  {
    if n == 0 then []
    else Departures(states, steps, n - 1) + if Departs(states[n - 1], steps[n - 1]) then [steps[n - 1].t] else []
  }

  lemma WhoMoves(s: State, x: Aux, a: Step)
    requires Inv(s, x) && Enabled(s, a)
    ensures var x' := AuxNext(s, a, x);
            if Arrives(s, a) then x' == Aux(x.served, x.who + [a.t])
            else if Departs(s, a) then x.who == [a.t] + x'.who && x'.served == x.served + 1
            else x' == x
    ensures !(Arrives(s, a) && Departs(s, a))
  {
    if Departs(s, a) {
      ReleaseKeeps(s, x, a.t);
    }
  }

  lemma {:induction false} RunKeeps(states: seq<State>, steps: seq<Step>, n: nat) returns (x: Aux)
    requires IsRun(states, steps) && n <= |steps| && |Arrivals(states, steps, n)| < HALF
    ensures Inv(states[n], x) && Arrivals(states, steps, n) == Departures(states, steps, n) + x.who
    ensures x.served == |Departures(states, steps, n)|
  {
    hide Inv, Next, Enabled, Arrives, Departs;
    if n == 0 {
      InitOk(states[0]);
      x := Aux(0, []);
    } else {
      var x0 := RunKeeps(states, steps, n - 1);
      WhoMoves(states[n - 1], x0, steps[n - 1]);
      StepKeeps(states[n - 1], x0, steps[n - 1]);
      x := AuxNext(states[n - 1], steps[n - 1], x0);
    }
  }

  lemma InitOk(s: State)
    requires Init(s)
    ensures Inv(s, Aux(0, []))
  {
  }

  lemma HolderIsFirst(s: State, x: Aux, t: nat)
    requires Inv(s, x) && t < |s.threads| && HasLock(s.threads[t])
    ensures x.who != [] && x.who[0] == t
  {
    var i := PositionOf(s, x, t);
  }

  /**
    In every run with fewer than 2^32 calls of `lock`: the word is the number of tickets handed out
    over the number served, at most one thread has the lock, and it is the one whose ticket is next.
  */
  lemma TicketsInOrder(states: seq<State>, steps: seq<Step>, n: nat, t: nat)
    requires IsRun(states, steps) && n <= |steps| && |Arrivals(states, steps, n)| < HALF
    ensures Departures(states, steps, n) <= Arrivals(states, steps, n)
    ensures states[n].data == Zip(|Departures(states, steps, n)|, |Arrivals(states, steps, n)|)
    ensures t < |states[n].threads| && HasLock(states[n].threads[t]) ==>
              && |Departures(states, steps, n)| < |Arrivals(states, steps, n)|
              && Arrivals(states, steps, n)[|Departures(states, steps, n)|] == t
  {
    var x := RunKeeps(states, steps, n);
    hide IsRun;
    if t < |states[n].threads| && HasLock(states[n].threads[t]) {
      HolderIsFirst(states[n], x, t);
    }
  }

  lemma MutualExclusion(states: seq<State>, steps: seq<Step>, n: nat, t: nat, u: nat)
    requires IsRun(states, steps) && n <= |steps| && |Arrivals(states, steps, n)| < HALF
    requires t < |states[n].threads| && u < |states[n].threads|
    requires HasLock(states[n].threads[t]) && HasLock(states[n].threads[u])
    ensures t == u
  {
    hide Inv;
    var x := RunKeeps(states, steps, n);
    HolderIsFirst(states[n], x, t);
    HolderIsFirst(states[n], x, u);
  }

  // ---------------------------------------------------------------- how long the lock lasts

  /** The word counts the calls in 64-bit arithmetic, whatever their number. */
  lemma {:induction false} WordIs(states: seq<State>, steps: seq<Step>, n: nat)
    requires IsRun(states, steps) && n <= |steps|
    ensures states[n].data == (|Arrivals(states, steps, n)| * HALF + |Departures(states, steps, n)|) % WORD
  {
    if n > 0 {
      WordIs(states, steps, n - 1);
      var s, a := states[n - 1], steps[n - 1];
      var before := |Arrivals(states, steps, n - 1)| * HALF + |Departures(states, steps, n - 1)|;
      assert Arrives(s, a) ==> |Arrivals(states, steps, n)| * HALF == |Arrivals(states, steps, n - 1)| * HALF + HALF;
      AddWrapped(before, HALF);
      AddWrapped(before, 1);
    }
  }

  lemma AddWrapped(x: nat, d: nat)
    requires d < WORD
    ensures (x % WORD + d) % WORD == (x + d) % WORD
  {
    var q, r := x / WORD, x % WORD;
    assert x == WORD * q + r;
    if r + d < WORD {
      DivModUnique(x + d, WORD, q, r + d);
      DivModUnique(r + d, WORD, 0, r + d);
    } else {
      DivModUnique(x + d, WORD, q + 1, r + d - WORD);
      DivModUnique(r + d, WORD, 1, r + d - WORD);
    }
  }

  /** The threads between `fetch_add` and the end of `unlock`, counted. */
  function Tickets(threads: seq<Pc>): int {
    Sum(seq(|threads|, t requires 0 <= t < |threads| => Ticket(threads[t])))
  }

  function Ticket(pc: Pc): int { if Queued(pc) then 1 else 0 }

  lemma TicketsMove(threads: seq<Pc>, t: nat, pc: Pc)
    requires t < |threads|
    ensures Tickets(threads[t := pc]) == Tickets(threads) - Ticket(threads[t]) + Ticket(pc)
  {
    var held := seq(|threads|, u requires 0 <= u < |threads| => Ticket(threads[u]));
    SumUpdate(held, t, Ticket(pc));
    assert held[t := Ticket(pc)] == seq(|threads|, u requires 0 <= u < |threads| => Ticket(threads[t := pc][u]));
  }

  lemma NoTickets(threads: seq<Pc>)
    requires forall t :: 0 <= t < |threads| ==> !Queued(threads[t])
    ensures Tickets(threads) == 0
  {
    SumOfZeros(seq(|threads|, t requires 0 <= t < |threads| => Ticket(threads[t])));
  }

  /** Every ticket handed out is served or in some thread's hands. */
  lemma {:induction false} TicketsAreHeld(states: seq<State>, steps: seq<Step>, n: nat)
    requires IsRun(states, steps) && n <= |steps|
    ensures |Arrivals(states, steps, n)| == |Departures(states, steps, n)| + Tickets(states[n].threads)
  {
    hide Tickets;
    if n == 0 {
      NoTickets(states[0].threads);
    } else {
      TicketsAreHeld(states, steps, n - 1);
      var s, a := states[n - 1], steps[n - 1];
      TicketsMove(s.threads, a.t, states[n].threads[a.t]);
    }
  }

  /** The halves of the word after equally many calls of `lock` and `unlock`. */
  lemma EvenWord(n: nat)
    ensures Owner((n * HALF + n) % WORD) == n % HALF
    ensures NextTicket((n * HALF + n) % WORD) == (n % HALF + n / HALF) % HALF
  {
    var q, r := n / HALF, n % HALF;
    var m := (r + q) % HALF;
    var k := (r + q) / HALF;
    assert n == HALF * q + r && r + q == HALF * k + m;
    assert n * HALF + n == HALF * (HALF * q) + HALF * (HALF * k + m) + r;
    assert n * HALF + n == WORD * (q + k) + Zip(r, m);
    ZipUnzip(r, m);
    DivModUnique(n * HALF + n, WORD, q + k, Zip(r, m));
  }

  lemma SameTicket(r: nat, q: nat)
    requires r < HALF
    ensures (r + q) % HALF == r <==> q % HALF == 0
  {
    var k, m := q / HALF, q % HALF;
    assert q == HALF * k + m;
    if r + m < HALF {
      DivModUnique(r + q, HALF, k, r + m);
    } else {
      DivModUnique(r + q, HALF, k + 1, r + m - HALF);
    }
  }

  ghost predicate Quiet(s: State) { forall t :: 0 <= t < |s.threads| ==> s.threads[t].Idle? }

  /**
    With all threads outside, the lock is free for the next caller if and only if the number of
    finished rounds divided by 2^32 is a multiple of 2^32: the served ticket has not carried into
    the next ticket.  For fewer than 2^64 rounds this means fewer than 2^32.
  */
  lemma FreeLockIsFreeIff(states: seq<State>, steps: seq<Step>, n: nat)
    requires IsRun(states, steps) && n <= |steps| && Quiet(states[n])
    ensures var rounds := |Arrivals(states, steps, n)|;
            && rounds == |Departures(states, steps, n)|
            && (Owner(states[n].data) == NextTicket(states[n].data) <==> rounds / HALF % HALF == 0)
            && (rounds < WORD ==> (Owner(states[n].data) == NextTicket(states[n].data) <==> rounds < HALF))
  {
    var rounds := |Arrivals(states, steps, n)|;
    WordIs(states, steps, n);
    TicketsAreHeld(states, steps, n);
    NoTickets(states[n].threads);
    hide IsRun, Tickets;
    EvenWord(rounds);
    SameTicket(rounds % HALF, rounds / HALF);
    if rounds < WORD {
      FewCarries(rounds);
    }
  }

  lemma FewCarries(rounds: nat)
    requires rounds < WORD
    ensures rounds / HALF % HALF == 0 <==> rounds < HALF
  {
    var q := rounds / HALF;
    assert rounds == HALF * q + rounds % HALF;
    assert q < HALF;
    DivModUnique(q, HALF, 0, q);
  }

  lemma Extend(states: seq<State>, steps: seq<Step>, a: Step, s: State, s': State)
    returns (more: seq<State>, longer: seq<Step>)
    requires IsRun(states, steps) && states[|steps|] == s && Enabled(s, a) && Next(s, a) == s'
    ensures more == states + [s'] && longer == steps + [a] && IsRun(more, longer)
  {
    more, longer := states + [s'], steps + [a];
    hide Init, Enabled, Next;
    forall i | 0 <= i < |longer| ensures Enabled(more[i], longer[i]) && more[i + 1] == Next(more[i], longer[i]) {
      assert i < |steps| ==> more[i] == states[i] && more[i + 1] == states[i + 1] && longer[i] == steps[i];
    }
  }

  /** One thread alone locks and unlocks once. */
  lemma Round(states: seq<State>, steps: seq<Step>, n: nat) returns (more: seq<State>, longer: seq<Step>)
    requires IsRun(states, steps) && n < HALF && |states| == |steps| + 1 && states[|steps|] == State(Zip(n, n), [Idle])
    ensures IsRun(more, longer) && |longer| == |steps| + 4 && |more| == |longer| + 1
    ensures more[|longer|] == State((n + 1) * (HALF + 1) % WORD, [Idle])
  {
    ZipUnzip(n, n);
    var taken := (Zip(n, n) + HALF) % WORD;
    var s := State(Zip(n, n), [Idle]);
    var s1, s2 := s.(threads := [FetchAdd]), State(taken, [Holding]);
    var s3, s4 := State(taken, [Release]), State((taken + 1) % WORD, [Idle]);
    AddWrapped(Zip(n, n) + HALF, 1);
    assert (n + 1) * (HALF + 1) == Zip(n, n) + HALF + 1;
    hide Zip, Owner, NextTicket, IsRun;
    more, longer := Extend(states, steps, BeginLock(0), s, s1);
    more, longer := Extend(more, longer, Run(0), s1, s2);
    more, longer := Extend(more, longer, BeginUnlock(0), s2, s3);
    more, longer := Extend(more, longer, Run(0), s3, s4);
  }

  /** One thread alone locks and unlocks `n` times. */
  lemma {:induction false} Rounds(n: nat) returns (states: seq<State>, steps: seq<Step>)
    requires n <= HALF
    ensures IsRun(states, steps) && |steps| == 4 * n
    ensures states[|steps|] == State(n * (HALF + 1) % WORD, [Idle])
  {
    if n == 0 {
      states, steps := [State(0, [Idle])], [];
    } else {
      states, steps := Rounds(n - 1);
      ZipUnzip(n - 1, n - 1);
      DivModUnique((n - 1) * (HALF + 1), WORD, 0, Zip(n - 1, n - 1));
      states, steps := Round(states, steps, n - 1);
    }
  }

  /**
    After 2^32 rounds of one thread the next `lock` on the free lock gets ticket 1 while ticket 0
    is being served, and no step that is left changes anything.
  */
  lemma FreeLockIsNeverGranted() returns (states: seq<State>, steps: seq<Step>)
    ensures IsRun(states, steps) && |steps| == 4 * HALF + 2
    ensures states[4 * HALF].threads == [Idle] && steps[4 * HALF] == BeginLock(0)
    ensures states[|steps|].threads == [Spin(1)] && Owner(states[|steps|].data) == 0
    ensures forall a :: Enabled(states[|steps|], a) ==> Next(states[|steps|], a) == states[|steps|]
  {
    states, steps := Rounds(HALF);
    var s := states[|steps|];
    assert HALF * (HALF + 1) == WORD + HALF;
    DivModUnique(HALF * (HALF + 1), WORD, 1, HALF);
    assert s.data == Zip(0, 1);
    ZipUnzip(0, 1);
    ZipUnzip(0, 2);
    DivModUnique(Zip(0, 1) + HALF, WORD, 0, Zip(0, 2));
    var s1, s2 := s.(threads := [FetchAdd]), State(Zip(0, 2), [Spin(1)]);
    hide Zip, Owner, NextTicket;
    states, steps := Extend(states, steps, BeginLock(0), s, s1);
    states, steps := Extend(states, steps, Run(0), s1, s2);
  }
}
