/**
  What a `steal` that returns null has seen.

  The owner's `pop` lowers `mBottom` before it has taken anything.  While it is after the last
  task, a thief takes the queue for empty although it holds that task, and although neither the
  owner nor another thief need get the task before the `steal` has returned.
*/
module WorkStealingAnswers {
  import opened Sequences
  import opened WorkStealing

  /** Where the latest call of thief `u` began. */
  ghost function StealStart(steps: seq<Step>, n: nat, u: nat): (from: nat)
    requires n <= |steps|
    ensures from <= n
  {
    if n == 0 then 0 else if steps[n - 1] == BeginSteal(u) then n else StealStart(steps, n - 1, u)
  }

  ghost predicate EmptySomewhen(states: seq<State>, steps: seq<Step>, from: nat, n: nat)
    requires IsRun(states, steps) && n <= |steps|
  {
    exists j :: from <= j <= n && QueueAt(states, steps, j) == []
  }

  /** The owner has lowered `mBottom` for a task it has not taken yet. */
  predicate Reaching(o: Owner) { o.PopLoadTop? || o.PopClaim? || o.PopGet? || o.PopCas? }

  /** At some instant the owner reaches for the one task in the queue. */
  ghost predicate LastTaskSomewhen(states: seq<State>, steps: seq<Step>, from: nat, n: nat)
    requires IsRun(states, steps) && n <= |steps|
  {
    exists j :: from <= j <= n && Reaching(states[j].owner) && |QueueAt(states, steps, j)| == 1
  }

  /** Somebody other than thief `u` takes a task. */
  ghost predicate TakenByOther(states: seq<State>, steps: seq<Step>, from: nat, n: nat, u: nat)
    requires IsRun(states, steps) && n <= |steps|
  {
    exists j :: from <= j < n && steps[j] != ThiefRuns(u) && TakesOne(states[j], steps[j])
  }

  ghost predicate TakesOne(s: State, a: Step) { Enabled(s, a) && TakenIn(EventOf(s, a)) != multiset{} }

  // ---------------------------------------------------------------- every null of `steal`

  lemma TopMoves(s: State, a: Step)
    requires Enabled(s, a) && Next(s, a).top != s.top
    ensures TakesOne(s, a)
  {
    hide Slot, Get, Put, Resized;
  }

  lemma OtherThieves(s: State, a: Step, u: nat)
    requires Enabled(s, a) && u < |s.thieves| && a != BeginSteal(u) && a != ThiefRuns(u)
    ensures u < |Next(s, a).thieves| && Next(s, a).thieves[u] == s.thieves[u]
  {
    hide Slot, Get, Put, Resized;
  }

  lemma SameThieves(s: State, a: Step)
    requires Enabled(s, a)
    ensures |Next(s, a).thieves| == |s.thieves|
  {
    hide Slot, Get, Put, Resized;
  }

  /** What it means that `mBottom` is not above a top that has been read before. */
  lemma BottomIsLow(s: State, dq: seq<Task>, t: int)
    requires Inv(s, dq) && t <= s.top && s.bottom - t <= 0
    ensures dq == [] || (Reaching(s.owner) && |dq| == 1)
  {
    hide Get, ThiefOk;
  }

  /** The top a steal has read is current unless somebody else has taken a task since. */
  ghost predicate StealOk(states: seq<State>, steps: seq<Step>, n: nat, u: nat)
    requires IsRun(states, steps) && n <= |steps| && u < |states[n].thieves|
  {
    var from := StealStart(steps, n, u);
    match states[n].thieves[u]
    case ThiefIdle => true
    case StealReturn(result) => result.None? ==> NullIsExplained(states, steps, from, n, u)
    case th => th.t == states[n].top || TakenByOther(states, steps, from, n, u)
  }

  ghost predicate NullIsExplained(states: seq<State>, steps: seq<Step>, from: nat, n: nat, u: nat)
    requires IsRun(states, steps) && n <= |steps|
  {
    || EmptySomewhen(states, steps, from, n) || LastTaskSomewhen(states, steps, from, n)
    || TakenByOther(states, steps, from, n, u)
  }

  lemma StillExplained(states: seq<State>, steps: seq<Step>, from: nat, n: nat, u: nat)
    requires IsRun(states, steps) && n < |steps|
    ensures NullIsExplained(states, steps, from, n, u) ==> NullIsExplained(states, steps, from, n + 1, u)
    ensures TakenByOther(states, steps, from, n, u) ==> TakenByOther(states, steps, from, n + 1, u)
  {
    hide IsRun, QueueAt, TakesOne;
  }

  lemma {:induction false} StealRun(states: seq<State>, steps: seq<Step>, n: nat, u: nat)
    requires IsRun(states, steps) && n <= |steps| && u < |states[n].thieves|
    ensures StealOk(states, steps, n, u)
  {
    if n > 0 {
      var s, a := states[n - 1], steps[n - 1];
      SameThieves(s, a);
      StealRun(states, steps, n - 1, u);
      if a == BeginSteal(u) {
        assert states[n].thieves[u] == StealLoadBottom(states[n].top);
      } else if a == ThiefRuns(u) {
        ThiefStep(states, steps, n - 1, u);
      } else {
        OtherStep(states, steps, n - 1, u);
      }
    }
  }

  lemma ThiefStep(states: seq<State>, steps: seq<Step>, n: nat, u: nat)
    requires IsRun(states, steps) && n < |steps| && steps[n] == ThiefRuns(u)
    requires u < |states[n].thieves| && u < |states[n + 1].thieves| && StealOk(states, steps, n, u)
    ensures StealOk(states, steps, n + 1, u)
  {
    var s, from := states[n], StealStart(steps, n, u);
    RunKeeps(states, steps, n);
    StillExplained(states, steps, from, n, u);
    var dq := QueueAt(states, steps, n);
    assert ThiefOk(s, dq, s.thieves[u]);
    hide Inv, QueueAt, TakenByOther, Slot, Get, ThiefOk;
    if s.thieves[u].StealLoadBottom? && s.bottom - s.thieves[u].t <= 0 {
      assert s.thieves[u].t <= s.top;
      BottomIsLow(s, dq, s.thieves[u].t);
      assert from <= n <= n + 1;
    }
  }

  lemma OtherStep(states: seq<State>, steps: seq<Step>, n: nat, u: nat)
    requires IsRun(states, steps) && n < |steps| && steps[n] != ThiefRuns(u) && steps[n] != BeginSteal(u)
    requires u < |states[n].thieves| && u < |states[n + 1].thieves| && StealOk(states, steps, n, u)
    ensures StealOk(states, steps, n + 1, u)
  {
    var s, from := states[n], StealStart(steps, n, u);
    OtherThieves(s, steps[n], u);
    StillExplained(states, steps, from, n, u);
    hide Next, QueueAt, NullIsExplained;
    if states[n + 1].top != s.top {
      TopMoves(s, steps[n]);
      assert from <= n < n + 1;
    }
  }

  /**
    A `steal` that returns null has seen the queue empty at some instant of the call, or the owner
    reaching for its last task, or somebody else has taken a task during the call.
  */
  lemma NullOfSteal(states: seq<State>, steps: seq<Step>, n: nat, u: nat)
    requires IsRun(states, steps) && n <= |steps| && u < |states[n].thieves|
    requires states[n].thieves[u] == StealReturn(None)
    ensures NullIsExplained(states, steps, StealStart(steps, n, u), n, u)
  {
    StealRun(states, steps, n, u);
    hide IsRun, NullIsExplained;
  }

  // ---------------------------------------------------------------- without `pop`

  ghost predicate NoPops(steps: seq<Step>) { forall i :: 0 <= i < |steps| ==> !steps[i].BeginPop? }

  predicate Pushing(o: Owner) {
    || o.OwnerIdle? || o.PushLoadTop? || o.PushLoadTasks? || o.PushStoreTasks? || o.PushPut? || o.PushStoreBottom?
  }

  lemma StillPushing(s: State, a: Step)
    requires Enabled(s, a) && Pushing(s.owner) && !a.BeginPop?
    ensures Pushing(Next(s, a).owner)
  {
    hide Slot, Get, Put, Resized;
  }

  lemma {:induction false} AlwaysPushing(states: seq<State>, steps: seq<Step>, n: nat)
    requires IsRun(states, steps) && n <= |steps| && NoPops(steps)
    ensures Pushing(states[n].owner)
  {
    hide Next, Enabled;
    if n > 0 {
      AlwaysPushing(states, steps, n - 1);
      hide Pushing;
      StillPushing(states[n - 1], steps[n - 1]);
    }
  }

  // ---------------------------------------------------------------- a null that nobody can explain

  function At(bottom: int, tasks: seq<Task>, created: nat, owner: Owner, th: Thief, rest: seq<Thief>): State {
    State([tasks], 0, 0, bottom, created, owner, [th] + rest)
  }

  const ROOM: seq<Task> := [NULL, NULL]
  const FULL: seq<Task> := [0, NULL]

  ghost predicate Reaches(states: seq<State>, steps: seq<Step>, s: State) {
    IsRun(states, steps) && states[|steps|] == s
  }

  lemma Go(states: seq<State>, steps: seq<Step>, a: Step, s: State, s': State)
    returns (more: seq<State>, longer: seq<Step>)
    requires Reaches(states, steps, s) && Enabled(s, a) && s' == Next(s, a)
    ensures more == states + [s'] && longer == steps + [a] && Reaches(more, longer, s')
  {
    more, longer := states + [s'], steps + [a];
    hide Init, Enabled, Next;
    forall i | 0 <= i < |longer| ensures Enabled(more[i], longer[i]) && more[i + 1] == Next(more[i], longer[i]) {
      if i < |steps| {
        assert more[i] == states[i] && more[i + 1] == states[i + 1] && longer[i] == steps[i];
      }
    }
  }

  /** One task is pushed, and the owner's pop has lowered `mBottom`. */
  lemma PopBegun(rest: seq<Thief>) returns (states: seq<State>, steps: seq<Step>)
    requires forall v :: 0 <= v < |rest| ==> rest[v] == ThiefIdle
    ensures Reaches(states, steps, At(0, FULL, 1, PopLoadTop(0), ThiefIdle, rest)) && |steps| == 7
    ensures |states| == 8 && |states[0].thieves| == 1 + |rest|
  {
    var s0, s1 := At(0, ROOM, 0, OwnerIdle, ThiefIdle, rest), At(0, ROOM, 0, PushLoadTop(0), ThiefIdle, rest);
    assert Reaches([s0], [], s0);
    hide Reaches;
    states, steps := Go([s0], [], BeginPush, s0, s1);
    var s2 := At(0, ROOM, 0, PushLoadTasks(0, 0), ThiefIdle, rest);
    states, steps := Go(states, steps, OwnerRuns, s1, s2);
    var s3 := At(0, ROOM, 0, PushPut(0), ThiefIdle, rest);
    states, steps := Go(states, steps, OwnerRuns, s2, s3);
    var s4 := At(0, FULL, 1, PushStoreBottom(0, 0), ThiefIdle, rest);
    assert Put(ROOM, 0, 0) == FULL && [ROOM][0 := FULL] == [FULL];
    states, steps := Go(states, steps, OwnerRuns, s3, s4);
    var s5 := At(1, FULL, 1, OwnerIdle, ThiefIdle, rest);
    states, steps := Go(states, steps, OwnerRuns, s4, s5);
    var s6 := At(1, FULL, 1, PopStoreBottom(0), ThiefIdle, rest);
    states, steps := Go(states, steps, BeginPop, s5, s6);
    states, steps := Go(states, steps, OwnerRuns, s6, At(0, FULL, 1, PopLoadTop(0), ThiefIdle, rest));
  }

  /** In such a state the queue holds the task, whatever a thief does. */
  lemma OneTask(states: seq<State>, steps: seq<Step>, n: nat, th: Thief, rest: seq<Thief>)
    requires IsRun(states, steps) && n <= |steps| && states[n] == At(0, FULL, 1, PopLoadTop(0), th, rest)
    ensures QueueAt(states, steps, n) != []
  {
    RunKeeps(states, steps, n);
    hide IsRun, QueueAt, OwnerOk, ThiefOk;
  }

  /**
    Thief 0 returns null, although the queue holds a task at every instant of the call and nobody
    takes one.
  */
  lemma UnexplainedNull(thieves: nat) returns (states: seq<State>, steps: seq<Step>)
    requires thieves > 0
    ensures IsRun(states, steps) && |states[0].thieves| == thieves && |states[|steps|].thieves| == thieves
    ensures states[|steps|].thieves[0] == StealReturn(None)
    ensures !EmptySomewhen(states, steps, StealStart(steps, |steps|, 0), |steps|)
    ensures !TakenByOther(states, steps, StealStart(steps, |steps|, 0), |steps|, 0)
  {
    var rest: seq<Thief> := seq(thieves - 1, _ => ThiefIdle);
    var s1 := At(0, FULL, 1, PopLoadTop(0), ThiefIdle, rest);
    var s2 := At(0, FULL, 1, PopLoadTop(0), StealLoadBottom(0), rest);
    var s3 := At(0, FULL, 1, PopLoadTop(0), StealReturn(None), rest);
    states, steps := PopBegun(rest);
    assert s2.thieves == s1.thieves[0 := StealLoadBottom(0)] && s3.thieves == s2.thieves[0 := StealReturn(None)];
    hide Reaches;
    states, steps := Go(states, steps, BeginSteal(0), s1, s2);
    states, steps := Go(states, steps, ThiefRuns(0), s2, s3);
    NullEnds(states, steps, s2, s3, rest);
  }

  lemma NullEnds(states: seq<State>, steps: seq<Step>, s2: State, s3: State, rest: seq<Thief>)
    requires Reaches(states, steps, s3) && |states| == 10 && |steps| == 9 && states[8] == s2
    requires steps[7] == BeginSteal(0) && steps[8] == ThiefRuns(0)
    requires s2 == At(0, FULL, 1, PopLoadTop(0), StealLoadBottom(0), rest)
    requires s3 == At(0, FULL, 1, PopLoadTop(0), StealReturn(None), rest)
    ensures IsRun(states, steps) && states[9] == s3
    ensures !EmptySomewhen(states, steps, StealStart(steps, 9, 0), 9)
    ensures !TakenByOther(states, steps, StealStart(steps, 9, 0), 9, 0)
  {
    assert StealStart(steps, 9, 0) == StealStart(steps, 8, 0) == 8;
    hide IsRun;
    OneTask(states, steps, 8, s2.thieves[0], rest);
    OneTask(states, steps, 9, s3.thieves[0], rest);
  }

  // ---------------------------------------------------------------- exactly when null can be trusted

  /** Every null of a steal comes from an empty queue or a lost race. */
  ghost predicate NullsAreRight(states: seq<State>, steps: seq<Step>)
    requires IsRun(states, steps)
  {
    forall n: nat, u: nat :: n <= |steps| && u < |states[n].thieves| ==> NullIsRight(states, steps, n, u)
  }

  ghost predicate NullIsRight(states: seq<State>, steps: seq<Step>, n: nat, u: nat)
    requires IsRun(states, steps) && n <= |steps| && u < |states[n].thieves|
  {
    var from := StealStart(steps, n, u);
    states[n].thieves[u] == StealReturn(None) ==>
      EmptySomewhen(states, steps, from, n) || TakenByOther(states, steps, from, n, u)
  }

  ghost predicate IsRunOf(states: seq<State>, steps: seq<Step>, thieves: nat, pops: bool) {
    IsRun(states, steps) && |states[0].thieves| == thieves && (pops || NoPops(steps))
  }

  ghost predicate AlwaysRight(thieves: nat, pops: bool) {
    forall states: seq<State>, steps: seq<Step> ::
      IsRunOf(states, steps, thieves, pops) ==> NullsAreRight(states, steps)
  }

  lemma {:induction false} ThiefCount(states: seq<State>, steps: seq<Step>, n: nat)
    requires IsRun(states, steps) && n <= |steps|
    ensures |states[n].thieves| == |states[0].thieves|
  {
    hide Next, Enabled;
    if n > 0 {
      ThiefCount(states, steps, n - 1);
      SameThieves(states[n - 1], steps[n - 1]);
    }
  }

  lemma NullWithoutPops(states: seq<State>, steps: seq<Step>, n: nat, u: nat)
    requires IsRun(states, steps) && n <= |steps| && u < |states[n].thieves| && NoPops(steps)
    ensures NullIsRight(states, steps, n, u)
  {
    var from := StealStart(steps, n, u);
    assert n < |states|;
    hide QueueAt, TakesOne;
    if states[n].thieves[u] == StealReturn(None) {
      NullOfSteal(states, steps, n, u);
      if j :| from <= j <= n && Reaching(states[j].owner) && |QueueAt(states, steps, j)| == 1 {
        AlwaysPushing(states, steps, j);
      }
    }
  }

  /**
    In every run of `thieves` thieves each null of `steal` comes from an instant of an empty queue
    or from a task that somebody else took meanwhile, if and only if there is no thief or the owner
    never pops.
  */
  lemma AlwaysRightIff(thieves: nat, pops: bool)
    ensures AlwaysRight(thieves, pops) <==> thieves == 0 || !pops
  {
    if thieves == 0 || !pops {
      forall states: seq<State>, steps: seq<Step> | IsRunOf(states, steps, thieves, pops)
        ensures NullsAreRight(states, steps)
      {
        forall n: nat, u: nat | n <= |steps| && u < |states[n].thieves| ensures NullIsRight(states, steps, n, u) {
          ThiefCount(states, steps, n);
          NullWithoutPops(states, steps, n, u);
        }
      }
    } else {
      var states, steps := UnexplainedNull(thieves);
      hide IsRun;
      assert !NullIsRight(states, steps, |steps|, 0);
      assert IsRunOf(states, steps, thieves, pops) && !NullsAreRight(states, steps);
    }
  }
}
