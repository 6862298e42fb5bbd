/**
 The attempts of one request as a function of what the upstream does: which of them are made, with which
 Range, what each of them leaves, and how the request ends. The budget and the rule that only
 idempotent requests are replayed are theorems about this function.
 */
module ForwardRuns {
  import opened Basics
  import opened HeaderText
  import opened AssetCache
  import opened ForwardModel
  import opened ForwardSteps

  /** How a request came to its end. */
  datatype End = BadRequest | Hit | ClientGone | Finished | Aborted | NotReplayed | Exhausted

  // ---------------------------------------------------------------- the budget

  /**
   Progress after each attempt that asked for another one: never less, and any eight attempts in
   a row gain something, except that the last eight may have gained nothing.
   */
  ghost predicate WithinBudget(progress: seq<nat>) {
    && 1 <= |progress| <= MAX_ATTEMPTS + 1
    && (forall i, j :: 0 <= i <= j < |progress| ==> progress[i] <= progress[j])
    && (forall i :: 0 <= i < |progress| - 1 - RESUME_ATTEMPTS ==> progress[i] < progress[i + RESUME_ATTEMPTS])
  }

  /** The same, measurement by measurement. */
  ghost predicate Grows(progress: seq<nat>) {
    |progress| <= 1 ||
    var n := |progress| - 1;
    && Grows(progress[..n]) && progress[n - 1] <= progress[n]
    && (n - 1 >= RESUME_ATTEMPTS ==> progress[n - 1 - RESUME_ATTEMPTS] < progress[n - 1])
  }

  lemma {:induction false} GrowsWithin(progress: seq<nat>)
    requires Grows(progress) && 1 <= |progress| <= MAX_ATTEMPTS + 1
    ensures WithinBudget(progress)
  {
    if |progress| > 1 {
      var n := |progress| - 1;
      var before := progress[..n];
      GrowsWithin(before);
      forall i, j | 0 <= i <= j < |progress| ensures progress[i] <= progress[j] {
        Monotone(progress, i, j);
      }
      forall i | 0 <= i < n - RESUME_ATTEMPTS ensures progress[i] < progress[i + RESUME_ATTEMPTS] {
        assert i < n - 1 - RESUME_ATTEMPTS ==> before[i] < before[i + RESUME_ATTEMPTS];
      }
    }
  }

  /** The attempt counter of the loop: how many attempts in a row gained nothing. */
  ghost predicate CountsIdle(progress: seq<nat>, idle: nat) {
    && Grows(progress)
    && idle < |progress| && idle < RESUME_ATTEMPTS
    && progress[|progress| - 1 - idle] == progress[|progress| - 1]
    && (idle < |progress| - 1 ==> progress[|progress| - 2 - idle] < progress[|progress| - 1])
    && (|progress| > RESUME_ATTEMPTS ==> progress[|progress| - 1 - RESUME_ATTEMPTS] < progress[|progress| - 1])
  }

  lemma GrowsNext(progress: seq<nat>, now: nat)
    requires progress != [] && Grows(progress) && progress[|progress| - 1] <= now
    requires |progress| > RESUME_ATTEMPTS ==>
               progress[|progress| - 1 - RESUME_ATTEMPTS] < progress[|progress| - 1]
    ensures Grows(progress + [now])
  {
    assert (progress + [now])[..|progress|] == progress;
  }

  /**
   An attempt without growth adds to the count and one with growth ends it; at the limit the last
   eight gained nothing.
   */
  lemma NextProgress(progress: seq<nat>, idle: nat, now: nat)
    requires CountsIdle(progress, idle) && progress[|progress| - 1] <= now
    ensures Grows(progress + [now])
    ensures progress[|progress| - 1] < now ==> CountsIdle(progress + [now], 0)
    ensures progress[|progress| - 1] == now && idle + 1 < RESUME_ATTEMPTS ==> CountsIdle(progress + [now], idle + 1)
    ensures progress[|progress| - 1] == now && idle + 1 == RESUME_ATTEMPTS ==>
              |progress| >= RESUME_ATTEMPTS && progress[|progress| - RESUME_ATTEMPTS] == now
  {
    hide Grows;
    if progress[|progress| - 1] < now {
      GainCounts(progress, idle, now);
    } else {
      IdleCounts(progress, idle);
    }
  }

  lemma GainCounts(progress: seq<nat>, idle: nat, now: nat)
    requires CountsIdle(progress, idle) && progress[|progress| - 1] < now
    ensures CountsIdle(progress + [now], 0)
  {
    hide Grows;
    GrowsNext(progress, now);
    if |progress| >= RESUME_ATTEMPTS {
      Monotone(progress, |progress| - RESUME_ATTEMPTS, |progress| - 1);
    }
  }

  lemma IdleCounts(progress: seq<nat>, idle: nat)
    requires CountsIdle(progress, idle)
    ensures var more := progress + [progress[|progress| - 1]];
            && Grows(more)
            && (if idle + 1 < RESUME_ATTEMPTS then CountsIdle(more, idle + 1)
                else
                  |progress| >= RESUME_ATTEMPTS && progress[|progress| - RESUME_ATTEMPTS] == progress[|progress| - 1])
  {
    hide Grows;
    var n := |progress|;
    GrowsNext(progress, progress[n - 1]);
    if n >= RESUME_ATTEMPTS && idle + 1 < RESUME_ATTEMPTS {
      Monotone(progress, n - RESUME_ATTEMPTS, n - 2 - idle);
    }
  }

  lemma {:induction false} Monotone(progress: seq<nat>, i: nat, j: nat)
    requires Grows(progress) && i <= j < |progress|
    ensures progress[i] <= progress[j]
  {
    var n := |progress| - 1;
    if j < n {
      Monotone(progress[..n], i, j);
    } else if i < j {
      Monotone(progress[..n], i, n - 1);
    }
  }

  /** The last eight attempts gained nothing. */
  ghost predicate GainedNothing(progress: seq<nat>) {
    |progress| > RESUME_ATTEMPTS && progress[|progress| - 1 - RESUME_ATTEMPTS] == progress[|progress| - 1]
  }

  /** The budget is spent: all attempts are used, or the last eight gained nothing. */
  ghost predicate Spent(progress: seq<nat>) {
    |progress| == MAX_ATTEMPTS + 1 || GainedNothing(progress)
  }

  // ---------------------------------------------------------------- the run

  /** One attempt: where it started from, what the upstream answered, and what that came to. */
  datatype Leg = Leg(from: Progress, told: Told, answer: Attempt, step: Step)

  datatype Course = Course(legs: seq<Leg>, end: End)

  function LegOf(tunnel: Upstream, head: bool, p: Progress, told: Told, i: nat): Leg {
    var a := tunnel(i, NextRange(p));
    Leg(p, told, a, Attempted(p, told, a, head))
  }

  /** The count of attempts in a row that gained nothing, after one more. */
  function Counted(before: nat, now: nat, idle: nat): nat {
    if now > before then 0 else idle + 1
  }

  function IdleAfter(leg: Leg, idle: nat): nat {
    Counted(Held(leg.from), Held(leg.step.next), idle)
  }

  /** The attempts from number `i` on. */
  function CourseFrom(
    tunnel: Upstream, head: bool, canRetry: bool, p: Progress, told: Told, i: nat, idle: nat): Course
    decreases MAX_ATTEMPTS - i
  {
    if i >= MAX_ATTEMPTS then Course([], Exhausted)
    else
      var leg := LegOf(tunnel, head, p, told, i);
      var s := leg.step;
      match s.out
      case Done => Course([leg], Finished)
      case Abort => Course([leg], Aborted)
      case Retry =>
        if !canRetry then Course([leg], NotReplayed)
        else if IdleAfter(leg, idle) >= RESUME_ATTEMPTS then Course([leg], Exhausted)
        else After([leg], CourseFrom(tunnel, head, canRetry, s.next, s.told, i + 1, IdleAfter(leg, idle)))
  }

  function After(legs: seq<Leg>, c: Course): Course {
    Course(legs + c.legs, c.end)
  }

  /** All the attempts of a request that starts from `p` with a client that was told `told`. */
  function CourseOf(tunnel: Upstream, head: bool, canRetry: bool, p: Progress, told: Told): Course {
    CourseFrom(tunnel, head, canRetry, p, told, 0, 0)
  }

  function TryOf(leg: Leg): Try {
    Try(NextRange(leg.from), leg.answer)
  }

  /** What the upstream sees of attempts. */
  function TriesOf(legs: seq<Leg>): (r: seq<Try>)
    ensures |r| == |legs|
  {
    if legs == [] then [] else TriesOf(legs[..|legs| - 1]) + [TryOf(legs[|legs| - 1])]
  }

  /** What is held after each attempt that asked for another one. */
  function Gains(legs: seq<Leg>): seq<nat> {
    if legs == [] || legs[0].step.out != Retry then [] else [Held(legs[0].step.next)] + Gains(legs[1..])
  }

  // ---------------------------------------------------------------- what a run is

  /** Each attempt but the last asks for another one, which starts where it ended. */
  ghost predicate Chained(tunnel: Upstream, head: bool, p: Progress, told: Told, i: nat, legs: seq<Leg>)
    decreases |legs|
  {
    legs == [] ||
    var leg := legs[0];
    && leg == LegOf(tunnel, head, p, told, i)
    && (|legs| > 1 ==> leg.step.out == Retry && Chained(tunnel, head, leg.step.next, leg.step.told, i + 1, legs[1..]))
  }

  /** How a request ends follows from its last attempt. */
  ghost predicate EndsLike(canRetry: bool, out: Outcome, end: End) {
    match out
    case Done => end == Finished
    case Abort => end == Aborted
    case Retry => end == if canRetry then Exhausted else NotReplayed
  }

  /** The run after an attempt that is followed by another one. */
  function RestOf(tunnel: Upstream, head: bool, canRetry: bool, leg: Leg, i: nat, idle: nat): Course {
    CourseFrom(tunnel, head, canRetry, leg.step.next, leg.step.told, i + 1, IdleAfter(leg, idle))
  }

  predicate GoesOn(canRetry: bool, leg: Leg, idle: nat) {
    leg.step.out == Retry && canRetry && IdleAfter(leg, idle) < RESUME_ATTEMPTS
  }

  lemma CourseNext(tunnel: Upstream, head: bool, canRetry: bool, p: Progress, told: Told, i: nat, idle: nat)
    requires i < MAX_ATTEMPTS
    ensures var c, leg := CourseFrom(tunnel, head, canRetry, p, told, i, idle), LegOf(tunnel, head, p, told, i);
            if GoesOn(canRetry, leg, idle) then c == After([leg], RestOf(tunnel, head, canRetry, leg, i, idle))
            else c.legs == [leg] && EndsLike(canRetry, leg.step.out, c.end)
  {
  }

  /** A run is a chain of attempts, one at least, and ends as its last attempt makes it. */
  lemma {:induction false} CourseChained(
    tunnel: Upstream, head: bool, canRetry: bool, p: Progress, told: Told, i: nat, idle: nat)
    requires i < MAX_ATTEMPTS
    ensures var c := CourseFrom(tunnel, head, canRetry, p, told, i, idle);
            && c.legs != [] && Chained(tunnel, head, p, told, i, c.legs)
            && EndsLike(canRetry, c.legs[|c.legs| - 1].step.out, c.end)
            && (!canRetry ==> |c.legs| == 1)
    decreases MAX_ATTEMPTS - i
  {
    hide CourseFrom, LegOf, IdleAfter;
    var leg := LegOf(tunnel, head, p, told, i);
    CourseNext(tunnel, head, canRetry, p, told, i, idle);
    if GoesOn(canRetry, leg, idle) {
      var rest := RestOf(tunnel, head, canRetry, leg, i, idle);
      assert ([leg] + rest.legs)[1..] == rest.legs;
      if i + 1 < MAX_ATTEMPTS {
        CourseChained(tunnel, head, canRetry, leg.step.next, leg.step.told, i + 1, IdleAfter(leg, idle));
      } else {
        CourseOver(tunnel, head, canRetry, leg.step.next, leg.step.told, i + 1, IdleAfter(leg, idle));
      }
    }
  }

  lemma CourseOver(tunnel: Upstream, head: bool, canRetry: bool, p: Progress, told: Told, i: nat, idle: nat)
    requires i >= MAX_ATTEMPTS
    ensures CourseFrom(tunnel, head, canRetry, p, told, i, idle) == Course([], Exhausted)
  {
  }

  lemma GainsCons(before: seq<nat>, leg: Leg, rest: seq<Leg>)
    ensures before + Gains([leg] + rest) ==
            if leg.step.out == Retry then before + [Held(leg.step.next)] + Gains(rest) else before
  {
  }

  /** The run keeps the budget, whatever happened before attempt `i`. */
  lemma {:induction false} CourseBudget(
    tunnel: Upstream, head: bool, canRetry: bool, p: Progress, told: Told, i: nat, idle: nat, before: seq<nat>)
    requires Tidy(p, told) && i <= MAX_ATTEMPTS && |before| == i + 1
    requires CountsIdle(before, idle) && before[i] == Held(p)
    ensures var c := CourseFrom(tunnel, head, canRetry, p, told, i, idle);
            var progress := before + Gains(c.legs);
            && Grows(progress) && |progress| <= MAX_ATTEMPTS + 1 && |c.legs| <= MAX_ATTEMPTS - i
            && (c.end == Exhausted ==> Spent(progress))
    decreases MAX_ATTEMPTS - i
  {
    hide Grows, Tidy, CountsIdle, CourseFrom, Held, Gains, Attempted;
    CountsGrow(before, idle);
    if i == MAX_ATTEMPTS {
      CourseOver(tunnel, head, canRetry, p, told, i, idle);
      NoGains(before);
      return;
    }
    var leg := LegOf(tunnel, head, p, told, i);
    CourseNext(tunnel, head, canRetry, p, told, i, idle);
    HeldGrows(p, told, leg.answer, head);
    var now := Held(leg.step.next);
    if leg.step.out == Retry { NextProgress(before, idle, now); }
    if GoesOn(canRetry, leg, idle) {
      CourseBudget(tunnel, head, canRetry, leg.step.next, leg.step.told, i + 1, IdleAfter(leg, idle), before + [now]);
      GainsCons(before, leg, RestOf(tunnel, head, canRetry, leg, i, idle).legs);
    } else {
      GainsCons(before, leg, []);
      NoGains(before + [now]);
      assert [leg] + [] == [leg];
    }
  }

  lemma {:induction false} GainsBound(legs: seq<Leg>)
    ensures |Gains(legs)| <= |legs|
  {
    if legs != [] { GainsBound(legs[1..]); }
  }

  lemma NoGains(before: seq<nat>)
    ensures before + Gains([]) == before
  {
  }

  lemma CountsGrow(progress: seq<nat>, idle: nat)
    requires CountsIdle(progress, idle)
    ensures Grows(progress) && idle < RESUME_ATTEMPTS
  {
  }

  /** The run keeps the budget in the terms of its progress. */
  lemma CourseWithinBudget(tunnel: Upstream, head: bool, canRetry: bool, p: Progress, told: Told)
    requires Tidy(p, told)
    ensures var c := CourseOf(tunnel, head, canRetry, p, told);
            var progress := [Held(p)] + Gains(c.legs);
            && 1 <= |c.legs| <= MAX_ATTEMPTS && (!canRetry ==> |c.legs| == 1)
            && WithinBudget(progress) && (c.end == Exhausted ==> canRetry && Spent(progress))
            && (c.end == NotReplayed ==> !canRetry)
            && c.end in {Finished, Aborted, NotReplayed, Exhausted}
  {
    CourseChained(tunnel, head, canRetry, p, told, 0, 0);
    CourseBudget(tunnel, head, canRetry, p, told, 0, 0, [Held(p)]);
    GrowsWithin([Held(p)] + Gains(CourseOf(tunnel, head, canRetry, p, told).legs));
  }

  /**
   Whatever the upstream does: at most 64 attempts are made, one for a request that may not be replayed;
   what is held never gets less, and any eight attempts in a row gain something, except that the last
   eight may have gained nothing; and an idempotent request is given up only when the budget is spent.
   */
  lemma BudgetKept(tunnel: Upstream, head: bool, canRetry: bool, p: Progress, told: Told)
    requires Tidy(p, told)
    ensures var c := CourseOf(tunnel, head, canRetry, p, told);
            var progress := [Held(p)] + Gains(c.legs);
            && 1 <= |c.legs| <= 64 && (!canRetry ==> |c.legs| == 1)
            && (forall i, j :: 0 <= i <= j < |progress| ==> progress[i] <= progress[j])
            && (forall i :: 0 <= i < |progress| - 9 ==> progress[i] < progress[i + 8])
            && (c.end == Exhausted ==>
                  && canRetry
                  && (|c.legs| == 64 || (|progress| > 8 && progress[|progress| - 9] == progress[|progress| - 1])))
            && (c.end == NotReplayed ==> !canRetry)
            && c.end in {Finished, Aborted, NotReplayed, Exhausted}
  {
    hide CourseOf, CourseFrom, Gains, Held;
    CourseWithinBudget(tunnel, head, canRetry, p, told);
    GainsBound(CourseOf(tunnel, head, canRetry, p, told).legs);
  }

  /** Every attempt of a run keeps to the key it started with. */
  ghost predicate AllKeepKey(legs: seq<Leg>, key: string) {
    forall k :: 0 <= k < |legs| ==> KeepsKey(legs[k].step, key)
  }

  lemma {:induction false} CourseKeepsKey(
    tunnel: Upstream, head: bool, canRetry: bool, p: Progress, told: Told, i: nat, idle: nat, key: string)
    requires p.cacheKey == key || p.cacheKey == ""
    ensures AllKeepKey(CourseFrom(tunnel, head, canRetry, p, told, i, idle).legs, key)
    decreases MAX_ATTEMPTS - i
  {
    hide CourseFrom, Attempted;
    if i >= MAX_ATTEMPTS {
      CourseOver(tunnel, head, canRetry, p, told, i, idle);
      return;
    }
    var leg := LegOf(tunnel, head, p, told, i);
    CourseNext(tunnel, head, canRetry, p, told, i, idle);
    AttemptKeepsKey(p, told, leg.answer, head);
    if GoesOn(canRetry, leg, idle) {
      CourseKeepsKey(tunnel, head, canRetry, leg.step.next, leg.step.told, i + 1, IdleAfter(leg, idle), key);
    }
  }
}
