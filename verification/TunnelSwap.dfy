/**
 Tunnel generations, the wakeup channel of waiters and the kicks that ask for a rotation. Every step
 is one critical section (or one channel operation), so a run is any interleaving of any number of
 requests, refreshers and waiters.
 */
module TunnelSwap {

  /** A channel used only by closing it. */
  type Chan = nat

  /**
   `made` remembers the generation each channel was made for, `kicks` the generations kicked so far.
   `unsent` counts requests between marking a kick and sending it, `pending` the signals in the one-place
   channel, `received` those the refresher took from it.
   */
  datatype State = State(
    gen: nat, swapped: Chan, closed: set<Chan>, made: map<Chan, nat>,
    subscribed: bool, lastKick: nat, kicks: seq<nat>,
    unsent: nat, pending: nat, received: nat)

  datatype Action = SetTunnel(chan: Chan) | RefreshKick | KickMark | KickSend | TakeKick

  const START := State(0, 0, {}, map[0 := 0], false, 0, [], 0, 0, 0)

  predicate Enabled(s: State, a: Action) {
    match a
    case SetTunnel(c) => c !in s.made
    case KickSend => s.unsent > 0
    case TakeKick => s.pending > 0
    case _ => true
  }

  predicate Marks(s: State) {
    s.subscribed && s.lastKick != s.gen
  }

  function Step(s: State, a: Action): State
    requires Enabled(s, a)
  {
    match a
    case SetTunnel(c) =>
      s.(gen := s.gen + 1, closed := s.closed + {s.swapped}, swapped := c, made := s.made[c := s.gen + 1])
    case RefreshKick => s.(subscribed := true)
    case KickMark =>
      if Marks(s) then s.(lastKick := s.gen, kicks := s.kicks + [s.gen], unsent := s.unsent + 1) else s
    case KickSend => s.(unsent := s.unsent - 1, pending := if s.pending == 0 then 1 else s.pending)
    case TakeKick => s.(pending := s.pending - 1, received := s.received + 1)
  }

  predicate Possible(s: State, run: seq<Action>)
    decreases |run|
  {
    run == [] || (Enabled(s, run[0]) && Possible(Step(s, run[0]), run[1..]))
  }

  function Run(s: State, run: seq<Action>): State
    requires Possible(s, run)
    decreases |run|
  {
    if run == [] then s else Run(Step(s, run[0]), run[1..])
  }

  // ---------------------------------------------------------------- what every step keeps

  /** Every channel but the current one is closed, and belongs to an older generation. */
  ghost predicate Channels(s: State) {
    && s.swapped in s.made && s.made[s.swapped] == s.gen
    && s.closed <= s.made.Keys
    && forall c :: c in s.made ==>
      (c in s.closed <==> s.made[c] < s.gen) && s.made[c] <= s.gen && (s.made[c] == s.gen ==> c == s.swapped)
  }

  ghost predicate Increasing(kicks: seq<nat>) {
    forall i, j :: 0 <= i < j < |kicks| ==> kicks[i] < kicks[j]
  }

  ghost predicate Kicks(s: State) {
    && Increasing(s.kicks)
    && (forall k :: k in s.kicks ==> 0 < k <= s.lastKick)
    && s.lastKick <= s.gen
    && (s.lastKick == 0 || s.lastKick in s.kicks)
  }

  ghost predicate Signals(s: State) {
    && s.pending <= 1
    && s.received + s.pending + s.unsent <= |s.kicks|
  }

  ghost predicate Inv(s: State) {
    Channels(s) && Kicks(s) && Signals(s)
  }

  lemma InvStep(s: State, a: Action)
    requires Inv(s) && Enabled(s, a)
    ensures Inv(Step(s, a))
  {
    if a.KickMark? && Marks(s) {
      var kicks := s.kicks + [s.gen];
      forall i, j | 0 <= i < j < |kicks| ensures kicks[i] < kicks[j] {
        assert s.kicks != [] && kicks[i] == s.kicks[i] && kicks[i] in s.kicks;
      }
    }
  }

  lemma {:induction false} InvRun(s: State, run: seq<Action>)
    requires Inv(s) && Possible(s, run)
    ensures Inv(Run(s, run))
    decreases |run|
  {
    if run != [] {
      InvStep(s, run[0]);
      InvRun(Step(s, run[0]), run[1..]);
    }
  }

  function Swaps(run: seq<Action>): nat {
    if run == [] then 0 else (if run[0].SetTunnel? then 1 else 0) + Swaps(run[1..])
  }

  lemma {:induction false} RunHistory(s: State, run: seq<Action>)
    requires Inv(s) && Possible(s, run)
    ensures Run(s, run).gen == s.gen + Swaps(run)
    ensures forall c :: c in s.made ==> c in Run(s, run).made && Run(s, run).made[c] == s.made[c]
    decreases |run|
  {
    if run != [] {
      InvStep(s, run[0]);
      RunHistory(Step(s, run[0]), run[1..]);
    }
  }

  // ---------------------------------------------------------------- waiting for a swap

  /** Whether a wait for generation `gen` that looked in state `at` can report a swap in state `now`. */
  predicate Wakes(at: State, now: State, gen: nat) {
    at.gen != gen || at.swapped in now.closed
  }

  /** The channel handed out with a generation is closed exactly when the generation has moved on. */
  lemma NoLostWakeup(s: State, run: seq<Action>)
    requires Inv(s) && Possible(s, run)
    ensures s.swapped in Run(s, run).closed <==> Run(s, run).gen > s.gen
    ensures s.swapped in Run(s, run).closed <==> Swaps(run) > 0
  {
    InvRun(s, run);
    RunHistory(s, run);
  }

  /**
   A wait for a generation seen earlier: whatever ran between the request noting `gen` and the wait
   looking, and between the look and now, the wait can report a swap exactly when one happened since.
   */
  lemma WaitExact(noted: State, before: seq<Action>, after: seq<Action>)
    requires Inv(noted) && Possible(noted, before) && Possible(Run(noted, before), after)
    ensures var at := Run(noted, before);
            Wakes(at, Run(at, after), noted.gen) <==> Swaps(before) + Swaps(after) > 0
  {
    InvRun(noted, before);
    RunHistory(noted, before);
    NoLostWakeup(Run(noted, before), after);
  }

  // ---------------------------------------------------------------- kicks

  /** At most one kick per generation, in order, never for the first one, and at most one pending. */
  lemma KickDiscipline(run: seq<Action>)
    requires Possible(START, run)
    ensures var s := Run(START, run);
            && Increasing(s.kicks) && 0 !in s.kicks && (forall k :: k in s.kicks ==> k <= s.gen)
            && s.pending <= 1
            && s.received + s.pending + s.unsent <= |s.kicks|
  {
    InvRun(START, run);
  }

  /**
   A proven-dead tunnel is reported exactly once per generation once somebody listens, except that the
   tunnel the proxy started with is never reported: the kick marker starts at its generation.
   */
  lemma KickIffNew(run: seq<Action>)
    requires Possible(START, run)
    ensures var s := Run(START, run);
            Step(s, KickMark).kicks != s.kicks <==> s.subscribed && s.gen != 0 && s.gen !in s.kicks
  {
    InvRun(START, run);
    var s := Run(START, run);
    if Marks(s) {
      assert |Step(s, KickMark).kicks| == |s.kicks| + 1;
    }
  }

  /** No mark took effect since the last swap: none was made, or nobody listened yet. */
  predicate Unmarked(run: seq<Action>) {
    run == [] ||
    var n := |run| - 1;
    match run[n]
    case SetTunnel(_) => true
    case KickMark => RefreshKick !in run[..n] && Unmarked(run[..n])
    case _ => Unmarked(run[..n])
  }

  /** The state before the last step. */
  lemma {:induction false} RunSnoc(s: State, run: seq<Action>)
    requires run != [] && Possible(s, run)
    ensures var n := |run| - 1;
            && Possible(s, run[..n]) && Enabled(Run(s, run[..n]), run[n])
            && Run(s, run) == Step(Run(s, run[..n]), run[n])
    decreases |run|
  {
    var n := |run| - 1;
    if n > 0 {
      RunSnoc(Step(s, run[0]), run[1..]);
      assert run[1..][..n - 1] == run[..n][1..];
    }
  }

  /** Whether anybody listens, how often the tunnel was swapped, and whether this one was kicked, by the run. */
  lemma {:induction false} KickFields(run: seq<Action>)
    requires Possible(START, run)
    ensures var s := Run(START, run);
            && (s.subscribed <==> RefreshKick in run) && s.gen == Swaps(run)
            && (s.gen > 0 ==> (s.lastKick != s.gen <==> Unmarked(run)))
    decreases |run|
  {
    RunHistory(START, run);
    if run != [] {
      var n := |run| - 1;
      RunSnoc(START, run);
      KickFields(run[..n]);
      InvRun(START, run[..n]);
      assert run == run[..n] + [run[n]];
    }
  }

  /**
   A dead tunnel asks for a rotation exactly when somebody listened before, it is not the first tunnel,
   and nothing asked for one since it was put in place.
   */
  lemma KickExactly(run: seq<Action>)
    requires Possible(START, run)
    ensures var s := Run(START, run);
            && Step(s, KickMark).kicks == s.kicks + (if Marks(s) then [s.gen] else [])
            && (Marks(s) <==> RefreshKick in run && Swaps(run) > 0 && Unmarked(run))
  {
    InvRun(START, run);
    KickFields(run);
  }

  /** The second tunnel of a proxy that is listened to: its failure leaves a signal for the refresher. */
  lemma SecondTunnelIsKicked()
    ensures var run := [SetTunnel(1), RefreshKick, KickMark, KickSend];
            Possible(START, run) && Run(START, run).kicks == [1] && Run(START, run).pending == 1
  {
  }

  /** Listening from the start, a failure of the first tunnel asks for nothing. */
  lemma FirstTunnelNeverKicked()
    ensures Possible(START, [RefreshKick, KickMark])
    ensures Run(START, [RefreshKick, KickMark]).kicks == []
  {
  }

  predicate NoneTaken(run: seq<Action>) {
    run == [] || (!run[0].TakeKick? && NoneTaken(run[1..]))
  }

  /** Some send was not followed by a take. */
  predicate SentSinceTaken(run: seq<Action>) {
    run != [] && ((run[0].KickSend? && NoneTaken(run[1..])) || SentSinceTaken(run[1..]))
  }

  /**
   A signal waits for the refresher exactly when a kick was sent after it last took one, or it had not
   taken the one that waited before: a send into a full channel is dropped, and nothing is lost by it.
   */
  lemma {:induction false} PendingExactly(s: State, run: seq<Action>)
    requires s.pending <= 1 && Possible(s, run)
    ensures Run(s, run).pending ==
            if SentSinceTaken(run) || (s.pending == 1 && NoneTaken(run)) then 1 else 0
    decreases |run|
  {
    if run != [] {
      PendingExactly(Step(s, run[0]), run[1..]);
    }
  }

  /** Over every run, a signal is waiting exactly when a kick was sent since the refresher last took one. */
  lemma NoKickLost(run: seq<Action>)
    requires Possible(START, run)
    ensures Run(START, run).pending == if SentSinceTaken(run) then 1 else 0
  {
    PendingExactly(START, run);
  }

  // ---------------------------------------------------------------- the proxy's fields

  class MixedProxy {
    var tunGen: nat
    var tunSwapped: Chan
    var refreshKick: bool
    var lastKickGen: nat
    var buffered: nat
    ghost var closed: set<Chan>
    ghost var made: map<Chan, nat>
    ghost var kicks: seq<nat>
    ghost var unsent: nat
    ghost var received: nat

    ghost function View(): State
      reads this
    {
      State(tunGen, tunSwapped, closed, made, refreshKick, lastKickGen, kicks, unsent, buffered, received)
    }

    constructor ()
      ensures View() == START && Inv(View())
    {
      tunGen, tunSwapped, refreshKick, lastKickGen, buffered := 0, 0, false, 0, 0;
      closed, made, kicks, unsent, received := {}, map[0 := 0], [], 0, 0;
    }

    /** `c` is the channel made for the new generation. The old one is open, so closing it cannot panic. */
    method SetTunnel(c: Chan)
      requires Inv(View()) && Enabled(View(), Action.SetTunnel(c))
      modifies this
      ensures View() == Step(old(View()), Action.SetTunnel(c)) && Inv(View())
      ensures old(tunSwapped) !in old(closed) && closed == old(closed) + {old(tunSwapped)}
    {
      InvStep(View(), Action.SetTunnel(c));
      tunGen := tunGen + 1;
      closed := closed + {tunSwapped};
      tunSwapped := c;
      made := made[c := tunGen];
    }

    method TunnelGen() returns (gen: nat, swapped: Chan)
      requires Inv(View())
      ensures gen == tunGen && swapped in made && made[swapped] == gen && swapped !in closed
    {
      gen, swapped := tunGen, tunSwapped;
    }

    method RefreshKick()
      requires Inv(View())
      modifies this
      ensures View() == Step(old(View()), Action.RefreshKick) && Inv(View())
    {
      InvStep(View(), Action.RefreshKick);
      if !refreshKick {
        refreshKick := true;
      }
    }

    /** The locked half of a kick. */
    method MarkKick() returns (mine: bool)
      requires Inv(View())
      modifies this
      ensures View() == Step(old(View()), KickMark) && Inv(View())
      ensures mine <==> old(refreshKick) && old(tunGen) != 0 && old(tunGen) !in old(kicks)
    {
      InvStep(View(), KickMark);
      if !refreshKick || lastKickGen == tunGen {
        return false;
      }
      lastKickGen := tunGen;
      kicks := kicks + [tunGen];
      unsent := unsent + 1;
      return true;
    }

    /** The non-blocking send: a full channel already holds a signal. */
    method SendKick()
      requires Inv(View()) && unsent > 0
      modifies this
      ensures View() == Step(old(View()), KickSend) && Inv(View()) && buffered == 1
    {
      InvStep(View(), KickSend);
      if buffered == 0 {
        buffered := 1;
      }
      unsent := unsent - 1;
    }

    method TakeKick()
      requires Inv(View()) && buffered > 0
      modifies this
      ensures View() == Step(old(View()), Action.TakeKick) && Inv(View())
      ensures buffered == 0
    {
      InvStep(View(), Action.TakeKick);
      buffered := buffered - 1;
      received := received + 1;
    }
  }
}
