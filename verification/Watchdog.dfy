/**
 When a tunnel is condemned: sampling of its counters, what a swap resets, and the decision taken on
 the sampled times. Time is in nanoseconds; a handshake time comes in whole seconds, zero for never.
 */
module Watchdog {
  import opened Basics

  const SECOND: int := 1_000_000_000

  const HANDSHAKE_STALE_AFTER: int := 210 * SECOND

  const RX_STALL_AFTER: int := 20 * SECOND

  // ---------------------------------------------------------------- the decision

  datatype Inputs = Inputs(
    lastHandshake: int, startedAt: int, appTxAt: Option<int>, appRxAt: Option<int>, dialAt: Option<int>, now: int)

  datatype Reason = NoHandshake | HandshakeStale | DeadUnderLoad

  predicate Within(t: Option<int>, now: int, d: int) {
    t.Some? && now - t.value < d
  }

  function ReconnectReason(x: Inputs): Option<Reason> {
    if x.lastHandshake == 0 && x.now - x.startedAt > HANDSHAKE_STALE_AFTER then Some(NoHandshake)
    else if x.lastHandshake != 0 && x.now - x.lastHandshake * SECOND > HANDSHAKE_STALE_AFTER then Some(HandshakeStale)
    else
      var recentDemand := Within(x.appTxAt, x.now, RX_STALL_AFTER) || Within(x.dialAt, x.now, RX_STALL_AFTER);
      var inboundSilent := x.now - if x.appRxAt.Some? then x.appRxAt.value else x.startedAt;
      if recentDemand && inboundSilent > RX_STALL_AFTER then Some(DeadUnderLoad) else None
  }

  // ---------------------------------------------------------------- sampling

  datatype Sample = Sample(at: int, rx: int, tx: int, dialAt: Option<int>, handshake: int)

  /**
   The manager's sampling fields. `samples` remembers what was sampled since the tunnel went live, `clock`
   when the last step was.
   */
  datatype State = State(
    device: bool, tunnelSince: int, lastRx: int, lastTx: int,
    appTxAt: Option<int>, appRxAt: Option<int>, dialAt: Option<int>, lastHandshake: int,
    samples: seq<Sample>, clock: int)

  function Start(now: int): State {
    State(false, now, 0, 0, None, None, None, 0, [], now)
  }

  /** A tunnel goes live by an install or a swap, its counters are sampled, it is torn down. */
  datatype Action =
    | GoLive
    | SampleOnce(rx: int, tx: int, dialAt: Option<int>, handshake: int)
    | Teardown

  function Step(s: State, a: Action, now: int): State {
    match a
    case GoLive => State(true, now, 0, 0, None, None, None, 0, [], now)
    case SampleOnce(rx, tx, dialAt, handshake) =>
      if !s.device then s.(clock := now)
      else
        s.(appTxAt := if tx > s.lastTx then Some(now) else s.appTxAt,
           appRxAt := if rx > s.lastRx then Some(now) else s.appRxAt,
           lastRx := rx, lastTx := tx, dialAt := dialAt, lastHandshake := handshake,
           samples := s.samples + [Sample(now, rx, tx, dialAt, handshake)], clock := now)
    case Teardown => s.(device := false, lastHandshake := 0, clock := now)
  }

  datatype Timed = Timed(action: Action, at: int)

  ghost predicate Possible(s: State, run: seq<Timed>)
    decreases |run|
  {
    run == [] || (s.clock <= run[0].at && Possible(Step(s, run[0].action, run[0].at), run[1..]))
  }

  function Run(s: State, run: seq<Timed>): State
    decreases |run|
  {
    if run == [] then s else Run(Step(s, run[0].action, run[0].at), run[1..])
  }

  // ---------------------------------------------------------------- what sampling keeps

  /** The two byte counters that are sampled. */
  datatype Counter = Rx | Tx

  function Count(s: Sample, c: Counter): int {
    if c == Rx then s.rx else s.tx
  }

  /** Sample `i` saw the counter above what the sample before it saw, or above zero if it is the first. */
  predicate Grew(c: Counter, samples: seq<Sample>, i: nat)
    requires i < |samples|
  {
    Count(samples[i], c) > if i == 0 then 0 else Count(samples[i - 1], c)
  }

  function LastGrowth(c: Counter, samples: seq<Sample>): Option<int> {
    if samples == [] then None
    else
      var n := |samples| - 1;
      if Grew(c, samples, n) then Some(samples[n].at) else LastGrowth(c, samples[..n])
  }

  ghost predicate Ordered(samples: seq<Sample>, since: int, clock: int) {
    && since <= clock
    && (forall i :: 0 <= i < |samples| ==> since <= samples[i].at <= clock)
    && (forall i, j :: 0 <= i < j < |samples| ==> samples[i].at <= samples[j].at)
  }

  ghost predicate Inv(s: State) {
    && Ordered(s.samples, s.tunnelSince, s.clock)
    && s.lastRx == (if s.samples == [] then 0 else s.samples[|s.samples| - 1].rx)
    && s.lastTx == (if s.samples == [] then 0 else s.samples[|s.samples| - 1].tx)
    && s.appRxAt == LastGrowth(Rx, s.samples)
    && s.appTxAt == LastGrowth(Tx, s.samples)
    && s.dialAt == LastDial(s.samples)
    && s.lastHandshake == if s.device then LastHandshake(s.samples) else 0
  }

  /** What the last sample said of dials and of the handshake. */
  function LastDial(samples: seq<Sample>): Option<int> {
    if samples == [] then None else samples[|samples| - 1].dialAt
  }

  function LastHandshake(samples: seq<Sample>): int {
    if samples == [] then 0 else samples[|samples| - 1].handshake
  }

  /** One more sample, in which the counter grew if it is above the last one. */
  lemma GrowthNext(c: Counter, samples: seq<Sample>, next: Sample)
    ensures LastGrowth(c, samples + [next]) ==
            if Count(next, c) > (if samples == [] then 0 else Count(samples[|samples| - 1], c)) then Some(next.at)
            else LastGrowth(c, samples)
  {
    assert (samples + [next])[..|samples|] == samples;
  }

  lemma OrderedNext(samples: seq<Sample>, since: int, clock: int, next: Sample)
    requires Ordered(samples, since, clock) && clock <= next.at
    ensures Ordered(samples + [next], since, next.at)
  {
  }

  lemma InvSample(s: State, a: Action, now: int)
    requires Inv(s) && s.clock <= now && a.SampleOnce? && s.device
    ensures Inv(Step(s, a, now))
  {
    hide Ordered, LastGrowth;
    var next := Sample(now, a.rx, a.tx, a.dialAt, a.handshake);
    OrderedNext(s.samples, s.tunnelSince, s.clock, next);
    GrowthNext(Rx, s.samples, next);
    GrowthNext(Tx, s.samples, next);
  }

  lemma InvStep(s: State, a: Action, now: int)
    requires Inv(s) && s.clock <= now
    ensures Inv(Step(s, a, now))
  {
    if a.SampleOnce? && s.device {
      InvSample(s, a, now);
    }
  }

  lemma {:induction false} InvRun(s: State, run: seq<Timed>)
    requires Inv(s) && Possible(s, run)
    ensures Inv(Run(s, run))
    decreases |run|
  {
    if run != [] {
      InvStep(s, run[0].action, run[0].at);
      InvRun(Step(s, run[0].action, run[0].at), run[1..]);
    }
  }

  // ---------------------------------------------------------------- the decision by history

  /** Inbound bytes arrived in some sample no longer than `d` ago. */
  ghost predicate Heard(samples: seq<Sample>, now: int, d: int) {
    exists i :: 0 <= i < |samples| && Grew(Rx, samples, i) && now - samples[i].at <= d
  }

  /** Outbound bytes left in some sample less than `d` ago. */
  ghost predicate Spoke(samples: seq<Sample>, now: int, d: int) {
    exists i :: 0 <= i < |samples| && Grew(Tx, samples, i) && now - samples[i].at < d
  }

  lemma {:induction false} GrowthIsNotLater(c: Counter, samples: seq<Sample>, since: int, clock: int, i: nat)
    requires Ordered(samples, since, clock) && i < |samples| && Grew(c, samples, i)
    ensures LastGrowth(c, samples).Some? && samples[i].at <= LastGrowth(c, samples).value
  {
    var n := |samples| - 1;
    if i < n && !Grew(c, samples, n) {
      GrowthIsNotLater(c, samples[..n], since, clock, i);
    }
  }

  lemma {:induction false} GrowthWitness(c: Counter, samples: seq<Sample>) returns (i: nat)
    requires LastGrowth(c, samples).Some?
    ensures i < |samples| && Grew(c, samples, i) && samples[i].at == LastGrowth(c, samples).value
  {
    i := |samples| - 1;
    if !Grew(c, samples, i) {
      i := GrowthWitness(c, samples[..i]);
    }
  }

  lemma HeardByLast(samples: seq<Sample>, since: int, clock: int, now: int, d: int)
    requires Ordered(samples, since, clock)
    ensures Heard(samples, now, d) <==> LastGrowth(Rx, samples).Some? && now - LastGrowth(Rx, samples).value <= d
    ensures LastGrowth(Rx, samples).Some? ==> since <= LastGrowth(Rx, samples).value <= clock
  {
    if i :| 0 <= i < |samples| && Grew(Rx, samples, i) && now - samples[i].at <= d {
      GrowthIsNotLater(Rx, samples, since, clock, i);
    }
    if LastGrowth(Rx, samples).Some? {
      var i := GrowthWitness(Rx, samples);
    }
  }

  lemma SpokeByLast(samples: seq<Sample>, since: int, clock: int, now: int, d: int)
    requires Ordered(samples, since, clock)
    ensures Spoke(samples, now, d) <==> Within(LastGrowth(Tx, samples), now, d)
  {
    if i :| 0 <= i < |samples| && Grew(Tx, samples, i) && now - samples[i].at < d {
      GrowthIsNotLater(Tx, samples, since, clock, i);
    }
    if LastGrowth(Tx, samples).Some? {
      var i := GrowthWitness(Tx, samples);
    }
  }

  function InputsOf(s: State, now: int): Inputs {
    Inputs(s.lastHandshake, s.tunnelSince, s.appTxAt, s.appRxAt, s.dialAt, now)
  }

  // ---------------------------------------------------------------- the history of a run

  /** Whether a tunnel is live after a run. */
  function Live(run: seq<Timed>): bool {
    if run == [] then false
    else
      match run[|run| - 1].action
      case GoLive => true
      case Teardown => false
      case SampleOnce(_, _, _, _) => Live(run[..|run| - 1])
  }

  /** When the last tunnel went live, or the watchdog was started. */
  function Since(start: int, run: seq<Timed>): int {
    if run == [] then start
    else if run[|run| - 1].action.GoLive? then run[|run| - 1].at
    else Since(start, run[..|run| - 1])
  }

  /** What was sampled of the last tunnel while it was live. */
  function SamplesOf(run: seq<Timed>): seq<Sample> {
    if run == [] then []
    else
      var n := |run| - 1;
      match run[n].action
      case GoLive => []
      case Teardown => SamplesOf(run[..n])
      case SampleOnce(rx, tx, dialAt, handshake) =>
        SamplesOf(run[..n]) + if Live(run[..n]) then [Sample(run[n].at, rx, tx, dialAt, handshake)] else []
  }

  lemma RunSnoc(s: State, run: seq<Timed>)
    requires run != []
    ensures var n := |run| - 1; Run(s, run) == Step(Run(s, run[..n]), run[n].action, run[n].at)
  {
    var n := |run| - 1;
    assert run == run[..n] + [run[n]];
    RunConcat(s, run[..n], [run[n]]);
    assert [run[n]][1..] == [];
  }

  /** The fields are about the last tunnel of the run and what was sampled of it. */
  lemma {:induction false} FieldsTellTheRun(start: int, run: seq<Timed>)
    ensures var s := Run(Start(start), run);
            s.device == Live(run) && s.tunnelSince == Since(start, run) && s.samples == SamplesOf(run)
    decreases |run|
  {
    if run != [] {
      FieldsTellTheRun(start, run[..|run| - 1]);
      RunSnoc(Start(start), run);
    }
  }

  /** The last handshake is more than 210 seconds ago, or there was none in 210 seconds of the tunnel. */
  predicate Stale(live: bool, since: int, samples: seq<Sample>, now: int) {
    var handshake := if live then LastHandshake(samples) else 0;
    now - (if handshake == 0 then since else handshake * 1_000_000_000) > 210 * 1_000_000_000
  }

  /** Bytes went out, or a dial was tried, less than twenty seconds ago. */
  ghost predicate Demand(samples: seq<Sample>, now: int) {
    || Spoke(samples, now, 20 * 1_000_000_000)
    || (LastDial(samples).Some? && now - LastDial(samples).value < 20 * 1_000_000_000)
  }

  /** The decision by what was sampled of the tunnel. */
  ghost predicate Condemned(live: bool, since: int, samples: seq<Sample>, now: int) {
    || Stale(live, since, samples, now)
    || (Demand(samples, now) && now - since > 20 * 1_000_000_000 && !Heard(samples, now, 20 * 1_000_000_000))
  }

  lemma ReasonIsCondemned(s: State, now: int)
    requires Inv(s) && s.clock <= now
    ensures var r, stale := ReconnectReason(InputsOf(s, now)), Stale(s.device, s.tunnelSince, s.samples, now);
            && (r.Some? <==> Condemned(s.device, s.tunnelSince, s.samples, now))
            && (r == Some(DeadUnderLoad) <==> r.Some? && !stale)
            && (r == Some(NoHandshake) <==> stale && (!s.device || LastHandshake(s.samples) == 0))
  {
    HeardByLast(s.samples, s.tunnelSince, s.clock, now, RX_STALL_AFTER);
    SpokeByLast(s.samples, s.tunnelSince, s.clock, now, RX_STALL_AFTER);
  }

  /**
   After any run of samples, swaps and teardowns, a tunnel is condemned exactly when its handshake is
   stale, or when there was demand in the last twenty seconds, the tunnel has been live for longer than
   that, and no sample in that time saw inbound bytes.
   */
  lemma CondemnedExactly(start: int, run: seq<Timed>, now: int)
    requires Possible(Start(start), run) && Run(Start(start), run).clock <= now
    ensures var r := ReconnectReason(InputsOf(Run(Start(start), run), now));
            var stale := Stale(Live(run), Since(start, run), SamplesOf(run), now);
            && (r.Some? <==> Condemned(Live(run), Since(start, run), SamplesOf(run), now))
            && (r == Some(DeadUnderLoad) <==> r.Some? && !stale)
            && (r == Some(NoHandshake) <==> stale && (!Live(run) || LastHandshake(SamplesOf(run)) == 0))
  {
    InvRun(Start(start), run);
    FieldsTellTheRun(start, run);
    ReasonIsCondemned(Run(Start(start), run), now);
  }

  /** A tunnel that just went live, by install or swap, is left alone for twenty seconds whatever came before. */
  lemma GraceAfterGoingLive(start: int, before: seq<Timed>, at: int, after: seq<Timed>, now: int)
    requires var run := before + ([Timed(GoLive, at)] + after);
             && Possible(Start(start), run) && Run(Start(start), run).clock <= now
             && !Stale(Live(run), at, SamplesOf(run), now)
    requires (forall i :: 0 <= i < |after| ==> after[i].action.SampleOnce?) && now <= at + RX_STALL_AFTER
    ensures ReconnectReason(InputsOf(Run(Start(start), before + ([Timed(GoLive, at)] + after)), now)).None?
  {
    var run := before + ([Timed(GoLive, at)] + after);
    CondemnedExactly(start, run, now);
    FieldsTellTheRun(start, run);
    SinceGoLive(Start(start), before, at, after);
  }

  lemma SinceGoLive(s: State, before: seq<Timed>, at: int, after: seq<Timed>)
    requires forall i :: 0 <= i < |after| ==> after[i].action.SampleOnce?
    ensures Run(s, before + ([Timed(GoLive, at)] + after)).tunnelSince == at
  {
    var rest := [Timed(GoLive, at)] + after;
    RunConcat(s, before, rest);
    assert rest[1..] == after;
    SamplesKeepSince(Step(Run(s, before), GoLive, at), after);
  }

  lemma {:induction false} RunConcat(s: State, a: seq<Timed>, b: seq<Timed>)
    ensures Run(s, a + b) == Run(Run(s, a), b)
    decreases |a|
  {
    if a == [] {
      assert a + b == b;
    } else {
      assert (a + b)[1..] == a[1..] + b;
      RunConcat(Step(s, a[0].action, a[0].at), a[1..], b);
    }
  }

  lemma {:induction false} SamplesKeepSince(s: State, run: seq<Timed>)
    requires forall i :: 0 <= i < |run| ==> run[i].action.SampleOnce?
    ensures Run(s, run).tunnelSince == s.tunnelSince
    decreases |run|
  {
    if run != [] {
      SamplesKeepSince(Step(s, run[0].action, run[0].at), run[1..]);
    }
  }

  // ---------------------------------------------------------------- the manager's fields

  class Manager {
    var device: bool
    var tunnelSince: int
    var lastRx: int
    var lastTx: int
    var appTxAt: Option<int>
    var appRxAt: Option<int>
    var dialAt: Option<int>
    var lastHandshake: int
    ghost var samples: seq<Sample>
    ghost var clock: int

    ghost function View(): State
      reads this
    {
      State(device, tunnelSince, lastRx, lastTx, appTxAt, appRxAt, dialAt, lastHandshake, samples, clock)
    }

    constructor (now: int)
      ensures View() == Start(now) && Inv(View())
    {
      device, tunnelSince, lastRx, lastTx := false, now, 0, 0;
      appTxAt, appRxAt, dialAt, lastHandshake := None, None, None, 0;
      samples, clock := [], now;
    }

    /** Runs in the critical section that puts a tunnel in place. */
    method ResetTunnelStats(now: int)
      requires Inv(View()) && clock <= now
      modifies this
      ensures View() == Step(old(View()), GoLive, now) && Inv(View())
    {
      InvStep(View(), GoLive, now);
      device := true;
      lastRx, lastTx, lastHandshake := 0, 0, 0;
      appTxAt, appRxAt, dialAt := None, None, None;
      tunnelSince := now;
      samples, clock := [], now;
    }

    method Record(now: int, rx: int, tx: int, dialed: Option<int>, handshake: int)
      modifies this
      ensures View() == Step(old(View()), SampleOnce(rx, tx, dialed, handshake), now)
    {
      clock := now;
      if !device {
        return;
      }
      if tx > lastTx {
        appTxAt := Some(now);
      }
      if rx > lastRx {
        appRxAt := Some(now);
      }
      lastRx, lastTx := rx, tx;
      dialAt := dialed;
      lastHandshake := handshake;
      samples := samples + [Sample(now, rx, tx, dialed, handshake)];
    }

    /** A recorded inbound time is never from before the tunnel went live. */
    method TakeSample(now: int, rx: int, tx: int, dialed: Option<int>, handshake: int)
      requires Inv(View()) && clock <= now
      modifies this
      ensures View() == Step(old(View()), SampleOnce(rx, tx, dialed, handshake), now) && Inv(View())
      ensures appRxAt.Some? ==> tunnelSince <= appRxAt.value <= now
    {
      InvStep(View(), SampleOnce(rx, tx, dialed, handshake), now);
      Record(now, rx, tx, dialed, handshake);
      HeardByLast(samples, tunnelSince, clock, now, 0);
    }

    /** The watchdog's look and decision; the clock is read after the fields. */
    method Judge(now: int) returns (reason: Option<Reason>)
      requires Inv(View()) && clock <= now
      ensures reason == ReconnectReason(InputsOf(View(), now))
      ensures reason.Some? <==> Condemned(device, tunnelSince, samples, now)
    {
      ReasonIsCondemned(View(), now);
      reason := ReconnectReason(Inputs(lastHandshake, tunnelSince, appTxAt, appRxAt, dialAt, now));
    }
  }
}
