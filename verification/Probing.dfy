/** Devices of tunnels, their connections, the probing of candidates and the drain of retired ones. */
module Probing {
  import opened Basics
  import Rotation

  // ---------------------------------------------------------------- devices and connections

  class CountingConn {
    const dev: NetstackDevice
    var closed: bool

    constructor (device: NetstackDevice)
      ensures dev == device && !closed
    {
      dev, closed := device, false;
    }

    /** Closing twice counts once. */
    method Close()
      requires dev.Valid() && this in dev.conns
      modifies this`closed, dev`activeConns
      ensures dev.Valid() && closed
      ensures dev.OpenConns() == old(dev.OpenConns()) - {this}
    {
      ghost var before := dev.OpenConns();
      if !closed {
        closed := true;
        dev.activeConns := dev.activeConns - 1;
      }
      assert dev.OpenConns() == before - {this};
    }
  }

  class NetstackDevice {
    var activeConns: int
    var closed: bool
    ghost var conns: set<CountingConn>
    /** How often the WireGuard device underneath was taken down. */
    ghost var downs: nat

    ghost function OpenConns(): set<CountingConn>
      reads this, conns
    {
      set c | c in conns && !c.closed
    }

    ghost predicate Valid()
      reads this, conns
    {
      && (forall c :: c in conns ==> c.dev == this)
      && activeConns == |OpenConns()|
      && downs == if closed then 1 else 0
    }

    constructor ()
      ensures Valid() && !closed && conns == {}
    {
      activeConns, closed, conns, downs := 0, false, {}, 0;
      new;
      assert OpenConns() == {};
    }

    method DialContext(answered: bool) returns (conn: CountingConn?)
      requires Valid()
      modifies this`activeConns, this`conns
      ensures Valid() && (conn != null <==> answered)
      ensures conn == null ==> conns == old(conns) && OpenConns() == old(OpenConns())
      ensures conn != null ==> fresh(conn) && conns == old(conns) + {conn} && OpenConns() == old(OpenConns()) + {conn}
    {
      if !answered {
        return null;
      }
      conn := new CountingConn(this);
      conns := conns + {conn};
      activeConns := activeConns + 1;
      assert OpenConns() == old(OpenConns()) + {conn};
    }

    /** What the drain polls. */
    method ActiveConns() returns (n: int)
      requires Valid()
      ensures n == |OpenConns()| && (n == 0 <==> forall c :: c in conns ==> c.closed)
    {
      n := activeConns;
      assert forall c :: c in conns && !c.closed ==> c in OpenConns();
    }

    method Close()
      requires Valid()
      modifies this`closed, this`downs
      ensures Valid() && closed && downs == 1
    {
      if closed {
        return;
      }
      closed := true;
      downs := downs + 1;
      assert OpenConns() == old(OpenConns());
    }
  }

  // ---------------------------------------------------------------- probing

  datatype ProbeError = DnsUnreachable | NoRecentReachable

  /** Probe 0 asks the tunnel's DNS server, probe `i + 1` the `i`-th recent destination. */
  method ProbeTunnel(answered: nat -> bool, recents: nat, strict: bool) returns (err: Option<ProbeError>, probes: nat)
    ensures err.None? <==>
            answered(0) && (recents == 0 || !strict || exists i: nat :: 1 <= i <= recents && answered(i))
    ensures err == Some(DnsUnreachable) <==> !answered(0)
    ensures 1 <= probes <= recents + 1
    ensures forall i: nat :: 1 <= i < probes - 1 ==> !answered(i)
    ensures answered(0) ==> probes == recents + 1 || (probes > 1 && answered(probes - 1))
  {
    probes := 1;
    if !answered(0) {
      return Some(DnsUnreachable), probes;
    }
    if recents == 0 {
      return None, probes;
    }
    while probes < recents + 1
      invariant 1 <= probes <= recents + 1
      invariant forall i: nat :: 1 <= i < probes ==> !answered(i)
    {
      probes := probes + 1;
      if answered(probes - 1) {
        return None, probes;
      }
    }
    err := if strict then Some(NoRecentReachable) else None;
  }

  /** How the probe of the candidate of one attempt comes out, in the terms of the rotation. */
  ghost function Outcome(answered: (nat, nat) -> bool, recents: nat, attempt: nat): Rotation.Probe {
    Rotation.Probe(
      answered(attempt, 0), exists i: nat :: 1 <= i <= recents && answered(attempt, i), recents > 0, attempt)
  }

  /** One candidate's probe: on the last attempt a probe that is not strict. */
  method Probe(answered: (nat, nat) -> bool, attempt: nat, recents: nat, strict: bool) returns (err: Option<ProbeError>)
    requires strict <==> attempt != Rotation.BUILD_ATTEMPTS - 1
    ensures err.None? <==> Rotation.Passed(Outcome(answered, recents, attempt))
  {
    var mine := (i: nat) => answered(attempt, i);
    var probes: nat;
    err, probes := ProbeTunnel(mine, recents, strict);
    assert forall i: nat :: mine(i) == answered(attempt, i);
  }

  /** Taken down exactly once. */
  ghost predicate Discarded(d: NetstackDevice)
    reads d, d.conns
  {
    d.Valid() && d.closed && d.downs == 1
  }

  /** Brings up devices; it remembers how often it was asked and which devices came up. */
  class Builder {
    const builds: nat -> bool
    var asked: nat
    var built: seq<NetstackDevice>

    constructor (builds: nat -> bool)
      ensures this.builds == builds && asked == 0 && built == []
    {
      this.builds, asked, built := builds, 0, [];
    }

    method BuildTunnel() returns (device: NetstackDevice?)
      modifies this
      ensures asked == old(asked) + 1 && (device != null <==> builds(old(asked)))
      ensures device == null ==> built == old(built)
      ensures device != null ==> fresh(device) && built == old(built) + [device]
      ensures device != null ==> device.Valid() && !device.closed && device.conns == {}
    {
      device := null;
      if builds(asked) {
        device := new NetstackDevice();
        built := built + [device];
      }
      asked := asked + 1;
    }
  }

  /** One candidate: built, probed, and closed again if it did not pass. */
  method TryCandidate(builder: Builder, answered: (nat, nat) -> bool, recents: nat)
    returns (device: NetstackDevice?, passed: bool)
    requires builder.asked < Rotation.BUILD_ATTEMPTS
    modifies builder
    ensures builder.asked == old(builder.asked) + 1 && (device != null <==> builder.builds(old(builder.asked)))
    ensures device == null ==> builder.built == old(builder.built)
    ensures device != null ==> fresh(device) && builder.built == old(builder.built) + [device] && device.conns == {}
    ensures device != null ==> (passed <==> Rotation.Passed(Outcome(answered, recents, old(builder.asked))))
    ensures device != null ==> if passed then device.Valid() && !device.closed else Discarded(device)
  {
    var attempt := builder.asked;
    device := builder.BuildTunnel();
    passed := false;
    if device == null {
      return;
    }
    var strict := attempt < Rotation.BUILD_ATTEMPTS - 1;
    var err := Probe(answered, attempt, recents, strict);
    passed := err.None?;
    if !passed {
      device.Close();
    }
  }

  /** The candidates so far, each taken down once. */
  ghost predicate AllDiscarded(built: seq<NetstackDevice>)
    reads built, set c, d | d in built && c in d.conns :: c
  {
    && (forall i :: 0 <= i < |built| ==> Discarded(built[i]) && built[i].conns == {})
    && (forall i, j :: 0 <= i < j < |built| ==> built[i] != built[j])
  }

  /**
   Up to four candidates: of all devices brought up, every one but the one returned is closed once; the
   one returned passed its probe and is open, and the candidates before it did not pass. Without a
   device, every attempt failed or a build did.
   */
  method BuildLiveTunnel(builder: Builder, answered: (nat, nat) -> bool, recents: nat)
    returns (device: NetstackDevice?)
    requires builder.asked == 0 && builder.built == []
    modifies builder
    ensures builder.asked <= Rotation.BUILD_ATTEMPTS && |builder.built| <= builder.asked
    ensures forall i :: 0 <= i < |builder.built| ==> fresh(builder.built[i])
    ensures forall i: nat :: i < |builder.built| ==> builder.builds(i)
    ensures device != null ==> builder.built != []
    ensures var failed := if device == null then builder.built else builder.built[..|builder.built| - 1];
            && AllDiscarded(failed)
            && (forall i: nat :: i < |failed| ==> !Rotation.Passed(Outcome(answered, recents, i)))
            && (device != null ==>
                  && builder.built == failed + [device] && device.Valid() && !device.closed && device !in failed
                  && Rotation.Passed(Outcome(answered, recents, |failed|)))
            && (device == null ==>
                  |failed| == Rotation.BUILD_ATTEMPTS || (builder.asked == |failed| + 1 && !builder.builds(|failed|)))
  {
    while builder.asked < Rotation.BUILD_ATTEMPTS
      invariant builder.asked == |builder.built| <= Rotation.BUILD_ATTEMPTS
      invariant forall i :: 0 <= i < |builder.built| ==> fresh(builder.built[i])
      invariant AllDiscarded(builder.built)
      invariant forall i: nat :: i < |builder.built| ==>
        builder.builds(i) && !Rotation.Passed(Outcome(answered, recents, i))
    {
      ghost var failed := builder.built;
      var passed;
      device, passed := TryCandidate(builder, answered, recents);
      assert device != null ==> builder.built[..|failed|] == failed;
      if device == null || passed {
        return;
      }
    }
    device := null;
  }

  // ---------------------------------------------------------------- draining

  /**
   Waits from `start`, polling; `active(t)` is what a poll at time `t` counts. It ends at the first poll,
   never before `min`, that finds no connection or the deadline passed.
   */
  method WaitDrained(active: int -> int, start: int, min: nat, max: nat, step: nat) returns (end: int, polls: nat)
    requires step > 0
    ensures end == start + min + polls * step
    ensures active(end) <= 0 || end >= start + max
    ensures forall k: nat :: k < polls ==> active(start + min + k * step) > 0 && start + min + k * step < start + max
    ensures end == start + min || end < start + max + step
  {
    var deadline := start + max;
    end, polls := start + min, 0;
    while active(end) > 0 && end < deadline
      invariant end == start + min + polls * step
      invariant forall k: nat :: k < polls ==> active(start + min + k * step) > 0 && start + min + k * step < deadline
      invariant end == start + min || end < deadline + step
      decreases deadline - end
    {
      end, polls := end + step, polls + 1;
    }
  }
}
