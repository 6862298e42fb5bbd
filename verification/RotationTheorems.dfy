/**
 What holds in every state that any interleaving of connects, refreshes, reconnects, disconnects and
 logouts can reach.
 */
module RotationTheorems {
  import opened Basics
  import opened Rotation
  import opened RotationProofs

  datatype Holder = ByManager | ByThread(t: Thread)

  ghost predicate Holds(s: Sys, h: Holder, d: Device) {
    match h
    case ByManager => s.device == Some(d)
    case ByThread(t) => t in s.threads && Owned(s.threads[t]) == Some(d)
  }

  /** Nothing leaks and nothing is closed twice: an open device has exactly one holder, a closed one none. */
  ghost predicate Conserved(s: Sys) {
    && (forall d: Device :: d in s.closes ==> s.closes[d] <= 1)
    && (forall d: Device :: Open(s, d) ==> exists h :: Holds(s, h, d))
    && (forall d: Device, h :: Holds(s, h, d) ==> Open(s, d))
    && (forall d: Device, h, k :: Holds(s, h, d) && Holds(s, k, d) ==> h == k)
  }

  lemma OwnersConserve(s: Sys)
    requires Owners(s)
    ensures Conserved(s)
  {
    forall d: Device | Open(s, d) ensures exists h :: Holds(s, h, d) {
      assert Held(s, d);
      if s.device == Some(d) {
        assert Holds(s, ByManager, d);
      } else {
        var t :| t in s.threads && Owned(s.threads[t]) == Some(d);
        assert Holds(s, ByThread(t), d);
      }
    }
  }

  /** Installing over an installed tunnel leaves its device open with nobody to close it. */
  lemma OverwriteLeaks(s: Sys, a: Action)
    requires Owners(s) && Enabled(s, a) && Overwrites(s, a)
    ensures !Conserved(Step(s, a))
  {
    var s', d := Step(s, a), s.device.value;
    assert Open(s', d);
    assert Owned(s.threads[a.t]).Some?;
    assert forall h :: !Holds(s', h, d);
  }

  lemma {:induction false} ConservedThroughout(s: Sys, actions: seq<Action>, s': Sys)
    requires Inv(s) && Run(s, actions, s')
    ensures Always(s, actions, Conserved) <==> Never(s, actions, Overwrites)
    decreases |actions|
  {
    OwnersConserve(s);
    if actions != [] {
      var next := Step(s, actions[0]);
      if Overwrites(s, actions[0]) {
        OverwriteLeaks(s, actions[0]);
      } else {
        InvStep(s, actions[0]);
        ConservedThroughout(next, actions[1..], s');
      }
    }
  }

  /**
   Over every run, whatever the listen address and however it changes: devices are conserved after
   every step if and only if no connect installs its tunnel over one that is installed.
   */
  lemma DeviceConservation(addr: Address, actions: seq<Action>, s: Sys)
    requires Run(Init(addr), actions, s)
    ensures Always(Init(addr), actions, Conserved) <==> Never(Init(addr), actions, Overwrites)
  {
    ConservedThroughout(Init(addr), actions, s);
  }

  /**
   Make before break, over every run that installs nothing over an installed tunnel: while connected
   with a proxy, new connections go through an open device, the manager's own or the one a refresh is
   committing; devices a refresh hands to a proxy passed their probe; a commit that still sees its
   proxy replaces the device it noted; and the manager has a device exactly when it has a proxy.
   */
  lemma MakeBeforeBreak(addr: Address, actions: seq<Action>, s: Sys)
    requires Run(Init(addr), actions, s) && Never(Init(addr), actions, Overwrites)
    ensures s.state == Connected && s.proxy.Some? ==>
              && s.proxy.value in s.dialer && Open(s, s.dialer[s.proxy.value])
              && (|| s.device == Some(s.dialer[s.proxy.value])
                  || BeingCommitted(s, s.proxy.value, s.dialer[s.proxy.value]))
    ensures forall d: Device :: d in s.handed ==>
              && d in s.probes && s.probes[d].dns
              && (s.probes[d].reached || !s.probes[d].recents || s.probes[d].attempt == 3)
    ensures forall t :: At(s, t).Swapped? && s.proxy == Some(At(s, t).p) ==> s.device == Some(At(s, t).was)
    ensures s.device.Some? <==> s.proxy.Some?
  {
    InvRun(Init(addr), actions, s);
    if s.state == Connected && s.proxy.Some? { DialerIsOpen(s); }
    forall t | At(s, t).Swapped? && s.proxy == Some(At(s, t).p) ensures s.device == Some(At(s, t).was) {
      CommitReplacesNoted(s, t);
    }
  }

  lemma DialerIsOpen(s: Sys)
    requires Dialers(s) && Owners(s) && s.state == Connected && s.proxy.Some?
    ensures Open(s, s.dialer[s.proxy.value])
  {
  }

  // ---------------------------------------------------------------- the listen address

  /** What is asked of the listen address: that it has a port, that it changes only while nothing listens. */
  datatype Policy = Policy(fixed: bool, quiet: bool)

  /** An update of the address that the policy rules out. */
  predicate Loose(policy: Policy, s: Sys, a: Action) {
    && a.Ask? && a.request.UpdateListen?
    && (|| (policy.fixed && a.request.addr.FreePort?)
        || (policy.quiet && a.request.addr != s.addr && s.live != map[]))
  }

  ghost predicate RunUnder(policy: Policy, addr: Address, actions: seq<Action>, s: Sys) {
    && (policy.fixed ==> addr.Fixed?)
    && Run(Init(addr), actions, s)
    && Never(Init(addr), actions, (s, a) => Loose(policy, s, a))
  }

  const STRICT := Policy(true, true)

  lemma RefreshKeepsListeners(s: Sys, t: Thread, r: RefreshStep)
    requires RefreshEnabled(s, t, r)
    ensures var s' := RefreshRun(s, t, r);
            s'.live == s.live && s'.addr == s.addr && s'.proxy == s.proxy && s'.state == s.state
  {
    if r.ProbeDone? { ProbeFrame(s, t, r.dns, r.reached); } else { RefreshFrame(s, t, r); }
  }

  lemma OneListenerAsk(s: Sys, t: Thread, r: Request)
    requires OneListener(s) && AskEnabled(s, t, r) && !Loose(STRICT, s, Ask(t, r))
    ensures OneListener(AskStep(s, t, r))
  {
  }

  lemma OneListenerConnect(s: Sys, t: Thread, c: ConnectStep)
    requires OneListener(s) && ConnectEnabled(s, t, c)
    ensures OneListener(ConnectRun(s, t, c))
  {
  }

  lemma OneListenerStep(s: Sys, a: Action)
    requires OneListener(s) && Enabled(s, a) && !Loose(STRICT, s, a)
    ensures OneListener(Step(s, a))
  {
    match a {
      case Ask(t, r) => OneListenerAsk(s, t, r);
      case Connect(t, c) => OneListenerConnect(s, t, c);
      case Tear(t, d) => TearFrame(s, t, d);
      case Refresh(t, r) => RefreshKeepsListeners(s, t, r);
    }
  }

  /** With a port, and unchanged while a proxy listens, the address admits one listener at a time. */
  lemma {:induction false} OneListenerRun(s: Sys, actions: seq<Action>, s': Sys)
    requires Inv(s) && OneListener(s) && Run(s, actions, s')
    requires Never(s, actions, (s, a) => Loose(STRICT, s, a))
    ensures Never(s, actions, Overwrites)
    decreases |actions|
  {
    if actions != [] {
      if Overwrites(s, actions[0]) { InstallsOverNothing(s, actions[0].t); }
      OneListenerStep(s, actions[0]);
      InvStep(s, actions[0]);
      OneListenerRun(Step(s, actions[0]), actions[1..], s');
    }
  }

  lemma {:induction false} AlwaysAtEnd(s: Sys, actions: seq<Action>, s': Sys, p: Sys -> bool)
    requires Run(s, actions, s') && Always(s, actions, p)
    ensures p(s')
    decreases |actions|
  {
    if actions != [] { AlwaysAtEnd(Step(s, actions[0]), actions[1..], s', p); }
  }

  ghost predicate AlwaysConserved(policy: Policy) {
    forall addr, actions, s :: RunUnder(policy, addr, actions, s) ==> Conserved(s)
  }

  /** Devices are conserved over all runs exactly when both are asked of the listen address. */
  lemma ConservedIffStrict(policy: Policy)
    ensures AlwaysConserved(policy) <==> policy.fixed && policy.quiet
  {
    if policy == STRICT {
      forall addr, actions, s | RunUnder(policy, addr, actions, s) ensures Conserved(s) {
        OneListenerRun(Init(addr), actions, s);
        DeviceConservation(addr, actions, s);
        AlwaysAtEnd(Init(addr), actions, s, Conserved);
      }
    } else {
      var addr, actions, s := Leak(policy);
    }
  }

  lemma {:induction false} Extend(s0: Sys, actions: seq<Action>, s: Sys, a: Action, bad: (Sys, Action) -> bool)
    requires Run(s0, actions, s) && Never(s0, actions, bad) && Enabled(s, a) && !bad(s, a)
    ensures Run(s0, actions + [a], Step(s, a)) && Never(s0, actions + [a], bad)
    decreases |actions|
  {
    if actions == [] {
      assert [] + [a] == [a];
    } else {
      Extend(Step(s0, actions[0]), actions[1..], s, a, bad);
      assert (actions + [a])[1..] == actions[1..] + [a];
    }
  }

  /** Another step of a run. */
  lemma Then(policy: Policy, addr: Address, actions: seq<Action>, s: Sys, a: Action)
    returns (more: seq<Action>, s': Sys)
    requires RunUnder(policy, addr, actions, s) && Enabled(s, a) && !Loose(policy, s, a)
    ensures s' == Step(s, a) && more == actions + [a] && RunUnder(policy, addr, more, s')
  {
    Extend(Init(addr), actions, s, a, (s, a) => Loose(policy, s, a));
    more, s' := actions + [a], Step(s, a);
  }

  /** A connect that gets to listen. */
  lemma OneListens(policy: Policy, addr: Address) returns (actions: seq<Action>, s: Sys)
    requires policy.fixed ==> addr.Fixed?
    ensures RunUnder(policy, addr, actions, s)
    ensures s.state == Connecting && s.device.None? && s.proxy.None? && s.addr == addr
    ensures s.threads == map[0 := Listening(FromConnect, 0, 0)]
    ensures s.closes == map[0 := 0] && s.live == map[0 := addr] && s.nextDevice == 1 && s.nextProxy == 1
  {
    actions, s := [], Init(addr);
    actions, s := Then(policy, addr, actions, s, Ask(0, AskConnect));
    actions, s := Then(policy, addr, actions, s, Connect(0, BuildOk));
    actions, s := Then(policy, addr, actions, s, Connect(0, ListenOk));
    assert s.threads == map[0 := Listening(FromConnect, 0, 0)];
  }

  /** It is asked to disconnect, and the address is updated meanwhile. */
  lemma FirstListens(policy: Policy, addr: Address, addr': Address) returns (actions: seq<Action>, s: Sys)
    requires (policy.fixed ==> addr.Fixed? && addr'.Fixed?) && (policy.quiet ==> addr' == addr)
    ensures RunUnder(policy, addr, actions, s)
    ensures s.state == Disconnecting && s.device.None? && s.proxy.None? && s.addr == addr'
    ensures s.threads == map[0 := Listening(FromConnect, 0, 0), 1 := TearStart(ToLoggedIn), 2 := Ended]
    ensures s.closes == map[0 := 0] && s.live == map[0 := addr] && s.nextDevice == 1 && s.nextProxy == 1
  {
    hide RunUnder;
    actions, s := OneListens(policy, addr);
    actions, s := Then(policy, addr, actions, s, Ask(1, AskDisconnect));
    actions, s := Then(policy, addr, actions, s, Ask(2, UpdateListen(addr')));
    assert s.threads == map[0 := Listening(FromConnect, 0, 0), 1 := TearStart(ToLoggedIn), 2 := Ended];
  }

  /** A second connect gets to listen too. */
  lemma SecondListens(policy: Policy, addr: Address, addr': Address) returns (actions: seq<Action>, s: Sys)
    requires (policy.fixed ==> addr.Fixed? && addr'.Fixed?) && (policy.quiet ==> addr' == addr)
    requires addr' == FreePort || addr' != addr
    ensures RunUnder(policy, addr, actions, s) && s.closes == map[0 := 0, 1 := 0] && s.device.None?
    ensures s.threads == map[0 := Listening(FromConnect, 0, 0), 1 := TearStart(ToLoggedIn), 2 := Ended,
                             3 := Listening(FromConnect, 1, 1)]
  {
    hide RunUnder;
    actions, s := FirstListens(policy, addr, addr');
    actions, s := Then(policy, addr, actions, s, Ask(3, AskConnect));
    actions, s := Then(policy, addr, actions, s, Connect(3, BuildOk));
    actions, s := Then(policy, addr, actions, s, Connect(3, ListenOk));
    assert s.closes == map[0 := 0, 1 := 0];
    assert s.threads == map[0 := Listening(FromConnect, 0, 0), 1 := TearStart(ToLoggedIn), 2 := Ended,
                            3 := Listening(FromConnect, 1, 1)];
  }

  /**
   Both requirements are needed. When every proxy gets a port of its own, or when the port changes
   while one listens, a connect that was asked to disconnect and a second connect both install, and
   the first device is left open with nobody to close it.
   */
  lemma Leak(policy: Policy) returns (addr: Address, actions: seq<Action>, s: Sys)
    requires policy != STRICT
    ensures RunUnder(policy, addr, actions, s) && !Conserved(s)
    ensures policy.fixed ==> addr == Fixed(1080)
  {
    hide RunUnder;
    addr := if policy.fixed then Fixed(1080) else FreePort;
    actions, s := SecondListens(policy, addr, if policy.fixed then Fixed(1081) else FreePort);
    actions, s := Then(policy, addr, actions, s, Connect(0, Install));
    actions, s := Then(policy, addr, actions, s, Connect(3, Install));
    assert Open(s, 0);
    assert forall h :: !Holds(s, h, 0);
  }

  // ---------------------------------------------------------------- connected without a proxy

  predicate Served(s: Sys) {
    s.state == Connected ==> s.proxy.Some?
  }

  /** A teardown takes the proxy away while the manager is connected. */
  predicate Strips(s: Sys, a: Action) {
    a.Tear? && a.tear.TakeDown? && s.state == Connected
  }

  lemma ServedConnect(s: Sys, t: Thread, c: ConnectStep)
    requires Served(s) && ConnectEnabled(s, t, c)
    ensures Served(ConnectRun(s, t, c))
  {
  }

  lemma ServedStep(s: Sys, a: Action)
    requires Served(s) && Enabled(s, a)
    ensures Served(Step(s, a)) <==> !Strips(s, a)
  {
    match a {
      case Ask(t, r) =>
      case Connect(t, c) => ServedConnect(s, t, c);
      case Tear(t, d) =>
      case Refresh(t, r) => RefreshKeepsListeners(s, t, r);
    }
  }

  /**
   Over every run: the manager has a proxy whenever it says it is connected, if and only if no
   teardown takes the proxy down in that state. A teardown can be late: a failed connect, a logout
   and a disconnect each leave the lock before it, and a connect may install in between.
   */
  lemma {:induction false} ConnectedMeansServed(s: Sys, actions: seq<Action>, s': Sys)
    requires Served(s) && Run(s, actions, s')
    ensures Always(s, actions, Served) <==> Never(s, actions, Strips)
    decreases |actions|
  {
    if actions != [] {
      ServedStep(s, actions[0]);
      if !Strips(s, actions[0]) {
        ConnectedMeansServed(Step(s, actions[0]), actions[1..], s');
      }
    }
  }

  /** A failed connect says so before it tears down. */
  lemma FirstFails(addr: Address) returns (actions: seq<Action>, s: Sys)
    ensures RunUnder(Policy(addr.Fixed?, true), addr, actions, s)
    ensures s == Init(addr).(threads := map[0 := TearStart(ToEnd)])
  {
    var policy := Policy(addr.Fixed?, true);
    actions, s := [], Init(addr);
    actions, s := Then(policy, addr, actions, s, Ask(0, AskConnect));
    actions, s := Then(policy, addr, actions, s, Connect(0, BuildErr));
    actions, s := Then(policy, addr, actions, s, Connect(0, GiveUp));
    assert s.threads == map[0 := TearStart(ToEnd)];
  }

  /** A second connect comes up in between. */
  lemma SecondComesUp(addr: Address) returns (actions: seq<Action>, s: Sys)
    ensures RunUnder(Policy(addr.Fixed?, true), addr, actions, s)
    ensures s.state == Connected && s.proxy == Some(0) && s.device == Some(0) && s.live == map[0 := addr]
    ensures s.threads == map[0 := TearStart(ToEnd), 1 := Ended]
  {
    hide RunUnder;
    var policy := Policy(addr.Fixed?, true);
    actions, s := FirstFails(addr);
    actions, s := Then(policy, addr, actions, s, Ask(1, AskConnect));
    actions, s := Then(policy, addr, actions, s, Connect(1, BuildOk));
    actions, s := Then(policy, addr, actions, s, Connect(1, ListenOk));
    actions, s := Then(policy, addr, actions, s, Connect(1, Install));
    assert s.threads == map[0 := TearStart(ToEnd), 1 := Ended];
  }

  /** The first connect's teardown then takes the second one's proxy. */
  lemma FirstTakesDown(addr: Address) returns (actions: seq<Action>, s: Sys)
    ensures RunUnder(Policy(addr.Fixed?, true), addr, actions, s)
    ensures s.state == Connected && s.proxy.None? && s.device.None? && s.live == map[]
    ensures s.threads == map[0 := ClosingDevice(Some(0), ToEnd), 1 := Ended]
  {
    hide RunUnder;
    var policy := Policy(addr.Fixed?, true);
    actions, s := SecondComesUp(addr);
    actions, s := Then(policy, addr, actions, s, Tear(0, TakeDown));
    actions, s := Then(policy, addr, actions, s, Tear(0, CloseProxy));
    assert s.threads == map[0 := ClosingDevice(Some(0), ToEnd), 1 := Ended];
  }

  /** Only requests can follow once every thread is done, and a connected manager refuses to connect. */
  lemma OnlyRequests(s: Sys, a: Action)
    requires s.state == Connected && Enabled(s, a)
    requires forall t :: t in s.threads ==> s.threads[t].Ended?
    ensures a.Ask? && !a.request.AskConnect?
  {
  }

  /**
   And it stays like that: the manager is connected without a proxy, every thread is done, and a
   connect is refused.
   */
  lemma StrandedConnected(addr: Address) returns (actions: seq<Action>, s: Sys)
    ensures RunUnder(Policy(addr.Fixed?, true), addr, actions, s)
    ensures s.state == Connected && s.proxy.None? && s.device.None? && s.live == map[]
    ensures forall t :: t in s.threads ==> s.threads[t].Ended?
    ensures forall a :: Enabled(s, a) ==> a.Ask? && !a.request.AskConnect?
  {
    hide RunUnder;
    var policy := Policy(addr.Fixed?, true);
    actions, s := FirstTakesDown(addr);
    actions, s := Then(policy, addr, actions, s, Tear(0, CloseDevice));
    actions, s := Then(policy, addr, actions, s, Tear(0, AfterTeardown));
    assert s.threads == map[0 := Ended, 1 := Ended];
    forall a | Enabled(s, a) ensures a.Ask? && !a.request.AskConnect? { OnlyRequests(s, a); }
  }
}
