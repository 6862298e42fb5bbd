/** Every interleaving keeps the ownership of devices, the listener, and the proxy's dialer in order. */
module RotationProofs {
  import opened Basics
  import opened Rotation

  /** The step moves one thread; the rest of the threads stay where they are. */
  ghost predicate Moves(s: Sys, s': Sys, t: Thread) {
    t in s'.threads && s'.threads == s.threads[t := s'.threads[t]]
  }

  /** What a probe's verdict leaves alone. */
  lemma ProbeFrame(s: Sys, t: Thread, dns: bool, reached: bool)
    requires At(s, t).Probing?
    ensures var s' := ProbeRun(s, t, dns, reached);
            && Moves(s, s', t) && OwnedProxy(s'.threads[t]).None?
            && !s'.threads[t].Listening? && !s'.threads[t].Swapped?
            && s'.live == s.live && s'.proxy == s.proxy && s'.nextProxy == s.nextProxy && s'.state == s.state
            && s'.addr == s.addr && s'.device == s.device && s'.nextDevice == s.nextDevice
            && s'.dialer == s.dialer && s'.handed == s.handed
  {
  }

  /** Where a probe's verdict sends the thread, and what happens to the candidate. */
  lemma ProbeVerdict(s: Sys, t: Thread, dns: bool, reached: bool)
    requires At(s, t).Probing?
    ensures var pc := At(s, t);
            var s', passed := ProbeRun(s, t, dns, reached), Passed(Probe(dns, reached, pc.recents, pc.attempt));
            && s'.closes == (if passed then s.closes else Close(s, pc.d).closes)
            && Owned(s'.threads[t]) == (if passed then Some(pc.d) else None)
            && (s'.threads[t].Validated? <==> passed)
            && (if passed || pc.attempt < BUILD_ATTEMPTS - 1
                then Noted(s'.threads[t]) == Noted(pc) && s'.refreshLock == s.refreshLock
                else s'.threads[t].Ended? && s'.refreshLock.None?)
  {
  }

  /** What the other steps of a refresh and its drain leave alone. */
  lemma RefreshFrame(s: Sys, t: Thread, r: RefreshStep)
    requires RefreshEnabled(s, t, r) && !r.ProbeDone?
    ensures var s' := RefreshRun(s, t, r);
            && Moves(s, s', t) && OwnedProxy(s'.threads[t]).None? && OwnedProxy(At(s, t)).None?
            && s'.live == s.live && s'.proxy == s.proxy && s'.nextProxy == s.nextProxy && s'.state == s.state
            && s'.addr == s.addr && !s'.threads[t].Listening?
            && (!r.Commit? ==> s'.device == s.device)
            && (!r.SetTunnel? ==> s'.dialer == s.dialer && s'.handed == s.handed)
  {
  }

  /** What the steps of a teardown leave alone. */
  lemma TearFrame(s: Sys, t: Thread, d: TearStep)
    requires TearEnabled(s, t, d)
    ensures var s' := TearRun(s, t, d);
            && s'.nextProxy == s.nextProxy && s'.nextDevice == s.nextDevice && s'.refreshLock == s.refreshLock
            && s'.addr == s.addr && s'.dialer == s.dialer && s'.probes == s.probes && s'.handed == s.handed
            && (s'.state != s.state ==> s'.state != Connected)
            && (if d.TakeDown? then s'.proxy.None? && s'.device.None? else s'.proxy == s.proxy && s'.device == s.device)
            && (!d.CloseProxy? ==> s'.live == s.live)
            && (!d.CloseDevice? ==> s'.closes == s.closes)
  {
  }

  /** What the thread of a teardown goes on to hold. */
  lemma TearHolds(s: Sys, t: Thread, d: TearStep)
    requires TearEnabled(s, t, d)
    ensures var s' := TearRun(s, t, d);
            && Moves(s, s', t) && Noted(s'.threads[t]).None? && !s'.threads[t].Listening? && !InRefresh(s'.threads[t])
            && (d.CloseDevice? || d.AfterTeardown? ==> OwnedProxy(s'.threads[t]).None? && OwnedProxy(At(s, t)).None?)
            && (d.CloseProxy? || d.AfterTeardown? ==> Owned(s'.threads[t]) == Owned(At(s, t)))
  {
  }

  // ---------------------------------------------------------------- devices

  ghost predicate SameDevices(s: Sys, s': Sys) {
    s'.closes == s.closes && s'.device == s.device && s'.nextDevice == s.nextDevice
  }

  lemma HeldByOther(s: Sys, s': Sys, t: Thread, d: Device)
    requires Owners(s) && Moves(s, s', t) && Open(s, d) && s.device != Some(d) && Owned(At(s, t)) != Some(d)
    ensures Held(s', d)
  {
    var u :| u in s.threads && Owned(s.threads[u]) == Some(d);
    assert u in s'.threads && Owned(s'.threads[u]) == Some(d);
  }

  /** A thread moves on without any device changing hands. */
  lemma KeepDevices(s: Sys, s': Sys, t: Thread)
    requires Owners(s) && Moves(s, s', t) && SameDevices(s, s') && Owned(s'.threads[t]) == Owned(At(s, t))
    ensures Owners(s')
  {
    forall d: Device | Open(s', d) ensures Held(s', d) {
      if s.device != Some(d) && Owned(At(s, t)) != Some(d) { HeldByOther(s, s', t, d); }
    }
  }

  /** A thread gets a new device. */
  lemma GetDevice(s: Sys, s': Sys, t: Thread)
    requires Owners(s) && Moves(s, s', t) && Owned(At(s, t)).None? && Owned(s'.threads[t]) == Some(s.nextDevice)
    requires s'.closes == s.closes[s.nextDevice := 0] && s'.device == s.device && s'.nextDevice == s.nextDevice + 1
    ensures Owners(s')
  {
    assert s.nextDevice !in s.closes;
    forall d: Device | Open(s', d) ensures Held(s', d) {
      if d != s.nextDevice && s.device != Some(d) { HeldByOther(s, s', t, d); }
    }
  }

  /** A thread closes the device it holds. */
  lemma DropDevice(s: Sys, s': Sys, t: Thread)
    requires Owners(s) && Moves(s, s', t) && Owned(At(s, t)).Some? && Owned(s'.threads[t]).None?
    requires s'.closes == s.closes[Owned(At(s, t)).value := 1] && s'.device == s.device && s'.nextDevice == s.nextDevice
    ensures Owners(s')
  {
    forall d: Device | Open(s', d) ensures Held(s', d) {
      assert Open(s, d);
      if s.device != Some(d) { HeldByOther(s, s', t, d); }
    }
  }

  /** A thread and the manager exchange what they hold. */
  lemma ExchangeDevices(s: Sys, s': Sys, t: Thread)
    requires Owners(s) && t in s.threads && Moves(s, s', t)
    requires Owned(s'.threads[t]) == s.device && s'.device == Owned(s.threads[t])
    requires s'.closes == s.closes && s'.nextDevice == s.nextDevice
    ensures Owners(s')
  {
    forall d: Device | Open(s', d) ensures Held(s', d) {
      if s.device != Some(d) && Owned(At(s, t)) != Some(d) { HeldByOther(s, s', t, d); }
    }
  }

  lemma CloseOnce(s: Sys, t: Thread)
    requires Owners(s) && Owned(At(s, t)).Some?
    ensures Close(s, Owned(At(s, t)).value).closes == s.closes[Owned(At(s, t)).value := 1]
  {
  }

  lemma OwnersAsk(s: Sys, t: Thread, r: Request)
    requires Owners(s) && AskEnabled(s, t, r)
    ensures Owners(AskStep(s, t, r))
  {
    KeepDevices(s, AskStep(s, t, r), t);
  }

  lemma OwnersConnect(s: Sys, t: Thread, c: ConnectStep)
    requires Owners(s) && ConnectEnabled(s, t, c) && (c.Install? ==> s.device.None?)
    ensures Owners(ConnectRun(s, t, c))
  {
    var s' := ConnectRun(s, t, c);
    match c {
      case BuildOk => GetDevice(s, s', t);
      case ListenErr =>
        CloseOnce(s, t);
        DropDevice(s, s', t);
      case Install => ExchangeDevices(s, s', t);
      case _ => KeepDevices(s, s', t);
    }
  }

  lemma OwnersTear(s: Sys, t: Thread, d: TearStep)
    requires Owners(s) && TearEnabled(s, t, d)
    ensures Owners(TearRun(s, t, d))
  {
    TearFrame(s, t, d);
    TearHolds(s, t, d);
    var s' := TearRun(s, t, d);
    match d {
      case TakeDown => ExchangeDevices(s, s', t);
      case CloseDevice => OwnersCloseDevice(s, t);
      case CloseProxy => KeepDevices(s, s', t);
      case AfterTeardown => KeepDevices(s, s', t);
    }
  }

  lemma OwnersCloseDevice(s: Sys, t: Thread)
    requires Owners(s) && At(s, t).ClosingDevice?
    ensures Owners(TearRun(s, t, CloseDevice))
  {
    var s' := TearRun(s, t, CloseDevice);
    if At(s, t).od.Some? {
      CloseOnce(s, t);
      DropDevice(s, s', t);
    } else {
      KeepDevices(s, s', t);
    }
  }

  lemma OwnersProbe(s: Sys, t: Thread, dns: bool, reached: bool)
    requires Owners(s) && At(s, t).Probing?
    ensures Owners(ProbeRun(s, t, dns, reached))
  {
    var s' := ProbeRun(s, t, dns, reached);
    ProbeFrame(s, t, dns, reached);
    ProbeVerdict(s, t, dns, reached);
    if s'.threads[t].Validated? {
      KeepDevices(s, s', t);
    } else {
      CloseOnce(s, t);
      DropDevice(s, s', t);
    }
  }

  lemma OwnersEndDrain(s: Sys, t: Thread, r: RefreshStep)
    requires Owners(s) && RefreshEnabled(s, t, r) && (r.Discard? || r.EndDrain?)
    ensures Owners(RefreshRun(s, t, r))
  {
    CloseOnce(s, t);
    DropDevice(s, RefreshRun(s, t, r), t);
  }

  lemma OwnersCommit(s: Sys, t: Thread)
    requires Owners(s) && At(s, t).Swapped?
    requires CanCommit(s, At(s, t).p) ==> s.device == Some(At(s, t).was)
    ensures Owners(RefreshRun(s, t, Commit))
  {
    if CanCommit(s, At(s, t).p) {
      ExchangeDevices(s, RefreshRun(s, t, Commit), t);
    } else {
      KeepDevices(s, RefreshRun(s, t, Commit), t);
    }
  }

  lemma OwnersRefresh(s: Sys, t: Thread, r: RefreshStep)
    requires Owners(s) && RefreshEnabled(s, t, r)
    requires r.Commit? && CanCommit(s, At(s, t).p) ==> s.device == Some(At(s, t).was)
    ensures Owners(RefreshRun(s, t, r))
  {
    match r {
      case CandidateOk => GetDevice(s, RefreshRun(s, t, r), t);
      case Discard => OwnersEndDrain(s, t, r);
      case EndDrain => OwnersEndDrain(s, t, r);
      case ProbeDone(dns, reached) => OwnersProbe(s, t, dns, reached);
      case Commit => OwnersCommit(s, t);
      case _ => OwnersQuiet(s, t, r);
    }
  }

  lemma OwnersQuiet(s: Sys, t: Thread, r: RefreshStep)
    requires Owners(s) && RefreshEnabled(s, t, r)
    requires !r.CandidateOk? && !r.Discard? && !r.EndDrain? && !r.ProbeDone? && !r.Commit?
    ensures Owners(RefreshRun(s, t, r))
  {
    RefreshFrame(s, t, r);
    KeepDevices(s, RefreshRun(s, t, r), t);
  }

  /** A step that installs a tunnel over one that is installed. */
  predicate Overwrites(s: Sys, a: Action) {
    a.Connect? && a.connect.Install? && s.device.Some?
  }

  /** While only one proxy listens, `connectReal` finds nothing installed when it installs its tunnel. */
  lemma InstallsOverNothing(s: Sys, t: Thread)
    requires Listeners(s) && OneListener(s) && At(s, t).Listening?
    ensures s.device.None? && s.proxy.None?
  {
  }

  /** A refresh that still finds its proxy installed replaces exactly the device it took note of. */
  lemma CommitReplacesNoted(s: Sys, t: Thread)
    requires Refreshes(s) && At(s, t).Swapped? && s.proxy == Some(At(s, t).p)
    ensures s.device == Some(At(s, t).was)
  {
  }

  // ---------------------------------------------------------------- listeners

  lemma KeepListeners(s: Sys, s': Sys, t: Thread)
    requires Listeners(s) && Moves(s, s', t) && OwnedProxy(s'.threads[t]) == OwnedProxy(At(s, t))
    requires s'.live == s.live && s'.proxy == s.proxy
    requires s'.nextProxy == s.nextProxy && s'.device.Some? == s.device.Some?
    ensures Listeners(s')
  {
  }

  lemma ListenersConnect(s: Sys, t: Thread, c: ConnectStep)
    requires Listeners(s) && ConnectEnabled(s, t, c) && (c.Install? ==> s.device.None?)
    ensures Listeners(ConnectRun(s, t, c))
  {
    match c {
      case ListenOk =>
      case Install =>
      case _ => KeepListeners(s, ConnectRun(s, t, c), t);
    }
  }

  lemma ListenersTear(s: Sys, t: Thread, d: TearStep)
    requires Listeners(s) && TearEnabled(s, t, d)
    ensures Listeners(TearRun(s, t, d))
  {
    TearFrame(s, t, d);
    TearHolds(s, t, d);
    if d.CloseDevice? || d.AfterTeardown? {
      KeepListeners(s, TearRun(s, t, d), t);
    } else if d.CloseProxy? {
      ListenersCloseProxy(s, t);
    }
  }

  lemma ListenersCloseProxy(s: Sys, t: Thread)
    requires Listeners(s) && At(s, t).ClosingProxy?
    ensures Listeners(TearRun(s, t, CloseProxy))
  {
  }

  lemma ListenersRefresh(s: Sys, t: Thread, r: RefreshStep)
    requires Listeners(s) && RefreshEnabled(s, t, r)
    ensures Listeners(RefreshRun(s, t, r))
  {
    if r.ProbeDone? { ProbeFrame(s, t, r.dns, r.reached); } else { RefreshFrame(s, t, r); }
    KeepListeners(s, RefreshRun(s, t, r), t);
  }

  lemma ListenersAsk(s: Sys, t: Thread, r: Request)
    requires Listeners(s) && AskEnabled(s, t, r)
    ensures Listeners(AskStep(s, t, r))
  {
    KeepListeners(s, AskStep(s, t, r), t);
  }

  // ---------------------------------------------------------------- refreshes

  /** A step that does not change what is noted, nor what is installed except by removing it. */
  lemma KeepRefreshes(s: Sys, s': Sys, t: Thread)
    requires Refreshes(s) && Moves(s, s', t) && s'.nextProxy == s.nextProxy
    requires InRefresh(s'.threads[t]) ==> s'.refreshLock == Some(t)
    requires s'.refreshLock == s.refreshLock || s.refreshLock.None? || s.refreshLock == Some(t)
    requires s'.proxy.None? || (s'.proxy == s.proxy && s'.device == s.device)
    requires Noted(s'.threads[t]).None? || Noted(s'.threads[t]) == Noted(At(s, t))
    requires !s'.threads[t].Listening?
    ensures Refreshes(s')
  {
  }

  lemma RefreshesAsk(s: Sys, t: Thread, r: Request)
    requires Refreshes(s) && AskEnabled(s, t, r)
    ensures Refreshes(AskStep(s, t, r))
  {
    KeepRefreshes(s, AskStep(s, t, r), t);
  }

  lemma RefreshesTear(s: Sys, t: Thread, d: TearStep)
    requires Refreshes(s) && TearEnabled(s, t, d)
    ensures Refreshes(TearRun(s, t, d))
  {
    TearFrame(s, t, d);
    TearHolds(s, t, d);
    KeepRefreshes(s, TearRun(s, t, d), t);
  }

  lemma RefreshesConnect(s: Sys, t: Thread, c: ConnectStep)
    requires Refreshes(s) && ConnectEnabled(s, t, c)
    ensures Refreshes(ConnectRun(s, t, c))
  {
    match c {
      case ListenOk =>
      case Install =>
      case _ => KeepRefreshes(s, ConnectRun(s, t, c), t);
    }
  }

  lemma RefreshesRefresh(s: Sys, t: Thread, r: RefreshStep)
    requires Refreshes(s) && Listeners(s) && RefreshEnabled(s, t, r)
    ensures Refreshes(RefreshRun(s, t, r))
  {
    match r {
      case Snapshot(_) => RefreshesSnapshot(s, t, r);
      case Commit => RefreshesCommit(s, t);
      case ProbeDone(dns, reached) => RefreshesProbe(s, t, dns, reached);
      case _ => RefreshesOther(s, t, r);
    }
  }

  lemma RefreshesSnapshot(s: Sys, t: Thread, r: RefreshStep)
    requires Refreshes(s) && Listeners(s) && r.Snapshot? && RefreshEnabled(s, t, r)
    ensures Refreshes(RefreshRun(s, t, r))
  {
  }

  lemma OneRefresh(s: Sys, t: Thread, u: Thread)
    requires Refreshes(s) && InRefresh(At(s, t)) && InRefresh(At(s, u))
    ensures t == u
  {
  }

  lemma RefreshesCommit(s: Sys, t: Thread)
    requires Refreshes(s) && At(s, t).Swapped?
    ensures Refreshes(RefreshRun(s, t, Commit))
  {
    forall u | u in s.threads && u != t ensures Noted(s.threads[u]).None? {
      if Noted(s.threads[u]).Some? { OneRefresh(s, t, u); }
    }
    RefreshesNoneNoted(s, RefreshRun(s, t, Commit), t);
  }

  lemma RefreshesNoneNoted(s: Sys, s': Sys, t: Thread)
    requires Refreshes(s) && Moves(s, s', t) && s'.refreshLock == s.refreshLock && s.refreshLock == Some(t)
    requires Noted(s'.threads[t]).None? && forall u :: u in s.threads && u != t ==> Noted(s.threads[u]).None?
    ensures Refreshes(s')
  {
  }

  lemma RefreshesProbe(s: Sys, t: Thread, dns: bool, reached: bool)
    requires Refreshes(s) && At(s, t).Probing?
    ensures Refreshes(ProbeRun(s, t, dns, reached))
  {
    ProbeFrame(s, t, dns, reached);
    ProbeVerdict(s, t, dns, reached);
    assert InRefresh(s.threads[t]);
    KeepRefreshes(s, ProbeRun(s, t, dns, reached), t);
  }

  lemma RefreshesOther(s: Sys, t: Thread, r: RefreshStep)
    requires Refreshes(s) && RefreshEnabled(s, t, r) && !r.Snapshot? && !r.Commit? && !r.ProbeDone?
    ensures Refreshes(RefreshRun(s, t, r))
  {
    RefreshFrame(s, t, r);
    NotesKept(s, t, r);
    assert r.Acquire? || r.EndDrain? || InRefresh(s.threads[t]);
    KeepRefreshes(s, RefreshRun(s, t, r), t);
  }

  lemma NotesKept(s: Sys, t: Thread, r: RefreshStep)
    requires RefreshEnabled(s, t, r) && !r.Snapshot? && !r.Commit? && !r.ProbeDone?
    ensures var s' := RefreshRun(s, t, r);
            && (Noted(s'.threads[t]).None? || Noted(s'.threads[t]) == Noted(At(s, t)))
            && (InRefresh(s'.threads[t]) ==> s'.refreshLock == if r.Acquire? then Some(t) else s.refreshLock)
            && (InRefresh(s'.threads[t]) && !r.Acquire? ==> InRefresh(At(s, t)))
            && (s'.refreshLock == s.refreshLock || r.Acquire? || InRefresh(At(s, t)))
  {
  }

  // ---------------------------------------------------------------- dialers

  lemma KeepDialers(s: Sys, s': Sys, t: Thread)
    requires Dialers(s) && Moves(s, s', t) && s'.dialer == s.dialer
    requires s'.proxy.None? || (s'.proxy == s.proxy && s'.device == s.device)
    requires s'.state == Connected ==> s.state == Connected
    requires !At(s, t).Swapped? && !s'.threads[t].Swapped? && !s'.threads[t].Listening?
    ensures Dialers(s')
  {
    if s'.proxy.Some? && s.state == Connected && BeingCommitted(s, s.proxy.value, s.dialer[s.proxy.value]) {
      StillCommitted(s, s', t, s.proxy.value, s.dialer[s.proxy.value]);
    }
  }

  lemma StillCommitted(s: Sys, s': Sys, t: Thread, p: Proxy, d: Device)
    requires BeingCommitted(s, p, d) && Moves(s, s', t) && !At(s, t).Swapped?
    ensures BeingCommitted(s', p, d)
  {
    var u :| u in s.threads && s.threads[u].Swapped? && s.threads[u].p == p && s.threads[u].d == d;
    assert u in s'.threads && s'.threads[u] == s.threads[u];
  }

  lemma DialersAsk(s: Sys, t: Thread, r: Request)
    requires Dialers(s) && AskEnabled(s, t, r)
    ensures Dialers(AskStep(s, t, r))
  {
    KeepDialers(s, AskStep(s, t, r), t);
  }

  lemma DialersTear(s: Sys, t: Thread, d: TearStep)
    requires Dialers(s) && TearEnabled(s, t, d)
    ensures Dialers(TearRun(s, t, d))
  {
    TearFrame(s, t, d);
    TearHolds(s, t, d);
    KeepDialers(s, TearRun(s, t, d), t);
  }

  lemma DialersConnect(s: Sys, t: Thread, c: ConnectStep)
    requires Dialers(s) && Listeners(s) && Refreshes(s) && ConnectEnabled(s, t, c)
    ensures Dialers(ConnectRun(s, t, c))
  {
    match c {
      case ListenOk => DialersListen(s, t);
      case Install => DialersInstall(s, t);
      case _ => KeepDialers(s, ConnectRun(s, t, c), t);
    }
  }

  lemma DialersInstall(s: Sys, t: Thread)
    requires Dialers(s) && At(s, t).Listening?
    ensures Dialers(ConnectRun(s, t, Install))
  {
  }

  /** A new proxy, unknown to anyone else, starts to listen. */
  lemma AddListener(s: Sys, s': Sys, t: Thread, p: Proxy)
    requires Dialers(s) && Moves(s, s', t) && s'.threads[t].Listening? && s'.threads[t].p == p
    requires s'.dialer == s.dialer[p := s'.threads[t].d] && s'.proxy == s.proxy
    requires s'.device == s.device && s'.state == s.state
    requires s.proxy != Some(p) && !At(s, t).Swapped?
    requires forall u :: u in s.threads && (s.threads[u].Listening? || s.threads[u].Swapped?) ==> s.threads[u].p != p
    ensures Dialers(s')
  {
    if s.proxy.Some? && s.state == Connected && BeingCommitted(s, s.proxy.value, s.dialer[s.proxy.value]) {
      StillCommitted(s, s', t, s.proxy.value, s.dialer[s.proxy.value]);
    }
  }

  lemma DialersListen(s: Sys, t: Thread)
    requires Dialers(s) && Listeners(s) && Refreshes(s) && ConnectEnabled(s, t, ListenOk)
    ensures Dialers(ConnectRun(s, t, ListenOk))
  {
    forall u | u in s.threads && (s.threads[u].Listening? || s.threads[u].Swapped?)
      ensures s.threads[u].p < s.nextProxy
    {
      KnownProxy(s, u);
    }
    AddListener(s, ConnectRun(s, t, ListenOk), t, s.nextProxy);
  }

  lemma KnownProxy(s: Sys, u: Thread)
    requires Listeners(s) && Refreshes(s) && u in s.threads && (s.threads[u].Listening? || s.threads[u].Swapped?)
    ensures s.threads[u].p < s.nextProxy
  {
  }

  lemma DialersSetTunnel(s: Sys, t: Thread)
    requires Dialers(s) && Refreshes(s) && At(s, t).Validated?
    ensures Dialers(RefreshRun(s, t, SetTunnel))
  {
    var s' := RefreshRun(s, t, SetTunnel);
    assert InRefresh(s.threads[t]) && Noted(s.threads[t]).Some?;
    forall u | u in s.threads && u != t ensures !s.threads[u].Swapped? {
      if s.threads[u].Swapped? { OneRefresh(s, t, u); }
    }
    assert s'.threads[t].Swapped?;
  }

  lemma DialersCommit(s: Sys, t: Thread)
    requires Dialers(s) && Refreshes(s) && At(s, t).Swapped?
    ensures Dialers(RefreshRun(s, t, Commit))
  {
    assert InRefresh(s.threads[t]);
    forall u | u in s.threads && u != t ensures !s.threads[u].Swapped? {
      if s.threads[u].Swapped? { OneRefresh(s, t, u); }
    }
  }

  lemma DialersRefresh(s: Sys, t: Thread, r: RefreshStep)
    requires Dialers(s) && Refreshes(s) && RefreshEnabled(s, t, r)
    ensures Dialers(RefreshRun(s, t, r))
  {
    if r.SetTunnel? {
      DialersSetTunnel(s, t);
    } else if r.Commit? {
      DialersCommit(s, t);
    } else {
      if r.ProbeDone? { ProbeFrame(s, t, r.dns, r.reached); } else { RefreshFrame(s, t, r); }
      KeepDialers(s, RefreshRun(s, t, r), t);
    }
  }

  // ---------------------------------------------------------------- probes

  lemma KeepVetted(s: Sys, s': Sys, t: Thread)
    requires Vetted(s) && Moves(s, s', t)
    requires s'.handed == s.handed && s'.probes == s.probes && s.nextDevice <= s'.nextDevice
    requires !s'.threads[t].Validated? && (s'.threads[t].Probing? ==> s'.threads[t].d == s.nextDevice)
    ensures Vetted(s')
  {
  }

  lemma VettedAsk(s: Sys, t: Thread, r: Request)
    requires Vetted(s) && AskEnabled(s, t, r)
    ensures Vetted(AskStep(s, t, r))
  {
  }

  lemma VettedConnect(s: Sys, t: Thread, c: ConnectStep)
    requires Vetted(s) && ConnectEnabled(s, t, c)
    ensures Vetted(ConnectRun(s, t, c))
  {
  }

  lemma VettedTear(s: Sys, t: Thread, d: TearStep)
    requires Vetted(s) && TearEnabled(s, t, d)
    ensures Vetted(TearRun(s, t, d))
  {
    TearFrame(s, t, d);
    TearHolds(s, t, d);
    KeepVetted(s, TearRun(s, t, d), t);
  }

  lemma OneOwner(s: Sys, t: Thread, u: Thread)
    requires Owners(s) && Owned(At(s, t)).Some? && Owned(At(s, t)) == Owned(At(s, u))
    ensures t == u
  {
  }

  lemma VettedProbe(s: Sys, t: Thread, dns: bool, reached: bool)
    requires Vetted(s) && Owners(s) && At(s, t).Probing?
    ensures Vetted(ProbeRun(s, t, dns, reached))
  {
    var s', d := ProbeRun(s, t, dns, reached), At(s, t).d;
    ProbeFrame(s, t, dns, reached);
    ProbeVerdict(s, t, dns, reached);
    forall u | u in s.threads && u != t && s.threads[u].Validated? ensures s.threads[u].d != d {
      if s.threads[u].d == d { OneOwner(s, t, u); }
    }
  }

  lemma VettedSetTunnel(s: Sys, t: Thread)
    requires Vetted(s) && Owners(s) && At(s, t).Validated?
    ensures Vetted(RefreshRun(s, t, SetTunnel))
  {
  }

  lemma VettedRefresh(s: Sys, t: Thread, r: RefreshStep)
    requires Vetted(s) && Owners(s) && RefreshEnabled(s, t, r)
    ensures Vetted(RefreshRun(s, t, r))
  {
    if r.ProbeDone? {
      VettedProbe(s, t, r.dns, r.reached);
    } else if r.SetTunnel? {
      VettedSetTunnel(s, t);
    } else {
      VettedQuiet(s, t, r);
    }
  }

  lemma VettedQuiet(s: Sys, t: Thread, r: RefreshStep)
    requires Vetted(s) && RefreshEnabled(s, t, r) && !r.ProbeDone? && !r.SetTunnel?
    ensures Vetted(RefreshRun(s, t, r))
  {
    hide Vetted;
    KeepVetted(s, RefreshRun(s, t, r), t);
  }

  // ---------------------------------------------------------------- all together

  lemma InvAsk(s: Sys, t: Thread, r: Request)
    requires Inv(s) && AskEnabled(s, t, r)
    ensures Inv(AskStep(s, t, r))
  {
    OwnersAsk(s, t, r);
    ListenersAsk(s, t, r);
    RefreshesAsk(s, t, r);
    DialersAsk(s, t, r);
    VettedAsk(s, t, r);
  }

  lemma InvConnect(s: Sys, t: Thread, c: ConnectStep)
    requires Inv(s) && ConnectEnabled(s, t, c) && (c.Install? ==> s.device.None?)
    ensures Inv(ConnectRun(s, t, c))
  {
    OwnersConnect(s, t, c);
    ListenersConnect(s, t, c);
    RefreshesConnect(s, t, c);
    DialersConnect(s, t, c);
    VettedConnect(s, t, c);
  }

  lemma InvTear(s: Sys, t: Thread, d: TearStep)
    requires Inv(s) && TearEnabled(s, t, d)
    ensures Inv(TearRun(s, t, d))
  {
    OwnersTear(s, t, d);
    ListenersTear(s, t, d);
    RefreshesTear(s, t, d);
    DialersTear(s, t, d);
    VettedTear(s, t, d);
  }

  lemma InvRefresh(s: Sys, t: Thread, r: RefreshStep)
    requires Inv(s) && RefreshEnabled(s, t, r)
    ensures Inv(RefreshRun(s, t, r))
  {
    if r.Commit? && CanCommit(s, At(s, t).p) { CommitReplacesNoted(s, t); }
    OwnersRefresh(s, t, r);
    ListenersRefresh(s, t, r);
    RefreshesRefresh(s, t, r);
    DialersRefresh(s, t, r);
    VettedRefresh(s, t, r);
  }

  lemma InvStep(s: Sys, a: Action)
    requires Inv(s) && Enabled(s, a) && !Overwrites(s, a)
    ensures Inv(Step(s, a))
  {
    match a {
      case Ask(t, r) => InvAsk(s, t, r);
      case Connect(t, c) => InvConnect(s, t, c);
      case Tear(t, d) => InvTear(s, t, d);
      case Refresh(t, r) => InvRefresh(s, t, r);
    }
  }

  /** Every interleaving in which nothing is installed over an installed tunnel keeps the invariants. */
  lemma {:induction false} InvRun(s: Sys, actions: seq<Action>, s': Sys)
    requires Inv(s) && Run(s, actions, s') && Never(s, actions, Overwrites)
    ensures Inv(s')
    decreases |actions|
  {
    if actions != [] {
      InvStep(s, actions[0]);
      InvRun(Step(s, actions[0]), actions[1..], s');
    }
  }
}
