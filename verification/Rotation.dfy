/**
 Make-before-break rotation as a transition system. Connects, disconnects, logouts, reconnects
 and refreshes run as threads that interleave between the short critical sections on the
 manager's mutex; each section is one step.
 */
module Rotation {
  import opened Basics

  type Thread = nat
  type Device = nat
  type Proxy = nat

  /** Where proxies listen: a port of its own for each, or one address that only one of them can have. */
  datatype Address = FreePort | Fixed(id: nat)

  datatype ConnState = LoggedOut | LoggedIn | Connecting | Connected | Disconnecting

  /** Who runs `connectReal`: a user's connect, or a reconnect with some attempts left. */
  datatype Caller = FromConnect | FromReconnect(left: nat)

  /** What follows a teardown. */
  datatype Next = ToEnd | ToLoggedIn | ToLoggedOut | ToRebuild

  const RECONNECT_ATTEMPTS: nat := 5

  const BUILD_ATTEMPTS: nat := 4

  /** Where a thread is, with the devices and proxies in its local variables. */
  datatype Pc =
    | Building(c: Caller)
    | Built(c: Caller, d: Device)
    | Listening(c: Caller, d: Device, p: Proxy)
    | BuildFailed(c: Caller)
    | TearStart(next: Next)
    | ClosingProxy(op: Option<Proxy>, od: Option<Device>, next: Next)
    | ClosingDevice(od: Option<Device>, next: Next)
    | TornDown(next: Next)
    | WantRefresh
    | Locked
    | Candidate(p: Proxy, was: Device, attempt: nat, recents: bool)
    | Probing(p: Proxy, was: Device, attempt: nat, recents: bool, d: Device)
    | Validated(p: Proxy, was: Device, d: Device)
    | Swapped(p: Proxy, was: Device, d: Device)
    | Abandoned(d: Device)
    | Committed(was: Device)
    | Draining(d: Device)
    | Ended

  /** How a device fared in its probe. */
  datatype Probe = Probe(dns: bool, reached: bool, recents: bool, attempt: nat)

  /** The DNS server answered and, before the last attempt, so did a recent destination if any was recorded. */
  predicate Passed(r: Probe) {
    r.dns && (!r.recents || r.reached || r.attempt == BUILD_ATTEMPTS - 1)
  }

  /**
   The configured listen address, the manager's fields, the threads, the proxies' dialers and the
   addresses of those that listen, and the history: how often each device was closed, how it was
   probed, and which devices proxies were pointed at.
   */
  datatype Sys = Sys(
    addr: Address,
    state: ConnState,
    device: Option<Device>,
    proxy: Option<Proxy>,
    refreshLock: Option<Thread>,
    threads: map<Thread, Pc>,
    closes: map<Device, nat>,
    dialer: map<Proxy, Device>,
    live: map<Proxy, Address>,
    probes: map<Device, Probe>,
    handed: set<Device>,
    nextDevice: nat,
    nextProxy: nat)

  /** Requests that come in, the watchdog and timer included, and what the control API says about the session. */
  datatype Request =
    | AskConnect
    | AskDisconnect
    | AskLogout
    | AskReconnect
    | AskRefresh
    | SessionLost
    | SessionFound
    | UpdateListen(addr: Address)

  /** Steps of `connectReal` and of the retries around it. */
  datatype ConnectStep = BuildErr | BuildOk | ListenOk | ListenErr | Install | RetryBuild | GiveUp

  /** Steps of `teardown` and of what follows it. */
  datatype TearStep = TakeDown | CloseProxy | CloseDevice | AfterTeardown

  /** Steps of a refresh and of the drain it leaves behind. */
  datatype RefreshStep =
    | Acquire
    | Snapshot(recents: bool)
    | SkipRefresh
    | CandidateErr
    | CandidateOk
    | ProbeDone(dns: bool, reached: bool)
    | SetTunnel
    | Commit
    | Discard
    | StartDrain
    | EndDrain

  /** One step of thread `t`; a request starts a thread of its own. */
  datatype Action =
    | Ask(t: Thread, request: Request)
    | Connect(t: Thread, connect: ConnectStep)
    | Tear(t: Thread, tear: TearStep)
    | Refresh(t: Thread, refresh: RefreshStep)

  function At(s: Sys, t: Thread): Pc {
    if t in s.threads then s.threads[t] else Ended
  }

  predicate CanCommit(s: Sys, p: Proxy) {
    s.state == Connected && s.proxy == Some(p)
  }

  predicate AskEnabled(s: Sys, t: Thread, r: Request) {
    t !in s.threads &&
    match r
    case AskConnect => s.state != Connected && s.state != Connecting
    case AskDisconnect => s.state == Connected || s.state == Connecting
    case AskReconnect => s.state == Connected
    case SessionFound => s.state == LoggedOut
    case _ => true
  }

  predicate ConnectEnabled(s: Sys, t: Thread, c: ConnectStep) {
    match c
    case BuildErr => At(s, t).Building?
    case BuildOk => At(s, t).Building?
    case ListenOk => At(s, t).Built? && (s.addr.Fixed? ==> s.addr !in s.live.Values) // one listener per address
    case ListenErr => At(s, t).Built?
    case Install => At(s, t).Listening?
    case RetryBuild => At(s, t).BuildFailed? && At(s, t).c.FromReconnect? && At(s, t).c.left > 0
    case GiveUp => At(s, t).BuildFailed?
  }

  predicate TearEnabled(s: Sys, t: Thread, d: TearStep) {
    match d
    case TakeDown => At(s, t).TearStart?
    case CloseProxy => At(s, t).ClosingProxy?
    case CloseDevice => At(s, t).ClosingDevice?
    case AfterTeardown => At(s, t).TornDown?
  }

  predicate RefreshEnabled(s: Sys, t: Thread, r: RefreshStep) {
    match r
    case Acquire => At(s, t).WantRefresh? && s.refreshLock.None?
    case Snapshot(_) => At(s, t).Locked? && s.state == Connected && s.proxy.Some? && s.device.Some?
    case SkipRefresh => At(s, t).Locked?
    case CandidateErr => At(s, t).Candidate?
    case CandidateOk => At(s, t).Candidate?
    case ProbeDone(_, _) => At(s, t).Probing?
    case SetTunnel => At(s, t).Validated?
    case Commit => At(s, t).Swapped?
    case Discard => At(s, t).Abandoned?
    case StartDrain => At(s, t).Committed?
    case EndDrain => At(s, t).Draining?
  }

  predicate Enabled(s: Sys, a: Action) {
    match a
    case Ask(t, r) => AskEnabled(s, t, r)
    case Connect(t, c) => ConnectEnabled(s, t, c)
    case Tear(t, d) => TearEnabled(s, t, d)
    case Refresh(t, r) => RefreshEnabled(s, t, r)
  }

  function Goto(s: Sys, t: Thread, pc: Pc): Sys {
    s.(threads := s.threads[t := pc])
  }

  function Close(s: Sys, d: Device): Sys {
    s.(closes := s.closes[d := (if d in s.closes then s.closes[d] else 0) + 1])
  }

  function Unlock(s: Sys): Sys {
    s.(refreshLock := None)
  }

  /** Brings up a device; the thread holds it from here on. */
  function NewDevice(s: Sys): Sys {
    s.(nextDevice := s.nextDevice + 1, closes := s.closes[s.nextDevice := 0])
  }

  function AskStep(s: Sys, t: Thread, r: Request): Sys
    requires AskEnabled(s, t, r)
  {
    match r
    case AskConnect => Goto(s, t, Building(FromConnect)).(state := Connecting)
    case AskDisconnect => Goto(s, t, TearStart(ToLoggedIn)).(state := Disconnecting)
    case AskLogout => Goto(s, t, TearStart(ToLoggedOut))
    case AskReconnect => Goto(s, t, TearStart(ToRebuild)).(state := Connecting)
    case AskRefresh => Goto(s, t, WantRefresh)
    case SessionLost => Goto(s, t, Ended).(state := LoggedOut)
    case SessionFound => Goto(s, t, Ended).(state := LoggedIn)
    case UpdateListen(addr) => Goto(s, t, Ended).(addr := addr)
  }

  function ConnectRun(s: Sys, t: Thread, c: ConnectStep): Sys
    requires ConnectEnabled(s, t, c)
  {
    var pc := At(s, t);
    match c
    case BuildErr => Goto(s, t, BuildFailed(pc.c))
    case BuildOk => Goto(NewDevice(s), t, Built(pc.c, s.nextDevice))
    case ListenOk =>
      Goto(s, t, Listening(pc.c, pc.d, s.nextProxy))
        .(live := s.live[s.nextProxy := s.addr], dialer := s.dialer[s.nextProxy := pc.d], nextProxy := s.nextProxy + 1)
    case ListenErr => Goto(Close(s, pc.d), t, BuildFailed(pc.c))
    case Install => Goto(s, t, Ended).(device := Some(pc.d), proxy := Some(pc.p), state := Connected)
    case RetryBuild => Goto(s, t, Building(FromReconnect(pc.c.left - 1)))
    case GiveUp => Goto(s, t, TearStart(ToEnd)).(state := LoggedIn)
  }

  function TearRun(s: Sys, t: Thread, d: TearStep): Sys
    requires TearEnabled(s, t, d)
  {
    var pc := At(s, t);
    match d
    case TakeDown => Goto(s, t, ClosingProxy(s.proxy, s.device, pc.next)).(proxy := None, device := None)
    case CloseProxy =>
      Goto(s, t, ClosingDevice(pc.od, pc.next)).(live := s.live - (if pc.op.Some? then {pc.op.value} else {}))
    case CloseDevice => Goto(if pc.od.Some? then Close(s, pc.od.value) else s, t, TornDown(pc.next))
    case AfterTeardown =>
      if pc.next == ToRebuild then Goto(s, t, Building(FromReconnect(RECONNECT_ATTEMPTS - 1)))
      else
        Goto(s, t, Ended).(state := if pc.next == ToLoggedIn then LoggedIn
                                    else if pc.next == ToLoggedOut then LoggedOut else s.state)
  }

  /** The verdict on a candidate: keep it, close it and build another, or give up. */
  function ProbeRun(s: Sys, t: Thread, dns: bool, reached: bool): Sys
    requires At(s, t).Probing?
  {
    var pc := At(s, t);
    var r := Probe(dns, reached, pc.recents, pc.attempt);
    var s1 := s.(probes := s.probes[pc.d := r]);
    if Passed(r) then Goto(s1, t, Validated(pc.p, pc.was, pc.d))
    else if pc.attempt < BUILD_ATTEMPTS - 1 then
      Goto(Close(s1, pc.d), t, Candidate(pc.p, pc.was, pc.attempt + 1, pc.recents))
    else Unlock(Goto(Close(s1, pc.d), t, Ended))
  }

  function RefreshRun(s: Sys, t: Thread, r: RefreshStep): Sys
    requires RefreshEnabled(s, t, r)
  {
    var pc := At(s, t);
    match r
    case Acquire => Goto(s, t, Locked).(refreshLock := Some(t))
    case Snapshot(recents) => Goto(s, t, Candidate(s.proxy.value, s.device.value, 0, recents))
    case SkipRefresh => Unlock(Goto(s, t, Ended))
    case CandidateErr => Unlock(Goto(s, t, Ended))
    case CandidateOk => Goto(NewDevice(s), t, Probing(pc.p, pc.was, pc.attempt, pc.recents, s.nextDevice))
    case ProbeDone(dns, reached) => ProbeRun(s, t, dns, reached)
    case SetTunnel =>
      Goto(s, t, Swapped(pc.p, pc.was, pc.d)).(dialer := s.dialer[pc.p := pc.d], handed := s.handed + {pc.d})
    case Commit =>
      if CanCommit(s, pc.p) then Goto(s, t, Committed(pc.was)).(device := Some(pc.d)) else Goto(s, t, Abandoned(pc.d))
    case Discard => Unlock(Goto(Close(s, pc.d), t, Ended))
    case StartDrain => Unlock(Goto(s, t, Draining(pc.was)))
    case EndDrain => Goto(Close(s, pc.d), t, Ended)
  }

  function Step(s: Sys, a: Action): Sys
    requires Enabled(s, a)
  {
    match a
    case Ask(t, r) => AskStep(s, t, r)
    case Connect(t, c) => ConnectRun(s, t, c)
    case Tear(t, d) => TearRun(s, t, d)
    case Refresh(t, r) => RefreshRun(s, t, r)
  }

  function Init(addr: Address): Sys {
    Sys(addr, LoggedIn, None, None, None, map[], map[], map[], map[], map[], {}, 0, 0)
  }

  /** The state after a run of actions, each of which was enabled in its turn. */
  ghost predicate Run(s: Sys, actions: seq<Action>, s': Sys)
    decreases |actions|
  {
    if actions == [] then s' == s
    else Enabled(s, actions[0]) && Run(Step(s, actions[0]), actions[1..], s')
  }

  /** Holds before the run and after each of its steps. */
  ghost predicate Always(s: Sys, actions: seq<Action>, p: Sys -> bool)
    decreases |actions|
  {
    p(s) && (actions == [] || (Enabled(s, actions[0]) && Always(Step(s, actions[0]), actions[1..], p)))
  }

  /** No step of the run is of this kind. */
  ghost predicate Never(s: Sys, actions: seq<Action>, bad: (Sys, Action) -> bool)
    decreases |actions|
  {
    actions == []
    || (Enabled(s, actions[0]) && !bad(s, actions[0]) && Never(Step(s, actions[0]), actions[1..], bad))
  }

  // ---------------------------------------------------------------- who holds what

  /** The device a thread is responsible for. */
  function Owned(pc: Pc): Option<Device> {
    match pc
    case Built(_, d) => Some(d)
    case Listening(_, d, _) => Some(d)
    case ClosingProxy(_, od, _) => od
    case ClosingDevice(od, _) => od
    case Probing(_, _, _, _, d) => Some(d)
    case Validated(_, _, d) => Some(d)
    case Swapped(_, _, d) => Some(d)
    case Abandoned(d) => Some(d)
    case Committed(was) => Some(was)
    case Draining(d) => Some(d)
    case _ => None
  }

  /** The proxy a thread is responsible for. */
  function OwnedProxy(pc: Pc): Option<Proxy> {
    match pc
    case Listening(_, _, p) => Some(p)
    case ClosingProxy(op, _, _) => op
    case _ => None
  }

  /** The proxy and device a refresh took note of. */
  function Noted(pc: Pc): Option<(Proxy, Device)> {
    match pc
    case Candidate(p, was, _, _) => Some((p, was))
    case Probing(p, was, _, _, _) => Some((p, was))
    case Validated(p, was, _) => Some((p, was))
    case Swapped(p, was, _) => Some((p, was))
    case _ => None
  }

  predicate InRefresh(pc: Pc) {
    pc.Locked? || Noted(pc).Some? || pc.Abandoned? || pc.Committed?
  }

  // ---------------------------------------------------------------- invariants

  /**
   Every device built is held by exactly one of the manager and the threads until it is closed, and it
   is closed once at most.
   */
  ghost predicate Owners(s: Sys) {
    && (forall d: Device :: d in s.closes <==> d < s.nextDevice)
    && (forall d: Device :: d in s.closes ==> s.closes[d] <= 1)
    && (s.device.Some? ==> Open(s, s.device.value))
    && (forall t :: t in s.threads && Owned(s.threads[t]).Some? ==>
          Open(s, Owned(s.threads[t]).value) && s.device != Owned(s.threads[t]))
    && (forall t, u :: t in s.threads && u in s.threads && t != u && Owned(s.threads[t]).Some? ==>
          Owned(s.threads[t]) != Owned(s.threads[u]))
    && (forall d: Device :: Open(s, d) ==> Held(s, d))
  }

  ghost predicate Open(s: Sys, d: Device) {
    d in s.closes && s.closes[d] == 0
  }

  ghost predicate Held(s: Sys, d: Device) {
    s.device == Some(d) || exists t :: t in s.threads && Owned(s.threads[t]) == Some(d)
  }

  /** Each listener is held by the manager or one thread; an installed proxy has its device beside it. */
  ghost predicate Listeners(s: Sys) {
    && (s.device.Some? <==> s.proxy.Some?)
    && (forall p: Proxy :: p in s.live ==> p < s.nextProxy)
    && (s.proxy.Some? ==> s.proxy.value in s.live)
    && (forall t :: t in s.threads && OwnedProxy(s.threads[t]).Some? ==>
          OwnedProxy(s.threads[t]).value in s.live && s.proxy != OwnedProxy(s.threads[t]))
    && (forall t, u :: t in s.threads && u in s.threads && t != u && OwnedProxy(s.threads[t]).Some? ==>
          OwnedProxy(s.threads[t]) != OwnedProxy(s.threads[u]))
  }

  /** The address has a port of its own, every listener is on it, and so there is at most one. */
  ghost predicate OneListener(s: Sys) {
    && s.addr.Fixed?
    && (forall p: Proxy :: p in s.live ==> s.live[p] == s.addr)
    && (forall p: Proxy, q: Proxy :: p in s.live && q in s.live ==> p == q)
  }

  /** Refreshes are serialized, and one that still sees its proxy installed sees its device installed too. */
  ghost predicate Refreshes(s: Sys) {
    && (forall t :: t in s.threads && InRefresh(s.threads[t]) ==> s.refreshLock == Some(t))
    && (forall t :: t in s.threads && Noted(s.threads[t]).Some? ==>
          var (p, was) := Noted(s.threads[t]).value;
          p < s.nextProxy && (s.proxy == Some(p) ==> s.device == Some(was)))
    && (forall t, u :: t in s.threads && u in s.threads && Noted(s.threads[t]).Some? && s.threads[u].Listening? ==>
          Noted(s.threads[t]).value.0 != s.threads[u].p)
  }

  /** Some refresh pointed the proxy at this device and is about to commit it. */
  ghost predicate BeingCommitted(s: Sys, p: Proxy, d: Device) {
    exists t :: t in s.threads && s.threads[t].Swapped? && s.threads[t].p == p && s.threads[t].d == d
  }

  /** While connected, the installed proxy dials through the manager's device or the one a refresh is committing. */
  ghost predicate Dialers(s: Sys) {
    && (s.proxy.Some? ==> s.proxy.value in s.dialer)
    && (s.proxy.Some? && s.state == Connected ==>
          s.device == Some(s.dialer[s.proxy.value]) || BeingCommitted(s, s.proxy.value, s.dialer[s.proxy.value]))
    && (forall t :: t in s.threads && s.threads[t].Listening? ==>
          s.threads[t].p in s.dialer && s.dialer[s.threads[t].p] == s.threads[t].d)
    && (forall t :: t in s.threads && s.threads[t].Swapped? ==>
          s.threads[t].p in s.dialer && s.dialer[s.threads[t].p] == s.threads[t].d)
  }

  /** Only devices that passed their probe are handed to a proxy by a refresh. */
  ghost predicate Vetted(s: Sys) {
    && (forall d: Device :: d in s.handed ==> d in s.probes && Passed(s.probes[d]) && d < s.nextDevice)
    && (forall t :: t in s.threads && s.threads[t].Validated? ==>
          s.threads[t].d in s.probes && Passed(s.probes[s.threads[t].d]))
    && (forall t :: t in s.threads && s.threads[t].Probing? ==> s.threads[t].d !in s.handed)
  }

  ghost predicate Inv(s: Sys) {
    Owners(s) && Listeners(s) && Refreshes(s) && Dialers(s) && Vetted(s)
  }
}
