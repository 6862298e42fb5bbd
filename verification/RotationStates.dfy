/**
 What the state of the manager says, told by the history of a run: by what was asked of it, by tunnels
 that came up or did not, and by whose teardown is over. And what one request comes to on its own.
 */
module RotationStates {
  import opened Basics
  import opened Rotation
  import opened RotationProofs
  import opened RotationTheorems

  // ---------------------------------------------------------------- history

  /** What a step says about the state; the end of a teardown speaks for the request that started its thread. */
  function Says(before: seq<Action>, a: Action): Option<ConnState> {
    match a
    case Ask(_, request) =>
      (match request
       case AskConnect => Some(Connecting)
       case AskReconnect => Some(Connecting)
       case AskDisconnect => Some(Disconnecting)
       case SessionLost => Some(LoggedOut)
       case SessionFound => Some(LoggedIn)
       case _ => None)
    case Connect(_, step) => if step.Install? then Some(Connected) else if step.GiveUp? then Some(LoggedIn) else None
    case Tear(t, step) =>
      if !step.AfterTeardown? then None
      else if Ask(t, AskDisconnect) in before then Some(LoggedIn)
      else if Ask(t, AskLogout) in before then Some(LoggedOut)
      else None
    case Refresh(_, _) => None
  }

  /** What was said last; a manager starts logged in. */
  function LastSaid(actions: seq<Action>): ConnState {
    if actions == [] then LoggedIn
    else
      var n := |actions| - 1;
      var said := Says(actions[..n], actions[n]);
      if said.Some? then said.value else LastSaid(actions[..n])
  }

  /** What may be going on in a thread, by the request that started it. */
  predicate Role(r: Request, pc: Pc) {
    pc.Ended? ||
    match r
    case AskConnect => ConnectRole(FromConnect, pc) || NextOf(pc) == Some(ToEnd)
    case AskReconnect => (ReconnectRole(pc)) || NextOf(pc) == Some(ToRebuild) || NextOf(pc) == Some(ToEnd)
    case AskDisconnect => NextOf(pc) == Some(ToLoggedIn)
    case AskLogout => NextOf(pc) == Some(ToLoggedOut)
    case AskRefresh => NextOf(pc).None? && CallerOf(pc).None?
    case _ => false
  }

  function NextOf(pc: Pc): Option<Next> {
    match pc
    case TearStart(next) => Some(next)
    case ClosingProxy(_, _, next) => Some(next)
    case ClosingDevice(_, next) => Some(next)
    case TornDown(next) => Some(next)
    case _ => None
  }

  function CallerOf(pc: Pc): Option<Caller> {
    match pc
    case Building(c) => Some(c)
    case Built(c, _) => Some(c)
    case Listening(c, _, _) => Some(c)
    case BuildFailed(c) => Some(c)
    case _ => None
  }

  predicate ConnectRole(c: Caller, pc: Pc) {
    CallerOf(pc) == Some(c)
  }

  predicate ReconnectRole(pc: Pc) {
    CallerOf(pc).Some? && CallerOf(pc).value.FromReconnect?
  }

  /** Every thread was started by one request and does what that asks for. */
  ghost predicate Started(actions: seq<Action>, s: Sys) {
    && (forall t, r :: Ask(t, r) in actions ==> t in s.threads && Role(r, s.threads[t]))
    && (forall t :: t in s.threads ==> exists r :: Ask(t, r) in actions)
  }

  /** The state before the last step. */
  lemma {:induction false} RunLast(s0: Sys, actions: seq<Action>, s: Sys) returns (s1: Sys)
    requires actions != [] && Run(s0, actions, s)
    ensures Run(s0, actions[..|actions| - 1], s1)
    ensures Enabled(s1, actions[|actions| - 1]) && s == Step(s1, actions[|actions| - 1])
    decreases |actions|
  {
    var n := |actions| - 1;
    if n == 0 {
      s1 := s0;
      assert actions[1..] == [];
    } else {
      s1 := RunLast(Step(s0, actions[0]), actions[1..], s);
      assert actions[1..][..n - 1] == actions[..n][1..] && actions[1..][n - 1] == actions[n];
    }
  }

  /** A step of a thread keeps to what the thread is for. */
  lemma ConnectKeepsRole(s: Sys, t: Thread, c: ConnectStep, r: Request)
    requires ConnectEnabled(s, t, c) && Role(r, At(s, t))
    ensures Role(r, ConnectRun(s, t, c).threads[t])
  {
  }

  lemma TearKeepsRole(s: Sys, t: Thread, d: TearStep, r: Request)
    requires TearEnabled(s, t, d) && Role(r, At(s, t))
    ensures Role(r, TearRun(s, t, d).threads[t])
  {
  }

  lemma ProbeKeepsRole(s: Sys, t: Thread, dns: bool, reached: bool, r: Request)
    requires At(s, t).Probing? && Role(r, At(s, t))
    ensures Role(r, ProbeRun(s, t, dns, reached).threads[t])
  {
  }

  lemma RefreshKeepsRole(s: Sys, t: Thread, f: RefreshStep, r: Request)
    requires RefreshEnabled(s, t, f) && Role(r, At(s, t))
    ensures t in RefreshRun(s, t, f).threads && Role(r, RefreshRun(s, t, f).threads[t])
  {
    hide ProbeRun;
    if f.ProbeDone? {
      ProbeFrame(s, t, f.dns, f.reached);
      ProbeKeepsRole(s, t, f.dns, f.reached, r);
    }
  }

  lemma AskMoves(s: Sys, t: Thread, r: Request)
    requires AskEnabled(s, t, r)
    ensures Moves(s, AskStep(s, t, r), t)
  {
  }

  lemma ConnectMoves(s: Sys, t: Thread, c: ConnectStep)
    requires ConnectEnabled(s, t, c)
    ensures Moves(s, ConnectRun(s, t, c), t)
  {
  }

  lemma RefreshMoves(s: Sys, t: Thread, r: RefreshStep)
    requires RefreshEnabled(s, t, r)
    ensures Moves(s, RefreshRun(s, t, r), t)
  {
    hide ProbeRun;
    if r.ProbeDone? { ProbeFrame(s, t, r.dns, r.reached); } else { RefreshFrame(s, t, r); }
  }

  lemma Present(s: Sys, a: Action)
    requires Enabled(s, a) && !a.Ask?
    ensures a.t in s.threads
  {
  }

  lemma StepMoves(s: Sys, a: Action)
    requires Enabled(s, a)
    ensures Moves(s, Step(s, a), a.t) && (!a.Ask? ==> a.t in s.threads)
  {
    hide AskEnabled, ConnectEnabled, TearEnabled, RefreshEnabled, AskStep, ConnectRun, TearRun, RefreshRun;
    if !a.Ask? { Present(s, a); }
    match a {
      case Ask(t, r) => AskMoves(s, t, r);
      case Connect(t, c) => ConnectMoves(s, t, c);
      case Tear(t, d) => TearHolds(s, t, d);
      case Refresh(t, r) => RefreshMoves(s, t, r);
    }
  }

  lemma StepKeepsRole(s: Sys, a: Action, r: Request)
    requires Enabled(s, a) && !a.Ask? && Role(r, At(s, a.t))
    ensures a.t in Step(s, a).threads && Role(r, Step(s, a).threads[a.t])
  {
    StepMoves(s, a);
    match a {
      case Connect(t, c) => ConnectKeepsRole(s, t, c, r);
      case Tear(t, d) => TearKeepsRole(s, t, d, r);
      case Refresh(t, f) => RefreshKeepsRole(s, t, f, r);
    }
  }

  lemma AskHasRole(s: Sys, t: Thread, r: Request)
    requires AskEnabled(s, t, r)
    ensures Role(r, AskStep(s, t, r).threads[t])
  {
  }

  lemma StartedStep(before: seq<Action>, s: Sys, a: Action)
    requires Started(before, s) && Enabled(s, a)
    ensures Started(before + [a], Step(s, a))
  {
    hide Enabled, Step, Role;
    var s', actions := Step(s, a), before + [a];
    StepMoves(s, a);
    AskedBefore(s, a);
    forall t, r | Ask(t, r) in actions ensures t in s'.threads && Role(r, s'.threads[t]) {
      if Ask(t, r) in before {
        if t == a.t && !a.Ask? { StepKeepsRole(s, a, r); }
      } else {
        assert a == Ask(t, r);
        AskedBefore(s, a);
      }
    }
    forall t | t in s'.threads ensures exists r :: Ask(t, r) in actions {
      if t in s.threads {
        var r :| Ask(t, r) in before;
        assert Ask(t, r) in actions;
      } else {
        assert t == a.t && a.Ask? && Ask(t, a.request) in actions;
      }
    }
  }

  lemma AskedBefore(s: Sys, a: Action)
    requires Enabled(s, a)
    ensures a.Ask? ==> a.t !in s.threads && a.t in Step(s, a).threads && Role(a.request, Step(s, a).threads[a.t])
  {
    if a.Ask? { AskHasRole(s, a.t, a.request); }
  }

  lemma {:induction false} StartedRun(addr: Address, actions: seq<Action>, s: Sys)
    requires Run(Init(addr), actions, s)
    ensures Started(actions, s)
    decreases |actions|
  {
    hide Enabled, Step, Role;
    if actions != [] {
      var n := |actions| - 1;
      var s1 := RunLast(Init(addr), actions, s);
      StartedRun(addr, actions[..n], s1);
      StartedStep(actions[..n], s1, actions[n]);
      assert actions[..n] + [actions[n]] == actions;
    }
  }

  // ---------------------------------------------------------------- the state is what was said last

  lemma AskSays(before: seq<Action>, s: Sys, t: Thread, r: Request)
    requires AskEnabled(s, t, r)
    ensures var said := Says(before, Ask(t, r));
            AskStep(s, t, r).state == if said.Some? then said.value else s.state
  {
  }

  lemma ConnectSays(before: seq<Action>, s: Sys, t: Thread, c: ConnectStep)
    requires ConnectEnabled(s, t, c)
    ensures var said := Says(before, Connect(t, c));
            ConnectRun(s, t, c).state == if said.Some? then said.value else s.state
  {
  }

  lemma TearSays(before: seq<Action>, s: Sys, t: Thread, d: TearStep)
    requires Started(before, s) && TearEnabled(s, t, d)
    ensures var said := Says(before, Tear(t, d));
            TearRun(s, t, d).state == if said.Some? then said.value else s.state
  {
    assert t in s.threads;
    var r :| Ask(t, r) in before;
    assert Role(r, s.threads[t]);
    assert Ask(t, AskDisconnect) in before ==> Role(AskDisconnect, s.threads[t]);
    assert Ask(t, AskLogout) in before ==> Role(AskLogout, s.threads[t]);
  }

  lemma StepSays(before: seq<Action>, s: Sys, a: Action)
    requires Started(before, s) && Enabled(s, a)
    ensures var said := Says(before, a); Step(s, a).state == if said.Some? then said.value else s.state
  {
    hide Started;
    match a {
      case Ask(t, r) => AskSays(before, s, t, r);
      case Connect(t, c) => ConnectSays(before, s, t, c);
      case Tear(t, d) => TearSays(before, s, t, d);
      case Refresh(t, f) => RefreshKeepsListeners(s, t, f);
    }
  }

  /**
   Over every run, with any interleaving: the state is what was said last by a request, an install, a
   connect that gave up, or the end of a disconnect or of a logout.
   */
  lemma {:induction false} StateIsLastSaid(addr: Address, actions: seq<Action>, s: Sys)
    requires Run(Init(addr), actions, s)
    ensures s.state == LastSaid(actions)
    decreases |actions|
  {
    hide Enabled, Step, Started, Says;
    if actions != [] {
      var n := |actions| - 1;
      var s1 := RunLast(Init(addr), actions, s);
      StateIsLastSaid(addr, actions[..n], s1);
      StartedRun(addr, actions[..n], s1);
      StepSays(actions[..n], s1, actions[n]);
    }
  }

  /** Nothing but a logout, or a session that was lost, leaves the manager logged out. */
  lemma {:induction false} LoggedOutHasACause(addr: Address, actions: seq<Action>, s: Sys)
    requires Run(Init(addr), actions, s) && s.state == LoggedOut
    ensures exists t, r :: Ask(t, r) in actions && (r == AskLogout || r == SessionLost)
  {
    StateIsLastSaid(addr, actions, s);
    SaidByACause(actions);
  }

  lemma {:induction false} SaidByACause(actions: seq<Action>)
    requires LastSaid(actions) == LoggedOut
    ensures exists t, r :: Ask(t, r) in actions && (r == AskLogout || r == SessionLost)
  {
    var n := |actions| - 1;
    var a := actions[n];
    if Says(actions[..n], a).None? {
      SaidByACause(actions[..n]);
      var t, r :| Ask(t, r) in actions[..n] && (r == AskLogout || r == SessionLost);
      assert Ask(t, r) in actions;
    } else if a.Ask? {
      assert Ask(a.t, SessionLost) in actions;
    } else {
      assert Ask(a.t, AskLogout) in actions;
    }
  }

  /** When the thread of a disconnect takes its last step the manager is logged in, for a logout it is logged out. */
  lemma TeardownOver(addr: Address, actions: seq<Action>, s: Sys, t: Thread)
    requires Run(Init(addr), actions, s) && Enabled(s, Tear(t, AfterTeardown))
    ensures var s' := Step(s, Tear(t, AfterTeardown));
            && (Ask(t, AskDisconnect) in actions ==> s'.threads[t].Ended? && s'.state == LoggedIn)
            && (Ask(t, AskLogout) in actions ==> s'.threads[t].Ended? && s'.state == LoggedOut)
            && (Ask(t, AskConnect) in actions ==> s'.threads[t].Ended? && s'.state == s.state)
  {
    StartedRun(addr, actions, s);
  }

  // ---------------------------------------------------------------- when requests are taken

  /**
   Over every run: a connect is taken unless one is up or under way, a disconnect only if one is, a
   reconnect only while connected, and a session is found again only while logged out; the rest always is.
   */
  lemma TakenWhen(addr: Address, actions: seq<Action>, s: Sys, t: Thread, r: Request)
    requires Run(Init(addr), actions, s) && t !in s.threads
    ensures var said := LastSaid(actions);
            Enabled(s, Ask(t, r)) <==>
              match r
              case AskConnect => said in {LoggedOut, LoggedIn, Disconnecting}
              case AskDisconnect => said in {Connected, Connecting}
              case AskReconnect => said == Connected
              case SessionFound => said == LoggedOut
              case AskLogout => true
              case AskRefresh => true
              case SessionLost => true
              case UpdateListen(_) => true
  {
    StateIsLastSaid(addr, actions, s);
  }

  /**
   Over every run: a refresh goes to work exactly while connected with a tunnel and a proxy installed, and
   its swap is kept exactly while that is still so with the same proxy; otherwise the manager keeps its
   device and the new one is closed next.
   */
  lemma RefreshOnlyWhileConnected(addr: Address, actions: seq<Action>, s: Sys, t: Thread, recents: bool)
    requires Run(Init(addr), actions, s)
    ensures Enabled(s, Refresh(t, Snapshot(recents))) <==>
            At(s, t).Locked? && LastSaid(actions) == Connected && s.proxy.Some? && s.device.Some?
    ensures At(s, t).Swapped? ==>
              && Enabled(s, Refresh(t, Commit))
              && var s' := Step(s, Refresh(t, Commit));
                 if LastSaid(actions) == Connected && s.proxy == Some(At(s, t).p) then
                   s'.device == Some(At(s, t).d) && s'.threads[t] == Committed(At(s, t).was)
                 else s'.device == s.device && s'.threads[t] == Abandoned(At(s, t).d)
  {
    StateIsLastSaid(addr, actions, s);
  }

  // ---------------------------------------------------------------- the refresh lock

  /** The lock is held by a refresh that is under way. */
  ghost predicate LockHeld(s: Sys) {
    s.refreshLock.Some? ==> s.refreshLock.value in s.threads && InRefresh(s.threads[s.refreshLock.value])
  }

  /** A step keeps the lock with a refresh that goes on. */
  lemma LockKept(s: Sys, s': Sys, t: Thread)
    requires LockHeld(s) && Moves(s, s', t)
    requires s'.refreshLock == s.refreshLock || s'.refreshLock.None? || s'.refreshLock == Some(t)
    requires s'.refreshLock == Some(t) ==> InRefresh(s'.threads[t])
    ensures LockHeld(s')
  {
  }

  lemma AskLock(s: Sys, t: Thread, r: Request)
    requires LockHeld(s) && AskEnabled(s, t, r)
    ensures LockHeld(AskStep(s, t, r))
  {
  }

  lemma ConnectLock(s: Sys, t: Thread, c: ConnectStep)
    requires LockHeld(s) && ConnectEnabled(s, t, c)
    ensures LockHeld(ConnectRun(s, t, c))
  {
    LockKept(s, ConnectRun(s, t, c), t);
  }

  lemma TearLock(s: Sys, t: Thread, d: TearStep)
    requires LockHeld(s) && TearEnabled(s, t, d)
    ensures LockHeld(TearRun(s, t, d))
  {
    hide TearRun;
    assert !InRefresh(At(s, t));
    TearFrame(s, t, d);
    TearHolds(s, t, d);
    LockKept(s, TearRun(s, t, d), t);
  }

  lemma ProbeLock(s: Sys, t: Thread, dns: bool, reached: bool)
    requires LockHeld(s) && At(s, t).Probing? && s.refreshLock == Some(t)
    ensures LockHeld(ProbeRun(s, t, dns, reached))
  {
    hide ProbeRun;
    ProbeFrame(s, t, dns, reached);
    ProbeVerdict(s, t, dns, reached);
    LockKept(s, ProbeRun(s, t, dns, reached), t);
  }

  lemma RefreshLocks(s: Sys, t: Thread, f: RefreshStep)
    requires RefreshEnabled(s, t, f) && !f.ProbeDone? && (InRefresh(At(s, t)) <==> s.refreshLock == Some(t))
    ensures var s' := RefreshRun(s, t, f);
            && t in s'.threads
            && (s'.refreshLock == s.refreshLock || s'.refreshLock.None? || s'.refreshLock == Some(t))
            && (s'.refreshLock == Some(t) ==> InRefresh(s'.threads[t]))
  {
  }

  lemma RefreshLock(s: Sys, t: Thread, f: RefreshStep)
    requires LockHeld(s) && RefreshEnabled(s, t, f) && (InRefresh(At(s, t)) ==> s.refreshLock == Some(t))
    ensures LockHeld(RefreshRun(s, t, f))
  {
    hide RefreshRun;
    if f.ProbeDone? {
      ProbeLockRun(s, t, f);
    } else {
      RefreshLocks(s, t, f);
      RefreshMoves(s, t, f);
      LockKept(s, RefreshRun(s, t, f), t);
    }
  }

  lemma ProbeLockRun(s: Sys, t: Thread, f: RefreshStep)
    requires LockHeld(s) && RefreshEnabled(s, t, f) && f.ProbeDone?
    requires InRefresh(At(s, t)) ==> s.refreshLock == Some(t)
    ensures LockHeld(RefreshRun(s, t, f))
  {
    ProbeLock(s, t, f.dns, f.reached);
  }

  /**
   Over every run that installs nothing over an installed tunnel: whoever holds the refresh lock is still at
   work and can take another step, so no refresh that ended keeps others out.
   */
  lemma LockIsReleased(addr: Address, actions: seq<Action>, s: Sys)
    requires Run(Init(addr), actions, s) && Never(Init(addr), actions, Overwrites)
    ensures LockHeld(s)
    ensures s.refreshLock.Some? ==> exists a :: Enabled(s, a) && a.t == s.refreshLock.value
  {
    hide Enabled, Step, Overwrites;
    LockRun(Init(addr), actions, s);
    HolderCanStep(s);
  }

  lemma HolderCanStep(s: Sys)
    requires LockHeld(s)
    ensures s.refreshLock.Some? ==> exists a :: Enabled(s, a) && a.t == s.refreshLock.value
  {
    if s.refreshLock.Some? {
      var t := s.refreshLock.value;
      var a := match At(s, t)
               case Locked => Refresh(t, SkipRefresh)
               case Candidate(_, _, _, _) => Refresh(t, CandidateErr)
               case Probing(_, _, _, _, _) => Refresh(t, ProbeDone(true, true))
               case Validated(_, _, _) => Refresh(t, SetTunnel)
               case Swapped(_, _, _) => Refresh(t, Commit)
               case Abandoned(_) => Refresh(t, Discard)
               case _ => Refresh(t, StartDrain);
      assert Enabled(s, a);
    }
  }

  lemma {:induction false} LockRun(s: Sys, actions: seq<Action>, s': Sys)
    requires Inv(s) && LockHeld(s) && Run(s, actions, s') && Never(s, actions, Overwrites)
    ensures LockHeld(s')
    decreases |actions|
  {
    hide Enabled, Step, Inv, Overwrites, LockHeld;
    if actions != [] {
      LockStep(s, actions[0]);
      InvStep(s, actions[0]);
      LockRun(Step(s, actions[0]), actions[1..], s');
    }
  }

  lemma LockStep(s: Sys, a: Action)
    requires Inv(s) && LockHeld(s) && Enabled(s, a)
    ensures LockHeld(Step(s, a))
  {
    hide LockHeld, Owners, Listeners, Dialers, Vetted, AskEnabled, ConnectEnabled, TearEnabled, RefreshEnabled,
      AskStep, ConnectRun, TearRun, RefreshRun;
    match a {
      case Ask(t, r) => AskLock(s, t, r);
      case Connect(t, c) => ConnectLock(s, t, c);
      case Tear(t, d) => TearLock(s, t, d);
      case Refresh(t, f) => RefreshLock(s, t, f);
    }
  }

  /**
   What is remembered of probes is what they said of the candidate, and what is remembered as handed over
   is what a refresh pointed a proxy at; nothing else changes either.
   */
  lemma ProbesRemembered(s: Sys, a: Action)
    requires Enabled(s, a)
    ensures Step(s, a).probes ==
            if a.Refresh? && a.refresh.ProbeDone? then
              s.probes[At(s, a.t).d :=
                Probe(a.refresh.dns, a.refresh.reached, At(s, a.t).recents, At(s, a.t).attempt)]
            else s.probes
    ensures Step(s, a).handed ==
            if a.Refresh? && a.refresh.SetTunnel? then s.handed + {At(s, a.t).d} else s.handed
    ensures a.Refresh? ==>
              Step(s, a).dialer ==
              (if a.refresh.SetTunnel? then s.dialer[At(s, a.t).p := At(s, a.t).d] else s.dialer)
  {
    hide AskStep, ConnectRun, TearRun, RefreshRun;
    match a {
      case Ask(t, r) => AskLeavesProbes(s, t, r);
      case Connect(t, c) => ConnectLeavesProbes(s, t, c);
      case Tear(t, d) => TearFrame(s, t, d);
      case Refresh(t, f) => RefreshProbes(s, t, f);
    }
  }

  /**
   A candidate is kept if the DNS server answered and a recent destination did, none is known, or it is the
   fourth; otherwise it is closed, and the next one is tried under the same conditions up to the fourth.
   */
  lemma CandidateJudged(s: Sys, t: Thread, dns: bool, reached: bool)
    requires Owners(s) && At(s, t).Probing?
    ensures var pc, s' := At(s, t), Step(s, Refresh(t, ProbeDone(dns, reached)));
            if dns && (reached || !pc.recents || pc.attempt == 3) then
              s'.threads[t] == Validated(pc.p, pc.was, pc.d) && s'.closes == s.closes && s'.refreshLock == s.refreshLock
            else
              && s'.closes == s.closes[pc.d := 1]
              && (if pc.attempt < 3 then
                    && s'.threads[t] == Candidate(pc.p, pc.was, pc.attempt + 1, pc.recents)
                    && s'.refreshLock == s.refreshLock
                  else s'.threads[t].Ended? && s'.refreshLock.None?)
  {
    CloseOnce(s, t);
  }

  lemma AskLeavesProbes(s: Sys, t: Thread, r: Request)
    requires AskEnabled(s, t, r)
    ensures AskStep(s, t, r).probes == s.probes && AskStep(s, t, r).handed == s.handed
  {
  }

  lemma ConnectLeavesProbes(s: Sys, t: Thread, c: ConnectStep)
    requires ConnectEnabled(s, t, c)
    ensures ConnectRun(s, t, c).probes == s.probes && ConnectRun(s, t, c).handed == s.handed
  {
  }

  lemma ProbeRemembers(s: Sys, t: Thread, dns: bool, reached: bool)
    requires At(s, t).Probing?
    ensures var s' := ProbeRun(s, t, dns, reached);
            && s'.probes == s.probes[At(s, t).d := Probe(dns, reached, At(s, t).recents, At(s, t).attempt)]
            && s'.handed == s.handed && s'.dialer == s.dialer
  {
  }

  lemma RefreshProbes(s: Sys, t: Thread, f: RefreshStep)
    requires RefreshEnabled(s, t, f)
    ensures RefreshRun(s, t, f).probes ==
            if f.ProbeDone? then
              s.probes[At(s, t).d := Probe(f.dns, f.reached, At(s, t).recents, At(s, t).attempt)]
            else s.probes
    ensures RefreshRun(s, t, f).handed == if f.SetTunnel? then s.handed + {At(s, t).d} else s.handed
    ensures RefreshRun(s, t, f).dialer == if f.SetTunnel? then s.dialer[At(s, t).p := At(s, t).d] else s.dialer
  {
    hide ProbeRun;
    if f.ProbeDone? { ProbeRemembers(s, t, f.dns, f.reached); }
  }

  // ---------------------------------------------------------------- how often a connect tries

  /** The tunnels a thread tried to bring up for a connect or a reconnect. */
  function Builds(actions: seq<Action>, t: Thread): nat {
    if actions == [] then 0
    else
      var n := |actions| - 1;
      var a := actions[n];
      Builds(actions[..n], t) + if a.Connect? && a.t == t && (a.connect.BuildErr? || a.connect.BuildOk?) then 1 else 0
  }

  /** How many more a thread may try. */
  function BuildsLeft(pc: Pc): nat {
    match pc
    case Building(c) => if c.FromReconnect? then c.left + 1 else 1
    case Built(c, _) => if c.FromReconnect? then c.left else 0
    case Listening(c, _, _) => if c.FromReconnect? then c.left else 0
    case BuildFailed(c) => if c.FromReconnect? then c.left else 0
    case _ => if NextOf(pc) == Some(ToRebuild) then 5 else 0
  }

  /** A thread that has neither connected nor given up. */
  predicate Trying(pc: Pc) {
    CallerOf(pc).Some? || NextOf(pc) == Some(ToRebuild)
  }

  lemma ConnectBuildsLeft(s: Sys, t: Thread, c: ConnectStep)
    requires ConnectEnabled(s, t, c)
    ensures var left := BuildsLeft(ConnectRun(s, t, c).threads[t]) + if c.BuildErr? || c.BuildOk? then 1 else 0;
            left <= BuildsLeft(At(s, t)) && (Trying(ConnectRun(s, t, c).threads[t]) ==> left == BuildsLeft(At(s, t)))
    ensures Trying(At(s, t))
  {
  }

  lemma TearBuildsLeft(s: Sys, t: Thread, d: TearStep)
    requires TearEnabled(s, t, d)
    ensures BuildsLeft(TearRun(s, t, d).threads[t]) == BuildsLeft(At(s, t))
    ensures Trying(TearRun(s, t, d).threads[t]) ==> Trying(At(s, t))
  {
  }

  lemma RefreshBuildsLeft(s: Sys, t: Thread, f: RefreshStep)
    requires RefreshEnabled(s, t, f)
    ensures t in RefreshRun(s, t, f).threads && BuildsLeft(RefreshRun(s, t, f).threads[t]) == 0
    ensures !Trying(RefreshRun(s, t, f).threads[t])
  {
    hide ProbeRun;
    if f.ProbeDone? {
      ProbeFrame(s, t, f.dns, f.reached);
      ProbeLeavesNone(s, t, f.dns, f.reached);
    }
  }

  lemma ProbeLeavesNone(s: Sys, t: Thread, dns: bool, reached: bool)
    requires At(s, t).Probing?
    ensures BuildsLeft(ProbeRun(s, t, dns, reached).threads[t]) == 0
    ensures !Trying(ProbeRun(s, t, dns, reached).threads[t])
  {
  }

  /** What a thread may try in all when it is started by a request. */
  function Allowance(r: Request): nat {
    match r
    case AskConnect => 1
    case AskReconnect => 5
    case _ => 0
  }

  ghost predicate WithinAllowance(actions: seq<Action>, s: Sys, t: Thread) {
    forall r :: Ask(t, r) in actions ==>
      && Builds(actions, t) + BuildsLeft(At(s, t)) <= Allowance(r)
      && (Trying(At(s, t)) ==> Builds(actions, t) + BuildsLeft(At(s, t)) == Allowance(r))
  }

  lemma AskAllows(s: Sys, t: Thread, r: Request)
    requires AskEnabled(s, t, r)
    ensures BuildsLeft(AskStep(s, t, r).threads[t]) == Allowance(r)
  {
  }

  lemma StepAllows(s: Sys, a: Action)
    requires Enabled(s, a) && !a.Ask?
    ensures a.t in Step(s, a).threads
    ensures var left := BuildsLeft(Step(s, a).threads[a.t])
                        + if a.Connect? && (a.connect.BuildErr? || a.connect.BuildOk?) then 1 else 0;
            && left <= BuildsLeft(At(s, a.t))
            && (Trying(Step(s, a).threads[a.t]) ==> Trying(At(s, a.t)) && left == BuildsLeft(At(s, a.t)))
  {
    hide BuildsLeft, Trying;
    StepMoves(s, a);
    match a {
      case Connect(t, c) => ConnectBuildsLeft(s, t, c);
      case Tear(t, d) => TearBuildsLeft(s, t, d);
      case Refresh(t, f) => RefreshBuildsLeft(s, t, f);
    }
  }

  lemma NoBuildsYet(actions: seq<Action>, t: Thread)
    requires forall a :: a in actions ==> a.t != t
    ensures Builds(actions, t) == 0
  {
  }

  /** Threads that took a step are known. */
  lemma {:induction false} ActorsKnown(addr: Address, actions: seq<Action>, s: Sys)
    requires Run(Init(addr), actions, s)
    ensures forall a :: a in actions ==> a.t in s.threads
    decreases |actions|
  {
    hide Enabled, Step;
    if actions != [] {
      var n := |actions| - 1;
      var s1 := RunLast(Init(addr), actions, s);
      ActorsKnown(addr, actions[..n], s1);
      StepMoves(s1, actions[n]);
      assert actions[..n] + [actions[n]] == actions;
    }
  }

  /**
   A connect tries once and a reconnect five times at most, over every run, and a thread that has neither
   connected nor given up has the rest of them left; nothing else brings up a tunnel to listen on.
   */
  lemma {:induction false} TriesAreBounded(addr: Address, actions: seq<Action>, s: Sys, t: Thread)
    requires Run(Init(addr), actions, s)
    ensures WithinAllowance(actions, s, t)
    decreases |actions|
  {
    hide Enabled, Step, BuildsLeft, Allowance, Trying;
    if actions != [] {
      var n := |actions| - 1;
      var before, a := actions[..n], actions[n];
      var s1 := RunLast(Init(addr), actions, s);
      TriesAreBounded(addr, before, s1, t);
      ActorsKnown(addr, before, s1);
      StepMoves(s1, a);
      assert before + [a] == actions;
      if a.t == t {
        if a.Ask? {
          AskedBefore(s1, a);
          NoBuildsYet(before, t);
          AskAllowsStep(s1, a);
        } else {
          StepAllows(s1, a);
        }
      }
    }
  }

  lemma AskAllowsStep(s: Sys, a: Action)
    requires Enabled(s, a) && a.Ask?
    ensures a.t in Step(s, a).threads && BuildsLeft(Step(s, a).threads[a.t]) == Allowance(a.request)
  {
    AskAllows(s, a.t, a.request);
  }

  /** After a failure another try is possible exactly as long as any are left. */
  lemma RetriesWhileLeft(s: Sys, t: Thread)
    requires At(s, t).BuildFailed?
    ensures ConnectEnabled(s, t, RetryBuild) <==> BuildsLeft(At(s, t)) > 0
  {
  }

  // ---------------------------------------------------------------- requests on their own

  /** Another step of a run from `s0`. */
  lemma Next(s0: Sys, actions: seq<Action>, s: Sys, a: Action) returns (more: seq<Action>, s': Sys)
    requires Run(s0, actions, s) && Enabled(s, a)
    ensures s' == Step(s, a) && more == actions + [a] && Run(s0, more, s')
  {
    RunConcat(s0, actions, s, [a], Step(s, a));
    RunOne(s, a);
    more, s' := actions + [a], Step(s, a);
  }

  lemma {:induction false} RunConcat(s: Sys, a: seq<Action>, s1: Sys, b: seq<Action>, s2: Sys)
    requires Run(s, a, s1)
    ensures Run(s, a + b, s2) <==> Run(s1, b, s2)
    decreases |a|
  {
    if a == [] {
      assert a + b == b;
    } else {
      RunConcat(Step(s, a[0]), a[1..], s1, b, s2);
      assert (a + b)[1..] == a[1..] + b;
    }
  }

  lemma RunOne(s: Sys, a: Action)
    requires Enabled(s, a)
    ensures Run(s, [a], Step(s, a))
  {
    assert [a][1..] == [];
  }

  /** The steps of a teardown on their own. */
  lemma TearsDown(s: Sys, t: Thread, next: Next) returns (s': Sys)
    requires At(s, t) == TearStart(next) && s.device.Some? && s.proxy.Some?
    requires s.device.value in s.closes && s.closes[s.device.value] == 0
    ensures Run(s, [Tear(t, TakeDown), Tear(t, CloseProxy), Tear(t, CloseDevice)], s')
    ensures s' == s.(device := None, proxy := None, live := s.live - {s.proxy.value},
                     closes := s.closes[s.device.value := 1], threads := s.threads[t := TornDown(next)])
  {
    var actions;
    actions, s' := [], s;
    actions, s' := Next(s, actions, s', Tear(t, TakeDown));
    actions, s' := Next(s, actions, s', Tear(t, CloseProxy));
    actions, s' := Next(s, actions, s', Tear(t, CloseDevice));
    assert actions == [Tear(t, TakeDown), Tear(t, CloseProxy), Tear(t, CloseDevice)];
    assert s'.threads == s.threads[t := TornDown(next)];
  }

  /**
   A disconnect with nothing in between: logged in, no proxy, its listener gone, and the device closed
   once. A logout does the same and leaves the manager logged out.
   */
  lemma DisconnectAlone(s: Sys, t: Thread, r: Request) returns (s': Sys)
    requires Inv(s) && AskEnabled(s, t, r) && s.device.Some? && (r == AskDisconnect || r == AskLogout)
    ensures Run(s, [Ask(t, r)] + [Tear(t, TakeDown), Tear(t, CloseProxy), Tear(t, CloseDevice)]
                   + [Tear(t, AfterTeardown)], s')
    ensures s'.state == if r == AskDisconnect then LoggedIn else LoggedOut
    ensures s'.device.None? && s'.proxy.None? && s.proxy.Some? && s'.live == s.live - {s.proxy.value}
    ensures s'.closes == s.closes[s.device.value := 1] && s'.threads == s.threads[t := Ended]
  {
    hide Step, Enabled, Inv;
    var s1, s2 := AskedToTear(s, t, r);
    s' := TornDownEnds(s2, t, r);
    RunConcat(s, [Ask(t, r)], s1, [Tear(t, TakeDown), Tear(t, CloseProxy), Tear(t, CloseDevice)], s2);
    RunConcat(s, [Ask(t, r)] + [Tear(t, TakeDown), Tear(t, CloseProxy), Tear(t, CloseDevice)], s2,
              [Tear(t, AfterTeardown)], s');
  }

  lemma AskedToTear(s: Sys, t: Thread, r: Request) returns (s1: Sys, s2: Sys)
    requires Inv(s) && AskEnabled(s, t, r) && s.device.Some? && (r == AskDisconnect || r == AskLogout)
    ensures Run(s, [Ask(t, r)], s1)
    ensures Run(s1, [Tear(t, TakeDown), Tear(t, CloseProxy), Tear(t, CloseDevice)], s2)
    ensures s.proxy.Some? && s2.device.None? && s2.proxy.None? && s2.live == s.live - {s.proxy.value}
    ensures s2.closes == s.closes[s.device.value := 1]
    ensures s2.threads == s.threads[t := TornDown(if r == AskDisconnect then ToLoggedIn else ToLoggedOut)]
  {
    var next := if r == AskDisconnect then ToLoggedIn else ToLoggedOut;
    RunOne(s, Ask(t, r));
    s1 := Step(s, Ask(t, r));
    s2 := TearsDown(s1, t, next);
    assert s2.threads == s.threads[t := TornDown(next)];
  }

  lemma TornDownEnds(s: Sys, t: Thread, r: Request) returns (s': Sys)
    requires At(s, t) == TornDown(if r == AskDisconnect then ToLoggedIn else ToLoggedOut)
    requires r == AskDisconnect || r == AskLogout
    ensures Run(s, [Tear(t, AfterTeardown)], s')
    ensures s' == s.(state := if r == AskDisconnect then LoggedIn else LoggedOut, threads := s.threads[t := Ended])
  {
    RunOne(s, Tear(t, AfterTeardown));
    s' := Step(s, Tear(t, AfterTeardown));
  }

  /** The steps of a connect up to its listener. */
  lemma ConnectListens(s: Sys, t: Thread) returns (s': Sys)
    requires AskEnabled(s, t, AskConnect) && s.live == map[]
    ensures Run(s, [Ask(t, AskConnect), Connect(t, BuildOk), Connect(t, ListenOk)], s')
    ensures s'.threads == s.threads[t := Listening(FromConnect, s.nextDevice, s.nextProxy)]
    ensures s'.live == map[s.nextProxy := s.addr] && s'.dialer == s.dialer[s.nextProxy := s.nextDevice]
    ensures s'.closes == s.closes[s.nextDevice := 0]
  {
    var actions;
    actions, s' := [], s;
    actions, s' := Next(s, actions, s', Ask(t, AskConnect));
    actions, s' := Next(s, actions, s', Connect(t, BuildOk));
    actions, s' := Next(s, actions, s', Connect(t, ListenOk));
    assert actions == [Ask(t, AskConnect), Connect(t, BuildOk), Connect(t, ListenOk)];
    assert s'.threads == s.threads[t := Listening(FromConnect, s.nextDevice, s.nextProxy)];
  }

  /** A connect with nothing in between: connected, with a new device behind a new proxy on the configured address. */
  lemma ConnectAlone(s: Sys, t: Thread) returns (s': Sys)
    requires AskEnabled(s, t, AskConnect) && s.live == map[]
    ensures Run(s, [Ask(t, AskConnect), Connect(t, BuildOk), Connect(t, ListenOk)] + [Connect(t, Install)], s')
    ensures s'.state == Connected && s'.device == Some(s.nextDevice) && s'.proxy == Some(s.nextProxy)
    ensures s'.live == map[s.nextProxy := s.addr] && s'.dialer == s.dialer[s.nextProxy := s.nextDevice]
    ensures s'.closes == s.closes[s.nextDevice := 0] && s'.threads == s.threads[t := Ended]
  {
    var s1 := ConnectListens(s, t);
    RunOne(s1, Connect(t, Install));
    s' := Step(s1, Connect(t, Install));
    RunConcat(s, [Ask(t, AskConnect), Connect(t, BuildOk), Connect(t, ListenOk)], s1, [Connect(t, Install)], s');
    assert s'.threads == s.threads[t := Ended];
  }

  /** The first half of a refresh: it holds the lock and has noted what is installed. */
  lemma RefreshBegins(s: Sys, t: Thread, recents: bool) returns (s': Sys)
    requires AskEnabled(s, t, AskRefresh) && s.refreshLock.None? && s.state == Connected
    requires s.device.Some? && s.proxy.Some?
    ensures Run(s, [Ask(t, AskRefresh), Refresh(t, Acquire), Refresh(t, Snapshot(recents))], s')
    ensures s' == s.(refreshLock := Some(t),
                     threads := s.threads[t := Candidate(s.proxy.value, s.device.value, 0, recents)])
  {
    var actions;
    actions, s' := [], s;
    actions, s' := Next(s, actions, s', Ask(t, AskRefresh));
    actions, s' := Next(s, actions, s', Refresh(t, Acquire));
    actions, s' := Next(s, actions, s', Refresh(t, Snapshot(recents)));
    assert actions == [Ask(t, AskRefresh), Refresh(t, Acquire), Refresh(t, Snapshot(recents))];
    assert s'.threads == s.threads[t := Candidate(s.proxy.value, s.device.value, 0, recents)];
  }

  /** A candidate that passes at once: the proxy dials through it. */
  lemma CandidateSwaps(s: Sys, t: Thread) returns (s': Sys)
    requires At(s, t).Candidate? && At(s, t).attempt == 0
    ensures var pc := At(s, t);
            && Run(s, [Refresh(t, CandidateOk), Refresh(t, ProbeDone(true, true)), Refresh(t, SetTunnel)], s')
            && s'.threads == s.threads[t := Swapped(pc.p, pc.was, s.nextDevice)]
            && s'.dialer == s.dialer[pc.p := s.nextDevice] && s'.closes == s.closes[s.nextDevice := 0]
            && s'.device == s.device && s'.proxy == s.proxy && s'.state == s.state && s'.live == s.live
  {
    var pc := At(s, t);
    var actions;
    actions, s' := [], s;
    actions, s' := Next(s, actions, s', Refresh(t, CandidateOk));
    actions, s' := Next(s, actions, s', Refresh(t, ProbeDone(true, true)));
    actions, s' := Next(s, actions, s', Refresh(t, SetTunnel));
    assert actions == [Refresh(t, CandidateOk), Refresh(t, ProbeDone(true, true)), Refresh(t, SetTunnel)];
    assert s'.threads == s.threads[t := Swapped(pc.p, pc.was, s.nextDevice)];
  }

  /** A swap that is still connected is kept, and the device it replaces is drained and closed once. */
  lemma SwapIsKept(s: Sys, t: Thread) returns (s': Sys)
    requires At(s, t).Swapped? && s.state == Connected && s.proxy == Some(At(s, t).p)
    requires At(s, t).was in s.closes && s.closes[At(s, t).was] == 0
    ensures var pc := At(s, t);
            && Run(s, [Refresh(t, Commit), Refresh(t, StartDrain), Refresh(t, EndDrain)], s')
            && s'.device == Some(pc.d) && s'.proxy == s.proxy && s'.state == Connected && s'.refreshLock.None?
            && s'.closes == s.closes[pc.was := 1] && s'.threads == s.threads[t := Ended]
            && s'.dialer == s.dialer && s'.live == s.live
  {
    var actions;
    actions, s' := [], s;
    actions, s' := Next(s, actions, s', Refresh(t, Commit));
    actions, s' := Next(s, actions, s', Refresh(t, StartDrain));
    actions, s' := Next(s, actions, s', Refresh(t, EndDrain));
    assert actions == [Refresh(t, Commit), Refresh(t, StartDrain), Refresh(t, EndDrain)];
    assert s'.threads == s.threads[t := Ended];
  }

  /**
   A refresh with nothing in between: still connected through the same proxy, which now dials through a
   new device that the manager holds, and the old device is closed once.
   */
  lemma RefreshAlone(s: Sys, t: Thread, recents: bool) returns (s': Sys)
    requires Inv(s) && AskEnabled(s, t, AskRefresh) && s.refreshLock.None? && s.state == Connected && s.proxy.Some?
    ensures Run(s, [Ask(t, AskRefresh), Refresh(t, Acquire), Refresh(t, Snapshot(recents))]
                   + [Refresh(t, CandidateOk), Refresh(t, ProbeDone(true, true)), Refresh(t, SetTunnel)]
                   + [Refresh(t, Commit), Refresh(t, StartDrain), Refresh(t, EndDrain)], s')
    ensures s.device.Some? && s'.state == Connected && s'.proxy == s.proxy && s'.device == Some(s.nextDevice)
    ensures s'.dialer == s.dialer[s.proxy.value := s.nextDevice] && s'.live == s.live && s'.refreshLock.None?
    ensures s'.closes == s.closes[s.nextDevice := 0][s.device.value := 1] && s'.threads == s.threads[t := Ended]
  {
    hide Step, Enabled;
    OpenDevice(s);
    var s1 := RefreshBegins(s, t, recents);
    var s2 := CandidateSwaps(s1, t);
    s' := SwapIsKept(s2, t);
    RunConcat(s, [Ask(t, AskRefresh), Refresh(t, Acquire), Refresh(t, Snapshot(recents))], s1,
              [Refresh(t, CandidateOk), Refresh(t, ProbeDone(true, true)), Refresh(t, SetTunnel)], s2);
    RunConcat(s, [Ask(t, AskRefresh), Refresh(t, Acquire), Refresh(t, Snapshot(recents))]
                 + [Refresh(t, CandidateOk), Refresh(t, ProbeDone(true, true)), Refresh(t, SetTunnel)], s2,
              [Refresh(t, Commit), Refresh(t, StartDrain), Refresh(t, EndDrain)], s');
    assert s'.threads == s.threads[t := Ended];
  }

  lemma OpenDevice(s: Sys)
    requires Inv(s) && s.proxy.Some?
    ensures s.device.Some? && s.device.value in s.closes && s.closes[s.device.value] == 0
    ensures s.device.value != s.nextDevice
  {
  }
}
