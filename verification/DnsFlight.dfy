/**
 Name lookups shared between requests: one resolution in flight per host, whose result every joiner
 gets and a cache keeps for a while. A lookup is a thread; each of its critical sections is one step.
 */
module DnsFlight {
  import opened Basics
  import opened Octets

  const DNS_CACHE_TTL: int := 300

  const RETRIES: nat := 4

  type Host = string
  type Lookup = nat
  type Call = nat

  datatype Result = Found(addrs: seq<Ip>) | Failed(error: int) | Cancelled

  // ---------------------------------------------------------------- resolving

  /** What the tunnel's resolver says: texts, of which some parse, or an error. */
  datatype Reply = Texts(texts: seq<Option<Ip>>) | Fault(error: int)

  const NO_ADDRESSES: int := -1

  /** What the resolver would say to each of the questions. */
  type Replies = r: seq<Reply> | |r| == RETRIES witness seq(RETRIES, _ => Fault(0))

  predicate IsBenchmarkFakeIP(ip: Ip) {
    var v := To4(ip);
    v.Some? && v.value[0] == 198 && (v.value[1] == 18 || v.value[1] == 19)
  }

  lemma Value4(v: seq<Octet>)
    requires |v| == 4
    ensures Value(v) == ((v[0] as int * 256 + v[1]) * 256 + v[2]) * 256 + v[3]
  {
    assert v[..3][..2] == v[..2] && v[..2][..1] == v[..1] && v[..1][..0] == [];
    assert Value(v[..1]) == v[0];
    assert Value(v[..2]) == 256 * Value(v[..1]) + v[1];
    assert Value(v[..3]) == 256 * Value(v[..2]) + v[2];
  }

  /** The addresses thrown away are those of 198.18.0.0/15: the top fifteen bits agree. */
  lemma FakeIffBenchmarkRange(ip: Ip)
    ensures IsBenchmarkFakeIP(ip) <==>
            To4(ip).Some? && Value(To4(ip).value) / 0x2_0000 == Value([198, 18, 0, 0]) / 0x2_0000
  {
    Value4([198, 18, 0, 0]);
    if To4(ip).Some? {
      Value4(To4(ip).value);
    }
  }

  predicate Usable(ip: Option<Ip>) {
    ip.Some? && !IsBenchmarkFakeIP(ip.value)
  }

  function UsableOf(texts: seq<Option<Ip>>): seq<Ip> {
    if texts == [] then []
    else UsableOf(texts[..|texts| - 1]) + if Usable(texts[|texts| - 1]) then [texts[|texts| - 1].value] else []
  }

  function UsableIn(r: Reply): seq<Ip> {
    if r.Texts? then UsableOf(r.texts) else []
  }

  /** A list worth caching: not empty, and no address of the benchmark range. */
  ghost predicate Clean(addrs: seq<Ip>) {
    addrs != [] && forall i :: 0 <= i < |addrs| ==> !IsBenchmarkFakeIP(addrs[i])
  }

  lemma {:induction false} UsableOfClean(texts: seq<Option<Ip>>)
    ensures forall i :: 0 <= i < |UsableOf(texts)| ==> !IsBenchmarkFakeIP(UsableOf(texts)[i])
    ensures forall ip :: ip in UsableOf(texts) <==> Some(ip) in texts && !IsBenchmarkFakeIP(ip)
  {
    if texts != [] {
      var n := |texts| - 1;
      UsableOfClean(texts[..n]);
      assert texts == texts[..n] + [texts[n]];
    }
  }

  /** Usable addresses keep their order. */
  lemma {:induction false} UsableInOrder(a: seq<Option<Ip>>, b: seq<Option<Ip>>)
    ensures UsableOf(a + b) == UsableOf(a) + UsableOf(b)
  {
    if b == [] {
      assert a + b == a;
    } else {
      var n := |b| - 1;
      assert (a + b)[..|a| + n] == a + b[..n];
      UsableInOrder(a, b[..n]);
    }
  }

  method KeepUsable(texts: seq<Option<Ip>>) returns (ips: seq<Ip>)
    ensures ips == UsableOf(texts)
  {
    ips := [];
    for i := 0 to |texts|
      invariant ips == UsableOf(texts[..i])
    {
      assert texts[..i + 1][..i] == texts[..i];
      var ip := texts[i];
      if ip.Some? && !IsBenchmarkFakeIP(ip.value) {
        ips := ips + [ip.value];
      }
    }
    assert texts[..|texts|] == texts;
  }

  function ErrorOf(r: Reply): int {
    if r.Fault? then r.error else NO_ADDRESSES
  }

  /** The first reply with usable addresses is the answer; when there is none, the last reply's error. */
  function Resolve(replies: seq<Reply>, lastErr: int): Result {
    if replies == [] then Failed(lastErr)
    else if UsableIn(replies[0]) != [] then Found(UsableIn(replies[0]))
    else Resolve(replies[1..], ErrorOf(replies[0]))
  }

  /** What a resolution can hand its leader. */
  ghost predicate Resolved(r: Result) {
    !r.Cancelled? && (r.Found? ==> Clean(r.addrs))
  }

  lemma {:induction false} ResolveIsClean(replies: seq<Reply>, lastErr: int)
    ensures Resolved(Resolve(replies, lastErr))
  {
    if replies != [] {
      if replies[0].Texts? { UsableOfClean(replies[0].texts); }
      ResolveIsClean(replies[1..], ErrorOf(replies[0]));
    }
  }

  predicate FirstUsable(replies: seq<Reply>, k: nat)
    requires k < |replies|
  {
    UsableIn(replies[k]) != [] && forall j :: 0 <= j < k ==> UsableIn(replies[j]) == []
  }

  /** Resolved exactly when some reply is usable, and then with the addresses of the first such reply. */
  lemma {:induction false} ResolveMeans(replies: seq<Reply>, lastErr: int)
    ensures var r := Resolve(replies, lastErr);
            && (r.Found? <==> exists k :: 0 <= k < |replies| && UsableIn(replies[k]) != [])
            && (forall k :: 0 <= k < |replies| && FirstUsable(replies, k) ==> r == Found(UsableIn(replies[k])))
            && (r.Failed? ==>
                  r.error == if replies == [] then lastErr
                             else if replies[|replies| - 1].Fault? then replies[|replies| - 1].error
                             else NO_ADDRESSES)
  {
    if replies != [] && UsableIn(replies[0]) == [] {
      var rest := replies[1..];
      ResolveMeans(rest, ErrorOf(replies[0]));
      assert forall k :: 0 < k < |replies| ==> replies[k] == rest[k - 1];
      forall k | 0 <= k < |replies| && FirstUsable(replies, k)
        ensures Resolve(replies, lastErr) == Found(UsableIn(replies[k]))
      {
        assert forall j :: 0 <= j < k - 1 ==> UsableIn(rest[j]) == UsableIn(replies[j + 1]);
        assert FirstUsable(rest, k - 1);
      }
    }
  }

  /** Asks until a reply is usable, four times at most. */
  method ResolveHost(replies: Replies) returns (r: Result)
    ensures r == Resolve(replies, NO_ADDRESSES)
    ensures |replies| == 4 && (r.Found? <==> exists k :: 0 <= k < 4 && UsableIn(replies[k]) != [])
  {
    ResolveMeans(replies, NO_ADDRESSES);
    var lastErr := NO_ADDRESSES;
    for attempt := 0 to RETRIES
      invariant Resolve(replies, NO_ADDRESSES) == Resolve(replies[attempt..], lastErr)
    {
      var answer := replies[attempt];
      if answer.Fault? {
        lastErr := answer.error;
        continue;
      }
      var ips := KeepUsable(answer.texts);
      if |ips| > 0 {
        return Found(ips);
      }
      lastErr := NO_ADDRESSES;
    }
    r := Failed(lastErr);
  }

  // ---------------------------------------------------------------- lookups as threads

  datatype Entry = Entry(addrs: seq<Ip>, expires: int)

  /** A resolution shared by lookups; its done channel is open while there is no result. */
  datatype CallInfo = CallInfo(host: Host, started: int, leader: Lookup, result: Option<Result>)

  /** `source` is the resolution a returned result came from; a cancelled lookup has none. */
  datatype Pc = Leading(call: Call) | Joined(call: Call) | Returned(host: Host, result: Result, source: Option<Call>)

  /** The cache, the resolutions in flight, every resolution so far, which one filled the cache, and the lookups. */
  datatype State = State(
    cache: map<Host, Entry>, flights: map<Host, Call>, calls: map<Call, CallInfo>,
    filledBy: map<Host, Call>, lookups: map<Lookup, Pc>)

  const START := State(map[], map[], map[], map[], map[])

  datatype Action =
    | Enter(t: Lookup, host: Host, now: int, call: Call)
    | Finish(t: Lookup, replies: Replies)
    | Await(t: Lookup)
    | Cancel(t: Lookup)

  predicate Enabled(s: State, a: Action) {
    match a
    case Enter(t, host, now, call) => t !in s.lookups && call !in s.calls
    case Finish(t, _) => t in s.lookups && s.lookups[t].Leading? && s.lookups[t].call in s.calls
    case Await(t) =>
      t in s.lookups && s.lookups[t].Joined? && s.lookups[t].call in s.calls && s.calls[s.lookups[t].call].result.Some?
    case Cancel(t) => t in s.lookups && s.lookups[t].Joined? && s.lookups[t].call in s.calls
  }

  predicate Hit(s: State, host: Host, now: int) {
    host in s.cache && now < s.cache[host].expires
  }

  function AfterEnter(s: State, t: Lookup, host: Host, now: int, call: Call): State {
    if Hit(s, host, now) then
      var source := if host in s.filledBy then Some(s.filledBy[host]) else None;
      s.(lookups := s.lookups[t := Returned(host, Found(s.cache[host].addrs), source)])
    else if host in s.flights then
      s.(lookups := s.lookups[t := Joined(s.flights[host])])
    else
      s.(calls := s.calls[call := CallInfo(host, now, t, None)],
         flights := s.flights[host := call],
         lookups := s.lookups[t := Leading(call)])
  }

  function AfterFinish(s: State, t: Lookup, call: Call, result: Result): State
    requires call in s.calls
  {
    var info := s.calls[call];
    State(
      if result.Found? then s.cache[info.host := Entry(result.addrs, info.started + DNS_CACHE_TTL)] else s.cache,
      s.flights - {info.host},
      s.calls[call := info.(result := Some(result))],
      if result.Found? then s.filledBy[info.host := call] else s.filledBy,
      s.lookups[t := Returned(info.host, result, Some(call))])
  }

  function Step(s: State, a: Action): State
    requires Enabled(s, a)
  {
    match a
    case Enter(t, host, now, call) => AfterEnter(s, t, host, now, call)
    case Finish(t, replies) => AfterFinish(s, t, s.lookups[t].call, Resolve(replies, NO_ADDRESSES))
    case Await(t) =>
      var c := s.lookups[t].call;
      s.(lookups := s.lookups[t := Returned(s.calls[c].host, s.calls[c].result.value, Some(c))])
    case Cancel(t) =>
      s.(lookups := s.lookups[t := Returned(s.calls[s.lookups[t].call].host, Cancelled, None)])
  }

  predicate Possible(s: State, run: seq<Action>)
    decreases |run|
  {
    run == [] || (Enabled(s, run[0]) && Possible(Step(s, run[0]), run[1..]))
  }

  function Run(s: State, run: seq<Action>): State
    requires Possible(s, run)
    decreases |run|
  {
    if run == [] then s else Run(Step(s, run[0]), run[1..])
  }

  // ---------------------------------------------------------------- what every step keeps

  /** A resolution is in the table exactly while its done channel is open. */
  ghost predicate Flights(s: State) {
    && (forall h :: h in s.flights ==>
          s.flights[h] in s.calls && s.calls[s.flights[h]].host == h && s.calls[s.flights[h]].result.None?)
    && (forall c :: c in s.calls && s.calls[c].result.None? ==>
          s.calls[c].host in s.flights && s.flights[s.calls[c].host] == c)
  }

  /** An open resolution is being run by its leader, a closed one was reported by it. */
  ghost predicate Leaders(s: State) {
    && (forall c :: c in s.calls ==>
          && s.calls[c].leader in s.lookups
          && s.lookups[s.calls[c].leader] ==
             (if s.calls[c].result.None? then Leading(c)
              else Returned(s.calls[c].host, s.calls[c].result.value, Some(c))))
    && (forall t :: t in s.lookups && s.lookups[t].Leading? ==>
          s.lookups[t].call in s.calls && s.calls[s.lookups[t].call].leader == t)
  }

  ghost predicate Joiners(s: State) {
    forall t :: t in s.lookups && s.lookups[t].Joined? ==> s.lookups[t].call in s.calls
  }

  ghost predicate FromCall(s: State, host: Host, result: Result, source: Option<Call>) {
    if source.None? then result.Cancelled?
    else source.value in s.calls && s.calls[source.value].host == host && s.calls[source.value].result == Some(result)
  }

  ghost predicate Results(s: State) {
    && (forall t :: t in s.lookups && s.lookups[t].Returned? ==>
          FromCall(s, s.lookups[t].host, s.lookups[t].result, s.lookups[t].source))
    && (forall c :: c in s.calls && s.calls[c].result.Some? ==> Resolved(s.calls[c].result.value))
  }

  ghost predicate Cached(s: State) {
    && (forall h :: h in s.filledBy ==> h in s.cache)
    && (forall h :: h in s.cache ==>
          && h in s.filledBy
          && FromCall(s, h, Found(s.cache[h].addrs), Some(s.filledBy[h]))
          && s.cache[h].expires == s.calls[s.filledBy[h]].started + DNS_CACHE_TTL)
  }

  ghost predicate Inv(s: State) {
    Flights(s) && Leaders(s) && Joiners(s) && Results(s) && Cached(s)
  }

  lemma LeadFlights(s: State, host: Host, call: Call, info: CallInfo)
    requires Flights(s) && host !in s.flights && call !in s.calls && info.host == host && info.result.None?
    ensures Flights(s.(calls := s.calls[call := info], flights := s.flights[host := call]))
  {
  }

  lemma EnterFlights(s: State, t: Lookup, host: Host, now: int, call: Call)
    requires Flights(s) && t !in s.lookups && call !in s.calls
    ensures Flights(AfterEnter(s, t, host, now, call))
  {
    if !Hit(s, host, now) && host !in s.flights {
      LeadFlights(s, host, call, CallInfo(host, now, t, None));
    }
  }

  lemma EnterJoiners(s: State, t: Lookup, host: Host, now: int, call: Call)
    requires Flights(s) && Joiners(s) && t !in s.lookups && call !in s.calls
    ensures Joiners(AfterEnter(s, t, host, now, call))
  {
  }

  lemma EnterLeaders(s: State, t: Lookup, host: Host, now: int, call: Call)
    requires Leaders(s) && t !in s.lookups && call !in s.calls
    ensures Leaders(AfterEnter(s, t, host, now, call))
  {
  }

  lemma EnterResults(s: State, t: Lookup, host: Host, now: int, call: Call)
    requires Results(s) && Cached(s) && t !in s.lookups && call !in s.calls
    ensures Results(AfterEnter(s, t, host, now, call))
  {
  }

  lemma EnterCached(s: State, t: Lookup, host: Host, now: int, call: Call)
    requires Cached(s) && t !in s.lookups && call !in s.calls
    ensures Cached(AfterEnter(s, t, host, now, call))
  {
  }

  lemma FinishFlights(s: State, t: Lookup, call: Call, result: Result)
    requires Flights(s) && Joiners(s) && Leaders(s)
    requires t in s.lookups && s.lookups[t] == Leading(call) && call in s.calls && Resolved(result)
    ensures Flights(AfterFinish(s, t, call, result)) && Joiners(AfterFinish(s, t, call, result))
  {
  }

  lemma FinishLeaders(s: State, t: Lookup, call: Call, result: Result)
    requires Leaders(s)
    requires t in s.lookups && s.lookups[t] == Leading(call) && call in s.calls && Resolved(result)
    ensures Leaders(AfterFinish(s, t, call, result))
  {
  }

  lemma FinishResults(s: State, t: Lookup, call: Call, result: Result)
    requires Results(s) && Leaders(s)
    requires t in s.lookups && s.lookups[t] == Leading(call) && call in s.calls && Resolved(result)
    ensures Results(AfterFinish(s, t, call, result))
  {
  }

  lemma FinishCached(s: State, t: Lookup, call: Call, result: Result)
    requires Cached(s) && Leaders(s)
    requires t in s.lookups && s.lookups[t] == Leading(call) && call in s.calls && Resolved(result)
    ensures Cached(AfterFinish(s, t, call, result))
  {
  }

  lemma JoinerLeaders(s: State, a: Action)
    requires Leaders(s) && (a.Await? || a.Cancel?) && Enabled(s, a)
    ensures Leaders(Step(s, a))
  {
  }

  lemma JoinerRest(s: State, a: Action)
    requires Inv(s) && (a.Await? || a.Cancel?) && Enabled(s, a)
    ensures var s' := Step(s, a); Flights(s') && Joiners(s') && Results(s') && Cached(s')
  {
  }

  lemma InvStep(s: State, a: Action)
    requires Inv(s) && Enabled(s, a)
    ensures Inv(Step(s, a))
  {
    match a
    case Enter(t, host, now, call) =>
      EnterFlights(s, t, host, now, call);
      EnterJoiners(s, t, host, now, call);
      EnterLeaders(s, t, host, now, call);
      EnterResults(s, t, host, now, call);
      EnterCached(s, t, host, now, call);
    case Finish(t, replies) =>
      var call, result := s.lookups[t].call, Resolve(replies, NO_ADDRESSES);
      ResolveIsClean(replies, NO_ADDRESSES);
      FinishFlights(s, t, call, result);
      FinishLeaders(s, t, call, result);
      FinishResults(s, t, call, result);
      FinishCached(s, t, call, result);
    case _ =>
      JoinerLeaders(s, a);
      JoinerRest(s, a);
  }

  lemma {:induction false} InvRun(s: State, run: seq<Action>)
    requires Inv(s) && Possible(s, run)
    ensures Inv(Run(s, run))
    decreases |run|
  {
    if run != [] {
      InvStep(s, run[0]);
      InvRun(Step(s, run[0]), run[1..]);
    }
  }

  /** A leader closes a channel that is open and takes its own resolution out of the table. */
  lemma FinishOwnFlight(s: State, t: Lookup, replies: Replies)
    requires Inv(s) && Enabled(s, Finish(t, replies))
    ensures var call := s.lookups[t].call; var host := s.calls[call].host;
            && Inv(AfterFinish(s, t, call, Resolve(replies, NO_ADDRESSES)))
            && s.calls[call].result.None? && host in s.flights && s.flights[host] == call
  {
    InvStep(s, Finish(t, replies));
  }

  /** A lookup stayed where it was, and the resolutions known before still serve the same host. */
  ghost predicate Unmoved(s: State, s': State, t: Lookup) {
    && t in s.lookups && t in s'.lookups && s'.lookups[t] == s.lookups[t]
    && forall c :: c in s.calls ==>
      c in s'.calls && s'.calls[c].host == s.calls[c].host && s'.calls[c].started == s.calls[c].started
  }

  lemma StepLeaves(s: State, a: Action, t: Lookup)
    requires t in s.lookups && Enabled(s, a) && a.t != t
    ensures Unmoved(s, Step(s, a), t)
  {
  }

  /** What the other lookups do leaves this one where it is, and its resolution too. */
  lemma {:induction false} OthersLeave(s: State, others: seq<Action>, t: Lookup)
    requires t in s.lookups && Possible(s, others) && forall a :: a in others ==> a.t != t
    ensures Unmoved(s, Run(s, others), t)
    decreases |others|
  {
    hide Enabled, Step;
    if others != [] {
      StepLeaves(s, others[0], t);
      OthersLeave(Step(s, others[0]), others[1..], t);
    }
  }

  /** What the lookup that led a resolution returned, the others that got it returned too. */
  ghost predicate LikeItsLeader(s: State, t: Lookup)
    requires t in s.lookups && s.lookups[t].Returned?
  {
    var source := s.lookups[t].source;
    && source.Some? && source.value in s.calls
    && s.calls[source.value].host == s.lookups[t].host
    && s.calls[source.value].leader in s.lookups && s.lookups[s.calls[source.value].leader] == s.lookups[t]
  }

  lemma ReturnedLikeItsLeader(s: State, t: Lookup)
    requires Inv(s) && t in s.lookups && s.lookups[t].Returned? && !s.lookups[t].result.Cancelled?
    ensures LikeItsLeader(s, t) && Resolved(s.lookups[t].result)
  {
  }

  // ---------------------------------------------------------------- theorems

  ghost predicate Resolving(s: State, t: Lookup, host: Host) {
    t in s.lookups && s.lookups[t].Leading? && s.lookups[t].call in s.calls && s.calls[s.lookups[t].call].host == host
  }

  /** Never two resolutions of one host at once, and one runs exactly while the host is in the table. */
  lemma SingleFlight(run: seq<Action>, host: Host)
    requires Possible(START, run)
    ensures var s := Run(START, run);
            && (forall t, u :: Resolving(s, t, host) && Resolving(s, u, host) ==> t == u)
            && (host in s.flights <==> exists t :: Resolving(s, t, host))
  {
    InvRun(START, run);
    var s := Run(START, run);
    if host in s.flights {
      assert Resolving(s, s.calls[s.flights[host]].leader, host);
    }
  }

  /**
   Every lookup that was not cancelled returns what the leader of its resolution returned, and that was
   for its host.
   */
  lemma JoinersGetLeadersResult(run: seq<Action>, t: Lookup)
    requires Possible(START, run)
    requires var s := Run(START, run); t in s.lookups && s.lookups[t].Returned? && !s.lookups[t].result.Cancelled?
    ensures var s := Run(START, run); LikeItsLeader(s, t) && Resolved(s.lookups[t].result)
  {
    InvRun(START, run);
    ReturnedLikeItsLeader(Run(START, run), t);
  }

  /** A joiner is never left waiting: its resolution is over, or the leader is still to finish it. */
  lemma JoinerNotStranded(run: seq<Action>, t: Lookup)
    requires Possible(START, run)
    requires var s := Run(START, run); t in s.lookups && s.lookups[t].Joined?
    ensures var s := Run(START, run);
            && s.lookups[t].call in s.calls
            && var info := s.calls[s.lookups[t].call];
            (info.result.Some? && Enabled(s, Await(t))) || forall replies :: Enabled(s, Finish(info.leader, replies))
  {
    InvRun(START, run);
  }

  /** Cached addresses are a clean list that some resolution of that host found, begun one TTL before they expire. */
  lemma CacheSound(run: seq<Action>, host: Host)
    requires Possible(START, run) && host in Run(START, run).cache
    ensures var s := Run(START, run);
            && Clean(s.cache[host].addrs)
            && exists c :: c in s.calls && s.calls[c].host == host
                && s.calls[c].result == Some(Found(s.cache[host].addrs))
                && s.calls[c].started == s.cache[host].expires - DNS_CACHE_TTL
  {
    InvRun(START, run);
    var s := Run(START, run);
    assert s.filledBy[host] in s.calls;
  }

  // ---------------------------------------------------------------- what a lookup meets

  /** The resolution of the host that ended last with addresses, from a state in which that was `latest`. */
  function LatestFrom(s: State, run: seq<Action>, host: Host, latest: Option<Call>): Option<Call>
    requires Possible(s, run)
    decreases |run|
  {
    if run == [] then latest
    else
      var a := run[0];
      var found := a.Finish? && s.calls[s.lookups[a.t].call].host == host && Resolve(a.replies, NO_ADDRESSES).Found?;
      LatestFrom(Step(s, a), run[1..], host, if found then Some(s.lookups[a.t].call) else latest)
  }

  function LatestFound(run: seq<Action>, host: Host): Option<Call>
    requires Possible(START, run)
  {
    LatestFrom(START, run, host, None)
  }

  function FillerOf(s: State, host: Host): Option<Call> {
    if host in s.filledBy then Some(s.filledBy[host]) else None
  }

  lemma {:induction false} FilledByLatest(s: State, run: seq<Action>, host: Host)
    requires Possible(s, run)
    ensures FillerOf(Run(s, run), host) == LatestFrom(s, run, host, FillerOf(s, host))
    decreases |run|
  {
    if run != [] { FilledByLatest(Step(s, run[0]), run[1..], host); }
  }

  /** A resolution of the host that found addresses less than five minutes after it began. */
  predicate Young(s: State, c: Call, host: Host, now: int) {
    c in s.calls && s.calls[c].host == host && s.calls[c].result.Some? && s.calls[c].result.value.Found?
    && now < s.calls[c].started + 300
  }

  ghost predicate InFlight(s: State, host: Host) {
    exists c :: c in s.calls && s.calls[c].host == host && s.calls[c].result.None?
  }

  /** Whether the cache serves a host is whether the resolution that filled it is young. */
  lemma HitIsYoung(s: State, host: Host, now: int)
    requires Inv(s)
    ensures Hit(s, host, now) <==> host in s.filledBy && Young(s, s.filledBy[host], host, now)
    ensures Hit(s, host, now) ==> s.calls[s.filledBy[host]].result == Some(Found(s.cache[host].addrs))
  {
  }

  /**
   After any run, a lookup entered at `now` is told what the resolution found that ended last with
   addresses for its host, if that began less than five minutes ago; otherwise it waits for the
   resolution in flight, if there is one, and leads a new one if there is none.
   */
  lemma EnterExactly(run: seq<Action>, t: Lookup, host: Host, now: int, call: Call)
    requires Possible(START, run) && Enabled(Run(START, run), Enter(t, host, now, call))
    ensures var s, latest := Run(START, run), LatestFound(run, host);
            var s' := Step(s, Enter(t, host, now, call));
            if latest.Some? && Young(s, latest.value, host, now) then
              s'.lookups[t] == Returned(host, s.calls[latest.value].result.value, latest) && s'.calls == s.calls
            else if InFlight(s, host) then
              && s'.lookups[t].Joined? && s'.lookups[t].call in s.calls && s'.calls == s.calls
              && s.calls[s'.lookups[t].call].host == host && s.calls[s'.lookups[t].call].result.None?
            else
              s'.lookups[t] == Leading(call) && s'.calls == s.calls[call := CallInfo(host, now, t, None)]
  {
    InvRun(START, run);
    FilledByLatest(START, run, host);
    HitIsYoung(Run(START, run), host, now);
    FlightIsTabled(Run(START, run), host);
  }

  lemma FlightIsTabled(s: State, host: Host)
    requires Inv(s)
    ensures InFlight(s, host) <==> host in s.flights
  {
  }

  /** When nothing is in flight for a host and no resolution that found addresses is young, a lookup leads. */
  lemma StaleIsResolvedAgain(run: seq<Action>, t: Lookup, host: Host, now: int, call: Call)
    requires Possible(START, run) && Enabled(Run(START, run), Enter(t, host, now, call))
    requires var s := Run(START, run); !InFlight(s, host) && forall c :: c in s.calls ==> !Young(s, c, host, now)
    ensures Step(Run(START, run), Enter(t, host, now, call)).lookups[t] == Leading(call)
  {
    EnterExactly(run, t, host, now, call);
  }

  // ---------------------------------------------------------------- the proxy's tables

  /** What a lookup does after its first look at the tables. */
  datatype Entered = Serve(addrs: seq<Ip>) | Join(joined: Call) | Lead(led: Call)

  /** Where a lookup for a host is after its first look. */
  predicate Placed(s: State, t: Lookup, host: Host, got: Entered) {
    && t in s.lookups
    && match got
       case Serve(addrs) => s.lookups[t].Returned? && s.lookups[t].host == host && s.lookups[t].result == Found(addrs)
       case Join(c) => s.lookups[t] == Joined(c) && c in s.calls && s.calls[c].host == host
       case Lead(c) => s.lookups[t] == Leading(c) && c in s.calls && s.calls[c].host == host
  }

  class MixedProxy {
    var dnsCache: map<Host, Entry>
    var dnsCalls: map<Host, Call>
    var calls: map<Call, CallInfo>
    ghost var filledBy: map<Host, Call>
    ghost var lookups: map<Lookup, Pc>

    ghost function View(): State
      reads this
    {
      State(dnsCache, dnsCalls, calls, filledBy, lookups)
    }

    constructor ()
      ensures View() == START && Inv(View())
    {
      dnsCache, dnsCalls, calls, filledBy, lookups := map[], map[], map[], map[], map[];
    }

    /** The first critical section; `call` is the record allocated for a new resolution. */
    method Begin(t: Lookup, host: Host, now: int, call: Call) returns (got: Entered)
      requires Inv(View()) && Enabled(View(), Enter(t, host, now, call))
      modifies this
      ensures View() == Step(old(View()), Enter(t, host, now, call)) && Inv(View())
      ensures Placed(View(), t, host, got)
      ensures got.Serve? <==> host in old(filledBy) && Young(old(View()), old(filledBy)[host], host, now)
      ensures got.Serve? ==> old(calls)[old(filledBy)[host]].result == Some(Found(got.addrs)) && Clean(got.addrs)
      ensures got.Join? ==> host in old(dnsCalls) && got.joined == old(dnsCalls)[host] && dnsCalls == old(dnsCalls)
      ensures got.Lead? ==> host !in old(dnsCalls) && got.led == call && dnsCalls == old(dnsCalls)[host := call]
      ensures got.Lead? ==> calls[call].started == now
    {
      InvStep(View(), Enter(t, host, now, call));
      HitIsYoung(View(), host, now);
      lookups := Step(View(), Enter(t, host, now, call)).lookups;
      if host in dnsCache && now < dnsCache[host].expires {
        return Serve(dnsCache[host].addrs);
      }
      if host in dnsCalls {
        return Join(dnsCalls[host]);
      }
      calls := calls[call := CallInfo(host, now, t, None)];
      dnsCalls := dnsCalls[host := call];
      return Lead(call);
    }

    method Record(t: Lookup, call: Call, result: Result)
      requires call in calls
      modifies this
      ensures View() == AfterFinish(old(View()), t, call, result)
    {
      var info := calls[call];
      if result.Found? {
        dnsCache := dnsCache[info.host := Entry(result.addrs, info.started + DNS_CACHE_TTL)];
        filledBy := filledBy[info.host := call];
      }
      lookups := lookups[t := Returned(info.host, result, Some(call))];
      calls := calls[call := info.(result := Some(result))];
      dnsCalls := dnsCalls - {info.host};
    }

    /** The leader's second critical section. The done channel is still open, so closing it cannot panic. */
    method Complete(t: Lookup, call: Call, ghost replies: Replies, result: Result)
      requires Inv(View()) && t in lookups && lookups[t] == Leading(call) && call in calls
      requires result == Resolve(replies, NO_ADDRESSES)
      modifies this
      ensures View() == Step(old(View()), Finish(t, replies)) && Inv(View())
      ensures old(calls)[call].result.None? && calls[call].result == Some(result)
      ensures var host := old(calls)[call].host;
              && host in old(dnsCalls) && old(dnsCalls)[host] == call && dnsCalls == old(dnsCalls) - {host}
              && lookups == old(lookups)[t := Returned(host, result, Some(call))]
              && (result.Found? ==>
                   dnsCache == old(dnsCache)[host := Entry(result.addrs, old(calls)[call].started + DNS_CACHE_TTL)])
    {
      hide Inv;
      FinishOwnFlight(View(), t, replies);
      Record(t, call, result);
    }

    /** A joiner returns, with the result or because its request is over. */
    method Leave(t: Lookup, call: Call, received: bool) returns (r: Result)
      requires Inv(View()) && t in lookups && lookups[t] == Joined(call) && call in calls
      requires received ==> calls[call].result.Some?
      modifies this
      ensures View() == Step(old(View()), if received then Await(t) else Cancel(t)) && Inv(View())
      ensures r == if received then calls[call].result.value else Cancelled
      ensures t in lookups && lookups[t] == Returned(old(calls)[call].host, r, if received then Some(call) else None)
    {
      InvStep(View(), if received then Await(t) else Cancel(t));
      r := if received then calls[call].result.value else Cancelled;
      lookups := lookups[t := Returned(calls[call].host, r, if received then Some(call) else None)];
    }

    /** One critical section of another lookup. */
    method Turn(a: Action)
      requires Inv(View()) && Enabled(View(), a)
      modifies this
      ensures View() == Step(old(View()), a) && Inv(View())
    {
      match a
      case Enter(t, host, now, call) =>
        var _ := Begin(t, host, now, call);
      case Finish(t, replies) =>
        assert lookups[t] == Leading(lookups[t].call);
        var call :| call in calls && calls[call].leader == t && calls[call].result.None?;
        var result := ResolveHost(replies);
        Complete(t, call, replies, result);
      case _ =>
        InvStep(View(), a);
        lookups := Step(View(), a).lookups;
    }

    /** Other lookups take their turns, in whatever order. */
    method Meanwhile(others: seq<Action>)
      requires Inv(View()) && Possible(View(), others)
      modifies this
      ensures View() == Run(old(View()), others) && Inv(View())
    {
      for i := 0 to |others|
        invariant Inv(View()) && Possible(View(), others[i..])
        invariant Run(View(), others[i..]) == Run(old(View()), others)
      {
        Turn(others[i]);
        assert others[i..][1..] == others[i + 1..];
      }
    }

    /**
     A whole lookup, between whose critical sections others take their turns. What it returns is a
     clean list, or an error, or nothing because its request was over while it waited. A lookup that
     leads returns what the replies resolve to and leaves it in the cache; one that joins returns what
     its leader did.
     */
    method LookupHost(
      t: Lookup, host: Host, now: int, call: Call, others: seq<Action>, over: bool, replies: Replies)
      returns (r: Result, ghost led: bool)
      requires Inv(View()) && Enabled(View(), Enter(t, host, now, call))
      requires Possible(Step(View(), Enter(t, host, now, call)), others) && forall a :: a in others ==> a.t != t
      modifies this
      ensures Inv(View()) && t in lookups && lookups[t].Returned?
      ensures lookups[t].host == host && lookups[t].result == r
      ensures led <==> host !in old(dnsCalls) &&
                       !(host in old(filledBy) && Young(old(View()), old(filledBy)[host], host, now))
      ensures r.Found? ==> Clean(r.addrs)
      ensures led ==> r == Resolve(replies, NO_ADDRESSES) && host !in dnsCalls
      ensures led && r.Found? ==> host in dnsCache && dnsCache[host] == Entry(r.addrs, now + DNS_CACHE_TTL)
      ensures host in old(filledBy) && Young(old(View()), old(filledBy)[host], host, now) ==>
                Some(r) == old(calls)[old(filledBy)[host]].result
      ensures !r.Cancelled? ==> LikeItsLeader(View(), t)
    {
      hide Inv, Step, Enabled;
      var got := Begin(t, host, now, call);
      OthersLeave(View(), others, t);
      Meanwhile(others);
      led := got.Lead?;
      match got {
        case Serve(addrs) =>
          r := Found(addrs);
        case Join(joined) =>
          r := Leave(t, joined, calls[joined].result.Some? && !over);
        case Lead(_) =>
          r := ResolveHost(replies);
          Complete(t, call, replies, r);
      }
      if !r.Cancelled? { ReturnedLikeItsLeader(View(), t); }
    }
  }
}
