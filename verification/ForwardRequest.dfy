/**
 A whole forwarded request: cache hit, replay of a stored prefix, and the attempt loop with its
 progress-based budget, while other requests use the same cache.
 */
module ForwardRequest {
  import opened Basics
  import opened HeaderText
  import opened AssetCache
  import opened ForwardModel
  import opened ForwardSteps
  import opened ForwardRuns
  import opened Heads
  import opened Forward
  import opened Splicing
  import opened SplicingRuns

  datatype Method = GET | HEAD | OTHER

  /** A request as the engine sees it; `immutable` tells whether the path names a content-hashed asset. */
  datatype Request = Request(verb: Method, hasRange: bool, host: string, path: string, immutable: bool)

  /** Safe to replay: idempotent and without a Range of its own. */
  predicate CanRetry(req: Request) {
    (req.verb == GET || req.verb == HEAD) && !req.hasRange
  }

  function CacheKey(req: Request): string {
    if req.verb == GET && CanRetry(req) && req.immutable then req.host + req.path else ""
  }

  // ---------------------------------------------------------------- the cache and other requests

  /** Every stored prefix has a known total and goes to a connection that is kept. */
  ghost predicate SettledCache(s: CacheState) {
    forall k :: k in s.partials ==> s.partials[k].total >= 0 && !s.partials[k].closeAfter
  }

  lemma SettledCacheStep(budget: nat, s: CacheState, op: CacheOp, s': CacheState)
    requires SettledCache(s) && SettledStore(Some(op)) && CacheStep(budget, s, op, s')
    ensures SettledCache(s')
  {
  }

  /** The length is known wherever a head is out, in the progress and in what is stored. */
  ghost predicate Calm(p: Progress, s: CacheState) {
    Settled(p) && SettledCache(s)
  }

  ghost predicate SettledOps(ops: seq<CacheOp>) {
    forall i :: 0 <= i < |ops| ==> SettledStore(Some(ops[i]))
  }

  /**
   What other requests do to the cache between two attempts; a sound cache stays sound if their stores
   are, and a settled one settled.
   */
  method OtherRequests(cache: AssetCache, ops: seq<CacheOp>, ghost w: World)
    requires cache.Valid()
    modifies cache
    ensures cache.Valid()
    ensures Sound(w, old(cache.State())) && (forall i :: 0 <= i < |ops| ==> SoundOp(w, ops[i])) ==>
              Sound(w, cache.State())
    ensures SettledCache(old(cache.State())) && SettledOps(ops) ==> SettledCache(cache.State())
  {
    hide SettledCache, SettledStore;
    ghost var sound := Sound(w, cache.State()) && forall i :: 0 <= i < |ops| ==> SoundOp(w, ops[i]);
    ghost var settled := SettledCache(cache.State()) && SettledOps(ops);
    for i := 0 to |ops|
      invariant cache.Valid() && (sound ==> Sound(w, cache.State())) && (settled ==> SettledCache(cache.State()))
    {
      ghost var before := cache.State();
      match ops[i] {
        case Get(key) =>
          var _ := cache.Lookup(key);
        case Put(key, resp) =>
          cache.Store(key, resp);
        case PutPartial(key, prefix) =>
          cache.StorePartial(key, prefix);
      }
      if sound {
        SoundStep(w, cache.budget, before, ops[i], cache.State());
      }
      if settled {
        SettledCacheStep(cache.budget, before, ops[i], cache.State());
      }
    }
  }

  /** Replays a stored head and body. */
  method Replay(client: Client, head: string, body: Bytes) returns (sent: bool)
    requires client.ok && client.log == []
    modifies client`log, client`ok
    ensures client.ok == sent && Trace(client.log)
    ensures CutOff(Seen(client.log), Saying(head, body))
    ensures sent ==> Seen(client.log) == Saying(head, body)
  {
    sent := SendHead(client, head);
    if !sent {
      return;
    }
    assert [] + body == body;
    sent := SendBytes(client, body);
  }

  /** Serves the request from the cache exactly when the key is there. */
  method TryCache(client: Client, cache: AssetCache, key: string) returns (hit: Option<CachedResponse>, sent: bool)
    requires cache.Valid() && client.ok && client.log == []
    modifies client`log, client`ok, cache
    ensures cache.Valid() && Trace(client.log) && cache.State() == AfterGet(old(cache.State()), key)
    ensures hit.Some? <==> Listed(old(cache.order), key)
    ensures hit.None? ==> client.ok && client.log == [] && cache.State() == old(cache.State())
    ensures SettledCache(old(cache.State())) ==> SettledCache(cache.State())
    ensures hit.Some? ==>
              && Item(key, hit.value) in old(cache.order) && client.ok == sent
              && CutOff(Seen(client.log), Saying(hit.value.header, hit.value.body))
              && (sent ==> Seen(client.log) == Saying(hit.value.header, hit.value.body))
  {
    MapOfListed(cache.order, key);
    hit := cache.Lookup(key);
    if hit.None? {
      return hit, false;
    }
    sent := Replay(client, hit.value.header, hit.value.body);
  }

  /** What is stored of an interrupted transfer of the key. */
  function StoredOf(s: CacheState, key: string): Option<PartialAsset> {
    if key != "" && key in s.partials then Some(s.partials[key]) else None
  }

  /** The progress after a stored prefix was replayed. */
  function Resumed(key: string, pa: PartialAsset): Progress {
    Progress(true, |pa.body|, pa.total, pa.closeAfter, [], key, pa.header, pa.body)
  }

  /** Where the attempts start from, and what the client was told before them. */
  function StartOf(key: string, stored: Option<PartialAsset>): Progress {
    if stored.Some? then Resumed(key, stored.value) else Start(key)
  }

  function ToldOf(stored: Option<PartialAsset>): Told {
    if stored.Some? then Saying(stored.value.header, stored.value.body) else Silent
  }

  /** Replays a stored prefix to the client, so that the attempts continue from there. */
  method TryPartial(client: Client, cache: AssetCache, st: ForwardState) returns (hit: Option<PartialAsset>, sent: bool)
    requires client.ok && client.log == [] && st.View() == Start(st.cacheKey)
    modifies client`log, client`ok, st
    ensures Trace(client.log) && client.ok == sent
    ensures hit == StoredOf(cache.State(), old(st.cacheKey))
    ensures sent ==> st.View() == StartOf(old(st.cacheKey), hit) && Seen(client.log) == ToldOf(hit)
    ensures sent ==> InStep(client, st)
    ensures !sent ==> hit.Some? && CutOff(Seen(client.log), ToldOf(hit))
  {
    hit, sent := None, true;
    if st.cacheKey == "" {
      return;
    }
    hit := cache.LookupPartial(st.cacheKey);
    if hit.None? {
      return;
    }
    var pa := hit.value;
    sent := Replay(client, pa.header, pa.body);
    if !sent {
      return;
    }
    st.headerSent := true;
    st.header := pa.header;
    st.buf := pa.body;
    st.relayed := |pa.body|;
    st.total := pa.total;
    st.closeAfter := pa.closeAfter;
  }

  /** One error block, or as much of it as the connection took. */
  ghost predicate Failed502(log: Log) {
    log == [ErrorBlock(502)] || log == [Broken]
  }

  /** The client that never got a head gets an error block. */
  method ReportFailure(client: Client, headerSent: bool)
    requires Trace(client.log) && (!headerSent ==> client.log == [])
    modifies client`log, client`ok
    ensures Trace(client.log)
    ensures if headerSent then client.log == old(client.log) else Failed502(client.log)
  {
    if !headerSent {
      client.WriteError(502);
    }
  }

  /** Giving up: an error block if nothing was sent, and the prefix is kept for the next request. */
  method GiveUp(client: Client, cache: AssetCache, st: ForwardState)
    requires cache.Valid() && InStep(client, st)
    modifies client`log, client`ok, cache
    ensures cache.Valid() && Trace(client.log) && Kept(st.View(), cache.State())
    ensures var op := PartialOf(st.View());
            if op.Some? then CacheStep(cache.budget, old(cache.State()), op.value, cache.State())
            else cache.State() == old(cache.State())
    ensures if st.headerSent then client.log == old(client.log) else Failed502(client.log)
  {
    ReportFailure(client, st.headerSent);
    SavePartial(st, cache);
  }

  // ---------------------------------------------------------------- the attempts

  /** What is claimed of a request as long as the guard admits the answers it meets. */
  datatype Claim = Claim(w: World, whole: Bytes, tunnel: Upstream, head: bool)

  /** The answers are faithful, the cache is sound, and the guard admits every answer from attempt `i` on. */
  ghost predicate Holds(c: Claim, p: Progress, told: Told, o: Origin, s: CacheState, i: nat) {
    && Honest(c.w) && AllFaithful(c.tunnel, c.whole, c.head) && Sound(c.w, s)
    && Between(c.w, p, told, o, c.whole) && AllKin(c.tunnel, c.head, p, told, o, i)
  }

  /** The client has all of the representation, or of the one answer it got, under a head that announces its length. */
  ghost predicate Whole(c: Claim, told: Told, o: Origin) {
    var all := if o.Foreign? then Content(o.of.body) else c.whole;
    told.Saying? && told.body == all && (all != [] ==> c.w.says(told.head, |all|))
  }

  /** What is claimed at the end of a request. */
  ghost predicate Concluded(c: Claim, told: Told, o: Origin, s: CacheState, end: End, reusable: bool) {
    && Sound(c.w, s) && Spliced(o, told, c.whole)
    && (end == Finished ==> if reusable then Whole(c, told, o) else told.Saying? && |told.body| > BUFFERED_MAX)
  }

  /** One attempt under the guard. */
  lemma AttemptHolds(c: Claim, p: Progress, told: Told, o: Origin, s: CacheState, i: nat)
    requires Holds(c, p, told, o, s, i) && i < MAX_ATTEMPTS
    ensures var a := c.tunnel(i, NextRange(p));
            var step := Attempted(p, told, a, c.head);
            var o' := OriginAfter(o, a, step);
            && Good(c.w, o', step, c.whole)
            && (step.out == Retry ==> Between(c.w, step.next, step.told, o', c.whole) &&
                                      AllKin(c.tunnel, c.head, step.next, step.told, o', i + 1))
  {
    AllKinNext(c.tunnel, c.head, p, told, o, i);
    KinStep(c.w, p, told, o, c.tunnel(i, NextRange(p)), c.head, c.whole);
  }

  lemma AppliedSound(w: World, budget: nat, s: CacheState, op: Option<CacheOp>)
    requires Sound(w, s) && SoundStore(w, op)
    ensures Sound(w, Applied(budget, s, op))
  {
  }

  /** Saving what an interrupted attempt captured keeps the cache sound. */
  lemma SavedSound(w: World, budget: nat, s: CacheState, op: Option<CacheOp>, s': CacheState)
    requires Sound(w, s) && SoundStore(w, op)
    requires if op.Some? then CacheStep(budget, s, op.value, s') else s' == s
    ensures Sound(w, s')
  {
    if op.Some? {
      SoundStep(w, budget, s, op.value, s');
    }
  }

  /** Whatever part of a step is left by a client that breaks off may be saved, and what it got is spliced. */
  lemma BrokenOff(w: World, o: Origin, step: Step, whole: Bytes, v: Progress, seen: Told)
    requires Good(w, o, step, whole) && CutOff(seen, step.told)
    requires PartialOf(v).None? || Partway(v, step.base, step.brought)
    ensures SoundStore(w, PartialOf(v)) && Spliced(o, seen, whole)
  {
  }

  /** What a round of the loop, or the whole loop, comes to. */
  datatype Verdict = Verdict(end: End, reusable: bool)

  /** What is told when a request is given up: an error block unless its head is out. */
  function LastWord(s: Step): Told {
    if s.next.headerSent then s.told else Refused
  }

  /** How a round follows from its attempt: another round may come, or the request is over. */
  ghost predicate Rounded(step: Step, v: Verdict, canRetry: bool, seen: Told, now: Progress, ok: bool) {
    && (v.reusable ==> v.end == Finished)
    && match v.end
       case Exhausted => canRetry && ok && step.out == Retry && now == step.next && seen == step.told
       case Finished =>
         ok && step.out == Done && now == step.next && seen == step.told && v.reusable == !step.next.closeAfter
       case NotReplayed => !canRetry && step.out == Retry && now == step.next && seen == LastWord(step)
       case Aborted =>
         if ok then step.out == Abort && now == step.next && seen == step.told
         else CutOff(seen, step.told) && (PartialOf(now).None? || Partway(now, step.base, step.brought))
       case _ => false
  }

  /** What a round does to the cache: a finished one commits, an interrupted one keeps what was captured. */
  ghost predicate Stored(step: Step, end: End, now: Progress, budget: nat, before: CacheState, after: CacheState) {
    match end
    case Finished => after == Applied(budget, before, step.commit)
    case Aborted =>
      var op := PartialOf(now);
      && (if op.Some? then CacheStep(budget, before, op.value, after) else after == before)
      && Kept(now, after)
    case _ => after == before
  }

  /** A request that may not be replayed gets an error block unless its head is out. */
  method Refuse(client: Client, st: ForwardState)
    requires client.ok && InStep(client, st)
    modifies client`log, client`ok
    ensures Trace(client.log)
    ensures Seen(client.log) == if st.headerSent then old(Seen(client.log)) else Refused
  {
    ReportFailure(client, st.headerSent);
  }

  /** One round of the loop: an attempt, and what its outcome means for a request that may or may not be replayed. */
  method Round(client: Client, cache: AssetCache, st: ForwardState, ups: Tunnels, head: bool, canRetry: bool)
    returns (v: Verdict, ghost leg: Leg)
    requires cache.Valid() && client.ok && InStep(client, st)
    modifies client`log, client`ok, cache, st, ups
    ensures cache.Valid() && Trace(client.log)
    ensures leg == LegOf(ups.answers, head, old(st.View()), old(Seen(client.log)), |old(ups.tries)|)
    ensures ups.tries == old(ups.tries) + [TryOf(leg)]
    ensures Rounded(leg.step, v, canRetry, Seen(client.log), st.View(), client.ok)
    ensures Stored(leg.step, v.end, st.View(), cache.budget, old(cache.State()), cache.State())
    ensures v.end == Exhausted ==> InStep(client, st) && client.ok && !v.reusable
  {
    hide Attempted, HeadShown, Shows, PlainFields;
    ghost var p, told := st.View(), Seen(client.log);
    leg := LegOf(ups.answers, head, p, told, |ups.tries|);
    var out, answer := ForwardOnce(client, cache, st, ups, head);
    HeldGrows(p, told, answer, head);
    CommitsWhenDone(p, told, answer, head);
    match out {
      case Done =>
        v := Verdict(Finished, !st.closeAfter);
      case Abort =>
        SavePartial(st, cache);
        v := Verdict(Aborted, false);
      case Retry =>
        if canRetry {
          v := Verdict(Exhausted, false);
        } else {
          Refuse(client, st);
          v := Verdict(NotReplayed, false);
        }
    }
  }

  /** Whatever the upstream answers, a round leaves a settled state and a settled cache. */
  lemma RoundSettles(leg: Leg, head: bool, v: Verdict, canRetry: bool, seen: Told, now: Progress, ok: bool,
                     budget: nat, before: CacheState, after: CacheState)
    requires Tidy(leg.from, leg.told) && Settled(leg.from) && SettledCache(before)
    requires leg.step == Attempted(leg.from, leg.told, leg.answer, head)
    requires Rounded(leg.step, v, canRetry, seen, now, ok) && Stored(leg.step, v.end, now, budget, before, after)
    ensures SettledCache(after) && (v.end == Exhausted ==> Settled(now))
  {
    hide Attempted, Tidy, Settled, SettledCache;
    StaysSettled(leg.from, leg.told, leg.answer, head);
    match v.end {
      case Aborted =>
        SavedSettled(budget, before, PartialOf(now), after);
      case Finished =>
        CommitSettled(budget, before, leg.step.commit);
      case _ =>
    }
  }

  lemma SavedSettled(budget: nat, s: CacheState, op: Option<CacheOp>, s': CacheState)
    requires SettledCache(s) && SettledStore(op)
    requires if op.Some? then CacheStep(budget, s, op.value, s') else s' == s
    ensures SettledCache(s')
  {
  }

  lemma CommitSettled(budget: nat, s: CacheState, op: Option<CacheOp>)
    requires SettledCache(s)
    ensures SettledCache(Applied(budget, s, op))
  {
  }

  lemma TidySettled(p: Progress, told: Told)
    requires Tidy(p, told) && Settled(p)
    ensures SettledStore(PartialOf(p))
  {
  }

  /** A round under the guard: the claim goes on, or the request is concluded. */
  lemma RoundClaims(c: Claim, o: Origin, i: nat, leg: Leg, v: Verdict, canRetry: bool, seen: Told, now: Progress,
                    ok: bool, budget: nat, before: CacheState, after: CacheState)
    requires Holds(c, leg.from, leg.told, o, before, i) && i < MAX_ATTEMPTS
    requires leg == LegOf(c.tunnel, c.head, leg.from, leg.told, i)
    requires Rounded(leg.step, v, canRetry, seen, now, ok) && Stored(leg.step, v.end, now, budget, before, after)
    ensures var o' := OriginAfter(o, leg.answer, leg.step);
            if v.end == Exhausted then Holds(c, now, seen, o', after, i + 1)
            else Concluded(c, seen, o', after, v.end, v.reusable)
  {
    AttemptHolds(c, leg.from, leg.told, o, before, i);
    var o' := OriginAfter(o, leg.answer, leg.step);
    match v.end {
      case Finished =>
        AppliedSound(c.w, budget, before, leg.step.commit);
      case Aborted =>
        if ok {
          BrokenOffNot(c.w, o', leg.step, c.whole, seen);
        } else {
          BrokenOff(c.w, o', leg.step, c.whole, now, seen);
        }
        SavedSound(c.w, budget, before, PartialOf(now), after);
      case _ =>
    }
  }

  lemma BrokenOffNot(w: World, o: Origin, step: Step, whole: Bytes, seen: Told)
    requires Good(w, o, step, whole) && CutOff(seen, step.told)
    ensures SoundStore(w, PartialOf(step.next)) && Spliced(o, seen, whole)
  {
  }

  /** Other origins than the representation are answers the tunnel gave, of another status than 200. */
  ghost predicate Given(o: Origin, tunnel: Upstream) {
    o.Foreign? ==> o.of.status != 200 && exists i: nat, offset: Option<nat> :: tunnel(i, offset) == Answered(o.of)
  }

  /** The claim does not depend on what the cache holds beyond its being sound. */
  lemma HoldsWithCache(c: Claim, p: Progress, told: Told, o: Origin, s: CacheState, s': CacheState, i: nat)
    requires Holds(c, p, told, o, s, i)
    ensures Sound(c.w, s) && (Sound(c.w, s') ==> Holds(c, p, told, o, s', i))
  {
  }

  /** The last attempt's commit was made, to a cache that others used before. */
  ghost predicate Commits(legs: seq<Leg>, budget: nat, after: CacheState) {
    && legs != []
    && var op := legs[|legs| - 1].step.commit;
       exists before :: CommitsTo(budget, before, op, after)
  }

  ghost predicate CommitsTo(budget: nat, before: CacheState, op: Option<CacheOp>, after: CacheState) {
    after == Applied(budget, before, op)
  }

  lemma CommitsLast(legs: seq<Leg>, leg: Leg, budget: nat, after: CacheState)
    requires Commits([leg], budget, after)
    ensures Commits(legs + [leg], budget, after)
  {
  }

  /** One turn of the loop: what others do to the cache, a round, and its account. */
  method Turn(
    client: Client, cache: AssetCache, st: ForwardState, ups: Tunnels, head: bool, canRetry: bool,
    others: seq<CacheOp>, ghost c: Claim, ghost o0: Origin, ghost kin: bool)
    returns (v: Verdict, ghost leg: Leg, ghost o: Origin)
    requires cache.Valid() && client.ok && InStep(client, st) && |ups.tries| < MAX_ATTEMPTS
    requires c.tunnel == ups.answers && c.head == head && Given(o0, ups.answers)
    requires kin ==> Holds(c, st.View(), Seen(client.log), o0, cache.State(), |ups.tries|)
    requires kin ==> forall j :: 0 <= j < |others| ==> SoundOp(c.w, others[j])
    modifies client`log, client`ok, cache, st, ups
    ensures cache.Valid() && Trace(client.log) && Given(o, ups.answers)
    ensures leg == LegOf(ups.answers, head, old(st.View()), old(Seen(client.log)), |old(ups.tries)|)
    ensures ups.tries == old(ups.tries) + [TryOf(leg)]
    ensures Rounded(leg.step, v, canRetry, Seen(client.log), st.View(), client.ok)
    ensures v.end == Exhausted ==> InStep(client, st) && client.ok && !v.reusable
    ensures v.end == Aborted ==> Kept(st.View(), cache.State())
    ensures v.end == Finished ==> Commits([leg], cache.budget, cache.State())
    ensures Calm(old(st.View()), old(cache.State())) && SettledOps(others) ==>
              if v.end == Exhausted then Calm(st.View(), cache.State()) else SettledCache(cache.State())
    ensures kin && v.end == Exhausted ==> Holds(c, st.View(), Seen(client.log), o, cache.State(), |ups.tries|)
    ensures kin && v.end != Exhausted ==> Concluded(c, Seen(client.log), o, cache.State(), v.end, v.reusable)
  {
    hide Holds, Concluded, Attempted, Rounded, CacheStep, Applied, Tidy, Sound, Kept, SettledCache, SettledOps;
    ghost var p, told, s, i := st.View(), Seen(client.log), cache.State(), |ups.tries|;
    if kin { HoldsWithCache(c, p, told, o0, s, s, i); }
    OtherRequests(cache, others, c.w);
    ghost var before := cache.State();
    if kin { HoldsWithCache(c, p, told, o0, s, before, i); }
    ghost var calm := Calm(p, before);
    v, leg := Round(client, cache, st, ups, head, canRetry);
    if calm {
      RoundSettles(leg, head, v, canRetry, Seen(client.log), st.View(), client.ok, cache.budget, before, cache.State());
    }
    if kin {
      RoundClaims(c, o0, i, leg, v, canRetry, Seen(client.log), st.View(), client.ok,
                  cache.budget, before, cache.State());
    }
    assert v.end == Finished ==> CommitsTo(cache.budget, before, leg.step.commit, cache.State());
    o := OriginAfter(o0, leg.answer, leg.step);
  }

  /** How far a request came on its course: to its end, or to an attempt during which the client broke off. */
  ghost predicate Along(c: Course, tries: seq<Try>, v: Verdict, canRetry: bool, seen: Told, now: Progress, ok: bool) {
    && 1 <= |tries| <= |c.legs| && tries == TriesOf(c.legs[..|tries|])
    && Rounded(c.legs[|tries| - 1].step, v, canRetry, seen, now, ok)
    && (v.end != Aborted || ok ==> |tries| == |c.legs| && v.end == c.end)
  }

  /** Another attempt is made on the course. */
  lemma CourseGoesOn(legs: seq<Leg>, leg: Leg, rest: Course)
    ensures After(legs, After([leg], rest)) == After(legs + [leg], rest)
    ensures TriesOf(legs + [leg]) == TriesOf(legs) + [TryOf(leg)]
  {
  }

  lemma AlongAt(legs: seq<Leg>, leg: Leg, c: Course, v: Verdict, canRetry: bool, seen: Told, now: Progress, ok: bool)
    requires legs + [leg] <= c.legs && Rounded(leg.step, v, canRetry, seen, now, ok)
    requires v.end != Aborted || ok ==> c == Course(legs + [leg], v.end)
    ensures Along(c, TriesOf(legs) + [TryOf(leg)], v, canRetry, seen, now, ok)
  {
    hide Rounded;
    CourseGoesOn(legs, leg, c);
    assert c.legs[..|legs| + 1] == legs + [leg] && c.legs[|legs|] == leg;
  }

  /** The attempts so far are `legs`, and what is left of the course starts from the present state. */
  ghost predicate OnCourse(c: Course, legs: seq<Leg>, tunnel: Upstream, head: bool, canRetry: bool,
                           tries: seq<Try>, idle: nat, now: Progress, seen: Told) {
    && tries == TriesOf(legs)
    && c == After(legs, CourseFrom(tunnel, head, canRetry, now, seen, |tries|, idle))
    && (legs != [] ==> Rounded(legs[|legs| - 1].step, Verdict(Exhausted, false), canRetry, seen, now, true))
  }

  /** How the course goes on after a round. */
  lemma RoundOnCourse(c: Course, legs: seq<Leg>, leg: Leg, tunnel: Upstream, head: bool, canRetry: bool,
                      tries: seq<Try>, idle: nat, v: Verdict, seen: Told, now: Progress, ok: bool)
    requires OnCourse(c, legs, tunnel, head, canRetry, tries, idle, leg.from, leg.told) && |tries| < MAX_ATTEMPTS
    requires leg == LegOf(tunnel, head, leg.from, leg.told, |tries|)
    requires Rounded(leg.step, v, canRetry, seen, now, ok)
    ensures var count := Counted(Held(leg.from), Held(now), idle);
            var more := tries + [TryOf(leg)];
            if v.end == Exhausted && count < RESUME_ATTEMPTS then
              OnCourse(c, legs + [leg], tunnel, head, canRetry, more, count, now, seen)
            else Along(c, more, v, canRetry, seen, now, ok)
    ensures v.end == Finished ==> c.legs == legs + [leg]
  {
    hide CourseFrom, LegOf, Held;
    CourseNext(tunnel, head, canRetry, leg.from, leg.told, |tries|, idle);
    if GoesOn(canRetry, leg, idle) {
      CourseGoesOn(legs, leg, RestOf(tunnel, head, canRetry, leg, |tries|, idle));
    }
    if !(v.end == Exhausted && IdleAfter(leg, idle) < RESUME_ATTEMPTS) {
      AlongAt(legs, leg, c, v, canRetry, seen, now, ok);
    } else {
      CourseGoesOn(legs, leg, c);
    }
  }

  lemma NoTries(tunnel: Upstream, head: bool, canRetry: bool, p: Progress, told: Told)
    ensures OnCourse(CourseOf(tunnel, head, canRetry, p, told), [], tunnel, head, canRetry, [], 0, p, told)
  {
  }

  /** All attempts are used. */
  lemma AllTried(c: Course, legs: seq<Leg>, tunnel: Upstream, head: bool, canRetry: bool,
                 tries: seq<Try>, idle: nat, now: Progress, seen: Told)
    requires OnCourse(c, legs, tunnel, head, canRetry, tries, idle, now, seen) && |tries| >= MAX_ATTEMPTS
    ensures Along(c, tries, Verdict(Exhausted, false), canRetry, seen, now, true)
  {
    hide Rounded;
    CourseOver(tunnel, head, canRetry, now, seen, |tries|, idle);
    var n := |legs| - 1;
    assert legs[..n] + [legs[n]] == legs && legs + [] == legs;
    AlongAt(legs[..n], legs[n], c, Verdict(Exhausted, false), canRetry, seen, now, true);
    CourseGoesOn(legs[..n], legs[n], c);
  }

  /** One turn of the loop with the count of idle attempts: the loop goes on, or the attempts are over. */
  method CountedTurn(
    client: Client, cache: AssetCache, st: ForwardState, ups: Tunnels, head: bool, canRetry: bool, idle: nat,
    others: seq<CacheOp>, ghost course: Course, ghost legs: seq<Leg>, ghost c: Claim, ghost o0: Origin, ghost kin: bool)
    returns (v: Verdict, count: nat, ghost more: seq<Leg>, ghost o: Origin)
    requires cache.Valid() && client.ok && InStep(client, st) && |ups.tries| < MAX_ATTEMPTS
    requires c.tunnel == ups.answers && c.head == head && Given(o0, ups.answers)
    requires OnCourse(course, legs, ups.answers, head, canRetry, ups.tries, idle, st.View(), Seen(client.log))
    requires kin ==> Holds(c, st.View(), Seen(client.log), o0, cache.State(), |ups.tries|)
    requires kin ==> forall j :: 0 <= j < |others| ==> SoundOp(c.w, others[j])
    modifies client`log, client`ok, cache, st, ups
    ensures cache.Valid() && Trace(client.log) && Given(o, ups.answers) && |ups.tries| == |old(ups.tries)| + 1
    ensures if v.end == Exhausted && count < RESUME_ATTEMPTS then
              OnCourse(course, more, ups.answers, head, canRetry, ups.tries, count, st.View(), Seen(client.log))
            else Along(course, ups.tries, v, canRetry, Seen(client.log), st.View(), client.ok)
    ensures v.end == Exhausted ==> InStep(client, st) && client.ok && !v.reusable
    ensures v.end == Aborted ==> Kept(st.View(), cache.State())
    ensures v.end == Finished ==> Commits(course.legs, cache.budget, cache.State())
    ensures Calm(old(st.View()), old(cache.State())) && SettledOps(others) ==>
              if v.end == Exhausted then Calm(st.View(), cache.State()) else SettledCache(cache.State())
    ensures kin && v.end == Exhausted ==> Holds(c, st.View(), Seen(client.log), o, cache.State(), |ups.tries|)
    ensures kin && v.end != Exhausted ==> Concluded(c, Seen(client.log), o, cache.State(), v.end, v.reusable)
  {
    hide Holds, Concluded, Given, Kept, Attempted, OnCourse, Along, Tidy, Commits, Calm, SettledCache, SettledOps,
      Held, Counted, Rounded;
    ghost var leg;
    var before := Held(st.View());
    ghost var tries := ups.tries;
    v, leg, o := Turn(client, cache, st, ups, head, canRetry, others, c, o0, kin);
    RoundOnCourse(course, legs, leg, ups.answers, head, canRetry, tries, idle, v,
                  Seen(client.log), st.View(), client.ok);
    if v.end == Finished { CommitsLast(legs, leg, cache.budget, cache.State()); }
    count, more := Counted(before, Held(st.View()), idle), legs + [leg];
  }

  /** The attempts themselves: the client, the progress and the upstream are taken along the course of the request. */
  method Attempts(client: Client, cache: AssetCache, st: ForwardState, ups: Tunnels, head: bool, canRetry: bool,
                  others: nat -> seq<CacheOp>, ghost c: Claim, ghost o0: Origin, ghost kin: bool)
    returns (v: Verdict, ghost o: Origin)
    requires c.tunnel == ups.answers && c.head == head && ups.tries == []
    requires cache.Valid() && client.ok && InStep(client, st) && Given(o0, ups.answers)
    requires kin ==> Holds(c, st.View(), Seen(client.log), o0, cache.State(), 0)
    requires kin ==> forall i, j :: 0 <= j < |others(i)| ==> SoundOp(c.w, others(i)[j])
    modifies client`log, client`ok, cache, st, ups
    ensures cache.Valid() && Trace(client.log) && Given(o, ups.answers)
    ensures Along(CourseOf(ups.answers, head, canRetry, old(st.View()), old(Seen(client.log))), ups.tries,
                  v, canRetry, Seen(client.log), st.View(), client.ok)
    ensures v.end == Exhausted ==> InStep(client, st) && client.ok
    ensures v.end == Aborted ==> Kept(st.View(), cache.State())
    ensures v.end == Finished ==>
              Commits(CourseOf(ups.answers, head, canRetry, old(st.View()), old(Seen(client.log))).legs,
                      cache.budget, cache.State())
    ensures Calm(old(st.View()), old(cache.State())) && (forall i :: SettledOps(others(i))) ==>
              if v.end == Exhausted then Calm(st.View(), cache.State()) else SettledCache(cache.State())
    ensures kin && v.end == Exhausted ==> Holds(c, st.View(), Seen(client.log), o, cache.State(), |ups.tries|)
    ensures kin && v.end != Exhausted ==> Concluded(c, Seen(client.log), o, cache.State(), v.end, v.reusable)
  {
    hide Holds, Concluded, Given, Kept, OnCourse, Along, CourseOf, Tidy, Commits, Calm, SettledCache, SettledOps;
    ghost var course := CourseOf(ups.answers, head, canRetry, st.View(), Seen(client.log));
    ghost var legs := [];
    ghost var calm := Calm(st.View(), cache.State()) && forall i :: SettledOps(others(i));
    var idle: nat := 0;
    v, o := Verdict(Exhausted, false), o0;
    NoTries(ups.answers, head, canRetry, st.View(), Seen(client.log));
    while |ups.tries| < MAX_ATTEMPTS
      invariant |ups.tries| <= MAX_ATTEMPTS && v == Verdict(Exhausted, false)
      invariant cache.Valid() && client.ok && InStep(client, st) && Given(o, ups.answers)
      invariant OnCourse(course, legs, ups.answers, head, canRetry, ups.tries, idle, st.View(), Seen(client.log))
      invariant kin ==> Holds(c, st.View(), Seen(client.log), o, cache.State(), |ups.tries|)
      invariant calm ==> Calm(st.View(), cache.State())
      decreases MAX_ATTEMPTS - |ups.tries|
    {
      v, idle, legs, o :=
        CountedTurn(client, cache, st, ups, head, canRetry, idle, others(|ups.tries|), course, legs, c, o, kin);
      if v.end != Exhausted || idle >= RESUME_ATTEMPTS {
        return;
      }
    }
    AllTried(course, legs, ups.answers, head, canRetry, ups.tries, idle, st.View(), Seen(client.log));
  }

  /** A request under the guard whose budget is spent. */
  lemma GivenUpConcluded(c: Claim, p: Progress, told: Told, o: Origin, before: CacheState, i: nat, seen: Told,
                         budget: nat, after: CacheState)
    requires Holds(c, p, told, o, before, i) && (seen == told || seen == Refused)
    requires var op := PartialOf(p);
             if op.Some? then CacheStep(budget, before, op.value, after) else after == before
    ensures Concluded(c, seen, o, after, Exhausted, false)
  {
    hide Between, Sound;
    HoldsWithCache(c, p, told, o, before, before, i);
    BetweenIsSafe(c.w, p, told, o, c.whole);
    SavedSound(c.w, budget, before, PartialOf(p), after);
  }

  /** Between attempts what the client has is spliced, and what would be saved is sound. */
  lemma BetweenIsSafe(w: World, p: Progress, told: Told, o: Origin, whole: Bytes)
    requires Between(w, p, told, o, whole)
    ensures Spliced(o, told, whole) && SoundStore(w, PartialOf(p))
  {
  }

  /**
   How a forwarded request ended: along its course, and when the budget was spent with an error block
   unless the head was out.
   */
  ghost predicate Concludes(
    c: Course, tries: seq<Try>, v: Verdict, canRetry: bool, seen: Told, now: Progress, ok: bool)
  {
    if v.end == Exhausted then
      && c.legs != [] && c.end == Exhausted && canRetry && !v.reusable && tries == TriesOf(c.legs)
      && var last := c.legs[|c.legs| - 1].step;
         last.out == Retry && now == last.next && seen == LastWord(last)
    else Along(c, tries, v, canRetry, seen, now, ok)
  }

  lemma AlongEnds(c: Course, tries: seq<Try>, v: Verdict, canRetry: bool, seen: Told, now: Progress, ok: bool)
    requires Along(c, tries, v, canRetry, seen, now, ok)
    ensures |tries| <= |c.legs| && (v.reusable ==> ok && v.end == Finished)
    ensures v.end in {Finished, Aborted, NotReplayed, Exhausted} && (v.end != Aborted ==> v.end == c.end)
    ensures v.end == Exhausted ==> seen == c.legs[|c.legs| - 1].step.told && !v.reusable
    ensures v.end == Exhausted ==> Concludes(c, tries, v, canRetry, LastWord(c.legs[|c.legs| - 1].step), now, ok)
    ensures v.end == Exhausted ==> now == c.legs[|c.legs| - 1].step.next
  {
    assert c.legs[..|c.legs|] == c.legs;
  }

  lemma ConcludesEnds(c: Course, tries: seq<Try>, v: Verdict, canRetry: bool, seen: Told, now: Progress, ok: bool)
    requires Concludes(c, tries, v, canRetry, seen, now, ok)
    ensures |tries| <= |c.legs| && (v.reusable ==> ok && v.end == Finished)
    ensures v.end in {Finished, Aborted, NotReplayed, Exhausted} && (v.end != Aborted ==> v.end == c.end)
    ensures v.end == Exhausted ==> |tries| == |c.legs|
  {
  }

  /** The attempt loop with what follows it: a spent budget is reported, and the prefix saved. */
  method AttemptLoop(client: Client, cache: AssetCache, st: ForwardState, ups: Tunnels, head: bool, canRetry: bool,
                     others: nat -> seq<CacheOp>, ghost c: Claim, ghost o0: Origin, ghost kin: bool)
    returns (v: Verdict, ghost o: Origin)
    requires c.tunnel == ups.answers && c.head == head && ups.tries == []
    requires cache.Valid() && client.ok && InStep(client, st) && Given(o0, ups.answers)
    requires kin ==> Holds(c, st.View(), Seen(client.log), o0, cache.State(), 0)
    requires kin ==> forall i, j :: 0 <= j < |others(i)| ==> SoundOp(c.w, others(i)[j])
    modifies client`log, client`ok, cache, st, ups
    ensures cache.Valid() && Trace(client.log) && Given(o, ups.answers)
    ensures Concludes(CourseOf(ups.answers, head, canRetry, old(st.View()), old(Seen(client.log))), ups.tries,
                      v, canRetry, Seen(client.log), st.View(), client.ok)
    ensures v.end == Exhausted || v.end == Aborted ==> Kept(st.View(), cache.State())
    ensures v.reusable ==> v.end == Finished && client.ok
    ensures v.end == Finished ==>
              Commits(CourseOf(ups.answers, head, canRetry, old(st.View()), old(Seen(client.log))).legs,
                      cache.budget, cache.State())
    ensures Calm(old(st.View()), old(cache.State())) && (forall i :: SettledOps(others(i))) ==>
              SettledCache(cache.State())
    ensures kin ==> Concluded(c, Seen(client.log), o, cache.State(), v.end, v.reusable)
  {
    hide CourseOf, Between, Kept, Along, Holds, Concluded, Commits, SettledCache, SettledOps, SettledStore;
    ghost var course := CourseOf(ups.answers, head, canRetry, st.View(), Seen(client.log));
    ghost var calm := Calm(st.View(), cache.State()) && forall i :: SettledOps(others(i));
    v, o := Attempts(client, cache, st, ups, head, canRetry, others, c, o0, kin);
    AlongEnds(course, ups.tries, v, canRetry, Seen(client.log), st.View(), client.ok);
    if v.end == Exhausted {
      ghost var p, before := st.View(), cache.State();
      ghost var told := Seen(client.log);
      GiveUp(client, cache, st);
      if calm {
        TidySettled(p, told);
        SavedSettled(cache.budget, before, PartialOf(p), cache.State());
      }
      if kin {
        GivenUpConcluded(c, p, told, o, before, |ups.tries|, Seen(client.log), cache.budget, cache.State());
      }
    }
  }

  // ---------------------------------------------------------------- the request

  /**
   One request with everything around it: the upstream it meets, what others do to the cache
   meanwhile, and its representation.
   */
  datatype Exchange = Exchange(req: Request, tunnel: Upstream, others: nat -> seq<CacheOp>, whole: Bytes)

  /** The origin is faithful, a cacheable request asks for the representation of its key, and the others are sound. */
  ghost predicate WellBehaved(x: Exchange, rep: string -> Bytes) {
    && (CacheKey(x.req) != "" ==> x.whole == rep(CacheKey(x.req)))
    && AllFaithful(x.tunnel, x.whole, x.req.verb == HEAD)
    && (forall i, j :: 0 <= j < |x.others(i)| ==> SoundOp(Literal(rep), x.others(i)[j]))
  }

  /** From a fresh start the guard admits every answer the request meets. */
  ghost predicate Guarded(x: Exchange) {
    AllKin(x.tunnel, x.req.verb == HEAD, Start(CacheKey(x.req)), Silent, Nothing, 0)
  }

  /** An answer of the tunnel, of another status than 200. */
  ghost predicate AnsweredWith(x: Exchange, r: Response) {
    r.status != 200 && exists i: nat, offset: Option<nat> :: x.tunnel(i, offset) == Answered(r)
  }

  /** The client has a prefix of the representation, or of one other answer under that answer's own head. */
  ghost predicate Partly(x: Exchange, told: Told) {
    told.Saying? ==>
      || told.body <= x.whole
      || exists r :: AnsweredWith(x, r) && told.head in HeadsOf(r) && told.body <= Content(r.body)
  }

  /**
   The client has all of the representation, or of one other answer, under a head that announces
   its length if there is any.
   */
  ghost predicate Served(x: Exchange, told: Told) {
    && told.Saying? && (told.body != [] ==> Announces(told.head, |told.body|))
    && (|| told.body == x.whole
        || exists r :: AnsweredWith(x, r) && told.head in HeadsOf(r) && told.body == Content(r.body))
  }

  lemma RefusedIsPartly(x: Exchange, told: Told)
    requires !told.Saying?
    ensures Partly(x, told)
  {
  }

  /** A client that breaks off while a stored prefix is replayed has a part of it. */
  lemma StoredIsPartly(x: Exchange, rep: string -> Bytes, s: CacheState, told: Told)
    requires WellBehaved(x, rep) && Sound(Literal(rep), s) && StoredOf(s, CacheKey(x.req)).Some?
    requires CutOff(told, ToldOf(StoredOf(s, CacheKey(x.req))))
    ensures Partly(x, told)
  {
  }

  /** The conclusion of a request in terms of the exchange. */
  lemma ConcludedIsPartly(
    x: Exchange, rep: string -> Bytes, told: Told, o: Origin, s: CacheState, end: End, reusable: bool)
    requires Given(o, x.tunnel)
    requires Concluded(Claim(Literal(rep), x.whole, x.tunnel, x.req.verb == HEAD), told, o, s, end, reusable)
    ensures Sound(Literal(rep), s) && Partly(x, told) && (reusable && end == Finished ==> Served(x, told))
    ensures end == Finished && !reusable ==> told.Saying? && |told.body| > BUFFERED_MAX
  {
  }

  /** A stored prefix is a state between attempts, and the guard admits whatever follows. */
  lemma ResumedHolds(c: Claim, key: string, pa: PartialAsset, s: CacheState)
    requires Honest(c.w) && AllFaithful(c.tunnel, c.whole, c.head) && Sound(c.w, s)
    requires key != "" && key in s.partials && pa == s.partials[key] && c.whole == c.w.rep(key)
    ensures Holds(c, Resumed(key, pa), Saying(pa.header, pa.body), Plain, s, 0)
  {
    ResumedIsKin(c.w, c.tunnel, c.head, Resumed(key, pa), Saying(pa.header, pa.body), c.whole, 0);
  }

  lemma StartHolds(c: Claim, key: string, s: CacheState)
    requires Honest(c.w) && AllFaithful(c.tunnel, c.whole, c.head) && Sound(c.w, s)
    requires (key != "" ==> c.whole == c.w.rep(key)) && AllKin(c.tunnel, c.head, Start(key), Silent, Nothing, 0)
    ensures Holds(c, Start(key), Silent, Nothing, s, 0)
  {
  }

  /** The attempts of a request that is not served from the cache, from a stored prefix if there is one. */
  function CourseOfRequest(x: Exchange, stored: Option<PartialAsset>): Course {
    CourseOf(x.tunnel, x.req.verb == HEAD, CanRetry(x.req), StartOf(CacheKey(x.req), stored), ToldOf(stored))
  }

  /**
   What came of a request: what the client saw and whether it still listens, the attempts made, the end,
   whether the connection is kept, and the progress at the end.
   */
  datatype Handling = Handling(log: Log, ok: bool, tries: seq<Try>, end: End, kept: bool, last: Progress)

  /** A request that is not served from the cache: the replay of a stored prefix breaks off, or its course is taken. */
  ghost predicate Forwards(x: Exchange, stored: Option<PartialAsset>, h: Handling) {
    if h.end == ClientGone then
      stored.Some? && h.tries == [] && !h.kept && !h.ok && CutOff(Seen(h.log), ToldOf(stored))
    else
      Concludes(CourseOfRequest(x, stored), h.tries, Verdict(h.end, h.kept), CanRetry(x.req), Seen(h.log), h.last, h.ok)
  }

  /** A request that is served from the cache: the stored head and body, or a part of them, and no attempt. */
  ghost predicate Replays(resp: CachedResponse, h: Handling) {
    && h.tries == [] && h.end == (if h.ok then Hit else ClientGone) && h.kept == (h.ok && !resp.close)
    && CutOff(Seen(h.log), Saying(resp.header, resp.body))
    && (h.ok ==> Seen(h.log) == Saying(resp.header, resp.body))
  }

  ghost predicate Cached(s: CacheState, x: Exchange) {
    CacheKey(x.req) != "" && Listed(s.order, CacheKey(x.req))
  }

  /** How a request is handled when the cache is in state `s`. */
  ghost predicate Handles(x: Exchange, s: CacheState, h: Handling) {
    if x.req.host == "" then
      h.end == BadRequest && h.tries == [] && !h.kept && (h.log == [ErrorBlock(400)] || h.log == [Broken])
    else if Cached(s, x) then exists resp :: Item(CacheKey(x.req), resp) in s.order && Replays(resp, h)
    else Forwards(x, StoredOf(s, CacheKey(x.req)), h)
  }

  lemma ReplayKeeps(x: Exchange, s: CacheState, h: Handling)
    requires x.req.host != "" && Cached(s, x) && Handles(x, s, h)
    ensures h.tries == [] && h.end in {Hit, ClientGone} && (h.kept ==> h.ok && h.end == Hit)
  {
  }

  /**
   Whatever the upstream, the client and other requests do: at most 64 attempts are made, one if the
   request may not be replayed and none if it is cached; an idempotent request is given up only when the
   budget is spent, and the progress by which it is measured starts with the stored prefix.
   */
  lemma HandledWithinBudget(x: Exchange, s: CacheState, h: Handling)
    requires Handles(x, s, h)
    ensures |h.tries| <= 64
    ensures x.req.host == "" || Cached(s, x) ==> h.tries == []
    ensures var stored := StoredOf(s, CacheKey(x.req));
            var progress := [if stored.Some? then |stored.value.body| else 0] + Gains(CourseOfRequest(x, stored).legs);
            && (forall i, j :: 0 <= i <= j < |progress| ==> progress[i] <= progress[j])
            && (forall i :: 0 <= i < |progress| - 9 ==> progress[i] < progress[i + 8])
            && (h.end == Exhausted ==>
                  |h.tries| == 64 || (|progress| > 8 && progress[|progress| - 9] == progress[|progress| - 1]))
    ensures x.req.verb == OTHER || x.req.hasRange ==> |h.tries| <= 1 && h.end != Exhausted
    ensures h.end == NotReplayed ==> x.req.verb == OTHER || x.req.hasRange
    ensures h.kept ==> h.ok && (h.end == Hit || h.end == Finished)
  {
    hide CourseOf, Concludes, Gains, WithinBudget, Replays, Spent;
    var stored := StoredOf(s, CacheKey(x.req));
    if x.req.host == "" {
    } else if Cached(s, x) {
      ReplayKeeps(x, s, h);
    } else {
      if h.end != ClientGone {
        ConcludesEnds(CourseOfRequest(x, stored), h.tries, Verdict(h.end, h.kept), CanRetry(x.req),
                      Seen(h.log), h.last, h.ok);
      }
    }
    BudgetKept(x.tunnel, x.req.verb == HEAD, CanRetry(x.req), StartOf(CacheKey(x.req), stored), ToldOf(stored));
    assert Held(StartOf(CacheKey(x.req), stored)) == if stored.Some? then |stored.value.body| else 0;
  }

  /** A host without a slash, and a path that begins with one. */
  predicate Separated(r: Request) {
    '/' !in r.host && r.path != "" && r.path[0] == '/'
  }

  /** Only a GET of an immutable path without a Range has a key, and requests share it only if they ask for the same. */
  lemma CacheKeyMeaning(a: Request, b: Request)
    ensures CacheKey(a) != "" ==> a.verb == GET && !a.hasRange && a.immutable && CacheKey(a) == a.host + a.path
    ensures a.verb == GET && !a.hasRange && a.immutable && a.host != "" ==> CacheKey(a) != ""
    ensures CacheKey(a) == CacheKey(b) != "" && Separated(a) && Separated(b) ==> a.host == b.host && a.path == b.path
  {
    if CacheKey(a) == CacheKey(b) != "" && Separated(a) && Separated(b) { HostEnds(a.host, a.path, b.host, b.path); }
  }

  lemma {:induction false} HostEnds(h: string, p: string, g: string, q: string)
    requires h + p == g + q && '/' !in h && '/' !in g && p != "" && p[0] == '/' && q != "" && q[0] == '/'
    ensures h == g && p == q
  {
    assert (h + p)[0] == (g + q)[0];
    if h != "" && g != "" {
      assert (h + p)[1..] == h[1..] + p && (g + q)[1..] == g[1..] + q;
      HostEnds(h[1..], p, g[1..], q);
    } else {
      assert h == g == "";
      assert h + p == p && g + q == q;
    }
  }

  /** What a request finds in the cache, commits to it or saves is about its own host and path, and only for a GET. */
  lemma HandledUnderItsKey(x: Exchange, s: CacheState, h: Handling)
    requires Handles(x, s, h) && x.req.host != ""
    ensures h.end == Hit ==>
              && x.req.verb == GET && !x.req.hasRange && x.req.immutable
              && exists resp :: Item(x.req.host + x.req.path, resp) in s.order && Replays(resp, h)
    ensures var legs := CourseOfRequest(x, StoredOf(s, CacheKey(x.req))).legs;
            forall k :: 0 <= k < |legs| && legs[k].step.commit.Some? ==>
              && x.req.verb == GET && !x.req.hasRange && x.req.immutable
              && legs[k].step.commit.value.Put? && legs[k].step.commit.value.key == x.req.host + x.req.path
  {
    hide CourseFrom, Concludes, Replays;
    CacheKeyMeaning(x.req, x.req);
    var stored := StoredOf(s, CacheKey(x.req));
    CourseKeepsKey(x.tunnel, x.req.verb == HEAD, CanRetry(x.req), StartOf(CacheKey(x.req), stored), ToldOf(stored),
                   0, 0, CacheKey(x.req));
    if h.end == Hit && !Cached(s, x) {
      ConcludesEnds(CourseOfRequest(x, stored), h.tries, Verdict(h.end, h.kept), CanRetry(x.req),
                    Seen(h.log), h.last, h.ok);
    }
  }

  /** The guard admits what a request meets: it is needed only where the attempts start afresh. */
  ghost predicate Admitted(x: Exchange, s: CacheState) {
    Cached(s, x) || StoredOf(s, CacheKey(x.req)).Some? || Guarded(x)
  }

  lemma StartSettled(s: CacheState, key: string)
    ensures SettledCache(s) ==> Settled(StartOf(key, StoredOf(s, key)))
  {
  }

  /**
   What a request comes to when it does not end with the cache: the attempts, from a stored prefix
   if there is one.
   */
  method FromUpstream(
    client: Client, cache: AssetCache, x: Exchange, ups: Tunnels, ghost rep: string -> Bytes, ghost kin: bool)
    returns (end: End, reusable: bool, ghost last: Progress)
    requires cache.Valid() && client.ok && client.log == [] && ups.answers == x.tunnel && ups.tries == []
    requires kin ==> WellBehaved(x, rep) && Sound(Literal(rep), cache.State())
    requires kin ==> StoredOf(cache.State(), CacheKey(x.req)).Some? || Guarded(x)
    modifies client`log, client`ok, cache, ups
    ensures cache.Valid() && Trace(client.log)
    ensures Forwards(x, StoredOf(old(cache.State()), CacheKey(x.req)),
                     Handling(client.log, client.ok, ups.tries, end, reusable, last))
    ensures end == Exhausted || end == Aborted ==> Kept(last, cache.State())
    ensures end == Finished ==>
              Commits(CourseOfRequest(x, StoredOf(old(cache.State()), CacheKey(x.req))).legs,
                      cache.budget, cache.State())
    ensures SettledCache(old(cache.State())) && (forall i :: SettledOps(x.others(i))) ==> SettledCache(cache.State())
    ensures kin ==> Sound(Literal(rep), cache.State()) && Partly(x, Seen(client.log))
    ensures kin && end == Finished ==>
              if reusable then Served(x, Seen(client.log)) else |Delivered(client.log)| > 8 * 1024 * 1024
    ensures kin && reusable ==> end == Finished
  {
    hide Between, Kept, CourseOf, Concludes, Holds, Concluded, Sound, Tidy, Partly, Served, AllFaithful, CutOff,
      Commits, SettledCache, SettledOps;
    var head := x.req.verb == HEAD;
    ghost var c := Claim(Literal(rep), x.whole, x.tunnel, head);
    var st := new ForwardState(CacheKey(x.req));
    var hit, sent := TryPartial(client, cache, st);
    if !sent {
      if kin { StoredIsPartly(x, rep, cache.State(), Seen(client.log)); }
      return ClientGone, false, st.View();
    }
    ghost var o := if hit.Some? then Plain else Nothing;
    StartSettled(cache.State(), CacheKey(x.req));
    if kin {
      if hit.Some? {
        ResumedHolds(c, CacheKey(x.req), hit.value, cache.State());
      } else {
        StartHolds(c, CacheKey(x.req), cache.State());
      }
    }
    var v;
    v, o := AttemptLoop(client, cache, st, ups, head, CanRetry(x.req), x.others, c, o, kin);
    ConcludesEnds(CourseOfRequest(x, hit), ups.tries, v, CanRetry(x.req), Seen(client.log), st.View(), client.ok);
    if kin {
      ConcludedIsPartly(x, rep, Seen(client.log), o, cache.State(), v.end, v.reusable);
    }
    end, reusable, last := v.end, v.reusable, st.View();
  }

  /** A cached response is the whole representation, and stays so while others are served. */
  lemma HitIsWhole(w: World, s: CacheState, key: string, resp: CachedResponse)
    requires Sound(w, s) && Item(key, resp) in s.order
    ensures SoundResponse(w, w.rep(key), resp) && Sound(w, AfterGet(s, key))
  {
    SoundStep(w, 0, s, Get(key), AfterGet(s, key));
  }

  /** Serving a cached response. */
  method FromCache(
    client: Client, cache: AssetCache, x: Exchange, key: string, ghost rep: string -> Bytes, ghost kin: bool)
    returns (hit: Option<CachedResponse>, end: End, reusable: bool)
    requires cache.Valid() && client.ok && client.log == [] && key == CacheKey(x.req) != ""
    requires kin ==> WellBehaved(x, rep) && Sound(Literal(rep), cache.State())
    modifies client`log, client`ok, cache
    ensures cache.Valid() && Trace(client.log)
    ensures hit.Some? <==> Listed(old(cache.order), key)
    ensures hit.None? ==> client.ok && client.log == [] && cache.State() == old(cache.State())
    ensures hit.Some? ==>
              && Item(key, hit.value) in old(cache.order)
              && Replays(hit.value, Handling(client.log, client.ok, [], end, reusable, Start(key)))
    ensures SettledCache(old(cache.State())) ==> SettledCache(cache.State())
    ensures hit.Some? && kin ==> Sound(Literal(rep), cache.State()) && Partly(x, Seen(client.log))
    ensures hit.Some? && kin && end == Hit ==> reusable && Served(x, Seen(client.log))
  {
    ghost var before := cache.State();
    var sent;
    hit, sent := TryCache(client, cache, key);
    if hit.None? {
      return None, Hit, false;
    }
    if kin {
      HitIsWhole(Literal(rep), before, key, hit.value);
    }
    end, reusable := if sent then Hit else ClientGone, sent && !hit.value.close;
  }

  /**
   One forwarded request. Whatever the origin sends and whatever other requests do, the client sees
   nothing, one error block, or one head and then only body bytes, and the attempts made are those of
   the request's course. With a faithful origin, sound others and a sound cache, and as long as the
   guard admits the answers, that body is a prefix of the representation or of one other answer under
   its own head; the connection is reported reusable only after all of it, with its length announced;
   and the cache stays sound.
   */
  method HandleForward(client: Client, cache: AssetCache, x: Exchange, ups: Tunnels, ghost rep: string -> Bytes)
    returns (reusable: bool, end: End, ghost last: Progress)
    requires cache.Valid() && client.ok && client.log == [] && ups.answers == x.tunnel && ups.tries == []
    modifies client`log, client`ok, cache, ups
    ensures cache.Valid() && Trace(client.log)
    ensures Handles(x, old(cache.State()), Handling(client.log, client.ok, ups.tries, end, reusable, last))
    ensures |ups.tries| <= 64
    ensures x.req.verb == OTHER || x.req.hasRange ==> |ups.tries| <= 1 && end != Exhausted
    ensures end == NotReplayed ==> x.req.verb == OTHER || x.req.hasRange
    ensures end == Exhausted || end == Aborted ==> Kept(last, cache.State())
    ensures end == Finished ==>
              Commits(CourseOfRequest(x, StoredOf(old(cache.State()), CacheKey(x.req))).legs,
                      cache.budget, cache.State())
    ensures SettledCache(old(cache.State())) && (forall i :: SettledOps(x.others(i))) ==> SettledCache(cache.State())
    ensures WellBehaved(x, rep) && Admitted(x, old(cache.State())) && Sound(Literal(rep), old(cache.State())) ==>
              && Sound(Literal(rep), cache.State()) && Partly(x, Seen(client.log))
              && (reusable ==> Served(x, Seen(client.log)))
              && (end == Finished ==> reusable || |Delivered(client.log)| > 8 * 1024 * 1024)
  {
    hide Concludes, Served, Partly, Sound, WellBehaved, Guarded, Kept, Commits,
      SettledCache, SettledOps, Replays;
    ghost var s := cache.State();
    ghost var kin := WellBehaved(x, rep) && Admitted(x, s) && Sound(Literal(rep), s);
    last := Start(CacheKey(x.req));
    if x.req.host == "" {
      client.WriteError(400);
      RefusedIsPartly(x, Seen(client.log));
      return false, BadRequest, last;
    }
    var key := CacheKey(x.req);
    if key != "" {
      var hit;
      hit, end, reusable := FromCache(client, cache, x, key, rep, kin);
      if hit.Some? {
        return;
      }
    }
    end, reusable, last := FromUpstream(client, cache, x, ups, rep, kin);
    HandledWithinBudget(x, s, Handling(client.log, client.ok, ups.tries, end, reusable, last));
  }

  /**
   The responses of a connection so far: all complete and framed, except the last one when the
   connection is no longer `open`.
   */
  ghost predicate Session(logs: seq<Log>, requests: seq<Exchange>, open: bool) {
    && |logs| <= |requests|
    && (forall i :: 0 <= i < |logs| ==> Partly(requests[i], Seen(logs[i])))
    && (forall i :: 0 <= i < |logs| - (if open then 0 else 1) ==> Served(requests[i], Seen(logs[i])))
  }

  lemma SessionGrows(logs: seq<Log>, requests: seq<Exchange>, log: Log, reusable: bool)
    requires Session(logs, requests, true) && |logs| < |requests|
    requires Partly(requests[|logs|], Seen(log)) && (reusable ==> Served(requests[|logs|], Seen(log)))
    ensures Session(logs + [log], requests, reusable)
  {
  }

  /** Every request of a connection meets a faithful origin, and answers the guard admits. */
  ghost predicate AllWellBehaved(requests: seq<Exchange>, rep: string -> Bytes) {
    forall i :: 0 <= i < |requests| ==> WellBehaved(requests[i], rep) && Guarded(requests[i])
  }

  /** Other requests store settled prefixes only. */
  ghost predicate AllSettled(requests: seq<Exchange>) {
    forall k, i :: 0 <= k < |requests| ==> SettledOps(requests[k].others(i))
  }

  lemma SettledAt(requests: seq<Exchange>, k: nat)
    requires AllSettled(requests) && k < |requests|
    ensures forall i :: SettledOps(requests[k].others(i))
  {
  }

  /** What was written is what handling the request comes to, with the cache in state `s`. */
  ghost predicate Answers(x: Exchange, s: CacheState, log: Log, kept: bool) {
    Trace(log) && exists h: Handling :: Handles(x, s, h) && h.log == log && h.kept == kept
  }

  /** Each request got its answer, and the connection was kept after all of them but perhaps the last. */
  ghost predicate AllAnswered(requests: seq<Exchange>, states: seq<CacheState>, logs: seq<Log>, open: bool) {
    && |logs| <= |requests| && |states| == |logs| + 1
    && (forall i :: 0 <= i < |logs| ==> Answers(requests[i], states[i], logs[i], i < |logs| - 1 || open))
  }

  lemma HandledAnswers(x: Exchange, s: CacheState, h: Handling)
    requires Handles(x, s, h) && Trace(h.log)
    ensures Answers(x, s, h.log, h.kept)
  {
  }

  lemma AnsweredNext(
    requests: seq<Exchange>, states: seq<CacheState>, logs: seq<Log>, log: Log, kept: bool, s': CacheState)
    requires AllAnswered(requests, states, logs, true) && |logs| < |requests|
    requires Answers(requests[|logs|], states[|logs|], log, kept)
    ensures AllAnswered(requests, states + [s'], logs + [log], kept)
  {
    hide Answers;
  }

  /** One request of a connection, with an upstream of its own. */
  method ServeNext(client: Client, cache: AssetCache, x: Exchange, ghost rep: string -> Bytes)
    returns (open: bool, ghost log: Log)
    requires cache.Valid() && client.ok && client.log == []
    modifies client, cache
    ensures cache.Valid() && client.log == [] && client.past == old(client.past) + [log] && (open ==> client.ok)
    ensures Answers(x, old(cache.State()), log, open)
    ensures WellBehaved(x, rep) && Guarded(x) && Sound(Literal(rep), old(cache.State())) ==>
              Sound(Literal(rep), cache.State()) && Partly(x, Seen(log)) && (open ==> Served(x, Seen(log)))
    ensures SettledCache(old(cache.State())) && (forall i :: SettledOps(x.others(i))) ==> SettledCache(cache.State())
  {
    hide Handles, Served, Partly, Sound, WellBehaved, Guarded, SettledCache, SettledOps, Answers, Gains, WithinBudget,
      Spent, Kept, Commits;
    ghost var s := cache.State();
    var ups := new Tunnels(x.tunnel);
    var end;
    ghost var last;
    open, end, last := HandleForward(client, cache, x, ups, rep);
    log := client.log;
    ghost var h := Handling(log, client.ok, ups.tries, end, open, last);
    HandledWithinBudget(x, s, h);
    HandledAnswers(x, s, h);
    client.EndResponse();
  }

  /**
   A kept-alive connection: requests are served one after the other, each with what handling it comes
   to, until all are served or one does not leave the connection reusable. Under the guard every
   response but the last is complete and framed, and the cache is sound after all of them.
   */
  method HandleHTTP(client: Client, cache: AssetCache, requests: seq<Exchange>, ghost rep: string -> Bytes)
    returns (open: bool, ghost states: seq<CacheState>)
    requires cache.Valid() && client.ok && client.log == [] && client.past == []
    modifies client, cache
    ensures cache.Valid() && client.log == []
    ensures AllAnswered(requests, states, client.past, open) && (open ==> |client.past| == |requests|)
    ensures states[0] == old(cache.State()) && states[|states| - 1] == cache.State()
    ensures AllWellBehaved(requests, rep) && Sound(Literal(rep), old(cache.State())) ==>
              Sound(Literal(rep), cache.State()) && Session(client.past, requests, open)
    ensures SettledCache(old(cache.State())) && AllSettled(requests) ==> SettledCache(cache.State())
  {
    hide Served, Partly, Sound, WellBehaved, Guarded, SettledCache, SettledOps, AllSettled, Answers;
    ghost var kin := AllWellBehaved(requests, rep) && Sound(Literal(rep), cache.State());
    ghost var settled := SettledCache(cache.State()) && AllSettled(requests);
    open, states := true, [cache.State()];
    while |client.past| < |requests| && open
      invariant cache.Valid() && client.log == [] && (open ==> client.ok)
      invariant AllAnswered(requests, states, client.past, open)
      invariant states[0] == old(cache.State()) && states[|states| - 1] == cache.State()
      invariant kin ==> Sound(Literal(rep), cache.State()) && Session(client.past, requests, open)
      invariant settled ==> SettledCache(cache.State())
      decreases |requests| - |client.past|
    {
      ghost var log;
      ghost var logs := client.past;
      if settled { SettledAt(requests, |logs|); }
      open, log := ServeNext(client, cache, requests[|client.past|], rep);
      AnsweredNext(requests, states, logs, log, open, cache.State());
      states := states + [cache.State()];
      if kin { SessionGrows(logs, requests, log, open); }
    }
  }
}
