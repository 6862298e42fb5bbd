/**
 When the bytes the client gets, and the bodies the cache gets, are those of one answer. The engine
 never looks at the status of an answer that arrives while it holds something of an earlier one; what
 that costs, and the exact condition under which it costs nothing, is stated here.
 */
module Splicing {
  import opened Basics
  import opened HeaderText
  import opened AssetCache
  import opened ForwardModel
  import opened ForwardSteps
  import opened Forward

  /** Where what is held comes from: nowhere, the representation, or one answer of another status. */
  datatype Origin = Nothing | Plain | Foreign(of: Response)

  /**
   Streaming the representation: the client has a prefix under a head that announces its length,
   and that prefix is what is captured.
   */
  ghost predicate Streaming(w: World, p: Progress, told: Told, whole: Bytes) {
    && p.headerSent && !p.closeAfter && p.pending == []
    && told.Saying? && told.body <= whole && |told.body| == p.relayed
    && p.total == |whole| && (whole != [] ==> w.says(told.head, |whole|))
    && (p.cacheKey != "" ==>
          whole == w.rep(p.cacheKey) && p.header == told.head && p.header != "" && p.buf == told.body)
  }

  ghost predicate Unsent(p: Progress, told: Told) {
    !p.headerSent && !p.closeAfter && told == Silent && p.relayed == 0 && p.header == "" && p.buf == []
  }

  /**
   The states between attempts. Streaming and buffering never mix; while something is held it is a
   prefix of the representation, or everything one answer of another status brought.
   */
  ghost predicate Between(w: World, p: Progress, told: Told, o: Origin, whole: Bytes) {
    && (p.cacheKey != "" ==> whole == w.rep(p.cacheKey))
    && match o
       case Nothing => Unsent(p, told) && p.pending == [] && p.total == -1
       case Plain =>
         if p.headerSent then Streaming(w, p, told, whole) && whole != []
         else
           && Unsent(p, told) && p.pending != [] && p.pending <= whole
           && p.total >= -1 && (p.total >= 0 ==> p.total == |whole|)
       case Foreign(of) =>
         var own := Content(of.body);
         if p.headerSent then
           && !p.closeAfter && p.pending == [] && p.cacheKey == "" && |own| == p.relayed
           && told == Saying(ForwardHeader(of, false), own)
           && p.total > 0 && p.total >= |own| && w.says(told.head, p.total)
         else Unsent(p, told) && p.pending == own && own != [] && p.total == -1
  }

  /** The origin of what a step leaves, if it leaves anything. */
  function Left(s: Step, o: Origin): Origin {
    if !s.next.headerSent && s.next.pending == [] then Nothing else o
  }

  function OriginAfter(o: Origin, a: Attempt, s: Step): Origin {
    if o != Nothing || !a.Answered? then o
    else Left(s, if a.resp.status == 200 then Plain else Foreign(a.resp))
  }

  /**
   The guard the engine lacks. An answer that was not asked for by Range may only continue the
   representation if it is a 200 or has no body; nothing may continue an answer of another status; and a
   206 that nobody asked for may not be buffered for the cache.
   */
  predicate Kin(p: Progress, o: Origin, resp: Response, head: bool) {
    match o
    case Nothing => !(resp.status == 206 && p.cacheKey != "" && AnnouncedTotal(resp, head) < 0)
    case Plain => NextRange(p).Some? || resp.status == 200 || Bodyless(head, resp.status)
    case Foreign(_) => !Accepts(p, resp) || (p.headerSent && (p.relayed >= p.total || Bodyless(head, resp.status)))
  }

  // ---------------------------------------------------------------- what an attempt must not spoil

  /** The heads under which an answer may be passed on: streamed, flushed, or buffered to its end. */
  function HeadsOf(r: Response): set<string> {
    {ForwardHeader(r, false), ForwardHeader(r, true), ReframedHeader(r, |Content(r.body)|)}
  }

  /** The client's body is a prefix of the representation, or of the answer whose head it got. */
  ghost predicate Spliced(o: Origin, told: Told, whole: Bytes) {
    told.Saying? ==>
      match o
      case Nothing => false
      case Plain => told.body <= whole
      case Foreign(of) => told.head in HeadsOf(of) && told.body <= Content(of.body)
  }

  /** What is stored agrees with the representation of its key. */
  ghost predicate SoundStore(w: World, op: Option<CacheOp>) {
    op.Some? ==> SoundOp(w, op.value)
  }

  /** Done: the client has all of it under a head that announces its length, unless the body outgrew the buffer. */
  ghost predicate Finished(w: World, o: Origin, s: Step, whole: Bytes) {
    && s.told.Saying?
    && if s.next.closeAfter then |s.told.body| > 8 * 1024 * 1024
       else
         var all := if o.Foreign? then Content(o.of.body) else whole;
         s.told.body == all && (all != [] ==> w.says(s.told.head, |all|))
  }

  /** Everything that is claimed of one attempt. */
  ghost predicate Good(w: World, o: Origin, s: Step, whole: Bytes) {
    && Spliced(o, s.told, whole)
    && SoundStore(w, s.commit)
    && SoundStore(w, PartialOf(s.next))
    && (forall v :: Partway(v, s.base, s.brought) ==> SoundStore(w, PartialOf(v)))
    && (s.out == Retry ==> Between(w, s.next, s.told, o, whole))
    && (s.out == Done ==> Finished(w, o, s, whole))
  }

  // ---------------------------------------------------------------- heads

  lemma ForwardHeaderFacts(w: World, resp: Response, closeAfter: bool)
    requires Honest(w) && PlainFields(resp.fields)
    ensures resp.length.Some? ==> w.says(ForwardHeader(resp, closeAfter), resp.length.value)
  {
    FilterMembers(resp.fields, l => !HopByHop(l));
    ResponseHeadLines(resp.status, EndToEnd(resp.fields), resp.length, closeAfter);
  }

  lemma ReframedHeaderFacts(w: World, resp: Response, bodyLen: nat)
    requires Honest(w) && PlainFields(resp.fields)
    ensures w.says(ReframedHeader(resp, bodyLen), bodyLen)
  {
    FilterMembers(resp.fields, l => !HopByHop(l));
    FilterMembers(EndToEnd(resp.fields), l => !Named(l, "content-range:"));
    ResponseHeadLines(ReframedStatus(resp.status), WithoutContentRange(EndToEnd(resp.fields)), Some(bodyLen), false);
  }

  lemma CommittedIsSound(w: World, header: string, body: Bytes)
    requires Honest(w)
    ensures SoundResponse(w, body, Committed(header, body))
  {
    NormalizedLines(header, |body|);
  }

  // ---------------------------------------------------------------- streaming

  /** The body, after `skip` bytes, continues what is held. */
  ghost predicate Continues(b: Body, skip: nat, held: Bytes, whole: Bytes) {
    held <= whole && skip <= |held| && Content(b) <= whole[|held| - skip..]
  }

  /** What is new in a body that continues what is held continues it. */
  lemma FreshFits(b: Body, skip: nat, i: nat, held: Bytes, whole: Bytes)
    requires Continues(b, skip, held, whole)
    ensures held + Fresh(b, skip, i) <= whole
  {
    ConsumedPrefix(b, i);
    var seen, start := Consumed(b, i), |held| - skip;
    if skip <= |seen| {
      assert seen == whole[start..][..|seen|];
      assert seen[skip..] == whole[|held|..start + |seen|];
    }
  }

  /** How streaming of a known total ends. */
  lemma {:induction false} StreamEndFacts(p: Progress, b: Body, skip: nat, i: nat)
    requires p.total >= 0 && i <= |b.chunks|
    ensures var (n, out) := StreamEnd(p, b, skip, i);
            && (out == Done ==> RelayedAt(p, b, skip, n) >= p.total)
            && (out != Done ==> n == |b.chunks| + 1 && RelayedAt(p, b, skip, i) < p.total)
    decreases |b.chunks| - i
  {
    if RelayedAt(p, b, skip, i) < p.total && i < |b.chunks| {
      StreamEndFacts(p, b, skip, i + 1);
    }
  }

  lemma RelayStreams(w: World, p: Progress, told: Told, more: Bytes, whole: Bytes)
    requires Streaming(w, p, told, whole) && told.body + more <= whole
    ensures Streaming(w, Relay(p, more), Say(told, more), whole)
    ensures SoundStore(w, PartialOf(Relay(p, more)))
  {
  }

  /** A client that breaks off leaves a capture that may be saved. */
  lemma PartwaySound(w: World, p: Progress, told: Told, more: Bytes, whole: Bytes, v: Progress)
    requires Streaming(w, p, told, whole) && told.body + more <= whole && Partway(v, p, more)
    ensures SoundStore(w, PartialOf(v))
  {
  }

  /** A complete stream: everything is with the client, and what is committed is the representation. */
  lemma StreamComplete(w: World, q: Progress, told: Told, whole: Bytes)
    requires Honest(w) && Streaming(w, q, told, whole) && q.relayed >= q.total
    ensures told.body == whole
    ensures SoundStore(w, CommitOf(q)) && SoundStore(w, PartialOf(AfterCommit(q)))
  {
    CommittedIsSound(w, q.header, q.buf);
  }

  /** What a stream brings continues the representation, and it is done only when it brought all of it. */
  lemma StreamCut(p: Progress, told: Told, b: Body, skip: nat, whole: Bytes)
    requires told.Saying? && |told.body| == p.relayed && p.total == |whole| && Continues(b, skip, told.body, whole)
    ensures var s := Streamed(p, told, b, skip);
            && told.body + s.brought <= whole && s.told == Say(told, s.brought)
            && (s.out != Done ==> s.next == Relay(p, s.brought) && whole != [])
            && (s.out == Done ==> p.relayed + |s.brought| >= p.total)
  {
    StreamEndFacts(p, b, skip, 0);
    FreshFits(b, skip, StreamEnd(p, b, skip, 0).0, told.body, whole);
  }

  lemma StreamDone(w: World, p: Progress, told: Told, b: Body, skip: nat, whole: Bytes)
    requires Honest(w) && Streaming(w, p, told, whole)
    requires Continues(b, skip, told.body, whole)
    requires Streamed(p, told, b, skip).out == Done
    ensures var s := Streamed(p, told, b, skip);
            && Finished(w, Plain, s, whole) && SoundStore(w, s.commit) && SoundStore(w, PartialOf(s.next))
  {
    hide StreamEnd, Relay, CommitOf, Fresh;
    var s := Streamed(p, told, b, skip);
    StreamCut(p, told, b, skip, whole);
    RelayStreams(w, p, told, s.brought, whole);
    StreamComplete(w, Relay(p, s.brought), s.told, whole);
  }

  lemma StreamedPlain(w: World, p: Progress, told: Told, b: Body, skip: nat, whole: Bytes)
    requires Honest(w) && Streaming(w, p, told, whole)
    requires (p.cacheKey != "" ==> whole == w.rep(p.cacheKey))
    requires Continues(b, skip, told.body, whole)
    ensures Good(w, Plain, Streamed(p, told, b, skip), whole)
  {
    var s := Streamed(p, told, b, skip);
    StreamCut(p, told, b, skip, whole);
    forall v | Partway(v, s.base, s.brought) ensures SoundStore(w, PartialOf(v)) {
      PartwaySound(w, p, told, s.brought, whole, v);
    }
    if s.out == Done {
      StreamDone(w, p, told, b, skip, whole);
    } else {
      RelayStreams(w, p, told, s.brought, whole);
      assert Between(w, s.next, s.told, Plain, whole);
    }
  }

  /** A first answer of another status and known length: the client gets a prefix of it, and nothing is captured. */
  lemma StreamedForeign(w: World, p: Progress, of: Response, whole: Bytes)
    requires p.headerSent && !p.closeAfter && p.relayed == 0 && p.pending == [] && p.cacheKey == ""
    requires |Content(of.body)| <= p.total && (p.total > 0 ==> w.says(ForwardHeader(of, false), p.total))
    ensures Good(w, Foreign(of), Streamed(p, Saying(ForwardHeader(of, false), []), of.body, 0), whole)
  {
    var b := of.body;
    var s := Streamed(p, Saying(ForwardHeader(of, false), []), b, 0);
    var n := StreamEnd(p, b, 0, 0).0;
    StreamEndFacts(p, b, 0, 0);
    ConsumedPrefix(b, n);
    assert Fresh(b, 0, n) == Consumed(b, n) && [] + s.brought == s.brought;
  }

  /** An answer that brings nothing to what another status' answer left. */
  lemma StreamedNothing(w: World, p: Progress, told: Told, b: Body, skip: nat, of: Response, whole: Bytes)
    requires Between(w, p, told, Foreign(of), whole) && p.headerSent
    requires p.relayed >= p.total || Content(b) == []
    ensures Good(w, Foreign(of), Streamed(p, told, b, skip), whole)
  {
    hide Streamed;
    BringsNothing(p, told, b, skip);
  }

  /** A stream of a known total that has room for nothing, or gets nothing. */
  lemma BringsNothing(p: Progress, told: Told, b: Body, skip: nat)
    requires p.total >= 0 && told.Saying? && p.cacheKey == ""
    requires p.relayed >= p.total || Content(b) == []
    ensures var s := Streamed(p, told, b, skip);
            && s.next == p && s.told == told && s.commit.None? && s.base == p && s.brought == []
            && (s.out == Done ==> p.relayed >= p.total)
  {
    var n := StreamEnd(p, b, skip, 0).0;
    StreamEndFacts(p, b, skip, 0);
    FreshFirst(b, skip);
    ConsumedPrefix(b, n);
    assert told.body + [] == told.body;
  }

  // ---------------------------------------------------------------- buffering

  /** What is known where buffering stops. */
  ghost predicate StopsAt(p: Progress, b: Body, skip: nat, end: BufferEnd) {
    match end
    case Full(n) =>
      || (p.total >= 0 && |PendingAt(p, b, skip, n)| >= p.total)
      || (p.total < 0 && b.err == CleanEof && n == |b.chunks| + 1)
    case Overflow(n) => |PendingAt(p, b, skip, n + 1)| > BUFFERED_MAX && n <= |b.chunks|
    case Cut(n, out) => n == |b.chunks| + 1 && out == AfterError(b.err, false) && out != Done
  }

  lemma {:induction false} BufferStops(p: Progress, b: Body, skip: nat, i: nat)
    requires i <= |b.chunks|
    ensures StopsAt(p, b, skip, BufferStop(p, b, skip, i))
    decreases |b.chunks| - i
  {
    var now, next := |PendingAt(p, b, skip, i)|, |PendingAt(p, b, skip, i + 1)|;
    if p.total >= 0 && now >= p.total {
    } else if |Fresh(b, skip, i + 1)| > |Fresh(b, skip, i)| && next > BUFFERED_MAX {
    } else if i >= |b.chunks| {
    } else {
      BufferStops(p, b, skip, i + 1);
    }
  }

  lemma BufferedAll(p: Progress, b: Body, skip: nat, n: nat)
    requires n <= |b.chunks| + 1
    ensures PendingAt(p, b, skip, n) <= PendingAt(p, b, skip, |b.chunks| + 1)
  {
    FreshGrows(b, skip, n, |b.chunks| + 1);
  }

  /** A full buffer of the representation. */
  lemma FinishPlain(w: World, p: Progress, resp: Response, whole: Bytes)
    requires Honest(w) && PlainFields(resp.fields) && Unsent(p, Silent)
    requires p.cacheKey != "" ==> whole == w.rep(p.cacheKey)
    requires p.total >= 0 ==> p.total == |whole|
    ensures Good(w, Plain, Finish(p, resp, whole), whole)
  {
    var s := Finish(p, resp, whole);
    ReframedHeaderFacts(w, resp, |whole|);
    CommittedIsSound(w, ReframedHeader(resp, |whole|), whole);
    assert forall v :: Partway(v, s.base, s.brought) ==> PartialOf(v).None?;
  }

  /** A full buffer of an answer of another status shows that status, and so is not cached. */
  lemma FinishForeign(w: World, p: Progress, resp: Response, whole: Bytes)
    requires Honest(w) && PlainFields(resp.fields) && Unsent(p, Silent) && p.total < 0
    requires ReframedStatus(resp.status) == 200 ==> p.cacheKey == ""
    ensures Good(w, Foreign(resp), Finish(p, resp, Content(resp.body)), whole)
  {
    var s := Finish(p, resp, Content(resp.body));
    ReframedHeaderFacts(w, resp, |Content(resp.body)|);
    assert forall v :: Partway(v, s.base, s.brought) ==> PartialOf(v).None?;
  }

  lemma FlushGood(w: World, p: Progress, resp: Response, skip: nat, n: nat, o: Origin, whole: Bytes)
    requires Unsent(p, Silent) && n <= |resp.body.chunks| && |PendingAt(p, resp.body, skip, n + 1)| > BUFFERED_MAX
    requires var all := PendingAt(p, resp.body, skip, |resp.body.chunks| + 1);
             (o == Plain && all <= whole) || (o == Foreign(resp) && all == Content(resp.body))
    ensures Good(w, o, Flush(p, resp, skip, n), whole)
  {
    BufferedAll(p, resp.body, skip, n + 1);
    var s := Flush(p, resp, skip, n);
    assert forall v :: Partway(v, s.base, s.brought) ==> PartialOf(v).None?;
  }

  /** The body ends where the representation does, so that everything is held after it. */
  lemma AllFresh(b: Body, skip: nat, held: Bytes, whole: Bytes)
    requires Continues(b, skip, held, whole) && |held| - skip + |Content(b)| == |whole|
    ensures held + Fresh(b, skip, |b.chunks| + 1) == whole
  {
  }

  /** A full buffer is all of the representation. */
  lemma FullIsWhole(p: Progress, b: Body, skip: nat, n: nat, whole: Bytes)
    requires p.total >= 0 ==> p.total == |whole|
    requires Continues(b, skip, p.pending, whole) && StopsAt(p, b, skip, Full(n))
    requires b.err == CleanEof && p.total < 0 ==> |p.pending| - skip + |Content(b)| == |whole|
    ensures PendingAt(p, b, skip, n) == whole
  {
    FreshFits(b, skip, n, p.pending, whole);
    if p.total < 0 {
      AllFresh(b, skip, p.pending, whole);
    }
  }

  /** Buffering while what is held is a prefix of the representation that the body continues. */
  ghost predicate BuffersOn(w: World, p: Progress, resp: Response, skip: nat, whole: Bytes) {
    && PlainFields(resp.fields) && Unsent(p, Silent)
    && (p.cacheKey != "" ==> whole == w.rep(p.cacheKey))
    && p.total >= -1 && (p.total >= 0 ==> p.total == |whole|) && (p.pending == [] ==> p.total == -1)
    && Continues(resp.body, skip, p.pending, whole)
    && (resp.body.err == CleanEof && p.total < 0 ==> |p.pending| - skip + |Content(resp.body)| == |whole|)
  }

  lemma BufferedFull(w: World, p: Progress, resp: Response, skip: nat, n: nat, whole: Bytes)
    requires Honest(w) && BuffersOn(w, p, resp, skip, whole) && StopsAt(p, resp.body, skip, Full(n))
    ensures Good(w, Plain, Finish(p, resp, PendingAt(p, resp.body, skip, n)), whole)
  {
    FullIsWhole(p, resp.body, skip, n, whole);
    FinishPlain(w, p, resp, whole);
  }

  lemma BufferedOver(w: World, p: Progress, resp: Response, skip: nat, n: nat, whole: Bytes)
    requires BuffersOn(w, p, resp, skip, whole) && StopsAt(p, resp.body, skip, Overflow(n))
    ensures Good(w, Plain, Flush(p, resp, skip, n), whole)
  {
    FreshFits(resp.body, skip, |resp.body.chunks| + 1, p.pending, whole);
    FlushGood(w, p, resp, skip, n, Plain, whole);
  }

  lemma BufferedPlain(w: World, p: Progress, resp: Response, skip: nat, whole: Bytes)
    requires Honest(w) && BuffersOn(w, p, resp, skip, whole)
    ensures var s := Buffered(p, resp, skip); Good(w, Left(s, Plain), s, whole)
  {
    BufferStops(p, resp.body, skip, 0);
    match BufferStop(p, resp.body, skip, 0) {
      case Full(n) =>
        BufferedFull(w, p, resp, skip, n, whole);
      case Overflow(n) =>
        BufferedOver(w, p, resp, skip, n, whole);
      case Cut(n, out) =>
        FreshFits(resp.body, skip, n, p.pending, whole);
        CutGood(w, p, PendingAt(p, resp.body, skip, n), out, whole);
    }
  }

  lemma CutGood(w: World, p: Progress, buffered: Bytes, out: Outcome, whole: Bytes)
    requires Unsent(p, Silent) && buffered <= whole && out != Done
    requires p.cacheKey != "" ==> whole == w.rep(p.cacheKey)
    requires p.total >= -1 && (p.total >= 0 ==> p.total == |whole|) && (buffered == [] ==> p.total == -1)
    ensures var s := Idle(p.(pending := buffered), out, Silent); Good(w, Left(s, Plain), s, whole)
  {
  }

  lemma BufferedForeign(w: World, p: Progress, resp: Response, whole: Bytes)
    requires Honest(w) && PlainFields(resp.fields) && Unsent(p, Silent) && p.pending == [] && p.total == -1
    requires p.cacheKey != "" ==> whole == w.rep(p.cacheKey)
    requires ReframedStatus(resp.status) == 200 ==> p.cacheKey == ""
    ensures var s := Buffered(p, resp, 0); Good(w, Left(s, Foreign(resp)), s, whole)
  {
    var b := resp.body;
    BufferStops(p, b, 0, 0);
    assert PendingAt(p, b, 0, |b.chunks| + 1) == Content(b);
    match BufferStop(p, b, 0, 0) {
      case Full(n) =>
        FinishForeign(w, p, resp, whole);
      case Overflow(n) =>
        FlushGood(w, p, resp, 0, n, Foreign(resp), whole);
      case Cut(n, out) =>
        var s := Buffered(p, resp, 0);
        assert Between(w, s.next, s.told, Left(s, Foreign(resp)), whole);
        assert forall v :: Partway(v, s.base, s.brought) ==> PartialOf(v).None?;
    }
  }

  // ---------------------------------------------------------------- one attempt

  /** What an attempt that changes nothing leaves is as good as it was. */
  lemma IdleGood(w: World, p: Progress, told: Told, o: Origin, out: Outcome, whole: Bytes)
    requires Between(w, p, told, o, whole) && out != Done
    ensures Good(w, o, Idle(p, out, told), whole)
    ensures !p.headerSent ==> Good(w, o, Idle(p, Abort, Refused), whole)
  {
  }

  /** What is accepted while the representation is streamed continues it. */
  lemma ResumeStreams(w: World, p: Progress, told: Told, resp: Response, head: bool, whole: Bytes)
    requires Between(w, p, told, Plain, whole) && p.headerSent
    requires Faithful(Answered(resp), whole, NextRange(p), head) && Accepts(p, resp) && Kin(p, Plain, resp, head)
    ensures Learned(p, resp) == p && Streaming(w, p, told, whole)
    ensures Continues(resp.body, SkipOf(p, resp), told.body, whole)
  {
  }

  /** A later answer while the representation is streamed. */
  lemma TakenStreaming(w: World, p: Progress, told: Told, resp: Response, head: bool, whole: Bytes)
    requires Honest(w) && Between(w, p, told, Plain, whole) && p.headerSent
    requires Faithful(Answered(resp), whole, NextRange(p), head) && Accepts(p, resp) && Kin(p, Plain, resp, head)
    ensures Good(w, Plain, Taken(Learned(p, resp), told, resp, SkipOf(p, resp), head), whole)
  {
    hide Good, Faithful, Streamed, Continues, Streaming;
    ResumeStreams(w, p, told, resp, head, whole);
    StreamedPlain(w, p, told, resp.body, SkipOf(p, resp), whole);
  }

  /** Nothing that was buffered is lost. */
  lemma BufferedKeeps(p: Progress, resp: Response, skip: nat, o: Origin)
    requires p.pending != []
    ensures Left(Buffered(p, resp, skip), o) == o
  {
  }

  /** A later answer while the representation is buffered. */
  lemma TakenBuffering(w: World, p: Progress, told: Told, resp: Response, head: bool, whole: Bytes)
    requires Honest(w) && Between(w, p, told, Plain, whole) && !p.headerSent
    requires Faithful(Answered(resp), whole, NextRange(p), head) && Accepts(p, resp)
    ensures Good(w, Plain, Taken(Learned(p, resp), told, resp, SkipOf(p, resp), head), whole)
  {
    hide Good, BuffersOn, Buffered, Faithful;
    var q := Learned(p, resp);
    ResumeBuffers(w, p, resp, head, whole);
    BufferedPlain(w, q, resp, SkipOf(p, resp), whole);
    BufferedKeeps(q, resp, SkipOf(p, resp), Plain);
    assert Taken(q, told, resp, SkipOf(p, resp), head) == Buffered(q, resp, SkipOf(p, resp));
  }

  /** What was asked for by Range continues what is buffered. */
  lemma ResumeBuffers(w: World, p: Progress, resp: Response, head: bool, whole: Bytes)
    requires Between(w, p, Silent, Plain, whole)
    requires Faithful(Answered(resp), whole, NextRange(p), head) && Accepts(p, resp)
    ensures BuffersOn(w, Learned(p, resp), resp, SkipOf(p, resp), whole)
  {
  }

  /** A first 200. */
  lemma TakenFirst(w: World, p: Progress, resp: Response, head: bool, whole: Bytes)
    requires Honest(w) && Between(w, p, Silent, Nothing, whole) && resp.status == 200
    requires Faithful(Answered(resp), whole, None, head)
    ensures var s := Taken(p, Silent, resp, 0, head); Good(w, Left(s, Plain), s, whole)
  {
    var q := p.(total := AnnouncedTotal(resp, head));
    if q.total < 0 {
      BufferedPlain(w, q, resp, 0, whole);
    } else {
      ForwardHeaderFacts(w, resp, false);
      StreamedPlain(w, Started(q, resp), Saying(ForwardHeader(resp, false), []), resp.body, 0, whole);
    }
  }

  /** A first answer of another status. */
  lemma TakenOther(w: World, p: Progress, resp: Response, head: bool, whole: Bytes)
    requires Honest(w) && Between(w, p, Silent, Nothing, whole) && resp.status != 200
    requires Faithful(Answered(resp), whole, None, head) && Kin(p, Nothing, resp, head)
    ensures var s := Taken(p, Silent, resp, 0, head); Good(w, Left(s, Foreign(resp)), s, whole)
  {
    var q := p.(total := AnnouncedTotal(resp, head));
    if q.total < 0 {
      BufferedForeign(w, q, resp, whole);
    } else {
      ForwardHeaderFacts(w, resp, false);
      StreamedForeign(w, Started(q, resp), resp, whole);
    }
  }

  /** An answer after another status' answer was cut short, if it brings nothing. */
  lemma TakenForeign(w: World, p: Progress, told: Told, of: Response, resp: Response, head: bool, whole: Bytes)
    requires Between(w, p, told, Foreign(of), whole) && Accepts(p, resp) && Kin(p, Foreign(of), resp, head)
    requires Faithful(Answered(resp), whole, NextRange(p), head)
    ensures Good(w, Foreign(of), Taken(Learned(p, resp), told, resp, SkipOf(p, resp), head), whole)
  {
    assert p.headerSent && Learned(p, resp) == p;
    StreamedNothing(w, p, told, resp.body, SkipOf(p, resp), of, whole);
  }

  /**
   One attempt that the guard admits: the client's body stays a prefix of the representation or of the
   answer whose head it got, nothing but the representation is committed or saved, another attempt
   continues from a state of the same kind, and done means all of it with its length announced.
   */
  lemma KinStep(w: World, p: Progress, told: Told, o: Origin, a: Attempt, head: bool, whole: Bytes)
    requires Honest(w) && Between(w, p, told, o, whole)
    requires Faithful(a, whole, NextRange(p), head) && (a.Answered? ==> Kin(p, o, a.resp, head))
    ensures var s := Attempted(p, told, a, head); Good(w, OriginAfter(o, a, s), s, whole)
  {
    var s := Attempted(p, told, a, head);
    match a {
      case DialFailed(_) =>
        IdleGood(w, p, told, o, s.out, whole);
      case NoResponse =>
        IdleGood(w, p, told, o, s.out, whole);
      case Answered(resp) =>
        if !Accepts(p, resp) {
          IdleGood(w, p, told, o, Abort, whole);
        } else {
          KinAnswer(w, p, told, o, resp, head, whole);
        }
    }
  }

  lemma KinAnswer(w: World, p: Progress, told: Told, o: Origin, resp: Response, head: bool, whole: Bytes)
    requires Honest(w) && Between(w, p, told, o, whole) && Accepts(p, resp)
    requires Faithful(Answered(resp), whole, NextRange(p), head) && Kin(p, o, resp, head)
    ensures var s := Attempted(p, told, Answered(resp), head); Good(w, OriginAfter(o, Answered(resp), s), s, whole)
  {
    match o {
      case Nothing =>
        if resp.status == 200 {
          TakenFirst(w, p, resp, head, whole);
        } else {
          TakenOther(w, p, resp, head, whole);
        }
      case Plain =>
        if p.headerSent {
          TakenStreaming(w, p, told, resp, head, whole);
        } else {
          TakenBuffering(w, p, told, resp, head, whole);
        }
      case Foreign(of) =>
        TakenForeign(w, p, told, of, resp, head, whole);
    }
  }

  /** What becomes of the capture of the representation: it goes on, or it is committed. */
  ghost predicate Captures(p: Progress, s: Step) {
    && (s.out == Retry ==> s.next.cacheKey == p.cacheKey)
    && (s.out == Done && !s.next.closeAfter ==> s.commit.Some?)
  }

  lemma StreamedCaptures(w: World, p: Progress, told: Told, b: Body, skip: nat, whole: Bytes)
    requires Streaming(w, p, told, whole) && Continues(b, skip, told.body, whole)
    requires p.cacheKey != "" && |whole| <= MAX_OBJECT
    ensures Captures(p, Streamed(p, told, b, skip))
  {
    StreamCut(p, told, b, skip, whole);
  }

  lemma BufferedCaptures(w: World, p: Progress, resp: Response, skip: nat, whole: Bytes)
    requires BuffersOn(w, p, resp, skip, whole) && ReframedStatus(resp.status) == 200
    requires p.cacheKey != "" && |whole| <= MAX_OBJECT
    ensures Captures(p, Buffered(p, resp, skip))
  {
    BufferStops(p, resp.body, skip, 0);
    match BufferStop(p, resp.body, skip, 0) {
      case Full(n) => FullIsWhole(p, resp.body, skip, n, whole);
      case Overflow(n) =>
      case Cut(n, out) =>
    }
  }

  /**
   The representation of a cacheable request that fits the cache is captured: a 200, and whatever
   continues it, keeps the key when it is cut short and is committed when it is done, unless it outgrew the buffer.
   */
  lemma PlainIsCaptured(w: World, p: Progress, told: Told, o: Origin, resp: Response, head: bool, whole: Bytes)
    requires Honest(w) && Between(w, p, told, o, whole) && p.cacheKey != "" && |whole| <= 8 * 1024 * 1024
    requires Faithful(Answered(resp), whole, NextRange(p), head) && Accepts(p, resp) && Kin(p, o, resp, head)
    requires o == Plain || (o == Nothing && resp.status == 200)
    ensures Captures(p, Attempted(p, told, Answered(resp), head))
  {
    hide Streamed, Buffered, Continues, Streaming, BuffersOn;
    if o == Nothing {
      FirstCaptures(w, p, resp, head, whole);
    } else if p.headerSent {
      ResumeStreams(w, p, told, resp, head, whole);
      StreamedCaptures(w, p, told, resp.body, SkipOf(p, resp), whole);
    } else {
      ResumeBuffers(w, p, resp, head, whole);
      BufferedCaptures(w, Learned(p, resp), resp, SkipOf(p, resp), whole);
    }
  }

  lemma FirstCaptures(w: World, p: Progress, resp: Response, head: bool, whole: Bytes)
    requires Honest(w) && Between(w, p, Silent, Nothing, whole) && resp.status == 200
    requires p.cacheKey != "" && |whole| <= MAX_OBJECT && Faithful(Answered(resp), whole, None, head)
    ensures Captures(p, Taken(p, Silent, resp, 0, head))
  {
    var q := p.(total := AnnouncedTotal(resp, head));
    if q.total < 0 {
      BufferedCaptures(w, q, resp, 0, whole);
    } else {
      ForwardHeaderFacts(w, resp, false);
      StreamedCaptures(w, Started(q, resp), Saying(ForwardHeader(resp, false), []), resp.body, 0, whole);
    }
  }

  // ---------------------------------------------------------------- the guard is exact

  /** Answers the engine cannot tell apart before it reads their bodies. */
  predicate SameShape(p: Progress, r: Response, q: Response) {
    r.status == q.status && r.length.Some? == q.length.Some? && Accepts(p, r) == Accepts(p, q)
  }

  /** Whatever answers of the shape of `like` carry, whatever the representation is: no harm is done. */
  ghost predicate Safe(p: Progress, told: Told, o: Origin, like: Response, head: bool) {
    forall w: World, whole: Bytes, resp: Response ::
      Honest(w) && Between(w, p, told, o, whole) && SameShape(p, resp, like) &&
      Faithful(Answered(resp), whole, NextRange(p), head) ==>
        var s := Attempted(p, told, Answered(resp), head);
        Good(w, OriginAfter(o, Answered(resp), s), s, whole)
  }

  /** One harmful answer of the shape is enough. */
  lemma Harmed(w: World, p: Progress, told: Told, o: Origin, like: Response, head: bool, whole: Bytes, resp: Response)
    requires Honest(w) && Between(w, p, told, o, whole) && SameShape(p, resp, like)
    requires Faithful(Answered(resp), whole, NextRange(p), head)
    requires var s := Attempted(p, told, Answered(resp), head); !Good(w, OriginAfter(o, Answered(resp), s), s, whole)
    ensures !Safe(p, told, o, like, head)
  {
  }

  /** A body of known bytes that ends with `err` at once. */
  function Blob(bytes: Bytes, err: ReadErr): Body {
    Body([], bytes, err)
  }

  lemma BlobFresh(bytes: Bytes, err: ReadErr, skip: nat)
    requires skip <= |bytes|
    ensures Content(Blob(bytes, err)) == bytes
    ensures Fresh(Blob(bytes, err), skip, 0) == [] && Fresh(Blob(bytes, err), skip, 1) == bytes[skip..]
  {
  }

  /** An answer of a given shape with the bytes of our choice. */
  function Like(like: Response, length: nat, range: Option<ContentRange>, body: Body): Response {
    Response(like.status, if like.length.Some? then Some(length) else None, range, [], body)
  }

  function Other(c: char): char {
    if c == 'x' then 'y' else 'x'
  }

  /** A page of another status under the head of a 200: the client's body does not begin as the representation does. */
  lemma PageSpoils(w: World, p: Progress, told: Told, like: Response, head: bool, whole: Bytes)
    requires Honest(w) && Between(w, p, told, Plain, whole) && !Kin(p, Plain, like, head)
    ensures !Safe(p, told, Plain, like, head)
  {
    var page := [Other(whole[0])];
    var resp := Like(like, 1, like.range, Blob(page, Timeout));
    BlobFresh(page, Timeout, 0);
    var s := Attempted(p, told, Answered(resp), head);
    assert told.body == [] && [] + page == page;
    assert s.told.body == page && !Spliced(Plain, s.told, whole);
    Harmed(w, p, told, Plain, like, head, whole, resp);
  }

  /** A 206 that nobody asked for, without a length: it is committed as the whole. */
  lemma UnaskedSpoils(w: World, p: Progress, told: Told, like: Response, head: bool, whole: Bytes)
    requires Honest(w) && Between(w, p, told, Nothing, whole) && !Kin(p, Nothing, like, head)
    ensures !Safe(p, told, Nothing, like, head)
  {
    var part := if whole == [] then ['x'] else [];
    var resp := Like(like, 0, like.range, Blob(part, CleanEof));
    BlobFresh(part, CleanEof, 0);
    var s := Attempted(p, told, Answered(resp), head);
    assert s.commit.Some? && s.commit.value.resp.body == part;
    assert !SoundStore(w, s.commit);
    Harmed(w, p, told, Nothing, like, head, whole, resp);
  }

  /** The same headers, and another representation of every key. */
  ghost function Elsewhere(w: World, whole: Bytes): World {
    World(_ => whole, w.says)
  }

  /** The rest of a representation that is one byte longer than what is held. */
  function Longer(p: Progress, like: Response, whole: Bytes): Response
    requires whole != []
  {
    if NextRange(p).Some? && like.status == 206 then
      Like(like, 1, Some(ContentRange(NextRange(p).value, None)), Blob(whole[|whole| - 1..], Timeout))
    else Like(like, |whole|, like.range, Blob(whole, Timeout))
  }

  /** A representation that differs from `own` in its first byte, if there is one, and is one byte longer. */
  function Unlike(own: Bytes): (whole: Bytes)
    ensures |whole| == |own| + 1 && whole[|own|..] == ['x']
    ensures own != [] ==> whole[0] != own[0]
  {
    (if own == [] then [] else [Other(own[0])] + own[1..]) + ['x']
  }

  /** Such an answer is faithful to the longer representation, of the shape asked for, and brings one byte. */
  lemma LongerFits(p: Progress, like: Response, held: nat, head: bool, whole: Bytes)
    requires |whole| == held + 1 && Accepts(p, like) && !Bodyless(head, like.status)
    requires NextRange(p) == if held > 0 then Some(held) else None
    ensures var resp := Longer(p, like, whole);
            && SameShape(p, resp, like) && Faithful(Answered(resp), whole, NextRange(p), head) && Accepts(p, resp)
            && SkipOf(p, resp) <= |resp.body.last| && resp.body == Blob(resp.body.last, Timeout)
            && resp.body.last[SkipOf(p, resp)..] == whole[held..] && Learned(p, resp) == p
  {
  }

  /** What another status' answer left does not depend on the representation. */
  lemma ForeignAnywhere(w: World, p: Progress, told: Told, of: Response, whole: Bytes, whole1: Bytes)
    requires Between(w, p, told, Foreign(of), whole) && Honest(w)
    ensures Between(Elsewhere(w, whole1), p, told, Foreign(of), whole1) && Honest(Elsewhere(w, whole1))
  {
  }

  /** Anything but nothing spoils what another status' answer left on the wire. */
  lemma MoreSpoilsStream(w: World, p: Progress, told: Told, of: Response, like: Response, head: bool, whole: Bytes)
    requires Honest(w) && Between(w, p, told, Foreign(of), whole) && p.headerSent && !Kin(p, Foreign(of), like, head)
    ensures !Safe(p, told, Foreign(of), like, head)
  {
    hide Safe, Good, Streamed, Faithful;
    var own := Content(of.body);
    var whole1 := Unlike(own);
    var w1, resp := Elsewhere(w, whole1), Longer(p, like, whole1);
    LongerFits(p, like, |own|, head, whole1);
    var s := Attempted(p, told, Answered(resp), head);
    StreamBlob(p, told, resp.body.last, SkipOf(p, resp));
    ForeignAnywhere(w, p, told, of, whole, whole1);
    assert s == Streamed(p, told, resp.body, SkipOf(p, resp));
    NotAfter(w1, of, s, whole1);
    Harmed(w1, p, told, Foreign(of), like, head, whole1, resp);
  }

  /** Such an answer adds a byte to what is buffered. */
  lemma BuffersMore(p: Progress, resp: Response, skip: nat)
    requires Unsent(p, Silent) && p.pending != [] && p.total == -1 && Accepts(p, resp)
    requires skip == SkipOf(p, resp) < |resp.body.last|
    requires resp.body == Blob(resp.body.last, Timeout) && Learned(p, resp) == p
    ensures var s := Attempted(p, Silent, Answered(resp), false);
            || (s.told.Saying? && |s.told.body| > |p.pending|)
            || (s.out == Retry && !s.next.headerSent && |s.next.pending| > |p.pending|)
  {
    BufferBlob(p, resp, resp.body.last, skip);
    assert Attempted(p, Silent, Answered(resp), false) == Buffered(p, resp, skip);
  }

  /** The same for what is buffered of such an answer. */
  lemma MoreSpoilsBuffer(w: World, p: Progress, told: Told, of: Response, like: Response, whole: Bytes)
    requires Honest(w) && Between(w, p, told, Foreign(of), whole) && !p.headerSent && !Kin(p, Foreign(of), like, false)
    ensures !Safe(p, told, Foreign(of), like, false)
  {
    var own := Content(of.body);
    var whole1 := Unlike(own);
    var resp := Longer(p, like, whole1);
    LongerFits(p, like, |own|, false, whole1);
    BuffersMore(p, resp, SkipOf(p, resp));
    ForeignAnywhere(w, p, told, of, whole, whole1);
    NotAfter(Elsewhere(w, whole1), of, Attempted(p, told, Answered(resp), false), whole1);
    Harmed(Elsewhere(w, whole1), p, told, Foreign(of), like, false, whole1, resp);
  }

  lemma NotAfter(w: World, of: Response, s: Step, whole: Bytes)
    requires var own := Content(of.body);
             || (s.told.Saying? && |s.told.body| > |own|)
             || (s.out == Retry && !s.next.headerSent && |s.next.pending| > |own|)
    ensures !Good(w, Foreign(of), s, whole)
  {
  }

  /** What streaming makes of a body that times out at once. */
  lemma StreamBlob(p: Progress, told: Told, bytes: Bytes, skip: nat)
    requires skip <= |bytes| && told.Saying? && p.relayed < p.total
    ensures Streamed(p, told, Blob(bytes, Timeout), skip).told == Say(told, bytes[skip..])
  {
    BlobFresh(bytes, Timeout, skip);
  }

  /** What buffering makes of a body that times out at once. */
  lemma BufferBlob(p: Progress, resp: Response, bytes: Bytes, skip: nat)
    requires resp.body == Blob(bytes, Timeout) && skip <= |bytes| && p.total < 0
    ensures var s, all := Buffered(p, resp, skip), p.pending + bytes[skip..];
            (s.told.Saying? && s.told.body == all) || s == Idle(p.(pending := all), Retry, Silent)
  {
    BlobFresh(bytes, Timeout, skip);
  }

  /**
   The guard is exact: in every state between attempts, an answer of a given shape does no harm
   whatever it carries if and only if the guard admits it. (An answer to HEAD is never buffered.)
   */
  lemma KinExact(w: World, p: Progress, told: Told, o: Origin, like: Response, head: bool, whole: Bytes)
    requires Honest(w) && Between(w, p, told, o, whole) && (head ==> p.headerSent || o == Nothing)
    ensures Safe(p, told, o, like, head) <==> Kin(p, o, like, head)
  {
    if Kin(p, o, like, head) {
      forall w1: World, whole1: Bytes, resp: Response |
        Honest(w1) && Between(w1, p, told, o, whole1) && SameShape(p, resp, like) &&
        Faithful(Answered(resp), whole1, NextRange(p), head)
        ensures var s := Attempted(p, told, Answered(resp), head);
                Good(w1, OriginAfter(o, Answered(resp), s), s, whole1)
      {
        KinStep(w1, p, told, o, Answered(resp), head, whole1);
      }
    } else {
      match o
      case Nothing => UnaskedSpoils(w, p, told, like, head, whole);
      case Plain => PageSpoils(w, p, told, like, head, whole);
      case Foreign(of) =>
        if p.headerSent {
          MoreSpoilsStream(w, p, told, of, like, head, whole);
        } else {
          MoreSpoilsBuffer(w, p, told, of, like, whole);
        }
    }
  }
}
