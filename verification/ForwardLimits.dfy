/**
 Where the engine's promises stop beside the missing guard: a buffered body that outgrows the buffer
 after it was resumed, which is run through the engine, and partial answers whose head does not tell.
 */
module ForwardLimits {
  import opened Basics
  import opened HeaderText
  import opened AssetCache
  import opened ForwardModel
  import opened ForwardSteps
  import opened Forward
  import opened Splicing
  import opened SplicingRuns

  // ---------------------------------------------------------------- overflow of a resumed body

  /** A reader reports a clean end of a body of announced length only after all of it. */
  predicate CleanReader(resp: Response) {
    resp.body.err == CleanEof && resp.length.Some? ==> |Content(resp.body)| == resp.length.value
  }

  /** An attempt that flushed an overflowing body and is done. */
  predicate Flushed(p: Progress, resp: Response) {
    var s := Attempted(p, Silent, Answered(resp), false);
    s.out == Done && s.next.closeAfter
  }

  /** The progress that an accepted answer's body meets. */
  function Met(p: Progress, resp: Response): Progress {
    var q := Learned(p, resp);
    if q.pending == [] then q.(total := AnnouncedTotal(resp, false)) else q
  }

  lemma StreamedStaysOpen(p: Progress, told: Told, b: Body, skip: nat)
    ensures Streamed(p, told, b, skip).next.closeAfter == p.closeAfter
  {
  }

  /** Only buffering flushes. */
  lemma FlushBuffers(p: Progress, resp: Response)
    requires Unsent(p, Silent) && Accepts(p, resp) && Flushed(p, resp)
    ensures Attempted(p, Silent, Answered(resp), false) == Buffered(Met(p, resp), resp, SkipOf(p, resp))
    ensures p.pending != [] || AnnouncedTotal(resp, false) < 0
  {
    hide Streamed, Buffered, Accepts;
    var q := Met(p, resp);
    StreamedStaysOpen(Started(q, resp), Saying(ForwardHeader(resp, false), []), resp.body, SkipOf(p, resp));
  }

  lemma BufferedFlush(p: Progress, resp: Response, skip: nat)
    requires !p.closeAfter && Buffered(p, resp, skip).next.closeAfter && Buffered(p, resp, skip).out == Done
    ensures Buffered(p, resp, skip).told ==
            Saying(ForwardHeader(resp, true), p.pending + Fresh(resp.body, skip, |resp.body.chunks| + 1))
    ensures resp.body.err == CleanEof
  {
  }

  /** What a flush tells the client: the buffer, and the answer's body without what is held already. */
  lemma FlushTells(p: Progress, resp: Response)
    requires Unsent(p, Silent) && Accepts(p, resp) && Flushed(p, resp)
    ensures Attempted(p, Silent, Answered(resp), false).told ==
            Saying(ForwardHeader(resp, true), p.pending + Fresh(resp.body, SkipOf(p, resp), |resp.body.chunks| + 1))
    ensures resp.body.err == CleanEof && (p.pending != [] || AnnouncedTotal(resp, false) < 0)
  {
    hide Attempted, Buffered, Accepts, Fresh;
    FlushBuffers(p, resp);
    BufferedFlush(Met(p, resp), resp, SkipOf(p, resp));
  }

  /** What the client has of a flushed body. */
  function FlushedBody(p: Progress, resp: Response): Bytes {
    p.pending + Fresh(resp.body, SkipOf(p, resp), |resp.body.chunks| + 1)
  }

  /** A resumed answer that says how much is missing, and announces less. */
  predicate AnnouncesTooLittle(resp: Response) {
    && resp.status == 206 && resp.range.Some? && resp.range.value.total.Some? && resp.length.Some?
    && resp.range.value.start + resp.length.value < resp.range.value.total.value
  }

  lemma WholeUnlessTooLittle(w: World, p: Progress, o: Origin, resp: Response, whole: Bytes)
    requires Between(w, p, Silent, o, whole) && (o == Plain || (o == Nothing && resp.status == 200))
    requires Faithful(Answered(resp), whole, NextRange(p), false) && CleanReader(resp) && Accepts(p, resp)
    requires resp.body.err == CleanEof && (p.pending != [] || AnnouncedTotal(resp, false) < 0)
    requires resp.status == 206 && resp.range.value.total.Some? ==> resp.length.Some?
    ensures FlushedBody(p, resp) == whole <==> !AnnouncesTooLittle(resp)
  {
    var skip := SkipOf(p, resp);
    assert p.pending == whole[..|p.pending|];
    assert FlushedBody(p, resp) == p.pending + Content(resp.body)[skip..];
    if resp.status == 200 {
      assert whole[..skip] + whole[skip..] == whole;
    } else if resp.range.value.total.None? {
      assert whole[..|p.pending|] + whole[|p.pending|..] == whole;
    } else if |p.pending| + |Content(resp.body)| == |whole| {
      assert Content(resp.body) == whole[|p.pending|..];
    }
  }

  /**
   Whether a flushed body is whole can be told from the answer's head: it is, unless the answer is a 206
   that gives the total and announces less than what is missing. (A 206 that announces no length is the
   subject of `UnannouncedEitherWay`.)
   */
  lemma OverflowDeliversWhole(w: World, p: Progress, o: Origin, resp: Response, whole: Bytes)
    requires Between(w, p, Silent, o, whole) && (o == Plain || (o == Nothing && resp.status == 200))
    requires Faithful(Answered(resp), whole, NextRange(p), false) && CleanReader(resp)
    requires Accepts(p, resp) && Flushed(p, resp)
    requires resp.status == 206 && resp.range.Some? && resp.range.value.total.Some? ==> resp.length.Some?
    ensures Attempted(p, Silent, Answered(resp), false).told ==
            Saying(ForwardHeader(resp, true), FlushedBody(p, resp))
    ensures FlushedBody(p, resp) == whole <==> !AnnouncesTooLittle(resp)
  {
    hide Attempted, Flushed;
    FlushTells(p, resp);
    WholeUnlessTooLittle(w, p, o, resp, whole);
  }

  /**
   The head of a flush announces the length of the answer's own body, which is what the client gets if and
   only if the answer started from the beginning.
   */
  lemma OverflowHeadMismatch(p: Progress, resp: Response)
    requires PlainFields(resp.fields) && Unsent(p, Silent) && Accepts(p, resp) && Flushed(p, resp)
    requires resp.length == Some(|Content(resp.body)|) && SkipOf(p, resp) <= |Content(resp.body)|
    ensures Attempted(p, Silent, Answered(resp), false).told ==
            Saying(ForwardHeader(resp, true), FlushedBody(p, resp))
    ensures Announces(ForwardHeader(resp, true), |Content(resp.body)|)
    ensures |FlushedBody(p, resp)| == |Content(resp.body)| <==> resp.status == 200
  {
    hide Attempted, Flushed;
    FlushTells(p, resp);
    ForwardHeaderFacts(Literal(k => []), resp, true);
  }

  // ---------------------------------------------------------------- its failing input

  function Repeat(n: nat): Bytes {
    seq(n, _ => 'x')
  }

  const LONG: Bytes := Repeat(BUFFERED_MAX + 3)

  /** A chunked 200 that stops when the buffer is exactly full, and then two of the last three bytes. */
  function ShortTunnel(i: nat, offset: Option<nat>): Attempt {
    if offset == None then Answered(Response(200, None, None, [], Blob(Repeat(BUFFERED_MAX), Timeout)))
    else if offset == Some(BUFFERED_MAX) then
      Answered(Response(206, Some(2), Some(ContentRange(BUFFERED_MAX, Some(BUFFERED_MAX + 3))), [],
                        Blob(Repeat(2), CleanEof)))
    else NoResponse
  }

  /** Its answers are faithful, and its last one is short although the reader reports a clean end. */
  lemma ShortTunnelFaithful()
    ensures AllFaithful(ShortTunnel, LONG, false)
    ensures CleanReader(ShortTunnel(1, Some(BUFFERED_MAX)).resp)
  {
  }

  /** What buffering makes of a body that ends at once. */
  lemma BufferedBlob(p: Progress, resp: Response, bytes: Bytes, err: ReadErr, n: nat)
    requires resp.body == Blob(bytes, err) && bytes != [] && n == |p.pending| + |bytes|
    requires p.total < 0 || |p.pending| < p.total
    ensures var s := Buffered(p, resp, 0);
            if n > BUFFERED_MAX then
              && s.out == (if err == CleanEof then Done else Abort) && s.next.closeAfter
              && s.told == Saying(ForwardHeader(resp, true), p.pending + bytes)
            else if err == Timeout then s == Idle(p.(pending := p.pending + bytes), Retry, Silent)
            else true
  {
  }

  const FULL: Progress := Start("").(pending := Repeat(BUFFERED_MAX))

  lemma ShortFirst()
    ensures Attempted(Start(""), Silent, ShortTunnel(0, None), false) == Idle(FULL, Retry, Silent)
  {
    BufferedBlob(Start(""), ShortTunnel(0, None).resp, Repeat(BUFFERED_MAX), Timeout, BUFFERED_MAX);
    assert [] + Repeat(BUFFERED_MAX) == Repeat(BUFFERED_MAX);
  }

  lemma ShortSecond()
    ensures var s := Attempted(FULL, Silent, ShortTunnel(1, Some(BUFFERED_MAX)), false);
            && s.out == Done && s.told.Saying? && |s.told.body| == BUFFERED_MAX + 2
            && s.told.head == ForwardHeader(ShortTunnel(1, Some(BUFFERED_MAX)).resp, true)
  {
  }

  /** The engine in that run reports that it is done, and the client lacks the last byte. */
  method OverflowsShort(client: Client, cache: AssetCache) returns (out: Outcome)
    requires cache.Valid() && client.ok && client.log == []
    modifies client`log, client`ok, cache
    ensures AllFaithful(ShortTunnel, LONG, false) && CleanReader(ShortTunnel(1, Some(BUFFERED_MAX)).resp)
    ensures client.ok ==> out == Done && |Delivered(client.log)| == |LONG| - 1
  {
    hide Attempted, Partway, CutOff, Applied, AllFaithful, CleanReader, ForwardHeader;
    ShortTunnelFaithful();
    var st := new ForwardState("");
    var ups := new Tunnels(ShortTunnel);
    var answer;
    ShortFirst();
    out, answer := ForwardOnce(client, cache, st, ups, false);
    if !client.ok {
      return;
    }
    ShortSecond();
    out, answer := ForwardOnce(client, cache, st, ups, false);
  }

  /** The last three bytes without an announced length, of which `n` come. */
  function Unannounced(n: nat): Response {
    Response(206, None, Some(ContentRange(BUFFERED_MAX, Some(BUFFERED_MAX + 3))), [], Blob(Repeat(n), CleanEof))
  }

  /**
   A 206 that gives the total and no length: answers with the same head are faithful and flushed alike,
   whole or one byte short.
   */
  lemma UnannouncedEitherWay(n: nat)
    requires n == 2 || n == 3
    ensures Faithful(Answered(Unannounced(n)), LONG, NextRange(FULL), false) && Accepts(FULL, Unannounced(n))
    ensures Unannounced(n).(body := Unannounced(5 - n).body) == Unannounced(5 - n)
    ensures var s := Attempted(FULL, Silent, Answered(Unannounced(n)), false);
            s.out == Done && s.told.Saying? && (s.told.body == LONG <==> n == 3)
  {
  }

  // ---------------------------------------------------------------- partial answers without a length

  /**
   A reframed response shows the status of its answer exactly when that is not 206, even if the
   client asked for a range itself.
   */
  lemma ReframedShowsStatus(resp: Response, bodyLen: nat)
    requires PlainFields(resp.fields)
    ensures Lines(ReframedHeader(resp, bodyLen))[0] == STATUS_PREFIX + Itoa(resp.status) <==> resp.status != 206
  {
    FilterMembers(resp.fields, l => !HopByHop(l));
    FilterMembers(EndToEnd(resp.fields), l => !Named(l, "content-range:"));
    ResponseHeadLines(ReframedStatus(resp.status), WithoutContentRange(EndToEnd(resp.fields)), Some(bodyLen), false);
    var shown := Itoa(ReframedStatus(resp.status));
    if STATUS_PREFIX + shown == STATUS_PREFIX + Itoa(resp.status) {
      assert (STATUS_PREFIX + shown)[|STATUS_PREFIX|..] == shown;
      assert (STATUS_PREFIX + Itoa(resp.status))[|STATUS_PREFIX|..] == Itoa(resp.status);
      ItoaInjective(ReframedStatus(resp.status), resp.status);
    }
  }
}
