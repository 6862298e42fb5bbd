/**
 When a connection may be reused: the body has the length that its head announced. This needs nothing of
 the origin but that no body is longer than the answer announces, and it needs a test that the engine
 does not make: that an answer announces no more than what is missing.
 */
module Framing {
  import opened Basics
  import opened HeaderText
  import opened AssetCache
  import opened ForwardModel
  import opened ForwardSteps
  import opened ForwardRuns
  import opened Forward
  import opened Splicing
  import opened SplicingRuns
  import opened ForwardRequest

  /** A body is no longer than the answer announces, and none comes where none may. */
  ghost predicate Measured(a: Attempt, head: bool) {
    a.Answered? ==>
      && PlainFields(a.resp.fields)
      && (AnnouncedTotal(a.resp, head) >= 0 ==> |Content(a.resp.body)| <= AnnouncedTotal(a.resp, head))
  }

  /** Once the head is out, it announces the total, of which the client has no more than was relayed. */
  ghost predicate Framed(w: World, p: Progress, told: Told) {
    p.headerSent ==>
      && told.Saying? && |told.body| == p.relayed && p.relayed <= p.total
      && (p.total > 0 ==> w.says(told.head, p.total))
  }

  /** The client got as many bytes as the head announces. */
  ghost predicate WellFramed(w: World, s: Step) {
    s.told.Saying? && |s.told.body| == s.next.total && (s.next.total > 0 ==> w.says(s.told.head, s.next.total))
  }

  /** The test the engine lacks: what continues a stream announces no more than is missing. */
  predicate Fits(p: Progress, resp: Response, head: bool) {
    p.headerSent && Accepts(p, resp) && p.relayed < p.total ==>
      var n := AnnouncedTotal(resp, head);
      n >= 0 && n - SkipOf(p, resp) <= p.total - p.relayed
  }

  // ---------------------------------------------------------------- one attempt

  lemma FreshLength(b: Body, skip: nat, i: nat)
    ensures |Fresh(b, skip, i)| <= Max(0, |Content(b)| - skip)
  {
    ConsumedPrefix(b, i);
  }

  /** A stream that has room for all of the body. */
  lemma StreamedFramed(w: World, p: Progress, told: Told, b: Body, skip: nat)
    requires p.headerSent && !p.closeAfter && p.pending == [] && Framed(w, p, told)
    requires p.relayed < p.total ==> |Content(b)| - skip <= p.total - p.relayed
    ensures var s := Streamed(p, told, b, skip);
            && (s.out == Retry ==> Framed(w, s.next, s.told))
            && (s.out == Done ==> WellFramed(w, s))
  {
    StreamEndFacts(p, b, skip, 0);
    FreshFirst(b, skip);
    FreshLength(b, skip, StreamEnd(p, b, skip, 0).0);
  }

  lemma BufferedFramed(w: World, p: Progress, resp: Response, skip: nat)
    requires Honest(w) && PlainFields(resp.fields) && !p.headerSent && !p.closeAfter
    ensures var s := Buffered(p, resp, skip);
            && (s.out == Retry ==> Framed(w, s.next, s.told))
            && (s.out == Done && !s.next.closeAfter ==> WellFramed(w, s))
  {
    BufferStops(p, resp.body, skip, 0);
    match BufferStop(p, resp.body, skip, 0)
    case Full(n) =>
      ReframedHeaderFacts(w, resp, |CutTo(PendingAt(p, resp.body, skip, n), p.total)|);
    case _ =>
  }

  lemma TakenFramed(w: World, p: Progress, told: Told, resp: Response, skip: nat, head: bool)
    requires Honest(w) && Tidy(p, told) && Settled(p) && Framed(w, p, told) && Measured(Answered(resp), head)
    requires p.headerSent && p.relayed < p.total ==> |Content(resp.body)| - skip <= p.total - p.relayed
    ensures var s := Taken(p, told, resp, skip, head);
            && (s.out == Retry ==> Framed(w, s.next, s.told))
            && (s.out == Done && !s.next.closeAfter ==> WellFramed(w, s))
  {
    hide Streamed, Buffered, Taken, Honest;
    StreamsKnownTotal(p, told, resp, skip, head);
    if p.headerSent {
      StreamedFramed(w, p, told, resp.body, skip);
    } else if p.pending == [] && AnnouncedTotal(resp, head) >= 0 {
      var q := p.(total := AnnouncedTotal(resp, head));
      ForwardHeaderFacts(w, resp, false);
      StreamedFramed(w, Started(q, resp), Saying(ForwardHeader(resp, false), []), resp.body, skip);
    } else {
      BufferedFramed(w, if p.pending == [] then p.(total := AnnouncedTotal(resp, head)) else p, resp, skip);
    }
  }

  /** An attempt whose answer fits keeps the framing, and is done only with a body of the announced length. */
  lemma FramedStep(w: World, p: Progress, told: Told, a: Attempt, head: bool)
    requires Honest(w) && Tidy(p, told) && Settled(p) && Framed(w, p, told) && Measured(a, head)
    requires a.Answered? ==> Fits(p, a.resp, head)
    ensures var s := Attempted(p, told, a, head);
            && (s.out == Retry ==> Framed(w, s.next, s.told))
            && (s.out == Done && !s.next.closeAfter ==> WellFramed(w, s))
  {
    hide Taken, Honest, WellFramed;
    if a.Answered? && Accepts(p, a.resp) {
      TakenFramed(w, Learned(p, a.resp), told, a.resp, SkipOf(p, a.resp), head);
    }
  }

  /** Answers of one shape: whatever the body is within the announced length, a stream that ends has the total. */
  ghost predicate AlwaysTotal(p: Progress, told: Told, like: Response, head: bool) {
    forall b: Body :: Measured(Answered(like.(body := b)), head) ==>
      var s := Attempted(p, told, Answered(like.(body := b)), head);
      s.out == Done ==> s.told.Saying? && |s.told.body| == p.total
  }

  lemma OtherBody(p: Progress, told: Told, like: Response, head: bool, b: Body)
    requires p.headerSent && p.total >= 0 && Accepts(p, like)
    ensures Attempted(p, told, Answered(like.(body := b)), head) == Streamed(p, told, b, SkipOf(p, like))
    ensures AnnouncedTotal(like.(body := b), head) == AnnouncedTotal(like, head)
    ensures Streamed(p, told, b, SkipOf(p, like)).next.total == p.total
  {
  }

  function Filler(n: nat): Bytes {
    seq(n, _ => 'x')
  }

  /** One that announces more than is missing, or nothing, may bring too much. */
  lemma TooMuch(p: Progress, told: Told, like: Response, head: bool, n: nat)
    requires p.headerSent && told.Saying? && |told.body| == p.relayed < p.total && Accepts(p, like)
    requires PlainFields(like.fields) && n > SkipOf(p, like) + (p.total - p.relayed)
    requires AnnouncedTotal(like, head) >= 0 ==> n <= AnnouncedTotal(like, head)
    ensures !AlwaysTotal(p, told, like, head)
  {
    var b, skip := Blob(Filler(n), CleanEof), SkipOf(p, like);
    BlobFresh(Filler(n), CleanEof, skip);
    OtherBody(p, told, like, head, b);
    assert Measured(Answered(like.(body := b)), head);
  }

  /**
   The test is exact: while something is missing, an accepted answer of a given head leaves exactly the
   total with the client whenever it is done, whatever body it brings, if and only if it fits.
   */
  lemma FitsExact(w: World, p: Progress, told: Told, like: Response, head: bool)
    requires Tidy(p, told) && Settled(p) && Framed(w, p, told) && PlainFields(like.fields)
    requires p.headerSent && p.relayed < p.total && Accepts(p, like)
    ensures AlwaysTotal(p, told, like, head) <==> Fits(p, like, head)
  {
    hide Streamed, AnnouncedTotal, Accepts;
    var n, skip := AnnouncedTotal(like, head), SkipOf(p, like);
    if Fits(p, like, head) {
      forall b: Body | Measured(Answered(like.(body := b)), head)
        ensures var s := Attempted(p, told, Answered(like.(body := b)), head);
                s.out == Done ==> s.told.Saying? && |s.told.body| == p.total
      {
        OtherBody(p, told, like, head, b);
        StreamedFramed(w, p, told, b, skip);
      }
    } else {
      TooMuch(p, told, like, head, if n >= 0 then n else skip + (p.total - p.relayed) + 1);
    }
  }

  // ---------------------------------------------------------------- whole runs

  ghost predicate AllMeasured(tunnel: Upstream, head: bool) {
    forall i: nat, offset: Option<nat> :: Measured(tunnel(i, offset), head)
  }

  predicate LegFits(leg: Leg, head: bool) {
    leg.answer.Answered? ==> Fits(leg.from, leg.answer.resp, head)
  }

  ghost predicate AllFit(legs: seq<Leg>, head: bool) {
    forall k :: 0 <= k < |legs| ==> LegFits(legs[k], head)
  }

  /** A finished run whose connection is reusable ended with the announced length. */
  ghost predicate EndsFramed(w: World, c: Course) {
    c.end == Finished && c.legs != [] ==>
      var s := c.legs[|c.legs| - 1].step;
      s.next.closeAfter || WellFramed(w, s)
  }

  lemma EndsFramedCons(w: World, leg: Leg, rest: Course)
    requires rest.legs != []
    ensures EndsFramed(w, After([leg], rest)) <==> EndsFramed(w, rest)
    ensures forall head :: AllFit(After([leg], rest).legs, head) ==> LegFits(leg, head) && AllFit(rest.legs, head)
  {
    var c := After([leg], rest);
    assert forall k :: 0 <= k < |rest.legs| ==> c.legs[k + 1] == rest.legs[k];
    assert c.legs[0] == leg;
  }

  /** Over every run in which every answer fits, a connection is reused only after a body of the announced length. */
  lemma {:induction false} FramedCourse(w: World, tunnel: Upstream, head: bool, canRetry: bool,
                                        p: Progress, told: Told, i: nat, idle: nat)
    requires Honest(w) && Tidy(p, told) && Settled(p) && Framed(w, p, told) && AllMeasured(tunnel, head)
    requires AllFit(CourseFrom(tunnel, head, canRetry, p, told, i, idle).legs, head)
    ensures EndsFramed(w, CourseFrom(tunnel, head, canRetry, p, told, i, idle))
    decreases MAX_ATTEMPTS - i
  {
    hide CourseFrom, Tidy, Settled, Framed, Honest, Measured, LegFits, WellFramed, Attempted;
    if i >= MAX_ATTEMPTS {
      CourseOver(tunnel, head, canRetry, p, told, i, idle);
      return;
    }
    var leg := LegOf(tunnel, head, p, told, i);
    CourseNext(tunnel, head, canRetry, p, told, i, idle);
    if GoesOn(canRetry, leg, idle) && i + 1 < MAX_ATTEMPTS {
      var rest := RestOf(tunnel, head, canRetry, leg, i, idle);
      CourseChained(tunnel, head, canRetry, leg.step.next, leg.step.told, i + 1, IdleAfter(leg, idle));
      EndsFramedCons(w, leg, rest);
      FramedLeg(w, leg, head);
      HeldGrows(p, told, leg.answer, head);
      StaysSettled(p, told, leg.answer, head);
      FramedCourse(w, tunnel, head, canRetry, leg.step.next, leg.step.told, i + 1, IdleAfter(leg, idle));
    } else if GoesOn(canRetry, leg, idle) {
      CourseOver(tunnel, head, canRetry, leg.step.next, leg.step.told, i + 1, IdleAfter(leg, idle));
    } else {
      assert LegFits(CourseFrom(tunnel, head, canRetry, p, told, i, idle).legs[0], head);
      FramedLeg(w, leg, head);
    }
  }

  lemma FramedLeg(w: World, leg: Leg, head: bool)
    requires Honest(w) && Tidy(leg.from, leg.told) && Settled(leg.from) && Framed(w, leg.from, leg.told)
    requires Measured(leg.answer, head) && LegFits(leg, head)
    requires leg.step == Attempted(leg.from, leg.told, leg.answer, head)
    ensures leg.step.out == Retry ==> Framed(w, leg.step.next, leg.step.told)
    ensures leg.step.out == Done ==> leg.step.next.closeAfter || WellFramed(w, leg.step)
  {
    hide Attempted, Honest, Tidy, Settled, Framed, Measured, WellFramed, Fits;
    FramedStep(w, leg.from, leg.told, leg.answer, head);
  }

  /** What a request was told when its connection is kept: a body of the length its head announces. */
  lemma KeptIsFramed(w: World, x: Exchange, s: CacheState, h: Handling)
    requires Honest(w) && Handles(x, s, h) && h.kept && h.end == Finished
    requires AllMeasured(x.tunnel, x.req.verb == HEAD)
    requires var stored := StoredOf(s, CacheKey(x.req));
             && Settled(StartOf(CacheKey(x.req), stored)) && Framed(w, StartOf(CacheKey(x.req), stored), ToldOf(stored))
             && AllFit(CourseOfRequest(x, stored).legs, x.req.verb == HEAD)
    ensures var told := Seen(h.log); told.Saying? && (told.body != [] ==> w.says(told.head, |told.body|))
  {
    hide CourseFrom, Honest, Settled, Framed, AllFit, AllMeasured;
    var stored := StoredOf(s, CacheKey(x.req));
    FramedCourse(w, x.tunnel, x.req.verb == HEAD, CanRetry(x.req),
                 StartOf(CacheKey(x.req), stored), ToldOf(stored), 0, 0);
  }

  /** Over all measured upstreams, with the test imposed or not. */
  ghost predicate AlwaysFramed(tested: bool) {
    forall w: World, tunnel: Upstream, head: bool, canRetry: bool, key: string ::
      Honest(w) && AllMeasured(tunnel, head)
      && (tested ==> AllFit(CourseOf(tunnel, head, canRetry, Start(key), Silent).legs, head)) ==>
        EndsFramed(w, CourseOf(tunnel, head, canRetry, Start(key), Silent))
  }

  // ---------------------------------------------------------------- the run that fails

  /** A 200 of three bytes whose body never comes, then a longer page of another status. */
  function LongPageTunnel(i: nat, offset: Option<nat>): Attempt {
    if i == 0 && offset == None then Answer(200, 3, None, Blob([], Timeout))
    else if i == 1 && offset == None then Answer(503, 15, None, Blob(Filler(15), CleanEof))
    else NoResponse
  }

  lemma LongPageFaithful()
    ensures AllFaithful(LongPageTunnel, R, false) && AllMeasured(LongPageTunnel, false)
  {
  }

  function LongHead(): string {
    ForwardHeader(LongPageTunnel(0, None).resp, false)
  }

  /** The progress of that run when `n` bytes are with the client. */
  function LongProgress(n: nat): Progress {
    Progress(true, n, 3, false, [], "", "", [])
  }

  lemma LongFirst()
    ensures var s := Attempted(Start(""), Silent, LongPageTunnel(0, None), false);
            s.out == Retry && s.next == LongProgress(0) && s.told == Saying(LongHead(), [])
  {
    BlobStep(LongProgress(0), Saying(LongHead(), []), [], Timeout);
  }

  lemma LongSecond()
    ensures var s := Attempted(LongProgress(0), Saying(LongHead(), []), LongPageTunnel(1, None), false);
            && s.out == Done && s.next == LongProgress(15) && s.told == Saying(LongHead(), Filler(15))
    ensures !Fits(LongProgress(0), LongPageTunnel(1, None).resp, false)
  {
    BlobStep(LongProgress(0), Saying(LongHead(), []), Filler(15), CleanEof);
    assert [] + Filler(15) == Filler(15);
  }

  lemma LongAnnounces()
    ensures Announces(LongHead(), 3) && !Announces(LongHead(), 15)
  {
    hide ForwardHeader, Announces;
    var w: World := Literal(_ => []);
    ForwardHeaderFacts(w, LongPageTunnel(0, None).resp, false);
    assert w.says(LongHead(), 3);
    if Announces(LongHead(), 15) { AnnouncedOnce(LongHead(), 3, 15); }
  }

  /**
   The engine in that run: done, and the connection is to be reused, with fifteen bytes under a head that
   announces three, so that the rest of the page reads as the next response.
   */
  method SendsTooMuch(client: Client, cache: AssetCache) returns (out: Outcome, reusable: bool)
    requires cache.Valid() && client.ok && client.log == []
    modifies client`log, client`ok, cache
    ensures AllFaithful(LongPageTunnel, R, false)
    ensures client.ok ==>
              && out == Done && reusable && Seen(client.log) == Saying(LongHead(), Filler(15))
              && Announces(LongHead(), 3) && !Announces(LongHead(), 15)
  {
    LongPageFaithful();
    LongAnnounces();
    var st := new ForwardState("");
    var ups := new Tunnels(LongPageTunnel);
    var answer;
    LongFirst();
    out, answer := ForwardOnce(client, cache, st, ups, false);
    if !client.ok {
      return Abort, false;
    }
    LongSecond();
    out, answer := ForwardOnce(client, cache, st, ups, false);
    reusable := out == Done && !st.closeAfter;
  }

  lemma LongPageCourse()
    ensures var c := CourseOf(LongPageTunnel, false, true, Start(""), Silent);
            && c.end == Finished && |c.legs| == 2
            && c.legs[1].step.told == Saying(LongHead(), Filler(15)) && c.legs[1].step.next == LongProgress(15)
  {
    hide Attempted;
    LongFirst();
    LongSecond();
    CourseNext(LongPageTunnel, false, true, Start(""), Silent, 0, 0);
    CourseNext(LongPageTunnel, false, true, LongProgress(0), Saying(LongHead(), []), 1, 1);
  }

  /** Over all runs, a connection is reused only after a body of the announced length exactly if the test is imposed. */
  lemma FramedIffTested(tested: bool)
    ensures AlwaysFramed(tested) <==> tested
  {
    hide CourseFrom, AllFit;
    forall w: World, tunnel: Upstream, head: bool, canRetry: bool, key: string |
      Honest(w) && AllMeasured(tunnel, head) && AllFit(CourseOf(tunnel, head, canRetry, Start(key), Silent).legs, head)
      ensures EndsFramed(w, CourseOf(tunnel, head, canRetry, Start(key), Silent))
    {
      FramedCourse(w, tunnel, head, canRetry, Start(key), Silent, 0, 0);
    }
    LongPageFaithful();
    LongPageCourse();
    var w: World := Literal(_ => []);
    assert Honest(w) && AllMeasured(LongPageTunnel, false);
    assert !EndsFramed(w, CourseOf(LongPageTunnel, false, true, Start(""), Silent));
  }
}
