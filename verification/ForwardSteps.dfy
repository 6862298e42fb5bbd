/**
 What one upstream attempt does to the progress of a request, to the client and to the cache, as a
 function of whatever the upstream answers. Nothing is assumed about the answer here.
 */
module ForwardSteps {
  import opened Basics
  import opened HeaderText
  import opened AssetCache
  import opened ForwardModel

  const BUFFERED_MAX: nat := 8 * 1024 * 1024

  const RESUME_ATTEMPTS: nat := 8

  const MAX_ATTEMPTS: nat := 64

  datatype Outcome = Done | Retry | Abort

  // ---------------------------------------------------------------- heads

  /** Lines that are never passed on: the proxy manages its own connection to the client. */
  predicate HopByHop(line: string) {
    IsConnection(line) || Named(line, "keep-alive:") || Named(line, "proxy-authenticate:") ||
    Named(line, "proxy-connection:") || Named(line, "te:") || Named(line, "trailer:") ||
    Named(line, "transfer-encoding:") || Named(line, "upgrade:")
  }

  function EndToEnd(fields: seq<string>): seq<string> {
    Filter(fields, l => !HopByHop(l))
  }

  function WithoutContentRange(fields: seq<string>): seq<string> {
    Filter(fields, l => !Named(l, "content-range:"))
  }

  /** The status a reframed response shows. */
  function ReframedStatus(status: nat): nat {
    if status == 206 then 200 else status
  }

  /** The head of a streamed answer: the origin's status and fields with the proxy's own connection line. */
  function ForwardHeader(resp: Response, closeAfter: bool): string {
    ResponseHead(resp.status, EndToEnd(resp.fields), resp.length, closeAfter)
  }

  /** The head of a buffered answer: a resumed 206 becomes the 200 it completes, and the length is explicit. */
  function ReframedHeader(resp: Response, bodyLen: nat): string {
    ResponseHead(ReframedStatus(resp.status), WithoutContentRange(EndToEnd(resp.fields)), Some(bodyLen), false)
  }

  /** What a captured body is committed as. */
  function Committed(header: string, body: Bytes): CachedResponse {
    CachedResponse(Normalized(header, |body|), body, false)
  }

  // ---------------------------------------------------------------- progress

  /** The fields that carry a request from one attempt to the next. */
  datatype Progress = Progress(
    headerSent: bool, relayed: nat, total: int, closeAfter: bool, pending: Bytes,
    cacheKey: string, header: string, buf: Bytes)

  function Start(cacheKey: string): Progress {
    Progress(false, 0, -1, false, [], cacheKey, "", [])
  }

  /** Bytes of the response held so far, relayed or buffered. */
  function Held(p: Progress): nat {
    p.relayed + |p.pending|
  }

  /** The Range the next attempt asks for: what comes after the bytes already held. */
  function NextRange(p: Progress): Option<nat> {
    if p.headerSent then (if p.relayed > 0 then Some(p.relayed) else None)
    else (if p.pending != [] then Some(|p.pending|) else None)
  }

  /**
   An attempt's effect while the client listens: the progress after it, the outcome, what the client
   was told, and what is stored. A client that breaks off leaves part of `brought` relayed on `base`.
   */
  datatype Step = Step(
    next: Progress, out: Outcome, told: Told, commit: Option<CacheOp>, base: Progress, brought: Bytes)

  /** An attempt that leaves the progress alone. */
  function Idle(p: Progress, out: Outcome, told: Told): Step {
    Step(p, out, told, None, p, [])
  }

  // ---------------------------------------------------------------- streaming a known length

  /** Relayed bytes are counted and captured; a capture that outgrows the cache's bound is given up. */
  function Relay(p: Progress, more: Bytes): Progress {
    if p.cacheKey == "" || more == [] then p.(relayed := p.relayed + |more|)
    else if |p.buf| + |more| > MAX_OBJECT then p.(relayed := p.relayed + |more|, cacheKey := "", buf := [])
    else p.(relayed := p.relayed + |more|, buf := p.buf + more)
  }

  /** What an attempt does after a read error, given whether the body is complete. */
  function AfterError(err: ReadErr, complete: bool): Outcome {
    match err
    case UnexpectedEof => Retry // cut mid-chunk, whatever the known length
    case CleanEof => if complete then Done else Retry
    case Timeout => Retry
    case OtherErr => Abort
  }

  function RelayedAt(p: Progress, b: Body, skip: nat, i: nat): nat {
    p.relayed + |Fresh(b, skip, i)|
  }

  /** After how many reads streaming stops, from read `i` on, and how. */
  function StreamEnd(p: Progress, b: Body, skip: nat, i: nat): (nat, Outcome)
    decreases |b.chunks| - i
  {
    if p.total >= 0 && RelayedAt(p, b, skip, i) >= p.total then (i, Done)
    else if i >= |b.chunks| then
      (i + 1, AfterError(b.err, p.total < 0 || RelayedAt(p, b, skip, i + 1) >= p.total))
    else StreamEnd(p, b, skip, i + 1)
  }

  /** The commit of a complete capture: the key is used up. */
  function AfterCommit(p: Progress): Progress {
    if p.cacheKey == "" || p.header == "" then p else p.(cacheKey := "", buf := [])
  }

  function CommitOf(p: Progress): Option<CacheOp> {
    if p.cacheKey == "" || p.header == "" then None else Some(Put(p.cacheKey, Committed(p.header, p.buf)))
  }

  function Streamed(p: Progress, told: Told, b: Body, skip: nat): Step {
    var (n, out) := StreamEnd(p, b, skip, 0);
    var more := Fresh(b, skip, n);
    var q := Relay(p, more);
    if out == Done then Step(AfterCommit(q), Done, Say(told, more), CommitOf(q), p, more)
    else Step(q, out, Say(told, more), None, p, more)
  }

  /** The progress once the head of a first answer is out: only a plain 200 of bounded size is captured. */
  function Started(p: Progress, resp: Response): Progress {
    var q := p.(headerSent := true, closeAfter := false);
    if p.cacheKey == "" then q
    else if resp.status == 200 && p.total <= MAX_OBJECT then q.(header := ForwardHeader(resp, false))
    else q.(cacheKey := "")
  }

  // ---------------------------------------------------------------- buffering an unknown length

  /** Why buffering stops: the body is complete, read `n` does not fit, or a read error ends the attempt. */
  datatype BufferEnd = Full(n: nat) | Overflow(n: nat) | Cut(n: nat, out: Outcome)

  function PendingAt(p: Progress, b: Body, skip: nat, i: nat): Bytes {
    p.pending + Fresh(b, skip, i)
  }

  /** Where buffering stops, from read `i` on. */
  function BufferStop(p: Progress, b: Body, skip: nat, i: nat): BufferEnd
    decreases |b.chunks| - i
  {
    if p.total >= 0 && |PendingAt(p, b, skip, i)| >= p.total then Full(i)
    else if |Fresh(b, skip, i + 1)| > |Fresh(b, skip, i)| && |PendingAt(p, b, skip, i + 1)| > BUFFERED_MAX then
      Overflow(i)
    else if i >= |b.chunks| then
      var out := AfterError(b.err, p.total < 0 || |PendingAt(p, b, skip, i + 1)| >= p.total);
      if out == Done then Full(i + 1) else Cut(i + 1, out)
    else BufferStop(p, b, skip, i + 1)
  }

  function CutTo(body: Bytes, total: int): Bytes {
    if 0 <= total < |body| then body[..total] else body
  }

  /** The buffered body under one head with its length, captured when it shows a 200 of bounded size. */
  function Finish(p: Progress, resp: Response, buffered: Bytes): Step {
    var body := CutTo(buffered, p.total);
    var hdr := ReframedHeader(resp, |body|);
    var q := p.(headerSent := true, relayed := |body|, total := |body|, closeAfter := false, pending := []);
    if p.cacheKey != "" && ReframedStatus(resp.status) == 200 && |body| <= MAX_OBJECT then
      var r := q.(header := hdr, buf := body);
      Step(AfterCommit(r), Done, Saying(hdr, body), CommitOf(r), p, [])
    else Step(q.(cacheKey := ""), Done, Saying(hdr, body), None, p, [])
  }

  /** A body that outgrew the buffer, flushed up to its end under a closing head: no cache, no resume. */
  function Flush(p: Progress, resp: Response, skip: nat, n: nat): Step {
    var all := PendingAt(p, resp.body, skip, |resp.body.chunks| + 1);
    Step(p.(headerSent := true, relayed := |PendingAt(p, resp.body, skip, n + 1)|, total := -1,
            closeAfter := true, pending := [], cacheKey := ""),
         if resp.body.err == CleanEof then Done else Abort, Saying(ForwardHeader(resp, true), all), None, p, [])
  }

  function Buffered(p: Progress, resp: Response, skip: nat): Step {
    match BufferStop(p, resp.body, skip, 0)
    case Full(n) => Finish(p, resp, PendingAt(p, resp.body, skip, n))
    case Overflow(n) => Flush(p, resp, skip, n)
    case Cut(n, out) => Idle(p.(pending := PendingAt(p, resp.body, skip, n)), out, Silent)
  }

  // ---------------------------------------------------------------- one attempt

  /** An answer to a Range that can be spliced at `offset`. */
  predicate Spliceable(resp: Response, offset: nat) {
    resp.status == 200 || (resp.status == 206 && resp.range.Some? && resp.range.value.start == offset)
  }

  /** Whether an answer is taken: what was asked for without a Range always is. */
  predicate Accepts(p: Progress, resp: Response) {
    NextRange(p).Some? ==> Spliceable(resp, NextRange(p).value)
  }

  /** What a known length makes of the body, whatever the header says. */
  function AnnouncedTotal(resp: Response, head: bool): int {
    if Bodyless(head, resp.status) then 0 else if resp.length.Some? then resp.length.value else -1
  }

  /** The bytes at the front of an accepted answer that are held already. */
  function SkipOf(p: Progress, resp: Response): nat {
    if NextRange(p).Some? && resp.status == 200 then NextRange(p).value else 0
  }

  /** A resumed 206 teaches the total when it is not known yet. */
  function Learned(p: Progress, resp: Response): Progress {
    if NextRange(p).Some? && resp.status == 206 && p.total < 0 && resp.range.Some? && resp.range.value.total.Some?
    then p.(total := resp.range.value.total.value) else p
  }

  function Taken(p: Progress, told: Told, resp: Response, skip: nat, head: bool): Step {
    if p.headerSent then Streamed(p, told, resp.body, skip)
    else
      var q := if p.pending == [] then p.(total := AnnouncedTotal(resp, head)) else p;
      if q.total < 0 || q.pending != [] then Buffered(q, resp, skip)
      else Streamed(Started(q, resp), Saying(ForwardHeader(resp, false), []), resp.body, skip)
  }

  /** One attempt, as long as the client takes what it is given. */
  function Attempted(p: Progress, told: Told, a: Attempt, head: bool): Step {
    match a
    case DialFailed(retryable) =>
      if p.headerSent then Idle(p, Abort, told)
      else if retryable then Idle(p, Retry, told)
      else Idle(p, Abort, Refused)
    case NoResponse => Idle(p, Retry, told)
    case Answered(resp) =>
      if !Accepts(p, resp) then Idle(p, Abort, told)
      else Taken(Learned(p, resp), told, resp, SkipOf(p, resp), head)
  }

  /** Progress and client agree: a head was sent or nothing was, and streaming and buffering do not mix. */
  predicate Tidy(p: Progress, told: Told) {
    if p.headerSent then told.Saying? && p.pending == [] else told.Silent? && p.header == "" && p.relayed == 0
  }

  /** Only a finished attempt commits. */
  lemma StreamedCommits(p: Progress, told: Told, b: Body, skip: nat)
    ensures var s := Streamed(p, told, b, skip); s.commit.Some? ==> s.out == Done
  {
  }

  lemma BufferedCommits(p: Progress, resp: Response, skip: nat)
    ensures var s := Buffered(p, resp, skip); s.commit.Some? ==> s.out == Done
  {
  }

  lemma CommitsWhenDone(p: Progress, told: Told, a: Attempt, head: bool)
    ensures var s := Attempted(p, told, a, head); s.commit.Some? ==> s.out == Done
  {
    hide Streamed, Buffered, Accepts;
    if a.Answered? {
      var q, skip := Learned(p, a.resp), SkipOf(p, a.resp);
      var r := if q.pending == [] then q.(total := AnnouncedTotal(a.resp, head)) else q;
      StreamedCommits(q, told, a.resp.body, skip);
      StreamedCommits(Started(r, a.resp), Saying(ForwardHeader(a.resp, false), []), a.resp.body, skip);
      BufferedCommits(r, a.resp, skip);
    }
  }

  lemma StreamedTidy(p: Progress, told: Told, b: Body, skip: nat)
    requires p.headerSent && Tidy(p, told)
    ensures var s := Streamed(p, told, b, skip); p.relayed <= s.next.relayed && Tidy(s.next, s.told)
  {
  }

  lemma BufferedTidy(p: Progress, resp: Response, skip: nat)
    requires !p.headerSent && Tidy(p, Silent)
    ensures var s := Buffered(p, resp, skip);
            s.out == Retry ==> Held(p) <= Held(s.next) && Tidy(s.next, s.told)
  {
  }

  lemma TakenTidy(p: Progress, told: Told, resp: Response, skip: nat, head: bool)
    requires Tidy(p, told)
    ensures var s := Taken(p, told, resp, skip, head);
            s.out == Retry ==> Held(p) <= Held(s.next) && Tidy(s.next, s.told)
  {
    if p.headerSent {
      StreamedTidy(p, told, resp.body, skip);
    } else {
      var q := if p.pending == [] then p.(total := AnnouncedTotal(resp, head)) else p;
      if q.total < 0 || q.pending != [] {
        BufferedTidy(q, resp, skip);
      } else {
        StreamedTidy(Started(q, resp), Saying(ForwardHeader(resp, false), []), resp.body, skip);
      }
    }
  }

  /**
   Whatever an upstream does, another attempt starts with no less than was held, and from a state in
   which streaming and buffering do not mix.
   */
  lemma HeldGrows(p: Progress, told: Told, a: Attempt, head: bool)
    requires Tidy(p, told)
    ensures var s := Attempted(p, told, a, head);
            s.out == Retry ==> Held(p) <= Held(s.next) && Tidy(s.next, s.told)
  {
    if a.Answered? && Accepts(p, a.resp) {
      TakenTidy(Learned(p, a.resp), told, a.resp, SkipOf(p, a.resp), head);
    }
  }

  // ---------------------------------------------------------------- one key

  /** A step keeps to the key of the request or gives it up, and commits under no other. */
  predicate KeepsKey(s: Step, key: string) {
    && (s.next.cacheKey == key || s.next.cacheKey == "")
    && (s.base.cacheKey == key || s.base.cacheKey == "")
    && (s.commit.Some? ==> key != "" && s.commit.value.Put? && s.commit.value.key == key)
  }

  lemma StreamedKeepsKey(p: Progress, told: Told, b: Body, skip: nat, key: string)
    requires p.cacheKey == key || p.cacheKey == ""
    ensures KeepsKey(Streamed(p, told, b, skip), key)
  {
  }

  lemma BufferedKeepsKey(p: Progress, resp: Response, skip: nat)
    ensures KeepsKey(Buffered(p, resp, skip), p.cacheKey)
  {
  }

  lemma AttemptKeepsKey(p: Progress, told: Told, a: Attempt, head: bool)
    ensures KeepsKey(Attempted(p, told, a, head), p.cacheKey)
  {
    hide Streamed, Buffered, Accepts, AnnouncedTotal;
    if a.Answered? {
      var q, skip := Learned(p, a.resp), SkipOf(p, a.resp);
      var r := if q.pending == [] then q.(total := AnnouncedTotal(a.resp, head)) else q;
      StreamedKeepsKey(q, told, a.resp.body, skip, p.cacheKey);
      StreamedKeepsKey(Started(r, a.resp), Saying(ForwardHeader(a.resp, false), []), a.resp.body, skip, p.cacheKey);
      BufferedKeepsKey(r, a.resp, skip);
    }
  }

  /** The Range asked for begins after what is held, if anything is. */
  lemma RangeIsHeld(p: Progress, told: Told)
    requires Tidy(p, told)
    ensures NextRange(p) == if Held(p) > 0 then Some(Held(p)) else None
  {
  }

  // ---------------------------------------------------------------- what is stored is what was told

  /** What is captured is the head and all of the body that the client was told. */
  predicate Captured(p: Progress, told: Told) {
    if !p.headerSent then p.buf == []
    else p.cacheKey != "" && p.header != "" ==> told.Saying? && p.header == told.head && p.buf == told.body
  }

  /** A commit stores what the client was told: its head, with the framing of the body, and the body. */
  predicate CommitsTold(s: Step) {
    s.commit.Some? ==>
      && s.told.Saying? && s.commit.value.Put?
      && s.commit.value.resp == CachedResponse(Normalized(s.told.head, |s.told.body|), s.told.body, false)
  }

  lemma StreamedTellsStored(p: Progress, told: Told, b: Body, skip: nat)
    requires p.headerSent && told.Saying? && Captured(p, told)
    ensures var s := Streamed(p, told, b, skip); CommitsTold(s) && Captured(s.next, s.told) && s.next.headerSent
  {
    assert told.body + [] == told.body;
  }

  lemma BufferedTellsStored(p: Progress, resp: Response, skip: nat)
    requires !p.headerSent
    ensures var s := Buffered(p, resp, skip);
            CommitsTold(s) && (s.out == Retry ==> !s.next.headerSent && s.next.buf == p.buf)
  {
  }

  /**
   Whatever the upstream answers: what is committed, and what may be saved after another attempt is asked
   for, is the head and the body that the client was told.
   */
  lemma StoresWhatWasTold(p: Progress, told: Told, a: Attempt, head: bool)
    requires Tidy(p, told) && Captured(p, told)
    ensures var s := Attempted(p, told, a, head);
            && CommitsTold(s)
            && (s.out == Retry ==> Captured(s.next, s.told))
            && (s.out == Retry && PartialOf(s.next).Some? ==>
                  && s.told.Saying?
                  && PartialOf(s.next).value.prefix.header == s.told.head
                  && PartialOf(s.next).value.prefix.body == s.told.body)
  {
    hide Streamed, Buffered, Accepts, ForwardHeader;
    HeldGrows(p, told, a, head);
    if a.Answered? && Accepts(p, a.resp) {
      TakenTellsStored(Learned(p, a.resp), told, a.resp, SkipOf(p, a.resp), head);
    }
  }

  lemma TakenTellsStored(p: Progress, told: Told, resp: Response, skip: nat, head: bool)
    requires Tidy(p, told) && Captured(p, told)
    ensures var s := Taken(p, told, resp, skip, head); CommitsTold(s) && (s.out == Retry ==> Captured(s.next, s.told))
  {
    hide Streamed, Buffered, AnnouncedTotal;
    if p.headerSent {
      StreamedTellsStored(p, told, resp.body, skip);
    } else {
      var q := if p.pending == [] then p.(total := AnnouncedTotal(resp, head)) else p;
      if q.total < 0 || q.pending != [] {
        BufferedTellsStored(q, resp, skip);
      } else {
        StartedCaptures(q, resp);
        StreamedTellsStored(Started(q, resp), Saying(ForwardHeader(resp, false), []), resp.body, skip);
      }
    }
  }

  lemma StartedCaptures(p: Progress, resp: Response)
    requires p.buf == [] && p.header == ""
    ensures Captured(Started(p, resp), Saying(ForwardHeader(resp, false), []))
  {
  }

  // ---------------------------------------------------------------- bounds of the buffer

  /** Nothing was added, or no more than fits. */
  ghost predicate Fitting(p: Progress, b: Body, skip: nat, i: nat) {
    Fresh(b, skip, i) == [] || |PendingAt(p, b, skip, i)| <= 8 * 1024 * 1024
  }

  lemma FittingNext(p: Progress, b: Body, skip: nat, i: nat)
    requires Fitting(p, b, skip, i)
    requires !(|Fresh(b, skip, i + 1)| > |Fresh(b, skip, i)| && |PendingAt(p, b, skip, i + 1)| > BUFFERED_MAX)
    ensures Fitting(p, b, skip, i + 1)
  {
  }

  lemma {:induction false} BufferStopBound(p: Progress, b: Body, skip: nat, i: nat)
    requires i <= |b.chunks| && Fitting(p, b, skip, i)
    ensures match BufferStop(p, b, skip, i)
            case Full(n) => Fitting(p, b, skip, n) && (p.total >= 0 ==> |PendingAt(p, b, skip, n)| >= p.total)
            case Overflow(n) => |PendingAt(p, b, skip, n + 1)| > 8 * 1024 * 1024 && n <= |b.chunks|
            case Cut(n, out) => Fitting(p, b, skip, n) && out != Done
    decreases |b.chunks| - i
  {
    hide Fresh, Fitting, PendingAt;
    if p.total >= 0 && |PendingAt(p, b, skip, i)| >= p.total {
    } else if |Fresh(b, skip, i + 1)| > |Fresh(b, skip, i)| && |PendingAt(p, b, skip, i + 1)| > BUFFERED_MAX {
    } else {
      FittingNext(p, b, skip, i);
      if i < |b.chunks| { BufferStopBound(p, b, skip, i + 1); }
    }
  }

  /**
   A buffer never grows beyond eight megabytes; more than that is flushed and nothing less; and a buffered
   body that is done is exactly as long as a known total.
   */
  lemma BufferBounds(p: Progress, resp: Response, skip: nat)
    requires !p.closeAfter
    ensures var s := Buffered(p, resp, skip);
            && (s.out == Retry ==> s.next.pending == p.pending || |s.next.pending| <= 8 * 1024 * 1024)
            && (s.next.closeAfter ==> s.told.Saying? && |s.told.body| > 8 * 1024 * 1024)
            && (s.out == Done && !s.next.closeAfter && p.total >= 0 ==> s.told.Saying? && |s.told.body| == p.total)
  {
    hide Fresh, ForwardHeader, ReframedHeader;
    FreshFirst(resp.body, skip);
    BufferStopBound(p, resp.body, skip, 0);
    match BufferStop(p, resp.body, skip, 0)
    case Overflow(n) => FreshGrows(resp.body, skip, n + 1, |resp.body.chunks| + 1);
    case Full(_) => BufferStopMeans(p, resp.body, skip, 0);
    case Cut(n, _) =>
      BufferStopMeans(p, resp.body, skip, 0);
      assert Fresh(resp.body, skip, n) == [] ==> p.pending + [] == p.pending;
  }

  /** A response that has no body, by its method or its status, is done with its head. */
  lemma NoBodyIsDone(p: Progress, resp: Response, head: bool)
    requires !p.headerSent && p.pending == [] && p.relayed == 0
    requires head || resp.status == 204 || resp.status == 304 || resp.status < 200
    ensures var s := Attempted(p, Silent, Answered(resp), head);
            s.out == Done && s.told == Saying(ForwardHeader(resp, false), []) && !s.next.closeAfter
  {
    var q := p.(total := 0);
    FreshFirst(resp.body, 0);
    assert StreamEnd(Started(q, resp), resp.body, 0, 0) == (0, Done);
  }

  // ---------------------------------------------------------------- streaming at a known length

  /** Once the head is out the length is known and the connection is not to be closed. */
  predicate Settled(p: Progress) {
    !p.closeAfter && (p.headerSent ==> p.total >= 0)
  }

  /** What is saved of an interrupted transfer, if anything was captured. */
  function PartialOf(p: Progress): Option<CacheOp> {
    if p.cacheKey == "" || p.header == "" || p.buf == [] then None
    else Some(PutPartial(p.cacheKey, PartialAsset(p.header, p.buf, p.total, p.closeAfter)))
  }

  /** A prefix worth resuming from: its total is known and the connection it goes to need not be closed. */
  predicate SettledStore(op: Option<CacheOp>) {
    op.Some? && op.value.PutPartial? ==> op.value.prefix.total >= 0 && !op.value.prefix.closeAfter
  }

  /** Where the progress may be left by a client that breaks off while `more` is relayed. */
  ghost predicate Partway(v: Progress, p: Progress, more: Bytes) {
    exists k :: 0 <= k <= |more| && v == Relay(p, more[..k])
  }

  lemma StreamedSettles(p: Progress, told: Told, b: Body, skip: nat)
    requires p.headerSent && Settled(p)
    ensures var s := Streamed(p, told, b, skip);
            Settled(s.next) && s.next.headerSent && Settled(s.base) && s.base.headerSent
  {
  }

  lemma BufferedSettles(p: Progress, resp: Response, skip: nat)
    requires !p.headerSent && p.header == "" && Settled(p)
    ensures var s := Buffered(p, resp, skip);
            && s.base.header == "" && s.brought == []
            && (s.out == Retry ==> Settled(s.next)) && SettledStore(PartialOf(s.next))
  {
  }

  /**
   An answer is streamed only at a known total, so the clean end of an unknown length never ends a
   stream; everything else is buffered.
   */
  lemma StreamsKnownTotal(p: Progress, told: Told, resp: Response, skip: nat, head: bool)
    requires Settled(p)
    ensures var q := if p.pending == [] then p.(total := AnnouncedTotal(resp, head)) else p;
            var s := Started(q, resp);
            if p.headerSent then p.total >= 0 && Taken(p, told, resp, skip, head) == Streamed(p, told, resp.body, skip)
            else if p.pending == [] && AnnouncedTotal(resp, head) >= 0 then
              && s.total >= 0
              && Taken(p, told, resp, skip, head) ==
                 Streamed(s, Saying(ForwardHeader(resp, false), []), resp.body, skip)
            else Taken(p, told, resp, skip, head) == Buffered(q, resp, skip)
  {
  }

  /**
   Whatever the upstream answers: the length stays known from the head on, and whatever may be saved of
   the transfer, also when the client breaks off anywhere, has a known total.
   */
  lemma StaysSettled(p: Progress, told: Told, a: Attempt, head: bool)
    requires Tidy(p, told) && Settled(p)
    ensures var s := Attempted(p, told, a, head);
            && (s.out == Retry ==> Settled(s.next))
            && SettledStore(PartialOf(s.next))
            && (forall v :: Partway(v, s.base, s.brought) ==> SettledStore(PartialOf(v)))
  {
    hide Streamed, Buffered, Accepts, Taken;
    if a.Answered? && Accepts(p, a.resp) {
      var q := Learned(p, a.resp);
      TakenSettles(q, told, a.resp, SkipOf(p, a.resp), head);
    }
  }

  lemma TakenSettles(p: Progress, told: Told, resp: Response, skip: nat, head: bool)
    requires (!p.headerSent ==> p.header == "") && Settled(p)
    ensures var s := Taken(p, told, resp, skip, head);
            && (s.out == Retry ==> Settled(s.next))
            && SettledStore(PartialOf(s.next))
            && (forall v :: Partway(v, s.base, s.brought) ==> SettledStore(PartialOf(v)))
  {
    hide Streamed, Buffered, AnnouncedTotal;
    if p.headerSent {
      StreamedSettles(p, told, resp.body, skip);
    } else {
      var q := if p.pending == [] then p.(total := AnnouncedTotal(resp, head)) else p;
      if q.total < 0 || q.pending != [] {
        BufferedSettles(q, resp, skip);
      } else {
        StreamedSettles(Started(q, resp), Saying(ForwardHeader(resp, false), []), resp.body, skip);
      }
    }
  }

  // ---------------------------------------------------------------- what an outcome means

  /**
   A body that asks for another attempt: everything it brought is held, its error is one that can be
   resumed after, and something is missing, which a known `total` would have told before the error.
   */
  ghost predicate CutShort(b: Body, skip: nat, before: nat, held: nat, total: int) {
    && held == before + |Fresh(b, skip, |b.chunks| + 1)|
    && b.err != OtherErr && (b.err == CleanEof ==> 0 <= held < total)
    && (total >= 0 ==> before + |Fresh(b, skip, |b.chunks|)| < total)
  }

  lemma {:induction false} StreamEndMeans(p: Progress, b: Body, skip: nat, i: nat)
    requires i <= |b.chunks|
    ensures var (n, out) := StreamEnd(p, b, skip, i);
            && (out == Retry ==> n == |b.chunks| + 1 && CutShort(b, skip, p.relayed, RelayedAt(p, b, skip, n), p.total))
            && (out == Abort ==> b.err == OtherErr)
    decreases |b.chunks| - i
  {
    hide Fresh;
    if !(p.total >= 0 && RelayedAt(p, b, skip, i) >= p.total) && i < |b.chunks| {
      StreamEndMeans(p, b, skip, i + 1);
    }
  }

  lemma {:induction false} BufferStopMeans(p: Progress, b: Body, skip: nat, i: nat)
    requires i <= |b.chunks|
    ensures var end := BufferStop(p, b, skip, i);
            end.Cut? ==>
              && end.n == |b.chunks| + 1 && (end.out == Abort ==> b.err == OtherErr)
              && (end.out == Retry ==> CutShort(b, skip, |p.pending|, |PendingAt(p, b, skip, end.n)|, p.total))
    decreases |b.chunks| - i
  {
    if BufferStop(p, b, skip, i).Cut? && i < |b.chunks| {
      BufferStopMeans(p, b, skip, i + 1);
    }
  }

  lemma StreamedMeans(p: Progress, told: Told, b: Body, skip: nat)
    ensures var s := Streamed(p, told, b, skip);
            && (s.out == Retry ==> CutShort(b, skip, p.relayed, s.next.relayed, p.total) && s.next.total == p.total)
            && (s.out == Abort ==> b.err == OtherErr)
  {
    StreamEndMeans(p, b, skip, 0);
  }

  lemma BufferedMeans(p: Progress, resp: Response, skip: nat)
    ensures var s := Buffered(p, resp, skip);
            && (s.out == Retry ==>
                  && CutShort(resp.body, skip, |p.pending|, |s.next.pending|, p.total)
                  && s.next == p.(pending := s.next.pending))
            && (s.out == Abort ==> resp.body.err == OtherErr || s.next.closeAfter)
  {
    BufferStopMeans(p, resp.body, skip, 0);
  }

  lemma TakenMeans(p: Progress, told: Told, resp: Response, skip: nat, head: bool)
    requires Tidy(p, told)
    ensures var s := Taken(p, told, resp, skip, head);
            && (s.out == Retry ==> CutShort(resp.body, skip, Held(p), Held(s.next), s.next.total))
            && (s.out == Abort ==> resp.body.err == OtherErr || s.next.closeAfter)
  {
    TakenTidy(p, told, resp, skip, head);
    if p.headerSent {
      StreamedMeans(p, told, resp.body, skip);
    } else {
      var q := if p.pending == [] then p.(total := AnnouncedTotal(resp, head)) else p;
      if q.total < 0 || q.pending != [] {
        BufferedMeans(q, resp, skip);
      } else {
        StreamedMeans(Started(q, resp), Saying(ForwardHeader(resp, false), []), resp.body, skip);
      }
    }
  }

  /** Why an attempt asks for another one: it brought nothing, or a body that was cut short. */
  ghost predicate AsksAgain(p: Progress, a: Attempt, next: Progress) {
    match a
    case DialFailed(retryable) => retryable && !p.headerSent && next == p
    case NoResponse => next == p
    case Answered(resp) =>
      Accepts(p, resp) && CutShort(resp.body, SkipOf(p, resp), Held(p), Held(next), next.total)
  }

  /** Why an attempt gives up although the client still listens. */
  ghost predicate GivesUp(p: Progress, a: Attempt, next: Progress) {
    match a
    case DialFailed(retryable) => p.headerSent || !retryable
    case NoResponse => false
    case Answered(resp) => !Accepts(p, resp) || resp.body.err == OtherErr || next.closeAfter
  }

  /**
   Whatever the upstream does: another attempt is asked for only when something is missing, and
   then all that arrived is held.
   */
  lemma OutcomeMeans(p: Progress, told: Told, a: Attempt, head: bool)
    requires Tidy(p, told)
    ensures var s := Attempted(p, told, a, head);
            (s.out == Retry ==> AsksAgain(p, a, s.next)) && (s.out == Abort ==> GivesUp(p, a, s.next))
  {
    if a.Answered? && Accepts(p, a.resp) {
      TakenMeans(Learned(p, a.resp), told, a.resp, SkipOf(p, a.resp), head);
    }
  }
}
