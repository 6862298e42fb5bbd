/**
 The forward-resume engine: one client response spliced out of as many upstream attempts as it
 takes, either streamed at a known length or buffered and reframed when the length is unknown.
 While the client listens every operation does exactly what `ForwardSteps` says; when the client
 breaks off, it does part of it and gives up.
 */
module Forward {
  import opened Basics
  import opened HeaderText
  import opened AssetCache
  import opened ForwardModel
  import opened ForwardSteps
  import opened Heads

  /** Progress of one request across its attempts. */
  class ForwardState {
    var headerSent: bool
    var relayed: nat
    var total: int
    var closeAfter: bool
    var pending: Bytes
    var cacheKey: string
    var header: string
    var buf: Bytes

    constructor (cacheKey: string)
      ensures View() == Start(cacheKey)
    {
      headerSent, relayed, total, closeAfter := false, 0, -1, false;
      pending, this.cacheKey, header, buf := [], cacheKey, "", [];
    }

    function View(): Progress
      reads this
    {
      Progress(headerSent, relayed, total, closeAfter, pending, cacheKey, header, buf)
    }
  }

  /** What a commit makes of the cache. */
  function Applied(budget: nat, s: CacheState, op: Option<CacheOp>): CacheState {
    if op.Some? && op.value.Put? then AfterPut(budget, s, op.value.key, op.value.resp) else s
  }

  /** The client was told a head if and only if the progress says so. */
  ghost predicate InStep(client: Client, st: ForwardState)
    reads client, st
  {
    Trace(client.log) && Tidy(st.View(), Seen(client.log))
  }

  /**
   An operation did what a step says: all of it when the client still listens, otherwise some of it, and
   what is captured is then no more than the step would have captured.
   */
  ghost predicate Follows(
    s: Step, out: Outcome, client: Client, st: ForwardState, cache: AssetCache, before: CacheState)
    reads client, st, cache
  {
    if client.ok then
      && out == s.out && st.View() == s.next && Seen(client.log) == s.told
      && cache.State() == Applied(cache.budget, before, s.commit)
    else
      && out == Abort && cache.State() == before && CutOff(Seen(client.log), s.told)
      && (PartialOf(st.View()).None? || Partway(st.View(), s.base, s.brought))
  }

  // ---------------------------------------------------------------- cache hooks

  /**
   What was captured of a cacheable transfer is there for the next request: in a prefix no shorter,
   or in a complete entry.
   */
  ghost predicate Kept(p: Progress, s: CacheState) {
    p.cacheKey != "" && p.header != "" && 0 < |p.buf| <= MAX_OBJECT ==>
      || Listed(s.order, p.cacheKey)
      || (p.cacheKey in s.partials && |p.buf| <= |s.partials[p.cacheKey].body|)
  }

  method SavePartial(st: ForwardState, cache: AssetCache)
    requires cache.Valid()
    modifies cache
    ensures cache.Valid()
    ensures var op := PartialOf(st.View());
            if op.Some? then CacheStep(cache.budget, old(cache.State()), op.value, cache.State())
            else cache.State() == old(cache.State())
    ensures Kept(st.View(), cache.State())
  {
    if st.cacheKey == "" || st.header == "" || |st.buf| == 0 {
      return;
    }
    cache.StorePartial(st.cacheKey, PartialAsset(st.header, st.buf, st.total, st.closeAfter));
  }

  /**
   Stores the captured body under a header rewritten to announce its exact length; called only when
   the body is complete.
   */
  method CommitAssetCache(st: ForwardState, cache: AssetCache)
    requires cache.Valid()
    modifies st`cacheKey, st`buf, cache
    ensures cache.Valid()
    ensures st.View() == AfterCommit(old(st.View()))
    ensures cache.State() == Applied(cache.budget, old(cache.State()), CommitOf(old(st.View())))
  {
    if st.cacheKey == "" || st.header == "" {
      return;
    }
    var header := NormalizeCachedHeader(st.header, |st.buf|);
    cache.Store(st.cacheKey, CachedResponse(header, st.buf, false));
    st.cacheKey, st.buf := "", [];
  }

  // ---------------------------------------------------------------- writing

  method SendBytes(client: Client, data: Bytes) returns (sent: bool)
    requires client.ok && Trace(client.log) && Seen(client.log).Saying?
    modifies client`log, client`ok
    ensures client.ok == sent && Trace(client.log) && Seen(client.log).Saying?
    ensures sent ==> Seen(client.log) == Say(old(Seen(client.log)), data)
    ensures CutOff(Seen(client.log), Say(old(Seen(client.log)), data))
    ensures old(Seen(client.log)).body <= Seen(client.log).body
  {
    ghost var before := client.log;
    sent := client.WriteData(data);
    ghost var k :| 0 <= k <= |data| && client.log == before + [Data(data[..k])];
    SeenData(before, data[..k]);
  }

  lemma NothingSaid()
    ensures Trace([]) && Seen([]) == Silent
  {
  }

  method SendHead(client: Client, text: string) returns (sent: bool)
    requires client.ok && client.log == []
    modifies client`log, client`ok
    ensures client.ok == sent && Trace(client.log)
    ensures Seen(client.log) == if sent then Saying(text, []) else Refused
  {
    sent := client.WriteHead(text);
    DeliveredByOne(client.log[0]);
  }

  // ---------------------------------------------------------------- streaming a known length

  lemma RelayAgain(p: Progress, a: Bytes, b: Bytes)
    ensures Relay(Relay(p, a), b) == Relay(p, a + b)
  {
    assert (p.buf + a) + b == p.buf + (a + b);
    assert a + [] == a && [] + b == b;
  }

  /** Relays one chunk and captures it. */
  method RelayChunk(client: Client, st: ForwardState, chunk: Bytes) returns (sent: bool)
    requires client.ok && Trace(client.log) && Seen(client.log).Saying? && chunk != []
    modifies client`log, client`ok, st`relayed, st`cacheKey, st`buf
    ensures client.ok == sent && Trace(client.log) && Seen(client.log).Saying?
    ensures CutOff(Seen(client.log), Say(old(Seen(client.log)), chunk))
    ensures old(Seen(client.log)).body <= Seen(client.log).body
    ensures sent ==> Seen(client.log) == Say(old(Seen(client.log)), chunk)
    ensures st.View() == if sent then Relay(old(st.View()), chunk) else old(st.View())
  {
    sent := SendBytes(client, chunk);
    if !sent {
      return;
    }
    st.relayed := st.relayed + |chunk|;
    if st.cacheKey != "" {
      if |st.buf| + |chunk| > MAX_OBJECT {
        st.cacheKey, st.buf := "", [];
      } else {
        st.buf := st.buf + chunk;
      }
    }
  }

  /** The data of one read, of which the first `skip` bytes are with the client already. */
  method RelayData(client: Client, st: ForwardState, data: Bytes, skip: nat) returns (sent: bool, left: nat)
    requires client.ok && Trace(client.log) && Seen(client.log).Saying?
    modifies client`log, client`ok, st`relayed, st`cacheKey, st`buf
    ensures client.ok == sent && Trace(client.log) && Seen(client.log).Saying?
    ensures left == skip - Min(skip, |data|)
    ensures CutOff(Seen(client.log), Say(old(Seen(client.log)), data[Min(skip, |data|)..]))
    ensures old(Seen(client.log)).body <= Seen(client.log).body
    ensures sent ==> Seen(client.log) == Say(old(Seen(client.log)), data[Min(skip, |data|)..])
    ensures st.View() == if sent then Relay(old(st.View()), data[Min(skip, |data|)..]) else old(st.View())
  {
    sent, left := true, skip;
    if |data| > 0 {
      var drop := Min(skip, |data|);
      var chunk := data[drop..];
      left := skip - drop;
      if |chunk| > 0 {
        sent := RelayChunk(client, st, chunk);
      }
    }
  }

  /** Streaming stops no earlier than where it has come, and not before the next read unless the body is complete. */
  lemma {:induction false} StreamEndLater(p: Progress, b: Body, skip: nat, i: nat)
    ensures i <= StreamEnd(p, b, skip, i).0
    ensures !(p.total >= 0 && RelayedAt(p, b, skip, i) >= p.total) ==> i + 1 <= StreamEnd(p, b, skip, i).0
    decreases |b.chunks| - i
  {
    if !(p.total >= 0 && RelayedAt(p, b, skip, i) >= p.total) && i < |b.chunks| {
      StreamEndLater(p, b, skip, i + 1);
    }
  }

  /** A client that breaks off during read `i` has at most what the whole stream would have brought. */
  lemma BrokenStream(p: Progress, told: Told, b: Body, skip: nat, i: nat, v: Progress, seen: Told)
    requires told.Saying? && v == Relay(p, Fresh(b, skip, i))
    requires CutOff(seen, Say(told, Fresh(b, skip, i + 1)))
    requires i + 1 <= StreamEnd(p, b, skip, 0).0
    ensures var more := Fresh(b, skip, StreamEnd(p, b, skip, 0).0);
            CutOff(seen, Say(told, more)) && Partway(v, p, more)
  {
    var n := StreamEnd(p, b, skip, 0).0;
    FreshGrows(b, skip, i, n);
    FreshGrows(b, skip, i + 1, n);
    var k := |Fresh(b, skip, i)|;
    assert Fresh(b, skip, n)[..k] == Fresh(b, skip, i);
  }

  /** The read loop: relays what the client does not have yet and captures it. */
  method StreamBody(client: Client, st: ForwardState, body: Body, skip0: nat) returns (out: Outcome)
    requires client.ok && Trace(client.log) && Seen(client.log).Saying?
    modifies client`log, client`ok, st`relayed, st`cacheKey, st`buf
    ensures Trace(client.log)
    ensures var (n, o) := StreamEnd(old(st.View()), body, skip0, 0);
            var more := Fresh(body, skip0, n);
            if client.ok then
              && out == o && st.View() == Relay(old(st.View()), more)
              && Seen(client.log) == Say(old(Seen(client.log)), more)
            else
              out == Abort && CutOff(Seen(client.log), Say(old(Seen(client.log)), more)) &&
              Partway(st.View(), old(st.View()), more)
  {
    ghost var p, told := st.View(), Seen(client.log);
    var i, skip := 0, skip0;
    FreshFirst(body, skip0);
    assert told.body + [] == told.body;
    while true
      invariant 0 <= i <= |body.chunks|
      invariant client.ok && Trace(client.log) && Seen(client.log) == Say(told, Fresh(body, skip0, i))
      invariant st.View() == Relay(p, Fresh(body, skip0, i)) && skip == Unskipped(body, skip0, i)
      invariant StreamEnd(p, body, skip0, 0) == StreamEnd(p, body, skip0, i)
      decreases |body.chunks| - i
    {
      if st.total >= 0 && st.relayed >= st.total {
        return Done;
      }
      StreamEndLater(p, body, skip0, i);
      FreshNext(body, skip0, i);
      var (data, err) := ReadAt(body, i);
      RelayAgain(p, Fresh(body, skip0, i), data[Min(skip, |data|)..]);
      var sent;
      sent, skip := RelayData(client, st, data, skip);
      SayAgain(told, Fresh(body, skip0, i), data[Min(Unskipped(body, skip0, i), |data|)..]);
      if !sent {
        BrokenStream(p, told, body, skip0, i, st.View(), Seen(client.log));
        return Abort;
      }
      if err.Some? {
        return AfterError(err.value, st.total < 0 || st.relayed >= st.total);
      }
      i := i + 1;
    }
  }

  lemma SayAgain(t: Told, a: Bytes, b: Bytes)
    ensures Say(Say(t, a), b) == Say(t, a + b)
  {
  }

  /** Streams a body; a complete one is committed. */
  method RelayForwardBody(client: Client, cache: AssetCache, st: ForwardState, body: Body, skip: nat)
    returns (out: Outcome)
    requires cache.Valid() && client.ok && Trace(client.log) && Seen(client.log).Saying?
    modifies client`log, client`ok, cache, st`relayed, st`cacheKey, st`buf
    ensures cache.Valid() && Trace(client.log)
    ensures Follows(Streamed(old(st.View()), old(Seen(client.log)), body, skip),
                    out, client, st, cache, old(cache.State()))
  {
    out := StreamBody(client, st, body, skip);
    if out == Done {
      CommitAssetCache(st, cache);
    }
  }

  // ---------------------------------------------------------------- buffering an unknown length

  /** Buffers the data of one read, of which the first `skip` bytes are held already, if it fits. */
  method HoldData(st: ForwardState, data: Bytes, skip: nat) returns (chunk: Bytes, fits: bool, left: nat)
    modifies st`pending
    ensures chunk == data[Min(skip, |data|)..] && left == skip - Min(skip, |data|)
    ensures fits <==> chunk == [] || |old(st.pending)| + |chunk| <= BUFFERED_MAX
    ensures st.pending == if fits then old(st.pending) + chunk else old(st.pending)
  {
    var drop := Min(skip, |data|);
    chunk, fits, left := data[drop..], true, skip - drop;
    if |chunk| > 0 {
      if |st.pending| + |chunk| > BUFFERED_MAX {
        fits := false;
        return;
      }
      st.pending := st.pending + chunk;
    }
  }

  lemma PendingNext(p: Progress, b: Body, skip: nat, i: nat)
    requires i <= |b.chunks|
    ensures var chunk := ReadAt(b, i).0[Min(Unskipped(b, skip, i), |ReadAt(b, i).0|)..];
            && Fresh(b, skip, i + 1) == Fresh(b, skip, i) + chunk
            && PendingAt(p, b, skip, i + 1) == PendingAt(p, b, skip, i) + chunk
    ensures Unskipped(b, skip, i + 1) == Unskipped(b, skip, i) - Min(Unskipped(b, skip, i), |ReadAt(b, i).0|)
  {
    hide Fresh, Unskipped, ReadAt;
    FreshNext(b, skip, i);
    var x, y := p.pending, Fresh(b, skip, i);
    var z := ReadAt(b, i).0[Min(Unskipped(b, skip, i), |ReadAt(b, i).0|)..];
    assert (x + y) + z == x + (y + z);
  }

  /** Read `i` of the buffering loop. */
  method HoldRead(st: ForwardState, body: Body, i: nat, skip: nat, ghost p: Progress, ghost skip0: nat)
    returns (chunk: Bytes, fits: bool, left: nat, err: Option<ReadErr>)
    requires i <= |body.chunks| && skip == Unskipped(body, skip0, i)
    requires st.pending == PendingAt(p, body, skip0, i)
    modifies st`pending
    ensures err == ReadAt(body, i).1
    ensures fits <==> !(|Fresh(body, skip0, i + 1)| > |Fresh(body, skip0, i)| &&
                        |PendingAt(p, body, skip0, i + 1)| > BUFFERED_MAX)
    ensures fits ==> st.pending == PendingAt(p, body, skip0, i + 1) && left == Unskipped(body, skip0, i + 1)
    ensures !fits ==> st.pending == old(st.pending)
    ensures !fits ==> Fresh(body, skip0, i + 1) == Fresh(body, skip0, i) + chunk && chunk != []
  {
    PendingNext(p, body, skip0, i);
    err := ReadAt(body, i).1;
    chunk, fits, left := HoldData(st, ReadAt(body, i).0, skip);
  }

  /** The read loop of buffering: accumulates what is not held yet, and hands over the chunk that did not fit. */
  method BufferBody(st: ForwardState, body: Body, skip0: nat) returns (end: BufferEnd, chunk: Bytes)
    modifies st`pending
    ensures end == BufferStop(old(st.View()), body, skip0, 0)
    ensures st.pending == PendingAt(old(st.View()), body, skip0, end.n)
    ensures end.Overflow? ==> Fresh(body, skip0, end.n + 1) == Fresh(body, skip0, end.n) + chunk && chunk != []
  {
    ghost var p := st.View();
    var i, skip := 0, skip0;
    chunk := [];
    FreshFirst(body, skip0);
    assert p.pending + [] == p.pending;
    while true
      invariant 0 <= i <= |body.chunks|
      invariant st.pending == PendingAt(p, body, skip0, i) && skip == Unskipped(body, skip0, i)
      invariant BufferStop(p, body, skip0, 0) == BufferStop(p, body, skip0, i)
      decreases |body.chunks| - i
    {
      if st.total >= 0 && |st.pending| >= st.total {
        return Full(i), [];
      }
      var fits, err;
      chunk, fits, skip, err := HoldRead(st, body, i, skip, p, skip0);
      if !fits {
        return Overflow(i), chunk;
      }
      if err.Some? {
        var out := AfterError(err.value, st.total < 0 || |st.pending| >= st.total);
        return if out == Done then Full(i + 1) else Cut(i + 1, out), [];
      }
      i := i + 1;
    }
  }

  /** The writing half of `FinishBuffered`: one head that announces the length, then the body cut to a known total. */
  method DeliverBuffered(client: Client, resp: Response, pending: Bytes, total: int)
    returns (hdr: string, body: Bytes, sent: bool)
    requires client.ok && client.log == []
    modifies client`log, client`ok
    ensures body == CutTo(pending, total) && hdr == ReframedHeader(resp, |body|)
    ensures client.ok == sent && Trace(client.log)
    ensures sent ==> Seen(client.log) == Saying(hdr, body)
    ensures CutOff(Seen(client.log), Saying(hdr, body))
  {
    body := if total >= 0 && |pending| > total then pending[..total] else pending;
    hdr := ReframedHeader(resp, |body|);
    sent := SendHead(client, hdr);
    if !sent {
      return;
    }
    assert [] + body == body;
    sent := SendBytes(client, body);
  }

  method MarkDelivered(st: ForwardState, n: nat)
    modifies st`headerSent, st`relayed, st`total, st`closeAfter, st`pending
    ensures st.View() ==
            old(st.View()).(headerSent := true, relayed := n, total := n, closeAfter := false, pending := [])
  {
    st.headerSent, st.relayed, st.total, st.closeAfter, st.pending := true, n, n, false, [];
  }

  /** Writes the fully buffered body under one head that announces its length, and commits it when it shows a 200. */
  method FinishBuffered(client: Client, cache: AssetCache, resp: Response, st: ForwardState) returns (out: Outcome)
    requires cache.Valid() && client.ok && client.log == [] && st.header == ""
    modifies client`log, client`ok, cache, st
    ensures cache.Valid() && Trace(client.log)
    ensures Follows(Finish(old(st.View()), resp, old(st.pending)), out, client, st, cache, old(cache.State()))
    ensures client.ok && PlainFields(resp.fields) ==>
              Seen(client.log).Saying? && ShowsWhole(Seen(client.log).head, resp, |Seen(client.log).body|)
  {
    hide ShowsWhole, Seen, CutOff, Partway, Trace, ReframedHeader, CutTo;
    var hdr, body, sent := DeliverBuffered(client, resp, st.pending, st.total);
    if PlainFields(resp.fields) { ReframedHeaderShows(resp, |body|); }
    if !sent {
      return Abort;
    }
    MarkDelivered(st, |body|);
    if st.cacheKey != "" && ReframedStatus(resp.status) == 200 && |body| <= MAX_OBJECT {
      st.header := hdr;
      st.buf := body;
      CommitAssetCache(st, cache);
    } else {
      st.cacheKey := "";
    }
    return Done;
  }

  /** Flushes a body that outgrew the buffer, delimited by the end of the connection: no cache, no resume. */
  method StreamOverflowBuffered(client: Client, resp: Response, st: ForwardState, chunk: Bytes, rest: Bytes)
    returns (out: Outcome)
    requires client.ok && client.log == []
    modifies client`log, client`ok, st
    ensures Trace(client.log) && st.cacheKey == ""
    ensures CutOff(Seen(client.log), Saying(ForwardHeader(resp, true), old(st.pending) + chunk + rest))
    ensures client.ok ==>
              && out == (if resp.body.err == CleanEof then Done else Abort)
              && Seen(client.log) == Saying(ForwardHeader(resp, true), old(st.pending) + chunk + rest)
              && st.View() == old(st.View()).(headerSent := true, relayed := |old(st.pending)| + |chunk|, total := -1,
                                              closeAfter := true, pending := [], cacheKey := "")
    ensures !client.ok ==> out == Abort
    ensures Seen(client.log).Saying? && PlainFields(resp.fields) ==> Shows(Seen(client.log).head, resp, true)
  {
    hide Shows, Seen, Trace, ForwardHeader, PlainFields;
    if PlainFields(resp.fields) { ForwardHeaderShows(resp, true); }
    NothingSaid();
    st.closeAfter := true;
    st.cacheKey := "";
    var sent := SendHead(client, ForwardHeader(resp, true));
    if !sent {
      return Abort;
    }
    st.headerSent := true;
    assert [] + st.pending == st.pending;
    sent := SendBytes(client, st.pending);
    if !sent {
      return Abort;
    }
    sent := SendBytes(client, chunk);
    if !sent {
      return Abort;
    }
    st.relayed := |st.pending| + |chunk|;
    st.pending := [];
    st.total := -1;
    sent := SendBytes(client, rest);
    return if sent && resp.body.err == CleanEof then Done else Abort;
  }

  lemma FreshAndRest(b: Body, skip: nat, i: nat)
    requires skip <= |Consumed(b, i)|
    ensures Fresh(b, skip, i) + Rest(b, i) == Fresh(b, skip, |b.chunks| + 1)
  {
    ConsumedPrefix(b, i);
    var seen := Consumed(b, i);
    assert seen + Rest(b, i) == Content(b);
    assert seen[skip..] + Rest(b, i) == Content(b)[skip..];
  }

  /** The buffer, the chunk that did not fit and the rest are everything the answer brings. */
  lemma FlushedWhole(p: Progress, b: Body, skip: nat, n: nat, chunk: Bytes)
    requires Fresh(b, skip, n + 1) == Fresh(b, skip, n) + chunk && chunk != []
    ensures PendingAt(p, b, skip, n) + chunk == PendingAt(p, b, skip, n + 1)
    ensures PendingAt(p, b, skip, n) + chunk + Rest(b, n + 1) == PendingAt(p, b, skip, |b.chunks| + 1)
  {
    FreshAndRest(b, skip, n + 1);
    hide Fresh, Rest, Consumed;
    ConcatAssoc(p.pending, Fresh(b, skip, n), chunk, Rest(b, n + 1));
    ConcatAssoc(p.pending, Fresh(b, skip, n), chunk, []);
  }

  method ForwardBuffered(client: Client, cache: AssetCache, resp: Response, st: ForwardState, skip: nat)
    returns (out: Outcome)
    requires cache.Valid() && client.ok && client.log == [] && st.header == ""
    modifies client`log, client`ok, cache, st
    ensures cache.Valid() && Trace(client.log)
    ensures Follows(Buffered(old(st.View()), resp, skip), out, client, st, cache, old(cache.State()))
  {
    hide Fresh, Rest, BufferStop, Finish, CutOff, Partway;
    ghost var p := st.View();
    var end, chunk := BufferBody(st, resp.body, skip);
    match end {
      case Full(n) =>
        FinishSame(p, resp, PendingAt(p, resp.body, skip, n));
        out := FinishBuffered(client, cache, resp, st);
      case Overflow(n) =>
        FlushedWhole(p, resp.body, skip, n, chunk);
        out := StreamOverflowBuffered(client, resp, st, chunk, Rest(resp.body, n + 1));
      case Cut(_, o) =>
        out := o;
    }
  }

  /** What is buffered when `Finish` starts is replaced anyway. */
  lemma FinishSame(p: Progress, resp: Response, buffered: Bytes)
    requires p.header == ""
    ensures var s, t := Finish(p.(pending := buffered), resp, buffered), Finish(p, resp, buffered);
            && s.next == t.next && s.out == t.out && s.told == t.told && s.commit == t.commit
            && forall v :: Partway(v, s.base, s.brought) ==> PartialOf(v).None?
  {
  }

  // ---------------------------------------------------------------- one attempt

  /** Accepts a 206 at the offset asked for, or a 200 of which the held bytes are skipped. */
  method AcceptResume(st: ForwardState, resp: Response, offset: nat) returns (accepted: bool, skip: nat)
    requires NextRange(st.View()) == Some(offset)
    modifies st`total
    ensures accepted <==>
            resp.status == 200 || (resp.status == 206 && resp.range.Some? && resp.range.value.start == offset)
    ensures accepted ==> skip == if resp.status == 200 then offset else 0
    ensures accepted ==> skip == SkipOf(old(st.View()), resp)
    ensures st.View() == if accepted then Learned(old(st.View()), resp) else old(st.View())
  {
    skip := 0;
    if resp.status == 206 {
      if resp.range.None? || resp.range.value.start != offset {
        return false, 0;
      }
      if st.total < 0 && resp.range.value.total.Some? {
        st.total := resp.range.value.total.value;
      }
    } else if resp.status == 200 {
      skip := offset;
    } else {
      return false, 0;
    }
    accepted := true;
  }

  /** Starts streaming: the head goes out, and only a plain 200 of bounded size is captured. */
  method StartStreaming(client: Client, st: ForwardState, resp: Response) returns (sent: bool)
    requires client.ok && client.log == []
    modifies client`log, client`ok, st`headerSent, st`closeAfter, st`cacheKey, st`header
    ensures client.ok == sent && Trace(client.log)
    ensures Seen(client.log) == if sent then Saying(ForwardHeader(resp, false), []) else Refused
    ensures sent ==> st.View() == Started(old(st.View()), resp)
    ensures !sent ==> st.header == old(st.header)
    ensures sent && PlainFields(resp.fields) ==> Shows(Seen(client.log).head, resp, false)
  {
    if PlainFields(resp.fields) { ForwardHeaderShows(resp, false); }
    st.closeAfter := false;
    var hdr := ForwardHeader(resp, st.closeAfter);
    sent := SendHead(client, hdr);
    if !sent {
      return;
    }
    st.headerSent := true;
    if st.cacheKey != "" {
      if resp.status == 200 && st.total <= MAX_OBJECT {
        st.header := hdr;
      } else {
        st.cacheKey := "";
      }
    }
  }

  /** A first answer of known length. */
  method StreamFirst(client: Client, cache: AssetCache, st: ForwardState, resp: Response, skip: nat)
    returns (out: Outcome)
    requires cache.Valid() && client.ok && client.log == [] && st.header == ""
    modifies client`log, client`ok, cache, st
    ensures cache.Valid() && Trace(client.log)
    ensures Follows(Streamed(Started(old(st.View()), resp), Saying(ForwardHeader(resp, false), []), resp.body, skip),
                    out, client, st, cache, old(cache.State()))
  {
    var sent := StartStreaming(client, st, resp);
    if !sent {
      return Abort;
    }
    out := RelayForwardBody(client, cache, st, resp.body, skip);
  }

  /** An accepted answer: relayed when the head is out, else buffered or streamed as its length is unknown or known. */
  method RelayAccepted(client: Client, cache: AssetCache, st: ForwardState, resp: Response, skip: nat, head: bool)
    returns (out: Outcome)
    requires cache.Valid() && client.ok && InStep(client, st)
    modifies client`log, client`ok, cache, st
    ensures cache.Valid() && Trace(client.log)
    ensures Follows(Taken(old(st.View()), old(Seen(client.log)), resp, skip, head),
                    out, client, st, cache, old(cache.State()))
  {
    if st.headerSent {
      out := RelayForwardBody(client, cache, st, resp.body, skip);
      return;
    }
    var buffering := st.pending != [];
    if !buffering {
      st.total := AnnouncedTotal(resp, head);
    }
    if st.total < 0 || buffering {
      out := ForwardBuffered(client, cache, resp, st, skip);
    } else {
      out := StreamFirst(client, cache, st, resp, skip);
    }
  }

  /** The part of an attempt that handles an answer. */
  method RelayAnswer(client: Client, cache: AssetCache, st: ForwardState, resp: Response, head: bool)
    returns (out: Outcome)
    requires cache.Valid() && client.ok && InStep(client, st)
    modifies client`log, client`ok, cache, st
    ensures cache.Valid() && Trace(client.log)
    ensures Follows(Attempted(old(st.View()), old(Seen(client.log)), Answered(resp), head),
                    out, client, st, cache, old(cache.State()))
  {
    var ranged, skip := NextRange(st.View()), 0;
    if ranged.Some? {
      var accepted;
      accepted, skip := AcceptResume(st, resp, ranged.value);
      if !accepted {
        return Abort;
      }
    }
    out := RelayAccepted(client, cache, st, resp, skip, head);
  }

  /** One attempt: dial, ask for what is missing, and relay the answer. */
  method ForwardOnce(client: Client, cache: AssetCache, st: ForwardState, ups: Tunnels, head: bool)
    returns (out: Outcome, answer: Attempt)
    requires cache.Valid() && client.ok && InStep(client, st)
    modifies client`log, client`ok, cache, st, ups
    ensures cache.Valid() && Trace(client.log)
    ensures answer == ups.answers(|old(ups.tries)|, NextRange(old(st.View())))
    ensures ups.tries == old(ups.tries) + [Try(NextRange(old(st.View())), answer)]
    ensures Follows(Attempted(old(st.View()), old(Seen(client.log)), answer, head),
                    out, client, st, cache, old(cache.State()))
    ensures answer == DialFailed(false) && !old(st.headerSent) ==>
              client.log == [ErrorBlock(502)] || client.log == [Broken]
    ensures !old(st.headerSent) && !old(st.closeAfter) && Seen(client.log).Saying? ==>
              answer.Answered? && (PlainFields(answer.resp.fields) ==> HeadShown(Seen(client.log).head, answer.resp))
  {
    hide Shows, ShowsWhole, HeadShown, Taken;
    ghost var p := st.View();
    answer := ups.Ask(NextRange(st.View()));
    match answer {
      case DialFailed(retryable) =>
        out := DialError(client, st.headerSent, retryable);
      case NoResponse =>
        out := Retry;
      case Answered(resp) =>
        out := RelayAnswer(client, cache, st, resp, head);
    }
    if !p.headerSent && !p.closeAfter { AttemptShows(p, answer, head); }
  }

  /** Only an answer can send a head, and that shows the answer. */
  lemma AttemptShows(p: Progress, a: Attempt, head: bool)
    requires !p.headerSent && !p.closeAfter
    ensures var s := Attempted(p, Silent, a, head);
            s.told.Saying? ==> a.Answered? && (PlainFields(a.resp.fields) ==> HeadShown(s.told.head, a.resp))
  {
    hide Shows, ShowsWhole, Taken, Accepts;
    if a.Answered? && PlainFields(a.resp.fields) { FirstHead(p, a, head); }
  }

  /** A failed dial: a dead tunnel is worth another attempt while the client has nothing; a refusal is a real answer. */
  method DialError(client: Client, headerSent: bool, retryable: bool) returns (out: Outcome)
    requires client.ok && Trace(client.log) && (!headerSent ==> client.log == [])
    modifies client`log, client`ok
    ensures out == if !headerSent && retryable then Retry else Abort
    ensures headerSent || retryable ==> client.log == old(client.log) && client.ok
    ensures !headerSent && !retryable ==> client.log == [ErrorBlock(502)] || client.log == [Broken]
    ensures Trace(client.log)
  {
    if !headerSent && retryable {
      return Retry;
    }
    if !headerSent {
      client.WriteError(502);
    }
    return Abort;
  }
}
