/**
 The world around one forwarded request: what an upstream attempt may do, what it means for an
 origin to be byte-stable, and what the client of the proxy sees.
 */
module ForwardModel {
  import opened Basics
  import opened HeaderText

  // ---------------------------------------------------------------- upstream

  datatype ReadErr = CleanEof | UnexpectedEof | Timeout | OtherErr

  /** What successive reads of a response body deliver: some chunks, then a last one together with an error. */
  datatype Body = Body(chunks: seq<Bytes>, last: Bytes, err: ReadErr)

  datatype ContentRange = ContentRange(start: nat, total: Option<nat>)

  datatype Response = Response(status: nat, length: Option<nat>, range: Option<ContentRange>,
                               fields: seq<string>, body: Body)

  /** One upstream attempt: the dial fails, the request gets no response head, or it is answered. */
  datatype Attempt = DialFailed(retryable: bool) | NoResponse | Answered(resp: Response)

  /** The upstream as an adversary: attempt number and the offset of the Range sent, if any, to an attempt. */
  type Upstream = (nat, Option<nat>) -> Attempt

  /** A request to the upstream: the offset of its Range, and what came of it. */
  datatype Try = Try(offset: Option<nat>, answer: Attempt)

  /** The way upstream of one request; it remembers every attempt made. */
  class Tunnels {
    const answers: Upstream
    var tries: seq<Try>

    constructor (answers: Upstream)
      ensures this.answers == answers && tries == []
    {
      this.answers, tries := answers, [];
    }

    method Ask(offset: Option<nat>) returns (a: Attempt)
      modifies this
      ensures a == answers(|old(tries)|, offset) && tries == old(tries) + [Try(offset, a)]
    {
      a := answers(|tries|, offset);
      tries := tries + [Try(offset, a)];
    }
  }

  function Flatten(chunks: seq<Bytes>): Bytes {
    if chunks == [] then [] else Flatten(chunks[..|chunks| - 1]) + chunks[|chunks| - 1]
  }

  function Content(b: Body): Bytes {
    Flatten(b.chunks) + b.last
  }

  /** The `i`-th read: its bytes, and the error that came with it. */
  function ReadAt(b: Body, i: nat): (Bytes, Option<ReadErr>) {
    if i < |b.chunks| then (b.chunks[i], None) else (b.last, Some(b.err))
  }

  /** The bytes of the first `i` reads. */
  function Consumed(b: Body, i: nat): Bytes {
    if i <= |b.chunks| then Flatten(b.chunks[..i]) else Content(b)
  }

  function Rest(b: Body, i: nat): Bytes {
    if |Consumed(b, i)| <= |Content(b)| then Content(b)[|Consumed(b, i)|..] else []
  }

  lemma ConsumedNext(b: Body, i: nat)
    requires i <= |b.chunks|
    ensures Consumed(b, i + 1) == Consumed(b, i) + ReadAt(b, i).0
  {
    if i < |b.chunks| {
      assert b.chunks[..i + 1][..i] == b.chunks[..i];
    } else {
      assert b.chunks[..i] == b.chunks;
    }
  }

  lemma {:induction false} ConsumedPrefix(b: Body, i: nat)
    ensures Consumed(b, i) <= Content(b)
    decreases |b.chunks| - i
  {
    if i < |b.chunks| {
      ConsumedPrefix(b, i + 1);
      ConsumedNext(b, i);
    } else {
      assert b.chunks[..|b.chunks|] == b.chunks;
    }
  }

  /** Responses that carry no body whatever their header says. */
  predicate Bodyless(head: bool, status: nat) {
    head || status == 204 || status == 304 || status < 200
  }

  /**
   What the origin is trusted with. A 200 carries the one fixed representation `whole` of the URL
   from its start, and a 206 to the proxy's own Range carries it from the start of its
   Content-Range and never lies about the total; a clean end of such a body of unknown length is
   the end of the representation. An answer of any other status carries bytes of its own. A body
   is never longer than its announced length.
   */
  ghost predicate Faithful(a: Attempt, whole: Bytes, offset: Option<nat>, head: bool) {
    a.Answered? ==>
      var r := a.resp;
      && PlainFields(r.fields)
      && (Bodyless(head, r.status) ==> Content(r.body) == [])
      && (!Bodyless(head, r.status) && r.length.Some? ==> |Content(r.body)| <= r.length.value)
      && (offset.Some? && r.status == 206 && r.range.Some? && r.range.value.start <= |whole| ==>
            var from := whole[r.range.value.start..];
            && Content(r.body) <= from
            && (r.range.value.total.Some? ==> r.range.value.total.value == |whole|)
            && (r.range.value.total.None? && r.body.err == CleanEof ==> Content(r.body) == from))
      && (r.status == 200 ==>
            && Content(r.body) <= whole
            && (head ==> whole == [])
            && (!head && r.length.Some? ==> r.length.value == |whole|)
            && (r.body.err == CleanEof && (offset.Some? || r.length.None?) ==> Content(r.body) == whole))
  }

  // ---------------------------------------------------------------- client

  /**
   What is written to the client: a head, body bytes, a whole error response, or part of a block before
   the connection broke.
   */
  datatype Event = Head(text: string) | Data(bytes: Bytes) | ErrorBlock(status: nat) | Broken

  type Log = seq<Event>

  function Delivered(log: Log): Bytes {
    if log == [] then []
    else
      Delivered(log[..|log| - 1]) + match log[|log| - 1]
                                    case Data(bytes) => bytes
                                    case _ => []
  }

  /** The grammar of one response: nothing, one error block, one broken block, or one head and then only body bytes. */
  ghost predicate Trace(log: Log) {
    || log == []
    || (|log| == 1 && (log[0].ErrorBlock? || log[0].Broken?))
    || (log[0].Head? && forall i :: 1 <= i < |log| ==> log[i].Data?)
  }

  lemma DeliveredByOne(e: Event)
    requires !e.Data?
    ensures Delivered([e]) == [] && Trace([e])
  {
  }

  /**
   The client side of a connection: what was written for the current request, and for those before it.
   A write may fail after any number of bytes.
   */
  class Client {
    var log: Log
    var ok: bool
    var past: seq<Log>

    constructor ()
      ensures log == [] && ok && past == []
    {
      log, ok, past := [], true, [];
    }

    /** What was written was the answer to one request; another one may follow. */
    method EndResponse()
      modifies this`log, this`past
      ensures past == old(past) + [old(log)] && log == []
    {
      log, past := [], past + [log];
    }

    method WriteHead(text: string) returns (sent: bool)
      modifies this`log, this`ok
      ensures ok == (old(ok) && sent)
      ensures log == old(log) + [if sent then Head(text) else Broken]
    {
      sent := *;
      log := log + [if sent then Head(text) else Broken];
      ok := ok && sent;
    }

    method WriteData(data: Bytes) returns (sent: bool)
      modifies this`log, this`ok
      ensures ok == (old(ok) && sent)
      ensures exists k :: 0 <= k <= |data| && (sent ==> k == |data|) && log == old(log) + [Data(data[..k])]
      ensures sent ==> log == old(log) + [Data(data)]
    {
      sent := *;
      var k: nat := |data|;
      if !sent {
        k :| k <= |data|;
      }
      assert data[..|data|] == data;
      log := log + [Data(data[..k])];
      ok := ok && sent;
    }

    method WriteError(status: nat)
      modifies this`log, this`ok
      ensures log == old(log) + [ErrorBlock(status)] || log == old(log) + [Broken]
    {
      var sent: bool := *;
      log := log + [if sent then ErrorBlock(status) else Broken];
      ok := ok && sent;
    }
  }

  // ---------------------------------------------------------------- what was said

  /** What the client was told: nothing, an error block or a broken one, or a head and some of a body. */
  datatype Told = Silent | Refused | Saying(head: string, body: Bytes)

  function Seen(log: Log): Told {
    if log == [] then Silent else if log[0].Head? then Saying(log[0].text, Delivered(log)) else Refused
  }

  function Say(t: Told, more: Bytes): Told {
    if t.Saying? then t.(body := t.body + more) else t
  }

  /**
   What is left of `full` when the connection breaks on the way: nothing, a broken block, or the
   head and part of the body.
   */
  ghost predicate CutOff(seen: Told, full: Told) {
    seen.Saying? ==> full.Saying? && seen.head == full.head && seen.body <= full.body
  }

  lemma SeenData(log: Log, data: Bytes)
    requires Trace(log) && Seen(log).Saying?
    ensures Trace(log + [Data(data)]) && Seen(log + [Data(data)]) == Say(Seen(log), data)
  {
  }

  // ---------------------------------------------------------------- reading

  /** What the first `i` reads bring beyond the first `skip` bytes. */
  function Fresh(b: Body, skip: nat, i: nat): Bytes {
    if skip <= |Consumed(b, i)| then Consumed(b, i)[skip..] else []
  }

  /** What is left to skip before read `i`. */
  function Unskipped(b: Body, skip: nat, i: nat): nat {
    Max(0, skip - |Consumed(b, i)|)
  }

  /** One read of the loop: the skip eats into its data, and what remains is fresh. */
  lemma FreshNext(b: Body, skip: nat, i: nat)
    requires i <= |b.chunks|
    ensures var data := ReadAt(b, i).0;
            var drop := Min(Unskipped(b, skip, i), |data|);
            && Fresh(b, skip, i + 1) == Fresh(b, skip, i) + data[drop..]
            && Unskipped(b, skip, i + 1) == Unskipped(b, skip, i) - drop
  {
    ConsumedNext(b, i);
  }

  lemma FreshFirst(b: Body, skip: nat)
    ensures Fresh(b, skip, 0) == [] && Unskipped(b, skip, 0) == skip
  {
  }

  lemma {:induction false} ConsumedGrows(b: Body, i: nat, j: nat)
    requires i <= j
    ensures Consumed(b, i) <= Consumed(b, j)
    decreases j - i
  {
    if i < j && i <= |b.chunks| {
      ConsumedNext(b, i);
      ConsumedGrows(b, i + 1, j);
    }
  }

  lemma FreshGrows(b: Body, skip: nat, i: nat, j: nat)
    requires i <= j
    ensures Fresh(b, skip, i) <= Fresh(b, skip, j)
  {
    ConsumedGrows(b, i, j);
  }
}
