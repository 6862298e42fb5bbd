/**
 What a client reads in the heads it is sent, line by line and by the names of the lines: the status and
 the fields of the answer, except those that are about one connection, and the proxy's own framing.
 */
module Heads {
  import opened Basics
  import opened HeaderText
  import opened ForwardModel
  import opened ForwardSteps

  /** The lines of an answer that are passed on: all but those of eight names, in order. */
  function PassedOn(fields: seq<string>): seq<string> {
    Filter(fields, l => NameOf(l) !in {Some("connection"), Some("keep-alive"), Some("proxy-authenticate"),
                                       Some("proxy-connection"), Some("te"), Some("trailer"),
                                       Some("transfer-encoding"), Some("upgrade")})
  }

  function Connection(close: bool): string {
    if close then "Connection: close" else "Connection: keep-alive"
  }

  /** The head shows the answer: its status, what is passed on of its lines, its length and the connection line. */
  predicate Shows(head: string, resp: Response, close: bool) {
    Lines(head) ==
      ["HTTP/1.1 " + Itoa(resp.status)] + PassedOn(resp.fields)
      + (if resp.length.Some? then ["Content-Length: " + Itoa(resp.length.value)] else []) + [Connection(close)]
  }

  /** The head shows a whole body of `n` bytes: a 206 as a 200, and no line about a range. */
  predicate ShowsWhole(head: string, resp: Response, n: nat) {
    Lines(head) ==
      ["HTTP/1.1 " + Itoa(if resp.status == 206 then 200 else resp.status)]
      + Filter(PassedOn(resp.fields), l => NameOf(l) != Some("content-range"))
      + ["Content-Length: " + Itoa(n), "Connection: keep-alive"]
  }

  lemma HopByHopName(l: string)
    ensures HopByHop(l) <==>
            NameOf(l) in {Some("connection"), Some("keep-alive"), Some("proxy-authenticate"),
                          Some("proxy-connection"), Some("te"), Some("trailer"),
                          Some("transfer-encoding"), Some("upgrade")}
  {
    NameIs(l, "connection", "connection:");
    NameIs(l, "keep-alive", "keep-alive:");
    NameIs(l, "proxy-authenticate", "proxy-authenticate:");
    NameIs(l, "proxy-connection", "proxy-connection:");
    NameIs(l, "te", "te:");
    NameIs(l, "trailer", "trailer:");
    NameIs(l, "transfer-encoding", "transfer-encoding:");
    NameIs(l, "upgrade", "upgrade:");
  }

  lemma EndToEndPassedOn(fields: seq<string>)
    ensures EndToEnd(fields) == PassedOn(fields)
    ensures PlainFields(fields) ==> PlainFields(EndToEnd(fields))
  {
    hide HopByHop;
    var passed := (l: string) =>
      NameOf(l) !in {Some("connection"), Some("keep-alive"), Some("proxy-authenticate"),
                     Some("proxy-connection"), Some("te"), Some("trailer"),
                     Some("transfer-encoding"), Some("upgrade")};
    forall l | l in fields ensures !HopByHop(l) == passed(l) {
      HopByHopName(l);
    }
    FilterSame(fields, l => !HopByHop(l), passed);
    FilterMembers(fields, l => !HopByHop(l));
  }

  /** The head of a streamed or flushed answer. */
  lemma ForwardHeaderShows(resp: Response, close: bool)
    requires PlainFields(resp.fields)
    ensures Shows(ForwardHeader(resp, close), resp, close)
  {
    EndToEndPassedOn(resp.fields);
    ResponseHeadLines(resp.status, EndToEnd(resp.fields), resp.length, close);
  }

  lemma RangeLinesOut(fields: seq<string>)
    ensures WithoutContentRange(fields) == Filter(fields, l => NameOf(l) != Some("content-range"))
    ensures PlainFields(fields) ==> PlainFields(WithoutContentRange(fields))
  {
    hide Named, NameOf;
    forall l | l in fields ensures !Named(l, "content-range:") <==> NameOf(l) != Some("content-range") {
      NameIs(l, "content-range", "content-range:");
    }
    FilterSame(fields, l => !Named(l, "content-range:"), l => NameOf(l) != Some("content-range"));
    FilterMembers(fields, l => !Named(l, "content-range:"));
  }

  /** The head of a buffered answer. */
  lemma ReframedHeaderShows(resp: Response, n: nat)
    requires PlainFields(resp.fields)
    ensures ShowsWhole(ReframedHeader(resp, n), resp, n)
  {
    hide EndToEnd, WithoutContentRange, PlainFields, NameOf, Filter, ResponseHead, Lines, Itoa;
    EndToEndPassedOn(resp.fields);
    RangeLinesOut(EndToEnd(resp.fields));
    ResponseHeadLines(ReframedStatus(resp.status), WithoutContentRange(EndToEnd(resp.fields)), Some(n), false);
  }

  /** What the client reads in the head of an attempt that sends one: the answer as it is, or a whole body. */
  ghost predicate HeadShown(head: string, resp: Response) {
    || Shows(head, resp, false) || Shows(head, resp, true)
    || exists n: nat :: ShowsWhole(head, resp, n)
  }

  lemma StreamedHead(p: Progress, told: Told, b: Body, skip: nat)
    requires told.Saying?
    ensures Streamed(p, told, b, skip).told.Saying? && Streamed(p, told, b, skip).told.head == told.head
    ensures Streamed(p, told, b, skip).next.closeAfter == p.closeAfter
  {
  }

  lemma BufferedHead(p: Progress, resp: Response, skip: nat)
    requires PlainFields(resp.fields) && !p.closeAfter
    ensures var s := Buffered(p, resp, skip);
            s.told.Saying? ==>
              if s.next.closeAfter then Shows(s.told.head, resp, true) else ShowsWhole(s.told.head, resp, |s.told.body|)
  {
    hide Shows, ShowsWhole, ForwardHeader, ReframedHeader;
    ForwardHeaderShows(resp, true);
    match BufferStop(p, resp.body, skip, 0)
    case Full(n) => ReframedHeaderShows(resp, |CutTo(PendingAt(p, resp.body, skip, n), p.total)|);
    case _ =>
  }

  /**
   The head that an attempt sends shows its answer: as it is when it is streamed, with a closing
   connection line when a buffer overflows, and as a whole body when all of it was buffered.
   */
  lemma FirstHead(p: Progress, a: Attempt, head: bool)
    requires !p.headerSent && !p.closeAfter && a.Answered? && PlainFields(a.resp.fields)
    ensures var s := Attempted(p, Silent, a, head);
            s.told.Saying? ==>
              if p.pending == [] && AnnouncedTotal(a.resp, head) >= 0 then Shows(s.told.head, a.resp, false)
              else if s.next.closeAfter then Shows(s.told.head, a.resp, true)
              else ShowsWhole(s.told.head, a.resp, |s.told.body|)
  {
    hide Shows, ShowsWhole, Streamed, Buffered, ForwardHeader, ReframedHeader, Accepts, AnnouncedTotal;
    if Accepts(p, a.resp) {
      var q, skip := Learned(p, a.resp), SkipOf(p, a.resp);
      var r := if q.pending == [] then q.(total := AnnouncedTotal(a.resp, head)) else q;
      ForwardHeaderShows(a.resp, false);
      StreamedHead(Started(r, a.resp), Saying(ForwardHeader(a.resp, false), []), a.resp.body, skip);
      BufferedHead(r, a.resp, skip);
    }
  }
}
