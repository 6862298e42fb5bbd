/**
 The header blocks the forward proxy writes and caches, as text: lines separated by CRLF and
 closed by an empty line. `NormalizeCachedHeader` is the rewriting a captured header goes
 through before it is stored for replay.
 */
module HeaderText {
  import opened Basics

  const CRLF := "\r\n"

  const BLANK_LINE := "\r\n\r\n"

  const KEEP_ALIVE_LINE := "Connection: keep-alive"

  const CLOSE_LINE := "Connection: close"

  // ---------------------------------------------------------------- lines

  /** No CRLF inside: the text is a single line. */
  ghost predicate IsLine(s: string) {
    forall i :: 0 <= i < |s| - 1 ==> !(s[i] == '\r' && s[i + 1] == '\n')
  }

  ghost predicate AreLines(ls: seq<string>) {
    forall i :: 0 <= i < |ls| ==> IsLine(ls[i])
  }

  /** Cuts at every CRLF, leftmost first. */
  function Split(s: string): (ls: seq<string>)
    ensures |ls| >= 1
  {
    if s == "" then [""]
    else if |s| >= 2 && s[0] == '\r' && s[1] == '\n' then [""] + Split(s[2..])
    else var rest := Split(s[1..]); [[s[0]] + rest[0]] + rest[1..]
  }

  function Join(ls: seq<string>): string
    requires |ls| >= 1
  {
    if |ls| == 1 then ls[0] else ls[0] + CRLF + Join(ls[1..])
  }

  lemma {:induction false} JoinOfSplit(s: string)
    ensures Join(Split(s)) == s
  {
    if s == "" {
    } else if |s| >= 2 && s[0] == '\r' && s[1] == '\n' {
      JoinOfSplit(s[2..]);
      assert Split(s)[1..] == Split(s[2..]);
      assert s == "" + CRLF + s[2..];
    } else {
      JoinOfSplit(s[1..]);
      JoinPrepend(s[0], Split(s[1..]));
      assert s == [s[0]] + s[1..];
    }
  }

  lemma JoinPrepend(c: char, ls: seq<string>)
    requires |ls| >= 1
    ensures Join([[c] + ls[0]] + ls[1..]) == [c] + Join(ls)
  {
    var ls' := [[c] + ls[0]] + ls[1..];
    if |ls| > 1 {
      assert ls'[1..] == ls[1..];
      ConcatAssoc([c], ls[0], CRLF, Join(ls[1..]));
    }
  }

  lemma ConcatAssoc<T>(a: seq<T>, b: seq<T>, c: seq<T>, d: seq<T>)
    ensures (a + b) + c + d == a + (b + c + d)
    ensures d == [] ==> (a + b) + c == a + (b + c)
  {
  }

  lemma {:induction false} SplitGivesLines(s: string)
    ensures AreLines(Split(s))
    ensures s != "" && Split(s)[0] != "" ==> Split(s)[0][0] == s[0]
  {
    if s == "" {
    } else if |s| >= 2 && s[0] == '\r' && s[1] == '\n' {
      SplitGivesLines(s[2..]);
    } else {
      SplitGivesLines(s[1..]);
      var rest := Split(s[1..]);
      assert IsLine([s[0]] + rest[0]);
    }
  }

  /** Reading a line off the front: a line followed by CRLF is cut exactly there. */
  lemma {:induction false} SplitLineFirst(line: string, tail: string)
    requires IsLine(line)
    ensures Split(line + CRLF + tail) == [line] + Split(tail)
  {
    var s := line + CRLF + tail;
    if line == "" {
      assert s[2..] == tail;
    } else {
      assert s[1..] == line[1..] + CRLF + tail;
      assert IsLine(line[1..]) by {
        forall i | 0 <= i < |line[1..]| - 1 ensures !(line[1..][i] == '\r' && line[1..][i + 1] == '\n') {
          assert line[1..][i] == line[i + 1] && line[1..][i + 1] == line[i + 2];
        }
      }
      SplitLineFirst(line[1..], tail);
      if |line| > 1 { assert s[1] == line[1]; } else { assert s[1] == '\r'; }
      assert [line[0]] + line[1..] == line;
    }
  }

  lemma {:induction false} SplitOneLine(line: string)
    requires IsLine(line)
    ensures Split(line) == [line]
  {
    if line != "" {
      assert IsLine(line[1..]) by {
        forall i | 0 <= i < |line[1..]| - 1 ensures !(line[1..][i] == '\r' && line[1..][i + 1] == '\n') {
          assert line[1..][i] == line[i + 1] && line[1..][i + 1] == line[i + 2];
        }
      }
      SplitOneLine(line[1..]);
      assert [line[0]] + line[1..] == line;
    }
  }

  lemma {:induction false} SplitOfJoin(ls: seq<string>)
    requires |ls| >= 1 && AreLines(ls)
    ensures Split(Join(ls)) == ls
  {
    if |ls| == 1 {
      SplitOneLine(ls[0]);
    } else {
      SplitLineFirst(ls[0], Join(ls[1..]));
      SplitOfJoin(ls[1..]);
      assert [ls[0]] + ls[1..] == ls;
    }
  }

  // ---------------------------------------------------------------- blocks

  function TrimBlank(header: string): string {
    if |header| >= 4 && header[|header| - 4..] == BLANK_LINE then header[..|header| - 4] else header
  }

  /** The lines of a header block. */
  function Lines(header: string): (ls: seq<string>)
    ensures |ls| >= 1
  {
    Split(TrimBlank(header))
  }

  /** The block made of the given lines. */
  function Render(ls: seq<string>): string
    requires |ls| >= 1
  {
    Join(ls) + BLANK_LINE
  }

  /** A rendered block reads back as the lines it was made of. */
  lemma LinesOfRender(ls: seq<string>)
    requires |ls| >= 1 && AreLines(ls)
    ensures Lines(Render(ls)) == ls
  {
    var h := Render(ls);
    assert h[|h| - 4..] == BLANK_LINE && h[..|h| - 4] == Join(ls);
    SplitOfJoin(ls);
  }

  // ---------------------------------------------------------------- framing lines

  function Lower(c: char): char {
    if 'A' <= c <= 'Z' then c - 'A' + 'a' else c
  }

  /** `line` starts with `name`, compared without regard to case; `name` is in lower case. */
  predicate Named(line: string, name: string) {
    |name| <= |line| && forall i :: 0 <= i < |name| ==> Lower(line[i]) == name[i]
  }

  /** The name of a header line, in lower case, if there is a colon after it. */
  function NameOf(line: string): Option<string> {
    if line == "" then None
    else if line[0] == ':' then Some("")
    else
      var rest := NameOf(line[1..]);
      if rest.None? then None else Some([Lower(line[0])] + rest.value)
  }

  /** Whether a line starts with a name and a colon is whether that is its name. */
  lemma {:induction false} NamedIsName(line: string, name: string)
    requires forall i :: 0 <= i < |name| ==> name[i] != ':'
    ensures Named(line, name + ":") <==> NameOf(line) == Some(name)
  {
    var full := name + ":";
    if line != "" && line[0] != ':' && name != "" {
      NamedIsName(line[1..], name[1..]);
      assert full[1..] == name[1..] + ":";
      NamedCons(line, full);
      var rest := NameOf(line[1..]);
      assert name == [name[0]] + name[1..];
      assert rest.Some? ==> ([Lower(line[0])] + rest.value)[1..] == rest.value;
    } else if line != "" {
      NamedCons(line, full);
      assert full[0] == if name == "" then ':' else name[0];
      assert name == "" ==> full[1..] == "";
    }
  }

  lemma NamedCons(line: string, name: string)
    requires line != "" && name != ""
    ensures Named(line, name) <==> Lower(line[0]) == name[0] && Named(line[1..], name[1..])
  {
  }

  predicate IsContentLength(line: string) {
    Named(line, "content-length:")
  }

  predicate IsConnection(line: string) {
    Named(line, "connection:")
  }

  /** The lines that describe framing or the life of the connection. */
  predicate IsFraming(line: string) {
    IsConnection(line) || IsContentLength(line) || Named(line, "keep-alive:") ||
    Named(line, "proxy-connection:") || Named(line, "transfer-encoding:")
  }

  function Digit(d: nat): (c: char)
    requires d < 10
    ensures '0' <= c <= '9' && c as int == 48 + d
  {
    (48 + d) as char
  }

  function Itoa(n: nat): (s: string)
    ensures |s| > 0 && forall i :: 0 <= i < |s| ==> '0' <= s[i] <= '9'
  {
    if n < 10 then [Digit(n)] else Itoa(n / 10) + [Digit(n % 10)]
  }

  lemma ItoaLast(n: nat)
    ensures Itoa(n)[|Itoa(n)| - 1] as int == 48 + n % 10
    ensures n >= 10 ==> Itoa(n)[..|Itoa(n)| - 1] == Itoa(n / 10)
    ensures |Itoa(n)| == 1 <==> n < 10
  {
  }

  /** The number that decimal digits denote. */
  function Numeral(s: string): int {
    if s == "" then 0 else 10 * Numeral(s[..|s| - 1]) + (s[|s| - 1] as int - 48)
  }

  /** A number is written as the digits that denote it, with no zero in front. */
  lemma {:induction false} ItoaDenotes(n: nat)
    ensures Numeral(Itoa(n)) == n && (Itoa(n)[0] == '0' ==> n == 0)
  {
    ItoaLast(n);
    if n >= 10 { ItoaDenotes(n / 10); }
  }

  /** A decimal numeral denotes one number only. */
  lemma {:induction false} ItoaInjective(m: nat, n: nat)
    requires Itoa(m) == Itoa(n)
    ensures m == n
  {
    ItoaLast(m);
    ItoaLast(n);
    if m >= 10 {
      ItoaInjective(m / 10, n / 10);
    }
  }

  function ContentLengthLine(n: nat): string {
    "Content-Length: " + Itoa(n)
  }

  lemma TextThenNumber(prefix: string, n: nat)
    requires IsLine(prefix)
    ensures IsLine(prefix + Itoa(n))
  {
  }

  lemma ContentLengthLineFraming(n: nat)
    ensures IsLine(ContentLengthLine(n))
    ensures IsContentLength(ContentLengthLine(n)) && !IsConnection(ContentLengthLine(n))
  {
    TextThenNumber("Content-Length: ", n);
    assert ContentLengthLine(n)[3] == 't' && "connection:"[3] == 'n';
  }

  lemma ConnectionLineFraming(close: bool)
    ensures var l := if close then CLOSE_LINE else KEEP_ALIVE_LINE;
            IsLine(l) && IsConnection(l) && !IsContentLength(l)
  {
    assert KEEP_ALIVE_LINE[3] == 'n' && CLOSE_LINE[3] == 'n' && "content-length:"[3] == 't';
  }

  /** The block carries exactly one Content-Length line, and it says `n`. */
  predicate Announces(header: string, n: nat) {
    Filter(Lines(header), IsContentLength) == [ContentLengthLine(n)]
  }

  /** A block announces at most one length. */
  lemma AnnouncedOnce(header: string, m: nat, n: nat)
    requires Announces(header, m) && Announces(header, n)
    ensures m == n
  {
    assert ContentLengthLine(m)[16..] == Itoa(m) && ContentLengthLine(n)[16..] == Itoa(n);
    assert [ContentLengthLine(m)][0] == [ContentLengthLine(n)][0];
    ItoaInjective(m, n);
  }

  // ---------------------------------------------------------------- normalisation

  /** What a captured header becomes: its non-framing lines, then explicit framing for `bodyLen` bytes. */
  function Normalized(header: string, bodyLen: nat): string {
    Render(Filter(Lines(header), l => !IsFraming(l)) + [ContentLengthLine(bodyLen), KEEP_ALIVE_LINE])
  }

  function Terminated(ls: seq<string>): string {
    if ls == [] then "" else ls[0] + CRLF + Terminated(ls[1..])
  }

  lemma {:induction false} TerminatedSnoc(ls: seq<string>, line: string)
    ensures Terminated(ls + [line]) == Terminated(ls) + (line + CRLF)
  {
    if ls == [] {
      assert [line][1..] == [];
      assert line + CRLF + "" == line + CRLF;
    } else {
      assert (ls + [line])[1..] == ls[1..] + [line];
      TerminatedSnoc(ls[1..], line);
    }
  }

  lemma {:induction false} TerminatedThenJoin(ls: seq<string>, tail: seq<string>)
    requires |tail| >= 1
    ensures Terminated(ls) + Join(tail) == Join(ls + tail)
  {
    if ls == [] {
      assert ls + tail == tail;
      assert "" + Join(tail) == Join(tail);
    } else {
      assert (ls + tail)[1..] == ls[1..] + tail;
      TerminatedThenJoin(ls[1..], tail);
    }
  }

  /** One round of the copying loop: line `i` is appended when it is kept. */
  lemma KeepNext(lines: seq<string>, i: nat, keep: string -> bool)
    requires i < |lines|
    ensures Terminated(Filter(lines[..i + 1], keep)) ==
            Terminated(Filter(lines[..i], keep)) + if keep(lines[i]) then lines[i] + CRLF else ""
  {
    var before := Filter(lines[..i], keep);
    assert lines[..i + 1] == lines[..i] + [lines[i]];
    FilterConcat(lines[..i], [lines[i]], keep);
    assert [lines[i]][1..] == [];
    assert Filter([lines[i]], keep) == if keep(lines[i]) then [lines[i]] else [];
    if keep(lines[i]) {
      TerminatedSnoc(before, lines[i]);
    } else {
      assert before + [] == before;
      assert Terminated(before) + "" == Terminated(before);
    }
  }

  lemma FramingTail(kept: seq<string>, a: string, b: string)
    ensures Terminated(kept) + (a + CRLF) + (b + BLANK_LINE) == Render(kept + [a, b])
  {
    TerminatedThenJoin(kept, [a, b]);
    assert [a, b][1..] == [b];
    assert Join([a, b]) == a + CRLF + b;
  }

  method NormalizeCachedHeader(header: string, bodyLen: nat) returns (r: string)
    ensures r == Normalized(header, bodyLen)
  {
    var sb := "";
    var lines := Lines(header);
    ghost var keep := (l: string) => !IsFraming(l);
    assert lines[..0] == [];
    for i := 0 to |lines|
      invariant sb == Terminated(Filter(lines[..i], keep))
    {
      KeepNext(lines, i, keep);
      if !IsFraming(lines[i]) {
        sb := sb + (lines[i] + CRLF);
      }
    }
    assert lines[..|lines|] == lines;
    FramingTail(Filter(lines, keep), ContentLengthLine(bodyLen), KEEP_ALIVE_LINE);
    r := sb + (ContentLengthLine(bodyLen) + CRLF);
    r := r + (KEEP_ALIVE_LINE + BLANK_LINE);
  }

  /**
   The normalised block has the original non-framing lines in order, one Content-Length line and one
   Connection line.
   */
  lemma NormalizedLines(header: string, bodyLen: nat)
    ensures Lines(Normalized(header, bodyLen)) ==
            Filter(Lines(header), l => !IsFraming(l)) + [ContentLengthLine(bodyLen), KEEP_ALIVE_LINE]
    ensures Announces(Normalized(header, bodyLen), bodyLen)
    ensures Filter(Lines(Normalized(header, bodyLen)), IsConnection) == [KEEP_ALIVE_LINE]
  {
    KeptLines(header);
    ContentLengthLineFraming(bodyLen);
    ConnectionLineFraming(false);
    BlockWithTail(Filter(Lines(header), l => !IsFraming(l)), ContentLengthLine(bodyLen), KEEP_ALIVE_LINE);
  }

  /** The lines taken out are those of five names, whatever their case. */
  lemma NormalizedByName(header: string, bodyLen: nat)
    ensures Lines(Normalized(header, bodyLen)) ==
            Filter(Lines(header), l => NameOf(l) !in {Some("connection"), Some("content-length"), Some("keep-alive"),
                                                      Some("proxy-connection"), Some("transfer-encoding")})
            + ["Content-Length: " + Itoa(bodyLen), "Connection: keep-alive"]
  {
    NormalizedLines(header, bodyLen);
    forall l | l in Lines(header)
      ensures IsFraming(l) <==> NameOf(l) in {Some("connection"), Some("content-length"), Some("keep-alive"),
                                              Some("proxy-connection"), Some("transfer-encoding")}
    {
      FramingName(l);
    }
    FilterSame(Lines(header), l => !IsFraming(l),
               l => NameOf(l) !in {Some("connection"), Some("content-length"), Some("keep-alive"),
                                   Some("proxy-connection"), Some("transfer-encoding")});
  }

  lemma FramingName(l: string)
    ensures IsFraming(l) <==> NameOf(l) in {Some("connection"), Some("content-length"), Some("keep-alive"),
                                            Some("proxy-connection"), Some("transfer-encoding")}
  {
    NameIs(l, "connection", "connection:");
    NameIs(l, "content-length", "content-length:");
    NameIs(l, "keep-alive", "keep-alive:");
    NameIs(l, "proxy-connection", "proxy-connection:");
    NameIs(l, "transfer-encoding", "transfer-encoding:");
  }

  lemma NameIs(l: string, name: string, prefix: string)
    requires prefix == name + ":" && forall i :: 0 <= i < |name| ==> name[i] != ':'
    ensures Named(l, prefix) <==> NameOf(l) == Some(name)
  {
    NamedIsName(l, name);
  }

  lemma KeptLines(header: string)
    ensures forall l :: l in Filter(Lines(header), l => !IsFraming(l)) ==> IsLine(l) && !IsFraming(l)
  {
    SplitGivesLines(TrimBlank(header));
    FilterMembers(Lines(header), l => !IsFraming(l));
  }

  lemma BlockWithTail(kept: seq<string>, cl: string, conn: string)
    requires forall l :: l in kept ==> IsLine(l) && !IsFraming(l)
    requires IsLine(cl) && IsContentLength(cl) && !IsConnection(cl)
    requires IsLine(conn) && IsConnection(conn) && !IsContentLength(conn)
    ensures Lines(Render(kept + [cl, conn])) == kept + [cl, conn]
    ensures Filter(kept + [cl, conn], IsContentLength) == [cl]
    ensures Filter(kept + [cl, conn], IsConnection) == [conn]
  {
    LinesAll(kept, [cl, conn]);
    LinesOfRender(kept + [cl, conn]);
    OneOfTail(kept, cl, conn, IsContentLength);
    OneOfTail(kept, cl, conn, IsConnection);
  }

  lemma OneOfTail(kept: seq<string>, a: string, b: string, pick: string -> bool)
    requires forall l :: l in kept ==> !pick(l)
    requires pick(a) != pick(b)
    ensures Filter(kept + [a, b], pick) == if pick(a) then [a] else [b]
  {
    FilterConcat(kept, [a, b], pick);
    FilterNone(kept, pick);
    assert [a, b][1..] == [b] && [b][1..] == [];
    assert Filter([b], pick) == if pick(b) then [b] else [];
  }

  /** Normalising again, for whatever length, only replaces the announced length; in particular it is idempotent. */
  lemma NormalizedTwice(header: string, first: nat, second: nat)
    ensures Normalized(Normalized(header, first), second) == Normalized(header, second)
  {
    NormalizedLines(header, first);
    KeptLines(header);
    ContentLengthLineFraming(first);
    ConnectionLineFraming(false);
    TailDropped(Filter(Lines(header), l => !IsFraming(l)), ContentLengthLine(first), KEEP_ALIVE_LINE,
                l => !IsFraming(l));
  }

  lemma TailDropped(kept: seq<string>, a: string, b: string, keep: string -> bool)
    requires forall l :: l in kept ==> keep(l)
    requires !keep(a) && !keep(b)
    ensures Filter(kept + [a, b], keep) == kept
  {
    FilterConcat(kept, [a, b], keep);
    FilterAll(kept, keep);
    FilterNone([a, b], keep);
    assert kept + [] == kept;
  }

  // ---------------------------------------------------------------- blocks written to clients

  const STATUS_PREFIX := "HTTP/1.1 "

  function LengthLines(length: Option<nat>): seq<string> {
    if length.Some? then [ContentLengthLine(length.value)] else []
  }

  /** Status line, the origin's own fields, Content-Length when the length is known, and the connection line. */
  function ResponseHead(status: nat, fields: seq<string>, length: Option<nat>, close: bool): (h: string)
    ensures h != ""
  {
    Render([STATUS_PREFIX + Itoa(status)] + fields + LengthLines(length) +
           [if close then CLOSE_LINE else KEEP_ALIVE_LINE])
  }

  /** Fields a response head may repeat: single lines that do not talk about the length. */
  ghost predicate PlainFields(fields: seq<string>) {
    forall f :: f in fields ==> IsLine(f) && !IsContentLength(f)
  }

  lemma PlainHead(status: nat, fields: seq<string>)
    requires PlainFields(fields)
    ensures PlainFields([STATUS_PREFIX + Itoa(status)] + fields)
  {
    TextThenNumber(STATUS_PREFIX, status);
    assert (STATUS_PREFIX + Itoa(status))[0] == 'H' && "content-length:"[0] == 'c';
  }

  /**
   The head reads back line by line: status line, fields, the length when it is known and the
   connection line; and it announces exactly the length it was given.
   */
  lemma ResponseHeadLines(status: nat, fields: seq<string>, length: Option<nat>, close: bool)
    requires PlainFields(fields)
    ensures var lines := Lines(ResponseHead(status, fields, length, close));
            && lines == [STATUS_PREFIX + Itoa(status)] + fields + LengthLines(length) +
                        [if close then CLOSE_LINE else KEEP_ALIVE_LINE]
            && Filter(lines, IsContentLength) == LengthLines(length)
    ensures length.Some? ==> Announces(ResponseHead(status, fields, length, close), length.value)
  {
    var front := [STATUS_PREFIX + Itoa(status)] + fields;
    PlainHead(status, fields);
    ConnectionLineFraming(close);
    if length.Some? { ContentLengthLineFraming(length.value); }
    HeadReadsBack(front, LengthLines(length), if close then CLOSE_LINE else KEEP_ALIVE_LINE);
  }

  lemma HeadReadsBack(front: seq<string>, cl: seq<string>, last: string)
    requires PlainFields(front) && IsLine(last) && !IsContentLength(last)
    requires cl == [] || (|cl| == 1 && IsLine(cl[0]) && IsContentLength(cl[0]))
    ensures Lines(Render(front + cl + [last])) == front + cl + [last]
    ensures Filter(Lines(Render(front + cl + [last])), IsContentLength) == cl
  {
    LinesAll(front, cl);
    LinesAll(front + cl, [last]);
    LinesOfRender(front + cl + [last]);
    FilterConcat(front + cl, [last], IsContentLength);
    FilterConcat(front, cl, IsContentLength);
    FilterNone(front, IsContentLength);
    FilterAll(cl, IsContentLength);
    FilterNone([last], IsContentLength);
    assert [] + cl + [] == cl;
  }

  lemma LinesAll(a: seq<string>, b: seq<string>)
    requires forall l :: l in a ==> IsLine(l)
    requires forall l :: l in b ==> IsLine(l)
    ensures AreLines(a + b) && forall l :: l in a + b ==> IsLine(l)
  {
  }
}
