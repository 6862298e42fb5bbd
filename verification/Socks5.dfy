/**
 The SOCKS5 address codec (RFC 1928, sections 4 and 5): the request written to an upstream proxy and
 the two readers of addresses, one for the upstream's reply and one for the local server's clients.
 */
module Socks5 {
  import opened Basics
  import opened Octets

  const VERSION: Octet := 5

  const IPV4: Octet := 1
  const DOMAIN: Octet := 3
  const IPV6: Octet := 4

  /** A host as it is named: an address in text, or anything else. */
  type Host = seq<Octet>

  /** The library's reader and writer of addresses. */
  datatype IpText = IpText(parse: Host -> Option<Ip>, show: Ip -> Host)

  /** An address that was written reads back as itself. */
  ghost predicate Lawful(t: IpText) {
    forall ip :: t.parse(t.show(ip)) == Some(ip)
  }

  /** How a host reads after it went over the wire: an address in the form the library writes, a name as it is. */
  function Canonical(t: IpText, host: Host): Host {
    if t.parse(host).Some? then t.show(t.parse(host).value) else host
  }

  // ---------------------------------------------------------------- writing

  function PortOctets(port: int): (b: seq<Octet>)
    ensures |b| == 2 && Value(b) == port % 0x1_0000
  {
    var low := port % 0x1_0000;
    var b: seq<Octet> := [low / 256, low % 256];
    assert b[..1] == [low / 256] && b[..1][..0] == [];
    assert Value(b[..1]) == low / 256;
    b
  }

  function IpOctets(ip: Ip): seq<Octet> {
    var v4 := To4(ip);
    if v4.Some? then [IPV4] + v4.value else [IPV6] + ip
  }

  /** What follows the version, command and reserved octets of a request, if the host can be written. */
  function AddressOctets(t: IpText, host: Host): Option<seq<Octet>> {
    var ip := t.parse(host);
    if ip.Some? then Some(IpOctets(ip.value))
    else if |host| > 255 then None
    else Some([DOMAIN, |host|] + host)
  }

  function Request(t: IpText, cmd: Octet, host: Host, port: int): Option<seq<Octet>> {
    var a := AddressOctets(t, host);
    if a.None? then None else Some([VERSION, cmd, 0] + a.value + PortOctets(port))
  }

  // ---------------------------------------------------------------- reading

  function TakeOctets(s: seq<Octet>, n: nat): Option<(seq<Octet>, seq<Octet>)> {
    if n <= |s| then Some((s[..n], s[n..])) else None
  }

  /** The host of the given type at the front of `s`, and what follows it. */
  function DecodeHost(t: IpText, atyp: Octet, s: seq<Octet>): Option<(Host, seq<Octet>)> {
    if atyp == IPV4 then
      var b := TakeOctets(s, 4);
      if b.None? then None else Some((t.show(From4(b.value.0)), b.value.1))
    else if atyp == DOMAIN then
      if s == [] then None else TakeOctets(s[1..], s[0])
    else if atyp == IPV6 then
      var b := TakeOctets(s, 16);
      if b.None? then None else Some((t.show(b.value.0), b.value.1))
    else None
  }

  function DecodeAddr(t: IpText, atyp: Octet, s: seq<Octet>): Option<(Host, nat, seq<Octet>)> {
    var h := DecodeHost(t, atyp, s);
    if h.None? then None
    else
      var p := TakeOctets(h.value.1, 2);
      if p.None? then None else Some((h.value.0, Value(p.value.0), p.value.1))
  }

  /** A host is read exactly when all its octets are there: four, sixteen, or a length and as many. */
  lemma DecodeExactly(t: IpText, atyp: Octet, s: seq<Octet>)
    ensures DecodeHost(t, atyp, s).Some? <==>
            || (atyp == 1 && |s| >= 4)
            || (atyp == 3 && |s| >= 1 && |s| - 1 >= s[0])
            || (atyp == 4 && |s| >= 16)
    ensures atyp == 1 && |s| >= 4 ==>
              var (host, rest) := DecodeHost(t, atyp, s).value;
              rest == s[4..] && exists ip: Ip :: ip[12..] == s[..4] && To4(ip).Some? && host == t.show(ip)
    ensures atyp == 3 && |s| >= 1 && |s| - 1 >= s[0] ==>
              DecodeHost(t, atyp, s) == Some((s[1..][..s[0]], s[1..][s[0]..]))
    ensures atyp == 4 && |s| >= 16 ==> DecodeHost(t, atyp, s) == Some((t.show(s[..16]), s[16..]))
  {
  }

  // ---------------------------------------------------------------- round trips

  lemma DecodeHostOfAddress(t: IpText, host: Host, suffix: seq<Octet>)
    requires AddressOctets(t, host).Some?
    ensures var a := AddressOctets(t, host).value;
            |a| > 0 && DecodeHost(t, a[0], a[1..] + suffix) == Some((Canonical(t, host), suffix))
  {
    var a := AddressOctets(t, host).value;
    var s := a[1..] + suffix;
    if t.parse(host).Some? {
      var ip := t.parse(host).value;
      var b := if To4(ip).Some? then To4(ip).value else ip;
      assert a[1..] == b;
      assert s[..|b|] == b && s[|b|..] == suffix;
      if To4(ip).Some? {
        assert From4(b) == ip;
      }
    } else {
      assert s[0] == |host| && s[1..] == host + suffix;
      assert s[1..][..|host|] == host && s[1..][|host|..] == suffix;
    }
  }

  /**
   Reading a written request gives the host back in the library's form, the port modulo 65536, and
   leaves exactly the suffix.
   */
  lemma DecodeOfRequest(t: IpText, cmd: Octet, host: Host, port: int, suffix: seq<Octet>)
    requires Request(t, cmd, host, port).Some?
    ensures var r := Request(t, cmd, host, port).value;
            && |r| > 4 && r[..3] == [VERSION, cmd, 0]
            && DecodeAddr(t, r[3], r[4..] + suffix) == Some((Canonical(t, host), port % 0x1_0000, suffix))
  {
    var r := Request(t, cmd, host, port).value;
    var a := AddressOctets(t, host).value;
    var p := PortOctets(port);
    DecodeHostOfAddress(t, host, p + suffix);
    assert r[3] == a[0];
    assert r[4..] + suffix == a[1..] + (p + suffix);
    assert (p + suffix)[..2] == p && (p + suffix)[2..] == suffix;
  }

  /** The octets of a request: an address in four or sixteen octets, anything else with its length in front. */
  lemma RequestLayout(t: IpText, cmd: Octet, host: Host, port: int)
    requires Request(t, cmd, host, port).Some?
    ensures var r, ip := Request(t, cmd, host, port).value, t.parse(host);
            && |r| >= 6 && r[..3] == [5, cmd, 0]
            && r[|r| - 2] as int * 256 + r[|r| - 1] == port % 0x1_0000
            && (ip.Some? && MappedV4(ip.value) ==> r[3..|r| - 2] == [1] + ip.value[12..])
            && (ip.Some? && !MappedV4(ip.value) ==> r[3..|r| - 2] == [4] + ip.value)
            && (ip.None? ==> |host| <= 255 && r[3..|r| - 2] == [3, |host|] + host)
  {
  }

  /** Ten zeros and two 255s in front of four octets. */
  predicate MappedV4(ip: Ip) {
    (forall i :: 0 <= i < 10 ==> ip[i] == 0) && ip[10] == 255 && ip[11] == 255
  }

  lemma To4IsMapped(ip: Ip)
    ensures To4(ip).Some? <==> MappedV4(ip)
    ensures To4(ip).Some? ==> To4(ip).value == ip[12..]
  {
  }

  /**
   A request exists for every address and every other host of up to 255 octets. It says what was
   asked for exactly when the port is one, as others are cut to sixteen bits without an error, and
   the host is not an address in another form than the library's.
   */
  lemma RoundTripIff(t: IpText, cmd: Octet, host: Host, port: int, suffix: seq<Octet>)
    ensures Request(t, cmd, host, port).Some? <==> t.parse(host).Some? || |host| <= 255
    ensures Request(t, cmd, host, port).Some? ==>
              var r := Request(t, cmd, host, port).value;
              && |r| > 4
              && (DecodeAddr(t, r[3], r[4..] + suffix) == Some((host, port, suffix))
                  <==> 0 <= port < 0x1_0000 && Canonical(t, host) == host)
  {
    if Request(t, cmd, host, port).Some? {
      DecodeOfRequest(t, cmd, host, port, suffix);
    }
  }

  /**
   Two requests are the same octets exactly for the same host, up to the form of an address, and the
   same low sixteen bits of the port.
   */
  lemma SameRequestIff(t: IpText, cmd: Octet, h: Host, p: int, g: Host, q: int)
    requires Lawful(t) && Request(t, cmd, h, p).Some? && Request(t, cmd, g, q).Some?
    ensures Request(t, cmd, h, p) == Request(t, cmd, g, q)
       <==> Canonical(t, h) == Canonical(t, g) && t.parse(h) == t.parse(g) && p % 0x1_0000 == q % 0x1_0000
  {
    if Request(t, cmd, h, p) == Request(t, cmd, g, q) {
      DecodeOfRequest(t, cmd, h, p, []);
      DecodeOfRequest(t, cmd, g, q, []);
      SameParse(t, h, g);
    }
  }

  lemma SameParse(t: IpText, h: Host, g: Host)
    requires Lawful(t) && AddressOctets(t, h).Some? && AddressOctets(t, g).Some?
    requires AddressOctets(t, h).value[0] == AddressOctets(t, g).value[0] && Canonical(t, h) == Canonical(t, g)
    ensures t.parse(h) == t.parse(g)
  {
  }

  lemma {:induction false} PortValue(b: seq<Octet>)
    requires |b| == 2
    ensures Value(b) == b[0] as int * 256 + b[1] && PortOctets(Value(b)) == b
  {
    assert b[..1][..0] == [];
    assert Value(b[..1]) == b[0];
  }

  /** An address that came in another form than the one it is written in. */
  predicate Rewritten(t: IpText, atyp: Octet, s: seq<Octet>)
    requires DecodeHost(t, atyp, s).Some?
  {
    || (atyp == IPV6 && To4(s[..16]).Some?)
    || (atyp == DOMAIN && t.parse(s[1..1 + s[0]]).Some?)
  }

  /** How many octets the host at the front of `s` takes. */
  function HostLength(atyp: Octet, s: seq<Octet>): nat {
    if atyp == IPV4 then 4 else if atyp == IPV6 then 16 else if s == [] then 0 else 1 + s[0] as int
  }

  lemma WrittenAsRead(t: IpText, atyp: Octet, s: seq<Octet>)
    requires Lawful(t) && DecodeHost(t, atyp, s).Some?
    ensures var (host, rest) := DecodeHost(t, atyp, s).value;
            && HostLength(atyp, s) <= |s| && rest == s[HostLength(atyp, s)..]
            && AddressOctets(t, host).Some?
            && (if Rewritten(t, atyp, s) then AddressOctets(t, host).value[..1] != [atyp]
                else AddressOctets(t, host).value == [atyp] + s[..HostLength(atyp, s)])
  {
    if atyp == DOMAIN {
      var l: nat := s[0];
      assert s[..1 + l] == [s[0]] + s[1..][..l] && s[1..][l..] == s[1 + l..];
    }
  }

  /**
   What is read and written again is the same octets, unless an IPv4 address came in the IPv6 form or
   an address came as the text of a name.
   */
  lemma RequestOfDecode(t: IpText, atyp: Octet, s: seq<Octet>)
    requires Lawful(t) && DecodeAddr(t, atyp, s).Some?
    ensures var (host, port, rest) := DecodeAddr(t, atyp, s).value;
            && |rest| <= |s| && AddressOctets(t, host).Some?
            && (AddressOctets(t, host).value + PortOctets(port) == [atyp] + s[..|s| - |rest|]
                <==> !Rewritten(t, atyp, s))
  {
    var (host, rest1) := DecodeHost(t, atyp, s).value;
    var n := HostLength(atyp, s);
    WrittenAsRead(t, atyp, s);
    PortValue(rest1[..2]);
    var a, p := AddressOctets(t, host).value, rest1[..2];
    assert s[..n + 2] == s[..n] + p;
    if Rewritten(t, atyp, s) {
      assert (a + p)[..1] == a[..1] && ([atyp] + s[..n + 2])[..1] == [atyp];
    } else {
      assert a + p == [atyp] + s[..n + 2];
    }
  }

  // ---------------------------------------------------------------- readers

  /** The octets still to come from a connection. */
  class Conn {
    var rest: seq<Octet>

    constructor (octets: seq<Octet>)
      ensures rest == octets
    {
      rest := octets;
    }

    /** All `n` octets, or none when the stream ends before. */
    method ReadFull(n: nat) returns (b: Option<seq<Octet>>)
      modifies this
      ensures b == if n <= |old(rest)| then Some(old(rest)[..n]) else None
      ensures rest == if n <= |old(rest)| then old(rest)[n..] else []
    {
      if |rest| < n {
        rest := [];
        return None;
      }
      b := Some(rest[..n]);
      rest := rest[n..];
    }
  }

  method ReadSocksAddr(t: IpText, r: Conn, atyp: Octet) returns (host: Option<Host>)
    modifies r
    ensures var want := DecodeHost(t, atyp, old(r.rest));
            host.Some? == want.Some? && (want.Some? ==> host.value == want.value.0 && r.rest == want.value.1)
  {
    if atyp == IPV4 {
      var b := r.ReadFull(4);
      return if b.Some? then Some(t.show(From4(b.value))) else None;
    } else if atyp == DOMAIN {
      var l := r.ReadFull(1);
      if l.None? {
        return None;
      }
      var b := r.ReadFull(l.value[0]);
      return if b.Some? then Some(b.value) else None;
    } else if atyp == IPV6 {
      var b := r.ReadFull(16);
      return if b.Some? then Some(t.show(b.value)) else None;
    }
    host := None;
  }

  method Socks5ReadAddr(t: IpText, r: Conn, atyp: Octet) returns (got: Option<(Host, nat)>)
    modifies r
    ensures var want := DecodeAddr(t, atyp, old(r.rest));
            && got.Some? == want.Some?
            && (want.Some? ==> got.value == (want.value.0, want.value.1) && r.rest == want.value.2)
  {
    var host := ReadSocksAddr(t, r, atyp);
    if host.None? {
      return None;
    }
    var b := r.ReadFull(2);
    if b.None? {
      return None;
    }
    PortValue(b.value);
    got := Some((host.value, b.value[0] as int * 256 + b.value[1]));
  }

  /** What a server sees of a request: the command, and the destination once the whole request is there. */
  method ReadRequest(t: IpText, r: Conn) returns (cmd: Octet, got: Option<(Host, nat)>)
    modifies r
    ensures |old(r.rest)| >= 4 && old(r.rest)[0] == VERSION && old(r.rest)[1] == 1 ==>
              var want := DecodeAddr(t, old(r.rest)[3], old(r.rest)[4..]);
              && cmd == 1 && got.Some? == want.Some?
              && (want.Some? ==> got.value == (want.value.0, want.value.1) && r.rest == want.value.2)
    ensures got.Some? ==> |old(r.rest)| >= 4 && old(r.rest)[0] == VERSION && old(r.rest)[1] == 1
  {
    var header := r.ReadFull(4);
    if header.None? {
      return 0, None;
    }
    cmd := header.value[1];
    if header.value[0] != VERSION || cmd != 1 {
      return cmd, None;
    }
    got := Socks5ReadAddr(t, r, header.value[3]);
  }
}
