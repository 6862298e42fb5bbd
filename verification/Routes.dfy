/**
 Assembly of the routes sent into the tunnel: selection by mode, carving out of the peer, the
 DNS servers, the IPv6 filter and the final clean-up, on routes that are still text.
 */
module Routes {
  import opened Basics
  import opened Cidr

  /** Reading and writing of addresses and prefixes, which the net/netip library does. */
  datatype Notation = Notation(prefix: string -> Option<Prefix>, addr: string -> Option<Addr>, show: Prefix -> string)

  /** What is read is well formed, and a prefix that was written reads back as itself. */
  ghost predicate Lawful(t: Notation) {
    && (forall s :: t.prefix(s).Some? ==> Valid(t.prefix(s).value))
    && (forall s :: t.addr(s).Some? ==> ValidAddr(t.addr(s).value))
    && (forall p :: Valid(p) ==> t.prefix(t.show(p)) == Some(p))
  }

  predicate RouteContains(t: Notation, route: string, a: Addr) {
    t.prefix(route).Some? && Contains(t.prefix(route).value, a)
  }

  /** The addresses a list of routes sends into the tunnel. */
  ghost predicate Routed(t: Notation, routes: seq<string>, a: Addr) {
    exists i :: 0 <= i < |routes| && RouteContains(t, routes[i], a)
  }

  lemma RoutedConcat(t: Notation, x: seq<string>, y: seq<string>, a: Addr)
    ensures Routed(t, x + y, a) <==> Routed(t, x, a) || Routed(t, y, a)
  {
    if i :| 0 <= i < |x| && RouteContains(t, x[i], a) { assert (x + y)[i] == x[i]; }
    if i :| 0 <= i < |y| && RouteContains(t, y[i], a) { assert (x + y)[|x| + i] == y[i]; }
    if i :| 0 <= i < |x + y| && RouteContains(t, (x + y)[i], a) {
      assert (x + y)[i] == if i < |x| then x[i] else y[i - |x|];
    }
  }

  // ---------------------------------------------------------------- carving

  function ShowAll(t: Notation, ps: seq<Prefix>): (r: seq<string>)
    ensures |r| == |ps| && forall i :: 0 <= i < |r| ==> r[i] == t.show(ps[i])
  {
    seq(|ps|, i requires 0 <= i < |ps| => t.show(ps[i]))
  }

  /** Subtraction on text: what cannot be read, or is of the other family, is left as it is written. */
  function SubtractCIDR(t: Notation, outer: string, inner: string): seq<string>
    requires Lawful(t)
  {
    var op, ip := t.prefix(outer), t.prefix(inner);
    if op.None? || ip.None? then [outer]
    else
      var r := Subtract(op.value, ip.value);
      if r == [op.value] then [outer] else ShowAll(t, r)
  }

  lemma SubtractValid(outer: Prefix, inner: Prefix)
    requires Valid(outer) && Valid(inner)
    ensures forall i :: 0 <= i < |Subtract(outer, inner)| ==> Valid(Subtract(outer, inner)[i])
  {
    var op, ip := Masked(outer), Masked(inner);
    MaskedTwice(outer);
    if op.addr.family == ip.addr.family && !(ip.len <= op.len && Contains(ip, op.addr)) && Contains(op, ip.addr) {
      ContainedIsLonger(op, ip);
      CarveLengths(op, ip);
    }
  }

  /** On text too, subtraction is set difference; an unreadable `inner` takes nothing away. */
  lemma SubtractCIDRExact(t: Notation, outer: string, inner: string, a: Addr)
    requires Lawful(t) && ValidAddr(a)
    ensures Routed(t, SubtractCIDR(t, outer, inner), a) <==>
            RouteContains(t, outer, a) && !RouteContains(t, inner, a)
  {
    var op, ip := t.prefix(outer), t.prefix(inner);
    var r := SubtractCIDR(t, outer, inner);
    if op.Some? && ip.Some? {
      SubtractExact(op.value, ip.value, a);
      SubtractValid(op.value, ip.value);
      var ps := Subtract(op.value, ip.value);
      if ps == [op.value] {
        assert r[0] == outer && ps[0] == op.value;
        assert Covers(ps, a) <==> Contains(ps[0], a);
      } else {
        if i :| 0 <= i < |ps| && Contains(ps[i], a) { assert RouteContains(t, r[i], a); }
        if i :| 0 <= i < |r| && RouteContains(t, r[i], a) { assert Contains(ps[i], a); }
      }
    } else {
      assert r[0] == outer;
    }
  }

  /** The prefix that holds one address. */
  function HostPrefix(a: Addr): Prefix {
    Prefix(a, |a.bits|)
  }

  lemma HostHoldsOne(a: Addr, b: Addr)
    requires ValidAddr(a) && ValidAddr(b)
    ensures Valid(HostPrefix(a)) && (Contains(HostPrefix(a), b) <==> a == b)
    ensures HostPrefix(a).len == if a.family == V4 then 32 else 128
  {
  }

  /** Carves the peer, if its address can be read, out of every route. */
  method CarvePeer(t: Notation, allowed: seq<string>, peer: string) returns (r: seq<string>)
    requires Lawful(t)
    ensures forall a :: ValidAddr(a) ==>
              (Routed(t, r, a) <==> Routed(t, allowed, a) && t.addr(peer) != Some(a))
  {
    if t.addr(peer).None? {
      return allowed;
    }
    ghost var host := t.addr(peer).value;
    var peerCIDR := t.show(HostPrefix(t.addr(peer).value));
    r := [];
    for k := 0 to |allowed|
      invariant forall a :: ValidAddr(a) ==> (Routed(t, r, a) <==> Routed(t, allowed[..k], a) && a != host)
    {
      var rest := SubtractCIDR(t, allowed[k], peerCIDR);
      forall a | ValidAddr(a)
        ensures Routed(t, r + rest, a) <==> Routed(t, allowed[..k + 1], a) && a != host
      {
        HostHoldsOne(host, a);
        SubtractCIDRExact(t, allowed[k], peerCIDR, a);
        RoutedConcat(t, r, rest, a);
        RoutedSnoc(t, allowed, k, a);
      }
      r := r + rest;
    }
    assert allowed[..|allowed|] == allowed;
  }

  lemma RoutedSnoc(t: Notation, routes: seq<string>, k: nat, a: Addr)
    requires k < |routes|
    ensures Routed(t, routes[..k + 1], a) <==> Routed(t, routes[..k], a) || RouteContains(t, routes[k], a)
  {
  }

  // ---------------------------------------------------------------- DNS servers

  /** One of the readable DNS addresses. */
  ghost predicate Listed(t: Notation, dns: seq<string>, a: Addr) {
    exists i :: 0 <= i < |dns| && t.addr(dns[i]) == Some(a)
  }

  lemma ListedSnoc(t: Notation, dns: seq<string>, k: nat, a: Addr)
    requires k < |dns|
    ensures Listed(t, dns[..k + 1], a) <==> Listed(t, dns[..k], a) || t.addr(dns[k]) == Some(a)
  {
  }

  /** A host route is covered by a route exactly when nothing is left of it. */
  lemma CoveredByRoute(t: Notation, a: Addr, route: string)
    requires Lawful(t) && ValidAddr(a)
    ensures SubtractCIDR(t, t.show(HostPrefix(a)), route) == [] <==> RouteContains(t, route, a)
  {
  }

  ghost predicate AllCovered(t: Notation, dns: seq<string>, allowed: seq<string>) {
    forall k :: 0 <= k < |dns| && t.addr(dns[k]).Some? ==> Routed(t, allowed, t.addr(dns[k]).value)
  }

  lemma NoneListed(t: Notation, a: Addr)
    ensures !Listed(t, [], a)
  {
  }

  /** Adds a host route for each DNS server that no route covers yet. */
  method EnsureDNSAllowedIPs(t: Notation, allowed: seq<string>, dns: seq<string>) returns (r: seq<string>)
    requires Lawful(t)
    ensures forall a :: ValidAddr(a) ==> (Routed(t, r, a) <==> Routed(t, allowed, a) || Listed(t, dns, a))
    ensures allowed <= r && |r| <= |allowed| + |dns|
    ensures AllCovered(t, dns, allowed) ==> r == allowed
  {
    hide Routed, Listed;
    r := allowed;
    forall a ensures !Listed(t, [], a) { NoneListed(t, a); }
    for k := 0 to |dns|
      invariant forall a :: ValidAddr(a) ==> (Routed(t, r, a) <==> Routed(t, allowed, a) || Listed(t, dns[..k], a))
      invariant allowed <= r && |r| <= |allowed| + k
      invariant AllCovered(t, dns, allowed) ==> r == allowed
    {
      r := EnsureOne(t, r, dns[k]);
      forall a | ValidAddr(a)
        ensures Listed(t, dns[..k + 1], a) <==> Listed(t, dns[..k], a) || t.addr(dns[k]) == Some(a)
      {
        ListedSnoc(t, dns, k, a);
      }
    }
    assert dns[..|dns|] == dns;
  }

  /** The body of the loop of `EnsureDNSAllowedIPs`. */
  method EnsureOne(t: Notation, allowed: seq<string>, server: string) returns (r: seq<string>)
    requires Lawful(t)
    ensures forall a :: ValidAddr(a) ==> (Routed(t, r, a) <==> Routed(t, allowed, a) || t.addr(server) == Some(a))
    ensures r == allowed +
                 if t.addr(server).Some? && !Routed(t, allowed, t.addr(server).value)
                 then [t.show(HostPrefix(t.addr(server).value))] else []
  {
    r := allowed;
    if t.addr(server).None? {
      return;
    }
    var addr := t.addr(server).value;
    var cidr := t.show(HostPrefix(addr));
    var covered, i := false, 0;
    while i < |allowed|
      invariant 0 <= i <= |allowed|
      invariant covered ==> Routed(t, allowed, addr)
      invariant !covered ==> !Routed(t, allowed[..i], addr)
    {
      CoveredByRoute(t, addr, allowed[i]);
      if |SubtractCIDR(t, cidr, allowed[i])| == 0 {
        covered := true;
        break;
      }
      RoutedSnoc(t, allowed, i, addr);
      i := i + 1;
    }
    assert allowed[..|allowed|] == allowed;
    if !covered {
      r := allowed + [cidr];
      forall a | ValidAddr(a) ensures Routed(t, r, a) <==> Routed(t, allowed, a) || addr == a {
        HostHoldsOne(addr, a);
        RoutedConcat(t, allowed, [cidr], a);
        assert Routed(t, [cidr], a) <==> RouteContains(t, [cidr][0], a);
      }
    }
  }

  // ---------------------------------------------------------------- compaction in place

  /** Routes an IPv4-only tunnel keeps: all that is not an IPv6 prefix. */
  predicate NotV6(t: Notation, route: string) {
    t.prefix(route).None? || t.prefix(route).value.addr.family == V4
  }

  /** What survives the IPv6 filter. */
  function WithoutV6(t: Notation, routes: seq<string>): seq<string> {
    Filter(routes, r => NotV6(t, r))
  }

  /** What survives normalisation: readable routes, each text once, at its first place. */
  function Normalized(t: Notation, routes: seq<string>): seq<string> {
    if routes == [] then []
    else
      var n := |routes| - 1;
      var before := Normalized(t, routes[..n]);
      if t.prefix(routes[n]).None? || routes[n] in before then before else before + [routes[n]]
  }

  /** Compacts the first `n` elements in place and returns how many are left; the reads stay ahead of the writes. */
  method FilterIPv6Routes(t: Notation, a: array<string>, n: nat) returns (m: nat)
    requires n <= a.Length
    modifies a
    ensures m <= n && a[..m] == WithoutV6(t, old(a[..n]))
  {
    m := 0;
    ghost var routes := a[..n];
    ghost var keep := (r: string) => NotV6(t, r);
    for i := 0 to n
      invariant m <= i && forall j :: i <= j < n ==> a[j] == routes[j]
      invariant a[..m] == Filter(routes[..i], keep)
    {
      FilterNext(routes, i, keep);
      var route := a[i];
      if t.prefix(route).None? || t.prefix(route).value.addr.family == V4 {
        a[m] := route;
        m := m + 1;
        assert a[..m] == Filter(routes[..i], keep) + [route];
      }
    }
    assert routes[..n] == routes;
  }

  lemma FilterNext(routes: seq<string>, i: nat, keep: string -> bool)
    requires i < |routes|
    ensures Filter(routes[..i + 1], keep) == Filter(routes[..i], keep) + if keep(routes[i]) then [routes[i]] else []
  {
    assert routes[..i + 1] == routes[..i] + [routes[i]];
    FilterConcat(routes[..i], [routes[i]], keep);
    assert [routes[i]][1..] == [];
  }

  method NormalizeCIDRs(t: Notation, a: array<string>, n: nat) returns (m: nat)
    requires n <= a.Length
    modifies a
    ensures m <= n && a[..m] == Normalized(t, old(a[..n]))
  {
    m := 0;
    ghost var routes := a[..n];
    var seen: set<string> := {};
    for i := 0 to n
      invariant m <= i && forall j :: i <= j < n ==> a[j] == routes[j]
      invariant a[..m] == Normalized(t, routes[..i])
      invariant seen == set s | s in a[..m]
    {
      assert routes[..i + 1][..i] == routes[..i];
      var route := a[i];
      if t.prefix(route).Some? && route !in seen {
        seen := seen + {route};
        a[m] := route;
        m := m + 1;
        assert a[..m] == Normalized(t, routes[..i]) + [route];
      }
    }
    assert routes[..n] == routes;
  }

  /** The filter takes away exactly the IPv6 addresses. */
  lemma {:induction false} WithoutV6Meaning(t: Notation, routes: seq<string>, a: Addr)
    ensures Routed(t, WithoutV6(t, routes), a) <==> Routed(t, routes, a) && a.family == V4
  {
    if routes == [] {
    } else {
      WithoutV6Meaning(t, routes[1..], a);
      assert routes == [routes[0]] + routes[1..];
      var head := if NotV6(t, routes[0]) then [routes[0]] else [];
      RoutedConcat(t, head, WithoutV6(t, routes[1..]), a);
      RoutedConcat(t, [routes[0]], routes[1..], a);
      assert Routed(t, [routes[0]], a) <==> RouteContains(t, [routes[0]][0], a);
      if head != [] {
        assert Routed(t, head, a) <==> RouteContains(t, head[0], a);
      }
    }
  }

  /** The filter keeps what cannot be read, and readable routes of IPv4. */
  lemma WithoutV6Keeps(t: Notation, routes: seq<string>)
    ensures forall r :: r in WithoutV6(t, routes) <==>
              r in routes && (t.prefix(r).None? || t.prefix(r).value.addr.family != V6)
  {
    FilterMembers(routes, r => NotV6(t, r));
  }

  /** Normalisation changes no address, keeps every text once, and leaves only readable routes. */
  lemma {:induction false} NormalizedMeaning(t: Notation, routes: seq<string>, a: Addr)
    ensures Routed(t, Normalized(t, routes), a) <==> Routed(t, routes, a)
    ensures forall r :: r in Normalized(t, routes) <==> r in routes && t.prefix(r).Some?
    ensures forall i, j :: 0 <= i < j < |Normalized(t, routes)| ==> Normalized(t, routes)[i] != Normalized(t, routes)[j]
  {
    if routes != [] {
      var n := |routes| - 1;
      NormalizedMeaning(t, routes[..n], a);
      assert routes == routes[..n] + [routes[n]];
      var before := Normalized(t, routes[..n]);
      RoutedConcat(t, routes[..n], [routes[n]], a);
      RoutedConcat(t, before, [routes[n]], a);
      assert Routed(t, [routes[n]], a) <==> RouteContains(t, [routes[n]][0], a);
      if routes[n] in before && RouteContains(t, routes[n], a) {
        var i :| 0 <= i < |before| && before[i] == routes[n];
        assert Routed(t, before, a);
      }
    }
  }

  // ---------------------------------------------------------------- the pipeline

  datatype RouteMode = Split | Full

  datatype RouteResult = Routes(allowed: seq<string>) | NoRoutes

  /** The routes the server sent for a mode. */
  datatype Offer = Offer(split4: seq<string>, split6: seq<string>, full4: seq<string>, full6: seq<string>)

  function Selected(mode: RouteMode, offer: Offer): seq<string> {
    match mode
    case Split => offer.split4 + offer.split6
    case Full => offer.full4 + offer.full6
  }

  /** Split mode takes the two split lists, full mode the two full ones. */
  ghost predicate Offered(t: Notation, mode: RouteMode, offer: Offer, a: Addr) {
    match mode
    case Split => Routed(t, offer.split4, a) || Routed(t, offer.split6, a)
    case Full => Routed(t, offer.full4, a) || Routed(t, offer.full6, a)
  }

  lemma SelectedIsOffered(t: Notation, mode: RouteMode, offer: Offer, a: Addr)
    ensures Routed(t, Selected(mode, offer), a) <==> Offered(t, mode, offer, a)
  {
    RoutedConcat(t, offer.split4, offer.split6, a);
    RoutedConcat(t, offer.full4, offer.full6, a);
  }

  /**
   The addresses routed into the tunnel are those of the lists the server sent for the mode without the
   peer, plus the DNS servers, and only IPv4 when the tunnel has no IPv6 address; full mode without
   routes is refused.
   */
  method BuildAllowedIPs(t: Notation, mode: RouteMode, offer: Offer, peer: string, dns: seq<string>, has6: bool)
    returns (r: RouteResult)
    requires Lawful(t)
    ensures r.NoRoutes? <==> mode == Full && offer.full4 == [] && offer.full6 == []
    ensures r.Routes? ==> forall a :: ValidAddr(a) ==>
              (Routed(t, r.allowed, a) <==>
               && ((t.addr(peer) != Some(a) &&
                    (match mode
                     case Split => Routed(t, offer.split4, a) || Routed(t, offer.split6, a)
                     case Full => Routed(t, offer.full4, a) || Routed(t, offer.full6, a)))
                   || Listed(t, dns, a))
               && (has6 || a.family == V4))
    ensures r.Routes? ==> forall s :: s in r.allowed ==> t.prefix(s).Some?
    ensures r.Routes? && t.addr(peer).Some? && !Listed(t, dns, t.addr(peer).value) ==>
              !Routed(t, r.allowed, t.addr(peer).value)
  {
    hide Routed, Listed, Contains, RouteContains;
    var allowed := Selected(mode, offer);
    if mode == Full && |allowed| == 0 {
      return NoRoutes;
    }
    allowed := CarvePeer(t, allowed, peer);
    allowed := EnsureDNSAllowedIPs(t, allowed, dns);
    var all, n := new string[|allowed|](i requires 0 <= i < |allowed| => allowed[i]), |allowed|;
    assert all[..n] == allowed;
    ghost var filtered := allowed;
    if !has6 {
      filtered := WithoutV6(t, allowed);
      n := FilterIPv6Routes(t, all, n);
    }
    n := NormalizeCIDRs(t, all, n);
    forall a | ValidAddr(a)
      ensures Routed(t, all[..n], a) <==> Routed(t, allowed, a) && (has6 || a.family == V4)
    {
      WithoutV6Meaning(t, allowed, a);
      NormalizedMeaning(t, filtered, a);
    }
    forall a | ValidAddr(a)
      ensures Routed(t, Selected(mode, offer), a) <==> Offered(t, mode, offer, a)
    {
      SelectedIsOffered(t, mode, offer, a);
    }
    NormalizedMeaning(t, filtered, Addr(V4, Zeros(32)));
    return Routes(all[..n]);
  }
}
