/** Octets and the sixteen-octet form in which parsed addresses are held, IPv4 ones included. */
module Octets {
  import opened Basics

  type Octet = n: int | 0 <= n < 256

  /** Sixteen octets; an IPv4 address is mapped under ten zeros and two 255s. */
  type Ip = b: seq<Octet> | |b| == 16 witness seq(16, _ => 0)

  const MAPPED: seq<Octet> := [0, 0, 0, 0, 0, 0, 0, 0, 0, 0, 255, 255]

  /** The IPv4 form of an address that has one. */
  function To4(ip: Ip): (r: Option<seq<Octet>>)
    ensures r.Some? ==> |r.value| == 4 && MAPPED + r.value == ip
    ensures r.None? ==> forall v: seq<Octet> :: |v| == 4 ==> MAPPED + v != ip
  {
    if ip[..12] == MAPPED then
      assert ip == ip[..12] + ip[12..];
      Some(ip[12..])
    else
      assert forall v: seq<Octet> :: (MAPPED + v)[..12] == MAPPED;
      None
  }

  function From4(v: seq<Octet>): (ip: Ip)
    requires |v| == 4
    ensures To4(ip) == Some(v)
  {
    assert (MAPPED + v)[..12] == MAPPED && (MAPPED + v)[12..] == v;
    MAPPED + v
  }

  /** The number written by octets, most significant first. */
  function Value(v: seq<Octet>): nat {
    if v == [] then 0 else 256 * Value(v[..|v| - 1]) + v[|v| - 1]
  }
}
