/**
 Address prefixes and the subtraction of one from another. An address is its bits, most
 significant first; a prefix fixes the first few of them.
 */
module Cidr {
  import opened Basics

  datatype Family = V4 | V6

  function Width(f: Family): nat {
    if f == V4 then 32 else 128
  }

  datatype Addr = Addr(family: Family, bits: seq<bool>)

  /** As written, the address may have bits beyond the length. */
  datatype Prefix = Prefix(addr: Addr, len: nat)

  ghost predicate ValidAddr(a: Addr) {
    |a.bits| == Width(a.family)
  }

  ghost predicate Valid(p: Prefix) {
    ValidAddr(p.addr) && p.len <= Width(p.addr.family)
  }

  predicate Contains(p: Prefix, a: Addr) {
    p.addr.family == a.family && p.len <= |p.addr.bits| && p.len <= |a.bits| && p.addr.bits[..p.len] == a.bits[..p.len]
  }

  function Zeros(n: nat): seq<bool> {
    seq(n, _ => false)
  }

  function Masked(p: Prefix): (m: Prefix)
    requires Valid(p)
    ensures Valid(m) && m.len == p.len && m.addr.family == p.addr.family
    ensures m.addr.bits[..p.len] == p.addr.bits[..p.len]
  {
    Prefix(Addr(p.addr.family, p.addr.bits[..p.len] + Zeros(|p.addr.bits| - p.len)), p.len)
  }

  /** The address with bit `pos`, counted from the most significant, set. */
  function SetBit(a: Addr, pos: nat): Addr
    requires pos < |a.bits|
  {
    a.(bits := a.bits[pos := true])
  }

  // ---------------------------------------------------------------- bytes

  /** Bit `i` of a byte string, most significant first. */
  function BitOf(b: seq<bv8>, i: nat): bool
    requires i < 8 * |b|
  {
    (b[i / 8] >> (7 - i % 8)) & 1 == 1
  }

  function BitsOf(b: seq<bv8>): (s: seq<bool>)
    ensures |s| == 8 * |b| && forall i :: 0 <= i < |s| ==> s[i] == BitOf(b, i)
  {
    seq(8 * |b|, i requires 0 <= i < 8 * |b| => BitOf(b, i))
  }

  /** Setting a bit the way the byte array does: or-ing a shifted one into the byte that holds it. */
  function SetBitInBytes(b: seq<bv8>, pos: nat): seq<bv8>
    requires pos < 8 * |b|
  {
    b[pos / 8 := b[pos / 8] | (1 << (7 - pos % 8))]
  }

  lemma BitAfterSet(b: seq<bv8>, pos: nat, i: nat)
    requires pos < 8 * |b| && i < 8 * |b|
    ensures BitOf(SetBitInBytes(b, pos), i) == (i == pos || BitOf(b, i))
  {
  }

  /** On bytes and on bits, setting a bit is the same operation. */
  lemma SetBitRefines(b: seq<bv8>, pos: nat)
    requires pos < 8 * |b|
    ensures BitsOf(SetBitInBytes(b, pos)) == BitsOf(b)[pos := true]
  {
    var after := BitsOf(SetBitInBytes(b, pos));
    forall i | 0 <= i < |after| ensures after[i] == BitsOf(b)[pos := true][i] {
      BitAfterSet(b, pos, i);
    }
  }

  // ---------------------------------------------------------------- carving

  function Lower(outer: Prefix): Prefix
    requires Valid(outer) && outer.len < Width(outer.addr.family)
  {
    Masked(Prefix(outer.addr, outer.len + 1))
  }

  function Upper(outer: Prefix): Prefix
    requires Valid(outer) && outer.len < Width(outer.addr.family)
  {
    Masked(Prefix(SetBit(outer.addr, outer.len), outer.len + 1))
  }

  /** `inner` lies within `outer`, and `outer` has no bits beyond its length. */
  ghost predicate Within(outer: Prefix, inner: Prefix) {
    Valid(outer) && Valid(inner) && outer == Masked(outer) && Contains(outer, inner.addr) && outer.len <= inner.len
  }

  lemma Halves(outer: Prefix, inner: Prefix)
    requires Within(outer, inner) && outer.len < inner.len
    ensures var low := Contains(Lower(outer), inner.addr);
            && Within(if low then Lower(outer) else Upper(outer), inner)
            && Valid(Lower(outer)) && Valid(Upper(outer))
            && Lower(outer).len == Upper(outer).len == outer.len + 1
  {
    var n := outer.len;
    assert outer.addr.bits[n] == Masked(outer).addr.bits[n] == false;
    MaskedTwice(Prefix(outer.addr, n + 1));
    MaskedTwice(Prefix(SetBit(outer.addr, n), n + 1));
    HalvesSplit(outer, inner.addr);
  }

  lemma MaskedTwice(p: Prefix)
    requires Valid(p)
    ensures Masked(Masked(p)) == Masked(p)
  {
  }

  /** An address of `outer` is in exactly one of its halves. */
  lemma HalvesSplit(outer: Prefix, a: Addr)
    requires Valid(outer) && outer == Masked(outer) && outer.len < Width(outer.addr.family) && ValidAddr(a)
    ensures Contains(Lower(outer), a) <==> Contains(outer, a) && !a.bits[outer.len]
    ensures Contains(Upper(outer), a) <==> Contains(outer, a) && a.bits[outer.len]
  {
  }

  function Carve(outer: Prefix, inner: Prefix): seq<Prefix>
    requires Within(outer, inner)
    decreases inner.len - outer.len
  {
    if outer.len == inner.len then []
    else
      Halves(outer, inner);
      var low := Contains(Lower(outer), inner.addr);
      var containing, sibling := if low then Lower(outer) else Upper(outer), if low then Upper(outer) else Lower(outer);
      [sibling] + Carve(containing, inner)
  }

  /** Some prefix of the list contains the address. */
  ghost predicate Covers(ps: seq<Prefix>, a: Addr) {
    exists i :: 0 <= i < |ps| && Contains(ps[i], a)
  }

  lemma CoversCons(p: Prefix, ps: seq<Prefix>, a: Addr)
    ensures Covers([p] + ps, a) <==> Contains(p, a) || Covers(ps, a)
  {
    if Contains(p, a) { assert ([p] + ps)[0] == p; }
    if i :| 0 <= i < |ps| && Contains(ps[i], a) { assert ([p] + ps)[i + 1] == ps[i]; }
  }

  /** Carving is set difference, address by address. */
  lemma {:induction false} CarveExact(outer: Prefix, inner: Prefix, a: Addr)
    requires Within(outer, inner) && ValidAddr(a)
    ensures Covers(Carve(outer, inner), a) <==> Contains(outer, a) && !Contains(inner, a)
    decreases inner.len - outer.len
  {
    if outer.len == inner.len {
      assert outer.addr.bits[..outer.len] == inner.addr.bits[..inner.len];
    } else {
      Halves(outer, inner);
      var low := Contains(Lower(outer), inner.addr);
      var containing, sibling := if low then Lower(outer) else Upper(outer), if low then Upper(outer) else Lower(outer);
      HalvesSplit(outer, a);
      HalvesSplit(outer, inner.addr);
      CarveExact(containing, inner, a);
      CoversCons(sibling, Carve(containing, inner), a);
      if Contains(inner, a) {
        assert inner.addr.bits[..inner.len][outer.len] == a.bits[..inner.len][outer.len];
      }
    }
  }

  /** One prefix of every length between the two, longest last. */
  lemma {:induction false} CarveLengths(outer: Prefix, inner: Prefix)
    requires Within(outer, inner)
    ensures var r := Carve(outer, inner);
            && |r| == inner.len - outer.len
            && forall i :: 0 <= i < |r| ==> Valid(r[i]) && r[i].len == outer.len + 1 + i && r[i] == Masked(r[i])
    decreases inner.len - outer.len
  {
    if outer.len < inner.len {
      Halves(outer, inner);
      MaskedTwice(Prefix(outer.addr, outer.len + 1));
      MaskedTwice(Prefix(SetBit(outer.addr, outer.len), outer.len + 1));
      var low := Contains(Lower(outer), inner.addr);
      CarveLengths(if low then Lower(outer) else Upper(outer), inner);
    }
  }

  /** No address is in two of the carved prefixes. */
  lemma {:induction false} CarveDisjoint(outer: Prefix, inner: Prefix, i: nat, j: nat, a: Addr)
    requires Within(outer, inner) && ValidAddr(a)
    requires i < j < |Carve(outer, inner)|
    ensures !(Contains(Carve(outer, inner)[i], a) && Contains(Carve(outer, inner)[j], a))
    decreases inner.len - outer.len
  {
    hide Contains, Masked;
    Halves(outer, inner);
    var low := Contains(Lower(outer), inner.addr);
    var containing := if low then Lower(outer) else Upper(outer);
    var rest := Carve(containing, inner);
    assert Carve(outer, inner)[j] == rest[j - 1];
    if i > 0 {
      assert Carve(outer, inner)[i] == rest[i - 1];
      CarveDisjoint(containing, inner, i - 1, j - 1, a);
    } else if Contains(rest[j - 1], a) {
      CarveExact(containing, inner, a);
      assert Contains(containing, a);
      assert Carve(outer, inner)[i] == if low then Upper(outer) else Lower(outer);
      HalvesApart(outer, a);
    }
  }

  lemma HalvesApart(outer: Prefix, a: Addr)
    requires Valid(outer) && outer == Masked(outer) && outer.len < Width(outer.addr.family) && ValidAddr(a)
    ensures !(Contains(Lower(outer), a) && Contains(Upper(outer), a))
  {
    HalvesSplit(outer, a);
  }

  // ---------------------------------------------------------------- minimality

  lemma {:induction false} Pigeonhole(s: seq<nat>, m: nat)
    requires forall i :: 0 <= i < |s| ==> s[i] < m
    requires forall i, j :: 0 <= i < j < |s| ==> s[i] != s[j]
    ensures |s| <= m
  {
    if |s| == 0 {
    } else if k :| 0 <= k < |s| && s[k] == m - 1 {
      var rest := s[..k] + s[k + 1..];
      forall i | 0 <= i < |rest| ensures rest[i] < m - 1 {
        assert rest[i] == s[if i < k then i else i + 1];
      }
      Pigeonhole(rest, m - 1);
    } else {
      assert s[0] < m;
      Pigeonhole(s, m - 1);
    }
  }

  /** The inner address with one bit flipped. */
  function Flip(inner: Prefix, k: nat): Addr
    requires k < |inner.addr.bits|
  {
    inner.addr.(bits := inner.addr.bits[k := !inner.addr.bits[k]])
  }

  lemma FlipOutside(outer: Prefix, inner: Prefix, k: nat)
    requires Within(outer, inner) && outer.len <= k < inner.len
    ensures ValidAddr(Flip(inner, k)) && Contains(outer, Flip(inner, k)) && !Contains(inner, Flip(inner, k))
  {
  }

  /** A prefix with two flipped addresses has the inner address too. */
  lemma TwoFlips(p: Prefix, inner: Prefix, j: nat, k: nat)
    requires Valid(p) && Valid(inner) && j < k < inner.len
    requires Contains(p, Flip(inner, j)) && Contains(p, Flip(inner, k))
    ensures Contains(p, inner.addr)
  {
  }

  ghost predicate IsDifference(ps: seq<Prefix>, outer: Prefix, inner: Prefix) {
    forall a :: ValidAddr(a) ==> (Covers(ps, a) <==> Contains(outer, a) && !Contains(inner, a))
  }

  lemma InnerNotCovered(outer: Prefix, inner: Prefix, ps: seq<Prefix>, i: nat)
    requires Within(outer, inner) && IsDifference(ps, outer, inner) && i < |ps|
    ensures !Contains(ps[i], inner.addr)
  {
  }

  /** No shorter list of prefixes covers the difference. */
  lemma CarveMinimal(outer: Prefix, inner: Prefix, ps: seq<Prefix>)
    requires Within(outer, inner) && IsDifference(ps, outer, inner)
    requires forall i :: 0 <= i < |ps| ==> Valid(ps[i])
    ensures |Carve(outer, inner)| <= |ps|
  {
    hide Carve, Contains, Masked, Covers, Flip;
    CarveLengths(outer, inner);
    forall k | outer.len <= k < inner.len ensures Covers(ps, Flip(inner, k)) {
      FlipOutside(outer, inner, k);
    }
    var choice := ChooseCovers(ps, inner, outer.len, inner.len);
    forall j, k | 0 <= j < k < |choice| ensures choice[j] != choice[k] {
      if choice[j] == choice[k] {
        InnerNotCovered(outer, inner, ps, choice[j]);
        TwoFlips(ps[choice[j]], inner, outer.len + j, outer.len + k);
      }
    }
    Pigeonhole(choice, |ps|);
  }

  lemma {:induction false} ChooseCovers(ps: seq<Prefix>, inner: Prefix, from: nat, to: nat) returns (choice: seq<nat>)
    requires from <= to <= |inner.addr.bits|
    requires forall k :: from <= k < to ==> Covers(ps, Flip(inner, k))
    ensures |choice| == to - from
    ensures forall k :: 0 <= k < |choice| ==> choice[k] < |ps| && Contains(ps[choice[k]], Flip(inner, from + k))
  {
    if from == to {
      choice := [];
    } else {
      choice := ChooseCovers(ps, inner, from, to - 1);
      assert Covers(ps, Flip(inner, to - 1));
      var i :| 0 <= i < |ps| && Contains(ps[i], Flip(inner, to - 1));
      choice := choice + [i];
    }
  }

  // ---------------------------------------------------------------- subtraction

  /**
   `outer` minus `inner`: carved when `outer` strictly holds `inner`, whole when they do not meet,
   nothing when covered.
   */
  function Subtract(outer: Prefix, inner: Prefix): seq<Prefix>
    requires Valid(outer) && Valid(inner)
  {
    var op, ip := Masked(outer), Masked(inner);
    if op.addr.family != ip.addr.family then [outer]
    else if ip.len <= op.len && Contains(ip, op.addr) then []
    else if !Contains(op, ip.addr) then [outer]
    else
      MaskedTwice(outer);
      ContainedIsLonger(op, ip);
      Carve(op, ip)
  }

  /** Of two prefixes with a common address, the shorter contains the other's own address and all it contains. */
  lemma Nested(p: Prefix, q: Prefix, a: Addr)
    requires Valid(p) && Valid(q) && p.len <= q.len && Contains(q, a)
    ensures Contains(p, a) <==> Contains(p, q.addr)
  {
  }

  lemma ContainedIsLonger(op: Prefix, ip: Prefix)
    requires Valid(op) && Valid(ip) && Contains(op, ip.addr) && !(ip.len <= op.len && Contains(ip, op.addr))
    ensures op.len < ip.len
  {
  }

  /** Subtraction is set difference in every case. */
  lemma SubtractExact(outer: Prefix, inner: Prefix, a: Addr)
    requires Valid(outer) && Valid(inner) && ValidAddr(a)
    ensures Covers(Subtract(outer, inner), a) <==> Contains(outer, a) && !Contains(inner, a)
  {
    var op, ip := Masked(outer), Masked(inner);
    MaskedTwice(outer);
    CoversCons(outer, [], a);
    assert [outer] + [] == [outer];
    assert Contains(op, a) == Contains(outer, a) && Contains(ip, a) == Contains(inner, a);
    if op.addr.family != ip.addr.family {
    } else if Contains(op, ip.addr) && !(ip.len <= op.len && Contains(ip, op.addr)) {
      ContainedIsLonger(op, ip);
      CarveExact(op, ip, a);
    } else if Contains(op, a) {
      if ip.len <= op.len {
        Nested(ip, op, a);
      } else if Contains(ip, a) {
        Nested(op, ip, a);
      }
    }
  }

  /**
   When `outer` strictly holds `inner`, the result has one prefix per extra bit, none overlapping, and
   is as short as any cover.
   */
  lemma SubtractMinimal(outer: Prefix, inner: Prefix, ps: seq<Prefix>)
    requires Valid(outer) && Valid(inner) && outer.len < inner.len && Contains(outer, inner.addr)
    ensures var r := Subtract(outer, inner);
            && |r| == inner.len - outer.len
            && (forall i :: 0 <= i < |r| ==> Valid(r[i]) && r[i].len == outer.len + 1 + i)
            && (forall i, j, a :: 0 <= i < j < |r| && ValidAddr(a) ==> !(Contains(r[i], a) && Contains(r[j], a)))
    ensures (forall i :: 0 <= i < |ps| ==> Valid(ps[i])) && IsDifference(ps, outer, inner) ==>
              |Subtract(outer, inner)| <= |ps|
  {
    var op, ip := Masked(outer), Masked(inner);
    MaskedTwice(outer);
    assert ip.addr.bits[..op.len] == ip.addr.bits[..ip.len][..op.len] == inner.addr.bits[..ip.len][..op.len];
    CarveLengths(op, ip);
    var r := Subtract(outer, inner);
    forall i, j, a | 0 <= i < j < |r| && ValidAddr(a) ensures !(Contains(r[i], a) && Contains(r[j], a)) {
      CarveDisjoint(op, ip, i, j, a);
    }
    if (forall i :: 0 <= i < |ps| ==> Valid(ps[i])) && IsDifference(ps, outer, inner) {
      CarveMinimal(op, ip, ps);
    }
  }
}
