/** Distinct values in order of their latest occurrence, newest first. */
module Recency {
  function Drop<K(==, !new)>(s: seq<K>, k: K): (r: seq<K>)
    ensures forall x :: x in r <==> x in s && x != k
  {
    if s == [] then [] else (if s[0] != k then [s[0]] else []) + Drop(s[1..], k)
  }

  lemma {:induction false} DropConcat<K(!new)>(a: seq<K>, b: seq<K>, k: K)
    ensures Drop(a + b, k) == Drop(a, k) + Drop(b, k)
  {
    if a == [] {
      assert a + b == b;
    } else {
      assert (a + b)[1..] == a[1..] + b;
      DropConcat(a[1..], b, k);
    }
  }

  /** Moving a value to the front, as one use of it does. */
  function Touch<K(==, !new)>(s: seq<K>, k: K): seq<K> {
    [k] + Drop(s, k)
  }

  function MostRecent<K(==, !new)>(uses: seq<K>): seq<K> {
    if uses == [] then [] else Touch(MostRecent(uses[..|uses| - 1]), uses[|uses| - 1])
  }

  ghost predicate Distinct<K>(s: seq<K>) {
    forall i, j :: 0 <= i < j < |s| ==> s[i] != s[j]
  }

  /** `k` is used at `i` and not after. */
  ghost predicate LastUse<K>(uses: seq<K>, k: K, i: nat) {
    i < |uses| && uses[i] == k && forall j :: i < j < |uses| ==> uses[j] != k
  }

  lemma DistinctTail<K(!new)>(s: seq<K>)
    requires s != [] && Distinct(s)
    ensures Distinct(s[1..]) && s[0] !in s[1..]
  {
  }

  lemma DistinctCons<K(!new)>(k: K, s: seq<K>)
    requires Distinct(s) && k !in s
    ensures Distinct([k] + s)
  {
  }

  lemma {:induction false} DropDistinct<K(!new)>(s: seq<K>, k: K)
    requires Distinct(s)
    ensures Distinct(Drop(s, k))
  {
    if s != [] {
      DistinctTail(s);
      DropDistinct(s[1..], k);
      if s[0] != k {
        DistinctCons(s[0], Drop(s[1..], k));
      } else {
        assert [] + Drop(s[1..], k) == Drop(s[1..], k);
      }
    }
  }

  /** Dropping a value from a list keeps the order of the others. */
  lemma {:induction false} DropOrder<K(!new)>(s: seq<K>, k: K, a: K, b: K, i: nat, j: nat)
    requires i < j < |Drop(s, k)| && Drop(s, k)[i] == a && Drop(s, k)[j] == b
    ensures exists m, n :: 0 <= m < n < |s| && s[m] == a && s[n] == b
  {
    var head := if s[0] != k then [s[0]] else [];
    assert Drop(s, k) == head + Drop(s[1..], k);
    if i >= |head| {
      DropOrder(s[1..], k, a, b, i - |head|, j - |head|);
      var m, n :| 0 <= m < n < |s[1..]| && s[1..][m] == a && s[1..][n] == b;
      assert s[m + 1] == a && s[n + 1] == b;
    } else {
      assert s[0] == a;
      assert Drop(s[1..], k)[j - |head|] == b;
      assert b in s[1..];
      var n :| 0 <= n < |s[1..]| && s[1..][n] == b;
      assert s[n + 1] == b;
    }
  }

  lemma {:induction false} MostRecentDistinct<K(!new)>(uses: seq<K>)
    ensures Distinct(MostRecent(uses))
    ensures forall k :: k in MostRecent(uses) <==> k in uses
  {
    if uses != [] {
      var n := |uses| - 1;
      MostRecentDistinct(uses[..n]);
      DropDistinct(MostRecent(uses[..n]), uses[n]);
      DistinctCons(uses[n], Drop(MostRecent(uses[..n]), uses[n]));
      assert uses == uses[..n] + [uses[n]];
    }
  }

  /**
   `MostRecent` is what its name says: with `MostRecentDistinct`, it lists exactly the values
   used, each once, and an earlier entry was last used later.
   */
  lemma {:induction false} MostRecentOrder<K(!new)>(uses: seq<K>, i: nat, j: nat, p: nat, q: nat)
    requires i < j < |MostRecent(uses)|
    requires LastUse(uses, MostRecent(uses)[i], p) && LastUse(uses, MostRecent(uses)[j], q)
    ensures q < p
  {
    var n := |uses| - 1;
    var before, k := uses[..n], uses[n];
    var r, older := MostRecent(uses), Drop(MostRecent(before), k);
    assert r == [k] + older;
    MostRecentDistinct(uses);
    assert r[j] != r[0] == k;
    assert q < n && LastUse(before, r[j], q);
    if i == 0 {
      assert p == n;
    } else {
      assert r[i] != k && LastUse(before, r[i], p);
      DropOrder(MostRecent(before), k, r[i], r[j], i - 1, j - 1);
      var m, m' :|
        0 <= m < m' < |MostRecent(before)| && MostRecent(before)[m] == r[i] && MostRecent(before)[m'] == r[j];
      MostRecentOrder(before, m, m', p, q);
    }
  }
}
