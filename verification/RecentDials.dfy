/** The short list of recently dialed destinations, against the full history of dials it stands for. */
module RecentDials {
  import opened Basics
  import opened Recency

  const TTL: int := 600

  const CAP: nat := 8

  datatype Dial = Dial(addr: string, at: int)

  predicate Fresh(d: Dial, now: int) {
    now - d.at <= TTL
  }

  function FreshOf(dials: seq<Dial>, now: int): seq<Dial> {
    if dials == [] then []
    else (if Fresh(dials[0], now) then [dials[0]] else []) + FreshOf(dials[1..], now)
  }

  function DropAddr(dials: seq<Dial>, addr: string): seq<Dial> {
    if dials == [] then []
    else (if dials[0].addr != addr then [dials[0]] else []) + DropAddr(dials[1..], addr)
  }

  function Take<T>(s: seq<T>, n: nat): (r: seq<T>)
    ensures r <= s && |r| == Min(n, |s|)
  {
    if |s| <= n then s else s[..n]
  }

  function Addrs(dials: seq<Dial>): (r: seq<string>)
    ensures |r| == |dials| && forall i :: 0 <= i < |r| ==> r[i] == dials[i].addr
  {
    if dials == [] then [] else [dials[0].addr] + Addrs(dials[1..])
  }

  // ---------------------------------------------------------------- history

  /** The last dial of every destination ever dialed, newest first. */
  function Latest(history: seq<Dial>): seq<Dial> {
    if history == [] then []
    else
      var n := |history| - 1;
      [history[n]] + DropAddr(Latest(history[..n]), history[n].addr)
  }

  ghost predicate Chronological(history: seq<Dial>) {
    forall i, j :: 0 <= i < j < |history| ==> history[i].at <= history[j].at
  }

  /** What a query for at most `max` destinations should say, by the whole history. */
  function Answer(history: seq<Dial>, max: nat, now: int): seq<string> {
    Addrs(Take(Take(FreshOf(Latest(history), now), CAP), max))
  }

  ghost predicate NewestFirst(dials: seq<Dial>) {
    forall i, j :: 0 <= i < j < |dials| ==> dials[i].at >= dials[j].at
  }

  lemma {:induction false} DropAddrMembers(dials: seq<Dial>, addr: string)
    ensures forall d :: d in DropAddr(dials, addr) ==> d in dials && d.addr != addr
  {
    if dials != [] {
      DropAddrMembers(dials[1..], addr);
    }
  }

  lemma {:induction false} DropAddrOrder(dials: seq<Dial>, addr: string)
    requires NewestFirst(dials)
    ensures NewestFirst(DropAddr(dials, addr))
  {
    if dials != [] {
      DropAddrOrder(dials[1..], addr);
      var rest := DropAddr(dials[1..], addr);
      if dials[0].addr != addr {
        DropAddrMembers(dials[1..], addr);
        forall k | 0 <= k < |rest| ensures dials[0].at >= rest[k].at {
          assert rest[k] in dials[1..];
        }
      }
    }
  }

  lemma {:induction false} DropAddrAddrs(dials: seq<Dial>, addr: string)
    ensures Addrs(DropAddr(dials, addr)) == Drop(Addrs(dials), addr)
  {
    if dials != [] {
      DropAddrAddrs(dials[1..], addr);
      var rest := DropAddr(dials[1..], addr);
      assert Addrs(dials)[1..] == Addrs(dials[1..]);
      if dials[0].addr != addr {
        assert ([dials[0]] + rest)[1..] == rest;
      } else {
        assert [] + rest == rest;
      }
    }
  }

  lemma {:induction false} LatestNotAfter(history: seq<Dial>, t: int)
    requires forall i :: 0 <= i < |history| ==> history[i].at <= t
    ensures forall d :: d in Latest(history) ==> d.at <= t
  {
    if history != [] {
      var n := |history| - 1;
      LatestNotAfter(history[..n], t);
      DropAddrMembers(Latest(history[..n]), history[n].addr);
    }
  }

  lemma {:induction false} LatestNewestFirst(history: seq<Dial>)
    requires Chronological(history)
    ensures NewestFirst(Latest(history))
  {
    if history != [] {
      var n := |history| - 1;
      var before := Latest(history[..n]);
      LatestNewestFirst(history[..n]);
      LatestNotAfter(history[..n], history[n].at);
      DropAddrOrder(before, history[n].addr);
      DropAddrMembers(before, history[n].addr);
      var rest := DropAddr(before, history[n].addr);
      forall k | 0 <= k < |rest| ensures rest[k].at <= history[n].at {
        assert rest[k] in rest;
      }
      NewestInFront(history[n], rest);
    }
  }

  lemma NewestInFront(d: Dial, rest: seq<Dial>)
    requires NewestFirst(rest) && forall k :: 0 <= k < |rest| ==> rest[k].at <= d.at
    ensures NewestFirst([d] + rest)
  {
  }

  /** The destinations of `Latest`, in order, are the distinct ones by latest use. */
  lemma {:induction false} LatestByUse(history: seq<Dial>)
    ensures Addrs(Latest(history)) == MostRecent(Addrs(history))
    ensures Distinct(Addrs(Latest(history)))
  {
    if history != [] {
      var n := |history| - 1;
      LatestByUse(history[..n]);
      DropAddrAddrs(Latest(history[..n]), history[n].addr);
      assert Addrs(history)[..n] == Addrs(history[..n]);
      assert Latest(history)[1..] == DropAddr(Latest(history[..n]), history[n].addr);
    }
    MostRecentDistinct(Addrs(history));
  }

  function LastDialAt(history: seq<Dial>, addr: string): Option<int> {
    if history == [] then None
    else
      var n := |history| - 1;
      if history[n].addr == addr then Some(history[n].at) else LastDialAt(history[..n], addr)
  }

  predicate DialedRecently(history: seq<Dial>, addr: string, now: int) {
    var at := LastDialAt(history, addr);
    at.Some? && now - at.value <= 600
  }

  /** The destinations of `addrs` last dialed within the TTL, in order. */
  function Lively(addrs: seq<string>, history: seq<Dial>, now: int): seq<string> {
    if addrs == [] then []
    else (if DialedRecently(history, addrs[0], now) then [addrs[0]] else []) + Lively(addrs[1..], history, now)
  }

  lemma {:induction false} LatestCarriesTimes(history: seq<Dial>)
    ensures forall d :: d in Latest(history) ==> LastDialAt(history, d.addr) == Some(d.at)
  {
    if history != [] {
      var n := |history| - 1;
      LatestCarriesTimes(history[..n]);
      DropAddrMembers(Latest(history[..n]), history[n].addr);
    }
  }

  lemma {:induction false} FreshByLastDial(dials: seq<Dial>, history: seq<Dial>, now: int)
    requires forall d :: d in dials ==> LastDialAt(history, d.addr) == Some(d.at)
    ensures Addrs(FreshOf(dials, now)) == Lively(Addrs(dials), history, now)
  {
    if dials != [] {
      FreshByLastDial(dials[1..], history, now);
      assert Addrs(dials)[1..] == Addrs(dials[1..]);
      assert dials[0] in dials;
      var rest := FreshOf(dials[1..], now);
      assert ([dials[0]] + rest)[1..] == rest;
    }
  }

  /**
   The answer to a query in terms of the dials alone: distinct destinations by latest use, those last
   dialed within the TTL, cut to the cap and to the limit asked for.
   */
  lemma AnswerMeaning(history: seq<Dial>, max: nat, now: int)
    ensures Answer(history, max, now) ==
            Take(Lively(MostRecent(Addrs(history)), history, now), Min(8, max))
  {
    hide FreshOf, Lively, Latest, MostRecent;
    LatestCarriesTimes(history);
    FreshByLastDial(Latest(history), history, now);
    LatestByUse(history);
    var recent := FreshOf(Latest(history), now);
    assert Addrs(Take(Take(recent, CAP), max)) == Take(Addrs(recent), Min(CAP, max));
  }

  // ---------------------------------------------------------------- dropping loses nothing

  /** In a newest-first list the fresh entries come first. */
  lemma {:induction false} FreshIsPrefix(dials: seq<Dial>, now: int) returns (k: nat)
    requires NewestFirst(dials)
    ensures k <= |dials| && FreshOf(dials, now) == dials[..k]
    ensures forall i :: 0 <= i < |dials| ==> (Fresh(dials[i], now) <==> i < k)
  {
    if dials == [] {
      k := 0;
    } else {
      var rest := FreshIsPrefix(dials[1..], now);
      if Fresh(dials[0], now) {
        k := rest + 1;
        assert [dials[0]] + dials[1..][..rest] == dials[..k];
        assert forall i :: 0 < i < |dials| ==> dials[i] == dials[1..][i - 1];
      } else {
        k := 0;
        assert forall i :: 0 < i < |dials| ==> dials[i] == dials[1..][i - 1];
        assert rest == 0;
      }
    }
  }

  /** Entries that were stale or beyond the cap before stay out later. */
  lemma FreshOfKept(all: seq<Dial>, before: int, now: int)
    requires NewestFirst(all) && before <= now
    ensures FreshOf(Take(FreshOf(all, before), CAP), now) == Take(FreshOf(all, now), CAP)
  {
    var m := FreshIsPrefix(all, before);
    var k := FreshIsPrefix(all, now);
    if k > m { assert Fresh(all[m], before); }
    var kept := Take(FreshOf(all, before), CAP);
    assert kept == all[..Min(m, CAP)];
    var q := FreshIsPrefix(kept, now);
    if q < |kept| { assert kept[q] == all[q]; }
    if 0 < q { assert kept[q - 1] == all[q - 1]; }
    assert q == Min(k, CAP);
  }

  lemma {:induction false} FreshDropCommute(dials: seq<Dial>, addr: string, now: int)
    ensures DropAddr(FreshOf(dials, now), addr) == FreshOf(DropAddr(dials, addr), now)
  {
    hide Fresh;
    if dials != [] {
      FreshDropCommute(dials[1..], addr, now);
      var f := FreshOf(dials[1..], now);
      assert ([dials[0]] + f)[1..] == f && [] + f == f;
      var r := DropAddr(dials[1..], addr);
      assert ([dials[0]] + r)[1..] == r && [] + r == r;
    }
  }

  lemma {:induction false} DropAddrConcat(a: seq<Dial>, b: seq<Dial>, addr: string)
    ensures DropAddr(a + b, addr) == DropAddr(a, addr) + DropAddr(b, addr)
  {
    if a == [] {
      assert a + b == b;
    } else {
      var head := if a[0].addr != addr then [a[0]] else [];
      assert (a + b)[1..] == a[1..] + b;
      DropAddrConcat(a[1..], b, addr);
      assert head + (DropAddr(a[1..], addr) + DropAddr(b, addr)) == head + DropAddr(a[1..], addr) + DropAddr(b, addr);
    }
  }

  lemma {:induction false} DropAddrOnce(dials: seq<Dial>, addr: string)
    requires Distinct(Addrs(dials))
    ensures |DropAddr(dials, addr)| >= |dials| - 1
  {
    if dials != [] {
      assert Addrs(dials)[1..] == Addrs(dials[1..]);
      DistinctTail(Addrs(dials));
      if dials[0].addr == addr {
        NothingToDrop(dials[1..], addr);
      } else {
        DropAddrOnce(dials[1..], addr);
      }
    }
  }

  lemma {:induction false} NothingToDrop(dials: seq<Dial>, addr: string)
    requires addr !in Addrs(dials)
    ensures DropAddr(dials, addr) == dials
  {
    if dials != [] {
      assert dials[0].addr == Addrs(dials)[0];
      assert forall i :: 0 <= i < |dials[1..]| ==> Addrs(dials[1..])[i] == Addrs(dials)[i + 1];
      NothingToDrop(dials[1..], addr);
      assert [dials[0]] + dials[1..] == dials;
    }
  }

  /** Cutting at the cap before removing one destination leaves enough for the next cut. */
  lemma CapThenDrop(dials: seq<Dial>, addr: string)
    requires Distinct(Addrs(dials))
    ensures Take(DropAddr(Take(dials, CAP), addr), CAP - 1) == Take(DropAddr(dials, addr), CAP - 1)
  {
    if |dials| > CAP {
      var front, back := dials[..CAP], dials[CAP..];
      assert dials == front + back;
      DropAddrConcat(front, back, addr);
      assert forall i :: 0 <= i < CAP ==> Addrs(front)[i] == Addrs(dials)[i];
      DropAddrOnce(front, addr);
    }
  }

  lemma {:induction false} FreshDistinct(dials: seq<Dial>, now: int)
    requires Distinct(Addrs(dials)) && NewestFirst(dials)
    ensures Distinct(Addrs(FreshOf(dials, now)))
  {
    var k := FreshIsPrefix(dials, now);
    assert forall i :: 0 <= i < k ==> Addrs(dials[..k])[i] == Addrs(dials)[i];
  }

  /** The list after one more dial. */
  function Inserted(dials: seq<Dial>, addr: string, now: int): seq<Dial> {
    [Dial(addr, now)] + Take(DropAddr(FreshOf(dials, now), addr), CAP - 1)
  }

  /** The list stands for the history: its first entries that were fresh at the last dial. */
  ghost predicate StandsFor(dials: seq<Dial>, history: seq<Dial>) {
    && Chronological(history)
    && dials == if history == [] then [] else Take(FreshOf(Latest(history), history[|history| - 1].at), CAP)
  }

  lemma FreshOfList(dials: seq<Dial>, history: seq<Dial>, now: int)
    requires StandsFor(dials, history) && (history != [] ==> history[|history| - 1].at <= now)
    ensures FreshOf(dials, now) == Take(FreshOf(Latest(history), now), CAP)
  {
    if history != [] {
      LatestNewestFirst(history);
      FreshOfKept(Latest(history), history[|history| - 1].at, now);
    }
  }

  lemma ChronologicalNext(history: seq<Dial>, d: Dial)
    requires Chronological(history) && (history != [] ==> history[|history| - 1].at <= d.at)
    ensures Chronological(history + [d])
  {
  }

  lemma LatestNext(history: seq<Dial>, d: Dial, now: int)
    requires Fresh(d, now)
    ensures FreshOf(Latest(history + [d]), now) == [d] + FreshOf(DropAddr(Latest(history), d.addr), now)
  {
  }

  /** Dropping by cap and by age at each dial keeps the list standing for the whole history. */
  lemma InsertStandsFor(dials: seq<Dial>, history: seq<Dial>, addr: string, now: int)
    requires StandsFor(dials, history) && (history != [] ==> history[|history| - 1].at <= now)
    ensures StandsFor(Inserted(dials, addr, now), history + [Dial(addr, now)])
  {
    var d := Dial(addr, now);
    ChronologicalNext(history, d);
    FreshOfList(dials, history, now);
    LatestNext(history, d, now);
    InsertKeeps(Latest(history), history, addr, now);
    var rest := FreshOf(DropAddr(Latest(history), addr), now);
    assert Take([d] + rest, CAP) == [d] + Take(rest, CAP - 1);
  }

  lemma InsertKeeps(all: seq<Dial>, history: seq<Dial>, addr: string, now: int)
    requires Chronological(history) && all == Latest(history)
    ensures Take(DropAddr(Take(FreshOf(all, now), CAP), addr), CAP - 1) ==
            Take(FreshOf(DropAddr(all, addr), now), CAP - 1)
  {
    LatestNewestFirst(history);
    LatestByUse(history);
    FreshDistinct(all, now);
    CapThenDrop(FreshOf(all, now), addr);
    FreshDropCommute(all, addr, now);
  }

  /** A query sees in the list exactly what the whole history would tell it. */
  lemma QueryAnswers(dials: seq<Dial>, history: seq<Dial>, max: nat, now: int)
    requires StandsFor(dials, history) && (history != [] ==> history[|history| - 1].at <= now)
    ensures Addrs(Take(FreshOf(dials, now), max)) == Answer(history, max, now)
  {
    FreshOfList(dials, history, now);
  }

  /** The list rebuilt around a dial: other destinations follow it while fresh and below the cap. */
  method Insert(dials: seq<Dial>, addr: string, now: int) returns (out: seq<Dial>)
    ensures out == Inserted(dials, addr, now)
    ensures |out| <= CAP
  {
    out := [Dial(addr, now)];
    for i := 0 to |dials|
      invariant out == Inserted(dials[..i], addr, now)
    {
      NextInserted(dials, i, addr, now);
      var d := dials[i];
      if !(d.addr == addr || now - d.at > TTL || |out| >= CAP) {
        out := out + [d];
      }
    }
    assert dials[..|dials|] == dials;
  }

  /** A time that is not before the last dial recorded. */
  predicate NotBefore(now: int, history: seq<Dial>) {
    history == [] || history[|history| - 1].at <= now
  }

  // ---------------------------------------------------------------- the proxy's list

  class RecentList {
    var dials: seq<Dial>
    ghost var history: seq<Dial>

    /** The list answers for the history. */
    ghost predicate Valid()
      reads this
    {
      StandsFor(dials, history)
    }

    constructor ()
      ensures Valid() && history == [] && dials == []
    {
      dials, history := [], [];
    }

    /**
     Remembers a successful dial; addresses that are not host:port are skipped. The clock is read before
     the lock is taken, so dials may come out of order; the list goes on to answer for the history if
     this one does not.
     */
    method RecordRecentDial(addr: string, isHostPort: bool, now: int)
      modifies this
      ensures dials == if isHostPort then Inserted(old(dials), addr, now) else old(dials)
      ensures old(Valid()) && NotBefore(now, old(history)) ==> Valid()
      ensures history == old(history) + if isHostPort then [Dial(addr, now)] else []
    {
      if !isHostPort {
        return;
      }
      if Valid() && NotBefore(now, history) { InsertStandsFor(dials, history, addr, now); }
      dials := Insert(dials, addr, now);
      history := history + [Dial(addr, now)];
    }

    /** At most `max` destinations dialed within the TTL, most recent first; a limit below one reads as one. */
    method RecentDialAddrs(max: int, now: int) returns (out: seq<string>)
      ensures out == Addrs(Take(FreshOf(dials, now), Max(max, 1)))
      ensures Valid() && NotBefore(now, history) ==> out == Answer(history, Max(max, 1), now)
    {
      hide Answer, StandsFor, Fresh, FreshOf, Addrs;
      if Valid() && NotBefore(now, history) { QueryAnswers(dials, history, Max(max, 1), now); }
      NoneFresh(now);
      out := [];
      var i := 0;
      while i < |dials|
        invariant 0 <= i <= |dials| && |out| < Max(max, 1)
        invariant out == Addrs(FreshOf(dials[..i], now))
      {
        NextFresh(dials, i, now);
        var d := dials[i];
        i := i + 1;
        if !Fresh(d, now) {
          continue;
        }
        out := out + [d.addr];
        if |out| >= max {
          break;
        }
      }
      FreshSoFar(dials, i, now);
      assert dials[..|dials|] == dials;
    }
  }

  lemma {:induction false} FreshConcat(a: seq<Dial>, b: seq<Dial>, now: int)
    ensures FreshOf(a + b, now) == FreshOf(a, now) + FreshOf(b, now)
  {
    if a == [] {
      assert a + b == b;
    } else {
      var head := if Fresh(a[0], now) then [a[0]] else [];
      assert (a + b)[1..] == a[1..] + b;
      FreshConcat(a[1..], b, now);
      assert head + (FreshOf(a[1..], now) + FreshOf(b, now)) == head + FreshOf(a[1..], now) + FreshOf(b, now);
    }
  }

  lemma NoneFresh(now: int)
    ensures Addrs(FreshOf([], now)) == []
  {
  }

  lemma NextFresh(dials: seq<Dial>, i: nat, now: int)
    requires i < |dials|
    ensures FreshOf(dials[..i + 1], now) == FreshOf(dials[..i], now) + if Fresh(dials[i], now) then [dials[i]] else []
    ensures Addrs(FreshOf(dials[..i + 1], now)) ==
            Addrs(FreshOf(dials[..i], now)) + if Fresh(dials[i], now) then [dials[i].addr] else []
  {
    assert dials[..i + 1] == dials[..i] + [dials[i]];
    FreshConcat(dials[..i], [dials[i]], now);
    assert [dials[i]][1..] == [];
  }

  lemma FreshSoFar(dials: seq<Dial>, i: nat, now: int)
    requires i <= |dials|
    ensures FreshOf(dials[..i], now) <= FreshOf(dials, now)
    ensures Addrs(FreshOf(dials[..i], now)) <= Addrs(FreshOf(dials, now))
  {
    assert dials == dials[..i] + dials[i..];
    FreshConcat(dials[..i], dials[i..], now);
  }

  lemma NextKept(dials: seq<Dial>, i: nat, addr: string, now: int)
    requires i < |dials|
    ensures DropAddr(FreshOf(dials[..i + 1], now), addr) ==
            DropAddr(FreshOf(dials[..i], now), addr) +
            if Fresh(dials[i], now) && dials[i].addr != addr then [dials[i]] else []
  {
    NextFresh(dials, i, now);
    var last := if Fresh(dials[i], now) then [dials[i]] else [];
    DropAddrConcat(FreshOf(dials[..i], now), last, addr);
    assert [dials[i]][1..] == [];
  }

  lemma NextInserted(dials: seq<Dial>, i: nat, addr: string, now: int)
    requires i < |dials|
    ensures Inserted(dials[..i + 1], addr, now) ==
            var out := Inserted(dials[..i], addr, now);
            if dials[i].addr == addr || now - dials[i].at > TTL || |out| >= CAP then out else out + [dials[i]]
  {
    NextKept(dials, i, addr, now);
  }
}
