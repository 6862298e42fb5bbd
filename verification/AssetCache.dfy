/**
 The cache of immutable assets: a byte-budgeted list in order of use with a map beside it, and a
 bounded map of the prefixes of interrupted transfers.
 */
module AssetCache {
  import opened Basics
  import opened HeaderText
  import opened Recency

  const MAX_OBJECT: nat := 8 * 1024 * 1024

  const MAX_PARTIALS: nat := 32

  datatype CachedResponse = CachedResponse(header: string, body: Bytes, close: bool)

  datatype PartialAsset = PartialAsset(header: string, body: Bytes, total: int, closeAfter: bool)

  datatype Item = Item(key: string, resp: CachedResponse)

  function SizeOf(r: CachedResponse): nat {
    |r.body| + |r.header|
  }

  function Weight(order: seq<Item>): nat {
    if order == [] then 0 else SizeOf(order[0].resp) + Weight(order[1..])
  }

  function Keys(order: seq<Item>): (ks: seq<string>)
    ensures |ks| == |order| && forall i :: 0 <= i < |order| ==> ks[i] == order[i].key
  {
    if order == [] then [] else [order[0].key] + Keys(order[1..])
  }

  ghost predicate DistinctKeys(order: seq<Item>) {
    forall i, j :: 0 <= i < j < |order| ==> order[i].key != order[j].key
  }

  // ---------------------------------------------------------------- specification

  /** The cache as a value: the list, most recently used first, and the stored prefixes. */
  datatype CacheState = CacheState(order: seq<Item>, partials: map<string, PartialAsset>)

  datatype CacheOp =
    | Get(key: string)
    | Put(key: string, resp: CachedResponse)
    | PutPartial(key: string, prefix: PartialAsset)

  function Without(order: seq<Item>, key: string): (r: seq<Item>)
    ensures forall it :: it in r <==> it in order && it.key != key
  {
    if order == [] then [] else (if order[0].key != key then [order[0]] else []) + Without(order[1..], key)
  }

  /** The longest run of most recently used entries that weighs at most `room`. */
  function Fit(order: seq<Item>, room: int): (r: seq<Item>)
    ensures r <= order
  {
    if order == [] || SizeOf(order[0].resp) > room then []
    else [order[0]] + Fit(order[1..], room - SizeOf(order[0].resp))
  }

  ghost predicate Listed(order: seq<Item>, key: string) {
    exists i :: 0 <= i < |order| && order[i].key == key
  }

  ghost predicate Refused(s: CacheState, key: string, prefix: PartialAsset) {
    || |prefix.body| > MAX_OBJECT || |prefix.body| == 0
    || Listed(s.order, key)
    || (key in s.partials && |s.partials[key].body| >= |prefix.body|)
  }

  /** The map that goes with a list of entries. */
  function MapOf(order: seq<Item>): map<string, Item> {
    if order == [] then map[] else MapOf(order[1..])[order[0].key := order[0]]
  }

  /** A hit moves its entry to the front. */
  function AfterGet(s: CacheState, key: string): CacheState {
    if key in MapOf(s.order) then s.(order := [MapOf(s.order)[key]] + Without(s.order, key)) else s
  }

  /**
   An admitted entry goes to the front, the longest run of recent others that still fits stays, and the
   key's prefix goes.
   */
  function AfterPut(budget: nat, s: CacheState, key: string, resp: CachedResponse): CacheState {
    if SizeOf(resp) > budget then s
    else CacheState([Item(key, resp)] + Fit(Without(s.order, key), budget - SizeOf(resp)), s.partials - {key})
  }

  /** What one operation may do to the cache; only the victim of a full prefix map is left open. */
  ghost predicate CacheStep(budget: nat, s: CacheState, op: CacheOp, s': CacheState) {
    match op
    case Get(key) => s' == AfterGet(s, key)
    case Put(key, resp) => s' == AfterPut(budget, s, key, resp)
    case PutPartial(key, prefix) =>
      if Refused(s, key, prefix) then s' == s
      else
        && s'.order == s.order
        && exists gone: set<string> ::
             && (if |s.partials| >= MAX_PARTIALS then exists v :: v in s.partials && gone == {v} else gone == {})
             && s'.partials == (s.partials - gone)[key := prefix]
  }

  lemma {:induction false} WeightConcat(a: seq<Item>, b: seq<Item>)
    ensures Weight(a + b) == Weight(a) + Weight(b)
  {
    if a == [] {
      assert a + b == b;
    } else {
      assert (a + b)[1..] == a[1..] + b;
      WeightConcat(a[1..], b);
    }
  }

  /** All that is stored in a list: the headers and the bodies. */
  function Stored(order: seq<Item>): Bytes {
    if order == [] then [] else order[0].resp.header + order[0].resp.body + Stored(order[1..])
  }

  /** The weight of a list is that of all its headers and bodies. */
  lemma {:induction false} WeightIsStored(order: seq<Item>)
    ensures Weight(order) == |Stored(order)|
  {
    if order != [] { WeightIsStored(order[1..]); }
  }

  /** Eviction is least: what stays fits, and any longer run of recent entries would not. */
  lemma {:induction false} FitIsLongest(order: seq<Item>, room: int, n: nat)
    requires 0 <= room && n <= |order|
    ensures Weight(Fit(order, room)) <= room
    ensures n <= |Fit(order, room)| <==> Weight(order[..n]) <= room
  {
    if n > 0 { assert order[..n][1..] == order[1..][..n - 1]; }
    if order != [] && SizeOf(order[0].resp) <= room {
      FitIsLongest(order[1..], room - SizeOf(order[0].resp), if n > 0 then n - 1 else 0);
    }
  }

  lemma {:induction false} KeysWithout(order: seq<Item>, key: string)
    ensures Keys(Without(order, key)) == Drop(Keys(order), key)
  {
    if order != [] {
      KeysWithout(order[1..], key);
      var tail := Without(order[1..], key);
      assert Keys(order)[1..] == Keys(order[1..]);
      if order[0].key != key {
        assert ([order[0]] + tail)[1..] == tail;
      } else {
        assert [] + tail == tail;
      }
    }
  }

  lemma {:induction false} WithoutAbsent(order: seq<Item>, key: string)
    requires forall it :: it in order ==> it.key != key
    ensures Without(order, key) == order
  {
    if order != [] {
      WithoutAbsent(order[1..], key);
      assert [order[0]] + order[1..] == order;
    }
  }

  lemma {:induction false} WithoutConcat(a: seq<Item>, b: seq<Item>, key: string)
    ensures Without(a + b, key) == Without(a, key) + Without(b, key)
  {
    if a == [] {
      assert a + b == b;
    } else {
      assert (a + b)[1..] == a[1..] + b;
      WithoutConcat(a[1..], b, key);
    }
  }

  /** With distinct keys, removing a listed key removes that one entry. */
  lemma WithoutListed(order: seq<Item>, i: nat)
    requires DistinctKeys(order) && i < |order|
    ensures Without(order, order[i].key) == order[..i] + order[i + 1..]
    ensures Weight(order) == SizeOf(order[i].resp) + Weight(Without(order, order[i].key))
  {
    var it, front, back := order[i], order[..i], order[i + 1..];
    assert order == front + [it] + back;
    forall o | o in front || o in back ensures o.key != it.key {
      var j :| 0 <= j < |order| && j != i && order[j] == o;
    }
    WithoutMiddle(front, it, back);
  }

  lemma WithoutMiddle(front: seq<Item>, it: Item, back: seq<Item>)
    requires forall o :: o in front ==> o.key != it.key
    requires forall o :: o in back ==> o.key != it.key
    ensures Without(front + [it] + back, it.key) == front + back
    ensures Weight(front + [it] + back) == SizeOf(it.resp) + Weight(front + back)
  {
    WithoutConcat(front + [it], back, it.key);
    WithoutConcat(front, [it], it.key);
    WithoutAbsent(front, it.key);
    WithoutAbsent(back, it.key);
    assert [it][1..] == [];
    assert Without([it], it.key) == [];
    assert front + [] == front;
    WeightConcat(front + [it], back);
    WeightConcat(front, [it]);
    WeightConcat(front, back);
  }

  lemma {:induction false} DistinctWithout(order: seq<Item>, key: string)
    requires DistinctKeys(order)
    ensures DistinctKeys(Without(order, key))
  {
    if order != [] {
      DistinctWithout(order[1..], key);
      assert forall it :: it in Without(order[1..], key) ==> it in order[1..];
    }
  }

  // ---------------------------------------------------------------- the cache

  lemma {:induction false} MapOfListed(order: seq<Item>, key: string)
    ensures key in MapOf(order) <==> Listed(order, key)
    ensures key in MapOf(order) ==> MapOf(order)[key] in order && MapOf(order)[key].key == key
  {
    if order != [] {
      MapOfListed(order[1..], key);
      if Listed(order[1..], key) {
        var i :| 0 <= i < |order[1..]| && order[1..][i].key == key;
        assert order[i + 1].key == key;
      }
      if Listed(order, key) && order[0].key != key {
        var i :| 0 <= i < |order| && order[i].key == key;
        assert order[1..][i - 1].key == key;
      }
    }
  }

  lemma {:induction false} MapOfWithout(order: seq<Item>, key: string)
    ensures MapOf(Without(order, key)) == MapOf(order) - {key}
  {
    if order != [] {
      MapOfWithout(order[1..], key);
      var tail := Without(order[1..], key);
      RemoveThenUpdate(MapOf(order[1..]), order[0].key, order[0], key);
      if order[0].key != key {
        assert ([order[0]] + tail)[1..] == tail;
      } else {
        assert [] + tail == tail;
      }
    }
  }

  lemma RemoveThenUpdate<K, V>(m: map<K, V>, k: K, v: V, gone: K)
    ensures m[k := v] - {gone} == if k == gone then m - {gone} else (m - {gone})[k := v]
  {
  }

  lemma FrontAdded(it: Item, order: seq<Item>)
    requires DistinctKeys(order) && forall o :: o in order ==> o.key != it.key
    ensures DistinctKeys([it] + order)
    ensures Weight([it] + order) == SizeOf(it.resp) + Weight(order)
  {
  }

  lemma FrontInserted(it: Item, order: seq<Item>, key: string)
    requires DistinctKeys(order) && it in order && it.key == key
    ensures DistinctKeys([it] + Without(order, key))
    ensures Weight([it] + Without(order, key)) == Weight(order)
    ensures forall o :: o in order <==> o in [it] + Without(order, key)
  {
    var i :| 0 <= i < |order| && order[i] == it;
    WithoutListed(order, i);
    DistinctWithout(order, key);
    FrontAdded(it, Without(order, key));
    forall o | o in order && o.key == key ensures o == it {
      assert exists j :: 0 <= j < |order| && order[j] == o;
    }
  }

  lemma GetMovesToFront(s: CacheState, key: string)
    requires DistinctKeys(s.order) && key in MapOf(s.order)
    ensures var it := MapOf(s.order)[key];
            var order' := [it] + Without(s.order, key);
            && DistinctKeys(order') && MapOf(order') == MapOf(s.order) && Weight(order') == Weight(s.order)
            && it in s.order && it.key == key
  {
    MapOfListed(s.order, key);
    var it := MapOf(s.order)[key];
    FrontInserted(it, s.order, key);
    MapOfWithout(s.order, key);
    assert ([it] + Without(s.order, key))[1..] == Without(s.order, key);
    assert (MapOf(s.order) - {key})[key := it] == MapOf(s.order);
  }

  lemma PutAddsInFront(order: seq<Item>, it: Item)
    requires DistinctKeys(order) && forall o :: o in order ==> o.key != it.key
    ensures DistinctKeys([it] + order) && MapOf([it] + order) == MapOf(order)[it.key := it]
    ensures Weight([it] + order) == SizeOf(it.resp) + Weight(order)
  {
  }

  /** Taking an entry out of list and map alike. */
  lemma RemoveListed(order: seq<Item>, key: string)
    requires DistinctKeys(order)
    ensures DistinctKeys(Without(order, key)) && MapOf(Without(order, key)) == MapOf(order) - {key}
    ensures Weight(order) == Weight(Without(order, key)) +
                             (if key in MapOf(order) then SizeOf(MapOf(order)[key].resp) else 0)
    ensures key !in MapOf(order) ==> Without(order, key) == order
  {
    DistinctWithout(order, key);
    MapOfWithout(order, key);
    MapOfListed(order, key);
    if key in MapOf(order) {
      var i :| 0 <= i < |order| && order[i] == MapOf(order)[key];
      WithoutListed(order, i);
    } else {
      WithoutAbsent(order, key);
    }
  }

  lemma FitReached(rest: seq<Item>, n: nat, room: int)
    requires n <= |rest| && 0 <= room && Weight(rest[..n]) <= room && |Fit(rest, room)| <= n
    ensures rest[..n] == Fit(rest, room)
  {
    FitIsLongest(rest, room, n);
  }

  lemma FitKeeps(rest: seq<Item>, room: int)
    requires DistinctKeys(rest)
    ensures DistinctKeys(Fit(rest, room))
    ensures forall o :: o in Fit(rest, room) ==> o in rest
  {
  }

  /** One eviction: the last of the first `n` entries goes, because those `n` are too many. */
  lemma EvictLast(rest: seq<Item>, n: nat, room: int)
    requires DistinctKeys(rest) && 0 < n <= |rest|
    requires 0 <= room < Weight(rest[..n]) && |Fit(rest, room)| <= n
    ensures Weight(rest[..n]) == Weight(rest[..n - 1]) + SizeOf(rest[n - 1].resp)
    ensures MapOf(rest[..n - 1]) == MapOf(rest[..n]) - {rest[n - 1].key}
    ensures |Fit(rest, room)| <= n - 1
    ensures rest[..n][..n - 1] == rest[..n - 1]
  {
    FitIsLongest(rest, room, n);
    assert rest[..n][..n - 1] == rest[..n - 1];
    LastOut(rest[..n]);
  }

  lemma LastOut(kept: seq<Item>)
    requires DistinctKeys(kept) && kept != []
    ensures var m := |kept| - 1;
            && Weight(kept) == Weight(kept[..m]) + SizeOf(kept[m].resp)
            && MapOf(kept[..m]) == MapOf(kept) - {kept[m].key}
  {
    var m := |kept| - 1;
    WithoutListed(kept, m);
    assert kept[..m] + kept[m + 1..] == kept[..m];
    MapOfWithout(kept, kept[m].key);
  }

  class AssetCache {
    const budget: nat
    var used: int
    var order: seq<Item>
    var items: map<string, Item>
    var partials: map<string, PartialAsset>

    function State(): CacheState
      reads this
    {
      CacheState(order, partials)
    }

    /** List and map hold the same entries, the counter is their weight, and both bounds hold. */
    ghost predicate Valid()
      reads this
    {
      && DistinctKeys(order)
      && items == MapOf(order)
      && used == Weight(order) <= budget
      && |partials| <= MAX_PARTIALS
    }

    constructor (budget: nat)
      ensures Valid() && State() == CacheState([], map[]) && this.budget == budget
    {
      this.budget := budget;
      used, order, items, partials := 0, [], map[], map[];
    }

    method Lookup(key: string) returns (hit: Option<CachedResponse>)
      requires Valid()
      modifies this`order
      ensures Valid() && State() == AfterGet(old(State()), key)
      ensures hit.Some? <==> Listed(old(order), key)
      ensures hit.Some? ==> Item(key, hit.value) in old(order)
    {
      MapOfListed(order, key);
      if key !in items {
        return None;
      }
      var el := items[key];
      GetMovesToFront(State(), key);
      order := [el] + Without(order, key);
      hit := Some(el.resp);
    }

    /** The eviction loop of `Store`: drops least recently used entries until `size` more bytes fit. */
    method MakeRoom(size: nat)
      requires size <= budget
      requires DistinctKeys(order) && items == MapOf(order) && used == Weight(order)
      modifies this`used, this`order, this`items
      ensures order == Fit(old(order), budget - size)
      ensures items == MapOf(order) && used == Weight(order) <= budget - size
    {
      ghost var all, n, room := order, |order|, budget - size;
      assert all[..n] == all;
      while used + size > budget
        invariant 0 <= n <= |all| && order == all[..n] && used == Weight(order)
        invariant |Fit(all, room)| <= n
        invariant items == MapOf(order)
        decreases |order|
      {
        if |order| == 0 {
          assert false; // an empty list weighs nothing, and `size` alone is within the budget
          break;
        }
        var back := order[|order| - 1];
        EvictLast(all, n, room);
        n := n - 1;
        used := used - SizeOf(back.resp);
        order := order[..|order| - 1];
        items := items - {back.key};
      }
      FitReached(all, n, room);
    }

    /** Takes the entry of a key, if there is one, out of list and map. */
    method Unlist(key: string)
      requires Valid()
      modifies this`used, this`order, this`items
      ensures Valid() && order == Without(old(order), key)
    {
      RemoveListed(order, key);
      MapOfWithout(order, key);
      if key in items {
        used := used - SizeOf(items[key].resp);
        order := Without(order, key);
        items := items - {key};
      }
    }

    method PushFront(entry: Item)
      requires Valid() && used + SizeOf(entry.resp) <= budget
      requires forall o :: o in order ==> o.key != entry.key
      modifies this`used, this`order, this`items
      ensures Valid() && order == [entry] + old(order)
    {
      PutAddsInFront(order, entry);
      order := [entry] + order;
      items := items[entry.key := entry];
      used := used + SizeOf(entry.resp);
    }

    method Store(key: string, resp: CachedResponse)
      requires Valid()
      modifies this`used, this`order, this`items, this`partials
      ensures Valid() && State() == AfterPut(budget, old(State()), key, resp)
    {
      var size := SizeOf(resp);
      if size > budget {
        return;
      }
      Unlist(key);
      FitKeeps(order, budget - size);
      MakeRoom(size);
      PushFront(Item(key, resp));
      partials := partials - {key};
    }

    method StorePartial(key: string, prefix: PartialAsset)
      requires Valid()
      modifies this`partials
      ensures Valid() && CacheStep(budget, old(State()), PutPartial(key, prefix), State())
    {
      MapOfListed(order, key);
      if |prefix.body| > MAX_OBJECT || |prefix.body| == 0 {
        return;
      }
      if key in items {
        return;
      }
      if key in partials && |partials[key].body| >= |prefix.body| {
        return;
      }
      ghost var gone: set<string> := {};
      if |partials| >= MAX_PARTIALS {
        var k :| k in partials;
        gone := {k};
        partials := partials - {k};
      }
      partials := partials[key := prefix];
      assert partials == (old(partials) - gone)[key := prefix];
    }

    method LookupPartial(key: string) returns (hit: Option<PartialAsset>)
      ensures hit == if key in partials then Some(partials[key]) else None
    {
      hit := if key in partials then Some(partials[key]) else None;
    }
  }

  // ---------------------------------------------------------------- runs

  /** `states` is what a fresh cache goes through under `ops`. */
  ghost predicate Run(budget: nat, states: seq<CacheState>, ops: seq<CacheOp>) {
    && |states| == |ops| + 1
    && states[0] == CacheState([], map[])
    && forall i :: 0 <= i < |ops| ==> CacheStep(budget, states[i], ops[i], states[i + 1])
  }

  /** The keys a run used: hits and admitted stores, oldest first. */
  ghost function Uses(budget: nat, states: seq<CacheState>, ops: seq<CacheOp>): seq<string>
    requires |states| == |ops| + 1
  {
    if ops == [] then []
    else
      var n := |ops| - 1;
      Uses(budget, states[..n + 1], ops[..n]) +
      match ops[n]
      case Get(key) => if Listed(states[n].order, key) then [key] else []
      case Put(key, resp) => if SizeOf(resp) <= budget then [key] else []
      case PutPartial(_, _) => []
  }

  lemma DropOfPrefix(a: seq<string>, b: seq<string>, k: string)
    requires a <= b
    ensures Drop(a, k) <= Drop(b, k)
  {
  }

  /** A use moves its key to the front of both the list and the order of use. */
  lemma UseKeepsPrefix(order: seq<Item>, it: Item, kept: seq<Item>, uses: seq<string>)
    requires Keys(order) <= MostRecent(uses)
    requires kept <= Without(order, it.key)
    ensures Keys([it] + kept) <= MostRecent(uses + [it.key])
  {
    KeysWithout(order, it.key);
    DropOfPrefix(Keys(order), MostRecent(uses), it.key);
    assert (uses + [it.key])[..|uses|] == uses;
    assert ([it] + kept)[1..] == kept;
    assert Keys(kept) <= Keys(Without(order, it.key));
  }

  /**
   The list is a least-recently-used cache: after any run it holds, newest first, a prefix of
   the keys in order of latest use, so what was dropped was always less recent than what stays.
   It never outgrows the budget.
   */
  lemma {:induction false} HoldsMostRecent(budget: nat, states: seq<CacheState>, ops: seq<CacheOp>)
    requires Run(budget, states, ops)
    ensures DistinctKeys(states[|ops|].order) && |Stored(states[|ops|].order)| <= budget
    ensures Keys(states[|ops|].order) <= MostRecent(Uses(budget, states, ops))
    decreases |ops|
  {
    WeightIsStored(states[|ops|].order);
    if ops != [] {
      var n := |ops| - 1;
      WeightIsStored(states[n].order);
      HoldsMostRecent(budget, states[..n + 1], ops[..n]);
      var uses := Uses(budget, states[..n + 1], ops[..n]);
      assert uses + [] == uses;
      StepHoldsMostRecent(budget, states[n], ops[n], states[n + 1], uses);
    }
  }

  /** The response put last under a key, of those that could be admitted. */
  function LastPut(budget: nat, ops: seq<CacheOp>, key: string): Option<CachedResponse> {
    if ops == [] then None
    else
      var n := |ops| - 1;
      match ops[n]
      case Put(k, resp) =>
        if k == key && |resp.header| + |resp.body| <= budget then Some(resp) else LastPut(budget, ops[..n], key)
      case _ => LastPut(budget, ops[..n], key)
  }

  /** After any run, what is listed for a key is what was put under it last. */
  lemma {:induction false} ListedIsLastPut(budget: nat, states: seq<CacheState>, ops: seq<CacheOp>)
    requires Run(budget, states, ops)
    ensures forall it :: it in states[|ops|].order ==> LastPut(budget, ops, it.key) == Some(it.resp)
    decreases |ops|
  {
    hide CacheStep, Uses, Weight, Recency.MostRecent;
    if ops != [] {
      var n := |ops| - 1;
      ListedIsLastPut(budget, states[..n + 1], ops[..n]);
      HoldsMostRecent(budget, states[..n + 1], ops[..n]);
      StepListsNothingElse(budget, states[n], ops[n], states[n + 1]);
    }
  }

  /** An operation lists nothing that was not there, but what it puts. */
  lemma StepListsNothingElse(budget: nat, s: CacheState, op: CacheOp, s': CacheState)
    requires DistinctKeys(s.order) && CacheStep(budget, s, op, s')
    ensures forall it :: it in s'.order ==>
              if op.Put? && |op.resp.header| + |op.resp.body| <= budget && it.key == op.key then it.resp == op.resp
              else it in s.order
  {
    match op
    case Get(key) => MapOfListed(s.order, key);
    case Put(key, resp) => if SizeOf(resp) <= budget { FitIsPrefix(Without(s.order, key), budget - SizeOf(resp)); }
    case PutPartial(_, _) =>
  }

  lemma FitIsPrefix(order: seq<Item>, room: int)
    ensures forall it :: it in Fit(order, room) ==> it in order
  {
  }

  /**
   What an operation does to the interrupted prefixes. A prefix is stored exactly when it has something
   of at most eight megabytes, its key is not complete, and it is longer than the one stored; then one
   other is given up if there are thirty-two, and none else. A complete entry takes the prefix of its key.
   */
  lemma PrefixLaws(budget: nat, s: CacheState, op: CacheOp, s': CacheState)
    requires CacheStep(budget, s, op, s')
    ensures op.Get? ==> s'.partials == s.partials
    ensures op.Put? ==> s'.partials == if |op.resp.header| + |op.resp.body| <= budget then s.partials - {op.key}
                                       else s.partials
    ensures op.PutPartial? ==>
              var stored := && 0 < |op.prefix.body| <= 8 * 1024 * 1024
                            && (forall it :: it in s.order ==> it.key != op.key)
                            && (op.key in s.partials ==> |s.partials[op.key].body| < |op.prefix.body|);
              && s'.order == s.order
              && (!stored ==> s'.partials == s.partials)
              && (stored ==> op.key in s'.partials && s'.partials[op.key] == op.prefix)
              && (forall k :: k in s'.partials && k != op.key ==> k in s.partials && s'.partials[k] == s.partials[k])
              && (forall j, k :: j in s.partials && j !in s'.partials && k in s.partials && k !in s'.partials ==>
                    j == k && |s.partials| >= 32)
  {
  }

  lemma GetHoldsMostRecent(s: CacheState, key: string, uses: seq<string>)
    requires DistinctKeys(s.order) && Keys(s.order) <= MostRecent(uses) && Listed(s.order, key)
    ensures var after := AfterGet(s, key).order;
            DistinctKeys(after) && Weight(after) == Weight(s.order) && Keys(after) <= MostRecent(uses + [key])
  {
    MapOfListed(s.order, key);
    var it := MapOf(s.order)[key];
    FrontInserted(it, s.order, key);
    UseKeepsPrefix(s.order, it, Without(s.order, key), uses);
  }

  lemma PutHoldsMostRecent(budget: nat, s: CacheState, key: string, resp: CachedResponse, uses: seq<string>)
    requires DistinctKeys(s.order) && Keys(s.order) <= MostRecent(uses) && SizeOf(resp) <= budget
    ensures var after := AfterPut(budget, s, key, resp).order;
            DistinctKeys(after) && Weight(after) <= budget && Keys(after) <= MostRecent(uses + [key])
  {
    hide MostRecent, Without, Weight, DistinctKeys, Keys;
    var kept := Fit(Without(s.order, key), budget - SizeOf(resp));
    KeptApart(s.order, key, budget - SizeOf(resp));
    PutAddsInFront(kept, Item(key, resp));
    UseKeepsPrefix(s.order, Item(key, resp), kept, uses);
  }

  lemma KeptApart(order: seq<Item>, key: string, room: nat)
    requires DistinctKeys(order)
    ensures var kept := Fit(Without(order, key), room);
            DistinctKeys(kept) && Weight(kept) <= room && forall o :: o in kept ==> o.key != key
  {
    DistinctWithout(order, key);
    FitIsLongest(Without(order, key), room, 0);
    FitKeeps(Without(order, key), room);
  }

  lemma StepHoldsMostRecent(budget: nat, s: CacheState, op: CacheOp, s': CacheState, uses: seq<string>)
    requires CacheStep(budget, s, op, s')
    requires DistinctKeys(s.order) && Weight(s.order) <= budget && Keys(s.order) <= MostRecent(uses)
    ensures DistinctKeys(s'.order) && Weight(s'.order) <= budget
    ensures match op
      case Get(key) => Keys(s'.order) <= MostRecent(if Listed(s.order, key) then uses + [key] else uses)
      case Put(key, resp) => Keys(s'.order) <= MostRecent(if SizeOf(resp) <= budget then uses + [key] else uses)
      case PutPartial(_, _) => s'.order == s.order
  {
    match op {
      case PutPartial(_, _) =>
      case Get(key) =>
        MapOfListed(s.order, key);
        if Listed(s.order, key) {
          GetHoldsMostRecent(s, key, uses);
        }
      case Put(key, resp) =>
        if SizeOf(resp) <= budget {
          PutHoldsMostRecent(budget, s, key, resp, uses);
        }
    }
  }

  // ---------------------------------------------------------------- soundness

  /**
   What stored responses are judged against: the representation of each key, and when a header
   block says that a body is so many bytes long. `Literal` takes the latter at its word; proofs
   that do not depend on the text of headers leave it open.
   */
  datatype World = World(rep: string -> Bytes, says: (string, nat) -> bool)

  ghost function Literal(rep: string -> Bytes): World {
    World(rep, (header: string, n: nat) => Announces(header, n))
  }

  /** Blocks with exactly one Content-Length line, for `n` bytes, say `n`. */
  ghost predicate Honest(w: World) {
    forall header: string, n: nat {:trigger Announces(header, n)} :: Announces(header, n) ==> w.says(header, n)
  }

  /** A stored response is the whole representation, announced with its exact length on a kept-alive connection. */
  ghost predicate SoundResponse(w: World, whole: Bytes, resp: CachedResponse) {
    resp.body == whole && w.says(resp.header, |whole|) && !resp.close
  }

  /** A stored prefix is a prefix of the representation, of known total, under a header that announces that total. */
  ghost predicate SoundPartial(w: World, whole: Bytes, p: PartialAsset) {
    p.body <= whole && p.total == |whole| && !p.closeAfter && p.header != "" && w.says(p.header, |whole|)
  }

  /** Everything stored agrees with the representation of its key. */
  ghost predicate Sound(w: World, s: CacheState) {
    && (forall i :: 0 <= i < |s.order| ==> SoundResponse(w, w.rep(s.order[i].key), s.order[i].resp))
    && (forall k :: k in s.partials ==>
          SoundPartial(w, w.rep(k), s.partials[k]) && 0 < |s.partials[k].body| <= MAX_OBJECT)
  }

  ghost predicate SoundOp(w: World, op: CacheOp) {
    match op
    case Get(_) => true
    case Put(key, resp) => SoundResponse(w, w.rep(key), resp)
    case PutPartial(key, prefix) => SoundPartial(w, w.rep(key), prefix)
  }

  lemma AllInFront(order: seq<Item>, it: Item, rest: seq<Item>, good: Item -> bool)
    requires forall i :: 0 <= i < |order| ==> good(order[i])
    requires good(it) && forall o :: o in rest ==> o in order
    ensures forall i :: 0 <= i < |[it] + rest| ==> good(([it] + rest)[i])
  {
    forall i | 0 < i < |[it] + rest| ensures good(([it] + rest)[i]) {
      assert rest[i - 1] in rest;
    }
  }

  lemma SoundPut(w: World, budget: nat, s: CacheState, key: string, resp: CachedResponse)
    requires Sound(w, s) && SoundResponse(w, w.rep(key), resp)
    ensures Sound(w, AfterPut(budget, s, key, resp))
  {
  }

  /** Every operation with sound arguments keeps a sound cache sound. */
  lemma SoundStep(w: World, budget: nat, s: CacheState, op: CacheOp, s': CacheState)
    requires Sound(w, s) && SoundOp(w, op) && CacheStep(budget, s, op, s')
    ensures Sound(w, s')
  {
    match op {
      case Get(key) =>
        MapOfListed(s.order, key);
        if key in MapOf(s.order) {
          AllInFront(s.order, MapOf(s.order)[key], Without(s.order, key),
                     (it: Item) => SoundResponse(w, w.rep(it.key), it.resp));
        }
      case Put(key, resp) =>
        SoundPut(w, budget, s, key, resp);
      case PutPartial(_, _) =>
    }
  }

  /** Cache soundness over any run whose stores are sound. */
  lemma {:induction false} SoundRun(w: World, budget: nat, states: seq<CacheState>, ops: seq<CacheOp>)
    requires Run(budget, states, ops)
    requires forall i :: 0 <= i < |ops| ==> SoundOp(w, ops[i])
    ensures Sound(w, states[|ops|])
    decreases |ops|
  {
    if ops != [] {
      var n := |ops| - 1;
      SoundRun(w, budget, states[..n + 1], ops[..n]);
      SoundStep(w, budget, states[n], ops[n], states[n + 1]);
    }
  }
}
