/** Splicing over whole runs of attempts, and the run in which it fails. */
module SplicingRuns {
  import opened Basics
  import opened HeaderText
  import opened AssetCache
  import opened ForwardModel
  import opened ForwardSteps
  import opened Forward
  import opened Splicing

  /**
   In the run of attempts that starts with number `i` in a given state, the guard admits what
   attempt `k` meets, if it is made.
   */
  predicate KinAt(tunnel: Upstream, head: bool, p: Progress, told: Told, o: Origin, i: nat, k: nat)
    decreases k - i
  {
    var a := tunnel(i, NextRange(p));
    if i >= k then a.Answered? ==> Kin(p, o, a.resp, head)
    else
      var s := Attempted(p, told, a, head);
      s.out == Retry ==> KinAt(tunnel, head, s.next, s.told, OriginAfter(o, a, s), i + 1, k)
  }

  /** The guard admits every answer of the attempts from number `i` on. */
  ghost predicate AllKin(tunnel: Upstream, head: bool, p: Progress, told: Told, o: Origin, i: nat) {
    forall k: nat {:trigger KinAt(tunnel, head, p, told, o, i, k)} ::
      i <= k < MAX_ATTEMPTS ==> KinAt(tunnel, head, p, told, o, i, k)
  }

  /** The guard admits the next answer, and what comes after it. */
  lemma AllKinNext(tunnel: Upstream, head: bool, p: Progress, told: Told, o: Origin, i: nat)
    requires AllKin(tunnel, head, p, told, o, i) && i < MAX_ATTEMPTS
    ensures var a := tunnel(i, NextRange(p));
            var s := Attempted(p, told, a, head);
            && (a.Answered? ==> Kin(p, o, a.resp, head))
            && (s.out == Retry ==> AllKin(tunnel, head, s.next, s.told, OriginAfter(o, a, s), i + 1))
  {
    assert KinAt(tunnel, head, p, told, o, i, i);
    var a := tunnel(i, NextRange(p));
    var s := Attempted(p, told, a, head);
    if s.out == Retry {
      var o' := OriginAfter(o, a, s);
      var i' := i + 1;
      forall k: nat | i' <= k < MAX_ATTEMPTS ensures KinAt(tunnel, head, s.next, s.told, o', i', k) {
        assert KinAt(tunnel, head, p, told, o, i, k);
      }
    }
  }

  /** Every attempt from number `i` on does no harm. */
  ghost predicate AllGood(
    w: World, tunnel: Upstream, head: bool, p: Progress, told: Told, o: Origin, whole: Bytes, i: nat)
    decreases MAX_ATTEMPTS - i
  {
    i >= MAX_ATTEMPTS ||
    var a := tunnel(i, NextRange(p));
    var s := Attempted(p, told, a, head);
    && Good(w, OriginAfter(o, a, s), s, whole)
    && (s.out == Retry ==> AllGood(w, tunnel, head, s.next, s.told, OriginAfter(o, a, s), whole, i + 1))
  }

  ghost predicate AllFaithful(tunnel: Upstream, whole: Bytes, head: bool) {
    forall i: nat, offset: Option<nat> :: Faithful(tunnel(i, offset), whole, offset, head)
  }

  /** Runs that the guard admits do no harm. */
  lemma {:induction false} KinRunGood(
    w: World, tunnel: Upstream, head: bool, p: Progress, told: Told, o: Origin, whole: Bytes, i: nat)
    requires Honest(w) && Between(w, p, told, o, whole) && AllFaithful(tunnel, whole, head)
    requires AllKin(tunnel, head, p, told, o, i)
    ensures AllGood(w, tunnel, head, p, told, o, whole, i)
    decreases MAX_ATTEMPTS - i
  {
    if i < MAX_ATTEMPTS {
      var a := tunnel(i, NextRange(p));
      var s := Attempted(p, told, a, head);
      AllKinNext(tunnel, head, p, told, o, i);
      KinStep(w, p, told, o, a, head, whole);
      if s.out == Retry {
        KinRunGood(w, tunnel, head, s.next, s.told, OriginAfter(o, a, s), whole, i + 1);
      }
    }
  }

  lemma {:induction false} ResumedAt(
    w: World, tunnel: Upstream, head: bool, p: Progress, told: Told, whole: Bytes, i: nat, k: nat)
    requires Honest(w) && Between(w, p, told, Plain, whole) && NextRange(p).Some? && AllFaithful(tunnel, whole, head)
    ensures KinAt(tunnel, head, p, told, Plain, i, k)
    decreases k - i
  {
    if i < k {
      var a := tunnel(i, NextRange(p));
      var s := Attempted(p, told, a, head);
      KinStep(w, p, told, Plain, a, head, whole);
      HeldGrows(p, told, a, head);
      if s.out == Retry {
        ResumedAt(w, tunnel, head, s.next, s.told, whole, i + 1, k);
      }
    }
  }

  /** Once a byte of the representation is held, everything accepted is asked for by Range, and the guard admits it. */
  lemma ResumedIsKin(w: World, tunnel: Upstream, head: bool, p: Progress, told: Told, whole: Bytes, i: nat)
    requires Honest(w) && Between(w, p, told, Plain, whole) && NextRange(p).Some? && AllFaithful(tunnel, whole, head)
    ensures AllKin(tunnel, head, p, told, Plain, i)
  {
    forall k: nat | i <= k < MAX_ATTEMPTS ensures KinAt(tunnel, head, p, told, Plain, i, k) {
      ResumedAt(w, tunnel, head, p, told, whole, i, k);
    }
  }

  // ---------------------------------------------------------------- the run that fails

  const R: Bytes := "abc"

  function Answer(status: nat, length: nat, range: Option<ContentRange>, body: Body): Attempt {
    Answered(Response(status, Some(length), range, [], body))
  }

  /**
   A 200 whose body never comes, then a page of another status and one byte, then the rest of the
   representation as asked for.
   */
  function PageTunnel(i: nat, offset: Option<nat>): Attempt {
    if i == 0 && offset == None then Answer(200, 3, None, Blob([], Timeout))
    else if i == 1 && offset == None then Answer(503, 1, None, Blob("?", CleanEof))
    else if offset == Some(1) then Answer(206, 2, Some(ContentRange(1, Some(3))), Blob("bc", CleanEof))
    else NoResponse
  }

  lemma PageTunnelFaithful()
    ensures AllFaithful(PageTunnel, R, false)
  {
  }

  /** What one attempt makes of a stream that ends at once. */
  lemma BlobStep(p: Progress, told: Told, bytes: Bytes, err: ReadErr)
    requires told.Saying? && p.total >= 0 && p.relayed < p.total
    ensures var s, q := Streamed(p, told, Blob(bytes, err), 0), Relay(p, bytes);
            && s.out == AfterError(err, q.relayed >= p.total)
            && s.next == (if s.out == Done then AfterCommit(q) else q)
            && s.told == Say(told, bytes) && s.commit == if s.out == Done then CommitOf(q) else None
  {
  }

  const KEY: string := "k"

  function PageHead(): string {
    ForwardHeader(PageTunnel(0, None).resp, false)
  }

  /** The progress of that run when `got` is with the client. */
  function PageProgress(got: Bytes): Progress {
    Progress(true, |got|, 3, false, [], KEY, PageHead(), got)
  }

  /** The head goes out, and nothing with it. */
  lemma PageFirst()
    ensures var s := Attempted(Start(KEY), Silent, PageTunnel(0, None), false);
            s.out == Retry && s.next == PageProgress([]) && s.told == Saying(PageHead(), [])
  {
  }

  /** The page is relayed and captured as the beginning of the body. */
  lemma PageSecond()
    ensures var s := Attempted(PageProgress([]), Saying(PageHead(), []), PageTunnel(1, None), false);
            s.out == Retry && s.next == PageProgress("?") && s.told == Saying(PageHead(), "?")
  {
  }

  lemma PageResumes()
    ensures Attempted(PageProgress("?"), Saying(PageHead(), "?"), PageTunnel(2, Some(1)), false) ==
            Streamed(PageProgress("?"), Saying(PageHead(), "?"), Blob("bc", CleanEof), 0)
    ensures Relay(PageProgress("?"), "bc") == PageProgress("?bc")
  {
    hide Streamed;
    assert "?" + "bc" == "?bc";
  }

  /** The rest of the representation completes it: done, and committed. */
  lemma PageThird()
    ensures var s := Attempted(PageProgress("?"), Saying(PageHead(), "?"), PageTunnel(2, Some(1)), false);
            && s.out == Done && s.told == Saying(PageHead(), "?bc") && !s.next.closeAfter
            && s.commit == Some(Put(KEY, Committed(PageHead(), "?bc")))
  {
    hide Attempted, Streamed, Relay;
    PageResumes();
    BlobStep(PageProgress("?"), Saying(PageHead(), "?"), "bc", CleanEof);
    assert "?" + "bc" == "?bc";
  }

  /** The engine up to its second attempt, while the client listens. */
  method RelaysAPageFirst(client: Client, cache: AssetCache) returns (st: ForwardState, ups: Tunnels)
    requires cache.Valid() && client.ok && client.log == []
    modifies client`log, client`ok, cache
    ensures cache.Valid() && fresh(st) && fresh(ups) && ups.answers == PageTunnel && (client.ok ==> |ups.tries| == 2)
    ensures client.ok ==>
              st.View() == PageProgress("?") && Trace(client.log) && Seen(client.log) == Saying(PageHead(), "?")
  {
    st := new ForwardState(KEY);
    ups := new Tunnels(PageTunnel);
    var out, answer;
    PageFirst();
    out, answer := ForwardOnce(client, cache, st, ups, false);
    if !client.ok {
      return;
    }
    PageSecond();
    out, answer := ForwardOnce(client, cache, st, ups, false);
  }

  lemma PutInFront(budget: nat, s: CacheState, key: string, resp: CachedResponse)
    requires SizeOf(resp) <= budget
    ensures var order := AfterPut(budget, s, key, resp).order;
            Listed(order, key) && order[0] == Item(key, resp)
  {
  }

  /**
   The engine in that run. A client that listens to the end gets a mixture under the head of the 200 and
   its connection is reused, and the mixture is in the cache of immutable assets.
   */
  method RelaysAPage(client: Client, cache: AssetCache) returns (out: Outcome, reusable: bool)
    requires cache.Valid() && cache.budget >= SizeOf(Committed(PageHead(), "?bc")) && client.ok && client.log == []
    modifies client`log, client`ok, cache
    ensures cache.Valid()
    ensures client.ok ==> out == Done && reusable && Seen(client.log) == Saying(PageHead(), "?bc")
    ensures client.ok ==> Listed(cache.order, KEY) && cache.order[0] == Item(KEY, Committed(PageHead(), "?bc"))
    ensures "?bc" != R
  {
    hide Attempted, PageTunnel, Committed, AfterPut, CutOff, Partway;
    var st, ups := RelaysAPageFirst(client, cache);
    assert "?bc"[0] != R[0];
    if !client.ok {
      return Abort, false;
    }
    PageThird();
    PutInFront(cache.budget, cache.State(), KEY, Committed(PageHead(), "?bc"));
    var answer;
    out, answer := ForwardOnce(client, cache, st, ups, false);
    reusable := out == Done && !st.closeAfter;
  }

  /** A part of the representation that nobody asked for, of unknown length. */
  const PART: Response := Response(206, None, None, [], Blob("b", CleanEof))

  function PartTunnel(i: nat, offset: Option<nat>): Attempt {
    if offset == None then Answered(PART) else NoResponse
  }

  lemma PartFirst()
    ensures AllFaithful(PartTunnel, R, false)
    ensures var s := Attempted(Start(KEY), Silent, Answered(PART), false);
            && s.out == Done && !s.next.closeAfter && s.told == Saying(ReframedHeader(PART, 1), "b")
            && s.commit == Some(Put(KEY, Committed(ReframedHeader(PART, 1), "b")))
  {
    BlobFresh("b", CleanEof, 0);
    assert [] + "b" == "b";
  }

  /** The engine makes a 200 of such a part, and commits it as the whole of an immutable asset. */
  method CommitsAPart(client: Client, cache: AssetCache) returns (out: Outcome)
    requires cache.Valid() && cache.budget >= SizeOf(Committed(ReframedHeader(PART, 1), "b"))
    requires client.ok && client.log == []
    modifies client`log, client`ok, cache
    ensures cache.Valid()
    ensures client.ok ==> out == Done && Seen(client.log) == Saying(ReframedHeader(PART, 1), "b")
    ensures client.ok ==>
              Listed(cache.order, KEY) && cache.order[0] == Item(KEY, Committed(ReframedHeader(PART, 1), "b"))
  {
    var st := new ForwardState(KEY);
    var ups := new Tunnels(PartTunnel);
    PartFirst();
    PutInFront(cache.budget, cache.State(), KEY, Committed(ReframedHeader(PART, 1), "b"));
    var answer;
    out, answer := ForwardOnce(client, cache, st, ups, false);
  }

  /** A request for `whole`, cacheable under `key` or not, to a faithful upstream. */
  ghost predicate Fair(w: World, whole: Bytes, tunnel: Upstream, head: bool, key: string) {
    Honest(w) && (key != "" ==> whole == w.rep(key)) && AllFaithful(tunnel, whole, head)
  }

  /** Over all representations and faithful upstreams, with the guard imposed or not. */
  ghost predicate AlwaysGood(guarded: bool) {
    forall w: World, whole: Bytes, tunnel: Upstream, head: bool, key: string ::
      Fair(w, whole, tunnel, head, key) && (guarded ==> AllKin(tunnel, head, Start(key), Silent, Nothing, 0)) ==>
        AllGood(w, tunnel, head, Start(key), Silent, Nothing, whole, 0)
  }

  lemma StartGood(w: World, whole: Bytes, tunnel: Upstream, head: bool, key: string)
    requires Fair(w, whole, tunnel, head, key) && AllKin(tunnel, head, Start(key), Silent, Nothing, 0)
    ensures AllGood(w, tunnel, head, Start(key), Silent, Nothing, whole, 0)
  {
    KinRunGood(w, tunnel, head, Start(key), Silent, Nothing, whole, 0);
  }

  lemma GuardedIsGood()
    ensures AlwaysGood(true)
  {
    forall w: World, whole: Bytes, tunnel: Upstream, head: bool, key: string |
      Fair(w, whole, tunnel, head, key) && AllKin(tunnel, head, Start(key), Silent, Nothing, 0)
      ensures AllGood(w, tunnel, head, Start(key), Silent, Nothing, whole, 0)
    {
      StartGood(w, whole, tunnel, head, key);
    }
  }

  /** Splicing and cache soundness hold over all runs exactly when the guard is imposed. */
  lemma GoodIffGuarded(guarded: bool)
    ensures AlwaysGood(guarded) <==> guarded
  {
    GuardedIsGood();
    PageRunHarms();
    assert Fair(Literal(_ => R), R, PageTunnel, false, KEY);
    assert !AlwaysGood(false);
  }

  lemma PageRunHarms()
    ensures Honest(Literal(_ => R)) && AllFaithful(PageTunnel, R, false)
    ensures !AllGood(Literal(_ => R), PageTunnel, false, Start(KEY), Silent, Nothing, R, 0)
  {
    var w := Literal(_ => R);
    PageTunnelFaithful();
    PageFirst();
    PageSecond();
    var s := Attempted(PageProgress([]), Saying(PageHead(), []), PageTunnel(1, None), false);
    assert s.told.body[0] != R[0];
    assert !Spliced(Plain, s.told, R);
    assert !Good(w, Plain, s, R);
    assert !AllGood(w, PageTunnel, false, PageProgress([]), Saying(PageHead(), []), Plain, R, 1);
  }
}
