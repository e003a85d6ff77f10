/** The lazy read against the full read, and what the two-try door may conclude. */
module LazyRead {
  import opened Prelude
  import opened ChainEvents
  import opened SpendGate
  import opened OfferCap

  // ---------------------------------------------------------------------------
  // Every candidate in exactly one list
  // ---------------------------------------------------------------------------

  function HeldIds(held: seq<Held>): (r: seq<int>)
    ensures |r| == |held|
  {
    seq(|held|, i requires 0 <= i < |held| => held[i].id)
  }

  function CandidateIds(all: seq<Candidate>): (r: seq<int>)
    ensures |r| == |all|
  {
    seq(|all|, i requires 0 <= i < |all| => all[i].id)
  }

  ghost function AllIds(out: Assessment): multiset<int> {
    multiset(Ids(out.offered)) + multiset(HeldIds(out.held)) + multiset(out.unread)
  }

  /** One candidate was added, to one list. */
  predicate Adds(before: Assessment, after: Assessment, c: Candidate) {
    || after == before.(offered := before.offered + [Coin(c.id, c.sats)])
    || after == before.(unread := before.unread + [c.id])
    || (|after.held| == |before.held| + 1
        && var h := after.held[|before.held|];
           h.id == c.id && h.sats == c.sats && after == before.(held := before.held + [h]))
  }

  lemma AddsOneId(all: seq<Candidate>, k: nat, before: Assessment, after: Assessment)
    requires k < |all| && Adds(before, after, all[k])
    requires AllIds(before) == multiset(CandidateIds(all[..k]))
    ensures AllIds(after) == multiset(CandidateIds(all[..k + 1]))
  {
    var c := all[k];
    assert Ids(before.offered + [Coin(c.id, c.sats)]) == Ids(before.offered) + [c.id];
    if |after.held| == |before.held| + 1 {
      assert HeldIds(after.held) == HeldIds(before.held) + [c.id];
    }
    assert AllIds(after) == AllIds(before) + multiset{c.id};
    assert CandidateIds(all[..k + 1]) == CandidateIds(all[..k]) + [c.id];
  }

  lemma PlaceAdds(ask: Ask, s: Scan, c: Candidate, covered: bool)
    ensures Adds(s.out, Place(ask, s, c, covered), c)
  {
  }

  lemma JudgeAdds(ask: Ask, creators: seq<string>, s: Scan, c: Candidate)
    requires s.next <= |creators|
    ensures Adds(s.out, Judge(ask, creators, s, c).out, c)
  {
    PlaceAdds(ask, s, c, Covered(ask, s.out));
    PlaceAdds(ask, ReadBatch(ask, creators, s), c, Covered(ask, s.out));
  }

  lemma {:induction false} EachInOneList(ask: Ask, creators: seq<string>, k: nat)
    requires k <= |ask.all|
    ensures AllIds(Scanned(ask, creators, k).out) == multiset(CandidateIds(ask.all[..k]))
  {
    if k > 0 {
      EachInOneList(ask, creators, k - 1);
      JudgeAdds(ask, creators, Scanned(ask, creators, k - 1), ask.all[k - 1]);
      AddsOneId(ask.all, k - 1, Scanned(ask, creators, k - 1).out, Scanned(ask, creators, k).out);
    }
  }

  lemma CapKeepsIds(out: Assessment, cap: nat)
    ensures AllIds(CapOffer(out, cap)) == AllIds(out)
  {
    CapOfferConserves(out, cap);
    var after := CapOffer(out, cap);
    var held := multiset(HeldIds(out.held));
    assert AllIds(after) == (multiset(Ids(after.offered)) + multiset(after.unread)) + held;
    assert AllIds(out) == (multiset(Ids(out.offered)) + multiset(out.unread)) + held;
  }

  /** Each candidate is offered, held or unread, and only one of them, before the cap and after. */
  lemma AssessmentPartitions(ask: Ask, cap: nat)
    ensures AllIds(Uncapped(ask)) == multiset(CandidateIds(ask.all))
    ensures AllIds(CapOffer(Uncapped(ask), cap)) == multiset(CandidateIds(ask.all))
  {
    EachInOneList(ask, Creators(ask.all), |ask.all|);
    assert ask.all[..|ask.all|] == ask.all;
    var out := Uncapped(ask);
    CapKeepsIds(out, cap);
  }

  // ---------------------------------------------------------------------------
  // Creators by position
  // ---------------------------------------------------------------------------

  /** Where `t` first stands in `ts`, or past its end. */
  function Pos(ts: seq<string>, t: string): (p: nat)
    ensures p <= |ts|
  {
    if ts == [] then 0 else if ts[0] == t then 0 else 1 + Pos(ts[1..], t)
  }

  lemma {:induction false} PosIsFirst(ts: seq<string>, t: string, n: nat)
    requires n <= |ts|
    ensures t in ts[..n] <==> Pos(ts, t) < n
  {
    if n > 0 && ts[0] != t {
      PosIsFirst(ts[1..], t, n - 1);
      assert ts[..n] == [ts[0]] + ts[1..][..n - 1];
    }
  }

  lemma {:induction false} PosAppend(ts: seq<string>, u: string, t: string)
    ensures Pos(ts + [u], t) ==
            if Pos(ts, t) < |ts| then Pos(ts, t) else if u == t then |ts| else |ts| + 1
  {
    if ts != [] {
      assert (ts + [u])[0] == ts[0] && (ts + [u])[1..] == ts[1..] + [u];
      PosAppend(ts[1..], u, t);
    }
  }

  lemma {:induction false} EveryCreatorListed(all: seq<Candidate>, c: Candidate)
    requires c in all
    ensures Pos(Creators(all), c.outpoint.txid) < |Creators(all)|
  {
    var n := |all| - 1;
    var before, t := Creators(all[..n]), all[n].outpoint.txid;
    if c in all[..n] {
      EveryCreatorListed(all[..n], c);
    }
    PosAppend(before, t, c.outpoint.txid);
    PosIsFirst(before, t, |before|);
    assert before[..|before|] == before;
  }

  // ---------------------------------------------------------------------------
  // The scan under fixed readings
  // ---------------------------------------------------------------------------

  /** The readings do not change between the two reads. */
  ghost predicate Fixed(ask: Ask, r: string -> Reading) {
    forall n, t :: ask.answer(n, t) == r(t)
  }

  /** What a candidate is under one reading of its creator. */
  function Verdict(c: Candidate, r: string -> Reading, opts: Options): Option<Reason> {
    if c.frozen then Some(FrozenCoin)
    else HoldReason(r(c.outpoint.txid), c.origin, c.outpoint, opts)
  }

  function HeldAs(c: Candidate, reason: Reason, r: string -> Reading): Held {
    Held(c.id, c.sats, reason, !c.frozen && r(c.outpoint.txid).headersFault)
  }

  /** A judged coin goes where its verdict says; an offer already covered takes no more. */
  function Put(
      out: Assessment, c: Candidate, v: Option<Reason>, r: string -> Reading, read: bool, covered: bool): Assessment
  {
    if read && v.Some? then out.(held := out.held + [HeldAs(c, v.value, r)])
    else if read && !covered then out.(offered := out.offered + [Coin(c.id, c.sats)])
    else out.(unread := out.unread + [c.id])
  }

  /** The window of creators once a coin has been looked at. */
  function Widen(need: Option<nat>, creators: seq<string>, next: nat): nat {
    if need.Some? then Min(next + BATCH, |creators|) else |creators|
  }

  datatype Lazy = Lazy(next: nat, out: Assessment)

  /** The scan with the readings known: a creator is read when its position is in the window. */
  function LazyScan(ask: Ask, creators: seq<string>, r: string -> Reading, k: nat): Lazy
    requires k <= |ask.all|
  {
    if k == 0 then Lazy(0, NOTHING)
    else
      var s, c := LazyScan(ask, creators, r, k - 1), ask.all[k - 1];
      var at, covered := Pos(creators, c.outpoint.txid), Covered(ask, s.out);
      var next := if c.frozen || at < s.next || covered then s.next else Widen(ask.need, creators, s.next);
      Lazy(next, Put(s.out, c, Verdict(c, r, ask.opts), r, c.frozen || at < next, covered))
  }

  /** The readings kept are those of the creators in the window, as the services gave them. */
  ghost predicate ReadSoFar(ask: Ask, creators: seq<string>, s: Scan) {
    && s.next <= |creators|
    && (forall t :: t in s.readings <==> Pos(creators, t) < s.next)
    && (forall t | t in s.readings :: s.readings[t] in {ask.answer(0, t), ask.answer(1, t)})
  }

  lemma BatchReads(ask: Ask, creators: seq<string>, s: Scan)
    requires ReadSoFar(ask, creators, s)
    ensures ReadSoFar(ask, creators, ReadBatch(ask, creators, s))
  {
    var after := ReadBatch(ask, creators, s);
    var batch := creators[s.next..after.next];
    assert creators[..after.next] == creators[..s.next] + batch;
    forall t ensures t in after.readings <==> Pos(creators, t) < after.next {
      PosIsFirst(creators, t, s.next);
      PosIsFirst(creators, t, after.next);
      assert t in after.readings <==> t in s.readings || t in batch;
    }
  }

  lemma {:induction false} ScanReads(ask: Ask, creators: seq<string>, k: nat)
    requires k <= |ask.all|
    ensures ReadSoFar(ask, creators, Scanned(ask, creators, k))
  {
    if k > 0 {
      ScanReads(ask, creators, k - 1);
      BatchReads(ask, creators, Scanned(ask, creators, k - 1));
      JudgeReads(ask, creators, Scanned(ask, creators, k - 1), ask.all[k - 1]);
    }
  }

  /**
   The one more read: made exactly when it is allowed and some creator read met a header fault; and
   a second reading is kept only of such a creator.
   */
  ghost predicate OnceMore(ask: Ask, s: Scan) {
    && (s.retried <==> ask.retry && exists t :: t in s.readings && ask.answer(0, t).headersFault)
    && forall t | t in s.readings ::
         || s.readings[t] == ask.answer(0, t)
         || (s.retried && ask.answer(0, t).headersFault && s.readings[t] == ask.answer(1, t))
  }

  /** What a batch reads: each of its creators, and those that met a header fault again where that is allowed. */
  lemma BatchReadings(ask: Ask, creators: seq<string>, s: Scan) returns (batch: seq<string>, again: bool)
    requires s.next <= |creators|
    ensures var after := ReadBatch(ask, creators, s);
            && (again <==> ask.retry && !s.retried && exists t :: t in batch && ask.answer(0, t).headersFault)
            && after.retried == (s.retried || again)
            && (forall t :: t in after.readings <==> t in s.readings || t in batch)
            && forall t | t in after.readings ::
                 after.readings[t] == if t !in batch then s.readings[t]
                                      else if again && ask.answer(0, t).headersFault then ask.answer(1, t)
                                      else ask.answer(0, t)
  {
    batch := creators[s.next..ReadBatch(ask, creators, s).next];
    var once := s.readings + map t | t in batch :: ask.answer(0, t);
    assert forall t :: t in Faulted(batch, once) <==> t in batch && ask.answer(0, t).headersFault;
    again := ask.retry && !s.retried && Faulted(batch, once) != {};
    if t :| t in batch && ask.answer(0, t).headersFault {
      assert t in Faulted(batch, once);
    }
  }

  lemma BatchOnceMore(ask: Ask, creators: seq<string>, s: Scan)
    requires s.next <= |creators| && OnceMore(ask, s)
    ensures OnceMore(ask, ReadBatch(ask, creators, s))
  {
    var batch, again := BatchReadings(ask, creators, s);
  }

  lemma {:induction false} ReadsOnceMore(ask: Ask, creators: seq<string>, k: nat)
    requires k <= |ask.all|
    ensures OnceMore(ask, Scanned(ask, creators, k))
  {
    if k > 0 {
      var s := Scanned(ask, creators, k - 1);
      ReadsOnceMore(ask, creators, k - 1);
      ScanReads(ask, creators, k - 1);
      BatchOnceMore(ask, creators, s);
      JudgeRetries(ask, creators, s, ask.all[k - 1]);
    }
  }

  lemma JudgeRetries(ask: Ask, creators: seq<string>, s: Scan, c: Candidate)
    requires s.next <= |creators|
    ensures var after, batch := Judge(ask, creators, s, c), ReadBatch(ask, creators, s);
            || (after.readings == s.readings && after.retried == s.retried)
            || (after.readings == batch.readings && after.retried == batch.retried)
  {
  }

  lemma JudgeReads(ask: Ask, creators: seq<string>, s: Scan, c: Candidate)
    requires s.next <= |creators|
    ensures var after, batch := Judge(ask, creators, s, c), ReadBatch(ask, creators, s);
            if c.frozen || c.outpoint.txid in s.readings || Covered(ask, s.out)
            then after.next == s.next && after.readings == s.readings
            else after.next == batch.next && after.readings == batch.readings
  {
  }

  lemma JudgePuts(ask: Ask, creators: seq<string>, r: string -> Reading, s: Scan, c: Candidate)
    requires ReadSoFar(ask, creators, s) && Fixed(ask, r)
    ensures var after, at := Judge(ask, creators, s, c), Pos(creators, c.outpoint.txid);
            var covered := Covered(ask, s.out);
            && after.next == (if c.frozen || at < s.next || covered then s.next
                              else Widen(ask.need, creators, s.next))
            && after.out == Put(s.out, c, Verdict(c, r, ask.opts), r, c.frozen || at < after.next, covered)
  {
    BatchReads(ask, creators, s);
    JudgeReads(ask, creators, s, c);
  }

  lemma {:induction false} ScanIsLazy(ask: Ask, creators: seq<string>, r: string -> Reading, k: nat)
    requires k <= |ask.all| && Fixed(ask, r)
    ensures var s, l := Scanned(ask, creators, k), LazyScan(ask, creators, r, k);
            s.next == l.next && s.out == l.out
  {
    if k > 0 {
      ScanIsLazy(ask, creators, r, k - 1);
      ScanReads(ask, creators, k - 1);
      JudgePuts(ask, creators, r, Scanned(ask, creators, k - 1), ask.all[k - 1]);
    }
  }

  // ---------------------------------------------------------------------------
  // The full read
  // ---------------------------------------------------------------------------

  function OfferedOf(cs: seq<Candidate>, r: string -> Reading, opts: Options): seq<Coin> {
    if cs == [] then []
    else
      var c := cs[|cs| - 1];
      OfferedOf(cs[..|cs| - 1], r, opts)
      + (if Verdict(c, r, opts).None? then [Coin(c.id, c.sats)] else [])
  }

  function HeldOf(cs: seq<Candidate>, r: string -> Reading, opts: Options): seq<Held> {
    if cs == [] then []
    else
      var c, v := cs[|cs| - 1], Verdict(cs[|cs| - 1], r, opts);
      HeldOf(cs[..|cs| - 1], r, opts) + (if v.Some? then [HeldAs(c, v.value, r)] else [])
  }

  lemma {:induction false} FullLazy(ask: Ask, r: string -> Reading, k: nat)
    requires k <= |ask.all| && ask.need.None?
    ensures var s, cs := LazyScan(ask, Creators(ask.all), r, k), ask.all[..k];
            && (s.next == 0 || s.next == |Creators(ask.all)|)
            && s.out == Assessment(OfferedOf(cs, r, ask.opts), HeldOf(cs, r, ask.opts), [], None)
  {
    if k > 0 {
      FullLazy(ask, r, k - 1);
      var c := ask.all[k - 1];
      assert c in ask.all;
      EveryCreatorListed(ask.all, c);
      assert ask.all[..k][..k - 1] == ask.all[..k - 1];
    }
  }

  /** The full read judges every candidate by its verdict: nothing is unread. */
  lemma FullRead(ask: Ask, r: string -> Reading)
    requires ask.need.None? && Fixed(ask, r)
    ensures Uncapped(ask)
         == Assessment(OfferedOf(ask.all, r, ask.opts), HeldOf(ask.all, r, ask.opts), [], None)
  {
    ScanIsLazy(ask, Creators(ask.all), r, |ask.all|);
    FullLazy(ask, r, |ask.all|);
    assert ask.all[..|ask.all|] == ask.all;
  }

  // ---------------------------------------------------------------------------
  // The lazy read
  // ---------------------------------------------------------------------------

  lemma OneMoreJudged(all: seq<Candidate>, r: string -> Reading, opts: Options, k: nat)
    requires 0 < k <= |all|
    ensures var c, v := all[k - 1], Verdict(all[k - 1], r, opts);
            && OfferedOf(all[..k], r, opts)
               == OfferedOf(all[..k - 1], r, opts) + (if v.None? then [Coin(c.id, c.sats)] else [])
            && HeldOf(all[..k], r, opts)
               == HeldOf(all[..k - 1], r, opts) + (if v.Some? then [HeldAs(c, v.value, r)] else [])
  {
    assert all[..k][..k - 1] == all[..k - 1];
  }

  lemma {:induction false} LazyIsWithin(ask: Ask, creators: seq<string>, r: string -> Reading, k: nat)
    requires k <= |ask.all|
    ensures var out := LazyScan(ask, creators, r, k).out;
            && Sub(out.offered, OfferedOf(ask.all[..k], r, ask.opts))
            && Sub(out.held, HeldOf(ask.all[..k], r, ask.opts))
  {
    if k > 0 {
      LazyIsWithin(ask, creators, r, k - 1);
      var s, c, before := LazyScan(ask, creators, r, k - 1), ask.all[k - 1], ask.all[..k - 1];
      OneMoreJudged(ask.all, r, ask.opts, k);
      var next := LazyScan(ask, creators, r, k).next;
      PutWithin(s.out, c, Verdict(c, r, ask.opts), r, c.frozen || Pos(creators, c.outpoint.txid) < next,
                Covered(ask, s.out), OfferedOf(before, r, ask.opts), HeldOf(before, r, ask.opts));
    }
  }

  lemma PutWithin(
      out: Assessment, c: Candidate, v: Option<Reason>, r: string -> Reading, read: bool, covered: bool,
      offered: seq<Coin>, held: seq<Held>)
    requires Sub(out.offered, offered) && Sub(out.held, held)
    ensures var next := Put(out, c, v, r, read, covered);
            && Sub(next.offered, offered + (if v.None? then [Coin(c.id, c.sats)] else []))
            && Sub(next.held, held + (if v.Some? then [HeldAs(c, v.value, r)] else []))
  {
    SubAppend(out.offered, offered, Coin(c.id, c.sats));
    if v.Some? {
      SubAppend(out.held, held, HeldAs(c, v.value, r));
    }
    assert offered + [] == offered && held + [] == held;
  }

  /**
   With the readings fixed, the lazy read refines the full one: what it offers and what it holds
   are, in the same order, among what the full read offers and holds.
   */
  lemma LazyRefinesFull(ask: Ask, r: string -> Reading)
    requires Fixed(ask, r)
    ensures Sub(Uncapped(ask).offered, Uncapped(ask.(need := None)).offered)
    ensures Sub(Uncapped(ask).held, Uncapped(ask.(need := None)).held)
  {
    ScanIsLazy(ask, Creators(ask.all), r, |ask.all|);
    LazyIsWithin(ask, Creators(ask.all), r, |ask.all|);
    FullRead(ask.(need := None), r);
    assert ask.all[..|ask.all|] == ask.all;
  }

  /** So, on unchanged coins and readings, the second offer is never worth less than the first. */
  lemma SecondOfferIsNoLess(ask: Ask, r: string -> Reading)
    requires Fixed(ask, r)
    ensures Sats(CapOffer(Uncapped(ask), OFFER_CAP).offered)
         <= Sats(CapOffer(Uncapped(ask.(need := None)), OFFER_CAP).offered)
  {
    LazyRefinesFull(ask, r);
    CapIsMonotone(Uncapped(ask).offered, Uncapped(ask.(need := None)).offered, OFFER_CAP);
  }

  // ---------------------------------------------------------------------------
  // Covered, or nothing unread: exactly when the window reaches every live coin
  // ---------------------------------------------------------------------------

  /** How far the window of creators moves over the first `k` candidates while nothing covers. */
  function Window(all: seq<Candidate>, creators: seq<string>, k: nat): nat
    requires k <= |all|
  {
    if k == 0 then 0
    else
      var before, c := Window(all, creators, k - 1), all[k - 1];
      if c.frozen || Pos(creators, c.outpoint.txid) < before then before
      else Min(before + BATCH, |creators|)
  }

  ghost predicate Reached(all: seq<Candidate>, creators: seq<string>, k: nat)
    requires k < |all|
  {
    all[k].frozen || Pos(creators, all[k].outpoint.txid) < Window(all, creators, k + 1)
  }

  /** A condition on the candidates alone: every coin not frozen falls within its own window. */
  ghost predicate WindowReaches(all: seq<Candidate>) {
    forall k | 0 <= k < |all| :: Reached(all, Creators(all), k)
  }

  lemma LazyStaysCovered(ask: Ask, creators: seq<string>, r: string -> Reading, k: nat)
    requires 0 < k <= |ask.all|
    ensures Covered(ask, LazyScan(ask, creators, r, k - 1).out) ==>
              Covered(ask, LazyScan(ask, creators, r, k).out)
  {
    var s, c := LazyScan(ask, creators, r, k - 1), ask.all[k - 1];
    PutNoLess(s.out, c, Verdict(c, r, ask.opts), r, true, Covered(ask, s.out));
    PutNoLess(s.out, c, Verdict(c, r, ask.opts), r, false, Covered(ask, s.out));
  }

  lemma PutNoLess(
      out: Assessment, c: Candidate, v: Option<Reason>, r: string -> Reading, read: bool, covered: bool)
    ensures Sats(Put(out, c, v, r, read, covered).offered) >= Sats(out.offered)
  {
    SatsAppend(out.offered, Coin(c.id, c.sats));
  }

  lemma {:induction false} WindowIsNext(ask: Ask, creators: seq<string>, r: string -> Reading, k: nat)
    requires k <= |ask.all| && ask.need.Some? && !Covered(ask, LazyScan(ask, creators, r, k).out)
    ensures LazyScan(ask, creators, r, k).next == Window(ask.all, creators, k)
  {
    if k > 0 {
      LazyStaysCovered(ask, creators, r, k);
      WindowIsNext(ask, creators, r, k - 1);
    }
  }

  /** The offer: a prefix of the full offer that reaches the need, and no longer than it must be. */
  ghost predicate ShortestPrefix(offered: seq<Coin>, full: seq<Coin>, need: nat) {
    && offered <= full
    && need <= Sats(offered)
    && (offered != [] ==> Sats(offered[..|offered| - 1]) < need)
  }

  ghost predicate CoversOrReadsAll(ask: Ask, out: Assessment, full: seq<Coin>)
    requires ask.need.Some?
  {
    if Covered(ask, out) then ShortestPrefix(out.offered, full, ask.need.value)
    else out.offered == full && out.unread == []
  }

  lemma {:induction false} ReachedScan(ask: Ask, creators: seq<string>, r: string -> Reading, k: nat)
    requires k <= |ask.all| && ask.need.Some?
    requires forall j | 0 <= j < |ask.all| :: Reached(ask.all, creators, j)
    ensures CoversOrReadsAll(ask, LazyScan(ask, creators, r, k).out, OfferedOf(ask.all[..k], r, ask.opts))
  {
    if k > 0 {
      ReachedScan(ask, creators, r, k - 1);
      var s, c := LazyScan(ask, creators, r, k - 1), ask.all[k - 1];
      assert ask.all[..k][..k - 1] == ask.all[..k - 1];
      var next := LazyScan(ask, creators, r, k).next;
      if !Covered(ask, s.out) {
        WindowIsNext(ask, creators, r, k - 1);
        assert Reached(ask.all, creators, k - 1);
      }
      PutCoversOrReads(ask, s.out, c, Verdict(c, r, ask.opts), r, OfferedOf(ask.all[..k - 1], r, ask.opts),
                       c.frozen || Pos(creators, c.outpoint.txid) < next);
    }
  }

  lemma PutCoversOrReads(
      ask: Ask, out: Assessment, c: Candidate, v: Option<Reason>, r: string -> Reading, full: seq<Coin>, read: bool)
    requires ask.need.Some? && CoversOrReadsAll(ask, out, full) && (!Covered(ask, out) ==> read)
    ensures CoversOrReadsAll(ask, Put(out, c, v, r, read, Covered(ask, out)),
                             full + (if v.None? then [Coin(c.id, c.sats)] else []))
  {
    SatsAppend(out.offered, Coin(c.id, c.sats));
    assert full + [] == full;
    assert (out.offered + [Coin(c.id, c.sats)])[..|out.offered|] == out.offered;
  }

  /** The lazy read covers the need with the shortest prefix, or has left nothing unread. */
  lemma ReachedCoversOrReadsAll(ask: Ask, r: string -> Reading)
    requires ask.need.Some? && Fixed(ask, r) && WindowReaches(ask.all)
    ensures CoversOrReadsAll(ask, Uncapped(ask), OfferedOf(ask.all, r, ask.opts))
  {
    ScanIsLazy(ask, Creators(ask.all), r, |ask.all|);
    ReachedScan(ask, Creators(ask.all), r, |ask.all|);
    assert ask.all[..|ask.all|] == ask.all;
  }

  /** A lazy read that leaves nothing unread offers all that a full one would. */
  lemma {:induction false} NothingUnreadScan(ask: Ask, creators: seq<string>, r: string -> Reading, k: nat)
    requires k <= |ask.all| && LazyScan(ask, creators, r, k).out.unread == []
    ensures LazyScan(ask, creators, r, k).out.offered == OfferedOf(ask.all[..k], r, ask.opts)
  {
    if k > 0 {
      NothingUnreadScan(ask, creators, r, k - 1);
      OneMoreJudged(ask.all, r, ask.opts, k);
    }
  }

  lemma NothingUnreadOffersAll(ask: Ask, r: string -> Reading)
    requires Fixed(ask, r) && Uncapped(ask).unread == []
    ensures Uncapped(ask).offered == OfferedOf(ask.all, r, ask.opts)
  {
    ScanIsLazy(ask, Creators(ask.all), r, |ask.all|);
    NothingUnreadScan(ask, Creators(ask.all), r, |ask.all|);
    assert ask.all[..|ask.all|] == ask.all;
  }

  const HOLDS_ALL := Reading(Mined, true, false, None, false)

  lemma {:induction false} HoldingEverything(ask: Ask, creators: seq<string>, r: string -> Reading, k: nat)
    requires k <= |ask.all| && ask.need.Some? && ask.need.value > 0 && forall t :: r(t) == HOLDS_ALL
    ensures var out := LazyScan(ask, creators, r, k).out;
            && out.offered == []
            && ((exists j :: 0 <= j < k && !Reached(ask.all, creators, j)) ==> out.unread != [])
  {
    if k > 0 {
      HoldingEverything(ask, creators, r, k - 1);
      WindowIsNext(ask, creators, r, k - 1);
    }
  }

  /** And only then: where a live coin falls past its window, some readings leave it unread, uncovered. */
  lemma UnreachedLeavesUnread(ask: Ask)
    requires ask.need.Some? && ask.need.value > 0 && Fixed(ask, t => HOLDS_ALL) && !WindowReaches(ask.all)
    ensures !Covered(ask, Uncapped(ask)) && Uncapped(ask).unread != []
  {
    ScanIsLazy(ask, Creators(ask.all), t => HOLDS_ALL, |ask.all|);
    HoldingEverything(ask, Creators(ask.all), t => HOLDS_ALL, |ask.all|);
  }

  /** A lazy read of these coins for this need, from services that always answer so. */
  function LazyAsk(all: seq<Candidate>, need: nat, opts: Options, retry: bool, r: string -> Reading): Ask {
    Ask(all, Some(need), opts, retry, (n: nat, t: string) => r(t))
  }

  ghost predicate NeverShort(all: seq<Candidate>, need: nat, opts: Options, retry: bool, r: string -> Reading) {
    var ask := LazyAsk(all, need, opts, retry, r);
    CoversOrReadsAll(ask, Uncapped(ask), OfferedOf(all, r, opts))
  }

  /**
   For any need: the lazy read covers it with the shortest prefix or leaves nothing unread, under
   all readings, exactly when the window reaches every live coin.
   */
  lemma WindowIsExact(all: seq<Candidate>, need: nat, opts: Options, retry: bool)
    requires need > 0
    ensures WindowReaches(all) <==> forall r :: NeverShort(all, need, opts, retry, r)
  {
    if WindowReaches(all) {
      forall r ensures NeverShort(all, need, opts, retry, r) {
        ReachedCoversOrReadsAll(LazyAsk(all, need, opts, retry, r), r);
      }
    } else {
      UnreachedLeavesUnread(LazyAsk(all, need, opts, retry, t => HOLDS_ALL));
      assert !NeverShort(all, need, opts, retry, t => HOLDS_ALL);
    }
  }

  // ---------------------------------------------------------------------------
  // Frozen coins and the window
  // ---------------------------------------------------------------------------

  /** The creators of frozen coins. */
  ghost function FrozenCreators(all: seq<Candidate>): set<string> {
    set c | c in all && c.frozen :: c.outpoint.txid
  }

  lemma {:induction false} CreatorsPrefix(all: seq<Candidate>, k: nat)
    requires k <= |all|
    ensures Creators(all[..k]) <= Creators(all)
    decreases |all|
  {
    if k < |all| {
      var n := |all| - 1;
      assert all[..n][..k] == all[..k];
      CreatorsPrefix(all[..n], k);
    } else {
      assert all[..k] == all;
    }
  }

  /** A listed creator has a coin. */
  lemma {:induction false} ListedHasCoin(all: seq<Candidate>, t: string)
    requires t in Creators(all)
    ensures exists c :: c in all && c.outpoint.txid == t
  {
    var n := |all| - 1;
    if t in Creators(all[..n]) {
      ListedHasCoin(all[..n], t);
    } else {
      assert all[n] in all;
    }
  }

  ghost predicate Distinct(ts: seq<string>) {
    forall i, j | 0 <= i < j < |ts| :: ts[i] != ts[j]
  }

  lemma {:induction false} CreatorsDistinct(all: seq<Candidate>)
    ensures Distinct(Creators(all))
  {
    if all != [] {
      CreatorsDistinct(all[..|all| - 1]);
    }
  }

  lemma {:induction false} WindowGrows(all: seq<Candidate>, creators: seq<string>, j: nat, k: nat)
    requires j <= k <= |all|
    ensures Window(all, creators, j) <= Window(all, creators, k)
    ensures Window(all, creators, k) <= |creators|
    decreases k
  {
    if j < k {
      WindowGrows(all, creators, j, k - 1);
    } else if k > 0 {
      WindowGrows(all, creators, k - 1, k - 1);
    }
  }

  ghost function Spread(ts: seq<string>): set<string> {
    set t | t in ts
  }

  lemma {:induction false} DistinctCount(ts: seq<string>)
    requires Distinct(ts)
    ensures |Spread(ts)| == |ts|
  {
    if ts != [] {
      DistinctCount(ts[1..]);
      assert Spread(ts) == {ts[0]} + Spread(ts[1..]);
    } else {
      assert Spread(ts) == {};
    }
  }

  lemma {:induction false} SubsetSize(a: set<string>, b: set<string>)
    requires a <= b
    ensures |a| <= |b|
  {
    if a != {} {
      var x :| x in a;
      SubsetSize(a - {x}, b - {x});
    }
  }

  lemma {:induction false} PosOfDistinct(ts: seq<string>, x: nat)
    requires x < |ts| && Distinct(ts)
    ensures Pos(ts, ts[x]) == x
  {
    if x > 0 {
      PosOfDistinct(ts[1..], x - 1);
    }
  }

  /** A creator listed before a coin's own has an earlier coin. */
  lemma EarlierCreator(all: seq<Candidate>, k: nat, x: nat) returns (j: nat)
    requires k < |all| && x < Pos(Creators(all), all[k].outpoint.txid) < |Creators(all)|
    ensures j < k && all[j].outpoint.txid == Creators(all)[x]
  {
    var creators, t := Creators(all), all[k].outpoint.txid;
    var seen := Creators(all[..k]);
    CreatorsPrefix(all, k);
    CreatorsPrefix(all, k + 1);
    assert all[..k + 1][..k] == all[..k];
    var upTo := Creators(all[..k + 1]);
    PosIsFirst(creators, t, |upTo|);
    assert upTo == creators[..|upTo|];
    assert t in upTo;
    assert creators[x] == seen[x] && seen[x] in seen;
    ListedHasCoin(all[..k], creators[x]);
    var c :| c in all[..k] && c.outpoint.txid == creators[x];
    j :| 0 <= j < k && all[..k][j] == c;
  }

  /** A creator between the window and a live coin's is the creator of a frozen coin. */
  lemma PastWindowIsFrozen(all: seq<Candidate>, creators: seq<string>, j: nat, k: nat)
    requires j < k < |all| && Reached(all, creators, j)
    requires Window(all, creators, k) <= Pos(creators, all[j].outpoint.txid)
    ensures all[j].frozen && all[j].outpoint.txid in FrozenCreators(all)
  {
    WindowGrows(all, creators, j + 1, k);
    assert all[j] in all;
  }

  lemma CreatorAt(all: seq<Candidate>, x: nat)
    requires x < |Creators(all)|
    ensures Pos(Creators(all), Creators(all)[x]) == x
  {
    CreatorsDistinct(all);
    PosOfDistinct(Creators(all), x);
  }

  lemma SkippedIsFrozen(all: seq<Candidate>, k: nat, x: nat)
    requires k < |all| && forall j | 0 <= j < k :: Reached(all, Creators(all), j)
    requires Window(all, Creators(all), k) <= x < Pos(Creators(all), all[k].outpoint.txid) < |Creators(all)|
    ensures Creators(all)[x] in FrozenCreators(all)
  {
    var j := EarlierCreator(all, k, x);
    CreatorAt(all, x);
    PastWindowIsFrozen(all, Creators(all), j, k);
  }

  lemma LiveCoinReached(all: seq<Candidate>, k: nat)
    requires k < |all| && |FrozenCreators(all)| < BATCH
    requires forall j | 0 <= j < k :: Reached(all, Creators(all), j)
    ensures Reached(all, Creators(all), k)
  {
    var creators := Creators(all);
    var before, at := Window(all, creators, k), Pos(creators, all[k].outpoint.txid);
    EveryCreatorListed(all, all[k]);
    if !all[k].frozen && before <= at {
      forall x | before <= x < at ensures creators[x] in FrozenCreators(all) {
        SkippedIsFrozen(all, k, x);
      }
      CreatorsDistinct(all);
      DistinctSlice(creators, before, at, FrozenCreators(all));
    }
  }

  lemma DistinctSlice(ts: seq<string>, low: nat, high: nat, within: set<string>)
    requires low <= high <= |ts| && Distinct(ts) && forall x | low <= x < high :: ts[x] in within
    ensures high - low <= |within|
  {
    DistinctCount(ts[low..high]);
    SubsetSize(Spread(ts[low..high]), within);
  }

  /** Fewer than a batch of frozen coins' creators can push no live coin past its window. */
  lemma {:induction false} FewFrozenReach(all: seq<Candidate>, k: nat)
    requires k <= |all| && |FrozenCreators(all)| < BATCH
    ensures forall j | 0 <= j < k :: Reached(all, Creators(all), j)
  {
    if k > 0 {
      FewFrozenReach(all, k - 1);
      LiveCoinReached(all, k - 1);
    }
  }

  lemma FewFrozenWindowReaches(all: seq<Candidate>)
    requires |FrozenCreators(all)| < 32
    ensures WindowReaches(all)
  {
    FewFrozenReach(all, |all|);
  }

  lemma {:induction false} FrozenWindow(all: seq<Candidate>, creators: seq<string>, k: nat)
    requires k <= |all| && forall j | 0 <= j < k :: all[j].frozen
    ensures Window(all, creators, k) == 0
  {
    if k > 0 {
      FrozenWindow(all, creators, k - 1);
    }
  }

  lemma {:induction false} DistinctCreators(cs: seq<Candidate>)
    requires forall i, j | 0 <= i < j < |cs| :: cs[i].outpoint.txid != cs[j].outpoint.txid
    ensures |Creators(cs)| == |cs|
  {
    if cs != [] {
      var n := |cs| - 1;
      DistinctCreators(cs[..n]);
      if cs[n].outpoint.txid in Creators(cs[..n]) {
        ListedHasCoin(cs[..n], cs[n].outpoint.txid);
      }
    }
  }

  /** A batch of frozen coins first, each its own creator's, and the live coin after them is missed. */
  lemma FrozenBatchHides(frozen: seq<Candidate>, live: Candidate)
    requires |frozen| >= 32 && (forall c | c in frozen :: c.frozen) && !live.frozen
    requires var all := frozen + [live];
             forall i, j | 0 <= i < j < |all| :: all[i].outpoint.txid != all[j].outpoint.txid
    ensures !WindowReaches(frozen + [live])
  {
    var all, n, t := frozen + [live], |frozen|, live.outpoint.txid;
    var creators := Creators(all);
    assert all[..n] == frozen;
    assert forall j | 0 <= j < n :: all[j] == frozen[j] && all[j].frozen;
    FrozenWindow(all, creators, n);
    DistinctCreators(frozen);
    DistinctCreators(all);
    assert creators[n] == t;
    CreatorsDistinct(all);
    PosOfDistinct(creators, n);
    assert !Reached(all, creators, n);
  }
}
