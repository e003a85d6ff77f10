/** The door: two tries at most, what each may offer, and what a refusal stands on. */
module Door {
  import opened Prelude
  import opened ChainEvents
  import opened SpendGate
  import opened OfferCap
  import opened LazyRead

  // ---------------------------------------------------------------------------
  // What one reading is made from
  // ---------------------------------------------------------------------------

  datatype Fault = HeaderService(text: string) | RootMismatch | CouldNotLook(text: string)

  datatype Depth = DeepEnough | TooNear | DepthFault(fault: Fault)

  /**
   What replaying and guarding one creator gave: the word and mark after the guard, whether an
   open split lies at or below it, and the faults of the replay and of the guard.
   */
  datatype Looked = Looked(
    word: Word, suspect: bool, split: bool, replay: Option<Fault>, guard: Option<Fault>, depth: Depth)

  function FaultText(f: Fault): string {
    match f
    case HeaderService(text) => text
    case RootMismatch => "the root does not match"
    case CouldNotLook(text) => text
  }

  /** The fault of the reading: a root that does not match is the replay's answer, not a fault. */
  function ReadingFault(l: Looked): Option<Fault> {
    if l.replay.Some? && l.replay.value != RootMismatch then l.replay
    else if l.guard.Some? then l.guard
    else if l.word.Mined? && !l.suspect && l.depth.DepthFault? then Some(l.depth.fault)
    else None
  }

  function ReadingOf(l: Looked): Reading {
    var fault := ReadingFault(l);
    var passes := fault.None? && l.word.Mined? && !l.suspect && l.depth.DeepEnough?;
    Reading(l.word, l.suspect || l.split, passes && !l.split,
            if fault.Some? then Some(FaultText(fault.value)) else None,
            fault.Some? && fault.value.HeaderService?)
  }

  /** Offered only as mined, unmarked and faultless; a header fault is a fault. */
  ghost predicate Sane(r: Reading) {
    && (r.offered ==> r.word.Mined? && !r.suspect && r.fault.None?)
    && (r.headersFault ==> r.fault.Some?)
  }

  /** The first thing that keeps a creator from being looked at: the path's own check, the guard's, the depth's. */
  ghost predicate CouldNotTell(l: Looked, f: Fault) {
    if l.replay.Some? && !l.replay.value.RootMismatch? then l.replay == Some(f)
    else if l.guard.Some? then l.guard == Some(f)
    else l.word.Mined? && !l.suspect && l.depth == DepthFault(f)
  }

  /** No fault of any of them. */
  predicate Told(l: Looked) {
    && (l.replay.None? || l.replay.value.RootMismatch?) && l.guard.None?
    && (l.word.Mined? && !l.suspect ==> !l.depth.DepthFault?)
  }

  /**
   A creator is offered exactly when it was looked at, mined, unmarked, deep enough and under no
   open split; it reads as faulted exactly when something could not be told, in that one's words;
   and it reads as suspect by its mark or by a split.
   */
  lemma ReadingIsExact(l: Looked)
    ensures var r := ReadingOf(l);
            && (r.offered <==> Told(l) && l.word.Mined? && !l.suspect && l.depth.DeepEnough? && !l.split)
            && (r.fault.None? <==> Told(l))
            && (forall f | CouldNotTell(l, f) :: r.fault == Some(FaultText(f)) && r.headersFault == f.HeaderService?)
            && (r.fault.None? ==> !r.headersFault)
            && r.word == l.word && (r.suspect <==> l.suspect || l.split)
  {
  }

  lemma ReadingsAreSane(l: Looked)
    ensures Sane(ReadingOf(l))
    ensures l.split ==> !ReadingOf(l).offered
  {
  }

  /** A creator the network, a node or a block has spoken against. */
  predicate Condemned(w: Word) {
    w.Stale? || w.Rejected? || w.Conflicted? || w.Abandoned?
  }

  // ---------------------------------------------------------------------------
  // Why each coin is where it is, whatever the services answer and when
  // ---------------------------------------------------------------------------

  /** Not frozen, and no reason to hold it under a reading given in this assessment. */
  ghost predicate LetThrough(ask: Ask, c: Candidate) {
    c in ask.all && !c.frozen && (ReasonUnder(ask, c, 0).None? || ReasonUnder(ask, c, 1).None?)
  }

  /** The reason under the first reading of a coin's creator, or under the one more. */
  function ReasonUnder(ask: Ask, c: Candidate, n: nat): Option<Reason> {
    HoldReason(ask.answer(n, c.outpoint.txid), c.origin, c.outpoint, ask.opts)
  }

  predicate HeldUnder(ask: Ask, c: Candidate, h: Held, n: nat) {
    ReasonUnder(ask, c, n) == Some(h.reason) && h.headersFault == ask.answer(n, c.outpoint.txid).headersFault
  }

  ghost predicate HeldBack(ask: Ask, c: Candidate, h: Held) {
    && c in ask.all && h.id == c.id && h.sats == c.sats
    && if c.frozen then h.reason == FrozenCoin && !h.headersFault
       else HeldUnder(ask, c, h, 0) || HeldUnder(ask, c, h, 1)
  }

  ghost predicate OfferedRightly(ask: Ask, coin: Coin) {
    exists c :: LetThrough(ask, c) && coin == Coin(c.id, c.sats)
  }

  ghost predicate HeldRightly(ask: Ask, h: Held) {
    exists c :: HeldBack(ask, c, h)
  }

  ghost predicate Rightly(ask: Ask, out: Assessment) {
    && (forall coin | coin in out.offered :: OfferedRightly(ask, coin))
    && (forall h | h in out.held :: HeldRightly(ask, h))
  }

  lemma PlacedRightly(ask: Ask, creators: seq<string>, s: Scan, c: Candidate, covered: bool)
    requires ReadSoFar(ask, creators, s) && c in ask.all && !c.frozen && Rightly(ask, s.out)
    ensures Rightly(ask, Place(ask, s, c, covered))
  {
    if c.outpoint.txid in s.readings {
      var r := s.readings[c.outpoint.txid];
      var v := HoldReason(r, c.origin, c.outpoint, ask.opts);
      if v.None? {
        assert LetThrough(ask, c);
        assert OfferedRightly(ask, Coin(c.id, c.sats));
      } else {
        var h := Held(c.id, c.sats, v.value, r.headersFault);
        assert HeldBack(ask, c, h);
        assert HeldRightly(ask, h);
      }
    }
  }

  lemma JudgedRightly(ask: Ask, creators: seq<string>, s: Scan, c: Candidate)
    requires ReadSoFar(ask, creators, s) && c in ask.all && Rightly(ask, s.out)
    ensures Rightly(ask, Judge(ask, creators, s, c).out)
  {
    if c.frozen {
      var h := Held(c.id, c.sats, FrozenCoin, false);
      assert HeldBack(ask, c, h);
      assert HeldRightly(ask, h);
    } else if c.outpoint.txid in s.readings {
      PlacedRightly(ask, creators, s, c, Covered(ask, s.out));
    } else {
      BatchReads(ask, creators, s);
      PlacedRightly(ask, creators, ReadBatch(ask, creators, s), c, false);
    }
  }

  lemma {:induction false} ScannedRightly(ask: Ask, creators: seq<string>, k: nat)
    requires k <= |ask.all|
    ensures Rightly(ask, Scanned(ask, creators, k).out)
  {
    if k > 0 {
      ScannedRightly(ask, creators, k - 1);
      ScanReads(ask, creators, k - 1);
      JudgedRightly(ask, creators, Scanned(ask, creators, k - 1), ask.all[k - 1]);
    }
  }

  lemma {:induction false} SubMembers<T>(xs: seq<T>, ys: seq<T>, x: T)
    requires Sub(xs, ys) && x in xs
    ensures x in ys
    decreases |ys|
  {
    if Sub(xs, ys[..|ys| - 1]) {
      SubMembers(xs, ys[..|ys| - 1], x);
    } else if x != xs[|xs| - 1] {
      SubMembers(xs[..|xs| - 1], ys[..|ys| - 1], x);
    }
  }

  /** Every coin offered was let through under a reading given here; every coin held has its reason. */
  lemma EveryCoinIsRightly(ask: Ask)
    ensures Rightly(ask, Assessed(ask))
  {
    ScannedRightly(ask, Creators(ask.all), |ask.all|);
    CapOfferConserves(Uncapped(ask), OFFER_CAP);
    forall coin | coin in Assessed(ask).offered ensures OfferedRightly(ask, coin) {
      SubMembers(Assessed(ask).offered, Uncapped(ask).offered, coin);
    }
  }

  // ---------------------------------------------------------------------------
  // A full read judges every candidate, even when the readings change on the retry
  // ---------------------------------------------------------------------------

  ghost predicate ReadAllOrNone(creators: seq<string>, s: Scan) {
    (s.next == 0 || s.next == |creators|) && s.out.unread == []
  }

  lemma JudgeLeavesNoneUnread(ask: Ask, creators: seq<string>, s: Scan, c: Candidate)
    requires ask.need.None? && ReadSoFar(ask, creators, s) && ReadAllOrNone(creators, s)
    requires Pos(creators, c.outpoint.txid) < |creators|
    ensures ReadAllOrNone(creators, Judge(ask, creators, s, c))
  {
    BatchReads(ask, creators, s);
  }

  lemma {:induction false} FullScanLeavesNoneUnread(ask: Ask, k: nat)
    requires ask.need.None? && k <= |ask.all|
    ensures ReadAllOrNone(Creators(ask.all), Scanned(ask, Creators(ask.all), k))
  {
    if k > 0 {
      var creators, c := Creators(ask.all), ask.all[k - 1];
      FullScanLeavesNoneUnread(ask, k - 1);
      ScanReads(ask, creators, k - 1);
      EveryCreatorListed(ask.all, c);
      JudgeLeavesNoneUnread(ask, creators, Scanned(ask, creators, k - 1), c);
    }
  }

  /** Nothing is unread but what the cap counts. */
  predicate AllJudged(out: Assessment) {
    |out.unread| == if out.capped.Some? then out.capped.value.coins else 0
  }

  lemma {:induction false} ScanIsUncapped(ask: Ask, creators: seq<string>, k: nat)
    requires k <= |ask.all|
    ensures Scanned(ask, creators, k).out.capped.None?
  {
    if k > 0 {
      ScanIsUncapped(ask, creators, k - 1);
      JudgeAdds(ask, creators, Scanned(ask, creators, k - 1), ask.all[k - 1]);
    }
  }

  lemma NothingUnreadIsAllJudged(ask: Ask)
    requires Uncapped(ask).unread == []
    ensures AllJudged(Assessed(ask))
  {
    ScanIsUncapped(ask, Creators(ask.all), |ask.all|);
    CapOfferConserves(Uncapped(ask), OFFER_CAP);
  }

  lemma FullReadJudgesAll(ask: Ask)
    requires ask.need.None?
    ensures AllJudged(Assessed(ask))
  {
    FullScanLeavesNoneUnread(ask, |ask.all|);
    NothingUnreadIsAllJudged(ask);
  }

  /**
   Whenever an assessment met a header fault and was allowed to, it read the header service once
   more, and only then.
   */
  lemma RetriedIsExact(ask: Ask)
    ensures FullScan(ask).retried <==>
              ask.retry && exists t :: t in FullScan(ask).readings && ask.answer(0, t).headersFault
  {
    ReadsOnceMore(ask, Creators(ask.all), |ask.all|);
  }

  /** A full read's readings: the second of each creator whose first met a header fault. */
  ghost predicate SecondOfFaulted(ask: Ask, s: Scan) {
    forall t | t in s.readings ::
      s.readings[t] == if ask.retry && ask.answer(0, t).headersFault then ask.answer(1, t) else ask.answer(0, t)
  }

  lemma WholeBatchOnceMore(ask: Ask, creators: seq<string>, s: Scan)
    requires ask.need.None? && s.next == 0 && ReadSoFar(ask, creators, s) && !s.retried
    ensures SecondOfFaulted(ask, ReadBatch(ask, creators, s))
    ensures ReadBatch(ask, creators, s).next == |creators|
  {
    assert s.readings == map[];
    assert creators[0..|creators|] == creators;
    var once := s.readings + map t | t in creators :: ask.answer(0, t);
    assert forall t :: t in Faulted(creators, once) <==> t in creators && ask.answer(0, t).headersFault;
  }

  /** Where a full read stands: nothing read yet, or everything, the faulted creators twice. */
  ghost predicate FullSoFar(ask: Ask, creators: seq<string>, s: Scan) {
    && SecondOfFaulted(ask, s) && ReadSoFar(ask, creators, s)
    && (if s.next == 0 then !s.retried else s.next == |creators|)
  }

  /** Its coin is held on the header service's fault, which answered its creator no better the second time. */
  ghost predicate FaultedTwice(ask: Ask, c: Candidate, h: Held) {
    && c in ask.all && h.id == c.id && ask.answer(0, c.outpoint.txid).headersFault
    && (ask.retry ==> ask.answer(1, c.outpoint.txid).headersFault)
  }

  ghost predicate FaultsAreTwice(ask: Ask, out: Assessment) {
    forall h | h in out.held && h.headersFault :: exists c :: FaultedTwice(ask, c, h)
  }

  lemma PlaceFaults(ask: Ask, s: Scan, c: Candidate, covered: bool)
    requires SecondOfFaulted(ask, s) && c in ask.all && FaultsAreTwice(ask, s.out)
    ensures FaultsAreTwice(ask, Place(ask, s, c, covered))
  {
    var out := Place(ask, s, c, covered);
    forall h | h in out.held && h.headersFault ensures exists c :: FaultedTwice(ask, c, h) {
      if h !in s.out.held {
        assert FaultedTwice(ask, c, h);
      }
    }
  }

  lemma JudgeFull(ask: Ask, creators: seq<string>, s: Scan, c: Candidate)
    requires ask.need.None? && FullSoFar(ask, creators, s) && FaultsAreTwice(ask, s.out)
    requires c in ask.all && Pos(creators, c.outpoint.txid) < |creators|
    ensures var after := Judge(ask, creators, s, c);
            FullSoFar(ask, creators, after) && FaultsAreTwice(ask, after.out)
  {
    if c.frozen {
    } else if c.outpoint.txid in s.readings {
      PlaceFaults(ask, s, c, false);
    } else {
      BatchReads(ask, creators, s);
      WholeBatchOnceMore(ask, creators, s);
      PlaceFaults(ask, ReadBatch(ask, creators, s), c, false);
    }
  }

  lemma {:induction false} FullReadsSecond(ask: Ask, k: nat)
    requires ask.need.None? && k <= |ask.all|
    ensures var s := Scanned(ask, Creators(ask.all), k);
            FullSoFar(ask, Creators(ask.all), s) && FaultsAreTwice(ask, s.out)
  {
    if k > 0 {
      FullReadsSecond(ask, k - 1);
      EveryCreatorListed(ask.all, ask.all[k - 1]);
      JudgeFull(ask, Creators(ask.all), Scanned(ask, Creators(ask.all), k - 1), ask.all[k - 1]);
    }
  }

  /**
   A full read that may read once more holds no coin on the header service's fault but one whose
   creator it failed to answer for twice.
   */
  lemma HeldFaultIsTwice(ask: Ask, h: Held)
    requires ask.need.None? && h in Assessed(ask).held && h.headersFault
    ensures exists c :: FaultedTwice(ask, c, h)
  {
    FullReadsSecond(ask, |ask.all|);
    CapOfferConserves(Uncapped(ask), OFFER_CAP);
  }

  // ---------------------------------------------------------------------------
  // Scope only narrows
  // ---------------------------------------------------------------------------

  ghost predicate Narrower(a: AllowPending, b: AllowPending) {
    forall o :: Reaches(a, o) ==> Reaches(b, o)
  }

  /** What a wider word adds: exactly the received coins it reaches whose creator is pending. */
  lemma WiderAddsPending(c: Candidate, r: string -> Reading, own: bool, a: AllowPending, b: AllowPending)
    requires Narrower(a, b)
    ensures var now, wider := Verdict(c, r, Options(own, a)), Verdict(c, r, Options(own, b));
            var reading := r(c.outpoint.txid);
            && (now.None? ==> wider.None?)
            && (wider.None? && now.Some? <==>
                  && !c.frozen && reading.fault.None? && !reading.offered
                  && reading.word.Pending? && c.origin.Received?
                  && Reaches(b, c.outpoint) && !Reaches(a, c.outpoint))
  {
  }

  lemma {:induction false} ScopeNarrows(
      all: seq<Candidate>, r: string -> Reading, own: bool, a: AllowPending, b: AllowPending)
    requires Narrower(a, b)
    ensures Sub(OfferedOf(all, r, Options(own, a)), OfferedOf(all, r, Options(own, b)))
  {
    if all != [] {
      var n := |all| - 1;
      var xs, ys := OfferedOf(all[..n], r, Options(own, a)), OfferedOf(all[..n], r, Options(own, b));
      ScopeNarrows(all[..n], r, own, a, b);
      WiderAddsPending(all[n], r, own, a, b);
      SubAppend(xs, ys, Coin(all[n].id, all[n].sats));
      assert xs + [] == xs && ys + [] == ys;
    }
  }

  /** On a full read of the same coins and readings, a narrower word's offer is within a wider one's. */
  lemma FullOfferNarrows(ask: Ask, r: string -> Reading, wider: AllowPending)
    requires ask.need.None? && Fixed(ask, r) && Narrower(ask.opts.allowPending, wider)
    ensures Sub(Uncapped(ask).offered,
                Uncapped(ask.(opts := ask.opts.(allowPending := wider))).offered)
  {
    FullRead(ask, r);
    FullRead(ask.(opts := ask.opts.(allowPending := wider)), r);
    ScopeNarrows(ask.all, r, ask.opts.ownChange, ask.opts.allowPending, wider);
  }

  /** The candidates a full read lets through. */
  function Through(all: seq<Candidate>, r: string -> Reading, opts: Options): seq<Candidate> {
    if all == [] then []
    else
      var c := all[|all| - 1];
      Through(all[..|all| - 1], r, opts) + (if Verdict(c, r, opts).None? then [c] else [])
  }

  function CoinsOf(cs: seq<Candidate>): seq<Coin> {
    if cs == [] then []
    else
      var c := cs[|cs| - 1];
      CoinsOf(cs[..|cs| - 1]) + [Coin(c.id, c.sats)]
  }

  lemma {:induction false} OfferedAreThrough(all: seq<Candidate>, r: string -> Reading, opts: Options)
    ensures OfferedOf(all, r, opts) == CoinsOf(Through(all, r, opts))
    ensures forall c :: c in Through(all, r, opts) <==> c in all && Verdict(c, r, opts).None?
  {
    if all != [] {
      var n := |all| - 1;
      OfferedAreThrough(all[..n], r, opts);
      var before := Through(all[..n], r, opts);
      assert all == all[..n] + [all[n]];
      assert (before + [all[n]])[..|before|] == before && before + [] == before;
    }
  }

  /** A received coin of a pending creator that a wider word reaches and a narrower one does not. */
  predicate ReachedByWider(c: Candidate, reading: Reading, a: AllowPending, b: AllowPending) {
    && !c.frozen && reading.fault.None? && !reading.offered
    && reading.word.Pending? && c.origin.Received?
    && Reaches(b, c.outpoint) && !Reaches(a, c.outpoint)
  }

  /** On a full read, the wider word's offer is the narrower one's with exactly those coins more. */
  lemma WiderOfferAdds(ask: Ask, r: string -> Reading, wider: AllowPending)
    requires ask.need.None? && Fixed(ask, r) && Narrower(ask.opts.allowPending, wider)
    ensures var more := ask.(opts := ask.opts.(allowPending := wider));
            var now, after := Through(ask.all, r, ask.opts), Through(ask.all, r, more.opts);
            && Uncapped(ask).offered == CoinsOf(now) && Uncapped(more).offered == CoinsOf(after)
            && (forall c | c in now :: c in after)
            && (forall c :: c in after && c !in now <==>
                  c in ask.all && ReachedByWider(c, r(c.outpoint.txid), ask.opts.allowPending, wider))
  {
    var more := ask.(opts := ask.opts.(allowPending := wider));
    FullRead(ask, r);
    FullRead(more, r);
    OfferedAreThrough(ask.all, r, ask.opts);
    OfferedAreThrough(ask.all, r, more.opts);
    forall c
      ensures var now, after := Verdict(c, r, ask.opts).None?, Verdict(c, r, more.opts).None?;
              && (now ==> after)
              && (after && !now <==> ReachedByWider(c, r(c.outpoint.txid), ask.opts.allowPending, wider))
    {
      WiderAddsPending(c, r, ask.opts.ownChange, ask.opts.allowPending, wider);
    }
  }

  ghost predicate SaneAnswers(ask: Ask) {
    forall n, t :: Sane(ask.answer(n, t))
  }

  /** What a reading has to be for a coin of its creator to go out. */
  ghost predicate Spendable(ask: Ask, c: Candidate, r: Reading) {
    && c in ask.all && !c.frozen && r.fault.None?
    && if r.word.Mined? then r.offered && !r.suspect
       else
         && r.word.Pending?
         && if c.origin.Received? then Reaches(ask.opts.allowPending, c.outpoint) else ask.opts.ownChange
  }

  lemma LetThroughIsSpendable(ask: Ask, c: Candidate) returns (n: nat)
    requires SaneAnswers(ask) && LetThrough(ask, c)
    ensures n < 2 && Spendable(ask, c, ask.answer(n, c.outpoint.txid))
  {
    n := if ReasonUnder(ask, c, 0).None? then 0 else 1;
    assert Sane(ask.answer(n, c.outpoint.txid));
  }

  /** And conversely: a coin its creator's reading makes fit is held for no reason. */
  lemma SpendableIsLetThrough(ask: Ask, c: Candidate, n: nat)
    requires Spendable(ask, c, ask.answer(n, c.outpoint.txid))
    ensures ReasonUnder(ask, c, n).None?
  {
  }

  /** The reason a coin that is not frozen is held names what its reading lacks. */
  lemma ReasonNamesTheLack(r: Reading, origin: Origin, o: Outpoint, opts: Options)
    requires Sane(r)
    ensures var reason := HoldReason(r, origin, o, opts);
            && (forall f :: reason == Some(HeadersUnavailable(f)) <==> r.fault == Some(f))
            && (reason == Some(NeverOffered) <==> r.fault.None? && Condemned(r.word))
            && (reason == Some(Suspect) <==> r.fault.None? && r.word.Mined? && r.suspect)
            && (reason == Some(TooShallow) <==> r.fault.None? && r.word.Mined? && !r.suspect && !r.offered)
            && (reason == Some(OwnChangeOff) <==> r.fault.None? && r.word.Pending? && origin.Made? && !opts.ownChange)
            && (reason == Some(NoProof) <==>
                  r.fault.None? && r.word.Pending? && origin.Received? && opts.allowPending == Off)
            && (reason == Some(NotNamed) <==>
                  && r.fault.None? && r.word.Pending? && origin.Received?
                  && opts.allowPending.ReceivedOnly? && o !in opts.allowPending.coins)
            && reason != Some(FrozenCoin)
  {
  }

  /** The readings are sane, whatever creator is asked for. */
  ghost predicate SaneReadings(r: string -> Reading) {
    forall t :: Sane(r(t))
  }

  lemma VerdictIsFitness(ask: Ask, c: Candidate, r: string -> Reading)
    requires SaneReadings(r) && c in ask.all
    ensures Verdict(c, r, ask.opts).None? <==> Spendable(ask, c, r(c.outpoint.txid))
  {
    assert Sane(r(c.outpoint.txid));
  }

  /** The candidates whose coins are all fit to go out, in the toolbox's order. */
  ghost predicate AllTheFit(ask: Ask, r: string -> Reading, fit: seq<Candidate>) {
    && (forall c :: c in fit <==> c in ask.all && Spendable(ask, c, r(c.outpoint.txid)))
    && Sub(fit, ask.all)
  }

  lemma {:induction false} ThroughIsSub(all: seq<Candidate>, r: string -> Reading, opts: Options)
    ensures Sub(Through(all, r, opts), all)
  {
    if all != [] {
      var n := |all| - 1;
      ThroughIsSub(all[..n], r, opts);
      assert all == all[..n] + [all[n]];
      SubAppend(Through(all[..n], r, opts), all[..n], all[n]);
      assert Through(all[..n], r, opts) + [] == Through(all[..n], r, opts);
    }
  }

  /**
   What a read that left nothing unread offers before the cap: the coins of exactly the candidates
   that are fit, in the toolbox's order.
   */
  lemma OffersExactlyTheFit(ask: Ask, r: string -> Reading) returns (fit: seq<Candidate>)
    requires Fixed(ask, r) && SaneReadings(r) && (ask.need.None? || Uncapped(ask).unread == [])
    ensures AllTheFit(ask, r, fit) && Uncapped(ask).offered == CoinsOf(fit)
  {
    fit := Through(ask.all, r, ask.opts);
    OfferedAreThrough(ask.all, r, ask.opts);
    ThroughIsSub(ask.all, r, ask.opts);
    if ask.need.None? {
      FullRead(ask, r);
    } else {
      NothingUnreadOffersAll(ask, r);
    }
    forall c | c in ask.all ensures c in fit <==> Spendable(ask, c, r(c.outpoint.txid)) {
      VerdictIsFitness(ask, c, r);
    }
  }

  lemma {:induction false} CoinsOfMembers(cs: seq<Candidate>, c: Candidate)
    requires c in cs
    ensures Coin(c.id, c.sats) in CoinsOf(cs)
  {
    if c != cs[|cs| - 1] {
      CoinsOfMembers(cs[..|cs| - 1], c);
    }
  }

  /** The coin is offered, or the cap is full of coins worth no less. */
  ghost predicate OfferedOrCapped(ask: Ask, coin: Coin) {
    var offered := Assessed(ask).offered;
    coin in offered || (|offered| == 16_384 && forall other | other in offered :: other.sats >= coin.sats)
  }

  /** A coin that is fit goes out, unless the cap is full of coins worth no less. */
  lemma FitIsOffered(ask: Ask, r: string -> Reading, c: Candidate)
    requires Fixed(ask, r) && SaneReadings(r) && (ask.need.None? || Uncapped(ask).unread == [])
    requires Spendable(ask, c, r(c.outpoint.txid))
    ensures OfferedOrCapped(ask, Coin(c.id, c.sats))
  {
    var fit := OffersExactlyTheFit(ask, r);
    CoinsOfMembers(fit, c);
    OnlyTheSmallestGo(Uncapped(ask), OFFER_CAP, Coin(c.id, c.sats));
  }

  ghost predicate OfferedOn(ask: Ask, coin: Coin, c: Candidate, n: nat) {
    n < 2 && coin == Coin(c.id, c.sats) && Spendable(ask, c, ask.answer(n, c.outpoint.txid))
  }

  /**
   Whatever the services answer and however it changes on the retry, a coin that goes out is that of
   an unfrozen candidate whose creator was read, in this assessment and without a fault, as mined,
   deep enough and unmarked, or as pending where the setting allows it: never as condemned.
   */
  lemma CondemnedIsNeverOffered(ask: Ask, coin: Coin)
    requires SaneAnswers(ask) && coin in Assessed(ask).offered
    ensures exists c, n :: OfferedOn(ask, coin, c, n) && !Condemned(ask.answer(n, c.outpoint.txid).word)
  {
    EveryCoinIsRightly(ask);
    assert OfferedRightly(ask, coin);
    var c :| LetThrough(ask, c) && coin == Coin(c.id, c.sats);
    var n := LetThroughIsSpendable(ask, c);
    assert OfferedOn(ask, coin, c, n);
  }

  /** What was seen of the creator of a coin that goes out. */
  predicate SeenFit(l: Looked) {
    && (l.replay.None? || l.replay.value == RootMismatch) && l.guard.None?
    && (l.word.Mined? ==> !l.suspect && !l.split && l.depth.DeepEnough?)
  }

  /** No reading is made up: a coin of a creator mined under an open split, or too near, is not out. */
  lemma OfferedWasLookedAt(ask: Ask, looks: (nat, string) -> Looked, coin: Coin)
    requires forall n, t :: ask.answer(n, t) == ReadingOf(looks(n, t))
    requires coin in Assessed(ask).offered
    ensures exists c, n :: OfferedOn(ask, coin, c, n) && SeenFit(looks(n, c.outpoint.txid))
  {
    forall n, t ensures Sane(ask.answer(n, t)) {
      ReadingsAreSane(looks(n, t));
    }
    CondemnedIsNeverOffered(ask, coin);
    var c, n :| OfferedOn(ask, coin, c, n);
    assert ask.answer(n, c.outpoint.txid) == ReadingOf(looks(n, c.outpoint.txid));
  }

  // ---------------------------------------------------------------------------
  // The two tries
  // ---------------------------------------------------------------------------

  datatype DoorError = DoorError(insufficient: bool, unspendable: bool, text: string)

  datatype DoorAnswer = Created | Declined(error: DoorError)

  /** What one assessment would find: the candidates and the services of that moment, or no store. */
  datatype Look = Look(all: seq<Candidate>, answer: Answers) | NoStore

  /** The world of one action: both looks, the toolbox's n-th answer, the coins locked by others. */
  datatype Env = Env(
    first: Look, second: Look, toolbox: (nat, seq<int>) -> DoorAnswer, locked: Option<seq<Held>>)

  datatype Refusal = Refusal(
    text: string, offeredSats: nat, held: seq<Held>, capped: Option<Capped>, headersFault: Option<string>)

  datatype Outcome = Spent | GateFault | WalletError(error: DoorError) | Refused(refusal: Refusal)

  /** How the action ended, and the assessments whose offers went to the toolbox, in order. */
  datatype Gated = Gated(outcome: Outcome, tried: seq<Ask>)

  function Assessed(ask: Ask): Assessment {
    CapOffer(Uncapped(ask), OFFER_CAP)
  }

  function Offer(ask: Ask): seq<int> { Ids(Assessed(ask).offered) }

  function OnFault(held: seq<Held>): nat {
    if held == [] then 0 else (if held[0].headersFault then held[0].sats else 0) + OnFault(held[1..])
  }

  function FirstServiceError(held: seq<Held>): Option<string> {
    if held == [] then None
    else if held[0].headersFault && held[0].reason.HeadersUnavailable? then Some(held[0].reason.fault)
    else FirstServiceError(held[1..])
  }

  function Refuse(out: Assessment, locked: Option<seq<Held>>, error: DoorError, outputs: nat): Outcome {
    if locked.None? then GateFault
    else
      var held := out.held + locked.value;
      var reaches := OnFault(held) > 0 && Sats(out.offered) + OnFault(held) >= outputs;
      Refused(Refusal(error.text, Sats(out.offered), held, out.capped,
                      if reaches then FirstServiceError(held) else None))
  }

  function FirstAsk(look: Look, outputs: nat, opts: Options): Ask
    requires look.Look?
  {
    Ask(look.all, Some(Min(outputs + FEE_MARGIN, U64_MAX)), opts, true, look.answer)
  }

  /** The second try: a full read, the header service read once more only if the first try did not. */
  function SecondTry(env: Env, outputs: nat, opts: Options, first: Ask): Gated {
    if env.second.NoStore? then Gated(GateFault, [first])
    else
      var ask := Ask(env.second.all, None, opts, !FullScan(first).retried, env.second.answer);
      match env.toolbox(1, Offer(ask))
      case Created => Gated(Spent, [first, ask])
      case Declined(e) =>
        Gated(if e.insufficient then Refuse(Assessed(ask), env.locked, e, outputs) else WalletError(e),
              [first, ask])
  }

  function Run(env: Env, outputs: nat, opts: Options): Gated {
    if env.first.NoStore? then Gated(GateFault, [])
    else
      var ask := FirstAsk(env.first, outputs, opts);
      var lazy := Assessed(ask).unread != [];
      match env.toolbox(0, Offer(ask))
      case Created => Gated(Spent, [ask])
      case Declined(e) =>
        if lazy && e.unspendable then SecondTry(env, outputs, opts, ask)
        else if !e.insufficient then Gated(WalletError(e), [ask])
        else if !lazy then Gated(Refuse(Assessed(ask), env.locked, e, outputs), [ask])
        else SecondTry(env, outputs, opts, ask)
  }

  /** `run_gated`, with the offers it made. */
  method RunGated(env: Env, outputs: nat, opts: Options) returns (outcome: Outcome, offers: seq<seq<int>>)
    ensures outcome == Run(env, outputs, opts).outcome
    ensures |offers| == |Run(env, outputs, opts).tried| <= 2
    ensures forall i | 0 <= i < |offers| :: offers[i] == Offer(Run(env, outputs, opts).tried[i])
  {
    if env.first.NoStore? {
      return GateFault, [];
    }
    var ask := FirstAsk(env.first, outputs, opts);
    var first, retried := Assess(ask);
    var lazy := first.unread != [];
    offers := [Ids(first.offered)];
    match env.toolbox(0, offers[0]) {
      case Created => return Spent, offers;
      case Declined(e) =>
        if !(lazy && e.unspendable) {
          if !e.insufficient {
            return WalletError(e), offers;
          }
          if !lazy {
            return Refuse(first, env.locked, e, outputs), offers;
          }
        }
    }
    if env.second.NoStore? {
      return GateFault, offers;
    }
    var full, _ := Assess(Ask(env.second.all, None, opts, !retried, env.second.answer));
    var offer := Ids(full.offered);
    offers := offers + [offer];
    match env.toolbox(1, offer) {
      case Created => outcome := Spent;
      case Declined(e) =>
        outcome := if e.insufficient then Refuse(full, env.locked, e, outputs) else WalletError(e);
    }
  }

  /** The refusal names this assessment, in which every candidate was judged, after the toolbox declined its offer. */
  ghost predicate StandsOn(env: Env, n: nat, ask: Ask, refusal: Refusal) {
    && env.locked.Some?
    && AllJudged(Assessed(ask)) && Rightly(ask, Assessed(ask))
    && AllIds(Assessed(ask)) == multiset(CandidateIds(ask.all))
    && env.toolbox(n, Offer(ask)).Declined? && env.toolbox(n, Offer(ask)).error.insufficient
    && refusal.offeredSats == Sats(Assessed(ask).offered)
    && refusal.capped == Assessed(ask).capped
    && refusal.held == Assessed(ask).held + env.locked.value
  }

  lemma RefuseStands(env: Env, n: nat, ask: Ask, e: DoorError, outputs: nat)
    requires env.toolbox(n, Offer(ask)) == Declined(e) && e.insufficient
    requires AllJudged(Assessed(ask)) && Refuse(Assessed(ask), env.locked, e, outputs).Refused?
    ensures StandsOn(env, n, ask, Refuse(Assessed(ask), env.locked, e, outputs).refusal)
  {
    AssessmentPartitions(ask, OFFER_CAP);
    EveryCoinIsRightly(ask);
  }

  /** What a refused run came to. */
  ghost predicate RefusedAt(env: Env, outputs: nat, run: Gated, n: nat) {
    && |run.tried| == n + 1
    && var ask := run.tried[n];
       var answer := env.toolbox(n, Offer(ask));
       && (if n == 0 then Assessed(ask).unread == [] else ask.need.None?)
       && answer.Declined? && answer.error.insufficient
       && run.outcome == Refuse(Assessed(ask), env.locked, answer.error, outputs)
  }

  lemma RefusedRun(env: Env, outputs: nat, opts: Options) returns (n: nat)
    requires Run(env, outputs, opts).outcome.Refused?
    ensures n < 2 && RefusedAt(env, outputs, Run(env, outputs, opts), n)
  {
    n := |Run(env, outputs, opts).tried| - 1;
  }

  /**
   A refusal stands on the last assessment: the toolbox found its offer insufficient, and each of
   its candidates was offered, held, or is counted in the cap.
   */
  lemma RefusalJudgedEverything(env: Env, outputs: nat, opts: Options) returns (n: nat)
    requires Run(env, outputs, opts).outcome.Refused?
    ensures n < |Run(env, outputs, opts).tried| == n + 1 <= 2
    ensures StandsOn(env, n, Run(env, outputs, opts).tried[n], Run(env, outputs, opts).outcome.refusal)
  {
    n := RefusedRun(env, outputs, opts);
    var ask := Run(env, outputs, opts).tried[n];
    if n == 0 {
      CapOfferConserves(Uncapped(ask), OFFER_CAP);
      NothingUnreadIsAllJudged(ask);
    } else {
      FullReadJudgesAll(ask);
    }
    RefuseStands(env, n, ask, env.toolbox(n, Offer(ask)).error, outputs);
  }

  /** A refusal held no fit coin back: what it stands on offered every one, up to the cap. */
  lemma RefusalOfferedTheFit(env: Env, outputs: nat, opts: Options, r: string -> Reading) returns (n: nat)
    requires Run(env, outputs, opts).outcome.Refused? && SaneReadings(r)
    requires forall ask | ask in Run(env, outputs, opts).tried :: Fixed(ask, r)
    ensures n < |Run(env, outputs, opts).tried| == n + 1
    ensures var ask := Run(env, outputs, opts).tried[n];
            forall c: Candidate | Spendable(ask, c, r(c.outpoint.txid)) :: OfferedOrCapped(ask, Coin(c.id, c.sats))
  {
    n := RefusedRun(env, outputs, opts);
    var ask := Run(env, outputs, opts).tried[n];
    assert ask in Run(env, outputs, opts).tried;
    if n == 0 {
      CapOfferConserves(Uncapped(ask), OFFER_CAP);
    }
    forall c: Candidate | Spendable(ask, c, r(c.outpoint.txid)) ensures OfferedOrCapped(ask, Coin(c.id, c.sats)) {
      FitIsOffered(ask, r, c);
    }
  }

  /** The toolbox's answer to the `n`-th offer made. */
  function AnswerTo(env: Env, run: Gated, n: nat): DoorAnswer
    requires n < |run.tried|
  {
    env.toolbox(n, Offer(run.tried[n]))
  }

  predicate DeclinedWith(answer: DoorAnswer, insufficient: bool) {
    answer.Declined? && answer.error.insufficient == insufficient
  }

  /** The first offer left coins unread, and was declined for want of funds or for a coin no longer there. */
  predicate GoesOn(ask: Ask, answer: DoorAnswer) {
    Assessed(ask).unread != [] && answer.Declined? && (answer.error.insufficient || answer.error.unspendable)
  }

  /** Which tries are made, and with what. */
  ghost predicate TriesAreRight(env: Env, outputs: nat, opts: Options, run: Gated) {
    && (run.tried == [] <==> env.first.NoStore?)
    && (run.tried != [] ==>
          var first := run.tried[0];
          && env.first.Look? && first.all == env.first.all && first.opts == opts && first.retry
          && first.need == Some(Min(outputs + 10_000, U64_MAX)) && first.answer == env.first.answer
          && (|run.tried| == 2 <==> GoesOn(first, AnswerTo(env, run, 0)) && env.second.Look?))
    && (|run.tried| == 2 ==>
          var second := run.tried[1];
          && second.all == env.second.all && second.opts == opts && second.need.None?
          && second.answer == env.second.answer && (second.retry <==> !FullScan(run.tried[0]).retried))
  }

  /** And how the action ends, by what the toolbox answered to the last offer. */
  ghost predicate EndIsRight(env: Env, outputs: nat, run: Gated)
    requires run.tried != []
  {
    var n := |run.tried| - 1;
    var ask, answer := run.tried[n], AnswerTo(env, run, n);
    var over := n == 1 || !GoesOn(ask, answer);
    && (run.outcome.Spent? <==> answer.Created?)
    && (run.outcome.WalletError? <==> over && DeclinedWith(answer, false))
    && (run.outcome.Refused? <==> over && DeclinedWith(answer, true) && env.locked.Some?)
    && (run.outcome.GateFault? <==> !over || (DeclinedWith(answer, true) && env.locked.None?))
    && (run.outcome.WalletError? ==> answer.Declined? && run.outcome.error == answer.error)
    && (run.outcome.Refused? ==> answer.Declined? && run.outcome.refusal.text == answer.error.text)
  }

  /**
   The whole door. The action is spent exactly when the toolbox created it from the last offer made;
   a second offer is made exactly when the first left coins unread and was declined for funds or for a
   coin no longer spendable; and a run with no store, or none to look again in, is the gate's own fault.
   */
  lemma DoorIsExact(env: Env, outputs: nat, opts: Options)
    ensures var run := Run(env, outputs, opts);
            && |run.tried| <= 2 && TriesAreRight(env, outputs, opts, run)
            && (run.tried != [] ==> EndIsRight(env, outputs, run))
            && (run.tried == [] ==> run.outcome.GateFault?)
  {
    if env.first.Look? {
      var first := FirstAsk(env.first, outputs, opts);
      var answer := env.toolbox(0, Offer(first));
      if GoesOn(first, answer) {
        SecondIsExact(env, outputs, opts, first);
      } else {
        FirstIsExact(env, outputs, opts, first);
      }
    }
  }

  lemma FirstIsExact(env: Env, outputs: nat, opts: Options, first: Ask)
    requires env.first.Look? && first == FirstAsk(env.first, outputs, opts)
    requires !GoesOn(first, env.toolbox(0, Offer(first)))
    ensures Run(env, outputs, opts).tried == [first]
    ensures EndIsRight(env, outputs, Run(env, outputs, opts))
  {
    var offer, out := Offer(first), Assessed(first);
  }

  lemma SecondIsExact(env: Env, outputs: nat, opts: Options, first: Ask)
    requires env.first.Look? && first == FirstAsk(env.first, outputs, opts)
    requires GoesOn(first, env.toolbox(0, Offer(first)))
    ensures Run(env, outputs, opts) == SecondTry(env, outputs, opts, first)
    ensures TriesAreRight(env, outputs, opts, Run(env, outputs, opts))
    ensures EndIsRight(env, outputs, Run(env, outputs, opts))
  {
  }

  lemma {:induction false} NoRetryUnasked(ask: Ask, creators: seq<string>, k: nat)
    requires k <= |ask.all| && !ask.retry
    ensures !Scanned(ask, creators, k).retried
  {
    if k > 0 {
      NoRetryUnasked(ask, creators, k - 1);
    }
  }

  /** Both tries together read the header service once more at most once. */
  lemma RetriedAtMostOnce(env: Env, outputs: nat, opts: Options)
    ensures var tried := Run(env, outputs, opts).tried;
            |tried| == 2 ==> !(FullScan(tried[0]).retried && FullScan(tried[1]).retried)
  {
    var tried := Run(env, outputs, opts).tried;
    if |tried| == 2 && FullScan(tried[0]).retried {
      NoRetryUnasked(tried[1], Creators(tried[1].all), |tried[1].all|);
    }
  }

  lemma {:induction false} NamedFault(held: seq<Held>)
    requires forall h | h in held :: h.headersFault ==> h.reason.HeadersUnavailable?
    ensures OnFault(held) > 0 ==> FirstServiceError(held).Some?
    ensures FirstServiceError(held).Some? ==>
              exists h :: h in held && h.headersFault && h.reason == HeadersUnavailable(FirstServiceError(held).value)
  {
    if held != [] {
      assert held[0] in held;
      assert forall h | h in held[1..] :: h in held;
      NamedFault(held[1..]);
    }
  }

  lemma HeldNamesFault(ask: Ask, h: Held)
    requires SaneAnswers(ask) && h in Assessed(ask).held && h.headersFault
    ensures h.reason.HeadersUnavailable?
  {
    EveryCoinIsRightly(ask);
    assert HeldRightly(ask, h);
  }

  lemma RefuseNamesFault(out: Assessment, locked: Option<seq<Held>>, error: DoorError, outputs: nat)
    requires locked.Some? && forall h | h in out.held + locked.value :: h.headersFault ==> h.reason.HeadersUnavailable?
    ensures FaultIsExact(Refuse(out, locked, error, outputs).refusal, outputs)
  {
    NamedFault(out.held + locked.value);
  }

  ghost predicate FaultIsExact(refusal: Refusal, outputs: nat) {
    var onFault := OnFault(refusal.held);
    && (refusal.headersFault.Some? <==> onFault > 0 && refusal.offeredSats + onFault >= outputs)
    && (refusal.headersFault.Some? ==>
          exists h :: h in refusal.held && h.headersFault
                      && h.reason == HeadersUnavailable(refusal.headersFault.value))
  }

  /**
   "Could not verify now" is said exactly when coins held on the header service's fault, with the
   offer, reach the outputs; and the words are the service's about one of them.
   */
  lemma FaultRefusalIsExact(env: Env, outputs: nat, opts: Options)
    requires Run(env, outputs, opts).outcome.Refused?
    requires forall ask | ask in Run(env, outputs, opts).tried :: SaneAnswers(ask)
    requires env.locked.Some? ==> forall h | h in env.locked.value :: !h.headersFault
    ensures FaultIsExact(Run(env, outputs, opts).outcome.refusal, outputs)
  {
    var n := RefusedRun(env, outputs, opts);
    var ask := Run(env, outputs, opts).tried[n];
    assert ask in Run(env, outputs, opts).tried && env.locked.Some?;
    forall h | h in Assessed(ask).held + env.locked.value && h.headersFault
      ensures h.reason.HeadersUnavailable?
    {
      HeldNamesFault(ask, h);
    }
    RefuseNamesFault(Assessed(ask), env.locked, env.toolbox(n, Offer(ask)).error, outputs);
  }

  lemma FullReadsAlike(a: Ask, b: Ask, r: string -> Reading)
    requires a.need.None? && b.need.None? && a.all == b.all && a.opts == b.opts && Fixed(a, r) && Fixed(b, r)
    ensures Uncapped(a) == Uncapped(b)
  {
    FullRead(a, r);
    FullRead(b, r);
  }

  lemma WiderIsNoLess(a: Ask, b: Ask, r: string -> Reading)
    requires Fixed(a, r) && b.need.None? && b.all == a.all && b.opts == a.opts && b.answer == a.answer
    ensures Sats(Assessed(a).offered) <= Sats(Assessed(b).offered)
  {
    SecondOfferIsNoLess(a, r);
    FullReadsAlike(a.(need := None), b, r);
  }

  /** On unchanged coins and readings the second try's offer is worth no less than the first's. */
  lemma SecondTryOffersNoLess(env: Env, outputs: nat, opts: Options, r: string -> Reading)
    requires env.first.Look? && env.second == env.first
    requires |Run(env, outputs, opts).tried| == 2 && Fixed(Run(env, outputs, opts).tried[0], r)
    ensures Sats(Assessed(Run(env, outputs, opts).tried[0]).offered)
         <= Sats(Assessed(Run(env, outputs, opts).tried[1]).offered)
  {
    WiderIsNoLess(Run(env, outputs, opts).tried[0], Run(env, outputs, opts).tried[1], r);
  }
}
