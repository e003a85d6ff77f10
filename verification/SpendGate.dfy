/**
 The spend gate: which coins one action is offered. A lazy read stops once the offer covers the
 action; a full read judges every coin; a cap keeps the largest; and the toolbox's door is tried
 twice at most.
 */
module SpendGate {
  import opened Prelude
  import opened ChainEvents

  const BATCH: nat := 32
  const FEE_MARGIN: nat := 10_000
  const OFFER_CAP: nat := 16_384

  // ---------------------------------------------------------------------------
  // One coin's judgment
  // ---------------------------------------------------------------------------

  datatype Origin = Made | Received

  /** The action's word for received unproven coins: none, all of them, or the named ones. */
  datatype AllowPending = Off | AnyReceived | ReceivedOnly(coins: set<Outpoint>)

  datatype Options = Options(ownChange: bool, allowPending: AllowPending)

  /** `Pending` is a word that claims nothing about the chain. */
  datatype Word = Mined | Stale | Rejected | Conflicted | Abandoned | Pending

  /** The guard's reading of one creator; a fault is the service's own words. */
  datatype Reading = Reading(
    word: Word, suspect: bool, offered: bool, fault: Option<string>, headersFault: bool)

  datatype Reason =
    | HeadersUnavailable(fault: string) | Suspect | TooShallow | NeverOffered
    | NotNamed | NoProof | OwnChangeOff | FrozenCoin

  function Reaches(allow: AllowPending, o: Outpoint): bool {
    match allow
    case Off => false
    case AnyReceived => true
    case ReceivedOnly(coins) => o in coins
  }

  function HoldReason(r: Reading, origin: Origin, o: Outpoint, opts: Options): Option<Reason> {
    if r.fault.Some? then Some(HeadersUnavailable(r.fault.value))
    else if r.offered then None
    else match r.word
      case Mined => Some(if r.suspect then Suspect else TooShallow)
      case Pending =>
        (match origin
         case Received =>
           if Reaches(opts.allowPending, o) then None
           else Some(if opts.allowPending.Off? then NoProof else NotNamed)
         case Made => if opts.ownChange then None else Some(OwnChangeOff))
      case _ => Some(NeverOffered)
  }

  datatype Candidate = Candidate(id: int, outpoint: Outpoint, sats: nat, origin: Origin, frozen: bool)

  datatype Coin = Coin(id: int, sats: nat)

  datatype Held = Held(id: int, sats: nat, reason: Reason, headersFault: bool)

  datatype Capped = Capped(coins: nat, sats: nat)

  datatype Assessment = Assessment(
    offered: seq<Coin>, held: seq<Held>, unread: seq<int>, capped: Option<Capped>)

  const NOTHING := Assessment([], [], [], None)

  function Sats(coins: seq<Coin>): nat {
    if coins == [] then 0 else Sats(coins[..|coins| - 1]) + coins[|coins| - 1].sats
  }

  lemma SatsAppend(coins: seq<Coin>, c: Coin)
    ensures Sats(coins + [c]) == Sats(coins) + c.sats
  {
    assert (coins + [c])[..|coins|] == coins;
  }

  // ---------------------------------------------------------------------------
  // The read
  // ---------------------------------------------------------------------------

  /** The creators in the order their coins first appear. */
  function Creators(all: seq<Candidate>): seq<string> {
    if all == [] then []
    else
      var before, t := Creators(all[..|all| - 1]), all[|all| - 1].outpoint.txid;
      if t in before then before else before + [t]
  }

  /** The services' answers: the n-th read of a creator (0, or 1 for the one retry). */
  type Answers = (nat, string) -> Reading

  /** What one assessment is made from. `need` is absent for a full read. */
  datatype Ask = Ask(
    all: seq<Candidate>, need: Option<nat>, opts: Options, retry: bool, answer: Answers)

  /** The read so far: the creators read are the first `next`. */
  datatype Scan = Scan(next: nat, readings: map<string, Reading>, retried: bool, out: Assessment)

  const START := Scan(0, map[], false, NOTHING)

  function Covered(ask: Ask, out: Assessment): bool {
    ask.need.Some? && ask.need.value <= Sats(out.offered)
  }

  function Faulted(batch: seq<string>, readings: map<string, Reading>): set<string> {
    set t | t in batch && t in readings && readings[t].headersFault
  }

  /** The next batch of creators read, the faulted ones once more when this is the first fault. */
  function ReadBatch(ask: Ask, creators: seq<string>, s: Scan): Scan
    requires s.next <= |creators|
  {
    var end := if ask.need.Some? then Min(s.next + BATCH, |creators|) else |creators|;
    var batch := creators[s.next..end];
    var once := s.readings + map t | t in batch :: ask.answer(0, t);
    var faulted := Faulted(batch, once);
    if ask.retry && !s.retried && faulted != {}
    then s.(next := end, readings := once + map t | t in faulted :: ask.answer(1, t), retried := true)
    else s.(next := end, readings := once)
  }

  function Place(ask: Ask, s: Scan, c: Candidate, covered: bool): Assessment {
    if c.outpoint.txid !in s.readings then s.out.(unread := s.out.unread + [c.id])
    else
      var r := s.readings[c.outpoint.txid];
      match HoldReason(r, c.origin, c.outpoint, ask.opts)
      case None =>
        if covered then s.out.(unread := s.out.unread + [c.id])
        else s.out.(offered := s.out.offered + [Coin(c.id, c.sats)])
      case Some(reason) =>
        s.out.(held := s.out.held + [Held(c.id, c.sats, reason, r.headersFault)])
  }

  /** One candidate, in the toolbox's order of preference. */
  function Judge(ask: Ask, creators: seq<string>, s: Scan, c: Candidate): Scan
    requires s.next <= |creators|
  {
    var covered := Covered(ask, s.out);
    if c.frozen then
      s.(out := s.out.(held := s.out.held + [Held(c.id, c.sats, FrozenCoin, false)]))
    else if c.outpoint.txid in s.readings then
      s.(out := Place(ask, s, c, covered))
    else if covered then
      s.(out := s.out.(unread := s.out.unread + [c.id]))
    else
      var read := ReadBatch(ask, creators, s);
      read.(out := Place(ask, read, c, covered))
  }

  /** The first `k` candidates judged, with the creators in the order they are read. */
  function Scanned(ask: Ask, creators: seq<string>, k: nat): (s: Scan)
    requires k <= |ask.all|
    ensures s.next <= |creators|
  {
    if k == 0 then START else Judge(ask, creators, Scanned(ask, creators, k - 1), ask.all[k - 1])
  }

  function FullScan(ask: Ask): Scan {
    Scanned(ask, Creators(ask.all), |ask.all|)
  }

  function Uncapped(ask: Ask): Assessment {
    FullScan(ask).out
  }

  // ---------------------------------------------------------------------------
  // The cap
  // ---------------------------------------------------------------------------

  function Worth(coins: seq<Coin>, i: nat): nat {
    if i < |coins| then coins[i].sats else 0
  }

  /** Largest first; of two alike, the one read first. */
  predicate Before(coins: seq<Coin>, i: nat, j: nat) {
    Worth(coins, i) > Worth(coins, j) || (Worth(coins, i) == Worth(coins, j) && i <= j)
  }

  /** Distinct positions, each worth at least every later one. */
  ghost predicate Sorted(coins: seq<Coin>, order: seq<nat>) {
    order != [] ==>
      && order[0] !in order[1..]
      && (forall j | j in order[1..] :: Worth(coins, order[0]) >= Worth(coins, j))
      && Sorted(coins, order[1..])
  }

  function Insert(coins: seq<Coin>, order: seq<nat>, i: nat): (r: seq<nat>)
    ensures |r| == |order| + 1
    ensures forall j :: j in r <==> j == i || j in order
  {
    if order == [] then [i]
    else if Before(coins, i, order[0]) then [i] + order
    else [order[0]] + Insert(coins, order[1..], i)
  }

  /** The positions of the first `n` coins, sorted by value. */
  function ByValue(coins: seq<Coin>, n: nat): (r: seq<nat>)
    requires n <= |coins|
    ensures |r| == n
    ensures forall j: nat :: j in r <==> j < n
  {
    if n == 0 then [] else Insert(coins, ByValue(coins, n - 1), n - 1)
  }

  lemma {:induction false} InsertSorts(coins: seq<Coin>, order: seq<nat>, i: nat)
    requires Sorted(coins, order) && i !in order
    ensures Sorted(coins, Insert(coins, order, i))
  {
    var r := Insert(coins, order, i);
    if order != [] {
      if Before(coins, i, order[0]) {
        assert r[1..] == order;
      } else {
        InsertSorts(coins, order[1..], i);
        assert r[1..] == Insert(coins, order[1..], i);
      }
    }
  }

  lemma {:induction false} ByValueSorts(coins: seq<Coin>, n: nat)
    requires n <= |coins|
    ensures Sorted(coins, ByValue(coins, n))
  {
    if n > 0 {
      ByValueSorts(coins, n - 1);
      InsertSorts(coins, ByValue(coins, n - 1), n - 1);
    }
  }

  function Kept(coins: seq<Coin>, keep: seq<bool>): seq<Coin>
    requires |keep| == |coins|
  {
    if coins == [] then []
    else
      var n := |coins| - 1;
      Kept(coins[..n], keep[..n]) + (if keep[n] then [coins[n]] else [])
  }

  function Flipped(keep: seq<bool>): (r: seq<bool>)
    ensures |r| == |keep| && forall i | 0 <= i < |r| :: r[i] == !keep[i]
  {
    seq(|keep|, i requires 0 <= i < |keep| => !keep[i])
  }

  function KeepMask(coins: seq<Coin>, cap: nat): (keep: seq<bool>)
    requires cap <= |coins|
    ensures |keep| == |coins|
  {
    var top := ByValue(coins, |coins|)[..cap];
    seq(|coins|, i requires 0 <= i < |coins| => i in top)
  }

  function Ids(coins: seq<Coin>): (r: seq<int>)
    ensures |r| == |coins|
  {
    seq(|coins|, i requires 0 <= i < |coins| => coins[i].id)
  }

  function CapOffer(out: Assessment, cap: nat): Assessment {
    if |out.offered| <= cap then out
    else
      var keep := KeepMask(out.offered, cap);
      var dropped := Kept(out.offered, Flipped(keep));
      out.(offered := Kept(out.offered, keep), unread := out.unread + Ids(dropped),
           capped := Some(Capped(|dropped|, Sats(dropped))))
  }

  lemma KeptNext(coins: seq<Coin>, keep: seq<bool>, i: nat)
    requires |keep| == |coins| && i < |coins|
    ensures var before := Kept(coins[..i], keep[..i]);
            Kept(coins[..i + 1], keep[..i + 1]) == if keep[i] then before + [coins[i]] else before
  {
    assert coins[..i + 1][..i] == coins[..i] && keep[..i + 1][..i] == keep[..i];
  }

  lemma IdsAppend(coins: seq<Coin>, c: Coin)
    ensures Ids(coins + [c]) == Ids(coins) + [c.id]
  {
  }

  /** `cap_offer`: the largest stay offered in the order read, the rest go unread and counted. */
  method CapInPlace(before: Assessment, cap: nat) returns (out: Assessment)
    ensures out == CapOffer(before, cap)
  {
    if |before.offered| <= cap {
      return before;
    }
    var keep := MarkLargest(before.offered, cap);
    out := Rebuild(before, keep);
  }

  method MarkLargest(coins: seq<Coin>, cap: nat) returns (keep: seq<bool>)
    requires cap <= |coins|
    ensures keep == KeepMask(coins, cap)
  {
    var n := |coins|;
    var order := ByValue(coins, n);
    var marks := new bool[n](_ => false);
    for k := 0 to cap
      invariant forall i: nat | i < n :: marks[i] == (i in order[..k])
    {
      assert order[k] in order;
      marks[order[k]] := true;
      assert order[..k + 1] == order[..k] + [order[k]];
    }
    keep := marks[..];
  }

  /** The offer rebuilt from the first `i` coins. */
  function Rebuilt(before: Assessment, keep: seq<bool>, i: nat): Assessment
    requires |keep| == |before.offered| && i <= |keep|
  {
    var coins := before.offered[..i];
    Parted(before, Kept(coins, keep[..i]), Kept(coins, Flipped(keep)[..i]))
  }

  function Parted(before: Assessment, kept: seq<Coin>, dropped: seq<Coin>): Assessment {
    before.(offered := kept, unread := before.unread + Ids(dropped),
            capped := Some(Capped(|dropped|, Sats(dropped))))
  }

  lemma PartedMore(before: Assessment, kept: seq<Coin>, dropped: seq<Coin>, coin: Coin)
    ensures var now, next := Parted(before, kept, dropped), Parted(before, kept, dropped + [coin]);
            next == now.(unread := now.unread + [coin.id],
                         capped := Some(Capped(now.capped.value.coins + 1, now.capped.value.sats + coin.sats)))
  {
    SatsAppend(dropped, coin);
    IdsAppend(dropped, coin);
    assert before.unread + (Ids(dropped) + [coin.id]) == (before.unread + Ids(dropped)) + [coin.id];
  }

  lemma PartedStep(before: Assessment, kept: seq<Coin>, dropped: seq<Coin>, coin: Coin, keep: bool)
    ensures var now := Parted(before, kept, dropped);
            Parted(before, if keep then kept + [coin] else kept, if keep then dropped else dropped + [coin])
            == if keep then now.(offered := now.offered + [coin])
               else now.(unread := now.unread + [coin.id],
                         capped := Some(Capped(now.capped.value.coins + 1, now.capped.value.sats + coin.sats)))
  {
    if !keep {
      PartedMore(before, kept, dropped, coin);
    }
  }

  lemma RebuiltParts(before: Assessment, keep: seq<bool>, i: nat) returns (kept: seq<Coin>, dropped: seq<Coin>)
    requires |keep| == |before.offered| && i < |keep|
    ensures Rebuilt(before, keep, i) == Parted(before, kept, dropped)
    ensures var coin := before.offered[i];
            Rebuilt(before, keep, i + 1)
            == Parted(before, if keep[i] then kept + [coin] else kept, if keep[i] then dropped else dropped + [coin])
  {
    kept, dropped := Kept(before.offered[..i], keep[..i]), Kept(before.offered[..i], Flipped(keep)[..i]);
    KeptNext(before.offered, keep, i);
    KeptNext(before.offered, Flipped(keep), i);
  }

  lemma RebuiltNext(before: Assessment, keep: seq<bool>, i: nat)
    requires |keep| == |before.offered| && i < |keep|
    ensures var now, next, coin := Rebuilt(before, keep, i), Rebuilt(before, keep, i + 1), before.offered[i];
            now.capped.Some? &&
            next == if keep[i] then now.(offered := now.offered + [coin])
                    else now.(unread := now.unread + [coin.id],
                              capped := Some(Capped(now.capped.value.coins + 1, now.capped.value.sats + coin.sats)))
  {
    var kept, dropped := RebuiltParts(before, keep, i);
    PartedStep(before, kept, dropped, before.offered[i], keep[i]);
  }

  method Rebuild(before: Assessment, keep: seq<bool>) returns (out: Assessment)
    requires |keep| == |before.offered|
    ensures var dropped := Kept(before.offered, Flipped(keep));
            out == before.(offered := Kept(before.offered, keep), unread := before.unread + Ids(dropped),
                           capped := Some(Capped(|dropped|, Sats(dropped))))
  {
    out := before.(offered := [], capped := Some(Capped(0, 0)));
    assert before.unread + Ids([]) == before.unread;
    for i := 0 to |keep|
      invariant out == Rebuilt(before, keep, i)
    {
      RebuiltNext(before, keep, i);
      var coin := before.offered[i];
      if keep[i] {
        out := out.(offered := out.offered + [coin]);
      } else {
        out := out.(unread := out.unread + [coin.id],
                    capped := Some(Capped(out.capped.value.coins + 1, out.capped.value.sats + coin.sats)));
      }
    }
    assert before.offered[..|keep|] == before.offered && keep[..|keep|] == keep;
    assert Flipped(keep)[..|keep|] == Flipped(keep);
  }

  /** The door's read: every candidate judged in turn, then the cap. */
  method Assess(ask: Ask) returns (out: Assessment, retried: bool)
    ensures out == CapOffer(Uncapped(ask), OFFER_CAP)
    ensures retried == FullScan(ask).retried
  {
    var creators := Creators(ask.all);
    var s := START;
    for k := 0 to |ask.all|
      invariant s == Scanned(ask, creators, k)
    {
      s := Judge(ask, creators, s, ask.all[k]);
    }
    out := CapInPlace(s.out, OFFER_CAP);
    retried := s.retried;
  }
}
