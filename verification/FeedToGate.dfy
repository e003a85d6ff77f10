/** What the feed has stored, at the gate: a delivered freeze or an open split keeps coins back. */
module FeedToGate {
  import opened Prelude
  import opened ChainEvents
  import opened SpendGate
  import opened Door
  import ChainFeed

  // ---------------------------------------------------------------------------
  // The floor of the open splits
  // ---------------------------------------------------------------------------

  /** The lowest fork height of the splits still open, if any is. */
  ghost predicate IsFloor(splits: map<string, Height>, floor: Option<Height>) {
    && (floor.None? <==> splits == map[])
    && (floor.Some? ==>
          && (exists k :: k in splits && splits[k] == floor.value)
          && forall k | k in splits :: floor.value <= splits[k])
  }

  /** `open_split_floor`. */
  method OpenSplitFloor(splits: map<string, Height>) returns (floor: Option<Height>)
    ensures IsFloor(splits, floor)
  {
    floor := None;
    var left := splits.Keys;
    while left != {}
      invariant left <= splits.Keys
      invariant floor.None? <==> left == splits.Keys
      invariant floor.Some? ==> exists k :: k in splits && splits[k] == floor.value
      invariant floor.Some? ==> forall k | k in splits.Keys - left :: floor.value <= splits[k]
      decreases left
    {
      var k :| k in left;
      if floor.None? || splits[k] < floor.value {
        floor := Some(splits[k]);
      }
      left := left - {k};
    }
  }

  /** `under_split`: mined at or above the floor. */
  predicate UnderSplit(word: Word, height: Height, floor: Option<Height>) {
    word.Mined? && floor.Some? && floor.value <= height
  }

  // ---------------------------------------------------------------------------
  // Over every run of the feed
  // ---------------------------------------------------------------------------

  /** The `i`-th envelope has been delivered. */
  ghost predicate Delivered(journal: seq<ChainFeed.Journaled>, db: ChainFeed.Db, i: nat) {
    i < |journal| && journal[i].cursor <= db.cursor
  }

  ghost predicate Reachable(
      host: ChainFeed.Host, journal: seq<ChainFeed.Journaled>, db: ChainFeed.Db, ops: seq<ChainFeed.Op>)
  {
    && ChainFeed.IsJournal(journal) && ChainFeed.Served(host, journal, ChainFeed.Fresh(ChainFeed.BIRTH, 0), ops)
    && db == ChainFeed.RunOps(host, ChainFeed.Fresh(ChainFeed.BIRTH, 0), ops).db
  }

  /** After any run the delivered envelopes are a prefix, and the store is its fold. */
  lemma {:induction false} DeliveredPrefix(
      host: ChainFeed.Host, journal: seq<ChainFeed.Journaled>, db: ChainFeed.Db, ops: seq<ChainFeed.Op>)
      returns (k: nat)
    requires Reachable(host, journal, db, ops)
    ensures ChainFeed.HoldsPrefix(host.decode, journal, db, k)
    ensures forall i: nat | i < |journal| :: Delivered(journal, db, i) <==> i < k
  {
    ChainFeed.BirthIsGood(host, journal);
    ChainFeed.EveryRunIsExact(host, journal, ChainFeed.Fresh(ChainFeed.BIRTH, 0), ops);
    k :| ChainFeed.HoldsPrefix(host.decode, journal, db, k);
    ChainFeed.FoldApplies(host.decode, journal[..k]);
    assert k > 0 ==> db.cursor == journal[k - 1].cursor;
  }

  /** The gate reads its frozen flags from the feed's record. */
  ghost predicate Flagged(db: ChainFeed.Db, all: seq<Candidate>) {
    forall c | c in all :: c.frozen <==> c.outpoint in db.frozen
  }

  lemma {:induction false} FrozenIsFlagged(
      host: ChainFeed.Host, journal: seq<ChainFeed.Journaled>, db: ChainFeed.Db, ops: seq<ChainFeed.Op>,
      i: nat, all: seq<Candidate>, c: Candidate)
    requires Reachable(host, journal, db, ops) && Delivered(journal, db, i) && Flagged(db, all) && c in all
    requires host.decode(journal[i].body) == Some(Frozen(c.outpoint))
    ensures c.frozen
  {
    var k := DeliveredPrefix(host, journal, db, ops);
    ChainFeed.FrozenIsForever(host.decode, journal[..k], c.outpoint);
    assert ChainFeed.FreezesAt(host.decode, journal[..k], c.outpoint, i);
  }

  /** And no coin is held as frozen that no delivered freeze named. */
  lemma {:induction false} FlaggedWasDelivered(
      host: ChainFeed.Host, journal: seq<ChainFeed.Journaled>, db: ChainFeed.Db, ops: seq<ChainFeed.Op>,
      all: seq<Candidate>, c: Candidate) returns (i: nat)
    requires Reachable(host, journal, db, ops) && Flagged(db, all) && c in all && c.frozen
    ensures Delivered(journal, db, i) && host.decode(journal[i].body) == Some(Frozen(c.outpoint))
  {
    var k := DeliveredPrefix(host, journal, db, ops);
    ChainFeed.FrozenIsForever(host.decode, journal[..k], c.outpoint);
    i :| ChainFeed.FreezesAt(host.decode, journal[..k], c.outpoint, i);
  }

  /**
   A freeze the feed delivered is never offered: after every run of the feed, under every word of
   the action and whatever the services answer, no offered coin is at a frozen outpoint.
   */
  lemma {:induction false} DeliveredFreezeIsNeverOffered(
      host: ChainFeed.Host, journal: seq<ChainFeed.Journaled>, db: ChainFeed.Db, ops: seq<ChainFeed.Op>,
      i: nat, o: Outpoint, ask: Ask, coin: Coin)
    requires Reachable(host, journal, db, ops) && Delivered(journal, db, i) && Flagged(db, ask.all)
    requires host.decode(journal[i].body) == Some(Frozen(o)) && coin in Assessed(ask).offered
    ensures exists c :: c in ask.all && coin == Coin(c.id, c.sats) && c.outpoint != o
  {
    EveryCoinIsRightly(ask);
    assert OfferedRightly(ask, coin);
    var c :| LetThrough(ask, c) && coin == Coin(c.id, c.sats);
    if c.outpoint == o {
      FrozenIsFlagged(host, journal, db, ops, i, ask.all, c);
    }
  }

  /**
   While the last delivered word on a split's key opened it, no creator mined at or above its
   fork is offered; if it could be looked at, it reads suspect.
   */
  lemma {:induction false} OpenSplitHoldsBack(
      host: ChainFeed.Host, journal: seq<ChainFeed.Journaled>, db: ChainFeed.Db, ops: seq<ChainFeed.Op>,
      k: nat, key: string, i: nat, floor: Option<Height>, height: Height, l: Looked)
    requires Reachable(host, journal, db, ops) && ChainFeed.HoldsPrefix(host.decode, journal, db, k)
    requires ChainFeed.OpenedAt(host.decode, journal[..k], key, i)
    requires IsFloor(db.openSplits, floor)
    requires l.word.Mined? && l.split == UnderSplit(l.word, height, floor)
    requires host.decode(journal[i].body).value.forkHeight <= height
    ensures !ReadingOf(l).offered && ReadingOf(l).suspect
    ensures forall origin, o, opts :: HoldReason(ReadingOf(l), origin, o, opts).Some?
  {
    ChainFeed.OpenSplitsAreTheUnresolved(host.decode, journal[..k], key);
    assert key in db.openSplits && db.openSplits[key] == host.decode(journal[i].body).value.forkHeight;
  }

  /** And no creator is held for a split but one mined at or above the fork of a split still open. */
  lemma {:induction false} HeldBySplit(
      host: ChainFeed.Host, journal: seq<ChainFeed.Journaled>, db: ChainFeed.Db, ops: seq<ChainFeed.Op>,
      k: nat, floor: Option<Height>, word: Word, height: Height) returns (key: string, i: nat)
    requires Reachable(host, journal, db, ops) && ChainFeed.HoldsPrefix(host.decode, journal, db, k)
    requires IsFloor(db.openSplits, floor) && UnderSplit(word, height, floor)
    ensures word.Mined? && ChainFeed.OpenedAt(host.decode, journal[..k], key, i)
    ensures host.decode(journal[..k][i].body).value.forkHeight <= height
  {
    key :| key in db.openSplits && db.openSplits[key] == floor.value;
    ChainFeed.OpenSplitsAreTheUnresolved(host.decode, journal[..k], key);
    i :| ChainFeed.OpenedAt(host.decode, journal[..k], key, i);
  }

  /** What the services show of the creators, each split read off the floor at the creator's height. */
  ghost predicate LooksUnder(
      ask: Ask, looks: (nat, string) -> Looked, heights: (nat, string) -> Height, floor: Option<Height>)
  {
    && (forall n, t :: ask.answer(n, t) == ReadingOf(looks(n, t)))
    && (forall n, t :: looks(n, t).split == UnderSplit(looks(n, t).word, heights(n, t), floor))
  }

  /** A creator read as mined is below every split whose last delivered word opened it. */
  ghost predicate BelowOpenSplits(
      host: ChainFeed.Host, done: seq<ChainFeed.Journaled>, looks: (nat, string) -> Looked,
      heights: (nat, string) -> Height, c: Candidate, n: nat)
    requires ChainFeed.Decodes(host.decode, done)
  {
    looks(n, c.outpoint.txid).word.Mined? ==>
      forall key, i | ChainFeed.OpenedAt(host.decode, done, key, i) ::
        heights(n, c.outpoint.txid) < host.decode(done[i].body).value.forkHeight
  }

  /**
   So after any run of the feed, under any word and whatever the services answer, a coin that goes
   out and whose creator was read as mined was read below the fork of every open split.
   */
  lemma {:induction false} OfferedBelowOpenSplits(
      host: ChainFeed.Host, journal: seq<ChainFeed.Journaled>, db: ChainFeed.Db, ops: seq<ChainFeed.Op>,
      k: nat, floor: Option<Height>, ask: Ask, looks: (nat, string) -> Looked,
      heights: (nat, string) -> Height, coin: Coin)
    requires Reachable(host, journal, db, ops) && ChainFeed.HoldsPrefix(host.decode, journal, db, k)
    requires IsFloor(db.openSplits, floor) && LooksUnder(ask, looks, heights, floor)
    requires coin in Assessed(ask).offered
    ensures exists c, n :: OfferedOn(ask, coin, c, n) && BelowOpenSplits(host, journal[..k], looks, heights, c, n)
  {
    OfferedWasLookedAt(ask, looks, coin);
    var c, n :| OfferedOn(ask, coin, c, n) && SeenFit(looks(n, c.outpoint.txid));
    forall key, i | looks(n, c.outpoint.txid).word.Mined? && ChainFeed.OpenedAt(host.decode, journal[..k], key, i)
      ensures heights(n, c.outpoint.txid) < host.decode(journal[..k][i].body).value.forkHeight
    {
      if host.decode(journal[..k][i].body).value.forkHeight <= heights(n, c.outpoint.txid) {
        OpenSplitHoldsBack(host, journal, db, ops, k, key, i, floor, heights(n, c.outpoint.txid),
                           looks(n, c.outpoint.txid));
      }
    }
  }
}
