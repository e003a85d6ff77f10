/**
 The chain-event feed: pages and a byte stream, each delivered at least once, turned into
 effects applied exactly once by a cursor stored in the same transaction as the effects.
 */
module ChainFeed {
  import opened Prelude
  import opened ChainEvents
  import opened SseFraming

  // ---------------------------------------------------------------------------
  // Cursors as decimal strings
  // ---------------------------------------------------------------------------

  predicate IsDigit(c: char) { '0' <= c <= '9' }

  predicate IsSpace(c: char) { c == ' ' || '\t' <= c <= '\r' }

  function Trim(s: string): string {
    if s != "" && IsSpace(s[0]) then Trim(s[1..])
    else if s != "" && IsSpace(s[|s| - 1]) then Trim(s[..|s| - 1])
    else s
  }

  function Digits(s: string): Option<nat> {
    if s == "" then Some(0)
    else if !IsDigit(s[|s| - 1]) then None
    else match Digits(s[..|s| - 1])
      case None => None
      case Some(high) => Some(10 * high + (s[|s| - 1] as int - '0' as int))
  }

  /** `cursor.trim().parse::<u64>()`: a plus sign at most, then digits, below 2^64. */
  function ParseU64(text: string): (r: Option<nat>)
    ensures r.Some? ==> r.value < U64
  {
    var t := Trim(text);
    var digits := if t != "" && t[0] == '+' then t[1..] else t;
    if digits == "" then None
    else match Digits(digits)
      case Some(n) => if n < U64 then Some(n) else None
      case None => None
  }

  function Decimal(n: nat): (s: string)
    ensures s != "" && forall i | 0 <= i < |s| :: IsDigit(s[i])
  {
    var last := [('0' as int + n % 10) as char];
    if n < 10 then last else Decimal(n / 10) + last
  }

  lemma {:induction false} DigitsOfDecimal(n: nat)
    ensures Digits(Decimal(n)) == Some(n)
  {
    if n >= 10 {
      DigitsOfDecimal(n / 10);
      var s := Decimal(n);
      assert s[..|s| - 1] == Decimal(n / 10);
    }
  }

  /** A cursor the feed writes is the cursor it reads back. */
  lemma {:induction false} CursorRoundTrip(n: nat)
    ensures ParseU64(Decimal(n)) == if n < U64 then Some(n) else None
  {
    DigitsOfDecimal(n);
    var s := Decimal(n);
    assert !IsSpace(s[0]) && !IsSpace(s[|s| - 1]);
  }

  lemma {:induction false} TrimStrips(left: string, s: string, right: string)
    requires (forall c | c in left :: IsSpace(c)) && (forall c | c in right :: IsSpace(c))
    requires s != "" && !IsSpace(s[0]) && !IsSpace(s[|s| - 1])
    ensures Trim(left + s + right) == s
    decreases |left| + |right|
  {
    var all := left + s + right;
    if left != "" {
      assert left[0] in left && all[0] == left[0] && all[1..] == left[1..] + s + right;
      TrimStrips(left[1..], s, right);
    } else if right != "" {
      assert right[|right| - 1] in right && all[|all| - 1] == right[|right| - 1];
      assert all[0] == s[0] && all[..|all| - 1] == left + s + right[..|right| - 1];
      TrimStrips(left, s, right[..|right| - 1]);
    } else {
      assert all == s;
    }
  }

  /** White space around a cursor and a plus sign before it are nothing. */
  lemma {:induction false} PaddedCursorParses(left: string, plus: bool, n: nat, right: string)
    requires (forall c | c in left :: IsSpace(c)) && (forall c | c in right :: IsSpace(c))
    ensures ParseU64(left + ((if plus then "+" else "") + Decimal(n)) + right) == if n < U64 then Some(n) else None
  {
    DigitsOfDecimal(n);
    var s := (if plus then "+" else "") + Decimal(n);
    TrimStrips(left, s, right);
    assert plus ==> s[1..] == Decimal(n);
    assert !plus ==> s == Decimal(n);
  }

  predicate InCursor(c: char) { IsDigit(c) || IsSpace(c) || c == '+' }

  lemma {:induction false} DigitsAreDigits(s: string)
    requires Digits(s).Some?
    ensures forall c | c in s :: InCursor(c)
  {
    if s != "" {
      DigitsAreDigits(s[..|s| - 1]);
      assert s == s[..|s| - 1] + [s[|s| - 1]];
    }
  }

  lemma {:induction false} TrimmedAreSpaces(s: string)
    requires forall c | c in Trim(s) :: InCursor(c)
    ensures forall c | c in s :: InCursor(c)
    decreases |s|
  {
    if s != "" && IsSpace(s[0]) {
      TrimmedAreSpaces(s[1..]);
      assert s == [s[0]] + s[1..];
    } else if s != "" && IsSpace(s[|s| - 1]) {
      TrimmedAreSpaces(s[..|s| - 1]);
      assert s == s[..|s| - 1] + [s[|s| - 1]];
    }
  }

  /** And a cursor with anything else in it is none. */
  lemma {:induction false} OnlyDigitsParse(text: string)
    requires ParseU64(text).Some?
    ensures forall c | c in text :: InCursor(c)
  {
    var t := Trim(text);
    if t != "" && t[0] == '+' {
      DigitsAreDigits(t[1..]);
      assert t == [t[0]] + t[1..];
    } else {
      DigitsAreDigits(t);
    }
    TrimmedAreSpaces(text);
  }

  // ---------------------------------------------------------------------------
  // The journal and the store
  // ---------------------------------------------------------------------------

  /** One envelope as the header service journals it. */
  datatype Journaled = Journaled(cursor: nat, body: string)

  type Decoder = string -> Option<ChainEvent>

  ghost predicate IsJournal(journal: seq<Journaled>) {
    && (forall i | 0 <= i < |journal| :: 0 < journal[i].cursor < U64)
    && (forall i, j | 0 <= i < j < |journal| :: journal[i].cursor < journal[j].cursor)
  }

  datatype Applied = Applied(cursor: nat, event: ChainEvent)

  /**
   What one delivery's transaction writes: the cursor, the open splits, the frozen record
   (outpoint to the cursor that froze it), and the row updates, kept here as the list of the
   envelopes they were made for.
   */
  datatype Db = Db(
    cursor: nat, openSplits: map<string, Height>, frozen: map<Outpoint, nat>, applied: seq<Applied>)

  const BIRTH := Db(0, map[], map[], [])

  /** The effects of one decoded envelope (`deliver_chain_event`). */
  function Store(db: Db, at: nat, event: ChainEvent): Db {
    if at <= db.cursor then db
    else
      Db(at,
         match event
         case Split(key, fork) => db.openSplits[key := fork]
         case SplitResolved(key, _) => db.openSplits - {key}
         case _ => db.openSplits,
         match event
         case Frozen(o) => if o in db.frozen then db.frozen else db.frozen[o := at]
         case _ => db.frozen,
         db.applied + [Applied(at, event)])
  }

  ghost predicate Decodes(decode: Decoder, journal: seq<Journaled>) {
    forall i | 0 <= i < |journal| :: decode(journal[i].body).Some?
  }

  /** A journal prefix, applied in order from birth. */
  ghost function Fold(decode: Decoder, journal: seq<Journaled>): Db
    requires Decodes(decode, journal)
  {
    if journal == [] then BIRTH
    else
      var last := journal[|journal| - 1];
      Store(Fold(decode, journal[..|journal| - 1]), last.cursor, decode(last.body).value)
  }

  /** The store holds exactly the first `k` envelopes. */
  ghost predicate HoldsPrefix(decode: Decoder, journal: seq<Journaled>, db: Db, k: nat) {
    k <= |journal| && Decodes(decode, journal[..k]) && db == Fold(decode, journal[..k])
  }

  ghost predicate Exact(decode: Decoder, journal: seq<Journaled>, db: Db) {
    exists k: nat :: HoldsPrefix(decode, journal, db, k)
  }

  /** A prefix applies each of its envelopes once, in order, and ends at its last cursor. */
  lemma {:induction false} FoldApplies(decode: Decoder, journal: seq<Journaled>)
    requires IsJournal(journal) && Decodes(decode, journal)
    ensures var db := Fold(decode, journal);
            && |db.applied| == |journal|
            && (forall i | 0 <= i < |journal| ::
                  db.applied[i] == Applied(journal[i].cursor, decode(journal[i].body).value))
            && db.cursor == (if journal == [] then 0 else journal[|journal| - 1].cursor)
  {
    if journal != [] {
      FoldApplies(decode, journal[..|journal| - 1]);
    }
  }

  ghost predicate FreezesAt(decode: Decoder, journal: seq<Journaled>, o: Outpoint, i: int) {
    0 <= i < |journal| && decode(journal[i].body) == Some(Frozen(o))
  }

  /** The record has the outpoint exactly when some envelope froze it, under a cursor no later. */
  ghost predicate Records(decode: Decoder, journal: seq<Journaled>, o: Outpoint, at: Option<nat>) {
    && (at.Some? <==> exists i :: FreezesAt(decode, journal, o, i))
    && (at.Some? ==> forall i | FreezesAt(decode, journal, o, i) :: at.value <= journal[i].cursor)
  }

  function FrozenAt(db: Db, o: Outpoint): Option<nat> {
    if o in db.frozen then Some(db.frozen[o]) else None
  }

  lemma {:induction false} RecordsMore(
      decode: Decoder, journal: seq<Journaled>, o: Outpoint, before: Option<nat>, after: Option<nat>)
    requires IsJournal(journal) && journal != [] && Records(decode, journal[..|journal| - 1], o, before)
    requires var last := journal[|journal| - 1];
             after == if decode(last.body) == Some(Frozen(o)) && before.None? then Some(last.cursor) else before
    ensures Records(decode, journal, o, after)
  {
    var n := |journal| - 1;
    assert forall i | i != n :: FreezesAt(decode, journal, o, i) == FreezesAt(decode, journal[..n], o, i);
    if before.Some? {
      var i :| FreezesAt(decode, journal[..n], o, i);
      assert FreezesAt(decode, journal, o, i);
    } else if after.Some? {
      assert FreezesAt(decode, journal, o, n);
    }
  }

  /** The frozen record is every outpoint a delivered freeze named, under the first one's cursor. */
  lemma {:induction false} FrozenIsForever(decode: Decoder, journal: seq<Journaled>, o: Outpoint)
    requires IsJournal(journal) && Decodes(decode, journal)
    ensures Records(decode, journal, o, FrozenAt(Fold(decode, journal), o))
  {
    if journal != [] {
      var before := journal[..|journal| - 1];
      FrozenIsForever(decode, before, o);
      FoldApplies(decode, before);
      RecordsMore(decode, journal, o, FrozenAt(Fold(decode, before), o), FrozenAt(Fold(decode, journal), o));
    }
  }

  ghost predicate NamesSplit(event: ChainEvent, key: string) {
    match event
    case Split(k, _) => k == key
    case SplitResolved(k, _) => k == key
    case _ => false
  }

  ghost predicate OpenedAt(decode: Decoder, journal: seq<Journaled>, key: string, i: int)
    requires Decodes(decode, journal)
  {
    && 0 <= i < |journal|
    && decode(journal[i].body).value.Split?
    && decode(journal[i].body).value.key == key
    && forall j | i < j < |journal| :: !NamesSplit(decode(journal[j].body).value, key)
  }

  lemma {:induction false} OpenedStays(decode: Decoder, journal: seq<Journaled>, key: string, i: int)
    requires journal != [] && Decodes(decode, journal)
    requires !NamesSplit(decode(journal[|journal| - 1].body).value, key)
    ensures OpenedAt(decode, journal, key, i) == OpenedAt(decode, journal[..|journal| - 1], key, i)
  {
    var before := journal[..|journal| - 1];
    if OpenedAt(decode, before, key, i) {
      forall j | i < j < |journal| ensures !NamesSplit(decode(journal[j].body).value, key) {
        assert j < |before| ==> before[j] == journal[j];
      }
    }
  }

  /** A split is open exactly when the last delivered word on its key opened it. */
  lemma {:induction false} OpenSplitsAreTheUnresolved(
      decode: Decoder, journal: seq<Journaled>, key: string)
    requires IsJournal(journal) && Decodes(decode, journal)
    ensures key in Fold(decode, journal).openSplits <==> exists i :: OpenedAt(decode, journal, key, i)
    ensures forall i | OpenedAt(decode, journal, key, i) ::
              Fold(decode, journal).openSplits[key] == decode(journal[i].body).value.forkHeight
  {
    if journal != [] {
      var n := |journal| - 1;
      var before := journal[..n];
      OpenSplitsAreTheUnresolved(decode, before, key);
      FoldApplies(decode, before);
      var last := decode(journal[n].body).value;
      if NamesSplit(last, key) {
        if last.Split? {
          assert OpenedAt(decode, journal, key, n);
        }
      } else {
        forall i ensures OpenedAt(decode, journal, key, i) == OpenedAt(decode, before, key, i) {
          OpenedStays(decode, journal, key, i);
        }
      }
    }
  }

  // ---------------------------------------------------------------------------
  // One delivery
  // ---------------------------------------------------------------------------

  datatype Fault = Fault(kind: string, cursor: nat, eventCursor: Option<string>)

  /** The part of the status a delivery writes. */
  datatype Status = Status(cursor: nat, delivered: nat)

  /** How one leg ended. */
  datatype Leg = Dropped(delivered: bool) | Stop(fault: Fault) | Transient

  /** What became of one storage call: it landed, it did not, or it landed and answered an error. */
  datatype StoreAnswer = Landed | Lost | LandedUnheard

  /** The store, the status in memory, and the number of storage calls made so far. */
  datatype World = World(db: Db, status: Status, writes: nat)

  datatype Delivery = Delivery(cursor: string, body: string)

  /** The host: the decoder, and what the n-th storage call answers. */
  datatype Host = Host(decode: Decoder, store: nat -> StoreAnswer)

  datatype Step = Step(world: World, leg: Option<Leg>)

  function Fresh(db: Db, writes: nat): World {
    World(db, Status(db.cursor, 0), writes)
  }

  function Deliver(host: Host, w: World, d: Delivery): Step {
    var fault := Step(w, Some(Stop(Fault("decode", w.status.cursor, Some(d.cursor)))));
    match (ParseU64(d.cursor), host.decode(d.body))
    case (None, _) => fault
    case (_, None) => fault
    case (Some(at), Some(event)) =>
      var stored := Store(w.db, at, event);
      match host.store(w.writes)
      case Lost => Step(w.(writes := w.writes + 1), Some(Transient))
      case LandedUnheard => Step(w.(db := stored, writes := w.writes + 1), Some(Transient))
      case Landed =>
        var status := if at > w.status.cursor
                      then w.status.(cursor := at, delivered := w.status.delivered + 1)
                      else w.status;
        Step(World(stored, status, w.writes + 1), None)
  }

  /** Deliveries in order, up to the first that ends the leg. */
  function DeliverAll(host: Host, w: World, ds: seq<Delivery>): Step
    decreases |ds|
  {
    if ds == [] then Step(w, None)
    else
      var first := Deliver(host, w, ds[0]);
      if first.leg.Some? then first else DeliverAll(host, first.world, ds[1..])
  }

  // ---------------------------------------------------------------------------
  // One stream connection
  // ---------------------------------------------------------------------------

  /** What one block asks for: nothing, a delivery, or the end of the leg. */
  datatype Asked = Skip | Take(d: Delivery) | End(kind: string, eventCursor: Option<string>)

  function Ask(m: Message): Asked {
    if m.event == Some("error") then End("feedUnavailable", m.id)
    else if m.data.None? then Skip
    else if m.id.None? then End("decode", None)
    else Take(Delivery(m.id.value, m.data.value))
  }

  /** The stream leg over drained blocks: `leg` is `None` while the connection is up. */
  function Follow(host: Host, w: World, blocks: seq<string>): Step
    decreases |blocks|
  {
    if blocks == [] then Step(w, None)
    else
      var first := FollowOne(host, w, blocks[0]);
      if first.leg.Some? then first else Follow(host, first.world, blocks[1..])
  }

  function FollowOne(host: Host, w: World, block: string): Step {
    match Ask(Parsed(block))
    case Skip => Step(w, None)
    case End(kind, at) => Step(w, Some(Stop(Fault(kind, w.status.cursor, at))))
    case Take(d) => Deliver(host, w, d)
  }

  /** The deliveries a list of blocks asks for, up to the block that ends the leg. */
  function Asks(blocks: seq<string>): seq<Delivery> {
    if blocks == [] then []
    else match Ask(Parsed(blocks[0]))
      case Skip => Asks(blocks[1..])
      case End(_, _) => []
      case Take(d) => [d] + Asks(blocks[1..])
  }

  /** Following a stream changes the world as delivering what it asks for does. */
  lemma {:induction false} FollowIsDeliverAll(host: Host, w: World, blocks: seq<string>)
    ensures Follow(host, w, blocks).world == DeliverAll(host, w, Asks(blocks)).world
    decreases |blocks|
  {
    if blocks != [] {
      match Ask(Parsed(blocks[0]))
      case Skip =>
        FollowIsDeliverAll(host, w, blocks[1..]);
      case End(_, _) =>
      case Take(d) =>
        assert Asks(blocks)[1..] == Asks(blocks[1..]);
        FollowIsDeliverAll(host, Deliver(host, w, d).world, blocks[1..]);
    }
  }

  lemma {:induction false} FollowAppend(host: Host, w: World, a: seq<string>, b: seq<string>)
    ensures var first := Follow(host, w, a);
            Follow(host, w, a + b) ==
            if first.leg.Some? then first else Follow(host, first.world, b)
    decreases |a|
  {
    if a == [] {
      assert a + b == b;
    } else {
      assert (a + b)[0] == a[0] && (a + b)[1..] == a[1..] + b;
      var first := FollowOne(host, w, a[0]);
      if first.leg.None? {
        FollowAppend(host, first.world, a[1..], b);
      }
    }
  }

  lemma {:induction false} AsksJoin(a: seq<string>, b: seq<string>)
    requires forall i: nat | i < |a| :: !Ask(Parsed(a[i])).End?
    ensures Asks(a + b) == Asks(a) + Asks(b)
    decreases |a|
  {
    if a == [] {
      assert a + b == b;
    } else {
      assert (a + b)[0] == a[0] && (a + b)[1..] == a[1..] + b;
      AsksJoin(a[1..], b);
    }
  }

  lemma {:induction false} FollowedHasNoEnd(host: Host, w: World, blocks: seq<string>)
    requires Follow(host, w, blocks).leg.None?
    ensures forall i: nat | i < |blocks| :: !Ask(Parsed(blocks[i])).End?
    decreases |blocks|
  {
    if blocks != [] {
      FollowedHasNoEnd(host, FollowOne(host, w, blocks[0]).world, blocks[1..]);
      assert forall i: nat | 0 < i < |blocks| :: blocks[i] == blocks[1..][i - 1];
    }
  }

  lemma {:induction false} AsksAppend(host: Host, w: World, a: seq<string>, b: seq<string>)
    requires Follow(host, w, a).leg.None?
    ensures Asks(a + b) == Asks(a) + Asks(b)
  {
    FollowedHasNoEnd(host, w, a);
    AsksJoin(a, b);
  }

  // ---------------------------------------------------------------------------
  // What the service owes, and what every run keeps
  // ---------------------------------------------------------------------------

  /** `d` is the journal's envelope `j`. */
  ghost predicate Carries(journal: seq<Journaled>, d: Delivery, j: int) {
    0 <= j < |journal| && ParseU64(d.cursor) == Some(journal[j].cursor) && d.body == journal[j].body
  }

  /** Every journaled envelope after `since` and before the `j`-th is among `ds`. */
  ghost predicate NoGap(journal: seq<Journaled>, since: nat, ds: seq<Delivery>, j: int)
    requires 0 <= j < |journal|
  {
    forall i | 0 <= i < j && since < journal[i].cursor ::
      exists m :: 0 <= m < |ds| && Carries(journal, ds[m], i)
  }

  /**
   An answer to `since`: journaled envelopes, with repeats, each preceded by every one between
   `since` and it. A cursor that is no decimal is the service's own business.
   */
  ghost predicate Serves(journal: seq<Journaled>, since: nat, ds: seq<Delivery>) {
    forall k | 0 <= k < |ds| && ParseU64(ds[k].cursor).Some? ::
      exists j :: Carries(journal, ds[k], j) && NoGap(journal, since, ds[..k], j)
  }

  /** The feed's invariant. */
  ghost predicate Good(host: Host, journal: seq<Journaled>, w: World) {
    && Exact(host.decode, journal, w.db)
    && w.status.cursor <= w.db.cursor
    && (w.status.cursor == 0 || exists i :: 0 <= i < |journal| && journal[i].cursor == w.status.cursor)
  }

  lemma {:induction false} NextIsHeld(decode: Decoder, journal: seq<Journaled>, db: Db, k: nat, event: ChainEvent)
    requires HoldsPrefix(decode, journal, db, k) && k < |journal| && decode(journal[k].body) == Some(event)
    ensures HoldsPrefix(decode, journal, Store(db, journal[k].cursor, event), k + 1)
  {
    assert journal[..k + 1][..k] == journal[..k];
  }

  /** The next envelope, or one at or below the stored cursor, keeps the store exact. */
  lemma {:induction false} StoreKeepsExact(decode: Decoder, journal: seq<Journaled>, db: Db, j: nat, event: ChainEvent)
    requires IsJournal(journal) && Exact(decode, journal, db)
    requires j < |journal| && decode(journal[j].body) == Some(event)
    requires forall i | 0 <= i < j :: journal[i].cursor <= db.cursor
    ensures Exact(decode, journal, Store(db, journal[j].cursor, event))
  {
    var k: nat :| HoldsPrefix(decode, journal, db, k);
    FoldApplies(decode, journal[..k]);
    assert k > 0 ==> journal[..k][k - 1] == journal[k - 1];
    if journal[j].cursor > db.cursor {
      assert k < |journal| ==> db.cursor < journal[k].cursor;
      assert j == k;
      NextIsHeld(decode, journal, db, k, event);
    } else {
      assert HoldsPrefix(decode, journal, Store(db, journal[j].cursor, event), k);
    }
  }

  lemma {:induction false} DeliverKeepsGood(host: Host, journal: seq<Journaled>, w: World, d: Delivery, j: nat)
    requires IsJournal(journal) && Good(host, journal, w)
    requires Carries(journal, d, j)
    requires forall i | 0 <= i < j :: journal[i].cursor <= w.db.cursor
    ensures var step := Deliver(host, w, d);
            && Good(host, journal, step.world)
            && w.db.applied <= step.world.db.applied
            && w.status.cursor <= step.world.status.cursor
            && w.db.cursor <= step.world.db.cursor
            && (step.leg.None? ==> journal[j].cursor <= step.world.status.cursor)
  {
    if host.decode(d.body).Some? {
      StoreKeepsExact(host.decode, journal, w.db, j, host.decode(d.body).value);
    }
  }

  /** Every envelope `ds` carries is at or below `cursor`. */
  ghost predicate AtMost(journal: seq<Journaled>, ds: seq<Delivery>, cursor: nat) {
    forall m, i | 0 <= m < |ds| && Carries(journal, ds[m], i) :: journal[i].cursor <= cursor
  }

  lemma {:induction false} AtMostMore(
      journal: seq<Journaled>, done: seq<Delivery>, d: Delivery, j: int, before: nat, after: nat)
    requires AtMost(journal, done, before) && before <= after
    requires Carries(journal, d, j) && journal[j].cursor <= after
    ensures AtMost(journal, done + [d], after)
  {
    var more := done + [d];
    forall m, i | 0 <= m < |more| && Carries(journal, more[m], i) ensures journal[i].cursor <= after {
      if m < |done| { assert Carries(journal, done[m], i); }
    }
  }

  /** Part of an answer delivered, all of it at or below the status cursor, and the rest to come. */
  ghost predicate Serving(journal: seq<Journaled>, w: World, since: nat, done: seq<Delivery>, ds: seq<Delivery>) {
    since <= w.status.cursor && Serves(journal, since, done + ds) && AtMost(journal, done, w.status.cursor)
  }

  /** What a delivery never loses. */
  ghost predicate Onward(w: World, next: World) {
    w.db.applied <= next.db.applied && w.status.cursor <= next.status.cursor
  }

  lemma {:induction false} ServeOne(
      host: Host, journal: seq<Journaled>, w: World, since: nat, done: seq<Delivery>, ds: seq<Delivery>)
    requires IsJournal(journal) && Good(host, journal, w) && ds != [] && Serving(journal, w, since, done, ds)
    ensures var step := Deliver(host, w, ds[0]);
            && Good(host, journal, step.world) && Onward(w, step.world)
            && (step.leg.None? ==> Serving(journal, step.world, since, done + [ds[0]], ds[1..]))
  {
    var d, step, all := ds[0], Deliver(host, w, ds[0]), done + ds;
    assert all[|done|] == d && all[..|done|] == done && (done + [d]) + ds[1..] == all;
    if ParseU64(d.cursor).Some? {
      var j :| Carries(journal, d, j) && NoGap(journal, since, done, j);
      DeliverKeepsGood(host, journal, w, d, j);
      if step.leg.None? {
        AtMostMore(journal, done, d, j, w.status.cursor, step.world.status.cursor);
      }
    }
  }

  /** What an honest run of deliveries keeps, `all` being what was served with it and before. */
  ghost predicate Keeps(host: Host, journal: seq<Journaled>, w: World, all: seq<Delivery>, step: Step) {
    && Good(host, journal, step.world) && Onward(w, step.world)
    && (step.leg.None? ==> AtMost(journal, all, step.world.status.cursor))
  }

  lemma {:induction false} OnwardOn(a: World, b: World, c: World)
    requires Onward(a, b) && Onward(b, c)
    ensures Onward(a, c)
  {
  }

  lemma {:induction false} DeliverAllKeeps(
      host: Host, journal: seq<Journaled>, w: World, since: nat,
      done: seq<Delivery>, ds: seq<Delivery>, all: seq<Delivery>)
    requires IsJournal(journal) && Good(host, journal, w) && Serving(journal, w, since, done, ds) && all == done + ds
    ensures Keeps(host, journal, w, all, DeliverAll(host, w, ds))
    decreases |ds|
  {
    if ds == [] {
      assert all == done;
    } else {
      ServeOne(host, journal, w, since, done, ds);
      var step := Deliver(host, w, ds[0]);
      if step.leg.None? {
        assert all == (done + [ds[0]]) + ds[1..];
        DeliverAllKeeps(host, journal, step.world, since, done + [ds[0]], ds[1..], all);
        OnwardOn(w, step.world, DeliverAll(host, step.world, ds[1..]).world);
      }
    }
  }

  lemma {:induction false} DeliverAllKeepsGood(
      host: Host, journal: seq<Journaled>, w: World, since: nat,
      done: seq<Delivery>, ds: seq<Delivery>)
    requires IsJournal(journal) && Good(host, journal, w) && Serving(journal, w, since, done, ds)
    ensures var step := DeliverAll(host, w, ds);
            && Good(host, journal, step.world) && Onward(w, step.world)
            && (step.leg.None? ==> AtMost(journal, done + ds, step.world.status.cursor))
  {
    DeliverAllKeeps(host, journal, w, since, done, ds, done + ds);
  }

  // ---------------------------------------------------------------------------
  // Every run
  // ---------------------------------------------------------------------------

  /** What can happen next: a page or a stream delivered as far as it goes, or a restart. */
  datatype Op = PageLeg(events: seq<Delivery>) | StreamLeg(blocks: seq<string>) | Restart

  function RunOp(host: Host, w: World, op: Op): World {
    match op
    case PageLeg(events) => DeliverAll(host, w, events).world
    case StreamLeg(blocks) => Follow(host, w, blocks).world
    case Restart => Fresh(w.db, w.writes)
  }

  function RunOps(host: Host, w: World, ops: seq<Op>): World
    decreases |ops|
  {
    if ops == [] then w else RunOps(host, RunOp(host, w, ops[0]), ops[1..])
  }

  /** Each answer is one the service may give to the cursor the feed asked from. */
  ghost predicate ServedOp(journal: seq<Journaled>, w: World, op: Op) {
    match op
    case PageLeg(events) => Serves(journal, w.status.cursor, events)
    case StreamLeg(blocks) => Serves(journal, w.status.cursor, Asks(blocks))
    case Restart => true
  }

  ghost predicate Served(host: Host, journal: seq<Journaled>, w: World, ops: seq<Op>)
    decreases |ops|
  {
    ops != [] ==>
      ServedOp(journal, w, ops[0]) && Served(host, journal, RunOp(host, w, ops[0]), ops[1..])
  }

  lemma {:induction false} RunOpKeepsGood(host: Host, journal: seq<Journaled>, w: World, op: Op)
    requires IsJournal(journal) && Good(host, journal, w) && ServedOp(journal, w, op)
    ensures Good(host, journal, RunOp(host, w, op))
    ensures w.db.applied <= RunOp(host, w, op).db.applied
  {
    match op
    case PageLeg(events) =>
      assert [] + events == events;
      DeliverAllKeepsGood(host, journal, w, w.status.cursor, [], events);
    case StreamLeg(blocks) =>
      FollowIsDeliverAll(host, w, blocks);
      assert [] + Asks(blocks) == Asks(blocks);
      DeliverAllKeepsGood(host, journal, w, w.status.cursor, [], Asks(blocks));
    case Restart =>
      var k: nat :| HoldsPrefix(host.decode, journal, w.db, k);
      FoldApplies(host.decode, journal[..k]);
      if k > 0 { assert journal[k - 1].cursor == w.db.cursor; }
  }

  /**
   Exactly once. Over every interleaving of pages, streams, drops, repeats, storage failures
   (a commit that landed and answered an error among them) and restarts, the store is the fold
   of a journal prefix, the status never claims more than the store holds, and nothing applied
   is taken back.
   */
  lemma {:induction false} EveryRunIsExact(
      host: Host, journal: seq<Journaled>, w: World, ops: seq<Op>)
    requires IsJournal(journal) && Good(host, journal, w) && Served(host, journal, w, ops)
    ensures Good(host, journal, RunOps(host, w, ops))
    ensures w.db.applied <= RunOps(host, w, ops).db.applied
    decreases |ops|
  {
    if ops != [] {
      RunOpKeepsGood(host, journal, w, ops[0]);
      EveryRunIsExact(host, journal, RunOp(host, w, ops[0]), ops[1..]);
    }
  }

  lemma {:induction false} BirthIsGood(host: Host, journal: seq<Journaled>)
    ensures Good(host, journal, Fresh(BIRTH, 0))
  {
    assert HoldsPrefix(host.decode, journal, BIRTH, 0);
  }

  /** An envelope the decoder refuses is never passed, and one past it never applied. */
  lemma {:induction false} NothingPastAFault(host: Host, journal: seq<Journaled>, ops: seq<Op>, bad: nat)
    requires IsJournal(journal) && Served(host, journal, Fresh(BIRTH, 0), ops)
    requires bad < |journal| && host.decode(journal[bad].body).None?
    ensures RunOps(host, Fresh(BIRTH, 0), ops).db.cursor < journal[bad].cursor
    ensures forall a | a in RunOps(host, Fresh(BIRTH, 0), ops).db.applied ::
              a.cursor < journal[bad].cursor
  {
    BirthIsGood(host, journal);
    EveryRunIsExact(host, journal, Fresh(BIRTH, 0), ops);
    var db := RunOps(host, Fresh(BIRTH, 0), ops).db;
    var k: nat :| HoldsPrefix(host.decode, journal, db, k);
    FoldApplies(host.decode, journal[..k]);
    assert k <= bad by {
      assert forall i | 0 <= i < k :: journal[..k][i] == journal[i];
    }
  }

  lemma {:induction false} RunOpsAppend(host: Host, w: World, ops: seq<Op>, op: Op)
    ensures RunOps(host, w, ops + [op]) == RunOp(host, RunOps(host, w, ops), op)
    decreases |ops|
  {
    if ops == [] {
      assert RunOps(host, w, [op]) == RunOps(host, RunOp(host, w, op), []);
    } else {
      assert (ops + [op])[0] == ops[0] && (ops + [op])[1..] == ops[1..] + [op];
      RunOpsAppend(host, RunOp(host, w, ops[0]), ops[1..], op);
    }
  }

  lemma {:induction false} ServedAppend(
      host: Host, journal: seq<Journaled>, w: World, ops: seq<Op>, op: Op)
    requires Served(host, journal, w, ops) && ServedOp(journal, RunOps(host, w, ops), op)
    ensures Served(host, journal, w, ops + [op])
    decreases |ops|
  {
    if ops == [] {
      assert Served(host, journal, RunOp(host, w, op), [op][1..]);
    } else {
      assert (ops + [op])[0] == ops[0] && (ops + [op])[1..] == ops[1..] + [op];
      ServedAppend(host, journal, RunOp(host, w, ops[0]), ops[1..], op);
    }
  }

  // ---------------------------------------------------------------------------
  // The loop
  // ---------------------------------------------------------------------------

  datatype PageAnswer =
    | Page(cursor: string, events: seq<Delivery>, hasMore: bool)
    | Garbled
    | PageRefused(code: nat)
    | NoPage

  datatype StreamAnswer = Stream(chunks: seq<string>) | StreamRefused(code: nat) | NoStream

  /** What the header service answers to the n-th request from a cursor: anything honest. */
  datatype Service = Service(page: (nat, nat) -> PageAnswer, stream: (nat, nat) -> StreamAnswer)

  function StreamedBlocks(chunks: seq<string>): seq<string> {
    Drain(StripCr(Flatten(chunks))).blocks
  }

  ghost predicate HonestPage(journal: seq<Journaled>, since: nat, answer: PageAnswer) {
    answer.Page? ==>
      var events := answer.events;
      && Serves(journal, since, events)
      && (events != [] ==>
            var last := ParseU64(events[|events| - 1].cursor);
            last.Some? ==> since < last.value)
  }

  /** A page is a run after the cursor asked from, so a page with events ends past it. */
  ghost predicate Honest(journal: seq<Journaled>, service: Service) {
    && (forall n, since :: HonestPage(journal, since, service.page(n, since)))
    && (forall n, since :: service.stream(n, since).Stream? ==>
          Serves(journal, since, Asks(StreamedBlocks(service.stream(n, since).chunks))))
  }

  /** The journaled envelopes after a cursor. */
  ghost function Ahead(journal: seq<Journaled>, cursor: nat): nat {
    if journal == [] then 0
    else (if journal[0].cursor > cursor then 1 else 0) + Ahead(journal[1..], cursor)
  }

  lemma {:induction false} AheadShrinks(journal: seq<Journaled>, low: nat, high: nat)
    requires low <= high
    ensures Ahead(journal, high) <= Ahead(journal, low)
    ensures (exists i :: 0 <= i < |journal| && low < journal[i].cursor <= high)
            ==> Ahead(journal, high) < Ahead(journal, low)
  {
    if journal != [] {
      AheadShrinks(journal[1..], low, high);
      if i :| 0 <= i < |journal| && low < journal[i].cursor <= high {
        if i > 0 { assert journal[1..][i - 1] == journal[i]; }
      }
    }
  }

  lemma {:induction false} AheadByOne(journal: seq<Journaled>, low: nat, j: nat)
    requires IsJournal(journal) && j < |journal| && low < journal[j].cursor
    requires forall i | 0 <= i < j :: journal[i].cursor <= low
    ensures Ahead(journal, low) == Ahead(journal, journal[j].cursor) + 1
  {
    var rest := journal[1..];
    assert forall i | 0 <= i < |rest| :: rest[i] == journal[i + 1];
    if j == 0 {
      AllAhead(rest, low);
      AllAhead(rest, journal[0].cursor);
    } else {
      AheadByOne(rest, low, j - 1);
    }
  }

  lemma {:induction false} AllAhead(journal: seq<Journaled>, low: nat)
    requires forall i | 0 <= i < |journal| :: low < journal[i].cursor
    ensures Ahead(journal, low) == |journal|
  {
    if journal != [] {
      assert forall i | 0 <= i < |journal[1..]| :: journal[1..][i] == journal[i + 1];
      AllAhead(journal[1..], low);
    }
  }

  /** The status counts just the envelopes it has moved over. */
  ghost predicate Counts(journal: seq<Journaled>, before: World, after: World) {
    after.status.delivered + Ahead(journal, after.status.cursor)
    == before.status.delivered + Ahead(journal, before.status.cursor)
  }

  lemma {:induction false} DeliverCounts(
      host: Host, journal: seq<Journaled>, w: World, since: nat, done: seq<Delivery>, ds: seq<Delivery>)
    requires IsJournal(journal) && Good(host, journal, w) && ds != [] && Serving(journal, w, since, done, ds)
    ensures Counts(journal, w, Deliver(host, w, ds[0]).world)
  {
    var d, all := ds[0], done + ds;
    assert all[|done|] == d && all[..|done|] == done;
    var step := Deliver(host, w, d);
    if step.world.status != w.status {
      var j: nat :| Carries(journal, d, j) && NoGap(journal, since, done, j);
      AheadByOne(journal, w.status.cursor, j);
    }
  }

  lemma {:induction false} DeliverAllCounts(
      host: Host, journal: seq<Journaled>, w: World, since: nat, done: seq<Delivery>, ds: seq<Delivery>)
    requires IsJournal(journal) && Good(host, journal, w) && Serving(journal, w, since, done, ds)
    ensures Counts(journal, w, DeliverAll(host, w, ds).world)
    decreases |ds|
  {
    if ds != [] {
      ServeOne(host, journal, w, since, done, ds);
      DeliverCounts(host, journal, w, since, done, ds);
      var step := Deliver(host, w, ds[0]);
      if step.leg.None? {
        DeliverAllCounts(host, journal, step.world, since, done + [ds[0]], ds[1..]);
      }
    }
  }

  /**
   In one life of the daemon the count of deliveries is the number of journaled envelopes its cursor
   has moved over, each once, whatever was repeated, dropped or retried.
   */
  lemma {:induction false} CountsEachOnce(host: Host, journal: seq<Journaled>, w: World, ops: seq<Op>)
    requires IsJournal(journal) && Good(host, journal, w) && Served(host, journal, w, ops)
    requires forall op | op in ops :: !op.Restart?
    ensures Counts(journal, w, RunOps(host, w, ops))
    decreases |ops|
  {
    if ops != [] {
      assert ops[0] in ops && forall op | op in ops[1..] :: op in ops;
      RunOpKeepsGood(host, journal, w, ops[0]);
      OpCounts(host, journal, w, ops[0]);
      CountsEachOnce(host, journal, RunOp(host, w, ops[0]), ops[1..]);
    }
  }

  lemma {:induction false} OpCounts(host: Host, journal: seq<Journaled>, w: World, op: Op)
    requires IsJournal(journal) && Good(host, journal, w) && ServedOp(journal, w, op) && !op.Restart?
    ensures Counts(journal, w, RunOp(host, w, op))
  {
    match op
    case PageLeg(events) =>
      assert [] + events == events;
      DeliverAllCounts(host, journal, w, w.status.cursor, [], events);
    case StreamLeg(blocks) =>
      FollowIsDeliverAll(host, w, blocks);
      assert [] + Asks(blocks) == Asks(blocks);
      DeliverAllCounts(host, journal, w, w.status.cursor, [], Asks(blocks));
  }

  /** 409 and the four refusals stop; any other code is retried. */
  function RefusalLeg(w: World, code: nat): Leg {
    if code == 409 then Stop(Fault("cursorAhead", w.status.cursor, None))
    else if code in {400, 404, 405, 410} then Stop(Fault("refused", w.status.cursor, None))
    else Transient
  }

  /** What one page comes to: the end of the round, or what is asked next. */
  datatype Turned = Turned(world: World, leg: Option<Leg>, follow: bool)

  function TakePage(host: Host, w: World, answer: PageAnswer): Turned {
    match answer
    case NoPage => Turned(w, Some(Transient), false)
    case PageRefused(code) => Turned(w, Some(RefusalLeg(w, code)), false)
    case Garbled => Turned(w, Some(Stop(Fault("decode", w.status.cursor, None))), false)
    case Page(cursor, events, hasMore) =>
      var step := DeliverAll(host, w, events);
      if step.leg.Some? then Turned(step.world, step.leg, false)
      else if !hasMore then Turned(step.world, None, true)
      else if events == [] || cursor == Decimal(w.status.cursor) then Turned(step.world, Some(Transient), false)
      else Turned(step.world, None, false)
  }

  /** What one stream comes to; a connection that only drops says whether it delivered. */
  function TakeStream(host: Host, w: World, answer: StreamAnswer): Step {
    match answer
    case NoStream => Step(w, Some(Transient))
    case StreamRefused(code) => Step(w, Some(RefusalLeg(w, code)))
    case Stream(chunks) =>
      var blocks := StreamedBlocks(chunks);
      var step := Follow(host, w, blocks);
      if step.leg.Some? then step else Step(step.world, Some(Dropped(Asks(blocks) != [])))
  }

  datatype Pauses = Pauses(min: nat, max: nat)

  /** Where the loop stands between two requests: `following` when the stream is asked next. */
  datatype Loop = Loop(
    world: World, asked: nat, following: bool, rounds: nat, connects: nat,
    pause: nat, slept: seq<nat>, fault: Option<Fault>)

  function Started(w: World, asked: nat, pauses: Pauses): Loop {
    Loop(w, asked, false, 0, 0, pauses.min, [], None)
  }

  /** A round ends: on a fault for good, otherwise with a pause. */
  function EndRound(pauses: Pauses, l: Loop, leg: Leg): Loop {
    if leg.Stop? then l.(following := false, fault := Some(leg.fault))
    else
      var pause := if leg == Dropped(true) then pauses.min else l.pause;
      l.(following := false, rounds := l.rounds + 1, slept := l.slept + [pause],
         pause := Min(2 * pause, pauses.max))
  }

  function AfterPage(pauses: Pauses, l: Loop, leg: Option<Leg>, follow: bool): Loop {
    if leg.Some? then EndRound(pauses, l, leg.value) else l.(following := follow)
  }

  /** One request and what its answer does. */
  function Request(host: Host, service: Service, pauses: Pauses, l: Loop): Loop {
    if l.fault.Some? then l
    else if l.following then
      var step := TakeStream(host, l.world, service.stream(l.asked, l.world.status.cursor));
      EndRound(pauses, l.(world := step.world, asked := l.asked + 1, connects := l.connects + 1),
               if step.leg.Some? then step.leg.value else Transient)
    else
      var t := TakePage(host, l.world, service.page(l.asked, l.world.status.cursor));
      AfterPage(pauses, l.(world := t.world, asked := l.asked + 1), t.leg, t.follow)
  }

  function NthState(host: Host, service: Service, pauses: Pauses, l: Loop, k: nat): Loop {
    if k == 0 then l else Request(host, service, pauses, NthState(host, service, pauses, l, k - 1))
  }

  class Feed {
    const host: Host
    const service: Service
    const pauses: Pauses
    ghost const journal: seq<Journaled>
    var db: Db
    var status: Status
    var writes: nat
    var asked: nat
    var reconnects: nat
    var slept: seq<nat>
    var fault: Option<Fault>

    function State(): World
      reads this
    {
      World(db, status, writes)
    }

    ghost predicate Valid()
      reads this
    {
      IsJournal(journal) && Honest(journal, service) && Good(host, journal, State())
    }

    /** A start of the daemon: everything but the store begins again. */
    constructor (
        host: Host, service: Service, pauses: Pauses, ghost journal: seq<Journaled>, db: Db, writes: nat)
      requires IsJournal(journal) && Honest(journal, service) && Exact(host.decode, journal, db)
      ensures Valid() && this.host == host && this.service == service && this.journal == journal
      ensures this.pauses == pauses && asked == 0
      ensures State() == Fresh(db, writes) && fault.None? && slept == []
    {
      this.host, this.service, this.pauses, this.journal := host, service, pauses, journal;
      this.db, this.writes, this.asked := db, writes, 0;
      this.reconnects, this.slept, this.fault := 0, [], None;
      this.status := Status(db.cursor, 0);
      new;
      RunOpKeepsGood(host, journal, World(db, Status(0, 0), writes), Restart);
    }

    function StopWith(kind: string, eventCursor: Option<string>): Leg
      reads this
    {
      Stop(Fault(kind, status.cursor, eventCursor))
    }

    method DeliverOne(d: Delivery) returns (leg: Option<Leg>)
      modifies `db, `status, `writes
      ensures Step(State(), leg) == Deliver(host, old(State()), d)
    {
      var at := ParseU64(d.cursor);
      if at.None? {
        return Some(StopWith("decode", Some(d.cursor)));
      }
      var event := host.decode(d.body);
      if event.None? {
        return Some(StopWith("decode", Some(d.cursor)));
      }
      var answer := host.store(writes);
      writes := writes + 1;
      if answer != Lost {
        db := Store(db, at.value, event.value);
      }
      if answer != Landed {
        return Some(Transient);
      }
      if at.value > status.cursor {
        status := status.(cursor := at.value, delivered := status.delivered + 1);
      }
      leg := None;
    }

    method DeliverPage(events: seq<Delivery>) returns (leg: Option<Leg>)
      modifies `db, `status, `writes
      ensures Step(State(), leg) == DeliverAll(host, old(State()), events)
    {
      for i := 0 to |events|
        invariant DeliverAll(host, old(State()), events) == DeliverAll(host, State(), events[i..])
      {
        leg := DeliverOne(events[i]);
        if leg.Some? {
          return;
        }
        assert events[i..][1..] == events[i + 1..];
      }
      leg := None;
    }

    /** A page delivered; whole and not empty, it leaves less of the journal ahead. */
    method AcceptPage(events: seq<Delivery>) returns (leg: Option<Leg>)
      requires Valid() && HonestPage(journal, status.cursor, Page("", events, true))
      modifies `db, `status, `writes
      ensures Valid() && old(db.applied) <= db.applied
      ensures Step(State(), leg) == DeliverAll(host, old(State()), events)
      ensures leg.None? && events != [] ==> Ahead(journal, status.cursor) < Ahead(journal, old(status.cursor))
    {
      ghost var before := State();
      RunOpKeepsGood(host, journal, before, PageLeg(events));
      leg := DeliverPage(events);
      if leg.None? && events != [] {
        CleanPageAdvances(host, journal, before, events);
        AheadShrinks(journal, before.status.cursor, status.cursor);
      }
    }

    /** One page asked for, and what it comes to. */
    method AskPage() returns (leg: Option<Leg>, follow: bool)
      requires Valid()
      modifies `db, `status, `writes, `asked
      ensures Valid() && old(db.applied) <= db.applied && asked == old(asked) + 1
      ensures Turned(State(), leg, follow) == TakePage(host, old(State()), service.page(old(asked), old(status.cursor)))
      ensures leg.None? && !follow ==> Ahead(journal, status.cursor) < Ahead(journal, old(status.cursor))
    {
      var since := status.cursor;
      var answer := service.page(asked, since);
      assert HonestPage(journal, since, answer);
      asked, follow := asked + 1, false;
      match answer {
        case NoPage => leg := Some(Transient);
        case PageRefused(code) => leg := Some(RefusalLeg(State(), code));
        case Garbled => leg := Some(StopWith("decode", None));
        case Page(cursor, events, hasMore) =>
          leg := AcceptPage(events);
          if leg.Some? {
            return;
          }
          if !hasMore {
            follow := true;
          } else if events == [] || cursor == Decimal(since) {
            leg := Some(Transient);
          }
      }
    }

    /** The same, as the next request of a run. */
    method NextPage(ghost run: nat -> Loop, ghost k: nat) returns (leg: Option<Leg>, follow: bool)
      requires Valid() && Walks(host, service, pauses, run)
      requires var l := run(k); l.world == State() && l.asked == asked && !l.following && l.fault.None?
      modifies `db, `status, `writes, `asked
      ensures Valid() && old(db.applied) <= db.applied && asked == old(asked) + 1
      ensures run(k + 1) == AfterPage(pauses, run(k).(world := State(), asked := asked), leg, follow)
      ensures leg.None? && !follow ==> Ahead(journal, status.cursor) < Ahead(journal, old(status.cursor))
    {
      leg, follow := AskPage();
      PageRequest(host, service, pauses, run, k, State(), leg, follow);
    }

    /**
     The pages from the status cursor until one says there are no more: request by request the run
     `run`, from its `k`-th state on. It ends for any honest service: a page that is not the last has
     moved the cursor to a later journaled envelope.
     */
    method Replay(ghost run: nat -> Loop, ghost k: nat) returns (leg: Option<Leg>)
      requires Valid() && Walks(host, service, pauses, run)
      requires var l := run(k); l.world == State() && l.asked == asked && !l.following && l.fault.None?
      modifies `db, `status, `writes, `asked
      ensures Valid() && old(db.applied) <= db.applied && asked > old(asked)
      ensures run(k + asked - old(asked)) == AfterPage(pauses, run(k).(world := State(), asked := asked), leg, true)
    {
      var follow := false;
      leg := None;
      ghost var n := 0;
      while leg.None? && !follow
        invariant Valid() && old(db.applied) <= db.applied && asked == old(asked) + n
        invariant leg.Some? || follow ==> n > 0
        invariant run(k + n) == AfterPage(pauses, run(k).(world := State(), asked := asked), leg, follow)
        decreases leg.None? && !follow, Ahead(journal, status.cursor)
      {
        leg, follow := NextPage(run, k + n);
        n := n + 1;
      }
    }

    /**
     One stream connection. The buffer and the nested loops are the reader's; what they do to
     the store depends on the bytes alone, not on how they were cut.
     */
    method Connect() returns (leg: Leg)
      requires Valid()
      modifies `db, `status, `writes, `asked
      ensures Valid() && old(db.applied) <= db.applied && asked == old(asked) + 1
      ensures Step(State(), Some(leg))
           == TakeStream(host, old(State()), service.stream(old(asked), old(status.cursor)))
    {
      var answer := service.stream(asked, status.cursor);
      asked := asked + 1;
      ghost var start := State();
      match answer {
        case NoStream => leg := Transient;
        case StreamRefused(code) => leg := RefusalLeg(State(), code);
        case Stream(chunks) =>
          RunOpKeepsGood(host, journal, start, StreamLeg(StreamedBlocks(chunks)));
          leg := Read(chunks, start);
      }
    }

    method Read(chunks: seq<string>, ghost start: World) returns (leg: Leg)
      requires State() == start
      modifies `db, `status, `writes
      ensures Step(State(), Some(leg)) == TakeStream(host, start, Stream(chunks))
    {
      var buffer := "";
      var delivered := false;
      ghost var all := StreamedBlocks(chunks);
      assert "" + StripCr(Flatten(chunks)) == StripCr(Flatten(chunks));
      ChunkInvariance("", chunks);
      for i := 0 to |chunks|
        invariant FirstBlank(buffer).None?
        invariant Follow(host, start, all) == Follow(host, State(), Fed(buffer, chunks[i..]).blocks)
        invariant Asks(all) != [] <==> delivered || Asks(Fed(buffer, chunks[i..]).blocks) != []
      {
        assert chunks[i..][1..] == chunks[i + 1..];
        buffer := buffer + StripCr(chunks[i]);
        ghost var now, later := State(), Fed(Drain(buffer).rest, chunks[i + 1..]).blocks;
        ghost var cut := Drain(buffer).blocks;
        FollowAppend(host, State(), Drain(buffer).blocks, Fed(Drain(buffer).rest, chunks[i + 1..]).blocks);
        RestIsDrained(buffer);
        var ended, took;
        ended, took, buffer := DrainBuffer(buffer);
        if ended.Some? {
          return ended.value;
        }
        AsksAppend(host, now, cut, later);
        delivered := delivered || took;
      }
      leg := Dropped(delivered);
    }

    /** One block of the stream: a comment, an error event, or an envelope to deliver. */
    method TakeBlock(block: string) returns (leg: Option<Leg>, took: bool)
      modifies `db, `status, `writes
      ensures Step(State(), leg) == FollowOne(host, old(State()), block)
      ensures leg.None? ==> (took <==> Ask(Parsed(block)).Take?)
    {
      var message := Parse(block);
      match Ask(message) {
        case Skip => leg, took := None, false;
        case End(kind, at) => leg, took := Some(StopWith(kind, at)), false;
        case Take(d) =>
          leg := DeliverOne(d);
          took := leg.None?;
      }
    }

    /** The first block off the buffer, delivered. */
    method TakeFirst(bytes: string, end: nat, ghost cut: Cut) returns (leg: Option<Leg>, took: bool, rest: string)
      requires FirstBlank(bytes) == Some(end) && Drain(bytes) == cut
      modifies `db, `status, `writes
      ensures |rest| < |bytes| && cut.blocks != [] && Drain(rest) == Cut(cut.blocks[1..], cut.rest)
      ensures Step(State(), leg) == FollowOne(host, old(State()), cut.blocks[0])
      ensures leg.None? ==> (took <==> Ask(Parsed(cut.blocks[0])).Take?)
    {
      DrainFirst(bytes, end, cut);
      rest := bytes[end + 2..];
      leg, took := TakeBlock(bytes[..end + 2]);
    }

    /** The inner loop: each block off the buffer, read and delivered. */
    method DrainBuffer(bytes: string) returns (leg: Option<Leg>, took: bool, buffer: string)
      modifies `db, `status, `writes
      ensures Step(State(), leg) == Follow(host, old(State()), Drain(bytes).blocks)
      ensures leg.None? ==> buffer == Drain(bytes).rest && (took <==> Asks(Drain(bytes).blocks) != [])
    {
      buffer, took := bytes, false;
      ghost var cut, start, all := Drain(bytes), State(), Drain(bytes);
      var end := FirstBlank(buffer);
      while end.Some?
        invariant end == FirstBlank(buffer) && Drain(buffer) == cut && cut.rest == all.rest
        invariant Follow(host, start, all.blocks) == Follow(host, State(), cut.blocks)
        invariant Asks(all.blocks) != [] <==> took || Asks(cut.blocks) != []
        decreases |buffer|
      {
        var delivered: bool;
        leg, delivered, buffer := TakeFirst(buffer, end.value, cut);
        if leg.Some? {
          return;
        }
        took := took || delivered;
        cut := Cut(cut.blocks[1..], cut.rest);
        end := FirstBlank(buffer);
      }
      leg := None;
    }

    /** A stream, as the next request of a run. */
    method NextStream(ghost run: nat -> Loop, ghost k: nat) returns (leg: Leg)
      requires Valid() && Walks(host, service, pauses, run)
      requires var l := run(k); l.world == State() && l.asked == asked && l.following && l.fault.None?
      modifies `db, `status, `writes, `asked
      ensures Valid() && old(db.applied) <= db.applied && asked == old(asked) + 1
      ensures var l := run(k);
              run(k + 1) == EndRound(pauses, l.(world := State(), asked := asked, connects := l.connects + 1), leg)
    {
      leg := Connect();
      StreamRequest(host, service, pauses, run, k, State(), leg);
    }

    /** One round: the pages, then one stream once they are through. */
    method Round(ghost run: nat -> Loop, ghost k: nat, connects: nat) returns (leg: Leg, connected: nat)
      requires Valid() && Walks(host, service, pauses, run)
      requires var l := run(k);
               l.world == State() && l.asked == asked && l.connects == connects && !l.following && l.fault.None?
      modifies `db, `status, `writes, `asked, `reconnects
      ensures Valid() && old(db.applied) <= db.applied && asked > old(asked) && connected >= connects
      ensures run(k + asked - old(asked))
           == EndRound(pauses, run(k).(world := State(), asked := asked, connects := connected), leg)
      ensures reconnects == if connected > connects then connected - 1 else old(reconnects)
    {
      var ended := Replay(run, k);
      connected := connects;
      if ended.None? {
        leg := NextStream(run, k + asked - old(asked));
        connected := connects + 1;
        reconnects := connected - 1;
      } else {
        leg := ended.value;
      }
    }

    /** The rounds, along the run that starts where the loop does. */
    method Rounds(rounds: nat, ghost run: nat -> Loop)
      requires Valid() && fault.None? && slept == [] && Walks(host, service, pauses, run)
      requires run(0) == Started(State(), asked, pauses)
      modifies this
      ensures Valid() && old(db.applied) <= db.applied && asked >= old(asked)
      ensures fault.None? ==> asked >= old(asked) + rounds
      ensures var end := run(asked - old(asked));
              && end.world == State() && end.asked == asked && end.fault == fault && end.slept == slept
              && (if fault.Some? then end.rounds < rounds else end.rounds == rounds && !end.following)
              && (end.connects > 0 ==> reconnects == end.connects - 1)
    {
      ghost var asked0 := asked;
      var connects, pause := 0, pauses.min;
      for round := 0 to rounds
        invariant Valid() && old(db.applied) <= db.applied && fault.None? && asked >= asked0 + round
        invariant run(asked - asked0) == Loop(State(), asked, false, round, connects, pause, slept, None)
        invariant connects > 0 ==> reconnects == connects - 1
      {
        ghost var k := asked - asked0;
        var leg;
        leg, connects := Round(run, k, connects);
        if leg.Stop? {
          fault := Some(leg.fault);
          return;
        }
        if leg == Dropped(true) {
          pause := pauses.min;
        }
        slept := slept + [pause];
        pause := Min(2 * pause, pauses.max);
      }
    }

    /**
     The first `rounds` rounds of the loop, which has no other end than a fault: request by request
     they are a run, up to the one whose answer stops it.
     */
    method Run(rounds: nat) returns (ghost run: nat -> Loop, ghost ran: seq<Op>)
      requires Valid() && fault.None? && slept == []
      modifies this
      ensures Valid() && old(db.applied) <= db.applied && asked >= old(asked)
      ensures Walks(host, service, pauses, run) && run(0) == Started(old(State()), old(asked), pauses)
      ensures Served(host, journal, old(State()), ran) && State() == RunOps(host, old(State()), ran)
      ensures fault.None? ==> asked >= old(asked) + rounds
      ensures var end := run(asked - old(asked));
              && end.world == State() && end.asked == asked && end.fault == fault && end.slept == slept
              && (if fault.Some? then end.rounds < rounds else end.rounds == rounds && !end.following)
              && (end.connects > 0 ==> reconnects == end.connects - 1)
    {
      ghost var asked0 := asked;
      run := Along(host, service, pauses, Started(State(), asked, pauses));
      Rounds(rounds, run);
      ran := WalkIsServed(host, service, pauses, journal, run, asked - asked0);
    }
  }

  /** A run, state by state. */
  ghost predicate Walks(host: Host, service: Service, pauses: Pauses, run: nat -> Loop) {
    forall k: nat {:trigger Request(host, service, pauses, run(k))} ::
      run(k + 1) == Request(host, service, pauses, run(k))
  }

  lemma {:induction false} Along(host: Host, service: Service, pauses: Pauses, l: Loop) returns (run: nat -> Loop)
    ensures Walks(host, service, pauses, run) && run(0) == l
  {
    run := (k: nat) => NthState(host, service, pauses, l, k);
  }

  lemma {:induction false} NextState(
      host: Host, service: Service, pauses: Pauses, run: nat -> Loop, k: nat) returns (l: Loop, next: Loop)
    requires Walks(host, service, pauses, run) && k > 0
    ensures l == run(k - 1) && next == run(k) && next == Request(host, service, pauses, l)
  {
    l, next := run(k - 1), run((k - 1) + 1);
    assert next == Request(host, service, pauses, l);
  }

  /** What one answer does is one leg of a served run, or nothing. */
  lemma {:induction false} RequestIsServed(
      host: Host, service: Service, pauses: Pauses, journal: seq<Journaled>, l: Loop) returns (legs: seq<Op>)
    requires Honest(journal, service)
    ensures |legs| <= 1 && Served(host, journal, l.world, legs)
    ensures RunOps(host, l.world, legs) == Request(host, service, pauses, l).world
  {
    legs := [];
    if l.fault.None? && l.following {
      var answer := service.stream(l.asked, l.world.status.cursor);
      if answer.Stream? {
        legs := [StreamLeg(StreamedBlocks(answer.chunks))];
      }
    } else if l.fault.None? {
      var answer := service.page(l.asked, l.world.status.cursor);
      assert HonestPage(journal, l.world.status.cursor, answer);
      if answer.Page? {
        legs := [PageLeg(answer.events)];
      }
    }
    if legs != [] {
      assert legs[1..] == [];
    }
  }

  /** Every run of requests is a served run, so what holds over every run holds of the loop. */
  lemma {:induction false} WalkIsServed(
      host: Host, service: Service, pauses: Pauses, journal: seq<Journaled>, run: nat -> Loop, k: nat)
      returns (ops: seq<Op>)
    requires Walks(host, service, pauses, run) && Honest(journal, service)
    ensures Served(host, journal, run(0).world, ops) && RunOps(host, run(0).world, ops) == run(k).world
  {
    ops := [];
    if k > 0 {
      ops := WalkIsServed(host, service, pauses, journal, run, k - 1);
      var l, next := NextState(host, service, pauses, run, k);
      var legs := RequestIsServed(host, service, pauses, journal, l);
      ops := ServedMore(host, journal, run(0).world, ops, legs);
    }
  }

  lemma {:induction false} ServedMore(
      host: Host, journal: seq<Journaled>, w: World, ops: seq<Op>, legs: seq<Op>) returns (more: seq<Op>)
    requires Served(host, journal, w, ops) && |legs| <= 1 && Served(host, journal, RunOps(host, w, ops), legs)
    ensures Served(host, journal, w, more)
    ensures RunOps(host, w, more) == RunOps(host, RunOps(host, w, ops), legs)
  {
    if legs == [] {
      more := ops;
    } else {
      assert legs == [legs[0]] && legs[1..] == [];
      ServedAppend(host, journal, w, ops, legs[0]);
      RunOpsAppend(host, w, ops, legs[0]);
      more := ops + [legs[0]];
    }
  }

  lemma {:induction false} PageRequest(
      host: Host, service: Service, pauses: Pauses, run: nat -> Loop, k: nat,
      world: World, leg: Option<Leg>, follow: bool)
    requires Walks(host, service, pauses, run) && !run(k).following && run(k).fault.None?
    requires var l := run(k);
             Turned(world, leg, follow) == TakePage(host, l.world, service.page(l.asked, l.world.status.cursor))
    ensures run(k + 1) == AfterPage(pauses, run(k).(world := world, asked := run(k).asked + 1), leg, follow)
  {
    assert run(k + 1) == Request(host, service, pauses, run(k));
  }

  lemma {:induction false} StreamRequest(
      host: Host, service: Service, pauses: Pauses, run: nat -> Loop, k: nat, world: World, leg: Leg)
    requires Walks(host, service, pauses, run) && run(k).following && run(k).fault.None?
    requires var l := run(k);
             Step(world, Some(leg)) == TakeStream(host, l.world, service.stream(l.asked, l.world.status.cursor))
    ensures var l := run(k);
            run(k + 1) == EndRound(pauses, l.(world := world, asked := l.asked + 1, connects := l.connects + 1), leg)
  {
    assert run(k + 1) == Request(host, service, pauses, run(k));
  }

  /** A page delivered whole, and not empty, moves the status to a later journaled envelope. */
  lemma {:induction false} CleanPageAdvances(host: Host, journal: seq<Journaled>, w: World, events: seq<Delivery>)
    requires IsJournal(journal) && Good(host, journal, w) && events != []
    requires HonestPage(journal, w.status.cursor, Page("", events, true))
    requires DeliverAll(host, w, events).leg.None?
    ensures var now := DeliverAll(host, w, events).world.status.cursor;
            exists i :: 0 <= i < |journal| && w.status.cursor < journal[i].cursor <= now
  {
    assert [] + events == events;
    DeliverAllKeepsGood(host, journal, w, w.status.cursor, [], events);
    CleanCursorsParse(host, w, events);
    assert events[|events| - 1] in events;
    LastIsPast(journal, w.status.cursor, events, DeliverAll(host, w, events).world.status.cursor);
  }

  lemma {:induction false} LastIsPast(journal: seq<Journaled>, since: nat, events: seq<Delivery>, now: nat)
    requires Serves(journal, since, events) && AtMost(journal, events, now) && events != []
    requires var last := ParseU64(events[|events| - 1].cursor); last.Some? && since < last.value
    ensures exists i :: 0 <= i < |journal| && since < journal[i].cursor <= now
  {
    var last := |events| - 1;
    var j :| Carries(journal, events[last], j) && NoGap(journal, since, events[..last], j);
  }

  lemma {:induction false} CleanCursorsParse(host: Host, w: World, ds: seq<Delivery>)
    requires DeliverAll(host, w, ds).leg.None?
    ensures forall d | d in ds :: ParseU64(d.cursor).Some?
    decreases |ds|
  {
    if ds != [] {
      CleanCursorsParse(host, Deliver(host, w, ds[0]).world, ds[1..]);
    }
  }

  // ---------------------------------------------------------------------------
  // What ends a leg, on what the service and the store answered
  // ---------------------------------------------------------------------------

  /** An envelope no delivery gets past: its cursor is no decimal, or the decoder refuses it. */
  predicate Bad(host: Host, d: Delivery) {
    ParseU64(d.cursor).None? || host.decode(d.body).None?
  }

  /** A good envelope, and its storage call landed. */
  ghost predicate StoredAt(host: Host, writes: nat, ds: seq<Delivery>, i: nat)
    requires i < |ds|
  {
    !Bad(host, ds[i]) && host.store(writes + i) == Landed
  }

  /** The first `m` are stored. */
  ghost predicate Passes(host: Host, writes: nat, ds: seq<Delivery>, m: nat) {
    m <= |ds| && forall i: nat | i < m :: StoredAt(host, writes, ds, i)
  }

  /** The `m`-th is the first that is not stored and known to be. */
  ghost predicate EndsAt(host: Host, writes: nat, ds: seq<Delivery>, m: nat) {
    m < |ds| && Passes(host, writes, ds, m) && !StoredAt(host, writes, ds, m)
  }

  /** The `m`-th is bad, and every one before it is stored. */
  ghost predicate BadAt(host: Host, writes: nat, ds: seq<Delivery>, m: nat) {
    m < |ds| && Passes(host, writes, ds, m) && Bad(host, ds[m])
  }

  lemma {:induction false} DeliverAllAppend(host: Host, w: World, a: seq<Delivery>, b: seq<Delivery>)
    ensures var first := DeliverAll(host, w, a);
            DeliverAll(host, w, a + b) == if first.leg.Some? then first else DeliverAll(host, first.world, b)
    decreases |a|
  {
    if a == [] {
      assert a + b == b;
    } else {
      assert (a + b)[0] == a[0] && (a + b)[1..] == a[1..] + b;
      var first := Deliver(host, w, a[0]);
      if first.leg.None? {
        DeliverAllAppend(host, first.world, a[1..], b);
      }
    }
  }

  /** What one delivery ends in. */
  lemma {:induction false} DeliverEnds(host: Host, w: World, d: Delivery)
    ensures var step := Deliver(host, w, d);
            && (step.leg.None? <==> !Bad(host, d) && host.store(w.writes) == Landed)
            && (step.leg.None? ==> step.world.writes == w.writes + 1)
            && (step.leg.Some? ==>
                  step.leg.value == if Bad(host, d) then Stop(Fault("decode", step.world.status.cursor, Some(d.cursor)))
                                    else Transient)
  {
  }

  ghost predicate EndsRight(host: Host, ds: seq<Delivery>, m: nat, step: Step)
    requires m < |ds|
  {
    step.leg == Some(if Bad(host, ds[m]) then Stop(Fault("decode", step.world.status.cursor, Some(ds[m].cursor)))
                     else Transient)
  }

  lemma {:induction false} SamePasses(host: Host, writes: nat, ds: seq<Delivery>, front: seq<Delivery>)
    requires ds != [] && front == ds[..|ds| - 1]
    ensures forall m: nat | m <= |front| :: Passes(host, writes, ds, m) == Passes(host, writes, front, m)
    ensures forall m: nat | m < |front| :: EndsAt(host, writes, ds, m) == EndsAt(host, writes, front, m)
    ensures Passes(host, writes, ds, |ds|) <==>
              Passes(host, writes, front, |front|) && StoredAt(host, writes, ds, |front|)
  {
    assert forall i: nat | i < |front| :: StoredAt(host, writes, ds, i) == StoredAt(host, writes, front, i);
  }

  /** How deliveries end: a bad envelope stops, a storage call that did not land is retried. */
  lemma {:induction false} DeliverAllEnds(host: Host, w: World, ds: seq<Delivery>)
    ensures var step := DeliverAll(host, w, ds);
            && (step.leg.None? <==> Passes(host, w.writes, ds, |ds|))
            && (step.leg.None? ==> step.world.writes == w.writes + |ds|)
            && (step.leg.Some? ==> exists m: nat :: EndsAt(host, w.writes, ds, m) && EndsRight(host, ds, m, step))
    decreases |ds|
  {
    if ds != [] {
      var front, last := ds[..|ds| - 1], ds[|ds| - 1];
      DeliverAllEnds(host, w, front);
      DeliverAllAppend(host, w, front, [last]);
      assert ds == front + [last] && [last][1..] == [];
      var before := DeliverAll(host, w, front);
      SamePasses(host, w.writes, ds, front);
      if before.leg.Some? {
        var m: nat :| EndsAt(host, w.writes, front, m) && EndsRight(host, front, m, before);
        assert ds[m] == front[m] && EndsAt(host, w.writes, ds, m) && EndsRight(host, ds, m, before);
      } else {
        DeliverEnds(host, before.world, last);
        if DeliverAll(host, w, ds).leg.Some? {
          assert EndsAt(host, w.writes, ds, |front|) && EndsRight(host, ds, |front|, DeliverAll(host, w, ds));
        }
      }
    }
  }

  /** A block that ends the stream: an error, an envelope with no id, or one no delivery gets past. */
  ghost predicate BlockStops(host: Host, block: string) {
    var m := Parsed(block);
    || m.event == Some("error")
    || (m.data.Some? && m.id.None?)
    || (m.data.Some? && m.id.Some? && Bad(host, Delivery(m.id.value, m.data.value)))
  }

  /** The `k`-th block is the first to end the stream, and every call before it landed. */
  ghost predicate StopsAt(host: Host, w: World, blocks: seq<string>, k: nat) {
    && k < |blocks| && BlockStops(host, blocks[k])
    && (forall i: nat | i < k :: !BlockStops(host, blocks[i]))
    && Passes(host, w.writes, Asks(blocks[..k]), |Asks(blocks[..k])|)
  }

  /** No block ends the stream, and every storage call its envelopes make lands. */
  ghost predicate Through(host: Host, writes: nat, blocks: seq<string>) {
    && (forall i: nat | i < |blocks| :: !BlockStops(host, blocks[i]))
    && Passes(host, writes, Asks(blocks), |Asks(blocks)|)
  }

  lemma {:induction false} ThroughJoin(host: Host, writes: nat, front: seq<string>, last: string)
    ensures Through(host, writes, front) ==> |Asks(front + [last])| == |Asks(front)| + |Asks([last])|
    ensures Through(host, writes, front + [last]) <==>
              Through(host, writes, front) && Through(host, writes + |Asks(front)|, [last])
  {
    var blocks := front + [last];
    assert blocks[|front|] == last && forall i: nat | i < |front| :: blocks[i] == front[i];
    if forall i: nat | i < |front| :: !BlockStops(host, front[i]) {
      AsksJoin(front, [last]);
      PassesJoin(host, writes, Asks(front), Asks([last]));
    }
  }

  /** A stream is followed through exactly when no block ends it and every call landed. */
  lemma {:induction false} FollowPasses(host: Host, w: World, blocks: seq<string>)
    ensures Follow(host, w, blocks).leg.None? <==> Through(host, w.writes, blocks)
    ensures Follow(host, w, blocks).leg.None? ==>
              Follow(host, w, blocks).world.writes == w.writes + |Asks(blocks)|
    decreases |blocks|
  {
    if blocks != [] {
      var front, last := FrontAndLast(blocks);
      FollowPasses(host, w, front);
      var first := Followed(host, w, front, last);
      ThroughJoin(host, w.writes, front, last);
    }
  }

  lemma {:induction false} FrontAndLast(blocks: seq<string>) returns (front: seq<string>, last: string)
    requires blocks != []
    ensures blocks == front + [last] && |front| < |blocks|
  {
    front, last := blocks[..|blocks| - 1], blocks[|blocks| - 1];
  }

  /** A stream and one more block. */
  lemma {:induction false} Followed(host: Host, w: World, front: seq<string>, last: string) returns (first: Step)
    ensures first == Follow(host, w, front)
    ensures var step := Follow(host, w, front + [last]);
            if first.leg.Some? then step == first
            else && (step.leg.None? <==> Through(host, first.world.writes, [last]))
                 && (step.leg.None? ==> step.world.writes == first.world.writes + |Asks([last])|)
                 && (step.leg.Some? ==> !step.leg.value.Dropped?)
                 && (step.leg.Some? && step.leg.value.Stop? <==> BlockStops(host, last))
                 && (step.leg.Some? && step.leg.value.Stop? ==>
                       step.leg.value.fault.cursor == step.world.status.cursor)
  {
    first := Follow(host, w, front);
    FollowAppend(host, w, front, [last]);
    OneFollowed(host, first.world, last);
  }

  lemma {:induction false} OneFollowed(host: Host, w: World, block: string)
    ensures Follow(host, w, [block]) == FollowOne(host, w, block)
    ensures var step := FollowOne(host, w, block);
            && (step.leg.None? <==> Through(host, w.writes, [block]))
            && (step.leg.None? ==> step.world.writes == w.writes + |Asks([block])|)
            && (step.leg.Some? ==> !step.leg.value.Dropped?)
            && (step.leg.Some? && step.leg.value.Stop? <==> BlockStops(host, block))
            && (step.leg.Some? && step.leg.value.Stop? ==> step.leg.value.fault.cursor == step.world.status.cursor)
  {
    assert [block][1..] == [];
    match Ask(Parsed(block))
    case Take(d) =>
      DeliverEnds(host, w, d);
      assert Asks([block]) == [d];
      assert StoredAt(host, w.writes, [d], 0) <==> !Bad(host, d) && host.store(w.writes) == Landed;
      assert BlockStops(host, [block][0]) == Bad(host, d);
    case Skip => assert !BlockStops(host, block) && Asks([block]) == [];
    case End(_, _) => assert BlockStops(host, [block][0]);
  }

  lemma {:induction false} PassesJoin(host: Host, writes: nat, a: seq<Delivery>, b: seq<Delivery>)
    ensures Passes(host, writes, a + b, |a + b|) <==>
              Passes(host, writes, a, |a|) && Passes(host, writes + |a|, b, |b|)
  {
    forall i: nat | i < |a| ensures StoredAt(host, writes, a + b, i) == StoredAt(host, writes, a, i) {
    }
    forall i: nat | |a| <= i < |a + b|
      ensures StoredAt(host, writes, a + b, i) == StoredAt(host, writes + |a|, b, i - |a|)
    {
    }
    if Passes(host, writes, a + b, |a + b|) {
      var after := writes + |a|;
      forall i: nat | i < |b| ensures StoredAt(host, after, b, i) {
        assert StoredAt(host, writes, a + b, |a| + i);
      }
    }
  }

  /** A stream stops the loop exactly when some block is the first to end it. */
  lemma {:induction false} FollowStops(host: Host, w: World, blocks: seq<string>)
    ensures var step := Follow(host, w, blocks);
            && (step.leg.Some? && step.leg.value.Stop? <==> exists k: nat :: StopsAt(host, w, blocks, k))
            && (step.leg.Some? ==> !step.leg.value.Dropped?)
            && (step.leg.Some? && step.leg.value.Stop? ==> step.leg.value.fault.cursor == step.world.status.cursor)
    decreases |blocks|
  {
    if blocks != [] {
      var front, last := FrontAndLast(blocks);
      FollowStops(host, w, front);
      FollowPasses(host, w, front);
      var first := Followed(host, w, front, last);
      LastToStop(host, w, front, last);
      if first.leg.None? && BlockStops(host, last) {
        assert StopsAt(host, w, blocks, |front|);
      }
    }
  }

  lemma {:induction false} LastToStop(host: Host, w: World, front: seq<string>, last: string)
    ensures forall k: nat | k < |front| :: StopsAt(host, w, front + [last], k) <==> StopsAt(host, w, front, k)
    ensures StopsAt(host, w, front + [last], |front|) <==> Through(host, w.writes, front) && BlockStops(host, last)
  {
    var blocks := front + [last];
    forall k: nat | k < |front| ensures StopsAt(host, w, blocks, k) <==> StopsAt(host, w, front, k) {
      assert blocks[..k] == front[..k];
      assert forall i: nat | i <= k :: blocks[i] == front[i];
    }
    assert blocks[..|front|] == front && forall i: nat | i < |front| :: blocks[i] == front[i];
  }

  const STOPPING := {400, 404, 405, 409, 410}

  /** The answer to this request stops the loop for good. */
  ghost predicate AnswerStops(host: Host, service: Service, l: Loop) {
    var w := l.world;
    if l.following then
      var answer := service.stream(l.asked, w.status.cursor);
      || (answer.StreamRefused? && answer.code in STOPPING)
      || (answer.Stream? && exists k :: StopsAt(host, w, StreamedBlocks(answer.chunks), k))
    else
      var answer := service.page(l.asked, w.status.cursor);
      || answer.Garbled?
      || (answer.PageRefused? && answer.code in STOPPING)
      || (answer.Page? && exists m: nat :: BadAt(host, w.writes, answer.events, m))
  }

  /** A request ends the loop exactly when its answer is one that stops it, at the cursor it leaves. */
  lemma {:induction false} RequestStops(host: Host, service: Service, pauses: Pauses, l: Loop)
    requires l.fault.None?
    ensures var next := Request(host, service, pauses, l);
            && next.asked == l.asked + 1
            && (next.fault.Some? <==> AnswerStops(host, service, l))
            && (next.fault.Some? ==> next.fault.value.cursor == next.world.status.cursor)
  {
    var w := l.world;
    if l.following {
      var answer := service.stream(l.asked, w.status.cursor);
      if answer.Stream? {
        FollowStops(host, w, StreamedBlocks(answer.chunks));
      }
    } else {
      var answer := service.page(l.asked, w.status.cursor);
      if answer.Page? {
        PageStops(host, w, answer.events);
      }
    }
  }

  lemma {:induction false} OneEnd(host: Host, writes: nat, ds: seq<Delivery>, m: nat, n: nat)
    requires EndsAt(host, writes, ds, m) && EndsAt(host, writes, ds, n)
    ensures m == n
  {
  }

  lemma {:induction false} PageStops(host: Host, w: World, ds: seq<Delivery>)
    ensures var step := DeliverAll(host, w, ds);
            && (step.leg.Some? && step.leg.value.Stop? <==> exists m: nat :: BadAt(host, w.writes, ds, m))
            && (step.leg.Some? ==> !step.leg.value.Dropped?)
            && (step.leg.Some? && step.leg.value.Stop? ==> step.leg.value.fault.cursor == step.world.status.cursor)
  {
    var step := DeliverAll(host, w, ds);
    DeliverAllEnds(host, w, ds);
    forall n: nat | BadAt(host, w.writes, ds, n) ensures EndsAt(host, w.writes, ds, n) {
    }
    if step.leg.Some? {
      var m: nat :| EndsAt(host, w.writes, ds, m) && EndsRight(host, ds, m, step);
      assert step.leg.value.Stop? ==> BadAt(host, w.writes, ds, m);
      forall n: nat | BadAt(host, w.writes, ds, n) ensures n == m {
        OneEnd(host, w.writes, ds, m, n);
      }
    }
  }

  /**
   Over whole runs: no answer before the last request made stops the loop, and the loop has stopped
   exactly when the last one does.
   */
  lemma {:induction false} RunStopsExactly(
      host: Host, service: Service, pauses: Pauses, run: nat -> Loop, k: nat)
    requires Walks(host, service, pauses, run) && run(0).fault.None? && run(k).asked == run(0).asked + k
    ensures forall j: nat | j + 1 < k :: !AnswerStops(host, service, run(j))
    ensures run(k).fault.Some? <==> k > 0 && AnswerStops(host, service, run(k - 1))
    ensures run(k).fault.Some? ==> run(k).fault.value.cursor == run(k).world.status.cursor
  {
    if k > 0 {
      AskedAtMost(host, service, pauses, run, k - 1);
      var l, next := Turn(host, service, pauses, run, k);
      RunStopsExactly(host, service, pauses, run, k - 1);
    }
  }

  lemma {:induction false} AskedAtMost(
      host: Host, service: Service, pauses: Pauses, run: nat -> Loop, k: nat)
    requires Walks(host, service, pauses, run)
    ensures run(k).asked <= run(0).asked + k
  {
    if k > 0 {
      AskedAtMost(host, service, pauses, run, k - 1);
      var l, next := Turn(host, service, pauses, run, k);
    }
  }

  /** A loop that has stopped asks nothing more; one that has not asks once. */
  lemma {:induction false} Turn(
      host: Host, service: Service, pauses: Pauses, run: nat -> Loop, k: nat) returns (l: Loop, next: Loop)
    requires Walks(host, service, pauses, run) && k > 0
    ensures l == run(k - 1) && next == run(k)
    ensures if l.fault.Some? then next == l
            else && next.asked == l.asked + 1
                 && (next.fault.Some? <==> AnswerStops(host, service, l))
                 && (next.fault.Some? ==> next.fault.value.cursor == next.world.status.cursor)
  {
    l, next := NextState(host, service, pauses, run, k);
    if l.fault.None? {
      RequestStops(host, service, pauses, l);
    }
  }

  /**
   A page delivered whole: the stream comes next exactly when it was the last; the next page when it
   moved on; and a page that says there is more with nothing in it, or at the cursor asked from, ends the
   round.
   */
  lemma {:induction false} WholePageTurns(host: Host, service: Service, pauses: Pauses, l: Loop)
    requires l.fault.None? && !l.following
    requires var answer := service.page(l.asked, l.world.status.cursor);
             answer.Page? && Passes(host, l.world.writes, answer.events, |answer.events|)
    ensures var answer := service.page(l.asked, l.world.status.cursor);
            var next := Request(host, service, pauses, l);
            var stands := answer.events == [] || answer.cursor == Decimal(l.world.status.cursor);
            && next.fault.None? && next.world == DeliverAll(host, l.world, answer.events).world
            && (next.following <==> !answer.hasMore)
            && next.rounds == l.rounds + (if answer.hasMore && stands then 1 else 0)
  {
    DeliverAllEnds(host, l.world, service.page(l.asked, l.world.status.cursor).events);
  }

  // ---------------------------------------------------------------------------
  // Catching up
  // ---------------------------------------------------------------------------

  /** The page carries every journaled envelope after the cursor asked from. */
  ghost predicate ServesAllAhead(journal: seq<Journaled>, since: nat, events: seq<Delivery>) {
    forall i: nat | i < |journal| && since < journal[i].cursor ::
      exists m: nat :: m < |events| && Carries(journal, events[m], i)
  }

  /** A page that says it is the last carries all there is. */
  ghost predicate LastPagesAreWhole(journal: seq<Journaled>, service: Service) {
    forall n, since :: WholeIfLast(journal, since, service.page(n, since))
  }

  ghost predicate WholeIfLast(journal: seq<Journaled>, since: nat, answer: PageAnswer) {
    answer.Page? && !answer.hasMore ==> ServesAllAhead(journal, since, answer.events)
  }

  lemma {:induction false} NoneAhead(journal: seq<Journaled>, cursor: nat)
    requires forall i: nat | i < |journal| :: journal[i].cursor <= cursor
    ensures Ahead(journal, cursor) == 0
  {
    if journal != [] {
      assert forall i: nat | i < |journal[1..]| :: journal[1..][i] == journal[i + 1];
      NoneAhead(journal[1..], cursor);
    }
  }

  lemma {:induction false} NextIsAhead(decode: Decoder, journal: seq<Journaled>, db: Db, k: nat)
    requires IsJournal(journal) && HoldsPrefix(decode, journal, db, k) && k < |journal|
    ensures db.cursor < journal[k].cursor
  {
    FoldApplies(decode, journal[..k]);
  }

  /** A store past every cursor is the fold of the whole journal. */
  lemma {:induction false} PastAllIsWhole(host: Host, journal: seq<Journaled>, w: World)
    requires IsJournal(journal) && Good(host, journal, w)
    requires forall i: nat | i < |journal| :: journal[i].cursor <= w.status.cursor
    ensures Decodes(host.decode, journal) && w.db == Fold(host.decode, journal)
  {
    var k: nat :| HoldsPrefix(host.decode, journal, w.db, k);
    if k < |journal| {
      NextIsAhead(host.decode, journal, w.db, k);
      assert false;
    }
    assert journal[..|journal|] == journal;
  }

  lemma {:induction false} NoneLeft(journal: seq<Journaled>, since: nat, events: seq<Delivery>, now: nat)
    requires ServesAllAhead(journal, since, events) && AtMost(journal, events, now) && since <= now
    ensures forall i: nat | i < |journal| :: journal[i].cursor <= now
  {
    forall i: nat | i < |journal| ensures journal[i].cursor <= now {
      if since < journal[i].cursor {
        var m: nat :| m < |events| && Carries(journal, events[m], i);
      }
    }
  }

  /**
   From a service whose last pages are whole, once the pages are through there is nothing ahead:
   every journaled envelope has been applied, each once.
   */
  lemma {:induction false} CaughtUp(
      host: Host, service: Service, pauses: Pauses, journal: seq<Journaled>, l: Loop)
    requires IsJournal(journal) && Honest(journal, service) && LastPagesAreWhole(journal, service)
    requires Good(host, journal, l.world) && l.fault.None? && !l.following
    requires Request(host, service, pauses, l).following
    ensures var w := Request(host, service, pauses, l).world;
            && Ahead(journal, w.status.cursor) == 0
            && Decodes(host.decode, journal) && w.db == Fold(host.decode, journal)
  {
    var since := l.world.status.cursor;
    var answer := service.page(l.asked, since);
    assert HonestPage(journal, since, answer) && WholeIfLast(journal, since, answer);
    var step := DeliverAll(host, l.world, answer.events);
    assert [] + answer.events == answer.events;
    DeliverAllKeepsGood(host, journal, l.world, since, [], answer.events);
    NoneLeft(journal, since, answer.events, step.world.status.cursor);
    NoneAhead(journal, step.world.status.cursor);
    PastAllIsWhole(host, journal, step.world);
  }

  /** A service that is there: pages that decode, and that move the cursor while there are more. */
  ghost predicate Live(host: Host, journal: seq<Journaled>, service: Service) {
    && LastPagesAreWhole(journal, service)
    && (forall n :: host.store(n) == Landed)
    && forall n, since :: LivePage(host, since, service.page(n, since))
  }

  ghost predicate LivePage(host: Host, since: nat, answer: PageAnswer) {
    && answer.Page? && (forall d | d in answer.events :: !Bad(host, d))
    && (answer.hasMore ==> answer.events != [] && answer.cursor != Decimal(since))
  }

  lemma {:induction false} LiveRequest(
      host: Host, service: Service, pauses: Pauses, journal: seq<Journaled>, l: Loop)
    requires IsJournal(journal) && Honest(journal, service) && Live(host, journal, service)
    requires Good(host, journal, l.world) && l.fault.None? && !l.following
    ensures var next := Request(host, service, pauses, l);
            && next.fault.None? && Good(host, journal, next.world) && next.rounds == l.rounds
            && (next.following || Ahead(journal, next.world.status.cursor) < Ahead(journal, l.world.status.cursor))
  {
    var since := l.world.status.cursor;
    var answer := service.page(l.asked, since);
    assert HonestPage(journal, since, answer) && LivePage(host, since, answer);
    DeliverAllEnds(host, l.world, answer.events);
    assert Passes(host, l.world.writes, answer.events, |answer.events|) by {
      forall i: nat | i < |answer.events| ensures StoredAt(host, l.world.writes, answer.events, i) {
        assert answer.events[i] in answer.events;
      }
    }
    RunOpKeepsGood(host, journal, l.world, PageLeg(answer.events));
    if answer.hasMore {
      CleanPageAdvances(host, journal, l.world, answer.events);
      AheadShrinks(journal, since, DeliverAll(host, l.world, answer.events).world.status.cursor);
    }
  }

  /**
   With a live service and a store that lands, the loop catches up without a pause: within one
   request more than there are envelopes ahead it turns to the stream with all of them applied.
   */
  lemma {:induction false} CatchesUp(
      host: Host, service: Service, pauses: Pauses, journal: seq<Journaled>, run: nat -> Loop, k: nat)
      returns (j: nat)
    requires IsJournal(journal) && Honest(journal, service) && Live(host, journal, service)
    requires Walks(host, service, pauses, run)
    requires Good(host, journal, run(k).world) && run(k).fault.None? && !run(k).following
    ensures k < j <= k + Ahead(journal, run(k).world.status.cursor) + 1
    ensures run(j).fault.None? && run(j).following && run(j).rounds == run(k).rounds
    ensures Decodes(host.decode, journal) && run(j).world.db == Fold(host.decode, journal)
    decreases Ahead(journal, run(k).world.status.cursor)
  {
    assert run(k + 1) == Request(host, service, pauses, run(k));
    LiveRequest(host, service, pauses, journal, run(k));
    if run(k + 1).following {
      j := k + 1;
      CaughtUp(host, service, pauses, journal, run(k));
    } else {
      j := CatchesUp(host, service, pauses, journal, run, k + 1);
    }
  }

  /** A stream followed through leaves everything it delivered applied, and one more round made. */
  lemma {:induction false} StreamIsApplied(
      host: Host, service: Service, pauses: Pauses, journal: seq<Journaled>, l: Loop)
    requires IsJournal(journal) && Honest(journal, service) && Good(host, journal, l.world)
    requires l.fault.None? && l.following
    requires var answer := service.stream(l.asked, l.world.status.cursor);
             answer.Stream? && Follow(host, l.world, StreamedBlocks(answer.chunks)).leg.None?
    ensures var answer := service.stream(l.asked, l.world.status.cursor);
            var next := Request(host, service, pauses, l);
            && AtMost(journal, Asks(StreamedBlocks(answer.chunks)), next.world.status.cursor)
            && Good(host, journal, next.world) && next.fault.None? && !next.following
            && next.rounds == l.rounds + 1 && next.connects == l.connects + 1
  {
    var answer := service.stream(l.asked, l.world.status.cursor);
    var blocks := StreamedBlocks(answer.chunks);
    FollowIsDeliverAll(host, l.world, blocks);
    FollowedHasNoEnd(host, l.world, blocks);
    FollowPasses(host, l.world, blocks);
    DeliverAllEnds(host, l.world, Asks(blocks));
    assert [] + Asks(blocks) == Asks(blocks);
    DeliverAllKeepsGood(host, journal, l.world, l.world.status.cursor, [], Asks(blocks));
  }

  /** The envelopes among the items a service prints. */
  function Envelopes(items: seq<Item>): seq<Delivery> {
    if items == [] then []
    else match items[0]
      case Envelope(m) =>
        (if m.id.Some? && m.data.Some? then [Delivery(m.id.value, m.data.value)] else []) + Envelopes(items[1..])
      case Heartbeat(_) => Envelopes(items[1..])
  }

  /** An envelope as a service sends it: its cursor, its body, and no error. */
  ghost predicate Sent(it: Item) {
    && Printable(it)
    && (it.Envelope? ==> it.message.id.Some? && it.message.data.Some? && it.message.event != Some("error"))
  }

  lemma {:induction false} AsksOfItems(items: seq<Item>, blocks: seq<string>)
    requires |blocks| == |items|
    requires forall k | 0 <= k < |items| :: Sent(items[k]) && Parsed(blocks[k]) == MessageOf(items[k])
    ensures Asks(blocks) == Envelopes(items)
  {
    if items != [] {
      assert Sent(items[0]) && Parsed(blocks[0]) == MessageOf(items[0]);
      forall k | 0 <= k < |items[1..]|
        ensures Sent(items[1..][k]) && Parsed(blocks[1..][k]) == MessageOf(items[1..][k])
      {
        assert items[1..][k] == items[k + 1] && blocks[1..][k] == blocks[k + 1];
      }
      AsksOfItems(items[1..], blocks[1..]);
    }
  }

  /** A stream of printed envelopes and heartbeats, cut anywhere, asks for just those envelopes. */
  lemma {:induction false} StreamAsksForItsEnvelopes(items: seq<Item>, chunks: seq<string>)
    requires forall k | 0 <= k < |items| :: Sent(items[k])
    requires StripCr(Flatten(chunks)) == Flatten(PrintAll(items))
    ensures Asks(StreamedBlocks(chunks)) == Envelopes(items)
  {
    StreamUndoesPrinter(items, chunks);
    ChunkInvariance("", chunks);
    assert "" + StripCr(Flatten(chunks)) == StripCr(Flatten(chunks));
    AsksOfItems(items, PrintAll(items));
  }

  /** The pauses: the first the shortest, each next one twice the last up to the longest, or the shortest again. */
  lemma {:induction false} PausesDouble(
      host: Host, service: Service, pauses: Pauses, run: nat -> Loop, k: nat)
    requires Walks(host, service, pauses, run) && run(0).slept == [] && run(0).pause == pauses.min
    ensures var slept := run(k).slept;
            && |slept| == run(k).rounds - run(0).rounds
            && (|slept| > 0 ==> slept[0] == pauses.min && run(k).pause == Min(2 * slept[|slept| - 1], pauses.max))
            && (|slept| == 0 ==> run(k).pause == pauses.min)
            && forall i | 0 <= i < |slept| - 1 :: slept[i + 1] in {pauses.min, Min(2 * slept[i], pauses.max)}
  {
    if k > 0 {
      PausesDouble(host, service, pauses, run, k - 1);
      var l, next := NextState(host, service, pauses, run, k);
    }
  }

  /** The shortest pause again exactly after a dropped stream that delivered something. */
  lemma {:induction false} DeliveringStreamResets(host: Host, service: Service, pauses: Pauses, l: Loop)
    requires l.fault.None? && Request(host, service, pauses, l).rounds == l.rounds + 1
    ensures var next, answer := Request(host, service, pauses, l), service.stream(l.asked, l.world.status.cursor);
            var delivered := l.following && answer.Stream?
              && Follow(host, l.world, StreamedBlocks(answer.chunks)).leg.None?
              && Asks(StreamedBlocks(answer.chunks)) != [];
            next.slept == l.slept + [if delivered then pauses.min else l.pause]
  {
    if l.following {
      var answer := service.stream(l.asked, l.world.status.cursor);
      if answer.Stream? {
        FollowStops(host, l.world, StreamedBlocks(answer.chunks));
      }
    } else {
      var answer := service.page(l.asked, l.world.status.cursor);
      if answer.Page? {
        PageStops(host, l.world, answer.events);
      }
    }
  }
}
