/**
 The ring of recent tips, kept without the feed: the lowest height whose header is no longer
 the one a past pass saw.
 */
module TipRing {
  import opened Prelude
  import opened ChainEvents

  const TIP_RING := 12

  datatype Entry = Entry(height: Height, hash: string)

  // ---------------------------------------------------------------------------
  // Hash-linked blocks
  // ---------------------------------------------------------------------------

  datatype Blocks = Blocks(parent: string -> string, height: string -> Height)

  ghost predicate Linked(b: Blocks) {
    forall h :: b.height(h) > 0 ==> b.height(b.parent(h)) == b.height(h) - 1
  }

  ghost function AncestorAt(b: Blocks, tip: string, height: Height): (r: string)
    requires Linked(b) && height <= b.height(tip)
    ensures b.height(r) == height
    decreases b.height(tip)
  {
    if b.height(tip) == height then tip else AncestorAt(b, b.parent(tip), height)
  }

  lemma {:induction false} AncestorOfAncestor(b: Blocks, tip: string, mid: Height, low: Height)
    requires Linked(b) && low <= mid <= b.height(tip)
    ensures AncestorAt(b, AncestorAt(b, tip, mid), low) == AncestorAt(b, tip, low)
    decreases b.height(tip)
  {
    if b.height(tip) != mid {
      AncestorOfAncestor(b, b.parent(tip), mid, low);
    }
  }

  ghost predicate OnChain(b: Blocks, tip: Entry, e: Entry)
    requires Linked(b)
  {
    e.height <= tip.height == b.height(tip.hash) && AncestorAt(b, tip.hash, e.height) == e.hash
  }

  // ---------------------------------------------------------------------------
  // One pass
  // ---------------------------------------------------------------------------

  /** The active header's hash at a height: none above the tip, and a read may fail. */
  datatype Active = At(hash: string) | AboveTip | NoAnswer

  type Reader = Height -> Option<string>

  function ActiveAt(tip: Entry, read: Reader, height: Height): Active {
    if height == tip.height then At(tip.hash)
    else if height > tip.height then AboveTip
    else match read(height)
      case Some(hash) => At(hash)
      case None => NoAnswer
  }

  datatype Scan = Scan(moved: Option<Height>, ring: seq<Entry>, looked: bool)

  /** Entries popped from the newest until one is still active, or one cannot be read. */
  function PopMoved(tip: Entry, read: Reader, ring: seq<Entry>, moved: Option<Height>): Scan
    decreases |ring|
  {
    if ring == [] then Scan(moved, ring, true)
    else
      var last := ring[|ring| - 1];
      var active := ActiveAt(tip, read, last.height);
      if active == NoAnswer then Scan(moved, ring, false)
      else if active == At(last.hash) then Scan(moved, ring, true)
      else PopMoved(tip, read, ring[..|ring| - 1], Some(last.height))
  }

  function Pushed(tip: Entry, ring: seq<Entry>): seq<Entry> {
    var grown := if ring != [] && ring[|ring| - 1].height == tip.height then ring else ring + [tip];
    if |grown| > TIP_RING then grown[|grown| - TIP_RING..] else grown
  }

  function Passed(tip: Option<Entry>, read: Reader, ring: seq<Entry>): (Option<Height>, seq<Entry>) {
    match tip
    case None => (None, ring)
    case Some(t) =>
      var scan := PopMoved(t, read, ring, None);
      (scan.moved, if scan.looked then Pushed(t, scan.ring) else scan.ring)
  }

  method MovedSince(tip: Option<Entry>, read: Reader, before: seq<Entry>)
      returns (moved: Option<Height>, ring: seq<Entry>)
    ensures (moved, ring) == Passed(tip, read, before)
  {
    ring, moved := before, None;
    if tip.None? {
      return;
    }
    var t := tip.value;
    while ring != []
      invariant PopMoved(t, read, before, None) == PopMoved(t, read, ring, moved)
      decreases |ring|
    {
      var last := ring[|ring| - 1];
      var active := ActiveAt(t, read, last.height);
      if active == NoAnswer {
        return;
      }
      if active == At(last.hash) {
        break;
      }
      moved := Some(last.height);
      ring := ring[..|ring| - 1];
    }
    if ring == [] || ring[|ring| - 1].height != t.height {
      ring := ring + [t];
    }
    if |ring| > TIP_RING {
      ring := ring[|ring| - TIP_RING..];
    }
  }

  // ---------------------------------------------------------------------------
  // What a run of passes keeps
  // ---------------------------------------------------------------------------

  ghost predicate Ascending(ring: seq<Entry>) {
    forall i, j | 0 <= i < j < |ring| :: ring[i].height < ring[j].height
  }

  /** Ascending, short enough, and every entry an ancestor of the last. */
  ghost predicate RingOk(b: Blocks, ring: seq<Entry>)
    requires Linked(b)
  {
    && Ascending(ring)
    && |ring| <= TIP_RING
    && forall e | e in ring :: OnChain(b, ring[|ring| - 1], e)
  }

  /** One snapshot: what it answers is the active chain's; what it does not answer is open. */
  ghost predicate Faithful(b: Blocks, tip: Entry, read: Reader)
    requires Linked(b)
  {
    && b.height(tip.hash) == tip.height
    && forall h: Height | h < tip.height && read(h).Some? :: read(h).value == AncestorAt(b, tip.hash, h)
  }

  ghost predicate Answers(tip: Entry, read: Reader, ring: seq<Entry>) {
    forall e | e in ring && e.height < tip.height :: read(e.height).Some?
  }

  /** An entry on the active chain puts every earlier one there: the scan may stop at it. */
  lemma OnChainDown(b: Blocks, tip: Entry, ring: seq<Entry>)
    requires Linked(b) && RingOk(b, ring) && ring != [] && OnChain(b, tip, ring[|ring| - 1])
    ensures forall e | e in ring :: OnChain(b, tip, e)
  {
    var last := ring[|ring| - 1];
    forall e | e in ring ensures OnChain(b, tip, e) {
      AncestorOfAncestor(b, tip.hash, last.height, e.height);
    }
  }

  lemma RingPrefix(b: Blocks, ring: seq<Entry>)
    requires Linked(b) && RingOk(b, ring) && ring != []
    ensures RingOk(b, ring[..|ring| - 1])
  {
    var shorter, last := ring[..|ring| - 1], ring[|ring| - 1];
    if shorter != [] {
      var top := shorter[|shorter| - 1];
      assert top in ring && OnChain(b, last, top);
      forall e | e in shorter ensures OnChain(b, top, e) {
        assert e in ring && OnChain(b, last, e);
        AncestorOfAncestor(b, last.hash, top.height, e.height);
      }
    }
  }

  ghost predicate OffChain(b: Blocks, tip: Entry, e: Entry)
    requires Linked(b)
  {
    !OnChain(b, tip, e)
  }

  /** What the scan answers, before it is read as a fact about the chain. */
  lemma {:induction false} PopMovedScan(
      tip: Entry, read: Reader, ring: seq<Entry>, moved: Option<Height>)
    ensures var scan := PopMoved(tip, read, ring, moved);
            var k := |scan.ring|;
            && k <= |ring| && scan.ring == ring[..k]
            && (forall i | k <= i < |ring| ::
                  ActiveAt(tip, read, ring[i].height) !in {NoAnswer, At(ring[i].hash)})
            && scan.moved == (if k < |ring| then Some(ring[k].height) else moved)
            && (scan.looked && k > 0 ==>
                  ActiveAt(tip, read, ring[k - 1].height) == At(ring[k - 1].hash))
            && (!scan.looked ==> k > 0 && ActiveAt(tip, read, ring[k - 1].height) == NoAnswer)
    decreases |ring|
  {
    if ring != [] {
      var n := |ring| - 1;
      if ActiveAt(tip, read, ring[n].height) !in {NoAnswer, At(ring[n].hash)} {
        PopMovedScan(tip, read, ring[..n], Some(ring[n].height));
        var k := |PopMoved(tip, read, ring, moved).ring|;
        assert ring[..n][..k] == ring[..k];
      }
    }
  }

  lemma {:induction false} RingPrefixes(b: Blocks, ring: seq<Entry>, k: nat)
    requires Linked(b) && RingOk(b, ring) && k <= |ring|
    ensures RingOk(b, ring[..k])
    decreases |ring|
  {
    if k < |ring| {
      RingPrefix(b, ring);
      assert ring[..|ring| - 1][..k] == ring[..k];
      RingPrefixes(b, ring[..|ring| - 1], k);
    } else {
      assert ring[..k] == ring;
    }
  }

  /**
   The scan pops off-chain entries only, newest first; it reports the lowest one popped; and
   when it looked at all it had to, what it leaves is on the active chain.
   */
  lemma PopMovedMeaning(b: Blocks, tip: Entry, read: Reader, ring: seq<Entry>)
    requires Linked(b) && RingOk(b, ring) && Faithful(b, tip, read)
    ensures var scan := PopMoved(tip, read, ring, None);
            var k := |scan.ring|;
            && k <= |ring| && scan.ring == ring[..k] && RingOk(b, scan.ring)
            && (forall i | k <= i < |ring| :: OffChain(b, tip, ring[i]))
            && scan.moved == (if k < |ring| then Some(ring[k].height) else None)
            && (scan.looked ==> forall e | e in scan.ring :: OnChain(b, tip, e))
            && (Answers(tip, read, ring) ==> scan.looked)
  {
    PopMovedScan(tip, read, ring, None);
    var scan := PopMoved(tip, read, ring, None);
    var k := |scan.ring|;
    RingPrefixes(b, ring, k);
    forall i | 0 <= i < |ring| ensures b.height(ring[i].hash) == ring[i].height {
      assert ring[i] in ring && OnChain(b, ring[|ring| - 1], ring[i]);
    }
    forall i | k <= i < |ring| ensures OffChain(b, tip, ring[i]) {
    }
    if k > 0 {
      assert ring[k - 1] in ring;
      if scan.looked {
        OnChainDown(b, tip, scan.ring);
      }
    }
  }

  /** `moved` names the lowest entry of the ring off the active chain, or there is none. */
  ghost predicate NamesLowest(b: Blocks, tip: Entry, ring: seq<Entry>, moved: Option<Height>)
    requires Linked(b)
  {
    match moved
    case None => forall e | e in ring :: OnChain(b, tip, e)
    case Some(h) =>
      && (exists e :: e in ring && OffChain(b, tip, e) && e.height == h)
      && forall e | e in ring :: OffChain(b, tip, e) <==> h <= e.height
  }

  ghost predicate AllActive(b: Blocks, tip: Entry, ring: seq<Entry>)
    requires Linked(b)
  {
    forall e | e in ring :: OnChain(b, tip, e)
  }

  lemma ScanNamesLowest(b: Blocks, tip: Entry, read: Reader, ring: seq<Entry>)
    requires Linked(b) && RingOk(b, ring) && Faithful(b, tip, read) && Answers(tip, read, ring)
    ensures var scan := PopMoved(tip, read, ring, None);
            scan.looked && NamesLowest(b, tip, ring, scan.moved) && RingOk(b, scan.ring) && AllActive(b, tip, scan.ring)
  {
    PopMovedMeaning(b, tip, read, ring);
    var scan := PopMoved(tip, read, ring, None);
    assert forall i | 0 <= i < |scan.ring| :: scan.ring[i] == ring[i] && scan.ring[i] in scan.ring;
    OffFrom(b, tip, ring, |scan.ring|);
  }

  /** No read failed: `moved` is exactly the lowest ring height off the active chain. */
  lemma MovedIsTheLowest(b: Blocks, tip: Entry, read: Reader, ring: seq<Entry>)
    requires Linked(b) && RingOk(b, ring) && Faithful(b, tip, read) && Answers(tip, read, ring)
    ensures var (moved, after) := Passed(Some(tip), read, ring);
            NamesLowest(b, tip, ring, moved) && after != [] && after[|after| - 1] == tip && AllActive(b, tip, after)
  {
    ScanNamesLowest(b, tip, read, ring);
    PushedKeeps(b, tip, PopMoved(tip, read, ring, None).ring);
  }

  lemma OffFrom(b: Blocks, tip: Entry, ring: seq<Entry>, k: nat)
    requires Linked(b) && Ascending(ring) && k <= |ring|
    requires forall i | 0 <= i < k :: OnChain(b, tip, ring[i])
    requires forall i | k <= i < |ring| :: OffChain(b, tip, ring[i])
    ensures NamesLowest(b, tip, ring, if k < |ring| then Some(ring[k].height) else None)
  {
    if k < |ring| {
      assert ring[k] in ring && OffChain(b, tip, ring[k]);
    }
  }

  lemma PushedKeeps(b: Blocks, tip: Entry, ring: seq<Entry>)
    requires Linked(b) && RingOk(b, ring) && b.height(tip.hash) == tip.height
    requires AllActive(b, tip, ring)
    ensures var after := Pushed(tip, ring);
            && RingOk(b, after) && after != [] && after[|after| - 1] == tip && AllActive(b, tip, after)
  {
    if ring != [] {
      assert ring[|ring| - 1] in ring;
    }
  }

  /** A read failed: no off-chain entry is lost. It is reported, or still in the ring. */
  lemma NothingOffChainIsLost(b: Blocks, tip: Option<Entry>, read: Reader, ring: seq<Entry>, e: Entry)
    requires Linked(b) && RingOk(b, ring) && (tip.Some? ==> Faithful(b, tip.value, read))
    requires e in ring && (tip.Some? ==> OffChain(b, tip.value, e))
    ensures var (moved, after) := Passed(tip, read, ring);
            e in after || (moved.Some? && moved.value <= e.height)
  {
    if tip.Some? {
      PopMovedMeaning(b, tip.value, read, ring);
      var scan := PopMoved(tip.value, read, ring, None);
      var i :| 0 <= i < |ring| && ring[i] == e;
      if i < |scan.ring| {
        assert scan.ring[i] == e;
      }
    }
  }

  datatype Snapshot = Snapshot(tip: Option<Entry>, read: Reader)

  function RunPasses(ring: seq<Entry>, passes: seq<Snapshot>): seq<Entry>
    decreases |passes|
  {
    if passes == [] then ring
    else RunPasses(Passed(passes[0].tip, passes[0].read, ring).1, passes[1..])
  }

  /** Over any run of passes, whatever the tips and whichever reads fail. */
  lemma {:induction false} EveryRingIsOk(b: Blocks, ring: seq<Entry>, passes: seq<Snapshot>)
    requires Linked(b) && RingOk(b, ring)
    requires forall p | p in passes && p.tip.Some? :: Faithful(b, p.tip.value, p.read)
    ensures RingOk(b, RunPasses(ring, passes))
    decreases |passes|
  {
    if passes != [] {
      var p := passes[0];
      if p.tip.Some? {
        PopMovedMeaning(b, p.tip.value, p.read, ring);
        var scan := PopMoved(p.tip.value, p.read, ring, None);
        if scan.looked {
          PushedKeeps(b, p.tip.value, scan.ring);
        }
      }
      EveryRingIsOk(b, Passed(p.tip, p.read, ring).1, passes[1..]);
    }
  }

  // ---------------------------------------------------------------------------
  // What the ring remembers
  // ---------------------------------------------------------------------------

  /** The entry is older than every one of a full ring. */
  ghost predicate Outlived(ring: seq<Entry>, e: Entry) {
    |ring| == TIP_RING == 12 && forall x | x in ring :: e.height < x.height
  }

  /** The scan leaves every entry on the active chain. */
  lemma OnChainStays(b: Blocks, tip: Entry, read: Reader, ring: seq<Entry>, e: Entry)
      returns (left: seq<Entry>, looked: bool)
    requires Linked(b) && RingOk(b, ring) && Faithful(b, tip, read)
    requires e in ring && OnChain(b, tip, e)
    ensures left == PopMoved(tip, read, ring, None).ring && looked == PopMoved(tip, read, ring, None).looked
    ensures e in left && Ascending(left) && |left| <= TIP_RING
    ensures looked ==> forall x | x in left :: x.height <= tip.height
  {
    PopMovedMeaning(b, tip, read, ring);
    left, looked := PopMoved(tip, read, ring, None).ring, PopMoved(tip, read, ring, None).looked;
    var i :| 0 <= i < |ring| && ring[i] == e;
    assert i < |left| && left[i] == e;
  }

  lemma PushedForgetsTheOldest(tip: Entry, ring: seq<Entry>, e: Entry)
    requires Ascending(ring) && |ring| <= TIP_RING && e in ring
    requires forall x | x in ring :: x.height <= tip.height
    ensures var after := Pushed(tip, ring);
            e in after || Outlived(after, e)
  {
    var last := ring[|ring| - 1];
    assert last in ring;
    if last.height < tip.height && |ring| == TIP_RING {
      assert Pushed(tip, ring) == ring[1..] + [tip];
      assert ring == [ring[0]] + ring[1..];
    }
  }

  /** An entry on the active chain leaves the ring only as the oldest of a full one, whichever reads fail. */
  lemma OnChainIsKept(b: Blocks, tip: Entry, read: Reader, ring: seq<Entry>, e: Entry)
    requires Linked(b) && RingOk(b, ring) && Faithful(b, tip, read)
    requires e in ring && OnChain(b, tip, e)
    ensures var after := Passed(Some(tip), read, ring).1;
            e in after || Outlived(after, e)
  {
    var left, looked := OnChainStays(b, tip, read, ring, e);
    if looked {
      PushedForgetsTheOldest(tip, left, e);
    }
  }

  function LastOf<T>(s: seq<T>, n: nat): seq<T> {
    if |s| > n then s[|s| - n..] else s
  }

  function TipsOf(passes: seq<Snapshot>): seq<Entry>
    requires forall p | p in passes :: p.tip.Some?
  {
    seq(|passes|, i requires 0 <= i < |passes| => passes[i].tip.value)
  }

  /** The pass sees a higher tip of the chain the last entry is on, and reads that entry's header. */
  ghost predicate Rises(b: Blocks, last: Option<Entry>, p: Snapshot)
    requires Linked(b)
  {
    && p.tip.Some? && Faithful(b, p.tip.value, p.read)
    && (last.Some? ==>
          && last.value.height < p.tip.value.height && OnChain(b, p.tip.value, last.value)
          && p.read(last.value.height).Some?)
  }

  function Newest(ring: seq<Entry>): Option<Entry> {
    if ring == [] then None else Some(ring[|ring| - 1])
  }

  /** Every pass rises from the tip before it, the first from the ring's newest entry. */
  ghost predicate AllRise(b: Blocks, ring: seq<Entry>, passes: seq<Snapshot>)
    requires Linked(b)
  {
    (forall p | p in passes :: p.tip.Some?) && forall i: nat | i < |passes| :: RisesAt(b, ring, passes, i)
  }

  ghost predicate RisesAt(b: Blocks, ring: seq<Entry>, passes: seq<Snapshot>, i: nat)
    requires Linked(b) && i < |passes|
  {
    Rises(b, if i == 0 then Newest(ring) else passes[i - 1].tip, passes[i])
  }

  lemma RisingPass(b: Blocks, ring: seq<Entry>, p: Snapshot)
    requires Linked(b) && Rises(b, Newest(ring), p) && |ring| <= TIP_RING
    ensures Passed(p.tip, p.read, ring) == (None, LastOf(ring + [p.tip.value], 12))
  {
  }

  lemma {:induction false} RunPassesAppend(ring: seq<Entry>, passes: seq<Snapshot>, p: Snapshot)
    ensures var before := RunPasses(ring, passes);
            RunPasses(ring, passes + [p]) == Passed(p.tip, p.read, before).1
    decreases |passes|
  {
    if passes == [] {
      assert [p][1..] == [];
    } else {
      assert (passes + [p])[0] == passes[0] && (passes + [p])[1..] == passes[1..] + [p];
      RunPassesAppend(Passed(passes[0].tip, passes[0].read, ring).1, passes[1..], p);
    }
  }

  /** Over any run of passes whose tips rise on one chain the ring is the last twelve tips seen. */
  lemma {:induction false} RisingTipsAreKept(b: Blocks, ring: seq<Entry>, passes: seq<Snapshot>)
    requires Linked(b) && AllRise(b, ring, passes) && |ring| <= TIP_RING
    ensures RunPasses(ring, passes) == LastOf(ring + TipsOf(passes), 12)
    decreases |passes|
  {
    if passes == [] {
      assert ring + TipsOf(passes) == ring;
    } else {
      var front, p := passes[..|passes| - 1], passes[|passes| - 1];
      assert passes == front + [p];
      LastRises(b, ring, front, p);
      RisingTipsAreKept(b, ring, front);
      RunPassesAppend(ring, front, p);
      var before := RunPasses(ring, front);
      RisingPass(b, before, p);
      LastOfMore(ring + TipsOf(front), p.tip.value, 12);
      assert ring + TipsOf(passes) == ring + TipsOf(front) + [p.tip.value];
    }
  }

  lemma LastOfMore<T>(s: seq<T>, x: T, n: nat)
    ensures LastOf(LastOf(s, n) + [x], n) == LastOf(s + [x], n)
  {
  }

  lemma LastRises(b: Blocks, ring: seq<Entry>, front: seq<Snapshot>, p: Snapshot)
    requires Linked(b) && AllRise(b, ring, front + [p]) && |ring| <= TIP_RING
    ensures AllRise(b, ring, front) && Rises(b, Newest(LastOf(ring + TipsOf(front), 12)), p)
  {
    var passes := front + [p];
    forall i: nat | i < |front| ensures RisesAt(b, ring, front, i) {
      assert RisesAt(b, ring, passes, i);
      assert passes[i] == front[i] && (i > 0 ==> passes[i - 1] == front[i - 1]);
    }
    assert RisesAt(b, ring, passes, |front|);
  }

  /** And when the chain then moves, the pass reports the lowest of those tips that it took away. */
  lemma MoveAfterARise(b: Blocks, passes: seq<Snapshot>, tip: Entry, read: Reader)
    requires Linked(b) && AllRise(b, [], passes) && Faithful(b, tip, read)
    requires Answers(tip, read, LastOf(TipsOf(passes), 12))
    ensures NamesLowest(b, tip, LastOf(TipsOf(passes), 12), Passed(Some(tip), read, RunPasses([], passes)).0)
  {
    RisingTipsAreKept(b, [], passes);
    assert [] + TipsOf(passes) == TipsOf(passes);
    forall p | p in passes && p.tip.Some? ensures Faithful(b, p.tip.value, p.read) {
      var i: nat :| i < |passes| && passes[i] == p;
      assert RisesAt(b, [], passes, i);
    }
    EveryRingIsOk(b, [], passes);
    MovedIsTheLowest(b, tip, read, RunPasses([], passes));
  }
}
