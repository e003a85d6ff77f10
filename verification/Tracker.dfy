/**
 One word per transaction, moved by headers and proofs alone, and the host's row: inputs to
 replay, never a trusted word. The tracker crate's own step is not part of the repository; it
 is written here from what the host relies on.
 */
module Tracker {
  import opened Prelude
  import opened ChainEvents

  // ---------------------------------------------------------------------------
  // Headers, as a step sees them
  // ---------------------------------------------------------------------------

  datatype Answer = Known(header: Header) | NotRead | HeaderFault

  /** A view of the active chain: the tip, when it was read, and the header at a height. */
  datatype View = View(tip: Option<Height>, at: Height -> Answer)

  type Gone = map<Height, Header>

  lemma {:induction false} HasTop(gone: Gone, keys: set<Height>)
    requires keys <= gone.Keys && keys != {}
    ensures exists h :: h in keys && forall k | k in keys :: k <= h
  {
    var x :| x in keys;
    var rest := keys - {x};
    if rest == {} {
      assert forall k | k in keys :: k == x || k in rest;
    } else {
      HasTop(gone, rest);
      var y :| y in rest && forall k | k in rest :: k <= y;
      var top := if x < y then y else x;
      assert top in keys;
      forall k | k in keys ensures k <= top {
        assert k == x || k in rest;
      }
    }
  }

  /** The highest deactivated height, or zero. */
  function Top(gone: Gone): (h: Height)
    ensures forall k | k in gone :: k <= h
    ensures gone != map[] ==> h in gone
  {
    if gone == map[] then 0
    else
      HasTop(gone, gone.Keys);
      var h :| h in gone.Keys && forall k | k in gone.Keys :: k <= h;
      h
  }

  /** The branch a reorg took away, over the live headers. */
  function OldBranch(live: View, gone: Gone): View {
    View(
      match live.tip
      case None => None
      case Some(t) => Some(if gone != map[] && Top(gone) > t then Top(gone) else t),
      (h: Height) => if h in gone then Known(gone[h]) else live.at(h))
  }

  /** The live headers, with no answer where the service still gives a deactivated one. */
  function NewBranch(live: View, gone: Gone): View {
    View(live.tip,
         (h: Height) => match live.at(h)
              case Known(header) =>
                if h in gone && gone[h].hash == header.hash then NotRead else Known(header)
              case other => other)
  }

  // ---------------------------------------------------------------------------
  // The tracker's step
  // ---------------------------------------------------------------------------

  datatype Proof = Proof(height: Height, root: string)

  datatype Word =
    | Unknown | Built | Announced | Seen
    | Mined(height: Height, header: Header)
    | Stale | Rejected | Conflicted

  datatype Reask =
    | ReorgAsk(forkHeight: Height) | ForkAsk(height: Height) | HintAsk
    | ProofFailed(height: Height) | Recheck

  datatype State = State(word: Word, proof: Option<Proof>, suspect: bool, reask: Option<Reask>)

  datatype HintStatus = Accepted | SeenBy | Disagrees

  datatype Checked = Meets(header: Header) | RootMismatch | CouldNotLook

  /** A proof against a view: with no tip nothing checks, and a height above it has no header. */
  function Check(v: View, p: Proof): Checked {
    if v.tip.None? || p.height > v.tip.value then CouldNotLook
    else match v.at(p.height)
      case Known(header) => if header.root == p.root then Meets(header) else RootMismatch
      case _ => CouldNotLook
  }

  function StepBuild(s: State): State {
    if s.word == Unknown then s.(word := Built) else s
  }

  function StepHint(s: State, hint: HintStatus): State {
    match (s.word, hint)
    case (Unknown, Accepted) => s.(word := Announced)
    case (Built, Accepted) => s.(word := Announced)
    case (Unknown, SeenBy) => s.(word := Seen)
    case (Built, SeenBy) => s.(word := Seen)
    case (Announced, SeenBy) => s.(word := Seen)
    case (_, Disagrees) => if s.reask.None? then s.(reask := Some(HintAsk)) else s
    case _ => s
  }

  function StepProof(s: State, v: View, p: Proof): State {
    match Check(v, p)
    case Meets(header) => State(Mined(p.height, header), Some(p), false, None)
    case RootMismatch => s.(reask := Some(ProofFailed(p.height)))
    case CouldNotLook => s
  }

  /** The stored root against the view: it stands, it is gone, or nobody can say. */
  function StepRecheck(s: State, v: View, gone: Reask): State
    requires s.word.Mined? && s.proof.Some?
  {
    match Check(v, s.proof.value)
    case Meets(header) => s.(word := Mined(s.word.height, header), suspect := false, reask := None)
    case RootMismatch => s.(word := Stale, suspect := false, reask := Some(gone))
    case CouldNotLook => s.(suspect := true, reask := Some(Recheck))
  }

  /** The event names this word: only then does it move, or lose or gain its mark. */
  function Selects(s: State, e: ChainEvent): bool {
    s.word.Mined? && s.proof.Some? &&
    match e
    case Reorg(fork, _) => fork <= s.word.height
    case Fork(height) => height <= s.word.height
    case Split(_, fork) => fork <= s.word.height
    case SplitResolved(_, fork) => fork <= s.word.height && s.suspect
    case Tip(_) => s.suspect
    case Invalidated(hash) => s.word.header.hash == hash
    case Frozen(_) => false
    case TipAge => false
  }

  function StepChain(s: State, v: View, e: ChainEvent): State {
    if !Selects(s, e) then s
    else match e
      case Reorg(fork, _) => StepRecheck(s, v, ReorgAsk(fork))
      case Fork(height) => s.(suspect := true, reask := Some(ForkAsk(height)))
      case Split(_, fork) => s.(suspect := true, reask := Some(ForkAsk(fork)))
      case _ => StepRecheck(s, v, ReorgAsk(s.word.height))
  }

  // ---------------------------------------------------------------------------
  // The stored row and its replay
  // ---------------------------------------------------------------------------

  datatype Row = Row(
    built: bool, hints: seq<HintStatus>, bump: Option<Proof>, chain: seq<ChainEvent>,
    asks: nat, nextAskAt: Option<nat>)

  function DeactivatedOf(e: ChainEvent): Gone {
    if e.Reorg? then e.deactivated else map[]
  }

  /** The headers the stored reorgs deactivated, the latest event's at a shared height. */
  function Deactivated(chain: seq<ChainEvent>): Gone {
    if chain == [] then map[]
    else Deactivated(chain[..|chain| - 1]) + DeactivatedOf(chain[|chain| - 1])
  }

  function StepHints(s: State, hints: seq<HintStatus>): State
    decreases |hints|
  {
    if hints == [] then s else StepHints(StepHint(s, hints[0]), hints[1..])
  }

  function StepEvents(s: State, v: View, chain: seq<ChainEvent>): State {
    if chain == [] then s
    else StepChain(StepEvents(s, v, chain[..|chain| - 1]), v, chain[|chain| - 1])
  }

  function Started(row: Row): State {
    var born := State(Unknown, None, false, None);
    if row.built then StepBuild(born) else born
  }

  function HintTier(row: Row): State {
    StepHints(Started(row), row.hints)
  }

  /** The stored inputs, replayed: the proof on the old branch, the events on the new one. */
  function ReplayOver(row: Row, live: View, gone: Gone): State {
    var hinted := HintTier(row);
    var proven := match row.bump
      case Some(p) => StepProof(hinted, OldBranch(live, gone), p)
      case None => hinted;
    StepEvents(proven, NewBranch(live, gone), row.chain)
  }

  /** `TrackedRow::replay`: over the row's own deactivated headers. */
  function Replay(row: Row, live: View): State {
    ReplayOver(row, live, Deactivated(row.chain))
  }

  predicate Plain(s: State) {
    s.word.Mined? && !s.suspect && s.reask.None?
  }

  function WithoutTips(chain: seq<ChainEvent>): seq<ChainEvent> {
    if chain == [] then []
    else
      var last := chain[|chain| - 1];
      WithoutTips(chain[..|chain| - 1]) + (if last.Tip? || last.TipAge? then [] else [last])
  }

  /** What `keep_chain` leaves on the row. */
  function Kept(chain: seq<ChainEvent>, s: State, e: ChainEvent): seq<ChainEvent> {
    if Plain(s) then []
    else (if e.Tip? || e.TipAge? then WithoutTips(chain) else chain) + [e]
  }

  // ---------------------------------------------------------------------------
  // Delivering one event
  // ---------------------------------------------------------------------------

  /** The row's state before and after the event, with `shared` hidden from the recheck. */
  function Before(row: Row, live: View, e: ChainEvent): State {
    ReplayOver(row, live, Deactivated(row.chain) + DeactivatedOf(e))
  }

  function After(row: Row, live: View, e: ChainEvent, shared: Gone): State {
    StepChain(Before(row, live, e), NewBranch(live, shared), e)
  }

  /** A row by itself: nothing is hidden but what its own events took away. */
  function AfterAlone(row: Row, live: View, e: ChainEvent): State {
    After(row, live, e, Deactivated(row.chain) + DeactivatedOf(e))
  }

  /** The delivery writes the row back: it was selected, or its replay had moved it. */
  predicate Writes(row: Row, live: View, e: ChainEvent) {
    Selects(Before(row, live, e), e) || !Before(row, live, e).word.Mined?
  }

  function WrittenRow(row: Row, s: State, e: ChainEvent): Row {
    var kept := row.(chain := Kept(row.chain, s, e));
    if s.reask.Some? && s.reask.value.ReorgAsk? then kept.(asks := 0, nextAskAt := None) else kept
  }

  // ---------------------------------------------------------------------------
  // A reorg, and the three things it can leave
  // ---------------------------------------------------------------------------

  /** A row mined by its stored path on a header the reorg deactivates. */
  ghost predicate MinedOnDeactivated(row: Row, e: ChainEvent) {
    && row.chain == [] && row.bump.Some? && e.Reorg?
    && var p := row.bump.value;
       e.forkHeight <= p.height && p.height in e.deactivated && e.deactivated[p.height].root == p.root
  }

  /** The service answers another block's header at the height, at or below its tip. */
  ghost predicate AnotherBlock(live: View, gone: Gone, h: Height) {
    && live.tip.Some? && h <= live.tip.value && live.at(h).Known?
    && (h in gone ==> gone[h].hash != live.at(h).header.hash)
  }

  /**
   Whatever events the row keeps and whatever the service answers, a mined row a reorg names ends
   unmarked exactly when another block with its root stands at its height; stale with the fork's
   re-ask exactly when another block with another root does; suspect, its word unchanged and to be
   rechecked, exactly when no block but one taken away is answered there.
   */
  lemma ReorgVerdict(row: Row, live: View, e: ChainEvent)
    requires e.Reorg? && Selects(Before(row, live, e), e)
    ensures var before, s := Before(row, live, e), AfterAlone(row, live, e);
            var h, own := before.word.height, Deactivated(row.chain) + e.deactivated;
            && row.bump.Some? && row.bump.value.height == h
            && (Plain(s) <==> AnotherBlock(live, own, h) && live.at(h).header.root == row.bump.value.root)
            && (Plain(s) ==> s.word == Mined(h, live.at(h).header))
            && (s.word == Stale <==> AnotherBlock(live, own, h) && live.at(h).header.root != row.bump.value.root)
            && (s.word == Stale ==> s.reask == Some(ReorgAsk(e.forkHeight)) && !s.suspect)
            && (s.suspect <==> !AnotherBlock(live, own, h))
            && (s.suspect ==> s.word == before.word && s.reask == Some(Recheck))
  {
    ReplayIsByProof(row, live, Deactivated(row.chain) + DeactivatedOf(e));
  }

  /** A row fresh from its proof that the reorg finds on a header it takes away is so named. */
  lemma DeactivatedIsSelected(row: Row, live: View, e: ChainEvent)
    requires MinedOnDeactivated(row, e) && live.tip.Some?
    ensures var h := row.bump.value.height;
            Selects(Before(row, live, e), e) && Before(row, live, e).word == Mined(h, e.deactivated[h])
  {
    assert Deactivated([]) + DeactivatedOf(e) == e.deactivated;
  }

  /** The service still answering the deactivated header is one way to be suspect. */
  lemma StillDeactivatedIsSuspect(row: Row, live: View, e: ChainEvent)
    requires MinedOnDeactivated(row, e) && live.tip.Some?
    requires live.at(row.bump.value.height) == Known(e.deactivated[row.bump.value.height])
    ensures AfterAlone(row, live, e).suspect && AfterAlone(row, live, e).reask == Some(Recheck)
  {
    DeactivatedIsSelected(row, live, e);
    assert Deactivated([]) + e.deactivated == e.deactivated;
    ReorgVerdict(row, live, e);
  }

  /**
   With the tip unreadable nothing is decided: the row is stored with its hint-tier word and the
   event, and once headers are read its replay is what delivering the event then would have left.
   */
  lemma UnreadableTipIsMadeUp(row: Row, dark: View, live: View, e: ChainEvent)
    requires dark.tip.None? && !e.Tip? && !e.TipAge?
    ensures !Before(row, dark, e).word.Mined? && AfterAlone(row, dark, e) == HintTier(row)
    ensures Replay(WrittenRow(row, AfterAlone(row, dark, e), e), live) == AfterAlone(row, live, e)
  {
    var gone := Deactivated(row.chain) + DeactivatedOf(e);
    StepEventsKeepsProof(Proven(row, dark, gone), NewBranch(dark, gone), row.chain);
    HintTierIsNotMined(Started(row), row.hints);
    DeactivatedAppend(row.chain, e);
    StepEventsAppend(Proven(row, live, gone), NewBranch(live, gone), row.chain, e);
    var kept := WrittenRow(row, AfterAlone(row, dark, e), e);
    assert HintTier(kept) == HintTier(row);
  }

  // ---------------------------------------------------------------------------
  // Storing and replaying gives the same state
  // ---------------------------------------------------------------------------

  lemma {:induction false} DeactivatedAppend(chain: seq<ChainEvent>, e: ChainEvent)
    ensures Deactivated(chain + [e]) == Deactivated(chain) + DeactivatedOf(e)
  {
    assert (chain + [e])[..|chain|] == chain;
  }

  lemma {:induction false} DeactivatedWithoutTips(chain: seq<ChainEvent>)
    ensures Deactivated(WithoutTips(chain)) == Deactivated(chain)
  {
    if chain != [] {
      var front, last := chain[..|chain| - 1], chain[|chain| - 1];
      DeactivatedWithoutTips(front);
      if !(last.Tip? || last.TipAge?) {
        DeactivatedAppend(WithoutTips(front), last);
      } else {
        assert WithoutTips(chain) == WithoutTips(front);
      }
    }
  }

  lemma StepEventsAppend(s: State, v: View, chain: seq<ChainEvent>, e: ChainEvent)
    ensures StepEvents(s, v, chain + [e]) == StepChain(StepEvents(s, v, chain), v, e)
  {
    assert (chain + [e])[..|chain|] == chain;
  }

  /** A mined word carries the proof it was checked by, only a mined word is marked, and every step keeps that. */
  ghost predicate ByProof(s: State) {
    && (s.word.Mined? ==> s.proof.Some? && s.proof.value.height == s.word.height)
    && (s.suspect ==> s.word.Mined?)
  }

  lemma {:induction false} HintTierIsNotMined(s: State, hints: seq<HintStatus>)
    requires s.word in {Unknown, Built, Announced, Seen}
    ensures StepHints(s, hints).word in {Unknown, Built, Announced, Seen}
    ensures StepHints(s, hints).proof == s.proof && StepHints(s, hints).suspect == s.suspect
    decreases |hints|
  {
    if hints != [] {
      HintTierIsNotMined(StepHint(s, hints[0]), hints[1..]);
    }
  }

  lemma {:induction false} StepEventsKeepsProof(s: State, v: View, chain: seq<ChainEvent>)
    requires ByProof(s)
    ensures ByProof(StepEvents(s, v, chain)) && StepEvents(s, v, chain).proof == s.proof
    ensures !s.word.Mined? ==> StepEvents(s, v, chain) == s
  {
    if chain != [] {
      StepEventsKeepsProof(s, v, chain[..|chain| - 1]);
    }
  }

  ghost function Proven(row: Row, live: View, gone: Gone): (s: State)
    ensures ByProof(s) && !s.suspect && (s.word.Mined? ==> row.bump.Some? && s.proof == row.bump)
    ensures ReplayOver(row, live, gone) == StepEvents(s, NewBranch(live, gone), row.chain)
  {
    HintTierIsNotMined(Started(row), row.hints);
    match row.bump
    case Some(p) => StepProof(HintTier(row), OldBranch(live, gone), p)
    case None => HintTier(row)
  }

  lemma ReplayIsByProof(row: Row, live: View, gone: Gone)
    ensures var s := ReplayOver(row, live, gone);
            ByProof(s) && (s.word.Mined? ==> row.bump.Some? && s.proof == row.bump)
  {
    StepEventsKeepsProof(Proven(row, live, gone), NewBranch(live, gone), row.chain);
  }

  /** The word the hints give, whatever their order: the most any of them said, over how it began. */
  lemma {:induction false} HintsRaise(s: State, hints: seq<HintStatus>)
    requires s.word in {Unknown, Built, Announced, Seen}
    ensures var t := StepHints(s, hints);
            && t.word == (if s.word == Seen || SeenBy in hints then Seen
                          else if s.word == Announced || Accepted in hints then Announced
                          else s.word)
            && t.reask == (if s.reask.None? && Disagrees in hints then Some(HintAsk) else s.reask)
    decreases |hints|
  {
    if hints != [] {
      HintsRaise(StepHint(s, hints[0]), hints[1..]);
      assert hints == [hints[0]] + hints[1..];
    }
  }

  /**
   A row that keeps no events, over headers whose tip was read: plain on the answered header when
   its root is the proof's, and otherwise the word its hints give, with a re-ask when another root
   is answered there.
   */
  lemma BareRow(row: Row, live: View)
    requires row.chain == [] && live.tip.Some?
    ensures var s, hinted := Replay(row, live), HintTier(row);
            var meets := row.bump.Some? && AnotherBlock(live, map[], row.bump.value.height)
                         && live.at(row.bump.value.height).header.root == row.bump.value.root;
            && hinted.word == (if SeenBy in row.hints then Seen else if Accepted in row.hints then Announced
                               else if row.built then Built else Unknown)
            && (meets ==> s == Fresh(row.bump.value.height, live.at(row.bump.value.height).header))
            && (!meets ==> s == hinted.(reask :=
                  if row.bump.Some? && AnotherBlock(live, map[], row.bump.value.height)
                  then Some(ProofFailed(row.bump.value.height)) else hinted.reask))
  {
    assert Deactivated([]) == map[];
    HintsRaise(Started(row), row.hints);
    HintTierIsNotMined(Started(row), row.hints);
  }

  /** The kept events are the last first forgotten: of tips and tip ages at most the newest is kept. */
  lemma {:induction false} NoTipsLeft(chain: seq<ChainEvent>)
    ensures forall k | 0 <= k < |WithoutTips(chain)| :: !IsTip(WithoutTips(chain)[k])
    ensures forall e :: e in WithoutTips(chain) <==> e in chain && !IsTip(e)
  {
    if chain != [] {
      NoTipsLeft(chain[..|chain| - 1]);
      assert chain == chain[..|chain| - 1] + [chain[|chain| - 1]];
    }
  }

  /** What a row that is not plain keeps: every event but the tips before a tip, in their order. */
  lemma KeptHasOneTip(chain: seq<ChainEvent>, s: State, e: ChainEvent)
    requires !Plain(s)
    ensures var kept := Kept(chain, s, e);
            && kept != [] && kept[|kept| - 1] == e
            && (forall d | !IsTip(d) :: d in kept <==> d in chain || d == e)
            && (IsTip(e) ==> forall k | 0 <= k < |kept| - 1 :: !IsTip(kept[k]))
  {
    NoTipsLeft(chain);
  }

  /** A word a delivery left plain was rechecked on the live header, so a bare reload agrees. */
  lemma PlainReplays(row: Row, live: View, e: ChainEvent, shared: Gone)
    requires Selects(Before(row, live, e), e) && Plain(After(row, live, e, shared))
    ensures Replay(row.(chain := []), live) == After(row, live, e, shared)
  {
    ReplayIsByProof(row, live, Deactivated(row.chain) + DeactivatedOf(e));
    assert OldBranch(live, map[]).tip == live.tip;
    assert Deactivated([]) == map[];
  }

  /** A row replays by its inputs alone. */
  lemma SameInputs(a: Row, b: Row, live: View, gone: Gone)
    requires a.built == b.built && a.hints == b.hints && a.bump == b.bump
    ensures Proven(a, live, gone) == Proven(b, live, gone)
    ensures a.chain == b.chain ==> ReplayOver(a, live, gone) == ReplayOver(b, live, gone)
  {
  }

  /** A row left plain forgets its events, and reloads to what it was left. */
  lemma PlainIsStored(row: Row, live: View, e: ChainEvent, shared: Gone)
    requires Selects(Before(row, live, e), e) && Plain(After(row, live, e, shared))
    ensures Replay(WrittenRow(row, After(row, live, e, shared), e), live) == After(row, live, e, shared)
  {
    var kept := WrittenRow(row, After(row, live, e, shared), e);
    PlainReplays(row, live, e, shared);
    SameInputs(kept, row.(chain := []), live, map[]);
    assert Deactivated([]) == map[];
  }

  /** Whatever was hidden from it, a row left otherwise replays as if it had been delivered alone. */
  lemma KeptReplays(row: Row, live: View, s: State, e: ChainEvent)
    requires !Plain(s) && !e.Tip? && !e.TipAge?
    ensures Replay(WrittenRow(row, s, e), live) == AfterAlone(row, live, e)
  {
    ReplayAppended(row, WrittenRow(row, s, e), live, row.chain, e);
  }

  /** A row with these inputs and this event after the chain: the chain, then the event. */
  lemma ReplayAppended(row: Row, kept: Row, live: View, chain: seq<ChainEvent>, e: ChainEvent)
    requires kept.built == row.built && kept.hints == row.hints && kept.bump == row.bump
    requires kept.chain == chain + [e]
    ensures var gone := Deactivated(chain) + DeactivatedOf(e);
            var v := NewBranch(live, gone);
            Replay(kept, live) == StepChain(StepEvents(Proven(row, live, gone), v, chain), v, e)
  {
    var gone := Deactivated(chain) + DeactivatedOf(e);
    DeactivatedAppend(chain, e);
    SameInputs(kept, row, live, gone);
    StepEventsAppend(Proven(row, live, gone), NewBranch(live, gone), chain, e);
  }

  /**
   A row keeps inputs, and they are enough: whatever chain of events it holds already, storing
   it after an event and replaying it under the same headers gives the same word, mark and
   re-ask. (A tip forgets the earlier tips: `TipReplays`. A tip age names no row.)
   */
  lemma DeliveryReplays(row: Row, live: View, e: ChainEvent)
    requires Writes(row, live, e) && !e.Tip? && !e.TipAge?
    ensures Replay(WrittenRow(row, AfterAlone(row, live, e), e), live) == AfterAlone(row, live, e)
  {
    if Plain(AfterAlone(row, live, e)) {
      PlainIsStored(row, live, e, Deactivated(row.chain) + DeactivatedOf(e));
    } else {
      KeptReplays(row, live, AfterAlone(row, live, e), e);
    }
  }

  // ---------------------------------------------------------------------------
  // Tips, which forget the earlier tips
  // ---------------------------------------------------------------------------

  /** A fork or a split at or below the word's height marks it. */
  predicate Marks(s: State, e: ChainEvent) {
    (e.Fork? || e.Split?) && Selects(s, e)
  }

  predicate Suspects(s: State, chain: seq<ChainEvent>) {
    chain != [] && (Suspects(s, chain[..|chain| - 1]) || Marks(s, chain[|chain| - 1]))
  }

  /** The first recheck once one more event has come. */
  function Sooner(s: State, suspect: bool, first: Option<ChainEvent>, e: ChainEvent): Option<ChainEvent> {
    if first.Some? then first
    else if !e.Fork? && !e.Split? && Selects(s.(suspect := suspect), e) then Some(e)
    else None
  }

  /** The first event of the chain that rechecks the word, while nothing before it has. */
  function FirstRecheck(s: State, chain: seq<ChainEvent>): Option<ChainEvent> {
    if chain == [] then None
    else
      var front := chain[..|chain| - 1];
      Sooner(s, Suspects(s, front), FirstRecheck(s, front), chain[|chain| - 1])
  }

  /** The re-ask a recheck by this event leaves when the root is gone. */
  function AskOf(s: State, e: ChainEvent): Reask
    requires s.word.Mined?
  {
    ReorgAsk(if e.Reorg? then e.forkHeight else s.word.height)
  }

  predicate IsTip(e: ChainEvent) { e.Tip? || e.TipAge? }

  /** The first recheck without the tips, against the first with them. */
  predicate KeptRight(suspect: bool, first: Option<ChainEvent>, kept: Option<ChainEvent>) {
    && (first.None? ==> kept.None?)
    && (first.Some? && !IsTip(first.value) ==> kept == first)
    && (first.Some? && IsTip(first.value) ==> suspect)
    && (kept.Some? ==> !IsTip(kept.value))
  }

  lemma OneMoreKept(s: State, suspect: bool, first: Option<ChainEvent>, kept: Option<ChainEvent>, e: ChainEvent)
    requires KeptRight(suspect, first, kept) && (s.suspect ==> suspect)
    ensures KeptRight(suspect || Marks(s, e), Sooner(s, suspect, first, e),
                      if IsTip(e) then kept else Sooner(s, suspect, kept, e))
  {
  }

  /** Dropping tips drops no mark, and no first recheck that was not itself a tip. */
  lemma {:induction false} WithoutTipsKeeps(s: State, chain: seq<ChainEvent>)
    requires !s.suspect
    ensures Suspects(s, WithoutTips(chain)) == Suspects(s, chain)
    ensures KeptRight(Suspects(s, chain), FirstRecheck(s, chain), FirstRecheck(s, WithoutTips(chain)))
  {
    if chain != [] {
      var front, last := chain[..|chain| - 1], chain[|chain| - 1];
      WithoutTipsKeeps(s, front);
      OneMoreKept(s, Suspects(s, front), FirstRecheck(s, front), FirstRecheck(s, WithoutTips(front)), last);
      if IsTip(last) {
        assert WithoutTips(chain) == WithoutTips(front);
      } else {
        assert (WithoutTips(front) + [last])[..|WithoutTips(front)|] == WithoutTips(front);
      }
    }
  }

  /** Where the root is gone, the first recheck makes the word stale, and nothing moves it after. */
  lemma {:induction false} GoneRuns(s: State, v: View, chain: seq<ChainEvent>)
    requires s.word.Mined? && ByProof(s) && !s.suspect && Check(v, s.proof.value).RootMismatch?
    ensures var a, first := StepEvents(s, v, chain), FirstRecheck(s, chain);
            match first
            case None => a.word == s.word && a.proof == s.proof && a.suspect == Suspects(s, chain)
            case Some(e) => a == State(Stale, s.proof, false, Some(AskOf(s, e)))
  {
    if chain != [] {
      GoneRuns(s, v, chain[..|chain| - 1]);
    }
  }

  /** A word that stands, or that nobody can look at, stays mined through any chain. */
  lemma {:induction false} StandsThrough(s: State, v: View, chain: seq<ChainEvent>)
    requires s.word.Mined? && ByProof(s) && !Check(v, s.proof.value).RootMismatch?
    ensures StepEvents(s, v, chain).word.Mined?
  {
    if chain != [] {
      StandsThrough(s, v, chain[..|chain| - 1]);
      StepEventsKeepsProof(s, v, chain[..|chain| - 1]);
    }
  }

  /** The parts of a state a stored row is read by when a tip has dropped earlier tips. */
  ghost predicate SameWord(a: State, b: State) {
    a.word == b.word && a.suspect == b.suspect
  }

  lemma {:induction false} BlindTips(s: State, v: View, chain: seq<ChainEvent>)
    requires ByProof(s) && !s.suspect
    requires s.word.Mined? ==> Check(v, s.proof.value).CouldNotLook?
    ensures SameWord(StepEvents(s, v, chain), StepEvents(s, v, WithoutTips(chain)))
    ensures s.word.Mined? ==> StepEvents(s, v, chain).word == s.word
  {
    if chain != [] {
      var front, last := chain[..|chain| - 1], chain[|chain| - 1];
      BlindTips(s, v, front);
      StepEventsKeepsProof(s, v, front);
      StepEventsKeepsProof(s, v, WithoutTips(front));
      if !IsTip(last) {
        StepEventsAppend(s, v, WithoutTips(front), last);
      } else {
        assert WithoutTips(chain) == WithoutTips(front);
      }
    }
  }

  /**
   What dropping the tips changes: a word still mined keeps its mark; one that has left mined is
   stale, and without the tips it is stale too, by the first recheck left, or still marked when
   there is none.
   */
  lemma DroppingTips(s: State, v: View, chain: seq<ChainEvent>)
    requires ByProof(s) && !s.suspect
    requires s.word.Mined? ==> !Check(v, s.proof.value).Meets?
    ensures var a, b := StepEvents(s, v, chain), StepEvents(s, v, WithoutTips(chain));
            var first, kept := FirstRecheck(s, chain), FirstRecheck(s, WithoutTips(chain));
            && (a.word.Mined? || !s.word.Mined? ==> SameWord(a, b))
            && (s.word.Mined? && !a.word.Mined? ==>
                  && first.Some? && a == State(Stale, s.proof, false, Some(AskOf(s, first.value)))
                  && if kept.Some? then b == State(Stale, s.proof, false, Some(AskOf(s, kept.value)))
                     else IsTip(first.value) && b.word == s.word && b.suspect && b.proof == s.proof)
  {
    WithoutTipsKeeps(s, chain);
    if !s.word.Mined? || Check(v, s.proof.value).CouldNotLook? {
      BlindTips(s, v, chain);
    } else {
      GoneRuns(s, v, chain);
      GoneRuns(s, v, WithoutTips(chain));
    }
  }

  /** Where the root stands, a word ever marked ends marked, or checked on the live header. */
  lemma {:induction false} MeetsRuns(s: State, v: View, chain: seq<ChainEvent>)
    requires s.word.Mined? && ByProof(s) && !s.suspect && Check(v, s.proof.value).Meets?
    ensures var b := StepEvents(s, v, chain);
            && b.word.Mined? && b.word.height == s.word.height && b.proof == s.proof
            && (b.suspect ==> Suspects(s, chain))
            && (Suspects(s, chain) && !b.suspect ==> b == Met(s, v))
  {
    if chain != [] {
      MeetsRuns(s, v, chain[..|chain| - 1]);
    }
  }

  function Met(s: State, v: View): State
    requires s.word.Mined? && s.proof.Some? && Check(v, s.proof.value).Meets?
  {
    State(Mined(s.word.height, Check(v, s.proof.value).header), s.proof, false, None)
  }

  /** So a tip after it ends the same whether or not the earlier tips were dropped. */
  lemma MeetsWithoutTips(s: State, v: View, chain: seq<ChainEvent>, height: Height)
    requires s.word.Mined? && ByProof(s) && !s.suspect && Check(v, s.proof.value).Meets?
    requires StepEvents(s, v, chain).suspect
    ensures StepChain(StepEvents(s, v, chain), v, Tip(height)) == Met(s, v)
    ensures StepChain(StepEvents(s, v, WithoutTips(chain)), v, Tip(height)) == Met(s, v)
  {
    MeetsRuns(s, v, chain);
    MeetsRuns(s, v, WithoutTips(chain));
    WithoutTipsKeeps(s, chain);
  }

  /** A tip that rechecks a marked word: a row it does not leave plain replays as if delivered alone. */
  lemma KeptTipRechecks(row: Row, live: View, s: State, height: Height)
    requires Selects(Before(row, live, Tip(height)), Tip(height)) && !Plain(s)
    ensures Replay(WrittenRow(row, s, Tip(height)), live) == AfterAlone(row, live, Tip(height))
  {
    var gone := Deactivated(row.chain);
    var proven, v := Proven(row, live, gone), NewBranch(live, gone);
    TipStates(row, live, height);
    KeptTipReplays(row, live, s, height);
    StepEventsKeepsProof(proven, v, row.chain);
    if Check(v, proven.proof.value).Meets? {
      MeetsWithoutTips(proven, v, row.chain, height);
    } else {
      DroppingTips(proven, v, row.chain);
      StepEventsKeepsProof(proven, v, WithoutTips(row.chain));
    }
  }

  /** A tip that rechecks a marked word, delivered and stored, replays to the same state. */
  lemma TipReplays(row: Row, live: View, height: Height)
    requires Selects(Before(row, live, Tip(height)), Tip(height))
    ensures var s := AfterAlone(row, live, Tip(height));
            Replay(WrittenRow(row, s, Tip(height)), live) == s
  {
    if Plain(AfterAlone(row, live, Tip(height))) {
      PlainIsStored(row, live, Tip(height), Deactivated(row.chain) + DeactivatedOf(Tip(height)));
    } else {
      KeptTipRechecks(row, live, AfterAlone(row, live, Tip(height)), height);
    }
  }

  lemma TipStates(row: Row, live: View, height: Height)
    ensures var gone := Deactivated(row.chain);
            && Before(row, live, Tip(height)) == StepEvents(Proven(row, live, gone), NewBranch(live, gone), row.chain)
            && AfterAlone(row, live, Tip(height))
               == StepChain(Before(row, live, Tip(height)), NewBranch(live, gone), Tip(height))
  {
    assert Deactivated(row.chain) + DeactivatedOf(Tip(height)) == Deactivated(row.chain);
  }

  /** The row a tip leaves not plain, whatever was hidden, replays its other events, then the tip. */
  lemma KeptTipReplays(row: Row, live: View, s: State, height: Height)
    requires !Plain(s)
    ensures var gone := Deactivated(row.chain);
            var v := NewBranch(live, gone);
            Replay(WrittenRow(row, s, Tip(height)), live)
            == StepChain(StepEvents(Proven(row, live, gone), v, WithoutTips(row.chain)), v, Tip(height))
  {
    var kept := KeptByTip(row, s, height);
    ReplayAppended(row, kept, live, WithoutTips(row.chain), Tip(height));
    DeactivatedWithoutTips(row.chain);
    assert Deactivated(row.chain) + DeactivatedOf(Tip(height)) == Deactivated(row.chain);
  }

  lemma KeptByTip(row: Row, s: State, height: Height) returns (kept: Row)
    requires !Plain(s)
    ensures kept == WrittenRow(row, s, Tip(height)) && kept.chain == WithoutTips(row.chain) + [Tip(height)]
    ensures kept.built == row.built && kept.hints == row.hints && kept.bump == row.bump
  {
    kept := WrittenRow(row, s, Tip(height));
  }

  /**
   The replay of the row would take its re-ask from another event: a tip now dropped was the
   first to recheck the word, and of what is kept the first is a reorg at another height.
   */
  predicate TipHeldTheAsk(s: State, chain: seq<ChainEvent>) {
    s.word.Mined? &&
    var first, kept := FirstRecheck(s, chain), FirstRecheck(s, WithoutTips(chain));
    && first.Some? && first.value.Tip?
    && kept.Some? && kept.value.Reorg? && kept.value.forkHeight != s.word.height
  }

  /**
   Every tip that writes a row. The stored row always replays to the same word and mark; and to
   the same re-ask unless the replay had already moved the word, by a tip now dropped, ahead of a
   kept reorg at another height.
   */
  lemma TipKeepsTheWord(row: Row, live: View, height: Height)
    requires Writes(row, live, Tip(height))
    ensures var before, s := Before(row, live, Tip(height)), AfterAlone(row, live, Tip(height));
            var replayed := Replay(WrittenRow(row, s, Tip(height)), live);
            && SameWord(replayed, s)
            && (replayed == s <==>
                  before.word.Mined? || !TipHeldTheAsk(Proven(row, live, Deactivated(row.chain)), row.chain))
  {
    var e, gone := Tip(height), Deactivated(row.chain);
    if Selects(Before(row, live, e), e) {
      TipReplays(row, live, height);
      assert gone + DeactivatedOf(e) == gone;
    } else {
      TipStates(row, live, height);
      KeptTipReplays(row, live, AfterAlone(row, live, e), height);
      MovedRow(Proven(row, live, gone), NewBranch(live, gone), row.chain, height);
    }
  }

  lemma MovedRow(s: State, v: View, chain: seq<ChainEvent>, height: Height)
    requires ByProof(s) && !s.suspect && !StepEvents(s, v, chain).word.Mined?
    ensures var a, b := StepEvents(s, v, chain), StepChain(StepEvents(s, v, WithoutTips(chain)), v, Tip(height));
            SameWord(b, a) && (b == a <==> !TipHeldTheAsk(s, chain))
  {
    if !s.word.Mined? {
      StepEventsKeepsProof(s, v, chain);
      StepEventsKeepsProof(s, v, WithoutTips(chain));
    } else {
      if !Check(v, s.proof.value).RootMismatch? {
        StandsThrough(s, v, chain);
      }
      DroppingTips(s, v, chain);
      WithoutTipsKeeps(s, chain);
      FirstIsNoTipAge(s, chain);
    }
  }

  /** A tip age rechecks nothing. */
  lemma {:induction false} FirstIsNoTipAge(s: State, chain: seq<ChainEvent>)
    ensures FirstRecheck(s, chain).Some? ==> !FirstRecheck(s, chain).value.TipAge?
  {
    if chain != [] {
      FirstIsNoTipAge(s, chain[..|chain| - 1]);
    }
  }

  /** The event is delivered to a row whose word a pass over `pass` stored, and the row is written. */
  ghost predicate Delivers(before: Row, pass: View, live: View, e: ChainEvent, after: Row) {
    && Names(e, before, Replay(before, pass).word) && Writes(before, live, e)
    && after == WrittenRow(before, AfterAlone(before, live, e), e)
  }

  /** A service that answers one header at every height up to its tip, or none. */
  function Serves(tip: Height, answer: Answer): View {
    View(Some(tip), (h: Height) => answer)
  }

  /** Mined by its proof, on this header. */
  function Fresh(h: Height, header: Header): State {
    State(Mined(h, header), Some(Proof(h, header.root)), false, None)
  }

  function Marked(h: Height, header: Header, reask: Reask): State {
    Fresh(h, header).(suspect := true, reask := Some(reask))
  }

  /** The state of a word whose root is gone. */
  function LeftMined(h: Height, header: Header, reask: Reask): State {
    State(Stale, Some(Proof(h, header.root)), false, Some(reask))
  }

  /** A row with a proof by this header starts mined on it wherever the old branch answers it. */
  lemma StartsFresh(row: Row, live: View, gone: Gone, h: Height, header: Header)
    requires row.bump == Some(Proof(h, header.root))
    requires OldBranch(live, gone).at(h) == Known(header)
    requires live.tip.Some? && h <= live.tip.value
    ensures Proven(row, live, gone) == Fresh(h, header)
  {
  }

  lemma {:induction false} TwoSteps(s: State, v: View, a: ChainEvent, b: ChainEvent)
    ensures StepEvents(s, v, [a]) == StepChain(s, v, a)
    ensures StepEvents(s, v, [a, b]) == StepChain(StepChain(s, v, a), v, b)
  {
    StepEventsAppend(s, v, [], a);
    StepEventsAppend(s, v, [a], b);
    assert [] + [a] == [a] && [a] + [b] == [a, b];
  }

  lemma {:induction false} ThreeSteps(s: State, v: View, a: ChainEvent, b: ChainEvent, c: ChainEvent)
    ensures StepEvents(s, v, [a, b, c]) == StepChain(StepChain(StepChain(s, v, a), v, b), v, c)
  {
    TwoSteps(s, v, a, b);
    StepEventsAppend(s, v, [a, b], c);
    assert [a, b] + [c] == [a, b, c];
  }

  lemma {:induction false} OneGone(a: ChainEvent)
    ensures Deactivated([a]) == DeactivatedOf(a)
  {
    assert [a][..0] == [] && Deactivated([]) == map[];
  }

  lemma {:induction false} TwoGone(a: ChainEvent, b: ChainEvent)
    ensures Deactivated([a, b]) == DeactivatedOf(a) + DeactivatedOf(b)
  {
    assert [a, b][..1] == [a];
    OneGone(a);
  }

  lemma {:induction false} FewGone(a: ChainEvent, b: ChainEvent, c: ChainEvent)
    requires !a.Reorg? && !b.Reorg?
    ensures Deactivated([a]) == map[] && Deactivated([a, b]) == map[]
    ensures Deactivated([a, b, c]) == DeactivatedOf(c)
  {
    OneGone(a);
    TwoGone(a, b);
    assert [a, b, c][..2] == [a, b];
  }

  lemma {:induction false} OneKept(a: ChainEvent)
    requires !IsTip(a)
    ensures WithoutTips([a]) == [a]
  {
    assert [a][..0] == [] && WithoutTips([]) == [];
  }

  lemma {:induction false} TwoKept(a: ChainEvent, tip: ChainEvent)
    requires !IsTip(a) && IsTip(tip)
    ensures WithoutTips([a, tip]) == [a]
  {
    assert [a, tip][..1] == [a];
    OneKept(a);
  }

  lemma {:induction false} FewKept(a: ChainEvent, tip: ChainEvent, c: ChainEvent)
    requires !IsTip(a) && IsTip(tip) && !IsTip(c)
    ensures WithoutTips([a]) == [a] && WithoutTips([a, tip, c]) == [a, c]
  {
    OneKept(a);
    TwoKept(a, tip);
    assert [a, tip, c][..2] == [a, tip] && [a] + [c] == [a, c];
  }

  /** A fork, a tip and a reorg from below over headers that cannot be looked at: marked throughout. */
  lemma BlindEvents(h: Height, header: Header, v: View, reorg: ChainEvent)
    requires Check(v, Proof(h, header.root)).CouldNotLook? && reorg.Reorg? && reorg.forkHeight <= h
    ensures var s := Fresh(h, header);
            && StepEvents(s, v, [Fork(h), Tip(h)]) == Marked(h, header, Recheck)
            && StepEvents(s, v, [Fork(h), Tip(h), reorg]) == Marked(h, header, Recheck)
  {
    TwoSteps(Fresh(h, header), v, Fork(h), Tip(h));
    ThreeSteps(Fresh(h, header), v, Fork(h), Tip(h), reorg);
  }

  /** Over another block's header, the first of the tip and the reorg that is there leaves its re-ask. */
  lemma MovedEvents(h: Height, header: Header, v: View, reorg: ChainEvent)
    requires Check(v, Proof(h, header.root)).RootMismatch? && reorg.Reorg? && reorg.forkHeight <= h
    ensures var s := Fresh(h, header);
            && StepEvents(s, v, [Fork(h), Tip(h), reorg]) == LeftMined(h, header, ReorgAsk(h))
            && StepEvents(s, v, [Fork(h), reorg]) == LeftMined(h, header, ReorgAsk(reorg.forkHeight))
  {
    TwoSteps(Fresh(h, header), v, Fork(h), reorg);
    ThreeSteps(Fresh(h, header), v, Fork(h), Tip(h), reorg);
  }

  lemma FirstFork(row: Row, gone: Header, h: Height) returns (forked: Row)
    requires row.chain == [] && row.bump == Some(Proof(h, gone.root))
    ensures Delivers(row, Serves(h, Known(gone)), Serves(h, Known(gone)), Fork(h), forked)
    ensures forked.chain == [Fork(h)] && forked.bump == row.bump
  {
    var still := Serves(h, Known(gone));
    assert Deactivated([]) + DeactivatedOf(Fork(h)) == map[];
    forked := WrittenRow(row, AfterAlone(row, still, Fork(h)), Fork(h));
  }

  lemma ThenBlindTip(forked: Row, gone: Header, h: Height) returns (tipped: Row)
    requires forked.chain == [Fork(h)] && forked.bump == Some(Proof(h, gone.root))
    ensures Delivers(forked, Serves(h, Known(gone)), Serves(h, NotRead), Tip(h), tipped)
    ensures tipped.chain == [Fork(h), Tip(h)] && tipped.bump == forked.bump
  {
    FewKept(Fork(h), Tip(h), Fork(h));
    ForkedStands(forked, gone, h);
    BlindIsNotMined(forked, h);
    tipped := WrittenRow(forked, AfterAlone(forked, Serves(h, NotRead), Tip(h)), Tip(h));
  }

  lemma ForkedStands(forked: Row, gone: Header, h: Height)
    requires forked.chain == [Fork(h)] && forked.bump == Some(Proof(h, gone.root))
    ensures Replay(forked, Serves(h, Known(gone))).word == Mined(h, gone)
  {
    var still := Serves(h, Known(gone));
    FewGone(Fork(h), Tip(h), Tip(h));
    StartsFresh(forked, still, map[], h, gone);
    TwoSteps(Fresh(h, gone), NewBranch(still, map[]), Fork(h), Tip(h));
  }

  lemma BlindIsNotMined(forked: Row, h: Height)
    requires forked.chain == [Fork(h)]
    ensures !Before(forked, Serves(h, NotRead), Tip(h)).word.Mined?
  {
    var blind := Serves(h, NotRead);
    OneGone(Fork(h));
    assert Deactivated(forked.chain) + DeactivatedOf(Tip(h)) == map[];
    HintTierIsNotMined(Started(forked), forked.hints);
    StepEventsKeepsProof(Proven(forked, blind, map[]), NewBranch(blind, map[]), forked.chain);
  }

  /** Named while it still stands mined, and rechecked where the header is taken away. */
  lemma ThenReorg(tipped: Row, gone: Header, h: Height, fork: Height) returns (reorged: Row)
    requires tipped.chain == [Fork(h), Tip(h)] && tipped.bump == Some(Proof(h, gone.root)) && fork < h
    ensures Delivers(tipped, Serves(h, Known(gone)), Serves(h, Known(gone)), Reorg(fork, map[h := gone]), reorged)
    ensures reorged.chain == [Fork(h), Tip(h), Reorg(fork, map[h := gone])] && reorged.bump == tipped.bump
  {
    var still, reorg := Serves(h, Known(gone)), Reorg(fork, map[h := gone]);
    TippedStands(tipped, gone, h);
    ReorgIsBlind(tipped, gone, h, fork);
    reorged := WrittenRow(tipped, AfterAlone(tipped, still, reorg), reorg);
  }

  lemma TippedStands(tipped: Row, gone: Header, h: Height)
    requires tipped.chain == [Fork(h), Tip(h)] && tipped.bump == Some(Proof(h, gone.root))
    ensures Replay(tipped, Serves(h, Known(gone))).word == Mined(h, gone)
  {
    var still := Serves(h, Known(gone));
    FewGone(Fork(h), Tip(h), Tip(h));
    StartsFresh(tipped, still, map[], h, gone);
    TwoSteps(Fresh(h, gone), NewBranch(still, map[]), Fork(h), Tip(h));
  }

  lemma ReorgIsBlind(tipped: Row, gone: Header, h: Height, fork: Height)
    requires tipped.chain == [Fork(h), Tip(h)] && tipped.bump == Some(Proof(h, gone.root)) && fork < h
    ensures var still, reorg := Serves(h, Known(gone)), Reorg(fork, map[h := gone]);
            && Before(tipped, still, reorg) == Marked(h, gone, Recheck)
            && AfterAlone(tipped, still, reorg) == Marked(h, gone, Recheck)
  {
    var still, reorg := Serves(h, Known(gone)), Reorg(fork, map[h := gone]);
    FewGone(Fork(h), Tip(h), reorg);
    assert Deactivated(tipped.chain) + DeactivatedOf(reorg) == map[h := gone];
    StartsFresh(tipped, still, map[h := gone], h, gone);
    BlindEvents(h, gone, NewBranch(still, map[h := gone]), reorg);
  }

  /** The word a pass stores while the service still answers the old header: the next tip names it. */
  lemma StillNamed(reorged: Row, gone: Header, h: Height, fork: Height)
    requires reorged.chain == [Fork(h), Tip(h), Reorg(fork, map[h := gone])]
    requires reorged.bump == Some(Proof(h, gone.root)) && fork < h
    ensures Names(Tip(h), reorged, Replay(reorged, Serves(h, Known(gone))).word)
  {
    var still, reorg := Serves(h, Known(gone)), Reorg(fork, map[h := gone]);
    FewGone(Fork(h), Tip(h), reorg);
    StartsFresh(reorged, still, map[h := gone], h, gone);
    BlindEvents(h, gone, NewBranch(still, map[h := gone]), reorg);
  }

  /** Once the service has moved, the replay before the tip has left mined, by the kept tip. */
  lemma MovedByTip(reorged: Row, gone: Header, come: Header, h: Height, fork: Height)
    requires reorged.chain == [Fork(h), Tip(h), Reorg(fork, map[h := gone])]
    requires reorged.bump == Some(Proof(h, gone.root))
    requires come.root != gone.root && come.hash != gone.hash && fork < h
    ensures var moved := Serves(h, Known(come));
            && Before(reorged, moved, Tip(h)) == LeftMined(h, gone, ReorgAsk(h))
            && AfterAlone(reorged, moved, Tip(h)) == LeftMined(h, gone, ReorgAsk(h))
  {
    var moved, reorg := Serves(h, Known(come)), Reorg(fork, map[h := gone]);
    FewGone(Fork(h), Tip(h), reorg);
    assert Deactivated(reorged.chain) + DeactivatedOf(Tip(h)) == map[h := gone];
    StartsFresh(reorged, moved, map[h := gone], h, gone);
    MovedEvents(h, gone, NewBranch(moved, map[h := gone]), reorg);
  }

  /** The row stored has lost that tip, and the replay leaves mined by the reorg. */
  lemma ReplayedByReorg(reorged: Row, gone: Header, come: Header, h: Height, fork: Height)
    requires reorged.chain == [Fork(h), Tip(h), Reorg(fork, map[h := gone])]
    requires reorged.bump == Some(Proof(h, gone.root))
    requires come.root != gone.root && come.hash != gone.hash && fork < h
    ensures var moved := Serves(h, Known(come));
            var s := AfterAlone(reorged, moved, Tip(h));
            Replay(WrittenRow(reorged, s, Tip(h)), moved) == LeftMined(h, gone, ReorgAsk(fork))
  {
    var moved, reorg := Serves(h, Known(come)), Reorg(fork, map[h := gone]);
    MovedByTip(reorged, gone, come, h, fork);
    KeptTipReplays(reorged, moved, AfterAlone(reorged, moved, Tip(h)), h);
    FewGone(Fork(h), Tip(h), reorg);
    FewKept(Fork(h), Tip(h), reorg);
    WithoutTheTip(reorged, gone, come, h, fork);
  }

  lemma WithoutTheTip(reorged: Row, gone: Header, come: Header, h: Height, fork: Height)
    requires reorged.bump == Some(Proof(h, gone.root))
    requires come.root != gone.root && come.hash != gone.hash && fork < h
    ensures var moved, reorg := Serves(h, Known(come)), Reorg(fork, map[h := gone]);
            var v := NewBranch(moved, map[h := gone]);
            StepChain(StepEvents(Proven(reorged, moved, map[h := gone]), v, [Fork(h), reorg]), v, Tip(h))
            == LeftMined(h, gone, ReorgAsk(fork))
  {
    var moved := Serves(h, Known(come));
    StartsFresh(reorged, moved, map[h := gone], h, gone);
    MovedEvents(h, gone, NewBranch(moved, map[h := gone]), Reorg(fork, map[h := gone]));
  }

  /**
   A run of deliveries that leaves such a row: a fork at its height; a tip while no header is
   answered; a reorg from below while the service still answers the old header. Then the service
   moves, and the next tip stores one re-ask where a reload gives another.
   */
  lemma DroppedTipChangesTheAsk(row: Row, gone: Header, come: Header, h: Height, fork: Height)
      returns (forked: Row, tipped: Row, reorged: Row)
    requires row.chain == [] && row.bump == Some(Proof(h, gone.root))
    requires come.root != gone.root && come.hash != gone.hash && fork < h
    ensures var still := Serves(h, Known(gone));
            && Delivers(row, still, still, Fork(h), forked)
            && Delivers(forked, still, Serves(h, NotRead), Tip(h), tipped)
            && Delivers(tipped, still, still, Reorg(fork, map[h := gone]), reorged)
            && Names(Tip(h), reorged, Replay(reorged, still).word)
    ensures var moved := Serves(h, Known(come));
            var s := AfterAlone(reorged, moved, Tip(h));
            && Writes(reorged, moved, Tip(h)) && s.reask == Some(ReorgAsk(h))
            && Replay(WrittenRow(reorged, s, Tip(h)), moved).reask == Some(ReorgAsk(fork))
  {
    forked := FirstFork(row, gone, h);
    tipped := ThenBlindTip(forked, gone, h);
    reorged := ThenReorg(tipped, gone, h, fork);
    StillNamed(reorged, gone, h, fork);
    MovedByTip(reorged, gone, come, h, fork);
    ReplayedByReorg(reorged, gone, come, h, fork);
  }

  // ---------------------------------------------------------------------------
  // Many rows in one delivery
  // ---------------------------------------------------------------------------

  /** The service's header at the height is one `gone` takes away. */
  ghost predicate Hides(live: View, gone: Gone, h: Height) {
    live.at(h).Known? && h in gone && gone[h].hash == live.at(h).header.hash
  }

  /** The shared map and the row's own hide the same answer at its height, or none is in the tip. */
  ghost predicate HidesAlike(live: View, shared: Gone, own: Gone, h: Height) {
    Hides(live, shared, h) == Hides(live, own, h) || live.tip.None? || live.tip.value < h
  }

  /**
   The delivery hides from every named row what any of them took away. For every event, a row ends
   as it would alone if and only if the event does not name it, or only marks it, or the shared
   map hides the service's header at the row's height exactly when the row's own does, wherever
   the service answers one in its tip.
   */
  lemma SharedHeadersMatter(row: Row, live: View, e: ChainEvent, shared: Gone)
    ensures var before, own := Before(row, live, e), Deactivated(row.chain) + DeactivatedOf(e);
            After(row, live, e, shared) == AfterAlone(row, live, e) <==>
              || !Selects(before, e) || e.Fork? || e.Split?
              || HidesAlike(live, shared, own, before.word.height)
  {
    var before, own := Before(row, live, e), Deactivated(row.chain) + DeactivatedOf(e);
    ReplayIsByProof(row, live, own);
    if Selects(before, e) && !e.Fork? && !e.Split? {
      RechecksAlike(before, live, shared, own, AskOf(before, e));
    }
  }

  lemma RechecksAlike(s: State, live: View, a: Gone, b: Gone, ask: Reask)
    requires s.word.Mined? && ByProof(s)
    ensures var x, y := StepRecheck(s, NewBranch(live, a), ask), StepRecheck(s, NewBranch(live, b), ask);
            && (x == y <==> HidesAlike(live, a, b, s.word.height))
            && (SameWord(x, y) ==> x == y)
  {
  }

  /** And where it matters it shows in the word or the mark. */
  lemma SharedShows(row: Row, live: View, e: ChainEvent, shared: Gone)
    requires Selects(Before(row, live, e), e)
    ensures SameWord(After(row, live, e, shared), AfterAlone(row, live, e)) ==>
              After(row, live, e, shared) == AfterAlone(row, live, e)
  {
    var before, own := Before(row, live, e), Deactivated(row.chain) + DeactivatedOf(e);
    ReplayIsByProof(row, live, own);
    if !e.Fork? && !e.Split? {
      RechecksAlike(before, live, shared, own, AskOf(before, e));
    }
  }

  /** The stored state `s` is the one the row would have been left in alone, or it is plain. */
  ghost predicate EndsAlone(row: Row, live: View, e: ChainEvent, shared: Gone, s: State) {
    var before, own := Before(row, live, e), Deactivated(row.chain) + DeactivatedOf(e);
    !Selects(before, e) || e.Fork? || e.Split? || Plain(s) || HidesAlike(live, shared, own, before.word.height)
  }

  /** A row not left plain replays as it would have been left alone, so the shared map is all that counts. */
  lemma RecheckedReplays(row: Row, live: View, e: ChainEvent, shared: Gone)
    requires Selects(Before(row, live, e), e)
    ensures var s := After(row, live, e, shared);
            var replayed := Replay(WrittenRow(row, s, e), live);
            && (SameWord(replayed, s) <==> EndsAlone(row, live, e, shared, s))
            && (SameWord(replayed, s) ==> replayed == s)
  {
    var s := After(row, live, e, shared);
    if Plain(s) {
      PlainIsStored(row, live, e, shared);
    } else {
      if e.Tip? {
        KeptTipRechecks(row, live, s, e.height);
      } else {
        KeptReplays(row, live, s, e);
      }
      SharedHeadersMatter(row, live, e, shared);
      SharedShows(row, live, e, shared);
    }
  }

  /** The tip whose re-ask the stored row no longer has. */
  ghost predicate LosesTheAsk(row: Row, live: View, e: ChainEvent) {
    && e.Tip? && !Before(row, live, e).word.Mined?
    && TipHeldTheAsk(Proven(row, live, Deactivated(row.chain)), row.chain)
  }

  /**
   What the table stores. For every event that writes a row, whatever the other named rows hide
   from it: replaying the stored row gives the stored word and mark exactly when the event did not
   select the row or only marked it, or left it plain, or the shared map and the row's own hide the
   service's header alike; and the stored re-ask too unless a dropped tip held it.
   */
  lemma StoredReplays(at: Stored, live: View, e: ChainEvent, shared: Gone)
    requires Writes(at.row, live, e) && !e.TipAge?
    ensures var d := Delivered(at, live, e, shared);
            var replayed := Replay(d.row, live);
            && (SameWord(replayed, d.state) <==> EndsAlone(at.row, live, e, shared, d.state))
            && (replayed == d.state <==>
                  EndsAlone(at.row, live, e, shared, d.state) && !LosesTheAsk(at.row, live, e))
  {
    if Selects(Before(at.row, live, e), e) {
      RecheckedReplays(at.row, live, e, shared);
    } else if e.Tip? {
      TipKeepsTheWord(at.row, live, e.height);
    } else {
      DeliveryReplays(at.row, live, e);
    }
  }

  /** A reorg delivered to a row fresh from its proof, while the service still answers the old header. */
  lemma LeavesItsHeader(proved: Row, live: View, header: Header, h: Height, low: Height) returns (neighbour: Row)
    requires proved.chain == [] && proved.bump == Some(Proof(h, header.root)) && low <= h
    requires live.tip.Some? && h <= live.tip.value && live.at(h) == Known(header)
    ensures Delivers(proved, live, live, Reorg(low, map[h := header]), neighbour)
    ensures neighbour.chain == [Reorg(low, map[h := header])]
    ensures Replay(neighbour, live).word == Mined(h, header)
  {
    var e := Reorg(low, map[h := header]);
    var s := AfterAlone(proved, live, e);
    neighbour := WrittenRow(proved, s, e);
    StandsMined(proved, live, header, h);
    DeactivatedIsSelected(proved, live, e);
    StillDeactivatedIsSuspect(proved, live, e);
    DeliveryReplays(proved, live, e);
    assert Deactivated([]) + e.deactivated == e.deactivated;
    ReorgVerdict(proved, live, e);
  }

  lemma StandsMined(row: Row, live: View, header: Header, h: Height)
    requires row.chain == [] && row.bump == Some(Proof(h, header.root))
    requires live.tip.Some? && h <= live.tip.value && live.at(h) == Known(header)
    ensures Replay(row, live).word == Mined(h, header)
  {
    assert Deactivated([]) == map[];
    StartsFresh(row, live, map[], h, header);
  }

  lemma TwoShared(row: Row, neighbour: Row, e: ChainEvent)
    requires row.chain == [] && |neighbour.chain| == 1 && e.Reorg? && e.deactivated == map[]
    ensures SharedGone([row, neighbour]) + DeactivatedOf(e) == DeactivatedOf(neighbour.chain[0])
  {
    var rows := [row, neighbour];
    assert rows[..1] == [row] && [row][..0] == [];
    assert neighbour.chain == [] + [neighbour.chain[0]];
    DeactivatedAppend([], neighbour.chain[0]);
    assert Deactivated(row.chain) == map[] && SharedGone([row]) == map[];
    assert SharedGone(rows) == SharedGone(rows[..1]) + Deactivated(rows[1].chain);
  }

  /**
   And it does show. Two rows proved in one block; the first reorg reaches one of them while the
   service still answers that block's header, and the other is proved after it. The next reorg
   names both: alone the second would be left mined and unmarked, together it is left suspect.
   */
  lemma NeighbourHidesTheHeader(
      row: Row, proved: Row, live: View, header: Header, h: Height, fork: Height, low: Height)
      returns (neighbour: Row)
    requires row.chain == [] && row.bump == Some(Proof(h, header.root)) && fork <= h
    requires proved.chain == [] && proved.bump == Some(Proof(h, header.root)) && low <= h
    requires live.tip.Some? && h <= live.tip.value && live.at(h) == Known(header)
    ensures Delivers(proved, live, live, Reorg(low, map[h := header]), neighbour)
    ensures var e := Reorg(fork, map[]);
            var shared := SharedGone([row, neighbour]) + DeactivatedOf(e);
            && Names(e, row, Replay(row, live).word) && Names(e, neighbour, Replay(neighbour, live).word)
            && Plain(AfterAlone(row, live, e))
            && After(row, live, e, shared).suspect && After(row, live, e, shared).reask == Some(Recheck)
  {
    var e := Reorg(fork, map[]);
    neighbour := LeavesItsHeader(proved, live, header, h, low);
    StandsMined(row, live, header, h);
    TwoShared(row, neighbour, e);
    assert Deactivated([]) == map[] && Deactivated([]) + DeactivatedOf(e) == map[];
    StartsFresh(row, live, map[], h, header);
  }

  /** Whatever event rechecked it, a row is never left mined, unmarked, on a header taken away. */
  lemma NeverOnADeactivatedHeader(row: Row, live: View, e: ChainEvent, shared: Gone)
    requires Selects(Before(row, live, e), e) && Plain(After(row, live, e, shared))
    ensures var s := After(row, live, e, shared);
            && live.at(s.word.height) == Known(s.word.header)
            && row.bump.Some? && s.word.header.root == row.bump.value.root
            && (s.word.height in shared ==> shared[s.word.height].hash != s.word.header.hash)
  {
    ReplayIsByProof(row, live, Deactivated(row.chain) + DeactivatedOf(e));
  }

  /** The row a stored word names by index, for this event. */
  predicate Names(e: ChainEvent, row: Row, word: Word) {
    match e
    case Fork(from) => word.Mined? && from <= word.height
    case Reorg(from, _) => word.Mined? && from <= word.height
    case Split(_, from) => word.Mined? && from <= word.height
    case SplitResolved(_, from) => word.Mined? && from <= word.height
    case Tip(_) => word.Mined? && row.chain != []
    case Invalidated(hash) => word.Mined? && word.header.hash == hash
    case Frozen(_) => false
    case TipAge => false
  }

  datatype Stored = Stored(row: Row, state: State)

  function SharedGone(rows: seq<Row>): Gone {
    if rows == [] then map[]
    else SharedGone(rows[..|rows| - 1]) + Deactivated(rows[|rows| - 1].chain)
  }

  function Delivered(at: Stored, live: View, e: ChainEvent, shared: Gone): Stored {
    if !Writes(at.row, live, e) then at
    else
      var s := After(at.row, live, e, shared);
      Stored(WrittenRow(at.row, s, e), s)
  }

  /** What the delivery leaves of one stored row. */
  function Next(at: Stored, live: View, e: ChainEvent, shared: Gone): Stored {
    if Names(e, at.row, at.state.word) then Delivered(at, live, e, shared) else at
  }

  // ---------------------------------------------------------------------------
  // What one delivery leaves in the table
  // ---------------------------------------------------------------------------

  /**
   The index misses no row the event would move: of the rows stored as they replay, the event moves
   those it names, and of the rows a tip or a resolved split names those that are marked.
   */
  lemma NamedIfMoved(row: Row, live: View, e: ChainEvent)
    ensures var s := Replay(row, live);
            Selects(s, e) <==> Names(e, row, s.word) && (e.Tip? || e.SplitResolved? ==> s.suspect)
  {
    ReplayIsByProof(row, live, Deactivated(row.chain));
    MarkedKeepsEvents(row, live, Deactivated(row.chain));
  }

  lemma MarkedKeepsEvents(row: Row, live: View, gone: Gone)
    ensures ReplayOver(row, live, gone).suspect ==> row.chain != []
  {
    var s := Proven(row, live, gone);
  }

  /**
   What is left of a named row the event rechecks: a reorg, an invalidated block, or a tip or a
   resolved split on a marked word. With another block at its height the row is plain or stale by
   that block's root, and a stale one is asked for a proof at once; with none it is suspect, its
   word unchanged.
   */
  lemma RecheckVerdict(at: Stored, live: View, e: ChainEvent, shared: Gone)
    requires Names(e, at.row, at.state.word) && Before(at.row, live, e).word.Mined?
    requires var before := Before(at.row, live, e);
             match e
             case Reorg(fork, _) => fork <= before.word.height
             case SplitResolved(_, fork) => fork <= before.word.height && before.suspect
             case Tip(_) => before.suspect
             case Invalidated(hash) => before.word.header.hash == hash
             case _ => false
    ensures var before, now := Before(at.row, live, e), Next(at, live, e, shared);
            var h, s := before.word.height, now.state;
            && at.row.bump.Some? && at.row.bump.value.height == h
            && (Plain(s) <==> AnotherBlock(live, shared, h) && live.at(h).header.root == at.row.bump.value.root)
            && (Plain(s) ==> s.word == Mined(h, live.at(h).header) && now.row == at.row.(chain := []))
            && (s.word == Stale <==> AnotherBlock(live, shared, h) && live.at(h).header.root != at.row.bump.value.root)
            && (s.word == Stale ==>
                  && s.reask == Some(ReorgAsk(if e.Reorg? then e.forkHeight else h)) && !s.suspect
                  && now.row.asks == 0 && now.row.nextAskAt.None?)
            && (s.suspect <==> !AnotherBlock(live, shared, h))
            && (s.suspect ==>
                  && s.word == before.word && s.reask == Some(Recheck)
                  && now.row.asks == at.row.asks && now.row.nextAskAt == at.row.nextAskAt)
  {
    var before := Before(at.row, live, e);
    ReplayIsByProof(at.row, live, Deactivated(at.row.chain) + DeactivatedOf(e));
    var s := RecheckLeaves(before, live, shared, AskOf(before, e));
    assert Next(at, live, e, shared) == Stored(WrittenRow(at.row, s, e), s);
  }

  lemma RecheckLeaves(before: State, live: View, gone: Gone, ask: Reask) returns (s: State)
    requires before.word.Mined? && ByProof(before)
    ensures s == StepRecheck(before, NewBranch(live, gone), ask)
    ensures var h, root := before.word.height, before.proof.value.root;
            if !AnotherBlock(live, gone, h) then s == before.(suspect := true, reask := Some(Recheck))
            else if live.at(h).header.root == root then
              s == before.(word := Mined(h, live.at(h).header), suspect := false, reask := None)
            else s == before.(word := Stale, suspect := false, reask := Some(ask))
  {
    s := StepRecheck(before, NewBranch(live, gone), ask);
  }

  /** The height from which an event marks: a fork's, or an open split's. */
  function MarksFrom(e: ChainEvent): Option<Height> {
    match e
    case Fork(height) => Some(height)
    case Split(_, fork) => Some(fork)
    case _ => None
  }

  /**
   After a fork or a split no row of the table is plain at or above its height, whatever headers
   the rows were stored over; a row that still stands is marked, its word unchanged.
   */
  lemma NonePlainAbove(at: Stored, pass: View, live: View, e: ChainEvent, shared: Gone)
    requires at.state == Replay(at.row, pass) && MarksFrom(e).Some?
    ensures var from, before, now := MarksFrom(e).value, Before(at.row, live, e), Next(at, live, e, shared);
            && (Plain(now.state) ==> now == at && at.state.word.height < from)
            && (at.state.word.Mined? && from <= at.state.word.height && before.word.Mined? ==>
                  && now.state == before.(suspect := true, reask := Some(ForkAsk(from)))
                  && now.row == at.row.(chain := at.row.chain + [e]))
  {
    ReplayIsByProof(at.row, pass, Deactivated(at.row.chain));
    ReplayIsByProof(at.row, live, Deactivated(at.row.chain) + DeactivatedOf(e));
  }

  /**
   After a reorg every row of the table still plain at or above the fork stands on a header the
   service answers now, with the row's own root, and which no delivery took away.
   */
  lemma PlainAboveStands(at: Stored, pass: View, live: View, e: ChainEvent, shared: Gone)
    requires at.state == Replay(at.row, pass) && e.Reorg?
    ensures var now := Next(at, live, e, shared);
            Plain(now.state) && e.forkHeight <= now.state.word.height ==>
              && AnotherBlock(live, shared, now.state.word.height)
              && live.at(now.state.word.height) == Known(now.state.word.header)
              && at.row.bump.Some? && now.state.word.header.root == at.row.bump.value.root
  {
    ReplayIsByProof(at.row, pass, Deactivated(at.row.chain));
    ReplayIsByProof(at.row, live, Deactivated(at.row.chain) + DeactivatedOf(e));
  }

  /**
   After an invalidated block no row of the table is plain on it, unless the service still answers
   that header at its height, or the row's proof already replays to another block.
   */
  lemma NonePlainOnInvalidated(at: Stored, pass: View, live: View, hash: string, shared: Gone)
    requires at.state == Replay(at.row, pass)
    ensures var now := Next(at, live, Invalidated(hash), shared);
            Plain(now.state) && now.state.word.header.hash == hash ==>
              || live.at(now.state.word.height) == Known(now.state.word.header)
              || (var word := Replay(at.row, live).word;
                  word.Mined? && word.height == now.state.word.height && word.header.hash != hash)
  {
    ReplayIsByProof(at.row, pass, Deactivated(at.row.chain));
    ReplayIsByProof(at.row, live, Deactivated(at.row.chain));
    assert Deactivated(at.row.chain) + DeactivatedOf(Invalidated(hash)) == Deactivated(at.row.chain);
  }

  /**
   A tip, or a split resolved from below, leaves no mark the headers can lift: a row still marked
   after it has no block but one taken away answered at its height. Whatever the rows were stored over.
   */
  lemma MarkedAfterATip(at: Stored, pass: View, live: View, e: ChainEvent, shared: Gone)
    requires at.state == Replay(at.row, pass) && at.state.word.Mined?
    requires e.Tip? || (e.SplitResolved? && e.forkHeight <= at.state.word.height)
    requires Before(at.row, live, e).suspect
    ensures var now := Next(at, live, e, shared);
            now.state.suspect ==> now.state.word.Mined? && !AnotherBlock(live, shared, now.state.word.height)
  {
    ReplayIsByProof(at.row, pass, Deactivated(at.row.chain));
    ReplayIsByProof(at.row, live, Deactivated(at.row.chain) + DeactivatedOf(e));
    MarkedKeepsEvents(at.row, live, Deactivated(at.row.chain) + DeactivatedOf(e));
  }

  ghost predicate TookAway(row: Row, h: Height, header: Header) {
    h in Deactivated(row.chain) && Deactivated(row.chain)[h] == header
  }

  /** What any of the rows' events took away is hidden from all of them, and nothing else. */
  lemma {:induction false} SharedHasAll(rows: seq<Row>)
    ensures forall row, h | row in rows && h in Deactivated(row.chain) :: h in SharedGone(rows)
    ensures forall h | h in SharedGone(rows) :: exists row :: row in rows && TookAway(row, h, SharedGone(rows)[h])
  {
    if rows != [] {
      var front, last := rows[..|rows| - 1], rows[|rows| - 1];
      SharedHasAll(front);
      assert rows == front + [last];
      forall h | h in SharedGone(rows) ensures exists row :: row in rows && TookAway(row, h, SharedGone(rows)[h]) {
        if h in Deactivated(last.chain) {
          assert last in rows && TookAway(last, h, SharedGone(rows)[h]);
        } else {
          var row :| row in front && TookAway(row, h, SharedGone(front)[h]);
          assert row in rows;
        }
      }
    }
  }

  /**
   And what the event does not concern is left alone: a plain row below a reorg, a fork or a split, or
   not on the block, and every plain row by a tip, a resolved split, a freeze or a tip's age.
   */
  lemma LeftAlone(at: Stored, live: View, e: ChainEvent, shared: Gone)
    requires at.state == Replay(at.row, live) && Plain(at.state)
    requires match e
             case Reorg(fork, _) => at.state.word.height < fork
             case Fork(height) => at.state.word.height < height
             case Split(_, fork) => at.state.word.height < fork
             case Invalidated(hash) => at.state.word.header.hash != hash
             case _ => true
    ensures Next(at, live, e, shared) == at
  {
    if !e.Reorg? {
      assert Deactivated(at.row.chain) + DeactivatedOf(e) == Deactivated(at.row.chain);
    }
  }

  function Loaded(rows: map<string, Stored>, named: seq<string>): seq<Row>
    requires forall t | t in named :: t in rows
  {
    seq(|named|, i requires 0 <= i < |named| => rows[named[i]].row)
  }

  /** The tracker's table: the rows, and the word each was stored with. */
  class Table {
    var rows: map<string, Stored>

    ghost predicate Lists(txids: seq<string>)
      reads this
    {
      && (forall t :: t in txids <==> t in rows)
      && (forall i, j | 0 <= i < j < |txids| :: txids[i] != txids[j])
    }

    constructor (rows: map<string, Stored>)
      ensures this.rows == rows
    {
      this.rows := rows;
    }

    /** The rows an event names, with `txids` the table's keys in their order. */
    method Named(e: ChainEvent, txids: seq<string>) returns (named: seq<string>)
      requires Lists(txids)
      ensures forall t :: t in named <==> t in rows && Names(e, rows[t].row, rows[t].state.word)
      ensures forall i, j | 0 <= i < j < |named| :: named[i] != named[j]
    {
      named := [];
      for i := 0 to |txids|
        invariant forall t :: t in named <==>
                    t in txids[..i] && Names(e, rows[t].row, rows[t].state.word)
        invariant forall i, j | 0 <= i < j < |named| :: named[i] != named[j]
      {
        if Names(e, rows[txids[i]].row, rows[txids[i]].state.word) {
          named := named + [txids[i]];
        }
      }
    }

    /** Everything the event and the named rows' own events took away. */
    method GoneOf(named: seq<string>, e: ChainEvent) returns (gone: Gone)
      requires forall t | t in named :: t in rows
      ensures gone == SharedGone(Loaded(rows, named)) + DeactivatedOf(e)
    {
      var loaded := Loaded(rows, named);
      gone := map[];
      for i := 0 to |loaded|
        invariant gone == SharedGone(loaded[..i])
      {
        assert loaded[..i + 1][..i] == loaded[..i];
        gone := gone + Deactivated(loaded[i].chain);
      }
      assert loaded[..|loaded|] == loaded;
      gone := gone + DeactivatedOf(e);
    }

    method Rewrite(named: seq<string>, e: ChainEvent, live: View, gone: Gone)
      requires forall t | t in named :: t in rows
      requires forall i, j | 0 <= i < j < |named| :: named[i] != named[j]
      modifies this
      ensures rows.Keys == old(rows).Keys
      ensures forall t | t in rows ::
                rows[t] == if t in named then Delivered(old(rows)[t], live, e, gone) else old(rows)[t]
    {
      for i := 0 to |named|
        invariant rows.Keys == old(rows).Keys
        invariant forall t | t in rows ::
                    rows[t] == if t in named[..i] then Delivered(old(rows)[t], live, e, gone) else old(rows)[t]
      {
        var t := named[i];
        assert t !in named[..i] && rows[t] == old(rows)[t];
        assert named[..i + 1] == named[..i] + [t];
        if Writes(rows[t].row, live, e) {
          var s := After(rows[t].row, live, e, gone);
          rows := rows[t := Stored(WrittenRow(rows[t].row, s, e), s)];
        }
      }
      assert named[..|named|] == named;
    }

    /** The rows named are replayed, moved by the event, and written back; no other row is. */
    method DeliverChainEvent(e: ChainEvent, live: View, txids: seq<string>) returns (named: seq<string>)
      requires Lists(txids)
      modifies this
      ensures forall t :: t in named <==>
                t in old(rows) && Names(e, old(rows)[t].row, old(rows)[t].state.word)
      ensures rows.Keys == old(rows).Keys
      ensures var shared := SharedGone(Loaded(old(rows), named)) + DeactivatedOf(e);
              forall t | t in rows :: rows[t] == Next(old(rows)[t], live, e, shared)
    {
      named := Named(e, txids);
      var gone := GoneOf(named, e);
      Rewrite(named, e, live, gone);
    }
  }
}
