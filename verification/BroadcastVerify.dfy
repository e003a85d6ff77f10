/**
 The broadcast verifier: rounds of probes at the broadcaster, at the chain indexes in a rotating
 order, and at other stores, summed to one verdict.
 */
module BroadcastVerify {
  import opened Prelude

  const INITIAL_DELAY: nat := 250
  const PROBE_TIMEOUT: nat := 5_000

  // ---------------------------------------------------------------------------
  // One source
  // ---------------------------------------------------------------------------

  datatype Evidence = Seen | Mined

  /** `Held`: the source has the bytes and the network has not vouched for them. */
  datatype Presence = Held | Present(evidence: Evidence) | Fatal | Absent | Unknown

  datatype Authority = NoAuthority | Broadcaster | ChainIndex

  datatype Kind = Arcade | ClassicArc | WhatsOnChain | Bitails | BananaBlocks

  datatype Source = Source(name: string, absence: Authority, kind: Kind)

  /** The toolbox's reading of a status word. */
  datatype TxStatus = SaysAccepted | SaysSeen | SaysMined | SaysRejected | SaysUnknown

  /** The fields of an answer's body that are there to be read. */
  datatype Body = Body(confirmations: Option<int>, blockHeight: Option<nat>, txStatus: Option<TxStatus>)

  datatype Http = NoAnswer | Answer(code: nat, json: bool, body: Body)

  /** BananaBlocks is read through the toolbox's provider, which may not be set up. */
  datatype ProviderWord = NotSetUp | MinedWord | KnownWord | OtherWord | NotListed | ProviderFault

  /** All one source could be heard to say in one round. */
  datatype Raw = Raw(http: Http, provider: ProviderWord)

  function PresenceOfBody(src: Source, body: Body): Presence {
    match src.kind
    case WhatsOnChain => Present(if body.confirmations.Some? && body.confirmations.value >= 1 then Mined else Seen)
    case BananaBlocks => Unknown
    case Bitails => Present(if body.blockHeight.Some? then Mined else Seen)
    case _ =>
      if body.txStatus.None? then Held
      else match body.txStatus.value
        case SaysSeen => Present(Seen)
        case SaysMined => Present(Mined)
        case SaysRejected => if src.absence.Broadcaster? then Fatal else Unknown
        case _ => Held
  }

  function Probe(src: Source, raw: Raw): Presence {
    if src.kind.BananaBlocks? then
      match raw.provider
      case MinedWord => Present(Mined)
      case KnownWord => Present(Seen)
      case _ => Unknown
    else if raw.http.NoAnswer? then Unknown
    else if raw.http.code == 200 then PresenceOfBody(src, raw.http.body)
    else if raw.http.code == 404 && (src.absence.Broadcaster? ==> raw.http.json) then Absent
    else Unknown
  }

  /** The list the wallet builds; the two stores are there only when they are not the plane. */
  function BuildSources(arcade: bool, bananaBlocks: bool, gorillaPool: bool, taal: bool): seq<Source> {
    [Source("broadcaster", Broadcaster, if arcade then Arcade else ClassicArc),
     Source("whatsonchain", ChainIndex, WhatsOnChain), Source("bitails", ChainIndex, Bitails)]
    + (if bananaBlocks then [Source("bananablocks", ChainIndex, BananaBlocks)] else [])
    + (if gorillaPool then [Source("arc-gorillapool", NoAuthority, ClassicArc)] else [])
    + (if taal then [Source("arc-taal", NoAuthority, ClassicArc)] else [])
  }

  /** The broadcaster is asked first, and it alone is it; the next two, and they alone, have a vote. */
  ghost predicate Ordered(sources: seq<Source>) {
    && |sources| >= 3 && sources[0].absence.Broadcaster? && sources[0].kind in {Arcade, ClassicArc}
    && (forall i | 0 < i < |sources| :: !sources[i].absence.Broadcaster?)
    && (forall i | 0 <= i < |sources| ::
          sources[i].absence.ChainIndex? && !sources[i].kind.BananaBlocks? <==> i in {1, 2})
    && (forall i | 0 <= i < |sources| :: Paired(sources[i]))
  }

  /** A list stays ordered with one more store, or with BananaBlocks. */
  lemma OneMoreOrdered(sources: seq<Source>, src: Source)
    requires Ordered(sources) && Paired(src) && !src.absence.Broadcaster?
    requires src.absence.ChainIndex? ==> src.kind.BananaBlocks?
    ensures Ordered(sources + [src])
  {
  }

  lemma SourcesAreOrdered(arcade: bool, bananaBlocks: bool, gorillaPool: bool, taal: bool)
    ensures Ordered(BuildSources(arcade, bananaBlocks, gorillaPool, taal))
  {
    var first := BuildSources(arcade, false, false, false);
    assert Ordered(first);
    var second := if bananaBlocks then first + [Source("bananablocks", ChainIndex, BananaBlocks)] else first;
    OneMoreOrdered(first, Source("bananablocks", ChainIndex, BananaBlocks));
    var third := if gorillaPool then second + [Source("arc-gorillapool", NoAuthority, ClassicArc)] else second;
    OneMoreOrdered(second, Source("arc-gorillapool", NoAuthority, ClassicArc));
    OneMoreOrdered(third, Source("arc-taal", NoAuthority, ClassicArc));
    assert BuildSources(arcade, bananaBlocks, gorillaPool, taal)
        == if taal then third + [Source("arc-taal", NoAuthority, ClassicArc)] else third;
  }

  // ---------------------------------------------------------------------------
  // One round's answers
  // ---------------------------------------------------------------------------

  /** A source and what it says when it is asked in this round. */
  datatype Told = Told(src: Source, presence: Presence)

  /** What a run meets: the answer of each source in each round, and when the deadline has passed. */
  datatype Network = Network(answer: (nat, nat) -> Raw, late: nat -> bool)

  function View(sources: seq<Source>, net: Network, round: nat): (told: seq<Told>)
    ensures |told| == |sources|
  {
    seq(|sources|, i requires 0 <= i < |sources| => Told(sources[i], Probe(sources[i], net.answer(round, i))))
  }

  /** Some source of the round is such. */
  predicate Any(told: seq<Told>, p: Told -> bool) {
    told != [] && (p(told[|told| - 1]) || Any(told[..|told| - 1], p))
  }

  lemma {:induction false} Witness(told: seq<Told>, p: Told -> bool) returns (t: Told)
    requires Any(told, p)
    ensures t in told && p(t)
  {
    t := told[|told| - 1];
    if !p(t) {
      t := Witness(told[..|told| - 1], p);
    }
  }

  lemma {:induction false} Found(told: seq<Told>, p: Told -> bool, t: Told)
    requires t in told && p(t)
    ensures Any(told, p)
  {
    if t != told[|told| - 1] {
      Found(told[..|told| - 1], p, t);
    }
  }

  lemma AnyAppend(before: seq<Told>, t: Told, p: Told -> bool)
    ensures Any(before + [t], p) <==> Any(before, p) || p(t)
  {
    assert (before + [t])[..|before|] == before;
  }

  lemma {:induction false} AnyWider(told: seq<Told>, p: Told -> bool, q: Told -> bool)
    requires Any(told, p) && forall t :: p(t) ==> q(t)
    ensures Any(told, q)
  {
    var t := Witness(told, p);
    Found(told, q, t);
  }

  predicate IsIndex(t: Told) { t.src.absence.ChainIndex? }

  /** BananaBlocks lags: it has no vote on absence. */
  predicate HasVote(t: Told) { IsIndex(t) && !t.src.kind.BananaBlocks? }

  predicate CannotLook(t: Told) { HasVote(t) && !t.presence.Absent? && !t.presence.Present? }

  /** Chain evidence: a voting index that has it at all, or any that says mined. */
  predicate GivesEvidence(t: Told) {
    IsIndex(t) && t.presence.Present? && (HasVote(t) || t.presence.evidence.Mined?)
  }

  /** A presence word that is not chain evidence. */
  predicate GivesWord(t: Told) { IsIndex(t) && !HasVote(t) && t.presence == Present(Seen) }

  predicate BroadcasterDenies(t: Told) { t.src.absence.Broadcaster? && (t.presence.Absent? || t.presence.Fatal?) }

  predicate BroadcasterHas(t: Told) { t.src.absence.Broadcaster? && t.presence.Present? }

  predicate Answers(t: Told) {
    (t.src.absence.Broadcaster? && !t.presence.Unknown?) || (!IsIndex(t) && t.presence.Fatal?)
  }

  predicate OtherHas(t: Told) { t.src.absence.NoAuthority? && t.presence.Present? }

  predicate Holds(t: Told) { !IsIndex(t) && t.presence.Held? }

  predicate SaysFatal(t: Told) { !IsIndex(t) && t.presence.Fatal? }

  /** Some source has the transaction. */
  predicate Vouches(t: Told) {
    GivesEvidence(t) || GivesWord(t) || Holds(t) || BroadcasterHas(t) || OtherHas(t)
  }

  /** Every index with a vote answers absent, there is one, and none gives chain evidence. */
  ghost predicate IndexesAbsent(told: seq<Told>) {
    && Any(told, HasVote) && !Any(told, GivesEvidence)
    && forall t | t in told && HasVote(t) :: t.presence.Absent?
  }

  // ---------------------------------------------------------------------------
  // The chain indexes' one answer
  // ---------------------------------------------------------------------------

  datatype IndexAnswer = HasIt(evidence: Evidence) | NotThere | NotKnown

  datatype Reply = Reply(answer: IndexAnswer, from: Option<string>, knownBy: Option<string>)

  /** The count while the indexes are asked; `found` ends it. */
  datatype Tally = Tally(voters: nat, absent: nat, couldNotLook: bool, knownBy: Option<string>, found: Option<Told>)

  function Count(y: Tally, t: Told): Tally {
    if y.found.Some? then y
    else
      var z := if HasVote(t) then y.(voters := y.voters + 1) else y;
      if t.presence.Present? then
        if GivesWord(t) then z.(knownBy := Some(t.src.name)) else z.(found := Some(t))
      else if !HasVote(t) then z
      else if t.presence.Absent? then z.(absent := z.absent + 1)
      else z.(couldNotLook := true)
  }

  function Counted(order: seq<Told>): Tally {
    if order == [] then Tally(0, 0, false, None, None)
    else Count(Counted(order[..|order| - 1]), order[|order| - 1])
  }

  function ReplyOf(y: Tally): Reply {
    if y.found.Some? && y.found.value.presence.Present? then
      Reply(HasIt(y.found.value.presence.evidence), Some(y.found.value.src.name), None)
    else
      Reply(if y.voters > 0 && y.absent == y.voters && !y.couldNotLook then NotThere else NotKnown, None, y.knownBy)
  }

  function Rotated(indexes: seq<Told>, start: nat): (order: seq<Told>)
    ensures |order| == |indexes|
  {
    if indexes == [] then []
    else indexes[start % |indexes|..] + indexes[..start % |indexes|]
  }

  function Asked(indexes: seq<Told>, start: nat): Reply {
    ReplyOf(Counted(Rotated(indexes, start)))
  }

  /** `ask_chain_indexes`: the start rotates, and the first chain evidence ends the asking. */
  method AskChainIndexes(indexes: seq<Told>, rotation: nat) returns (reply: Reply)
    requires indexes != [] && forall t | t in indexes :: IsIndex(t)
    ensures reply == Asked(indexes, rotation)
  {
    var n := |indexes|;
    var start := rotation % n;
    ghost var order := Rotated(indexes, rotation);
    var absent, voters, couldNotLook, knownBy := 0, 0, false, None;
    for offset := 0 to n
      invariant Counted(order[..offset]) == Tally(voters, absent, couldNotLook, knownBy, None)
    {
      RotatedAt(indexes, rotation, offset);
      var t := indexes[(start + offset) % n];
      CountNext(order, offset);
      var votes := !t.src.kind.BananaBlocks?;
      if votes {
        voters := voters + 1;
      }
      match t.presence {
        case Present(evidence) =>
          if evidence.Seen? && !votes {
            knownBy := Some(t.src.name);
          } else {
            reply := Reply(HasIt(evidence), Some(t.src.name), None);
            FoundEnds(order, offset + 1);
            return;
          }
        case Absent =>
          if votes {
            absent := absent + 1;
          }
        case _ =>
          if votes {
            couldNotLook := true;
          }
      }
    }
    assert order[..n] == order;
    reply := Reply(if voters > 0 && absent == voters && !couldNotLook then NotThere else NotKnown, None, knownBy);
  }

  lemma RotatedAt(indexes: seq<Told>, rotation: nat, offset: nat)
    requires offset < |indexes|
    ensures (rotation % |indexes| + offset) % |indexes| < |indexes|
    ensures Rotated(indexes, rotation)[offset] == indexes[(rotation % |indexes| + offset) % |indexes|]
  {
    Wraps(rotation % |indexes|, offset, |indexes|);
  }

  lemma CountNext(order: seq<Told>, k: nat)
    requires k < |order|
    ensures Counted(order[..k + 1]) == Count(Counted(order[..k]), order[k])
  {
    assert order[..k + 1][..k] == order[..k];
  }

  lemma Wraps(start: nat, offset: nat, n: nat)
    requires start < n && offset < n
    ensures (start + offset) % n == if start + offset < n then start + offset else start + offset - n
  {
    if start + offset >= n {
      assert start + offset == n + (start + offset - n);
    }
  }

  lemma {:induction false} FoundEnds(order: seq<Told>, k: nat)
    requires k <= |order| && Counted(order[..k]).found.Some?
    ensures Counted(order) == Counted(order[..k])
    decreases |order|
  {
    if k < |order| {
      assert order[..|order| - 1][..k] == order[..k];
      FoundEnds(order[..|order| - 1], k);
    } else {
      assert order[..k] == order;
    }
  }

  ghost predicate CountIsRight(order: seq<Told>, y: Tally) {
    && (y.found.Some? <==> Any(order, GivesEvidence))
    && (y.found.Some? ==> y.found.value in order && GivesEvidence(y.found.value))
    && (y.found.None? ==>
          && y.absent <= y.voters
          && (y.voters > 0 <==> Any(order, HasVote))
          && (y.absent < y.voters <==> Any(order, CannotLook))
          && (y.couldNotLook <==> Any(order, CannotLook))
          && (y.knownBy.Some? <==> Any(order, GivesWord)))
  }

  lemma CountStep(before: seq<Told>, t: Told, y: Tally)
    requires CountIsRight(before, y) && IsIndex(t)
    ensures CountIsRight(before + [t], Count(y, t))
  {
    AnyAppend(before, t, GivesEvidence);
    AnyAppend(before, t, HasVote);
    AnyAppend(before, t, CannotLook);
    AnyAppend(before, t, GivesWord);
  }

  lemma {:induction false} CountedRight(order: seq<Told>)
    requires forall t | t in order :: IsIndex(t)
    ensures CountIsRight(order, Counted(order))
  {
    if order != [] {
      var n := |order| - 1;
      CountedRight(order[..n]);
      CountStep(order[..n], order[n], Counted(order[..n]));
      assert order == order[..n] + [order[n]];
    }
  }

  lemma RotatedMembers(indexes: seq<Told>, start: nat, t: Told)
    ensures t in Rotated(indexes, start) <==> t in indexes
  {
    if indexes != [] {
      var s := start % |indexes|;
      assert indexes == indexes[..s] + indexes[s..];
    }
  }

  /** The indexes' answer, by what they say and not by the order they are asked in. */
  ghost predicate ReplyIsRight(indexes: seq<Told>, reply: Reply) {
    && (reply.answer.HasIt? <==> Any(indexes, GivesEvidence))
    && (reply.answer.NotThere? <==> IndexesAbsent(indexes))
    && (reply.knownBy.Some? <==> Any(indexes, GivesWord) && !reply.answer.HasIt?)
    && (reply.answer.HasIt? ==>
          exists t :: t in indexes && GivesEvidence(t) && reply.from == Some(t.src.name)
                      && t.presence == Present(reply.answer.evidence))
  }

  lemma AskedIsRight(indexes: seq<Told>, start: nat)
    requires forall t | t in indexes :: IsIndex(t)
    ensures ReplyIsRight(indexes, Asked(indexes, start))
  {
    var order := Rotated(indexes, start);
    forall t ensures t in order <==> t in indexes { RotatedMembers(indexes, start, t); }
    CountedRight(order);
    SameAny(order, indexes, GivesEvidence);
    SameAny(order, indexes, HasVote);
    SameAny(order, indexes, CannotLook);
    SameAny(order, indexes, GivesWord);
    AllAbsent(indexes);
    if Any(indexes, GivesEvidence) {
      var t := Counted(order).found.value;
      assert t in indexes;
    }
  }

  lemma SameAny(a: seq<Told>, b: seq<Told>, p: Told -> bool)
    requires forall t :: t in a <==> t in b
    ensures Any(a, p) <==> Any(b, p)
  {
    if Any(a, p) {
      var t := Witness(a, p);
      Found(b, p, t);
    }
    if Any(b, p) {
      var t := Witness(b, p);
      Found(a, p, t);
    }
  }

  lemma AllAbsent(indexes: seq<Told>)
    ensures IndexesAbsent(indexes) <==>
              Any(indexes, HasVote) && !Any(indexes, CannotLook) && !Any(indexes, GivesEvidence)
  {
    if Any(indexes, CannotLook) {
      var t := Witness(indexes, CannotLook);
      assert HasVote(t) && !t.presence.Absent?;
    } else if !Any(indexes, GivesEvidence) {
      forall t | t in indexes && HasVote(t) ensures t.presence.Absent? {
        if t.presence.Present? {
          Found(indexes, GivesEvidence, t);
        } else if CannotLook(t) {
          Found(indexes, CannotLook, t);
        }
      }
    }
  }

  /** Whether the indexes have it, deny it or do not know does not depend on the first one asked. */
  lemma RotationDoesNotMatter(indexes: seq<Told>, s1: nat, s2: nat)
    requires forall t | t in indexes :: IsIndex(t)
    ensures var a, b := Asked(indexes, s1), Asked(indexes, s2);
            && a.answer.HasIt? == b.answer.HasIt? && a.answer.NotThere? == b.answer.NotThere?
            && a.knownBy.Some? == b.knownBy.Some?
  {
    AskedIsRight(indexes, s1);
    AskedIsRight(indexes, s2);
  }

  /** All the chain evidence there is, is the same. */
  ghost predicate OneEvidence(told: seq<Told>) {
    forall a, b | a in told && b in told && GivesEvidence(a) && GivesEvidence(b) :: a.presence == b.presence
  }

  lemma FoundFirst(order: seq<Told>, t: Told)
    requires order != [] && order[0] == t && GivesEvidence(t)
    ensures ReplyOf(Counted(order)).answer == HasIt(t.presence.evidence)
  {
    assert order[..1] == [t] && [t][..0] == [];
    assert Counted([t]) == Count(Counted([]), t);
    FoundEnds(order, 1);
  }

  /** An index with evidence, asked first, is the one reported. */
  lemma AskedFirst(indexes: seq<Told>, i: nat)
    requires i < |indexes| && GivesEvidence(indexes[i])
    ensures Asked(indexes, i).answer == HasIt(indexes[i].presence.evidence)
  {
    FoundFirst(Rotated(indexes, i), indexes[i]);
  }

  /** Which evidence is reported does not depend on the first index asked exactly when all of it is the same. */
  lemma EvidenceIsFixed(indexes: seq<Told>)
    requires forall t | t in indexes :: IsIndex(t)
    ensures (forall s1: nat, s2: nat :: Asked(indexes, s1).answer == Asked(indexes, s2).answer)
            <==> OneEvidence(indexes)
  {
    if OneEvidence(indexes) {
      forall s1: nat, s2: nat ensures Asked(indexes, s1).answer == Asked(indexes, s2).answer {
        RotationDoesNotMatter(indexes, s1, s2);
        AskedIsRight(indexes, s1);
        AskedIsRight(indexes, s2);
      }
    }
    if forall s1: nat, s2: nat :: Asked(indexes, s1).answer == Asked(indexes, s2).answer {
      forall a, b | a in indexes && b in indexes && GivesEvidence(a) && GivesEvidence(b)
        ensures a.presence == b.presence
      {
        var i: nat :| i < |indexes| && indexes[i] == a;
        var j: nat :| j < |indexes| && indexes[j] == b;
        AskedFirst(indexes, i);
        AskedFirst(indexes, j);
        assert Asked(indexes, i).answer == Asked(indexes, j).answer;
      }
    }
  }

  /** It is not always: seen from one index, mined from the other. */
  lemma RotationCanChangeTheEvidence()
    ensures var a := Told(Source("whatsonchain", ChainIndex, WhatsOnChain), Present(Seen));
            var b := Told(Source("bitails", ChainIndex, Bitails), Present(Mined));
            Asked([a, b], 0).answer == HasIt(Seen) && Asked([a, b], 1).answer == HasIt(Mined)
  {
    var a := Told(Source("whatsonchain", ChainIndex, WhatsOnChain), Present(Seen));
    var b := Told(Source("bitails", ChainIndex, Bitails), Present(Mined));
    assert Rotated([a, b], 0) == [a, b] && Rotated([a, b], 1) == [b, a];
    assert [a, b][..1] == [a] && [b, a][..1] == [b];
    assert [a][..0] == [] && [b][..0] == [];
    assert Counted([a]).found == Some(a) && Counted([b]).found == Some(b);
  }

  // ---------------------------------------------------------------------------
  // One round
  // ---------------------------------------------------------------------------

  datatype Provider = ChainProvider | NetworkProvider | ArcadeProvider

  /** What the sources that are no index said. */
  datatype Word = Word(
    denied: bool, answered: bool, fatal: bool, held: bool,
    broadcaster: Option<Evidence>, viaArcade: bool, thirdParty: Option<Evidence>)

  /** `chain` is the indexes' reply when it ended the round. */
  datatype Round = Round(asked: bool, chain: Option<Reply>, indexVote: bool, indexWord: Option<string>, word: Word)

  const NEW_ROUND := Round(false, None, false, None, Word(false, false, false, false, None, false, None))

  function Indexes(told: seq<Told>): seq<Told> {
    if told == [] then []
    else Indexes(told[..|told| - 1]) + (if IsIndex(told[|told| - 1]) then [told[|told| - 1]] else [])
  }

  lemma {:induction false} IndexesMeans(told: seq<Told>)
    ensures forall t :: t in Indexes(told) <==> t in told && IsIndex(t)
  {
    if told != [] {
      IndexesMeans(told[..|told| - 1]);
    }
  }

  lemma HasIndexes(told: seq<Told>, some: Told)
    requires some in told && IsIndex(some)
    ensures Indexes(told) != [] && forall t | t in Indexes(told) :: IsIndex(t)
  {
    IndexesMeans(told);
    assert some in Indexes(told);
  }

  function HearIndexes(r: Round, reply: Reply): Round {
    var heard := r.(asked := true);
    if reply.answer.HasIt? then heard.(chain := Some(reply))
    else heard.(indexVote := heard.indexVote || reply.answer.NotThere?, indexWord := reply.knownBy)
  }

  function HearSource(w: Word, t: Told): Word {
    var isBroadcaster := t.src.absence.Broadcaster?;
    match t.presence
    case Present(e) =>
      if isBroadcaster then
        w.(answered := true, broadcaster := Some(e), viaArcade := t.src.kind.Arcade?)
      else w.(thirdParty := Some(e))
    case Held => w.(held := true, answered := w.answered || isBroadcaster)
    case Fatal => w.(fatal := true, answered := true, denied := w.denied || isBroadcaster)
    case Absent => w.(answered := w.answered || isBroadcaster, denied := w.denied || isBroadcaster)
    case Unknown => w
  }

  /** One source heard, or the indexes' reply where the first of them stands. */
  function Hear(r: Round, reply: Reply, t: Told): Round {
    if r.chain.Some? then r
    else if !IsIndex(t) then r.(word := HearSource(r.word, t))
    else if r.asked then r
    else HearIndexes(r, reply)
  }

  function RoundAt(told: seq<Told>, reply: Reply, k: nat): Round
    requires k <= |told|
  {
    if k == 0 then NEW_ROUND else Hear(RoundAt(told, reply, k - 1), reply, told[k - 1])
  }

  /** What the round holds once the first `k` sources were heard, by what they say. */
  ghost predicate RoundIsRight(told: seq<Told>, part: seq<Told>, r: Round) {
    && (r.asked ==> Any(told, IsIndex))
    && (r.chain.Some? <==> r.asked && Any(told, GivesEvidence))
    && (r.chain.Some? ==> ReplyIsRight(Indexes(told), r.chain.value) && r.chain.value.answer.HasIt?)
    && (r.chain.None? ==>
          && (r.asked <==> Any(part, IsIndex))
          && (r.indexVote <==> r.asked && IndexesAbsent(told))
          && (r.indexWord.Some? <==> r.asked && Any(told, GivesWord))
          && SourcesHeard(part, r.word))
  }

  ghost predicate SourcesHeard(part: seq<Told>, w: Word) {
    && (w.denied <==> Any(part, BroadcasterDenies))
    && (w.answered <==> Any(part, Answers))
    && (w.fatal <==> Any(part, SaysFatal))
    && (w.held <==> Any(part, Holds))
    && (w.broadcaster.Some? <==> Any(part, BroadcasterHas))
    && (w.thirdParty.Some? <==> Any(part, OtherHas))
  }

  /** What one more source adds to the word. */
  predicate AddsSource(w: Word, t: Told, after: Word) {
    && after.denied == (w.denied || BroadcasterDenies(t))
    && after.answered == (w.answered || Answers(t))
    && after.fatal == (w.fatal || SaysFatal(t))
    && after.held == (w.held || Holds(t))
    && after.broadcaster.Some? == (w.broadcaster.Some? || BroadcasterHas(t))
    && after.thirdParty.Some? == (w.thirdParty.Some? || OtherHas(t))
  }

  lemma HearSourceAdds(w: Word, t: Told)
    requires !IsIndex(t)
    ensures AddsSource(w, t, HearSource(w, t))
  {
    match t.presence
    case Present(_) =>
    case Held =>
    case Fatal =>
    case Absent =>
    case Unknown =>
  }

  lemma IndexAddsNothing(w: Word, t: Told)
    requires IsIndex(t)
    ensures AddsSource(w, t, w)
  {
  }

  lemma SourceStep(part: seq<Told>, t: Told, w: Word, after: Word)
    requires SourcesHeard(part, w) && AddsSource(w, t, after)
    ensures SourcesHeard(part + [t], after)
  {
    AnyAppend(part, t, BroadcasterDenies);
    AnyAppend(part, t, Answers);
    AnyAppend(part, t, BroadcasterHas);
    AnyAppend(part, t, OtherHas);
    AnyAppend(part, t, Holds);
    AnyAppend(part, t, SaysFatal);
  }

  lemma OfIndexes(told: seq<Told>)
    ensures Any(Indexes(told), GivesEvidence) <==> Any(told, GivesEvidence)
    ensures Any(Indexes(told), GivesWord) <==> Any(told, GivesWord)
    ensures IndexesAbsent(Indexes(told)) <==> IndexesAbsent(told)
  {
    OfIndex(told, GivesEvidence);
    OfIndex(told, GivesWord);
    OfIndex(told, HasVote);
    IndexesMeans(told);
    assert forall t | HasVote(t) :: t in Indexes(told) <==> t in told;
  }

  lemma OfIndex(told: seq<Told>, p: Told -> bool)
    requires forall t :: p(t) ==> IsIndex(t)
    ensures Any(Indexes(told), p) <==> Any(told, p)
  {
    IndexesMeans(told);
    if Any(told, p) {
      var t := Witness(told, p);
      Found(Indexes(told), p, t);
    }
    if Any(Indexes(told), p) {
      var t := Witness(Indexes(told), p);
      Found(told, p, t);
    }
  }

  lemma IndexesHeard(told: seq<Told>, part: seq<Told>, t: Told, r: Round, reply: Reply)
    requires RoundIsRight(told, part, r) && r.chain.None? && !r.asked && IsIndex(t) && t in told
    requires ReplyIsRight(Indexes(told), reply)
    ensures RoundIsRight(told, part + [t], HearIndexes(r, reply))
  {
    AnyAppend(part, t, IsIndex);
    IndexAddsNothing(r.word, t);
    SourceStep(part, t, r.word, r.word);
    Found(told, IsIndex, t);
    OfIndexes(told);
  }

  lemma AnotherHeard(told: seq<Told>, part: seq<Told>, t: Told, r: Round, after: Word)
    requires RoundIsRight(told, part, r) && r.chain.None? && (IsIndex(t) ==> r.asked)
    requires AddsSource(r.word, t, after)
    ensures RoundIsRight(told, part + [t], r.(word := after))
  {
    AnyAppend(part, t, IsIndex);
    SourceStep(part, t, r.word, after);
  }

  lemma HearStep(told: seq<Told>, reply: Reply, part: seq<Told>, t: Told, r: Round)
    requires RoundIsRight(told, part, r) && t in told && ReplyIsRight(Indexes(told), reply)
    ensures RoundIsRight(told, part + [t], Hear(r, reply, t))
  {
    if r.chain.None? {
      if IsIndex(t) && !r.asked {
        IndexesHeard(told, part, t, r, reply);
      } else if IsIndex(t) {
        IndexAddsNothing(r.word, t);
        AnotherHeard(told, part, t, r, r.word);
      } else {
        HearSourceAdds(r.word, t);
        AnotherHeard(told, part, t, r, HearSource(r.word, t));
      }
    }
  }

  lemma {:induction false} RoundRight(told: seq<Told>, reply: Reply, k: nat)
    requires k <= |told| && ReplyIsRight(Indexes(told), reply)
    ensures RoundIsRight(told, told[..k], RoundAt(told, reply, k))
  {
    if k > 0 {
      RoundRight(told, reply, k - 1);
      HearStep(told, reply, told[..k - 1], told[k - 1], RoundAt(told, reply, k - 1));
      assert told[..k] == told[..k - 1] + [told[k - 1]];
    }
  }

  function Heard(told: seq<Told>, start: nat): Round {
    RoundAt(told, Asked(Indexes(told), start), |told|)
  }

  lemma HeardRight(told: seq<Told>, start: nat)
    ensures RoundIsRight(told, told, Heard(told, start))
  {
    IndexesMeans(told);
    AskedIsRight(Indexes(told), start);
    RoundRight(told, Asked(Indexes(told), start), |told|);
    assert told[..|told|] == told;
  }

  predicate Settled(r: Round) {
    r.word.held || r.word.broadcaster.Some? || r.word.thirdParty.Some? || r.indexWord.Some?
  }

  /** A round, in terms of what its sources say: the start it had does not show. */
  lemma HeardMeans(told: seq<Told>, start: nat)
    ensures var r := Heard(told, start);
            && (r.chain.Some? <==> Any(told, GivesEvidence))
            && (r.chain.Some? || Settled(r) <==> Any(told, Vouches))
            && (r.chain.None? ==>
                  && (r.indexVote <==> IndexesAbsent(told))
                  && (r.indexWord.Some? <==> Any(told, GivesWord))
                  && SourcesHeard(told, r.word))
  {
    HeardRight(told, start);
    IndexSaysNeedIndex(told);
    VouchSplits(told);
  }

  lemma IndexSaysNeedIndex(told: seq<Told>)
    ensures Any(told, GivesEvidence) || Any(told, GivesWord) || Any(told, HasVote) ==> Any(told, IsIndex)
    ensures Any(told, IsIndex) <==> Indexes(told) != []
  {
    IndexesMeans(told);
    if Any(told, GivesEvidence) {
      AnyWider(told, GivesEvidence, IsIndex);
    }
    if Any(told, GivesWord) {
      AnyWider(told, GivesWord, IsIndex);
    }
    if Any(told, HasVote) {
      AnyWider(told, HasVote, IsIndex);
    }
    if Any(told, IsIndex) {
      var t := Witness(told, IsIndex);
      assert t in Indexes(told);
    }
    if Indexes(told) != [] {
      assert Indexes(told)[0] in Indexes(told);
      Found(told, IsIndex, Indexes(told)[0]);
    }
  }

  lemma {:induction false} VouchSplits(told: seq<Told>)
    ensures Any(told, Vouches) <==>
              || Any(told, GivesEvidence) || Any(told, GivesWord) || Any(told, Holds)
              || Any(told, BroadcasterHas) || Any(told, OtherHas)
  {
    if told != [] {
      VouchSplits(told[..|told| - 1]);
    }
  }

  // ---------------------------------------------------------------------------
  // The run
  // ---------------------------------------------------------------------------

  datatype Verdict = Confirmed | Rejected | Inconclusive

  datatype Report = Report(
    verdict: Verdict, evidence: Option<Evidence>, provider: Provider, chainIndex: IndexAnswer,
    chainIndexBy: Option<string>, broadcasterFatal: bool, networkAbsent: bool)

  const NO_REPORT := Report(Inconclusive, None, NetworkProvider, NotKnown, None, false, false)

  /** The pause before round `round`, from 1: doubling, capped at the configured delay. */
  function DelayBefore(cap: nat, round: nat): nat
    requires round >= 1
  {
    Min(INITIAL_DELAY * Pow2(Min(round - 1, 16)), cap)
  }

  function GapsUpTo(cap: nat, rounds: nat): nat {
    if rounds <= 1 then 0 else GapsUpTo(cap, rounds - 1) + DelayBefore(cap, rounds - 1)
  }

  function AbsenceWindow(cap: nat, attempts: nat): nat {
    GapsUpTo(cap, attempts) + PROBE_TIMEOUT
  }

  /** The report when chain evidence ended a round. */
  function ChainReport(reply: Reply): Report {
    Report(Confirmed, if reply.answer.HasIt? then Some(reply.answer.evidence) else None, ChainProvider,
           reply.answer, reply.from, false, false)
  }

  /** The report the last completed round gives. */
  function RoundReport(r: Round): Report {
    var w := r.word;
    var evidence :=
      if w.thirdParty.Some? then w.thirdParty
      else if w.broadcaster.Some? then w.broadcaster
      else if r.indexWord.Some? then Some(Seen)
      else None;
    var provider :=
      if w.thirdParty.None? && w.broadcaster.Some? && w.viaArcade then ArcadeProvider else NetworkProvider;
    Report(if Settled(r) then Confirmed else if w.denied && r.indexVote then Rejected else Inconclusive,
           evidence, provider, if r.indexVote then NotThere else NotKnown, r.indexWord, w.fatal,
           r.indexVote && w.answered && w.thirdParty.None?)
  }

  function LastReport(last: Option<Round>): Report {
    match last
    case None => NO_REPORT
    case Some(r) => if r.chain.Some? then ChainReport(r.chain.value) else RoundReport(r)
  }

  datatype Config = Config(sources: seq<Source>, attempts: nat, delay: nat, enabled: bool)

  /** How a run ended: the rounds it made, the pauses it took, and the rotation it left. */
  datatype Outcome = Outcome(report: Report, rounds: nat, slept: seq<nat>, rotation: nat)

  /** The start moves on when the indexes were asked. */
  function Advance(asked: bool, rotation: nat): nat {
    if asked then (rotation + 1) % U64 else rotation
  }

  /** One attempt: whether it leaves the question open, the rotation it leaves, its report. */
  datatype Turn = Turn(open: bool, next: nat, report: Report)

  type Turns = (nat, nat) -> Turn

  /** The verifier's clones share its start: how far they moved it before each round. */
  type Clones = nat -> nat

  function Shared(rotation: nat, moved: nat): nat { (rotation + moved) % U64 }

  function TurnsOf(c: Config, net: Network, clones: Clones): Turns {
    (attempt: nat, rotation: nat) =>
      var start := Shared(rotation, clones(attempt));
      var r := Heard(View(c.sources, net, attempt), start);
      Turn(r.chain.None? && !Settled(r) && !net.late(attempt), Advance(r.asked, start), LastReport(Some(r)))
  }

  function RunFrom(turns: Turns, cap: nat, attempts: nat, attempt: nat, rotation: nat, slept: seq<nat>): Outcome
    requires attempt < attempts
    decreases attempts - attempt
  {
    var turn := turns(attempt, rotation);
    if turn.open && attempt + 1 < attempts
    then RunFrom(turns, cap, attempts, attempt + 1, turn.next, slept + [DelayBefore(cap, attempt + 1)])
    else Outcome(turn.report, attempt + 1, slept, turn.next)
  }

  /** The rotation the last round of a run finds, before its clones move it. */
  function Reached(turns: Turns, attempts: nat, attempt: nat, rotation: nat): nat
    requires attempt < attempts
    decreases attempts - attempt
  {
    var turn := turns(attempt, rotation);
    if turn.open && attempt + 1 < attempts then Reached(turns, attempts, attempt + 1, turn.next) else rotation
  }

  predicate Runs(c: Config) { c.enabled && c.sources != [] && c.attempts > 0 }

  function Ran(c: Config, net: Network, clones: Clones, rotation: nat): Outcome {
    if !Runs(c) then Outcome(NO_REPORT, 0, [], rotation)
    else RunFrom(TurnsOf(c, net, clones), c.delay, c.attempts, 0, rotation, [])
  }

  /** The verifier: its rotation is shared by every verification it makes. */
  class Verifier {
    const config: Config
    var rotation: nat

    constructor (config: Config)
      ensures this.config == config && rotation == 0
    {
      this.config := config;
      rotation := 0;
    }

    /** The shared start moves on, whatever the indexes say. */
    method AskIndexes(told: seq<Told>, ghost some: Told) returns (reply: Reply)
      requires some in told && IsIndex(some)
      modifies this`rotation
      ensures reply == Asked(Indexes(told), old(rotation)) && rotation == Advance(true, old(rotation))
    {
      HasIndexes(told, some);
      var indexes := Indexes(told);
      reply := AskChainIndexes(indexes, rotation);
      rotation := (rotation + 1) % U64;
    }

    /** One round: the sources in order, the indexes as one question where the first of them stands. */
    method ProbeRound(told: seq<Told>) returns (r: Round)
      modifies this`rotation
      ensures r == Heard(told, old(rotation)) && rotation == Advance(r.asked, old(rotation))
    {
      ghost var start, theReply := rotation, Asked(Indexes(told), rotation);
      r := NEW_ROUND;
      var i := 0;
      while i < |told| && r.chain.None?
        invariant i <= |told| && r == RoundAt(told, theReply, i)
        invariant rotation == Advance(r.asked, start)
      {
        var t := told[i];
        if !IsIndex(t) {
          r := r.(word := HearSource(r.word, t));
        } else if !r.asked {
          var reply := AskIndexes(told, t);
          r := HearIndexes(r, reply);
        }
        i := i + 1;
      }
      if r.chain.Some? {
        ChainEnds(told, theReply, i);
      }
    }

    /** `verify_report`, with the rounds made and the pauses taken. */
    method VerifyReport(net: Network, clones: Clones) returns (report: Report, rounds: nat, slept: seq<nat>)
      modifies this`rotation
      ensures Outcome(report, rounds, slept, rotation) == Ran(config, net, clones, old(rotation))
    {
      report, rounds, slept := NO_REPORT, 0, [];
      if !config.enabled || config.sources == [] {
        return;
      }
      ghost var start := rotation;
      while rounds < config.attempts
        invariant rounds <= config.attempts
        invariant rounds < config.attempts ==>
                    Ran(config, net, clones, start)
                    == RunFrom(TurnsOf(config, net, clones), config.delay, config.attempts, rounds, rotation, slept)
        invariant config.attempts == 0 ==> report == NO_REPORT && slept == [] && rotation == start
        invariant rounds == config.attempts > 0 ==>
                    Ran(config, net, clones, start) == Outcome(report, rounds, slept, rotation)
      {
        rotation := Shared(rotation, clones(rounds));
        var r := ProbeRound(View(config.sources, net, rounds));
        report := LastReport(Some(r));
        rounds := rounds + 1;
        if r.chain.Some? || Settled(r) {
          break;
        }
        if rounds < config.attempts {
          if net.late(rounds - 1) {
            break;
          }
          slept := slept + [DelayBefore(config.delay, rounds)];
        }
      }
    }
  }

  lemma {:induction false} ChainEnds(told: seq<Told>, reply: Reply, k: nat)
    requires k <= |told| && RoundAt(told, reply, k).chain.Some?
    ensures RoundAt(told, reply, |told|) == RoundAt(told, reply, k)
    decreases |told| - k
  {
    if k < |told| {
      ChainEnds(told, reply, k + 1);
    }
  }

  // ---------------------------------------------------------------------------
  // The verdict
  // ---------------------------------------------------------------------------

  ghost predicate AnyVouch(c: Config, net: Network, round: nat) {
    Any(View(c.sources, net, round), Vouches)
  }

  /** The last round decides: the report in terms of what its sources say. */
  ghost predicate Decides(told: seq<Told>, report: Report) {
    && (report.verdict.Confirmed? <==> Any(told, Vouches))
    && (report.verdict.Rejected? <==>
          !Any(told, Vouches) && Any(told, BroadcasterDenies) && IndexesAbsent(told))
    && (report.chainIndex.HasIt? <==> Any(told, GivesEvidence))
    && (report.chainIndex.NotThere? <==> IndexesAbsent(told))
    && (report.networkAbsent <==> IndexesAbsent(told) && Any(told, Answers) && !Any(told, OtherHas))
    && (report.broadcasterFatal <==> Any(told, SaysFatal) && !Any(told, GivesEvidence))
    && (report.provider.ChainProvider? <==> Any(told, GivesEvidence))
    && (report.evidence.Some? <==>
          Any(told, GivesEvidence) || Any(told, OtherHas) || Any(told, BroadcasterHas) || Any(told, GivesWord))
  }

  lemma LastRoundDecides(told: seq<Told>, start: nat)
    ensures Decides(told, LastReport(Some(Heard(told, start))))
  {
    HeardMeans(told, start);
    HeardRight(told, start);
  }

  ghost predicate Paced(cap: nat, slept: seq<nat>) {
    forall k | 0 <= k < |slept| :: slept[k] == DelayBefore(cap, k + 1)
  }

  /** Whether an attempt leaves the question open does not depend on the rotation. */
  ghost predicate OpenAlike(turns: Turns, open: nat -> bool) {
    forall k: nat, r: nat :: turns(k, r).open <==> open(k)
  }

  /** The attempts from `attempt` on: each before the last is open, and the last is not or is the last allowed. */
  ghost predicate EndsRight(open: nat -> bool, attempts: nat, attempt: nat, rounds: nat) {
    && attempt < rounds <= attempts
    && (forall k | attempt <= k < rounds - 1 :: open(k))
    && (rounds == attempts || !open(rounds - 1))
  }

  lemma PacedOn(cap: nat, slept: seq<nat>)
    requires Paced(cap, slept)
    ensures Paced(cap, slept + [DelayBefore(cap, |slept| + 1)])
  {
  }

  lemma {:induction false} RunEndsRight(
      turns: Turns, open: nat -> bool, cap: nat, attempts: nat, attempt: nat, rotation: nat, slept: seq<nat>)
      returns (rounds: nat)
    requires OpenAlike(turns, open) && attempt < attempts
    ensures rounds == RunFrom(turns, cap, attempts, attempt, rotation, slept).rounds
    ensures EndsRight(open, attempts, attempt, rounds)
    decreases attempts - attempt
  {
    var turn := turns(attempt, rotation);
    assert turn.open <==> open(attempt);
    if turn.open && attempt + 1 < attempts {
      var more := slept + [DelayBefore(cap, attempt + 1)];
      rounds := RunEndsRight(turns, open, cap, attempts, attempt + 1, turn.next, more);
    } else {
      rounds := attempt + 1;
    }
  }

  lemma {:induction false} RunIsPaced(
      turns: Turns, cap: nat, attempts: nat, attempt: nat, rotation: nat, slept: seq<nat>) returns (out: Outcome)
    requires attempt < attempts && |slept| == attempt && Paced(cap, slept)
    ensures out == RunFrom(turns, cap, attempts, attempt, rotation, slept) && out.rounds > 0
    ensures out.report == turns(out.rounds - 1, Reached(turns, attempts, attempt, rotation)).report
    ensures |out.slept| == out.rounds - 1 && Paced(cap, out.slept)
    decreases attempts - attempt
  {
    var turn := turns(attempt, rotation);
    if turn.open && attempt + 1 < attempts {
      PacedOn(cap, slept);
      out := RunIsPaced(turns, cap, attempts, attempt + 1, turn.next, slept + [DelayBefore(cap, attempt + 1)]);
    } else {
      out := Outcome(turn.report, attempt + 1, slept, turn.next);
    }
  }

  /** Nobody has it and there is time left. */
  ghost predicate Open(c: Config, net: Network, round: nat) {
    !AnyVouch(c, net, round) && !net.late(round)
  }

  ghost function OpenRounds(c: Config, net: Network): nat -> bool {
    (round: nat) => Open(c, net, round)
  }

  lemma TurnsOpenAlike(c: Config, net: Network, clones: Clones)
    ensures OpenAlike(TurnsOf(c, net, clones), OpenRounds(c, net))
  {
    forall k: nat, r: nat ensures TurnsOf(c, net, clones)(k, r).open <==> OpenRounds(c, net)(k) {
      HeardMeans(View(c.sources, net, k), Shared(r, clones(k)));
    }
  }

  /** The start of the last round. */
  function LastStart(c: Config, net: Network, clones: Clones, rotation: nat, last: nat): nat
    requires Runs(c)
  {
    Shared(Reached(TurnsOf(c, net, clones), c.attempts, 0, rotation), clones(last))
  }

  /**
   The verdict of a run. The last round decides it; every earlier round saw nothing and was in
   time; and the run stopped there because the attempts ended, a source vouched, or it was late.
   */
  lemma VerdictIsExact(c: Config, net: Network, clones: Clones, rotation: nat)
    requires Runs(c)
    ensures var out := Ran(c, net, clones, rotation);
            && EndsRight(OpenRounds(c, net), c.attempts, 0, out.rounds)
            && Decides(View(c.sources, net, out.rounds - 1), out.report)
            && |out.slept| == out.rounds - 1 && Paced(c.delay, out.slept)
  {
    var last := Ran(c, net, clones, rotation).rounds - 1;
    RunReports(c, net, clones, rotation);
    LastRoundDecides(View(c.sources, net, last), LastStart(c, net, clones, rotation, last));
  }

  /** The report of a run is its last round's, heard from that round's start. */
  lemma RunReports(c: Config, net: Network, clones: Clones, rotation: nat)
    requires Runs(c)
    ensures var out := Ran(c, net, clones, rotation);
            && EndsRight(OpenRounds(c, net), c.attempts, 0, out.rounds)
            && |out.slept| == out.rounds - 1 && Paced(c.delay, out.slept)
            && var last := out.rounds - 1;
               var start := LastStart(c, net, clones, rotation, last);
               out.report == LastReport(Some(Heard(View(c.sources, net, last), start)))
  {
    TurnsOpenAlike(c, net, clones);
    var turns := TurnsOf(c, net, clones);
    var rounds := RunEndsRight(turns, OpenRounds(c, net), c.delay, c.attempts, 0, rotation, []);
    var out := RunIsPaced(turns, c.delay, c.attempts, 0, rotation, []);
  }

  // ---------------------------------------------------------------------------
  // The verdict, in the words the sources send
  // ---------------------------------------------------------------------------

  predicate Replied(http: Http) { http.Answer? && http.code == 200 }

  /** The source's own words for a mined transaction. */
  predicate SaidMined(src: Source, raw: Raw) {
    match src.kind
    case BananaBlocks => raw.provider == MinedWord
    case WhatsOnChain =>
      Replied(raw.http) && raw.http.body.confirmations.Some? && raw.http.body.confirmations.value >= 1
    case Bitails => Replied(raw.http) && raw.http.body.blockHeight.Some?
    case _ => Replied(raw.http) && raw.http.body.txStatus == Some(SaysMined)
  }

  /** And for one on the network that is in no block yet: a plain 200, at an index with a vote. */
  predicate SaidSeen(src: Source, raw: Raw) {
    match src.kind
    case BananaBlocks => raw.provider == KnownWord
    case WhatsOnChain => Replied(raw.http) && !SaidMined(src, raw)
    case Bitails => Replied(raw.http) && !SaidMined(src, raw)
    case _ => Replied(raw.http) && raw.http.body.txStatus == Some(SaysSeen)
  }

  predicate Said(src: Source, raw: Raw, evidence: Evidence) {
    if evidence.Mined? then SaidMined(src, raw) else SaidSeen(src, raw)
  }

  /** The source has it: a broadcaster or a store, unless it says it rejected it. */
  predicate Has(src: Source, raw: Raw) {
    match src.kind
    case BananaBlocks => raw.provider in {MinedWord, KnownWord}
    case WhatsOnChain => Replied(raw.http)
    case Bitails => Replied(raw.http)
    case _ => Replied(raw.http) && raw.http.body.txStatus != Some(SaysRejected)
  }

  /** An index reads the chain, and the others do not. */
  predicate Paired(src: Source) {
    src.absence.ChainIndex? <==> src.kind in {WhatsOnChain, Bitails, BananaBlocks}
  }

  /** Chain evidence: any word of an index with a vote, and only a mined one of BananaBlocks. */
  predicate ChainHas(src: Source, raw: Raw) {
    src.absence.ChainIndex? && Has(src, raw) && (src.kind.BananaBlocks? ==> raw.provider == MinedWord)
  }

  predicate Knows(src: Source, raw: Raw) { src.kind.BananaBlocks? && raw.provider == KnownWord }

  /** A store, or the broadcaster, that saw it on the network. */
  predicate Saw(src: Source, raw: Raw) {
    !src.absence.ChainIndex? && (SaidSeen(src, raw) || SaidMined(src, raw))
  }

  /** What a probe makes of the source's words, presence by presence. */
  lemma ProbeMeans(src: Source, raw: Raw)
    requires Paired(src)
    ensures forall e: Evidence :: Probe(src, raw) == Present(e) <==> Said(src, raw, e)
    ensures Probe(src, raw).Present? <==> SaidMined(src, raw) || SaidSeen(src, raw)
    ensures Probe(src, raw).Present? || Probe(src, raw).Held? <==> Has(src, raw)
    ensures Probe(src, raw).Held? ==> !src.absence.ChainIndex?
  {
  }

  lemma ToldMeans(src: Source, raw: Raw)
    requires Paired(src)
    ensures var t := Told(src, Probe(src, raw));
            && (Vouches(t) <==> Has(src, raw))
            && (GivesEvidence(t) <==> ChainHas(src, raw))
            && (GivesWord(t) <==> Knows(src, raw))
            && (OtherHas(t) <==> src.absence.NoAuthority? && Saw(src, raw))
            && (BroadcasterHas(t) <==> src.absence.Broadcaster? && Saw(src, raw))
            && (SaysFatal(t) ==> src.absence.Broadcaster?)
  {
    ProbeMeans(src, raw);
  }

  predicate SaidNotFound(http: Http) { http.Answer? && http.code == 404 }

  predicate SaidRejected(http: Http) {
    http.Answer? && http.code == 200 && http.body.txStatus == Some(SaysRejected)
  }

  /** The broadcaster denies it, both voting indexes have not found it, and nobody else has it. */
  ghost predicate Unanimous(sources: seq<Source>, net: Network, round: nat) {
    && (|| (SaidNotFound(net.answer(round, 0).http) && net.answer(round, 0).http.json)
        || SaidRejected(net.answer(round, 0).http))
    && SaidNotFound(net.answer(round, 1).http) && SaidNotFound(net.answer(round, 2).http)
    && forall i | 3 <= i < |sources| ::
         !Has(sources[i], net.answer(round, i))
  }

  lemma Denials(src: Source, raw: Raw)
    requires !src.kind.BananaBlocks?
    ensures Probe(src, raw).Absent? <==> SaidNotFound(raw.http) && (src.absence.Broadcaster? ==> raw.http.json)
    ensures src.kind in {Arcade, ClassicArc} ==>
              (Probe(src, raw).Fatal? <==> src.absence.Broadcaster? && SaidRejected(raw.http))
  {
  }

  lemma FirstThree(sources: seq<Source>, net: Network, round: nat)
    requires Ordered(sources)
    ensures var told := View(sources, net, round);
            && (BroadcasterDenies(told[0]) <==>
                  || (SaidNotFound(net.answer(round, 0).http) && net.answer(round, 0).http.json)
                  || SaidRejected(net.answer(round, 0).http))
            && (told[1].presence.Absent? <==> SaidNotFound(net.answer(round, 1).http))
            && (told[2].presence.Absent? <==> SaidNotFound(net.answer(round, 2).http))
  {
    Denials(sources[0], net.answer(round, 0));
    Denials(sources[1], net.answer(round, 1));
    Denials(sources[2], net.answer(round, 2));
  }

  lemma UnanimousMeans(sources: seq<Source>, net: Network, round: nat)
    requires Ordered(sources)
    ensures var told := View(sources, net, round);
            Unanimous(sources, net, round) <==>
              && BroadcasterDenies(told[0]) && told[1].presence.Absent? && told[2].presence.Absent?
              && forall i | 3 <= i < |told| :: !Vouches(told[i])
  {
    var told := View(sources, net, round);
    FirstThree(sources, net, round);
    forall i | 3 <= i < |sources| ensures Vouches(told[i]) <==> Has(sources[i], net.answer(round, i)) {
      ToldMeans(sources[i], net.answer(round, i));
    }
  }

  lemma UnanimousDenies(told: seq<Told>)
    requires |told| >= 3 && HasVote(told[1]) && forall t | t in told && HasVote(t) :: t.presence.Absent?
    requires BroadcasterDenies(told[0]) && forall t | t in told :: !Vouches(t)
    ensures !Any(told, Vouches) && Any(told, BroadcasterDenies) && IndexesAbsent(told)
  {
    assert told[0] in told && told[1] in told;
    Found(told, BroadcasterDenies, told[0]);
    Found(told, HasVote, told[1]);
    if Any(told, Vouches) {
      var t := Witness(told, Vouches);
    }
    if Any(told, GivesEvidence) {
      var t := Witness(told, GivesEvidence);
    }
  }

  lemma UnanimousRound(sources: seq<Source>, net: Network, round: nat)
    requires Ordered(sources)
    ensures var told := View(sources, net, round);
            !Any(told, Vouches) && Any(told, BroadcasterDenies) && IndexesAbsent(told)
            <==> Unanimous(sources, net, round)
  {
    var told := View(sources, net, round);
    UnanimousMeans(sources, net, round);
    assert told[0] in told && told[1] in told && told[2] in told;
    assert forall i | 0 <= i < |told| :: HasVote(told[i]) <==> i in {1, 2};
    if Unanimous(sources, net, round) {
      UnanimousDenies(told);
    } else if !Any(told, Vouches) && Any(told, BroadcasterDenies) && IndexesAbsent(told) {
      var t := Witness(told, BroadcasterDenies);
      assert t == told[0];
      forall i | 3 <= i < |told| ensures !Vouches(told[i]) {
        if Vouches(told[i]) {
          Found(told, Vouches, told[i]);
        }
      }
    }
  }

  /**
   For the list the wallet builds, whatever its settings: rejected exactly when in the last round
   the broadcaster answered a JSON 404 or its own rejection, both voting indexes a 404, and no
   other source, by its own words, had it.
   */
  lemma RejectionIsEarned(
      c: Config, net: Network, clones: Clones, rotation: nat,
      arcade: bool, bananaBlocks: bool, gorillaPool: bool, taal: bool)
    requires Runs(c) && c.sources == BuildSources(arcade, bananaBlocks, gorillaPool, taal)
    ensures var out := Ran(c, net, clones, rotation);
            && out.rounds > 0
            && (out.report.verdict.Rejected? <==> Unanimous(c.sources, net, out.rounds - 1))
  {
    VerdictIsExact(c, net, clones, rotation);
    SourcesAreOrdered(arcade, bananaBlocks, gorillaPool, taal);
    UnanimousRound(c.sources, net, Ran(c, net, clones, rotation).rounds - 1);
  }

  /** A rejection was never contradicted: no round of it had any presence, and the network lacks it. */
  lemma RejectedIsUncontradicted(c: Config, net: Network, clones: Clones, rotation: nat)
    requires Ran(c, net, clones, rotation).report.verdict.Rejected?
    ensures var out := Ran(c, net, clones, rotation);
            && out.rounds > 0 && out.report.networkAbsent
            && (forall k | 0 <= k < out.rounds :: !AnyVouch(c, net, k))
            && (out.rounds == c.attempts || net.late(out.rounds - 1))
  {
    VerdictIsExact(c, net, clones, rotation);
    var out := Ran(c, net, clones, rotation);
    forall k | 0 <= k < out.rounds ensures !AnyVouch(c, net, k) {
      assert k < out.rounds - 1 ==> OpenRounds(c, net)(k);
    }
    assert out.rounds == c.attempts || !OpenRounds(c, net)(out.rounds - 1);
    var told := View(c.sources, net, out.rounds - 1);
    AnyWider(told, BroadcasterDenies, Answers);
    VouchSplits(told);
  }

  /** Presence in any round that runs confirms, and ends the run. */
  lemma PresenceConfirms(c: Config, net: Network, clones: Clones, rotation: nat, k: nat)
    requires c.enabled && c.sources != [] && k < Ran(c, net, clones, rotation).rounds && AnyVouch(c, net, k)
    ensures Ran(c, net, clones, rotation).report.verdict.Confirmed? && Ran(c, net, clones, rotation).rounds == k + 1
  {
    VerdictIsExact(c, net, clones, rotation);
    assert !OpenRounds(c, net)(k);
  }

  /** With one broadcaster that cannot be heard there is no rejection, whatever the indexes say. */
  lemma UnheardBroadcasterNeverRejects(c: Config, net: Network, clones: Clones, rotation: nat)
    requires forall n, i | 0 <= i < |c.sources| && c.sources[i].absence.Broadcaster? ::
               Probe(c.sources[i], net.answer(n, i)).Unknown?
    ensures !Ran(c, net, clones, rotation).report.verdict.Rejected?
  {
    if Runs(c) {
      VerdictIsExact(c, net, clones, rotation);
      var told := View(c.sources, net, Ran(c, net, clones, rotation).rounds - 1);
      if Any(told, BroadcasterDenies) {
        var t := Witness(told, BroadcasterDenies);
        var i :| 0 <= i < |told| && told[i] == t;
        assert Probe(c.sources[i], net.answer(Ran(c, net, clones, rotation).rounds - 1, i)).Unknown?;
      }
    }
  }

  lemma {:induction false} SameRounds(
      a: Turns, b: Turns, open: nat -> bool, cap: nat, attempts: nat, attempt: nat, s1: nat, s2: nat, slept: seq<nat>)
    requires OpenAlike(a, open) && OpenAlike(b, open) && attempt < attempts
    ensures var x, y := RunFrom(a, cap, attempts, attempt, s1, slept), RunFrom(b, cap, attempts, attempt, s2, slept);
            x.rounds == y.rounds && x.slept == y.slept
    decreases attempts - attempt
  {
    var t1, t2 := a(attempt, s1), b(attempt, s2);
    if t1.open && attempt + 1 < attempts {
      SameRounds(a, b, open, cap, attempts, attempt + 1, t1.next, t2.next, slept + [DelayBefore(cap, attempt + 1)]);
    }
  }

  lemma RanSameRounds(c: Config, net: Network, m1: Clones, s1: nat, m2: Clones, s2: nat)
    ensures var a, b := Ran(c, net, m1, s1), Ran(c, net, m2, s2); a.rounds == b.rounds && a.slept == b.slept
  {
    if Runs(c) {
      TurnsOpenAlike(c, net, m1);
      TurnsOpenAlike(c, net, m2);
      SameRounds(TurnsOf(c, net, m1), TurnsOf(c, net, m2), OpenRounds(c, net), c.delay, c.attempts, 0, s1, s2, []);
    }
  }

  lemma LastDecides(c: Config, net: Network, clones: Clones, rotation: nat, last: nat)
    requires Runs(c) && Ran(c, net, clones, rotation).rounds == last + 1
    ensures Decides(View(c.sources, net, last), Ran(c, net, clones, rotation).report)
  {
    VerdictIsExact(c, net, clones, rotation);
  }

  predicate Alike(a: Report, b: Report) {
    && a.verdict == b.verdict && a.networkAbsent == b.networkAbsent && a.broadcasterFatal == b.broadcasterFatal
    && a.chainIndex.HasIt? == b.chainIndex.HasIt? && a.chainIndex.NotThere? == b.chainIndex.NotThere?
  }

  /**
   The verdict, the absence and the broadcaster's fatal word do not depend on the rotation: not on
   where it starts, and not on how the clones move it between rounds.
   */
  lemma VerdictIgnoresRotation(c: Config, net: Network, m1: Clones, s1: nat, m2: Clones, s2: nat)
    ensures var a, b := Ran(c, net, m1, s1), Ran(c, net, m2, s2);
            a.rounds == b.rounds && a.slept == b.slept && Alike(a.report, b.report)
  {
    RanSameRounds(c, net, m1, s1, m2, s2);
    if Runs(c) {
      VerdictIsExact(c, net, m1, s1);
      var last := Ran(c, net, m1, s1).rounds - 1;
      LastDecides(c, net, m1, s1, last);
      LastDecides(c, net, m2, s2, last);
    }
  }

  // ---------------------------------------------------------------------------
  // The evidence
  // ---------------------------------------------------------------------------

  lemma {:induction false} ChainIsTheReply(told: seq<Told>, reply: Reply, k: nat)
    requires k <= |told|
    ensures RoundAt(told, reply, k).chain in {None, Some(reply)}
  {
    if k > 0 {
      ChainIsTheReply(told, reply, k - 1);
    }
  }

  /** What the sources that are no index say is heard alike whatever the indexes reply. */
  lemma {:induction false} WordIgnoresReply(told: seq<Told>, a: Reply, b: Reply, k: nat)
    requires k <= |told| && RoundAt(told, a, k).chain.None? && RoundAt(told, b, k).chain.None?
    ensures RoundAt(told, a, k).word == RoundAt(told, b, k).word
  {
    if k > 0 {
      WordIgnoresReply(told, a, b, k - 1);
    }
  }

  /** Without chain evidence the start does not show in the evidence at all. */
  lemma QuietEvidence(told: seq<Told>, s1: nat, s2: nat)
    requires !Any(told, GivesEvidence)
    ensures LastReport(Some(Heard(told, s1))).evidence == LastReport(Some(Heard(told, s2))).evidence
  {
    HeardMeans(told, s1);
    HeardMeans(told, s2);
    WordIgnoresReply(told, Asked(Indexes(told), s1), Asked(Indexes(told), s2), |told|);
  }

  /** With it, the evidence is the reply's from this start. */
  lemma ChainEvidence(told: seq<Told>, start: nat)
    requires Any(told, GivesEvidence)
    ensures var answer := Asked(Indexes(told), start).answer;
            answer.HasIt? && LastReport(Some(Heard(told, start))).evidence == Some(answer.evidence)
  {
    HeardMeans(told, start);
    ChainIsTheReply(told, Asked(Indexes(told), start), |told|);
    HeardRight(told, start);
  }

  lemma IndexEvidence(told: seq<Told>)
    ensures OneEvidence(Indexes(told)) <==> OneEvidence(told)
    ensures forall t | t in Indexes(told) :: IsIndex(t)
  {
    IndexesMeans(told);
    if OneEvidence(Indexes(told)) {
      forall a, b | a in told && b in told && GivesEvidence(a) && GivesEvidence(b) ensures a.presence == b.presence {
        assert a in Indexes(told) && b in Indexes(told);
      }
    }
  }

  /** From any two starts a round gives the same evidence when its chain evidence is all the same. */
  lemma OneEvidenceShows(told: seq<Told>, s1: nat, s2: nat)
    requires OneEvidence(told)
    ensures LastReport(Some(Heard(told, s1))).evidence == LastReport(Some(Heard(told, s2))).evidence
  {
    if Any(told, GivesEvidence) {
      ChainEvidence(told, s1);
      ChainEvidence(told, s2);
      IndexEvidence(told);
      EvidenceIsFixed(Indexes(told));
    } else {
      QuietEvidence(told, s1, s2);
    }
  }

  lemma {:induction false} ReachedAlike(
      a: Turns, b: Turns, open: nat -> bool, cap: nat, attempts: nat, attempt: nat, s: nat, slept: seq<nat>, last: nat)
    requires OpenAlike(a, open) && OpenAlike(b, open) && attempt < attempts
    requires forall k: nat, r: nat | k != last :: a(k, r) == b(k, r)
    requires attempt <= last && RunFrom(a, cap, attempts, attempt, s, slept).rounds == last + 1
    ensures Reached(a, attempts, attempt, s) == Reached(b, attempts, attempt, s)
    decreases attempts - attempt
  {
    var turn := a(attempt, s);
    assert turn.open <==> open(attempt);
    assert b(attempt, s).open <==> open(attempt);
    if turn.open && attempt + 1 < attempts {
      var more := slept + [DelayBefore(cap, attempt + 1)];
      RoundsGoOn(a, cap, attempts, attempt + 1, turn.next, more);
      ReachedAlike(a, b, open, cap, attempts, attempt + 1, turn.next, more, last);
    }
  }

  lemma {:induction false} RoundsGoOn(turns: Turns, cap: nat, attempts: nat, attempt: nat, s: nat, slept: seq<nat>)
    requires attempt < attempts
    ensures RunFrom(turns, cap, attempts, attempt, s, slept).rounds > attempt
    decreases attempts - attempt
  {
    var turn := turns(attempt, s);
    if turn.open && attempt + 1 < attempts {
      RoundsGoOn(turns, cap, attempts, attempt + 1, turn.next, slept + [DelayBefore(cap, attempt + 1)]);
    }
  }

  /** Clones that move the start differently only before the last round leave it the same until then. */
  lemma SameUntilLast(c: Config, net: Network, m1: Clones, m2: Clones, s: nat, last: nat)
    requires Runs(c) && Ran(c, net, m1, s).rounds == last + 1 && forall k: nat | k != last :: m1(k) == m2(k)
    ensures Reached(TurnsOf(c, net, m1), c.attempts, 0, s) == Reached(TurnsOf(c, net, m2), c.attempts, 0, s)
  {
    TurnsOpenAlike(c, net, m1);
    TurnsOpenAlike(c, net, m2);
    ReachedAlike(TurnsOf(c, net, m1), TurnsOf(c, net, m2), OpenRounds(c, net), c.delay, c.attempts, 0, s, [], last);
  }

  function NoMoves(): Clones { (k: nat) => 0 }

  function OneMove(last: nat, shift: nat): Clones { (k: nat) => if k == last then shift else 0 }

  function Shift(at: nat, i: nat): nat { U64 - at % U64 + i }

  lemma Wrapped(at: nat, i: nat)
    requires i < U64
    ensures Shared(at, Shift(at, i)) == i
  {
    var q := at / U64;
    assert at == q * U64 + at % U64;
    assert at + (U64 - at % U64 + i) == (q + 1) * U64 + i;
  }

  /** The clones can make any start below 2^64 the last round's. */
  lemma AnyLastStart(c: Config, net: Network, i: nat, last: nat) returns (clones: Clones)
    requires Runs(c) && i < U64 && Ran(c, net, NoMoves(), 0).rounds == last + 1
    ensures Ran(c, net, clones, 0).rounds == last + 1 && LastStart(c, net, clones, 0, last) == i
  {
    var at := Reached(TurnsOf(c, net, NoMoves()), c.attempts, 0, 0);
    clones := OneMove(last, Shift(at, i));
    RanSameRounds(c, net, NoMoves(), 0, clones, 0);
    SameUntilLast(c, net, NoMoves(), clones, 0, last);
    Wrapped(at, i);
  }

  /**
   Over whole runs the evidence reported does not depend on the rotation exactly when the chain
   evidence of the last round, whichever indexes give it, is all the same.
   */
  lemma RunEvidenceIsFixed(c: Config, net: Network, last: nat)
    requires Runs(c) && |c.sources| < U64 && Ran(c, net, NoMoves(), 0).rounds == last + 1
    ensures (forall m1, s1, m2, s2 ::
               Ran(c, net, m1, s1).report.evidence == Ran(c, net, m2, s2).report.evidence)
            <==> OneEvidence(View(c.sources, net, last))
  {
    var told := View(c.sources, net, last);
    if OneEvidence(told) {
      forall m1, s1, m2, s2 ensures Ran(c, net, m1, s1).report.evidence == Ran(c, net, m2, s2).report.evidence {
        LastEvidence(c, net, last, m1, s1);
        LastEvidence(c, net, last, m2, s2);
        OneEvidenceShows(told, LastStart(c, net, m1, s1, last), LastStart(c, net, m2, s2, last));
      }
    }
    if forall m1, s1, m2, s2 :: Ran(c, net, m1, s1).report.evidence == Ran(c, net, m2, s2).report.evidence {
      forall a, b | a in told && b in told && GivesEvidence(a) && GivesEvidence(b) ensures a.presence == b.presence {
        var m1 := RunThatReports(c, net, last, a);
        var m2 := RunThatReports(c, net, last, b);
        assert Ran(c, net, m1, 0).report.evidence == Ran(c, net, m2, 0).report.evidence;
      }
    }
  }

  lemma LastEvidence(c: Config, net: Network, last: nat, clones: Clones, s: nat)
    requires Runs(c) && Ran(c, net, NoMoves(), 0).rounds == last + 1
    ensures Ran(c, net, clones, s).report
         == LastReport(Some(Heard(View(c.sources, net, last), LastStart(c, net, clones, s, last))))
  {
    RanSameRounds(c, net, clones, s, NoMoves(), 0);
    RunReportsAt(c, net, clones, s, last);
  }

  lemma RunReportsAt(c: Config, net: Network, clones: Clones, s: nat, last: nat)
    requires Runs(c) && Ran(c, net, clones, s).rounds == last + 1
    ensures Ran(c, net, clones, s).report
         == LastReport(Some(Heard(View(c.sources, net, last), LastStart(c, net, clones, s, last))))
  {
    RunReports(c, net, clones, s);
  }

  lemma {:induction false} FewerIndexes(told: seq<Told>)
    ensures |Indexes(told)| <= |told|
  {
    if told != [] {
      FewerIndexes(told[..|told| - 1]);
    }
  }

  /** Some run reports just this index's evidence. */
  lemma RunThatReports(c: Config, net: Network, last: nat, t: Told) returns (clones: Clones)
    requires Runs(c) && |c.sources| < U64 && Ran(c, net, NoMoves(), 0).rounds == last + 1
    requires t in View(c.sources, net, last) && GivesEvidence(t)
    ensures Ran(c, net, clones, 0).report.evidence == Some(t.presence.evidence)
  {
    var told := View(c.sources, net, last);
    IndexesMeans(told);
    FewerIndexes(told);
    assert t in Indexes(told);
    var i: nat :| i < |Indexes(told)| && Indexes(told)[i] == t;
    clones := AnyLastStart(c, net, i, last);
    LastEvidence(c, net, last, clones, 0);
    Found(told, GivesEvidence, t);
    ChainEvidence(told, i);
    AskedFirst(Indexes(told), i);
  }

  // ---------------------------------------------------------------------------
  // The whole report, in the words the sources send
  // ---------------------------------------------------------------------------

  /** The last source of the round that is such. */
  function LastSuch(told: seq<Told>, p: Told -> bool): Option<Told> {
    if told == [] then None
    else if p(told[|told| - 1]) then Some(told[|told| - 1])
    else LastSuch(told[..|told| - 1], p)
  }

  function EvidenceOf(t: Option<Told>): Option<Evidence> {
    if t.Some? && t.value.presence.Present? then Some(t.value.presence.evidence) else None
  }

  /** The word holds the last store's evidence, and the last broadcaster's with its plane. */
  ghost predicate HoldsLast(part: seq<Told>, w: Word) {
    && w.thirdParty == EvidenceOf(LastSuch(part, OtherHas))
    && var last := LastSuch(part, BroadcasterHas);
       w.broadcaster == EvidenceOf(last) && w.viaArcade == (last.Some? && last.value.src.kind.Arcade?)
  }

  lemma LastOneMore(part: seq<Told>, t: Told, p: Told -> bool)
    ensures LastSuch(part + [t], p) == if p(t) then Some(t) else LastSuch(part, p)
  {
    assert (part + [t])[..|part|] == part;
  }

  lemma HearHoldsLast(part: seq<Told>, t: Told, w: Word)
    requires HoldsLast(part, w)
    ensures HoldsLast(part + [t], if IsIndex(t) then w else HearSource(w, t))
  {
    LastOneMore(part, t, OtherHas);
    LastOneMore(part, t, BroadcasterHas);
  }

  lemma {:induction false} WordHoldsLast(told: seq<Told>, reply: Reply, k: nat)
    requires k <= |told| && RoundAt(told, reply, k).chain.None?
    ensures HoldsLast(told[..k], RoundAt(told, reply, k).word)
  {
    if k > 0 {
      var before := RoundAt(told, reply, k - 1);
      WordHoldsLast(told, reply, k - 1);
      HearHoldsLast(told[..k - 1], told[k - 1], before.word);
      assert told[..k] == told[..k - 1] + [told[k - 1]];
    }
  }

  /** The evidence a round reports: the indexes', else the last store's, else the broadcaster's, else a bare word. */
  ghost predicate EvidenceIs(told: seq<Told>, report: Report) {
    if Any(told, GivesEvidence) then
      exists t :: t in told && GivesEvidence(t) && report.evidence == Some(t.presence.evidence)
    else if Any(told, OtherHas) then
      report.evidence == EvidenceOf(LastSuch(told, OtherHas)) && report.provider == NetworkProvider
    else if Any(told, BroadcasterHas) then
      var last := LastSuch(told, BroadcasterHas);
      && report.evidence == EvidenceOf(last)
      && (report.provider.ArcadeProvider? <==> last.Some? && last.value.src.kind.Arcade?)
    else
      report.evidence == (if Any(told, GivesWord) then Some(Seen) else None) && report.provider == NetworkProvider
  }

  lemma ReportedEvidence(told: seq<Told>, start: nat)
    ensures EvidenceIs(told, LastReport(Some(Heard(told, start))))
  {
    HeardMeans(told, start);
    HeardRight(told, start);
    var r := Heard(told, start);
    if Any(told, GivesEvidence) {
      IndexesMeans(told);
      var t :| t in Indexes(told) && GivesEvidence(t) && t.presence == Present(r.chain.value.answer.evidence);
      assert t in told;
    } else {
      WordHoldsLast(told, Asked(Indexes(told), start), |told|);
      assert told[..|told|] == told;
    }
  }

  type Words = (Source, Raw) -> bool

  /** The source at `i` sent such words in the round. */
  ghost predicate At(sources: seq<Source>, net: Network, round: nat, q: Words, i: nat) {
    i < |sources| && q(sources[i], net.answer(round, i))
  }

  ghost predicate Somewhere(sources: seq<Source>, net: Network, round: nat, q: Words) {
    exists i :: At(sources, net, round, q, i)
  }

  /** What is so of each source told is what its words were. */
  ghost predicate SaysTheSame(sources: seq<Source>, net: Network, round: nat, p: Told -> bool, q: Words) {
    forall i: nat | i < |sources| :: p(View(sources, net, round)[i]) <==> At(sources, net, round, q, i)
  }

  lemma AnyIsSomewhere(sources: seq<Source>, net: Network, round: nat, p: Told -> bool, q: Words)
    requires SaysTheSame(sources, net, round, p, q)
    ensures Any(View(sources, net, round), p) <==> Somewhere(sources, net, round, q)
  {
    var told := View(sources, net, round);
    if Any(told, p) {
      var t := Witness(told, p);
      var i: nat :| i < |told| && told[i] == t;
      assert At(sources, net, round, q, i);
    }
    if Somewhere(sources, net, round, q) {
      var i: nat :| At(sources, net, round, q, i);
      Found(told, p, told[i]);
    }
  }

  /** The last source to send such words. */
  ghost predicate LastAt(sources: seq<Source>, net: Network, round: nat, q: Words, i: nat) {
    At(sources, net, round, q, i) && forall j | j > i :: !At(sources, net, round, q, j)
  }

  lemma {:induction false} LastIsLastAt(
      sources: seq<Source>, net: Network, round: nat, p: Told -> bool, q: Words, k: nat) returns (i: nat)
    requires k <= |sources| && SaysTheSame(sources, net, round, p, q)
    requires forall j: nat | k <= j :: !At(sources, net, round, q, j)
    requires Somewhere(sources, net, round, q)
    ensures LastAt(sources, net, round, q, i)
    ensures LastSuch(View(sources, net, round)[..k], p) == Some(View(sources, net, round)[i])
  {
    var told := View(sources, net, round);
    var some :| At(sources, net, round, q, some);
    assert k > 0;
    i := k - 1;
    assert told[..k] == told[..i] + [told[i]];
    LastOneMore(told[..i], told[i], p);
    if !At(sources, net, round, q, i) {
      i := LastIsLastAt(sources, net, round, p, q, i);
    }
  }

  predicate StoreSaw(src: Source, raw: Raw) { src.absence.NoAuthority? && Saw(src, raw) }

  predicate BroadcasterSaw(src: Source, raw: Raw) { src.absence.Broadcaster? && Saw(src, raw) }

  lemma ViewSaysTheSame(sources: seq<Source>, net: Network, round: nat)
    requires Ordered(sources)
    ensures SaysTheSame(sources, net, round, Vouches, Has)
    ensures SaysTheSame(sources, net, round, GivesEvidence, ChainHas)
    ensures SaysTheSame(sources, net, round, GivesWord, Knows)
    ensures SaysTheSame(sources, net, round, OtherHas, StoreSaw)
    ensures SaysTheSame(sources, net, round, BroadcasterHas, BroadcasterSaw)
  {
    forall i: nat | i < |sources|
      ensures var t := View(sources, net, round)[i];
              && (Vouches(t) <==> At(sources, net, round, Has, i))
              && (GivesEvidence(t) <==> At(sources, net, round, ChainHas, i))
              && (GivesWord(t) <==> At(sources, net, round, Knows, i))
              && (OtherHas(t) <==> At(sources, net, round, StoreSaw, i))
              && (BroadcasterHas(t) <==> At(sources, net, round, BroadcasterSaw, i))
    {
      ToldMeans(sources[i], net.answer(round, i));
    }
  }
  /** The broadcaster's answer is one: bytes, or a JSON 404. */
  predicate BroadcasterReplied(http: Http) { Replied(http) || (SaidNotFound(http) && http.json) }

  ghost predicate NotInTheChain(sources: seq<Source>, net: Network, round: nat) {
    && SaidNotFound(net.answer(round, 1).http) && SaidNotFound(net.answer(round, 2).http)
    && !Somewhere(sources, net, round, ChainHas)
  }

  /** Each field of a report but its evidence, by the words of the round. */
  ghost predicate ReportsWords(sources: seq<Source>, net: Network, round: nat, report: Report)
    requires Ordered(sources)
  {
    && (report.verdict.Confirmed? <==> Somewhere(sources, net, round, Has))
    && (report.verdict.Rejected? <==> Unanimous(sources, net, round))
    && (report.provider.ChainProvider? <==> Somewhere(sources, net, round, ChainHas))
    && (report.chainIndex.HasIt? <==> Somewhere(sources, net, round, ChainHas))
    && (report.chainIndex.NotThere? <==> NotInTheChain(sources, net, round))
    && (report.networkAbsent <==>
          && NotInTheChain(sources, net, round) && BroadcasterReplied(net.answer(round, 0).http)
          && !Somewhere(sources, net, round, StoreSaw))
    && (report.broadcasterFatal <==>
          SaidRejected(net.answer(round, 0).http) && !Somewhere(sources, net, round, ChainHas))
  }

  /** The evidence `e` is what the source at `i` sent. */
  ghost predicate SentBy(sources: seq<Source>, net: Network, round: nat, i: nat, e: Option<Evidence>) {
    i < |sources| && e.Some? && Said(sources[i], net.answer(round, i), e.value)
  }

  /** And its evidence: mined or seen as an index, else the last store, else the broadcaster said. */
  ghost predicate ReportsEvidence(sources: seq<Source>, net: Network, round: nat, report: Report)
    requires Ordered(sources)
  {
    if Somewhere(sources, net, round, ChainHas) then
      exists i :: At(sources, net, round, ChainHas, i) && SentBy(sources, net, round, i, report.evidence)
    else if Somewhere(sources, net, round, StoreSaw) then
      exists i :: LastAt(sources, net, round, StoreSaw, i) && SentBy(sources, net, round, i, report.evidence)
    else if BroadcasterSaw(sources[0], net.answer(round, 0)) then
      && SentBy(sources, net, round, 0, report.evidence)
      && (report.provider.ArcadeProvider? <==> sources[0].kind.Arcade?)
    else report.evidence == if Somewhere(sources, net, round, Knows) then Some(Seen) else None
  }

  lemma BroadcasterAlone(sources: seq<Source>, net: Network, round: nat)
    requires Ordered(sources)
    ensures var told, raw := View(sources, net, round), net.answer(round, 0);
            && (Any(told, Answers) <==> BroadcasterReplied(raw.http))
            && (Any(told, SaysFatal) <==> SaidRejected(raw.http))
            && (Any(told, BroadcasterHas) <==> BroadcasterSaw(sources[0], raw))
  {
    var told := View(sources, net, round);
    forall i: nat | i < |told|
      ensures Answers(told[i]) || SaysFatal(told[i]) || BroadcasterHas(told[i]) ==> i == 0
    {
      ToldMeans(sources[i], net.answer(round, i));
    }
    ToldMeans(sources[0], net.answer(round, 0));
    ProbeMeans(sources[0], net.answer(round, 0));
    Denials(sources[0], net.answer(round, 0));
    OnlyFirst(told, Answers);
    OnlyFirst(told, SaysFatal);
    OnlyFirst(told, BroadcasterHas);
  }

  lemma OnlyFirst(told: seq<Told>, p: Told -> bool)
    requires told != [] && forall i: nat | i < |told| && p(told[i]) :: i == 0
    ensures Any(told, p) <==> p(told[0])
    ensures p(told[0]) ==> LastSuch(told, p) == Some(told[0])
    decreases |told|
  {
    if |told| > 1 {
      OnlyFirst(told[..|told| - 1], p);
    } else {
      assert told[..|told| - 1] == [];
    }
  }

  lemma VotesAbsent(sources: seq<Source>, net: Network, round: nat)
    requires Ordered(sources)
    ensures IndexesAbsent(View(sources, net, round)) <==> NotInTheChain(sources, net, round)
  {
    var told := View(sources, net, round);
    FirstThree(sources, net, round);
    ViewSaysTheSame(sources, net, round);
    AnyIsSomewhere(sources, net, round, GivesEvidence, ChainHas);
    assert told[1] in told && told[2] in told;
    assert forall i | 0 <= i < |told| :: HasVote(told[i]) <==> i in {1, 2};
    Found(told, HasVote, told[1]);
  }

  lemma RoundReportsWords(sources: seq<Source>, net: Network, round: nat, report: Report)
    requires Ordered(sources) && Decides(View(sources, net, round), report)
    ensures ReportsWords(sources, net, round, report)
  {
    ViewSaysTheSame(sources, net, round);
    AnyIsSomewhere(sources, net, round, Vouches, Has);
    AnyIsSomewhere(sources, net, round, GivesEvidence, ChainHas);
    AnyIsSomewhere(sources, net, round, OtherHas, StoreSaw);
    UnanimousRound(sources, net, round);
    VotesAbsent(sources, net, round);
    BroadcasterAlone(sources, net, round);
  }

  lemma ToldSent(sources: seq<Source>, net: Network, round: nat, i: nat, e: Option<Evidence>)
    requires i < |sources| && Paired(sources[i])
    requires e.Some? && View(sources, net, round)[i].presence == Present(e.value)
    ensures SentBy(sources, net, round, i, e)
  {
    ProbeMeans(sources[i], net.answer(round, i));
  }

  lemma ChainSent(sources: seq<Source>, net: Network, round: nat, t: Told)
    requires Ordered(sources) && t in View(sources, net, round) && GivesEvidence(t)
    ensures exists i ::
              At(sources, net, round, ChainHas, i) && SentBy(sources, net, round, i, Some(t.presence.evidence))
  {
    var told := View(sources, net, round);
    var i: nat :| i < |told| && told[i] == t;
    ToldMeans(sources[i], net.answer(round, i));
    ToldSent(sources, net, round, i, Some(t.presence.evidence));
    assert At(sources, net, round, ChainHas, i);
  }

  lemma StoreSent(sources: seq<Source>, net: Network, round: nat, e: Option<Evidence>)
    requires Ordered(sources) && SaysTheSame(sources, net, round, OtherHas, StoreSaw)
    requires Somewhere(sources, net, round, StoreSaw)
    requires e == EvidenceOf(LastSuch(View(sources, net, round), OtherHas))
    ensures exists i :: LastAt(sources, net, round, StoreSaw, i) && SentBy(sources, net, round, i, e)
  {
    var told := View(sources, net, round);
    var i := LastIsLastAt(sources, net, round, OtherHas, StoreSaw, |sources|);
    assert told[..|sources|] == told;
    ToldMeans(sources[i], net.answer(round, i));
    ToldSent(sources, net, round, i, e);
  }

  lemma BroadcasterSent(sources: seq<Source>, net: Network, round: nat, e: Option<Evidence>)
    requires Ordered(sources) && BroadcasterSaw(sources[0], net.answer(round, 0))
    requires e == EvidenceOf(LastSuch(View(sources, net, round), BroadcasterHas))
    ensures LastSuch(View(sources, net, round), BroadcasterHas) == Some(View(sources, net, round)[0])
    ensures SentBy(sources, net, round, 0, e)
  {
    ToldMeans(sources[0], net.answer(round, 0));
    OnlyFirst(View(sources, net, round), BroadcasterHas);
    ToldSent(sources, net, round, 0, e);
  }

  lemma RoundReportsEvidence(sources: seq<Source>, net: Network, round: nat, report: Report)
    requires Ordered(sources) && EvidenceIs(View(sources, net, round), report)
    ensures ReportsEvidence(sources, net, round, report)
  {
    var told := View(sources, net, round);
    ViewSaysTheSame(sources, net, round);
    AnyIsSomewhere(sources, net, round, GivesEvidence, ChainHas);
    AnyIsSomewhere(sources, net, round, GivesWord, Knows);
    AnyIsSomewhere(sources, net, round, OtherHas, StoreSaw);
    BroadcasterAlone(sources, net, round);
    if Any(told, GivesEvidence) {
      var t :| t in told && GivesEvidence(t) && report.evidence == Some(t.presence.evidence);
      ChainSent(sources, net, round, t);
    } else if Any(told, OtherHas) {
      StoreSent(sources, net, round, report.evidence);
    } else if Any(told, BroadcasterHas) {
      BroadcasterSent(sources, net, round, report.evidence);
    }
  }

  /**
   The whole report of a run over the wallet's list, in what its sources sent: every round before
   the last was in time with no source having it, and the last round's words give each field.
   */
  lemma ReportIsEarned(
      c: Config, net: Network, clones: Clones, rotation: nat,
      arcade: bool, bananaBlocks: bool, gorillaPool: bool, taal: bool)
    requires Runs(c) && c.sources == BuildSources(arcade, bananaBlocks, gorillaPool, taal)
    ensures Ordered(c.sources)
    ensures var out := Ran(c, net, clones, rotation);
            && out.rounds > 0
            && (forall k: nat | k < out.rounds - 1 :: !net.late(k) && !Somewhere(c.sources, net, k, Has))
            && (|| out.rounds == c.attempts || net.late(out.rounds - 1)
                || Somewhere(c.sources, net, out.rounds - 1, Has))
            && ReportsWords(c.sources, net, out.rounds - 1, out.report)
            && ReportsEvidence(c.sources, net, out.rounds - 1, out.report)
  {
    SourcesAreOrdered(arcade, bananaBlocks, gorillaPool, taal);
    VerdictIsExact(c, net, clones, rotation);
    RunReports(c, net, clones, rotation);
    var out := Ran(c, net, clones, rotation);
    var last := out.rounds - 1;
    forall k: nat ensures AnyVouch(c, net, k) <==> Somewhere(c.sources, net, k, Has) {
      ViewSaysTheSame(c.sources, net, k);
      AnyIsSomewhere(c.sources, net, k, Vouches, Has);
    }
    forall k: nat | k < last ensures !net.late(k) && !Somewhere(c.sources, net, k, Has) {
      assert OpenRounds(c, net)(k);
    }
    assert out.rounds == c.attempts || !OpenRounds(c, net)(last);
    RoundReportsWords(c.sources, net, last, out.report);
    ReportedEvidence(View(c.sources, net, last), LastStart(c, net, clones, rotation, last));
    RoundReportsEvidence(c.sources, net, last, out.report);
  }

  // ---------------------------------------------------------------------------
  // The pauses
  // ---------------------------------------------------------------------------

  function Sum(xs: seq<nat>): nat {
    if xs == [] then 0 else Sum(xs[..|xs| - 1]) + xs[|xs| - 1]
  }

  lemma {:induction false} PacedSum(cap: nat, slept: seq<nat>)
    requires Paced(cap, slept)
    ensures Sum(slept) == GapsUpTo(cap, |slept| + 1)
  {
    if slept != [] {
      PacedSum(cap, slept[..|slept| - 1]);
    }
  }

  lemma {:induction false} GapsGrow(cap: nat, a: nat, b: nat)
    requires a <= b
    ensures GapsUpTo(cap, a) <= GapsUpTo(cap, b)
    decreases b
  {
    if a < b {
      GapsGrow(cap, a, b - 1);
    }
  }

  lemma {:induction false} Pow2Grows(a: nat, b: nat)
    requires a <= b
    ensures Pow2(a) <= Pow2(b)
    decreases b
  {
    if a < b {
      Pow2Grows(a, b - 1);
    }
  }

  lemma DelaysGrow(cap: nat, a: nat, b: nat)
    requires 1 <= a <= b
    ensures DelayBefore(cap, a) <= DelayBefore(cap, b) <= cap
  {
    Pow2Grows(Min(a - 1, 16), Min(b - 1, 16));
  }

  lemma PacedGrows(cap: nat, slept: seq<nat>)
    requires Paced(cap, slept)
    ensures forall i, j | 0 <= i < j < |slept| :: slept[i] <= slept[j]
    ensures forall i | 0 <= i < |slept| :: slept[i] <= cap
  {
    forall i, j | 0 <= i < j < |slept| ensures slept[i] <= slept[j] {
      DelaysGrow(cap, i + 1, j + 1);
    }
  }

  /** The pauses never shrink, none is over the cap, and their sum is within the absence window. */
  lemma SleepIsBounded(c: Config, net: Network, clones: Clones, rotation: nat)
    ensures var slept := Ran(c, net, clones, rotation).slept;
            && (forall i, j | 0 <= i < j < |slept| :: slept[i] <= slept[j])
            && (forall i | 0 <= i < |slept| :: slept[i] <= c.delay)
            && Sum(slept) + PROBE_TIMEOUT <= AbsenceWindow(c.delay, c.attempts)
  {
    if Runs(c) {
      VerdictIsExact(c, net, clones, rotation);
      var slept := Ran(c, net, clones, rotation).slept;
      PacedGrows(c.delay, slept);
      PacedSum(c.delay, slept);
      GapsGrow(c.delay, |slept| + 1, c.attempts);
    }
  }

  /** With the defaults, fourteen attempts and 2500 ms, an absence waits 26,250 ms. */
  lemma DefaultWindow()
    ensures AbsenceWindow(2500, 14) == 26_250 + PROBE_TIMEOUT
  {
    assert Pow2(1) == 2 && Pow2(2) == 4 && Pow2(3) == 8 && Pow2(4) == 16;
    forall round | 5 <= round <= 13 ensures DelayBefore(2500, round) == 2500 {
      Pow2Grows(4, Min(round - 1, 16));
    }
    assert GapsUpTo(2500, 5) == 3750;
    assert GapsUpTo(2500, 8) == 3750 + 3 * 2500 by {
      assert GapsUpTo(2500, 6) == 6250 && GapsUpTo(2500, 7) == 8750;
    }
    assert GapsUpTo(2500, 11) == 3750 + 6 * 2500 by {
      assert GapsUpTo(2500, 9) == 13750 && GapsUpTo(2500, 10) == 16250;
    }
    assert GapsUpTo(2500, 14) == 3750 + 9 * 2500 by {
      assert GapsUpTo(2500, 12) == 21250 && GapsUpTo(2500, 13) == 23750;
    }
  }

  /** Under the default settings no run pauses for more than 26,250 ms, and one of all its rounds for that. */
  lemma DefaultRun(c: Config, net: Network, clones: Clones, rotation: nat)
    requires c.delay == 2500 && c.attempts == 14
    ensures var out := Ran(c, net, clones, rotation);
            && Sum(out.slept) <= 26_250
            && (out.rounds == 14 ==> Sum(out.slept) == 26_250)
  {
    DefaultWindow();
    if Runs(c) {
      VerdictIsExact(c, net, clones, rotation);
      var slept := Ran(c, net, clones, rotation).slept;
      PacedSum(2500, slept);
      GapsGrow(2500, |slept| + 1, 14);
    }
  }
}
