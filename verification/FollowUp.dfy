/**
 The follow-up of a `stale` word at the broadcasters: one status read and at most one announce
 per episode, or the toolbox's monitor's and none here.
 */
module FollowUp {
  import opened Prelude

  const REORG_ASKS_PER_PASS: nat := 4

  datatype Word = Stale | NodeVerdict | Elsewhere

  datatype Mark = ReadOnce | AnnouncedOnce | Monitor

  /** A broadcaster's word for a transaction; `NotKnown` is that it has none. */
  datatype Label = Accepted | SeenThere | MinedThere | RejectedThere | NotKnown

  /** A hint is kept by who gave it and what it was, once. */
  datatype Hint = Hint(provider: string, said: Label)

  datatype Row = Row(word: Word, mark: Option<Mark>, hints: seq<Hint>)

  datatype Post = PostFailed | Verdict | Taken(provider: string) | NotTaken

  /** What the services and the store would answer about one row. */
  datatype Answers = Answers(statuses: seq<Hint>, beefStored: bool, post: Post)

  datatype Did = Did(row: Row, read: bool, announced: bool, monitored: bool)

  function Nothing(row: Row): Did { Did(row, false, false, false) }

  // ---------------------------------------------------------------------------
  // One pass
  // ---------------------------------------------------------------------------

  /** The answers that have a word for the transaction. */
  function KnownBy(statuses: seq<Hint>): seq<Hint> {
    if statuses == [] then []
    else (if statuses[0].said.NotKnown? then [] else [statuses[0]]) + KnownBy(statuses[1..])
  }

  function AddHint(hints: seq<Hint>, h: Hint): seq<Hint> {
    if h in hints then hints else hints + [h]
  }

  function AddHints(hints: seq<Hint>, more: seq<Hint>): seq<Hint>
    decreases |more|
  {
    if more == [] then hints else AddHints(AddHint(hints, more[0]), more[1..])
  }

  /** The read, and the announce when every broadcaster that answered does not know it. */
  function ReadAndAnnounce(row: Row, a: Answers): Did {
    var read := row.(mark := Some(ReadOnce));
    if KnownBy(a.statuses) != [] then Did(read.(hints := AddHints(row.hints, KnownBy(a.statuses))), true, false, false)
    else if a.statuses == [] then Did(read, true, false, false)
    else
      var announced := read.(mark := Some(AnnouncedOnce));
      if !a.beefStored then Did(announced, true, false, false)
      else match a.post
        case PostFailed => Did(announced, true, true, false)
        case Verdict => Did(announced.(word := NodeVerdict), true, true, false)
        case Taken(provider) =>
          Did(announced.(hints := AddHint(row.hints, Hint(provider, Accepted))), true, true, false)
        case NotTaken => Did(announced, true, true, false)
  }

  function FollowRow(row: Row, monitorRuns: bool, a: Answers): Did {
    if row.word != Stale || row.mark.Some? then Nothing(row)
    else if monitorRuns then Did(row.(mark := Some(Monitor)), false, false, true)
    else ReadAndAnnounce(row, a)
  }

  type Step = (Row, Answers) -> Did

  function Follower(monitorRuns: bool): Step {
    (row, a) => FollowRow(row, monitorRuns, a)
  }

  /** The pass over the rows from the `i`-th on, stopped after its fourth read. */
  function FollowFrom(rows: seq<Row>, step: Step, env: seq<Answers>, i: nat, followed: nat): (dids: seq<Did>)
    requires |env| == |rows| && i <= |rows|
    ensures |dids| == |rows| - i
    decreases |rows| - i
  {
    if i == |rows| then []
    else
      var first := if followed >= REORG_ASKS_PER_PASS then Nothing(rows[i]) else step(rows[i], env[i]);
      [first] + FollowFrom(rows, step, env, i + 1, followed + if first.read then 1 else 0)
  }

  function FollowRows(rows: seq<Row>, monitorRuns: bool, env: seq<Answers>): (dids: seq<Did>)
    requires |env| == |rows|
    ensures |dids| == |rows|
  {
    FollowFrom(rows, Follower(monitorRuns), env, 0, 0)
  }

  function Reads(dids: seq<Did>): nat {
    if dids == [] then 0 else (if dids[0].read then 1 else 0) + Reads(dids[1..])
  }

  /** The row is stepped, or passed over when the reads of the pass are spent. */
  predicate Paced(did: Did, row: Row, step: Step, answers: Answers, total: nat) {
    did == step(row, answers) || (did == Nothing(row) && total == REORG_ASKS_PER_PASS)
  }

  lemma PacedLater(
      first: Did, later: seq<Did>, j: nat, row: Row, step: Step, answers: Answers, followed: nat, now: nat)
    requires j < |later| && now == followed + (if first.read then 1 else 0)
    requires Paced(later[j], row, step, answers, now + Reads(later))
    ensures Paced(([first] + later)[j + 1], row, step, answers, followed + Reads([first] + later))
  {
    assert ([first] + later)[1..] == later;
  }

  lemma FollowFromNext(rows: seq<Row>, step: Step, env: seq<Answers>, i: nat, followed: nat)
      returns (first: Did, now: nat)
    requires |env| == |rows| && i < |rows| && followed <= REORG_ASKS_PER_PASS
    ensures now == followed + (if first.read then 1 else 0) && now <= REORG_ASKS_PER_PASS
    ensures FollowFrom(rows, step, env, i, followed) == [first] + FollowFrom(rows, step, env, i + 1, now)
    ensures first == if followed >= REORG_ASKS_PER_PASS then Nothing(rows[i]) else step(rows[i], env[i])
  {
    first := FollowFrom(rows, step, env, i, followed)[0];
    now := followed + if first.read then 1 else 0;
  }

  lemma {:induction false} ReadsAreFew(rows: seq<Row>, step: Step, env: seq<Answers>, i: nat, followed: nat)
    requires |env| == |rows| && i <= |rows| && followed <= REORG_ASKS_PER_PASS
    ensures followed + Reads(FollowFrom(rows, step, env, i, followed)) <= REORG_ASKS_PER_PASS
    decreases |rows| - i
  {
    if i < |rows| {
      var dids := FollowFrom(rows, step, env, i, followed);
      ReadsAreFew(rows, step, env, i + 1, followed + if dids[0].read then 1 else 0);
    }
  }

  /** A row is stepped, unless the reads of the pass are spent. */
  lemma {:induction false} FollowFromIsPaced(
      rows: seq<Row>, step: Step, env: seq<Answers>, i: nat, followed: nat, k: nat)
    requires |env| == |rows| && i <= k < |rows| && followed <= REORG_ASKS_PER_PASS
    ensures var dids := FollowFrom(rows, step, env, i, followed);
            Paced(dids[k - i], rows[k], step, env[k], followed + Reads(dids))
    decreases |rows| - i
  {
    var first, now := FollowFromNext(rows, step, env, i, followed);
    if i < k {
      FollowFromIsPaced(rows, step, env, i + 1, now, k);
      PacedLater(first, FollowFrom(rows, step, env, i + 1, now), k - i - 1, rows[k], step, env[k], followed, now);
    } else {
      ReadsAreFew(rows, step, env, i, followed);
    }
  }

  /** At most four reads a pass; a row is skipped only when the four were made. */
  lemma PassIsPaced(rows: seq<Row>, monitorRuns: bool, env: seq<Answers>)
    requires |env| == |rows|
    ensures var dids := FollowRows(rows, monitorRuns, env);
            && Reads(dids) <= 4
            && forall k | 0 <= k < |rows| ::
                  || dids[k] == FollowRow(rows[k], monitorRuns, env[k])
                  || (dids[k] == Nothing(rows[k]) && Reads(dids) == 4)
  {
    ReadsAreFew(rows, Follower(monitorRuns), env, 0, 0);
    forall k | 0 <= k < |rows|
      ensures var dids := FollowRows(rows, monitorRuns, env);
              || dids[k] == Follower(monitorRuns)(rows[k], env[k])
              || (dids[k] == Nothing(rows[k]) && Reads(dids) == REORG_ASKS_PER_PASS)
    {
      FollowFromIsPaced(rows, Follower(monitorRuns), env, 0, 0, k);
    }
  }

  /** `follow_up_stale`, over the rows in place. */
  method FollowUpStale(rows: array<Row>, monitorRuns: bool, env: seq<Answers>) returns (dids: seq<Did>)
    requires |env| == rows.Length
    modifies rows
    ensures dids == FollowRows(old(rows[..]), monitorRuns, env)
    ensures forall i | 0 <= i < rows.Length :: rows[i] == dids[i].row
    ensures Reads(dids) <= REORG_ASKS_PER_PASS
  {
    ghost var before := rows[..];
    PassIsPaced(before, monitorRuns, env);
    dids := FollowEach(rows, Follower(monitorRuns), env);
  }

  lemma NextDid(rows: seq<Row>, step: Step, env: seq<Answers>, i: nat, followed: nat, dids: seq<Did>, rest: seq<Did>)
      returns (later: seq<Did>)
    requires |env| == |rows| && i < |rows| && rest == FollowFrom(rows, step, env, i, followed)
    ensures var did := if followed >= REORG_ASKS_PER_PASS then Nothing(rows[i]) else step(rows[i], env[i]);
            && later == FollowFrom(rows, step, env, i + 1, followed + if did.read then 1 else 0)
            && dids + rest == (dids + [did]) + later
  {
    later := rest[1..];
  }

  method FollowEach(rows: array<Row>, step: Step, env: seq<Answers>) returns (dids: seq<Did>)
    requires |env| == rows.Length
    modifies rows
    ensures dids == FollowFrom(old(rows[..]), step, env, 0, 0)
    ensures forall i | 0 <= i < rows.Length :: rows[i] == dids[i].row
  {
    ghost var before := rows[..];
    ghost var all := FollowFrom(before, step, env, 0, 0);
    ghost var rest := all;
    dids := [];
    var followed := 0;
    for i := 0 to rows.Length
      invariant |dids| == i
      invariant forall k | i <= k < rows.Length :: rows[k] == before[k]
      invariant forall k | 0 <= k < i :: rows[k] == dids[k].row
      invariant all == dids + rest && rest == FollowFrom(before, step, env, i, followed)
    {
      var did := if followed >= REORG_ASKS_PER_PASS then Nothing(rows[i]) else step(rows[i], env[i]);
      rest := NextDid(before, step, env, i, followed, dids, rest);
      rows[i] := did.row;
      if did.read {
        followed := followed + 1;
      }
      dids := dids + [did];
    }
  }

  // ---------------------------------------------------------------------------
  // One row over a run
  // ---------------------------------------------------------------------------

  /**
   What happens to the stored rows: a pass, which loads each with the word its replay gives and
   stores it with the word the rest of the pass leaves, or a store made by anything else.
   */
  datatype Event =
    | PassEvent(monitorRuns: bool, words: seq<Word>, env: seq<Answers>, storedStale: seq<bool>)
    | StoreEvent(row: nat, stale: bool)

  ghost predicate Fits(e: Event, n: nat) {
    match e
    case PassEvent(_, words, env, storedStale) => |words| == |env| == |storedStale| == n
    case StoreEvent(row, _) => row < n
  }

  /** The mark belongs to one episode: it is stored only while the word is stale. */
  function StoredMark(mark: Option<Mark>, stale: bool): Option<Mark> {
    if stale then mark else None
  }

  function LoadRows(marks: seq<Option<Mark>>, words: seq<Word>): (rows: seq<Row>)
    requires |words| == |marks|
    ensures |rows| == |marks|
  {
    seq(|marks|, i requires 0 <= i < |marks| => Row(words[i], marks[i], []))
  }

  function PassDids(marks: seq<Option<Mark>>, e: Event): (dids: seq<Did>)
    requires Fits(e, |marks|) && e.PassEvent?
    ensures |dids| == |marks|
  {
    FollowRows(LoadRows(marks, e.words), e.monitorRuns, e.env)
  }

  function AfterEvent(marks: seq<Option<Mark>>, e: Event): (after: seq<Option<Mark>>)
    requires Fits(e, |marks|)
    ensures |after| == |marks|
  {
    match e
    case StoreEvent(row, stale) => marks[row := StoredMark(marks[row], stale)]
    case PassEvent(_, _, _, storedStale) =>
      var dids := PassDids(marks, e);
      seq(|marks|, i requires 0 <= i < |marks| => StoredMark(dids[i].row.mark, storedStale[i]))
  }

  /** One event as one row sees it; `ended` when it was stored with a word that is not stale. */
  datatype Seen = Seen(read: bool, announced: bool, monitored: bool, ended: bool)

  ghost function Sees(marks: seq<Option<Mark>>, e: Event, r: nat): Seen
    requires Fits(e, |marks|) && r < |marks|
  {
    match e
    case StoreEvent(row, stale) => Seen(false, false, false, row == r && !stale)
    case PassEvent(_, _, _, storedStale) =>
      var did := PassDids(marks, e)[r];
      Seen(did.read, did.announced, did.monitored, !storedStale[r])
  }

  ghost function Trace(marks: seq<Option<Mark>>, events: seq<Event>, r: nat): (trace: seq<Seen>)
    requires r < |marks| && forall e | e in events :: Fits(e, |marks|)
    ensures |trace| == |events|
    decreases |events|
  {
    if events == [] then []
    else
      assert events[0] in events && forall e | e in events[1..] :: e in events;
      [Sees(marks, events[0], r)] + Trace(AfterEvent(marks, events[0]), events[1..], r)
  }

  ghost predicate EndedBetween(trace: seq<Seen>, a: nat, b: nat) {
    exists k :: a <= k < b && k < |trace| && trace[k].ended
  }

  /** The row was followed: read here, or handed to the monitor. */
  ghost predicate Acts(s: Seen) {
    s.read || s.monitored
  }

  /** One row of a pass: followed only when unmarked, and then left marked. */
  lemma OneRow(row: Row, monitorRuns: bool, a: Answers, did: Did)
    requires did == FollowRow(row, monitorRuns, a) || did == Nothing(row)
    ensures (did.read || did.monitored ==> row.mark.None?) && (did.announced ==> did.read)
    ensures !(did.read && did.monitored)
    ensures row.mark.Some? || did.read || did.monitored ==> did.row.mark.Some?
  {
  }

  /** An event acts on a row only when it is unmarked, and marks it unless it ends the episode. */
  lemma OneEvent(marks: seq<Option<Mark>>, e: Event, r: nat)
    requires Fits(e, |marks|) && r < |marks|
    ensures var s, after := Sees(marks, e, r), AfterEvent(marks, e)[r];
            && (Acts(s) ==> marks[r].None?)
            && (s.announced ==> s.read) && !(s.read && s.monitored)
            && (marks[r].Some? || Acts(s) ==> s.ended || after.Some?)
            && (s.ended ==> after.None?)
  {
    if e.PassEvent? {
      var rows := LoadRows(marks, e.words);
      FollowFromIsPaced(rows, Follower(e.monitorRuns), e.env, 0, 0, r);
      OneRow(rows[r], e.monitorRuns, e.env[r], PassDids(marks, e)[r]);
    }
  }

  lemma EndedLater(first: Seen, later: seq<Seen>, a: nat, b: nat)
    requires EndedBetween(later, a, b)
    ensures EndedBetween([first] + later, a + 1, b + 1)
  {
    var k :| a <= k < b && k < |later| && later[k].ended;
    assert ([first] + later)[k + 1].ended;
  }

  lemma TraceNext(marks: seq<Option<Mark>>, events: seq<Event>, r: nat)
    requires r < |marks| && events != [] && forall e | e in events :: Fits(e, |marks|)
    ensures events[0] in events && Fits(events[0], |marks|)
    ensures forall e | e in events[1..] :: Fits(e, |AfterEvent(marks, events[0])|)
    ensures Trace(marks, events, r)
         == [Sees(marks, events[0], r)] + Trace(AfterEvent(marks, events[0]), events[1..], r)
  {
    assert events[0] in events && forall e | e in events[1..] :: e in events;
  }

  /** A marked row is left alone until its episode ends. */
  lemma {:induction false} MarkedIsLeftAlone(marks: seq<Option<Mark>>, events: seq<Event>, r: nat, b: nat)
    requires r < |marks| && forall e | e in events :: Fits(e, |marks|)
    requires marks[r].Some? && b < |events|
    ensures var trace := Trace(marks, events, r);
            Acts(trace[b]) ==> EndedBetween(trace, 0, b)
    decreases |events|
  {
    TraceNext(marks, events, r);
    OneEvent(marks, events[0], r);
    var first, after := Sees(marks, events[0], r), AfterEvent(marks, events[0]);
    var later := Trace(after, events[1..], r);
    if b > 0 && !first.ended {
      MarkedIsLeftAlone(after, events[1..], r, b - 1);
      if Acts(later[b - 1]) {
        EndedLater(first, later, 0, b - 1);
      }
    } else if b > 0 {
      assert ([first] + later)[0].ended;
    }
  }

  /**
   At most one status read per stale episode, whichever way `monitor_runs` switches: between two
   reads of a row, or between its marking for the monitor and a read, or the other way round,
   some store found the word not stale.
   */
  lemma {:induction false} OncePerEpisode(
      marks: seq<Option<Mark>>, events: seq<Event>, r: nat, a: nat, b: nat)
    requires r < |marks| && forall e | e in events :: Fits(e, |marks|)
    requires a < b < |events|
    requires Acts(Trace(marks, events, r)[a]) && Acts(Trace(marks, events, r)[b])
    ensures EndedBetween(Trace(marks, events, r), a, b)
    decreases |events|
  {
    TraceNext(marks, events, r);
    OneEvent(marks, events[0], r);
    var first, after := Sees(marks, events[0], r), AfterEvent(marks, events[0]);
    var later := Trace(after, events[1..], r);
    if a > 0 {
      OncePerEpisode(after, events[1..], r, a - 1, b - 1);
      EndedLater(first, later, a - 1, b - 1);
    } else if !first.ended {
      MarkedIsLeftAlone(after, events[1..], r, b - 1);
      EndedLater(first, later, 0, b - 1);
    } else {
      assert ([first] + later)[0].ended;
    }
  }

  /** An announce is made only with its episode's read, so there is at most one of it too. */
  lemma {:induction false} AnnouncedOnlyWithRead(
      marks: seq<Option<Mark>>, events: seq<Event>, r: nat, b: nat)
    requires r < |marks| && forall e | e in events :: Fits(e, |marks|)
    requires b < |events|
    ensures Trace(marks, events, r)[b].announced ==> Trace(marks, events, r)[b].read
    decreases |events|
  {
    TraceNext(marks, events, r);
    OneEvent(marks, events[0], r);
    var after := AfterEvent(marks, events[0]);
    if b > 0 {
      AnnouncedOnlyWithRead(after, events[1..], r, b - 1);
      assert Trace(marks, events, r)[b] == Trace(after, events[1..], r)[b - 1];
    }
  }

  lemma {:induction false} NobodyKnows(statuses: seq<Hint>)
    ensures KnownBy(statuses) == [] <==> forall h | h in statuses :: h.said.NotKnown?
  {
    if statuses != [] {
      NobodyKnows(statuses[1..]);
    }
  }

  ghost predicate NoRepeats(hints: seq<Hint>) {
    forall i, j | 0 <= i < j < |hints| :: hints[i] != hints[j]
  }

  lemma {:induction false} AddHintsKeeps(hints: seq<Hint>, more: seq<Hint>)
    requires NoRepeats(hints)
    ensures NoRepeats(AddHints(hints, more)) && hints <= AddHints(hints, more)
    ensures forall h | h in more :: h in AddHints(hints, more)
    decreases |more|
  {
    if more != [] {
      var next := AddHint(hints, more[0]);
      AddHintsKeeps(next, more[1..]);
      assert more[0] in next;
      assert forall h | h in next :: h in AddHints(next, more[1..]);
    }
  }

  lemma {:induction false} KnownAreAnswers(statuses: seq<Hint>, h: Hint)
    ensures h in KnownBy(statuses) <==> h in statuses && !h.said.NotKnown?
  {
    if statuses != [] {
      KnownAreAnswers(statuses[1..], h);
    }
  }

  /** A follow-up only adds hints, each once, and every word a broadcaster had is among them. */
  lemma HintsAreKept(row: Row, monitorRuns: bool, a: Answers)
    requires NoRepeats(row.hints)
    ensures var did := FollowRow(row, monitorRuns, a);
            && row.hints <= did.row.hints && NoRepeats(did.row.hints)
            && (did.read ==> forall h | h in a.statuses && !h.said.NotKnown? :: h in did.row.hints)
  {
    AddHintsKeeps(row.hints, KnownBy(a.statuses));
    forall h | h in a.statuses && !h.said.NotKnown?
      ensures h in KnownBy(a.statuses)
    {
      KnownAreAnswers(a.statuses, h);
    }
  }

  /** Announced only when some broadcaster answered and every one that did does not know it. */
  lemma AnnounceNeedsDenial(row: Row, monitorRuns: bool, a: Answers)
    ensures FollowRow(row, monitorRuns, a).announced ==>
              && !monitorRuns && a.statuses != [] && a.beefStored
              && forall h | h in a.statuses :: h.said.NotKnown?
  {
    NobodyKnows(a.statuses);
  }

  predicate Known(a: Answers, h: Hint) {
    h in a.statuses && !h.said.NotKnown?
  }

  /** Some broadcaster answered and none of those that did has it. */
  predicate AllDeny(a: Answers) {
    a.statuses != [] && forall h | h in a.statuses :: h.said.NotKnown?
  }

  /** The hint a post leaves when a broadcaster takes the transaction. */
  predicate TookNow(a: Answers, h: Hint) {
    a.post.Taken? && h == Hint(a.post.provider, Accepted)
  }

  lemma {:induction false} AddHintsMembers(hints: seq<Hint>, more: seq<Hint>, h: Hint)
    ensures h in AddHints(hints, more) <==> h in hints || h in more
    decreases |more|
  {
    if more != [] {
      AddHintsMembers(AddHint(hints, more[0]), more[1..], h);
    }
  }

  /**
   All a follow-up does to one row. A row not stale, or marked, is left as it is; under a monitor it
   is marked and nothing else; otherwise it is read, and where all that answered deny it, marked
   announced, and announced exactly when its bytes are stored; only the announce's own answer gives
   it the node's verdict, or the hint of a broadcaster that took it.
   */
  lemma FollowUpIsExact(row: Row, monitorRuns: bool, a: Answers)
    ensures var did := FollowRow(row, monitorRuns, a);
            var open := row.word.Stale? && row.mark.None?;
            && (did.read <==> open && !monitorRuns) && (did.monitored <==> open && monitorRuns)
            && (did.announced <==> did.read && AllDeny(a) && a.beefStored)
            && did.row.mark == (if !open then row.mark
                                else if monitorRuns then Some(Monitor)
                                else if AllDeny(a) then Some(AnnouncedOnce)
                                else Some(ReadOnce))
            && did.row.word == (if did.announced && a.post.Verdict? then NodeVerdict else row.word)
            && forall h :: h in did.row.hints <==>
                 h in row.hints || (did.read && Known(a, h)) || (did.announced && TookNow(a, h))
  {
    NobodyKnows(a.statuses);
    forall h ensures h in AddHints(row.hints, KnownBy(a.statuses)) <==> h in row.hints || Known(a, h) {
      AddHintsMembers(row.hints, KnownBy(a.statuses), h);
      KnownAreAnswers(a.statuses, h);
    }
  }

  /** An episode that ended leaves no mark: the next one is followed from the start. */
  lemma NextEpisodeIsFresh(marks: seq<Option<Mark>>, e: Event, next: Event, r: nat)
    requires r < |marks| && Fits(e, |marks|) && Fits(next, |marks|)
    requires Sees(marks, e, r).ended && next.PassEvent? && next.words[r] == Stale
    requires Reads(PassDids(AfterEvent(marks, e), next)) < REORG_ASKS_PER_PASS
    ensures var s := Sees(AfterEvent(marks, e), next, r);
            s.read == !next.monitorRuns && s.monitored == next.monitorRuns
  {
    OneEvent(marks, e, r);
    var now := AfterEvent(marks, e);
    PassIsPaced(LoadRows(now, next.words), next.monitorRuns, next.env);
  }
}
