/**
 Which re-asks a pass runs, and the doubling pause between two of one transaction. A row stands
 for the transaction it is keyed by; a list of positions for a list of txids.
 */
module AskSchedule {
  import opened Prelude

  const MAX_BACKOFF_DOUBLINGS: nat := 6
  const MAX_ASKS_PER_TX: nat := 16
  const REORG_ASKS_PER_PASS: nat := 4

  datatype Row = Row(asks: nat, nextAskAt: Option<nat>)

  /** A pending re-ask: the word's root moved, or anything else. */
  datatype Ask = RootMoved | Other

  // ---------------------------------------------------------------------------
  // What is due
  // ---------------------------------------------------------------------------

  predicate IsDue(row: Row, reask: Option<Ask>, now: nat) {
    && reask.Some?
    && row.asks < MAX_ASKS_PER_TX
    && (row.nextAskAt.None? || row.nextAskAt.value <= now)
  }

  /** Positions of the rows due with this kind of re-ask, in the rows' order. */
  function DueOf(rows: seq<Row>, reasks: seq<Option<Ask>>, now: nat, moved: bool): (due: seq<nat>)
    requires |reasks| == |rows|
    ensures forall i: nat :: i in due <==>
              i < |rows| && IsDue(rows[i], reasks[i], now) && (reasks[i] == Some(RootMoved)) == moved
  {
    if rows == [] then []
    else
      var n := |rows| - 1;
      var before := DueOf(rows[..n], reasks[..n], now, moved);
      if IsDue(rows[n], reasks[n], now) && (reasks[n] == Some(RootMoved)) == moved then before + [n] else before
  }

  ghost predicate Ascends(due: seq<nat>) {
    forall j, k | 0 <= j < k < |due| :: due[j] < due[k]
  }

  lemma AscendsAppend(before: seq<nat>, n: nat)
    requires Ascends(before) && forall i | i in before :: i < n
    ensures Ascends(before + [n])
  {
    assert forall j | 0 <= j < |before| :: before[j] in before;
  }

  lemma {:induction false} DueOfAscends(rows: seq<Row>, reasks: seq<Option<Ask>>, now: nat, moved: bool)
    requires |reasks| == |rows|
    ensures Ascends(DueOf(rows, reasks, now, moved))
  {
    if rows != [] {
      var n := |rows| - 1;
      DueOfAscends(rows[..n], reasks[..n], now, moved);
      AscendsAppend(DueOf(rows[..n], reasks[..n], now, moved), n);
    }
  }

  function Take(s: seq<nat>, n: nat): seq<nat> {
    if |s| <= n then s else s[..n]
  }

  function Due(rows: seq<Row>, reasks: seq<Option<Ask>>, now: nat, maxAsks: nat): seq<nat>
    requires |reasks| == |rows|
  {
    Take(Take(DueOf(rows, reasks, now, true), Min(REORG_ASKS_PER_PASS, maxAsks))
         + DueOf(rows, reasks, now, false),
         maxAsks)
  }

  ghost predicate Moved(reasks: seq<Option<Ask>>, i: nat) {
    i < |reasks| && reasks[i] == Some(RootMoved)
  }

  /** How many of those asked are asked for a moved root. */
  ghost function MovedAmong(due: seq<nat>, reasks: seq<Option<Ask>>): nat {
    if due == [] then 0
    else (if Moved(reasks, due[0]) then 1 else 0) + MovedAmong(due[1..], reasks)
  }

  lemma {:induction false} MovedAmongSplit(a: seq<nat>, b: seq<nat>, reasks: seq<Option<Ask>>)
    requires forall i | i in a :: Moved(reasks, i)
    requires forall i | i in b :: !Moved(reasks, i)
    ensures MovedAmong(a + b, reasks) == |a|
    decreases |a| + |b|
  {
    if a != [] {
      assert (a + b)[0] == a[0] && (a + b)[1..] == a[1..] + b;
      MovedAmongSplit(a[1..], b, reasks);
    } else if b != [] {
      assert a + b == b && a + b[1..] == b[1..];
      MovedAmongSplit(a, b[1..], reasks);
    }
  }

  /** Moved roots, a few; then the others, as many as still fit. */
  ghost function FirstPart(rows: seq<Row>, reasks: seq<Option<Ask>>, now: nat, maxAsks: nat): seq<nat>
    requires |reasks| == |rows|
  {
    Take(DueOf(rows, reasks, now, true), Min(REORG_ASKS_PER_PASS, maxAsks))
  }

  ghost function SecondPart(rows: seq<Row>, reasks: seq<Option<Ask>>, now: nat, maxAsks: nat): seq<nat>
    requires |reasks| == |rows|
  {
    Take(DueOf(rows, reasks, now, false), maxAsks - |FirstPart(rows, reasks, now, maxAsks)|)
  }

  lemma DueParts(rows: seq<Row>, reasks: seq<Option<Ask>>, now: nat, maxAsks: nat)
    requires |reasks| == |rows|
    ensures var few, rest := FirstPart(rows, reasks, now, maxAsks), SecondPart(rows, reasks, now, maxAsks);
            && Due(rows, reasks, now, maxAsks) == few + rest
            && |few| <= Min(REORG_ASKS_PER_PASS, maxAsks) && |few + rest| <= maxAsks
            && (forall i | i in few :: i in DueOf(rows, reasks, now, true))
            && (forall i | i in rest :: i in DueOf(rows, reasks, now, false))
            && (|few| < REORG_ASKS_PER_PASS && |few| < maxAsks ==> few == DueOf(rows, reasks, now, true))
            && (|few + rest| < maxAsks ==> rest == DueOf(rows, reasks, now, false))
  {
  }

  lemma DueIsDistinct(rows: seq<Row>, reasks: seq<Option<Ask>>, now: nat, maxAsks: nat)
    requires |reasks| == |rows|
    ensures var due := Due(rows, reasks, now, maxAsks);
            && (forall j, k | 0 <= j < k < |due| :: due[j] != due[k])
            && (forall i | i in due :: i < |rows| && IsDue(rows[i], reasks[i], now))
  {
    DueParts(rows, reasks, now, maxAsks);
    DueOfAscends(rows, reasks, now, true);
    DueOfAscends(rows, reasks, now, false);
    PartsDistinct(FirstPart(rows, reasks, now, maxAsks), SecondPart(rows, reasks, now, maxAsks));
  }

  lemma PartsDistinct(few: seq<nat>, rest: seq<nat>)
    requires Ascends(few) && Ascends(rest) && forall i | i in few :: i !in rest
    ensures forall j, k | 0 <= j < k < |few + rest| :: (few + rest)[j] != (few + rest)[k]
  {
    var due := few + rest;
    forall j, k | 0 <= j < k < |due| ensures due[j] != due[k] {
      if j < |few| <= k {
        assert due[j] == few[j] && due[j] in few && due[k] == rest[k - |few|] && due[k] in rest;
      }
    }
  }

  /**
   Each pass asks at most `maxAsks` transactions, none twice, each of them due; those whose root
   moved come first and are at most four; and a pass with room left has asked every due one but
   the moved roots past the fourth.
   */
  lemma DuePass(rows: seq<Row>, reasks: seq<Option<Ask>>, now: nat, maxAsks: nat)
    requires |reasks| == |rows|
    ensures var due := Due(rows, reasks, now, maxAsks);
            && |due| <= maxAsks
            && (forall j, k | 0 <= j < k < |due| :: due[j] != due[k])
            && (forall i | i in due :: i < |rows| && IsDue(rows[i], reasks[i], now))
            && (forall j, k | 0 <= j < k < |due| && Moved(reasks, due[k]) :: Moved(reasks, due[j]))
            && MovedAmong(due, reasks) <= 4
            && (|due| < maxAsks ==>
                  (forall i | 0 <= i < |rows| && IsDue(rows[i], reasks[i], now) && i !in due ::
                     Moved(reasks, i) && MovedAmong(due, reasks) == 4))
  {
    DueIsDistinct(rows, reasks, now, maxAsks);
    DueParts(rows, reasks, now, maxAsks);
    var few, rest := FirstPart(rows, reasks, now, maxAsks), SecondPart(rows, reasks, now, maxAsks);
    MovedAmongSplit(few, rest, reasks);
    if |few + rest| < maxAsks {
      forall i | 0 <= i < |rows| && IsDue(rows[i], reasks[i], now) && i !in few + rest
        ensures Moved(reasks, i) && |few| == REORG_ASKS_PER_PASS
      {
        assert i !in few && i !in rest;
      }
    }
  }

  // ---------------------------------------------------------------------------
  // Asking, and the pause after an ask with no proof
  // ---------------------------------------------------------------------------

  function SatAdd(a: nat, b: nat): nat { Min(a + b, U64_MAX) }

  function SatMul(a: nat, b: nat): nat { Min(a * b, U64_MAX) }

  function Pause(age: nat, asks: nat): nat {
    SatMul(age, Pow2(Min(asks, MAX_BACKOFF_DOUBLINGS)))
  }

  function AskedRow(row: Row, now: nat, pause: nat -> nat, proven: bool): Row {
    if proven then Row(0, None)
    else Row(row.asks + 1, Some(SatAdd(now, pause(row.asks))))
  }

  /** The pause after an ask, by how many came before it. */
  function Pauses(age: nat): nat -> nat {
    asks => Pause(age, asks)
  }

  /**
   One pass's inputs: the re-asks the steps before the asking left, the schedule they gave a row where they
   gave one (a hint or a proof starts it again, a re-announce counts or pauses it), what each ask brings.
   */
  datatype Pass = Pass(now: nat, reasks: seq<Option<Ask>>, moves: seq<Option<Row>>, proven: seq<bool>)

  ghost predicate Fits(p: Pass, n: nat) {
    |p.reasks| == |p.moves| == |p.proven| == n
  }

  function AfterMoves(rows: seq<Row>, moves: seq<Option<Row>>): (r: seq<Row>)
    requires |moves| == |rows|
    ensures |r| == |rows|
  {
    seq(|rows|, i requires 0 <= i < |rows| => if moves[i].Some? then moves[i].value else rows[i])
  }

  function AskedIn(rows: seq<Row>, p: Pass, maxAsks: nat): seq<nat>
    requires Fits(p, |rows|)
  {
    Due(AfterMoves(rows, p.moves), p.reasks, p.now, maxAsks)
  }

  function AfterPass(rows: seq<Row>, p: Pass, pause: nat -> nat, maxAsks: nat): (r: seq<Row>)
    requires Fits(p, |rows|)
    ensures |r| == |rows|
  {
    var moved := AfterMoves(rows, p.moves);
    var due := AskedIn(rows, p, maxAsks);
    seq(|rows|, i requires 0 <= i < |rows| =>
      if i in due then AskedRow(moved[i], p.now, pause, p.proven[i]) else moved[i])
  }

  /** The asking half of a pass, over the rows in place. */
  method RunPass(rows: array<Row>, p: Pass, pause: nat -> nat, maxAsks: nat) returns (due: seq<nat>)
    requires Fits(p, rows.Length)
    modifies rows
    ensures due == AskedIn(old(rows[..]), p, maxAsks)
    ensures rows[..] == AfterPass(old(rows[..]), p, pause, maxAsks)
  {
    MoveRows(rows, p.moves);
    ghost var moved := rows[..];
    due := Due(rows[..], p.reasks, p.now, maxAsks);
    DueIsDistinct(moved, p.reasks, p.now, maxAsks);
    assert forall k | 0 <= k < |due| :: due[k] in due;
    AskRows(rows, due, p, pause);
  }

  /** A proof ends the row's asks; anything else pauses it. */
  method AskRows(rows: array<Row>, due: seq<nat>, p: Pass, pause: nat -> nat)
    requires Fits(p, rows.Length)
    requires forall k | 0 <= k < |due| :: due[k] < rows.Length
    requires forall j, k | 0 <= j < k < |due| :: due[j] != due[k]
    modifies rows
    ensures forall i | 0 <= i < rows.Length ::
              rows[i] == if i in due then AskedRow(old(rows[i]), p.now, pause, p.proven[i])
                         else old(rows[i])
  {
    for k := 0 to |due|
      invariant forall i | 0 <= i < rows.Length ::
        rows[i] == if i in due[..k] then AskedRow(old(rows[i]), p.now, pause, p.proven[i])
                   else old(rows[i])
    {
      var i := due[k];
      assert i !in due[..k];
      assert due[..k + 1] == due[..k] + [i];
      rows[i] := AskedRow(rows[i], p.now, pause, p.proven[i]);
    }
    assert due[..|due|] == due;
  }

  method MoveRows(rows: array<Row>, moves: seq<Option<Row>>)
    requires |moves| == rows.Length
    modifies rows
    ensures rows[..] == AfterMoves(old(rows[..]), moves)
  {
    for i := 0 to rows.Length
      invariant forall k | 0 <= k < rows.Length ::
        rows[k] == if k < i && moves[k].Some? then moves[k].value else old(rows[k])
    {
      if moves[i].Some? {
        rows[i] := moves[i].value;
      }
    }
  }

  // ---------------------------------------------------------------------------
  // One transaction over a run of passes
  // ---------------------------------------------------------------------------

  ghost predicate Run(n: nat, passes: seq<Pass>) {
    && (forall p | p in passes :: Fits(p, n))
    && (forall j, k | 0 <= j < k < |passes| :: passes[j].now <= passes[k].now)
  }

  /** No hint, announce or proof names the row: nothing but its asks moves its schedule. */
  ghost predicate Quiet(n: nat, passes: seq<Pass>, i: nat) {
    i < n && forall p | p in passes && Fits(p, n) :: p.moves[i].None? && !p.proven[i]
  }

  /** One pass as a row sees it. */
  datatype Look = Look(now: nat, asked: bool)

  ghost function Looks(rows: seq<Row>, passes: seq<Pass>, pause: nat -> nat, maxAsks: nat, i: nat): seq<Look>
    requires Run(|rows|, passes)
    decreases |passes|
  {
    if passes == [] then []
    else
      var p := passes[0];
      assert p in passes;
      assert Run(|rows|, passes[1..]) by { assert forall q | q in passes[1..] :: q in passes; }
      [Look(p.now, i in AskedIn(rows, p, maxAsks))]
      + Looks(AfterPass(rows, p, pause, maxAsks), passes[1..], pause, maxAsks, i)
  }

  ghost function TimesAsked(looks: seq<Look>): seq<nat> {
    if looks == [] then []
    else (if looks[0].asked then [looks[0].now] else []) + TimesAsked(looks[1..])
  }

  /** When the run asked for the row's proof. */
  ghost function AskTimes(rows: seq<Row>, passes: seq<Pass>, pause: nat -> nat, maxAsks: nat, i: nat): seq<nat>
    requires Run(|rows|, passes)
  {
    TimesAsked(Looks(rows, passes, pause, maxAsks, i))
  }

  function AfterLook(row: Row, look: Look, pause: nat -> nat): Row {
    if look.asked then AskedRow(row, look.now, pause, false) else row
  }

  /** Asked only when due, and moved by nothing else. */
  ghost predicate Scheduled(row: Row, looks: seq<Look>, pause: nat -> nat)
    decreases |looks|
  {
    looks != [] ==>
      && (looks[0].asked ==> IsDue(row, Some(Other), looks[0].now))
      && Scheduled(AfterLook(row, looks[0], pause), looks[1..], pause)
  }

  /** A pass moves a quiet row by its ask alone, and asks it only when due. */
  lemma OnePass(rows: seq<Row>, p: Pass, pause: nat -> nat, maxAsks: nat, i: nat)
    requires Fits(p, |rows|) && i < |rows| && p.moves[i].None? && !p.proven[i]
    ensures var asked := i in AskedIn(rows, p, maxAsks);
            && AfterPass(rows, p, pause, maxAsks)[i] == AfterLook(rows[i], Look(p.now, asked), pause)
            && (asked ==> IsDue(rows[i], Some(Other), p.now))
  {
    DueIsDistinct(AfterMoves(rows, p.moves), p.reasks, p.now, maxAsks);
  }

  lemma {:induction false} LooksAreScheduled(
      rows: seq<Row>, passes: seq<Pass>, pause: nat -> nat, maxAsks: nat, i: nat)
    requires Run(|rows|, passes) && Quiet(|rows|, passes, i)
    ensures Scheduled(rows[i], Looks(rows, passes, pause, maxAsks, i), pause)
    decreases |passes|
  {
    if passes != [] {
      var p, more := passes[0], passes[1..];
      assert p in passes;
      assert forall q | q in more :: q in passes;
      OnePass(rows, p, pause, maxAsks, i);
      var after := AfterPass(rows, p, pause, maxAsks);
      LooksAreScheduled(after, more, pause, maxAsks, i);
      var looks := Looks(rows, passes, pause, maxAsks, i);
      assert looks[1..] == Looks(after, more, pause, maxAsks, i);
    }
  }

  lemma LooksNext(rows: seq<Row>, passes: seq<Pass>, pause: nat -> nat, maxAsks: nat, i: nat)
      returns (after: seq<Row>, first: Look)
    requires Run(|rows|, passes) && passes != []
    ensures |after| == |rows| && Run(|after|, passes[1..]) && first.now == passes[0].now
    ensures Looks(rows, passes, pause, maxAsks, i) == [first] + Looks(after, passes[1..], pause, maxAsks, i)
  {
    var p := passes[0];
    assert p in passes;
    assert forall q | q in passes[1..] :: q in passes;
    after := AfterPass(rows, p, pause, maxAsks);
    first := Look(p.now, i in AskedIn(rows, p, maxAsks));
  }

  lemma {:induction false} LooksNow(
      rows: seq<Row>, passes: seq<Pass>, pause: nat -> nat, maxAsks: nat, i: nat)
    requires Run(|rows|, passes)
    ensures var looks := Looks(rows, passes, pause, maxAsks, i);
            |looks| == |passes| && forall k | 0 <= k < |looks| :: looks[k].now == passes[k].now
    decreases |passes|
  {
    if passes != [] {
      var after, first := LooksNext(rows, passes, pause, maxAsks, i);
      LooksNow(after, passes[1..], pause, maxAsks, i);
      NowPrefixed(first, Looks(after, passes[1..], pause, maxAsks, i), passes);
    }
  }

  lemma NowPrefixed(first: Look, later: seq<Look>, passes: seq<Pass>)
    requires passes != [] && first.now == passes[0].now && |later| == |passes[1..]|
    requires forall k | 0 <= k < |later| :: later[k].now == passes[1..][k].now
    ensures forall k | 0 <= k < |passes| :: ([first] + later)[k].now == passes[k].now
  {
    forall k | 0 <= k < |passes| ensures ([first] + later)[k].now == passes[k].now {
      if k > 0 {
        assert later[k - 1].now == passes[1..][k - 1].now;
      }
    }
  }

  lemma {:induction false} AskedWithin(looks: seq<Look>, limit: nat)
    requires forall k | 0 <= k < |looks| :: looks[k].now < limit
    ensures forall t | t in TimesAsked(looks) :: t < limit
  {
    if looks != [] {
      AskedWithin(looks[1..], limit);
    }
  }

  /** The k-th time is followed by no other before its pause is over. */
  ghost predicate Spaced(ts: seq<nat>, pause: nat -> nat, base: nat, k: nat) {
    k + 1 < |ts| ==> SatAdd(ts[k], pause(base + k)) <= ts[k + 1]
  }

  /** The k-th ask is followed by at least its pause, and no row is asked past its count. */
  lemma {:induction false} AsksArePaused(row: Row, looks: seq<Look>, pause: nat -> nat)
    requires Scheduled(row, looks, pause) && row.asks <= MAX_ASKS_PER_TX
    ensures var ts := TimesAsked(looks);
            && row.asks + |ts| <= MAX_ASKS_PER_TX
            && (ts != [] && row.nextAskAt.Some? ==> row.nextAskAt.value <= ts[0])
            && (forall k: nat :: Spaced(ts, pause, row.asks, k))
    decreases |looks|
  {
    if looks != [] {
      var after := AfterLook(row, looks[0], pause);
      AsksArePaused(after, looks[1..], pause);
      var ts, later := TimesAsked(looks), TimesAsked(looks[1..]);
      if !looks[0].asked {
        assert ts == later;
      } else {
        assert ts == [looks[0].now] + later;
        forall k: nat ensures Spaced(ts, pause, row.asks, k) {
          if k > 0 {
            assert Spaced(later, pause, after.asks, k - 1);
          }
        }
      }
    }
  }

  /** The first `k` pauses, in units of the age. */
  function Doublings(k: nat): nat {
    if k == 0 then 0 else Doublings(k - 1) + Pow2(Min(k - 1, MAX_BACKOFF_DOUBLINGS))
  }

  /** The first `k` pauses together. */
  function Waits(age: nat, k: nat): nat {
    if k == 0 then 0 else Waits(age, k - 1) + age * Pow2(Min(k - 1, MAX_BACKOFF_DOUBLINGS))
  }

  lemma {:induction false} AsksSpread(ts: seq<nat>, age: nat, k: nat)
    requires k < |ts|
    requires forall j | 0 <= j < |ts| - 1 ::
               ts[j] + age * Pow2(Min(j, MAX_BACKOFF_DOUBLINGS)) <= ts[j + 1]
    ensures ts[0] + Waits(age, k) <= ts[k]
  {
    if k > 0 {
      AsksSpread(ts, age, k - 1);
      assert ts[k - 1] + age * Pow2(Min(k - 1, MAX_BACKOFF_DOUBLINGS)) <= ts[k - 1 + 1];
    }
  }

  lemma {:induction false} WaitsInAges(age: nat, k: nat)
    ensures Waits(age, k) == age * Doublings(k)
  {
    if k > 0 {
      WaitsInAges(age, k - 1);
      Distributes(age, Doublings(k - 1), Pow2(Min(k - 1, MAX_BACKOFF_DOUBLINGS)));
    }
  }

  lemma Distributes(x: nat, a: nat, b: nat)
    ensures x * (a + b) == x * a + x * b
  {
  }

  lemma FifteenPauses()
    ensures Doublings(15) == 639
  {
    assert Pow2(1) == 2 && Pow2(2) == 4 && Pow2(3) == 8 && Pow2(4) == 16 && Pow2(5) == 32 && Pow2(6) == 64;
    assert Doublings(1) == 1 && Doublings(2) == 3 && Doublings(3) == 7 && Doublings(4) == 15;
    assert Doublings(5) == 31 && Doublings(6) == 63 && Doublings(7) == 127 && Doublings(8) == 191;
    assert Doublings(9) == 255 && Doublings(10) == 319 && Doublings(11) == 383 && Doublings(12) == 447;
    assert Doublings(13) == 511 && Doublings(14) == 575;
  }

  /** Spaced asks before the clock's last second are the whole doubling apart. */
  lemma SpacedWhole(ts: seq<nat>, age: nat, k: nat)
    requires 0 <= k < |ts| - 1 && Spaced(ts, Pauses(age), 0, k) && ts[k + 1] < U64_MAX
    ensures ts[k] + age * Pow2(Min(k, MAX_BACKOFF_DOUBLINGS)) <= ts[k + 1]
  {
  }

  /**
   A transaction that never proves is asked sixteen times at most; each ask waits out the pause
   of the one before it, and the last comes at least 639 ages after the first.
   */
  lemma AskSchedule(rows: seq<Row>, passes: seq<Pass>, age: nat, maxAsks: nat, i: nat)
    requires Run(|rows|, passes) && Quiet(|rows|, passes, i)
    requires rows[i].asks == 0 && forall p | p in passes :: p.now < U64_MAX
    ensures var ts := AskTimes(rows, passes, Pauses(age), maxAsks, i);
            && |ts| <= 16
            && (forall k | 0 <= k < |ts| - 1 ::
                  ts[k] + age * Pow2(Min(k, MAX_BACKOFF_DOUBLINGS)) <= ts[k + 1])
            && (|ts| == MAX_ASKS_PER_TX ==> ts[0] + age * 639 <= ts[15])
  {
    LooksAreScheduled(rows, passes, Pauses(age), maxAsks, i);
    LooksNow(rows, passes, Pauses(age), maxAsks, i);
    AskedWithin(Looks(rows, passes, Pauses(age), maxAsks, i), U64_MAX);
    AsksArePaused(rows[i], Looks(rows, passes, Pauses(age), maxAsks, i), Pauses(age));
    var ts := AskTimes(rows, passes, Pauses(age), maxAsks, i);
    forall k | 0 <= k < |ts| - 1
      ensures ts[k] + age * Pow2(Min(k, MAX_BACKOFF_DOUBLINGS)) <= ts[k + 1]
    {
      assert ts[k + 1] in ts;
      SpacedWhole(ts, age, k);
    }
    if |ts| == MAX_ASKS_PER_TX {
      SixteenSpread(ts, age);
    }
  }

  lemma SixteenSpread(ts: seq<nat>, age: nat)
    requires |ts| == 16
    requires forall k | 0 <= k < |ts| - 1 :: ts[k] + age * Pow2(Min(k, MAX_BACKOFF_DOUBLINGS)) <= ts[k + 1]
    ensures ts[0] + age * 639 <= ts[15]
  {
    AsksSpread(ts, age, 15);
    WaitsInAges(age, 15);
    FifteenPauses();
  }

  // ---------------------------------------------------------------------------
  // When a row is asked, where a pass has room for every row
  // ---------------------------------------------------------------------------

  lemma {:induction false} AscendsIsShort(due: seq<nat>, n: nat)
    requires Ascends(due) && forall i | i in due :: i < n
    ensures |due| <= n
    decreases |due|
  {
    if due != [] {
      var front, last := due[..|due| - 1], due[|due| - 1];
      assert last in due;
      forall i | i in front ensures i < last {
        var k :| 0 <= k < |front| && front[k] == i;
      }
      AscendsIsShort(front, last);
    }
  }

  /** The pass has room: every row that is due is asked, but for moved roots past the fourth. */
  lemma RoomAsksAll(rows: seq<Row>, reasks: seq<Option<Ask>>, now: nat, maxAsks: nat, i: nat)
    requires |reasks| == |rows| && |rows| + REORG_ASKS_PER_PASS < maxAsks
    requires i < |rows| && reasks[i] == Some(Other)
    ensures i in Due(rows, reasks, now, maxAsks) <==> IsDue(rows[i], Some(Other), now)
  {
    DueParts(rows, reasks, now, maxAsks);
    DueOfAscends(rows, reasks, now, false);
    AscendsIsShort(DueOf(rows, reasks, now, false), |rows|);
    DueIsDistinct(rows, reasks, now, maxAsks);
  }

  /** The row once it was looked at so. */
  function RowAfter(row: Row, looks: seq<Look>, pause: nat -> nat): Row {
    if looks == [] then row
    else AfterLook(RowAfter(row, looks[..|looks| - 1], pause), looks[|looks| - 1], pause)
  }

  lemma {:induction false} RowAfterFirst(row: Row, first: Look, later: seq<Look>, pause: nat -> nat)
    ensures RowAfter(row, [first] + later, pause) == RowAfter(AfterLook(row, first, pause), later, pause)
  {
    var looks := [first] + later;
    if later == [] {
      assert looks[..0] == [] && looks == [first];
    } else {
      assert looks[..|looks| - 1] == [first] + later[..|later| - 1];
      RowAfterFirst(row, first, later[..|later| - 1], pause);
    }
  }

  /** Asked exactly when due, by what the looks before left of the row. */
  ghost predicate PromptAt(row: Row, looks: seq<Look>, pause: nat -> nat, j: nat) {
    j < |looks| ==>
      (looks[j].asked <==> IsDue(RowAfter(row, looks[..j], pause), Some(Other), looks[j].now))
  }

  /** The row has its re-ask in every pass. */
  ghost predicate Asking(n: nat, passes: seq<Pass>, i: nat) {
    i < n && forall p | p in passes && Fits(p, n) :: p.reasks[i] == Some(Other)
  }

  lemma {:induction false} LooksArePrompt(
      rows: seq<Row>, passes: seq<Pass>, pause: nat -> nat, maxAsks: nat, i: nat, j: nat)
    requires Run(|rows|, passes) && Quiet(|rows|, passes, i) && Asking(|rows|, passes, i)
    requires |rows| + REORG_ASKS_PER_PASS < maxAsks
    ensures PromptAt(rows[i], Looks(rows, passes, pause, maxAsks, i), pause, j)
    decreases |passes|
  {
    if passes != [] {
      var p, more := passes[0], passes[1..];
      assert p in passes;
      assert forall q | q in more :: q in passes;
      OnePass(rows, p, pause, maxAsks, i);
      RoomAsksAll(AfterMoves(rows, p.moves), p.reasks, p.now, maxAsks, i);
      var after := AfterPass(rows, p, pause, maxAsks);
      var first, later := Look(p.now, i in AskedIn(rows, p, maxAsks)), Looks(after, more, pause, maxAsks, i);
      assert Looks(rows, passes, pause, maxAsks, i) == [first] + later;
      if j == 0 {
        assert ([first] + later)[..0] == [];
      } else {
        LooksArePrompt(after, more, pause, maxAsks, i, j - 1);
        PromptLater(rows[i], first, later, pause, j);
      }
    }
  }

  lemma PromptLater(row: Row, first: Look, later: seq<Look>, pause: nat -> nat, j: nat)
    requires j > 0 && PromptAt(AfterLook(row, first, pause), later, pause, j - 1)
    ensures PromptAt(row, [first] + later, pause, j)
  {
    if j <= |later| {
      assert ([first] + later)[..j] == [first] + later[..j - 1];
      RowAfterFirst(row, first, later[..j - 1], pause);
    }
  }

  lemma {:induction false} TimesAppend(looks: seq<Look>, last: Look)
    ensures TimesAsked(looks + [last]) == TimesAsked(looks) + if last.asked then [last.now] else []
  {
    if looks == [] {
      assert [last][1..] == [];
    } else {
      TimesAppend(looks[1..], last);
      TimesPrefixed(looks[0], looks[1..]);
      TimesPrefixed(looks[0], looks[1..] + [last]);
      assert looks == [looks[0]] + looks[1..] && looks + [last] == [looks[0]] + (looks[1..] + [last]);
    }
  }

  lemma TimesPrefixed(first: Look, later: seq<Look>)
    ensures TimesAsked([first] + later) == (if first.asked then [first.now] else []) + TimesAsked(later)
  {
    assert ([first] + later)[1..] == later;
  }

  /** The row is what its asks make of it: their count, and the last one's time with its pause. */
  lemma {:induction false} RowAfterIs(row: Row, looks: seq<Look>, pause: nat -> nat)
    ensures var ts, after := TimesAsked(looks), RowAfter(row, looks, pause);
            && after.asks == row.asks + |ts|
            && after.nextAskAt == (if ts == [] then row.nextAskAt
                                   else Some(SatAdd(ts[|ts| - 1], pause(row.asks + |ts| - 1))))
  {
    if looks != [] {
      var front, last := looks[..|looks| - 1], looks[|looks| - 1];
      RowAfterIs(row, front, pause);
      TimesAppend(front, last);
      assert looks == front + [last];
    }
  }

  /** The look at the `j`-th pass, the asks before it, and the row they left. */
  lemma LookedRow(rows: seq<Row>, passes: seq<Pass>, pause: nat -> nat, maxAsks: nat, i: nat, j: nat)
      returns (looks: seq<Look>, ts: seq<nat>, row: Row)
    requires Run(|rows|, passes) && Quiet(|rows|, passes, i) && Asking(|rows|, passes, i)
    requires |rows| + REORG_ASKS_PER_PASS < maxAsks && j < |passes|
    ensures looks == Looks(rows, passes, pause, maxAsks, i) && |looks| == |passes| && ts == TimesAsked(looks[..j])
    ensures row.asks == rows[i].asks + |ts|
    ensures row.nextAskAt == if ts == [] then rows[i].nextAskAt
                             else Some(SatAdd(ts[|ts| - 1], pause(rows[i].asks + |ts| - 1)))
    ensures looks[j].asked <==> IsDue(row, Some(Other), passes[j].now)
  {
    looks := Looks(rows, passes, pause, maxAsks, i);
    LooksNow(rows, passes, pause, maxAsks, i);
    LooksArePrompt(rows, passes, pause, maxAsks, i, j);
    RowAfterIs(rows[i], looks[..j], pause);
    ts, row := TimesAsked(looks[..j]), RowAfter(rows[i], looks[..j], pause);
  }

  /**
   Both ways: in a run with room for every row, a row new to it that keeps its re-ask and never
   proves is asked in a pass exactly when fewer than sixteen asks came before and the last of them
   is its pause ago: the age, doubled for each ask before that one, six times at most.
   */
  lemma AskedExactlyWhenOver(
      rows: seq<Row>, passes: seq<Pass>, age: nat, maxAsks: nat, i: nat, j: nat)
    requires Run(|rows|, passes) && Quiet(|rows|, passes, i) && Asking(|rows|, passes, i)
    requires |rows| + 4 < maxAsks && rows[i] == Row(0, None) && j < |passes|
    ensures var looks := Looks(rows, passes, Pauses(age), maxAsks, i);
            && |looks| == |passes|
            && (looks[j].asked <==> IsOver(age, TimesAsked(looks[..j]), passes[j].now))
  {
    var looks, ts, row := LookedRow(rows, passes, Pauses(age), maxAsks, i, j);
    DueWhenOver(age, ts, row, passes[j].now);
  }

  /** Fewer than sixteen asks, and the last one its pause ago. */
  ghost predicate IsOver(age: nat, ts: seq<nat>, now: nat) {
    && |ts| < 16
    && (ts != [] ==> Min(ts[|ts| - 1] + Min(age * Pow2(Min(|ts| - 1, 6)), U64_MAX), U64_MAX) <= now)
  }

  lemma DueWhenOver(age: nat, ts: seq<nat>, row: Row, now: nat)
    requires row.asks == |ts|
    requires row.nextAskAt == if ts == [] then None else Some(SatAdd(ts[|ts| - 1], Pauses(age)(|ts| - 1)))
    ensures IsDue(row, Some(Other), now) <==> IsOver(age, ts, now)
  {
    if ts != [] {
      var k := |ts| - 1;
      assert Pauses(age)(k) == Min(age * Pow2(Min(k, 6)), U64_MAX);
    }
  }

  /** A proof ends the pauses: the row starts again, and is asked as soon as it has a re-ask. */
  lemma ProofStartsAgain(rows: seq<Row>, p: Pass, q: Pass, pause: nat -> nat, maxAsks: nat, i: nat)
    requires Fits(p, |rows|) && Fits(q, |rows|) && i in AskedIn(rows, p, maxAsks) && i < |rows| && p.proven[i]
    requires q.moves[i].None? && q.reasks[i] == Some(Other) && |rows| + 4 < maxAsks
    ensures AfterPass(rows, p, pause, maxAsks)[i] == Row(0, None)
    ensures i in AskedIn(AfterPass(rows, p, pause, maxAsks), q, maxAsks)
  {
    var after := AfterPass(rows, p, pause, maxAsks);
    RoomAsksAll(AfterMoves(after, q.moves), q.reasks, q.now, maxAsks, i);
  }

  /** What the earlier steps give a row is what its asks go on from. */
  lemma MovedRowIsAsked(rows: seq<Row>, p: Pass, pause: nat -> nat, maxAsks: nat, i: nat)
    requires Fits(p, |rows|) && i < |rows| && p.reasks[i] == Some(Other) && |rows| + 4 < maxAsks
    ensures var row := if p.moves[i].Some? then p.moves[i].value else rows[i];
            var after := AfterPass(rows, p, pause, maxAsks)[i];
            if row.asks < 16 && (row.nextAskAt.None? || row.nextAskAt.value <= p.now)
            then after == if p.proven[i] then Row(0, None)
                          else Row(row.asks + 1, Some(Min(p.now + pause(row.asks), U64_MAX)))
            else after == row
  {
    RoomAsksAll(AfterMoves(rows, p.moves), p.reasks, p.now, maxAsks, i);
  }
}
