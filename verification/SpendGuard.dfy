/**
 The spend guard: coins of a transaction whose post was refused at once are held until a status
 source has it, and given back only by the guard that took them.
 */
module SpendGuard {
  import opened Prelude
  import opened ChainEvents
  import opened Respend

  // ---------------------------------------------------------------------------
  // What a transaction's words say
  // ---------------------------------------------------------------------------

  /** Retired: its holds are dropped and nothing is restored. */
  predicate Retired(s: State, t: Txid) {
    t in s.txs && (s.txs[t].word.Failed? || s.txs[t].req in {Some(Invalid), Some(DoubleSpend)})
  }

  /** A status source has it now: its coins go back. */
  predicate Vouched(s: State, t: Txid) {
    && t in s.txs && !Retired(s, t)
    && (s.txs[t].word.Completed? || s.txs[t].req in {Some(Unmined), Some(ReqCompleted)})
  }

  /** Its immediate post drew no accepting word, and no status source has had it since. */
  predicate Refused(s: State, t: Txid) {
    && t in s.txs && (s.txs[t].word.Unproven? || s.txs[t].word.Sending?)
    && s.txs[t].req in {Some(Unsent), Some(ReqSending), Some(Unprocessed)}
    && s.txs[t].hinted
  }

  predicate Selectable(outputs: map<Outpoint, Output>, o: Outpoint) {
    o in outputs && outputs[o] == Output(true, None)
  }

  predicate Frees(s: State, o: Outpoint) {
    o in s.holds && Vouched(s, o.txid) && o in s.outputs && s.outputs[o] == Output(false, None)
  }

  predicate Holds(s: State, o: Outpoint) {
    Selectable(s.outputs, o) && Refused(s, o.txid)
  }

  // ---------------------------------------------------------------------------
  // One run
  // ---------------------------------------------------------------------------

  datatype Report = Report(held: set<Txid>, released: set<Txid>, dropped: set<Txid>)

  const QUIET := Report({}, {}, {})

  function HeldTxids(s: State): set<Txid> {
    set o | o in s.holds :: o.txid
  }

  function Release(s: State): State {
    s.(outputs := map o | o in s.outputs :: if Frees(s, o) then Output(true, None) else s.outputs[o],
       holds := set o | o in s.holds && !Retired(s, o.txid) && !Vouched(s, o.txid))
  }

  function Hold(s: State): State {
    s.(outputs := map o | o in s.outputs :: if Holds(s, o) then Output(false, None) else s.outputs[o],
       holds := s.holds + set o | o in s.outputs && Holds(s, o))
  }

  function GuardRun(s: State, rows: seq<Txid>): State {
    Hold(Release(s.(outputs := ReserveAll(s, rows))))
  }

  function ReportOf(s: State, rows: seq<Txid>): Report {
    var reserved := s.(outputs := ReserveAll(s, rows));
    var released := Release(reserved);
    Report(set o | o in released.outputs && Holds(released, o) :: o.txid,
           set t | t in HeldTxids(reserved) && Vouched(reserved, t),
           set t | t in HeldTxids(reserved) && Retired(reserved, t))
  }

  /** The same coins as `s`, with those of the transactions in `done` already released. */
  ghost predicate ReleasedOf(s: State, done: set<Txid>, now: State) {
    && now.txs == s.txs && now.links == s.links && now.outputs.Keys == s.outputs.Keys
    && (forall o :: o in now.holds <==> o in s.holds && !(o.txid in done && (Retired(s, o.txid) || Vouched(s, o.txid))))
    && (forall o | o in s.outputs ::
          now.outputs[o] == if Frees(s, o) && o.txid in done then Output(true, None) else s.outputs[o])
  }

  /** The same coins as `s`, with the rows in `done` already held. */
  ghost predicate HeldOf(s: State, done: set<Outpoint>, now: State) {
    && now.txs == s.txs && now.links == s.links && now.outputs.Keys == s.outputs.Keys
    && now.holds == s.holds + done
    && (forall o | o in s.outputs :: now.outputs[o] == if o in done then Output(false, None) else s.outputs[o])
  }

  /** `run`: the reservations first, then the releases, then the holds, each row on its own. */
  method Run(w: Wallet, rows: seq<Txid>) returns (report: Report)
    requires Unsettled(w.Now(), rows)
    modifies w
    ensures w.Now() == GuardRun(old(w.Now()), rows)
    ensures report == ReportOf(old(w.Now()), rows)
  {
    ghost var before := w.Now();
    w.ReserveInputs(rows);
    ghost var reserved := w.Now();
    var released, dropped := ReleaseHeld(w);
    ghost var freed := w.Now();
    var held := HoldRefused(w);
    assert reserved == before.(outputs := ReserveAll(before, rows));
    report := Report(held, released, dropped);
  }

  lemma AllReleased(s: State, now: State)
    requires ReleasedOf(s, HeldTxids(s), now)
    ensures now == Release(s)
  {
    forall o | o in s.holds ensures o.txid in HeldTxids(s) {
    }
    assert now.holds == Release(s).holds;
    assert now.outputs == Release(s).outputs;
  }

  lemma ReleaseStep(s: State, done: set<Txid>, now: State, t: Txid, next: State)
    requires ReleasedOf(s, done, now) && t !in done
    requires next.txs == now.txs && next.links == now.links && next.outputs.Keys == now.outputs.Keys
    requires forall o :: o in next.holds <==> o in now.holds && !(o.txid == t && (Retired(now, t) || Vouched(now, t)))
    requires forall o | o in now.outputs ::
               next.outputs[o] ==
                 if Vouched(now, t) && o in now.holds && o.txid == t && now.outputs[o] == Output(false, None)
                 then Output(true, None) else now.outputs[o]
    ensures ReleasedOf(s, done + {t}, next)
  {
  }

  method ReleaseHeld(w: Wallet) returns (released: set<Txid>, dropped: set<Txid>)
    modifies w
    ensures w.Now() == Release(old(w.Now()))
    ensures released == set t | t in HeldTxids(old(w.Now())) && Vouched(old(w.Now()), t)
    ensures dropped == set t | t in HeldTxids(old(w.Now())) && Retired(old(w.Now()), t)
  {
    ghost var s := w.Now();
    var left := HeldTxids(w.Now());
    released, dropped := {}, {};
    ghost var done: set<Txid> := {};
    while left != {}
      invariant done + left == HeldTxids(s) && done !! left
      invariant ReleasedOf(s, done, w.Now())
      invariant released == set t | t in done && Vouched(s, t)
      invariant dropped == set t | t in done && Retired(s, t)
      decreases left
    {
      var t :| t in left;
      var now := w.Now();
      if Retired(now, t) {
        w.holds := set o | o in w.holds && o.txid != t;
        dropped := dropped + {t};
      } else if Vouched(now, t) {
        w.outputs := map o | o in w.outputs ::
          if o in w.holds && o.txid == t && w.outputs[o] == Output(false, None)
          then Output(true, None) else w.outputs[o];
        w.holds := set o | o in w.holds && o.txid != t;
        released := released + {t};
      }
      ReleaseStep(s, done, now, t, w.Now());
      left, done := left - {t}, done + {t};
    }
    AllReleased(s, w.Now());
  }

  method HoldRefused(w: Wallet) returns (held: set<Txid>)
    modifies w
    ensures w.Now() == Hold(old(w.Now()))
    ensures held == set o | o in old(w.outputs) && Holds(old(w.Now()), o) :: o.txid
  {
    ghost var s := w.Now();
    var left := set o | o in w.outputs && Holds(w.Now(), o);
    ghost var all, done := left, {};
    held := {};
    while left != {}
      invariant done + left == all && done !! left
      invariant HeldOf(s, done, w.Now())
      invariant held == set o | o in done :: o.txid
      decreases left
    {
      var o :| o in left;
      w.holds := w.holds + {o};
      w.outputs := w.outputs[o := Output(false, None)];
      held := held + {o.txid};
      left, done := left - {o}, done + {o};
    }
    assert done == all;
    assert w.outputs == Hold(s).outputs && w.holds == Hold(s).holds;
    assert held == set o | o in all :: o.txid;
  }

  // ---------------------------------------------------------------------------
  // What a run does to each coin, by the words of its transaction
  // ---------------------------------------------------------------------------

  datatype Standing = Dead | OnTheNetwork | RefusedAtOnce | Neither

  /** A transaction's standing by its word and its request's: each word counted once. */
  function StandingOf(tx: Tx): Standing {
    match tx.req
    case Some(Invalid) => Dead
    case Some(DoubleSpend) => Dead
    case Some(Unmined) => if tx.word == Failed then Dead else OnTheNetwork
    case Some(ReqCompleted) => if tx.word == Failed then Dead else OnTheNetwork
    case _ =>
      if tx.word == Failed then Dead
      else if tx.word == Completed then OnTheNetwork
      else if tx.hinted && tx.word in {Unproven, Sending}
              && tx.req in {Some(Unsent), Some(ReqSending), Some(Unprocessed)}
      then RefusedAtOnce
      else Neither
  }

  lemma StandingMeans(s: State, t: Txid)
    ensures Retired(s, t) <==> t in s.txs && StandingOf(s.txs[t]).Dead?
    ensures Vouched(s, t) <==> t in s.txs && StandingOf(s.txs[t]).OnTheNetwork?
    ensures Refused(s, t) <==> t in s.txs && StandingOf(s.txs[t]).RefusedAtOnce?
  {
  }

  /** No unsettled replacement spends the coin. */
  ghost predicate Unreserved(s: State, o: Outpoint) {
    forall p | p in s.links && !s.links[p].settled :: o !in InputsOf(s, s.links[p].replacement)
  }

  /**
   A coin no replacement has reserved, after a run: given back exactly when the guard held it, nobody
   spent it and its transaction is on the network now; taken exactly when it was selectable and its
   transaction was refused; otherwise as it was. And its hold stays until its transaction is one or the other.
   */
  lemma GuardByWords(s: State, rows: seq<Txid>, o: Outpoint)
    requires Inv(s) && Unsettled(s, rows) && o in s.outputs && o.txid in s.txs && Unreserved(s, o)
    ensures var before, after, standing := s.outputs[o], GuardRun(s, rows), StandingOf(s.txs[o.txid]);
            var takes := before == Output(true, None) && standing.RefusedAtOnce?;
            && o in after.outputs
            && after.outputs[o] == (if takes then Output(false, None)
                                    else if o in s.holds && before == Output(false, None) && standing.OnTheNetwork?
                                    then Output(true, None)
                                    else before)
            && (o in after.holds <==> takes || (o in s.holds && !standing.Dead? && !standing.OnTheNetwork?))
  {
    UnspentIsLeft(s, rows, o);
    StandingMeans(s, o.txid);
    StandingMeans(s.(outputs := ReserveAll(s, rows)), o.txid);
    StandingMeans(Release(s.(outputs := ReserveAll(s, rows))), o.txid);
  }

  /** So a held coin of a transaction a status source has, spent by nobody, can be selected after the run. */
  lemma VouchedIsReturned(s: State, rows: seq<Txid>, o: Outpoint)
    requires Inv(s) && Unsettled(s, rows) && Unreserved(s, o)
    requires o in s.holds && o in s.outputs && s.outputs[o] == Output(false, None)
    requires o.txid in s.txs && StandingOf(s.txs[o.txid]).OnTheNetwork?
    ensures Selectable(GuardRun(s, rows).outputs, o) && o !in GuardRun(s, rows).holds
    ensures o.txid in ReportOf(s, rows).released
  {
    GuardByWords(s, rows, o);
    StandingMeans(s.(outputs := ReserveAll(s, rows)), o.txid);
  }

  // ---------------------------------------------------------------------------
  // What a run may free, and what it leaves
  // ---------------------------------------------------------------------------

  /** A coin the guard makes selectable was in its own holds, spent by nobody, and is vouched for now. */
  lemma FreesOnlyItsOwn(s: State, rows: seq<Txid>, o: Outpoint)
    requires Inv(s) && Unsettled(s, rows)
    requires Selectable(GuardRun(s, rows).outputs, o) && !Selectable(s.outputs, o)
    ensures o in s.holds && o in s.outputs && s.outputs[o] == Output(false, None) && Vouched(s, o.txid)
    ensures o !in GuardRun(s, rows).holds
  {
    ReserveKeeps(s, rows);
    ReserveOwners(s, rows, o);
  }

  /** A coin enters the holds only as a selectable coin of a refused transaction, and is taken then. */
  lemma HoldsOnlyWhatItTakes(s: State, rows: seq<Txid>, o: Outpoint)
    requires o in GuardRun(s, rows).holds && o !in s.holds
    ensures Refused(s, o.txid) && Selectable(ReserveAll(s, rows), o)
    ensures GuardRun(s, rows).outputs[o] == Output(false, None)
  {
  }

  /** No selectable coin of a refused, still unsent transaction is left. */
  lemma NoRefusedCoinIsLeft(s: State, rows: seq<Txid>, o: Outpoint)
    requires Selectable(GuardRun(s, rows).outputs, o)
    ensures !Refused(GuardRun(s, rows), o.txid)
  {
  }

  /** A coin reserved for an unsettled replacement is never freed. */
  lemma NeverFreesReserved(s: State, rows: seq<Txid>, p: Txid, o: Outpoint)
    requires Inv(s) && Unsettled(s, rows) && p in s.links && !s.links[p].settled
    requires o in s.txs[p].inputs && o in s.outputs
    ensures Locked(GuardRun(s, rows).outputs, o)
  {
    ReservedInputs(s, rows, p, o);
  }

  lemma GuardKeepsOwners(s: State, rows: seq<Txid>)
    requires Inv(s) && Unsettled(s, rows)
    ensures GuardRun(s, rows).outputs.Keys == s.outputs.Keys
    ensures forall o | o in s.outputs :: GuardRun(s, rows).outputs[o].spentBy == ReserveAll(s, rows)[o].spentBy
    ensures Inv(GuardRun(s, rows))
  {
    var after := GuardRun(s, rows);
    ReserveKeeps(s, rows);
    LinksCarryOver(s, after);
  }

  // ---------------------------------------------------------------------------
  // A second run
  // ---------------------------------------------------------------------------

  /** Every input an unsettled replacement has is attributed already: reserving again does nothing. */
  lemma {:induction false} ReserveAgain(s: State, rows: seq<Txid>)
    requires !Unlocked(s.outputs)
    requires forall p, o | p in rows && p in s.links && o in InputsOf(s, s.links[p].replacement) && o in s.outputs ::
               s.outputs[o].spentBy.Some?
    ensures ReserveAll(s, rows) == s.outputs
  {
    if rows != [] {
      ReserveAgain(s, rows[..|rows| - 1]);
      assert ReserveAll(s, rows[..|rows| - 1]) == s.outputs;
      assert rows[|rows| - 1] in rows;
      assert forall x | x in rows[..|rows| - 1] :: x in rows;
    }
  }

  lemma NothingToReserve(s: State, rows: seq<Txid>)
    requires Inv(s) && Unsettled(s, rows)
    ensures ReserveAll(GuardRun(s, rows), rows) == GuardRun(s, rows).outputs
  {
    var after := GuardRun(s, rows);
    GuardKeepsOwners(s, rows);
    forall p, o | && p in rows && p in after.links
                  && o in InputsOf(after, after.links[p].replacement) && o in after.outputs
      ensures after.outputs[o].spentBy.Some?
    {
      assert LinkOk(s, p);
      ReservedInputs(s, rows, p, o);
    }
    ReserveAgain(after, rows);
  }

  /** A second run on an unchanged store changes nothing and says nothing. */
  lemma SecondRunIsQuiet(s: State, rows: seq<Txid>)
    requires Inv(s) && Unsettled(s, rows)
    ensures var after := GuardRun(s, rows);
            GuardRun(after, rows) == after && ReportOf(after, rows) == QUIET
  {
    var after := GuardRun(s, rows);
    NothingToReserve(s, rows);
    QuietState(after, rows);
  }

  lemma QuietState(s: State, rows: seq<Txid>)
    requires ReserveAll(s, rows) == s.outputs
    requires forall o | o in s.holds :: !Retired(s, o.txid) && !Vouched(s, o.txid)
    requires (forall o :: !Holds(s, o)) && (forall o :: !Frees(s, o))
    ensures GuardRun(s, rows) == s && ReportOf(s, rows) == QUIET
  {
    assert s.(outputs := ReserveAll(s, rows)) == s;
    assert Release(s).outputs == s.outputs && Release(s).holds == s.holds;
    assert Release(s) == s;
    assert Hold(s).outputs == s.outputs && Hold(s).holds == s.holds;
    assert Hold(s) == s;
  }

  /** A spend after the guard picks no coin of a refused transaction and no reserved input. */
  lemma SpendAfterGuard(s: State, rows: seq<Txid>, spender: Txid, coins: seq<Outpoint>, o: Outpoint)
    requires Inv(s) && Unsettled(s, rows)
    requires Fits(GuardRun(s, rows), SpendOp(spender, coins)) && o in coins
    ensures !Refused(s, o.txid)
    ensures forall p | p in s.links && !s.links[p].settled :: o !in s.txs[p].inputs
  {
    GuardKeepsOwners(s, rows);
    NoRefusedCoinIsLeft(s, rows, o);
    forall p | p in s.links && !s.links[p].settled ensures o !in s.txs[p].inputs {
      assert LinkOk(s, p);
      if o in s.txs[p].inputs {
        NeverFreesReserved(s, rows, p, o);
      }
    }
  }

  // ---------------------------------------------------------------------------
  // Over whole runs
  // ---------------------------------------------------------------------------

  /** A step of the tables: one of the respend's or the toolbox's, or a run of the guard. */
  datatype Event = Other(op: Op) | Guarded(rows: seq<Txid>)

  ghost predicate EventFits(s: State, e: Event) {
    match e
    case Other(op) => Fits(s, op)
    case Guarded(rows) => Unsettled(s, rows)
  }

  ghost function Next(s: State, e: Event): State {
    match e
    case Other(op) => Apply(s, op)
    case Guarded(rows) => GuardRun(s, rows)
  }

  ghost predicate EventsRun(s: State, events: seq<Event>)
    decreases |events|
  {
    events == [] || (EventFits(s, events[0]) && EventsRun(Next(s, events[0]), events[1..]))
  }

  ghost function End(s: State, events: seq<Event>): State
    decreases |events|
  {
    if events == [] then s else End(Next(s, events[0]), events[1..])
  }

  /** The toolbox itself makes the coin selectable. */
  predicate Restores(e: Event, o: Outpoint) {
    e.Other? && e.op.RollbackOp? && o in e.op.restored
  }

  /** A guard run of these events frees the coin, from its own holds, its transaction vouched for. */
  ghost predicate FreedIn(s: State, events: seq<Event>, o: Outpoint)
    decreases |events|
  {
    events != [] &&
    (|| (events[0].Guarded? && o in s.holds && Vouched(s, o.txid) && o !in Next(s, events[0]).holds)
     || FreedIn(Next(s, events[0]), events[1..], o))
  }

  /** A guard run of these events takes the coin, its transaction refused. */
  ghost predicate TakenIn(s: State, events: seq<Event>, o: Outpoint)
    decreases |events|
  {
    events != [] &&
    (|| (events[0].Guarded? && o !in s.holds && Refused(s, o.txid) && o in Next(s, events[0]).holds)
     || TakenIn(Next(s, events[0]), events[1..], o))
  }

  lemma EventKeepsInv(s: State, e: Event)
    requires Inv(s) && EventFits(s, e)
    ensures Inv(Next(s, e)) && s.outputs.Keys <= Next(s, e).outputs.Keys
  {
    match e
    case Other(op) =>
      StepKeepsInv(s, op);
      if op.ReserveOp? {
        ReserveKeeps(s, op.rows);
      }
    case Guarded(rows) => GuardKeepsOwners(s, rows);
  }

  lemma EventFrees(s: State, e: Event, o: Outpoint)
    requires Inv(s) && EventFits(s, e) && o in s.outputs && !Selectable(s.outputs, o) && !Restores(e, o)
    ensures Selectable(Next(s, e).outputs, o) ==>
              e.Guarded? && o in s.holds && Vouched(s, o.txid) && o !in Next(s, e).holds
  {
    match e
    case Other(op) =>
      if op.ReserveOp? {
        ReserveOwners(s, op.rows, o);
      }
    case Guarded(rows) =>
      if Selectable(GuardRun(s, rows).outputs, o) {
        FreesOnlyItsOwn(s, rows, o);
      }
  }

  /**
   A coin that is not selectable, a held one or a reserved one, is selectable again after any run
   only if the toolbox restored it or a guard run freed it from its own holds.
   */
  lemma {:induction false} SelectableOnlyIfFreed(s: State, events: seq<Event>, o: Outpoint)
    requires Inv(s) && EventsRun(s, events) && o in s.outputs && !Selectable(s.outputs, o)
    requires forall e | e in events :: !Restores(e, o)
    ensures Selectable(End(s, events).outputs, o) ==> FreedIn(s, events, o)
    decreases |events|
  {
    if events != [] {
      assert events[0] in events && forall e | e in events[1..] :: e in events;
      EventKeepsInv(s, events[0]);
      EventFrees(s, events[0], o);
      if !Selectable(Next(s, events[0]).outputs, o) {
        SelectableOnlyIfFreed(Next(s, events[0]), events[1..], o);
      }
    }
  }

  /** A coin the guard holds, or ever frees, is one it took itself, unless it held it at the start. */
  lemma {:induction false} HeldWasTaken(s: State, events: seq<Event>, o: Outpoint)
    requires o !in s.holds
    ensures o in End(s, events).holds || FreedIn(s, events, o) ==> TakenIn(s, events, o)
    decreases |events|
  {
    if events != [] {
      if events[0].Guarded? && o in Next(s, events[0]).holds {
        HoldsOnlyWhatItTakes(s, events[0].rows, o);
      } else {
        HeldWasTaken(Next(s, events[0]), events[1..], o);
      }
    }
  }
}
