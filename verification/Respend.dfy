/**
 The deliberate competitor: a replacement that spends a phantom's exact inputs, the reservation
 that keeps those inputs from any third spend, and the settlement once the replacement is proven.
 */
module Respend {
  import opened Prelude
  import opened ChainEvents

  datatype Word = Unsigned | Unproven | Sending | Completed | Failed | OtherWord

  datatype ReqWord = Unsent | ReqSending | Unprocessed | Unmined | ReqCompleted | DoubleSpend | Invalid | OtherReq

  /** A stored transaction: its word, its proof request's, and the coins its bytes spend. */
  datatype Tx = Tx(word: Word, req: Option<ReqWord>, hinted: bool, took: bool, inputs: seq<Outpoint>)

  datatype Output = Output(spendable: bool, spentBy: Option<Txid>)

  datatype Link = Link(replacement: Txid, settled: bool)

  /** The tables: transactions, outputs, the links by phantom, and the guard's holds. */
  datatype State = State(
    txs: map<Txid, Tx>, outputs: map<Outpoint, Output>, links: map<Txid, Link>, holds: set<Outpoint>)

  ghost predicate Distinct(coins: seq<Outpoint>) {
    forall i, j | 0 <= i < j < |coins| :: coins[i] != coins[j]
  }

  /**
   A link names stored transactions, the replacement's inputs are exactly the phantom's, and no other
   link shares it.
   */
  ghost predicate LinkOk(s: State, p: Txid) {
    && p in s.links && p in s.txs && s.links[p].replacement in s.txs && s.links[p].replacement != p
    && s.txs[s.links[p].replacement].inputs == s.txs[p].inputs
    && s.txs[p].inputs != [] && Distinct(s.txs[p].inputs)
  }

  ghost predicate Inv(s: State) {
    && (forall p | p in s.links :: LinkOk(s, p))
    && (forall p, q | p in s.links && q in s.links && s.links[p].replacement == s.links[q].replacement :: p == q)
    && (forall o | o in s.outputs && s.outputs[o].spentBy.Some? :: !s.outputs[o].spendable)
  }

  function InputsOf(s: State, t: Txid): seq<Outpoint> {
    if t in s.txs then s.txs[t].inputs else []
  }

  // ---------------------------------------------------------------------------
  // Taking coins
  // ---------------------------------------------------------------------------

  predicate Free(out: Output, owner: Txid) {
    out.spentBy.None? || out.spentBy == Some(owner)
  }

  /** The coins that are unattributed or `from`'s become `to`'s and unspendable; no other coin changes. */
  function Taken(outputs: map<Outpoint, Output>, from: Txid, to: Txid, coins: seq<Outpoint>): map<Outpoint, Output> {
    map o | o in outputs ::
      if o in coins && Free(outputs[o], from) then Output(false, Some(to)) else outputs[o]
  }

  function ReserveOne(s: State, p: Txid): map<Outpoint, Output> {
    if p in s.links then Taken(s.outputs, p, p, InputsOf(s, s.links[p].replacement)) else s.outputs
  }

  /** The reservations of the first rows, in the order the table gives them. */
  function ReserveAll(s: State, rows: seq<Txid>): map<Outpoint, Output> {
    if rows == [] then s.outputs
    else
      var before := ReserveAll(s, rows[..|rows| - 1]);
      ReserveOne(s.(outputs := before), rows[|rows| - 1])
  }

  /** The rows are exactly the unsettled links. */
  predicate Unsettled(s: State, rows: seq<Txid>) {
    && (forall p | p in rows :: p in s.links && !s.links[p].settled)
    && (forall p | p in s.links && !s.links[p].settled :: p in rows)
  }

  function Settle(s: State, p: Txid): State {
    if p in s.links
    then s.(outputs := Taken(s.outputs, p, s.links[p].replacement, InputsOf(s, s.links[p].replacement)),
            links := s.links[p := s.links[p].(settled := true)])
    else s
  }

  /** The phantom has lost to its replacement: the proof funnel has said so on both. */
  predicate Proven(s: State, p: Txid) {
    && p in s.links && !s.links[p].settled && p in s.txs && s.txs[p].req == Some(DoubleSpend)
    && s.links[p].replacement in s.txs && s.txs[s.links[p].replacement].word.Completed?
  }

  function SettleAll(s: State, rows: seq<Txid>): State {
    if rows == [] then s else Settle(SettleAll(s, rows[..|rows| - 1]), rows[|rows| - 1])
  }

  // ---------------------------------------------------------------------------
  // Building the replacement
  // ---------------------------------------------------------------------------

  predicate LockedTo(s: State, o: Outpoint, p: Txid) {
    o in s.outputs && s.outputs[o] == Output(false, Some(p))
  }

  /** What is checked before anything is written, on the store as it was read then. */
  ghost predicate MayBuild(at: State, p: Txid) {
    && p in at.txs && (at.txs[p].word.Unproven? || at.txs[p].word.Sending?)
    && at.txs[p].req.Some? && at.txs[p].req.value !in {ReqCompleted, DoubleSpend, Invalid}
    && at.txs[p].took
    && (p in at.links ==>
          var r := at.links[p].replacement;
          r in at.txs && at.txs[r].word.Failed? && !at.txs[r].took)
    && at.txs[p].inputs != [] && Distinct(at.txs[p].inputs)
    && forall o | o in at.txs[p].inputs :: LockedTo(at, o, p)
  }

  /** What is checked again under the write lock: words, locks, and the link read before. */
  predicate StillBuilds(at: State, s: State, p: Txid) {
    && p in at.txs && p in s.txs && s.txs[p].word == at.txs[p].word && s.txs[p].req == at.txs[p].req
    && (forall o | o in at.txs[p].inputs :: LockedTo(s, o, p))
    && if p in at.links
       then p in s.links && s.links[p].replacement == at.links[p].replacement
            && s.links[p].replacement in s.txs && s.txs[s.links[p].replacement].word.Failed?
       else p !in s.links
  }

  /** The reservation: the replacement's row and its link, or nothing at all. */
  ghost function Build(at: State, s: State, p: Txid, newId: Txid): State {
    if MayBuild(at, p) && StillBuilds(at, s, p)
    then s.(txs := s.txs[newId := Tx(Unsigned, None, false, false, at.txs[p].inputs)],
            links := s.links[p := Link(newId, false)])
    else s
  }

  // ---------------------------------------------------------------------------
  // The tables, in place
  // ---------------------------------------------------------------------------

  class Wallet {
    var txs: map<Txid, Tx>
    var outputs: map<Outpoint, Output>
    var links: map<Txid, Link>
    var holds: set<Outpoint>

    constructor ()
      ensures Now() == State(map[], map[], map[], {})
    {
      txs, outputs, links, holds := map[], map[], map[], {};
    }

    function Now(): State
      reads this
    {
      State(txs, outputs, links, holds)
    }

    /** The checks of `build_and_post` on what was read at `at`, input by input. */
    method CheckBuild(at: State, p: Txid) returns (may: bool)
      ensures may <==> MayBuild(at, p)
    {
      if p !in at.txs {
        return false;
      }
      var phantom := at.txs[p];
      if !(phantom.word.Unproven? || phantom.word.Sending?) || phantom.req.None?
         || phantom.req.value in {ReqCompleted, DoubleSpend, Invalid} || !phantom.took {
        return false;
      }
      if p in at.links {
        var r := at.links[p].replacement;
        if r !in at.txs || !at.txs[r].word.Failed? || at.txs[r].took {
          return false;
        }
      }
      var outpoints: set<Outpoint> := {};
      for k := 0 to |phantom.inputs|
        invariant forall o :: o in outpoints <==> o in phantom.inputs[..k]
        invariant Distinct(phantom.inputs[..k])
        invariant forall o | o in phantom.inputs[..k] :: LockedTo(at, o, p)
      {
        var o := phantom.inputs[k];
        if o in outpoints || !LockedTo(at, o, p) {
          assert o in phantom.inputs;
          return false;
        }
        outpoints := outpoints + {o};
      }
      assert phantom.inputs[..|phantom.inputs|] == phantom.inputs;
      may := phantom.inputs != [];
    }

    /** The write transaction of `build_and_post`: checked again, then all of it or nothing. */
    method BuildReplacement(at: State, p: Txid, newId: Txid) returns (built: bool)
      modifies this`txs, this`links
      ensures Now() == Build(at, old(Now()), p, newId)
      ensures built <==> MayBuild(at, p) && StillBuilds(at, old(Now()), p)
    {
      var may := CheckBuild(at, p);
      if !may || p !in txs || txs[p].word != at.txs[p].word || txs[p].req != at.txs[p].req {
        return false;
      }
      var coins := at.txs[p].inputs;
      for k := 0 to |coins|
        invariant forall o | o in coins[..k] :: LockedTo(Now(), o, p)
      {
        assert coins[..k + 1] == coins[..k] + [coins[k]] && coins[k] in coins;
        if !LockedTo(Now(), coins[k], p) {
          return false;
        }
      }
      assert coins[..|coins|] == coins;
      if p in at.links {
        if p !in links || links[p].replacement != at.links[p].replacement
           || links[p].replacement !in txs || !txs[links[p].replacement].word.Failed? {
          return false;
        }
      } else if p in links {
        return false;
      }
      txs := txs[newId := Tx(Unsigned, None, false, false, coins)];
      links := links[p := Link(newId, false)];
      built := true;
    }

    /** One UPDATE a coin. */
    method TakeCoins(from: Txid, to: Txid, coins: seq<Outpoint>)
      modifies this`outputs
      ensures outputs == Taken(old(outputs), from, to, coins)
    {
      for k := 0 to |coins|
        invariant outputs == Taken(old(outputs), from, to, coins[..k])
      {
        var o := coins[k];
        if o in outputs && Free(outputs[o], from) {
          outputs := outputs[o := Output(false, Some(to))];
        }
      }
      assert coins[..|coins|] == coins;
    }

    /** `reserve_inputs`. */
    method ReserveInputs(rows: seq<Txid>)
      requires Unsettled(Now(), rows)
      modifies this`outputs
      ensures outputs == ReserveAll(old(Now()), rows)
    {
      ghost var before := Now();
      for k := 0 to |rows|
        invariant outputs == ReserveAll(before, rows[..k])
      {
        assert rows[..k + 1][..k] == rows[..k];
        assert rows[k] in rows;
        TakeCoins(rows[k], rows[k], InputsOf(Now(), links[rows[k]].replacement));
      }
      assert rows[..|rows|] == rows;
    }

    /** `settle_proven`, over the proven rows; one whose proof is not ingested again is left. */
    method SettleProven(rows: seq<Txid>, ingested: Txid -> bool) returns (settled: seq<Txid>)
      requires forall p | p in rows :: Proven(Now(), p)
      modifies this`outputs, this`links
      ensures Now() == SettleAll(old(Now()), settled)
      ensures forall p :: p in settled <==> p in rows && ingested(p)
    {
      ghost var before := Now();
      settled := [];
      for k := 0 to |rows|
        invariant Now() == SettleAll(before, settled)
        invariant links.Keys == before.links.Keys
        invariant forall p :: p in settled <==> p in rows[..k] && ingested(p)
      {
        var p := rows[k];
        assert p in rows && Proven(before, p);
        assert rows[..k + 1] == rows[..k] + [p];
        if ingested(p) {
          assert (settled + [p])[..|settled|] == settled;
          TakeCoins(p, links[p].replacement, InputsOf(Now(), links[p].replacement));
          links := links[p := links[p].(settled := true)];
          settled := settled + [p];
        }
      }
      assert rows[..|rows|] == rows;
    }
  }

  // ---------------------------------------------------------------------------
  // Runs
  // ---------------------------------------------------------------------------

  /**
   What may happen to the tables. `BuildOp` read the store at `at`, any time before. The last four
   are the toolbox's: a spend of free coins, a rollback that restores some, a coin that arrives,
   and any change of a transaction's words.
   */
  datatype Op =
    | BuildOp(at: State, phantom: Txid, newId: Txid)
    | ReserveOp(rows: seq<Txid>)
    | SettleOp(proven: Txid)
    | SpendOp(spender: Txid, coins: seq<Outpoint>)
    | RollbackOp(restored: set<Outpoint>, spendable: bool)
    | ArriveOp(coin: Outpoint)
    | WordOp(tx: Txid, word: Word, req: Option<ReqWord>, hinted: bool, took: bool)

  /** What the store and the toolbox promise of a step. */
  ghost predicate Fits(s: State, op: Op) {
    match op
    case BuildOp(at, _, newId) =>
      && newId !in s.txs
      && forall t | t in at.txs :: t in s.txs && s.txs[t].inputs == at.txs[t].inputs
    case ReserveOp(rows) => Unsettled(s, rows)
    case SettleOp(p) => Proven(s, p)
    case SpendOp(spender, coins) =>
      spender !in s.txs && forall o | o in coins :: o in s.outputs && s.outputs[o] == Output(true, None)
    case RollbackOp(_, _) => true
    case ArriveOp(coin) => coin !in s.outputs
    case WordOp(_, _, _, _, _) => true
  }

  ghost function Apply(s: State, op: Op): State {
    match op
    case BuildOp(at, phantom, newId) => Build(at, s, phantom, newId)
    case ReserveOp(rows) => s.(outputs := ReserveAll(s, rows))
    case SettleOp(p) => Settle(s, p)
    case SpendOp(spender, coins) =>
      s.(txs := s.txs[spender := Tx(Sending, Some(Unsent), false, false, coins)],
         outputs := map o | o in s.outputs :: if o in coins then Output(false, Some(spender)) else s.outputs[o])
    case RollbackOp(restored, spendable) =>
      s.(outputs := map o | o in s.outputs :: if o in restored then Output(spendable, None) else s.outputs[o])
    case ArriveOp(coin) => s.(outputs := s.outputs[coin := Output(true, None)])
    case WordOp(t, word, req, hinted, took) =>
      if t in s.txs then s.(txs := s.txs[t := Tx(word, req, hinted, took, s.txs[t].inputs)]) else s
  }

  ghost predicate Runs(s: State, ops: seq<Op>)
    decreases |ops|
  {
    ops == [] || (Fits(s, ops[0]) && Runs(Apply(s, ops[0]), ops[1..]))
  }

  ghost function After(s: State, ops: seq<Op>): State
    decreases |ops|
  {
    if ops == [] then s else After(Apply(s, ops[0]), ops[1..])
  }

  /** No coin that was attributed is spendable after a take. */
  ghost predicate Unlocked(outputs: map<Outpoint, Output>) {
    exists o :: o in outputs && outputs[o].spentBy.Some? && outputs[o].spendable
  }

  lemma {:induction false} ReserveKeeps(s: State, rows: seq<Txid>)
    ensures ReserveAll(s, rows).Keys == s.outputs.Keys
    ensures !Unlocked(s.outputs) ==> !Unlocked(ReserveAll(s, rows))
  {
    if rows != [] {
      ReserveKeeps(s, rows[..|rows| - 1]);
    }
  }

  lemma BuildKeepsInv(at: State, s: State, p: Txid, newId: Txid)
    requires Inv(s) && Fits(s, BuildOp(at, p, newId))
    ensures Inv(Build(at, s, p, newId))
  {
    var after := Build(at, s, p, newId);
    if after != s {
      forall q | q in after.links ensures LinkOk(after, q) {
        assert q != p ==> LinkOk(s, q);
      }
    }
  }

  /** Links stay right while no transaction's inputs change and no link's ends do. */
  lemma LinksCarryOver(s: State, after: State)
    requires forall p | p in s.links :: LinkOk(s, p)
    requires forall t | t in s.txs :: t in after.txs && after.txs[t].inputs == s.txs[t].inputs
    requires after.links.Keys == s.links.Keys
    requires forall p | p in s.links :: after.links[p].replacement == s.links[p].replacement
    ensures forall p | p in after.links :: LinkOk(after, p)
  {
    forall p | p in after.links ensures LinkOk(after, p) {
      assert LinkOk(s, p);
    }
  }

  lemma SettleKeepsInv(s: State, p: Txid)
    requires Inv(s)
    ensures Inv(Settle(s, p))
  {
    LinksCarryOver(s, Settle(s, p));
  }

  lemma StepKeepsInv(s: State, op: Op)
    requires Inv(s) && Fits(s, op)
    ensures Inv(Apply(s, op))
  {
    var after := Apply(s, op);
    match op
    case BuildOp(at, phantom, newId) => BuildKeepsInv(at, s, phantom, newId);
    case ReserveOp(rows) =>
      ReserveKeeps(s, rows);
      LinksCarryOver(s, after);
    case SettleOp(p) => SettleKeepsInv(s, p);
    case _ => OtherKeepsInv(s, op);
  }

  lemma OtherKeepsInv(s: State, op: Op)
    requires Inv(s) && Fits(s, op) && (op.SpendOp? || op.RollbackOp? || op.ArriveOp? || op.WordOp?)
    ensures Inv(Apply(s, op))
  {
    LinksCarryOver(s, Apply(s, op));
  }

  /**
   Over every run: a phantom has at most one linked replacement, no replacement serves two, its
   inputs are exactly the phantom's, and an attributed coin is never spendable.
   */
  lemma {:induction false} EveryRunKeepsInv(s: State, ops: seq<Op>)
    requires Inv(s) && Runs(s, ops)
    ensures Inv(After(s, ops))
    decreases |ops|
  {
    if ops != [] {
      StepKeepsInv(s, ops[0]);
      EveryRunKeepsInv(Apply(s, ops[0]), ops[1..]);
    }
  }

  // ---------------------------------------------------------------------------
  // The reservation
  // ---------------------------------------------------------------------------

  /** Attributed and unspendable. */
  predicate Locked(outputs: map<Outpoint, Output>, o: Outpoint) {
    o in outputs && outputs[o].spentBy.Some? && !outputs[o].spendable
  }

  /** A coin keeps its owner through every reservation; one without gets a linked phantom that spends it. */
  lemma {:induction false} ReserveOwners(s: State, rows: seq<Txid>, o: Outpoint)
    requires o in s.outputs && !Unlocked(s.outputs)
    ensures var after := ReserveAll(s, rows);
            && o in after && (after[o].spentBy.Some? ==> Locked(after, o))
            && (s.outputs[o].spentBy.Some? ==> after[o] == s.outputs[o])
            && (s.outputs[o].spentBy.None? ==>
                  || after[o] == s.outputs[o]
                  || exists q :: q in rows && q in s.links && o in InputsOf(s, s.links[q].replacement)
                                 && after[o] == Output(false, Some(q)))
  {
    ReserveKeeps(s, rows);
    if rows != [] {
      var q := rows[|rows| - 1];
      ReserveOwners(s, rows[..|rows| - 1], o);
      assert forall x | x in rows[..|rows| - 1] :: x in rows;
      assert q in rows;
    }
  }

  /** A coin no row's replacement spends is left by the reservations as it was. */
  lemma UnspentIsLeft(s: State, rows: seq<Txid>, o: Outpoint)
    requires o in s.outputs && !Unlocked(s.outputs)
    requires forall q | q in rows && q in s.links :: o !in InputsOf(s, s.links[q].replacement)
    ensures o in ReserveAll(s, rows) && ReserveAll(s, rows)[o] == s.outputs[o]
  {
    ReserveOwners(s, rows, o);
  }

  lemma {:induction false} RowIsReserved(s: State, rows: seq<Txid>, p: Txid, o: Outpoint)
    requires p in rows && p in s.links && o in InputsOf(s, s.links[p].replacement)
    requires o in s.outputs && !Unlocked(s.outputs)
    ensures Locked(ReserveAll(s, rows), o)
  {
    var before := rows[..|rows| - 1];
    ReserveOwners(s, before, o);
    ReserveOwners(s, rows, o);
    if p != rows[|rows| - 1] {
      RowIsReserved(s, before, p, o);
    }
  }

  /**
   After a reservation every input of an unsettled replacement is unspendable and is the
   phantom's, unless a third held it before or another linked phantom spends it too.
   */
  lemma ReservedInputs(s: State, rows: seq<Txid>, p: Txid, o: Outpoint)
    requires Inv(s) && Unsettled(s, rows) && p in s.links && !s.links[p].settled
    requires o in s.txs[p].inputs && o in s.outputs
    ensures var after := ReserveAll(s, rows);
            && Locked(after, o)
            && (after[o] == Output(false, Some(p)) || after[o] == s.outputs[o]
                || exists q :: q in rows && q != p && LinkOk(s, q) && o in s.txs[q].inputs
                               && after[o] == Output(false, Some(q)))
  {
    assert LinkOk(s, p);
    RowIsReserved(s, rows, p, o);
    ReserveOwners(s, rows, o);
    var after := ReserveAll(s, rows);
    if after[o] != s.outputs[o] && after[o] != Output(false, Some(p)) {
      var q :| && q in rows && q in s.links
               && o in InputsOf(s, s.links[q].replacement) && after[o] == Output(false, Some(q));
      assert LinkOk(s, q);
    }
  }

  /** A spend made after the reservation picks no input of an unsettled replacement. */
  lemma NoThirdSpend(s: State, rows: seq<Txid>, p: Txid, spender: Txid, coins: seq<Outpoint>, o: Outpoint)
    requires Inv(s) && Unsettled(s, rows) && p in s.links && !s.links[p].settled
    requires Fits(Apply(s, ReserveOp(rows)), SpendOp(spender, coins))
    requires o in s.txs[p].inputs
    ensures o !in coins
  {
    ReserveKeeps(s, rows);
    if o in s.outputs {
      ReservedInputs(s, rows, p, o);
    }
  }

  // ---------------------------------------------------------------------------
  // The settlement, and the coins of third spenders
  // ---------------------------------------------------------------------------

  /** Some settled row spends the coin, and it is that row's phantom's or nobody's. */
  ghost predicate SettledFree(s: State, rows: seq<Txid>, o: Outpoint) {
    exists p :: p in rows && p in s.links && o in s.outputs
                && o in InputsOf(s, s.links[p].replacement) && Free(s.outputs[o], p)
  }

  /** The coin is unspendable and some settled row's replacement, which spends it, holds it. */
  ghost predicate SettledTo(s: State, rows: seq<Txid>, o: Outpoint, out: Output) {
    exists p :: p in rows && p in s.links && o in InputsOf(s, s.links[p].replacement)
                && out == Output(false, Some(s.links[p].replacement))
  }

  lemma {:induction false} SettleKeepsEnds(s: State, rows: seq<Txid>)
    ensures var after := SettleAll(s, rows);
            && after.txs == s.txs && after.links.Keys == s.links.Keys && after.outputs.Keys == s.outputs.Keys
            && forall p | p in s.links ::
                 after.links[p] == Link(s.links[p].replacement, s.links[p].settled || p in rows)
  {
    if rows != [] {
      var front, p := rows[..|rows| - 1], rows[|rows| - 1];
      SettleKeepsEnds(s, front);
      assert rows == front + [p];
    }
  }

  lemma OneMoreSettled(s: State, front: seq<Txid>, p: Txid, o: Outpoint)
    requires o in s.outputs
    requires var before := SettleAll(s, front);
             && before.txs == s.txs && before.links.Keys == s.links.Keys && before.outputs.Keys == s.outputs.Keys
             && forall q | q in s.links :: before.links[q].replacement == s.links[q].replacement
    requires var out := SettleAll(s, front).outputs[o];
             if SettledFree(s, front, o) then SettledTo(s, front, o, out) else out == s.outputs[o]
    ensures var out := Settle(SettleAll(s, front), p).outputs[o];
            if SettledFree(s, front + [p], o) then SettledTo(s, front + [p], o, out) else out == s.outputs[o]
  {
    var before := SettleAll(s, front);
    var out := Settle(before, p).outputs[o];
    var spends := p in s.links && o in InputsOf(s, s.links[p].replacement);
    assert forall q | q in front :: q in front + [p];
    assert p in front + [p];
    if spends && Free(before.outputs[o], p) {
      assert out == Output(false, Some(s.links[p].replacement));
    } else {
      assert out == before.outputs[o];
    }
  }

  /**
   Over a whole settlement, however many rows and in whatever order: a coin moves exactly when some
   settled row spends it and it is that row's phantom's or nobody's, and then to the replacement of
   a settled row that spends it; every other coin, a third spender's among them, is as it was.
   */
  lemma {:induction false} SettlementMovesExactly(s: State, rows: seq<Txid>, o: Outpoint)
    requires o in s.outputs
    ensures o in SettleAll(s, rows).outputs
    ensures var out := SettleAll(s, rows).outputs[o];
            if SettledFree(s, rows, o) then SettledTo(s, rows, o, out) else out == s.outputs[o]
  {
    SettleKeepsEnds(s, rows);
    if rows != [] {
      var front, p := rows[..|rows| - 1], rows[|rows| - 1];
      SettlementMovesExactly(s, front, o);
      SettleKeepsEnds(s, front);
      assert rows == front + [p];
      OneMoreSettled(s, front, p, o);
    }
  }

  /** The proof funnel has settled it: the phantom is a double spend, the replacement is proven. */
  predicate LostTo(s: State, p: Txid, r: Txid) {
    && p in s.txs && r in s.txs && s.txs[p].req.Some?
    && s.txs[p].req.value.DoubleSpend? && s.txs[r].word.Completed?
  }

  /** The rows of a settlement are all the links whose phantom has lost to its replacement. */
  ghost predicate ProvenRows(s: State, rows: seq<Txid>) {
    forall p :: p in rows <==> Proven(s, p)
  }

  /**
   A settlement over those rows settles a link exactly when its phantom has lost to its replacement and
   that one's proof is ingested again; a link settled before stays so, and no link changes its ends.
   */
  lemma SettlesTheProven(s: State, rows: seq<Txid>, ingested: Txid -> bool, settled: seq<Txid>)
    requires ProvenRows(s, rows) && forall p :: p in settled <==> p in rows && ingested(p)
    ensures var after := SettleAll(s, settled);
            && after.links.Keys == s.links.Keys
            && forall p | p in s.links ::
                 var r := s.links[p].replacement;
                 && after.links[p].replacement == r
                 && (after.links[p].settled <==> s.links[p].settled || (LostTo(s, p, r) && ingested(p)))
  {
    SettleKeepsEnds(s, settled);
  }

  /** In any run a step settles a link only when its phantom has lost to its replacement. */
  lemma SettledHasLost(s: State, op: Op, p: Txid)
    requires Inv(s) && Fits(s, op) && p in s.links && !s.links[p].settled
    requires p in Apply(s, op).links && Apply(s, op).links[p].settled
    ensures Apply(s, op).links[p].replacement == s.links[p].replacement && LostTo(s, p, s.links[p].replacement)
  {
  }

  /** The steps that may take a coin from the spender that holds it. */
  predicate MayTake(s: State, op: Op, x: Txid, o: Outpoint) {
    (op.RollbackOp? && o in op.restored) || (op.SettleOp? && op.proven == x)
  }

  ghost predicate NeverTaken(s: State, ops: seq<Op>, x: Txid, o: Outpoint)
    decreases |ops|
  {
    ops == [] || (!MayTake(s, ops[0], x, o) && NeverTaken(Apply(s, ops[0]), ops[1..], x, o))
  }

  /**
   What a third spender holds stays its own over any run, until the toolbox itself restores it or
   that spender, a phantom, is settled against.
   */
  lemma {:induction false} ThirdKeepsItsCoin(s: State, ops: seq<Op>, x: Txid, o: Outpoint)
    requires Inv(s) && Runs(s, ops) && NeverTaken(s, ops, x, o)
    requires o in s.outputs && s.outputs[o].spentBy == Some(x)
    ensures var after := After(s, ops); o in after.outputs && after.outputs[o] == Output(false, Some(x))
    decreases |ops|
  {
    if ops != [] {
      if ops[0].ReserveOp? {
        ReserveOwners(s, ops[0].rows, o);
      }
      StepKeepsInv(s, ops[0]);
      ThirdKeepsItsCoin(Apply(s, ops[0]), ops[1..], x, o);
    }
  }

  // ---------------------------------------------------------------------------
  // When a replacement is built
  // ---------------------------------------------------------------------------

  /** The words of a request that has neither a proof nor a refusal for good. */
  predicate StillOpen(req: ReqWord) {
    match req
    case Unsent => true
    case ReqSending => true
    case Unprocessed => true
    case Unmined => true
    case OtherReq => true
    case _ => false
  }

  /** The phantom is out and unsettled, by its own word and its request's, and a broadcaster took it. */
  ghost predicate IsPhantom(at: State, p: Txid) {
    && p in at.txs && at.txs[p].word in {Unproven, Sending} && at.txs[p].took
    && at.txs[p].req.Some? && StillOpen(at.txs[p].req.value)
    && at.txs[p].inputs != [] && Distinct(at.txs[p].inputs)
  }

  /** It has no replacement, or the same one at the read and at the write, failed, and not taken at the read. */
  ghost predicate PriorFailed(at: State, s: State, p: Txid) {
    && (p in s.links <==> p in at.links)
    && (p in at.links ==>
          var r := at.links[p].replacement;
          && s.links[p].replacement == r && r in at.txs && r in s.txs
          && at.txs[r].word == Failed && s.txs[r].word == Failed && !at.txs[r].took)
  }

  /** Every input is the wallet's, and locked to the phantom at the read and at the write. */
  ghost predicate BothLocked(at: State, s: State, p: Txid) {
    && p in at.txs
    && forall o | o in at.txs[p].inputs ::
         && o in at.outputs && at.outputs[o] == Output(false, Some(p))
         && o in s.outputs && s.outputs[o] == Output(false, Some(p))
  }

  /**
   A replacement is built exactly for a phantom whose words are the same at the read and at the write,
   whose every input is locked to it both times, and which has no replacement but a failed one; and then
   it spends the phantom's inputs, is its one link, and nothing else changes.
   */
  lemma BuildIsExact(at: State, s: State, p: Txid, newId: Txid)
    requires newId !in s.txs
    ensures var built := Build(at, s, p, newId);
            && (built != s <==>
                  && IsPhantom(at, p) && PriorFailed(at, s, p)
                  && p in s.txs && s.txs[p].word == at.txs[p].word && s.txs[p].req == at.txs[p].req
                  && BothLocked(at, s, p))
            && (built != s ==>
                  && built.links == s.links[p := Link(newId, false)]
                  && built.txs == s.txs[newId := Tx(Unsigned, None, false, false, at.txs[p].inputs)]
                  && built.outputs == s.outputs && built.holds == s.holds)
  {
    var built := Build(at, s, p, newId);
    if MayBuild(at, p) && StillBuilds(at, s, p) {
      assert newId in built.txs;
      assert forall o | o in at.txs[p].inputs :: LockedTo(at, o, p) && LockedTo(s, o, p);
    } else if BothLocked(at, s, p) {
      assert forall o | o in at.txs[p].inputs :: LockedTo(at, o, p) && LockedTo(s, o, p);
    }
  }

  // ---------------------------------------------------------------------------
  // The one link
  // ---------------------------------------------------------------------------

  /** A link is put in another's place only when the old replacement failed, and no broadcaster had it. */
  lemma RelinkedOnlyWhenFailed(at: State, s: State, p: Txid, newId: Txid)
    requires p in s.links && newId !in s.txs && Inv(s)
    requires Build(at, s, p, newId).links[p] != s.links[p]
    ensures var before := s.links[p].replacement;
            && s.txs[before].word.Failed?
            && before in at.txs && at.txs[before].word.Failed? && !at.txs[before].took
  {
    assert LinkOk(s, p);
  }

  /** Nothing in the run marks this transaction failed. */
  ghost predicate NeverFailed(ops: seq<Op>, t: Txid) {
    forall op | op in ops :: !(op.WordOp? && op.tx == t && op.word.Failed?)
  }

  /** One step that does not mark the replacement failed leaves it standing, and linked. */
  lemma StepKeepsLink(s: State, op: Op, p: Txid)
    requires Inv(s) && Fits(s, op) && p in s.links
    requires LinkOk(s, p) && !s.txs[s.links[p].replacement].word.Failed?
    requires !(op.WordOp? && op.tx == s.links[p].replacement && op.word.Failed?)
    ensures var r, after := s.links[p].replacement, Apply(s, op);
            && p in after.links && after.links[p].replacement == r
            && r in after.txs && !after.txs[r].word.Failed?
  {
    assert LinkOk(s, p);
    if op.BuildOp? && op.phantom == p && Build(op.at, s, p, op.newId).links[p] != s.links[p] {
      RelinkedOnlyWhenFailed(op.at, s, p, op.newId);
    }
  }

  /**
   Over any run, builders reading at any earlier time: the one replacement of a phantom stays its
   replacement until something marks it failed.
   */
  lemma {:induction false} LinkStandsUntilFailed(s: State, ops: seq<Op>, p: Txid)
    requires Inv(s) && Runs(s, ops) && p in s.links
    requires LinkOk(s, p) && !s.txs[s.links[p].replacement].word.Failed?
    requires NeverFailed(ops, s.links[p].replacement)
    ensures p in After(s, ops).links && After(s, ops).links[p].replacement == s.links[p].replacement
    decreases |ops|
  {
    if ops != [] {
      assert ops[0] in ops && forall op | op in ops[1..] :: op in ops;
      StepKeepsLink(s, ops[0], p);
      StepKeepsInv(s, ops[0]);
      LinkStandsUntilFailed(Apply(s, ops[0]), ops[1..], p);
    }
  }

  /** The link of a phantom is replaced, and a broadcaster has taken the replacement it named. */
  ghost predicate DiscardsTaken(at: State, s: State, p: Txid, newId: Txid) {
    && p in s.links && Build(at, s, p, newId).links[p] != s.links[p]
    && s.links[p].replacement in s.txs && s.txs[s.links[p].replacement].took
  }

  /**
   That no broadcaster took the old replacement is read once, before the lock. So a taken one is
   discarded exactly when it was taken between that read and the write, all else still building.
   */
  lemma DiscardedOnlyInBetween(at: State, s: State, p: Txid, newId: Txid)
    requires Inv(s) && Fits(s, BuildOp(at, p, newId)) && p in s.links
    ensures var prior := s.links[p].replacement;
            DiscardsTaken(at, s, p, newId) <==>
              && MayBuild(at, p) && StillBuilds(at, s, p) && s.txs[prior].took
              && prior in at.txs && !at.txs[prior].took
  {
    assert LinkOk(s, p);
  }

  /** Nothing in the run marks this transaction taken. */
  ghost predicate NeverMarked(ops: seq<Op>, t: Txid) {
    forall op | op in ops :: !(op.WordOp? && op.tx == t && op.took)
  }

  lemma {:induction false} StaysUntaken(s: State, ops: seq<Op>, t: Txid)
    requires Runs(s, ops) && NeverMarked(ops, t) && t in s.txs && !s.txs[t].took
    ensures t in After(s, ops).txs && !After(s, ops).txs[t].took
    decreases |ops|
  {
    if ops != [] {
      assert ops[0] in ops && forall op | op in ops[1..] :: op in ops;
      StaysUntaken(Apply(s, ops[0]), ops[1..], t);
    }
  }

  /**
   If nothing marks the old replacement taken between the read and the write, whatever else the
   run does in between, no taken replacement is ever unlinked.
   */
  lemma NoTakenIsUnlinked(at: State, ops: seq<Op>, p: Txid, newId: Txid)
    requires Inv(at) && Runs(at, ops) && Fits(After(at, ops), BuildOp(at, p, newId))
    requires p in After(at, ops).links ==> NeverMarked(ops, After(at, ops).links[p].replacement)
    ensures !DiscardsTaken(at, After(at, ops), p, newId)
  {
    var s := After(at, ops);
    EveryRunKeepsInv(at, ops);
    if DiscardsTaken(at, s, p, newId) {
      DiscardedOnlyInBetween(at, s, p, newId);
      StaysUntaken(at, ops, s.links[p].replacement);
    }
  }

  /** And it does happen: taken in between, it is discarded. */
  lemma TakenInBetweenIsRelinked(p: Txid, r: Txid, newId: Txid, o: Outpoint)
    requires p != r && newId !in {p, r}
    ensures var phantom := Tx(Unproven, Some(Unmined), false, true, [o]);
            var at := State(map[p := phantom, r := Tx(Failed, Some(Unsent), false, false, [o])],
                            map[o := Output(false, Some(p))], map[p := Link(r, false)], {});
            var s := Apply(at, WordOp(r, Failed, Some(Unsent), false, true));
            && Inv(at) && Fits(s, BuildOp(at, p, newId)) && DiscardsTaken(at, s, p, newId)
            && Apply(s, BuildOp(at, p, newId)).links[p] == Link(newId, false)
  {
  }
}
