/**
 The ancestors a transaction travels with: a worklist over the inputs of unproven transactions,
 as the export cuts one transaction's BEEF and as a respend keeps its inputs' ancestry.
 */
module BeefClosure {
  import opened Prelude

  datatype Raw = Unreadable | Inputs(sources: seq<Txid>)

  /** A stored transaction: its bump index, whether its own proof is attached, and its bytes. */
  datatype Stored = TxidOnly | Tx(bump: Option<nat>, attached: bool, raw: Raw)

  /** `bumps` is how many proofs there are; an index may point past them. */
  datatype Store = Store(txs: map<Txid, Stored>, bumps: nat)

  datatype Error = NotHeld(txid: Txid) | OnlyTxid(txid: Txid) | DoesNotParse(txid: Txid) | NotChained

  datatype Result<+T> = Ok(value: T) | Err(error: Error)

  // ---------------------------------------------------------------------------
  // Reachability
  // ---------------------------------------------------------------------------

  /** The usable transactions, each with the transactions the walk follows from it. */
  type Graph = map<Txid, seq<Txid>>

  predicate Follows(g: Graph, t: Txid, u: Txid) {
    t in g && u in g[t]
  }

  /** Holds the roots and everything the walk follows from what it holds. */
  ghost predicate Inductive(g: Graph, roots: seq<Txid>, s: iset<Txid>) {
    && (forall t | t in roots :: t in s)
    && (forall t, u | t in s && Follows(g, t, u) :: u in s)
  }

  /** In the least such set. */
  ghost predicate Reaches(g: Graph, roots: seq<Txid>, t: Txid) {
    forall s | Inductive(g, roots, s) :: t in s
  }

  lemma NextReached(g: Graph, roots: seq<Txid>, t: Txid, u: Txid)
    requires Reaches(g, roots, t) && Follows(g, t, u)
    ensures Reaches(g, roots, u)
  {
  }

  /** The same over usable transactions only. */
  ghost predicate Closed(g: Graph, roots: seq<Txid>, s: set<Txid>) {
    && Inductive(g, roots, iset t | t in s)
    && forall t | t in s :: t in g
  }

  /** A path: each transaction follows from the one before it. */
  ghost predicate Path(g: Graph, p: seq<Txid>) {
    p != [] && (|p| == 1 || (Path(g, p[..|p| - 1]) && Follows(g, p[|p| - 2], p[|p| - 1])))
  }

  ghost predicate PathTo(g: Graph, roots: seq<Txid>, p: seq<Txid>, t: Txid) {
    Path(g, p) && p[0] in roots && p[|p| - 1] == t
  }

  ghost predicate ByPath(g: Graph, roots: seq<Txid>, t: Txid) {
    exists p :: PathTo(g, roots, p, t)
  }

  lemma {:induction false} PathStaysIn(g: Graph, roots: seq<Txid>, s: iset<Txid>, p: seq<Txid>)
    requires Inductive(g, roots, s) && Path(g, p) && p[0] in s
    ensures p[|p| - 1] in s
  {
    if |p| > 1 {
      PathStaysIn(g, roots, s, p[..|p| - 1]);
    }
  }

  /** Reached means: at the end of a path from a root. */
  lemma ReachedByPath(g: Graph, roots: seq<Txid>, t: Txid)
    ensures Reaches(g, roots, t) <==> ByPath(g, roots, t)
  {
    if p :| PathTo(g, roots, p, t) {
      forall s | Inductive(g, roots, s) ensures t in s {
        PathStaysIn(g, roots, s, p);
      }
    }
    var ends := iset u | ByPath(g, roots, u);
    forall u | u in roots ensures u in ends {
      assert PathTo(g, roots, [u], u);
    }
    forall u, v | u in ends && Follows(g, u, v) ensures v in ends {
      var p :| PathTo(g, roots, p, u);
      assert (p + [v])[..|p|] == p;
      assert PathTo(g, roots, p + [v], v);
    }
    assert Inductive(g, roots, ends);
  }

  ghost predicate IsReach(g: Graph, roots: seq<Txid>, s: set<Txid>) {
    forall t :: t in s <==> Reaches(g, roots, t)
  }

  /** An order in which each transaction reached comes after what the walk follows from it. */
  ghost predicate Ranked(g: Graph, roots: seq<Txid>, rank: Txid -> nat) {
    forall t, u | Reaches(g, roots, t) && Follows(g, t, u) :: rank(u) < rank(t)
  }

  /** What is reached ranks below all that the roots rank below. */
  lemma ReachDescends(g: Graph, rank: Txid -> nat, roots: seq<Txid>, top: nat, t: Txid)
    requires Ranked(g, roots, rank) && Reaches(g, roots, t)
    requires forall u | u in roots :: rank(u) < top
    ensures rank(t) < top
  {
    var low := iset u | Reaches(g, roots, u) && rank(u) < top;
    forall u, v | u in low && Follows(g, u, v) ensures v in low {
      NextReached(g, roots, u, v);
    }
    assert Inductive(g, roots, low);
  }

  // ---------------------------------------------------------------------------
  // The walk
  // ---------------------------------------------------------------------------

  /** What the worklist keeps at every turn. */
  ghost predicate Walking(g: Graph, roots: seq<Txid>, seen: set<Txid>, pending: seq<Txid>) {
    && (forall t | t in seen :: t in g && Reaches(g, roots, t))
    && (forall t | t in pending :: Reaches(g, roots, t))
    && (forall t | t in roots :: t in seen || t in pending)
    && (forall t, u | t in seen && Follows(g, t, u) :: u in seen || u in pending)
  }

  /** The last pending transaction is popped; a new one that is usable pushes what it follows. */
  lemma WalkGoesOn(g: Graph, roots: seq<Txid>, seen: set<Txid>, pending: seq<Txid>)
    requires Walking(g, roots, seen, pending) && pending != []
    ensures var t, rest := pending[|pending| - 1], pending[..|pending| - 1];
            && Reaches(g, roots, t)
            && (t in seen ==> Walking(g, roots, seen, rest))
            && (t in g ==> Walking(g, roots, seen + {t}, rest + g[t]))
  {
    var t, rest := pending[|pending| - 1], pending[..|pending| - 1];
    assert pending == rest + [t];
    if t in g {
      forall u | u in g[t] ensures Reaches(g, roots, u) {
        NextReached(g, roots, t, u);
      }
    }
  }

  lemma WalkEnds(g: Graph, roots: seq<Txid>, seen: set<Txid>)
    requires Walking(g, roots, seen, [])
    ensures IsReach(g, roots, seen) && Closed(g, roots, seen)
  {
    assert Inductive(g, roots, iset t | t in seen);
  }

  ghost function Unseen(g: Graph, seen: set<Txid>): set<Txid> {
    set t | t in g && t !in seen
  }

  lemma UnseenShrinks(g: Graph, seen: set<Txid>, t: Txid)
    requires t in g && t !in seen
    ensures |Unseen(g, seen + {t})| < |Unseen(g, seen)|
  {
    assert Unseen(g, seen) == Unseen(g, seen + {t}) + {t};
  }

  // ---------------------------------------------------------------------------
  // One transaction's BEEF
  // ---------------------------------------------------------------------------

  predicate Proven(store: Store, t: Txid) {
    t in store.txs && store.txs[t].Tx? && store.txs[t].bump.Some? && store.txs[t].bump.value < store.bumps
  }

  /** A transaction the cut can take: its bytes are held, and read unless its proof is. */
  predicate Usable(store: Store, t: Txid) {
    t in store.txs && store.txs[t].Tx? && (Proven(store, t) || store.txs[t].raw.Inputs?)
  }

  function GraphOf(store: Store): Graph {
    map t | t in store.txs && Usable(store, t) ::
      if Proven(store, t) || store.txs[t].raw.Unreadable? then [] else store.txs[t].raw.sources
  }

  /** The stored transaction carries a proof, and its index is one there is. */
  predicate CarriesProof(store: Store, t: Txid) {
    t in store.txs && match store.txs[t]
      case Tx(Some(index), _, _) => index < store.bumps
      case _ => false
  }

  /** The inputs in the bytes held of a transaction, where they read. */
  predicate HasInput(txs: map<Txid, Stored>, t: Txid, u: Txid) {
    t in txs && match txs[t]
      case Tx(_, _, Inputs(sources)) => u in sources
      case _ => false
  }

  /**
   The walk goes from a transaction that reads and has no proof to each of its inputs, and from no other;
   and what it can use is what carries a proof or reads.
   */
  lemma WalkIsByTheBytes(store: Store, t: Txid, u: Txid)
    ensures Follows(GraphOf(store), t, u) <==> HasInput(store.txs, t, u) && !CarriesProof(store, t)
    ensures Usable(store, t) <==>
              CarriesProof(store, t) || (t in store.txs && store.txs[t].Tx? && store.txs[t].raw.Inputs?)
  {
  }

  /** A cut's members and proofs, in the store's terms. */
  lemma CutIsByTheBytes(store: Store, target: Txid, cut: Cut, t: Txid)
    requires IsCut(store, target, cut) && t in cut
    ensures t in store.txs && store.txs[t].Tx?
    ensures CarriesProof(store, t) ==> cut[t] == store.txs[t].bump
    ensures !CarriesProof(store, t) ==>
              cut[t].None? && store.txs[t].raw.Inputs? && forall u | HasInput(store.txs, t, u) :: u in cut
  {
    MembersStandAlone(store, target, cut.Keys, t);
  }

  /** Marked in `n` turns: proven, or every input marked the turn before. */
  function Marked(g: Graph, proven: set<Txid>, members: set<Txid>, n: nat): set<Txid> {
    if n == 0 then {}
    else
      var before := Marked(g, proven, members, n - 1);
      set t | t in members && (t in proven || (t in g && forall u | u in g[t] :: u in before))
  }

  function ProvenIn(store: Store, members: set<Txid>): set<Txid> {
    set t | t in members && Proven(store, t)
  }

  /** Every member chains back to proofs: enough turns mark them all. */
  predicate Chained(store: Store, members: set<Txid>) {
    Marked(GraphOf(store), ProvenIn(store, members), members, |members|) == members
  }

  /** A transaction in the cut, with the proof it carries. */
  type Cut = map<Txid, Option<nat>>

  /** Why there is no cut: a transaction the walk reaches cannot be used, or they do not chain. */
  ghost predicate Blocks(store: Store, target: Txid, e: Error) {
    var g := GraphOf(store);
    match e
    case NotHeld(t) => Reaches(g, [target], t) && t !in store.txs
    case OnlyTxid(t) => Reaches(g, [target], t) && t in store.txs && store.txs[t].TxidOnly?
    case DoesNotParse(t) =>
      && Reaches(g, [target], t) && t in store.txs && store.txs[t].Tx?
      && !Proven(store, t) && store.txs[t].raw.Unreadable?
    case NotChained => exists s :: IsReach(g, [target], s) && Closed(g, [target], s) && !Chained(store, s)
  }

  /** The cut holds exactly what the walk reaches, each with its proof, and chains. */
  ghost predicate IsCut(store: Store, target: Txid, cut: Cut) {
    && IsReach(GraphOf(store), [target], cut.Keys) && Closed(GraphOf(store), [target], cut.Keys)
    && Chained(store, cut.Keys) && CarriesProofs(store, cut)
  }

  ghost predicate CarriesProofs(store: Store, cut: Cut) {
    forall t | t in cut :: cut[t] == if Proven(store, t) then store.txs[t].bump else None
  }

  datatype Taken = Taken(proof: Option<nat>, follow: seq<Txid>)

  /** What the walk takes from one stored transaction. */
  function Take(store: Store, next: Txid): Result<Taken> {
    if next !in store.txs then Err(NotHeld(next))
    else match store.txs[next]
      case TxidOnly => Err(OnlyTxid(next))
      case Tx(bump, _, raw) =>
        if bump.Some? && bump.value < store.bumps then Ok(Taken(bump, []))
        else match raw
          case Unreadable => Err(DoesNotParse(next))
          case Inputs(sources) => Ok(Taken(None, sources))
  }

  ghost predicate Cutting(store: Store, target: Txid, seen: set<Txid>, pending: seq<Txid>, beef: Cut) {
    && Walking(GraphOf(store), [target], seen, pending)
    && (forall t :: t in beef <==> t in seen) && CarriesProofs(store, beef)
  }

  ghost function Left(store: Store, seen: set<Txid>): nat {
    |Unseen(GraphOf(store), seen)|
  }

  lemma CutStep(store: Store, target: Txid, next: Txid, seen: set<Txid>, rest: seq<Txid>, beef: Cut)
    requires Cutting(store, target, seen, rest + [next], beef)
    ensures next in seen ==> Cutting(store, target, seen, rest, beef)
    ensures next !in seen ==>
              match Take(store, next)
              case Err(e) => Blocks(store, target, e)
              case Ok(taken) =>
                && Cutting(store, target, seen + {next}, rest + taken.follow, beef[next := taken.proof])
                && Left(store, seen + {next}) < Left(store, seen)
  {
    var g, pending := GraphOf(store), rest + [next];
    assert pending[..|pending| - 1] == rest;
    WalkGoesOn(g, [target], seen, pending);
    if next !in seen && next in g {
      UnseenShrinks(g, seen, next);
    }
  }

  /** The right answers: a cut, or an error that stands in its way. */
  ghost predicate Answers(store: Store, target: Txid, r: Result<Cut>) {
    if r.Ok? then IsCut(store, target, r.value) else Blocks(store, target, r.error)
  }

  /** `beef_of`. */
  method BeefOf(store: Store, target: Txid) returns (r: Result<Cut>)
    ensures Answers(store, target, r)
  {
    var beef: Cut := map[];
    var seen, pending := {}, [target];
    while pending != []
      invariant Cutting(store, target, seen, pending, beef)
      decreases Left(store, seen), |pending|
    {
      var next, rest := pending[|pending| - 1], pending[..|pending| - 1];
      assert pending == rest + [next];
      CutStep(store, target, next, seen, rest, beef);
      pending := rest;
      if next !in seen {
        match Take(store, next) {
          case Err(e) => return Err(e);
          case Ok(taken) =>
            seen := seen + {next};
            pending := pending + taken.follow;
            beef := beef[next := taken.proof];
        }
      }
    }
    WalkEnds(GraphOf(store), [target], seen);
    if !Chained(store, seen) {
      return Err(NotChained);
    }
    r := Ok(beef);
    assert beef.Keys == seen;
  }

  /** Each member carries its proof or has all its parents beside it. */
  lemma MembersStandAlone(store: Store, target: Txid, s: set<Txid>, t: Txid)
    requires Closed(GraphOf(store), [target], s) && t in s
    ensures t in store.txs && store.txs[t].Tx?
    ensures Proven(store, t) || (store.txs[t].raw.Inputs? && forall u | u in store.txs[t].raw.sources :: u in s)
  {
    var g := GraphOf(store);
    if !Proven(store, t) {
      forall u | u in store.txs[t].raw.sources ensures u in s {
        assert Follows(g, t, u) && t in (iset x | x in s);
      }
    }
  }

  /** An unusable transaction in reach leaves no cut, and a cut leaves none in reach. */
  lemma CutNeedsUsable(store: Store, target: Txid, s: set<Txid>, t: Txid)
    requires IsReach(GraphOf(store), [target], s) && Closed(GraphOf(store), [target], s)
    requires Reaches(GraphOf(store), [target], t)
    ensures Usable(store, t)
  {
    assert t in GraphOf(store);
  }

  lemma {:induction false} MarkedGrows(g: Graph, proven: set<Txid>, members: set<Txid>, n: nat)
    ensures Marked(g, proven, members, n) <= Marked(g, proven, members, n + 1) <= members
  {
    if n > 0 {
      MarkedGrows(g, proven, members, n - 1);
    }
  }

  /** By the n-th turn `n` members are marked, or marking has ended. */
  lemma {:induction false} MarkedOrDone(g: Graph, proven: set<Txid>, members: set<Txid>, n: nat)
    ensures || |Marked(g, proven, members, n)| >= n
            || Marked(g, proven, members, n + 1) == Marked(g, proven, members, n)
  {
    if n > 0 {
      MarkedOrDone(g, proven, members, n - 1);
      MarkedGrows(g, proven, members, n - 1);
      var a, b := Marked(g, proven, members, n - 1), Marked(g, proven, members, n);
      if a != b {
        SizeGrows(a, b);
      } else {
        assert Marked(g, proven, members, n + 1) == b;
      }
    }
  }

  lemma SizeGrows(a: set<Txid>, b: set<Txid>)
    requires a < b
    ensures |a| < |b|
  {
    assert b == a + (b - a);
    assert b - a != {};
  }

  lemma {:induction false} DoneStays(g: Graph, proven: set<Txid>, members: set<Txid>, n: nat, m: nat)
    requires n <= m && Marked(g, proven, members, n + 1) == Marked(g, proven, members, n)
    ensures Marked(g, proven, members, m) == Marked(g, proven, members, n)
    decreases m
  {
    if n < m {
      DoneStays(g, proven, members, n, m - 1);
      if n < m - 1 {
        DoneStays(g, proven, members, n, m - 2);
      }
      assert m - 1 > n ==> Marked(g, proven, members, m - 1) == Marked(g, proven, members, m - 2);
    }
  }

  lemma {:induction false} MarkedLater(g: Graph, proven: set<Txid>, members: set<Txid>, n: nat, m: nat)
    requires n <= m
    ensures Marked(g, proven, members, n) <= Marked(g, proven, members, m)
    decreases m
  {
    if n < m {
      MarkedLater(g, proven, members, n, m - 1);
      MarkedGrows(g, proven, members, m - 1);
    }
  }

  /** As many turns as members are enough. */
  lemma MarkedEnough(g: Graph, proven: set<Txid>, members: set<Txid>, n: nat)
    ensures Marked(g, proven, members, n) <= Marked(g, proven, members, |members|)
  {
    var k := |members|;
    if n <= k {
      MarkedLater(g, proven, members, n, k);
    } else {
      MarkedOrDone(g, proven, members, k);
      MarkedGrows(g, proven, members, k);
      MarkedGrows(g, proven, members, n);
      var at := Marked(g, proven, members, k);
      if Marked(g, proven, members, k + 1) == at {
        DoneStays(g, proven, members, k, n);
      } else if at < members {
        SizeGrows(at, members);
      }
    }
  }

  /** The same order, on the members of a set. */
  ghost predicate RanksMembers(g: Graph, members: set<Txid>, rank: Txid -> nat) {
    forall t, u | t in members && Follows(g, t, u) :: rank(u) < rank(t)
  }

  lemma {:induction false} RankedIsMarked(
      g: Graph, roots: seq<Txid>, proven: set<Txid>, members: set<Txid>, rank: Txid -> nat, t: Txid)
    requires Closed(g, roots, members) && RanksMembers(g, members, rank) && t in members
    ensures t in Marked(g, proven, members, rank(t) + 1)
    decreases rank(t)
  {
    forall u | u in g[t] ensures u in Marked(g, proven, members, rank(t)) {
      assert Follows(g, t, u) && t in (iset x | x in members);
      RankedIsMarked(g, roots, proven, members, rank, u);
      MarkedLater(g, proven, members, rank(u) + 1, rank(t));
    }
  }

  /** Where members come after their inputs, a closed set always chains back to its proofs. */
  lemma AcyclicChains(store: Store, target: Txid, members: set<Txid>, rank: Txid -> nat)
    requires Closed(GraphOf(store), [target], members) && RanksMembers(GraphOf(store), members, rank)
    ensures Chained(store, members)
  {
    var g, proven := GraphOf(store), ProvenIn(store, members);
    forall t | t in members ensures t in Marked(g, proven, members, |members|) {
      RankedIsMarked(g, [target], proven, members, rank, t);
      MarkedEnough(g, proven, members, rank(t) + 1);
    }
    MarkedGrows(g, proven, members, |members|);
  }

  /** The turn a transaction is first marked, of the first `n`. */
  function TurnIn(g: Graph, proven: set<Txid>, members: set<Txid>, n: nat, t: Txid): (k: nat)
    ensures k <= n
  {
    if n == 0 then 0
    else if t in Marked(g, proven, members, n - 1) then TurnIn(g, proven, members, n - 1, t)
    else n
  }

  lemma {:induction false} FirstTurn(g: Graph, proven: set<Txid>, members: set<Txid>, n: nat, t: Txid)
    requires t in Marked(g, proven, members, n)
    ensures var k := TurnIn(g, proven, members, n, t);
            0 < k <= n && t in Marked(g, proven, members, k) && t !in Marked(g, proven, members, k - 1)
  {
    if t in Marked(g, proven, members, n - 1) {
      FirstTurn(g, proven, members, n - 1, t);
    }
  }

  lemma {:induction false} TurnAtMost(g: Graph, proven: set<Txid>, members: set<Txid>, n: nat, m: nat, t: Txid)
    requires m <= n && t in Marked(g, proven, members, m)
    ensures TurnIn(g, proven, members, n, t) <= m
    decreases n
  {
    if m < n {
      MarkedLater(g, proven, members, m, n - 1);
      TurnAtMost(g, proven, members, n - 1, m, t);
    }
  }

  /** What chains is ordered by the turn each member is marked in. */
  lemma ChainedIsRanked(store: Store, members: set<Txid>)
    requires Chained(store, members)
    ensures var g := GraphOf(store);
            RanksMembers(g, members, t => TurnIn(g, ProvenIn(store, members), members, |members|, t))
  {
    var g, proven, n := GraphOf(store), ProvenIn(store, members), |members|;
    forall t, u | t in members && Follows(g, t, u)
      ensures TurnIn(g, proven, members, n, u) < TurnIn(g, proven, members, n, t)
    {
      FirstTurn(g, proven, members, n, t);
      TurnAtMost(g, proven, members, n, TurnIn(g, proven, members, n, t) - 1, u);
    }
  }

  /** The last check passes exactly when the members can be put in an order, each after its unproven inputs. */
  lemma ChainedIffRanked(store: Store, target: Txid, members: set<Txid>)
    requires Closed(GraphOf(store), [target], members)
    ensures Chained(store, members) <==> exists rank :: RanksMembers(GraphOf(store), members, rank)
  {
    var g := GraphOf(store);
    if Chained(store, members) {
      ChainedIsRanked(store, members);
      var rank: Txid -> nat := t => TurnIn(g, ProvenIn(store, members), members, |members|, t);
      assert RanksMembers(g, members, rank);
    }
    if rank :| RanksMembers(g, members, rank) {
      AcyclicChains(store, target, members, rank);
    }
  }

  lemma {:induction false} PathDescends(
      g: Graph, roots: seq<Txid>, members: set<Txid>, rank: Txid -> nat, p: seq<Txid>)
    requires Closed(g, roots, members) && RanksMembers(g, members, rank) && Path(g, p) && p[0] in members
    ensures p[|p| - 1] in members && rank(p[|p| - 1]) + |p| <= rank(p[0]) + 1
  {
    if |p| > 1 {
      PathDescends(g, roots, members, rank, p[..|p| - 1]);
      assert p[|p| - 2] in (iset x | x in members);
    }
  }

  /** A cycle of unproven transactions, however long, and the last check fails though all is held and read. */
  lemma CycleNeverChains(store: Store, target: Txid, members: set<Txid>, p: seq<Txid>)
    requires Closed(GraphOf(store), [target], members)
    requires Path(GraphOf(store), p) && |p| > 1 && p[0] == p[|p| - 1] && p[0] in members
    ensures !Chained(store, members)
  {
    if Chained(store, members) {
      ChainedIffRanked(store, target, members);
      var rank :| RanksMembers(GraphOf(store), members, rank);
      PathDescends(GraphOf(store), [target], members, rank, p);
    }
  }

  /** So, acyclic, the cut fails exactly when the walk reaches a transaction it cannot use. */
  lemma AcyclicFailsOnlyOnUnusable(store: Store, target: Txid, rank: Txid -> nat, e: Error)
    requires Ranked(GraphOf(store), [target], rank) && Blocks(store, target, e)
    ensures !e.NotChained? && Reaches(GraphOf(store), [target], e.txid) && !Usable(store, e.txid)
  {
    if e.NotChained? {
      var g := GraphOf(store);
      var s :| IsReach(g, [target], s) && Closed(g, [target], s) && !Chained(store, s);
      AcyclicChains(store, target, s, rank);
    }
  }

  /**
   Where transactions come after their inputs, the cut is made exactly when everything the target
   reaches can be used.
   */
  lemma AcyclicCutsExactlyUsable(store: Store, target: Txid, rank: Txid -> nat, r: Result<Cut>)
    requires Ranked(GraphOf(store), [target], rank) && Answers(store, target, r)
    ensures r.Ok? <==> forall t | Reaches(GraphOf(store), [target], t) :: Usable(store, t)
  {
    if r.Ok? {
      forall t | Reaches(GraphOf(store), [target], t) ensures Usable(store, t) {
        CutNeedsUsable(store, target, r.value.Keys, t);
      }
    } else {
      AcyclicFailsOnlyOnUnusable(store, target, rank, r.error);
    }
  }

  // ---------------------------------------------------------------------------
  // The leaf
  // ---------------------------------------------------------------------------

  datatype BeefTx = BeefTx(txid: Txid, inputTxids: seq<Txid>)

  datatype Leaf = TheLeaf(txid: Txid) | NoLeaf | ManyLeaves(n: nat)

  function Txids(beef: seq<BeefTx>): set<Txid> {
    set t | t in beef :: t.txid
  }

  function Referenced(beef: seq<BeefTx>): set<Txid> {
    set t, u | t in beef && u in t.inputTxids :: u
  }

  function Leaves(beef: seq<BeefTx>): set<Txid> {
    Txids(beef) - Referenced(beef)
  }

  /** `find_leaf_txid`. */
  method FindLeaf(beef: seq<BeefTx>) returns (leaf: Leaf)
    ensures leaf.TheLeaf? <==> |Leaves(beef)| == 1
    ensures leaf.TheLeaf? ==>
              && (exists t :: t in beef && t.txid == leaf.txid)
              && (forall t | t in beef :: leaf.txid !in t.inputTxids)
              && (forall t | t in beef && t.txid != leaf.txid :: exists s :: s in beef && t.txid in s.inputTxids)
    ensures leaf.NoLeaf? <==> Leaves(beef) == {}
    ensures leaf.ManyLeaves? ==> leaf.n == |Leaves(beef)| > 1
  {
    var leaves := Leaves(beef);
    if |leaves| == 1 {
      var t :| t in leaves;
      leaf := TheLeaf(t);
      forall b | b in beef && b.txid != t ensures exists s :: s in beef && b.txid in s.inputTxids {
        if b.txid in leaves {
          assert {t, b.txid} <= leaves;
          OneOfOne(leaves, t, b.txid);
        }
      }
      assert exists b :: b in beef && b.txid == t;
    } else if |leaves| == 0 {
      leaf := NoLeaf;
    } else {
      leaf := ManyLeaves(|leaves|);
    }
  }

  lemma OneOfOne(s: set<Txid>, a: Txid, b: Txid)
    requires |s| == 1 && a in s && b in s
    ensures a == b
  {
    assert |s - {a}| == 0;
  }

  lemma {:induction false} HighestRank(beef: seq<BeefTx>, rank: Txid -> nat) returns (top: BeefTx)
    requires beef != []
    ensures top in beef && forall t | t in beef :: rank(t.txid) <= rank(top.txid)
  {
    top := beef[0];
    if |beef| > 1 {
      var later := HighestRank(beef[1..], rank);
      if rank(later.txid) > rank(top.txid) {
        top := later;
      }
      assert forall t | t in beef :: t == beef[0] || t in beef[1..];
    }
  }

  /** Only a cycle leaves a BEEF without a leaf. */
  lemma RankedHasLeaf(beef: seq<BeefTx>, rank: Txid -> nat)
    requires beef != []
    requires forall t, u | t in beef && u in t.inputTxids :: rank(u) < rank(t.txid)
    ensures Leaves(beef) != {}
  {
    var top := HighestRank(beef, rank);
    assert top.txid in Txids(beef);
    assert top.txid !in Referenced(beef);
    assert top.txid in Leaves(beef);
  }

  lemma ReachedIsReferenced(g: Graph, target: Txid, beef: seq<BeefTx>, t: Txid)
    requires IsReach(g, [target], Txids(beef)) && Reaches(g, [target], t)
    requires forall b, u | b in beef && Follows(g, b.txid, u) :: u in b.inputTxids
    ensures t == target || t in Referenced(beef)
  {
    var s := iset u | u in Txids(beef) && (u == target || u in Referenced(beef));
    forall u, v | u in s && Follows(g, u, v) ensures v in s {
      NextReached(g, [target], u, v);
      var b :| b in beef && b.txid == u;
      assert v in b.inputTxids;
    }
    assert Inductive(g, [target], s);
  }

  /** A cut's one leaf is the transaction it was cut for. */
  lemma LeafOfTheCut(g: Graph, target: Txid, beef: seq<BeefTx>, rank: Txid -> nat)
    requires Ranked(g, [target], rank) && IsReach(g, [target], Txids(beef))
    requires forall t, u | t in beef && u in t.inputTxids :: rank(u) < rank(t.txid)
    requires forall t, u | t in beef && Follows(g, t.txid, u) :: u in t.inputTxids
    ensures Leaves(beef) == {target}
  {
    forall t | Reaches(g, [target], t) ensures t == target || t in Referenced(beef) {
      ReachedIsReferenced(g, target, beef, t);
    }
    forall b | b in beef ensures target !in b.inputTxids {
      assert b.txid in Txids(beef);
      ReachDescends(g, rank, [target], rank(target) + 1, b.txid);
    }
    assert target in Txids(beef);
  }

  // ---------------------------------------------------------------------------
  // A respend's ancestry
  // ---------------------------------------------------------------------------

  /** The input BEEF as a respend walks it: any bump, or a proof of its own, ends the walk. */
  function AncestryOf(txs: map<Txid, Stored>): Graph {
    map t | t in txs && txs[t].Tx? && txs[t].raw.Inputs? ::
      if txs[t].attached || txs[t].bump.Some? then [] else txs[t].raw.sources
  }

  /** A respend's walk: from a transaction that reads and has no proof of any kind, to each of its inputs. */
  lemma AncestryIsByTheBytes(txs: map<Txid, Stored>, t: Txid, u: Txid)
    ensures Follows(AncestryOf(txs), t, u) <==> HasInput(txs, t, u) && txs[t].bump.None? && !txs[t].attached
    ensures t in AncestryOf(txs) <==> t in txs && txs[t].Tx? && txs[t].raw.Inputs?
  {
  }

  /** The phantom's inputs and their unproven ancestry, or none of it when any is not there. */
  method KeepSet(txs: map<Txid, Stored>, inputs: seq<Txid>) returns (keep: Option<set<Txid>>)
    ensures keep.Some? <==> forall t | Reaches(AncestryOf(txs), inputs, t) :: t in AncestryOf(txs)
    ensures keep.Some? ==> IsReach(AncestryOf(txs), inputs, keep.value) && Closed(AncestryOf(txs), inputs, keep.value)
  {
    var g := AncestryOf(txs);
    var seen, pending := {}, inputs;
    while pending != []
      invariant Walking(g, inputs, seen, pending)
      decreases |Unseen(g, seen)|, |pending|
    {
      WalkGoesOn(g, inputs, seen, pending);
      var id := pending[|pending| - 1];
      pending := pending[..|pending| - 1];
      if id in seen {
        continue;
      }
      if id !in txs || !txs[id].Tx? || !txs[id].raw.Inputs? {
        return None;
      }
      if !txs[id].attached && txs[id].bump.None? {
        pending := pending + txs[id].raw.sources;
      } else {
        assert g[id] == [] && pending + [] == pending;
      }
      UnseenShrinks(g, seen, id);
      seen := seen + {id};
    }
    WalkEnds(g, inputs, seen);
    keep := Some(seen);
  }

  /** The phantom never rides in the ancestry of its replacement. */
  lemma PhantomNeverKept(g: Graph, phantom: Txid, inputs: seq<Txid>, rank: Txid -> nat, keep: set<Txid>)
    requires Ranked(g, inputs, rank) && IsReach(g, inputs, keep)
    requires forall u | u in inputs :: rank(u) < rank(phantom)
    ensures phantom !in keep
    ensures forall t | t in keep :: rank(t) < rank(phantom)
  {
    forall t | t in keep ensures rank(t) < rank(phantom) {
      ReachDescends(g, rank, inputs, rank(phantom), t);
    }
  }
}
