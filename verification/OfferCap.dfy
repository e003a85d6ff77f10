/** What the offer's cap keeps, and why a wider read is never worth less under it. */
module OfferCap {
  import opened Prelude
  import opened SpendGate

  /** `xs` is `ys` with some elements left out. */
  predicate Sub<T(==)>(xs: seq<T>, ys: seq<T>)
    decreases |ys|
  {
    if xs == [] then true
    else if ys == [] then false
    else
      || (xs[|xs| - 1] == ys[|ys| - 1] && Sub(xs[..|xs| - 1], ys[..|ys| - 1]))
      || Sub(xs, ys[..|ys| - 1])
  }

  lemma {:induction false} SubRefl<T>(xs: seq<T>)
    ensures Sub(xs, xs)
  {
    if xs != [] {
      SubRefl(xs[..|xs| - 1]);
    }
  }

  lemma {:induction false} SubTrans<T>(xs: seq<T>, ys: seq<T>, zs: seq<T>)
    requires Sub(xs, ys) && Sub(ys, zs)
    ensures Sub(xs, zs)
    decreases |ys| + |zs|
  {
    if xs != [] {
      var xf, yf, zf := xs[..|xs| - 1], ys[..|ys| - 1], zs[..|zs| - 1];
      if Sub(ys, zf) {
        SubTrans(xs, ys, zf);
      } else if Sub(xs, yf) {
        SubTrans(xs, yf, zf);
      } else {
        SubTrans(xf, yf, zf);
      }
    }
  }

  lemma {:induction false} SubAppend<T>(xs: seq<T>, ys: seq<T>, z: T)
    requires Sub(xs, ys)
    ensures Sub(xs + [z], ys + [z]) && Sub(xs, ys + [z])
  {
    assert (xs + [z])[..|xs|] == xs && (ys + [z])[..|ys|] == ys;
  }

  // ---------------------------------------------------------------------------
  // What is kept
  // ---------------------------------------------------------------------------

  lemma {:induction false} KeptIsSub(coins: seq<Coin>, keep: seq<bool>)
    requires |keep| == |coins|
    ensures Sub(Kept(coins, keep), coins)
  {
    if coins != [] {
      var n := |coins| - 1;
      KeptIsSub(coins[..n], keep[..n]);
      SubAppend(Kept(coins[..n], keep[..n]), coins[..n], coins[n]);
      assert coins == coins[..n] + [coins[n]];
      assert Kept(coins[..n], keep[..n]) + [] == Kept(coins[..n], keep[..n]);
    }
  }

  lemma KeptAppend(coins: seq<Coin>, keep: seq<bool>, c: Coin, b: bool)
    requires |keep| == |coins|
    ensures Kept(coins + [c], keep + [b]) == if b then Kept(coins, keep) + [c] else Kept(coins, keep)
  {
    assert (coins + [c])[..|coins|] == coins && (keep + [b])[..|keep|] == keep;
  }

  /** What one coin more adds to what is kept, or to what is dropped. */
  lemma KeptOrDropped(coins: seq<Coin>, keep: seq<bool>, c: Coin, b: bool)
    requires |keep| == |coins|
    ensures var kept, dropped := Kept(coins, keep), Kept(coins, Flipped(keep));
            && Kept(coins + [c], keep + [b]) == (if b then kept + [c] else kept)
            && Kept(coins + [c], Flipped(keep + [b])) == (if b then dropped else dropped + [c])
  {
    assert Flipped(keep + [b]) == Flipped(keep) + [!b];
    KeptAppend(coins, keep, c, b);
    KeptAppend(coins, Flipped(keep), c, !b);
  }

  /** What is kept and what is dropped make up the coins, in number and in worth. */
  ghost predicate Splits(coins: seq<Coin>, keep: seq<bool>)
    requires |keep| == |coins|
  {
    var kept, dropped := Kept(coins, keep), Kept(coins, Flipped(keep));
    |kept| + |dropped| == |coins| && Sats(kept) + Sats(dropped) == Sats(coins)
  }

  lemma OneMoreSplit(coins: seq<Coin>, keep: seq<bool>, c: Coin, b: bool)
    requires |keep| == |coins| && Splits(coins, keep)
    ensures Splits(coins + [c], keep + [b])
  {
    KeptOrDropped(coins, keep, c, b);
    SatsAppend(coins, c);
    SatsAppend(if b then Kept(coins, keep) else Kept(coins, Flipped(keep)), c);
  }

  lemma LastCoin(coins: seq<Coin>, keep: seq<bool>)
    requires |keep| == |coins| && coins != []
    ensures coins == coins[..|coins| - 1] + [coins[|coins| - 1]]
    ensures keep == keep[..|keep| - 1] + [keep[|keep| - 1]]
  {
  }

  lemma {:induction false} AllSplit(coins: seq<Coin>, keep: seq<bool>, i: nat)
    requires |keep| == |coins| && i <= |coins|
    ensures Splits(coins[..i], keep[..i])
  {
    if i > 0 {
      AllSplit(coins, keep, i - 1);
      LastCoin(coins[..i], keep[..i]);
      assert coins[..i][..i - 1] == coins[..i - 1] && keep[..i][..i - 1] == keep[..i - 1];
      OneMoreSplit(coins[..i - 1], keep[..i - 1], coins[i - 1], keep[i - 1]);
    }
  }

  lemma {:induction false} KeptSplits(coins: seq<Coin>, keep: seq<bool>)
    requires |keep| == |coins|
    ensures |Kept(coins, keep)| + |Kept(coins, Flipped(keep))| == |coins|
    ensures Sats(Kept(coins, keep)) + Sats(Kept(coins, Flipped(keep))) == Sats(coins)
  {
    AllSplit(coins, keep, |coins|);
    assert coins[..|coins|] == coins && keep[..|keep|] == keep;
  }

  ghost function Elems(order: seq<nat>): set<nat> {
    set a | a in order
  }

  lemma {:induction false} ElemsOfSorted(coins: seq<Coin>, order: seq<nat>, cap: nat)
    requires Sorted(coins, order) && cap <= |order|
    ensures |Elems(order[..cap])| == cap
  {
    if cap > 0 {
      var tail := order[1..];
      ElemsOfSorted(coins, tail, cap - 1);
      assert order[..cap] == [order[0]] + tail[..cap - 1];
      assert Elems(order[..cap]) == {order[0]} + Elems(tail[..cap - 1]);
      assert forall b | b in tail[..cap - 1] :: b in tail;
    } else {
      assert Elems(order[..cap]) == {};
    }
  }

  lemma {:induction false} SortedSplit(coins: seq<Coin>, order: seq<nat>, cap: nat)
    requires Sorted(coins, order) && cap <= |order|
    ensures forall a, b | a in order[..cap] && b in order[cap..] :: Worth(coins, a) >= Worth(coins, b)
    ensures forall a | a in order[..cap] :: a !in order[cap..]
  {
    if cap > 0 {
      var tail := order[1..];
      SortedSplit(coins, tail, cap - 1);
      assert order[..cap] == [order[0]] + tail[..cap - 1] && order[cap..] == tail[cap - 1..];
      assert forall b | b in order[cap..] :: b in tail;
    }
  }

  ghost function Marks(keep: seq<bool>): set<nat> {
    set i: nat | i < |keep| && keep[i]
  }

  lemma OneMoreMark(keep: seq<bool>, b: bool)
    ensures Marks(keep + [b]) == Marks(keep) + (if b then {|keep|} else {})
  {
  }

  lemma {:induction false} KeptCount(coins: seq<Coin>, keep: seq<bool>)
    requires |keep| == |coins|
    ensures |Kept(coins, keep)| == |Marks(keep)|
  {
    if coins == [] {
      assert Marks(keep) == {};
    } else {
      var n := |coins| - 1;
      KeptCount(coins[..n], keep[..n]);
      assert keep == keep[..n] + [keep[n]];
      OneMoreMark(keep[..n], keep[n]);
    }
  }

  /** The mask keeps `cap` coins, each worth at least every one it drops. */
  lemma MaskKeepsLargest(coins: seq<Coin>, cap: nat)
    requires cap <= |coins|
    ensures var keep := KeepMask(coins, cap);
            && |Kept(coins, keep)| == cap
            && forall i, j | 0 <= i < |coins| && 0 <= j < |coins| && keep[i] && !keep[j] ::
                 coins[i].sats >= coins[j].sats
  {
    var order, keep := ByValue(coins, |coins|), KeepMask(coins, cap);
    ByValueSorts(coins, |coins|);
    SortedSplit(coins, order, cap);
    ElemsOfSorted(coins, order, cap);
    KeptCount(coins, keep);
    assert order == order[..cap] + order[cap..];
    assert forall a | a in order[..cap] :: a in order;
    assert Marks(keep) == Elems(order[..cap]);
    forall i, j | 0 <= i < |coins| && 0 <= j < |coins| && keep[i] && !keep[j]
      ensures coins[i].sats >= coins[j].sats
    {
      assert j in order;
      assert Worth(coins, i) >= Worth(coins, j);
    }
  }

  // ---------------------------------------------------------------------------
  // The cap's offer is the most any so few coins are worth
  // ---------------------------------------------------------------------------

  /** What the coins are worth above a floor, those below it left out. */
  ghost function Above(coins: seq<Coin>, floor: nat): nat {
    if coins == [] then 0
    else
      var c := coins[|coins| - 1].sats;
      Above(coins[..|coins| - 1], floor) + (if c > floor then c - floor else 0)
  }

  lemma {:induction false} SubIsAbove(zs: seq<Coin>, ys: seq<Coin>, floor: nat)
    requires Sub(zs, ys)
    ensures Sats(zs) <= Above(ys, floor) + floor * |zs|
    decreases |ys|
  {
    if zs != [] {
      var zf, yf := zs[..|zs| - 1], ys[..|ys| - 1];
      if Sub(zs, yf) {
        SubIsAbove(zs, yf, floor);
      } else {
        SubIsAbove(zf, yf, floor);
        assert floor * |zs| == floor * |zf| + floor;
      }
    }
  }

  lemma {:induction false} KeptIsAbove(coins: seq<Coin>, keep: seq<bool>, floor: nat)
    requires |keep| == |coins|
    requires forall i | 0 <= i < |coins| ::
               if keep[i] then coins[i].sats >= floor else coins[i].sats <= floor
    ensures Sats(Kept(coins, keep)) == Above(coins, floor) + floor * |Kept(coins, keep)|
  {
    if coins != [] {
      var n := |coins| - 1;
      KeptIsAbove(coins[..n], keep[..n], floor);
      var kept := Kept(coins[..n], keep[..n]);
      if keep[n] {
        SatsAppend(kept, coins[n]);
        assert floor * (|kept| + 1) == floor * |kept| + floor;
      } else {
        assert Kept(coins, keep) == kept;
      }
    }
  }

  lemma {:induction false} Floor(coins: seq<Coin>, keep: seq<bool>) returns (floor: nat)
    requires |keep| == |coins|
    requires forall i, j | 0 <= i < |coins| && 0 <= j < |coins| && keep[i] && !keep[j] ::
               coins[i].sats >= coins[j].sats
    ensures forall i | 0 <= i < |coins| ::
              if keep[i] then coins[i].sats >= floor else coins[i].sats <= floor
  {
    if coins == [] {
      floor := 0;
    } else {
      var n := |coins| - 1;
      floor := Floor(coins[..n], keep[..n]);
      var c := coins[n].sats;
      if keep[n] && c < floor {
        floor := c;
      } else if !keep[n] && c > floor {
        floor := c;
      }
    }
  }

  function CappedCoins(coins: seq<Coin>, cap: nat): seq<Coin> {
    if |coins| <= cap then coins else Kept(coins, KeepMask(coins, cap))
  }

  /** No choice of at most `cap` of the coins is worth more than the cap's. */
  lemma CapIsBest(zs: seq<Coin>, ys: seq<Coin>, cap: nat)
    requires Sub(zs, ys) && |zs| <= cap
    ensures Sats(zs) <= Sats(CappedCoins(ys, cap))
  {
    if |ys| <= cap {
      SubIsAbove(zs, ys, 0);
      AboveZero(ys);
    } else {
      var keep := KeepMask(ys, cap);
      MaskKeepsLargest(ys, cap);
      var floor := Floor(ys, keep);
      SubIsAbove(zs, ys, floor);
      KeptIsAbove(ys, keep, floor);
      Scales(floor, |zs|, cap);
    }
  }

  lemma Scales(x: nat, a: nat, b: nat)
    requires a <= b
    ensures x * a <= x * b
  {
  }

  lemma {:induction false} AboveZero(ys: seq<Coin>)
    ensures Above(ys, 0) == Sats(ys)
  {
    if ys != [] {
      AboveZero(ys[..|ys| - 1]);
    }
  }

  /** The capped offer never loses worth to a wider read. */
  lemma CapIsMonotone(xs: seq<Coin>, ys: seq<Coin>, cap: nat)
    requires Sub(xs, ys)
    ensures Sats(CappedCoins(xs, cap)) <= Sats(CappedCoins(ys, cap))
  {
    if |xs| <= cap {
      CapIsBest(xs, ys, cap);
    } else {
      MaskKeepsLargest(xs, cap);
      KeptIsSub(xs, KeepMask(xs, cap));
      SubTrans(CappedCoins(xs, cap), xs, ys);
      CapIsBest(CappedCoins(xs, cap), ys, cap);
    }
  }

  /**
   The cap: at most `cap` coins stay, in the order read, each worth at least every coin left
   out; what is left out is unread and counted, and no coin and no satoshi is lost.
   */
  lemma CapOfferConserves(out: Assessment, cap: nat)
    ensures var after := CapOffer(out, cap);
            && |after.offered| <= cap && Sub(after.offered, out.offered) && after.held == out.held
            && (|out.offered| <= cap <==> after == out)
            && (|out.offered| > cap ==>
                  && after.capped.Some? && |after.offered| == cap
                  && |after.offered| + after.capped.value.coins == |out.offered|
                  && Sats(after.offered) + after.capped.value.sats == Sats(out.offered)
                  && |after.unread| == |out.unread| + after.capped.value.coins)
            && multiset(Ids(after.offered)) + multiset(after.unread)
               == multiset(Ids(out.offered)) + multiset(out.unread)
  {
    if |out.offered| > cap {
      var keep := KeepMask(out.offered, cap);
      MaskKeepsLargest(out.offered, cap);
      KeptIsSub(out.offered, keep);
      KeptSplits(out.offered, keep);
      DroppedIds(out, keep);
    } else {
      SubRefl(out.offered);
    }
  }

  lemma {:induction false} KeptMembers(coins: seq<Coin>, keep: seq<bool>)
    requires |keep| == |coins|
    ensures forall c | c in Kept(coins, keep) :: exists i :: 0 <= i < |coins| && keep[i] && coins[i] == c
    ensures forall i | 0 <= i < |coins| && keep[i] :: coins[i] in Kept(coins, keep)
  {
    if coins != [] {
      var n := |coins| - 1;
      KeptMembers(coins[..n], keep[..n]);
      forall c | c in Kept(coins, keep) ensures exists i :: 0 <= i < |coins| && keep[i] && coins[i] == c {
        if c in Kept(coins[..n], keep[..n]) {
          var i :| 0 <= i < n && keep[..n][i] && coins[..n][i] == c;
          assert keep[i] && coins[i] == c;
        } else {
          assert keep[n] && coins[n] == c;
        }
      }
      forall i | 0 <= i < |coins| && keep[i] ensures coins[i] in Kept(coins, keep) {
        assert i < n ==> keep[..n][i] && coins[..n][i] == coins[i];
      }
    }
  }

  /** A coin leaves the offer only from a full one of coins worth no less. */
  lemma OnlyTheSmallestGo(out: Assessment, cap: nat, coin: Coin)
    requires coin in out.offered
    ensures var after := CapOffer(out, cap);
            coin in after.offered || (|after.offered| == cap && forall c | c in after.offered :: c.sats >= coin.sats)
  {
    if |out.offered| > cap {
      var keep := KeepMask(out.offered, cap);
      MaskKeepsLargest(out.offered, cap);
      KeptMembers(out.offered, keep);
      var j :| 0 <= j < |out.offered| && out.offered[j] == coin;
      if !keep[j] {
        forall c | c in Kept(out.offered, keep) ensures c.sats >= coin.sats {
          var i :| 0 <= i < |out.offered| && keep[i] && out.offered[i] == c;
        }
      }
    }
  }

  lemma DroppedIds(out: Assessment, keep: seq<bool>)
    requires |keep| == |out.offered|
    ensures multiset(Ids(Kept(out.offered, keep))) + multiset(out.unread + Ids(Kept(out.offered, Flipped(keep))))
         == multiset(Ids(out.offered)) + multiset(out.unread)
  {
    KeptIds(out.offered, keep);
  }

  ghost function IdBag(coins: seq<Coin>): multiset<int> { multiset(Ids(coins)) }

  lemma OneMoreInBag(coins: seq<Coin>, c: Coin)
    ensures IdBag(coins + [c]) == IdBag(coins) + multiset{c.id}
  {
    IdsAppend(coins, c);
  }

  ghost predicate SplitsIds(coins: seq<Coin>, keep: seq<bool>)
    requires |keep| == |coins|
  {
    IdBag(Kept(coins, keep)) + IdBag(Kept(coins, Flipped(keep))) == IdBag(coins)
  }

  lemma OneMoreId(coins: seq<Coin>, keep: seq<bool>, c: Coin, b: bool)
    requires |keep| == |coins| && SplitsIds(coins, keep)
    ensures SplitsIds(coins + [c], keep + [b])
  {
    KeptOrDropped(coins, keep, c, b);
    OneMoreInBag(coins, c);
    OneMoreInBag(if b then Kept(coins, keep) else Kept(coins, Flipped(keep)), c);
  }

  lemma {:induction false} AllIdsSplit(coins: seq<Coin>, keep: seq<bool>, i: nat)
    requires |keep| == |coins| && i <= |coins|
    ensures SplitsIds(coins[..i], keep[..i])
  {
    if i > 0 {
      AllIdsSplit(coins, keep, i - 1);
      LastCoin(coins[..i], keep[..i]);
      assert coins[..i][..i - 1] == coins[..i - 1] && keep[..i][..i - 1] == keep[..i - 1];
      OneMoreId(coins[..i - 1], keep[..i - 1], coins[i - 1], keep[i - 1]);
    }
  }

  lemma {:induction false} KeptIds(coins: seq<Coin>, keep: seq<bool>)
    requires |keep| == |coins|
    ensures multiset(Ids(Kept(coins, keep))) + multiset(Ids(Kept(coins, Flipped(keep)))) == multiset(Ids(coins))
  {
    AllIdsSplit(coins, keep, |coins|);
    assert coins[..|coins|] == coins && keep[..|keep|] == keep;
  }
}
