/** The depth-covering ask: the volume-weighted price of the fewest levels that cover a depth. */
module BestAsk {
  import opened NonLinear
  import opened Prelude

  /** One ask level, price and size in WAD. */
  datatype Level = Level(px: nat, sz: nat)

  datatype Ask = Ask(priceWad: nat, depthWad: nat, vwapWad: nat)

  /** Size of the first `k` levels. */
  function Size(asks: seq<Level>, k: nat): nat
    requires k <= |asks|
  {
    if k == 0 then 0 else Size(asks, k - 1) + asks[k - 1].sz
  }

  function Cost(l: Level): nat {
    l.px * l.sz
  }

  /** Price times size over the first `k` levels. */
  function Notional(asks: seq<Level>, k: nat): nat
    requires k <= |asks|
  {
    if k == 0 then 0 else Notional(asks, k - 1) + Cost(asks[k - 1])
  }

  predicate Covers(asks: seq<Level>, k: nat, minDepth: nat)
    requires k <= |asks|
  {
    Size(asks, k) > 0 && Size(asks, k) >= minDepth
  }

  /** `k` levels cover the depth, and fewer do not. */
  predicate FirstCover(asks: seq<Level>, k: nat, minDepth: nat)
    requires k <= |asks|
  {
    Covers(asks, k, minDepth) && (k > 0 ==> !Covers(asks, k - 1, minDepth))
  }

  function Vwap(asks: seq<Level>, k: nat): nat
    requires k <= |asks| && Size(asks, k) > 0
  {
    Notional(asks, k) / Size(asks, k)
  }

  predicate Answers(asks: seq<Level>, k: nat, minDepth: nat, ask: Ask)
    requires 0 < k <= |asks|
  {
    FirstCover(asks, k, minDepth)
    && ask == Ask(Max(Vwap(asks, k), asks[0].px), Size(asks, k), Vwap(asks, k))
  }

  /** infoApi.ts bestAsk. It answers exactly when the whole book has size and covers the depth, and
      then with the price of the fewest covering levels, never below the best ask. */
  method FindBestAsk(asks: seq<Level>, minDepth: nat) returns (ask: Option<Ask>)
    ensures ask.None? <==> Size(asks, |asks|) == 0 || Size(asks, |asks|) < minDepth
    ensures ask.Some? ==> exists k | 0 < k <= |asks| :: Answers(asks, k, minDepth, ask.value)
  {
    if |asks| == 0 {
      return None;
    }
    var bestPx, cumSz, cumNotional := asks[0].px, 0, 0;
    for i := 0 to |asks|
      invariant cumSz == Size(asks, i) && cumNotional == Notional(asks, i)
      invariant !Covers(asks, i, minDepth)
    {
      cumSz := cumSz + asks[i].sz;
      cumNotional := cumNotional + Cost(asks[i]);
      if cumSz > 0 && cumSz >= minDepth {
        var vwap := cumNotional / cumSz;
        ask := Some(Ask(if vwap > bestPx then vwap else bestPx, cumSz, vwap));
        assert Answers(asks, i + 1, minDepth, ask.value);
        SizeGrows(asks, i + 1, |asks|);
        return;
      }
    }
    return None;
  }

  lemma {:induction false} SizeGrows(asks: seq<Level>, j: nat, k: nat)
    requires j <= k <= |asks|
    ensures Size(asks, j) <= Size(asks, k)
    decreases k
  {
    if j < k {
      SizeGrows(asks, j, k - 1);
    }
  }

  predicate Ascending(asks: seq<Level>) {
    forall i, j :: 0 <= i <= j < |asks| ==> asks[i].px <= asks[j].px
  }

  /** In an ascending book a prefix costs at least the best ask and at most its last level. */
  lemma {:induction false} NotionalBounds(asks: seq<Level>, k: nat)
    requires Ascending(asks) && 0 < k <= |asks|
    ensures asks[0].px * Size(asks, k) <= Notional(asks, k) <= asks[k - 1].px * Size(asks, k)
  {
    if k == 1 {
      assert Size(asks, 0) == 0 && Notional(asks, 0) == 0;
    } else {
      NotionalBounds(asks, k - 1);
      LevelBounds(asks[0].px, asks[k - 2].px, asks[k - 1], Notional(asks, k - 1), Size(asks, k - 1));
    }
  }

  lemma LevelBounds(lo: nat, last: nat, l: Level, n: nat, s: nat)
    requires lo * s <= n <= last * s && lo <= last <= l.px
    ensures lo * (s + l.sz) <= n + Cost(l) <= l.px * (s + l.sz)
  {
    MulLe(lo, l.px, l.sz);
    MulLe(last, l.px, s);
  }

  /** Taking one more level never lowers the average. */
  lemma VwapStep(asks: seq<Level>, k: nat)
    requires Ascending(asks) && 0 < k < |asks| && Size(asks, k) > 0
    ensures Size(asks, k + 1) > 0 && Vwap(asks, k) <= Vwap(asks, k + 1)
  {
    NotionalBounds(asks, k);
    MulLe(asks[k - 1].px, asks[k].px, Size(asks, k));
    AverageGrows(Notional(asks, k), Size(asks, k), asks[k].px, asks[k].sz);
  }

  lemma {:induction false} VwapGrows(asks: seq<Level>, j: nat, k: nat)
    requires Ascending(asks) && 0 < j <= k <= |asks| && Size(asks, j) > 0
    ensures Size(asks, k) > 0 && Vwap(asks, j) <= Vwap(asks, k)
    decreases k
  {
    if j < k {
      VwapGrows(asks, j, k - 1);
      VwapStep(asks, k - 1);
    }
  }

  /** For an ascending book the answer lies between the best ask and the last level consumed. */
  lemma AskIsBetweenBestAndLast(asks: seq<Level>, k: nat, minDepth: nat)
    requires Ascending(asks) && 0 < k <= |asks| && FirstCover(asks, k, minDepth)
    ensures asks[0].px <= Vwap(asks, k) <= asks[k - 1].px
    ensures Max(Vwap(asks, k), asks[0].px) == Vwap(asks, k)
  {
    NotionalBounds(asks, k);
    DivGalois(Notional(asks, k), Size(asks, k), asks[0].px);
    MulLe(asks[k - 1].px, asks[k - 1].px + 1, Size(asks, k));
    assert (asks[k - 1].px + 1) * Size(asks, k) == asks[k - 1].px * Size(asks, k) + Size(asks, k);
    DivGalois(Notional(asks, k), Size(asks, k), asks[k - 1].px + 1);
  }

  /** And it never falls as more depth is asked for. */
  lemma AskGrowsWithDepth(asks: seq<Level>, d1: nat, d2: nat, k1: nat, k2: nat)
    requires Ascending(asks) && d1 <= d2
    requires 0 < k1 <= |asks| && FirstCover(asks, k1, d1)
    requires 0 < k2 <= |asks| && FirstCover(asks, k2, d2)
    ensures k1 <= k2 && Max(Vwap(asks, k1), asks[0].px) <= Max(Vwap(asks, k2), asks[0].px)
  {
    if k2 < k1 {
      SizeGrows(asks, k2, k1 - 1);
    }
    VwapGrows(asks, k1, k2);
  }

  // ----------------------------------------------------- the answer, in sums

  /** What is on offer at these levels, and what buying all of it costs. */
  function OnOffer(levels: seq<Level>): nat {
    if levels == [] then 0 else levels[0].sz + OnOffer(levels[1..])
  }

  function CostOfAll(levels: seq<Level>): nat {
    if levels == [] then 0 else levels[0].px * levels[0].sz + CostOfAll(levels[1..])
  }

  lemma {:induction false} SumsSplit(levels: seq<Level>, l: Level)
    ensures OnOffer(levels + [l]) == OnOffer(levels) + l.sz
    ensures CostOfAll(levels + [l]) == CostOfAll(levels) + l.px * l.sz
    decreases |levels|
  {
    if levels == [] {
      assert levels + [l] == [l] && [l][1..] == [];
    } else {
      assert (levels + [l])[1..] == levels[1..] + [l];
      SumsSplit(levels[1..], l);
    }
  }

  lemma {:induction false} PrefixSums(asks: seq<Level>, k: nat)
    requires k <= |asks|
    ensures Size(asks, k) == OnOffer(asks[..k]) && Notional(asks, k) == CostOfAll(asks[..k])
    decreases k
  {
    if k > 0 {
      PrefixSums(asks, k - 1);
      SumsSplit(asks[..k - 1], asks[k - 1]);
      assert asks[..k] == asks[..k - 1] + [asks[k - 1]];
    }
  }

  /** The answer is for buying out the fewest best levels that offer something and offer the depth:
      the depth is all they offer, the average is what that costs by unit, rounded down, and the
      price is the average, but never below the best ask. */
  lemma AskInFull(asks: seq<Level>, k: nat, minDepth: nat, ask: Ask)
    requires 0 < k <= |asks|
    ensures Answers(asks, k, minDepth, ask) <==>
      (var depth, cost, before := OnOffer(asks[..k]), CostOfAll(asks[..k]), OnOffer(asks[..k - 1]);
       && 0 < depth && minDepth <= depth && (before == 0 || before < minDepth)
       && ask.depthWad == depth
       && ask.vwapWad * depth <= cost < (ask.vwapWad + 1) * depth
       && ask.priceWad == if ask.vwapWad > asks[0].px then ask.vwapWad else asks[0].px)
  {
    PrefixSums(asks, k);
    PrefixSums(asks, k - 1);
    if Size(asks, k) > 0 {
      DivGalois(Notional(asks, k), Size(asks, k), ask.vwapWad);
      DivGalois(Notional(asks, k), Size(asks, k), ask.vwapWad + 1);
    }
  }
}
