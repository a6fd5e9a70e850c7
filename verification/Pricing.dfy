/** The writer's fixed-point pricing: the joint probability of independent legs, the edge, the
    payout, and the stake it suggests when an exposure cap turns a quote down. */
module Pricing {
  import opened NonLinear
  import opened Prelude

  // ------------------------------------------------------------ joint probability

  /** pricing.ts independentJointProbWad: a left fold that floors at every leg. */
  function JointProbWad(prices: seq<nat>): nat
    decreases |prices|
  {
    if prices == [] then WAD else JointProbWad(prices[..|prices| - 1]) * prices[|prices| - 1] / WAD
  }

  /** The same loop. */
  method IndependentJointProbWad(prices: seq<nat>) returns (acc: nat)
    ensures acc == JointProbWad(prices)
  {
    acc := WAD;
    for i := 0 to |prices|
      invariant acc == JointProbWad(prices[..i])
    {
      assert prices[..i + 1][..i] == prices[..i];
      acc := acc * prices[i] / WAD;
    }
    assert prices[..|prices|] == prices;
  }

  /** The exact product of the probabilities, in WAD. */
  function Exact(prices: seq<nat>): real
    decreases |prices|
  {
    if prices == [] then WAD as real
    else Exact(prices[..|prices| - 1]) * (prices[|prices| - 1] as real) / (WAD as real)
  }

  predicate Probabilities(prices: seq<nat>) {
    forall i :: 0 <= i < |prices| ==> prices[i] <= WAD
  }

  /** One floored multiplication by a probability: it loses less than one wei, and never grows. */
  lemma FloorStep(acc: nat, exact: real, p: nat, slack: real)
    requires p <= WAD && 0.0 <= exact - acc as real <= slack
    ensures var next := exact * (p as real) / (WAD as real);
      0.0 <= next - (acc * p / WAD) as real < slack + 1.0
    ensures acc * p / WAD <= acc && (acc <= WAD ==> acc * p / WAD <= p)
  {
    var w := WAD as real;
    var q := acc * p / WAD;
    var share := (p as real) / w;
    assert 0.0 <= share <= 1.0;
    DivBounds(acc * p, WAD);
    assert q as real * w <= (acc * p) as real < (q as real + 1.0) * w;
    var err := exact - acc as real;
    assert 0.0 <= err * share <= slack by {
      RealShare(err, share, slack);
    }
    assert exact * (p as real) / w == (acc as real) * (p as real) / w + err * share;
    assert (acc * p) as real == (acc as real) * (p as real);
    FloorStepNat(acc, p);
  }

  lemma RealShare(err: real, share: real, slack: real)
    requires 0.0 <= err <= slack && 0.0 <= share <= 1.0
    ensures 0.0 <= err * share <= slack
  {
    assert err * share <= err * 1.0;
  }

  lemma FloorStepNat(acc: nat, p: nat)
    requires p <= WAD
    ensures acc * p / WAD <= acc && (acc <= WAD ==> acc * p / WAD <= p)
  {
    PortionWithin(p, acc, WAD);
    if acc <= WAD {
      PortionWithin(acc, p, WAD);
    }
  }

  lemma FirstLegIsExact(p: nat)
    ensures JointProbWad([p]) == p && Exact([p]) == p as real
  {
    assert [p][..0] == [];
    DivIs(WAD * p, WAD, p);
    var w := WAD as real;
    assert w * (p as real) / w == p as real;
  }

  /** The floored fold is at most every leg price, and at most n - 1 wei below the exact product:
      the first leg costs nothing, every further leg less than one wei. */
  lemma {:induction false} JointProbIsTight(prices: seq<nat>)
    requires prices != [] && Probabilities(prices)
    ensures forall i :: 0 <= i < |prices| ==> JointProbWad(prices) <= prices[i]
    ensures 0.0 <= Exact(prices) - JointProbWad(prices) as real <= (|prices| - 1) as real
    decreases |prices|
  {
    var n := |prices| - 1;
    var init, last := prices[..n], prices[n];
    if n == 0 {
      assert prices == [last];
      FirstLegIsExact(last);
    } else {
      JointProbIsTight(init);
      var acc := JointProbWad(init);
      assert acc <= init[0];
      FloorStep(acc, Exact(init), last, (n - 1) as real);
      forall i | 0 <= i < |prices| ensures JointProbWad(prices) <= prices[i] {
        assert i < n ==> acc <= init[i];
      }
    }
  }

  /** The exact product does not depend on the order of the legs. */
  lemma {:induction false} ExactSplit(prices: seq<nat>, i: nat)
    requires i < |prices|
    ensures Exact(prices) == Exact(prices[..i] + prices[i + 1..]) * (prices[i] as real) / (WAD as real)
    decreases |prices|
  {
    var n := |prices| - 1;
    var rest := prices[..i] + prices[i + 1..];
    if i == n {
      assert rest == prices[..n];
    } else {
      var init := prices[..n];
      ExactSplit(init, i);
      assert init[..i] + init[i + 1..] == rest[..n - 1];
      assert rest[n - 1] == prices[n];
    }
  }

  lemma MatchLast(a: seq<nat>, b: seq<nat>) returns (i: nat)
    requires a != [] && multiset(a) == multiset(b)
    ensures i < |b| && b[i] == a[|a| - 1]
    ensures multiset(a[..|a| - 1]) == multiset(b[..i] + b[i + 1..])
  {
    var n := |a| - 1;
    assert a[n] in multiset(b);
    i :| 0 <= i < |b| && b[i] == a[n];
    assert a == a[..n] + [a[n]];
    assert b == b[..i] + [b[i]] + b[i + 1..];
    assert multiset(a) == multiset(a[..n]) + multiset{a[n]};
    assert multiset(b) == multiset(b[..i] + b[i + 1..]) + multiset{a[n]};
    assert multiset(a[..n]) == multiset(a) - multiset{a[n]};
  }

  lemma {:induction false} ExactIgnoresOrder(a: seq<nat>, b: seq<nat>)
    requires multiset(a) == multiset(b)
    ensures Exact(a) == Exact(b) && |a| == |b|
    decreases |a|
  {
    assert |multiset(a)| == |a| && |multiset(b)| == |b|;
    if a != [] {
      var i := MatchLast(a, b);
      ExactIgnoresOrder(a[..|a| - 1], b[..i] + b[i + 1..]);
      ExactSplit(b, i);
    }
  }

  /** So any reordering of n legs moves the joint probability by less than n wei. */
  lemma ReorderingMovesLessThanLegs(a: seq<nat>, b: seq<nat>)
    requires a != [] && Probabilities(a) && multiset(a) == multiset(b)
    ensures -|a| < JointProbWad(a) - JointProbWad(b) < |a|
  {
    ExactIgnoresOrder(a, b);
    forall i | 0 <= i < |b| ensures b[i] <= WAD {
      assert b[i] in multiset(b) && b[i] in multiset(a) && b[i] in a;
    }
    JointProbIsTight(a);
    JointProbIsTight(b);
  }

  // --------------------------------------------------------------------- price

  datatype PriceOutcome = Priced(premium: nat, maxPayout: nat) | Refused(reason: string)

  const EDGE_UNIT: nat := 10_000_000_000_000_000_000_000

  /** p(1 - p), in WAD squared. */
  function Spread(joint: nat): nat
    requires joint <= WAD
  {
    MulLe(0, WAD - joint, joint);
    joint * (WAD - joint)
  }

  /** The price of one unit of payout: the joint probability with the edge charged on p(1 - p).
      EDGE_UNIT is WAD * BPS. */
  function PriceWad(joint: nat, edgeBps: nat): nat
    requires joint <= WAD
  {
    joint + Charge(joint, edgeBps) / EDGE_UNIT
  }

  function Charge(joint: nat, edgeBps: nat): nat
    requires joint <= WAD
  {
    Spread(joint) * edgeBps
  }

  /** pricing.ts priceParlay. The contract's floor is positive wherever the service runs. */
  function PriceParlay(joint: nat, stake: nat, edgeBps: nat, minPremiumBps: nat): PriceOutcome
    requires minPremiumBps > 0
  {
    if stake == 0 then Refused("bad-stake") else
    if joint == 0 then Refused("cannot-win") else
    if joint >= WAD then Refused("bad-joint-prob") else
    var price := PriceWad(joint, edgeBps);
    if price >= WAD then Refused("no-payout") else
    if price == 0 then Refused("cannot-win") else
    var maxPayout := Min(stake * WAD / price, stake * BPS / minPremiumBps);
    if maxPayout <= stake then Refused("no-payout") else
    if maxPayout > MAX_U96 then Refused("uint96-overflow") else
    Priced(stake, maxPayout)
  }

  /** A joint probability below 1 prices below 1 exactly when edge times probability is below 1.
      So it always does for an edge of up to 10000 bps. */
  lemma PricesBelowOne(joint: nat, edgeBps: nat)
    requires 0 < joint < WAD
    ensures PriceWad(joint, edgeBps) < WAD <==> joint * edgeBps < EDGE_UNIT
    ensures edgeBps <= BPS ==> PriceWad(joint, edgeBps) < WAD
  {
    var left := WAD - joint;
    DivGalois(Charge(joint, edgeBps), EDGE_UNIT, left);
    assert Charge(joint, edgeBps) == (joint * edgeBps) * left;
    MulCancel(joint * edgeBps, EDGE_UNIT, left);
    MulLe(joint * edgeBps + 1, EDGE_UNIT, left);
    MulLe(edgeBps, BPS, joint);
  }

  /** Where prices stay below 1 they grow with the probability, whatever the edge. */
  lemma PriceGrowsWithProbability(p: nat, q: nat, edgeBps: nat)
    requires 0 < p <= q < WAD && PriceWad(q, edgeBps) < WAD
    ensures PriceWad(p, edgeBps) <= PriceWad(q, edgeBps)
  {
    PricesBelowOne(q, edgeBps);
    ChargeFallsSlowly(p, q, edgeBps);
    QuotientFallsSlowly(Charge(p, edgeBps), Charge(q, edgeBps), q - p, EDGE_UNIT);
  }

  /** The charge falls by less than one price unit for each wei the probability grows. */
  lemma ChargeFallsSlowly(p: nat, q: nat, e: nat)
    requires p <= q < WAD && q * e < EDGE_UNIT
    ensures Charge(p, e) <= Charge(q, e) + (q - p) * EDGE_UNIT
  {
    var d := q - p;
    assert Spread(p) - Spread(q) == d * (p + q - WAD);
    assert Charge(p, e) - Charge(q, e) == (Spread(p) - Spread(q)) * e by { MulSub(Spread(p), Spread(q), e); }
    assert d * (p + q - WAD) * e == ((p + q - WAD) * e) * d;
    MulLe(p + q - WAD, q, e);
    MulLe((p + q - WAD) * e, EDGE_UNIT, d);
    assert EDGE_UNIT * d == (q - p) * EDGE_UNIT;
  }

  lemma QuotientFallsSlowly(a: nat, b: nat, k: nat, unit: nat)
    requires unit > 0 && a <= b + k * unit
    ensures a / unit <= b / unit + k
  {
    DivBounds(b, unit);
    assert (b / unit + k + 1) * unit == (b / unit + 1) * unit + k * unit;
    DivGalois(a, unit, b / unit + k + 1);
  }

  lemma PriceGrowsWithEdge(p: nat, e1: nat, e2: nat)
    requires p <= WAD && e1 <= e2
    ensures PriceWad(p, e1) <= PriceWad(p, e2)
  {
    MulLe(e1, e2, Spread(p));
    DivMonotone(Charge(p, e1), Charge(p, e2), EDGE_UNIT);
  }

  /** Every price quoted passes the guards `mint` puts on it, and never pays better than the fair
      odds of the joint probability. */
  lemma QuotesPassMintAndAreNotGenerous(joint: nat, stake: nat, edgeBps: nat, minPremiumBps: nat)
    requires minPremiumBps > 0
    ensures var o := PriceParlay(joint, stake, edgeBps, minPremiumBps);
      o.Priced? ==>
        && o.premium == stake && o.premium < o.maxPayout <= MAX_U96
        && o.premium * BPS >= o.maxPayout * minPremiumBps
        && o.maxPayout * joint <= stake * WAD
  {
    var o := PriceParlay(joint, stake, edgeBps, minPremiumBps);
    if o.Priced? {
      var price := PriceWad(joint, edgeBps);
      DivBounds(stake * BPS, minPremiumBps);
      DivBounds(stake * WAD, price);
      MulLe(o.maxPayout, stake * BPS / minPremiumBps, minPremiumBps);
      MulLe(o.maxPayout, stake * WAD / price, price);
      MulLe(joint, price, o.maxPayout);
      assert joint * o.maxPayout == o.maxPayout * joint;
      assert price * o.maxPayout == o.maxPayout * price;
    }
  }

  /** The smaller of two floored quotients is the most that stays within both bounds. */
  lemma MostWithinBoth(a: nat, b: nat, c: nat, d: nat, m: nat)
    requires b > 0 && d > 0
    ensures m == Min(a / b, c / d) <==> m * b <= a && m * d <= c && (a < (m + 1) * b || c < (m + 1) * d)
  {
    DivGalois(a, b, m);
    DivGalois(a, b, m + 1);
    DivGalois(c, d, m);
    DivGalois(c, d, m + 1);
  }

  lemma PriceWritten(joint: nat, edgeBps: nat)
    requires joint <= WAD
    ensures PriceWad(joint, edgeBps) == joint + joint * (WAD - joint) * edgeBps / (WAD * 10_000)
  {
  }

  /** Which quotes are given, and at which payout: the stake is the premium, and the payout is the
      largest that, at the joint probability with the edge charged on p(1 - p), costs no more than
      the stake and leaves the stake at least the minimum share of the payout. It is given exactly
      for a positive stake and a probability strictly between 0 and 1 whose price is below 1, if
      that payout is more than the stake and fits 96 bits. */
  lemma QuotesPayTheMostThePriceAllows(joint: nat, stake: nat, edgeBps: nat, minPremiumBps: nat, premium: nat, payout: nat)
    requires minPremiumBps > 0
    ensures var price := joint + joint * (WAD - joint) * edgeBps / (WAD * 10_000);
      PriceParlay(joint, stake, edgeBps, minPremiumBps) == Priced(premium, payout) <==>
        (&& premium == stake && stake > 0 && 0 < joint < WAD && price < WAD
         && stake < payout <= MAX_U96
         && payout * price <= stake * WAD && payout * minPremiumBps <= stake * 10_000
         && (stake * WAD < (payout + 1) * price || stake * 10_000 < (payout + 1) * minPremiumBps))
  {
    if 0 < joint < WAD {
      PriceWritten(joint, edgeBps);
      MostWithinBoth(stake * WAD, PriceWad(joint, edgeBps), stake * BPS, minPremiumBps, payout);
    }
  }

  /** A likelier parlay, or a larger edge, never pays more, for any edges. */
  lemma PayoutFallsWithProbabilityAndEdge(p: nat, q: nat, e1: nat, e2: nat, stake: nat, minPremiumBps: nat)
    requires minPremiumBps > 0 && p <= q && e1 <= e2
    ensures var more := PriceParlay(p, stake, e1, minPremiumBps);
      var less := PriceParlay(q, stake, e2, minPremiumBps);
      more.Priced? && less.Priced? ==> less.maxPayout <= more.maxPayout
  {
    if PriceParlay(p, stake, e1, minPremiumBps).Priced? && PriceParlay(q, stake, e2, minPremiumBps).Priced? {
      PriceGrowsWithEdge(q, e1, e2);
      PriceGrowsWithProbability(p, q, e1);
      DivAntitone(stake * WAD, PriceWad(p, e1), PriceWad(q, e2));
    }
  }

  lemma DivAntitone(a: nat, b: nat, c: nat)
    requires 0 < b <= c
    ensures a / c <= a / b
  {
    DivBounds(a, c);
    MulLe(b, c, a / c);
    assert a / c * b == b * (a / c) && a / c * c == c * (a / c);
    DivGalois(a, b, a / c);
  }

  // ----------------------------------------------------------- suggested stake

  /** server.ts: the stake to suggest when `risk` does not fit the headroom a cap has left. */
  function FitStake(stake: nat, headroom: nat, risk: nat): nat {
    if risk > 0 then stake * headroom / risk else 0
  }

  /** The gain a payout rate num/den brings on a stake, bounded by the floored risk. */
  lemma GainBound(stake: nat, num: nat, den: nat)
    requires den > 0 && stake * num / den > stake
    ensures num > den
    ensures stake * (num - den) < (stake * num / den - stake + 1) * den
  {
    var m := stake * num / den;
    DivBounds(stake * num, den);
    MulCancelBelow(stake, num, den);
    MulSub(m + 1, stake, den);
    assert stake * (num - den) == stake * num - stake * den;
  }

  lemma ScaledGain(stake: nat, gain: nat, den: nat, risk: nat, headroom: nat, fit: nat)
    requires den > 0 && headroom < risk && fit * risk <= stake * headroom
    requires stake * gain < (risk + 1) * den
    ensures fit * gain < (headroom + 1) * den
  {
    MulLe(fit * risk, stake * headroom, gain);
    MulLe(stake * gain, (risk + 1) * den, headroom);
    assert (fit * gain) * risk == fit * risk * gain;
    assert stake * headroom * gain == stake * gain * headroom;
    ScaledGainStrict(den, risk, headroom);
    MulCancel(fit * gain, (headroom + 1) * den, risk);
  }

  lemma ScaledGainStrict(den: nat, risk: nat, headroom: nat)
    requires den > 0 && headroom < risk
    ensures (risk + 1) * den * headroom < (headroom + 1) * den * risk
  {
    assert (risk + 1) * den * headroom == risk * den * headroom + den * headroom;
    assert (headroom + 1) * den * risk == risk * den * headroom + den * risk;
    MulLe(headroom + 1, risk, den);
    assert headroom * den < risk * den;
  }

  /** One of the two bounds on the payout is binding at `stake`, and both bound it at `fit`. */
  lemma FitsOneBound(stake: nat, num: nat, den: nat, headroom: nat, fit: nat)
    requires den > 0 && stake * num / den > stake
    requires var risk := stake * num / den - stake; headroom < risk && fit == stake * headroom / risk
    ensures fit * num / den <= fit + headroom
  {
    var risk := stake * num / den - stake;
    GainBound(stake, num, den);
    DivBounds(stake * headroom, risk);
    ScaledGain(stake, num - den, den, risk, headroom, fit);
    BoundAtFit(num, den, headroom, fit);
  }

  lemma BoundAtFit(num: nat, den: nat, headroom: nat, fit: nat)
    requires 0 < den < num && fit * (num - den) < (headroom + 1) * den
    ensures fit * num / den <= fit + headroom
  {
    assert fit * num == fit * (num - den) + fit * den;
    assert (fit + headroom + 1) * den == fit * den + (headroom + 1) * den;
    DivGalois(fit * num, den, fit + headroom + 1);
  }

  lemma MulCancelBelow(s: nat, num: nat, den: nat)
    requires den > 0 && s * num / den > s
    ensures num > den
  {
    DivBounds(s * num, den);
    DivGalois(s * num, den, s + 1);
    MulLe(num, den, s);
    assert num * s == s * num && den * s == s * den;
    assert (s + 1) * den == s * den + den;
  }

  /** The suggested stake always fits the cap that turned the ticket down: repricing it leaves a
      risk within the headroom, through every floor and the minimum-premium clamp. It is the
      largest stake whose share of the risk, in proportion, does. */
  lemma SuggestedStakeFits(joint: nat, stake: nat, edgeBps: nat, minPremiumBps: nat, headroom: nat)
    requires minPremiumBps > 0
    ensures var o := PriceParlay(joint, stake, edgeBps, minPremiumBps);
      o.Priced? && headroom < o.maxPayout - stake ==>
        var fit := FitStake(stake, headroom, o.maxPayout - stake);
        var again := PriceParlay(joint, fit, edgeBps, minPremiumBps);
        && (again.Priced? ==> again.maxPayout - again.premium <= headroom)
        && fit * (o.maxPayout - stake) <= stake * headroom < (fit + 1) * (o.maxPayout - stake)
  {
    var o := PriceParlay(joint, stake, edgeBps, minPremiumBps);
    if o.Priced? && headroom < o.maxPayout - stake {
      var price := PriceWad(joint, edgeBps);
      var fit := FitStake(stake, headroom, o.maxPayout - stake);
      DivBounds(stake * headroom, o.maxPayout - stake);
      if o.maxPayout == stake * WAD / price {
        FitsOneBound(stake, WAD, price, headroom, fit);
      } else {
        FitsOneBound(stake, BPS, minPremiumBps, headroom, fit);
      }
    }
  }
}
