/** Unit conversions between EVM quote units, Core quote wei and Core outcome wei. */
module CoreConstants {
  import opened NonLinear
  import opened Prelude

  const OUTCOME_WEI_PER_SHARE: nat := 100_000
  const QUOTE_WEI_PER_SHARE: nat := 100_000_000
  const SETTLED_VALUE_ONE: nat := 100_000_000

  /** The scale of one quote token: `units` EVM units make a share, and each unit is
      `multiplier` Core quote wei. Their product is QUOTE_WEI_PER_SHARE, which is what a token
      of at most 8 decimals gives. */
  datatype ScaleBase = Scale(units: nat, multiplier: nat)
  type Scale = s: ScaleBase | s.units * s.multiplier == QUOTE_WEI_PER_SHARE
    witness Scale(1, QUOTE_WEI_PER_SHARE)

  function Pow10(n: nat): (p: nat)
    ensures p > 0
  {
    if n == 0 then 1 else 10 * Pow10(n - 1)
  }

  /** The scale the OutcomeVault constructor sets up for a token of `decimals` decimals. */
  function ScaleOf(decimals: nat): Scale
    requires decimals <= 8
  {
    PowersOfTen(decimals);
    Scale(Pow10(decimals), Pow10(8 - decimals))
  }

  lemma {:induction false} PowersOfTen(d: nat)
    requires d <= 8
    ensures Pow10(d) * Pow10(8 - d) == QUOTE_WEI_PER_SHARE
  {
    if d == 0 {
      assert Pow10(8) == 10 * 10 * 10 * 10 * 10 * 10 * 10 * 10 by {
        assert Pow10(4) == 10 * 10 * 10 * 10;
      }
    } else {
      PowersOfTen(d - 1);
      assert Pow10(8 - (d - 1)) == 10 * Pow10(8 - d);
      assert Pow10(d) == 10 * Pow10(d - 1);
      assert Pow10(d - 1) * (10 * Pow10(8 - d)) == (10 * Pow10(d - 1)) * Pow10(8 - d);
    }
  }

  /** Reverts on dust rather than truncate. The product is checked 256-bit arithmetic. */
  function Convert(amountEvm: nat, weiPerShare: nat, units: nat): Tx<nat>
    requires units > 0
  {
    var scaled := amountEvm * weiPerShare;
    if scaled > MAX_U256 then Revert("PANIC_OVERFLOW") else
    var w := scaled / units;
    if !(0 < w <= MAX_U64) then Revert("BAD_AMOUNT") else
    if w * units != scaled then Revert("DUST") else
    Done(w)
  }

  lemma ScalePositive(s: Scale)
    ensures 0 < s.units <= QUOTE_WEI_PER_SHARE
    ensures 0 < s.multiplier <= QUOTE_WEI_PER_SHARE
  {
    MulLe(s.units, 0, s.multiplier);
    MulLe(s.multiplier, 0, s.units);
    MulLe(1, s.multiplier, s.units);
    MulLe(1, s.units, s.multiplier);
  }

  function EvmToOutcomeWei(amountEvm: nat, s: Scale): Tx<nat> {
    ScalePositive(s);
    Convert(amountEvm, OUTCOME_WEI_PER_SHARE, s.units)
  }

  function EvmToQuoteWei(amountEvm: nat, s: Scale): Tx<nat> {
    ScalePositive(s);
    Convert(amountEvm, QUOTE_WEI_PER_SHARE, s.units)
  }

  function QuoteWeiToEvm(quoteWei: nat, s: Scale): nat {
    quoteWei * s.units / QUOTE_WEI_PER_SHARE
  }

  /** What a split or merge of `outcomeWei` moves in collateral. */
  function CollateralOf(outcomeWei: nat): nat {
    outcomeWei * QUOTE_WEI_PER_SHARE / OUTCOME_WEI_PER_SHARE
  }

  // ------------------------------------------------------------- properties

  /** A whole number of units is sent exactly, and never reverts on dust: the one way to
      fail is an amount that is zero or too wide for Core. */
  lemma QuoteWeiExact(x: nat, s: Scale)
    ensures 0 < x * s.multiplier <= MAX_U64 <==> EvmToQuoteWei(x, s).Done?
    ensures EvmToQuoteWei(x, s).Done? ==> EvmToQuoteWei(x, s) == Done(x * s.multiplier)
    ensures EvmToQuoteWei(x, s) != Revert("DUST")
  {
    ScalePositive(s);
    var u, m := s.units, s.multiplier;
    var scaled := x * QUOTE_WEI_PER_SHARE;
    assert scaled == (x * m) * u by {
      assert scaled == x * (u * m);
      assert x * (u * m) == (x * m) * u;
    }
    DivIs(scaled, u, x * m);
    if x * m <= MAX_U64 {
      assert scaled <= MAX_U64 * QUOTE_WEI_PER_SHARE by {
        assert (x * m) * u <= MAX_U64 * u <= MAX_U64 * QUOTE_WEI_PER_SHARE;
      }
    }
  }

  /** Reading a Core balance in EVM units floors it. */
  lemma QuoteWeiFloors(w: nat, s: Scale)
    ensures s.multiplier > 0
    ensures QuoteWeiToEvm(w, s) == w / s.multiplier
    ensures QuoteWeiToEvm(w, s) * s.multiplier <= w < (QuoteWeiToEvm(w, s) + 1) * s.multiplier
  {
    ScalePositive(s);
    var u, m := s.units, s.multiplier;
    var q := w / m;
    assert q * m <= w < q * m + m;
    assert q * m + m == (q + 1) * m;
    assert q * QUOTE_WEI_PER_SHARE == q * m * u by { assert q * (u * m) == q * m * u; }
    assert q * m * u <= w * u;
    assert w * u < (q * m + m) * u by {
      assert w + 1 <= q * m + m;
      assert (w + 1) * u <= (q * m + m) * u;
    }
    assert (q * m + m) * u == q * m * u + u * m;
    DivIs(w * u, QUOTE_WEI_PER_SHARE, q);
  }

  /** Core units read back from a whole number of EVM units. */
  lemma QuoteWeiRoundTrip(x: nat, s: Scale)
    ensures QuoteWeiToEvm(x * s.multiplier, s) == x
  {
    QuoteWeiFloors(x * s.multiplier, s);
    DivIs(x * s.multiplier, s.multiplier, x);
  }

  /** An amount is split exactly or not at all: the wei are those whose worth in shares is the
      amount's, and the amounts refused are those for which Core has no such wei. */
  lemma OutcomeWeiExact(x: nat, s: Scale, wei: nat)
    ensures EvmToOutcomeWei(x, s) == Done(wei) <==> 0 < wei <= MAX_U64 && wei * s.units == x * 100_000
  {
    ScalePositive(s);
    if 0 < wei <= MAX_U64 && wei * s.units == x * 100_000 {
      DivIs(x * 100_000, s.units, wei);
      MulLe(wei, MAX_U64, s.units);
      MulLe(s.units, QUOTE_WEI_PER_SHARE, MAX_U64);
    }
  }

  /** A split debits exactly the wei its deposit credits: the outcome conversion and the quote
      conversion of one amount move the same collateral. */
  lemma SplitDebitsWhatDepositCredits(x: nat, s: Scale)
    requires EvmToOutcomeWei(x, s).Done?
    ensures CollateralOf(EvmToOutcomeWei(x, s).value) == x * s.multiplier
    ensures x > 0
  {
    ScalePositive(s);
    var w := EvmToOutcomeWei(x, s).value;
    var u, m := s.units, s.multiplier;
    assert w * u == x * OUTCOME_WEI_PER_SHARE;
    assert w * QUOTE_WEI_PER_SHARE == (x * m) * OUTCOME_WEI_PER_SHARE by {
      assert w * (u * m) == (w * u) * m;
      assert (x * OUTCOME_WEI_PER_SHARE) * m == (x * m) * OUTCOME_WEI_PER_SHARE;
    }
    DivIs(w * QUOTE_WEI_PER_SHARE, OUTCOME_WEI_PER_SHARE, x * m);
  }
}
