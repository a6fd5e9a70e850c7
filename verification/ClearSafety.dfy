/** When the owner may clear the outbound trackers before settlement: exactly when everything owed
    has landed. Otherwise some later run, at any fee, leaves users uncovered for a while: their own
    deposits, promised out again before Core has credited them, make the difference. */
module ClearSafety {
  import opened CoreConstants
  import opened NonLinear
  import opened Prelude
  import opened Sums
  import opened VaultInvariants
  import opened VaultState
  import opened VaultTheorems

  /** The same vault and Core among users of other means. */
  function WithPurses(w: World, purse: map<Address, nat>): World {
    w.(t := w.t.(purse := purse))
  }

  /** Users stay covered in every honest run from here, whatever quote they hold. */
  ghost predicate AlwaysCovers(cfg: Config, w: World) {
    forall purse: map<Address, nat>, later: seq<Step> :: StaysCovered(cfg, WithPurses(w, purse), later)
  }

  predicate StaysCovered(cfg: Config, w: World, later: seq<Step>) {
    HonestRun(cfg, w, later) ==> Covers(cfg, Run(cfg, w, later))
  }

  // ---------------------------------------------------------- what goes wrong

  /** More is owed than has landed, and the trackers do not know. */
  ghost predicate Lent(cfg: Config, w: World) {
    && Serial(cfg, w) && UnderWay(cfg, w) && !w.v.settled
    && w.v.totalOwed > w.t.bal && UnlandedEvm(w) == 0 && w.c.quote <= MAX_U64
  }

  /** A deposit would be taken, as far as earlier sends go. */
  predicate Landed(w: World) {
    w.v.outboundWei == 0 || w.c.quote <= w.v.outboundTarget
  }

  lemma OneStep(cfg: Config, w: World, step: Step)
    requires CarefulStep(cfg, w, step) && TruthfulStep(w, step)
    ensures HonestRun(cfg, w, [step]) && Run(cfg, w, [step]) == Next(cfg, w, step)
    ensures Serial(cfg, w) && UnderWay(cfg, w) ==> Serial(cfg, Next(cfg, w, step)) && UnderWay(cfg, Next(cfg, w, step))
  {
    assert [step][1..] == [];
    if Serial(cfg, w) && UnderWay(cfg, w) {
      SerialStep(cfg, w, step);
      StepUnderWay(cfg, w, step);
    }
  }

  lemma TwoSteps(cfg: Config, w: World, a: Step, b: Step)
    requires CarefulStep(cfg, w, a) && TruthfulStep(w, a)
    requires CarefulStep(cfg, Next(cfg, w, a), b) && TruthfulStep(Next(cfg, w, a), b)
    ensures HonestRun(cfg, w, [a, b]) && Run(cfg, w, [a, b]) == Next(cfg, Next(cfg, w, a), b)
    ensures Serial(cfg, w) && UnderWay(cfg, w) ==>
      Serial(cfg, Next(cfg, Next(cfg, w, a), b)) && UnderWay(cfg, Next(cfg, Next(cfg, w, a), b))
  {
    OneStep(cfg, w, a);
    OneStep(cfg, Next(cfg, w, a), b);
    RunInParts(cfg, w, [a], [b]);
    assert [a] + [b] == [a, b];
  }

  /** Lots of 1000 units are whole outcome wei at every scale. */
  lemma LotsConvert(lots: nat, s: Scale)
    requires 0 < lots && lots * s.multiplier <= MAX_U64
    ensures EvmToOutcomeWei(1_000 * lots, s) == Done(lots * s.multiplier)
  {
    ScalePositive(s);
    var scaled := 1_000 * lots * OUTCOME_WEI_PER_SHARE;
    assert scaled == (lots * s.multiplier) * s.units by {
      assert scaled == lots * (s.units * s.multiplier);
      assert lots * (s.units * s.multiplier) == (lots * s.multiplier) * s.units;
    }
    MulLe(lots * s.multiplier, MAX_U64, s.units);
    MulLe(1, lots, s.multiplier);
    DivIs(scaled, s.units, lots * s.multiplier);
  }

  /** A deposit Core has not credited is split on quote Core holds for others, topped up by a stray
      credit if need be. */
  lemma SplitOnCredit(cfg: Config, w: World, user: Address, x: nat, stray: nat) returns (steps: seq<Step>)
    requires Lent(cfg, w) && IsIdle(w.v) && Landed(w)
    requires EvmToOutcomeWei(x, cfg.scale).Done? && x <= Balance(w.t.purse, user)
    requires x * cfg.scale.multiplier <= w.c.quote + stray <= MAX_U64
    ensures HonestRun(cfg, w, steps)
    ensures var w' := Run(cfg, w, steps);
      && Lent(cfg, w') && IsIdle(w'.v) && w'.v.outboundWei == 0
      && w'.c.quote == w.c.quote + stray - x * cfg.scale.multiplier
      && w'.c.locked == w.c.locked + x * cfg.scale.multiplier && w'.c.mergeFeeBps == w.c.mergeFeeBps
      && Balance(w'.t.purse, user) == Balance(w.t.purse, user) - x
      && x <= Balance(w'.t.yes, user) && x <= Balance(w'.t.no, user)
  {
    var n := |w.c.queue|;
    SplitDebitsWhatDepositCredits(x, cfg.scale);
    TwoSteps(cfg, w, DoDeposit(user, x), CoreStray(stray));
    var w2 := Run(cfg, w, [DoDeposit(user, x), CoreStray(stray)]);
    assert w2.c.queue[n].Split? && RemoveAt(w2.c.queue, n) == w.c.queue;
    assert MatchesSlot(cfg, w2, w2.c.queue[n]);
    TwoSteps(cfg, w2, CoreProcesses(n, false), DoClaimDeposit(Executed));
    RunInParts(cfg, w, [DoDeposit(user, x), CoreStray(stray)], [CoreProcesses(n, false), DoClaimDeposit(Executed)]);
    steps := [DoDeposit(user, x), CoreStray(stray)] + [CoreProcesses(n, false), DoClaimDeposit(Executed)];
  }

  /** A payout the Core balance can bear goes through in full when nothing seems under way. */
  lemma PayOutGoes(cfg: Config, w: World, user: Address, amount: nat)
    requires 0 < amount && amount * cfg.scale.multiplier <= w.c.quote <= MAX_U64
    requires UnlandedEvm(w) == 0 && w.v.outboundWei == 0
    ensures PayOut(cfg, w, user, amount) == Done(Paid(cfg, w, user, amount))
  {
    var m := cfg.scale.multiplier;
    ScalePositive(cfg.scale);
    MulLe(1, amount, m);
    QuoteWeiFloors(w.c.quote, cfg.scale);
    DivGalois(w.c.quote, m, amount);
    QuoteWeiExact(amount, cfg.scale);
    QuoteWeiRoundTrip(amount, cfg.scale);
  }

  /** A lot of 1000 units is redeemed when Core holds just its merge fee: Core gives back the lot. */
  lemma MergeOnFee(cfg: Config, w: World, user: Address) returns (steps: seq<Step>)
    requires Lent(cfg, w) && IsIdle(w.v) && w.v.outboundWei == 0
    requires 1_000 * cfg.scale.multiplier <= w.c.locked
    requires w.c.quote == MergeFee(w.c, 1_000 * cfg.scale.multiplier)
    requires 1_000 <= Balance(w.t.yes, user) && 1_000 <= Balance(w.t.no, user)
    ensures HonestRun(cfg, w, steps)
    ensures var w' := Run(cfg, w, steps);
      && Lent(cfg, w') && w'.v.outboundWei == 0 && w'.c.quote == 1_000 * cfg.scale.multiplier
      && w'.v.redeem == Redeem(user, 1_000, w'.v.nextOpId)
      && w'.v.redeem.opId in w'.c.fate && w'.c.fate[w'.v.redeem.opId]
  {
    var n := |w.c.queue|;
    ScalePositive(cfg.scale);
    LotsConvert(1, cfg.scale);
    SplitDebitsWhatDepositCredits(1_000, cfg.scale);
    steps := [DoRequestRedeem(user, 1_000), CoreProcesses(n, false)];
    TwoSteps(cfg, w, DoRequestRedeem(user, 1_000), CoreProcesses(n, false));
  }

  /** That lot is promised in full, though other users are owed it. */
  lemma RedeemUncovers(cfg: Config, w: World, user: Address) returns (steps: seq<Step>)
    requires Lent(cfg, w) && IsIdle(w.v) && w.v.outboundWei == 0
    requires 1_000 * cfg.scale.multiplier <= w.c.locked
    requires w.c.quote == MergeFee(w.c, 1_000 * cfg.scale.multiplier)
    requires 1_000 <= Balance(w.t.yes, user) && 1_000 <= Balance(w.t.no, user)
    ensures HonestRun(cfg, w, steps) && !Covers(cfg, Run(cfg, w, steps))
  {
    var merge := MergeOnFee(cfg, w, user);
    var w' := Run(cfg, w, merge);
    PayOutGoes(cfg, w'.(v := w'.v.(redeem := NoRedeem)), user, 1_000);
    QuoteWeiRoundTrip(1_000, cfg.scale);
    OneStep(cfg, w', DoClaimRedeem(Executed));
    RunInParts(cfg, w, merge, [DoClaimRedeem(Executed)]);
    steps := merge + [DoClaimRedeem(Executed)];
  }

  /** Splits take Core's quote below one lot. */
  lemma Absorb(cfg: Config, w: World, user: Address) returns (steps: seq<Step>)
    requires Lent(cfg, w) && IsIdle(w.v) && Landed(w) && MAX_U64 + 1_000 <= Balance(w.t.purse, user)
    ensures HonestRun(cfg, w, steps)
    ensures var w' := Run(cfg, w, steps);
      && Lent(cfg, w') && IsIdle(w'.v) && Landed(w') && w'.c.quote < 1_000 * cfg.scale.multiplier
      && w'.c.mergeFeeBps == w.c.mergeFeeBps && 1_000 <= Balance(w'.t.purse, user)
  {
    var m := cfg.scale.multiplier;
    ScalePositive(cfg.scale);
    var lots := w.c.quote / (1_000 * m);
    LotsLeaveLess(w.c.quote, m);
    steps := [];
    if lots > 0 {
      LotsFit(lots, m, w.c.quote);
      LotsConvert(lots, cfg.scale);
      steps := SplitOnCredit(cfg, w, user, 1_000 * lots, 0);
    }
  }

  /** An idle vault whose trackers were cleared too early can be made to promise the same quote twice. */
  lemma IdleUncovers(cfg: Config, w: World, user: Address) returns (steps: seq<Step>)
    requires Lent(cfg, w) && IsIdle(w.v) && Landed(w) && MAX_U64 + 1_000 <= Balance(w.t.purse, user)
    ensures HonestRun(cfg, w, steps) && !Covers(cfg, Run(cfg, w, steps))
  {
    var lot := 1_000 * cfg.scale.multiplier;
    ScalePositive(cfg.scale);
    var first := Absorb(cfg, w, user);
    var w1 := Run(cfg, w, first);
    LotsConvert(1, cfg.scale);
    var second := SplitOnCredit(cfg, w1, user, 1_000, lot + MergeFee(w1.c, lot) - w1.c.quote);
    var w2 := Run(cfg, w1, second);
    var third := RedeemUncovers(cfg, w2, user);
    RunInParts(cfg, w1, second, third);
    RunInParts(cfg, w, first, second + third);
    steps := first + (second + third);
  }

  lemma LotsLeaveLess(quote: nat, m: nat)
    requires m > 0
    ensures var lots := quote / (1_000 * m); lots * (1_000 * m) <= quote && quote - 1_000 * lots * m < 1_000 * m
  {
    var lots := quote / (1_000 * m);
    DivBounds(quote, 1_000 * m);
    assert (lots + 1) * (1_000 * m) == lots * (1_000 * m) + 1_000 * m;
    assert 1_000 * lots * m == lots * (1_000 * m);
  }

  lemma LotsFit(lots: nat, m: nat, quote: nat)
    requires 0 < m && lots * (1_000 * m) <= quote <= MAX_U64
    ensures 1_000 * lots * m <= quote && lots * m <= MAX_U64 && 1_000 * lots <= MAX_U64
  {
    assert 1_000 * lots * m == lots * (1_000 * m);
    MulLe(1, m, 1_000 * lots);
    assert 1_000 * lots * m == m * (1_000 * lots);
    assert 1_000 * lots * m == 1_000 * (lots * m);
    MulLe(0, lots, m);
  }

  /** A pending redemption whose merge failed, or has not run and then is dropped, is cancelled. */
  lemma CancelFirst(cfg: Config, w: World) returns (steps: seq<Step>)
    requires Lent(cfg, w) && w.v.outboundWei == 0 && w.v.redeem.Redeem? && w.v.deposit.NoDeposit?
    requires w.v.redeem.opId in w.c.fate ==> !w.c.fate[w.v.redeem.opId]
    ensures HonestRun(cfg, w, steps)
    ensures var w' := Run(cfg, w, steps); Lent(cfg, w') && IsIdle(w'.v) && Landed(w') && w'.t.purse == w.t.purse
  {
    var id := w.v.redeem.opId;
    if id in w.c.fate {
      OneStep(cfg, w, DoCancelRedeem(Failed));
      steps := [DoCancelRedeem(Failed)];
    } else {
      PendingIsQueued(cfg, w);
      var i :| 0 <= i < |w.c.queue| && !w.c.queue[i].Send? && w.c.queue[i].opId == id;
      TwoSteps(cfg, w, CoreProcesses(i, true), DoCancelRedeem(Failed));
      steps := [CoreProcesses(i, true), DoCancelRedeem(Failed)];
    }
  }

  lemma PendingIsQueued(cfg: Config, w: World)
    requires Serial(cfg, w) && UnderWay(cfg, w) && w.v.redeem.Redeem? && w.v.redeem.opId !in w.c.fate
    ensures InQueue(w, w.v.redeem.opId)
  {
  }

  predicate ClaimOpen(w: World) {
    && w.v.outboundWei == 0 && w.v.redeem.Redeem? && w.v.deposit.NoDeposit?
    && w.v.redeem.opId in w.c.fate && w.c.fate[w.v.redeem.opId]
  }

  /** One whose merge ran is claimed. If Core is short for it, a stray credit helps out, and then
      the claim promises all Core has. */
  lemma ClaimOnStray(cfg: Config, w: World) returns (steps: seq<Step>)
    requires Lent(cfg, w) && ClaimOpen(w) && w.c.quote < w.v.redeem.amount * cfg.scale.multiplier
    ensures HonestRun(cfg, w, steps) && !Covers(cfg, Run(cfg, w, steps))
  {
    var p, wei := w.v.redeem, w.v.redeem.amount * cfg.scale.multiplier;
    QuoteWeiRoundTrip(p.amount, cfg.scale);
    var topped := Next(cfg, w, CoreStray(wei - w.c.quote));
    PayOutGoes(cfg, topped.(v := topped.v.(redeem := NoRedeem)), p.user, p.amount);
    TwoSteps(cfg, w, CoreStray(wei - w.c.quote), DoClaimRedeem(Executed));
    steps := [CoreStray(wei - w.c.quote), DoClaimRedeem(Executed)];
  }

  /** Otherwise it is paid and lands. */
  lemma ClaimAndLand(cfg: Config, w: World) returns (steps: seq<Step>)
    requires Lent(cfg, w) && ClaimOpen(w) && w.v.redeem.amount * cfg.scale.multiplier <= w.c.quote
    ensures HonestRun(cfg, w, steps)
    ensures var w' := Run(cfg, w, steps); Lent(cfg, w') && IsIdle(w'.v) && Landed(w') && w'.t.purse == w.t.purse
  {
    var p, n := w.v.redeem, |w.c.queue|;
    QuoteWeiRoundTrip(p.amount, cfg.scale);
    PayOutGoes(cfg, w.(v := w.v.(redeem := NoRedeem)), p.user, p.amount);
    TwoSteps(cfg, w, DoClaimRedeem(Executed), CoreProcesses(n, false));
    steps := [DoClaimRedeem(Executed), CoreProcesses(n, false)];
  }

  lemma LentUncovers(cfg: Config, w: World, user: Address) returns (steps: seq<Step>)
    requires Lent(cfg, w) && w.v.outboundWei == 0 && w.v.deposit.NoDeposit?
    requires MAX_U64 + 1_000 <= Balance(w.t.purse, user)
    ensures HonestRun(cfg, w, steps) && !Covers(cfg, Run(cfg, w, steps))
  {
    steps := [];
    if w.v.redeem.Redeem? {
      if w.v.redeem.opId in w.c.fate && w.c.fate[w.v.redeem.opId] {
        if w.c.quote < w.v.redeem.amount * cfg.scale.multiplier {
          steps := ClaimOnStray(cfg, w);
        } else {
          steps := ClaimAndLand(cfg, w);
        }
      } else {
        steps := CancelFirst(cfg, w);
      }
    }
    var w' := Run(cfg, w, steps);
    if Covers(cfg, w') {
      var rest := IdleUncovers(cfg, w', user);
      RunInParts(cfg, w, steps, rest);
      steps := steps + rest;
    }
  }

  // ----------------------------------------------------------------- theorem

  lemma ClearedIsLent(cfg: Config, w: World, purse: map<Address, nat>)
    requires Inv(cfg, w) && UnderWay(cfg, w) && !w.v.settled && w.v.totalOwed > w.t.bal
    ensures var c := WithPurses(ClearOutboundTx(cfg, w, cfg.owner).value, purse);
      Lent(cfg, c) && c.v.outboundWei == 0 && c.v.deposit.NoDeposit?
  {
    var c := WithPurses(ClearOutboundTx(cfg, w, cfg.owner).value, purse);
    SameSlotsSerial(cfg, w, c);
    QueueGrows(cfg, w, c);
    ScalePositive(cfg.scale);
    MulCancel(w.v.totalOwed, w.t.bal, cfg.scale.multiplier);
  }

  lemma LandedIsSafe(cfg: Config, w: World)
    requires Inv(cfg, w) && !w.v.settled && w.v.totalOwed <= w.t.bal
    ensures AlwaysCovers(cfg, ClearOutboundTx(cfg, w, cfg.owner).value)
  {
    var cleared := ClearOutboundTx(cfg, w, cfg.owner).value;
    ClearKeeps(cfg, w);
    forall purse: map<Address, nat>, later: seq<Step> ensures StaysCovered(cfg, WithPurses(cleared, purse), later) {
      if HonestRun(cfg, WithPurses(cleared, purse), later) {
        SameSlotsSerial(cfg, cleared, WithPurses(cleared, purse));
        RunKeeps(cfg, WithPurses(cleared, purse), later);
        MoneyCovers(cfg, Run(cfg, WithPurses(cleared, purse), later));
      }
    }
  }

  lemma LentIsNot(cfg: Config, w: World)
    requires Inv(cfg, w) && UnderWay(cfg, w) && !w.v.settled && w.v.totalOwed > w.t.bal
    ensures !AlwaysCovers(cfg, ClearOutboundTx(cfg, w, cfg.owner).value)
  {
    var cleared := ClearOutboundTx(cfg, w, cfg.owner).value;
    var purse := map[1 := MAX_U64 + 1_000];
    ClearedIsLent(cfg, w, purse);
    var later := LentUncovers(cfg, WithPurses(cleared, purse), 1);
    assert !StaysCovered(cfg, WithPurses(cleared, purse), later);
  }

  /** After any honest run, clearing before settlement is safe, for users of any means and over any
      later honest run, exactly when the EVM balance covers everything owed. */
  lemma ClearIsCarefulOrBreaks(cfg: Config, start: World, steps: seq<Step>)
    requires Fresh(start) && HonestRun(cfg, start, steps) && !Run(cfg, start, steps).v.settled
    ensures var w := Run(cfg, start, steps);
      AlwaysCovers(cfg, ClearOutboundTx(cfg, w, cfg.owner).value) <==> w.v.totalOwed <= w.t.bal
  {
    var w := Run(cfg, start, steps);
    FreshInv(cfg, start);
    RunKeeps(cfg, start, steps);
    HonestIsTruthful(cfg, start, steps);
    TruthfulRunKeeps(cfg, start, steps);
    if w.v.totalOwed <= w.t.bal {
      LandedIsSafe(cfg, w);
    } else {
      LentIsNot(cfg, w);
    }
  }
}
