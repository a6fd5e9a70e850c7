/** What the invariants mean for users, over whole runs. */
module VaultTheorems {
  import opened CoreConstants
  import opened NonLinear
  import opened Prelude
  import opened Sums
  import opened VaultInvariants
  import opened VaultState

  // ------------------------------------------------------------ quote owed

  /** The EVM side plus the Core balance in whole EVM units is enough for everything owed. */
  predicate Covers(cfg: Config, w: World) {
    w.v.totalOwed <= w.t.bal + QuoteWeiToEvm(w.c.quote, cfg.scale)
  }

  lemma MoneyCovers(cfg: Config, w: World)
    requires Money(cfg, w)
    ensures Covers(cfg, w)
  {
    var m, coreEvm := cfg.scale.multiplier, QuoteWeiToEvm(w.c.quote, cfg.scale);
    QuoteWeiFloors(w.c.quote, cfg.scale);
    assert w.v.totalOwed * m < (w.t.bal + coreEvm + 1) * m by {
      assert (w.t.bal + coreEvm + 1) * m == w.t.bal * m + (coreEvm + 1) * m;
    }
    MulCancel(w.v.totalOwed, w.t.bal + coreEvm + 1, m);
  }

  /** Under any interleaving of transactions, landings, drops, stray credits and donations, the
      quote on the EVM side plus the Core balance in whole EVM units covers everything owed, and
      so each user's share of it. */
  lemma OwedIsCovered(cfg: Config, start: World, steps: seq<Step>, user: Address)
    requires Fresh(start) && HonestRun(cfg, start, steps)
    ensures var w := Run(cfg, start, steps);
      Covers(cfg, w) && Balance(w.v.owed, user) <= w.v.totalOwed
  {
    var w := Run(cfg, start, steps);
    FreshInv(cfg, start);
    RunKeeps(cfg, start, steps);
    BalanceBelowTotal(w.v.owed, user);
    MoneyCovers(cfg, w);
  }

  /** The dwell works: a deposit is only accepted, and a Core baseline only taken, when the EVM
      balance alone covers everything owed, so every debit of an earlier send has been seen. */
  lemma DepositNeedsLandedSends(cfg: Config, start: World, steps: seq<Step>, user: Address, amount: nat)
    requires Fresh(start) && HonestRun(cfg, start, steps)
    requires DepositTx(cfg, Run(cfg, start, steps), user, amount).Done?
    ensures Run(cfg, start, steps).v.totalOwed <= Run(cfg, start, steps).t.bal
  {
    var w := Run(cfg, start, steps);
    FreshInv(cfg, start);
    RunKeeps(cfg, start, steps);
    ScalePositive(cfg.scale);
    MulCancel(w.v.totalOwed, w.t.bal, cfg.scale.multiplier);
  }

  // ---------------------------------------------------------------- shares

  lemma SuppliesStayEqual(cfg: Config, w: World, step: Step)
    requires !Next(cfg, w, step).v.settled && w.t.yesSupply == w.t.noSupply
    ensures Next(cfg, w, step).t.yesSupply == Next(cfg, w, step).t.noSupply
  {
    if step.DoCancelDeposit? || step.DoClaimRedeem? {
      PayoutOnlyCredits(cfg, w, step);
    }
  }

  /** Until the vault settles there is a NO for each YES, in every run whatever: no verdict, clear or
      act of Core changes that. */
  lemma {:induction false} SuppliesAreEqual(cfg: Config, w: World, steps: seq<Step>)
    requires w.t.yesSupply == w.t.noSupply && !Run(cfg, w, steps).v.settled
    ensures Run(cfg, w, steps).t.yesSupply == Run(cfg, w, steps).t.noSupply
    decreases |steps|
  {
    if steps != [] {
      NothingSweptBeforeSettlement(cfg, w, steps);
      NothingSweptBeforeSettlement(cfg, Next(cfg, w, steps[0]), steps[1..]);
      SuppliesStayEqual(cfg, w, steps[0]);
      SuppliesAreEqual(cfg, Next(cfg, w, steps[0]), steps[1..]);
    }
  }

  /** Until the vault settles the two supplies are equal, whatever Core does; and until Core
      credits the settlement, the collateral locked there is the supply, plus a split that ran
      unclaimed, plus a merge that burned its pair and has not run. */
  lemma SharesAreBacked(cfg: Config, start: World, steps: seq<Step>)
    requires Fresh(start) && HonestRun(cfg, start, steps)
    requires !Run(cfg, start, steps).v.settled
    ensures var w := Run(cfg, start, steps);
      && Total(w.t.yes) == Total(w.t.no)
      && (!w.c.credited ==>
            w.c.locked == (Total(w.t.yes) + ExecutedUnclaimed(w) + BurnedUnmerged(w)) * cfg.scale.multiplier)
  {
    FreshInv(cfg, start);
    RunKeeps(cfg, start, steps);
  }

  /** A queued split asks for exactly the wei its deposit puts into transit. A queued merge never
      lacks shares: unless Core drops it or its balance would overflow, it runs. */
  lemma MergeNeverLacksShares(cfg: Config, start: World, steps: seq<Step>, i: nat)
    requires Fresh(start) && HonestRun(cfg, start, steps)
    requires !Run(cfg, start, steps).v.settled && !Run(cfg, start, steps).c.credited
    requires i < |Run(cfg, start, steps).c.queue|
    ensures var w := Run(cfg, start, steps); var a := w.c.queue[i];
      && (a.Split? ==> w.v.deposit.Deposit?)
      && (a.Split? ==> CollateralOf(a.wei) == w.v.deposit.amount * cfg.scale.multiplier)
      && (a.Merge? ==> CollateralOf(a.wei) <= w.c.locked)
  {
    FreshInv(cfg, start);
    RunKeeps(cfg, start, steps);
    var w := Run(cfg, start, steps);
    assert MatchesSlot(cfg, w, w.c.queue[i]);
    if w.c.queue[i].Merge? {
      MulLe(w.v.redeem.amount, w.t.yesSupply + ExecutedUnclaimed(w) + BurnedUnmerged(w), cfg.scale.multiplier);
    }
  }

  // ---------------------------------------------------------- conservation

  /** Every unit of quote there is, in Core wei: purses, vault, transit, Core, collateral. */
  ghost function Wealth(cfg: Config, w: World): nat {
    Held(w) * cfg.scale.multiplier + w.c.quote + w.c.locked
  }

  /** Quote in EVM units: purses, vault, transit. */
  ghost function Held(w: World): nat {
    Total(w.t.purse) + w.t.bal + w.c.transit
  }

  /** What is expected, beyond what was paid out and is still owed. */
  function Excess(w: World): int {
    w.v.outboundExpectedEvm - w.v.totalPaidOutEvm - w.v.totalOwed
  }

  /** A payout only credits, and asks Core to send as much. */
  lemma PayoutOnlyCredits(cfg: Config, w: World, step: Step)
    requires step.DoCancelDeposit? || step.DoClaimRedeem?
    ensures var w' := Next(cfg, w, step);
      && Excess(w') == Excess(w) && Held(w') == Held(w) && w'.c.quote == w.c.quote && w'.c.locked == w.c.locked
      && w'.v.settled == w.v.settled && w'.v.fractionWad == w.v.fractionWad
      && w'.t == w.t
  {
    if Transaction(cfg, w, step).Done? {
      if step.DoCancelDeposit? {
        PayOutEffect(cfg, w.(v := w.v.(deposit := NoDeposit)), w.v.deposit.user, w.v.deposit.amount);
      } else {
        PayOutEffect(cfg, w.(v := w.v.(redeem := NoRedeem)), w.v.redeem.user, w.v.redeem.amount);
      }
    }
  }

  /** Transactions only move quote between purses, the vault and transit. */
  lemma TransactionsConserve(cfg: Config, w: World, step: Step)
    requires !(step.CoreCredits? || step.CoreProcesses? || step.CoreStray? || step.CoreSettles?)
    ensures var w' := Next(cfg, w, step);
      Held(w') == Held(w) && w'.c.quote == w.c.quote && w'.c.locked == w.c.locked
  {
    if step.DoCancelDeposit? || step.DoClaimRedeem? {
      PayoutOnlyCredits(cfg, w, step);
    }
  }

  /** No step creates quote. Only a stray credit brings some in, and only merges and Core's
      settlement lose some, to their fee. */
  lemma QuoteIsConserved(cfg: Config, w: World, step: Step)
    requires Inv(cfg, w)
    ensures var brought := if step.CoreStray? then Next(cfg, w, step).c.quote - w.c.quote else 0;
      && Wealth(cfg, Next(cfg, w, step)) <= Wealth(cfg, w) + brought
      && (w.c.mergeFeeBps == 0 || !(step.CoreProcesses? || step.CoreSettles?) ==>
            Wealth(cfg, Next(cfg, w, step)) == Wealth(cfg, w) + brought)
  {
    match step
    case CoreCredits(n) => MulSub(Held(w), n, cfg.scale.multiplier);
    case CoreProcesses(i, dropped) => ProcessConserves(cfg, w, i, dropped);
    case CoreStray(_) =>
    case CoreSettles =>
    case _ => TransactionsConserve(cfg, w, step);
  }

  lemma ProcessConserves(cfg: Config, w: World, i: nat, dropped: bool)
    ensures Wealth(cfg, ProcessAction(cfg, w, i, dropped)) <= Wealth(cfg, w)
    ensures w.c.mergeFeeBps == 0 ==> Wealth(cfg, ProcessAction(cfg, w, i, dropped)) == Wealth(cfg, w)
  {
    if i < |w.c.queue| && w.c.queue[i].Send? {
      var units := QuoteWeiToEvm(w.c.queue[i].wei, cfg.scale);
      assert (Total(w.t.purse) + w.t.bal + units + w.c.transit) * cfg.scale.multiplier
        == (Total(w.t.purse) + w.t.bal + w.c.transit) * cfg.scale.multiplier + units * cfg.scale.multiplier;
    }
  }

  // ------------------------------------------------------- the redemption gate

  predicate NoClears(steps: seq<Step>) {
    forall i :: 0 <= i < |steps| ==> !steps[i].DoClearOutbound?
  }

  /** EVM units the sweeps of a run asked Core for. */
  function Swept(cfg: Config, w: World, steps: seq<Step>): int
    decreases |steps|
  {
    if steps == [] then 0 else
    var w' := Next(cfg, w, steps[0]);
    (if steps[0].DoPull? then w'.v.outboundExpectedEvm - w.v.outboundExpectedEvm else 0)
      + Swept(cfg, w', steps[1..])
  }

  /** EVM units the settled redemptions of a run paid. */
  function Redeemed(cfg: Config, w: World, steps: seq<Step>): int
    decreases |steps|
  {
    if steps == [] then 0 else
    var w' := Next(cfg, w, steps[0]);
    (if steps[0].DoRedeemSettled? then w'.v.totalPaidOutEvm - w.v.totalPaidOutEvm else 0)
      + Redeemed(cfg, w', steps[1..])
  }

  lemma ExcessStep(cfg: Config, w: World, step: Step)
    requires !step.DoClearOutbound?
    ensures Excess(Next(cfg, w, step)) == Excess(w) + Swept(cfg, w, [step]) - Redeemed(cfg, w, [step])
  {
    if step.DoCancelDeposit? || step.DoClaimRedeem? {
      PayoutOnlyCredits(cfg, w, step);
    }
  }

  lemma {:induction false} ExcessRun(cfg: Config, w: World, steps: seq<Step>)
    requires NoClears(steps)
    ensures Excess(Run(cfg, w, steps)) == Excess(w) + Swept(cfg, w, steps) - Redeemed(cfg, w, steps)
    decreases |steps|
  {
    if steps != [] {
      ExcessStep(cfg, w, steps[0]);
      assert [steps[0]][1..] == [];
      ExcessRun(cfg, Next(cfg, w, steps[0]), steps[1..]);
    }
  }

  predicate GateOpen(w: World) {
    w.v.settled && w.v.swept && UnlandedEvm(w) == 0
  }

  /** Without a clear, and whatever the verdicts, the arrival test of the gate passes exactly when
      the vault holds what it owes plus everything swept and not yet redeemed. So the quote an
      open gate pays from is at least the sweeps less the redemptions. */
  lemma OpenGateHoldsTheSweep(cfg: Config, start: World, steps: seq<Step>)
    requires Fresh(start) && NoClears(steps)
    ensures var w := Run(cfg, start, steps);
      var left := Swept(cfg, start, steps) - Redeemed(cfg, start, steps);
      && (UnlandedEvm(w) == 0 <==> w.v.totalOwed + left <= w.t.bal)
      && (GateOpen(w) ==> UnreservedBalance(w) >= left)
      && (!w.v.settled ==> w.v.outboundExpectedEvm == w.v.totalOwed + w.v.totalPaidOutEvm)
  {
    ExcessRun(cfg, start, steps);
    if !Run(cfg, start, steps).v.settled {
      NothingSweptBeforeSettlement(cfg, start, steps);
    }
  }

  lemma {:induction false} NothingSweptBeforeSettlement(cfg: Config, w: World, steps: seq<Step>)
    requires !Run(cfg, w, steps).v.settled
    ensures !w.v.settled && Swept(cfg, w, steps) == 0 && Redeemed(cfg, w, steps) == 0
    decreases |steps|
  {
    if steps != [] {
      NothingSweptBeforeSettlement(cfg, Next(cfg, w, steps[0]), steps[1..]);
      SettledIsForever(cfg, w, steps[0]);
    }
  }

  lemma SettledIsForever(cfg: Config, w: World, step: Step)
    ensures w.v.settled ==> Next(cfg, w, step).v.settled && Next(cfg, w, step).v.fractionWad == w.v.fractionWad
  {
    if step.DoCancelDeposit? || step.DoClaimRedeem? {
      PayoutOnlyCredits(cfg, w, step);
    }
  }

  /** Once open, the gate can only be closed by a sweep that asks Core for more. */
  lemma OnlyAPullClosesTheGate(cfg: Config, w: World, step: Step)
    requires Inv(cfg, w) && GateOpen(w)
    ensures GateOpen(Next(cfg, w, step)) || (step.DoPull? && QuoteWeiToEvm(w.c.quote, cfg.scale) > 0)
    ensures step.DoWithdraw? || step.DoRedeemSettled? ==>
      Next(cfg, w, step).t.bal + Next(cfg, w, step).v.totalPaidOutEvm == w.t.bal + w.v.totalPaidOutEvm
  {
  }

  /** A sweep of a settled vault sends the whole Core balance but less than one EVM unit, expects and
      counts what it sends, and opens the way to redemption; nothing about that balance can make it
      revert: only the 64-bit send counter can. */
  lemma PullSendsAllWholeUnits(cfg: Config, w: World)
    requires w.v.settled && w.c.quote <= MAX_U64
    ensures cfg.scale.multiplier > 0
    ensures var evm := w.c.quote / cfg.scale.multiplier;
      var wei := evm * cfg.scale.multiplier;
      var sent := w.v.outboundWei + wei;
      && w.c.quote < wei + cfg.scale.multiplier && wei <= w.c.quote
      && (PullTx(cfg, w).Revert? <==> evm > 0 && sent > MAX_U64)
      && (PullTx(cfg, w).Revert? ==> PullTx(cfg, w) == Revert("PANIC_OVERFLOW"))
      && (PullTx(cfg, w).Done? && evm > 0 ==>
            PullTx(cfg, w).value ==
              w.(v := w.v.(swept := true, outboundExpectedEvm := w.v.outboundExpectedEvm + evm, outboundWei := sent,
                           outboundTarget := if w.c.quote > sent then w.c.quote - sent else 0),
                 c := w.c.(queue := w.c.queue + [Send(wei)])))
      && (evm == 0 ==> PullTx(cfg, w) == Done(w))
  {
    var evm := QuoteWeiToEvm(w.c.quote, cfg.scale);
    QuoteWeiFloors(w.c.quote, cfg.scale);
    QuoteWeiExact(evm, cfg.scale);
    QuoteWeiRoundTrip(evm, cfg.scale);
    MulLe(1, evm, cfg.scale.multiplier);
  }

  // --------------------------------------------------------- settled redemption

  /** Coverage of what is still out: unreserved balance over obligation. `b` covers no worse. */
  predicate CoversNoWorse(a: World, b: World) {
    && SettlementObligation(b) <= SettlementObligation(a)
    && UnreservedBalance(b) * SettlementObligation(a) >= UnreservedBalance(a) * SettlementObligation(b)
  }

  lemma RedeemKeepsCoverage(w: World, user: Address, isYes: bool, amount: nat)
    requires Books(w) && RedeemSettledTx(w, user, isYes, amount).Done?
    ensures CoversNoWorse(w, RedeemSettledTx(w, user, isYes, amount).value)
  {
    var w' := RedeemSettledTx(w, user, isYes, amount).value;
    var t := Entitled(w.t.yesSupply, w.v, true) + Entitled(w.t.noSupply, w.v, false);
    var e := Entitled(amount, w.v, isYes);
    var supply := if isYes then w.t.yesSupply else w.t.noSupply;
    BalanceBelowTotal(Side(w.t, isYes), user);
    RedemptionUnreserved(w, user, isYes, amount);
    MulSub(supply, amount, SideFraction(w.v, isYes));
    MulLe(amount, supply, SideFraction(w.v, isYes));
    assert Entitled(w'.t.yesSupply, w'.v, true) + Entitled(w'.t.noSupply, w'.v, false) == t - e;
    assert UnreservedBalance(w') == UnreservedBalance(w) - RedeemPayout(w, isYes, amount);
    PayingKeepsRatio(UnreservedBalance(w), t, e, WAD, RedeemPayout(w, isYes, amount));
  }

  predicate NeedsLiveVault(step: Step) {
    step.DoDeposit? || step.DoClaimDeposit? || step.DoCancelDeposit? || step.DoRequestRedeem?
    || step.DoClaimRedeem? || step.DoCancelRedeem? || step.DoSettle?
  }

  /** A settled vault takes no operation and has none to finish. */
  lemma SettledRefuses(cfg: Config, w: World, step: Step)
    requires Serial(cfg, w) && w.v.settled && NeedsLiveVault(step)
    ensures Next(cfg, w, step) == w
  {
  }

  /** Anything else after settlement leaves the supplies, and takes nothing unreserved. */
  lemma OthersTakeNothing(cfg: Config, w: World, step: Step)
    requires Inv(cfg, w) && w.v.settled && !NeedsLiveVault(step) && !step.DoRedeemSettled?
    ensures SettlementObligation(Next(cfg, w, step)) == SettlementObligation(w)
    ensures UnreservedBalance(Next(cfg, w, step)) >= UnreservedBalance(w)
  {
  }

  lemma SettledStepKeepsCoverage(cfg: Config, w: World, step: Step)
    requires Inv(cfg, w) && w.v.settled
    ensures CoversNoWorse(w, Next(cfg, w, step))
  {
    if step.DoRedeemSettled? {
      if Transaction(cfg, w, step).Done? {
        RedeemKeepsCoverage(w, step.user, step.isYes, step.amount);
      }
    } else if NeedsLiveVault(step) {
      SettledRefuses(cfg, w, step);
    } else {
      OthersTakeNothing(cfg, w, step);
      MulLe(UnreservedBalance(w), UnreservedBalance(Next(cfg, w, step)), SettlementObligation(w));
    }
  }

  /** After settlement, over any run in which users redeem and withdraw in any order and sizes,
      coverage never falls: a full pool stays full, and one past the 99% floor stays past it. A
      redemption, once its turn comes, pays at least what it would have paid at the start. */
  lemma {:induction false} WaitingNeverHurts(cfg: Config, w: World, steps: seq<Step>, isYes: bool, amount: nat)
    requires Inv(cfg, w) && w.v.settled && HonestRun(cfg, w, steps)
    ensures var w' := Run(cfg, w, steps);
      && CoversNoWorse(w, w')
      && RedeemPayout(w, isYes, amount) <= RedeemPayout(w', isYes, amount)
      && w'.v.settled && w'.v.fractionWad == w.v.fractionWad
    decreases |steps|
  {
    if steps == [] {
    } else {
      var w1 := Next(cfg, w, steps[0]);
      var w' := Run(cfg, w1, steps[1..]);
      StepKeeps(cfg, w, steps[0]);
      SettledIsForever(cfg, w, steps[0]);
      SettledStepKeepsCoverage(cfg, w, steps[0]);
      WaitingNeverHurts(cfg, w1, steps[1..], isYes, amount);
      RatioTransitive(UnreservedBalance(w), SettlementObligation(w), UnreservedBalance(w1), SettlementObligation(w1),
                      UnreservedBalance(w'), SettlementObligation(w'));
      ShareMonotone(Entitled(amount, w.v, isYes) / WAD, UnreservedBalance(w), SettlementObligation(w),
                    UnreservedBalance(w1), SettlementObligation(w1));
    }
  }

  /** So a pool that covers a share of what it owes, be it all of it (10000 bps) or the 99% floor
      redemptions ask for, covers that share for ever after. */
  lemma PassedFloorsStayPassed(cfg: Config, w: World, steps: seq<Step>, bps: nat)
    requires Inv(cfg, w) && w.v.settled && HonestRun(cfg, w, steps)
    requires UnreservedBalance(w) * BPS >= SettlementObligation(w) * bps
    ensures var w' := Run(cfg, w, steps);
      UnreservedBalance(w') * BPS >= SettlementObligation(w') * bps
  {
    var w' := Run(cfg, w, steps);
    WaitingNeverHurts(cfg, w, steps, true, 0);
    FloorTransfer(UnreservedBalance(w), SettlementObligation(w),
                  UnreservedBalance(w'), SettlementObligation(w'), bps, BPS);
  }
}
