/** What the vault's transactions do to everybody's money, told in balances: when exactly each goes
    through, whom it credits and debits and by how much, and whom it leaves alone. */
module VaultEffects {
  import opened CoreConstants
  import opened NonLinear
  import opened Prelude
  import opened Sums
  import opened VaultInvariants
  import opened VaultState

  // ----------------------------------------------------- settled redemptions

  /** A settled redemption goes through exactly when the vault has settled and swept, everything
      expected has landed, at least 99% of what all shares are entitled to is there, and the
      sender holds the shares and gets something for them. It then pays each YES its fraction
      and each NO the rest of one, or the pool's share of that if the pool is short. */
  lemma SettledRedemptionPays(w: World, user: Address, isYes: bool, amount: nat)
    requires Books(w)
    ensures
      var f := if isYes then w.v.fractionWad else WAD - w.v.fractionWad;
      var due := (w.t.yesSupply * w.v.fractionWad + w.t.noSupply * (WAD - w.v.fractionWad)) / WAD;
      var pool := if w.t.bal > w.v.totalOwed then w.t.bal - w.v.totalOwed else 0;
      var pays := if due <= pool then amount * f / WAD else amount * f / WAD * pool / due;
      var tx := RedeemSettledTx(w, user, isYes, amount);
      && (tx.Done? <==>
            && w.v.settled && w.v.swept
            && w.v.outboundExpectedEvm <= w.t.bal + w.v.totalPaidOutEvm
            && pool * 10_000 >= due * 9_900
            && pays > 0
            && amount <= Balance(if isYes then w.t.yes else w.t.no, user))
      && (tx.Done? ==>
            && tx.value.t.bal == w.t.bal - pays
            && tx.value.t.yesSupply == w.t.yesSupply - (if isYes then amount else 0)
            && tx.value.t.noSupply == w.t.noSupply - (if isYes then 0 else amount)
            && tx.value.v == w.v.(totalPaidOutEvm := w.v.totalPaidOutEvm + pays) && tx.value.c == w.c
            && forall a ::
                 && Balance(tx.value.t.purse, a) == Balance(w.t.purse, a) + (if a == user then pays else 0)
                 && Balance(tx.value.t.yes, a) == Balance(w.t.yes, a) - (if a == user && isYes then amount else 0)
                 && Balance(tx.value.t.no, a) == Balance(w.t.no, a) - (if a == user && !isYes then amount else 0))
  {
    RedeemTerms(w, isYes, amount);
    if amount <= Balance(Side(w.t, isYes), user) {
      PayoutWithinPool(w, user, isYes, amount);
    }
    if RedeemSettledTx(w, user, isYes, amount).Done? {
      RedeemMoves(w, user, isYes, amount);
    }
  }

  lemma RedeemTerms(w: World, isYes: bool, amount: nat)
    requires Books(w)
    ensures
      var f := if isYes then w.v.fractionWad else WAD - w.v.fractionWad;
      var due := (w.t.yesSupply * w.v.fractionWad + w.t.noSupply * (WAD - w.v.fractionWad)) / WAD;
      var pool := if w.t.bal > w.v.totalOwed then w.t.bal - w.v.totalOwed else 0;
      && SettlementObligation(w) == due && UnreservedBalance(w) == pool
      && RedeemPayout(w, isYes, amount) == if due <= pool then amount * f / WAD else amount * f / WAD * pool / due
  {
  }

  /** What a settled redemption moves: its payout and the shares burned, of the sender. */
  lemma RedeemMoves(w: World, user: Address, isYes: bool, amount: nat)
    requires Books(w) && RedeemSettledTx(w, user, isYes, amount).Done?
    ensures
      var pays := RedeemPayout(w, isYes, amount);
      var w' := RedeemSettledTx(w, user, isYes, amount).value;
      && w'.t.bal == w.t.bal - pays
      && w'.t.yesSupply == w.t.yesSupply - (if isYes then amount else 0)
      && w'.t.noSupply == w.t.noSupply - (if isYes then 0 else amount)
      && w'.v == w.v.(totalPaidOutEvm := w.v.totalPaidOutEvm + pays) && w'.c == w.c
      && forall a ::
           && Balance(w'.t.purse, a) == Balance(w.t.purse, a) + (if a == user then pays else 0)
           && Balance(w'.t.yes, a) == Balance(w.t.yes, a) - (if a == user && isYes then amount else 0)
           && Balance(w'.t.no, a) == Balance(w.t.no, a) - (if a == user && !isYes then amount else 0)
  {
    BalanceBelowTotal(Side(w.t, isYes), user);
  }

  /** What a holder can redeem is never more than the pool. */
  lemma PayoutWithinPool(w: World, user: Address, isYes: bool, amount: nat)
    requires Books(w) && amount <= Balance(Side(w.t, isYes), user)
    ensures RedeemPayout(w, isYes, amount) <= UnreservedBalance(w)
  {
    EntitlementWithinObligation(w, user, isYes, amount);
    if SettlementObligation(w) > UnreservedBalance(w) {
      PortionWithin(Entitled(amount, w.v, isYes) / WAD, UnreservedBalance(w), SettlementObligation(w));
    }
  }

  // ------------------------------------------------------------ withdrawals

  /** A withdrawal goes through exactly when something is owed to the sender and the vault holds it;
      it pays the sender all of that and touches nobody else. */
  lemma WithdrawalPays(w: World, user: Address)
    requires Books(w)
    ensures
      var due := Balance(w.v.owed, user);
      var tx := WithdrawTx(w, user);
      && (tx.Done? <==> 0 < due <= w.t.bal)
      && (tx.Done? ==>
            && tx.value.t == w.t.(bal := w.t.bal - due, purse := tx.value.t.purse)
            && tx.value.v == w.v.(owed := tx.value.v.owed, totalOwed := w.v.totalOwed - due,
                                  totalPaidOutEvm := w.v.totalPaidOutEvm + due)
            && tx.value.c == w.c
            && forall a ::
                 && Balance(tx.value.t.purse, a) == Balance(w.t.purse, a) + (if a == user then due else 0)
                 && Balance(tx.value.v.owed, a) == if a == user then 0 else Balance(w.v.owed, a))
  {
    BalanceBelowTotal(w.v.owed, user);
  }

  // ------------------------------------------------- the four ends of an op

  /** A claimed deposit and a cancelled redemption end alike, on the opposite verdicts: the pending
      user, and only that user, gets the pending amount of both tokens. */
  lemma PairsGoToTheirUser(w: World, verdict: Verdict)
    ensures ClaimDepositTx(w, verdict).Done? <==> w.v.deposit.Deposit? && verdict == Executed
    ensures CancelRedeemTx(w, verdict).Done? <==> w.v.redeem.Redeem? && verdict == Failed
    ensures ClaimDepositTx(w, verdict).Done? ==>
      var w' := ClaimDepositTx(w, verdict).value;
      PairIssued(w.t, w'.t, w.v.deposit.user, w.v.deposit.amount) && w'.v == w.v.(deposit := NoDeposit) && w'.c == w.c
    ensures CancelRedeemTx(w, verdict).Done? ==>
      var w' := CancelRedeemTx(w, verdict).value;
      PairIssued(w.t, w'.t, w.v.redeem.user, w.v.redeem.amount) && w'.v == w.v.(redeem := NoRedeem) && w'.c == w.c
  {
  }

  ghost predicate PairIssued(t: Tokens, t': Tokens, user: Address, amount: nat) {
    && t'.bal == t.bal && t'.purse == t.purse
    && t'.yesSupply == t.yesSupply + amount && t'.noSupply == t.noSupply + amount
    && forall a ::
         && Balance(t'.yes, a) == Balance(t.yes, a) + (if a == user then amount else 0)
         && Balance(t'.no, a) == Balance(t.no, a) + (if a == user then amount else 0)
  }

  /** What a payout of `amount` comes to: all of it, or what Core holds in whole units beyond what
      has been sent and has not landed. */
  function Creditable(cfg: Config, w: World, amount: nat): nat
    requires cfg.scale.multiplier > 0
  {
    var landed := w.t.bal + w.v.totalPaidOutEvm;
    var inFlight := if w.v.outboundExpectedEvm > landed then w.v.outboundExpectedEvm - landed else 0;
    var onCore := w.c.quote / cfg.scale.multiplier;
    if amount + inFlight <= onCore then amount else if inFlight < onCore then onCore - inFlight else 0
  }

  /** A payout goes through exactly when at least 99% of it can be credited, and that is something
      and, with the sends still counted, fits Core's word; Core must be able to count all of it. */
  predicate CanPayOut(cfg: Config, w: World, amount: nat)
    requires cfg.scale.multiplier > 0
  {
    var credit := Creditable(cfg, w, amount);
    && credit * 10_000 >= amount * 9_900 && credit > 0
    && amount * cfg.scale.multiplier <= MAX_U64
    && w.v.outboundWei + credit * cfg.scale.multiplier <= MAX_U64
  }

  /** `user` is owed `credit` more, a send of just that is queued, expected and counted, the dwell target
      is what Core holds less all counted sends, nobody's tokens move, and nobody else is owed more
      or less. The slots are told elsewhere. */
  ghost predicate PaidOut(cfg: Config, w: World, w': World, user: Address, credit: nat) {
    var sent := w.v.outboundWei + credit * cfg.scale.multiplier;
    && w'.t == w.t
    && w'.c == w.c.(queue := w.c.queue + [Send(credit * cfg.scale.multiplier)])
    && w'.v == w.v.(deposit := w'.v.deposit, redeem := w'.v.redeem, owed := w'.v.owed,
                    totalOwed := w.v.totalOwed + credit,
                    outboundExpectedEvm := w.v.outboundExpectedEvm + credit, outboundWei := sent,
                    outboundTarget := if w.c.quote > sent then w.c.quote - sent else 0)
    && forall a :: Balance(w'.v.owed, a) == Balance(w.v.owed, a) + (if a == user then credit else 0)
  }

  lemma PayOutPays(cfg: Config, w: World, user: Address, amount: nat)
    ensures cfg.scale.multiplier > 0
    ensures PayOut(cfg, w, user, amount).Done? <==> CanPayOut(cfg, w, amount)
    ensures PayOut(cfg, w, user, amount).Done? ==>
      PaidOut(cfg, w, PayOut(cfg, w, user, amount).value, user, Creditable(cfg, w, amount))
  {
    var credit := PayableNow(cfg, w, amount);
    QuoteWeiFloors(w.c.quote, cfg.scale);
    assert credit == Creditable(cfg, w, amount);
    QuoteWeiExact(credit, cfg.scale);
    QuoteWeiExact(amount, cfg.scale);
    QuoteWeiRoundTrip(credit, cfg.scale);
    MulLe(credit, amount, cfg.scale.multiplier);
    MulLe(1, credit, cfg.scale.multiplier);
    MulLe(1, amount, cfg.scale.multiplier);
  }

  /** The refund of a failed split: only once Core holds the deposit on top of what it held when
      the deposit was made. */
  lemma FailedSplitsAreRefunded(cfg: Config, w: World, verdict: Verdict)
    ensures cfg.scale.multiplier > 0
    ensures
      var p := w.v.deposit;
      var tx := CancelDepositTx(cfg, w, verdict);
      && (tx.Done? <==>
            && p.Deposit? && verdict == Failed
            && p.quoteCoreBefore + p.amount * cfg.scale.multiplier <= MAX_U64
            && p.quoteCoreBefore + p.amount * cfg.scale.multiplier <= w.c.quote
            && CanPayOut(cfg, w, p.amount))
      && (tx.Done? ==> PaidOut(cfg, w, tx.value, p.user, Creditable(cfg, w, p.amount))
                       && tx.value.v.deposit.NoDeposit? && tx.value.v.redeem == w.v.redeem)
  {
    QuoteWeiFloors(w.c.quote, cfg.scale);
    if w.v.deposit.Deposit? {
      var p, idle := w.v.deposit, w.(v := w.v.(deposit := NoDeposit));
      QuoteWeiExact(p.amount, cfg.scale);
      PayOutPays(cfg, idle, p.user, p.amount);
      assert CanPayOut(cfg, w, p.amount) == CanPayOut(cfg, idle, p.amount);
      MulLe(1, p.amount, cfg.scale.multiplier);
    }
  }

  /** The payout of an executed merge. */
  lemma ExecutedMergesArePaid(cfg: Config, w: World, verdict: Verdict)
    ensures cfg.scale.multiplier > 0
    ensures
      var p := w.v.redeem;
      var tx := ClaimRedeemTx(cfg, w, verdict);
      && (tx.Done? <==> p.Redeem? && verdict == Executed && CanPayOut(cfg, w, p.amount))
      && (tx.Done? ==> PaidOut(cfg, w, tx.value, p.user, Creditable(cfg, w, p.amount))
                       && tx.value.v.redeem.NoRedeem? && tx.value.v.deposit == w.v.deposit)
  {
    QuoteWeiFloors(w.c.quote, cfg.scale);
    if w.v.redeem.Redeem? {
      var p, idle := w.v.redeem, w.(v := w.v.(redeem := NoRedeem));
      PayOutPays(cfg, idle, p.user, p.amount);
      assert CanPayOut(cfg, w, p.amount) == CanPayOut(cfg, idle, p.amount);
    }
  }

  // ------------------------------------------------ how operations begin

  /** A deposit is accepted exactly when the vault has not settled, has nothing pending, its sends
      have left Core, Core has wei for just that amount, and the sender holds it. It takes it from
      the sender, sends it to Core and queues its split. */
  lemma DepositsBegin(cfg: Config, w: World, user: Address, amount: nat)
    ensures
      var tx := DepositTx(cfg, w, user, amount);
      && (tx.Done? <==>
            && !w.v.settled && w.v.deposit.NoDeposit? && w.v.redeem.NoRedeem?
            && (w.v.outboundWei == 0 || w.c.quote <= w.v.outboundTarget)
            && EvmToOutcomeWei(amount, cfg.scale).Done?
            && amount <= Balance(w.t.purse, user))
      && (tx.Done? ==>
            && tx.value.v == w.v.(deposit := Deposit(user, amount, w.v.nextOpId + 1, w.c.quote),
                                  nextOpId := w.v.nextOpId + 1, outboundWei := 0)
            && tx.value.c.transit == w.c.transit + amount
            && tx.value.c.quote == w.c.quote
            && tx.value.c.queue == w.c.queue + [Split(w.v.nextOpId + 1, EvmToOutcomeWei(amount, cfg.scale).value)]
            && tx.value.t == w.t.(purse := tx.value.t.purse)
            && forall a :: Balance(tx.value.t.purse, a) == Balance(w.t.purse, a) - (if a == user then amount else 0))
  {
  }

  /** A redemption is accepted exactly when the vault has not settled, has nothing pending, Core has
      wei for just that amount, and the sender holds it in both tokens. It burns the pair from the
      sender and queues its merge. */
  lemma RedemptionsBegin(cfg: Config, w: World, user: Address, amount: nat)
    requires Books(w)
    ensures
      var tx := RequestRedeemTx(cfg, w, user, amount);
      && (tx.Done? <==>
            && !w.v.settled && w.v.deposit.NoDeposit? && w.v.redeem.NoRedeem?
            && EvmToOutcomeWei(amount, cfg.scale).Done?
            && amount <= Balance(w.t.yes, user) && amount <= Balance(w.t.no, user))
      && (tx.Done? ==>
            && tx.value.v == w.v.(redeem := Redeem(user, amount, w.v.nextOpId + 1), nextOpId := w.v.nextOpId + 1)
            && tx.value.c == w.c.(queue := w.c.queue + [Merge(w.v.nextOpId + 1, EvmToOutcomeWei(amount, cfg.scale).value)])
            && PairIssued(tx.value.t, w.t, user, amount))
  {
    BalanceBelowTotal(w.t.yes, user);
    BalanceBelowTotal(w.t.no, user);
  }

  // ------------------------------------------------------------- settlement

  /** Who can settle, when, and at which fraction: anyone at the value a resolved market of this
      vault's question shows, the keeper at the one it observed once the market is pruned; never
      twice, never with an operation pending, never above one. */
  lemma SettlesExactlyWhen(cfg: Config, w: World, sender: Address, observed: nat)
    ensures
      var tx := SettleTx(cfg, w, sender, observed);
      var fraction := match w.c.market
        case Resolved(value, _) => value * 1_000_000_000_000_000_000 / 100_000_000
        case _ => observed;
      && (tx.Done? <==>
            && !w.v.settled && w.v.deposit.NoDeposit? && w.v.redeem.NoRedeem?
            && fraction <= 1_000_000_000_000_000_000
            && match w.c.market
               case Active => false
               case Resolved(_, question) => question == cfg.question
               case Pruned => sender == cfg.keeper)
      && (tx.Done? ==> tx.value == w.(v := w.v.(settled := true, fractionWad := fraction)))
  {
  }

  /** A clear is the owner's alone; afterwards nothing is counted or expected beyond what is here, and a
      settled vault may be redeemed from. */
  lemma ClearsWriteDownReality(cfg: Config, w: World, sender: Address)
    ensures ClearOutboundTx(cfg, w, sender).Done? <==> sender == cfg.owner
    ensures ClearOutboundTx(cfg, w, sender).Done? ==>
      ClearOutboundTx(cfg, w, sender).value ==
        w.(v := w.v.(outboundWei := 0, outboundExpectedEvm := w.t.bal + w.v.totalPaidOutEvm,
                     swept := if w.v.settled then true else w.v.swept))
  {
  }

  // ------------------------------------------------------------- on Core

  /** What Core does with a split, a merge or a send it takes off the queue. A wei of outcome is a
      thousand wei of collateral. A split runs exactly when the collateral is there; a merge when it
      is locked, fits a Core balance and leaves one that does, less the fee; a send lands when it
      is covered and is a whole number of EVM units. What does not run has no effect but, for an
      operation, the verdict that it failed. */
  lemma CoreAppliesExactly(cfg: Config, w: World, i: nat, dropped: bool)
    requires i < |w.c.queue|
    ensures cfg.scale.multiplier > 0
    ensures
      var a := w.c.queue[i];
      var rest := w.c.queue[..i] + w.c.queue[i + 1..];
      var w' := ProcessAction(cfg, w, i, dropped);
      match a
      case Split(id, wei) =>
        var runs := !dropped && wei * 1_000 <= w.c.quote;
        && w'.t == w.t && w'.v == w.v
        && w'.c == w.c.(queue := rest, fate := w.c.fate[id := runs],
                        quote := if runs then w.c.quote - wei * 1_000 else w.c.quote,
                        locked := if runs then w.c.locked + wei * 1_000 else w.c.locked)
      case Merge(id, wei) =>
        var fee := wei * 1_000 * w.c.mergeFeeBps / 10_000;
        var runs := !dropped && wei * 1_000 <= w.c.locked && wei * 1_000 <= MAX_U64
                    && w.c.quote + wei * 1_000 - fee <= MAX_U64;
        && fee <= wei * 1_000
        && w'.t == w.t && w'.v == w.v
        && w'.c == w.c.(queue := rest, fate := w.c.fate[id := runs],
                        quote := if runs then w.c.quote + wei * 1_000 - fee else w.c.quote,
                        locked := if runs then w.c.locked - wei * 1_000 else w.c.locked)
      case Send(wei) =>
        var lands := !dropped && wei <= w.c.quote && wei % cfg.scale.multiplier == 0;
        && w'.v == w.v
        && w'.t == w.t.(bal := if lands then w.t.bal + wei / cfg.scale.multiplier else w.t.bal)
        && w'.c == w.c.(queue := rest, quote := if lands then w.c.quote - wei else w.c.quote)
  {
    ScalePositive(cfg.scale);
    var a := w.c.queue[i];
    if a.Send? {
      QuoteWeiFloors(a.wei, cfg.scale);
      DivBounds(a.wei, cfg.scale.multiplier);
    } else {
      assert CollateralOf(a.wei) == a.wei * 1_000;
      assert MergeFee(w.c, CollateralOf(a.wei)) == a.wei * 1_000 * w.c.mergeFeeBps / 10_000;
    }
  }

  // -------------------------------------- a refund needs its own deposit's credit

  /** The slot of deposit `d` holds it, is empty, or holds a later one. */
  predicate OnlyLater(d: DepositSlot, w: World)
    requires d.Deposit?
  {
    && d.opId <= w.v.nextOpId
    && (w.v.deposit.Deposit? ==> w.v.deposit == d || w.v.deposit.opId > d.opId)
  }

  lemma PayoutKeepsSlots(cfg: Config, w: World, user: Address, amount: nat)
    requires PayOut(cfg, w, user, amount).Done?
    ensures var w' := PayOut(cfg, w, user, amount).value;
      w'.v.deposit == w.v.deposit && w'.v.redeem == w.v.redeem && w'.v.nextOpId == w.v.nextOpId
  {
  }

  lemma SlotStep(cfg: Config, d: DepositSlot, w: World, step: Step)
    requires d.Deposit? && OnlyLater(d, w)
    ensures OnlyLater(d, Next(cfg, w, step))
  {
    if Transaction(cfg, w, step).Done? {
      match step
      case DoCancelDeposit(_) => PayoutKeepsSlots(cfg, w.(v := w.v.(deposit := NoDeposit)), w.v.deposit.user, w.v.deposit.amount);
      case DoClaimRedeem(_) => PayoutKeepsSlots(cfg, w.(v := w.v.(redeem := NoRedeem)), w.v.redeem.user, w.v.redeem.amount);
      case _ =>
    }
  }

  lemma {:induction false} SlotRun(cfg: Config, d: DepositSlot, w: World, steps: seq<Step>)
    requires d.Deposit? && OnlyLater(d, w)
    ensures OnlyLater(d, Run(cfg, w, steps))
    decreases |steps|
  {
    if steps != [] {
      SlotStep(cfg, d, w, steps[0]);
      SlotRun(cfg, d, Next(cfg, w, steps[0]), steps[1..]);
    }
  }

  /** Whatever happens after a deposit, as long as it is the one pending it is cancelled only while
      Core holds at least the deposit on top of what it held when the deposit was made, and the
      depositor is who gets the credit. */
  lemma RefundNeedsTheCredit(cfg: Config, w: World, user: Address, amount: nat, steps: seq<Step>, verdict: Verdict)
    requires DepositTx(cfg, w, user, amount).Done?
    requires var w1 := Run(cfg, DepositTx(cfg, w, user, amount).value, steps);
      && w1.v.deposit.Deposit? && w1.v.deposit.opId == w.v.nextOpId + 1
      && CancelDepositTx(cfg, w1, verdict).Done?
    ensures var w1 := Run(cfg, DepositTx(cfg, w, user, amount).value, steps);
      var w2 := CancelDepositTx(cfg, w1, verdict).value;
      && w1.c.quote >= w.c.quote + amount * cfg.scale.multiplier
      && (Balance(w2.v.owed, user) - Balance(w1.v.owed, user)) * 10_000 >= amount * 9_900
      && forall a :: a != user ==> Balance(w2.v.owed, a) == Balance(w1.v.owed, a)
  {
    var started := DepositTx(cfg, w, user, amount).value;
    SlotRun(cfg, started.v.deposit, started, steps);
    FailedSplitsAreRefunded(cfg, Run(cfg, started, steps), verdict);
  }
}
