/** What every transaction and every environment step keep: the books balance, the queue holds
    at most the one pending operation, quote owed is covered, and shares are backed. */
module VaultInvariants {
  import opened CoreConstants
  import opened NonLinear
  import opened Prelude
  import opened Sums
  import opened VaultState

  /** The tracked totals are the totals. */
  ghost predicate Books(w: World) {
    && Total(w.v.owed) == w.v.totalOwed
    && Total(w.t.yes) == w.t.yesSupply
    && Total(w.t.no) == w.t.noSupply
    && w.v.fractionWad <= WAD
  }

  /** A queued operation is the one in the pending slot, not yet decided, for the same
      collateral; a queued send is a whole number of EVM units. */
  predicate MatchesSlot(cfg: Config, w: World, a: Action) {
    match a
    case Split(opId, wei) =>
      w.v.deposit.Deposit? && w.v.deposit.opId == opId && opId !in w.c.fate &&
      CollateralOf(wei) == w.v.deposit.amount * cfg.scale.multiplier
    case Merge(opId, wei) =>
      w.v.redeem.Redeem? && w.v.redeem.opId == opId && opId !in w.c.fate &&
      CollateralOf(wei) == w.v.redeem.amount * cfg.scale.multiplier
    case Send(wei) => QuoteWeiToEvm(wei, cfg.scale) * cfg.scale.multiplier == wei
  }

  ghost predicate Serial(cfg: Config, w: World) {
    && (forall i :: 0 <= i < |w.c.queue| ==> MatchesSlot(cfg, w, w.c.queue[i]))
    && (forall i, j :: 0 <= i < j < |w.c.queue| ==> w.c.queue[i].Send? || w.c.queue[j].Send?)
    && (forall k :: k in w.c.fate ==> k <= w.v.nextOpId)
    && (w.v.deposit.Deposit? ==> w.v.redeem.NoRedeem? && w.v.deposit.opId <= w.v.nextOpId)
    && (w.v.redeem.Redeem? ==> w.v.redeem.opId <= w.v.nextOpId)
    && (w.v.settled ==> IsIdle(w.v))
  }

  /** EVM quote and Core quote together cover what users are owed. */
  predicate Covered(cfg: Config, w: World) {
    w.v.totalOwed * cfg.scale.multiplier <= w.t.bal * cfg.scale.multiplier + w.c.quote
  }

  /** The outbound trackers, while users can still be credited. */
  predicate Tracked(cfg: Config, w: World) {
    var m := cfg.scale.multiplier;
    && w.v.totalOwed + w.v.totalPaidOutEvm <= w.v.outboundExpectedEvm
    && w.v.totalOwed * m <= w.t.bal * m + w.v.outboundWei
    && (w.v.outboundWei > 0 ==> w.v.totalOwed * m + w.v.outboundTarget <= w.c.quote + w.t.bal * m)
    && (w.v.deposit.Deposit? ==> w.v.outboundWei == 0)
  }

  predicate Money(cfg: Config, w: World) {
    && w.c.quote <= MAX_U64
    && Covered(cfg, w)
    && (!w.v.settled ==> Tracked(cfg, w))
  }

  function ExecutedUnclaimed(w: World): nat {
    if w.v.deposit.Deposit? && w.v.deposit.opId in w.c.fate && w.c.fate[w.v.deposit.opId]
    then w.v.deposit.amount else 0
  }

  function BurnedUnmerged(w: World): nat {
    if w.v.redeem.Redeem? && !(w.v.redeem.opId in w.c.fate && w.c.fate[w.v.redeem.opId])
    then w.v.redeem.amount else 0
  }

  /** Until the vault settles there is a NO for each YES; and until Core credits the settlement,
      shares locked there are the supply, a split that ran but is unclaimed, and a merge that
      burned its pair but has not run. */
  predicate Backed(cfg: Config, w: World) {
    !w.v.settled ==>
      && w.t.yesSupply == w.t.noSupply
      && (!w.c.credited ==>
            w.c.locked == (w.t.yesSupply + ExecutedUnclaimed(w) + BurnedUnmerged(w)) * cfg.scale.multiplier)
  }

  ghost predicate Inv(cfg: Config, w: World) {
    Books(w) && Serial(cfg, w) && Money(cfg, w) && Backed(cfg, w)
  }

  lemma FreshInv(cfg: Config, w: World)
    requires Fresh(w)
    ensures Inv(cfg, w)
  {
  }

  // ------------------------------------------------------- payouts and sends

  /** A payout never credits quote that is promised elsewhere. */
  lemma PayableIsCovered(cfg: Config, w: World, amount: nat)
    requires Money(cfg, w) && !w.v.settled
    ensures (w.v.totalOwed + PayableNow(cfg, w, amount)) * cfg.scale.multiplier
         <= w.t.bal * cfg.scale.multiplier + w.c.quote
  {
    var m := cfg.scale.multiplier;
    var credit := PayableNow(cfg, w, amount);
    var coreEvm := QuoteWeiToEvm(w.c.quote, cfg.scale);
    QuoteWeiFloors(w.c.quote, cfg.scale);
    if credit > 0 {
      assert credit <= coreEvm - UnlandedEvm(w);
      assert w.v.totalOwed + credit <= w.t.bal + coreEvm;
      MulLe(w.v.totalOwed + credit, w.t.bal + coreEvm, m);
      assert (w.t.bal + coreEvm) * m == w.t.bal * m + coreEvm * m;
    }
  }

  /** The world after a payout of `credit` EVM units. */
  function Paid(cfg: Config, w: World, user: Address, credit: nat): World {
    var wei := credit * cfg.scale.multiplier;
    w.(v := w.v.(
         owed := Credit(w.v.owed, user, credit),
         totalOwed := w.v.totalOwed + credit,
         outboundExpectedEvm := w.v.outboundExpectedEvm + credit,
         outboundWei := w.v.outboundWei + wei,
         outboundTarget := Monus(w.c.quote, w.v.outboundWei + wei)),
       c := w.c.(queue := w.c.queue + [Send(wei)]))
  }

  /** A payout that commits credits what is payable now, at least 99% of what was asked for. */
  lemma PayOutEffect(cfg: Config, w: World, user: Address, amount: nat)
    requires PayOut(cfg, w, user, amount).Done?
    ensures PayOut(cfg, w, user, amount).value == Paid(cfg, w, user, PayableNow(cfg, w, amount))
    ensures PayableNow(cfg, w, amount) * BPS >= amount * PAYOUT_MIN_BPS
    ensures 0 < PayableNow(cfg, w, amount) <= amount
  {
    var credit := PayableNow(cfg, w, amount);
    QuoteWeiExact(credit, cfg.scale);
    QuoteWeiRoundTrip(credit, cfg.scale);
    MulLe(credit, 0, cfg.scale.multiplier);
  }

  lemma PaidSerial(cfg: Config, w: World, user: Address, credit: nat)
    requires Serial(cfg, w) && w.v.deposit.NoDeposit? && !w.v.settled
    ensures Serial(cfg, Paid(cfg, w, user, credit))
  {
    var w' := Paid(cfg, w, user, credit);
    var q := w.c.queue;
    QuoteWeiRoundTrip(credit, cfg.scale);
    forall i | 0 <= i < |q| + 1 ensures MatchesSlot(cfg, w', w'.c.queue[i]) {
      if i < |q| {
        assert MatchesSlot(cfg, w, q[i]);
      }
    }
  }

  lemma PaidMoney(cfg: Config, w: World, user: Address, amount: nat)
    requires Money(cfg, w) && w.v.deposit.NoDeposit? && !w.v.settled
    ensures Money(cfg, Paid(cfg, w, user, PayableNow(cfg, w, amount)))
  {
    var m := cfg.scale.multiplier;
    var credit := PayableNow(cfg, w, amount);
    PayableIsCovered(cfg, w, amount);
    assert (w.v.totalOwed + credit) * m == w.v.totalOwed * m + credit * m;
  }

  lemma PayOutKeeps(cfg: Config, w: World, user: Address, amount: nat)
    requires Inv(cfg, w) && !w.v.settled && w.v.deposit.NoDeposit?
    requires PayOut(cfg, w, user, amount).Done?
    ensures Inv(cfg, PayOut(cfg, w, user, amount).value)
  {
    PayOutEffect(cfg, w, user, amount);
    PaidSerial(cfg, w, user, PayableNow(cfg, w, amount));
    PaidMoney(cfg, w, user, amount);
  }

  // ------------------------------------------------------- one step at a time

  /** Nothing is queued for a slot whose operation Core has finished with. */
  lemma DecidedNotQueued(cfg: Config, w: World)
    requires Serial(cfg, w)
    requires w.v.deposit.Deposit? ==> w.v.deposit.opId in w.c.fate
    requires w.v.redeem.Redeem? ==> w.v.redeem.opId in w.c.fate
    ensures forall i :: 0 <= i < |w.c.queue| ==> w.c.queue[i].Send?
  {
    forall i | 0 <= i < |w.c.queue| ensures w.c.queue[i].Send? {
      assert MatchesSlot(cfg, w, w.c.queue[i]);
    }
  }

  lemma DepositSerial(cfg: Config, w: World, user: Address, amount: nat)
    requires Serial(cfg, w) && DepositTx(cfg, w, user, amount).Done?
    ensures Serial(cfg, DepositTx(cfg, w, user, amount).value)
  {
    var w' := DepositTx(cfg, w, user, amount).value;
    SplitDebitsWhatDepositCredits(amount, cfg.scale);
    DecidedNotQueued(cfg, w);
    forall i | 0 <= i < |w'.c.queue| ensures MatchesSlot(cfg, w', w'.c.queue[i]) {
      if i < |w.c.queue| {
        assert MatchesSlot(cfg, w, w.c.queue[i]);
      }
    }
  }

  lemma RequestRedeemSerial(cfg: Config, w: World, user: Address, amount: nat)
    requires Serial(cfg, w) && RequestRedeemTx(cfg, w, user, amount).Done?
    ensures Serial(cfg, RequestRedeemTx(cfg, w, user, amount).value)
  {
    var w' := RequestRedeemTx(cfg, w, user, amount).value;
    SplitDebitsWhatDepositCredits(amount, cfg.scale);
    DecidedNotQueued(cfg, w);
    forall i | 0 <= i < |w'.c.queue| ensures MatchesSlot(cfg, w', w'.c.queue[i]) {
      if i < |w.c.queue| {
        assert MatchesSlot(cfg, w, w.c.queue[i]);
      }
    }
  }

  /** Emptying the slots of a decided operation keeps the queue discipline: only sends are queued. */
  lemma ClosedSerial(cfg: Config, w: World, w': World)
    requires Serial(cfg, w) && w'.c.queue == w.c.queue && w'.c.fate == w.c.fate && w'.v.nextOpId == w.v.nextOpId
    requires w.v.deposit.Deposit? ==> w.v.deposit.opId in w.c.fate
    requires w.v.redeem.Redeem? ==> w.v.redeem.opId in w.c.fate
    requires IsIdle(w'.v)
    ensures Serial(cfg, w')
  {
    DecidedNotQueued(cfg, w);
    forall i | 0 <= i < |w'.c.queue| ensures MatchesSlot(cfg, w', w'.c.queue[i]) {
      assert MatchesSlot(cfg, w, w.c.queue[i]);
    }
  }

  lemma DepositKeeps(cfg: Config, w: World, user: Address, amount: nat)
    requires Inv(cfg, w) && DepositTx(cfg, w, user, amount).Done?
    ensures Inv(cfg, DepositTx(cfg, w, user, amount).value)
  {
    DepositSerial(cfg, w, user, amount);
  }

  lemma ClaimDepositKeeps(cfg: Config, w: World, verdict: Verdict)
    requires Inv(cfg, w) && TruthfulStep(w, DoClaimDeposit(verdict)) && ClaimDepositTx(w, verdict).Done?
    ensures Inv(cfg, ClaimDepositTx(w, verdict).value)
  {
    ClosedSerial(cfg, w, ClaimDepositTx(w, verdict).value);
  }

  lemma CancelDepositKeeps(cfg: Config, w: World, verdict: Verdict)
    requires Inv(cfg, w) && TruthfulStep(w, DoCancelDeposit(verdict)) && CancelDepositTx(cfg, w, verdict).Done?
    ensures Inv(cfg, CancelDepositTx(cfg, w, verdict).value)
  {
    ClosedSerial(cfg, w, w.(v := w.v.(deposit := NoDeposit)));
    PayOutKeeps(cfg, w.(v := w.v.(deposit := NoDeposit)), w.v.deposit.user, w.v.deposit.amount);
  }

  lemma RequestRedeemKeeps(cfg: Config, w: World, user: Address, amount: nat)
    requires Inv(cfg, w) && RequestRedeemTx(cfg, w, user, amount).Done?
    ensures Inv(cfg, RequestRedeemTx(cfg, w, user, amount).value)
  {
    RequestRedeemSerial(cfg, w, user, amount);
    BalanceBelowTotal(w.t.yes, user);
    BalanceBelowTotal(w.t.no, user);
  }

  lemma ClaimRedeemKeeps(cfg: Config, w: World, verdict: Verdict)
    requires Inv(cfg, w) && TruthfulStep(w, DoClaimRedeem(verdict)) && ClaimRedeemTx(cfg, w, verdict).Done?
    ensures Inv(cfg, ClaimRedeemTx(cfg, w, verdict).value)
  {
    ClosedSerial(cfg, w, w.(v := w.v.(redeem := NoRedeem)));
    PayOutKeeps(cfg, w.(v := w.v.(redeem := NoRedeem)), w.v.redeem.user, w.v.redeem.amount);
  }

  lemma CancelRedeemKeeps(cfg: Config, w: World, verdict: Verdict)
    requires Inv(cfg, w) && TruthfulStep(w, DoCancelRedeem(verdict)) && CancelRedeemTx(w, verdict).Done?
    ensures Inv(cfg, CancelRedeemTx(w, verdict).value)
  {
    ClosedSerial(cfg, w, CancelRedeemTx(w, verdict).value);
  }

  /** Steps that leave slots, queue and verdicts alone keep the queue discipline. */
  lemma SameSlotsSerial(cfg: Config, w: World, w': World)
    requires Serial(cfg, w) && w'.c.queue == w.c.queue && w'.c.fate == w.c.fate
    requires w'.v.deposit == w.v.deposit && w'.v.redeem == w.v.redeem && w'.v.nextOpId == w.v.nextOpId
    requires w'.v.settled ==> IsIdle(w.v)
    ensures Serial(cfg, w')
  {
    forall i | 0 <= i < |w'.c.queue| ensures MatchesSlot(cfg, w', w'.c.queue[i]) {
      assert MatchesSlot(cfg, w, w.c.queue[i]);
    }
  }

  lemma WithdrawKeeps(cfg: Config, w: World, user: Address)
    requires Inv(cfg, w) && WithdrawTx(w, user).Done?
    ensures Inv(cfg, WithdrawTx(w, user).value)
  {
    var w' := WithdrawTx(w, user).value;
    var amount := Balance(w.v.owed, user);
    SameSlotsSerial(cfg, w, w');
    MulSub(w.v.totalOwed, amount, cfg.scale.multiplier);
    MulSub(w.t.bal, amount, cfg.scale.multiplier);
    assert Money(cfg, w');
  }

  lemma SettleKeeps(cfg: Config, w: World, sender: Address, fractionWad: nat)
    requires Inv(cfg, w) && SettleTx(cfg, w, sender, fractionWad).Done?
    ensures Inv(cfg, SettleTx(cfg, w, sender, fractionWad).value)
  {
    SameSlotsSerial(cfg, w, SettleTx(cfg, w, sender, fractionWad).value);
  }

  lemma PullSerial(cfg: Config, w: World)
    requires Serial(cfg, w) && PullTx(cfg, w).Done?
    ensures Serial(cfg, PullTx(cfg, w).value)
  {
    var w' := PullTx(cfg, w).value;
    var evm := QuoteWeiToEvm(w.c.quote, cfg.scale);
    if evm != 0 {
      QuoteWeiExact(evm, cfg.scale);
      QuoteWeiRoundTrip(evm, cfg.scale);
      forall i | 0 <= i < |w'.c.queue| ensures MatchesSlot(cfg, w', w'.c.queue[i]) {
        if i < |w.c.queue| {
          assert MatchesSlot(cfg, w, w.c.queue[i]);
        }
      }
    }
  }

  lemma PullKeeps(cfg: Config, w: World)
    requires Inv(cfg, w) && PullTx(cfg, w).Done?
    ensures Inv(cfg, PullTx(cfg, w).value)
  {
    PullSerial(cfg, w);
  }

  /** A holder is never entitled to more than the whole obligation. */
  lemma EntitlementWithinObligation(w: World, user: Address, isYes: bool, amount: nat)
    requires Books(w) && amount <= Balance(Side(w.t, isYes), user)
    ensures Entitled(amount, w.v, isYes) / WAD <= SettlementObligation(w)
  {
    BalanceBelowTotal(Side(w.t, isYes), user);
    MulLe(amount, if isYes then w.t.yesSupply else w.t.noSupply, SideFraction(w.v, isYes));
    DivMonotone(Entitled(amount, w.v, isYes),
                Entitled(w.t.yesSupply, w.v, true) + Entitled(w.t.noSupply, w.v, false), WAD);
  }

  /** A settled redemption is paid out of what `withdraw` does not owe. */
  lemma RedemptionUnreserved(w: World, user: Address, isYes: bool, amount: nat)
    requires Books(w) && RedeemSettledTx(w, user, isYes, amount).Done?
    ensures 0 < RedeemPayout(w, isYes, amount) <= UnreservedBalance(w)
    ensures w.v.totalOwed + RedeemPayout(w, isYes, amount) <= w.t.bal
  {
    var obligation, available := SettlementObligation(w), UnreservedBalance(w);
    var payout := Entitled(amount, w.v, isYes) / WAD;
    EntitlementWithinObligation(w, user, isYes, amount);
    if obligation > available {
      PortionWithin(payout, available, obligation);
    }
  }

  lemma RedeemSettledKeeps(cfg: Config, w: World, user: Address, isYes: bool, amount: nat)
    requires Inv(cfg, w) && RedeemSettledTx(w, user, isYes, amount).Done?
    ensures Inv(cfg, RedeemSettledTx(w, user, isYes, amount).value)
  {
    var w' := RedeemSettledTx(w, user, isYes, amount).value;
    SameSlotsSerial(cfg, w, w');
    RedemptionUnreserved(w, user, isYes, amount);
    BalanceBelowTotal(Side(w.t, isYes), user);
    MulLe(w.v.totalOwed, w'.t.bal, cfg.scale.multiplier);
  }

  lemma TransferKeeps(cfg: Config, w: World, isYes: bool, from: Address, to: Address, amount: nat)
    requires Inv(cfg, w) && TransferTx(w, isYes, from, to, amount).Done?
    ensures Inv(cfg, TransferTx(w, isYes, from, to, amount).value)
  {
    SameSlotsSerial(cfg, w, TransferTx(w, isYes, from, to, amount).value);
  }

  lemma DonateKeeps(cfg: Config, w: World, from: Address, amount: nat)
    requires Inv(cfg, w) && DonateTx(w, from, amount).Done?
    ensures Inv(cfg, DonateTx(w, from, amount).value)
  {
    SameSlotsSerial(cfg, w, DonateTx(w, from, amount).value);
    MulLe(w.t.bal, w.t.bal + amount, cfg.scale.multiplier);
  }

  lemma ProcessKeeps(cfg: Config, w: World, i: nat, dropped: bool)
    requires Inv(cfg, w)
    ensures Inv(cfg, ProcessAction(cfg, w, i, dropped))
  {
    if i < |w.c.queue| {
      var a := w.c.queue[i];
      var w' := ProcessAction(cfg, w, i, dropped);
      assert MatchesSlot(cfg, w, a);
      ProcessSerial(cfg, w, i, dropped);
      if a.Send? && !dropped {
        var units := QuoteWeiToEvm(a.wei, cfg.scale);
        assert (w.t.bal + units) * cfg.scale.multiplier == w.t.bal * cfg.scale.multiplier + units * cfg.scale.multiplier;
      }
      BackedProcess(cfg, w, i, dropped);
    }
  }

  /** Taking a send off the queue moves no slot and seals no fate. */
  lemma TakenSend(cfg: Config, w: World, i: nat, dropped: bool)
    requires Serial(cfg, w) && i < |w.c.queue| && w.c.queue[i].Send?
    ensures Serial(cfg, ProcessAction(cfg, w, i, dropped))
  {
    var q, w' := w.c.queue, ProcessAction(cfg, w, i, dropped);
    forall j | 0 <= j < |w'.c.queue| ensures MatchesSlot(cfg, w', w'.c.queue[j]) {
      var k := if j < i then j else j + 1;
      assert w'.c.queue[j] == q[k] && MatchesSlot(cfg, w, q[k]);
    }
  }

  /** Taking the operation off leaves only sends. */
  lemma TakenOp(cfg: Config, w: World, i: nat, dropped: bool)
    requires Serial(cfg, w) && i < |w.c.queue| && !w.c.queue[i].Send?
    ensures Serial(cfg, ProcessAction(cfg, w, i, dropped))
  {
    var q, w' := w.c.queue, ProcessAction(cfg, w, i, dropped);
    assert MatchesSlot(cfg, w, q[i]);
    forall j | 0 <= j < |w'.c.queue| ensures w'.c.queue[j].Send? && MatchesSlot(cfg, w', w'.c.queue[j]) {
      var k := if j < i then j else j + 1;
      assert w'.c.queue[j] == q[k] && MatchesSlot(cfg, w, q[k]);
    }
  }

  lemma ProcessSerial(cfg: Config, w: World, i: nat, dropped: bool)
    requires Serial(cfg, w) && i < |w.c.queue|
    ensures Serial(cfg, ProcessAction(cfg, w, i, dropped))
  {
    if w.c.queue[i].Send? {
      TakenSend(cfg, w, i, dropped);
    } else {
      TakenOp(cfg, w, i, dropped);
    }
  }

  lemma BackedProcess(cfg: Config, w: World, i: nat, dropped: bool)
    requires Serial(cfg, w) && Backed(cfg, w) && i < |w.c.queue|
    ensures Backed(cfg, ProcessAction(cfg, w, i, dropped))
  {
    assert MatchesSlot(cfg, w, w.c.queue[i]);
  }

  lemma ClearKeeps(cfg: Config, w: World)
    requires Inv(cfg, w) && (w.v.settled || w.v.totalOwed <= w.t.bal)
    ensures Inv(cfg, ClearOutboundTx(cfg, w, cfg.owner).value)
  {
    SameSlotsSerial(cfg, w, ClearOutboundTx(cfg, w, cfg.owner).value);
    MulLe(w.v.totalOwed, w.t.bal, cfg.scale.multiplier);
  }

  /** More Core quote never hurts. */
  lemma QuoteGrows(cfg: Config, w: World, w': World)
    requires Inv(cfg, w) && w.c.quote <= w'.c.quote <= MAX_U64
    requires w'.t == w.t && w'.v == w.v && w'.c == w.c.(quote := w'.c.quote, transit := w'.c.transit)
    ensures Inv(cfg, w')
  {
    SameSlotsSerial(cfg, w, w');
  }

  lemma CreditKeeps(cfg: Config, w: World, n: nat)
    requires Inv(cfg, w)
    ensures Inv(cfg, CreditTransit(cfg, w, n))
  {
    MulLe(0, n, cfg.scale.multiplier);
    QuoteGrows(cfg, w, CreditTransit(cfg, w, n));
  }

  /** What else Core and strangers do to it leaves the vault's slots alone. */
  lemma EnvironmentKeeps(cfg: Config, w: World, step: Step)
    requires Inv(cfg, w)
    requires step.CoreStray? || step.CoreResolves? || step.CorePrunes? || step.CoreSettles?
    ensures Inv(cfg, Next(cfg, w, step))
  {
    SameSlotsSerial(cfg, w, Next(cfg, w, step));
  }

  lemma StepKeeps(cfg: Config, w: World, step: Step)
    requires Inv(cfg, w) && TruthfulStep(w, step) && CarefulStep(cfg, w, step)
    ensures Inv(cfg, Next(cfg, w, step))
  {
    if Transaction(cfg, w, step).Done? {
      match step
      case DoDeposit(user, amount) => DepositKeeps(cfg, w, user, amount);
      case DoClaimDeposit(verdict) => ClaimDepositKeeps(cfg, w, verdict);
      case DoCancelDeposit(verdict) => CancelDepositKeeps(cfg, w, verdict);
      case DoRequestRedeem(user, amount) => RequestRedeemKeeps(cfg, w, user, amount);
      case DoClaimRedeem(verdict) => ClaimRedeemKeeps(cfg, w, verdict);
      case DoCancelRedeem(verdict) => CancelRedeemKeeps(cfg, w, verdict);
      case DoWithdraw(user) => WithdrawKeeps(cfg, w, user);
      case DoSettle(user, fractionWad) => SettleKeeps(cfg, w, user, fractionWad);
      case DoPull => PullKeeps(cfg, w);
      case DoRedeemSettled(user, isYes, amount) => RedeemSettledKeeps(cfg, w, user, isYes, amount);
      case DoTransfer(isYes, from, to, amount) => TransferKeeps(cfg, w, isYes, from, to, amount);
      case DoDonate(from, amount) => DonateKeeps(cfg, w, from, amount);
      case DoClearOutbound(_) => ClearKeeps(cfg, w);
      case CoreCredits(n) => CreditKeeps(cfg, w, n);
      case CoreProcesses(i, dropped) => ProcessKeeps(cfg, w, i, dropped);
      case _ => EnvironmentKeeps(cfg, w, step);
    }
  }

  /** Every honest run keeps the invariant. */
  lemma {:induction false} RunKeeps(cfg: Config, w: World, steps: seq<Step>)
    requires Inv(cfg, w) && HonestRun(cfg, w, steps)
    ensures Inv(cfg, Run(cfg, w, steps))
    decreases |steps|
  {
    if steps != [] {
      StepKeeps(cfg, w, steps[0]);
      RunKeeps(cfg, Next(cfg, w, steps[0]), steps[1..]);
    }
  }

  // ------------------------------------- what truthful verdicts alone keep

  lemma PayoutSerial(cfg: Config, w: World, step: Step)
    requires Serial(cfg, w) && TruthfulStep(w, step) && (step.DoCancelDeposit? || step.DoClaimRedeem?)
    ensures Serial(cfg, Next(cfg, w, step))
  {
    if Transaction(cfg, w, step).Done? {
      if step.DoCancelDeposit? {
        var p := w.v.deposit;
        var idle := w.(v := w.v.(deposit := NoDeposit));
        ClosedSerial(cfg, w, idle);
        PayOutEffect(cfg, idle, p.user, p.amount);
        PaidSerial(cfg, idle, p.user, PayableNow(cfg, idle, p.amount));
      } else {
        var p := w.v.redeem;
        var idle := w.(v := w.v.(redeem := NoRedeem));
        ClosedSerial(cfg, w, idle);
        PayOutEffect(cfg, idle, p.user, p.amount);
        PaidSerial(cfg, idle, p.user, PayableNow(cfg, idle, p.amount));
      }
    }
  }

  /** The queue discipline needs truthful verdicts, and nothing of the owner. */
  lemma SerialStep(cfg: Config, w: World, step: Step)
    requires Serial(cfg, w) && TruthfulStep(w, step)
    ensures Serial(cfg, Next(cfg, w, step))
  {
    if Transaction(cfg, w, step).Done? {
      match step
      case DoDeposit(user, amount) => DepositSerial(cfg, w, user, amount);
      case DoClaimDeposit(verdict) => ClosedSerial(cfg, w, Next(cfg, w, step));
      case DoCancelDeposit(_) => PayoutSerial(cfg, w, step);
      case DoRequestRedeem(user, amount) => RequestRedeemSerial(cfg, w, user, amount);
      case DoClaimRedeem(_) => PayoutSerial(cfg, w, step);
      case DoCancelRedeem(verdict) => ClosedSerial(cfg, w, Next(cfg, w, step));
      case DoPull => PullSerial(cfg, w);
      case CoreProcesses(i, dropped) => if i < |w.c.queue| { ProcessSerial(cfg, w, i, dropped); }
      case _ => SameSlotsSerial(cfg, w, Next(cfg, w, step));
    }
  }

  // ------------------------------------------------- operations under way

  predicate InQueue(w: World, opId: nat) {
    exists i :: 0 <= i < |w.c.queue| && !w.c.queue[i].Send? && w.c.queue[i].opId == opId
  }

  /** Every operation there ever was is queued or decided; a pending redemption is of something;
      and one whose merge ran is of no more than a Core balance can hold. */
  predicate UnderWay(cfg: Config, w: World) {
    && (forall id :: 0 < id <= w.v.nextOpId ==> id in w.c.fate || InQueue(w, id))
    && (w.v.redeem.Redeem? ==> w.v.redeem.opId > 0 && w.v.redeem.amount > 0)
    && (w.v.redeem.Redeem? && w.v.redeem.opId in w.c.fate && w.c.fate[w.v.redeem.opId] ==>
          w.v.redeem.amount * cfg.scale.multiplier <= MAX_U64)
  }

  /** Nothing but processing takes an operation off the queue. */
  lemma QueueGrows(cfg: Config, w: World, w': World)
    requires UnderWay(cfg, w) && w.c.queue <= w'.c.queue && w'.c.fate == w.c.fate && w'.v.nextOpId == w.v.nextOpId
    requires w'.v.redeem == w.v.redeem || w'.v.redeem.NoRedeem?
    ensures UnderWay(cfg, w')
  {
    forall id | 0 < id <= w'.v.nextOpId && id !in w'.c.fate ensures InQueue(w', id) {
      assert InQueue(w, id);
      var i :| 0 <= i < |w.c.queue| && !w.c.queue[i].Send? && w.c.queue[i].opId == id;
      assert w'.c.queue[i] == w.c.queue[i];
    }
  }

  /** A new operation joins the queue. */
  lemma QueueJoined(cfg: Config, w: World, w': World, a: Action)
    requires UnderWay(cfg, w) && Serial(cfg, w) && !a.Send? && a.opId == w.v.nextOpId + 1 == w'.v.nextOpId
    requires w'.c.queue == w.c.queue + [a] && w'.c.fate == w.c.fate && w.v.redeem.NoRedeem?
    requires w'.v.redeem.Redeem? ==> w'.v.redeem.amount > 0 && w'.v.redeem.opId == a.opId
    ensures UnderWay(cfg, w')
  {
    assert w'.c.queue[|w.c.queue|] == a;
    forall id | 0 < id <= w'.v.nextOpId && id !in w'.c.fate ensures InQueue(w', id) {
      if id <= w.v.nextOpId {
        assert InQueue(w, id);
        var i :| 0 <= i < |w.c.queue| && !w.c.queue[i].Send? && w.c.queue[i].opId == id;
        assert w'.c.queue[i] == w.c.queue[i];
      }
    }
  }

  lemma ProcessUnderWay(cfg: Config, w: World, i: nat, dropped: bool)
    requires UnderWay(cfg, w) && Serial(cfg, w) && i < |w.c.queue|
    ensures UnderWay(cfg, ProcessAction(cfg, w, i, dropped))
  {
    var a, w' := w.c.queue[i], ProcessAction(cfg, w, i, dropped);
    assert MatchesSlot(cfg, w, a);
    forall id | 0 < id <= w'.v.nextOpId && id !in w'.c.fate ensures InQueue(w', id) {
      assert InQueue(w, id);
      var j :| 0 <= j < |w.c.queue| && !w.c.queue[j].Send? && w.c.queue[j].opId == id;
      assert j != i;
      var k := if j < i then j else j - 1;
      assert w'.c.queue[k] == w.c.queue[j];
    }
  }

  lemma PayoutUnderWay(cfg: Config, w: World, step: Step)
    requires UnderWay(cfg, w) && (step.DoCancelDeposit? || step.DoClaimRedeem?)
    ensures UnderWay(cfg, Next(cfg, w, step))
  {
    if Transaction(cfg, w, step).Done? {
      if step.DoCancelDeposit? {
        PayOutEffect(cfg, w.(v := w.v.(deposit := NoDeposit)), w.v.deposit.user, w.v.deposit.amount);
      } else {
        PayOutEffect(cfg, w.(v := w.v.(redeem := NoRedeem)), w.v.redeem.user, w.v.redeem.amount);
      }
      QueueGrows(cfg, w, Next(cfg, w, step));
    }
  }

  predicate StartsOrEnds(step: Step) {
    step.DoDeposit? || step.DoRequestRedeem? || step.DoCancelDeposit? || step.DoClaimRedeem? || step.CoreProcesses?
  }

  lemma OtherUnderWay(cfg: Config, w: World, step: Step)
    requires UnderWay(cfg, w) && !StartsOrEnds(step)
    ensures UnderWay(cfg, Next(cfg, w, step))
  {
    QueueGrows(cfg, w, Next(cfg, w, step));
  }

  lemma StepUnderWay(cfg: Config, w: World, step: Step)
    requires UnderWay(cfg, w) && Serial(cfg, w)
    ensures UnderWay(cfg, Next(cfg, w, step))
  {
    var w' := Next(cfg, w, step);
    match step
    case DoDeposit(_, _) =>
      if Transaction(cfg, w, step).Done? { QueueJoined(cfg, w, w', w'.c.queue[|w.c.queue|]); }
    case DoRequestRedeem(_, amount) =>
      if Transaction(cfg, w, step).Done? {
        SplitDebitsWhatDepositCredits(amount, cfg.scale);
        QueueJoined(cfg, w, w', w'.c.queue[|w.c.queue|]);
      }
    case DoCancelDeposit(_) => PayoutUnderWay(cfg, w, step);
    case DoClaimRedeem(_) => PayoutUnderWay(cfg, w, step);
    case CoreProcesses(i, dropped) => if i < |w.c.queue| { ProcessUnderWay(cfg, w, i, dropped); }
    case _ => OtherUnderWay(cfg, w, step);
  }

  /** Every truthful run keeps both, whatever the owner clears. */
  lemma {:induction false} TruthfulRunKeeps(cfg: Config, w: World, steps: seq<Step>)
    requires Serial(cfg, w) && UnderWay(cfg, w) && TruthfulRun(cfg, w, steps)
    ensures Serial(cfg, Run(cfg, w, steps)) && UnderWay(cfg, Run(cfg, w, steps))
    decreases |steps|
  {
    if steps != [] {
      SerialStep(cfg, w, steps[0]);
      StepUnderWay(cfg, w, steps[0]);
      TruthfulRunKeeps(cfg, Next(cfg, w, steps[0]), steps[1..]);
    }
  }

  /** A run after a run is a run. */
  lemma {:induction false} RunInParts(cfg: Config, w: World, first: seq<Step>, rest: seq<Step>)
    ensures Run(cfg, w, first + rest) == Run(cfg, Run(cfg, w, first), rest)
    ensures TruthfulRun(cfg, w, first) && TruthfulRun(cfg, Run(cfg, w, first), rest) ==> TruthfulRun(cfg, w, first + rest)
    ensures HonestRun(cfg, w, first) && HonestRun(cfg, Run(cfg, w, first), rest) ==> HonestRun(cfg, w, first + rest)
    decreases |first|
  {
    if first == [] {
      assert first + rest == rest;
    } else {
      assert (first + rest)[1..] == first[1..] + rest;
      RunInParts(cfg, Next(cfg, w, first[0]), first[1..], rest);
    }
  }

  lemma {:induction false} HonestIsTruthful(cfg: Config, w: World, steps: seq<Step>)
    requires HonestRun(cfg, w, steps)
    ensures TruthfulRun(cfg, w, steps)
    decreases |steps|
  {
    if steps != [] {
      HonestIsTruthful(cfg, Next(cfg, w, steps[0]), steps[1..]);
    }
  }
}
