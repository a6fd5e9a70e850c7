/** The vault contract. Every transaction is proved to commit or revert exactly as VaultState
    specifies; a reverting transaction leaves everything as it was. */
module OutcomeVault {
  import opened CoreAccount
  import opened CoreConstants
  import opened Prelude
  import opened Sums
  import VS = VaultState
  import opened VaultState

  class OutcomeVault {
    const cfg: Config
    const core: CoreSim
    const tokens: TokenBook

    var pendingDeposit: DepositSlot
    var pendingRedeem: RedeemSlot
    var owed: map<Address, nat>
    var totalOwed: nat
    var nextOpId: nat
    var settled: bool
    var settleFractionWad: nat
    var outboundTarget: nat
    var outboundWei: nat
    var outboundExpectedEvm: nat
    var totalPaidOutEvm: nat
    var swept: bool

    constructor (cfg: Config, core: CoreSim)
      ensures this.cfg == cfg && this.core == core && this.tokens == core.tokens
      ensures Slots() == Storage(NoDeposit, NoRedeem, map[], 0, 0, false, 0, 0, 0, 0, 0, false)
    {
      this.cfg, this.core, this.tokens := cfg, core, core.tokens;
      pendingDeposit, pendingRedeem := NoDeposit, NoRedeem;
      owed, totalOwed, nextOpId := map[], 0, 0;
      settled, settleFractionWad := false, 0;
      outboundTarget, outboundWei := 0, 0;
      outboundExpectedEvm, totalPaidOutEvm, swept := 0, 0, false;
    }

    function Slots(): Storage
      reads this
    {
      Storage(pendingDeposit, pendingRedeem, owed, totalOwed, nextOpId, settled, settleFractionWad,
              outboundTarget, outboundWei, outboundExpectedEvm, totalPaidOutEvm, swept)
    }

    function Value(): World
      reads this, core, tokens
    {
      World(tokens.Value(), Slots(), core.Value())
    }

    // ------------------------------------------------------------- internals

    method SpotSendOut(wei: nat) returns (r: Receipt)
      modifies this, core
      ensures Commits(VS.SpotSendOut(cfg, old(Value()), wei), old(Value()), Value(), r)
    {
      if outboundWei + wei > MAX_U64 {
        return Reverted("PANIC_OVERFLOW");
      }
      outboundExpectedEvm := outboundExpectedEvm + QuoteWeiToEvm(wei, cfg.scale);
      outboundWei := outboundWei + wei;
      outboundTarget := Monus(core.quote, outboundWei);
      core.SendRawAction(Send(wei));
      return Success;
    }

    method PayOut(user: Address, amount: nat) returns (r: Receipt)
      modifies this, core
      ensures Commits(VS.PayOut(cfg, old(Value()), user, amount), old(Value()), Value(), r)
    {
      var coreEvm := QuoteWeiToEvm(core.quote, cfg.scale);
      var unlanded := UnlandedEvm(Value());
      var available := Monus(coreEvm, unlanded);
      var credit := if amount > available then available else amount;
      if credit * BPS < amount * PAYOUT_MIN_BPS {
        return Reverted("CORE_CREDIT_SHORT");
      }
      var credited := EvmToQuoteWei(credit, cfg.scale);
      if credited.Revert? {
        return Reverted(credited.reason);
      }
      var requested := EvmToQuoteWei(amount, cfg.scale);
      if requested.Revert? {
        return Reverted(requested.reason);
      }
      var owedBefore, totalBefore := owed, totalOwed;
      owed := Credit(owed, user, credit);
      totalOwed := totalOwed + credit;
      r := SpotSendOut(credited.value);
      if r.Reverted? {
        owed, totalOwed := owedBefore, totalBefore;
      }
    }

    // ---------------------------------------------------------- transactions

    method ClearOutbound(sender: Address) returns (r: Receipt)
      modifies this
      ensures Commits(ClearOutboundTx(cfg, old(Value()), sender), old(Value()), Value(), r)
    {
      if sender != cfg.owner {
        return Reverted("NOT_OWNER");
      }
      outboundWei := 0;
      outboundExpectedEvm := tokens.bal + totalPaidOutEvm;
      if settled {
        swept := true;
      }
      return Success;
    }

    method Deposit(sender: Address, amount: nat) returns (r: Receipt)
      modifies this, core, tokens
      ensures Commits(DepositTx(cfg, old(Value()), sender, amount), old(Value()), Value(), r)
    {
      if settled {
        return Reverted("SETTLED");
      }
      if !IsIdle(Slots()) {
        return Reverted("BUSY");
      }
      if outboundWei != 0 && core.quote > outboundTarget {
        return Reverted("OUTBOUND_IN_FLIGHT");
      }
      var wei := EvmToOutcomeWei(amount, cfg.scale);
      if wei.Revert? {
        return Reverted(wei.reason);
      }
      if Balance(tokens.purse, sender) < amount {
        return Reverted("TRANSFER_FAILED");
      }
      outboundWei := 0;
      nextOpId := nextOpId + 1;
      pendingDeposit := DepositSlot.Deposit(sender, amount, nextOpId, core.quote);
      tokens.Take(sender, amount);
      core.AcceptDeposit(amount);
      core.SendRawAction(Split(nextOpId, wei.value));
      return Success;
    }

    method ClaimDeposit(verdict: Verdict) returns (r: Receipt)
      modifies this, tokens
      ensures Commits(ClaimDepositTx(old(Value()), verdict), old(Value()), Value(), r)
    {
      var p := pendingDeposit;
      if p.NoDeposit? {
        return Reverted("NO_PENDING");
      }
      if verdict != Executed {
        return Reverted("SPLIT_NOT_CONFIRMED");
      }
      pendingDeposit := NoDeposit;
      tokens.MintPair(p.user, p.amount);
      return Success;
    }

    method CancelDeposit(verdict: Verdict) returns (r: Receipt)
      modifies this, core
      ensures Commits(CancelDepositTx(cfg, old(Value()), verdict), old(Value()), Value(), r)
    {
      var p := pendingDeposit;
      if p.NoDeposit? {
        return Reverted("NO_PENDING");
      }
      if verdict != Failed {
        return Reverted("SPLIT_NOT_FAILED");
      }
      var wei := EvmToQuoteWei(p.amount, cfg.scale);
      if wei.Revert? {
        return Reverted(wei.reason);
      }
      if p.quoteCoreBefore + wei.value > MAX_U64 {
        return Reverted("PANIC_OVERFLOW");
      }
      if core.quote < p.quoteCoreBefore + wei.value {
        return Reverted("CREDIT_NOT_ARRIVED");
      }
      pendingDeposit := NoDeposit;
      r := PayOut(p.user, p.amount);
      if r.Reverted? {
        pendingDeposit := p;
      }
    }

    method RequestRedeem(sender: Address, amount: nat) returns (r: Receipt)
      modifies this, core, tokens
      ensures Commits(RequestRedeemTx(cfg, old(Value()), sender, amount), old(Value()), Value(), r)
    {
      if settled {
        return Reverted("SETTLED");
      }
      if !IsIdle(Slots()) {
        return Reverted("BUSY");
      }
      var wei := EvmToOutcomeWei(amount, cfg.scale);
      if wei.Revert? {
        return Reverted(wei.reason);
      }
      if Balance(tokens.yes, sender) < amount || Balance(tokens.no, sender) < amount {
        return Reverted("BURN_FAILED");
      }
      var _ := tokens.Burn(true, sender, amount);
      var _ := tokens.Burn(false, sender, amount);
      nextOpId := nextOpId + 1;
      pendingRedeem := Redeem(sender, amount, nextOpId);
      core.SendRawAction(Merge(nextOpId, wei.value));
      return Success;
    }

    method ClaimRedeem(verdict: Verdict) returns (r: Receipt)
      modifies this, core
      ensures Commits(ClaimRedeemTx(cfg, old(Value()), verdict), old(Value()), Value(), r)
    {
      var p := pendingRedeem;
      if p.NoRedeem? {
        return Reverted("NO_PENDING");
      }
      if verdict != Executed {
        return Reverted("MERGE_NOT_CONFIRMED");
      }
      pendingRedeem := NoRedeem;
      r := PayOut(p.user, p.amount);
      if r.Reverted? {
        pendingRedeem := p;
      }
    }

    method CancelRedeem(verdict: Verdict) returns (r: Receipt)
      modifies this, tokens
      ensures Commits(CancelRedeemTx(old(Value()), verdict), old(Value()), Value(), r)
    {
      var p := pendingRedeem;
      if p.NoRedeem? {
        return Reverted("NO_PENDING");
      }
      if verdict != Failed {
        return Reverted("MERGE_NOT_FAILED");
      }
      pendingRedeem := NoRedeem;
      tokens.MintPair(p.user, p.amount);
      return Success;
    }

    method Withdraw(sender: Address) returns (r: Receipt)
      modifies this, tokens
      ensures Commits(WithdrawTx(old(Value()), sender), old(Value()), Value(), r)
    {
      var amount := Balance(owed, sender);
      if amount == 0 {
        return Reverted("NOTHING_OWED");
      }
      if amount > totalOwed {
        return Reverted("PANIC_UNDERFLOW");
      }
      if tokens.bal < amount {
        return Reverted("TRANSFER_FAILED");
      }
      owed := Debit(owed, sender, amount);
      totalOwed := totalOwed - amount;
      totalPaidOutEvm := totalPaidOutEvm + amount;
      tokens.Pay(sender, amount);
      return Success;
    }

    method Settle(sender: Address, fractionWad: nat) returns (r: Receipt)
      modifies this
      ensures Commits(SettleTx(cfg, old(Value()), sender, fractionWad), old(Value()), Value(), r)
    {
      if settled {
        return Reverted("ALREADY_SETTLED");
      }
      if !IsIdle(Slots()) {
        return Reverted("BUSY");
      }
      var fraction := fractionWad;
      match core.market {
        case Resolved(settledValue, question) =>
          if question != cfg.question {
            return Reverted("QUESTION_MISMATCH");
          }
          fraction := FractionOf(settledValue);
        case Active =>
          return Reverted("NOT_SETTLED_ON_CORE");
        case Pruned =>
          if sender != cfg.keeper {
            return Reverted("NOT_KEEPER");
          }
      }
      if fraction > WAD {
        return Reverted("BAD_FRACTION");
      }
      settled := true;
      settleFractionWad := fraction;
      return Success;
    }

    method PullSettledFunds() returns (r: Receipt)
      modifies this, core
      ensures Commits(PullTx(cfg, old(Value())), old(Value()), Value(), r)
    {
      if !settled {
        return Reverted("NOT_SETTLED");
      }
      var evm := QuoteWeiToEvm(core.quote, cfg.scale);
      if evm == 0 {
        return Success;
      }
      var wei := EvmToQuoteWei(evm, cfg.scale);
      if wei.Revert? {
        return Reverted(wei.reason);
      }
      var sweptBefore := swept;
      swept := true;
      r := SpotSendOut(wei.value);
      if r.Reverted? {
        swept := sweptBefore;
      }
    }

    method RedeemSettled(sender: Address, isYes: bool, amount: nat) returns (r: Receipt)
      modifies this, tokens
      ensures Commits(RedeemSettledTx(old(Value()), sender, isYes, amount), old(Value()), Value(), r)
    {
      if !settled {
        return Reverted("NOT_SETTLED");
      }
      if !swept || UnlandedEvm(Value()) != 0 {
        return Reverted("SWEEP_PENDING");
      }
      var payout := Entitled(amount, Slots(), isYes) / WAD;
      var obligation := SettlementObligation(Value());
      var available := UnreservedBalance(Value());
      if available * BPS < obligation * PAYOUT_MIN_BPS {
        return Reverted("SETTLEMENT_POOL_SHORT");
      }
      if obligation > available {
        payout := Portion(payout, available, obligation);
      }
      if payout == 0 {
        return Reverted("NOTHING_TO_REDEEM");
      }
      if Balance(Side(tokens.Value(), isYes), sender) < amount {
        return Reverted("BURN_FAILED");
      }
      if tokens.bal < payout {
        return Reverted("TRANSFER_FAILED");
      }
      var _ := tokens.Burn(isYes, sender, amount);
      totalPaidOutEvm := totalPaidOutEvm + payout;
      tokens.Pay(sender, payout);
      return Success;
    }
  }
}
