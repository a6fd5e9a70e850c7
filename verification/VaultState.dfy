/** One OutcomeVault and the HyperCore account behind it, as a value: the storage of the
    contract, the tokens it touches, the Core account, and one function a transaction or an
    environment step. The classes in CoreAccount and OutcomeVault are proved to follow these. */
module VaultState {
  import opened CoreConstants
  import opened NonLinear
  import opened Prelude
  import opened Sums

  /** PAYOUT_MIN_BPS: how much of a payout or of the settlement pool must be there. */
  const PAYOUT_MIN_BPS: nat := 9_900

  /** What the constructor fixes, with the two addresses `clearOutbound` and `settle` consult. */
  datatype Config = Config(scale: Scale, question: nat, owner: Address, keeper: Address)

  datatype DepositSlot = NoDeposit | Deposit(user: Address, amount: nat, opId: nat, quoteCoreBefore: nat)
  datatype RedeemSlot = NoRedeem | Redeem(user: Address, amount: nat, opId: nat)

  /** A queued CoreWriter action. `opId` is the op key a keeper attests under. */
  datatype Action = Split(opId: nat, wei: nat) | Merge(opId: nat, wei: nat) | Send(wei: nat)

  /** The 0x814 view of the outcome. */
  datatype Market = Active | Resolved(settledValue: nat, question: nat) | Pruned

  /** Token balances: the vault's own quote, everyone else's, and the two outcome tokens. */
  datatype Tokens = Tokens(
    bal: nat, purse: map<Address, nat>,
    yes: map<Address, nat>, yesSupply: nat,
    no: map<Address, nat>, noSupply: nat)

  datatype Storage = Storage(
    deposit: DepositSlot, redeem: RedeemSlot,
    owed: map<Address, nat>, totalOwed: nat, nextOpId: nat,
    settled: bool, fractionWad: nat,
    outboundTarget: nat, outboundWei: nat,
    outboundExpectedEvm: nat, totalPaidOutEvm: nat, swept: bool)

  /** The Core account: quote wei, quote wei locked in outstanding splits, deposits in transit
      from the EVM, the action queue, what became of each finished op, and the merge fee. */
  datatype Core = Core(
    quote: nat, locked: nat, transit: nat,
    queue: seq<Action>, fate: map<nat, bool>,
    market: Market, credited: bool, mergeFeeBps: Bps)

  datatype World = World(t: Tokens, v: Storage, c: Core)

  // ------------------------------------------------------------------ views

  /** What our sends still owe the EVM side. */
  function UnlandedEvm(w: World): nat {
    Monus(w.v.outboundExpectedEvm, w.t.bal + w.v.totalPaidOutEvm)
  }

  function UnreservedBalance(w: World): nat {
    Monus(w.t.bal, w.v.totalOwed)
  }

  /** `x * num / den`, rounded down. */
  function Portion(x: nat, num: nat, den: nat): nat
    requires den > 0
  {
    x * num / den
  }

  /** What one side is worth at the settled fraction. */
  function SideFraction(v: Storage, isYes: bool): nat {
    if isYes then v.fractionWad else Monus(WAD, v.fractionWad)
  }

  /** What `amount` of one side is entitled to, in EVM units times WAD. */
  function Entitled(amount: nat, v: Storage, isYes: bool): nat {
    amount * SideFraction(v, isYes)
  }

  /** What every outstanding oYES and oNO is entitled to at the settled fraction. */
  function SettlementObligation(w: World): nat {
    (Entitled(w.t.yesSupply, w.v, true) + Entitled(w.t.noSupply, w.v, false)) / WAD
  }

  predicate IsIdle(v: Storage) {
    v.deposit.NoDeposit? && v.redeem.NoRedeem?
  }

  // ----------------------------------------------------------- token moves

  function MintPair(t: Tokens, to: Address, amount: nat): Tokens {
    t.(yes := Credit(t.yes, to, amount), yesSupply := t.yesSupply + amount,
       no := Credit(t.no, to, amount), noSupply := t.noSupply + amount)
  }

  function Side(t: Tokens, isYes: bool): map<Address, nat> {
    if isYes then t.yes else t.no
  }

  /** Burns from one side; the caller has checked the holder's balance. */
  function BurnSide(t: Tokens, isYes: bool, from: Address, amount: nat): Tokens
    requires amount <= Balance(Side(t, isYes), from)
  {
    if isYes
    then t.(yes := Debit(t.yes, from, amount), yesSupply := Monus(t.yesSupply, amount))
    else t.(no := Debit(t.no, from, amount), noSupply := Monus(t.noSupply, amount))
  }

  function PayQuote(t: Tokens, to: Address, amount: nat): Tokens
    requires amount <= t.bal
  {
    t.(bal := t.bal - amount, purse := Credit(t.purse, to, amount))
  }

  // -------------------------------------------------------------- payouts

  /** `_spotSendOut`. The dwell target is the live balance less every counted send. */
  function SpotSendOut(cfg: Config, w: World, wei: nat): Tx<World> {
    var outWei := w.v.outboundWei + wei;
    if outWei > MAX_U64 then Revert("PANIC_OVERFLOW") else
    Done(w.(
      v := w.v.(
        outboundExpectedEvm := w.v.outboundExpectedEvm + QuoteWeiToEvm(wei, cfg.scale),
        outboundWei := outWei,
        outboundTarget := Monus(w.c.quote, outWei)),
      c := w.c.(queue := w.c.queue + [Send(wei)])))
  }

  /** How much of `amount` a payout may credit now. */
  function PayableNow(cfg: Config, w: World, amount: nat): nat {
    Min(amount, Monus(QuoteWeiToEvm(w.c.quote, cfg.scale), UnlandedEvm(w)))
  }

  /** `_payOut`. */
  function PayOut(cfg: Config, w: World, user: Address, amount: nat): Tx<World> {
    var credit := PayableNow(cfg, w, amount);
    if credit * BPS < amount * PAYOUT_MIN_BPS then Revert("CORE_CREDIT_SHORT") else
    var credited := EvmToQuoteWei(credit, cfg.scale);
    if credited.Revert? then Revert(credited.reason) else
    var requested := EvmToQuoteWei(amount, cfg.scale);
    if requested.Revert? then Revert(requested.reason) else
    SpotSendOut(cfg,
      w.(v := w.v.(owed := Credit(w.v.owed, user, credit), totalOwed := w.v.totalOwed + credit)),
      credited.value)
  }

  // --------------------------------------------------------- transactions

  function DepositTx(cfg: Config, w: World, user: Address, amount: nat): Tx<World> {
    if w.v.settled then Revert("SETTLED") else
    if !IsIdle(w.v) then Revert("BUSY") else
    if w.v.outboundWei != 0 && w.c.quote > w.v.outboundTarget then Revert("OUTBOUND_IN_FLIGHT") else
    var wei := EvmToOutcomeWei(amount, cfg.scale);
    if wei.Revert? then Revert(wei.reason) else
    if Balance(w.t.purse, user) < amount then Revert("TRANSFER_FAILED") else
    var opId := w.v.nextOpId + 1;
    Done(World(
      w.t.(purse := Debit(w.t.purse, user, amount)),
      w.v.(deposit := Deposit(user, amount, opId, w.c.quote), nextOpId := opId, outboundWei := 0),
      w.c.(transit := w.c.transit + amount, queue := w.c.queue + [Split(opId, wei.value)])))
  }

  function ClaimDepositTx(w: World, verdict: Verdict): Tx<World> {
    if w.v.deposit.NoDeposit? then Revert("NO_PENDING") else
    if !verdict.Executed? then Revert("SPLIT_NOT_CONFIRMED") else
    Done(w.(t := MintPair(w.t, w.v.deposit.user, w.v.deposit.amount), v := w.v.(deposit := NoDeposit)))
  }

  function CancelDepositTx(cfg: Config, w: World, verdict: Verdict): Tx<World> {
    if w.v.deposit.NoDeposit? then Revert("NO_PENDING") else
    if !verdict.Failed? then Revert("SPLIT_NOT_FAILED") else
    var p := w.v.deposit;
    var wei := EvmToQuoteWei(p.amount, cfg.scale);
    if wei.Revert? then Revert(wei.reason) else
    if p.quoteCoreBefore + wei.value > MAX_U64 then Revert("PANIC_OVERFLOW") else
    if w.c.quote < p.quoteCoreBefore + wei.value then Revert("CREDIT_NOT_ARRIVED") else
    PayOut(cfg, w.(v := w.v.(deposit := NoDeposit)), p.user, p.amount)
  }

  function RequestRedeemTx(cfg: Config, w: World, user: Address, amount: nat): Tx<World> {
    if w.v.settled then Revert("SETTLED") else
    if !IsIdle(w.v) then Revert("BUSY") else
    var wei := EvmToOutcomeWei(amount, cfg.scale);
    if wei.Revert? then Revert(wei.reason) else
    if Balance(w.t.yes, user) < amount || Balance(w.t.no, user) < amount then Revert("BURN_FAILED") else
    var opId := w.v.nextOpId + 1;
    Done(World(
      BurnSide(BurnSide(w.t, true, user, amount), false, user, amount),
      w.v.(redeem := Redeem(user, amount, opId), nextOpId := opId),
      w.c.(queue := w.c.queue + [Merge(opId, wei.value)])))
  }

  function ClaimRedeemTx(cfg: Config, w: World, verdict: Verdict): Tx<World> {
    if w.v.redeem.NoRedeem? then Revert("NO_PENDING") else
    if !verdict.Executed? then Revert("MERGE_NOT_CONFIRMED") else
    PayOut(cfg, w.(v := w.v.(redeem := NoRedeem)), w.v.redeem.user, w.v.redeem.amount)
  }

  function CancelRedeemTx(w: World, verdict: Verdict): Tx<World> {
    if w.v.redeem.NoRedeem? then Revert("NO_PENDING") else
    if !verdict.Failed? then Revert("MERGE_NOT_FAILED") else
    Done(w.(t := MintPair(w.t, w.v.redeem.user, w.v.redeem.amount), v := w.v.(redeem := NoRedeem)))
  }

  function WithdrawTx(w: World, user: Address): Tx<World> {
    var amount := Balance(w.v.owed, user);
    if amount == 0 then Revert("NOTHING_OWED") else
    if amount > w.v.totalOwed then Revert("PANIC_UNDERFLOW") else
    if w.t.bal < amount then Revert("TRANSFER_FAILED") else
    Done(w.(
      t := PayQuote(w.t, user, amount),
      v := w.v.(
        owed := Debit(w.v.owed, user, amount),
        totalOwed := w.v.totalOwed - amount,
        totalPaidOutEvm := w.v.totalPaidOutEvm + amount)))
  }

  /** The fraction a resolved market settles at. */
  function FractionOf(settledValue: nat): nat {
    settledValue * WAD / SETTLED_VALUE_ONE
  }

  function SettleTx(cfg: Config, w: World, sender: Address, fractionWad: nat): Tx<World> {
    if w.v.settled then Revert("ALREADY_SETTLED") else
    if !IsIdle(w.v) then Revert("BUSY") else
    if w.c.market.Resolved? && w.c.market.question != cfg.question then Revert("QUESTION_MISMATCH") else
    if w.c.market.Active? then Revert("NOT_SETTLED_ON_CORE") else
    if w.c.market.Pruned? && sender != cfg.keeper then Revert("NOT_KEEPER") else
    var fraction := if w.c.market.Resolved? then FractionOf(w.c.market.settledValue) else fractionWad;
    if fraction > WAD then Revert("BAD_FRACTION") else
    Done(w.(v := w.v.(settled := true, fractionWad := fraction)))
  }

  function PullTx(cfg: Config, w: World): Tx<World> {
    if !w.v.settled then Revert("NOT_SETTLED") else
    var evm := QuoteWeiToEvm(w.c.quote, cfg.scale);
    if evm == 0 then Done(w) else
    var wei := EvmToQuoteWei(evm, cfg.scale);
    if wei.Revert? then Revert(wei.reason) else
    SpotSendOut(cfg, w.(v := w.v.(swept := true)), wei.value)
  }

  /** What redeeming `amount` of one side pays: the entitlement, or its share of a short pool. */
  function RedeemPayout(w: World, isYes: bool, amount: nat): nat {
    var payout := Entitled(amount, w.v, isYes) / WAD;
    var obligation := SettlementObligation(w);
    var available := UnreservedBalance(w);
    if obligation > available then Portion(payout, available, obligation) else payout
  }

  function RedeemSettledTx(w: World, user: Address, isYes: bool, amount: nat): Tx<World> {
    if !w.v.settled then Revert("NOT_SETTLED") else
    if !w.v.swept || UnlandedEvm(w) != 0 then Revert("SWEEP_PENDING") else
    if UnreservedBalance(w) * BPS < SettlementObligation(w) * PAYOUT_MIN_BPS then Revert("SETTLEMENT_POOL_SHORT") else
    var payout := RedeemPayout(w, isYes, amount);
    if payout == 0 then Revert("NOTHING_TO_REDEEM") else
    if Balance(Side(w.t, isYes), user) < amount then Revert("BURN_FAILED") else
    if w.t.bal < payout then Revert("TRANSFER_FAILED") else
    Done(w.(
      t := PayQuote(BurnSide(w.t, isYes, user, amount), user, payout),
      v := w.v.(totalPaidOutEvm := w.v.totalPaidOutEvm + payout)))
  }

  function ClearOutboundTx(cfg: Config, w: World, sender: Address): Tx<World> {
    if sender != cfg.owner then Revert("NOT_OWNER") else
    Done(w.(v := w.v.(
      outboundWei := 0,
      outboundExpectedEvm := w.t.bal + w.v.totalPaidOutEvm,
      swept := w.v.swept || w.v.settled)))
  }

  /** An oYES or oNO transfer between holders. */
  function TransferTx(w: World, isYes: bool, from: Address, to: Address, amount: nat): Tx<World> {
    if Balance(Side(w.t, isYes), from) < amount then Revert("TRANSFER_FAILED") else
    var side := Credit(Debit(Side(w.t, isYes), from, amount), to, amount);
    Done(w.(t := if isYes then w.t.(yes := side) else w.t.(no := side)))
  }

  /** Anyone may send quote to the vault's EVM address. */
  function DonateTx(w: World, from: Address, amount: nat): Tx<World> {
    if Balance(w.t.purse, from) < amount then Revert("TRANSFER_FAILED") else
    Done(w.(t := w.t.(bal := w.t.bal + amount, purse := Debit(w.t.purse, from, amount))))
  }

  // ------------------------------------------------------ Core environment

  function MergeFee(c: Core, collateral: nat): (fee: nat)
    ensures fee <= collateral
    ensures c.mergeFeeBps == 0 ==> fee == 0
  {
    MulLe(c.mergeFeeBps, BPS, collateral);
    DivGalois(collateral * c.mergeFeeBps, BPS, collateral + 1);
    collateral * c.mergeFeeBps / BPS
  }

  /** Core credits `n` EVM units of the deposits in transit. Core balances stay 64-bit. */
  function CreditTransit(cfg: Config, w: World, n: nat): World {
    if n <= w.c.transit && w.c.quote + n * cfg.scale.multiplier <= MAX_U64
    then w.(c := w.c.(transit := w.c.transit - n, quote := w.c.quote + n * cfg.scale.multiplier))
    else w
  }

  /** Anyone may spotSend to the vault's Core account. */
  function StrayCredit(w: World, wei: nat): World {
    if w.c.quote + wei <= MAX_U64 then w.(c := w.c.(quote := w.c.quote + wei)) else w
  }

  /** A split either locks its whole collateral or is rejected. */
  function ApplySplit(w: World, a: Action): World
    requires a.Split?
  {
    var collateral := CollateralOf(a.wei);
    if w.c.quote < collateral
    then w.(c := w.c.(fate := w.c.fate[a.opId := false]))
    else w.(c := w.c.(quote := w.c.quote - collateral, locked := w.c.locked + collateral,
                      fate := w.c.fate[a.opId := true]))
  }

  /** A merge needs its collateral to be there, and to fit a Core balance. */
  function ApplyMerge(w: World, a: Action): World
    requires a.Merge?
  {
    var collateral := CollateralOf(a.wei);
    var back := collateral - MergeFee(w.c, collateral);
    if w.c.locked < collateral || collateral > MAX_U64 || w.c.quote + back > MAX_U64
    then w.(c := w.c.(fate := w.c.fate[a.opId := false]))
    else w.(c := w.c.(locked := w.c.locked - collateral, quote := w.c.quote + back,
                      fate := w.c.fate[a.opId := true]))
  }

  /** A send Core cannot cover, or that is not a whole number of EVM units, is dropped. */
  function ApplySend(cfg: Config, w: World, wei: nat): World {
    var units := QuoteWeiToEvm(wei, cfg.scale);
    if w.c.quote < wei || units * cfg.scale.multiplier != wei then w else
    w.(c := w.c.(quote := w.c.quote - wei), t := w.t.(bal := w.t.bal + units))
  }

  function ApplyAction(cfg: Config, w: World, a: Action): World {
    match a
    case Split(_, _) => ApplySplit(w, a)
    case Merge(_, _) => ApplyMerge(w, a)
    case Send(wei) => ApplySend(cfg, w, wei)
  }

  /** Core discards an action; an op it discards has failed. */
  function DropAction(w: World, a: Action): World {
    if a.Send? then w else w.(c := w.c.(fate := w.c.fate[a.opId := false]))
  }

  function RemoveAt<T>(s: seq<T>, i: nat): seq<T>
    requires i < |s|
  {
    s[..i] + s[i + 1..]
  }

  /** Core takes any one action off the queue, and applies or drops it. Taking any one, not
      only the first, covers sends held back while later operations run. */
  function ProcessAction(cfg: Config, w: World, i: nat, dropped: bool): World {
    if i >= |w.c.queue| then w else
    var a := w.c.queue[i];
    var rest := w.(c := w.c.(queue := RemoveAt(w.c.queue, i)));
    if dropped then DropAction(rest, a) else ApplyAction(cfg, rest, a)
  }

  /** The market resolves once, then loses its value. */
  function ResolveMarket(w: World, settledValue: nat, question: nat): World {
    if w.c.market.Active? then w.(c := w.c.(market := Resolved(settledValue, question))) else w
  }

  function PruneMarket(w: World): World {
    if w.c.market.Resolved? then w.(c := w.c.(market := Pruned)) else w
  }

  /** Core turns all outstanding collateral back into quote, less the fee. */
  function CreditSettlement(w: World): World {
    var back := w.c.locked - MergeFee(w.c, w.c.locked);
    if w.c.quote + back > MAX_U64 then w else
    w.(c := w.c.(quote := w.c.quote + back, locked := 0, credited := true))
  }

  // ------------------------------------------------------------------ runs

  datatype Step =
    | DoDeposit(user: Address, amount: nat)
    | DoClaimDeposit(verdict: Verdict)
    | DoCancelDeposit(verdict: Verdict)
    | DoRequestRedeem(user: Address, amount: nat)
    | DoClaimRedeem(verdict: Verdict)
    | DoCancelRedeem(verdict: Verdict)
    | DoWithdraw(user: Address)
    | DoSettle(user: Address, fractionWad: nat)
    | DoPull
    | DoRedeemSettled(user: Address, isYes: bool, amount: nat)
    | DoClearOutbound(user: Address)
    | DoTransfer(isYes: bool, from: Address, to: Address, amount: nat)
    | DoDonate(from: Address, amount: nat)
    | CoreCredits(n: nat)
    | CoreProcesses(i: nat, dropped: bool)
    | CoreStray(wei: nat)
    | CoreResolves(settledValue: nat, question: nat)
    | CorePrunes
    | CoreSettles

  function Transaction(cfg: Config, w: World, step: Step): Tx<World> {
    match step
    case DoDeposit(user, amount) => DepositTx(cfg, w, user, amount)
    case DoClaimDeposit(verdict) => ClaimDepositTx(w, verdict)
    case DoCancelDeposit(verdict) => CancelDepositTx(cfg, w, verdict)
    case DoRequestRedeem(user, amount) => RequestRedeemTx(cfg, w, user, amount)
    case DoClaimRedeem(verdict) => ClaimRedeemTx(cfg, w, verdict)
    case DoCancelRedeem(verdict) => CancelRedeemTx(w, verdict)
    case DoWithdraw(user) => WithdrawTx(w, user)
    case DoSettle(user, fractionWad) => SettleTx(cfg, w, user, fractionWad)
    case DoPull => PullTx(cfg, w)
    case DoRedeemSettled(user, isYes, amount) => RedeemSettledTx(w, user, isYes, amount)
    case DoClearOutbound(user) => ClearOutboundTx(cfg, w, user)
    case DoTransfer(isYes, from, to, amount) => TransferTx(w, isYes, from, to, amount)
    case DoDonate(from, amount) => DonateTx(w, from, amount)
    case CoreCredits(n) => Done(CreditTransit(cfg, w, n))
    case CoreProcesses(i, dropped) => Done(ProcessAction(cfg, w, i, dropped))
    case CoreStray(wei) => Done(StrayCredit(w, wei))
    case CoreResolves(settledValue, question) => Done(ResolveMarket(w, settledValue, question))
    case CorePrunes => Done(PruneMarket(w))
    case CoreSettles => Done(CreditSettlement(w))
  }

  function Next(cfg: Config, w: World, step: Step): World {
    Settle(Transaction(cfg, w, step), w)
  }

  function Run(cfg: Config, w: World, steps: seq<Step>): World
    decreases |steps|
  {
    if steps == [] then w else Run(cfg, Next(cfg, w, steps[0]), steps[1..])
  }

  /** The verdicts a step acts on say what Core did (JointRuns.JointRunsAreHonest). */
  predicate TruthfulStep(w: World, step: Step) {
    match step
    case DoClaimDeposit(verdict) => w.v.deposit.Deposit? ==> Truthful(w.c.fate, w.v.deposit.opId, verdict)
    case DoCancelDeposit(verdict) => w.v.deposit.Deposit? ==> Truthful(w.c.fate, w.v.deposit.opId, verdict)
    case DoClaimRedeem(verdict) => w.v.redeem.Redeem? ==> Truthful(w.c.fate, w.v.redeem.opId, verdict)
    case DoCancelRedeem(verdict) => w.v.redeem.Redeem? ==> Truthful(w.c.fate, w.v.redeem.opId, verdict)
    case _ => true
  }

  /** `clearOutbound` writes the trackers down to reality. Doing so is careful when nothing owed
      is still in flight, or when no more payouts can be credited. */
  predicate CarefulStep(cfg: Config, w: World, step: Step) {
    step.DoClearOutbound? && step.user == cfg.owner ==> w.v.settled || w.v.totalOwed <= w.t.bal
  }

  /** A run whose verdicts are truthful, whatever the owner clears. */
  predicate TruthfulRun(cfg: Config, w: World, steps: seq<Step>)
    decreases |steps|
  {
    steps == [] || (TruthfulStep(w, steps[0]) && TruthfulRun(cfg, Next(cfg, w, steps[0]), steps[1..]))
  }

  /** A run whose verdicts are truthful and whose clears, if any, are careful. */
  predicate HonestRun(cfg: Config, w: World, steps: seq<Step>)
    decreases |steps|
  {
    steps == [] ||
    (CarefulStep(cfg, w, steps[0]) && TruthfulStep(w, steps[0]) &&
     HonestRun(cfg, Next(cfg, w, steps[0]), steps[1..]))
  }

  /** A freshly deployed vault: nothing issued, nothing owed, nothing in flight. */
  predicate Fresh(w: World) {
    && w.t.yes == map[] && w.t.yesSupply == 0 && w.t.no == map[] && w.t.noSupply == 0
    && w.v == Storage(NoDeposit, NoRedeem, map[], 0, 0, false, 0, 0, 0, 0, 0, false)
    && w.c.queue == [] && w.c.fate == map[] && w.c.locked == 0 && w.c.transit == 0
    && w.c.quote <= MAX_U64 && !w.c.credited && w.c.market.Active?
  }
}
