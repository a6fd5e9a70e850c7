/** The ParlayVault contract as a value: tickets, ERC-721 ownership, the USDC it escrows, and the
    log of events it has emitted. One function a transaction. */
module ParlayState {
  import opened LegOutcomes
  import opened Prelude
  import opened Sums

  const MAX_LEGS: nat := 10

  type U96 = n: nat | n <= 0xFFFF_FFFF_FFFF_FFFF_FFFF_FFFF

  datatype Quote = Quote(taker: Address, legs: seq<Leg>, premium: U96, maxPayout: U96, deadline: nat, quoteId: nat)

  datatype Parlay = Parlay(legs: seq<Leg>, writer: Address, premium: U96, maxPayout: U96, status: Status)

  /** ERC-721 Transfer, ParlayMinted, ParlayResolved, and the USDC transfers made for a ticket. */
  datatype Event =
    | Transferred(from: Address, to: Address, id: nat)
    | Minted(id: nat, taker: Address, quoteId: nat, premium: U96, maxPayout: U96)
    | ResolvedTo(id: nat, status: Status)
    | PaidOut(id: nat, to: Address, amount: nat)

  datatype State = State(
    parlays: map<nat, Parlay>, owners: map<nat, Address>, usedQuotes: set<nat>, nextId: nat,
    writer: Address, minPremiumBps: nat, allowedLeg: set<Address>,
    usdc: map<Address, nat>, allowance: map<Address, nat>,
    settlements: Settlements, log: seq<Event>)

  /** A freshly deployed contract at `self`. It never approves anyone, itself included. */
  predicate Fresh(self: Address, s: State) {
    && s.parlays == map[] && s.owners == map[] && s.nextId == 0 && s.log == []
    && self != ZERO_ADDRESS && Balance(s.allowance, self) == 0
  }

  // ------------------------------------------------------------------ USDC

  /** safeTransferFrom of `amount` from `from` into the vault. An unlimited allowance stays. */
  function PullUsdc(self: Address, s: State, from: Address, amount: nat): Tx<State> {
    if from == ZERO_ADDRESS || Balance(s.allowance, from) < amount || Balance(s.usdc, from) < amount
    then Revert("TRANSFER_FAILED") else
    Done(s.(
      allowance := if Balance(s.allowance, from) == MAX_U256 then s.allowance else Debit(s.allowance, from, amount),
      usdc := Credit(Debit(s.usdc, from, amount), self, amount)))
  }

  /** The premium from the taker, the rest of the pot from the writer. */
  function EscrowUsdc(self: Address, s: State, taker: Address, premium: nat, rest: nat): Tx<State> {
    var paid := PullUsdc(self, s, taker, premium);
    if paid.Revert? then paid else PullUsdc(self, paid.value, s.writer, rest)
  }

  /** safeTransfer out of the vault on behalf of ticket `id`. */
  function PayUsdc(self: Address, s: State, id: nat, to: Address, amount: nat): Tx<State> {
    if to == ZERO_ADDRESS || Balance(s.usdc, self) < amount then Revert("TRANSFER_FAILED") else
    Done(s.(
      usdc := Credit(Debit(s.usdc, self, amount), to, amount),
      log := s.log + [PaidOut(id, to, amount)]))
  }

  // ---------------------------------------------------------- transactions

  /** Every leg is allowed and unsettled; the first that is not decides the reason. */
  function CheckLegs(s: State, legs: seq<Leg>): Receipt
    decreases |legs|
  {
    if legs == [] then Success else
    if legs[0].vault !in s.allowedLeg then Reverted("LEG_NOT_ALLOWED") else
    if Settled(s.settlements, legs[0]) then Reverted("LEG_SETTLED") else
    CheckLegs(s, legs[1..])
  }

  /** The guards of `mint`, in their order. */
  function MintGuards(s: State, sender: Address, q: Quote, signed: bool, now: nat): Receipt {
    if !signed then Reverted("BAD_SIG") else
    if now > q.deadline then Reverted("QUOTE_EXPIRED") else
    if sender != q.taker then Reverted("NOT_TAKER") else
    if q.quoteId in s.usedQuotes then Reverted("QUOTE_USED") else
    if !(1 <= |q.legs| <= MAX_LEGS) then Reverted("BAD_LEG_COUNT") else
    if q.premium >= q.maxPayout then Reverted("BAD_PREMIUM") else
    if q.premium * BPS < q.maxPayout * s.minPremiumBps then Reverted("PREMIUM_TOO_LOW") else
    CheckLegs(s, q.legs)
  }

  /** The ticket is written, its token minted, both announced. */
  function Issue(s: State, sender: Address, q: Quote): State {
    var id := s.nextId + 1;
    s.(usedQuotes := s.usedQuotes + {q.quoteId}, nextId := id,
       parlays := s.parlays[id := Parlay(q.legs, s.writer, q.premium, q.maxPayout, Open)],
       owners := s.owners[id := sender],
       log := s.log + [Transferred(ZERO_ADDRESS, sender, id), Minted(id, sender, q.quoteId, q.premium, q.maxPayout)])
  }

  function MintTx(self: Address, s: State, sender: Address, q: Quote, signed: bool, now: nat): Tx<State> {
    var guards := MintGuards(s, sender, q, signed, now);
    if guards.Reverted? then Revert(guards.reason) else
    var escrowed := EscrowUsdc(self, s, sender, q.premium, Monus(q.maxPayout, q.premium));
    if escrowed.Revert? then escrowed else
    Done(Issue(escrowed.value, sender, q))
  }

  function WithStatus(s: State, id: nat, status: Status): State
    requires id in s.parlays
  {
    s.(parlays := s.parlays[id := s.parlays[id].(status := status)], log := s.log + [ResolvedTo(id, status)])
  }

  function Burn(s: State, id: nat): State
    requires id in s.owners
  {
    s.(owners := s.owners - {id}, log := s.log + [Transferred(s.owners[id], ZERO_ADDRESS, id)])
  }

  function ResolveTx(self: Address, s: State, id: nat): Tx<State> {
    if id !in s.parlays || s.parlays[id].status != Open || s.parlays[id].maxPayout == 0 then Revert("NOT_OPEN") else
    var p := s.parlays[id];
    match Landing(s.settlements, p.legs)
    case None => Revert("NOT_RESOLVABLE")
    case Some(status) =>
      var decided := WithStatus(s, id, status);
      if status.Dead? then PayUsdc(self, decided, id, p.writer, p.maxPayout) else
      if status.Void? then
        if id !in s.owners then Revert("NONEXISTENT_TOKEN") else
        var refunded := PayUsdc(self, Burn(decided, id), id, s.owners[id], p.premium);
        if refunded.Revert? then refunded else
        PayUsdc(self, refunded.value, id, p.writer, Monus(p.maxPayout, p.premium))
      else
        Done(decided)
  }

  function ClaimTx(self: Address, s: State, sender: Address, id: nat): Tx<State> {
    var resolved := if id !in s.parlays || s.parlays[id].status.Open? then ResolveTx(self, s, id) else Done(s);
    if resolved.Revert? then resolved else
    var r := resolved.value;
    if id !in r.parlays || !r.parlays[id].status.Won? then Revert("NOT_WON") else
    if id !in r.owners then Revert("NONEXISTENT_TOKEN") else
    if sender != r.owners[id] then Revert("NOT_OWNER_OF") else
    PayUsdc(self, Burn(r, id), id, sender, r.parlays[id].maxPayout)
  }

  /** An authorised ERC-721 transfer. */
  function TransferTx(s: State, from: Address, to: Address, id: nat): Tx<State> {
    if to == ZERO_ADDRESS then Revert("INVALID_RECEIVER") else
    if id !in s.owners || s.owners[id] != from then Revert("INCORRECT_OWNER") else
    Done(s.(owners := s.owners[id := to], log := s.log + [Transferred(from, to, id)]))
  }

  function SetMinPremiumTx(s: State, bps: nat): Tx<State> {
    if bps >= BPS then Revert("BAD_BPS") else Done(s.(minPremiumBps := bps))
  }

  /** A vault settles: once, and for good. */
  function SettleLeg(s: State, vault: Address, fractionWad: nat): State {
    if StateOf(s.settlements, vault).settled then s else
    s.(settlements := s.settlements[vault := LegState(true, fractionWad)])
  }

  /** USDC moves that are not the vault's. */
  function UsdcMoveTx(self: Address, s: State, from: Address, to: Address, amount: nat): Tx<State> {
    if from == self || Balance(s.usdc, from) < amount then Revert("TRANSFER_FAILED") else
    Done(s.(usdc := Credit(Debit(s.usdc, from, amount), to, amount)))
  }

  function ApproveTx(self: Address, s: State, from: Address, amount: nat): Tx<State> {
    if from == self then Revert("INVALID_APPROVER") else
    Done(s.(allowance := s.allowance[from := amount]))
  }

  // ------------------------------------------------------------------ runs

  datatype Step =
    | DoMint(sender: Address, quote: Quote, signed: bool, now: nat)
    | DoResolve(id: nat)
    | DoClaim(sender: Address, id: nat)
    | DoTransfer(from: Address, to: Address, id: nat)
    | DoSetWriter(writer: Address)
    | DoSetMinPremium(bps: nat)
    | DoAllowLeg(leg: Address)
    | DoSettleLeg(vault: Address, fractionWad: nat)
    | DoUsdcMove(from: Address, to: Address, amount: nat)
    | DoApprove(from: Address, amount: nat)

  function Transaction(self: Address, s: State, step: Step): Tx<State> {
    match step
    case DoMint(sender, quote, signed, now) => MintTx(self, s, sender, quote, signed, now)
    case DoResolve(id) => ResolveTx(self, s, id)
    case DoClaim(sender, id) => ClaimTx(self, s, sender, id)
    case DoTransfer(from, to, id) => TransferTx(s, from, to, id)
    case DoSetWriter(writer) => Done(s.(writer := writer))
    case DoSetMinPremium(bps) => SetMinPremiumTx(s, bps)
    case DoAllowLeg(leg) => Done(s.(allowedLeg := s.allowedLeg + {leg}))
    case DoSettleLeg(vault, fractionWad) => Done(SettleLeg(s, vault, fractionWad))
    case DoUsdcMove(from, to, amount) => UsdcMoveTx(self, s, from, to, amount)
    case DoApprove(from, amount) => ApproveTx(self, s, from, amount)
  }

  function Next(self: Address, s: State, step: Step): State {
    Settle(Transaction(self, s, step), s)
  }

  function Run(self: Address, s: State, steps: seq<Step>): State
    decreases |steps|
  {
    if steps == [] then s else Run(self, Next(self, s, steps[0]), steps[1..])
  }
}
