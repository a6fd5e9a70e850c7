/** The journey of settlement fractions, as a state machine: Core resolves and later forgets an
    outcome, a vault takes the fraction, the relay sends it across, a leg stores it. The keeper may
    crash at any moment and its disk may fail; anyone may call what anyone may call; messages
    arrive in any order, again and again, at any leg. */
module SettlementState {
  import opened CoreConstants
  import opened Prelude
  import VS = VaultState

  type Market = VS.Market

  /** What of an OutcomeVault matters here. */
  datatype Vault = Vault(market: Market, question: nat, settled: bool, fractionWad: nat)

  datatype Leg = Leg(sourceVault: Address, settled: bool, fractionWad: nat)

  /** A call of receiveSettlement on its way to `leg`. */
  datatype Message = Message(sender: Address, vault: Address, fractionWad: nat, leg: Address)

  /** `relay` is the address the relay's messages come from on the other chain. */
  datatype Config = Config(keeper: Address, relay: Address)

  /** `truth`: the value each outcome resolved at, however long ago. `memory` and `disk`: the
      keeper's fraction cache and the file behind it. `sent`: settle transactions the keeper has
      signed; any may land, late, or never. */
  datatype World = World(vaults: map<Address, Vault>, legs: map<Address, Leg>, truth: map<Address, nat>,
                         memory: map<Address, nat>, disk: map<Address, nat>,
                         sent: set<(Address, nat)>, messages: set<Message>)

  // ------------------------------------------------------------ transactions

  /** OutcomeVault.settle, as far as the fraction goes. */
  function SettleTx(cfg: Config, v: Vault, sender: Address, fractionWad: nat, idle: bool): Tx<Vault> {
    if v.settled then Revert("ALREADY_SETTLED") else
    if !idle then Revert("BUSY") else
    if v.market.Resolved? && v.market.question != v.question then Revert("QUESTION_MISMATCH") else
    if v.market.Active? then Revert("NOT_SETTLED_ON_CORE") else
    if v.market.Pruned? && sender != cfg.keeper then Revert("NOT_KEEPER") else
    var fraction := if v.market.Resolved? then VS.FractionOf(v.market.settledValue) else fractionWad;
    if fraction > WAD then Revert("BAD_FRACTION") else
    Done(v.(settled := true, fractionWad := fraction))
  }

  /** The view of the full vault that this module keeps. */
  function Projected(cfg: VS.Config, w: VS.World): Vault {
    Vault(w.c.market, cfg.question, w.v.settled, w.v.fractionWad)
  }

  /** Settling the full vault settles its view. */
  lemma ProjectionSettles(cfg: Config, full: VS.Config, w: VS.World, sender: Address, fractionWad: nat)
    requires cfg.keeper == full.keeper
    ensures var tx := VS.SettleTx(full, w, sender, fractionWad);
      var view := SettleTx(cfg, Projected(full, w), sender, fractionWad, VS.IsIdle(w.v));
      match tx
      case Done(w') => view == Done(Projected(full, w'))
      case Revert(reason) => view == Revert(reason)
  {
  }

  /** SettlementRelay.relay, on what the contract at `vault` answers. */
  function RelayTx(cfg: Config, vault: Address, leg: Address, settled: bool, fractionWad: nat): Tx<Message> {
    if !settled then Revert("NOT_SETTLED") else Done(Message(cfg.relay, vault, fractionWad, leg))
  }

  /** OutcomeLeg.receiveSettlement. */
  function ReceiveTx(cfg: Config, leg: Leg, m: Message): Tx<Leg> {
    if m.sender != cfg.relay then Revert("NOT_RELAY") else
    if m.vault != leg.sourceVault then Revert("WRONG_VAULT") else
    if leg.settled then Revert("ALREADY_SETTLED") else
    if m.fractionWad > WAD then Revert("BAD_FRACTION") else
    Done(leg.(settled := true, fractionWad := m.fractionWad))
  }

  // ------------------------------------------------------------------ keeper

  /** What a tick of the keeper signs for an unsettled vault, on the market it reads. */
  function TickFraction(v: Vault, vault: Address, market: Market, memory: map<Address, nat>): Option<nat> {
    match market
    case Active => None
    case Resolved(value, question) => if question != v.question then None else Some(VS.FractionOf(value))
    case Pruned => if vault in memory then Some(memory[vault]) else None
  }

  /** Only a value Core still shows is remembered. */
  function TickMemory(v: Vault, vault: Address, market: Market, memory: map<Address, nat>): map<Address, nat> {
    if market.Resolved? && market.question == v.question then memory[vault := VS.FractionOf(market.settledValue)] else memory
  }

  // ------------------------------------------------------------------- steps

  datatype Step =
    | CoreResolves(vault: Address, value: nat, question: nat)
    | CorePrunes(vault: Address)
    | KeeperTicks(vault: Address, persists: bool)
    | KeeperRestarts
    | SettleLands(vault: Address, sender: Address, fractionWad: nat, idle: bool)
    | Relay(vault: Address, leg: Address, answer: nat)
    | Forge(m: Message)
    | Deliver(m: Message)

  /** Core resolves an outcome once, at a value between none and all. Only the keeper signs for the
      keeper, and nobody but the relay sends with its address. */
  predicate Possible(cfg: Config, w: World, step: Step) {
    match step
    case CoreResolves(v, value, _) => v in w.vaults && w.vaults[v].market.Active? && value <= SETTLED_VALUE_ONE
    case CorePrunes(v) => v in w.vaults && w.vaults[v].market.Resolved?
    case KeeperTicks(v, _) => v in w.vaults
    case KeeperRestarts => true
    case SettleLands(v, sender, fraction, _) => v in w.vaults && (sender == cfg.keeper ==> (v, fraction) in w.sent)
    case Relay(_, _, _) => true
    case Forge(m) => m.sender != cfg.relay
    case Deliver(m) => m in w.messages && m.leg in w.legs
  }

  /** A contract that is no vault of ours may answer anything, and say it is settled. */
  function RelayAnswer(w: World, vault: Address, answer: nat): (bool, nat) {
    if vault in w.vaults then (w.vaults[vault].settled, w.vaults[vault].fractionWad) else (true, answer)
  }

  function Ticked(w: World, vault: Address, persists: bool): World
    requires vault in w.vaults
  {
    var v := w.vaults[vault];
    if v.settled then w else
    var memory := TickMemory(v, vault, v.market, w.memory);
    var fraction := TickFraction(v, vault, v.market, w.memory);
    w.(memory := memory,
       disk := if v.market.Resolved? && v.market.question == v.question && persists then memory else w.disk,
       sent := if fraction.Some? then w.sent + {(vault, fraction.value)} else w.sent)
  }

  function Next(cfg: Config, w: World, step: Step): World
    requires Possible(cfg, w, step)
  {
    match step
    case CoreResolves(v, value, question) =>
      w.(vaults := w.vaults[v := w.vaults[v].(market := VS.Resolved(value, question))],
         truth := if question == w.vaults[v].question then w.truth[v := value] else w.truth)
    case CorePrunes(v) => w.(vaults := w.vaults[v := w.vaults[v].(market := VS.Pruned)])
    case KeeperTicks(v, persists) => Ticked(w, v, persists)
    case KeeperRestarts => w.(memory := w.disk)
    case SettleLands(v, sender, fraction, idle) =>
      w.(vaults := w.vaults[v := Settle(SettleTx(cfg, w.vaults[v], sender, fraction, idle), w.vaults[v])])
    case Relay(v, leg, answer) =>
      var a := RelayAnswer(w, v, answer);
      var tx := RelayTx(cfg, v, leg, a.0, a.1);
      if tx.Done? then w.(messages := w.messages + {tx.value}) else w
    case Forge(m) => w.(messages := w.messages + {m})
    case Deliver(m) => w.(legs := w.legs[m.leg := Settle(ReceiveTx(cfg, w.legs[m.leg], m), w.legs[m.leg])])
  }

  predicate PossibleRun(cfg: Config, w: World, steps: seq<Step>)
    decreases |steps|
  {
    steps == [] || (Possible(cfg, w, steps[0]) && PossibleRun(cfg, Next(cfg, w, steps[0]), steps[1..]))
  }

  function Run(cfg: Config, w: World, steps: seq<Step>): World
    requires PossibleRun(cfg, w, steps)
    decreases |steps|
  {
    if steps == [] then w else Run(cfg, Next(cfg, w, steps[0]), steps[1..])
  }

  /** Live markets, nothing settled, a keeper with nothing remembered. Every leg mirrors a vault. */
  predicate Fresh(w: World) {
    && (forall v <- w.vaults :: w.vaults[v].market.Active? && !w.vaults[v].settled)
    && (forall l <- w.legs :: !w.legs[l].settled && w.legs[l].sourceVault in w.vaults)
    && w.truth == w.memory == w.disk == map[] && w.sent == {} && w.messages == {}
  }
}
