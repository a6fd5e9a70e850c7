/** Every settled vault and every settled leg holds what Core resolved, whichever way it got
    there, and what the keeper once wrote to disk is never lost. */
module SettlementTheorems {
  import opened CoreConstants
  import opened NonLinear
  import opened Prelude
  import opened SettlementState
  import VS = VaultState

  /** A fraction is right for a vault when it is the value Core resolved its outcome at. */
  predicate RightFraction(w: World, v: Address, fractionWad: nat) {
    v in w.truth && fractionWad == VS.FractionOf(w.truth[v])
  }

  predicate TrueMarket(w: World, v: Address)
    requires v in w.vaults
  {
    var m := w.vaults[v].market;
    && (v in w.truth ==> !m.Active? && w.truth[v] <= SETTLED_VALUE_ONE)
    && (m.Resolved? && m.question == w.vaults[v].question ==> v in w.truth && w.truth[v] == m.settledValue)
  }

  predicate TrueVaults(w: World) {
    forall v <- w.vaults :: TrueMarket(w, v) && (w.vaults[v].settled ==> RightFraction(w, v, w.vaults[v].fractionWad))
  }

  predicate TrueCaches(w: World) {
    && (forall v :: v in w.truth ==> v in w.vaults)
    && (forall v <- w.memory :: RightFraction(w, v, w.memory[v]))
    && (forall v <- w.disk :: v in w.memory && RightFraction(w, v, w.disk[v]))
    && (forall s <- w.sent :: RightFraction(w, s.0, s.1))
  }

  predicate TrueMessage(cfg: Config, w: World, m: Message) {
    m.sender == cfg.relay && m.vault in w.vaults ==>
      w.vaults[m.vault].settled && m.fractionWad == w.vaults[m.vault].fractionWad
  }

  predicate TrueLeg(w: World, leg: Leg) {
    && leg.sourceVault in w.vaults
    && (leg.settled ==> w.vaults[leg.sourceVault].settled && leg.fractionWad == w.vaults[leg.sourceVault].fractionWad)
  }

  predicate TrueLegs(cfg: Config, w: World) {
    && (forall m <- w.messages :: TrueMessage(cfg, w, m))
    && (forall l <- w.legs :: TrueLeg(w, w.legs[l]))
  }

  predicate Inv(cfg: Config, w: World) {
    TrueVaults(w) && TrueCaches(w) && TrueLegs(cfg, w)
  }

  /** A value between none and all is a fraction the vault accepts. */
  lemma FractionIsAPart(value: nat)
    requires value <= SETTLED_VALUE_ONE
    ensures VS.FractionOf(value) <= WAD
  {
    PortionWithin(value, WAD, SETTLED_VALUE_ONE);
    assert value * WAD == WAD * value;
  }

  lemma VaultsStay(w: World, w': World)
    requires TrueVaults(w) && w'.vaults == w.vaults && w'.truth == w.truth
    ensures TrueVaults(w')
  {
    forall v | v in w.vaults ensures TrueMarket(w', v) {
      assert TrueMarket(w, v);
    }
  }

  /** Legs and messages stay right while settled vaults stay as they are. */
  lemma LegsStay(cfg: Config, w: World, w': World)
    requires TrueLegs(cfg, w) && w'.legs == w.legs && w'.messages == w.messages && w'.vaults.Keys == w.vaults.Keys
    requires forall v :: v in w.vaults && w.vaults[v].settled ==>
                           w'.vaults[v].settled && w'.vaults[v].fractionWad == w.vaults[v].fractionWad
    ensures TrueLegs(cfg, w')
  {
    forall m | m in w'.messages ensures TrueMessage(cfg, w', m) {
      assert TrueMessage(cfg, w, m);
    }
    forall l | l in w'.legs ensures TrueLeg(w', w'.legs[l]) {
      assert TrueLeg(w, w.legs[l]);
    }
  }

  lemma CachesStay(w: World, w': World)
    requires TrueCaches(w) && w'.memory == w.memory && w'.disk == w.disk && w'.sent == w.sent
    requires forall v :: v in w.truth ==> v in w'.truth && w'.truth[v] == w.truth[v]
    requires forall v :: v in w'.truth ==> v in w'.vaults
    ensures TrueCaches(w')
  {
    assert forall v, f :: RightFraction(w, v, f) ==> RightFraction(w', v, f);
  }

  lemma CoreKeepsVaults(cfg: Config, w: World, step: Step)
    requires TrueVaults(w) && (step.CoreResolves? || step.CorePrunes?) && Possible(cfg, w, step)
    ensures TrueVaults(Next(cfg, w, step))
  {
    forall v | v in w.vaults ensures TrueMarket(Next(cfg, w, step), v) {
      assert TrueMarket(w, v);
    }
  }

  lemma CoreKeeps(cfg: Config, w: World, step: Step)
    requires Inv(cfg, w) && (step.CoreResolves? || step.CorePrunes?) && Possible(cfg, w, step)
    ensures Inv(cfg, Next(cfg, w, step))
  {
    assert TrueMarket(w, step.vault);
    CoreKeepsVaults(cfg, w, step);
    CachesStay(w, Next(cfg, w, step));
    LegsStay(cfg, w, Next(cfg, w, step));
  }

  lemma TickKeepsCaches(w: World, v: Address, persists: bool)
    requires TrueVaults(w) && TrueCaches(w) && v in w.vaults
    ensures TrueCaches(Ticked(w, v, persists))
  {
    assert TrueMarket(w, v);
  }

  lemma TickKeeps(cfg: Config, w: World, v: Address, persists: bool)
    requires Inv(cfg, w) && v in w.vaults
    ensures Inv(cfg, Ticked(w, v, persists))
  {
    TickKeepsCaches(w, v, persists);
    VaultsStay(w, Ticked(w, v, persists));
    LegsStay(cfg, w, Ticked(w, v, persists));
  }

  lemma SettleKeeps(cfg: Config, w: World, step: Step)
    requires Inv(cfg, w) && step.SettleLands? && Possible(cfg, w, step)
    ensures Inv(cfg, Next(cfg, w, step))
  {
    assert TrueMarket(w, step.vault);
    forall v | v in w.vaults ensures TrueMarket(Next(cfg, w, step), v) {
      assert TrueMarket(w, v);
    }
    LegsStay(cfg, w, Next(cfg, w, step));
  }

  lemma MessageKeepsLegs(cfg: Config, w: World, step: Step)
    requires TrueLegs(cfg, w) && (step.Relay? || step.Forge? || step.Deliver?) && Possible(cfg, w, step)
    ensures TrueLegs(cfg, Next(cfg, w, step))
  {
    var w' := Next(cfg, w, step);
    forall m | m in w'.messages ensures TrueMessage(cfg, w', m) {
      assert m in w.messages ==> TrueMessage(cfg, w, m);
    }
    forall l | l in w'.legs ensures TrueLeg(w', w'.legs[l]) {
      assert TrueLeg(w, w.legs[l]);
      assert step.Deliver? ==> TrueMessage(cfg, w, step.m);
    }
  }

  lemma MessageKeeps(cfg: Config, w: World, step: Step)
    requires Inv(cfg, w) && (step.Relay? || step.Forge? || step.Deliver?) && Possible(cfg, w, step)
    ensures Inv(cfg, Next(cfg, w, step))
  {
    VaultsStay(w, Next(cfg, w, step));
    CachesStay(w, Next(cfg, w, step));
    MessageKeepsLegs(cfg, w, step);
  }

  lemma RestartKeeps(cfg: Config, w: World)
    requires Inv(cfg, w)
    ensures Inv(cfg, Next(cfg, w, KeeperRestarts))
  {
    VaultsStay(w, Next(cfg, w, KeeperRestarts));
    LegsStay(cfg, w, Next(cfg, w, KeeperRestarts));
  }

  lemma StepKeeps(cfg: Config, w: World, step: Step)
    requires Inv(cfg, w) && Possible(cfg, w, step)
    ensures Inv(cfg, Next(cfg, w, step))
  {
    match step
    case CoreResolves(_, _, _) => CoreKeeps(cfg, w, step);
    case CorePrunes(_) => CoreKeeps(cfg, w, step);
    case KeeperTicks(v, persists) => TickKeeps(cfg, w, v, persists);
    case SettleLands(_, _, _, _) => SettleKeeps(cfg, w, step);
    case KeeperRestarts => RestartKeeps(cfg, w);
    case _ => MessageKeeps(cfg, w, step);
  }

  lemma {:induction false} RunKeeps(cfg: Config, w: World, steps: seq<Step>)
    requires Inv(cfg, w) && PossibleRun(cfg, w, steps)
    ensures Inv(cfg, Run(cfg, w, steps))
    decreases |steps|
  {
    if steps != [] {
      StepKeeps(cfg, w, steps[0]);
      RunKeeps(cfg, Next(cfg, w, steps[0]), steps[1..]);
    }
  }

  // ---------------------------------------------------------------- theorems

  /** Whoever settled it, and whenever, a vault's fraction is the value Core resolved its outcome
      at; and a leg's is that of its own source vault. */
  lemma FractionsAreCores(cfg: Config, w: World, steps: seq<Step>, a: Address)
    requires Fresh(w) && PossibleRun(cfg, w, steps)
    ensures var e := Run(cfg, w, steps);
      && (a in e.vaults && e.vaults[a].settled ==>
            a in e.truth && e.truth[a] <= SETTLED_VALUE_ONE
            && e.vaults[a].fractionWad == e.truth[a] * WAD / SETTLED_VALUE_ONE <= WAD)
      && (a in e.legs && e.legs[a].settled ==>
            var source := e.legs[a].sourceVault;
            source in e.vaults && e.vaults[source].settled && e.legs[a].fractionWad == e.vaults[source].fractionWad)
  {
    RunKeeps(cfg, w, steps);
    var e := Run(cfg, w, steps);
    if a in e.vaults && e.vaults[a].settled {
      assert TrueMarket(e, a);
      FractionIsAPart(e.truth[a]);
    }
  }

  /** What a step leaves alone: a settled vault's fraction, a settled leg, a resolved value. */
  predicate Final(w: World, e: World, a: Address) {
    && (a in w.vaults && w.vaults[a].settled ==>
          a in e.vaults && e.vaults[a].settled && e.vaults[a].fractionWad == w.vaults[a].fractionWad)
    && (a in w.legs && w.legs[a].settled ==> a in e.legs && e.legs[a] == w.legs[a])
    && (a in w.truth ==> a in e.truth && e.truth[a] == w.truth[a])
  }

  lemma StepIsFinal(cfg: Config, w: World, step: Step, a: Address)
    requires Possible(cfg, w, step) && (a in w.truth ==> a in w.vaults && TrueMarket(w, a))
    ensures Final(w, Next(cfg, w, step), a)
  {
  }

  /** Settlement is written once: no later step changes a settled vault, a settled leg, or the
      value an outcome resolved at. */
  lemma {:induction false} SettlementIsFinal(cfg: Config, w: World, steps: seq<Step>, a: Address)
    requires Inv(cfg, w) && PossibleRun(cfg, w, steps)
    ensures Final(w, Run(cfg, w, steps), a)
    decreases |steps|
  {
    if steps != [] {
      StepKeeps(cfg, w, steps[0]);
      StepIsFinal(cfg, w, steps[0], a);
      SettlementIsFinal(cfg, Next(cfg, w, steps[0]), steps[1..], a);
    }
  }

  /** A fraction that reached the disk once is on disk and in memory ever after, through any
      crashes and any later disk failures. */
  lemma {:induction false} PersistedFractionsSurvive(cfg: Config, w: World, steps: seq<Step>, v: Address)
    requires Inv(cfg, w) && PossibleRun(cfg, w, steps) && v in w.disk
    ensures var e := Run(cfg, w, steps);
      v in e.disk && v in e.memory && e.disk[v] == e.memory[v] == w.disk[v]
    decreases |steps|
  {
    if steps != [] {
      StepKeeps(cfg, w, steps[0]);
      assert v in w.vaults ==> TrueMarket(w, v);
      PersistedFractionsSurvive(cfg, Next(cfg, w, steps[0]), steps[1..], v);
    }
  }

  /** So once it is on disk, the vault settles at the right fraction with the keeper's next tick
      even after Core forgot the value: the transaction the tick signs succeeds as soon as the
      vault is idle. */
  lemma PersistedVaultsCanSettle(cfg: Config, w: World, v: Address, persists: bool)
    requires Inv(cfg, w) && v in w.disk && !w.vaults[v].settled && w.vaults[v].market.Pruned?
    ensures var ticked := Ticked(w, v, persists);
      var land := SettleLands(v, cfg.keeper, VS.FractionOf(w.truth[v]), true);
      && Possible(cfg, ticked, land)
      && Next(cfg, ticked, land).vaults[v].settled
      && Next(cfg, ticked, land).vaults[v].fractionWad == VS.FractionOf(w.truth[v])
  {
    assert TrueMarket(w, v);
    FractionIsAPart(w.truth[v]);
  }

  /** A relay of a settled vault, delivered to its leg, settles that leg, unless it was already. */
  lemma RelaysSettleTheirLeg(cfg: Config, w: World, v: Address, leg: Address)
    requires Inv(cfg, w) && v in w.vaults && w.vaults[v].settled && leg in w.legs && w.legs[leg].sourceVault == v
    ensures var sent := Next(cfg, w, Relay(v, leg, 0));
      var m := Message(cfg.relay, v, w.vaults[v].fractionWad, leg);
      && Possible(cfg, sent, Deliver(m))
      && Next(cfg, sent, Deliver(m)).legs[leg] == Leg(v, true, w.vaults[v].fractionWad)
  {
    assert TrueMarket(w, v);
    FractionIsAPart(w.truth[v]);
  }

  /** The tick that sees an outcome resolved keeps its value: in memory at once, on disk if that works,
      as the floored share of one in 18 decimals. It signs a settlement at that fraction, which
      settles the vault whenever it lands with the vault idle, also once Core has forgotten. */
  lemma ResolvedTickRemembersAndSettles(cfg: Config, w: World, v: Address, persists: bool)
    requires Inv(cfg, w) && v in w.vaults && !w.vaults[v].settled
    requires w.vaults[v].market.Resolved? && w.vaults[v].market.question == w.vaults[v].question
    ensures var value := w.vaults[v].market.settledValue;
      var fraction := value * 1_000_000_000_000_000_000 / 100_000_000;
      var ticked := Next(cfg, w, KeeperTicks(v, persists));
      var land := SettleLands(v, cfg.keeper, fraction, true);
      && v in ticked.memory && ticked.memory[v] == fraction
      && (persists ==> v in ticked.disk && ticked.disk[v] == fraction)
      && Possible(cfg, ticked, land) && Next(cfg, ticked, land).vaults[v].settled
      && Next(cfg, ticked, land).vaults[v].fractionWad == fraction
      && var pruned := Next(cfg, ticked, CorePrunes(v));
         Possible(cfg, pruned, land) && Next(cfg, pruned, land).vaults[v].settled
         && Next(cfg, pruned, land).vaults[v].fractionWad == fraction
  {
    assert TrueMarket(w, v);
    FractionIsAPart(w.vaults[v].market.settledValue);
  }

  /** A leg takes a message exactly when it comes from the relay, is about the leg's own vault, the leg
      has not settled, and the fraction is no more than one; and then it takes that fraction. */
  lemma LegsTakeExactly(cfg: Config, leg: Leg, m: Message)
    ensures ReceiveTx(cfg, leg, m).Done? <==>
      m.sender == cfg.relay && m.vault == leg.sourceVault && !leg.settled && m.fractionWad <= 1_000_000_000_000_000_000
    ensures ReceiveTx(cfg, leg, m).Done? ==> ReceiveTx(cfg, leg, m).value == Leg(leg.sourceVault, true, m.fractionWad)
  {
  }
}
