/** How a parlay's legs decide it, once for everyone who has to decide: the contract's rule, the
    settlement bot's tests and the web row's verdicts all speak about these. */
module LegOutcomes {
  import opened Prelude

  datatype Leg = Leg(vault: Address, isYes: bool)

  /** The IOutcomeLeg view of a vault. */
  datatype LegState = LegState(settled: bool, fractionWad: nat)

  datatype Status = Open | Won | Dead | Void

  /** Settlement state of every vault; a vault not in it has not settled. */
  type Settlements = map<Address, LegState>

  function StateOf(ss: Settlements, vault: Address): LegState {
    if vault in ss then ss[vault] else LegState(false, 0)
  }

  predicate Settled(ss: Settlements, l: Leg) {
    StateOf(ss, l.vault).settled
  }

  predicate Lost(ss: Settlements, l: Leg) {
    var s := StateOf(ss, l.vault);
    s.settled && s.fractionWad == if l.isYes then 0 else WAD
  }

  predicate Hit(ss: Settlements, l: Leg) {
    var s := StateOf(ss, l.vault);
    s.settled && s.fractionWad == if l.isYes then WAD else 0
  }

  predicate Fractional(ss: Settlements, l: Leg) {
    Settled(ss, l) && !Lost(ss, l) && !Hit(ss, l)
  }

  predicate AnyLost(ss: Settlements, legs: seq<Leg>) {
    exists l <- legs :: Lost(ss, l)
  }

  predicate AnyFractional(ss: Settlements, legs: seq<Leg>) {
    exists l <- legs :: Fractional(ss, l)
  }

  predicate AllSettled(ss: Settlements, legs: seq<Leg>) {
    forall l <- legs :: Settled(ss, l)
  }

  /** Where a parlay lands: Dead if some leg lost, else Void if some leg is fractional, else Won
      if every leg settled, and all then hit. It cannot be resolved otherwise. */
  function Landing(ss: Settlements, legs: seq<Leg>): Option<Status> {
    if AnyLost(ss, legs) then Some(Dead) else
    if AnyFractional(ss, legs) then Some(Void) else
    if AllSettled(ss, legs) then Some(Won) else
    None
  }

  /** Settlements are written once: what has settled stays as it is, more may settle. */
  ghost predicate Extends(ss: Settlements, ss': Settlements) {
    forall v :: StateOf(ss, v).settled ==> StateOf(ss', v) == StateOf(ss, v)
  }

  /** The contract's loop over the legs: it stops at the first lost one. */
  method ScanLegs(ss: Settlements, legs: seq<Leg>) returns (landing: Option<Status>)
    ensures landing == Landing(ss, legs)
  {
    var anyFractional, allSettled := false, true;
    for i := 0 to |legs|
      invariant !AnyLost(ss, legs[..i])
      invariant anyFractional == AnyFractional(ss, legs[..i])
      invariant allSettled == AllSettled(ss, legs[..i])
    {
      assert legs[..i + 1] == legs[..i] + [legs[i]];
      var s := StateOf(ss, legs[i].vault);
      if !s.settled {
        assert !Settled(ss, legs[i]);
        allSettled := false;
        continue;
      }
      var lost := if legs[i].isYes then s.fractionWad == 0 else s.fractionWad == WAD;
      if lost {
        assert Lost(ss, legs[i]);
        return Some(Dead);
      }
      var hit := if legs[i].isYes then s.fractionWad == WAD else s.fractionWad == 0;
      if !hit {
        assert Fractional(ss, legs[i]);
        anyFractional := true;
      }
    }
    assert legs[..|legs|] == legs;
    if anyFractional {
      return Some(Void);
    }
    return if allSettled then Some(Won) else None;
  }

  /** Order and repetition of legs do not matter, only which legs there are. */
  lemma LandingIgnoresOrder(ss: Settlements, legs: seq<Leg>, legs': seq<Leg>)
    requires forall l :: l in legs <==> l in legs'
    ensures Landing(ss, legs) == Landing(ss, legs')
  {
    assert AnyLost(ss, legs) == AnyLost(ss, legs');
    assert AnyFractional(ss, legs) == AnyFractional(ss, legs');
    assert AllSettled(ss, legs) == AllSettled(ss, legs');
  }

  /** A won parlay has every leg settled and hit, and nothing else wins. */
  lemma WonIffAllHit(ss: Settlements, legs: seq<Leg>)
    ensures Landing(ss, legs) == Some(Won) <==> forall l <- legs :: Hit(ss, l)
  {
    if forall l <- legs :: Hit(ss, l) {
      assert !AnyLost(ss, legs) && !AnyFractional(ss, legs);
    } else {
      var l :| l in legs && !Hit(ss, l);
      assert Settled(ss, l) ==> Lost(ss, l) || Fractional(ss, l);
    }
  }

  /** Where a parlay lands, told from the settled fractions alone: a YES leg has lost at 0 and hit
      at WAD, a NO leg the other way round, and anything between voids a parlay no leg has lost. */
  lemma LandingByFractions(ss: Settlements, legs: seq<Leg>)
    ensures Landing(ss, legs) == Some(Dead) <==>
      exists l <- legs :: l.vault in ss && ss[l.vault].settled && ss[l.vault].fractionWad == if l.isYes then 0 else WAD
    ensures Landing(ss, legs) == Some(Won) <==>
      forall l <- legs :: l.vault in ss && ss[l.vault].settled && ss[l.vault].fractionWad == if l.isYes then WAD else 0
    ensures Landing(ss, legs) == Some(Void) <==>
      && (forall l <- legs :: l.vault in ss && ss[l.vault].settled ==> ss[l.vault].fractionWad != if l.isYes then 0 else WAD)
      && (exists l <- legs :: l.vault in ss && ss[l.vault].settled && ss[l.vault].fractionWad !in {0, WAD})
    ensures Landing(ss, legs).None? || Landing(ss, legs).value in {Dead, Won, Void}
  {
    WonIffAllHit(ss, legs);
    assert forall l <- legs :: Lost(ss, l) ==> l.vault in ss;
    assert forall l <- legs :: l.vault in ss && ss[l.vault].settled && ss[l.vault].fractionWad !in {0, WAD} ==> Fractional(ss, l);
    assert forall l <- legs :: Lost(ss, l) <==>
      l.vault in ss && ss[l.vault].settled && ss[l.vault].fractionWad == if l.isYes then 0 else WAD;
  }

  /** As more vaults settle, Dead and Won stay what they are and Void can only become Dead. So a
      poke decided on older settlements lands Dead or Void whenever it was to land there. */
  lemma LandingIsStable(ss: Settlements, ss': Settlements, legs: seq<Leg>)
    requires Extends(ss, ss')
    ensures Landing(ss, legs) == Some(Dead) ==> Landing(ss', legs) == Some(Dead)
    ensures Landing(ss, legs) == Some(Won) ==> Landing(ss', legs) == Some(Won)
    ensures Landing(ss, legs) == Some(Void) ==> Landing(ss', legs) in {Some(Void), Some(Dead)}
  {
    if AnyLost(ss, legs) {
      var l :| l in legs && Lost(ss, l);
      assert Lost(ss', l);
    } else if AnyFractional(ss, legs) {
      var l :| l in legs && Fractional(ss, l);
      assert Fractional(ss', l);
    } else if AllSettled(ss, legs) {
      forall l <- legs ensures Hit(ss', l) {
        assert Settled(ss, l) && !Lost(ss, l) && !Fractional(ss, l);
      }
      WonIffAllHit(ss', legs);
    }
  }

  // ------------------------------------------------- the settlement bot's tests

  /** settlement.ts parlayIsDead. */
  predicate ParlayIsDead(legs: seq<Leg>, ss: Settlements) {
    exists l <- legs :: LegLost(ss, l)
  }

  predicate LegLost(ss: Settlements, l: Leg) {
    var s := StateOf(ss, l.vault);
    s.settled && if l.isYes then s.fractionWad == 0 else s.fractionWad == WAD
  }

  /** settlement.ts parlayIsVoid, a loop that gives up at the first unsettled or lost leg: void
      here means the contract lands Void and every leg has settled, no less and no more. */
  method ParlayIsVoid(legs: seq<Leg>, ss: Settlements) returns (isVoid: bool)
    ensures isVoid <==> Landing(ss, legs) == Some(Void) && AllSettled(ss, legs)
  {
    var fractional := false;
    for i := 0 to |legs|
      invariant !AnyLost(ss, legs[..i]) && AllSettled(ss, legs[..i])
      invariant fractional == AnyFractional(ss, legs[..i])
    {
      assert legs[..i + 1] == legs[..i] + [legs[i]];
      var s := StateOf(ss, legs[i].vault);
      if !s.settled {
        assert !Settled(ss, legs[i]);
        return false;
      }
      if LegLost(ss, legs[i]) {
        assert Lost(ss, legs[i]);
        return false;
      }
      var hit := if legs[i].isYes then s.fractionWad == WAD else s.fractionWad == 0;
      if !hit {
        assert Fractional(ss, legs[i]);
        fractional := true;
      }
    }
    assert legs[..|legs|] == legs;
    return fractional;
  }

  /** The bot and the contract agree exactly on dead parlays, also if the contract has seen more
      settle by the time the poke lands. */
  lemma DeadTestIsExact(ss: Settlements, ss': Settlements, legs: seq<Leg>)
    requires Extends(ss, ss')
    ensures ParlayIsDead(legs, ss) <==> Landing(ss, legs) == Some(Dead)
    ensures ParlayIsDead(legs, ss) ==> Landing(ss', legs) == Some(Dead)
  {
    assert forall l <- legs :: LegLost(ss, l) == Lost(ss, l);
    LandingIsStable(ss, ss', legs);
  }

  /** The void test is one-sided: with a leg still to settle the contract already voids a parlay
      the bot leaves alone. */
  lemma VoidTestIsOneSided()
    ensures exists ss: Settlements, legs: seq<Leg> ::
      Landing(ss, legs) == Some(Void) && !AllSettled(ss, legs)
  {
    var ss: Settlements := map[1 := LegState(true, WAD / 2)];
    var legs := [Leg(1, true), Leg(2, true)];
    assert Fractional(ss, legs[0]) && !Settled(ss, legs[1]);
    assert !Lost(ss, legs[0]) && !Lost(ss, legs[1]);
    assert Landing(ss, legs) == Some(Void) && !AllSettled(ss, legs);
  }
}
