/** What a `clearOutbound` can cost. It may make the vault promise Core quote that earlier sends
    have not debited yet; these are the exact conditions and the most it can lose. */
module VaultClears {
  import opened CoreConstants
  import opened NonLinear
  import opened Prelude
  import opened Sums
  import opened VaultInvariants
  import opened VaultState
  import opened VaultTheorems

  // ------------------------------------------------ a clear costs only fees

  /** A deposit whose split has not run is still its user's quote. */
  function UnsplitDeposit(w: World): nat {
    if w.v.deposit.Deposit? && !(w.v.deposit.opId in w.c.fate && w.c.fate[w.v.deposit.opId])
    then w.v.deposit.amount else 0
  }

  /** A merge that ran and was not claimed is quote again. */
  function MergedUnclaimed(w: World): nat {
    if w.v.redeem.Redeem? && w.v.redeem.opId in w.c.fate && w.c.fate[w.v.redeem.opId]
    then w.v.redeem.amount else 0
  }

  /** Everything users have a claim to in quote. */
  function Claims(w: World): nat {
    w.v.totalOwed + UnsplitDeposit(w) + MergedUnclaimed(w)
  }

  /** Claims less the vault's quote on the EVM side and under way. */
  function Net(w: World): int {
    Claims(w) - w.t.bal - w.c.transit
  }

  /** What the claims exceed the vault's quote by: on the EVM side, under way to Core, and there. */
  function Gap(cfg: Config, w: World): int {
    Net(w) * cfg.scale.multiplier - w.c.quote
  }

  /** The fee Core keeps of the merge it runs in this step, if it runs one. */
  function StepFee(w: World, step: Step): nat {
    if step.CoreProcesses? && !step.dropped && step.i < |w.c.queue| && w.c.queue[step.i].Merge?
    then MergeFee(w.c, CollateralOf(w.c.queue[step.i].wei)) else 0
  }

  function FeesPaid(cfg: Config, w: World, steps: seq<Step>): nat
    decreases |steps|
  {
    if steps == [] then 0 else StepFee(w, steps[0]) + FeesPaid(cfg, Next(cfg, w, steps[0]), steps[1..])
  }

  lemma ProcessGap(cfg: Config, w: World, i: nat, dropped: bool)
    requires Serial(cfg, w) && i < |w.c.queue|
    ensures Gap(cfg, ProcessAction(cfg, w, i, dropped)) <= Gap(cfg, w) + StepFee(w, CoreProcesses(i, dropped))
  {
    var a, w' := w.c.queue[i], ProcessAction(cfg, w, i, dropped);
    var m := cfg.scale.multiplier;
    assert MatchesSlot(cfg, w, a);
    MulSub(Net(w'), Net(w), m);
  }

  lemma PayoutGap(cfg: Config, w: World, step: Step)
    requires Serial(cfg, w) && TruthfulStep(w, step) && (step.DoCancelDeposit? || step.DoClaimRedeem?)
    ensures Gap(cfg, Next(cfg, w, step)) <= Gap(cfg, w)
  {
    var w' := Next(cfg, w, step);
    if Transaction(cfg, w, step).Done? {
      if step.DoCancelDeposit? {
        PayOutEffect(cfg, w.(v := w.v.(deposit := NoDeposit)), w.v.deposit.user, w.v.deposit.amount);
      } else {
        PayOutEffect(cfg, w.(v := w.v.(redeem := NoRedeem)), w.v.redeem.user, w.v.redeem.amount);
      }
      MulLe(Net(w'), Net(w), cfg.scale.multiplier);
    }
  }

  lemma CreditGap(cfg: Config, w: World, n: nat)
    ensures Gap(cfg, CreditTransit(cfg, w, n)) == Gap(cfg, w)
  {
    MulSub(Net(w) + n, Net(w), cfg.scale.multiplier);
  }

  predicate MovesClaims(step: Step) {
    step.DoCancelDeposit? || step.DoClaimRedeem? || step.CoreCredits? || step.CoreProcesses?
  }

  lemma OtherNet(cfg: Config, w: World, step: Step)
    requires Serial(cfg, w) && TruthfulStep(w, step) && !MovesClaims(step) && !Next(cfg, w, step).v.settled && !w.v.settled
    ensures Net(Next(cfg, w, step)) <= Net(w) && w.c.quote <= Next(cfg, w, step).c.quote
  {
  }

  /** Anything else before settlement leaves claims and quote apart as they were, or closer. */
  lemma OtherGap(cfg: Config, w: World, step: Step)
    requires Serial(cfg, w) && TruthfulStep(w, step) && !MovesClaims(step) && !Next(cfg, w, step).v.settled && !w.v.settled
    ensures Gap(cfg, Next(cfg, w, step)) <= Gap(cfg, w)
  {
    OtherNet(cfg, w, step);
    MulLe(Net(Next(cfg, w, step)), Net(w), cfg.scale.multiplier);
  }

  lemma StepGap(cfg: Config, w: World, step: Step)
    requires Serial(cfg, w) && TruthfulStep(w, step) && !Next(cfg, w, step).v.settled
    ensures Gap(cfg, Next(cfg, w, step)) <= Gap(cfg, w) + StepFee(w, step)
  {
    SettledIsForever(cfg, w, step);
    match step
    case DoCancelDeposit(_) => PayoutGap(cfg, w, step);
    case DoClaimRedeem(_) => PayoutGap(cfg, w, step);
    case CoreCredits(n) => CreditGap(cfg, w, n);
    case CoreProcesses(i, dropped) => if i < |w.c.queue| { ProcessGap(cfg, w, i, dropped); }
    case _ => OtherGap(cfg, w, step);
  }

  lemma {:induction false} RunGap(cfg: Config, w: World, steps: seq<Step>)
    requires Serial(cfg, w) && TruthfulRun(cfg, w, steps) && !Run(cfg, w, steps).v.settled
    ensures Gap(cfg, Run(cfg, w, steps)) <= Gap(cfg, w) + FeesPaid(cfg, w, steps)
    decreases |steps|
  {
    if steps != [] {
      NothingSweptBeforeSettlement(cfg, Next(cfg, w, steps[0]), steps[1..]);
      StepGap(cfg, w, steps[0]);
      SerialStep(cfg, w, steps[0]);
      RunGap(cfg, Next(cfg, w, steps[0]), steps[1..]);
    }
  }

  /** Whatever the owner clears, and however often: before settlement users' claims never exceed
      the vault's quote, deposits under way to Core included, by more than the fees Core kept. */
  lemma ClearsCostNoMoreThanFees(cfg: Config, start: World, steps: seq<Step>)
    requires Fresh(start) && TruthfulRun(cfg, start, steps) && !Run(cfg, start, steps).v.settled
    ensures var w := Run(cfg, start, steps);
      Claims(w) * cfg.scale.multiplier
        <= (w.t.bal + w.c.transit) * cfg.scale.multiplier + w.c.quote + FeesPaid(cfg, start, steps)
  {
    var w, m := Run(cfg, start, steps), cfg.scale.multiplier;
    RunGap(cfg, start, steps);
    MulLe(0, start.t.bal, m);
    MulSub(0, start.t.bal, m);
    MulSub(Claims(w), w.t.bal + w.c.transit, m);
  }

  lemma {:induction false} NoFeeNoFees(cfg: Config, w: World, steps: seq<Step>)
    requires w.c.mergeFeeBps == 0
    ensures FeesPaid(cfg, w, steps) == 0
    decreases |steps|
  {
    if steps != [] {
      FeeStays(cfg, w, steps[0]);
      NoFeeNoFees(cfg, Next(cfg, w, steps[0]), steps[1..]);
    }
  }

  lemma FeeStays(cfg: Config, w: World, step: Step)
    ensures Next(cfg, w, step).c.mergeFeeBps == w.c.mergeFeeBps
  {
  }

  /** So where merges cost nothing no clear can leave a claim without its quote. */
  lemma FreeMergesNeverUncover(cfg: Config, start: World, steps: seq<Step>)
    requires Fresh(start) && start.c.mergeFeeBps == 0 && TruthfulRun(cfg, start, steps) && !Run(cfg, start, steps).v.settled
    ensures var w := Run(cfg, start, steps);
      Claims(w) * cfg.scale.multiplier <= (w.t.bal + w.c.transit) * cfg.scale.multiplier + w.c.quote
  {
    ClearsCostNoMoreThanFees(cfg, start, steps);
    NoFeeNoFees(cfg, start, steps);
  }

  // ------------------------------------------- a careless clear loses the fee

  /** A token of 8 decimals, a merge fee of 1 bps, an owner (1), a keeper (2), alice (3), bob (4). */
  const CONFIG: Config := Config(Scale(100_000_000, 1), 7, 1, 2)

  function At(purse: map<Address, nat>, yes: map<Address, nat>, no: map<Address, nat>, supply: nat,
      deposit: DepositSlot, redeem: RedeemSlot, owed: map<Address, nat>, totalOwed: nat, ops: nat,
      target: nat, outWei: nat, expected: nat,
      quote: nat, locked: nat, transit: nat, queue: seq<Action>, fate: map<nat, bool>): World
  {
    World(Tokens(0, purse, yes, supply, no, supply),
          Storage(deposit, redeem, owed, totalOwed, ops, false, 0, target, outWei, expected, 0, false),
          Core(quote, locked, transit, queue, fate, Active, false, 1))
  }

  const W0: World := At(map[3 := 200_000], map[], map[], 0, NoDeposit, NoRedeem,
    map[], 0, 0, 0, 0, 0, 0, 0, 0, [], map[])
  const W1: World := At(map[3 := 0], map[], map[], 0, Deposit(3, 200_000, 1, 0), NoRedeem,
    map[], 0, 1, 0, 0, 0, 0, 0, 200_000, [Split(1, 200)], map[])
  const W2: World := At(map[3 := 0], map[], map[], 0, Deposit(3, 200_000, 1, 0), NoRedeem,
    map[], 0, 1, 0, 0, 0, 200_000, 0, 0, [Split(1, 200)], map[])
  const W3: World := At(map[3 := 0], map[], map[], 0, Deposit(3, 200_000, 1, 0), NoRedeem,
    map[], 0, 1, 0, 0, 0, 0, 200_000, 0, [], map[1 := true])
  const W4: World := At(map[3 := 0], map[3 := 200_000], map[3 := 200_000], 200_000, NoDeposit, NoRedeem,
    map[], 0, 1, 0, 0, 0, 0, 200_000, 0, [], map[1 := true])
  const W5: World := At(map[3 := 0], map[3 := 100_000, 4 := 100_000], map[3 := 200_000], 200_000, NoDeposit, NoRedeem,
    map[], 0, 1, 0, 0, 0, 0, 200_000, 0, [], map[1 := true])
  const W6: World := At(map[3 := 0], map[3 := 100_000, 4 := 100_000], map[3 := 100_000, 4 := 100_000], 200_000, NoDeposit, NoRedeem,
    map[], 0, 1, 0, 0, 0, 0, 200_000, 0, [], map[1 := true])
  const W7: World := At(map[3 := 0], map[3 := 0, 4 := 100_000], map[3 := 0, 4 := 100_000], 100_000, NoDeposit, Redeem(3, 100_000, 2),
    map[], 0, 2, 0, 0, 0, 0, 200_000, 0, [Merge(2, 100)], map[1 := true])
  const W8: World := At(map[3 := 0], map[3 := 0, 4 := 100_000], map[3 := 0, 4 := 100_000], 100_000, NoDeposit, Redeem(3, 100_000, 2),
    map[], 0, 2, 0, 0, 0, 99_990, 100_000, 0, [], map[1 := true, 2 := true])
  const W9: World := At(map[3 := 0], map[3 := 0, 4 := 100_000], map[3 := 0, 4 := 100_000], 100_000, NoDeposit, NoRedeem,
    map[3 := 99_990], 99_990, 2, 0, 99_990, 99_990, 99_990, 100_000, 0, [Send(99_990)], map[1 := true, 2 := true])
  const W10: World := At(map[3 := 0], map[3 := 0, 4 := 0], map[3 := 0, 4 := 0], 0, NoDeposit, Redeem(4, 100_000, 3),
    map[3 := 99_990], 99_990, 3, 0, 99_990, 99_990, 99_990, 100_000, 0, [Send(99_990), Merge(3, 100)], map[1 := true, 2 := true])
  const W11: World := At(map[3 := 0], map[3 := 0, 4 := 0], map[3 := 0, 4 := 0], 0, NoDeposit, Redeem(4, 100_000, 3),
    map[3 := 99_990], 99_990, 3, 0, 99_990, 99_990, 199_980, 0, 0, [Send(99_990)], map[1 := true, 2 := true, 3 := true])
  const W12: World := At(map[3 := 0], map[3 := 0, 4 := 0], map[3 := 0, 4 := 0], 0, NoDeposit, Redeem(4, 100_000, 3),
    map[3 := 99_990], 99_990, 3, 0, 0, 0, 199_980, 0, 0, [Send(99_990)], map[1 := true, 2 := true, 3 := true])
  const W13: World := At(map[3 := 0], map[3 := 0, 4 := 0], map[3 := 0, 4 := 0], 0, NoDeposit, NoRedeem,
    map[3 := 99_990, 4 := 100_000], 199_990, 3, 99_980, 100_000, 100_000, 199_980, 0, 0, [Send(99_990), Send(100_000)], map[1 := true, 2 := true, 3 := true])

  lemma Careless1()
    ensures TruthfulStep(W0, DoDeposit(3, 200_000)) && Next(CONFIG, W0, DoDeposit(3, 200_000)) == W1
  {
  }

  lemma Careless2()
    ensures TruthfulStep(W1, CoreCredits(200_000)) && Next(CONFIG, W1, CoreCredits(200_000)) == W2
  {
  }

  lemma Careless3()
    ensures TruthfulStep(W2, CoreProcesses(0, false)) && Next(CONFIG, W2, CoreProcesses(0, false)) == W3
  {
  }

  lemma Careless4()
    ensures TruthfulStep(W3, DoClaimDeposit(Executed)) && Next(CONFIG, W3, DoClaimDeposit(Executed)) == W4
  {
  }

  lemma Careless5()
    ensures TruthfulStep(W4, DoTransfer(true, 3, 4, 100_000)) && Next(CONFIG, W4, DoTransfer(true, 3, 4, 100_000)) == W5
  {
  }

  lemma Careless6()
    ensures TruthfulStep(W5, DoTransfer(false, 3, 4, 100_000)) && Next(CONFIG, W5, DoTransfer(false, 3, 4, 100_000)) == W6
  {
  }

  lemma HundredThousandUnits()
    ensures EvmToOutcomeWei(100_000, CONFIG.scale) == Done(100)
  {
  }

  lemma Careless7()
    ensures TruthfulStep(W6, DoRequestRedeem(3, 100_000)) && Next(CONFIG, W6, DoRequestRedeem(3, 100_000)) == W7
  {
    HundredThousandUnits();
    assert BurnSide(BurnSide(W6.t, true, 3, 100_000), false, 3, 100_000) == W7.t;
    assert W6.c.queue + [Merge(2, 100)] == W7.c.queue;
  }

  lemma Careless8()
    ensures TruthfulStep(W7, CoreProcesses(0, false)) && Next(CONFIG, W7, CoreProcesses(0, false)) == W8
  {
  }

  /** What Core gave back of alice's 100_000. */
  lemma AlicePayable(idle: World)
    requires idle.c.quote == 99_990 && UnlandedEvm(idle) == 0
    ensures PayableNow(CONFIG, idle, 100_000) == 99_990 && QuoteWeiToEvm(99_990, CONFIG.scale) == 99_990
    ensures EvmToQuoteWei(99_990, CONFIG.scale) == Done(99_990) && EvmToQuoteWei(100_000, CONFIG.scale) == Done(100_000)
  {
    QuoteWeiRoundTrip(99_990, CONFIG.scale);
    QuoteWeiExact(99_990, CONFIG.scale);
    QuoteWeiExact(100_000, CONFIG.scale);
  }

  lemma Careless9()
    ensures TruthfulStep(W8, DoClaimRedeem(Executed)) && Next(CONFIG, W8, DoClaimRedeem(Executed)) == W9
  {
    var idle := W8.(v := W8.v.(redeem := NoRedeem));
    AlicePayable(idle);
    var credited := idle.(v := idle.v.(owed := map[3 := 99_990], totalOwed := 99_990));
    assert credited.c.queue + [Send(99_990)] == W9.c.queue;
    assert SpotSendOut(CONFIG, credited, 99_990).value.v == W9.v;
    assert PayOut(CONFIG, idle, 3, 100_000) == Done(W9);
  }

  lemma Careless10()
    ensures TruthfulStep(W9, DoRequestRedeem(4, 100_000)) && Next(CONFIG, W9, DoRequestRedeem(4, 100_000)) == W10
  {
    HundredThousandUnits();
    assert BurnSide(BurnSide(W9.t, true, 4, 100_000), false, 4, 100_000) == W10.t;
    assert W9.c.queue + [Merge(3, 100)] == W10.c.queue;
  }

  lemma Careless11()
    ensures TruthfulStep(W10, CoreProcesses(1, false)) && Next(CONFIG, W10, CoreProcesses(1, false)) == W11
  {
  }

  lemma Careless12()
    ensures TruthfulStep(W11, DoClearOutbound(1)) && Next(CONFIG, W11, DoClearOutbound(1)) == W12
  {
  }

  /** The trackers cleared, nothing keeps bob from all he asks for. */
  lemma BobPayable(idle: World)
    requires idle.c.quote == 199_980 && UnlandedEvm(idle) == 0
    ensures PayableNow(CONFIG, idle, 100_000) == 100_000 && QuoteWeiToEvm(100_000, CONFIG.scale) == 100_000
    ensures EvmToQuoteWei(100_000, CONFIG.scale) == Done(100_000)
  {
    QuoteWeiRoundTrip(199_980, CONFIG.scale);
    QuoteWeiRoundTrip(100_000, CONFIG.scale);
    QuoteWeiExact(100_000, CONFIG.scale);
  }

  lemma Careless13()
    ensures TruthfulStep(W12, DoClaimRedeem(Executed)) && Next(CONFIG, W12, DoClaimRedeem(Executed)) == W13
  {
    var idle := W12.(v := W12.v.(redeem := NoRedeem));
    BobPayable(idle);
    var credited := idle.(v := idle.v.(owed := map[3 := 99_990, 4 := 100_000], totalOwed := 199_990));
    assert credited.c.queue + [Send(100_000)] == W13.c.queue;
    assert SpotSendOut(CONFIG, credited, 100_000).value.v == W13.v;
    assert PayOut(CONFIG, idle, 4, 100_000) == Done(W13);
  }

  /** One more step before a run. */
  lemma Precede(w: World, step: Step, rest: seq<Step>) returns (steps: seq<Step>)
    requires TruthfulStep(w, step) && TruthfulRun(CONFIG, Next(CONFIG, w, step), rest)
    ensures TruthfulRun(CONFIG, w, steps) && Run(CONFIG, w, steps) == Run(CONFIG, Next(CONFIG, w, step), rest)
  {
    steps := [step] + rest;
    assert steps[1..] == rest;
  }

  lemma FromAlicesCredit() returns (steps: seq<Step>)
    ensures TruthfulRun(CONFIG, W9, steps) && Run(CONFIG, W9, steps) == W13
  {
    steps := [];
    Careless13();
    steps := Precede(W12, DoClaimRedeem(Executed), steps);
    Careless12();
    steps := Precede(W11, DoClearOutbound(1), steps);
    Careless11();
    steps := Precede(W10, CoreProcesses(1, false), steps);
    Careless10();
    steps := Precede(W9, DoRequestRedeem(4, 100_000), steps);
  }

  lemma FromShares() returns (steps: seq<Step>)
    ensures TruthfulRun(CONFIG, W4, steps) && Run(CONFIG, W4, steps) == W13
  {
    steps := FromAlicesCredit();
    Careless9();
    steps := Precede(W8, DoClaimRedeem(Executed), steps);
    Careless8();
    steps := Precede(W7, CoreProcesses(0, false), steps);
    Careless7();
    steps := Precede(W6, DoRequestRedeem(3, 100_000), steps);
    Careless6();
    steps := Precede(W5, DoTransfer(false, 3, 4, 100_000), steps);
    Careless5();
    steps := Precede(W4, DoTransfer(true, 3, 4, 100_000), steps);
  }

  /** A run of a new vault at a merge fee of 1 bps. Alice deposits, gives bob half of each side,
      redeems, and is credited all that Core gave back; the send stays under way. Bob redeems, the
      owner clears, bob claims: now 199_990 is owed and 199_980 is there, with nothing under way. */
  lemma CarelessClearUncovers() returns (steps: seq<Step>)
    ensures Fresh(W0) && TruthfulRun(CONFIG, W0, steps)
    ensures var w := Run(CONFIG, W0, steps);
      && w.v.totalOwed == 199_990 && w.t.bal + w.c.transit == 0
      && QuoteWeiToEvm(w.c.quote, CONFIG.scale) == 199_980
  {
    steps := FromShares();
    Careless4();
    steps := Precede(W3, DoClaimDeposit(Executed), steps);
    Careless3();
    steps := Precede(W2, CoreProcesses(0, false), steps);
    Careless2();
    steps := Precede(W1, CoreCredits(200_000), steps);
    Careless1();
    steps := Precede(W0, DoDeposit(3, 200_000), steps);
    QuoteWeiRoundTrip(199_980, CONFIG.scale);
  }
}
