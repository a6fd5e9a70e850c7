/** What the ParlayVault guarantees over whole runs. */
module ParlayTheorems {
  import opened LegOutcomes
  import opened ParlayInvariants
  import opened ParlayState
  import opened Prelude
  import opened Sums

  function Amounts(payments: seq<(Address, nat)>): nat {
    if payments == [] then 0 else payments[0].1 + Amounts(payments[1..])
  }

  /** In every run the USDC in the vault covers the payouts of all open and all won, unclaimed
      tickets at once. */
  lemma EscrowIsCovered(self: Address, start: State, steps: seq<Step>)
    requires Fresh(self, start)
    ensures var s := Run(self, start, steps);
      Sum(Escrow(s), Units()) <= Balance(s.usdc, self)
  {
    FreshInv(self, start);
    RunKeeps(self, start, steps);
  }

  /** Over any run a ticket has paid out nothing while it is live, and exactly its maxPayout once
      it is dead, void or claimed: all to the writer, split, or all to the claimer. */
  lemma TicketPaysExactlyOnce(self: Address, start: State, steps: seq<Step>, id: nat)
    requires Fresh(self, start)
    ensures var s := Run(self, start, steps); PaidAsDue(s, id, Payments(s.log, id))
  {
    FreshInv(self, start);
    RunKeeps(self, start, steps);
    var s := Run(self, start, steps);
    if id in s.parlays {
      assert GoodTicket(self, s, id);
      DueIsTheWholePot(self, s, id);
    }
  }

  /** The payments of a ticket, written out. */
  predicate PaidAsDue(s: State, id: nat, paid: seq<(Address, nat)>) {
    if id !in s.parlays || Live(s, id) then paid == [] else
    var p := s.parlays[id];
    && Amounts(paid) == p.maxPayout
    && (if p.status.Dead? then paid == [(p.writer, p.maxPayout)] else
        && BurnHolder(s.log, id).Some?
        && var holder := BurnHolder(s.log, id).value;
           paid == if p.status.Won? then [(holder, p.maxPayout)]
                   else [(holder, p.premium), (p.writer, Monus(p.maxPayout, p.premium))])
  }

  lemma DueIsTheWholePot(self: Address, s: State, id: nat)
    requires id in s.parlays && GoodTicket(self, s, id)
    ensures PaidAsDue(s, id, Due(s, id))
  {
    var due := Due(s, id);
    if |due| > 0 {
      var rest := due[1..];
      assert |rest| > 0 ==> |rest[1..]| == 0;
      assert Amounts(rest) == if |rest| > 0 then rest[0].1 else 0;
    }
  }

  /** Whatever happened before, a claim goes through for the owner of a won ticket, or of an open
      one whose legs have all hit, and for nobody else. Funds are never the reason it does not. */
  lemma ClaimSucceedsExactlyForWinners(self: Address, start: State, steps: seq<Step>, sender: Address, id: nat)
    requires Fresh(self, start)
    ensures var s := Run(self, start, steps);
      ClaimTx(self, s, sender, id).Done? <==> Claimable(s, sender, id)
  {
    FreshInv(self, start);
    RunKeeps(self, start, steps);
    ClaimKeeps(self, Run(self, start, steps), sender, id);
  }

  /** Terms never change, and a status once reached is final. */
  predicate Continues(s: State, s': State) {
    forall id :: id in s.parlays ==>
      id in s'.parlays
      && s'.parlays[id] == s.parlays[id].(status := s'.parlays[id].status)
      && (s.parlays[id].status.Open? || s'.parlays[id].status == s.parlays[id].status)
  }

  lemma EffectContinues(self: Address, s: State, s': State, effect: Effect)
    requires Follows(self, s, s', effect)
    ensures Continues(s, s')
  {
  }

  lemma {:induction false} StatusesAreFinal(self: Address, s: State, steps: seq<Step>)
    requires Inv(self, s)
    ensures Continues(s, Run(self, s, steps)) && Extends(s.settlements, Run(self, s, steps).settlements)
    decreases |steps|
  {
    if steps != [] {
      var s1 := Next(self, s, steps[0]);
      var mid, first, second := StepFollows(self, s, steps[0]);
      EffectContinues(self, s, mid, first);
      EffectContinues(self, mid, s1, second);
      StatusesAreFinal(self, s1, steps[1..]);
    }
  }

  /** A ticket that is decided was decided rightly: what its legs say now agrees with its status,
      but for a void ticket, on which a leg may have lost since. */
  lemma {:induction false} DecisionsHold(self: Address, s: State, steps: seq<Step>, id: nat)
    requires Inv(self, s) && Decided(s, id)
    ensures Decided(Run(self, s, steps), id)
    decreases |steps|
  {
    if steps != [] {
      var mid, first, second := StepFollows(self, s, steps[0]);
      EffectDecides(self, s, mid, first, id);
      EffectDecides(self, mid, Next(self, s, steps[0]), second, id);
      DecisionsHold(self, Next(self, s, steps[0]), steps[1..], id);
    }
  }

  predicate Decided(s: State, id: nat) {
    id in s.parlays && !s.parlays[id].status.Open? ==>
      var landing := Landing(s.settlements, s.parlays[id].legs);
      landing == Some(s.parlays[id].status) || (s.parlays[id].status.Void? && landing == Some(Dead))
  }

  lemma EffectDecides(self: Address, s: State, s': State, effect: Effect, id: nat)
    requires Follows(self, s, s', effect) && Decided(s, id)
    ensures Decided(s', id)
  {
    if id in s.parlays {
      LandingIsStable(s.settlements, s'.settlements, s.parlays[id].legs);
    }
  }

  /** No transaction of the vault creates or destroys USDC. */
  lemma UsdcIsConserved(self: Address, s: State, step: Step)
    requires Inv(self, s)
    ensures Total(Next(self, s, step).usdc) == Total(s.usdc)
  {
    var _, _, _ := StepFollows(self, s, step);
  }

  /** The bot pokes a parlay that its dead or void test picks out on the settlements it read. */
  predicate WouldPoke(ss: Settlements, legs: seq<Leg>) {
    ParlayIsDead(legs, ss) || (Landing(ss, legs) == Some(Void) && AllSettled(ss, legs))
  }

  /** A poke never hits a winner or an unresolvable ticket: by the time it lands, with more legs
      settled perhaps, a ticket still open goes through and ends up dead or void. */
  lemma PokeAlwaysLands(self: Address, s: State, id: nat, seen: Settlements)
    requires Inv(self, s) && id in s.parlays && s.parlays[id].status.Open?
    requires Extends(seen, s.settlements) && WouldPoke(seen, s.parlays[id].legs)
    ensures match ResolveTx(self, s, id)
      case Done(s') => id in s'.parlays && (s'.parlays[id].status.Dead? || s'.parlays[id].status.Void?)
      case Revert(_) => false
  {
    DeadTestIsExact(seen, s.settlements, s.parlays[id].legs);
    LandingIsStable(seen, s.settlements, s.parlays[id].legs);
    ResolveKeeps(self, s, id);
  }

  /** The tickets it picks, by their legs' fractions: one on which a leg has settled against the
      ticket, or one whose legs have all settled, none against it and not all for it. */
  lemma PokesByFractions(ss: Settlements, legs: seq<Leg>)
    ensures WouldPoke(ss, legs) <==>
      || (exists l <- legs :: l.vault in ss && ss[l.vault].settled && ss[l.vault].fractionWad == if l.isYes then 0 else WAD)
      || (&& (forall l <- legs :: l.vault in ss && ss[l.vault].settled)
          && (exists l <- legs :: ss[l.vault].fractionWad !in {0, WAD}))
  {
    LandingByFractions(ss, legs);
    DeadTestIsExact(ss, ss, legs);
  }
}
