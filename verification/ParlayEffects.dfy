/** What the ParlayVault's transactions do to everybody's USDC, told in balances: who pays for a
    mint and how much, whom a claim and a resolution pay, and that over whole runs the log's
    payments are the payments. */
module ParlayEffects {
  import opened LegOutcomes
  import opened ParlayInvariants
  import opened ParlayState
  import opened Prelude
  import opened Sums

  // ------------------------------------------------------------------- mint

  /** The legs a mint accepts, told at once: all are allowed and none has settled. */
  lemma {:induction false} LegsPass(s: State, legs: seq<Leg>)
    ensures CheckLegs(s, legs).Success? <==>
      forall l <- legs :: l.vault in s.allowedLeg && !(l.vault in s.settlements && s.settlements[l.vault].settled)
    decreases |legs|
  {
    if legs != [] {
      assert legs == [legs[0]] + legs[1..];
      LegsPass(s, legs[1..]);
    }
  }

  /** Both parties can pay their share; if they are one account, it can pay the whole pot. */
  lemma EscrowGoesThrough(self: Address, s: State, taker: Address, premium: nat, rest: nat)
    requires Balance(s.allowance, self) == 0 && 0 < rest && premium + rest < MAX_U256
    ensures EscrowUsdc(self, s, taker, premium, rest).Done? <==>
      && taker != 0 && premium <= Balance(s.usdc, taker) && premium <= Balance(s.allowance, taker)
      && s.writer != 0 && rest <= Balance(s.usdc, s.writer) && rest <= Balance(s.allowance, s.writer)
      && (taker == s.writer ==> premium + rest <= Balance(s.usdc, taker) && premium + rest <= Balance(s.allowance, taker))
  {
    if PullUsdc(self, s, taker, premium).Done? {
      Pulling(self, s, taker, premium);
      assert Pulled(self, s, PullUsdc(self, s, taker, premium).value, taker, premium, s.writer);
    }
  }

  /** Exactly these mints go through: a quote the signer signed, in time, for its sender, not used
      yet, on one to ten allowed legs none of which has settled, its premium below its payout but
      no less than the minimum share of it, with both parties good for their shares. */
  lemma MintsThatGoThrough(self: Address, s: State, sender: Address, q: Quote, signed: bool, now: nat)
    requires Inv(self, s)
    ensures MintTx(self, s, sender, q, signed, now).Done? <==>
      && signed && now <= q.deadline && sender == q.taker && q.quoteId !in s.usedQuotes
      && 1 <= |q.legs| <= 10
      && (forall l <- q.legs :: l.vault in s.allowedLeg && !(l.vault in s.settlements && s.settlements[l.vault].settled))
      && q.premium < q.maxPayout && q.premium * 10_000 >= q.maxPayout * s.minPremiumBps
      && sender != 0 && q.premium <= Balance(s.usdc, sender) && q.premium <= Balance(s.allowance, sender)
      && s.writer != 0 && q.maxPayout - q.premium <= Balance(s.usdc, s.writer)
      && q.maxPayout - q.premium <= Balance(s.allowance, s.writer)
      && (sender == s.writer ==> q.maxPayout <= Balance(s.usdc, sender) && q.maxPayout <= Balance(s.allowance, sender))
  {
    LegsPass(s, q.legs);
    if q.premium < q.maxPayout {
      EscrowGoesThrough(self, s, sender, q.premium, q.maxPayout - q.premium);
    }
  }

  /** A mint takes the premium from the taker and the rest of the pot from the writer, out of their
      balances and out of any allowance that is not unlimited, puts the whole pot into the vault
      and leaves everybody else alone. */
  lemma MintTakesEachShare(self: Address, s: State, sender: Address, q: Quote, signed: bool, now: nat)
    requires Inv(self, s) && MintTx(self, s, sender, q, signed, now).Done?
    ensures var s' := MintTx(self, s, sender, q, signed, now).value;
      && Balance(s'.usdc, self) == Balance(s.usdc, self) + q.maxPayout
      && forall a ::
           var share := (if a == sender then q.premium else 0) + (if a == s.writer then q.maxPayout - q.premium else 0);
           && (a != self ==> Balance(s'.usdc, a) == Balance(s.usdc, a) - share)
           && (Balance(s.allowance, a) < MAX_U256 ==> Balance(s'.allowance, a) == Balance(s.allowance, a) - share)
           && (Balance(s.allowance, a) == MAX_U256 ==> Balance(s'.allowance, a) == MAX_U256)
  {
    MintEffect(self, s, sender, q, signed, now);
    assert forall a :: Staked(self, s, MintTx(self, s, sender, q, signed, now).value, sender, q, a);
  }

  // -------------------------------------------------- claims and resolutions

  /** What one event pays account `a`. */
  function PaysTo(e: Event, a: Address): nat {
    if e.PaidOut? && e.to == a then e.amount else 0
  }

  lemma PaidByTwo(e: Event, f: Event, a: Address)
    ensures PaidTo([e], a) == PaysTo(e, a)
    ensures PaidTo([e, f], a) == PaysTo(e, a) + PaysTo(f, a)
  {
    PaidOneMore([], e, a);
    assert [] + [e] == [e];
    PaidOneMore([e], f, a);
    assert [e] + [f] == [e, f];
  }

  lemma PaidByFour(e: Event, f: Event, g: Event, h: Event, a: Address)
    ensures PaidTo([e, f, g, h], a) == PaysTo(e, a) + PaysTo(f, a) + PaysTo(g, a) + PaysTo(h, a)
  {
    PaidByTwo(e, f, a);
    PaidByTwo(g, h, a);
    PaidAdds([e, f], [g, h], a);
    assert [e, f] + [g, h] == [e, f, g, h];
  }

  /** What the events of a resolution pay account `a`. */
  function ResolutionDue(p: Parlay, holder: Address, status: Status, a: Address): nat {
    match status
    case Dead => if a == p.writer then p.maxPayout else 0
    case Void => (if a == holder then p.premium else 0) + (if a == p.writer then Monus(p.maxPayout, p.premium) else 0)
    case _ => 0
  }

  lemma ResolveEventsPay(s: State, id: nat, status: Status, a: Address)
    requires id in s.parlays && id in s.owners
    ensures PaidTo(ResolveEvents(s, id, status), a) == ResolutionDue(s.parlays[id], s.owners[id], status, a)
  {
    var p, holder := s.parlays[id], s.owners[id];
    if status.Void? {
      PaidByFour(ResolvedTo(id, Void), Transferred(holder, ZERO_ADDRESS, id),
                 PaidOut(id, holder, p.premium), PaidOut(id, p.writer, Monus(p.maxPayout, p.premium)), a);
    } else {
      PaidByTwo(ResolvedTo(id, status), PaidOut(id, p.writer, p.maxPayout), a);
    }
  }

  lemma ClaimEventsPay(s: State, id: nat, a: Address)
    requires id in s.parlays && id in s.owners
    ensures PaidTo(ClaimEvents(s, id), a) == if a == s.owners[id] then s.parlays[id].maxPayout else 0
  {
    PaidByTwo(Transferred(s.owners[id], ZERO_ADDRESS, id), PaidOut(id, s.owners[id], s.parlays[id].maxPayout), a);
  }

  /** A resolution pays a dead ticket's whole pot to the writer it was minted with, a void ticket's
      premium to its holder and the rest to that writer, a won ticket's nothing, and it moves
      nobody else's USDC. */
  lemma ResolutionPays(self: Address, s: State, id: nat, a: Address)
    requires Inv(self, s) && ResolveTx(self, s, id).Done? && a != self
    ensures var s' := ResolveTx(self, s, id).value;
      && id in s.parlays && id in s.owners && id in s'.parlays
      && var p := s.parlays[id];
         Balance(s'.usdc, a) == Balance(s.usdc, a) + match s'.parlays[id].status
           case Dead => if a == p.writer then p.maxPayout else 0
           case Void => (if a == s.owners[id] then p.premium else 0) + (if a == p.writer then p.maxPayout - p.premium else 0)
           case _ => 0
  {
    assert Resolvable(s, id) by { ResolveKeeps(self, s, id); }
    assert GoodTicket(self, s, id);
    var status := Landing(s.settlements, s.parlays[id].legs).value;
    ResolveFollows(self, s, id);
    ResolveEventsPay(s, id, status, a);
  }

  /** A claim pays the whole pot to its sender, the holder, and moves nobody else's USDC. */
  lemma ClaimPays(self: Address, s: State, sender: Address, id: nat, a: Address)
    requires Inv(self, s) && ClaimTx(self, s, sender, id).Done? && a != self
    ensures id in s.parlays && id in s.owners && s.owners[id] == sender
    ensures Balance(ClaimTx(self, s, sender, id).value.usdc, a)
      == Balance(s.usdc, a) + if a == sender then s.parlays[id].maxPayout else 0
  {
    ClaimKeeps(self, s, sender, id);
    var mid, first := ClaimSteps(self, s, sender, id);
    ClaimAdds(self, s, mid, ClaimTx(self, s, sender, id).value, first, id, a);
  }

  /** A claim that first resolves pays what the claim pays. */
  lemma ClaimAdds(self: Address, s: State, mid: State, s': State, first: Effect, id: nat, a: Address)
    requires a != self && Follows(self, s, mid, first) && Follows(self, mid, s', Claiming(id))
    requires first == Resolving(id, Won) || (first == Quiet && mid == s)
    ensures id in s.parlays && id in s.owners
    ensures Balance(s'.usdc, a) == Balance(s.usdc, a) + if a == s.owners[id] then s.parlays[id].maxPayout else 0
  {
    ClaimEventsPay(mid, id, a);
    if first.Resolving? {
      ResolveEventsPay(s, id, Won, a);
    }
  }

  // ------------------------------------------------------------- whole runs

  /** What account `a` puts into the pot of a ticket that this step mints. */
  function StakedIn(self: Address, s: State, step: Step, a: Address): nat {
    if step.DoMint? && Transaction(self, s, step).Done? then
      (if a == step.sender then step.quote.premium else 0)
        + (if a == s.writer then Monus(step.quote.maxPayout, step.quote.premium) else 0)
    else 0
  }

  /** What account `a` gains in USDC transfers that are not the vault's. */
  function MovedOutside(self: Address, s: State, step: Step, a: Address): int {
    if step.DoUsdcMove? && Transaction(self, s, step).Done? then
      (if a == step.to then step.amount else 0) - (if a == step.from then step.amount else 0)
    else 0
  }

  function StakedOver(self: Address, s: State, steps: seq<Step>, a: Address): nat
    decreases |steps|
  {
    if steps == [] then 0 else
    StakedIn(self, s, steps[0], a) + StakedOver(self, Next(self, s, steps[0]), steps[1..], a)
  }

  function MovedOver(self: Address, s: State, steps: seq<Step>, a: Address): int
    decreases |steps|
  {
    if steps == [] then 0 else
    MovedOutside(self, s, steps[0], a) + MovedOver(self, Next(self, s, steps[0]), steps[1..], a)
  }

  /** What an effect does to the balance of `a` is in the log, unless it is a mint. */
  lemma EffectIsLogged(self: Address, s: State, s': State, effect: Effect, a: Address)
    requires Follows(self, s, s', effect) && (effect.Resolving? || effect.Claiming?) && a != self
    ensures Balance(s'.usdc, a) - Balance(s.usdc, a) == PaidTo(s'.log, a) - PaidTo(s.log, a)
  {
    PaidAdds(s.log, if effect.Resolving? then ResolveEvents(s, effect.id, effect.status) else ClaimEvents(s, effect.id), a);
  }

  lemma MintIsStaked(self: Address, s: State, step: Step, a: Address)
    requires Inv(self, s) && step.DoMint? && Transaction(self, s, step).Done? && a != self
    ensures var s' := Next(self, s, step);
      Balance(s'.usdc, a) == Balance(s.usdc, a) - StakedIn(self, s, step, a) && PaidTo(s'.log, a) == PaidTo(s.log, a)
  {
    var events := MintEvents(s.nextId + 1, step.sender, step.quote);
    MintEffect(self, s, step.sender, step.quote, step.signed, step.now);
    assert Staked(self, s, Next(self, s, step), step.sender, step.quote, a);
    PaidByTwo(events[0], events[1], a);
    PaidAdds(s.log, events, a);
  }

  lemma OtherStepsMove(self: Address, s: State, step: Step, a: Address)
    requires !step.DoMint? && !step.DoResolve? && !step.DoClaim? && a != self
    ensures var s' := Next(self, s, step);
      && Balance(s'.usdc, a) == Balance(s.usdc, a) + MovedOutside(self, s, step, a)
      && PaidTo(s'.log, a) == PaidTo(s.log, a)
  {
    if step.DoTransfer? {
      PaidOneMore(s.log, Transferred(step.from, step.to, step.id), a);
    }
  }

  lemma PayoutIsLogged(self: Address, s: State, step: Step, a: Address)
    requires Inv(self, s) && (step.DoResolve? || step.DoClaim?) && Transaction(self, s, step).Done? && a != self
    ensures var s' := Next(self, s, step);
      Balance(s'.usdc, a) - Balance(s.usdc, a) == PaidTo(s'.log, a) - PaidTo(s.log, a)
  {
    if step.DoResolve? {
      ResolveIsLogged(self, s, step.id, a);
    } else {
      ClaimIsLogged(self, s, step.sender, step.id, a);
    }
  }

  lemma ResolveIsLogged(self: Address, s: State, id: nat, a: Address)
    requires Inv(self, s) && ResolveTx(self, s, id).Done? && a != self
    ensures var s' := ResolveTx(self, s, id).value;
      Balance(s'.usdc, a) - Balance(s.usdc, a) == PaidTo(s'.log, a) - PaidTo(s.log, a)
  {
    OnlyResolvable(self, s, id);
    ResolveFollows(self, s, id);
    EffectIsLogged(self, s, ResolveTx(self, s, id).value, Resolving(id, Landing(s.settlements, s.parlays[id].legs).value), a);
  }

  lemma ClaimIsLogged(self: Address, s: State, sender: Address, id: nat, a: Address)
    requires Inv(self, s) && ClaimTx(self, s, sender, id).Done? && a != self
    ensures var s' := ClaimTx(self, s, sender, id).value;
      Balance(s'.usdc, a) - Balance(s.usdc, a) == PaidTo(s'.log, a) - PaidTo(s.log, a)
  {
    var mid, first := ClaimSteps(self, s, sender, id);
    if first.Resolving? {
      EffectIsLogged(self, s, mid, first, a);
    }
    EffectIsLogged(self, mid, ClaimTx(self, s, sender, id).value, Claiming(id), a);
  }

  /** One step moves the balance of `a` by what the log says the vault paid it, less its share of
      a pot, plus what it moved outside. */
  lemma StepIsLogged(self: Address, s: State, step: Step, a: Address)
    requires Inv(self, s) && a != self
    ensures var s' := Next(self, s, step);
      Balance(s'.usdc, a) - Balance(s.usdc, a)
        == PaidTo(s'.log, a) - PaidTo(s.log, a) - StakedIn(self, s, step, a) + MovedOutside(self, s, step, a)
  {
    if Transaction(self, s, step).Revert? {
      assert Next(self, s, step) == s;
    } else if step.DoMint? {
      MintIsStaked(self, s, step, a);
    } else if step.DoResolve? || step.DoClaim? {
      PayoutIsLogged(self, s, step, a);
    } else {
      OtherStepsMove(self, s, step, a);
    }
  }

  /** Over any run the log is the truth about money: an account ends with what it had, plus every
      payment logged to it, less its shares of the pots it entered, plus what it moved outside. */
  lemma {:induction false} LogIsTheLedger(self: Address, s: State, steps: seq<Step>, a: Address)
    requires Inv(self, s) && a != self
    ensures var end := Run(self, s, steps);
      Balance(end.usdc, a) - Balance(s.usdc, a)
        == PaidTo(end.log, a) - PaidTo(s.log, a) - StakedOver(self, s, steps, a) + MovedOver(self, s, steps, a)
    decreases |steps|
  {
    if steps != [] {
      StepIsLogged(self, s, steps[0], a);
      var _, _, _ := StepFollows(self, s, steps[0]);
      LogIsTheLedger(self, Next(self, s, steps[0]), steps[1..], a);
    }
  }

  /** Who holds ticket `id` after an effect. */
  lemma EffectHolds(self: Address, s: State, s': State, effect: Effect, id: nat)
    requires Follows(self, s, s', effect) && id in s.owners && id in s.parlays && !effect.Moving?
    ensures effect != Claiming(id) && effect != Resolving(id, Void) ==> id in s'.owners && s'.owners[id] == s.owners[id]
    ensures effect == Claiming(id) || effect == Resolving(id, Void) ==> id !in s'.owners
  {
  }

  lemma ClaimHolds(self: Address, s: State, sender: Address, j: nat, id: nat)
    requires Inv(self, s) && id in s.owners && ClaimTx(self, s, sender, j).Done?
    ensures var s' := ClaimTx(self, s, sender, j).value;
      if id == j then sender == s.owners[id] && id !in s'.owners
      else id in s'.owners && s'.owners[id] == s.owners[id]
  {
    ClaimKeeps(self, s, sender, j);
    var mid, first := ClaimSteps(self, s, sender, j);
    EffectHolds(self, s, mid, first, id);
    EffectHolds(self, mid, ClaimTx(self, s, sender, j).value, Claiming(j), id);
  }

  lemma ResolveHolds(self: Address, s: State, j: nat, id: nat)
    requires Inv(self, s) && id in s.owners && ResolveTx(self, s, j).Done?
    ensures var s' := ResolveTx(self, s, j).value;
      if id == j && id in s.parlays && Landing(s.settlements, s.parlays[id].legs) == Some(Void) then id !in s'.owners
      else id in s'.owners && s'.owners[id] == s.owners[id]
  {
    OnlyResolvable(self, s, j);
    ResolveFollows(self, s, j);
    EffectHolds(self, s, ResolveTx(self, s, j).value, Resolving(j, Landing(s.settlements, s.parlays[j].legs).value), id);
  }

  lemma MintHolds(self: Address, s: State, step: Step, id: nat)
    requires Inv(self, s) && id in s.owners && step.DoMint? && Transaction(self, s, step).Done?
    ensures var s' := Next(self, s, step); id in s'.owners && s'.owners[id] == s.owners[id]
  {
    MintFollows(self, s, step.sender, step.quote, step.signed, step.now);
    EffectHolds(self, s, Next(self, s, step), Minting(step.sender, step.quote), id);
  }

  /** A ticket leaves its holder in three ways only: the holder sends it on, the holder claims it,
      or it is resolved void. */
  lemma HoldersKeepTheirTickets(self: Address, s: State, step: Step, id: nat)
    requires Inv(self, s) && id in s.owners
    ensures id in s.parlays
    ensures var s' := Next(self, s, step); var holder := s.owners[id];
      || (id in s'.owners && s'.owners[id] == holder)
      || (step.DoTransfer? && step.id == id && step.from == holder && id in s'.owners && s'.owners[id] == step.to)
      || (step == DoClaim(holder, id) && id !in s'.owners)
      || (step == DoResolve(id) && id !in s'.owners && Landing(s.settlements, s.parlays[id].legs) == Some(Void))
  {
    if Transaction(self, s, step).Done? {
      match step
      case DoMint(_, _, _, _) => MintHolds(self, s, step, id);
      case DoResolve(j) => ResolveHolds(self, s, j, id);
      case DoClaim(sender, j) => ClaimHolds(self, s, sender, j, id);
      case _ =>
    }
  }
}
