/** The web's view of a ticket: what it says and what it offers to the wallet looking at it. */
module PositionRow {
  import opened LegOutcomes
  import opened ParlayInvariants
  import opened ParlayState
  import opened ParlayTheorems
  import opened Prelude
  import opened SubgraphIndex

  datatype LegVerdict = Waiting | HitLeg | LostLeg | FractionalLeg | Unknown

  /** positions.ts legVerdict. The fraction is read only once settled. */
  function VerdictOf(isYes: bool, settled: bool, fractionWad: nat): LegVerdict {
    if !settled then Waiting else
    if fractionWad == (if isYes then WAD else 0) then HitLeg else
    if fractionWad == (if isYes then 0 else WAD) then LostLeg else
    FractionalLeg
  }

  datatype Label = TransferredOut | PaidToLaterOwner | Updating | LostLabel | Voidable
                 | SomeSettled(settled: nat, total: nat) | ClaimableLabel | Claimed | Voided

  datatype Action = NoAction | ClaimAction | ResolveAction

  datatype View = View(says: Label, offers: Action)

  datatype Row = Row(parlay: Parlay, burned: bool, verdicts: seq<LegVerdict>, owner: Option<Address>,
                     burnHolder: Option<Address>, dataError: bool)

  /** How many legs are no longer pending. */
  function SettledCount(verdicts: seq<LegVerdict>): (n: nat)
    ensures n <= |verdicts|
    ensures n == |verdicts| <==> Waiting !in verdicts
  {
    if verdicts == [] then 0 else (if verdicts[0].Waiting? then 0 else 1) + SettledCount(verdicts[1..])
  }

  /** positions.ts deriveRow, for a wallet that is looking. */
  function DeriveRow(row: Row, wallet: Address): View {
    if !row.burned && row.owner != Some(wallet) then View(TransferredOut, NoAction) else
    if row.burned && row.burnHolder.Some? && row.burnHolder.value != wallet then View(PaidToLaterOwner, NoAction) else
    if row.dataError || Unknown in row.verdicts then View(Updating, NoAction) else
    match row.parlay.status
    case Open =>
      if LostLeg in row.verdicts then View(LostLabel, NoAction) else
      if FractionalLeg in row.verdicts then View(Voidable, ResolveAction) else
      if SettledCount(row.verdicts) < |row.verdicts| then
        View(SomeSettled(SettledCount(row.verdicts), |row.verdicts|), NoAction) else
      if forall v <- row.verdicts :: v.HitLeg? then View(ClaimableLabel, ClaimAction) else
      View(Voidable, ResolveAction)
    case Won => if !row.burned then View(ClaimableLabel, ClaimAction) else View(Claimed, NoAction)
    case Dead => View(LostLabel, NoAction)
    case Void => View(Voided, NoAction)
  }

  function LegVerdicts(ss: Settlements, legs: seq<Leg>): seq<LegVerdict> {
    seq(|legs|, i requires 0 <= i < |legs| =>
      VerdictOf(legs[i].isYes, StateOf(ss, legs[i].vault).settled, StateOf(ss, legs[i].vault).fractionWad))
  }

  /** positions.ts loadRow: the row the chain gives for a ticket, read at one state. */
  function LoadRow(s: State, id: nat): Row
    requires id in s.parlays
  {
    var p := s.parlays[id];
    Row(p, id !in s.owners, LegVerdicts(s.settlements, p.legs),
        if id in s.owners then Some(s.owners[id]) else None, None, false)
  }

  lemma VerdictsMatchLegs(ss: Settlements, legs: seq<Leg>)
    ensures LostLeg in LegVerdicts(ss, legs) <==> AnyLost(ss, legs)
    ensures FractionalLeg in LegVerdicts(ss, legs) <==> AnyFractional(ss, legs)
    ensures Waiting !in LegVerdicts(ss, legs) <==> AllSettled(ss, legs)
    ensures Unknown !in LegVerdicts(ss, legs)
    ensures (forall v <- LegVerdicts(ss, legs) :: v.HitLeg?) <==> forall l <- legs :: Hit(ss, l)
  {
    var vs := LegVerdicts(ss, legs);
    forall i | 0 <= i < |legs|
      ensures vs[i].LostLeg? == Lost(ss, legs[i]) && vs[i].FractionalLeg? == Fractional(ss, legs[i])
      ensures vs[i].Waiting? == !Settled(ss, legs[i]) && vs[i].HitLeg? == Hit(ss, legs[i])
    {
    }
    if LostLeg in vs {
      var i :| 0 <= i < |legs| && vs[i] == LostLeg;
      assert Lost(ss, legs[i]);
    }
    if FractionalLeg in vs {
      var i :| 0 <= i < |legs| && vs[i] == FractionalLeg;
      assert Fractional(ss, legs[i]);
    }
    if Waiting in vs {
      var i :| 0 <= i < |legs| && vs[i] == Waiting;
      assert !Settled(ss, legs[i]);
    }
    forall l <- legs ensures Lost(ss, l) ==> LostLeg in vs
      ensures Fractional(ss, l) ==> FractionalLeg in vs
      ensures !Settled(ss, l) ==> Waiting in vs
    {
      var i :| 0 <= i < |legs| && legs[i] == l;
      assert vs[i] in vs;
    }
    if forall v <- vs :: v.HitLeg? {
      forall l <- legs ensures Hit(ss, l) {
        var i :| 0 <= i < |legs| && legs[i] == l;
        assert vs[i] in vs;
      }
    }
    if forall l <- legs :: Hit(ss, l) {
      forall v <- vs ensures v.HitLeg? {
        var i :| 0 <= i < |vs| && vs[i] == v;
        assert legs[i] in legs;
      }
    }
  }

  /** What a row must tell a wallet: it offers a claim exactly when that wallet's claim would go
      through; it offers a resolution exactly when the wallet holds the open ticket and resolving
      it lands Void; and it says lost exactly to the holder of a ticket that is dead, or would be. */
  predicate TellsTheTruth(self: Address, s: State, id: nat, wallet: Address, view: View)
    requires id in s.parlays
  {
    var landing := Landing(s.settlements, s.parlays[id].legs);
    var holds := id in s.owners && s.owners[id] == wallet;
    var open := s.parlays[id].status.Open?;
    && (view.offers.ClaimAction? <==> ClaimTx(self, s, wallet, id).Done?)
    && (view.offers.ResolveAction? <==> holds && open && landing == Some(Void) && ResolveTx(self, s, id).Done?)
    && (view.says.LostLabel? <==> holds && (s.parlays[id].status.Dead? || (open && landing == Some(Dead))))
  }

  lemma RowOfTicket(self: Address, s: State, id: nat, wallet: Address)
    requires id in s.parlays && GoodTicket(self, s, id)
    ensures var view := DeriveRow(LoadRow(s, id), wallet);
      var landing := Landing(s.settlements, s.parlays[id].legs);
      var holds := id in s.owners && s.owners[id] == wallet;
      && (view.offers.ClaimAction? <==> Claimable(s, wallet, id))
      && (view.offers.ResolveAction? <==> holds && s.parlays[id].status.Open? && landing == Some(Void))
      && (view.says.LostLabel? <==> holds && (s.parlays[id].status.Dead?
                                              || (s.parlays[id].status.Open? && landing == Some(Dead))))
  {
    VerdictsMatchLegs(s.settlements, s.parlays[id].legs);
    WonIffAllHit(s.settlements, s.parlays[id].legs);
  }

  /** In any state the invariant holds in, the row of a ticket read off it tells the truth. */
  lemma RowTellsItsState(self: Address, s: State, id: nat, wallet: Address)
    requires Inv(self, s) && id in s.parlays
    ensures TellsTheTruth(self, s, id, wallet, DeriveRow(LoadRow(s, id), wallet))
  {
    assert GoodTicket(self, s, id);
    ResolveKeeps(self, s, id);
    ClaimKeeps(self, s, wallet, id);
    RowOfTicket(self, s, id, wallet);
  }

  /** Whatever ran before, for every ticket and every wallet, the row read off the chain tells the
      truth. */
  lemma RowTellsTheTruth(self: Address, start: State, steps: seq<Step>, id: nat, wallet: Address)
    requires Fresh(self, start) && id in Run(self, start, steps).parlays
    ensures var s := Run(self, start, steps);
      TellsTheTruth(self, s, id, wallet, DeriveRow(LoadRow(s, id), wallet))
  {
    FreshInv(self, start);
    RunKeeps(self, start, steps);
    RowTellsItsState(self, Run(self, start, steps), id, wallet);
  }

  /** positions-index.ts: the row of an indexed ticket, with legs and outcomes read off the chain. */
  function IndexedRow(s: State, t: Ticket): Row
    requires t.number in s.parlays
  {
    var p := s.parlays[t.number];
    Row(Parlay(p.legs, p.writer, t.premium, t.maxPayout, StatusOf(t.status)), t.burned,
        LegVerdicts(s.settlements, p.legs), t.owner, t.burnHolder, false)
  }

  function StatusOf(code: nat): Status {
    if code == 0 then Open else if code == 1 then Won else if code == 2 then Dead else Void
  }

  lemma IndexedRowOfTicket(self: Address, s: State, id: nat, wallet: Address, t: Ticket)
    requires id in s.parlays && GoodTicket(self, s, id) && TicketMirrors(s, id, t)
    requires TellsTheTruth(self, s, id, wallet, DeriveRow(LoadRow(s, id), wallet))
    ensures t.number == id && TellsTheTruth(self, s, id, wallet, DeriveRow(IndexedRow(s, t), wallet))
  {
  }

  /** The tickets of one state under the settlements of a later one. */
  function UnderSettlements(s: State, later: State): State {
    s.(settlements := later.settlements)
  }

  /** The ticket and its token are the same in both. */
  predicate Untouched(s: State, later: State, id: nat)
    requires id in s.parlays
  {
    && id in later.parlays && later.parlays[id] == s.parlays[id]
    && (id in later.owners <==> id in s.owners) && (id in s.owners ==> later.owners[id] == s.owners[id])
  }

  lemma TruthOfUntouched(self: Address, s: State, later: State, id: nat, wallet: Address, view: View)
    requires Inv(self, s) && Inv(self, later) && s.settlements == later.settlements
    requires id in s.parlays && Untouched(s, later, id) && TellsTheTruth(self, s, id, wallet, view)
    ensures TellsTheTruth(self, later, id, wallet, view)
  {
    ResolveKeeps(self, s, id);
    ResolveKeeps(self, later, id);
    ClaimKeeps(self, s, wallet, id);
    ClaimKeeps(self, later, wallet, id);
  }

  lemma IndexedRowAtHead(self: Address, s: State, head: State, id: nat, wallet: Address, t: Ticket)
    requires Inv(self, s) && Inv(self, head) && id in s.parlays && TicketMirrors(s, id, t)
    requires id in head.parlays && head.parlays[id].legs == s.parlays[id].legs && head.parlays[id].writer == s.parlays[id].writer
    ensures t.number == id && TellsTheTruth(self, UnderSettlements(s, head), id, wallet, DeriveRow(IndexedRow(head, t), wallet))
    ensures Untouched(s, head, id) ==> TellsTheTruth(self, head, id, wallet, DeriveRow(IndexedRow(head, t), wallet))
  {
    var between := UnderSettlements(s, head);
    OtherStepKeeps(self, s, between);
    RowTellsItsState(self, between, id, wallet);
    assert GoodTicket(self, between, id);
    IndexedRowOfTicket(self, between, id, wallet, t);
    assert IndexedRow(head, t) == IndexedRow(between, t);
    if Untouched(s, head, id) {
      TruthOfUntouched(self, between, head, id, wallet, DeriveRow(IndexedRow(head, t), wallet));
    }
  }

  /** The web takes the ticket from the index at a snapshot, every event replayed, and the outcomes
      from the later head. The row tells the truth of the snapshot's tickets under the head's
      settlements; so if nothing happened to the ticket in between, it tells the truth at the head.
      It knows who held a burned ticket, which changes what it says, never what it offers. */
  lemma IndexedRowTellsTheTruth(self: Address, start: State, steps: seq<Step>, later: seq<Step>, id: nat, wallet: Address)
    requires Fresh(self, start) && id in Run(self, start, steps).parlays
    ensures var snapshot := Run(self, start, steps);
      var head := Run(self, snapshot, later);
      && Replay(snapshot.log).Done? && id in Replay(snapshot.log).value.tickets
      && var t := Replay(snapshot.log).value.tickets[id];
         && t.number == id && id in head.parlays
         && TellsTheTruth(self, UnderSettlements(snapshot, head), id, wallet, DeriveRow(IndexedRow(head, t), wallet))
         && (Untouched(snapshot, head, id) ==> TellsTheTruth(self, head, id, wallet, DeriveRow(IndexedRow(head, t), wallet)))
  {
    FreshInv(self, start);
    RunKeeps(self, start, steps);
    ReplayRebuildsTheContract(self, start, steps);
    var snapshot := Run(self, start, steps);
    RunKeeps(self, snapshot, later);
    StatusesAreFinal(self, snapshot, later);
    IndexedRowAtHead(self, snapshot, Run(self, snapshot, later), id, wallet, Replay(snapshot.log).value.tickets[id]);
  }

  // ------------------------------------------------------ what the row says

  /** The legs that have settled, by position. */
  function SettledLegs(ss: Settlements, legs: seq<Leg>): set<nat> {
    set i: nat | i < |legs| && legs[i].vault in ss && ss[legs[i].vault].settled
  }

  lemma {:induction false} CountOneMore(verdicts: seq<LegVerdict>, v: LegVerdict)
    ensures SettledCount(verdicts + [v]) == SettledCount(verdicts) + if v.Waiting? then 0 else 1
    decreases |verdicts|
  {
    if verdicts == [] {
      assert verdicts + [v] == [v] && [v][1..] == [];
    } else {
      assert (verdicts + [v])[1..] == verdicts[1..] + [v];
      CountOneMore(verdicts[1..], v);
    }
  }

  lemma {:induction false} CountIsOfSettledLegs(ss: Settlements, legs: seq<Leg>)
    ensures SettledCount(LegVerdicts(ss, legs)) == |SettledLegs(ss, legs)|
    decreases |legs|
  {
    if legs == [] {
      assert SettledLegs(ss, legs) == {};
    } else {
      var n := |legs| - 1;
      var init, last := legs[..n], legs[n];
      CountIsOfSettledLegs(ss, init);
      var verdict := LegVerdicts(ss, legs)[n];
      assert LegVerdicts(ss, legs) == LegVerdicts(ss, init) + [verdict];
      CountOneMore(LegVerdicts(ss, init), verdict);
      SettledOneMore(ss, init, last);
      assert legs == init + [last];
    }
  }

  lemma SettledOneMore(ss: Settlements, legs: seq<Leg>, l: Leg)
    ensures |SettledLegs(ss, legs + [l])| == |SettledLegs(ss, legs)| + if Settled(ss, l) then 1 else 0
  {
    var more := if Settled(ss, l) then {|legs|} else {};
    assert SettledLegs(ss, legs + [l]) == SettledLegs(ss, legs) + more;
  }

  /** What the row is to say to a wallet: to one that does not hold the live ticket, that it went
      elsewhere; to one known not to have held it when it was burned, that a later owner was paid;
      to any other, what the ticket's status is, or where an open ticket's legs would land it now,
      or how many of them have settled while that is open. `knownHolder` is who is known to have
      held it last. */
  predicate SaysTheTruth(s: State, id: nat, wallet: Address, knownHolder: Option<Address>, says: Label)
    requires id in s.parlays
  {
    var p := s.parlays[id];
    if id in s.owners && s.owners[id] != wallet then says == TransferredOut else
    if id !in s.owners && knownHolder.Some? && knownHolder.value != wallet then says == PaidToLaterOwner else
    match p.status
    case Won => says == if id in s.owners then ClaimableLabel else Claimed
    case Dead => says == LostLabel
    case Void => says == Voided
    case Open =>
      match Landing(s.settlements, p.legs)
      case None => says == SomeSettled(|SettledLegs(s.settlements, p.legs)|, |p.legs|)
      case Some(status) =>
        match status
        case Dead => says == LostLabel
        case Void => says == Voidable
        case _ => says == ClaimableLabel
  }

  lemma LabelOfTicket(s: State, id: nat, wallet: Address, row: Row)
    requires id in s.parlays && row == LoadRow(s, id).(burnHolder := row.burnHolder)
    ensures SaysTheTruth(s, id, wallet, row.burnHolder, DeriveRow(row, wallet).says)
  {
    var p := s.parlays[id];
    VerdictsMatchLegs(s.settlements, p.legs);
    WonIffAllHit(s.settlements, p.legs);
    CountIsOfSettledLegs(s.settlements, p.legs);
  }

  /** For every ticket and every wallet, whatever ran before, the row read off the chain says the truth,
      and so does the row of the indexed ticket under the outcomes of a later head, which also
      knows who held a burned ticket last. */
  lemma RowsSayTheTruth(self: Address, start: State, steps: seq<Step>, later: seq<Step>, id: nat, wallet: Address)
    requires Fresh(self, start) && id in Run(self, start, steps).parlays
    ensures var snapshot := Run(self, start, steps);
      var head := Run(self, snapshot, later);
      && SaysTheTruth(snapshot, id, wallet, None, DeriveRow(LoadRow(snapshot, id), wallet).says)
      && Replay(snapshot.log).Done? && id in Replay(snapshot.log).value.tickets
      && var t := Replay(snapshot.log).value.tickets[id];
         && t.number == id && id in head.parlays
         && SaysTheTruth(UnderSettlements(snapshot, head), id, wallet, BurnHolder(snapshot.log, id),
                         DeriveRow(IndexedRow(head, t), wallet).says)
  {
    IndexedRowTellsTheTruth(self, start, steps, later, id, wallet);
    var snapshot := Run(self, start, steps);
    FreshInv(self, start);
    RunKeeps(self, start, steps);
    ReplayRebuildsTheContract(self, start, steps);
    StatusesAreFinal(self, snapshot, later);
    LabelOfTicket(snapshot, id, wallet, LoadRow(snapshot, id));
    IndexedLabel(snapshot, Run(self, snapshot, later), id, wallet, Replay(snapshot.log).value.tickets[id]);
  }

  lemma IndexedLabel(s: State, head: State, id: nat, wallet: Address, t: Ticket)
    requires id in s.parlays && TicketMirrors(s, id, t) && id in head.parlays
    requires head.parlays[id].legs == s.parlays[id].legs && head.parlays[id].writer == s.parlays[id].writer
    ensures SaysTheTruth(UnderSettlements(s, head), id, wallet, BurnHolder(s.log, id), DeriveRow(IndexedRow(head, t), wallet).says)
  {
    var between := UnderSettlements(s, head);
    var row := IndexedRow(head, t);
    assert row == LoadRow(between, id).(burnHolder := row.burnHolder);
    LabelOfTicket(between, id, wallet, row);
  }
}
