/** What every ParlayVault transaction keeps: tickets are well formed, the escrow is covered, and
    the USDC log says each ticket was paid exactly its due. */
module ParlayInvariants {
  import opened LegOutcomes
  import opened ParlayState
  import opened Prelude
  import opened Sums

  // -------------------------------------------------------- reading the log

  /** The USDC transfers made for a ticket, in order. */
  function Payments(log: seq<Event>, id: nat): seq<(Address, nat)> {
    if log == [] then [] else
    var last := log[|log| - 1];
    Payments(log[..|log| - 1], id)
      + if last.PaidOut? && last.id == id then [(last.to, last.amount)] else []
  }

  /** Who held a ticket when it was last burned. */
  function BurnHolder(log: seq<Event>, id: nat): Option<Address> {
    if log == [] then None else
    var last := log[|log| - 1];
    if last.Transferred? && last.to == ZERO_ADDRESS && last.id == id then Some(last.from)
    else BurnHolder(log[..|log| - 1], id)
  }

  /** Every (wallet, ticket) such that the wallet has held the ticket. */
  function Holders(log: seq<Event>): set<(Address, nat)> {
    if log == [] then {} else
    var last := log[|log| - 1];
    Holders(log[..|log| - 1])
      + if last.Transferred? && last.to != ZERO_ADDRESS then {(last.to, last.id)} else {}
  }

  lemma Appended(log: seq<Event>, e: Event, id: nat)
    ensures Payments(log + [e], id)
      == Payments(log, id) + if e.PaidOut? && e.id == id then [(e.to, e.amount)] else []
    ensures BurnHolder(log + [e], id)
      == if e.Transferred? && e.to == ZERO_ADDRESS && e.id == id then Some(e.from) else BurnHolder(log, id)
    ensures Holders(log + [e])
      == Holders(log) + if e.Transferred? && e.to != ZERO_ADDRESS then {(e.to, e.id)} else {}
  {
    assert (log + [e])[..|log + [e]| - 1] == log;
  }

  /** What the log says account `a` was paid, over all tickets. */
  function PaidTo(log: seq<Event>, a: Address): nat {
    if log == [] then 0 else
    var last := log[|log| - 1];
    PaidTo(log[..|log| - 1], a) + if last.PaidOut? && last.to == a then last.amount else 0
  }

  /** What the log says the vault paid, to anyone. */
  function PaidInAll(log: seq<Event>): nat {
    if log == [] then 0 else
    var last := log[|log| - 1];
    PaidInAll(log[..|log| - 1]) + if last.PaidOut? then last.amount else 0
  }

  lemma PaidOneMore(log: seq<Event>, e: Event, a: Address)
    ensures PaidTo(log + [e], a) == PaidTo(log, a) + if e.PaidOut? && e.to == a then e.amount else 0
    ensures PaidInAll(log + [e]) == PaidInAll(log) + if e.PaidOut? then e.amount else 0
  {
    assert (log + [e])[..|log + [e]| - 1] == log;
  }

  lemma {:induction false} PaidAdds(log: seq<Event>, events: seq<Event>, a: Address)
    ensures PaidTo(log + events, a) == PaidTo(log, a) + PaidTo(events, a)
    ensures PaidInAll(log + events) == PaidInAll(log) + PaidInAll(events)
    decreases |events|
  {
    if events == [] {
      assert log + events == log;
    } else {
      var init, last := events[..|events| - 1], events[|events| - 1];
      assert events == init + [last] && log + events == log + init + [last];
      PaidAdds(log, init, a);
      PaidOneMore(log + init, last, a);
    }
  }

  /** Every balance moves as these events say: what they pay an account it gets, and the vault is
      who pays. */
  ghost predicate MovesAsLogged(self: Address, usdc: map<Address, nat>, usdc': map<Address, nat>, events: seq<Event>) {
    forall a :: Balance(usdc', a) + (if a == self then PaidInAll(events) else 0) == Balance(usdc, a) + PaidTo(events, a)
  }

  // ----------------------------------------------------------- the invariant

  /** Not paid out yet: open, or won and not claimed. */
  predicate Live(s: State, id: nat)
    requires id in s.parlays
  {
    s.parlays[id].status.Open? || (s.parlays[id].status.Won? && id in s.owners)
  }

  function Escrow(s: State): map<nat, nat> {
    map id | id in s.parlays :: if Live(s, id) then s.parlays[id].maxPayout else 0
  }

  /** What a ticket's payments must be: nothing while it is live; then the whole pot to the
      writer, or premium and rest split between holder and writer, or the pot to the claimer. */
  function Due(s: State, id: nat): seq<(Address, nat)>
    requires id in s.parlays
  {
    var p := s.parlays[id];
    if Live(s, id) then [] else
    if p.status.Dead? then [(p.writer, p.maxPayout)] else
    var holder := match BurnHolder(s.log, id) case Some(h) => h case None => ZERO_ADDRESS;
    if p.status.Won? then [(holder, p.maxPayout)] else
    [(holder, p.premium), (p.writer, Monus(p.maxPayout, p.premium))]
  }

  predicate GoodTicket(self: Address, s: State, id: nat)
    requires id in s.parlays
  {
    var p := s.parlays[id];
    && 1 <= id <= s.nextId
    && p.premium < p.maxPayout && 1 <= |p.legs| <= MAX_LEGS
    && p.writer != ZERO_ADDRESS && p.writer != self
    && (p.status.Open? || p.status.Dead? ==> id in s.owners)
    && (p.status.Void? ==> id !in s.owners)
    && (id in s.owners ==> s.owners[id] != ZERO_ADDRESS && BurnHolder(s.log, id).None?)
    && (id !in s.owners ==> BurnHolder(s.log, id).Some?)
    && Payments(s.log, id) == Due(s, id)
  }

  ghost predicate Tickets(self: Address, s: State) {
    && (forall id :: id in s.parlays ==> GoodTicket(self, s, id))
    && (forall id :: id in s.owners ==> id in s.parlays)
    && (forall id :: id !in s.parlays ==> Payments(s.log, id) == [] && BurnHolder(s.log, id).None?)
  }

  ghost predicate Funded(self: Address, s: State) {
    && Balance(s.allowance, self) == 0
    && Sum(Escrow(s), Units()) <= Balance(s.usdc, self)
  }

  ghost predicate Inv(self: Address, s: State) {
    self != ZERO_ADDRESS && Tickets(self, s) && Funded(self, s)
  }

  // ------------------------------------------------ one ticket at a time

  /** Events about one ticket leave what the log says about the others alone. */
  lemma {:induction false} OtherTickets(log: seq<Event>, events: seq<Event>, id: nat, j: nat)
    requires j != id && forall e <- events :: e.id == id
    ensures Payments(log + events, j) == Payments(log, j)
    ensures BurnHolder(log + events, j) == BurnHolder(log, j)
    decreases |events|
  {
    if events == [] {
      assert log + events == log;
    } else {
      var n := |events| - 1;
      assert log + events == (log + events[..n]) + [events[n]];
      Appended(log + events[..n], events[n], j);
      OtherTickets(log, events[..n], id, j);
    }
  }

  /** `s'` is `s` with ticket `id` changed: its entry, its ownership, some USDC, some events. */
  ghost predicate TicketChanged(s: State, s': State, id: nat, events: seq<Event>) {
    && id in s'.parlays && s'.parlays == s.parlays[id := s'.parlays[id]]
    && s'.owners == (if id in s'.owners then s.owners[id := s'.owners[id]] else s.owners - {id})
    && s'.nextId >= s.nextId
    && s'.log == s.log + events && (forall e <- events :: e.id == id)
  }

  lemma ChangeKeepsTickets(self: Address, s: State, s': State, id: nat, events: seq<Event>)
    requires Tickets(self, s) && TicketChanged(s, s', id, events) && GoodTicket(self, s', id)
    ensures Tickets(self, s')
  {
    forall j: nat | j != id
      ensures Payments(s'.log, j) == Payments(s.log, j) && BurnHolder(s'.log, j) == BurnHolder(s.log, j)
    {
      OtherTickets(s.log, events, id, j);
    }
    forall j | j in s'.parlays ensures GoodTicket(self, s', j) {
      if j != id {
        assert GoodTicket(self, s, j);
        assert Live(s', j) == Live(s, j);
      }
    }
  }

  function EscrowFor(s: State, id: nat): nat {
    if id in s.parlays && Live(s, id) then s.parlays[id].maxPayout else 0
  }

  /** The total escrow changes by what ticket `id` adds or stops needing. */
  lemma EscrowChange(s: State, s': State, id: nat, events: seq<Event>)
    requires TicketChanged(s, s', id, events)
    ensures Sum(Escrow(s'), Units()) + EscrowFor(s, id) == Sum(Escrow(s), Units()) + EscrowFor(s', id)
  {
    assert Escrow(s') == Escrow(s)[id := EscrowFor(s', id)];
    SumPut<nat, nat>(Escrow(s), Units(), id, EscrowFor(s', id));
    SumRemove<nat, nat>(Escrow(s), Units(), id);
  }

  lemma ChangeKeeps(self: Address, s: State, s': State, id: nat, events: seq<Event>)
    requires Inv(self, s) && TicketChanged(s, s', id, events) && GoodTicket(self, s', id)
    requires Balance(s'.allowance, self) == 0
    requires Balance(s.usdc, self) + EscrowFor(s', id) <= Balance(s'.usdc, self) + EscrowFor(s, id)
    ensures Inv(self, s')
  {
    ChangeKeepsTickets(self, s, s', id, events);
    EscrowChange(s, s', id, events);
  }

  /** The escrow of one ticket never exceeds what the contract holds. */
  lemma EscrowOfOne(self: Address, s: State, id: nat)
    requires Funded(self, s)
    ensures EscrowFor(s, id) <= Balance(s.usdc, self)
  {
    if id in s.parlays {
      SumSplit<nat, nat>(Escrow(s), Units(), id);
    }
  }

  // --------------------------------------------------------- transactions

  /** The state after deciding ticket `id`: its status, whether it is burned, the USDC, the log. */
  function After(s: State, id: nat, status: Status, burned: bool, usdc: map<Address, nat>, events: seq<Event>): State
    requires id in s.parlays
  {
    s.(parlays := s.parlays[id := s.parlays[id].(status := status)],
       owners := if burned then s.owners - {id} else s.owners,
       usdc := usdc, log := s.log + events)
  }

  /** What resolving an open ticket emits. */
  function ResolveEvents(s: State, id: nat, status: Status): seq<Event>
    requires id in s.parlays && (status.Void? ==> id in s.owners)
  {
    var p := s.parlays[id];
    match status
    case Dead => [ResolvedTo(id, Dead), PaidOut(id, p.writer, p.maxPayout)]
    case Void => [ResolvedTo(id, Void), Transferred(s.owners[id], ZERO_ADDRESS, id),
                  PaidOut(id, s.owners[id], p.premium), PaidOut(id, p.writer, Monus(p.maxPayout, p.premium))]
    case _ => [ResolvedTo(id, status)]
  }

  /** What claiming a won ticket emits. */
  function ClaimEvents(s: State, id: nat): seq<Event>
    requires id in s.parlays && id in s.owners
  {
    [Transferred(s.owners[id], ZERO_ADDRESS, id), PaidOut(id, s.owners[id], s.parlays[id].maxPayout)]
  }

  lemma Paying(self: Address, s: State, id: nat, to: Address, amount: nat)
    requires to != ZERO_ADDRESS && amount <= Balance(s.usdc, self)
    ensures var tx := PayUsdc(self, s, id, to, amount);
      && tx.Done? && tx.value == s.(usdc := tx.value.usdc, log := s.log + [PaidOut(id, to, amount)])
      && Balance(tx.value.usdc, self) >= Balance(s.usdc, self) - amount
      && Total(tx.value.usdc) == Total(s.usdc)
      && MovesAsLogged(self, s.usdc, tx.value.usdc, [PaidOut(id, to, amount)])
  {
    var usdc' := PayUsdc(self, s, id, to, amount).value.usdc;
    forall a ensures Balance(usdc', a) + (if a == self then PaidInAll([PaidOut(id, to, amount)]) else 0)
                     == Balance(s.usdc, a) + PaidTo([PaidOut(id, to, amount)], a)
    {
      PaidOneMore([], PaidOut(id, to, amount), a);
      assert [] + [PaidOut(id, to, amount)] == [PaidOut(id, to, amount)];
    }
  }

  /** Moves after moves are the moves of both. */
  lemma MovesAdd(self: Address, a: map<Address, nat>, b: map<Address, nat>, c: map<Address, nat>, first: seq<Event>, rest: seq<Event>)
    requires MovesAsLogged(self, a, b, first) && MovesAsLogged(self, b, c, rest)
    ensures MovesAsLogged(self, a, c, first + rest)
  {
    forall x ensures Balance(c, x) + (if x == self then PaidInAll(first + rest) else 0) == Balance(a, x) + PaidTo(first + rest, x) {
      PaidAdds(first, rest, x);
      assert Balance(b, x) + (if x == self then PaidInAll(first) else 0) == Balance(a, x) + PaidTo(first, x);
    }
  }

  /** Events that pay nobody move nothing. */
  lemma MovesNothing(self: Address, usdc: map<Address, nat>, e: Event)
    requires !e.PaidOut?
    ensures MovesAsLogged(self, usdc, usdc, [e])
  {
    forall a ensures PaidInAll([e]) == 0 && PaidTo([e], a) == 0 {
      PaidOneMore([], e, a);
      assert [] + [e] == [e];
    }
  }

  /** The whole effect of a resolution, once its ticket is in order and its pot is there. */
  lemma ResolveEffect(self: Address, s: State, id: nat, status: Status)
    requires id in s.parlays && s.parlays[id].status.Open?
    requires Landing(s.settlements, s.parlays[id].legs) == Some(status)
    requires s.parlays[id].premium < s.parlays[id].maxPayout <= Balance(s.usdc, self)
    requires s.parlays[id].writer != ZERO_ADDRESS && id in s.owners && s.owners[id] != ZERO_ADDRESS
    ensures var tx := ResolveTx(self, s, id);
      && tx.Done? && tx.value == After(s, id, status, status.Void?, tx.value.usdc, ResolveEvents(s, id, status))
      && Balance(tx.value.usdc, self) + (if status.Won? then 0 else s.parlays[id].maxPayout) >= Balance(s.usdc, self)
      && Total(tx.value.usdc) == Total(s.usdc)
      && MovesAsLogged(self, s.usdc, tx.value.usdc, ResolveEvents(s, id, status))
  {
    if status.Dead? {
      DeadEffect(self, s, id);
    } else if status.Void? {
      VoidEffect(self, s, id);
    } else {
      MovesNothing(self, s.usdc, ResolvedTo(id, status));
    }
  }

  lemma DeadEffect(self: Address, s: State, id: nat)
    requires id in s.parlays && s.parlays[id].status.Open?
    requires Landing(s.settlements, s.parlays[id].legs) == Some(Dead)
    requires 0 < s.parlays[id].maxPayout <= Balance(s.usdc, self) && s.parlays[id].writer != ZERO_ADDRESS
    ensures var tx := ResolveTx(self, s, id);
      && tx.Done? && tx.value == After(s, id, Dead, false, tx.value.usdc, ResolveEvents(s, id, Dead))
      && Balance(tx.value.usdc, self) + s.parlays[id].maxPayout >= Balance(s.usdc, self)
      && Total(tx.value.usdc) == Total(s.usdc)
      && MovesAsLogged(self, s.usdc, tx.value.usdc, ResolveEvents(s, id, Dead))
  {
    var p := s.parlays[id];
    var decided := WithStatus(s, id, Dead);
    Paying(self, decided, id, p.writer, p.maxPayout);
    assert decided.log + [PaidOut(id, p.writer, p.maxPayout)] == s.log + ResolveEvents(s, id, Dead);
    MovesNothing(self, s.usdc, ResolvedTo(id, Dead));
    MovesAdd(self, s.usdc, s.usdc, ResolveTx(self, s, id).value.usdc, [ResolvedTo(id, Dead)], [PaidOut(id, p.writer, p.maxPayout)]);
    assert [ResolvedTo(id, Dead)] + [PaidOut(id, p.writer, p.maxPayout)] == ResolveEvents(s, id, Dead);
  }

  lemma VoidEffect(self: Address, s: State, id: nat)
    requires id in s.parlays && s.parlays[id].status.Open?
    requires Landing(s.settlements, s.parlays[id].legs) == Some(Void)
    requires s.parlays[id].premium < s.parlays[id].maxPayout <= Balance(s.usdc, self)
    requires s.parlays[id].writer != ZERO_ADDRESS && id in s.owners && s.owners[id] != ZERO_ADDRESS
    ensures var tx := ResolveTx(self, s, id);
      && tx.Done? && tx.value == After(s, id, Void, true, tx.value.usdc, ResolveEvents(s, id, Void))
      && Balance(tx.value.usdc, self) + s.parlays[id].maxPayout >= Balance(s.usdc, self)
      && Total(tx.value.usdc) == Total(s.usdc)
      && MovesAsLogged(self, s.usdc, tx.value.usdc, ResolveEvents(s, id, Void))
  {
    var p, holder := s.parlays[id], s.owners[id];
    var rest := p.maxPayout - p.premium;
    var burned := Burn(WithStatus(s, id, Void), id);
    Paying(self, burned, id, holder, p.premium);
    var refunded := PayUsdc(self, burned, id, holder, p.premium).value;
    Paying(self, refunded, id, p.writer, rest);
    var usdc' := ResolveTx(self, s, id).value.usdc;
    assert refunded.log + [PaidOut(id, p.writer, rest)] == s.log + ResolveEvents(s, id, Void);
    MovesNothing(self, s.usdc, ResolvedTo(id, Void));
    MovesNothing(self, s.usdc, Transferred(holder, ZERO_ADDRESS, id));
    MovesAdd(self, s.usdc, s.usdc, s.usdc, [ResolvedTo(id, Void)], [Transferred(holder, ZERO_ADDRESS, id)]);
    MovesAdd(self, s.usdc, refunded.usdc, usdc', [PaidOut(id, holder, p.premium)], [PaidOut(id, p.writer, rest)]);
    MovesAdd(self, s.usdc, s.usdc, usdc', [ResolvedTo(id, Void)] + [Transferred(holder, ZERO_ADDRESS, id)],
             [PaidOut(id, holder, p.premium)] + [PaidOut(id, p.writer, rest)]);
    assert [ResolvedTo(id, Void)] + [Transferred(holder, ZERO_ADDRESS, id)]
           + ([PaidOut(id, holder, p.premium)] + [PaidOut(id, p.writer, rest)]) == ResolveEvents(s, id, Void);
  }

  lemma ClaimEffect(self: Address, s: State, id: nat)
    requires id in s.parlays && s.parlays[id].status.Won?
    requires s.parlays[id].maxPayout <= Balance(s.usdc, self)
    requires id in s.owners && s.owners[id] != ZERO_ADDRESS
    ensures var tx := ClaimTx(self, s, s.owners[id], id);
      && tx.Done? && tx.value == After(s, id, Won, true, tx.value.usdc, ClaimEvents(s, id))
      && Balance(tx.value.usdc, self) + s.parlays[id].maxPayout >= Balance(s.usdc, self)
      && Total(tx.value.usdc) == Total(s.usdc)
      && MovesAsLogged(self, s.usdc, tx.value.usdc, ClaimEvents(s, id))
  {
    var owner, p := s.owners[id], s.parlays[id];
    var burned := Burn(s, id);
    Paying(self, burned, id, owner, p.maxPayout);
    assert burned.log + [PaidOut(id, owner, p.maxPayout)] == s.log + ClaimEvents(s, id);
    assert s.parlays[id := p.(status := Won)] == s.parlays;
    MovesNothing(self, s.usdc, Transferred(owner, ZERO_ADDRESS, id));
    MovesAdd(self, s.usdc, s.usdc, ClaimTx(self, s, owner, id).value.usdc,
             [Transferred(owner, ZERO_ADDRESS, id)], [PaidOut(id, owner, p.maxPayout)]);
    assert [Transferred(owner, ZERO_ADDRESS, id)] + [PaidOut(id, owner, p.maxPayout)] == ClaimEvents(s, id);
  }

  lemma DeadLog(log: seq<Event>, id: nat, writer: Address, pot: nat)
    ensures var after := log + [ResolvedTo(id, Dead), PaidOut(id, writer, pot)];
      Payments(after, id) == Payments(log, id) + [(writer, pot)] && BurnHolder(after, id) == BurnHolder(log, id)
  {
    var l1 := log + [ResolvedTo(id, Dead)];
    Appended(log, ResolvedTo(id, Dead), id);
    Appended(l1, PaidOut(id, writer, pot), id);
    assert log + [ResolvedTo(id, Dead), PaidOut(id, writer, pot)] == l1 + [PaidOut(id, writer, pot)];
  }

  lemma VoidLog(log: seq<Event>, id: nat, holder: Address, premium: nat, writer: Address, rest: nat)
    requires holder != ZERO_ADDRESS
    ensures var after := log + [ResolvedTo(id, Void), Transferred(holder, ZERO_ADDRESS, id),
                                PaidOut(id, holder, premium), PaidOut(id, writer, rest)];
      && Payments(after, id) == Payments(log, id) + [(holder, premium), (writer, rest)]
      && BurnHolder(after, id) == Some(holder)
  {
    var l1 := log + [ResolvedTo(id, Void)];
    var l2 := l1 + [Transferred(holder, ZERO_ADDRESS, id)];
    var l3 := l2 + [PaidOut(id, holder, premium)];
    Appended(log, ResolvedTo(id, Void), id);
    Appended(l1, Transferred(holder, ZERO_ADDRESS, id), id);
    Appended(l2, PaidOut(id, holder, premium), id);
    Appended(l3, PaidOut(id, writer, rest), id);
    assert Payments(log, id) + [(holder, premium)] + [(writer, rest)] == Payments(log, id) + [(holder, premium), (writer, rest)];
    assert log + [ResolvedTo(id, Void), Transferred(holder, ZERO_ADDRESS, id), PaidOut(id, holder, premium), PaidOut(id, writer, rest)]
           == l3 + [PaidOut(id, writer, rest)];
  }

  /** What the log says about a ticket once it is resolved. */
  lemma ResolveLog(s: State, id: nat, status: Status)
    requires id in s.parlays && !status.Open? && (status.Void? ==> id in s.owners && s.owners[id] != ZERO_ADDRESS)
    ensures var p := s.parlays[id]; var log := s.log + ResolveEvents(s, id, status);
      && Payments(log, id) == Payments(s.log, id) + (match status
           case Dead => [(p.writer, p.maxPayout)]
           case Void => [(s.owners[id], p.premium), (p.writer, Monus(p.maxPayout, p.premium))]
           case _ => [])
      && BurnHolder(log, id) == (if status.Void? then Some(s.owners[id]) else BurnHolder(s.log, id))
  {
    var p := s.parlays[id];
    if status.Dead? {
      DeadLog(s.log, id, p.writer, p.maxPayout);
    } else if status.Void? {
      VoidLog(s.log, id, s.owners[id], p.premium, p.writer, Monus(p.maxPayout, p.premium));
    } else {
      Appended(s.log, ResolvedTo(id, status), id);
    }
  }

  /** A decided ticket is in order: paid what it was due, burned if void. */
  lemma ResolvedIsGood(self: Address, s: State, id: nat, status: Status, usdc: map<Address, nat>)
    requires id in s.parlays && GoodTicket(self, s, id) && s.parlays[id].status.Open? && !status.Open?
    ensures GoodTicket(self, After(s, id, status, status.Void?, usdc, ResolveEvents(s, id, status)), id)
  {
    ResolveLog(s, id, status);
  }

  lemma ClaimedIsGood(self: Address, s: State, id: nat, usdc: map<Address, nat>)
    requires id in s.parlays && GoodTicket(self, s, id) && s.parlays[id].status.Won? && id in s.owners
    ensures GoodTicket(self, After(s, id, Won, true, usdc, ClaimEvents(s, id)), id)
  {
    var events := ClaimEvents(s, id);
    Appended(s.log, events[0], id);
    Appended(s.log + [events[0]], events[1], id);
    assert s.log + events == s.log + [events[0]] + [events[1]];
  }

  /** The effect of a resolution, the ticket it leaves, and what that frees of the escrow. */
  lemma ResolveTerms(self: Address, s: State, id: nat, status: Status)
    requires Resolvable(s, id) && Landing(s.settlements, s.parlays[id].legs) == Some(status)
    requires GoodTicket(self, s, id) && EscrowFor(s, id) <= Balance(s.usdc, self)
    ensures ResolveTx(self, s, id).Done?
    ensures var s' := ResolveTx(self, s, id).value;
      && s' == After(s, id, status, status.Void?, s'.usdc, ResolveEvents(s, id, status))
      && GoodTicket(self, s', id)
      && Balance(s.usdc, self) + EscrowFor(s', id) <= Balance(s'.usdc, self) + EscrowFor(s, id)
    ensures forall e <- ResolveEvents(s, id, status) :: e.id == id
  {
    ResolveEffect(self, s, id, status);
    ResolvedIsGood(self, s, id, status, ResolveTx(self, s, id).value.usdc);
  }

  /** An open ticket its legs decide can be resolved, and that keeps the vault in order. */
  lemma ResolveGoesThrough(self: Address, s: State, id: nat)
    requires Inv(self, s) && Resolvable(s, id)
    ensures var tx := ResolveTx(self, s, id);
      tx.Done? && Inv(self, tx.value) && ResolvedAs(s, tx.value, id, Landing(s.settlements, s.parlays[id].legs).value)
  {
    var status := Landing(s.settlements, s.parlays[id].legs).value;
    assert GoodTicket(self, s, id);
    EscrowOfOne(self, s, id);
    ResolveTerms(self, s, id, status);
    var s' := ResolveTx(self, s, id).value;
    AfterKeeps(self, s, id, status, status.Void?, s'.usdc, ResolveEvents(s, id, status));
  }

  /** Deciding one ticket keeps the vault in order if that ticket is, and its pot pays for it. */
  lemma AfterKeeps(self: Address, s: State, id: nat, status: Status, burned: bool, usdc: map<Address, nat>, events: seq<Event>)
    requires Inv(self, s) && id in s.parlays && forall e <- events :: e.id == id
    requires var s' := After(s, id, status, burned, usdc, events);
      GoodTicket(self, s', id)
      && Balance(s.usdc, self) + EscrowFor(s', id) <= Balance(usdc, self) + EscrowFor(s, id)
    ensures Inv(self, After(s, id, status, burned, usdc, events))
  {
    AfterIsAChange(s, id, status, burned, usdc, events);
    ChangeKeeps(self, s, After(s, id, status, burned, usdc, events), id, events);
  }

  lemma AfterIsAChange(s: State, id: nat, status: Status, burned: bool, usdc: map<Address, nat>, events: seq<Event>)
    requires id in s.parlays && forall e <- events :: e.id == id
    ensures TicketChanged(s, After(s, id, status, burned, usdc, events), id, events)
  {
  }

  lemma OnlyResolvable(self: Address, s: State, id: nat)
    requires ResolveTx(self, s, id).Done?
    ensures Resolvable(s, id)
  {
  }

  /** A resolution goes through exactly when the ticket is open and its legs decide it: funds
      never stop one. It lands where the legs say, and only a void ticket is burned. */
  lemma ResolveKeeps(self: Address, s: State, id: nat)
    requires Inv(self, s)
    ensures var tx := ResolveTx(self, s, id);
      && (tx.Done? <==> Resolvable(s, id))
      && (tx.Done? ==> Inv(self, tx.value))
      && (tx.Done? ==> ResolvedAs(s, tx.value, id, Landing(s.settlements, s.parlays[id].legs).value))
  {
    if ResolveTx(self, s, id).Done? {
      OnlyResolvable(self, s, id);
    }
    if Resolvable(s, id) {
      ResolveGoesThrough(self, s, id);
    }
  }

  /** Open, and its legs decide it. */
  predicate Resolvable(s: State, id: nat) {
    id in s.parlays && s.parlays[id].status.Open? && Landing(s.settlements, s.parlays[id].legs).Some?
  }

  predicate ResolvedAs(s: State, s': State, id: nat, status: Status) {
    id in s.parlays && (status.Void? ==> id in s.owners) &&
    s' == After(s, id, status, status.Void?, s'.usdc, ResolveEvents(s, id, status))
  }

  /** Who can claim what: the owner, of a ticket that is won or that its legs have won. */
  predicate Claimable(s: State, sender: Address, id: nat) {
    && id in s.parlays && id in s.owners && s.owners[id] == sender
    && (s.parlays[id].status.Won?
        || (s.parlays[id].status.Open? && Landing(s.settlements, s.parlays[id].legs) == Some(Won)))
  }

  /** The claim, as seen from `r`: the state in which the ticket is already won. */
  predicate ClaimedFrom(r: State, s': State, id: nat) {
    id in r.parlays && id in r.owners && r.parlays[id].status.Won? &&
    s' == After(r, id, Won, true, s'.usdc, ClaimEvents(r, id))
  }

  lemma ClaimWon(self: Address, s: State, id: nat)
    requires Inv(self, s) && id in s.parlays && s.parlays[id].status.Won? && id in s.owners
    ensures var tx := ClaimTx(self, s, s.owners[id], id);
      tx.Done? && Inv(self, tx.value) && ClaimedFrom(s, tx.value, id)
  {
    assert GoodTicket(self, s, id);
    EscrowOfOne(self, s, id);
    ClaimEffect(self, s, id);
    var s' := ClaimTx(self, s, s.owners[id], id).value;
    ClaimedIsGood(self, s, id, s'.usdc);
    ChangeKeeps(self, s, s', id, ClaimEvents(s, id));
  }

  /** A claim goes through exactly when the sender may claim. Funds never stop it. An open ticket
      is resolved on the way. */
  lemma ClaimKeeps(self: Address, s: State, sender: Address, id: nat)
    requires Inv(self, s)
    ensures var tx := ClaimTx(self, s, sender, id);
      && (tx.Done? <==> Claimable(s, sender, id))
      && (tx.Done? ==> Inv(self, tx.value))
      && (tx.Done? ==> ClaimedFrom(if s.parlays[id].status.Open? then Next(self, s, DoResolve(id)) else s, tx.value, id))
  {
    ResolveKeeps(self, s, id);
    if id in s.parlays && s.parlays[id].status.Open? {
      var resolved := ResolveTx(self, s, id);
      if resolved.Done? {
        ClaimAfterResolve(self, s, resolved.value, sender, id);
      }
    } else if Claimable(s, sender, id) {
      ClaimWon(self, s, id);
    }
  }

  lemma ClaimThroughResolve(self: Address, s: State, r: State, sender: Address, id: nat)
    requires id in s.parlays && s.parlays[id].status.Open? && ResolveTx(self, s, id) == Done(r) && id in r.parlays
    ensures r.parlays[id].status.Won? ==> ClaimTx(self, s, sender, id) == ClaimTx(self, r, sender, id)
    ensures !r.parlays[id].status.Won? ==> ClaimTx(self, s, sender, id).Revert?
  {
  }

  lemma ClaimAfterResolve(self: Address, s: State, r: State, sender: Address, id: nat)
    requires Inv(self, r) && id in s.parlays && s.parlays[id].status.Open? && ResolveTx(self, s, id) == Done(r)
    requires ResolvedAs(s, r, id, Landing(s.settlements, s.parlays[id].legs).value)
    ensures var tx := ClaimTx(self, s, sender, id);
      && (tx.Done? <==> Claimable(s, sender, id))
      && (tx.Done? ==> Inv(self, tx.value) && ClaimedFrom(r, tx.value, id))
  {
    ClaimThroughResolve(self, s, r, sender, id);
    if r.parlays[id].status.Won? {
      assert r.owners == s.owners;
      if id in r.owners && r.owners[id] == sender {
        ClaimWon(self, r, id);
      }
    }
  }

  /** What a mint takes of account `a`: the taker's premium, the writer's share of the pot. */
  function Stake(q: Quote, taker: Address, writer: Address, a: Address): nat {
    (if a == taker then q.premium else 0) + (if a == writer then Monus(q.maxPayout, q.premium) else 0)
  }

  /** Account `a` after a transfer into the vault of `amount` from `from`. */
  predicate Pulled(self: Address, s: State, s': State, from: Address, amount: nat, a: Address) {
    && (a != self ==> Balance(s'.usdc, a) == Balance(s.usdc, a) - if a == from then amount else 0)
    && Balance(s'.allowance, a) == Balance(s.allowance, a)
         - if a == from && Balance(s.allowance, a) != MAX_U256 then amount else 0
  }

  /** A USDC transfer in: only balances and allowances move. */
  lemma Pulling(self: Address, s: State, from: Address, amount: nat)
    requires PullUsdc(self, s, from, amount).Done? && Balance(s.allowance, self) == 0
    ensures var s' := PullUsdc(self, s, from, amount).value;
      && s' == s.(usdc := s'.usdc, allowance := s'.allowance)
      && Balance(s'.usdc, self) == Balance(s.usdc, self) + amount
      && Balance(s'.allowance, self) == 0 && Total(s'.usdc) == Total(s.usdc)
      && from != ZERO_ADDRESS && (from == self ==> amount == 0)
      && (forall a :: Pulled(self, s, s', from, amount, a))
  {
  }

  /** What a mint leaves account `a` with. Allowances are 256-bit; an unlimited one stays. */
  predicate Staked(self: Address, s: State, s': State, taker: Address, q: Quote, a: Address) {
    var stake := Stake(q, taker, s.writer, a);
    && (a != self ==> Balance(s'.usdc, a) == Balance(s.usdc, a) - stake)
    && (Balance(s.allowance, a) == MAX_U256 ==> Balance(s'.allowance, a) == MAX_U256)
    && (Balance(s.allowance, a) < MAX_U256 ==> Balance(s'.allowance, a) == Balance(s.allowance, a) - stake)
  }

  /** The pot comes in, each party's share from that party. */
  lemma Escrowing(self: Address, s: State, taker: Address, q: Quote)
    requires q.premium < q.maxPayout && Balance(s.allowance, self) == 0
    requires EscrowUsdc(self, s, taker, q.premium, Monus(q.maxPayout, q.premium)).Done?
    ensures var s' := EscrowUsdc(self, s, taker, q.premium, Monus(q.maxPayout, q.premium)).value;
      && s' == s.(usdc := s'.usdc, allowance := s'.allowance)
      && Balance(s'.usdc, self) == Balance(s.usdc, self) + q.maxPayout
      && Balance(s'.allowance, self) == 0 && Total(s'.usdc) == Total(s.usdc)
      && taker != ZERO_ADDRESS && s.writer != ZERO_ADDRESS && s.writer != self
      && (forall a :: Staked(self, s, s', taker, q, a))
  {
    var rest := q.maxPayout - q.premium;
    Pulling(self, s, taker, q.premium);
    var paid := PullUsdc(self, s, taker, q.premium).value;
    Pulling(self, paid, s.writer, rest);
    var s' := PullUsdc(self, paid, s.writer, rest).value;
    forall a ensures Staked(self, s, s', taker, q, a) {
      assert Pulled(self, s, paid, taker, q.premium, a);
      assert Pulled(self, paid, s', s.writer, rest, a);
    }
  }

  function MintEvents(id: nat, sender: Address, q: Quote): seq<Event> {
    [Transferred(ZERO_ADDRESS, sender, id), Minted(id, sender, q.quoteId, q.premium, q.maxPayout)]
  }

  /** A minted ticket: the next id, the signed terms, the writer of the moment, and exactly the
      payout it may come to put into escrow. */
  ghost predicate MintedAs(self: Address, s: State, s': State, sender: Address, q: Quote) {
    var id := s.nextId + 1;
    && s' == s.(usedQuotes := s.usedQuotes + {q.quoteId}, nextId := id,
                parlays := s.parlays[id := Parlay(q.legs, s.writer, q.premium, q.maxPayout, Open)],
                owners := s.owners[id := sender],
                usdc := s'.usdc, allowance := s'.allowance, log := s.log + MintEvents(id, sender, q))
    && q.quoteId !in s.usedQuotes && sender == q.taker && sender != ZERO_ADDRESS
    && 1 <= |q.legs| <= MAX_LEGS && q.premium < q.maxPayout
    && q.maxPayout * s.minPremiumBps <= q.premium * BPS
    && s.writer != ZERO_ADDRESS && s.writer != self
    && Balance(s'.usdc, self) == Balance(s.usdc, self) + q.maxPayout
    && Balance(s'.allowance, self) == 0
    && (forall a :: Staked(self, s, s', sender, q, a))
  }

  /** The guards of a mint that goes through. */
  lemma MintGoesThrough(self: Address, s: State, sender: Address, q: Quote, signed: bool, now: nat)
    requires MintTx(self, s, sender, q, signed, now).Done?
    ensures q.quoteId !in s.usedQuotes && sender == q.taker
    ensures 1 <= |q.legs| <= MAX_LEGS && q.premium < q.maxPayout && q.maxPayout * s.minPremiumBps <= q.premium * BPS
    ensures var escrowed := EscrowUsdc(self, s, sender, q.premium, Monus(q.maxPayout, q.premium));
      escrowed.Done? && MintTx(self, s, sender, q, signed, now) == Done(Issue(escrowed.value, sender, q))
  {
    assert MintGuards(s, sender, q, signed, now).Success?;
  }

  lemma MintEffect(self: Address, s: State, sender: Address, q: Quote, signed: bool, now: nat)
    requires MintTx(self, s, sender, q, signed, now).Done? && Balance(s.allowance, self) == 0
    ensures MintedAs(self, s, MintTx(self, s, sender, q, signed, now).value, sender, q)
  {
    MintGoesThrough(self, s, sender, q, signed, now);
    Escrowing(self, s, sender, q);
    var escrowed := EscrowUsdc(self, s, sender, q.premium, Monus(q.maxPayout, q.premium)).value;
    IssuedIsMinted(self, s, escrowed, sender, q);
  }

  lemma IssuedIsMinted(self: Address, s: State, escrowed: State, sender: Address, q: Quote)
    requires escrowed == s.(usdc := escrowed.usdc, allowance := escrowed.allowance)
    requires q.quoteId !in s.usedQuotes && sender == q.taker && sender != ZERO_ADDRESS
    requires 1 <= |q.legs| <= MAX_LEGS && q.premium < q.maxPayout && q.maxPayout * s.minPremiumBps <= q.premium * BPS
    requires s.writer != ZERO_ADDRESS && s.writer != self && Balance(escrowed.allowance, self) == 0
    requires Balance(escrowed.usdc, self) == Balance(s.usdc, self) + q.maxPayout
    requires forall a :: Staked(self, s, escrowed, sender, q, a)
    ensures MintedAs(self, s, Issue(escrowed, sender, q), sender, q)
  {
    var s' := Issue(escrowed, sender, q);
    assert s'.log == s.log + MintEvents(s.nextId + 1, sender, q);
    forall a ensures Staked(self, s, s', sender, q, a) {
      assert Staked(self, s, escrowed, sender, q, a);
    }
  }

  lemma MintedIsGood(self: Address, s: State, s': State, sender: Address, q: Quote)
    requires Tickets(self, s) && MintedAs(self, s, s', sender, q)
    ensures s.nextId + 1 !in s.parlays && GoodTicket(self, s', s.nextId + 1)
  {
    var id := s.nextId + 1;
    var events := MintEvents(id, sender, q);
    Appended(s.log, events[0], id);
    Appended(s.log + [events[0]], events[1], id);
    assert s.log + events == s.log + [events[0]] + [events[1]];
    assert forall j :: j in s.parlays ==> GoodTicket(self, s, j);
  }

  lemma MintKeeps(self: Address, s: State, sender: Address, q: Quote, signed: bool, now: nat)
    requires Inv(self, s) && MintTx(self, s, sender, q, signed, now).Done?
    ensures Inv(self, MintTx(self, s, sender, q, signed, now).value)
  {
    var s' := MintTx(self, s, sender, q, signed, now).value;
    MintEffect(self, s, sender, q, signed, now);
    MintedIsGood(self, s, s', sender, q);
    ChangeKeeps(self, s, s', s.nextId + 1, MintEvents(s.nextId + 1, sender, q));
  }

  lemma MovedIsGood(self: Address, s: State, from: Address, to: Address, id: nat)
    requires id in s.parlays && GoodTicket(self, s, id) && TransferTx(s, from, to, id).Done?
    ensures GoodTicket(self, TransferTx(s, from, to, id).value, id)
  {
    Appended(s.log, Transferred(from, to, id), id);
  }

  lemma TransferKeeps(self: Address, s: State, from: Address, to: Address, id: nat)
    requires Inv(self, s) && TransferTx(s, from, to, id).Done?
    ensures Inv(self, TransferTx(s, from, to, id).value)
  {
    MovedIsGood(self, s, from, to, id);
    ChangeKeeps(self, s, TransferTx(s, from, to, id).value, id, [Transferred(from, to, id)]);
  }

  /** Steps that leave the tickets alone. */
  lemma OtherStepKeeps(self: Address, s: State, s': State)
    requires Inv(self, s)
    requires s'.parlays == s.parlays && s'.owners == s.owners && s'.nextId == s.nextId && s'.log == s.log
    requires Balance(s'.allowance, self) == 0 && Balance(s.usdc, self) <= Balance(s'.usdc, self)
    ensures Inv(self, s')
  {
    assert Escrow(s') == Escrow(s);
    forall id | id in s'.parlays ensures GoodTicket(self, s', id) {
      assert GoodTicket(self, s, id);
    }
  }

  // ------------------------------------------- the effects a step can have

  /** Every step is one or two of these: a claim of an open ticket first resolves it. */
  datatype Effect =
    | Quiet
    | Minting(sender: Address, quote: Quote)
    | Resolving(id: nat, status: Status)
    | Claiming(id: nat)
    | Moving(from: Address, to: Address, id: nat)

  ghost predicate Follows(self: Address, s: State, s': State, effect: Effect) {
    && Extends(s.settlements, s'.settlements)
    && Total(s'.usdc) == Total(s.usdc)
    && match effect
       case Quiet =>
         s' == s.(writer := s'.writer, minPremiumBps := s'.minPremiumBps, allowedLeg := s'.allowedLeg,
                  usdc := s'.usdc, allowance := s'.allowance, settlements := s'.settlements)
       case Minting(sender, q) => MintedAs(self, s, s', sender, q) && s.nextId + 1 !in s.parlays
       case Resolving(id, status) =>
         && id in s.parlays && s.parlays[id].status.Open? && id in s.owners && s.owners[id] != ZERO_ADDRESS
         && Landing(s.settlements, s.parlays[id].legs) == Some(status) && !status.Open?
         && s' == After(s, id, status, status.Void?, s'.usdc, ResolveEvents(s, id, status))
         && MovesAsLogged(self, s.usdc, s'.usdc, ResolveEvents(s, id, status))
       case Claiming(id) =>
         && ClaimedFrom(s, s', id) && s.owners[id] != ZERO_ADDRESS
         && MovesAsLogged(self, s.usdc, s'.usdc, ClaimEvents(s, id))
       case Moving(from, to, id) =>
         && to != ZERO_ADDRESS && from != ZERO_ADDRESS && id in s.owners && s.owners[id] == from && id in s.parlays
         && s' == s.(owners := s.owners[id := to], log := s.log + [Transferred(from, to, id)])
  }

  predicate IsQuiet(step: Step) {
    !step.DoMint? && !step.DoResolve? && !step.DoClaim? && !step.DoTransfer?
  }

  lemma QuietEffect(self: Address, s: State, step: Step)
    requires IsQuiet(step) && Balance(s.allowance, self) == 0
    ensures var s' := Next(self, s, step);
      && Follows(self, s, s', Quiet)
      && Balance(s'.allowance, self) == 0 && Balance(s.usdc, self) <= Balance(s'.usdc, self)
  {
  }

  lemma QuietStep(self: Address, s: State, step: Step)
    requires Inv(self, s) && IsQuiet(step)
    ensures Follows(self, s, Next(self, s, step), Quiet) && Inv(self, Next(self, s, step))
  {
    QuietEffect(self, s, step);
    var s' := Next(self, s, step);
    OtherStepKeeps(self, s, s');
  }

  lemma ResolutionFollows(self: Address, s: State, id: nat, status: Status)
    requires Resolvable(s, id) && Landing(s.settlements, s.parlays[id].legs) == Some(status)
    requires GoodTicket(self, s, id) && EscrowFor(s, id) <= Balance(s.usdc, self)
    ensures ResolveTx(self, s, id).Done?
    ensures Follows(self, s, ResolveTx(self, s, id).value, Resolving(id, status))
  {
    ResolveEffect(self, s, id, status);
  }

  lemma ResolveFollows(self: Address, s: State, id: nat)
    requires Inv(self, s) && Resolvable(s, id)
    ensures var tx := ResolveTx(self, s, id);
      tx.Done? && Inv(self, tx.value)
      && Follows(self, s, tx.value, Resolving(id, Landing(s.settlements, s.parlays[id].legs).value))
  {
    assert GoodTicket(self, s, id);
    EscrowOfOne(self, s, id);
    ResolutionFollows(self, s, id, Landing(s.settlements, s.parlays[id].legs).value);
    ResolveKeeps(self, s, id);
  }

  lemma ClaimFollows(self: Address, s: State, id: nat)
    requires Inv(self, s) && id in s.parlays && s.parlays[id].status.Won? && id in s.owners
    ensures var tx := ClaimTx(self, s, s.owners[id], id);
      tx.Done? && Inv(self, tx.value) && Follows(self, s, tx.value, Claiming(id))
  {
    assert GoodTicket(self, s, id);
    EscrowOfOne(self, s, id);
    ClaimEffect(self, s, id);
    ClaimWon(self, s, id);
  }

  lemma MintFollows(self: Address, s: State, sender: Address, q: Quote, signed: bool, now: nat)
    requires Inv(self, s) && MintTx(self, s, sender, q, signed, now).Done?
    ensures var s' := MintTx(self, s, sender, q, signed, now).value;
      Inv(self, s') && Follows(self, s, s', Minting(sender, q))
  {
    MintEffect(self, s, sender, q, signed, now);
    MintKeeps(self, s, sender, q, signed, now);
    MintedIsGood(self, s, MintTx(self, s, sender, q, signed, now).value, sender, q);
  }

  /** Takes a step apart into its effects; every state on the way is in order. */
  lemma StepFollows(self: Address, s: State, step: Step) returns (mid: State, first: Effect, second: Effect)
    requires Inv(self, s)
    ensures Inv(self, mid) && Follows(self, s, mid, first)
    ensures Inv(self, Next(self, s, step)) && Follows(self, mid, Next(self, s, step), second)
    ensures first.Quiet? ==> mid == s
  {
    mid, first, second := s, Quiet, Quiet;
    if Transaction(self, s, step).Done? {
      match step
      case DoMint(sender, q, signed, now) =>
        MintFollows(self, s, sender, q, signed, now);
        second := Minting(sender, q);
      case DoResolve(id) =>
        ResolveKeeps(self, s, id);
        ResolveFollows(self, s, id);
        second := Resolving(id, Landing(s.settlements, s.parlays[id].legs).value);
      case DoClaim(sender, id) =>
        mid, first := ClaimSteps(self, s, sender, id);
        second := Claiming(id);
      case DoTransfer(from, to, id) =>
        assert GoodTicket(self, s, id);
        TransferKeeps(self, s, from, to, id);
        second := Moving(from, to, id);
      case _ => QuietStep(self, s, step);
    }
  }

  lemma ClaimSteps(self: Address, s: State, sender: Address, id: nat) returns (mid: State, first: Effect)
    requires Inv(self, s) && ClaimTx(self, s, sender, id).Done?
    ensures Inv(self, mid) && Follows(self, s, mid, first)
    ensures first == Resolving(id, Won) || (first == Quiet && mid == s)
    ensures Inv(self, ClaimTx(self, s, sender, id).value)
    ensures Follows(self, mid, ClaimTx(self, s, sender, id).value, Claiming(id))
  {
    ClaimKeeps(self, s, sender, id);
    if s.parlays[id].status.Won? {
      mid, first := s, Quiet;
    } else {
      ResolveFollows(self, s, id);
      mid, first := ResolveTx(self, s, id).value, Resolving(id, Won);
      ClaimThroughResolve(self, s, mid, sender, id);
    }
    ClaimFollows(self, mid, id);
  }

  lemma {:induction false} RunKeeps(self: Address, s: State, steps: seq<Step>)
    requires Inv(self, s)
    ensures Inv(self, Run(self, s, steps))
    decreases |steps|
  {
    if steps != [] {
      var _, _, _ := StepFollows(self, s, steps[0]);
      RunKeeps(self, Next(self, s, steps[0]), steps[1..]);
    }
  }

  lemma FreshInv(self: Address, s: State)
    requires Fresh(self, s)
    ensures Inv(self, s)
  {
    assert Escrow(s) == map[];
  }
}
