/** The subgraph's event handlers, and the proof that replaying any run's log rebuilds what the
    contract holds. */
module SubgraphIndex {
  import opened LegOutcomes
  import opened ParlayInvariants
  import opened ParlayState
  import opened Prelude

  datatype Ticket = Ticket(
    number: nat, taker: Address, owner: Option<Address>, quoteId: nat, premium: U96, maxPayout: U96,
    status: nat, burned: bool, burnHolder: Option<Address>)

  /** The entity store: the deployment, the tickets by id, and who has held what. */
  datatype Index = Index(deployed: bool, tickets: map<nat, Ticket>, walletTickets: set<(Address, nat)>)

  const EMPTY: Index := Index(false, map[], {})

  function StatusCode(status: Status): nat {
    match status
    case Open => 0
    case Won => 1
    case Dead => 2
    case Void => 3
  }

  function Associate(ix: Index, wallet: Address, id: nat): Index {
    if wallet == ZERO_ADDRESS then ix else ix.(walletTickets := ix.walletTickets + {(wallet, id)})
  }

  function HandleMint(ix: Index, e: Event): Index
    requires e.Minted?
  {
    var deployed := ix.(deployed := true);
    if e.id in ix.tickets then deployed else
    Associate(
      deployed.(tickets := ix.tickets[e.id :=
        Ticket(e.id, e.taker, Some(e.taker), e.quoteId, e.premium, e.maxPayout, 0, false, None)]),
      e.taker, e.id)
  }

  function HandleTransfer(ix: Index, e: Event): Tx<Index>
    requires e.Transferred?
  {
    if e.from == ZERO_ADDRESS then Done(ix) else
    if e.id !in ix.tickets then Revert("Transfer without indexed mint") else
    var t := ix.tickets[e.id];
    var t' := if e.to == ZERO_ADDRESS
              then t.(owner := None, burned := true, burnHolder := Some(e.from))
              else t.(owner := Some(e.to));
    Done(Associate(Associate(ix, e.from, e.id), e.to, e.id).(tickets := ix.tickets[e.id := t']))
  }

  function HandleResolve(ix: Index, id: nat, status: nat): Tx<Index> {
    if id !in ix.tickets then Revert("Resolution without indexed mint") else
    if !(0 < status <= 3) then Revert("Invalid resolution status") else
    Done(ix.(tickets := ix.tickets[id := ix.tickets[id].(status := status)]))
  }

  /** Dispatch; USDC's events are another contract's and not indexed. */
  function Handle(ix: Index, e: Event): Tx<Index> {
    match e
    case Minted(_, _, _, _, _) => Done(HandleMint(ix, e))
    case Transferred(_, _, _) => HandleTransfer(ix, e)
    case ResolvedTo(id, status) => HandleResolve(ix, id, StatusCode(status))
    case PaidOut(_, _, _) => Done(ix)
  }

  /** Replaying a log from the start. A failed assertion in a handler stops indexing. */
  function Replay(log: seq<Event>): Tx<Index> {
    if log == [] then Done(EMPTY) else
    var before := Replay(log[..|log| - 1]);
    if before.Revert? then before else Handle(before.value, log[|log| - 1])
  }

  lemma ReplayOne(log: seq<Event>, e: Event)
    requires Replay(log).Done?
    ensures Replay(log + [e]) == Handle(Replay(log).value, e)
  {
    assert (log + [e])[..|log + [e]| - 1] == log;
  }

  // ------------------------------------------------------------ the handlers

  /** The store, updated by the handlers as events arrive. */
  class Store {
    var deployed: bool
    var tickets: map<nat, Ticket>
    var walletTickets: set<(Address, nat)>

    constructor ()
      ensures Value() == EMPTY
    {
      deployed, tickets, walletTickets := false, map[], {};
    }

    function Value(): Index
      reads this
    {
      Index(deployed, tickets, walletTickets)
    }

    method AssociateWallet(wallet: Address, id: nat)
      modifies this`walletTickets
      ensures Value() == Associate(old(Value()), wallet, id)
    {
      if wallet == ZERO_ADDRESS || (wallet, id) in walletTickets {
        return;
      }
      walletTickets := walletTickets + {(wallet, id)};
    }

    method OnMint(e: Event)
      requires e.Minted?
      modifies this
      ensures Value() == HandleMint(old(Value()), e)
    {
      if !deployed {
        deployed := true;
      }
      if e.id in tickets {
        return;
      }
      tickets := tickets[e.id := Ticket(e.id, e.taker, Some(e.taker), e.quoteId, e.premium, e.maxPayout, 0, false, None)];
      AssociateWallet(e.taker, e.id);
    }

    method OnTransfer(e: Event) returns (r: Receipt)
      requires e.Transferred?
      modifies this
      ensures Commits(HandleTransfer(old(Value()), e), old(Value()), Value(), r)
    {
      if e.from == ZERO_ADDRESS {
        return Success;
      }
      if e.id !in tickets {
        return Reverted("Transfer without indexed mint");
      }
      var ticket := tickets[e.id];
      AssociateWallet(e.from, e.id);
      AssociateWallet(e.to, e.id);
      if e.to == ZERO_ADDRESS {
        ticket := ticket.(owner := None, burned := true, burnHolder := Some(e.from));
      } else {
        ticket := ticket.(owner := Some(e.to));
      }
      tickets := tickets[e.id := ticket];
      return Success;
    }

    method OnResolve(id: nat, status: nat) returns (r: Receipt)
      modifies this
      ensures Commits(HandleResolve(old(Value()), id, status), old(Value()), Value(), r)
    {
      if id !in tickets {
        return Reverted("Resolution without indexed mint");
      }
      if !(0 < status <= 3) {
        return Reverted("Invalid resolution status");
      }
      tickets := tickets[id := tickets[id].(status := status)];
      return Success;
    }
  }

  // --------------------------------------------------------------- the mirror

  /** An indexed ticket says what the contract says. */
  predicate TicketMirrors(s: State, id: nat, t: Ticket)
    requires id in s.parlays
  {
    var p := s.parlays[id];
    && t.number == id && t.premium == p.premium && t.maxPayout == p.maxPayout
    && t.owner == (if id in s.owners then Some(s.owners[id]) else None)
    && t.status == (match p.status case Open => 0 case Won => 1 case Dead => 2 case Void => 3)
    && t.burned == (id !in s.owners)
    && t.burnHolder == BurnHolder(s.log, id)
    && t.taker != ZERO_ADDRESS && t.burnHolder != Some(ZERO_ADDRESS)
  }

  predicate Mirrors(s: State, ix: Index) {
    && (forall id :: id in ix.tickets ==> id in s.parlays && TicketMirrors(s, id, ix.tickets[id]))
    && (forall id :: id in s.parlays ==> id in ix.tickets)
    && ix.walletTickets == Holders(s.log)
    && (forall id :: id in s.owners ==> (s.owners[id], id) in Holders(s.log))
  }

  /** What the web accepts of an indexed ticket: its ownership, status and amounts agree. */
  predicate ValidTicket(t: Ticket) {
    && t.number >= 1 && t.taker != ZERO_ADDRESS && t.status <= 3 && t.premium < t.maxPayout
    && (if t.burned
        then t.owner.None? && t.burnHolder.Some? && t.burnHolder.value != ZERO_ADDRESS && t.status in {1, 3}
        else t.owner.Some? && t.owner.value != ZERO_ADDRESS && t.burnHolder.None? && t.status != 3)
  }

  /** The index is in step with the contract, its log replayed so far. */
  predicate InStep(s: State) {
    Replay(s.log).Done? && Mirrors(s, Replay(s.log).value)
  }

  /** A change of one ticket keeps the index in step if its entry is updated to mirror it, and
      the wallets it went to are associated. */
  lemma ChangeInStep(s: State, s': State, id: nat, events: seq<Event>, ix: Index, ix': Index)
    requires Replay(s.log) == Done(ix) && Mirrors(s, ix) && TicketChanged(s, s', id, events)
    requires Replay(s'.log) == Done(ix') && id in ix'.tickets && ix'.tickets == ix.tickets[id := ix'.tickets[id]]
    requires TicketMirrors(s', id, ix'.tickets[id])
    requires ix'.walletTickets == Holders(s'.log) && Holders(s.log) <= Holders(s'.log)
    requires id in s'.owners ==> (s'.owners[id], id) in Holders(s'.log)
    ensures InStep(s')
  {
    forall j | j in ix'.tickets && j != id ensures j in s'.parlays && TicketMirrors(s', j, ix'.tickets[j]) {
      assert TicketMirrors(s, j, ix.tickets[j]);
      OtherTickets(s.log, events, id, j);
    }
  }

  /** Replaying a burn: the ticket loses its owner, and no wallet is new. */
  lemma ReplayBurn(log: seq<Event>, ix: Index, holder: Address, id: nat)
    requires Replay(log) == Done(ix) && id in ix.tickets && holder != ZERO_ADDRESS
    requires ix.walletTickets == Holders(log) && (holder, id) in Holders(log)
    ensures var log' := log + [Transferred(holder, ZERO_ADDRESS, id)];
      && Replay(log') == Done(ix.(tickets := ix.tickets[id :=
           ix.tickets[id].(owner := None, burned := true, burnHolder := Some(holder))]))
      && Holders(log') == Holders(log) && BurnHolder(log', id) == Some(holder)
  {
    var e := Transferred(holder, ZERO_ADDRESS, id);
    ReplayOne(log, e);
    Appended(log, e, id);
    assert ix.walletTickets + {(holder, id)} == ix.walletTickets;
  }

  /** Replaying events the index does not keep. */
  lemma ReplayPaid(log: seq<Event>, ix: Index, id: nat, to: Address, amount: nat)
    requires Replay(log) == Done(ix)
    ensures var log' := log + [PaidOut(id, to, amount)];
      Replay(log') == Done(ix) && Holders(log') == Holders(log) && BurnHolder(log', id) == BurnHolder(log, id)
  {
    ReplayOne(log, PaidOut(id, to, amount));
    Appended(log, PaidOut(id, to, amount), id);
  }

  lemma ReplayResolved(log: seq<Event>, ix: Index, id: nat, status: Status)
    requires Replay(log) == Done(ix) && id in ix.tickets && !status.Open?
    ensures var log' := log + [ResolvedTo(id, status)];
      && Replay(log') == Done(ix.(tickets := ix.tickets[id := ix.tickets[id].(status := StatusCode(status))]))
      && Holders(log') == Holders(log) && BurnHolder(log', id) == BurnHolder(log, id)
  {
    ReplayOne(log, ResolvedTo(id, status));
    Appended(log, ResolvedTo(id, status), id);
  }

  lemma MintInStep(self: Address, s: State, s': State, sender: Address, q: Quote)
    requires InStep(s) && Follows(self, s, s', Minting(sender, q)) && BurnHolder(s.log, s.nextId + 1).None?
    ensures InStep(s')
  {
    var id := s.nextId + 1;
    var events := MintEvents(id, sender, q);
    assert s'.log == s.log + [events[0]] + [events[1]];
    ReplayOne(s.log, events[0]);
    ReplayOne(s.log + [events[0]], events[1]);
    Appended(s.log, events[0], id);
    Appended(s.log + [events[0]], events[1], id);
    ChangeInStep(s, s', id, events, Replay(s.log).value, Replay(s'.log).value);
  }

  lemma MoveInStep(self: Address, s: State, s': State, from: Address, to: Address, id: nat)
    requires InStep(s) && Follows(self, s, s', Moving(from, to, id))
    ensures InStep(s')
  {
    var e, ix := Transferred(from, to, id), Replay(s.log).value;
    assert TicketMirrors(s, id, ix.tickets[id]);
    ReplayOne(s.log, e);
    Appended(s.log, e, id);
    assert ix.walletTickets + {(from, id)} + {(to, id)} == ix.walletTickets + {(to, id)};
    ChangeInStep(s, s', id, [e], ix, Replay(s'.log).value);
  }

  /** A burn and two payments after it. */
  lemma ReplayRefund(log: seq<Event>, ix: Index, holder: Address, id: nat, premium: nat, writer: Address, rest: nat)
    requires Replay(log) == Done(ix) && id in ix.tickets && holder != ZERO_ADDRESS
    requires ix.walletTickets == Holders(log) && (holder, id) in Holders(log)
    ensures var after := log + [Transferred(holder, ZERO_ADDRESS, id), PaidOut(id, holder, premium), PaidOut(id, writer, rest)];
      && Replay(after) == Done(ix.(tickets := ix.tickets[id :=
           ix.tickets[id].(owner := None, burned := true, burnHolder := Some(holder))]))
      && Holders(after) == Holders(log) && BurnHolder(after, id) == Some(holder)
  {
    var l1 := log + [Transferred(holder, ZERO_ADDRESS, id)];
    ReplayBurn(log, ix, holder, id);
    var ix1 := Replay(l1).value;
    ReplayPaid(l1, ix1, id, holder, premium);
    ReplayPaid(l1 + [PaidOut(id, holder, premium)], ix1, id, writer, rest);
    assert log + [Transferred(holder, ZERO_ADDRESS, id), PaidOut(id, holder, premium), PaidOut(id, writer, rest)]
           == l1 + [PaidOut(id, holder, premium)] + [PaidOut(id, writer, rest)];
  }

  /** Replaying a resolution: the new status, and a burn if it is void. */
  lemma ReplayResolution(s: State, id: nat, status: Status, ix: Index)
    requires id in s.parlays && id in s.owners && !status.Open? && s.owners[id] != ZERO_ADDRESS
    requires Replay(s.log) == Done(ix) && id in ix.tickets
    requires ix.walletTickets == Holders(s.log) && (s.owners[id], id) in Holders(s.log)
    ensures var log := s.log + ResolveEvents(s, id, status);
      var t := ix.tickets[id].(status := StatusCode(status));
      && Replay(log) == Done(ix.(tickets := ix.tickets[id :=
           if status.Void? then t.(owner := None, burned := true, burnHolder := Some(s.owners[id])) else t]))
      && Holders(log) == Holders(s.log)
      && BurnHolder(log, id) == if status.Void? then Some(s.owners[id]) else BurnHolder(s.log, id)
  {
    var events := ResolveEvents(s, id, status);
    ReplayResolved(s.log, ix, id, status);
    var l1, ix1 := s.log + [events[0]], Replay(s.log + [events[0]]).value;
    if status.Dead? {
      ReplayPaid(l1, ix1, id, events[1].to, events[1].amount);
      assert s.log + events == l1 + [events[1]];
    } else if status.Void? {
      ReplayRefund(l1, ix1, s.owners[id], id, events[2].amount, events[3].to, events[3].amount);
      assert events[1..] == [events[1], events[2], events[3]];
      assert s.log + events == l1 + events[1..];
      var burnt := ix1.tickets[id].(owner := None, burned := true, burnHolder := Some(s.owners[id]));
      assert ix1.tickets[id := burnt] == ix.tickets[id := burnt];
    } else {
      assert s.log + events == l1;
    }
  }

  lemma ResolveInStep(self: Address, s: State, s': State, id: nat, status: Status)
    requires InStep(s) && Follows(self, s, s', Resolving(id, status))
    ensures InStep(s')
  {
    var events, ix := ResolveEvents(s, id, status), Replay(s.log).value;
    assert TicketMirrors(s, id, ix.tickets[id]);
    ReplayResolution(s, id, status, ix);
    AfterIsAChange(s, id, status, status.Void?, s'.usdc, events);
    ChangeInStep(s, s', id, events, ix, Replay(s'.log).value);
  }

  lemma ClaimInStep(self: Address, s: State, s': State, id: nat)
    requires InStep(s) && Follows(self, s, s', Claiming(id))
    ensures InStep(s')
  {
    var events, ix := ClaimEvents(s, id), Replay(s.log).value;
    assert TicketMirrors(s, id, ix.tickets[id]);
    ReplayBurn(s.log, ix, s.owners[id], id);
    ReplayPaid(s.log + [events[0]], Replay(s.log + [events[0]]).value, id, events[1].to, events[1].amount);
    assert s'.log == s.log + [events[0]] + [events[1]];
    AfterIsAChange(s, id, Won, true, s'.usdc, events);
    ChangeInStep(s, s', id, events, ix, Replay(s'.log).value);
  }

  lemma EffectInStep(self: Address, s: State, s': State, effect: Effect)
    requires Inv(self, s) && InStep(s) && Follows(self, s, s', effect)
    ensures InStep(s')
  {
    match effect
    case Quiet => assert forall id :: id in s.parlays ==> TicketMirrors(s, id, Replay(s.log).value.tickets[id]);
    case Minting(sender, q) => MintInStep(self, s, s', sender, q);
    case Resolving(id, status) => ResolveInStep(self, s, s', id, status);
    case Claiming(id) => ClaimInStep(self, s, s', id);
    case Moving(from, to, id) => MoveInStep(self, s, s', from, to, id);
  }

  lemma {:induction false} RunInStep(self: Address, s: State, steps: seq<Step>)
    requires Inv(self, s) && InStep(s)
    ensures InStep(Run(self, s, steps))
    decreases |steps|
  {
    if steps != [] {
      var mid, first, second := StepFollows(self, s, steps[0]);
      EffectInStep(self, s, mid, first);
      EffectInStep(self, mid, Next(self, s, steps[0]), second);
      RunInStep(self, Next(self, s, steps[0]), steps[1..]);
    }
  }

  /** After any run, replaying its events never fails and yields exactly the contract's tickets
      with their owner, status and burned flag, an association for exactly the wallets that ever
      held one, and tickets the web accepts. */
  lemma ReplayRebuildsTheContract(self: Address, start: State, steps: seq<Step>)
    requires Fresh(self, start)
    ensures var s := Run(self, start, steps);
      && Replay(s.log).Done?
      && var ix := Replay(s.log).value;
         && ix.tickets.Keys == s.parlays.Keys
         && (forall id :: id in s.parlays ==> TicketMirrors(s, id, ix.tickets[id]) && ValidTicket(ix.tickets[id]))
         && ix.walletTickets == Holders(s.log)
  {
    FreshInv(self, start);
    RunKeeps(self, start, steps);
    RunInStep(self, start, steps);
    var s := Run(self, start, steps);
    var ix := Replay(s.log).value;
    forall id | id in s.parlays ensures ValidTicket(ix.tickets[id]) {
      assert GoodTicket(self, s, id) && TicketMirrors(s, id, ix.tickets[id]);
    }
  }

  /** `Holders` is what it is called: a wallet is in it exactly when some transfer gave it the ticket. */
  lemma {:induction false} HoldersAreReceivers(log: seq<Event>, wallet: Address, id: nat)
    ensures (wallet, id) in Holders(log) <==>
      wallet != ZERO_ADDRESS && exists e <- log :: e.Transferred? && e.to == wallet && e.id == id
  {
    if log != [] {
      var init, last := log[..|log| - 1], log[|log| - 1];
      assert log == init + [last];
      HoldersAreReceivers(init, wallet, id);
    }
  }
}
