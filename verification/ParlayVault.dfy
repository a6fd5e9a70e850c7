/** The ParlayVault contract as an object. Every transaction is proved to commit or revert exactly
    as ParlayState specifies. A revert puts everything the transaction wrote back. */
module ParlayVault {
  import opened LegOutcomes
  import PS = ParlayState
  import opened ParlayState
  import opened Prelude
  import opened Sums

  /** The USDC contract: balances, and allowances given to the vault. */
  class Usdc {
    const vault: Address
    var balances: map<Address, nat>
    var allowance: map<Address, nat>

    constructor (vault: Address)
      ensures this.vault == vault && balances == map[] && allowance == map[]
    {
      this.vault, balances, allowance := vault, map[], map[];
    }

    /** safeTransferFrom into the vault, by the vault. */
    method TransferFrom(from: Address, amount: nat) returns (ok: bool)
      modifies this
      ensures ok <==> from != ZERO_ADDRESS && amount <= Balance(old(allowance), from) && amount <= Balance(old(balances), from)
      ensures !ok ==> balances == old(balances) && allowance == old(allowance)
      ensures ok ==> balances == Credit(Debit(old(balances), from, amount), vault, amount)
      ensures ok && Balance(old(allowance), from) == MAX_U256 ==> allowance == old(allowance)
      ensures ok && Balance(old(allowance), from) != MAX_U256 ==> allowance == Debit(old(allowance), from, amount)
    {
      if from == ZERO_ADDRESS || Balance(allowance, from) < amount || Balance(balances, from) < amount {
        return false;
      }
      if Balance(allowance, from) != MAX_U256 {
        allowance := Debit(allowance, from, amount);
      }
      balances := Debit(balances, from, amount);
      balances := Credit(balances, vault, amount);
      return true;
    }

    /** safeTransfer out of the vault, by the vault. */
    method Transfer(to: Address, amount: nat) returns (ok: bool)
      modifies this
      ensures allowance == old(allowance)
      ensures ok <==> to != ZERO_ADDRESS && amount <= Balance(old(balances), vault)
      ensures balances == if ok then Credit(Debit(old(balances), vault, amount), to, amount) else old(balances)
    {
      if to == ZERO_ADDRESS || Balance(balances, vault) < amount {
        return false;
      }
      balances := Debit(balances, vault, amount);
      balances := Credit(balances, to, amount);
      return true;
    }
  }

  class ParlayVault {
    const self: Address
    const usdc: Usdc
    var parlays: map<nat, Parlay>
    var owners: map<nat, Address>
    var usedQuotes: set<nat>
    var nextId: nat
    var writer: Address
    var minPremiumBps: nat
    var allowedLeg: set<Address>
    /** What the legs' own contracts answer; theirs to change, not this contract's. */
    var settlements: Settlements
    var log: seq<Event>

    constructor (usdc: Usdc, writer: Address, minPremiumBps: nat)
      requires usdc.vault != ZERO_ADDRESS && Balance(usdc.allowance, usdc.vault) == 0
      ensures Fresh(self, Value()) && self == usdc.vault && Valid()
    {
      this.usdc, self, this.writer, this.minPremiumBps := usdc, usdc.vault, writer, minPremiumBps;
      parlays, owners, usedQuotes, nextId := map[], map[], {}, 0;
      allowedLeg, settlements, log := {}, map[], [];
    }

    ghost predicate Valid() {
      usdc.vault == self
    }

    function Value(): State
      reads this, usdc
    {
      State(parlays, owners, usedQuotes, nextId, writer, minPremiumBps, allowedLeg,
            usdc.balances, usdc.allowance, settlements, log)
    }

    /** What the EVM does with the writes of a transaction that reverts. */
    method Rollback(before: State)
      modifies this, usdc
      ensures Value() == before
    {
      parlays, owners, usedQuotes, nextId := before.parlays, before.owners, before.usedQuotes, before.nextId;
      writer, minPremiumBps, allowedLeg := before.writer, before.minPremiumBps, before.allowedLeg;
      usdc.balances, usdc.allowance := before.usdc, before.allowance;
      settlements, log := before.settlements, before.log;
    }

    method PayUsdc(id: nat, to: Address, amount: nat) returns (r: Receipt)
      requires Valid()
      modifies this`log, usdc
      ensures Commits(PS.PayUsdc(self, old(Value()), id, to, amount), old(Value()), Value(), r)
    {
      var ok := usdc.Transfer(to, amount);
      if !ok {
        return Reverted("TRANSFER_FAILED");
      }
      log := log + [PaidOut(id, to, amount)];
      return Success;
    }

    method RequireLegs(legs: seq<Leg>) returns (r: Receipt)
      ensures r == CheckLegs(Value(), legs)
    {
      for i := 0 to |legs|
        invariant CheckLegs(Value(), legs) == CheckLegs(Value(), legs[i..])
      {
        if legs[i].vault !in allowedLeg {
          return Reverted("LEG_NOT_ALLOWED");
        }
        if Settled(settlements, legs[i]) {
          return Reverted("LEG_SETTLED");
        }
      }
      return Success;
    }

    method TakeEscrow(taker: Address, premium: nat, rest: nat) returns (r: Receipt)
      requires Valid()
      modifies usdc
      ensures Commits(EscrowUsdc(self, old(Value()), taker, premium, rest), old(Value()), Value(), r)
    {
      var balances, allowance := usdc.balances, usdc.allowance;
      var ok := usdc.TransferFrom(taker, premium);
      if ok {
        ok := usdc.TransferFrom(writer, rest);
      }
      if !ok {
        usdc.balances, usdc.allowance := balances, allowance;
        return Reverted("TRANSFER_FAILED");
      }
      return Success;
    }

    method RequireMintable(sender: Address, q: Quote, signed: bool, now: nat) returns (r: Receipt)
      ensures r == MintGuards(Value(), sender, q, signed, now)
    {
      if !signed {
        return Reverted("BAD_SIG");
      }
      if now > q.deadline {
        return Reverted("QUOTE_EXPIRED");
      }
      if sender != q.taker {
        return Reverted("NOT_TAKER");
      }
      if q.quoteId in usedQuotes {
        return Reverted("QUOTE_USED");
      }
      if !(1 <= |q.legs| <= MAX_LEGS) {
        return Reverted("BAD_LEG_COUNT");
      }
      if q.premium >= q.maxPayout {
        return Reverted("BAD_PREMIUM");
      }
      if q.premium * BPS < q.maxPayout * minPremiumBps {
        return Reverted("PREMIUM_TOO_LOW");
      }
      r := RequireLegs(q.legs);
    }

    method IssueTicket(sender: Address, q: Quote)
      modifies this
      ensures Value() == Issue(old(Value()), sender, q)
    {
      usedQuotes := usedQuotes + {q.quoteId};
      nextId := nextId + 1;
      parlays := parlays[nextId := Parlay(q.legs, writer, q.premium, q.maxPayout, Open)];
      owners := owners[nextId := sender];
      log := log + [Transferred(ZERO_ADDRESS, sender, nextId),
                    Minted(nextId, sender, q.quoteId, q.premium, q.maxPayout)];
    }

    method Mint(sender: Address, q: Quote, signed: bool, now: nat) returns (r: Receipt)
      requires Valid()
      modifies this, usdc
      ensures Commits(MintTx(self, old(Value()), sender, q, signed, now), old(Value()), Value(), r)
    {
      r := RequireMintable(sender, q, signed, now);
      if r.Reverted? {
        return;
      }
      r := TakeEscrow(sender, q.premium, Monus(q.maxPayout, q.premium));
      if r.Reverted? {
        return;
      }
      IssueTicket(sender, q);
    }

    method SetStatus(id: nat, status: Status)
      requires id in parlays
      modifies this`parlays, this`log
      ensures Value() == WithStatus(old(Value()), id, status)
    {
      parlays := parlays[id := parlays[id].(status := status)];
      log := log + [ResolvedTo(id, status)];
    }

    method BurnTicket(id: nat)
      requires id in owners
      modifies this`owners, this`log
      ensures Value() == Burn(old(Value()), id)
    {
      log := log + [Transferred(owners[id], ZERO_ADDRESS, id)];
      owners := owners - {id};
    }

    method ResolveParlay(id: nat) returns (r: Receipt)
      requires Valid()
      modifies this, usdc
      ensures Commits(ResolveTx(self, old(Value()), id), old(Value()), Value(), r)
    {
      if id !in parlays || parlays[id].status != Open || parlays[id].maxPayout == 0 {
        return Reverted("NOT_OPEN");
      }
      var p := parlays[id];
      var before := Value();
      var landing := ScanLegs(settlements, p.legs);
      match landing {
        case Some(Dead) =>
          SetStatus(id, Dead);
          r := PayUsdc(id, p.writer, p.maxPayout);
        case Some(Void) =>
          if id !in owners {
            return Reverted("NONEXISTENT_TOKEN");
          }
          var holder := owners[id];
          SetStatus(id, Void);
          BurnTicket(id);
          r := PayUsdc(id, holder, p.premium);
          if r.Success? {
            r := PayUsdc(id, p.writer, Monus(p.maxPayout, p.premium));
          }
        case Some(Won) =>
          SetStatus(id, Won);
          r := Success;
        case _ =>
          r := Reverted("NOT_RESOLVABLE");
      }
      if r.Reverted? {
        Rollback(before);
      }
    }

    method Claim(sender: Address, id: nat) returns (r: Receipt)
      requires Valid()
      modifies this, usdc
      ensures Commits(ClaimTx(self, old(Value()), sender, id), old(Value()), Value(), r)
    {
      var before := Value();
      if id !in parlays || parlays[id].status == Open {
        r := ResolveParlay(id);
        if r.Reverted? {
          return;
        }
      }
      if id !in parlays || parlays[id].status != Won {
        r := Reverted("NOT_WON");
      } else if id !in owners {
        r := Reverted("NONEXISTENT_TOKEN");
      } else if sender != owners[id] {
        r := Reverted("NOT_OWNER_OF");
      } else {
        BurnTicket(id);
        r := PayUsdc(id, sender, parlays[id].maxPayout);
      }
      if r.Reverted? {
        Rollback(before);
      }
    }

    method TransferFrom(from: Address, to: Address, id: nat) returns (r: Receipt)
      modifies this
      ensures Commits(TransferTx(old(Value()), from, to, id), old(Value()), Value(), r)
    {
      if to == ZERO_ADDRESS {
        return Reverted("INVALID_RECEIVER");
      }
      if id !in owners || owners[id] != from {
        return Reverted("INCORRECT_OWNER");
      }
      owners := owners[id := to];
      log := log + [Transferred(from, to, id)];
      return Success;
    }
  }
}
