/** The settlement loop of the keeper, and the contract that stores a leg's settlement. */
module SettlementLoop {
  import opened Prelude
  import SS = SettlementState
  import VS = VaultState

  /** The settlement contract on the other chain. */
  class OutcomeLeg {
    const sourceVault: Address
    const aliasedRelay: Address
    var settled: bool
    var settleFractionWad: nat

    constructor (sourceVault: Address, aliasedRelay: Address)
      requires sourceVault != ZERO_ADDRESS
      ensures this.sourceVault == sourceVault && this.aliasedRelay == aliasedRelay
      ensures Value() == SS.Leg(sourceVault, false, 0)
    {
      this.sourceVault, this.aliasedRelay, settled, settleFractionWad := sourceVault, aliasedRelay, false, 0;
    }

    ghost function Value(): SS.Leg
      reads this
    {
      SS.Leg(sourceVault, settled, settleFractionWad)
    }

    method ReceiveSettlement(cfg: SS.Config, m: SS.Message) returns (receipt: Receipt)
      requires cfg.relay == aliasedRelay
      modifies this
      ensures Commits(old(SS.ReceiveTx(cfg, Value(), m)), old(Value()), Value(), receipt)
    {
      if m.sender != aliasedRelay {
        return Reverted("NOT_RELAY");
      }
      if m.vault != sourceVault {
        return Reverted("WRONG_VAULT");
      }
      if settled {
        return Reverted("ALREADY_SETTLED");
      }
      if m.fractionWad > WAD {
        return Reverted("BAD_FRACTION");
      }
      settled := true;
      settleFractionWad := m.fractionWad;
      return Success;
    }
  }

  /** How long to wait for a relay to land before paying for another. */
  const RELAY_HOLD_MS: nat := 180_000

  predicate ShouldRelay(legSettled: bool, sentAt: Option<int>, now: int) {
    !legSettled && (sentAt.None? || now - sentAt.value >= RELAY_HOLD_MS)
  }

  /** A relay to the leg is due, as far as this process remembers. */
  predicate Due(relayedLegs: set<Address>, relaySentAt: map<Address, int>, leg: Address, legSettled: bool, now: int) {
    leg !in relayedLegs && ShouldRelay(legSettled, if leg in relaySentAt then Some(relaySentAt[leg]) else None, now)
  }

  /** That is: the leg is not known settled, nor answers so, and this process sent it no relay in the
      last three minutes. */
  lemma DueExactlyWhen(relayedLegs: set<Address>, relaySentAt: map<Address, int>, leg: Address, legSettled: bool, now: int)
    ensures Due(relayedLegs, relaySentAt, leg, legSettled, now) <==>
      leg !in relayedLegs && !legSettled && (leg in relaySentAt ==> relaySentAt[leg] + 180_000 <= now)
  {
  }

  class SettlementLoop {
    const legs: map<Address, Address>
    var settledVaults: set<Address>
    var lastKnownFraction: map<Address, nat>
    var disk: map<Address, nat>
    var relaySentAt: map<Address, int>
    var relayedLegs: set<Address>
    /** Every relay this process sent, and when. */
    ghost var relays: seq<(Address, int)>

    /** Starts from what the disk holds. */
    constructor (legs: map<Address, Address>, disk: map<Address, nat>)
      ensures Valid() && this.legs == legs && this.disk == disk && lastKnownFraction == disk && relays == []
    {
      this.legs, settledVaults, lastKnownFraction, this.disk := legs, {}, disk, disk;
      relaySentAt, relayedLegs, relays := map[], {}, [];
    }

    /** A leg's relays are a hold apart, and the time of the last is remembered while the leg still
        needs one. */
    ghost predicate Valid()
      reads this
    {
      && (forall i, j :: 0 <= i < j < |relays| && relays[i].0 == relays[j].0 ==> relays[j].1 - relays[i].1 >= RELAY_HOLD_MS)
      && (forall r <- relays :: r.0 !in relayedLegs ==> r.0 in relaySentAt && r.1 <= relaySentAt[r.0])
    }

    /** saveFraction: memory first, so a failing disk costs only what a restart would. */
    method RememberFraction(vault: Address, fractionWad: nat, persists: bool)
      modifies this`lastKnownFraction, this`disk
      ensures lastKnownFraction == old(lastKnownFraction)[vault := fractionWad]
      ensures disk == if persists then lastKnownFraction else old(disk)
    {
      lastKnownFraction := lastKnownFraction[vault := fractionWad];
      if persists {
        disk := lastKnownFraction;
      }
    }

    /** relayIfNeeded. `legSettled` is what the leg answers when asked; it is only asked when a
        relay could be due. Without a gas price there is no fee to quote, and nothing is sent. */
    method RelayIfNeeded(vault: Address, ready: bool, legSettled: bool, feesKnown: bool, now: int) returns (sent: bool)
      requires Valid()
      modifies this`relaySentAt, this`relayedLegs, this`relays
      ensures Valid()
      ensures sent == (vault in legs && ready && Due(old(relayedLegs), old(relaySentAt), legs[vault], legSettled, now) && feesKnown)
      ensures relays == if sent then old(relays) + [(legs[vault], now)] else old(relays)
      ensures relayedLegs == if vault in legs && ready && legSettled then old(relayedLegs) + {legs[vault]} else old(relayedLegs)
    {
      if vault !in legs || !ready || legs[vault] in relayedLegs {
        assert vault in legs && legs[vault] in relayedLegs ==> relayedLegs + {legs[vault]} == relayedLegs;
        return false;
      }
      var leg := legs[vault];
      if legSettled {
        relayedLegs := relayedLegs + {leg};
        relaySentAt := relaySentAt - {leg};
        return false;
      }
      if !ShouldRelay(legSettled, if leg in relaySentAt then Some(relaySentAt[leg]) else None, now) {
        return false;
      }
      if !feesKnown {
        return false;
      }
      relaySentAt := relaySentAt[leg := now];
      relays := relays + [(leg, now)];
      return true;
    }

    /** One vault's turn: what is signed, and what is remembered, on what the chain shows. `w` is the
        state machine's view of it all; the turn is its step. */
    method TickVault(vault: Address, v: SS.Vault, ready: bool, legSettled: bool, feesKnown: bool, persists: bool, now: int,
        ghost w: SS.World) returns (settle: Option<nat>)
      requires Valid() && vault in w.vaults && w.vaults[vault] == v && w.memory == lastKnownFraction && w.disk == disk
      modifies this
      ensures Valid()
      ensures var w' := SS.Ticked(w, vault, persists);
        && lastKnownFraction == w'.memory && disk == w'.disk
        && w'.sent == (if settle.Some? then w.sent + {(vault, settle.value)} else w.sent)
      ensures settle.Some? <==> !v.settled && SS.TickFraction(v, vault, v.market, old(lastKnownFraction)).Some?
      ensures settledVaults == if v.settled then old(settledVaults) + {vault} else old(settledVaults)
      ensures relays == if v.settled && vault in legs && ready && feesKnown
                           && Due(old(relayedLegs), old(relaySentAt), legs[vault], legSettled, now)
                        then old(relays) + [(legs[vault], now)] else old(relays)
    {
      if v.settled {
        settledVaults := settledVaults + {vault};
        var _ := RelayIfNeeded(vault, ready, legSettled, feesKnown, now);
        return None;
      }
      if v.market.Active? {
        return None;
      }
      if v.market.Resolved? {
        if v.market.question != v.question {
          return None;
        }
        var fractionWad := VS.FractionOf(v.market.settledValue);
        RememberFraction(vault, fractionWad, persists);
        return Some(fractionWad);
      }
      if vault !in lastKnownFraction {
        return None;
      }
      return Some(lastKnownFraction[vault]);
    }
  }
}
