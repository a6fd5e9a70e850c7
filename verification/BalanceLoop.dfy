/** The keeper process and the verifier contract it writes to, step by step. Each method is proved
    to do to its vault what KeeperState says, and nothing to any other. */
module BalanceLoop {
  import opened BalanceCheck
  import KS = KeeperState
  import opened Prelude

  class KeeperVerifier {
    const owner: Address
    const keeper: Address
    const minDelay: nat
    var attestations: map<nat, KS.Attestation>
    var paused: bool

    constructor (owner: Address, keeper: Address, minDelay: nat)
      ensures this.owner == owner && this.keeper == keeper && this.minDelay == minDelay
      ensures Value() == KS.Verifier(map[], false)
    {
      this.owner, this.keeper, this.minDelay, attestations, paused := owner, keeper, minDelay, map[], false;
    }

    ghost function Value(): KS.Verifier
      reads this
    {
      KS.Verifier(attestations, paused)
    }

    ghost function AttestBy(sender: Address, opId: nat, executed: bool, timestamp: nat): Tx<KS.Verifier>
      reads this
    {
      if sender != keeper then Revert("NOT_KEEPER") else KS.AttestTx(Value(), opId, executed, timestamp)
    }

    method Attest(sender: Address, opId: nat, executed: bool, timestamp: nat) returns (receipt: Receipt)
      modifies this
      ensures Commits(old(AttestBy(sender, opId, executed, timestamp)), old(Value()), Value(), receipt)
    {
      if sender != keeper {
        return Reverted("NOT_KEEPER");
      }
      if opId in attestations {
        return Reverted("ALREADY_ATTESTED");
      }
      attestations := attestations[opId := KS.Attestation(executed, timestamp)];
      return Success;
    }

    method StatusOf(opId: nat, timestamp: nat) returns (verdict: Verdict)
      ensures verdict == KS.StatusOf(Value(), opId, minDelay, timestamp)
    {
      if paused {
        return Pending;
      }
      if opId !in attestations || timestamp < attestations[opId].timestamp + minDelay {
        return Pending;
      }
      return if attestations[opId].executed then Executed else Failed;
    }

    method SetPaused(sender: Address, on: bool) returns (receipt: Receipt)
      modifies this
      ensures Value() == if sender == owner then old(Value()).(paused := on) else old(Value())
      ensures receipt == if sender == owner then Success else Reverted("NOT_OWNER")
    {
      if sender != owner {
        return Reverted("NOT_OWNER");
      }
      paused := on;
      return Success;
    }
  }

  /** How the call to `attest` ended for the keeper. Only a receipt of success, or a verdict that
      is there already, lets it forget the operation. */
  datatype AttestOutcome = Landed | AlreadyAttested | NotKnown

  /** A vault's turn in a tick: what was read and when, and how an attestation ended if one was sent. */
  datatype Turn = Turn(vault: Address, read: Option<int>, settledOnChain: bool, clock: int, ended: AttestOutcome)

  /** What is remembered of a vault, and whether it is known to be settled. */
  datatype Watch = Watch(keeper: KS.Keeper, settled: bool)

  /** What one turn, its own or another's, makes of a vault's watch. */
  function AfterTurn(w: Watch, vault: Address, t: Turn, timeoutMs: nat): Watch {
    if t.vault != vault || w.settled then w else
    if t.read.None? then w.(settled := t.settledOnChain) else
    var after := KS.Ticked(w.keeper, t.read.value, t.clock, timeoutMs);
    var verdict := KS.TickVerdict(w.keeper, t.read.value, t.clock, timeoutMs);
    Watch(if verdict.Some? && !t.ended.NotKnown? then after.(pending := None) else after, false)
  }

  function AfterTurns(w: Watch, vault: Address, turns: seq<Turn>, timeoutMs: nat): Watch
    decreases |turns|
  {
    if turns == [] then w
    else AfterTurn(AfterTurns(w, vault, turns[..|turns| - 1], timeoutMs), vault, turns[|turns| - 1], timeoutMs)
  }

  class BalanceLoop {
    const timeoutMs: nat
    var pendingOps: map<Address, KS.PendingOp>
    var balanceHistory: map<Address, seq<Sample>>
    var sampleFailures: map<Address, nat>
    var settledVaults: set<Address>

    constructor (timeoutMs: nat)
      ensures this.timeoutMs == timeoutMs && settledVaults == {}
      ensures forall v :: KeeperOf(v) == KS.Keeper([], None)
    {
      this.timeoutMs, pendingOps, balanceHistory, sampleFailures, settledVaults := timeoutMs, map[], map[], map[], {};
    }

    /** What is remembered of one vault. */
    ghost function KeeperOf(vault: Address): KS.Keeper
      reads this
    {
      KS.Keeper(if vault in balanceHistory then balanceHistory[vault] else [],
                if vault in pendingOps then Some(pendingOps[vault]) else None)
    }

    ghost function WatchOf(vault: Address): Watch
      reads this
    {
      Watch(KeeperOf(vault), vault in settledVaults)
    }

    twostate predicate OnlyTouches(vault: Address)
      reads this
    {
      forall v :: v != vault ==> KeeperOf(v) == old(KeeperOf(v))
    }

    method RecordSample(vault: Address, balance: int, clock: int)
      modifies this`balanceHistory
      ensures OnlyTouches(vault)
      ensures KeeperOf(vault) == old(KeeperOf(vault)).(history := Push(old(KeeperOf(vault)).history, Sample(clock, balance)))
    {
      var arr := if vault in balanceHistory then balanceHistory[vault] else [];
      arr := arr + [Sample(clock, balance)];
      if |arr| > HISTORY_LIMIT {
        arr := arr[1..];
      }
      balanceHistory := balanceHistory[vault := arr];
    }

    method Track(vault: Address, opId: nat, log: KS.Log, baseline: Option<int>, confident: bool, clock: int)
      modifies this`pendingOps
      ensures OnlyTouches(vault)
      ensures KeeperOf(vault) == KS.Track(old(KeeperOf(vault)), opId, log, baseline, confident, clock)
    {
      if vault in pendingOps {
        return;
      }
      pendingOps := pendingOps[vault := KS.PendingOp(opId, log.kind, log.wei, baseline, clock, confident, false)];
    }

    /** A read at detection time can already be past the execution, so only a sample older than the
        block is confident. */
    method ResolveLiveBaseline(vault: Address, block: Option<nat>, current: Option<int>)
      returns (baseline: Option<int>, confident: bool)
      ensures confident <==> block.Some? && KS.SampleBefore(KeeperOf(vault), block.value).Some?
      ensures baseline == if confident then Some(KS.SampleBefore(KeeperOf(vault), block.value).value.balance) else current
    {
      if block.Some? {
        var history := if vault in balanceHistory then balanceHistory[vault] else [];
        var sample := NewestSampleBefore(history, block.value / 1_000 * 1_000, CLOCK_SKEW_MARGIN_MS, MAX_SAMPLE_AGE_MS);
        if sample.Some? {
          return Some(sample.value.balance), true;
        }
      }
      return current, false;
    }

    /** An OpQueued log came in. */
    method SeeLog(vault: Address, opId: nat, log: KS.Log, blockRead: bool, current: Option<int>, clock: int)
      modifies this`pendingOps
      ensures OnlyTouches(vault)
      ensures KeeperOf(vault) == KS.Detect(old(KeeperOf(vault)), opId, log, blockRead, current, clock)
    {
      if vault in pendingOps {
        return;
      }
      var baseline, confident := ResolveLiveBaseline(vault, if blockRead then Some(log.queuedAt) else None, current);
      Track(vault, opId, log, baseline, confident, clock);
    }

    /** After a start: what the vault has open and the verifier has not settled is tracked again,
        without a baseline. */
    method TrackIfStillPending(vault: Address, opId: nat, log: KS.Log, status: Verdict, clock: int)
      modifies this`pendingOps
      ensures OnlyTouches(vault)
      ensures KeeperOf(vault) == if status.Pending? then KS.Track(old(KeeperOf(vault)), opId, log, None, false, clock)
                                 else old(KeeperOf(vault))
    {
      if !status.Pending? {
        return;
      }
      Track(vault, opId, log, None, false, clock);
    }

    /** The balance check of a tick; `sent` is what it attested, for which operation. */
    method CheckPending(vault: Address, current: int, clock: int, ended: AttestOutcome) returns (sent: Option<(nat, bool)>)
      modifies this`pendingOps
      ensures OnlyTouches(vault) && KeeperOf(vault).history == old(KeeperOf(vault)).history
      ensures var k := old(KeeperOf(vault));
        var verdict := KS.TickVerdict(k, current, clock, timeoutMs);
        && sent == (if verdict.Some? then Some((k.pending.value.opId, verdict.value)) else None)
        && KeeperOf(vault).pending ==
             (if k.pending.None? || (verdict.Some? && !ended.NotKnown?) then None
              else Some(KS.TickPending(k.pending.value, current, clock, timeoutMs)))
    {
      sent := None;
      if vault !in pendingOps {
        return;
      }
      var op := pendingOps[vault];
      if op.baseline.None? {
        pendingOps := pendingOps[vault := op.(baseline := Some(current))];
        return;
      }
      var decision := ResolveBalanceCheck(op.baseline.value, current, op.kind, op.wei, clock - op.firstSeenAt, timeoutMs, op.confident);
      if decision.Wait? {
        return;
      }
      if decision.Hold? {
        if !op.holdAlerted {
          pendingOps := pendingOps[vault := op.(holdAlerted := true)];
        }
        return;
      }
      sent := Some((op.opId, decision.AttestTrue?));
      if !ended.NotKnown? {
        pendingOps := pendingOps - {vault};
      }
    }

    /** One vault's turn in a tick: sample, then check. A read that fails records nothing. */
    method TickVault(t: Turn) returns (sent: Option<(nat, bool)>)
      modifies this
      ensures forall v :: WatchOf(v) == AfterTurn(old(WatchOf(v)), v, t, timeoutMs)
      ensures var k := old(KeeperOf(t.vault));
        sent == if t.vault in old(settledVaults) || t.read.None? then None else
                var verdict := KS.TickVerdict(k, t.read.value, t.clock, timeoutMs);
                if verdict.Some? then Some((k.pending.value.opId, verdict.value)) else None
    {
      sent := None;
      var vault := t.vault;
      if vault in settledVaults {
        return;
      }
      if t.read.None? {
        if t.settledOnChain {
          settledVaults := settledVaults + {vault};
        } else {
          var n := (if vault in sampleFailures then sampleFailures[vault] else 0) + 1;
          sampleFailures := sampleFailures[vault := n];
        }
        return;
      }
      sampleFailures := sampleFailures - {vault};
      RecordSample(vault, t.read.value, t.clock);
      sent := CheckPending(vault, t.read.value, t.clock, t.ended);
    }

    /** A tick gives every vault on the list its turn, in order; a vault listed twice has two. */
    method Tick(turns: seq<Turn>)
      modifies this
      ensures forall v :: WatchOf(v) == AfterTurns(old(WatchOf(v)), v, turns, timeoutMs)
    {
      for i := 0 to |turns|
        invariant forall v :: WatchOf(v) == AfterTurns(old(WatchOf(v)), v, turns[..i], timeoutMs)
      {
        assert turns[..i + 1][..i] == turns[..i];
        var _ := TickVault(turns[i]);
      }
      assert turns[..|turns|] == turns;
    }
  }
}
