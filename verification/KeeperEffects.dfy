/** What the keeper and its verifier do in each situation, told in balances and times: when a
    verdict shows, what a tick decides, which sample a baseline is, what is remembered. */
module KeeperEffects {
  import opened BalanceCheck
  import BL = BalanceLoop
  import opened KeeperState
  import opened Prelude
  import VS = VaultState

  // --------------------------------------------------------------- verifier

  /** A verdict shows exactly when the verifier is not paused, the operation was attested, and the
      delay has passed since; and it is then the verdict attested. */
  lemma VerdictShowsExactlyWhen(v: Verifier, opId: nat, minDelay: nat, timestamp: nat, executed: bool)
    ensures StatusOf(v, opId, minDelay, timestamp) == (if executed then Executed else Failed) <==>
      && !v.paused
      && opId in v.attestations && v.attestations[opId].executed == executed
      && timestamp - v.attestations[opId].timestamp >= minDelay
  {
  }

  /** No claim and no cancellation goes through on a paused verifier. */
  lemma PausedVerifierStopsTheVault(v: Verifier, cfg: VS.Config, w: VS.World, minDelay: nat, timestamp: nat)
    requires v.paused
    ensures w.v.deposit.Deposit? ==>
      var verdict := StatusOf(v, w.v.deposit.opId, minDelay, timestamp);
      VS.ClaimDepositTx(w, verdict).Revert? && VS.CancelDepositTx(cfg, w, verdict).Revert?
    ensures w.v.redeem.Redeem? ==>
      var verdict := StatusOf(v, w.v.redeem.opId, minDelay, timestamp);
      VS.ClaimRedeemTx(cfg, w, verdict).Revert? && VS.CancelRedeemTx(w, verdict).Revert?
  {
  }

  /** While the verifier stays paused, whatever else happens, a vault's operation does not finish and
      no other begins. */
  lemma {:induction false} PausedNothingFinishes(cfg: Config, w: World, steps: seq<Step>)
    requires w.verifier.paused && w.busy && PossibleRun(cfg, w, steps) && forall s <- steps :: !s.Pause?
    ensures var e := Run(cfg, w, steps);
      e.verifier.paused && e.busy && e.op.id == w.op.id && e.op.queuedAt == w.op.queuedAt
    decreases |steps|
  {
    if steps != [] {
      assert steps[0] in steps;
      var w1 := Next(cfg, w, steps[0]);
      assert w1.verifier.paused && w1.busy && w1.op.id == w.op.id && w1.op.queuedAt == w.op.queuedAt;
      PausedNothingFinishes(cfg, w1, steps[1..]);
    }
  }

  /** What was attested once stands for good, whatever is attested after. */
  lemma {:induction false} AttestationsStand(cfg: Config, w: World, steps: seq<Step>, opId: nat)
    requires PossibleRun(cfg, w, steps) && opId in w.verifier.attestations
    ensures var e := Run(cfg, w, steps);
      opId in e.verifier.attestations && e.verifier.attestations[opId] == w.verifier.attestations[opId]
    decreases |steps|
  {
    if steps != [] {
      AttestationsStand(cfg, Next(cfg, w, steps[0]), steps[1..], opId);
    }
  }

  // ----------------------------------------------------------------- a tick

  /** The balance is where the operation takes it from the baseline: a split adds, a merge takes. */
  predicate Moved(p: PendingOp, current: int)
    requires p.baseline.Some?
  {
    match p.kind
    case SplitOp => current == p.baseline.value + p.wei
    case MergeOp => current == p.baseline.value - p.wei
  }

  /** What a tick decides on the balance just read: executed exactly when the balance moved from the
      baseline by what the operation moves, however unsure the baseline; failed exactly when it
      did not, the timeout has passed since the operation was first seen, and the baseline is
      sure. It decides nothing without a baseline. */
  lemma TickDecidesExactlyWhen(k: Keeper, current: int, clock: int, timeoutMs: nat)
    ensures
      var verdict := TickVerdict(k, current, clock, timeoutMs);
      if k.pending.None? || k.pending.value.baseline.None? then verdict.None? else
      var p := k.pending.value;
      && (verdict == Some(true) <==> Moved(p, current))
      && (verdict == Some(false) <==> !Moved(p, current) && clock > p.firstSeenAt + timeoutMs && p.confident)
  {
  }

  /** A tick forgets nothing of a pending operation: it fills in a missing baseline, without becoming
      sure of it, and notes when it holds an operation it cannot decide. */
  lemma TickRemembers(p: PendingOp, current: int, clock: int, timeoutMs: nat)
    ensures var after := TickPending(p, current, clock, timeoutMs);
      && after == p.(baseline := after.baseline, holdAlerted := after.holdAlerted)
      && after.baseline == (if p.baseline.None? then Some(current) else p.baseline)
      && (after.holdAlerted <==>
            (|| p.holdAlerted
             || (p.baseline.Some? && !Moved(p, current) && clock > p.firstSeenAt + timeoutMs && !p.confident)))
  {
  }

  /** An operation is forgotten only on a verdict whose attestation landed, or was there already; and
      another vault's turn never touches it. */
  lemma ForgottenOnlyWhenAttested(w: BL.Watch, vault: Address, t: BL.Turn, timeoutMs: nat)
    requires w.keeper.pending.Some?
    ensures BL.AfterTurn(w, vault, t, timeoutMs).keeper.pending.None? <==>
      && t.vault == vault && !w.settled && t.read.Some?
      && TickVerdict(w.keeper, t.read.value, t.clock, timeoutMs).Some? && !t.ended.NotKnown?
    ensures t.vault != vault ==> BL.AfterTurn(w, vault, t, timeoutMs) == w
  {
  }

  /** A vault is sampled on each turn of its own that reads its balance, and given up on exactly when a
      read fails on a vault the chain says has settled. */
  lemma TurnRecordsOrGivesUp(w: BL.Watch, vault: Address, t: BL.Turn, timeoutMs: nat)
    ensures var after := BL.AfterTurn(w, vault, t, timeoutMs);
      && (after.settled <==> w.settled || (t.vault == vault && t.read.None? && t.settledOnChain))
      && after.keeper.history == if t.vault == vault && !w.settled && t.read.Some?
                                 then Push(w.keeper.history, Sample(t.clock, t.read.value)) else w.keeper.history
  {
  }

  // ---------------------------------------------------------------- baselines

  /** The block's second, in milliseconds. */
  function BlockMs(queuedAt: nat): nat {
    queuedAt - queuedAt % 1_000
  }

  /** A sample that surely predates the block and is no more than a minute older than that. */
  predicate Predates(s: Sample, queuedAt: nat) {
    BlockMs(queuedAt) - 62_000 <= s.readAt <= BlockMs(queuedAt) - 2_000
  }

  /** What a keeper that tracks nothing makes of an OpQueued log. If the block was read and some sample
      predates it, the baseline is one of the newest of these, and sure; otherwise it is what was
      read on detection, if anything was, and not sure. */
  lemma DetectionTakesTheNewestSample(k: Keeper, opId: nat, log: Log, blockRead: bool, current: Option<int>, clock: int)
    requires k.pending.None?
    ensures
      var k' := Detect(k, opId, log, blockRead, current, clock);
      && k'.history == k.history && k'.pending.Some?
      && var p := k'.pending.value;
         && p == PendingOp(opId, log.kind, log.wei, p.baseline, clock, p.confident, false)
         && (p.confident <==> blockRead && exists s <- k.history :: Predates(s, log.queuedAt))
         && (!p.confident ==> p.baseline == current)
         && (p.confident ==> exists s <- k.history ::
               && Predates(s, log.queuedAt) && p.baseline == Some(s.balance)
               && forall s' <- k.history :: Predates(s', log.queuedAt) ==> s'.readAt <= s.readAt)
  {
    var before := log.queuedAt / 1_000 * 1_000;
    NewestIsNewest(k.history, before, CLOCK_SKEW_MARGIN_MS, MAX_SAMPLE_AGE_MS);
    assert forall s <- k.history :: Eligible(s, before, CLOCK_SKEW_MARGIN_MS, MAX_SAMPLE_AGE_MS) == Predates(s, log.queuedAt);
  }

  /** A keeper that tracks an operation ignores every further log. */
  lemma TrackedOnceOnly(k: Keeper, opId: nat, log: Log, blockRead: bool, current: Option<int>, clock: int)
    requires k.pending.Some?
    ensures Detect(k, opId, log, blockRead, current, clock) == k
  {
  }

  // ------------------------------------------------------------------ history

  /** The history after a series of samples. */
  function Recorded<T>(samples: seq<T>): seq<T>
    decreases |samples|
  {
    if samples == [] then [] else Push(Recorded(samples[..|samples| - 1]), samples[|samples| - 1])
  }

  /** What is kept of any series of samples is its last twenty, in their order. */
  lemma {:induction false} HistoryIsTheLastTwenty<T>(samples: seq<T>)
    ensures Recorded(samples) == samples[Monus(|samples|, 20)..]
    decreases |samples|
  {
    if samples != [] {
      HistoryIsTheLastTwenty(samples[..|samples| - 1]);
    }
  }
}
