/** Why the keeper's verdicts can be trusted, whatever overlaps, restarts or gets lost. */
module KeeperTheorems {
  import opened BalanceCheck
  import opened KeeperState
  import opened Prelude

  /** The balance as the latest operation moved it, as far back as it is known. */
  predicate TrueReading(op: Op, quietSince: int, balance: int, at: int) {
    at > quietSince ==>
      && (op.executedAt.None? ==> balance == op.pre)
      && (op.executedAt.Some? && at < op.executedAt.value ==> balance == op.pre)
      && (op.executedAt.Some? && at > op.executedAt.value ==> balance == Balance(op))
      && (balance == op.pre || balance == Balance(op))
  }

  /** A sample is a true reading, and its time stamp is as close as the clocks allow. */
  predicate TrueSample(cfg: Config, w: World, s: Sample, at: nat) {
    && at <= w.now && at - CLOCK_SKEW_MARGIN_MS < s.readAt <= at + cfg.skew + cfg.lag
    && TrueReading(w.op, w.quietSince, s.balance, at)
  }

  predicate TrueHistory(cfg: Config, w: World) {
    && |w.taken| == |w.keeper.history|
    && (forall i :: 0 <= i < |w.taken| ==> TrueSample(cfg, w, w.keeper.history[i], w.taken[i]))
    && (w.reading.Some? ==> w.reading.value.at <= w.now && TrueReading(w.op, w.quietSince, w.reading.value.balance, w.reading.value.at))
  }

  /** The balance rested for nearly the verifier's delay before the latest operation. */
  predicate Timeline(cfg: Config, w: World) {
    && w.op.wei > 0 && w.op.queuedAt <= w.now
    && w.quietSince + cfg.minDelay * 1_000 - 1_000 <= w.op.queuedAt
    && (w.op.executedAt.Some? ==> w.op.id > 0 && w.op.queuedAt <= w.op.executedAt.value <= Min(w.now, w.op.queuedAt + cfg.window))
    && (forall id :: id in w.logs ==> 0 < id <= w.op.id)
    && (w.op.id in w.logs ==> w.logs[w.op.id] == Log(w.op.kind, w.op.wei, w.op.queuedAt))
  }

  /** The verdict is what Core did, for good. */
  predicate RightVerdict(cfg: Config, w: World, executed: bool) {
    if executed then w.op.executedAt.Some? else w.op.executedAt.None? && w.now > w.op.queuedAt + cfg.window
  }

  predicate TrueAttestation(cfg: Config, w: World, id: nat, a: Attestation) {
    && 0 < id <= w.op.id && a.timestamp * 1_000 <= w.now
    && (id < w.op.id ==> id in w.done && w.done[id] == a.executed)
    && (id == w.op.id ==> RightVerdict(cfg, w, a.executed)
                          && (a.executed ==> w.op.executedAt.value < a.timestamp * 1_000 + 1_000))
  }

  predicate Unattested(w: World, id: nat) {
    id == w.op.id && id !in w.verifier.attestations
  }

  /** Every verdict written is right, and one still on its way is right or comes too late. */
  predicate TrueVerdicts(cfg: Config, w: World) {
    && (forall id :: id in w.verifier.attestations ==> TrueAttestation(cfg, w, id, w.verifier.attestations[id]))
    && (forall id :: 0 < id < w.op.id ==> id in w.verifier.attestations)
    && (!w.busy && w.op.id > 0 ==>
          w.op.id in w.verifier.attestations
          && (w.verifier.attestations[w.op.id].timestamp + cfg.minDelay) * 1_000 <= w.now)
    && (forall s <- w.sent :: 0 < s.0 <= w.op.id && (Unattested(w, s.0) ==> RightVerdict(cfg, w, s.1)))
  }

  /** While the verdict is open, the baseline is the balance before or after the operation, and
      before it if confident. */
  predicate TrueBaseline(w: World, p: PendingOp) {
    && 0 < p.opId <= w.op.id
    && (Unattested(w, p.opId) ==>
          && p.kind == w.op.kind && p.wei == w.op.wei && p.firstSeenAt > w.op.queuedAt - CLOCK_SKEW_MARGIN_MS
          && (p.baseline.Some? ==> p.baseline.value == w.op.pre || p.baseline.value == Balance(w.op))
          && (p.confident ==> p.baseline == Some(w.op.pre)))
  }

  predicate Inv(cfg: Config, w: World) {
    && Timeline(cfg, w) && TrueHistory(cfg, w) && TrueVerdicts(cfg, w)
    && (w.keeper.pending.Some? ==> TrueBaseline(w, w.keeper.pending.value))
  }

  // ------------------------------------------------------------------ steps

  /** A sample that passes for older than the block is the balance the operation found: not read
      after it, and not before the previous operation took effect. */
  lemma ConfidentBaselineIsExact(cfg: Config, w: World, queuedAt: nat)
    requires Sound(cfg) && Timeline(cfg, w) && TrueHistory(cfg, w) && queuedAt == w.op.queuedAt
    requires SampleBefore(w.keeper, queuedAt).Some?
    ensures SampleBefore(w.keeper, queuedAt).value.balance == w.op.pre
  {
    NewestIsNewest(w.keeper.history, queuedAt / 1_000 * 1_000, CLOCK_SKEW_MARGIN_MS, MAX_SAMPLE_AGE_MS);
    var s := SampleBefore(w.keeper, queuedAt).value;
    var i :| 0 <= i < |w.keeper.history| && w.keeper.history[i] == s;
    assert TrueSample(cfg, w, s, w.taken[i]);
    assert w.quietSince < w.taken[i] < queuedAt;
  }

  /** What was read stays true while the operation stays what it is. */
  lemma HistoryStays(cfg: Config, w: World, w': World)
    requires TrueHistory(cfg, w) && w'.op == w.op && w'.quietSince == w.quietSince && w'.now >= w.now
    requires w'.keeper.history == w.keeper.history && w'.taken == w.taken && w'.reading == w.reading
    ensures TrueHistory(cfg, w')
  {
    forall i | 0 <= i < |w'.taken| ensures TrueSample(cfg, w', w'.keeper.history[i], w'.taken[i]) {
      assert TrueSample(cfg, w, w.keeper.history[i], w.taken[i]);
    }
  }

  /** And so do the verdicts. */
  lemma VerdictsStay(cfg: Config, w: World, w': World)
    requires TrueVerdicts(cfg, w) && w'.op == w.op && w'.busy == w.busy && w'.done == w.done && w'.now >= w.now
    requires w'.verifier.attestations == w.verifier.attestations && w'.sent == w.sent
    ensures TrueVerdicts(cfg, w')
  {
    forall id | id in w'.verifier.attestations ensures TrueAttestation(cfg, w', id, w'.verifier.attestations[id]) {
      assert TrueAttestation(cfg, w, id, w.verifier.attestations[id]);
    }
  }

  lemma QueueKeeps(cfg: Config, w: World, kind: OpType, wei: nat)
    requires Sound(cfg) && Inv(cfg, w) && Possible(cfg, w, Queue(kind, wei))
    ensures Inv(cfg, Queued(w, kind, wei))
  {
    var w' := Queued(w, kind, wei);
    forall i | 0 <= i < |w'.taken| ensures TrueSample(cfg, w', w'.keeper.history[i], w'.taken[i]) {
      assert TrueSample(cfg, w, w.keeper.history[i], w.taken[i]);
    }
    forall id | id in w'.verifier.attestations ensures TrueAttestation(cfg, w', id, w'.verifier.attestations[id]) {
      assert TrueAttestation(cfg, w, id, w.verifier.attestations[id]);
    }
  }

  lemma ExecuteKeeps(cfg: Config, w: World)
    requires Sound(cfg) && Inv(cfg, w) && Possible(cfg, w, CoreExecutes)
    ensures Inv(cfg, Next(cfg, w, CoreExecutes))
  {
    var w' := Next(cfg, w, CoreExecutes);
    forall i | 0 <= i < |w'.taken| ensures TrueSample(cfg, w', w'.keeper.history[i], w'.taken[i]) {
      assert TrueSample(cfg, w, w.keeper.history[i], w.taken[i]);
    }
    forall id | id in w'.verifier.attestations ensures TrueAttestation(cfg, w', id, w'.verifier.attestations[id]) {
      assert TrueAttestation(cfg, w, id, w.verifier.attestations[id]);
    }
  }

  lemma AdvanceKeeps(cfg: Config, w: World, ms: nat)
    requires Inv(cfg, w)
    ensures Inv(cfg, Next(cfg, w, Advance(ms)))
  {
    HistoryStays(cfg, w, Next(cfg, w, Advance(ms)));
    VerdictsStay(cfg, w, Next(cfg, w, Advance(ms)));
  }

  lemma FinishKeeps(cfg: Config, w: World)
    requires Inv(cfg, w) && Possible(cfg, w, Finish)
    ensures Inv(cfg, Next(cfg, w, Finish))
  {
    HistoryStays(cfg, w, Next(cfg, w, Finish));
    forall id | id in w.verifier.attestations
      ensures TrueAttestation(cfg, Next(cfg, w, Finish), id, w.verifier.attestations[id])
    {
      assert TrueAttestation(cfg, w, id, w.verifier.attestations[id]);
    }
  }

  /** The verdict a tick forms is right, unless there already is one. */
  lemma TickVerdictIsRight(cfg: Config, w: World, clock: int)
    requires Sound(cfg) && Inv(cfg, w) && Possible(cfg, w, Tick(clock))
    ensures var verdict := TickVerdict(w.keeper, w.reading.value.balance, clock, cfg.timeoutMs);
      verdict.Some? && Unattested(w, w.keeper.pending.value.opId) ==> RightVerdict(cfg, w, verdict.value)
  {
  }

  lemma TickKeepsHistory(cfg: Config, w: World, clock: int)
    requires TrueHistory(cfg, w) && Possible(cfg, w, Tick(clock))
    ensures TrueHistory(cfg, AfterTick(cfg, w, clock))
  {
    var w' := AfterTick(cfg, w, clock);
    var last := |w'.taken| - 1;
    forall i | 0 <= i < |w'.taken| ensures TrueSample(cfg, w', w'.keeper.history[i], w'.taken[i]) {
      if i < last {
        var j := if |w.taken| + 1 > HISTORY_LIMIT then i + 1 else i;
        assert TrueSample(cfg, w, w.keeper.history[j], w.taken[j]);
        assert w'.keeper.history[i] == w.keeper.history[j] && w'.taken[i] == w.taken[j];
      } else {
        assert w'.keeper.history[i] == Sample(clock, w.reading.value.balance) && w'.taken[i] == w.reading.value.at;
      }
    }
  }

  lemma TickKeepsVerdicts(cfg: Config, w: World, clock: int)
    requires Sound(cfg) && Inv(cfg, w) && Possible(cfg, w, Tick(clock))
    ensures TrueVerdicts(cfg, AfterTick(cfg, w, clock))
  {
    TickVerdictIsRight(cfg, w, clock);
    var w' := AfterTick(cfg, w, clock);
    VerdictsStay(cfg, w, w'.(sent := w.sent));
    forall s | s in w'.sent ensures 0 < s.0 <= w'.op.id && (Unattested(w', s.0) ==> RightVerdict(cfg, w', s.1)) {
      assert Unattested(w', s.0) == Unattested(w, s.0) && RightVerdict(cfg, w', s.1) == RightVerdict(cfg, w, s.1);
    }
  }

  lemma TickKeeps(cfg: Config, w: World, clock: int)
    requires Sound(cfg) && Inv(cfg, w) && Possible(cfg, w, Tick(clock))
    ensures Inv(cfg, AfterTick(cfg, w, clock))
  {
    TickKeepsHistory(cfg, w, clock);
    TickKeepsVerdicts(cfg, w, clock);
  }

  lemma AttestKeeps(cfg: Config, w: World, opId: nat, executed: bool)
    requires Inv(cfg, w) && Possible(cfg, w, AttestLands(opId, executed))
    ensures Inv(cfg, Next(cfg, w, AttestLands(opId, executed)))
  {
    var w' := Next(cfg, w, AttestLands(opId, executed));
    HistoryStays(cfg, w, w');
    forall id | id in w'.verifier.attestations ensures TrueAttestation(cfg, w', id, w'.verifier.attestations[id]) {
      if id in w.verifier.attestations {
        assert TrueAttestation(cfg, w, id, w.verifier.attestations[id]);
      } else {
        assert (opId, executed) in w.sent && Unattested(w, opId);
      }
    }
  }

  lemma SeeLogKeeps(cfg: Config, w: World, step: Step)
    requires Sound(cfg) && Inv(cfg, w) && step.SeeLog? && Possible(cfg, w, step)
    ensures Inv(cfg, Next(cfg, w, step))
  {
    var queuedAt := w.logs[step.opId].queuedAt;
    if queuedAt == w.op.queuedAt && SampleBefore(w.keeper, queuedAt).Some? {
      ConfidentBaselineIsExact(cfg, w, queuedAt);
    }
    HistoryStays(cfg, w, Next(cfg, w, step));
    VerdictsStay(cfg, w, Next(cfg, w, step));
  }

  lemma StepKeeps(cfg: Config, w: World, step: Step)
    requires Sound(cfg) && Inv(cfg, w) && Possible(cfg, w, step)
    ensures Inv(cfg, Next(cfg, w, step))
  {
    match step
    case Advance(ms) => AdvanceKeeps(cfg, w, ms);
    case Queue(kind, wei) => QueueKeeps(cfg, w, kind, wei);
    case CoreExecutes => ExecuteKeeps(cfg, w);
    case Finish => FinishKeeps(cfg, w);
    case Tick(clock) => TickKeeps(cfg, w, clock);
    case SeeLog(_, _, _, _) => SeeLogKeeps(cfg, w, step);
    case AttestLands(opId, executed) => AttestKeeps(cfg, w, opId, executed);
    case _ => QuietStepKeeps(cfg, w, step);
  }

  predicate Quiet(step: Step) {
    step.ReadBalance? || step.ReadFails? || step.Restart? || step.Seed? || step.Forget? || step.Pause?
  }

  lemma QuietStepKeeps(cfg: Config, w: World, step: Step)
    requires Inv(cfg, w) && Possible(cfg, w, step) && Quiet(step)
    ensures Inv(cfg, Next(cfg, w, step))
  {
    var w' := Next(cfg, w, step);
    if !step.Restart? {
      HistoryStays(cfg, w, w'.(reading := w.reading));
    }
    VerdictsStay(cfg, w, w');
  }

  lemma {:induction false} RunKeeps(cfg: Config, w: World, steps: seq<Step>)
    requires Sound(cfg) && Inv(cfg, w) && PossibleRun(cfg, w, steps)
    ensures Inv(cfg, Run(cfg, w, steps))
    decreases |steps|
  {
    if steps != [] {
      StepKeeps(cfg, w, steps[0]);
      RunKeeps(cfg, Next(cfg, w, steps[0]), steps[1..]);
    }
  }

  // --------------------------------------------------------------- theorems

  /** Whatever happens to the keeper, what its verifier answers is what Core did: the assumption
      the vault's own theorems make of their verdicts. */
  lemma VerdictsAreTruthful(cfg: Config, now: nat, balance: int, steps: seq<Step>, opId: nat)
    requires Sound(cfg) && PossibleRun(cfg, Fresh(cfg, now, balance), steps)
    ensures var w := Run(cfg, Fresh(cfg, now, balance), steps);
      Truthful(Fate(cfg, w), opId, Status(cfg, w, opId))
  {
    var w := Run(cfg, Fresh(cfg, now, balance), steps);
    RunKeeps(cfg, Fresh(cfg, now, balance), steps);
    if opId in w.verifier.attestations {
      assert TrueAttestation(cfg, w, opId, w.verifier.attestations[opId]);
    }
  }

  /** Every attestation still on its way to an operation without a verdict says what Core did:
      neither a true for an operation not executed, nor a false for one that was. */
  lemma SentVerdictsAreRight(cfg: Config, now: nat, balance: int, steps: seq<Step>, opId: nat, executed: bool)
    requires Sound(cfg) && PossibleRun(cfg, Fresh(cfg, now, balance), steps)
    ensures var w := Run(cfg, Fresh(cfg, now, balance), steps);
      (opId, executed) in w.sent && opId !in w.verifier.attestations ==>
        opId == w.op.id && executed == w.op.executedAt.Some?
  {
    RunKeeps(cfg, Fresh(cfg, now, balance), steps);
  }

  /** And with a confident baseline the keeper does decide: it attests true at the first tick that
      reads after the execution, and false at the first one past the timeout without it. */
  lemma ConfidentOpsAreDecided(cfg: Config, w: World, clock: int)
    requires Sound(cfg) && Inv(cfg, w) && Possible(cfg, w, Tick(clock))
    requires w.keeper.pending.Some? && w.keeper.pending.value.confident && Unattested(w, w.keeper.pending.value.opId)
    ensures var id := w.op.id;
      var after := AfterTick(cfg, w, clock);
      && (w.op.executedAt.Some? && w.reading.value.at > w.op.executedAt.value ==> (id, true) in after.sent)
      && (w.op.executedAt.None? && clock - w.keeper.pending.value.firstSeenAt > cfg.timeoutMs ==> (id, false) in after.sent)
  {
  }
}
