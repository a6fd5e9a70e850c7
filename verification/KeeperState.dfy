/** One vault, its operations on Core, the keeper that watches them and the verifier it attests
    to, as a state machine over chain time in milliseconds. Requests overlap: a balance is read at
    one moment and used at a later one, logs come late, sent attestations land late or never, and
    the keeper may restart at any moment and forget everything. */
module KeeperState {
  import opened BalanceCheck
  import opened Prelude

  /** `minDelay` in seconds, the rest in milliseconds. `window`: an action Core has not executed
      by then is dropped for good. `skew`: how far the keeper's clock may run ahead of the chain.
      `lag`: how long an answer to a balance read may take. */
  datatype Config = Config(minDelay: nat, timeoutMs: nat, window: nat, skew: nat, lag: nat)

  /** What verdicts rest on: a sample old enough to predate the previous operation is too old to
      serve, and nobody gives up on an action that Core may still execute. */
  predicate Sound(cfg: Config) {
    && cfg.skew + cfg.lag + MAX_SAMPLE_AGE_MS + CLOCK_SKEW_MARGIN_MS + 2_000 <= cfg.minDelay * 1_000
    && cfg.window + cfg.skew + cfg.lag + CLOCK_SKEW_MARGIN_MS <= cfg.timeoutMs
  }

  /** The vault's latest operation; `pre` is the balance it found. */
  datatype Op = Op(id: nat, kind: OpType, wei: nat, queuedAt: nat, pre: int, executedAt: Option<nat>)

  /** An OpQueued log. */
  datatype Log = Log(kind: OpType, wei: nat, queuedAt: nat)

  /** Written by KeeperVerifier.attest; the time is in seconds, like block timestamps. */
  datatype Attestation = Attestation(executed: bool, timestamp: nat)

  datatype Verifier = Verifier(attestations: map<nat, Attestation>, paused: bool)

  datatype PendingOp = PendingOp(opId: nat, kind: OpType, wei: nat, baseline: Option<int>,
                                 firstSeenAt: int, confident: bool, holdAlerted: bool)

  /** What the keeper process holds for the vault. */
  datatype Keeper = Keeper(history: seq<Sample>, pending: Option<PendingOp>)

  /** A balance on its way back to the keeper, and when it was read. */
  datatype Reading = Reading(balance: int, at: nat)

  /** `busy`: the operation is neither claimed nor cancelled. `done`: what Core did with earlier
      ones. `quietSince`: the balance did not change between then and the latest operation.
      `taken`: when each sample of the history was read. `sent`: attestations sent and not known
      lost. */
  datatype World = World(now: nat, op: Op, busy: bool, done: map<nat, bool>, quietSince: int, logs: map<nat, Log>,
                         verifier: Verifier, keeper: Keeper, taken: seq<nat>, reading: Option<Reading>,
                         sent: set<(nat, bool)>)

  function Balance(op: Op): int {
    if op.executedAt.Some? then op.pre + ExpectedDelta(op.kind, op.wei) else op.pre
  }

  // --------------------------------------------------------------- verifier

  /** KeeperVerifier.attest, by the keeper: verdicts are written once. */
  function AttestTx(v: Verifier, opId: nat, executed: bool, timestamp: nat): Tx<Verifier> {
    if opId in v.attestations then Revert("ALREADY_ATTESTED") else
    Done(v.(attestations := v.attestations[opId := Attestation(executed, timestamp)]))
  }

  function StatusOf(v: Verifier, opId: nat, minDelay: nat, timestamp: nat): Verdict {
    if v.paused || opId !in v.attestations || timestamp < v.attestations[opId].timestamp + minDelay then Pending else
    if v.attestations[opId].executed then Executed else Failed
  }

  function Status(cfg: Config, w: World, opId: nat): Verdict {
    StatusOf(w.verifier, opId, cfg.minDelay, w.now / 1_000)
  }

  // ----------------------------------------------------------------- keeper

  /** balance.ts track: a vault has one operation at a time, a second is ignored. */
  function Track(k: Keeper, opId: nat, log: Log, baseline: Option<int>, confident: bool, clock: int): Keeper {
    if k.pending.Some? then k else
    k.(pending := Some(PendingOp(opId, log.kind, log.wei, baseline, clock, confident, false)))
  }

  /** The sample that surely predates a block, by its timestamp. */
  function SampleBefore(k: Keeper, queuedAt: nat): Option<Sample> {
    Newest(k.history, queuedAt / 1_000 * 1_000, CLOCK_SKEW_MARGIN_MS, MAX_SAMPLE_AGE_MS)
  }

  /** balance.ts resolveLiveBaseline and track. The block, or the balance, may fail to be read. */
  function Detect(k: Keeper, opId: nat, log: Log, blockRead: bool, current: Option<int>, clock: int): Keeper {
    var sample := if blockRead then SampleBefore(k, log.queuedAt) else None;
    if sample.Some? then Track(k, opId, log, Some(sample.value.balance), true, clock)
    else Track(k, opId, log, current, false, clock)
  }

  function DecisionOn(p: PendingOp, baseline: int, current: int, clock: int, timeoutMs: nat): Decision {
    ResolveBalanceCheck(baseline, current, p.kind, p.wei, clock - p.firstSeenAt, timeoutMs, p.confident)
  }

  /** One tick with the balance just in: what to attest, if anything. */
  function TickVerdict(k: Keeper, current: int, clock: int, timeoutMs: nat): Option<bool> {
    if k.pending.None? || k.pending.value.baseline.None? then None else
    match DecisionOn(k.pending.value, k.pending.value.baseline.value, current, clock, timeoutMs)
    case AttestTrue => Some(true)
    case AttestFalse => Some(false)
    case Hold => None
    case Wait => None
  }

  function TickPending(p: PendingOp, current: int, clock: int, timeoutMs: nat): PendingOp {
    if p.baseline.None? then p.(baseline := Some(current)) else
    if DecisionOn(p, p.baseline.value, current, clock, timeoutMs).Hold? then p.(holdAlerted := true) else p
  }

  /** One tick with the balance just in: what the keeper remembers. */
  function Ticked(k: Keeper, current: int, clock: int, timeoutMs: nat): Keeper {
    Keeper(Push(k.history, Sample(clock, current)),
           if k.pending.Some? then Some(TickPending(k.pending.value, current, clock, timeoutMs)) else None)
  }

  // ------------------------------------------------------------------ steps

  datatype Step =
    | Advance(ms: nat)
    | Queue(kind: OpType, wei: nat)
    | CoreExecutes
    | Finish
    | ReadBalance
    | ReadFails
    | Tick(clock: int)
    | SeeLog(opId: nat, blockRead: bool, current: Option<int>, clock: int)
    | Restart
    | Seed(opId: nat, clock: int)
    | AttestLands(opId: nat, executed: bool)
    | Forget
    | Pause(paused: bool)

  /** The keeper's clock never runs behind by the margin, or ahead by more than `skew`. */
  predicate ClockOk(cfg: Config, now: nat, clock: int) {
    now - CLOCK_SKEW_MARGIN_MS < clock <= now + cfg.skew
  }

  /** What can happen. The vault takes one operation at a time, and finishes it on a verdict. A
      fallback baseline is the balance at some moment after the operation was queued. */
  predicate Possible(cfg: Config, w: World, step: Step) {
    match step
    case Advance(_) => true
    case Queue(_, wei) => !w.busy && wei > 0
    case CoreExecutes => w.op.id > 0 && w.op.executedAt.None? && w.now <= w.op.queuedAt + cfg.window
    case Finish => w.busy && !Status(cfg, w, w.op.id).Pending?
    case ReadBalance => true
    case ReadFails => true
    case Tick(clock) => w.reading.Some? && w.now <= w.reading.value.at + cfg.lag && ClockOk(cfg, w.now, clock)
    case SeeLog(opId, _, current, clock) =>
      opId in w.logs && ClockOk(cfg, w.now, clock)
      && (opId == w.op.id && current.Some? ==> current.value == w.op.pre || current.value == Balance(w.op))
    case Restart => true
    case Seed(opId, clock) => opId in w.logs && ClockOk(cfg, w.now, clock)
    case AttestLands(opId, executed) => (opId, executed) in w.sent
    case Forget => w.keeper.pending.Some? && w.keeper.pending.value.opId in w.verifier.attestations
    case Pause(_) => true
  }

  function Queued(w: World, kind: OpType, wei: nat): World {
    w.(op := Op(w.op.id + 1, kind, wei, w.now, Balance(w.op), None),
       busy := true,
       done := w.done[w.op.id := w.op.executedAt.Some?],
       quietSince := if w.op.executedAt.Some? then w.op.executedAt.value else w.quietSince,
       logs := w.logs[w.op.id + 1 := Log(kind, wei, w.now)])
  }

  function AfterTick(cfg: Config, w: World, clock: int): World
    requires w.reading.Some?
  {
    var r := w.reading.value;
    var verdict := TickVerdict(w.keeper, r.balance, clock, cfg.timeoutMs);
    w.(keeper := Ticked(w.keeper, r.balance, clock, cfg.timeoutMs), taken := Push(w.taken, r.at), reading := None,
       sent := if verdict.Some? then w.sent + {(w.keeper.pending.value.opId, verdict.value)} else w.sent)
  }

  function Next(cfg: Config, w: World, step: Step): World
    requires Possible(cfg, w, step)
  {
    match step
    case Advance(ms) => w.(now := w.now + ms)
    case Queue(kind, wei) => Queued(w, kind, wei)
    case CoreExecutes => w.(op := w.op.(executedAt := Some(w.now)))
    case Finish => w.(busy := false)
    case ReadBalance => w.(reading := Some(Reading(Balance(w.op), w.now)))
    case ReadFails => w.(reading := None)
    case Tick(clock) => AfterTick(cfg, w, clock)
    case SeeLog(opId, blockRead, current, clock) =>
      w.(keeper := Detect(w.keeper, opId, w.logs[opId], blockRead, current, clock))
    case Restart => w.(keeper := Keeper([], None), taken := [], reading := None)
    case Seed(opId, clock) =>
      if Status(cfg, w, opId).Pending?
      then w.(keeper := Track(w.keeper, opId, w.logs[opId], None, false, clock)) else w
    case AttestLands(opId, executed) =>
      w.(verifier := Settle(AttestTx(w.verifier, opId, executed, w.now / 1_000), w.verifier))
    case Forget => w.(keeper := w.keeper.(pending := None))
    case Pause(paused) => w.(verifier := w.verifier.(paused := paused))
  }

  predicate PossibleRun(cfg: Config, w: World, steps: seq<Step>)
    decreases |steps|
  {
    steps == [] || (Possible(cfg, w, steps[0]) && PossibleRun(cfg, Next(cfg, w, steps[0]), steps[1..]))
  }

  function Run(cfg: Config, w: World, steps: seq<Step>): World
    requires PossibleRun(cfg, w, steps)
    decreases |steps|
  {
    if steps == [] then w else Run(cfg, Next(cfg, w, steps[0]), steps[1..])
  }

  /** A vault with no operation yet, a verifier with no verdict, a keeper just started. */
  function Fresh(cfg: Config, now: nat, balance: int): World {
    World(now, Op(0, SplitOp, 1, now, balance, None), false, map[], now - cfg.minDelay * 1_000, map[],
          Verifier(map[], false), Keeper([], None), [], None, {})
  }

  /** What Core did with each operation it has finished with: executed it, or let it go. */
  function Fate(cfg: Config, w: World): map<nat, bool> {
    if w.op.executedAt.Some? then w.done[w.op.id := true] else
    if w.now > w.op.queuedAt + cfg.window then w.done[w.op.id := false] else w.done
  }
}
