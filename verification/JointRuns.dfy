/** The vault and its keeper as one machine. What the vault queues and what Core does with it is
    what the keeper's world is about; what the verifier answers is what the vault acts on. Every run
    of the two is an honest run of the vault, so what VaultTheorems prove holds of it. */
module JointRuns {
  import opened Prelude
  import opened Sums
  import BC = BalanceCheck
  import KS = KeeperState
  import KT = KeeperTheorems
  import VI = VaultInvariants
  import VS = VaultState
  import VT = VaultTheorems

  datatype Config = Config(vault: VS.Config, keeper: KS.Config)

  datatype Joint = Joint(v: VS.World, k: KS.World)

  datatype Step = OfVault(vault: VS.Step) | OfKeeper(keeper: KS.Step)

  // ------------------------------------------------------------------- steps

  /** Something the vault queued Core has neither run nor dropped. */
  predicate OpQueued(v: VS.World) {
    exists i :: 0 <= i < |v.c.queue| && !v.c.queue[i].Send?
  }

  /** The verdict a transaction acts on is the verifier's for its operation. */
  predicate ActsOnVerifier(cfg: Config, j: Joint, step: VS.Step) {
    match step
    case DoClaimDeposit(verdict) => j.v.v.deposit.Deposit? ==> verdict == KS.Status(cfg.keeper, j.k, j.v.v.deposit.opId)
    case DoCancelDeposit(verdict) => j.v.v.deposit.Deposit? ==> verdict == KS.Status(cfg.keeper, j.k, j.v.v.deposit.opId)
    case DoClaimRedeem(verdict) => j.v.v.redeem.Redeem? ==> verdict == KS.Status(cfg.keeper, j.k, j.v.v.redeem.opId)
    case DoCancelRedeem(verdict) => j.v.v.redeem.Redeem? ==> verdict == KS.Status(cfg.keeper, j.k, j.v.v.redeem.opId)
    case _ => true
  }

  /** What the vault's step means to the keeper's world: an operation queued, run or finished. */
  function Driven(cfg: Config, v: VS.World, step: VS.Step): Option<KS.Step> {
    if VS.Transaction(cfg.vault, v, step).Revert? then None else
    var v' := VS.Next(cfg.vault, v, step);
    match step
    case DoDeposit(_, _) => if v'.c.queue != [] then Some(QueueStep(v'.c.queue[|v'.c.queue| - 1])) else None
    case DoRequestRedeem(_, _) => if v'.c.queue != [] then Some(QueueStep(v'.c.queue[|v'.c.queue| - 1])) else None
    case DoClaimDeposit(_) => Some(KS.Finish)
    case DoCancelDeposit(_) => Some(KS.Finish)
    case DoClaimRedeem(_) => Some(KS.Finish)
    case DoCancelRedeem(_) => Some(KS.Finish)
    case CoreProcesses(i, _) =>
      if i < |v.c.queue| && !v.c.queue[i].Send? && v.c.queue[i].opId in v'.c.fate && v'.c.fate[v.c.queue[i].opId]
      then Some(KS.CoreExecutes) else None
    case _ => None
  }

  function QueueStep(a: VS.Action): KS.Step {
    KS.Queue(if a.Split? then BC.SplitOp else BC.MergeOp, a.wei)
  }

  /** Core runs or drops what is queued within its window; the keeper's world never moves on its own
      where the vault or Core moves it. */
  predicate Possible(cfg: Config, j: Joint, step: Step) {
    match step
    case OfVault(s) => VS.CarefulStep(cfg.vault, j.v, s) && ActsOnVerifier(cfg, j, s)
    case OfKeeper(s) =>
      && KS.Possible(cfg.keeper, j.k, s) && !s.Queue? && !s.CoreExecutes? && !s.Finish?
      && (s.Advance? && OpQueued(j.v) ==> j.k.now + s.ms <= j.k.op.queuedAt + cfg.keeper.window)
  }

  function Next(cfg: Config, j: Joint, step: Step): Joint
    requires Possible(cfg, j, step)
  {
    match step
    case OfVault(s) =>
      var driven := Driven(cfg, j.v, s);
      Joint(VS.Next(cfg.vault, j.v, s),
            if driven.Some? && KS.Possible(cfg.keeper, j.k, driven.value)
            then KS.Next(cfg.keeper, j.k, driven.value) else j.k)
    case OfKeeper(s) => Joint(j.v, KS.Next(cfg.keeper, j.k, s))
  }

  predicate PossibleRun(cfg: Config, j: Joint, steps: seq<Step>)
    decreases |steps|
  {
    steps == [] || (Possible(cfg, j, steps[0]) && PossibleRun(cfg, Next(cfg, j, steps[0]), steps[1..]))
  }

  function Run(cfg: Config, j: Joint, steps: seq<Step>): Joint
    requires PossibleRun(cfg, j, steps)
    decreases |steps|
  {
    if steps == [] then j else Run(cfg, Next(cfg, j, steps[0]), steps[1..])
  }

  /** The vault's own steps of a joint run. */
  function VaultSteps(steps: seq<Step>): seq<VS.Step>
    decreases |steps|
  {
    if steps == [] then [] else
    if steps[0].OfVault? then [steps[0].vault] + VaultSteps(steps[1..]) else VaultSteps(steps[1..])
  }

  // --------------------------------------------------------------- agreement

  /** What became of an operation is the same in both. */
  predicate SameFate(j: Joint, id: nat) {
    id in j.v.c.fate ==>
      && 0 < id <= j.k.op.id
      && (id < j.k.op.id ==> id in j.k.done && j.k.done[id] == j.v.c.fate[id])
      && (id == j.k.op.id ==> j.v.c.fate[id] == j.k.op.executedAt.Some?)
  }

  ghost predicate Agree(cfg: Config, j: Joint) {
    && j.k.op.id == j.v.v.nextOpId && (j.k.busy <==> !VS.IsIdle(j.v.v)) && (j.k.busy ==> j.k.op.id > 0)
    && (j.v.v.deposit.Deposit? ==> j.v.v.deposit.opId == j.k.op.id)
    && (j.v.v.redeem.Redeem? ==> j.v.v.redeem.opId == j.k.op.id)
    && (forall id :: SameFate(j, id))
    && (OpQueued(j.v) ==> j.k.op.executedAt.None? && j.k.now <= j.k.op.queuedAt + cfg.keeper.window)
  }

  ghost predicate Inv(cfg: Config, j: Joint) {
    && VI.Inv(cfg.vault, j.v) && VI.UnderWay(cfg.vault, j.v) && KT.Inv(cfg.keeper, j.k) && Agree(cfg, j)
  }

  /** What the verifier says of the vault's operation is what Core did with it. */
  lemma VerdictsMakeStepsTruthful(cfg: Config, j: Joint, step: VS.Step)
    requires KS.Sound(cfg.keeper) && Inv(cfg, j) && ActsOnVerifier(cfg, j, step)
    ensures VS.TruthfulStep(j.v, step)
  {
    var id := j.k.op.id;
    assert SameFate(j, id);
    if id in j.k.verifier.attestations {
      assert KT.TrueAttestation(cfg.keeper, j.k, id, j.k.verifier.attestations[id]);
      if id !in j.v.c.fate {
        assert VI.InQueue(j.v, id);
        assert OpQueued(j.v);
      }
    }
  }

  // ------------------------------------------------------------------- steps

  /** The two stay in agreement when nothing they agree on changes. */
  lemma AgreementStays(cfg: Config, j: Joint, j': Joint)
    requires Agree(cfg, j) && j'.v.c.fate == j.v.c.fate && j'.v.v.nextOpId == j.v.v.nextOpId
    requires j'.v.v.deposit == j.v.v.deposit && j'.v.v.redeem == j.v.v.redeem
    requires j'.k.op == j.k.op && j'.k.busy == j.k.busy && j'.k.done == j.k.done
    requires OpQueued(j'.v) ==> OpQueued(j.v) && j'.k.now <= j.k.op.queuedAt + cfg.keeper.window
    ensures Agree(cfg, j')
  {
    forall id ensures SameFate(j', id) {
      assert SameFate(j, id);
    }
  }

  /** A vault with a decided operation, or none, has only sends queued. */
  lemma NothingQueued(cfg: Config, v: VS.World)
    requires VI.Serial(cfg.vault, v)
    requires v.v.deposit.Deposit? ==> v.v.deposit.opId in v.c.fate
    requires v.v.redeem.Redeem? ==> v.v.redeem.opId in v.c.fate
    ensures !OpQueued(v)
  {
    VI.DecidedNotQueued(cfg.vault, v);
  }

  lemma QueuedAgrees(cfg: Config, j: Joint, s: VS.Step)
    requires Inv(cfg, j) && Possible(cfg, j, OfVault(s)) && (s.DoDeposit? || s.DoRequestRedeem?)
    requires VS.Transaction(cfg.vault, j.v, s).Done?
    ensures var d := Driven(cfg, j.v, s); d.Some? && d.value.Queue? && KS.Possible(cfg.keeper, j.k, d.value)
    ensures Agree(cfg, Next(cfg, j, OfVault(s)))
  {
    var j' := Next(cfg, j, OfVault(s));
    assert j'.v.c.queue[|j'.v.c.queue| - 1] == j'.v.c.queue[|j.v.c.queue|];
    forall id ensures SameFate(j', id) {
      assert SameFate(j, id);
    }
  }

  /** Finishing an operation empties its slot, decides nothing, and may add a send. */
  lemma FinishedSlots(cfg: Config, v: VS.World, s: VS.Step)
    requires VI.Serial(cfg.vault, v) && VS.TruthfulStep(v, s) && Finishes(s) && VS.Transaction(cfg.vault, v, s).Done?
    ensures var v' := VS.Next(cfg.vault, v, s);
      && VS.IsIdle(v'.v) && !VS.IsIdle(v.v) && !OpQueued(v')
      && v'.c.fate == v.c.fate && v'.v.nextOpId == v.v.nextOpId
  {
    var v' := VS.Next(cfg.vault, v, s);
    if s.DoCancelDeposit? {
      VI.PayOutEffect(cfg.vault, v.(v := v.v.(deposit := VS.NoDeposit)), v.v.deposit.user, v.v.deposit.amount);
    } else if s.DoClaimRedeem? {
      VI.PayOutEffect(cfg.vault, v.(v := v.v.(redeem := VS.NoRedeem)), v.v.redeem.user, v.v.redeem.amount);
    }
    VI.SerialStep(cfg.vault, v, s);
    NothingQueued(cfg, v');
  }

  predicate Finishes(s: VS.Step) {
    s.DoClaimDeposit? || s.DoCancelDeposit? || s.DoClaimRedeem? || s.DoCancelRedeem?
  }

  lemma FinishedAgrees(cfg: Config, j: Joint, s: VS.Step)
    requires Inv(cfg, j) && Possible(cfg, j, OfVault(s)) && VS.TruthfulStep(j.v, s)
    requires Finishes(s) && VS.Transaction(cfg.vault, j.v, s).Done?
    ensures Driven(cfg, j.v, s) == Some(KS.Finish) && KS.Possible(cfg.keeper, j.k, KS.Finish)
    ensures Agree(cfg, Next(cfg, j, OfVault(s)))
  {
    FinishedSlots(cfg, j.v, s);
    forall id ensures SameFate(Next(cfg, j, OfVault(s)), id) {
      assert SameFate(j, id);
    }
  }

  lemma SendProcessedAgrees(cfg: Config, j: Joint, i: nat, dropped: bool)
    requires Agree(cfg, j) && i < |j.v.c.queue| && j.v.c.queue[i].Send?
    ensures Agree(cfg, j.(v := VS.ProcessAction(cfg.vault, j.v, i, dropped)))
  {
    var v' := VS.ProcessAction(cfg.vault, j.v, i, dropped);
    forall k | 0 <= k < |v'.c.queue| && !v'.c.queue[k].Send? ensures OpQueued(j.v) {
      assert v'.c.queue[k] == j.v.c.queue[if k < i then k else k + 1];
    }
    AgreementStays(cfg, j, j.(v := v'));
  }

  lemma OpProcessedAgrees(cfg: Config, j: Joint, i: nat, dropped: bool)
    requires Inv(cfg, j) && i < |j.v.c.queue| && !j.v.c.queue[i].Send?
    ensures KS.Possible(cfg.keeper, j.k, KS.CoreExecutes)
    ensures var v' := VS.ProcessAction(cfg.vault, j.v, i, dropped);
      var id := j.v.c.queue[i].opId;
      && id in v'.c.fate
      && Agree(cfg, Joint(v', if v'.c.fate[id] then KS.Next(cfg.keeper, j.k, KS.CoreExecutes) else j.k))
  {
    var v', id := VS.ProcessAction(cfg.vault, j.v, i, dropped), j.v.c.queue[i].opId;
    assert VI.MatchesSlot(cfg.vault, j.v, j.v.c.queue[i]);
    assert OpQueued(j.v);
    VI.ProcessSerial(cfg.vault, j.v, i, dropped);
    NothingQueued(cfg, v');
    var j' := Joint(v', if v'.c.fate[id] then KS.Next(cfg.keeper, j.k, KS.CoreExecutes) else j.k);
    forall k ensures SameFate(j', k) {
      assert SameFate(j, k);
    }
  }

  lemma ProcessedAgrees(cfg: Config, j: Joint, i: nat, dropped: bool)
    requires Inv(cfg, j)
    ensures var d := Driven(cfg, j.v, VS.CoreProcesses(i, dropped)); d.Some? ==> KS.Possible(cfg.keeper, j.k, d.value)
    ensures Agree(cfg, Next(cfg, j, OfVault(VS.CoreProcesses(i, dropped))))
  {
    if i < |j.v.c.queue| {
      if j.v.c.queue[i].Send? {
        SendProcessedAgrees(cfg, j, i, dropped);
      } else {
        OpProcessedAgrees(cfg, j, i, dropped);
      }
    }
  }

  predicate Drives(s: VS.Step) {
    s.DoDeposit? || s.DoRequestRedeem? || s.DoClaimDeposit? || s.DoCancelDeposit? || s.DoClaimRedeem? || s.DoCancelRedeem?
    || s.CoreProcesses?
  }

  lemma OthersAgree(cfg: Config, j: Joint, s: VS.Step)
    requires Agree(cfg, j) && Possible(cfg, j, OfVault(s)) && !Drives(s)
    ensures Agree(cfg, Next(cfg, j, OfVault(s)))
  {
    var j' := Next(cfg, j, OfVault(s));
    forall i | 0 <= i < |j'.v.c.queue| && !j'.v.c.queue[i].Send? ensures OpQueued(j.v) {
      assert i < |j.v.c.queue| && j.v.c.queue[i] == j'.v.c.queue[i];
    }
    AgreementStays(cfg, j, j');
  }

  lemma VaultStepAgrees(cfg: Config, j: Joint, s: VS.Step)
    requires Inv(cfg, j) && Possible(cfg, j, OfVault(s)) && VS.TruthfulStep(j.v, s)
    ensures var d := Driven(cfg, j.v, s); d.Some? ==> KS.Possible(cfg.keeper, j.k, d.value)
    ensures Agree(cfg, Next(cfg, j, OfVault(s)))
  {
    if s.CoreProcesses? {
      ProcessedAgrees(cfg, j, s.i, s.dropped);
    } else if !Drives(s) {
      OthersAgree(cfg, j, s);
    } else if VS.Transaction(cfg.vault, j.v, s).Done? {
      if s.DoDeposit? || s.DoRequestRedeem? {
        QueuedAgrees(cfg, j, s);
      } else {
        FinishedAgrees(cfg, j, s);
      }
    }
  }

  lemma KeeperStepAgrees(cfg: Config, j: Joint, s: KS.Step)
    requires Agree(cfg, j) && Possible(cfg, j, OfKeeper(s))
    ensures Agree(cfg, Next(cfg, j, OfKeeper(s)))
  {
    AgreementStays(cfg, j, Next(cfg, j, OfKeeper(s)));
  }

  lemma StepKeeps(cfg: Config, j: Joint, step: Step)
    requires KS.Sound(cfg.keeper) && Inv(cfg, j) && Possible(cfg, j, step)
    ensures Inv(cfg, Next(cfg, j, step))
    ensures step.OfVault? ==> VS.TruthfulStep(j.v, step.vault)
  {
    match step
    case OfVault(s) =>
      VerdictsMakeStepsTruthful(cfg, j, s);
      VI.StepKeeps(cfg.vault, j.v, s);
      VI.StepUnderWay(cfg.vault, j.v, s);
      VaultStepAgrees(cfg, j, s);
      if Driven(cfg, j.v, s).Some? {
        KT.StepKeeps(cfg.keeper, j.k, Driven(cfg, j.v, s).value);
      }
    case OfKeeper(s) =>
      KT.StepKeeps(cfg.keeper, j.k, s);
      KeeperStepAgrees(cfg, j, s);
  }

  // ---------------------------------------------------------------- theorems

  /** A new vault, and a keeper that has seen nothing yet. */
  predicate Fresh(cfg: Config, j: Joint, now: nat, balance: int) {
    VS.Fresh(j.v) && j.k == KS.Fresh(cfg.keeper, now, balance)
  }

  lemma FreshInv(cfg: Config, j: Joint, now: nat, balance: int)
    requires Fresh(cfg, j, now, balance)
    ensures Inv(cfg, j)
  {
    VI.FreshInv(cfg.vault, j.v);
  }

  lemma {:induction false} RunIsHonest(cfg: Config, j: Joint, steps: seq<Step>)
    requires KS.Sound(cfg.keeper) && Inv(cfg, j) && PossibleRun(cfg, j, steps)
    ensures VS.HonestRun(cfg.vault, j.v, VaultSteps(steps))
    ensures VS.Run(cfg.vault, j.v, VaultSteps(steps)) == Run(cfg, j, steps).v
    ensures Inv(cfg, Run(cfg, j, steps))
    decreases |steps|
  {
    if steps != [] {
      StepKeeps(cfg, j, steps[0]);
      RunIsHonest(cfg, Next(cfg, j, steps[0]), steps[1..]);
      if steps[0].OfVault? {
        assert VaultSteps(steps)[1..] == VaultSteps(steps[1..]);
      }
    }
  }

  /** Every run of a new vault watched by a new keeper is an honest run of the vault, its clears being
      careful: the verdicts it acts on are truthful because the keeper's are. What the vault and
      the keeper's world say became of an operation never differs. */
  lemma JointRunsAreHonest(cfg: Config, start: Joint, now: nat, balance: int, steps: seq<Step>)
    requires KS.Sound(cfg.keeper) && Fresh(cfg, start, now, balance) && PossibleRun(cfg, start, steps)
    ensures VS.HonestRun(cfg.vault, start.v, VaultSteps(steps))
    ensures VS.Run(cfg.vault, start.v, VaultSteps(steps)) == Run(cfg, start, steps).v
    ensures Agree(cfg, Run(cfg, start, steps))
  {
    FreshInv(cfg, start, now, balance);
    RunIsHonest(cfg, start, steps);
  }

  /** So everything users are owed is covered in it, with no assumption about verdicts left. */
  lemma JointRunsAreCovered(cfg: Config, start: Joint, now: nat, balance: int, steps: seq<Step>, user: Address)
    requires KS.Sound(cfg.keeper) && Fresh(cfg, start, now, balance) && PossibleRun(cfg, start, steps)
    ensures var v := Run(cfg, start, steps).v; VT.Covers(cfg.vault, v) && Balance(v.v.owed, user) <= v.v.totalOwed
  {
    JointRunsAreHonest(cfg, start, now, balance, steps);
    VT.OwedIsCovered(cfg.vault, start.v, VaultSteps(steps), user);
  }
}
