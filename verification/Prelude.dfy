/** Vocabulary shared by every component: accounts, transactions, verdicts, scales. */
module Prelude {

  /** An account. Account 0 is the zero address, which is nobody's account. */
  type Address = nat

  const ZERO_ADDRESS: Address := 0

  const WAD: nat := 1_000_000_000_000_000_000
  const BPS: nat := 10_000

  /** A share in basis points. */
  type Bps = n: nat | n <= 10_000
  const MAX_U64: nat := 0xFFFF_FFFF_FFFF_FFFF
  const MAX_U96: nat := 0xFFFF_FFFF_FFFF_FFFF_FFFF_FFFF
  const MAX_U256: nat :=
    0xFFFF_FFFF_FFFF_FFFF_FFFF_FFFF_FFFF_FFFF_FFFF_FFFF_FFFF_FFFF_FFFF_FFFF_FFFF_FFFF

  datatype Option<+T> = None | Some(value: T)

  /** What a transaction does to a state: commit a new one, or revert and leave it alone. */
  datatype Tx<+T> = Done(value: T) | Revert(reason: string)

  /** What the sender of a transaction sees. */
  datatype Receipt = Success | Reverted(reason: string)

  /** The transaction specified by `spec` ran: its effect is `after`, its receipt is `receipt`. */
  ghost predicate Commits<S>(spec: Tx<S>, before: S, after: S, receipt: Receipt) {
    match spec
    case Done(s) => receipt.Success? && after == s
    case Revert(reason) => receipt == Reverted(reason) && after == before
  }

  /** A reverted transaction leaves the state alone. */
  function Settle<S>(tx: Tx<S>, before: S): S {
    match tx
    case Done(s) => s
    case Revert(_) => before
  }

  /** IExecutionVerifier.Status. */
  datatype Verdict = Pending | Executed | Failed

  /** `fate` records what Core did with each operation it has finished with. A verdict is
      truthful when it is Pending or says just that. */
  predicate Truthful(fate: map<nat, bool>, opId: nat, verdict: Verdict) {
    verdict.Pending? || (opId in fate && fate[opId] == verdict.Executed?)
  }

  function Min(a: nat, b: nat): nat { if a <= b then a else b }

  function Max(a: nat, b: nat): nat { if a <= b then b else a }

  /** Subtraction that stops at zero. */
  function Monus(a: nat, b: nat): nat { if a > b then a - b else 0 }
}
