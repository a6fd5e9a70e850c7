/** How the keeper reads an operation's outcome off the vault's yes balance on Core. */
module BalanceCheck {
  import opened Prelude

  datatype OpType = SplitOp | MergeOp

  /** What the keeper makes of a balance. */
  datatype Decision = AttestTrue | AttestFalse | Hold | Wait

  /** `readAt` is the keeper's own clock, in milliseconds. */
  datatype Sample = Sample(readAt: int, balance: int)

  /** Ambient samples kept per vault. */
  const HISTORY_LIMIT: nat := 20
  /** How far the keeper's clock may run behind chain time. */
  const CLOCK_SKEW_MARGIN_MS: nat := 2_000
  /** How old a sample may be and still count as a baseline. */
  const MAX_SAMPLE_AGE_MS: nat := 60_000

  /** A split adds to both sides of the vault, a merge takes from both. */
  function ExpectedDelta(kind: OpType, wei: nat): int {
    if kind.SplitOp? then wei else 0 - wei
  }

  function ResolveBalanceCheck(baseline: int, current: int, kind: OpType, wei: nat,
      elapsedMs: int, timeoutMs: nat, confident: bool): Decision
  {
    if current - baseline == ExpectedDelta(kind, wei) then AttestTrue else
    if elapsedMs <= timeoutMs then Wait else
    if confident then AttestFalse else Hold
  }

  /** Appends, and lets the oldest go once there are more than HISTORY_LIMIT. */
  function Push<T>(history: seq<T>, x: T): seq<T> {
    if |history| + 1 > HISTORY_LIMIT then (history + [x])[1..] else history + [x]
  }

  predicate Eligible(s: Sample, beforeMs: int, marginMs: nat, maxAgeMs: nat) {
    beforeMs - marginMs - maxAgeMs <= s.readAt <= beforeMs - marginMs
  }

  /** The newest eligible sample; the first of those with the same reading time. */
  function Newest(samples: seq<Sample>, beforeMs: int, marginMs: nat, maxAgeMs: nat): Option<Sample>
    decreases |samples|
  {
    if samples == [] then None else
    var last := samples[|samples| - 1];
    var best := Newest(samples[..|samples| - 1], beforeMs, marginMs, maxAgeMs);
    if Eligible(last, beforeMs, marginMs, maxAgeMs) && (best.None? || last.readAt > best.value.readAt) then Some(last) else best
  }

  lemma {:induction false} NewestIsNewest(samples: seq<Sample>, beforeMs: int, marginMs: nat, maxAgeMs: nat)
    ensures var best := Newest(samples, beforeMs, marginMs, maxAgeMs);
      && (best.Some? ==> best.value in samples && Eligible(best.value, beforeMs, marginMs, maxAgeMs))
      && (forall s <- samples :: Eligible(s, beforeMs, marginMs, maxAgeMs) ==> best.Some? && s.readAt <= best.value.readAt)
    decreases |samples|
  {
    if samples != [] {
      NewestIsNewest(samples[..|samples| - 1], beforeMs, marginMs, maxAgeMs);
      assert samples == samples[..|samples| - 1] + [samples[|samples| - 1]];
    }
  }

  /** pure.ts newestSampleBefore. */
  method NewestSampleBefore(samples: seq<Sample>, beforeMs: int, marginMs: nat, maxAgeMs: nat) returns (best: Option<Sample>)
    ensures best == Newest(samples, beforeMs, marginMs, maxAgeMs)
    ensures best.Some? ==> best.value in samples && Eligible(best.value, beforeMs, marginMs, maxAgeMs)
    ensures forall s <- samples :: Eligible(s, beforeMs, marginMs, maxAgeMs) ==> best.Some? && s.readAt <= best.value.readAt
  {
    var cutoff := beforeMs - marginMs;
    var floor := cutoff - maxAgeMs;
    best := None;
    for i := 0 to |samples|
      invariant best == Newest(samples[..i], beforeMs, marginMs, maxAgeMs)
    {
      var s := samples[i];
      assert samples[..i + 1][..i] == samples[..i];
      if s.readAt <= cutoff && s.readAt >= floor && (best.None? || s.readAt > best.value.readAt) {
        best := Some(s);
      }
    }
    assert samples[..|samples|] == samples;
    NewestIsNewest(samples, beforeMs, marginMs, maxAgeMs);
  }
}
