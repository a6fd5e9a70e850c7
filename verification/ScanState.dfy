/** The poker's resumable scan of the chain, as a value: which tickets it takes to be open, and
    which block it reads next. Any chunk of any scan may fail, any read of a ticket's legs may
    fail, and the seed reads different tickets at different blocks. */
module ScanState {
  import opened Prelude

  /** What a block holds for the poker: tickets minted, tickets resolved. */
  datatype Block = Block(minted: seq<nat>, resolved: seq<nat>)

  predicate MintedIn(blocks: seq<Block>, id: nat, from: nat, upto: nat) {
    exists b :: from <= b < upto && b < |blocks| && id in blocks[b].minted
  }

  predicate ResolvedIn(blocks: seq<Block>, id: nat, from: nat, upto: nat) {
    exists b :: from <= b < upto && b < |blocks| && id in blocks[b].resolved
  }

  /** Ids are minted once, and resolved only after: what the contract guarantees. */
  predicate WellFormed(blocks: seq<Block>) {
    && (forall b, c, id :: 0 <= b < |blocks| && 0 <= c < |blocks| && id in blocks[b].minted && id in blocks[c].minted ==> b == c)
    && (forall b, id :: 0 <= b < |blocks| && id in blocks[b].resolved ==> MintedIn(blocks, id, 0, b + 1))
  }

  /** Open on chain once the blocks before `n` have run. */
  predicate OpenBefore(blocks: seq<Block>, id: nat, n: nat) {
    MintedIn(blocks, id, 0, n) && !ResolvedIn(blocks, id, 0, n)
  }

  /** Everything minted in the blocks from `from` and before `upto`, in order. */
  function MintLogs(blocks: seq<Block>, from: nat, upto: nat): seq<nat>
    requires from <= upto <= |blocks|
    decreases upto
  {
    if from == upto then [] else MintLogs(blocks, from, upto - 1) + blocks[upto - 1].minted
  }

  function ResolveLogs(blocks: seq<Block>, from: nat, upto: nat): seq<nat>
    requires from <= upto <= |blocks|
    decreases upto
  {
    if from == upto then [] else ResolveLogs(blocks, from, upto - 1) + blocks[upto - 1].resolved
  }

  lemma {:induction false} MintLogsAreMints(blocks: seq<Block>, from: nat, upto: nat, id: nat)
    requires from <= upto <= |blocks|
    ensures id in MintLogs(blocks, from, upto) <==> MintedIn(blocks, id, from, upto)
    decreases upto
  {
    if from != upto {
      MintLogsAreMints(blocks, from, upto - 1, id);
      assert id in blocks[upto - 1].minted ==> MintedIn(blocks, id, from, upto);
    }
  }

  lemma {:induction false} ResolveLogsAreResolutions(blocks: seq<Block>, from: nat, upto: nat, id: nat)
    requires from <= upto <= |blocks|
    ensures id in ResolveLogs(blocks, from, upto) <==> ResolvedIn(blocks, id, from, upto)
    decreases upto
  {
    if from != upto {
      ResolveLogsAreResolutions(blocks, from, upto - 1, id);
      assert id in blocks[upto - 1].resolved ==> ResolvedIn(blocks, id, from, upto);
    }
  }

  lemma LogsAreEvents(blocks: seq<Block>, from: nat, upto: nat, id: nat)
    requires from <= upto <= |blocks|
    ensures id in MintLogs(blocks, from, upto) <==> MintedIn(blocks, id, from, upto)
    ensures id in ResolveLogs(blocks, from, upto) <==> ResolvedIn(blocks, id, from, upto)
  {
    MintLogsAreMints(blocks, from, upto, id);
    ResolveLogsAreResolutions(blocks, from, upto, id);
  }

  lemma {:induction false} LogsConcat(blocks: seq<Block>, a: nat, b: nat, c: nat)
    requires a <= b <= c <= |blocks|
    ensures MintLogs(blocks, a, c) == MintLogs(blocks, a, b) + MintLogs(blocks, b, c)
    ensures ResolveLogs(blocks, a, c) == ResolveLogs(blocks, a, b) + ResolveLogs(blocks, b, c)
    decreases c
  {
    if b < c {
      LogsConcat(blocks, a, b, c - 1);
    }
  }

  // ------------------------------------------------------------------- scan

  /** `next` is the block the scan resumes from. `ahead`: the tickets minted there or later whose legs
      a tick has read already, before it failed on others. */
  datatype Scan = Scan(open: set<nat>, next: nat, ahead: set<nat>)

  /** What the seed may have read: tickets not resolved by `head`, each looked at somewhere in the
      blocks before `seen`; and no ticket minted by `head` missed unless it was resolved by then. */
  predicate SeedReads(blocks: seq<Block>, open: set<nat>, head: nat, seen: nat) {
    && head < seen <= |blocks|
    && (forall id :: id in open ==> MintedIn(blocks, id, 0, seen) && !ResolvedIn(blocks, id, 0, head + 1))
    && (forall b, id :: 0 <= b <= head && id in blocks[b].minted ==> id in open || ResolvedIn(blocks, id, 0, seen))
  }

  /** After the seed, the scan resumes at the index checkpoint, or right after the head. */
  function Seeded(open: set<nat>, head: nat, checkpoint: Option<nat>): Scan {
    var resume := match checkpoint case Some(b) => b case None => head + 1;
    Scan(open, Min(resume, head + 1), {})
  }

  function Ids(logs: seq<nat>): set<nat> {
    set id | id in logs
  }

  /** A tick that got the logs before block `upto` and read the legs of the first `legsRead` mints. It only
      moves on if it read them all. */
  function Ticked(blocks: seq<Block>, s: Scan, upto: nat, legsRead: nat): Scan
    requires s.next <= upto <= |blocks|
  {
    var minted := MintLogs(blocks, s.next, upto);
    if legsRead < |minted| then
      Scan(s.open + Ids(minted[..legsRead]), s.next, s.ahead + Ids(minted[..legsRead]))
    else
      Scan(s.open + Ids(minted) - Ids(ResolveLogs(blocks, s.next, upto)), upto, s.ahead - Ids(minted))
  }

  /** One tick: how far the logs came, and how many legs could be read. A fetch that reaches
      nothing, or a head behind the scan, is `upto` at the scan itself. */
  datatype Tick = Tick(upto: nat, legsRead: nat)

  predicate Possible(blocks: seq<Block>, s: Scan, t: Tick) {
    s.next <= t.upto <= |blocks|
  }

  predicate PossibleRun(blocks: seq<Block>, s: Scan, ticks: seq<Tick>)
    decreases |ticks|
  {
    ticks == [] || (Possible(blocks, s, ticks[0])
                    && PossibleRun(blocks, Ticked(blocks, s, ticks[0].upto, ticks[0].legsRead), ticks[1..]))
  }

  function Run(blocks: seq<Block>, s: Scan, ticks: seq<Tick>): Scan
    requires PossibleRun(blocks, s, ticks)
    decreases |ticks|
  {
    if ticks == [] then s
    else Run(blocks, Ticked(blocks, s, ticks[0].upto, ticks[0].legsRead), ticks[1..])
  }

  // -------------------------------------------------------------- invariant

  /** The open set is the chain's at the scan position, and what was read ahead; give or take the
      tickets the seed saw before `seen`. */
  predicate Tracks(blocks: seq<Block>, s: Scan, seen: nat) {
    && s.next <= |blocks|
    && (forall id <- s.ahead :: id in s.open && MintedIn(blocks, id, s.next, |blocks|))
    && (forall id <- s.open :: OpenBefore(blocks, id, s.next) || id in s.ahead || MintedIn(blocks, id, s.next, seen))
    && (forall b, id :: 0 <= b < s.next && id in blocks[b].minted && OpenBefore(blocks, id, s.next) ==>
          id in s.open || ResolvedIn(blocks, id, s.next, seen))
  }

  lemma SeedTracks(blocks: seq<Block>, open: set<nat>, head: nat, seen: nat, checkpoint: Option<nat>)
    requires SeedReads(blocks, open, head, seen)
    ensures Tracks(blocks, Seeded(open, head, checkpoint), seen)
  {
    var s := Seeded(open, head, checkpoint);
    forall id | id in open ensures OpenBefore(blocks, id, s.next) || MintedIn(blocks, id, s.next, seen) {
      Widen(blocks, id, 0, s.next, 0, head + 1);
      Split(blocks, id, 0, s.next, seen);
    }
    forall b, id | 0 <= b < s.next && id in blocks[b].minted && OpenBefore(blocks, id, s.next)
      ensures id in s.open || ResolvedIn(blocks, id, s.next, seen)
    {
      Split(blocks, id, 0, s.next, seen);
    }
  }

  lemma Widen(blocks: seq<Block>, id: nat, from: nat, upto: nat, from': nat, upto': nat)
    requires from' <= from && upto <= upto'
    ensures MintedIn(blocks, id, from, upto) ==> MintedIn(blocks, id, from', upto')
    ensures ResolvedIn(blocks, id, from, upto) ==> ResolvedIn(blocks, id, from', upto')
  {
  }

  lemma Split(blocks: seq<Block>, id: nat, a: nat, b: nat, c: nat)
    ensures ResolvedIn(blocks, id, a, c) ==> ResolvedIn(blocks, id, a, b) || ResolvedIn(blocks, id, b, c)
    ensures MintedIn(blocks, id, a, c) ==> MintedIn(blocks, id, a, b) || MintedIn(blocks, id, b, c)
  {
  }

  /** A ticket minted at or after `from` was not resolved before. */
  lemma NotYetResolved(blocks: seq<Block>, id: nat, from: nat, upto: nat)
    requires WellFormed(blocks) && MintedIn(blocks, id, from, upto)
    ensures !ResolvedIn(blocks, id, 0, from)
  {
    var m :| from <= m < upto && m < |blocks| && id in blocks[m].minted;
    assert forall r :: 0 <= r < |blocks| && id in blocks[r].resolved ==> MintedIn(blocks, id, 0, r + 1);
    assert forall n :: MintedIn(blocks, id, 0, n) ==> m < n;
  }

  lemma TickKeepsAhead(blocks: seq<Block>, s: Scan, seen: nat, upto: nat, legsRead: nat, id: nat)
    requires WellFormed(blocks) && Tracks(blocks, s, seen) && s.next <= upto <= |blocks|
    requires id in Ticked(blocks, s, upto, legsRead).ahead
    ensures var s' := Ticked(blocks, s, upto, legsRead); id in s'.open && MintedIn(blocks, id, s'.next, |blocks|)
  {
    var s' := Ticked(blocks, s, upto, legsRead);
    LogsAreEvents(blocks, s.next, upto, id);
    if id in s.ahead {
      Split(blocks, id, s.next, s'.next, |blocks|);
      if s'.next == upto && MintedIn(blocks, id, upto, |blocks|) {
        NotYetResolved(blocks, id, upto, |blocks|);
        Widen(blocks, id, s.next, upto, 0, upto);
      }
    } else {
      Widen(blocks, id, s.next, upto, s.next, |blocks|);
    }
  }

  lemma TickOpensOnlyMinted(blocks: seq<Block>, s: Scan, seen: nat, upto: nat, legsRead: nat, id: nat)
    requires WellFormed(blocks) && Tracks(blocks, s, seen) && s.next <= upto <= |blocks|
    requires id in Ticked(blocks, s, upto, legsRead).open
    ensures var s' := Ticked(blocks, s, upto, legsRead);
      OpenBefore(blocks, id, s'.next) || id in s'.ahead || MintedIn(blocks, id, s'.next, seen)
  {
    var s' := Ticked(blocks, s, upto, legsRead);
    LogsAreEvents(blocks, s.next, upto, id);
    Split(blocks, id, 0, s.next, s'.next);
    Widen(blocks, id, 0, s.next, 0, s'.next);
    Widen(blocks, id, s.next, s'.next, 0, s'.next);
    Split(blocks, id, s.next, s'.next, seen);
    if MintedIn(blocks, id, s.next, upto) {
      NotYetResolved(blocks, id, s.next, upto);
    }
  }

  lemma TickMissesNothing(blocks: seq<Block>, s: Scan, seen: nat, upto: nat, legsRead: nat, id: nat)
    requires WellFormed(blocks) && Tracks(blocks, s, seen) && s.next <= upto <= |blocks|
    requires OpenBefore(blocks, id, Ticked(blocks, s, upto, legsRead).next)
    ensures var s' := Ticked(blocks, s, upto, legsRead);
      id in s'.open || ResolvedIn(blocks, id, s'.next, seen)
  {
    var s' := Ticked(blocks, s, upto, legsRead);
    LogsAreEvents(blocks, s.next, upto, id);
    Widen(blocks, id, 0, s.next, 0, s'.next);
    Widen(blocks, id, s.next, s'.next, 0, s'.next);
    Split(blocks, id, 0, s.next, s'.next);
    if MintedIn(blocks, id, 0, s.next) {
      var b :| 0 <= b < s.next && b < |blocks| && id in blocks[b].minted;
      Split(blocks, id, s.next, s'.next, seen);
    }
  }

  lemma TickTracks(blocks: seq<Block>, s: Scan, seen: nat, upto: nat, legsRead: nat)
    requires WellFormed(blocks) && Tracks(blocks, s, seen) && s.next <= upto <= |blocks|
    ensures Tracks(blocks, Ticked(blocks, s, upto, legsRead), seen)
  {
    var s' := Ticked(blocks, s, upto, legsRead);
    forall id | id in s'.ahead ensures id in s'.open && MintedIn(blocks, id, s'.next, |blocks|) {
      TickKeepsAhead(blocks, s, seen, upto, legsRead, id);
    }
    forall id | id in s'.open
      ensures OpenBefore(blocks, id, s'.next) || id in s'.ahead || MintedIn(blocks, id, s'.next, seen)
    {
      TickOpensOnlyMinted(blocks, s, seen, upto, legsRead, id);
    }
    forall b, id | 0 <= b < s'.next && id in blocks[b].minted && OpenBefore(blocks, id, s'.next)
      ensures id in s'.open || ResolvedIn(blocks, id, s'.next, seen)
    {
      TickMissesNothing(blocks, s, seen, upto, legsRead, id);
    }
  }

  lemma {:induction false} RunTracks(blocks: seq<Block>, s: Scan, seen: nat, ticks: seq<Tick>)
    requires WellFormed(blocks) && Tracks(blocks, s, seen) && PossibleRun(blocks, s, ticks)
    ensures Tracks(blocks, Run(blocks, s, ticks), seen) && s.next <= Run(blocks, s, ticks).next
    decreases |ticks|
  {
    if ticks != [] {
      TickTracks(blocks, s, seen, ticks[0].upto, ticks[0].legsRead);
      RunTracks(blocks, Ticked(blocks, s, ticks[0].upto, ticks[0].legsRead), seen, ticks[1..]);
    }
  }

  /** The open set is the chain's at the scan position. */
  ghost predicate Exact(blocks: seq<Block>, s: Scan) {
    forall id :: id in s.open <==> OpenBefore(blocks, id, s.next)
  }

  /** Across any sequence of ticks, with any failures and retries: once the scan has passed what the
      seed read, the open set is exactly the chain's open tickets at the scan position and those
      read ahead of it by ticks that failed half way. So it is the chain's if and only if there are
      none of those. Before, it differs from that only in what the seed saw there. */
  lemma OpenSetIsTheChains(blocks: seq<Block>, open: set<nat>, head: nat, seen: nat, checkpoint: Option<nat>,
                           ticks: seq<Tick>, id: nat)
    requires WellFormed(blocks) && SeedReads(blocks, open, head, seen)
    requires PossibleRun(blocks, Seeded(open, head, checkpoint), ticks)
    ensures var s := Run(blocks, Seeded(open, head, checkpoint), ticks);
      && (seen <= s.next ==> (id in s.open <==> OpenBefore(blocks, id, s.next) || id in s.ahead))
      && (seen <= s.next ==> (Exact(blocks, s) <==> s.ahead == {}))
      && (id in s.ahead ==> MintedIn(blocks, id, s.next, |blocks|))
      && ((id in s.open) != (OpenBefore(blocks, id, s.next) || id in s.ahead) ==>
            MintedIn(blocks, id, s.next, seen) || ResolvedIn(blocks, id, s.next, seen))
  {
    SeedTracks(blocks, open, head, seen, checkpoint);
    RunTracks(blocks, Seeded(open, head, checkpoint), seen, ticks);
    var s := Run(blocks, Seeded(open, head, checkpoint), ticks);
    forall k ensures seen <= s.next ==> (k in s.open <==> OpenBefore(blocks, k, s.next) || k in s.ahead) {
      OpenMatches(blocks, s, seen, k);
    }
    OpenMatches(blocks, s, seen, id);
    if s.ahead != {} {
      var k :| k in s.ahead;
      AheadIsNotOpenBefore(blocks, k, s.next);
    }
  }

  lemma OpenMatches(blocks: seq<Block>, s: Scan, seen: nat, id: nat)
    requires Tracks(blocks, s, seen)
    ensures (id in s.open) != (OpenBefore(blocks, id, s.next) || id in s.ahead) ==>
      MintedIn(blocks, id, s.next, seen) || ResolvedIn(blocks, id, s.next, seen)
  {
    if OpenBefore(blocks, id, s.next) {
      var b :| 0 <= b < s.next && b < |blocks| && id in blocks[b].minted;
    }
  }

  lemma AheadIsNotOpenBefore(blocks: seq<Block>, id: nat, next: nat)
    requires WellFormed(blocks) && MintedIn(blocks, id, next, |blocks|)
    ensures !OpenBefore(blocks, id, next)
  {
  }

  /** Block 2 mints tickets 8 and 9; the legs of 9 cannot be read; the retry's logs only come as
      far as block 1. */
  const THREE_BLOCKS: seq<Block> := [Block([], []), Block([], []), Block([8, 9], [])]
  const HALF_FAILED: seq<Tick> := [Tick(3, 1), Tick(2, 0)]

  lemma HalfFailedTicks()
    ensures Ticked(THREE_BLOCKS, Seeded({}, 0, None), 3, 1) == Scan({8}, 1, {8})
    ensures Ticked(THREE_BLOCKS, Scan({8}, 1, {8}), 2, 0) == Scan({8}, 2, {8})
  {
    NothingLogged(THREE_BLOCKS, 1);
    assert MintLogs(THREE_BLOCKS, 1, 3) == MintLogs(THREE_BLOCKS, 1, 2) + [8, 9] == [8, 9];
    assert [8, 9][..1] == [8];
    assert {} + Ids([8]) == {8};
  }

  lemma HalfFailedRun()
    ensures PossibleRun(THREE_BLOCKS, Seeded({}, 0, None), HALF_FAILED)
    ensures Run(THREE_BLOCKS, Seeded({}, 0, None), HALF_FAILED) == Scan({8}, 2, {8})
  {
    HalfFailedTicks();
    var rest := HALF_FAILED[1..];
    assert rest == [Tick(2, 0)] && rest[1..] == [];
    assert PossibleRun(THREE_BLOCKS, Scan({8}, 2, {8}), rest[1..]);
    assert Run(THREE_BLOCKS, Scan({8}, 1, {8}), rest) == Run(THREE_BLOCKS, Scan({8}, 2, {8}), rest[1..]);
  }

  /** A half-failed tick really can leave a ticket open that the scan position has not reached, past
      everything the seed read. */
  lemma HalfFailedTickReadsAhead()
    ensures WellFormed(THREE_BLOCKS) && SeedReads(THREE_BLOCKS, {}, 0, 1)
    ensures PossibleRun(THREE_BLOCKS, Seeded({}, 0, None), HALF_FAILED)
    ensures var s := Run(THREE_BLOCKS, Seeded({}, 0, None), HALF_FAILED);
      s.next == 2 && s.ahead == {8} && 8 in s.open && !OpenBefore(THREE_BLOCKS, 8, s.next)
  {
    HalfFailedRun();
    assert !MintedIn(THREE_BLOCKS, 8, 0, 2);
  }

  lemma NothingLogged(blocks: seq<Block>, b: nat)
    requires b < |blocks| && blocks[b] == Block([], [])
    ensures MintLogs(blocks, b, b + 1) == [] && ResolveLogs(blocks, b, b + 1) == []
  {
    assert MintLogs(blocks, b, b) == [] && ResolveLogs(blocks, b, b) == [];
  }
}
