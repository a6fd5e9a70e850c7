/** The poker: it follows the chain in resumable scans, keeps the exposure book in step with it,
    and pokes the parlays that can no longer pay out. */
module Poker {
  import opened ExposureBook
  import ES = ExposureState
  import ET = ExposureTheorems
  import opened LegOutcomes
  import opened ParlayTheorems
  import opened Prelude
  import opened ScanState

  /** What the chain says of a ticket: the quote it came from, the house's risk, its legs. */
  datatype TicketInfo = TicketInfo(quoteId: nat, risk: nat, legs: seq<Leg>)

  function Vaults(legs: seq<Leg>): seq<Address> {
    seq(|legs|, i requires 0 <= i < |legs| => legs[i].vault)
  }

  /** Inclusive ranges in order from `from`, without a gap, all of `size` blocks but one that ends
      at `last`. */
  predicate Chained(ranges: seq<(nat, nat)>, from: nat, last: nat, size: nat)
    requires size > 0
  {
    && (ranges != [] ==> ranges[0].0 == from)
    && (forall i :: 0 <= i < |ranges| ==> ranges[i].0 <= ranges[i].1 == Min(ranges[i].0 + size - 1, last))
    && (forall i :: 0 < i < |ranges| ==> ranges[i].0 == ranges[i - 1].1 + 1)
  }

  /** Where the next range begins. */
  function After(ranges: seq<(nat, nat)>, from: nat): nat {
    if ranges == [] then from else ranges[|ranges| - 1].1 + 1
  }

  lemma ChainOneMore(ranges: seq<(nat, nat)>, from: nat, last: nat, size: nat)
    requires size > 0 && Chained(ranges, from, last, size) && After(ranges, from) <= last
    ensures var end := Min(After(ranges, from) + size - 1, last);
      var longer := ranges + [(After(ranges, from), end)];
      Chained(longer, from, last, size) && After(longer, from) == end + 1
  {
  }

  /** poker.ts blockRanges: the ranges tile [from, last]. */
  method BlockRanges(from: nat, last: nat, size: nat) returns (ranges: seq<(nat, nat)>)
    requires size > 0
    ensures Chained(ranges, from, last, size) && After(ranges, from) == Max(from, last + 1)
  {
    ranges := [];
    var start := from;
    while start <= last
      invariant Chained(ranges, from, last, size)
      invariant After(ranges, from) == (if from <= last then Min(start, last + 1) else start)
      decreases last + size - start
    {
      var end := if start + size - 1 > last then last else start + size - 1;
      ChainOneMore(ranges, from, last, size);
      ranges := ranges + [(start, end)];
      start := start + size;
    }
  }

  /** poker.ts fetchEvents: chunk by chunk up to the head. Completed chunks are kept; the first
      that fails, the `okChunks`-th, ends the scan for now. What comes back is exactly the logs of
      the blocks from `from` and before `next`: no gap, nothing skipped. */
  method FetchEvents(blocks: seq<Block>, from: nat, head: nat, okChunks: nat)
    returns (minted: seq<nat>, resolved: seq<nat>, next: nat)
    requires head < |blocks| && from <= |blocks|
    ensures from <= next <= Max(head + 1, from)
    ensures minted == MintLogs(blocks, from, next) && resolved == ResolveLogs(blocks, from, next)
    ensures next == Max(from, Min(from + okChunks * 100, head + 1))
  {
    minted, resolved, next := [], [], from;
    if head < from {
      return;
    }
    var ranges := BlockRanges(from, head, 100);
    for i := 0 to |ranges|
      invariant from <= next <= head + 1 && i <= okChunks
      invariant minted == MintLogs(blocks, from, next) && resolved == ResolveLogs(blocks, from, next)
      invariant next == Min(from + i * 100, head + 1)
      invariant next == if i < |ranges| then ranges[i].0 else head + 1
    {
      if i >= okChunks {
        return;
      }
      var r := ranges[i];
      assert r.0 == next;
      LogsConcat(blocks, from, next, r.1 + 1);
      minted := minted + MintLogs(blocks, r.0, r.1 + 1);
      resolved := resolved + ResolveLogs(blocks, r.0, r.1 + 1);
      next := r.1 + 1;
    }
  }

  /** The id under which tickets found at the start enter the book; no quote has it. */
  const SEED_QUOTE: nat := 0

  function LegsOf(ids: set<nat>, info: map<nat, TicketInfo>): map<nat, seq<Leg>> {
    map id | id in ids && id in info :: info[id].legs
  }

  function RiskOf(t: TicketInfo): ES.OpenParlay {
    ES.OpenParlay(t.risk, Vaults(t.legs))
  }

  function RisksOf(ids: set<nat>, info: map<nat, TicketInfo>): map<nat, ES.OpenParlay> {
    map id | id in ids && id in info :: RiskOf(info[id])
  }

  function QuoteIds(minted: seq<nat>, info: map<nat, TicketInfo>): set<nat>
    requires forall id <- minted :: id in info
  {
    set id | id in minted :: info[id].quoteId
  }

  lemma TermsExtend(ids: set<nat>, id: nat, info: map<nat, TicketInfo>, legs: map<nat, seq<Leg>>, risks: map<nat, ES.OpenParlay>)
    requires id in info
    ensures (legs + LegsOf(ids, info))[id := info[id].legs] == legs + LegsOf(ids + {id}, info)
    ensures (risks + RisksOf(ids, info))[id := RiskOf(info[id])] == risks + RisksOf(ids + {id}, info)
  {
  }

  lemma OneMoreMint(minted: seq<nat>, i: nat, info: map<nat, TicketInfo>)
    requires i < |minted| && forall id <- minted :: id in info
    ensures Ids(minted[..i + 1]) == Ids(minted[..i]) + {minted[i]}
    ensures QuoteIds(minted[..i + 1], info) == QuoteIds(minted[..i], info) + {info[minted[i]].quoteId}
  {
    assert minted[..i + 1] == minted[..i] + [minted[i]];
  }

  // --------------------------------------------- a tick in the life of quotes

  /** The book with these mints taken in: they count as open, and their quotes no longer. */
  function TakenIn(b: ES.Book, minted: seq<nat>, info: map<nat, TicketInfo>): ES.Book
    requires forall id <- minted :: id in info
  {
    ES.Book(b.reservations - QuoteIds(minted, info), b.open + RisksOf(Ids(minted), info))
  }

  function WithoutResolved(b: ES.Book, resolved: seq<nat>): ES.Book {
    b.(open := b.open - Ids(resolved))
  }

  /** What a tick does to the book: the first `taken` mints enter; if that was all, the resolved
      tickets leave. */
  function BookAfter(b: ES.Book, minted: seq<nat>, taken: nat, resolved: seq<nat>, info: map<nat, TicketInfo>): ES.Book
    requires taken <= |minted| && forall id <- minted :: id in info
  {
    var m := TakenIn(b, minted[..taken], info);
    if taken < |minted| then m else WithoutResolved(m, resolved)
  }

  function MintSteps(minted: seq<nat>, info: map<nat, TicketInfo>, now: nat): seq<ES.Step>
    requires forall id <- minted :: id in info
    decreases |minted|
  {
    if minted == [] then [] else
    var t := info[minted[0]];
    [ES.MintSeen(t.quoteId, minted[0], t.risk, Vaults(t.legs), now)] + MintSteps(minted[1..], info, now)
  }

  function ResolveSteps(resolved: seq<nat>): seq<ES.Step>
    decreases |resolved|
  {
    if resolved == [] then [] else [ES.ResolveSeen(resolved[0])] + ResolveSteps(resolved[1..])
  }

  /** Each mint is of an issued quote that still counts, or was taken in before; no two are of one
      quote. */
  ghost predicate Expected(p: ES.Policy, d: ES.Desk, minted: seq<nat>, info: map<nat, TicketInfo>, now: nat)
    requires forall id <- minted :: id in info
  {
    && (forall id <- minted :: ES.Sighted(p, d, info[id].quoteId, id, RiskOf(info[id]), now))
    && (forall x <- minted, y <- minted :: info[x].quoteId == info[y].quoteId ==> x == y)
  }

  lemma OneMintIsAStep(p: ES.Policy, caps: ES.Caps, d: ES.Desk, minted: seq<nat>, info: map<nat, TicketInfo>, now: nat)
    requires minted != [] && d.clock <= now && (forall id <- minted :: id in info) && Expected(p, d, minted, info, now)
    ensures var step := MintSteps(minted, info, now)[0];
      && ES.Admissible(p, caps, d, step) && ES.Next(p, d, step).clock == now
      && ES.Next(p, d, step).book == ES.OnMinted(d.book, info[minted[0]].quoteId, minted[0], info[minted[0]].risk, Vaults(info[minted[0]].legs))
      && Expected(p, ES.Next(p, d, step), minted[1..], info, now)
  {
    var d' := ES.Next(p, d, MintSteps(minted, info, now)[0]);
    forall id | id in minted[1..] ensures ES.Sighted(p, d', info[id].quoteId, id, RiskOf(info[id]), now) {
      assert id in minted && ES.Sighted(p, d, info[id].quoteId, id, RiskOf(info[id]), now);
      assert minted[0] in minted;
    }
  }

  lemma OpenExtends(open: map<nat, ES.OpenParlay>, id: nat, rest: set<nat>, info: map<nat, TicketInfo>)
    requires id in info
    ensures open[id := RiskOf(info[id])] + RisksOf(rest, info) == open + RisksOf({id} + rest, info)
  {
  }

  lemma TakenInOneByOne(b: ES.Book, minted: seq<nat>, info: map<nat, TicketInfo>)
    requires minted != [] && forall id <- minted :: id in info
    ensures var t := info[minted[0]];
      TakenIn(ES.OnMinted(b, t.quoteId, minted[0], t.risk, Vaults(t.legs)), minted[1..], info) == TakenIn(b, minted, info)
  {
    var rest := minted[1..];
    assert minted == [minted[0]] + rest;
    assert Ids(minted) == {minted[0]} + Ids(rest);
    assert QuoteIds(minted, info) == {info[minted[0]].quoteId} + QuoteIds(rest, info);
    OpenExtends(b.open, minted[0], Ids(rest), info);
    assert b.reservations - {info[minted[0]].quoteId} - QuoteIds(rest, info) == b.reservations - QuoteIds(minted, info);
  }

  lemma {:induction false} MintsAreSteps(p: ES.Policy, caps: ES.Caps, d: ES.Desk, minted: seq<nat>, info: map<nat, TicketInfo>, now: nat)
    requires d.clock <= now && (forall id <- minted :: id in info) && Expected(p, d, minted, info, now)
    ensures var steps := MintSteps(minted, info, now);
      ES.AdmissibleRun(p, caps, d, steps) && ES.Run(p, d, steps).book == TakenIn(d.book, minted, info)
    decreases |minted|
  {
    if minted == [] {
      assert QuoteIds([], info) == {} && Ids([]) == {};
      assert d.book.open + RisksOf({}, info) == d.book.open && d.book.reservations - {} == d.book.reservations;
    } else {
      OneMintIsAStep(p, caps, d, minted, info, now);
      var steps := MintSteps(minted, info, now);
      MintsAreSteps(p, caps, ES.Next(p, d, steps[0]), minted[1..], info, now);
      TakenInOneByOne(d.book, minted, info);
      assert steps[1..] == MintSteps(minted[1..], info, now);
    }
  }

  lemma {:induction false} ResolvesAreSteps(p: ES.Policy, caps: ES.Caps, d: ES.Desk, resolved: seq<nat>)
    ensures var steps := ResolveSteps(resolved);
      ES.AdmissibleRun(p, caps, d, steps) && ES.Run(p, d, steps).book == WithoutResolved(d.book, resolved)
    decreases |resolved|
  {
    if resolved == [] {
      assert d.book.open - {} == d.book.open;
    } else {
      var steps := ResolveSteps(resolved);
      ResolvesAreSteps(p, caps, ES.Next(p, d, steps[0]), resolved[1..]);
      assert steps[1..] == ResolveSteps(resolved[1..]);
      assert resolved == [resolved[0]] + resolved[1..];
      assert d.book.open - {resolved[0]} - Ids(resolved[1..]) == d.book.open - Ids(resolved);
    }
  }

  function DeskSteps(minted: seq<nat>, taken: nat, resolved: seq<nat>, info: map<nat, TicketInfo>, now: nat): seq<ES.Step>
    requires taken <= |minted| && forall id <- minted :: id in info
  {
    MintSteps(minted[..taken], info, now) + (if taken < |minted| then [] else ResolveSteps(resolved))
  }

  /** What a tick does to the book, half failed or whole, is a run of the life of quotes: of mints,
      seen for the first time or again, and resolutions. So it keeps every cap and every account. */
  lemma TickIsARunOfTheDesk(p: ES.Policy, caps: ES.Caps, d: ES.Desk, minted: seq<nat>, taken: nat, resolved: seq<nat>,
      info: map<nat, TicketInfo>, now: nat)
    requires d.clock <= now && taken <= |minted| && (forall id <- minted :: id in info) && Expected(p, d, minted, info, now)
    ensures var steps := DeskSteps(minted, taken, resolved, info, now);
      && ES.AdmissibleRun(p, caps, d, steps)
      && ES.Run(p, d, steps).book == BookAfter(d.book, minted, taken, resolved, info)
      && (ES.WithinCaps(p, caps, d) && ES.Accounted(d) ==>
            ES.WithinCaps(p, caps, ES.Run(p, d, steps)) && ES.Accounted(ES.Run(p, d, steps)))
  {
    var first := MintSteps(minted[..taken], info, now);
    MintsAreSteps(p, caps, d, minted[..taken], info, now);
    if taken < |minted| {
      assert first + [] == first;
    } else {
      ResolvesAreSteps(p, caps, ES.Run(p, d, first), resolved);
      ET.RunInParts(p, caps, d, first, ResolveSteps(resolved));
    }
    if ES.WithinCaps(p, caps, d) && ES.Accounted(d) {
      ET.CapsHoldAndQuotesAreCounted(p, caps, d, DeskSteps(minted, taken, resolved, info, now), 0);
    }
  }

  /** A ticket that a tick takes in, and does not see resolved, counts at its own risk in the market of
      each of its legs, and its quote no longer; what the tick says nothing of stays as it was. */
  lemma TakenTicketsCount(b: ES.Book, minted: seq<nat>, taken: nat, resolved: seq<nat>, info: map<nat, TicketInfo>, id: nat)
    requires taken <= |minted| && (forall m <- minted :: m in info)
    ensures var b' := BookAfter(b, minted, taken, resolved, info);
      var gone := taken == |minted| && id in resolved;
      && (id in minted[..taken] && !gone ==>
            && id in b'.open && b'.open[id].risk == info[id].risk && |b'.open[id].vaults| == |info[id].legs|
            && (forall i :: 0 <= i < |info[id].legs| ==> b'.open[id].vaults[i] == info[id].legs[i].vault))
      && (gone ==> id !in b'.open)
      && (id !in minted[..taken] && !gone ==> (id in b'.open <==> id in b.open) && (id in b.open ==> b'.open[id] == b.open[id]))
    ensures var b' := BookAfter(b, minted, taken, resolved, info);
      forall q :: q in b'.reservations <==> q in b.reservations && forall m <- minted[..taken] :: info[m].quoteId != q
    ensures var b' := BookAfter(b, minted, taken, resolved, info);
      forall q <- b'.reservations :: q in b.reservations && b'.reservations[q] == b.reservations[q]
  {
  }

  class Poker {
    const exposure: ExposureBook
    var open: map<nat, seq<Leg>>
    var nextBlock: nat
    ghost var ahead: set<nat>

    constructor (exposure: ExposureBook, fromBlock: nat)
      requires exposure.Valid() && exposure.open == map[]
      ensures Valid() && this.exposure == exposure && open == map[] && nextBlock == fromBlock
    {
      this.exposure, open, nextBlock, ahead := exposure, map[], fromBlock, {};
    }

    /** The poker and the book always agree on which tickets are open. */
    ghost predicate Valid()
      reads this, exposure
    {
      exposure.Valid() && open.Keys == exposure.open.Keys
    }

    ghost function View(): Scan
      reads this
    {
      Scan(open.Keys, nextBlock, ahead)
    }

    /** Opens a ticket here, on its legs, and in the book, at its risk in their markets. */
    method OpenTicket(quoteId: nat, id: nat, t: TicketInfo)
      requires Valid()
      modifies this`open, exposure`reservations, exposure`all, exposure`open
      ensures Valid() && open == old(open)[id := t.legs]
      ensures exposure.open == old(exposure.open)[id := RiskOf(t)] && exposure.all == old(exposure.all) - {quoteId}
    {
      open := open[id := t.legs];
      exposure.OnMinted(quoteId, id, t.risk, Vaults(t.legs));
    }

    /** Takes over the tickets the chain has open, and fast-forwards the scan. */
    method Seed(fetched: map<nat, TicketInfo>, head: nat, checkpoint: Option<nat>)
      requires Valid() && open == map[] && SEED_QUOTE !in exposure.all
      modifies this, exposure`reservations, exposure`all, exposure`open
      ensures Valid() && View() == Seeded(fetched.Keys, head, checkpoint)
      ensures open == LegsOf(fetched.Keys, fetched) && exposure.open == RisksOf(fetched.Keys, fetched)
      ensures exposure.all == old(exposure.all)
    {
      ahead := {};
      var left := fetched.Keys;
      assert exposure.open == map[];
      while left != {}
        invariant Valid() && left <= fetched.Keys && ahead == {} && exposure.all == old(exposure.all)
        invariant open == LegsOf(fetched.Keys - left, fetched) && exposure.open == RisksOf(fetched.Keys - left, fetched)
        decreases left
      {
        var id :| id in left;
        OpenTicket(SEED_QUOTE, id, fetched[id]);
        left := left - {id};
      }
      var resume := match checkpoint case Some(b) => b case None => head + 1;
      nextBlock := if resume < head + 1 then resume else head + 1;
    }

    /** Opens the minted tickets in order, until the legs of one cannot be read. Their quotes are
        no longer reserved. */
    method TakeMints(minted: seq<nat>, info: map<nat, TicketInfo>, legsRead: nat) returns (taken: nat)
      requires Valid() && forall id <- minted :: id in info
      modifies this`open, exposure`reservations, exposure`all, exposure`open
      ensures Valid() && taken == Min(legsRead, |minted|)
      ensures open == old(open) + LegsOf(Ids(minted[..taken]), info)
      ensures exposure.open == old(exposure.open) + RisksOf(Ids(minted[..taken]), info)
      ensures open.Keys == old(open).Keys + Ids(minted[..taken])
      ensures exposure.all == old(exposure.all) - QuoteIds(minted[..taken], info)
    {
      assert QuoteIds(minted[..0], info) == {} && Ids(minted[..0]) == {};
      for i := 0 to |minted|
        invariant Valid() && i <= legsRead
        invariant open == old(open) + LegsOf(Ids(minted[..i]), info)
        invariant exposure.open == old(exposure.open) + RisksOf(Ids(minted[..i]), info)
        invariant exposure.all == old(exposure.all) - QuoteIds(minted[..i], info)
      {
        if i >= legsRead {
          return i;
        }
        OneMoreMint(minted, i, info);
        TermsExtend(Ids(minted[..i]), minted[i], info, old(open), old(exposure.open));
        OpenTicket(info[minted[i]].quoteId, minted[i], info[minted[i]]);
      }
      return |minted|;
    }

    method DropResolved(resolved: seq<nat>)
      requires Valid()
      modifies this`open, exposure`open
      ensures Valid() && open == old(open) - Ids(resolved) && exposure.open == old(exposure.open) - Ids(resolved)
    {
      for i := 0 to |resolved|
        invariant Valid() && open == old(open) - Ids(resolved[..i])
        invariant exposure.open == old(exposure.open) - Ids(resolved[..i])
      {
        open := open - {resolved[i]};
        exposure.OnResolved(resolved[i]);
        assert resolved[..i + 1] == resolved[..i] + [resolved[i]];
      }
      assert resolved[..|resolved|] == resolved;
    }

    /** One tick against a chain whose head is at `head`. The logs may break off after `okChunks`
        chunks, and reading legs may fail after `legsRead` mints; then the tick gives up, having
        taken in the mints before, and the next one starts from the same block. */
    method Tick(blocks: seq<Block>, info: map<nat, TicketInfo>, head: nat, okChunks: nat, legsRead: nat)
      returns (ghost upto: nat)
      requires Valid() && nextBlock <= |blocks| && head < |blocks|
      requires forall b, id :: 0 <= b < |blocks| && id in blocks[b].minted ==> id in info
      modifies this, exposure`reservations, exposure`all, exposure`open
      ensures Valid()
      ensures upto == Max(old(nextBlock), Min(old(nextBlock) + okChunks * 100, head + 1))
      ensures old(nextBlock) <= upto <= |blocks| && View() == Ticked(blocks, old(View()), upto, legsRead)
      ensures var minted := MintLogs(blocks, old(nextBlock), upto);
        var taken := Min(legsRead, |minted|);
        var gone := if taken < |minted| then {} else Ids(ResolveLogs(blocks, old(nextBlock), upto));
        && open == old(open) + LegsOf(Ids(minted[..taken]), info) - gone
        && (forall id <- minted :: id in info)
        && exposure.View() == BookAfter(old(exposure.View()), minted, taken, ResolveLogs(blocks, old(nextBlock), upto), info)
    {
      var minted, resolved, next := FetchEvents(blocks, nextBlock, head, okChunks);
      upto := next;
      forall id <- minted ensures id in info {
        LogsAreEvents(blocks, nextBlock, next, id);
      }
      var taken := TakeMints(minted, info, legsRead);
      assert taken == |minted| ==> minted[..taken] == minted;
      if taken < |minted| {
        assert open - {} == open && exposure.open - {} == exposure.open;
        ahead := ahead + Ids(minted[..taken]);
        return;
      }
      DropResolved(resolved);
      assert open.Keys == old(open).Keys + Ids(minted) - Ids(resolved);
      nextBlock := next;
      ahead := ahead - Ids(minted);
    }

    /** The tickets to poke, on the settlements just read: the dead and the fully settled void. */
    method Pokes(states: Settlements) returns (pokes: set<nat>)
      ensures pokes == set id | id in open && WouldPoke(states, open[id])
    {
      pokes := {};
      var left := open.Keys;
      while left != {}
        invariant left <= open.Keys
        invariant pokes == set id | id in open && id !in left && WouldPoke(states, open[id])
        decreases left
      {
        var id :| id in left;
        var isVoid := ParlayIsVoid(open[id], states);
        if ParlayIsDead(open[id], states) || isVoid {
          pokes := pokes + {id};
        }
        left := left - {id};
      }
    }
  }
}
