/** Caps hold and quotes stay counted over every interleaving. */
module ExposureTheorems {
  import opened ExposureState
  import opened Prelude
  import opened Sums

  lemma ActiveShrinks(p: Policy, rs: map<nat, Reservation>, now: nat, later: nat, w: Reservation -> nat)
    requires now <= later
    ensures Sum(Active(p, rs, later), w) <= Sum(Active(p, rs, now), w)
  {
    SumMonotone(Active(p, rs, later), Active(p, rs, now), w);
  }

  /** Pruning early and filtering later is filtering later. */
  lemma PruningIsAFilter(p: Policy, rs: map<nat, Reservation>, now: nat, later: nat)
    requires now <= later
    ensures Active(p, Active(p, rs, now), later) == Active(p, rs, later)
  {
  }

  lemma ReserveAdds(p: Policy, rs: map<nat, Reservation>, id: nat, r: Reservation, now: nat, w: Reservation -> nat)
    requires id !in rs
    ensures Sum(Active(p, rs[id := r], now), w) <= Sum(Active(p, rs, now), w) + w(r)
  {
    if IsActive(p, r, now) {
      assert Active(p, rs[id := r], now) == Active(p, rs, now)[id := r];
      SumPut(Active(p, rs, now), w, id, r);
      assert Active(p, rs, now) - {id} == Active(p, rs, now);
    } else {
      assert Active(p, rs[id := r], now) == Active(p, rs, now);
    }
  }

  lemma ReleaseTakes(p: Policy, rs: map<nat, Reservation>, id: nat, now: nat, w: Reservation -> nat)
    ensures Sum(Active(p, rs - {id}, now), w)
      == Sum(Active(p, rs, now), w) - (if id in rs && IsActive(p, rs[id], now) then w(rs[id]) else 0)
  {
    assert Active(p, rs - {id}, now) == Active(p, rs, now) - {id};
    SumRemove(Active(p, rs, now), w, id);
  }

  lemma OpenAdds(open: map<nat, OpenParlay>, id: nat, o: OpenParlay, w: OpenParlay -> nat)
    requires id !in open
    ensures Sum(open[id := o], w) == Sum(open, w) + w(o)
  {
    SumPut(open, w, id, o);
    assert open - {id} == open;
  }

  lemma LaterKeepsCaps(p: Policy, caps: Caps, d: Desk, later: nat)
    requires WithinCaps(p, caps, d) && d.clock <= later
    ensures WithinCaps(p, caps, d.(clock := later))
  {
    forall v ensures PerMarket(p, d.book, v, later) <= caps.perMarket {
      ActiveShrinks(p, d.book.reservations, d.clock, later, MarketRisk(v));
      assert PerMarket(p, d.book, v, d.clock) <= caps.perMarket;
    }
    forall c ensures PerCluster(p, d.book, c, later) <= caps.perCluster {
      ActiveShrinks(p, d.book.reservations, d.clock, later, ClusterRisk(p, c));
      assert PerCluster(p, d.book, c, d.clock) <= caps.perCluster;
    }
    forall k ensures ReservedByKey(p, d.book, k, later) <= caps.perKey {
      ActiveShrinks(p, d.book.reservations, d.clock, later, KeyRisk(k));
      assert ReservedByKey(p, d.book, k, d.clock) <= caps.perKey;
    }
  }

  /** Checked and reserved in one go, a new reservation fits every cap it touches. */
  lemma ReserveKeepsCaps(p: Policy, caps: Caps, d: Desk, id: nat, o: Order, r: Reservation)
    requires WithinCaps(p, caps, d) && id !in d.book.reservations && Check(p, d.book, o, d.clock).Fits?
    requires r.risk == o.risk && r.vaults == o.vaults && r.quotaKey == o.quotaKey
    requires o.perMarketCap <= caps.perMarket && o.perClusterCap <= caps.perCluster && o.perKeyCap <= caps.perKey
    ensures WithinCaps(p, caps, d.(book := Reserve(d.book, id, r)))
  {
    var b' := Reserve(d.book, id, r);
    var rs, now := d.book.reservations, d.clock;
    forall v ensures PerMarket(p, b', v, now) <= caps.perMarket {
      ReserveAdds(p, rs, id, r, now, MarketRisk(v));
      assert PerMarket(p, d.book, v, now) <= caps.perMarket;
      if v in o.vaults {
        MarketsFit(p, d.book, o, o.vaults, now, v);
      }
    }
    forall c ensures PerCluster(p, b', c, now) <= caps.perCluster {
      ReserveAdds(p, rs, id, r, now, ClusterRisk(p, c));
      assert PerCluster(p, d.book, c, now) <= caps.perCluster;
      if InCluster(p, o.vaults, c) {
        ClustersComplete(p, o.vaults, c);
        ClustersFit(p, d.book, o, Clusters(p, o.vaults), now, c);
      }
    }
    forall k ensures ReservedByKey(p, b', k, now) <= caps.perKey {
      ReserveAdds(p, rs, id, r, now, KeyRisk(k));
      assert ReservedByKey(p, d.book, k, now) <= caps.perKey;
    }
  }

  lemma ReleaseKeepsCaps(p: Policy, caps: Caps, d: Desk, id: nat)
    requires WithinCaps(p, caps, d)
    ensures WithinCaps(p, caps, d.(book := Release(d.book, id)))
  {
    var b' := Release(d.book, id);
    forall v ensures PerMarket(p, b', v, d.clock) <= caps.perMarket {
      ReleaseTakes(p, d.book.reservations, id, d.clock, MarketRisk(v));
      assert PerMarket(p, d.book, v, d.clock) <= caps.perMarket;
    }
    forall c ensures PerCluster(p, b', c, d.clock) <= caps.perCluster {
      ReleaseTakes(p, d.book.reservations, id, d.clock, ClusterRisk(p, c));
      assert PerCluster(p, d.book, c, d.clock) <= caps.perCluster;
    }
    forall k ensures ReservedByKey(p, b', k, d.clock) <= caps.perKey {
      ReleaseTakes(p, d.book.reservations, id, d.clock, KeyRisk(k));
      assert ReservedByKey(p, d.book, k, d.clock) <= caps.perKey;
    }
  }

  /** A mint seen while its reservation counts swaps one for the other, and moves no sum. */
  lemma MintKeepsCaps(p: Policy, caps: Caps, d: Desk, id: nat, parlayId: nat)
    requires WithinCaps(p, caps, d) && parlayId !in d.book.open
    requires id in d.book.reservations && IsActive(p, d.book.reservations[id], d.clock)
    ensures var r := d.book.reservations[id];
      WithinCaps(p, caps, d.(book := OnMinted(d.book, id, parlayId, r.risk, r.vaults)))
  {
    var r := d.book.reservations[id];
    var o := OpenParlay(r.risk, r.vaults);
    var b' := OnMinted(d.book, id, parlayId, r.risk, r.vaults);
    forall v ensures PerMarket(p, b', v, d.clock) <= caps.perMarket {
      ReleaseTakes(p, d.book.reservations, id, d.clock, MarketRisk(v));
      OpenAdds(d.book.open, parlayId, o, MarketOpenRisk(v));
      assert PerMarket(p, d.book, v, d.clock) <= caps.perMarket;
    }
    forall c ensures PerCluster(p, b', c, d.clock) <= caps.perCluster {
      ReleaseTakes(p, d.book.reservations, id, d.clock, ClusterRisk(p, c));
      OpenAdds(d.book.open, parlayId, o, ClusterOpenRisk(p, c));
      assert PerCluster(p, d.book, c, d.clock) <= caps.perCluster;
    }
    forall k ensures ReservedByKey(p, b', k, d.clock) <= caps.perKey {
      ReleaseTakes(p, d.book.reservations, id, d.clock, KeyRisk(k));
      assert ReservedByKey(p, d.book, k, d.clock) <= caps.perKey;
    }
  }

  lemma ResolveKeepsCaps(p: Policy, caps: Caps, d: Desk, parlayId: nat)
    requires WithinCaps(p, caps, d)
    ensures WithinCaps(p, caps, d.(book := OnResolved(d.book, parlayId)))
  {
    forall v ensures PerMarket(p, OnResolved(d.book, parlayId), v, d.clock) <= caps.perMarket {
      SumRemove(d.book.open, MarketOpenRisk(v), parlayId);
      assert PerMarket(p, d.book, v, d.clock) <= caps.perMarket;
    }
    forall c ensures PerCluster(p, OnResolved(d.book, parlayId), c, d.clock) <= caps.perCluster {
      SumRemove(d.book.open, ClusterOpenRisk(p, c), parlayId);
      assert PerCluster(p, d.book, c, d.clock) <= caps.perCluster;
    }
    forall k ensures ReservedByKey(p, OnResolved(d.book, parlayId), k, d.clock) <= caps.perKey {
      assert ReservedByKey(p, d.book, k, d.clock) <= caps.perKey;
    }
  }

  lemma AgainChangesNothing(b: Book, id: nat, parlayId: nat, risk: nat, vaults: seq<Address>)
    requires id !in b.reservations && parlayId in b.open && b.open[parlayId] == OpenParlay(risk, vaults)
    ensures OnMinted(b, id, parlayId, risk, vaults) == b
  {
    assert b.reservations - {id} == b.reservations;
  }

  /** A mint delivered again while its parlay is open is admissible at any time, and changes nothing. */
  lemma RedeliveryChangesNothing(p: Policy, caps: Caps, d: Desk, id: nat, parlayId: nat, now: nat)
    requires Accounted(d) && id in d.phase && d.phase[id] == MintedAs(parlayId) && d.clock <= now
    ensures id in d.terms
    ensures var again := MintSeen(id, parlayId, d.terms[id].risk, d.terms[id].vaults, now);
      Admissible(p, caps, d, again) && Next(p, d, again) == d.(clock := now)
  {
    assert AccountedFor(d, id);
    AgainChangesNothing(d.book, id, parlayId, d.terms[id].risk, d.terms[id].vaults);
  }

  lemma StepKeepsCaps(p: Policy, caps: Caps, d: Desk, step: Step)
    requires WithinCaps(p, caps, d) && Accounted(d) && Admissible(p, caps, d, step)
    ensures WithinCaps(p, caps, Next(p, d, step))
  {
    assert step.Quote? || step.MintSeen? ==> AccountedFor(d, step.id);
    match step
    case Quote(id, o, ttlMs, now) =>
      LaterKeepsCaps(p, caps, d, now);
      if Check(p, d.book, o, now).Fits? {
        ReserveKeepsCaps(p, caps, d.(clock := now), id, o, Reservation(o.risk, o.vaults, now + ttlMs, o.quotaKey));
      }
    case SignOrJournalFails(id) => ReleaseKeepsCaps(p, caps, d, id);
    case Replies(_) =>
    case MintSeen(id, parlayId, risk, vaults, now) =>
      LaterKeepsCaps(p, caps, d, now);
      if SeenBefore(d, id, parlayId, OpenParlay(risk, vaults)) {
        AgainChangesNothing(d.book, id, parlayId, risk, vaults);
      } else {
        MintKeepsCaps(p, caps, d.(clock := now), id, parlayId);
      }
    case ResolveSeen(parlayId) => ResolveKeepsCaps(p, caps, d, parlayId);
    case TimePasses(now) => LaterKeepsCaps(p, caps, d, now);
  }

  lemma StepKeepsAccounts(p: Policy, caps: Caps, d: Desk, step: Step)
    requires Accounted(d) && Admissible(p, caps, d, step)
    ensures Accounted(Next(p, d, step))
  {
    var e := Next(p, d, step);
    forall id ensures AccountedFor(e, id) {
      assert AccountedFor(d, id);
      if step.MintSeen? {
        assert AccountedFor(d, step.id);
      }
    }
  }

  /** In every interleaving of quote requests, sign or journal failures, replies, expiries, mints
      delivered once or again, and resolutions, started within caps, every market, cluster and account stays within its cap,
      and every quote is where its phase says: an issued one counts on the terms it was reserved on
      until it is minted, or expires and its grace runs out; a minted one counts until resolved; a
      refused one has left no reservation. */
  lemma {:induction false} CapsHoldAndQuotesAreCounted(p: Policy, caps: Caps, d: Desk, steps: seq<Step>, id: nat)
    requires WithinCaps(p, caps, d) && Accounted(d) && AdmissibleRun(p, caps, d, steps)
    ensures var e := Run(p, d, steps);
      && WithinCaps(p, caps, e)
      && Accounted(e)
      && (id in e.phase && (e.phase[id].Reserved? || e.phase[id].Issued?) ==> Counts(p, e, id))
    decreases |steps|
  {
    if steps == [] {
      assert AccountedFor(d, id);
    } else {
      StepKeepsCaps(p, caps, d, steps[0]);
      StepKeepsAccounts(p, caps, d, steps[0]);
      CapsHoldAndQuotesAreCounted(p, caps, Next(p, d, steps[0]), steps[1..], id);
    }
  }

  /** The quote's reservation counts, on its terms, until it expires and its grace runs out. */
  predicate Counts(p: Policy, d: Desk, id: nat) {
    && id in d.terms
    && var active := Active(p, d.book.reservations, d.clock);
       if IsActive(p, d.terms[id], d.clock) then id in active && active[id] == d.terms[id] else id !in active
  }

  lemma {:induction false} RunInParts(p: Policy, caps: Caps, d: Desk, first: seq<Step>, rest: seq<Step>)
    requires AdmissibleRun(p, caps, d, first) && AdmissibleRun(p, caps, Run(p, d, first), rest)
    ensures AdmissibleRun(p, caps, d, first + rest) && Run(p, d, first + rest) == Run(p, Run(p, d, first), rest)
    decreases |first|
  {
    if first == [] {
      assert first + rest == rest;
    } else {
      assert (first + rest)[1..] == first[1..] + rest;
      RunInParts(p, caps, Next(p, d, first[0]), first[1..], rest);
    }
  }
}
