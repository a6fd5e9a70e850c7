/** What the exposure book counts and what its caps decide, told without the sums' own definitions:
    how each reservation and each open parlay enters the four sums, when exactly an order fits,
    which cap turns it down, and that the writer's allowance holds over whole runs. */
module ExposureCaps {
  import opened ExposureState
  import opened ExposureTheorems
  import opened Prelude
  import opened Sums

  // ------------------------------------------------ what the sums count

  /** Nothing reserved and nothing open is nothing at risk. */
  lemma NothingAtRisk(p: Policy, v: Address, c: nat, key: nat, now: nat)
    ensures var empty := Book(map[], map[]);
      && ReservedGlobal(p, empty, now) == 0 && PerMarket(p, empty, v, now) == 0
      && PerCluster(p, empty, c, now) == 0 && ReservedByKey(p, empty, key, now) == 0
  {
    assert Active(p, map[], now) == map[];
  }

  lemma ActiveAdds(p: Policy, rs: map<nat, Reservation>, id: nat, r: Reservation, now: nat, w: Reservation -> nat)
    requires id !in rs
    ensures Sum(Active(p, rs[id := r], now), w) == Sum(Active(p, rs, now), w) + if now < r.expiresAt + p.graceMs then w(r) else 0
  {
    if now < r.expiresAt + p.graceMs {
      assert Active(p, rs[id := r], now) == Active(p, rs, now)[id := r];
      SumPut(Active(p, rs, now), w, id, r);
      assert Active(p, rs, now) - {id} == Active(p, rs, now);
    } else {
      assert Active(p, rs[id := r], now) == Active(p, rs, now);
    }
  }

  /** A reservation adds its risk, once, to the total, to each market among its vaults, to each group
      one of them is in and to its account, as long as the clock is before its expiry plus the
      grace period; it adds nothing to any other sum, and nothing afterwards. */
  lemma ReservationCounts(p: Policy, b: Book, id: nat, r: Reservation, v: Address, c: nat, key: nat, now: nat)
    requires id !in b.reservations
    ensures var b' := Book(b.reservations[id := r], b.open);
      var risk := if now < r.expiresAt + p.graceMs then r.risk else 0;
      && ReservedGlobal(p, b', now) == ReservedGlobal(p, b, now) + risk
      && PerMarket(p, b', v, now) == PerMarket(p, b, v, now) + (if v in r.vaults then risk else 0)
      && PerCluster(p, b', c, now) == PerCluster(p, b, c, now)
           + (if exists u <- r.vaults :: u in p.clusterOf && p.clusterOf[u] == c then risk else 0)
      && ReservedByKey(p, b', key, now) == ReservedByKey(p, b, key, now) + (if key == r.quotaKey then risk else 0)
  {
    ActiveAdds(p, b.reservations, id, r, now, AllRisk());
    ActiveAdds(p, b.reservations, id, r, now, MarketRisk(v));
    ActiveAdds(p, b.reservations, id, r, now, ClusterRisk(p, c));
    ActiveAdds(p, b.reservations, id, r, now, KeyRisk(key));
  }

  /** An open parlay adds its risk to its markets and groups until it is resolved, and to neither the
      reserved total nor any account. */
  lemma ParlayCounts(p: Policy, b: Book, id: nat, o: OpenParlay, v: Address, c: nat, key: nat, now: nat)
    requires id !in b.open
    ensures var b' := Book(b.reservations, b.open[id := o]);
      && ReservedGlobal(p, b', now) == ReservedGlobal(p, b, now)
      && PerMarket(p, b', v, now) == PerMarket(p, b, v, now) + (if v in o.vaults then o.risk else 0)
      && PerCluster(p, b', c, now) == PerCluster(p, b, c, now)
           + (if exists u <- o.vaults :: u in p.clusterOf && p.clusterOf[u] == c then o.risk else 0)
      && ReservedByKey(p, b', key, now) == ReservedByKey(p, b, key, now)
  {
    OpenAdds(b.open, id, o, MarketOpenRisk(v));
    OpenAdds(b.open, id, o, ClusterOpenRisk(p, c));
  }

  // --------------------------------------------------- when an order fits

  predicate Grouped(p: Policy, v: Address, c: nat) {
    v in p.clusterOf && p.clusterOf[v] == c
  }

  /** There is room for the order in the whole, in market `v`, in group `c`, in its account. */
  ghost predicate RoomInAll(p: Policy, b: Book, o: Order, now: nat) {
    o.risk + ReservedGlobal(p, b, now) <= o.allowance
  }

  ghost predicate RoomInMarket(p: Policy, b: Book, o: Order, v: Address, now: nat) {
    o.risk + PerMarket(p, b, v, now) <= o.perMarketCap
  }

  ghost predicate RoomInGroup(p: Policy, b: Book, o: Order, c: nat, now: nat) {
    o.risk + PerCluster(p, b, c, now) <= o.perClusterCap
  }

  ghost predicate RoomInAccount(p: Policy, b: Book, o: Order, now: nat) {
    o.risk + ReservedByKey(p, b, o.quotaKey, now) <= o.perKeyCap
  }

  /** A vault in no group has room in its group. */
  ghost predicate RoomInGroupOf(p: Policy, b: Book, o: Order, v: Address, now: nat) {
    v in p.clusterOf ==> RoomInGroup(p, b, o, p.clusterOf[v], now)
  }

  /** The loop over the markets: the first without room is the one named. */
  lemma {:induction false} MarketsInFull(p: Policy, b: Book, o: Order, vaults: seq<Address>, now: nat)
    ensures var answer := CheckMarkets(p, b, o, vaults, now);
      && (answer.Fits? <==> forall v <- vaults :: RoomInMarket(p, b, o, v, now))
      && (answer.Full? ==> exists i :: 0 <= i < |vaults| && FirstFullMarket(p, b, o, vaults, i, answer, now))
    decreases |vaults|
  {
    if vaults != [] {
      MarketsInFull(p, b, o, vaults[1..], now);
      var answer := CheckMarkets(p, b, o, vaults, now);
      if answer.Full? {
        if RoomInMarket(p, b, o, vaults[0], now) {
          var i :| 0 <= i < |vaults| - 1 && FirstFullMarket(p, b, o, vaults[1..], i, answer, now);
          assert FirstFullMarket(p, b, o, vaults, i + 1, answer, now) by {
            assert vaults[i + 1] == vaults[1..][i];
            forall j | 0 <= j < i + 1 ensures RoomInMarket(p, b, o, vaults[j], now) {
              assert j > 0 ==> vaults[j] == vaults[1..][j - 1];
            }
          }
        } else {
          assert FirstFullMarket(p, b, o, vaults, 0, answer, now);
        }
      }
    }
  }

  ghost predicate FirstFullMarket(p: Policy, b: Book, o: Order, vaults: seq<Address>, i: nat, answer: Answer, now: nat)
    requires i < |vaults|
  {
    && !RoomInMarket(p, b, o, vaults[i], now)
    && (forall j :: 0 <= j < i ==> RoomInMarket(p, b, o, vaults[j], now))
    && answer == Full("market-cap", Monus(o.perMarketCap, PerMarket(p, b, vaults[i], now)), Some(vaults[i]))
  }

  lemma {:induction false} ClustersInParts(p: Policy, b: Book, o: Order, clusters: seq<nat>, c: nat, now: nat)
    ensures CheckClusters(p, b, o, clusters + [c], now) ==
      if CheckClusters(p, b, o, clusters, now).Full? then CheckClusters(p, b, o, clusters, now)
      else CheckClusters(p, b, o, [c], now)
    decreases |clusters|
  {
    if clusters == [] {
      assert clusters + [c] == [c];
    } else {
      assert (clusters + [c])[1..] == clusters[1..] + [c];
      ClustersInParts(p, b, o, clusters[1..], c, now);
    }
  }

  /** The loop over the groups, told by the vaults: the first whose group has no room decides. */
  lemma {:induction false} GroupsInFull(p: Policy, b: Book, o: Order, vaults: seq<Address>, now: nat)
    ensures var answer := CheckClusters(p, b, o, Clusters(p, vaults), now);
      && (answer.Fits? <==> forall v <- vaults :: RoomInGroupOf(p, b, o, v, now))
      && (answer.Full? ==> exists i :: 0 <= i < |vaults| && FirstFullGroup(p, b, o, vaults, i, answer, now))
    decreases |vaults|
  {
    if vaults != [] {
      var n := |vaults| - 1;
      var init, last := vaults[..n], vaults[n];
      assert vaults == init + [last];
      GroupsInFull(p, b, o, init, now);
      var before := CheckClusters(p, b, o, Clusters(p, init), now);
      if before.Full? {
        var i :| 0 <= i < n && FirstFullGroup(p, b, o, init, i, before, now);
        FullStaysFull(p, b, o, init, last, now);
        assert FirstFullGroup(p, b, o, vaults, i, before, now);
      } else if last in p.clusterOf {
        LastGroup(p, b, o, init, last, now);
      }
    }
  }

  lemma FullStaysFull(p: Policy, b: Book, o: Order, init: seq<Address>, last: Address, now: nat)
    requires CheckClusters(p, b, o, Clusters(p, init), now).Full?
    ensures CheckClusters(p, b, o, Clusters(p, init + [last]), now) == CheckClusters(p, b, o, Clusters(p, init), now)
  {
    assert (init + [last])[..|init|] == init;
    if last in p.clusterOf && p.clusterOf[last] !in Clusters(p, init) {
      ClustersInParts(p, b, o, Clusters(p, init), p.clusterOf[last], now);
    }
  }

  /** All groups before the last vault's have room. */
  lemma LastGroup(p: Policy, b: Book, o: Order, init: seq<Address>, last: Address, now: nat)
    requires last in p.clusterOf && CheckClusters(p, b, o, Clusters(p, init), now).Fits?
    requires forall v <- init :: RoomInGroupOf(p, b, o, v, now)
    ensures var answer := CheckClusters(p, b, o, Clusters(p, init + [last]), now);
      && (answer.Fits? <==> RoomInGroupOf(p, b, o, last, now))
      && (answer.Full? ==> FirstFullGroup(p, b, o, init + [last], |init|, answer, now))
  {
    var c := p.clusterOf[last];
    assert (init + [last])[..|init|] == init;
    ClustersComplete(p, init, c);
    if c !in Clusters(p, init) {
      ClustersInParts(p, b, o, Clusters(p, init), c, now);
    }
  }

  ghost predicate FirstFullGroup(p: Policy, b: Book, o: Order, vaults: seq<Address>, i: nat, answer: Answer, now: nat)
    requires i < |vaults|
  {
    && !RoomInGroupOf(p, b, o, vaults[i], now)
    && (forall j :: 0 <= j < i ==> RoomInGroupOf(p, b, o, vaults[j], now))
    && answer == Full("cluster-cap", Monus(o.perClusterCap, PerCluster(p, b, p.clusterOf[vaults[i]], now)), None)
  }

  lemma FitsByVaults(p: Policy, b: Book, o: Order, now: nat)
    ensures Check(p, b, o, now).Fits? <==>
      && RoomInAll(p, b, o, now)
      && (forall v <- o.vaults :: RoomInMarket(p, b, o, v, now))
      && (forall v <- o.vaults :: RoomInGroupOf(p, b, o, v, now))
      && RoomInAccount(p, b, o, now)
  {
    MarketsInFull(p, b, o, o.vaults, now);
    GroupsInFull(p, b, o, o.vaults, now);
  }

  /** An order fits exactly when its risk fits into four kinds of room at once: what the allowance
      leaves beyond all that is reserved, what each of its markets and each group it touches has
      left, and what its account has left. */
  lemma FitsExactlyWhen(p: Policy, b: Book, o: Order, now: nat)
    ensures Check(p, b, o, now).Fits? <==>
      && RoomInAll(p, b, o, now)
      && (forall v <- o.vaults :: RoomInMarket(p, b, o, v, now))
      && (forall c :: (exists v <- o.vaults :: Grouped(p, v, c)) ==> RoomInGroup(p, b, o, c, now))
      && RoomInAccount(p, b, o, now)
  {
    FitsByVaults(p, b, o, now);
    if forall c :: (exists v <- o.vaults :: Grouped(p, v, c)) ==> RoomInGroup(p, b, o, c, now) {
      forall v <- o.vaults ensures RoomInGroupOf(p, b, o, v, now) {
        assert v in p.clusterOf ==> Grouped(p, v, p.clusterOf[v]);
      }
    } else {
      var c :| (exists v <- o.vaults :: Grouped(p, v, c)) && !RoomInGroup(p, b, o, c, now);
      var v :| v in o.vaults && Grouped(p, v, c);
      assert !RoomInGroupOf(p, b, o, v, now);
    }
  }

  /** When it does not fit, the first cap in the order allowance, markets, groups, account that has no
      room is the one named, and the headroom is what that cap has left: of the first full market
      in the order of the vaults, which is named too, or of the first full group in that order. */
  lemma FullNamesTheFirstCap(p: Policy, b: Book, o: Order, now: nat)
    ensures var answer := Check(p, b, o, now);
      answer.Full? ==>
        if !RoomInAll(p, b, o, now) then
          answer == Full("at-capacity", Monus(o.allowance, ReservedGlobal(p, b, now)), None)
        else if exists v <- o.vaults :: !RoomInMarket(p, b, o, v, now) then
          exists i :: 0 <= i < |o.vaults| && FirstFullMarket(p, b, o, o.vaults, i, answer, now)
        else if exists v <- o.vaults :: !RoomInGroupOf(p, b, o, v, now) then
          exists i :: 0 <= i < |o.vaults| && FirstFullGroup(p, b, o, o.vaults, i, answer, now)
        else
          answer == Full("quota-cap", Monus(o.perKeyCap, ReservedByKey(p, b, o.quotaKey, now)), None)
  {
    MarketsInFull(p, b, o, o.vaults, now);
    GroupsInFull(p, b, o, o.vaults, now);
  }

  // ---------------------------------------------- the allowance over a run

  /** The allowance the last quote to be reserved in the run was checked against. */
  ghost function LastAllowance(p: Policy, d: Desk, steps: seq<Step>, allowance: nat): nat
    decreases |steps|
  {
    if steps == [] then allowance else
    var reserves := steps[0].Quote? && Check(p, d.book, steps[0].order, steps[0].now).Fits?;
    LastAllowance(p, Next(p, d, steps[0]), steps[1..], if reserves then steps[0].order.allowance else allowance)
  }

  /** A quote that is reserved leaves all that is reserved within the allowance it was checked
      against, whatever was reserved before. */
  lemma ReservedWithinAllowance(p: Policy, d: Desk, id: nat, order: Order, ttlMs: nat, now: nat)
    requires Accounted(d) && id !in d.phase && Check(p, d.book, order, now).Fits?
    ensures var d' := Next(p, d, Quote(id, order, ttlMs, now));
      d'.clock == now && ReservedGlobal(p, d'.book, now) <= order.allowance
  {
    assert AccountedFor(d, id);
    FitsExactlyWhen(p, d.book, order, now);
    var r := Reservation(order.risk, order.vaults, now + ttlMs, order.quotaKey);
    ReserveAdds(p, d.book.reservations, id, r, now, AllRisk());
  }

  lemma StepKeepsAllowance(p: Policy, caps: Caps, d: Desk, step: Step, allowance: nat)
    requires Accounted(d) && Admissible(p, caps, d, step) && ReservedGlobal(p, d.book, d.clock) <= allowance
    requires step.Quote? ==> Check(p, d.book, step.order, step.now).Full?
    ensures var d' := Next(p, d, step); ReservedGlobal(p, d'.book, d'.clock) <= allowance
  {
    var d' := Next(p, d, step);
    ActiveShrinks(p, d.book.reservations, d.clock, d'.clock, AllRisk());
    if step.SignOrJournalFails? || step.MintSeen? {
      ReleaseTakes(p, d.book.reservations, step.id, d'.clock, AllRisk());
    }
  }

  /** In every interleaving what is reserved and counts stays within the allowance that the last
      quote reserved was checked against. */
  lemma {:induction false} AllowanceHolds(p: Policy, caps: Caps, d: Desk, steps: seq<Step>, allowance: nat)
    requires Accounted(d) && AdmissibleRun(p, caps, d, steps) && ReservedGlobal(p, d.book, d.clock) <= allowance
    ensures var e := Run(p, d, steps);
      ReservedGlobal(p, e.book, e.clock) <= LastAllowance(p, d, steps, allowance)
    decreases |steps|
  {
    if steps != [] {
      var step := steps[0];
      StepKeepsAccounts(p, caps, d, step);
      if step.Quote? && Check(p, d.book, step.order, step.now).Fits? {
        ReservedWithinAllowance(p, d, step.id, step.order, step.ttlMs, step.now);
        AllowanceHolds(p, caps, Next(p, d, step), steps[1..], step.order.allowance);
      } else {
        StepKeepsAllowance(p, caps, d, step, allowance);
        AllowanceHolds(p, caps, Next(p, d, step), steps[1..], allowance);
      }
    }
  }
}
