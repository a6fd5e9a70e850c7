/** The exposure book the service keeps: reservations are dropped lazily, when something is read.
    `all` remembers every reservation; the book answers as if it filtered those by the clock. */
module ExposureBook {
  import opened ExposureState
  import opened Prelude
  import opened Sums

  /** Sums a weight over a map, one entry at a time. */
  method SumOver<V>(m: map<nat, V>, w: V -> nat) returns (sum: nat)
    ensures sum == Sum(m, w)
  {
    sum := 0;
    var left := m.Keys;
    assert m - (m.Keys - left) == m;
    while left != {}
      invariant left <= m.Keys
      invariant sum + Sum(m - (m.Keys - left), w) == Sum(m, w)
      decreases left
    {
      var id :| id in left;
      SumSplit(m - (m.Keys - left), w, id);
      assert m - (m.Keys - left) - {id} == m - (m.Keys - (left - {id}));
      sum := sum + w(m[id]);
      left := left - {id};
    }
    assert m - m.Keys == map[];
  }

  class ExposureBook {
    const policy: Policy
    var reservations: map<nat, Reservation>
    var open: map<nat, OpenParlay>
    ghost var all: map<nat, Reservation>
    ghost var clock: nat

    constructor (policy: Policy)
      ensures Valid() && this.policy == policy && View() == Book(map[], map[]) && clock == 0
    {
      this.policy, reservations, open, all, clock := policy, map[], map[], map[], 0;
    }

    /** What was pruned could not count any more, and never will. */
    ghost predicate Valid()
      reads this
    {
      && (forall id :: id in reservations ==> id in all && all[id] == reservations[id])
      && (forall id :: id in all && IsActive(policy, all[id], clock) ==> id in reservations)
    }

    ghost function View(): Book
      reads this
    {
      Book(all, open)
    }

    method PruneExpired(now: nat)
      requires Valid() && clock <= now
      modifies this`reservations, this`clock
      ensures Valid() && clock == now && reservations == Active(policy, all, now)
    {
      var left := reservations.Keys;
      while left != {}
        invariant left <= reservations.Keys <= old(reservations).Keys
        invariant forall id :: id in reservations ==> reservations[id] == old(reservations)[id]
        invariant forall id :: id in reservations && id !in left ==> IsActive(policy, reservations[id], now)
        invariant forall id :: id in old(reservations) && IsActive(policy, old(reservations)[id], now) ==> id in reservations
        decreases left
      {
        var id :| id in left;
        left := left - {id};
        if reservations[id].expiresAt + policy.graceMs <= now {
          reservations := reservations - {id};
        }
      }
      clock := now;
    }

    method ReservedGlobal(now: nat) returns (sum: nat)
      requires Valid() && clock <= now
      modifies this`reservations, this`clock
      ensures Valid() && clock == now
      ensures sum == ExposureState.ReservedGlobal(policy, View(), now)
    {
      PruneExpired(now);
      sum := SumOver(reservations, AllRisk());
    }

    method PerMarket(v: Address, now: nat) returns (sum: nat)
      requires Valid() && clock <= now
      modifies this`reservations, this`clock
      ensures Valid() && clock == now
      ensures sum == ExposureState.PerMarket(policy, View(), v, now)
    {
      PruneExpired(now);
      var reserved := SumOver(reservations, MarketRisk(v));
      var taken := SumOver(open, MarketOpenRisk(v));
      sum := reserved + taken;
    }

    method PerCluster(c: nat, now: nat) returns (sum: nat)
      requires Valid() && clock <= now
      modifies this`reservations, this`clock
      ensures Valid() && clock == now
      ensures sum == ExposureState.PerCluster(policy, View(), c, now)
    {
      PruneExpired(now);
      var reserved := SumOver(reservations, ClusterRisk(policy, c));
      var taken := SumOver(open, ClusterOpenRisk(policy, c));
      sum := reserved + taken;
    }

    method ReservedByKey(key: nat, now: nat) returns (sum: nat)
      requires Valid() && clock <= now
      modifies this`reservations, this`clock
      ensures Valid() && clock == now
      ensures sum == ExposureState.ReservedByKey(policy, View(), key, now)
    {
      PruneExpired(now);
      sum := SumOver(reservations, KeyRisk(key));
    }

    /** The clusters a ticket touches, collected as its vaults name them. */
    method ClustersOf(vaults: seq<Address>) returns (clusters: seq<nat>)
      ensures clusters == Clusters(policy, vaults)
    {
      clusters := [];
      for i := 0 to |vaults|
        invariant clusters == Clusters(policy, vaults[..i])
      {
        assert vaults[..i + 1][..i] == vaults[..i];
        if vaults[i] in policy.clusterOf && policy.clusterOf[vaults[i]] !in clusters {
          clusters := clusters + [policy.clusterOf[vaults[i]]];
        }
      }
      assert vaults[..|vaults|] == vaults;
    }

    /** Answers as the unpruned book would. */
    method Check(o: Order, now: nat) returns (answer: Answer)
      requires Valid() && clock <= now
      modifies this`reservations, this`clock
      ensures Valid() && clock == now
      ensures answer == ExposureState.Check(policy, View(), o, now)
    {
      var reserved := ReservedGlobal(now);
      if o.risk + reserved > o.allowance {
        return Full("at-capacity", Monus(o.allowance, reserved), None);
      }
      for i := 0 to |o.vaults|
        invariant Valid() && clock == now
        invariant CheckMarkets(policy, View(), o, o.vaults, now) == CheckMarkets(policy, View(), o, o.vaults[i..], now)
      {
        var used := PerMarket(o.vaults[i], now);
        if o.risk + used > o.perMarketCap {
          return Full("market-cap", Monus(o.perMarketCap, used), Some(o.vaults[i]));
        }
      }
      var clusters := ClustersOf(o.vaults);
      for i := 0 to |clusters|
        invariant Valid() && clock == now
        invariant CheckClusters(policy, View(), o, clusters, now) == CheckClusters(policy, View(), o, clusters[i..], now)
      {
        var used := PerCluster(clusters[i], now);
        if o.risk + used > o.perClusterCap {
          return Full("cluster-cap", Monus(o.perClusterCap, used), None);
        }
      }
      var used := ReservedByKey(o.quotaKey, now);
      if o.risk + used > o.perKeyCap {
        return Full("quota-cap", Monus(o.perKeyCap, used), None);
      }
      return Fits;
    }

    method Reserve(id: nat, risk: nat, vaults: seq<Address>, expiresAt: nat, quotaKey: nat)
      requires Valid()
      modifies this`reservations, this`all
      ensures Valid() && View() == ExposureState.Reserve(old(View()), id, Reservation(risk, vaults, expiresAt, quotaKey))
    {
      reservations := reservations[id := Reservation(risk, vaults, expiresAt, quotaKey)];
      all := all[id := Reservation(risk, vaults, expiresAt, quotaKey)];
    }

    method Release(id: nat)
      requires Valid()
      modifies this`reservations, this`all
      ensures Valid() && View() == ExposureState.Release(old(View()), id)
    {
      reservations := reservations - {id};
      all := all - {id};
    }

    method OnMinted(id: nat, parlayId: nat, risk: nat, vaults: seq<Address>)
      requires Valid()
      modifies this`reservations, this`all, this`open
      ensures Valid() && View() == ExposureState.OnMinted(old(View()), id, parlayId, risk, vaults)
    {
      reservations := reservations - {id};
      all := all - {id};
      open := open[parlayId := OpenParlay(risk, vaults)];
    }

    method OnResolved(parlayId: nat)
      requires Valid()
      modifies this`open
      ensures Valid() && View() == ExposureState.OnResolved(old(View()), parlayId)
    {
      open := open - {parlayId};
    }
  }
}
