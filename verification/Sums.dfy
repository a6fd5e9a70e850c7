/** Sums over finite maps, and token balances as maps whose total is tracked. */
module Sums {
  import opened Prelude

  /** The sum of `w` over the values of `m`. */
  ghost function Sum<K(!new), V>(m: map<K, V>, w: V -> nat): nat
    decreases |m|
  {
    if m == map[] then 0 else
      var k :| k in m;
      w(m[k]) + Sum(m - {k}, w)
  }

  /** The sum does not depend on the order in which the keys are visited. */
  lemma {:induction false} SumSplit<K(!new), V>(m: map<K, V>, w: V -> nat, k: K)
    requires k in m
    ensures Sum(m, w) == w(m[k]) + Sum(m - {k}, w)
    decreases |m|
  {
    var j :| j in m && Sum(m, w) == w(m[j]) + Sum(m - {j}, w);
    if j != k {
      SumSplit(m - {j}, w, k);
      SumSplit(m - {k}, w, j);
      assert m - {j} - {k} == m - {k} - {j};
    }
  }

  lemma SumPut<K(!new), V>(m: map<K, V>, w: V -> nat, k: K, v: V)
    ensures Sum(m[k := v], w) == w(v) + Sum(m - {k}, w)
  {
    SumSplit(m[k := v], w, k);
    assert m[k := v] - {k} == m - {k};
  }

  lemma SumRemove<K(!new), V>(m: map<K, V>, w: V -> nat, k: K)
    ensures Sum(m - {k}, w) == Sum(m, w) - (if k in m then w(m[k]) else 0)
  {
    if k in m {
      SumSplit(m, w, k);
    } else {
      assert m - {k} == m;
    }
  }

  /** A smaller map, with smaller weights, sums to less. */
  lemma {:induction false} SumMonotone<K(!new), V>(a: map<K, V>, b: map<K, V>, w: V -> nat)
    requires forall k :: k in a ==> k in b && a[k] == b[k]
    ensures Sum(a, w) <= Sum(b, w)
    decreases |a|
  {
    if a != map[] {
      var k :| k in a;
      SumSplit(a, w, k);
      SumSplit(b, w, k);
      SumMonotone(a - {k}, b - {k}, w);
    }
  }

  // ---------------------------------------------------------------- balances

  function Balance(m: map<Address, nat>, a: Address): nat {
    if a in m then m[a] else 0
  }

  function Units(): nat -> nat {
    (n: nat) => n
  }

  ghost function Total(m: map<Address, nat>): nat {
    Sum(m, Units())
  }

  lemma BalanceBelowTotal(m: map<Address, nat>, a: Address)
    ensures Balance(m, a) <= Total(m)
  {
    if a in m {
      SumSplit<Address, nat>(m, Units(), a);
    }
  }

  function Credit(m: map<Address, nat>, a: Address, n: nat): (r: map<Address, nat>)
    ensures Total(r) == Total(m) + n
    ensures forall b :: Balance(r, b) == Balance(m, b) + (if b == a then n else 0)
  {
    SumPut<Address, nat>(m, Units(), a, Balance(m, a) + n);
    SumRemove<Address, nat>(m, Units(), a);
    m[a := Balance(m, a) + n]
  }

  function Debit(m: map<Address, nat>, a: Address, n: nat): (r: map<Address, nat>)
    requires n <= Balance(m, a)
    ensures Total(r) == Total(m) - n
    ensures forall b :: Balance(r, b) == Balance(m, b) - (if b == a then n else 0)
  {
    SumPut<Address, nat>(m, Units(), a, Balance(m, a) - n);
    SumRemove<Address, nat>(m, Units(), a);
    BalanceBelowTotal(m, a);
    m[a := Balance(m, a) - n]
  }
}
