/** The few facts about products and quotients that the proofs lean on. */
module NonLinear {

  lemma MulLe(a: int, b: int, c: nat)
    ensures a <= b ==> a * c <= b * c
  {
  }

  lemma MulSub(a: int, b: int, c: int)
    ensures (a - b) * c == a * c - b * c
  {
  }

  /** Cancelling a positive factor. */
  lemma MulCancel(a: int, b: int, c: nat)
    ensures c > 0 && a * c <= b * c ==> a <= b
    ensures c > 0 && a * c < b * c ==> a < b
  {
    MulLe(b + 1, a, c);
    MulLe(b, a, c);
  }

  /** The quotient `q` of `a` by `b`, recognised by its remainder. */
  lemma DivIs(a: nat, b: nat, q: nat)
    requires b > 0 && q * b <= a < (q + 1) * b
    ensures a / b == q
  {
    var d := a / b;
    assert d * b <= a < (d + 1) * b;
    MulCancel(d, q + 1, b);
    MulCancel(q, d + 1, b);
  }

  /** What a floored quotient is. */
  lemma DivBounds(a: nat, b: nat)
    requires b > 0
    ensures a / b * b <= a < (a / b + 1) * b
  {
  }

  /** A bound on a floored quotient, from below and from above. */
  lemma DivGalois(a: nat, b: nat, q: int)
    requires b > 0
    ensures q <= a / b <==> q * b <= a
    ensures a / b < q <==> a < q * b
  {
    DivBounds(a, b);
    MulLe(q, a / b, b);
    MulCancel(q, a / b + 1, b);
  }

  lemma DivMonotone(a: nat, b: nat, d: nat)
    requires d > 0 && a <= b
    ensures a / d <= b / d
  {
    DivBounds(a, d);
    DivGalois(b, d, a / d);
  }

  /** A share of `n` in proportion at most one is at most `n`. */
  lemma PortionWithin(x: nat, n: nat, d: nat)
    requires d > 0 && x <= d
    ensures x * n / d <= n
  {
    MulLe(x, d, n);
    DivMonotone(x * n, d * n, d);
    DivIs(d * n, d, n);
  }

  lemma FloorsAdd(a: nat, b: nat, unit: nat)
    requires unit > 0
    ensures a / unit + b / unit <= (a + b) / unit
  {
    DivBounds(a, unit);
    DivBounds(b, unit);
    assert (a / unit + b / unit) * unit == a / unit * unit + b / unit * unit;
    DivGalois(a + b, unit, a / unit + b / unit);
  }

  /** Paying `paid` out of a pool, where a whole pool pays an entitlement `e` of a total `t` in
      full and a short pool pays its share, never lowers the coverage ratio: `after / due'` is at
      least `pool / due`. Entitlements are scaled by `unit` and rounded down. */
  lemma PayingKeepsRatio(pool: nat, t: nat, e: nat, unit: nat, paid: nat)
    requires unit > 0 && e <= t && paid <= pool
    requires paid == if t / unit > pool then (e / unit) * pool / (t / unit) else e / unit
    ensures (t - e) / unit <= t / unit
    ensures (pool - paid) * (t / unit) >= pool * ((t - e) / unit)
  {
    var due, due', p := t / unit, (t - e) / unit, e / unit;
    FloorsAdd(t - e, e, unit);
    MulLe(due', due - p, pool);
    MulSub(pool, paid, due);
    MulSub(due, p, pool);
    if due > pool {
      DivBounds(p * pool, due);
    } else {
      MulLe(due, pool, p);
    }
  }

  /** Ratios compare transitively when the denominators shrink. */
  lemma RatioTransitive(a: nat, b: nat, a': nat, b': nat, a'': nat, b'': nat)
    requires b'' <= b' <= b
    requires a' * b >= a * b' && a'' * b' >= a' * b''
    ensures a'' * b >= a * b''
  {
    if b' > 0 {
      MulLe(a' * b'', a'' * b', b);
      MulLe(a * b', a' * b, b'');
      assert a * b'' * b' == a * b' * b'';
      assert a' * b * b'' == a' * b'' * b;
      assert a'' * b * b' == a'' * b' * b;
      MulCancel(a * b'', a'' * b, b');
    }
  }

  /** A pool that is short of what it owes was short before its ratio improved. */
  lemma ShortBefore(a: nat, b: nat, a': nat, b': nat)
    requires b' <= b && a' * b >= a * b' && b' > a'
    ensures a < b
  {
    MulLe(b, a, b');
    MulCancel(b', a', b);
    assert b * b' == b' * b;
  }

  /** What a share is worth under one ratio, it is worth under a better one. */
  lemma ShareGrows(p: nat, a: nat, b: nat, a': nat, b': nat, q: nat)
    requires b > 0 && b' > 0 && a' * b >= a * b' && q * b <= p * a
    ensures q <= p * a' / b'
  {
    MulLe(q * b, p * a, b');
    MulLe(a * b', a' * b, p);
    assert (q * b') * b == q * b * b';
    assert p * a * b' == (a * b') * p;
    assert (a' * b) * p == (p * a') * b;
    MulCancel(q * b', p * a', b);
    DivGalois(p * a', b', q);
  }

  /** A better ratio pays at least as much of the same entitlement `p`. */
  lemma ShareMonotone(p: nat, a: nat, b: nat, a': nat, b': nat)
    requires b' <= b && a' * b >= a * b'
    ensures (if b > a then p * a / b else p) <= (if b' > a' then p * a' / b' else p)
  {
    if b' > a' {
      ShortBefore(a, b, a', b');
      var q := p * a / b;
      assert q * b <= p * a by { DivBounds(p * a, b); }
      ShareGrows(p, a, b, a', b', q);
    } else if b > a {
      PortionWithin(a, p, b);
      assert a * p == p * a;
    }
  }

  /** A pool past a floor of `f` in `unit` of what it owes stays past it as its ratio improves. */
  lemma FloorTransfer(a: nat, b: nat, a': nat, b': nat, f: nat, unit: nat)
    requires b' <= b && a' * b >= a * b' && a * unit >= b * f
    ensures a' * unit >= b' * f
  {
    if b' > 0 {
      MulLe(a * b', a' * b, unit);
      MulLe(b * f, a * unit, b');
      assert (b' * f) * b == b * f * b';
      assert a * unit * b' == a * b' * unit;
      assert a' * b * unit == (a' * unit) * b;
      MulCancel(b' * f, a' * unit, b);
    }
  }

  /** Adding `sz` at a price no lower than the average so far never lowers the floored average. */
  lemma AverageGrows(n: nat, s: nat, px: nat, sz: nat)
    requires s > 0 && n <= px * s
    ensures n / s <= (n + px * sz) / (s + sz)
  {
    var v := n / s;
    DivBounds(n, s);
    MulCancel(v, px, s);
    MulLe(v, px, sz);
    assert v * (s + sz) == v * s + v * sz;
    DivGalois(n + px * sz, s + sz, v);
  }
}
