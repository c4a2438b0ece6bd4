/**
 Sums and counts over finite maps. Every book of the broker (queue counters,
 semaphores, weights) is compared with one of these.
 */
module Sums {

  /** A map has as many entries as keys. */
  lemma {:induction false} KeysOf<K, V>(m: map<K, V>)
    ensures |m| == |m.Keys|
    decreases |m|
  {
    if m != map[] {
      var k :| k in m;
      KeysOf(m - {k});
      assert (m - {k}).Keys == m.Keys - {k};
    }
  }

  /** The sum of the values of m. */
  ghost function Total<K>(m: map<K, real>): real
    decreases |m|
  {
    if m == map[] then 0.0
    else
      var k :| k in m;
      m[k] + Total(m - {k})
  }

  /** Any key may be summed first. */
  lemma {:induction false} TotalRemove<K>(m: map<K, real>, k: K)
    requires k in m
    ensures Total(m) == m[k] + Total(m - {k})
    decreases |m|
  {
    var j :| j in m && Total(m) == m[j] + Total(m - {j});
    if j != k {
      TotalRemove(m - {j}, k);
      TotalRemove(m - {k}, j);
      assert m - {j} - {k} == m - {k} - {j};
    }
  }

  /** Changing or adding one value changes the sum by the difference. */
  lemma TotalUpdate<K>(m: map<K, real>, k: K, v: real)
    ensures Total(m[k := v]) == Total(m) - (if k in m then m[k] else 0.0) + v
  {
    TotalRemove(m[k := v], k);
    assert m[k := v] - {k} == m - {k};
    if k in m {
      TotalRemove(m, k);
    } else {
      assert m - {k} == m;
    }
  }

  /** A sum of non-negative values is at least each of them. */
  lemma {:induction false} TotalAtLeast<K>(m: map<K, real>)
    requires forall k :: k in m ==> m[k] >= 0.0
    ensures Total(m) >= 0.0
    ensures forall k :: k in m ==> m[k] <= Total(m)
    decreases |m|
  {
    forall k | k in m
      ensures m[k] <= Total(m)
    {
      TotalRemove(m, k);
      TotalAtLeast(m - {k});
    }
    if m != map[] {
      var k :| k in m;
      assert m[k] <= Total(m);
    }
  }

  /** The sum of two maps over the same keys. */
  lemma {:induction false} TotalAdd<K>(m: map<K, real>, a: map<K, real>, b: map<K, real>)
    requires m.Keys == a.Keys == b.Keys
    requires forall k :: k in m ==> m[k] == a[k] + b[k]
    ensures Total(m) == Total(a) + Total(b)
    decreases |m|
  {
    if m == map[] {
      assert a == map[] && b == map[] by { assert a.Keys == {} && b.Keys == {}; }
    } else {
      var k :| k in m;
      TotalRemove(m, k);
      TotalRemove(a, k);
      TotalRemove(b, k);
      TotalAdd(m - {k}, a - {k}, b - {k});
    }
  }

  /** y is c times x. */
  predicate Scaled(c: real, x: real, y: real) {
    y == c * x
  }

  lemma ScaledSum(c: real, x: real, y: real, x1: real, y1: real, sx: real, sy: real)
    requires Scaled(c, x, y) && Scaled(c, x1, y1) && sx == x + x1 && sy == y + y1
    ensures Scaled(c, sx, sy)
  {
  }

  /** A common factor comes out of the sum. */
  lemma {:induction false} TotalScale<K>(m: map<K, real>, r: map<K, real>, c: real)
    requires m.Keys == r.Keys && forall k :: k in m ==> Scaled(c, m[k], r[k])
    ensures Scaled(c, Total(m), Total(r))
    decreases |m|
  {
    if m == map[] {
      assert r == map[] by { assert r.Keys == {}; }
      assert Scaled(c, 0.0, 0.0);
    } else {
      var k :| k in m;
      TotalRemove(m, k);
      TotalRemove(r, k);
      TotalScale(m - {k}, r - {k}, c);
      ScaledSum(c, m[k], r[k], Total(m - {k}), Total(r - {k}), Total(m), Total(r));
    }
  }

  /** A sum of zeros. */
  lemma {:induction false} TotalZero<K>(m: map<K, real>)
    requires forall k :: k in m ==> m[k] == 0.0
    ensures Total(m) == 0.0
    decreases |m|
  {
    if m != map[] {
      var k :| k in m;
      TotalRemove(m, k);
      TotalZero(m - {k});
    }
  }

  /** The same value for every key. */
  lemma {:induction false} TotalSame<K>(m: map<K, real>, c: real)
    requires forall k :: k in m ==> m[k] == c
    ensures Scaled(c, |m.Keys| as real, Total(m))
    decreases |m|
  {
    if m == map[] {
      assert m.Keys == {};
    } else {
      var k :| k in m;
      TotalRemove(m, k);
      TotalSame(m - {k}, c);
      assert (m - {k}).Keys == m.Keys - {k};
      assert |m.Keys| == |m.Keys - {k}| + 1;
      assert Scaled(c, 1.0, c);
      ScaledSum(c, 1.0, c, |m.Keys - {k}| as real, Total(m - {k}), |m.Keys| as real, Total(m));
    }
  }
}
