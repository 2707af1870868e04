/** Sums of a real-valued measure over the entries of a finite map. */
module Sums {

  ghost function Sum<K(!new), V>(m: map<K, V>, f: (K, V) -> real): real
    decreases |m|
  {
    if m == map[] then 0.0
    else
      var k :| k in m;
      f(k, m[k]) + Sum(m - {k}, f)
  }

  lemma SumEmpty<K(!new), V>(f: (K, V) -> real)
    ensures Sum(map[], f) == 0.0
  {
  }

  /** What key `k` contributes, present or not. */
  ghost function Term<K, V>(m: map<K, V>, f: (K, V) -> real, k: K): real {
    if k in m then f(k, m[k]) else 0.0
  }

  /** The sum does not depend on which key is taken out first. */
  lemma {:induction false} SumRemove<K(!new), V>(m: map<K, V>, f: (K, V) -> real, k: K)
    requires k in m
    ensures Sum(m, f) == f(k, m[k]) + Sum(m - {k}, f)
    decreases |m|
  {
    var j :| j in m && Sum(m, f) == f(j, m[j]) + Sum(m - {j}, f);
    if j != k {
      SumRemove(m - {j}, f, k);
      SumRemove(m - {k}, f, j);
      assert m - {j} - {k} == m - {k} - {j};
    }
  }

  /** Writing one entry replaces that entry's contribution. */
  lemma SumUpdate<K(!new), V>(m: map<K, V>, f: (K, V) -> real, k: K, v: V)
    ensures Sum(m[k := v], f) == Sum(m, f) + f(k, v) - Term(m, f, k)
  {
    var n := m[k := v];
    SumRemove(n, f, k);
    if k in m {
      SumRemove(m, f, k);
      assert n - {k} == m - {k};
    } else {
      assert n - {k} == m;
    }
  }

  /** Taking an entry out, present or not. */
  lemma SumDrop<K(!new), V>(m: map<K, V>, f: (K, V) -> real, k: K)
    ensures Sum(m - {k}, f) == Sum(m, f) - Term(m, f, k)
  {
    if k in m {
      SumRemove(m, f, k);
    } else {
      assert m - {k} == m;
    }
  }

  /** A measure that is nowhere negative has a sum at least as large as each entry. */
  lemma {:induction false} SumNonNegative<K(!new), V>(m: map<K, V>, f: (K, V) -> real)
    requires forall k :: k in m ==> f(k, m[k]) >= 0.0
    ensures Sum(m, f) >= 0.0
    ensures forall k :: k in m ==> f(k, m[k]) <= Sum(m, f)
    decreases |m|
  {
    forall k | k in m ensures 0.0 <= f(k, m[k]) <= Sum(m, f) {
      SumRemove(m, f, k);
      SumNonNegative(m - {k}, f);
    }
  }

  /** Maps whose keys contribute alike have the same sum, even if their key sets differ. */
  lemma {:induction false} SumAgree<K(!new), V>(a: map<K, V>, b: map<K, V>, f: (K, V) -> real)
    requires forall k :: k in a ==> f(k, a[k]) == Term(b, f, k)
    requires forall k :: k in b ==> f(k, b[k]) == Term(a, f, k)
    ensures Sum(a, f) == Sum(b, f)
    decreases |a|, |b|
  {
    if a != map[] {
      var k :| k in a;
      SumDrop(a, f, k);
      SumDrop(b, f, k);
      SumAgree(a - {k}, b - {k}, f);
    } else if b != map[] {
      var k :| k in b;
      SumDrop(b, f, k);
      SumAgree(a, b - {k}, f);
    }
  }

  /** Sums are linear in the measure. */
  lemma {:induction false} SumDifference<K(!new), V>(m: map<K, V>, f: (K, V) -> real,
                                                     g: (K, V) -> real, h: (K, V) -> real)
    requires forall k :: k in m ==> f(k, m[k]) == g(k, m[k]) - h(k, m[k])
    ensures Sum(m, f) == Sum(m, g) - Sum(m, h)
    decreases |m|
  {
    if m != map[] {
      var k :| k in m;
      SumRemove(m, f, k);
      SumRemove(m, g, k);
      SumRemove(m, h, k);
      SumDifference(m - {k}, f, g, h);
    }
  }
}
