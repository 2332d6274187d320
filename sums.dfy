/** Sums over the entries of a finite map, independent of the order in
    which the keys are visited. Used for the money held in the user table
    and for the per-location counts of a summary. */
module Sums {

  /** Some key of a non-empty set. */
  ghost function Pick<K>(keys: set<K>): (k: K)
    requires keys != {}
    ensures k in keys
  {
    var k :| k in keys; k
  }

  /** The sum of `f` over the values of `m`. */
  ghost function SumBy<K, V>(m: map<K, V>, f: V -> int): int
    decreases m.Keys
  {
    if m == map[] then 0
    else
      var k := Pick(m.Keys);
      f(m[k]) + SumBy(m - {k}, f)
  }

  /** Any key may be taken out first: the sum does not depend on the key
      `Pick` happens to choose. */
  lemma {:induction false} SumByRemove<K, V>(m: map<K, V>, f: V -> int, k: K)
    requires k in m
    ensures SumBy(m, f) == f(m[k]) + SumBy(m - {k}, f)
    decreases m.Keys
  {
    var p := Pick(m.Keys);
    if p != k {
      assert SumBy(m, f) == f(m[p]) + SumBy(m - {p}, f);
      SumByRemove(m - {p}, f, k);
      SumByRemove(m - {k}, f, p);
      assert (m - {p}) - {k} == (m - {k}) - {p};
    }
  }

  /** Overwriting (or adding) the entry for `k` changes the sum by the
      difference of the two values. */
  lemma SumByUpdate<K, V>(m: map<K, V>, f: V -> int, k: K, v: V)
    ensures SumBy(m[k := v], f) == SumBy(m, f) - (if k in m then f(m[k]) else 0) + f(v)
  {
    SumByRemove(m[k := v], f, k);
    assert m[k := v] - {k} == m - {k};
    if k in m {
      SumByRemove(m, f, k);
    } else {
      assert m - {k} == m;
    }
  }
}
