/** Sums over the holders of something. */
module Holders {
  import opened Sums

  /** The sum of one number per holder. */
  ghost function SumOf<K, V(!new)>(m: map<K, V>, f: V -> int): int
  {
    Sum(map k | k in m :: f(m[k]))
  }

  lemma {:induction false} SumOfUpdate<K, V(!new)>(m: map<K, V>, f: V -> int, k: K, v: V)
    ensures SumOf(m[k := v], f) == SumOf(m, f) + f(v) - if k in m then f(m[k]) else 0
  {
    var n := map x | x in m :: f(m[x]);
    SumUpdate(n, k, f(v));
    var m' := m[k := v];
    assert (map x | x in m' :: f(m'[x])) == n[k := f(v)];
  }

  lemma {:induction false} SumOfRemove<K, V(!new)>(m: map<K, V>, f: V -> int, k: K)
    requires k in m
    ensures SumOf(m - {k}, f) == SumOf(m, f) - f(m[k])
  {
    var n := map x | x in m :: f(m[x]);
    SumRemove(n, k);
    assert (map x | x in m - {k} :: f((m - {k})[x])) == n - {k};
  }

  lemma {:induction false} SumOfNonNegative<K, V(!new)>(m: map<K, V>, f: V -> int)
    requires forall k :: k in m ==> f(m[k]) >= 0
    ensures SumOf(m, f) >= 0
  {
    SumNonNegative(map k | k in m :: f(m[k]));
  }
}
