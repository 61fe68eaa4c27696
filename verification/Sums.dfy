/** Finite sums over the values of a map: the totals that the chain's invariants speak of. */
module Sums {

  ghost function Sum<K>(m: map<K, int>): (total: int)
    decreases |m|
  {
    if m == map[] then 0
    else
      var k :| k in m;
      m[k] + Sum(m - {k})
  }

  lemma {:induction false} SumRemove<K>(m: map<K, int>, k: K)
    requires k in m
    ensures Sum(m) == m[k] + Sum(m - {k})
    decreases |m|
  {
    var c :| c in m && Sum(m) == m[c] + Sum(m - {c});
    if c != k {
      SumRemove(m - {c}, k);
      SumRemove(m - {k}, c);
      assert m - {c} - {k} == m - {k} - {c};
    }
  }

  /** The value a map gives a key, with absent keys counting nothing. */
  ghost function At<K>(m: map<K, int>, k: K): int
  {
    if k in m then m[k] else 0
  }

  lemma {:induction false} SumUpdate<K>(m: map<K, int>, k: K, v: int)
    ensures Sum(m[k := v]) == Sum(m) - At(m, k) + v
  {
    SumRemove(m[k := v], k);
    assert m[k := v] - {k} == m - {k};
    if k in m {
      SumRemove(m, k);
    } else {
      assert m - {k} == m;
    }
  }

  /** Two maps that differ at one key only. */
  lemma {:induction false} SumChange<K>(m: map<K, int>, n: map<K, int>, x: K)
    requires x in m && x in n
    requires forall k :: k in m <==> k in n
    requires forall k :: k in m && k != x ==> m[k] == n[k]
    ensures Sum(n) == Sum(m) - m[x] + n[x]
  {
    SumRemove(m, x);
    SumRemove(n, x);
    assert m - {x} == n - {x};
  }

  /** `whole` is split by `m` and `n`. */
  ghost predicate Splits<K>(whole: map<K, int>, m: map<K, int>, n: map<K, int>)
  {
    && (forall k :: k in m ==> k in whole && k !in n && whole[k] == m[k])
    && (forall k :: k in n ==> k in whole && whole[k] == n[k])
    && (forall k :: k in whole ==> k in m || k in n)
  }

  lemma {:induction false} SumSplit<K>(whole: map<K, int>, m: map<K, int>, n: map<K, int>)
    requires Splits(whole, m, n)
    ensures Sum(whole) == Sum(m) + Sum(n)
    decreases |n|
  {
    if n == map[] {
      assert whole == m;
    } else {
      var k :| k in n;
      SumSplit(whole - {k}, m, n - {k});
      SumRemove(n, k);
      SumRemove(whole, k);
    }
  }

  lemma {:induction false} SumPlus<K>(m: map<K, int>, n: map<K, int>, s: map<K, int>)
    requires m.Keys == n.Keys == s.Keys
    requires forall k :: k in s ==> s[k] == m[k] + n[k]
    ensures Sum(s) == Sum(m) + Sum(n)
    decreases |s|
  {
    if s != map[] {
      var k :| k in s;
      SumRemove(m, k);
      SumRemove(n, k);
      SumRemove(s, k);
      SumPlus(m - {k}, n - {k}, s - {k});
    }
  }

  lemma {:induction false} SumZero<K>(m: map<K, int>)
    requires forall k :: k in m ==> m[k] == 0
    ensures Sum(m) == 0
    decreases |m|
  {
    if m != map[] {
      var k :| k in m;
      SumRemove(m, k);
      SumZero(m - {k});
    }
  }

  /** Dropping entries of a map of non-negative values cannot raise its sum. */
  lemma {:induction false} SumSubmap<K>(m: map<K, int>, n: map<K, int>)
    requires m.Keys <= n.Keys
    requires forall k :: k in m ==> m[k] == n[k]
    requires forall k :: k in n ==> 0 <= n[k]
    ensures 0 <= Sum(m) <= Sum(n)
    decreases |n|
  {
    if n != map[] {
      var k :| k in n;
      SumRemove(n, k);
      if k in m {
        SumRemove(m, k);
        SumSubmap(m - {k}, n - {k});
      } else {
        assert m - {k} == m;
        SumSubmap(m, n - {k});
      }
    } else {
      assert m == map[];
    }
  }

  /** The entries of `m` that the labelling `f` sends to `j`. */
  ghost function Fibre<K, J>(m: map<K, int>, f: map<K, J>, j: J): map<K, int>
  {
    map k | k in m && k in f && f[k] == j :: m[k]
  }

  lemma {:induction false} SplitFibre<K, J(!new)>(m: map<K, int>, f: map<K, J>, j: J) returns (rest: map<K, int>)
    requires forall k :: k in m ==> k in f
    ensures forall k :: k in rest ==> k in m && f[k] != j
    ensures Sum(m) == Sum(Fibre(m, f, j)) + Sum(rest)
    ensures forall i :: i != j ==> Fibre(rest, f, i) == Fibre(m, f, i)
  {
    rest := map k | k in m && f[k] != j :: m[k];
    SumSplit(m, Fibre(m, f, j), rest);
  }

  /** Grouping the entries of a map by any labelling and adding up the groups loses nothing. */
  lemma {:induction false} SumPartition<K, J(!new)>(m: map<K, int>, f: map<K, J>, groups: map<J, int>)
    requires forall k :: k in m ==> k in f && f[k] in groups
    requires forall j :: j in groups ==> groups[j] == Sum(Fibre(m, f, j))
    ensures Sum(groups) == Sum(m)
    decreases |groups|
  {
    if groups == map[] {
      assert m == map[];
    } else {
      var j :| j in groups;
      var rest := SplitFibre(m, f, j);
      SumPartition(rest, f, groups - {j});
      SumRemove(groups, j);
    }
  }

  lemma {:induction false} SumNonNegative<K>(m: map<K, int>)
    requires forall k :: k in m ==> m[k] >= 0
    ensures Sum(m) >= 0
    decreases |m|
  {
    if m != map[] {
      var k :| k in m;
      SumRemove(m, k);
      SumNonNegative(m - {k});
    }
  }
}
