/** Sums over finite maps. */
module Sums {
  ghost function Sum<K>(m: map<K, int>): int
    decreases |m|
  {
    if m == map[] then 0
    else
      var k :| k in m;
      assert (m - {k}).Keys == m.Keys - {k};
      m[k] + Sum(m - {k})
  }

  /** Any key may be taken out first. */
  lemma {:induction false} SumRemove<K>(m: map<K, int>, k: K)
    requires k in m
    ensures Sum(m) == m[k] + Sum(m - {k})
    decreases |m|
  {
    var x :| x in m && Sum(m) == m[x] + Sum(m - {x});
    if x != k {
      assert (m - {x}).Keys == m.Keys - {x} && (m - {k}).Keys == m.Keys - {k};
      SumRemove(m - {x}, k);
      SumRemove(m - {k}, x);
      assert m - {x} - {k} == m - {k} - {x};
    }
  }

  lemma SumUpdate<K>(m: map<K, int>, k: K, v: int)
    ensures Sum(m[k := v]) == Sum(m) + v - (if k in m then m[k] else 0)
  {
    SumRemove(m[k := v], k);
    assert m[k := v] - {k} == m - {k};
    if k in m {
      SumRemove(m, k);
    } else {
      assert m - {k} == m;
    }
  }

  lemma {:induction false} SumNonNegative<K>(m: map<K, int>)
    requires forall k :: k in m ==> m[k] >= 0
    ensures Sum(m) >= 0
    decreases |m|
  {
    if m == map[] {
    } else {
      var k :| k in m;
      SumRemove(m, k);
      assert (m - {k}).Keys == m.Keys - {k};
      SumNonNegative(m - {k});
    }
  }

  /** Of non-negative summands, one or two different ones never exceed the sum. */
  lemma SumBoundsParts<K>(m: map<K, int>, j: K, k: K)
    requires forall i :: i in m ==> m[i] >= 0
    requires j in m && k in m
    ensures m[j] <= Sum(m) && m[k] <= Sum(m)
    ensures j != k ==> m[j] + m[k] <= Sum(m)
  {
    SumRemove(m, j);
    SumNonNegative(m - {j});
    if j != k {
      SumRemove(m - {j}, k);
      SumNonNegative(m - {j} - {k});
    }
  }
}
