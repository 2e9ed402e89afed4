/** Sums over finite maps. */
module Sums {

  ghost function Sum<K>(m: map<K, nat>): nat {
    if m == map[] then 0
    else
      var k :| k in m;
      m[k] + Sum(m - {k})
  }

  lemma {:induction false} SumSplits<K>(m: map<K, nat>, k: K)
    requires k in m
    ensures Sum(m) == m[k] + Sum(m - {k})
    decreases |m|
  {
    var j :| j in m && Sum(m) == m[j] + Sum(m - {j});
    if j != k {
      var rest := m - {j};
      SumSplits(rest, k);
      SumSplits(m - {k}, j);
      assert rest - {k} == m - {k} - {j};
    }
  }

  function Count<K(==)>(m: map<K, nat>, k: K): nat {
    if k in m then m[k] else 0
  }

  lemma SumUpdate<K>(m: map<K, nat>, k: K, v: nat)
    ensures Sum(m[k := v]) + Count(m, k) == Sum(m) + v
  {
    var m' := m[k := v];
    SumSplits(m', k);
    if k in m {
      SumSplits(m, k);
      assert m' - {k} == m - {k};
    } else {
      assert m' - {k} == m;
    }
  }

  lemma SumRemove<K>(m: map<K, nat>, k: K)
    ensures Sum(m - {k}) + Count(m, k) == Sum(m)
  {
    if k in m {
      SumSplits(m, k);
    } else {
      assert m - {k} == m;
    }
  }
}
