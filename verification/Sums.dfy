/** The total of the values of a finite map. */
module Sums {

  ghost function Total<K(!new)>(m: map<K, real>): real
    decreases |m|
  {
    if m == map[] then 0.0
    else
      var k :| k in m;
      m[k] + Total(m - {k})
  }

  /** Any key may be taken out first. */
  lemma {:induction false} TotalRemove<K(!new)>(m: map<K, real>, k: K)
    requires k in m
    ensures Total(m) == m[k] + Total(m - {k})
    decreases |m|
  {
    var j :| j in m && Total(m) == m[j] + Total(m - {j});
    if j != k {
      TotalRemove(m - {j}, k);
      TotalRemove(m - {k}, j);
      assert m - {j} - {k} == m - {k} - {j};
    }
  }

  lemma TotalUpdate<K(!new)>(m: map<K, real>, k: K, v: real)
    ensures Total(m[k := v]) == Total(m) + v - (if k in m then m[k] else 0.0)
  {
    var m' := m[k := v];
    TotalRemove(m', k);
    assert m' - {k} == m - {k};
    if k in m {
      TotalRemove(m, k);
    } else {
      assert m - {k} == m;
    }
  }

  /** New keys with value zero do not change the total. */
  lemma {:induction false} TotalExtend<K(!new)>(m: map<K, real>, m': map<K, real>)
    requires m.Keys <= m'.Keys
    requires forall k :: k in m' ==> m'[k] == if k in m then m[k] else 0.0
    ensures Total(m') == Total(m)
    decreases |m'|
  {
    if m'.Keys == m.Keys {
      assert m' == m;
    } else {
      var k :| k in m' && k !in m;
      TotalRemove(m', k);
      TotalExtend(m, m' - {k});
    }
  }
}
