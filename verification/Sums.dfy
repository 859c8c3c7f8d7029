/** Sums over the values of a finite map. */
module Sums {

  ghost function SumOver<K, V>(m: map<K, V>, f: V -> nat): nat
  {
    if m == map[] then 0
    else
      var k :| k in m;
      f(m[k]) + SumOver(m - {k}, f)
  }

  function Itself(n: nat): nat { n }

  lemma {:induction false} SumRemove<K, V>(m: map<K, V>, k: K, f: V -> nat)
    requires k in m
    ensures SumOver(m, f) == f(m[k]) + SumOver(m - {k}, f)
    decreases |m|
  {
    var p :| p in m && SumOver(m, f) == f(m[p]) + SumOver(m - {p}, f);
    if p != k {
      SumRemove(m - {p}, k, f);
      SumRemove(m - {k}, p, f);
      assert m - {p} - {k} == m - {k} - {p};
    }
  }

  /** Writing one entry moves the sum by the difference that entry makes. */
  lemma SumPut<K, V>(m: map<K, V>, k: K, v: V, f: V -> nat)
    ensures SumOver(m[k := v], f) == SumOver(m, f) - (if k in m then f(m[k]) else 0) + f(v)
  {
    SumRemove(m[k := v], k, f);
    assert m[k := v] - {k} == m - {k};
    if k in m {
      SumRemove(m, k, f);
    } else {
      assert m - {k} == m;
    }
  }
}
