/** Sums over finite maps. */
module Sums {

  ghost function SumMap<A, B>(m: map<A, B>, f: B -> nat): nat
    decreases |m|
  {
    if m == map[] then 0
    else
      var k :| k in m;
      f(m[k]) + SumMap(m - {k}, f)
  }

  lemma {:induction false} SumRemove<A, B>(m: map<A, B>, f: B -> nat, k: A)
    requires k in m
    ensures SumMap(m, f) == f(m[k]) + SumMap(m - {k}, f)
    decreases |m|
  {
    var j :| j in m && SumMap(m, f) == f(m[j]) + SumMap(m - {j}, f);
    if j != k {
      SumRemove(m - {j}, f, k);
      SumRemove(m - {k}, f, j);
      assert m - {j} - {k} == m - {k} - {j};
    }
  }

  lemma SumUpdate<A, B>(m: map<A, B>, f: B -> nat, k: A, v: B)
    ensures SumMap(m[k := v], f) + (if k in m then f(m[k]) else 0) == SumMap(m, f) + f(v)
  {
    SumRemove(m[k := v], f, k);
    if k in m {
      SumRemove(m, f, k);
      assert m[k := v] - {k} == m - {k};
    } else {
      assert m[k := v] - {k} == m;
    }
  }
}
