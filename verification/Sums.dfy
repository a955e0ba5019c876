/** Sums over the values of a map. */
module Sums {

  ghost function Sum<K(!new), V>(m: map<K, V>, f: V -> nat): nat {
    if m == map[] then 0
    else
      var k :| k in m;
      f(m[k]) + Sum(m - {k}, f)
  }

  /** It does not matter which key is taken first. */
  lemma {:induction false} SumTakes<K(!new), V>(m: map<K, V>, f: V -> nat, k: K)
    requires k in m
    ensures Sum(m, f) == f(m[k]) + Sum(m - {k}, f)
    decreases |m|
  {
    var first :| first in m && Sum(m, f) == f(m[first]) + Sum(m - {first}, f);
    if first != k {
      SumTakes(m - {first}, f, k);
      SumTakes(m - {k}, f, first);
      assert m - {first} - {k} == m - {k} - {first};
    }
  }

  lemma SumUpdate<K(!new), V>(m: map<K, V>, f: V -> nat, k: K, v: V)
    requires k in m
    ensures Sum(m[k := v], f) + f(m[k]) == Sum(m, f) + f(v)
  {
    SumTakes(m, f, k);
    SumTakes(m[k := v], f, k);
    assert m[k := v] - {k} == m - {k};
  }

  lemma SumInsert<K(!new), V>(m: map<K, V>, f: V -> nat, k: K, v: V)
    requires k !in m
    ensures Sum(m[k := v], f) == Sum(m, f) + f(v)
  {
    SumTakes(m[k := v], f, k);
    assert m[k := v] - {k} == m;
  }

  lemma {:induction false} SumAtMost<K(!new), V>(m: map<K, V>, f: V -> nat, g: V -> nat)
    requires forall k | k in m :: f(m[k]) <= g(m[k])
    ensures Sum(m, f) <= Sum(m, g)
    decreases |m|
  {
    if m != map[] {
      var k :| k in m;
      SumTakes(m, f, k);
      SumTakes(m, g, k);
      SumAtMost(m - {k}, f, g);
    }
  }
}
