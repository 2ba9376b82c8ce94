/** Totals over the rows of a table, and how one write changes them. */
module MapSums {

  ghost function Sum<K(!new), V(!new)>(m: map<K, V>, weight: V -> nat): nat
  {
    if m == map[] then 0
    else
      var k :| k in m;
      weight(m[k]) + Sum(m - {k}, weight)
  }

  /** The total does not depend on the order in which rows are visited. */
  lemma {:induction false} SumRemove<K(!new), V(!new)>(m: map<K, V>, weight: V -> nat, k: K)
    requires k in m
    ensures Sum(m, weight) == weight(m[k]) + Sum(m - {k}, weight)
    decreases |m|
  {
    var first :| first in m && Sum(m, weight) == weight(m[first]) + Sum(m - {first}, weight);
    if first != k {
      assert |m.Keys - {first}| < |m.Keys| && (m - {first}).Keys == m.Keys - {first};
      SumRemove(m - {first}, weight, k);
      assert |m.Keys - {k}| < |m.Keys| && (m - {k}).Keys == m.Keys - {k};
      SumRemove(m - {k}, weight, first);
      assert m - {first} - {k} == m - {k} - {first};
    }
  }

  lemma SumInsert<K(!new), V(!new)>(m: map<K, V>, weight: V -> nat, k: K, v: V)
    requires k !in m
    ensures Sum(m[k := v], weight) == Sum(m, weight) + weight(v)
  {
    SumRemove(m[k := v], weight, k);
    assert m[k := v] - {k} == m;
  }

  lemma SumUpdate<K(!new), V(!new)>(m: map<K, V>, weight: V -> nat, k: K, v: V)
    requires k in m
    ensures Sum(m[k := v], weight) + weight(m[k]) == Sum(m, weight) + weight(v)
  {
    SumRemove(m, weight, k);
    SumRemove(m[k := v], weight, k);
    assert m[k := v] - {k} == m - {k};
  }

  lemma SumCovers<K(!new), V(!new)>(m: map<K, V>, weight: V -> nat, k: K)
    requires k in m
    ensures weight(m[k]) <= Sum(m, weight)
  {
    SumRemove(m, weight, k);
  }

  /** Tables that differ only in rows without weight have the same total. */
  lemma {:induction false} SumAgree<K(!new), V(!new)>(m: map<K, V>, n: map<K, V>, weight: V -> nat)
    requires forall k :: k in m && weight(m[k]) != 0 ==> k in n && n[k] == m[k]
    requires forall k :: k in n && weight(n[k]) != 0 ==> k in m && m[k] == n[k]
    ensures Sum(m, weight) == Sum(n, weight)
    decreases |m|
  {
    if m == map[] {
      SumZero(n, weight);
    } else {
      var k :| k in m;
      SumRemove(m, weight, k);
      if k in n { SumRemove(n, weight, k); }
      assert |m.Keys - {k}| < |m.Keys| && (m - {k}).Keys == m.Keys - {k};
      assert k !in n ==> n - {k} == n;
      SumAgree(m - {k}, n - {k}, weight);
    }
  }

  lemma {:induction false} SumSameWeights<K(!new), V(!new)>(m: map<K, V>, f: V -> nat, g: V -> nat)
    requires forall k :: k in m ==> f(m[k]) == g(m[k])
    ensures Sum(m, f) == Sum(m, g)
    decreases |m|
  {
    if m != map[] {
      var k :| k in m;
      SumRemove(m, f, k);
      SumRemove(m, g, k);
      assert |m.Keys - {k}| < |m.Keys| && (m - {k}).Keys == m.Keys - {k};
      SumSameWeights(m - {k}, f, g);
    }
  }

  lemma {:induction false} SumZero<K(!new), V(!new)>(m: map<K, V>, weight: V -> nat)
    requires forall k :: k in m ==> weight(m[k]) == 0
    ensures Sum(m, weight) == 0
    decreases |m|
  {
    if m != map[] {
      var k :| k in m;
      SumRemove(m, weight, k);
      assert |m.Keys - {k}| < |m.Keys| && (m - {k}).Keys == m.Keys - {k};
      SumZero(m - {k}, weight);
    }
  }
}
