/** Sums over the entries of a map, independent of the order in which entries are visited. */
module Sums {
  ghost function SumMap<K(!new), V(!new)>(m: map<K, V>, f: V -> nat): nat
    decreases |m|
  {
    if m == map[] then 0
    else
      var k :| k in m;
      f(m[k]) + SumMap(m - {k}, f)
  }

  lemma RemoveTwice<K, V>(m: map<K, V>, a: K, b: K)
    ensures (m - {a}) - {b} == (m - {b}) - {a}
  {
  }

  // Any entry can be split off, not only the one the definition happens to choose.
  lemma {:induction false} SumSplit<K(!new), V(!new)>(m: map<K, V>, f: V -> nat, k: K)
    requires k in m
    ensures SumMap(m, f) == f(m[k]) + SumMap(m - {k}, f)
    decreases |m|
  {
    var c :| c in m && SumMap(m, f) == f(m[c]) + SumMap(m - {c}, f);
    if c != k {
      SumSplit(m - {c}, f, k);
      RemoveTwice(m, c, k);
      SumSplit(m - {k}, f, c);
    }
  }

  // Writing one entry replaces that entry's share and leaves the rest alone.
  lemma SumUpdate<K(!new), V(!new)>(m: map<K, V>, f: V -> nat, k: K, v: V)
    ensures SumMap(m[k := v], f) == f(v) + SumMap(m - {k}, f)
    ensures k !in m ==> SumMap(m[k := v], f) == f(v) + SumMap(m, f)
  {
    SumSplit(m[k := v], f, k);
    assert m[k := v] - {k} == m - {k};
    if k !in m {
      assert m - {k} == m;
    }
  }

  // A sum is zero exactly when every entry's share is.
  lemma {:induction false} SumZeroIff<K(!new), V(!new)>(m: map<K, V>, f: V -> nat)
    ensures SumMap(m, f) == 0 <==> forall k :: k in m ==> f(m[k]) == 0
    decreases |m|
  {
    if m != map[] {
      var c :| c in m;
      SumSplit(m, f, c);
      SumZeroIff(m - {c}, f);
      assert forall k :: k in m ==> k == c || (k in m - {c} && (m - {c})[k] == m[k]);
    }
  }
}
