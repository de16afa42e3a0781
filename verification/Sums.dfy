/** Sums over finite maps. */
module Sums {

  lemma SomeKey<K>(f: map<K, int>)
    requires f != map[]
    ensures exists k :: k in f
  {
    if forall k :: k !in f { assert false; }
  }

  ghost function Pick<K(!new)>(f: map<K, int>): (k: K)
    requires f != map[]
    ensures k in f
  {
    SomeKey(f);
    var k :| k in f;
    k
  }

  /** The sum of the values. */
  ghost function Sum<K(!new)>(f: map<K, int>): int {
    if f == map[] then 0 else var k := Pick(f); f[k] + Sum(f - {k})
  }

  /** Any key may be taken out first. */
  lemma {:induction false} SumSplit<K(!new)>(f: map<K, int>, k: K)
    requires k in f
    ensures Sum(f) == f[k] + Sum(f - {k})
    decreases |f|
  {
    var j := Pick(f);
    if j != k {
      SumSplit(f - {j}, k);
      SumSplit(f - {k}, j);
      assert f - {j} - {k} == f - {k} - {j};
    }
  }

  /** Setting one value moves the sum by the difference. */
  lemma SumSet<K(!new)>(f: map<K, int>, k: K, v: int)
    ensures Sum(f[k := v]) == Sum(f) + v - if k in f then f[k] else 0
  {
    SumSplit(f[k := v], k);
    if k in f {
      SumSplit(f, k);
      assert f[k := v] - {k} == f - {k};
    } else {
      assert f[k := v] - {k} == f;
    }
  }
}
