/** Sums over finite maps. */
module Totals {

  ghost function Total<K(!new)>(m: map<K, nat>): nat
    decreases |m|
  {
    if m == map[] then 0 else
      var k :| k in m;
      m[k] + Total(m - {k})
  }

  /** Any key can be taken out first. */
  lemma {:induction false} TotalTake<K(!new)>(m: map<K, nat>, k: K)
    requires k in m
    ensures Total(m) == m[k] + Total(m - {k})
    decreases |m|
  {
    var first :| first in m && Total(m) == m[first] + Total(m - {first});
    if first != k {
      TotalTake(m - {first}, k);
      TotalTake(m - {k}, first);
      assert m - {first} - {k} == m - {k} - {first};
    }
  }

  lemma TotalSet<K(!new)>(m: map<K, nat>, k: K, n: nat)
    ensures Total(m[k := n]) == n + Total(m - {k})
    ensures Total(m) == (if k in m then m[k] else 0) + Total(m - {k})
  {
    TotalTake(m[k := n], k);
    assert m[k := n] - {k} == m - {k};
    if k in m {
      TotalTake(m, k);
    } else {
      assert m - {k} == m;
    }
  }
}
