/** Sums over finite maps. */
module Totals {

  ghost function Total<K>(m: map<K, nat>): (n: nat)
    decreases |m|
  {
    if m == map[] then 0
    else
      var k :| k in m;
      m[k] + Total(m - {k})
  }

  lemma {:induction false} TotalSplit<K>(m: map<K, nat>, k: K)
    requires k in m
    ensures Total(m) == m[k] + Total(m - {k})
    decreases |m|
  {
    var c :| c in m && Total(m) == m[c] + Total(m - {c});
    if c != k {
      TotalSplit(m - {c}, k);
      TotalSplit(m - {k}, c);
      assert m - {c} - {k} == m - {k} - {c};
    }
  }

  lemma TotalPut<K>(m: map<K, nat>, k: K, v: nat)
    ensures Total(m[k := v]) == Total(m) - (if k in m then m[k] else 0) + v
  {
    TotalSplit(m[k := v], k);
    assert m[k := v] - {k} == m - {k};
    if k in m { TotalSplit(m, k); } else { assert m - {k} == m; }
  }

  lemma TotalDrop<K>(m: map<K, nat>, k: K)
    ensures Total(m - {k}) == Total(m) - (if k in m then m[k] else 0)
  {
    if k in m { TotalSplit(m, k); } else { assert m - {k} == m; }
  }
}
