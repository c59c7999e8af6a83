/** Sums over finite maps, and the effect of changing one entry. */
module Totals {
  import NameOrder

  function Total(m: map<string, nat>): nat
    decreases |m|
  {
    if m == map[] then 0
    else
      var k := NameOrder.Least(m.Keys);
      m[k] + Total(m - {k})
  }

  lemma {:induction false} Remove(m: map<string, nat>, k: string)
    requires k in m
    ensures Total(m) == m[k] + Total(m - {k})
    decreases |m|
  {
    var j := NameOrder.Least(m.Keys);
    if j != k {
      Remove(m - {j}, k);
      Remove(m - {k}, j);
      assert m - {j} - {k} == m - {k} - {j};
    }
  }

  lemma Update(m: map<string, nat>, k: string, v: nat)
    ensures Total(m[k := v]) == Total(m) - (if k in m then m[k] else 0) + v
  {
    Remove(m[k := v], k);
    assert m[k := v] - {k} == m - {k};
    if k in m { Remove(m, k); } else { assert m - {k} == m; }
  }

  lemma {:induction false} Monotone(a: map<string, nat>, b: map<string, nat>)
    requires forall k :: k in a ==> k in b && a[k] <= b[k]
    ensures Total(a) <= Total(b)
    decreases |a|
  {
    if a != map[] {
      var k :| k in a;
      Remove(a, k);
      Remove(b, k);
      Monotone(a - {k}, b - {k});
    }
  }
}
