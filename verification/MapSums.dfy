/** Sums over the values of a finite map. */
module MapSums {

  ghost function SumOf(m: map<nat, nat>): nat
    decreases |m|
  {
    if m == map[] then 0
    else
      var k :| k in m;
      m[k] + SumOf(m - {k})
  }

  lemma {:induction false} SumWithout(m: map<nat, nat>, k: nat)
    requires k in m
    ensures SumOf(m) == m[k] + SumOf(m - {k})
    decreases |m|
  {
    var j :| j in m && SumOf(m) == m[j] + SumOf(m - {j});
    if j != k {
      SumWithout(m - {j}, k);
      SumWithout(m - {k}, j);
      assert m - {j} - {k} == m - {k} - {j};
    }
  }

  lemma SumAfterUpdate(m: map<nat, nat>, k: nat, v: nat)
    ensures SumOf(m[k := v]) + (if k in m then m[k] else 0) == SumOf(m) + v
  {
    SumWithout(m[k := v], k);
    if k in m {
      SumWithout(m, k);
      assert m[k := v] - {k} == m - {k};
    } else {
      assert m[k := v] - {k} == m;
    }
  }

  lemma ValueAtMostSum(m: map<nat, nat>, k: nat)
    requires k in m
    ensures m[k] <= SumOf(m)
  {
    SumWithout(m, k);
  }
}
