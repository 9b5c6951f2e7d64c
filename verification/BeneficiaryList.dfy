/** Beneficiary vectors: allocation sums, swap-remove and the removal of a set of positions. */
module BeneficiaryList {
  import opened MachineInts
  import opened PlanTypes

  function BpSum(bens: seq<Beneficiary>): nat {
    if bens == [] then 0 else BpSum(bens[..|bens| - 1]) + bens[|bens| - 1].allocationBp
  }

  lemma BpSumPush(bens: seq<Beneficiary>, b: Beneficiary)
    ensures BpSum(bens + [b]) == BpSum(bens) + b.allocationBp
  {
    assert (bens + [b])[..|bens|] == bens;
  }

  lemma {:induction false} BpSumUpdate(bens: seq<Beneficiary>, i: nat, b: Beneficiary)
    requires i < |bens|
    ensures BpSum(bens[i := b]) + bens[i].allocationBp == BpSum(bens) + b.allocationBp
  {
    var n := |bens| - 1;
    if i == n {
      assert bens[i := b][..n] == bens[..n];
    } else {
      assert bens[i := b][..n] == bens[..n][i := b];
      BpSumUpdate(bens[..n], i, b);
    }
  }

  lemma {:induction false} BpAtMostSum(bens: seq<Beneficiary>, i: nat)
    requires i < |bens|
    ensures bens[i].allocationBp <= BpSum(bens)
  {
    if i < |bens| - 1 {
      BpAtMostSum(bens[..|bens| - 1], i);
    }
  }

  /** Removal by moving the last element into the hole. */
  function SwapRemove(bens: seq<Beneficiary>, i: nat): seq<Beneficiary>
    requires i < |bens|
  {
    var last := |bens| - 1;
    if i == last then bens[..last] else bens[i := bens[last]][..last]
  }

  lemma SwapRemoveEffect(bens: seq<Beneficiary>, i: nat)
    requires i < |bens|
    ensures |SwapRemove(bens, i)| == |bens| - 1
    ensures SwapRemove(bens, i)[..i] == bens[..i]
    ensures multiset(SwapRemove(bens, i)) == multiset(bens) - multiset{bens[i]}
    ensures BpSum(SwapRemove(bens, i)) == BpSum(bens) - bens[i].allocationBp
  {
    var last := |bens| - 1;
    assert bens == bens[..last] + [bens[last]];
    if i < last {
      var moved := bens[i := bens[last]];
      assert moved == moved[..last] + [bens[last]];
      BpSumUpdate(bens, i, bens[last]);
    }
  }

  /** The distinct positions below `n` that the index list names, from high to low. */
  function NamedBelow(indices: seq<u32>, n: nat): seq<nat> {
    if n == 0 then []
    else if n - 1 in indices then [n - 1] + NamedBelow(indices, n - 1)
    else NamedBelow(indices, n - 1)
  }

  /** The beneficiaries below position `n` that the index list does not name. */
  function UnnamedBelow(bens: seq<Beneficiary>, indices: seq<u32>, n: nat): seq<Beneficiary>
    requires n <= |bens|
  {
    if n == 0 then []
    else if n - 1 in indices then UnnamedBelow(bens, indices, n - 1)
    else UnnamedBelow(bens, indices, n - 1) + [bens[n - 1]]
  }

  /** The removal loop: positions outside the shrinking vector are skipped. */
  function RemoveEach(bens: seq<Beneficiary>, order: seq<nat>): seq<Beneficiary>
    decreases |order|
  {
    if order == [] then bens
    else if order[0] >= |bens| then RemoveEach(bens, order[1..])
    else RemoveEach(SwapRemove(bens, order[0]), order[1..])
  }

  /** The allocation total that the loop carries along, with its saturating subtraction. */
  function TotalAfterRemovals(bens: seq<Beneficiary>, total: u32, order: seq<nat>): u32
    decreases |order|
  {
    if order == [] then total
    else if order[0] >= |bens| then TotalAfterRemovals(bens, total, order[1..])
    else TotalAfterRemovals(SwapRemove(bens, order[0]), SaturatingSub(total, bens[order[0]].allocationBp), order[1..])
  }

  /** One effective round of the removal loop. */
  lemma OneRemoval(bens: seq<Beneficiary>, total: u32, order: seq<nat>) returns (next: seq<Beneficiary>, left: u32)
    requires order != [] && order[0] < |bens| && total == BpSum(bens)
    ensures |next| < |bens| && left == BpSum(next) <= total
    ensures RemoveEach(bens, order) == RemoveEach(next, order[1..])
    ensures TotalAfterRemovals(bens, total, order) == TotalAfterRemovals(next, left, order[1..])
  {
    next, left := SwapRemove(bens, order[0]), SaturatingSub(total, bens[order[0]].allocationBp);
    SwapRemoveEffect(bens, order[0]);
    BpAtMostSum(bens, order[0]);
  }

  lemma {:induction false} TotalFollowsRemovals(bens: seq<Beneficiary>, total: u32, order: seq<nat>)
    requires total == BpSum(bens)
    ensures TotalAfterRemovals(bens, total, order) == BpSum(RemoveEach(bens, order)) <= total
    ensures |RemoveEach(bens, order)| <= |bens|
    decreases |order|
  {
    if order != [] {
      if order[0] >= |bens| {
        TotalFollowsRemovals(bens, total, order[1..]);
      } else {
        var next, left := OneRemoval(bens, total, order);
        TotalFollowsRemovals(next, left, order[1..]);
      }
    }
  }

  /** Strictly falling positions. */
  ghost predicate Falling(order: seq<nat>) {
    forall i, j :: 0 <= i < j < |order| ==> order[i] > order[j]
  }

  lemma {:induction false} NamedBelowMembers(indices: seq<u32>, n: nat)
    ensures forall k :: k in NamedBelow(indices, n) <==> 0 <= k < n && k in indices
    ensures Falling(NamedBelow(indices, n))
  {
    if n > 0 {
      NamedBelowMembers(indices, n - 1);
      var rest := NamedBelow(indices, n - 1);
      assert forall k :: 0 <= k < |rest| ==> rest[k] in rest;
    }
  }

  /** Only one falling sequence has a given set of members. */
  lemma {:induction false} FallingIsUnique(a: seq<nat>, b: seq<nat>)
    requires Falling(a) && Falling(b)
    requires forall k :: k in a <==> k in b
    ensures a == b
  {
    assert |b| > 0 ==> b[0] in a;
    assert |a| > 0 ==> a[0] in b;
    if |a| > 0 && |b| > 0 {
      var i :| 0 <= i < |b| && b[i] == a[0];
      var j :| 0 <= j < |a| && a[j] == b[0];
      assert a[0] == b[0];
      forall k
        ensures k in a[1..] <==> k in b[1..]
      {
        assert k in a <==> k == a[0] || k in a[1..];
        assert k in b <==> k == b[0] || k in b[1..];
      }
      FallingIsUnique(a[1..], b[1..]);
    }
  }

  /** Removing position n - 1 keeps the part below it and the contents of the part above. */
  lemma SwapRemoveTop(bens: seq<Beneficiary>, n: nat)
    requires 0 < n <= |bens|
    ensures var next := SwapRemove(bens, n - 1);
            |next| == |bens| - 1 && next[..n - 1] == bens[..n - 1] && multiset(next[n - 1..]) == multiset(bens[n..])
  {
    var next := SwapRemove(bens, n - 1);
    var last := |bens| - 1;
    if n <= last {
      assert next[n - 1..] == [bens[last]] + bens[n..last];
      assert bens[n..] == bens[n..last] + [bens[last]];
    }
  }

  lemma RemoveFirstOf(bens: seq<Beneficiary>, i: nat, rest: seq<nat>)
    requires i < |bens|
    ensures RemoveEach(bens, [i] + rest) == RemoveEach(SwapRemove(bens, i), rest)
  {
    assert ([i] + rest)[1..] == rest;
  }

  /** The highest named position is the first to go. */
  lemma TopNamed(bens: seq<Beneficiary>, indices: seq<u32>, n: nat) returns (next: seq<Beneficiary>)
    requires 0 < n <= |bens| && n - 1 in indices
    ensures |next| == |bens| - 1 && next[..n - 1] == bens[..n - 1] && multiset(next[n - 1..]) == multiset(bens[n..])
    ensures RemoveEach(bens, NamedBelow(indices, n)) == RemoveEach(next, NamedBelow(indices, n - 1))
    ensures |NamedBelow(indices, n)| == |NamedBelow(indices, n - 1)| + 1
  {
    next := SwapRemove(bens, n - 1);
    SwapRemoveTop(bens, n);
    RemoveFirstOf(bens, n - 1, NamedBelow(indices, n - 1));
  }

  /** An unnamed position joins the ones that stay. */
  lemma TopUnnamed(bens: seq<Beneficiary>, original: seq<Beneficiary>, indices: seq<u32>, n: nat)
    requires 0 < n <= |bens| && n <= |original| && n - 1 !in indices && bens[n - 1] == original[n - 1]
    ensures NamedBelow(indices, n) == NamedBelow(indices, n - 1)
    ensures multiset(UnnamedBelow(original, indices, n - 1)) + multiset(bens[n - 1..]) ==
            multiset(UnnamedBelow(original, indices, n)) + multiset(bens[n..])
  {
    assert bens[n - 1..] == [bens[n - 1]] + bens[n..];
  }

  lemma ShorterPrefix(a: seq<Beneficiary>, b: seq<Beneficiary>, n: nat)
    requires 0 < n <= |a| && n <= |b| && a[..n] == b[..n]
    ensures a[..n - 1] == b[..n - 1] && a[n - 1] == b[n - 1]
  {
    assert a[..n - 1] == a[..n][..n - 1] && b[..n - 1] == b[..n][..n - 1];
    assert a[n - 1] == a[..n][n - 1] && b[n - 1] == b[..n][n - 1];
  }

  /** What is left when positions below `n` were removed: the unnamed ones, and whatever stood above. */
  ghost predicate Leaves(original: seq<Beneficiary>, indices: seq<u32>, n: nat, above: seq<Beneficiary>,
                         left: seq<Beneficiary>)
    requires n <= |original|
  {
    multiset(left) == multiset(UnnamedBelow(original, indices, n)) + multiset(above)
  }

  /**
   Removing the named positions from high to low leaves exactly the beneficiaries that no index
   names: each swap moves an element from above, which the lower positions never see.
   */
  lemma {:induction false} RemovalLeavesUnnamed(original: seq<Beneficiary>, bens: seq<Beneficiary>, indices: seq<u32>,
                                                n: nat)
    requires n <= |original| && n <= |bens| && bens[..n] == original[..n]
    ensures Leaves(original, indices, n, bens[n..], RemoveEach(bens, NamedBelow(indices, n)))
    ensures |RemoveEach(bens, NamedBelow(indices, n))| == |bens| - |NamedBelow(indices, n)|
    decreases n
  {
    if n == 0 {
      assert bens[0..] == bens;
    } else {
      ShorterPrefix(bens, original, n);
      if n - 1 in indices {
        var next := TopNamed(bens, indices, n);
        RemovalLeavesUnnamed(original, next, indices, n - 1);
      } else {
        TopUnnamed(bens, original, indices, n);
        RemovalLeavesUnnamed(original, bens, indices, n - 1);
      }
    }
  }
}
