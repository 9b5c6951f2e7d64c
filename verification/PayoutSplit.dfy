/**
 Allocation checks and payout splits of the plan handlers (backend/src/api.rs). Amounts are exact
 decimals, modelled as `real`; allocations are in basis points of the payout total.
 */
module PayoutSplit {
  import opened MachineInts

  const MAX_BENEFICIARIES: nat := 100
  const WHOLE_BPS: int := 10000

  // ---------- allocation checks ----------

  datatype Allocation = Allocation(address: string, bps: u32)

  datatype Rejection = NoBeneficiaries | TooManyBeneficiaries | BlankAddress | OversizedShare | WrongTotal(total: nat)

  /** Unicode white space, which trimming removes. */
  predicate IsSpace(c: char) {
    var n := c as int;
    9 <= n <= 13 || n == 0x20 || n == 0x85 || n == 0xA0 || n == 0x1680 || 0x2000 <= n <= 0x200A
    || n == 0x2028 || n == 0x2029 || n == 0x202F || n == 0x205F || n == 0x3000
  }

  predicate Blank(address: string) {
    forall c <- address :: IsSpace(c)
  }

  predicate WellFormed(a: Allocation) {
    !Blank(a.address) && a.bps <= WHOLE_BPS
  }

  function BpsOf(list: seq<Allocation>): seq<int> {
    seq(|list|, i requires 0 <= i < |list| => list[i].bps)
  }

  function SumBps(bps: seq<int>): int {
    if bps == [] then 0 else SumBps(bps[..|bps| - 1]) + bps[|bps| - 1]
  }

  ghost predicate WellAllocated(list: seq<Allocation>) {
    && |list| <= MAX_BENEFICIARIES
    && (forall a <- list :: WellFormed(a))
    && SumBps(BpsOf(list)) == WHOLE_BPS
  }

  /** The check loop: it accepts exactly the well-allocated lists and reports the first offence. */
  method CheckAllocations(list: seq<Allocation>) returns (r: Result<(), Rejection>)
    ensures r.Ok? <==> WellAllocated(list)
    ensures r == Err(TooManyBeneficiaries) <==> |list| > 100
    ensures r.Err? && (r.error.BlankAddress? || r.error.OversizedShare?) ==>
              exists i :: 0 <= i < |list|
                          && (if r.error.BlankAddress? then Blank(list[i].address)
                              else !Blank(list[i].address) && list[i].bps > 10_000)
                          && forall k :: 0 <= k < i ==> !Blank(list[k].address) && list[k].bps <= 10_000
    ensures r.Err? && r.error.WrongTotal? ==>
              && (forall a <- list :: !Blank(a.address) && a.bps <= 10_000)
              && r.error.total == SumBps(BpsOf(list)) != 10_000
    ensures r != Err(NoBeneficiaries)
  {
    if |list| > MAX_BENEFICIARIES {
      return Err(TooManyBeneficiaries);
    }
    var total: nat := 0;
    for k := 0 to |list|
      invariant forall i :: 0 <= i < k ==> WellFormed(list[i])
      invariant total == SumBps(BpsOf(list[..k]))
      invariant total <= k * WHOLE_BPS
    {
      assert list[k] in list;
      if Blank(list[k].address) {
        return Err(BlankAddress);
      }
      if list[k].bps > WHOLE_BPS {
        return Err(OversizedShare);
      }
      assert BpsOf(list[..k + 1])[..k] == BpsOf(list[..k]);
      total := total + list[k].bps;
    }
    assert list[..|list|] == list;
    if total != WHOLE_BPS {
      return Err(WrongTotal(total));
    }
    r := Ok(());
  }

  /** A new plan needs at least one beneficiary. */
  method CheckNewPlan(list: seq<Allocation>) returns (r: Result<(), Rejection>)
    ensures r.Ok? <==> list != [] && WellAllocated(list)
    ensures r == Err(NoBeneficiaries) <==> list == []
  {
    if list == [] {
      return Err(NoBeneficiaries);
    }
    r := CheckAllocations(list);
  }

  /** An update replaces the stored list, or keeps it when it carries none. */
  method CheckUpdate(stored: seq<Allocation>, list: seq<Allocation>) returns (r: Result<seq<Allocation>, Rejection>)
    ensures r.Ok? <==> list == [] || WellAllocated(list)
    ensures r.Ok? ==> r.value == if list == [] then stored else list
    ensures stored != [] && WellAllocated(stored) && r.Ok? ==> r.value != [] && WellAllocated(r.value)
  {
    if list == [] {
      return Ok(stored);
    }
    var checked := CheckAllocations(list);
    r := if checked.Ok? then Ok(list) else Err(checked.error);
  }

  // ---------- shares ----------

  /** The share that an allocation is entitled to, before rounding. */
  function Exact(total: real, bps: int): real {
    total * bps as real / 10000.0
  }

  function Floored(total: real, bps: int): real {
    Exact(total, bps).Floor as real
  }

  function SumFloored(total: real, bps: seq<int>): real {
    if bps == [] then 0.0 else SumFloored(total, bps[..|bps| - 1]) + Floored(total, bps[|bps| - 1])
  }

  /** Everyone gets the floor of the exact share, except the last, who gets what is left. */
  function ShareAt(total: real, bps: seq<int>, i: nat): real
    requires i < |bps|
  {
    if i == |bps| - 1 then total - SumFloored(total, bps[..i]) else Floored(total, bps[i])
  }

  lemma ExactAdds(total: real, a: int, b: int)
    ensures Exact(total, a + b) == Exact(total, a) + Exact(total, b)
  {
    assert (a + b) as real == a as real + b as real;
    assert total * (a as real + b as real) == total * a as real + total * b as real;
  }

  lemma ExactNonNegative(total: real, bps: int)
    requires total >= 0.0 && bps >= 0
    ensures Exact(total, bps) >= 0.0
  {
    assert total * bps as real >= 0.0;
  }

  /** Rounding down loses less than one unit a share. */
  lemma {:induction false} SumFlooredBounds(total: real, bps: seq<int>)
    ensures SumFloored(total, bps) <= Exact(total, SumBps(bps))
    ensures bps != [] ==> Exact(total, SumBps(bps)) < SumFloored(total, bps) + |bps| as real
  {
    if bps != [] {
      var n := |bps| - 1;
      SumFlooredBounds(total, bps[..n]);
      ExactAdds(total, SumBps(bps[..n]), bps[n]);
      assert Floored(total, bps[n]) <= Exact(total, bps[n]) < Floored(total, bps[n]) + 1.0;
    }
  }

  /**
   For allocations of exactly the whole: no share is negative, every share but the last is its exact share
   rounded down, and the last is at least its exact share and less than `n - 1` units above it.
   */
  lemma SharesAreFair(total: real, bps: seq<int>, i: nat)
    requires total >= 0.0 && i < |bps| && SumBps(bps) == WHOLE_BPS && forall b <- bps :: 0 <= b
    ensures ShareAt(total, bps, i) >= 0.0
    ensures i < |bps| - 1 ==> ShareAt(total, bps, i) <= Exact(total, bps[i]) < ShareAt(total, bps, i) + 1.0
    ensures i == |bps| - 1 ==> Exact(total, bps[i]) <= ShareAt(total, bps, i)
    ensures i == |bps| - 1 && i > 0 ==> ShareAt(total, bps, i) < Exact(total, bps[i]) + i as real
    ensures |bps| == 1 ==> ShareAt(total, bps, 0) == total
  {
    assert bps[i] in bps;
    ExactNonNegative(total, bps[i]);
    if i == |bps| - 1 {
      SumFlooredBounds(total, bps[..i]);
      ExactAdds(total, SumBps(bps[..i]), bps[i]);
      assert Exact(total, WHOLE_BPS) == total;
    }
  }

  /** All shares of a split. */
  function Shares(total: real, bps: seq<int>): (r: seq<real>)
    ensures |r| == |bps|
  {
    seq(|bps|, i requires 0 <= i < |bps| => ShareAt(total, bps, i))
  }

  function Sum(shares: seq<real>): real {
    if shares == [] then 0.0 else Sum(shares[..|shares| - 1]) + shares[|shares| - 1]
  }

  lemma {:induction false} FlooredPrefix(total: real, bps: seq<int>, k: nat)
    requires k < |bps|
    ensures Sum(Shares(total, bps)[..k]) == SumFloored(total, bps[..k])
  {
    if k > 0 {
      FlooredPrefix(total, bps, k - 1);
      assert Shares(total, bps)[..k][..k - 1] == Shares(total, bps)[..k - 1];
      assert bps[..k][..k - 1] == bps[..k - 1];
    }
  }

  /** The last share closes the gap to the total, whatever the total and the allocations are. */
  lemma SharesSumToTotal(total: real, bps: seq<int>)
    requires bps != []
    ensures Sum(Shares(total, bps)) == total
  {
    FlooredPrefix(total, bps, |bps| - 1);
  }

  lemma SharesNonNegative(total: real, bps: seq<int>)
    requires total >= 0.0 && SumBps(bps) == WHOLE_BPS && forall b <- bps :: 0 <= b
    ensures forall share <- Shares(total, bps) :: share >= 0.0
  {
    forall i | 0 <= i < |bps|
      ensures Shares(total, bps)[i] >= 0.0
    {
      SharesAreFair(total, bps, i);
    }
  }

  // ---------- payout rows ----------

  datatype Beneficiary = Beneficiary(id: nat, address: string, bps: int, anchorInfo: string, dailyLimit: real) {
    predicate IsFiat() {
      !Blank(anchorInfo)
    }
  }

  datatype PayoutRow = PayoutRow(address: string, amount: real, fiat: bool)

  function AllBps(list: seq<Beneficiary>): (r: seq<int>)
    ensures |r| == |list|
  {
    seq(|list|, i requires 0 <= i < |list| => list[i].bps)
  }

  function RowFor(b: Beneficiary, share: real): PayoutRow {
    PayoutRow(b.address, share, b.IsFiat())
  }

  /** The rows of the first `k` beneficiaries: one for each positive share, in order. */
  function RowsUpTo(list: seq<Beneficiary>, shares: seq<real>, k: nat): seq<PayoutRow>
    requires k <= |list| == |shares|
  {
    if k == 0 then []
    else RowsUpTo(list, shares, k - 1) + if shares[k - 1] > 0.0 then [RowFor(list[k - 1], shares[k - 1])] else []
  }

  function Rows(total: real, list: seq<Beneficiary>): seq<PayoutRow> {
    RowsUpTo(list, Shares(total, AllBps(list)), |list|)
  }

  function AmountOf(rows: seq<PayoutRow>): real {
    if rows == [] then 0.0 else AmountOf(rows[..|rows| - 1]) + rows[|rows| - 1].amount
  }

  lemma AmountOfAppend(rows: seq<PayoutRow>, row: PayoutRow)
    ensures AmountOf(rows + [row]) == AmountOf(rows) + row.amount
  {
    assert (rows + [row])[..|rows|] == rows;
  }

  /** Skipping the empty shares loses nothing. */
  lemma {:induction false} RowsAddUp(list: seq<Beneficiary>, shares: seq<real>, k: nat)
    requires k <= |list| == |shares| && forall share <- shares :: share >= 0.0
    ensures AmountOf(RowsUpTo(list, shares, k)) == Sum(shares[..k])
    decreases k
  {
    if k > 0 {
      RowsAddUp(list, shares, k - 1);
      assert shares[..k][..k - 1] == shares[..k - 1];
      assert shares[k - 1] in shares;
      if shares[k - 1] > 0.0 {
        AmountOfAppend(RowsUpTo(list, shares, k - 1), RowFor(list[k - 1], shares[k - 1]));
      } else {
        assert RowsUpTo(list, shares, k) == RowsUpTo(list, shares, k - 1);
      }
    }
  }

  /** The inserted rows sum exactly to the total. */
  lemma RowsSumToTotal(total: real, list: seq<Beneficiary>)
    requires list != [] && total >= 0.0 && SumBps(AllBps(list)) == WHOLE_BPS && forall b <- AllBps(list) :: 0 <= b
    ensures AmountOf(Rows(total, list)) == total
  {
    var shares := Shares(total, AllBps(list));
    SharesNonNegative(total, AllBps(list));
    SharesSumToTotal(total, AllBps(list));
    RowsAddUp(list, shares, |list|);
    assert shares[..|list|] == shares;
  }

  /** Every row pays something, and every positive share has its row. */
  lemma {:induction false} RowsPay(list: seq<Beneficiary>, shares: seq<real>, k: nat)
    requires k <= |list| == |shares|
    ensures forall row <- RowsUpTo(list, shares, k) :: row.amount > 0.0
    ensures forall i :: 0 <= i < k && shares[i] > 0.0 ==> RowFor(list[i], shares[i]) in RowsUpTo(list, shares, k)
  {
    if k > 0 {
      RowsPay(list, shares, k - 1);
    }
  }

  /** How many of the first `k` shares pay something. */
  function PayingBefore(shares: seq<real>, k: nat): nat
    requires k <= |shares|
  {
    if k == 0 then 0 else PayingBefore(shares, k - 1) + if shares[k - 1] > 0.0 then 1 else 0
  }

  lemma {:induction false} RowCount(list: seq<Beneficiary>, shares: seq<real>, k: nat)
    requires k <= |list| == |shares|
    ensures |RowsUpTo(list, shares, k)| == PayingBefore(shares, k)
    decreases k
  {
    if k > 0 {
      RowCount(list, shares, k - 1);
    }
  }

  /**
   The rows are those of the paying beneficiaries in their order, each with its address, its share, and as fiat
   exactly when it has an anchor account.
   */
  lemma {:induction false} RowsInOrder(list: seq<Beneficiary>, shares: seq<real>, k: nat, i: nat)
    requires i < k <= |list| == |shares| && shares[i] > 0.0
    ensures PayingBefore(shares, i) < |RowsUpTo(list, shares, k)| == PayingBefore(shares, k)
    ensures var row := RowsUpTo(list, shares, k)[PayingBefore(shares, i)];
            row.address == list[i].address && row.amount == shares[i] && (row.fiat <==> !Blank(list[i].anchorInfo))
    decreases k
  {
    RowCount(list, shares, k - 1);
    RowCount(list, shares, k);
    if i < k - 1 {
      RowsInOrder(list, shares, k - 1, i);
    }
  }

  // ---------- the two handlers ----------

  datatype SplitError = EmptyPlan | OverDailyLimit(id: nat)

  /** What is left of the total for the beneficiaries from `i` on. */
  function Left(total: real, bps: seq<int>, i: nat): real
    requires i < |bps|
  {
    total - SumFloored(total, bps[..i])
  }

  /** One round of either loop: the share of beneficiary `i`, and what remains after it. */
  method TakeShare(total: real, bps: seq<int>, i: nat, remaining: real) returns (share: real, left: real)
    requires i < |bps| && remaining == Left(total, bps, i)
    ensures share == Shares(total, bps)[i]
    ensures i < |bps| - 1 ==> left == Left(total, bps, i + 1)
  {
    share, left := remaining, remaining;
    if i != |bps| - 1 {
      assert bps[..i + 1][..i] == bps[..i];
      share := Floored(total, bps[i]);
      left := remaining - share;
    }
  }

  /** The split of a claim. */
  method ClaimSplit(total: real, list: seq<Beneficiary>) returns (r: Result<seq<PayoutRow>, SplitError>)
    ensures r == if list == [] then Err(EmptyPlan) else Ok(Rows(total, list))
  {
    if list == [] {
      return Err(EmptyPlan);
    }
    var bps := AllBps(list);
    ghost var shares := Shares(total, bps);
    var remaining := total;
    var rows := [];
    for i := 0 to |list|
      invariant rows == RowsUpTo(list, shares, i)
      invariant i < |list| ==> remaining == Left(total, bps, i)
    {
      var share;
      share, remaining := TakeShare(total, bps, i, remaining);
      if share > 0.0 {
        rows := rows + [RowFor(list[i], share)];
      }
    }
    r := Ok(rows);
  }

  type Usage = map<nat, real>

  function UsedBy(used: Usage, id: nat): real {
    if id in used then used[id] else 0.0
  }

  predicate Limited(b: Beneficiary) {
    b.IsFiat() && b.dailyLimit > 0.0
  }

  /** A payable share of a limited beneficiary has to fit into what is left of the day. */
  predicate Fits(used: Usage, b: Beneficiary, share: real) {
    share > 0.0 && Limited(b) ==> UsedBy(used, b.id) + share <= b.dailyLimit
  }

  ghost predicate AllFit(list: seq<Beneficiary>, shares: seq<real>, used: Usage)
    requires |list| == |shares|
  {
    forall i :: 0 <= i < |list| ==> Fits(used, list[i], shares[i])
  }

  /** Beneficiary ids are the table's primary key. */
  ghost predicate DistinctIds(list: seq<Beneficiary>) {
    forall i, j :: 0 <= i < j < |list| ==> Differ(list, i, j)
  }

  predicate Differ(list: seq<Beneficiary>, i: nat, j: nat)
    requires i < |list| && j < |list|
  {
    list[i].id != list[j].id
  }

  lemma EarlierDiffer(list: seq<Beneficiary>, i: nat)
    requires i < |list| && DistinctIds(list)
    ensures forall k :: 0 <= k < i ==> list[k].id != list[i].id
  {
    forall k | 0 <= k < i
      ensures list[k].id != list[i].id
    {
      assert Differ(list, k, i);
    }
  }

  /** What a beneficiary's share adds to the day's usage. */
  function Charge(b: Beneficiary, share: real): real {
    if share > 0.0 && Limited(b) then share else 0.0
  }

  function Charged(used: Usage, b: Beneficiary, share: real): Usage {
    if share > 0.0 && Limited(b) then used[b.id := UsedBy(used, b.id) + share] else used
  }

  /** The day's usage after the first `k` beneficiaries. */
  function UsageUpTo(list: seq<Beneficiary>, shares: seq<real>, used: Usage, k: nat): Usage
    requires k <= |list| == |shares|
  {
    if k == 0 then used else Charged(UsageUpTo(list, shares, used, k - 1), list[k - 1], shares[k - 1])
  }

  lemma {:induction false} OthersUncharged(list: seq<Beneficiary>, shares: seq<real>, used: Usage, k: nat, id: nat)
    requires k <= |list| == |shares| && forall i :: 0 <= i < k ==> list[i].id != id
    ensures UsedBy(UsageUpTo(list, shares, used, k), id) == UsedBy(used, id)
  {
    if k > 0 {
      OthersUncharged(list, shares, used, k - 1, id);
    }
  }

  /** Earlier beneficiaries of the same payout do not use up one's limit. */
  lemma FitsToday(list: seq<Beneficiary>, shares: seq<real>, used: Usage, i: nat)
    requires i < |list| == |shares| && DistinctIds(list)
    ensures Fits(UsageUpTo(list, shares, used, i), list[i], shares[i]) <==> Fits(used, list[i], shares[i])
  {
    EarlierDiffer(list, i);
    OthersUncharged(list, shares, used, i, list[i].id);
  }

  /** Each beneficiary's usage grows by exactly its own share. */
  lemma {:induction false} ChargedOnce(list: seq<Beneficiary>, shares: seq<real>, used: Usage, k: nat, i: nat)
    requires i < k <= |list| == |shares| && DistinctIds(list)
    ensures UsedBy(UsageUpTo(list, shares, used, k), list[i].id) ==
            UsedBy(used, list[i].id) + Charge(list[i], shares[i])
    decreases k
  {
    if i == k - 1 {
      EarlierDiffer(list, i);
      OthersUncharged(list, shares, used, i, list[i].id);
    } else {
      assert Differ(list, i, k - 1);
      ChargedOnce(list, shares, used, k - 1, i);
    }
  }

  /** Shares fit when none that is paid to a limited anchor account passes what is left of its day. */
  lemma FitMeaning(list: seq<Beneficiary>, shares: seq<real>, used: Usage)
    requires |list| == |shares|
    ensures AllFit(list, shares, used) <==>
            forall i :: 0 <= i < |list| && shares[i] > 0.0 && !Blank(list[i].anchorInfo) && list[i].dailyLimit > 0.0 ==>
              UsedBy(used, list[i].id) + shares[i] <= list[i].dailyLimit
  {
    if forall i :: 0 <= i < |list| && shares[i] > 0.0 && !Blank(list[i].anchorInfo) && list[i].dailyLimit > 0.0 ==>
        UsedBy(used, list[i].id) + shares[i] <= list[i].dailyLimit {
      assert forall i :: 0 <= i < |list| ==> Fits(used, list[i], shares[i]);
    } else {
      var i :| 0 <= i < |list| && shares[i] > 0.0 && !Blank(list[i].anchorInfo) && list[i].dailyLimit > 0.0
        && UsedBy(used, list[i].id) + shares[i] > list[i].dailyLimit;
      assert !Fits(used, list[i], shares[i]);
    }
  }

  /** A payout whose shares all fit charges each limited anchor account its share and leaves it within its limit. */
  lemma LimitsRespected(list: seq<Beneficiary>, shares: seq<real>, used: Usage, i: nat)
    requires i < |list| == |shares| && DistinctIds(list) && AllFit(list, shares, used)
    requires shares[i] > 0.0 && !Blank(list[i].anchorInfo) && list[i].dailyLimit > 0.0
    ensures UsedBy(UsageUpTo(list, shares, used, |list|), list[i].id) == UsedBy(used, list[i].id) + shares[i]
    ensures UsedBy(UsageUpTo(list, shares, used, |list|), list[i].id) <= list[i].dailyLimit
  {
    ChargedOnce(list, shares, used, |list|, i);
  }

  /** The daily limit of one payable share: check it, and count the share towards it. */
  method ChargeShare(used: Usage, b: Beneficiary, share: real) returns (fits: bool, used': Usage)
    ensures fits == Fits(used, b, share)
    ensures used' == if fits then Charged(used, b, share) else used
  {
    used' := used;
    if share <= 0.0 || !Limited(b) {
      return true, used;
    }
    if UsedBy(used, b.id) + share > b.dailyLimit {
      return false, used;
    }
    fits, used' := true, used[b.id := UsedBy(used, b.id) + share];
  }

  /** Position `i` is the first whose share does not fit. */
  ghost predicate FirstUnfit(list: seq<Beneficiary>, shares: seq<real>, used: Usage, i: nat)
    requires i < |list| == |shares|
  {
    !Fits(used, list[i], shares[i]) && forall k :: 0 <= k < i ==> Fits(used, list[k], shares[k])
  }

  /** One round of the loop: the share of beneficiary `i` is charged and gets its row, or does not fit. */
  method PayShare(list: seq<Beneficiary>, ghost shares: seq<real>, ghost start: Usage, i: nat, share: real,
                  rows: seq<PayoutRow>, used: Usage)
    returns (fits: bool, rows': seq<PayoutRow>, used': Usage)
    requires i < |list| == |shares| && DistinctIds(list) && share == shares[i]
    requires rows == RowsUpTo(list, shares, i) && used == UsageUpTo(list, shares, start, i)
    ensures fits == Fits(start, list[i], shares[i])
    ensures fits ==> rows' == RowsUpTo(list, shares, i + 1) && used' == UsageUpTo(list, shares, start, i + 1)
  {
    FitsToday(list, shares, start, i);
    fits, used' := ChargeShare(used, list[i], share);
    rows' := if fits && share > 0.0 then rows + [RowFor(list[i], share)] else rows;
  }

  /**
   The split of a payout, with the day's fiat usage. It succeeds exactly when every limited share fits its
   limit, with the rows of the plain split; on an error the transaction is dropped and the usage stays.
   */
  method LimitedSplit(total: real, list: seq<Beneficiary>, used: Usage)
    returns (r: Result<seq<PayoutRow>, SplitError>, used': Usage)
    requires DistinctIds(list)
    ensures r == Err(EmptyPlan) <==> list == []
    ensures list != [] ==> (r.Ok? <==> AllFit(list, Shares(total, AllBps(list)), used))
    ensures r.Err? && list != [] ==>
              exists i :: 0 <= i < |list| && r.error == OverDailyLimit(list[i].id)
                          && FirstUnfit(list, Shares(total, AllBps(list)), used, i)
    ensures r.Ok? ==> r.value == Rows(total, list)
    ensures r.Ok? ==> used' == UsageUpTo(list, Shares(total, AllBps(list)), used, |list|)
    ensures r.Err? ==> used' == used
  {
    used' := used;
    if list == [] {
      return Err(EmptyPlan), used;
    }
    var bps := AllBps(list);
    ghost var shares := Shares(total, bps);
    var remaining := total;
    var rows := [];
    for i := 0 to |list|
      invariant rows == RowsUpTo(list, shares, i)
      invariant used' == UsageUpTo(list, shares, used, i)
      invariant i < |list| ==> remaining == Left(total, bps, i)
      invariant forall k :: 0 <= k < i ==> Fits(used, list[k], shares[k])
    {
      var b := list[i];
      var share;
      share, remaining := TakeShare(total, bps, i, remaining);
      var fits;
      fits, rows, used' := PayShare(list, shares, used, i, share, rows, used');
      if !fits {
        assert FirstUnfit(list, shares, used, i);
        return Err(OverDailyLimit(b.id)), used;
      }
    }
    r := Ok(rows);
  }

  /** Once checked, always payable: the rows of any well-allocated list sum to any non-negative total. */
  lemma CheckedPlansPayOutInFull(total: real, list: seq<Allocation>, stored: seq<Beneficiary>)
    requires list != [] && WellAllocated(list) && total >= 0.0
    requires |stored| == |list| && forall i :: 0 <= i < |list| ==> stored[i].bps == list[i].bps
    ensures AmountOf(Rows(total, stored)) == total
  {
    assert AllBps(stored) == BpsOf(list);
    RowsSumToTotal(total, stored);
  }
}
