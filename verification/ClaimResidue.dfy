/** How far rounding can move the balance that a sequence of claims leaves behind. */
module ClaimResidue {
  import opened MachineInts
  import opened PlanTypes
  import opened PlanLedger
  import opened PlanInvariants
  import opened PlanRuns
  import opened GrowthLadder

  /** The payments took `total` down to `left`, each the floor of its share of the balance it found. */
  ghost predicate PaidDown(total: nat, payments: seq<Payment>, left: nat) {
    if payments == [] then left == total
    else
      var n := |payments| - 1;
      var p := payments[n];
      && p.allocationBp <= FULL_ALLOCATION_BP
      && p.amount == (left + p.amount) * p.allocationBp / FULL_ALLOCATION_BP
      && PaidDown(total, payments[..n], left + p.amount)
  }

  lemma {:induction false} PaidDownChains(total: nat, a: seq<Payment>, middle: nat, b: seq<Payment>, left: nat)
    requires PaidDown(total, a, middle) && PaidDown(middle, b, left)
    ensures PaidDown(total, a + b, left)
    decreases |b|
  {
    if b == [] {
      assert a + b == a;
    } else {
      var n := |b| - 1;
      assert (a + b)[..|a + b| - 1] == a + b[..n];
      PaidDownChains(total, a, middle, b[..n], left + b[n].amount);
    }
  }

  /** The product of the parts that the payments leave, in basis points. */
  function KeptProduct(payments: seq<Payment>): nat {
    if payments == [] then 1
    else
      var n := |payments| - 1;
      KeptProduct(payments[..n]) * SaturatingSub(FULL_ALLOCATION_BP, payments[n].allocationBp)
  }

  /** One payment multiplies the balance by its kept part, rounding up. */
  lemma KeptPart(before: nat, bp: nat, left: nat)
    requires bp <= FULL_ALLOCATION_BP && left <= before
    requires before - left == before * bp / FULL_ALLOCATION_BP
    ensures before * (FULL_ALLOCATION_BP - bp) <= left * FULL_ALLOCATION_BP
    ensures left * FULL_ALLOCATION_BP <= before * (FULL_ALLOCATION_BP - bp) + (FULL_ALLOCATION_BP - 1)
  {
    assert before * bp + before * (FULL_ALLOCATION_BP - bp) == before * FULL_ALLOCATION_BP;
  }

  lemma Regroup(x: nat, y: nat, z: nat)
    ensures x * (y * z) == (x * y) * z == (x * z) * y
  {
  }

  lemma SumTimes(x: nat, y: nat, z: nat)
    ensures (x + y) * z == x * z + y * z
  {
  }

  lemma LowerResidue(exact: nat, before: nat, left: nat, scale: nat, r: nat, b: nat)
    requires exact <= before * scale && before * r <= left * b
    ensures exact * r <= left * (b * scale)
  {
    ProductMonotone(exact, r, before * scale, r);
    ProductMonotone(before * r, scale, left * b, scale);
    Regroup(before, scale, r);
    Regroup(left, b, scale);
  }

  lemma ScaledLeft(before: nat, left: nat, scale: nat, r: nat, b: nat)
    requires 0 < b && left * b <= before * r + (b - 1)
    ensures left * (b * scale) + scale <= (before * scale) * r + b * scale
  {
    Regroup(left, b, scale);
    Regroup(before, scale, r);
    ProductMonotone(left * b, scale, before * r + (b - 1), scale);
    SumTimes(before * r, b - 1, scale);
    SumTimes(b - 1, 1, scale);
  }

  lemma ScaledBefore(exact: nat, before: nat, scale: nat, r: nat, b: nat, k: nat)
    requires r <= b && before * scale <= exact + k * scale
    ensures (before * scale) * r <= exact * r + k * (b * scale)
  {
    ProductMonotone(before * scale, r, exact + k * scale, r);
    SumTimes(exact, k * scale, r);
    ProductMonotone(k * scale, r, k * scale, b);
    Regroup(k, scale, b);
    Regroup(k, b, scale);
  }

  lemma UpperResidue(exact: nat, before: nat, left: nat, scale: nat, r: nat, b: nat, k: nat)
    requires 0 < b && r <= b && 0 < scale
    requires before * scale <= exact + k * scale
    requires left * b <= before * r + (b - 1)
    ensures left * (b * scale) < exact * r + (k + 1) * (b * scale)
  {
    ScaledLeft(before, left, scale, r, b);
    ScaledBefore(exact, before, scale, r, b, k);
    SumTimes(k, 1, b * scale);
  }

  /**
   After k payments the balance is the exact product of the kept parts, rounded up by less than k
   units: T * prod(1 - bp/10000) <= R < T * prod(1 - bp/10000) + k.
   */
  ghost predicate ResidueWithin(total: nat, payments: seq<Payment>, left: nat) {
    var exact, scale := total * KeptProduct(payments), Power(FULL_ALLOCATION_BP, |payments|);
    && exact <= left * scale <= exact + |payments| * scale
    && (payments != [] ==> left * scale < exact + |payments| * scale)
  }

  lemma ResidueStep(total: nat, kept: nat, scale: nat, k: nat, before: nat, bp: nat, left: nat)
    requires bp <= FULL_ALLOCATION_BP && left <= before && scale > 0
    requires before - left == before * bp / FULL_ALLOCATION_BP
    requires total * kept <= before * scale <= total * kept + k * scale
    ensures var r, scale' := FULL_ALLOCATION_BP - bp, FULL_ALLOCATION_BP * scale;
            total * (kept * r) <= left * scale' < total * (kept * r) + (k + 1) * scale'
  {
    var r := FULL_ALLOCATION_BP - bp;
    KeptPart(before, bp, left);
    LowerResidue(total * kept, before, left, scale, r, FULL_ALLOCATION_BP);
    UpperResidue(total * kept, before, left, scale, r, FULL_ALLOCATION_BP, k);
    assert total * kept * r == total * (kept * r);
  }

  lemma {:induction false} ResidueBounds(total: nat, payments: seq<Payment>, left: nat)
    requires PaidDown(total, payments, left)
    ensures Paid(payments) + left == total
    ensures ResidueWithin(total, payments, left)
    decreases |payments|
  {
    if payments != [] {
      var n := |payments| - 1;
      var p := payments[n];
      ResidueBounds(total, payments[..n], left + p.amount);
      PowerPositive(FULL_ALLOCATION_BP, n);
      ResidueStep(total, KeptProduct(payments[..n]), Power(FULL_ALLOCATION_BP, n), n, left + p.amount, p.allocationBp,
                  left);
    }
  }

  function Shares(payments: seq<Payment>): seq<u32> {
    seq(|payments|, i requires 0 <= i < |payments| => payments[i].allocationBp)
  }

  function KeptOf(shares: seq<u32>): nat {
    if shares == [] then 1
    else
      var n := |shares| - 1;
      KeptOf(shares[..n]) * SaturatingSub(FULL_ALLOCATION_BP, shares[n])
  }

  lemma {:induction false} KeptOfShares(payments: seq<Payment>)
    ensures KeptProduct(payments) == KeptOf(Shares(payments))
  {
    if payments != [] {
      var n := |payments| - 1;
      KeptOfShares(payments[..n]);
      assert Shares(payments)[..n] == Shares(payments[..n]);
    }
  }

  lemma KeptOfPush(shares: seq<u32>, x: u32)
    ensures KeptOf(shares + [x]) == KeptOf(shares) * SaturatingSub(FULL_ALLOCATION_BP, x)
  {
    assert (shares + [x])[..|shares|] == shares;
  }

  lemma FactorsCommute(k: nat, x: nat, y: nat)
    ensures k * x * y == k * y * x
  {
  }

  lemma {:induction false} KeptWithout(a: seq<u32>, x: u32, b: seq<u32>)
    ensures KeptOf(a + [x] + b) == KeptOf(a + b) * SaturatingSub(FULL_ALLOCATION_BP, x)
    decreases |b|
  {
    var kx := SaturatingSub(FULL_ALLOCATION_BP, x);
    if b == [] {
      assert a + [x] + b == a + [x] && a + b == a;
      KeptOfPush(a, x);
    } else {
      var n := |b| - 1;
      var kb := SaturatingSub(FULL_ALLOCATION_BP, b[n]);
      KeptWithout(a, x, b[..n]);
      assert a + [x] + b == (a + [x] + b[..n]) + [b[n]];
      assert a + b == (a + b[..n]) + [b[n]];
      KeptOfPush(a + [x] + b[..n], b[n]);
      KeptOfPush(a + b[..n], b[n]);
      FactorsCommute(KeptOf(a + b[..n]), kx, kb);
    }
  }

  lemma {:induction false} KeptIgnoresOrder(a: seq<u32>, b: seq<u32>)
    requires multiset(a) == multiset(b)
    ensures |a| == |b| && KeptOf(a) == KeptOf(b)
    decreases |a|
  {
    assert |a| == |multiset(a)| == |multiset(b)| == |b|;
    if a != [] {
      var n := |a| - 1;
      assert a[n] in multiset(b);
      var i :| 0 <= i < |b| && b[i] == a[n];
      var rest := b[..i] + b[i + 1..];
      KeptWithout(b[..i], b[i], b[i + 1..]);
      assert a == a[..n] + [a[n]];
      assert b == b[..i] + [b[i]] + b[i + 1..];
      assert multiset(b) == multiset(rest) + multiset{b[i]};
      assert multiset(a[..n]) == multiset(a) - multiset{a[n]};
      assert multiset(rest) == multiset(b) - multiset{b[i]};
      KeptIgnoresOrder(a[..n], rest);
    }
  }

  lemma WithinUnits(exact: nat, leftA: nat, leftB: nat, scale: nat, k: nat)
    requires leftA * scale < exact + k * scale && exact <= leftB * scale
    ensures leftA < leftB + k
  {
    assert (leftB + k) * scale == leftB * scale + k * scale;
    if leftA >= leftB + k {
      ProductMonotone(leftB + k, scale, leftA, scale);
    }
  }

  lemma CloseResidues(total: nat, a: seq<Payment>, leftA: nat, b: seq<Payment>, leftB: nat)
    requires ResidueWithin(total, a, leftA) && ResidueWithin(total, b, leftB)
    requires a != [] && |a| == |b| && KeptProduct(a) == KeptProduct(b)
    ensures leftA < leftB + |a|
  {
    WithinUnits(total * KeptProduct(a), leftA, leftB, Power(FULL_ALLOCATION_BP, |a|), |a|);
  }

  lemma SameSharesSameProduct(a: seq<Payment>, b: seq<Payment>)
    requires multiset(Shares(a)) == multiset(Shares(b))
    ensures |a| == |b| && KeptProduct(a) == KeptProduct(b)
  {
    KeptIgnoresOrder(Shares(a), Shares(b));
    KeptOfShares(a);
    KeptOfShares(b);
  }

  /** Two orders of the same claims leave residues less than one unit per claim apart. */
  lemma OrderBarelyMatters(total: nat, a: seq<Payment>, leftA: nat, b: seq<Payment>, leftB: nat)
    requires PaidDown(total, a, leftA) && PaidDown(total, b, leftB)
    requires multiset(Shares(a)) == multiset(Shares(b)) && a != []
    ensures leftA < leftB + |a|
  {
    SameSharesSameProduct(a, b);
    ResidueBounds(total, a, leftA);
    ResidueBounds(total, b, leftB);
    CloseResidues(total, a, leftA, b, leftB);
  }

  lemma PowerPositive(b: nat, e: nat)
    requires b > 0
    ensures Power(b, e) > 0
  {
    if e > 0 {
      PowerPositive(b, e - 1);
      ProductMonotone(1, 1, b, Power(b, e - 1));
    }
  }

  // ---------- runs ----------

  function PaymentsTo(payments: seq<Payment>, planId: PlanId): seq<Payment> {
    if payments == [] then []
    else
      var n := |payments| - 1;
      PaymentsTo(payments[..n], planId) + if payments[n].planId == planId then [payments[n]] else []
  }

  lemma {:induction false} PaymentsToAdds(a: seq<Payment>, b: seq<Payment>, planId: PlanId)
    ensures PaymentsTo(a + b, planId) == PaymentsTo(a, planId) + PaymentsTo(b, planId)
    decreases |b|
  {
    if b == [] {
      assert a + b == a;
    } else {
      var n := |b| - 1;
      assert (a + b)[..|a + b| - 1] == a + b[..n];
      PaymentsToAdds(a, b[..n], planId);
    }
  }

  /** No vesting settlement of the plan is waiting. */
  ghost predicate NoSettlement(s: Store, planId: PlanId) {
    forall index: nat :: (planId, index) !in s.settlements
  }

  /** A call that cannot move the plan's balance except by a claim. */
  predicate Undisturbing(op: Op, planId: PlanId) {
    op.Deposit? || op.Withdraw? || op.Liquidate? ==> op.planId != planId
  }

  /** The plan stays, without settlements, and its balance went down by exactly the given payments. */
  ghost predicate ClaimsOnly(s: Store, s': Store, planId: PlanId, payments: seq<Payment>)
    requires planId in s.plans
  {
    && planId in s'.plans
    && NoSettlement(s', planId)
    && PaidDown(s.plans[planId].totalAmount, PaymentsTo(payments, planId), s'.plans[planId].totalAmount)
  }

  lemma UntouchedBalance(s: Store, s': Store, planId: PlanId)
    requires planId in s.plans && planId in s'.plans && NoSettlement(s, planId) && s'.settlements == s.settlements
    requires s'.plans[planId].totalAmount == s.plans[planId].totalAmount
    ensures ClaimsOnly(s, s', planId, [])
  {
  }

  lemma OnePayment(total: nat, p: Payment, left: nat)
    requires p.allocationBp <= FULL_ALLOCATION_BP && left + p.amount == total
    requires p.amount == total * p.allocationBp / FULL_ALLOCATION_BP
    ensures PaidDown(total, [p], left)
  {
    assert [p][..0] == [];
  }

  lemma SinglePaymentTo(p: Payment, planId: PlanId)
    ensures PaymentsTo([p], planId) == if p.planId == planId then [p] else []
  {
    assert [p][..0] == [];
  }

  /** A claim that pays out of an unsettled plan pays the floor of the share. */
  lemma PayoutIsShare(s: Store, c: Context, planId: PlanId, plan: Plan, index: nat)
    requires AllocationOk(plan) && index < |plan.beneficiaries| && NoSettlement(s, planId)
    requires PayoutAmount(s, planId, plan, index) != 0
    ensures PayoutAmount(s, planId, plan, index) ==
            plan.totalAmount * plan.beneficiaries[index].allocationBp / FULL_ALLOCATION_BP <= plan.totalAmount
    ensures plan.beneficiaries[index].allocationBp <= FULL_ALLOCATION_BP
  {
    assert (planId, index) !in s.settlements;
    ShareWithinPlan(plan, index);
  }

  lemma AutoTriggeredUntouched(s: Store, c: Context, triggered: PlanId, planId: PlanId)
    requires planId in s.plans
    ensures var s' := AutoTriggered(s, c, triggered);
            && planId in s'.plans && s'.plans[planId].totalAmount == s.plans[planId].totalAmount
            && s'.settlements == s.settlements
  {
  }

  lemma SettlementsElsewhere(s: Store, c: Context, claimed: PlanId, plan: Plan, email: Email, index: nat, payout: u64,
                             planId: PlanId)
    requires index < |plan.beneficiaries| && NoSettlement(s, planId)
    ensures NoSettlement(RecordPayout(s, c, claimed, plan, email, index, payout), planId)
  {
    var exit := SettlementOf(s, claimed, index);
    if exit > 0 {
      assert claimed != planId;
    }
  }

  /** A payment to another plan leaves this one's balance. */
  lemma ForeignPayment(s: Store, s': Store, payment: Payment, planId: PlanId)
    requires planId in s.plans && planId in s'.plans && NoSettlement(s', planId) && payment.planId != planId
    requires s'.plans[planId].totalAmount == s.plans[planId].totalAmount
    ensures ClaimsOnly(s, s', planId, [payment])
  {
    SinglePaymentTo(payment, planId);
  }

  /** A payment of the floored share lowers the balance by it. */
  lemma OwnPayment(s: Store, s': Store, payment: Payment, planId: PlanId)
    requires planId in s.plans && planId in s'.plans && NoSettlement(s', planId) && payment.planId == planId
    requires payment.allocationBp <= FULL_ALLOCATION_BP
    requires payment.amount == s.plans[planId].totalAmount * payment.allocationBp / FULL_ALLOCATION_BP
    requires s'.plans[planId].totalAmount + payment.amount == s.plans[planId].totalAmount
    ensures ClaimsOnly(s, s', planId, [payment])
  {
    SinglePaymentTo(payment, planId);
    OnePayment(s.plans[planId].totalAmount, payment, s'.plans[planId].totalAmount);
  }

  /** The payout branch, seen from any plan. */
  lemma PayoutPaysDown(s: Store, s1: Store, c: Context, claimed: PlanId, plan: Plan, email: Email, index: nat,
                       planId: PlanId)
    requires planId in s.plans && planId in s1.plans && s1.plans[planId].totalAmount == s.plans[planId].totalAmount
    requires NoSettlement(s1, planId) && AllocationOk(plan) && index < |plan.beneficiaries|
    requires claimed == planId ==> plan == s.plans[planId]
    requires PayoutAmount(s1, claimed, plan, index) != 0
    ensures var payout := PayoutAmount(s1, claimed, plan, index);
            ClaimsOnly(s, RecordPayout(s1, c, claimed, plan, email, index, payout), planId,
                       [Payment(claimed, email, plan.beneficiaries[index].allocationBp, payout)])
  {
    var payout := PayoutAmount(s1, claimed, plan, index);
    var payment := Payment(claimed, email, plan.beneficiaries[index].allocationBp, payout);
    var s' := RecordPayout(s1, c, claimed, plan, email, index, payout);
    SettlementsElsewhere(s1, c, claimed, plan, email, index, payout, planId);
    RecordPayoutShape(s1, c, claimed, plan, email, index, payout);
    if claimed == planId {
      PayoutIsShare(s1, c, planId, plan, index);
      OwnPayment(s, s', payment, planId);
    } else {
      ForeignPayment(s, s', payment, planId);
    }
  }

  lemma ClaimPaysDown(s: Store, c: Context, claimed: PlanId, entry: ClaimEntry, planId: PlanId)
    requires PlansOk(s) && planId in s.plans && NoSettlement(s, planId) && ClaimCall(s, c, claimed, entry).Ok?
    ensures var e := ClaimCall(s, c, claimed, entry).value; ClaimsOnly(s, e.store, planId, e.payments)
  {
    ClaimShape(s, c, claimed, entry);
    var s1, plan := AutoTriggered(s, c, claimed), s.plans[claimed];
    var index := ClaimTarget(c, claimed, plan, entry).value;
    AutoTriggeredUntouched(s, c, claimed, planId);
    PayoutPaysDown(s, s1, c, claimed, plan, entry.email, index, planId);
  }

  /** An entry that pays, seen from any plan. */
  lemma PaidEntryPaysDown(p: BatchProgress, c: Context, claimed: PlanId, email: Email, index: nat, planId: PlanId)
    requires Valid(p.store) && claimed in p.store.plans && planId in p.store.plans && NoSettlement(p.store, planId)
    requires index < |p.store.plans[claimed].beneficiaries| && PayEntry(p, c, claimed, email, index).success > p.success
    ensures var p' := PayEntry(p, c, claimed, email, index);
            p.payments <= p'.payments && ClaimsOnly(p.store, p'.store, planId, p'.payments[|p.payments|..])
  {
    var p' := PayEntry(p, c, claimed, email, index);
    var payment := p'.payments[|p.payments|];
    PayEntryShape(p, c, claimed, email, index);
    ShareWithinPlan(p.store.plans[claimed], index);
    assert p'.payments[|p.payments|..] == [payment];
    SinglePaymentTo(payment, planId);
    if claimed == planId {
      OnePayment(p.store.plans[planId].totalAmount, payment, p'.store.plans[planId].totalAmount);
    }
  }

  lemma EntryPaysDown(p: BatchProgress, c: Context, claimed: PlanId, entry: ClaimEntry, planId: PlanId)
    requires Valid(p.store) && claimed in p.store.plans && planId in p.store.plans && NoSettlement(p.store, planId)
    ensures var p' := ClaimOne(p, c, claimed, entry);
            p.payments <= p'.payments && ClaimsOnly(p.store, p'.store, planId, p'.payments[|p.payments|..])
  {
    var p', bens := ClaimOne(p, c, claimed, entry), p.store.plans[claimed].beneficiaries;
    FindBeneficiaryInBounds(bens, entry, 0);
    var index := FindBeneficiary(bens, entry, 0);
    if p'.success > p.success {
      PaidEntryPaysDown(p, c, claimed, entry.email, index.value, planId);
    } else {
      assert p'.payments[|p.payments|..] == [];
      UntouchedBalance(p.store, p'.store, planId);
    }
  }

  lemma ClaimsOnlyChains(s: Store, middle: Store, s': Store, planId: PlanId, a: seq<Payment>, b: seq<Payment>)
    requires planId in s.plans && ClaimsOnly(s, middle, planId, a) && ClaimsOnly(middle, s', planId, b)
    ensures ClaimsOnly(s, s', planId, a + b)
  {
    PaymentsToAdds(a, b, planId);
    PaidDownChains(s.plans[planId].totalAmount, PaymentsTo(a, planId), middle.plans[planId].totalAmount,
                   PaymentsTo(b, planId), s'.plans[planId].totalAmount);
  }

  lemma {:induction false} BatchPaysDown(
      s: Store, c: Context, claimed: PlanId, entries: seq<ClaimEntry>, k: nat, planId: PlanId)
    requires Valid(s) && claimed in s.plans && planId in s.plans && NoSettlement(s, planId) && k <= |entries|
    ensures var p := ClaimEach(s, c, claimed, entries, k); ClaimsOnly(s, p.store, planId, p.payments)
    decreases k
  {
    if k == 0 {
      UntouchedBalance(s, s, planId);
    } else {
      var p := ClaimEach(s, c, claimed, entries, k - 1);
      var p' := ClaimOne(p, c, claimed, entries[k - 1]);
      BatchPaysDown(s, c, claimed, entries, k - 1, planId);
      ClaimEachKeepsValid(s, c, claimed, entries, k - 1);
      EntryPaysDown(p, c, claimed, entries[k - 1], planId);
      ClaimsOnlyChains(s, p.store, p'.store, planId, p.payments, p'.payments[|p.payments|..]);
      assert p'.payments == p.payments + p'.payments[|p.payments|..];
    }
  }

  lemma BatchClaimPaysDown(s: Store, c: Context, claimed: PlanId, entries: seq<ClaimEntry>, planId: PlanId)
    requires Valid(s) && planId in s.plans && NoSettlement(s, planId) && BatchClaimCall(s, c, claimed, entries).Ok?
    ensures var e := BatchClaimCall(s, c, claimed, entries).value; ClaimsOnly(s, e.store, planId, e.payments)
  {
    var s1 := AutoTriggered(s, c, claimed);
    AutoTriggeredKeepsValid(s, c, claimed);
    AutoTriggeredKeepsPlan(s, c, claimed);
    AutoTriggeredUntouched(s, c, claimed, planId);
    BatchPaysDown(s1, c, claimed, entries, |entries|, planId);
  }

  lemma MoneyElsewhere(s: Store, c: Context, op: Op, planId: PlanId)
    requires planId in s.plans && (op.Deposit? || op.Withdraw? || op.Liquidate?) && op.planId != planId
    requires Invoke(s, c, op).Ok?
    requires NoSettlement(s, planId)
    ensures ClaimsOnly(s, Step(s, c, op), planId, PaymentsBy(s, c, op))
  {
    match op {
      case Deposit(caller, token, id, amount) => TransferTouchesBalances(s, token, caller, Contract, amount);
      case Withdraw(caller, token, id, amount) => TransferTouchesBalances(s, token, Contract, caller, amount);
      case Liquidate(id) => LiquidateSettles(s, c, id);
    }
    UntouchedBalance(s, Step(s, c, op), planId);
  }

  lemma MoneylessSettlements(s: Store, c: Context, op: Op)
    requires MovesNothing(op)
    ensures Step(s, c, op).settlements == s.settlements
  {
    if EditsOnly(op) {
      EditingCalls(s, c, op);
    } else if op.Recall? {
      RecallSettles(s, c, op.planId, op.amount);
    }
  }

  lemma StepPaysDown(s: Store, c: Context, op: Op, planId: PlanId)
    requires Valid(s) && planId in s.plans && NoSettlement(s, planId)
    requires Invoke(s, c, op).Ok? ==> Undisturbing(op, planId)
    ensures ClaimsOnly(s, Step(s, c, op), planId, PaymentsBy(s, c, op))
  {
    if Invoke(s, c, op).Err? {
      UntouchedBalance(s, s, planId);
    } else if op.Create? {
      var fee := CreateIsCharged(s, c, op);
      CreateAddsPlan(s, c, op, fee);
      UntouchedBalance(s, Step(s, c, op), planId);
    } else if op.Claim? {
      ClaimPaysDown(s, c, op.planId, op.entry, planId);
    } else if op.BatchClaim? {
      BatchClaimPaysDown(s, c, op.planId, op.entries, planId);
    } else if MovesNothing(op) {
      StepMovesNothing(s, c, op);
      MoneylessSettlements(s, c, op);
      UntouchedBalance(s, Step(s, c, op), planId);
    } else {
      MoneyElsewhere(s, c, op, planId);
    }
  }

  /** No accepted call of the run disturbs the plan; refused attempts may be in it. */
  ghost predicate AllUndisturbing(s: Store, calls: seq<Event>, planId: PlanId) {
    forall i :: 0 <= i < |calls| && Accepted(s, calls, i) ==> Undisturbing(calls[i].1, planId)
  }

  lemma PrefixUndisturbing(s: Store, calls: seq<Event>, planId: PlanId, n: nat)
    requires n <= |calls| && AllUndisturbing(s, calls, planId)
    ensures AllUndisturbing(s, calls[..n], planId)
  {
    forall i | 0 <= i < n && Accepted(s, calls[..n], i)
      ensures Undisturbing(calls[..n][i].1, planId)
    {
      PrefixAccepted(s, calls, n, i);
    }
  }

  /**
   Whatever else happens, as long as nobody deposits to, withdraws from or writes off this plan and no
   settlement waits, its balance is paid down by its claims, and only rounding up, by less than one
   unit a claim, separates it from the exact product.
   */
  lemma {:induction false} ClaimsLeaveBoundedResidue(s: Store, calls: seq<Event>, planId: PlanId)
    requires Valid(s) && planId in s.plans && NoSettlement(s, planId) && AllUndisturbing(s, calls, planId)
    ensures var s' := Run(s, calls);
            var payments := PaymentsTo(Payments(s, calls), planId);
            && ClaimsOnly(s, s', planId, Payments(s, calls))
            && Paid(payments) + s'.plans[planId].totalAmount == s.plans[planId].totalAmount
            && ResidueWithin(s.plans[planId].totalAmount, payments, s'.plans[planId].totalAmount)
  {
    if calls == [] {
      UntouchedBalance(s, s, planId);
    } else {
      var n := |calls| - 1;
      var before := Run(s, calls[..n]);
      PrefixUndisturbing(s, calls, planId, n);
      ClaimsLeaveBoundedResidue(s, calls[..n], planId);
      RunKeepsValid(s, calls[..n]);
      assert Invoke(before, calls[n].0, calls[n].1).Ok? ==> Accepted(s, calls, n);
      StepPaysDown(before, calls[n].0, calls[n].1, planId);
      ClaimsOnlyChains(s, before, Run(s, calls), planId, Payments(s, calls[..n]),
                       PaymentsBy(before, calls[n].0, calls[n].1));
    }
    ResidueBounds(s.plans[planId].totalAmount, PaymentsTo(Payments(s, calls), planId),
                  Run(s, calls).plans[planId].totalAmount);
  }

  /** Two runs that claim the same shares of the same balance, in any order, end less than a unit per claim apart. */
  lemma ClaimOrderBarelyMatters(s: Store, calls: seq<Event>, other: seq<Event>, planId: PlanId)
    requires Valid(s) && planId in s.plans && NoSettlement(s, planId)
    requires AllUndisturbing(s, calls, planId) && AllUndisturbing(s, other, planId)
    requires multiset(Shares(PaymentsTo(Payments(s, calls), planId))) ==
             multiset(Shares(PaymentsTo(Payments(s, other), planId)))
    requires PaymentsTo(Payments(s, calls), planId) != []
    ensures planId in Run(s, calls).plans && planId in Run(s, other).plans
    ensures Run(s, calls).plans[planId].totalAmount <
            Run(s, other).plans[planId].totalAmount + |PaymentsTo(Payments(s, calls), planId)|
  {
    ClaimsLeaveBoundedResidue(s, calls, planId);
    ClaimsLeaveBoundedResidue(s, other, planId);
    OrderBarelyMatters(s.plans[planId].totalAmount,
                       PaymentsTo(Payments(s, calls), planId), Run(s, calls).plans[planId].totalAmount,
                       PaymentsTo(Payments(s, other), planId), Run(s, other).plans[planId].totalAmount);
  }
}
