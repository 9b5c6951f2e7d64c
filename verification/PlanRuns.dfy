/** Runs of the inheritance contract: any calls, by anyone, in any order. */
module PlanRuns {
  import opened MachineInts
  import opened PlanTypes
  import opened BeneficiaryList
  import opened PlanLedger
  import opened PlanInvariants
  import opened MapSums
  import opened GrowthLadder

  type Event = (Context, Op)

  function Run(s: Store, calls: seq<Event>): Store {
    if calls == [] then s
    else
      var n := |calls| - 1;
      Step(Run(s, calls[..n]), calls[n].0, calls[n].1)
  }

  lemma {:induction false} RunKeepsValid(s: Store, calls: seq<Event>)
    requires Valid(s)
    ensures Valid(Run(s, calls))
  {
    if calls != [] {
      var n := |calls| - 1;
      RunKeepsValid(s, calls[..n]);
      StepKeepsValid(Run(s, calls[..n]), calls[n].0, calls[n].1);
    }
  }

  /** Call `i` of the run went through. */
  predicate Accepted(s: Store, calls: seq<Event>, i: nat)
    requires i < |calls|
  {
    Invoke(Run(s, calls[..i]), calls[i].0, calls[i].1).Ok?
  }

  lemma PrefixAccepted(s: Store, calls: seq<Event>, n: nat, i: nat)
    requires i < n <= |calls|
    ensures Accepted(s, calls[..n], i) == Accepted(s, calls, i)
  {
    assert calls[..n][..i] == calls[..i];
  }

  // ---------- payments and write-offs of a run ----------

  function PaymentsBy(s: Store, c: Context, op: Op): seq<Payment> {
    var r := Invoke(s, c, op);
    if r.Ok? then r.value.payments else []
  }

  function WrittenOffBy(s: Store, c: Context, op: Op): nat {
    var r := Invoke(s, c, op);
    if r.Ok? then r.value.writtenOff else 0
  }

  function Payments(s: Store, calls: seq<Event>): seq<Payment> {
    if calls == [] then []
    else
      var n := |calls| - 1;
      Payments(s, calls[..n]) + PaymentsBy(Run(s, calls[..n]), calls[n].0, calls[n].1)
  }

  function WrittenOff(s: Store, calls: seq<Event>): nat {
    if calls == [] then 0
    else
      var n := |calls| - 1;
      WrittenOff(s, calls[..n]) + WrittenOffBy(Run(s, calls[..n]), calls[n].0, calls[n].1)
  }

  function Paid(payments: seq<Payment>): nat {
    if payments == [] then 0 else Paid(payments[..|payments| - 1]) + payments[|payments| - 1].amount
  }

  lemma {:induction false} PaidAdds(a: seq<Payment>, b: seq<Payment>)
    ensures Paid(a + b) == Paid(a) + Paid(b)
  {
    if b == [] {
      assert a + b == a;
    } else {
      assert (a + b)[..|a + b| - 1] == a + b[..|b| - 1];
      PaidAdds(a, b[..|b| - 1]);
    }
  }

  // ---------- conservation ----------

  ghost function Amounts(plans: map<PlanId, Plan>): map<nat, nat> {
    map id | id in plans :: plans[id].totalAmount
  }

  /** What the contract owes: the balances of all plans, active or not. */
  ghost function Owed(s: Store): nat {
    SumOf(Amounts(s.plans))
  }

  lemma OwedAfterWrite(s: Store, s': Store, planId: PlanId, plan: Plan)
    requires s'.plans == s.plans[planId := plan]
    ensures Owed(s') + (if planId in s.plans then s.plans[planId].totalAmount else 0) == Owed(s) + plan.totalAmount
  {
    assert Amounts(s'.plans) == Amounts(s.plans)[planId := plan.totalAmount];
    SumAfterUpdate(Amounts(s.plans), planId, plan.totalAmount);
  }

  /** The token that a call moves, if it moves one. */
  function TokenOf(op: Op): Option<Token> {
    match op
    case Create(_, token, _, _, _, _, _, _) => Some(token)
    case Deposit(_, token, _, _) => Some(token)
    case Withdraw(_, token, _, _) => Some(token)
    case _ => None
  }

  /** Nobody can sign for the contract account, and the admin is somebody else. */
  predicate FromOutside(c: Context, op: Op) {
    && c.admin != Some(Contract)
    && (op.Create? ==> op.owner != Contract)
    && (op.Deposit? || op.Withdraw? ==> op.caller != Contract)
  }

  /**
   How one call moves the books: a token movement changes custody and debt by the same amount;
   anything else changes the debt by what it pays out and writes off.
   */
  ghost predicate Balanced(s: Store, s': Store, token: Option<Token>, paid: nat, writtenOff: nat) {
    match token
    case None => s'.custody == s.custody && Owed(s') + paid + writtenOff == Owed(s)
    case Some(t) =>
      && paid == writtenOff == 0
      && s'.custody == s.custody[t := BalanceOf(s', t, Contract)]
      && BalanceOf(s', t, Contract) + Owed(s) == BalanceOf(s, t, Contract) + Owed(s')
  }

  lemma TransferIn(s: Store, token: Token, from: Address, amount: nat)
    requires from != Contract && BalanceOf(s, token, from) >= amount
    ensures var t := Transfer(s, token, from, Contract, amount);
            && t.Some?
            && t.value == s.(custody := s.custody[token := BalanceOf(s, token, Contract) + amount],
                             wallets := t.value.wallets)
  {
  }

  lemma TransferOut(s: Store, token: Token, to: Address, amount: nat)
    requires to != Contract && BalanceOf(s, token, Contract) >= amount
    ensures var t := Transfer(s, token, Contract, to, amount);
            && t.Some?
            && t.value == s.(custody := s.custody[token := BalanceOf(s, token, Contract) - amount],
                             wallets := t.value.wallets)
  {
  }

  /** A funded owner's two creation transfers both succeed; only the net amount reaches the contract. */
  lemma CreationFunds(s: Store, token: Token, owner: Address, admin: Address, fee: u64, net: u64)
    requires owner != Contract && admin != Contract
    requires BalanceOf(s, token, owner) >= fee + net
    ensures var f := Funded(s, token, owner, admin, fee, net);
            f == s.(custody := s.custody[token := BalanceOf(s, token, Contract) + net], wallets := f.wallets)
  {
    var charged := if fee > 0 then TransferOrIgnore(s, token, owner, admin, fee) else s;
    assert BalanceOf(charged, token, owner) >= net && charged == s.(wallets := charged.wallets);
    TransferIn(charged, token, owner, net);
  }

  lemma RegisterBooks(s: Store, c: Context, owner: Address, net: u64, distribution: DistributionMethod,
                      inputs: seq<BeneficiaryInput>, lendable: bool)
    requires s.nextPlanId !in s.plans && RegisterCall(s, c, owner, net, distribution, inputs, lendable).Ok?
    ensures var e := RegisterCall(s, c, owner, net, distribution, inputs, lendable).value;
            && e.store.custody == s.custody && Owed(e.store) == Owed(s) + net
            && e.payments == [] && e.writtenOff == 0
  {
    RegisterShape(s, c, owner, net, distribution, inputs, lendable);
    var s' := RegisterCall(s, c, owner, net, distribution, inputs, lendable).value.store;
    OwedAfterWrite(s, s', s.nextPlanId, s'.plans[s.nextPlanId]);
  }

  /** A creation that moved its net amount and registered the plan balances. */
  lemma CreationBalances(s: Store, funded: Store, s': Store, token: Token, net: u64)
    requires funded == s.(custody := s.custody[token := BalanceOf(s, token, Contract) + net], wallets := funded.wallets)
    requires s'.custody == funded.custody && Owed(s') == Owed(funded) + net
    ensures Balanced(s, s', Some(token), 0, 0)
  {
  }

  lemma RegistrationBalanced(s: Store, funded: Store, r: CallResult, c: Context, owner: Address, token: Token, net: u64,
                             distribution: DistributionMethod, inputs: seq<BeneficiaryInput>, lendable: bool)
    requires s.nextPlanId !in s.plans
    requires funded == s.(custody := s.custody[token := BalanceOf(s, token, Contract) + net], wallets := funded.wallets)
    requires r.Ok? && r == RegisterCall(funded, c, owner, net, distribution, inputs, lendable)
    ensures Balanced(s, r.value.store, Some(token), 0, 0) && r.value.payments == [] && r.value.writtenOff == 0
  {
    RegisterBooks(funded, c, owner, net, distribution, inputs, lendable);
    CreationBalances(s, funded, r.value.store, token, net);
  }

  lemma CreateBalanced(s: Store, c: Context, op: Op, fee: u64)
    requires s.nextPlanId !in s.plans && op.Create? && op.owner != Contract && c.admin != Some(Contract)
    requires CreateAt(s, c, op, fee).Ok?
    ensures var e := CreateAt(s, c, op, fee).value;
            Balanced(s, e.store, Some(op.token), 0, 0) && e.payments == [] && e.writtenOff == 0
  {
    CreateShape(s, c, op, fee);
    var net := op.amount - fee;
    var funded := Funded(s, op.token, op.owner, c.admin.value, fee, net);
    CreationFunds(s, op.token, op.owner, c.admin.value, fee, net);
    RegistrationBalanced(s, funded, CreateAt(s, c, op, fee), c, op.owner, op.token, net, op.distribution, op.inputs,
                         op.lendable);
  }

  lemma DepositBalanced(s: Store, c: Context, caller: Address, token: Token, planId: PlanId, amount: u64)
    requires caller != Contract && DepositCall(s, c, caller, token, planId, amount).Ok?
    ensures var e := DepositCall(s, c, caller, token, planId, amount).value;
            Balanced(s, e.store, Some(token), 0, 0) && e.payments == [] && e.writtenOff == 0
  {
    TransferIn(s, token, caller, amount);
    var s' := DepositCall(s, c, caller, token, planId, amount).value.store;
    OwedAfterWrite(s, s', planId, s'.plans[planId]);
  }

  lemma WithdrawBalanced(s: Store, c: Context, caller: Address, token: Token, planId: PlanId, amount: u64)
    requires caller != Contract && WithdrawCall(s, c, caller, token, planId, amount).Ok?
    ensures var e := WithdrawCall(s, c, caller, token, planId, amount).value;
            Balanced(s, e.store, Some(token), 0, 0) && e.payments == [] && e.writtenOff == 0
  {
    TransferOut(s, token, caller, amount);
    var s' := WithdrawCall(s, c, caller, token, planId, amount).value.store;
    OwedAfterWrite(s, s', planId, s'.plans[planId]);
  }

  lemma AutoTriggeredKeepsBooks(s: Store, c: Context, planId: PlanId)
    ensures var s' := AutoTriggered(s, c, planId);
            s'.custody == s.custody && Owed(s') == Owed(s) && s'.settlements == s.settlements
  {
    var s' := AutoTriggered(s, c, planId);
    if s' != s {
      OwedAfterWrite(s, s', planId, s'.plans[planId]);
    }
  }

  lemma PayoutAtMostBalance(s: Store, planId: PlanId, plan: Plan, index: nat)
    requires index < |plan.beneficiaries|
    ensures PayoutAmount(s, planId, plan, index) <= plan.totalAmount
  {
  }

  lemma ClaimBalanced(s: Store, c: Context, planId: PlanId, entry: ClaimEntry)
    requires ClaimCall(s, c, planId, entry).Ok?
    ensures var e := ClaimCall(s, c, planId, entry).value;
            Balanced(s, e.store, None, Paid(e.payments), e.writtenOff)
  {
    ClaimShape(s, c, planId, entry);
    var s1, plan := AutoTriggered(s, c, planId), s.plans[planId];
    var index := ClaimTarget(c, planId, plan, entry).value;
    var payout := PayoutAmount(s1, planId, plan, index);
    AutoTriggeredKeepsBooks(s, c, planId);
    AutoTriggeredKeepsPlan(s, c, planId);
    PayoutAtMostBalance(s1, planId, plan, index);
    RecordPayoutShape(s1, c, planId, plan, entry.email, index, payout);
    var s' := RecordPayout(s1, c, planId, plan, entry.email, index, payout);
    OwedAfterWrite(s1, s', planId, s'.plans[planId]);
    PaidSingle(Payment(planId, entry.email, plan.beneficiaries[index].allocationBp, payout));
  }

  lemma PaidSingle(p: Payment)
    ensures Paid([p]) == p.amount
  {
    assert [p][..0] == [];
  }

  lemma EntitlementAtMostBalance(total: u64, bp: u32)
    requires bp <= FULL_ALLOCATION_BP
    ensures Entitlement(total, bp) == total * bp / FULL_ALLOCATION_BP <= total
  {
    ProductMonotone(total, bp, total, FULL_ALLOCATION_BP);
  }

  lemma ShareWithinPlan(plan: Plan, index: nat)
    requires AllocationOk(plan) && index < |plan.beneficiaries|
    ensures var bp := plan.beneficiaries[index].allocationBp;
            bp <= FULL_ALLOCATION_BP &&
            Entitlement(plan.totalAmount, bp) == plan.totalAmount * bp / FULL_ALLOCATION_BP <= plan.totalAmount
  {
    BpAtMostSum(plan.beneficiaries, index);
    EntitlementAtMostBalance(plan.totalAmount, plan.beneficiaries[index].allocationBp);
  }

  /** One batch entry either pays nothing or lowers the balance by exactly what it pays. */
  lemma ClaimOneBalanced(p: BatchProgress, c: Context, planId: PlanId, entry: ClaimEntry)
    requires planId in p.store.plans && AllocationOk(p.store.plans[planId])
    ensures var p' := ClaimOne(p, c, planId, entry);
            && p'.store.custody == p.store.custody
            && p.payments <= p'.payments
            && Owed(p'.store) + Paid(p'.payments[|p.payments|..]) == Owed(p.store)
  {
    var p', bens := ClaimOne(p, c, planId, entry), p.store.plans[planId].beneficiaries;
    FindBeneficiaryInBounds(bens, entry, 0);
    var index := FindBeneficiary(bens, entry, 0);
    if p'.success > p.success {
      ShareWithinPlan(p.store.plans[planId], index.value);
      PayEntryShape(p, c, planId, entry.email, index.value);
      OwedAfterWrite(p.store, p'.store, planId, p'.store.plans[planId]);
      assert p'.payments[|p.payments|..] == [p'.payments[|p.payments|]];
      PaidSingle(p'.payments[|p.payments|]);
    }
  }

  /** One entry more in a batch whose books balanced so far. */
  lemma NextEntryBalanced(p: BatchProgress, c: Context, planId: PlanId, entry: ClaimEntry, owed: nat)
    requires planId in p.store.plans && AllocationOk(p.store.plans[planId]) && Owed(p.store) + Paid(p.payments) == owed
    ensures var p' := ClaimOne(p, c, planId, entry);
            p'.store.custody == p.store.custody && Owed(p'.store) + Paid(p'.payments) == owed
  {
    var p' := ClaimOne(p, c, planId, entry);
    ClaimOneBalanced(p, c, planId, entry);
    assert p'.payments == p.payments + p'.payments[|p.payments|..];
    PaidAdds(p.payments, p'.payments[|p.payments|..]);
  }

  lemma {:induction false} ClaimEachBalanced(s: Store, c: Context, planId: PlanId, entries: seq<ClaimEntry>, k: nat)
    requires Valid(s) && planId in s.plans && k <= |entries|
    ensures var p := ClaimEach(s, c, planId, entries, k);
            p.store.custody == s.custody && Owed(p.store) + Paid(p.payments) == Owed(s)
    decreases k
  {
    if k > 0 {
      var p := ClaimEach(s, c, planId, entries, k - 1);
      ClaimEachBalanced(s, c, planId, entries, k - 1);
      ClaimEachKeepsValid(s, c, planId, entries, k - 1);
      NextEntryBalanced(p, c, planId, entries[k - 1], Owed(s));
    }
  }

  lemma BatchClaimBalanced(s: Store, c: Context, planId: PlanId, entries: seq<ClaimEntry>)
    requires Valid(s) && BatchClaimCall(s, c, planId, entries).Ok?
    ensures var e := BatchClaimCall(s, c, planId, entries).value;
            Balanced(s, e.store, None, Paid(e.payments), e.writtenOff)
  {
    AutoTriggeredKeepsBooks(s, c, planId);
    AutoTriggeredKeepsValid(s, c, planId);
    AutoTriggeredKeepsPlan(s, c, planId);
    ClaimEachBalanced(AutoTriggered(s, c, planId), c, planId, entries, |entries|);
  }

  lemma LiquidateBalanced(s: Store, c: Context, planId: PlanId)
    requires LiquidateCall(s, c, planId).Ok?
    ensures var e := LiquidateCall(s, c, planId).value;
            Balanced(s, e.store, None, Paid(e.payments), e.writtenOff)
  {
    var s' := LiquidateCall(s, c, planId).value.store;
    OwedAfterWrite(s, s', planId, s'.plans[planId]);
  }

  /** Calls that move no money at all. */
  predicate MovesNothing(op: Op) {
    !(op.Create? || op.Deposit? || op.Withdraw? || op.Claim? || op.BatchClaim? || op.Liquidate?)
  }

  /** A call that leaves custody and every plan's balance as they are. */
  ghost predicate Moneyless(s: Store, r: CallResult) {
    r.Ok? ==>
      && r.value.store.custody == s.custody
      && r.value.store.plans.Keys == s.plans.Keys
      && (forall id <- s.plans :: r.value.store.plans[id].totalAmount == s.plans[id].totalAmount)
      && r.value.payments == []
      && r.value.writtenOff == 0
  }

  lemma MoneylessKeepsDebt(s: Store, r: CallResult)
    requires Moneyless(s, r) && r.Ok?
    ensures Balanced(s, r.value.store, None, Paid(r.value.payments), r.value.writtenOff)
  {
    assert Amounts(r.value.store.plans) == Amounts(s.plans);
  }

  /** Rewriting one plan without its balance moves no money. */
  lemma WriteMoneyless(s: Store, e: Effect, planId: PlanId)
    requires planId in s.plans && planId in e.store.plans
    requires e.store.plans == s.plans[planId := e.store.plans[planId]] && e.store.custody == s.custody
    requires e.store.plans[planId].totalAmount == s.plans[planId].totalAmount
    requires e.payments == [] && e.writtenOff == 0
    ensures Moneyless(s, Ok(e))
  {
  }

  lemma DeactivateMoneyless(s: Store, c: Context, owner: Address, planId: PlanId)
    ensures Moneyless(s, DeactivateCall(s, c, owner, planId))
  {
    var r := DeactivateCall(s, c, owner, planId);
    if r.Ok? {
      WriteMoneyless(s, r.value, planId);
    }
  }

  lemma TransferMoneyless(s: Store, c: Context, owner: Address, newOwner: Address, planId: PlanId)
    ensures Moneyless(s, TransferOwnershipCall(s, c, owner, newOwner, planId))
  {
    var r := TransferOwnershipCall(s, c, owner, newOwner, planId);
    if r.Ok? {
      TransferRelists(s, c, owner, newOwner, planId);
      WriteMoneyless(s, r.value, planId);
    }
  }

  lemma AutoTriggerMoneyless(s: Store, c: Context, planId: PlanId)
    ensures Moneyless(s, AutoTriggerCall(s, c, planId))
  {
    var r := AutoTriggerCall(s, c, planId);
    if r.Ok? && r.value.store != s {
      WriteMoneyless(s, r.value, planId);
    }
  }

  lemma TriggerMoneyless(s: Store, c: Context, caller: Address, planId: PlanId)
    ensures Moneyless(s, TriggerCall(s, c, caller, planId))
  {
  }

  lemma RecallMoneyless(s: Store, c: Context, planId: PlanId, amount: u64)
    ensures Moneyless(s, RecallCall(s, c, planId, amount))
  {
  }

  lemma StepMovesNothing(s: Store, c: Context, op: Op)
    requires MovesNothing(op)
    ensures Moneyless(s, Invoke(s, c, op))
  {
    match op {
      case Deactivate(owner, planId) => DeactivateMoneyless(s, c, owner, planId);
      case TransferOwnership(owner, newOwner, planId) => TransferMoneyless(s, c, owner, newOwner, planId);
      case AutoTrigger(planId) => AutoTriggerMoneyless(s, c, planId);
      case Trigger(caller, planId) => TriggerMoneyless(s, c, caller, planId);
      case Recall(planId, amount) => RecallMoneyless(s, c, planId, amount);
      case _ => EditingCalls(s, c, op);
    }
  }

  /** The accepted call balances. */
  ghost predicate BalancedCall(s: Store, op: Op, r: CallResult)
    requires r.Ok?
  {
    Balanced(s, r.value.store, TokenOf(op), Paid(r.value.payments), r.value.writtenOff)
  }

  lemma TokenCallsBalance(s: Store, c: Context, op: Op)
    requires PlansOk(s) && FromOutside(c, op) && Invoke(s, c, op).Ok? && TokenOf(op).Some?
    ensures BalancedCall(s, op, Invoke(s, c, op))
  {
    match op {
      case Create(_, _, _, _, _, _, _, _) =>
        assert s.nextPlanId !in s.plans;
        var fee := CreateIsCharged(s, c, op);
        CreateBalanced(s, c, op, fee);
      case Deposit(caller, token, planId, amount) => DepositBalanced(s, c, caller, token, planId, amount);
      case Withdraw(caller, token, planId, amount) => WithdrawBalanced(s, c, caller, token, planId, amount);
    }
  }

  lemma SpendingCallsBalance(s: Store, c: Context, op: Op)
    requires Valid(s) && Invoke(s, c, op).Ok? && (op.Claim? || op.BatchClaim? || op.Liquidate?)
    ensures BalancedCall(s, op, Invoke(s, c, op))
  {
    match op {
      case Claim(planId, entry) => ClaimBalanced(s, c, planId, entry);
      case BatchClaim(planId, entries) => BatchClaimBalanced(s, c, planId, entries);
      case Liquidate(planId) => LiquidateBalanced(s, c, planId);
    }
  }

  lemma MoneylessCallsBalance(s: Store, c: Context, op: Op)
    requires Invoke(s, c, op).Ok? && MovesNothing(op)
    ensures BalancedCall(s, op, Invoke(s, c, op))
  {
    StepMovesNothing(s, c, op);
    MoneylessKeepsDebt(s, Invoke(s, c, op));
  }

  lemma StepBalanced(s: Store, c: Context, op: Op)
    requires Valid(s) && FromOutside(c, op) && Invoke(s, c, op).Ok?
    ensures Balanced(s, Step(s, c, op), TokenOf(op), Paid(PaymentsBy(s, c, op)), WrittenOffBy(s, c, op))
  {
    if MovesNothing(op) {
      MoneylessCallsBalance(s, c, op);
    } else if TokenOf(op).Some? {
      TokenCallsBalance(s, c, op);
    } else {
      SpendingCallsBalance(s, c, op);
    }
    assert BalancedCall(s, op, Invoke(s, c, op));
  }

  /** Every call of the run that is accepted comes from outside. */
  ghost predicate AllFromOutside(s: Store, calls: seq<Event>) {
    forall i :: 0 <= i < |calls| && Accepted(s, calls, i) ==> FromOutside(calls[i].0, calls[i].1)
  }

  lemma PrefixFromOutside(s: Store, calls: seq<Event>, n: nat)
    requires n <= |calls| && AllFromOutside(s, calls)
    ensures AllFromOutside(s, calls[..n])
  {
    forall i | 0 <= i < n && Accepted(s, calls[..n], i)
      ensures FromOutside(calls[..n][i].0, calls[..n][i].1)
    {
      PrefixAccepted(s, calls, n, i);
    }
  }

  /** Everything the contract holds, over all tokens. */
  ghost function Held(s: Store): nat {
    SumOf(s.custody)
  }

  /**
   Conservation: what a run adds to the contract's holdings is what it adds to the plans, plus all
   claims paid out of them and all loans written off.
   */
  lemma {:induction false} Conservation(s: Store, calls: seq<Event>)
    requires Valid(s) && AllFromOutside(s, calls)
    ensures var s' := Run(s, calls);
            Held(s') + Owed(s) == Held(s) + Owed(s') + Paid(Payments(s, calls)) + WrittenOff(s, calls)
  {
    if calls != [] {
      var n := |calls| - 1;
      var before, c, op := Run(s, calls[..n]), calls[n].0, calls[n].1;
      PrefixFromOutside(s, calls, n);
      Conservation(s, calls[..n]);
      RunKeepsValid(s, calls[..n]);
      PaidAdds(Payments(s, calls[..n]), PaymentsBy(before, c, op));
      if Invoke(before, c, op).Ok? {
        assert Accepted(s, calls, n);
        StepBalanced(before, c, op);
        if TokenOf(op).Some? {
          SumAfterUpdate(before.custody, TokenOf(op).value, BalanceOf(Run(s, calls), TokenOf(op).value, Contract));
        }
      }
    }
  }
}
