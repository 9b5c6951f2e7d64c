/**
 The calls of a plan's owner: who may make them, exactly when they are accepted, and what they leave, in the fields
 of storage.
 */
module OwnerCalls {
  import opened MachineInts
  import opened ContractErrors
  import opened PlanTypes
  import opened BeneficiaryList
  import opened PlanLedger
  import opened PlanInvariants

  // ---------- authority ----------

  predicate IsOwnerCall(op: Op) {
    EditsOnly(op) || op.Deposit? || op.Withdraw? || op.Deactivate? || op.TransferOwnership?
  }

  /** The account that signs an owner's call. */
  function Signer(op: Op): Address
    requires IsOwnerCall(op)
  {
    if op.Deposit? || op.Withdraw? then op.caller else op.owner
  }

  predicate Owns(s: Store, user: Address, planId: PlanId) {
    planId in s.plans && s.plans[planId].owner == user
  }

  /** The refusals that a call can meet before anybody asks who owns the plan. */
  predicate RefusedEarly(c: Context, op: Op) {
    || (c.paused && !(op.BatchAdd? || op.BatchRemove? || op.BatchUpdate? || op.SetPriority? || op.SetLendable?
                      || op.EnableWaterfall? || op.TransferOwnership?))
    || (op.BatchAdd? && |op.inputs| > 20) || (op.BatchRemove? && |op.indices| > 20)
    || (op.BatchUpdate? && |op.allocations| > 20)
    || ((op.Deposit? || op.Withdraw?) && op.amount == 0)
  }

  /** Nobody but the owner of an existing plan gets through. */
  ghost predicate OwnerOnly(s: Store, c: Context, op: Op, r: CallResult)
    requires IsOwnerCall(op)
  {
    && (r.Ok? ==> Owns(s, Signer(op), op.planId))
    && (!RefusedEarly(c, op) && op.planId !in s.plans ==> r == Err(PlanNotFound))
    && (!RefusedEarly(c, op) && op.planId in s.plans && s.plans[op.planId].owner != Signer(op) ==>
          r == Err(Unauthorized))
  }

  lemma ListEditsAreTheOwners(s: Store, c: Context, op: Op)
    requires op.AddBeneficiary? || op.RemoveBeneficiary? || op.BatchAdd? || op.BatchRemove?
    ensures OwnerOnly(s, c, op, Invoke(s, c, op))
  {
  }

  lemma OtherEditsAreTheOwners(s: Store, c: Context, op: Op)
    requires op.BatchUpdate? || op.SetPriority? || op.SetLendable? || op.EnableWaterfall?
    ensures OwnerOnly(s, c, op, Invoke(s, c, op))
  {
  }

  lemma MoneyIsTheOwners(s: Store, c: Context, op: Op)
    requires op.Deposit? || op.Withdraw?
    ensures OwnerOnly(s, c, op, Invoke(s, c, op))
  {
  }

  lemma StandingIsTheOwners(s: Store, c: Context, op: Op)
    requires op.Deactivate? || op.TransferOwnership?
    ensures OwnerOnly(s, c, op, Invoke(s, c, op))
  {
  }

  /** All twelve calls: accepted only from the owner, and refused as unauthorized from anybody else. */
  lemma OnlyTheOwner(s: Store, c: Context, op: Op)
    requires IsOwnerCall(op)
    ensures OwnerOnly(s, c, op, Invoke(s, c, op))
  {
    if op.AddBeneficiary? || op.RemoveBeneficiary? || op.BatchAdd? || op.BatchRemove? {
      ListEditsAreTheOwners(s, c, op);
    } else if EditsOnly(op) {
      OtherEditsAreTheOwners(s, c, op);
    } else if op.Deposit? || op.Withdraw? {
      MoneyIsTheOwners(s, c, op);
    } else {
      StandingIsTheOwners(s, c, op);
    }
  }

  // ---------- one plan rewritten ----------

  /** The call did nothing but put this plan in the place of the old one. */
  ghost predicate Rewrote(s: Store, r: CallResult, planId: PlanId, plan: Plan, reply: Reply) {
    r == Ok(Effect(s.(plans := s.plans[planId := plan]), reply, [], 0))
  }

  // ---------- one beneficiary ----------

  /** What a new beneficiary has to bring. */
  predicate Complete(input: BeneficiaryInput) {
    && input.name != "" && input.email != "" && input.bankAccount != ""
    && input.allocationBp > 0 && input.claimCode <= 999_999
  }

  predicate MadeFrom(b: Beneficiary, input: BeneficiaryInput) {
    && b.name == input.name && b.email == input.email && b.bankAccount == input.bankAccount
    && b.allocationBp == input.allocationBp && b.priority == input.priority && !b.isClaimed
  }

  lemma MadeIff(input: BeneficiaryInput)
    ensures CreateBeneficiary(input).Ok? <==> Complete(input)
    ensures Complete(input) ==> MadeFrom(CreateBeneficiary(input).value, input)
  {
  }

  /** A new beneficiary fits in beside the stored ones. */
  predicate Fits(plan: Plan, input: BeneficiaryInput) {
    |plan.beneficiaries| < 10 && plan.totalAllocationBp + input.allocationBp <= 10_000
  }

  /** The plan with one beneficiary more, at the end. */
  ghost predicate Joined(plan: Plan, plan': Plan, input: BeneficiaryInput) {
    && |plan'.beneficiaries| == |plan.beneficiaries| + 1
    && plan'.beneficiaries[..|plan.beneficiaries|] == plan.beneficiaries
    && MadeFrom(plan'.beneficiaries[|plan.beneficiaries|], input)
    && plan'.totalAllocationBp == plan.totalAllocationBp + input.allocationBp
    && plan' == plan.(beneficiaries := plan'.beneficiaries, totalAllocationBp := plan'.totalAllocationBp)
  }

  lemma AdditionEffect(s: Store, c: Context, owner: Address, planId: PlanId, input: BeneficiaryInput)
    ensures var r := AddBeneficiaryCall(s, c, owner, planId, input);
            && (r.Ok? <==> !c.paused && Owns(s, owner, planId) && Fits(s.plans[planId], input) && Complete(input))
            && (r.Ok? ==>
                  && planId in r.value.store.plans
                  && Joined(s.plans[planId], r.value.store.plans[planId], input)
                  && Rewrote(s, r, planId, r.value.store.plans[planId], Done))
  {
    AddBeneficiaryShape(s, c, owner, planId, input);
    MadeIff(input);
  }

  /** Position `i` taken over by the last beneficiary. */
  lemma SwapRemoveAt(bens: seq<Beneficiary>, i: nat)
    requires i < |bens|
    ensures |SwapRemove(bens, i)| == |bens| - 1
    ensures forall k :: 0 <= k < |bens| - 1 ==> SwapRemove(bens, i)[k] == bens[if k == i then |bens| - 1 else k]
  {
  }

  ghost predicate Removed(plan: Plan, plan': Plan, i: nat)
    requires i < |plan.beneficiaries|
  {
    && |plan'.beneficiaries| == |plan.beneficiaries| - 1
    && (forall k :: 0 <= k < |plan'.beneficiaries| ==>
          plan'.beneficiaries[k] == plan.beneficiaries[if k == i then |plan.beneficiaries| - 1 else k])
    && plan'.totalAllocationBp + plan.beneficiaries[i].allocationBp == plan.totalAllocationBp
    && plan' == plan.(beneficiaries := plan'.beneficiaries, totalAllocationBp := plan'.totalAllocationBp)
  }

  lemma RemovalEffect(s: Store, c: Context, owner: Address, planId: PlanId, index: u32)
    requires Valid(s)
    ensures var r := RemoveBeneficiaryCall(s, c, owner, planId, index);
            && (r.Ok? <==> !c.paused && Owns(s, owner, planId) && index < |s.plans[planId].beneficiaries|)
            && (r.Ok? ==>
                  && planId in r.value.store.plans
                  && Removed(s.plans[planId], r.value.store.plans[planId], index)
                  && Rewrote(s, r, planId, r.value.store.plans[planId], Done))
  {
    if planId in s.plans && index < |s.plans[planId].beneficiaries| {
      BpAtMostSum(s.plans[planId].beneficiaries, index);
      SwapRemoveAt(s.plans[planId].beneficiaries, index);
    }
  }

  // ---------- batches of additions ----------

  /** The first `n` inputs of a longer list. */
  lemma {:induction false} AddInputsPrefix(plan: Plan, xs: seq<BeneficiaryInput>, ys: seq<BeneficiaryInput>, n: nat)
    requires n <= |xs|
    ensures AddInputs(plan, xs + ys, n) == AddInputs(plan, xs, n)
    decreases n
  {
    if n > 0 {
      AddInputsPrefix(plan, xs, ys, n - 1);
    }
  }

  /** Counters start where the batch before ended. */
  function Resumed(before: BatchAddition, after: Result<BatchAddition, InheritanceError>)
    : Result<BatchAddition, InheritanceError>
  {
    if after.Err? then after
    else
      Ok(BatchAddition(after.value.plan, before.success + after.value.success, before.fail + after.value.fail))
  }

  lemma AddInputResumes(before: BatchAddition, b: BatchAddition, input: BeneficiaryInput)
    ensures AddInput(BatchAddition(b.plan, before.success + b.success, before.fail + b.fail), input) ==
            Resumed(before, AddInput(b, input))
  {
  }

  lemma {:induction false} AddInputsSplit(plan: Plan, xs: seq<BeneficiaryInput>, ys: seq<BeneficiaryInput>, n: nat)
    requires n <= |ys| && AddInputs(plan, xs, |xs|).Ok?
    ensures var first := AddInputs(plan, xs, |xs|).value;
            AddInputs(plan, xs + ys, |xs| + n) == Resumed(first, AddInputs(first.plan, ys, n))
    decreases n
  {
    var first := AddInputs(plan, xs, |xs|).value;
    if n == 0 {
      AddInputsPrefix(plan, xs, ys, |xs|);
    } else {
      AddInputsSplit(plan, xs, ys, n - 1);
      var b := AddInputs(first.plan, ys, n - 1);
      if b.Ok? {
        AddInputResumes(first, b.value, ys[n - 1]);
      }
    }
  }

  /** The accepted first part, the second and the whole of a batch: same storage in the end, and counters that add. */
  ghost predicate InTwoParts(first: Effect, second: CallResult, whole: CallResult) {
    && first.reply.Counts? && (second.Ok? ==> second.value.reply.Counts?)
    && whole == if second.Err? then second
                else Ok(Effect(second.value.store,
                               Counts(first.reply.success + second.value.reply.success,
                                      first.reply.fail + second.value.reply.fail), [], 0))
  }

  /** What a batch of additions answers, given what became of the plan. */
  function AddedAs(s: Store, planId: PlanId, added: Result<BatchAddition, InheritanceError>): CallResult {
    if added.Err? then Err(added.error)
    else
      Ok(Effect(s.(plans := s.plans[planId := added.value.plan]), Counts(added.value.success, added.value.fail), [], 0))
  }

  lemma BatchAddIs(s: Store, owner: Address, planId: PlanId, inputs: seq<BeneficiaryInput>,
                   added: Result<BatchAddition, InheritanceError>)
    requires |inputs| <= 20 && Owns(s, owner, planId) && added == AddInputs(s.plans[planId], inputs, |inputs|)
    ensures BatchAddCall(s, owner, planId, inputs) == AddedAs(s, planId, added)
  {
  }

  lemma PartsJoin(s: Store, planId: PlanId, first: BatchAddition, second: Result<BatchAddition, InheritanceError>)
    ensures var e := AddedAs(s, planId, Ok(first)).value;
            InTwoParts(e, AddedAs(e.store, planId, second), AddedAs(s, planId, Resumed(first, second)))
  {
    if second.Ok? {
      assert s.plans[planId := first.plan][planId := second.value.plan] == s.plans[planId := second.value.plan];
    }
  }

  /** A batch does what its two parts do one after the other, and counts what they count. */
  lemma AdditionsSplit(s: Store, owner: Address, planId: PlanId, xs: seq<BeneficiaryInput>, ys: seq<BeneficiaryInput>)
    requires |xs + ys| <= 20 && BatchAddCall(s, owner, planId, xs).Ok?
    ensures var first := BatchAddCall(s, owner, planId, xs).value;
            InTwoParts(first, BatchAddCall(first.store, owner, planId, ys), BatchAddCall(s, owner, planId, xs + ys))
  {
    var first := FirstPart(s, owner, planId, xs);
    var s1 := AddedAs(s, planId, Ok(first)).value.store;
    var second := AddInputs(first.plan, ys, |ys|);
    AddInputsSplit(s.plans[planId], xs, ys, |ys|);
    BatchAddIs(s1, owner, planId, ys, second);
    BatchAddIs(s, owner, planId, xs + ys, Resumed(first, second));
    PartsJoin(s, planId, first, second);
  }

  lemma FirstPart(s: Store, owner: Address, planId: PlanId, xs: seq<BeneficiaryInput>) returns (first: BatchAddition)
    requires BatchAddCall(s, owner, planId, xs).Ok?
    ensures |xs| <= 20 && Owns(s, owner, planId) && AddInputs(s.plans[planId], xs, |xs|) == Ok(first)
    ensures first.plan.owner == owner
    ensures BatchAddCall(s, owner, planId, xs) == AddedAs(s, planId, Ok(first))
  {
    first := AddInputs(s.plans[planId], xs, |xs|).value;
    AddInputsTouchesShares(s.plans[planId], xs, |xs|);
    BatchAddIs(s, owner, planId, xs, Ok(first));
  }

  lemma AddOneInput(plan: Plan, input: BeneficiaryInput)
    requires plan.totalAllocationBp <= 10_000
    ensures var r := AddInputs(plan, [input], 1);
            if Fits(plan, input) && Complete(input)
            then r.Ok? && Joined(plan, r.value.plan, input) && r.value.success == 1 && r.value.fail == 0
            else if |plan.beneficiaries| < 10 && plan.totalAllocationBp + input.allocationBp > U32_MAX
            then r == Err(Panicked)
            else r == Ok(BatchAddition(plan, 0, 1))
  {
    MadeIff(input);
    assert AddInputs(plan, [input], 0) == Ok(BatchAddition(plan, 0, 0));
    assert AddInputs(plan, [input], 1) == AddInput(BatchAddition(plan, 0, 0), input);
  }

  /** A batch of one adds exactly what a single addition would, and counts instead of refusing. */
  lemma OneAdditionInBatch(s: Store, c: Context, owner: Address, planId: PlanId, input: BeneficiaryInput)
    requires Valid(s) && Owns(s, owner, planId) && !c.paused
    ensures var single := AddBeneficiaryCall(s, c, owner, planId, input);
            var batch := BatchAddCall(s, owner, planId, [input]);
            if single.Ok? then batch == Ok(single.value.(reply := Counts(1, 0)))
            else if |s.plans[planId].beneficiaries| < 10
                    && s.plans[planId].totalAllocationBp + input.allocationBp > U32_MAX
            then batch == Err(Panicked)
            else batch == Ok(Effect(s, Counts(0, 1), [], 0))
  {
    var plan := s.plans[planId];
    assert AllocationOk(plan);
    AddOneInput(plan, input);
    AdditionEffect(s, c, owner, planId, input);
    assert s.plans == s.plans[planId := plan];
    assert AddInputs(plan, [input], 0) == Ok(BatchAddition(plan, 0, 0));
  }

  lemma BatchAdditionNeeds(s: Store, owner: Address, planId: PlanId, inputs: seq<BeneficiaryInput>)
    requires Valid(s) && BatchAddCall(s, owner, planId, inputs).Ok?
    ensures |inputs| <= 20 && Owns(s, owner, planId)
  {
  }

  // ---------- batches of removals ----------

  lemma RemovedNamed(indices: seq<u32>, n: nat)
    ensures |indices| == 1 ==> NamedBelow(indices, n) == if indices[0] < n then [indices[0]] else []
  {
    if |indices| == 1 {
      NamedBelowMembers(indices, n);
      var order := NamedBelow(indices, n);
      if indices[0] < n {
        assert indices[0] in order;
        FallingIsUnique(order, [indices[0]]);
      } else {
        FallingIsUnique(order, []);
      }
    }
  }

  lemma RemoveOneOf(bens: seq<Beneficiary>, total: u32, i: nat)
    requires i < |bens| && total == BpSum(bens)
    ensures RemoveEach(bens, [i]) == SwapRemove(bens, i)
    ensures bens[i].allocationBp <= total && TotalAfterRemovals(bens, total, [i]) == total - bens[i].allocationBp
  {
    var rest: seq<nat> := [];
    assert [i][1..] == rest;
    BpAtMostSum(bens, i);
  }

  /** A batch of one removes exactly what a single removal would, and counts a wild position instead of refusing. */
  lemma OneRemovalInBatch(s: Store, c: Context, owner: Address, planId: PlanId, index: u32)
    requires Valid(s) && Owns(s, owner, planId) && !c.paused
    ensures var single, batch := RemoveBeneficiaryCall(s, c, owner, planId, index),
                                 BatchRemoveCall(s, owner, planId, [index]);
            batch == if single.Ok? then Ok(single.value.(reply := Counts(1, 0)))
                     else Ok(Effect(s, Counts(0, 1), [], 0))
  {
    var plan := s.plans[planId];
    RemovedNamed([index], |plan.beneficiaries|);
    if index < |plan.beneficiaries| {
      RemoveOneOf(plan.beneficiaries, plan.totalAllocationBp, index);
    } else {
      assert s.plans == s.plans[planId := plan];
    }
  }

  lemma BatchRemovalAcceptedIff(s: Store, owner: Address, planId: PlanId, indices: seq<u32>)
    ensures BatchRemoveCall(s, owner, planId, indices).Ok? <==> |indices| <= 20 && Owns(s, owner, planId)
  {
  }

  // ---------- shares and ranks ----------

  /** Position by position, the given shares; nothing else of anybody changes. */
  ghost predicate Reshared(plan: Plan, plan': Plan, allocations: seq<u32>) {
    && |plan'.beneficiaries| == |plan.beneficiaries| == |allocations|
    && (forall i :: 0 <= i < |allocations| ==>
          plan'.beneficiaries[i] == plan.beneficiaries[i].(allocationBp := allocations[i]))
    && plan' == plan.(beneficiaries := plan'.beneficiaries, totalAllocationBp := 10_000)
  }

  lemma ResharingEffect(s: Store, owner: Address, planId: PlanId, allocations: seq<u32>)
    ensures var r := BatchUpdateCall(s, owner, planId, allocations);
            && (r.Ok? <==>
                && |allocations| <= 20 && Owns(s, owner, planId)
                && |allocations| == |s.plans[planId].beneficiaries|
                && (forall a <- allocations :: a > 0) && Sum(allocations) == 10_000)
            && (r.Ok? ==>
                  && planId in r.value.store.plans
                  && Reshared(s.plans[planId], r.value.store.plans[planId], allocations)
                  && Rewrote(s, r, planId, r.value.store.plans[planId], Done))
  {
  }

  /** Beneficiary `i` has a rank that nobody else holds, and nothing else changes. */
  ghost predicate Ranked(plan: Plan, plan': Plan, i: nat, priority: u32)
    requires i < |plan.beneficiaries|
  {
    && |plan'.beneficiaries| == |plan.beneficiaries|
    && (forall k :: 0 <= k < |plan.beneficiaries| ==>
          plan'.beneficiaries[k] == if k == i then plan.beneficiaries[k].(priority := priority)
                                    else plan.beneficiaries[k])
    && plan' == plan.(beneficiaries := plan'.beneficiaries)
  }

  lemma RankingEffect(s: Store, owner: Address, planId: PlanId, index: u32, priority: u32)
    ensures var r := SetPriorityCall(s, owner, planId, index, priority);
            && (r.Ok? <==>
                && Owns(s, owner, planId) && index < |s.plans[planId].beneficiaries| && priority > 0
                && forall k :: 0 <= k < |s.plans[planId].beneficiaries| && k != index ==>
                     s.plans[planId].beneficiaries[k].priority != priority)
            && (r.Ok? ==>
                  && planId in r.value.store.plans
                  && Ranked(s.plans[planId], r.value.store.plans[planId], index, priority)
                  && Rewrote(s, r, planId, r.value.store.plans[planId], Done))
  {
  }

  // ---------- settings and standing ----------

  /** The two settings need nothing but the owner. */
  lemma SettingEffect(s: Store, owner: Address, planId: PlanId, lendable: bool)
    ensures var r := SetLendableCall(s, owner, planId, lendable);
            && (r.Ok? <==> Owns(s, owner, planId))
            && (r.Ok? ==> Rewrote(s, r, planId, s.plans[planId].(isLendable := lendable), Done))
    ensures var r := EnableWaterfallCall(s, owner, planId);
            && (r.Ok? <==> Owns(s, owner, planId))
            && (r.Ok? ==> Rewrote(s, r, planId, s.plans[planId].(waterfallEnabled := true), Done))
  {
  }

  /** An active plan becomes inactive and joins the deactivated ones. */
  lemma DeactivationEffect(s: Store, c: Context, owner: Address, planId: PlanId)
    requires Valid(s)
    ensures var r := DeactivateCall(s, c, owner, planId);
            && (r.Ok? <==> !c.paused && Owns(s, owner, planId) && s.plans[planId].isActive)
            && (r.Ok? ==>
                  r.value == Effect(s.(plans := s.plans[planId := s.plans[planId].(isActive := false)],
                                       deactivated := s.deactivated + [planId]), Done, [], 0))
  {
    if planId in s.plans && s.plans[planId].isActive {
      assert multiset(s.deactivated)[planId] == InactiveCount(s, planId) == 0;
    }
  }

  /** The plan changes hands, and nothing else of it changes. */
  lemma HandoverEffect(s: Store, c: Context, owner: Address, newOwner: Address, planId: PlanId)
    ensures var r := TransferOwnershipCall(s, c, owner, newOwner, planId);
            && (r.Ok? <==> Owns(s, owner, planId) && planId !in s.triggers && planId !in c.frozen)
            && (r.Ok? ==>
                  && r.value == Effect(s.(plans := s.plans[planId := s.plans[planId].(owner := newOwner)],
                                          userPlans := r.value.store.userPlans), Done, [], 0)
                  && forall user :: user != owner && user != newOwner ==>
                       PlansOf(r.value.store, user) == PlansOf(s, user))
  {
    TransferRelists(s, c, owner, newOwner, planId);
  }
}
