/** What every call on the inheritance contract keeps. */
module PlanInvariants {
  import opened MachineInts
  import opened PlanTypes
  import opened BeneficiaryList
  import opened PlanLedger

  /** The recorded total is the sum of the shares, and neither cap is passed. */
  ghost predicate AllocationOk(plan: Plan) {
    && plan.totalAllocationBp == BpSum(plan.beneficiaries) <= FULL_ALLOCATION_BP
    && |plan.beneficiaries| <= MAX_BENEFICIARIES
  }

  /** Every loaned unit at trigger time is still out, was recalled, or was written off. */
  ghost predicate LoansAccounted(plan: Plan, info: TriggerInfo) {
    && plan.totalLoaned + info.recalledAmount + info.settledAmount == info.originalLoaned
    && (info.liquidationTriggered ==> plan.totalLoaned == 0)
  }

  ghost predicate PlansOk(s: Store) {
    forall id <- s.plans :: id < s.nextPlanId && AllocationOk(s.plans[id])
  }

  ghost predicate LoansOk(s: Store) {
    forall id <- s.triggers :: id in s.plans && LoansAccounted(s.plans[id], s.triggers[id])
  }

  /** How often a plan belongs in a user's list. */
  ghost function OwnedCount(s: Store, user: Address, id: PlanId): nat {
    if id in s.plans && s.plans[id].owner == user then 1 else 0
  }

  ghost predicate ListsOwned(s: Store, user: Address) {
    forall id: PlanId :: multiset(PlansOf(s, user))[id] == OwnedCount(s, user, id)
  }

  /** Each plan is listed once under its owner and under nobody else. */
  ghost predicate OwnersOk(s: Store) {
    forall user :: ListsOwned(s, user)
  }

  ghost function InactiveCount(s: Store, id: PlanId): nat {
    if id in s.plans && !s.plans[id].isActive then 1 else 0
  }

  /** The deactivated list is the set of inactive plans, without repetition. */
  ghost predicate DeactivatedOk(s: Store) {
    forall id: PlanId :: multiset(s.deactivated)[id] == InactiveCount(s, id)
  }

  ghost predicate Valid(s: Store) {
    PlansOk(s) && LoansOk(s) && OwnersOk(s) && DeactivatedOk(s)
  }

  lemma DeployedValid(wallets: map<(Token, Address), nat>)
    ensures Valid(Deployed(wallets))
  {
  }

  // ---------- rewriting one plan ----------

  /** A rewrite that no registry depends on. */
  ghost predicate SameStanding(s: Store, planId: PlanId, plan: Plan)
    requires planId in s.plans
  {
    plan.owner == s.plans[planId].owner && plan.isActive == s.plans[planId].isActive
  }

  /** Storage whose registries and plan table were written only at `planId`. */
  ghost predicate Rewrites(s: Store, s': Store, planId: PlanId, plan: Plan) {
    && s'.plans == s.plans[planId := plan]
    && s'.nextPlanId == s.nextPlanId
    && s'.userPlans == s.userPlans
    && s'.deactivated == s.deactivated
  }

  lemma RewriteKeepsRegistries(s: Store, s': Store, planId: PlanId, plan: Plan)
    requires planId in s.plans && SameStanding(s, planId, plan) && Rewrites(s, s', planId, plan)
    requires OwnersOk(s) && DeactivatedOk(s)
    ensures OwnersOk(s') && DeactivatedOk(s')
  {
    forall user
      ensures ListsOwned(s', user)
    {
      assert ListsOwned(s, user);
      forall id: PlanId
        ensures multiset(PlansOf(s', user))[id] == OwnedCount(s', user, id)
      {
        assert multiset(PlansOf(s, user))[id] == OwnedCount(s, user, id);
      }
    }
    forall id: PlanId
      ensures multiset(s'.deactivated)[id] == InactiveCount(s', id)
    {
      assert multiset(s.deactivated)[id] == InactiveCount(s, id);
    }
  }

  /** A write of one plan with the same owner, status and loans, and well-formed shares. */
  ghost predicate TidyWrite(s: Store, s': Store, planId: PlanId) {
    && planId in s.plans
    && planId in s'.plans
    && Rewrites(s, s', planId, s'.plans[planId])
    && SameStanding(s, planId, s'.plans[planId])
    && s'.triggers == s.triggers
    && s'.plans[planId].totalLoaned == s.plans[planId].totalLoaned
    && (AllocationOk(s.plans[planId]) ==> AllocationOk(s'.plans[planId]))
  }

  ghost predicate Tidy(s: Store, result: CallResult, planId: PlanId) {
    result.Ok? ==> TidyWrite(s, result.value.store, planId)
  }

  /** A tidy write that also leaves balances, settlements, claims and custody alone, and pays nothing. */
  ghost predicate Edits(s: Store, result: CallResult, planId: PlanId) {
    result.Ok? ==>
      var e := result.value;
      && TidyWrite(s, e.store, planId)
      && e.store.plans[planId].totalAmount == s.plans[planId].totalAmount
      && e.store.custody == s.custody && e.store.wallets == s.wallets
      && e.store.settlements == s.settlements
      && e.store.claims == s.claims
      && e.payments == [] && e.writtenOff == 0
  }

  lemma SavedEdits(s: Store, planId: PlanId, plan: Plan)
    requires planId in s.plans && SameStanding(s, planId, plan) && plan.totalLoaned == s.plans[planId].totalLoaned
    requires plan.totalAmount == s.plans[planId].totalAmount
    requires AllocationOk(s.plans[planId]) ==> AllocationOk(plan)
    ensures Edits(s, Saved(s, planId, plan), planId)
  {
  }

  /** Writing back a rewritten plan, possibly after a token transfer, is tidy. */
  lemma SavedTidy(s: Store, moved: Store, planId: PlanId, plan: Plan)
    requires planId in s.plans && SameStanding(s, planId, plan) && plan.totalLoaned == s.plans[planId].totalLoaned
    requires moved == s.(custody := moved.custody, wallets := moved.wallets)
    requires AllocationOk(s.plans[planId]) ==> AllocationOk(plan)
    ensures Tidy(s, Saved(moved, planId, plan), planId)
  {
  }

  lemma TidyWriteKeepsValid(s: Store, s': Store, planId: PlanId)
    requires Valid(s) && TidyWrite(s, s', planId)
    ensures Valid(s')
  {
    RewriteKeepsRegistries(s, s', planId, s'.plans[planId]);
  }

  /** The same for a write that also changes the loans and their trigger record. */
  lemma SettlementKeepsValid(s: Store, s': Store, planId: PlanId, plan: Plan, info: TriggerInfo)
    requires Valid(s) && planId in s.plans && SameStanding(s, planId, plan) && Rewrites(s, s', planId, plan)
    requires s'.triggers == s.triggers[planId := info]
    requires AllocationOk(plan) && LoansAccounted(plan, info)
    ensures Valid(s')
  {
    RewriteKeepsRegistries(s, s', planId, plan);
  }

  // ---------- creation ----------

  lemma {:induction false} ScannedTotal(inputs: seq<BeneficiaryInput>, k: nat)
    requires k <= |inputs| && ScanInputs(inputs, k).Ok? && BuildBeneficiaries(inputs, k).Ok?
    ensures |BuildBeneficiaries(inputs, k).value| == k
    ensures BpSum(BuildBeneficiaries(inputs, k).value) == ScanInputs(inputs, k).value
    decreases k
  {
    if k > 0 {
      ScannedTotal(inputs, k - 1);
      assert ScanInput(inputs, k - 1, ScanInputs(inputs, k - 1).value).Ok?;
      BpSumPush(BuildBeneficiaries(inputs, k - 1).value, CreateBeneficiary(inputs[k - 1]).value);
    }
  }

  lemma TransferTouchesBalances(s: Store, token: Token, from: Address, to: Address, amount: nat)
    ensures var t := Transfer(s, token, from, to, amount);
            t.Some? ==> t.value == s.(custody := t.value.custody, wallets := t.value.wallets)
  {
  }

  lemma FundedTouchesBalances(s: Store, token: Token, owner: Address, admin: Address, fee: u64, net: u64)
    ensures var f := Funded(s, token, owner, admin, fee, net);
            f == s.(custody := f.custody, wallets := f.wallets)
  {
    TransferTouchesBalances(s, token, owner, admin, fee);
    var charged := if fee > 0 then TransferOrIgnore(s, token, owner, admin, fee) else s;
    TransferTouchesBalances(charged, token, owner, Contract, net);
  }

  lemma ListingKeepsOwners(s: Store, s': Store, planId: PlanId, plan: Plan)
    requires OwnersOk(s) && planId !in s.plans
    requires s'.plans == s.plans[planId := plan]
    requires s'.userPlans == s.userPlans[plan.owner := PlansOf(s, plan.owner) + [planId]]
    ensures OwnersOk(s')
  {
    forall user
      ensures ListsOwned(s', user)
    {
      assert ListsOwned(s, user);
      forall id: PlanId
        ensures multiset(PlansOf(s', user))[id] == OwnedCount(s', user, id)
      {
        assert multiset(PlansOf(s, user))[id] == OwnedCount(s, user, id);
      }
    }
  }

  lemma RegisteredKeepsValid(s: Store, plan: Plan)
    requires Valid(s) && s.nextPlanId < U64_MAX && plan.isActive && AllocationOk(plan)
    ensures Valid(Registered(s, plan))
  {
    var id, s' := s.nextPlanId, Registered(s, plan);
    ListingKeepsOwners(s, s', id, plan);
    forall k: PlanId
      ensures multiset(s'.deactivated)[k] == InactiveCount(s', k)
    {
      assert multiset(s.deactivated)[k] == InactiveCount(s, k);
    }
  }

  lemma RegisterShape(s: Store, c: Context, owner: Address, net: u64, distribution: DistributionMethod,
                      inputs: seq<BeneficiaryInput>, lendable: bool)
    ensures var r := RegisterCall(s, c, owner, net, distribution, inputs, lendable);
            r.Ok? ==>
              && s.nextPlanId < U64_MAX
              && r.value.store.plans.Keys == s.plans.Keys + {s.nextPlanId}
              && var plan := r.value.store.plans[s.nextPlanId];
                 && r.value == Effect(Registered(s, plan), Created(s.nextPlanId), [], 0)
                 && plan.owner == owner && plan.isActive && plan.totalAmount == net && plan.totalLoaned == 0
                 && AllocationOk(plan)
  {
    if RegisterCall(s, c, owner, net, distribution, inputs, lendable).Ok? {
      ScannedTotal(inputs, |inputs|);
    }
  }

  /** The balances play no part in the invariant. */
  lemma BalancesKeepValid(s: Store, s': Store)
    requires Valid(s) && s' == s.(custody := s'.custody, wallets := s'.wallets)
    ensures Valid(s')
  {
    forall user
      ensures ListsOwned(s', user)
    {
      assert ListsOwned(s, user);
      forall id: PlanId
        ensures multiset(PlansOf(s', user))[id] == OwnedCount(s', user, id)
      {
        assert multiset(PlansOf(s, user))[id] == OwnedCount(s, user, id);
      }
    }
    forall id: PlanId
      ensures multiset(s'.deactivated)[id] == InactiveCount(s', id)
    {
      assert multiset(s.deactivated)[id] == InactiveCount(s, id);
    }
  }

  /** The creation of `op`, at a given fee. */
  function CreateAt(s: Store, c: Context, op: Op, fee: u64): CallResult
    requires op.Create?
  {
    ChargedCreateCall(s, c, op.owner, op.token, op.planName, op.description, op.amount, fee, op.distribution, op.inputs,
                      op.lendable)
  }

  lemma CreateIsCharged(s: Store, c: Context, op: Op) returns (fee: u64)
    requires op.Create?
    ensures fee == CreationFee(op.amount) && Invoke(s, c, op) == CreateAt(s, c, op, fee)
  {
    fee := CreationFee(op.amount);
  }

  /** An accepted creation is a registration of the net amount, after the fee and the net amount moved. */
  lemma CreateShape(s: Store, c: Context, op: Op, fee: u64)
    requires op.Create? && CreateAt(s, c, op, fee).Ok?
    ensures c.admin.Some? && fee < op.amount <= BalanceOf(s, op.token, op.owner)
    ensures CreateAt(s, c, op, fee) ==
            RegisterCall(Funded(s, op.token, op.owner, c.admin.value, fee, op.amount - fee), c, op.owner,
                         op.amount - fee, op.distribution, op.inputs, op.lendable)
  {
  }

  lemma RegisterKeepsValid(s: Store, c: Context, owner: Address, net: u64, distribution: DistributionMethod,
                           inputs: seq<BeneficiaryInput>, lendable: bool)
    requires Valid(s)
    ensures Valid(After(s, RegisterCall(s, c, owner, net, distribution, inputs, lendable)))
  {
    var r := RegisterCall(s, c, owner, net, distribution, inputs, lendable);
    RegisterShape(s, c, owner, net, distribution, inputs, lendable);
    if r.Ok? {
      RegisteredKeepsValid(s, r.value.store.plans[s.nextPlanId]);
    }
  }

  /** An accepted creation is a registration on storage that differs in balances only. */
  lemma CreateRegisters(s: Store, c: Context, op: Op, fee: u64) returns (funded: Store)
    requires op.Create? && CreateAt(s, c, op, fee).Ok?
    ensures funded == s.(custody := funded.custody, wallets := funded.wallets)
    ensures fee < op.amount
    ensures CreateAt(s, c, op, fee) ==
            RegisterCall(funded, c, op.owner, op.amount - fee, op.distribution, op.inputs, op.lendable)
  {
    CreateShape(s, c, op, fee);
    funded := Funded(s, op.token, op.owner, c.admin.value, fee, op.amount - fee);
    FundedTouchesBalances(s, op.token, op.owner, c.admin.value, fee, op.amount - fee);
  }

  lemma RegistrationKeepsValid(s: Store, funded: Store, r: CallResult, c: Context, owner: Address, net: u64,
                               distribution: DistributionMethod, inputs: seq<BeneficiaryInput>, lendable: bool)
    requires Valid(s) && funded == s.(custody := funded.custody, wallets := funded.wallets)
    requires r.Ok? && r == RegisterCall(funded, c, owner, net, distribution, inputs, lendable)
    ensures Valid(r.value.store)
  {
    BalancesKeepValid(s, funded);
    RegisterKeepsValid(funded, c, owner, net, distribution, inputs, lendable);
  }

  lemma CreateKeepsValid(s: Store, c: Context, op: Op, fee: u64)
    requires Valid(s) && op.Create?
    ensures Valid(After(s, CreateAt(s, c, op, fee)))
  {
    if CreateAt(s, c, op, fee).Ok? {
      var funded := CreateRegisters(s, c, op, fee);
      RegistrationKeepsValid(s, funded, CreateAt(s, c, op, fee), c, op.owner, op.amount - fee, op.distribution,
                             op.inputs, op.lendable);
    }
  }

  /** One plan more, under the next id; plans, triggers, claims and settlements are otherwise as they were. */
  ghost predicate AddsPlan(s: Store, s': Store, amount: nat, owner: Address) {
    && s.nextPlanId in s'.plans
    && s'.plans == s.plans[s.nextPlanId := s'.plans[s.nextPlanId]]
    && s'.plans[s.nextPlanId].totalAmount == amount
    && s'.plans[s.nextPlanId].owner == owner
    && s'.triggers == s.triggers
    && s'.claims == s.claims
    && s'.settlements == s.settlements
  }

  lemma RegisterAddsPlan(s: Store, c: Context, owner: Address, net: u64, distribution: DistributionMethod,
                         inputs: seq<BeneficiaryInput>, lendable: bool)
    requires RegisterCall(s, c, owner, net, distribution, inputs, lendable).Ok?
    ensures AddsPlan(s, RegisterCall(s, c, owner, net, distribution, inputs, lendable).value.store, net, owner)
  {
    RegisterShape(s, c, owner, net, distribution, inputs, lendable);
  }

  lemma CreateAddsPlan(s: Store, c: Context, op: Op, fee: u64)
    requires op.Create? && CreateAt(s, c, op, fee).Ok?
    ensures fee < op.amount && AddsPlan(s, CreateAt(s, c, op, fee).value.store, op.amount - fee, op.owner)
  {
    var funded := CreateRegisters(s, c, op, fee);
    RegisterAddsPlan(funded, c, op.owner, op.amount - fee, op.distribution, op.inputs, op.lendable);
  }

  // ---------- beneficiaries ----------

  lemma {:induction false} AddInputsKeepsAllocation(plan: Plan, inputs: seq<BeneficiaryInput>, k: nat)
    requires k <= |inputs| && AllocationOk(plan)
    ensures var r := AddInputs(plan, inputs, k);
            r.Ok? ==>
              AllocationOk(r.value.plan)
    decreases k
  {
    if k > 0 {
      AddInputsKeepsAllocation(plan, inputs, k - 1);
      var before := AddInputs(plan, inputs, k - 1);
      if before.Ok? {
        var b := CreateBeneficiary(inputs[k - 1]);
        if b.Ok? {
          BpSumPush(before.value.plan.beneficiaries, b.value);
        }
      }
    }
  }

  /** A batch of additions only appends; its counters cover every input. */
  lemma {:induction false} AddInputsTouchesShares(plan: Plan, inputs: seq<BeneficiaryInput>, k: nat)
    requires k <= |inputs|
    ensures var r := AddInputs(plan, inputs, k);
            r.Ok? ==>
              && r.value.success + r.value.fail == k
              && |r.value.plan.beneficiaries| == |plan.beneficiaries| + r.value.success
              && plan.beneficiaries <= r.value.plan.beneficiaries
              && r.value.plan == plan.(beneficiaries := r.value.plan.beneficiaries,
                                       totalAllocationBp := r.value.plan.totalAllocationBp)
    decreases k
  {
    if k > 0 {
      AddInputsTouchesShares(plan, inputs, k - 1);
    }
  }

  lemma {:induction false} ReallocatedSum(bens: seq<Beneficiary>, allocations: seq<u32>)
    requires |bens| == |allocations|
    ensures BpSum(Reallocated(bens, allocations)) == Sum(allocations)
    decreases |bens|
  {
    if bens != [] {
      var n := |bens| - 1;
      ReallocatedSum(bens[..n], allocations[..n]);
      assert Reallocated(bens, allocations)[..n] == Reallocated(bens[..n], allocations[..n]);
    }
  }

  lemma AddBeneficiaryShape(s: Store, c: Context, owner: Address, planId: PlanId, input: BeneficiaryInput)
    ensures var r := AddBeneficiaryCall(s, c, owner, planId, input);
            r.Ok? ==>
              && planId in s.plans && |s.plans[planId].beneficiaries| < MAX_BENEFICIARIES
              && CreateBeneficiary(input).Ok?
              && s.plans[planId].totalAllocationBp + input.allocationBp <= FULL_ALLOCATION_BP
              && r == Saved(s, planId, s.plans[planId].(
                              beneficiaries := s.plans[planId].beneficiaries + [CreateBeneficiary(input).value],
                              totalAllocationBp := s.plans[planId].totalAllocationBp + input.allocationBp))
  {
  }

  lemma AddBeneficiaryEdits(s: Store, c: Context, owner: Address, planId: PlanId, input: BeneficiaryInput)
    ensures Edits(s, AddBeneficiaryCall(s, c, owner, planId, input), planId)
  {
    AddBeneficiaryShape(s, c, owner, planId, input);
    if AddBeneficiaryCall(s, c, owner, planId, input).Ok? {
      var plan, b := s.plans[planId], CreateBeneficiary(input).value;
      BpSumPush(plan.beneficiaries, b);
      SavedEdits(s, planId, plan.(beneficiaries := plan.beneficiaries + [b],
                                    totalAllocationBp := plan.totalAllocationBp + input.allocationBp));
    }
  }

  lemma RemoveBeneficiaryEdits(s: Store, c: Context, owner: Address, planId: PlanId, index: u32)
    ensures Edits(s, RemoveBeneficiaryCall(s, c, owner, planId, index), planId)
  {
    if RemoveBeneficiaryCall(s, c, owner, planId, index).Ok? {
      var plan := s.plans[planId];
      var removed := plan.beneficiaries[index].allocationBp;
      SwapRemoveEffect(plan.beneficiaries, index);
      SavedEdits(s, planId, plan.(beneficiaries := SwapRemove(plan.beneficiaries, index),
                                    totalAllocationBp := plan.totalAllocationBp - removed));
    }
  }

  lemma BatchAddEdits(s: Store, owner: Address, planId: PlanId, inputs: seq<BeneficiaryInput>)
    ensures Edits(s, BatchAddCall(s, owner, planId, inputs), planId)
  {
    if BatchAddCall(s, owner, planId, inputs).Ok? {
      AddInputsTouchesShares(s.plans[planId], inputs, |inputs|);
      if AllocationOk(s.plans[planId]) {
        AddInputsKeepsAllocation(s.plans[planId], inputs, |inputs|);
      }
      SavedEdits(s, planId, AddInputs(s.plans[planId], inputs, |inputs|).value.plan);
    }
  }

  lemma BatchRemoveEdits(s: Store, owner: Address, planId: PlanId, indices: seq<u32>)
    ensures Edits(s, BatchRemoveCall(s, owner, planId, indices), planId)
  {
    if BatchRemoveCall(s, owner, planId, indices).Ok? {
      var plan := s.plans[planId];
      var order := NamedBelow(indices, |plan.beneficiaries|);
      if AllocationOk(plan) {
        TotalFollowsRemovals(plan.beneficiaries, plan.totalAllocationBp, order);
      }
      var left := RemoveEach(plan.beneficiaries, order);
      var total := TotalAfterRemovals(plan.beneficiaries, plan.totalAllocationBp, order);
      SavedEdits(s, planId, plan.(beneficiaries := left, totalAllocationBp := total));
    }
  }

  lemma BatchUpdateEdits(s: Store, owner: Address, planId: PlanId, allocations: seq<u32>)
    ensures Edits(s, BatchUpdateCall(s, owner, planId, allocations), planId)
  {
    if planId in s.plans && |allocations| == |s.plans[planId].beneficiaries| {
      ReallocatedSum(s.plans[planId].beneficiaries, allocations);
    }
  }

  lemma SetPriorityEdits(s: Store, owner: Address, planId: PlanId, index: u32, priority: u32)
    ensures Edits(s, SetPriorityCall(s, owner, planId, index, priority), planId)
  {
    if SetPriorityCall(s, owner, planId, index, priority).Ok? {
      var bens := s.plans[planId].beneficiaries;
      BpSumUpdate(bens, index, bens[index].(priority := priority));
      SavedEdits(s, planId, s.plans[planId].(beneficiaries := bens[index := bens[index].(priority := priority)]));
    }
  }

  // ---------- settings, ownership, money ----------

  lemma DepositTidy(s: Store, c: Context, caller: Address, token: Token, planId: PlanId, amount: u64)
    ensures Tidy(s, DepositCall(s, c, caller, token, planId, amount), planId)
  {
    if DepositCall(s, c, caller, token, planId, amount).Ok? {
      var plan := s.plans[planId];
      TransferTouchesBalances(s, token, caller, Contract, amount);
      SavedTidy(s, Transfer(s, token, caller, Contract, amount).value, planId,
                plan.(totalAmount := plan.totalAmount + amount));
    }
  }

  lemma WithdrawTidy(s: Store, c: Context, caller: Address, token: Token, planId: PlanId, amount: u64)
    ensures Tidy(s, WithdrawCall(s, c, caller, token, planId, amount), planId)
  {
    if WithdrawCall(s, c, caller, token, planId, amount).Ok? {
      var plan := s.plans[planId];
      TransferTouchesBalances(s, token, Contract, caller, amount);
      SavedTidy(s, Transfer(s, token, Contract, caller, amount).value, planId,
                plan.(totalAmount := plan.totalAmount - amount));
    }
  }

  lemma SetLendableEdits(s: Store, owner: Address, planId: PlanId, lendable: bool)
    ensures Edits(s, SetLendableCall(s, owner, planId, lendable), planId)
  {
    if planId in s.plans {
      SavedEdits(s, planId, s.plans[planId].(isLendable := lendable));
    }
  }

  lemma EnableWaterfallEdits(s: Store, owner: Address, planId: PlanId)
    ensures Edits(s, EnableWaterfallCall(s, owner, planId), planId)
  {
    if planId in s.plans {
      SavedEdits(s, planId, s.plans[planId].(waterfallEnabled := true));
    }
  }

  lemma DeactivationKeepsValid(s: Store, planId: PlanId)
    requires Valid(s) && planId in s.plans && s.plans[planId].isActive
    ensures Valid(AddPlanToDeactivated(WithPlan(s, planId, s.plans[planId].(isActive := false)), planId))
  {
    var s' := AddPlanToDeactivated(WithPlan(s, planId, s.plans[planId].(isActive := false)), planId);
    assert multiset(s.deactivated)[planId] == InactiveCount(s, planId) == 0;
    forall user
      ensures ListsOwned(s', user)
    {
      assert ListsOwned(s, user);
      forall id: PlanId
        ensures multiset(PlansOf(s', user))[id] == OwnedCount(s', user, id)
      {
        assert multiset(PlansOf(s, user))[id] == OwnedCount(s, user, id);
      }
    }
    forall id: PlanId
      ensures multiset(s'.deactivated)[id] == InactiveCount(s', id)
    {
      assert multiset(s.deactivated)[id] == InactiveCount(s, id);
    }
  }

  lemma {:induction false} RemoveFirstEffect(ids: seq<PlanId>, planId: PlanId)
    ensures multiset(RemoveFirst(ids, planId)) == multiset(ids) - multiset{planId}
  {
    if ids != [] {
      assert ids == [ids[0]] + ids[1..];
      if ids[0] != planId {
        RemoveFirstEffect(ids[1..], planId);
      }
    }
  }

  ghost function Relisted(s: Store, planId: PlanId, newOwner: Address): Store
    requires planId in s.plans
  {
    var plan := s.plans[planId];
    WithPlan(AddPlanToUser(RemovePlanFromUser(s, plan.owner, planId), newOwner, planId), planId,
             plan.(owner := newOwner))
  }

  lemma RelistedList(s: Store, planId: PlanId, newOwner: Address, user: Address)
    requires planId in s.plans
    ensures var ids := PlansOf(s, user);
            var kept := if user == s.plans[planId].owner then RemoveFirst(ids, planId) else ids;
            PlansOf(Relisted(s, planId, newOwner), user) == if user == newOwner then kept + [planId] else kept
  {
  }

  lemma MovedCounts(ids: seq<PlanId>, planId: PlanId, id: PlanId)
    ensures multiset(RemoveFirst(ids, planId))[id] ==
            if id == planId then SaturatingSub(multiset(ids)[id], 1) else multiset(ids)[id]
    ensures multiset(ids + [planId])[id] == multiset(ids)[id] + if id == planId then 1 else 0
  {
    RemoveFirstEffect(ids, planId);
  }

  lemma RelistedOwnedCount(s: Store, planId: PlanId, newOwner: Address, user: Address, id: PlanId)
    requires planId in s.plans
    ensures OwnedCount(Relisted(s, planId, newOwner), user, id) ==
            if id != planId then OwnedCount(s, user, id) else if user == newOwner then 1 else 0
  {
  }

  /** Taking `planId` out of a list that holds it as often as `leaves` says, and adding it if `joins`. */
  lemma ListCount(ids: seq<PlanId>, planId: PlanId, id: PlanId, leaves: bool, joins: bool)
    requires multiset(ids)[planId] == if leaves then 1 else 0
    ensures var kept := if leaves then RemoveFirst(ids, planId) else ids;
            multiset(if joins then kept + [planId] else kept)[id] ==
            if id != planId then multiset(ids)[id] else if joins then 1 else 0
  {
    MovedCounts(ids, planId, id);
    MovedCounts(if leaves then RemoveFirst(ids, planId) else ids, planId, id);
  }

  /** After one removal and one addition, each list changes by what the ownership changes. */
  lemma RelistedCount(s: Store, planId: PlanId, newOwner: Address, user: Address, id: PlanId)
    requires planId in s.plans && ListsOwned(s, user)
    ensures multiset(PlansOf(Relisted(s, planId, newOwner), user))[id] ==
            OwnedCount(Relisted(s, planId, newOwner), user, id)
  {
    var ids: seq<PlanId> := PlansOf(s, user);
    assert multiset(ids)[planId] == OwnedCount(s, user, planId);
    assert multiset(ids)[id] == OwnedCount(s, user, id);
    RelistedList(s, planId, newOwner, user);
    RelistedOwnedCount(s, planId, newOwner, user, id);
    ListCount(ids, planId, id, user == s.plans[planId].owner, user == newOwner);
  }

  lemma RelistedLists(s: Store, planId: PlanId, newOwner: Address, user: Address)
    requires planId in s.plans && ListsOwned(s, user)
    ensures ListsOwned(Relisted(s, planId, newOwner), user)
  {
    forall id: PlanId
      ensures multiset(PlansOf(Relisted(s, planId, newOwner), user))[id] ==
              OwnedCount(Relisted(s, planId, newOwner), user, id)
    {
      RelistedCount(s, planId, newOwner, user, id);
    }
  }

  /** An accepted transfer is the owner's plan moved between two lists. */
  lemma TransferRelists(s: Store, c: Context, owner: Address, newOwner: Address, planId: PlanId)
    ensures var r := TransferOwnershipCall(s, c, owner, newOwner, planId);
            r.Ok? ==>
              && planId in s.plans && s.plans[planId].owner == owner
              && planId !in s.triggers
              && r.value == Effect(Relisted(s, planId, newOwner), Done, [], 0)
  {
  }

  /** Moving a plan between lists, the owner's own list included. */
  lemma RelistingKeepsValid(s: Store, planId: PlanId, newOwner: Address)
    requires Valid(s) && planId in s.plans
    ensures Valid(Relisted(s, planId, newOwner))
  {
    var s' := Relisted(s, planId, newOwner);
    forall user
      ensures ListsOwned(s', user)
    {
      assert ListsOwned(s, user);
      RelistedLists(s, planId, newOwner, user);
    }
    forall id: PlanId
      ensures multiset(s'.deactivated)[id] == InactiveCount(s', id)
    {
      assert multiset(s.deactivated)[id] == InactiveCount(s, id);
    }
  }

  // ---------- trigger, loans and claims ----------

  lemma TriggeredKeepsValid(s: Store, c: Context, planId: PlanId)
    requires Valid(s) && planId in s.plans
    ensures Valid(Triggered(s, c, planId, s.plans[planId]))
  {
    var plan := s.plans[planId];
    SettlementKeepsValid(s, Triggered(s, c, planId, plan), planId, plan.(isLendable := false), FreshTrigger(c, plan));
  }

  lemma AutoTriggeredKeepsValid(s: Store, c: Context, planId: PlanId)
    requires Valid(s)
    ensures Valid(AutoTriggered(s, c, planId))
  {
    if planId in s.plans {
      TriggeredKeepsValid(s, c, planId);
    }
  }

  /** A call that rewrites one plan together with its trigger record, and keeps its loans accounted for. */
  ghost predicate Settles(s: Store, result: CallResult, planId: PlanId) {
    result.Ok? ==>
      var s' := result.value.store;
      && planId in s.plans && planId in s.triggers
      && planId in s'.plans && planId in s'.triggers
      && Rewrites(s, s', planId, s'.plans[planId])
      && SameStanding(s, planId, s'.plans[planId])
      && s'.triggers == s.triggers[planId := s'.triggers[planId]]
      && s'.triggers[planId].triggeredAt == s.triggers[planId].triggeredAt
      && s'.triggers[planId].originalLoaned == s.triggers[planId].originalLoaned
      && s'.settlements == s.settlements
      && s'.claims == s.claims
      && s'.custody == s.custody && s'.wallets == s.wallets
      && s'.plans[planId].beneficiaries == s.plans[planId].beneficiaries
      && s'.plans[planId].totalAllocationBp == s.plans[planId].totalAllocationBp
      && (LoansAccounted(s.plans[planId], s.triggers[planId]) ==> LoansAccounted(s'.plans[planId], s'.triggers[planId]))
  }

  lemma RecallSettles(s: Store, c: Context, planId: PlanId, amount: u64)
    ensures Settles(s, RecallCall(s, c, planId, amount), planId)
  {
  }

  lemma LiquidateSettles(s: Store, c: Context, planId: PlanId)
    ensures Settles(s, LiquidateCall(s, c, planId), planId)
  {
  }

  lemma SettlesKeepsValid(s: Store, result: CallResult, planId: PlanId)
    requires Valid(s) && Settles(s, result, planId)
    ensures Valid(After(s, result))
  {
    if result.Ok? {
      var s' := result.value.store;
      SettlementKeepsValid(s, s', planId, s'.plans[planId], s'.triggers[planId]);
    }
  }

  lemma PaidPlanOk(plan: Plan, index: nat, payout: u64, final: bool)
    requires index < |plan.beneficiaries|
    ensures AllocationOk(plan) ==> AllocationOk(PaidPlan(plan, index, payout, final))
  {
    var b := plan.beneficiaries[index];
    BpSumUpdate(plan.beneficiaries, index, b.(isClaimed := true));
    BpSumUpdate(plan.beneficiaries, index, b);
  }

  lemma RecordPayoutShape(s: Store, c: Context, planId: PlanId, plan: Plan, email: Email, index: nat, payout: u64)
    requires index < |plan.beneficiaries|
    ensures var s' := RecordPayout(s, c, planId, plan, email, index, payout);
            var exit := SettlementOf(s, planId, index);
            var final := exit == 0 || exit <= payout;
            s' == s.(plans := s.plans[planId := PaidPlan(plan, index, payout, final)],
                     settlements := s'.settlements, claims := s'.claims)
  {
  }

  lemma RecordPayoutTidy(s: Store, c: Context, planId: PlanId, plan: Plan, email: Email, index: nat, payout: u64)
    requires planId in s.plans && index < |plan.beneficiaries|
    requires plan == s.plans[planId].(isLendable := plan.isLendable)
    ensures TidyWrite(s, RecordPayout(s, c, planId, plan, email, index, payout), planId)
  {
    var exit := SettlementOf(s, planId, index);
    RecordPayoutShape(s, c, planId, plan, email, index, payout);
    PaidPlanOk(plan, index, payout, exit == 0 || exit <= payout);
  }

  /** The automatic trigger changes nothing of the plan but its lendable flag. */
  lemma AutoTriggeredKeepsPlan(s: Store, c: Context, planId: PlanId)
    requires planId in s.plans
    ensures var s' := AutoTriggered(s, c, planId);
            planId in s'.plans && s.plans[planId] == s'.plans[planId].(isLendable := s.plans[planId].isLendable)
  {
  }

  /** An accepted claim is the payout branch, run after the automatic trigger on the plan read before it. */
  lemma ClaimShape(s: Store, c: Context, planId: PlanId, entry: ClaimEntry)
    ensures var r := ClaimCall(s, c, planId, entry);
            r.Ok? ==>
              && planId in s.plans
              && ClaimTarget(c, planId, s.plans[planId], entry).Ok?
              && r == Payout(AutoTriggered(s, c, planId), c, planId, s.plans[planId], entry,
                             ClaimTarget(c, planId, s.plans[planId], entry).value)
  {
  }

  lemma ClaimKeepsValid(s: Store, c: Context, planId: PlanId, entry: ClaimEntry)
    requires Valid(s)
    ensures Valid(After(s, ClaimCall(s, c, planId, entry)))
  {
    var r := ClaimCall(s, c, planId, entry);
    ClaimShape(s, c, planId, entry);
    if r.Ok? {
      var s1 := AutoTriggered(s, c, planId);
      AutoTriggeredKeepsValid(s, c, planId);
      AutoTriggeredKeepsPlan(s, c, planId);
      var plan, index := s.plans[planId], ClaimTarget(c, planId, s.plans[planId], entry).value;
      RecordPayoutTidy(s1, c, planId, plan, entry.email, index, PayoutAmount(s1, planId, plan, index));
      TidyWriteKeepsValid(s1, r.value.store, planId);
    }
  }

  lemma PayEntryShape(p: BatchProgress, c: Context, planId: PlanId, email: Email, index: nat)
    requires planId in p.store.plans && index < |p.store.plans[planId].beneficiaries|
    ensures var s, s' := p.store, PayEntry(p, c, planId, email, index).store;
            && planId in s'.plans
            && s'.plans[planId] == s.plans[planId].(totalAmount := s'.plans[planId].totalAmount)
            && s' == s.(plans := s.plans[planId := s'.plans[planId]], claims := s'.claims)
  {
    assert p.store.plans == p.store.plans[planId := p.store.plans[planId]];
  }

  lemma NoWriteIsTidy(s: Store, planId: PlanId)
    requires planId in s.plans
    ensures TidyWrite(s, s, planId)
  {
    assert s.plans == s.plans[planId := s.plans[planId]];
  }

  lemma PayEntryTidy(p: BatchProgress, c: Context, planId: PlanId, email: Email, index: nat)
    requires planId in p.store.plans && index < |p.store.plans[planId].beneficiaries|
    ensures TidyWrite(p.store, PayEntry(p, c, planId, email, index).store, planId)
  {
    PayEntryShape(p, c, planId, email, index);
  }

  lemma ClaimOneTidy(p: BatchProgress, c: Context, planId: PlanId, entry: ClaimEntry)
    requires planId in p.store.plans
    ensures TidyWrite(p.store, ClaimOne(p, c, planId, entry).store, planId)
  {
    var bens := p.store.plans[planId].beneficiaries;
    FindBeneficiaryInBounds(bens, entry, 0);
    var index := FindBeneficiary(bens, entry, 0);
    NoWriteIsTidy(p.store, planId);
    if index.Ok? {
      PayEntryTidy(p, c, planId, entry.email, index.value);
    }
  }

  lemma {:induction false} ClaimEachKeepsValid(s: Store, c: Context, planId: PlanId, entries: seq<ClaimEntry>, k: nat)
    requires Valid(s) && planId in s.plans && k <= |entries|
    ensures var p := ClaimEach(s, c, planId, entries, k); Valid(p.store) && planId in p.store.plans
    decreases k
  {
    if k > 0 {
      ClaimEachKeepsValid(s, c, planId, entries, k - 1);
      var p := ClaimEach(s, c, planId, entries, k - 1);
      ClaimOneTidy(p, c, planId, entries[k - 1]);
      TidyWriteKeepsValid(p.store, ClaimOne(p, c, planId, entries[k - 1]).store, planId);
    }
  }

  lemma BatchClaimKeepsValid(s: Store, c: Context, planId: PlanId, entries: seq<ClaimEntry>)
    requires Valid(s)
    ensures Valid(After(s, BatchClaimCall(s, c, planId, entries)))
  {
    if BatchClaimCall(s, c, planId, entries).Ok? {
      AutoTriggeredKeepsValid(s, c, planId);
      AutoTriggeredKeepsPlan(s, c, planId);
      ClaimEachKeepsValid(AutoTriggered(s, c, planId), c, planId, entries, |entries|);
    }
  }

  // ---------- the main invariant ----------

  /** The calls that rewrite one plan and nothing that balances or registries depend on. */
  predicate EditsOnly(op: Op) {
    || op.AddBeneficiary? || op.RemoveBeneficiary? || op.BatchAdd? || op.BatchRemove? || op.BatchUpdate?
    || op.SetPriority? || op.SetLendable? || op.EnableWaterfall?
  }

  lemma EditingCalls(s: Store, c: Context, op: Op)
    requires EditsOnly(op)
    ensures Edits(s, Invoke(s, c, op), op.planId)
  {
    match op {
      case AddBeneficiary(owner, planId, input) => AddBeneficiaryEdits(s, c, owner, planId, input);
      case RemoveBeneficiary(owner, planId, index) => RemoveBeneficiaryEdits(s, c, owner, planId, index);
      case BatchAdd(owner, planId, inputs) => BatchAddEdits(s, owner, planId, inputs);
      case BatchRemove(owner, planId, indices) => BatchRemoveEdits(s, owner, planId, indices);
      case BatchUpdate(owner, planId, allocations) => BatchUpdateEdits(s, owner, planId, allocations);
      case SetPriority(owner, planId, index, priority) => SetPriorityEdits(s, owner, planId, index, priority);
      case SetLendable(owner, planId, lendable) => SetLendableEdits(s, owner, planId, lendable);
      case EnableWaterfall(owner, planId) => EnableWaterfallEdits(s, owner, planId);
    }
  }

  lemma TidyKeepsValid(s: Store, r: CallResult, planId: PlanId)
    requires Valid(s) && Tidy(s, r, planId)
    ensures Valid(After(s, r))
  {
    if r.Ok? {
      TidyWriteKeepsValid(s, r.value.store, planId);
    }
  }

  lemma EditsAreTidy(s: Store, r: CallResult, planId: PlanId)
    requires Edits(s, r, planId)
    ensures Tidy(s, r, planId)
  {
  }

  lemma DeactivateKeepsValid(s: Store, c: Context, owner: Address, planId: PlanId)
    requires Valid(s)
    ensures Valid(After(s, DeactivateCall(s, c, owner, planId)))
  {
    if DeactivateCall(s, c, owner, planId).Ok? {
      DeactivationKeepsValid(s, planId);
    }
  }

  lemma TransferKeepsValid(s: Store, c: Context, owner: Address, newOwner: Address, planId: PlanId)
    requires Valid(s)
    ensures Valid(After(s, TransferOwnershipCall(s, c, owner, newOwner, planId)))
  {
    TransferRelists(s, c, owner, newOwner, planId);
    if TransferOwnershipCall(s, c, owner, newOwner, planId).Ok? {
      RelistingKeepsValid(s, planId, newOwner);
    }
  }

  lemma AutoTriggerKeepsValid(s: Store, c: Context, planId: PlanId)
    requires Valid(s)
    ensures Valid(After(s, AutoTriggerCall(s, c, planId)))
  {
    assert After(s, AutoTriggerCall(s, c, planId)) == AutoTriggered(s, c, planId);
    AutoTriggeredKeepsValid(s, c, planId);
  }

  lemma TriggerKeepsValid(s: Store, c: Context, caller: Address, planId: PlanId)
    requires Valid(s)
    ensures Valid(After(s, TriggerCall(s, c, caller, planId)))
  {
    if TriggerCall(s, c, caller, planId).Ok? {
      TriggeredKeepsValid(s, c, planId);
    }
  }

  lemma RecallKeepsValid(s: Store, c: Context, planId: PlanId, amount: u64)
    requires Valid(s)
    ensures Valid(After(s, RecallCall(s, c, planId, amount)))
  {
    RecallSettles(s, c, planId, amount);
    SettlesKeepsValid(s, RecallCall(s, c, planId, amount), planId);
  }

  lemma LiquidateKeepsValid(s: Store, c: Context, planId: PlanId)
    requires Valid(s)
    ensures Valid(After(s, LiquidateCall(s, c, planId)))
  {
    LiquidateSettles(s, c, planId);
    SettlesKeepsValid(s, LiquidateCall(s, c, planId), planId);
  }

  lemma OwnerCallsKeepValid(s: Store, c: Context, op: Op)
    requires Valid(s) && (op.Deactivate? || op.TransferOwnership?)
    ensures Valid(After(s, Invoke(s, c, op)))
  {
    match op {
      case Deactivate(owner, planId) => DeactivateKeepsValid(s, c, owner, planId);
      case TransferOwnership(owner, newOwner, planId) => TransferKeepsValid(s, c, owner, newOwner, planId);
    }
  }

  lemma TriggerCallsKeepValid(s: Store, c: Context, op: Op)
    requires Valid(s) && (op.AutoTrigger? || op.Trigger?)
    ensures Valid(After(s, Invoke(s, c, op)))
  {
    match op {
      case AutoTrigger(planId) => AutoTriggerKeepsValid(s, c, planId);
      case Trigger(caller, planId) => TriggerKeepsValid(s, c, caller, planId);
    }
  }

  lemma LoanCallsKeepValid(s: Store, c: Context, op: Op)
    requires Valid(s) && (op.Recall? || op.Liquidate?)
    ensures Valid(After(s, Invoke(s, c, op)))
  {
    match op {
      case Recall(planId, amount) => RecallKeepsValid(s, c, planId, amount);
      case Liquidate(planId) => LiquidateKeepsValid(s, c, planId);
    }
  }

  predicate MovesMoney(op: Op) {
    op.Claim? || op.BatchClaim? || op.Deposit? || op.Withdraw?
  }

  lemma MoneyCallsKeepValid(s: Store, c: Context, op: Op)
    requires Valid(s) && MovesMoney(op)
    ensures Valid(After(s, Invoke(s, c, op)))
  {
    match op {
      case Claim(planId, entry) => ClaimKeepsValid(s, c, planId, entry);
      case BatchClaim(planId, entries) => BatchClaimKeepsValid(s, c, planId, entries);
      case Deposit(caller, token, planId, amount) =>
        DepositTidy(s, c, caller, token, planId, amount);
        TidyKeepsValid(s, DepositCall(s, c, caller, token, planId, amount), planId);
      case Withdraw(caller, token, planId, amount) =>
        WithdrawTidy(s, c, caller, token, planId, amount);
        TidyKeepsValid(s, WithdrawCall(s, c, caller, token, planId, amount), planId);
    }
  }

  lemma EditingCallsKeepValid(s: Store, c: Context, op: Op)
    requires Valid(s) && EditsOnly(op)
    ensures Valid(After(s, Invoke(s, c, op)))
  {
    EditingCalls(s, c, op);
    EditsAreTidy(s, Invoke(s, c, op), op.planId);
    TidyKeepsValid(s, Invoke(s, c, op), op.planId);
  }

  /** Every call, accepted or refused, keeps the invariant. */
  lemma StepKeepsValid(s: Store, c: Context, op: Op)
    requires Valid(s)
    ensures Valid(Step(s, c, op))
  {
    if op.Create? {
      var fee := CreateIsCharged(s, c, op);
      CreateKeepsValid(s, c, op, fee);
    } else if MovesMoney(op) {
      MoneyCallsKeepValid(s, c, op);
    } else if EditsOnly(op) {
      EditingCallsKeepValid(s, c, op);
    } else if op.Deactivate? || op.TransferOwnership? {
      OwnerCallsKeepValid(s, c, op);
    } else if op.AutoTrigger? || op.Trigger? {
      TriggerCallsKeepValid(s, c, op);
    } else {
      LoanCallsKeepValid(s, c, op);
    }
  }
}
