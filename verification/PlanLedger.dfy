/**
 What each entry point of the inheritance contract does to storage
 (contracts/inheritance-contract/src/gas_optimization.rs). A call that ends with an error or a trap
 leaves no effect, because the host reverts it.
 */
module PlanLedger {
  import opened MachineInts
  import opened ContractErrors
  import opened PlanTypes
  import opened BeneficiaryList

  const MAX_BENEFICIARIES: int := 10
  const FULL_ALLOCATION_BP: int := 10_000
  const CREATION_FEE_BP: int := 200
  const EMERGENCY_TRANSFER_LIMIT_BP: int := 1_000
  const BATCH_LIMIT: int := 20
  const MAX_DESCRIPTION: int := 500
  const MAX_CLAIM_CODE: int := 999_999
  const DAY: int := 86_400

  // ---------- lookups ----------

  function FindPlan(s: Store, planId: PlanId): Result<Plan, InheritanceError> {
    if planId in s.plans then Ok(s.plans[planId]) else Err(PlanNotFound)
  }

  function OwnedPlan(s: Store, owner: Address, planId: PlanId): Result<Plan, InheritanceError> {
    var plan :- FindPlan(s, planId);
    :- Need(plan.owner == owner, Unauthorized);
    Ok(plan)
  }

  function PlansOf(s: Store, user: Address): seq<PlanId> {
    if user in s.userPlans then s.userPlans[user] else []
  }

  predicate Recorded(s: Store, planId: PlanId, email: Email) {
    (planId, email) in s.claims.records
  }

  function ClaimedPlansOf(claims: Claims, owner: Address): seq<PlanId> {
    if owner in claims.ofOwner then claims.ofOwner[owner] else []
  }

  function SettlementOf(s: Store, planId: PlanId, index: nat): u64 {
    if (planId, index) in s.settlements then s.settlements[(planId, index)] else 0
  }

  // ---------- writes ----------

  function WithPlan(s: Store, planId: PlanId, plan: Plan): Store {
    s.(plans := s.plans[planId := plan])
  }

  function Saved(s: Store, planId: PlanId, plan: Plan): CallResult {
    Ok(Effect(WithPlan(s, planId, plan), Done, [], 0))
  }

  function RemoveFirst(ids: seq<PlanId>, planId: PlanId): seq<PlanId> {
    if ids == [] then []
    else if ids[0] == planId then ids[1..]
    else [ids[0]] + RemoveFirst(ids[1..], planId)
  }

  function AddPlanToUser(s: Store, user: Address, planId: PlanId): Store {
    s.(userPlans := s.userPlans[user := PlansOf(s, user) + [planId]])
  }

  function RemovePlanFromUser(s: Store, user: Address, planId: PlanId): Store {
    s.(userPlans := s.userPlans[user := RemoveFirst(PlansOf(s, user), planId)])
  }

  function AddPlanToDeactivated(s: Store, planId: PlanId): Store {
    if planId in s.deactivated then s else s.(deactivated := s.deactivated + [planId])
  }

  // ---------- token transfers ----------

  function BalanceOf(s: Store, token: Token, account: Address): nat {
    if account == Contract then (if token in s.custody then s.custody[token] else 0)
    else if (token, account) in s.wallets then s.wallets[(token, account)] else 0
  }

  function WithBalance(s: Store, token: Token, account: Address, balance: nat): Store {
    if account == Contract then s.(custody := s.custody[token := balance])
    else s.(wallets := s.wallets[(token, account) := balance])
  }

  /** An honest token moves the amount exactly when the sender holds it. */
  function Transfer(s: Store, token: Token, from: Address, to: Address, amount: nat): Option<Store> {
    if BalanceOf(s, token, from) < amount then None
    else
      var debited := WithBalance(s, token, from, BalanceOf(s, token, from) - amount);
      Some(WithBalance(debited, token, to, BalanceOf(debited, token, to) + amount))
  }

  /** A transfer whose outcome the caller discards. */
  function TransferOrIgnore(s: Store, token: Token, from: Address, to: Address, amount: nat): Store {
    match Transfer(s, token, from, to, amount)
    case Some(s') => s'
    case None => s
  }

  // ---------- creation ----------

  /** Two per cent, or nothing at all when the product overflows u64. */
  function CreationFee(amount: u64): u64 {
    if amount * CREATION_FEE_BP <= U64_MAX then amount * CREATION_FEE_BP / FULL_ALLOCATION_BP else 0
  }

  /** One round of the scan: the running total after input `k`, or the error that stops it. */
  function ScanInput(inputs: seq<BeneficiaryInput>, k: nat, total: u32): Result<u32, InheritanceError>
    requires k < |inputs|
  {
    var input := inputs[k];
    if input.name == "" || (exists i :: 0 <= i < k && inputs[i].email == input.email) then Err(InvalidBeneficiaryData)
    else if total + input.allocationBp > U32_MAX then Err(AllocationPercentageMismatch)
    else if input.priority == 0 || (exists i :: 0 <= i < k && inputs[i].priority == input.priority) then
      Err(InvalidBeneficiaryData)
    else Ok(total + input.allocationBp)
  }

  /** The total allocation of the first `k` inputs, or the error that stopped the scan. */
  function ScanInputs(inputs: seq<BeneficiaryInput>, k: nat): Result<u32, InheritanceError>
    requires k <= |inputs|
  {
    if k == 0 then Ok(0)
    else
      var total :- ScanInputs(inputs, k - 1);
      ScanInput(inputs, k - 1, total)
  }

  function ValidateBeneficiaries(inputs: seq<BeneficiaryInput>): Guard {
    if |inputs| > MAX_BENEFICIARIES then Fail(TooManyBeneficiaries)
    else if inputs == [] then Fail(MissingRequiredField)
    else
      match ScanInputs(inputs, |inputs|)
      case Err(error) => Fail(error)
      case Ok(total) => Need(total == FULL_ALLOCATION_BP, AllocationPercentageMismatch)
  }

  function CreateBeneficiary(input: BeneficiaryInput): Result<Beneficiary, InheritanceError> {
    if input.name == "" || input.email == "" || input.bankAccount == "" then Err(InvalidBeneficiaryData)
    else if input.allocationBp == 0 then Err(InvalidAllocation)
    else if input.claimCode > MAX_CLAIM_CODE then Err(InvalidClaimCodeRange)
    else Ok(Beneficiary(input.name, input.email, input.bankAccount, input.allocationBp, input.priority, false))
  }

  /** The beneficiaries built from the first `k` inputs. */
  function BuildBeneficiaries(inputs: seq<BeneficiaryInput>, k: nat): Result<seq<Beneficiary>, InheritanceError>
    requires k <= |inputs|
  {
    if k == 0 then Ok([])
    else
      var built :- BuildBeneficiaries(inputs, k - 1);
      var b :- CreateBeneficiary(inputs[k - 1]);
      Ok(built + [b])
  }

  /** Balances after the fee went to the admin and the rest to the contract. */
  function Funded(s: Store, token: Token, owner: Address, admin: Address, fee: u64, net: u64): Store {
    var charged := if fee > 0 then TransferOrIgnore(s, token, owner, admin, fee) else s;
    TransferOrIgnore(charged, token, owner, Contract, net)
  }

  /** The new plan, under the next id and in its owner's list. */
  function Registered(s: Store, plan: Plan): Store
    requires s.nextPlanId < U64_MAX
  {
    var id := s.nextPlanId;
    AddPlanToUser(WithPlan(s, id, plan).(nextPlanId := id + 1), plan.owner, id)
  }

  function RegisterCall(s: Store, c: Context, owner: Address, net: u64, distribution: DistributionMethod,
                        inputs: seq<BeneficiaryInput>, lendable: bool): CallResult
  {
    var guard := ValidateBeneficiaries(inputs);
    :- guard;
    if s.nextPlanId == U64_MAX then Err(Panicked)
    else
      var bens :- BuildBeneficiaries(inputs, |inputs|);
      var plan := Plan(net, distribution, bens, FULL_ALLOCATION_BP, owner, c.now, true, lendable, 0, false);
      Ok(Effect(Registered(s, plan), Created(s.nextPlanId), [], 0))
  }

  function FundedRegisterCall(s: Store, c: Context, owner: Address, token: Token, admin: Address, fee: u64, net: u64,
                              distribution: DistributionMethod, inputs: seq<BeneficiaryInput>,
                              lendable: bool): CallResult
  {
    RegisterCall(Funded(s, token, owner, admin, fee, net), c, owner, net, distribution, inputs, lendable)
  }

  /** The checks made before any token moves. */
  function CreateGuard(s: Store, c: Context, owner: Address, token: Token, planName: string, description: string,
                       amount: u64, fee: u64): Guard
  {
    if c.paused then Fail(Panicked)
    else if owner !in c.kycApproved then Fail(KycNotSubmitted)
    else if c.admin.None? then Fail(AdminNotSet)
    else if amount <= fee then Fail(InvalidTotalAmount)
    else if planName == "" then Fail(MissingRequiredField)
    else if |description| > MAX_DESCRIPTION then Fail(DescriptionTooLong)
    else Need(BalanceOf(s, token, owner) >= amount, InsufficientBalance)
  }

  /** A creation at a given fee. */
  function ChargedCreateCall(s: Store, c: Context, owner: Address, token: Token, planName: string, description: string,
                             amount: u64, fee: u64, distribution: DistributionMethod, inputs: seq<BeneficiaryInput>,
                             lendable: bool): CallResult
  {
    var guard := CreateGuard(s, c, owner, token, planName, description, amount, fee);
    :- guard;
    FundedRegisterCall(s, c, owner, token, c.admin.value, fee, amount - fee, distribution, inputs, lendable)
  }

  function CreateCall(s: Store, c: Context, owner: Address, token: Token, planName: string, description: string,
                      amount: u64, distribution: DistributionMethod, inputs: seq<BeneficiaryInput>,
                      lendable: bool): CallResult
  {
    ChargedCreateCall(s, c, owner, token, planName, description, amount, CreationFee(amount), distribution, inputs,
                      lendable)
  }

  // ---------- beneficiaries ----------

  function AddBeneficiaryCall(s: Store, c: Context, owner: Address, planId: PlanId,
                              input: BeneficiaryInput): CallResult {
    if c.paused then Err(Panicked)
    else
      var plan :- OwnedPlan(s, owner, planId);
      :- Need(|plan.beneficiaries| < MAX_BENEFICIARIES, TooManyBeneficiaries);
      :- Need(input.allocationBp != 0, InvalidAllocation);
      var total := plan.totalAllocationBp + input.allocationBp;
      :- Need(total <= U32_MAX, Panicked);
      :- Need(total <= FULL_ALLOCATION_BP, AllocationExceedsLimit);
      var b :- CreateBeneficiary(input);
      Saved(s, planId, plan.(beneficiaries := plan.beneficiaries + [b], totalAllocationBp := total))
  }

  function RemoveBeneficiaryCall(s: Store, c: Context, owner: Address, planId: PlanId, index: u32): CallResult {
    if c.paused then Err(Panicked)
    else
      var plan :- OwnedPlan(s, owner, planId);
      :- Need(index < |plan.beneficiaries|, InvalidBeneficiaryIndex);
      var removed := plan.beneficiaries[index].allocationBp;
      :- Need(removed <= plan.totalAllocationBp, Panicked);
      Saved(s, planId, plan.(beneficiaries := SwapRemove(plan.beneficiaries, index),
                             totalAllocationBp := plan.totalAllocationBp - removed))
  }

  /** The plan and the counters after the first `k` inputs of a batch. */
  datatype BatchAddition = BatchAddition(plan: Plan, success: nat, fail: nat)

  function AddInputs(plan: Plan, inputs: seq<BeneficiaryInput>, k: nat): Result<BatchAddition, InheritanceError>
    requires k <= |inputs|
  {
    if k == 0 then Ok(BatchAddition(plan, 0, 0))
    else
      var before :- AddInputs(plan, inputs, k - 1);
      AddInput(before, inputs[k - 1])
  }

  function AddInput(before: BatchAddition, input: BeneficiaryInput): Result<BatchAddition, InheritanceError> {
    var plan := before.plan;
    var failed := before.(fail := before.fail + 1);
    if |plan.beneficiaries| >= MAX_BENEFICIARIES || input.allocationBp == 0 then Ok(failed)
    else
      var total := plan.totalAllocationBp + input.allocationBp;
      if total > U32_MAX then Err(Panicked)
      else if total > FULL_ALLOCATION_BP then Ok(failed)
      else
        match CreateBeneficiary(input)
        case Err(_) => Ok(failed)
        case Ok(b) =>
          Ok(before.(plan := plan.(totalAllocationBp := total, beneficiaries := plan.beneficiaries + [b]),
                     success := before.success + 1))
  }

  function BatchAddCall(s: Store, owner: Address, planId: PlanId, inputs: seq<BeneficiaryInput>): CallResult {
    if |inputs| > BATCH_LIMIT then Err(TooManyBeneficiaries)
    else
      var plan :- OwnedPlan(s, owner, planId);
      var added :- AddInputs(plan, inputs, |inputs|);
      Ok(Effect(WithPlan(s, planId, added.plan), Counts(added.success, added.fail), [], 0))
  }

  function BatchRemoveCall(s: Store, owner: Address, planId: PlanId, indices: seq<u32>): CallResult {
    if |indices| > BATCH_LIMIT then Err(TooManyBeneficiaries)
    else
      var plan :- OwnedPlan(s, owner, planId);
      var order := NamedBelow(indices, |plan.beneficiaries|);
      var left := RemoveEach(plan.beneficiaries, order);
      var total := TotalAfterRemovals(plan.beneficiaries, plan.totalAllocationBp, order);
      Ok(Effect(WithPlan(s, planId, plan.(beneficiaries := left, totalAllocationBp := total)),
                Counts(|order|, SaturatingSub(|indices|, |order|)), [], 0))
  }

  function Sum(xs: seq<u32>): nat {
    if xs == [] then 0 else Sum(xs[..|xs| - 1]) + xs[|xs| - 1]
  }

  function Reallocated(bens: seq<Beneficiary>, allocations: seq<u32>): seq<Beneficiary>
    requires |bens| == |allocations|
  {
    seq(|bens|, i requires 0 <= i < |bens| => bens[i].(allocationBp := allocations[i]))
  }

  function BatchUpdateCall(s: Store, owner: Address, planId: PlanId, allocations: seq<u32>): CallResult {
    if |allocations| > BATCH_LIMIT then Err(TooManyBeneficiaries)
    else
      var plan :- OwnedPlan(s, owner, planId);
      if |allocations| != |plan.beneficiaries| then Err(InvalidBeneficiaryData)
      else
        :- Need(0 !in allocations, InvalidAllocation);
        :- Need(Sum(allocations) <= U32_MAX, Panicked);
        :- Need(Sum(allocations) == FULL_ALLOCATION_BP, AllocationPercentageMismatch);
        Saved(s, planId, plan.(beneficiaries := Reallocated(plan.beneficiaries, allocations),
                               totalAllocationBp := FULL_ALLOCATION_BP))
  }

  function SetPriorityCall(s: Store, owner: Address, planId: PlanId, index: u32, priority: u32): CallResult {
    var plan :- OwnedPlan(s, owner, planId);
    var bens := plan.beneficiaries;
    :- Need(index < |bens|, InvalidBeneficiaryIndex);
    :- Need(priority != 0, InvalidBeneficiaryData);
    :- Need(forall i :: 0 <= i < |bens| && i != index ==> bens[i].priority != priority, InvalidBeneficiaryData);
    Saved(s, planId, plan.(beneficiaries := bens[index := bens[index].(priority := priority)]))
  }

  // ---------- plan settings ----------

  function SetLendableCall(s: Store, owner: Address, planId: PlanId, lendable: bool): CallResult {
    var plan :- OwnedPlan(s, owner, planId);
    Saved(s, planId, plan.(isLendable := lendable))
  }

  function EnableWaterfallCall(s: Store, owner: Address, planId: PlanId): CallResult {
    var plan :- OwnedPlan(s, owner, planId);
    Saved(s, planId, plan.(waterfallEnabled := true))
  }

  function DeactivateCall(s: Store, c: Context, owner: Address, planId: PlanId): CallResult {
    if c.paused then Err(Panicked)
    else
      var plan :- OwnedPlan(s, owner, planId);
      :- Need(plan.isActive, PlanAlreadyDeactivated);
      var stored := WithPlan(s, planId, plan.(isActive := false));
      Ok(Effect(AddPlanToDeactivated(stored, planId), Done, [], 0))
  }

  function TransferOwnershipCall(s: Store, c: Context, owner: Address, newOwner: Address, planId: PlanId): CallResult {
    var plan :- OwnedPlan(s, owner, planId);
    :- Need(planId !in s.triggers && planId !in c.frozen, PlanNotActive);
    var relisted := AddPlanToUser(RemovePlanFromUser(s, owner, planId), newOwner, planId);
    Saved(relisted, planId, plan.(owner := newOwner))
  }

  // ---------- money ----------

  function DepositCall(s: Store, c: Context, caller: Address, token: Token, planId: PlanId, amount: u64): CallResult {
    if c.paused then Err(Panicked)
    else
      :- Need(amount != 0, InvalidTotalAmount);
      var plan :- OwnedPlan(s, caller, planId);
      :- Need(plan.isActive && planId !in c.frozen, PlanNotActive);
      :- Need(BalanceOf(s, token, caller) >= amount, InsufficientBalance);
      match Transfer(s, token, caller, Contract, amount)
      case None => Err(FeeTransferFailed)
      case Some(moved) =>
        if plan.totalAmount + amount > U64_MAX then Err(Panicked)
        else Saved(moved, planId, plan.(totalAmount := plan.totalAmount + amount))
  }

  function EmergencyLimit(plan: Plan): nat {
    plan.totalAmount * EMERGENCY_TRANSFER_LIMIT_BP / FULL_ALLOCATION_BP
  }

  function WithdrawCall(s: Store, c: Context, caller: Address, token: Token, planId: PlanId, amount: u64): CallResult {
    if c.paused then Err(Panicked)
    else
      :- Need(amount != 0, InvalidTotalAmount);
      var plan :- OwnedPlan(s, caller, planId);
      :- Need(planId !in c.frozen, PlanNotActive);
      :- Need(planId !in c.emergencyActive || amount <= EmergencyLimit(plan), EmergencyCooldownActive);
      :- Need(amount <= SaturatingSub(plan.totalAmount, plan.totalLoaned), InsufficientLiquidity);
      match Transfer(s, token, Contract, caller, amount)
      case None => Err(FeeTransferFailed)
      case Some(moved) => Saved(moved, planId, plan.(totalAmount := plan.totalAmount - amount))
  }

  // ---------- trigger and loans ----------

  function FreshTrigger(c: Context, plan: Plan): TriggerInfo {
    TriggerInfo(c.now, true, false, false, plan.totalLoaned, 0, 0)
  }

  function Triggered(s: Store, c: Context, planId: PlanId, plan: Plan): Store {
    WithPlan(s, planId, plan.(isLendable := false)).(triggers := s.triggers[planId := FreshTrigger(c, plan)])
  }

  function AutoTriggerCall(s: Store, c: Context, planId: PlanId): CallResult {
    if planId !in c.conditionsMet || planId in s.triggers then Ok(Effect(s, Done, [], 0))
    else
      var plan :- FindPlan(s, planId);
      :- Need(plan.isActive, PlanNotActive);
      Ok(Effect(Triggered(s, c, planId, plan), Done, [], 0))
  }

  /** The automatic trigger as claims run it: an error is discarded and changes nothing. */
  function AutoTriggered(s: Store, c: Context, planId: PlanId): Store {
    match AutoTriggerCall(s, c, planId)
    case Ok(effect) => effect.store
    case Err(_) => s
  }

  predicate MayTrigger(s: Store, c: Context, caller: Address, planId: PlanId)
    requires planId in s.plans
  {
    || s.plans[planId].owner == caller
    || (planId in c.emergencyContact && c.emergencyContact[planId] == caller)
  }

  function TriggerCall(s: Store, c: Context, caller: Address, planId: PlanId): CallResult {
    if c.paused then Err(Panicked)
    else
      var plan :- FindPlan(s, planId);
      :- Need(c.admin == Some(caller) || MayTrigger(s, c, caller, planId), Unauthorized);
      :- Need(plan.isActive && planId !in c.frozen, PlanNotActive);
      :- Need(planId !in s.triggers, InheritanceAlreadyTriggered);
      Ok(Effect(Triggered(s, c, planId, plan), Done, [], 0))
  }

  /** The plan and its trigger record, once the admin asks for loans to be settled. */
  function LoanedPlan(s: Store, c: Context, planId: PlanId): Result<(Plan, TriggerInfo), InheritanceError> {
    if !c.callerIsAdmin then Err(NotAdmin)
    else
      var plan :- FindPlan(s, planId);
      if planId !in s.triggers then Err(InheritanceNotTriggered)
      else
        :- Need(plan.totalLoaned != 0, NoOutstandingLoans);
        Ok((plan, s.triggers[planId]))
  }

  function RecallCall(s: Store, c: Context, planId: PlanId, amount: u64): CallResult {
    var (plan, info) :- LoanedPlan(s, c, planId);
    if amount == 0 || amount > plan.totalLoaned then Err(LoanRecallFailed)
    else if info.recalledAmount + amount > U64_MAX then Err(Panicked)
    else
      var stored := WithPlan(s, planId, plan.(totalLoaned := plan.totalLoaned - amount));
      var info' := info.(recallAttempted := true, recalledAmount := info.recalledAmount + amount);
      Ok(Effect(stored.(triggers := s.triggers[planId := info']), Done, [], 0))
  }

  function LiquidateCall(s: Store, c: Context, planId: PlanId): CallResult {
    var (plan, info) :- LoanedPlan(s, c, planId);
    var unrecoverable := plan.totalLoaned;
    if info.settledAmount + unrecoverable > U64_MAX then Err(Panicked)
    else
      var plan' := plan.(totalAmount := SaturatingSub(plan.totalAmount, unrecoverable), totalLoaned := 0);
      var info' := info.(liquidationTriggered := true, settledAmount := info.settledAmount + unrecoverable);
      Ok(Effect(WithPlan(s, planId, plan').(triggers := s.triggers[planId := info']), Done, [],
                plan.totalAmount - plan'.totalAmount))
  }

  // ---------- claims ----------

  predicate ClaimTimeValid(now: u64, plan: Plan) {
    var elapsed := now - plan.createdAt;
    match plan.distribution
    case LumpSum => true
    case Monthly => elapsed >= 30 * DAY
    case Quarterly => elapsed >= 90 * DAY
    case Yearly => elapsed >= 365 * DAY
  }

  /** The first beneficiary from `i` on whose e-mail and claim code both match. */
  function FindBeneficiary(bens: seq<Beneficiary>, entry: ClaimEntry, i: nat): Result<nat, InheritanceError>
    decreases |bens| - i
  {
    if i >= |bens| then Err(BeneficiaryNotFound)
    else if bens[i].email != entry.email then FindBeneficiary(bens, entry, i + 1)
    else if !entry.codeInRange then Err(InvalidClaimCodeRange)
    else if i in entry.codeMatches then Ok(i)
    else FindBeneficiary(bens, entry, i + 1)
  }

  lemma FindBeneficiaryInBounds(bens: seq<Beneficiary>, entry: ClaimEntry, i: nat)
    ensures var r := FindBeneficiary(bens, entry, i); r.Ok? ==> r.value < |bens|
    decreases |bens| - i
  {
  }

  /** Some beneficiary with a smaller non-zero priority number has not claimed yet. */
  predicate Outranked(bens: seq<Beneficiary>, index: nat)
    requires index < |bens|
  {
    exists i :: 0 <= i < |bens| && bens[i].priority != 0 && bens[i].priority < bens[index].priority
      && !bens[i].isClaimed
  }

  /** A share of the balance, computed in u128 and cut to u64. */
  function Entitlement(total: u64, allocationBp: u32): u64 {
    total * allocationBp / FULL_ALLOCATION_BP % (U64_MAX + 1)
  }

  function WaterfallPayout(plan: Plan, index: nat): u64
    requires index < |plan.beneficiaries|
  {
    if plan.waterfallEnabled && Outranked(plan.beneficiaries, index) then 0
    else Min(Entitlement(plan.totalAmount, plan.beneficiaries[index].allocationBp), plan.totalAmount)
  }

  function WithSettlement(s: Store, planId: PlanId, index: nat, left: u64): Store {
    if left == 0 then s.(settlements := s.settlements - {(planId, index)})
    else s.(settlements := s.settlements[(planId, index) := left])
  }

  /** The plan joins the owner's list of claimed plans and the list of all of them, once. */
  function AddPlanToClaimed(claims: Claims, owner: Address, planId: PlanId): Claims {
    var owned := ClaimedPlansOf(claims, owner);
    claims.(ofOwner := if planId in owned then claims.ofOwner else claims.ofOwner[owner := owned + [planId]],
            all := if planId in claims.all then claims.all else claims.all + [planId])
  }

  function WithClaim(s: Store, planId: PlanId, owner: Address, email: Email, record: ClaimRecord): Store {
    s.(claims := AddPlanToClaimed(s.claims.(records := s.claims.records[(planId, email) := record]), owner, planId))
  }

  /** What a claim pays: the waterfall share, capped by a pending vesting settlement. */
  function PayoutAmount(s: Store, planId: PlanId, plan: Plan, index: nat): u64
    requires index < |plan.beneficiaries|
  {
    var exit := SettlementOf(s, planId, index);
    var share := WaterfallPayout(plan, index);
    if exit > 0 then Min(share, exit) else share
  }

  function PayoutGuard(s: Store, c: Context, planId: PlanId, plan: Plan, payout: u64): Guard {
    if planId in c.emergencyActive && payout > EmergencyLimit(plan) then Fail(EmergencyCooldownActive)
    else if planId !in s.triggers && payout > SaturatingSub(plan.totalAmount, plan.totalLoaned) then
      Fail(InsufficientLiquidity)
    else Need(payout != 0, NothingToClaim)
  }

  /** The plan after a payout: marked as claimed unless part of a settlement is still pending. */
  function PaidPlan(plan: Plan, index: nat, payout: u64, final: bool): Plan
    requires index < |plan.beneficiaries|
  {
    var b := plan.beneficiaries[index];
    plan.(beneficiaries := plan.beneficiaries[index := if final then b.(isClaimed := true) else b],
          totalAmount := SaturatingSub(plan.totalAmount, payout))
  }

  function RecordPayout(s: Store, c: Context, planId: PlanId, plan: Plan, email: Email, index: nat, payout: u64): Store
    requires index < |plan.beneficiaries|
  {
    var exit := SettlementOf(s, planId, index);
    var left: u64 := SaturatingSub(exit, payout);
    var final := exit == 0 || left == 0;
    var settled := if exit > 0 then WithSettlement(s, planId, index, left) else s;
    var paid := WithPlan(settled, planId, PaidPlan(plan, index, payout, final));
    if final then WithClaim(paid, planId, plan.owner, email, ClaimRecord(index, c.now)) else paid
  }

  /**
   The payout branch. `s` already carries an automatic trigger, but `plan` is the copy read before it,
   and that copy is what gets written back.
   */
  function Payout(s: Store, c: Context, planId: PlanId, plan: Plan, entry: ClaimEntry, index: nat): CallResult
    requires index < |plan.beneficiaries|
  {
    var payout := PayoutAmount(s, planId, plan, index);
    :- PayoutGuard(s, c, planId, plan, payout);
    Ok(Effect(RecordPayout(s, c, planId, plan, entry.email, index, payout), Done,
              [Payment(planId, entry.email, plan.beneficiaries[index].allocationBp, payout)], 0))
  }

  /** Claims are open once the plan is triggered, or when its distribution period has passed. */
  function ClaimWindow(s: Store, c: Context, planId: PlanId, plan: Plan): Guard {
    if planId in s.triggers then Pass
    else if c.now < plan.createdAt then Fail(Panicked)
    else Need(ClaimTimeValid(c.now, plan), ClaimNotAllowedYet)
  }

  /** The beneficiary that a claim names, found among the first ten. */
  function ClaimTarget(c: Context, planId: PlanId, plan: Plan, entry: ClaimEntry): (r: Result<nat, InheritanceError>)
    ensures r.Ok? ==> r.value < |plan.beneficiaries|
  {
    var bens := plan.beneficiaries[..Min(|plan.beneficiaries|, MAX_BENEFICIARIES)];
    var index :- FindBeneficiary(bens, entry, 0);
    FindBeneficiaryInBounds(bens, entry, 0);
    :- Need((planId, index) !in c.frozenBeneficiaries, Unauthorized);
    :- Need(!plan.waterfallEnabled || !Outranked(bens, index), ClaimNotAllowedYet);
    Ok(index)
  }

  /** The claim from the time check on: after the automatic trigger, on the plan read before it. */
  function OpenClaimCall(s: Store, c: Context, planId: PlanId, plan: Plan, entry: ClaimEntry): CallResult {
    var guard := ClaimWindow(s, c, planId, plan);
    :- guard;
    :- Need(!Recorded(s, planId, entry.email), AlreadyClaimed);
    var index :- ClaimTarget(c, planId, plan, entry);
    Payout(s, c, planId, plan, entry, index)
  }

  function ClaimCall(s: Store, c: Context, planId: PlanId, entry: ClaimEntry): CallResult {
    if c.paused then Err(Panicked)
    else
      :- Need(entry.claimer in c.kycApproved, KycNotSubmitted);
      var plan :- FindPlan(s, planId);
      :- Need(plan.isActive && planId !in c.frozen, PlanNotActive);
      :- Need(entry.attemptAllowed, Unauthorized);
      OpenClaimCall(AutoTriggered(s, c, planId), c, planId, plan, entry)
  }

  /** Storage and counters after part of a batch of claims. */
  datatype BatchProgress = BatchProgress(store: Store, payments: seq<Payment>, success: nat, fail: nat)

  function ClaimEach(start: Store, c: Context, planId: PlanId, entries: seq<ClaimEntry>, k: nat): BatchProgress
    requires k <= |entries|
  {
    if k == 0 then BatchProgress(start, [], 0, 0)
    else ClaimOne(ClaimEach(start, c, planId, entries, k - 1), c, planId, entries[k - 1])
  }

  /** An entry with a malformed code counts as two failures. */
  function ClaimOne(p: BatchProgress, c: Context, planId: PlanId, entry: ClaimEntry): BatchProgress {
    var failed := p.(fail := p.fail + 1);
    if !entry.attemptAllowed || entry.claimer !in c.kycApproved then failed
    else if Recorded(p.store, planId, entry.email) || planId !in p.store.plans then failed
    else
      match FindBeneficiary(p.store.plans[planId].beneficiaries, entry, 0)
      case Err(error) => if error == InvalidClaimCodeRange then p.(fail := p.fail + 2) else failed
      case Ok(index) =>
        FindBeneficiaryInBounds(p.store.plans[planId].beneficiaries, entry, 0);
        PayEntry(p, c, planId, entry.email, index)
  }

  /** A batch pays the plain share and records the claim, but does not mark the beneficiary. */
  function PayEntry(p: BatchProgress, c: Context, planId: PlanId, email: Email, index: nat): BatchProgress
    requires planId in p.store.plans && index < |p.store.plans[planId].beneficiaries|
  {
    var plan := p.store.plans[planId];
    var bp := plan.beneficiaries[index].allocationBp;
    var payout := Entitlement(plan.totalAmount, bp);
    if planId in c.emergencyActive && payout > EmergencyLimit(plan) then p.(fail := p.fail + 1)
    else
      var paid := WithPlan(p.store, planId, plan.(totalAmount := SaturatingSub(plan.totalAmount, payout)));
      BatchProgress(WithClaim(paid, planId, plan.owner, email, ClaimRecord(index, c.now)),
                    p.payments + [Payment(planId, email, bp, payout)], p.success + 1, p.fail)
  }

  function BatchClaimCall(s: Store, c: Context, planId: PlanId, entries: seq<ClaimEntry>): CallResult {
    if c.paused then Err(Panicked)
    else
      :- Need(|entries| <= BATCH_LIMIT, TooManyBeneficiaries);
      var plan :- FindPlan(s, planId);
      var s1 := AutoTriggered(s, c, planId);
      :- Need(plan.isActive && planId !in c.frozen, PlanNotActive);
      :- ClaimWindow(s1, c, planId, plan);
      var p := ClaimEach(s1, c, planId, entries, |entries|);
      Ok(Effect(p.store, Counts(p.success, p.fail), p.payments, 0))
  }

  // ---------- one call, and what it leaves ----------

  function Invoke(s: Store, c: Context, op: Op): CallResult {
    match op
    case Create(owner, token, planName, description, amount, distribution, inputs, lendable) =>
      CreateCall(s, c, owner, token, planName, description, amount, distribution, inputs, lendable)
    case AddBeneficiary(owner, planId, input) => AddBeneficiaryCall(s, c, owner, planId, input)
    case RemoveBeneficiary(owner, planId, index) => RemoveBeneficiaryCall(s, c, owner, planId, index)
    case BatchAdd(owner, planId, inputs) => BatchAddCall(s, owner, planId, inputs)
    case BatchRemove(owner, planId, indices) => BatchRemoveCall(s, owner, planId, indices)
    case BatchUpdate(owner, planId, allocations) => BatchUpdateCall(s, owner, planId, allocations)
    case SetPriority(owner, planId, index, priority) => SetPriorityCall(s, owner, planId, index, priority)
    case SetLendable(owner, planId, lendable) => SetLendableCall(s, owner, planId, lendable)
    case EnableWaterfall(owner, planId) => EnableWaterfallCall(s, owner, planId)
    case Deposit(caller, token, planId, amount) => DepositCall(s, c, caller, token, planId, amount)
    case Withdraw(caller, token, planId, amount) => WithdrawCall(s, c, caller, token, planId, amount)
    case Claim(planId, entry) => ClaimCall(s, c, planId, entry)
    case BatchClaim(planId, entries) => BatchClaimCall(s, c, planId, entries)
    case Deactivate(owner, planId) => DeactivateCall(s, c, owner, planId)
    case AutoTrigger(planId) => AutoTriggerCall(s, c, planId)
    case Trigger(caller, planId) => TriggerCall(s, c, caller, planId)
    case Recall(planId, amount) => RecallCall(s, c, planId, amount)
    case Liquidate(planId) => LiquidateCall(s, c, planId)
    case TransferOwnership(owner, newOwner, planId) => TransferOwnershipCall(s, c, owner, newOwner, planId)
  }

  /** The host reverts a failed call. */
  function After(s: Store, result: CallResult): Store {
    if result.Ok? then result.value.store else s
  }

  function Step(s: Store, c: Context, op: Op): Store {
    After(s, Invoke(s, c, op))
  }
}
