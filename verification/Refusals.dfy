/** Why a call is refused: every error that the nineteen entry points return names something that is really so. */
module Refusals {
  import opened MachineInts
  import opened ContractErrors
  import opened PlanTypes
  import opened PlanLedger
  import opened PlanInvariants
  import opened BeneficiaryRules
  import opened OwnerCalls
  import opened MoneyCalls
  import opened ClaimTargets
  import opened PlanCreation

  // ---------- creation ----------

  predicate SomeBlank(inputs: seq<BeneficiaryInput>) {
    exists i :: 0 <= i < |inputs| && (inputs[i].name == "" || inputs[i].email == "" || inputs[i].bankAccount == "")
  }

  ghost predicate BreaksRules(inputs: seq<BeneficiaryInput>) {
    !(NamedAndRanked(inputs) && DistinctEmails(inputs) && DistinctPriorities(inputs))
  }

  lemma OneRefused(inputs: seq<BeneficiaryInput>, k: nat, total: u32)
    requires k < |inputs| && ScanInput(inputs, k, total).Err?
    ensures var error := ScanInput(inputs, k, total).error;
            || (error == InvalidBeneficiaryData && !FitsIn(inputs[..k], inputs[k]))
            || (error == AllocationPercentageMismatch && total + inputs[k].allocationBp > U32_MAX)
  {
  }

  /** The listed inputs give this reason to refuse them. */
  ghost predicate WhyScanned(inputs: seq<BeneficiaryInput>, error: InheritanceError) {
    || (error == InvalidBeneficiaryData && BreaksRules(inputs))
    || (error == AllocationPercentageMismatch && ShareSum(inputs) > U32_MAX)
  }

  lemma {:induction false} ScanRefuses(inputs: seq<BeneficiaryInput>, k: nat)
    requires k <= |inputs|
    ensures ScanInputs(inputs, k).Err? ==> WhyScanned(inputs[..k], ScanInputs(inputs, k).error)
    decreases k
  {
    if k > 0 {
      OneMoreInput(inputs, k);
      ScanRefuses(inputs, k - 1);
      var before := ScanInputs(inputs, k - 1);
      if before.Ok? && ScanInput(inputs, k - 1, before.value).Err? {
        ScanAccepts(inputs, k - 1);
        OneRefused(inputs, k - 1, before.value);
      }
    }
  }

  lemma ValidationRefuses(inputs: seq<BeneficiaryInput>)
    ensures var g := ValidateBeneficiaries(inputs);
            g.Fail? ==>
              match g.error
              case TooManyBeneficiaries => |inputs| > 10
              case MissingRequiredField => inputs == []
              case InvalidBeneficiaryData => BreaksRules(inputs)
              case AllocationPercentageMismatch => ShareSum(inputs) != 10_000
              case _ => false
  {
    ScanRefuses(inputs, |inputs|);
    ScanAccepts(inputs, |inputs|);
    assert inputs[..|inputs|] == inputs;
  }

  lemma {:induction false} BuildRefuses(inputs: seq<BeneficiaryInput>, k: nat)
    requires k <= |inputs|
    ensures var r := BuildBeneficiaries(inputs, k);
            r.Err? ==>
              match r.error
              case InvalidBeneficiaryData => SomeBlank(inputs)
              case InvalidAllocation => exists i :: 0 <= i < |inputs| && inputs[i].allocationBp == 0
              case InvalidClaimCodeRange => exists i :: 0 <= i < |inputs| && inputs[i].claimCode > 999_999
              case _ => false
    decreases k
  {
    if k > 0 {
      BuildRefuses(inputs, k - 1);
    }
  }

  ghost predicate WhyNoPlan(s: Store, c: Context, op: Op, error: InheritanceError)
    requires op.Create?
  {
    match error
    case Panicked => c.paused || s.nextPlanId == U64_MAX
    case KycNotSubmitted => op.owner !in c.kycApproved
    case AdminNotSet => c.admin.None?
    case InvalidTotalAmount => op.amount == 0
    case MissingRequiredField => op.planName == "" || op.inputs == []
    case DescriptionTooLong => |op.description| > 500
    case InsufficientBalance => BalanceOf(s, op.token, op.owner) < op.amount
    case TooManyBeneficiaries => |op.inputs| > 10
    case InvalidBeneficiaryData => BreaksRules(op.inputs) || SomeBlank(op.inputs)
    case AllocationPercentageMismatch => ShareSum(op.inputs) != 10_000
    case InvalidAllocation => exists i :: 0 <= i < |op.inputs| && op.inputs[i].allocationBp == 0
    case InvalidClaimCodeRange => exists i :: 0 <= i < |op.inputs| && op.inputs[i].claimCode > 999_999
    case _ => false
  }

  lemma RegistrationRefuses(s: Store, c: Context, op: Op, r: CallResult, net: u64)
    requires op.Create? && r == RegisterCall(s, c, op.owner, net, op.distribution, op.inputs, op.lendable) && r.Err?
    ensures WhyNoPlan(s, c, op, r.error) && r.error != InsufficientBalance
  {
    ValidationRefuses(op.inputs);
    BuildRefuses(op.inputs, |op.inputs|);
  }

  lemma GuardRefuses(s: Store, c: Context, op: Op, fee: u64, g: Guard)
    requires op.Create? && (fee < op.amount <==> op.amount > 0) && g.Fail?
    requires g == CreateGuard(s, c, op.owner, op.token, op.planName, op.description, op.amount, fee)
    ensures WhyNoPlan(s, c, op, g.error) && CreateAt(s, c, op, fee) == Err(g.error)
  {
  }

  lemma ChargedRefuses(s: Store, c: Context, op: Op, fee: u64)
    requires op.Create? && (fee < op.amount <==> op.amount > 0) && CreateAt(s, c, op, fee).Err?
    ensures WhyNoPlan(s, c, op, CreateAt(s, c, op, fee).error)
  {
    var g := CreateGuard(s, c, op.owner, op.token, op.planName, op.description, op.amount, fee);
    if g.Fail? {
      GuardRefuses(s, c, op, fee, g);
    } else {
      var funded := Funded(s, op.token, op.owner, c.admin.value, fee, op.amount - fee);
      FundedTouchesBalances(s, op.token, op.owner, c.admin.value, fee, op.amount - fee);
      RegistrationRefuses(funded, c, op, CreateAt(s, c, op, fee), op.amount - fee);
    }
  }

  lemma CreationRefuses(s: Store, c: Context, op: Op)
    requires op.Create?
    ensures Invoke(s, c, op).Err? ==> WhyNoPlan(s, c, op, Invoke(s, c, op).error)
  {
    if Invoke(s, c, op).Err? {
      FeeBelowAmount(op.amount);
      var fee := CreateIsCharged(s, c, op);
      ChargedRefuses(s, c, op, fee);
    }
  }

  // ---------- the owner's other calls ----------

  /** There is no such plan, or it is somebody else's. */
  predicate NotTheirs(s: Store, user: Address, planId: PlanId, error: InheritanceError) {
    if planId in s.plans then error == Unauthorized && s.plans[planId].owner != user else error == PlanNotFound
  }

  lemma {:induction false} AdditionsTrap(plan: Plan, inputs: seq<BeneficiaryInput>, k: nat)
    requires k <= |inputs| && plan.totalAllocationBp <= 10_000
    ensures var r := AddInputs(plan, inputs, k);
            if r.Ok? then r.value.plan.totalAllocationBp <= 10_000
            else r.error == Panicked && exists i :: 0 <= i < |inputs| && inputs[i].allocationBp + 10_000 > U32_MAX
    decreases k
  {
    if k > 0 {
      AdditionsTrap(plan, inputs, k - 1);
      assert inputs[k - 1].allocationBp + 10_000 > U32_MAX || AddInputs(plan, inputs, k).Ok?
             || AddInputs(plan, inputs, k - 1).Err?;
    }
  }

  predicate WhyNotAdded(s: Store, c: Context, owner: Address, planId: PlanId, input: BeneficiaryInput,
                        error: InheritanceError)
  {
    if error == Panicked && c.paused then true
    else if !Owns(s, owner, planId) then NotTheirs(s, owner, planId, error)
    else
      var plan := s.plans[planId];
      match error
      case Panicked => plan.totalAllocationBp + input.allocationBp > U32_MAX
      case TooManyBeneficiaries => |plan.beneficiaries| >= 10
      case InvalidAllocation => input.allocationBp == 0
      case AllocationExceedsLimit => plan.totalAllocationBp + input.allocationBp > 10_000
      case InvalidBeneficiaryData => input.name == "" || input.email == "" || input.bankAccount == ""
      case InvalidClaimCodeRange => input.claimCode > 999_999
      case _ => false
  }

  lemma AdditionRefuses(s: Store, c: Context, owner: Address, planId: PlanId, input: BeneficiaryInput)
    ensures var r := AddBeneficiaryCall(s, c, owner, planId, input);
            r.Err? ==> WhyNotAdded(s, c, owner, planId, input, r.error)
  {
  }

  predicate WhyNotRemoved(s: Store, c: Context, owner: Address, planId: PlanId, index: u32, error: InheritanceError) {
    if error == Panicked then c.paused
    else if !Owns(s, owner, planId) then NotTheirs(s, owner, planId, error)
    else error == InvalidBeneficiaryIndex && index >= |s.plans[planId].beneficiaries|
  }

  lemma RemovalRefuses(s: Store, c: Context, owner: Address, planId: PlanId, index: u32)
    requires Valid(s)
    ensures var r := RemoveBeneficiaryCall(s, c, owner, planId, index);
            r.Err? ==> WhyNotRemoved(s, c, owner, planId, index, r.error)
  {
    RemovalEffect(s, c, owner, planId, index);
  }

  predicate WhyNotAllAdded(s: Store, owner: Address, planId: PlanId, inputs: seq<BeneficiaryInput>,
                           error: InheritanceError)
  {
    if error == TooManyBeneficiaries then |inputs| > 20
    else if !Owns(s, owner, planId) then NotTheirs(s, owner, planId, error)
    else error == Panicked && exists i :: 0 <= i < |inputs| && inputs[i].allocationBp + 10_000 > U32_MAX
  }

  lemma AdditionsRefuse(s: Store, owner: Address, planId: PlanId, inputs: seq<BeneficiaryInput>)
    requires Valid(s)
    ensures var r := BatchAddCall(s, owner, planId, inputs);
            r.Err? ==> WhyNotAllAdded(s, owner, planId, inputs, r.error)
  {
    if |inputs| <= 20 && Owns(s, owner, planId) {
      assert AllocationOk(s.plans[planId]);
      AdditionsTrap(s.plans[planId], inputs, |inputs|);
      BatchAddIs(s, owner, planId, inputs, AddInputs(s.plans[planId], inputs, |inputs|));
    }
  }

  predicate WhyNotAllRemoved(s: Store, owner: Address, planId: PlanId, indices: seq<u32>, error: InheritanceError) {
    if error == TooManyBeneficiaries then |indices| > 20 else NotTheirs(s, owner, planId, error)
  }

  lemma RemovalsRefuse(s: Store, owner: Address, planId: PlanId, indices: seq<u32>)
    ensures var r := BatchRemoveCall(s, owner, planId, indices);
            r.Err? ==> WhyNotAllRemoved(s, owner, planId, indices, r.error)
  {
  }

  predicate WhyNotReshared(s: Store, owner: Address, planId: PlanId, allocations: seq<u32>, error: InheritanceError) {
    if error == TooManyBeneficiaries then |allocations| > 20
    else if !Owns(s, owner, planId) then NotTheirs(s, owner, planId, error)
    else
      match error
      case Panicked => Sum(allocations) > U32_MAX
      case InvalidBeneficiaryData => |allocations| != |s.plans[planId].beneficiaries|
      case InvalidAllocation => 0 in allocations
      case AllocationPercentageMismatch => Sum(allocations) != 10_000
      case _ => false
  }

  lemma ResharingRefuses(s: Store, owner: Address, planId: PlanId, allocations: seq<u32>)
    ensures var r := BatchUpdateCall(s, owner, planId, allocations);
            r.Err? ==> WhyNotReshared(s, owner, planId, allocations, r.error)
  {
  }

  predicate WhyNotRanked(s: Store, owner: Address, planId: PlanId, index: u32, priority: u32, error: InheritanceError) {
    if !Owns(s, owner, planId) then NotTheirs(s, owner, planId, error)
    else
      var bens := s.plans[planId].beneficiaries;
      match error
      case InvalidBeneficiaryIndex => index >= |bens|
      case InvalidBeneficiaryData =>
        priority == 0 || exists k :: 0 <= k < |bens| && k != index && bens[k].priority == priority
      case _ => false
  }

  lemma RankingRefuses(s: Store, owner: Address, planId: PlanId, index: u32, priority: u32)
    ensures var r := SetPriorityCall(s, owner, planId, index, priority);
            r.Err? ==> WhyNotRanked(s, owner, planId, index, priority, r.error)
  {
  }

  lemma SettingsRefuse(s: Store, owner: Address, planId: PlanId, lendable: bool)
    ensures var r := SetLendableCall(s, owner, planId, lendable); r.Err? ==> NotTheirs(s, owner, planId, r.error)
    ensures var r := EnableWaterfallCall(s, owner, planId); r.Err? ==> NotTheirs(s, owner, planId, r.error)
  {
  }

  predicate WhyNotDeactivated(s: Store, c: Context, owner: Address, planId: PlanId, error: InheritanceError) {
    if error == Panicked then c.paused
    else if !Owns(s, owner, planId) then NotTheirs(s, owner, planId, error)
    else error == PlanAlreadyDeactivated && !s.plans[planId].isActive
  }

  predicate WhyNotHandedOver(s: Store, c: Context, owner: Address, planId: PlanId, error: InheritanceError) {
    if !Owns(s, owner, planId) then NotTheirs(s, owner, planId, error)
    else error == PlanNotActive && (planId in s.triggers || planId in c.frozen)
  }

  lemma StandingRefuses(s: Store, c: Context, owner: Address, newOwner: Address, planId: PlanId)
    ensures var r := DeactivateCall(s, c, owner, planId); r.Err? ==> WhyNotDeactivated(s, c, owner, planId, r.error)
    ensures var r := TransferOwnershipCall(s, c, owner, newOwner, planId);
            r.Err? ==> WhyNotHandedOver(s, c, owner, planId, r.error)
  {
  }

  // ---------- money, triggers and loans ----------

  predicate WhyNotDeposited(s: Store, c: Context, caller: Address, token: Token, planId: PlanId, amount: u64,
                            error: InheritanceError)
  {
    if error == Panicked && c.paused then true
    else if error == InvalidTotalAmount then amount == 0
    else if !Owns(s, caller, planId) then NotTheirs(s, caller, planId, error)
    else
      match error
      case Panicked => s.plans[planId].totalAmount + amount > U64_MAX
      case PlanNotActive => !s.plans[planId].isActive || planId in c.frozen
      case InsufficientBalance => BalanceOf(s, token, caller) < amount
      case _ => false
  }

  lemma DepositRefuses(s: Store, c: Context, caller: Address, token: Token, planId: PlanId, amount: u64)
    ensures var r := DepositCall(s, c, caller, token, planId, amount);
            r.Err? ==> WhyNotDeposited(s, c, caller, token, planId, amount, r.error)
  {
  }

  predicate WhyNotWithdrawn(s: Store, c: Context, caller: Address, token: Token, planId: PlanId, amount: u64,
                            error: InheritanceError)
  {
    if error == Panicked then c.paused
    else if error == InvalidTotalAmount then amount == 0
    else if !Owns(s, caller, planId) then NotTheirs(s, caller, planId, error)
    else
      match error
      case PlanNotActive => planId in c.frozen
      case EmergencyCooldownActive => planId in c.emergencyActive && amount * 10 > s.plans[planId].totalAmount
      case InsufficientLiquidity => amount + s.plans[planId].totalLoaned > s.plans[planId].totalAmount
      case FeeTransferFailed => BalanceOf(s, token, Contract) < amount
      case _ => false
  }

  lemma WithdrawalRefuses(s: Store, c: Context, caller: Address, token: Token, planId: PlanId, amount: u64)
    ensures var r := WithdrawCall(s, c, caller, token, planId, amount);
            r.Err? ==> WhyNotWithdrawn(s, c, caller, token, planId, amount, r.error)
  {
    if planId in s.plans {
      EmergencyIff(s.plans[planId], amount);
    }
  }

  predicate WhyNotTriggered(s: Store, c: Context, caller: Address, planId: PlanId, error: InheritanceError) {
    match error
    case Panicked => c.paused
    case PlanNotFound => planId !in s.plans
    case Unauthorized => !HasTriggerAuthority(s, c, caller, planId)
    case PlanNotActive => planId in s.plans && (!s.plans[planId].isActive || planId in c.frozen)
    case InheritanceAlreadyTriggered => planId in s.triggers
    case _ => false
  }

  lemma TriggerRefuses(s: Store, c: Context, caller: Address, planId: PlanId)
    ensures var r := TriggerCall(s, c, caller, planId); r.Err? ==> WhyNotTriggered(s, c, caller, planId, r.error)
    ensures var r := AutoTriggerCall(s, c, planId);
            r.Err? ==> if planId in s.plans then r.error == PlanNotActive && !s.plans[planId].isActive
                       else r.error == PlanNotFound
  {
  }

  predicate WhyNotSettled(s: Store, c: Context, planId: PlanId, error: InheritanceError) {
    match error
    case NotAdmin => !c.callerIsAdmin
    case PlanNotFound => planId !in s.plans
    case InheritanceNotTriggered => planId !in s.triggers
    case NoOutstandingLoans => planId in s.plans && s.plans[planId].totalLoaned == 0
    case _ => false
  }

  predicate WhyNotRecalled(s: Store, c: Context, planId: PlanId, amount: u64, error: InheritanceError) {
    if error == LoanRecallFailed then planId in s.plans && !(0 < amount <= s.plans[planId].totalLoaned)
    else WhyNotSettled(s, c, planId, error)
  }

  lemma LoansRefuse(s: Store, c: Context, planId: PlanId)
    ensures var r := LoanedPlan(s, c, planId); r.Err? ==> WhyNotSettled(s, c, planId, r.error)
    ensures var r := LoanedPlan(s, c, planId);
            r.Ok? ==> planId in s.plans && planId in s.triggers && r.value == (s.plans[planId], s.triggers[planId])
  {
  }

  lemma NoRoomToTrap(s: Store, planId: PlanId)
    requires Valid(s) && planId in s.plans && planId in s.triggers
    ensures s.triggers[planId].recalledAmount + s.plans[planId].totalLoaned <= U64_MAX
    ensures s.triggers[planId].settledAmount + s.plans[planId].totalLoaned <= U64_MAX
  {
    assert LoansAccounted(s.plans[planId], s.triggers[planId]);
  }

  lemma RecallRefuses(s: Store, c: Context, planId: PlanId, amount: u64)
    requires Valid(s)
    ensures var r := RecallCall(s, c, planId, amount); r.Err? ==> WhyNotRecalled(s, c, planId, amount, r.error)
  {
    LoansRefuse(s, c, planId);
    if planId in s.plans && planId in s.triggers {
      NoRoomToTrap(s, planId);
    }
  }

  lemma LiquidationRefuses(s: Store, c: Context, planId: PlanId)
    requires Valid(s)
    ensures var r := LiquidateCall(s, c, planId); r.Err? ==> WhyNotSettled(s, c, planId, r.error)
  {
    LoansRefuse(s, c, planId);
    if planId in s.plans && planId in s.triggers {
      NoRoomToTrap(s, planId);
    }
  }

  // ---------- claims ----------

  /** Why no claim of the plan is open to anybody. */
  predicate WhyNotOpen(s: Store, c: Context, planId: PlanId, error: InheritanceError) {
    match error
    case Panicked => c.paused || (planId in s.plans && c.now < s.plans[planId].createdAt)
    case PlanNotFound => planId !in s.plans
    case PlanNotActive => planId in s.plans && (!s.plans[planId].isActive || planId in c.frozen)
    case ClaimNotAllowedYet => planId in s.plans && !IsOpen(s, c, planId)
    case _ => false
  }

  lemma WindowRefuses(s: Store, c: Context, planId: PlanId)
    requires planId in s.plans
    ensures var g := ClaimWindow(AutoTriggered(s, c, planId), c, planId, s.plans[planId]);
            g.Fail? ==> WhyNotOpen(s, c, planId, g.error)
  {
    OpenIff(s, c, planId);
  }

  lemma WindowStops(s: Store, c: Context, planId: PlanId, entries: seq<ClaimEntry>)
    requires planId in s.plans
    ensures var plan := s.plans[planId];
            var g := ClaimWindow(AutoTriggered(s, c, planId), c, planId, plan);
            BatchClaimCall(s, c, planId, entries).Err? && !c.paused && |entries| <= 20
            && plan.isActive && planId !in c.frozen ==>
              g.Fail? && BatchClaimCall(s, c, planId, entries) == Err(g.error)
  {
  }

  lemma BatchRefuses(s: Store, c: Context, planId: PlanId, entries: seq<ClaimEntry>)
    ensures var r := BatchClaimCall(s, c, planId, entries);
            r.Err? ==> WhyNotOpen(s, c, planId, r.error) || (r.error == TooManyBeneficiaries && |entries| > 20)
  {
    if planId in s.plans {
      WindowRefuses(s, c, planId);
      WindowStops(s, c, planId, entries);
    }
  }

  /** Why nothing can be paid to beneficiary `i`, whom the claim names first. */
  ghost predicate WhyNotTo(s: Store, c: Context, planId: PlanId, entry: ClaimEntry, i: nat, error: InheritanceError)
    requires planId in s.plans
  {
    var plan := s.plans[planId];
    && FirstNamed(plan.beneficiaries, entry, i)
    && var worth := Worth(s, planId, i);
       match error
       case Unauthorized => (planId, i) in c.frozenBeneficiaries
       case ClaimNotAllowedYet => !InTurn(plan, i)
       case EmergencyCooldownActive => planId in c.emergencyActive && worth * 10 > plan.totalAmount
       case InsufficientLiquidity => !TriggeredBy(s, c, planId) && worth + plan.totalLoaned > plan.totalAmount
       case NothingToClaim => worth == 0
       case _ => false
  }

  /** Why the claim finds nobody. */
  ghost predicate WhyNobody(plan: Plan, entry: ClaimEntry, error: InheritanceError) {
    match error
    case BeneficiaryNotFound => forall i: nat :: !FirstNamed(plan.beneficiaries, entry, i)
    case InvalidClaimCodeRange => !entry.codeInRange
    case _ => false
  }

  lemma PayoutRefuses(s: Store, s1: Store, c: Context, planId: PlanId, entry: ClaimEntry, i: nat)
    requires planId in s.plans && AllocationOk(s.plans[planId]) && FirstNamed(s.plans[planId].beneficiaries, entry, i)
    requires InTurn(s.plans[planId], i) && s1.settlements == s.settlements
    requires planId in s1.triggers <==> TriggeredBy(s, c, planId)
    ensures var r := Payout(s1, c, planId, s.plans[planId], entry, i);
            r.Err? ==> WhyNotTo(s, c, planId, entry, i, r.error)
  {
    PayoutIff(s, s1, c, planId, entry, i);
    EmergencyIff(s.plans[planId], Worth(s, planId, i));
  }

  lemma NobodyFound(plan: Plan, entry: ClaimEntry)
    ensures var r := FindBeneficiary(plan.beneficiaries, entry, 0);
            if r.Err? then WhyNobody(plan, entry, r.error) else FirstNamed(plan.beneficiaries, entry, r.value)
  {
    FoundFrom(plan.beneficiaries, entry, 0);
    forall i: nat | FirstNamed(plan.beneficiaries, entry, i)
      ensures FindBeneficiary(plan.beneficiaries, entry, 0) == Ok(i)
    {
      FoundIff(plan.beneficiaries, entry, i);
    }
  }

  lemma TargetRefuses(s: Store, c: Context, planId: PlanId, entry: ClaimEntry, found: Result<nat, InheritanceError>)
    requires planId in s.plans && |s.plans[planId].beneficiaries| <= MAX_BENEFICIARIES
    requires found == FindBeneficiary(s.plans[planId].beneficiaries, entry, 0)
    requires found.Ok? ==> FirstNamed(s.plans[planId].beneficiaries, entry, found.value)
    ensures var r := ClaimTarget(c, planId, s.plans[planId], entry);
            if found.Err? then r == found
            else if r.Err? then WhyNotTo(s, c, planId, entry, found.value, r.error)
            else r == found && InTurn(s.plans[planId], found.value)
  {
    var bens := s.plans[planId].beneficiaries;
    assert bens[..|bens|] == bens;
  }

  ghost predicate ClaimRefusedFor(s: Store, c: Context, planId: PlanId, entry: ClaimEntry, error: InheritanceError) {
    || WhyNotOpen(s, c, planId, error)
    || (error == KycNotSubmitted && entry.claimer !in c.kycApproved)
    || (error == Unauthorized && !entry.attemptAllowed)
    || (error == AlreadyClaimed && Recorded(s, planId, entry.email))
    || (planId in s.plans && WhyNobody(s.plans[planId], entry, error))
    || (planId in s.plans && exists i: nat :: WhyNotTo(s, c, planId, entry, i, error))
  }

  /** From the search on. */
  lemma NamedClaimRefuses(s: Store, c: Context, planId: PlanId, entry: ClaimEntry, r: CallResult)
    requires Valid(s) && planId in s.plans && r.Err?
    requires var plan, s1 := s.plans[planId], AutoTriggered(s, c, planId);
             r == match ClaimTarget(c, planId, plan, entry)
                  case Err(error) => Err(error)
                  case Ok(index) => Payout(s1, c, planId, plan, entry, index)
    ensures ClaimRefusedFor(s, c, planId, entry, r.error)
  {
    var found := FindBeneficiary(s.plans[planId].beneficiaries, entry, 0);
    NobodyFound(s.plans[planId], entry);
    TargetRefuses(s, c, planId, entry, found);
    TriggeredAfterIff(s, c, planId);
    if ClaimTarget(c, planId, s.plans[planId], entry).Ok? {
      PayoutRefuses(s, AutoTriggered(s, c, planId), c, planId, entry, found.value);
    }
  }

  lemma OpenClaimRefuses(s: Store, c: Context, planId: PlanId, entry: ClaimEntry)
    requires Valid(s) && planId in s.plans
    ensures var r := OpenClaimCall(AutoTriggered(s, c, planId), c, planId, s.plans[planId], entry);
            r.Err? ==> ClaimRefusedFor(s, c, planId, entry, r.error)
  {
    var s1 := AutoTriggered(s, c, planId);
    WindowRefuses(s, c, planId);
    var r := OpenClaimCall(s1, c, planId, s.plans[planId], entry);
    if ClaimWindow(s1, c, planId, s.plans[planId]) == Pass && !Recorded(s1, planId, entry.email) && r.Err? {
      NamedClaimRefuses(s, c, planId, entry, r);
    }
  }

  lemma ClaimRefuses(s: Store, c: Context, planId: PlanId, entry: ClaimEntry)
    requires Valid(s)
    ensures var r := ClaimCall(s, c, planId, entry); r.Err? ==> ClaimRefusedFor(s, c, planId, entry, r.error)
  {
    if planId in s.plans {
      OpenClaimRefuses(s, c, planId, entry);
    }
  }

  // ---------- all calls ----------

  ghost predicate OwnerRefusedFor(s: Store, c: Context, op: Op, error: InheritanceError)
    requires IsOwnerCall(op)
  {
    match op
    case AddBeneficiary(owner, planId, input) => WhyNotAdded(s, c, owner, planId, input, error)
    case RemoveBeneficiary(owner, planId, index) => WhyNotRemoved(s, c, owner, planId, index, error)
    case BatchAdd(owner, planId, inputs) => WhyNotAllAdded(s, owner, planId, inputs, error)
    case BatchRemove(owner, planId, indices) => WhyNotAllRemoved(s, owner, planId, indices, error)
    case BatchUpdate(owner, planId, allocations) => WhyNotReshared(s, owner, planId, allocations, error)
    case SetPriority(owner, planId, index, priority) => WhyNotRanked(s, owner, planId, index, priority, error)
    case SetLendable(owner, planId, _) => NotTheirs(s, owner, planId, error)
    case EnableWaterfall(owner, planId) => NotTheirs(s, owner, planId, error)
    case Deposit(caller, token, planId, amount) => WhyNotDeposited(s, c, caller, token, planId, amount, error)
    case Withdraw(caller, token, planId, amount) => WhyNotWithdrawn(s, c, caller, token, planId, amount, error)
    case Deactivate(owner, planId) => WhyNotDeactivated(s, c, owner, planId, error)
    case TransferOwnership(owner, _, planId) => WhyNotHandedOver(s, c, owner, planId, error)
  }

  /** Calls that are nobody's in particular, or the admin's. */
  ghost predicate OtherRefusedFor(s: Store, c: Context, op: Op, error: InheritanceError)
    requires !op.Create? && !IsOwnerCall(op)
  {
    match op
    case Claim(planId, entry) => ClaimRefusedFor(s, c, planId, entry, error)
    case BatchClaim(planId, entries) =>
      WhyNotOpen(s, c, planId, error) || (error == TooManyBeneficiaries && |entries| > 20)
    case AutoTrigger(planId) =>
      if planId in s.plans then error == PlanNotActive && !s.plans[planId].isActive else error == PlanNotFound
    case Trigger(caller, planId) => WhyNotTriggered(s, c, caller, planId, error)
    case Recall(planId, amount) => WhyNotRecalled(s, c, planId, amount, error)
    case Liquidate(planId) => WhyNotSettled(s, c, planId, error)
  }

  ghost predicate RefusedFor(s: Store, c: Context, op: Op, error: InheritanceError) {
    if op.Create? then WhyNoPlan(s, c, op, error)
    else if IsOwnerCall(op) then OwnerRefusedFor(s, c, op, error)
    else OtherRefusedFor(s, c, op, error)
  }

  /** An owner's call fails, if it does, for a reason that holds. */
  ghost predicate OwnerTruthful(s: Store, c: Context, op: Op, r: CallResult)
    requires IsOwnerCall(op)
  {
    r.Err? ==> OwnerRefusedFor(s, c, op, r.error)
  }

  ghost predicate OtherTruthful(s: Store, c: Context, op: Op, r: CallResult)
    requires !op.Create? && !IsOwnerCall(op)
  {
    r.Err? ==> OtherRefusedFor(s, c, op, r.error)
  }

  lemma ListEditRefuses(s: Store, c: Context, op: Op)
    requires Valid(s) && (op.AddBeneficiary? || op.RemoveBeneficiary? || op.BatchAdd? || op.BatchRemove?)
    ensures OwnerTruthful(s, c, op, Invoke(s, c, op))
  {
    match op {
      case AddBeneficiary(owner, planId, input) => AdditionRefuses(s, c, owner, planId, input);
      case RemoveBeneficiary(owner, planId, index) => RemovalRefuses(s, c, owner, planId, index);
      case BatchAdd(owner, planId, inputs) => AdditionsRefuse(s, owner, planId, inputs);
      case BatchRemove(owner, planId, indices) => RemovalsRefuse(s, owner, planId, indices);
    }
  }

  lemma TermEditRefuses(s: Store, c: Context, op: Op)
    requires op.BatchUpdate? || op.SetPriority? || op.SetLendable? || op.EnableWaterfall?
    ensures OwnerTruthful(s, c, op, Invoke(s, c, op))
  {
    match op {
      case BatchUpdate(owner, planId, allocations) => ResharingRefuses(s, owner, planId, allocations);
      case SetPriority(owner, planId, index, priority) => RankingRefuses(s, owner, planId, index, priority);
      case SetLendable(owner, planId, lendable) => SettingsRefuse(s, owner, planId, lendable);
      case EnableWaterfall(owner, planId) => SettingsRefuse(s, owner, planId, false);
    }
  }

  lemma PlanCallRefuses(s: Store, c: Context, op: Op)
    requires op.Deposit? || op.Withdraw? || op.Deactivate? || op.TransferOwnership?
    ensures OwnerTruthful(s, c, op, Invoke(s, c, op))
  {
    match op {
      case Deposit(caller, token, planId, amount) => DepositRefuses(s, c, caller, token, planId, amount);
      case Withdraw(caller, token, planId, amount) => WithdrawalRefuses(s, c, caller, token, planId, amount);
      case Deactivate(owner, planId) => StandingRefuses(s, c, owner, owner, planId);
      case TransferOwnership(owner, newOwner, planId) => StandingRefuses(s, c, owner, newOwner, planId);
    }
  }

  lemma OwnerCallRefuses(s: Store, c: Context, op: Op)
    requires Valid(s) && IsOwnerCall(op)
    ensures OwnerTruthful(s, c, op, Invoke(s, c, op))
  {
    if op.AddBeneficiary? || op.RemoveBeneficiary? || op.BatchAdd? || op.BatchRemove? {
      ListEditRefuses(s, c, op);
    } else if EditsOnly(op) {
      TermEditRefuses(s, c, op);
    } else {
      PlanCallRefuses(s, c, op);
    }
  }

  lemma ClaimingCallRefuses(s: Store, c: Context, op: Op)
    requires Valid(s) && (op.Claim? || op.BatchClaim?)
    ensures OtherTruthful(s, c, op, Invoke(s, c, op))
  {
    match op {
      case Claim(planId, entry) => ClaimRefuses(s, c, planId, entry);
      case BatchClaim(planId, entries) => BatchRefuses(s, c, planId, entries);
    }
  }

  lemma TriggerCallRefuses(s: Store, c: Context, op: Op)
    requires Valid(s) && (op.AutoTrigger? || op.Trigger? || op.Recall? || op.Liquidate?)
    ensures OtherTruthful(s, c, op, Invoke(s, c, op))
  {
    match op {
      case AutoTrigger(planId) => TriggerRefuses(s, c, Contract, planId);
      case Trigger(caller, planId) => TriggerRefuses(s, c, caller, planId);
      case Recall(planId, amount) => RecallRefuses(s, c, planId, amount);
      case Liquidate(planId) => LiquidationRefuses(s, c, planId);
    }
  }

  lemma OtherCallRefuses(s: Store, c: Context, op: Op)
    requires Valid(s) && !op.Create? && !IsOwnerCall(op)
    ensures OtherTruthful(s, c, op, Invoke(s, c, op))
  {
    if op.Claim? || op.BatchClaim? {
      ClaimingCallRefuses(s, c, op);
    } else {
      TriggerCallRefuses(s, c, op);
    }
  }

  /** Whatever the call: the error of a refusal names a condition on storage, context and call that really holds. */
  lemma RefusalsAreTruthful(s: Store, c: Context, op: Op)
    requires Valid(s) && Invoke(s, c, op).Err?
    ensures RefusedFor(s, c, op, Invoke(s, c, op).error)
  {
    if op.Create? {
      CreationRefuses(s, c, op);
    } else if IsOwnerCall(op) {
      OwnerCallRefuses(s, c, op);
    } else {
      OtherCallRefuses(s, c, op);
    }
  }
}
