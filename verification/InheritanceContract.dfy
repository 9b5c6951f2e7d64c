/**
 The contract as it runs: entry points that read storage, change local copies in loops and write them
 back (contracts/inheritance-contract/src/gas_optimization.rs). Each is proved against the storage
 function of the same call.
 */
module InheritanceContract {
  import opened MachineInts
  import opened ContractErrors
  import opened PlanTypes
  import opened BeneficiaryList
  import opened PlanLedger
  import PlanInvariants

  type Outcome = Result<Reply, InheritanceError>

  /** What the caller of an entry point sees of its result. */
  function Seen(result: CallResult): Outcome {
    if result.Ok? then Ok(result.value.reply) else Err(result.error)
  }

  // ---------- loops over vectors ----------

  method CheckBeneficiaries(inputs: seq<BeneficiaryInput>) returns (guard: Guard)
    ensures guard == ValidateBeneficiaries(inputs)
  {
    if |inputs| > MAX_BENEFICIARIES {
      return Fail(TooManyBeneficiaries);
    }
    if inputs == [] {
      return Fail(MissingRequiredField);
    }
    var total: u32, priorities: seq<u32>, emails: seq<Email> := 0, [], [];
    for k := 0 to |inputs|
      invariant ScanInputs(inputs, k) == Ok(total)
      invariant |emails| == |priorities| == k
      invariant forall i :: 0 <= i < k ==> emails[i] == inputs[i].email && priorities[i] == inputs[i].priority
    {
      var input := inputs[k];
      assert ScanInputs(inputs, k + 1) == ScanInput(inputs, k, total);
      if input.name == "" || input.email in emails {
        assert ScanInput(inputs, k, total) == Err(InvalidBeneficiaryData);
        ScanStops(inputs, k + 1, |inputs|);
        return Fail(InvalidBeneficiaryData);
      }
      emails := emails + [input.email];
      if total + input.allocationBp > U32_MAX {
        ScanStops(inputs, k + 1, |inputs|);
        return Fail(AllocationPercentageMismatch);
      }
      if input.priority == 0 || input.priority in priorities {
        ScanStops(inputs, k + 1, |inputs|);
        return Fail(InvalidBeneficiaryData);
      }
      total := total + input.allocationBp;
      priorities := priorities + [input.priority];
    }
    guard := Need(total == FULL_ALLOCATION_BP, AllocationPercentageMismatch);
  }

  lemma {:induction false} ScanStops(inputs: seq<BeneficiaryInput>, k: nat, n: nat)
    requires k <= n <= |inputs| && ScanInputs(inputs, k).Err?
    ensures ScanInputs(inputs, n) == ScanInputs(inputs, k)
    decreases n
  {
    if k < n {
      ScanStops(inputs, k, n - 1);
    }
  }

  method MakeBeneficiaries(inputs: seq<BeneficiaryInput>) returns (r: Result<seq<Beneficiary>, InheritanceError>)
    ensures r == BuildBeneficiaries(inputs, |inputs|)
  {
    var built: seq<Beneficiary> := [];
    for k := 0 to |inputs|
      invariant BuildBeneficiaries(inputs, k) == Ok(built)
    {
      var b := CreateBeneficiary(inputs[k]);
      if b.Err? {
        BuildStops(inputs, k + 1, |inputs|);
        return Err(b.error);
      }
      built := built + [b.value];
    }
    r := Ok(built);
  }

  lemma {:induction false} BuildStops(inputs: seq<BeneficiaryInput>, k: nat, n: nat)
    requires k <= n <= |inputs| && BuildBeneficiaries(inputs, k).Err?
    ensures BuildBeneficiaries(inputs, n) == BuildBeneficiaries(inputs, k)
    decreases n
  {
    if k < n {
      BuildStops(inputs, k, n - 1);
    }
  }

  method AddAll(plan: Plan, inputs: seq<BeneficiaryInput>) returns (r: Result<BatchAddition, InheritanceError>)
    ensures r == AddInputs(plan, inputs, |inputs|)
  {
    var current, success: nat, fail: nat := plan, 0, 0;
    for k := 0 to |inputs|
      invariant AddInputs(plan, inputs, k) == Ok(BatchAddition(current, success, fail))
    {
      var input := inputs[k];
      assert AddInputs(plan, inputs, k + 1) == AddInput(BatchAddition(current, success, fail), input);
      if |current.beneficiaries| >= MAX_BENEFICIARIES || input.allocationBp == 0 {
        fail := fail + 1;
        continue;
      }
      var total := current.totalAllocationBp + input.allocationBp;
      if total > U32_MAX {
        AddStops(plan, inputs, k + 1, |inputs|);
        return Err(Panicked);
      }
      if total > FULL_ALLOCATION_BP {
        fail := fail + 1;
        continue;
      }
      match CreateBeneficiary(input) {
        case Ok(b) =>
          current := current.(totalAllocationBp := total, beneficiaries := current.beneficiaries + [b]);
          success := success + 1;
        case Err(_) =>
          fail := fail + 1;
      }
    }
    r := Ok(BatchAddition(current, success, fail));
  }

  lemma {:induction false} AddStops(plan: Plan, inputs: seq<BeneficiaryInput>, k: nat, n: nat)
    requires k <= n <= |inputs| && AddInputs(plan, inputs, k).Err?
    ensures AddInputs(plan, inputs, n) == AddInputs(plan, inputs, k)
    decreases n
  {
    if k < n {
      AddStops(plan, inputs, k, n - 1);
    }
  }

  // ---------- batch removal ----------

  ghost predicate Distinct(xs: seq<nat>) {
    forall i, j :: 0 <= i < j < |xs| ==> xs[i] != xs[j]
  }

  /** The valid indices, each kept once, in the order of their first mention. */
  method DistinctValid(indices: seq<u32>, n: nat) returns (found: seq<nat>)
    ensures Distinct(found)
    ensures forall x :: x in found <==> 0 <= x < n && x in indices
  {
    found := [];
    for k := 0 to |indices|
      invariant Distinct(found)
      invariant forall x :: x in found <==> 0 <= x < n && x in indices[..k]
    {
      var idx: nat := indices[k];
      assert indices[..k + 1] == indices[..k] + [indices[k]];
      if idx < n {
        var already := false;
        for i := 0 to |found|
          invariant !already
          invariant idx !in found[..i]
        {
          assert found[..i + 1] == found[..i] + [found[i]];
          if found[i] == idx {
            already := true;
            break;
          }
        }
        assert !already ==> found == found[..|found|];
        if !already {
          found := found + [idx];
        }
      }
    }
    assert indices[..|indices|] == indices;
  }

  function Exchanged(xs: seq<nat>, i: nat, j: nat): seq<nat>
    requires i < j < |xs|
  {
    xs[i := xs[j]][j := xs[i]]
  }

  /** Every element before position `i` is larger than everything after it. */
  ghost predicate LeadersFixed(xs: seq<nat>, i: nat) {
    forall a, b :: 0 <= a < i && a < b < |xs| ==> xs[a] > xs[b]
  }

  lemma ExchangePermutes(xs: seq<nat>, i: nat, j: nat)
    requires i < j < |xs|
    ensures multiset(Exchanged(xs, i, j)) == multiset(xs)
  {
    assert xs == xs[..i] + [xs[i]] + xs[i + 1..j] + [xs[j]] + xs[j + 1..];
    assert Exchanged(xs, i, j) == xs[..i] + [xs[j]] + xs[i + 1..j] + [xs[i]] + xs[j + 1..];
  }

  lemma ExchangeKeeps(xs: seq<nat>, i: nat, j: nat)
    requires i < j < |xs| && Distinct(xs) && LeadersFixed(xs, i)
    ensures Distinct(Exchanged(xs, i, j)) && LeadersFixed(Exchanged(xs, i, j), i)
  {
    var ys := Exchanged(xs, i, j);
    forall a, b | 0 <= a < i && a < b < |ys|
      ensures ys[a] > ys[b]
    {
      assert xs[a] > xs[b] && xs[a] > xs[i] && xs[a] > xs[j];
    }
  }

  /** Exchange sort, highest position first. */
  method SortDescending(xs: seq<nat>) returns (sorted: seq<nat>)
    requires Distinct(xs)
    ensures Falling(sorted) && multiset(sorted) == multiset(xs)
  {
    sorted := xs;
    var n := |sorted|;
    var i := 0;
    while i < n
      invariant 0 <= i <= n == |sorted|
      invariant multiset(sorted) == multiset(xs) && Distinct(sorted) && LeadersFixed(sorted, i)
    {
      var j := i + 1;
      while j < n
        invariant i < j <= n == |sorted|
        invariant multiset(sorted) == multiset(xs) && Distinct(sorted) && LeadersFixed(sorted, i)
        invariant forall b :: i < b < j ==> sorted[i] > sorted[b]
      {
        if sorted[i] < sorted[j] {
          ExchangePermutes(sorted, i, j);
          ExchangeKeeps(sorted, i, j);
          sorted := Exchanged(sorted, i, j);
        }
        j := j + 1;
      }
      i := i + 1;
    }
  }

  lemma {:induction false} FallingBelow(order: seq<nat>, n: nat, k: nat)
    requires Falling(order) && k < |order| && order[0] < n
    ensures order[k] + k < n
  {
    if k > 0 {
      FallingBelow(order, n, k - 1);
    }
  }

  /** The last element replaces the removed one. */
  method DropAt(bens: seq<Beneficiary>, idx: nat) returns (left: seq<Beneficiary>)
    requires idx < |bens|
    ensures left == SwapRemove(bens, idx) && |left| == |bens| - 1
  {
    var last := |bens| - 1;
    left := if idx != last then bens[idx := bens[last]] else bens;
    left := left[..last];
  }

  lemma RemovalRound(bens: seq<Beneficiary>, total: u32, order: seq<nat>, k: nat)
    requires k < |order| && order[k] < |bens|
    ensures RemoveEach(bens, order[k..]) == RemoveEach(SwapRemove(bens, order[k]), order[k + 1..])
    ensures TotalAfterRemovals(bens, total, order[k..]) ==
            TotalAfterRemovals(SwapRemove(bens, order[k]), SaturatingSub(total, bens[order[k]].allocationBp),
                               order[k + 1..])
  {
    assert order[k..][1..] == order[k + 1..];
  }

  method RemoveInOrder(plan: Plan, order: seq<nat>) returns (left: Plan, success: nat)
    requires Falling(order) && (order != [] ==> order[0] < |plan.beneficiaries|)
    ensures left == plan.(beneficiaries := RemoveEach(plan.beneficiaries, order),
                          totalAllocationBp := TotalAfterRemovals(plan.beneficiaries, plan.totalAllocationBp, order))
    ensures success == |order|
  {
    success := 0;
    var bens, total: u32 := plan.beneficiaries, plan.totalAllocationBp;
    assert order[0..] == order;
    for k := 0 to |order|
      invariant success == k && |bens| + k == |plan.beneficiaries|
      invariant RemoveEach(bens, order[k..]) == RemoveEach(plan.beneficiaries, order)
      invariant TotalAfterRemovals(bens, total, order[k..]) ==
                TotalAfterRemovals(plan.beneficiaries, plan.totalAllocationBp, order)
    {
      var idx := order[k];
      FallingBelow(order, |plan.beneficiaries|, k);
      RemovalRound(bens, total, order, k);
      total := SaturatingSub(total, bens[idx].allocationBp);
      bens := DropAt(bens, idx);
      success := success + 1;
    }
    left := plan.(beneficiaries := bens, totalAllocationBp := total);
  }

  method RemoveAll(plan: Plan, indices: seq<u32>) returns (left: Plan, success: nat, fail: nat)
    ensures var order := NamedBelow(indices, |plan.beneficiaries|);
            && left == plan.(beneficiaries := RemoveEach(plan.beneficiaries, order),
                             totalAllocationBp := TotalAfterRemovals(plan.beneficiaries, plan.totalAllocationBp, order))
            && success == |order|
            && fail == SaturatingSub(|indices|, |order|)
  {
    var n := |plan.beneficiaries|;
    var found := DistinctValid(indices, n);
    var sorted := SortDescending(found);
    NamedBelowMembers(indices, n);
    assert forall x :: x in sorted <==> x in found by {
      assert forall x :: x in sorted <==> x in multiset(sorted);
      assert forall x :: x in found <==> x in multiset(found);
    }
    FallingIsUnique(sorted, NamedBelow(indices, n));
    assert sorted != [] ==> sorted[0] in sorted;
    fail := SaturatingSub(|indices|, |sorted|);
    left, success := RemoveInOrder(plan, sorted);
  }

  // ---------- batch update ----------

  method Reallocate(plan: Plan, allocations: seq<u32>) returns (r: Result<Plan, InheritanceError>)
    requires |allocations| == |plan.beneficiaries|
    ensures r == if 0 in allocations then Err(InvalidAllocation)
                 else if Sum(allocations) > U32_MAX then Err(Panicked)
                 else if Sum(allocations) != FULL_ALLOCATION_BP then Err(AllocationPercentageMismatch)
                 else Ok(plan.(beneficiaries := Reallocated(plan.beneficiaries, allocations),
                               totalAllocationBp := FULL_ALLOCATION_BP))
  {
    for k := 0 to |allocations|
      invariant 0 !in allocations[..k]
    {
      if allocations[k] == 0 {
        return Err(InvalidAllocation);
      }
      assert allocations[..k + 1] == allocations[..k] + [allocations[k]];
    }
    assert allocations[..|allocations|] == allocations;
    var total: nat := 0;
    for k := 0 to |allocations|
      invariant total == Sum(allocations[..k]) <= Sum(allocations) && total <= U32_MAX
    {
      assert allocations[..k + 1][..k] == allocations[..k];
      SumOfPrefix(allocations, k + 1);
      total := total + allocations[k];
      if total > U32_MAX {
        return Err(Panicked);
      }
    }
    assert allocations[..|allocations|] == allocations;
    if total != FULL_ALLOCATION_BP {
      return Err(AllocationPercentageMismatch);
    }
    var bens := plan.beneficiaries;
    for k := 0 to |bens|
      invariant |bens| == |plan.beneficiaries|
      invariant forall i :: 0 <= i < k ==> bens[i] == plan.beneficiaries[i].(allocationBp := allocations[i])
      invariant forall i :: k <= i < |bens| ==> bens[i] == plan.beneficiaries[i]
    {
      bens := bens[k := bens[k].(allocationBp := allocations[k])];
    }
    assert bens == Reallocated(plan.beneficiaries, allocations);
    r := Ok(plan.(beneficiaries := bens, totalAllocationBp := FULL_ALLOCATION_BP));
  }

  lemma {:induction false} SumOfPrefix(xs: seq<u32>, k: nat)
    requires k <= |xs|
    ensures Sum(xs[..k]) <= Sum(xs)
    decreases |xs| - k
  {
    if k < |xs| {
      SumOfPrefix(xs, k + 1);
      assert xs[..k + 1][..k] == xs[..k];
    } else {
      assert xs[..k] == xs;
    }
  }

  // ---------- claims ----------

  method LocateBeneficiary(bens: seq<Beneficiary>, entry: ClaimEntry) returns (r: Result<nat, InheritanceError>)
    ensures r == FindBeneficiary(bens, entry, 0)
    ensures r.Ok? ==> r.value < |bens|
  {
    for i := 0 to |bens|
      invariant FindBeneficiary(bens, entry, i) == FindBeneficiary(bens, entry, 0)
    {
      if bens[i].email != entry.email {
        continue;
      }
      if !entry.codeInRange {
        return Err(InvalidClaimCodeRange);
      }
      if i in entry.codeMatches {
        return Ok(i);
      }
    }
    r := Err(BeneficiaryNotFound);
  }

  /** Whether an unclaimed beneficiary of higher rank stands before this one. */
  method HasHigherRank(bens: seq<Beneficiary>, index: nat) returns (blocked: bool)
    requires index < |bens|
    ensures blocked <==> Outranked(bens, index)
  {
    for i := 0 to |bens|
      invariant forall k :: 0 <= k < i ==>
        bens[k].priority == 0 || bens[k].priority >= bens[index].priority || bens[k].isClaimed
    {
      var b := bens[i];
      if b.priority != 0 && b.priority < bens[index].priority && !b.isClaimed {
        return true;
      }
    }
    blocked := false;
  }

  method ComputeWaterfallPayout(plan: Plan, index: nat) returns (payout: u64)
    requires index < |plan.beneficiaries|
    ensures payout == WaterfallPayout(plan, index)
  {
    if plan.waterfallEnabled {
      var blocked := HasHigherRank(plan.beneficiaries, index);
      if blocked {
        return 0;
      }
    }
    payout := Min(Entitlement(plan.totalAmount, plan.beneficiaries[index].allocationBp), plan.totalAmount);
  }

  // ---------- plan lists ----------

  method WithoutFirst(ids: seq<PlanId>, planId: PlanId) returns (left: seq<PlanId>)
    ensures left == RemoveFirst(ids, planId)
  {
    for i := 0 to |ids|
      invariant RemoveFirst(ids, planId) == ids[..i] + RemoveFirst(ids[i..], planId)
    {
      assert ids[i..][1..] == ids[i + 1..];
      if ids[i] == planId {
        return ids[..i] + ids[i + 1..];
      }
      assert ids[..i + 1] == ids[..i] + [ids[i]];
    }
    assert ids[..|ids|] + RemoveFirst(ids[|ids|..], planId) == ids;
    left := ids;
  }

  /** Once its checks pass, a creation is two transfers and the registration. */
  lemma GuardedCreation(s: Store, c: Context, owner: Address, token: Token, planName: string, description: string,
                        amount: u64, fee: u64, distribution: DistributionMethod, inputs: seq<BeneficiaryInput>,
                        lendable: bool)
    returns (result: CallResult)
    requires CreateGuard(s, c, owner, token, planName, description, amount, fee) == Pass
    ensures c.admin.Some? && fee < amount
    ensures result == FundedRegisterCall(s, c, owner, token, c.admin.value, fee, amount - fee, distribution, inputs,
                                         lendable)
    ensures result == ChargedCreateCall(s, c, owner, token, planName, description, amount, fee, distribution, inputs,
                                        lendable)
  {
    result := FundedRegisterCall(s, c, owner, token, c.admin.value, fee, amount - fee, distribution, inputs, lendable);
  }

  // ---------- the contract object ----------

  class Vault {
    var nextPlanId: u64
    var plans: map<PlanId, Plan>
    var userPlans: map<Address, seq<PlanId>>
    var deactivated: seq<PlanId>
    var triggers: map<PlanId, TriggerInfo>
    var claims: Claims
    var settlements: map<(PlanId, nat), u64>
    var custody: map<Token, nat>
    var wallets: map<(Token, Address), nat>

    constructor (wallets: map<(Token, Address), nat>)
      ensures State() == Deployed(wallets)
    {
      nextPlanId := 1;
      plans, userPlans, deactivated, triggers := map[], map[], [], map[];
      claims, settlements, custody, this.wallets := NO_CLAIMS, map[], map[], wallets;
    }

    function State(): Store
      reads this
    {
      Store(nextPlanId, plans, userPlans, deactivated, triggers, claims, settlements, custody, wallets)
    }

    /** The storage and the outcome are those of `result`, computed from the storage before the call. */
    ghost predicate Performed(before: Store, result: CallResult, r: Outcome)
      reads this
    {
      State() == After(before, result) && r == Seen(result)
    }

    /** The host puts the storage back when a call fails after writing. */
    method Revert(before: Store)
      modifies this
      ensures State() == before
    {
      nextPlanId, plans, userPlans := before.nextPlanId, before.plans, before.userPlans;
      deactivated := before.deactivated;
      triggers, claims, settlements := before.triggers, before.claims, before.settlements;
      custody, wallets := before.custody, before.wallets;
    }

    method StorePlan(planId: PlanId, plan: Plan)
      modifies this
      ensures State() == WithPlan(old(State()), planId, plan)
    {
      plans := plans[planId := plan];
    }

    method ListPlan(user: Address, planId: PlanId)
      modifies this
      ensures State() == AddPlanToUser(old(State()), user, planId)
    {
      var ids := PlansOf(State(), user);
      userPlans := userPlans[user := ids + [planId]];
    }

    method UnlistPlan(user: Address, planId: PlanId)
      modifies this
      ensures State() == RemovePlanFromUser(old(State()), user, planId)
    {
      var ids := WithoutFirst(PlansOf(State(), user), planId);
      userPlans := userPlans[user := ids];
    }

    method TokenTransfer(token: Token, from: Address, to: Address, amount: nat) returns (moved: bool)
      modifies this`custody, this`wallets
      ensures moved == Transfer(old(State()), token, from, to, amount).Some?
      ensures State() == TransferOrIgnore(old(State()), token, from, to, amount)
    {
      moved := BalanceOf(State(), token, from) >= amount;
      if moved {
        SetBalance(token, from, BalanceOf(State(), token, from) - amount);
        SetBalance(token, to, BalanceOf(State(), token, to) + amount);
      }
    }

    method SetBalance(token: Token, account: Address, balance: nat)
      modifies this`custody, this`wallets
      ensures State() == WithBalance(old(State()), token, account, balance)
    {
      if account == Contract {
        custody := custody[token := balance];
      } else {
        wallets := wallets[(token, account) := balance];
      }
    }

    // ---------- creation and beneficiaries ----------

    method CreatePlan(c: Context, owner: Address, token: Token, planName: string, description: string, amount: u64,
                      distribution: DistributionMethod, inputs: seq<BeneficiaryInput>, lendable: bool)
      returns (r: Outcome)
      modifies this
      ensures Performed(old(State()),
                        CreateCall(old(State()), c, owner, token, planName, description, amount, distribution, inputs,
                                   lendable), r)
    {
      r := ChargedCreate(c, owner, token, planName, description, amount, CreationFee(amount), distribution, inputs,
                         lendable);
    }

    method ChargedCreate(c: Context, owner: Address, token: Token, planName: string, description: string, amount: u64,
                         fee: u64, distribution: DistributionMethod, inputs: seq<BeneficiaryInput>, lendable: bool)
      returns (r: Outcome)
      modifies this
      ensures Performed(old(State()),
                        ChargedCreateCall(old(State()), c, owner, token, planName, description, amount, fee,
                                          distribution, inputs, lendable), r)
    {
      var guard := CreateGuard(State(), c, owner, token, planName, description, amount, fee);
      if guard.Fail? {
        return Err(guard.error);
      }
      r := CheckedCreate(c, owner, token, planName, description, amount, fee, distribution, inputs, lendable);
    }

    /** A creation from the first transfer on. */
    method CheckedCreate(c: Context, owner: Address, token: Token, planName: string, description: string, amount: u64,
                         fee: u64, distribution: DistributionMethod, inputs: seq<BeneficiaryInput>, lendable: bool)
      returns (r: Outcome)
      requires CreateGuard(State(), c, owner, token, planName, description, amount, fee) == Pass
      modifies this
      ensures Performed(old(State()),
                        ChargedCreateCall(old(State()), c, owner, token, planName, description, amount, fee,
                                          distribution, inputs, lendable), r)
    {
      ghost var result := GuardedCreation(State(), c, owner, token, planName, description, amount, fee, distribution,
                                          inputs, lendable);
      r := FundAndRegister(c, owner, token, c.admin.value, fee, amount - fee, distribution, inputs, lendable, result);
    }

    method FundAndRegister(c: Context, owner: Address, token: Token, admin: Address, fee: u64, net: u64,
                           distribution: DistributionMethod, inputs: seq<BeneficiaryInput>, lendable: bool,
                           ghost result: CallResult)
      returns (r: Outcome)
      requires result == FundedRegisterCall(State(), c, owner, token, admin, fee, net, distribution, inputs, lendable)
      modifies this
      ensures Performed(old(State()), result, r)
    {
      var before := State();
      Fund(token, owner, admin, fee, net);
      r := Register(c, owner, net, distribution, inputs, lendable);
      if r.Err? {
        Revert(before);
      }
    }

    /** The fee goes to the admin, the rest to the contract; neither outcome is looked at. */
    method Fund(token: Token, owner: Address, admin: Address, fee: u64, net: u64)
      modifies this
      ensures State() == Funded(old(State()), token, owner, admin, fee, net)
    {
      if fee > 0 {
        var _ := TokenTransfer(token, owner, admin, fee);
      }
      var _ := TokenTransfer(token, owner, Contract, net);
    }

    method Register(c: Context, owner: Address, net: u64, distribution: DistributionMethod,
                    inputs: seq<BeneficiaryInput>, lendable: bool) returns (r: Outcome)
      modifies this
      ensures Performed(old(State()), RegisterCall(old(State()), c, owner, net, distribution, inputs, lendable), r)
    {
      var guard := CheckBeneficiaries(inputs);
      if guard.Fail? {
        return Err(guard.error);
      }
      if nextPlanId == U64_MAX {
        return Err(Panicked);
      }
      var bens := MakeBeneficiaries(inputs);
      if bens.Err? {
        return Err(bens.error);
      }
      var planId := nextPlanId;
      nextPlanId := nextPlanId + 1;
      var plan := Plan(net, distribution, bens.value, FULL_ALLOCATION_BP, owner, c.now, true, lendable, 0, false);
      StorePlan(planId, plan);
      ListPlan(owner, planId);
      r := Ok(Created(planId));
    }

    method AddBeneficiary(c: Context, owner: Address, planId: PlanId, input: BeneficiaryInput) returns (r: Outcome)
      modifies this
      ensures Performed(old(State()), AddBeneficiaryCall(old(State()), c, owner, planId, input), r)
    {
      if c.paused {
        return Err(Panicked);
      }
      var found := OwnedPlan(State(), owner, planId);
      if found.Err? {
        return Err(found.error);
      }
      var plan := found.value;
      if |plan.beneficiaries| >= MAX_BENEFICIARIES {
        return Err(TooManyBeneficiaries);
      }
      if input.allocationBp == 0 {
        return Err(InvalidAllocation);
      }
      var total := plan.totalAllocationBp + input.allocationBp;
      if total > U32_MAX {
        return Err(Panicked);
      }
      if total > FULL_ALLOCATION_BP {
        return Err(AllocationExceedsLimit);
      }
      var b := CreateBeneficiary(input);
      if b.Err? {
        return Err(b.error);
      }
      plan := plan.(beneficiaries := plan.beneficiaries + [b.value], totalAllocationBp := total);
      StorePlan(planId, plan);
      r := Ok(Done);
    }

    method RemoveBeneficiary(c: Context, owner: Address, planId: PlanId, index: u32) returns (r: Outcome)
      modifies this
      ensures Performed(old(State()), RemoveBeneficiaryCall(old(State()), c, owner, planId, index), r)
    {
      if c.paused {
        return Err(Panicked);
      }
      var found := OwnedPlan(State(), owner, planId);
      if found.Err? {
        return Err(found.error);
      }
      var plan := found.value;
      var bens := plan.beneficiaries;
      if index >= |bens| {
        return Err(InvalidBeneficiaryIndex);
      }
      var removed, last := bens[index].allocationBp, |bens| - 1;
      if index != last {
        bens := bens[index := bens[last]];
      }
      bens := bens[..last];
      if removed > plan.totalAllocationBp {
        return Err(Panicked);
      }
      plan := plan.(beneficiaries := bens, totalAllocationBp := plan.totalAllocationBp - removed);
      StorePlan(planId, plan);
      r := Ok(Done);
    }

    method BatchAddBeneficiaries(owner: Address, planId: PlanId, inputs: seq<BeneficiaryInput>) returns (r: Outcome)
      modifies this
      ensures Performed(old(State()), BatchAddCall(old(State()), owner, planId, inputs), r)
    {
      if |inputs| > BATCH_LIMIT {
        return Err(TooManyBeneficiaries);
      }
      var found := OwnedPlan(State(), owner, planId);
      if found.Err? {
        return Err(found.error);
      }
      var added := AddAll(found.value, inputs);
      if added.Err? {
        return Err(added.error);
      }
      StorePlan(planId, added.value.plan);
      r := Ok(Counts(added.value.success, added.value.fail));
    }

    method BatchRemoveBeneficiaries(owner: Address, planId: PlanId, indices: seq<u32>) returns (r: Outcome)
      modifies this
      ensures Performed(old(State()), BatchRemoveCall(old(State()), owner, planId, indices), r)
    {
      if |indices| > BATCH_LIMIT {
        return Err(TooManyBeneficiaries);
      }
      var found := OwnedPlan(State(), owner, planId);
      if found.Err? {
        return Err(found.error);
      }
      var left, success, fail := RemoveAll(found.value, indices);
      StorePlan(planId, left);
      r := Ok(Counts(success, fail));
    }

    method BatchUpdateAllocations(owner: Address, planId: PlanId, allocations: seq<u32>) returns (r: Outcome)
      modifies this
      ensures Performed(old(State()), BatchUpdateCall(old(State()), owner, planId, allocations), r)
    {
      if |allocations| > BATCH_LIMIT {
        return Err(TooManyBeneficiaries);
      }
      var found := OwnedPlan(State(), owner, planId);
      if found.Err? {
        return Err(found.error);
      }
      if |allocations| != |found.value.beneficiaries| {
        return Err(InvalidBeneficiaryData);
      }
      var updated := Reallocate(found.value, allocations);
      if updated.Err? {
        return Err(updated.error);
      }
      StorePlan(planId, updated.value);
      r := Ok(Done);
    }

    method SetBeneficiaryPriority(owner: Address, planId: PlanId, index: u32, priority: u32) returns (r: Outcome)
      modifies this
      ensures Performed(old(State()), SetPriorityCall(old(State()), owner, planId, index, priority), r)
    {
      var found := OwnedPlan(State(), owner, planId);
      if found.Err? {
        return Err(found.error);
      }
      var bens := found.value.beneficiaries;
      if index >= |bens| {
        return Err(InvalidBeneficiaryIndex);
      }
      if priority == 0 {
        return Err(InvalidBeneficiaryData);
      }
      for i := 0 to |bens|
        invariant State() == old(State())
        invariant forall k :: 0 <= k < i && k != index ==> bens[k].priority != priority
      {
        if i != index && bens[i].priority == priority {
          return Err(InvalidBeneficiaryData);
        }
      }
      bens := bens[index := bens[index].(priority := priority)];
      StorePlan(planId, found.value.(beneficiaries := bens));
      r := Ok(Done);
    }

    // ---------- settings ----------

    method SetLendable(owner: Address, planId: PlanId, lendable: bool) returns (r: Outcome)
      modifies this
      ensures Performed(old(State()), SetLendableCall(old(State()), owner, planId, lendable), r)
    {
      var found := OwnedPlan(State(), owner, planId);
      if found.Err? {
        return Err(found.error);
      }
      StorePlan(planId, found.value.(isLendable := lendable));
      r := Ok(Done);
    }

    method EnableWaterfallDistribution(owner: Address, planId: PlanId) returns (r: Outcome)
      modifies this
      ensures Performed(old(State()), EnableWaterfallCall(old(State()), owner, planId), r)
    {
      var found := OwnedPlan(State(), owner, planId);
      if found.Err? {
        return Err(found.error);
      }
      StorePlan(planId, found.value.(waterfallEnabled := true));
      r := Ok(Done);
    }

    method DeactivatePlan(c: Context, owner: Address, planId: PlanId) returns (r: Outcome)
      modifies this
      ensures Performed(old(State()), DeactivateCall(old(State()), c, owner, planId), r)
    {
      if c.paused {
        return Err(Panicked);
      }
      var found := OwnedPlan(State(), owner, planId);
      if found.Err? {
        return Err(found.error);
      }
      if !found.value.isActive {
        return Err(PlanAlreadyDeactivated);
      }
      StorePlan(planId, found.value.(isActive := false));
      if planId !in deactivated {
        deactivated := deactivated + [planId];
      }
      r := Ok(Done);
    }

    method TransferPlanOwnership(c: Context, owner: Address, newOwner: Address, planId: PlanId) returns (r: Outcome)
      modifies this
      ensures Performed(old(State()), TransferOwnershipCall(old(State()), c, owner, newOwner, planId), r)
    {
      var found := OwnedPlan(State(), owner, planId);
      if found.Err? {
        return Err(found.error);
      }
      if planId in triggers || planId in c.frozen {
        return Err(PlanNotActive);
      }
      UnlistPlan(owner, planId);
      ListPlan(newOwner, planId);
      StorePlan(planId, found.value.(owner := newOwner));
      r := Ok(Done);
    }

    // ---------- money ----------

    method Deposit(c: Context, caller: Address, token: Token, planId: PlanId, amount: u64) returns (r: Outcome)
      modifies this
      ensures Performed(old(State()), DepositCall(old(State()), c, caller, token, planId, amount), r)
    {
      if c.paused {
        return Err(Panicked);
      }
      if amount == 0 {
        return Err(InvalidTotalAmount);
      }
      var found := OwnedPlan(State(), caller, planId);
      if found.Err? {
        return Err(found.error);
      }
      var plan := found.value;
      if !plan.isActive || planId in c.frozen {
        return Err(PlanNotActive);
      }
      if BalanceOf(State(), token, caller) < amount {
        return Err(InsufficientBalance);
      }
      var before := State();
      var moved := TokenTransfer(token, caller, Contract, amount);
      if !moved {
        return Err(FeeTransferFailed);
      }
      if plan.totalAmount + amount > U64_MAX {
        Revert(before);
        return Err(Panicked);
      }
      plan := plan.(totalAmount := plan.totalAmount + amount);
      StorePlan(planId, plan);
      r := Ok(Done);
    }

    method Withdraw(c: Context, caller: Address, token: Token, planId: PlanId, amount: u64) returns (r: Outcome)
      modifies this
      ensures Performed(old(State()), WithdrawCall(old(State()), c, caller, token, planId, amount), r)
    {
      if c.paused {
        return Err(Panicked);
      }
      if amount == 0 {
        return Err(InvalidTotalAmount);
      }
      var found := OwnedPlan(State(), caller, planId);
      if found.Err? {
        return Err(found.error);
      }
      var plan := found.value;
      if planId in c.frozen {
        return Err(PlanNotActive);
      }
      if planId in c.emergencyActive && amount > EmergencyLimit(plan) {
        return Err(EmergencyCooldownActive);
      }
      if amount > SaturatingSub(plan.totalAmount, plan.totalLoaned) {
        return Err(InsufficientLiquidity);
      }
      var moved := TokenTransfer(token, Contract, caller, amount);
      if !moved {
        return Err(FeeTransferFailed);
      }
      plan := plan.(totalAmount := plan.totalAmount - amount);
      StorePlan(planId, plan);
      r := Ok(Done);
    }

    // ---------- trigger and loans ----------

    method RecordTrigger(c: Context, planId: PlanId, plan: Plan)
      modifies this
      ensures State() == Triggered(old(State()), c, planId, plan)
    {
      StorePlan(planId, plan.(isLendable := false));
      triggers := triggers[planId := TriggerInfo(c.now, true, false, false, plan.totalLoaned, 0, 0)];
    }

    method AutoTriggerCheck(c: Context, planId: PlanId) returns (r: Outcome)
      modifies this
      ensures Performed(old(State()), AutoTriggerCall(old(State()), c, planId), r)
    {
      if planId !in c.conditionsMet {
        return Ok(Done);
      }
      if planId in triggers {
        return Ok(Done);
      }
      if planId !in plans {
        return Err(PlanNotFound);
      }
      var plan := plans[planId];
      if !plan.isActive {
        return Err(PlanNotActive);
      }
      RecordTrigger(c, planId, plan);
      r := Ok(Done);
    }

    method TriggerInheritance(c: Context, caller: Address, planId: PlanId) returns (r: Outcome)
      modifies this
      ensures Performed(old(State()), TriggerCall(old(State()), c, caller, planId), r)
    {
      if c.paused {
        return Err(Panicked);
      }
      var isAuthorized := c.admin == Some(caller);
      if !isAuthorized {
        if planId !in plans {
          return Err(PlanNotFound);
        }
        if plans[planId].owner == caller {
          isAuthorized := true;
        } else if planId in c.emergencyContact && c.emergencyContact[planId] == caller {
          isAuthorized := true;
        }
      }
      if !isAuthorized {
        return Err(Unauthorized);
      }
      if planId !in plans {
        return Err(PlanNotFound);
      }
      var plan := plans[planId];
      if !plan.isActive || planId in c.frozen {
        return Err(PlanNotActive);
      }
      if planId in triggers {
        return Err(InheritanceAlreadyTriggered);
      }
      RecordTrigger(c, planId, plan);
      r := Ok(Done);
    }

    method RecallLoan(c: Context, planId: PlanId, amount: u64) returns (r: Outcome)
      modifies this
      ensures Performed(old(State()), RecallCall(old(State()), c, planId, amount), r)
    {
      var found := LoanedPlan(State(), c, planId);
      if found.Err? {
        return Err(found.error);
      }
      var (plan, info) := found.value;
      if amount == 0 || amount > plan.totalLoaned {
        return Err(LoanRecallFailed);
      }
      if info.recalledAmount + amount > U64_MAX {
        return Err(Panicked);
      }
      plan := plan.(totalLoaned := plan.totalLoaned - amount);
      StorePlan(planId, plan);
      info := info.(recallAttempted := true, recalledAmount := info.recalledAmount + amount);
      triggers := triggers[planId := info];
      r := Ok(Done);
    }

    method LiquidationFallback(c: Context, planId: PlanId) returns (r: Outcome)
      modifies this
      ensures Performed(old(State()), LiquidateCall(old(State()), c, planId), r)
    {
      var found := LoanedPlan(State(), c, planId);
      if found.Err? {
        return Err(found.error);
      }
      var (plan, info) := found.value;
      var unrecoverable := plan.totalLoaned;
      if info.settledAmount + unrecoverable > U64_MAX {
        return Err(Panicked);
      }
      plan := plan.(totalAmount := SaturatingSub(plan.totalAmount, unrecoverable), totalLoaned := 0);
      StorePlan(planId, plan);
      info := info.(liquidationTriggered := true, settledAmount := info.settledAmount + unrecoverable);
      triggers := triggers[planId := info];
      r := Ok(Done);
    }

    // ---------- claims ----------

    method RecordClaim(planId: PlanId, owner: Address, email: Email, record: ClaimRecord)
      modifies this
      ensures State() == WithClaim(old(State()), planId, owner, email, record)
    {
      claims := claims.(records := claims.records[(planId, email) := record]);
      var owned := ClaimedPlansOf(claims, owner);
      if planId !in owned {
        claims := claims.(ofOwner := claims.ofOwner[owner := owned + [planId]]);
      }
      if planId !in claims.all {
        claims := claims.(all := claims.all + [planId]);
      }
    }

    method ClaimPlan(c: Context, planId: PlanId, entry: ClaimEntry) returns (r: Outcome)
      modifies this
      ensures Performed(old(State()), ClaimCall(old(State()), c, planId, entry), r)
    {
      if c.paused {
        return Err(Panicked);
      }
      if entry.claimer !in c.kycApproved {
        return Err(KycNotSubmitted);
      }
      if planId !in plans {
        return Err(PlanNotFound);
      }
      var plan := plans[planId];
      if !plan.isActive || planId in c.frozen {
        return Err(PlanNotActive);
      }
      if !entry.attemptAllowed {
        return Err(Unauthorized);
      }
      var before := State();
      var _ := AutoTriggerCheck(c, planId);
      assert State() == AutoTriggered(before, c, planId);
      r := ClaimOpen(c, planId, plan, entry);
      if r.Err? {
        Revert(before);
      }
    }

    /** The claim from the time check on, with the plan as it was read before the automatic trigger. */
    method ClaimOpen(c: Context, planId: PlanId, plan: Plan, entry: ClaimEntry) returns (r: Outcome)
      modifies this
      ensures Performed(old(State()), OpenClaimCall(old(State()), c, planId, plan, entry), r)
    {
      var window := ClaimWindow(State(), c, planId, plan);
      if window.Fail? {
        return Err(window.error);
      }
      if (planId, entry.email) in claims.records {
        return Err(AlreadyClaimed);
      }
      var bens := plan.beneficiaries[..Min(|plan.beneficiaries|, MAX_BENEFICIARIES)];
      var index := LocateBeneficiary(bens, entry);
      if index.Err? {
        return Err(index.error);
      }
      if (planId, index.value) in c.frozenBeneficiaries {
        return Err(Unauthorized);
      }
      if plan.waterfallEnabled {
        var blocked := HasHigherRank(bens, index.value);
        if blocked {
          return Err(ClaimNotAllowedYet);
        }
      }
      r := PayClaim(c, planId, plan, entry, index.value);
    }

    method PayClaim(c: Context, planId: PlanId, plan: Plan, entry: ClaimEntry, index: nat) returns (r: Outcome)
      requires index < |plan.beneficiaries|
      modifies this
      ensures Performed(old(State()), Payout(old(State()), c, planId, plan, entry, index), r)
    {
      var payout := ComputeWaterfallPayout(plan, index);
      var exit := SettlementOf(State(), planId, index);
      if exit > 0 {
        payout := Min(payout, exit);
      }
      if planId in c.emergencyActive && payout > EmergencyLimit(plan) {
        return Err(EmergencyCooldownActive);
      }
      if planId !in triggers && payout > SaturatingSub(plan.totalAmount, plan.totalLoaned) {
        return Err(InsufficientLiquidity);
      }
      if payout == 0 {
        return Err(NothingToClaim);
      }
      var left := SaturatingSub(exit, payout);
      var final := exit == 0 || left == 0;
      var b := plan.beneficiaries[index];
      if final {
        b := b.(isClaimed := true);
      }
      StorePlan(planId, plan.(beneficiaries := plan.beneficiaries[index := b],
                              totalAmount := SaturatingSub(plan.totalAmount, payout)));
      if exit > 0 {
        if left == 0 {
          settlements := settlements - {(planId, index)};
        } else {
          settlements := settlements[(planId, index) := left];
        }
      }
      if final {
        RecordClaim(planId, plan.owner, entry.email, ClaimRecord(index, c.now));
      }
      r := Ok(Done);
    }

    method BatchClaimPlan(c: Context, planId: PlanId, entries: seq<ClaimEntry>) returns (r: Outcome)
      modifies this
      ensures Performed(old(State()), BatchClaimCall(old(State()), c, planId, entries), r)
    {
      if c.paused {
        return Err(Panicked);
      }
      if |entries| > BATCH_LIMIT {
        return Err(TooManyBeneficiaries);
      }
      if planId !in plans {
        return Err(PlanNotFound);
      }
      var plan, before := plans[planId], State();
      var _ := AutoTriggerCheck(c, planId);
      assert State() == AutoTriggered(before, c, planId);
      if !plan.isActive || planId in c.frozen {
        Revert(before);
        return Err(PlanNotActive);
      }
      var window := ClaimWindow(State(), c, planId, plan);
      if window.Fail? {
        Revert(before);
        return Err(window.error);
      }
      var success, fail := ClaimEntries(c, planId, entries);
      r := Ok(Counts(success, fail));
    }

    method ClaimEntries(c: Context, planId: PlanId, entries: seq<ClaimEntry>) returns (success: nat, fail: nat)
      modifies this
      ensures var p := ClaimEach(old(State()), c, planId, entries, |entries|);
              State() == p.store && success == p.success && fail == p.fail
    {
      success, fail := 0, 0;
      for k := 0 to |entries|
        invariant var p := ClaimEach(old(State()), c, planId, entries, k);
                  State() == p.store && success == p.success && fail == p.fail
      {
        var s, f := ClaimEntryOf(c, planId, entries[k]);
        ghost var p := ClaimEach(old(State()), c, planId, entries, k);
        success, fail := success + s, fail + f;
        assert ClaimEach(old(State()), c, planId, entries, k + 1) == ClaimOne(p, c, planId, entries[k]);
        ProgressIsRelative(p, BatchProgress(p.store, [], 0, 0), c, planId, entries[k]);
      }
    }

    /** One entry of the batch: how many successes and failures it counts. */
    method ClaimEntryOf(c: Context, planId: PlanId, entry: ClaimEntry) returns (success: nat, fail: nat)
      modifies this
      ensures var p := ClaimOne(BatchProgress(old(State()), [], 0, 0), c, planId, entry);
              State() == p.store && success == p.success && fail == p.fail
    {
      if !entry.attemptAllowed || entry.claimer !in c.kycApproved {
        return 0, 1;
      }
      if (planId, entry.email) in claims.records || planId !in plans {
        return 0, 1;
      }
      var plan := plans[planId];
      var index := LocateBeneficiary(plan.beneficiaries, entry);
      if index.Err? {
        return 0, if index.error == InvalidClaimCodeRange then 2 else 1;
      }
      var payout := Entitlement(plan.totalAmount, plan.beneficiaries[index.value].allocationBp);
      if planId in c.emergencyActive && payout > EmergencyLimit(plan) {
        return 0, 1;
      }
      StorePlan(planId, plan.(totalAmount := SaturatingSub(plan.totalAmount, payout)));
      RecordClaim(planId, plan.owner, entry.email, ClaimRecord(index.value, c.now));
      success, fail := 1, 0;
    }

    // ---------- dispatch ----------

    method CallOnBeneficiaries(c: Context, op: Op) returns (r: Outcome)
      requires PlanInvariants.EditsOnly(op)
      modifies this
      ensures Performed(old(State()), Invoke(old(State()), c, op), r)
    {
      match op {
        case AddBeneficiary(owner, planId, input) => r := AddBeneficiary(c, owner, planId, input);
        case RemoveBeneficiary(owner, planId, index) => r := RemoveBeneficiary(c, owner, planId, index);
        case BatchAdd(owner, planId, inputs) => r := BatchAddBeneficiaries(owner, planId, inputs);
        case BatchRemove(owner, planId, indices) => r := BatchRemoveBeneficiaries(owner, planId, indices);
        case BatchUpdate(owner, planId, allocations) => r := BatchUpdateAllocations(owner, planId, allocations);
        case SetPriority(owner, planId, index, priority) => r := SetBeneficiaryPriority(owner, planId, index, priority);
        case SetLendable(owner, planId, lendable) => r := SetLendable(owner, planId, lendable);
        case EnableWaterfall(owner, planId) => r := EnableWaterfallDistribution(owner, planId);
      }
    }

    method CallOnPlans(c: Context, op: Op) returns (r: Outcome)
      requires !PlanInvariants.EditsOnly(op)
      modifies this
      ensures Performed(old(State()), Invoke(old(State()), c, op), r)
    {
      match op {
        case Create(owner, token, planName, description, amount, distribution, inputs, lendable) =>
          r := CreatePlan(c, owner, token, planName, description, amount, distribution, inputs, lendable);
        case Deposit(caller, token, planId, amount) => r := Deposit(c, caller, token, planId, amount);
        case Withdraw(caller, token, planId, amount) => r := Withdraw(c, caller, token, planId, amount);
        case Claim(planId, entry) => r := ClaimPlan(c, planId, entry);
        case BatchClaim(planId, entries) => r := BatchClaimPlan(c, planId, entries);
        case Deactivate(owner, planId) => r := DeactivatePlan(c, owner, planId);
        case AutoTrigger(planId) => r := AutoTriggerCheck(c, planId);
        case Trigger(caller, planId) => r := TriggerInheritance(c, caller, planId);
        case Recall(planId, amount) => r := RecallLoan(c, planId, amount);
        case Liquidate(planId) => r := LiquidationFallback(c, planId);
        case TransferOwnership(owner, newOwner, planId) => r := TransferPlanOwnership(c, owner, newOwner, planId);
      }
    }

    /** Any call as the host dispatches it: storage moves as the step function says, and stays valid. */
    method Call(c: Context, op: Op) returns (r: Outcome)
      modifies this
      ensures State() == PlanLedger.Step(old(State()), c, op) && r == Seen(Invoke(old(State()), c, op))
      ensures PlanInvariants.Valid(old(State())) ==> PlanInvariants.Valid(State())
    {
      ghost var before := State();
      if PlanInvariants.EditsOnly(op) {
        r := CallOnBeneficiaries(c, op);
      } else {
        r := CallOnPlans(c, op);
      }
      if PlanInvariants.Valid(before) {
        PlanInvariants.StepKeepsValid(before, c, op);
      }
    }
  }

  /** Counters and payments of a batch entry do not depend on those before it. */
  lemma ProgressIsRelative(p: BatchProgress, q: BatchProgress, c: Context, planId: PlanId, entry: ClaimEntry)
    requires p.store == q.store
    ensures var p', q' := ClaimOne(p, c, planId, entry), ClaimOne(q, c, planId, entry);
            && p'.store == q'.store
            && p'.success - p.success == q'.success - q.success
            && p'.fail - p.fail == q'.fail - q.fail
  {
    if planId in p.store.plans {
      FindBeneficiaryInBounds(p.store.plans[planId].beneficiaries, entry, 0);
    }
  }
}
