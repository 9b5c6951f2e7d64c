/** When a plan is created, and the plan that is stored then, in the fields of the call. */
module PlanCreation {
  import opened MachineInts
  import opened PlanTypes
  import opened PlanLedger
  import opened PlanInvariants
  import opened BeneficiaryRules
  import opened OwnerCalls

  /** Each of the first `k` beneficiaries comes from the input at its position. */
  ghost predicate AllMade(bens: seq<Beneficiary>, inputs: seq<BeneficiaryInput>, k: nat)
    requires k <= |inputs|
  {
    |bens| == k && forall i :: 0 <= i < k ==> MadeFrom(bens[i], inputs[i])
  }

  lemma {:induction false} BuiltIff(inputs: seq<BeneficiaryInput>, k: nat)
    requires k <= |inputs|
    ensures var r := BuildBeneficiaries(inputs, k);
            && (r.Ok? <==> forall i :: 0 <= i < k ==> Complete(inputs[i]))
            && (r.Ok? ==> AllMade(r.value, inputs, k))
    decreases k
  {
    if k > 0 {
      BuiltIff(inputs, k - 1);
      MadeIff(inputs[k - 1]);
    }
  }

  /** What the listed heirs have to meet together and each for itself. */
  ghost predicate HeirsAllowed(inputs: seq<BeneficiaryInput>) {
    && 1 <= |inputs| <= 10
    && NamedAndRanked(inputs) && DistinctEmails(inputs) && DistinctPriorities(inputs)
    && ShareSum(inputs) == 10_000
    && forall i :: 0 <= i < |inputs| ==> Complete(inputs[i])
  }

  lemma RegisterIff(s: Store, c: Context, owner: Address, net: u64, distribution: DistributionMethod,
                    inputs: seq<BeneficiaryInput>, lendable: bool)
    ensures RegisterCall(s, c, owner, net, distribution, inputs, lendable).Ok? <==>
            HeirsAllowed(inputs) && s.nextPlanId < U64_MAX
  {
    ValidationMeaning(inputs);
    BuiltIff(inputs, |inputs|);
  }

  lemma FeeBelowAmount(amount: u64)
    ensures CreationFee(amount) < amount <==> amount > 0
  {
  }

  /** Everything that a creation has to meet. */
  ghost predicate CreationAllowed(s: Store, c: Context, op: Op)
    requires op.Create?
  {
    && !c.paused && op.owner in c.kycApproved && c.admin.Some?
    && op.amount > 0 && op.planName != "" && |op.description| <= 500
    && BalanceOf(s, op.token, op.owner) >= op.amount
    && HeirsAllowed(op.inputs) && s.nextPlanId < U64_MAX
  }

  lemma FundedRegistersAlike(s: Store, c: Context, op: Op, fee: u64)
    requires op.Create? && c.admin.Some? && fee < op.amount
    ensures var r := FundedRegisterCall(s, c, op.owner, op.token, c.admin.value, fee, op.amount - fee, op.distribution,
                                        op.inputs, op.lendable);
            r.Ok? <==> HeirsAllowed(op.inputs) && s.nextPlanId < U64_MAX
  {
    var funded := Funded(s, op.token, op.owner, c.admin.value, fee, op.amount - fee);
    FundedTouchesBalances(s, op.token, op.owner, c.admin.value, fee, op.amount - fee);
    RegisterIff(funded, c, op.owner, op.amount - fee, op.distribution, op.inputs, op.lendable);
  }

  lemma GuardIff(s: Store, c: Context, op: Op, fee: u64)
    requires op.Create?
    ensures CreateGuard(s, c, op.owner, op.token, op.planName, op.description, op.amount, fee) == Pass <==>
            && !c.paused && op.owner in c.kycApproved && c.admin.Some?
            && fee < op.amount && op.planName != "" && |op.description| <= 500
            && BalanceOf(s, op.token, op.owner) >= op.amount
  {
  }

  lemma ChargedIff(s: Store, c: Context, op: Op, fee: u64)
    requires op.Create? && (fee < op.amount <==> op.amount > 0)
    ensures CreateAt(s, c, op, fee).Ok? <==> CreationAllowed(s, c, op)
  {
    var guard := CreateGuard(s, c, op.owner, op.token, op.planName, op.description, op.amount, fee);
    GuardIff(s, c, op, fee);
    if guard == Pass {
      FundedRegistersAlike(s, c, op, fee);
    } else {
      assert CreateAt(s, c, op, fee).Err?;
    }
  }

  /** A creation is accepted exactly when it meets all of that. */
  lemma CreationAcceptedIff(s: Store, c: Context, op: Op)
    requires op.Create?
    ensures Invoke(s, c, op).Ok? <==> CreationAllowed(s, c, op)
  {
    FeeBelowAmount(op.amount);
    var fee := CreateIsCharged(s, c, op);
    ChargedIff(s, c, op, fee);
  }

  /** The new plan as the call describes it, and its place in the tables. */
  ghost predicate Founded(s: Store, e: Effect, c: Context, op: Op, fee: u64)
    requires op.Create?
  {
    var id := s.nextPlanId;
    && fee < op.amount && id < U64_MAX && id in e.store.plans
    && var plan := e.store.plans[id];
       && plan.totalAmount == op.amount - fee && plan.totalLoaned == 0
       && plan.distribution == op.distribution && plan.isLendable == op.lendable
       && plan.owner == op.owner && plan.createdAt == c.now && plan.isActive && !plan.waterfallEnabled
       && plan.totalAllocationBp == 10_000 && AllMade(plan.beneficiaries, op.inputs, |op.inputs|)
       && e.store == s.(plans := s.plans[id := plan],
                        userPlans := s.userPlans[op.owner := PlansOf(s, op.owner) + [id]],
                        nextPlanId := id + 1,
                        custody := e.store.custody, wallets := e.store.wallets)
       && e.reply == Created(id) && e.payments == [] && e.writtenOff == 0
  }

  lemma RegistrationFounds(s: Store, funded: Store, e: Effect, c: Context, op: Op, fee: u64)
    requires op.Create? && fee < op.amount && funded == s.(custody := funded.custody, wallets := funded.wallets)
    requires RegisterCall(funded, c, op.owner, op.amount - fee, op.distribution, op.inputs, op.lendable) == Ok(e)
    ensures Founded(s, e, c, op, fee)
  {
    BuiltIff(op.inputs, |op.inputs|);
  }

  lemma ChargedFounds(s: Store, c: Context, op: Op, fee: u64)
    requires op.Create? && CreateAt(s, c, op, fee).Ok?
    ensures Founded(s, CreateAt(s, c, op, fee).value, c, op, fee)
  {
    var funded := CreateRegisters(s, c, op, fee);
    RegistrationFounds(s, funded, CreateAt(s, c, op, fee).value, c, op, fee);
  }

  /** An accepted creation stores just the plan that it was asked for, with the amount less the fee. */
  lemma CreationFounds(s: Store, c: Context, op: Op)
    requires op.Create? && Invoke(s, c, op).Ok?
    ensures Founded(s, Invoke(s, c, op).value, c, op, CreationFee(op.amount))
  {
    var fee := CreateIsCharged(s, c, op);
    ChargedFounds(s, c, op, fee);
  }
}
