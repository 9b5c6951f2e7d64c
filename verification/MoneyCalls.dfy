/**
 Deposits, withdrawals, triggers and loan settlements: exactly when they are accepted and what they leave, in the
 fields of storage.
 */
module MoneyCalls {
  import opened MachineInts
  import opened ContractErrors
  import opened PlanTypes
  import opened PlanLedger
  import opened PlanInvariants
  import opened OwnerCalls
  import opened ClaimTargets

  // ---------- deposits and withdrawals ----------

  predicate DepositAllowed(s: Store, c: Context, caller: Address, token: Token, planId: PlanId, amount: u64) {
    && !c.paused && amount > 0 && Owns(s, caller, planId) && s.plans[planId].isActive && planId !in c.frozen
    && amount <= BalanceOf(s, token, caller)
    && s.plans[planId].totalAmount + amount <= U64_MAX
  }

  lemma DepositAcceptedIff(s: Store, c: Context, caller: Address, token: Token, planId: PlanId, amount: u64)
    ensures DepositCall(s, c, caller, token, planId, amount).Ok? <==>
            DepositAllowed(s, c, caller, token, planId, amount)
  {
  }

  /** The amount leaves the caller's wallet for the contract and the plan. */
  lemma DepositEffect(s: Store, c: Context, caller: Address, token: Token, planId: PlanId, amount: u64)
    requires caller != Contract && DepositAllowed(s, c, caller, token, planId, amount)
    ensures var plan := s.plans[planId];
            DepositCall(s, c, caller, token, planId, amount) ==
            Ok(Effect(s.(plans := s.plans[planId := plan.(totalAmount := plan.totalAmount + amount)],
                         custody := s.custody[token := BalanceOf(s, token, Contract) + amount],
                         wallets := s.wallets[(token, caller) := BalanceOf(s, token, caller) - amount]), Done, [], 0))
  {
  }

  /** What a withdrawal has to meet: the owner, the part of the balance that is not on loan, and the tokens. */
  predicate WithdrawalAllowed(s: Store, c: Context, caller: Address, token: Token, planId: PlanId, amount: u64) {
    && !c.paused && amount > 0 && Owns(s, caller, planId) && planId !in c.frozen
    && (planId in c.emergencyActive ==> amount * 10 <= s.plans[planId].totalAmount)
    && amount + s.plans[planId].totalLoaned <= s.plans[planId].totalAmount
    && amount <= BalanceOf(s, token, Contract)
  }

  lemma WithdrawalAcceptedIff(s: Store, c: Context, caller: Address, token: Token, planId: PlanId, amount: u64)
    ensures WithdrawCall(s, c, caller, token, planId, amount).Ok? <==>
            WithdrawalAllowed(s, c, caller, token, planId, amount)
  {
    if planId in s.plans {
      EmergencyIff(s.plans[planId], amount);
    }
  }

  /** The amount leaves the plan and the contract for the caller's wallet. */
  lemma WithdrawalEffect(s: Store, c: Context, caller: Address, token: Token, planId: PlanId, amount: u64)
    requires caller != Contract && WithdrawalAllowed(s, c, caller, token, planId, amount)
    ensures var plan := s.plans[planId];
            WithdrawCall(s, c, caller, token, planId, amount) ==
            Ok(Effect(s.(plans := s.plans[planId := plan.(totalAmount := plan.totalAmount - amount)],
                         custody := s.custody[token := BalanceOf(s, token, Contract) - amount],
                         wallets := s.wallets[(token, caller) := BalanceOf(s, token, caller) + amount]), Done, [], 0))
  {
    EmergencyIff(s.plans[planId], amount);
  }

  // ---------- triggers ----------

  /** The admin, the owner and the plan's emergency contact. */
  predicate HasTriggerAuthority(s: Store, c: Context, caller: Address, planId: PlanId) {
    || c.admin == Some(caller)
    || Owns(s, caller, planId)
    || (planId in c.emergencyContact && c.emergencyContact[planId] == caller)
  }

  /** Storage with a record of this moment, and the plan no longer lendable. */
  function NewlyTriggered(s: Store, c: Context, planId: PlanId): Store
    requires planId in s.plans
  {
    s.(plans := s.plans[planId := s.plans[planId].(isLendable := false)],
       triggers := s.triggers[planId := TriggerInfo(c.now, true, false, false, s.plans[planId].totalLoaned, 0, 0)])
  }

  lemma TriggerEffect(s: Store, c: Context, caller: Address, planId: PlanId)
    ensures var r := TriggerCall(s, c, caller, planId);
            && (r.Ok? <==>
                && !c.paused && planId in s.plans && HasTriggerAuthority(s, c, caller, planId)
                && s.plans[planId].isActive && planId !in c.frozen && planId !in s.triggers)
            && (r.Ok? ==> r.value == Effect(NewlyTriggered(s, c, planId), Done, [], 0))
            && (!c.paused && planId in s.plans ==>
                  (r == Err(Unauthorized) <==> !HasTriggerAuthority(s, c, caller, planId)))
  {
  }

  /** The automatic trigger is nobody's call in particular: only its conditions count. */
  lemma AutoTriggerEffect(s: Store, c: Context, planId: PlanId)
    ensures var r := AutoTriggerCall(s, c, planId);
            if planId !in c.conditionsMet || planId in s.triggers then r == Ok(Effect(s, Done, [], 0))
            else if planId !in s.plans then r == Err(PlanNotFound)
            else if !s.plans[planId].isActive then r == Err(PlanNotActive)
            else r == Ok(Effect(NewlyTriggered(s, c, planId), Done, [], 0))
  {
  }

  // ---------- settling loans ----------

  /** Only the admin settles loans, and only those of a triggered plan that has some. */
  predicate LoansOpen(s: Store, c: Context, planId: PlanId) {
    c.callerIsAdmin && planId in s.plans && planId in s.triggers && s.plans[planId].totalLoaned > 0
  }

  lemma RecallEffect(s: Store, c: Context, planId: PlanId, amount: u64)
    ensures var r := RecallCall(s, c, planId, amount);
            && (r.Ok? <==>
                && LoansOpen(s, c, planId) && 0 < amount <= s.plans[planId].totalLoaned
                && s.triggers[planId].recalledAmount + amount <= U64_MAX)
            && (r.Ok? ==>
                  var plan, info := s.plans[planId], s.triggers[planId];
                  r.value == Effect(
                    s.(plans := s.plans[planId := plan.(totalLoaned := plan.totalLoaned - amount)],
                       triggers := s.triggers[planId := info.(recallAttempted := true,
                                                              recalledAmount := info.recalledAmount + amount)]),
                    Done, [], 0))
  {
  }

  /** What a liquidation can write off: the outstanding loans, as far as the balance reaches. */
  function Lost(plan: Plan): nat {
    if plan.totalLoaned <= plan.totalAmount then plan.totalLoaned else plan.totalAmount
  }

  lemma LiquidationEffect(s: Store, c: Context, planId: PlanId)
    ensures var r := LiquidateCall(s, c, planId);
            && (r.Ok? <==>
                LoansOpen(s, c, planId) && s.triggers[planId].settledAmount + s.plans[planId].totalLoaned <= U64_MAX)
            && (r.Ok? ==>
                  var plan, info := s.plans[planId], s.triggers[planId];
                  var plan' := plan.(totalAmount := plan.totalAmount - Lost(plan), totalLoaned := 0);
                  var info' := info.(liquidationTriggered := true,
                                     settledAmount := info.settledAmount + plan.totalLoaned);
                  r.value == Effect(s.(plans := s.plans[planId := plan'], triggers := s.triggers[planId := info']),
                                    Done, [], Lost(plan)))
  {
  }

  /** On accounted loans neither settlement can trap: what is recalled or settled was loaned at the trigger. */
  lemma SettlementsNeverTrap(s: Store, c: Context, planId: PlanId, amount: u64)
    requires Valid(s)
    ensures RecallCall(s, c, planId, amount).Ok? <==>
            LoansOpen(s, c, planId) && 0 < amount <= s.plans[planId].totalLoaned
    ensures LiquidateCall(s, c, planId).Ok? <==> LoansOpen(s, c, planId)
  {
    RecallEffect(s, c, planId, amount);
    LiquidationEffect(s, c, planId);
    if planId in s.triggers {
      assert LoansAccounted(s.plans[planId], s.triggers[planId]);
    }
  }
}
