/** Calls of the inheritance contract that undo each other. */
module PlanRoundTrips {
  import opened MachineInts
  import opened PlanTypes
  import opened BeneficiaryList
  import opened PlanLedger
  import opened PlanInvariants

  /** Removing the beneficiary that was just added restores the storage exactly. */
  lemma AddThenRemove(s: Store, c: Context, later: Context, owner: Address, planId: PlanId, input: BeneficiaryInput)
    requires AddBeneficiaryCall(s, c, owner, planId, input).Ok? && !later.paused
    ensures var s' := AddBeneficiaryCall(s, c, owner, planId, input).value.store;
            && planId in s.plans
            && RemoveBeneficiaryCall(s', later, owner, planId, |s.plans[planId].beneficiaries|) ==
              Ok(Effect(s, Done, [], 0))
  {
    AddBeneficiaryShape(s, c, owner, planId, input);
    var bens, b := s.plans[planId].beneficiaries, CreateBeneficiary(input).value;
    assert SwapRemove(bens + [b], |bens|) == bens;
    var plan' := AddBeneficiaryCall(s, c, owner, planId, input).value.store.plans[planId];
    assert s.plans == s.plans[planId := plan'][planId := s.plans[planId]];
  }

  /** What an accepted deposit did. */
  lemma DepositShape(s: Store, c: Context, caller: Address, token: Token, planId: PlanId, amount: u64)
    requires caller != Contract && DepositCall(s, c, caller, token, planId, amount).Ok?
    ensures planId in s.plans && s.plans[planId].owner == caller && amount > 0
    ensures s.plans[planId].totalAmount + amount <= U64_MAX && BalanceOf(s, token, caller) >= amount
    ensures var plan, e := s.plans[planId], DepositCall(s, c, caller, token, planId, amount).value;
            e.store == s.(plans := s.plans[planId := plan.(totalAmount := plan.totalAmount + amount)],
                          custody := s.custody[token := BalanceOf(s, token, Contract) + amount],
                          wallets := s.wallets[(token, caller) := BalanceOf(s, token, caller) - amount])
  {
  }

  /** When a withdrawal succeeds outside pauses, freezes and emergencies, and what it does then. */
  lemma WithdrawShape(s: Store, c: Context, caller: Address, token: Token, planId: PlanId, amount: u64)
    requires caller != Contract && planId in s.plans && s.plans[planId].owner == caller
    requires amount > 0 && BalanceOf(s, token, Contract) >= amount
    requires !c.paused && planId !in c.frozen && planId !in c.emergencyActive
    ensures WithdrawCall(s, c, caller, token, planId, amount).Ok? <==>
            s.plans[planId].totalLoaned + amount <= s.plans[planId].totalAmount
    ensures var plan, r := s.plans[planId], WithdrawCall(s, c, caller, token, planId, amount);
            r.Ok? ==>
              r.value.store == s.(plans := s.plans[planId := plan.(totalAmount := plan.totalAmount - amount)],
                                  custody := s.custody[token := BalanceOf(s, token, Contract) - amount],
                                  wallets := s.wallets[(token, caller) := BalanceOf(s, token, caller) + amount])
  {
  }

  /**
   A deposit can be taken back exactly when the plan's loans did not already pass its balance before it;
   taking it back restores every plan and every balance.
   */
  lemma DepositThenWithdraw(s: Store, c: Context, later: Context, caller: Address, token: Token, planId: PlanId,
                            amount: u64)
    requires caller != Contract && DepositCall(s, c, caller, token, planId, amount).Ok?
    requires !later.paused && planId !in later.frozen && planId !in later.emergencyActive
    ensures var s' := DepositCall(s, c, caller, token, planId, amount).value.store;
            var r := WithdrawCall(s', later, caller, token, planId, amount);
            && planId in s.plans
            && (r.Ok? <==> s.plans[planId].totalLoaned <= s.plans[planId].totalAmount)
            && (r.Ok? ==>
                  && r.value.store == s.(custody := r.value.store.custody, wallets := r.value.store.wallets)
                  && forall t: Token, a :: BalanceOf(r.value.store, t, a) == BalanceOf(s, t, a))
  {
    DepositShape(s, c, caller, token, planId, amount);
    var s' := DepositCall(s, c, caller, token, planId, amount).value.store;
    WithdrawShape(s', later, caller, token, planId, amount);
    assert s.plans == s.plans[planId := s'.plans[planId]][planId := s.plans[planId]];
  }
}
