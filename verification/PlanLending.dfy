/**
 The lendable flag around a trigger: a direct trigger clears it, a claim that triggers automatically writes
 it back, a batch of claims clears it, and from then on only the owner's own setting changes it.
 */
module PlanLending {
  import opened MachineInts
  import opened PlanTypes
  import opened PlanLedger
  import opened PlanInvariants
  import opened PlanRuns
  import opened PlanTokens
  import opened TriggerHistory

  predicate Lendable(s: Store, planId: PlanId) {
    planId in s.plans && s.plans[planId].isLendable
  }

  /** The call that led from `s` to `s'` triggered the plan. */
  predicate Triggers(s: Store, s': Store, planId: PlanId) {
    planId !in s.triggers && planId in s'.triggers
  }

  // ---------- calls that trigger ----------

  lemma DirectTriggerUnlends(s: Store, c: Context, op: Op)
    requires (op.Trigger? || op.AutoTrigger?) && Triggers(s, Step(s, c, op), op.planId)
    ensures !Lendable(Step(s, c, op), op.planId)
  {
  }

  /** A claim leaves the flag as it found it. */
  lemma ClaimKeepsLendable(s: Store, c: Context, planId: PlanId, entry: ClaimEntry)
    requires ClaimCall(s, c, planId, entry).Ok?
    ensures Lendable(ClaimCall(s, c, planId, entry).value.store, planId) == Lendable(s, planId)
  {
    ClaimShape(s, c, planId, entry);
    var s1, plan := AutoTriggered(s, c, planId), s.plans[planId];
    var index := ClaimTarget(c, planId, plan, entry).value;
    RecordPayoutShape(s1, c, planId, plan, entry.email, index, PayoutAmount(s1, planId, plan, index));
  }

  /** So a claim that triggers leaves the plan unlendable exactly when it was unlendable before. */
  lemma TriggeringClaimUnlendsIff(s: Store, c: Context, planId: PlanId, entry: ClaimEntry)
    requires ClaimCall(s, c, planId, entry).Ok?
    requires Triggers(s, ClaimCall(s, c, planId, entry).value.store, planId)
    ensures !Lendable(ClaimCall(s, c, planId, entry).value.store, planId) <==> !Lendable(s, planId)
  {
    ClaimKeepsLendable(s, c, planId, entry);
  }

  /** The heir's claim on a plan whose trigger conditions are met. */
  function HeirClaim(owner: Address): ClaimEntry {
    ClaimEntry(owner, HEIR.email, true, {0}, true)
  }

  function Due(admin: Address, owner: Address): Context {
    Calm(admin, {owner}).(conditionsMet := {1})
  }

  lemma HeirIsFound(c: Context, owner: Address)
    requires c.frozenBeneficiaries == {}
    ensures ClaimTarget(c, 1, SoloPlan(owner, true), HeirClaim(owner)) == Ok(0)
  {
    var bens := SoloPlan(owner, true).beneficiaries;
    assert bens[..1] == bens;
    assert FindBeneficiary(bens, HeirClaim(owner), 0) == Ok(0);
  }

  /** An accepted call that triggers the plan and leaves it lendable. */
  predicate LeavesLendable(s: Store, r: CallResult, planId: PlanId) {
    r.Ok? && Triggers(s, r.value.store, planId) && Lendable(r.value.store, planId)
  }

  /** On any storage that holds one such plan, the claim triggers it and leaves it lendable. */
  lemma HeirClaimTriggers(s: Store, admin: Address, owner: Address)
    requires s.plans == map[1 := SoloPlan(owner, true)]
    requires s.triggers == map[] && s.claims == NO_CLAIMS && s.settlements == map[]
    ensures LeavesLendable(s, Invoke(s, Due(admin, owner), Claim(1, HeirClaim(owner))), 1)
  {
    var c, plan := Due(admin, owner), SoloPlan(owner, true);
    HeirIsFound(c, owner);
    var s1 := AutoTriggered(s, c, 1);
    assert 1 in s1.triggers && PayoutAmount(s1, 1, plan, 0) == 98;
    ClaimKeepsLendable(s, c, 1, HeirClaim(owner));
  }

  /** The owner creates a lendable plan, and its heir claims when the trigger conditions are met. */
  function LendableRun(owner: Address, admin: Address): seq<Event> {
    [(Calm(admin, {owner}), SoloCreation(owner, 0, true)), (Due(admin, owner), Claim(1, HeirClaim(owner)))]
  }

  lemma RunOfTwo(s: Store, calls: seq<Event>)
    requires |calls| == 2
    ensures Run(s, calls[..1]) == Step(s, calls[0].0, calls[0].1)
    ensures Run(s, calls) == Step(Run(s, calls[..1]), calls[1].0, calls[1].1)
  {
    assert calls[..1][..0] == [];
  }

  /** The last call of the run is accepted and triggers the plan, which ends triggered and lendable. */
  predicate EndsLendable(s: Store, calls: seq<Event>, planId: PlanId)
    requires calls != []
  {
    var before := Run(s, calls[..|calls| - 1]);
    Accepted(s, calls, |calls| - 1) && Triggers(before, Run(s, calls), planId) && Lendable(Run(s, calls), planId)
  }

  lemma SecondCallLeavesLendable(s: Store, calls: seq<Event>, s1: Store, c: Context, op: Op, planId: PlanId)
    requires |calls| == 2 && s1 == Run(s, calls[..1]) && calls[1] == (c, op)
    requires LeavesLendable(s1, Invoke(s1, c, op), planId)
    ensures EndsLendable(s, calls, planId)
  {
    RunOfTwo(s, calls);
  }

  lemma LendablePlanIsCreated(wallets: map<(Token, Address), nat>, owner: Address, admin: Address) returns (s1: Store)
    requires owner != Contract && admin != Contract && BalanceOf(Deployed(wallets), 0, owner) >= 100
    ensures s1 == Run(Deployed(wallets), LendableRun(owner, admin)[..1])
    ensures s1.plans == map[1 := SoloPlan(owner, true)]
    ensures s1.triggers == map[] && s1.claims == NO_CLAIMS && s1.settlements == map[]
  {
    s1 := SoloStep(Deployed(wallets), admin, {owner}, owner, 0, true);
    RunOfTwo(Deployed(wallets), LendableRun(owner, admin));
  }

  /** From deployment, two calls: the claim triggers the plan, which ends the run triggered and lendable. */
  lemma ClaimLeavesTriggeredPlanLendable(wallets: map<(Token, Address), nat>, owner: Address, admin: Address)
    requires owner != Contract && admin != Contract && BalanceOf(Deployed(wallets), 0, owner) >= 100
    ensures EndsLendable(Deployed(wallets), LendableRun(owner, admin), 1)
  {
    var calls := LendableRun(owner, admin);
    var s1 := LendablePlanIsCreated(wallets, owner, admin);
    HeirClaimTriggers(s1, admin, owner);
    SecondCallLeavesLendable(Deployed(wallets), calls, s1, Due(admin, owner), Claim(1, HeirClaim(owner)), 1);
  }

  lemma {:induction false} ClaimEachKeepsLendable(s: Store, c: Context, planId: PlanId, entries: seq<ClaimEntry>,
                                                  k: nat)
    requires planId in s.plans && k <= |entries|
    ensures var s' := ClaimEach(s, c, planId, entries, k).store;
            planId in s'.plans && Lendable(s', planId) == Lendable(s, planId)
    decreases k
  {
    if k > 0 {
      ClaimEachKeepsLendable(s, c, planId, entries, k - 1);
      ClaimOneKeepsLendable(ClaimEach(s, c, planId, entries, k - 1), c, planId, entries[k - 1]);
    }
  }

  lemma ClaimOneKeepsLendable(p: BatchProgress, c: Context, planId: PlanId, entry: ClaimEntry)
    requires planId in p.store.plans
    ensures var s' := ClaimOne(p, c, planId, entry).store;
            planId in s'.plans && Lendable(s', planId) == Lendable(p.store, planId)
  {
    FindBeneficiaryInBounds(p.store.plans[planId].beneficiaries, entry, 0);
  }

  /** A batch reads the plan again after the trigger, so a batch that triggers always leaves it unlendable. */
  lemma TriggeringBatchUnlends(s: Store, c: Context, planId: PlanId, entries: seq<ClaimEntry>)
    requires BatchClaimCall(s, c, planId, entries).Ok?
    requires Triggers(s, BatchClaimCall(s, c, planId, entries).value.store, planId)
    ensures !Lendable(BatchClaimCall(s, c, planId, entries).value.store, planId)
  {
    var s1 := AutoTriggered(s, c, planId);
    AutoTriggeredKeepsPlan(s, c, planId);
    ClaimEachKeepsLendable(s1, c, planId, entries, |entries|);
    ClaimEachKeepsTriggers(s1, c, planId, entries, |entries|);
    DirectTriggerUnlends(s, c, AutoTrigger(planId));
  }

  lemma {:induction false} ClaimEachKeepsTriggers(s: Store, c: Context, planId: PlanId, entries: seq<ClaimEntry>,
                                                  k: nat)
    requires planId in s.plans && k <= |entries|
    ensures var s' := ClaimEach(s, c, planId, entries, k).store; planId in s'.plans && s'.triggers == s.triggers
    decreases k
  {
    if k > 0 {
      ClaimEachKeepsTriggers(s, c, planId, entries, k - 1);
      ClaimOneTidy(ClaimEach(s, c, planId, entries, k - 1), c, planId, entries[k - 1]);
    }
  }

  // ---------- after the trigger ----------

  /** An accepted call leaves the plan's flag as it was. */
  ghost predicate KeepsFlag(s: Store, r: CallResult, planId: PlanId) {
    r.Ok? ==> Lendable(r.value.store, planId) == Lendable(s, planId)
  }

  lemma BeneficiaryCallsKeepFlag(s: Store, c: Context, op: Op)
    requires op.AddBeneficiary? || op.RemoveBeneficiary? || op.BatchUpdate? || op.SetPriority? || op.EnableWaterfall?
    ensures KeepsFlag(s, Invoke(s, c, op), op.planId)
  {
    if op.AddBeneficiary? {
      AddBeneficiaryShape(s, c, op.owner, op.planId, op.input);
    }
  }

  lemma BatchCallsKeepFlag(s: Store, c: Context, op: Op)
    requires op.BatchAdd? || op.BatchRemove?
    ensures KeepsFlag(s, Invoke(s, c, op), op.planId)
  {
    if op.BatchAdd? && Invoke(s, c, op).Ok? {
      AddInputsTouchesShares(s.plans[op.planId], op.inputs, |op.inputs|);
    }
  }

  lemma MoneyCallsKeepFlag(s: Store, c: Context, op: Op)
    requires op.Deposit? || op.Withdraw?
    ensures KeepsFlag(s, Invoke(s, c, op), op.planId)
  {
    if op.Deposit? {
      TransferTouchesBalances(s, op.token, op.caller, Contract, op.amount);
    } else {
      TransferTouchesBalances(s, op.token, Contract, op.caller, op.amount);
    }
  }

  lemma StatusCallsKeepFlag(s: Store, c: Context, op: Op)
    requires op.Deactivate? || op.TransferOwnership? || op.Recall? || op.Liquidate?
    ensures KeepsFlag(s, Invoke(s, c, op), op.planId)
  {
    if op.TransferOwnership? {
      TransferRelists(s, c, op.owner, op.newOwner, op.planId);
    }
  }

  lemma ClaimCallsKeepFlag(s: Store, c: Context, op: Op)
    requires (op.Claim? || op.BatchClaim?) && op.planId in s.triggers
    ensures KeepsFlag(s, Invoke(s, c, op), op.planId)
  {
    if Invoke(s, c, op).Ok? {
      if op.Claim? {
        ClaimKeepsLendable(s, c, op.planId, op.entry);
      } else {
        ClaimEachKeepsLendable(s, c, op.planId, op.entries, |op.entries|);
      }
    }
  }

  lemma TriggerCallsKeepFlag(s: Store, c: Context, op: Op)
    requires (op.AutoTrigger? || op.Trigger?) && op.planId in s.triggers
    ensures KeepsFlag(s, Invoke(s, c, op), op.planId)
  {
  }

  lemma OtherCallsKeepFlag(s: Store, c: Context, op: Op, planId: PlanId)
    requires planId in s.plans && WrittenPlan(s, op) != planId
    ensures KeepsFlag(s, Invoke(s, c, op), planId)
  {
    StepWritesOne(s, c, op);
  }

  /** On a triggered plan, every call but a setting of the flag leaves it alone. */
  lemma OwnCallsKeepFlag(s: Store, c: Context, op: Op)
    requires !op.Create? && !op.SetLendable? && op.planId in s.triggers
    ensures KeepsFlag(s, Invoke(s, c, op), op.planId)
  {
    if op.Claim? || op.BatchClaim? {
      ClaimCallsKeepFlag(s, c, op);
    } else if op.Deposit? || op.Withdraw? {
      MoneyCallsKeepFlag(s, c, op);
    } else if op.BatchAdd? || op.BatchRemove? {
      BatchCallsKeepFlag(s, c, op);
    } else if op.Deactivate? || op.TransferOwnership? || op.Recall? || op.Liquidate? {
      StatusCallsKeepFlag(s, c, op);
    } else if op.AutoTrigger? || op.Trigger? {
      TriggerCallsKeepFlag(s, c, op);
    } else {
      BeneficiaryCallsKeepFlag(s, c, op);
    }
  }

  lemma StepKeepsFlag(s: Store, c: Context, op: Op, planId: PlanId)
    requires PlansOk(s) && LoansOk(s) && planId in s.triggers && !(op.SetLendable? && op.planId == planId)
    ensures Lendable(Step(s, c, op), planId) == Lendable(s, planId)
  {
    assert planId in s.plans && planId < s.nextPlanId;
    if WrittenPlan(s, op) != planId {
      OtherCallsKeepFlag(s, c, op, planId);
    } else {
      OwnCallsKeepFlag(s, c, op);
    }
  }

  /** An accepted setting of the plan's flag. */
  predicate Sets(s: Store, c: Context, op: Op, planId: PlanId) {
    op.SetLendable? && op.planId == planId && Invoke(s, c, op).Ok?
  }

  lemma FlagAfter(s: Store, c: Context, op: Op, planId: PlanId)
    requires PlansOk(s) && LoansOk(s) && planId in s.triggers
    ensures Lendable(Step(s, c, op), planId) == if Sets(s, c, op, planId) then op.lendable else Lendable(s, planId)
  {
    if !(op.SetLendable? && op.planId == planId) {
      StepKeepsFlag(s, c, op, planId);
    }
  }

  /** The latest accepted setting of the plan's flag, if the run has one. */
  function LastSetting(s: Store, calls: seq<Event>, planId: PlanId): Option<bool> {
    if calls == [] then None
    else
      var n := |calls| - 1;
      if Sets(Run(s, calls[..n]), calls[n].0, calls[n].1, planId) then Some(calls[n].1.lendable)
      else LastSetting(s, calls[..n], planId)
  }

  /** From a trigger on, in every run, the flag is the owner's latest accepted setting, or what it was. */
  lemma {:induction false} FlagIsLastSetting(s: Store, calls: seq<Event>, planId: PlanId)
    requires Valid(s) && planId in s.triggers
    ensures Lendable(Run(s, calls), planId) ==
            match LastSetting(s, calls, planId)
            case Some(value) => value
            case None => Lendable(s, planId)
  {
    if calls != [] {
      var n := |calls| - 1;
      FlagIsLastSetting(s, calls[..n], planId);
      RunKeepsValid(s, calls[..n]);
      TriggerIsFinal(s, calls[..n], planId);
      FlagAfter(Run(s, calls[..n]), calls[n].0, calls[n].1, planId);
    }
  }
}
