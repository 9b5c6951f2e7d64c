/** What the trigger fixes in every later run: its record, the loans it found and the owner. */
module TriggerHistory {
  import opened PlanTypes
  import opened PlanLedger
  import opened PlanInvariants
  import opened PlanRuns

  /** The record survives with its time and original loans, and the plan keeps its owner. */
  ghost predicate TriggerKept(s: Store, s': Store, planId: PlanId)
    requires planId in s.triggers && planId in s.plans
  {
    && planId in s'.triggers && planId in s'.plans
    && s'.triggers[planId].triggeredAt == s.triggers[planId].triggeredAt
    && s'.triggers[planId].originalLoaned == s.triggers[planId].originalLoaned
    && s'.plans[planId].owner == s.plans[planId].owner
  }

  lemma TidyWriteKeepsTrigger(s: Store, s': Store, written: PlanId, planId: PlanId)
    requires planId in s.triggers && planId in s.plans && TidyWrite(s, s', written)
    ensures TriggerKept(s, s', planId)
  {
  }

  lemma NewPlanKeepsTrigger(s: Store, s': Store, planId: PlanId)
    requires PlansOk(s) && planId in s.triggers && planId in s.plans
    requires s.nextPlanId in s'.plans
    requires AddsPlan(s, s', s'.plans[s.nextPlanId].totalAmount, s'.plans[s.nextPlanId].owner)
    ensures TriggerKept(s, s', planId)
  {
  }

  lemma CreateKeepsTrigger(s: Store, c: Context, op: Op, planId: PlanId)
    requires PlansOk(s) && planId in s.triggers && planId in s.plans && op.Create?
    ensures TriggerKept(s, Step(s, c, op), planId)
  {
    if Invoke(s, c, op).Ok? {
      var fee := CreateIsCharged(s, c, op);
      CreateAddsPlan(s, c, op, fee);
      NewPlanKeepsTrigger(s, Step(s, c, op), planId);
    }
  }

  lemma AutoTriggeredKeepsTrigger(s: Store, c: Context, triggered: PlanId, planId: PlanId)
    requires Valid(s) && planId in s.triggers
    ensures TriggerKept(s, AutoTriggered(s, c, triggered), planId)
  {
  }

  lemma SettlementKeepsTrigger(s: Store, r: CallResult, settled: PlanId, planId: PlanId)
    requires planId in s.triggers && planId in s.plans && Settles(s, r, settled)
    ensures TriggerKept(s, After(s, r), planId)
  {
  }

  lemma LoanCallKeepsTrigger(s: Store, c: Context, op: Op, planId: PlanId)
    requires planId in s.triggers && planId in s.plans && (op.Recall? || op.Liquidate?)
    ensures TriggerKept(s, Step(s, c, op), planId)
  {
    match op {
      case Recall(id, amount) => RecallSettles(s, c, id, amount);
      case Liquidate(id) => LiquidateSettles(s, c, id);
    }
    SettlementKeepsTrigger(s, Invoke(s, c, op), op.planId, planId);
  }

  lemma DeactivateKeepsTrigger(s: Store, c: Context, owner: Address, id: PlanId, planId: PlanId)
    requires planId in s.triggers && planId in s.plans
    ensures TriggerKept(s, After(s, DeactivateCall(s, c, owner, id)), planId)
  {
  }

  lemma TransferKeepsTrigger(s: Store, c: Context, owner: Address, newOwner: Address, id: PlanId, planId: PlanId)
    requires planId in s.triggers && planId in s.plans
    ensures TriggerKept(s, After(s, TransferOwnershipCall(s, c, owner, newOwner, id)), planId)
  {
    TransferRelists(s, c, owner, newOwner, id);
    if TransferOwnershipCall(s, c, owner, newOwner, id).Ok? {
      RelistingKeepsTrigger(s, id, newOwner, planId);
    }
  }

  lemma RelistingKeepsTrigger(s: Store, id: PlanId, newOwner: Address, planId: PlanId)
    requires planId in s.triggers && planId in s.plans && id in s.plans && id != planId
    ensures TriggerKept(s, Relisted(s, id, newOwner), planId)
  {
  }

  lemma TriggerKeepsTrigger(s: Store, c: Context, caller: Address, id: PlanId, planId: PlanId)
    requires planId in s.triggers && planId in s.plans
    ensures TriggerKept(s, After(s, TriggerCall(s, c, caller, id)), planId)
  {
  }

  lemma ClaimKeepsTrigger(s: Store, c: Context, claimed: PlanId, entry: ClaimEntry, planId: PlanId)
    requires Valid(s) && planId in s.triggers
    ensures TriggerKept(s, After(s, ClaimCall(s, c, claimed, entry)), planId)
  {
    var r := ClaimCall(s, c, claimed, entry);
    ClaimShape(s, c, claimed, entry);
    if r.Ok? {
      var s1, plan := AutoTriggered(s, c, claimed), s.plans[claimed];
      var index := ClaimTarget(c, claimed, plan, entry).value;
      AutoTriggeredKeepsTrigger(s, c, claimed, planId);
      AutoTriggeredKeepsPlan(s, c, claimed);
      RecordPayoutTidy(s1, c, claimed, plan, entry.email, index, PayoutAmount(s1, claimed, plan, index));
      TidyWriteKeepsTrigger(s1, r.value.store, claimed, planId);
    }
  }

  lemma {:induction false} ClaimEachKeepsTrigger(
      s: Store, c: Context, claimed: PlanId, entries: seq<ClaimEntry>, k: nat, planId: PlanId)
    requires claimed in s.plans && k <= |entries| && planId in s.triggers && planId in s.plans
    ensures var s' := ClaimEach(s, c, claimed, entries, k).store; claimed in s'.plans && TriggerKept(s, s', planId)
    decreases k
  {
    if k > 0 {
      var p := ClaimEach(s, c, claimed, entries, k - 1);
      ClaimEachKeepsTrigger(s, c, claimed, entries, k - 1, planId);
      ClaimOneTidy(p, c, claimed, entries[k - 1]);
      TidyWriteKeepsTrigger(p.store, ClaimOne(p, c, claimed, entries[k - 1]).store, claimed, planId);
    }
  }

  lemma BatchClaimKeepsTrigger(s: Store, c: Context, claimed: PlanId, entries: seq<ClaimEntry>, planId: PlanId)
    requires Valid(s) && planId in s.triggers
    ensures TriggerKept(s, After(s, BatchClaimCall(s, c, claimed, entries)), planId)
  {
    if BatchClaimCall(s, c, claimed, entries).Ok? {
      AutoTriggeredKeepsTrigger(s, c, claimed, planId);
      AutoTriggeredKeepsPlan(s, c, claimed);
      ClaimEachKeepsTrigger(AutoTriggered(s, c, claimed), c, claimed, entries, |entries|, planId);
    }
  }

  lemma ClaimingCallKeepsTrigger(s: Store, c: Context, op: Op, planId: PlanId)
    requires Valid(s) && planId in s.triggers && (op.Claim? || op.BatchClaim?)
    ensures TriggerKept(s, Step(s, c, op), planId)
  {
    match op {
      case Claim(id, entry) => ClaimKeepsTrigger(s, c, id, entry, planId);
      case BatchClaim(id, entries) => BatchClaimKeepsTrigger(s, c, id, entries, planId);
    }
  }

  lemma TriggeringCallKeepsTrigger(s: Store, c: Context, op: Op, planId: PlanId)
    requires Valid(s) && planId in s.triggers && (op.AutoTrigger? || op.Trigger?)
    ensures TriggerKept(s, Step(s, c, op), planId)
  {
    match op {
      case AutoTrigger(id) => AutoTriggeredKeepsTrigger(s, c, id, planId);
      case Trigger(caller, id) => TriggerKeepsTrigger(s, c, caller, id, planId);
    }
  }

  lemma StatusCallKeepsTrigger(s: Store, c: Context, op: Op, planId: PlanId)
    requires planId in s.plans && planId in s.triggers && (op.Deactivate? || op.TransferOwnership?)
    ensures TriggerKept(s, Step(s, c, op), planId)
  {
    match op {
      case Deactivate(owner, id) => DeactivateKeepsTrigger(s, c, owner, id, planId);
      case TransferOwnership(owner, newOwner, id) => TransferKeepsTrigger(s, c, owner, newOwner, id, planId);
    }
  }

  lemma StepKeepsTrigger(s: Store, c: Context, op: Op, planId: PlanId)
    requires Valid(s) && planId in s.triggers
    ensures TriggerKept(s, Step(s, c, op), planId)
  {
    if op.Create? {
      CreateKeepsTrigger(s, c, op, planId);
    } else if op.Claim? || op.BatchClaim? {
      ClaimingCallKeepsTrigger(s, c, op, planId);
    } else if op.AutoTrigger? || op.Trigger? {
      TriggeringCallKeepsTrigger(s, c, op, planId);
    } else if op.Deactivate? || op.TransferOwnership? {
      StatusCallKeepsTrigger(s, c, op, planId);
    } else if op.Recall? || op.Liquidate? {
      LoanCallKeepsTrigger(s, c, op, planId);
    } else if op.Deposit? || op.Withdraw? {
      MoneyCallKeepsTrigger(s, c, op, planId);
    } else {
      EditingCallKeepsTrigger(s, c, op, planId);
    }
  }

  lemma TidyCallKeepsTrigger(s: Store, r: CallResult, written: PlanId, planId: PlanId)
    requires planId in s.triggers && planId in s.plans && Tidy(s, r, written)
    ensures TriggerKept(s, After(s, r), planId)
  {
    if r.Ok? {
      TidyWriteKeepsTrigger(s, r.value.store, written, planId);
    }
  }

  lemma MoneyCallKeepsTrigger(s: Store, c: Context, op: Op, planId: PlanId)
    requires planId in s.triggers && planId in s.plans && (op.Deposit? || op.Withdraw?)
    ensures TriggerKept(s, After(s, Invoke(s, c, op)), planId)
  {
    match op {
      case Deposit(caller, token, id, amount) => DepositTidy(s, c, caller, token, id, amount);
      case Withdraw(caller, token, id, amount) => WithdrawTidy(s, c, caller, token, id, amount);
    }
    TidyCallKeepsTrigger(s, Invoke(s, c, op), op.planId, planId);
  }

  lemma EditingCallKeepsTrigger(s: Store, c: Context, op: Op, planId: PlanId)
    requires planId in s.triggers && planId in s.plans && EditsOnly(op)
    ensures TriggerKept(s, After(s, Invoke(s, c, op)), planId)
  {
    EditingCalls(s, c, op);
    EditsAreTidy(s, Invoke(s, c, op), op.planId);
    TidyCallKeepsTrigger(s, Invoke(s, c, op), op.planId, planId);
  }

  /** From the trigger on, through every later run: one record, accounted loans, one owner. */
  lemma {:induction false} TriggerIsFinal(s: Store, calls: seq<Event>, planId: PlanId)
    requires Valid(s) && planId in s.triggers
    ensures TriggerKept(s, Run(s, calls), planId)
    ensures LoansAccounted(Run(s, calls).plans[planId], Run(s, calls).triggers[planId])
    ensures forall c, caller :: TriggerCall(Run(s, calls), c, caller, planId).Err?
  {
    RunKeepsValid(s, calls);
    if calls != [] {
      var n := |calls| - 1;
      TriggerIsFinal(s, calls[..n], planId);
      RunKeepsValid(s, calls[..n]);
      StepKeepsTrigger(Run(s, calls[..n]), calls[n].0, calls[n].1, planId);
    }
  }
}
