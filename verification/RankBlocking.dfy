/**
 Waterfall ranks after a batch of claims. A batch records a claim without marking the beneficiary as claimed, and
 the record keeps the beneficiary from ever being marked, so those ranked behind it wait for good.
 */
module RankBlocking {
  import opened MachineInts
  import opened PlanTypes
  import opened PlanLedger
  import opened PlanInvariants
  import opened PlanRuns
  import opened PlanTokens
  import opened PlanClaims

  /** Beneficiary `i` has not been marked as claimed and ranks before `j`, who has to wait for it. */
  predicate Ahead(plan: Plan, i: nat, j: nat) {
    && i < |plan.beneficiaries| && j < |plan.beneficiaries|
    && plan.waterfallEnabled && !plan.beneficiaries[i].isClaimed
    && 0 < plan.beneficiaries[i].priority < plan.beneficiaries[j].priority
  }

  /** It is under this e-mail, and a claim under the e-mail is on record already. */
  predicate Blocks(s: Store, planId: PlanId, email: Email, i: nat, j: nat) {
    && planId in s.plans && Ahead(s.plans[planId], i, j)
    && s.plans[planId].beneficiaries[i].email == email
    && Recorded(s, planId, email)
  }

  lemma {:induction false} FoundEmail(bens: seq<Beneficiary>, entry: ClaimEntry, i: nat)
    ensures var r := FindBeneficiary(bens, entry, i); r.Ok? ==> r.value < |bens| && bens[r.value].email == entry.email
    decreases |bens| - i
  {
    if i < |bens| {
      FoundEmail(bens, entry, i + 1);
    }
  }

  lemma TargetEmail(c: Context, planId: PlanId, plan: Plan, entry: ClaimEntry)
    requires ClaimTarget(c, planId, plan, entry).Ok?
    ensures plan.beneficiaries[ClaimTarget(c, planId, plan, entry).value].email == entry.email
  {
    var n := if |plan.beneficiaries| <= MAX_BENEFICIARIES then |plan.beneficiaries| else MAX_BENEFICIARIES;
    FoundEmail(plan.beneficiaries[..n], entry, 0);
  }

  /** So no single claim of `j` goes through. */
  lemma BlockedCannotClaim(s: Store, c: Context, planId: PlanId, entry: ClaimEntry, i: nat, j: nat)
    requires planId in s.plans && Ahead(s.plans[planId], i, j) && |s.plans[planId].beneficiaries| <= MAX_BENEFICIARIES
    requires ClaimCall(s, c, planId, entry).Ok?
    ensures ClaimTarget(c, planId, s.plans[planId], entry).value != j
  {
    var bens := s.plans[planId].beneficiaries;
    ClaimShape(s, c, planId, entry);
    assert bens[..|bens|] == bens;
  }

  // ---------- what keeps the block ----------

  /** An accepted call that changes neither the two beneficiaries nor the waterfall. */
  ghost predicate KeepsAhead(s: Store, r: CallResult, planId: PlanId, i: nat, j: nat)
    requires planId in s.plans && Ahead(s.plans[planId], i, j)
  {
    r.Ok? ==>
      && planId in r.value.store.plans
      && Ahead(r.value.store.plans[planId], i, j)
      && r.value.store.plans[planId].beneficiaries[i].email == s.plans[planId].beneficiaries[i].email
  }

  /** The owner's calls that can move or rerank beneficiaries. */
  predicate Reranks(op: Op, planId: PlanId) {
    (op.RemoveBeneficiary? || op.BatchRemove? || op.SetPriority?) && op.planId == planId
  }

  lemma AdditionsKeepAhead(s: Store, c: Context, op: Op, i: nat, j: nat)
    requires (op.AddBeneficiary? || op.BatchAdd?) && op.planId in s.plans && Ahead(s.plans[op.planId], i, j)
    ensures KeepsAhead(s, Invoke(s, c, op), op.planId, i, j)
  {
    if op.AddBeneficiary? {
      AddBeneficiaryShape(s, c, op.owner, op.planId, op.input);
    } else if Invoke(s, c, op).Ok? {
      AddInputsTouchesShares(s.plans[op.planId], op.inputs, |op.inputs|);
    }
  }

  lemma SettingsKeepAhead(s: Store, c: Context, op: Op, i: nat, j: nat)
    requires op.BatchUpdate? || op.SetLendable? || op.EnableWaterfall?
    requires op.planId in s.plans && Ahead(s.plans[op.planId], i, j)
    ensures KeepsAhead(s, Invoke(s, c, op), op.planId, i, j)
  {
  }

  lemma MoneyCallsKeepAhead(s: Store, c: Context, op: Op, i: nat, j: nat)
    requires (op.Deposit? || op.Withdraw?) && op.planId in s.plans && Ahead(s.plans[op.planId], i, j)
    ensures KeepsAhead(s, Invoke(s, c, op), op.planId, i, j)
  {
    if op.Deposit? {
      TransferTouchesBalances(s, op.token, op.caller, Contract, op.amount);
    } else {
      TransferTouchesBalances(s, op.token, Contract, op.caller, op.amount);
    }
  }

  lemma DeactivateKeepsAhead(s: Store, c: Context, owner: Address, planId: PlanId, i: nat, j: nat)
    requires planId in s.plans && Ahead(s.plans[planId], i, j)
    ensures KeepsAhead(s, DeactivateCall(s, c, owner, planId), planId, i, j)
  {
  }

  lemma TransferKeepsAhead(s: Store, c: Context, owner: Address, newOwner: Address, planId: PlanId, i: nat, j: nat)
    requires planId in s.plans && Ahead(s.plans[planId], i, j)
    ensures KeepsAhead(s, TransferOwnershipCall(s, c, owner, newOwner, planId), planId, i, j)
  {
    TransferRelists(s, c, owner, newOwner, planId);
  }

  lemma AutoTriggerKeepsAhead(s: Store, c: Context, planId: PlanId, i: nat, j: nat)
    requires planId in s.plans && Ahead(s.plans[planId], i, j)
    ensures KeepsAhead(s, AutoTriggerCall(s, c, planId), planId, i, j)
  {
  }

  lemma TriggerKeepsAhead(s: Store, c: Context, caller: Address, planId: PlanId, i: nat, j: nat)
    requires planId in s.plans && Ahead(s.plans[planId], i, j)
    ensures KeepsAhead(s, TriggerCall(s, c, caller, planId), planId, i, j)
  {
  }

  lemma StatusCallsKeepAhead(s: Store, c: Context, op: Op, i: nat, j: nat)
    requires op.Deactivate? || op.TransferOwnership? || op.AutoTrigger? || op.Trigger?
    requires op.planId in s.plans && Ahead(s.plans[op.planId], i, j)
    ensures KeepsAhead(s, Invoke(s, c, op), op.planId, i, j)
  {
    match op {
      case Deactivate(owner, planId) => DeactivateKeepsAhead(s, c, owner, planId, i, j);
      case TransferOwnership(owner, newOwner, planId) => TransferKeepsAhead(s, c, owner, newOwner, planId, i, j);
      case AutoTrigger(planId) => AutoTriggerKeepsAhead(s, c, planId, i, j);
      case Trigger(caller, planId) => TriggerKeepsAhead(s, c, caller, planId, i, j);
    }
  }

  lemma LoanCallsKeepAhead(s: Store, c: Context, op: Op, i: nat, j: nat)
    requires (op.Recall? || op.Liquidate?) && op.planId in s.plans && Ahead(s.plans[op.planId], i, j)
    ensures KeepsAhead(s, Invoke(s, c, op), op.planId, i, j)
  {
  }

  /** A claim marks only its own beneficiary, which a recorded one cannot be. */
  lemma ClaimKeepsAhead(s: Store, c: Context, planId: PlanId, entry: ClaimEntry, i: nat, j: nat)
    requires planId in s.plans && Ahead(s.plans[planId], i, j)
    requires Recorded(s, planId, s.plans[planId].beneficiaries[i].email)
    ensures KeepsAhead(s, ClaimCall(s, c, planId, entry), planId, i, j)
  {
    if ClaimCall(s, c, planId, entry).Ok? {
      ClaimShape(s, c, planId, entry);
      ClaimIsNew(s, c, planId, entry);
      var s1, plan := AutoTriggered(s, c, planId), s.plans[planId];
      var index := ClaimTarget(c, planId, plan, entry).value;
      TargetEmail(c, planId, plan, entry);
      RecordPayoutShape(s1, c, planId, plan, entry.email, index, PayoutAmount(s1, planId, plan, index));
    }
  }

  lemma EntryKeepsBeneficiaries(p: BatchProgress, c: Context, planId: PlanId, entry: ClaimEntry)
    requires planId in p.store.plans
    ensures var p' := ClaimOne(p, c, planId, entry);
            && planId in p'.store.plans
            && p'.store.plans[planId] ==
               p.store.plans[planId].(totalAmount := p'.store.plans[planId].totalAmount)
  {
    FindBeneficiaryInBounds(p.store.plans[planId].beneficiaries, entry, 0);
  }

  lemma {:induction false} EntriesKeepBeneficiaries(s: Store, c: Context, planId: PlanId, entries: seq<ClaimEntry>,
                                                    k: nat)
    requires planId in s.plans && k <= |entries|
    ensures var s' := ClaimEach(s, c, planId, entries, k).store;
            && planId in s'.plans
            && s'.plans[planId] == s.plans[planId].(totalAmount := s'.plans[planId].totalAmount)
    decreases k
  {
    if k > 0 {
      EntriesKeepBeneficiaries(s, c, planId, entries, k - 1);
      EntryKeepsBeneficiaries(ClaimEach(s, c, planId, entries, k - 1), c, planId, entries[k - 1]);
    }
  }

  lemma BatchKeepsAhead(s: Store, c: Context, planId: PlanId, entries: seq<ClaimEntry>, i: nat, j: nat)
    requires planId in s.plans && Ahead(s.plans[planId], i, j)
    ensures KeepsAhead(s, BatchClaimCall(s, c, planId, entries), planId, i, j)
  {
    if BatchClaimCall(s, c, planId, entries).Ok? {
      AutoTriggeredKeepsPlan(s, c, planId);
      EntriesKeepBeneficiaries(AutoTriggered(s, c, planId), c, planId, entries, |entries|);
    }
  }

  lemma OwnCallsKeepAhead(s: Store, c: Context, op: Op, planId: PlanId, i: nat, j: nat)
    requires !op.Create? && op.planId == planId && !Reranks(op, planId)
    requires planId in s.plans && Ahead(s.plans[planId], i, j)
    requires Recorded(s, planId, s.plans[planId].beneficiaries[i].email)
    ensures KeepsAhead(s, Invoke(s, c, op), planId, i, j)
  {
    if op.AddBeneficiary? || op.BatchAdd? {
      AdditionsKeepAhead(s, c, op, i, j);
    } else if op.BatchUpdate? || op.SetLendable? || op.EnableWaterfall? {
      SettingsKeepAhead(s, c, op, i, j);
    } else if op.Deposit? || op.Withdraw? {
      MoneyCallsKeepAhead(s, c, op, i, j);
    } else if op.Claim? {
      ClaimKeepsAhead(s, c, planId, op.entry, i, j);
    } else if op.BatchClaim? {
      BatchKeepsAhead(s, c, planId, op.entries, i, j);
    } else if op.Recall? || op.Liquidate? {
      LoanCallsKeepAhead(s, c, op, i, j);
    } else {
      StatusCallsKeepAhead(s, c, op, i, j);
    }
  }

  lemma OtherCallsKeepAhead(s: Store, c: Context, op: Op, planId: PlanId, i: nat, j: nat)
    requires planId in s.plans && Ahead(s.plans[planId], i, j) && WrittenPlan(s, op) != planId
    ensures KeepsAhead(s, Invoke(s, c, op), planId, i, j)
  {
    StepWritesOne(s, c, op);
  }

  lemma StepKeepsBlock(s: Store, c: Context, op: Op, planId: PlanId, email: Email, i: nat, j: nat)
    requires PlansOk(s) && Blocks(s, planId, email, i, j)
    requires Invoke(s, c, op).Ok? ==> !Reranks(op, planId)
    ensures Blocks(Step(s, c, op), planId, email, i, j)
  {
    if Invoke(s, c, op).Ok? {
      StepPaysOnce(s, c, op, planId, email);
      if WrittenPlan(s, op) != planId {
        OtherCallsKeepAhead(s, c, op, planId, i, j);
      } else {
        OwnCallsKeepAhead(s, c, op, planId, i, j);
      }
    }
  }

  // ---------- runs ----------

  /** No accepted call of the run removes or reranks beneficiaries of the plan. */
  ghost predicate AllKeepRanks(s: Store, calls: seq<Event>, planId: PlanId) {
    forall k :: 0 <= k < |calls| && Accepted(s, calls, k) ==> !Reranks(calls[k].1, planId)
  }

  lemma PrefixKeepsRanks(s: Store, calls: seq<Event>, planId: PlanId, n: nat)
    requires n <= |calls| && AllKeepRanks(s, calls, planId)
    ensures AllKeepRanks(s, calls[..n], planId)
  {
    forall k | 0 <= k < n && Accepted(s, calls[..n], k)
      ensures !Reranks(calls[..n][k].1, planId)
    {
      PrefixAccepted(s, calls, n, k);
    }
  }

  lemma {:induction false} RunKeepsBlock(s: Store, calls: seq<Event>, planId: PlanId, email: Email, i: nat, j: nat)
    requires Valid(s) && Blocks(s, planId, email, i, j) && AllKeepRanks(s, calls, planId)
    ensures Blocks(Run(s, calls), planId, email, i, j)
  {
    if calls != [] {
      var n := |calls| - 1;
      PrefixKeepsRanks(s, calls, planId, n);
      RunKeepsBlock(s, calls[..n], planId, email, i, j);
      RunKeepsValid(s, calls[..n]);
      assert Invoke(Run(s, calls[..n]), calls[n].0, calls[n].1).Ok? ==> Accepted(s, calls, n);
      StepKeepsBlock(Run(s, calls[..n]), calls[n].0, calls[n].1, planId, email, i, j);
    }
  }

  /** No single claim for beneficiary `j` of the plan is accepted on this storage. */
  ghost predicate ClaimsRefused(s: Store, planId: PlanId, j: nat) {
    forall c, entry :: planId in s.plans && ClaimCall(s, c, planId, entry).Ok? ==>
      ClaimTarget(c, planId, s.plans[planId], entry) != Ok(j)
  }

  /** Once a beneficiary is on record without its mark, whoever ranks behind it never claims alone again. */
  lemma BlockIsFinal(s: Store, calls: seq<Event>, planId: PlanId, email: Email, i: nat, j: nat)
    requires Valid(s) && Blocks(s, planId, email, i, j) && AllKeepRanks(s, calls, planId)
    ensures ClaimsRefused(Run(s, calls), planId, j)
  {
    var s' := Run(s, calls);
    RunKeepsBlock(s, calls, planId, email, i, j);
    RunKeepsValid(s, calls);
    forall c, entry | ClaimCall(s', c, planId, entry).Ok?
      ensures ClaimTarget(c, planId, s'.plans[planId], entry) != Ok(j)
    {
      BlockedCannotClaim(s', c, planId, entry, i, j);
    }
  }

  // ---------- single claims and batches ----------

  /**
   When a batch records the claim of a beneficiary of a waterfall plan, nobody ranked behind it is ever paid by a
   single claim in any later run, unless the owner removes beneficiaries or changes a rank.
   */
  lemma BatchBlocksLowerRanks(s: Store, c: Context, planId: PlanId, entries: seq<ClaimEntry>, i: nat, j: nat,
                              calls: seq<Event>)
    requires Valid(s) && planId in s.plans && Ahead(s.plans[planId], i, j)
    requires BatchClaimCall(s, c, planId, entries).Ok?
    requires var s' := BatchClaimCall(s, c, planId, entries).value.store;
             Recorded(s', planId, s.plans[planId].beneficiaries[i].email) && AllKeepRanks(s', calls, planId)
    ensures ClaimsRefused(Run(BatchClaimCall(s, c, planId, entries).value.store, calls), planId, j)
  {
    var s' := BatchClaimCall(s, c, planId, entries).value.store;
    BatchKeepsAhead(s, c, planId, entries, i, j);
    BatchClaimKeepsValid(s, c, planId, entries);
    BlockIsFinal(s', calls, planId, s.plans[planId].beneficiaries[i].email, i, j);
  }

  /** A single claim that gets its record also gets its mark, so it blocks nobody. */
  lemma ClaimUnblocks(s: Store, c: Context, planId: PlanId, entry: ClaimEntry, j: nat)
    requires ClaimCall(s, c, planId, entry).Ok?
    requires Recorded(ClaimCall(s, c, planId, entry).value.store, planId, entry.email)
    ensures planId in s.plans && planId in ClaimCall(s, c, planId, entry).value.store.plans
    ensures var i := ClaimTarget(c, planId, s.plans[planId], entry);
            i.Ok? && !Ahead(ClaimCall(s, c, planId, entry).value.store.plans[planId], i.value, j)
  {
    ClaimShape(s, c, planId, entry);
    ClaimIsNew(s, c, planId, entry);
    AutoTriggeredKeepsClaims(s, c, planId);
    var s1, plan := AutoTriggered(s, c, planId), s.plans[planId];
    var index := ClaimTarget(c, planId, plan, entry).value;
    var payout := PayoutAmount(s1, planId, plan, index);
    RecordPayoutShape(s1, c, planId, plan, entry.email, index, payout);
    RecordPayoutClaims(s1, c, planId, plan, entry.email, index, payout);
  }
}
