/** What nobody can do to a plan without its owner. */
module PlanStanding {
  import opened PlanTypes
  import opened PlanLedger
  import opened PlanInvariants
  import opened PlanRuns
  import opened PlanTokens
  import opened OwnerCalls
  import opened MoneyCalls
  import opened ClaimTargets
  import RankBlocking

  /** The same heirs in the same order, with marks that only join. */
  ghost predicate SameHeirs(a: seq<Beneficiary>, b: seq<Beneficiary>) {
    |a| == |b| && forall i :: 0 <= i < |a| ==> SameHeir(a[i], b[i])
  }

  predicate SameHeir(a: Beneficiary, b: Beneficiary) {
    b == a.(isClaimed := b.isClaimed) && (a.isClaimed ==> b.isClaimed)
  }

  /** The owner's terms are as they were; balance and loans can only have gone down. */
  ghost predicate Stands(plan: Plan, plan': Plan) {
    && SameHeirs(plan.beneficiaries, plan'.beneficiaries)
    && plan'.totalAmount <= plan.totalAmount && plan'.totalLoaned <= plan.totalLoaned
    && plan' == plan.(beneficiaries := plan'.beneficiaries, totalAmount := plan'.totalAmount,
                      totalLoaned := plan'.totalLoaned, isLendable := plan'.isLendable)
    && (plan'.isLendable ==> plan.isLendable)
  }

  ghost predicate PlanStands(s: Store, r: CallResult, planId: PlanId)
    requires planId in s.plans
  {
    r.Ok? ==> planId in r.value.store.plans && Stands(s.plans[planId], r.value.store.plans[planId])
  }

  lemma StandsChains(a: Plan, b: Plan, c: Plan)
    requires Stands(a, b) && Stands(b, c)
    ensures Stands(a, c)
  {
    forall i | 0 <= i < |a.beneficiaries|
      ensures SameHeir(a.beneficiaries[i], c.beneficiaries[i])
    {
      assert SameHeir(a.beneficiaries[i], b.beneficiaries[i]) && SameHeir(b.beneficiaries[i], c.beneficiaries[i]);
    }
  }

  lemma ClaimLeavesStanding(s: Store, c: Context, planId: PlanId, entry: ClaimEntry)
    requires Valid(s) && planId in s.plans
    ensures PlanStands(s, ClaimCall(s, c, planId, entry), planId)
  {
    if ClaimCall(s, c, planId, entry).Ok? {
      var i := ClaimEffect(s, c, planId, entry);
    }
  }

  lemma BatchLeavesStanding(s: Store, c: Context, planId: PlanId, entries: seq<ClaimEntry>)
    requires Valid(s) && planId in s.plans
    ensures PlanStands(s, BatchClaimCall(s, c, planId, entries), planId)
  {
    if BatchClaimCall(s, c, planId, entries).Ok? {
      var s1 := AutoTriggered(s, c, planId);
      AutoTriggeredKeepsPlan(s, c, planId);
      RankBlocking.EntriesKeepBeneficiaries(s1, c, planId, entries, |entries|);
      BatchLowersBalance(s1, c, planId, entries, |entries|);
      TriggerOnlyUnlends(s, c, planId);
    }
  }

  lemma TriggerOnlyUnlends(s: Store, c: Context, planId: PlanId)
    requires planId in s.plans
    ensures var s1 := AutoTriggered(s, c, planId);
            planId in s1.plans && (s1.plans[planId].isLendable ==> s.plans[planId].isLendable)
  {
  }

  lemma {:induction false} BatchLowersBalance(s: Store, c: Context, planId: PlanId, entries: seq<ClaimEntry>, k: nat)
    requires planId in s.plans && k <= |entries|
    ensures var s' := ClaimEach(s, c, planId, entries, k).store;
            planId in s'.plans && s'.plans[planId].totalAmount <= s.plans[planId].totalAmount
    decreases k
  {
    if k > 0 {
      var p := ClaimEach(s, c, planId, entries, k - 1);
      BatchLowersBalance(s, c, planId, entries, k - 1);
      FindBeneficiaryInBounds(p.store.plans[planId].beneficiaries, entries[k - 1], 0);
    }
  }

  lemma LoanCallLeavesStanding(s: Store, c: Context, op: Op)
    requires (op.Recall? || op.Liquidate?) && op.planId in s.plans
    ensures PlanStands(s, Invoke(s, c, op), op.planId)
  {
    if op.Recall? {
      RecallEffect(s, c, op.planId, op.amount);
    } else {
      LiquidationEffect(s, c, op.planId);
    }
  }

  lemma TriggerLeavesStanding(s: Store, c: Context, op: Op)
    requires (op.AutoTrigger? || op.Trigger?) && op.planId in s.plans
    ensures PlanStands(s, Invoke(s, c, op), op.planId)
  {
    if op.Trigger? {
      TriggerEffect(s, c, op.caller, op.planId);
    } else {
      AutoTriggerEffect(s, c, op.planId);
    }
  }

  lemma CallElsewhereLeavesStanding(s: Store, c: Context, op: Op, planId: PlanId)
    requires PlansOk(s) && planId in s.plans && (op.Create? || op.planId != planId)
    ensures PlanStands(s, Invoke(s, c, op), planId)
  {
    StepWritesOne(s, c, op);
    StandsStill(s.plans[planId]);
    if Invoke(s, c, op).Ok? {
      assert planId != WrittenPlan(s, op);
      assert Step(s, c, op).plans[planId] == s.plans[planId];
    }
  }

  lemma StandsStill(plan: Plan)
    ensures Stands(plan, plan)
  {
  }

  lemma StepLeavesStanding(s: Store, c: Context, op: Op, planId: PlanId)
    requires Valid(s) && planId in s.plans
    requires Invoke(s, c, op).Ok? && IsOwnerCall(op) && op.planId == planId ==> Signer(op) != s.plans[planId].owner
    ensures PlanStands(s, Invoke(s, c, op), planId)
  {
    if op.Create? || op.planId != planId {
      CallElsewhereLeavesStanding(s, c, op, planId);
    } else if IsOwnerCall(op) {
      OnlyTheOwner(s, c, op);
    } else if op.Claim? {
      ClaimLeavesStanding(s, c, planId, op.entry);
    } else if op.BatchClaim? {
      BatchLeavesStanding(s, c, planId, op.entries);
    } else if op.Recall? || op.Liquidate? {
      LoanCallLeavesStanding(s, c, op);
    } else {
      TriggerLeavesStanding(s, c, op);
    }
  }

  /** No accepted call of the run is signed by this owner for the plan. */
  ghost predicate WithoutOwner(s: Store, calls: seq<Event>, planId: PlanId, owner: Address) {
    forall i :: 0 <= i < |calls| && Accepted(s, calls, i) ==>
      !(IsOwnerCall(calls[i].1) && calls[i].1.planId == planId && Signer(calls[i].1) == owner)
  }

  lemma PrefixWithoutOwner(s: Store, calls: seq<Event>, planId: PlanId, owner: Address, n: nat)
    requires n <= |calls| && WithoutOwner(s, calls, planId, owner)
    ensures WithoutOwner(s, calls[..n], planId, owner)
  {
    forall i | 0 <= i < n && Accepted(s, calls[..n], i)
      ensures !(IsOwnerCall(calls[..n][i].1) && calls[..n][i].1.planId == planId && Signer(calls[..n][i].1) == owner)
    {
      PrefixAccepted(s, calls, n, i);
    }
  }

  /**
   Over every run in which the owner does nothing with the plan: whatever everybody else and the admin do, its owner,
   heirs, shares, ranks, terms and status stay, and its balance and loans never grow.
   */
  lemma {:induction false} PlanStandsWithoutItsOwner(s: Store, calls: seq<Event>, planId: PlanId)
    requires Valid(s) && planId in s.plans && WithoutOwner(s, calls, planId, s.plans[planId].owner)
    ensures planId in Run(s, calls).plans && Stands(s.plans[planId], Run(s, calls).plans[planId])
  {
    if calls == [] {
    } else {
      var n := |calls| - 1;
      var before, c, op := Run(s, calls[..n]), calls[n].0, calls[n].1;
      PrefixWithoutOwner(s, calls, planId, s.plans[planId].owner, n);
      PlanStandsWithoutItsOwner(s, calls[..n], planId);
      RunKeepsValid(s, calls[..n]);
      assert Invoke(before, c, op).Ok? ==> Accepted(s, calls, n);
      StepLeavesStanding(before, c, op, planId);
      if Invoke(before, c, op).Ok? {
        StandsChains(s.plans[planId], before.plans[planId], Run(s, calls).plans[planId]);
      }
    }
  }
}
