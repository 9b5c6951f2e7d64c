/**
 Who a claim goes to, when it is accepted and what it does, in the fields of storage: the first beneficiary under the
 e-mail whose stored code the supplied one matches, for single claims and for the entries of a batch.
 */
module ClaimTargets {
  import opened MachineInts
  import opened ContractErrors
  import opened PlanTypes
  import opened PlanLedger
  import opened PlanInvariants
  import opened PlanRuns
  import opened PlanClaims

  // ---------- the beneficiary of a claim ----------

  /** The entry carries this beneficiary's e-mail and its claim code. */
  predicate Named(bens: seq<Beneficiary>, entry: ClaimEntry, i: nat)
    requires i < |bens|
  {
    bens[i].email == entry.email && i in entry.codeMatches
  }

  /** The entry names nobody before beneficiary `i`, and its code is well-formed. */
  ghost predicate FirstNamed(bens: seq<Beneficiary>, entry: ClaimEntry, i: nat) {
    && i < |bens| && entry.codeInRange && Named(bens, entry, i)
    && forall k :: 0 <= k < i ==> !Named(bens, entry, k)
  }

  /** Somebody is stored under the entry's e-mail. */
  ghost predicate EmailKnown(bens: seq<Beneficiary>, entry: ClaimEntry, from: nat) {
    exists k :: from <= k < |bens| && bens[k].email == entry.email
  }

  lemma {:induction false} FoundFrom(bens: seq<Beneficiary>, entry: ClaimEntry, from: nat)
    ensures var r := FindBeneficiary(bens, entry, from);
            && (r.Ok? ==>
                  && from <= r.value < |bens| && entry.codeInRange && Named(bens, entry, r.value)
                  && forall k :: from <= k < r.value ==> !Named(bens, entry, k))
            && (r.Err? && entry.codeInRange ==>
                  r.error == BeneficiaryNotFound && forall k :: from <= k < |bens| ==> !Named(bens, entry, k))
            && (!entry.codeInRange ==>
                  r == Err(if EmailKnown(bens, entry, from) then InvalidClaimCodeRange else BeneficiaryNotFound))
    decreases |bens| - from
  {
    if from < |bens| {
      FoundFrom(bens, entry, from + 1);
      if bens[from].email == entry.email {
        assert EmailKnown(bens, entry, from);
      } else {
        assert EmailKnown(bens, entry, from) <==> EmailKnown(bens, entry, from + 1);
      }
    }
  }

  /** The search ends at beneficiary `i` exactly when the entry names it and nobody before it. */
  lemma FoundIff(bens: seq<Beneficiary>, entry: ClaimEntry, i: nat)
    ensures FindBeneficiary(bens, entry, 0) == Ok(i) <==> FirstNamed(bens, entry, i)
  {
    FoundFrom(bens, entry, 0);
  }

  /** It ends at nobody when e-mail and code match nowhere together; a malformed code matters at a known e-mail. */
  lemma NotFoundIff(bens: seq<Beneficiary>, entry: ClaimEntry)
    ensures FindBeneficiary(bens, entry, 0) == Err(InvalidClaimCodeRange) <==>
            !entry.codeInRange && EmailKnown(bens, entry, 0)
    ensures FindBeneficiary(bens, entry, 0) == Err(BeneficiaryNotFound) <==>
            if entry.codeInRange then forall k :: 0 <= k < |bens| ==> !Named(bens, entry, k)
            else !EmailKnown(bens, entry, 0)
  {
    FoundFrom(bens, entry, 0);
  }

  // ---------- when claims are open ----------

  /** Thirty, ninety and three hundred and sixty-five days in seconds. */
  function Period(distribution: DistributionMethod): nat {
    match distribution
    case LumpSum => 0
    case Monthly => 2_592_000
    case Quarterly => 7_776_000
    case Yearly => 31_536_000
  }

  /** Triggered already, or by the conditions that the call finds. */
  predicate TriggeredBy(s: Store, c: Context, planId: PlanId) {
    planId in s.triggers || (planId in c.conditionsMet && planId in s.plans && s.plans[planId].isActive)
  }

  predicate IsOpen(s: Store, c: Context, planId: PlanId)
    requires planId in s.plans
  {
    || TriggeredBy(s, c, planId)
    || c.now >= s.plans[planId].createdAt + Period(s.plans[planId].distribution)
  }

  lemma TriggeredAfterIff(s: Store, c: Context, planId: PlanId)
    ensures planId in AutoTriggered(s, c, planId).triggers <==> TriggeredBy(s, c, planId)
  {
  }

  lemma OpenIff(s: Store, c: Context, planId: PlanId)
    requires planId in s.plans
    ensures ClaimWindow(AutoTriggered(s, c, planId), c, planId, s.plans[planId]) == Pass <==> IsOpen(s, c, planId)
  {
    TriggeredAfterIff(s, c, planId);
  }

  // ---------- what a claim is worth ----------

  /** The floor of the share, as long as basis points stay within the whole. */
  lemma ShareFloored(plan: Plan, i: nat)
    requires AllocationOk(plan) && i < |plan.beneficiaries|
    ensures var share, exact := Entitlement(plan.totalAmount, plan.beneficiaries[i].allocationBp),
                                plan.totalAmount * plan.beneficiaries[i].allocationBp;
            share * 10_000 <= exact < (share + 1) * 10_000 && share <= plan.totalAmount
  {
    ShareWithinPlan(plan, i);
  }

  /** A tenth of the balance is the most that moves shortly after an emergency access. */
  lemma EmergencyIff(plan: Plan, amount: nat)
    ensures amount <= EmergencyLimit(plan) <==> amount * 10 <= plan.totalAmount
  {
  }

  /** The share, or what is left of an open settlement if that is less. */
  function Worth(s: Store, planId: PlanId, i: nat): u64
    requires planId in s.plans && i < |s.plans[planId].beneficiaries|
  {
    var share := Entitlement(s.plans[planId].totalAmount, s.plans[planId].beneficiaries[i].allocationBp);
    var exit := SettlementOf(s, planId, i);
    if 0 < exit < share then exit else share
  }

  /** Everybody of higher rank, if ranks count, has claimed. */
  predicate InTurn(plan: Plan, i: nat)
    requires i < |plan.beneficiaries|
  {
    plan.waterfallEnabled ==>
      forall k :: 0 <= k < |plan.beneficiaries| ==>
        var b := plan.beneficiaries[k];
        b.priority == 0 || b.priority >= plan.beneficiaries[i].priority || b.isClaimed
  }

  // ---------- single claims ----------

  /** Everything that a claim of beneficiary `i` has to meet. */
  predicate ClaimAllowed(s: Store, c: Context, planId: PlanId, entry: ClaimEntry, i: nat)
    requires planId in s.plans && i < |s.plans[planId].beneficiaries|
  {
    var plan, worth := s.plans[planId], Worth(s, planId, i);
    && !c.paused && entry.claimer in c.kycApproved && entry.attemptAllowed
    && plan.isActive && planId !in c.frozen && IsOpen(s, c, planId)
    && !Recorded(s, planId, entry.email)
    && (planId, i) !in c.frozenBeneficiaries && InTurn(plan, i)
    && worth > 0
    && (planId in c.emergencyActive ==> worth * 10 <= plan.totalAmount)
    && (TriggeredBy(s, c, planId) || worth + plan.totalLoaned <= plan.totalAmount)
  }

  lemma TargetIff(c: Context, planId: PlanId, plan: Plan, entry: ClaimEntry, i: nat)
    requires |plan.beneficiaries| <= MAX_BENEFICIARIES && FirstNamed(plan.beneficiaries, entry, i)
    ensures ClaimTarget(c, planId, plan, entry) == Ok(i) <==> (planId, i) !in c.frozenBeneficiaries && InTurn(plan, i)
    ensures ClaimTarget(c, planId, plan, entry).Ok? ==> ClaimTarget(c, planId, plan, entry) == Ok(i)
  {
    assert plan.beneficiaries[..|plan.beneficiaries|] == plan.beneficiaries;
    FoundIff(plan.beneficiaries, entry, i);
  }

  lemma PayoutIff(s: Store, s1: Store, c: Context, planId: PlanId, entry: ClaimEntry, i: nat)
    requires planId in s.plans && AllocationOk(s.plans[planId]) && i < |s.plans[planId].beneficiaries|
    requires InTurn(s.plans[planId], i) && s1.settlements == s.settlements
    ensures var plan, worth := s.plans[planId], Worth(s, planId, i);
            && PayoutAmount(s1, planId, plan, i) == worth
            && (Payout(s1, c, planId, plan, entry, i).Ok? <==>
                && worth > 0
                && (planId in c.emergencyActive ==> worth * 10 <= plan.totalAmount)
                && (planId in s1.triggers || worth + plan.totalLoaned <= plan.totalAmount))
  {
    ShareWithinPlan(s.plans[planId], i);
    EmergencyIff(s.plans[planId], Worth(s, planId, i));
  }

  /** The claim once its plan, claimer and attempt pass. */
  lemma OpenClaimIff(s: Store, c: Context, planId: PlanId, entry: ClaimEntry, i: nat)
    requires planId in s.plans && AllocationOk(s.plans[planId]) && FirstNamed(s.plans[planId].beneficiaries, entry, i)
    ensures var plan, s1 := s.plans[planId], AutoTriggered(s, c, planId);
            OpenClaimCall(s1, c, planId, plan, entry).Ok? <==>
            && IsOpen(s, c, planId) && !Recorded(s, planId, entry.email)
            && (planId, i) !in c.frozenBeneficiaries && InTurn(plan, i)
            && Payout(s1, c, planId, plan, entry, i).Ok?
  {
    OpenIff(s, c, planId);
    TargetIff(c, planId, s.plans[planId], entry, i);
  }

  /** A claim that names beneficiary `i` first is accepted exactly when it meets all of that. */
  lemma ClaimAcceptedIff(s: Store, c: Context, planId: PlanId, entry: ClaimEntry, i: nat)
    requires Valid(s) && planId in s.plans && FirstNamed(s.plans[planId].beneficiaries, entry, i)
    ensures ClaimCall(s, c, planId, entry).Ok? <==> ClaimAllowed(s, c, planId, entry, i)
  {
    var s1 := AutoTriggered(s, c, planId);
    OpenClaimIff(s, c, planId, entry, i);
    TriggeredAfterIff(s, c, planId);
    if InTurn(s.plans[planId], i) {
      PayoutIff(s, s1, c, planId, entry, i);
    }
  }

  /** And no claim is accepted that names nobody by e-mail and code. */
  lemma ClaimNamesSomebody(s: Store, c: Context, planId: PlanId, entry: ClaimEntry) returns (i: nat)
    requires Valid(s) && ClaimCall(s, c, planId, entry).Ok?
    ensures planId in s.plans && FirstNamed(s.plans[planId].beneficiaries, entry, i)
    ensures ClaimAllowed(s, c, planId, entry, i)
  {
    ClaimShape(s, c, planId, entry);
    var plan := s.plans[planId];
    i := ClaimTarget(c, planId, plan, entry).value;
    assert plan.beneficiaries[..|plan.beneficiaries|] == plan.beneficiaries;
    FoundIff(plan.beneficiaries, entry, i);
    ClaimAcceptedIff(s, c, planId, entry, i);
  }

  /** The trigger record that the call leaves: the stored one, or a new one of this moment. */
  function TriggersAfter(s: Store, c: Context, planId: PlanId): map<PlanId, TriggerInfo>
    requires planId in s.plans
  {
    if planId !in s.triggers && TriggeredBy(s, c, planId) then
      s.triggers[planId := TriggerInfo(c.now, true, false, false, s.plans[planId].totalLoaned, 0, 0)]
    else s.triggers
  }

  /** The lists with the plan in them, once. */
  predicate Listed(before: seq<PlanId>, after: seq<PlanId>, planId: PlanId) {
    after == if planId in before then before else before + [planId]
  }

  /** A claim record of beneficiary `i`, made now, and the plan among the claimed ones. */
  ghost predicate ClaimsWith(s: Store, s': Store, c: Context, planId: PlanId, email: Email, i: nat)
    requires planId in s.plans
  {
    && s'.claims.records == s.claims.records[(planId, email) := ClaimRecord(i, c.now)]
    && Listed(s.claims.all, s'.claims.all, planId)
    && forall user ::
         if user == s.plans[planId].owner
         then Listed(ClaimedPlansOf(s.claims, user), ClaimedPlansOf(s'.claims, user), planId)
         else ClaimedPlansOf(s'.claims, user) == ClaimedPlansOf(s.claims, user)
  }

  lemma WithClaimIs(s: Store, c: Context, planId: PlanId, email: Email, i: nat)
    requires planId in s.plans
    ensures var s' := WithClaim(s, planId, s.plans[planId].owner, email, ClaimRecord(i, c.now));
            ClaimsWith(s, s', c, planId, email, i)
  {
  }

  /** What an accepted claim of beneficiary `i` leaves: who is paid, marked and recorded, and what stays open. */
  ghost predicate ClaimDone(s: Store, e: Effect, c: Context, planId: PlanId, entry: ClaimEntry, i: nat)
    requires planId in s.plans && i < |s.plans[planId].beneficiaries|
  {
    var plan, worth, exit := s.plans[planId], Worth(s, planId, i), SettlementOf(s, planId, i);
    var b := plan.beneficiaries[i];
    && worth <= plan.totalAmount
    && e.payments == [Payment(planId, entry.email, b.allocationBp, worth)]
    && e.reply == Done && e.writtenOff == 0
    && e.store == s.(plans := e.store.plans, triggers := TriggersAfter(s, c, planId),
                     settlements := e.store.settlements, claims := e.store.claims)
    && e.store.plans == s.plans[planId := plan.(
                          totalAmount := plan.totalAmount - worth,
                          beneficiaries := if exit <= worth then plan.beneficiaries[i := b.(isClaimed := true)]
                                           else plan.beneficiaries)]
    && (exit <= worth ==> ClaimsWith(s, e.store, c, planId, entry.email, i))
    && (exit > worth ==> e.store.claims == s.claims)
    && e.store.settlements == if exit == 0 then s.settlements
                              else if exit <= worth then s.settlements - {(planId, i)}
                              else s.settlements[(planId, i) := exit - worth]
  }

  lemma AutoTriggeredIs(s: Store, c: Context, planId: PlanId)
    requires planId in s.plans
    ensures var s1 := AutoTriggered(s, c, planId);
            && s1.triggers == TriggersAfter(s, c, planId)
            && s1 == s.(plans := s1.plans, triggers := s1.triggers)
            && planId in s1.plans && s1.plans == s.plans[planId := s1.plans[planId]]
            && s1.plans[planId].owner == s.plans[planId].owner
  {
    assert s.plans == s.plans[planId := s.plans[planId]];
  }

  lemma RecordPayoutSettles(s: Store, c: Context, planId: PlanId, plan: Plan, email: Email, i: nat, payout: u64)
    requires i < |plan.beneficiaries|
    ensures var exit := SettlementOf(s, planId, i);
            RecordPayout(s, c, planId, plan, email, i, payout).settlements ==
            if exit == 0 then s.settlements
            else if exit <= payout then s.settlements - {(planId, i)}
            else s.settlements[(planId, i) := exit - payout]
  {
    var exit := SettlementOf(s, planId, i);
    var left: u64 := SaturatingSub(exit, payout);
    var s' := RecordPayout(s, c, planId, plan, email, i, payout);
    if exit > 0 {
      assert s'.settlements == WithSettlement(s, planId, i, left).settlements;
    }
  }

  lemma PaidPlanIs(plan: Plan, i: nat, payout: u64, final: bool)
    requires i < |plan.beneficiaries| && payout <= plan.totalAmount
    ensures PaidPlan(plan, i, payout, final) ==
            plan.(totalAmount := plan.totalAmount - payout,
                  beneficiaries := if final then plan.beneficiaries[i := plan.beneficiaries[i].(isClaimed := true)]
                                   else plan.beneficiaries)
  {
    assert plan.beneficiaries[i := plan.beneficiaries[i]] == plan.beneficiaries;
  }

  lemma PayoutDone(s: Store, s1: Store, r: CallResult, c: Context, planId: PlanId, entry: ClaimEntry, i: nat)
    requires planId in s.plans && AllocationOk(s.plans[planId]) && i < |s.plans[planId].beneficiaries|
    requires s1 == s.(plans := s1.plans, triggers := TriggersAfter(s, c, planId))
    requires planId in s1.plans && s1.plans == s.plans[planId := s1.plans[planId]]
    requires s1.plans[planId].owner == s.plans[planId].owner
    requires PayoutAmount(s1, planId, s.plans[planId], i) == Worth(s, planId, i)
    requires r == Payout(s1, c, planId, s.plans[planId], entry, i) && r.Ok?
    ensures ClaimDone(s, r.value, c, planId, entry, i)
  {
    var plan, worth := s.plans[planId], Worth(s, planId, i);
    ShareWithinPlan(plan, i);
    RecordPayoutShape(s1, c, planId, plan, entry.email, i, worth);
    RecordPayoutClaims(s1, c, planId, plan, entry.email, i, worth);
    RecordPayoutSettles(s1, c, planId, plan, entry.email, i, worth);
    PaidPlanIs(plan, i, worth, SettlementOf(s, planId, i) <= worth);
    WithClaimIs(s1, c, planId, entry.email, i);
  }

  lemma ClaimEffect(s: Store, c: Context, planId: PlanId, entry: ClaimEntry) returns (i: nat)
    requires Valid(s) && ClaimCall(s, c, planId, entry).Ok?
    ensures planId in s.plans && FirstNamed(s.plans[planId].beneficiaries, entry, i)
    ensures ClaimDone(s, ClaimCall(s, c, planId, entry).value, c, planId, entry, i)
  {
    i := ClaimNamesSomebody(s, c, planId, entry);
    var s1, plan := AutoTriggered(s, c, planId), s.plans[planId];
    ClaimShape(s, c, planId, entry);
    TargetIff(c, planId, plan, entry, i);
    AutoTriggeredIs(s, c, planId);
    PayoutIff(s, s1, c, planId, entry, i);
    PayoutDone(s, s1, ClaimCall(s, c, planId, entry), c, planId, entry, i);
  }

  // ---------- batches ----------

  /** A batch as a whole asks only for these. */
  lemma BatchAcceptedIff(s: Store, c: Context, planId: PlanId, entries: seq<ClaimEntry>)
    ensures BatchClaimCall(s, c, planId, entries).Ok? <==>
            && !c.paused && |entries| <= 20
            && planId in s.plans && s.plans[planId].isActive && planId !in c.frozen && IsOpen(s, c, planId)
  {
    if planId in s.plans {
      OpenIff(s, c, planId);
    }
  }

  /** What an entry that names beneficiary `i` has to meet inside a batch. */
  predicate EntryAllowed(s: Store, c: Context, planId: PlanId, entry: ClaimEntry, i: nat)
    requires planId in s.plans && i < |s.plans[planId].beneficiaries|
  {
    var plan := s.plans[planId];
    var share := Entitlement(plan.totalAmount, plan.beneficiaries[i].allocationBp);
    && entry.attemptAllowed && entry.claimer in c.kycApproved && !Recorded(s, planId, entry.email)
    && (planId in c.emergencyActive ==> share * 10 <= plan.totalAmount)
  }

  /** An entry that is paid: the share of beneficiary `i`, recorded under the e-mail, with no mark. */
  ghost predicate EntryDone(p: BatchProgress, p': BatchProgress, c: Context, planId: PlanId, entry: ClaimEntry, i: nat)
    requires planId in p.store.plans && i < |p.store.plans[planId].beneficiaries|
  {
    var s, s', plan := p.store, p'.store, p.store.plans[planId];
    var share := Entitlement(plan.totalAmount, plan.beneficiaries[i].allocationBp);
    && share <= plan.totalAmount
    && p'.payments == p.payments + [Payment(planId, entry.email, plan.beneficiaries[i].allocationBp, share)]
    && p'.success == p.success + 1 && p'.fail == p.fail
    && s' == s.(plans := s.plans[planId := plan.(totalAmount := plan.totalAmount - share)], claims := s'.claims)
    && ClaimsWith(s, s', c, planId, entry.email, i)
  }

  /** An entry that is not paid only counts: twice if its code is malformed where its e-mail is known. */
  ghost predicate EntryFailed(p: BatchProgress, p': BatchProgress, c: Context, planId: PlanId, entry: ClaimEntry)
    requires planId in p.store.plans
  {
    var checked := entry.attemptAllowed && entry.claimer in c.kycApproved && !Recorded(p.store, planId, entry.email);
    var twice := checked && !entry.codeInRange && EmailKnown(p.store.plans[planId].beneficiaries, entry, 0);
    p' == p.(fail := p.fail + if twice then 2 else 1)
  }

  lemma PayEntryIs(p: BatchProgress, c: Context, planId: PlanId, entry: ClaimEntry, i: nat)
    requires planId in p.store.plans && AllocationOk(p.store.plans[planId]) && i < |p.store.plans[planId].beneficiaries|
    requires entry.attemptAllowed && entry.claimer in c.kycApproved && !Recorded(p.store, planId, entry.email)
    ensures var p' := PayEntry(p, c, planId, entry.email, i);
            if EntryAllowed(p.store, c, planId, entry, i) then EntryDone(p, p', c, planId, entry, i)
            else p' == p.(fail := p.fail + 1)
  {
    var plan := p.store.plans[planId];
    var share := Entitlement(plan.totalAmount, plan.beneficiaries[i].allocationBp);
    ShareWithinPlan(plan, i);
    EmergencyIff(plan, share);
    var paid := WithPlan(p.store, planId, plan.(totalAmount := SaturatingSub(plan.totalAmount, share)));
    WithClaimIs(paid, c, planId, entry.email, i);
  }

  /** Each entry of a batch is paid exactly when it names somebody and meets its checks. */
  lemma EntryEffect(p: BatchProgress, c: Context, planId: PlanId, entry: ClaimEntry)
    requires planId in p.store.plans && AllocationOk(p.store.plans[planId])
    ensures var p', bens := ClaimOne(p, c, planId, entry), p.store.plans[planId].beneficiaries;
            || (exists i: nat :: FirstNamed(bens, entry, i) && EntryAllowed(p.store, c, planId, entry, i)
                            && EntryDone(p, p', c, planId, entry, i))
            || (&& (forall i: nat :: FirstNamed(bens, entry, i) ==> !EntryAllowed(p.store, c, planId, entry, i))
                && EntryFailed(p, p', c, planId, entry))
  {
    var bens := p.store.plans[planId].beneficiaries;
    NotFoundIff(bens, entry);
    FoundFrom(bens, entry, 0);
    var found := FindBeneficiary(bens, entry, 0);
    if found.Ok? {
      FoundIff(bens, entry, found.value);
      if entry.attemptAllowed && entry.claimer in c.kycApproved && !Recorded(p.store, planId, entry.email) {
        PayEntryIs(p, c, planId, entry, found.value);
      }
    }
    forall i: nat | FirstNamed(bens, entry, i)
      ensures found == Ok(i)
    {
      FoundIff(bens, entry, i);
    }
  }
}
