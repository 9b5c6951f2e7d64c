/**
 What a batch of claims leaves unchecked. A single claim looks at the freeze of the beneficiary, its rank and the
 liquidity of the plan; a batch looks at none of them.
 */
module BatchClaims {
  import opened MachineInts
  import opened ContractErrors
  import opened PlanTypes
  import opened PlanLedger
  import opened PlanInvariants
  import opened PlanRuns
  import opened PlanTokens
  import opened PlanLending

  /** What a caller can check before a batch to know that an entry will be paid. */
  predicate EntryPays(s: Store, c: Context, planId: PlanId, entry: ClaimEntry) {
    && entry.attemptAllowed && entry.claimer in c.kycApproved
    && planId in s.plans && !Recorded(s, planId, entry.email)
    && Located(s.plans[planId], entry)
    && (planId in c.emergencyActive ==> ShareOf(s.plans[planId], entry) <= EmergencyLimit(s.plans[planId]))
  }

  predicate Located(plan: Plan, entry: ClaimEntry) {
    FindBeneficiary(plan.beneficiaries, entry, 0).Ok?
  }

  function IndexOf(plan: Plan, entry: ClaimEntry): (index: nat)
    requires Located(plan, entry)
    ensures index < |plan.beneficiaries|
  {
    FindBeneficiaryInBounds(plan.beneficiaries, entry, 0);
    FindBeneficiary(plan.beneficiaries, entry, 0).value
  }

  /** The located beneficiary's share of the balance. */
  function ShareOf(plan: Plan, entry: ClaimEntry): u64
    requires Located(plan, entry)
  {
    Entitlement(plan.totalAmount, plan.beneficiaries[IndexOf(plan, entry)].allocationBp)
  }

  /** An entry is paid exactly then, and it is paid its share; otherwise it only counts as failed. */
  lemma EntryPaidIff(p: BatchProgress, c: Context, planId: PlanId, entry: ClaimEntry)
    requires planId in p.store.plans
    ensures var p', plan := ClaimOne(p, c, planId, entry), p.store.plans[planId];
            if EntryPays(p.store, c, planId, entry)
            then && p'.payments == p.payments + [Payment(planId, entry.email,
                                                         plan.beneficiaries[IndexOf(plan, entry)].allocationBp,
                                                         ShareOf(plan, entry))]
                 && p'.success == p.success + 1 && p'.fail == p.fail
            else p'.store == p.store && p'.payments == p.payments && p'.success == p.success && p'.fail > p.fail
  {
    FindBeneficiaryInBounds(p.store.plans[planId].beneficiaries, entry, 0);
  }

  // ---------- loans ----------

  /** More is out on loan than the plan's balance. */
  predicate Uncovered(s: Store, planId: PlanId) {
    planId in s.plans && s.plans[planId].totalLoaned > s.plans[planId].totalAmount
  }

  /** A paid entry leaves the loans uncovered exactly when its share exceeds what they leave of the balance. */
  lemma EntryUncoversIff(p: BatchProgress, c: Context, planId: PlanId, entry: ClaimEntry)
    requires planId in p.store.plans && AllocationOk(p.store.plans[planId]) && EntryPays(p.store, c, planId, entry)
    ensures var plan := p.store.plans[planId];
            Uncovered(ClaimOne(p, c, planId, entry).store, planId) <==>
            ShareOf(plan, entry) > plan.totalAmount - plan.totalLoaned
  {
    FindBeneficiaryInBounds(p.store.plans[planId].beneficiaries, entry, 0);
    ShareWithinPlan(p.store.plans[planId], IndexOf(p.store.plans[planId], entry));
  }

  lemma EntryKeepsLoans(p: BatchProgress, c: Context, planId: PlanId, entry: ClaimEntry)
    requires planId in p.store.plans && AllocationOk(p.store.plans[planId])
    ensures var p' := ClaimOne(p, c, planId, entry);
            && planId in p'.store.plans
            && p'.store.plans[planId].totalLoaned == p.store.plans[planId].totalLoaned
            && p'.store.plans[planId].totalAmount + Paid(p'.payments) ==
               p.store.plans[planId].totalAmount + Paid(p.payments)
  {
    var plan := p.store.plans[planId];
    FindBeneficiaryInBounds(plan.beneficiaries, entry, 0);
    EntryPaidIff(p, c, planId, entry);
    if EntryPays(p.store, c, planId, entry) {
      var p' := ClaimOne(p, c, planId, entry);
      ShareWithinPlan(plan, IndexOf(plan, entry));
      assert p'.payments[..|p'.payments| - 1] == p.payments;
    }
  }

  lemma {:induction false} EntriesKeepLoans(s: Store, c: Context, planId: PlanId, entries: seq<ClaimEntry>, k: nat)
    requires Valid(s) && planId in s.plans && k <= |entries|
    ensures var p := ClaimEach(s, c, planId, entries, k);
            && planId in p.store.plans
            && p.store.plans[planId].totalLoaned == s.plans[planId].totalLoaned
            && p.store.plans[planId].totalAmount + Paid(p.payments) == s.plans[planId].totalAmount
    decreases k
  {
    if k > 0 {
      EntriesKeepLoans(s, c, planId, entries, k - 1);
      ClaimEachKeepsValid(s, c, planId, entries, k - 1);
      EntryKeepsLoans(ClaimEach(s, c, planId, entries, k - 1), c, planId, entries[k - 1]);
    }
  }

  /** So a whole batch uncovers the loans exactly when it pays more than they leave of the balance, triggered or not. */
  lemma BatchUncoversIff(s: Store, c: Context, planId: PlanId, entries: seq<ClaimEntry>)
    requires Valid(s) && BatchClaimCall(s, c, planId, entries).Ok?
    ensures planId in s.plans
    ensures var e, plan := BatchClaimCall(s, c, planId, entries).value, s.plans[planId];
            Uncovered(e.store, planId) <==> Paid(e.payments) > plan.totalAmount - plan.totalLoaned
  {
    AutoTriggeredKeepsValid(s, c, planId);
    AutoTriggeredKeepsPlan(s, c, planId);
    EntriesKeepLoans(AutoTriggered(s, c, planId), c, planId, entries, |entries|);
  }

  /** A single claim does so only on a triggered plan. */
  lemma ClaimUncoversIff(s: Store, c: Context, planId: PlanId, entry: ClaimEntry)
    requires ClaimCall(s, c, planId, entry).Ok? && !Uncovered(s, planId)
    ensures planId in s.plans
    ensures var e, plan := ClaimCall(s, c, planId, entry).value, s.plans[planId];
            Uncovered(e.store, planId) <==>
            planId in e.store.triggers && Paid(e.payments) > plan.totalAmount - plan.totalLoaned
  {
    ClaimShape(s, c, planId, entry);
    var s1, plan := AutoTriggered(s, c, planId), s.plans[planId];
    var index := ClaimTarget(c, planId, plan, entry).value;
    var payout := PayoutAmount(s1, planId, plan, index);
    RecordPayoutShape(s1, c, planId, plan, entry.email, index, payout);
    PayoutAtMostBalance(s1, planId, plan, index);
    PaidSingle(Payment(planId, entry.email, plan.beneficiaries[index].allocationBp, payout));
  }

  // ---------- the checks that a batch skips ----------

  /** What a single claim of the located beneficiary would pay. */
  function SinglePayout(s: Store, planId: PlanId, entry: ClaimEntry): u64
    requires planId in s.plans && Located(s.plans[planId], entry)
  {
    var exit := SettlementOf(s, planId, IndexOf(s.plans[planId], entry));
    var share := ShareOf(s.plans[planId], entry);
    if exit > 0 then Min(share, exit) else share
  }

  predicate IsFrozen(s: Store, c: Context, planId: PlanId, entry: ClaimEntry)
    requires planId in s.plans && Located(s.plans[planId], entry)
  {
    (planId, IndexOf(s.plans[planId], entry)) in c.frozenBeneficiaries
  }

  predicate IsOutranked(s: Store, planId: PlanId, entry: ClaimEntry)
    requires planId in s.plans && Located(s.plans[planId], entry)
  {
    s.plans[planId].waterfallEnabled && Outranked(s.plans[planId].beneficiaries, IndexOf(s.plans[planId], entry))
  }

  predicate IsIlliquid(s: Store, c: Context, planId: PlanId, entry: ClaimEntry)
    requires planId in s.plans && Located(s.plans[planId], entry)
  {
    && planId !in AutoTriggered(s, c, planId).triggers
    && SinglePayout(s, planId, entry) > SaturatingSub(s.plans[planId].totalAmount, s.plans[planId].totalLoaned)
  }

  /** An accepted batch of one entry, seen as the window, the entry and the automatic trigger before it. */
  lemma LoneEntry(s: Store, c: Context, planId: PlanId, entry: ClaimEntry)
    requires BatchClaimCall(s, c, planId, [entry]).Ok?
    ensures var s1 := AutoTriggered(s, c, planId);
            && !c.paused && planId in s.plans && s.plans[planId].isActive && planId !in c.frozen
            && ClaimWindow(s1, c, planId, s.plans[planId]) == Pass
            && BatchClaimCall(s, c, planId, [entry]).value.payments ==
               ClaimOne(BatchProgress(s1, [], 0, 0), c, planId, entry).payments
  {
    var s1 := AutoTriggered(s, c, planId);
    assert ClaimEach(s1, c, planId, [entry], 0) == BatchProgress(s1, [], 0, 0);
  }

  /** Before the payout branch, a single claim checks the freeze and the rank. */
  lemma TargetIff(c: Context, planId: PlanId, plan: Plan, entry: ClaimEntry)
    requires |plan.beneficiaries| <= MAX_BENEFICIARIES && Located(plan, entry)
    ensures ClaimTarget(c, planId, plan, entry).Ok? <==>
            && (planId, IndexOf(plan, entry)) !in c.frozenBeneficiaries
            && !(plan.waterfallEnabled && Outranked(plan.beneficiaries, IndexOf(plan, entry)))
    ensures ClaimTarget(c, planId, plan, entry).Ok? ==>
              ClaimTarget(c, planId, plan, entry).value == IndexOf(plan, entry)
  {
    assert plan.beneficiaries[..|plan.beneficiaries|] == plan.beneficiaries;
  }

  lemma PayoutIff(s: Store, c: Context, planId: PlanId, plan: Plan, entry: ClaimEntry)
    requires AllocationOk(plan) && Located(plan, entry)
    requires !(plan.waterfallEnabled && Outranked(plan.beneficiaries, IndexOf(plan, entry)))
    requires planId in c.emergencyActive ==> ShareOf(plan, entry) <= EmergencyLimit(plan)
    ensures var exit, share := SettlementOf(s, planId, IndexOf(plan, entry)), ShareOf(plan, entry);
            var payout := if exit > 0 then Min(share, exit) else share;
            Payout(s, c, planId, plan, entry, IndexOf(plan, entry)).Ok? <==>
            payout != 0 && (planId in s.triggers || payout <= SaturatingSub(plan.totalAmount, plan.totalLoaned))
  {
    ShareWithinPlan(plan, IndexOf(plan, entry));
  }

  /**
   Where a batch pays an entry, a single claim of the same entry would be refused exactly when its beneficiary is
   frozen, outranked, or has no share, or the untriggered plan is not liquid enough.
   */
  lemma BatchSkipsChecks(s: Store, c: Context, planId: PlanId, entry: ClaimEntry)
    requires Valid(s) && BatchClaimCall(s, c, planId, [entry]).Ok?
    requires BatchClaimCall(s, c, planId, [entry]).value.payments != []
    ensures planId in s.plans && Located(s.plans[planId], entry)
    ensures ClaimCall(s, c, planId, entry).Err? <==>
            || IsFrozen(s, c, planId, entry)
            || IsOutranked(s, planId, entry)
            || IsIlliquid(s, c, planId, entry)
            || ShareOf(s.plans[planId], entry) == 0
  {
    var s1, plan := AutoTriggered(s, c, planId), s.plans[planId];
    LoneEntry(s, c, planId, entry);
    AutoTriggeredKeepsPlan(s, c, planId);
    EntryPaidIff(BatchProgress(s1, [], 0, 0), c, planId, entry);
    TargetIff(c, planId, plan, entry);
    if ClaimTarget(c, planId, plan, entry).Ok? {
      PayoutIff(s1, c, planId, plan, entry);
    }
  }

  // ---------- what a batch cannot see ----------

  /** The same beneficiary with another rank or claim mark. */
  predicate SameButRank(a: Beneficiary, b: Beneficiary) {
    a == b.(priority := a.priority, isClaimed := a.isClaimed)
  }

  ghost predicate Reranked(a: seq<Beneficiary>, b: seq<Beneficiary>) {
    |a| == |b| && forall i :: 0 <= i < |a| ==> SameButRank(a[i], b[i])
  }

  /** Two contracts that differ in the ranks, claim marks and waterfall setting of one plan. */
  ghost predicate DifferInRanks(s: Store, t: Store, planId: PlanId) {
    && planId in s.plans && planId in t.plans
    && s == t.(plans := s.plans)
    && s.plans == t.plans[planId := s.plans[planId]]
    && Reranked(s.plans[planId].beneficiaries, t.plans[planId].beneficiaries)
    && s.plans[planId] == t.plans[planId].(beneficiaries := s.plans[planId].beneficiaries,
                                           waterfallEnabled := s.plans[planId].waterfallEnabled)
  }

  lemma {:induction false} FindIgnoresRanks(a: seq<Beneficiary>, b: seq<Beneficiary>, entry: ClaimEntry, i: nat)
    requires Reranked(a, b)
    ensures FindBeneficiary(a, entry, i) == FindBeneficiary(b, entry, i)
    decreases |a| - i
  {
    if i < |a| {
      assert SameButRank(a[i], b[i]);
      FindIgnoresRanks(a, b, entry, i + 1);
    }
  }

  /** The two batches have paid and counted the same. */
  ghost predicate SameSoFar(p: BatchProgress, q: BatchProgress, planId: PlanId) {
    DifferInRanks(p.store, q.store, planId) && q == p.(store := q.store)
  }

  /** A new balance and a new claim, the same in both, leave only the ranks to differ. */
  lemma PaidStoresDiffer(s: Store, t: Store, planId: PlanId, left: u64, email: Email, record: ClaimRecord)
    requires DifferInRanks(s, t, planId)
    ensures var a, b := s.plans[planId], t.plans[planId];
            && a.owner == b.owner
            && DifferInRanks(
                 WithClaim(WithPlan(s, planId, a.(totalAmount := left)), planId, a.owner, email, record),
                 WithClaim(WithPlan(t, planId, b.(totalAmount := left)), planId, b.owner, email, record), planId)
  {
  }

  /** A paid entry, with the balance it leaves. */
  ghost predicate PaidEntry(p: BatchProgress, p': BatchProgress, planId: PlanId, payment: Payment, left: u64,
                            record: ClaimRecord)
    requires planId in p.store.plans
  {
    var plan := p.store.plans[planId];
    p' == BatchProgress(WithClaim(WithPlan(p.store, planId, plan.(totalAmount := left)), planId, plan.owner,
                                  payment.email, record),
                        p.payments + [payment], p.success + 1, p.fail)
  }

  lemma PaidEntriesDiffer(p: BatchProgress, p': BatchProgress, q: BatchProgress, q': BatchProgress, planId: PlanId,
                          payment: Payment, left: u64, record: ClaimRecord)
    requires SameSoFar(p, q, planId)
    requires PaidEntry(p, p', planId, payment, left, record) && PaidEntry(q, q', planId, payment, left, record)
    ensures SameSoFar(p', q', planId)
  {
    PaidStoresDiffer(p.store, q.store, planId, left, payment.email, record);
  }

  lemma PayIgnoresRanks(p: BatchProgress, q: BatchProgress, c: Context, d: Context, planId: PlanId, email: Email,
                        index: nat)
    requires SameSoFar(p, q, planId) && d == c.(frozenBeneficiaries := d.frozenBeneficiaries)
    requires index < |p.store.plans[planId].beneficiaries|
    ensures SameSoFar(PayEntry(p, c, planId, email, index), PayEntry(q, d, planId, email, index), planId)
  {
    var p', q' := PayEntry(p, c, planId, email, index), PayEntry(q, d, planId, email, index);
    var a, b := p.store.plans[planId], q.store.plans[planId];
    assert SameButRank(a.beneficiaries[index], b.beneficiaries[index]);
    if p'.success > p.success {
      var share := Entitlement(a.totalAmount, a.beneficiaries[index].allocationBp);
      PaidEntriesDiffer(p, p', q, q', planId, Payment(planId, email, a.beneficiaries[index].allocationBp, share),
                        SaturatingSub(a.totalAmount, share), ClaimRecord(index, c.now));
    }
  }

  lemma EntryIgnoresRanks(p: BatchProgress, q: BatchProgress, c: Context, d: Context, planId: PlanId, entry: ClaimEntry)
    requires SameSoFar(p, q, planId) && d == c.(frozenBeneficiaries := d.frozenBeneficiaries)
    ensures SameSoFar(ClaimOne(p, c, planId, entry), ClaimOne(q, d, planId, entry), planId)
  {
    var a, b := p.store.plans[planId].beneficiaries, q.store.plans[planId].beneficiaries;
    FindIgnoresRanks(a, b, entry, 0);
    FindBeneficiaryInBounds(a, entry, 0);
    var i := FindBeneficiary(a, entry, 0);
    if i.Ok? {
      PayIgnoresRanks(p, q, c, d, planId, entry.email, i.value);
    }
  }

  lemma {:induction false} EntriesIgnoreRanks(s: Store, t: Store, c: Context, d: Context, planId: PlanId,
                                              entries: seq<ClaimEntry>, k: nat)
    requires DifferInRanks(s, t, planId) && d == c.(frozenBeneficiaries := d.frozenBeneficiaries) && k <= |entries|
    ensures SameSoFar(ClaimEach(s, c, planId, entries, k), ClaimEach(t, d, planId, entries, k), planId)
    decreases k
  {
    if k > 0 {
      EntriesIgnoreRanks(s, t, c, d, planId, entries, k - 1);
      EntryIgnoresRanks(ClaimEach(s, c, planId, entries, k - 1), ClaimEach(t, d, planId, entries, k - 1), c, d, planId,
                        entries[k - 1]);
    }
  }

  lemma TriggerIgnoresRanks(s: Store, t: Store, c: Context, d: Context, planId: PlanId)
    requires DifferInRanks(s, t, planId) && d == c.(frozenBeneficiaries := d.frozenBeneficiaries)
    ensures DifferInRanks(AutoTriggered(s, c, planId), AutoTriggered(t, d, planId), planId)
  {
  }

  /** A batch is accepted, counts and pays the same whoever is frozen, ranked or marked as claimed. */
  lemma BatchIgnoresRanks(s: Store, t: Store, c: Context, d: Context, planId: PlanId, entries: seq<ClaimEntry>)
    requires DifferInRanks(s, t, planId) && d == c.(frozenBeneficiaries := d.frozenBeneficiaries)
    ensures var r, r' := BatchClaimCall(s, c, planId, entries), BatchClaimCall(t, d, planId, entries);
            && (r.Ok? <==> r'.Ok?)
            && (r.Ok? ==>
                  && r.value == r'.value.(store := r.value.store)
                  && DifferInRanks(r.value.store, r'.value.store, planId))
  {
    TriggerIgnoresRanks(s, t, c, d, planId);
    EntriesIgnoreRanks(AutoTriggered(s, c, planId), AutoTriggered(t, d, planId), c, d, planId, entries, |entries|);
  }

  // ---------- a frozen heir ----------

  /** The heir of plan 1 is frozen. */
  function Freezing(admin: Address, owner: Address): Context {
    Calm(admin, {owner}).(frozenBeneficiaries := {(1, 0)})
  }

  /** A batch pays the frozen heir the whole balance, where a single claim is refused. */
  predicate PaysFrozenHeir(s: Store, admin: Address, owner: Address) {
    var c := Freezing(admin, owner);
    && PaymentsBy(s, c, BatchClaim(1, [HeirClaim(owner)])) == [Payment(1, HEIR.email, 10_000, 98)]
    && ClaimCall(s, c, 1, HeirClaim(owner)) == Err(Unauthorized)
  }

  lemma FrozenHeirIsRefused(s: Store, admin: Address, owner: Address)
    requires s.plans == map[1 := SoloPlan(owner, true)] && s.claims == NO_CLAIMS
    ensures ClaimCall(s, Freezing(admin, owner), 1, HeirClaim(owner)) == Err(Unauthorized)
  {
    var plan := SoloPlan(owner, true);
    assert FindBeneficiary(plan.beneficiaries, HeirClaim(owner), 0) == Ok(0);
    assert plan.beneficiaries[..1] == plan.beneficiaries;
  }

  lemma BatchIsAccepted(s: Store, admin: Address, owner: Address)
    requires s.plans == map[1 := SoloPlan(owner, true)] && s.triggers == map[]
    ensures AutoTriggered(s, Freezing(admin, owner), 1) == s
    ensures BatchClaimCall(s, Freezing(admin, owner), 1, [HeirClaim(owner)]).Ok?
  {
  }

  lemma HeirEntryIsPaid(s: Store, admin: Address, owner: Address)
    requires s.plans == map[1 := SoloPlan(owner, true)] && s.claims == NO_CLAIMS
    ensures ClaimOne(BatchProgress(s, [], 0, 0), Freezing(admin, owner), 1, HeirClaim(owner)).payments ==
            [Payment(1, HEIR.email, 10_000, 98)]
  {
    var entry := HeirClaim(owner);
    assert FindBeneficiary(SoloPlan(owner, true).beneficiaries, entry, 0) == Ok(0);
    EntryPaidIff(BatchProgress(s, [], 0, 0), Freezing(admin, owner), 1, entry);
  }

  lemma LonePayment(s: Store, c: Context, planId: PlanId, entry: ClaimEntry, payments: seq<Payment>)
    requires BatchClaimCall(s, c, planId, [entry]).Ok?
    requires payments == ClaimOne(BatchProgress(AutoTriggered(s, c, planId), [], 0, 0), c, planId, entry).payments
    ensures PaymentsBy(s, c, BatchClaim(planId, [entry])) == payments
  {
    LoneEntry(s, c, planId, entry);
  }

  lemma HeirEntryPays(s: Store, admin: Address, owner: Address)
    requires s.plans == map[1 := SoloPlan(owner, true)] && s.triggers == map[] && s.claims == NO_CLAIMS
    ensures PaysFrozenHeir(s, admin, owner)
  {
    FrozenHeirIsRefused(s, admin, owner);
    BatchIsAccepted(s, admin, owner);
    HeirEntryIsPaid(s, admin, owner);
    LonePayment(s, Freezing(admin, owner), 1, HeirClaim(owner), [Payment(1, HEIR.email, 10_000, 98)]);
  }

  /** That happens one accepted creation after deployment. */
  lemma BatchPaysFrozenHeir(wallets: map<(Token, Address), nat>, owner: Address, admin: Address)
    requires owner != Contract && admin != Contract && BalanceOf(Deployed(wallets), 0, owner) >= 100
    ensures PaysFrozenHeir(Run(Deployed(wallets), LendableRun(owner, admin)[..1]), admin, owner)
  {
    var s1 := LendablePlanIsCreated(wallets, owner, admin);
    HeirEntryPays(s1, admin, owner);
  }
}
