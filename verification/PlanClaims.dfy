/** Claim records over runs: who was paid under them, how often, and which plans count as claimed. */
module PlanClaims {
  import opened MachineInts
  import opened PlanTypes
  import opened PlanLedger
  import opened PlanInvariants
  import opened PlanRuns
  import opened ClaimResidue

  /** How many of the payments went to the plan's claims under this e-mail. */
  function PaidTimes(payments: seq<Payment>, planId: PlanId, email: Email): nat {
    if payments == [] then 0
    else
      var n := |payments| - 1;
      var p := payments[n];
      PaidTimes(payments[..n], planId, email) + if p.planId == planId && p.email == email then 1 else 0
  }

  lemma {:induction false} PaidTimesAdds(a: seq<Payment>, b: seq<Payment>, planId: PlanId, email: Email)
    ensures PaidTimes(a + b, planId, email) == PaidTimes(a, planId, email) + PaidTimes(b, planId, email)
    decreases |b|
  {
    if b == [] {
      assert a + b == a;
    } else {
      assert (a + b)[..|a + b| - 1] == a + b[..|b| - 1];
      PaidTimesAdds(a, b[..|b| - 1], planId, email);
    }
  }

  lemma PaidTimesOne(p: Payment, planId: PlanId, email: Email)
    ensures PaidTimes([p], planId, email) == if p.planId == planId && p.email == email then 1 else 0
  {
    assert [p][..0] == [];
  }

  // ---------- what each call does to the claims ----------

  predicate IsClaim(op: Op) {
    op.Claim? || op.BatchClaim?
  }

  /** An accepted call that pays nobody and leaves claims and settlements alone. */
  ghost predicate Unclaiming(s: Store, r: CallResult) {
    r.Ok? ==> r.value.store.claims == s.claims && r.value.store.settlements == s.settlements && r.value.payments == []
  }

  lemma CreateUnclaiming(s: Store, c: Context, op: Op)
    requires op.Create?
    ensures Unclaiming(s, Invoke(s, c, op))
  {
    if Invoke(s, c, op).Ok? {
      var fee := CreateIsCharged(s, c, op);
      CreateAddsPlan(s, c, op, fee);
      var funded := CreateRegisters(s, c, op, fee);
      RegisterShape(funded, c, op.owner, op.amount - fee, op.distribution, op.inputs, op.lendable);
    }
  }

  lemma MoneyCallsUnclaiming(s: Store, c: Context, op: Op)
    requires op.Deposit? || op.Withdraw?
    ensures Unclaiming(s, Invoke(s, c, op))
  {
    if op.Deposit? {
      TransferTouchesBalances(s, op.token, op.caller, Contract, op.amount);
    } else {
      TransferTouchesBalances(s, op.token, Contract, op.caller, op.amount);
    }
  }

  lemma LoanCallsUnclaiming(s: Store, c: Context, op: Op)
    requires op.Recall? || op.Liquidate?
    ensures Unclaiming(s, Invoke(s, c, op))
  {
    if op.Recall? {
      RecallSettles(s, c, op.planId, op.amount);
    } else {
      LiquidateSettles(s, c, op.planId);
    }
  }

  lemma StatusCallsUnclaiming(s: Store, c: Context, op: Op)
    requires op.Deactivate? || op.AutoTrigger? || op.Trigger?
    ensures Unclaiming(s, Invoke(s, c, op))
  {
  }

  lemma TransferUnclaiming(s: Store, c: Context, op: Op)
    requires op.TransferOwnership?
    ensures Unclaiming(s, Invoke(s, c, op))
  {
    TransferRelists(s, c, op.owner, op.newOwner, op.planId);
  }

  lemma OtherCallsUnclaiming(s: Store, c: Context, op: Op)
    requires !IsClaim(op)
    ensures Unclaiming(s, Invoke(s, c, op))
  {
    if op.Create? {
      CreateUnclaiming(s, c, op);
    } else if op.Deposit? || op.Withdraw? {
      MoneyCallsUnclaiming(s, c, op);
    } else if op.Recall? || op.Liquidate? {
      LoanCallsUnclaiming(s, c, op);
    } else if op.TransferOwnership? {
      TransferUnclaiming(s, c, op);
    } else if op.Deactivate? || op.AutoTrigger? || op.Trigger? {
      StatusCallsUnclaiming(s, c, op);
    } else {
      EditingCalls(s, c, op);
    }
  }

  lemma AutoTriggeredKeepsClaims(s: Store, c: Context, planId: PlanId)
    ensures AutoTriggered(s, c, planId).claims == s.claims
    ensures AutoTriggered(s, c, planId).settlements == s.settlements
  {
  }

  /** A payout is recorded unless part of a settlement stays open. */
  lemma RecordPayoutClaims(s: Store, c: Context, planId: PlanId, plan: Plan, email: Email, index: nat, payout: u64)
    requires index < |plan.beneficiaries|
    ensures RecordPayout(s, c, planId, plan, email, index, payout).claims ==
            if SettlementOf(s, planId, index) > payout then s.claims
            else WithClaim(s, planId, plan.owner, email, ClaimRecord(index, c.now)).claims
  {
  }

  /** An accepted claim was the first under its e-mail that got a record. */
  lemma ClaimIsNew(s: Store, c: Context, planId: PlanId, entry: ClaimEntry)
    requires ClaimCall(s, c, planId, entry).Ok?
    ensures !Recorded(s, planId, entry.email)
  {
    AutoTriggeredKeepsClaims(s, c, planId);
  }

  /** It leaves no record exactly when the open settlement exceeds the share of the balance. */
  lemma ClaimUnrecordedIff(s: Store, c: Context, planId: PlanId, entry: ClaimEntry)
    requires ClaimCall(s, c, planId, entry).Ok?
    ensures planId in s.plans && ClaimTarget(c, planId, s.plans[planId], entry).Ok?
    ensures var index := ClaimTarget(c, planId, s.plans[planId], entry).value;
            !Recorded(ClaimCall(s, c, planId, entry).value.store, planId, entry.email) <==>
            SettlementOf(s, planId, index) > WaterfallPayout(s.plans[planId], index)
  {
    ClaimShape(s, c, planId, entry);
    ClaimIsNew(s, c, planId, entry);
    AutoTriggeredKeepsClaims(s, c, planId);
    var s1, plan := AutoTriggered(s, c, planId), s.plans[planId];
    var index := ClaimTarget(c, planId, plan, entry).value;
    RecordPayoutClaims(s1, c, planId, plan, entry.email, index, PayoutAmount(s1, planId, plan, index));
  }

  // ---------- payments under one e-mail ----------

  /** The record is as it was. */
  ghost predicate SameClaim(s: Store, s': Store, planId: PlanId, email: Email)
    requires Recorded(s, planId, email)
  {
    Recorded(s', planId, email) && s'.claims.records[(planId, email)] == s.claims.records[(planId, email)]
  }

  /**
   A recorded claim stays and is not paid again; while no settlement of the plan waits, a claim is paid
   exactly when it gets its record.
   */
  ghost predicate PaysOnce(s: Store, s': Store, payments: seq<Payment>, planId: PlanId, email: Email) {
    && (Recorded(s, planId, email) ==> SameClaim(s, s', planId, email) && PaidTimes(payments, planId, email) == 0)
    && (NoSettlement(s, planId) ==>
          && NoSettlement(s', planId)
          && PaidTimes(payments, planId, email) ==
             if !Recorded(s, planId, email) && Recorded(s', planId, email) then 1 else 0)
  }

  lemma PaysOnceChains(s: Store, middle: Store, s': Store, a: seq<Payment>, b: seq<Payment>, planId: PlanId,
                       email: Email)
    requires PaysOnce(s, middle, a, planId, email) && PaysOnce(middle, s', b, planId, email)
    ensures PaysOnce(s, s', a + b, planId, email)
  {
    PaidTimesAdds(a, b, planId, email);
  }

  lemma NobodyPaid(s: Store, s': Store, planId: PlanId, email: Email)
    requires s'.claims == s.claims && s'.settlements == s.settlements
    ensures PaysOnce(s, s', [], planId, email)
  {
  }

  lemma ClaimPaysOnce(s: Store, c: Context, claimed: PlanId, entry: ClaimEntry, planId: PlanId, email: Email)
    requires ClaimCall(s, c, claimed, entry).Ok?
    ensures var e := ClaimCall(s, c, claimed, entry).value; PaysOnce(s, e.store, e.payments, planId, email)
  {
    ClaimShape(s, c, claimed, entry);
    ClaimIsNew(s, c, claimed, entry);
    AutoTriggeredKeepsClaims(s, c, claimed);
    var s1, plan := AutoTriggered(s, c, claimed), s.plans[claimed];
    var index := ClaimTarget(c, claimed, plan, entry).value;
    var payout := PayoutAmount(s1, claimed, plan, index);
    RecordPayoutClaims(s1, c, claimed, plan, entry.email, index, payout);
    PaidTimesOne(Payment(claimed, entry.email, plan.beneficiaries[index].allocationBp, payout), planId, email);
    if NoSettlement(s, planId) {
      SettlementsElsewhere(s1, c, claimed, plan, entry.email, index, payout, planId);
      assert claimed == planId ==> (claimed, index) !in s1.settlements;
    }
  }

  /** One batch entry: either nothing is paid or recorded, or one payment under a new record. */
  lemma EntryClaims(p: BatchProgress, c: Context, claimed: PlanId, entry: ClaimEntry)
    requires claimed in p.store.plans
    ensures var p' := ClaimOne(p, c, claimed, entry);
            var i := FindBeneficiary(p.store.plans[claimed].beneficiaries, entry, 0);
            && p'.store.settlements == p.store.settlements
            && claimed in p'.store.plans
            && if p'.success == p.success
               then p'.payments == p.payments && p'.store.claims == p.store.claims
               else && !Recorded(p.store, claimed, entry.email)
                    && |p'.payments| == |p.payments| + 1 && p'.payments[..|p.payments|] == p.payments
                    && p'.payments[|p.payments|].planId == claimed && p'.payments[|p.payments|].email == entry.email
                    && i.Ok?
                    && p'.store.claims == WithClaim(p.store, claimed, p.store.plans[claimed].owner, entry.email,
                                                    ClaimRecord(i.value, c.now)).claims
  {
    FindBeneficiaryInBounds(p.store.plans[claimed].beneficiaries, entry, 0);
  }

  lemma EntryPaysOnce(p: BatchProgress, c: Context, claimed: PlanId, entry: ClaimEntry, planId: PlanId, email: Email)
    requires claimed in p.store.plans
    ensures var p' := ClaimOne(p, c, claimed, entry);
            && claimed in p'.store.plans && p.payments <= p'.payments
            && PaysOnce(p.store, p'.store, p'.payments[|p.payments|..], planId, email)
  {
    var p' := ClaimOne(p, c, claimed, entry);
    EntryClaims(p, c, claimed, entry);
    if p'.success == p.success {
      assert p'.payments[|p.payments|..] == [];
    } else {
      assert p'.payments[|p.payments|..] == [p'.payments[|p.payments|]];
      PaidTimesOne(p'.payments[|p.payments|], planId, email);
    }
  }

  lemma {:induction false} EntriesPayOnce(s: Store, c: Context, claimed: PlanId, entries: seq<ClaimEntry>, k: nat,
                                          planId: PlanId, email: Email)
    requires claimed in s.plans && k <= |entries|
    ensures var p := ClaimEach(s, c, claimed, entries, k);
            claimed in p.store.plans && PaysOnce(s, p.store, p.payments, planId, email)
    decreases k
  {
    if k == 0 {
      NobodyPaid(s, s, planId, email);
    } else {
      var p := ClaimEach(s, c, claimed, entries, k - 1);
      var p' := ClaimOne(p, c, claimed, entries[k - 1]);
      EntriesPayOnce(s, c, claimed, entries, k - 1, planId, email);
      EntryPaysOnce(p, c, claimed, entries[k - 1], planId, email);
      PaysOnceChains(s, p.store, p'.store, p.payments, p'.payments[|p.payments|..], planId, email);
      assert p'.payments == p.payments + p'.payments[|p.payments|..];
    }
  }

  lemma BatchPaysOnce(s: Store, c: Context, claimed: PlanId, entries: seq<ClaimEntry>, planId: PlanId, email: Email)
    requires BatchClaimCall(s, c, claimed, entries).Ok?
    ensures var e := BatchClaimCall(s, c, claimed, entries).value; PaysOnce(s, e.store, e.payments, planId, email)
  {
    var s1 := AutoTriggered(s, c, claimed);
    AutoTriggeredKeepsPlan(s, c, claimed);
    AutoTriggeredKeepsClaims(s, c, claimed);
    EntriesPayOnce(s1, c, claimed, entries, |entries|, planId, email);
  }

  lemma StepPaysOnce(s: Store, c: Context, op: Op, planId: PlanId, email: Email)
    ensures PaysOnce(s, Step(s, c, op), PaymentsBy(s, c, op), planId, email)
  {
    if Invoke(s, c, op).Err? {
      NobodyPaid(s, s, planId, email);
    } else if op.Claim? {
      ClaimPaysOnce(s, c, op.planId, op.entry, planId, email);
    } else if op.BatchClaim? {
      BatchPaysOnce(s, c, op.planId, op.entries, planId, email);
    } else {
      OtherCallsUnclaiming(s, c, op);
      NobodyPaid(s, Step(s, c, op), planId, email);
    }
  }

  /** Over every run, single claims and batches mixed. */
  lemma {:induction false} RunPaysOnce(s: Store, calls: seq<Event>, planId: PlanId, email: Email)
    ensures PaysOnce(s, Run(s, calls), Payments(s, calls), planId, email)
  {
    if calls == [] {
      NobodyPaid(s, s, planId, email);
    } else {
      var n := |calls| - 1;
      var before, c, op := Run(s, calls[..n]), calls[n].0, calls[n].1;
      RunPaysOnce(s, calls[..n], planId, email);
      StepPaysOnce(before, c, op, planId, email);
      PaysOnceChains(s, before, Run(s, calls), Payments(s, calls[..n]), PaymentsBy(before, c, op), planId, email);
    }
  }

  /**
   From deployment: a plan pays at most once under an e-mail, and exactly when the claim is on record. A
   second beneficiary under the same e-mail, which later additions do not rule out, is never paid.
   */
  lemma PaidOncePerEmail(wallets: map<(Token, Address), nat>, calls: seq<Event>, planId: PlanId, email: Email)
    ensures var s := Run(Deployed(wallets), calls);
            PaidTimes(Payments(Deployed(wallets), calls), planId, email) == if Recorded(s, planId, email) then 1 else 0
    ensures var s := Run(Deployed(wallets), calls);
            forall c, entry: ClaimEntry ::
              Recorded(s, planId, email) && entry.email == email ==> ClaimCall(s, c, planId, entry).Err?
  {
    RunPaysOnce(Deployed(wallets), calls, planId, email);
    var s := Run(Deployed(wallets), calls);
    forall c, entry: ClaimEntry | Recorded(s, planId, email) && entry.email == email
      ensures ClaimCall(s, c, planId, entry).Err?
    {
      if ClaimCall(s, c, planId, entry).Ok? {
        ClaimIsNew(s, c, planId, entry);
      }
    }
  }

  // ---------- lists of claimed plans ----------

  ghost predicate HasRecord(claims: Claims, planId: PlanId) {
    exists email :: (planId, email) in claims.records
  }

  ghost predicate HasOwner(claims: Claims, planId: PlanId) {
    exists owner :: planId in ClaimedPlansOf(claims, owner)
  }

  ghost predicate NoRepeats(ids: seq<PlanId>) {
    forall i, j :: 0 <= i < j < |ids| ==> ids[i] != ids[j]
  }

  /**
   The list of all claimed plans names exactly the plans with a claim record, and the owners' lists together
   name the same; no list repeats a plan.
   */
  ghost predicate ListsOk(claims: Claims) {
    && NoRepeats(claims.all)
    && (forall owner :: NoRepeats(ClaimedPlansOf(claims, owner)))
    && (forall id: PlanId :: id in claims.all <==> HasRecord(claims, id))
    && (forall id: PlanId :: id in claims.all <==> HasOwner(claims, id))
  }

  lemma NewRecordKeepsRecords(claims: Claims, claims': Claims, planId: PlanId, email: Email, record: ClaimRecord,
                              id: PlanId)
    requires claims'.records == claims.records[(planId, email) := record]
    ensures HasRecord(claims', id) <==> id == planId || HasRecord(claims, id)
  {
    assert (planId, email) in claims'.records;
    if HasRecord(claims, id) {
      var e :| (id, e) in claims.records;
      assert (id, e) in claims'.records;
    }
  }

  lemma ListAfterClaim(claims: Claims, owner: Address, planId: PlanId, user: Address)
    ensures ClaimedPlansOf(AddPlanToClaimed(claims, owner, planId), user) ==
            var ids := ClaimedPlansOf(claims, user);
            if user != owner || planId in ids then ids else ids + [planId]
  {
  }

  lemma NewRecordKeepsOwners(claims: Claims, owner: Address, planId: PlanId, id: PlanId)
    ensures HasOwner(AddPlanToClaimed(claims, owner, planId), id) <==> id == planId || HasOwner(claims, id)
  {
    var claims' := AddPlanToClaimed(claims, owner, planId);
    ListAfterClaim(claims, owner, planId, owner);
    assert planId in ClaimedPlansOf(claims', owner);
    if HasOwner(claims, id) {
      var o :| id in ClaimedPlansOf(claims, o);
      ListAfterClaim(claims, owner, planId, o);
      assert id in ClaimedPlansOf(claims', o);
    }
    if HasOwner(claims', id) {
      var o :| id in ClaimedPlansOf(claims', o);
      ListAfterClaim(claims, owner, planId, o);
    }
  }

  lemma WithClaimKeepsLists(s: Store, planId: PlanId, owner: Address, email: Email, record: ClaimRecord)
    requires ListsOk(s.claims)
    ensures ListsOk(WithClaim(s, planId, owner, email, record).claims)
  {
    var claims, claims' := s.claims, WithClaim(s, planId, owner, email, record).claims;
    forall id: PlanId
      ensures id in claims'.all <==> HasRecord(claims', id)
      ensures id in claims'.all <==> HasOwner(claims', id)
    {
      NewRecordKeepsRecords(claims, claims', planId, email, record, id);
      var recorded := claims.(records := claims'.records);
      NewRecordKeepsOwners(recorded, owner, planId, id);
      assert HasOwner(recorded, id) <==> HasOwner(claims, id) by {
        assert forall o :: ClaimedPlansOf(recorded, o) == ClaimedPlansOf(claims, o);
      }
    }
    forall user
      ensures NoRepeats(ClaimedPlansOf(claims', user))
    {
      assert NoRepeats(ClaimedPlansOf(claims, user));
      ListAfterClaim(claims.(records := claims'.records), owner, planId, user);
    }
  }

  lemma ClaimKeepsLists(s: Store, c: Context, planId: PlanId, entry: ClaimEntry)
    requires ListsOk(s.claims) && ClaimCall(s, c, planId, entry).Ok?
    ensures ListsOk(ClaimCall(s, c, planId, entry).value.store.claims)
  {
    ClaimShape(s, c, planId, entry);
    AutoTriggeredKeepsClaims(s, c, planId);
    var s1, plan := AutoTriggered(s, c, planId), s.plans[planId];
    var index := ClaimTarget(c, planId, plan, entry).value;
    RecordPayoutClaims(s1, c, planId, plan, entry.email, index, PayoutAmount(s1, planId, plan, index));
    WithClaimKeepsLists(s1, planId, plan.owner, entry.email, ClaimRecord(index, c.now));
  }

  lemma {:induction false} EntriesKeepLists(s: Store, c: Context, planId: PlanId, entries: seq<ClaimEntry>, k: nat)
    requires ListsOk(s.claims) && planId in s.plans && k <= |entries|
    ensures var s' := ClaimEach(s, c, planId, entries, k).store; planId in s'.plans && ListsOk(s'.claims)
    decreases k
  {
    if k > 0 {
      var p, entry := ClaimEach(s, c, planId, entries, k - 1), entries[k - 1];
      EntriesKeepLists(s, c, planId, entries, k - 1);
      EntryClaims(p, c, planId, entry);
      var i := FindBeneficiary(p.store.plans[planId].beneficiaries, entry, 0);
      if i.Ok? {
        WithClaimKeepsLists(p.store, planId, p.store.plans[planId].owner, entry.email, ClaimRecord(i.value, c.now));
      }
    }
  }

  lemma StepKeepsLists(s: Store, c: Context, op: Op)
    requires ListsOk(s.claims)
    ensures ListsOk(Step(s, c, op).claims)
  {
    if Invoke(s, c, op).Ok? {
      if op.Claim? {
        ClaimKeepsLists(s, c, op.planId, op.entry);
      } else if op.BatchClaim? {
        AutoTriggeredKeepsPlan(s, c, op.planId);
        AutoTriggeredKeepsClaims(s, c, op.planId);
        EntriesKeepLists(AutoTriggered(s, c, op.planId), c, op.planId, op.entries, |op.entries|);
      } else {
        OtherCallsUnclaiming(s, c, op);
      }
    }
  }

  /** From deployment, in every run, transfers of claimed plans included. */
  lemma {:induction false} ClaimedListsFromDeployment(wallets: map<(Token, Address), nat>, calls: seq<Event>)
    ensures ListsOk(Run(Deployed(wallets), calls).claims)
  {
    if calls != [] {
      var n := |calls| - 1;
      ClaimedListsFromDeployment(wallets, calls[..n]);
      StepKeepsLists(Run(Deployed(wallets), calls[..n]), calls[n].0, calls[n].1);
    }
  }
}
