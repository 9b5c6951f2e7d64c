/**
 The books over whole runs: every unit of a plan's balance, of its loans and of anybody's wallet is explained by the
 amounts that accepted calls named.
 */
module PlanBooks {
  import opened MachineInts
  import opened PlanTypes
  import opened PlanLedger
  import opened PlanInvariants
  import opened PlanRuns
  import opened PlanTokens
  import opened ClaimResidue
  import opened BeneficiaryRules
  import opened OwnerCalls
  import opened MoneyCalls
  import opened ClaimTargets
  import BatchClaims

  // ---------- the flows of one plan ----------

  /** Amounts that went through one plan, as the calls named them or the plan stood when they were made. */
  datatype Flow = Flow(deposited: nat, withdrawn: nat, lost: nat, recalled: nat, settled: nat)

  const NO_FLOW: Flow := Flow(0, 0, 0, 0, 0)

  /** An accepted call moves what it names; a liquidation settles all loans and loses what the balance covers. */
  function FlowBy(s: Store, c: Context, op: Op, planId: PlanId): Flow {
    if op.Create? || op.planId != planId || planId !in s.plans || Invoke(s, c, op).Err? then NO_FLOW
    else
      match op
      case Deposit(_, _, _, amount) => NO_FLOW.(deposited := amount)
      case Withdraw(_, _, _, amount) => NO_FLOW.(withdrawn := amount)
      case Recall(_, amount) => NO_FLOW.(recalled := amount)
      case Liquidate(_) => NO_FLOW.(lost := Lost(s.plans[planId]), settled := s.plans[planId].totalLoaned)
      case _ => NO_FLOW
  }

  function Plus(a: Flow, b: Flow): Flow {
    Flow(a.deposited + b.deposited, a.withdrawn + b.withdrawn, a.lost + b.lost, a.recalled + b.recalled,
         a.settled + b.settled)
  }

  function FlowOf(s: Store, calls: seq<Event>, planId: PlanId): Flow {
    if calls == [] then NO_FLOW
    else
      var n := |calls| - 1;
      Plus(FlowOf(s, calls[..n], planId), FlowBy(Run(s, calls[..n]), calls[n].0, calls[n].1, planId))
  }

  /** Balance and loans moved by the flow and the claims paid, and the trigger record counted the settlements. */
  ghost predicate BooksKept(s: Store, s': Store, planId: PlanId, flow: Flow, paid: nat)
    requires planId in s.plans
  {
    && planId in s'.plans
    && s'.plans[planId].totalAmount + flow.withdrawn + flow.lost + paid ==
       s.plans[planId].totalAmount + flow.deposited
    && s'.plans[planId].totalLoaned + flow.recalled + flow.settled == s.plans[planId].totalLoaned
    && (planId in s.triggers ==>
          && planId in s'.triggers
          && s'.triggers[planId].recalledAmount == s.triggers[planId].recalledAmount + flow.recalled
          && s'.triggers[planId].settledAmount == s.triggers[planId].settledAmount + flow.settled)
  }

  lemma BooksChain(s: Store, m: Store, s': Store, planId: PlanId, f: Flow, p: nat, g: Flow, q: nat)
    requires planId in s.plans && BooksKept(s, m, planId, f, p) && BooksKept(m, s', planId, g, q)
    ensures BooksKept(s, s', planId, Plus(f, g), p + q)
  {
  }

  /** Plan and record as they were. */
  lemma NothingMoved(s: Store, s': Store, planId: PlanId)
    requires planId in s.plans && planId in s'.plans
    requires s'.plans[planId].totalAmount == s.plans[planId].totalAmount
    requires s'.plans[planId].totalLoaned == s.plans[planId].totalLoaned
    requires planId in s.triggers ==> planId in s'.triggers && s'.triggers[planId] == s.triggers[planId]
    ensures BooksKept(s, s', planId, NO_FLOW, 0)
  {
  }

  lemma {:induction false} NoneTo(payments: seq<Payment>, w: PlanId, planId: PlanId)
    requires AllTo(payments, w)
    ensures PaymentsTo(payments, planId) == if w == planId then payments else []
  {
    if payments != [] {
      var n := |payments| - 1;
      NoneTo(payments[..n], w, planId);
      assert payments == payments[..n] + [payments[n]];
    }
  }

  /** What the call pays to claims of the plan. */
  function PaidBy(s: Store, c: Context, op: Op, planId: PlanId): nat {
    Paid(PaymentsTo(PaymentsBy(s, c, op), planId))
  }

  lemma MoneyCallKeepsBooks(s: Store, c: Context, op: Op)
    requires (op.Deposit? || op.Withdraw?) && op.caller != Contract && op.planId in s.plans && Invoke(s, c, op).Ok?
    ensures BooksKept(s, Step(s, c, op), op.planId, FlowBy(s, c, op, op.planId), PaidBy(s, c, op, op.planId))
  {
    if op.Deposit? {
      DepositAcceptedIff(s, c, op.caller, op.token, op.planId, op.amount);
      DepositEffect(s, c, op.caller, op.token, op.planId, op.amount);
    } else {
      WithdrawalAcceptedIff(s, c, op.caller, op.token, op.planId, op.amount);
      WithdrawalEffect(s, c, op.caller, op.token, op.planId, op.amount);
    }
  }

  lemma RecallKeepsBooks(s: Store, c: Context, planId: PlanId, amount: u64)
    requires RecallCall(s, c, planId, amount).Ok?
    ensures planId in s.plans
    ensures BooksKept(s, RecallCall(s, c, planId, amount).value.store, planId, NO_FLOW.(recalled := amount), 0)
  {
    RecallEffect(s, c, planId, amount);
  }

  lemma LiquidationKeepsBooks(s: Store, c: Context, planId: PlanId)
    requires LiquidateCall(s, c, planId).Ok?
    ensures planId in s.plans
    ensures BooksKept(s, LiquidateCall(s, c, planId).value.store, planId,
                      NO_FLOW.(lost := Lost(s.plans[planId]), settled := s.plans[planId].totalLoaned), 0)
  {
    LiquidationEffect(s, c, planId);
  }

  lemma LoanCallKeepsBooks(s: Store, c: Context, op: Op)
    requires (op.Recall? || op.Liquidate?) && Invoke(s, c, op).Ok?
    ensures op.planId in s.plans
    ensures BooksKept(s, Step(s, c, op), op.planId, FlowBy(s, c, op, op.planId), 0)
    ensures PaymentsBy(s, c, op) == []
  {
    if op.Recall? {
      RecallKeepsBooks(s, c, op.planId, op.amount);
      RecallEffect(s, c, op.planId, op.amount);
    } else {
      LiquidationKeepsBooks(s, c, op.planId);
      LiquidationEffect(s, c, op.planId);
    }
  }

  lemma ClaimKeepsBooks(s: Store, c: Context, planId: PlanId, entry: ClaimEntry)
    requires Valid(s) && ClaimCall(s, c, planId, entry).Ok?
    ensures planId in s.plans
    ensures var e := ClaimCall(s, c, planId, entry).value; BooksKept(s, e.store, planId, NO_FLOW, Paid(e.payments))
  {
    var i := ClaimEffect(s, c, planId, entry);
    var e := ClaimCall(s, c, planId, entry).value;
    PaidSingle(e.payments[0]);
  }

  lemma BatchKeepsBooks(s: Store, c: Context, planId: PlanId, entries: seq<ClaimEntry>)
    requires Valid(s) && BatchClaimCall(s, c, planId, entries).Ok?
    ensures planId in s.plans
    ensures var e := BatchClaimCall(s, c, planId, entries).value;
            BooksKept(s, e.store, planId, NO_FLOW, Paid(e.payments))
  {
    var s1 := AutoTriggered(s, c, planId);
    AutoTriggeredIs(s, c, planId);
    AutoTriggeredKeepsValid(s, c, planId);
    AutoTriggeredKeepsPlan(s, c, planId);
    BatchClaims.EntriesKeepLoans(s1, c, planId, entries, |entries|);
    BatchTriggers(s1, c, planId, entries, |entries|);
  }

  lemma {:induction false} BatchTriggers(s: Store, c: Context, planId: PlanId, entries: seq<ClaimEntry>, k: nat)
    requires planId in s.plans && k <= |entries|
    ensures var s' := ClaimEach(s, c, planId, entries, k).store;
            planId in s'.plans && s'.triggers == s.triggers && s'.wallets == s.wallets
    decreases k
  {
    if k > 0 {
      var p := ClaimEach(s, c, planId, entries, k - 1);
      BatchTriggers(s, c, planId, entries, k - 1);
      FindBeneficiaryInBounds(p.store.plans[planId].beneficiaries, entries[k - 1], 0);
    }
  }

  lemma ClaimingCallKeepsBooks(s: Store, c: Context, op: Op)
    requires Valid(s) && (op.Claim? || op.BatchClaim?) && Invoke(s, c, op).Ok?
    ensures op.planId in s.plans
    ensures BooksKept(s, Step(s, c, op), op.planId, NO_FLOW, Paid(PaymentsBy(s, c, op)))
  {
    if op.Claim? {
      ClaimKeepsBooks(s, c, op.planId, op.entry);
    } else {
      BatchKeepsBooks(s, c, op.planId, op.entries);
    }
  }

  /** The call pays nobody and leaves the plan's books alone. */
  ghost predicate Bookless(s: Store, r: CallResult, planId: PlanId)
    requires planId in s.plans
  {
    r.Ok? ==> BooksKept(s, r.value.store, planId, NO_FLOW, 0) && r.value.payments == []
  }

  lemma DeactivationBookless(s: Store, c: Context, owner: Address, planId: PlanId)
    requires planId in s.plans
    ensures Bookless(s, DeactivateCall(s, c, owner, planId), planId)
  {
  }

  lemma HandoverBookless(s: Store, c: Context, owner: Address, newOwner: Address, planId: PlanId)
    requires planId in s.plans
    ensures Bookless(s, TransferOwnershipCall(s, c, owner, newOwner, planId), planId)
  {
    HandoverEffect(s, c, owner, newOwner, planId);
  }

  lemma StatusCallKeepsBooks(s: Store, c: Context, op: Op)
    requires (op.Deactivate? || op.TransferOwnership?) && op.planId in s.plans
    ensures Bookless(s, Invoke(s, c, op), op.planId)
  {
    match op {
      case Deactivate(owner, planId) => DeactivationBookless(s, c, owner, planId);
      case TransferOwnership(owner, newOwner, planId) => HandoverBookless(s, c, owner, newOwner, planId);
    }
  }

  lemma TriggerCallKeepsBooks(s: Store, c: Context, op: Op)
    requires (op.AutoTrigger? || op.Trigger?) && op.planId in s.plans
    ensures BooksKept(s, Step(s, c, op), op.planId, NO_FLOW, 0)
    ensures PaymentsBy(s, c, op) == []
  {
    if op.Trigger? {
      TriggerEffect(s, c, op.caller, op.planId);
    } else {
      AutoTriggerEffect(s, c, op.planId);
    }
  }

  lemma EditKeepsBooks(s: Store, c: Context, op: Op)
    requires EditsOnly(op) && op.planId in s.plans
    ensures BooksKept(s, Step(s, c, op), op.planId, NO_FLOW, 0)
    ensures PaymentsBy(s, c, op) == []
  {
    EditingCalls(s, c, op);
  }

  lemma OwnCallKeepsBooks(s: Store, c: Context, op: Op)
    requires Valid(s) && !op.Create? && op.planId in s.plans && FromOutside(c, op) && Invoke(s, c, op).Ok?
    ensures BooksKept(s, Step(s, c, op), op.planId, FlowBy(s, c, op, op.planId), PaidBy(s, c, op, op.planId))
  {
    StepWritesOne(s, c, op);
    NoneTo(PaymentsBy(s, c, op), op.planId, op.planId);
    if op.Deposit? || op.Withdraw? {
      MoneyCallKeepsBooks(s, c, op);
    } else if op.Recall? || op.Liquidate? {
      LoanCallKeepsBooks(s, c, op);
    } else if op.Claim? || op.BatchClaim? {
      ClaimingCallKeepsBooks(s, c, op);
    } else if op.Deactivate? || op.TransferOwnership? {
      StatusCallKeepsBooks(s, c, op);
    } else if op.AutoTrigger? || op.Trigger? {
      TriggerCallKeepsBooks(s, c, op);
    } else {
      EditKeepsBooks(s, c, op);
    }
  }

  // ---------- calls elsewhere ----------

  /** The trigger record of a plan that the call does not write. */
  ghost predicate RecordStays(s: Store, r: CallResult, planId: PlanId)
    requires planId in s.triggers
  {
    r.Ok? ==> planId in r.value.store.triggers && r.value.store.triggers[planId] == s.triggers[planId]
  }

  lemma CreateKeepsRecord(s: Store, c: Context, op: Op, planId: PlanId)
    requires op.Create? && planId in s.triggers
    ensures RecordStays(s, Invoke(s, c, op), planId)
  {
    if Invoke(s, c, op).Ok? {
      var fee := CreateIsCharged(s, c, op);
      CreateAddsPlan(s, c, op, fee);
    }
  }

  lemma ClaimKeepsRecord(s: Store, c: Context, claimed: PlanId, entry: ClaimEntry, planId: PlanId)
    requires Valid(s) && claimed != planId && planId in s.triggers
    ensures RecordStays(s, ClaimCall(s, c, claimed, entry), planId)
  {
    if ClaimCall(s, c, claimed, entry).Ok? {
      var i := ClaimEffect(s, c, claimed, entry);
    }
  }

  lemma BatchKeepsRecord(s: Store, c: Context, claimed: PlanId, entries: seq<ClaimEntry>, planId: PlanId)
    requires claimed != planId && planId in s.triggers
    ensures RecordStays(s, BatchClaimCall(s, c, claimed, entries), planId)
  {
    if BatchClaimCall(s, c, claimed, entries).Ok? {
      AutoTriggeredIs(s, c, claimed);
      BatchTriggers(AutoTriggered(s, c, claimed), c, claimed, entries, |entries|);
    }
  }

  lemma ClaimElsewhereKeepsRecord(s: Store, c: Context, op: Op, planId: PlanId)
    requires Valid(s) && (op.Claim? || op.BatchClaim?) && op.planId != planId && planId in s.triggers
    ensures RecordStays(s, Invoke(s, c, op), planId)
  {
    match op {
      case Claim(claimed, entry) => ClaimKeepsRecord(s, c, claimed, entry, planId);
      case BatchClaim(claimed, entries) => BatchKeepsRecord(s, c, claimed, entries, planId);
    }
  }

  lemma LoanCallElsewhereKeepsRecord(s: Store, c: Context, op: Op, planId: PlanId)
    requires (op.Recall? || op.Liquidate?) && op.planId != planId && planId in s.triggers
    ensures RecordStays(s, Invoke(s, c, op), planId)
  {
    if op.Recall? {
      RecallSettles(s, c, op.planId, op.amount);
    } else {
      LiquidateSettles(s, c, op.planId);
    }
  }

  lemma TriggerElsewhereKeepsRecord(s: Store, c: Context, op: Op, planId: PlanId)
    requires (op.AutoTrigger? || op.Trigger?) && op.planId != planId && planId in s.triggers
    ensures RecordStays(s, Invoke(s, c, op), planId)
  {
    if op.Trigger? {
      TriggerEffect(s, c, op.caller, op.planId);
    } else {
      AutoTriggerEffect(s, c, op.planId);
    }
  }

  lemma OtherKeepsRecord(s: Store, c: Context, op: Op, planId: PlanId)
    requires op.Deactivate? || op.TransferOwnership? || op.Deposit? || op.Withdraw? || EditsOnly(op)
    requires planId in s.triggers
    ensures RecordStays(s, Invoke(s, c, op), planId)
  {
    if op.TransferOwnership? {
      TransferRelists(s, c, op.owner, op.newOwner, op.planId);
    } else if op.Deposit? {
      DepositTidy(s, c, op.caller, op.token, op.planId, op.amount);
    } else if op.Withdraw? {
      WithdrawTidy(s, c, op.caller, op.token, op.planId, op.amount);
    } else if EditsOnly(op) {
      EditingCalls(s, c, op);
    }
  }

  lemma CallElsewhereKeepsRecord(s: Store, c: Context, op: Op, planId: PlanId)
    requires Valid(s) && (op.Create? || op.planId != planId) && planId in s.triggers
    ensures RecordStays(s, Invoke(s, c, op), planId)
  {
    if op.Create? {
      CreateKeepsRecord(s, c, op, planId);
    } else if op.Claim? || op.BatchClaim? {
      ClaimElsewhereKeepsRecord(s, c, op, planId);
    } else if op.Recall? || op.Liquidate? {
      LoanCallElsewhereKeepsRecord(s, c, op, planId);
    } else if op.AutoTrigger? || op.Trigger? {
      TriggerElsewhereKeepsRecord(s, c, op, planId);
    } else {
      OtherKeepsRecord(s, c, op, planId);
    }
  }

  lemma CallElsewhereKeepsBooks(s: Store, c: Context, op: Op, planId: PlanId)
    requires Valid(s) && planId in s.plans && (op.Create? || op.planId != planId) && Invoke(s, c, op).Ok?
    ensures BooksKept(s, Step(s, c, op), planId, FlowBy(s, c, op, planId), PaidBy(s, c, op, planId))
  {
    assert planId != WrittenPlan(s, op);
    StepWritesOne(s, c, op);
    NoneTo(PaymentsBy(s, c, op), WrittenPlan(s, op), planId);
    if planId in s.triggers {
      CallElsewhereKeepsRecord(s, c, op, planId);
    }
    NothingMoved(s, Step(s, c, op), planId);
  }

  lemma StepKeepsPlanBooks(s: Store, c: Context, op: Op, planId: PlanId)
    requires Valid(s) && planId in s.plans && (Invoke(s, c, op).Ok? ==> FromOutside(c, op))
    ensures BooksKept(s, Step(s, c, op), planId, FlowBy(s, c, op, planId), PaidBy(s, c, op, planId))
  {
    if Invoke(s, c, op).Err? {
      NothingMoved(s, s, planId);
    } else if op.Create? || op.planId != planId {
      CallElsewhereKeepsBooks(s, c, op, planId);
    } else {
      OwnCallKeepsBooks(s, c, op);
    }
  }

  /**
   Over every run: a plan's balance is what it was, with the deposits in it, less withdrawals, lost loans and claims;
   its loans are what they were less recalls and settlements; and its trigger record has counted just those.
   */
  lemma {:induction false} PlanBooksBalance(s: Store, calls: seq<Event>, planId: PlanId)
    requires Valid(s) && planId in s.plans && AllFromOutside(s, calls)
    ensures BooksKept(s, Run(s, calls), planId, FlowOf(s, calls, planId), Paid(PaymentsTo(Payments(s, calls), planId)))
  {
    if calls == [] {
      NothingMoved(s, s, planId);
    } else {
      var n := |calls| - 1;
      var before, c, op := Run(s, calls[..n]), calls[n].0, calls[n].1;
      PrefixFromOutside(s, calls, n);
      PlanBooksBalance(s, calls[..n], planId);
      RunKeepsValid(s, calls[..n]);
      assert Invoke(before, c, op).Ok? ==> Accepted(s, calls, n);
      StepKeepsPlanBooks(before, c, op, planId);
      var paid := Payments(s, calls[..n]);
      PaymentsToAdds(paid, PaymentsBy(before, c, op), planId);
      PaidAdds(PaymentsTo(paid, planId), PaymentsTo(PaymentsBy(before, c, op), planId));
      BooksChain(s, before, Run(s, calls), planId, FlowOf(s, calls[..n], planId), Paid(PaymentsTo(paid, planId)),
                 FlowBy(before, c, op, planId), PaidBy(before, c, op, planId));
    }
  }

  // ---------- wallets ----------

  /** What an accepted call takes out of an account's wallet: its own creations and deposits. */
  function SpentBy(s: Store, c: Context, op: Op, t: Token, a: Address): nat {
    if Invoke(s, c, op).Err? then 0
    else if op.Create? && op.owner == a && op.token == t then op.amount
    else if op.Deposit? && op.caller == a && op.token == t then op.amount
    else 0
  }

  /** What it brings in: its own withdrawals, and the fees of creations for the admin. */
  function ReceivedBy(s: Store, c: Context, op: Op, t: Token, a: Address): nat {
    if Invoke(s, c, op).Err? then 0
    else if op.Withdraw? && op.caller == a && op.token == t then op.amount
    else if op.Create? && c.admin == Some(a) && op.token == t then CreationFee(op.amount)
    else 0
  }

  function Spent(s: Store, calls: seq<Event>, t: Token, a: Address): nat {
    if calls == [] then 0
    else
      var n := |calls| - 1;
      Spent(s, calls[..n], t, a) + SpentBy(Run(s, calls[..n]), calls[n].0, calls[n].1, t, a)
  }

  function Received(s: Store, calls: seq<Event>, t: Token, a: Address): nat {
    if calls == [] then 0
    else
      var n := |calls| - 1;
      Received(s, calls[..n], t, a) + ReceivedBy(Run(s, calls[..n]), calls[n].0, calls[n].1, t, a)
  }

  /** The accepted call moves no wallet. */
  ghost predicate WalletsStay(s: Store, r: CallResult) {
    r.Ok? ==> r.value.store.wallets == s.wallets
  }

  lemma ClaimsMoveNoWallet(s: Store, c: Context, op: Op)
    requires Valid(s) && (op.Claim? || op.BatchClaim?)
    ensures WalletsStay(s, Invoke(s, c, op))
  {
    if Invoke(s, c, op).Ok? {
      if op.Claim? {
        var i := ClaimEffect(s, c, op.planId, op.entry);
      } else {
        AutoTriggeredIs(s, c, op.planId);
        BatchTriggers(AutoTriggered(s, c, op.planId), c, op.planId, op.entries, |op.entries|);
      }
    }
  }

  lemma SettlementsMoveNoWallet(s: Store, c: Context, op: Op)
    requires op.Recall? || op.Liquidate? || op.AutoTrigger? || op.Trigger?
    ensures WalletsStay(s, Invoke(s, c, op))
  {
    match op {
      case Recall(planId, amount) => RecallEffect(s, c, planId, amount);
      case Liquidate(planId) => LiquidationEffect(s, c, planId);
      case Trigger(caller, planId) => TriggerEffect(s, c, caller, planId);
      case AutoTrigger(planId) => AutoTriggerEffect(s, c, planId);
    }
  }

  lemma OtherCallsMoveNoWallet(s: Store, c: Context, op: Op)
    requires op.Deactivate? || op.TransferOwnership? || EditsOnly(op)
    ensures WalletsStay(s, Invoke(s, c, op))
  {
    if op.TransferOwnership? {
      TransferRelists(s, c, op.owner, op.newOwner, op.planId);
    } else if EditsOnly(op) {
      EditingCalls(s, c, op);
    }
  }

  ghost predicate WalletKept(s: Store, s': Store, t: Token, a: Address, spent: nat, received: nat) {
    BalanceOf(s', t, a) + spent == BalanceOf(s, t, a) + received
  }

  lemma CreationKeepsWallet(s: Store, c: Context, op: Op, t: Token, a: Address)
    requires op.Create? && FromOutside(c, op) && a != Contract && Invoke(s, c, op).Ok?
    ensures WalletKept(s, Step(s, c, op), t, a, SpentBy(s, c, op, t, a), ReceivedBy(s, c, op, t, a))
  {
    var fee := CreateIsCharged(s, c, op);
    CreateShape(s, c, op, fee);
    CreationSplitsAmount(s, c, op);
  }

  lemma MoneyCallKeepsWallet(s: Store, c: Context, op: Op, t: Token, a: Address)
    requires (op.Deposit? || op.Withdraw?) && FromOutside(c, op) && a != Contract && Invoke(s, c, op).Ok?
    ensures WalletKept(s, Step(s, c, op), t, a, SpentBy(s, c, op, t, a), ReceivedBy(s, c, op, t, a))
  {
    if op.Deposit? {
      DepositAcceptedIff(s, c, op.caller, op.token, op.planId, op.amount);
      DepositEffect(s, c, op.caller, op.token, op.planId, op.amount);
    } else {
      WithdrawalAcceptedIff(s, c, op.caller, op.token, op.planId, op.amount);
      WithdrawalEffect(s, c, op.caller, op.token, op.planId, op.amount);
    }
  }

  lemma StepKeepsWallet(s: Store, c: Context, op: Op, t: Token, a: Address)
    requires Valid(s) && a != Contract && (Invoke(s, c, op).Ok? ==> FromOutside(c, op))
    ensures WalletKept(s, Step(s, c, op), t, a, SpentBy(s, c, op, t, a), ReceivedBy(s, c, op, t, a))
  {
    if Invoke(s, c, op).Ok? {
      if op.Create? {
        CreationKeepsWallet(s, c, op, t, a);
      } else if op.Deposit? || op.Withdraw? {
        MoneyCallKeepsWallet(s, c, op, t, a);
      } else if op.Claim? || op.BatchClaim? {
        ClaimsMoveNoWallet(s, c, op);
      } else if op.Recall? || op.Liquidate? || op.AutoTrigger? || op.Trigger? {
        SettlementsMoveNoWallet(s, c, op);
      } else {
        OtherCallsMoveNoWallet(s, c, op);
      }
    }
  }

  /**
   Over every run: an account's balance of any token is what it was, with its own withdrawals and the fees it got as
   admin, less its own creations and deposits. So nobody's wallet falls without a call of its own.
   */
  lemma {:induction false} WalletsBalance(s: Store, calls: seq<Event>, t: Token, a: Address)
    requires Valid(s) && AllFromOutside(s, calls) && a != Contract
    ensures BalanceOf(Run(s, calls), t, a) + Spent(s, calls, t, a) == BalanceOf(s, t, a) + Received(s, calls, t, a)
  {
    if calls != [] {
      var n := |calls| - 1;
      var before, c, op := Run(s, calls[..n]), calls[n].0, calls[n].1;
      PrefixFromOutside(s, calls, n);
      WalletsBalance(s, calls[..n], t, a);
      RunKeepsValid(s, calls[..n]);
      assert Invoke(before, c, op).Ok? ==> Accepted(s, calls, n);
      StepKeepsWallet(before, c, op, t, a);
      assert WalletKept(before, Run(s, calls), t, a, SpentBy(before, c, op, t, a), ReceivedBy(before, c, op, t, a));
    }
  }
}
