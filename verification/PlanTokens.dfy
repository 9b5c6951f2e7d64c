/**
 Conservation token by token. A plan does not record the token it was created with, and deposits and
 withdrawals take any token, so the books balance for each token exactly while they name the plan's own.
 */
module PlanTokens {
  import opened MachineInts
  import opened ContractErrors
  import opened PlanTypes
  import opened PlanLedger
  import opened PlanInvariants
  import opened PlanRuns
  import opened PlanRoundTrips
  import opened MapSums

  /** The token that each plan was created with. */
  type Homes = map<PlanId, Token>

  function HomesAfter(homes: Homes, s: Store, c: Context, op: Op): Homes {
    if op.Create? && Invoke(s, c, op).Ok? then homes[s.nextPlanId := op.token] else homes
  }

  function HomesOf(s: Store, homes: Homes, calls: seq<Event>): Homes {
    if calls == [] then homes
    else
      var n := |calls| - 1;
      HomesAfter(HomesOf(s, homes, calls[..n]), Run(s, calls[..n]), calls[n].0, calls[n].1)
  }

  predicate Homed(s: Store, homes: Homes) {
    homes.Keys == s.plans.Keys
  }

  predicate IsHome(homes: Homes, planId: PlanId, t: Token) {
    planId in homes && homes[planId] == t
  }

  /** A deposit or withdrawal in the plan's own token. */
  predicate AtHome(homes: Homes, op: Op) {
    op.Deposit? || op.Withdraw? ==> IsHome(homes, op.planId, op.token)
  }

  // ---------- the books of one token ----------

  ghost function AmountsAt(plans: map<PlanId, Plan>, homes: Homes, t: Token): map<nat, nat> {
    map id | id in plans :: if IsHome(homes, id, t) then plans[id].totalAmount else 0
  }

  /** What the contract owes in one token. */
  ghost function OwedAt(s: Store, homes: Homes, t: Token): nat {
    SumOf(AmountsAt(s.plans, homes, t))
  }

  function PaidAt(payments: seq<Payment>, homes: Homes, t: Token): nat {
    if payments == [] then 0
    else
      var n := |payments| - 1;
      PaidAt(payments[..n], homes, t) + if IsHome(homes, payments[n].planId, t) then payments[n].amount else 0
  }

  /** The plan that a call may write. */
  function WrittenPlan(s: Store, op: Op): PlanId {
    if op.Create? then s.nextPlanId else op.planId
  }

  function WrittenOffAt(s: Store, c: Context, op: Op, homes: Homes, t: Token): nat {
    if IsHome(homes, WrittenPlan(s, op), t) then WrittenOffBy(s, c, op) else 0
  }

  /** What a run pays to claims of plans at home in the token, and what it writes off them. */
  function SpentAt(s: Store, homes: Homes, calls: seq<Event>, t: Token): nat {
    if calls == [] then 0
    else
      var n := |calls| - 1;
      var before, known, c, op := Run(s, calls[..n]), HomesOf(s, homes, calls[..n]), calls[n].0, calls[n].1;
      SpentAt(s, homes, calls[..n], t) + PaidAt(PaymentsBy(before, c, op), known, t)
        + WrittenOffAt(before, c, op, known, t)
  }

  // ---------- each call writes one plan ----------

  /** No plan but `w` has changed, and none has gone. */
  ghost predicate OnlyAt(s: Store, s': Store, w: PlanId) {
    s'.plans == s.plans || (w in s'.plans && s'.plans == s.plans[w := s'.plans[w]])
  }

  ghost predicate AllTo(payments: seq<Payment>, w: PlanId) {
    forall i :: 0 <= i < |payments| ==> payments[i].planId == w
  }

  /** An accepted call writes the plan, and pays only its claims. */
  ghost predicate WritesOne(s: Store, r: CallResult, w: PlanId) {
    r.Ok? ==> OnlyAt(s, r.value.store, w) && AllTo(r.value.payments, w)
  }

  lemma StatusCallsWriteOne(s: Store, c: Context, op: Op)
    requires op.Deactivate? || op.AutoTrigger? || op.Trigger?
    ensures WritesOne(s, Invoke(s, c, op), op.planId)
  {
  }

  lemma TransferWritesOne(s: Store, c: Context, owner: Address, newOwner: Address, planId: PlanId)
    ensures WritesOne(s, TransferOwnershipCall(s, c, owner, newOwner, planId), planId)
  {
    TransferRelists(s, c, owner, newOwner, planId);
  }

  lemma LoanCallsWriteOne(s: Store, c: Context, op: Op)
    requires op.Recall? || op.Liquidate?
    ensures WritesOne(s, Invoke(s, c, op), op.planId)
  {
    if op.Recall? {
      RecallSettles(s, c, op.planId, op.amount);
    } else {
      LiquidateSettles(s, c, op.planId);
    }
  }

  lemma MoneyCallsWriteOne(s: Store, c: Context, op: Op)
    requires op.Deposit? || op.Withdraw?
    ensures WritesOne(s, Invoke(s, c, op), op.planId)
  {
    if op.Deposit? {
      DepositTidy(s, c, op.caller, op.token, op.planId, op.amount);
    } else {
      WithdrawTidy(s, c, op.caller, op.token, op.planId, op.amount);
    }
  }

  lemma AutoTriggeredOnlyAt(s: Store, c: Context, planId: PlanId)
    ensures OnlyAt(s, AutoTriggered(s, c, planId), planId)
  {
  }

  lemma OnlyAtChains(s: Store, middle: Store, s': Store, w: PlanId)
    requires OnlyAt(s, middle, w) && OnlyAt(middle, s', w)
    ensures OnlyAt(s, s', w)
  {
  }

  lemma ClaimWritesOne(s: Store, c: Context, planId: PlanId, entry: ClaimEntry)
    ensures WritesOne(s, ClaimCall(s, c, planId, entry), planId)
  {
    var r := ClaimCall(s, c, planId, entry);
    ClaimShape(s, c, planId, entry);
    if r.Ok? {
      var s1, plan := AutoTriggered(s, c, planId), s.plans[planId];
      var index := ClaimTarget(c, planId, plan, entry).value;
      AutoTriggeredOnlyAt(s, c, planId);
      RecordPayoutShape(s1, c, planId, plan, entry.email, index, PayoutAmount(s1, planId, plan, index));
      OnlyAtChains(s, s1, r.value.store, planId);
    }
  }

  lemma ClaimOneWritesOne(p: BatchProgress, c: Context, planId: PlanId, entry: ClaimEntry)
    requires planId in p.store.plans && AllTo(p.payments, planId)
    ensures var p' := ClaimOne(p, c, planId, entry);
            planId in p'.store.plans && OnlyAt(p.store, p'.store, planId) && AllTo(p'.payments, planId)
  {
    ClaimOneTidy(p, c, planId, entry);
    FindBeneficiaryInBounds(p.store.plans[planId].beneficiaries, entry, 0);
  }

  lemma {:induction false} ClaimEachWritesOne(s: Store, c: Context, planId: PlanId, entries: seq<ClaimEntry>, k: nat)
    requires planId in s.plans && k <= |entries|
    ensures var p := ClaimEach(s, c, planId, entries, k);
            planId in p.store.plans && OnlyAt(s, p.store, planId) && AllTo(p.payments, planId)
    decreases k
  {
    if k > 0 {
      var p := ClaimEach(s, c, planId, entries, k - 1);
      ClaimEachWritesOne(s, c, planId, entries, k - 1);
      ClaimOneWritesOne(p, c, planId, entries[k - 1]);
      OnlyAtChains(s, p.store, ClaimOne(p, c, planId, entries[k - 1]).store, planId);
    }
  }

  lemma BatchClaimWritesOne(s: Store, c: Context, planId: PlanId, entries: seq<ClaimEntry>)
    ensures WritesOne(s, BatchClaimCall(s, c, planId, entries), planId)
  {
    var r := BatchClaimCall(s, c, planId, entries);
    if r.Ok? {
      var s1 := AutoTriggered(s, c, planId);
      AutoTriggeredOnlyAt(s, c, planId);
      AutoTriggeredKeepsPlan(s, c, planId);
      ClaimEachWritesOne(s1, c, planId, entries, |entries|);
      OnlyAtChains(s, s1, r.value.store, planId);
    }
  }

  lemma CreateWritesOne(s: Store, c: Context, op: Op)
    requires op.Create?
    ensures WritesOne(s, Invoke(s, c, op), s.nextPlanId)
    ensures Invoke(s, c, op).Ok? ==> s.nextPlanId in Step(s, c, op).plans
  {
    if Invoke(s, c, op).Ok? {
      var fee := CreateIsCharged(s, c, op);
      CreateAddsPlan(s, c, op, fee);
      var funded := CreateRegisters(s, c, op, fee);
      RegisterShape(funded, c, op.owner, op.amount - fee, op.distribution, op.inputs, op.lendable);
    }
  }

  lemma StepWritesOne(s: Store, c: Context, op: Op)
    ensures WritesOne(s, Invoke(s, c, op), WrittenPlan(s, op))
  {
    if op.Create? {
      CreateWritesOne(s, c, op);
    } else if op.Claim? {
      ClaimWritesOne(s, c, op.planId, op.entry);
    } else if op.BatchClaim? {
      BatchClaimWritesOne(s, c, op.planId, op.entries);
    } else if op.Deposit? || op.Withdraw? {
      MoneyCallsWriteOne(s, c, op);
    } else if op.Recall? || op.Liquidate? {
      LoanCallsWriteOne(s, c, op);
    } else if op.TransferOwnership? {
      TransferWritesOne(s, c, op.owner, op.newOwner, op.planId);
    } else if op.Deactivate? || op.AutoTrigger? || op.Trigger? {
      StatusCallsWriteOne(s, c, op);
    } else {
      EditingCalls(s, c, op);
    }
  }

  // ---------- one step, one token ----------

  /** Writing one plan moves the debt of its own token by the whole change, and no other token's. */
  lemma OwedAtMoves(s: Store, s': Store, w: PlanId, homes: Homes, homes': Homes, t: Token)
    requires OnlyAt(s, s', w) && Homed(s, homes) && Homed(s', homes')
    requires forall id <- s.plans :: homes'[id] == homes[id]
    ensures if IsHome(homes', w, t) then OwedAt(s', homes', t) + Owed(s) == OwedAt(s, homes, t) + Owed(s')
            else OwedAt(s', homes', t) == OwedAt(s, homes, t)
  {
    if s'.plans == s.plans {
      assert AmountsAt(s'.plans, homes', t) == AmountsAt(s.plans, homes, t);
    } else {
      var amount := s'.plans[w].totalAmount;
      var v := if IsHome(homes', w, t) then amount else 0;
      assert AmountsAt(s'.plans, homes', t) == AmountsAt(s.plans, homes, t)[w := v];
      SumAfterUpdate(AmountsAt(s.plans, homes, t), w, v);
      OwedAfterWrite(s, s', w, s'.plans[w]);
    }
  }

  lemma {:induction false} PaidAtOne(payments: seq<Payment>, homes: Homes, t: Token, w: PlanId)
    requires AllTo(payments, w)
    ensures PaidAt(payments, homes, t) == if IsHome(homes, w, t) then Paid(payments) else 0
  {
    if payments != [] {
      PaidAtOne(payments[..|payments| - 1], homes, t, w);
    }
  }

  lemma StepKeepsHomed(s: Store, c: Context, op: Op, homes: Homes)
    requires PlansOk(s) && Homed(s, homes) && Invoke(s, c, op).Ok?
    ensures Homed(Step(s, c, op), HomesAfter(homes, s, c, op))
    ensures forall id <- s.plans :: HomesAfter(homes, s, c, op)[id] == homes[id]
  {
    StepWritesOne(s, c, op);
    if op.Create? {
      CreateWritesOne(s, c, op);
      assert s.nextPlanId !in s.plans;
    } else {
      StepKeepsPlanIds(s, c, op);
    }
  }

  lemma StepKeepsPlanIds(s: Store, c: Context, op: Op)
    requires !op.Create? && Invoke(s, c, op).Ok?
    ensures Step(s, c, op).plans.Keys == s.plans.Keys
  {
    StepWritesOne(s, c, op);
    if op.planId !in s.plans {
      UnknownPlanChangesNothing(s, c, op);
    }
  }

  lemma UnknownPlanChangesNothing(s: Store, c: Context, op: Op)
    requires !op.Create? && op.planId !in s.plans && Invoke(s, c, op).Ok?
    ensures Step(s, c, op) == s
  {
  }

  /** The books of one token, from one moment to a later one. */
  ghost predicate BooksAgree(s: Store, homes: Homes, s': Store, homes': Homes, t: Token, spent: nat) {
    BalanceOf(s', t, Contract) + OwedAt(s, homes, t) == BalanceOf(s, t, Contract) + OwedAt(s', homes', t) + spent
  }

  /** A call that moves no token lowers the debt of the written plan's token by what it spends. */
  lemma SpendingKeepsBooks(s: Store, s': Store, w: PlanId, homes: Homes, t: Token, payments: seq<Payment>,
                           writtenOff: nat)
    requires OnlyAt(s, s', w) && Homed(s, homes) && Homed(s', homes) && AllTo(payments, w)
    requires Balanced(s, s', None, Paid(payments), writtenOff)
    ensures BooksAgree(s, homes, s', homes, t,
                       PaidAt(payments, homes, t) + if IsHome(homes, w, t) then writtenOff else 0)
  {
    OwedAtMoves(s, s', w, homes, homes, t);
    PaidAtOne(payments, homes, t, w);
  }

  /** A token movement in the written plan's own token keeps every token's books. */
  lemma MovementKeepsBooks(s: Store, s': Store, w: PlanId, homes: Homes, homes': Homes, moved: Token, t: Token)
    requires OnlyAt(s, s', w) && Homed(s, homes) && Homed(s', homes') && IsHome(homes', w, moved)
    requires forall id <- s.plans :: homes'[id] == homes[id]
    requires Balanced(s, s', Some(moved), 0, 0)
    ensures BooksAgree(s, homes, s', homes', t, 0)
  {
    OwedAtMoves(s, s', w, homes, homes', t);
  }

  lemma StepKeepsBooks(s: Store, c: Context, op: Op, homes: Homes, t: Token)
    requires Valid(s) && Homed(s, homes) && FromOutside(c, op) && AtHome(homes, op) && Invoke(s, c, op).Ok?
    ensures BooksAgree(s, homes, Step(s, c, op), HomesAfter(homes, s, c, op), t,
                       PaidAt(PaymentsBy(s, c, op), homes, t) + WrittenOffAt(s, c, op, homes, t))
  {
    var s', homes', w := Step(s, c, op), HomesAfter(homes, s, c, op), WrittenPlan(s, op);
    StepBalanced(s, c, op);
    StepWritesOne(s, c, op);
    StepKeepsHomed(s, c, op, homes);
    if TokenOf(op).Some? {
      MovementKeepsBooks(s, s', w, homes, homes', TokenOf(op).value, t);
      PaidAtOne(PaymentsBy(s, c, op), homes, t, w);
    } else {
      SpendingKeepsBooks(s, s', w, homes, t, PaymentsBy(s, c, op), WrittenOffBy(s, c, op));
    }
  }

  /** An accepted deposit or withdrawal keeps all tokens' books exactly when it names the plan's own token. */
  lemma BooksKeptIffAtHome(s: Store, c: Context, op: Op, homes: Homes)
    requires Valid(s) && Homed(s, homes) && FromOutside(c, op)
    requires (op.Deposit? || op.Withdraw?) && Invoke(s, c, op).Ok?
    ensures (forall t :: BooksAgree(s, homes, Step(s, c, op), homes, t, 0)) <==> IsHome(homes, op.planId, op.token)
  {
    var s' := Step(s, c, op);
    StepKeepsHomed(s, c, op, homes);
    StepBalanced(s, c, op);
    StepWritesOne(s, c, op);
    if IsHome(homes, op.planId, op.token) {
      forall t
        ensures BooksAgree(s, homes, s', homes, t, 0)
      {
        MovementKeepsBooks(s, s', op.planId, homes, homes, op.token, t);
      }
    } else {
      MoneyCallChangesDebt(s, c, op);
      OwedAtMoves(s, s', op.planId, homes, homes, op.token);
      assert !BooksAgree(s, homes, s', homes, op.token, 0);
    }
  }

  lemma MoneyCallChangesDebt(s: Store, c: Context, op: Op)
    requires (op.Deposit? || op.Withdraw?) && FromOutside(c, op) && Invoke(s, c, op).Ok?
    ensures Owed(Step(s, c, op)) != Owed(s)
  {
    var s' := Step(s, c, op);
    MoneyCallsWriteOne(s, c, op);
    OwedAfterWrite(s, s', op.planId, s'.plans[op.planId]);
  }

  // ---------- runs ----------

  /** Every accepted deposit and withdrawal of the run names the plan's own token. */
  ghost predicate AllAtHome(s: Store, homes: Homes, calls: seq<Event>) {
    forall i :: 0 <= i < |calls| && Accepted(s, calls, i) ==> AtHome(HomesOf(s, homes, calls[..i]), calls[i].1)
  }

  lemma PrefixAtHome(s: Store, homes: Homes, calls: seq<Event>, n: nat)
    requires n <= |calls| && AllAtHome(s, homes, calls)
    ensures AllAtHome(s, homes, calls[..n])
  {
    forall i | 0 <= i < n && Accepted(s, calls[..n], i)
      ensures AtHome(HomesOf(s, homes, calls[..n][..i]), calls[..n][i].1)
    {
      PrefixAccepted(s, calls, n, i);
      assert calls[..n][..i] == calls[..i];
    }
  }

  lemma BooksChain(s: Store, h: Homes, m: Store, hm: Homes, s': Store, h': Homes, t: Token, a: nat, b: nat)
    requires BooksAgree(s, h, m, hm, t, a) && BooksAgree(m, hm, s', h', t, b)
    ensures BooksAgree(s, h, s', h', t, a + b)
  {
  }

  /** Conservation of every single token, in runs over any number of them. */
  lemma {:induction false} ConservationOfToken(s: Store, homes: Homes, calls: seq<Event>, t: Token)
    requires Valid(s) && Homed(s, homes) && AllFromOutside(s, calls) && AllAtHome(s, homes, calls)
    ensures Homed(Run(s, calls), HomesOf(s, homes, calls))
    ensures BooksAgree(s, homes, Run(s, calls), HomesOf(s, homes, calls), t, SpentAt(s, homes, calls, t))
  {
    if calls != [] {
      var n := |calls| - 1;
      var before, known, c, op := Run(s, calls[..n]), HomesOf(s, homes, calls[..n]), calls[n].0, calls[n].1;
      PrefixFromOutside(s, calls, n);
      PrefixAtHome(s, homes, calls, n);
      ConservationOfToken(s, homes, calls[..n], t);
      RunKeepsValid(s, calls[..n]);
      assert Invoke(before, c, op).Ok? ==> Accepted(s, calls, n);
      AnyCallKeepsBooks(before, known, c, op, t);
      BooksChain(s, homes, before, known, Run(s, calls), HomesOf(s, homes, calls), t, SpentAt(s, homes, calls[..n], t),
                 PaidAt(PaymentsBy(before, c, op), known, t) + WrittenOffAt(before, c, op, known, t));
    }
  }

  lemma AnyCallKeepsBooks(s: Store, homes: Homes, c: Context, op: Op, t: Token)
    requires Valid(s) && Homed(s, homes)
    requires Invoke(s, c, op).Ok? ==> FromOutside(c, op) && AtHome(homes, op)
    ensures Homed(Step(s, c, op), HomesAfter(homes, s, c, op))
    ensures BooksAgree(s, homes, Step(s, c, op), HomesAfter(homes, s, c, op), t,
                       PaidAt(PaymentsBy(s, c, op), homes, t) + WrittenOffAt(s, c, op, homes, t))
  {
    if Invoke(s, c, op).Ok? {
      StepKeepsHomed(s, c, op, homes);
      StepKeepsBooks(s, c, op, homes, t);
    }
  }

  /** A plan within the contract's balance can be drawn on. */
  lemma BackedWithdrawal(s: Store, c: Context, caller: Address, t: Token, planId: PlanId, amount: u64)
    requires planId in s.plans ==> s.plans[planId].totalAmount <= BalanceOf(s, t, Contract)
    ensures WithdrawCall(s, c, caller, t, planId, amount) != Err(FeeTransferFailed)
  {
  }

  /**
   From deployment, whatever anybody's wallets held: the contract's balance of each token is what it owes
   in it, plus the claims paid and loans written off. So every plan is covered by its own token at every
   moment, and no withdrawal in that token fails for want of it.
   */
  lemma EveryPlanIsBacked(wallets: map<(Token, Address), nat>, calls: seq<Event>, planId: PlanId, t: Token)
    requires AllFromOutside(Deployed(wallets), calls) && AllAtHome(Deployed(wallets), map[], calls)
    ensures var s, homes := Run(Deployed(wallets), calls), HomesOf(Deployed(wallets), map[], calls);
            && BalanceOf(s, t, Contract) == OwedAt(s, homes, t) + SpentAt(Deployed(wallets), map[], calls, t)
            && (planId in s.plans && IsHome(homes, planId, t) ==>
                  s.plans[planId].totalAmount <= BalanceOf(s, t, Contract))
            && (planId in s.plans ==> planId in homes)
    ensures var s, homes := Run(Deployed(wallets), calls), HomesOf(Deployed(wallets), map[], calls);
            forall c, caller, amount: u64 ::
              IsHome(homes, planId, t) ==> WithdrawCall(s, c, caller, t, planId, amount) != Err(FeeTransferFailed)
  {
    var s0, s, homes := Deployed(wallets), Run(Deployed(wallets), calls), HomesOf(Deployed(wallets), map[], calls);
    DeployedValid(wallets);
    assert AmountsAt(s0.plans, map[], t) == map[];
    ConservationOfToken(s0, map[], calls, t);
    if IsHome(homes, planId, t) {
      ValueAtMostSum(AmountsAt(s.plans, homes, t), planId);
      forall c, caller, amount: u64
        ensures WithdrawCall(s, c, caller, t, planId, amount) != Err(FeeTransferFailed)
      {
        BackedWithdrawal(s, c, caller, t, planId, amount);
      }
    }
  }

  // ---------- why the token matters ----------

  const HEIR: BeneficiaryInput := BeneficiaryInput("Heir", "heir@example.org", 123_456, "IBAN", 10_000, 1)

  /** A call by approved owners, with nothing frozen, pending or triggered. */
  function Calm(admin: Address, owners: set<Address>): Context {
    Context(0, false, Some(admin), false, owners, {}, {}, {}, map[], {})
  }

  function SoloPlan(owner: Address, lendable: bool): Plan {
    Plan(98, LumpSum, [Beneficiary("Heir", "heir@example.org", "IBAN", 10_000, 1, false)], 10_000, owner, 0,
         true, lendable, 0, false)
  }

  function SoloCreation(owner: Address, token: Token, lendable: bool): Op {
    Create(owner, token, "Plan", "", 100, LumpSum, [HEIR], lendable)
  }

  lemma SoloBeneficiary()
    ensures ValidateBeneficiaries([HEIR]) == Pass
    ensures BuildBeneficiaries([HEIR], 1) == Ok(SoloPlan(Contract, false).beneficiaries)
  {
    assert ScanInputs([HEIR], 0) == Ok(0);
    assert ScanInputs([HEIR], 1) == Ok(10_000);
    var b := SoloPlan(Contract, false).beneficiaries[0];
    assert BuildBeneficiaries([HEIR], 0) == Ok([]) && CreateBeneficiary(HEIR) == Ok(b);
    var none: seq<Beneficiary> := [];
    assert [HEIR][0] == HEIR && none + [b] == [b];
    assert BuildBeneficiaries([HEIR], 1) == Ok(none + [b]);
    assert SoloPlan(Contract, false).beneficiaries == [b];
  }

  lemma SoloRegistration(s: Store, admin: Address, owners: set<Address>, owner: Address, lendable: bool)
    requires s.nextPlanId < U64_MAX
    ensures RegisterCall(s, Calm(admin, owners), owner, 98, LumpSum, [HEIR], lendable) ==
            Ok(Effect(Registered(s, SoloPlan(owner, lendable)), Created(s.nextPlanId), [], 0))
  {
    SoloBeneficiary();
  }

  lemma SoloChecks(s: Store, admin: Address, owners: set<Address>, owner: Address, token: Token)
    requires owner in owners && BalanceOf(s, token, owner) >= 100
    ensures CreateGuard(s, Calm(admin, owners), owner, token, "Plan", "", 100, 2) == Pass
  {
  }

  /** A plan of 98 of the token more, with 98 more in the contract's hands; no trigger, claim or settlement moves. */
  ghost predicate SoloCreated(s: Store, s': Store, owner: Address, token: Token, lendable: bool)
    requires s.nextPlanId < U64_MAX
  {
    && s'.nextPlanId == s.nextPlanId + 1
    && s'.plans == s.plans[s.nextPlanId := SoloPlan(owner, lendable)]
    && s'.triggers == s.triggers && s'.claims == s.claims && s'.settlements == s.settlements
    && s'.custody == s.custody[token := BalanceOf(s, token, Contract) + 98]
    && forall t, a :: t != token && a != Contract ==> BalanceOf(s', t, a) == BalanceOf(s, t, a)
  }

  lemma TransferKeepsOtherTokens(s: Store, token: Token, from: Address, to: Address, amount: nat, t: Token, a: Address)
    requires t != token
    ensures BalanceOf(TransferOrIgnore(s, token, from, to, amount), t, a) == BalanceOf(s, t, a)
  {
  }

  lemma OtherWalletsStay(s: Store, token: Token, owner: Address, admin: Address, fee: u64, net: u64)
    ensures forall t, a :: t != token && a != Contract ==>
              BalanceOf(Funded(s, token, owner, admin, fee, net), t, a) == BalanceOf(s, t, a)
  {
    forall t, a | t != token && a != Contract
      ensures BalanceOf(Funded(s, token, owner, admin, fee, net), t, a) == BalanceOf(s, t, a)
    {
      var charged := if fee > 0 then TransferOrIgnore(s, token, owner, admin, fee) else s;
      TransferKeepsOtherTokens(s, token, owner, admin, fee, t, a);
      TransferKeepsOtherTokens(charged, token, owner, Contract, net, t, a);
    }
  }

  lemma SoloCreationWorks(s: Store, admin: Address, owners: set<Address>, owner: Address, token: Token, lendable: bool)
    returns (s': Store)
    requires s.nextPlanId < U64_MAX && owner in owners && owner != Contract && admin != Contract
    requires BalanceOf(s, token, owner) >= 100
    ensures SoloCreated(s, s', owner, token, lendable)
    ensures var r := CreateAt(s, Calm(admin, owners), SoloCreation(owner, token, lendable), 2);
            r.Ok? && r.value.store == s'
  {
    var funded := Funded(s, token, owner, admin, 2, 98);
    CreationFunds(s, token, owner, admin, 2, 98);
    OtherWalletsStay(s, token, owner, admin, 2, 98);
    SoloChecks(s, admin, owners, owner, token);
    SoloRegistration(funded, admin, owners, owner, lendable);
    s' := Registered(funded, SoloPlan(owner, lendable));
  }

  /** Creating a plan of 100 stores 98 and moves 98 of the token to the contract. */
  lemma SoloStep(s: Store, admin: Address, owners: set<Address>, owner: Address, token: Token, lendable: bool)
    returns (s': Store)
    requires s.nextPlanId < U64_MAX && owner in owners && owner != Contract && admin != Contract
    requires BalanceOf(s, token, owner) >= 100
    ensures SoloCreated(s, s', owner, token, lendable)
    ensures var c, op := Calm(admin, owners), SoloCreation(owner, token, lendable);
            Invoke(s, c, op).Ok? && Step(s, c, op) == s'
  {
    s' := SoloCreationWorks(s, admin, owners, owner, token, lendable);
    var fee := CreateIsCharged(s, Calm(admin, owners), SoloCreation(owner, token, lendable));
  }

  /** Alice is funded in token 0, Bob in token 1, and Alice then withdraws her balance in token 1. */
  function ForeignWithdrawal(alice: Address, bob: Address, admin: Address): seq<Event> {
    var calm := Calm(admin, {alice, bob});
    [(calm, SoloCreation(alice, 0, false)), (calm, SoloCreation(bob, 1, false)), (calm, Withdraw(alice, 1, 1, 98))]
  }

  lemma RunOfThree(s: Store, calls: seq<Event>)
    requires |calls| == 3
    ensures var s1 := Step(s, calls[0].0, calls[0].1);
            var s2 := Step(s1, calls[1].0, calls[1].1);
            Run(s, calls) == Step(s2, calls[2].0, calls[2].1)
  {
    assert calls[..2][..1] == calls[..1] && calls[..1][..0] == [];
    assert Run(s, calls[..1]) == Step(s, calls[0].0, calls[0].1);
    assert Run(s, calls[..2]) == Step(Run(s, calls[..1]), calls[1].0, calls[1].1);
  }

  lemma HomesOfThree(s: Store, calls: seq<Event>)
    requires |calls| == 3
    ensures var s1 := Step(s, calls[0].0, calls[0].1);
            var s2 := Step(s1, calls[1].0, calls[1].1);
            var h1 := HomesAfter(map[], s, calls[0].0, calls[0].1);
            var h2 := HomesAfter(h1, s1, calls[1].0, calls[1].1);
            HomesOf(s, map[], calls) == HomesAfter(h2, s2, calls[2].0, calls[2].1)
  {
    RunOfThree(s, calls);
    assert calls[..2][..1] == calls[..1] && calls[..1][..0] == [];
    assert Run(s, calls[..1]) == Step(s, calls[0].0, calls[0].1);
    assert Run(s, calls[..2]) == Step(Run(s, calls[..1]), calls[1].0, calls[1].1);
    assert HomesOf(s, map[], calls[..1]) == HomesAfter(map[], s, calls[0].0, calls[0].1);
    assert HomesOf(s, map[], calls[..2]) ==
           HomesAfter(HomesOf(s, map[], calls[..1]), Run(s, calls[..1]), calls[1].0, calls[1].1);
  }

  /** The contract after the two creations. */
  lemma BothFunded(s: Store, s1: Store, s2: Store, alice: Address, bob: Address)
    requires s.nextPlanId == 1 && s.plans == map[] && s.custody == map[]
    requires SoloCreated(s, s1, alice, 0, false) && SoloCreated(s1, s2, bob, 1, false)
    ensures s2.plans == map[1 := SoloPlan(alice, false), 2 := SoloPlan(bob, false)]
    ensures s2.custody == map[0 := 98, 1 := 98]
  {
  }

  /** Alice takes the other token out, and Bob's plan is left uncovered. */
  lemma TakesForeignToken(s: Store, alice: Address, bob: Address, c: Context)
    requires alice != Contract && bob != Contract && !c.paused && c.frozen == {} && c.emergencyActive == {}
    requires s.plans == map[1 := SoloPlan(alice, false), 2 := SoloPlan(bob, false)]
    requires s.custody == map[0 := 98, 1 := 98]
    ensures var s' := Step(s, c, Withdraw(alice, 1, 1, 98));
            && 2 in s'.plans && s'.plans[2].totalAmount == 98 && BalanceOf(s', 1, Contract) == 0
            && WithdrawCall(s', c, bob, 1, 2, 98) == Err(FeeTransferFailed)
  {
    WithdrawShape(s, c, alice, 1, 1, 98);
  }

  /**
   Without that condition: after this run the contract holds nothing of token 1, in which Bob's plan was
   funded and still shows a balance, and Bob's own withdrawal fails.
   */
  lemma ForeignWithdrawalUncovers(alice: Address, bob: Address, admin: Address, wallets: map<(Token, Address), nat>)
    requires alice != Contract && bob != Contract && admin != Contract
    requires BalanceOf(Deployed(wallets), 0, alice) >= 100 && BalanceOf(Deployed(wallets), 1, bob) >= 100
    ensures var calls := ForeignWithdrawal(alice, bob, admin);
            var s, homes := Run(Deployed(wallets), calls), HomesOf(Deployed(wallets), map[], calls);
            && 2 in s.plans && s.plans[2].totalAmount == 98
            && IsHome(homes, 2, 1) && BalanceOf(s, 1, Contract) == 0
            && WithdrawCall(s, Calm(admin, {alice, bob}), bob, 1, 2, 98) == Err(FeeTransferFailed)
  {
    var calls := ForeignWithdrawal(alice, bob, admin);
    var s0, c := Deployed(wallets), Calm(admin, {alice, bob});
    var s1 := SoloStep(s0, admin, {alice, bob}, alice, 0, false);
    var s2 := SoloStep(s1, admin, {alice, bob}, bob, 1, false);
    BothFunded(s0, s1, s2, alice, bob);
    TakesForeignToken(s2, alice, bob, c);
    RunOfThree(s0, calls);
    HomesOfThree(s0, calls);
  }
}
