/** What the validation of a new plan accepts, what its fee is, and what a batch removal leaves. */
module BeneficiaryRules {
  import opened MachineInts
  import opened PlanTypes
  import opened BeneficiaryList
  import opened PlanLedger
  import opened PlanInvariants
  import opened PlanRuns

  // ---------- batch removal ----------

  /** The distinct positions of the vector that the list names. */
  function ValidIndices(indices: seq<u32>, n: nat): set<nat> {
    set i: nat | i in indices && i < n :: i
  }

  lemma {:induction false} NamedCount(indices: seq<u32>, n: nat)
    ensures |NamedBelow(indices, n)| == |ValidIndices(indices, n)|
  {
    if n > 0 {
      NamedCount(indices, n - 1);
      var before, now := ValidIndices(indices, n - 1), ValidIndices(indices, n);
      if n - 1 in indices {
        assert now == before + {n - 1};
      } else {
        assert now == before;
      }
    } else {
      assert ValidIndices(indices, 0) == {};
    }
  }

  lemma {:induction false} FewerThanListed(indices: seq<u32>, n: nat)
    ensures |ValidIndices(indices, n)| <= |indices|
    decreases |indices|
  {
    if indices == [] {
      assert ValidIndices(indices, n) == {};
    } else {
      var rest := indices[1..];
      FewerThanListed(rest, n);
      var first: nat := indices[0];
      assert indices == [indices[0]] + rest;
      assert forall i: nat :: i in indices ==> i == first || i in rest;
      SubsetSize(ValidIndices(indices, n), ValidIndices(rest, n) + {first});
    }
  }

  lemma SubsetSize(a: set<nat>, b: set<nat>)
    requires a <= b
    ensures |a| <= |b|
  {
    assert b == a + (b - a);
  }

  /**
   For any index list, duplicates and wild positions included, a batch removal leaves exactly the
   beneficiaries at unnamed positions, and its counters split the list.
   */
  lemma BatchRemovalExact(s: Store, owner: Address, planId: PlanId, indices: seq<u32>)
    requires BatchRemoveCall(s, owner, planId, indices).Ok?
    ensures planId in s.plans
    ensures var bens := s.plans[planId].beneficiaries;
            var e := BatchRemoveCall(s, owner, planId, indices).value;
            && planId in e.store.plans
            && multiset(e.store.plans[planId].beneficiaries) == multiset(UnnamedBelow(bens, indices, |bens|))
            && e.reply.Counts?
            && e.reply.success == |ValidIndices(indices, |bens|)|
            && e.reply.success + e.reply.fail == |indices|
  {
    var bens := s.plans[planId].beneficiaries;
    RemovalLeavesUnnamed(bens, bens, indices, |bens|);
    assert bens[|bens|..] == [];
    assert multiset(bens[|bens|..]) == multiset{};
    NamedCount(indices, |bens|);
    FewerThanListed(indices, |bens|);
  }

  // ---------- validation ----------

  function ShareSum(inputs: seq<BeneficiaryInput>): nat {
    if inputs == [] then 0 else ShareSum(inputs[..|inputs| - 1]) + inputs[|inputs| - 1].allocationBp
  }

  ghost predicate DistinctEmails(inputs: seq<BeneficiaryInput>) {
    forall i, j :: 0 <= i < j < |inputs| ==> inputs[i].email != inputs[j].email
  }

  ghost predicate DistinctPriorities(inputs: seq<BeneficiaryInput>) {
    forall i, j :: 0 <= i < j < |inputs| ==> inputs[i].priority != inputs[j].priority
  }

  ghost predicate NamedAndRanked(inputs: seq<BeneficiaryInput>) {
    forall i :: 0 <= i < |inputs| ==> inputs[i].name != "" && inputs[i].priority != 0
  }

  predicate FitsIn(before: seq<BeneficiaryInput>, input: BeneficiaryInput) {
    && input.name != "" && input.priority != 0
    && forall i :: 0 <= i < |before| ==> before[i].email != input.email && before[i].priority != input.priority
  }

  /** One more input keeps the rules exactly when it fits in. */
  lemma OneMoreInput(inputs: seq<BeneficiaryInput>, k: nat)
    requires 0 < k <= |inputs|
    ensures var p, q := inputs[..k], inputs[..k - 1];
            && ShareSum(p) == ShareSum(q) + inputs[k - 1].allocationBp
            && (NamedAndRanked(p) && DistinctEmails(p) && DistinctPriorities(p) <==>
                NamedAndRanked(q) && DistinctEmails(q) && DistinctPriorities(q) && FitsIn(q, inputs[k - 1]))
  {
    var p, q, last := inputs[..k], inputs[..k - 1], inputs[k - 1];
    assert p == q + [last] && p[..k - 1] == q;
    if NamedAndRanked(p) && DistinctEmails(p) && DistinctPriorities(p) {
      assert forall i :: 0 <= i < k - 1 ==> q[i] == p[i];
      assert p[k - 1] == last;
    }
  }

  /** The scan accepts a prefix exactly when it breaks no rule and its sum fits u32. */
  lemma {:induction false} ScanAccepts(inputs: seq<BeneficiaryInput>, k: nat)
    requires k <= |inputs|
    ensures var p := inputs[..k];
            ScanInputs(inputs, k) == Ok(ShareSum(p)) <==>
              NamedAndRanked(p) && DistinctEmails(p) && DistinctPriorities(p) && ShareSum(p) <= U32_MAX
    ensures ScanInputs(inputs, k).Ok? ==> ScanInputs(inputs, k).value == ShareSum(inputs[..k])
    decreases k
  {
    if k > 0 {
      ScanAccepts(inputs, k - 1);
      OneMoreInput(inputs, k);
    }
  }

  /** Accepted lists: one to ten named beneficiaries, distinct e-mails and ranks, shares of exactly 100%. */
  lemma ValidationMeaning(inputs: seq<BeneficiaryInput>)
    ensures ValidateBeneficiaries(inputs) == Pass <==>
            && 1 <= |inputs| <= MAX_BENEFICIARIES
            && NamedAndRanked(inputs)
            && DistinctEmails(inputs)
            && DistinctPriorities(inputs)
            && ShareSum(inputs) == FULL_ALLOCATION_BP
  {
    ScanAccepts(inputs, |inputs|);
    assert inputs[..|inputs|] == inputs;
  }

  // ---------- creation fee ----------

  /** The fee is the advertised two per cent exactly up to the overflow, and nothing above it. */
  lemma CreationFeeMeaning(amount: u64)
    ensures CreationFee(amount) <= amount
    ensures CreationFee(amount) == amount * 2 / 100 <==> amount <= U64_MAX / CREATION_FEE_BP
    ensures amount > U64_MAX / CREATION_FEE_BP ==> CreationFee(amount) == 0
  {
    assert amount * 2 / 100 == amount * CREATION_FEE_BP / FULL_ALLOCATION_BP;
  }

  /** Above it the fee is waived altogether. */
  lemma LargePlansPayNoFee()
    ensures CreationFee(100_000_000_000_000_000) == 0
  {
  }

  /** The owner paid the amount: the fee went to the admin, the rest to the contract, and no other tokens moved. */
  ghost predicate Splits(s: Store, s': Store, token: Token, owner: Address, admin: Address, fee: nat, net: nat) {
    && BalanceOf(s', token, Contract) == BalanceOf(s, token, Contract) + net
    && (owner != admin ==>
          && BalanceOf(s', token, owner) + fee + net == BalanceOf(s, token, owner)
          && BalanceOf(s', token, admin) == BalanceOf(s, token, admin) + fee)
    && (owner == admin ==> BalanceOf(s', token, owner) + net == BalanceOf(s, token, owner))
    && forall t, a :: t != token || a !in {owner, admin, Contract} ==> BalanceOf(s', t, a) == BalanceOf(s, t, a)
  }

  /** One transfer within its sender's means. */
  ghost predicate Moves(s: Store, s': Store, token: Token, from: Address, to: Address, amount: nat)
    requires from != to
  {
    && BalanceOf(s', token, from) + amount == BalanceOf(s, token, from)
    && BalanceOf(s', token, to) == BalanceOf(s, token, to) + amount
    && forall t, a :: t != token || a !in {from, to} ==> BalanceOf(s', t, a) == BalanceOf(s, t, a)
  }

  lemma TransferMoves(s: Store, token: Token, from: Address, to: Address, amount: nat)
    requires from != to && BalanceOf(s, token, from) >= amount
    ensures Moves(s, TransferOrIgnore(s, token, from, to, amount), token, from, to, amount)
  {
  }

  lemma TransferToSelf(s: Store, token: Token, owner: Address, amount: nat)
    ensures forall t, a :: BalanceOf(TransferOrIgnore(s, token, owner, owner, amount), t, a) == BalanceOf(s, t, a)
  {
  }

  lemma FundingSplits(s: Store, token: Token, owner: Address, admin: Address, fee: u64, net: u64)
    requires owner != Contract && admin != Contract && BalanceOf(s, token, owner) >= fee + net
    ensures Splits(s, Funded(s, token, owner, admin, fee, net), token, owner, admin, fee, net)
  {
    var charged := if fee > 0 then TransferOrIgnore(s, token, owner, admin, fee) else s;
    if fee > 0 {
      if owner == admin {
        TransferToSelf(s, token, owner, fee);
      } else {
        TransferMoves(s, token, owner, admin, fee);
      }
    }
    assert BalanceOf(charged, token, owner) >= net;
    TransferMoves(charged, token, owner, Contract, net);
  }

  /** The stored plan, and the balances that paid for it. */
  ghost predicate CreationPaid(s: Store, s': Store, c: Context, op: Op, fee: u64)
    requires op.Create?
  {
    && s.nextPlanId in s'.plans
    && s'.plans[s.nextPlanId].totalAmount + fee == op.amount
    && AllocationOk(s'.plans[s.nextPlanId])
    && c.admin.Some?
    && (FromOutside(c, op) ==> Splits(s, s', op.token, op.owner, c.admin.value, fee, op.amount - fee))
  }

  /** A registration of the net amount on funded storage. */
  lemma RegistrationPaid(s: Store, funded: Store, s': Store, c: Context, op: Op, fee: u64)
    requires op.Create? && c.admin.Some? && fee < op.amount
    requires funded == s.(custody := funded.custody, wallets := funded.wallets)
    requires FromOutside(c, op) ==> Splits(s, funded, op.token, op.owner, c.admin.value, fee, op.amount - fee)
    requires var r := RegisterCall(funded, c, op.owner, op.amount - fee, op.distribution, op.inputs, op.lendable);
             r.Ok? && r.value.store == s'
    ensures CreationPaid(s, s', c, op, fee)
  {
    RegisterShape(funded, c, op.owner, op.amount - fee, op.distribution, op.inputs, op.lendable);
    assert s'.custody == funded.custody && s'.wallets == funded.wallets;
    assert forall t, a :: BalanceOf(s', t, a) == BalanceOf(funded, t, a);
  }

  lemma ChargedCreationPaid(s: Store, c: Context, op: Op, fee: u64)
    requires op.Create? && CreateAt(s, c, op, fee).Ok?
    ensures CreationPaid(s, CreateAt(s, c, op, fee).value.store, c, op, fee)
  {
    CreateShape(s, c, op, fee);
    var admin, net := c.admin.value, op.amount - fee;
    var funded := Funded(s, op.token, op.owner, admin, fee, net);
    FundedTouchesBalances(s, op.token, op.owner, admin, fee, net);
    if FromOutside(c, op) {
      FundingSplits(s, op.token, op.owner, admin, fee, net);
    }
    RegistrationPaid(s, funded, CreateAt(s, c, op, fee).value.store, c, op, fee);
  }

  /** What the owner pays is what the admin and the plan get, in the books and in the wallets. */
  lemma CreationSplitsAmount(s: Store, c: Context, op: Op)
    requires op.Create? && Invoke(s, c, op).Ok?
    ensures CreationPaid(s, Step(s, c, op), c, op, CreationFee(op.amount))
  {
    var fee := CreateIsCharged(s, c, op);
    ChargedCreationPaid(s, c, op, fee);
  }
}
