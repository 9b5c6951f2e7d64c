/** Data of the inheritance contract: plans, triggers, storage and the calls made on it. */
module PlanTypes {
  import opened MachineInts
  import opened ContractErrors

  type PlanId = u64
  type Token = nat
  type Email = string

  datatype Address = Contract | Account(id: nat)

  datatype DistributionMethod = LumpSum | Monthly | Quarterly | Yearly

  /** Hashed fields are represented by their preimages: hashes are taken to be injective. */
  datatype Beneficiary = Beneficiary(
    name: string, email: Email, bankAccount: string,
    allocationBp: u32, priority: u32, isClaimed: bool)

  datatype BeneficiaryInput = BeneficiaryInput(
    name: string, email: Email, claimCode: u32, bankAccount: string,
    allocationBp: u32, priority: u32)

  datatype Plan = Plan(
    totalAmount: u64,
    distribution: DistributionMethod,
    beneficiaries: seq<Beneficiary>,
    totalAllocationBp: u32,
    owner: Address,
    createdAt: u64,
    isActive: bool,
    isLendable: bool,
    totalLoaned: u64,
    waterfallEnabled: bool)

  datatype TriggerInfo = TriggerInfo(
    triggeredAt: u64,
    loanFreezeActive: bool,
    recallAttempted: bool,
    liquidationTriggered: bool,
    originalLoaned: u64,
    recalledAmount: u64,
    settledAmount: u64)

  datatype ClaimRecord = ClaimRecord(index: nat, claimedAt: u64)

  /** The claims made, by plan and e-mail, and the plans claimed from: by owner at that time, and in all. */
  datatype Claims = Claims(
    records: map<(PlanId, Email), ClaimRecord>, ofOwner: map<Address, seq<PlanId>>, all: seq<PlanId>)

  const NO_CLAIMS: Claims := Claims(map[], map[], [])

  /**
   Contract storage, with the balances that the token contracts keep for the contract itself
   (`custody`) and for everybody else (`wallets`).
   */
  datatype Store = Store(
    nextPlanId: u64,
    plans: map<PlanId, Plan>,
    userPlans: map<Address, seq<PlanId>>,
    deactivated: seq<PlanId>,
    triggers: map<PlanId, TriggerInfo>,
    claims: Claims,
    settlements: map<(PlanId, nat), u64>,
    custody: map<Token, nat>,
    wallets: map<(Token, Address), nat>)

  /** A new contract, among accounts that already hold tokens. */
  function Deployed(wallets: map<(Token, Address), nat>): Store {
    Store(1, map[], map[], [], map[], NO_CLAIMS, map[], map[], wallets)
  }

  /**
   What a call finds outside the storage above, and may differ on every call: the clock, the pause
   flag, and what KYC, disputes, legal holds, emergency access, roles and trigger conditions say.
   */
  datatype Context = Context(
    now: u64,
    paused: bool,
    admin: Option<Address>,
    callerIsAdmin: bool,
    kycApproved: set<Address>,
    frozen: set<PlanId>,
    frozenBeneficiaries: set<(PlanId, nat)>,
    emergencyActive: set<PlanId>,
    emergencyContact: map<PlanId, Address>,
    conditionsMet: set<PlanId>)

  /** One claim: which stored claim codes the supplied code matches, and whether it has six digits. */
  datatype ClaimEntry = ClaimEntry(
    claimer: Address, email: Email, codeInRange: bool, codeMatches: set<nat>, attemptAllowed: bool)

  /** The entry points that write a plan: all nineteen of them. */
  datatype Op =
    | Create(owner: Address, token: Token, planName: string, description: string, amount: u64,
             distribution: DistributionMethod, inputs: seq<BeneficiaryInput>, lendable: bool)
    | AddBeneficiary(owner: Address, planId: PlanId, input: BeneficiaryInput)
    | RemoveBeneficiary(owner: Address, planId: PlanId, index: u32)
    | BatchAdd(owner: Address, planId: PlanId, inputs: seq<BeneficiaryInput>)
    | BatchRemove(owner: Address, planId: PlanId, indices: seq<u32>)
    | BatchUpdate(owner: Address, planId: PlanId, allocations: seq<u32>)
    | SetPriority(owner: Address, planId: PlanId, index: u32, priority: u32)
    | SetLendable(owner: Address, planId: PlanId, lendable: bool)
    | EnableWaterfall(owner: Address, planId: PlanId)
    | Deposit(caller: Address, token: Token, planId: PlanId, amount: u64)
    | Withdraw(caller: Address, token: Token, planId: PlanId, amount: u64)
    | Claim(planId: PlanId, entry: ClaimEntry)
    | BatchClaim(planId: PlanId, entries: seq<ClaimEntry>)
    | Deactivate(owner: Address, planId: PlanId)
    | AutoTrigger(planId: PlanId)
    | Trigger(caller: Address, planId: PlanId)
    | Recall(planId: PlanId, amount: u64)
    | Liquidate(planId: PlanId)
    | TransferOwnership(owner: Address, newOwner: Address, planId: PlanId)

  datatype Reply = Done | Created(planId: PlanId) | Counts(success: nat, fail: nat)

  /** A successful claim: under which e-mail, the share of the balance it was computed from, and what it paid. */
  datatype Payment = Payment(planId: PlanId, email: Email, allocationBp: u32, amount: u64)

  /** A successful call: the new storage, the reply, what was paid to beneficiaries and written off. */
  datatype Effect = Effect(store: Store, reply: Reply, payments: seq<Payment>, writtenOff: nat)

  type CallResult = Result<Effect, InheritanceError>

  /** A check that either passes or ends the call with an error. */
  datatype Guard = Pass | Fail(error: InheritanceError) {
    predicate IsFailure() {
      Fail?
    }

    function PropagateFailure<U>(): Result<U, InheritanceError>
      requires Fail?
    {
      Err(error)
    }
  }

  function Need(condition: bool, error: InheritanceError): Guard {
    if condition then Pass else Fail(error)
  }
}
