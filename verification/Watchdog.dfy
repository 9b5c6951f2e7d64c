/**
 The inactivity watchdog as a protocol: workers that claim expired rows, trigger them on-chain and
 record the outcome, next to API handlers and everybody else's contract calls
 (backend/src/inactivity_watchdog.rs, with the status writes of api.rs and loan_lifecycle.rs).
 Workers may stop at any point, and every SQL statement is one step.
 */
module Watchdog {
  import opened MachineInts
  import opened PlanTypes
  import opened PlanLedger
  import PlanInvariants
  import TriggerHistory
  import PlanLending
  import opened StellarReader

  type RowId = nat

  datatype Status = ACTIVE | TRIGGERING | TRIGGERED | TRIGGER_FAILED | CLAIMABLE | PAID_OUT | DEACTIVATED

  datatype Row = Row(
    status: Status, isActive: bool, lastPing: int, graceSeconds: nat, onchainId: Option<int>, startedAt: Option<nat>)

  const TRIGGER_TOPICS: seq<string> := ["INHERIT", "TRIGGER"]

  /** One claimed plan in a worker's hands; the verdict is set once its submission is settled. */
  datatype Task = Task(row: RowId, onchainId: Option<int>, verdict: Option<bool>)

  /** A past claim: which row, when, and whether the worker had a signer. */
  datatype Claimed = Claimed(row: RowId, at: nat, signed: bool)

  /** Clock, database, contract with the trigger events it emitted, work in flight, and the history of claims. */
  datatype State = State(
    now: nat,
    rows: map<RowId, Row>,
    chain: Store,
    emitted: seq<ContractEvent>,
    tasks: seq<Task>,
    payouts: seq<RowId>,
    history: seq<Claimed>)

  /** What the deployment fixes: the contract, the batch size, and the age at which a claim counts as abandoned. */
  datatype Config = Config(contract: ContractId, batchSize: nat, staleAfter: nat)

  datatype Action =
    | Tick(seconds: nat)
    | InsertRow(id: RowId, row: Row)
    | Ping(id: RowId)
    | SetGrace(id: RowId, seconds: nat)
    | ClaimExpired(claimed: seq<RowId>, signed: bool)
    | ChainCall(context: Context, op: Op)
    | Confirm(task: nat, events: seq<ContractEvent>)
    | GiveUp(task: nat)
    | MarkTriggered(task: nat)
    | MarkFailed(task: nat)
    | Crash(task: nat)
    | BeginPayout(id: RowId)
    | FinishPayout(payout: nat)
    | Settle(id: RowId)
    | PayOut(id: RowId)
    | Cancel(id: RowId)

  // ---------- decisions ----------

  predicate Expired(s: State, row: Row) {
    row.isActive && row.lastPing + row.graceSeconds <= s.now
  }

  /** A row that a sweep may claim: expired and ACTIVE, or left behind in TRIGGERING for too long. */
  predicate Eligible(cfg: Config, s: State, id: RowId, signed: bool) {
    && id in s.rows
    && Expired(s, s.rows[id])
    && (|| s.rows[id].status == ACTIVE
        || (&& signed
            && s.rows[id].status == TRIGGERING
            && (s.rows[id].startedAt == None || s.rows[id].startedAt.value + cfg.staleAfter <= s.now)))
  }

  /** Whether the events of a landed transaction show that the contract triggered this plan. */
  function VerifyTriggerEvent(contract: ContractId, events: seq<ContractEvent>, expected: u64): bool {
    match FindEvent(events, contract, TRIGGER_TOPICS)
    case None => false
    case Some(event) => EventNumber(event, "plan_id") == Some(expected)
  }

  function ValidChainId(id: Option<int>): Option<u64> {
    if id.Some? && 0 <= id.value <= U64_MAX then Some(id.value) else None
  }

  predicate IsTriggerEvent(contract: ContractId, e: ContractEvent) {
    e.contract == Some(contract) && TopicsMatch(e, TRIGGER_TOPICS)
  }

  /** Nobody else can emit the contract's trigger events. */
  ghost predicate Authentic(contract: ContractId, events: seq<ContractEvent>, emitted: seq<ContractEvent>) {
    forall e <- events :: IsTriggerEvent(contract, e) ==> e in emitted
  }

  /** Trigger events of the contract name triggered plans. */
  ghost predicate Truthful(contract: ContractId, events: seq<ContractEvent>, chain: Store) {
    forall e <- events ::
      IsTriggerEvent(contract, e) && EventNumber(e, "plan_id").Some? ==>
        EventNumber(e, "plan_id").value in chain.triggers
  }

  // ---------- what the contract emits ----------

  /** The automatic trigger fires: its conditions hold for an active plan without a record. */
  predicate AutoFires(chain: Store, c: Context, planId: PlanId) {
    planId in c.conditionsMet && planId !in chain.triggers && planId in chain.plans && chain.plans[planId].isActive
  }

  predicate Fires(chain: Store, c: Context, op: Op) {
    op.Trigger? || ((op.AutoTrigger? || op.Claim? || op.BatchClaim?) && AutoFires(chain, c, op.planId))
  }

  /** The trigger event of an accepted call: published by the trigger and by the automatic trigger alone. */
  function TriggerEvents(contract: ContractId, chain: Store, c: Context, op: Op): seq<ContractEvent> {
    if Invoke(chain, c, op).Ok? && Fires(chain, c, op) && op.planId in chain.plans then
      [TriggerEvent(contract, op.planId, c.now, chain.plans[op.planId].totalLoaned)]
    else []
  }

  // ---------- steps ----------

  function ClaimedRow(s: State, row: Row, signed: bool): Row {
    row.(status := if signed then TRIGGERING else TRIGGERED, startedAt := Some(s.now))
  }

  function ClaimedRows(s: State, claimed: seq<RowId>, signed: bool): map<RowId, Row> {
    map id | id in s.rows :: if id in claimed then ClaimedRow(s, s.rows[id], signed) else s.rows[id]
  }

  /** One fresh task per claimed row, with the on-chain id read at claim time. */
  function TasksFor(s: State, claimed: seq<RowId>): seq<Task> {
    seq(|claimed|, i requires 0 <= i < |claimed| =>
      Task(claimed[i], if claimed[i] in s.rows then s.rows[claimed[i]].onchainId else None, None))
  }

  function HistoryOf(s: State, claimed: seq<RowId>, signed: bool): seq<Claimed> {
    seq(|claimed|, i requires 0 <= i < |claimed| => Claimed(claimed[i], s.now, signed))
  }

  ghost predicate DistinctRows(claimed: seq<RowId>) {
    forall i, j :: 0 <= i < j < |claimed| ==> claimed[i] != claimed[j]
  }

  function WithStatus(s: State, id: RowId, status: Status): State
    requires id in s.rows
  {
    s.(rows := s.rows[id := s.rows[id].(status := status)])
  }

  function DropTask(tasks: seq<Task>, i: nat): seq<Task>
    requires i < |tasks|
  {
    tasks[..i] + tasks[i + 1..]
  }

  function WithVerdict(s: State, i: nat, verdict: bool): State
    requires i < |s.tasks|
  {
    s.(tasks := s.tasks[i := s.tasks[i].(verdict := Some(verdict))])
  }

  /** When a step can happen. */
  ghost predicate Enabled(cfg: Config, s: State, a: Action) {
    match a
    case Tick(_) => true
    case InsertRow(id, row) => id !in s.rows && row.status == ACTIVE && row.startedAt == None
    case Ping(id) => id in s.rows && s.rows[id].isActive
    case SetGrace(id, _) => id in s.rows
    case ClaimExpired(claimed, signed) =>
      |claimed| <= cfg.batchSize && DistinctRows(claimed) && forall id <- claimed :: Eligible(cfg, s, id, signed)
    case ChainCall(_, _) => true
    case Confirm(i, events) =>
      && i < |s.tasks| && s.tasks[i].verdict == None
      && ValidChainId(s.tasks[i].onchainId).Some? && Authentic(cfg.contract, events, s.emitted)
    case GiveUp(i) => i < |s.tasks| && s.tasks[i].verdict == None
    case MarkTriggered(i) => i < |s.tasks| && s.tasks[i].verdict == Some(true) && s.tasks[i].row in s.rows
    case MarkFailed(i) => i < |s.tasks| && s.tasks[i].verdict == Some(false) && s.tasks[i].row in s.rows
    case Crash(i) => i < |s.tasks|
    case BeginPayout(id) => id in s.rows && s.rows[id].status in {TRIGGERED, CLAIMABLE} && s.rows[id].isActive
    case FinishPayout(k) => k < |s.payouts| && s.payouts[k] in s.rows
    case Settle(id) => id in s.rows
    case PayOut(id) => id in s.rows && s.rows[id].isActive
    case Cancel(id) => id in s.rows
  }

  /** The effect of an enabled step. */
  ghost function Next(cfg: Config, s: State, a: Action): State
    requires Enabled(cfg, s, a)
  {
    match a
    case Tick(seconds) => s.(now := s.now + seconds)
    case InsertRow(id, row) => s.(rows := s.rows[id := row])
    case Ping(id) => s.(rows := s.rows[id := s.rows[id].(lastPing := s.now)])
    case SetGrace(id, seconds) => s.(rows := s.rows[id := s.rows[id].(graceSeconds := seconds)])
    case ClaimExpired(claimed, signed) =>
      s.(rows := ClaimedRows(s, claimed, signed),
         tasks := if signed then s.tasks + TasksFor(s, claimed) else s.tasks,
         history := s.history + HistoryOf(s, claimed, signed))
    case ChainCall(context, op) =>
      s.(chain := PlanLedger.Step(s.chain, context, op),
         emitted := s.emitted + TriggerEvents(cfg.contract, s.chain, context, op))
    case Confirm(i, events) =>
      WithVerdict(s, i, VerifyTriggerEvent(cfg.contract, events, ValidChainId(s.tasks[i].onchainId).value))
    case GiveUp(i) => WithVerdict(s, i, false)
    case MarkTriggered(i) => WithStatus(s, s.tasks[i].row, TRIGGERED).(tasks := DropTask(s.tasks, i))
    case MarkFailed(i) => WithStatus(s, s.tasks[i].row, TRIGGER_FAILED).(tasks := DropTask(s.tasks, i))
    case Crash(i) => s.(tasks := DropTask(s.tasks, i))
    case BeginPayout(id) => s.(payouts := s.payouts + [id])
    case FinishPayout(k) => WithStatus(s, s.payouts[k], CLAIMABLE).(payouts := s.payouts[..k] + s.payouts[k + 1..])
    case Settle(id) => if s.rows[id].status == TRIGGERED then WithStatus(s, id, CLAIMABLE) else s
    case PayOut(id) => s.(rows := s.rows[id := s.rows[id].(isActive := false, status := PAID_OUT, lastPing := s.now)])
    case Cancel(id) =>
      s.(rows := s.rows[id := s.rows[id].(isActive := false, status := DEACTIVATED, lastPing := s.now)])
  }

  ghost predicate Steps(cfg: Config, s: State, s': State, a: Action) {
    Enabled(cfg, s, a) && s' == Next(cfg, s, a)
  }

  /** A run: consecutive states with the actions between them. */
  ghost predicate IsRun(cfg: Config, states: seq<State>, actions: seq<Action>) {
    && |states| == |actions| + 1
    && forall i :: 0 <= i < |actions| ==> Steps(cfg, states[i], states[i + 1], actions[i])
  }

  // ---------- trigger events are truthful ----------

  lemma ClaimingKeepsTriggers(chain: Store, c: Context, op: Op)
    requires (op.Claim? || op.BatchClaim?) && Invoke(chain, c, op).Ok?
    ensures PlanLedger.Step(chain, c, op).triggers == AutoTriggered(chain, c, op.planId).triggers
  {
    var chain1 := AutoTriggered(chain, c, op.planId);
    PlanInvariants.AutoTriggeredKeepsPlan(chain, c, op.planId);
    if op.Claim? {
      PlanInvariants.ClaimShape(chain, c, op.planId, op.entry);
      var plan := chain.plans[op.planId];
      var index := ClaimTarget(c, op.planId, plan, op.entry).value;
      var payout := PayoutAmount(chain1, op.planId, plan, index);
      PlanInvariants.RecordPayoutShape(chain1, c, op.planId, plan, op.entry.email, index, payout);
    } else {
      PlanLending.ClaimEachKeepsTriggers(chain1, c, op.planId, op.entries, |op.entries|);
    }
  }

  lemma FiringTriggers(chain: Store, c: Context, op: Op)
    requires Invoke(chain, c, op).Ok? && (op.Trigger? || op.AutoTrigger? || op.Claim? || op.BatchClaim?)
    ensures Fires(chain, c, op) <==> PlanLending.Triggers(chain, PlanLedger.Step(chain, c, op), op.planId)
    ensures Fires(chain, c, op) ==> op.planId in chain.plans
  {
    if op.Claim? || op.BatchClaim? {
      ClaimingKeepsTriggers(chain, c, op);
    }
  }

  lemma QuietCallsTriggerNothing(chain: Store, c: Context, op: Op)
    requires !(op.Create? || op.Trigger? || op.AutoTrigger? || op.Claim? || op.BatchClaim?)
    ensures !PlanLending.Triggers(chain, PlanLedger.Step(chain, c, op), op.planId)
  {
    if PlanInvariants.EditsOnly(op) {
      PlanInvariants.EditingCalls(chain, c, op);
    } else if op.Deposit? {
      PlanInvariants.DepositTidy(chain, c, op.caller, op.token, op.planId, op.amount);
    } else if op.Withdraw? {
      PlanInvariants.WithdrawTidy(chain, c, op.caller, op.token, op.planId, op.amount);
    }
  }

  /** A call emits a trigger event exactly when it triggers its plan, by whichever of the four entry points. */
  lemma EmitsIffTriggers(contract: ContractId, chain: Store, c: Context, op: Op)
    requires !op.Create?
    ensures TriggerEvents(contract, chain, c, op) != [] <==>
            PlanLending.Triggers(chain, PlanLedger.Step(chain, c, op), op.planId)
  {
    if op.Trigger? || op.AutoTrigger? || op.Claim? || op.BatchClaim? {
      if Invoke(chain, c, op).Ok? {
        FiringTriggers(chain, c, op);
      }
    } else {
      QuietCallsTriggerNothing(chain, c, op);
    }
  }

  /** The event verifies for the plan that was triggered, and for no other. */
  lemma EmittedEventVerifies(contract: ContractId, chain: Store, c: Context, op: Op, other: u64)
    requires TriggerEvents(contract, chain, c, op) != []
    ensures VerifyTriggerEvent(contract, TriggerEvents(contract, chain, c, op), other) <==> other == op.planId
    ensures op.planId in PlanLedger.Step(chain, c, op).triggers
  {
    TriggerEventCarriesPlan(contract, op.planId, c.now, chain.plans[op.planId].totalLoaned);
    EmitsIffTriggers(contract, chain, c, op);
  }

  lemma ChainKeepsTriggers(chain: Store, c: Context, op: Op)
    requires PlanInvariants.Valid(chain)
    ensures PlanInvariants.Valid(PlanLedger.Step(chain, c, op))
    ensures forall id <- chain.triggers :: id in PlanLedger.Step(chain, c, op).triggers
  {
    PlanInvariants.StepKeepsValid(chain, c, op);
    forall id | id in chain.triggers
      ensures id in PlanLedger.Step(chain, c, op).triggers
    {
      TriggerHistory.StepKeepsTrigger(chain, c, op, id);
    }
  }

  lemma NewEventsTruthful(contract: ContractId, chain: Store, c: Context, op: Op)
    ensures Truthful(contract, TriggerEvents(contract, chain, c, op), PlanLedger.Step(chain, c, op))
  {
    if TriggerEvents(contract, chain, c, op) != [] {
      TriggerEventCarriesPlan(contract, op.planId, c.now, chain.plans[op.planId].totalLoaned);
      EmitsIffTriggers(contract, chain, c, op);
    }
  }

  /** All that the contract ever emitted is true of it as it stands. */
  ghost predicate ChainOk(cfg: Config, s: State) {
    PlanInvariants.Valid(s.chain) && Truthful(cfg.contract, s.emitted, s.chain)
  }

  lemma ChainCallKeepsChainOk(cfg: Config, s: State, s': State, a: Action)
    requires ChainOk(cfg, s) && a.ChainCall? && Steps(cfg, s, s', a)
    ensures ChainOk(cfg, s')
    ensures forall id <- s.chain.triggers :: id in s'.chain.triggers
  {
    ChainKeepsTriggers(s.chain, a.context, a.op);
    NewEventsTruthful(cfg.contract, s.chain, a.context, a.op);
    TruthChains(cfg.contract, s.emitted, s.chain, TriggerEvents(cfg.contract, s.chain, a.context, a.op), s'.chain);
  }

  lemma TruthChains(contract: ContractId, past: seq<ContractEvent>, chain: Store, added: seq<ContractEvent>,
                    chain': Store)
    requires Truthful(contract, past, chain) && Truthful(contract, added, chain')
    requires forall id <- chain.triggers :: id in chain'.triggers
    ensures Truthful(contract, past + added, chain')
  {
  }

  // ---------- a paid-out status means an on-chain trigger ----------

  ghost predicate TriggeredOnChain(s: State, id: RowId) {
    id in s.rows && ValidChainId(s.rows[id].onchainId).Some?
      && ValidChainId(s.rows[id].onchainId).value in s.chain.triggers
  }

  /** A task carries its row's chain id, and is confirmed only on a trigger. */
  ghost predicate TaskBacked(s: State, t: Task) {
    && t.row in s.rows && t.onchainId == s.rows[t.row].onchainId
    && (t.verdict == Some(true) ==> TriggeredOnChain(s, t.row))
  }

  /** What the rows, tasks and payouts of `s'` claim rests on the triggers of `s`. */
  ghost predicate RestsOn(s: State, s': State) {
    && (forall id <- s'.rows :: s'.rows[id].status in {TRIGGERED, CLAIMABLE} ==> TriggeredOnChain(s, id))
    && (forall t <- s'.tasks :: TaskBacked(s, t))
    && (forall id <- s'.payouts :: TriggeredOnChain(s, id))
  }

  /** TRIGGERED and CLAIMABLE rows, verified tasks and begun payouts all rest on an on-chain trigger. */
  ghost predicate Backed(cfg: Config, s: State) {
    ChainOk(cfg, s) && RestsOn(s, s)
  }

  /** Rows keep their chain ids, and the chain its triggers. */
  ghost predicate KeepsIdentity(s: State, s': State) {
    && (forall id <- s.rows :: id in s'.rows && s'.rows[id].onchainId == s.rows[id].onchainId)
    && (forall id <- s.chain.triggers :: id in s'.chain.triggers)
  }

  lemma RestMoves(s: State, s': State)
    requires KeepsIdentity(s, s') && RestsOn(s, s')
    ensures RestsOn(s', s')
  {
    forall t | t in s'.tasks
      ensures TaskBacked(s', t)
    {
      assert TaskBacked(s, t);
    }
  }

  /** A step that leaves tasks alone, adds no payout, and marks a row as paid only on a trigger. */
  lemma StatusRests(s: State, s': State)
    requires RestsOn(s, s) && s'.tasks == s.tasks
    requires forall id <- s'.payouts :: id in s.payouts || TriggeredOnChain(s, id)
    requires forall id <- s'.rows :: s'.rows[id].status in {TRIGGERED, CLAIMABLE} ==> TriggeredOnChain(s, id)
    ensures RestsOn(s, s')
  {
  }

  lemma ClaimRests(cfg: Config, s: State, s': State, a: Action)
    requires RestsOn(s, s) && a.ClaimExpired? && a.signed && Steps(cfg, s, s', a)
    ensures RestsOn(s, s')
  {
    forall t | t in s'.tasks
      ensures TaskBacked(s, t)
    {
      if t !in s.tasks {
        var i :| 0 <= i < |a.claimed| && t == TasksFor(s, a.claimed)[i];
        assert a.claimed[i] in a.claimed && Eligible(cfg, s, a.claimed[i], true);
      }
    }
  }

  /** An authentic trigger event confirms only a triggered plan. */
  lemma ConfirmedIsTriggered(cfg: Config, s: State, events: seq<ContractEvent>, id: u64)
    requires ChainOk(cfg, s) && Authentic(cfg.contract, events, s.emitted)
    requires VerifyTriggerEvent(cfg.contract, events, id)
    ensures id in s.chain.triggers
  {
    FoundEventMatches(events, cfg.contract, TRIGGER_TOPICS);
    var e := FindEvent(events, cfg.contract, TRIGGER_TOPICS).value;
    assert IsTriggerEvent(cfg.contract, e);
  }

  lemma VerdictRests(s: State, i: nat, verdict: bool)
    requires RestsOn(s, s) && i < |s.tasks| && (verdict ==> TriggeredOnChain(s, s.tasks[i].row))
    ensures RestsOn(s, WithVerdict(s, i, verdict))
  {
    assert TaskBacked(s, s.tasks[i]);
    var s' := WithVerdict(s, i, verdict);
    forall t | t in s'.tasks
      ensures TaskBacked(s, t)
    {
      if t !in s.tasks {
        assert t == s'.tasks[i];
      }
    }
  }

  lemma ConfirmRests(cfg: Config, s: State, s': State, a: Action)
    requires Backed(cfg, s) && a.Confirm? && Steps(cfg, s, s', a)
    ensures RestsOn(s, s')
  {
    var task := s.tasks[a.task];
    var id := ValidChainId(task.onchainId).value;
    assert TaskBacked(s, task);
    var verdict := VerifyTriggerEvent(cfg.contract, a.events, id);
    if verdict {
      ConfirmedIsTriggered(cfg, s, a.events, id);
    }
    VerdictRests(s, a.task, verdict);
  }

  lemma DropRests(s: State, s': State, i: nat)
    requires RestsOn(s, s) && i < |s.tasks| && s'.tasks == DropTask(s.tasks, i) && s'.payouts == s.payouts
    requires forall id <- s'.rows :: s'.rows[id].status in {TRIGGERED, CLAIMABLE} ==> TriggeredOnChain(s, id)
    ensures RestsOn(s, s')
  {
  }

  lemma MarkTriggeredRests(cfg: Config, s: State, s': State, a: Action)
    requires RestsOn(s, s) && a.MarkTriggered? && Steps(cfg, s, s', a)
    ensures RestsOn(s, s')
  {
    assert TaskBacked(s, s.tasks[a.task]);
    DropRests(s, s', a.task);
  }

  lemma MarkFailedRests(cfg: Config, s: State, s': State, a: Action)
    requires RestsOn(s, s) && a.MarkFailed? && Steps(cfg, s, s', a)
    ensures RestsOn(s, s')
  {
    DropRests(s, s', a.task);
  }

  lemma FinishPayoutRests(cfg: Config, s: State, s': State, a: Action)
    requires RestsOn(s, s) && a.FinishPayout? && Steps(cfg, s, s', a)
    ensures RestsOn(s, s')
  {
    assert s.payouts[a.payout] in s.payouts;
    StatusRests(s, s');
  }

  lemma BeginPayoutRests(cfg: Config, s: State, s': State, a: Action)
    requires RestsOn(s, s) && a.BeginPayout? && Steps(cfg, s, s', a)
    ensures RestsOn(s, s')
  {
    assert TriggeredOnChain(s, a.id);
    StatusRests(s, s');
  }

  lemma SettleRests(cfg: Config, s: State, s': State, a: Action)
    requires RestsOn(s, s) && a.Settle? && Steps(cfg, s, s', a)
    ensures RestsOn(s, s')
  {
    StatusRests(s, s');
  }

  lemma EndingRests(cfg: Config, s: State, s': State, a: Action)
    requires RestsOn(s, s) && (a.PayOut? || a.Cancel?) && Steps(cfg, s, s', a)
    ensures RestsOn(s, s')
  {
    StatusRests(s, s');
  }

  lemma RowEditRests(cfg: Config, s: State, s': State, a: Action)
    requires RestsOn(s, s) && (a.Tick? || a.InsertRow? || a.Ping? || a.SetGrace?) && Steps(cfg, s, s', a)
    ensures RestsOn(s, s')
  {
    StatusRests(s, s');
  }

  lemma StepKeepsChain(cfg: Config, s: State, s': State, a: Action)
    requires !a.ChainCall? && Steps(cfg, s, s', a)
    ensures s'.chain == s.chain && s'.emitted == s.emitted
  {
  }

  lemma TaskStepKeepsIds(cfg: Config, s: State, s': State, a: Action)
    requires (a.ClaimExpired? || a.MarkTriggered? || a.MarkFailed? || a.FinishPayout?) && Steps(cfg, s, s', a)
    ensures forall id <- s.rows :: id in s'.rows && s'.rows[id].onchainId == s.rows[id].onchainId
  {
  }

  lemma OtherStepKeepsIds(cfg: Config, s: State, s': State, a: Action)
    requires !(a.ClaimExpired? || a.MarkTriggered? || a.MarkFailed? || a.FinishPayout?) && Steps(cfg, s, s', a)
    ensures forall id <- s.rows :: id in s'.rows && s'.rows[id].onchainId == s.rows[id].onchainId
  {
  }

  lemma StepKeepsIdentity(cfg: Config, s: State, s': State, a: Action)
    requires !a.ChainCall? && Steps(cfg, s, s', a)
    ensures KeepsIdentity(s, s') && s'.chain == s.chain && s'.emitted == s.emitted
  {
    StepKeepsChain(cfg, s, s', a);
    if a.ClaimExpired? || a.MarkTriggered? || a.MarkFailed? || a.FinishPayout? {
      TaskStepKeepsIds(cfg, s, s', a);
    } else {
      OtherStepKeepsIds(cfg, s, s', a);
    }
  }

  /** Steps of workers and handlers rest on what was true before them. */
  lemma StepRests(cfg: Config, s: State, s': State, a: Action)
    requires Backed(cfg, s) && Steps(cfg, s, s', a) && !a.ChainCall?
    requires a.ClaimExpired? ==> a.signed
    ensures RestsOn(s, s')
  {
    match a {
      case ClaimExpired(_, _) => ClaimRests(cfg, s, s', a);
      case Confirm(_, _) => ConfirmRests(cfg, s, s', a);
      case GiveUp(i) => VerdictRests(s, i, false);
      case MarkTriggered(_) => MarkTriggeredRests(cfg, s, s', a);
      case MarkFailed(_) => MarkFailedRests(cfg, s, s', a);
      case Crash(i) => DropRests(s, s', i);
      case BeginPayout(_) => BeginPayoutRests(cfg, s, s', a);
      case FinishPayout(_) => FinishPayoutRests(cfg, s, s', a);
      case Settle(_) => SettleRests(cfg, s, s', a);
      case PayOut(_) => EndingRests(cfg, s, s', a);
      case Cancel(_) => EndingRests(cfg, s, s', a);
      case _ => RowEditRests(cfg, s, s', a);
    }
  }

  lemma StepKeepsBacked(cfg: Config, s: State, s': State, a: Action)
    requires Backed(cfg, s) && Steps(cfg, s, s', a)
    requires a.ClaimExpired? ==> a.signed
    ensures Backed(cfg, s')
  {
    if a.ChainCall? {
      ChainCallKeepsChainOk(cfg, s, s', a);
    } else {
      StepKeepsIdentity(cfg, s, s', a);
      StepRests(cfg, s, s', a);
    }
    RestMoves(s, s');
  }

  /**
   With a signer on every worker: over any interleaving of workers, crashes, pings, cancellations,
   payouts and contract calls, a row that reads TRIGGERED or CLAIMABLE was triggered on-chain under its
   own plan id.
   */
  lemma {:induction false} PaidStatusIsBacked(cfg: Config, states: seq<State>, actions: seq<Action>, id: RowId)
    requires IsRun(cfg, states, actions) && Backed(cfg, states[0])
    requires forall i :: 0 <= i < |actions| && actions[i].ClaimExpired? ==> actions[i].signed
    ensures Backed(cfg, states[|actions|])
    ensures var s := states[|actions|];
            id in s.rows && s.rows[id].status in {TRIGGERED, CLAIMABLE} ==> TriggeredOnChain(s, id)
    decreases |actions|
  {
    if actions != [] {
      var n := |actions| - 1;
      PaidStatusIsBacked(cfg, states[..n + 1], actions[..n], id);
      StepKeepsBacked(cfg, states[n], states[n + 1], actions[n]);
    }
  }

  /** A new deployment over any valid contract state satisfies everything the run lemmas ask for. */
  lemma FreshDeployment(cfg: Config, now: nat, chain: Store)
    requires PlanInvariants.Valid(chain)
    ensures var s := State(now, map[], chain, [], [], [], []);
            Backed(cfg, s) && HistoryOk(cfg, s) && PastClaims(s)
  {
  }

  // ---------- claims of one row keep their distance ----------

  /** The row has left ACTIVE for good; while TRIGGERING it carries the time of its latest claim. */
  ghost predicate Explains(row: Row, claim: Claimed) {
    && row.status != ACTIVE
    && (row.status == TRIGGERING ==> claim.signed && row.startedAt.Some? && claim.at <= row.startedAt.value)
  }

  /** Two claims of one row: both by workers with a signer, and at least the stale age apart. */
  ghost predicate Spaced(cfg: Config, earlier: Claimed, later: Claimed) {
    earlier.row == later.row ==> earlier.signed && later.signed && earlier.at + cfg.staleAfter <= later.at
  }

  ghost predicate HistoryOk(cfg: Config, s: State) {
    && (forall h <- s.history :: h.row in s.rows && Explains(s.rows[h.row], h))
    && forall i, j :: 0 <= i < j < |s.history| ==> Spaced(cfg, s.history[i], s.history[j])
  }

  /** No step but a claim brings a row back into the hands of a worker. */
  lemma RestKeepsHistory(cfg: Config, s: State, s': State, a: Action)
    requires HistoryOk(cfg, s) && Steps(cfg, s, s', a) && !a.ClaimExpired?
    ensures HistoryOk(cfg, s')
  {
    forall h | h in s'.history
      ensures h.row in s'.rows && Explains(s'.rows[h.row], h)
    {
      assert h in s.history && Explains(s.rows[h.row], h);
    }
  }

  lemma EligibleIsSpaced(cfg: Config, s: State, earlier: Claimed, id: RowId, signed: bool)
    requires HistoryOk(cfg, s) && earlier in s.history && Eligible(cfg, s, id, signed)
    ensures Spaced(cfg, earlier, Claimed(id, s.now, signed))
  {
    assert Explains(s.rows[earlier.row], earlier);
  }

  lemma ClaimKeepsHistory(cfg: Config, s: State, s': State, a: Action)
    requires HistoryOk(cfg, s) && Steps(cfg, s, s', a) && a.ClaimExpired?
    requires forall h <- s.history :: h.at <= s.now
    ensures HistoryOk(cfg, s')
  {
    var added := HistoryOf(s, a.claimed, a.signed);
    forall h | h in s'.history
      ensures h.row in s'.rows && Explains(s'.rows[h.row], h)
    {
      if h in s.history {
        assert Explains(s.rows[h.row], h);
        if h.row in a.claimed {
          EligibleIsSpaced(cfg, s, h, h.row, a.signed);
        }
      } else {
        var i :| 0 <= i < |added| && h == added[i];
        assert a.claimed[i] in a.claimed && Eligible(cfg, s, a.claimed[i], a.signed);
      }
    }
    forall i, j | 0 <= i < j < |s'.history|
      ensures Spaced(cfg, s'.history[i], s'.history[j])
    {
      if j >= |s.history| {
        var id := a.claimed[j - |s.history|];
        assert id in a.claimed;
        if i < |s.history| {
          EligibleIsSpaced(cfg, s, s.history[i], id, a.signed);
        }
      }
    }
  }

  ghost predicate PastClaims(s: State) {
    forall h <- s.history :: h.at <= s.now
  }

  /**
   Over any number of workers and crashes: two claims of the same row are at least the stale age apart,
   and both were made with a signer. In particular, a claim without a signer is the row's only one.
   */
  lemma {:induction false} ClaimsKeepTheirDistance(cfg: Config, states: seq<State>, actions: seq<Action>)
    requires IsRun(cfg, states, actions) && HistoryOk(cfg, states[0]) && PastClaims(states[0])
    ensures HistoryOk(cfg, states[|actions|]) && PastClaims(states[|actions|])
    ensures var h := states[|actions|].history;
            forall i, j :: 0 <= i < j < |h| && h[i].row == h[j].row ==>
              h[i].signed && h[j].signed && h[i].at + cfg.staleAfter <= h[j].at
    decreases |actions|
  {
    if actions != [] {
      var n := |actions| - 1;
      ClaimsKeepTheirDistance(cfg, states[..n + 1], actions[..n]);
      assert Steps(cfg, states[n], states[n + 1], actions[n]);
      if actions[n].ClaimExpired? {
        ClaimKeepsHistory(cfg, states[n], states[n + 1], actions[n]);
      } else {
        RestKeepsHistory(cfg, states[n], states[n + 1], actions[n]);
      }
    }
    var h := states[|actions|].history;
    assert forall i, j :: 0 <= i < j < |h| ==> Spaced(cfg, h[i], h[j]);
  }
}
