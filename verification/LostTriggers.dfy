/**
 Plans that were triggered on-chain while their rows end as failures: how that happens, and that it is for good
 (backend/src/inactivity_watchdog.rs).
 */
module LostTriggers {
  import opened MachineInts
  import opened PlanTypes
  import opened PlanLedger
  import PlanInvariants
  import PlanRuns
  import PlanTokens
  import PlanLending
  import opened StellarReader
  import opened Watchdog

  // ---------- one step ----------

  /** A plan with a trigger record can be triggered by nobody again, and no attempt emits an event to confirm. */
  lemma RetryIsRefused(cfg: Config, s: State, id: RowId, c: Context, caller: Address)
    requires TriggeredOnChain(s, id)
    ensures var planId := ValidChainId(s.rows[id].onchainId).value;
            && TriggerCall(s.chain, c, caller, planId).Err?
            && TriggerEvents(cfg.contract, s.chain, c, Trigger(caller, planId)) == []
  {
  }

  /** A row becomes a failure exactly when a worker marks a task of it as failed; no check of the chain is made. */
  lemma FailsIff(cfg: Config, s: State, s': State, a: Action, id: RowId)
    requires Steps(cfg, s, s', a) && id in s.rows && s.rows[id].status != TRIGGER_FAILED
    ensures id in s'.rows
    ensures s'.rows[id].status == TRIGGER_FAILED <==> a.MarkFailed? && s.tasks[a.task].row == id
  {
  }

  /** The same over a run: some step marked a failed task of the row, whatever the chain says by then. */
  lemma {:induction false} FailureWasMarked(cfg: Config, states: seq<State>, actions: seq<Action>, id: RowId)
    returns (i: nat)
    requires IsRun(cfg, states, actions) && id in states[0].rows && states[0].rows[id].status != TRIGGER_FAILED
    requires id in states[|actions|].rows && states[|actions|].rows[id].status == TRIGGER_FAILED
    ensures i < |actions| && actions[i].MarkFailed?
    ensures actions[i].task < |states[i].tasks|
    ensures states[i].tasks[actions[i].task].row == id && states[i].tasks[actions[i].task].verdict == Some(false)
    decreases |actions|
  {
    var n := |actions| - 1;
    assert Steps(cfg, states[n], states[n + 1], actions[n]);
    RowsStay(cfg, states[..n + 1], actions[..n], id);
    if states[n].rows[id].status == TRIGGER_FAILED {
      i := FailureWasMarked(cfg, states[..n + 1], actions[..n], id);
    } else {
      FailsIff(cfg, states[n], states[n + 1], actions[n], id);
      i := n;
    }
  }

  lemma {:induction false} RowsStay(cfg: Config, states: seq<State>, actions: seq<Action>, id: RowId)
    requires IsRun(cfg, states, actions) && id in states[0].rows
    ensures id in states[|actions|].rows
    decreases |actions|
  {
    if actions != [] {
      var n := |actions| - 1;
      RowsStay(cfg, states[..n + 1], actions[..n], id);
      assert Steps(cfg, states[n], states[n + 1], actions[n]);
    }
  }

  // ---------- failures are final ----------

  /** A failed or ended row that is in nobody's hands any more. */
  ghost predicate Lost(s: State, id: RowId) {
    && id in s.rows && s.rows[id].status in {TRIGGER_FAILED, PAID_OUT, DEACTIVATED}
    && (forall t <- s.tasks :: t.row != id)
    && id !in s.payouts
  }

  lemma ClaimLeavesLost(cfg: Config, s: State, s': State, a: Action, id: RowId)
    requires Lost(s, id) && a.ClaimExpired? && Steps(cfg, s, s', a)
    ensures Lost(s', id)
  {
    assert !Eligible(cfg, s, id, a.signed);
    forall t | t in s'.tasks
      ensures t.row != id
    {
      if t !in s.tasks {
        var i :| 0 <= i < |a.claimed| && t == TasksFor(s, a.claimed)[i];
        assert a.claimed[i] in a.claimed;
      }
    }
  }

  lemma TaskStepLeavesLost(cfg: Config, s: State, s': State, a: Action, id: RowId)
    requires Lost(s, id) && Steps(cfg, s, s', a)
    requires a.Confirm? || a.GiveUp? || a.MarkTriggered? || a.MarkFailed? || a.Crash?
    ensures Lost(s', id)
  {
    assert s.tasks[a.task] in s.tasks;
    forall t | t in s'.tasks
      ensures t.row != id
    {
      assert t in s.tasks || exists u <- s.tasks :: u.row == t.row;
    }
  }

  lemma PayoutStepLeavesLost(cfg: Config, s: State, s': State, a: Action, id: RowId)
    requires Lost(s, id) && Steps(cfg, s, s', a) && (a.BeginPayout? || a.FinishPayout?)
    ensures Lost(s', id)
  {
  }

  lemma StepLeavesLost(cfg: Config, s: State, s': State, a: Action, id: RowId)
    requires Lost(s, id) && Steps(cfg, s, s', a)
    ensures Lost(s', id)
  {
    if a.ClaimExpired? {
      ClaimLeavesLost(cfg, s, s', a, id);
    } else if a.Confirm? || a.GiveUp? || a.MarkTriggered? || a.MarkFailed? || a.Crash? {
      TaskStepLeavesLost(cfg, s, s', a, id);
    } else if a.BeginPayout? || a.FinishPayout? {
      PayoutStepLeavesLost(cfg, s, s', a, id);
    }
  }

  /** No run ever brings such a row back: it is neither swept again nor paid out by the inheritance path. */
  lemma {:induction false} LostIsFinal(cfg: Config, states: seq<State>, actions: seq<Action>, id: RowId)
    requires IsRun(cfg, states, actions) && Lost(states[0], id)
    ensures Lost(states[|actions|], id)
    decreases |actions|
  {
    if actions != [] {
      var n := |actions| - 1;
      LostIsFinal(cfg, states[..n + 1], actions[..n], id);
      StepLeavesLost(cfg, states[n], states[n + 1], actions[n], id);
    }
  }

  // ---------- a crash that loses a trigger ----------

  lemma RunsJoin(cfg: Config, a: seq<State>, x: seq<Action>, b: seq<State>, y: seq<Action>)
    requires IsRun(cfg, a, x) && IsRun(cfg, b, y) && a[|x|] == b[0]
    ensures IsRun(cfg, a + b[1..], x + y)
  {
    var s, z := a + b[1..], x + y;
    forall i | 0 <= i < |z|
      ensures Steps(cfg, s[i], s[i + 1], z[i])
    {
      if i >= |x| {
        assert Steps(cfg, b[i - |x|], b[i - |x| + 1], y[i - |x|]);
      }
    }
  }

  /** An expired row for the plan. */
  function ExpiredRow(now: nat, planId: PlanId): Row {
    Row(ACTIVE, true, now, 0, Some(planId), None)
  }

  /** A worker triggers the plan and stops before it has recorded that; another takes over after the stale age. */
  function CrashedTrigger(cfg: Config, now: nat, c: Context, caller: Address, planId: PlanId): seq<Action> {
    [InsertRow(0, ExpiredRow(now, planId)), ClaimExpired([0], true), ChainCall(c, Trigger(caller, planId)), Crash(0),
     Tick(cfg.staleAfter), ClaimExpired([0], true), GiveUp(0), MarkFailed(0)]
  }

  /** The row in the hands of its first worker. */
  function ClaimedState(now: nat, chain: Store, planId: PlanId): State {
    State(now, map[0 := ExpiredRow(now, planId).(status := TRIGGERING, startedAt := Some(now))], chain, [],
          [Task(0, Some(planId), None)], [], [Claimed(0, now, true)])
  }

  lemma FirstClaim(cfg: Config, now: nat, chain: Store, planId: PlanId) returns (states: seq<State>)
    requires cfg.batchSize >= 1
    ensures IsRun(cfg, states, [InsertRow(0, ExpiredRow(now, planId)), ClaimExpired([0], true)]) && |states| == 3
    ensures states[0] == State(now, map[], chain, [], [], [], []) && states[2] == ClaimedState(now, chain, planId)
  {
    var s0, row := State(now, map[], chain, [], [], [], []), ExpiredRow(now, planId);
    var s1 := Next(cfg, s0, InsertRow(0, row));
    assert Eligible(cfg, s1, 0, true);
    var s2 := Next(cfg, s1, ClaimExpired([0], true));
    states := [s0, s1, s2];
    assert s2.rows == ClaimedState(now, chain, planId).rows;
    assert s2.tasks == [Task(0, Some(planId), None)] && s2.history == [Claimed(0, now, true)];
  }

  lemma TriggerThenCrash(cfg: Config, s2: State, c: Context, caller: Address, planId: PlanId)
    returns (states: seq<State>)
    requires |s2.tasks| == 1 && TriggerCall(s2.chain, c, caller, planId).Ok?
    ensures IsRun(cfg, states, [ChainCall(c, Trigger(caller, planId)), Crash(0)]) && |states| == 3
    ensures states[0] == s2 && planId in states[2].chain.triggers
    ensures states[2] == s2.(chain := states[2].chain, emitted := states[2].emitted, tasks := [])
  {
    var s3 := Next(cfg, s2, ChainCall(c, Trigger(caller, planId)));
    var s4 := Next(cfg, s3, Crash(0));
    states := [s2, s3, s4];
  }

  /** The row after its first claim, with the plan triggered and the worker gone. */
  lemma FirstWorker(cfg: Config, now: nat, chain: Store, c: Context, caller: Address, planId: PlanId)
    returns (states: seq<State>)
    requires cfg.batchSize >= 1 && TriggerCall(chain, c, caller, planId).Ok?
    ensures IsRun(cfg, states, CrashedTrigger(cfg, now, c, caller, planId)[..4]) && |states| == 5
    ensures states[0] == State(now, map[], chain, [], [], [], [])
    ensures var s := states[4];
            && s.now == now && s.tasks == [] && s.payouts == []
            && s.rows == map[0 := ExpiredRow(now, planId).(status := TRIGGERING, startedAt := Some(now))]
            && planId in s.chain.triggers
  {
    var x := [InsertRow(0, ExpiredRow(now, planId)), ClaimExpired([0], true)];
    var y := [ChainCall(c, Trigger(caller, planId)), Crash(0)];
    var claimed := FirstClaim(cfg, now, chain, planId);
    var crashed := TriggerThenCrash(cfg, claimed[2], c, caller, planId);
    RunsJoin(cfg, claimed, x, crashed, y);
    assert CrashedTrigger(cfg, now, c, caller, planId)[..4] == x + y;
    states := claimed + crashed[1..];
  }

  /** The worker that takes over finds the trigger refused, and marks the row as failed. */
  lemma SecondWorker(cfg: Config, s4: State, now: nat, c: Context, caller: Address, planId: PlanId)
    returns (states: seq<State>)
    requires cfg.batchSize >= 1 && s4.now == now && s4.tasks == [] && s4.payouts == []
    requires s4.rows == map[0 := ExpiredRow(now, planId).(status := TRIGGERING, startedAt := Some(now))]
    ensures IsRun(cfg, states, CrashedTrigger(cfg, now, c, caller, planId)[4..]) && |states| == 5
    ensures states[0] == s4 && states[4].chain == s4.chain && Lost(states[4], 0)
    ensures states[4].rows[0].status == TRIGGER_FAILED && states[4].rows[0].onchainId == Some(planId)
  {
    var actions := CrashedTrigger(cfg, now, c, caller, planId);
    var s5 := Next(cfg, s4, actions[4]);
    assert Eligible(cfg, s5, 0, true);
    var s6 := Next(cfg, s5, actions[5]);
    assert s6.tasks == [Task(0, Some(planId), None)];
    var s7 := Next(cfg, s6, actions[6]);
    var s8 := Next(cfg, s7, actions[7]);
    states := [s4, s5, s6, s7, s8];
  }

  /**
   So the converse of a backed status fails: over any contract on which somebody may trigger the plan, this run
   ends with the plan triggered on-chain and its row lost as TRIGGER_FAILED.
   */
  lemma CrashLosesTrigger(cfg: Config, now: nat, chain: Store, c: Context, caller: Address, planId: PlanId)
    returns (states: seq<State>)
    requires cfg.batchSize >= 1 && TriggerCall(chain, c, caller, planId).Ok?
    ensures IsRun(cfg, states, CrashedTrigger(cfg, now, c, caller, planId)) && |states| == 9
    ensures states[0] == State(now, map[], chain, [], [], [], [])
    ensures TriggeredOnChain(states[8], 0) && Lost(states[8], 0) && states[8].rows[0].status == TRIGGER_FAILED
  {
    var actions := CrashedTrigger(cfg, now, c, caller, planId);
    var first := FirstWorker(cfg, now, chain, c, caller, planId);
    var second := SecondWorker(cfg, first[4], now, c, caller, planId);
    RunsJoin(cfg, first, actions[..4], second, actions[4..]);
    assert actions == actions[..4] + actions[4..];
    states := first + second[1..];
  }

  /** The same worker, had it not stopped: it confirms the event of its own call and records the trigger. */
  function RecordedTrigger(cfg: Config, now: nat, chain: Store, c: Context, caller: Address, planId: PlanId)
    : seq<Action>
  {
    [InsertRow(0, ExpiredRow(now, planId)), ClaimExpired([0], true), ChainCall(c, Trigger(caller, planId)),
     Confirm(0, TriggerEvents(cfg.contract, chain, c, Trigger(caller, planId))), MarkTriggered(0)]
  }

  lemma ConfirmThenMark(cfg: Config, s: State, events: seq<ContractEvent>, planId: PlanId)
    returns (states: seq<State>)
    requires s.tasks == [Task(0, Some(planId), None)] && 0 in s.rows && s.emitted == events
    requires VerifyTriggerEvent(cfg.contract, events, planId)
    ensures IsRun(cfg, states, [Confirm(0, events), MarkTriggered(0)]) && |states| == 3
    ensures states[0] == s && states[2].tasks == [] && states[2].chain == s.chain
    ensures states[2].rows == s.rows[0 := s.rows[0].(status := TRIGGERED)]
  {
    var s' := Next(cfg, s, Confirm(0, events));
    assert s'.tasks == [Task(0, Some(planId), Some(true))];
    states := [s, s', Next(cfg, s', MarkTriggered(0))];
  }

  lemma TriggerThenRecord(cfg: Config, now: nat, chain: Store, c: Context, caller: Address, planId: PlanId)
    returns (states: seq<State>)
    requires TriggerCall(chain, c, caller, planId).Ok?
    ensures IsRun(cfg, states, RecordedTrigger(cfg, now, chain, c, caller, planId)[2..]) && |states| == 4
    ensures states[0] == ClaimedState(now, chain, planId)
    ensures 0 in states[3].rows && states[3].rows[0].status == TRIGGERED && states[3].tasks == []
    ensures states[3].rows[0].onchainId == Some(planId) && planId in states[3].chain.triggers
  {
    var op := Trigger(caller, planId);
    var events := TriggerEvents(cfg.contract, chain, c, op);
    var s2 := ClaimedState(now, chain, planId);
    var s3 := Next(cfg, s2, ChainCall(c, op));
    assert s3.emitted == events;
    EventOfTrigger(cfg, chain, c, caller, planId);
    var recorded := ConfirmThenMark(cfg, s3, events, planId);
    var x, y := [ChainCall(c, op)], [Confirm(0, events), MarkTriggered(0)];
    RunsJoin(cfg, [s2, s3], x, recorded, y);
    assert RecordedTrigger(cfg, now, chain, c, caller, planId)[2..] == x + y;
    states := [s2, s3] + recorded[1..];
  }

  lemma EventOfTrigger(cfg: Config, chain: Store, c: Context, caller: Address, planId: PlanId)
    requires TriggerCall(chain, c, caller, planId).Ok?
    ensures VerifyTriggerEvent(cfg.contract, TriggerEvents(cfg.contract, chain, c, Trigger(caller, planId)), planId)
    ensures planId in PlanLedger.Step(chain, c, Trigger(caller, planId)).triggers
  {
    EmittedEventVerifies(cfg.contract, chain, c, Trigger(caller, planId), planId);
  }

  /** Without the crash the run ends as it should: TRIGGERED, and on-chain too. */
  lemma WorkerRecordsTrigger(cfg: Config, now: nat, chain: Store, c: Context, caller: Address, planId: PlanId)
    returns (states: seq<State>)
    requires cfg.batchSize >= 1 && TriggerCall(chain, c, caller, planId).Ok?
    ensures IsRun(cfg, states, RecordedTrigger(cfg, now, chain, c, caller, planId)) && |states| == 6
    ensures states[0] == State(now, map[], chain, [], [], [], [])
    ensures TriggeredOnChain(states[5], 0) && states[5].rows[0].status == TRIGGERED
  {
    var actions := RecordedTrigger(cfg, now, chain, c, caller, planId);
    var claimed := FirstClaim(cfg, now, chain, planId);
    var recorded := TriggerThenRecord(cfg, now, chain, c, caller, planId);
    RunsJoin(cfg, claimed, actions[..2], recorded, actions[2..]);
    assert actions == actions[..2] + actions[2..];
    states := claimed + recorded[1..];
  }

  /** One accepted creation after deployment there is such a contract, and its owner may trigger the plan. */
  lemma SuchContractsExist(wallets: map<(Token, Address), nat>, owner: Address, admin: Address)
    requires owner != Contract && admin != Contract && BalanceOf(Deployed(wallets), 0, owner) >= 100
    ensures var chain := PlanRuns.Run(Deployed(wallets), PlanLending.LendableRun(owner, admin)[..1]);
            PlanInvariants.Valid(chain) && TriggerCall(chain, PlanTokens.Calm(admin, {owner}), owner, 1).Ok?
  {
    var calls := PlanLending.LendableRun(owner, admin);
    PlanInvariants.DeployedValid(wallets);
    PlanRuns.RunKeepsValid(Deployed(wallets), calls[..1]);
    var s1 := PlanLending.LendablePlanIsCreated(wallets, owner, admin);
  }
}
