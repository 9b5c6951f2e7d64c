/**
 What moves a plan's row in the watchdog protocol, what a ping protects it from, and how it ends
 (backend/src/inactivity_watchdog.rs, with the status writes of api.rs and loan_lifecycle.rs).
 */
module WatchdogSteps {
  import opened MachineInts
  import opened PlanTypes
  import opened PlanLedger
  import MoneyCalls
  import PlanLending
  import ClaimTargets
  import PlanInvariants
  import opened StellarReader
  import opened Watchdog

  // ---------- what moves a row ----------

  /** The grace time since the last ping is over, on a row that has not ended. */
  predicate Overdue(s: State, id: RowId) {
    id in s.rows && s.rows[id].isActive && s.now >= s.rows[id].lastPing + s.rows[id].graceSeconds
  }

  /** The only steps that can give a row this status. */
  predicate Brings(s: State, a: Action, id: RowId, status: Status) {
    match status
    case ACTIVE => false
    case TRIGGERING => a.ClaimExpired? && a.signed && id in a.claimed && Overdue(s, id)
    case TRIGGERED =>
      || (a.ClaimExpired? && !a.signed && id in a.claimed && Overdue(s, id))
      || (a.MarkTriggered? && a.task < |s.tasks| && s.tasks[a.task].row == id && s.tasks[a.task].verdict == Some(true))
    case TRIGGER_FAILED =>
      a.MarkFailed? && a.task < |s.tasks| && s.tasks[a.task].row == id && s.tasks[a.task].verdict == Some(false)
    case CLAIMABLE =>
      || (a.FinishPayout? && a.payout < |s.payouts| && s.payouts[a.payout] == id)
      || (a == Settle(id) && id in s.rows && s.rows[id].status == TRIGGERED)
    case PAID_OUT => a == PayOut(id) && id in s.rows && s.rows[id].isActive
    case DEACTIVATED => a == Cancel(id)
  }

  lemma ClaimMoves(cfg: Config, s: State, s': State, a: Action, id: RowId)
    requires Steps(cfg, s, s', a) && a.ClaimExpired? && id in s.rows
    ensures id in s'.rows
    ensures if id in a.claimed
            then && Overdue(s, id) && s'.rows[id].status == (if a.signed then TRIGGERING else TRIGGERED)
                 && s'.rows[id].startedAt == Some(s.now)
            else s'.rows[id] == s.rows[id]
  {
    if id in a.claimed {
      assert Eligible(cfg, s, id, a.signed);
    }
  }

  lemma TaskMoves(cfg: Config, s: State, s': State, a: Action, id: RowId)
    requires Steps(cfg, s, s', a) && id in s.rows
    requires a.Confirm? || a.GiveUp? || a.MarkTriggered? || a.MarkFailed? || a.Crash?
    ensures id in s'.rows
    ensures s'.rows[id].status != s.rows[id].status ==> Brings(s, a, id, s'.rows[id].status)
  {
  }

  lemma HandlerMoves(cfg: Config, s: State, s': State, a: Action, id: RowId)
    requires Steps(cfg, s, s', a) && id in s.rows
    requires a.BeginPayout? || a.FinishPayout? || a.Settle? || a.PayOut? || a.Cancel?
    ensures id in s'.rows
    ensures s'.rows[id].status != s.rows[id].status ==> Brings(s, a, id, s'.rows[id].status)
  {
  }

  lemma OtherMoves(cfg: Config, s: State, s': State, a: Action, id: RowId)
    requires Steps(cfg, s, s', a) && id in s.rows
    requires a.Tick? || a.InsertRow? || a.Ping? || a.SetGrace? || a.ChainCall?
    ensures id in s'.rows && s'.rows[id].status == s.rows[id].status
  {
  }

  /** A row changes its status only in the steps that are made for it; none makes it ACTIVE again. */
  lemma StatusMoves(cfg: Config, s: State, s': State, a: Action, id: RowId)
    requires Steps(cfg, s, s', a) && id in s.rows
    ensures id in s'.rows
    ensures s'.rows[id].status != s.rows[id].status ==> Brings(s, a, id, s'.rows[id].status)
  {
    if a.ClaimExpired? {
      ClaimMoves(cfg, s, s', a, id);
    } else if a.Tick? || a.InsertRow? || a.Ping? || a.SetGrace? || a.ChainCall? {
      OtherMoves(cfg, s, s', a, id);
    } else if a.BeginPayout? || a.FinishPayout? || a.Settle? || a.PayOut? || a.Cancel? {
      HandlerMoves(cfg, s, s', a, id);
    } else {
      TaskMoves(cfg, s, s', a, id);
    }
  }

  /** And those steps do give it: what each status-writing step leaves. */
  lemma MovesArrive(cfg: Config, s: State, s': State, a: Action)
    requires Steps(cfg, s, s', a)
    ensures a.Confirm? ==>
              && a.task < |s'.tasks| && ValidChainId(s.tasks[a.task].onchainId).Some?
              && s'.tasks[a.task] == s.tasks[a.task].(verdict := Some(
                   VerifyTriggerEvent(cfg.contract, a.events, ValidChainId(s.tasks[a.task].onchainId).value)))
    ensures a.MarkTriggered? ==> var id := s.tasks[a.task].row; id in s'.rows && s'.rows[id].status == TRIGGERED
    ensures a.MarkFailed? ==> var id := s.tasks[a.task].row; id in s'.rows && s'.rows[id].status == TRIGGER_FAILED
    ensures a.FinishPayout? ==> var id := s.payouts[a.payout]; id in s'.rows && s'.rows[id].status == CLAIMABLE
    ensures a.PayOut? ==> a.id in s'.rows && s'.rows[a.id].status == PAID_OUT && !s'.rows[a.id].isActive
    ensures a.Cancel? ==> a.id in s'.rows && s'.rows[a.id].status == DEACTIVATED && !s'.rows[a.id].isActive
    ensures a.Settle? && s.rows[a.id].status == TRIGGERED ==> a.id in s'.rows && s'.rows[a.id].status == CLAIMABLE
  {
  }

  /** The steps that set a row's last ping to now. */
  predicate Touches(a: Action, id: RowId) {
    a == Ping(id) || a == PayOut(id) || a == Cancel(id)
  }

  /**
   What no other step touches: the last ping, the grace time, the chain id and the time of the claim. New rows come
   from insertions alone, and are stored as given.
   */
  lemma DeadlineMoves(cfg: Config, s: State, s': State, a: Action, id: RowId)
    requires Steps(cfg, s, s', a) && id in s'.rows
    ensures id !in s.rows ==> a == InsertRow(id, s'.rows[id])
    ensures id in s.rows ==>
              && s'.rows[id].lastPing == (if Touches(a, id) then s.now else s.rows[id].lastPing)
              && s'.rows[id].graceSeconds == (if a.SetGrace? && a.id == id then a.seconds else s.rows[id].graceSeconds)
              && s'.rows[id].onchainId == s.rows[id].onchainId
              && (s'.rows[id].startedAt != s.rows[id].startedAt ==> a.ClaimExpired? && id in a.claimed)
  {
    if a.ClaimExpired? {
      ClaimMoves(cfg, s, s', a, id);
    }
  }

  // ---------- work in flight ----------

  /** The list without its entry `k`. */
  ghost predicate Less<T>(before: seq<T>, after: seq<T>, k: nat) {
    && k < |before| == |after| + 1
    && (forall i :: 0 <= i < k ==> after[i] == before[i])
    && forall i :: k <= i < |after| ==> after[i] == before[i + 1]
  }

  /** A signed sweep opens one task for each row it claims, with the chain id of that moment and no verdict yet. */
  lemma SweepOpensTasks(cfg: Config, s: State, s': State, a: Action)
    requires Steps(cfg, s, s', a) && a.ClaimExpired?
    ensures !a.signed ==> s'.tasks == s.tasks
    ensures a.signed ==>
              && |s'.tasks| == |s.tasks| + |a.claimed| && s'.tasks[..|s.tasks|] == s.tasks
              && forall i :: 0 <= i < |a.claimed| ==>
                   && a.claimed[i] in s.rows
                   && s'.tasks[|s.tasks| + i] == Task(a.claimed[i], s.rows[a.claimed[i]].onchainId, None)
  {
    forall i | 0 <= i < |a.claimed|
      ensures a.claimed[i] in s.rows
    {
      assert Eligible(cfg, s, a.claimed[i], a.signed);
    }
  }

  /** A task ends when its verdict is recorded or its worker stops; giving up is a verdict too, set once. */
  lemma TasksEnd(cfg: Config, s: State, s': State, a: Action)
    requires Steps(cfg, s, s', a)
    ensures a.MarkTriggered? || a.MarkFailed? || a.Crash? ==> Less(s.tasks, s'.tasks, a.task)
    ensures a.GiveUp? ==>
              && a.task < |s.tasks| && s.tasks[a.task].verdict == None
              && s'.tasks == s.tasks[a.task := s.tasks[a.task].(verdict := Some(false))]
    ensures !(a.MarkTriggered? || a.MarkFailed? || a.Crash? || a.GiveUp? || a.Confirm? || a.ClaimExpired?) ==>
              s'.tasks == s.tasks
  {
  }

  /** A payout is begun once for each handler that finds the row payable, and ends when that handler finishes. */
  lemma PayoutsMove(cfg: Config, s: State, s': State, a: Action)
    requires Steps(cfg, s, s', a)
    ensures a.BeginPayout? ==> s'.payouts == s.payouts + [a.id]
    ensures a.FinishPayout? ==> Less(s.payouts, s'.payouts, a.payout)
    ensures !a.BeginPayout? && !a.FinishPayout? ==> s'.payouts == s.payouts
  {
  }

  /** The history gains just the claims of a sweep, at their time and with the signer's presence. */
  lemma HistoryMoves(cfg: Config, s: State, s': State, a: Action)
    requires Steps(cfg, s, s', a)
    ensures !a.ClaimExpired? ==> s'.history == s.history
    ensures a.ClaimExpired? ==>
              && |s'.history| == |s.history| + |a.claimed| && s'.history[..|s.history|] == s.history
              && forall i :: 0 <= i < |a.claimed| ==>
                   s'.history[|s.history| + i] == Claimed(a.claimed[i], s.now, a.signed)
  {
  }

  // ---------- a ping protects ----------

  /** The row was pinged at `t` or later, and its grace time is `grace`. */
  ghost predicate Protected(s: State, id: RowId, t: nat, grace: nat) {
    && id in s.rows && t <= s.now && s.rows[id].lastPing >= t && s.rows[id].graceSeconds == grace
  }

  lemma PingProtects(cfg: Config, s: State, s': State, id: RowId)
    requires Steps(cfg, s, s', Ping(id))
    ensures id in s.rows && Protected(s', id, s.now, s.rows[id].graceSeconds)
  {
  }

  lemma ClaimKeepsProtected(cfg: Config, s: State, s': State, a: Action, id: RowId, t: nat, grace: nat)
    requires Protected(s, id, t, grace) && Steps(cfg, s, s', a) && a.ClaimExpired?
    ensures Protected(s', id, t, grace)
  {
  }

  lemma StepKeepsProtected(cfg: Config, s: State, s': State, a: Action, id: RowId, t: nat, grace: nat)
    requires Protected(s, id, t, grace) && Steps(cfg, s, s', a) && !(a.SetGrace? && a.id == id)
    ensures Protected(s', id, t, grace)
  {
    if a.ClaimExpired? {
      ClaimKeepsProtected(cfg, s, s', a, id, t, grace);
    }
  }

  ghost predicate NeverRegraced(actions: seq<Action>, id: RowId) {
    forall i :: 0 <= i < |actions| ==> !(actions[i].SetGrace? && actions[i].id == id)
  }

  lemma {:induction false} StaysProtected(cfg: Config, states: seq<State>, actions: seq<Action>, id: RowId, t: nat,
                                          grace: nat)
    requires IsRun(cfg, states, actions) && Protected(states[0], id, t, grace) && NeverRegraced(actions, id)
    ensures Protected(states[|actions|], id, t, grace)
    decreases |actions|
  {
    if actions != [] {
      var n := |actions| - 1;
      StaysProtected(cfg, states[..n + 1], actions[..n], id, t, grace);
      StepKeepsProtected(cfg, states[n], states[n + 1], actions[n], id, t, grace);
    }
  }

  /**
   Over every run after a ping, with the grace time left alone: no sweep claims the row before that time is over,
   whatever else workers and handlers do.
   */
  lemma PingHoldsForItsGrace(cfg: Config, s: State, states: seq<State>, actions: seq<Action>, id: RowId, last: State,
                             claim: Action)
    requires IsRun(cfg, states, actions) && Steps(cfg, s, states[0], Ping(id)) && NeverRegraced(actions, id)
    requires claim.ClaimExpired? && id in claim.claimed && Steps(cfg, states[|actions|], last, claim)
    ensures id in s.rows && states[|actions|].now >= s.now + s.rows[id].graceSeconds
  {
    PingProtects(cfg, s, states[0], id);
    StaysProtected(cfg, states, actions, id, s.now, s.rows[id].graceSeconds);
    ClaimMoves(cfg, states[|actions|], last, claim, id);
  }

  // ---------- ended rows ----------

  ghost predicate Ended(s: State, id: RowId) {
    id in s.rows && !s.rows[id].isActive
  }

  lemma StepKeepsEnded(cfg: Config, s: State, s': State, a: Action, id: RowId)
    requires Ended(s, id) && Steps(cfg, s, s', a)
    ensures Ended(s', id)
  {
  }

  lemma {:induction false} EndedForGood(cfg: Config, states: seq<State>, actions: seq<Action>, id: RowId)
    requires IsRun(cfg, states, actions) && Ended(states[0], id)
    ensures Ended(states[|actions|], id)
    decreases |actions|
  {
    if actions != [] {
      var n := |actions| - 1;
      EndedForGood(cfg, states[..n + 1], actions[..n], id);
      StepKeepsEnded(cfg, states[n], states[n + 1], actions[n], id);
    }
  }

  /** A step that needs the row alive. */
  predicate NeedsAlive(a: Action, id: RowId) {
    a == Ping(id) || a == BeginPayout(id) || a == PayOut(id) || (a.ClaimExpired? && id in a.claimed)
  }

  /** Over every run: a row that was paid out or cancelled is not pinged, claimed or paid out again. */
  lemma EndsOnce(cfg: Config, s: State, states: seq<State>, actions: seq<Action>, id: RowId, end: Action, last: State,
                 again: Action)
    requires IsRun(cfg, states, actions) && (end == PayOut(id) || end == Cancel(id)) && Steps(cfg, s, states[0], end)
    requires Steps(cfg, states[|actions|], last, again)
    ensures !NeedsAlive(again, id)
  {
    MovesArrive(cfg, s, states[0], end);
    EndedForGood(cfg, states, actions, id);
    if again.ClaimExpired? {
      LiveClaims(cfg, states[|actions|], last, again, id);
    }
  }

  lemma LiveClaims(cfg: Config, s: State, s': State, a: Action, id: RowId)
    requires Ended(s, id) && a.ClaimExpired? && Steps(cfg, s, s', a)
    ensures id !in a.claimed
  {
    assert !Eligible(cfg, s, id, a.signed);
  }

  // ---------- the event tells the record ----------

  lemma FiringEffect(chain: Store, c: Context, op: Op)
    requires PlanInvariants.Valid(chain) && Invoke(chain, c, op).Ok? && Fires(chain, c, op) && op.planId in chain.plans
    ensures op.planId in Step(chain, c, op).triggers
    ensures Step(chain, c, op).triggers[op.planId] ==
            TriggerInfo(c.now, true, false, false, chain.plans[op.planId].totalLoaned, 0, 0)
  {
    match op {
      case Trigger(caller, planId) => MoneyCalls.TriggerEffect(chain, c, caller, planId);
      case AutoTrigger(planId) => MoneyCalls.AutoTriggerEffect(chain, c, planId);
      case Claim(planId, entry) => ClaimFires(chain, c, planId, entry);
      case BatchClaim(planId, entries) => BatchFires(chain, c, planId, entries);
    }
  }

  lemma ClaimFires(chain: Store, c: Context, planId: PlanId, entry: ClaimEntry)
    requires PlanInvariants.Valid(chain) && ClaimCall(chain, c, planId, entry).Ok? && AutoFires(chain, c, planId)
    ensures ClaimCall(chain, c, planId, entry).value.store.triggers ==
            chain.triggers[planId := TriggerInfo(c.now, true, false, false, chain.plans[planId].totalLoaned, 0, 0)]
  {
    var i := ClaimTargets.ClaimEffect(chain, c, planId, entry);
  }

  lemma BatchFires(chain: Store, c: Context, planId: PlanId, entries: seq<ClaimEntry>)
    requires BatchClaimCall(chain, c, planId, entries).Ok? && AutoFires(chain, c, planId)
    ensures BatchClaimCall(chain, c, planId, entries).value.store.triggers ==
            chain.triggers[planId := TriggerInfo(c.now, true, false, false, chain.plans[planId].totalLoaned, 0, 0)]
  {
    ClaimTargets.AutoTriggeredIs(chain, c, planId);
    PlanLending.ClaimEachKeepsTriggers(AutoTriggered(chain, c, planId), c, planId, entries, |entries|);
  }

  lemma EventFields(contract: ContractId, planId: PlanId, triggeredAt: u64, outstanding: u64)
    ensures var e := TriggerEvent(contract, planId, triggeredAt, outstanding);
            && e.contract == Some(contract)
            && EventNumber(e, "plan_id") == Some(planId)
            && EventNumber(e, "triggered_at") == Some(triggeredAt)
            && EventNumber(e, "outstanding_loans") == Some(outstanding)
  {
    var e := TriggerEvent(contract, planId, triggeredAt, outstanding);
    assert "outstanding_loans"[0] == 'o' && "plan_id"[0] == 'p' && "triggered_at"[0] == 't';
    FieldAt(e.data.entries.value, "outstanding_loans", 0);
    FieldAt(e.data.entries.value, "plan_id", 1);
    FieldAt(e.data.entries.value, "triggered_at", 2);
  }

  /** The event of a trigger carries the plan, the time and the loans of the record that the call leaves. */
  lemma EventMatchesRecord(contract: ContractId, chain: Store, c: Context, op: Op)
    requires PlanInvariants.Valid(chain) && TriggerEvents(contract, chain, c, op) != []
    ensures |TriggerEvents(contract, chain, c, op)| == 1 && op.planId in Step(chain, c, op).triggers
    ensures var e, info := TriggerEvents(contract, chain, c, op)[0], Step(chain, c, op).triggers[op.planId];
            && e.contract == Some(contract)
            && EventNumber(e, "plan_id") == Some(op.planId)
            && EventNumber(e, "triggered_at") == Some(info.triggeredAt) == Some(c.now)
            && EventNumber(e, "outstanding_loans") == Some(info.originalLoaned)
  {
    FiringEffect(chain, c, op);
    EventFields(contract, op.planId, c.now, chain.plans[op.planId].totalLoaned);
  }
}
