/**
 How the backend reads contract values and events (backend/src/stellar_submit.rs), and what its loan
 reader returns for the trigger record of any reachable contract state.
 */
module StellarReader {
  import opened MachineInts
  import opened PlanTypes
  import opened PlanInvariants
  import opened PlanRuns

  datatype ScVal =
    | ScVoid
    | ScBool(flag: bool)
    | ScU32(small: u32)
    | ScU64(number: u64)
    | ScSymbol(name: string)
    | ScVec(items: Option<seq<ScVal>>)
    | ScMap(entries: Option<seq<ScEntry>>)
    | ScOther

  datatype ScEntry = ScEntry(key: ScVal, val: ScVal)

  type ContractId = nat

  datatype ContractEvent = ContractEvent(contract: Option<ContractId>, topics: seq<ScVal>, data: ScVal)

  predicate MatchesSymbol(value: ScVal, expected: string) {
    value == ScSymbol(expected)
  }

  /** The first entry under the field's name that holds a number. */
  function FindNumber(entries: seq<ScEntry>, field: string): Option<u64> {
    if entries == [] then None
    else if MatchesSymbol(entries[0].key, field) && entries[0].val.ScU64? then Some(entries[0].val.number)
    else if MatchesSymbol(entries[0].key, field) && entries[0].val.ScU32? then Some(entries[0].val.small)
    else FindNumber(entries[1..], field)
  }

  function FindFlag(entries: seq<ScEntry>, field: string): Option<bool> {
    if entries == [] then None
    else if MatchesSymbol(entries[0].key, field) && entries[0].val.ScBool? then Some(entries[0].val.flag)
    else FindFlag(entries[1..], field)
  }

  function NumberField(value: ScVal, field: string): Option<u64> {
    if value.ScMap? && value.entries.Some? then FindNumber(value.entries.value, field) else None
  }

  function FlagField(value: ScVal, field: string): Option<bool> {
    if value.ScMap? && value.entries.Some? then FindFlag(value.entries.value, field) else None
  }

  /** The payload of an optional return value, in either of its encodings. */
  function UnwrapOption(value: ScVal): Option<ScVal> {
    match value
    case ScVoid => None
    case ScVec(Some(items)) =>
      if items == [] || MatchesSymbol(items[0], "None") then None
      else if MatchesSymbol(items[0], "Some") then (if |items| > 1 then Some(items[1]) else None)
      else Some(value)
    case _ => Some(value)
  }

  function OrElse<T>(o: Option<T>, default: T): T {
    match o
    case Some(v) => v
    case None => default
  }

  function ParseOutstandingLoaned(value: ScVal): Option<u64> {
    match UnwrapOption(value)
    case None => None
    case Some(inner) =>
      match NumberField(inner, "original_loaned")
      case None => None
      case Some(original) =>
        var recalled := OrElse(NumberField(inner, "recalled_amount"), 0);
        var settled := OrElse(NumberField(inner, "settled_amount"), 0);
        if OrElse(FlagField(inner, "liquidation_triggered"), false) then Some(0)
        else Some(SaturatingSub(SaturatingSub(original, recalled), settled))
  }

  // ---------- the contract's side ----------

  /** A contract struct is a map with its field names in alphabetical order. */
  function EncodeTrigger(info: TriggerInfo): ScVal {
    ScMap(Some([
      ScEntry(ScSymbol("liquidation_triggered"), ScBool(info.liquidationTriggered)),
      ScEntry(ScSymbol("loan_freeze_active"), ScBool(info.loanFreezeActive)),
      ScEntry(ScSymbol("original_loaned"), ScU64(info.originalLoaned)),
      ScEntry(ScSymbol("recall_attempted"), ScBool(info.recallAttempted)),
      ScEntry(ScSymbol("recalled_amount"), ScU64(info.recalledAmount)),
      ScEntry(ScSymbol("settled_amount"), ScU64(info.settledAmount)),
      ScEntry(ScSymbol("triggered_at"), ScU64(info.triggeredAt))]))
  }

  /** What the contract's trigger query returns. */
  function TriggerQuery(s: Store, planId: PlanId): ScVal {
    if planId in s.triggers then EncodeTrigger(s.triggers[planId]) else ScVoid
  }

  lemma SkipEntry(entries: seq<ScEntry>, field: string)
    requires entries != [] && !MatchesSymbol(entries[0].key, field)
    ensures FindNumber(entries, field) == FindNumber(entries[1..], field)
    ensures FindFlag(entries, field) == FindFlag(entries[1..], field)
  {
  }

  /** A field is found at its place when no earlier entry has its name. */
  lemma {:induction false} FieldAt(entries: seq<ScEntry>, field: string, i: nat)
    requires i < |entries| && MatchesSymbol(entries[i].key, field)
    requires forall k :: 0 <= k < i ==> !MatchesSymbol(entries[k].key, field)
    ensures entries[i].val.ScU64? ==> FindNumber(entries, field) == Some(entries[i].val.number)
    ensures entries[i].val.ScBool? ==> FindFlag(entries, field) == Some(entries[i].val.flag)
    decreases i
  {
    if i > 0 {
      SkipEntry(entries, field);
      FieldAt(entries[1..], field, i - 1);
    }
  }

  lemma NamesBeforeOriginal()
    ensures "original_loaned" !in ["liquidation_triggered", "loan_freeze_active"]
  {
    assert "original_loaned"[0] == 'o' && "liquidation_triggered"[0] == 'l' && "loan_freeze_active"[0] == 'l';
  }

  lemma NamesBeforeRecalled()
    ensures "recalled_amount" !in ["liquidation_triggered", "loan_freeze_active", "original_loaned", "recall_attempted"]
  {
    assert "recalled_amount"[0] == 'r' && "recalled_amount"[6] == 'e' && "recall_attempted"[6] == '_';
    assert "original_loaned"[0] == 'o' && "liquidation_triggered"[0] == 'l' && "loan_freeze_active"[0] == 'l';
  }

  lemma NamesBeforeSettled()
    ensures "settled_amount" !in
            ["liquidation_triggered", "loan_freeze_active", "original_loaned", "recall_attempted", "recalled_amount"]
  {
    assert "settled_amount"[0] == 's' && "recalled_amount"[0] == 'r' && "recall_attempted"[0] == 'r';
    assert "original_loaned"[0] == 'o' && "liquidation_triggered"[0] == 'l' && "loan_freeze_active"[0] == 'l';
  }

  lemma FieldsOfTrigger(info: TriggerInfo)
    ensures var v := EncodeTrigger(info);
            && NumberField(v, "original_loaned") == Some(info.originalLoaned)
            && NumberField(v, "recalled_amount") == Some(info.recalledAmount)
            && NumberField(v, "settled_amount") == Some(info.settledAmount)
            && FlagField(v, "liquidation_triggered") == Some(info.liquidationTriggered)
  {
    var entries := EncodeTrigger(info).entries.value;
    FieldAt(entries, "liquidation_triggered", 0);
    assert FindNumber(entries, "original_loaned") == Some(info.originalLoaned) by {
      NamesBeforeOriginal();
      FieldAt(entries, "original_loaned", 2);
    }
    assert FindNumber(entries, "recalled_amount") == Some(info.recalledAmount) by {
      NamesBeforeRecalled();
      FieldAt(entries, "recalled_amount", 4);
    }
    assert FindNumber(entries, "settled_amount") == Some(info.settledAmount) by {
      NamesBeforeSettled();
      FieldAt(entries, "settled_amount", 5);
    }
  }

  /** On accounted loans the reader returns the plan's loaned balance, in both encodings, without clipping. */
  lemma ReaderReturnsLoaned(plan: Plan, info: TriggerInfo)
    requires LoansAccounted(plan, info)
    ensures ParseOutstandingLoaned(EncodeTrigger(info)) == Some(plan.totalLoaned)
    ensures ParseOutstandingLoaned(ScVec(Some([ScSymbol("Some"), EncodeTrigger(info)]))) == Some(plan.totalLoaned)
    ensures info.recalledAmount + info.settledAmount <= info.originalLoaned
  {
    FieldsOfTrigger(info);
    var wrapped := [ScSymbol("Some"), EncodeTrigger(info)];
    assert "Some"[0] == 'S' && "None"[0] == 'N';
    assert UnwrapOption(ScVec(Some(wrapped))) == Some(EncodeTrigger(info));
  }

  /** Of any record, accounted or not: nothing after a liquidation, else what neither recalls nor settlements cover. */
  lemma ReaderOnAnyRecord(info: TriggerInfo)
    ensures var covered := info.recalledAmount + info.settledAmount;
            ParseOutstandingLoaned(EncodeTrigger(info)) ==
            Some(if info.liquidationTriggered || covered >= info.originalLoaned then 0
                 else info.originalLoaned - covered)
  {
    FieldsOfTrigger(info);
  }

  /** Without a record there is nothing to read, in either encoding of that. */
  lemma NothingToRead(rest: seq<ScVal>)
    ensures ParseOutstandingLoaned(ScVoid) == None
    ensures ParseOutstandingLoaned(ScVec(Some([]))) == None
    ensures ParseOutstandingLoaned(ScVec(Some([ScSymbol("None")] + rest))) == None
    ensures ParseOutstandingLoaned(ScVec(Some([ScSymbol("Some")]))) == None
  {
    assert "Some"[0] == 'S' && "None"[0] == 'N';
    assert ([ScSymbol("None")] + rest)[0] == ScSymbol("None");
  }

  /** In every run the backend sees exactly the contract's loans, and nothing for an untriggered plan. */
  lemma ReaderAgreesWithContract(s: Store, calls: seq<Event>, planId: PlanId)
    requires Valid(s)
    ensures var s' := Run(s, calls);
            ParseOutstandingLoaned(TriggerQuery(s', planId)) ==
            if planId in s'.triggers && planId in s'.plans then Some(s'.plans[planId].totalLoaned) else None
    ensures var s' := Run(s, calls); planId in s'.triggers ==> planId in s'.plans
  {
    RunKeepsValid(s, calls);
    var s' := Run(s, calls);
    if planId in s'.triggers {
      ReaderReturnsLoaned(s'.plans[planId], s'.triggers[planId]);
    }
  }

  // ---------- events ----------

  predicate TopicsMatch(event: ContractEvent, topics: seq<string>) {
    |topics| <= |event.topics| && forall i :: 0 <= i < |topics| ==> MatchesSymbol(event.topics[i], topics[i])
  }

  /** The first event of the contract whose leading topics match. */
  function FindEvent(events: seq<ContractEvent>, contract: ContractId, topics: seq<string>): Option<ContractEvent> {
    if events == [] then None
    else if events[0].contract == Some(contract) && TopicsMatch(events[0], topics) then Some(events[0])
    else FindEvent(events[1..], contract, topics)
  }

  lemma {:induction false} FoundEventMatches(events: seq<ContractEvent>, contract: ContractId, topics: seq<string>)
    ensures var e := FindEvent(events, contract, topics);
            e.Some? ==> e.value in events && e.value.contract == Some(contract) && TopicsMatch(e.value, topics)
  {
    if events != [] {
      FoundEventMatches(events[1..], contract, topics);
    }
  }

  /** The event comes from the contract under at least these topics. */
  predicate ComesFrom(event: ContractEvent, contract: ContractId, topics: seq<string>) {
    && event.contract == Some(contract) && |topics| <= |event.topics|
    && forall i :: 0 <= i < |topics| ==> event.topics[i] == ScSymbol(topics[i])
  }

  /** The search finds the first such event, and nothing exactly when there is none. */
  lemma {:induction false} FoundEventIsFirst(events: seq<ContractEvent>, contract: ContractId, topics: seq<string>)
    returns (i: nat)
    ensures i <= |events| && forall k :: 0 <= k < i ==> !ComesFrom(events[k], contract, topics)
    ensures if i == |events| then FindEvent(events, contract, topics) == None
            else ComesFrom(events[i], contract, topics) && FindEvent(events, contract, topics) == Some(events[i])
  {
    if events == [] || ComesFrom(events[0], contract, topics) {
      i := 0;
    } else {
      var j := FoundEventIsFirst(events[1..], contract, topics);
      i := j + 1;
    }
  }

  function EventNumber(event: ContractEvent, field: string): Option<u64> {
    NumberField(event.data, field)
  }

  /** The event of an accepted trigger. */
  function TriggerEvent(contract: ContractId, planId: PlanId, triggeredAt: u64, outstanding: u64): ContractEvent {
    ContractEvent(Some(contract), [ScSymbol("INHERIT"), ScSymbol("TRIGGER")],
                  ScMap(Some([
                    ScEntry(ScSymbol("outstanding_loans"), ScU64(outstanding)),
                    ScEntry(ScSymbol("plan_id"), ScU64(planId)),
                    ScEntry(ScSymbol("triggered_at"), ScU64(triggeredAt))])))
  }

  lemma TriggerEventCarriesPlan(contract: ContractId, planId: PlanId, triggeredAt: u64, outstanding: u64)
    ensures var e := TriggerEvent(contract, planId, triggeredAt, outstanding);
            TopicsMatch(e, ["INHERIT", "TRIGGER"]) && EventNumber(e, "plan_id") == Some(planId)
  {
    var e := TriggerEvent(contract, planId, triggeredAt, outstanding);
    assert "outstanding_loans"[0] == 'o' && "plan_id"[0] == 'p';
    FieldAt(e.data.entries.value, "plan_id", 1);
  }
}
