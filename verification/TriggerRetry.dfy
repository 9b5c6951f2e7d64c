/**
 The on-chain half of a sweep: submitting one plan with retries, and working through a claimed batch
 (backend/src/inactivity_watchdog.rs).
 */
module TriggerRetry {
  import opened MachineInts
  import opened StellarReader
  import opened Watchdog

  datatype SubmitError =
    | Network
    | Rejected
    | NotConfigured
    | BadConfig
    | BadXdr
    | Rpc
    | Simulation
    | TransactionFailed
    | Timeout

  /** What the network answers to one submission; a refusal comes with its text. */
  datatype Response = Landed(txHash: string, events: seq<ContractEvent>) | Refused(error: SubmitError, text: string)

  /** Why a plan was not triggered: what the recorded message says. */
  datatype Reason =
    | NoChainId
    | BadChainId(id: int)
    | NoEvent(txHash: string)
    | OtherPlan(txHash: string, planId: u64)
    | NoPlanId(txHash: string)
    | Submission(text: string)

  datatype Verdict = Confirmed(txHash: string, attempts: u32) | Failed(reason: Reason, attempts: u32)

  datatype RetryConfig = RetryConfig(maxAttempts: u32, initialBackoff: nat, maxBackoff: nat)

  /** Only transport and inclusion failures are worth another attempt. */
  predicate IsRetryable(error: SubmitError) {
    error in {Network, Rpc, Timeout}
  }

  predicate ShouldRetry(response: Response) {
    response.Refused? && IsRetryable(response.error)
  }

  /** Every other answer is final. */
  lemma FinalAnswers(error: SubmitError)
    ensures !IsRetryable(error) <==>
            error in {Rejected, NotConfigured, BadConfig, BadXdr, Simulation, TransactionFailed}
  {
    match error {
      case Network =>
      case Rejected =>
      case NotConfigured =>
      case BadConfig =>
      case BadXdr =>
      case Rpc =>
      case Simulation =>
      case TransactionFailed =>
      case Timeout =>
    }
  }

  function TwoTo(e: nat): nat {
    if e == 0 then 1 else 2 * TwoTo(e - 1)
  }

  /** The u32 factor of an attempt: a shift, or the largest u32 once the shift is too long. */
  function BackoffFactor(attempt: u32): nat {
    var shift := SaturatingSub(attempt, 1);
    if shift < 32 then TwoTo(shift) else U32_MAX
  }

  function BackoffFor(cfg: RetryConfig, attempt: u32): nat {
    Min(cfg.initialBackoff * BackoffFactor(attempt), cfg.maxBackoff)
  }

  lemma {:induction false} TwoToGrows(d: nat, e: nat)
    requires d <= e
    ensures TwoTo(d) <= TwoTo(e)
  {
    if d < e {
      TwoToGrows(d, e - 1);
    }
  }

  lemma TwoTo31()
    ensures TwoTo(31) <= U32_MAX
  {
    assert TwoTo(10) == 1024;
    assert TwoTo(20) == 1_048_576;
    assert TwoTo(30) == 1_073_741_824;
  }

  lemma FactorGrows(a: u32, b: u32)
    requires a <= b
    ensures BackoffFactor(a) <= BackoffFactor(b)
  {
    var x, y := SaturatingSub(a, 1), SaturatingSub(b, 1);
    if y < 32 {
      TwoToGrows(x, y);
    } else if x < 32 {
      TwoToGrows(x, 31);
      TwoTo31();
    }
  }

  lemma CappedProductGrows(x: nat, f: nat, g: nat, cap: nat)
    requires f <= g
    ensures Min(x * f, cap) <= Min(x * g, cap) <= cap
  {
    assert x * f <= x * g;
  }

  /** Waits never shrink from one attempt to the next, even where the shift overflows, and never pass the cap. */
  lemma BackoffGrows(cfg: RetryConfig, a: u32, b: u32)
    requires a <= b
    ensures BackoffFor(cfg, a) <= BackoffFor(cfg, b) <= cfg.maxBackoff
  {
    FactorGrows(a, b);
    CappedProductGrows(cfg.initialBackoff, BackoffFactor(a), BackoffFactor(b), cfg.maxBackoff);
  }

  lemma ScaledMin(x: nat, cap: nat)
    ensures Min(2 * x, cap) == Min(2 * Min(x, cap), cap)
  {
  }

  /** The first wait is the configured one; each further one doubles it up to the cap, as long as the shift goes. */
  lemma BackoffDoubles(cfg: RetryConfig, attempt: u32)
    requires 1 <= attempt < 32
    ensures BackoffFor(cfg, 1) == Min(cfg.initialBackoff, cfg.maxBackoff)
    ensures BackoffFor(cfg, attempt + 1) == Min(2 * BackoffFor(cfg, attempt), cfg.maxBackoff)
  {
    var f := BackoffFactor(attempt);
    assert TwoTo(0) == 1;
    assert BackoffFactor(attempt + 1) == 2 * f;
    assert cfg.initialBackoff * (2 * f) == 2 * (cfg.initialBackoff * f);
    ScaledMin(cfg.initialBackoff * f, cfg.maxBackoff);
  }

  /** What the first `n` waits add up to. */
  function WaitedFor(cfg: RetryConfig, n: nat): nat
    requires n <= U32_MAX
  {
    if n == 0 then 0 else WaitedFor(cfg, n - 1) + BackoffFor(cfg, n)
  }

  lemma OneMoreWait(n: nat, waited: nat, wait: nat, cap: nat)
    requires n > 0 && waited <= (n - 1) * cap && wait <= cap
    ensures waited + wait <= n * cap
  {
    assert (n - 1) * cap + cap == n * cap;
  }

  lemma {:induction false} WaitsAreCapped(cfg: RetryConfig, n: nat)
    requires n <= U32_MAX
    ensures WaitedFor(cfg, n) <= n * cfg.maxBackoff
  {
    if n > 0 {
      WaitsAreCapped(cfg, n - 1);
      BackoffGrows(cfg, n, n);
      OneMoreWait(n, WaitedFor(cfg, n - 1), BackoffFor(cfg, n), cfg.maxBackoff);
    }
  }

  /** The first `n` answers are all worth retrying. */
  predicate AllRetried(responses: seq<Response>, n: nat)
    requires n <= |responses|
  {
    forall i :: 0 <= i < n ==> ShouldRetry(responses[i])
  }

  predicate Confirms(contract: ContractId, response: Response, planId: u64) {
    response.Landed? && VerifyTriggerEvent(contract, response.events, planId)
  }

  /** What is wrong with the events of a landed transaction, if anything is. */
  function EventFault(contract: ContractId, txHash: string, events: seq<ContractEvent>, expected: u64)
    : (r: Option<Reason>)
    ensures r == None <==> VerifyTriggerEvent(contract, events, expected)
  {
    match FindEvent(events, contract, TRIGGER_TOPICS)
    case None => Some(NoEvent(txHash))
    case Some(event) =>
      match EventNumber(event, "plan_id")
      case None => Some(NoPlanId(txHash))
      case Some(planId) => if planId == expected then None else Some(OtherPlan(txHash, planId))
  }

  /** The contract's first trigger event decides: it is missing, carries no plan, another plan, or the expected one. */
  lemma FaultMeaning(contract: ContractId, txHash: string, events: seq<ContractEvent>, expected: u64) returns (i: nat)
    ensures i <= |events| && forall k :: 0 <= k < i ==> !ComesFrom(events[k], contract, TRIGGER_TOPICS)
    ensures var fault := EventFault(contract, txHash, events, expected);
            if i == |events| then fault == Some(NoEvent(txHash))
            else
              && ComesFrom(events[i], contract, TRIGGER_TOPICS)
              && var planId := EventNumber(events[i], "plan_id");
                 if planId.None? then fault == Some(NoPlanId(txHash))
                 else if planId.value != expected then fault == Some(OtherPlan(txHash, planId.value))
                 else fault == None
  {
    i := FoundEventIsFirst(events, contract, TRIGGER_TOPICS);
  }

  /** Why the last answer of a failed submission failed; without any answer the text is empty. */
  function FaultOf(contract: ContractId, responses: seq<Response>, planId: u64): Option<Reason> {
    if responses == [] then Some(Submission(""))
    else
      match responses[|responses| - 1]
      case Landed(txHash, events) => EventFault(contract, txHash, events, planId)
      case Refused(_, text) => Some(Submission(text))
  }

  /**
   One plan's submission. The first answer that is not worth retrying decides; without one, the plan
   fails after the last attempt. A failure names the fault of the last answer.
   */
  method TriggerOnChain(contract: ContractId, cfg: RetryConfig, onchainId: Option<int>, responses: seq<Response>)
    returns (verdict: Verdict, waited: nat)
    requires |responses| >= cfg.maxAttempts
    ensures ValidChainId(onchainId).None? ==>
              verdict == Failed(if onchainId.None? then NoChainId else BadChainId(onchainId.value), 0)
    ensures verdict.attempts <= cfg.maxAttempts
    ensures verdict.attempts > 0 ==> AllRetried(responses, verdict.attempts - 1)
    ensures forall i :: 0 <= i < verdict.attempts - 1 ==>
              responses[i].Refused? && responses[i].error in {Network, Rpc, Timeout}
    ensures verdict.Failed? && 0 < verdict.attempts < cfg.maxAttempts ==>
              responses[verdict.attempts - 1].Landed? || responses[verdict.attempts - 1].error in
                {Rejected, NotConfigured, BadConfig, BadXdr, Simulation, TransactionFailed}
    ensures verdict.Confirmed? ==>
              && verdict.attempts > 0 && ValidChainId(onchainId).Some?
              && Confirms(contract, responses[verdict.attempts - 1], ValidChainId(onchainId).value)
              && verdict.txHash == responses[verdict.attempts - 1].txHash
    ensures verdict.Failed? && ValidChainId(onchainId).Some? ==>
              || (verdict.attempts == cfg.maxAttempts && AllRetried(responses, cfg.maxAttempts))
              || (&& verdict.attempts > 0
                  && !ShouldRetry(responses[verdict.attempts - 1])
                  && !Confirms(contract, responses[verdict.attempts - 1], ValidChainId(onchainId).value))
    ensures verdict.Failed? && ValidChainId(onchainId).Some? ==>
              Some(verdict.reason) == FaultOf(contract, responses[..verdict.attempts], ValidChainId(onchainId).value)
    ensures waited == WaitedFor(cfg, SaturatingSub(verdict.attempts, 1))
    ensures waited <= SaturatingSub(verdict.attempts, 1) * cfg.maxBackoff
  {
    WaitsAreCapped(cfg, SaturatingSub(cfg.maxAttempts, 1));
    waited := 0;
    if onchainId.None? {
      return Failed(NoChainId, 0), 0;
    }
    if ValidChainId(onchainId).None? {
      return Failed(BadChainId(onchainId.value), 0), 0;
    }
    var planId, lastError := ValidChainId(onchainId).value, "";
    for attempt := 1 to cfg.maxAttempts + 1
      invariant AllRetried(responses, attempt - 1)
      invariant FaultOf(contract, responses[..attempt - 1], planId) == Some(Submission(lastError))
      invariant waited == WaitedFor(cfg, if attempt <= cfg.maxAttempts then attempt - 1
                                         else SaturatingSub(cfg.maxAttempts, 1))
    {
      WaitsAreCapped(cfg, attempt - 1);
      var response := responses[attempt - 1];
      match response {
        case Landed(txHash, events) =>
          var fault := EventFault(contract, txHash, events, planId);
          if fault.None? {
            return Confirmed(txHash, attempt), waited;
          }
          return Failed(fault.value, attempt), waited;
        case Refused(error, text) =>
          lastError := text;
          if !IsRetryable(error) {
            FinalAnswers(error);
            return Failed(Submission(lastError), attempt), waited;
          }
          if attempt < cfg.maxAttempts {
            waited := waited + BackoffFor(cfg, attempt);
          }
      }
    }
    verdict := Failed(Submission(lastError), cfg.maxAttempts);
  }

  // ---------- a sweep over a claimed batch ----------

  /** The trigger columns of a plan row. */
  datatype TriggerRow = TriggerRow(
    status: Status, attempts: i32, txHash: Option<string>, lastError: Option<Reason>)

  /** The cast of an attempt count to the width of its column wraps around. */
  function AsI32(n: u32): i32 {
    if n <= I32_MAX then n else n - U32_MAX - 1
  }

  /** The database refuses a sum of attempts that leaves the column's range. */
  predicate Fits(row: TriggerRow, verdict: Verdict) {
    -I32_MAX - 1 <= row.attempts + AsI32(verdict.attempts) <= I32_MAX
  }

  /** A confirmed trigger stores its transaction and clears the error; a failure sets the error alone. */
  function Recorded(row: TriggerRow, verdict: Verdict): TriggerRow
    requires Fits(row, verdict)
  {
    var attempts := row.attempts + AsI32(verdict.attempts);
    match verdict
    case Confirmed(txHash, _) => TriggerRow(TRIGGERED, attempts, Some(txHash), None)
    case Failed(reason, _) => TriggerRow(TRIGGER_FAILED, attempts, row.txHash, Some(reason))
  }

  /** The cast keeps the count as long as the column can hold it, and is off by 2^32 above that. */
  lemma CastWraps(n: u32)
    ensures if n < 0x8000_0000 then AsI32(n) == n else AsI32(n) + 0x1_0000_0000 == n
  {
  }

  /** The row shows the outcome, the transaction of the latest success, and an error exactly after a failure. */
  lemma RecordTellsOutcome(row: TriggerRow, verdict: Verdict)
    requires Fits(row, verdict)
    ensures var row' := Recorded(row, verdict);
            && row'.attempts == row.attempts + AsI32(verdict.attempts)
            && (if verdict.Confirmed?
                then row'.status == TRIGGERED && row'.txHash == Some(verdict.txHash) && row'.lastError == None
                else row'.status == TRIGGER_FAILED && row'.txHash == row.txHash
                     && row'.lastError == Some(verdict.reason))
  {
  }

  /** An update goes through when it reaches the database and its row, if it still exists, can take it. */
  predicate GoesThrough(rows: map<RowId, TriggerRow>, id: RowId, verdict: Verdict, sent: bool) {
    sent && (id in rows ==> Fits(rows[id], verdict))
  }

  /** Which updates of a batch go through; `sent` says which of them reach the database. */
  function Outcomes(rows: map<RowId, TriggerRow>, batch: seq<RowId>, verdicts: seq<Verdict>, sent: seq<bool>)
    : (r: seq<bool>)
    requires |batch| == |verdicts| == |sent|
    ensures |r| == |batch|
  {
    seq(|batch|, i requires 0 <= i < |batch| => GoesThrough(rows, batch[i], verdicts[i], sent[i]))
  }

  /** How many updates go through before the first that fails. */
  function Reached(updates: seq<bool>): (n: nat)
    ensures n <= |updates| && (forall i :: 0 <= i < n ==> updates[i]) && (n < |updates| ==> !updates[n])
  {
    if updates == [] || !updates[0] then 0 else 1 + Reached(updates[1..])
  }

  /** The rows of the first `n` plans carry their verdicts; all others are as they were. */
  ghost predicate RecordedUpTo(before: map<RowId, TriggerRow>, now: map<RowId, TriggerRow>, batch: seq<RowId>,
                               verdicts: seq<Verdict>, n: nat)
    requires n <= |batch| == |verdicts|
  {
    && now.Keys == before.Keys
    && (forall i :: 0 <= i < n && batch[i] in before ==>
          Fits(before[batch[i]], verdicts[i]) && now[batch[i]] == Recorded(before[batch[i]], verdicts[i]))
    && forall id <- before :: id !in batch[..n] ==> now[id] == before[id]
  }

  lemma UnmarkedSoFar(before: map<RowId, TriggerRow>, now: map<RowId, TriggerRow>, batch: seq<RowId>,
                      verdicts: seq<Verdict>, k: nat)
    requires k < |batch| == |verdicts| && DistinctRows(batch) && RecordedUpTo(before, now, batch, verdicts, k)
    ensures batch[k] in now <==> batch[k] in before
    ensures batch[k] in before ==> now[batch[k]] == before[batch[k]]
  {
    assert batch[k] !in batch[..k];
  }

  lemma RecordOne(before: map<RowId, TriggerRow>, now: map<RowId, TriggerRow>, next: map<RowId, TriggerRow>,
                  batch: seq<RowId>, verdicts: seq<Verdict>, k: nat)
    requires k < |batch| == |verdicts| && DistinctRows(batch) && RecordedUpTo(before, now, batch, verdicts, k)
    requires batch[k] in now ==> Fits(now[batch[k]], verdicts[k])
    requires next == if batch[k] in now then now[batch[k] := Recorded(now[batch[k]], verdicts[k])] else now
    ensures RecordedUpTo(before, next, batch, verdicts, k + 1)
  {
    UnmarkedSoFar(before, now, batch, verdicts, k);
    assert batch[..k + 1] == batch[..k] + [batch[k]];
  }

  class Sweep {
    var rows: map<RowId, TriggerRow>

    constructor (rows: map<RowId, TriggerRow>)
      ensures this.rows == rows
    {
      this.rows := rows;
    }

    /** An update by id: it touches the row only if it still exists and can take it. */
    method Mark(id: RowId, verdict: Verdict, sent: bool) returns (ok: bool)
      modifies this
      ensures ok == GoesThrough(old(rows), id, verdict, sent)
      ensures rows == if ok && id in old(rows) then old(rows)[id := Recorded(old(rows)[id], verdict)] else old(rows)
    {
      if !sent {
        return false;
      }
      if id in rows {
        var row, spent := rows[id], AsI32(verdict.attempts);
        if row.attempts + spent < -I32_MAX - 1 || row.attempts + spent > I32_MAX {
          return false;
        }
        match verdict {
          case Confirmed(txHash, _) => row := row.(status := TRIGGERED, txHash := Some(txHash), lastError := None);
          case Failed(reason, _) => row := row.(status := TRIGGER_FAILED, lastError := Some(reason));
        }
        rows := rows[id := row.(attempts := row.attempts + spent)];
      }
      ok := true;
    }

    /**
     Records the verdicts of a claimed batch in order, up to the first update that fails, which ends the
     sweep: the rows before it carry their verdicts, all others are as they were. A full sweep counts the
     confirmed ones.
     */
    method RecordBatch(batch: seq<RowId>, verdicts: seq<Verdict>, sent: seq<bool>) returns (triggered: Option<nat>)
      requires |batch| == |verdicts| == |sent| && DistinctRows(batch)
      modifies this
      ensures var n := Reached(Outcomes(old(rows), batch, verdicts, sent));
              && triggered == (if n == |batch| then Some(|ConfirmedPositions(verdicts)|) else None)
              && RecordedUpTo(old(rows), rows, batch, verdicts, n)
    {
      var count: nat := 0;
      ghost var outcomes := Outcomes(rows, batch, verdicts, sent);
      for k := 0 to |batch|
        invariant k <= Reached(outcomes)
        invariant count == |ConfirmedPositions(verdicts[..k])|
        invariant RecordedUpTo(old(rows), rows, batch, verdicts, k)
      {
        ghost var before := rows;
        UnmarkedSoFar(old(rows), rows, batch, verdicts, k);
        var ok := Mark(batch[k], verdicts[k], sent[k]);
        assert ok == outcomes[k];
        if !ok {
          return None;
        }
        RecordOne(old(rows), before, rows, batch, verdicts, k);
        OneMore(verdicts, k);
        if verdicts[k].Confirmed? {
          count := count + 1;
        }
      }
      assert verdicts[..|batch|] == verdicts;
      triggered := Some(count);
    }
  }

  function ConfirmedPositions(verdicts: seq<Verdict>): set<nat> {
    set i: nat | i < |verdicts| && verdicts[i].Confirmed?
  }

  lemma OneMore(verdicts: seq<Verdict>, k: nat)
    requires k < |verdicts|
    ensures |ConfirmedPositions(verdicts[..k + 1])| ==
            |ConfirmedPositions(verdicts[..k])| + if verdicts[k].Confirmed? then 1 else 0
  {
    var before, now := ConfirmedPositions(verdicts[..k]), ConfirmedPositions(verdicts[..k + 1]);
    if verdicts[k].Confirmed? {
      assert now == before + {k};
    } else {
      assert now == before;
    }
  }
}
