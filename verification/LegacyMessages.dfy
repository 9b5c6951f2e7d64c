/**
 Legacy messages and their per-vault index
 (contracts/inheritance-contract/src/gas_optimization.rs). Each call reads the plans and triggers as
 they stand.
 */
module LegacyMessages {
  import opened MachineInts
  import opened ContractErrors
  import opened PlanTypes

  type MessageId = u64
  type Hash = nat

  const BATCH_MESSAGE_LIMIT: int := 10

  datatype Message = Message(
    vault: PlanId, id: MessageId, hash: Hash, creator: Address, keyReference: string,
    unlockAt: u64, isUnlocked: bool, isFinalized: bool, createdAt: u64)

  datatype Params = Params(vault: PlanId, hash: Hash, unlockAt: u64, keyReference: string)

  datatype Messages = Messages(next: MessageId, table: map<MessageId, Message>, lists: map<PlanId, seq<MessageId>>)

  const NO_MESSAGES: Messages := Messages(0, map[], map[])

  /** What a call reads besides the messages; `callerHash` is the caller's address as beneficiaries store it. */
  datatype Context = Context(
    now: u64, plans: map<PlanId, Plan>, triggers: map<PlanId, TriggerInfo>, vaultKeys: map<PlanId, string>,
    callerHash: Email)

  datatype Op =
    | CreateMessage(creator: Address, params: Params)
    | BatchCreate(creator: Address, list: seq<Params>)
    | UpdateMessage(creator: Address, id: MessageId, params: Params)
    | FinalizeMessage(creator: Address, id: MessageId)
    | DeleteMessage(creator: Address, id: MessageId)
    | AccessMessage(id: MessageId)
    | UnlockMessages(vault: PlanId)

  type MessageResult = Result<Messages, InheritanceError>

  // ---------- entry points ----------

  function ListOf(m: Messages, vault: PlanId): seq<MessageId> {
    if vault in m.lists then m.lists[vault] else []
  }

  function WithMessage(m: Messages, message: Message): Messages {
    m.(table := m.table[message.id := message])
  }

  /** A new message under the next id, at the end of its vault's list. */
  function Appended(m: Messages, c: Context, creator: Address, params: Params, key: string): Messages
    requires m.next < U64_MAX
  {
    var message := Message(params.vault, m.next, params.hash, creator, key, params.unlockAt, false, false, c.now);
    WithMessage(m, message).(lists := m.lists[params.vault := ListOf(m, params.vault) + [m.next]], next := m.next + 1)
  }

  /** An empty key reference stands for the vault's current key. */
  function ResolvedKey(c: Context, params: Params): string {
    if params.keyReference != "" then params.keyReference
    else if params.vault in c.vaultKeys then c.vaultKeys[params.vault] else ""
  }

  function CreateGuard(c: Context, creator: Address, params: Params): Guard {
    if params.vault !in c.plans then Fail(PlanNotFound)
    else if c.plans[params.vault].owner != creator then Fail(Unauthorized)
    else Need(params.unlockAt > c.now, InvalidClaimCode)
  }

  function CreateCall(m: Messages, c: Context, creator: Address, params: Params): MessageResult {
    var guard := CreateGuard(c, creator, params);
    :- guard;
    if m.next == U64_MAX then Err(Panicked) else Ok(Appended(m, c, creator, params, ResolvedKey(c, params)))
  }

  /** Messages, created ids and failures after part of a batch. */
  datatype Batch = Batch(messages: Messages, created: seq<MessageId>, fail: nat)

  function CreateEach(m: Messages, c: Context, creator: Address, list: seq<Params>, k: nat)
    : Result<Batch, InheritanceError>
    requires k <= |list|
  {
    if k == 0 then Ok(Batch(m, [], 0))
    else
      var b :- CreateEach(m, c, creator, list, k - 1);
      CreateOne(b, c, creator, list[k - 1])
  }

  /** In a batch the key reference is stored as given. */
  function CreateOne(b: Batch, c: Context, creator: Address, params: Params): Result<Batch, InheritanceError> {
    if CreateGuard(c, creator, params).Fail? then Ok(b.(fail := b.fail + 1))
    else if b.messages.next == U64_MAX then Err(Panicked)
    else Ok(Batch(Appended(b.messages, c, creator, params, params.keyReference), b.created + [b.messages.next], b.fail))
  }

  function BatchCall(m: Messages, c: Context, creator: Address, list: seq<Params>): Result<Batch, InheritanceError> {
    if |list| > BATCH_MESSAGE_LIMIT then Err(TooManyBeneficiaries) else CreateEach(m, c, creator, list, |list|)
  }

  /** The message, if the caller created it and it is not final. */
  function Editable(m: Messages, creator: Address, id: MessageId): Result<Message, InheritanceError> {
    if id !in m.table then Err(PlanNotFound)
    else if m.table[id].creator != creator then Err(Unauthorized)
    else if m.table[id].isFinalized then Err(WillAlreadyFinalized)
    else Ok(m.table[id])
  }

  function UpdateCall(m: Messages, creator: Address, id: MessageId, params: Params): MessageResult {
    var message :- Editable(m, creator, id);
    :- Need(!message.isUnlocked, AlreadyClaimed);
    var updated := message.(hash := params.hash, unlockAt := params.unlockAt, keyReference := params.keyReference);
    Ok(m.(table := m.table[id := updated]))
  }

  function FinalizeCall(m: Messages, creator: Address, id: MessageId): MessageResult {
    var message :- Editable(m, creator, id);
    Ok(m.(table := m.table[id := message.(isFinalized := true)]))
  }

  function Without(ids: seq<MessageId>, id: MessageId): seq<MessageId> {
    if ids == [] then []
    else
      var n := |ids| - 1;
      if ids[n] == id then Without(ids[..n], id) else Without(ids[..n], id) + [ids[n]]
  }

  function DeleteCall(m: Messages, creator: Address, id: MessageId): MessageResult {
    var message :- Editable(m, creator, id);
    Ok(m.(table := m.table - {id}, lists := m.lists[message.vault := Without(ListOf(m, message.vault), id)]))
  }

  predicate Inherited(c: Context, vault: PlanId) {
    vault in c.triggers && c.triggers[vault].triggeredAt > 0
  }

  predicate IsBeneficiary(plan: Plan, callerHash: Email) {
    exists i :: 0 <= i < |plan.beneficiaries| && plan.beneficiaries[i].email == callerHash
  }

  /** Access unlocks a due message, but only for a beneficiary: a refusal reverts the unlocking. */
  function AccessCall(m: Messages, c: Context, id: MessageId): MessageResult {
    if id !in m.table then Err(PlanNotFound)
    else
      var message := m.table[id];
      :- Need(message.isUnlocked || c.now >= message.unlockAt || Inherited(c, message.vault), ClaimNotAllowedYet);
      if message.vault !in c.plans then Err(PlanNotFound)
      else
        :- Need(IsBeneficiary(c.plans[message.vault], c.callerHash), Unauthorized);
        Ok(m.(table := m.table[id := message.(isUnlocked := true)]))
  }

  /** Every listed message that exists, unlocked; the rest as it was. */
  function Unlocked(table: map<MessageId, Message>, ids: seq<MessageId>): map<MessageId, Message> {
    map id | id in table :: if id in ids then table[id].(isUnlocked := true) else table[id]
  }

  function UnlockCall(m: Messages, c: Context, vault: PlanId): MessageResult {
    if !Inherited(c, vault) then Err(InheritanceNotTriggered)
    else
      Ok(m.(table := Unlocked(m.table, ListOf(m, vault))))
  }

  function Step(m: Messages, c: Context, op: Op): Messages {
    match op
    case CreateMessage(creator, params) => After(m, CreateCall(m, c, creator, params))
    case BatchCreate(creator, list) =>
      var r := BatchCall(m, c, creator, list);
      if r.Ok? then r.value.messages else m
    case UpdateMessage(creator, id, params) => After(m, UpdateCall(m, creator, id, params))
    case FinalizeMessage(creator, id) => After(m, FinalizeCall(m, creator, id))
    case DeleteMessage(creator, id) => After(m, DeleteCall(m, creator, id))
    case AccessMessage(id) => After(m, AccessCall(m, c, id))
    case UnlockMessages(vault) => After(m, UnlockCall(m, c, vault))
  }

  function After(m: Messages, r: MessageResult): Messages {
    if r.Ok? then r.value else m
  }

  type Event = (Context, Op)

  function Run(m: Messages, calls: seq<Event>): Messages {
    if calls == [] then m
    else
      var n := |calls| - 1;
      Step(Run(m, calls[..n]), calls[n].0, calls[n].1)
  }

  // ---------- the index ----------

  ghost predicate TableOk(m: Messages) {
    forall id <- m.table :: m.table[id].id == id && id < m.next
  }

  ghost function LiveCount(m: Messages, vault: PlanId, id: MessageId): nat {
    if id in m.table && m.table[id].vault == vault then 1 else 0
  }

  /** The vault's list holds exactly the ids of its live messages, each once. */
  ghost predicate ListOk(m: Messages, vault: PlanId) {
    forall id: MessageId :: multiset(ListOf(m, vault))[id] == LiveCount(m, vault, id)
  }

  ghost predicate Valid(m: Messages) {
    TableOk(m) && forall vault :: ListOk(m, vault)
  }

  lemma NoMessagesValid()
    ensures Valid(NO_MESSAGES)
  {
  }

  lemma AppendKeepsValid(m: Messages, c: Context, creator: Address, params: Params, key: string)
    requires Valid(m) && m.next < U64_MAX
    ensures Valid(Appended(m, c, creator, params, key))
  {
    var m' := Appended(m, c, creator, params, key);
    forall vault
      ensures ListOk(m', vault)
    {
      assert ListOk(m, vault);
      forall id: MessageId
        ensures multiset(ListOf(m', vault))[id] == LiveCount(m', vault, id)
      {
        assert multiset(ListOf(m, vault))[id] == LiveCount(m, vault, id);
      }
    }
  }

  lemma {:induction false} CreateEachKeepsValid(m: Messages, c: Context, creator: Address, list: seq<Params>, k: nat)
    requires Valid(m) && k <= |list|
    ensures var r := CreateEach(m, c, creator, list, k); r.Ok? ==> Valid(r.value.messages)
    decreases k
  {
    if k > 0 {
      CreateEachKeepsValid(m, c, creator, list, k - 1);
      var b := CreateEach(m, c, creator, list, k - 1);
      if b.Ok? && CreateGuard(c, creator, list[k - 1]).Pass? && b.value.messages.next < U64_MAX {
        AppendKeepsValid(b.value.messages, c, creator, list[k - 1], list[k - 1].keyReference);
      }
    }
  }

  /** A rewrite of the table that moves no message between vaults keeps the index. */
  lemma RewriteKeepsValid(m: Messages, m': Messages)
    requires Valid(m) && m'.next == m.next && m'.lists == m.lists && m'.table.Keys == m.table.Keys
    requires forall id <- m.table :: m'.table[id].id == m.table[id].id && m'.table[id].vault == m.table[id].vault
    ensures Valid(m')
  {
    forall vault
      ensures ListOk(m', vault)
    {
      assert ListOk(m, vault);
      forall id: MessageId
        ensures multiset(ListOf(m', vault))[id] == LiveCount(m', vault, id)
      {
        assert multiset(ListOf(m, vault))[id] == LiveCount(m, vault, id);
      }
    }
  }

  lemma {:induction false} WithoutCounts(ids: seq<MessageId>, id: MessageId, other: MessageId)
    ensures multiset(Without(ids, id))[other] == if other == id then 0 else multiset(ids)[other]
  {
    if ids != [] {
      var n := |ids| - 1;
      assert ids == ids[..n] + [ids[n]];
      WithoutCounts(ids[..n], id, other);
    }
  }

  lemma DeleteKeepsValid(m: Messages, creator: Address, id: MessageId)
    requires Valid(m) && DeleteCall(m, creator, id).Ok?
    ensures Valid(DeleteCall(m, creator, id).value)
  {
    var m' := DeleteCall(m, creator, id).value;
    forall vault
      ensures ListOk(m', vault)
    {
      assert ListOk(m, vault);
      forall other: MessageId
        ensures multiset(ListOf(m', vault))[other] == LiveCount(m', vault, other)
      {
        assert multiset(ListOf(m, vault))[other] == LiveCount(m, vault, other);
        WithoutCounts(ListOf(m, vault), id, other);
      }
    }
  }

  lemma StepKeepsValid(m: Messages, c: Context, op: Op)
    requires Valid(m)
    ensures Valid(Step(m, c, op))
  {
    match op {
      case CreateMessage(creator, params) =>
        if m.next < U64_MAX {
          AppendKeepsValid(m, c, creator, params, ResolvedKey(c, params));
        }
      case BatchCreate(creator, list) => CreateEachKeepsValid(m, c, creator, list, |list|);
      case DeleteMessage(creator, id) =>
        if DeleteCall(m, creator, id).Ok? {
          DeleteKeepsValid(m, creator, id);
        }
      case _ => RewriteKeepsValid(m, Step(m, c, op));
    }
  }

  /** In every run the index and the table agree, and ids are never reused. */
  lemma {:induction false} RunKeepsValid(m: Messages, calls: seq<Event>)
    requires Valid(m)
    ensures Valid(Run(m, calls)) && m.next <= Run(m, calls).next
  {
    if calls != [] {
      var n := |calls| - 1;
      var before := Run(m, calls[..n]);
      RunKeepsValid(m, calls[..n]);
      StepKeepsValid(before, calls[n].0, calls[n].1);
      if calls[n].1.BatchCreate? {
        CreateEachOnlyAdds(before, calls[n].0, calls[n].1.creator, calls[n].1.list, |calls[n].1.list|);
      }
    }
  }

  /** From deployment on: each vault's list holds the ids of its live messages, each once, all below the next id. */
  lemma ListsFromDeployment(calls: seq<Event>, vault: PlanId)
    ensures var m := Run(NO_MESSAGES, calls);
            && ListOk(m, vault)
            && forall id <- ListOf(m, vault) :: id in m.table && m.table[id].vault == vault && id < m.next
  {
    NoMessagesValid();
    RunKeepsValid(NO_MESSAGES, calls);
    var m := Run(NO_MESSAGES, calls);
    assert ListOk(m, vault);
    forall id | id in ListOf(m, vault)
      ensures id in m.table && m.table[id].vault == vault && id < m.next
    {
      assert id in multiset(ListOf(m, vault));
      assert multiset(ListOf(m, vault))[id] == LiveCount(m, vault, id);
    }
  }

  // ---------- finality and unlocking ----------

  /** A batch adds messages under fresh ids and counts every entry. */
  lemma {:induction false} CreateEachOnlyAdds(m: Messages, c: Context, creator: Address, list: seq<Params>, k: nat)
    requires TableOk(m) && k <= |list|
    ensures var r := CreateEach(m, c, creator, list, k);
            r.Ok? ==>
              && m.next <= r.value.messages.next && TableOk(r.value.messages)
              && |r.value.created| + r.value.fail == k
              && forall id <- m.table :: id in r.value.messages.table && r.value.messages.table[id] == m.table[id]
    decreases k
  {
    if k > 0 {
      CreateEachOnlyAdds(m, c, creator, list, k - 1);
    }
  }

  /** A final message stays, with its contents; only its lock can still open. */
  ghost predicate KeptFinal(m: Messages, m': Messages, id: MessageId)
    requires id in m.table
  {
    && id in m'.table
    && m'.table[id] == m.table[id].(isUnlocked := m'.table[id].isUnlocked)
    && (m.table[id].isUnlocked ==> m'.table[id].isUnlocked)
  }

  lemma StepKeepsFinal(m: Messages, c: Context, op: Op, id: MessageId)
    requires Valid(m) && id in m.table && m.table[id].isFinalized
    ensures KeptFinal(m, Step(m, c, op), id)
  {
    if op.BatchCreate? {
      CreateEachOnlyAdds(m, c, op.creator, op.list, |op.list|);
    }
  }

  /** Finalized messages are never deleted or rewritten, in any run. */
  lemma {:induction false} FinalMessagesSurvive(m: Messages, calls: seq<Event>, id: MessageId)
    requires Valid(m) && id in m.table && m.table[id].isFinalized
    ensures KeptFinal(m, Run(m, calls), id)
  {
    if calls != [] {
      var n := |calls| - 1;
      FinalMessagesSurvive(m, calls[..n], id);
      RunKeepsValid(m, calls[..n]);
      StepKeepsFinal(Run(m, calls[..n]), calls[n].0, calls[n].1, id);
    }
  }

  /** Because the index is complete, unlocking a vault's list unlocks every message of the vault. */
  lemma UnlockReachesEveryMessage(m: Messages, c: Context, vault: PlanId)
    requires Valid(m) && UnlockCall(m, c, vault).Ok?
    ensures var m' := UnlockCall(m, c, vault).value;
            && m'.table.Keys == m.table.Keys
            && forall id <- m'.table :: m'.table[id] ==
                 if m.table[id].vault == vault then m.table[id].(isUnlocked := true) else m.table[id]
  {
    assert ListOk(m, vault);
    forall id | id in m.table
      ensures id in ListOf(m, vault) <==> m.table[id].vault == vault
    {
      assert multiset(ListOf(m, vault))[id] == LiveCount(m, vault, id);
    }
  }

  // ---------- the contract object ----------

  class MessageContract {
    var next: MessageId
    var table: map<MessageId, Message>
    var lists: map<PlanId, seq<MessageId>>

    constructor ()
      ensures State() == NO_MESSAGES
    {
      next, table, lists := 0, map[], map[];
    }

    function State(): Messages
      reads this
    {
      Messages(next, table, lists)
    }

    ghost predicate Performed(before: Messages, result: MessageResult, r: Option<InheritanceError>)
      reads this
    {
      if result.Ok? then State() == result.value && r == None else State() == before && r == Some(result.error)
    }

    method Append(c: Context, creator: Address, params: Params, key: string) returns (id: MessageId)
      requires next < U64_MAX
      modifies this
      ensures id == old(next) && State() == Appended(old(State()), c, creator, params, key)
    {
      id := next;
      table := table[id := Message(params.vault, id, params.hash, creator, key, params.unlockAt, false, false, c.now)];
      var list := ListOf(State(), params.vault);
      lists := lists[params.vault := list + [id]];
      next := id + 1;
    }

    method Create(c: Context, creator: Address, params: Params) returns (r: Option<InheritanceError>)
      modifies this
      ensures Performed(old(State()), CreateCall(old(State()), c, creator, params), r)
    {
      var guard := CreateGuard(c, creator, params);
      if guard.Fail? {
        return Some(guard.error);
      }
      if next == U64_MAX {
        return Some(Panicked);
      }
      var _ := Append(c, creator, params, ResolvedKey(c, params));
      r := None;
    }

    method CreateBatch(c: Context, creator: Address, list: seq<Params>)
      returns (r: Result<(seq<MessageId>, nat), InheritanceError>)
      modifies this
      ensures var spec := BatchCall(old(State()), c, creator, list);
              if spec.Ok? then State() == spec.value.messages && r == Ok((spec.value.created, spec.value.fail))
              else State() == old(State()) && r == Err(spec.error)
    {
      if |list| > BATCH_MESSAGE_LIMIT {
        return Err(TooManyBeneficiaries);
      }
      var before := State();
      var created: seq<MessageId>, fail: nat := [], 0;
      for k := 0 to |list|
        invariant CreateEach(before, c, creator, list, k) == Ok(Batch(State(), created, fail))
      {
        assert CreateEach(before, c, creator, list, k + 1) ==
          CreateOne(Batch(State(), created, fail), c, creator, list[k]);
        var params := list[k];
        if params.vault !in c.plans || c.plans[params.vault].owner != creator || params.unlockAt <= c.now {
          fail := fail + 1;
          continue;
        }
        if next == U64_MAX {
          BatchStops(before, c, creator, list, k + 1, |list|);
          next, table, lists := before.next, before.table, before.lists;
          return Err(Panicked);
        }
        var id := Append(c, creator, params, params.keyReference);
        created := created + [id];
      }
      r := Ok((created, fail));
    }

    method Update(creator: Address, id: MessageId, params: Params) returns (r: Option<InheritanceError>)
      modifies this
      ensures Performed(old(State()), UpdateCall(old(State()), creator, id, params), r)
    {
      var found := Editable(State(), creator, id);
      if found.Err? {
        return Some(found.error);
      }
      if found.value.isUnlocked {
        return Some(AlreadyClaimed);
      }
      var message := found.value;
      message := message.(hash := params.hash);
      message := message.(unlockAt := params.unlockAt);
      message := message.(keyReference := params.keyReference);
      table := table[id := message];
      r := None;
    }

    method Finalize(creator: Address, id: MessageId) returns (r: Option<InheritanceError>)
      modifies this
      ensures Performed(old(State()), FinalizeCall(old(State()), creator, id), r)
    {
      var found := Editable(State(), creator, id);
      if found.Err? {
        return Some(found.error);
      }
      table := table[id := found.value.(isFinalized := true)];
      r := None;
    }

    method Delete(creator: Address, id: MessageId) returns (r: Option<InheritanceError>)
      modifies this
      ensures Performed(old(State()), DeleteCall(old(State()), creator, id), r)
    {
      var found := Editable(State(), creator, id);
      if found.Err? {
        return Some(found.error);
      }
      var vault := found.value.vault;
      var list := ListOf(State(), vault);
      table := table - {id};
      var updated := Filtered(list, id);
      lists := lists[vault := updated];
      r := None;
    }

    method Access(c: Context, id: MessageId) returns (r: Option<InheritanceError>)
      modifies this
      ensures Performed(old(State()), AccessCall(old(State()), c, id), r)
    {
      if id !in table {
        return Some(PlanNotFound);
      }
      var message := table[id];
      if !message.isUnlocked {
        if c.now >= message.unlockAt || Inherited(c, message.vault) {
          message := message.(isUnlocked := true);
        } else {
          return Some(ClaimNotAllowedYet);
        }
      }
      if message.vault !in c.plans {
        return Some(PlanNotFound);
      }
      var found := Lists(c.plans[message.vault], c.callerHash);
      if !found {
        return Some(Unauthorized);
      }
      table := table[id := message];
      r := None;
    }

    method UnlockOnInheritance(c: Context, vault: PlanId) returns (r: Option<InheritanceError>)
      modifies this
      ensures Performed(old(State()), UnlockCall(old(State()), c, vault), r)
    {
      if !Inherited(c, vault) {
        return Some(InheritanceNotTriggered);
      }
      var before, ids := table, ListOf(State(), vault);
      for k := 0 to |ids|
        invariant next == old(next) && lists == old(lists)
        invariant table.Keys == before.Keys
        invariant forall id <- before ::
          table[id] == if id in ids[..k] then before[id].(isUnlocked := true) else before[id]
      {
        var id := ids[k];
        assert ids[..k + 1] == ids[..k] + [id];
        if id in table && !table[id].isUnlocked {
          table := table[id := table[id].(isUnlocked := true)];
        }
      }
      assert ids[..|ids|] == ids;
      assert table == Unlocked(before, ids);
      r := None;
    }
  }

  lemma {:induction false} BatchStops(m: Messages, c: Context, creator: Address, list: seq<Params>, k: nat, n: nat)
    requires k <= n <= |list| && CreateEach(m, c, creator, list, k).Err?
    ensures CreateEach(m, c, creator, list, n) == CreateEach(m, c, creator, list, k)
    decreases n
  {
    if k < n {
      BatchStops(m, c, creator, list, k, n - 1);
    }
  }

  method Filtered(ids: seq<MessageId>, id: MessageId) returns (updated: seq<MessageId>)
    ensures updated == Without(ids, id)
  {
    updated := [];
    for k := 0 to |ids|
      invariant updated == Without(ids[..k], id)
    {
      assert ids[..k + 1][..k] == ids[..k];
      if ids[k] != id {
        updated := updated + [ids[k]];
      }
    }
    assert ids[..|ids|] == ids;
  }

  method Lists(plan: Plan, callerHash: Email) returns (found: bool)
    ensures found <==> IsBeneficiary(plan, callerHash)
  {
    for i := 0 to |plan.beneficiaries|
      invariant forall k :: 0 <= k < i ==> plan.beneficiaries[k].email != callerHash
    {
      if plan.beneficiaries[i].email == callerHash {
        return true;
      }
    }
    found := false;
  }
}
