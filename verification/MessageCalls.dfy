/**
 What each call on legacy messages does, exactly when it is accepted, and why a message can be open
 (contracts/inheritance-contract/src/gas_optimization.rs).
 */
module MessageCalls {
  import opened MachineInts
  import opened ContractErrors
  import opened PlanTypes
  import M = LegacyMessages

  predicate OwnsVault(c: M.Context, user: Address, vault: PlanId) {
    vault in c.plans && c.plans[vault].owner == user
  }

  /** The inheritance of the vault has been triggered. */
  predicate IsInherited(c: M.Context, vault: PlanId) {
    vault in c.triggers && c.triggers[vault].triggeredAt > 0
  }

  function IdsOf(m: M.Messages, vault: PlanId): seq<M.MessageId> {
    if vault in m.lists then m.lists[vault] else []
  }

  /** The vault's owner, with an opening time still to come. */
  predicate Creatable(c: M.Context, creator: Address, params: M.Params) {
    OwnsVault(c, creator, params.vault) && params.unlockAt > c.now
  }

  // ---------- creation ----------

  /** A locked, unfinished message with these contents. */
  predicate IsNew(message: M.Message, id: M.MessageId, creator: Address, params: M.Params, key: string, now: u64) {
    && message.vault == params.vault && message.id == id && message.hash == params.hash
    && message.creator == creator && message.keyReference == key && message.unlockAt == params.unlockAt
    && !message.isUnlocked && !message.isFinalized && message.createdAt == now
  }

  /** The key given, or else the vault's own. */
  predicate IsKey(c: M.Context, params: M.Params, key: string) {
    if params.keyReference != "" then key == params.keyReference
    else if params.vault in c.vaultKeys then key == c.vaultKeys[params.vault]
    else key == ""
  }

  ghost predicate OneMore(m: M.Messages, m': M.Messages, vault: PlanId) {
    && m.next < U64_MAX && m.next in m'.table
    && m' == m.(next := m.next + 1, table := m.table[m.next := m'.table[m.next]],
                lists := m.lists[vault := IdsOf(m, vault) + [m.next]])
  }

  lemma CreationEffect(m: M.Messages, c: M.Context, creator: Address, params: M.Params)
    ensures var r := M.CreateCall(m, c, creator, params);
            && (r.Ok? <==> Creatable(c, creator, params) && m.next < U64_MAX)
            && (r.Ok? ==>
                  && OneMore(m, r.value, params.vault)
                  && var message := r.value.table[m.next];
                     IsKey(c, params, message.keyReference)
                     && IsNew(message, m.next, creator, params, message.keyReference, c.now))
            && (params.vault in c.plans && !OwnsVault(c, creator, params.vault) ==> r == Err(Unauthorized))
  {
  }

  /** How many of the first `k` entries of a batch can become messages. */
  function CreatableBefore(c: M.Context, creator: Address, list: seq<M.Params>, k: nat): nat
    requires k <= |list|
  {
    if k == 0 then 0
    else CreatableBefore(c, creator, list, k - 1) + if Creatable(c, creator, list[k - 1]) then 1 else 0
  }

  lemma {:induction false} FewerBefore(c: M.Context, creator: Address, list: seq<M.Params>, i: nat, k: nat)
    requires i < k <= |list| && Creatable(c, creator, list[i])
    ensures CreatableBefore(c, creator, list, i) < CreatableBefore(c, creator, list, k)
    decreases k
  {
    if i < k - 1 {
      FewerBefore(c, creator, list, i, k - 1);
    }
  }

  /** Where entry `i` of a batch that starts at `next` is stored. */
  function Slot(next: nat, c: M.Context, creator: Address, list: seq<M.Params>, i: nat): nat
    requires i < |list|
  {
    next + CreatableBefore(c, creator, list, i)
  }

  /** Each creatable entry has become a message of its own, with its key as given; nothing else has changed. */
  ghost predicate BatchStored(m: M.Messages, b: M.Batch, c: M.Context, creator: Address, list: seq<M.Params>, k: nat)
    requires k <= |list|
  {
    var n := CreatableBefore(c, creator, list, k);
    && b.messages.next == m.next + n
    && b.created == seq(n, j requires 0 <= j < n => m.next + j)
    && b.fail == k - n
    && (forall id <- m.table :: id < m.next ==> id in b.messages.table && b.messages.table[id] == m.table[id])
    && forall i :: 0 <= i < k && Creatable(c, creator, list[i]) ==> EntryStored(m, b, c, creator, list, i)
  }

  ghost predicate EntryStored(m: M.Messages, b: M.Batch, c: M.Context, creator: Address, list: seq<M.Params>, i: nat)
    requires i < |list|
  {
    var id := Slot(m.next, c, creator, list, i);
    && id <= U64_MAX && id in b.messages.table
    && IsNew(b.messages.table[id], id, creator, list[i], list[i].keyReference, c.now)
  }

  lemma FailIsCounted(c: M.Context, creator: Address, list: seq<M.Params>, k: nat)
    requires k <= |list|
    ensures CreatableBefore(c, creator, list, k) <= k
  {
    if k > 0 {
      FailIsCounted(c, creator, list, k - 1);
    }
  }

  lemma OneOfBatch(b: M.Batch, c: M.Context, creator: Address, params: M.Params)
    ensures var r := M.CreateOne(b, c, creator, params);
            if !Creatable(c, creator, params) then r == Ok(b.(fail := b.fail + 1))
            else if b.messages.next == U64_MAX then r == Err(Panicked)
            else && r.Ok? && OneMore(b.messages, r.value.messages, params.vault)
                 && r.value == M.Batch(r.value.messages, b.created + [b.messages.next], b.fail)
                 && IsNew(r.value.messages.table[b.messages.next], b.messages.next, creator, params,
                          params.keyReference, c.now)
  {
  }

  lemma OldEntryStays(m: M.Messages, b: M.Batch, b': M.Batch, c: M.Context, creator: Address, list: seq<M.Params>,
                      k: nat, i: nat)
    requires i < k - 1 && k <= |list| && BatchStored(m, b, c, creator, list, k - 1) && Creatable(c, creator, list[i])
    requires forall id <- b.messages.table :: id < b.messages.next ==>
               id in b'.messages.table && b'.messages.table[id] == b.messages.table[id]
    ensures EntryStored(m, b', c, creator, list, i)
  {
    FewerBefore(c, creator, list, i, k - 1);
    assert EntryStored(m, b, c, creator, list, i);
  }

  lemma BatchGrows(m: M.Messages, b: M.Batch, b': M.Batch, c: M.Context, creator: Address, list: seq<M.Params>, k: nat)
    requires 0 < k <= |list| && BatchStored(m, b, c, creator, list, k - 1)
    requires M.CreateOne(b, c, creator, list[k - 1]) == Ok(b')
    ensures BatchStored(m, b', c, creator, list, k)
  {
    OneOfBatch(b, c, creator, list[k - 1]);
    FailIsCounted(c, creator, list, k);
    forall i | 0 <= i < k && Creatable(c, creator, list[i])
      ensures EntryStored(m, b', c, creator, list, i)
    {
      if i < k - 1 {
        OldEntryStays(m, b, b', c, creator, list, k, i);
      }
    }
  }

  /** A batch stores its creatable entries in order under consecutive ids, and counts the others as failures. */
  lemma {:induction false} BatchCreationEffect(m: M.Messages, c: M.Context, creator: Address, list: seq<M.Params>,
                                               k: nat)
    requires k <= |list|
    ensures var r := M.CreateEach(m, c, creator, list, k); r.Ok? ==> BatchStored(m, r.value, c, creator, list, k)
    decreases k
  {
    if k > 0 {
      BatchCreationEffect(m, c, creator, list, k - 1);
      var b := M.CreateEach(m, c, creator, list, k - 1);
      if b.Ok? && M.CreateOne(b.value, c, creator, list[k - 1]).Ok? {
        BatchGrows(m, b.value, M.CreateOne(b.value, c, creator, list[k - 1]).value, c, creator, list, k);
      }
    }
  }

  lemma {:induction false} BatchFitsIff(m: M.Messages, c: M.Context, creator: Address, list: seq<M.Params>, k: nat)
    requires k <= |list|
    ensures M.CreateEach(m, c, creator, list, k).Ok? <==> m.next + CreatableBefore(c, creator, list, k) <= U64_MAX
    decreases k
  {
    if k > 0 {
      BatchFitsIff(m, c, creator, list, k - 1);
      BatchCreationEffect(m, c, creator, list, k - 1);
      var b := M.CreateEach(m, c, creator, list, k - 1);
      if b.Ok? {
        OneOfBatch(b.value, c, creator, list[k - 1]);
      }
    }
  }

  /** A batch of at most ten is accepted as long as there are ids for its creatable entries. */
  lemma BatchAcceptedIff(m: M.Messages, c: M.Context, creator: Address, list: seq<M.Params>)
    ensures M.BatchCall(m, c, creator, list).Ok? <==>
            |list| <= 10 && m.next + CreatableBefore(c, creator, list, |list|) <= U64_MAX
  {
    BatchFitsIff(m, c, creator, list, |list|);
  }

  // ---------- the creator's own message ----------

  /** The caller created the message and it is not final. */
  predicate MayEdit(m: M.Messages, creator: Address, id: M.MessageId) {
    id in m.table && m.table[id].creator == creator && !m.table[id].isFinalized
  }

  lemma UpdateEffect(m: M.Messages, creator: Address, id: M.MessageId, params: M.Params)
    ensures var r := M.UpdateCall(m, creator, id, params);
            && (r.Ok? <==> MayEdit(m, creator, id) && !m.table[id].isUnlocked)
            && (r.Ok? ==>
                  r.value == m.(table := m.table[id := m.table[id].(hash := params.hash, unlockAt := params.unlockAt,
                                                                   keyReference := params.keyReference)]))
            && (id in m.table && m.table[id].creator != creator ==> r == Err(Unauthorized))
  {
  }

  lemma FinalizationEffect(m: M.Messages, creator: Address, id: M.MessageId)
    ensures var r := M.FinalizeCall(m, creator, id);
            && (r.Ok? <==> MayEdit(m, creator, id))
            && (r.Ok? ==> r.value == m.(table := m.table[id := m.table[id].(isFinalized := true)]))
            && (id in m.table && m.table[id].creator != creator ==> r == Err(Unauthorized))
  {
  }

  /** The id is taken out where it stood, and the others stay in order. */
  ghost predicate Dropped(before: seq<M.MessageId>, after: seq<M.MessageId>, id: M.MessageId) {
    exists p :: 0 <= p < |before| && before[p] == id && after == before[..p] + before[p + 1..]
  }

  lemma {:induction false} NoneToDrop(ids: seq<M.MessageId>, id: M.MessageId)
    requires id !in ids
    ensures M.Without(ids, id) == ids
  {
    if ids != [] {
      var n := |ids| - 1;
      assert ids == ids[..n] + [ids[n]];
      NoneToDrop(ids[..n], id);
    }
  }

  lemma {:induction false} DropsAt(ids: seq<M.MessageId>, id: M.MessageId, p: nat)
    requires p < |ids| && ids[p] == id && forall k :: 0 <= k < |ids| && k != p ==> ids[k] != id
    ensures M.Without(ids, id) == ids[..p] + ids[p + 1..]
    decreases |ids|
  {
    var n := |ids| - 1;
    if p == n {
      NoneToDrop(ids[..n], id);
      assert ids[p + 1..] == [];
    } else {
      DropsAt(ids[..n], id, p);
      assert ids[..n][p + 1..] + [ids[n]] == ids[p + 1..];
      assert ids[..n][..p] == ids[..p];
    }
  }

  /** An id that a list holds once stands at one place. */
  lemma StandsOnce(ids: seq<M.MessageId>, id: M.MessageId) returns (p: nat)
    requires multiset(ids)[id] == 1
    ensures p < |ids| && ids[p] == id && forall k :: 0 <= k < |ids| && k != p ==> ids[k] != id
  {
    assert id in multiset(ids);
    p :| p < |ids| && ids[p] == id;
    assert ids == ids[..p] + [id] + ids[p + 1..];
    assert multiset(ids[..p])[id] == 0 && multiset(ids[p + 1..])[id] == 0;
    assert id !in ids[..p] && id !in ids[p + 1..];
    forall k | 0 <= k < |ids| && k != p
      ensures ids[k] != id
    {
      assert ids[k] == if k < p then ids[..p][k] else ids[p + 1..][k - p - 1];
    }
  }

  lemma ListDrops(m: M.Messages, id: M.MessageId)
    requires M.Valid(m) && id in m.table
    ensures var ids := IdsOf(m, m.table[id].vault); Dropped(ids, M.Without(ids, id), id)
  {
    var vault := m.table[id].vault;
    var ids := IdsOf(m, vault);
    assert M.ListOk(m, vault);
    assert multiset(M.ListOf(m, vault))[id] == M.LiveCount(m, vault, id);
    var p := StandsOnce(ids, id);
    DropsAt(ids, id, p);
  }

  lemma DeletionEffect(m: M.Messages, creator: Address, id: M.MessageId)
    requires M.Valid(m)
    ensures var r := M.DeleteCall(m, creator, id);
            && (r.Ok? <==> MayEdit(m, creator, id))
            && (r.Ok? ==>
                  && r.value == m.(table := m.table - {id}, lists := r.value.lists)
                  && Dropped(IdsOf(m, m.table[id].vault), IdsOf(r.value, m.table[id].vault), id)
                  && forall vault :: vault != m.table[id].vault ==> IdsOf(r.value, vault) == IdsOf(m, vault))
            && (id in m.table && m.table[id].creator != creator ==> r == Err(Unauthorized))
  {
    if id in m.table {
      ListDrops(m, id);
    }
  }

  // ---------- reading ----------

  /** The message is open already, its time has come, or the vault is inherited. */
  predicate IsDue(c: M.Context, message: M.Message) {
    message.isUnlocked || c.now >= message.unlockAt || IsInherited(c, message.vault)
  }

  predicate IsHeir(c: M.Context, vault: PlanId) {
    vault in c.plans && exists i :: 0 <= i < |c.plans[vault].beneficiaries|
                                    && c.plans[vault].beneficiaries[i].email == c.callerHash
  }

  /** Only heirs read, and only what is due; reading opens it. */
  lemma AccessEffect(m: M.Messages, c: M.Context, id: M.MessageId)
    ensures var r := M.AccessCall(m, c, id);
            && (r.Ok? <==> id in m.table && IsDue(c, m.table[id]) && IsHeir(c, m.table[id].vault))
            && (r.Ok? ==> r.value == m.(table := m.table[id := m.table[id].(isUnlocked := true)]))
            && (id in m.table && !IsDue(c, m.table[id]) ==> r == Err(ClaimNotAllowedYet))
  {
  }

  /** Inheritance opens what the vault's list names, and nothing else. */
  lemma UnlockEffect(m: M.Messages, c: M.Context, vault: PlanId)
    ensures var r := M.UnlockCall(m, c, vault);
            && (r.Ok? <==> IsInherited(c, vault))
            && (r.Ok? ==>
                  && r.value == m.(table := r.value.table) && r.value.table.Keys == m.table.Keys
                  && forall id <- m.table ::
                       r.value.table[id] == if id in IdsOf(m, vault) then m.table[id].(isUnlocked := true)
                                            else m.table[id])
  {
  }

  // ---------- why a message is open ----------

  /** The call opens the message: an heir read it when it was due, or its vault's inheritance opened everything. */
  predicate Opens(m: M.Messages, c: M.Context, op: M.Op, id: M.MessageId)
    requires id in m.table
  {
    || (op == M.AccessMessage(id) && IsDue(c, m.table[id]) && IsHeir(c, m.table[id].vault))
    || (op == M.UnlockMessages(m.table[id].vault) && IsInherited(c, m.table[id].vault))
  }

  lemma ListedIsOwn(m: M.Messages, vault: PlanId, id: M.MessageId)
    requires M.Valid(m) && id in IdsOf(m, vault)
    ensures id in m.table && m.table[id].vault == vault
  {
    assert M.ListOk(m, vault);
    assert id in multiset(M.ListOf(m, vault));
    assert multiset(M.ListOf(m, vault))[id] == M.LiveCount(m, vault, id);
  }

  predicate IsOpen(m: M.Messages, id: M.MessageId) {
    id in m.table && m.table[id].isUnlocked
  }

  lemma BatchOpensNothing(m: M.Messages, c: M.Context, op: M.Op, id: M.MessageId)
    requires M.Valid(m) && op.BatchCreate? && !IsOpen(m, id)
    ensures !IsOpen(M.Step(m, c, op), id)
  {
    LockedBatch(m, c, op.creator, op.list, |op.list|, id);
  }

  lemma {:induction false} LockedBatch(m: M.Messages, c: M.Context, creator: Address, list: seq<M.Params>, k: nat,
                                       id: M.MessageId)
    requires k <= |list| && !IsOpen(m, id)
    ensures var r := M.CreateEach(m, c, creator, list, k); r.Ok? ==> !IsOpen(r.value.messages, id)
    decreases k
  {
    if k > 0 {
      LockedBatch(m, c, creator, list, k - 1, id);
    }
  }

  lemma NewlyOpen(m: M.Messages, c: M.Context, op: M.Op, id: M.MessageId)
    requires M.Valid(m) && !IsOpen(m, id) && IsOpen(M.Step(m, c, op), id)
    ensures id in m.table && Opens(m, c, op, id)
  {
    if op.BatchCreate? {
      BatchOpensNothing(m, c, op, id);
    } else if op.AccessMessage? {
      AccessEffect(m, c, op.id);
    } else if op.UnlockMessages? {
      UnlockEffect(m, c, op.vault);
      ListedIsOwn(m, op.vault, id);
    }
  }

  /** From deployment, in every run: a message is open only because some call of the run opened it when it was due. */
  lemma {:induction false} OpenMessagesWereDue(calls: seq<M.Event>, id: M.MessageId) returns (i: nat)
    requires IsOpen(M.Run(M.NO_MESSAGES, calls), id)
    ensures i < |calls| && id in M.Run(M.NO_MESSAGES, calls[..i]).table
    ensures Opens(M.Run(M.NO_MESSAGES, calls[..i]), calls[i].0, calls[i].1, id)
  {
    var n := |calls| - 1;
    var before := M.Run(M.NO_MESSAGES, calls[..n]);
    M.NoMessagesValid();
    M.RunKeepsValid(M.NO_MESSAGES, calls[..n]);
    if IsOpen(before, id) {
      i := OpenMessagesWereDue(calls[..n], id);
      assert calls[..n][..i] == calls[..i];
    } else {
      i := n;
      NewlyOpen(before, calls[n].0, calls[n].1, id);
    }
  }
}
