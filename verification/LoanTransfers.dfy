/**
 What each call on the loan NFT does to the ledger, exactly when it goes through, and whose consent every change of
 owner rests on (contracts/loan-nft/src/lib.rs).
 */
module LoanTransfers {
  import opened MachineInts
  import opened LoanNft

  // ---------- transfers ----------

  /** The loan is `from`'s, nothing restricts it, and the receiver's counter has room. */
  predicate Movable(l: Ledger, from: Address, to: Address, id: LoanId) {
    && id in l.owners && l.owners[id] == from
    && (id in l.transferable ==> l.transferable[id])
    && (from == to || BalanceOf(l, to) < U64_MAX)
  }

  /** The owner, an operator of the owner, or whoever holds an approval of this loan that has not expired. */
  predicate MaySpend(l: Ledger, c: Context, spender: Address, from: Address, id: LoanId) {
    || spender == from
    || ((from, spender) in l.operators && l.operators[(from, spender)])
    || (id in l.approved && l.approved[id].operator == spender && c.now < l.approved[id].expiresAt)
  }

  /** The loan has arrived: its owner is `to`, its approval is gone, and two counters moved by one. */
  ghost predicate Arrived(l: Ledger, l': Ledger, from: Address, to: Address, id: LoanId) {
    && l' == l.(owners := l.owners[id := to], approved := l.approved - {id}, balances := l'.balances)
    && forall a ::
         BalanceOf(l', a) + (if a == from then 1 else 0) == BalanceOf(l, a) + if a == to then 1 else 0
  }

  lemma MovedArrives(l: Ledger, from: Address, to: Address, id: LoanId)
    requires Valid(l) && id in l.owners && l.owners[id] == from
    ensures Moved(l, from, to, id).Some? <==> from == to || BalanceOf(l, to) < U64_MAX
    ensures Moved(l, from, to, id).Some? ==> Arrived(l, Moved(l, from, to, id).value, from, to, id)
  {
    NothingClips(l, id);
  }

  /** A transfer goes through exactly for the signing owner of an unrestricted loan, and then the loan arrives. */
  lemma TransferEffect(l: Ledger, c: Context, from: Address, to: Address, id: LoanId)
    requires Valid(l)
    ensures TransferCall(l, c, from, to, id).Some? <==> from in c.signers && Movable(l, from, to, id)
    ensures TransferCall(l, c, from, to, id).Some? ==> Arrived(l, TransferCall(l, c, from, to, id).value, from, to, id)
  {
    if id in l.owners && l.owners[id] == from {
      MovedArrives(l, from, to, id);
    }
  }

  /** The same on behalf of the owner, for a signing spender that may spend the loan. */
  lemma TransferFromEffect(l: Ledger, c: Context, spender: Address, from: Address, to: Address, id: LoanId)
    requires Valid(l)
    ensures TransferFromCall(l, c, spender, from, to, id).Some? <==>
            spender in c.signers && Movable(l, from, to, id) && MaySpend(l, c, spender, from, id)
    ensures TransferFromCall(l, c, spender, from, to, id).Some? ==>
              Arrived(l, TransferFromCall(l, c, spender, from, to, id).value, from, to, id)
  {
    if id in l.owners && l.owners[id] == from {
      MovedArrives(l, from, to, id);
    }
  }

  // ---------- mint and burn ----------

  predicate SignedByAdmin(l: Ledger, c: Context) {
    exists a :: l.admin == Some(a) && a in c.signers
  }

  /** A new loan of `to`, restricted and with its metadata locked. */
  ghost predicate Minted(l: Ledger, l': Ledger, to: Address, data: Metadata) {
    var id := data.loanId;
    && l.supply < U64_MAX
    && l' == l.(owners := l.owners[id := to], metadata := l.metadata[id := data],
                transferable := l.transferable[id := false], locked := l.locked[id := true],
                supply := l.supply + 1, balances := l'.balances)
    && forall a :: BalanceOf(l', a) == BalanceOf(l, a) + if a == to then 1 else 0
  }

  lemma MintEffect(l: Ledger, c: Context, to: Address, data: Metadata)
    ensures MintCall(l, c, to, data).Some? <==>
            && SignedByAdmin(l, c) && data.loanId !in l.metadata
            && l.supply < U64_MAX && BalanceOf(l, to) < U64_MAX
    ensures MintCall(l, c, to, data).Some? ==> Minted(l, MintCall(l, c, to, data).value, to, data)
  {
  }

  /** No trace of the loan is left, and its owner and the supply count one less. */
  ghost predicate Burnt(l: Ledger, l': Ledger, id: LoanId)
    requires id in l.owners
  {
    && l'.owners == l.owners - {id} && l'.metadata == l.metadata - {id} && l'.approved == l.approved - {id}
    && l'.tokenUris == l.tokenUris - {id} && l'.transferable == l.transferable - {id}
    && l'.locked == l.locked - {id}
    && l'.admin == l.admin && l'.operators == l.operators && l'.supply + 1 == l.supply
    && forall a :: BalanceOf(l', a) + (if a == l.owners[id] then 1 else 0) == BalanceOf(l, a)
  }

  lemma BurnEffect(l: Ledger, c: Context, id: LoanId)
    requires Valid(l)
    ensures BurnCall(l, c, id).Some? <==> SignedByAdmin(l, c) && id in l.owners
    ensures BurnCall(l, c, id).Some? ==> Burnt(l, BurnCall(l, c, id).value, id)
  {
    if id in l.owners {
      NothingClips(l, id);
    }
  }

  // ---------- approvals and settings ----------

  /** The earlier of a week from now and the end of the clock. */
  predicate WeekFrom(now: u64, expiresAt: u64) {
    expiresAt == now + 604_800 || (expiresAt == U64_MAX && now + 604_800 > U64_MAX)
  }

  /** The owner, or an operator of the owner, approves somebody else for a week. */
  lemma ApproveEffect(l: Ledger, c: Context, caller: Address, operator: Address, id: LoanId)
    ensures var r := ApproveCall(l, c, caller, operator, id);
            && (r.Some? <==>
                && caller in c.signers && id in l.owners && operator != l.owners[id]
                && (caller == l.owners[id]
                    || ((l.owners[id], caller) in l.operators && l.operators[(l.owners[id], caller)])))
            && (r.Some? ==>
                  && id in r.value.approved
                  && r.value == l.(approved := l.approved[id := r.value.approved[id]])
                  && r.value.approved[id].operator == operator && WeekFrom(c.now, r.value.approved[id].expiresAt))
  {
  }

  /** Only one's own operators, never oneself. */
  lemma OperatorEffect(l: Ledger, c: Context, caller: Address, operator: Address, granted: bool)
    ensures var r := SetApprovalForAllCall(l, c, caller, operator, granted);
            && (r.Some? <==> caller in c.signers && caller != operator)
            && (r.Some? ==> r.value == l.(operators := l.operators[(caller, operator) := granted]))
  {
  }

  /** The admin's switches for an existing loan. */
  lemma AdminEffect(l: Ledger, c: Context, id: LoanId, allowed: bool, uri: string)
    ensures var r := Invoke(l, c, SetTransferable(id, allowed));
            && (r.Some? <==> SignedByAdmin(l, c) && id in l.metadata)
            && (r.Some? ==> r.value == l.(transferable := l.transferable[id := allowed]))
    ensures var r := Invoke(l, c, SetTokenUri(id, uri));
            && (r.Some? <==> SignedByAdmin(l, c) && id in l.metadata)
            && (r.Some? ==> r.value == l.(tokenUris := l.tokenUris[id := uri]))
  {
  }

  /** The admin is set once and for all, by the first initialization and by no other call. */
  lemma AdminIsFinal(l: Ledger, c: Context, op: Op)
    ensures op.Initialize? ==>
              Invoke(l, c, op) == if l.admin.Some? then None else Some(l.(admin := Some(op.admin), supply := 0))
    ensures Step(l, c, op).admin != l.admin ==> l.admin.None? && op.Initialize?
  {
  }

  // ---------- consent ----------

  /** The call moves the loan away from its owner, with the signature of somebody who may spend it. */
  predicate ConsentedMove(l: Ledger, c: Context, op: Op, id: LoanId)
    requires id in l.owners
  {
    || (op.Transfer? && op.id == id && op.from == l.owners[id] && op.from in c.signers)
    || (op.TransferFrom? && op.id == id && op.from == l.owners[id] && op.spender in c.signers
        && MaySpend(l, c, op.spender, op.from, id))
  }

  lemma MoveTransfersConsented(l: Ledger, c: Context, op: Op, id: LoanId)
    requires Valid(l) && id in l.owners && (op.Transfer? || op.TransferFrom?)
    ensures var l' := Step(l, c, op); id in l'.owners && (l'.owners[id] != l.owners[id] ==> ConsentedMove(l, c, op, id))
  {
    if op.Transfer? {
      TransferEffect(l, c, op.from, op.to, op.id);
    } else {
      TransferFromEffect(l, c, op.spender, op.from, op.to, op.id);
    }
  }

  /** One call: a loan stays with its owner, moves with consent, or is burnt by the admin. */
  lemma OwnersChangeByConsent(l: Ledger, c: Context, op: Op, id: LoanId)
    requires Valid(l) && id in l.owners
    ensures var l' := Step(l, c, op);
            && (id !in l'.owners ==> op == Burn(id) && SignedByAdmin(l, c))
            && (id in l'.owners && l'.owners[id] != l.owners[id] ==> ConsentedMove(l, c, op, id))
  {
    if op.Transfer? || op.TransferFrom? {
      MoveTransfersConsented(l, c, op, id);
    } else if op.Burn? {
      BurnEffect(l, c, op.id);
    } else if op.Mint? {
      MintEffect(l, c, op.to, op.data);
    }
  }

  /** Call `i` of the run took the loan from its owner of that time: by consent, or by the admin's burn. */
  ghost predicate Left(l: Ledger, calls: seq<Event>, i: nat, id: LoanId, owner: Address)
    requires i < |calls|
  {
    var before := Run(l, calls[..i]);
    && id in before.owners && before.owners[id] == owner && Accepted(l, calls, i)
    && (|| ConsentedMove(before, calls[i].0, calls[i].1, id)
        || (calls[i].1 == Burn(id) && SignedByAdmin(before, calls[i].0)))
  }

  /** Over every run: whoever no longer owns a loan let it go, or lost it to a burn, in some call of the run. */
  lemma {:induction false} LossIsConsented(l: Ledger, calls: seq<Event>, id: LoanId) returns (i: nat)
    requires Valid(l) && id in l.owners
    requires id in Run(l, calls).owners ==> Run(l, calls).owners[id] != l.owners[id]
    ensures i < |calls| && Left(l, calls, i, id, l.owners[id])
  {
    var n := |calls| - 1;
    var before := Run(l, calls[..n]);
    RunKeepsValid(l, calls[..n]);
    if id in before.owners && before.owners[id] == l.owners[id] {
      i := n;
      OwnersChangeByConsent(before, calls[n].0, calls[n].1, id);
    } else {
      i := LossIsConsented(l, calls[..n], id);
      assert calls[..n][..i] == calls[..i];
    }
  }

  // ---------- where operators and approvals come from ----------

  predicate IsGrant(c: Context, op: Op, owner: Address, operator: Address) {
    op == SetApprovalForAll(owner, operator, true) && owner in c.signers
  }

  lemma NewOperator(l: Ledger, c: Context, op: Op, owner: Address, operator: Address)
    requires !IsOperator(l, owner, operator) && IsOperator(Step(l, c, op), owner, operator)
    ensures Invoke(l, c, op).Some? && IsGrant(c, op, owner, operator)
  {
    if op.SetApprovalForAll? {
      OperatorEffect(l, c, op.caller, op.operator, op.granted);
    }
  }

  /** Over every run: a new operator was granted by an accepted call that the owner signed. */
  lemma {:induction false} OperatorsAreGranted(l: Ledger, calls: seq<Event>, owner: Address, operator: Address)
    returns (i: nat)
    requires !IsOperator(l, owner, operator) && IsOperator(Run(l, calls), owner, operator)
    ensures i < |calls| && Accepted(l, calls, i) && IsGrant(calls[i].0, calls[i].1, owner, operator)
  {
    var n := |calls| - 1;
    var before := Run(l, calls[..n]);
    if IsOperator(before, owner, operator) {
      i := OperatorsAreGranted(l, calls[..n], owner, operator);
      assert calls[..n][..i] == calls[..i];
    } else {
      i := n;
      NewOperator(before, calls[n].0, calls[n].1, owner, operator);
    }
  }

  /** The call approves just this, for this loan, by its owner's or the owner's operator's signature. */
  predicate IsApproval(l: Ledger, c: Context, op: Op, id: LoanId, approval: Approval) {
    && op.Approve? && op.id == id && op.operator == approval.operator && op.caller in c.signers
    && id in l.owners && (op.caller == l.owners[id] || IsOperator(l, l.owners[id], op.caller))
    && WeekFrom(c.now, approval.expiresAt)
  }

  lemma NewApproval(l: Ledger, c: Context, op: Op, id: LoanId)
    requires id in Step(l, c, op).approved
    requires id in l.approved ==> l.approved[id] != Step(l, c, op).approved[id]
    ensures Invoke(l, c, op).Some? && IsApproval(l, c, op, id, Step(l, c, op).approved[id])
  {
    if op.Approve? {
      ApproveEffect(l, c, op.caller, op.operator, op.id);
    }
  }

  /** Over every run from deployment: each approval on record was given so, and by whom it could be. */
  lemma {:induction false} ApprovalsAreGiven(calls: seq<Event>, id: LoanId) returns (i: nat)
    requires id in Run(EMPTY_LEDGER, calls).approved
    ensures i < |calls| && Accepted(EMPTY_LEDGER, calls, i)
    ensures IsApproval(Run(EMPTY_LEDGER, calls[..i]), calls[i].0, calls[i].1, id, Run(EMPTY_LEDGER, calls).approved[id])
  {
    var n := |calls| - 1;
    var before, after := Run(EMPTY_LEDGER, calls[..n]), Run(EMPTY_LEDGER, calls);
    if id in before.approved && before.approved[id] == after.approved[id] {
      i := ApprovalsAreGiven(calls[..n], id);
      assert calls[..n][..i] == calls[..i];
    } else {
      i := n;
      NewApproval(before, calls[n].0, calls[n].1, id);
    }
  }
}
