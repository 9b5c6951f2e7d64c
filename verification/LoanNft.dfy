/** The loan NFT ledger (contracts/loan-nft/src/lib.rs). */
module LoanNft {
  import opened MachineInts

  type Address = nat
  type LoanId = u64

  const APPROVAL_SECONDS: int := 604_800

  datatype Metadata = Metadata(
    loanId: LoanId, borrower: Address, principal: u64, collateralAmount: u64, collateralToken: Address,
    dueDate: u64, ltvRatioBps: u32, planId: u64, uri: string)

  datatype Approval = Approval(operator: Address, expiresAt: u64)

  datatype Ledger = Ledger(
    admin: Option<Address>,
    metadata: map<LoanId, Metadata>,
    owners: map<LoanId, Address>,
    approved: map<LoanId, Approval>,
    operators: map<(Address, Address), bool>,
    balances: map<Address, u64>,
    supply: u64,
    tokenUris: map<LoanId, string>,
    transferable: map<LoanId, bool>,
    locked: map<LoanId, bool>)

  const EMPTY_LEDGER: Ledger := Ledger(None, map[], map[], map[], map[], map[], 0, map[], map[], map[])

  /** The clock of a call and the accounts that signed it. */
  datatype Context = Context(now: u64, signers: set<Address>)

  datatype Op =
    | Initialize(admin: Address)
    | Mint(to: Address, data: Metadata)
    | Burn(id: LoanId)
    | Transfer(from: Address, to: Address, id: LoanId)
    | TransferFrom(spender: Address, from: Address, to: Address, id: LoanId)
    | Approve(caller: Address, operator: Address, id: LoanId)
    | SetApprovalForAll(caller: Address, operator: Address, granted: bool)
    | SetTokenUri(id: LoanId, uri: string)
    | SetTransferable(id: LoanId, allowed: bool)

  // ---------- entry points; None is a panic, which reverts ----------

  predicate AdminSigned(l: Ledger, c: Context) {
    l.admin.Some? && l.admin.value in c.signers
  }

  function BalanceOf(l: Ledger, a: Address): u64 {
    if a in l.balances then l.balances[a] else 0
  }

  predicate MayMove(l: Ledger, id: LoanId) {
    id in l.transferable ==> l.transferable[id]
  }

  predicate IsOperator(l: Ledger, owner: Address, operator: Address) {
    (owner, operator) in l.operators && l.operators[(owner, operator)]
  }

  predicate IsApproved(l: Ledger, c: Context, spender: Address, id: LoanId) {
    id in l.approved && l.approved[id].operator == spender && c.now < l.approved[id].expiresAt
  }

  function WithLoan(l: Ledger, to: Address, data: Metadata): Ledger {
    var id := data.loanId;
    l.(metadata := l.metadata[id := data],
       owners := l.owners[id := to],
       transferable := l.transferable[id := false],
       locked := l.locked[id := true])
  }

  function MintCall(l: Ledger, c: Context, to: Address, data: Metadata): Option<Ledger> {
    var id := data.loanId;
    if !AdminSigned(l, c) || id in l.metadata || l.supply == U64_MAX || BalanceOf(l, to) == U64_MAX then None
    else Some(WithLoan(l, to, data).(supply := l.supply + 1, balances := l.balances[to := BalanceOf(l, to) + 1]))
  }

  function WithoutLoan(l: Ledger, id: LoanId): Ledger {
    l.(metadata := l.metadata - {id},
       owners := l.owners - {id},
       approved := l.approved - {id},
       tokenUris := l.tokenUris - {id},
       transferable := l.transferable - {id},
       locked := l.locked - {id})
  }

  function BurnCall(l: Ledger, c: Context, id: LoanId): Option<Ledger> {
    if !AdminSigned(l, c) || id !in l.owners then None
    else
      var owner := l.owners[id];
      Some(WithoutLoan(l, id).(supply := SaturatingSub(l.supply, 1),
                               balances := l.balances[owner := SaturatingSub(BalanceOf(l, owner), 1)]))
  }

  function Moved(l: Ledger, from: Address, to: Address, id: LoanId): Option<Ledger> {
    var debited := l.balances[from := SaturatingSub(BalanceOf(l, from), 1)];
    var toBalance := if to in debited then debited[to] else 0;
    if toBalance == U64_MAX then None
    else Some(l.(owners := l.owners[id := to], approved := l.approved - {id}, balances := debited[to := toBalance + 1]))
  }

  function TransferCall(l: Ledger, c: Context, from: Address, to: Address, id: LoanId): Option<Ledger> {
    if from !in c.signers || !MayMove(l, id) || id !in l.owners || l.owners[id] != from then None
    else Moved(l, from, to, id)
  }

  function TransferFromCall(l: Ledger, c: Context, spender: Address, from: Address, to: Address,
                            id: LoanId): Option<Ledger> {
    if spender !in c.signers || !MayMove(l, id) || id !in l.owners || l.owners[id] != from then None
    else if spender != from && !IsOperator(l, from, spender) && !IsApproved(l, c, spender, id) then None
    else Moved(l, from, to, id)
  }

  function ApproveCall(l: Ledger, c: Context, caller: Address, operator: Address, id: LoanId): Option<Ledger> {
    if caller !in c.signers || id !in l.owners || operator == l.owners[id] then None
    else if caller != l.owners[id] && !IsOperator(l, l.owners[id], caller) then None
    else Some(l.(approved := l.approved[id := Approval(operator, Min(c.now + APPROVAL_SECONDS, U64_MAX))]))
  }

  function SetApprovalForAllCall(l: Ledger, c: Context, caller: Address, operator: Address,
                                 granted: bool): Option<Ledger> {
    if caller !in c.signers || caller == operator then None
    else Some(l.(operators := l.operators[(caller, operator) := granted]))
  }

  function Invoke(l: Ledger, c: Context, op: Op): Option<Ledger> {
    match op
    case Initialize(admin) => if l.admin.Some? then None else Some(l.(admin := Some(admin), supply := 0))
    case Mint(to, data) => MintCall(l, c, to, data)
    case Burn(id) => BurnCall(l, c, id)
    case Transfer(from, to, id) => TransferCall(l, c, from, to, id)
    case TransferFrom(spender, from, to, id) => TransferFromCall(l, c, spender, from, to, id)
    case Approve(caller, operator, id) => ApproveCall(l, c, caller, operator, id)
    case SetApprovalForAll(caller, operator, granted) => SetApprovalForAllCall(l, c, caller, operator, granted)
    case SetTokenUri(id, uri) =>
      if AdminSigned(l, c) && id in l.metadata then Some(l.(tokenUris := l.tokenUris[id := uri])) else None
    case SetTransferable(id, allowed) =>
      if AdminSigned(l, c) && id in l.metadata then Some(l.(transferable := l.transferable[id := allowed])) else None
  }

  function Step(l: Ledger, c: Context, op: Op): Ledger {
    match Invoke(l, c, op)
    case Some(l') => l'
    case None => l
  }

  type Event = (Context, Op)

  function Run(l: Ledger, calls: seq<Event>): Ledger {
    if calls == [] then l
    else
      var n := |calls| - 1;
      Step(Run(l, calls[..n]), calls[n].0, calls[n].1)
  }

  // ---------- the counts ----------

  /** The loans that an account owns. */
  ghost function Holdings(owners: map<LoanId, Address>, a: Address): set<LoanId> {
    set id | id in owners && owners[id] == a
  }

  /** The per-loan tables cover the same loans; approvals and token URIs only live loans. */
  ghost predicate TablesAgree(l: Ledger) {
    && l.metadata.Keys == l.owners.Keys == l.transferable.Keys == l.locked.Keys
    && l.approved.Keys <= l.owners.Keys
    && l.tokenUris.Keys <= l.owners.Keys
    && (forall id <- l.metadata :: l.metadata[id].loanId == id && l.locked[id])
    && (l.admin.None? ==> l.owners == map[])
  }

  ghost predicate CountsAgree(l: Ledger) {
    && l.supply == |l.owners|
    && forall a :: BalanceOf(l, a) == |Holdings(l.owners, a)|
  }

  ghost predicate Valid(l: Ledger) {
    TablesAgree(l) && CountsAgree(l)
  }

  lemma EmptyLedgerValid()
    ensures Valid(EMPTY_LEDGER)
  {
    forall a
      ensures Holdings(EMPTY_LEDGER.owners, a) == {}
    {
    }
  }

  lemma HoldingsAfterGain(owners: map<LoanId, Address>, id: LoanId, to: Address, a: Address)
    requires id !in owners
    ensures |Holdings(owners[id := to], a)| == |Holdings(owners, a)| + if a == to then 1 else 0
  {
    if a == to {
      assert Holdings(owners[id := to], a) == Holdings(owners, a) + {id};
    } else {
      assert Holdings(owners[id := to], a) == Holdings(owners, a);
    }
  }

  lemma HoldingsAfterLoss(owners: map<LoanId, Address>, id: LoanId, a: Address)
    requires id in owners
    ensures |Holdings(owners, a)| == |Holdings(owners - {id}, a)| + if a == owners[id] then 1 else 0
  {
    assert owners == (owners - {id})[id := owners[id]];
    HoldingsAfterGain(owners - {id}, id, owners[id], a);
  }

  lemma HoldingsAfterMove(owners: map<LoanId, Address>, id: LoanId, to: Address, a: Address)
    requires id in owners
    ensures |Holdings(owners[id := to], a)| + (if a == owners[id] then 1 else 0) ==
            |Holdings(owners, a)| + if a == to then 1 else 0
  {
    HoldingsAfterLoss(owners, id, a);
    assert owners[id := to] == (owners - {id})[id := to];
    HoldingsAfterGain(owners - {id}, id, to, a);
  }

  /** A live loan counts for its owner and for the supply, so no saturating subtraction clips. */
  lemma NothingClips(l: Ledger, id: LoanId)
    requires Valid(l) && id in l.owners
    ensures BalanceOf(l, l.owners[id]) >= 1 && l.supply >= 1
  {
    assert id in Holdings(l.owners, l.owners[id]);
    assert l.owners.Keys == (l.owners.Keys - {id}) + {id};
  }

  lemma MintKeepsTables(l: Ledger, c: Context, to: Address, data: Metadata)
    requires TablesAgree(l) && MintCall(l, c, to, data).Some?
    ensures TablesAgree(MintCall(l, c, to, data).value)
  {
  }

  lemma GainKeepsCounts(l: Ledger, l': Ledger, id: LoanId, to: Address)
    requires CountsAgree(l) && id !in l.owners && BalanceOf(l, to) < U64_MAX
    requires l'.owners == l.owners[id := to] && l'.supply == l.supply + 1
    requires l'.balances == l.balances[to := BalanceOf(l, to) + 1]
    ensures CountsAgree(l')
  {
    assert l'.owners.Keys == l.owners.Keys + {id};
    forall a
      ensures BalanceOf(l', a) == |Holdings(l'.owners, a)|
    {
      assert BalanceOf(l, a) == |Holdings(l.owners, a)|;
      HoldingsAfterGain(l.owners, id, to, a);
    }
  }

  lemma MintKeepsValid(l: Ledger, c: Context, to: Address, data: Metadata)
    requires Valid(l) && MintCall(l, c, to, data).Some?
    ensures Valid(MintCall(l, c, to, data).value)
  {
    MintKeepsTables(l, c, to, data);
    GainKeepsCounts(l, MintCall(l, c, to, data).value, data.loanId, to);
  }

  lemma BurnKeepsValid(l: Ledger, c: Context, id: LoanId)
    requires Valid(l) && BurnCall(l, c, id).Some?
    ensures Valid(BurnCall(l, c, id).value)
  {
    var l' := BurnCall(l, c, id).value;
    NothingClips(l, id);
    assert l.owners.Keys == l'.owners.Keys + {id};
    forall a
      ensures BalanceOf(l', a) == |Holdings(l'.owners, a)|
    {
      assert BalanceOf(l, a) == |Holdings(l.owners, a)|;
      HoldingsAfterLoss(l.owners, id, a);
    }
  }

  /** Moving a loan, to its own owner included. */
  lemma MoveKeepsValid(l: Ledger, to: Address, id: LoanId)
    requires Valid(l) && id in l.owners && Moved(l, l.owners[id], to, id).Some?
    ensures Valid(Moved(l, l.owners[id], to, id).value)
  {
    var l' := Moved(l, l.owners[id], to, id).value;
    NothingClips(l, id);
    assert l'.owners.Keys == l.owners.Keys;
    assert |l'.owners| == |l'.owners.Keys|;
    forall a
      ensures BalanceOf(l', a) == |Holdings(l'.owners, a)|
    {
      assert BalanceOf(l, a) == |Holdings(l.owners, a)|;
      assert BalanceOf(l, to) == |Holdings(l.owners, to)|;
      HoldingsAfterMove(l.owners, id, to, a);
    }
  }

  /** Calls that change no owner, balance or supply. */
  lemma SideTablesKeepValid(l: Ledger, l': Ledger)
    requires Valid(l) && TablesAgree(l')
    requires l'.owners == l.owners && l'.balances == l.balances && l'.supply == l.supply
    ensures Valid(l')
  {
    forall a
      ensures BalanceOf(l', a) == |Holdings(l'.owners, a)|
    {
      assert BalanceOf(l, a) == |Holdings(l.owners, a)|;
    }
  }

  predicate ChangesOwners(op: Op) {
    op.Mint? || op.Burn? || op.Transfer? || op.TransferFrom?
  }

  lemma OwnerCallsKeepValid(l: Ledger, c: Context, op: Op)
    requires Valid(l) && ChangesOwners(op) && Invoke(l, c, op).Some?
    ensures Valid(Invoke(l, c, op).value)
  {
    match op {
      case Mint(to, data) => MintKeepsValid(l, c, to, data);
      case Burn(id) => BurnKeepsValid(l, c, id);
      case Transfer(from, to, id) => MoveKeepsValid(l, to, id);
      case TransferFrom(spender, from, to, id) => MoveKeepsValid(l, to, id);
    }
  }

  lemma SideCallsKeepValid(l: Ledger, c: Context, op: Op)
    requires Valid(l) && !ChangesOwners(op) && Invoke(l, c, op).Some?
    ensures Valid(Invoke(l, c, op).value)
  {
    SideTablesKeepValid(l, Invoke(l, c, op).value);
  }

  lemma StepKeepsValid(l: Ledger, c: Context, op: Op)
    requires Valid(l)
    ensures Valid(Step(l, c, op))
  {
    if Invoke(l, c, op).Some? {
      if ChangesOwners(op) {
        OwnerCallsKeepValid(l, c, op);
      } else {
        SideCallsKeepValid(l, c, op);
      }
    }
  }

  /** Over every run: balances and supply are counts of the owner table. */
  lemma {:induction false} RunKeepsValid(l: Ledger, calls: seq<Event>)
    requires Valid(l)
    ensures Valid(Run(l, calls))
  {
    if calls != [] {
      var n := |calls| - 1;
      RunKeepsValid(l, calls[..n]);
      StepKeepsValid(Run(l, calls[..n]), calls[n].0, calls[n].1);
    }
  }

  lemma EntryRestored<V>(table: map<LoanId, V>, id: LoanId, v: V)
    requires id !in table
    ensures table[id := v] - {id} == table && table - {id} == table
  {
  }

  lemma TablesRestored(l: Ledger, to: Address, data: Metadata)
    requires TablesAgree(l) && data.loanId !in l.metadata
    ensures WithoutLoan(WithLoan(l, to, data), data.loanId) == l
  {
    var id := data.loanId;
    EntryRestored(l.metadata, id, data);
    EntryRestored(l.owners, id, to);
    EntryRestored(l.transferable, id, false);
    EntryRestored(l.locked, id, true);
    EntryRestored(l.approved, id, Approval(to, 0));
    EntryRestored(l.tokenUris, id, "");
  }

  lemma CountsStandApart(l: Ledger, id: LoanId, supply: u64, balances: map<Address, u64>)
    ensures WithoutLoan(l.(supply := supply, balances := balances), id) ==
            WithoutLoan(l, id).(supply := supply, balances := balances)
  {
  }

  lemma BurnUndoes(l: Ledger, minted: Ledger, c: Context, id: LoanId, to: Address)
    requires AdminSigned(minted, c) && id in minted.owners && minted.owners[id] == to
    requires l.supply < U64_MAX && minted.supply == l.supply + 1
    requires BalanceOf(l, to) < U64_MAX && minted.balances == l.balances[to := BalanceOf(l, to) + 1]
    requires WithoutLoan(minted, id) == l.(supply := minted.supply, balances := minted.balances)
    ensures var burnt := BurnCall(minted, c, id);
            && burnt.Some?
            && burnt.value == l.(balances := burnt.value.balances)
            && forall a :: BalanceOf(burnt.value, a) == BalanceOf(l, a)
  {
  }

  /** Burning a loan right after its mint leaves every table, the supply and every balance as before the mint. */
  lemma MintThenBurn(l: Ledger, c: Context, to: Address, data: Metadata)
    requires Valid(l) && MintCall(l, c, to, data).Some?
    ensures var burnt := BurnCall(MintCall(l, c, to, data).value, c, data.loanId);
            && burnt.Some?
            && burnt.value == l.(balances := burnt.value.balances)
            && forall a :: BalanceOf(burnt.value, a) == BalanceOf(l, a)
  {
    var minted := WithLoan(l, to, data).(supply := l.supply + 1, balances := l.balances[to := BalanceOf(l, to) + 1]);
    assert MintCall(l, c, to, data) == Some(minted);
    TablesRestored(l, to, data);
    CountsStandApart(WithLoan(l, to, data), data.loanId, minted.supply, minted.balances);
    BurnUndoes(l, minted, c, data.loanId, to);
  }

  /** From deployment on: every balance and the supply count loans, and only known loans can be locked. */
  lemma CountsFromDeployment(calls: seq<Event>, a: Address)
    ensures var l := Run(EMPTY_LEDGER, calls);
            && BalanceOf(l, a) == |Holdings(l.owners, a)|
            && l.supply == |l.owners|
            && l.metadata.Keys == l.owners.Keys == l.transferable.Keys == l.locked.Keys
  {
    EmptyLedgerValid();
    RunKeepsValid(EMPTY_LEDGER, calls);
  }

  /** Call `i` of the run went through. */
  predicate Accepted(l: Ledger, calls: seq<Event>, i: nat)
    requires i < |calls|
  {
    Invoke(Run(l, calls[..i]), calls[i].0, calls[i].1).Some?
  }

  /** No accepted call of the run is `op`; refused attempts may be. */
  ghost predicate NeverAccepted(l: Ledger, calls: seq<Event>, op: Op) {
    forall i :: 0 <= i < |calls| && calls[i].1 == op ==> !Accepted(l, calls, i)
  }

  lemma PrefixNeverAccepted(l: Ledger, calls: seq<Event>, op: Op, n: nat)
    requires n <= |calls| && NeverAccepted(l, calls, op)
    ensures NeverAccepted(l, calls[..n], op)
  {
    forall i | 0 <= i < n && calls[..n][i].1 == op
      ensures !Accepted(l, calls[..n], i)
    {
      assert calls[..n][..i] == calls[..i];
      assert !Accepted(l, calls, i);
    }
  }

  lemma StepKeepsMetadata(l: Ledger, c: Context, op: Op, id: LoanId)
    requires id in l.metadata && (op == Burn(id) ==> Invoke(l, c, op).None?)
    ensures id in Step(l, c, op).metadata && Step(l, c, op).metadata[id] == l.metadata[id]
  {
  }

  /** Until an accepted burn nothing rewrites a loan's metadata. */
  lemma {:induction false} MetadataIsImmutable(l: Ledger, calls: seq<Event>, id: LoanId)
    requires id in l.metadata && NeverAccepted(l, calls, Burn(id))
    ensures id in Run(l, calls).metadata && Run(l, calls).metadata[id] == l.metadata[id]
  {
    if calls != [] {
      var n := |calls| - 1;
      PrefixNeverAccepted(l, calls, Burn(id), n);
      MetadataIsImmutable(l, calls[..n], id);
      assert calls[n].1 == Burn(id) ==> !Accepted(l, calls, n);
      StepKeepsMetadata(Run(l, calls[..n]), calls[n].0, calls[n].1, id);
    }
  }

  /** The loan is with `owner`, known, and locked. */
  predicate LockedWith(l: Ledger, id: LoanId, owner: Address) {
    && id in l.owners && l.owners[id] == owner
    && id in l.metadata
    && id in l.transferable && !l.transferable[id]
  }

  lemma StepKeepsLocked(l: Ledger, c: Context, op: Op, id: LoanId, owner: Address)
    requires LockedWith(l, id, owner)
    requires op == Burn(id) || op == SetTransferable(id, true) ==> Invoke(l, c, op).None?
    ensures LockedWith(Step(l, c, op), id, owner)
  {
  }

  /** Until the admin's burn or unlock goes through, a loan stays with its owner and stays locked. */
  lemma {:induction false} LockedLoanStays(l: Ledger, calls: seq<Event>, id: LoanId, owner: Address)
    requires LockedWith(l, id, owner)
    requires NeverAccepted(l, calls, Burn(id)) && NeverAccepted(l, calls, SetTransferable(id, true))
    ensures LockedWith(Run(l, calls), id, owner)
  {
    if calls != [] {
      var n := |calls| - 1;
      PrefixNeverAccepted(l, calls, Burn(id), n);
      PrefixNeverAccepted(l, calls, SetTransferable(id, true), n);
      LockedLoanStays(l, calls[..n], id, owner);
      assert calls[n].1 == Burn(id) || calls[n].1 == SetTransferable(id, true) ==> !Accepted(l, calls, n);
      StepKeepsLocked(Run(l, calls[..n]), calls[n].0, calls[n].1, id, owner);
    }
  }

  // ---------- the contract object ----------

  class LoanNftContract {
    var admin: Option<Address>
    var metadata: map<LoanId, Metadata>
    var owners: map<LoanId, Address>
    var approved: map<LoanId, Approval>
    var operators: map<(Address, Address), bool>
    var balances: map<Address, u64>
    var supply: u64
    var tokenUris: map<LoanId, string>
    var transferable: map<LoanId, bool>
    var locked: map<LoanId, bool>

    constructor ()
      ensures State() == EMPTY_LEDGER
    {
      admin, metadata, owners, approved, operators := None, map[], map[], map[], map[];
      balances, supply, tokenUris, transferable, locked := map[], 0, map[], map[], map[];
    }

    function State(): Ledger
      reads this
    {
      Ledger(admin, metadata, owners, approved, operators, balances, supply, tokenUris, transferable, locked)
    }

    /** The call completed with `done`, or panicked and left the ledger alone. */
    ghost predicate Performed(before: Ledger, result: Option<Ledger>, done: bool)
      reads this
    {
      done == result.Some? && State() == if result.Some? then result.value else before
    }

    method Initialize(newAdmin: Address) returns (done: bool)
      modifies this
      ensures Performed(old(State()), Invoke(old(State()), Context(0, {}), Op.Initialize(newAdmin)), done)
    {
      if admin.Some? {
        return false;
      }
      admin, supply := Some(newAdmin), 0;
      done := true;
    }

    method Mint(c: Context, to: Address, data: Metadata) returns (done: bool)
      modifies this
      ensures Performed(old(State()), MintCall(old(State()), c, to, data), done)
    {
      var id := data.loanId;
      if !AdminSigned(State(), c) || id in metadata {
        return false;
      }
      if supply == U64_MAX || BalanceOf(State(), to) == U64_MAX {
        return false;
      }
      AddEntries(to, data);
      supply := supply + 1;
      var balance := if to in balances then balances[to] else 0;
      balances := balances[to := balance + 1];
      done := true;
    }

    /** Writes every entry that a mint keeps under the loan. */
    method AddEntries(to: Address, data: Metadata)
      modifies this
      ensures State() == WithLoan(old(State()), to, data)
    {
      var id := data.loanId;
      metadata := metadata[id := data];
      owners := owners[id := to];
      transferable := transferable[id := false];
      locked := locked[id := true];
    }

    /** Removes every entry kept under the loan. */
    method DropEntries(id: LoanId)
      modifies this
      ensures State() == WithoutLoan(old(State()), id)
    {
      metadata := metadata - {id};
      owners := owners - {id};
      approved := approved - {id};
      tokenUris := tokenUris - {id};
      transferable := transferable - {id};
      locked := locked - {id};
    }

    method Burn(c: Context, id: LoanId) returns (done: bool)
      modifies this
      ensures Performed(old(State()), BurnCall(old(State()), c, id), done)
    {
      if !AdminSigned(State(), c) || id !in owners {
        return false;
      }
      var owner := owners[id];
      DropEntries(id);
      if supply > 0 {
        supply := supply - 1;
      }
      var balance := if owner in balances then balances[owner] else 0;
      balances := balances[owner := SaturatingSub(balance, 1)];
      done := true;
    }

    /** Debits one account, then credits the other from the balance as it stands after the debit. */
    method Move(from: Address, to: Address, id: LoanId) returns (done: bool)
      modifies this
      ensures Performed(old(State()), Moved(old(State()), from, to, id), done)
    {
      var balanceFrom := SaturatingSub(BalanceOf(State(), from), 1);
      var debited := balances[from := balanceFrom];
      var balanceTo := if to in debited then debited[to] else 0;
      if balanceTo == U64_MAX {
        return false;
      }
      owners := owners[id := to];
      approved := approved - {id};
      balances := debited;
      balances := balances[to := balanceTo + 1];
      done := true;
    }

    method Transfer(c: Context, from: Address, to: Address, id: LoanId) returns (done: bool)
      modifies this
      ensures Performed(old(State()), TransferCall(old(State()), c, from, to, id), done)
    {
      if from !in c.signers || !MayMove(State(), id) {
        return false;
      }
      if id !in owners || owners[id] != from {
        return false;
      }
      done := Move(from, to, id);
    }

    method TransferFrom(c: Context, spender: Address, from: Address, to: Address, id: LoanId) returns (done: bool)
      modifies this
      ensures Performed(old(State()), TransferFromCall(old(State()), c, spender, from, to, id), done)
    {
      if spender !in c.signers || !MayMove(State(), id) {
        return false;
      }
      if id !in owners || owners[id] != from {
        return false;
      }
      if spender != from && !IsOperator(State(), from, spender) {
        if id !in approved || approved[id].operator != spender || c.now >= approved[id].expiresAt {
          return false;
        }
      }
      done := Move(from, to, id);
    }

    method Approve(c: Context, caller: Address, operator: Address, id: LoanId) returns (done: bool)
      modifies this
      ensures Performed(old(State()), ApproveCall(old(State()), c, caller, operator, id), done)
    {
      if caller !in c.signers || id !in owners {
        return false;
      }
      var owner := owners[id];
      if operator == owner || (caller != owner && !IsOperator(State(), owner, caller)) {
        return false;
      }
      approved := approved[id := Approval(operator, Min(c.now + APPROVAL_SECONDS, U64_MAX))];
      done := true;
    }

    method SetTransferable(c: Context, id: LoanId, allowed: bool) returns (done: bool)
      modifies this
      ensures Performed(old(State()), Invoke(old(State()), c, Op.SetTransferable(id, allowed)), done)
    {
      if !AdminSigned(State(), c) || id !in metadata {
        return false;
      }
      transferable := transferable[id := allowed];
      done := true;
    }

    method SetTokenUri(c: Context, id: LoanId, uri: string) returns (done: bool)
      modifies this
      ensures Performed(old(State()), Invoke(old(State()), c, Op.SetTokenUri(id, uri)), done)
    {
      if !AdminSigned(State(), c) || id !in metadata {
        return false;
      }
      tokenUris := tokenUris[id := uri];
      done := true;
    }

    method SetApprovalForAll(c: Context, caller: Address, operator: Address, granted: bool) returns (done: bool)
      modifies this
      ensures Performed(old(State()), SetApprovalForAllCall(old(State()), c, caller, operator, granted), done)
    {
      if caller !in c.signers || caller == operator {
        return false;
      }
      operators := operators[(caller, operator) := granted];
      done := true;
    }
  }
}
