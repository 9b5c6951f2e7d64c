/**
 Will versions, signatures and finalization
 (contracts/inheritance-contract/src/gas_optimization.rs). Each call reads the plan table as it stands.
 */
module WillRegistry {
  import opened MachineInts
  import opened ContractErrors
  import opened PlanTypes

  type Hash = nat
  type Version = u32

  datatype WillVersion = WillVersion(version: Version, willHash: Hash, createdAt: u64, isActive: bool)

  datatype Proof = Proof(vault: PlanId, willHash: Hash, signer: Address, sigHash: Hash, signedAt: u64)

  datatype Wills = Wills(
    counts: map<PlanId, Version>,
    versions: map<(PlanId, Version), WillVersion>,
    active: map<PlanId, Version>,
    vaultWill: map<PlanId, Hash>,
    signatures: map<PlanId, Proof>,
    usedSignatures: set<Hash>,
    witnesses: map<PlanId, seq<Address>>,
    witnessSigned: map<(PlanId, Address), u64>,
    finalized: set<(PlanId, Version)>,
    finalizedAt: map<(PlanId, Version), u64>)

  const NO_WILLS: Wills := Wills(map[], map[], map[], map[], map[], {}, map[], map[], {}, map[])

  datatype Context = Context(now: u64, plans: map<PlanId, Plan>)

  datatype Op =
    | LinkWill(owner: Address, vault: PlanId, willHash: Hash)
    | CreateVersion(owner: Address, vault: PlanId, willHash: Hash)
    | SignWill(owner: Address, vault: PlanId, willHash: Hash, sigHash: Hash, expiresAt: u64)
    | AddWitness(owner: Address, vault: PlanId, signatory: Address)
    | SignAsWitness(signatory: Address, vault: PlanId, sigHash: Hash, expiresAt: u64)
    | FinalizeWill(owner: Address, vault: PlanId, version: Version)

  type WillResult = Result<Wills, InheritanceError>

  // ---------- entry points ----------

  function OwnerCheck(c: Context, owner: Address, vault: PlanId, missing: InheritanceError): Guard {
    if vault !in c.plans then Fail(missing) else Need(c.plans[vault].owner == owner, Unauthorized)
  }

  function CountOf(w: Wills, vault: PlanId): Version {
    if vault in w.counts then w.counts[vault] else 0
  }

  function WitnessesOf(w: Wills, vault: PlanId): seq<Address> {
    if vault in w.witnesses then w.witnesses[vault] else []
  }

  function LinkCall(w: Wills, c: Context, owner: Address, vault: PlanId, willHash: Hash): WillResult {
    var guard := OwnerCheck(c, owner, vault, VaultNotFound);
    :- guard;
    :- Need(vault !in w.vaultWill, WillAlreadyLinked);
    Ok(w.(vaultWill := w.vaultWill[vault := willHash]))
  }

  predicate ActiveFinalized(w: Wills, vault: PlanId) {
    vault in w.active && (vault, w.active[vault]) in w.finalized
  }

  /** The version table with the recorded active version switched off, if it exists. */
  function Deactivated(w: Wills, vault: PlanId): map<(PlanId, Version), WillVersion> {
    if vault in w.active && (vault, w.active[vault]) in w.versions then
      w.versions[(vault, w.active[vault]) := w.versions[(vault, w.active[vault])].(isActive := false)]
    else w.versions
  }

  function VersionCall(w: Wills, c: Context, owner: Address, vault: PlanId, willHash: Hash): WillResult {
    var guard := OwnerCheck(c, owner, vault, PlanNotFound);
    :- guard;
    :- Need(!ActiveFinalized(w, vault), WillAlreadyFinalized);
    if CountOf(w, vault) == U32_MAX then Err(Panicked)
    else
      var next: Version := CountOf(w, vault) + 1;
      Ok(w.(counts := w.counts[vault := next],
            versions := Deactivated(w, vault)[(vault, next) := WillVersion(next, willHash, c.now, true)],
            active := w.active[vault := next],
            vaultWill := w.vaultWill[vault := willHash]))
  }

  function SignCall(w: Wills, c: Context, owner: Address, vault: PlanId, willHash: Hash, sigHash: Hash,
                    expiresAt: u64): WillResult {
    var guard := OwnerCheck(c, owner, vault, PlanNotFound);
    :- guard;
    :- Need(c.now <= expiresAt, Unauthorized);
    :- Need(sigHash !in w.usedSignatures, WillAlreadyFinalized);
    Ok(w.(usedSignatures := w.usedSignatures + {sigHash},
          signatures := w.signatures[vault := Proof(vault, willHash, owner, sigHash, c.now)]))
  }

  function AddWitnessCall(w: Wills, c: Context, owner: Address, vault: PlanId, signatory: Address): WillResult {
    var guard := OwnerCheck(c, owner, vault, PlanNotFound);
    :- guard;
    :- Need(signatory !in WitnessesOf(w, vault), EmergencyContactAlreadyExists);
    Ok(w.(witnesses := w.witnesses[vault := WitnessesOf(w, vault) + [signatory]]))
  }

  function SignAsWitnessCall(w: Wills, c: Context, signatory: Address, vault: PlanId, sigHash: Hash,
                             expiresAt: u64): WillResult {
    if vault !in c.plans then Err(PlanNotFound)
    else
      :- Need(signatory in WitnessesOf(w, vault), EmergencyContactNotFound);
      :- Need(c.now <= expiresAt, Unauthorized);
      :- Need(sigHash !in w.usedSignatures, AlreadyApproved);
      :- Need((vault, signatory) !in w.witnessSigned, AlreadyApproved);
      Ok(w.(usedSignatures := w.usedSignatures + {sigHash},
            witnessSigned := w.witnessSigned[(vault, signatory) := c.now]))
  }

  predicate AllSigned(w: Wills, vault: PlanId) {
    forall signatory <- WitnessesOf(w, vault) :: (vault, signatory) in w.witnessSigned
  }

  function FinalizeCall(w: Wills, c: Context, owner: Address, vault: PlanId, version: Version): WillResult {
    var guard := OwnerCheck(c, owner, vault, PlanNotFound);
    :- guard;
    :- Need((vault, version) in w.versions, WillVersionNotFound);
    :- Need((vault, version) !in w.finalized, WillAlreadyFinalized);
    :- Need(vault in w.signatures, WillVersionNotFound);
    :- Need(AllSigned(w, vault), MissingRequiredField);
    Ok(w.(finalized := w.finalized + {(vault, version)},
          finalizedAt := w.finalizedAt[(vault, version) := c.now]))
  }

  function Invoke(w: Wills, c: Context, op: Op): WillResult {
    match op
    case LinkWill(owner, vault, willHash) => LinkCall(w, c, owner, vault, willHash)
    case CreateVersion(owner, vault, willHash) => VersionCall(w, c, owner, vault, willHash)
    case SignWill(owner, vault, willHash, sigHash, expiresAt) =>
      SignCall(w, c, owner, vault, willHash, sigHash, expiresAt)
    case AddWitness(owner, vault, signatory) => AddWitnessCall(w, c, owner, vault, signatory)
    case SignAsWitness(signatory, vault, sigHash, expiresAt) =>
      SignAsWitnessCall(w, c, signatory, vault, sigHash, expiresAt)
    case FinalizeWill(owner, vault, version) => FinalizeCall(w, c, owner, vault, version)
  }

  function Step(w: Wills, c: Context, op: Op): Wills {
    var r := Invoke(w, c, op);
    if r.Ok? then r.value else w
  }

  type Event = (Context, Op)

  function Run(w: Wills, calls: seq<Event>): Wills {
    if calls == [] then w
    else
      var n := |calls| - 1;
      Step(Run(w, calls[..n]), calls[n].0, calls[n].1)
  }

  // ---------- invariant ----------

  /** Versions 1..count exist and nothing else; the last is the active one and the vault's link. */
  ghost predicate VersionsOk(w: Wills, vault: PlanId) {
    var count := CountOf(w, vault);
    && (forall k: Version :: (vault, k) in w.versions <==> 1 <= k <= count)
    && (forall k: Version :: 1 <= k <= count ==>
          w.versions[(vault, k)].version == k && (w.versions[(vault, k)].isActive <==> k == count))
    && (vault in w.active <==> count > 0)
    && (count > 0 ==> w.active[vault] == count && vault in w.vaultWill &&
                      w.vaultWill[vault] == w.versions[(vault, count)].willHash)
  }

  /** A finalized version exists, carries its time, and its vault carries a signature. */
  ghost predicate FinalsOk(w: Wills) {
    forall f <- w.finalized :: f in w.versions && f in w.finalizedAt && f.0 in w.signatures
  }

  ghost predicate Valid(w: Wills) {
    FinalsOk(w) && forall vault :: VersionsOk(w, vault)
  }

  lemma NoWillsValid()
    ensures Valid(NO_WILLS)
  {
  }

  lemma NewVersionKeepsVersions(w: Wills, c: Context, owner: Address, created: PlanId, willHash: Hash, vault: PlanId)
    requires VersionsOk(w, vault) && VersionCall(w, c, owner, created, willHash).Ok?
    ensures VersionsOk(VersionCall(w, c, owner, created, willHash).value, vault)
  {
    var w' := VersionCall(w, c, owner, created, willHash).value;
    if vault == created {
      assert forall k: Version :: (vault, k) in w'.versions <==> 1 <= k <= CountOf(w', vault);
    } else {
      assert forall k: Version :: (vault, k) in w'.versions <==> (vault, k) in w.versions;
    }
  }

  lemma SameTablesKeepVersions(w: Wills, w': Wills, vault: PlanId)
    requires VersionsOk(w, vault)
    requires w'.counts == w.counts && w'.versions == w.versions && w'.active == w.active
    requires vault in w.vaultWill ==> vault in w'.vaultWill && w'.vaultWill[vault] == w.vaultWill[vault]
    ensures VersionsOk(w', vault)
  {
  }

  lemma StepKeepsVersions(w: Wills, c: Context, op: Op, vault: PlanId)
    requires VersionsOk(w, vault)
    ensures VersionsOk(Step(w, c, op), vault)
  {
    if Invoke(w, c, op).Ok? {
      if op.CreateVersion? {
        NewVersionKeepsVersions(w, c, op.owner, op.vault, op.willHash, vault);
      } else {
        SameTablesKeepVersions(w, Step(w, c, op), vault);
      }
    }
  }

  lemma StepKeepsFinals(w: Wills, c: Context, op: Op)
    requires FinalsOk(w)
    ensures FinalsOk(Step(w, c, op))
  {
  }

  lemma StepKeepsValid(w: Wills, c: Context, op: Op)
    requires Valid(w)
    ensures Valid(Step(w, c, op))
  {
    StepKeepsFinals(w, c, op);
    forall vault
      ensures VersionsOk(Step(w, c, op), vault)
    {
      assert VersionsOk(w, vault);
      StepKeepsVersions(w, c, op, vault);
    }
  }

  /** In every run the version table is contiguous, with its last version active and linked. */
  lemma {:induction false} RunKeepsValid(w: Wills, calls: seq<Event>)
    requires Valid(w)
    ensures Valid(Run(w, calls))
  {
    if calls != [] {
      var n := |calls| - 1;
      RunKeepsValid(w, calls[..n]);
      StepKeepsValid(Run(w, calls[..n]), calls[n].0, calls[n].1);
    }
  }

  /** From deployment on: versions 1..count, the last one active, recorded and linked. */
  lemma VersionsFromDeployment(calls: seq<Event>, vault: PlanId)
    ensures VersionsOk(Run(NO_WILLS, calls), vault) && FinalsOk(Run(NO_WILLS, calls))
  {
    NoWillsValid();
    RunKeepsValid(NO_WILLS, calls);
  }

  // ---------- finality ----------

  /** Nothing of the vault's versions has changed. */
  ghost predicate SameWill(w: Wills, w': Wills, vault: PlanId) {
    && CountOf(w', vault) == CountOf(w, vault)
    && vault in w.active && vault in w'.active && w'.active[vault] == w.active[vault]
    && (forall k: Version :: (vault, k) in w'.versions <==> (vault, k) in w.versions)
    && (forall k: Version :: (vault, k) in w.versions ==> w'.versions[(vault, k)] == w.versions[(vault, k)])
    && vault in w.vaultWill && vault in w'.vaultWill && w'.vaultWill[vault] == w.vaultWill[vault]
  }

  lemma StepKeepsFinalWill(w: Wills, c: Context, op: Op, vault: PlanId)
    requires Valid(w) && ActiveFinalized(w, vault)
    ensures SameWill(w, Step(w, c, op), vault) && ActiveFinalized(Step(w, c, op), vault)
  {
    assert VersionsOk(w, vault);
    if Invoke(w, c, op).Ok? && op.CreateVersion? {
      assert op.vault != vault;
    }
  }

  /** Once the active version is final, no later call of any kind changes the vault's will. */
  lemma {:induction false} FinalWillIsFixed(w: Wills, calls: seq<Event>, vault: PlanId)
    requires Valid(w) && ActiveFinalized(w, vault)
    ensures SameWill(w, Run(w, calls), vault)
    ensures ActiveFinalized(Run(w, calls), vault) && vault in Run(w, calls).signatures
  {
    RunKeepsValid(w, calls);
    assert VersionsOk(w, vault);
    if calls != [] {
      var n := |calls| - 1;
      FinalWillIsFixed(w, calls[..n], vault);
      RunKeepsValid(w, calls[..n]);
      StepKeepsFinalWill(Run(w, calls[..n]), calls[n].0, calls[n].1, vault);
    }
  }

  // ---------- finalization is signed ----------

  /** What was signed before a finalization, and is still there now. */
  ghost predicate SignedThen(before: Wills, now: Wills, vault: PlanId) {
    && vault in before.signatures && vault in now.signatures
    && AllSigned(before, vault)
    && WitnessesOf(before, vault) <= WitnessesOf(now, vault)
    && forall signatory <- WitnessesOf(before, vault) ::
         (vault, signatory) in now.witnessSigned
         && now.witnessSigned[(vault, signatory)] == before.witnessSigned[(vault, signatory)]
  }

  lemma StepKeepsSigned(before: Wills, now: Wills, c: Context, op: Op, vault: PlanId)
    requires SignedThen(before, now, vault)
    ensures SignedThen(before, Step(now, c, op), vault)
  {
  }

  /** Only an accepted finalization adds a final version, and it finds every signature. */
  lemma NewlyFinalized(w: Wills, c: Context, op: Op, vault: PlanId, version: Version)
    requires (vault, version) !in w.finalized && (vault, version) in Step(w, c, op).finalized
    ensures op.FinalizeWill? && op.vault == vault && op.version == version
    ensures vault in c.plans && c.plans[vault].owner == op.owner && (vault, version) in w.versions
    ensures SignedThen(w, Step(w, c, op), vault)
  {
  }

  /** Call `i` finalized an existing version: its owner made it, and what was signed by then still is. */
  ghost predicate FinalizedAt(w: Wills, calls: seq<Event>, i: nat, vault: PlanId, version: Version)
    requires i < |calls|
  {
    var (c, op) := calls[i];
    && op.FinalizeWill? && op.vault == vault && op.version == version
    && vault in c.plans && c.plans[vault].owner == op.owner && (vault, version) in Run(w, calls[..i]).versions
    && SignedThen(Run(w, calls[..i]), Run(w, calls), vault)
  }

  /**
   In every run, each version that became final did so by a call of the plan's owner, at a moment when the
   owner's proof and the signature of every witness listed by then existed; all of them last.
   */
  lemma {:induction false} FinalVersionsWereSigned(w: Wills, calls: seq<Event>, vault: PlanId, version: Version)
    returns (i: nat)
    requires (vault, version) !in w.finalized && (vault, version) in Run(w, calls).finalized
    ensures i < |calls| && FinalizedAt(w, calls, i, vault, version)
  {
    var n := |calls| - 1;
    var before, c, op := Run(w, calls[..n]), calls[n].0, calls[n].1;
    if (vault, version) in before.finalized {
      i := FinalVersionsWereSigned(w, calls[..n], vault, version);
      assert calls[..n][..i] == calls[..i];
      StepKeepsSigned(Run(w, calls[..i]), before, c, op, vault);
    } else {
      NewlyFinalized(before, c, op, vault, version);
      i := n;
    }
  }

  // ---------- what the proof found by a finalization was for ----------

  /** The proof of the vault's latest accepted signing, if the run has one. */
  function LastSigning(w: Wills, calls: seq<Event>, vault: PlanId): Option<Proof> {
    if calls == [] then None
    else
      var n := |calls| - 1;
      var (c, op) := calls[n];
      if op.SignWill? && op.vault == vault && Invoke(Run(w, calls[..n]), c, op).Ok? then
        Some(Proof(vault, op.willHash, op.owner, op.sigHash, c.now))
      else LastSigning(w, calls[..n], vault)
  }

  function StoredProof(w: Wills, vault: PlanId): Option<Proof> {
    if vault in w.signatures then Some(w.signatures[vault]) else None
  }

  lemma StepStoresSigning(w: Wills, c: Context, op: Op, vault: PlanId)
    ensures StoredProof(Step(w, c, op), vault) ==
            if op.SignWill? && op.vault == vault && Invoke(w, c, op).Ok?
            then Some(Proof(vault, op.willHash, op.owner, op.sigHash, c.now))
            else StoredProof(w, vault)
  {
  }

  /** In every run the stored proof is that of the vault's latest accepted signing, or the one it began with. */
  lemma {:induction false} StoredProofIsLastSigning(w: Wills, calls: seq<Event>, vault: PlanId)
    ensures StoredProof(Run(w, calls), vault) ==
            if LastSigning(w, calls, vault).Some? then LastSigning(w, calls, vault) else StoredProof(w, vault)
  {
    if calls != [] {
      var n := |calls| - 1;
      StoredProofIsLastSigning(w, calls[..n], vault);
      StepStoresSigning(Run(w, calls[..n]), calls[n].0, calls[n].1, vault);
    }
  }

  /** A version record keeps its number, hash and time for good. */
  ghost predicate SameRecord(w: Wills, w': Wills, vault: PlanId, version: Version)
    requires (vault, version) in w.versions
  {
    && (vault, version) in w'.versions
    && w'.versions[(vault, version)] ==
       w.versions[(vault, version)].(isActive := w'.versions[(vault, version)].isActive)
  }

  lemma StepKeepsRecord(w: Wills, c: Context, op: Op, vault: PlanId, version: Version)
    requires VersionsOk(w, op.vault) && (vault, version) in w.versions
    ensures SameRecord(w, Step(w, c, op), vault, version)
  {
    if op.CreateVersion? && Invoke(w, c, op).Ok? {
      assert (op.vault, CountOf(w, op.vault) + 1) !in w.versions;
    }
  }

  lemma {:induction false} RunKeepsRecord(w: Wills, calls: seq<Event>, m: nat, vault: PlanId, version: Version)
    requires Valid(w) && m <= |calls| && (vault, version) in Run(w, calls[..m]).versions
    ensures SameRecord(Run(w, calls[..m]), Run(w, calls), vault, version)
    decreases |calls|
  {
    var n := |calls| - 1;
    if m == n + 1 {
      assert calls[..m] == calls;
    } else {
      assert calls[..n][..m] == calls[..m];
      RunKeepsRecord(w, calls[..n], m, vault, version);
      RunKeepsValid(w, calls[..n]);
      assert VersionsOk(Run(w, calls[..n]), calls[n].1.vault);
      StepKeepsRecord(Run(w, calls[..n]), calls[n].0, calls[n].1, vault, version);
    }
  }

  /** The proof on record names the hash of the version. */
  predicate Covers(w: Wills, vault: PlanId, version: Version) {
    vault in w.signatures && (vault, version) in w.versions
      && w.signatures[vault].willHash == w.versions[(vault, version)].willHash
  }

  /**
   From deployment, the proof that a finalization found was the vault's latest accepted signing, whoever had made
   it, and was for the finalized version exactly when that signing named the version's hash.
   */
  lemma FinalizedHashWasSignedIff(calls: seq<Event>, vault: PlanId, version: Version) returns (i: nat)
    requires (vault, version) in Run(NO_WILLS, calls).finalized
    ensures i < |calls| && FinalizedAt(NO_WILLS, calls, i, vault, version)
    ensures var found, last := Run(NO_WILLS, calls[..i]), LastSigning(NO_WILLS, calls[..i], vault);
            && last.Some? && StoredProof(found, vault) == last
            && (vault, version) in Run(NO_WILLS, calls).versions
            && (Covers(found, vault, version) <==>
                last.value.willHash == Run(NO_WILLS, calls).versions[(vault, version)].willHash)
  {
    i := FinalVersionsWereSigned(NO_WILLS, calls, vault, version);
    NoWillsValid();
    RunKeepsRecord(NO_WILLS, calls, i, vault, version);
    StoredProofIsLastSigning(NO_WILLS, calls[..i], vault);
  }

  function OwnedBy(plan: Plan, owner: Address): Context {
    Context.Context(0, map[1 := plan.(owner := owner)])
  }

  /** A version is created, another hash is signed, the plan changes hands, and the new owner finalizes. */
  function StrayProof(plan: Plan, alice: Address, bob: Address): seq<Event> {
    var hers, his := OwnedBy(plan, alice), OwnedBy(plan, bob);
    [(hers, CreateVersion(alice, 1, 1)), (hers, SignWill(alice, 1, 2, 3, 0)), (his, FinalizeWill(bob, 1, 1))]
  }

  /** Neither that hash nor that signer is checked: the version becomes final on a proof of neither. */
  lemma StrayProofFinalizes(plan: Plan, alice: Address, bob: Address)
    requires alice != bob
    ensures var w := Run(NO_WILLS, StrayProof(plan, alice, bob));
            && (1, 1) in w.finalized && !Covers(w, 1, 1)
            && 1 in w.signatures && w.signatures[1].signer == alice
  {
    var calls := StrayProof(plan, alice, bob);
    assert calls[..2][..1] == calls[..1] && calls[..1][..0] == [];
    var w1 := Step(NO_WILLS, calls[0].0, calls[0].1);
    assert Run(NO_WILLS, calls[..1]) == w1;
    assert Run(NO_WILLS, calls[..2]) == Step(w1, calls[1].0, calls[1].1);
  }

  lemma StepKeepsSpent(w: Wills, c: Context, op: Op, sigHash: Hash)
    requires sigHash in w.usedSignatures
    ensures sigHash in Step(w, c, op).usedSignatures
  {
  }

  lemma {:induction false} SignaturesStaySpent(w: Wills, calls: seq<Event>, sigHash: Hash)
    requires sigHash in w.usedSignatures
    ensures sigHash in Run(w, calls).usedSignatures
  {
    if calls != [] {
      var n := |calls| - 1;
      SignaturesStaySpent(w, calls[..n], sigHash);
      StepKeepsSpent(Run(w, calls[..n]), calls[n].0, calls[n].1, sigHash);
    }
  }

  /** A signature is spent by its first use, whoever uses it and for whatever vault. */
  lemma SignaturesAreSpentOnce(w: Wills, calls: seq<Event>, sigHash: Hash)
    requires sigHash in w.usedSignatures
    ensures sigHash in Run(w, calls).usedSignatures
    ensures forall c, owner, vault, willHash, expiresAt ::
              SignCall(Run(w, calls), c, owner, vault, willHash, sigHash, expiresAt).Err?
    ensures forall c, signatory, vault, expiresAt ::
              SignAsWitnessCall(Run(w, calls), c, signatory, vault, sigHash, expiresAt).Err?
  {
    SignaturesStaySpent(w, calls, sigHash);
  }

  // ---------- the contract object ----------

  class WillContract {
    var counts: map<PlanId, Version>
    var versions: map<(PlanId, Version), WillVersion>
    var active: map<PlanId, Version>
    var vaultWill: map<PlanId, Hash>
    var signatures: map<PlanId, Proof>
    var usedSignatures: set<Hash>
    var witnesses: map<PlanId, seq<Address>>
    var witnessSigned: map<(PlanId, Address), u64>
    var finalized: set<(PlanId, Version)>
    var finalizedAt: map<(PlanId, Version), u64>

    constructor ()
      ensures State() == NO_WILLS
    {
      counts, versions, active, vaultWill, signatures := map[], map[], map[], map[], map[];
      usedSignatures, witnesses, witnessSigned, finalized, finalizedAt := {}, map[], map[], {}, map[];
    }

    function State(): Wills
      reads this
    {
      Wills(counts, versions, active, vaultWill, signatures, usedSignatures, witnesses, witnessSigned, finalized,
            finalizedAt)
    }

    /** An empty outcome is success; an error leaves the storage as it was. */
    ghost predicate Performed(before: Wills, result: WillResult, r: Option<InheritanceError>)
      reads this
    {
      if result.Ok? then State() == result.value && r == None else State() == before && r == Some(result.error)
    }

    method LinkWillToVault(c: Context, owner: Address, vault: PlanId, willHash: Hash)
      returns (r: Option<InheritanceError>)
      modifies this
      ensures Performed(old(State()), LinkCall(old(State()), c, owner, vault, willHash), r)
    {
      var guard := OwnerCheck(c, owner, vault, VaultNotFound);
      if guard.Fail? {
        return Some(guard.error);
      }
      if vault in vaultWill {
        return Some(WillAlreadyLinked);
      }
      vaultWill := vaultWill[vault := willHash];
      r := None;
    }

    method CreateWillVersion(c: Context, owner: Address, vault: PlanId, willHash: Hash)
      returns (r: Option<InheritanceError>)
      modifies this
      ensures Performed(old(State()), VersionCall(old(State()), c, owner, vault, willHash), r)
    {
      var guard := OwnerCheck(c, owner, vault, PlanNotFound);
      if guard.Fail? {
        return Some(guard.error);
      }
      if vault in active && (vault, active[vault]) in finalized {
        return Some(WillAlreadyFinalized);
      }
      var count: Version := CountOf(State(), vault);
      if count == U32_MAX {
        return Some(Panicked);
      }
      var next: Version := count + 1;
      counts := counts[vault := next];
      if vault in active {
        var key := (vault, active[vault]);
        if key in versions {
          versions := versions[key := versions[key].(isActive := false)];
        }
      }
      versions := versions[(vault, next) := WillVersion(next, willHash, c.now, true)];
      active := active[vault := next];
      vaultWill := vaultWill[vault := willHash];
      r := None;
    }

    method SignWill(c: Context, owner: Address, vault: PlanId, willHash: Hash, sigHash: Hash, expiresAt: u64)
      returns (r: Option<InheritanceError>)
      modifies this
      ensures Performed(old(State()), SignCall(old(State()), c, owner, vault, willHash, sigHash, expiresAt), r)
    {
      var guard := OwnerCheck(c, owner, vault, PlanNotFound);
      if guard.Fail? {
        return Some(guard.error);
      }
      if c.now > expiresAt {
        return Some(Unauthorized);
      }
      if sigHash in usedSignatures {
        return Some(WillAlreadyFinalized);
      }
      usedSignatures := usedSignatures + {sigHash};
      signatures := signatures[vault := Proof(vault, willHash, owner, sigHash, c.now)];
      r := None;
    }

    method AddWitness(c: Context, owner: Address, vault: PlanId, signatory: Address)
      returns (r: Option<InheritanceError>)
      modifies this
      ensures Performed(old(State()), AddWitnessCall(old(State()), c, owner, vault, signatory), r)
    {
      var guard := OwnerCheck(c, owner, vault, PlanNotFound);
      if guard.Fail? {
        return Some(guard.error);
      }
      var list := WitnessesOf(State(), vault);
      for i := 0 to |list|
        invariant State() == old(State())
        invariant signatory !in list[..i]
      {
        if list[i] == signatory {
          return Some(EmergencyContactAlreadyExists);
        }
        assert list[..i + 1] == list[..i] + [list[i]];
      }
      assert list[..|list|] == list;
      witnesses := witnesses[vault := list + [signatory]];
      r := None;
    }

    method SignAsWitness(c: Context, signatory: Address, vault: PlanId, sigHash: Hash, expiresAt: u64)
      returns (r: Option<InheritanceError>)
      modifies this
      ensures Performed(old(State()), SignAsWitnessCall(old(State()), c, signatory, vault, sigHash, expiresAt), r)
    {
      if vault !in c.plans {
        return Some(PlanNotFound);
      }
      var list, found := WitnessesOf(State(), vault), false;
      for i := 0 to |list|
        invariant State() == old(State())
        invariant !found && signatory !in list[..i]
      {
        if list[i] == signatory {
          found := true;
          break;
        }
        assert list[..i + 1] == list[..i] + [list[i]];
      }
      if !found {
        assert list[..|list|] == list;
        return Some(EmergencyContactNotFound);
      }
      if c.now > expiresAt {
        return Some(Unauthorized);
      }
      if sigHash in usedSignatures || (vault, signatory) in witnessSigned {
        return Some(AlreadyApproved);
      }
      usedSignatures := usedSignatures + {sigHash};
      witnessSigned := witnessSigned[(vault, signatory) := c.now];
      r := None;
    }

    /** The flag is set first and taken back when a signature turns out to be missing. */
    method FinalizeWill(c: Context, owner: Address, vault: PlanId, version: Version)
      returns (r: Option<InheritanceError>)
      modifies this
      ensures Performed(old(State()), FinalizeCall(old(State()), c, owner, vault, version), r)
    {
      var guard := OwnerCheck(c, owner, vault, PlanNotFound);
      if guard.Fail? {
        return Some(guard.error);
      }
      if (vault, version) !in versions {
        return Some(WillVersionNotFound);
      }
      if (vault, version) in finalized {
        return Some(WillAlreadyFinalized);
      }
      ghost var before := finalized;
      finalized := finalized + {(vault, version)};
      if vault !in signatures {
        finalized := finalized - {(vault, version)};
        assert finalized == before;
        return Some(WillVersionNotFound);
      }
      var list := WitnessesOf(State(), vault);
      for i := 0 to |list|
        invariant State() == old(State()).(finalized := before + {(vault, version)})
        invariant forall k :: 0 <= k < i ==> (vault, list[k]) in witnessSigned
      {
        if (vault, list[i]) !in witnessSigned {
          assert list[i] in list;
          finalized := finalized - {(vault, version)};
          assert finalized == before;
          return Some(MissingRequiredField);
        }
      }
      finalizedAt := finalizedAt[(vault, version) := c.now];
      r := None;
    }
  }
}
