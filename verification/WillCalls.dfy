/**
 What each call on the will registry does, exactly when it is accepted, and which calls everything on record comes
 from (contracts/inheritance-contract/src/gas_optimization.rs).
 */
module WillCalls {
  import opened MachineInts
  import opened ContractErrors
  import opened PlanTypes
  import W = WillRegistry

  predicate OwnsVault(c: W.Context, owner: Address, vault: PlanId) {
    vault in c.plans && c.plans[vault].owner == owner
  }

  /** The active version is final. */
  predicate IsClosed(w: W.Wills, vault: PlanId) {
    vault in w.active && (vault, w.active[vault]) in w.finalized
  }

  function VersionCount(w: W.Wills, vault: PlanId): nat {
    if vault in w.counts then w.counts[vault] else 0
  }

  function Witnesses(w: W.Wills, vault: PlanId): seq<Address> {
    if vault in w.witnesses then w.witnesses[vault] else []
  }

  // ---------- effects ----------

  /** A will is linked once, by the owner. */
  lemma LinkEffect(w: W.Wills, c: W.Context, owner: Address, vault: PlanId, willHash: W.Hash)
    ensures var r := W.LinkCall(w, c, owner, vault, willHash);
            && (r.Ok? <==> OwnsVault(c, owner, vault) && vault !in w.vaultWill)
            && (r.Ok? ==> r.value == w.(vaultWill := w.vaultWill[vault := willHash]))
            && (vault in c.plans && !OwnsVault(c, owner, vault) ==> r == Err(Unauthorized))
  {
  }

  /** The version asked for, under the next number; the one before it, if any, is switched off. */
  ghost predicate NewVersion(w: W.Wills, w': W.Wills, now: u64, vault: PlanId, willHash: W.Hash) {
    var n := VersionCount(w, vault);
    && n < U32_MAX
    && var next: W.Version := n + 1;
       && (vault, next) in w'.versions && w'.versions[(vault, next)] == W.WillVersion(next, willHash, now, true)
       && (forall key :: key != (vault, next) ==> (key in w'.versions <==> key in w.versions))
       && (forall key <- w.versions :: key != (vault, next) ==>
             w'.versions[key] == if n > 0 && key == (vault, n as W.Version) then w.versions[key].(isActive := false)
                                 else w.versions[key])
       && w' == w.(counts := w.counts[vault := next], versions := w'.versions, active := w.active[vault := next],
                   vaultWill := w.vaultWill[vault := willHash])
  }

  lemma VersionEffect(w: W.Wills, c: W.Context, owner: Address, vault: PlanId, willHash: W.Hash)
    requires W.Valid(w)
    ensures var r := W.VersionCall(w, c, owner, vault, willHash);
            && (r.Ok? <==> OwnsVault(c, owner, vault) && !IsClosed(w, vault) && VersionCount(w, vault) < U32_MAX)
            && (r.Ok? ==> NewVersion(w, r.value, c.now, vault, willHash))
            && (vault in c.plans && !OwnsVault(c, owner, vault) ==> r == Err(Unauthorized))
  {
    assert W.VersionsOk(w, vault);
  }

  /** A fresh and timely signature of the owner becomes the vault's proof. */
  lemma SignEffect(w: W.Wills, c: W.Context, owner: Address, vault: PlanId, willHash: W.Hash, sigHash: W.Hash,
                   expiresAt: u64)
    ensures var r := W.SignCall(w, c, owner, vault, willHash, sigHash, expiresAt);
            && (r.Ok? <==> OwnsVault(c, owner, vault) && c.now <= expiresAt && sigHash !in w.usedSignatures)
            && (r.Ok? ==>
                  r.value == w.(usedSignatures := w.usedSignatures + {sigHash},
                                signatures := w.signatures[vault := W.Proof(vault, willHash, owner, sigHash, c.now)]))
  {
  }

  /** The owner lists each witness once. */
  lemma WitnessEffect(w: W.Wills, c: W.Context, owner: Address, vault: PlanId, signatory: Address)
    ensures var r := W.AddWitnessCall(w, c, owner, vault, signatory);
            && (r.Ok? <==> OwnsVault(c, owner, vault) && signatory !in Witnesses(w, vault))
            && (r.Ok? ==> r.value == w.(witnesses := w.witnesses[vault := Witnesses(w, vault) + [signatory]]))
  {
  }

  /** A listed witness signs once, freshly and in time. */
  lemma WitnessSigningEffect(w: W.Wills, c: W.Context, signatory: Address, vault: PlanId, sigHash: W.Hash,
                             expiresAt: u64)
    ensures var r := W.SignAsWitnessCall(w, c, signatory, vault, sigHash, expiresAt);
            && (r.Ok? <==>
                && vault in c.plans && signatory in Witnesses(w, vault) && c.now <= expiresAt
                && sigHash !in w.usedSignatures && (vault, signatory) !in w.witnessSigned)
            && (r.Ok? ==>
                  r.value == w.(usedSignatures := w.usedSignatures + {sigHash},
                                witnessSigned := w.witnessSigned[(vault, signatory) := c.now]))
  {
  }

  /** The owner closes an existing open version once a proof and every listed witness's signature are there. */
  lemma FinalizationEffect(w: W.Wills, c: W.Context, owner: Address, vault: PlanId, version: W.Version)
    ensures var r := W.FinalizeCall(w, c, owner, vault, version);
            && (r.Ok? <==>
                && OwnsVault(c, owner, vault) && (vault, version) in w.versions && (vault, version) !in w.finalized
                && vault in w.signatures
                && forall a <- Witnesses(w, vault) :: (vault, a) in w.witnessSigned)
            && (r.Ok? ==>
                  r.value == w.(finalized := w.finalized + {(vault, version)},
                                finalizedAt := w.finalizedAt[(vault, version) := c.now]))
  {
  }

  // ---------- where records come from ----------

  predicate Accepted(w: W.Wills, calls: seq<W.Event>, i: nat)
    requires i < |calls|
  {
    W.Invoke(W.Run(w, calls[..i]), calls[i].0, calls[i].1).Ok?
  }

  /** The owner's call that created the version with this hash at this time. */
  predicate Creates(w: W.Wills, c: W.Context, op: W.Op, vault: PlanId, record: W.WillVersion) {
    && op.CreateVersion? && op.vault == vault && op.willHash == record.willHash && OwnsVault(c, op.owner, vault)
    && c.now == record.createdAt && record.version == VersionCount(w, vault) + 1
  }

  lemma NewRecord(w: W.Wills, c: W.Context, op: W.Op, vault: PlanId, version: W.Version)
    requires W.Valid(w) && (vault, version) !in w.versions && (vault, version) in W.Step(w, c, op).versions
    ensures W.Invoke(w, c, op).Ok? && Creates(w, c, op, vault, W.Step(w, c, op).versions[(vault, version)])
  {
    if op.CreateVersion? {
      VersionEffect(w, c, op.owner, op.vault, op.willHash);
    }
  }

  lemma RecordStays(w: W.Wills, c: W.Context, op: W.Op, vault: PlanId, version: W.Version)
    requires W.Valid(w) && (vault, version) in w.versions
    ensures W.SameRecord(w, W.Step(w, c, op), vault, version)
  {
    assert W.VersionsOk(w, op.vault);
    W.StepKeepsRecord(w, c, op, vault, version);
  }

  /** From deployment: every version on record has the hash and the time of one accepted call of the plan's owner. */
  lemma {:induction false} VersionsAreCreated(calls: seq<W.Event>, vault: PlanId, version: W.Version) returns (i: nat)
    requires (vault, version) in W.Run(W.NO_WILLS, calls).versions
    ensures i < |calls| && Accepted(W.NO_WILLS, calls, i)
    ensures Creates(W.Run(W.NO_WILLS, calls[..i]), calls[i].0, calls[i].1, vault,
                    W.Run(W.NO_WILLS, calls).versions[(vault, version)])
  {
    var n := |calls| - 1;
    var before := W.Run(W.NO_WILLS, calls[..n]);
    W.NoWillsValid();
    W.RunKeepsValid(W.NO_WILLS, calls[..n]);
    if (vault, version) in before.versions {
      i := VersionsAreCreated(calls[..n], vault, version);
      assert calls[..n][..i] == calls[..i];
      RecordStays(before, calls[n].0, calls[n].1, vault, version);
    } else {
      i := n;
      NewRecord(before, calls[n].0, calls[n].1, vault, version);
    }
  }

  /** The witness's own call, while listed, at this time. */
  predicate Witnessed(w: W.Wills, c: W.Context, op: W.Op, vault: PlanId, signatory: Address, at: u64) {
    && op.SignAsWitness? && op.vault == vault && op.signatory == signatory && c.now == at
    && signatory in Witnesses(w, vault) && at <= op.expiresAt && op.sigHash !in w.usedSignatures
  }

  lemma NewWitnessSignature(w: W.Wills, c: W.Context, op: W.Op, vault: PlanId, signatory: Address)
    requires (vault, signatory) !in w.witnessSigned && (vault, signatory) in W.Step(w, c, op).witnessSigned
    ensures W.Invoke(w, c, op).Ok?
    ensures Witnessed(w, c, op, vault, signatory, W.Step(w, c, op).witnessSigned[(vault, signatory)])
  {
    if op.SignAsWitness? {
      WitnessSigningEffect(w, c, op.signatory, op.vault, op.sigHash, op.expiresAt);
    }
  }

  lemma WitnessSignatureStays(w: W.Wills, c: W.Context, op: W.Op, vault: PlanId, signatory: Address)
    requires (vault, signatory) in w.witnessSigned
    ensures (vault, signatory) in W.Step(w, c, op).witnessSigned
    ensures W.Step(w, c, op).witnessSigned[(vault, signatory)] == w.witnessSigned[(vault, signatory)]
  {
  }

  /** From deployment: every witness signature on record was made by that witness, while listed, at its time. */
  lemma {:induction false} WitnessesSignThemselves(calls: seq<W.Event>, vault: PlanId, signatory: Address)
    returns (i: nat)
    requires (vault, signatory) in W.Run(W.NO_WILLS, calls).witnessSigned
    ensures i < |calls| && Accepted(W.NO_WILLS, calls, i)
    ensures Witnessed(W.Run(W.NO_WILLS, calls[..i]), calls[i].0, calls[i].1, vault, signatory,
                      W.Run(W.NO_WILLS, calls).witnessSigned[(vault, signatory)])
  {
    var n := |calls| - 1;
    var before := W.Run(W.NO_WILLS, calls[..n]);
    if (vault, signatory) in before.witnessSigned {
      i := WitnessesSignThemselves(calls[..n], vault, signatory);
      assert calls[..n][..i] == calls[..i];
      WitnessSignatureStays(before, calls[n].0, calls[n].1, vault, signatory);
    } else {
      i := n;
      NewWitnessSignature(before, calls[n].0, calls[n].1, vault, signatory);
    }
  }

  lemma NewWitness(w: W.Wills, c: W.Context, op: W.Op, vault: PlanId, signatory: Address)
    requires signatory !in Witnesses(w, vault) && signatory in Witnesses(W.Step(w, c, op), vault)
    ensures W.Invoke(w, c, op).Ok?
    ensures op.AddWitness? && op.vault == vault && op.signatory == signatory && OwnsVault(c, op.owner, vault)
  {
    if op.AddWitness? {
      WitnessEffect(w, c, op.owner, op.vault, op.signatory);
    }
  }

  /** From deployment: every listed witness was listed by the plan's owner. */
  lemma {:induction false} WitnessesAreListed(calls: seq<W.Event>, vault: PlanId, signatory: Address) returns (i: nat)
    requires signatory in Witnesses(W.Run(W.NO_WILLS, calls), vault)
    ensures i < |calls| && Accepted(W.NO_WILLS, calls, i)
    ensures var op := calls[i].1;
            && op.AddWitness? && op.vault == vault && op.signatory == signatory
            && OwnsVault(calls[i].0, op.owner, vault)
  {
    var n := |calls| - 1;
    var before := W.Run(W.NO_WILLS, calls[..n]);
    if signatory in Witnesses(before, vault) {
      i := WitnessesAreListed(calls[..n], vault, signatory);
      assert calls[..n][..i] == calls[..i];
    } else {
      i := n;
      NewWitness(before, calls[n].0, calls[n].1, vault, signatory);
    }
  }
}
