/** A batch of claims as the sequence of its entries: any split of it into two batches does the same. */
module BatchOrder {
  import opened MachineInts
  import opened PlanTypes
  import opened PlanLedger
  import opened PlanInvariants
  import opened ClaimTargets
  import PlanBooks
  import RankBlocking

  /** Progress that goes on from where another batch ended. */
  function Resumed(before: BatchProgress, after: BatchProgress): BatchProgress {
    BatchProgress(after.store, before.payments + after.payments, before.success + after.success,
                  before.fail + after.fail)
  }

  lemma EntryResumes(before: BatchProgress, p: BatchProgress, c: Context, planId: PlanId, entry: ClaimEntry)
    ensures ClaimOne(Resumed(before, p), c, planId, entry) == Resumed(before, ClaimOne(p, c, planId, entry))
  {
    if planId in p.store.plans {
      FindBeneficiaryInBounds(p.store.plans[planId].beneficiaries, entry, 0);
      var p' := ClaimOne(p, c, planId, entry);
      if p'.success > p.success {
        var paid := p'.payments[|p.payments|];
        assert p'.payments == p.payments + [paid];
        assert before.payments + (p.payments + [paid]) == (before.payments + p.payments) + [paid];
      }
    }
  }

  lemma NothingMore(before: BatchProgress)
    ensures Resumed(before, BatchProgress(before.store, [], 0, 0)) == before
  {
    assert before.payments + [] == before.payments;
  }

  /** A fold over a sequence, and what is known of `ClaimEach` through it. */
  ghost function Fold(f: (BatchProgress, ClaimEntry) -> BatchProgress, start: BatchProgress, entries: seq<ClaimEntry>)
    : BatchProgress
  {
    if entries == [] then start
    else f(Fold(f, start, entries[..|entries| - 1]), entries[|entries| - 1])
  }

  ghost function Claiming(c: Context, planId: PlanId): (BatchProgress, ClaimEntry) -> BatchProgress {
    (p: BatchProgress, entry: ClaimEntry) => ClaimOne(p, c, planId, entry)
  }

  lemma {:induction false} ClaimEachFolds(s: Store, c: Context, planId: PlanId, entries: seq<ClaimEntry>, k: nat)
    requires k <= |entries|
    ensures ClaimEach(s, c, planId, entries, k) ==
            Fold(Claiming(c, planId), BatchProgress(s, [], 0, 0), entries[..k])
    decreases k
  {
    if k > 0 {
      ClaimEachFolds(s, c, planId, entries, k - 1);
      assert entries[..k][..k - 1] == entries[..k - 1];
    }
  }

  lemma {:induction false} FoldAppends(f: (BatchProgress, ClaimEntry) -> BatchProgress, start: BatchProgress,
                                       xs: seq<ClaimEntry>, ys: seq<ClaimEntry>)
    ensures Fold(f, start, xs + ys) == Fold(f, Fold(f, start, xs), ys)
    decreases |ys|
  {
    if ys == [] {
      assert xs + ys == xs;
    } else {
      assert (xs + ys)[..|xs + ys| - 1] == xs + ys[..|ys| - 1];
      FoldAppends(f, start, xs, ys[..|ys| - 1]);
    }
  }

  /** Going on from somewhere makes no difference to what the entries do. */
  ghost predicate Resumes(f: (BatchProgress, ClaimEntry) -> BatchProgress, before: BatchProgress) {
    forall p, entry :: f(Resumed(before, p), entry) == Resumed(before, f(p, entry))
  }

  lemma {:induction false} FoldResumes(f: (BatchProgress, ClaimEntry) -> BatchProgress, before: BatchProgress,
                                       p: BatchProgress, ys: seq<ClaimEntry>)
    requires Resumes(f, before)
    ensures Fold(f, Resumed(before, p), ys) == Resumed(before, Fold(f, p, ys))
    decreases |ys|
  {
    if ys != [] {
      FoldResumes(f, before, p, ys[..|ys| - 1]);
    }
  }

  lemma ClaimingResumes(c: Context, planId: PlanId, before: BatchProgress)
    ensures Resumes(Claiming(c, planId), before)
  {
    forall p, entry
      ensures Claiming(c, planId)(Resumed(before, p), entry) == Resumed(before, Claiming(c, planId)(p, entry))
    {
      EntryResumes(before, p, c, planId, entry);
    }
  }

  lemma FoldSplits(f: (BatchProgress, ClaimEntry) -> BatchProgress, start: BatchProgress, xs: seq<ClaimEntry>,
                   ys: seq<ClaimEntry>, first: BatchProgress)
    requires first == Fold(f, start, xs) && Resumes(f, first)
    ensures Fold(f, start, xs + ys) == Resumed(first, Fold(f, BatchProgress(first.store, [], 0, 0), ys))
  {
    FoldAppends(f, start, xs, ys);
    NothingMore(first);
    FoldResumes(f, first, BatchProgress(first.store, [], 0, 0), ys);
  }

  lemma EntriesSplit(s: Store, c: Context, planId: PlanId, xs: seq<ClaimEntry>, ys: seq<ClaimEntry>)
    returns (p: BatchProgress, q: BatchProgress)
    ensures p == ClaimEach(s, c, planId, xs, |xs|) && q == ClaimEach(p.store, c, planId, ys, |ys|)
    ensures ClaimEach(s, c, planId, xs + ys, |xs + ys|) == Resumed(p, q)
  {
    p := ClaimEach(s, c, planId, xs, |xs|);
    q := ClaimEach(p.store, c, planId, ys, |ys|);
    WholeFolds(s, c, planId, xs);
    WholeFolds(p.store, c, planId, ys);
    WholeFolds(s, c, planId, xs + ys);
    ClaimingResumes(c, planId, p);
    FoldSplits(Claiming(c, planId), BatchProgress(s, [], 0, 0), xs, ys, p);
  }

  lemma WholeFolds(s: Store, c: Context, planId: PlanId, entries: seq<ClaimEntry>)
    ensures ClaimEach(s, c, planId, entries, |entries|) ==
            Fold(Claiming(c, planId), BatchProgress(s, [], 0, 0), entries)
  {
    ClaimEachFolds(s, c, planId, entries, |entries|);
    assert entries[..|entries|] == entries;
  }

  /** Once a batch went through, the automatic trigger has nothing left to do, and claims stay open. */
  lemma StaysOpen(s: Store, c: Context, planId: PlanId, xs: seq<ClaimEntry>)
    requires BatchClaimCall(s, c, planId, xs).Ok?
    ensures var mid := BatchClaimCall(s, c, planId, xs).value.store;
            && AutoTriggered(mid, c, planId) == mid
            && planId in mid.plans && mid.plans[planId].isActive && IsOpen(mid, c, planId)
  {
    var s1 := AutoTriggered(s, c, planId);
    BatchAcceptedIff(s, c, planId, xs);
    AutoTriggeredIs(s, c, planId);
    AutoTriggeredKeepsPlan(s, c, planId);
    TriggeredAfterIff(s, c, planId);
    PlanBooks.BatchTriggers(s1, c, planId, xs, |xs|);
    RankBlocking.EntriesKeepBeneficiaries(s1, c, planId, xs, |xs|);
  }

  function AnswerOf(p: BatchProgress): Effect {
    Effect(p.store, Counts(p.success, p.fail), p.payments, 0)
  }

  lemma BatchIs(s: Store, c: Context, planId: PlanId, entries: seq<ClaimEntry>)
    requires BatchClaimCall(s, c, planId, entries).Ok?
    ensures var p := ClaimEach(AutoTriggered(s, c, planId), c, planId, entries, |entries|);
            BatchClaimCall(s, c, planId, entries) == Ok(AnswerOf(p))
  {
  }

  /** Two batches in a row, put together: the storage of the second, all payments in order, counters that add. */
  ghost predicate InARow(first: Effect, second: Effect, whole: Effect) {
    && first.reply.Counts? && second.reply.Counts?
    && whole == Effect(second.store,
                       Counts(first.reply.success + second.reply.success, first.reply.fail + second.reply.fail),
                       first.payments + second.payments, 0)
  }

  lemma RowOf(p: BatchProgress, q: BatchProgress)
    ensures InARow(AnswerOf(p), AnswerOf(q), AnswerOf(Resumed(p, q)))
  {
  }

  /** An accepted batch does exactly what its two parts do one after the other. */
  lemma BatchSplits(s: Store, c: Context, planId: PlanId, xs: seq<ClaimEntry>, ys: seq<ClaimEntry>)
    requires BatchClaimCall(s, c, planId, xs + ys).Ok?
    ensures var first := BatchClaimCall(s, c, planId, xs);
            && first.Ok?
            && var second := BatchClaimCall(first.value.store, c, planId, ys);
               second.Ok? && InARow(first.value, second.value, BatchClaimCall(s, c, planId, xs + ys).value)
  {
    BatchAcceptedIff(s, c, planId, xs + ys);
    BatchAcceptedIff(s, c, planId, xs);
    StaysOpen(s, c, planId, xs);
    var mid := BatchClaimCall(s, c, planId, xs).value.store;
    BatchAcceptedIff(mid, c, planId, ys);
    BatchIs(s, c, planId, xs);
    BatchIs(mid, c, planId, ys);
    BatchIs(s, c, planId, xs + ys);
    var p, q := EntriesSplit(AutoTriggered(s, c, planId), c, planId, xs, ys);
    RowOf(p, q);
  }

  lemma EntryCounted(p: BatchProgress, c: Context, planId: PlanId, entry: ClaimEntry)
    ensures var p' := ClaimOne(p, c, planId, entry);
            && p'.success - p.success == |p'.payments| - |p.payments|
            && 1 <= p'.success + p'.fail - (p.success + p.fail) <= if entry.codeInRange then 1 else 2
  {
    if planId in p.store.plans {
      FindBeneficiaryInBounds(p.store.plans[planId].beneficiaries, entry, 0);
      FoundFrom(p.store.plans[planId].beneficiaries, entry, 0);
    }
  }

  /** Every entry is counted: once, or twice where its code is malformed. */
  lemma {:induction false} EntriesCounted(s: Store, c: Context, planId: PlanId, entries: seq<ClaimEntry>, k: nat)
    requires k <= |entries|
    ensures var p := ClaimEach(s, c, planId, entries, k);
            && p.success == |p.payments|
            && k <= p.success + p.fail <= 2 * k
            && ((forall i :: 0 <= i < k ==> entries[i].codeInRange) ==> p.success + p.fail == k)
    decreases k
  {
    if k > 0 {
      EntriesCounted(s, c, planId, entries, k - 1);
      EntryCounted(ClaimEach(s, c, planId, entries, k - 1), c, planId, entries[k - 1]);
    }
  }
}
