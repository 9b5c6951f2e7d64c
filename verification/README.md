# Verified model of the inheritance system

Dafny models of the parts of this repository where money, ownership and finality are decided, with
proofs of what those parts promise. `dafny verify dfyconfig.toml` checks all of it.

**Yield arithmetic.** `GrowthLadder` is the theory of the squaring ladder that `yield_math.rs` (u64 and
u128) and `safe_math.rs` (i128) share: truncating products at scale 10^12, checked against a bound.
`YieldMath` and `SafeMath` are the two files themselves. The main results are the two-sided rounding
error, monotonicity in the exponent across different rounding paths, the exact Bernoulli inequality, and
the agreement of the two implementations. `GrowthBounds` puts every amount and rate that they return
between exact powers.

**Inheritance contract.** `PlanTypes` holds the data, `PlanLedger` says what each of the nineteen entry
points that write a plan does to storage, and `InheritanceContract` is the contract as it runs: a class
whose methods read, loop over, change and write back storage, each proved against its function in
`PlanLedger`. A call that ends with an error or a trap leaves storage as it was, because the host reverts
it. Three layers of results rest on that.

- Single calls: `OwnerCalls`, `PlanCreation`, `MoneyCalls` and `ClaimTargets` say for each entry point who
  may call it, exactly when it is accepted and what it leaves, in the fields of storage, and `Refusals`
  that the error of a refusal names something that is really so.
  `BeneficiaryRules` says what validation, fee and batch removal mean, `BatchOrder` that a batch of claims
  is its entries in a row, `PlanRoundTrips` which calls undo each other.
- Runs: `PlanInvariants` proves the invariant of every call, `PlanRuns` conservation over every run,
  `PlanTokens` the same token by token, `PlanBooks` for each plan and each wallet. `TriggerHistory` is what
  a trigger fixes for good, `PlanLending` what it means for the lendable flag, and `PlanStanding` what
  nobody can do to a plan without its owner.
- Claims over runs: `PlanClaims` proves that nobody is paid twice, `ClaimResidue` how far claim order can
  matter, `BatchClaims` what a batch leaves unchecked, `RankBlocking` whom it holds up.

`WillRegistry` and `LegacyMessages` do the same for will versions and for messages with their per-vault
index, with `WillCalls` and `MessageCalls` for single calls and for where each record comes from.

**Loan NFT.** `LoanNft` proves that balances and supply are counts of the owner table in every run;
`LoanTransfers` what each call does and that no loan leaves its owner without consent or a burn.

**Backend.** `StellarReader` proves that the loan reader returns the contract's own loan balance in every
run. `Watchdog` is the trigger protocol of many workers against one database and one contract, as a state
machine with crashes, `WatchdogSteps` what moves a row in it, and `LostTriggers` how it can lose a trigger;
`TriggerRetry` is one worker's retry loop and its recording of a batch. `PayoutSplit` covers the allocation
checks and the two payout loops, `RateLimiter` the request limiter.

Eight findings where the code differs from what one might expect of it, each with its exact condition:

- The creation fee is documented as 2%. When `total_amount * 200` overflows u64 the code falls back to a
  fee of zero. The model follows the code; `BeneficiaryRules.CreationFeeMeaning` gives the exact bound.
- A single claim writes back the plan copy that it read before the automatic trigger, so a claim that
  triggers leaves the plan unlendable exactly when it was so before
  (`PlanLending.TriggeringClaimUnlendsIff`; `PlanLending.ClaimLeavesTriggeredPlanLendable` is a run from
  deployment that ends triggered and lendable). A batch of claims reads the plan again and always leaves
  it unlendable (`PlanLending.TriggeringBatchUnlends`).
- A plan does not record the token it was created with, and deposits and withdrawals take any token. The
  books of every token balance exactly while they name the plan's own (`PlanTokens.BooksKeptIffAtHome`);
  `PlanTokens.ForeignWithdrawalUncovers` is a run that leaves another plan uncovered.
- A batch of claims looks at no freeze of a beneficiary, no rank and no liquidity, all of which a single claim
  checks (`BatchClaims.BatchIgnoresRanks`). `BatchClaims.BatchSkipsChecks` says exactly when the two differ,
  `BatchClaims.BatchUncoversIff` when a batch leaves more loaned than the plan holds, and
  `BatchClaims.BatchPaysFrozenHeir` is a case one creation after deployment.
- A batch records a claim without marking the beneficiary, and the record keeps it from ever being marked. On a
  waterfall plan the lower ranks' single claims are then refused for good, until the owner removes or reranks
  somebody (`RankBlocking.BatchBlocksLowerRanks`); after a single claim they are not
  (`RankBlocking.ClaimUnblocks`).
- A will version can become final on a proof for another hash. It has its own proof exactly when the vault's
  latest accepted signing named its hash (`WillRegistry.FinalizedHashWasSignedIff`,
  `WillRegistry.StrayProofFinalizes`).
- A plan can be triggered on-chain while its row reads TRIGGER_FAILED for good, because workers mark a failed
  task without asking the contract (`LostTriggers.FailsIff`, `LostTriggers.LostIsFinal`);
  `LostTriggers.CrashLosesTrigger` is such a run. The other direction holds in every run of workers that have a
  signer (`Watchdog.PaidStatusIsBacked`).
- `max_requests` bounds every interval as long as a window exactly when it is at most one or the window has
  at most one tick (`RateLimiter.LimitHoldsIff`). In general twice that many, less one, can pass across a
  window's end, and no more (`RateLimiter.IntervalAdmitsUnderTwoWindows`, `RateLimiter.BoundIsMet`).

Assumptions that the statements share:

- Hashes are injective, so hashed fields stand for their preimages. A supplied claim code is represented
  by the set of stored codes that it matches and by whether it has six digits.
- What a call reads outside the modelled tables (clock, pause flag, KYC, freezes and legal holds,
  emergency access, roles, trigger conditions, the claim-attempt limit) is a `Context` that may differ on
  every call, so every result holds whatever those are. Signing is part of being the named caller; the
  loan NFT ledger carries the set of signers explicitly.
- Tokens are honest: a transfer moves the amount exactly when the sender holds it. For conservation the
  contract account signs for nobody and is not the admin.
- `total_loaned` is never raised by the modelled calls, so the results about loans start from any valid
  storage, with any loaned balance at the time of the trigger.
- Nobody but the contract can emit its trigger events (`Watchdog.Authentic`). That they tell the truth is
  proved: `Watchdog.EmitsIffTriggers`, `Watchdog.ChainCallKeepsChainOk`.

## Model

| member | source | states |
|---|---|---|
| `YieldMath.PowFactor` | contracts/inheritance-contract/src/yield_math.rs:233-256 | the loop returns what the squaring ladder leaves, with the same cap and the same overflow errors |
| `YieldMath.PowFactorRoundingError` | contracts/inheritance-contract/src/yield_math.rs:224-256 | for a base of at least one: never above the exact power, and below it by at most exponent - 1 single roundings; both sides in integers, for every exponent |
| `YieldMath.PowFactorMonotone` | contracts/inheritance-contract/src/yield_math.rs:233-256 | monotone in the base, and for bases of at least one in the exponent, across different rounding paths; the smaller call succeeds whenever the larger does |
| `YieldMath.MonotoneInExponentIffAtLeastOne` | contracts/inheritance-contract/src/yield_math.rs:233-256 | the factor never falls with the exponent if and only if the base is at least one, for every base |
| `YieldMath.ProjectionMonotone` | contracts/inheritance-contract/src/yield_math.rs:302-319 | the daily projection never falls as principal, rate or days grow, the early returns for zero arguments included |
| `YieldMath.PowFactorBeatsSimple` | contracts/inheritance-contract/src/yield_math.rs:224-256 | a truncated power of S + d is at least S + n*d, exactly |
| `YieldMath.CompoundInterestBeatsSimple` | contracts/inheritance-contract/src/yield_math.rs:262-298 | every accepted compound interest is at least the floor of principal * rate * periods / 10000 |
| `YieldMath.EffectiveApyAtLeastNominal` | contracts/inheritance-contract/src/yield_math.rs:333-346 | an effective rate exists if and only if the nominal one is within the cap, so nothing overflows on the way, and it is never below the nominal one, although the daily factor and the final division both truncate |
| `GrowthBounds.CompoundAmountBounds` | contracts/inheritance-contract/src/yield_math.rs:262-287 | an accepted compound amount is at most principal * (1 + rate/10000)^n exactly, and less than one unit and n - 1 single roundings below it; integers on both sides, for every principal, rate and number of periods |
| `GrowthBounds.OnePeriod` | contracts/inheritance-contract/src/yield_math.rs:262-287 | over one period it is accepted exactly when the rate is within the cap and the sum fits u64, and it is principal + principal * rate / 10000, rounded down once |
| `GrowthBounds.CompoundInterestIsGrowth` | contracts/inheritance-contract/src/yield_math.rs:291-298 | compound interest is accepted whenever the amount is, and is exactly what the amount adds to the principal, so it has the same bounds |
| `GrowthBounds.CompoundAmountAccepted` | contracts/inheritance-contract/src/yield_math.rs:224-287 | beyond the caps it is always refused; within them it is accepted wherever the exact amount fits u64 and the exact growth leaves room in u128 at scale squared |
| `GrowthBounds.ProjectionBounds` | contracts/inheritance-contract/src/yield_math.rs:302-319 | a daily projection lies between the exact power of its daily rate and that less the roundings |
| `GrowthBounds.ProjectionAccepted` | contracts/inheritance-contract/src/yield_math.rs:224-319 | the same for the daily projection |
| `GrowthBounds.EffectiveApyAtMostExact` | contracts/inheritance-contract/src/yield_math.rs:333-346 | the effective rate never exceeds what a year of exact daily compounding adds |
| `GrowthLadder.LadderMonotone` | contracts/inheritance-contract/src/yield_math.rs:224-256 | from larger factors the ladder ends larger, and an overflow of the smaller run implies one of the larger |
| `GrowthLadder.LadderCarry` | contracts/inheritance-contract/src/yield_math.rs:224-256 | adding one to the exponent carries through its trailing ones without lowering the result, although every rounding moves |
| `GrowthLadder.LadderMonotoneInExponent` | contracts/inheritance-contract/src/yield_math.rs:224-256 | any two exponents are ordered as their results are |
| `GrowthLadder.LadderBeatsSimple` | contracts/inheritance-contract/src/yield_math.rs:224-256 | from any loop state: the result keeps simple growth plus the scaled cross term of the last product |
| `GrowthLadder.ApproximationsMultiply` | contracts/inheritance-contract/src/yield_math.rs:224-226 | one truncating product of two approximations of base^j and base^k approximates base^(j+k) with one rounding more |
| `GrowthLadder.LadderApproximates` | contracts/inheritance-contract/src/yield_math.rs:224-256 | from any loop state: folded bits and accumulator approximate their exact powers, so the result does |
| `SafeMath.MulDivIsScaled` | contracts/inheritance-contract/src/safe_math.rs:64-66 | on non-negative operands the signed product and truncating division are the ladder's product bounded by i128 |
| `SafeMath.PowFactor` | contracts/inheritance-contract/src/safe_math.rs:84-101 | the signed loop computes the same ladder, bounded by i128 |
| `SafeMath.LadderUnderLargerBound` | contracts/inheritance-contract/src/safe_math.rs:84-101 | a ladder that fits the smaller bound computes the same value under the larger one |
| `SafeMath.ImplementationsAgree` | contracts/inheritance-contract/src/safe_math.rs:124-143 | for every u64 principal, rate and elapsed time: within the caps the unsigned projection returns the signed yield exactly when it fits u64, and the signed one differs only by overflowing first; outside the caps the unsigned one refuses |
| `SafeMath.AccruedInterestAtLeastSimple` | contracts/inheritance-contract/src/safe_math.rs:146-155 | accrued interest is never negative and at least the truncated simple daily interest |
| `GrowthBounds.CompoundYieldBounds` | contracts/inheritance-contract/src/safe_math.rs:124-143 | the signed projection refuses negative amounts and otherwise lies within the same bounds, with a day for every 86400 seconds, at any rate and over any time |
| `GrowthBounds.CompoundYieldAccepted` | contracts/inheritance-contract/src/safe_math.rs:84-143 | the same for the signed projection, which has no caps and the room of i128 |
| `GrowthBounds.AccruedInterestBounds` | contracts/inheritance-contract/src/safe_math.rs:146-155 | accrued interest is never negative, and principal plus interest lies within those bounds |
| `BeneficiaryList.SwapRemoveEffect` | contracts/inheritance-contract/src/gas_optimization.rs:1674-1731 | swap-remove drops exactly one element, keeps everything before the hole, and lowers the sum by its share |
| `BeneficiaryList.TotalFollowsRemovals` | contracts/inheritance-contract/src/gas_optimization.rs:5045-5127 | the total that the removal loop carries along with saturating subtraction stays the exact sum of what is left |
| `BeneficiaryList.NamedBelowMembers` | contracts/inheritance-contract/src/gas_optimization.rs:5058-5074 | the removal order names exactly the valid indices, strictly falling |
| `BeneficiaryList.FallingIsUnique` | contracts/inheritance-contract/src/gas_optimization.rs:5075-5092 | only one falling order has a given set of positions, so the exchange sort yields the specified one |
| `BeneficiaryList.RemovalLeavesUnnamed` | contracts/inheritance-contract/src/gas_optimization.rs:5093-5110 | removing from high to low leaves exactly the multiset of unnamed positions, whatever the swaps moved |
| `BeneficiaryRules.BatchRemovalExact` | contracts/inheritance-contract/src/gas_optimization.rs:5045-5127 | for any index list, duplicates and out-of-range included: what remains is exactly the unnamed beneficiaries, success counts the distinct valid indices, success + fail is the list length |
| `BeneficiaryRules.ScanAccepts` | contracts/inheritance-contract/src/gas_optimization.rs:1278-1326 | the validation scan accepts a prefix exactly when it breaks no rule and its sum fits u32 |
| `BeneficiaryRules.ValidationMeaning` | contracts/inheritance-contract/src/gas_optimization.rs:1278-1326 | accepted if and only if: one to ten named beneficiaries, distinct e-mails, distinct non-zero priorities, shares of exactly 100% |
| `BeneficiaryRules.CreationFeeMeaning` | contracts/inheritance-contract/src/gas_optimization.rs:1785-1796 | the fee never exceeds the amount, is the advertised 2% exactly when amount <= u64::MAX / 200, and zero above |
| `BeneficiaryRules.LargePlansPayNoFee` | contracts/inheritance-contract/src/gas_optimization.rs:1785-1796 | a concrete amount above that bound pays no fee: the checked product overflows and the code falls back to zero |
| `BeneficiaryRules.CreationSplitsAmount` | contracts/inheritance-contract/src/gas_optimization.rs:1785-1907 | an accepted creation stores a plan whose balance plus the fee is the amount, with consistent shares; in the wallets the owner pays the amount, the admin gets the fee and the contract the rest, an owner who is the admin included, and nobody else's tokens move |
| `PlanCreation.BuiltIff` | contracts/inheritance-contract/src/gas_optimization.rs:1206-1246 | the beneficiaries of a creation can be built exactly when every input is complete, and each comes from the input at its position, unclaimed |
| `PlanCreation.CreationAcceptedIff` | contracts/inheritance-contract/src/gas_optimization.rs:1759-1852 | a creation is accepted exactly when: not paused, owner with KYC, an admin set, a positive amount that the owner holds, a name and a description within bounds, heirs that meet every rule, and an id left |
| `PlanCreation.CreationFounds` | contracts/inheritance-contract/src/gas_optimization.rs:1853-1907 | it stores, under the next id and at the end of the owner's list, just the plan it was asked for, with the amount less the fee and nothing on loan |
| `OwnerCalls.OnlyTheOwner` | contracts/inheritance-contract/src/gas_optimization.rs:1588-5809 | each of the twelve calls of an owner is accepted only from the stored owner of an existing plan; anybody else gets Unauthorized, and PlanNotFound without a plan, after the refusals that come before |
| `OwnerCalls.AdditionEffect` | contracts/inheritance-contract/src/gas_optimization.rs:1588-1657 | accepted exactly when complete and within ten heirs and 10000 basis points; then that heir joins at the end and nothing else of storage changes |
| `OwnerCalls.RemovalEffect` | contracts/inheritance-contract/src/gas_optimization.rs:1674-1731 | accepted exactly for an existing position, which the last heir then takes over; only its share leaves the total |
| `OwnerCalls.AdditionsSplit` | contracts/inheritance-contract/src/gas_optimization.rs:4975-5043 | a batch of additions does what its two parts do one after the other, and counts what they count |
| `OwnerCalls.OneAdditionInBatch` | contracts/inheritance-contract/src/gas_optimization.rs:4975-5043 | a batch of one adds exactly what a single addition would, counts instead of refusing, and traps exactly when the sum of shares overflows u32 |
| `OwnerCalls.OneRemovalInBatch` | contracts/inheritance-contract/src/gas_optimization.rs:5045-5127 | a batch of one removes exactly what a single removal would, and counts a position that does not exist |
| `OwnerCalls.ResharingEffect` | contracts/inheritance-contract/src/gas_optimization.rs:5129-5171 | accepted exactly for as many positive shares as heirs that sum to 10000; then heir i has share i and nothing else of it changes |
| `OwnerCalls.RankingEffect` | contracts/inheritance-contract/src/gas_optimization.rs:2091-2137 | accepted exactly for a positive rank that no other heir holds; only that rank changes |
| `OwnerCalls.SettingEffect` | contracts/inheritance-contract/src/gas_optimization.rs:1909-2174 | the lendable flag and the waterfall switch need the owner alone and change one field |
| `OwnerCalls.DeactivationEffect` | contracts/inheritance-contract/src/gas_optimization.rs:2583-2629 | an active plan of the caller becomes inactive and is appended to the deactivated list, and nothing else changes |
| `OwnerCalls.HandoverEffect` | contracts/inheritance-contract/src/gas_optimization.rs:5750-5809 | accepted exactly for the owner of an untriggered, unfrozen plan; owner and lists change and nothing else |
| `MoneyCalls.DepositAcceptedIff` | contracts/inheritance-contract/src/gas_optimization.rs:1935-2002 | a deposit is accepted exactly when: not paused, a positive amount that the owner holds, an active unfrozen plan of the caller, and a sum that fits u64 |
| `MoneyCalls.DepositEffect` | contracts/inheritance-contract/src/gas_optimization.rs:1977-2002 | the amount leaves the caller's wallet for the contract and the plan, and nothing else changes |
| `MoneyCalls.WithdrawalAcceptedIff` | contracts/inheritance-contract/src/gas_optimization.rs:2004-2078 | a withdrawal is accepted exactly when: not paused, the caller owns the unfrozen plan, the amount is positive and within what is not on loan, within a tenth of the balance during an emergency, and the contract holds it |
| `MoneyCalls.WithdrawalEffect` | contracts/inheritance-contract/src/gas_optimization.rs:2060-2089 | the amount leaves plan and contract for the caller's wallet, and nothing else changes |
| `MoneyCalls.TriggerEffect` | contracts/inheritance-contract/src/gas_optimization.rs:3557-3661 | a trigger is accepted exactly from the admin, the owner or the plan's contact, for an active, unfrozen plan without a record; Unauthorized exactly from anybody else; the record it writes is spelled out |
| `MoneyCalls.AutoTriggerEffect` | contracts/inheritance-contract/src/gas_optimization.rs:3498-3538 | the automatic trigger case by case: nothing to do, an error, or the same record |
| `MoneyCalls.RecallEffect` | contracts/inheritance-contract/src/gas_optimization.rs:3682-3730 | a recall is the admin's, of at most what is on loan; it moves the amount from the loans to the recalled amount of the record and touches nothing else |
| `MoneyCalls.LiquidationEffect` | contracts/inheritance-contract/src/gas_optimization.rs:3750-3796 | a liquidation settles all loans, takes them off the balance as far as it reaches, and writes off exactly the lesser of the two |
| `MoneyCalls.SettlementsNeverTrap` | contracts/inheritance-contract/src/gas_optimization.rs:3682-3796 | in valid storage neither addition overflows, so the admin's checks alone decide |
| `PlanBooks.PlanBooksBalance` | contracts/inheritance-contract/src/gas_optimization.rs:1935-3796 | over every run: a plan's balance is what it was, plus the deposits in it, less withdrawals, lost loans and claims, amount by amount as the calls named them; its loans are what they were less recalls and settlements, and its record has counted just those |
| `PlanBooks.WalletsBalance` | contracts/inheritance-contract/src/gas_optimization.rs:1810-2080 | over every run: an account's balance of any token is what it was, plus its own withdrawals and the fees it got as admin, less its own creations and deposits, so no wallet falls without a call of its own |
| `PlanStanding.PlanStandsWithoutItsOwner` | contracts/inheritance-contract/src/gas_optimization.rs:1588-5809 | over every run in which the owner does nothing with the plan: whatever everybody else and the admin do, its owner, heirs, shares, ranks, terms and status stay, and balance and loans never grow |
| `Refusals.RefusalsAreTruthful` | contracts/inheritance-contract/src/gas_optimization.rs:1588-5809 | whichever of the nineteen calls is refused: the error it returns names a condition on storage, context and call that really holds |
| `Refusals.CreationRefuses` | contracts/inheritance-contract/src/gas_optimization.rs:1759-1873 | the same for a creation, down to the rules on its heirs |
| `Refusals.ClaimRefuses` | contracts/inheritance-contract/src/gas_optimization.rs:2245-2404 | the same for a single claim, of the very beneficiary that it names |
| `PlanInvariants.DeployedValid` | contracts/inheritance-contract/src/gas_optimization.rs:1759-1907 | a new contract, whatever tokens anybody holds, satisfies the plan invariant |
| `PlanInvariants.ScannedTotal` | contracts/inheritance-contract/src/gas_optimization.rs:1278-1326 | the shares that were validated are the shares that are stored |
| `PlanInvariants.AddInputsTouchesShares` | contracts/inheritance-contract/src/gas_optimization.rs:4975-5043 | a batch of additions only appends, and its counters cover every input once |
| `PlanInvariants.RelistedLists` | contracts/inheritance-contract/src/gas_optimization.rs:1378-1405 | one removal and one addition keep every owner's list exact, the transfer to oneself included |
| `PlanInvariants.DeactivationKeepsValid` | contracts/inheritance-contract/src/gas_optimization.rs:2583-2629 | deactivating a plan keeps the deactivated list exactly the set of inactive plans |
| `PlanInvariants.EditingCalls` | contracts/inheritance-contract/src/gas_optimization.rs:1588-2174 | the eight beneficiary and settings calls rewrite one plan and keep owner, status, balance, loans and custody, and shares that add up |
| `PlanInvariants.StepKeepsValid` | contracts/inheritance-contract/src/gas_optimization.rs:1378-5809 | each of the nineteen plan-writing entry points, accepted or refused, keeps: total = sum of shares <= 10000, at most ten beneficiaries, loans accounted for, every plan once in its owner's list and in no other, the deactivated list exact |
| `PlanRuns.RunKeepsValid` | contracts/inheritance-contract/src/gas_optimization.rs:1378-5809 | the same over every run of calls by anyone in any order |
| `PlanRuns.StepBalanced` | contracts/inheritance-contract/src/gas_optimization.rs:1785-1846 | every accepted call moves custody and debt together, or lowers the debt by exactly what it pays and writes off |
| `PlanRuns.Conservation` | contracts/inheritance-contract/src/gas_optimization.rs:1979-2080 | over every run whose accepted calls come from outside: the contract's holdings, less what all plans are owed, grow by exactly the claims paid and the loans written off |
| `PlanTokens.StepWritesOne` | contracts/inheritance-contract/src/gas_optimization.rs:1378-5809 | every accepted call writes at most one plan and pays only its claims |
| `PlanTokens.ConservationOfToken` | contracts/inheritance-contract/src/gas_optimization.rs:2404-2418 | over any number of tokens: each token's holdings, less what the plans created in it are owed, grow by exactly the claims paid and loans written off those plans, while accepted deposits and withdrawals name the plan's own token |
| `PlanTokens.BooksKeptIffAtHome` | contracts/inheritance-contract/src/gas_optimization.rs:1935-2089 | an accepted deposit or withdrawal keeps every token's books if and only if it names the token the plan was created with |
| `PlanTokens.ForeignWithdrawalUncovers` | contracts/inheritance-contract/src/gas_optimization.rs:2004-2089 | a concrete run with a withdrawal in another plan's token, after which that plan shows a balance, the contract holds none of its token, and its owner's withdrawal fails |
| `PlanTokens.EveryPlanIsBacked` | contracts/inheritance-contract/src/gas_optimization.rs:2060-2080 | from deployment with any wallets: the contract's balance of each token is what it owes in it plus what it paid and wrote off, so every plan is covered by its own token and no withdrawal in it fails for want of tokens |
| `TriggerHistory.StepKeepsTrigger` | contracts/inheritance-contract/src/gas_optimization.rs:3498-3796 | every call keeps an existing trigger record, its time, its original loans and the plan's owner |
| `TriggerHistory.TriggerIsFinal` | contracts/inheritance-contract/src/gas_optimization.rs:3557-3730 | in every run after a trigger: loaned + recalled + settled = original, one record, one owner, and every further trigger is refused |
| `PlanLending.TriggeringClaimUnlendsIff` | contracts/inheritance-contract/src/gas_optimization.rs:2274-2418 | a claim that triggers the plan leaves it unlendable if and only if it was unlendable before |
| `PlanLending.ClaimLeavesTriggeredPlanLendable` | contracts/inheritance-contract/src/gas_optimization.rs:2274-2418 | a run from deployment, one creation and one claim, whose claim triggers the plan and leaves it triggered and lendable |
| `PlanLending.TriggeringBatchUnlends` | contracts/inheritance-contract/src/gas_optimization.rs:5328-5439 | a batch of claims that triggers the plan always leaves it unlendable |
| `PlanLending.FlagIsLastSetting` | contracts/inheritance-contract/src/gas_optimization.rs:1909-1933 | in every run after a trigger the flag is the owner's latest accepted setting, or what it was: nothing else changes it |
| `ClaimResidue.ResidueBounds` | contracts/inheritance-contract/src/gas_optimization.rs:2176-2202 | for any sequence of floored claims: payments and residue make up the start balance, and the residue lies between the exact product and that plus one unit a claim |
| `ClaimResidue.KeptIgnoresOrder` | contracts/inheritance-contract/src/gas_optimization.rs:2176-2202 | the exact product does not depend on the order of the shares |
| `ClaimResidue.OrderBarelyMatters` | contracts/inheritance-contract/src/gas_optimization.rs:2176-2202 | two orders of the same claims leave residues less than one unit per claim apart |
| `ClaimResidue.ClaimsLeaveBoundedResidue` | contracts/inheritance-contract/src/gas_optimization.rs:2359-2418 | over any run in which no deposit to, withdrawal from or write-off of the plan is accepted, and with no settlement waiting: the balance is paid down by its claims, within those bounds |
| `ClaimResidue.ClaimOrderBarelyMatters` | contracts/inheritance-contract/src/gas_optimization.rs:5413-5439 | two such runs that claim the same shares, single or in batches, end less than one unit per claim apart |
| `PlanClaims.ClaimUnrecordedIff` | contracts/inheritance-contract/src/gas_optimization.rs:2348-2440 | an accepted claim leaves no record, so that its beneficiary can claim again, if and only if the open settlement exceeds the share of the balance |
| `PlanClaims.RunPaysOnce` | contracts/inheritance-contract/src/gas_optimization.rs:2296-2440 | over every run, single claims and batches mixed: a claim on record stays as it is and its e-mail is not paid again; while no settlement of the plan waits, the payments under an e-mail are exactly the new records |
| `PlanClaims.PaidOncePerEmail` | contracts/inheritance-contract/src/gas_optimization.rs:2296-2440 | in every run from deployment a plan pays at most once under an e-mail, exactly when the claim is on record, and every further claim under it is refused |
| `PlanClaims.ClaimedListsFromDeployment` | contracts/inheritance-contract/src/gas_optimization.rs:1422-1446 | in every run from deployment: the list of claimed plans names exactly the plans with a claim record, the owners' lists together name the same, and no list repeats a plan, transfers of claimed plans included |
| `ClaimTargets.FoundIff` | contracts/inheritance-contract/src/gas_optimization.rs:2308-2328 | the search ends at beneficiary i exactly when the code is well-formed, the entry carries i's e-mail and i's code, and nobody's before i |
| `ClaimTargets.NotFoundIff` | contracts/inheritance-contract/src/gas_optimization.rs:2308-2328 | which error comes otherwise: a malformed code where the e-mail is known, else not found, each exactly then |
| `ClaimTargets.OpenIff` | contracts/inheritance-contract/src/gas_optimization.rs:2233-2243 | claims are open exactly when the plan is or becomes triggered, or 0, 30, 90 or 365 days in seconds have passed since its creation, by distribution |
| `ClaimTargets.ShareFloored` | contracts/inheritance-contract/src/gas_optimization.rs:2176-2202 | a share is the floor of balance * basis points / 10000 and within the balance |
| `ClaimTargets.ClaimAcceptedIff` | contracts/inheritance-contract/src/gas_optimization.rs:2245-2404 | a claim that names beneficiary i first is accepted exactly when: not paused, claimer with KYC and attempts left, active unfrozen plan, claims open, no record, i neither frozen nor outranked, and a payout that is positive, within the emergency limit and, unless triggered, liquid |
| `ClaimTargets.ClaimNamesSomebody` | contracts/inheritance-contract/src/gas_optimization.rs:2308-2404 | no claim is accepted that names nobody by e-mail and code |
| `ClaimTargets.ClaimEffect` | contracts/inheritance-contract/src/gas_optimization.rs:2274-2459 | what an accepted claim leaves in every table: one payment of the share or the open settlement if that is less, that much less balance, and mark, record and lists if nothing of the settlement is left |
| `ClaimTargets.BatchAcceptedIff` | contracts/inheritance-contract/src/gas_optimization.rs:5318-5348 | a batch as a whole is accepted exactly when: not paused, at most twenty entries, an active unfrozen plan, and claims open |
| `ClaimTargets.EntryEffect` | contracts/inheritance-contract/src/gas_optimization.rs:5350-5455 | each entry is paid exactly when it names somebody by e-mail and code and passes its checks; then its share is paid and recorded under its e-mail; otherwise it only counts, twice if its code is malformed where its e-mail is known |
| `BatchOrder.BatchSplits` | contracts/inheritance-contract/src/gas_optimization.rs:5318-5464 | an accepted batch does exactly what its two parts do one after the other: storage, payments in order, counters that add |
| `BatchOrder.EntriesCounted` | contracts/inheritance-contract/src/gas_optimization.rs:5350-5455 | successes are the payments, and every entry counts once, or at most twice where a code is malformed |
| `BatchClaims.BatchSkipsChecks` | contracts/inheritance-contract/src/gas_optimization.rs:5350-5440 | where a batch pays an entry, a single claim of it would be refused if and only if the beneficiary is frozen, outranked or without a share, or the untriggered plan is not liquid enough |
| `BatchClaims.BatchIgnoresRanks` | contracts/inheritance-contract/src/gas_optimization.rs:5318-5464 | whoever is frozen, and whatever the ranks, claim marks and waterfall setting are: a batch is accepted, counts and pays the same |
| `BatchClaims.EntryUncoversIff` | contracts/inheritance-contract/src/gas_optimization.rs:5410-5439 | a paid entry leaves more loaned than the balance if and only if its share exceeds what the loans leave of it |
| `BatchClaims.BatchUncoversIff` | contracts/inheritance-contract/src/gas_optimization.rs:5318-5464 | a whole batch does so if and only if it pays more in all than that, on triggered and untriggered plans alike |
| `BatchClaims.ClaimUncoversIff` | contracts/inheritance-contract/src/gas_optimization.rs:2378-2418 | a single claim can leave a covered plan uncovered only when it is triggered, and does so exactly when it pays more than that |
| `RankBlocking.BlockIsFinal` | contracts/inheritance-contract/src/gas_optimization.rs:2346-2358 | once a beneficiary of a waterfall plan is on record without its mark, every single claim of anybody ranked behind it is refused in every later run in which no accepted call removes or reranks beneficiaries |
| `RankBlocking.BatchBlocksLowerRanks` | contracts/inheritance-contract/src/gas_optimization.rs:5428-5439 | any accepted batch that records a claim does just that to all lower ranks, because it sets no mark |
| `RankBlocking.ClaimUnblocks` | contracts/inheritance-contract/src/gas_optimization.rs:2404-2440 | a single claim that gets its record also gets its mark, so it holds up nobody |
| `BatchClaims.BatchPaysFrozenHeir` | contracts/inheritance-contract/src/gas_optimization.rs:5350-5440 | one creation after deployment: a batch pays a frozen heir the whole plan, where a single claim is refused |
| `PlanRoundTrips.AddThenRemove` | contracts/inheritance-contract/src/gas_optimization.rs:1588-1731 | removing the beneficiary that was just added restores the storage exactly |
| `PlanRoundTrips.DepositThenWithdraw` | contracts/inheritance-contract/src/gas_optimization.rs:1935-2089 | a deposit can be taken back if and only if the loans did not pass the balance before it; then every plan and every token balance is as before |
| `InheritanceContract.CheckBeneficiaries` | contracts/inheritance-contract/src/gas_optimization.rs:1278-1326 | the validation loop with its lists of seen hashes decides as the rules say |
| `InheritanceContract.MakeBeneficiaries` | contracts/inheritance-contract/src/gas_optimization.rs:1854-1873 | the building loop returns every beneficiary in order, or the first error |
| `InheritanceContract.AddAll` | contracts/inheritance-contract/src/gas_optimization.rs:4975-5043 | the batch-add loop: which inputs are skipped, which are added, and what traps |
| `InheritanceContract.DistinctValid` | contracts/inheritance-contract/src/gas_optimization.rs:5058-5074 | each valid index once, and no other |
| `InheritanceContract.SortDescending` | contracts/inheritance-contract/src/gas_optimization.rs:5075-5092 | the exchange sort returns a strictly falling permutation |
| `InheritanceContract.RemoveInOrder` | contracts/inheritance-contract/src/gas_optimization.rs:5093-5110 | the in-place removal loop performs each swap-remove and keeps the total |
| `InheritanceContract.RemoveAll` | contracts/inheritance-contract/src/gas_optimization.rs:5045-5127 | deduplication, sort and removal together refine the specified removal and its counters |
| `InheritanceContract.Reallocate` | contracts/inheritance-contract/src/gas_optimization.rs:5129-5171 | the batch update: zero shares, overflow and wrong totals are told apart; otherwise every share is replaced |
| `InheritanceContract.LocateBeneficiary` | contracts/inheritance-contract/src/gas_optimization.rs:2308-2328 | the first e-mail and code match, or the error of the first malformed code |
| `InheritanceContract.HasHigherRank` | contracts/inheritance-contract/src/gas_optimization.rs:2346-2358 | blocked if and only if an unclaimed beneficiary of smaller non-zero priority exists |
| `InheritanceContract.ComputeWaterfallPayout` | contracts/inheritance-contract/src/gas_optimization.rs:2176-2202 | zero while outranked, otherwise the floored share capped by the balance |
| `InheritanceContract.WithoutFirst` | contracts/inheritance-contract/src/gas_optimization.rs:1390-1405 | the list without the first occurrence of the plan |
| `InheritanceContract.Vault.Call` | contracts/inheritance-contract/src/gas_optimization.rs:1588-5809 | any of the nineteen calls moves the contract's storage exactly as the step function says, and keeps it valid |
| `InheritanceContract.Vault.CreatePlan` | contracts/inheritance-contract/src/gas_optimization.rs:1759-1907 | creation: fee and net transfers, validation, the new plan under the next id; reverted as a whole on any error |
| `InheritanceContract.Vault.AddBeneficiary` | contracts/inheritance-contract/src/gas_optimization.rs:1588-1657 | one more beneficiary, with the checks and errors in the code's order |
| `InheritanceContract.Vault.RemoveBeneficiary` | contracts/inheritance-contract/src/gas_optimization.rs:1674-1731 | swap-remove of one beneficiary and of its share |
| `InheritanceContract.Vault.BatchAddBeneficiaries` | contracts/inheritance-contract/src/gas_optimization.rs:4975-5043 | the batch and its counters |
| `InheritanceContract.Vault.BatchRemoveBeneficiaries` | contracts/inheritance-contract/src/gas_optimization.rs:5045-5127 | the removal and its counters |
| `InheritanceContract.Vault.BatchUpdateAllocations` | contracts/inheritance-contract/src/gas_optimization.rs:5129-5171 | all shares replaced, or nothing |
| `InheritanceContract.Vault.SetBeneficiaryPriority` | contracts/inheritance-contract/src/gas_optimization.rs:2091-2137 | a priority that nobody else holds |
| `InheritanceContract.Vault.SetLendable` | contracts/inheritance-contract/src/gas_optimization.rs:1909-1933 | the owner's flag, whatever the trigger says |
| `InheritanceContract.Vault.EnableWaterfallDistribution` | contracts/inheritance-contract/src/gas_optimization.rs:2151-2174 | the owner turns waterfall on |
| `InheritanceContract.Vault.DeactivatePlan` | contracts/inheritance-contract/src/gas_optimization.rs:2583-2629 | an active plan becomes inactive and listed |
| `InheritanceContract.Vault.TransferPlanOwnership` | contracts/inheritance-contract/src/gas_optimization.rs:5750-5809 | an untriggered, unfrozen plan moves to the new owner and between the two lists |
| `InheritanceContract.Vault.Deposit` | contracts/inheritance-contract/src/gas_optimization.rs:1935-2002 | tokens in, balance up, trap and revert when the balance would overflow |
| `InheritanceContract.Vault.Withdraw` | contracts/inheritance-contract/src/gas_optimization.rs:2004-2089 | tokens out within the unloaned balance and the emergency limit |
| `InheritanceContract.Vault.AutoTriggerCheck` | contracts/inheritance-contract/src/gas_optimization.rs:3498-3538 | triggers when the conditions are met and no record exists |
| `InheritanceContract.Vault.TriggerInheritance` | contracts/inheritance-contract/src/gas_optimization.rs:3557-3661 | who may trigger, and the record it writes |
| `InheritanceContract.Vault.RecallLoan` | contracts/inheritance-contract/src/gas_optimization.rs:3682-3730 | a recall lowers the loans and raises the recalled amount |
| `InheritanceContract.Vault.LiquidationFallback` | contracts/inheritance-contract/src/gas_optimization.rs:3750-3796 | outstanding loans are settled and written off the balance |
| `InheritanceContract.Vault.ClaimPlan` | contracts/inheritance-contract/src/gas_optimization.rs:2245-2459 | a claim on the plan copy read before the automatic trigger, which is what is written back |
| `InheritanceContract.Vault.PayClaim` | contracts/inheritance-contract/src/gas_optimization.rs:2359-2440 | the payout branch: settlement cap, emergency limit, liquidity, final or partial claim |
| `InheritanceContract.Vault.RecordClaim` | contracts/inheritance-contract/src/gas_optimization.rs:1422-1446 | the claim record, and the plan once in the owner's list and once in the list of all claimed plans |
| `InheritanceContract.Vault.BatchClaimPlan` | contracts/inheritance-contract/src/gas_optimization.rs:5318-5464 | a batch of claims entry by entry, with the code's counters, records and lists of claimed plans |
| `LoanNft.NothingClips` | contracts/loan-nft/src/lib.rs:110-159 | a live loan counts for its owner and for the supply, so no saturating subtraction clips |
| `LoanNft.MoveKeepsValid` | contracts/loan-nft/src/lib.rs:361-390 | moving a loan keeps all counts, to its own owner included |
| `LoanNft.StepKeepsValid` | contracts/loan-nft/src/lib.rs:51-390 | every call keeps: balance(a) = number of loans a owns, supply = number of loans, and the per-loan tables cover the same ids |
| `LoanNft.RunKeepsValid` | contracts/loan-nft/src/lib.rs:51-390 | the same over every run |
| `LoanNft.CountsFromDeployment` | contracts/loan-nft/src/lib.rs:51-390 | in every run from deployment: balances and supply are counts of the owner table, and the tables cover the same loans |
| `LoanNft.MetadataIsImmutable` | contracts/loan-nft/src/lib.rs:59-159 | until an accepted burn no run changes a loan's metadata, whatever else is attempted |
| `LoanNft.LockedLoanStays` | contracts/loan-nft/src/lib.rs:339-358 | until an accepted burn or unlock a loan stays with its owner and locked, whatever else is attempted |
| `LoanNft.MintThenBurn` | contracts/loan-nft/src/lib.rs:59-159 | burning a loan right after its mint restores every table, the supply and every balance |
| `LoanTransfers.TransferEffect` | contracts/loan-nft/src/lib.rs:163-176 | a transfer goes through exactly for the signing owner of an unrestricted loan, while the receiver's counter has room; then the loan is the receiver's, its approval is gone, two counters moved by one, and nothing else changed |
| `LoanTransfers.TransferFromEffect` | contracts/loan-nft/src/lib.rs:178-213 | the same on behalf of the owner, exactly for a signing spender who is the owner, an operator of it, or holds an approval that has not expired |
| `LoanTransfers.MintEffect` | contracts/loan-nft/src/lib.rs:59-108 | exactly when it goes through, and the new loan of the receiver in every table, restricted and locked |
| `LoanTransfers.BurnEffect` | contracts/loan-nft/src/lib.rs:110-159 | exactly when it goes through, and that no trace is left |
| `LoanTransfers.ApproveEffect` | contracts/loan-nft/src/lib.rs:215-247 | exactly who may approve whom, until the earlier of a week from now and the end of the clock |
| `LoanTransfers.AdminIsFinal` | contracts/loan-nft/src/lib.rs:51-57 | the first initialization sets the admin, and nothing ever changes it |
| `LoanTransfers.OwnersChangeByConsent` | contracts/loan-nft/src/lib.rs:163-213 | in one call a loan stays with its owner, moves with the signature of somebody who may spend it, or is burnt by the admin |
| `LoanTransfers.LossIsConsented` | contracts/loan-nft/src/lib.rs:110-213 | over every run: whoever no longer owns a loan let it go in such a call of the run, or lost it to the admin's burn |
| `LoanTransfers.OperatorsAreGranted` | contracts/loan-nft/src/lib.rs:249-259 | over every run: a new operator was granted by an accepted call that the owner signed |
| `LoanTransfers.ApprovalsAreGiven` | contracts/loan-nft/src/lib.rs:215-247 | over every run from deployment: each approval on record was given so, by the owner or an operator of that time |
| `LoanNft.LoanNftContract.Mint` | contracts/loan-nft/src/lib.rs:59-108 | the six tables and counters a mint writes, or a panic that reverts |
| `LoanNft.LoanNftContract.Burn` | contracts/loan-nft/src/lib.rs:110-159 | all entries of the loan go, owner and supply count down |
| `LoanNft.LoanNftContract.Move` | contracts/loan-nft/src/lib.rs:361-390 | debit, then credit from the balance as it stands after the debit |
| `LoanNft.LoanNftContract.Transfer` | contracts/loan-nft/src/lib.rs:163-176 | only the signing owner of an unrestricted loan |
| `LoanNft.LoanNftContract.TransferFrom` | contracts/loan-nft/src/lib.rs:178-213 | owner, operator, or an approval that has not expired |
| `LoanNft.LoanNftContract.Approve` | contracts/loan-nft/src/lib.rs:215-247 | by the owner or an operator, for seven days |
| `LoanNft.LoanNftContract.SetTransferable` | contracts/loan-nft/src/lib.rs:339-347 | the admin's switch for an existing loan |
| `WillRegistry.StepKeepsVersions` | contracts/inheritance-contract/src/gas_optimization.rs:4051-4132 | every call keeps: versions 1..count exist and nothing else, only the last is active, it is the recorded one and the vault's link |
| `WillRegistry.StepKeepsValid` | contracts/inheritance-contract/src/gas_optimization.rs:3958-4952 | the same together with: a finalized version exists, has its time, and its vault carries a signature |
| `WillRegistry.RunKeepsValid` | contracts/inheritance-contract/src/gas_optimization.rs:3958-4952 | the same over every run |
| `WillRegistry.VersionsFromDeployment` | contracts/inheritance-contract/src/gas_optimization.rs:4051-4132 | in every run from deployment: versions 1..count, the last one active, recorded and linked |
| `WillRegistry.FinalWillIsFixed` | contracts/inheritance-contract/src/gas_optimization.rs:4051-4132 | once the active version is final, count, active number, every version record and the vault link stay as they are in every later run, and the owner's signature exists |
| `WillRegistry.FinalVersionsWereSigned` | contracts/inheritance-contract/src/gas_optimization.rs:4739-4820 | in every run each version that became final did so by the plan owner's call, at a moment when the owner's proof and the signature of every listed witness existed; all of them last |
| `WillRegistry.StoredProofIsLastSigning` | contracts/inheritance-contract/src/gas_optimization.rs:4164-4222 | in every run the proof of a vault is that of its latest accepted signing, or the one it began with |
| `WillRegistry.FinalizedHashWasSignedIff` | contracts/inheritance-contract/src/gas_optimization.rs:4739-4820 | in every run from deployment the proof that a finalization found was the latest accepted signing of the vault, and was for the finalized version if and only if that signing named the hash which the version still has |
| `WillRegistry.StrayProofFinalizes` | contracts/inheritance-contract/src/gas_optimization.rs:4739-4820 | a concrete run in which a version becomes final on a proof of another hash by a former owner |
| `WillRegistry.SignaturesAreSpentOnce` | contracts/inheritance-contract/src/gas_optimization.rs:4164-4222 | a signature used once is refused ever after, for any vault, by owners and witnesses alike |
| `WillCalls.LinkEffect` | contracts/inheritance-contract/src/gas_optimization.rs:3958-3989 | a will is linked exactly by the owner and once |
| `WillCalls.VersionEffect` | contracts/inheritance-contract/src/gas_optimization.rs:4051-4132 | accepted exactly from the owner while the active version is open; then the version under the next number has the hash and the time of this very call, it is active and linked, the one before it is switched off, and no other record changes |
| `WillCalls.SignEffect` | contracts/inheritance-contract/src/gas_optimization.rs:4164-4222 | accepted exactly from the owner with a signature that is in time and unused; then just this proof is stored |
| `WillCalls.WitnessSigningEffect` | contracts/inheritance-contract/src/gas_optimization.rs:4881-4952 | accepted exactly from a listed witness that has not signed, with a signature that is in time and unused |
| `WillCalls.FinalizationEffect` | contracts/inheritance-contract/src/gas_optimization.rs:4739-4820 | accepted exactly from the owner for an existing open version, once a proof and the signature of every listed witness are there |
| `WillCalls.VersionsAreCreated` | contracts/inheritance-contract/src/gas_optimization.rs:4051-4132 | in every run from deployment: each version on record has the hash, number and time of one accepted call of the plan's owner |
| `WillCalls.WitnessesSignThemselves` | contracts/inheritance-contract/src/gas_optimization.rs:4881-4952 | in every run from deployment: each witness signature on record was made by that witness, while listed, at its time |
| `WillCalls.WitnessesAreListed` | contracts/inheritance-contract/src/gas_optimization.rs:4840-4876 | in every run from deployment: each listed witness was listed by the plan's owner |
| `WillRegistry.WillContract.LinkWillToVault` | contracts/inheritance-contract/src/gas_optimization.rs:3958-3989 | a link, unless one exists |
| `WillRegistry.WillContract.CreateWillVersion` | contracts/inheritance-contract/src/gas_optimization.rs:4051-4132 | the next version, the previous one deactivated, refused once the active one is final |
| `WillRegistry.WillContract.SignWill` | contracts/inheritance-contract/src/gas_optimization.rs:4164-4222 | a fresh, unexpired signature becomes the vault's proof |
| `WillRegistry.WillContract.AddWitness` | contracts/inheritance-contract/src/gas_optimization.rs:4840-4876 | one more witness, unless listed |
| `WillRegistry.WillContract.SignAsWitness` | contracts/inheritance-contract/src/gas_optimization.rs:4881-4952 | a listed witness signs once, with a fresh signature |
| `WillRegistry.WillContract.FinalizeWill` | contracts/inheritance-contract/src/gas_optimization.rs:4739-4820 | the loop over the witnesses finds every signature before the version becomes final |
| `LegacyMessages.StepKeepsValid` | contracts/inheritance-contract/src/gas_optimization.rs:4305-4727 | every call keeps: each vault's list holds exactly the ids of its live messages, each once, all below the next id |
| `LegacyMessages.RunKeepsValid` | contracts/inheritance-contract/src/gas_optimization.rs:4305-5316 | the same over every run, batches included |
| `LegacyMessages.ListsFromDeployment` | contracts/inheritance-contract/src/gas_optimization.rs:4305-5316 | in every run from deployment: each vault's list holds exactly its live messages, each once, below the next id |
| `LegacyMessages.CreateEachOnlyAdds` | contracts/inheritance-contract/src/gas_optimization.rs:5227-5316 | a batch adds messages under fresh ids, touches no other, and counts every entry |
| `LegacyMessages.FinalMessagesSurvive` | contracts/inheritance-contract/src/gas_optimization.rs:4392-4561 | finalized messages are never deleted or rewritten in any run; only their lock opens, and it stays open |
| `LegacyMessages.UnlockReachesEveryMessage` | contracts/inheritance-contract/src/gas_optimization.rs:4681-4727 | after an unlock every message of the vault is open, and no other message changed |
| `MessageCalls.CreationEffect` | contracts/inheritance-contract/src/gas_optimization.rs:4305-4390 | accepted exactly from the vault's owner with an opening time to come; the message is as given, locked and unfinished, under the key given or else the vault's |
| `MessageCalls.BatchCreationEffect` | contracts/inheritance-contract/src/gas_optimization.rs:5227-5316 | a batch stores its creatable entries in order under consecutive ids, each as given, and counts the others |
| `MessageCalls.BatchAcceptedIff` | contracts/inheritance-contract/src/gas_optimization.rs:5227-5316 | a batch is accepted exactly when it has at most ten entries and there are ids for those that can be created |
| `MessageCalls.DeletionEffect` | contracts/inheritance-contract/src/gas_optimization.rs:4509-4561 | accepted exactly from the creator of a message that is not final; it leaves the table and its one place in the list, the others staying in order |
| `MessageCalls.AccessEffect` | contracts/inheritance-contract/src/gas_optimization.rs:4573-4673 | read exactly by heirs of the vault and when due by time, by the trigger or because it is open already; reading opens it |
| `MessageCalls.OpenMessagesWereDue` | contracts/inheritance-contract/src/gas_optimization.rs:4573-4727 | in every run from deployment: a message is open only because an heir read it when it was due, or its vault's inheritance opened everything |
| `LegacyMessages.MessageContract.Create` | contracts/inheritance-contract/src/gas_optimization.rs:4305-4390 | a new message in the table and at the end of its vault's list |
| `LegacyMessages.MessageContract.CreateBatch` | contracts/inheritance-contract/src/gas_optimization.rs:5227-5316 | the batch loop, with the ids it created and the entries it skipped |
| `LegacyMessages.MessageContract.Update` | contracts/inheritance-contract/src/gas_optimization.rs:4392-4435 | the creator rewrites a message that is not final |
| `LegacyMessages.MessageContract.Finalize` | contracts/inheritance-contract/src/gas_optimization.rs:4437-4473 | the creator makes a message final |
| `LegacyMessages.MessageContract.Delete` | contracts/inheritance-contract/src/gas_optimization.rs:4509-4561 | a message that is not final leaves the table and its list |
| `LegacyMessages.MessageContract.Access` | contracts/inheritance-contract/src/gas_optimization.rs:4573-4673 | who may read a message, and when reading unlocks it |
| `LegacyMessages.MessageContract.UnlockOnInheritance` | contracts/inheritance-contract/src/gas_optimization.rs:4681-4727 | the loop over the vault's list opens each message it finds |
| `StellarReader.ReaderReturnsLoaned` | backend/src/stellar_submit.rs:894-925 | on accounted loans the reader returns exactly the plan's loaned balance, in both encodings of an optional value, and its saturating subtractions never clip |
| `StellarReader.ReaderOnAnyRecord` | backend/src/stellar_submit.rs:894-904 | of any record, accounted or not: nothing after a liquidation, else what recalls and settlements leave of the original loans, never below zero |
| `StellarReader.NothingToRead` | backend/src/stellar_submit.rs:894-925 | without a record nothing is read, in either encoding of that |
| `StellarReader.ReaderAgreesWithContract` | backend/src/stellar_submit.rs:894-904 | in every run of the contract the backend sees exactly total_loaned of a triggered plan, and nothing for an untriggered one |
| `StellarReader.FoundEventMatches` | backend/src/stellar_submit.rs:839-859 | a found event is one of the transaction's, from the contract, under the expected topics |
| `StellarReader.FoundEventIsFirst` | backend/src/stellar_submit.rs:839-859 | it is the first of those, and none is found exactly when there is none |
| `StellarReader.TriggerEventCarriesPlan` | backend/src/stellar_submit.rs:863-879 | the plan id of a trigger event is read back |
| `Watchdog.EmitsIffTriggers` | contracts/inheritance-contract/src/gas_optimization.rs:3498-3661 | a call emits a trigger event if and only if it triggers its plan: directly, automatically, or inside a claim or a batch of claims |
| `Watchdog.EmittedEventVerifies` | backend/src/inactivity_watchdog.rs:529-556 | the event verifies for the plan that was triggered and for no other |
| `Watchdog.ChainCallKeepsChainOk` | contracts/inheritance-contract/src/gas_optimization.rs:3498-3661 | through every call on the contract, all trigger events it ever emitted name plans that have a trigger record |
| `Watchdog.FreshDeployment` | backend/src/inactivity_watchdog.rs:202-234 | an empty database beside any valid contract satisfies both protocol invariants |
| `Watchdog.StepKeepsBacked` | backend/src/inactivity_watchdog.rs:202-417 | every step of worker, handler or contract keeps: emitted trigger events are true, and TRIGGERED and CLAIMABLE rows, confirmed tasks and begun payouts rest on an on-chain trigger |
| `Watchdog.PaidStatusIsBacked` | backend/src/inactivity_watchdog.rs:304-393 | with a signer on every worker, over any interleaving with crashes, pings, cancellations and claims: a TRIGGERED or CLAIMABLE row was triggered on-chain under its own plan id |
| `Watchdog.EligibleIsSpaced` | backend/src/inactivity_watchdog.rs:238-299 | a row that a sweep may claim again was last claimed by a worker with a signer, at least the stale age ago |
| `Watchdog.ClaimsKeepTheirDistance` | backend/src/inactivity_watchdog.rs:238-299 | over any number of workers and crashes, two claims of one row are at least the stale age apart and both signed; a claim without a signer is the row's only one |
| `WatchdogSteps.StatusMoves` | backend/src/inactivity_watchdog.rs:238-417 | a row changes its status only in the step made for it: claimed when overdue, confirmed or failed by its own task's verdict, made claimable by its payout, paid out, or cancelled; nothing makes it ACTIVE again |
| `WatchdogSteps.MovesArrive` | backend/src/inactivity_watchdog.rs:369-417 | and each of those steps does leave that status |
| `WatchdogSteps.ClaimMoves` | backend/src/inactivity_watchdog.rs:238-299 | a sweep claims overdue rows only, as TRIGGERING with a signer and TRIGGERED without, and stamps the time |
| `WatchdogSteps.DeadlineMoves` | backend/src/api.rs:1501-1514 | last ping, grace time, chain id and claim time of a row change in no other step than the one made for it, and new rows are stored as given |
| `WatchdogSteps.SweepOpensTasks` | backend/src/inactivity_watchdog.rs:202-299 | a signed sweep opens one task for each row it claims, with the chain id of that moment |
| `WatchdogSteps.TasksEnd` | backend/src/inactivity_watchdog.rs:304-417 | a task gets its verdict once and ends when that is recorded or its worker stops, and in no other way |
| `WatchdogSteps.PingHoldsForItsGrace` | backend/src/inactivity_watchdog.rs:238-299 | over every run after a ping, with the grace time left alone: no sweep claims the row before that time is over |
| `WatchdogSteps.EndsOnce` | backend/src/api.rs:1604-1820 | over every run: a row that was paid out or cancelled is not pinged, claimed or paid out again |
| `WatchdogSteps.EventMatchesRecord` | contracts/inheritance-contract/src/gas_optimization.rs:3557-3661 | the event of a trigger carries the plan, the time and the loans of the very record that the call leaves |
| `LostTriggers.FailsIff` | backend/src/inactivity_watchdog.rs:393-417 | in one step a row becomes TRIGGER_FAILED if and only if a worker marks a task of it as failed, whatever the contract says of the plan |
| `LostTriggers.FailureWasMarked` | backend/src/inactivity_watchdog.rs:369-417 | over a run, a row that ends TRIGGER_FAILED was marked so by a worker whose task had failed |
| `LostTriggers.RetryIsRefused` | contracts/inheritance-contract/src/gas_optimization.rs:3557-3661 | a plan that was triggered on-chain can be triggered by nobody again, and no attempt emits an event that a worker could confirm |
| `LostTriggers.LostIsFinal` | backend/src/inactivity_watchdog.rs:238-299 | a failed row that no worker and no payout holds stays failed or ended in every run: no sweep claims it again and it never becomes TRIGGERED or CLAIMABLE |
| `LostTriggers.CrashLosesTrigger` | backend/src/inactivity_watchdog.rs:202-234 | over any contract on which somebody may trigger the plan: a run in which a worker triggers it and stops before recording that, another takes over, and the row ends lost as TRIGGER_FAILED although triggered on-chain |
| `LostTriggers.SuchContractsExist` | contracts/inheritance-contract/src/gas_optimization.rs:3557-3661 | one accepted creation after deployment the contract is valid and the owner may trigger the plan, so that run exists |
| `TriggerRetry.BackoffGrows` | backend/src/inactivity_watchdog.rs:87-94 | waits never shrink from one attempt to the next, even where the shift overflows, and never pass the cap |
| `TriggerRetry.BackoffDoubles` | backend/src/inactivity_watchdog.rs:87-94 | each wait is twice the one before until the cap, and the cap from there on |
| `TriggerRetry.FaultMeaning` | backend/src/inactivity_watchdog.rs:529-556 | the contract's first trigger event in a landed transaction decides: missing, without a plan, for another plan, or for the expected one |
| `TriggerRetry.TriggerOnChain` | backend/src/inactivity_watchdog.rs:304-367 | the first answer not worth retrying decides; confirmed only on a verified event; a failure names the fault of the last answer; attempts are bounded and the waiting is exactly the sum of the backoffs between them |
| `TriggerRetry.Sweep.Mark` | backend/src/inactivity_watchdog.rs:369-417 | an update by id writes the four trigger columns of one existing row: status, attempts, transaction and error, and fails when the attempts leave their 32-bit column |
| `TriggerRetry.Sweep.RecordBatch` | backend/src/inactivity_watchdog.rs:202-234 | up to the first failing update each claimed row carries its verdict, and no other row changes; a full sweep returns the number of confirmed rows, a failing update ends it |
| `PayoutSplit.CheckAllocations` | backend/src/api.rs:639-670 | accepts exactly the lists of at most 100 well-formed entries whose basis points sum to 10000, and reports the first offence |
| `PayoutSplit.CheckNewPlan` | backend/src/api.rs:631-670 | the same for a new plan, which must name somebody |
| `PayoutSplit.CheckUpdate` | backend/src/api.rs:829-859 | an update without beneficiaries keeps the stored ones, so stored lists stay well allocated |
| `PayoutSplit.SharesAreFair` | backend/src/api.rs:1679-1692 | no share is negative; each but the last is its exact share rounded down; the last is at least its exact share and less than n - 1 units above it |
| `PayoutSplit.SharesSumToTotal` | backend/src/api.rs:1679-1692 | the shares sum exactly to the total, for any total and any allocations |
| `PayoutSplit.RowsSumToTotal` | backend/src/api.rs:3130-3142 | the inserted rows sum exactly to the total, although empty shares are skipped |
| `PayoutSplit.RowsPay` | backend/src/api.rs:1694-1696 | every inserted row pays something, and every positive share has its row |
| `PayoutSplit.RowsInOrder` | backend/src/api.rs:3130-3180 | the rows are those of the paying beneficiaries in their order, each with its address, its share, and as fiat exactly when it has an anchor account |
| `PayoutSplit.TakeShare` | backend/src/api.rs:1679-1692 | one round of the loop hands out the specified share and keeps the remainder exact |
| `PayoutSplit.ClaimSplit` | backend/src/api.rs:3126-3180 | the loop of a claim inserts the specified rows, or refuses an empty plan |
| `PayoutSplit.ChargedOnce` | backend/src/api.rs:1764-1790 | each beneficiary's daily usage grows by exactly its own limited share |
| `PayoutSplit.FitMeaning` | backend/src/api.rs:1702-1735 | shares fit exactly when none that is paid to a limited anchor account passes what is left of its day |
| `PayoutSplit.LimitsRespected` | backend/src/api.rs:1702-1735 | when all shares fit, a paid anchor account with a daily limit is charged exactly its share and ends within that limit |
| `PayoutSplit.LimitedSplit` | backend/src/api.rs:1675-1812 | the loop of a payout succeeds if and only if every limited share fits its limit; then rows and usage are as specified, otherwise the usage is untouched and the error names the first beneficiary that does not fit |
| `PayoutSplit.CheckedPlansPayOutInFull` | backend/src/api.rs:646-670 | any list the validators accept splits any non-negative total without remainder |
| `RateLimiter.RateLimitStore.CheckAndIncrement` | backend/src/middleware.rs:52-66 | one call on the shared map, the fresh entry and the expired window included |
| `RateLimiter.RefusedIff` | backend/src/middleware.rs:52-66 | a call is refused exactly when its address has used up the running window, except for the call that wraps the counter around, which passes |
| `RateLimiter.AdmittedWithinBound` | backend/src/middleware.rs:52-66 | from any store, an interval as long as a window admits at most the rest of the running window and one full one |
| `RateLimiter.IntervalAdmitsUnderTwoWindows` | backend/src/middleware.rs:52-66 | from a new store, for calls of any addresses in time order: no half-open interval as long as a window admits more than 2 * max_requests - 1 calls of one address |
| `RateLimiter.WindowAdmitsTheFirst` | backend/src/middleware.rs:52-66 | while an address stays in one window, a call succeeds if and only if it is among the first max_requests of the window |
| `RateLimiter.OpenedWindowAdmitsTheFirst` | backend/src/middleware.rs:52-66 | the same from the call that opens the window |
| `RateLimiter.BoundIsMet` | backend/src/middleware.rs:52-66 | for every configuration whose window is longer than one tick some run reaches that bound |
| `RateLimiter.LimitHoldsIff` | backend/src/middleware.rs:52-66 | every interval as long as a window admits at most max_requests, in every run, if and only if max_requests <= 1 or the window has at most one tick |
| `RateLimiter.ShortRunsAreLimited` | backend/src/middleware.rs:52-66 | runs of fewer than 2^64 calls never wrap a counter, so both bounds hold in all of them |

## Left out

- PayoutSplit.SharesAreFair: amounts are exact reals, because the 28-digit rounding of the decimal library is
  code not in this repository; the payout total is a parameter, because the yield in it is computed in
  floating point.
- PayoutSplit.LimitedSplit: usage is that of one day, database failures in the middle of the loop are not
  modelled, and the request already sent to the anchor for an earlier row is not undone by the error either.
- RateLimiter.IntervalAdmitsUnderTwoWindows: the counter's wrap-around is modelled, and runs in which one
  window counts 2^64 calls of one address are excluded, as are clock readings that arrive out of order.
- PlanTokens.EveryPlanIsBacked: for runs whose accepted deposits and withdrawals name the plan's own token,
  which `PlanTokens.BooksKeptIffAtHome` shows to be the exact condition.
- InheritanceContract.Vault.CreatePlan: does not model the role granted to the owner and the claim-code salts
  that creation also writes.
- InheritanceContract.Vault.ClaimPlan: does not model the role granted to the claimer, which no modelled call
  reads.
- StellarReader.ReaderAgreesWithContract: the encoding of a contract struct as a map sorted by field name is
  that of the host and is taken as given.
- Watchdog.PaidStatusIsBacked: each SQL statement is one step; a sweep claims any distinct eligible rows up to
  the batch size, so the order of the query plays no part, and what the network answers is arbitrary apart
  from the contract's own trigger events.
- TriggerRetry.TriggerOnChain: the answers of the network are a given sequence, waiting is counted instead of
  slept, and the wording of a failure reason stands for what it says.
- Plan names and descriptions after their checks, logs, the reentrancy guard, and all events but the trigger
  event.
- The reads and writes of disputes, legal holds, emergency access, KYC, roles, pausing, vesting creation and
  upgrades in the contract; their outcomes enter through `Context`.
- Vesting settlements are consumed by claims as in the code; the calls that create them are not modelled.
- The mock of `yield_math.rs`, the mock token, plan vault, access control and reentrancy crates.
- HTTP, SQL text, XDR, cryptography, caches, web sockets, metrics, PDF output, the anchor client and the
  frontend.
