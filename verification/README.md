# Verified model of the AtomicIP contracts

Two Soroban contracts sell patent-like intellectual property. The *IP registry* stores commitments (hashes)
under ascending ids, keeps indexes over them, version trees, Merkle proofs, M-of-N signatures and delegations.
The *atomic swap contract* sells a registered IP: it locks the IP, takes the buyer's money into escrow, pays it
out against the revealed key, and also knows disputes, rollbacks, collateral, insurance, escrow deposits, payment
schedules, co-signers, auctions and batches. This project models both contracts, the upgrade check of the swap
contract and the reference implementation used by the differential tests, and proves what they keep.

Check everything with `dafny verify dfyconfig.toml`.

## How it is built

* **State and specification.** `SwapState`/`RegistryState` hold the storage as one value, with token balances per
  (token, address). `SwapSpec`/`RegistrySpec` say for every entry point what it does to that value, branch by
  branch, with the error it raises. A call about one stored swap is a *plan*: the record it leaves, the transfers
  it makes in order, and what happens to lock, history and the other entries.
* **The contracts as they run.** `SwapContract.AtomicSwap`, `RegistryContract.Registry`, `UpgradeSchema.Upgrader`
  and the classes of `ReferenceModel` carry out the calls statement by statement, with the loops of the source
  (`SwapRoutines` and `RegistryContract` hold shared routines). Every method is proved to answer exactly as
  specified, and to leave the store untouched when it is refused: a panic aborts the whole call (`Cargo.toml`, lines 9
  to 15). A call works on its own copy of the store, which replaces the store only at the end; this is how the host
  runs a contract. `SwapHost.Replay` and `RegistryContract.Replay` tie a contract under any list of calls to `Run`, on
  which the theorems about runs are stated.
* **Theorems.** `SwapClaims`, `SwapSafety`, `SwapActs`, `SwapBatches` and `SwapOpenings` build up to the run theorems
  of `SwapTheorems`. Three properties are kept apart, because they fail for different reasons, and each has its own
  condition on a call, proved exact for every call: `Orderly` (no status moves back), `LockSafe` (live swaps hold the
  locks of their IPs, and nobody else does) and `Backed` (the contract can pay what it owes). `SwapRollbacks`,
  `SwapUnlocks` and `SwapLimits` hold the rest of the exact conditions, and `SwapWitnesses` has runs from a new
  contract in which they fail. `SwapBook` and `SwapHistory` hold what is true of all runs, `RegistryMerkle` and
  `RegistryAgreement` the same for the registry. The other modules hold one topic each.
* **Rules.** `SwapRules`, `SwapOfferRules` and `RegistryRules` say once more what the calls are for, now as a party
  would: who may call when, who is paid what, what is left behind, and what each error tells the caller, written on the
  storage alone and without the functions of the specification. `SwapAdmission`, `SwapPayments`, `SwapOutcomes` and
  `SwapRefusals` prove it of every call about one swap, `SwapBatchRules`, `SwapBatchOutcomes` and `SwapBatchRefusals` of
  the batches, `SwapOfferOutcomes` of openings and auctions, and `RegistryOutcomes` of the registry. `SwapDecisions` and
  `SwapAcceptance` spell out what follows for settlements and acceptances.

Names: `Contract` is the modelled contract's own address, `Account(k)` anybody else; `Account(0)` is the treasury.
`require_auth` succeeds for accounts only. A `Digest`, or a presented hash, is the hash of the secret and blinding
factor that a caller shows.

## What the code does where its comments say otherwise

The model follows the code.

* `get_ip_lineage` promises all later versions and returns the root with its direct children only
  (`VersionForest.LineageWithinChain` says when that is the same).
* `batch_reveal_keys` gives stored collateral to the seller, `reveal_key` gives it back to the buyer, and the batch
  looks at neither signers nor conditions (`RevealBatch.CollateralParts`, `RevealBatch.SingleAsksMore`).
* `arbitrate_swap` and `make_scheduled_payment` do not test the status of the swap, and an administrator's rollback
  tests only for Completed. They can set a status back, or free the lock of another swap
  (`SwapTheorems.ActOrderExactly`, `SwapTheorems.ActLocksExactly`, `SwapUnlocks.FreesOwnExactly`).
* An arbitration may pay a price that is not held, `validate_and_rollback_swap` pays out a price that has already left
  the contract, a rollback returns a premium that stays counted in the insurance pool, and a batch of reveals that
  repeats an id pays it twice. And `accept_renegotiation` may raise the price of a swap over the total of its payment
  schedule: the last payment then makes a price due that was never collected. Each lowers the slack, what the contract
  holds beyond its debts, exactly when the condition in `SwapLimits` or `SwapRollbacks` fails; a contract with spare
  tokens can afford that for a while. `SwapWitnesses` shows for each a run in which it cannot.
* A won auction stores its swap without taking the IP's lock (`SwapOpenings.WonAuctionTakesNoLock`), so the IP can be
  offered again, and completing the first sale frees the lock of the second (`SwapWitnesses.AuctionedIpSoldAgain`).
* Resolved disputes, verified completions and arbitrations are not written to the history, so a history can end before
  its swap does; an administrator's rollback may then still add to it (`SwapHistory.ActHistoryExactly`).
* Instalments and scheduled payments already made are not returned when the swap is cancelled, nor counted when it is
  then paid in full, and an escrow withdrawal without a stored deposit returns nothing: `SwapLimits.Gain` names the
  amounts left behind.
* A schedule may contain negative payments, which can never be made (`Installments.NegativePaymentBlocks`). The total
  may then have been collected while payments are missing (`Installments.CollectedTooEarly`).
* An IP that was committed anonymously is listed under nobody, so the Merkle proof generated for it is rejected
  (`RegistryMerkle.ReachableProofExactly`).
* The error table of the upgrade check lists six errors; the code raises three of them.
* `reveal_key` marks a swap as claimable and then panics, which undoes the mark; the claimable flags are therefore
  an arbitrary input here.
* `merge_duplicate_commitment` is meant for two records with one hash; no two records ever share a hash, so it can only
  revoke a record (`RegistryAgreement.MergeOnlyRevokes`).
* `commit_ip_delegated` asks for the owner's own authorization; the delegates play no part beyond being there.

## Model

| member | source | states |
|---|---|---|
| SwapTheorems.LockBijection | contracts/atomic_swap/src/lib.rs:374-422 | in every run of calls that are safe for the locks, an IP is locked by a swap if and only if that swap is about the IP and is Pending, Accepted or Disputed |
| SwapTheorems.LockFreedByItsOwn | contracts/atomic_swap/src/lib.rs:866-876 | in such a run a lock is given up only by a call about the very swap that holds it, and that swap is live no more |
| SwapTheorems.RunSolvent | contracts/atomic_swap/src/lib.rs:532-829 | in every run of backed calls, whatever they do to statuses and locks, what the contract holds beyond everything it owes never shrinks, token by token, so it stays at least zero |
| SwapTheorems.NeverShort | contracts/atomic_swap/src/lib.rs:1057-1341 | in such a run no backed call is ever refused because the contract lacks funds |
| SwapTheorems.StepBacked | contracts/atomic_swap/src/lib.rs:1057-1341 | each single backed call keeps every slack, and a solvent contract can fund it |
| SwapTheorems.StepOrderExactly | contracts/atomic_swap/src/validation.rs:72-219 | every call that goes through keeps the storage invariant, and moves statuses only forward if and only if it is orderly |
| SwapTheorems.StepLocksExactly | contracts/atomic_swap/src/lib.rs:374-422 | where locks and live swaps match, a call that goes through leaves them matched if and only if it is safe for the locks |
| SwapTheorems.ActOrderExactly | contracts/atomic_swap/src/lib.rs:2609-2733 | an arbitration sets no status back if and only if the swap is live or already ended that way; a rollback if and only if it is live or Cancelled; a last scheduled payment if and only if it is Pending or Accepted; all other calls about one swap never do |
| SwapTheorems.ActLocksExactly | contracts/atomic_swap/src/lib.rs:901-973 | an arbitration or a rollback keeps locks and live swaps matched if and only if the swap is live or nobody holds its IP; a last scheduled payment if and only if the swap is live; all other calls about one swap always do |
| SwapTheorems.RunOrdered | contracts/atomic_swap/src/lib.rs:832-853 | along every run of orderly calls, whoever holds the locks, every swap keeps its IP, parties and token and its status moves only forward |
| SwapTheorems.RunInv | contracts/atomic_swap/src/swap.rs:14-21 | every run at all keeps the storage invariant |
| SwapTheorems.StatusChangesBounded | contracts/atomic_swap/src/lib.rs:832-853 | a swap changes status at most four times in any run of orderly calls, won auctions included: every change raises its rank |
| SwapSafety.LegalKeeps | contracts/atomic_swap/src/validation.rs:186-192 | a legal change to one swap keeps the invariant of the whole store, moves the status only forward, and keeps locks and live swaps matched |
| SwapSafety.OrderKeptExactly | contracts/atomic_swap/src/lib.rs:832-853 | a change in order keeps the order of all statuses if and only if its own swap moves forward |
| SwapSafety.LocksKeptExactly | contracts/atomic_swap/src/lib.rs:866-876 | where locks and live swaps match, a change that closes what it unlocks keeps them so if and only if it frees the IP of a swap that it closes, or one that nobody holds, and revives none |
| SwapSafety.KeptIffLegal | contracts/atomic_swap/src/lib.rs:901-973 | where they match, such a change keeps all this if and only if it is legal |
| SwapSafety.FreesOwnLock | contracts/atomic_swap/src/lib.rs:723-726 | where they match, it frees no lock but the one its own swap holds |
| SwapSafety.ChangeMovesSlack | contracts/atomic_swap/src/lib.rs:532-652 | a change to one swap moves the slack of its token by exactly its profit, and no other slack |
| SwapSafety.SlackKeptIffProfit | contracts/atomic_swap/src/lib.rs:901-973 | so it keeps every slack if and only if it makes no loss |
| SwapClaims.ClaimsCovered | contracts/atomic_swap/src/lib.rs:1201-1239 | a solvent contract holds any one claim together with the insurance pool |
| SwapActs.RevealSound | contracts/atomic_swap/src/lib.rs:655-829 | a reveal is a legal change, loses nothing, and pays no more than is held for its swap |
| SwapActs.VerifyAndCompleteSound | contracts/atomic_swap/src/lib.rs:2739-2875 | the same for completing with a key, with either outcome |
| SwapActs.CancelExpiredSound | contracts/atomic_swap/src/lib.rs:1274-1341 | the same for cancelling an expired swap |
| SwapActs.EscrowWithdrawSound | contracts/atomic_swap/src/lib.rs:3617-3663 | the same for withdrawing an escrow deposit: the stored deposit is the price |
| SwapActs.ClaimInsuranceSound | contracts/atomic_swap/src/lib.rs:1201-1239 | the same for an insurance payout, which never exceeds the pool |
| SwapActs.ResolveDisputeSound | contracts/atomic_swap/src/lib.rs:856-894 | the same for a dispute resolved either way |
| SwapActs.TimeoutSound | contracts/atomic_swap/src/lib.rs:1057-1088 | the same for both timeouts of a dispute |
| SwapActs.BatchAcceptSound | contracts/atomic_swap/src/lib.rs:2912-2957 | an unchecked item of a batch of acceptances is sound on a swap that is Pending, or was accepted earlier in the batch |
| SwapActs.BatchRevealSound | contracts/atomic_swap/src/lib.rs:3019-3105 | an unchecked item of a batch of reveals is sound on an Accepted swap |
| SwapActs.BatchArbitrateSound | contracts/atomic_swap/src/lib.rs:3296-3356 | the status-checked arbitration is sound |
| SwapActs.RollBackExactly | contracts/atomic_swap/src/lib.rs:901-973 | a rollback leaves the store in order from any status; it moves forward if and only if the swap is live or Cancelled, and treats the lock rightly if and only if the swap is live or its IP is not held |
| SwapActs.ArbitrateExactly | contracts/atomic_swap/src/lib.rs:2609-2733 | an arbitration leaves the store in order from any status, gives the swap the decided status, and treats the lock rightly if and only if the swap is live or its IP is not held |
| SwapActs.ScheduledPaymentExactly | contracts/atomic_swap/src/lib.rs:2319-2409 | a scheduled payment leaves the store in order from any status; the last one moves forward if and only if the swap is Pending or Accepted, and revives no swap if and only if it is live |
| SwapBatches.AcceptAllSafe | contracts/atomic_swap/src/lib.rs:2880-2965 | the writing pass of a batch of acceptances keeps invariant and slack, repeated ids included |
| SwapBatches.RevealAllSafe | contracts/atomic_swap/src/lib.rs:2969-3124 | the paying pass of a batch of reveals does, on different ids |
| SwapOpenings.EnrollKept | contracts/atomic_swap/src/lib.rs:383-441 | storing a new swap keeps the invariant; with the lock it keeps locks and live swaps matched |
| SwapOpenings.FinalizeAuctionSlack | contracts/atomic_swap/src/lib.rs:2070-2184 | closing an auction moves no slack: the bid it releases is the price the new swap claims |
| SwapOpenings.PlaceBidSafe | contracts/atomic_swap/src/lib.rs:1996-2067 | a bid keeps invariant and slack, and a solvent contract can always refund the leader |
| SwapLimits.BatchRevealBackedExactly | contracts/atomic_swap/src/lib.rs:2969-3124 | a batch of reveals keeps every slack if and only if no id is repeated |
| SwapLimits.StepKeptExactly | contracts/atomic_swap/src/validation.rs:72-219 | a call that goes through keeps invariant, order of statuses and match of locks together if and only if it is orderly and safe for the locks |
| SwapLimits.StepBackedExactly | contracts/atomic_swap/src/lib.rs:532-652 | a call that goes through keeps the slack of every token if and only if it is backed |
| SwapLimits.ActMovesSlack | contracts/atomic_swap/src/lib.rs:1242-1271 | a call about one swap moves the slack by an exact gain or loss: money left without an owner, or paid from what others own |
| SwapLimits.ActBackedExactly | contracts/atomic_swap/src/lib.rs:3672-3720 | such a call keeps every slack if and only if: an arbitration finds the price held, a rollback returns no premium, a report says the key is valid, a last payment finds the rest of the price held |
| SwapRollbacks.BatchRollbackOrderExactly | contracts/atomic_swap/src/lib.rs:977-1054 | a batch of rollbacks sets no status back if and only if each of its swaps is live or Cancelled |
| SwapRollbacks.BatchRollbackLocksExactly | contracts/atomic_swap/src/lib.rs:977-1054 | it keeps locks and live swaps matched if and only if each of its swaps is live or its IP is held by nobody outside the batch |
| SwapRollbacks.BatchRollbackBackedExactly | contracts/atomic_swap/src/lib.rs:977-1054 | a batch of rollbacks keeps every slack if and only if, token by token, what has been paid on its different Pending swaps covers the premiums of its different paid swaps |
| SwapRollbacks.RollBackAllFunded | contracts/atomic_swap/src/lib.rs:1017-1047 | slack and leftovers together fund a whole batch, in whatever order its swaps are listed |
| SwapUnlocks.StepFrees | contracts/atomic_swap/src/lib.rs:866-876 | in any state a call gives up the lock of an IP if and only if it closes a swap about that IP, whoever holds the lock |
| SwapUnlocks.FreesOwnExactly | contracts/atomic_swap/src/lib.rs:723-726 | so it frees no lock of a swap that it does not close if and only if no other swap holds the IP of one that it does close |
| SwapOpenings.WonAuctionTakesNoLock | contracts/atomic_swap/src/lib.rs:2118-2183 | settling an auction keeps locks and live swaps matched if and only if nobody won |
| SwapWitnesses.RepeatedRevealSpendsTwice | contracts/atomic_swap/src/lib.rs:3019-3105 | a run in which a batch names one swap twice and leaves the contract unable to pay another one |
| SwapWitnesses.BadKeyReportRuins | contracts/atomic_swap/src/lib.rs:3672-3720 | a run in which a reported bad key does |
| SwapWitnesses.LateArbitrationRuins | contracts/atomic_swap/src/lib.rs:2609-2733 | a run in which arbitrating a completed swap does, and turns its status around |
| SwapWitnesses.PremiumRollbackRuins | contracts/atomic_swap/src/lib.rs:901-973 | a run in which a returned premium does |
| SwapWitnesses.PremiumBatchLoses | contracts/atomic_swap/src/lib.rs:977-1054 | a run in which a batch of rollbacks returns a premium that nothing covers |
| SwapWitnesses.RaisedPriceRuins | contracts/atomic_swap/src/lib.rs:2319-2409 | a run in which the price of a swap is raised over its schedule, and the last payment makes 150 due of which 100 were collected |
| SwapWitnesses.LateRollbackTakesLock | contracts/atomic_swap/src/lib.rs:901-973 | a run in which rolling back a cancelled swap takes the lock of a later offer |
| SwapWitnesses.LatePaymentRevives | contracts/atomic_swap/src/lib.rs:2319-2409 | a run in which the last scheduled payment makes a cancelled swap Accepted |
| SwapWitnesses.WonAuctionUnlocked | contracts/atomic_swap/src/lib.rs:2070-2184 | a run in which a won auction leaves a live swap without a lock |
| SwapWitnesses.AuctionedIpSoldAgain | contracts/atomic_swap/src/lib.rs:723-726 | so that its IP is offered again, and completing the first swap takes the lock of the second |
| SwapWitnesses.RepeatedAcceptLogsTwice | contracts/atomic_swap/src/lib.rs:2912-2957 | a run in which a batch names one swap twice and its history says Accepted twice |
| SwapBook.RunBook | contracts/atomic_swap/src/lib.rs:383-403 | along any run no swap disappears or changes its IP, parties or token, and once it is no longer Pending it never is again and its price is fixed |
| SwapBook.ListsExact | contracts/atomic_swap/src/swap.rs:22-52 | along any run the stored list of a seller or buyer holds the ids of exactly his swaps, once each, in ascending order |
| BatchOpening.TwoPassesAreOne | contracts/atomic_swap/src/lib.rs:1826-1845 | validating all items and then writing them accepts the same inputs, and leaves the same state, as checking and writing in turn |
| BatchOpening.BatchInitiateAgrees | contracts/atomic_swap/src/lib.rs:3203-3292 | on 1 to 50 items the two batch initiations accept the same inputs and leave the same state |
| BatchOpening.BatchOpensInOrder | contracts/atomic_swap/src/lib.rs:1847-1893 | item i becomes the swap with the i-th next id and holds the lock of its own IP |
| BatchOpening.BatchListsBothParties | contracts/atomic_swap/src/swap.rs:22-52 | both parties' lists grow by exactly the new ids, in order |
| RevealBatch.BatchRevealsEach | contracts/atomic_swap/src/lib.rs:2969-3124 | on 1 to 50 different plain swaps a batch of reveals goes through exactly when single reveals do, and leaves the same state but for the completion times |
| RevealBatch.SingleAsksMore | contracts/atomic_swap/src/lib.rs:675-707 | the single form goes through exactly when the batch form does and signatures and conditions are met |
| RevealBatch.CollateralParts | contracts/atomic_swap/src/lib.rs:3085-3100 | both forms leave the same balances if and only if there is no collateral to hand out or the buyer is the seller |
| RevealBatch.SharesOfPrice | contracts/atomic_swap/src/lib.rs:734-757 | a reveal pays treasury, referrer and seller non-negative shares that add up to the price, with the fees rounded down, the buyer his collateral, and nobody else anything |
| RevealBatch.RepeatedSinglesFail | contracts/atomic_swap/src/lib.rs:2969-3124 | a list that names a swap twice never goes through as single reveals |
| SwapMoney.SettleFlow | contracts/atomic_swap/src/lib.rs:759-796 | transfers that are carried out change every balance by its flow and no other |
| SwapMoney.PaymentsCommute | contracts/atomic_swap/src/lib.rs:759-796 | two payments by the contract to others may be made in either order |
| SwapHistory.StepHistoryExactly | contracts/atomic_swap/src/lib.rs:1722-1738 | a call that goes through keeps every history climbing and not ahead of the status of its swap if and only if it meets `LogsOnce`, a condition on its arguments and on what the histories already say |
| SwapHistory.StepLogsExactly | contracts/atomic_swap/src/lib.rs:1722-1738 | whatever the statuses do, it keeps every history climbing if and only if what it writes comes once and is further along than what the history says |
| SwapHistory.BatchAcceptHistoryExactly | contracts/atomic_swap/src/lib.rs:2880-2965 | a batch of acceptances does if and only if no id is repeated |
| SwapHistory.BatchRevealHistoryExactly | contracts/atomic_swap/src/lib.rs:2969-3124 | a batch of reveals does if and only if no id is repeated |
| SwapHistory.BatchRollbackHistoryExactly | contracts/atomic_swap/src/lib.rs:977-1054 | a batch of rollbacks does if and only if no id is repeated and no history in it has ended |
| SwapHistory.ActHistoryExactly | contracts/atomic_swap/src/lib.rs:1722-1738 | a rollback does if and only if the history has not ended, a last payment if and only if it says no more than Pending, an arbitration unless the swap was rolled back, the others always |
| SwapHistory.RunHistory | contracts/atomic_swap/src/lib.rs:1722-1738 | in every run of calls that meet `LogsOnce` each stored history climbs strictly through the statuses at non-decreasing times, and is never ahead of the status of its swap |
| SwapHistory.StepGains | contracts/atomic_swap/src/lib.rs:1722-1738 | whatever the call, a history keeps what it had and gains only the present, once if the call repeats no swap |
| SwapHistory.HistoryIsTrace | contracts/atomic_swap/src/lib.rs:1715-1738 | in every run at all a stored history is, in order, made of statuses and times the swap really had; of different moments, and so a subsequence of what happened, if no batch repeats a swap |
| SwapAuctions.AuctionConserves | contracts/atomic_swap/src/lib.rs:1996-2067 | along any run each bidder is out of pocket by the highest bid if he leads and by nothing otherwise, and the contract has taken in exactly the highest bid |
| SwapAuctions.BidsClimb | contracts/atomic_swap/src/lib.rs:2021-2032 | accepted bids climb strictly, start at the minimum or above, and end in the highest bid |
| SwapAuctions.NoBidAfterClose | contracts/atomic_swap/src/lib.rs:2009-2019 | a closed auction takes no bid and never changes |
| SwapAuctions.ClosingHandsOver | contracts/atomic_swap/src/lib.rs:2070-2184 | closing a won auction turns the holding into an Accepted swap of the same price, IP, seller and leader, and moves no money |
| Installments.InstallmentsConserve | contracts/atomic_swap/src/lib.rs:2441-2486 | when instalments are all that changes a swap, the money collected is the paid amount, within the price, and the swap is Accepted exactly when it is the price |
| Installments.ScheduleConserves | contracts/atomic_swap/src/lib.rs:2319-2409 | when scheduled payments are all that changes a swap, the money collected is the sum of the flagged ones, in any order, and the swap is Accepted exactly when all are flagged |
| Installments.AcceptedWhenTotalCollected | contracts/atomic_swap/src/lib.rs:2319-2409 | when every part of the schedule that adds up to zero leaves out a negative payment, and the total does not saturate, acceptance comes exactly when the total has been collected |
| Installments.AcceptanceMeansTotal | contracts/atomic_swap/src/lib.rs:2319-2409 | this condition is exact: it holds if and only if on every run in which only scheduled payments change the swap, acceptance and a collected total come together |
| Installments.CollectedTooEarly | contracts/atomic_swap/src/lib.rs:2319-2409 | otherwise there is a run that pays everything else: the total is collected and the swap is still Pending |
| Installments.LastPaymentCovers | contracts/atomic_swap/src/lib.rs:2379-2404 | as long as the price is the total of the schedule, the last payment makes no more due than has been paid |
| Installments.TotalTellsAll | contracts/atomic_swap/src/lib.rs:2379-2386 | the collected sum tells whether all payments are flagged if and only if no payments of the schedule, negative ones included, add up to zero |
| Installments.NoZeroPartIffPositive | contracts/atomic_swap/src/lib.rs:2201-2316 | without negative payments that means that no payment is zero |
| Installments.NegativePaymentMisleads | contracts/atomic_swap/src/lib.rs:2201-2316 | after one payment of the schedule 4, -2, 2 the total is collected and two payments are missing |
| Installments.NegativePaymentBlocks | contracts/atomic_swap/src/lib.rs:2319-2409 | a swap whose schedule has a negative payment is never accepted by scheduled payments |
| Installments.StartsOnSchedule | contracts/atomic_swap/src/lib.rs:2201-2316 | a swap offered with a schedule starts with nothing paid, on no payment, and with its total as price |
| SwapSigners.LengthTestMeansAllSigned | contracts/atomic_swap/src/lib.rs:675-691 | along any run the length test of a reveal passes if and only if the required list names nobody twice and everybody on it has signed |
| SwapSigners.ApprovedMeansEnoughApproved | contracts/atomic_swap/src/lib.rs:547-557 | along any run the test on the number of approvals passes if and only if at least that many different accounts have approved |
| SwapSigners.StepKeepsSigners | contracts/atomic_swap/src/lib.rs:3806-3854 | recorded signers are always different members of the required list, and change only by signing |
| Common.CountingSignatures | contracts/atomic_swap/src/lib.rs:682-690 | different signers drawn from a list are as many as its entries exactly when it has no duplicates and all have signed |
| SwapAdmission.GoesThroughExactly | contracts/atomic_swap/src/lib.rs:485-3879 | in every store that is in order a call about one swap goes through if and only if the rules allow it, unless the contract lacks the funds: caller, status, times, key, approvals, signatures, conditions, reputation, and what the payer has |
| SwapAdmission.RunGoesThroughExactly | contracts/atomic_swap/src/lib.rs:485-3879 | along every run of backed calls from a new contract, if and only if the rules allow it |
| SwapPayments.PaysExactly | contracts/atomic_swap/src/lib.rs:485-3720 | a call about one swap gives every account exactly what the rules say, to the unit and in the token of the swap, and moves no other token |
| SwapOutcomes.LeavesExactly | contracts/atomic_swap/src/lib.rs:485-3879 | it leaves exactly the record, the history entry, the collateral, deposit and insurance, the other entries and the reputations that the rules say, and touches nothing else |
| SwapRefusals.RefusalsTruthful | contracts/atomic_swap/src/lib.rs:485-3879 | a refused call raises one of its own errors, and what that error says is true of the store |
| SwapDecisions.KeyDecides | contracts/atomic_swap/src/lib.rs:2739-2875 | completing with a key that goes through ends as Completed if the key is that of the commitment, with the price less the fee and the collateral for the seller and the fee for the treasury, and as Cancelled otherwise, with price and collateral for the buyer; nobody else gains |
| SwapDecisions.AdminDecides | contracts/atomic_swap/src/lib.rs:856-894 | a resolved dispute ends as Cancelled with the price for the buyer if refunded, and as Completed with the price less the fee for the seller if not; the collateral stays |
| SwapDecisions.ArbitratorDecides | contracts/atomic_swap/src/lib.rs:2609-2733 | an arbitration does the same and hands out the collateral with the price |
| SwapDecisions.TimeDecides | contracts/atomic_swap/src/lib.rs:1274-1341 | cancelling an expired swap pays the buyer price and collateral, a dispute that times out the price, and nobody else anything |
| SwapAcceptance.AcceptanceIsEarned | contracts/atomic_swap/src/lib.rs:532-652 | along any run an acceptance goes through only if at least the required number of different accounts have approved, every condition holds at the present price and time, and the buyer has the reputation asked for |
| SwapAcceptance.AcceptedExactlyIfEarned | contracts/atomic_swap/src/lib.rs:532-652 | along any run from a new contract, if and only if they have, and the contract is not paused, no collateral is stored already, and the buyer has collateral, price and premium |
| SwapAcceptance.ConditionalAcceptanceIsEarned | contracts/atomic_swap/src/lib.rs:485-529 | the conditional form needs the same approvals, and its own conditions to hold |
| SwapAcceptance.BatchAcceptanceIsEarned | contracts/atomic_swap/src/lib.rs:2880-2957 | a batch needs them for every swap that it names |
| SwapBatchRules.BatchDepositIsEach | contracts/atomic_swap/src/lib.rs:3529-3569 | a batch of deposits is one deposit after another, all by one buyer |
| SwapBatchRules.BatchCancelIsEach | contracts/atomic_swap/src/lib.rs:3131-3198 | a batch of cancellations is one after another, with the same error |
| SwapBatchRules.BatchRollbackIsEach | contracts/atomic_swap/src/lib.rs:977-1054 | a batch of 1 to 50 rollbacks is one after another, repeated ids included |
| SwapBatchRules.BatchAcceptIsEach | contracts/atomic_swap/src/lib.rs:2880-2965 | on different swaps whose conditions, reputation and collateral ask for nothing more, a batch of acceptances is one after another |
| SwapBatchRules.BatchArbitrateAdmits | contracts/atomic_swap/src/lib.rs:3296-3356 | a batch of arbitrations goes through if and only if its swaps are different and all Disputed and the fees fit, unless the contract lacks the funds |
| SwapBatchRules.BatchArbitrateDecides | contracts/atomic_swap/src/lib.rs:3296-3356 | with `refund` all its swaps end as Cancelled and the buyers are paid, without as Completed and the sellers, to the unit |
| SwapBatchOutcomes.BatchRevealAdmits | contracts/atomic_swap/src/lib.rs:2969-3030 | a batch of 1 to 50 reveals goes through if and only if every key is right for an Accepted swap of the seller and the fees fit, unless the contract lacks the funds; signatures and conditions are not asked for |
| SwapBatchOutcomes.BatchRevealPaysExactly | contracts/atomic_swap/src/lib.rs:3031-3124 | on different swaps it gives every account exactly its shares, with the collateral for the seller, and completes them all |
| SwapBatchOutcomes.BatchAcceptAdmits | contracts/atomic_swap/src/lib.rs:2880-2965 | a batch of 1 to 50 acceptances of different swaps goes through if and only if all are Pending offers to the buyer with enough approvals and he has all that is asked for, token by token |
| SwapBatchOutcomes.BatchAcceptPaysExactly | contracts/atomic_swap/src/lib.rs:2912-2957 | it takes exactly that from him, stores collateral that was not there and the premiums, and accepts exactly these swaps |
| SwapBatchRefusals.BatchRefusalsTruthful | contracts/atomic_swap/src/lib.rs:2880-3569 | a refused batch raises one of its own errors, and what it says of the store before the batch is true |
| SwapOfferOutcomes.RunObeys | contracts/atomic_swap/src/lib.rs:343-457 | along every run an initiation, single or in a batch, or an auction call goes through if and only if the rules allow it, unless the contract lacks the funds for a refund; it leaves exactly the new records, locks, lists and histories, or bids and balances; and refusals are true |
| SwapOfferOutcomes.RunOpensExactly | contracts/atomic_swap/src/lib.rs:1794-2184 | along every run of backed calls, if and only if the rules allow it |
| SwapOfferOutcomes.AddedUpIsSum | contracts/atomic_swap/src/lib.rs:2201-2316 | a schedule without negative payments is offered at its sum, or at the greatest number there is |
| SwapContract.AtomicSwap.InitiateSwap | contracts/atomic_swap/src/lib.rs:343-457 | exactly as specified, or refused with the store unchanged: offers one IP; refused by the first failing check |
| SwapContract.AtomicSwap.InitiateSwapWithSchedule | contracts/atomic_swap/src/lib.rs:2201-2316 | exactly as specified, or refused with the store unchanged: offers an IP against a payment schedule at its saturating total |
| SwapContract.AtomicSwap.InitiateSwapWithSigners | contracts/atomic_swap/src/lib.rs:3728-3802 | exactly as specified, or refused with the store unchanged: offers an IP whose reveal needs co-signers |
| SwapContract.AtomicSwap.InitiateEscrowSwap | contracts/atomic_swap/src/lib.rs:3371-3427 | exactly as specified, or refused with the store unchanged: offers an IP in escrow mode, not listed under the IP |
| SwapContract.AtomicSwap.BatchInitiateSwap | contracts/atomic_swap/src/lib.rs:1794-1912 | exactly as specified, or refused with the store unchanged: validates all items, each against all later ones, then writes them; hands out consecutive ids |
| SwapContract.AtomicSwap.BatchInitiateSwapWithInsurance | contracts/atomic_swap/src/lib.rs:3203-3292 | exactly as specified, or refused with the store unchanged: checks and writes one item at a time; a missing price aborts |
| SwapContract.AtomicSwap.BatchInitiateEscrow | contracts/atomic_swap/src/lib.rs:3433-3525 | exactly as specified, or refused with the store unchanged: the same in escrow mode, listed under each IP |
| SwapContract.AtomicSwap.AcceptSwap | contracts/atomic_swap/src/lib.rs:532-652 | exactly as specified, or refused with the store unchanged: collects collateral, price and premium, in this order, after all checks (when it goes through: `SwapAcceptance.AcceptedExactlyIfEarned`) |
| SwapContract.AtomicSwap.AcceptSwapConditional | contracts/atomic_swap/src/lib.rs:485-529 | exactly as specified, or refused with the store unchanged: attaches conditions that hold now and collects the price |
| SwapContract.AtomicSwap.AcceptSwapPartial | contracts/atomic_swap/src/lib.rs:1103-1136 | exactly as specified, or refused with the store unchanged: scales the price by the quantity, truncating, and collects it |
| SwapContract.AtomicSwap.EscrowDeposit | contracts/atomic_swap/src/lib.rs:3575-3610 | exactly as specified, or refused with the store unchanged: takes the price as a stored deposit |
| SwapContract.AtomicSwap.BatchEscrowDeposit | contracts/atomic_swap/src/lib.rs:3529-3569 | exactly as specified, or refused with the store unchanged: the same for a list of swaps of one buyer |
| SwapContract.AtomicSwap.BatchAcceptSwaps | contracts/atomic_swap/src/lib.rs:2880-2965 | exactly as specified, or refused with the store unchanged: checks all swaps, then collects for each |
| SwapContract.AtomicSwap.SubmitInstallmentPayment | contracts/atomic_swap/src/lib.rs:2441-2486 | exactly as specified, or refused with the store unchanged: takes a part of the price, and accepts when it is complete |
| SwapContract.AtomicSwap.MakeScheduledPayment | contracts/atomic_swap/src/lib.rs:2319-2409 | exactly as specified, or refused with the store unchanged: takes a due scheduled payment once, and accepts when all are made |
| SwapContract.AtomicSwap.RenegotiateSwap | contracts/atomic_swap/src/lib.rs:1142-1165 | exactly as specified, or refused with the store unchanged: stores a price offer for a Pending swap |
| SwapContract.AtomicSwap.AcceptRenegotiation | contracts/atomic_swap/src/lib.rs:1168-1195 | exactly as specified, or refused with the store unchanged: takes the offered price over |
| SwapContract.AtomicSwap.ExtendSwapExpiry | contracts/atomic_swap/src/lib.rs:1681-1710 | exactly as specified, or refused with the store unchanged: moves the expiry of a Pending swap strictly later |
| SwapContract.AtomicSwap.ApproveSwap | contracts/atomic_swap/src/lib.rs:1743-1788 | exactly as specified, or refused with the store unchanged: records an approver once |
| SwapContract.AtomicSwap.SetReputationMultiplier | contracts/atomic_swap/src/lib.rs:3868-3879 | exactly as specified, or refused with the store unchanged: sets the least reputation a buyer needs |
| SwapContract.AtomicSwap.SignSwapReveal | contracts/atomic_swap/src/lib.rs:3806-3854 | exactly as specified, or refused with the store unchanged: records a required signer once |
| SwapContract.AtomicSwap.RequestArbitration | contracts/atomic_swap/src/lib.rs:2510-2553 | exactly as specified, or refused with the store unchanged: starts the arbitration clock, the first time only |
| SwapContract.AtomicSwap.RaiseDispute | contracts/atomic_swap/src/lib.rs:832-853 | exactly as specified, or refused with the store unchanged: disputes an Accepted swap within the window |
| SwapContract.AtomicSwap.ResolveDispute | contracts/atomic_swap/src/lib.rs:856-894 | exactly as specified, or refused with the store unchanged: refunds or pays out a disputed price, collateral untouched (which: `SwapDecisions.AdminDecides`) |
| SwapContract.AtomicSwap.AutoResolveDispute | contracts/atomic_swap/src/lib.rs:1057-1088 | exactly as specified, or refused with the store unchanged: refunds a dispute that has timed out, without a history entry |
| SwapContract.AtomicSwap.AutoRefundTimeout | contracts/atomic_swap/src/lib.rs:2558-2603 | exactly as specified, or refused with the store unchanged: refunds a dispute whose arbitration has timed out |
| SwapContract.AtomicSwap.ArbitrateSwap | contracts/atomic_swap/src/lib.rs:2609-2733 | exactly as specified, or refused with the store unchanged: decides a swap in any status |
| SwapContract.AtomicSwap.BatchArbitrateSwaps | contracts/atomic_swap/src/lib.rs:3296-3356 | exactly as specified, or refused with the store unchanged: decides disputed swaps one after another |
| SwapContract.AtomicSwap.RevealKey | contracts/atomic_swap/src/lib.rs:655-829 | exactly as specified, or refused with the store unchanged: pays treasury, referrer and seller, in this order, and gives the collateral back |
| SwapContract.AtomicSwap.CheckReveal | contracts/atomic_swap/src/lib.rs:663-716 | exactly as specified, or refused with the store unchanged: makes the checks of a reveal in the order of the source |
| SwapContract.AtomicSwap.BatchRevealKeys | contracts/atomic_swap/src/lib.rs:2969-3124 | exactly as specified, or refused with the store unchanged: checks all keys, then pays for each swap |
| SwapContract.AtomicSwap.VerifyAndCompleteSwap | contracts/atomic_swap/src/lib.rs:2739-2875 | exactly as specified, or refused with the store unchanged: pays out on a valid key and refunds on an invalid one (`SwapDecisions.KeyDecides`) |
| SwapContract.AtomicSwap.CancelSwap | contracts/atomic_swap/src/lib.rs:1242-1271 | exactly as specified, or refused with the store unchanged: cancels a Pending swap at the cost of reputation |
| SwapContract.AtomicSwap.BatchCancelSwaps | contracts/atomic_swap/src/lib.rs:3131-3198 | exactly as specified, or refused with the store unchanged: the same for a list, which is returned |
| SwapContract.AtomicSwap.CancelPendingSwap | contracts/atomic_swap/src/lib.rs:1643-1676 | exactly as specified, or refused with the store unchanged: lets the buyer out of an expired offer |
| SwapContract.AtomicSwap.CancelExpiredSwap | contracts/atomic_swap/src/lib.rs:1274-1341 | exactly as specified, or refused with the store unchanged: refunds price and collateral of an expired accepted swap, to the buyer (`SwapDecisions.TimeDecides`) |
| SwapContract.AtomicSwap.EscrowWithdraw | contracts/atomic_swap/src/lib.rs:3617-3663 | exactly as specified, or refused with the store unchanged: returns the deposit of an expired escrow swap |
| SwapContract.AtomicSwap.AdminRollbackSwap | contracts/atomic_swap/src/lib.rs:901-973 | exactly as specified, or refused with the store unchanged: refunds price, collateral and premium, and cancels |
| SwapContract.AtomicSwap.BatchRollbackSwaps | contracts/atomic_swap/src/lib.rs:977-1054 | exactly as specified, or refused with the store unchanged: checks all swaps, then rolls each back |
| SwapContract.AtomicSwap.ValidateAndRollbackSwap | contracts/atomic_swap/src/lib.rs:3672-3720 | exactly as specified, or refused with the store unchanged: returns nine tenths of a completed price within a day, and answers whether it did |
| SwapContract.AtomicSwap.ClaimInsurance | contracts/atomic_swap/src/lib.rs:1201-1239 | exactly as specified, or refused with the store unchanged: pays the price or what the pool has |
| SwapContract.AtomicSwap.StartIpAuction | contracts/atomic_swap/src/lib.rs:1917-1993 | exactly as specified, or refused with the store unchanged: opens an auction for an IP that has none |
| SwapContract.AtomicSwap.PlaceBid | contracts/atomic_swap/src/lib.rs:1996-2067 | exactly as specified, or refused with the store unchanged: refunds the leader and takes a higher bid |
| SwapContract.AtomicSwap.FinalizeAuction | contracts/atomic_swap/src/lib.rs:2070-2184 | exactly as specified, or refused with the store unchanged: closes an ended auction and stores the winner's Accepted swap |
| SwapRoutines.EvaluateConditions | contracts/atomic_swap/src/lib.rs:461-480 | says whether every condition holds |
| SwapRoutines.CheckOffers | contracts/atomic_swap/src/lib.rs:1826-1845 | the validating pass: first failing check, with every item compared to all later ones |
| SwapRoutines.StoreOffers | contracts/atomic_swap/src/lib.rs:1847-1893 | the writing pass |
| SwapRoutines.CollectInFull | contracts/atomic_swap/src/lib.rs:587-634 | carries out the planned transfers of an acceptance, or fails as the first of them does |
| SwapRoutines.PayForKey | contracts/atomic_swap/src/lib.rs:734-818 | carries out the planned transfers of a reveal |
| SwapRoutines.PayForKeyInBatch | contracts/atomic_swap/src/lib.rs:3031-3100 | carries out those of a reveal in a batch, in its different order |
| SwapRoutines.PayOutArbitrated | contracts/atomic_swap/src/lib.rs:2662-2707 | carries out those of an arbitration for the seller: collateral first |
| SwapRoutines.PayBackAll | contracts/atomic_swap/src/lib.rs:918-942 | carries out those of a rollback |
| SwapRoutines.UpdateReputation | contracts/atomic_swap/src/lib.rs:3882-3895 | moves a reputation by the given amount as far as the bounds 0 and 100 allow |
| SwapHost.Invoke | Cargo.toml:9-15 | any call on the contract changes its store as `Step` says, or not at all |
| SwapHost.Replay | Cargo.toml:9-15 | the store of a contract under any list of events is `Run`; so a contract that has really been called is solvent, and its locks name exactly the live swaps, under the conditions of the run theorems |
| RegistryAgreement.RunAgrees | contracts/ip_registry/src/lib.rs:384-507 | in every reachable registry ids are 1 to NextId - 1, hashes differ, the commitment index holds exactly the current hashes with their owners, and each owner's list exactly his named ids, once each |
| RegistryAgreement.TransferAgrees | contracts/ip_registry/src/lib.rs:809-873 | a transfer keeps this, also to the same owner and to the contract |
| RegistryAgreement.RotateAgrees | contracts/ip_registry/src/lib.rs:2805-2871 | so does a key rotation |
| RegistryAgreement.CommitAllAgrees | contracts/ip_registry/src/lib.rs:535-625 | so does a batch, which refuses a hash repeated within it |
| RegistryAgreement.CommitAllAnonymousAgrees | contracts/ip_registry/src/lib.rs:670-767 | so does an anonymous batch |
| RegistryAgreement.MergeOnlyRevokes | contracts/ip_registry/src/lib.rs:2442-2485 | a merge that goes through names one record twice and only revokes it |
| RegistryAgreement.OwnerListExact | contracts/ip_registry/src/lib.rs:1250-1255 | an ordinary owner's list holds exactly the ids he owns |
| RegistryAgreement.FindIsScan | contracts/ip_registry/src/lib.rs:2404-2431 | the search through the owner's list finds what trying every named record would |
| RegistryAgreement.NothingPassesFullDifficulty | contracts/ip_registry/src/validation.rs:42-48 | no commit at difficulty 256 or more succeeds |
| RegistryOutcomes.RunObeys | contracts/ip_registry/src/lib.rs:384-3583 | in every reachable registry every call goes through if and only if the rules allow it, in terms of records and hashes; it leaves exactly the records, lists, index, rotations, versions, signatures and delegations that they say; and refusals are true |
| RegistryOutcomes.RotatesExactly | contracts/ip_registry/src/lib.rs:2805-2871 | a rotation goes through if and only if the record exists, an account owns it, it is not revoked, the presented value is its hash, and the new hash is neither zero nor that of any record; all records stay but for this one's hash, and the old hash is the last of its rotations |
| ProofOfWork.LeadingZerosExact | contracts/ip_registry/src/validation.rs:151-170 | for a difficulty within the length, the mask test passes if and only if the hash read as a number is below two to the remaining bits |
| ProofOfWork.LeadingZerosBeyond | contracts/ip_registry/src/validation.rs:151-170 | beyond the length only zero passes |
| ProofOfWork.LeadingZerosDownward | contracts/ip_registry/src/validation.rs:151-170 | what passes a difficulty passes every lower one |
| ProofOfWork.OnlyZeroPasses | contracts/ip_registry/src/validation.rs:151-170 | at full length or more exactly the zero string passes |
| ProofOfWork.MaskBounds | contracts/ip_registry/src/lib.rs:1336-1348 | a byte is free of the masked bits exactly when it is below the matching power of two |
| ProofOfWork.RequirePow | contracts/ip_registry/src/validation.rs:151-170 | the loop computes the leading-zeros test |
| VersionForest.RunForest | contracts/ip_registry/src/lib.rs:1615-1773 | in every reachable registry parents are older, and the chain of every root is the root and all its descendants, oldest first |
| VersionForest.ChainsPartition | contracts/ip_registry/src/lib.rs:1872-1900 | a chain lists exactly the records with one root, ascending; members share it, and chains partition the ids |
| VersionForest.LineageWithinChain | contracts/ip_registry/src/lib.rs:1792-1826 | a lineage is the chain without deeper descendants, and equals it exactly when all descendants are direct children |
| VersionForest.NewVersion | contracts/ip_registry/src/lib.rs:1723-1760 | a version goes to the end of the chain of its tree |
| Merkle.Completeness | contracts/ip_registry/src/lib.rs:2004-2107 | the proof built for any leaf is accepted, whatever the number of leaves |
| Merkle.Soundness | contracts/ip_registry/src/lib.rs:2081-2107 | an accepted proof of full length is for a leaf, or exhibits a collision between the proof path and the tree |
| Merkle.InjectiveSoundness | contracts/ip_registry/src/lib.rs:2081-2107 | with an injective pair hash it is for a leaf |
| Merkle.RootExactly | contracts/ip_registry/src/lib.rs:2050-2079 | the root of no leaves is zero, of one the leaf, of more the root of the level that joins neighbours in order and an odd last node with itself |
| Merkle.VerifierStaysSmall | contracts/ip_registry/src/lib.rs:2095-2103 | built proofs are as long as the tree is high, and the verifier ends with fewer than 2n candidates |
| Merkle.HeightIsLog | contracts/ip_registry/src/lib.rs:2050-2079 | the height is the logarithm rounded up |
| Merkle.NextLevel | contracts/ip_registry/src/lib.rs:2060-2075 | the loop joins neighbours, the last of an odd level with itself |
| Merkle.MerkleRoot | contracts/ip_registry/src/lib.rs:2050-2079 | the level loop ends in the top of the tree, and in zero without leaves |
| Merkle.BuildProof | contracts/ip_registry/src/lib.rs:2004-2048 | the loop collects the siblings on the way up |
| Merkle.VerifyProof | contracts/ip_registry/src/lib.rs:2081-2107 | the loops try both orders at every step |
| RegistryMerkle.HashesFollowIds | contracts/ip_registry/src/lib.rs:1930-1952 | the leaves of an owner are the hashes of the ids listed under him, in the order of the list |
| RegistryMerkle.ReachableProofAccepted | contracts/ip_registry/src/lib.rs:1973-2001 | in every reachable registry the proof generated for a named IP is accepted |
| RegistryMerkle.ProofAcceptedExactly | contracts/ip_registry/src/lib.rs:1930-1952 | unless the pair hash collides between its path and the tree, the generated proof is accepted if and only if the IP is named |
| RegistryMerkle.ReachableProofExactly | contracts/ip_registry/src/lib.rs:1930-2001 | the same in every reachable registry, whatever the contract itself owns |
| RegistryMerkle.AnonymousNeedsCollision | contracts/ip_registry/src/lib.rs:1930-1952 | an accepted proof of an anonymous IP exhibits such a collision |
| RegistryMerkle.InjectiveProofExactly | contracts/ip_registry/src/lib.rs:1930-2001 | with an injective pair hash exactly the named IPs can be proved |
| RegistryMerkle.AnonymousIpRejected | contracts/ip_registry/src/lib.rs:670-767 | a run after which the proof of an anonymous IP is rejected, whatever the pair hash |
| ThresholdSignatures.VerifiedMeansEnoughSigned | contracts/ip_registry/src/lib.rs:1066-1075 | along any run verification says yes exactly when at least M different authorized signers have signed since the last configuration |
| DelegationSearch.SearchIsReachability | contracts/ip_registry/src/lib.rs:3585-3611 | on any delegations, cycles included, the search says yes exactly when a path of 1 to 5 delegations exists |
| DelegationSearch.RunDepths | contracts/ip_registry/src/lib.rs:3401-3461 | no stored depth reaches the limit |
| DelegationSearch.Search | contracts/ip_registry/src/lib.rs:3585-3611 | the recursive loop computes the search |
| RegistryContract.Registry.CommitIp | contracts/ip_registry/src/lib.rs:384-507 | exactly as specified, or refused with the store unchanged: registers a new hash |
| RegistryContract.Registry.BatchCommitIp | contracts/ip_registry/src/lib.rs:535-625 | exactly as specified, or refused with the store unchanged: registers a list of new hashes, in order |
| RegistryContract.Registry.BatchCommitIpAnonymous | contracts/ip_registry/src/lib.rs:670-767 | exactly as specified, or refused with the store unchanged: registers hashes under the contract, listed under nobody |
| RegistryContract.Registry.CommitIpDelegated | contracts/ip_registry/src/lib.rs:3500-3583 | exactly as specified, or refused with the store unchanged: registers a hash for an owner who has delegates |
| RegistryContract.Registry.TransferIp | contracts/ip_registry/src/lib.rs:809-873 | exactly as specified, or refused with the store unchanged: moves a record between owners in all indexes |
| RegistryContract.Registry.RevokeIp | contracts/ip_registry/src/lib.rs:894-916 | exactly as specified, or refused with the store unchanged: revokes a record once |
| RegistryContract.Registry.RotateCommitmentKey | contracts/ip_registry/src/lib.rs:2805-2871 | exactly as specified, or refused with the store unchanged: replaces the hash of a record whose old key is shown (`RegistryOutcomes.RotatesExactly`) |
| RegistryContract.Registry.MergeDuplicateCommitment | contracts/ip_registry/src/lib.rs:2442-2485 | exactly as specified, or refused with the store unchanged: merges a record into another of the same hash |
| RegistryContract.Registry.RequireThresholdSignatures | contracts/ip_registry/src/lib.rs:988-1017 | exactly as specified, or refused with the store unchanged: sets signers and threshold, and drops earlier signatures |
| RegistryContract.Registry.AddThresholdSignature | contracts/ip_registry/src/lib.rs:1024-1056 | exactly as specified, or refused with the store unchanged: records an authorized signer once |
| RegistryContract.Registry.DelegateCommitmentAuthority | contracts/ip_registry/src/lib.rs:3401-3461 | exactly as specified, or refused with the store unchanged: adds a delegate one level below the delegator |
| RegistryContract.Registry.RevokeDelegation | contracts/ip_registry/src/lib.rs:3463-3494 | exactly as specified, or refused with the store unchanged: removes a delegate |
| RegistryContract.Registry.CreateIpVersion | contracts/ip_registry/src/lib.rs:1615-1773 | exactly as specified, or refused with the store unchanged: registers a version; the walk for cycles never finds one |
| RegistryContract.Registry.CommitIpVersion | contracts/ip_registry/src/lib.rs:1837-1840 | exactly as specified, or refused with the store unchanged: the same for a signing owner |
| RegistryContract.WalkUp | contracts/ip_registry/src/lib.rs:1632-1658 | the walk meets strictly falling ids and ends at the root, so its cycle check never fires |
| RegistryContract.FindRoot | contracts/ip_registry/src/lib.rs:1727-1741 | the walk to the root ends |
| RegistryContract.Registry.GetIpVersionChain | contracts/ip_registry/src/lib.rs:1872-1900 | returns the chain stored for the root |
| RegistryContract.Registry.GetIpLineage | contracts/ip_registry/src/lib.rs:1792-1826 | returns the root and its direct children |
| RegistryContract.Registry.FindDuplicateCommitment | contracts/ip_registry/src/lib.rs:2404-2431 | returns the first id with the hash in its owner's list |
| RegistryContract.Registry.GenerateMerkleProof | contracts/ip_registry/src/lib.rs:1973-2001 | builds the proof for the last place of the hash among the owner's leaves |
| RegistryContract.Registry.VerifyIpMerkleProof | contracts/ip_registry/src/lib.rs:1930-1952 | checks a proof against the owner's leaves |
| RegistryContract.Registry.VerifyThresholdSignatures | contracts/ip_registry/src/lib.rs:1066-1075 | says yes exactly when the different signers recorded since the last configuration reach the threshold |
| RegistryContract.Registry.IsDelegateOf | contracts/ip_registry/src/lib.rs:3496-3498 | runs the search |
| RegistryContract.Replay | contracts/ip_registry/src/lib.rs:1615-1773 | a new registry under any list of calls is `Run` |
| UpgradeSchema.CheckSchemaCompatibility | contracts/atomic_swap/src/upgrade.rs:123-167 | passes if and only if the version is greater and every listed function, error and key is found unchanged; the first failing item decides the error |
| UpgradeSchema.VerdictExact | contracts/atomic_swap/src/upgrade.rs:123-167 | the same of the specification, and what each of the three errors means |
| UpgradeSchema.SearchFunction | contracts/atomic_swap/src/upgrade.rs:199-207 | finds the first entry of a name |
| UpgradeSchema.SearchError | contracts/atomic_swap/src/upgrade.rs:209-217 | finds the first entry of a name |
| Common.Contains | contracts/atomic_swap/src/upgrade.rs:219-226 | the search loop answers exactly whether the value is listed |
| UpgradeSchema.Upgrader.ValidateUpgrade | contracts/atomic_swap/src/upgrade.rs:176-195 | stores the first manifest, and later ones only when compatible, with the error of the check otherwise |
| UpgradeSchema.CompatibleIsTransitive | contracts/atomic_swap/src/upgrade.rs:123-167 | compatibility is transitive and never goes both ways |
| UpgradeSchema.UpgradesKeepPromises | contracts/atomic_swap/src/upgrade.rs:176-195 | whatever upgrades are tried, every signature, code and key that a stored manifest answers is answered the same later |
| UpgradeSchema.UpgradableMeansConsistent | contracts/atomic_swap/src/upgrade.rs:132-145 | a manifest has a compatible successor if and only if repeated names in it agree |
| ReferenceSimulation.RunSimulated | tests/reference_impl.py:49-193 | every run of both contracts in which all calls go through is a run of the reference, with the same ids, records, locks and statuses |
| ReferenceSimulation.StepSimulated | tests/reference_impl.py:130-185 | what the contracts accept the reference accepts, with the same outcome |
| ReferenceSimulation.StartsAlike | tests/reference_impl.py:124-129 | new contracts look like the initial reference |
| ReferenceModel.Registry.Commit | tests/reference_impl.py:56-79 | stores a record, or raises before anything changes |
| ReferenceModel.Registry.Revoke | tests/reference_impl.py:86-90 | marks a record revoked |
| ReferenceModel.AtomicSwap.Initiate | tests/reference_impl.py:130-159 | stores a Pending swap and its lock |
| ReferenceModel.AtomicSwap.Accept | tests/reference_impl.py:161-165 | accepts a Pending swap |
| ReferenceModel.AtomicSwap.Reveal | tests/reference_impl.py:167-176 | completes an Accepted swap and deletes its lock |
| ReferenceModel.AtomicSwap.Cancel | tests/reference_impl.py:178-185 | cancels a Pending or Accepted swap |

## Left out

- `api-server`, the client, scripts, fuzz harnesses, TTL extension, events, WASM deployment: no contract logic.
- Hash internals: SHA-256 is a parameter (the pair hash of the Merkle tree) or a presented value (keys and rotations). Preimages, Ed25519 and notarization are not modelled.
- The width of `u64` counters, timestamps and expiries, and of `u32` lengths: they are unbounded, except the end time of an auction, whose overflow traps. `i128` amounts are bounded where the code multiplies, adds to the pool or saturates.
- Arithmetic overflow and a failed `unwrap` are one error, `Trap`.
- Pause switch, admin, registry answers, the clock, other holders' balances and the claimable flags change between calls as `Surround` says; their setters are not modelled. The admin seed written by the first initiation, the oracle, multi-currency data and cancellation reasons are dropped.
- Secrets and blinding factors travel as one digest, so the two length tests of a batch of reveals are one.
- Of the registry: licences, access grants, categories, staking, disputes, ownership challenges, compression, encryption, shards, audit trail, checksum, renewal, strength score, co-owner lists outside a merge.
- In place updates inside one call: a method works on a local copy of the store, in the order of the source, and stores it at the end. What the intermediate writes would show to a nested call is not captured; the modelled tokens and registry never call back.
- SwapTheorems.RunSolvent: stated for runs of `Backed` calls, because the code breaks it otherwise; `SwapLimits.StepBackedExactly` proves for every call that the condition is exact.
- SwapTheorems.LockBijection: stated for runs of `LockSafe` calls, which settle no won auction, because the code breaks it otherwise; `SwapTheorems.StepLocksExactly` proves for every call that the condition is exact.
- SwapTheorems.StatusChangesBounded: stated for runs of `Orderly` calls, because the others set statuses back; `SwapTheorems.StepOrderExactly` proves for every call that the condition is exact.
- SwapHistory.RunHistory: stated for runs of calls that meet `LogsOnce`, because the others break it; `SwapHistory.StepHistoryExactly` proves for every call that the condition is exact.
- SwapLimits.StepBackedExactly: sellers, buyers and referrers other than the contract itself; a payment to oneself costs nothing.
- RevealBatch.BatchRevealsEach: referrers other than the contract itself, because otherwise the order of payments decides whether the funds suffice.
- ReferenceSimulation.RunSimulated: the two contracts' hashes are related by an injective coding.
