# Callora contracts: a verified model

This project models the Callora smart contracts and proves what they keep over every run: the
settlement ledger (`contracts/settlement`), the vault (`contracts/vault`), the revenue pool
(`contracts/revenue_pool`) and the snapshot diff (`contracts/helpers`).

## How it is organised

| file | contents |
|---|---|
| `Base.dfy`, `SortedIndex.dfy`, `Ledger.dfy` | checked integers and addresses; the sorted developer index; map sums and token transfers |
| `Settlement.dfy` | the settlement contract as a state machine: every entrypoint as a function of the state, calls and runs |
| `Contract.dfy` | the same entrypoints as methods over storage fields, with the source's loops and rollbacks, each proved equal to the state machine |
| `Effects.dfy`, `VaultEffects.dfy` | what every call does to the storage and when it is refused, in fields and literal constants only; so the state machines are pinned independently of how they are written |
| `History.dfy` | the journal against the calls: what a run journals is what its accepted calls say, at the ledger times at which they were made |
| `Runs.dfy` | every call is a sequence of small steps; what each small step keeps, every run keeps |
| `Acceptance.dfy`, `BatchCredit.dfy`, `Settling.dfy` | exactly what is accepted; batched credits and batched withdrawals against single ones |
| `Conservation.dfy`, `Accounts.dfy`, `Backing.dfy`, `Replay.dfy`, `DailyCap.dfy`, `MigrationTimelock.dfy` | properties of all runs |
| `StorageMigration.dfy`, `Pagination.dfy` | two cursors over an index that grows meanwhile |
| `Vault.dfy`, `VaultContract.dfy`, `VaultRuns.dfy` | tracked balance, batch deductions, three time locks |
| `RateLimit.dfy`, `ColdStorage.dfy`, `RevenuePool.dfy`, `SnapshotDiff.dfy`, `Archive.dfy` | the remaining algorithms |

A call commits a new state (`Done`), returns an error (`Err`), or panics (`Panic`). The host rolls a panic
back, so the methods restore a saved copy. An error inside `batch_settle` is caught and not rolled back; the
withdrawal method therefore has to write nothing before it, and is proved to. The journal of a state lists
what the contract accepted, in order; nothing reads it, and the run theorems speak about it. Ledger time is
part of the state and only moves forward. Tokens are balance maps with the token contract's transfer; callers
are taken as authenticated, and the contracts' own role checks are modelled.

Where the code and its documentation differ, the code is modelled:

- `set_minimum_balance` is documented as advisory (`contracts/settlement/src/lib.rs:694`), but withdrawals enforce it (`contracts/settlement/src/lib.rs:450`).
- `get_total_received` is documented as cumulative, but its slot is only ever set to 0 (`contracts/settlement/src/lib.rs:65`); conservation is stated with the journal instead.
- A batch that names a developer twice is rejected, because the first check raises that developer's mark (`BatchAcceptance`).
- The vault's code keeps no request markers, though its documentation describes them.

Some promises hold only under a condition, which is proved to be exact:

| promise | exact condition | proved in |
|---|---|---|
| a developer's withdrawals of a day never exceed its cap unless that is 0 (`contracts/settlement/INVARIANTS.md:37`) | from one cap setting to the next it holds iff the new cap is 0, or positive and not below what was withdrawn that day; so a lowered and a negative cap can break it | `CapSettingExact`, `LoweredCapBreaks`, `NegativeCapBreaks` |
| credits received after a balance-migration proposal stay at the source (`contracts/settlement/src/lib.rs:352-353`) | while the USDC token is not reconfigured: iff nothing went out of the source between proposal and execution. When it is, the approved token decides which balance the approved amount leaves, as the proposal does not record it | `LaterCreditsStay`, `ApprovedTokenExact`, `SpendingTakesLaterCredit`, `TokenChangeTakesLaterCredit` |
| an execution fails once the source has spent enough of the approved balance (`docs/ADMIN_BALANCE_MIGRATION.md:32-33`) | in the approved token: iff more went out since the proposal than came in | `SpendingRefusalExact`, `SpendingTakesLaterCredit` |
| `archive_events` returns the number of events archived (`contracts/settlement/src/archive.rs:34`) | iff no index it passes is empty | `CountExact` |
| a page call that reports completion has migrated all slots (`contracts/settlement/src/migrate.rs:149`) | unless the migration was closed before: iff every V1 holder sits at or after its offset | `ClosingPageExact` |
| the vault's tracked balance is never negative (`INVARIANTS.md:5`) | iff the initial balance is not negative; `init` does not check it | `NeverNegativeExact`, `NegativeFromInit` |
| lazy refill is refill at every ledger, for all runs that span at most n ledgers | iff the refill of n ledgers fits in an i128, or the capacity is 0 | `RunAgreement`, `OverflowAgreement`, `OverflowOccurs` |
| a non-empty `batch_deduct` is its single deductions | they differ iff the vault settles with itself, would let the caller deduct these amounts from its tracked balance, and holds each amount but not the total; in particular the batch fails whenever the single deductions do | `BatchAgreement`, `SelfSettlementDiffers` |
| `chunk_iter` returns all payments | iff the chunk size is positive, or there are none | `ChunksComplete` |

## Model

| member | source | states |
|---|---|---|
| SortedIndex.SortedInsert | contracts/settlement/src/lib.rs:1248-1260 | the two scans compute the sorted insertion |
| SortedIndex.InsertShifts | contracts/settlement/src/lib.rs:1248-1260 | insertion adds exactly one address and moves every other one by at most one position, to the right |
| SortedIndex.InsertSorted | contracts/settlement/src/lib.rs:1245-1247 | the index stays in strictly ascending order |
| Ledger.TransferFacts | contracts/settlement/src/lib.rs:495 | a token transfer conserves the supply and moves the amount between exactly two holders |
| Contract.CalloraSettlement.Init | contracts/settlement/src/lib.rs:39-66 | a new contract is empty, sound and at storage version 1 |
| Contract.CalloraSettlement.CheckDeveloper | contracts/settlement/src/replay_guard.rs:33-51 | raises the developer's mark, or reports a replay and writes nothing |
| Contract.CalloraSettlement.CheckPool | contracts/settlement/src/replay_guard.rs:57-68 | raises the pool's mark, or reports a replay and writes nothing |
| Contract.CalloraSettlement.ReceivePayment | contracts/settlement/src/lib.rs:88-188 | the step-by-step credit, with its rollbacks, is the state machine's payment |
| Contract.CalloraSettlement.BatchReceivePayment | contracts/settlement/src/lib.rs:206-268 | the three loops are the state machine's batch; any panic restores the state |
| Contract.CalloraSettlement.CheckItems | contracts/settlement/src/lib.rs:226-231 | the replay loop raises every mark in order or reports the first replay |
| Contract.CalloraSettlement.CreditItems | contracts/settlement/src/lib.rs:235-267 | the credit loop credits and indexes every item in order, or panics at the first overflow |
| Contract.CalloraSettlement.ForceCreditDeveloper | contracts/settlement/src/lib.rs:720-772 | the admin's manual credit |
| Contract.CalloraSettlement.RequireClaimWindowOpen | contracts/settlement/src/lib.rs:631-643 | open without a window, otherwise inclusive at both ends |
| Contract.CalloraSettlement.CurrentDaily | contracts/settlement/src/lib.rs:457-470 | the counter restarts on a new epoch day |
| Contract.CalloraSettlement.CheckWithdrawal | contracts/settlement/src/lib.rs:426-494 | the checks of a withdrawal, in the source's order |
| Contract.CalloraSettlement.Disburse | contracts/settlement/src/lib.rs:491-506 | the transfer and the writes after it |
| Contract.CalloraSettlement.WithdrawDeveloperBalance | contracts/settlement/src/lib.rs:419-520 | an error or panic leaves the state untouched without any rollback |
| Contract.CalloraSettlement.BatchSettle | contracts/settlement/src/batch.rs:37-63 | the loop computes the fold of withdrawals; only a panic undoes the batch |
| Contract.CalloraSettlement.ProposeBalanceMigration | contracts/settlement/src/admin.rs:25-66 | snapshots the source balance and fixes the deadline |
| Contract.CalloraSettlement.ExecuteBalanceMigration | contracts/settlement/src/admin.rs:68-132 | executes the pending record once matured |
| Contract.CalloraSettlement.MoveDeveloperBalance | contracts/settlement/src/admin.rs:77-117 | both balances, the index and the pending slot after an execution |
| Contract.CalloraSettlement.MigrateDeveloperSlot | contracts/settlement/src/migrate.rs:228-243 | merges and removes one V1 slot, or panics on overflow |
| Contract.CalloraSettlement.MigrateV1ToV2 | contracts/settlement/src/migrate.rs:95-119 | the one-shot loop merges the whole index and sets version 2 |
| Contract.CalloraSettlement.MigrateSlots | contracts/settlement/src/migrate.rs:188-197 | the counter loop merges exactly the positions from the offset to the page end |
| Contract.CalloraSettlement.MigrateV1ToV2Page | contracts/settlement/src/migrate.rs:158-207 | one page: merged slice, next offset, completion flag |
| Contract.CalloraSettlement.MigrateSingleDeveloper | contracts/settlement/src/migrate.rs:246-259 | merges one developer's slot |
| Contract.CalloraSettlement.GetDeveloperBalancesCursor | contracts/settlement/src/pagination.rs:31-86 | the single pass returns the page after the cursor, each record with its current balance, and the next cursor |
| Acceptance.PaymentAcceptance | contracts/settlement/src/lib.rs:97-151 | exactly which payments are accepted |
| Acceptance.WithdrawAcceptance | contracts/settlement/src/lib.rs:425-495 | exactly which withdrawals are accepted |
| Acceptance.OverdraftVerdict | contracts/settlement/src/lib.rs:447-455 | which of two errors an overdraft gets |
| Acceptance.ExecutionAcceptance | contracts/settlement/src/admin.rs:68-93 | exactly which migration executions are accepted |
| Effects.DeveloperPaymentEffect | contracts/settlement/src/lib.rs:103-187 | an accepted payment adds exactly its amount to exactly one balance, raises exactly one mark to its number, leaves the pool, and is journalled once |
| Effects.PoolPaymentEffect | contracts/settlement/src/lib.rs:113-125 | an accepted pool payment adds exactly its amount to the pool, at the current time, and raises the pool's mark |
| Effects.ForceCreditEffect | contracts/settlement/src/lib.rs:720-772 | exactly which manual credits are accepted; one adds exactly its amount to one balance and touches no mark |
| Effects.BatchEffect | contracts/settlement/src/lib.rs:224-267 | each developer gains exactly what the items bring it, exactly the named marks rise, the pool stays, one credit per item is journalled |
| Effects.WithdrawVerdict | contracts/settlement/src/lib.rs:425-495 | which error or panic every withdrawal gets, by the first check it fails |
| Effects.WithdrawEffect | contracts/settlement/src/lib.rs:487-506 | every holder, every balance and the daily counter after an accepted withdrawal, and its journalled day and cap |
| Effects.WindowRefusalExact | contracts/settlement/src/lib.rs:631-643 | refused for the window iff there is one and the time lies before its start or after its end |
| Effects.WindowHoldsOverRuns | contracts/settlement/src/lib.rs:538-643 | from an accepted setting until the next change, through any calls, withdrawals are refused for the window exactly outside it; after a clearing never |
| Effects.OutcomeExact | contracts/settlement/src/batch.rs:24-35 | which outcome a batch reports for each reason of refusal |
| Effects.ProposalEffect | contracts/settlement/src/admin.rs:25-66 | exactly which proposals are accepted; the stored amount is the balance of now, the deadline one day from now |
| Effects.ExecutionEffect | contracts/settlement/src/admin.rs:68-132 | an execution happens at or after the stored deadline, moves the stored amount between two balances, and clears the slot |
| Effects.ExecutionWaitsADay | contracts/settlement/src/admin.rs:49-74 | whatever runs in between, the clock has advanced by at least 86400 seconds when a proposal is executed |
| Effects.OneShotEffect | contracts/settlement/src/migrate.rs:95-119 | exactly when the one-shot migration succeeds, and every balance and slot after it |
| Effects.PageEffect | contracts/settlement/src/migrate.rs:158-207 | exactly when a page succeeds, where it stops, and every balance and slot after it |
| Effects.SingleEffect | contracts/settlement/src/migrate.rs:228-259 | exactly when a single migration succeeds, and every balance and slot after it |
| Effects.OutsidersChangeNothing | contracts/settlement/src/lib.rs:97-98 | a call by anyone without the role it needs changes nothing |
| Effects.SettingsEffect | contracts/settlement/src/lib.rs:376-388 | the admin's settings take effect exactly as given |
| BatchCredit.LoopsFuse | contracts/settlement/src/lib.rs:226-267 | checking all items and then crediting all is checking and crediting one by one |
| BatchCredit.BatchIsSequence | contracts/settlement/src/lib.rs:206-268 | a batch commits iff it has 1 to 50 items and the payment-by-payment run commits, with the same state |
| BatchCredit.BatchAcceptance | contracts/settlement/src/lib.rs:213-241 | exactly which batches are accepted; never one naming a developer twice |
| Runs.CallAtoms | contracts/settlement/src/lib.rs:1077-1142 | every call, batched or paged, is a sequence of small steps of its own kind |
| Conservation.ConservationOverRuns | contracts/settlement/INVARIANTS.md:5-17 | over every run V1 plus V2 balances plus pool equal their start plus accepted credits minus withdrawals; no balance is negative; the index is strictly sorted and names everyone credited or migrated to |
| History.RunLogs | contracts/settlement/src/lib.rs:166-187 | the journal of a run is exactly what its accepted calls say, in order |
| History.RecordsStamped | contracts/settlement/src/admin.rs:49-74 | every journalled record was made by a call of the run and bears the ledger time, epoch day and cap of the state it was made in |
| History.HoldingsFollowCalls | contracts/settlement/INVARIANTS.md:5-17 | without the journal: over every run holdings change by exactly the amounts of the accepted payments, items and manual credits less the successful withdrawals |
| Conservation.IndexCoversHolders | contracts/settlement/src/lib.rs:161-166 | if every holder starts in the index, none is ever outside it |
| Accounts.ClaimsFollowJournal | contracts/settlement/INVARIANTS.md:15-17 | while no call reconfigures the USDC token, each developer's claim in each token changes by exactly its journalled credits, withdrawals and migrations, through storage migrations of every form |
| Accounts.BalancesFollowJournal | contracts/settlement/INVARIANTS.md:15-17 | for a developer without a V1 slot the balance does so in every run, token changes included |
| Accounts.WealthFollowsJournal | contracts/settlement/INVARIANTS.md:15-17 | in every run, token changes included, each developer's V1 slot and balances in all tokens together change by exactly its journalled credits, withdrawals and migrations |
| Backing.HoldingOverRuns | contracts/settlement/src/lib.rs:487-506 | in every run the contract's holding of each token falls only by its journalled withdrawals and rises only by transfers to it |
| Backing.BackingOverRuns | contracts/settlement/src/lib.rs:88-268 | while no call reconfigures the token, holdings less what developers are owed change in every run by exactly transfers in less credits; withdrawals and migrations of any kind leave them alone |
| Replay.SequenceNumbersIncrease | contracts/settlement/src/replay_guard.rs:28-68 | in every run the accepted sequence numbers per developer, and for the pool, strictly increase and stay at or below the mark |
| Replay.RunGrows | contracts/settlement/src/replay_guard.rs:28-68 | no run lowers a mark |
| Replay.PaymentNeverReplayed | contracts/settlement/src/lib.rs:103-112 | an accepted payment is rejected as a replay at any later point, with the state unchanged |
| Replay.BatchNeverReplayed | contracts/settlement/src/lib.rs:226-231 | the same for an accepted batch, and for single payments to its developers at or below its number |
| DailyCap.CapHoldsOverRuns | contracts/settlement/src/lib.rs:457-503 | at every withdrawal accepted under a positive cap, the true total of that developer on that day is within the cap |
| DailyCap.CapSettingExact | contracts/settlement/src/lib.rs:651-690 | the documented cap invariant holds in every state until the next cap setting iff the new cap is 0, or positive and not below today's true total; below the largest cap the contract's own counter decides it |
| DailyCap.LoweredCapBreaks | contracts/settlement/INVARIANTS.md:37 | a cap lowered after a withdrawal breaks the documented invariant |
| DailyCap.NegativeCapBreaks | contracts/settlement/src/lib.rs:651-670 | a negative cap is accepted, breaks it, and limits no withdrawal |
| DailyCap.CapRefusalExact | contracts/settlement/src/lib.rs:472-485 | a withdrawal passing the earlier checks is refused for the cap iff the true total would pass it |
| Settling.SettleIsFold | contracts/settlement/src/batch.rs:47-60 | one outcome per input in order, the state of the fold, no trace of unsuccessful entries; panics iff some withdrawal does |
| Settling.WithdrawFlow | contracts/settlement/src/lib.rs:487-506 | the contract's holding and the developer's claim fall by the amount, the recipient gains it, the supply is conserved |
| Settling.SettleFlow | contracts/settlement/src/batch.rs:37-63 | on-ledger USDC falls by exactly the successful amounts and its difference to developers' USDC balances is unchanged |
| Settling.OversizedBatch | contracts/settlement/src/batch.rs:40-45 | more than 64 inputs change nothing |
| MigrationTimelock.ExecutionMatchesProposal | contracts/settlement/src/admin.rs:68-117 | in every run each journalled execution has a matching journalled proposal at least a day older, with nothing proposed or executed for that source in between; `History.ExecutedADayAfter` ties the times to the ledger clock |
| History.ExecutedADayAfter | contracts/settlement/src/admin.rs:49-117 | in every run, the call that made the matching proposal came when the ledger clock was at least 86400 seconds earlier |
| MigrationTimelock.ExecutionMovesSnapshot | contracts/settlement/src/admin.rs:77-117 | exactly the snapshot amount moves, every token total is preserved, and a second execution is refused |
| MigrationTimelock.LaterCreditsStay | docs/ADMIN_BALANCE_MIGRATION.md:23-24 | while no call reconfigures the USDC token, the source is left with its V1 slot plus what came in after the proposal less what went out; so all later credits stay iff nothing went out in between |
| MigrationTimelock.ApprovedTokenExact | contracts/settlement/src/lib.rs:349-358 | in every run, the approved amount leaves the source in the token it was approved in iff that token is configured at the execution; a source without a V1 slot is then left with exactly what came in later iff nothing went out |
| MigrationTimelock.SpendingRefusalExact | docs/ADMIN_BALANCE_MIGRATION.md:32-33 | a matured execution in the approved token is refused as changed iff more went out of the source than came in (merged V1 funds included) since the proposal |
| MigrationTimelock.SpendingTakesLaterCredit | contracts/settlement/src/admin.rs:77-117 | a run in which the approved amount is withdrawn, the token stays, and the execution takes the later credit |
| MigrationTimelock.TokenChangeTakesLaterCredit | contracts/settlement/src/admin.rs:77-117 | a run in which the later credit leaves in another token and the approved amount stays |
| StorageMigration.PagedMigrationComplete | contracts/settlement/src/migrate.rs:121-207 | following its own offsets from 0 among any calls, token changes included, a completed migration leaves no V1 slot, unless a foreign page closed it from ahead |
| StorageMigration.PagedMigrationSound | contracts/settlement/src/migrate.rs:158-243 | while no call reconfigures the token, every balance is then its V1 plus V2 start plus net moves |
| StorageMigration.ClosingPageExact | contracts/settlement/src/migrate.rs:145-207 | a page that closes the migration leaves no V1 slot iff every V1 holder sits at or after its offset; past the end it merges nobody |
| StorageMigration.SliceAhead | contracts/settlement/src/migrate.rs:186-197 | after a page every remaining V1 holder sits at or after the next offset |
| StorageMigration.EntryInserts | contracts/settlement/src/lib.rs:161-166 | no entrypoint does more to the index than insert one address |
| StorageMigration.SchedulesAgree | contracts/settlement/src/migrate.rs:95-207 | whatever the batch sizes, paging to completion is the one-shot migration, failing when that fails |
| Pagination.PageFacts | contracts/settlement/src/pagination.rs:6-19 | a page holds exactly the addresses beyond the cursor up to the next cursor, in order, and is full, at the limit or at 100, iff there is a next cursor |
| Pagination.TraversalComplete | contracts/settlement/src/pagination.rs:16-19 | whatever runs between pages, a finished reading is strictly ascending and holds every address indexed when it began |
| Pagination.TraversalCatchesUp | contracts/settlement/src/pagination.rs:16-19 | it also holds every address inserted beyond the cursor of its time |
| Pagination.UnknownCursor | contracts/settlement/src/pagination.rs:49-56 | an unknown cursor ends the reading with an empty page |
| SnapshotDiff.BuildMap | contracts/helpers/src/snapshot_diff.rs:50-58 | insertion in order builds the key-sorted map in which the last duplicate wins |
| SnapshotDiff.MergeSorted | contracts/helpers/src/snapshot_diff.rs:60-107 | the three loops compute the merge of the two sorted lists |
| SnapshotDiff.DiffSnapshots | contracts/helpers/src/snapshot_diff.rs:45-112 | the result is strictly key-sorted and lists exactly the changes between the two maps |
| SnapshotDiff.AscendingIsSorted | contracts/helpers/src/snapshot_diff.rs:109-110 | the final sort has nothing to do |
| SnapshotDiff.DiffUnique | contracts/helpers/src/snapshot_diff.rs:36-39 | two snapshots have exactly one change list |
| SnapshotDiff.OrderIrrelevant | contracts/helpers/src/snapshot_diff.rs:36-39 | reordering the entries of both snapshots leaves the change list as it is |
| SnapshotDiff.ApplyDiff | contracts/helpers/src/snapshot_diff.rs:26-30 | replaying the diff on the earlier snapshot gives the later one |
| SnapshotDiff.SwapInverts | contracts/helpers/src/snapshot_diff.rs:26-30 | swapping the snapshots inverts every change in place |
| SnapshotDiff.ListedOnceIffDifferent | contracts/helpers/src/snapshot_diff.rs:28-30 | a key is listed iff the snapshots differ there, and only once |
| RateLimit.RateLimiter.ConsumeTokens | contracts/vault/src/rate_limit.rs:45-91 | the step-by-step refill and charge; other developers' buckets are untouched |
| RateLimit.ServiceExact | contracts/vault/src/rate_limit.rs:50-90 | a developer without a configuration is always admitted; otherwise the verdict and the stored bucket follow from what the bucket holds |
| RateLimit.WindowBound | contracts/vault/src/rate_limit.rs:43-91 | the total admitted in any window of ledgers of any run is at most capacity plus refill rate times its length |
| RateLimit.LazyRefinesEager | contracts/vault/src/rate_limit.rs:57-90 | while refills fit, lazy refill gives the verdicts of a bucket refilled and clamped at every ledger |
| RateLimit.RunAgreement | contracts/vault/src/rate_limit.rs:57-90 | from a full start, lazy and eager refill agree on all runs spanning at most n ledgers iff the refill of n ledgers fits or the capacity is 0 |
| RateLimit.OverflowAgreement | contracts/vault/src/rate_limit.rs:64-70 | from a bucket on which the two agree, exactly when they agree on the next request although its refill may overflow |
| RateLimit.OverflowOccurs | contracts/vault/src/rate_limit.rs:64-70 | an overflowing refill that is dropped |
| ColdStorage.Validate | contracts/vault/src/cold_storage.rs:98-126 | accepts exactly the consistent configurations; each error is returned iff its condition is the first to fail |
| ColdStorage.RebalanceErrors | contracts/vault/src/cold_storage.rs:134-216 | exactly when a rebalance overflows; never when the scaled total fits |
| ColdStorage.RebalanceMoves | contracts/vault/src/cold_storage.rs:170-216 | the total is kept, cold never falls, and funds move iff the hot share exceeds target plus tolerance |
| ColdStorage.ShareAfterMove | contracts/vault/src/cold_storage.rs:159-168 | after a move the floored hot share is the target or one basis point less |
| ColdStorage.RebalanceIdempotent | contracts/vault/src/cold_storage.rs:177-216 | a second rebalance changes nothing |
| RevenuePool.RevenuePoolContract.DistributeOne | contracts/revenue_pool/src/lib.rs:566-594 | a single payout, or a panic that changes nothing |
| RevenuePool.RevenuePoolContract.DistributeBatch | contracts/revenue_pool/src/lib.rs:613-676 | the validation loop and the transfer loop, undone as a whole by a panic |
| RevenuePool.ChunkIter | contracts/revenue_pool/src/lib.rs:976-997 | the filling loop computes the consecutive chunks |
| RevenuePool.PayoutAcceptance | contracts/revenue_pool/src/lib.rs:566-594 | exactly which single payouts are made, and every holder after one |
| RevenuePool.ChunksPartition | contracts/revenue_pool/src/lib.rs:959-967 | the chunks are the list in order, none empty, all but the last full |
| RevenuePool.ChunksComplete | contracts/revenue_pool/src/lib.rs:966 | exactly when no payment is lost |
| RevenuePool.BatchIsSequence | contracts/revenue_pool/src/lib.rs:566-676 | a batch pays iff it has 1 to 50 distinct recipients and the single payouts all succeed, with the same ledger |
| RevenuePool.ChunksAreSequence | contracts/revenue_pool/src/lib.rs:962-964 | chunk by chunk is payment by payment unless a chunk is oversized or repeats a recipient |
| RevenuePool.ChunkedPayout | contracts/revenue_pool/src/lib.rs:962-964 | every recipient gains exactly its summed amount, the pool pays the total, the supply is conserved |
| VaultContract.CalloraVault.Init | contracts/vault/src/lib.rs:250-298 | the initial storage |
| VaultContract.CalloraVault.DepositFunds | contracts/vault/src/lib.rs:300-345 | tracked balance and ledger grow together |
| VaultContract.CalloraVault.DeductAmount | contracts/vault/src/lib.rs:347-401 | tracked balance and ledger fall together |
| VaultContract.CalloraVault.DeductBatch | contracts/vault/src/lib.rs:403-469 | the tallying loop and one payment of the total |
| VaultContract.CalloraVault.ExecutePause | contracts/vault/src/lib.rs:875-889 | consumes the pause slot once matured |
| VaultContract.CalloraVault.ExecuteUpgrade | contracts/vault/src/lib.rs:954-975 | records exactly the proposed hash and consumes the slot |
| VaultContract.CalloraVault.ExecuteSweep | contracts/vault/src/lib.rs:1050-1083 | transfers exactly the proposed amount and consumes the slot; an error leaves the proposal pending |
| Vault.BatchAgreement | contracts/vault/src/lib.rs:347-469 | a non-empty batch that succeeds reaches the books of the single deductions, which then succeed too; it fails where they succeed iff the vault settles with itself and holds each valid amount but not the total |
| Vault.DeductEachExact | contracts/vault/src/lib.rs:347-401 | exactly when a non-empty sequence of single deductions succeeds, for a vault that settles with itself too, and the books it leaves |
| Vault.SelfSettlementDiffers | contracts/vault/src/lib.rs:665-678 | a vault that settles with itself on which the two forms differ; the settlement client's call does nothing there |
| Vault.EmptyBatch | contracts/vault/src/lib.rs:403-446 | exactly when an empty batch succeeds |
| VaultRuns.SurplusOverRuns | contracts/vault/src/lib.rs:300-469 | over every run on-ledger minus tracked changes only by transfers in and executed sweeps (and payments of the vault to itself); the tracked balance stays non-negative |
| VaultRuns.NeverNegativeExact | INVARIANTS.md:5-9 | the tracked balance is non-negative in every run iff it is at the start |
| VaultRuns.NegativeFromInit | contracts/vault/src/lib.rs:250-298 | an initial balance that `init` accepts and that is still negative after an accepted deposit |
| VaultRuns.ExecuteExplained | contracts/vault/src/lib.rs:1050-1083 | a sweep takes exactly its amount from the surplus |
| VaultRuns.DeadlineIsSum | contracts/vault/src/timelock.rs:92-104 | the deadline is the exact sum or an overflow |
| VaultRuns.ExecutionMatchesProposal | contracts/vault/src/lib.rs:847-1083 | in every run each journalled execution has a journalled proposal of the same action, older by its window (never under an hour), with no proposal, execution or cancellation in its slot in between; `VaultEffects.ExecutedAfterItsWindow` ties times and window to the ledger clock and the settings |
| VaultEffects.WindowOverRuns | contracts/vault/src/timelock.rs:77-90 | in every run the configured window is the last one that the admin set within the bounds |
| VaultEffects.ExecutionWaitsItsWindow | contracts/vault/src/lib.rs:847-889 | whatever runs in between, the clock advances from a proposal to its execution by at least the window last set when it was made, or 172800 seconds when none was |
| VaultEffects.ExecutedAfterItsWindow | contracts/vault/src/lib.rs:847-1083 | in every run each executed action has a matching proposal, untouched since, made by a call that much earlier on the ledger clock |
| VaultEffects.RunLogs | contracts/vault/src/lib.rs:300-469 | the journal of a run is exactly what its accepted calls say, in order |
| VaultEffects.DepositEffect | contracts/vault/src/lib.rs:300-345 | exactly which deposits are accepted, and every holder and the tracked balance after one |
| VaultEffects.DeductEffect | contracts/vault/src/lib.rs:347-401 | exactly which deductions are accepted, and every holder and the tracked balance after one |
| VaultEffects.BatchDeductEffect | contracts/vault/src/lib.rs:403-469 | exactly which batches are accepted, and every holder and the tracked balance after one |
| VaultEffects.ProposeEffect | contracts/vault/src/lib.rs:847-863 | exactly which proposals are accepted; the deadline is now plus the configured window, or plus 172800 |
| VaultEffects.ExecuteEffect | contracts/vault/src/lib.rs:875-1083 | exactly which executions are accepted, and what each of the three kinds does |
| VaultEffects.CancelEffect | contracts/vault/src/lib.rs:900-912 | only the admin cancels, and only that slot is cleared |
| VaultEffects.WindowEffect | contracts/vault/src/lib.rs:735-749 | a new window is accepted exactly from the admin between 3600 and 2592000 seconds |
| VaultEffects.OutsidersChangeNothing | contracts/vault/src/lib.rs:347-360 | a call by anyone without the role it needs changes nothing |
| VaultRuns.SlotsAreIndependent | contracts/vault/src/timelock.rs:6-8 | only the calls of a slot change it; a new window moves no pending deadline |
| Archive.EventArchive.ArchiveEvents | contracts/settlement/src/archive.rs:35-87 | passes the oldest waiting indices, up to the batch size; the number returned is the number of events archived iff none of these indices is empty |
| Archive.CountExact | contracts/settlement/src/archive.rs:33-34 | passing n indices archives at most n events, and n iff each holds one |
| Archive.ArchiveConserves | contracts/settlement/src/archive.rs:56-65 | no event is lost, duplicated or altered, and exactly the oldest indices move |
| Archive.BatchesCompose | contracts/settlement/src/archive.rs:26-34 | any sequence of batch sizes ends in the queue of one batch of the summed size |

## Left out

- Host details: entry lifetimes and their extension, event publication beyond the journal, signature checking, resource limits.
- WASM installation, version strings, broadcasts, capability bits, event topics and error-code tables: constants or foreign calls. An executed upgrade records its hash.
- Two-step hand-over of the admin and vault roles, the pause guardian and plain getters: single-branch facts. Roles are therefore fixed during a run.
- Calls before `init`: the model starts from an initialised contract, so `NotInitialized` does not occur.
- The revenue pool's emergency drain and yield deposits, and the checkpoint contract: easier copies of the time lock and paging arguments.
- `get_all_developer_balances` and the offset-based page view: `GetDeveloperBalancesCursor` covers the harder view.
- `get_total_received`, `batch_withdraw_balance_cursor`, the commented-out simulations, the vault's reserve caps and request pruning: constant, stubs, or not called by the modelled entrypoints.
- The vault's `record_deduction` call: the settlement contract has no such method and the native client does nothing, so request ids are carried and not used.
- The cold-sweep approvals described in `contracts/vault/src/cold_storage.rs`: documented there but not implemented.
- Archive.EventArchive.ArchiveEvents: one developer's queue; every key of the source carries the developer, so queues do not interact. The two counter-overflow exits cannot be reached and are not modelled.
- StorageMigration.PagedMigrationComplete: assumes that no foreign page closes the migration from ahead of the operator's offset, because the V1 holders before that page would be stranded (`ClosingPageExact` says exactly when).
- StorageMigration.PagedMigrationSound: assumes in addition that no call reconfigures the USDC token, because V1 slots merge into the token configured at the time.
- Accounts.ClaimsFollowJournal: assumes that no call reconfigures the USDC token, because V1 slots merge into the token configured at the time; `BalancesFollowJournal`, where there is no V1 slot, and `WealthFollowsJournal`, over all tokens together, need no such assumption.
- Backing.BackingOverRuns: assumes the same, for the same reason; `HoldingOverRuns` does not.
- RateLimit.WindowBound: assumes non-negative amounts, capacity and rate, which `consume_tokens` leaves to its caller; the configuration is fixed during the run.
- ColdStorage.RebalanceMoves: assumes non-negative pools and a validated configuration, which `maybe_rebalance` leaves to its caller.
- Addresses are natural numbers: only their equality and order matter to the contracts.
