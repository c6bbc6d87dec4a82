# Verified model of the exchange backend's money-moving protocols

A Dafny model of four parts of the server, with proofs about every run of each.

**Deposit sweeps** (`Sweep*.dfy`). Two periodic workers and the KMS custody provider move deposits to the hot wallet
through three tables: `pending_sweeps`, `sweep_intents` and `sweep_transactions`. Every committed statement or database
transaction is one step (`SweepTables`). `SweepLockstep` gives the exact condition under which a step, and a run, keeps
the three tables in agreement. `SweepProtocol` adds the calls in memory, their progress inside the provider, and crashes;
`SweepGroups`, `SweepNonces`, `SweepCounters`, `SweepInvariant` and `SweepSafety` prove what holds of every run, and
exactly when; `SweepOutcomes` and `SweepCalls` say column by column what a verdict and an undisturbed call leave;
`SweepQueue` proves what recovery does exactly, the claim discipline and quiescence, `SweepBlocked` which groups are lost
for good. `SweepWorkers` has the workers' own loops, proved against the same writes, with other workers' commits between
their transactions.

Not every interleaving of the code is safe. The advisory lock of a claim is transaction-scoped, so it is released when
the claim commits and two calls can be live on one group; a zero-balance settlement is written after the sweep it names
was read; an escalated intent may have a row that was settled meanwhile; a report on a sweep is written without looking
at the status the sweep has by then. Each property is therefore stated with the exact condition under which it holds of a
step, and of a whole run. `SweepSafety.RunKeepsInvIff` does so for the protocol invariant, with the three conditions of
`SweepProtocol.Disciplined`. Shared nonces (`SweepNonces.NonceNeverSharedIff`), abandoned reservations (of one row:
`SweepSafety.ReservationKeptIff`, of all rows at once: `SweepSafety.NoReservationAbandonedIff`) and dropped sweeps
(`SweepSafety.DroppedForeverIff`) have conditions of their own, on single writes and over all runs; that disciplined runs
meet them, for dropped sweeps with fresh reports in addition, are corollaries. `SweepHazards` exhibits a reachable run for
each condition in which the property fails without it.

The queue also loses rows under full discipline. The comment of the recovery routine covers SIGNING rows with an open
intent, but two kinds of row match none of its three updates: one that is PROCESSING with an intent, which two crashes
leave when a recovered row is claimed again, and one that is SIGNING on an intent that is no longer open, which a single
crash leaves when a call that had selected the group before spends the intent on a later deposit.
`SweepQueue.NeverClaimableIff` and `SweepBlocked.NeverSelectableIff` show that exactly these rows, and exactly the groups
that hold one, are lost for good. Deferred dust is retried without a deposit exactly by calls that had selected the group
before (`SweepQueue.NeverClaimedIff`). A further comment says that an intent without an artifact can only be SIGNING; the
code also leaves such intents in RECONCILIATION.

**Decimals and aggregates** (`Digits`, `Decimals`, `LedgerSums`, `Keys`). The in-memory pool's decimal addition, the
ledger's exact decimals and the normalisation of raw on-chain amounts are modelled on strings, with BigInt's parsing
rules, truncating division and the padding and slicing of the source, for any precision p (18 in the program). They
compose: what is credited is the floor of the raw amount at p decimals, and exact up to p. The pool's parser adds the
fraction of a negative decimal instead of subtracting it, and its printer puts the minus sign of a negative fraction
behind the padding; both are stated exactly. `LedgerSums` proves the totals and the double-entry check.

**In-memory pool** (`PoolTables`, `MemoryPool`, `WalletLock`). `MemoryPool` keeps wallet, position and withdrawal rows as
objects that UPDATE statements mutate, and is proved to do on the heap what `PoolTables` says on values, for every
callback with any nesting of transactions. Row locks are not part of a snapshot: a transaction that fails while it holds
one leaves the row locked. `WalletLock` interleaves clients between SELECT FOR UPDATE and UPDATE.

**WebSocket gateway and notifications** (`Channels`, `Subscriptions`, `RateWindow`, `Gateway`, `Notification`). The gateway
is a class over connection objects with its three indexes; every method keeps the agreement between the channel index and
the connections' own subscriptions. An unsubscribe is not brought into canonical form as a subscribe is, and a login as
a second user leaves the first entry; both are stated exactly. The notification worker's duplicate cache stops
evicting once an empty event id is its oldest.

`dafny verify dfyconfig.toml` checks the project.

## Model

| member | source | states |
|---|---|---|
| SweepLockstep.WriteKeepsLockstepIff | server/src/workers/SweepStatusWorker.ts:78-122 | A committed write leaves every pending row and intent in agreement with the transaction it names if and only if the write's guard held on the tables before it; the guard never looks at the result |
| SweepLockstep.RunKeepsLockstepIff | server/src/workers/SweepStatusWorker.ts:73-137 | Over a whole run of committed writes the three tables agree in every state if and only if they agree at the start and every write meets its guard when it commits |
| SweepLockstep.GuardedRunKeepsLockstep | server/src/workers/SweepStatusWorker.ts:232-272 | Reorgs back to BROADCAST, reverted sweeps and re-mined blocks included, guarded runs never separate a row or an intent from its transaction |
| SweepLockstep.SettledRowFollows | server/src/workers/SweepWorker.ts:208-218 | A row settled through a zero balance follows the sweep it was settled against: back to BROADCAST when that is reorganised out, to PENDING without the hash when it reverts, to RECONCILIATION when it is dropped, its own intent kept |
| SweepInvariant.StepKeepsInvIff | server/src/workers/SweepWorker.ts:166-244 | From the protocol invariant a step of a worker or of the provider keeps it if and only if it is disciplined: a claim that takes rows finds no other call live on the group, a settlement is still backed by a CONFIRMED sweep, an escalated intent has no settled row |
| SweepSafety.RunKeepsInvIff | server/src/workers/SweepWorker.ts:166-244 | Over every run, whatever crashes and interleaves, the invariant holds in every state if and only if every step was disciplined |
| SweepGroups.RunKeepsGroups | server/src/workers/SweepWorker.ts:182-192 | In every run, disciplined or not, the rows of a batch and the intents that rows and calls refer to belong to one group |
| SweepNonces.RunKeepsNonceInv | server/src/services/custody/kms-custody-provider.ts:1170-1205 | In every run each intent has its own nonce below the counter and every recorded sweep spends the nonce of an intent that has an artifact, however many calls are live on a group |
| SweepNonces.WriteSharesNonceIff | server/src/services/custody/kms-custody-provider.ts:1240-1258 | A write makes two recorded sweeps share a nonce if and only if it stores a new artifact over an intent that already has one |
| SweepNonces.NonceNeverSharedIff | server/src/services/custody/kms-custody-provider.ts:1240-1258 | Over every run from empty tables no two sweeps of a network ever share a nonce if and only if every new artifact was stored over an intent without one: the clause missing from the UPDATE |
| SweepCounters.CounterFollowsChain | server/src/services/custody/kms-custody-provider.ts:1173-1192 | Over every run, once the first step to take a nonce of a network has read the count c from the chain, the counter stands at c plus the number of nonces taken since, by sweeps and by other senders, and every intent of the network holds a nonce from c up to it |
| SweepCounters.NoncesAreHandedOutInOrder | server/src/services/custody/kms-custody-provider.ts:1173-1205 | The step that takes a nonce after j others takes c + j, and a reservation stores just that nonce in the open intent it creates for the group of its call |
| SweepCounters.CountersFromEmpty | server/src/services/custody/kms-custody-provider.ts:1173-1192 | From empty tables a network has no counter and no intents exactly until a first nonce is taken, and from then on the count is exact |
| SweepCalls.FreshSweep | server/src/services/custody/kms-custody-provider.ts:1170-1282 | A call that finds no artifact and no open intent and is not interfered with leaves exactly its batch BROADCAST under the new hash and intent, a new intent and a new transaction with the next nonce, a counter one higher, and nothing else changed |
| SweepCalls.ReusedSweep | server/src/services/custody/kms-custody-provider.ts:1158-1168 | A call that finds an open intent leaves the same with that intent and its nonce, and the counter where it was |
| SweepCalls.RecoveredSweep | server/src/services/custody/kms-custody-provider.ts:1004-1095 | A call whose batch carries a recorded artifact takes no nonce: what the chain says of it is recorded on the transaction, its rows and its intent, without stamping rows or transaction |
| SweepCalls.EscalatedIntent | server/src/services/custody/kms-custody-provider.ts:1136-1155 | Escalating an open intent leaves the intent, the rows linked to it and the batch in RECONCILIATION, and takes no nonce |
| SweepCalls.CrashForgets | server/src/workers/SweepWorker.ts:74-92 | A crash loses a call or a target still to be claimed and leaves the tables as they are |
| SweepSafety.EscalatedForever | server/src/services/custody/kms-custody-provider.ts:1109-1155 | Over every run an escalated intent on which no call works is never found for reuse, signed for or escalated again |
| SweepOutcomes.ResolveRecords | server/src/workers/SweepStatusWorker.ts:75-136 | A verdict changes the transaction, the rows that carry its hash and its intent to the listed columns, a revert clears the hash, a confirmation records block and time, and nothing that does not carry the hash moves |
| SweepSafety.RecoveryKeepsReservations | server/src/workers/SweepWorker.ts:95-134 | The three recovery updates change no intent, no transaction, no nonce counter and no link of any row |
| SweepSafety.WriteKeepsLinkIff | server/src/services/custody/kms-custody-provider.ts:1109-1205 | A write keeps a row linked to the intent that reserved its nonce if and only if it does not link the row to another one |
| SweepSafety.WriteKeepsOpenLinksIff | server/src/services/custody/kms-custody-provider.ts:1109-1205 | A write takes no row away from an intent that is still open if and only if, being a reservation or a reuse, it takes only rows that are linked to no other open intent: the clause missing from the UPDATE |
| SweepSafety.NoReservationAbandonedIff | server/src/services/custody/kms-custody-provider.ts:1170-1205 | Over every run, between any two moments, no row leaves an intent that is still open if and only if every reservation and reuse met that clause on the tables before it |
| SweepSafety.ReservationKeptIff | server/src/workers/SweepWorker.ts:83-89 | Over every run a row stays linked to its intent if and only if no reservation or reuse relinks it |
| SweepSafety.WriteKeepsDroppedIff | server/src/workers/SweepStatusWorker.ts:163-191 | A STALE_BROADCAST sweep and a row that waits with its hash survive a write if and only if the write is no further report or announcement of the sweep and no batch write on the row other than to RECONCILIATION |
| SweepSafety.DroppedForeverIff | server/src/workers/SweepStatusWorker.ts:163-191 | Over every run of both workers a dropped sweep stays dropped, its row keeping the hash in RECONCILIATION, if and only if every write spares it in that sense |
| SweepQueue.RecoveryExact | server/src/workers/SweepWorker.ts:93-141 | After the three updates a stale row in flight is PENDING if and only if it is none of the unrecoverable kinds (PROCESSING with an intent, or SIGNING without a usable open intent, both without an artifact); no other row moves and no id changes |
| SweepQueue.FrozenForever | server/src/workers/SweepWorker.ts:95-134 | In every run a row left without an artifact, PROCESSING with an intent or SIGNING on an intent that is closed or missing, with nothing live or scheduled on its group, is never moved again by recovery, deposits, crashes or restarts |
| SweepQueue.NeverClaimableIff | server/src/workers/SweepWorker.ts:95-134 | A row in flight in a group at rest can never be claimed again, in any run, if and only if it is of one of those kinds: any other is freed by one recovery update |
| SweepQueue.FrozenGroupNeverSelected | server/src/workers/SweepWorker.ts:147-162 | The group of such a row, with all deposits that still arrive for it, is never selected again |
| SweepBlocked.NeverSelectableIff | server/src/workers/SweepWorker.ts:93-164 | From tables in agreement a group at rest is never selected again, in any run and whatever is deposited, if and only if it holds such a row; otherwise recovery, settled sweeps and one deposit make it selectable |
| SweepQueue.ClaimTakesWholeGroup | server/src/workers/SweepWorker.ts:182-192 | A claim takes exactly the claimable rows of one (network, address, asset) group and leaves none of the group claimable |
| SweepQueue.SharedRowWasReleased | server/src/workers/SweepWorker.ts:181-194 | In every run two claims share a row only if some step strictly between them handed that row back to PENDING or DEFERRED_DUST, and the lemma names it |
| SweepQueue.ReleaseBetween | server/src/workers/SweepWorker.ts:297-303 | A row can become claimable again only through one of the listed releasing steps |
| SweepQueue.EffectiveClaimShrinksPending | server/src/workers/SweepWorker.ts:182-192 | A claim that takes a PENDING row strictly shrinks the set of PENDING rows |
| SweepQueue.QuietRunComesToRest | server/src/workers/SweepWorker.ts:208-238 | With no new deposits, nothing to recover and only dust, zero-balance or reconciliation outcomes, whole ticks included, the claims that take a PENDING row plus the rows still PENDING never exceed the rows PENDING at the start |
| SweepQueue.DustWaitsForDeposit | server/src/workers/SweepWorker.ts:143-164 | In such a run a group without PENDING rows stays without and is never selected; it is claimed, deferred dust included, only by calls that had selected it before, each at most once |
| SweepQueue.NeverClaimedIff | server/src/workers/SweepWorker.ts:143-195 | No quiet run ever claims a group without PENDING rows if and only if no call had selected it before |
| SweepHazards.OneCrashFreezesARow | server/src/workers/SweepWorker.ts:95-134 | Reachable from empty tables under full discipline: after one crash a call that had selected the group before spends the reserved intent on a later deposit alone, and the first row stays SIGNING for good |
| SweepHazards.TwoCrashesFreezeARow | server/src/workers/SweepWorker.ts:95-134 | Reachable from empty tables under full discipline: two crashes leave a row PROCESSING with an intent, which no recovery ever takes up |
| SweepHazards.ReleasedLockSharesANonce | server/src/workers/SweepWorker.ts:173-195 | Reachable because the lock ends with the claim transaction: two sweeps signed with one nonce, and tables out of step |
| SweepHazards.StalledCallRequeuesBroadcastRow | server/src/workers/SweepWorker.ts:239-242 | Reachable for the same reason: a row whose sweep is BROADCAST becomes claimable again |
| SweepHazards.StalledCallAbandonsReservation | server/src/services/custody/kms-custody-provider.ts:1170-1205 | Reachable for the same reason: a stalled call relinks a row to a second intent while the first, with its reserved nonce, is still open |
| SweepHazards.LateReportFreesADroppedRow | server/src/workers/SweepStatusWorker.ts:77-122 | Reachable under full discipline: a report read before the sweep was dropped and written after it erases the hash and makes the row claimable |
| SweepHazards.ScheduledCallRetriesDust | server/src/workers/SweepWorker.ts:173-195 | Reachable under full discipline: a call from an earlier tick retries deferred dust without any deposit |
| SweepHazards.SettlementRace | server/src/workers/SweepWorker.ts:214-218 | Reachable: a settlement written after its sweep was reverted leaves the row CONFIRMED on a FAILED transaction |
| SweepHazards.EscalationReopensSettledRow | server/src/services/custody/kms-custody-provider.ts:1109-1168 | Reachable: escalating an open intent pulls a settled CONFIRMED row to RECONCILIATION while its sweep stays CONFIRMED |
| SweepWorkers.SweepWorker.RecoverStuckSweeps | server/src/workers/SweepWorker.ts:93-141 | A row written within the timeout of 60000 ms per minute is left alone; with every query succeeding an overdue row in flight is PENDING again exactly when it has an artifact, no intent while PROCESSING, or a SIGNING intent without artifact while SIGNING; with a connection lost in between each row is untouched or put back with all its ids |
| SweepWorkers.RecoveryStagesFit | server/src/workers/SweepWorker.ts:94-140 | However many of the three updates commit, each row is its old self or its recovered self |
| SweepWorkers.SweepWorker.GetGroupedTargets | server/src/workers/SweepWorker.ts:143-164 | Distinct groups, each with PENDING work and nothing in flight or BROADCAST, at most the limit; and all such groups when there are fewer than the limit |
| SweepWorkers.SweepWorker.ClaimTarget | server/src/workers/SweepWorker.ts:172-197 | Without the lock nothing changes; with it the batch is exactly the claimable rows of the group, none of the group is left claimable, no other row moves, and all links and the agreement with the transactions are kept |
| SweepWorkers.SweepWorker.MarkReconciled | server/src/workers/SweepWorker.ts:297-303 | Only the rows of the batch change, to the status and a new timestamp, with all links kept; agreement with the transactions survives if and only if none of them was broadcast, confirmed or, unless for RECONCILIATION, dropped |
| SweepWorkers.RoutingMovesTheBatch | server/src/workers/SweepWorker.ts:205-243 | Routing an error touches only the batch: back to the queue exactly after dust or an unclassified error, to manual resolution exactly when the balance is unexplained or the intent needs review, to a new hash exactly when a sweep explains the balance |
| SweepWorkers.RoutingKeepsLockstepIff | server/src/workers/SweepWorker.ts:205-243 | Routing keeps the three tables in agreement if and only if the settling sweep is CONFIRMED, or no row of the batch was broadcast, confirmed or, unless for review, dropped |
| SweepWorkers.ResolveOneMore | server/src/workers/SweepStatusWorker.ts:75-136 | Settling one more transaction after a set of others is settling the larger set at once |
| SweepWorkers.ResolveAllKeepsLockstep | server/src/workers/SweepStatusWorker.ts:75-136 | Settling any set of transactions at once keeps the three tables in agreement |
| SweepWorkers.SweepStatusWorker.SelectBroadcast | server/src/workers/SweepStatusWorker.ts:65-71 | Distinct BROADCAST transactions, oldest first; one is left out only when the batch is full of ones that are no younger |
| SweepWorkers.PassKeepsLockstepIff | server/src/workers/SweepStatusWorker.ts:73-137 | Whatever other workers commit between the transactions of a pass, the tables agree throughout if and only if each of those commits met its guard: the transactions of the pass never part a row from its sweep |
| SweepWorkers.SweepStatusWorker.ProcessBroadcastSweeps | server/src/workers/SweepStatusWorker.ts:64-137 | The loop commits one settlement for each selected sweep with a verdict, whatever others commit in between; undisturbed, what is reported confirmed is confirmed with its block, what failed is FAILED and its rows PENDING without a hash, what stays broadcast is escalated exactly when the threshold is set and passed and a probe saw it nowhere, and all else is untouched; agreement is kept |
| SweepWorkers.SweepStatusWorker.SelectRecentlyConfirmed | server/src/workers/SweepStatusWorker.ts:216-222 | At most the limit, all confirmed within the hour, and all of those when there are fewer than the limit |
| SweepWorkers.SweepStatusWorker.VerifyConfirmedSweepsReorg | server/src/workers/SweepStatusWorker.ts:213-289 | The same for the reorg pass: back to BROADCAST, back to the queue, or recorded in the other block, exactly as reported |
| Digits.PrintReadsBack | server/src/config/database.ts:4060-4064 | Printing a natural number and reading the digits gives the number back |
| Digits.PadRestores | server/src/config/database.ts:4060-4064 | Printing what a block of digits reads as and padding to its length restores the block, leading zeros included |
| Digits.DropIsQuotient | server/src/config/database.ts:4061-4062 | The recursive quotient and remainder are those of division by a power of ten |
| Decimals.LedgerParserReadsFloor | server/src/services/ledger/decimal.ts:20-38 | On every decimal i.f the ledger parser reads the floor of i.f times 10^p, however many digits f has |
| Decimals.LedgerRoundTrip | server/src/services/ledger/decimal.ts:44-51 | Parsing a printed ledger amount gives it back, for every integer of either sign |
| Decimals.LedgerArithmeticIsExact | server/src/services/ledger/decimal.ts:91-100 | Adding or subtracting texts and parsing is adding or subtracting what was parsed, exactly |
| Decimals.PoolReadsOff | server/src/config/database.ts:4053-4058 | The pool's parser exceeds the ledger's by twice the fraction on negative decimals, and by nothing on others |
| Decimals.PoolParserAgreesIff | server/src/config/database.ts:4053-4058 | The two parsers agree on a valid decimal if and only if it is not negative with a non-zero fraction |
| Decimals.MinusOneAndAHalfErrs | server/src/config/database.ts:4053-4058 | The text -1.5 is a concrete disagreement |
| Decimals.PoolRoundTrip | server/src/config/database.ts:4060-4064 | Parsing a printed aggregate gives it back, for every non-negative value |
| Decimals.PoolRoundTripIff | server/src/config/database.ts:4053-4064 | Below zero parsing a printed aggregate gives it back if and only if its fraction is zero or has one digit less than the precision: otherwise the minus sign stands behind the padding, or the slice cuts a digit off |
| Decimals.DivisionTruncates | server/src/config/database.ts:4061-4062 | Division and remainder are BigInt's: toward zero, with a remainder of the sign of the number |
| Decimals.UnsignedIff | server/src/services/ledger/decimal.ts:24-27 | A text without a sign is a valid amount if and only if it is digits, or digits, one dot and digits |
| Decimals.PoolFormatTruncates | server/src/config/database.ts:4053-4064 | Printing what was parsed from i.f keeps i without leading zeros and cuts or pads f to p digits |
| Decimals.PoolAdditionIsExact | server/src/config/database.ts:4049-4067 | A sum of texts that read as non-negative x and y reads as x + y |
| Decimals.NormalizeThenParse | server/src/models/blockchain-deposit.model.ts:106-118 | For every raw amount and every number of decimals d, what the ledger reads from the normalised text is the floor of raw times 10^p over 10^d |
| Decimals.NormalizeIsExact | server/src/models/blockchain-deposit.model.ts:106-118 | Up to p decimals nothing is lost: both parsers read raw times 10^(p-d) |
| Decimals.NormalizeIsExactIff | server/src/models/blockchain-deposit.model.ts:106-118 | Beyond p decimals the credited amount scales back to the raw amount if and only if the dropped digits are zero |
| Decimals.NormalizeIsInjective | server/src/models/blockchain-deposit.model.ts:106-118 | Two raw amounts with one normalised text are equal |
| Decimals.NormalizeHasNoTrailingZero | server/src/models/blockchain-deposit.model.ts:113-115 | A whole amount prints without a dot, any other ends in a non-zero digit |
| LedgerSums.Total | server/src/config/database.ts:2533-2556 | On unsigned decimals the fold of string additions over the matching entries reads as the exact sum of their amounts; there is no result when one of them is no number |
| LedgerSums.TotalIsOrderFree | server/src/config/database.ts:2536-2542 | The sum depends on the entries as a multiset, not on their order |
| LedgerSums.DepositsAddUp | server/src/config/database.ts:2536-2542 | Deposits credited as normalised amounts sum to the sum of their raw amounts, scaled |
| LedgerSums.Violations | server/src/config/database.ts:1975-2008 | The double-entry query throws exactly when a listed entry has an invalid amount; otherwise its rows are, once each and with their exact net, the groups whose net is not zero, and an empty report means that credits equal debits for every asset |
| LedgerSums.NonZero | server/src/config/database.ts:2004-2005 | The filter keeps exactly the groups with a non-zero net, once each |
| LedgerSums.GroupIsPair | server/src/config/database.ts:1994-2002 | With colon-free transaction ids a group key stands for one (transaction, asset) pair |
| LedgerSums.UnbalancedPairIsReported | server/src/config/database.ts:1990-2005 | A (transaction, asset) pair appears in the report if and only if its listed entries do not cancel |
| LedgerSums.CleanCheckConserves | server/src/config/database.ts:1975-2008 | When nothing is reported, credits equal debits for every asset over all entries of the listed types |
| Keys.KeyIsInjective | server/src/config/database.ts:1994-1994 | A composite key determines both of its parts when the first has no colon |
| Keys.ColonsCollide | server/src/config/database.ts:1994-1994 | A first part with a colon always shares a key with another pair |
| MemoryPool.Clone | server/src/config/database.ts:633-657 | A snapshot has the same rows as values and no object in common with the table |
| MemoryPool.Pool.Query | server/src/config/database.ts:2190-2510 | A query on the row objects throws exactly on a lock conflict or a duplicate reference and then changes nothing; otherwise exactly the row it names reads back as written, nothing else changes, and an inserted entry adds its amount to every total that keeps it and to no other |
| MemoryPool.Pool.Run | server/src/config/database.ts:618-689 | A callback of queries and nested transactions, at any depth and with errors caught or let through, ends in the state its value form gives; unless entries are deleted they are the old ones followed by those inserted in transactions that all committed |
| MemoryPool.Pool.Transaction | server/src/config/database.ts:618-689 | A transaction that throws leaves wallets, positions, withdrawals, ledger transactions, entries and the reference index equal in value to its start, despite in-place updates and nested commits or rollbacks |
| MemoryPool.ShallowRollback | server/src/config/database.ts:622-659 | After an update in place a shallow snapshot holds the updated row and a cloned one the old row: tables with shallow snapshots are not restored |
| PoolTables.StepReadsBack | server/src/config/database.ts:2190-2510 | For every query: whether it throws, which row it leaves, and that every other row, table and lock is as it was |
| PoolTables.EntriesKept | server/src/config/database.ts:618-689 | The entries after any callback that deletes none are the old ones followed, in order, by those inserted in transactions that all committed |
| LedgerSums.TotalOfBoth | server/src/config/database.ts:2536-2542 | Totals over entries that follow others add up |
| PoolTables.LockedIff | server/src/config/database.ts:2198-2203 | After any callback a wallet row is locked if and only if, of the queries executed that lock or release it, the last was a SELECT FOR UPDATE that went through, or there was none and it was locked before |
| PoolTables.FailedTransactionLeaksLockIff | server/src/config/database.ts:2198-2203 | A failed transaction restores the balances and not the locks: whatever runs in between, a later SELECT FOR UPDATE throws if and only if that holds of the queries of the failed callback and those since |
| PoolTables.LockThenFailLeaks | server/src/config/database.ts:660-688 | A transaction that locks a row and then fails is such a transaction |
| PoolTables.InsertKeepsIndexIff | server/src/config/database.ts:2439-2470 | An insert keeps the reference index a bijection if and only if it is rejected or its id is new |
| PoolTables.RunKeepsIndex | server/src/config/database.ts:676-677 | Inserts, rejected duplicates, deletes, commits and rollbacks at every depth keep the bijection |
| PoolTables.LookupIsScan | server/src/config/database.ts:2372-2397 | With colon-free account ids a lookup by reference finds what a scan of the table finds, at most one transaction |
| WalletLock.StepKeepsExclusive | server/src/config/database.ts:2190-2219 | No row is ever held by two clients, and whoever holds a row has read its present value |
| WalletLock.NoLostUpdate | server/src/config/database.ts:2304-2332 | After any interleaving of clients that lock, read, add and update, both balances of each row are the first ones plus every delta written |
| WalletLock.NoLostUpdateFromIdle | server/src/config/database.ts:2304-2332 | The same from any tables with readable balances while nobody holds a row |
| Subscriptions.RegisterAgreesIff | server/src/websocket/index.ts:441-446 | Filing a connection under a channel keeps the index in agreement if and only if the connection is live |
| Subscriptions.GoneIsUnfiled | server/src/websocket/index.ts:407-446 | A connection that is gone and filed all the same leaves the index as it was once it is unfiled from the channels it then holds |
| Subscriptions.LoggedOutEverywhereIff | server/src/websocket/index.ts:407-417 | A logout takes the connection out of every user's set if and only if it was filed under no other user |
| Subscriptions.SubscribeAgrees | server/src/websocket/index.ts:303-304 | Subscribing a live connection keeps the index in agreement |
| Subscriptions.UnsubscribeAgrees | server/src/websocket/index.ts:391-399 | Unsubscribing keeps the agreement, also for a connection that is gone |
| Subscriptions.DisconnectAgrees | server/src/websocket/index.ts:420-429 | Unfiling a connection from its channels, in any order, takes it out of every channel and keeps the agreement |
| Subscriptions.AgreementIsUnique | server/src/websocket/index.ts:41-41 | The subscriptions of the live connections determine the index |
| Channels.AcceptedIff | server/src/websocket/index.ts:285-350 | A text is registered under a name if and only if it is one of the four private channels and the connection is logged in, or kline:market:symbol:interval or prefix:symbol with the listed markets, intervals and prefixes, whose letter case is then made uniform; for those the login does not matter |
| Channels.RefusedIff | server/src/websocket/index.ts:285-347 | A text is refused with a code if and only if the code says why: login, unknown private name, number of colons, market or interval, prefix |
| Channels.CaseLaws | server/src/websocket/index.ts:313-339 | Upper and lower case work letter by letter on ASCII texts and undo each other |
| Channels.ParsedNameIsFixed | server/src/websocket/index.ts:288-350 | The name under which a channel is registered parses to itself, for private, kline and public channels |
| Gateway.WebSocketGateway.Connect | server/src/websocket/index.ts:106-141 | A new connection is live, subscribed to nothing, and all indexes stay in agreement |
| Gateway.WebSocketGateway.Authenticate | server/src/websocket/index.ts:242-258 | The connection is filed under its user and entries under an earlier user are left as they were; if it is too slow for the answer it leaves the connections, all channels and the new user's set |
| Gateway.WebSocketGateway.Subscribe | server/src/websocket/index.ts:273-386 | Held already, over the cap, refused for a reason or registered under a canonical name: what the connection holds and what it is told follow, and a connection too slow for its answer leaves the connections, all channels and its user's set |
| Gateway.WebSocketGateway.PrivateHoldersAreLoggedIn | server/src/websocket/index.ts:285-300 | In every state a live connection that holds a private channel is logged in, and the channel is one of the four |
| Gateway.WebSocketGateway.AnonymousGetsNothingPrivate | server/src/websocket/index.ts:286-290 | Without a login nothing private is added, and under the cap the answer is UNAUTHORIZED |
| Gateway.FirstDataIs | server/src/websocket/index.ts:354-386 | An order book subscription is followed by a snapshot, a mark price and a known ticker by the present value |
| Gateway.NoFirstData | server/src/websocket/index.ts:296-350 | Nothing follows the answer for trades, candles and private channels |
| Gateway.WebSocketGateway.Unsubscribe | server/src/websocket/index.ts:391-402 | The text as given is removed from the connection and the index, and from no other connection; a connection too slow for the answer leaves the connections, all channels and its user's set |
| Gateway.SubscribeThenUnsubscribe | server/src/websocket/index.ts:391-399 | Subscribing and then unsubscribing with one text restores the connection's subscriptions, and the index, if and only if the text is canonical or its canonical form was held before |
| Gateway.LowerCaseTickerStays | server/src/websocket/index.ts:337-348 | After subscribing and unsubscribing ticker:btc the connection still holds ticker:BTC and is filed under it |
| Gateway.WebSocketGateway.Disconnect | server/src/websocket/index.ts:407-439 | The connection leaves the connections, all channels and the set of the user it is logged in as, and nothing else changes; it leaves every user's set if and only if it was filed under no other user; calling it again is harmless |
| Gateway.LoginTwiceThenDisconnect | server/src/websocket/index.ts:242-249 | After a second login as another user, disconnecting leaves the connection filed under the first: the case that condition excludes |
| Gateway.WebSocketGateway.Send | server/src/websocket/index.ts:519-536 | A message goes out once, is swallowed by a socket that is not open, or drops a connection over the buffer limit from the connections, all channels and its user's set |
| Gateway.WebSocketGateway.Broadcast | server/src/websocket/index.ts:488-498 | Every subscriber is offered the message exactly once and no one else is; over-limit subscribers leave the connections, all channels, the very set being iterated over included, and their own users' sets, which lose nobody else |
| Gateway.WebSocketGateway.SendToUser | server/src/websocket/index.ts:503-513 | The same for the live connections filed under a user that hold the channel |
| Gateway.WebSocketGateway.Prune | server/src/websocket/index.ts:553-569 | Exactly the connections silent for more than two intervals are closed and leave the connections, all channels and their own users' sets |
| Gateway.WebSocketGateway.Close | server/src/websocket/index.ts:579-604 | Every socket is terminated and all indexes are empty |
| Gateway.Client.Admit | server/src/websocket/index.ts:161-168 | The kept timestamps and the decision are those of the sliding window |
| RateWindow.KeptIsWindow | server/src/websocket/index.ts:163-163 | With a non-decreasing clock the kept timestamps are exactly the messages admitted in the last minute, although older ones were forgotten |
| RateWindow.AdmittedIff | server/src/websocket/index.ts:163-168 | A message is admitted if and only if fewer than the limit were admitted in the minute before it, over the whole history |
| RateWindow.AdmissionsAreSpread | server/src/websocket/index.ts:161-168 | Any two admitted messages that are the limit apart in admission order are at least 60000 ms apart, over every run |
| Notification.CacheIsSuffix | server/src/workers/NotificationWorker.ts:63-70 | After any run the cache is the admitted ids from the later of "size from the end" and "an empty id", in order |
| Notification.CacheIsLastIff | server/src/workers/NotificationWorker.ts:63-70 | The cache is the last `size` admitted ids if and only if no empty id is older than those |
| Notification.CacheIsLast | server/src/workers/NotificationWorker.ts:63-70 | With non-empty ids the cache is always the last min(n, size) admitted ids |
| Notification.ReadmissionIsLate | server/src/workers/NotificationWorker.ts:57-61 | An id is admitted again only after at least `size` other admissions |
| Notification.EmptyIdStopsEviction | server/src/workers/NotificationWorker.ts:64-68 | Once an empty id is the oldest nothing is evicted any more: the cache grows with every admission |
| Notification.NotificationWorker.HandleEvent | server/src/workers/NotificationWorker.ts:54-70 | A stopped worker and a known id change nothing; any other event is admitted and the cache moves on |
| Notification.NotificationWorker.ProcessWithRetry | server/src/workers/NotificationWorker.ts:80-104 | At most three attempts; delivered exactly when one of them succeeds before the worker stops; the waits double from one second |

## Left out

- SweepSafety.NonceNeverShared: a corollary for disciplined runs; the exact condition, over every run, is SweepNonces.NonceNeverSharedIff.
- SweepSafety.ReservationSurvives: a corollary for disciplined runs; the exact condition, over every run, is SweepSafety.NoReservationAbandonedIff.
- SweepSafety.DroppedIsAbsorbing: a corollary for disciplined runs with fresh reports; the exact condition, over every run, is SweepSafety.DroppedForeverIff.
- Channels.ParsedNameIsFixed: upper and lower case outside ASCII are not modelled.
- LedgerSums.Total: the exact sum is stated for valid decimals without a sign, as ledger amounts are; on negative ones Decimals.PoolReadsOff says by how much the pool's parser is wrong.
- LedgerSums.CleanCheckConserves: transaction ids are colon-free, as UUIDs are; Keys.ColonsCollide shows that keys otherwise mix pairs.
- Gateway.WebSocketGateway.Subscribe: the connection is live; a message delivered between a slow-client drop and the socket's close event would file a connection that is gone, by Subscriptions.RegisterAgreesIff, until the close event unfiles it (Subscriptions.GoneIsUnfiled).
- WalletLock.NoLostUpdate: no client rolls back in between; what a rollback does to the locks is PoolTables.FailedTransactionLeaksLockIff.
- Row, intent and transaction ids, networks, addresses and assets of the sweep tables are numbers, and addresses are compared in one case only.
- Where several open intents or artifacts exist, the provider's choice of the newest is left nondeterministic.
- One status pass reads one clock; receipts, presence probes and stale thresholds are inputs.
- RPC calls, signing, fee estimation, balance checks, custody reconciliation events and the bounded reconciliation pass.
- SQL dispatch by regular expression, row mapping, the Postgres and Redis adapters, timeouts, logging and the metadata of ledger transactions.
- Rollback of the tables whose rows are mutated under a shallow snapshot (users, orders, assets, deposit addresses, blockchain deposits), for which it does not hold.
- Serialisation of top-level transactions: a call made while another transaction is open runs inside it.
- Columns of positions and withdrawals that no modelled update writes, and the several UPDATE forms that differ only in which columns they set.
- Surrounding white space and hexadecimal or other-base literals in amounts; negative raw amounts have a model and the laws of their division only.
- JSON parsing, payload limits and binary frames of gateway messages; what a client's buffer does between two messages.
- The order in which a broadcast reaches its subscribers; the loops visit them in any order.
- Confirmation counts, the float-based order book, routes, controllers and all user interface code, which would only add easy members.
