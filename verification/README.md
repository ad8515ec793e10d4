# Verification of the x402 indexer

A Dafny model of the block indexer and proofs about it. The indexer follows a chain block by
block, stores what it finds in PostgreSQL tables, derives payments from Transfer logs, and undoes
its work when the chain forks. Two workers share one pipeline and one cursor lock: the realtime
worker handles new heads, the backfill worker replays ranges.

Check the whole project with `dafny verify dfyconfig.toml`.

## How the model is built

* `Types.Db` is one value holding the tables, each a map keyed as its table is keyed.
  `Stores.Store` is the same database as an object whose fields the steps update in place.
* Every step that changes tables is a method on the store, and every class of the source is a
  class: `Registry`, `CheckpointManager` with its `CursorLock`, `RealtimeWorker`,
  `BackfillWorker`. Each method is proved equal to a function on `Db` values (`Recover`, `Index`,
  `Process`, `HandleHead`, `JobRun`, and so on). The theorems about runs are about those
  functions.
* The node is a `View`, a map from numbers to blocks, chosen afresh for every step, so the chain
  may change between any two steps. Logs, transactions and receipts are part of a block.
* A run (`Runs.Run`) is any list of sections under the cursor lock, in any interleaving: a head
  taken by the realtime worker, a block replayed by `backfill_default`, a refused lock request,
  a range asked for from outside.
* Settings, the rows of the address registry, contract code and the price source are the fixed
  `Config` of a run. USD amounts are reals.

| file | content |
|---|---|
| `Types`, `Sums`, `Stores` | values, sums over maps, the database object |
| `Candidates` | registry, candidate filter, scoring |
| `Domain`, `PriceCache`, `DailyStats`, `Aggregates` | table upserts, prices, daily rows |
| `Checkpoints`, `ReorgDetection`, `ReorgRecovery`, `Jobs` | cursors, fork search, undoing, ranges |
| `Orchestrator`, `RealtimeWorker`, `BackfillWorker` | the pipeline and its two drivers |
| `Runs`, `StepEffects`, `ChainInvariant`, `Integrity` | invariants over whole runs |
| `Standing` | where stored rows come from: the blocks accepted and not undone since |
| `StatsRuns`, `GasStats`, `RevenueStats` | exactness of the daily rows, column by column |
| `PaymentLogs`, `IndexedBlock`, `ForkCheck`, `Delegation`, `DailyFigures` | what blocks, forks, gaps and daily rows come to, stated without the functions the methods share |
| `BlockEffects`, `BlockTables`, `Confluence`, `BackfillOrder` | what a block adds, and in which order |
| `Convergence`, `ConvergedStats` | forks |
| `Retries` | blocks that throw part of the way |
| `Samples`, `SampleRuns`, `SampleEffects` | concrete blocks and short runs |
| `OrderMatters`, `StaleDay`, `LateAgent` | runs in which a promise fails |
| `PairClause` | positional-parameter query building |

## Main results

1. **Reorg convergence** (`Convergence.ReorgConverges`, `ConvergedStats.StatsConverge`), and for
   whole interleavings: the tables do not remember how a run got there
   (`Standings.StandingFixesTables`, `ConvergedStats.StandingFixesColumns`).
2. **No lost block** in any interleaving (`Runs.RunKeeps`).
3. **One linked segment** through any number of forks, and the store is its index
   (`ChainInvariants.RealtimeRunKeepsOneSegment`, `Standings.RealtimeIndexesSegment`).
4. **Backfill confluence**: when the order and the repeats of the backfill loop, which skips blocks
   already processed, do not matter (`BackfillOrder.LoopOrderIrrelevantIff`; two starts where they
   do, one for each half of the condition: `OrderMatters.SkipLosesPayment`,
   `OrderMatters.OrderShows`).
5. **Daily statistics over whole runs**: exactly when the payment columns stay exact
   (`StatsRuns.RunKeepsStatsExactIff`; a run where they do not: `StaleDay.PaymentLeavesItsDay`) and
   exactly when the revenue does (`RevenueStats.RunKeepsRevenueIff`; a run where it does not:
   `LateAgent.EarningsNeverWritten`).
6. **Derived tables agree** with each other over whole runs, and exactly when
   (`Integrity.RunKeepsSoundIff`; a run where they do not: `Integrity.MovedTransactionSplits`), and
   stay off orphaned blocks, and exactly when (`Integrity.RunKeepsOnCanonicalIff`; a run where they
   do not: `Integrity.DescendingTransactionSticks`). All of it follows when each transaction comes
   back only in the same block unless a recovery removed it
   (`Standings.StayingRunIsSoundAndExact`, `Standings.StayingIsFaithful`).
7. **From logs to tables, and from forks to recoveries**, in terms of the chain and the stored rows
   alone: each accepted block of a run is indexed exactly (`IndexedBlocks.RunIndexes`), a fork is
   recovered to the last shared block by either worker (`ForkChecks.ForkIsRecovered`), and neither
   builds on another fork (`ForkChecks.RunLinks`).
8. **A documented promise that fails, and exactly when** (`Retries.RetryCompletesIff`,
   `Retries.SkippedBlockLosesPayment`, `Retries.SkippedBlockLosesDailyRow`).

## Model

| member | source | states |
|---|---|---|
| Convergence.ReorgConverges | src/pipeline/steps/recoverReorg.ts:15-61 | Index an old chain from a start whose cursor stands on its canonical row, meet a fork at block `m`, recover to a non-zero ancestor, replay the new chain from there: the non-orphaned rows, the evidence, the payments, the interactions and the cursor are those of indexing the new chain from the same start with no fork, and no replayed block triggers another recovery |
| Convergence.ForkRecovered | src/pipeline/steps/recoverReorg.ts:24-39 | Right after the recovery the store is what indexing the new chain up to the ancestor would have left |
| Convergence.RunFollows | src/pipeline/orchestrator.ts:26-97 | Every block of a linked chain is accepted in turn, and the store is the start plus exactly the rows, evidence, payments and interactions of those blocks, with the cursor on the last one |
| Convergence.AncestorNotBelowStart | src/pipeline/steps/detectReorg.ts:59-93 | A non-zero ancestor is never below the block on which the start stands |
| Convergence.AncestorAgrees | src/pipeline/steps/detectReorg.ts:67-90 | From the start up to the ancestor found, the old and the new chain have the same blocks |
| ConvergedStats.StatsConverge | src/pipeline/steps/dailyStats.ts:83-248 | After the same fork and replay each agent's day has the transaction count, payment count, amount, gas and service count it would have had without the fork |
| Runs.RunKeeps | src/workers/realtimeWorker.ts:140-199 | In every interleaving, forks and recoveries included, each number above the effective cursor and up to the highest handled head lies in a recorded range, and no non-orphaned block lies above the effective cursor |
| Runs.ProcessAcceptsOrRecovers | src/pipeline/orchestrator.ts:38-49 | A completed step either stores its block and advances the cursor, or orphans everything above an ancestor, rewinds to it and records the range from the ancestor's successor to the current block, which then is the cursor's exact successor |
| Runs.RealtimeReplayCoversOrphans | src/pipeline/steps/recoverReorg.ts:41-52 | After any run, a block newly orphaned by a completed realtime step lies above the ancestor that step recovers to and not above its head, and the range from the ancestor's successor to that head is on record |
| Runs.ThrownHeadOnRecord | src/workers/realtimeWorker.ts:119-135 | A head whose handling throws is recorded as a range of its own |
| StepEffects.OnlyRecoveryLowersACursor | src/db/checkpoints.ts:120-163 | No step removes a cursor, and a step lowers one only by recovering for the worker that owns it; hand-off and every advance are monotone |
| StepEffects.RecoveryAcceptsSuccessor | src/pipeline/steps/recoverReorg.ts:38-39 | After a recovery to block `a` the reorg check accepts block `a + 1` of the same linked view for that worker |
| StepEffects.StepProduces | src/workers/realtimeWorker.ts:140-199 | Each section of a run leaves the tables alone, accepts one block, recovers once, or gets stuck in a recovery, and nothing else |
| ChainInvariants.RealtimeRunKeepsOneSegment | src/workers/realtimeWorker.ts:142-197 | When only the realtime worker writes, the non-orphaned rows of every run from an empty store are one contiguous parent-linked segment whose last number and hash are the realtime cursor, and none without a cursor; no derived row is on an orphaned block and every recovery completes |
| Confluence.OrderIrrelevantIffSettled | src/pipeline/orchestrator.ts:26-97 | On a fixed chain with the cursor on it, pipeline steps over all lists of positive numbers with the same members leave equal tables (all but the daily rows) and cursors, in whatever order and with whatever repeats, if and only if evidence stored at another height than the chain pays it at sits on a row whose timestamp is the chain's |
| Confluence.BackfillConfluent | src/pipeline/orchestrator.ts:26-97 | From such a start two lists of pipeline steps with the same members are accepted throughout and leave equal blocks, transactions, evidence, payments, agents, services, interactions and cursors |
| Confluence.UnsettledOrderMatters | src/pipeline/steps/deriveDomain.ts:158-161 | Any two blocks between which the start is not settled are such that their two orders give a payment different timestamps |
| Confluence.OwnHeightsAreSettled | src/pipeline/steps/extractEvidence.ts:140-170 | A store whose evidence for the chain's keys is at the heights the chain has it at is settled |
| BackfillOrder.LoopOrderIrrelevantIff | src/workers/backfillWorker.ts:142-150 | With the loop's skip of blocks already processed: all lists with the same members leave equal tables (all but the daily rows) and cursors, in whatever order and with whatever repeats, if and only if the start is settled between any two blocks that the loop may take one after the other, and each live block above the worker's cursor has nothing to add that every greater block of the chain would not bring |
| BackfillOrder.LoopConfluent | src/workers/backfillWorker.ts:142-150 | From such a start two lists with the same members, whatever blocks the loop skips in each, end alike |
| BackfillOrder.NothingNewIff | src/workers/backfillWorker.ts:182-199 | What it means that a skipped block would have brought nothing: its rows are stored as they are, its services and interactions are known, and each of its payers is known since it or earlier and seen as late as it or brought by the later block; exactly then taking it before the later block leaves the tables unchanged |
| BackfillOrder.QuietStart | src/workers/backfillWorker.ts:142-150 | With no live block above the cursor and all evidence where the chain has it, order and repeats are irrelevant |
| OrderMatters.SkipLosesPayment | src/workers/backfillWorker.ts:144-146 | A store reached by one realtime head, settled, from which the loop over blocks 12 and 10 of another fork skips block 10 and never stores its payment, while the loop over 10 and 12 does |
| OrderMatters.OrderShows | src/pipeline/steps/deriveDomain.ts:158-190 | A store reached by one realtime head from which the loop over blocks 10 and 12 of another fork gives a payment different timestamps in the two orders |
| Confluence.CursorIsGreatest | src/db/checkpoints.ts:120-145 | Whatever the tables hold, after such a list the worker's cursor is the greatest number seen, with its canonical hash, unless it already was higher; other cursors are unchanged |
| Confluence.BackfillStep | src/pipeline/steps/detectReorg.ts:33-38 | On that chain a backfilled block is always accepted and never triggers a recovery, whatever the tables hold |
| Confluence.ApplyCommutes | src/pipeline/steps/storeRaw.ts:11-78 | The contributions of two blocks that share no transaction commute on every table |
| Confluence.ApplyIdempotent | src/pipeline/steps/deriveDomain.ts:140-198 | Contributing the same block twice is contributing it once |
| Confluence.AgentsCommute | src/pipeline/steps/deriveDomain.ts:104-118 | The LEAST and GREATEST upsert of agents commutes and is idempotent for any two batches that agree on the contract flag |
| Confluence.PaymentsCommute | src/pipeline/steps/deriveDomain.ts:169-197 | Upserting and valuing two disjoint batches of payments commutes |
| BlockEffects.AcceptApplies | src/pipeline/orchestrator.ts:51-96 | Accepting a block adds to every table what the block alone determines, but for two things: rows of evidence keep the block number they have, and payments take the timestamp of that block |
| BlockEffects.AcceptAddsAsIs | src/pipeline/orchestrator.ts:51-96 | When what is stored for the block's keys is at the block's height, it adds exactly what the block alone determines |
| BlockEffects.PersistPlaces | src/pipeline/steps/extractEvidence.ts:140-170 | The evidence upsert overwrites everything but the block numbers of rows already stored |
| BlockEffects.PayMerges | src/pipeline/steps/deriveDomain.ts:140-198 | Inserting a block's payments takes the joined timestamp, keeps the USD value of each row replaced and leaves every other row alone |
| BlockEffects.InteractAdds | src/pipeline/steps/deriveDomain.ts:202-243 | A conflicting interaction keeps the row it has |
| BlockEffects.BlockRowsFit | src/pipeline/steps/extractEvidence.ts:34-44 | The evidence of a block sits at its height and on transactions the block stores |
| PaymentLogs.EvidenceInOrder | src/pipeline/steps/filterTransferLogs.ts:24-55 | The evidence of a block is one record for each of its logs that is a payment, in the order of the logs and as often as they occur: a transfer of an asset registered at the height, in a transaction that starts with one of the two selectors, calls a registered asset or proxy and, in hard mode, comes from a registered facilitator; path, score, key, payer, payee, asset and amount are given field by field |
| PaymentLogs.EvidenceIff | src/pipeline/steps/validateX402Candidate.ts:43-82 | Something is evidence of a block if and only if it is that record of one of its payments |
| PaymentLogs.FetchableIff | src/pipeline/steps/validateX402Candidate.ts:30-38 | The lookups for a block succeed if and only if the node knows the transaction of every transfer of a registered asset, payment or not |
| IndexedBlocks.AcceptIsIndexed | src/pipeline/orchestrator.ts:51-96 | What an accepted block with distinct log indexes leaves in every table, from its logs, transactions and header alone: a record for each payment at the block number it has or gets; for each payment at or above the threshold a payment row with the time of the record's block and its dollar value, an agent with widened first and last block, a service and an interaction; the transactions of the payments; the block row; and nothing else |
| IndexedBlocks.AcceptKeys | src/pipeline/orchestrator.ts:51-96 | Whatever the log indexes, the stored keys grow by exactly those of the block's payments, and the keys of payment rows by exactly those at or above the threshold |
| IndexedBlocks.RunIndexes | src/pipeline/orchestrator.ts:51-96 | In every run each accepted block leaves exactly that in the tables it met |
| Integrity.RunKeepsOnCanonicalIff | src/pipeline/steps/recoverReorg.ts:122-130 | In every interleaving: after every step no evidence, payment or interaction sits on an orphaned or missing block, if and only if no recovery meets a payment at or below its ancestor whose evidence is above it |
| Integrity.DescendingTransactionSticks | src/pipeline/steps/recoverReorg.ts:128-130 | A run where that happens: the realtime worker indexes a payment in block 11, the backfill worker finds its transaction in block 10 of another fork, and the recovery to block 10 orphans block 11 but cannot delete the evidence there |
| Integrity.SoundIsNeverStuck | src/pipeline/steps/recoverReorg.ts:122-130 | Where payments and evidence agree after every step, every recovery completes and no derived row is ever on an orphaned block |
| Integrity.RunKeepsStored | src/db/migrations/0001_init.sql:104 | In every run all evidence sits on stored block rows, as the foreign key of that table demands |
| Integrity.RunKeepsSoundIff | src/pipeline/orchestrator.ts:74-96 | Over every run whose blocks have distinct logs: after every step each payment's evidence (at the same height), transaction, agent and service exist and the payments are exactly the evidence at or above the threshold, if and only if in each accepted block promoted rows stay promoted and promoted evidence sits at the height it is stored at |
| Integrity.AcceptKeepsSoundIff | src/pipeline/orchestrator.ts:81-93 | One accepted block keeps that agreement if and only if what it derives meets that condition |
| Integrity.MovedTransactionSplits | src/pipeline/steps/extractEvidence.ts:150-156 | A run where it fails: the realtime worker indexes a payment in block 10, the backfill worker finds its transaction in block 11 of another fork; the evidence stays at block 10 and the payment sits at block 11 |
| Integrity.RecoverKeepsSound | src/pipeline/steps/recoverReorg.ts:122-130 | One recovery keeps it, with no condition on the chain |
| Integrity.NewTransactionsAgree | src/pipeline/steps/extractEvidence.ts:150-156 | A block none of whose transactions is in the stored evidence meets the condition |
| Integrity.OneEvidencePerKey | src/pipeline/steps/validateX402Candidate.ts:43-82 | When a block's logs have distinct indexes, a transaction and log index stand for one piece of evidence |
| Standings.StayingRunIsSoundAndExact | src/pipeline/orchestrator.ts:74-96 | Over every run in which two accepted blocks that share a transaction are equal or separated by a recovery that undid the first, payments and evidence agree as above and the daily rows are exact, after every step |
| Standings.StayingIsFaithful | src/pipeline/steps/extractEvidence.ts:140-170 | In such a run every block, replayed ones included, derives what is stored for its keys, so both run conditions hold, and every recovery completes |
| Standings.RunMirrorsStanding | src/pipeline/steps/recoverReorg.ts:122-130 | In such a run evidence, payments and interactions are exactly those of the blocks accepted and not undone since |
| Standings.RunEvidenceProvenance | src/pipeline/steps/extractEvidence.ts:17-51 | Every stored piece of evidence was derived, as it is, from a block accepted at its height with no later recovery below it |
| Standings.RunRowsStand | src/pipeline/steps/storeRaw.ts:18-27 | In every run, without any condition, exactly the heights of the blocks accepted and not undone since are not orphaned, each with the row of one of them |
| Standings.RunIndexesStanding | src/pipeline/orchestrator.ts:74-96 | When moreover no live row is replaced by one of another hash, there is one such block per height, and the store holds its row, its evidence, its payments and its interactions, and nothing else |
| Standings.StandingFixesTables | src/pipeline/orchestrator.ts:74-96 | Two such runs of any interleaving, forks, recoveries and replays that leave the same blocks standing end with the same non-orphaned rows, evidence, payments and interactions |
| ConvergedStats.StandingFixesColumns | src/pipeline/steps/dailyStats.ts:83-248 | They end with the same transaction count, payment count, amount, gas and service count for each agent's day |
| ConvergedStats.StandingFixesRevenue | src/pipeline/steps/dailyStats.ts:185-211 | They end with the same revenue for each day of an address that is an agent in both, if in neither a block earns an agent something on a day it does not recompute |
| Standings.RealtimeIndexesSegment | src/workers/realtimeWorker.ts:142-197 | When only the realtime worker writes, through any number of forks the store is in that sense the index of the one linked segment that ends at the cursor |
| StatsRuns.RunKeepsStatsExactIff | src/pipeline/steps/aggregate.ts:24-36 | Over every run: after every step the payment count, transaction count, amount and service count of each agent's day are those of the payments with that payer and day, and a day without a row has none, if and only if each accepted block recomputes the days on which the payments it writes again were counted and no recovery that gets stuck deletes a payment |
| StatsRuns.RunKeepsStatsExact | src/pipeline/steps/aggregate.ts:24-36 | That is so whenever a payment derived again keeps its payer and its UTC day, wherever its transaction now is, and no recovery gets stuck |
| StaleDay.PaymentLeavesItsDay | src/pipeline/steps/aggregate.ts:24-36 | A run where it fails: a payment is indexed in block 10, the row of block 10 is replaced by one of the next UTC day, and block 12 brings the payment again; it moves to that day, and the row of the first day still counts it |
| StatsRuns.AcceptKeepsExactIff | src/pipeline/steps/dailyStats.ts:23-49 | One accepted block leaves the payment columns exact if and only if the old day of every payment it writes again is among the days it recomputes |
| StatsRuns.AcceptKeepsExact | src/pipeline/steps/dailyStats.ts:23-49 | Keeping payer and day is enough, with no condition on the height |
| StatsRuns.RecoverKeepsExact | src/pipeline/steps/recoverReorg.ts:80-154 | One recovery, whatever its ancestor, leaves the payment columns exact |
| StatsRuns.StuckKeepsExactIff | src/pipeline/steps/recoverReorg.ts:125-154 | A recovery that cannot delete the evidence leaves the payment columns exact if and only if it deleted no payment |
| GasStats.AcceptKeepsGas | src/pipeline/steps/dailyStats.ts:164-182 | One accepted block that recomputes the days of the payments it writes again, and brings no stored payment another transaction, leaves every row with the gas of exactly its payments |
| GasStats.StayingRunKeepsGas | src/pipeline/steps/dailyStats.ts:164-182 | In a run in which transactions come back only in the same block unless a recovery removed them, each row has the gas of exactly its payments after every step, although the transactions of abandoned blocks stay stored |
| RevenueStats.AcceptKeepsRevenueIff | src/pipeline/steps/dailyStats.ts:51-75 | One accepted block that changes no stored evidence leaves each agent's day with exactly the revenue its evidence earned, if and only if, on each day the block does not recompute, what an agent newly earns adds up to nothing where the day has a row, and is nothing where it has none |
| RevenueStats.RecoverKeepsRevenue | src/pipeline/steps/recoverReorg.ts:80-154 | One recovery, whatever its ancestor, keeps the revenue exact |
| RevenueStats.RunKeepsRevenueIff | src/pipeline/steps/dailyStats.ts:81-98 | Over every run that replaces no live row by one of another hash and keeps transactions in their blocks: the revenue is exact after every step if and only if every accepted block meets that condition |
| LateAgent.EarningsNeverWritten | src/pipeline/steps/dailyStats.ts:61-75 | Such a run where it fails: block 12 pays an address that block 10, backfilled later, makes an agent; its day gets no row, while the other order of the two blocks, which leaves the same blocks standing, writes it |
| StatsRuns.RecomputeTwice | src/pipeline/steps/dailyStats.ts:83-248 | Recomputing twice is recomputing once, and rows nobody asked for are unchanged |
| StatsRuns.CountsBounded | src/pipeline/steps/dailyStats.ts:177-182 | Neither the transaction count nor the service count of a row exceeds its payment count |
| DailyStats.RecomputeAgentDailyStats | src/pipeline/steps/dailyStats.ts:83-248 | For any key list with duplicates and any order of the query results, each requested row becomes the specified totals over all its payments and canonical evidence, or is deleted when nothing contributes; every other row stays; `DailyFigures` says what those totals are |
| DailyFigures.OneMorePayment | src/pipeline/steps/dailyStats.ts:154-183 | One more payment of an agent's day adds to its recomputed row 1 payment, its dollar value, gas used times effective gas price over 10^18 times the ether price of its hour (0 when unknown), and 1 transaction and 1 service unless the day already had them |
| DailyFigures.OneMorePaymentElsewhere | src/pipeline/steps/dailyStats.ts:154-160 | It changes no other recomputed row |
| DailyFigures.OneMoreEarning | src/pipeline/steps/dailyStats.ts:185-211 | One more piece of evidence on a canonical block, with a price in the hour of that block, adds its amount in millionths times that price to the revenue of its payee's day and changes nothing else of the row |
| DailyFigures.OneMoreEarningElsewhere | src/pipeline/steps/dailyStats.ts:114-126 | It changes no other row, and none at all when its block is orphaned or missing or the price is unknown |
| DailyFigures.RowIff | src/pipeline/steps/dailyStats.ts:213-223 | A recomputed day has a row if and only if something was paid or earned on it |
| DailyFigures.GasOfOneTransfer | src/pipeline/steps/dailyStats.ts:163-165 | 21000 units of gas at 1 gwei with an ether at 3000 dollars make a gas column of 0.063 |
| DailyStats.AggregateIsSpec | src/pipeline/steps/dailyStats.ts:154-211 | The entries accumulated row by row, with only the prices asked for, are the specified totals over the whole tables |
| DailyStats.PaidGrows | src/pipeline/steps/dailyStats.ts:177-182 | One more payment row adds its transaction, count, amount, gas and service to the totals of a set of payments |
| DailyStats.RevenueGrows | src/pipeline/steps/dailyStats.ts:185-211 | One more priced piece of evidence adds its amount in USD to the revenue of a set of evidence |
| DailyStats.DedupeKeys | src/pipeline/steps/dailyStats.ts:16-19 | The result holds each key once and has the same members |
| DailyStats.WriteRows | src/pipeline/steps/dailyStats.ts:213-247 | Requested keys without an entry are deleted, entries are written, other rows stay |
| Aggregates.CollectAffectedAgentDates | src/pipeline/steps/dailyStats.ts:23-79 | Exactly the payer days of the payments named and the payee days of their evidence whose payee is an agent, each once |
| Aggregates.BackfillPaymentUsd | src/pipeline/steps/aggregate.ts:93-132 | The named payments with a known price take its value; all other payments are unchanged |
| Aggregates.FetchPrices | src/pipeline/steps/aggregate.ts:49-89 | The prices loaded value the named payments as the whole price source would |
| Aggregates.UpdateAggregates | src/pipeline/steps/aggregate.ts:14-45 | Values the named payments, then recomputes the days they affect; no other table changes |
| PriceCache.LoadHourlyPrices | src/pipeline/steps/priceCache.ts:21-96 | Answers the price source restricted to the buckets asked for, asks the source once for each bucket that is not cached and for no other, and the cache stays part of the source |
| PriceCache.RepeatAsksOnlyForUnknown | src/pipeline/steps/priceCache.ts:64-93 | A repeated call adds nothing to the cache and asks only for buckets the source lacks |
| ReorgDetection.FindCommonAncestor | src/pipeline/steps/detectReorg.ts:59-93 | Terminates with the answer of the downward search that probes `maxReorgDepth + 1` blocks |
| ReorgDetection.AncestorIsGreatestMatch | src/pipeline/steps/detectReorg.ts:67-92 | The answer is the greatest agreeing block of the window, unless a block above it is unknown to the node, which makes the search throw; with neither it throws when `start >= maxReorgDepth` and answers 0 otherwise |
| ReorgDetection.MatchOrUnknownOrNone | src/pipeline/steps/detectReorg.ts:67-92 | One of these cases always applies |
| ReorgDetection.AncestorFound | src/pipeline/steps/detectReorg.ts:82-84 | An answer agrees or is 0, and no block above it agrees |
| ReorgDetection.AgreementGoesDown | src/pipeline/steps/detectReorg.ts:69-84 | In a parent-linked segment agreement at the answer is agreement at every block below it, so the answer is the fork point |
| ReorgDetection.StrictCheckPassesOnlySuccessor | src/pipeline/steps/detectReorg.ts:33-43 | On an unforked chain the realtime check passes a block if and only if it is the cursor's successor; the backfill check passes every block |
| ReorgDetection.DetectReorg | src/pipeline/steps/detectReorg.ts:14-55 | Without a cursor, or for a block the backfill may take out of order, or on a matching parent the block is valid; otherwise the search decides, and its error is passed on; what that comes to for the tables is `ForkChecks` |
| ForkChecks.ContinuingIsIndexed | src/pipeline/steps/detectReorg.ts:22-45 | A block is indexed, with the cursor on it, whenever its worker has no cursor, or the block names the cursor's hash as its parent, or a backfill takes it out of order; it throws exactly when a transaction is unknown |
| ForkChecks.ForkIsRecovered | src/pipeline/steps/detectReorg.ts:33-54 | In every other case, for the realtime and the backfill check alike, with all blocks down to the last one shared with the store known and in the window: everything above that block is undone, the cursor stands on it and the range from its successor to the old head or the current block is on record with the status of the mode; or, exactly when a payment that stays has its evidence above it, the step throws and only rows, interactions and payments are undone |
| ForkChecks.SuccessorIsChild | src/pipeline/steps/detectReorg.ts:33-45 | A step that moves a cursor to its exact successor has stored a block whose parent is the block the cursor was on |
| ForkChecks.RunLinks | src/pipeline/orchestrator.ts:38-49 | In every run, whichever worker takes the exact successor of the cursor it goes on from, the row stored there is a child of that cursor's block: neither worker builds on another fork |
| ReorgRecovery.RecoverReorg | src/pipeline/steps/recoverReorg.ts:15-61 | The whole new database: orphaned rows, derived rows cut at the ancestor, impacted days recomputed, cursor rewound to the ancestor's canonical hash, replay range up to the higher of the old cursor and the current block recorded; or, where a payment at or below the ancestor has evidence above it, the error and exactly the orphaned rows, interactions and payments already undone |
| ReorgRecovery.MarkOrphanBlocks | src/pipeline/steps/recoverReorg.ts:65-76 | A block is live afterwards exactly when it was and is not above the ancestor; no row is lost and none changes otherwise |
| ReorgRecovery.InvalidateDomainData | src/pipeline/steps/recoverReorg.ts:80-154 | Interactions, payments and evidence above the ancestor are gone, the days they contributed to are recomputed from what is left, everything else stays; where a payment that stays has its evidence above the ancestor the foreign key forbids the delete, and only interactions and payments are gone |
| ReorgRecovery.ImpactedStats | src/pipeline/steps/recoverReorg.ts:85-120 | Exactly the payer days of payments above the ancestor and the payee days of evidence above it whose payee is an agent, without duplicates |
| Checkpoints.AdvanceAllIsMaximum | src/db/checkpoints.ts:120-145 | Any list of advances leaves the greatest number seen with the hash of the last header at that number, never lowers the cursor and touches no other worker |
| Checkpoints.AdvanceTo | src/db/checkpoints.ts:120-145 | The conditional upsert of number and hash |
| Checkpoints.RewindTo | src/db/checkpoints.ts:148-163 | A worker with a cursor continues after the given block, or from nothing when that is block 0; no cursor is created and no other worker's changes |
| Checkpoints.CheckpointManager.AcquireLock | src/db/checkpoints.ts:22-57 | Granted exactly when the lock is free or already held by this manager; a refusal leaves the holder alone |
| Checkpoints.CheckpointManager.ReleaseLock | src/db/checkpoints.ts:61-75 | Frees the lock if this manager holds it and does nothing otherwise |
| Orchestrator.ProcessBlock | src/pipeline/orchestrator.ts:26-97 | The store ends in the state given by `Process`, early returns included; block 0, unknown blocks, a failed search and a failed transaction lookup throw before anything is written, and a recovery stopped by the foreign key leaves what it had undone by then |
| Orchestrator.ProcessOutcome | src/pipeline/orchestrator.ts:35-49 | What each outcome does to block rows, cursors and recorded ranges, and which inputs throw |
| Orchestrator.NoCandidatesOnlyBlock | src/pipeline/orchestrator.ts:54-72 | Both early returns agree with the general case: without candidates only the block row changes |
| Domain.StoreRaw | src/pipeline/steps/storeRaw.ts:11-78 | The block row is stored as not orphaned, and each transaction takes the row of its last candidate |
| Domain.StoreBlockOnly | src/pipeline/steps/storeRaw.ts:82-97 | The block is live with its own hash and parent, even where an orphaned row was, and no other row changes |
| Domain.PersistEvidence | src/pipeline/steps/extractEvidence.ts:140-170 | A conflicting row takes every new value but its block number |
| Domain.UpsertAgents | src/pipeline/steps/deriveDomain.ts:82-119 | Batching by payer and looking up code only for new payers leaves what seeing the evidence one by one with all code known would leave |
| Domain.SeeIsMerge | src/pipeline/steps/deriveDomain.ts:104-118 | Seeing evidence one by one equals one LEAST and GREATEST upsert of the batch |
| Domain.KnownPayersNeedNoCode | src/pipeline/steps/deriveDomain.ts:45-62 | Leaving out the code of payers that are already agents changes no agent row |
| Domain.UpsertServices | src/pipeline/steps/deriveDomain.ts:123-136 | Exactly the payees are added |
| Domain.InsertPayments | src/pipeline/steps/deriveDomain.ts:140-198 | Evidence without a stored row joined to a block is skipped; the timestamp is that of the stored evidence's block; an existing USD value is kept |
| Domain.InsertInteractions | src/pipeline/steps/deriveDomain.ts:202-243 | Evidence without a stored transaction joined to a block is skipped; an existing interaction is kept |
| Domain.DeriveDomain | src/pipeline/steps/deriveDomain.ts:11-42 | The four derivations in order, all other tables unchanged |
| Candidates.Registry.Refresh | src/db/addressRegistry.ts:12-50 | Whatever the sets held and whatever order the rows come in, they become exactly the addresses of each type valid at the height |
| Candidates.RegistrySetsDisjoint | src/db/addressRegistry.ts:37-49 | The three sets are pairwise disjoint |
| Candidates.ValidateX402Candidates | src/pipeline/steps/validateX402Candidate.ts:21-85 | The filter loop computes `Candidates`, or throws when some log's transaction cannot be looked up |
| Candidates.FetchTxAndReceipts | src/pipeline/steps/validateX402Candidate.ts:88-103 | One unknown transaction fails the whole batch; otherwise each hash has its details |
| Candidates.CandidateIff | src/pipeline/steps/validateX402Candidate.ts:49-81 | Something is a candidate if and only if its log is in the list and passes the filter, with the block's number and the log's transaction |
| Candidates.CandidatesKeepOrder | src/pipeline/steps/validateX402Candidate.ts:43-82 | The candidates' logs are a sublist of the logs, in their order |
| Candidates.HardModeOnlyRemoves | src/pipeline/steps/validateX402Candidate.ts:66-71 | The hard-mode list is a sublist of the soft-mode list |
| Candidates.ScoreBounds | src/pipeline/steps/extractEvidence.ts:54-118 | No evidence of a block is a custom event, every score is in 20..100, and in 60..100 in hard mode |
| Candidates.CalculateConfidence | src/pipeline/steps/extractEvidence.ts:82-118 | The accumulated score is the capped sum of the five weights |
| Candidates.ExtractEvidence | src/pipeline/steps/extractEvidence.ts:17-51 | One piece of evidence per candidate, in order, with payer and payee taken from the log |
| Jobs.EnqueueBackfillRange | src/db/backfillJobs.ts:32-44 | The range is recorded with retry count 0, as queued when the queue is enabled and for manual replay otherwise, replacing an earlier row for the same range and no other; the answer says which |
| Jobs.RecordQueuedBackfillJob | src/db/backfillJobs.ts:13-28 | Whatever its row said before, the range is on record with the given status and no attempts; no other range changes |
| Jobs.TilesPartition | src/workers/realtimeWorker.ts:153-171 | Consecutive ranges are pairwise disjoint and each number of the interval, and no other, is in one of them |
| RealtimeWorkers.RealtimeWorker.Triage | src/workers/realtimeWorker.ts:143-188 | Ignore, delegate or hand off: new gap marker, recorded range and realtime cursor in each case, all else unchanged; beside a cursor a marker that remains is above it |
| RealtimeWorkers.RealtimeWorker.HandleLocked | src/workers/realtimeWorker.ts:142-198 | The section under the lock is `HandleHead`, errors included |
| RealtimeWorkers.RealtimeWorker.HandleBlock | src/workers/realtimeWorker.ts:140-199 | A refused lock request changes nothing and is no error; a granted one runs the section and frees the lock on both ways out |
| RealtimeWorkers.RealtimeWorker.ConsumeNext | src/workers/realtimeWorker.ts:110-137 | Takes the oldest head, handles it, and records it for backfill if handling threw |
| RealtimeWorkers.RealtimeWorker.GetEffectiveCheckpoint | src/workers/realtimeWorker.ts:203-232 | The higher of the two cursors above 0, the realtime one when they are level |
| RealtimeWorkers.RealtimeWorker.SyncRealtimeCheckpoint | src/workers/realtimeWorker.ts:236-248 | Raises the realtime cursor, never lowers it |
| RealtimeWorkers.EffectiveIsHighest | src/workers/realtimeWorker.ts:203-232 | The effective cursor is one of the two that are above block 0 and at least as high as the other, the realtime one on one level, and none when neither is |
| RealtimeWorkers.HandOffIsExact | src/workers/realtimeWorker.ts:143-197 | Beside an existing cursor a head reaches the pipeline if and only if it is the exact successor of the effective cursor, and by then the realtime cursor has that number and hash, running, if it was not the effective one already, and no canonical cursor is higher |
| RealtimeWorkers.DelegatedRangesTile | src/workers/realtimeWorker.ts:145-171 | While the cursor stays below the marker, the ranges delegated for any sequence of heads are adjacent, without overlap or hole, and end at the marker |
| RealtimeWorkers.FirstRangeStartsAboveCursor | src/workers/realtimeWorker.ts:154-158 | The first delegated range starts right above the cursor seen at that moment |
| Delegation.FirstDelegation | src/workers/realtimeWorker.ts:153-158 | While nothing has been delegated, a head delegates everything above the cursor it meets up to itself, if and only if it lies beyond that cursor's successor |
| Delegation.NextDelegation | src/workers/realtimeWorker.ts:145-171 | After head `d` was delegated, the next head beyond its cursor's successor delegates from `d + 1` on, unless some head since, itself included, met a cursor at or above `d`; then it delegates from the cursor it meets itself, even if that was rewound in between; and nothing if that leaves nothing |
| Runs.RunDelegates | src/workers/realtimeWorker.ts:145-171 | The gap marker of a run is the one its heads leave, and every range delegated on the way is on record |
| Runs.RunDelegationsTile | src/workers/realtimeWorker.ts:153-171 | In a run whose heads meet a cursor below the marker, the delegated ranges are adjacent, end at the marker and are all on record |
| Delegation.RunNextDelegation | src/workers/realtimeWorker.ts:145-171 | In every run such a range is on record |
| BackfillWorkers.SplitBlockRangeIntoChunks | src/workers/backfillWorker.ts:18-36 | The chunks are consecutive, cover the range exactly, and all but the last are full; an inverted range has none |
| BackfillWorkers.ChunksPartition | src/workers/backfillWorker.ts:26-35 | Each block of the range is in exactly one chunk |
| BackfillWorkers.BackfillWorker.HandleBlock | src/workers/backfillWorker.ts:202-214 | A refused lock request passes over the block silently; a granted one runs the pipeline |
| BackfillWorkers.BackfillWorker.ProcessJob | src/workers/backfillWorker.ts:125-164 | Whether the lock is free or held elsewhere, the chunked loops are the run of the job's blocks in order; when none throws the job's row, if on record, is completed with this attempt's number and every other range is as the blocks left it; the first throw ends the job with that error, the store that the throwing block left and the job's row still running, unless a recovery asked for the same range; no row is created |
| BackfillWorkers.ThrownJobLeaves | src/workers/backfillWorker.ts:140-150 | A job that throws stops at one of its blocks: those before it are handled, and the store is what that block leaves when it throws, which is the store before it unless a recovery got stuck |
| BackfillWorkers.JobKeepsRow | src/db/backfillJobs.ts:13-28 | Through a job, thrown or not, a range keeps its row, or stays off record, unless a recovery of that job asks for it |
| BackfillWorkers.RefusedJobDoesNothing | src/workers/backfillWorker.ts:202-214 | A job whose lock requests are all refused completes without changing a table |
| BackfillWorkers.CompletedJobLosesNothing | src/workers/backfillWorker.ts:140-163 | When a job completes, each of its blocks whose lock request was granted is stored and not orphaned or lies in a range recorded by a recovery of that job, on whatever view of the chain each block was handled |
| BackfillWorkers.JobStepKeepsOrReplays | src/workers/backfillWorker.ts:182-199 | One block of a job ends up canonical and orphans nothing, or its recovery records a range that contains it and leaves every block below that range canonical |
| Retries.RetryCompletesIff | src/workers/backfillWorker.ts:182-199 | When a throw after any stage left anything undone, daily rows included, the next attempt of a backfill worker completes the whole database if and only if that worker's cursor is absent or below the block |
| Retries.RetryCompletes | src/pipeline/orchestrator.ts:74-96 | With the cursor absent or below the block, whatever stage the first attempt reached and whatever is stored, the retry ends in the database of an undisturbed attempt: every table, the daily rows, the cursors and the recorded ranges |
| Retries.SkippedBlockLosesPayment | src/workers/backfillWorker.ts:144-146 | A run and a block whose payment is lost: after block 10 was backfilled, block 5 throws once its raw rows are stored, is skipped from then on, and an undisturbed attempt would have stored evidence and payment |
| Retries.SkippedBlockLosesDailyRow | src/pipeline/steps/dailyStats.ts:131-140 | A run and a block whose daily row is lost: block 5 throws while prices are fetched, after its payment was stored, is skipped from then on, and an undisturbed attempt would have written the row of that day |
| PairClauses.BuildPairClause | src/db/helpers.ts:88-106 | Pair `i` pushes its two values and compares the two columns with their positions |
| PairClauses.ClauseIsMembership | src/db/helpers.ts:99-103 | With `startIndex - 1` parameters in front, the clause holds of a row exactly when its two columns form one of the pairs |

## Where the code and its documentation differ

* README.md:228 says that a block failing halfway can be processed again because the cursor moves
  last. `isAlreadyProcessed` looks only at the block row, stored first, and at the cursor, which a
  higher block may have moved before: `Retries` states exactly when the promise holds.
* `maxReorgDepth` bounds the steps of the search, not the blocks: it probes `maxReorgDepth + 1`.
* The search for an ancestor answers 0, without any agreeing block, only when it starts below
  `maxReorgDepth`.
* Block 0 is always rejected, because a zero number counts as missing
  (src/pipeline/steps/fetchBlockHeader.ts:17).
* src/pipeline/steps/validateX402Candidate.ts:18 calls the facilitator filter optional; in hard
  mode it is required.
* src/pipeline/steps/aggregate.ts:43-44 leaves revenue and services to a nightly batch; the code
  recomputes both with every block.
* The evidence upsert keeps the old block number on a conflict, so the evidence and the payment of
  a transaction that moves to another height without a recovery disagree
  (`Integrity.MovedTransactionSplits`), a recovery between the two heights cannot delete the evidence
  (`Integrity.DescendingTransactionSticks`), and the payment's timestamp depends on the order in
  which blocks are backfilled (`OrderMatters.OrderShows`).
* src/pipeline/steps/dailyStats.ts:81-82 says that recomputing keeps the daily rows consistent
  through reorgs, repeats and new prices. For the payment columns this fails when a payment moves to
  another day (`StaleDay.PaymentLeavesItsDay`), and for revenue when an address earns before it
  becomes an agent (`LateAgent.EarningsNeverWritten`); `StatsRuns` and `RevenueStats` state exactly
  when it holds.

## Left out

- Retries.RetryCompletesIff: a throw is placed between the stages of the pipeline (after raw rows, evidence, domain rows, USD values, daily rows), not between the single upserts of one stage.
- Retries.RetryCompletes: needs the stored evidence to sit on stored block rows, which is the foreign key of that table and holds in every run (`Integrity.RunKeepsStored`), and lookups that succeed on the retry.
- Runs.RunKeeps: in a run the sections that throw are those that meet a missing block, a failed ancestor search, a failed transaction lookup or evidence that may not be deleted; throws in later stages are the subject of `Retries` alone.
- BackfillWorkers.BackfillWorker.ProcessJob: needs a positive chunk size, as the configuration schema demands; the lock does not change hands while the method runs, and `CompletedJobLosesNothing` covers jobs for which it does.
- BackfillOrder.LoopOrderIrrelevantIff: does not compare the daily rows; their revenue depends on the order even from an empty start (`LateAgent.EarningsNeverWritten`).
- IndexedBlocks.AcceptIsIndexed: needs distinct log indexes within a transaction, which every chain has (`AcceptKeys` does without), and the foreign key of the evidence table, which every run keeps (`Integrity.RunKeepsStored`); the daily rows of the block are the subject of `StatsRuns`, `GasStats`, `RevenueStats` and `DailyFigures`.
- ForkChecks.ForkIsRecovered: leaves the daily rows after a recovery to `StatsRuns.RecoverKeepsExact`, `GasStats` and `RevenueStats`.
- PairClauses.BuildPairClause: builds the list of conjunctions instead of their text.
- Convergence.ReorgConverges: compares blocks, evidence, payments, interactions and cursor; raw transactions, agents and services of the abandoned chain are not compared, as the code keeps them.
- ConvergedStats.StatsConverge: does not compare revenue: an address that became an agent in an abandoned block stays one and gets revenue rows it would not have had without the fork; `StandingFixesRevenue` says when revenue agrees.
- StatsRuns.RunKeepsStatsExactIff: speaks of the payment columns; gas and revenue are the subject of `GasStats` and `RevenueStats`.
- GasStats.AcceptKeepsGas: gives a sufficient condition only; amounts of gas that happen to add up alike would leave a row right by chance.
- Integrity.RunKeepsOnCanonicalIff: speaks of heights; which block a row belongs to is the subject of `Standings`.
- Domain.StoreRaw: leaves out the `logs` rows.
- Aggregates.UpdateAggregates: leaves out the lookup of function signatures.
- The `logs` table: raw rows that no later step reads.
- Surrogate ids: `payments.evidence_id` is represented by the transaction and log index both rows share.
- The `__cursor__` row, `updated_at`, `error_message` and the status 'failed' of a job: no step decides on them.
- Foreign keys and the uniqueness of `blocks.hash` as sources of errors, but for the reference of payments to evidence: the database accepts every other upsert and delete.
- BullMQ (job ids, retries, backoff, progress), the HTTP API, the web dashboard and its queries: transport and read-only views.
- Waiting for finality, the subscription to new blocks, starting and stopping the workers: they decide when a head enters the queue, and the model takes any queue.
- The Redis cache and the lookup of function signatures: neither feeds back into the tables modelled.
- Decoding of the authorization calldata: a boolean of each log says whether payer, payee and value agree.
- Letter case of addresses and selectors: one normal form is assumed.
- Rounding of numeric columns and of floating-point arithmetic: amounts are exact reals.
- Errors of the node other than an unknown block, logs marked as removed, and pending blocks without a hash: a view holds well-formed blocks only.
- Changes of the registry, the settings, contract code or prices during a run: `Config` is fixed.
- Seeding of the address registry: it runs before the workers start.
