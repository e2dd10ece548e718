# Dashscan: the ledger index, verified

Dashscan indexes the Dash blockchain into Postgres and serves it through a REST API. This
project models the parts where a fast form stands in for a simple one, and proves that the two
agree:

* **The index.** `write_batch` (confirmed blocks) and `index_pending_transaction` (mempool)
  change transactions, outputs with their recorded spenders, inputs, the live UTXO table, six
  incrementally kept rollups and the per-address history. `Storage.Database` holds these tables
  in its fields; `BlockWriter` runs the phases over them with loops, maps and the `UtxoCache`.
  `Ledger.Mine` and `Ledger.See` say what one call makes of the tables, without any cache, and
  the `Ledger…` modules prove what every run of such calls keeps.
* **The read side.** Keyset pagination over a k-way merge (`XpubHistory`), the BIP 44 gap-limit
  scan over a partial cache (`XpubScan`), and the hour, day and week windows that stitch rollups
  to live data (`StatsWindow`, `ActivityWindow`, `BalanceSeries`, on the laws of `TimeWindows`),
  and vote bucketing (`VoteSeries`). `LedgerHours`, `LedgerListing`, `LedgerPending`, `LedgerPaging`,
  `StoredTruth`, `LiveRows` and `LiveAnswers` tie what these read to the tables that the indexer's
  runs leave.
* **Concurrent producers.** The catch-up pipeline as a step system (`CatchUp`, `BlockStream`),
  tied to the index by `CatchUpLedger`, and the breadth-first peer crawl (`Crawler`).
* **Scripts and rollback.** The push parser and bare-multisig recogniser (`Script`) and the
  rollup reversal of `delete_block_at_height` (`Rollback`, over runs in `RollbackRuns`, and what
  it leaves behind in `RollbackLeaves`).

`Prelude` and `Rollups` hold what the modules share; `LedgerFacts`, `LedgerInvariants`,
`LedgerMine`, `LedgerSee`, `LedgerOrder`, `LedgerDeltas`, `LedgerBatches`, `LedgerTotals`,
`LedgerBalance` and `LedgerSums` build up to the theorems below. Run `dafny verify dfyconfig.toml`.

## How the parts are modelled

* **Tables** are maps, SQL statements are operations on maps, and a run is a sequence of
  mempool and batch events from the empty index. Transaction ids are real integers drawn from a
  serial counter that also advances on conflicting rows; an address stands for its own id.
* **Six rollups, one map.** Totals per address, balance deltas and activity per day, activity
  per week, hourly statistics and type counts are one map keyed by table and row, so that the
  laws of adding are proved once.
* **The chain** is a ghost sequence of mined transactions. `ValidRun` asks of it: transaction
  ids name their contents, no transaction is mined twice, parents are mined no later than
  children, and no outpoint is spent twice by mined transactions. Mempool transactions are
  arbitrary: they may conflict, arrive before their parents, or be known already.
* **The RPC fallback** is a function from hashes to transactions carried by the event.
* **Windows** are stated over blocks in height order, with the millisecond and second grids of
  the two sides, and for all block times; non-decreasing ones are what makes the strays nothing.

## What turned out false of the code

Each of these has a lemma with a concrete input, or an exact condition, beside the theorem.

* Batches of blocks without any transaction write their header rows but add nothing to the
  hourly rollup (`write_batch` returns at its line 142), so a cut that sets such blocks apart is
  visible: `LedgerBatching.CutInvisibleIff`. With a coinbase in every block no cut is.
* The merger drains stream B after stream A has failed, so heights can be committed above a gap,
  although the comment on `stream_blocks` says its ordering prevents gaps:
  `CatchUp.ContiguousIff`, `CatchUp.GapAfterFailure`.
* The balance series splits its sums at `timestamp < start` and `timestamp > date_from`, so
  what moved in a block at exactly `start` is in no point, and what moved in a block of the window's
  heights with a time before its first day is in every point twice:
  `BalanceSeries.GetBalanceSeries` says exactly when that shows, `BalanceSeries.LostAtStart` and
  `BalanceSeries.BackwardsCountedTwice` give a chain each.
* Block times that go back make the hourly statistics count a block twice:
  `StatsWindow.ExactIff`, `StatsWindow.BackwardsCountsTwice`.
* A vote at the instant of a window without length makes the vote series fail, because its
  bucket index is 0 / 0: `VoteSeries.Requested`, `VoteSeries.VoteAtEmptyWindow`.
* A running vote series does not end at the all-time tally, as the comment in its code says,
  when rounding the step up to whole seconds leaves a tail: `VoteSeries.EndsAtTallyIff`.
* A batch that mines a parent after its child was mined can hand a spent output back to the
  UTXO table: `LedgerOrder.OutOfOrder`. No valid chain has that order; `LedgerMine.UtxoKeptIff`
  says exactly when it happens, for any batch at all.
* Input rows are written once, so a block whose transaction was seen pending without its
  parent's address may not be reversed completely: `RollbackLeaves.RestoredIff` says exactly when
  all six rollups are restored, `RollbackLeaves.LeftBehind` what each row is off by otherwise, and
  `RollbackLeaves.SilentRollback` gives a block that leaves both sent columns and a count too high.

## Model

| member | source | states |
|---|---|---|
| LedgerRuns.UtxoIsUnspent | indexer/src/processor/block_writer.rs:185-217 | In every state of every run over a valid chain with arbitrary mempool events, the UTXO table is exactly the indexed outputs without a recorded spender, with their address and value, although confirming a parent inserts again what a pending child already spent |
| LedgerRuns.RunKeeps | indexer/src/processor/block_writer.rs:93-658 | Every step of every run keeps the whole index invariant: ids, outputs, inputs, spenders, confirmed transactions and the UTXO table all fit the chain |
| LedgerMine.MineKeeps | indexer/src/processor/block_writer.rs:134-517 | A batch that extends the chain keeps the index invariant and the index then follows the longer chain |
| LedgerSee.SeeKeeps | indexer/src/processor/block_writer.rs:693-895 | Any mempool transaction, conflicting, orphaned or already known, keeps the index invariant and leaves the chain as it was |
| LedgerMine.UtxoKeptIff | indexer/src/processor/block_writer.rs:201-217 | For any batch on a consistent index, in any block order: the UTXO table stays the set of unspent outputs if and only if each output that is inserted again with an old spender is taken out by a still pending linked input or by the batch itself |
| LedgerOrder.OutOfOrder | indexer/src/processor/block_writer.rs:201-217 | On any consistent index: see a parent, mine its child alone, then mine the parent, and the UTXO table holds the output although its recorded spender is the mined child; a valid chain mines parents first, so none has this order |
| LedgerRuns.SpenderPrecedence | indexer/src/db/outputs.rs:111-189 | From any reachable state through any continuation: outputs stay, a confirmed spender never changes, and a pending one only gives way to a confirmed one |
| LedgerRuns.SpenderHasInput | indexer/src/processor/block_writer.rs:497-517 | Every spender a run records really is an indexed input that names the outpoint's transaction and output |
| LedgerFacts.LeastIsChosen | indexer/src/db/outputs.rs:167-183 | Of several staged spenders of an outpoint the one with the least transaction id is taken, the first staged among equals; none exactly if none was staged |
| LedgerRuns.RunDrawsIds | indexer/src/db/transactions.rs:24-112 | The serial counter advances by one for every transaction that a run is given, known or not |
| LedgerTotals.RunAccounted | indexer/src/processor/block_writer.rs:519-658 | In every state of every run under one RPC, every row of all six rollups equals its recomputation over the whole mined chain, inputs resolved as the chain itself defines them |
| LedgerBalance.CoinsConserved | indexer/src/processor/block_writer.rs:519-591 | Conservation: after a run that indexed a chain from its first block, with nothing pending and a truthful RPC, each address's UTXO total is its received less its sent |
| LedgerBalance.UtxoIsChainCoins | indexer/src/processor/block_writer.rs:497-513 | With nothing pending, the UTXO table is what folding the chain, one transaction at a time, leaves |
| LedgerSums.TotalsAreDaySums | indexer/src/db/address_stats.rs:51-119 | In every run, an address's received, sent and transaction count are the sums of its daily rows over any stretch of days that covers the chain |
| LedgerSums.WeeksAreDaySums | indexer/src/db/address_activity.rs:50-73 | In every run, a weekly activity row is the sum of its seven daily rows |
| LedgerHours.RunFlags | indexer/src/utils/transaction.rs:16-29 | In every run the coinjoin flag of a stored transaction, pending or mined, is set if and only if it has 4 to 19 outputs, as many inputs, and one of the five denominations on every output; type and multisig are its own; with two different output values, with 3 or with 20 outputs it is not set |
| LedgerHours.RunHourCounts | indexer/src/processor/block_writer.rs:593-646 | In every run each column of an hourly row is a plain count over the chain: the blocks of the hour and their sizes, its transactions, the special, the mixing, the multisig ones and those that are neither |
| LedgerHours.RunTypeCounts | indexer/src/processor/block_writer.rs:627-658 | In every run a type row counts the mined transactions with that type and those flags |
| LedgerHours.RunPlainHour | indexer/src/processor/block_writer.rs:627-646 | Where no mined transaction of an hour can mix, its coinjoin column is 0 |
| LedgerListing.RunListsChain | indexer/src/processor/block_writer.rs:519-565 | In every run, address_transactions has a row for an address and an id if and only if a mined transaction with that id touches the address, at the height it was mined |
| LedgerDeltas.MinedRollupsAreDelta | indexer/src/processor/block_writer.rs:148-171 | All rollup writes of a batch, upserts and updates of existing rows alike, amount to adding one delta to the stored rows; in particular no update misses its row |
| LedgerBatches.MineSplits | indexer/src/processor/catch_up.rs:192-226 | Batch-size independence: two runs of blocks written as one batch or as two leave the same tables, ids included |
| LedgerBatching.AnyBatching | indexer/src/processor/catch_up.rs:192-226 | However blocks with a coinbase each are cut into batches, the tables are those of one batch |
| LedgerBatching.CutInvisibleIff | indexer/src/processor/block_writer.rs:134-144 | A cut is invisible if and only if it does not set blocks without transactions apart from blocks with some |
| LedgerBatching.HeadersLost | indexer/src/processor/block_writer.rs:142-144 | Blocks without transactions written in a batch of their own are never counted in the hourly rollup |
| UtxoCaching.CacheIsBoundedMap | indexer/src/processor/utxo_cache.rs:40-79 | Over any call sequence and capacity, every insertion with a list of its own, a lookup hits exactly when a plain bounded map from outpoints to values does, with the right id and the value last inserted, and the cap is never exceeded |
| UtxoCaching.CallsConsistent | indexer/src/processor/utxo_cache.rs:40-79 | Over any such call sequence each refcount is the number of that transaction's live entries, every entry is reachable by a hash, and the cap holds |
| UtxoCaching.ShorterListLoses | indexer/src/processor/utxo_cache.rs:40-79 | Why a transaction inserted again has to come with its earlier outputs: with another one only, spending that one makes the cache lose the first |
| UtxoCaching.UtxoCache.Insert | indexer/src/processor/utxo_cache.rs:40-52 | The in-place insert is the specified step, skipping empty lists and anything over the cap |
| UtxoCaching.UtxoCache.Lookup | indexer/src/processor/utxo_cache.rs:55-59 | A hit returns the id, address and value stored under the hash's id, and nothing changes |
| UtxoCaching.UtxoCache.MarkSpent | indexer/src/processor/utxo_cache.rs:63-79 | The in-place release is the specified step: the entry goes, the refcount falls, the hash goes with the last entry |
| InputResolution.FoundIsLookup | indexer/src/processor/block_writer.rs:378-460 | After in-batch index, cache, join and RPC, what is found for an input is the direct lookup's answer, and the RPC gave the address exactly when no stored output has one |
| InputResolution.ResolveInputs | indexer/src/processor/block_writer.rs:246-483 | Phase 6 as it runs: whatever the cache holds, every input of the batch gets the direct lookup's id, address and amount, only RPC addresses are upserted, and the cache still agrees with the index |
| InputResolution.ResolveInBatch | indexer/src/processor/block_writer.rs:275-294 | Phase 6a finds only what the tables hold and leaves every hash with something unresolved in the miss set |
| InputResolution.ResolveCached | indexer/src/processor/block_writer.rs:296-323 | The cache pass adds only what the tables hold and drops a hash from the miss set only when all of it is resolved |
| InputResolution.ResolveStored | indexer/src/processor/block_writer.rs:325-376 | After the join, an address is found for an outpoint exactly when its stored output has one, an amount exactly when it is stored |
| InputResolution.ResolveFetched | indexer/src/processor/block_writer.rs:378-460 | Phase 6c completes the answers to the direct lookup's and upserts exactly the addresses the RPC answered, in whatever order answers come |
| InputResolution.FillIndex | indexer/src/processor/block_writer.rs:219-244 | The in-batch index holds the outputs of the batch and no others, under their stored addresses and values, and the cache is given each transaction's addressed outputs in block order |
| InputResolution.ForCacheIs | indexer/src/processor/block_writer.rs:219-244 | What the cache is given of a transaction is each of its outputs that has an address, under its own index, and nothing else |
| InputResolution.ReleaseSpent | indexer/src/processor/block_writer.rs:462-468 | Afterwards the cache answers for no outpoint that the batch spends, answers nothing it did not before, and still agrees with the index |
| BlockWriter.WriteBatch | indexer/src/processor/block_writer.rs:93-658 | The whole imperative batch, for a cache of any capacity and any contents that agree with the index, leaves exactly the tables of the cache-free specification and a cache that agrees with them |
| BlockWriter.StoreOutputs | indexer/src/processor/block_writer.rs:148-217 | Phases 4 to 5b: the addresses are known, the outputs are inserted if absent, the coins are inserted and what the mempool already spends is taken out |
| BlockWriter.WriteInputs | indexer/src/processor/block_writer.rs:485-517 | Phases 7 and 7b: the resolved inputs are inserted if absent, the spent coins deleted and the spenders recorded |
| BlockWriter.WalkBatch | indexer/src/processor/block_writer.rs:519-565 | The per-address walk accumulates exactly the batch's delta per total, day and activity row, and the history rows, an address counted once per transaction |
| BlockWriter.HourlyBatch | indexer/src/processor/block_writer.rs:593-646 | The hourly and type buckets accumulate exactly the blocks' statistics; what those count is `LedgerHours.RunHourCounts` |
| BlockWriter.IndexPending | indexer/src/processor/block_writer.rs:693-895 | The imperative mempool step is the specification's, and answers whether the transaction was new |
| IndexRuns.IndexAll | indexer/src/processor/block_writer.rs:70-81 | The cache is invisible: from an empty index and an empty cache, any run of batches and mempool transactions ends in the tables of the cache-free run, for every capacity, 0 as in live sync included |
| BatchStaging.CollectAddresses | indexer/src/processor/block_writer.rs:148-178 | Phase 4's maps: every output address of the batch once, and per output its address |
| BatchStaging.StageOutputs | indexer/src/processor/block_writer.rs:180-199 | The staged output rows are the batch's, unspent, and the staged coins are the same outputs |
| Storage.Database.InsertTransactionsBatch | indexer/src/db/transactions.rs:53-112 | New rows take fresh ids, known ones keep their id and get the height only if they had none; the returned map has every id of the batch |
| Storage.Database.MarkOutputsSpentBatch | indexer/src/db/outputs.rs:111-189 | Of several staged spenders of an outpoint the least id is taken; a confirmed batch overrides, a pending one only fills an empty mark |
| XpubHistory.TopOfTops | api/src/dao/TransactionsDAO.ts:519-556 | The newest n of a union of address histories are the newest n of the union of each address's newest n |
| XpubHistory.PageIs | api/src/dao/TransactionsDAO.ts:497-636 | A page is the next `limit` rows of the merged history after the cursor, pending rows in front on the first page only, with a cursor at its last row exactly when more remain |
| LedgerPending.RunPending | api/src/dao/TransactionsDAO.ts:57-77 | In every run the first page shows above the tip exactly the transactions that some event saw, that no batch mined, and that pay one of the addresses or have an input stored as one's; if its inputs were sourced, an input that spends an output of one of them. Heights descend, and ids within a height and among the pending |
| LedgerPaging.RunRefuses | api/src/dao/TransactionsDAO.ts:506-517 | In every run a cursor is refused if and only if it names no mined transaction, so a pending one is refused like an unknown one |
| LedgerPaging.PagingIsStable | api/src/dao/TransactionsDAO.ts:497-636 | Paging while the indexer goes on: as long as batches confirm above the cursor's height, its page, next cursor included, and everything that follows stay what they were |
| XpubHistory.FollowIsHistory | api/src/dao/TransactionsDAO.ts:519-635 | For every limit of at least 1, following `nextCursor` from the first page ends and returns every confirmed transaction of the addresses exactly once, in strictly descending (height, id) order |
| LedgerListing.RunPagesAreHistory | api/src/dao/TransactionsDAO.ts:519-635 | In every run and for every page size, the pages list exactly the mined transactions that touch the addresses, as the chain itself defines touching, each once, newest first, by height and then id |
| XpubScan.ScanEndsAtGap | api/src/services/XpubService.ts:216-221 | The naive scan covers the shortest prefix that ends in `gapLimit` unused addresses, or the cap ("Address gap limit" section of BIP 44) |
| XpubScan.NextUnused | api/src/services/XpubService.ts:247-256 | The next unused index is the least unused one, and is missing only when all addresses up to the cap are used |
| XpubScan.ScanIs | api/src/services/XpubService.ts:225-268 | A branch's scan: row i is address i of the branch with the id that the index has for it; one id per used address, the id of address i after as many as there are used addresses before it; the least unused index |
| XpubScan.ListedIffRow | api/src/services/XpubService.ts:249-268 | An id is among the scan's ids if and only if some row has it |
| XpubScan.ScanBranch | api/src/services/XpubService.ts:182-268 | For every gap limit and every consistent cache entry, or none, the lazy cached scan returns exactly the naive one, whose rows, ids and next index are those of `XpubScan.ScanIs`, and leaves a consistent entry that covers it, every other entry untouched |
| XpubScan.Walk | api/src/services/XpubService.ts:191-239 | The walk stops where the naive scan stops, knows every used address it passed, and only ever extends what was derived and known |
| XpubScan.ConfirmUpTo | api/src/services/XpubService.ts:200-214 | Batched confirmation makes used-ness known up to the index, or to the end of what is derived |
| XpubScan.ConsistentLater | api/src/services/XpubService.ts:178-181 | Caching used-ness is safe while the index only gains addresses |
| XpubScan.StoreLater | api/src/services/XpubService.ts:178-181 | The store stays consistent while entries expire and the index gains addresses |
| XpubScan.ScanWallet | api/src/services/XpubService.ts:156-176 | Both branches, each on its own cache entry: the rows and ids of the receive branch before those of the change branch, and the least unused index of each |
| TimeWindows.BucketsSum | api/src/dao/TransactionsDAO.ts:755-767 | A rollup with one sum per bucket, summed over a stretch of buckets, is the direct sum over the stretch |
| TimeWindows.LiveIs | api/src/dao/TransactionsDAO.ts:769-790 | For any block times, counting by the height range of a time slice gives the slice's own items and those the range catches from outside |
| TimeWindows.LiveIsExact | api/src/dao/TransactionsDAO.ts:769-790 | With non-decreasing block times a live slice counts exactly its own items |
| TimeWindows.SlicesTile | api/src/dao/TransactionsDAO.ts:729-743 | Slices and a rollup part that together hold each instant of a window once add up to the window, and the strays |
| StatsWindow.EachInstantOnce | api/src/dao/TransactionsDAO.ts:723-743 | Whole hours and live slices hold every instant of the window exactly once and none outside; the closing instant is left out exactly when it is on an hour and the whole hour before it is in the window |
| StatsWindow.GetTransactionStats | api/src/dao/TransactionsDAO.ts:723-794 | In every column and for any block times, the stitched count is the direct one over the window and the strays of the live slices |
| LiveRows.RunKindRows | api/src/dao/TransactionsDAO.ts:769-790 | In every run, counting the rows of the transactions table of a kind over any heights counts the mined transactions of that kind there |
| LiveAnswers.RunStats | api/src/dao/TransactionsDAO.ts:723-794 | From the tables of a run under one RPC that knows the pending parents, whole hours of the rollup and counted rows for the rest: the statistics are what was mined in the window, and the strays, for any block times |
| StatsWindow.ExactIff | api/src/dao/TransactionsDAO.ts:769-790 | The counts are exact in all columns if and only if no block with transactions is caught by a live slice's heights from outside its times |
| StatsWindow.MonotoneIsExact | api/src/dao/TransactionsDAO.ts:769-790 | Non-decreasing block times leave no strays |
| StatsWindow.BackwardsCountsTwice | api/src/dao/TransactionsDAO.ts:723-794 | Three blocks whose times go back, each with a transaction: the only one of its kind, in the middle block, is reported as two |
| StatsWindow.RunAgreesHourly | indexer/src/processor/block_writer.rs:593-658 | In every run the hourly rows hold what the mined blocks hold, so the theorems above apply to the indexer's own tables |
| ActivityWindow.EachInstantOnce | api/src/dao/AddressesDAO.ts:452-491 | For any start and end, live, daily and weekly windows hold every instant of the interval exactly once, under the same rule for a midnight `end` |
| ActivityWindow.DailyTiles | api/src/dao/AddressesDAO.ts:459-490 | The daily windows are the whole days that the weekly part leaves |
| ActivityWindow.ReportedCount | api/src/dao/AddressesDAO.ts:440-558 | The reported count is the true one, and the strays, less what the thresholds drop; with non-decreasing block times at most the true one, short by at most 2 per daily and 10 per weekly bucket, and the true one in any window of at most 259200000 ms and whenever no whole day or week of the window falls under its threshold |
| ActivityWindow.CountedIs | api/src/dao/AddressesDAO.ts:452-557 | Which transactions are counted, for any block times: those of the window whose whole week, if that is inside a window over 8 days, has more than 10, and otherwise whose whole day, if that is inside a window over 3 days, has more than 2; and the strays |
| ActivityWindow.FewAddNothing | api/src/dao/AddressesDAO.ts:540-557 | A whole day with at most 2 and a whole week with at most 10 of them add nothing |
| LiveRows.RunTouchedRows | api/src/dao/AddressesDAO.ts:494-527 | In every run, the transactions at any heights that have an output or input row of the address are as many as the mined ones there for which such a row is stored; in a sourced run, one whose mined transactions were stored with a truthful RPC that answered for the parents the index did not have, and answers for those the chain does not hold, these are the mined ones that touch it |
| LiveAnswers.RunActivity | api/src/dao/AddressesDAO.ts:440-558 | From the tables of a run under one RPC that knows the pending parents, for any block times: the address's count is the window's touching transactions, and the strays, less what the thresholds drop, and what the live slices' stored rows have too much, which is nothing in a sourced run; there, with non-decreasing times, it counts exactly the transactions of `ActivityWindow.CountedIs`, so it is short by at most 2 per daily and 10 per weekly bucket, and exact in windows of at most three days |
| ActivityWindow.RunAgreesActivity | indexer/src/db/address_activity.rs:15-77 | In every run the daily and weekly rows hold the confirmed transactions that touch the address |
| BalanceSeries.GetBalanceSeries | api/src/dao/AddressesDAO.ts:176-275 | For any block times, every point is the balance at its bucket's end, less what moved in blocks at exactly `start`, and once more what moved in blocks of the window's heights that are before its first day; so a point is the true balance if and only if these two are equal, and non-decreasing times make the second nothing |
| LiveRows.RunNetRows | api/src/dao/AddressesDAO.ts:200-250 | In every run with one block per height, the address's listed rows over a height range and any block times, joined with stored outputs and inputs, sum to what the stored rows of the transactions mined there move |
| LiveRows.RunSourcedFlows | api/src/dao/AddressesDAO.ts:200-250 | In a sourced run under one RPC these are, transaction by transaction, the chain's own flows to and from the address |
| LiveAnswers.RunBalance | api/src/dao/AddressesDAO.ts:176-275 | From the tables of a run under one RPC that knows the pending parents, with one block per height and any block times, day rollup, first partial day and buckets of stored rows: at each bucket's end the chain's own balance, off by the one amount of `BalanceSeries.GetBalanceSeries` and by what the window's stored rows have too much, which is nothing in a sourced run |
| LiveAnswers.RunRange | api/src/dao/AddressesDAO.ts:501-513 | In every run with one block per height, the lowest and highest height that the blocks table has for a time slice are those of the blocks written |
| BalanceSeries.LostAtStart | api/src/dao/AddressesDAO.ts:232-250 | A chain of one block at the opening instant: every point of the series is 0 although the address holds its coins |
| BalanceSeries.BackwardsCountedTwice | api/src/dao/AddressesDAO.ts:176-275 | Three blocks of which the middle one is timed the day before the window: every point is twice what the address holds |
| BalanceSeries.RunAgreesDaily | indexer/src/db/address_stats.rs:69-119 | In every run the daily deltas hold, per day, what the address received less what it sent |
| VoteSeries.Sort | api/src/dao/GovernanceDAO.ts:234-265 | The loop over IEEE quotients: each funding vote lands in the one bucket with from < time <= to, in the baseline if not after `start`, or nowhere if after the last bucket; each column sums the weights of its own outcome; an index that is no number is looked up among the buckets and fails |
| VoteSeries.Series | api/src/dao/GovernanceDAO.ts:201-282 | For every step, zero and negative included: it fails if and only if the step is zero and a counted vote is at exactly `start`; otherwise each point holds its bucket's weighted votes, or with running totals all votes up to the bucket's end |
| VoteSeries.Requested | api/src/controllers/GovernanceController.ts:52-69 | The request for a number of intervals is refused for a reversed window, and fails if and only if the window has no length and a counted vote was cast at its instant |
| VoteSeries.EndsAtTallyIff | api/src/dao/GovernanceDAO.ts:227-229 | A running series ends at the tally of all votes up to `end`, whatever the votes, if and only if the step divides the window |
| VoteSeries.IndexIs | api/src/dao/GovernanceDAO.ts:242-243 | The rounded-up quotient less one is the index of the bucket that holds the vote's time |
| VoteSeries.VoteAtEmptyWindow | api/src/dao/GovernanceDAO.ts:243-262 | For every counted vote, asking for the window that is its instant fails |
| Script.ParseEncoded | indexer/src/utils/script.rs:77-103 | Every well-formed script is read back from its bytes, whichever encodings its pushes use |
| Script.EncodedParse | indexer/src/utils/script.rs:77-103 | A byte string parses only as a script it is the encoding of |
| Script.ParsesIff | indexer/src/utils/script.rs:81-101 | A byte string is refused exactly when no script encodes to it, that is when it is cut short |
| Script.LastDataPush | indexer/src/utils/script.rs:72-106 | The loop returns the last push of the parsed script, nothing when there is none or the bytes are cut short |
| Script.LastPushIs | indexer/src/utils/script.rs:97-102 | The last push is the one that only operators follow; there is none if and only if all elements are operators |
| Script.RedeemScript | indexer/src/utils/script.rs:20-22 | Any pushes followed by a push of r, in any of the four encodings, give back r ("Specification" section of BIP 16) |
| Script.CheckBare | indexer/src/utils/script.rs:27-66 | True exactly for OP_m, n pushes of 33 or 65 bytes, OP_n, OP_CHECKMULTISIG with 1 <= m <= n <= 16 ("Specification" section of BIP 11) |
| Script.IsMultisig | indexer/src/utils/script.rs:26-70 | True exactly for such a script, or one whose last push is such a script |
| CatchUp.RunKeeps | indexer/src/processor/catch_up.rs:122-226 | In every interleaving of streams, merger and consumer, what is written, taken and queued is, in order, exactly what the streams sent |
| CatchUp.WrittenAscends | indexer/src/processor/catch_up.rs:192-226 | At every moment, even if streams or the database fail, the heights written ascend strictly, each at most once, within the missing range; that a failing stream has sent an exact prefix is `BlockStream.StreamBlocks` |
| CatchUp.GuardAscends | indexer/src/processor/catch_up.rs:192-226 | Whatever heights arrive, in any order and any number of times: the consumer takes exactly those that are missing and above every arrival before them, strictly ascending, and at every moment has written a prefix of these, after the last flush all |
| CatchUp.RunWithinRoom | indexer/src/processor/catch_up.rs:122-226 | At every moment of every run each committed batch has exactly the batch size, the last one of a finished consumer at most that and at least one block; fewer than a batch wait, and no channel holds more than its room |
| CatchUp.FinishedWrote | indexer/src/processor/catch_up.rs:192-226 | When the consumer has finished, what was written is exactly what was sent |
| CatchUp.CompleteIff | indexer/src/processor/catch_up.rs:74-226 | A finished catch-up wrote exactly the missing heights if and only if both streams sent everything, so whenever neither failed |
| CatchUp.ContiguousIff | indexer/src/processor/catch_up.rs:145-156 | What a finished catch-up wrote has no gap if and only if A sent everything or B nothing |
| CatchUp.GapAfterFailure | indexer/src/processor/catch_up.rs:145-156 | A run in which A fails at once and a block of B is committed above the gap |
| CatchUp.SomeStep | indexer/src/processor/catch_up.rs:122-226 | No deadlock: until the consumer is done some step other than a failure is possible, for all channel sizes |
| CatchUp.EveryStepCounts | indexer/src/processor/catch_up.rs:145-226 | Every step of any thread leaves strictly less to do |
| CatchUp.RunsAreBounded | indexer/src/processor/catch_up.rs:145-226 | No run is longer than the work at its start, so every interleaving ends |
| CatchUpLedger.CatchUpIndexesChain | indexer/src/processor/catch_up.rs:192-226 | A finished catch-up without a failed stream leaves the tables that one batch of exactly the missing blocks would leave |
| BlockStream.SyncHeaders | indexer/src/p2p.rs:265-322 | The hashes are the start hash and the peer's headers, cut to the range; with a peer that keeps answering it succeeds |
| BlockStream.Receive | indexer/src/p2p.rs:227-247 | Collects as many blocks as asked for, in order of arrival; it fails if and only if a not-found answer or the end of the connection comes before that many blocks |
| BlockStream.SortByHeight | indexer/src/p2p.rs:249-250 | The heights come out ascending, as the same multiset |
| BlockStream.SendChunk | indexer/src/p2p.rs:213-257 | One request, of any peer: it succeeds if and only if enough blocks come before a refusal; what is handed on is the heights of the first that many arrivals, sorted; from a peer that sends none twice and none it was not asked for, exactly the stretch of the range |
| BlockStream.HeightIs | indexer/src/p2p.rs:208-235 | A block of the range counts at its own height, one that was not asked for at the first of the range |
| BlockStream.StreamBlocks | indexer/src/p2p.rs:198-260 | With a peer that sends no block twice and none it was not asked for, wherever it fails or the receiver is dropped, what was sent is an exact prefix of the range, in order; when it fails, the blocks of every request before the first that was not fully answered have been sent, and with a peer that answers every request nothing fails |
| Crawler.CrawlRound | indexer/src/crawler.rs:114-204 | Whatever order visits complete in, with or without cap, deadline and panics: no address is visited twice; stored is exactly what was heard of up to the cap, at most max(1, `max_peers`) addresses, all in the least set with the seed closed under gossip; available exactly those visited without panic and alive, with the time they were first heard of with, the others with the last; without cap, deadline or panic it is that whole set, every address probed |
| Crawler.TopUp | indexer/src/crawler.rs:135-144 | Topping up starts the front of the queue, in its order, and nothing else; it never exceeds the concurrency and stops below it only for an empty queue, the deadline or the cap |
| Crawler.Complete | indexer/src/crawler.rs:158-188 | One completed visit stores its result and queues only new addresses, keeping the round's invariant; a panicked one leaves nothing |
| Rollback.ReverseRollups | indexer/src/db/blocks.rs:48-168 | The six in-place updates subtract from each existing row what the subqueries over the stored rows of the height give |
| Rollback.ShareIsAddition | indexer/src/db/blocks.rs:48-168 | Each subquery over the stored rows of the tip gives exactly what `write_batch` added to that row |
| Rollback.RollbackRestores | indexer/src/db/blocks.rs:48-168 | Writing the tip block and then reversing it restores every row of all six rollups, absent rows counting as zero, when the stored inputs carry the resolution used at write time |
| StoredTruth.RunRowsTrue | indexer/src/db/inputs.rs:25-155 | In every run, transactions that were first stored, pending or confirmed, with a truthful RPC that answers for parents the index does not have, keep input rows that carry the spent outputs' own addresses and amounts |
| RollbackRuns.RunRollback | indexer/src/db/blocks.rs:48-168 | After any run: index one more block, whose transactions may have been pending before, reverse it, and all rollups are as before, given that same condition on the RPC for those that were pending |
| RollbackLeaves.LeftBehind | indexer/src/db/blocks.rs:48-168 | For any tip block and every row of all six rollups: after writing and reversing it, the row is off by exactly what was resolved at write time less what the block's stored input rows say, in amount sent and in touching transactions, and every other column is restored |
| RollbackLeaves.RestoredIff | indexer/src/db/blocks.rs:48-168 | Writing any tip block and reversing it restores all six rollups if and only if, for every address with a row, the stored input rows spend the amount, and touch as many transactions, as was resolved at write time |
| RollbackLeaves.SilentRollback | indexer/src/db/blocks.rs:48-168 | After any run: a child seen while its parent is unknown and the RPC is silent, then mined with the parent and reversed, leaves the sent columns of the total and of the day too high by what the child spends, and the transaction count too high by one unless the child also pays the address |

## Left out

- Ledger: address and transaction columns `first_seen`, `last_seen`, sizes, versions, locks and
  amounts of the transaction row, miner names, superblocks, special payloads and masternode
  lists are not in the tables; block hashes are not either, so a header is only told by height.
- Ledger: `to_sat`, difficulty sums and other floating point are integers or absent.
- Ledger: 32 and 64 bit widths of ids and amounts are not modelled; the columns never wrap.
- BlockWriter.WriteBatch: a transaction id that appears twice in one batch is excluded, because
  Postgres then refuses the multi-row upsert and the batch is not written at all.
- Storage.Database: its plain inserts, deletes and upserts are covered by `BlockWriter.WriteBatch`
  and have no rows of their own; staging tables, COPY, chunks of statements and commits are not modelled; a
  batch is one atomic call, as its database transaction makes it.
- InputResolution.ResolveInputs: RPC errors are absent answers, and the same hash gets the same
  answer within one batch.
- LedgerTotals.RunAccounted: one RPC function answers throughout a run, and knows the parents
  that the run has seen but not mined, since the chain's own resolution asks it for those;
  batches without any transaction are empty ones, `LedgerBatching.CutInvisibleIff` says what
  others do.
- XpubHistory.FollowIsHistory: the other columns, confirmations, offset-paginated listings and
  type filters are left out.
- XpubScan.ScanBranch: elliptic-curve derivation is an uninterpreted function from index to
  address, and the index does not change during one scan; sharing of scans in flight, Redis and
  lifetimes are left out, except that an entry may be absent at any time.
- ActivityWindow.ReportedCount: is stated for one address at a time; the grouping, order and
  page of the outer query are left out.
- LiveAnswers.RunBalance: an index that kept two blocks of one height would have one row for both
  in the blocks table, so one block per height is asked; that a run is sourced is asked only
  for the difference to be nothing.
- BalanceSeries.GetBalanceSeries: `generate_series` is any ascending list of instants after
  `start` and up to `end`; the single-connection and empty-window cases need no case of their own.
- VoteSeries.Series: parsing of stored votes and the weight lookup are left out; a vote carries
  its weight, and times are whole milliseconds, so no quotient is rounded.
- BlockStream.StreamBlocks: transport, timeouts and pings are left out; of a peer that sends a
  block twice, or one that was not asked for, only the number of blocks sent is promised here, and
  the heights of each request by `BlockStream.SendChunk`.
- Crawler.CrawlRound: the atomic trigger and tick guard, the handshake of a visit, and the
  stored version, services and agent strings are left out.
- Rollback.ReverseRollups: the deletes after the six updates are left out. They do not restore
  the UTXO table, and the delete of transactions names a column `block_hash` that no migration
  creates.
- GeoIP, market data, search, masternode pages, routes and the frontend would only add easy
  members.
