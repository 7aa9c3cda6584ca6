# A verified model of the Symphony indexer

Symphony follows the Bitcoin chain and keeps derived tables in a versioned key-value store: live outputs, outputs by
script, transaction counts, and the runes protocol's balances and supplies. It must survive reorganisations, repeated
mempool snapshots and restarts. This project models that behaviour in Dafny 4.11 and proves what the tables mean.

The model has a reference side and an implementation side.

* **Reference.** `Ledger` says what the index of a chain of blocks is, one transaction at a time, over a UTXO map and
  the tables beside it: no buffer, cache, journal or store. `RunesSpec` holds the rune rules. `RunesProofs`, `Supply`
  and `LedgerProofs` prove conservation, the whole-chain supply equation and the agreement of the secondary indexes
  about it. `Positions` reads live outputs, listings and counts off the plain list of transactions, `Issuance` says what
  may be minted and etched, and `Edicts` what every output gets, without the functions of the reference.
* **Implementation.** Classes and loops follow the source: the task's write buffer and originals (`Task`), the handler
  and its batches (`Storage`), input resolution, the cache and the UTXO update (`Context`), the indexers (`Indexers`,
  `RunesIndexer`), the block and mempool loops (`BlockIndexer`, `Worker`), the rollback buffer and its reload
  (`Rollback`, `Reload`, `Undo`), and the stage (`Stage`, `Recovery`).
* **The bridge.** `Machine` is a small state machine (a chain, estimated blocks, how many blocks can be undone).
  `Stage.IndexStage.Execute` moves exactly as it does, and after every event the store shows `Ledger.Indexed` of the
  machine's chain; `Lifetime.Live` says so of whole lifetimes of events and restarts. `StageState`, `Commits` and `Core`
  hold the invariant; `Guarantees` restates it about the store alone.
* **Around it.** `MergeOps` (counter merges), `Timestamps` and `Comparator` (versions), `Bytes`, `Encoding`,
  `KeyCodes`, `ValueCodes` and `StoredKeys` (the codec and its scans), `Snapshots`, `BalanceQueries` and `Handlers` (what the server reads),
  `Locator` (the block locator).

`dafny verify dfyconfig.toml` checks everything.

## Premises

* Blocks that are accepted are well formed (`Ledger.ValidTx`): inputs are live or made earlier in the block, nothing is
  spent twice, transaction ids are fresh along the chain, only the first transaction may be a coinbase. Estimated blocks
  contain no coinbase. Events that the stage rejects may be anything (`Machine.Admissible`).
* The clock does not go back and a second sees at most 2^18 commits, up to any horizon that fits a timestamp
  (`Timestamps.GoodClock`). A restarted process reads the clock first in a later second than the last commit's
  (`Storage.StorageHandler.Later`); the first finding below says exactly what this excludes and what happens then.
* The parsed rune message keeps the parser's documented bounds (`Types.DecipherBounds`), and the names it reserves for
  nameless etchings name one position each (`RunesProofs.ReservedNames`).
* Eviction and the wipe on memory pressure may drop any cache entries at any time.

## Findings

* A restarted process does not look up the last timestamp. Its first commit is later than the last one exactly when
  the last one's second has passed (`Timestamps.RestartIncreases`, `Storage.StorageHandler.NextTimestamp`); within that
  second it repeats or undercuts it (`Timestamps.RestartSameSecond`), and then its writes lie under those of the last
  commit in every later read (`Storage.NextCommitRead`, `Storage.RestartLosesWrite`).
* A clock that steps back makes the next timestamp smaller (`Timestamps.ClockStepBack`, exactly when:
  `Timestamps.AfterIncreases`); the source only logs a warning.
* A merge after a buffered delete of the same key loses the delete (`Task.MergeAfterDelete`); `Task.BufferedExact` says
  exactly when a buffered operation is faithful. No indexer in the repository does this.
* Partial merges and pairwise combination change the result of some lists (`MergeOps.RegroupingCounterexample`).
  `MergeOps.PartialMergeExactly`, `MergeOps.RegroupingExactly` and `MergeOps.CombinedExactly` say of which.
* A rollback named by the mempool pseudo-point (height 2^64 - 1) while estimates are applied is found in the buffer,
  commits an empty batch, and leaves `last_processed` at that height with the estimates still in the store, a state that
  no chain explains. `Stage.IndexStage.RollbackToPoint`, `RollBack` and `Execute` state this effect, and that every other
  event keeps the stage sound.
* The journal keeps one point fewer than the in-memory buffer. After a rollback to the deepest buffered point and a
  mempool snapshot, a restart finds only the pseudo-point, and every admissible event panics from then on.
  `Machine.SomeRunGetsStuck` gives such a run for every rollback limit, `Recovery.StartsStuck` the exact snapshots,
  `Machine.StuckBy` the exact step, and `Machine.StuckOnlyBeyondDepth` shows that it needs a rollback past the guaranteed
  depth.
* For a prefix whose bytes are all 255 the comment in `prefix_key_range` promises a range without upper end; the empty
  end it returns makes a byte range that holds nothing (`Bytes.PrefixKeyRange`). No table has such a prefix
  (`KeyCodes.TablesNotMax`).

## Model

| member | source | states |
|---|---|---|
| Stage.IndexStage.Execute | src/sync/stages/index/worker/stage.rs:245-530 | Every event moves the stage exactly as the abstract machine, keeps the full invariant, and leaves the store showing the from-scratch index of the canonical chain and applied estimates, with or without a cache; outcome, chain and estimates are also given case by case; an applied block is buffered exactly when the stage was journaling or the block is within the limit of the network's tip; the invariant is lost exactly by a rollback that names the pseudo-point of applied estimates, whose effect is stated |
| Lifetime.Live | src/sync/stages/index/worker/stage.rs:245-530 | Over any admissible sequence of events and restarts the indexer ends where the machine does, and its store shows the from-scratch index |
| Lifetime.RestartStage | src/sync/stages/index/worker/stage.rs:65-146 | A process started over any surviving commits is sound and continues from the last of them; with all of them it keeps chain, estimates and journaled depth |
| Stage.IndexStage.RollForward | src/sync/stages/index/worker/stage.rs:247-380 | Estimates are undone first; an old height is skipped, a gap or a wrong parent panics, otherwise the chain grows by the block and the depth bookkeeping moves as specified |
| Stage.IndexStage.UndoEstimates | src/sync/stages/index/worker/stage.rs:248-252 | Applied estimates are removed, or the stage panics unchanged when nothing is buffered under them |
| Stage.IndexStage.Extend | src/sync/stages/index/worker/stage.rs:254-380 | The height and parent checks decide the outcome; an accepted block is indexed and committed, and can be rolled back to exactly when the stage was journaling or its height plus the limit exceeds the height of the network's tip |
| Stage.IndexStage.RollBack | src/sync/stages/index/worker/stage.rs:381-385 | A rollback succeeds exactly when its point is on the chain and still buffered, and then the chain is cut there, otherwise nothing changes; it loses soundness exactly when it names the pseudo-point of applied estimates |
| Stage.IndexStage.MempoolBlocks | src/sync/stages/index/worker/stage.rs:386-526 | Panics exactly when the tip is not buffered, unchanged; otherwise earlier estimates are gone, estimates for another tip are skipped, and estimates for the tip are applied, whether or not earlier ones were |
| Stage.IndexStage.RollbackToPoint | src/sync/stages/index/worker/stage.rs:148-200 | One batch cuts chain, buffer, journal and store back to the point, or nothing changes when the point is not buffered; at the pseudo-point of applied estimates an empty batch is committed, data and buffer stay, and no chain explains the state |
| Stage.IndexStage.CommitBlock | src/sync/stages/index/worker/stage.rs:281-356 | The new tip is indexed and committed; the buffer gains its point up to the size when journaling |
| Stage.IndexStage.CommitPending | src/sync/stages/index/worker/stage.rs:409-512 | Estimated blocks are indexed on the tip and committed under the pseudo-point |
| Stage.ApplyUndo | src/sync/stages/index/worker/stage.rs:151-190 | One commit writes the points' inverses, newest first, removes their journal entries and leaves the timestamps |
| Stage.ApplyBlockTask | src/sync/stages/index/worker/stage.rs:288-348 | The committed task shows the index of the longer chain, its originals are the pre-task values of the keys it wrote, and the cache stays coherent |
| Stage.ApplyPendingTask | src/sync/stages/index/worker/stage.rs:413-498 | The committed mempool task shows the index with the estimates, and adds nothing to the cache |
| Stage.Journaled | src/sync/stages/index/worker/stage.rs:281 | An applied block is in the buffer exactly when the stage was journaling already or the block is within the limit of the network's tip |
| Stage.Findable | src/sync/stages/index/rollback/buffer.rs:61-63 | A point is in the buffer exactly when the machine can undo to it, at the position its height dictates |
| Stage.PseudoFindable | src/sync/stages/index/worker/stage.rs:503-512 | At the greatest height only the pseudo-point of applied estimates is ever buffered |
| Stage.MisdirectedBreaks | src/sync/stages/index/worker/stage.rs:192-193 | Once last_processed is the pseudo-point, no chain, estimates or record explain the state |
| Stage.SoundIsDeep | src/sync/stages/index/rollback/buffer.rs:44-50 | Every sound state of the stage meets the machine's depth guarantee |
| Machine.RunOkFrom | src/sync/stages/index/worker/stage.rs:245-530 | Over any run of admissible events and restarts the chain stays valid and the depth guarantee holds |
| Machine.DepthGuarantee | src/sync/stages/index/rollback/buffer.rs:84-100 | After any run with any restarts, every block at or above both the first journaled height and the highest applied height less the limit can be rolled back to |
| Machine.StepPromised | src/sync/stages/index/worker/stage.rs:245-530 | For every event, when it is done, skipped or a panic, and the chain and estimates after it, said without the step functions |
| Machine.LastSnapshotCounts | src/sync/stages/index/worker/stage.rs:386-526 | Of two mempool snapshots in a row the second gives the outcome, chain and estimates that it alone would have given |
| Machine.JournalingStarts | src/sync/stages/index/worker/stage.rs:279-281 | An applied block can be rolled back to exactly when the process was journaling or the block is within the limit of the network's tip |
| Machine.DepthFromNear | src/sync/stages/index/worker/stage.rs:279-281 | After any run in which a block within the limit of the network's tip was applied, and no restart since, every chain height from that block's on and within the limit of the greatest height reached can be rolled back to |
| Machine.ForwardThenBack | src/sync/stages/index/worker/stage.rs:247-385 | Rolling back a block just applied restores chain and tip |
| Machine.EstimatesInvisible | src/sync/stages/index/worker/stage.rs:248-252 | Estimated blocks never change what an admissible confirmed event within the limit does to the chain |
| Machine.Stuck | src/sync/stages/index/worker/stage.rs:249-252 | Every admissible event panics without effect exactly when estimates are applied and nothing under them can be undone |
| Machine.StuckForever | src/sync/stages/index/worker/stage.rs:249-252 | Then neither admissible events nor restarts ever change the chain again |
| Machine.SomeRunGetsStuck | src/sync/stages/index/worker/stage.rs:148-200 | For every rollback limit a run of valid events and one restart gets there: fill the buffer, roll back to its deepest point, apply estimates, restart |
| Machine.StuckOnlyBeyondDepth | src/storage/kv_store.rs:518-526 | Being stuck needs a chain rolled back below the guaranteed depth |
| Machine.StuckBy | src/sync/stages/index/worker/stage.rs:222 | No event makes a running stage stuck; a restart does exactly when estimates are applied and nothing under them is journaled |
| Core.UndoCore | src/sync/stages/index/worker/stage.rs:148-200 | An undo commit keeps the whole invariant, for any buffered point |
| Core.BlockCoreOk | src/sync/stages/index/worker/stage.rs:338-356 | A block commit keeps the whole invariant, journaled or not |
| Core.PendingCoreOk | src/sync/stages/index/worker/stage.rs:477-512 | A mempool commit keeps the whole invariant |
| StageState.UndoBuffer | src/sync/stages/index/worker/stage.rs:164-183 | Exact undo: applying the originals of the newest points, newest first, gives exactly the data of the chain cut at the chosen point |
| StageState.BufferOrdered | src/sync/stages/index/rollback/buffer.rs:84-92 | Buffered confirmed points have contiguous heights ending at the tip, with at most one pseudo-point in front |
| StageState.PositionOf | src/sync/stages/index/rollback/buffer.rs:61-63 | Buffered heights are contiguous, so a height has one position, if any |
| StageState.RunSnoc | src/storage/kv_store.rs:529-555 | Every commit of a run leaves a store its record describes, and timestamp entries that name a commit of the right kind |
| StageState.CacheExtend | src/sync/stages/index/worker/context.rs:144-152 | What a block adds to the cache agrees with every state the chain went through, by freshness of transaction ids |
| Commits.UndoStore | src/sync/stages/index/worker/stage.rs:164-183 | An undo batch turns a store of one snapshot into a store of the cut snapshot: data, journal and depth |
| Commits.BlockStore | src/storage/kv_store.rs:503-527 | A journaled block with its collection leaves exactly the newest points within the limit in the journal |
| Commits.PlainStore | src/storage/kv_store.rs:484-491 | A block that is not journaled leaves an empty journal and the new index |
| Commits.PendingStore | src/storage/kv_store.rs:503-516 | A mempool commit puts the pseudo-point in front of the journal |
| Commits.CommitData | src/storage/kv_store.rs:474-491 | Committing a task stores what the task showed, and its originals undo it |
| Recovery.Open | src/sync/stages/index/worker/stage.rs:65-146 | Over the surviving commits of any run no startup assertion fails and the stage is sound again, for the last commit's chain and estimates, with every journaled point |
| Recovery.LastProcessed | src/sync/stages/index/worker/stage.rs:86-104 | The last hash-by-height entry, or genesis, is the tip of the confirmed chain, under estimates too |
| Recovery.RunPrefix | src/storage/kv_store.rs:545-548 | Losing the newest commits in a crash leaves a run one can restart from |
| Recovery.StoreTells | src/sync/stages/index/worker/stage.rs:106-125 | Recovered tip, indexer info and front of the journal agree as the assertions demand |
| Recovery.EmptyIsSound | src/sync/stages/index/worker/stage.rs:99-108 | A first start, with nothing stored, satisfies the invariant |
| Recovery.StartsStuck | src/sync/stages/index/rollback/buffer.rs:163-189 | A process starts stuck exactly over a snapshot with estimates whose journal holds only their pseudo-point |
| Reload.FetchFromStorage | src/sync/stages/index/rollback/buffer.rs:163-189 | Reading the journal by rising height rebuilds exactly the recorded points, newest first |
| Reload.LoadEntry | src/sync/stages/index/rollback/buffer.rs:170-183 | The next entry extends the point being loaded or starts the next newer one |
| Rollback.RollbackBuffer.constructor | src/sync/stages/index/rollback/buffer.rs:44-50 | An empty buffer of the limit and two more points |
| Rollback.RollbackBuffer.AddBlock | src/sync/stages/index/rollback/buffer.rs:84-92 | A point goes in front and the oldest beyond the size is dropped |
| Rollback.RollbackBuffer.PointsSince | src/sync/stages/index/rollback/buffer.rs:102-108 | The points newer than the given one, or nothing |
| Rollback.RollbackBuffer.RollbackToPoint | src/sync/stages/index/rollback/buffer.rs:94-100 | The newer points are removed and returned, or nothing changes |
| Rollback.RollbackBuffer.InsertActionsForPoint | src/sync/stages/index/rollback/buffer.rs:110-133 | Originals join their point or make a new one; a repeated key is a panic in safe mode |
| Rollback.JournalPush | src/storage/kv_store.rs:503-516 | A task's journal entries record its point in front of the others |
| Rollback.JournalCollect | src/storage/kv_store.rs:518-526 | Collection keeps exactly the points at or above the height |
| Rollback.JournalDrop | src/sync/stages/index/worker/stage.rs:174-181 | Removing the entries of undone points leaves exactly the others |
| Undo.UndoPoint | src/sync/stages/index/worker/stage.rs:164-183 | The operations of one point restore its originals and remove its entries, in any key order |
| Undo.UndoBatch | src/sync/stages/index/worker/stage.rs:164-183 | The oldest original of a key is its last writer |
| Task.IndexingTask.Get | src/storage/kv_store.rs:58-85 | A read returns what a reader will see once the task is committed |
| Task.IndexingTask.MultiGet | src/storage/kv_store.rs:87-139 | Likewise for many keys, each with its own value |
| Task.IndexingTask.MaybeStoreOriginal | src/storage/kv_store.rs:181-198 | The pre-task value of a key is recorded once, whatever was buffered before |
| Task.IndexingTask.Set | src/storage/kv_store.rs:141-159 | The view gains the entry and the original is recorded |
| Task.IndexingTask.Delete | src/storage/kv_store.rs:161-179 | The view loses the entry and the original is recorded |
| Task.IndexingTask.MergeInto | src/storage/kv_store.rs:213-262 | The view changes as the operation says exactly when it can be folded without loss |
| Task.IndexingTask.Increment | src/storage/kv_store.rs:264-271 | Increments of a counter that is only incremented are exact |
| Task.BufferedExact | src/storage/kv_store.rs:213-262 | Buffering an operation equals applying it exactly under a guard on what is buffered and stored |
| Task.ReadYourWrites | src/storage/kv_store.rs:284-328 | A task that buffers any operations, each under its guard, sees and commits them as applied one by one |
| Task.MergeAfterDelete | src/storage/kv_store.rs:252-261 | A delete followed by an increment keeps the old value |
| Task.RestoreUndoes | src/storage/kv_store.rs:181-198 | The originals of a buffer's keys undo it exactly |
| MergeOps.CombineExact | src/storage/merge_operation.rs:119-145 | Combining two operations equals applying both exactly when the first did not saturate against the second |
| MergeOps.MergeOperator | src/storage/merge_operation.rs:42-64 | The full merge applies the operands in order to the stored value or zero |
| MergeOps.PartialMergeOperator | src/storage/merge_operation.rs:67-99 | The partial merge is the net of the saturated totals |
| MergeOps.Regrouping | src/storage/merge_operation.rs:67-99 | Regrouping is harmless for one-directional lists and whenever nothing saturates |
| MergeOps.RegroupingExactly | src/storage/merge_operation.rs:67-99 | For every list and split into groups, exactly when merging the partial merges equals merging the list |
| MergeOps.PartialMergeExactly | src/storage/merge_operation.rs:67-99 | For every list, exactly when its partial merge has the effect of the list |
| MergeOps.FullMergeClamp | src/storage/merge_operation.rs:42-64 | A list of operations is one shift by its net amount, cut to what the list makes of the two ends of the range |
| MergeOps.CombinedExact | src/storage/merge_operation.rs:119-145 | Pairwise combination is harmless in the same cases |
| MergeOps.CombinedExactly | src/storage/merge_operation.rs:119-145 | For every list, exactly when combining it pairwise has its effect |
| MergeOps.RegroupingCounterexample | src/storage/merge_operation.rs:67-99 | A list that the exact condition rejects: its first operand saturates |
| Timestamps.AfterIncreases | src/storage/timestamp.rs:39-63 | The next timestamp is later exactly when the clock has not gone back and the counter has not overrun the seconds passed |
| Timestamps.RestartIncreases | src/storage/timestamp.rs:25-37 | The first timestamp of a restarted process is later than the last commit exactly when that one's second has passed |
| Timestamps.RestartSameSecond | src/storage/kv_store.rs:429 | A restart within the second of the last commit undercuts its timestamp |
| Timestamps.TakesNext | src/storage/timestamp.rs:39-63 | Under a clock that never goes back and at most 2^18 commits a second, the counter always fits and timestamps increase |
| Timestamps.RoundTrip | src/storage/timestamp.rs:65-75 | Unpacking and packing a u64 gives it back |
| Timestamps.RoundTripBack | src/storage/timestamp.rs:65-75 | Packing and unpacking gives the timestamp back exactly when the counter fits its bits |
| Timestamps.ClockStepBack | src/storage/timestamp.rs:45-50 | A clock that steps back yields an earlier timestamp |
| Comparator.CompareVersions | src/storage/timestamp.rs:151-166 | Versioned keys compare by user key, then newest first |
| Comparator.SeekNewest | src/storage/timestamp.rs:151-188 | The first version not before (key, ts) is the key's newest version not newer than ts, if there is one |
| Comparator.LittleEndianRoundTrip | src/storage/timestamp.rs:88-97 | A timestamp survives its little-endian bytes |
| Storage.StorageHandler.NextTimestamp | src/storage/kv_store.rs:483-489 | The timestamp of a commit is later than the last one exactly when the process remembers one or the last one's second has passed |
| Storage.NextCommitRead | src/storage/kv_store.rs:474-567 | A commit's writes come last in later reads when its timestamp is not earlier than the last one, and lie under the last commit's writes when it is |
| Storage.RestartLosesWrite | src/storage/kv_store.rs:485-488 | After a restart within a second that saw two commits, a latest read still returns the value the first new commit overwrote |
| Storage.StorageHandler.BeginTask | src/storage/kv_store.rs:442-472 | A task reads everything committed before it |
| Storage.StorageHandler.ActionBatch | src/storage/kv_store.rs:495-501 | The buffered actions, written in any order, resolve to what the task showed |
| Storage.StorageHandler.JournalBatch | src/storage/kv_store.rs:503-516 | The originals become journal entries under the point |
| Storage.StorageHandler.AddJournal | src/storage/kv_store.rs:503-527 | A confirmed point also drops the journal below its height less the limit; a mempool point is stored under the greatest height and drops nothing |
| Storage.StorageHandler.ApplyIndexingTask | src/storage/kv_store.rs:474-567 | One commit writes data, journal and timestamp entry, and earlier commits stay as they were |
| Storage.StorageHandler.Write | src/storage/kv_store.rs:545-564 | A batch is appended whole under its timestamp |
| Storage.ReadAtStable | src/storage/kv_store.rs:604-619 | Later commits do not change what is read at an earlier timestamp |
| Context.ResolveInputs | src/sync/stages/index/indexers/core/utxo_by_txo_ref.rs:47-138 | Inputs split into those made in the block and the others, each of which gets the value the store would give, from the cache or the store |
| Context.FetchAll | src/sync/stages/index/indexers/core/utxo_by_txo_ref.rs:106-119 | What the cache did not have is read from the store, and none is missing |
| Context.UtxoCache.Insert | src/sync/stages/index/indexers/core/utxo_by_txo_ref.rs:165-167 | An insertion may evict anything but invents nothing |
| Context.UtxoCache.Remove | src/sync/stages/index/indexers/core/utxo_by_txo_ref.rs:169-174 | A hit returns the cached value and removes it |
| Context.IndexingContext.UpdateUtxoSet | src/sync/stages/index/worker/context.rs:103-162 | Spent outputs leave the view, and every spendable output enters it or, if spent later in the block, the resolver, with its satoshis, script, height and the runes attached to it |
| Context.IndexingContext.ConsumeInputs | src/sync/stages/index/worker/context.rs:111-120 | The outputs spent by a transaction leave the view |
| Context.IndexingContext.ProduceOutput | src/sync/stages/index/worker/context.rs:144-155 | A chained output is handed to the resolver, any other is stored, and cached unless it is an estimate |
| Context.IndexingContext.ProduceOutputs | src/sync/stages/index/worker/context.rs:122-156 | All spendable outputs of a transaction are stored or handed on |
| Context.IndexingContext.AttachMetadata | src/sync/stages/index/worker/context.rs:54-63 | Runes are attached to an output for its creation |
| Refinement.TracksStep | src/sync/stages/index/worker/context.rs:103-162 | View and resolver together keep following the ledger's UTXO set through chained outputs |
| Refinement.BlockInputs | src/sync/stages/index/indexers/core/utxo_by_txo_ref.rs:66-79 | An input's output is live before the block or made in it, and is gone after it |
| Indexers.SeenScripts | src/sync/stages/index/indexers/custom/tx_count_by_address.rs:38-71 | A script is in the set exactly when an output pays to it or, a coinbase aside, an input resolves to an output of it |
| Indexers.CountTransaction | src/sync/stages/index/indexers/custom/tx_count_by_address.rs:38-71 | Each of them is counted once more |
| Indexers.IndexAddresses | src/sync/stages/index/indexers/custom/utxos_by_address.rs:44-89 | The by-address table loses the inputs and gains the outputs |
| RunesIndexer.IndexRunes | src/sync/stages/index/indexers/custom/runes/indexer.rs:75-299 | From the start height on the whole rune step of a transaction has the effect of the rune rules, and nothing happens below it |
| RunesIndexer.CollectInputs | src/sync/stages/index/indexers/custom/runes/indexer.rs:302-343 | The runes of the inputs are summed, and the by-script entries of inputs with runes are gone and no others |
| RunesIndexer.MintRune | src/sync/stages/index/indexers/custom/runes/indexer.rs:345-375 | A mint yields the stored amount and is counted once exactly when the stored entry has terms, the height is not before their start, before their end, and fewer mints than their cap are counted |
| RunesIndexer.CommitsToRune | src/sync/stages/index/indexers/custom/runes/indexer.rs:377-442 | Found exactly when some input pushes the name and spends a taproot output with enough confirmations |
| RunesIndexer.EtchRune | src/sync/stages/index/indexers/custom/runes/indexer.rs:444-492 | A name is granted exactly when it is at least the minimum, not reserved, not taken and committed to; a nameless etching gets the reserved name of its position; the id is the position |
| RunesIndexer.CreateRuneEntry | src/sync/stages/index/indexers/custom/runes/indexer.rs:494-585 | The name gives the id and the entry holds the fields asked for, its mint starting at the last of the given starts and ending at the first of the given ends; a cenotaph's entry has only the name |
| Issuance.WindowOf | src/sync/stages/index/indexers/custom/runes/indexer.rs:526-546 | The mint of a stored entry is open at exactly those heights (below 2^64 - 1) that every given absolute and relative bound allows |
| RunesIndexer.GatherRunes | src/sync/stages/index/indexers/custom/runes/indexer.rs:92-121 | Of every rune the inputs, a mint that is allowed and the premine of a granted etching are gathered, cenotaphs' mints included; the mint is counted and the new entry written, and no other entry changes |
| Issuance.GatherExact | src/sync/stages/index/indexers/custom/runes/indexer.rs:92-121 | The same of the reference function, rune by rune |
| RunesIndexer.EligibleOutputs | src/sync/stages/index/indexers/custom/runes/indexer.rs:152-160 | The outputs that are not OP_RETURN, in order |
| RunesIndexer.AllocateTo | src/sync/stages/index/indexers/custom/runes/indexer.rs:142-147 | An amount moves from what remains to an output, and nothing when it is zero |
| RunesIndexer.DivideEvenly | src/sync/stages/index/indexers/custom/runes/indexer.rs:162-177 | The loop gives every destination its share, the first ones the remainder |
| RunesIndexer.GiveEach | src/sync/stages/index/indexers/custom/runes/indexer.rs:179-183 | The loop gives each destination the amount while it lasts |
| RunesIndexer.RunEdict | src/sync/stages/index/indexers/custom/runes/indexer.rs:123-196 | The rune is the edict's or, for the default id, the etched one; without one or a balance nothing changes; one output gets the balance or the lesser of amount and balance, all spendable outputs share evenly, or each gets the amount or what its predecessors left; what remains falls by as much and no other rune or output changes |
| Edicts.StepEdicted | src/sync/stages/index/indexers/custom/runes/indexer.rs:123-196 | The same of the reference function, in all cases |
| RunesIndexer.RunAllEdicts | src/sync/stages/index/indexers/custom/runes/indexer.rs:123-196 | Each edict in order does so to what the ones before it left |
| RunesIndexer.Distribute | src/sync/stages/index/indexers/custom/runes/indexer.rs:116-235 | After the edicts of the runestone, all that is left of every rune goes to one output and nothing else changes: the output the runestone names, else the first spendable one; a cenotaph, or no such output, gives it to nobody |
| Edicts.DefaultReceives | src/sync/stages/index/indexers/custom/runes/indexer.rs:204-222 | The default output is exactly the named one or, without a name, the first spendable one, and none for a cenotaph |
| RunesIndexer.RecordRunes | src/sync/stages/index/indexers/custom/runes/indexer.rs:250-275 | The by-script entries of outputs with runes, spendable or not, are added and nothing else, and the runes are attached to them |
| RunesProofs.RunEdictsConserve | src/sync/stages/index/indexers/custom/runes/indexer.rs:123-196 | After every edict, allocated plus remaining is the starting balance, rune by rune, and no zero entry is stored |
| RunesProofs.EvenSplit | src/sync/stages/index/indexers/custom/runes/indexer.rs:162-177 | An even split uses the whole balance, shares differ by at most one and the larger come first |
| RunesProofs.CappedSplit | src/sync/stages/index/indexers/custom/runes/indexer.rs:179-183 | A fixed amount at every output serves them in order until the balance runs out |
| RunesProofs.LeftClosed | src/sync/stages/index/indexers/custom/runes/indexer.rs:179-183 | What is left after i of them is the balance less i amounts, or nothing |
| RunesProofs.AllocatedConserves | src/sync/stages/index/indexers/custom/runes/indexer.rs:116-235 | What a transaction gathered it gives to its outputs or burns |
| RunesProofs.GatherConserves | src/sync/stages/index/indexers/custom/runes/indexer.rs:92-121 | What is gathered beyond the inputs is newly issued, and the rune tables stay sound |
| Supply.InvTxs | src/sync/stages/index/worker/stage.rs:305-323 | Every transaction of a valid block keeps the ledger's invariant |
| Supply.RuneSupply | src/sync/stages/index/indexers/custom/runes/indexer.rs:76-299 | For every rune and valid chain, with or without estimates, live holdings plus burned equal premine plus counted mints, mints are within the cap, and all fits a u128 |
| Supply.NoOverflow | src/sync/stages/index/indexers/custom/runes/indexer.rs:92-235 | No addition of rune amounts overflows, at any edict |
| Supply.IndexAgreement | src/sync/stages/index/indexers/custom/utxos_by_address.rs:44-89 | By-address entries are exactly the live outputs of spendable scripts, and rune entries exactly those with runes |
| Positions.LiveOutputs | src/sync/stages/index/worker/context.rs:103-156 | For every valid chain and estimates, an output is live exactly when some transaction made it, not as an OP_RETURN, and no later one spends it; its entry has that output's satoshis and script and that transaction's height |
| Positions.ListedOutputs | src/sync/stages/index/indexers/custom/utxos_by_address.rs:44-89 | The by-address table lists an output, spendable or not, exactly when some transaction made it under that script and height and no later one spends it |
| Positions.Recount | src/sync/stages/index/indexers/custom/tx_count_by_address.rs:38-71 | The stored count of a script is the number of transactions, on the chain and in the estimates, with an output of the script or an input that spends an earlier transaction's output of the script |
| Guarantees.StoredIndexesAgree | src/sync/stages/index/indexers/custom/utxos_by_address.rs:44-89 | In every reachable store the secondary indexes agree with its output table |
| Guarantees.StoredOutputs | src/sync/stages/index/worker/context.rs:103-156 | In every reachable store the output table holds exactly the unspent spendable outputs of the current chain and estimates, with their satoshis, script and height |
| Guarantees.StoredListing | src/sync/stages/index/indexers/custom/utxos_by_address.rs:44-89 | In every reachable store the by-address table lists exactly the unspent outputs of the current chain and estimates |
| Guarantees.StoredCounts | src/sync/stages/index/indexers/custom/tx_count_by_address.rs:38-71 | In every reachable store the counts are such a recount of the current chain and estimates |
| Guarantees.StoredSupply | src/sync/stages/index/indexers/custom/runes/indexer.rs:345-375 | In every reachable store the rune tables account for every unit held or burned |
| Guarantees.CacheTransparent | src/sync/stages/index/indexers/core/utxo_by_txo_ref.rs:91-104 | A cached output that is live at any height of the current chain has the value the store has there |
| BlockIndexer.RunIndexers | src/sync/stages/index/worker/stage.rs:306-314 | The indexers together have the effect of the ledger's tables |
| BlockIndexer.IndexTransaction | src/sync/stages/index/worker/stage.rs:305-323 | One transaction moves task, resolver and cache as the ledger moves |
| BlockIndexer.IndexTransactions | src/sync/stages/index/worker/stage.rs:305-323 | So do all transactions of a block |
| Worker.IndexBlock | src/sync/stages/index/worker/stage.rs:290-334 | A task over a chain's index shows, after a block, the longer chain's index |
| Worker.IndexPending | src/sync/stages/index/worker/stage.rs:413-471 | With one context shared by all estimated blocks it shows the index with the estimates |
| Worker.IndexPendingBlock | src/sync/stages/index/worker/stage.rs:433-471 | Each estimated block continues where the last one ended |
| Heights.IndexedHeights | src/sync/stages/index/worker/stage.rs:327-334 | Hash-by-height is dense from height 1 to the confirmed tip, and the indexer info names the tip and whether estimates are applied |
| Heights.IndexedCreated | src/sync/stages/index/worker/context.rs:133-142 | No live output was created above the height of the index |
| Heights.TipHeight | src/sync/stages/index/worker/stage.rs:86-92 | The last entry of the table is the tip |
| Locator.Indexes | src/sync/stages/index/indexers/core/hash_by_height.rs:39-57 | Heights fall strictly from the tip, the step never overflows, and with genesis every reorganisation depth d has an entry between d and 2d below the tip |
| Locator.IntersectOptions | src/sync/stages/index/indexers/core/hash_by_height.rs:19-73 | Every hash is found, and the locator lists blocks of the chain from tip to genesis with that coverage |
| Snapshots.StartReader | src/serve/mod.rs:54-112 | The chosen snapshot is one commit's: the reported tip with nothing on it, or complete estimates on a tip of the reported hash, even when commits land between the two lookups |
| Snapshots.SnapshotReads | src/storage/kv_store.rs:569-578 | Reading at the chosen timestamp gives that commit's whole data however many commits follow |
| BalanceQueries.AllRuneBalances | src/serve/routes/addresses/all_rune_balances.rs:62-110 | The scan never meets missing data and returns what the script's live outputs hold, with the info of every rune |
| BalanceQueries.SpecificRuneBalance | src/serve/routes/addresses/specific_rune_balance.rs:54-94 | The single balance is the same amount, or zero; an unknown name is not found |
| BalanceQueries.FirstMatch | src/serve/routes/addresses/specific_rune_balance.rs:88-93 | Stopping at the first match finds the rune's whole amount in the output |
| BalanceQueries.SnapshotListed | src/serve/routes/addresses/all_rune_balances.rs:62-79 | A snapshot lists exactly the script's live outputs with runes below the greatest height, readable and without overflow |
| Handlers.AllBalancesRequest | src/serve/routes/addresses/all_rune_balances.rs:44-125 | The response is, for one commit with the reported tip, what the ledger says the script held, with the ledger's entry of every rune held if asked for |
| Handlers.SpecificBalanceRequest | src/serve/routes/addresses/specific_rune_balance.rs:41-102 | Likewise for one rune, by id or name |
| Bytes.EncodeVarUInt | src/storage/encdec/encode.rs:23-41 | The scan for the first non-zero byte gives the shortest width and the bytes |
| Bytes.VarUIntOrder | src/storage/encdec/encode.rs:23-41 | Whatever follows them, encoded numbers compare as numbers |
| Bytes.VarUIntPrefixFree | src/storage/encdec/encode.rs:23-41 | Encoded numbers with anything after them determine both |
| Bytes.VarUIntRoundTrip | src/storage/encdec/decode.rs:54-76 | Decoding gives back the number and the rest |
| Bytes.DecodedFits | src/storage/encdec/decode.rs:54-76 | Whatever decodes fits a u128 |
| Bytes.PrefixKeyRange | src/storage/encdec/mod.rs:83-98 | The range holds exactly the byte strings with the prefix, or nothing when all its bytes are 255, which is exactly when the end is empty |
| Encoding.RoundTrip | src/storage/encdec/decode.rs:25-173 | Decoding an encoded value of any encodable type gives it back with the bytes after it |
| Encoding.PrefixFree | src/storage/encdec/encode.rs:5-118 | Encodings of one type are prefix-free |
| Encoding.DecodeVec | src/storage/encdec/decode.rs:97-111 | The vector loop computes the decoder |
| Encoding.DecodeMap | src/storage/encdec/decode.rs:113-133 | The map loop computes the decoder, keeping insertion order |
| ValueCodes.UtxoRoundTrip | src/sync/stages/index/indexers/types.rs:24-39 | A stored output decodes to itself and reads back as the model's output, with exactly its runes, and none when it has no rune entry |
| ValueCodes.RunesRoundTrip | src/sync/stages/index/indexers/custom/runes/tables.rs:123-140 | The rune list of an output gives its balances back whatever order it was written in |
| KeyCodes.KeyCodeInjective | src/storage/table.rs:57-63 | Different keys of any tables have different bytes |
| KeyCodes.EncodeRange | src/storage/table.rs:65-88 | The range of a table without bounds holds exactly the keys with its prefix, and with bounds starts and ends there |
| KeyCodes.TableScan | src/storage/table.rs:65-88 | A scan of a table finds exactly its keys |
| KeyCodes.ScriptScan | src/storage/table.rs:123-148 | The scan of a script finds, among all keys, exactly its entries below the greatest height |
| KeyCodes.ScriptScanOrder | src/storage/table.rs:112-121 | A script's entries come in height order |
| KeyCodes.HeightOrder | src/sync/stages/index/indexers/core/rollback_buffer.rs:18-23 | Journal entries and hashes are stored in height order |
| KeyCodes.CollectionScan | src/storage/kv_store.rs:518-526 | The collected range holds, among all keys, exactly the journal entries below the height |
| StoredKeys.StoredScriptScan | src/serve/routes/addresses/all_rune_balances.rs:54-62 | In any store that shows an index, the byte range of a script holds exactly the entries the balance queries go through |
| StoredKeys.StoredCollection | src/storage/kv_store.rs:518-526 | In any reachable store, deleting the byte range removes exactly the journal entries below the height |

## Left out

- The Charms indexer and its routes, which the foreign charms library decides.
- RunesIndexer.IndexRunes: does not write the optional activity log (`index_activity`), whose sequence numbers follow the
  order of a hash map and so are not a function of the chain.
- The runestone parser, the minimum name length by height, tapscript parsing and network choice: parameters of the model.
- The configured list of indexers is three switches; their order does not matter because their tables are disjoint.
- The store itself (compaction, write-ahead log, bloom filters, removal of old versions): a log of atomic batches. A crash
  is a restart from an earlier commit.
- Storage failures and the decoding errors of corrupt stored bytes.
- Whether a restarted process may use another rollback limit: the limit is fixed over a run.
- The merge operand's own byte format: an operation byte and a number, both covered by the codec's round trip.
- The byte layout of stored values other than outputs: the round trip is for every encodable type, not spelled out per
  table.
- The different decoding errors: the decoder's failures are one `Malformed`.
- Order of rune entries within an output and of keys in a fetch: hash-map order, modelled as maps and arbitrary choice.
- `remove_actions_for_point`, which nothing calls, and `decrement`, which no indexer uses.
- `stop_after`, logging, timing statistics and cache sizing.
- The pull stage, peers and RPC; routing, JSON, address parsing and the sorting of a response.
- Snapshots.StartReader: says nothing about how recent the commit is, and after a rollback the confirmed entry still names
  the commit before it, as in the source.
