# HomeObject: verified models

Dafny 4.11 models of the parts of HomeObject where a mistake loses or corrupts
blobs: the copying garbage collector with its crash redo, the chunk selector,
baseline resync, and the commit and replay of the blob index. Each model states
what the code promises over every input, every run or every reachable state.

`dafny verify dfyconfig.toml` checks the whole project.

## How the files fit together

**Garbage collection and crash redo.** `Storage` holds the shared entities:
chunks, slots, keys, block addresses, index entries, chunk contents.
`GcMachine` is one replica as a step relation: a log of puts, deletes, shard
creates and seals, its commit, checkpoints, crashes, recovery, and any number of
GC tasks at once, each cut into the steps that can be interleaved with deletes
or with a crash. `GcInvariant` is what holds in every state; `GcSteps` and
`GcTaskSteps` show that client, host and GC steps keep it; `GcTheorems`,
`GcRedo` and `GcProgress` draw the conclusions. `GcRequests` reads off the steps of
a run what the clients asked and compares it with what they read; `GcTombstones`,
`GcFill` and `GcPool` do the same for deleted keys, chunk contents and reserved
chunks. `GcActor` is the same work as the actor does it in place, loop by loop.
`CopyBudget` counts the blocks a copy takes. `GcDrain` is task submission against
PG destruction.

The steps of `GcMachine` and the code they stand for, in
`src/lib/homestore_backend/`:

| step | code |
|---|---|
| ProposePut, ProposeDel, ProposeCreate, ProposeSeal | hs_blob_manager.cpp:84-212, hs_blob_manager.cpp:514-577, hs_shard_manager.cpp:117-329 |
| Apply (put, delete, create, seal) | hs_blob_manager.cpp:214-284, hs_blob_manager.cpp:579-645, hs_shard_manager.cpp:445-599 |
| Checkpoint, Crash, Recover, EndRecovery | hs_cp_callbacks.cpp:32-79, hs_homeobject.cpp:264-370, gc_manager.cpp:444-508 |
| Start, Purge, Query, Copy, EndCopy, Sweep, Flush, Fail, Record | gc_manager.cpp:352-399, gc_manager.cpp:656-1312 |
| Swap, MovePg, MoveShard, EndShards | gc_manager.cpp:533-632, hs_pg_manager.cpp:1318-1395, hs_shard_manager.cpp:774-823 |
| FlushSwap, MoveReserved, Destroy | gc_manager.cpp:1341-1361 |

**Chunk selector.** `ChunkSelector` is the selector as a value with its
invariant (one owner per chunk, tags, states) and its counters; `ChunkGrants`
adds creating and destroying a PG; `SelectorRuns` quantifies over every run;
`SelectorBoot` rebuilds the selector at start-up; `HeapSelector` is the class
that updates its fields in place, each of its methods one operation of
`SelectorRuns`. `ShardLifecycle` is who holds a chunk while shards are created
and sealed, `ShardHistory` the same read off the steps of a run, `ShardRestart`
what a restart makes of it.

**Baseline resync.** `ResyncLeader` is the leader's cursor, `ResyncFollower` the
follower's message handling as functions, `ResyncReceiver` the same as a class.
`ResyncMachine` lets them exchange messages with lost messages and replies,
I/O failures, checkpoints at any time, follower crashes and leader restarts.
`ResyncInvariant` and `ResyncSteps` carry the proof, `ResyncTheorems`,
`ResyncShards` and `ResyncProgress` the results; `ResyncSkip` is one concrete run. `BlobBatches` is
prefetching and batching on the leader, `ObjectId` the packed object id.

**Index.** `BlobReplay` is commit and replay of puts and deletes, `BlobSequence`
the blob ids across checkpoints and crashes, `PartialRead` the block layout and
the read that skips the header.

## Findings

Where the code does not keep a stronger claim, a lemma gives a concrete case and
another says exactly when the claim holds.

- After a restart the follower's cursor names the next shard to receive, but
  `is_valid_obj_id` takes it for the current one
  (src/lib/homestore_backend/snapshot_receive_handler.cpp:430). A leader that
  goes on without the PG meta message makes the follower skip a shard:
  `ResyncTheorems.DirectRestartSkips`, `ResyncSkip.DirectRestartLosesBlob`.
- Sending a batch again can fail for good, because the blobs already prefetched
  behind it fill the window: `BlobBatches.ResendSucceeds`, `BlobBatches.ResendCanFail`.
  A fresh iterator gets past it: `ResyncProgress.ResyncCanFinish`.
- A failed shard create releases its chunk twice
  (src/lib/homestore_backend/replication_state_machine.cpp:184 and
  src/lib/homestore_backend/hs_shard_manager.cpp:225); a create between the two
  makes two shards share a chunk: `ShardLifecycle.SecondRelease`,
  `ShardLifecycle.DoubleReleaseShares`.
- A release does nothing to a chunk in state GC
  (src/lib/homestore_backend/heap_chunk_selector.cpp:175). A seal that commits
  while an emergent GC has the chunk leaves it in use for nobody:
  `ShardLifecycle.ReleaseInGc`, `ShardLifecycle.SealInGcLeaks`,
  `ShardLifecycle.SealedUnderGcReached`. The callers of an emergent GC quiesce the
  replication device first
  (src/lib/homestore_backend/replication_state_machine.cpp:969,
  src/lib/homestore_backend/hs_http_manager.cpp:557 and line 735). Whether a seal
  already in the log can still commit then depends on HomeStore, which is not
  part of this model.
- A redone task does not put its source chunk in the queue of reserved chunks
  (src/lib/homestore_backend/gc_manager.cpp:444-508; a task of the run does at line
  1307). Until the next restart the queue is one chunk short for each redone task,
  and a GC thread can find it empty, which the comment at
  src/lib/homestore_backend/gc_manager.cpp:1224-1226 rules out: `GcPool.QueueSize`,
  `GcPool.DestroyReturns`.
- An emergent GC moves the available-block counter of a chunk that is not
  counted (src/lib/homestore_backend/heap_chunk_selector.cpp:407):
  `ChunkSelector.SwitchExact`, `SelectorRuns.EmergentGcMiscounts`.
- When the commit of a resynced blob or its index insertion fails, the
  continuation returns the error code of the write, which is success
  (src/lib/homestore_backend/snapshot_receive_handler.cpp:294-306). The batch
  counts as stored and the blob is lost: `ResyncTheorems.DroppedCommits`,
  `ResyncSkip.FailedCommitLosesBlob`.
- A PG that is destroyed and created again between the two lines of
  `add_gc_task` that read a chunk's PG and count the task
  (src/lib/homestore_backend/gc_manager.cpp:365-366) lets a task through for a
  chunk the PG may no longer have: `GcDrain.StaleCheck`, `GcDrain.StaleTask`.
- The partial read has no header to take blob size, user key and object offset
  from: `PartialRead.PartialPathVisible`, `PartialRead.PartialReadsPastEnd`,
  `PartialRead.PartialLosesKey`. The sums
  of the range check and of the guard have 64 bits: `PartialRead.RangeCheckExact`,
  `PartialRead.GuardExact`.
- The reclaimed-block count wraps when the copy writes footers the chunk does
  not have and there is no garbage: `CopyBudget.CopyFitsExactly`. A sealed shard
  received by resync has none (`CopyBudget.ResyncedShardWraps`), nor has an open
  shard that is not the last of its chunk (`CopyBudget.OpenShardInMiddleWraps`,
  `ShardLifecycle.OpenBeforeSealed`).
- `reset_cursor` clears a local of the same name and keeps the old blob list
  (src/lib/homestore_backend/pg_blob_iterator.cpp:109). The model keeps it too;
  `ResyncTheorems.RequestsAccepted` shows that it does no harm.
- The comment at src/lib/homestore_backend/replication_state_machine.cpp:386-391
  says the follower resets its cursor on the empty message that follows a
  rejected id. The code returns without changing the offset (line 463), and so
  does the model.

## Assumptions

The code relies on these and does not enforce them itself.

- No put or create reaches a chunk under GC
  (src/lib/homestore_backend/gc_manager.cpp:655).
- An index commit and its counter update are one step.
- A key is put once and deleted only after its put; a shard is sealed once.
- Restarts of a resync go through the PG meta message, and a resync starts with
  no cursor write of an earlier one pending.
- In the runs of `ResyncMachine`, `commit_blk` and index insertion do not fail;
  verification, allocation and writes may.
- A PG marked destroyed becomes alive again only by being created again
  (src/lib/homestore_backend/hs_pg_manager.cpp:699).
- At start-up no GC task is unfinished (for chunk ownership), and chunks nobody
  claims are empty.

## Model

| member | source | states |
|---|---|---|
| GcTheorems.StepInv | src/lib/homestore_backend/gc_manager.cpp:656-1394 | every client, checkpoint, crash, recovery and GC step keeps the invariant of the replica |
| GcTheorems.RunInv | src/lib/homestore_backend/gc_manager.cpp:352-1394 | the invariant holds in every state of every run, with any number of GC tasks at once |
| GcTheorems.ReadsFollowLog | src/lib/homestore_backend/gc_manager.cpp:533-1057 | in every reachable state a read returns data d for a key if and only if the applied part of the log has d put there and not deleted; that the log is what the clients sent is GcRequests.RunFollows |
| GcTheorems.GcStepKeepsReads | src/lib/homestore_backend/gc_manager.cpp:533-1118 | no step of a GC task changes what any key reads |
| GcTheorems.DeleteOnlyItsKey | src/lib/homestore_backend/hs_blob_manager.cpp:579-645 | a committed delete makes its own key unreadable and leaves every other key as it was |
| GcTheorems.NoResurrection | src/lib/homestore_backend/gc_manager.cpp:555-622 | a deleted blob never reads again in a run without a crash, nor after a crash once the delete is applied again |
| GcTheorems.PurgeIsSafe | src/lib/homestore_backend/gc_manager.cpp:1059-1118 | whenever a reserved chunk is reset, no PG slot, shard record, live index entry in memory or on disk, or task record refers to it |
| GcTheorems.PlacementAgrees | src/lib/homestore_backend/hs_shard_manager.cpp:774-823 | without a task record for the slot, the chunk of a live entry, its shard's chunk and the PG slot are one and the same |
| GcTheorems.ReplayedPutsNotStale | src/lib/homestore_backend/hs_shard_manager.cpp:550-576 | a put still to be committed or replayed points into the chunk its shard is in, because a seal flushes the durable commit position first |
| GcRequests.RunFollows | src/lib/homestore_backend/hs_blob_manager.cpp:84-196 | along every run the log is the sequence of requests, key, data, shard and slot as the clients passed them, and the committed, checkpointed and durable positions are those the commits, flushes, seals and crashes of the run give |
| GcRequests.ReadsFollowRequests | src/lib/homestore_backend/hs_blob_manager.cpp:84-391 | in every run a get of k returns d if and only if, among the requests committed so far, a client put d under k and none deleted k |
| GcRequests.PutIsRead | src/lib/homestore_backend/hs_blob_manager.cpp:170-212 | once the put a client made at some point of the run is committed, its whole body is read back, whatever follows, if and only if no delete of the key is committed |
| GcRequests.DelIsGone | src/lib/homestore_backend/hs_blob_manager.cpp:514-645 | once the delete a client made at some point of the run is committed, the key cannot be read |
| GcRequests.ShardsFollowRequests | src/lib/homestore_backend/hs_shard_manager.cpp:445-599 | in every run a shard exists, in the slot asked for, if and only if its create has ever been committed, and is sealed if and only if its seal has been |
| GcRequests.JobsFollowLaunches | src/lib/homestore_backend/gc_manager.cpp:1266-1283 | a task, and the record a redo finds, move to the chunk and run in the mode of the last launch for the slot |
| GcTombstones.TombstonesFollowRequests | src/lib/homestore_backend/gc_manager.cpp:1022-1052 | in every run the index has a tombstone for a key if and only if a delete of it is committed and no GC has swept it or swapped it away since, counting what a crash undoes |
| GcFill.FillFollowsRequests | src/lib/homestore_backend/gc_manager.cpp:803-1005 | in every run the chunk of a slot holds exactly the blocks of the puts, creates and seals written to it, or since its last GC those its copy wrote into the emptied chunk, header and footer blocks and copied blobs, and those written after |
| GcSteps.ApplyInv | src/lib/homestore_backend/hs_shard_manager.cpp:482-599 | committing a put, delete, create or seal keeps the invariant |
| GcSteps.CheckpointInv | src/lib/homestore_backend/hs_cp_callbacks.cpp:32-79 | a checkpoint at any moment keeps the invariant |
| GcSteps.CrashInv | src/lib/homestore_backend/hs_homeobject.cpp:264-370 | what a crash at any moment leaves keeps the invariant |
| GcSteps.RecoverInv | src/lib/homestore_backend/gc_manager.cpp:444-508 | taking up a recorded task after a crash keeps the invariant |
| GcTaskSteps.StartInv | src/lib/homestore_backend/gc_manager.cpp:1202-1233 | starting a task on a quiet slot with a free reserved chunk keeps the invariant |
| GcTaskSteps.ToUnreferenced | src/lib/homestore_backend/gc_manager.cpp:1059-1118 | the receiving chunk of a task about to purge is referred to by nothing |
| GcTaskSteps.PurgeInv | src/lib/homestore_backend/gc_manager.cpp:1059-1118 | purging the receiving chunk keeps every other chunk's promises |
| GcTaskSteps.CopyInv | src/lib/homestore_backend/gc_manager.cpp:834-948 | a copied blob holds the data its log entry has |
| GcTaskSteps.SweepInv | src/lib/homestore_backend/gc_manager.cpp:1022-1052 | removing tombstones loses no delete that replay still needs |
| GcTaskSteps.FailInv | src/lib/homestore_backend/gc_manager.cpp:1181-1200 | a task that fails before its record keeps the invariant |
| GcTaskSteps.RecordInv | src/lib/homestore_backend/gc_manager.cpp:1266-1283 | the task record is written only when the checkpoint holds every copy |
| GcTaskSteps.SwapInv | src/lib/homestore_backend/gc_manager.cpp:555-622 | the filter (drop tombstone, keep moved entry, replace) keeps the data of every key |
| GcTaskSteps.MovePgInv | src/lib/homestore_backend/hs_pg_manager.cpp:1318-1395 | rewriting the PG slot keeps the invariant |
| GcTaskSteps.MoveShardInv | src/lib/homestore_backend/hs_shard_manager.cpp:774-823 | rewriting one shard record keeps the invariant |
| GcTaskSteps.MoveReservedInv | src/lib/homestore_backend/gc_manager.cpp:1347-1358 | rewriting the reserved record keeps one reserved chunk per record |
| GcTaskSteps.DestroyInv | src/lib/homestore_backend/gc_manager.cpp:1360-1361 | destroying the record keeps the invariant |
| GcPool.FailReturns | src/lib/homestore_backend/gc_manager.cpp:1181-1200 | a task that fails before its record leaves its slot where it was and the chunk it copied to queued, with nothing referring to that chunk |
| GcPool.DestroyReturns | src/lib/homestore_backend/gc_manager.cpp:1288-1308 | the end of a task leaves move_from reserved; it is queued, with nothing referring to it, if and only if the task was not a redo |
| GcPool.QueueIsExact | src/lib/homestore_backend/gc_manager.cpp:1181-1312 | in every state of every run a chunk is queued if and only if it is reserved, no task and no record names it, and the last recovery did not finish a task that moved off it |
| GcPool.QueuedUnreferenced | src/lib/homestore_backend/gc_manager.cpp:1223-1240 | in every state of every run no slot, shard record, live entry in memory or on disk, or task record refers to a queued chunk |
| GcPool.QueueSize | src/lib/homestore_backend/gc_manager.cpp:1223-1227 | in every run the number of reserved chunks stays the same, and the queue is short of it by one for each task or record and by one for each task the last recovery finished |
| GcRedo.StepTarget | src/lib/homestore_backend/gc_manager.cpp:1314-1361 | no step of anybody but the last of the task itself changes or removes the record of a slot, and that last step leaves the slot where the record says |
| GcRedo.RedoEndsInTarget | src/lib/homestore_backend/gc_manager.cpp:444-508 | in every run, with crashes, redo and other tasks at any point of their work, the end of a recorded task has the slot and all its shards on move_to, its live entries there in memory and on disk, move_from reserved and free of live entries, and the record gone; move_from is queued if and only if the run is out of recovery then |
| GcRedo.CrashRedoEndsInTarget | src/lib/homestore_backend/gc_manager.cpp:1314-1394 | the same for every redo after a crash at any point after the record |
| GcRedo.UndisturbedRedo | src/lib/homestore_backend/gc_manager.cpp:444-508 | when nothing else rewrites superblocks meanwhile, all PG, shard, reserved and task records end as the target of the record says |
| GcRedo.RedoCompletes | src/lib/homestore_backend/gc_manager.cpp:444-508 | a recorded task can always be completed after a restart |
| GcRedo.RecoveryCompletes | src/lib/homestore_backend/gc_manager.cpp:444-508 | a restart can finish every task it finds a record of, one after the other, and then end |
| GcRedo.CrashRedoCompletes | src/lib/homestore_backend/gc_manager.cpp:1314-1394 | after a crash at any point after the record there is a redo, and it ends in the superblocks the run without the crash would have reached |
| GcProgress.GcCanComplete | src/lib/homestore_backend/gc_manager.cpp:1202-1312 | from every state in which a GC may start, some run carries it through: slot, shards and live entries on move_to, nothing live in move_from, which is reserved and queued, and no record |
| GcProgress.TaskFinishes | src/lib/homestore_backend/gc_manager.cpp:656-1312 | a task in any phase before its record can be finished, with the same outcome |
| GcActor.PdevGcActor.PurgeReservedChunk | src/lib/homestore_backend/gc_manager.cpp:1059-1118 | success if and only if removal and query succeed and no entry of the chunk is left; the chunk is reset in every case and no other chunk is touched |
| GcActor.PdevGcActor.ReplaceBlobIndex | src/lib/homestore_backend/gc_manager.cpp:533-622 | the loop over the copied blobs equals the filter applied to all of them at once |
| GcActor.SwapIsRedoable | src/lib/homestore_backend/gc_manager.cpp:555-622 | swapping again over any part of a swap that a crash left gives the full swap |
| GcActor.SwapEmptiesFrom | src/lib/homestore_backend/gc_manager.cpp:555-622 | after the swap no live entry is in move_from, and exactly the same blobs are live |
| GcActor.SwapOfRecord | src/lib/homestore_backend/gc_manager.cpp:533-622 | in every reachable state the swap with the copies of the GC index leaves no live entry in move_from, the same blobs live, and every live entry at the data of its blob |
| GcActor.PdevGcActor.AddNewShard | src/lib/homestore_backend/hs_shard_manager.cpp:707-738 | the chunk-to-shards map stays the exact inverse of shard to chunk |
| GcActor.MoveShards | src/lib/homestore_backend/hs_shard_manager.cpp:783-815 | exactly the given shards get the new chunk |
| GcActor.PdevGcActor.UpdateShardMeta | src/lib/homestore_backend/hs_shard_manager.cpp:774-823 | all shards of move_from are on move_to and the chunk-to-shards map is their exact inverse |
| GcActor.ChunkMovedIsTarget | src/lib/homestore_backend/hs_shard_manager.cpp:774-823 | moving the shards of the chunk is moving the shards of the slot |
| GcActor.PdevGcActor.UpdateReservedRecord | src/lib/homestore_backend/gc_manager.cpp:1347-1358 | the record that named move_to names move_from |
| GcActor.RecordsMovedIsTarget | src/lib/homestore_backend/gc_manager.cpp:1347-1358 | rewritten once or twice, the reserved records lose move_to and gain move_from |
| GcActor.MovedIsTarget | src/lib/homestore_backend/gc_manager.cpp:1314-1394 | slot, shards, reserved records and task record as the actor rewrites them are the target of the task in every reachable state |
| GcActor.PdevGcActor.ProcessAfterRecord | src/lib/homestore_backend/gc_manager.cpp:1314-1394 | from every reachable state the superblocks end in the target of the task, no live entry is left in move_from, the same blobs are live with their data, and the chunk-to-shards map is exact |
| GcActor.PdevGcActor.TakeFromQueue | src/lib/homestore_backend/gc_manager.cpp:454-490 | the queue loses the first of the task's two chunks and keeps the others, those read before it at the end |
| GcDrain.StepInv | src/lib/homestore_backend/gc_manager.cpp:352-440 | the pending counter equals the number of counted submitters after every step, and a task in flight saw the PG alive in its present incarnation |
| GcDrain.NoTaskAfterDrain | src/lib/homestore_backend/hs_pg_manager.cpp:691-702 | after drain has returned, a task in flight is one that saw a later incarnation of the PG alive; before the PG is created again there is none |
| GcDrain.DrainWaits | src/lib/homestore_backend/gc_manager.cpp:401-420 | drain cannot return while a task is past its check |
| GcDrain.TasksAreMarked | src/lib/homestore_backend/gc_manager.cpp:376-399 | in every run a submitter has a task queued or running if and only if its chunk was marked and the task has not finished |
| GcDrain.NoneAfterDestroy | src/lib/homestore_backend/gc_manager.cpp:366-420 | once the PG is marked destroyed, and until it is created again, no submitter that was not in flight gets a task through, and drain returns if and only if nobody is counted |
| GcDrain.StaleCheck | src/lib/homestore_backend/gc_manager.cpp:358-373 | the check passes for a PG read in an earlier incarnation if and only if the PG has been created again since and is alive |
| GcDrain.StaleTask | src/lib/homestore_backend/gc_manager.cpp:358-373 | a destroy, drain and create between read and count let such a task through |
| CopyBudget.CopyBlobs | src/lib/homestore_backend/gc_manager.cpp:834-850 | whether a shard has live blobs, and the blocks they take |
| CopyBudget.CopyValidData | src/lib/homestore_backend/gc_manager.cpp:681-1000 | refused exactly for a normal GC with an open last shard or at the first failing shard; otherwise the blocks taken are those of headers, live blobs and footers, and never more than those |
| CopyBudget.BlocksBalance | src/lib/homestore_backend/gc_manager.cpp:681-1000 | old blocks plus missing headers and footers equal copied blocks plus blocks gained |
| CopyBudget.CopyFits | src/lib/homestore_backend/gc_manager.cpp:1363-1370 | with headers and footers in place the copy fits and the unsigned reclaimed count is the blocks gained |
| CopyBudget.CopyFitsExactly | src/lib/homestore_backend/hs_pg_manager.cpp:1366-1375 | the copy takes no more blocks if and only if the gained blocks cover the missing headers and footers |
| CopyBudget.ResyncedShardWraps | src/lib/homestore_backend/snapshot_receive_handler.cpp:93-141 | a sealed shard received by resync has a header and no footer, so its copy is a block longer and the reclaimed count wraps |
| CopyBudget.OpenShardInMiddleWraps | src/lib/homestore_backend/gc_manager.cpp:960-966 | an open shard in the middle and no garbage make the reclaimed count wrap; how a chunk comes to that is in ShardLifecycle |
| ChunkSelector.TakenOk | src/lib/homestore_backend/heap_chunk_selector.cpp:109-151 | taking an available chunk keeps owners, tags and states consistent |
| ChunkSelector.TakenExact | src/lib/homestore_backend/heap_chunk_selector.cpp:131-135 | taking a chunk keeps both counters of every PG exact |
| ChunkSelector.ReturnedOk | src/lib/homestore_backend/heap_chunk_selector.cpp:159-181 | releasing a chunk keeps owners, tags and states consistent |
| ChunkSelector.ReturnedExact | src/lib/homestore_backend/heap_chunk_selector.cpp:175-179 | releasing a chunk keeps both counters of every PG exact |
| ChunkSelector.MarkedOk | src/lib/homestore_backend/heap_chunk_selector.cpp:70-92 | marking a PG chunk for GC keeps owners, tags and states consistent |
| ChunkSelector.MarkedExact | src/lib/homestore_backend/heap_chunk_selector.cpp:70-92 | a chunk marked while available stays counted, one marked while in use stays uncounted |
| ChunkSelector.UnmarkOk | src/lib/homestore_backend/heap_chunk_selector.cpp:94-107 | a failed GC keeps owners, tags and states consistent |
| ChunkSelector.UnmarkExact | src/lib/homestore_backend/heap_chunk_selector.cpp:94-107 | a failed GC leaves the chunk count exact if and only if it restores the state the chunk had |
| ChunkSelector.SwitchOk | src/lib/homestore_backend/heap_chunk_selector.cpp:358-408 | switching a slot swaps the owners of the two chunks and nothing else |
| ChunkSelector.SwitchExact | src/lib/homestore_backend/heap_chunk_selector.cpp:358-408 | the switch keeps the chunk count exact, and the block count if and only if the slot is counted or the two chunks have the same room |
| ChunkSelector.FinishOk | src/lib/homestore_backend/heap_chunk_selector.cpp:318-356 | moving the tag ends the window in which slot and tag disagree |
| ChunkSelector.FinishExact | src/lib/homestore_backend/heap_chunk_selector.cpp:318-356 | the end of a GC leaves the chunk count exact if and only if the final state matches the state before |
| ChunkSelector.AppendExact | src/lib/homestore_backend/heap_chunk_selector.cpp:48-68 | blocks appended to chunks in use or reserved leave every counter as exact as it was |
| ChunkSelector.PurgeOk | src/lib/homestore_backend/gc_manager.cpp:1059-1080 | resetting a reserved chunk keeps owners, tags and states consistent |
| ChunkGrants.GrantsOk | src/lib/homestore_backend/heap_chunk_selector.cpp:294-313 | a PG made of chunks popped off a heap has consistent owners and exact counters |
| ChunkGrants.HeapFits | src/lib/homestore_backend/heap_chunk_selector.cpp:297-298 | distinct ids below a limit, one of them elsewhere, make a heap shorter than the limit |
| ChunkGrants.DestroyedOk | src/lib/homestore_backend/heap_chunk_selector.cpp:183-230 | destroying a PG with no GC task returns its chunks empty, available and untagged to the heap of their device |
| HeapSelector.HeapsReady | src/lib/homestore_backend/heap_chunk_selector.cpp:297-303 | heap chunks are empty and available, so the two asserts never fire, and a heap has at most 65535 chunks, so the 16-bit loop ends |
| HeapSelector.Top | src/lib/homestore_backend/heap_chunk_selector.cpp:299-299 | the heap's top has the most free blocks |
| HeapSelector.MostAvailableDev | src/lib/homestore_backend/heap_chunk_selector.cpp:278-284 | the chosen device has the longest heap |
| HeapSelector.MostAvailable | src/lib/homestore_backend/heap_chunk_selector.cpp:523-528 | the scan with the non-strict comparator ends on an available chunk with the most free blocks if and only if one is available |
| HeapSelector.HeapChunkSelector.constructor | src/lib/homestore_backend/heap_chunk_selector.cpp:410-492 | start-up from superblocks, reserved records and open shards: every chunk has one owner and every counter is exact; each PG has the array of its superblock, the chunk of a slot is in use if and only if the slot has an open shard and available otherwise, reserved chunks are in state GC, every other chunk is on the heap of its device, and no chunk changes size or content |
| HeapSelector.HeapChunkSelector.SelectSpecificChunk | src/lib/homestore_backend/heap_chunk_selector.cpp:109-151 | missing exactly for an unknown slot, to be waited for exactly when the chunk is under GC, otherwise the slot's chunk, in use afterwards; no other chunk changes, one owner per chunk and exact counters are kept |
| HeapSelector.HeapChunkSelector.ReleaseChunk | src/lib/homestore_backend/heap_chunk_selector.cpp:159-181 | a chunk in use is available afterwards, any other state is left alone, false exactly for an unknown slot; one owner per chunk and exact counters are kept |
| HeapSelector.HeapChunkSelector.TryMarkChunkToGc | src/lib/homestore_backend/heap_chunk_selector.cpp:70-92 | refused exactly when the chunk is unknown, under GC, or in use and not forced; otherwise it is under GC with a task for its slot; one owner per chunk is kept if and only if the chunk is not on a device heap, and exact counters with it |
| HeapSelector.HeapChunkSelector.MarkOutOfGc | src/lib/homestore_backend/heap_chunk_selector.cpp:94-107 | the chunk has the final state, its slot has no task, and one owner per chunk is kept; counters stay exact when the state is the one it had |
| HeapSelector.HeapChunkSelector.SwitchChunksForPg | src/lib/homestore_backend/heap_chunk_selector.cpp:358-408 | the slot points to the receiving chunk, the replaced one is reserved, every other slot and owner is kept, a second switch changes nothing; chunk counters stay exact, block counters for normal GC |
| HeapSelector.HeapChunkSelector.UpdateAfterGc | src/lib/homestore_backend/heap_chunk_selector.cpp:318-356 | the slot's chunk has the slot's tag and the final state, the replaced one is untagged in the reserved pool, the slot has no task, other chunks are kept, and one owner per chunk |
| HeapSelector.HeapChunkSelector.GetMostAvailableChunk | src/lib/homestore_backend/heap_chunk_selector.cpp:513-539 | none if and only if no chunk of the PG is available; otherwise one with the most room is taken, and the invariant and exact counters are kept |
| HeapSelector.HeapChunkSelector.SelectChunksForPg | src/lib/homestore_backend/heap_chunk_selector.cpp:262-316 | a PG is created if and only if the size is a chunk or more and some heap is long enough; its array is the chunks taken off the longest heap, which keeps the others, its counters are exact, of all chunks only their tags change, and nothing changes otherwise |
| HeapSelector.HeapChunkSelector.GrantMany | src/lib/homestore_backend/heap_chunk_selector.cpp:297-313 | the 16-bit loop ends with as many chunks as asked for |
| HeapSelector.HeapChunkSelector.GrantTop | src/lib/homestore_backend/heap_chunk_selector.cpp:298-312 | one chunk leaves the heap and becomes the next slot; both sanity checks pass |
| HeapSelector.HeapChunkSelector.DestroyPg | src/lib/homestore_backend/heap_chunk_selector.cpp:183-230 | false exactly for an unknown PG; otherwise the PG is gone, its chunks are empty on the heap of their device, all other chunks are as before, and one owner per chunk and exact counters of the other PGs are kept |
| SelectorRuns.StepOk | src/lib/homestore_backend/heap_chunk_selector.cpp:70-408 | every selector operation, and the reset of a reserved chunk before a GC uses it, keeps the ownership invariant |
| SelectorRuns.RunOk | src/lib/homestore_backend/heap_chunk_selector.cpp:70-408 | the ownership invariant holds in every state of every run |
| SelectorRuns.StepReserved | src/lib/homestore_backend/heap_chunk_selector.cpp:358-408 | only a switch changes the set of reserved chunks, and it swaps one for another |
| SelectorRuns.RunReserved | src/lib/homestore_backend/heap_chunk_selector.cpp:358-408 | the number of reserved chunks is the same in every state of every run, so none leaks |
| SelectorRuns.OneOwner | src/lib/homestore_backend/heap_chunk_selector.cpp:183-408 | in every run a chunk is on the heap of its device and no other, in exactly one slot, or in the reserved set, whose size never changes |
| SelectorRuns.RunExact | src/lib/homestore_backend/heap_chunk_selector.cpp:70-408 | chunk counters are exact in every run whose GCs restore the chunk's state; with normal GC only, block counters too |
| SelectorRuns.RunBlocks | src/lib/homestore_backend/heap_chunk_selector.cpp:183-230 | in every run a chunk keeps its size, and the blocks taken in it are those appended since it was purged or its PG destroyed |
| SelectorRuns.SelectThenRelease | src/lib/homestore_backend/heap_chunk_selector.cpp:109-181 | taking an available chunk and giving it back restores the whole selector |
| SelectorRuns.MarkThenFail | src/lib/homestore_backend/heap_chunk_selector.cpp:70-107 | marking a chunk for a GC that fails and restores its state restores the whole selector |
| SelectorRuns.EmergentGcMiscounts | src/lib/homestore_backend/heap_chunk_selector.cpp:400-407 | a PG with one chunk in use, marked by force and switched to a chunk with more room: the exact block count is lost |
| SelectorBoot.CheckChunks | src/lib/homestore_backend/heap_chunk_selector.cpp:412-440 | a PG's chunk list is accepted if and only if the PG is new, the list is not empty, and its chunks exist on one device |
| SelectorBoot.TagChunks | src/lib/homestore_backend/heap_chunk_selector.cpp:442-453 | slot v's chunk is tagged with v |
| SelectorBoot.RecoverPgBoots | src/lib/homestore_backend/heap_chunk_selector.cpp:410-455 | reading the superblock of a PG, whatever its chunks hold, keeps what the rest of start-up relies on |
| SelectorBoot.ReserveBoots | src/lib/homestore_backend/gc_manager.cpp:342-350 | reading a reserved record, whatever the chunk holds, keeps what the rest of start-up relies on |
| SelectorBoot.BuildHeap | src/lib/homestore_backend/heap_chunk_selector.cpp:457-464 | the heaps hold exactly the chunks nobody claims, each on its device, once |
| SelectorBoot.BuiltOk | src/lib/homestore_backend/heap_chunk_selector.cpp:457-464 | after the heaps are built every chunk has exactly one owner, provided that no chunk nobody claims holds data |
| SelectorBoot.RecoverStates | src/lib/homestore_backend/heap_chunk_selector.cpp:466-492 | chunks of open shards are in use, the others available, and both counters are the sums over the latter |
| SelectorBoot.RestartedOk | src/lib/homestore_backend/heap_chunk_selector.cpp:466-492 | recovered states keep the owners and the recovered counters of the PG are exact |
| SelectorBoot.RestartOthers | src/lib/homestore_backend/heap_chunk_selector.cpp:466-492 | recovering one PG leaves the counters of every other PG as exact as they were |
| SelectorBoot.StartUpOk | src/lib/homestore_backend/heap_chunk_selector.cpp:410-492 | after superblocks, reserved records, heaps and states: one owner per chunk and exact counters in every PG |
| SelectorBoot.StartUp | src/lib/homestore_backend/heap_chunk_selector.cpp:410-492 | the loops of start-up, in the order of the source, end in such a selector, with the arrays, states, reserved chunks and heaps the superblocks and open shards give |
| ShardLifecycle.StepInv | src/lib/homestore_backend/hs_shard_manager.cpp:332-480 | a step keeps "in use if and only if held, and by one shard" if and only if it is not a second release of a chunk taken again nor a release while an emergent GC has the chunk |
| ShardLifecycle.RunInv | src/lib/homestore_backend/hs_shard_manager.cpp:332-595 | along a run "in use if and only if held" holds in every state if and only if every step is careful |
| ShardLifecycle.StepHeld | src/lib/homestore_backend/hs_shard_manager.cpp:332-595 | a step, releases during an emergent GC included, keeps "every holder has a busy chunk, and no chunk two holders" if and only if it is not a second release of a chunk in use that somebody holds |
| ShardLifecycle.RunHeld | src/lib/homestore_backend/hs_shard_manager.cpp:332-595 | along a run that holds in every state if and only if every second release spares the holder |
| ShardLifecycle.OneHolder | src/lib/homestore_backend/hs_shard_manager.cpp:332-595 | in every run whose second releases spare the holder, emergent GCs at any time, a virtual chunk is held by at most one shard not yet sealed, and is then in use or under an emergent GC |
| ShardLifecycle.ReleaseInGc | src/lib/homestore_backend/hs_shard_manager.cpp:577-582 | the release at a seal commit or at the end of a failed create keeps chunks and holders together if and only if no emergent GC has the chunk |
| ShardLifecycle.SealInGcLeaks | src/lib/homestore_backend/heap_chunk_selector.cpp:174-179 | a seal commit during an emergent GC leaves a chunk in use that nobody holds |
| ShardLifecycle.SealedUnderGcReached | src/lib/homestore_backend/hs_shard_manager.cpp:577-582 | the run from the start into the state in which that happens |
| ShardLifecycle.SecondRelease | src/lib/homestore_backend/replication_state_machine.cpp:183-188 | the second release of a failed create is harmless if and only if the chunk is not in use by then |
| ShardLifecycle.DoubleReleaseShares | src/lib/homestore_backend/hs_shard_manager.cpp:219-226 | a run from the start: with a create between the two releases two shards hold one chunk, and the committed log no longer alternates |
| ShardLifecycle.OpenBeforeSealed | src/lib/homestore_backend/hs_shard_manager.cpp:160-165 | a run in which a chunk holds an open shard and a sealed one with a larger id, since ids are drawn before chunks |
| ShardLifecycle.CommittedLogAlternates | src/lib/homestore_backend/hs_shard_manager.cpp:482-599 | in the same runs committed creates and seals alternate on every chunk, so a replica applying them never creates a shard on a held chunk |
| ShardHistory.ShardsFollowRun | src/lib/homestore_backend/hs_shard_manager.cpp:332-599 | in every run a shard exists if and only if its create was committed, in the chunk it was proposed for; it is sealed if and only if its last seal step is a pre-commit, and done if and only if that seal was committed |
| ShardHistory.LogFollowsRun | src/lib/homestore_backend/hs_shard_manager.cpp:482-599 | the committed log is the commits of the run in order, each with the chunk its shard was proposed for |
| ShardHistory.GcFollowsRun | src/lib/homestore_backend/heap_chunk_selector.cpp:70-102 | in every run a chunk is in state GC if and only if a GC of it, normal or emergent, has started and not ended |
| ShardRestart.SbsReplayed | src/lib/homestore_backend/hs_shard_manager.cpp:482-599 | superblocks of any durable part of the log, replayed from any earlier message on, become those of the whole log |
| ShardRestart.MarkOpen | src/lib/homestore_backend/replication_state_machine.cpp:1036-1046 | the loop takes exactly the available chunks of open shards |
| ShardRestart.RestartOpens | src/lib/homestore_backend/replication_state_machine.cpp:992-1046 | whatever part of the log is durable and wherever the replay starts, a chunk ends in use if and only if a shard of the log is open in it |
| ShardRestart.Restart | src/lib/homestore_backend/replication_state_machine.cpp:992-1046 | replay and the marking loop give those states |
| ShardRestart.RestartedChunks | src/lib/homestore_backend/replication_state_machine.cpp:992-1046 | after any run of any steps, a crash and a restart: a chunk is in use if and only if a shard created and not sealed has it, whatever leaked or was shared before |
| ShardRestart.MarkedTooEarly | src/lib/homestore_backend/replication_state_machine.cpp:998-1006 | without the marking after the replay an old seal leaves an open shard in an available chunk |
| ResyncLeader.PgBlobIterator.constructor | src/lib/homestore_backend/pg_blob_iterator.cpp:14-37 | the shards known at the snapshot, each once, in (virtual chunk, lsn) order |
| ResyncLeader.SortShards | src/lib/homestore_backend/pg_blob_iterator.cpp:33-35 | sorted and a permutation |
| ResyncLeader.SortPutsOpenLast | src/lib/homestore_backend/pg_blob_iterator.cpp:32-35 | the order puts an open shard after every other shard of its chunk |
| ResyncLeader.PgBlobIterator.UpdateCursor | src/lib/homestore_backend/pg_blob_iterator.cpp:40-98 | which ids are accepted (resend, resume, next batch, next shard, end) and the cursor after each |
| ResyncLeader.PgBlobIterator.Reset | src/lib/homestore_backend/pg_blob_iterator.cpp:100-113 | after a reset the PG meta message and the start of every shard are accepted, each at its place, and no batch is; the blob list is kept |
| ResyncReceiver.SnapshotReceiver.GetNextShard | src/lib/homestore_backend/snapshot_receive_handler.cpp:440-454 | the scan finds the shard after the cursor, the end marker, or nothing |
| ResyncReceiver.SnapshotReceiver.Wait | src/lib/homestore_backend/snapshot_receive_handler.cpp:456-507 | no write is pending, the waited cursor is durable and every shard before it durably complete, and the resync invariant holds |
| ResyncReceiver.SnapshotReceiver.UpdateSnpInfo | src/lib/homestore_backend/snapshot_receive_handler.cpp:456-514 | after a complete shard the records exist or are due, the end marker is durable at once, and the resync invariant holds |
| ResyncReceiver.SnapshotReceiver.ProcessShard | src/lib/homestore_backend/snapshot_receive_handler.cpp:72-145 | the first batch is asked for exactly when chunk, write and record all succeed; the shard is then known in its chunk, which is in use, and if it is new with the open flag that was sent; no known shard is overwritten, and the resync invariant holds after every outcome |
| ResyncReceiver.SnapshotReceiver.StoreBlobs | src/lib/homestore_backend/snapshot_receive_handler.cpp:188-335 | exactly the blobs not yet indexed before the first corrupt one or one without room, whose write and commit succeed, are stored; the batch succeeds if and only if none of the new blobs is corrupt, without room or failing to write |
| ResyncReceiver.SnapshotReceiver.ProcessBlobs | src/lib/homestore_backend/snapshot_receive_handler.cpp:159-363 | another object is asked for if and only if no new blob is corrupt, without room or failing to write; the resync invariant holds after every outcome without failed commits; a last batch makes the shard complete if and only if no failed commit was of a blob that stays live |
| ResyncInvariant.CrashInv | src/lib/homestore_backend/snapshot_receive_handler.cpp:368-401 | what a follower crash leaves keeps the resync invariant |
| ResyncInvariant.RestartLeaderInv | src/lib/homestore_backend/replication_state_machine.cpp:342-360 | a fresh iterator, with shards sealed since, keeps the resync invariant |
| ResyncSteps.PgMetaInv | src/lib/homestore_backend/replication_state_machine.cpp:483-521 | the PG meta message, resumed or started over, keeps the resync invariant |
| ResyncSteps.ShardMetaInv | src/lib/homestore_backend/snapshot_receive_handler.cpp:72-145 | the shard meta message, new, resent or failed, keeps the resync invariant |
| ResyncSteps.BatchInv | src/lib/homestore_backend/snapshot_receive_handler.cpp:159-363 | a blob batch, new, resent, partly failed or last, keeps the resync invariant |
| ResyncTheorems.MessagesAreHandled | src/lib/homestore_backend/replication_state_machine.cpp:527-545 | for every message of a run the object id is valid and the release asserts hold |
| ResyncTheorems.StepInv | src/lib/homestore_backend/replication_state_machine.cpp:342-584 | every exchange, loss, failure, checkpoint, crash and restart keeps the resync invariant |
| ResyncTheorems.RequestsAccepted | src/lib/homestore_backend/pg_blob_iterator.cpp:40-130 | every object id the follower asks for is accepted by the leader's cursor |
| ResyncTheorems.FinishedComplete | src/lib/homestore_backend/snapshot_receive_handler.cpp:159-363 | when the follower asks for the end, its index holds every blob that stayed live, nothing never listed, and each blob once |
| ResyncTheorems.FinishedExact | src/lib/homestore_backend/replication_state_machine.cpp:428-584 | when the leader's lists do not change, the follower ends with exactly the listed blobs |
| ResyncTheorems.DurableCursor | src/lib/homestore_backend/snapshot_receive_handler.cpp:456-514 | every shard before the durable cursor is durably complete, in every state |
| ResyncTheorems.CrashResumes | src/lib/homestore_backend/replication_state_machine.cpp:483-495 | the PG meta message resumes at the durable cursor, and nothing before it is lost |
| ResyncTheorems.CrashLeaves | src/lib/homestore_backend/hs_homeobject.cpp:264-370 | a crash leaves the shard records, exactly the blobs of the last checkpoint, each stored once, and exactly the chunks of open shards in use |
| ResyncTheorems.FinishedChunks | src/lib/homestore_backend/snapshot_receive_handler.cpp:342-352 | a finished resync leaves a chunk in use if and only if the follower has an open shard in it; which shards those are is ResyncShards.FinishedShards |
| ResyncShards.RecordsAsSent | src/lib/homestore_backend/snapshot_receive_handler.cpp:72-141 | in every state of a resync the shard records are exactly the entries sent since the PG was last thrown away, chunk and open flag, and each is the entry the leader lists now except that the leader may have sealed the shard since |
| ResyncShards.FinishedShards | src/lib/homestore_backend/snapshot_receive_handler.cpp:72-363 | a finished resync has a record of every listed shard with its chunk and the open flag that was sent, and a chunk is in use if and only if a shard sent for it was open |
| ResyncShards.FinishedAsListed | src/lib/homestore_backend/snapshot_receive_handler.cpp:72-363 | when the leader is not restarted meanwhile, the records have the open flags of the list and exactly the chunks of its open shards are in use |
| ResyncTheorems.ReloadAccepts | src/lib/homestore_backend/snapshot_receive_handler.cpp:418-434 | exactly which object ids a reloaded context accepts |
| ResyncTheorems.DirectRestartSkips | src/lib/homestore_backend/snapshot_receive_handler.cpp:418-434 | whatever data message is accepted first after a restart without PG meta, everything before the next object is complete if and only if the message is for the cursor's own shard or that shard was durably complete at the crash |
| ResyncTheorems.DroppingNone | src/lib/homestore_backend/snapshot_receive_handler.cpp:286-312 | failed commits matter only for blobs the index does not have |
| ResyncTheorems.DroppedCommits | src/lib/homestore_backend/snapshot_receive_handler.cpp:286-312 | a last batch whose commits fail still moves the follower on; the shard is complete if and only if no failed commit was of a blob that stays live |
| ResyncSkip.SecondDoneInv | src/lib/homestore_backend/snapshot_receive_handler.cpp:456-514 | a run, step by step, into a state with a shard complete in memory and its cursor write pending |
| ResyncSkip.DirectRestartLosesBlob | src/lib/homestore_backend/snapshot_receive_handler.cpp:429-430 | from that state a restart without PG meta loses a blob |
| ResyncSkip.FailedCommitLosesBlob | src/lib/homestore_backend/snapshot_receive_handler.cpp:294-306 | a reached state in which one failed commit loses a blob |
| ResyncProgress.SomeLists | src/lib/homestore_backend/pg_blob_iterator.cpp:189-206 | in every state there are blob lists the index may give, so the result below is about some run |
| ResyncProgress.FreshFinishes | src/lib/homestore_backend/pg_blob_iterator.cpp:265-421 | with batches cut by the size limit and a prefetch window, exchanges without failures from a fresh iterator finish the resync, whatever the index lists and the blob sizes are |
| ResyncProgress.ResyncCanFinish | src/lib/homestore_backend/replication_state_machine.cpp:342-584 | from every state of every run, with any window left over, a fresh iterator followed by exchanges without failures finishes the resync |
| BlobBatches.ScanWindow | src/lib/homestore_backend/pg_blob_iterator.cpp:265-290 | prefetching extends the window to two batches or to the end of the list |
| BlobBatches.WindowCovers | src/lib/homestore_backend/pg_blob_iterator.cpp:338-395 | a full window covers the next batch |
| BlobBatches.BatchBuilder.Prefetch | src/lib/homestore_backend/pg_blob_iterator.cpp:265-336 | what is held and in flight after the prefetch loop |
| BlobBatches.TakeBatch | src/lib/homestore_backend/pg_blob_iterator.cpp:356-396 | the batch is built if and only if all its live blobs are held; its ids in order and its bytes |
| BlobBatches.BatchBuilder.CreateBatch | src/lib/homestore_backend/pg_blob_iterator.cpp:338-421 | the batch, its last flag, and what stays held and in flight |
| BlobBatches.BatchBuilder.NextBatch | src/lib/homestore_backend/pg_blob_iterator.cpp:338-421 | from a window at its start a batch never fails, and is full unless it is the last |
| BlobBatches.BatchBuilder.SendShard | src/lib/homestore_backend/pg_blob_iterator.cpp:265-421 | the batches concatenate to the live blobs in order, only the last is flagged, nothing stays in flight, and there are at most bytes/max + 1 |
| BlobBatches.BatchIdFits | src/lib/homestore_backend/replication_message.hpp:108-125 | the batch count fits the 15-bit batch id for shards below 32767 batch sizes |
| BlobBatches.ResendSucceeds | src/lib/homestore_backend/pg_blob_iterator.cpp:274-290 | a batch can be built again if and only if it is empty or the bytes in flight plus those before its last blob leave room |
| BlobBatches.ResendCanFail | src/lib/homestore_backend/pg_blob_iterator.cpp:274-290 | three blobs with which the first batch cannot be built again, by the same iterator, however often it is tried |
| ObjectId.PackRoundTrip | src/lib/homestore_backend/replication_message.hpp:108-121 | packing succeeds exactly in range and unpacks to the same fields |
| ObjectId.UnpackRoundTrip | src/lib/homestore_backend/replication_message.hpp:117-121 | every value with the type bit is the packing of its fields |
| ObjectId.PackInjective | src/lib/homestore_backend/replication_message.hpp:111-116 | equal values have equal fields |
| ObjectId.PackIsLast | src/lib/homestore_backend/replication_message.hpp:111-116 | a packed id is the end marker if and only if both fields are all ones |
| BlobReplay.PgIndex.PutCommit | src/lib/homestore_backend/hs_blob_manager.cpp:214-284 | insert without overwriting, error exactly on a conflicting address, counters and sequence number only for a new blob |
| BlobReplay.PgIndex.DelCommit | src/lib/homestore_backend/hs_blob_manager.cpp:579-645 | tombstone an existing entry; exactly when it was live, one active blob less and one tombstone more |
| BlobReplay.ReplayReads | src/lib/homestore_backend/index_kv.cpp:72-96 | replaying from any position over any index at or past it, with entries moved and tombstones gone, leaves exactly the blobs alive in the log live |
| BlobReplay.ReplayReadsSame | src/lib/homestore_backend/hs_blob_manager.cpp:214-284 | every key reads as after applying the whole log once |
| BlobReplay.CountEntries | src/lib/homestore_backend/hs_pg_manager.cpp:1253-1283 | one pass counts live entries and tombstones |
| BlobReplay.PgIndex.RefreshStatistics | src/lib/homestore_backend/hs_pg_manager.cpp:1249-1310 | whatever the counters were, they match the index and the chunks afterwards |
| BlobReplay.RefreshedCountIsAlive | src/lib/homestore_backend/hs_pg_manager.cpp:1249-1310 | the live entries counted after a replay are the blobs alive in the log |
| BlobSequence.StepInv | src/lib/homestore_backend/hs_cp_callbacks.cpp:32-55 | ids stored in memory or durably stay below the matching sequence number |
| BlobSequence.CheckpointSaves | src/lib/homestore_backend/hs_cp_callbacks.cpp:32-79 | a checkpoint makes durable exactly what was applied when it began, and a crash after it comes back to that with a sequence number above every durable id |
| BlobSequence.FreshIdIsNew | src/lib/homestore_backend/hs_blob_manager.cpp:229-247 | in every run with crashes inside checkpoints, the next blob id is in neither index |
| BlobSequence.FreshIdNotLogged | src/lib/homestore_backend/hs_pg_manager.cpp:1016-1023 | once the log is applied again, the next id is above every logged one |
| BlobSequence.HandedOutOnce | src/lib/homestore_backend/hs_blob_manager.cpp:109-112 | between two crashes the ids logged by allocations ascend strictly, whatever is committed meanwhile |
| BlobSequence.HandedOutNew | src/lib/homestore_backend/hs_blob_manager.cpp:234-247 | once the log is applied again, every id handed out is above every id logged before |
| BlobSequence.ReversedOrderCollides | src/lib/homestore_backend/hs_blob_manager.cpp:229-233 | with the index written before the PG superblock, a stored id is handed out again |
| PartialRead.PadFits | src/lib/homestore_backend/hs_homeobject.cpp:489-496 | the chosen zero buffer exists and is long enough for every blob size |
| PartialRead.LayoutRoom | src/lib/homestore_backend/hs_blob_manager.cpp:160-192 | the blocks written always hold header and body |
| PartialRead.WrittenLayout | src/lib/homestore_backend/hs_blob_manager.cpp:164-192 | header, body, the rest of the aligned buffer and the zero padding fill whole blocks and hold the body behind the header |
| PartialRead.GetReturns | src/lib/homestore_backend/hs_blob_manager.cpp:355-391 | a get with verification fails if and only if offset plus length exceed the blob; otherwise it returns the bytes asked for, to the end of the blob for length 0, with the user key and object offset of the put |
| PartialRead.PutThenGet | src/lib/homestore_backend/hs_blob_manager.cpp:164-391 | a get of the blocks a put wrote returns the body, and for a range within it that range |
| PartialRead.PartialSkipsData | src/lib/homestore_backend/hs_blob_manager.cpp:346-353 | the partial path is taken if and only if it is allowed, the length is known, and a data block at the beginning or the end of the blob stays unread |
| PartialRead.PartialStaysInside | src/lib/homestore_backend/hs_blob_manager.cpp:394-418 | the blocks asked for are the blob's own if and only if the range ends within them |
| PartialRead.PartialIsFull | src/lib/homestore_backend/hs_blob_manager.cpp:394-451 | within the blob both reads succeed with the same bytes |
| PartialRead.PartialPathVisible | src/lib/homestore_backend/hs_blob_manager.cpp:339-451 | allowing the partial path leaves the answer as it is if and only if the path is not taken, or the range ends within the blob and the blob has neither user key nor object offset |
| PartialRead.PartialReadsPastEnd | src/lib/homestore_backend/hs_blob_manager.cpp:350-353 | a blob and a range the full read refuses and the partial read answers |
| PartialRead.PartialLosesKey | src/lib/homestore_backend/hs_blob_manager.cpp:448-449 | a blob with a user key, read within its size, whose key the partial answer loses |
| PartialRead.RangeCheckExact | src/lib/homestore_backend/hs_blob_manager.cpp:374-379 | the 64-bit check tells whether the range ends within the blob if and only if the sum does not wrap round to a value within it |
| PartialRead.GuardExact | src/lib/homestore_backend/hs_blob_manager.cpp:350-353 | the 64-bit guard picks the path of the exact one if and only if its sum does not wrap round to a value it admits |
| PartialRead.ModerateRequests | src/lib/homestore_backend/hs_blob_manager.cpp:350-379 | for offsets and lengths below half the 64-bit range guard and check are exact |

## Left out

- HomeStore, NuRaft, the B-tree and the block allocator: the index is a map, a checkpoint a snapshot, a chunk an append-only run of blocks.
- HTTP, metrics, logging, fault injection, flatbuffer and JSON encoding.
- CRC and hash computation; messages that arrive are intact.
- Resync progress counters, which retries do not conserve.
- Resync after the leader rejects an id other than PG meta, and prefetching after read errors: both depend on timeouts.
- Device discovery, formatting, disk failure, shutdown and thread pools.
- The memory backend and the thin managers in src/lib.
- Member replacement, error-code translation, no-space-left bookkeeping and the rate limiter.
- Migration of old shard superblocks.
- ShardRestart.Restart: chunks in the hands of a recovered GC task are not among its chunks; those tasks end before the replay (hs_homeobject.cpp:364-375).
- Creating and destroying PGs inside GcMachine: its set of slots is fixed.
- Rollback of log entries and log truncation in GcMachine.
- GcMachine.Query: the header and footer blocks of a copied shard are any blocks, written when the shard is listed; how many the code writes is in CopyBudget.
- Order and capacity of the reserved-chunk queue: GcPool has it as a set.
- The GC statistics that the checkpoint callback also writes.
- CopyBudget.CopyValidData: counts blocks only; what is copied is in GcMachine.
- ResyncReceiver.SnapshotReceiver.ProcessBlobs: the writes still in flight when a corrupt blob ends the loop have landed or failed by the time it returns.
- GcActor.PdevGcActor.PurgeReservedChunk: results of the index removal and of the query are parameters; the release asserts on tag and state of the chunk are what GcTheorems.PurgeIsSafe and the Reserved case of ChunkSelector.PurgeOk stand for.
- BlobSequence.FreshIdIsNew: does not separate the index insertion from the raising of the sequence number.
- PartialRead.PartialPathVisible: for an intact blob, since the partial read also skips the verification of the hash; on unbounded sums; PartialRead.ModerateRequests says for which requests the 64-bit ones agree.
- PartialRead.PartialIsFull: block numbers are unbounded; ranges within a blob never reach the 32-bit limits of the source.
- HeapSelector.HeapChunkSelector.SelectChunksForPg: for an existing PG the sizes have to agree, which the source asserts; chunk ids have 16 bits and at least one chunk is reserved.
- ResyncProgress.ResyncCanFinish: what a failed attempt to build a batch does to the window is not modelled; the windows it starts from are any.
