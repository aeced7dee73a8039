# MIXDK's buffered store, modelled and verified in Dafny

MIXDK puts a small NVM write buffer in front of an SSD. The buffer has several segments. Each has a
chained hash index, a bitmap of its slots, a used count, and slots whose headers say which block they
hold. A request is cut at stripe boundaries; a piece of one block is written to the buffer (a *small*
write), a longer piece goes to the SSD through the segment's queue and is cleared from the buffer (a
*large* write), and reads take buffered blocks from the buffer and the runs between them from the SSD.
When a segment is full, a pool of threads migrates it to the SSD. After a restart the index is rebuilt
from the slot headers.

The central claim is that all this is, for its callers, just an array of blocks. The project proves it
in two layers that meet in the same values.

**The system as transition systems** (all interleavings, any number of segments, slots, threads,
buckets, blocks, requests and steps):

- `Overlay*.dfy`: the whole store. Per segment an NVM worker, its metadata, slots and headers, its SSD
  queue and its SSD worker; one SSD below; migration steps; power failure at any point. `Overlay` has
  the steps, `OverlayInvariant` the invariant, `OverlaySteps`, `OverlayWrites`, `OverlayMigration`,
  `OverlayReads`, `OverlaySsd` and `OverlayOrigins` show what each kind of step keeps, `OverlaySafety`
  puts them together, and `OverlayResults` draws the conclusions for readers and writers.
  `OverlayCrash` says what power failure costs, `OverlayCredits` follows the accounting of reads
  through every run of the code, faults included, `OverlayProgress` shows that queues can be worked off,
  reads completed and workers brought to the end of what they do, and `OverlayTraces` has the runs of
  the code, from a formatted store, that go wrong.
- `Barrier.dfy`: the migration round of src/mix_meta.c as a concurrent protocol: a coordinator, N
  threads with program counters, strided buckets, a completion counter, one flag for each thread;
  `BarrierProgress.dfy` shows when a round can come to its end.
- `Spsc.dfy`: the ring queue with its producer and consumer running at the same time.

**The code's operations, in place** (classes whose methods have the code's branches and loops, proved
against functions on values):

- `ChainedHash.dfy` over `Chains.dfy` (mix_hash.c), `Bitmap.dfy` (mix_bitmap.c), `SegmentMeta.dfy` over
  `Metadata.dfy` (mix_meta.c), `NvmWorker.dfy` over `Redirect.dfy` and `Drain.dfy` (nvm_worker.c),
  `SsdWorker.dfy` (ssd_worker.c), `Splitter.dfy` (mix_post_task_to_buffer), `RingQueue.dfy` over
  `Counters.dfy` (mix_queue.c), `BloomFilter.dfy` (mix_bloom_filter.c).

`Metadata` is where the layers meet: the transition system moves by its functions, and the methods of
`SegmentMeta` and `NvmWorker` are proved to compute them.

## Where the code misses its purpose

The code departs from what its documentation and its own comments intend in several places. The model
keeps the code. For each deviation there is the exact condition, on the state before the step, under
which the code is right, and a run of the code that ends badly without it. A `Variant` says, flag by
flag, whether one of four expressions of the store is taken as written or repaired, so the same theorems
cover both; with all four repaired no condition is left but the one on large writes and power failure.

The transition system of the store ends a migration round only when the index is empty, nothing is held
and the count is 0: this is what the coordinator's wait is for, and it is taken over from `Barrier`, where
`Barrier.WaitIsSafe` proves it of every run of the code, with the counter bumped before the flag is
lowered. So that order costs no content, only the end of a wait; no lemma maps the runs of the one system
onto those of the other.

- src/mix_meta.c:174-178 looks at bit `(value - idx) / 4` instead of bit `value` and does not enter the
  block in the index when that bit was clear. `Metadata.ReserveExact` says when this is harmless,
  `OverlayTraces.LostSmallWrite` runs into a small write that no read finds, and
  `OverlayTraces.NextWriteHangs` into the next one, whose search for a free slot (src/mix_bitmap.c:67-69)
  does not end.
- src/mix_meta.c:207-209 returns at the first block that is not buffered, where ReadMe.md:17 has every
  duplicate cleared. `Metadata.ClearRangeExact`: right if and only if the buffered blocks come first.
  `OverlayTraces.PartlyBuffered` runs into a large write that is read at its first block only.
- src/mix_meta.c:61 migrates with the bare slot number, while writes and reads add the segment's base
  (src/nvm_worker.c:129, src/nvm_worker.c:175). `Drain.BareSlotExact`: right for all contents if and
  only if the segment starts at slot 0 or is empty; in a run it is never right elsewhere
  (`OverlayOrigins.OtherSlotDiffers`). `OverlayTraces.MissingBase` is such a run.
- src/nvm_worker.c:193 waits for a flag that only the consumer writes (src/ssd_worker.c:52-61).
  A round that begins while no pending task covers a buffered block changes no view
  (`OverlayResults.MigrationKeepsView`); one that begins while a pending write covers one gives that
  block back an older content (`OverlayTraces.DrainHarms`), and `OverlayTraces.StaleFlag` gets there.
- src/mix_meta.c:68-69 counts a thread before lowering its flag. `Barrier.WaitIsSafe`: the wait still ends
  in the right state only; but it may not end. `Barrier.StepExact` says which raising of a flag is
  harmless, `Barrier.LostWakeup` runs into a round that never ends, with any number of threads,
  segments and buckets, and `BarrierProgress.WaitExact`: a round can end if and only if no wake-up is lost.
- src/nvm_worker.c:178-179 clears slots when the overwriting task is queued, not when it is executed.
  While the store runs this is sound; `OverlayCrash.CrashStepExact` says exactly which steps leave a
  completed write exposed to a power failure and which end that, `OverlayTraces.ClearedFirst` and
  `OverlayTraces.StoredFirst` lose one.
- src/nvm.c:166-175 stores a header's status word before its block number: `Metadata.TornHeaderExact`.
- src/nvm_worker.c:391-394 clears all headers before the workers rebuild from them:
  `Metadata.WipeThenRebuildExact`.
- src/mix_bitmap.c:59-60 advances the search position with `/` where the search wraps with `%`. The
  search is right from any position, so this only makes every search start at bit 0 or 1;
  `Bitmap.MixBitmap.NextZeroBit` keeps it as it is.
- src/mix_hash.c:219 lowers a bucket's length even when the key was not there:
  `ChainedHash.MixHash.Delete` says that this spoils the length exactly then.
- src/mix_bitmap.c:143-146 leaves a full 4-bit counter as it is: `BloomFilter.AddExact` and
  `BloomFilter.OverflowExact`.

## Model

| member | source | states |
|---|---|---|
| OverlaySafety.StepExact | src/nvm_worker.c:108-206 | For every state that keeps the invariant, and RunOrigin as all states of runs do, a step of any thread keeps the invariant if and only if its condition Benign holds, a guard on the state before the step: the allocator's search position and bits for a new small write, no pending task over a buffered block for the start of a round, the segment's own base for a copy, no buffered block behind an unbuffered one for the clearing loop, and nothing for all other steps. |
| OverlaySafety.ReachedExact | src/nvm_worker.c:216-284 | In every state reached from a formatted store by such steps, the invariant holds and the next step keeps it if and only if its condition holds. |
| OverlaySafety.StepSafe | src/nvm_worker.c:108-206 | Every step that meets its condition keeps the invariant: routing, index, bitmap, headers, queues, pending writes in order, promises to reads. |
| OverlaySafety.RunSafe | src/nvm_worker.c:216-284 | Over every interleaving of any length from a formatted buffer the invariant holds, given the conditions. |
| OverlaySafety.RunOrigin | src/nvm_worker.c:216-284 | In every run of the code, conditions or not, content of one write is in the slots of one segment only. |
| OverlayOrigins.OtherSlotDiffers | src/mix_meta.c:61-61 | So a round that addresses another segment's slot never copies the block's own content. |
| OverlaySafety.RepairedRun | src/nvm_worker.c:216-284 | With the four expressions of the store repaired every step of every run meets its condition; that a round ends only when it is complete is the guard of EndRound, which Barrier.WaitIsSafe proves of the coordinator's wait. |
| OverlayInvariant.Formatted | src/nvm_worker.c:323-343 | For every configuration and SSD content there is a formatted state, and its view is that content. |
| OverlayInvariant.InitInv | src/nvm_worker.c:323-343 | A formatted buffer over any SSD content satisfies the invariant. |
| OverlayInvariant.ViewIs | src/nvm_worker.c:108-139 | What a reader of a block would see is the indexed slot, else the last pending SSD write over it, else the SSD; what a restart finds is the slot or the SSD. |
| OverlayResults.ViewIsArray | src/nvm_worker.c:108-182 | The view of a block is the block array's content, except for the block a worker is in the middle of writing, which shows its old or its new content. |
| OverlayResults.WriteTakesEffect | src/nvm_worker.c:153-182 | Once a write, small or large, is processed, the view of exactly its blocks is its data and all others of the segment are unchanged, whatever the other threads did meanwhile, migrations included. |
| OverlayResults.ReadReturnsView | src/nvm_worker.c:108-139 | A read copies, for every block, the view at the moment the worker accepted it, including the parts that wait in the SSD queue; when its credits reach its length all of it is copied. |
| OverlayResults.ReadAccounting | src/scheduler.c:25-29 | A read's credits reach its length exactly when each of its blocks is credited, and every credited block has been copied as promised. |
| OverlayCredits.StepAccounted | src/nvm_worker.c:108-139 | Every step of the code, whatever its conditions, keeps the balance of reads: an accepted block is in exactly one place, the scan of its worker, one queued or executing task, or the credits. |
| OverlayCredits.CreditsExact | src/ssd_worker.c:82-87 | In every run of the code as written the credits of a read never exceed its length, no block is credited twice, and the length is reached exactly when every block has been credited. |
| OverlayCredits.NoCreditLost | src/scheduler.c:25-29 | And none is lost: in every run, when nothing is pending, exactly the accepted blocks are credited, so a read accepted in full has its waiter released. |
| OverlayProgress.QueueDrains | src/ssd_worker.c:52-106 | From every state of every run, faults included, the SSD worker of a segment can work off its queue by its own steps; the SSD then has at every block the last pending write over it, or what it had. |
| OverlayProgress.ReadCompletes | src/ssd_worker.c:81-87 | From every such state a read that has been accepted in full can be completed: some continuation brings its credits to its length. |
| OverlayProgress.ReadServed | src/nvm_worker.c:108-139 | From every state of every run in which the workers are idle, a read of any blocks of the device can be served from its arrival to the release of its waiter; where the invariant holds it returns the view. |
| OverlayProgress.PieceAccepted | src/nvm_worker.c:108-139 | In every such state an idle worker can take on any piece of a request that is its own and not accepted yet, of any length, and get through it; just that piece is accepted. |
| OverlayProgress.WorkerReturns | src/nvm_worker.c:153-206 | In every state that keeps the invariant a worker, whatever it is in the middle of, can come to the end of it by the steps of its own segment's threads: storing, clearing, scanning, waiting for the SSD queue, a whole migration round. |
| OverlayProgress.WriteServed | src/nvm_worker.c:153-206 | From every state that benign steps reach, an idle worker can bring any write of its blocks to the end; by the repaired code exactly its blocks then show its data. |
| OverlayCrash.CrashExact | src/mix_meta.c:282-302 | At every step boundary: a block with a valid header is recovered as last completed if and only if no large write that its worker is clearing up after has reached the SSD with it; a block without one is, unless a large write over it is queued or executing. |
| OverlayCrash.CrashStepExact | src/nvm_worker.c:177-181 | A step makes a block that a power failure would leave intact one that it would not if and only if it clears the block's slot while the SSD has neither the large write nor the slot's content, or stores the large write on the SSD while its worker has not cleared the slot; and it makes up for it if and only if it is the other half of that large write, a newer write to the block, or the power failure itself. |
| OverlayCrash.SmallWritesCrashSafe | src/nvm.c:160-183 | Over every run without large writes no power failure, at any step of a small write or migration, loses a completed write. |
| OverlayCrash.CrashRebuilds | src/mix_meta.c:282-302 | After a power failure the rebuilt index and count are those the valid headers described, and the store goes on from what the media held. |
| OverlayResults.MigrationKeepsView | src/nvm_worker.c:190-200 | A migration that begins with no pending task over a buffered block changes the view of no block of the segment, at none of its steps, whatever is queued and executed meanwhile. |
| OverlayTraces.DrainHarms | src/nvm_worker.c:190-193 | Whenever a round begins with a pending write over a buffered block, migrating that block gives it back an older content. |
| OverlayTraces.DrainMisleads | src/nvm_worker.c:190-193 | Whenever it begins with a pending read of a buffered block that no pending write covers and the SSD differs, migrating that block breaks the promise to the read. |
| OverlayTraces.StaleFlag | src/ssd_worker.c:52-61 | A run from a formatted store in which the flag is up while a large write is queued, the round begins, and the block migrated is read as the older write. |
| OverlayTraces.MissingBase | src/mix_meta.c:61-61 | A run in which a round of segment 1 puts segment 0's slot over a block of segment 1, and a restart no longer finds the block of segment 0. |
| OverlayTraces.PartlyBuffered | src/mix_meta.c:207-209 | A run in which a block of a processed large write is read, and recovered, as the small write before it. |
| OverlayTraces.LostSmallWrite | src/mix_meta.c:174-178 | A run in which a processed small write is read as what the SSD had before, and the segment is left with all bits set and a count below its size. |
| OverlayTraces.NextWriteHangs | src/mix_bitmap.c:67-69 | A run of the code after which the next small write to the segment searches for a zero bit and never comes back, in no continuation without a restart: the lost write has left every bit set while the count says that there is room. |
| OverlayTraces.SearchNeverEnds | src/mix_bitmap.c:67-69 | In any state: a worker that searches a bitmap without a zero bit, in a segment that does not count as full, stays there for ever. |
| OverlayTraces.ClearedFirst | src/nvm_worker.c:177-181 | A run after which a power failure brings back what was there before a completed small write. |
| OverlayTraces.StoredFirst | src/nvm_worker.c:177-181 | A run after which it brings back a small write although the large write over it has reached the SSD. |
| OverlayTraces.SeenIsRead | src/nvm_worker.c:108-139 | What these runs call seen is what a read posted then returns: it copies that, or queues behind the tasks that make it so. |
| OverlayTraces.SeenIsView | src/nvm_worker.c:108-139 | Under the invariant that is the view. |
| OverlayResults.SlotAfterMigration | src/nvm_worker.c:159-172 | After a migration round the small write that waited for it gets a slot. |
| OverlayResults.SlotIsFree | src/nvm_worker.c:156-176 | The slot a small write takes held no live block: its bit was clear and its header invalid. |
| Barrier.BarrierHolds | src/mix_meta.c:322-334 | When the coordinator passes its wait, every thread has made exactly one pass, none holds an entry, all buckets are empty, the used count is 0 and the multiset of migrated entries is that which the segment held. |
| Barrier.StepExact | src/mix_meta.c:40-71 | With the counter bumped before the flag is lowered, as the code does, a step keeps the protocol's invariant if and only if no flag is raised that its thread has still to lower. |
| Barrier.StepSafe | src/mix_meta.c:40-71 | Every step of coordinator and threads keeps the invariant, entries conserved, in both orders of counter and flag, under that condition. |
| Barrier.RunSafe | src/mix_meta.c:40-71 | With the flag lowered first the invariant holds over all runs, any number of rounds. |
| Barrier.WaitIsSafe | src/mix_meta.c:322-334 | In every run of the code's order, counter before flag, the coordinator passes its wait only when every thread has made exactly one pass and is at rest, all buckets are empty, the used count is 0 and the migrated entries are those the segment held. |
| Barrier.SafeOrLost | src/mix_meta.c:66-70 | Because every state of such a run keeps the invariant or has a thread whose wake-up is lost, and then the wait is never passed. |
| Barrier.RunSafeAsWritten | src/mix_meta.c:66-70 | In the runs in which no flag is raised too early the invariant holds throughout, so no wake-up is lost. |
| Barrier.EarlyRaiseLoses | src/mix_meta.c:68-69 | Raising a flag that its thread has still to lower loses that thread's wake-up. |
| Barrier.LostForever | src/mix_meta.c:330-331 | A thread whose wake-up is lost keeps the coordinator waiting in every continuation. |
| Barrier.LostWakeup | src/mix_meta.c:68-69 | For every number of threads, buckets and segments above 0, a run of the code that loses a wake-up. |
| BarrierProgress.RoundEnds | src/mix_meta.c:322-334 | In both orders: from every state that keeps the invariant, at any point of a round, some continuation ends the round, with the buckets empty and the count 0. |
| BarrierProgress.RoundRuns | src/mix_meta.c:40-71 | Whenever the mutex is free a whole round for any segment can be run. |
| BarrierProgress.WaitExact | src/mix_meta.c:330-331 | In every state of every run of the code in the middle of a round: the round can still end if and only if no thread has lost its wake-up. |
| Barrier.NextBucket | src/mix_meta.c:55-65 | The strides t, t+N, t+2N, .. leave out no bucket. |
| Barrier.PopConserved | src/mix_hash.c:300-314 | Popping a bucket's head moves one entry from the table to the thread; remaining, held and migrated entries stay the original multiset. |
| Spsc.Linearizes | src/mix_queue.c:120-175 | Whatever the interleaving of the two sides' reads, copies and publications, the abstract queue changes at a publication only: a put appends what it copied, a get removes from the front exactly what it returns. |
| Spsc.HowMany | src/mix_queue.c:120-175 | How many elements each call moves, although it works from one reading of the other side's counter. |
| Spsc.PutReturns | src/mix_queue.c:120-132 | Called at any moment, by its own steps alone, a put can run to its end and has then sent as many of its elements as there was room for when it was called, none included. |
| Spsc.GetReturns | src/mix_queue.c:160-175 | Likewise a get, with as many of the elements there were as it asked for. |
| Spsc.PutEnds | src/mix_queue.c:120-132 | A put under way ends by its own steps with the number that it settled on, whatever the other side has done since. |
| Spsc.GetEnds | src/mix_queue.c:160-175 | Likewise a get under way. |
| Spsc.RangesDisjoint | src/mix_queue.c:51-101 | No slot is written and read at once. |
| Spsc.Fifo | src/mix_queue.c:120-175 | Over any run, across counter wrap-around, the elements received are a prefix of those sent: none lost, doubled, reordered or torn. |
| Spsc.StepSafe | src/mix_queue.c:51-175 | The invariant behind this is kept by every step. |
| RingQueue.MixQueue.constructor | src/mix_queue.c:103-115 | A new ring is empty, with the capacity its buffer can hold. |
| RingQueue.MixQueue.Enqueue | src/mix_queue.c:120-132 | Appends exactly min(len, free) elements, byte for byte, across the end of the buffer and the wrap-around of the 32-bit counters. |
| RingQueue.MixQueue.Dequeue | src/mix_queue.c:160-175 | Removes exactly min(len, size) elements from the front and delivers their bytes. |
| RingQueue.MixQueue.Unused | src/mix_queue.c:10-12 | The difference of the wrapped counters is the free room. |
| RingQueue.MixQueue.CopyIn | src/mix_queue.c:51-76 | The two memcpy calls store the elements behind the contents and touch nothing else of them. |
| RingQueue.MixQueue.CopyOut | src/mix_queue.c:78-101 | The two memcpy calls read the oldest elements. |
| RingQueue.StoreAppends | src/mix_queue.c:67-68 | Storing in two parts at the masked offset appends to the contents. |
| RingQueue.RingFitsExact | src/mix_queue.c:31-49 | The rounded-up capacity fits the buffer allocated for it if and only if the size is a power of two of elements. |
| Counters.RoundUpLeast | src/mix_queue.c:27-29 | The rounding gives the least power of two that is large enough. |
| Counters.WordIs | src/mix_queue.c:163-163 | The counters have 2^32 values. |
| Counters.Sub32Exact | src/mix_queue.c:163-163 | The 32-bit difference of two wrapped counters is the true difference while that is below 2^32. |
| Metadata.FullExact | src/mix_meta.c:153-158 | The guard on the used count refuses exactly the segments without a zero bit. |
| Metadata.GuardNeedsWholeBytes | src/mix_meta.c:153-158 | That holds for all sound metadata if and only if the slots per segment are a multiple of 8; for any other number there is sound metadata that passes the guard and has no zero bit to find. |
| Metadata.TakeFree | src/mix_bitmap.c:55-79 | A segment that is not full hands out the first zero in circular order, a slot nothing occupies, sets just that bit, and moves the search position to 1 after the last slot and to 0 otherwise. |
| Metadata.ReserveExact | src/mix_meta.c:170-187 | A small write's two steps index the block soundly if and only if, before them, the search position is 0, or bit 0 is set, or all bits from 1 up to the segment's number plus the number of segments less one are; otherwise they leave index and count as they were and set the bits 0 and that of the slot, which is another one. |
| Metadata.IndexExact | src/mix_meta.c:174-185 | The block is indexed, and the metadata stays sound, if and only if the bit that is looked at was set; otherwise that bit is set and nothing else changes. |
| Metadata.BlockmetaBitIs | src/mix_meta.c:174-174 | Which bit is looked at, with C's division; for the repaired code the slot's own. |
| Metadata.ClearRangeExact | src/mix_meta.c:197-224 | The clearing loop leaves no block of the task buffered if and only if the buffered ones come first (always, when repaired). |
| Metadata.ClearRangeIndex | src/mix_meta.c:197-224 | The loop takes out of the index just the task's buffered blocks before its first unbuffered one (all of them, when repaired). |
| Metadata.ClearRangeFrees | src/mix_meta.c:197-224 | It frees the slots of the blocks it takes out, and no others, and counts each of them off. |
| Metadata.ClearRangeSound | src/mix_meta.c:197-224 | It keeps the metadata sound and touches no block outside the task. |
| Metadata.RebuildRoundTrip | src/mix_meta.c:282-302 | From an empty index the headers of a quiescent segment give back exactly the map, bitmap and count. |
| Metadata.TornHeaderExact | src/nvm.c:166-175 | Power failure between the status word and the block number of a header is harmless if and only if the slot's stale header already named the block. |
| Metadata.WipeThenRebuildExact | src/nvm_worker.c:391-398 | Clearing the headers first restores what was there if and only if there was nothing. |
| Metadata.WipedExact | src/mix_meta.c:330-334 | After a round, clearing whole bytes makes the segment as new if and only if no bit lies past the last whole byte. |
| SegmentMeta.Segment.Test | src/mix_meta.c:231-251 | The hash walk and the bitmap test find the block's slot if and only if the block is in the index and the bit of that slot, modulo the segment's size, is set. |
| SegmentMeta.Segment.NextFree | src/mix_meta.c:153-158 | Allocation computes Take, and refuses a full segment unchanged. |
| SegmentMeta.Segment.WriteBlockmeta | src/mix_meta.c:170-187 | Computes Index as written, keeping the hash free of duplicates. |
| SegmentMeta.Segment.ClearBlocks | src/mix_meta.c:197-224 | The loop computes ClearRange as written; of all headers of the NVM, other segments' included, exactly those of the slots of blocks that left the index become invalid. |
| SegmentMeta.Segment.RebuildFrom | src/mix_meta.c:282-302 | Scanning headers that describe a map rebuilds exactly that map, sound, with its bitmap and count. |
| SegmentMeta.Segment.PopEntry | src/mix_hash.c:300-314 | Popping a bucket's head takes that block, and no other, out of the index. |
| SegmentMeta.ClearKeepsMatch | src/mix_meta.c:215-221 | Where just the headers of blocks that leave the index are cleared, the segment's headers describe the remaining index. |
| ChainedHash.MixHash.Put | src/mix_hash.c:164-174 | A new node heads its key's bucket, all other buckets unchanged, links acyclic, lengths right. |
| ChainedHash.MixHash.Get | src/mix_hash.c:176-193 | Returns the first entry for the key in its bucket. |
| ChainedHash.MixHash.Delete | src/mix_hash.c:195-222 | Unlinks the first entry for the key; the bucket's length stays right if and only if there was one. |
| ChainedHash.MixHash.PopAt | src/mix_hash.c:300-314 | Pops the head, or reports an empty bucket. |
| ChainedHash.Bucket.Unlink | src/mix_hash.c:205-213 | Relinking around a node removes it from the list and nothing else. |
| Chains.DeleteStandsExact | src/mix_hash.c:195-222 | Delete removes the key from the map if and only if it has at most one entry. |
| Chains.UniqueAfterPut | src/mix_hash.c:164-174 | Put of an absent key keeps keys unique and every node in its key's bucket. |
| Bitmap.MixBitmap.NextZeroBit | src/mix_bitmap.c:55-79 | Given a zero bit, the search ends, returns the first zero in circular order from next_bit and sets that bit only. |
| Bitmap.MixBitmap.SetBit | src/mix_bitmap.c:81-90 | Adds one number to the set of bits and returns whether it was there. |
| Bitmap.MixBitmap.ClearBit | src/mix_bitmap.c:97-105 | Removes one number from the set of bits. |
| Bitmap.MixBitmap.Clear | src/mix_bitmap.c:92-95 | Clears the bits of the whole bytes and resets the search position. |
| Bitmap.MixBitmap.Increment | src/mix_bitmap.c:131-153 | Raises one 4-bit counter, unless it is 15, and leaves its neighbour in the byte and all other bytes alone. |
| Bitmap.MixBitmap.Decrement | src/mix_bitmap.c:155-177 | Lowers one 4-bit counter, unless it is 0, and leaves everything else alone. |
| Bitmap.MixBitmap.Check | src/mix_bitmap.c:179-190 | Says whether the counter is above 0. |
| Redirect.CreditsAddUp | src/nvm_worker.c:108-139 | For any pattern of hits and misses, the hits and the lengths of the posted reads add up to the request, each block once. |
| Redirect.RunPosted | src/nvm_worker.c:126-127 | Posting the run that ends here keeps the posted reads the maximal runs of misses, disjoint, in order, complete, and in their places. |
| Redirect.SmallWriteExact | src/nvm_worker.c:153-176 | After a small write the block can be read back with its data if and only if, before it, the block was buffered, or the segment was full, or ReserveExact's condition held; then no other buffered block is touched, except that an overflow has moved them to the SSD. |
| Redirect.SmallWriteKeepsMatch | src/nvm.c:160-177 | Such a write keeps the headers in step with the index. |
| Drain.AllDrained | src/mix_meta.c:55-65 | When every thread has drained its stride, the index is empty and every block that was in it is on the SSD. |
| Drain.MoveOne | src/mix_meta.c:32-36 | Each migrated entry copies one block and clears one header, leaving all others. |
| Drain.BareSlotExact | src/mix_meta.c:61-61 | Copying from the bare slot number is right for all slot contents if and only if the segment starts at slot 0 or is empty. |
| NvmWorker.Worker.RedirectRead | src/nvm_worker.c:108-139 | Copies exactly the hits to their places, posts exactly the maximal runs of misses with their offsets in the buffer, and returns the number of hits. |
| NvmWorker.Worker.SmallWrite | src/nvm_worker.c:153-176 | Stores data and header in the block's slot, or in a new one, after a migration if the segment is full; states the whole new metadata, slots, headers and SSD. |
| NvmWorker.Worker.LargeWrite | src/nvm_worker.c:177-181 | Posts the task and clears the blocks, as far as the loop goes; no header changes but those of blocks that left the index, no slot and no block of the SSD. |
| NvmWorker.Worker.MigrateSegment | src/nvm_worker.c:190-200 | The passes of all threads empty the segment: its blocks are on the SSD (from the bare slots), their headers are cleared, the count is reduced by their number and the bitmap's whole bytes are cleared. |
| NvmWorker.Worker.DrainStride | src/mix_meta.c:54-65 | One thread's pass drains the buckets of its stride and fills none again. |
| NvmWorker.Worker.DrainBucket | src/mix_meta.c:57-63 | The inner loop ends with the bucket empty. |
| SsdWorker.Worker.Run | src/ssd_worker.c:65-106 | The loop executes the queue in order until it finds it empty: the SSD, the buffer and the credits are those of all tasks, one after the other. |
| SsdWorker.Worker.Execute | src/ssd_worker.c:81-99 | One task changes exactly its blocks of the SSD, or of the buffer, and credits a read with its length. |
| SsdWorker.Worker.GetTask | src/ssd_worker.c:52-61 | Takes the oldest task; the flag says whether there was none. |
| SsdWorker.LastWriteWins | src/ssd_worker.c:65-106 | A block ends up with the last queued write over it. |
| SsdWorker.ReadComplete | src/nvm_worker.c:108-139 | A read begun by redirect_read behind any pending writes and finished by the SSD worker has every block in its place, from the buffer, the last pending write or the SSD, and the credits of both workers add up to its length. |
| SsdWorker.ReadElsewhere | src/nvm_worker.c:108-139 | And nothing outside the read's places in the buffer changes. |
| Splitter.BufferQueues.PostTask | src/nvm_worker.c:365-388 | The pieces posted follow each other without gap over the request, 1 to stripe blocks long, each inside one stripe and cut only at stripe boundaries, with their place in the buffer; each queue gets its own pieces, in order, behind what it held. |
| Splitter.BlockIsDealt | src/nvm_worker.c:365-388 | Every block of a request reaches the queue block / stripe % queues, and only that, at its own place in the buffer. |
| Splitter.TilesOnce | src/nvm_worker.c:374-387 | The pieces cover each block of the request exactly once and no other block. |
| Splitter.NextStripe | src/nvm_worker.c:376-377 | The piece up to the boundary stays in its stripe, and the next one starts the next stripe. |
| Splitter.QueueOfIs | src/nvm_worker.c:368-368 | The queue of a block is block / stripe % queues. |
| Overlay.RouteIs | src/nvm_worker.c:368-368 | And so is its segment. |
| Common.DivModMeaning | src/nvm_worker.c:376-377 | The division and remainder that routing is modelled with, repeated subtraction, are the unsigned / and % of the code. |
| BloomFilter.RunExact | src/mix_bloom_filter.c:212-246 | Over any run of adds that find room and removes of live keys, every counter is the number of live keys that use it and no live key tests negative. |
| BloomFilter.RunCount | src/mix_bloom_filter.c:226-244 | The header's count is the number of live keys, modulo 2^32. |
| BloomFilter.AddExact | src/mix_bloom_filter.c:212-228 | An add keeps the counters exact if and only if none of the key's counters is full. |
| BloomFilter.RemoveExact | src/mix_bloom_filter.c:230-246 | A remove keeps them exact if and only if the key is live or nothing is counted at its counters. |
| BloomFilter.PositiveExact | src/mix_bloom_filter.c:256-273 | The test says yes if and only if every function takes the key to the same remainder as some live key. |
| BloomFilter.SlotExact | src/mix_bloom_filter.c:220-223 | A key's counter of a function lies in that function's slice, at the remainder of that function's hash. |
| BloomFilter.TouchesExact | src/mix_bloom_filter.c:220-223 | A key uses a counter if and only if the function of the counter's slice takes it there. |
| BloomFilter.NoFalseNegative | src/mix_bloom_filter.c:256-273 | Every live key tests positive. |
| BloomFilter.OverflowExact | src/mix_bitmap.c:143-150 | Of m adds and m - 1 removes of one key the remaining one is found if and only if m is at most 15. |
| BloomFilter.TouchesNext | src/mix_bloom_filter.c:220-223 | The functions of one key use counters of different slices. |
| BloomFilter.CountingBloom.constructor | src/mix_bloom_filter.c:171-198 | A new filter has exact counters for no keys. |
| BloomFilter.CountingBloom.Index | src/mix_bloom_filter.c:220-223 | The index computed lies in the function's slice, at the remainder of that function's hash of the key. |
| BloomFilter.CountingBloom.Add | src/mix_bloom_filter.c:212-228 | Raises just the counters to which the function of their slice takes the key, counts one key, leaves the header bytes alone. |
| BloomFilter.CountingBloom.Remove | src/mix_bloom_filter.c:230-246 | Lowers just those counters, counts one key less, leaves the header bytes alone. |
| BloomFilter.CountingBloom.Test | src/mix_bloom_filter.c:256-273 | The test of all the key's counters. |

## Left out

- Device access (mmap, pread, pwrite, cache flushes, streaming stores): NVM slots, headers and SSD are arrays whose blocks and headers are stored at once. In `Overlay` a header is stored at once; what its word order (src/nvm.c:166-175) costs is stated by itself in `Metadata.TornHeaderExact`.
- The bounce buffers: all migration threads share SSD bounce slot 0 (src/mix_meta.c:34) and several reads share one of four (src/ssd.c:41-50); a block's transfer is one step here.
- Weak memory ordering and reuse of a request's buffer by its caller: steps are sequentially consistent and tasks carry their data by value.
- Integer widths outside the ring queue's counters and the bloom filter's count: block numbers, offsets and lengths are unbounded, and the key 2^32 - 1, which src/mix_meta.c:60 takes for the end of a bucket, is an ordinary key, so a bucket is drained past it.
- The array of migration flags has one entry per segment but is indexed by thread (include/mix_meta.h:33, src/mix_meta.c:325-326): the model has one flag per thread.
- The NVM workers' input queues and the scheduler's submission queues: `Overlay` starts a piece when a worker takes it, each block of a read at most once; `Splitter` and `Spsc` are what justifies this. Retrying an enqueue until there is room is not modelled.
- src/scheduler.c:51-86: the classification of requests by the NVM/SSD threshold, which leaves requests across or ending on the threshold without a type. All modelled requests lie on the SSD side.
- Plain reads and writes of the NVM region, allocation failures, frees, printing, timing, main.c, the trace and test programs.
- mix_enqueue_lockfree, mix_dequeue_lockfree, mix_hash_has_key, mix_hash_get_entry and the stubs of src/mix_logging.c, which no live path uses.
- The hash functions: MurmurHash3, crc32 and mix_hash_hash are arbitrary functions with a bounded result, and the floating-point sizing of the bloom filter is given as the two sizes it results in.
- OverlaySafety.RepairedRun: takes it from Barrier.WaitIsSafe that a round ends only when it is complete; no lemma maps the runs of Barrier onto those of Overlay.
- OverlaySafety.StepExact: at the start of a round its condition is that no pending task covers a buffered block; the invariant asks for that much. Pending writes over one, and pending reads of one that differs on the SSD, are shown to do harm (OverlayTraces.DrainHarms, OverlayTraces.DrainMisleads); a pending read of a block that the SSD already has would do none.
- OverlayTraces: the runs are at the code's four segments and stripes of four blocks, with eight slots in a segment.
- NvmWorker.Worker.MigrateSegment: runs the threads' passes one after the other; their interleavings are in Barrier and Overlay. The wait for the SSD queue, the mutex and the flags are there too.
- NvmWorker.Worker.SmallWrite: requires sound metadata, as every safe operation leaves it, a multiple of 8 slots and every buffered block to exist on the device; for other metadata see Metadata.GuardNeedsWholeBytes.
- SegmentMeta.Segment.NextFree: requires a zero bit when the segment is not full, since the search of the code does not end without one.
- SsdWorker.Worker.Execute: one request's buffer at a time, and a transfer past the end of the device or the buffer leaves out what does not fit.
- Fairness: that waits do end under a fair scheduler is not stated. What is stated is that they can end (OverlayProgress, BarrierProgress, Spsc), in which states, and from which states they cannot.
