# Verified model of the private cloud's storage core

Dafny models of the stateful parts of the private cloud, with proofs about whole runs of them:
replication, the deduplicating chunk store, the counting Bloom filter, multipart uploads, tier moves
and the load balancer. `dafny verify dfyconfig.toml` checks everything.

| file | models |
|---|---|
| `Replication.dfy` | the replication protocol: puts, workers, endpoints, requeues |
| `CircuitBreaker.dfy` | the breaker of each endpoint |
| `TaskQueue.dfy`, `Decimal.dfy` | the durable task queue and its database keys |
| `CountingBloomFilter.dfy`, `BloomFilter.dfy` | the two filters |
| `ChunkStore.dfy`, `ChunkGc.dfy`, `DedupChunkStore.dfy`, `Sealing.dfy` | the chunk store, its garbage collection, the object that holds both, and encrypted files |
| `DedupObjects.dfy`, `ObjectLayer.dfy` | chunked objects with interleaved puts; the put and get loops |
| `Multipart.dfy`, `Tiers.dfy`, `LoadBalancer.dfy` | multipart uploads, tier moves, round-robin selection |
| `Base.dfy`, `Sums.dfy` | shared vocabulary; sums over maps |

Each object of the program is a class whose methods are proved equal to functions on its state; the
lemmas prove what those functions promise, step by step and over every run. Booleans passed to an
operation (`putOk`, `removeOk`, `acked`, ...) are what the disk, the database and the network did, and
times are clock readings; the lemmas hold for all of them unless a condition is stated.

## Which code is modelled

The files of the repository are stitched from successive edits. The models take: `replicate_to_endpoint`
at lines 397-436, the requeue policy at 216-235, the breaker at 513-570 and the queue at 618-692 of
`sync_engine.cpp`, the requeue going through the persistent `enqueue_task`; `StoreChunk` at 261-291 of
`dedup_chunk_store.cpp`, its elided increment and tail being lines 66-71 and 74-93; and the chunked
`PutObject` and `GetObject` at 828-894 of `storage_manager.cpp`. Where a body is elided in every version:
`GetChunk` requires a positive count like `StoreChunk` does and then reads the file, and `DecrementRef`
lowers a positive count by one. `GetChunk` with a count of zero has to fail for the filter to be
invisible, since a reloaded filter holds positive counts only.

## What turned out not to hold

- Replication with more than one worker loses updates (`Replication.TwoWorkersLoseUpdate`), and `Start`
  uses four by default: a push of data read before a put can land after the newer push, and a HEAD that
  matches such outdated data ends an attempt wrongly. So do a failed enqueue, which `QueueReplication`
  only logs, and a failed requeue. `StepSafeIff` gives the exact condition of each step and `RunSafeIff`
  that of a whole run; `PushSafeIff`, `HeadSafeIff`, `FinishSafeIff` and `UnqueuedPutSafeIff` write it
  out step by step. One worker is safe even with puts between its read and its push.
- A success recorded while a breaker is closed does not reset its failure count, so failures long apart
  still open it; only a success that ends an outage does (`RecoveryIff`).
- Restarting empties the task cache and nothing refills it: acknowledged tasks stay in the database, but
  only cached ones can ever be delivered (`DeliverableIff`). A dequeue deletes the record first, so a
  crash forgets the tasks in flight and no others (`CrashForgetsIff`).
- The counter's write status is ignored; without that write a crash lets a later enqueue overwrite an
  acknowledged record (`SafeAfterCrashIff`).
- The statuses of the chunk-file write and the count Put are ignored too; `StoreNeedsWritesIff` says when
  a store that reports success is one.
- `PutObject` does not check for the empty hash of a failed chunk encryption: the put succeeds and the
  object cannot be read (`RoundTrip`, the case of an incomplete manifest).
- `DeleteObject` and overwriting puts never release references, so no chunk once stored is ever collected
  (`UnreleasedNeverCollected`). The model allows each release at most once, proves the counts right for
  any number of them, and says which chunks a collection then removes (`CollectedIffUnnamed`).
- A passing completion list may repeat part numbers and so not cover the parts (`PassingListIsTableIff`);
  gaps in the numbering silently drop later parts (`LeadingIsAllIff`); a failed final put still discards
  the upload (`CompletionStores`).
- A failed file removal is still counted as reclaimed and its record is deleted, which orphans the file
  (`FailedRemovalOverReports`; exactly when the totals are right: `DeletedIsGoneIff`, `ReclaimedIsFreed`;
  when a later cycle repairs it: `RerunFinishesIff`).
- The round-robin cursor's wrap at 2^64 breaks fairness, and can even yield null with a healthy backend
  (`WrapMissesHealthy`); exactly when is `RoundRobinFairIff` and `NullIffAllMissed`.
- Filter removal after saturation loses items (`SaturationLosesItem`, exactly which: `FoundIff`), and task
  keys leave numeric order at 10^16 (`NumericBelowIff`).

## Assumptions

- SHA-256 is an injective function (its output is modelled as a string of at least two characters, so
  that this is consistent) and decryption inverts encryption; Murmur is any function of item and seed.
- LevelDB is a map with atomic Put, Delete and batch Write; iterators are snapshots; completed writes
  survive a process crash. Database values written by the program parse back to what was written.
- `StoreChunk` is one step, and a collection cycle is not interleaved with other operations of its store.
- Manifests and metadata survive JSON unchanged; the base directories of the tiers are distinct; an
  upload id is 36 characters and not in use when it is issued.
- An object's local read returns the bytes and the ETag of one put; a remote's HEAD returns the hash of
  the bytes it holds.

## Model

| member | source | states |
|---|---|---|
| `Replication.OneWorkerLosesNothing` | Implementation Engineering/Private Cloud/data/replication/sync_engine.cpp:216-235 | No lost update: over every run with one worker (puts that enqueue, endpoint failures, skips, requeues, puts landing between a read and its push) every difference between local storage and an endpoint is queued or in flight; an idle engine agrees with every endpoint |
| `Replication.EventualConsistency` | Implementation Engineering/Private Cloud/data/replication/sync_engine.cpp:216-235 | After any such run, once endpoints answer and breaker timeouts have passed, as many iterations as there are waiting tasks end idle with every endpoint equal to local storage and every breaker closed |
| `Replication.RunSafeIff` | Implementation Engineering/Private Cloud/data/replication/sync_engine.cpp:216-235 | The same guarantee for any number of workers and with failing enqueues and requeues, exactly: over every run no update is lost after any prefix if and only if every put, matching HEAD, acknowledged push and finish meets its condition on the state it starts from |
| `Replication.StepSafeIff` | Implementation Engineering/Private Cloud/data/replication/sync_engine.cpp:216-235 | For every single step: a safe state stays safe if and only if the step meets that condition |
| `Replication.ManyWorkersLoseNothing` | Implementation Engineering/Private Cloud/data/replication/sync_engine.cpp:216-235 | A run whose steps meet their conditions ends, when idle, with every endpoint equal to local storage |
| `Replication.TwoWorkersLoseUpdate` | Implementation Engineering/Private Cloud/data/replication/sync_engine.cpp:397-436 | With two workers the guarantee is false: for every key and any two different contents, a failure-free run ends idle with the endpoint holding the old bytes |
| `Replication.PushSafeIff` | Implementation Engineering/Private Cloud/data/replication/sync_engine.cpp:423-435 | When an acknowledged push keeps safety: the object has not changed since it was read, this worker has failed elsewhere or tries the endpoint again, or another worker or a waiting task covers the endpoint |
| `Replication.HeadSafeIff` | Implementation Engineering/Private Cloud/data/replication/sync_engine.cpp:412-421 | When a HEAD keeps safety: it does not match the data read, or the condition of a push holds |
| `Replication.FinishSafeIff` | Implementation Engineering/Private Cloud/data/replication/sync_engine.cpp:216-235 | When a finish keeps safety: no attempt failed, the requeue was stored, or each endpoint agrees or is covered without this worker |
| `Replication.UnqueuedPutSafeIff` | Implementation Engineering/Private Cloud/data/replication/sync_engine.cpp:694-704 | A put whose enqueue fails is only logged; it is safe if and only if every endpoint already holds the bytes or is still to be attempted for the key |
| `Replication.IterationIsRun` | Implementation Engineering/Private Cloud/data/replication/sync_engine.cpp:707-726 | A worker iteration, as its own method computes it, is the run take, then read, HEAD and push for each endpoint, then finish or requeue |
| `Replication.SuccessMeansAgreement` | Implementation Engineering/Private Cloud/data/replication/sync_engine.cpp:397-436 | If no attempt of an iteration fails, every endpoint tried holds the local object's bytes |
| `Replication.AttemptEffect` | Implementation Engineering/Private Cloud/data/replication/sync_engine.cpp:397-436 | Exactly when an attempt succeeds (let through, object readable, and found by HEAD or push acknowledged), and that only a push that is let through and needed writes, to one object of one endpoint |
| `Replication.PutIsQueued` | Implementation Engineering/Private Cloud/data/replication/sync_engine.cpp:694-704 | A put whose enqueue succeeds stands at the end of the queue with the new bytes' ETag |
| `Replication.WorkerOutageBound` | Implementation Engineering/Private Cloud/data/replication/sync_engine.cpp:397-436 | After any run, over any sequence of worker iterations in which all attempts on one endpoint fail within a window W, at most FAILURE_THRESHOLD + floor(W / OPEN_TIMEOUT) attempts reach it |
| `Replication.CrashForgetsIff` | Implementation Engineering/Private Cloud/data/replication/sync_engine.cpp:677-690 | After any run and a crash, the database has a task for a key if and only if one was waiting: exactly the tasks in flight are forgotten |
| `Replication.FailedAttemptIsTry` | Implementation Engineering/Private Cloud/data/replication/sync_engine.cpp:397-436 | A failing attempt is, to its breaker, one ask followed by at most one recorded failure |
| `Replication.ReplicationEngine.PutAndQueue` | Implementation Engineering/Private Cloud/data/replication/sync_engine.cpp:694-704 | A local put and its task are the put step of the protocol, whatever the queue's writes do |
| `Replication.ReplicationEngine.ReplicateToEndpoint` | Implementation Engineering/Private Cloud/data/replication/sync_engine.cpp:397-436 | Breaker check, local read, ETag comparison and push, with exactly the breaker updates and remote write of each branch |
| `Replication.ReplicationEngine.ReplicateToAll` | Implementation Engineering/Private Cloud/data/replication/sync_engine.cpp:216-224 | All endpoints are tried in order even after a failure; the result is true only if all succeeded |
| `Replication.ReplicationEngine.WorkerIteration` | Implementation Engineering/Private Cloud/data/replication/sync_engine.cpp:707-726 | Dequeue, try all, requeue on any failure; a processed task reported as fully successful leaves all endpoints agreeing on its key |
| `CircuitBreakers.OutageBound` | Implementation Engineering/Private Cloud/data/replication/sync_engine.cpp:513-570 | From every reachable breaker and for every window of length W in which all attempts of one sequential caller fail, at most FAILURE_THRESHOLD + floor(W / OPEN_TIMEOUT) attempts are let through |
| `CircuitBreakers.OutageBoundTight` | Implementation Engineering/Private Cloud/data/replication/sync_engine.cpp:513-570 | For every W some outage reaches that bound exactly |
| `CircuitBreakers.AttemptsWithinBudget` | Implementation Engineering/Private Cloud/data/replication/sync_engine.cpp:513-570 | The state-dependent budget bounds the attempts of every outage |
| `CircuitBreakers.BudgetReached` | Implementation Engineering/Private Cloud/data/replication/sync_engine.cpp:513-570 | The eager caller uses the whole budget, from every breaker state and for every window |
| `CircuitBreakers.FieldsTellHistory` | Implementation Engineering/Private Cloud/data/replication/sync_engine.cpp:513-570 | From the list of asks, successes and failures alone, for every list: exactly when the breaker is Closed, Open or HalfOpen, its failure count, its last failure and its probe time |
| `CircuitBreakers.RecoveryIff` | Implementation Engineering/Private Cloud/data/replication/sync_engine.cpp:537-570 | After every history a success closes the breaker, and from then on every attempt is let through exactly until further failures reach the threshold; counts before it are forgotten only if it ended an outage |
| `CircuitBreakers.QuietPeriod` | Implementation Engineering/Private Cloud/data/replication/sync_engine.cpp:521-531 | No attempt is granted before the full timeout after the opening failure unless a success was recorded |
| `CircuitBreakers.SharedOutageBound` | Implementation Engineering/Private Cloud/data/replication/sync_engine.cpp:513-570 | For k concurrent callers, each with at most one unrecorded attempt, from every reachable breaker: at most FAILURE_THRESHOLD - 1 + k + k * floor(W / OPEN_TIMEOUT) attempts in an outage of length W |
| `CircuitBreakers.ConcurrentProbesUnbounded` | Implementation Engineering/Private Cloud/data/replication/sync_engine.cpp:533-534 | While half open, callers that ask before a result is recorded are all let through, so a bound has to count callers |
| `CircuitBreakers.BreakerTable.ShouldAttempt` | Implementation Engineering/Private Cloud/data/replication/sync_engine.cpp:513-535 | The answer and the Open to HalfOpen transition for one endpoint, other endpoints untouched |
| `CircuitBreakers.BreakerTable.RecordSuccess` | Implementation Engineering/Private Cloud/data/replication/sync_engine.cpp:537-544 | Closing from any other state, with no reset of the count of a breaker already closed |
| `CircuitBreakers.BreakerTable.RecordFailure` | Implementation Engineering/Private Cloud/data/replication/sync_engine.cpp:546-570 | Counting, opening at the threshold and reopening from HalfOpen for one endpoint |
| `TaskQueues.FirstInFirstOut` | Implementation Engineering/Private Cloud/data/replication/sync_engine.cpp:633-692 | Between crashes, under any mix of failing Puts and Deletes: what waited followed by what was accepted equals what was delivered followed by what waits |
| `TaskQueues.NoStarvation` | Implementation Engineering/Private Cloud/data/replication/sync_engine.cpp:669-692 | A cached task with k smaller sequences ahead is returned by the (k+1)-th successful dequeue, however many enqueues come in between |
| `TaskQueues.AlwaysConsistent` | Implementation Engineering/Private Cloud/data/replication/sync_engine.cpp:633-692 | Over every run, crashes included, with counter writes succeeding: each cached task has its own unmodified database record and a sequence below the persisted counter, which is at most next_sequence_ |
| `TaskQueues.RecordSurvives` | Implementation Engineering/Private Cloud/data/replication/sync_engine.cpp:618-692 | With crashes at any point inside enqueue or dequeue and any number of restarts, a recorded task stays in the database unmodified until a dequeue deletes it |
| `TaskQueues.RecordPresentIff` | Implementation Engineering/Private Cloud/data/replication/sync_engine.cpp:669-692 | And exactly: over every such run the record is there if and only if no dequeue, finished or interrupted, deleted it |
| `TaskQueues.DeliverableIff` | Implementation Engineering/Private Cloud/data/replication/sync_engine.cpp:592-692 | A recorded task can still be delivered by some run if and only if it is cached |
| `TaskQueues.AcknowledgedIsRecorded` | Implementation Engineering/Private Cloud/data/replication/sync_engine.cpp:633-667 | A task whose enqueue returned true is recorded, with the counter past its sequence once the counter is written |
| `TaskQueues.CrashLeaves` | Implementation Engineering/Private Cloud/data/replication/sync_engine.cpp:618-692 | What a crash between or inside operations leaves of the records, the counter and the cache |
| `TaskQueues.RestartKeeps` | Implementation Engineering/Private Cloud/data/replication/sync_engine.cpp:575-594 | A restart keeps every record, takes the next sequence from the counter and writes a missing counter |
| `TaskQueues.SequencesUsedUp` | Implementation Engineering/Private Cloud/data/replication/sync_engine.cpp:636-645 | Between crashes every enqueue, acknowledged or not, uses up one sequence |
| `TaskQueues.NeverReissued` | Implementation Engineering/Private Cloud/data/replication/sync_engine.cpp:636-658 | Acknowledged sequences increase strictly over every run with crashes: none is reused |
| `TaskQueues.UncachedIsStranded` | Implementation Engineering/Private Cloud/data/replication/sync_engine.cpp:592-593 | A record whose task is not in the cache (every record after a restart) is never delivered and never removed by any later run: recovery is not implemented |
| `TaskQueues.SafeAfterCrashIff` | Implementation Engineering/Private Cloud/data/replication/sync_engine.cpp:628-631 | After a crash a record is safe from every continuation if and only if a counter was persisted and has passed its sequence: the ignored status of the counter write matters exactly then |
| `TaskQueues.TaskKeyOrder` | Implementation Engineering/Private Cloud/data/replication/sync_engine.cpp:648-650 | For sequences below 10^16 the key order is the numeric order |
| `TaskQueues.TaskKeyOrderEnds` | Implementation Engineering/Private Cloud/data/replication/sync_engine.cpp:648-650 | From 10^16 on it is not: each power of ten sorts before its predecessor |
| `TaskQueues.NumericBelowIff` | Implementation Engineering/Private Cloud/data/replication/sync_engine.cpp:648-650 | Exactly: key order is numeric order on all sequences below n if and only if n is at most 10^16 |
| `TaskQueues.TaskKeyInjective` | Implementation Engineering/Private Cloud/data/replication/sync_engine.cpp:648-650 | Different sequences have different keys, for all sequences |
| `TaskQueues.TaskKeyIsNotCounter` | Implementation Engineering/Private Cloud/data/replication/sync_engine.cpp:620-650 | No task key is the counter's key |
| `TaskQueues.TaskKeyFits` | Implementation Engineering/Private Cloud/data/replication/sync_engine.cpp:649-650 | For every 64-bit sequence the 32-byte buffer holds the key and its terminator |
| `TaskQueues.PlaceInFifo` | Implementation Engineering/Private Cloud/data/replication/sync_engine.h:62-69 | A cached task stands behind exactly the smaller sequences |
| `TaskQueues.TaskQueue.constructor` | Implementation Engineering/Private Cloud/data/replication/sync_engine.cpp:575-594 | Opening loads the persisted counter, or tries to write zero, which may fail; the cache starts empty |
| `TaskQueues.TaskQueue.LoadNextSequence` | Implementation Engineering/Private Cloud/data/replication/sync_engine.cpp:618-626 | The counter is taken over if and only if it is stored |
| `TaskQueues.TaskQueue.EnqueueTask` | Implementation Engineering/Private Cloud/data/replication/sync_engine.cpp:633-667 | Result, database, counter and cache after an enqueue; the abstract queue gains the task at its end if and only if the result is true |
| `TaskQueues.TaskQueue.DequeueTask` | Implementation Engineering/Private Cloud/data/replication/sync_engine.cpp:669-692 | The oldest task, if there is one and its record could be deleted; otherwise nothing changes |
| `CountingBloomFilters.ExactRunIff` | Implementation Engineering/Private Cloud/common/counting_bloom_filter.h:41-59 | Over every history of inserts and removes of held items the counters equal the summed hash hits of the held multiset throughout if and only if no position's load ever exceeds 255 |
| `CountingBloomFilters.Shape.InsertExactIff` | Implementation Engineering/Private Cloud/common/counting_bloom_filter.h:41-49 | One insertion into an exact filter stays exact if and only if no load passes 255 |
| `CountingBloomFilters.Shape.RemoveExact` | Implementation Engineering/Private Cloud/common/counting_bloom_filter.h:51-59 | Removing a held item from an exact filter stays exact |
| `CountingBloomFilters.Shape.ExactFindsHeld` | Implementation Engineering/Private Cloud/common/counting_bloom_filter.h:61-70 | An exact filter has no false negative |
| `CountingBloomFilters.Shape.ExactFoundIff` | Implementation Engineering/Private Cloud/common/counting_bloom_filter.h:61-70 | Exactly which items an exact filter finds: those each of whose hash positions some held item selects |
| `CountingBloomFilters.Shape.HitCountIsNumber` | Implementation Engineering/Private Cloud/common/counting_bloom_filter.h:41-49 | What one operation changes a counter by is the number of the item's hash functions that select it |
| `CountingBloomFilters.Shape.LoadCoversMultiplicity` | Implementation Engineering/Private Cloud/common/counting_bloom_filter.h:76-84 | Each position an item selects carries at least its multiplicity, self-collisions included |
| `CountingBloomFilters.OrderIrrelevant` | Implementation Engineering/Private Cloud/common/counting_bloom_filter.h:41-59 | Two bounded histories that end holding the same multiset end with the same array |
| `CountingBloomFilters.FoundIff` | Implementation Engineering/Private Cloud/common/counting_bloom_filter.h:41-70 | After every history, saturated or not, an item is found if and only if each of its positions has a load above what saturation has lost there |
| `CountingBloomFilters.CounterIsLoadLessOverflow` | Implementation Engineering/Private Cloud/common/counting_bloom_filter.h:41-59 | Over every history each counter is the load of its position less what saturation has lost there |
| `CountingBloomFilters.SaturationLosesItem` | Implementation Engineering/Private Cloud/common/counting_bloom_filter.h:41-70 | The bound is needed in every filter and for every item: 256 inserts and 255 removes leave a held item that is not found |
| `CountingBloomFilters.CountingBloomFilter.Insert` | Implementation Engineering/Private Cloud/common/counting_bloom_filter.h:41-49 | Every counter is raised by its hits, saturating at 255 |
| `CountingBloomFilters.CountingBloomFilter.Remove` | Implementation Engineering/Private Cloud/common/counting_bloom_filter.h:51-59 | Every counter is lowered by its hits, stopping at zero |
| `CountingBloomFilters.CountingBloomFilter.ProbablyContains` | Implementation Engineering/Private Cloud/common/counting_bloom_filter.h:61-70 | True if and only if every selected counter is non-zero |
| `CountingBloomFilters.CountingBloomFilter.EstimatedCount` | Implementation Engineering/Private Cloud/common/counting_bloom_filter.h:76-84 | The least selected counter (SIZE_MAX without hashes), at least the true multiplicity in every exact filter |
| `BloomFilters.InsertionKept` | Implementation Engineering/Private Cloud/common/bloom_filter.h:38-53 | An inserted item is found, and stays found through later insertions |
| `BloomFilters.FoundIff` | Implementation Engineering/Private Cloud/common/bloom_filter.h:38-53 | Exactly which items are found after any list of insertions into a clear filter: those each of whose hash positions is a position of some inserted item |
| `BloomFilters.BloomFilter.Insert` | Implementation Engineering/Private Cloud/common/bloom_filter.h:38-44 | Exactly the item's positions are set in addition |
| `BloomFilters.BloomFilter.ProbablyContains` | Implementation Engineering/Private Cloud/common/bloom_filter.h:46-53 | True if and only if every selected bit is set |
| `DedupChunkStores.FilterRefinesRun` | Implementation Engineering/Private Cloud/data/fast_access/dedup_chunk_store.cpp:255-300 | Over every run of stores, reads, releases, complete or interrupted collections and restarts, a filter changes no result, was_new flag, count or file compared with the null filter |
| `ChunkStores.FilterInvisibleIff` | Implementation Engineering/Private Cloud/data/fast_access/dedup_chunk_store.cpp:293-300 | In a sound store the filter is invisible to readers if and only if it passes every hash with a positive count |
| `ChunkStores.ReloadCovers` | Implementation Engineering/Private Cloud/data/fast_access/dedup_chunk_store.cpp:239-253 | A filter loaded from the database passes every hash with a positive count |
| `ChunkStores.LoadedPassesIff` | Implementation Engineering/Private Cloud/data/fast_access/dedup_chunk_store.cpp:239-253 | Exactly which hashes a loaded filter passes: those each of whose positions a hash with positive count has |
| `DedupChunkStores.StepShows` | Implementation Engineering/Private Cloud/data/fast_access/dedup_chunk_store.cpp:221-300 | What each operation returns and does to each reference count, over stores, reads, releases, collections and restarts |
| `ChunkStores.StoreChunkEffect` | Implementation Engineering/Private Cloud/data/fast_access/dedup_chunk_store.cpp:261-291 | When its two writes succeed, a store adds exactly one reference to its own hash and none elsewhere, writes the file of a chunk whose count was zero and no other, adds to the filter unless the chunk was referenced, and keeps files readable, counts parsable and the filter covering |
| `ChunkStores.StoreNeedsWritesIff` | Implementation Engineering/Private Cloud/data/fast_access/dedup_chunk_store.cpp:261-291 | The ignored write statuses, exactly: a store that reports success adds its reference and keeps every referenced chunk readable if and only if the count was written and, for a chunk not referenced before, the file holds it |
| `ChunkStores.StoreWrites` | Implementation Engineering/Private Cloud/data/fast_access/dedup_chunk_store.cpp:261-291 | Exactly when a store throws, and what it has written when its file write or its count Put fails |
| `ChunkStores.ReadsIff` | Implementation Engineering/Private Cloud/data/fast_access/dedup_chunk_store.cpp:294-300 | Exactly what reads: the bytes with that hash if and only if the hash is referenced; every unreferenced hash fails |
| `ChunkStores.ReadsBack` | Implementation Engineering/Private Cloud/data/fast_access/dedup_chunk_store.cpp:294-300 | A referenced chunk reads back as the only bytes with its hash |
| `ChunkStores.DecrementEffect` | Implementation Engineering/Private Cloud/data/fast_access/dedup_chunk_store.cpp:221-227 | A release takes one reference from one hash and removes neither record nor file |
| `ChunkStores.Config.PathInjective` | Implementation Engineering/Private Cloud/data/fast_access/dedup_chunk_store.cpp:47-49 | Different hashes have different files |
| `DedupChunkStores.DedupChunkStore.constructor` | Implementation Engineering/Private Cloud/data/fast_access/dedup_chunk_store.cpp:6-40 | Opening an existing store, with a filter that covers it when enabled |
| `DedupChunkStores.DedupChunkStore.LoadBloomFromDb` | Implementation Engineering/Private Cloud/data/fast_access/dedup_chunk_store.cpp:239-253 | Whatever the iteration order, the positions of exactly the hashes with positive count are added |
| `DedupChunkStores.DedupChunkStore.StoreChunk` | Implementation Engineering/Private Cloud/data/fast_access/dedup_chunk_store.cpp:261-291 | Result, counts, files and filter of the optimized store, with failing file writes and count Puts; its elided parts are taken from lines 66-94 |
| `DedupChunkStores.DedupChunkStore.GetChunk` | Implementation Engineering/Private Cloud/data/fast_access/dedup_chunk_store.cpp:294-300 | The chunk behind a hash that passes the filter and has a positive count |
| `DedupChunkStores.DedupChunkStore.GcLoop` | Implementation Engineering/Private Cloud/data/fast_access/dedup_chunk_store.cpp:136-207 | The store and both totals after a whole batched cycle, with failing removals and batch writes |
| `DedupChunkStores.DedupChunkStore.DeleteChunkFile` | Implementation Engineering/Private Cloud/data/fast_access/dedup_chunk_store.cpp:209-219 | The file is removed, or a failed removal leaves it |
| `DedupChunkStores.DedupChunkStore.GcUnusedChunks` | Implementation Engineering/Private Cloud/data/object_storage/storage_manager.cpp:900-913 | The store after the simple collection, stopped at a count that does not parse or a file that cannot be removed, with failing deletes |
| `ChunkGc.SimpleRemovesOnlyGarbage` | Implementation Engineering/Private Cloud/data/object_storage/storage_manager.cpp:900-913 | Wherever it stops and whatever fails, the simple collection has removed only garbage |
| `ChunkGc.SimpleFinishesIff` | Implementation Engineering/Private Cloud/data/object_storage/storage_manager.cpp:900-913 | Exactly when the simple collection reaches its end, and which files and records it has then removed when deletions fail |
| `DedupChunkStores.DedupChunkStore.DecrementRef` | Implementation Engineering/Private Cloud/data/fast_access/dedup_chunk_store.cpp:221-227 | One reference less on one hash, never below zero |
| `ChunkGc.StopRemovesOnlyGarbage` | Implementation Engineering/Private Cloud/data/fast_access/dedup_chunk_store.cpp:136-207 | Cut anywhere, with any removals and batch writes failing, a cycle has removed only records of count zero and files of such records |
| `ChunkGc.CollectionIsSafe` | Implementation Engineering/Private Cloud/data/fast_access/dedup_chunk_store.cpp:136-207 | So no reference count changes, every referenced chunk stays readable and the filter stays covering |
| `ChunkGc.RerunFinishes` | Implementation Engineering/Private Cloud/data/fast_access/dedup_chunk_store.cpp:136-207 | A complete cycle after an interrupted one ends with the store an undisturbed cycle would have left |
| `ChunkGc.RerunFinishesIff` | Implementation Engineering/Private Cloud/data/fast_access/dedup_chunk_store.cpp:209-219 | Exactly when: the later cycle finishes the collection if and only if no file outlived its record |
| `ChunkGc.CutLeavesNoOrphan` | Implementation Engineering/Private Cloud/data/fast_access/dedup_chunk_store.cpp:166-185 | Files go before records: no cut orphans a file as long as removals succeed |
| `ChunkGc.CutBetween` | Implementation Engineering/Private Cloud/data/fast_access/dedup_chunk_store.cpp:166-177 | A cycle cut between a file's removal and its record's deletion leaves the record to be visited again |
| `ChunkGc.RecordGoneIff` | Implementation Engineering/Private Cloud/data/fast_access/dedup_chunk_store.cpp:175-191 | Exactly which records a cycle has deleted wherever it stops, whatever fails: the j-th collected goes with the successful write of the next multiple of the batch size, or of the last partial batch |
| `ChunkGc.LagBelowBatch` | Implementation Engineering/Private Cloud/data/fast_access/dedup_chunk_store.cpp:179-185 | When writes succeed, fewer visited garbage records than the batch size remain at any cut |
| `ChunkGc.BatchedCollects` | Implementation Engineering/Private Cloud/data/fast_access/dedup_chunk_store.cpp:136-207 | For every batch size a complete cycle leaves exactly the store without garbage |
| `ChunkGc.BatchedEqualsSimple` | Implementation Engineering/Private Cloud/data/object_storage/storage_manager.cpp:900-913 | With nothing failing, batched and simple collection end with the same metadata and files, in any iteration orders |
| `ChunkGc.SecondCycleIdle` | Implementation Engineering/Private Cloud/data/fast_access/dedup_chunk_store.cpp:136-207 | A second cycle changes and reports nothing |
| `ChunkGc.DeletedIsGoneIff` | Implementation Engineering/Private Cloud/data/fast_access/dedup_chunk_store.cpp:166-173 | The reported number of chunks is the number of files that disappeared if and only if no removal asked for fails, and otherwise too large |
| `ChunkGc.ReclaimedIsFreed` | Implementation Engineering/Private Cloud/data/fast_access/dedup_chunk_store.cpp:166-173 | The reported bytes are the bytes that disappeared if and only if no removal of a non-empty file fails, and otherwise too large |
| `ChunkGc.FailedRemovalOverReports` | Implementation Engineering/Private Cloud/data/fast_access/dedup_chunk_store.cpp:166-185 | For every unreferenced chunk: with its removal failing, one chunk and all its bytes are reported, the record goes and the file stays |
| `ChunkGc.CollectAccounts` | Implementation Engineering/Private Cloud/data/fast_access/dedup_chunk_store.cpp:188-196 | Both totals of a complete cycle are exact under those same conditions, whatever its batch writes did |
| `DedupObjects.RoundTrip` | Implementation Engineering/Private Cloud/data/object_storage/storage_manager.cpp:828-894 | After any interleaving of chunked puts sharing chunks, removals, single releases, collections (complete or cut) and restarts: a key has an object exactly if, by the list of operations alone, a put of it was saved and not removed since; it reads back the bytes of the latest such put if all its chunks were encrypted, and exactly if its manifest is complete; nothing else reads |
| `DedupObjects.RunInvariant` | Implementation Engineering/Private Cloud/data/object_storage/storage_manager.cpp:842-867 | Conservation over every run: each reference count is the number of entries naming the chunk in live manifests, puts in progress and unreleased dead manifests |
| `DedupObjects.ApplyCounts` | Implementation Engineering/Private Cloud/data/object_storage/storage_manager.cpp:842-867 | What each operation does to each reference count, exactly |
| `DedupObjects.NextChunkMatches` | Implementation Engineering/Private Cloud/data/object_storage/storage_manager.cpp:844-859 | A chunk is entered with its hash if and only if it is referenced already or could be encrypted |
| `DedupObjects.RestartPassesIff` | Implementation Engineering/Private Cloud/data/fast_access/dedup_chunk_store.cpp:239-253 | After a restart the filter passes exactly what the positive counts in the database make it pass, and nothing else has changed |
| `DedupObjects.CollectedIffUnnamed` | Implementation Engineering/Private Cloud/data/object_storage/storage_manager.cpp:900-913 | After every run, a complete collection removes a recorded chunk if and only if no live manifest, put in progress or unreleased dead manifest names it; a removed chunk no longer reads, a kept one does |
| `DedupObjects.UnreleasedNeverCollected` | Implementation Engineering/Private Cloud/data/object_storage/storage_manager.cpp:241-246 | Over every run without releases no reference count falls, so a chunk once stored stays readable through every removal and collection |
| `DedupObjects.ChunkConserves` | Implementation Engineering/Private Cloud/data/object_storage/storage_manager.cpp:845-858 | One chunk of a put in progress moves count and manifest together |
| `DedupObjects.SplitShape` | Implementation Engineering/Private Cloud/data/object_storage/storage_manager.cpp:844-859 | Offsets contiguous from zero, lengths summing to the size, all chunks but the last of 4 MiB |
| `DedupObjects.AssembledIff` | Implementation Engineering/Private Cloud/data/object_storage/storage_manager.cpp:881-893 | The read loop gives the described bytes exactly when no manifest entry is empty |
| `ObjectLayer.DedupObjectLayer.PutObject` | Implementation Engineering/Private Cloud/data/object_storage/storage_manager.cpp:837-867 | Manifest, store and filter after the split loop; a failed save changes no object |
| `ObjectLayer.DedupObjectLayer.GetObject` | Implementation Engineering/Private Cloud/data/object_storage/storage_manager.cpp:872-894 | The concatenation of the manifest's chunks, or failure at the first missing one |
| `ObjectLayer.DedupObjectLayer.StoreNext` | Implementation Engineering/Private Cloud/data/object_storage/storage_manager.cpp:844-859 | One turn of the split loop: the next chunk's bounds, its store and its manifest entry |
| `ObjectLayer.PutObjectIsRun` | Implementation Engineering/Private Cloud/data/object_storage/storage_manager.cpp:844-867 | The method is a run of the interleaved model, so the round trip covers it |
| `Sealing.Cipher.OpenSeal` | Implementation Engineering/Private Cloud/data/object_storage/storage_manager.cpp:167-226 | A written file is 12 bytes of IV, 16 of tag, then the ciphertext, and opens to its plaintext |
| `Multipart.CompletionStores` | Implementation Engineering/Private Cloud/data/object_storage/storage_manager.cpp:417-472 | After any run of concurrent uploads, and by the list of operations alone: a completion succeeds exactly if its list names the ETags of the bytes last accepted for each part and the final put succeeds; it stores those parts 1, 2, ... up to the first gap in numeric order, which with numbers 1..n is every part; once the list passes the upload is closed even if the final put fails; any other completion changes nothing |
| `Multipart.LeadingIsAllIff` | Implementation Engineering/Private Cloud/data/object_storage/storage_manager.cpp:438-440 | Completion keeps all bytes if and only if no part past the first gap has any |
| `Multipart.PassingListIsTableIff` | Implementation Engineering/Private Cloud/data/object_storage/storage_manager.cpp:429-434 | A list that passes the size test and the lookups is the stored part table if and only if it repeats no part number |
| `Multipart.RunMatches` | Implementation Engineering/Private Cloud/data/object_storage/storage_manager.cpp:354-484 | Over every run the uploads, their keys and types, part numbers and ETags, what the part files open to and the objects are what the list of operations says: for each part the data last accepted since its upload began |
| `Multipart.RunLeavesPartFiles` | Implementation Engineering/Private Cloud/data/object_storage/storage_manager.cpp:466-484 | Over every run the only files are those of the parts of open uploads |
| `Multipart.UnreadablePartFails` | Implementation Engineering/Private Cloud/data/object_storage/storage_manager.cpp:437-459 | A part file that is missing or does not open, before the first gap, fails the completion and leaves everything as it was |
| `Multipart.Config.PartPathInjective` | Implementation Engineering/Private Cloud/data/object_storage/storage_manager.cpp:487-493 | Part files of different uploads or numbers never coincide, and an upload's directory holds only its own |
| `Multipart.MultipartStore.InitiateMultipartUpload` | Implementation Engineering/Private Cloud/data/object_storage/storage_manager.cpp:354-379 | A new upload with no parts and the default content type when none is given |
| `Multipart.MultipartStore.UploadPart` | Implementation Engineering/Private Cloud/data/object_storage/storage_manager.cpp:381-415 | Accepted for the right bucket, key and number only; then file and ETag of that part are replaced |
| `Multipart.MultipartStore.CompleteMultipartUpload` | Implementation Engineering/Private Cloud/data/object_storage/storage_manager.cpp:417-472 | Validation, assembly, final put and cleanup, with every early false return |
| `Multipart.MultipartStore.AbortMultipartUpload` | Implementation Engineering/Private Cloud/data/object_storage/storage_manager.cpp:474-484 | Exactly the upload's directory and entry disappear |
| `Tiers.RunKeepsObject` | Implementation Engineering/Private Cloud/data/object_storage/storage_manager.cpp:305-349 | Over every run of promotes and demotes with failing renames, exactly one tier holds the object, its metadata, if it has any, beside it and its bytes unchanged |
| `Tiers.MoveEffect` | Implementation Engineering/Private Cloud/data/object_storage/storage_manager.cpp:305-349 | One promote or demote from any placement, copies in several tiers and missing metadata included: exactly when it succeeds, fails or throws, and what has then moved |
| `Tiers.TierIsFirst` | Implementation Engineering/Private Cloud/data/object_storage/storage_manager.cpp:295-303 | No tier before the answer holds the object, and the answer does unless no tier does |
| `Tiers.StepPlacement` | Implementation Engineering/Private Cloud/data/object_storage/storage_manager.cpp:305-349 | For an object in one tier, with or without metadata: success moves every file, a reported failure leaves them as they were, and they are separated if and only if the metadata rename and the rollback both fail |
| `Tiers.TwoDemotesEndCold` | Implementation Engineering/Private Cloud/data/object_storage/storage_manager.cpp:344-349 | Two successful demotes end in Cold from any tier |
| `Tiers.PromoteReachesHot` | Implementation Engineering/Private Cloud/data/object_storage/storage_manager.cpp:338-342 | After any run a successful promote brings the object to Hot |
| `Tiers.TieredObject.GetObjectTier` | Implementation Engineering/Private Cloud/data/object_storage/storage_manager.cpp:295-303 | The first tier in order Hot, Warm, Cold that has the object, Cold by default |
| `Tiers.TieredObject.MoveObjectToTier` | Implementation Engineering/Private Cloud/data/object_storage/storage_manager.cpp:305-336 | Both renames and the rollback, branch by branch |
| `Tiers.TieredObject.PromoteObject` | Implementation Engineering/Private Cloud/data/object_storage/storage_manager.cpp:338-342 | To Hot from the current tier |
| `Tiers.TieredObject.DemoteObject` | Implementation Engineering/Private Cloud/data/object_storage/storage_manager.cpp:344-349 | One tier down from the current tier |
| `LoadBalancing.RoundRobinFairIff` | Implementation Engineering/Private Cloud/speed/load_balancer/lb_core.cpp:22-33 | For every backend list, healthy set and cursor: |H| consecutive calls return each healthy backend exactly once if and only if the round does not wrap harmfully, or all healthy backends come before the wrap, or those that do not have the smaller indices and the call crossing the wrap has tries left to reach one |
| `LoadBalancing.NullIffAllMissed` | Implementation Engineering/Private Cloud/speed/load_balancer/lb_core.cpp:22-33 | Null is returned exactly when every healthy backend lies in the closed-form interval of indices the wrap skips; otherwise the result is healthy |
| `LoadBalancing.NullIffNoneHealthy` | Implementation Engineering/Private Cloud/speed/load_balancer/lb_core.cpp:22-33 | So without a harmful wrap null is returned exactly when no backend is healthy |
| `LoadBalancing.AllHealthyFairIff` | Implementation Engineering/Private Cloud/speed/load_balancer/lb_core.cpp:26-27 | The case of all backends healthy: a round is fair if and only if the 64-bit cursor does not wrap in it or the number of backends divides 2^64 |
| `LoadBalancing.WrapMissesHealthy` | Implementation Engineering/Private Cloud/speed/load_balancer/lb_core.cpp:22-33 | At the wrap a call can return null although a backend is healthy |
| `LoadBalancing.LoadBalancer.GetNextHealthyBackend` | Implementation Engineering/Private Cloud/speed/load_balancer/lb_core.cpp:22-33 | The chosen backend and the cursor after the scan |
| `LoadBalancing.LoadBalancer.AddBackend` | Implementation Engineering/Private Cloud/speed/load_balancer/lb_core.cpp:18-20 | A healthy backend is appended |
| `BloomFilters.BloomFilter.constructor` | Implementation Engineering/Private Cloud/common/bloom_filter.h:30-36 | A filter of the given size with every bit clear |
| `BloomFilters.BloomFilter.Clear` | Implementation Engineering/Private Cloud/common/bloom_filter.h:55-57 | Every bit clear again |
| `CountingBloomFilters.CountingBloomFilter.constructor` | Implementation Engineering/Private Cloud/common/counting_bloom_filter.h:30-39 | A new filter is exact for the empty multiset |
| `CountingBloomFilters.CountingBloomFilter.Clear` | Implementation Engineering/Private Cloud/common/counting_bloom_filter.h:72-74 | A cleared filter is exact for the empty multiset |
| `TaskQueues.TaskQueue.PersistNextSequence` | Implementation Engineering/Private Cloud/data/replication/sync_engine.cpp:628-631 | The counter record becomes next_sequence_, or nothing changes when the Put fails |
| `DedupChunkStores.DedupChunkStore.WriteBatch` | Implementation Engineering/Private Cloud/data/fast_access/dedup_chunk_store.cpp:179-191 | All deletions of the batch or none |
| `Multipart.MultipartStore.AssembleParts` | Implementation Engineering/Private Cloud/data/object_storage/storage_manager.cpp:437-459 | Part 1, 2, ... up to the first missing number joined, or failure at the first unreadable part file |
| `Multipart.MultipartStore.Close` | Implementation Engineering/Private Cloud/data/object_storage/storage_manager.cpp:466-469 | Directory and table entry of one upload removed, everything else kept |
| `Replication.ReplicationEngine.constructor` | Implementation Engineering/Private Cloud/data/replication/sync_engine.cpp:575-594 | An engine over a stored queue database: counter loaded, cache empty, breakers fresh |
| `LoadBalancing.LoadBalancer.constructor` | Implementation Engineering/Private Cloud/speed/load_balancer/lb_core.cpp:7-12 | Every configured address as a healthy backend, cursor zero |

## Left out

- HTTP, TLS, sessions and proxies: a remote is a map whose PUT and HEAD may fail.
- AES-GCM, SHA-256, Murmur and zlib bodies, and tier compression: foreign or library code.
- Threads, mutexes and sleeps: each locked region is a step and the clock a parameter. `worker_loop` calls `dequeue_task` while already holding the same mutex; the model treats the dequeue as one step.
- The dropping and any-success requeue policies and the earlier versions of the functions named above: they contradict the versions modelled.
- Sequences and reference counts are unbounded: 2^64 enqueues or stores are out of reach. Failure counts of a breaker are unbounded for the same reason.
- ChunkStores.StoreChunkEffect: takes the file write and the count Put to succeed; StoreNeedsWritesIff is the exact condition with both failing.
- DedupObjects.RoundTrip: takes those two writes to succeed in every store of the run.
- ObjectLayer.DedupObjectLayer.PutObject: takes them to succeed too, so that it is a run of that model.
- Floating-point sizing of the filters: size and number of hashes are parameters, with size above zero.
- ChunkGc.RerunFinishes: takes the removals of the interrupted cycle to succeed; RerunFinishesIff gives the exact condition without that.
- LoadBalancing.RoundRobinFairIff: holds for sequential calls; concurrent calls share the cursor's values in an unspecified order.
- Local deletes and crashes in the replication protocol: a deleted object is retried without end, and of a crash only what it forgets is proved here; runs that go on after it are those of the queue.
- hot_data_index, policy_engine, device_attestation, mutual_tls, the scaler and metrics: scores in floating point, short scans and library wrappers.
- Remote cold storage and tier-aware legacy PutObject: network access, and a metadata path that does not follow the tier.
