# Shard-follow replication loop, modelled in Dafny

This project models the per-shard replication loop of cross-cluster
replication in Elasticsearch (`ShardFollowTasksExecutor`). One follow task
keeps a follower shard in step with a leader shard:

- it is validated once, when it starts;
- it resumes from its persisted checkpoint;
- each cycle it reads the leader's global checkpoint and compares it with
  its own;
- when it is behind, it splits the missing span into bounded chunks and
  fetches and applies them one at a time;
- it then persists the leader's checkpoint and loops.

The model is purely functional. Remote calls are never made. Their results
are inputs:

- the stats answer (`Response<Option<int>>`);
- the per-chunk fetch, executor-dispatch and apply answers (`Remote`, a
  function from the requested chunk to `ChunkInputs`);
- the status-update answer (`Completion`).

Each component returns the requests it issued (statistics, fetch and apply
requests, each with its target) and the one outcome it hands to its handler. That a handler is invoked exactly once is structural: each
function returns one outcome.

Files:

- `types.dfy`: shard ids, exceptions, `Option`, `Response`, `Completion`.
  `Operation` is only carried from fetch to apply; its fields are never
  inspected.
- `partition.dfy`: `createChucks`, both as a recursive function and as the
  source's loop, with the partition lemmas.
- `processor.dfy`: `ChunkProcessor.start` / `handleResponse`.
- `coordinator.dfy`: `ChunksCoordinator.processChuck`, the sequential
  fail-fast driver.
- `controller.dfy`: `validate`, `nodeOperation`, `prepare`, and the loop of
  cycles.

The model follows the code, with one exception. The follower's checkpoint
must never go backwards, which is also what the source's own `assert` at
line 92 expects. So for a follower checkpoint above the leader's,
`Controller.Prepare` fails the task, while the code's behaviour with
assertions disabled is kept in `Controller.PrepareAsWritten`.

Two points of the code worth knowing:

- **Chunk size.** The code's first chunk is `[from, min(from + batchSize, to)]`,
  so it spans up to `batchSize + 1` sequence numbers. Later chunks span at
  most `batchSize`. The model states `hi - lo <= batchSize` for every chunk
  and `hi - lo <= batchSize - 1` for every chunk after the first.
- **Follower ahead of leader.** The code only guards this case with a Java
  `assert`. This is the exception above; see Findings.

## Model

| member | source | states |
|---|---|---|
| Partition.CreateChunks | x-pack/plugin/src/main/java/org/elasticsearch/xpack/ccr/action/ShardFollowTasksExecutor.java:153-158 | The queue is empty iff `to <= from`. Otherwise its first chunk is `[from, min(from + batchSize, to)]`. |
| Partition.CreateChunksPartition | x-pack/plugin/src/main/java/org/elasticsearch/xpack/ccr/action/ShardFollowTasksExecutor.java:153-158 | For `from < to`: the first chunk starts at `from`, each later chunk at the previous upper bound + 1, and the last ends at `to`. Every chunk has `lo <= hi`. The first spans at most `batchSize`, the others at most `batchSize - 1`. There are ceil((to - from) / batchSize) chunks. For `to <= from` there is none. |
| Partition.CreateChunksCoverage | x-pack/plugin/src/main/java/org/elasticsearch/xpack/ccr/action/ShardFollowTasksExecutor.java:153-158 | For `from < to` the chunks are ascending and pairwise disjoint. Their union is exactly [from, to]: n lies in some chunk iff from <= n <= to. |
| Partition.CreateChunksLoop | x-pack/plugin/src/main/java/org/elasticsearch/xpack/ccr/action/ShardFollowTasksExecutor.java:153-158 | The source's `for` loop, which appends to the queue, builds the same queue as the recursive definition. That queue has the partition properties and the chunk count above. |
| Partition.ChunksFromCount | x-pack/plugin/src/main/java/org/elasticsearch/xpack/ccr/action/ShardFollowTasksExecutor.java:154-157 | From cursor `i` the loop emits ceil((to - i) / batchSize) chunks. |
| Partition.LaterChunks | x-pack/plugin/src/main/java/org/elasticsearch/xpack/ccr/action/ShardFollowTasksExecutor.java:154-156 | Iterations after the first emit a contiguous run starting at `i + 1` and ending at `to`. Each chunk in it is non-empty and spans at most `batchSize - 1`. |
| Partition.ExampleThreeChunks | x-pack/plugin/src/main/java/org/elasticsearch/xpack/ccr/action/ShardFollowTasksExecutor.java:154-156 | from=0, to=2500, batchSize=1024 gives [0,1024], [1025,2048], [2049,2500]. |
| Partition.ExampleSingleChunk | x-pack/plugin/src/main/java/org/elasticsearch/xpack/ccr/action/ShardFollowTasksExecutor.java:154-156 | from=5, to=50, batchSize=1000 gives the single chunk [5,50]. |
| Processor.Outcome | x-pack/plugin/src/main/java/org/elasticsearch/xpack/ccr/action/ShardFollowTasksExecutor.java:199-242 | A chunk succeeds iff the fetch, the dispatch of the apply step and the apply all succeed. A fetch failure is reported as the chunk's failure. After a successful fetch, a dispatch failure is reported as is, and otherwise the apply's answer is the outcome. |
| Processor.Process | x-pack/plugin/src/main/java/org/elasticsearch/xpack/ccr/action/ShardFollowTasksExecutor.java:199-242 | The first request fetches exactly [lo, hi] of the chunk from the leader shard, and it is the only fetch. A fetch or dispatch failure issues no apply. Otherwise exactly one apply is sent to the follower shard, carrying the fetched operations, possibly none. Every request goes to its shard: fetches to the leader, applies to the follower. |
| Coordinator.Drive | x-pack/plugin/src/main/java/org/elasticsearch/xpack/ccr/action/ShardFollowTasksExecutor.java:160-174 | Started chunks are a prefix of the queue, started in queue order. All started chunks but the last succeeded. Success iff every chunk was started and succeeded. A failure is the last started chunk's failure. The requests are exactly those of one processor per started chunk, run one after another in start order: a chunk's fetch (and apply, if any) come after the previous chunk finished, and nothing is sent after the failing chunk. Every fetch goes to the leader shard and every apply to the follower shard. |
| Coordinator.FailFast | x-pack/plugin/src/main/java/org/elasticsearch/xpack/ccr/action/ShardFollowTasksExecutor.java:166-172 | If chunk k is the first to fail, exactly chunks 0..k are started. Chunk k's failure is the outcome. |
| Coordinator.DriveAppliesInOrder | x-pack/plugin/src/main/java/org/elasticsearch/xpack/ccr/action/ShardFollowTasksExecutor.java:160-174 | After overall success the follower shard received one bulk request per chunk, in queue order. Each carried that chunk's fetched operations. No request went to another shard. |
| Coordinator.EmptyQueueSucceeds | x-pack/plugin/src/main/java/org/elasticsearch/xpack/ccr/action/ShardFollowTasksExecutor.java:161-164 | An empty queue reports success at once. No chunk is started and no request is issued. |
| Coordinator.EmptySpanSucceeds | x-pack/plugin/src/main/java/org/elasticsearch/xpack/ccr/action/ShardFollowTasksExecutor.java:153-164 | A span with `to <= from` yields no chunk. Driving it reports success with no chunk started and no request. |
| Controller.Validate | x-pack/plugin/src/main/java/org/elasticsearch/xpack/ccr/action/ShardFollowTasksExecutor.java:50-59 | Accepted iff both primaries are started. The leader is checked first, and each rejection carries its own IllegalArgument message. |
| Controller.NodeOperation | x-pack/plugin/src/main/java/org/elasticsearch/xpack/ccr/action/ShardFollowTasksExecutor.java:63-72 | The unit it builds keeps the given parameters, state and status. Its starting checkpoint agrees with the status: the persisted checkpoint, or NO_OPS_PERFORMED when there is none. |
| Controller.ResumePoint | x-pack/plugin/src/main/java/org/elasticsearch/xpack/ccr/action/ShardFollowTasksExecutor.java:66-70 | A fresh task starts from NO_OPS_PERFORMED (-1). A resumed task starts from its stored processed checkpoint. |
| Controller.Prepare | x-pack/plugin/src/main/java/org/elasticsearch/xpack/ccr/action/ShardFollowTasksExecutor.java:74-115 | Not STARTED: no request, nothing reported or changed. A started cycle first requests statistics of the leader's index. A failed stats call, or no primary leader entry, fails the task with that cause before any chunk. Retry iff leader == follow, with the checkpoint unchanged and no request after the statistics. Follow > leader is a distinct fatal failure. Follow < leader builds the queue over [follow, leader] and drives it in order; a chunk's failure, or else a failed status update, fails the task with that failure. The checkpoint changes only by an advance, to the observed leader checkpoint, strictly upward, after every chunk and the status update succeeded; an advance changes nothing else, so the task stays STARTED and loops. Failures are recorded in the task state. Every request goes to the leader's index, the leader shard or the follower shard as its kind requires. |
| Controller.Replicate | x-pack/plugin/src/main/java/org/elasticsearch/xpack/ccr/action/ShardFollowTasksExecutor.java:95-109 | The replication half of a cycle: the queue is the partition of [follow, leader], driven after the statistics request. A chunk failure, or else a failed status update, marks the task failed with that cause and keeps checkpoint and status. Otherwise the status and checkpoint become the leader's checkpoint, after one fetch per chunk. |
| Controller.AdvanceIff | x-pack/plugin/src/main/java/org/elasticsearch/xpack/ccr/action/ShardFollowTasksExecutor.java:95-105 | A cycle advances iff: the task is started, the leader is ahead, every chunk of [follow, leader] succeeds, and the status update succeeds. |
| Controller.PrepareKeepsConsistent | x-pack/plugin/src/main/java/org/elasticsearch/xpack/ccr/action/ShardFollowTasksExecutor.java:95-101 | Each cycle keeps the persisted status and the running checkpoint in agreement. |
| Controller.Follow | x-pack/plugin/src/main/java/org/elasticsearch/xpack/ccr/action/ShardFollowTasksExecutor.java:74-130 | Each cycle is `prepare` run on the unit the previous cycle left (the given unit for the first), as the cycle finds it, on that cycle's observation. The loop runs `prepare` again after a retry or an advance and stops after a halt or a failure. The parameters never change. |
| Controller.CancelStops | x-pack/plugin/src/main/java/org/elasticsearch/xpack/ccr/action/ShardFollowTasksExecutor.java:75-78 | A cycle that finds the task cancelled or stopped returns at once: it halts, issues no request, and is the last cycle of the run. |
| Controller.FollowMonotone | x-pack/plugin/src/main/java/org/elasticsearch/xpack/ccr/action/ShardFollowTasksExecutor.java:95-101 | Along any run the checkpoint never decreases. Every advance records a checkpoint above the starting one and above every checkpoint an earlier advance recorded. |
| Controller.FollowConsistent | x-pack/plugin/src/main/java/org/elasticsearch/xpack/ccr/action/ShardFollowTasksExecutor.java:95-101 | Starting from a consistent unit, every state along a run keeps status and checkpoint in agreement. |
| Controller.AsWrittenRegresses | x-pack/plugin/src/main/java/org/elasticsearch/xpack/ccr/action/ShardFollowTasksExecutor.java:89-109 | With assertions disabled, leader < follow yields no chunk, persists the lower leader checkpoint and advances to it: the checkpoint goes backwards. |
| Controller.AsWrittenAgrees | x-pack/plugin/src/main/java/org/elasticsearch/xpack/ccr/action/ShardFollowTasksExecutor.java:89-109 | Except when leader < follow, the corrected cycle equals the source's cycle. |
| Controller.PrepareAsWritten | x-pack/plugin/src/main/java/org/elasticsearch/xpack/ccr/action/ShardFollowTasksExecutor.java:74-115 | `prepare` with assertions disabled. It halts iff not STARTED and retries iff leader == follow. A failed stats call or a missing entry fails the task. An advance goes to the observed leader checkpoint, different from the current one, after every chunk and the status update succeeded. It need not go upward. Otherwise checkpoint and status are kept. |

## Left out

- Transport calls (`IndicesStatsRequest`, `ShardChangesAction`, `BulkShardOperationsAction`) are not made. Their answers are inputs, and the model records each request, with its target, as a `Call` value. The status update (`updatePersistentStatus`) is not recorded as a request; its answer is the `persist` input.
- Thread pools are left out: the `ccrExecutor` redispatch and `threadPool.schedule` with its 500 ms `RETRY_TIMEOUT`. The apply step's `onFailure` is kept as the `dispatch` input. A retry is the action `Retry(checkpoint)` with no timing.
- The `onFailure` of the scheduled retry runnable, which marks the task failed when scheduling is rejected, is not modelled. It belongs to the thread pool.
- The `ConcurrentLinkedQueue` is a plain sequence: only one driver ever touches it. `getChunks` is a test accessor and is not modelled.
- The persistent-task framework is reduced to data: `AllocatedPersistentTask` states, `updatePersistentStatus` and `markAsFailed`. States other than STARTED are represented by `Failed` and `Stopped`. A cancellation is an observation flag that the next cycle sees when it reads the task's state, as `prepare` does at its start. A cancellation that arrives while a cycle is in flight takes effect at the next cycle, which is also what the source does.
- Routing-table lookups in `validate` are reduced to two booleans, "leader primary started" and "follower primary started". A missing routing entry, which throws in the source, is not modelled.
- The stats response is reduced to the primary leader shard's global checkpoint, or its absence. The shard-id and primary filters are not modelled.
- Operation contents and wire format are opaque.
- Java `long` overflow of `i + batchSize` is not modelled: integers are unbounded.
- Every operation over chunks requires `batchSize > 0`. Once the leader is ahead, `createChucks` (line 154) does not terminate for `batchSize == 0`, nor for any negative size when integers are unbounded. With Java `long` arithmetic some negative sizes wrap around and stop, e.g. from 0 to 10 with batch size -2^62 gives 3 chunks. Neither case has an outcome a function could return.
- Controller.Prepare: requires `batchSize > 0` even on the halt, failure and retry paths, which never partition; those paths with a non-positive batch size are not covered. The same holds for `Controller.Follow` and the lemmas about it.
- The Java `assert` with assertions enabled is not modelled. An `AssertionError` escapes the listener and leaves the task neither advanced nor failed.
- `ShardFollowTask`, its `Status` class and `SequenceNumbers` are not part of this model beyond the fields and the constant used here.

## Findings

| source | as written | input that shows it | evidently intended | confidence | as-written member | corrected member |
|---|---|---|---|---|---|---|
| x-pack/plugin/src/main/java/org/elasticsearch/xpack/ccr/action/ShardFollowTasksExecutor.java:89-109 | Only a Java `assert` stops a follower checkpoint above the leader's. Assertions are off by default in production. The span `[follow, leader]` is then empty, so `createChucks` adds no chunk and `processChuck` reports success. The handler persists the leader checkpoint and loops from it. | follow = 10, leader reports 5, status update succeeds: checkpoint 5 is persisted and the next cycle starts from 5 | A fatal consistency failure. The checkpoint must never go backwards. | medium, not executed | Controller.AsWrittenRegresses | Controller.Prepare |
