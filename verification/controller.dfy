/**
 * The follow controller of one shard pair (`ShardFollowTasksExecutor`):
 * start-up validation, the resume point chosen by `nodeOperation`, and the
 * `prepare` cycle that compares checkpoints, retries on parity, replicates
 * the missing span chunk by chunk, persists the new checkpoint and loops.
 *
 * Each cycle is a step from the unit's state and what the cycle observed
 * (the leader's statistics, the chunk answers, the persistence answer) to
 * the next state and an action.
 */
module Controller {
  import opened Types
  import opened Partition
  import opened Processor
  import opened Coordinator

  /** The checkpoint of a shard on which no operation was performed yet. */
  const NO_OPS_PERFORMED: int := -1

  const LEADER_NOT_STARTED: string := "Not all copies of leader shard are started"
  const FOLLOW_NOT_STARTED: string := "Not all copies of follow shard are started"
  const MISSING_LEADER_STATS: string := "Cannot find shard stats for primary leader shard"

  /** The task's parameters. */
  datatype ShardFollowTask = ShardFollowTask(leaderShard: ShardId, followShard: ShardId, batchSize: int)

  /** The task's persisted status. */
  datatype Status = Status(processedGlobalCheckpoint: int)

  /** The persistent task's lifecycle state; only `Started` lets a cycle run. */
  datatype TaskState = Started | Failed(cause: Exception) | Stopped

  /**
   * One replication unit between cycles: its parameters, lifecycle state,
   * persisted status (absent for a fresh follower) and the checkpoint the
   * next cycle starts from.
   */
  datatype Follower = Follower(params: ShardFollowTask, state: TaskState, status: Option<Status>, checkpoint: int)

  /** What one cycle observes from the outside world. */
  datatype Observation = Observation(
    cancelled: bool,               // the task was cancelled or stopped since the previous cycle
    stats: Response<Option<int>>,  // the stats call: its failure, or the primary leader shard's global checkpoint if listed
    remote: Remote,                // the answers to each chunk's fetch and apply
    persist: Completion)           // the answer to the status update

  /** How a cycle ends. */
  datatype Action =
    | Halt                      // the task is not started: return without reporting
    | MarkFailed(cause: Exception)
    | Retry(checkpoint: int)    // run the cycle again after the retry delay, same checkpoint
    | Advance(checkpoint: int)  // checkpoint persisted, next cycle starts from it

  /** One finished cycle: the next state, the action, the chunk queue built and the requests issued. */
  datatype Cycle = Cycle(next: Follower, action: Action, queue: seq<Chunk>, calls: seq<Call>)

  /** Actions after which the loop runs another cycle. */
  predicate Continues(a: Action) {
    a.Retry? || a.Advance?
  }

  /** The persisted status and the running checkpoint agree. */
  ghost predicate Consistent(f: Follower) {
    match f.status
    case None => f.checkpoint == NO_OPS_PERFORMED
    case Some(s) => f.checkpoint == s.processedGlobalCheckpoint
  }

  /**
   * The unit as a cycle finds it when it reads the task's state: a
   * cancellation that arrived since the previous cycle leaves it `Stopped`,
   * with its checkpoint and status kept.
   */
  function Arrive(f: Follower, obs: Observation): Follower {
    if obs.cancelled then f.(state := Stopped) else f
  }

  /** The started cycle finds the follower behind the leader's reported checkpoint. */
  predicate Behind(f: Follower, obs: Observation) {
    f.state.Started? && obs.stats.Ok? && obs.stats.value.Some? && f.checkpoint < obs.stats.value.value
  }

  /** The statistics request a started cycle issues first, on the leader's index. */
  function StatsRequest(f: Follower): Call {
    Stats(f.params.leaderShard.indexName)
  }

  /**
   * Start-up validation: the task may start only when both the leader's and
   * the follower's primary shards are started; the leader is checked first.
   */
  function Validate(leaderPrimaryStarted: bool, followPrimaryStarted: bool): (r: Completion)
    ensures r.Success? <==> leaderPrimaryStarted && followPrimaryStarted
    ensures !leaderPrimaryStarted ==> r == Failure(IllegalArgument(LEADER_NOT_STARTED))
    ensures leaderPrimaryStarted && !followPrimaryStarted ==> r == Failure(IllegalArgument(FOLLOW_NOT_STARTED))
  {
    if !leaderPrimaryStarted then Failure(IllegalArgument(LEADER_NOT_STARTED))
    else if !followPrimaryStarted then Failure(IllegalArgument(FOLLOW_NOT_STARTED))
    else Success
  }

  /**
   * The unit the first cycle runs on: it resumes from the persisted
   * checkpoint, or from NO_OPS_PERFORMED when there is no status.
   */
  function NodeOperation(params: ShardFollowTask, state: TaskState, status: Option<Status>): (f: Follower)
    ensures Consistent(f)
    ensures f.params == params && f.state == state && f.status == status
  {
    var checkpoint := if status.Some? then status.value.processedGlobalCheckpoint else NO_OPS_PERFORMED;
    Follower(params, state, status, checkpoint)
  }

  /** `markAsFailed(e)`: the task stops with cause `e`; checkpoint and status are kept. */
  function FailWith(f: Follower, e: Exception, queue: seq<Chunk>, calls: seq<Call>): Cycle {
    Cycle(f.(state := Failed(e)), MarkFailed(e), queue, calls)
  }

  /** The coordinator's run over the chunks of [f.checkpoint, leaderCheckpoint]. */
  function Run(f: Follower, leaderCheckpoint: int, obs: Observation): DriveRun
    requires f.params.batchSize > 0
  {
    Drive(f.params.leaderShard, f.params.followShard,
          CreateChunks(f.checkpoint, leaderCheckpoint, f.params.batchSize), obs.remote)
  }

  /**
   * Replicates [f.checkpoint, leaderCheckpoint] after the statistics request:
   * partition, drive the chunks, and on success persist and advance to
   * `leaderCheckpoint`.
   */
  function Replicate(f: Follower, leaderCheckpoint: int, obs: Observation): (r: Cycle)
    requires f.params.batchSize > 0
    ensures r.queue == CreateChunks(f.checkpoint, leaderCheckpoint, f.params.batchSize)
    ensures r.calls == [StatsRequest(f)] + Run(f, leaderCheckpoint, obs).calls
    ensures Routed(r.calls, f.params.leaderShard, f.params.followShard)
    ensures f.checkpoint < leaderCheckpoint ==> 0 < |FetchedRanges(r.calls)|
    ensures |FetchedRanges(r.calls)| <= |r.queue|
    ensures FetchedRanges(r.calls) == r.queue[..|FetchedRanges(r.calls)|]
    ensures Run(f, leaderCheckpoint, obs).outcome.Failure?
      ==> r.action == MarkFailed(Run(f, leaderCheckpoint, obs).outcome.error)
    ensures AllSucceed(r.queue, obs.remote) && obs.persist.Failure? ==> r.action == MarkFailed(obs.persist.error)
    ensures r.action.MarkFailed? || r.action.Advance?
    ensures r.action.MarkFailed? ==> r.next == f.(state := Failed(r.action.cause))
    ensures r.action.Advance? <==> AllSucceed(r.queue, obs.remote) && obs.persist.Success?
    ensures r.action.Advance? ==>
      && r.action.checkpoint == leaderCheckpoint
      && r.next == f.(status := Some(Status(leaderCheckpoint)), checkpoint := leaderCheckpoint)
      && FetchedRanges(r.calls) == r.queue
  {
    CreateChunksPartition(f.checkpoint, leaderCheckpoint, f.params.batchSize);
    ProjectionsAppend([StatsRequest(f)], Run(f, leaderCheckpoint, obs).calls);
    RoutedAppend([StatsRequest(f)], Run(f, leaderCheckpoint, obs).calls, f.params.leaderShard, f.params.followShard);
    var queue := CreateChunks(f.checkpoint, leaderCheckpoint, f.params.batchSize);
    var run := Run(f, leaderCheckpoint, obs);
    var calls := [StatsRequest(f)] + run.calls;
    if run.outcome.Failure? then
      FailWith(f, run.outcome.error, queue, calls)
    else if obs.persist.Failure? then
      FailWith(f, obs.persist.error, queue, calls)
    else
      var next := f.(status := Some(Status(leaderCheckpoint)), checkpoint := leaderCheckpoint);
      Cycle(next, Advance(leaderCheckpoint), queue, calls)
  }

  /**
   * `prepare` as written, run with Java assertions disabled: a
   * follower checkpoint above the leader's is not caught and falls through
   * to replication of an empty span.
   */
  function PrepareAsWritten(f: Follower, obs: Observation): (r: Cycle)
    requires f.params.batchSize > 0
    ensures r.action.Halt? <==> !f.state.Started?
    ensures r.action.Retry? <==> f.state.Started? && obs.stats == Ok(Some(f.checkpoint))
    ensures f.state.Started? && (obs.stats.Err? || obs.stats == Ok(None)) ==> r.action.MarkFailed?
    // an advance goes to the observed leader checkpoint after every chunk and the status update
    // succeeded, but need not go upward
    ensures r.action.Advance? ==>
      && obs.stats == Ok(Some(r.action.checkpoint))
      && r.action.checkpoint != f.checkpoint
      && r.next == f.(status := Some(Status(r.action.checkpoint)), checkpoint := r.action.checkpoint)
      && AllSucceed(r.queue, obs.remote)
      && obs.persist.Success?
    ensures !r.action.Advance? ==> r.next.checkpoint == f.checkpoint && r.next.status == f.status
  {
    if !f.state.Started? then
      Cycle(f, Halt, [], [])
    else
      match obs.stats
      case Err(e) => FailWith(f, e, [], [StatsRequest(f)])
      case Ok(None) => FailWith(f, IllegalArgument(MISSING_LEADER_STATS), [], [StatsRequest(f)])
      case Ok(Some(leaderCheckpoint)) =>
        if leaderCheckpoint == f.checkpoint then Cycle(f, Retry(f.checkpoint), [], [StatsRequest(f)])
        else Replicate(f, leaderCheckpoint, obs)
  }

  /**
   * One controller cycle, with a follower checkpoint above the leader's
   * reported as a distinct fatal failure.
   */
  function Prepare(f: Follower, obs: Observation): (r: Cycle)
    requires f.params.batchSize > 0
    // not started: nothing is requested, reported or changed
    ensures !f.state.Started? ==> r == Cycle(f, Halt, [], [])
    ensures r.action.Halt? ==> !f.state.Started?
    // a started cycle first asks the leader's index for its statistics
    ensures f.state.Started? ==> |r.calls| > 0 && r.calls[0] == StatsRequest(f)
    ensures Routed(r.calls, f.params.leaderShard, f.params.followShard)
    // a failed stats call or a missing primary entry fails the task before any chunk
    ensures f.state.Started? && obs.stats.Err?
      ==> r.action == MarkFailed(obs.stats.error) && r.calls == [StatsRequest(f)]
    ensures f.state.Started? && obs.stats == Ok(None)
      ==> r.action == MarkFailed(IllegalArgument(MISSING_LEADER_STATS)) && r.calls == [StatsRequest(f)]
    // parity: one retry from the same checkpoint, no request after the statistics
    ensures r.action.Retry? <==> f.state.Started? && obs.stats == Ok(Some(f.checkpoint))
    ensures r.action.Retry? ==> r == Cycle(f, Retry(f.checkpoint), [], [StatsRequest(f)])
    // follower ahead: a distinct fatal failure, no request after the statistics
    ensures f.state.Started? && obs.stats.Ok? && obs.stats.value.Some? && obs.stats.value.value < f.checkpoint
      ==> r.action == MarkFailed(FollowerAhead(f.checkpoint, obs.stats.value.value)) && r.calls == [StatsRequest(f)]
    // behind: the span [checkpoint, leader] is partitioned and driven in order
    ensures Behind(f, obs)
      ==> r.queue == CreateChunks(f.checkpoint, obs.stats.value.value, f.params.batchSize)
          && r.calls == [StatsRequest(f)] + Run(f, obs.stats.value.value, obs).calls
          && 0 < |FetchedRanges(r.calls)| <= |r.queue|
          && FetchedRanges(r.calls) == r.queue[..|FetchedRanges(r.calls)|]
    // behind, and a chunk failed: the task fails with that chunk's failure
    ensures Behind(f, obs) && Run(f, obs.stats.value.value, obs).outcome.Failure?
      ==> r.action == MarkFailed(Run(f, obs.stats.value.value, obs).outcome.error)
    // behind, every chunk succeeded, the status update failed: the task fails with that failure
    ensures Behind(f, obs) && AllSucceed(r.queue, obs.remote) && obs.persist.Failure?
      ==> r.action == MarkFailed(obs.persist.error)
    // failures are recorded in the task state
    ensures r.action.MarkFailed? ==> r.next.state == Failed(r.action.cause)
    // the checkpoint moves only by an advance, only upward, only to the observed leader checkpoint
    ensures r.action.Advance? ==>
      && obs.stats == Ok(Some(r.action.checkpoint))
      && f.checkpoint < r.action.checkpoint
      && r.next.checkpoint == r.action.checkpoint
      && r.next.status == Some(Status(r.action.checkpoint))
      && FetchedRanges(r.calls) == r.queue
      && AllSucceed(r.queue, obs.remote)
      && obs.persist.Success?
    ensures r.action.Advance? ==> r.next == f.(status := Some(Status(r.action.checkpoint)), checkpoint := r.action.checkpoint)
    ensures !r.action.Advance? ==> r.next.checkpoint == f.checkpoint && r.next.status == f.status
    ensures r.next.params == f.params
  {
    if !f.state.Started? then
      Cycle(f, Halt, [], [])
    else
      match obs.stats
      case Err(e) => FailWith(f, e, [], [StatsRequest(f)])
      case Ok(None) => FailWith(f, IllegalArgument(MISSING_LEADER_STATS), [], [StatsRequest(f)])
      case Ok(Some(leaderCheckpoint)) =>
        if leaderCheckpoint == f.checkpoint then Cycle(f, Retry(f.checkpoint), [], [StatsRequest(f)])
        else if leaderCheckpoint < f.checkpoint then
          FailWith(f, FollowerAhead(f.checkpoint, leaderCheckpoint), [], [StatsRequest(f)])
        else
          Replicate(f, leaderCheckpoint, obs)
  }

  /**
   * A cycle advances exactly when the task is started, the leader is ahead,
   * every chunk of [checkpoint, leader] succeeds and the status update
   * succeeds.
   */
  lemma AdvanceIff(f: Follower, obs: Observation)
    requires f.params.batchSize > 0
    ensures Prepare(f, obs).action.Advance? <==>
      && f.state.Started?
      && obs.stats.Ok? && obs.stats.value.Some?
      && f.checkpoint < obs.stats.value.value
      && AllSucceed(CreateChunks(f.checkpoint, obs.stats.value.value, f.params.batchSize), obs.remote)
      && obs.persist.Success?
  {
  }

  /** Every cycle keeps the persisted status and the running checkpoint in agreement. */
  lemma PrepareKeepsConsistent(f: Follower, obs: Observation)
    requires f.params.batchSize > 0 && Consistent(f)
    ensures Consistent(Prepare(f, obs).next)
  {
  }

  /** `c` is the cycle that runs on observation `obs` from unit `f`. */
  ghost predicate Step(f: Follower, obs: Observation, c: Cycle) {
    f.params.batchSize > 0 && c == Prepare(Arrive(f, obs), obs)
  }

  /** The unit cycle `k` of `trace` starts from: `f` for the first, the previous cycle's next state otherwise. */
  function Before(f: Follower, trace: seq<Cycle>, k: nat): Follower
    requires k <= |trace|
  {
    if k == 0 then f else trace[k - 1].next
  }

  /** A first step followed by a run from its next state is a run from `f`. */
  lemma StepsCons(f: Follower, observations: seq<Observation>, c: Cycle, rest: seq<Cycle>)
    requires |observations| > 0 && |rest| < |observations|
    requires Step(f, observations[0], c)
    requires forall k :: 0 <= k < |rest| ==> Step(Before(c.next, rest, k), observations[1..][k], rest[k])
    ensures forall k :: 0 <= k < |[c] + rest| ==> Step(Before(f, [c] + rest, k), observations[k], ([c] + rest)[k])
  {
    var trace := [c] + rest;
    forall k | 0 <= k < |trace|
      ensures Step(Before(f, trace, k), observations[k], trace[k])
    {
      if k > 0 {
        assert trace[k] == rest[k - 1];
        assert observations[k] == observations[1..][k - 1];
        assert Before(f, trace, k) == Before(c.next, rest, k - 1);
      }
    }
  }

  /** What a run of the loop from `f` over `observations` guarantees; see `Follow`. */
  ghost predicate FollowSpec(f: Follower, observations: seq<Observation>, trace: seq<Cycle>) {
    && |trace| <= |observations|
    && (|observations| > 0 ==> |trace| > 0)
    && (forall k {:trigger observations[k]} :: 0 <= k < |trace| ==> Step(Before(f, trace, k), observations[k], trace[k]))
    && (forall k :: 0 <= k < |trace| - 1 ==> Continues(trace[k].action))
    && (0 < |trace| < |observations| ==> !Continues(trace[|trace| - 1].action))
    && (forall k :: 0 <= k < |trace| ==> trace[k].next.params == f.params)
  }

  /** A continuing first cycle followed by a run from its next state is a run from `f`. */
  lemma FollowCons(f: Follower, observations: seq<Observation>, c: Cycle, rest: seq<Cycle>)
    requires |observations| > 0 && Step(f, observations[0], c)
    requires Continues(c.action) && c.next.params == f.params
    requires FollowSpec(c.next, observations[1..], rest)
    ensures FollowSpec(f, observations, [c] + rest)
  {
    var trace := [c] + rest;
    StepsCons(f, observations, c, rest);
    assert forall k :: 0 < k < |trace| ==> trace[k] == rest[k - 1];
  }

  /** A first cycle after which the loop stops is a whole run from `f`. */
  lemma FollowLast(f: Follower, observations: seq<Observation>, c: Cycle)
    requires |observations| > 0 && Step(f, observations[0], c)
    requires !Continues(c.action) && c.next.params == f.params
    ensures FollowSpec(f, observations, [c])
  {
  }

  /**
   * The loop of cycles fed by `observations`: each cycle runs `prepare` on
   * the unit the previous cycle left, as that cycle finds it; the loop runs
   * another cycle after a retry or an advance and stops after a halt or a
   * failure, or when the observations run out.
   */
  function Follow(f: Follower, observations: seq<Observation>): (trace: seq<Cycle>)
    requires f.params.batchSize > 0
    ensures FollowSpec(f, observations, trace)
    decreases |observations|
  {
    if observations == [] then []
    else
      var c := Prepare(Arrive(f, observations[0]), observations[0]);
      if Continues(c.action) then
        var rest := Follow(c.next, observations[1..]);
        FollowCons(f, observations, c, rest);
        [c] + rest
      else
        FollowLast(f, observations, c);
        [c]
  }

  /**
   * A cancellation stops the loop: the cycle that finds the task cancelled
   * halts without a request and is the last one.
   */
  lemma CancelStops(f: Follower, observations: seq<Observation>, k: nat)
    requires f.params.batchSize > 0
    requires k < |Follow(f, observations)| && observations[k].cancelled
    ensures Follow(f, observations)[k].action == Halt
    ensures Follow(f, observations)[k].calls == []
    ensures |Follow(f, observations)| == k + 1
  {
  }

  /**
   * Along `trace`, started from checkpoint `start`, the checkpoint never
   * decreases, and each advance records a checkpoint strictly above `start`
   * and above every checkpoint an earlier advance recorded.
   */
  ghost predicate Monotone(start: int, trace: seq<Cycle>) {
    && (forall k :: 0 <= k < |trace| ==> start <= trace[k].next.checkpoint)
    && (forall k :: 0 <= k < |trace| && trace[k].action.Advance? ==> start < trace[k].action.checkpoint)
    && (forall j, k :: 0 <= j <= k < |trace| ==> trace[j].next.checkpoint <= trace[k].next.checkpoint)
    && (forall j, k ::
          (0 <= j < k < |trace| && trace[j].action.Advance? && trace[k].action.Advance?) ==>
          trace[j].action.checkpoint < trace[k].action.checkpoint)
  }

  /** A first cycle that moves the checkpoint only upward, followed by a monotone run from its result, is monotone. */
  lemma MonotoneCons(start: int, c: Cycle, rest: seq<Cycle>)
    requires start <= c.next.checkpoint
    requires c.action.Advance? ==> start < c.action.checkpoint && c.action.checkpoint == c.next.checkpoint
    requires Monotone(c.next.checkpoint, rest)
    ensures Monotone(start, [c] + rest)
  {
    var trace := [c] + rest;
    forall j, k | 0 <= j <= k < |trace|
      ensures trace[j].next.checkpoint <= trace[k].next.checkpoint
    {
      if j > 0 {
        assert trace[j] == rest[j - 1];
      }
      if k > 0 {
        assert trace[k] == rest[k - 1];
      }
    }
    forall j, k | 0 <= j < k < |trace| && trace[j].action.Advance? && trace[k].action.Advance?
      ensures trace[j].action.checkpoint < trace[k].action.checkpoint
    {
      if j > 0 {
        assert trace[j] == rest[j - 1];
      }
      assert trace[k] == rest[k - 1];
    }
    forall k | 0 < k < |trace|
      ensures start <= trace[k].next.checkpoint
      ensures trace[k].action.Advance? ==> start < trace[k].action.checkpoint
    {
      assert trace[k] == rest[k - 1];
    }
  }

  /** A cycle moves the checkpoint only upward, and an advance moves it to the advanced-to checkpoint. */
  lemma CycleMoves(f: Follower, obs: Observation)
    requires f.params.batchSize > 0
    ensures f.checkpoint <= Prepare(Arrive(f, obs), obs).next.checkpoint
    ensures Prepare(Arrive(f, obs), obs).action.Advance? ==>
      && f.checkpoint < Prepare(Arrive(f, obs), obs).action.checkpoint
      && Prepare(Arrive(f, obs), obs).action.checkpoint == Prepare(Arrive(f, obs), obs).next.checkpoint
  {
  }

  /** Every run of the loop is monotone from its starting checkpoint. */
  lemma {:induction false} MonotoneRun(f: Follower, observations: seq<Observation>)
    requires f.params.batchSize > 0
    ensures Monotone(f.checkpoint, Follow(f, observations))
    decreases |observations|
  {
    if observations != [] {
      var c := Prepare(Arrive(f, observations[0]), observations[0]);
      CycleMoves(f, observations[0]);
      if Continues(c.action) {
        var rest := Follow(c.next, observations[1..]);
        MonotoneRun(c.next, observations[1..]);
        assert Follow(f, observations) == [c] + rest;
        MonotoneCons(f.checkpoint, c, rest);
      } else {
        assert Follow(f, observations) == [c];
      }
    }
  }

  /**
   * Along any run of the loop the checkpoint never decreases, and each
   * advance records a checkpoint strictly above the starting one and above
   * every checkpoint an earlier advance recorded.
   */
  lemma FollowMonotone(f: Follower, observations: seq<Observation>)
    requires f.params.batchSize > 0
    ensures forall k :: 0 <= k < |Follow(f, observations)| ==>
      f.checkpoint <= Follow(f, observations)[k].next.checkpoint
    ensures forall k :: 0 <= k < |Follow(f, observations)| && Follow(f, observations)[k].action.Advance? ==>
      f.checkpoint < Follow(f, observations)[k].action.checkpoint
    ensures forall j, k :: 0 <= j <= k < |Follow(f, observations)| ==>
      Follow(f, observations)[j].next.checkpoint <= Follow(f, observations)[k].next.checkpoint
    ensures forall j, k ::
      (0 <= j < k < |Follow(f, observations)|
       && Follow(f, observations)[j].action.Advance? && Follow(f, observations)[k].action.Advance?) ==>
      Follow(f, observations)[j].action.checkpoint < Follow(f, observations)[k].action.checkpoint
  {
    MonotoneRun(f, observations);
  }

  /** Along any run from a consistent unit, persisted status and checkpoint stay in agreement. */
  lemma {:induction false} FollowConsistent(f: Follower, observations: seq<Observation>)
    requires f.params.batchSize > 0 && Consistent(f)
    ensures forall k :: 0 <= k < |Follow(f, observations)| ==> Consistent(Follow(f, observations)[k].next)
    decreases |observations|
  {
    if observations != [] {
      var g := Arrive(f, observations[0]);
      var c := Prepare(g, observations[0]);
      PrepareKeepsConsistent(g, observations[0]);
      if Continues(c.action) {
        FollowConsistent(c.next, observations[1..]);
        var trace := Follow(f, observations);
        var rest := Follow(c.next, observations[1..]);
        assert trace == [c] + rest;
        assert forall k :: 0 < k < |trace| ==> trace[k] == rest[k - 1];
      }
    }
  }

  /**
   * With assertions disabled, a leader checkpoint below the follower's
   * passes the parity test, yields no chunk, and persists the lower leader
   * checkpoint: the unit's checkpoint goes backwards.
   */
  lemma AsWrittenRegresses(f: Follower, obs: Observation, leaderCheckpoint: int)
    requires f.params.batchSize > 0 && f.state.Started?
    requires obs.stats == Ok(Some(leaderCheckpoint)) && leaderCheckpoint < f.checkpoint
    requires obs.persist.Success?
    ensures PrepareAsWritten(f, obs).action == Advance(leaderCheckpoint)
    ensures PrepareAsWritten(f, obs).next.checkpoint < f.checkpoint
    ensures PrepareAsWritten(f, obs).calls == [StatsRequest(f)]
  {
  }

  /** Apart from a follower checkpoint above the leader's, the corrected cycle is `prepare` as written. */
  lemma AsWrittenAgrees(f: Follower, obs: Observation)
    requires f.params.batchSize > 0
    requires !(obs.stats.Ok? && obs.stats.value.Some? && obs.stats.value.value < f.checkpoint)
    ensures Prepare(f, obs) == PrepareAsWritten(f, obs)
  {
  }

  /** A fresh follower starts from NO_OPS_PERFORMED, a resumed one from its persisted checkpoint. */
  lemma ResumePoint(params: ShardFollowTask, status: Option<Status>)
    ensures status.None? ==> NodeOperation(params, Started, status).checkpoint == NO_OPS_PERFORMED
    ensures status.Some? ==> NodeOperation(params, Started, status).checkpoint == status.value.processedGlobalCheckpoint
  {
  }
}
