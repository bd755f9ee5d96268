/**
 * The sequential chunk driver (`ChunksCoordinator.processChuck`): poll the
 * front of the queue; on an empty queue report success; otherwise run a
 * processor on the chunk and, when it reports, either poll again (success)
 * or pass its failure on and stop.
 */
module Coordinator {
  import opened Types
  import opened Partition
  import opened Processor

  /** The environment's answers, by requested chunk. */
  type Remote = Chunk -> ChunkInputs

  /**
   * A finished coordinator: the chunks it started, in start order, every
   * remote request its processors issued, and the one outcome it handed to
   * its handler.
   */
  datatype DriveRun = DriveRun(started: seq<Chunk>, calls: seq<Call>, outcome: Completion)

  /** Every chunk of `cs` is answered with success. */
  ghost predicate AllSucceed(cs: seq<Chunk>, remote: Remote) {
    forall k :: 0 <= k < |cs| ==> Outcome(remote(cs[k])).Success?
  }

  /** The operations the leader returned for chunk `c`, or none when the fetch failed. */
  function FetchedOps(remote: Remote, c: Chunk): seq<Operation> {
    var f := remote(c).fetch;
    if f.Ok? then f.value else []
  }

  /** The requests of processors run on `cs` one after another, each only after the previous one finished. */
  function ProcessAll(leader: ShardId, follower: ShardId, cs: seq<Chunk>, remote: Remote): seq<Call>
    decreases |cs|
  {
    if cs == [] then [] else ChunkCalls(leader, follower, cs[0], remote(cs[0])) + ProcessAll(leader, follower, cs[1..], remote)
  }

  /**
   * The first five clauses of `Drive`'s contract as one predicate, for the
   * inductive step `DriveCons`; `Drive` keeps them spelled out because
   * `Controller.Replicate` runs out of resource when it must unfold this.
   */
  ghost predicate DriveSpec(queue: seq<Chunk>, remote: Remote, r: DriveRun) {
    && |r.started| <= |queue| && r.started == queue[..|r.started|]
    && FetchedRanges(r.calls) == r.started
    && (forall k :: 0 <= k < |r.started| - 1 ==> Outcome(remote(r.started[k])).Success?)
    && (r.outcome.Success? <==> r.started == queue && AllSucceed(queue, remote))
    && (r.outcome.Failure? ==> |r.started| > 0 && r.outcome == Outcome(remote(Last(r.started))))
  }

  /** A successful first chunk followed by a run over the rest of the queue is a run over the queue. */
  lemma DriveCons(c: Chunk, tail: seq<Chunk>, remote: Remote, first: seq<Call>, rest: DriveRun)
    requires FetchedRanges(first) == [c] && Outcome(remote(c)).Success?
    requires DriveSpec(tail, remote, rest)
    ensures DriveSpec([c] + tail, remote, DriveRun([c] + rest.started, first + rest.calls, rest.outcome))
  {
    var queue := [c] + tail;
    var r := DriveRun([c] + rest.started, first + rest.calls, rest.outcome);
    ProjectionsAppend(first, rest.calls);
    assert queue[1..] == tail;
    assert forall k :: 0 < k < |r.started| ==> r.started[k] == rest.started[k - 1];
    assert forall k :: 0 < k < |queue| ==> queue[k] == tail[k - 1];
    assert r.started == queue[..|r.started|];
    if |r.started| > 1 {
      assert Last(r.started) == Last(rest.started);
    }
  }

  /**
   * Drains `queue` one chunk at a time. Chunks are started in queue order,
   * one fetch each; every chunk started before the last one succeeded; the
   * outcome is success exactly when every chunk was started and succeeded,
   * and otherwise the failure of the last chunk started, so nothing after
   * the first failure starts.
   */
  function Drive(leader: ShardId, follower: ShardId, queue: seq<Chunk>, remote: Remote): (r: DriveRun)
    ensures |r.started| <= |queue| && r.started == queue[..|r.started|]
    ensures FetchedRanges(r.calls) == r.started
    ensures forall k :: 0 <= k < |r.started| - 1 ==> Outcome(remote(r.started[k])).Success?
    ensures r.outcome.Success? <==> r.started == queue && AllSucceed(queue, remote)
    ensures r.outcome.Failure? ==> |r.started| > 0 && r.outcome == Outcome(remote(Last(r.started)))
    ensures Routed(r.calls, leader, follower)
    ensures r.calls == ProcessAll(leader, follower, r.started, remote)
    decreases |queue|
  {
    if queue == [] then
      DriveRun([], [], Success)
    else
      var p := Process(leader, follower, queue[0], remote(queue[0]));
      if p.outcome.Success? then
        var rest := Drive(leader, follower, queue[1..], remote);
        DriveCons(queue[0], queue[1..], remote, p.calls, rest);
        RoutedAppend(p.calls, rest.calls, leader, follower);
        assert [queue[0]] + queue[1..] == queue;
        var started := [queue[0]] + rest.started;
        assert started[0] == queue[0] && started[1..] == rest.started;
        DriveRun(started, p.calls + rest.calls, rest.outcome)
      else
        assert [queue[0]][1..] == [] && p.calls + [] == p.calls;
        DriveRun([queue[0]], p.calls, p.outcome)
  }

  /**
   * Fail-fast: if chunk `k` is the first to fail, chunks 0..k are started,
   * chunk `k`'s failure is the outcome, and chunks after `k` never start.
   */
  lemma {:induction false} FailFast(leader: ShardId, follower: ShardId, queue: seq<Chunk>, remote: Remote, k: nat)
    requires k < |queue|
    requires forall j :: 0 <= j < k ==> Outcome(remote(queue[j])).Success?
    requires Outcome(remote(queue[k])).Failure?
    ensures Drive(leader, follower, queue, remote).started == queue[..k + 1]
    ensures Drive(leader, follower, queue, remote).outcome == Outcome(remote(queue[k]))
    decreases k
  {
    if k > 0 {
      var tail := queue[1..];
      assert forall j :: 0 <= j < k - 1 ==> tail[j] == queue[j + 1];
      FailFast(leader, follower, tail, remote, k - 1);
      assert Outcome(remote(queue[0])).Success?;
      assert [queue[0]] + tail[..k] == queue[..k + 1];
    }
  }

  /**
   * After a successful run the follower has received exactly one bulk
   * request per chunk, in queue order, each carrying the operations the
   * leader returned for that chunk; every fetch went to the leader shard.
   */
  lemma {:induction false} DriveAppliesInOrder(leader: ShardId, follower: ShardId, queue: seq<Chunk>, remote: Remote)
    requires Drive(leader, follower, queue, remote).outcome.Success?
    ensures |AppliedBatches(Drive(leader, follower, queue, remote).calls)| == |queue|
    ensures forall k :: 0 <= k < |queue| ==>
      AppliedBatches(Drive(leader, follower, queue, remote).calls)[k] == FetchedOps(remote, queue[k])
    ensures Routed(Drive(leader, follower, queue, remote).calls, leader, follower)
    decreases |queue|
  {
    if queue != [] {
      var p := Process(leader, follower, queue[0], remote(queue[0]));
      var rest := Drive(leader, follower, queue[1..], remote);
      DriveAppliesInOrder(leader, follower, queue[1..], remote);
      ProjectionsAppend(p.calls, rest.calls);
      var applied := AppliedBatches(Drive(leader, follower, queue, remote).calls);
      assert applied == AppliedBatches(p.calls) + AppliedBatches(rest.calls);
      assert AppliedBatches(p.calls) == [FetchedOps(remote, queue[0])];
      forall k | 0 < k < |queue|
        ensures applied[k] == FetchedOps(remote, queue[k])
      {
        assert queue[k] == queue[1..][k - 1];
      }
    }
  }

  /** An empty queue reports success at once, with no chunk started and no request issued. */
  lemma EmptyQueueSucceeds(leader: ShardId, follower: ShardId, remote: Remote)
    ensures Drive(leader, follower, [], remote) == DriveRun([], [], Success)
  {
  }

  /**
   * An empty span yields no chunk, and driving the empty queue reports
   * success at once without starting a chunk or issuing a request.
   */
  lemma EmptySpanSucceeds(leader: ShardId, follower: ShardId, from: int, to: int, batchSize: int, remote: Remote)
    requires batchSize > 0 && to <= from
    ensures CreateChunks(from, to, batchSize) == []
    ensures Drive(leader, follower, CreateChunks(from, to, batchSize), remote) == DriveRun([], [], Success)
  {
  }
}
