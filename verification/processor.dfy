/**
 * One chunk's fetch-then-apply pipeline (`ChunkProcessor.start` and
 * `handleResponse`). The leader's answer to the fetch, the executor's
 * acceptance of the apply task and the follower's answer to the bulk apply
 * are inputs; the model records the remote requests issued and the single
 * outcome handed to the processor's handler.
 */
module Processor {
  import opened Types
  import opened Partition

  /** The environment's answers for one chunk. */
  datatype ChunkInputs = ChunkInputs(
    fetch: Response<seq<Operation>>,  // ShardChangesAction on the leader shard
    dispatch: Completion,             // running the apply step on the replication executor
    apply: Completion)                // BulkShardOperationsAction on the follower shard

  /** A remote request issued by the loop. */
  datatype Call =
    | Stats(index: string)                                // IndicesStatsRequest on the leader index
    | Fetch(shard: ShardId, minSeqNo: int, maxSeqNo: int)  // ShardChangesAction on the leader shard
    | Apply(shard: ShardId, ops: seq<Operation>)           // BulkShardOperationsAction on the follower shard

  /** What one processor did: the requests in issue order and its one outcome. */
  datatype ChunkRun = ChunkRun(calls: seq<Call>, outcome: Completion)

  /** The ranges of the fetch requests among `calls`, in order. */
  function FetchedRanges(calls: seq<Call>): seq<Chunk> {
    if calls == [] then []
    else if calls[0].Fetch? then [Chunk(calls[0].minSeqNo, calls[0].maxSeqNo)] + FetchedRanges(calls[1..])
    else FetchedRanges(calls[1..])
  }

  /** The operation batches of the apply requests among `calls`, in order. */
  function AppliedBatches(calls: seq<Call>): seq<seq<Operation>> {
    if calls == [] then []
    else if calls[0].Apply? then [calls[0].ops] + AppliedBatches(calls[1..])
    else AppliedBatches(calls[1..])
  }

  /**
   * Every request in `calls` goes where the loop sends it: statistics to the
   * leader's index, fetches to the leader shard, applies to the follower shard.
   */
  ghost predicate Routed(calls: seq<Call>, leader: ShardId, follower: ShardId) {
    forall k :: 0 <= k < |calls| ==>
      match calls[k]
      case Stats(index) => index == leader.indexName
      case Fetch(shard, _, _) => shard == leader
      case Apply(shard, _) => shard == follower
  }

  /** Routing is preserved by concatenating request logs. */
  lemma RoutedAppend(a: seq<Call>, b: seq<Call>, leader: ShardId, follower: ShardId)
    requires Routed(a, leader, follower) && Routed(b, leader, follower)
    ensures Routed(a + b, leader, follower)
  {
    assert forall k :: |a| <= k < |a + b| ==> (a + b)[k] == b[k - |a|];
  }

  /** The fetched ranges of a concatenation are those of each part, in order. */
  lemma {:induction false} FetchedAppend(a: seq<Call>, b: seq<Call>)
    ensures FetchedRanges(a + b) == FetchedRanges(a) + FetchedRanges(b)
  {
    if a == [] {
      assert a + b == b;
    } else {
      var t := a[1..];
      assert (a + b)[0] == a[0] && (a + b)[1..] == t + b;
      FetchedAppend(t, b);
      if a[0].Fetch? {
        var c := [Chunk(a[0].minSeqNo, a[0].maxSeqNo)];
        assert FetchedRanges(a + b) == c + FetchedRanges(t + b);
        assert FetchedRanges(a) == c + FetchedRanges(t);
        assert c + (FetchedRanges(t) + FetchedRanges(b)) == (c + FetchedRanges(t)) + FetchedRanges(b);
      } else {
        assert FetchedRanges(a + b) == FetchedRanges(t + b);
        assert FetchedRanges(a) == FetchedRanges(t);
      }
    }
  }

  /** The applied batches of a concatenation are those of each part, in order. */
  lemma {:induction false} AppliedAppend(a: seq<Call>, b: seq<Call>)
    ensures AppliedBatches(a + b) == AppliedBatches(a) + AppliedBatches(b)
  {
    if a == [] {
      assert a + b == b;
    } else {
      var t := a[1..];
      assert (a + b)[0] == a[0] && (a + b)[1..] == t + b;
      AppliedAppend(t, b);
      if a[0].Apply? {
        var c := [a[0].ops];
        assert AppliedBatches(a + b) == c + AppliedBatches(t + b);
        assert AppliedBatches(a) == c + AppliedBatches(t);
        assert c + (AppliedBatches(t) + AppliedBatches(b)) == (c + AppliedBatches(t)) + AppliedBatches(b);
      } else {
        assert AppliedBatches(a + b) == AppliedBatches(t + b);
        assert AppliedBatches(a) == AppliedBatches(t);
      }
    }
  }

  /** Both projections distribute over concatenation of request logs. */
  lemma ProjectionsAppend(a: seq<Call>, b: seq<Call>)
    ensures FetchedRanges(a + b) == FetchedRanges(a) + FetchedRanges(b)
    ensures AppliedBatches(a + b) == AppliedBatches(a) + AppliedBatches(b)
  {
    FetchedAppend(a, b);
    AppliedAppend(a, b);
  }

  /** The processor's verdict: success exactly when fetch, dispatch and apply all succeed. */
  function Outcome(inputs: ChunkInputs): (r: Completion)
    ensures r.Success? <==> inputs.fetch.Ok? && inputs.dispatch.Success? && inputs.apply.Success?
    ensures inputs.fetch.Err? ==> r == Failure(inputs.fetch.error)
    ensures inputs.fetch.Ok? && inputs.dispatch.Failure? ==> r == inputs.dispatch
    ensures inputs.fetch.Ok? && inputs.dispatch.Success? ==> r == inputs.apply
  {
    if inputs.fetch.Err? then Failure(inputs.fetch.error)
    else if inputs.dispatch.Failure? then inputs.dispatch
    else inputs.apply
  }

  /**
   * The requests one processor issues for chunk `c`: the fetch, then, once
   * the fetch answered and the apply step was dispatched, one apply of the
   * fetched operations.
   */
  function ChunkCalls(leader: ShardId, follower: ShardId, c: Chunk, inputs: ChunkInputs): seq<Call> {
    var fetch := Fetch(leader, c.lo, c.hi);
    match inputs.fetch
    case Err(_) => [fetch]
    case Ok(ops) => if inputs.dispatch.Failure? then [fetch] else [fetch, Apply(follower, ops)]
  }

  /**
   * Runs one chunk: fetch [c.lo, c.hi] from the leader; on a fetch failure
   * report it; otherwise hand the fetched operations, possibly none, to the
   * follower as one bulk request and report its result.
   */
  function Process(leader: ShardId, follower: ShardId, c: Chunk, inputs: ChunkInputs): (r: ChunkRun)
    ensures FetchedRanges(r.calls) == [c]
    ensures |r.calls| > 0 && r.calls[0] == Fetch(leader, c.lo, c.hi)
    ensures r.outcome == Outcome(inputs)
    ensures inputs.fetch.Err? || inputs.dispatch.Failure? ==> r.calls == [Fetch(leader, c.lo, c.hi)]
    ensures inputs.fetch.Ok? && inputs.dispatch.Success?
      ==> r.calls == [Fetch(leader, c.lo, c.hi), Apply(follower, inputs.fetch.value)]
    ensures r.outcome.Success? ==> AppliedBatches(r.calls) == [inputs.fetch.value]
    ensures Routed(r.calls, leader, follower)
  {
    var calls := ChunkCalls(leader, follower, c, inputs);
    if inputs.fetch.Ok? && inputs.dispatch.Success? then
      assert calls[1..] == [Apply(follower, inputs.fetch.value)] && calls[1..][1..] == [];
      assert AppliedBatches(calls[1..]) == [inputs.fetch.value];
      assert FetchedRanges(calls[1..]) == [];
      ChunkRun(calls, Outcome(inputs))
    else
      assert calls == [Fetch(leader, c.lo, c.hi)] && calls[1..] == [];
      ChunkRun(calls, Outcome(inputs))
  }

}
