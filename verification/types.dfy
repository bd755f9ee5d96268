/**
 * Shared vocabulary of the shard-follow replication loop: shard identities,
 * the exceptions that travel through the completion callbacks, and the
 * outcomes of the remote calls, which the model receives as inputs.
 */
module Types {

  /** Identity of one shard: the index it belongs to and its number. */
  datatype ShardId = ShardId(indexName: string, id: nat)

  /** One operation of a shard's history. Its contents are opaque here. */
  datatype Operation = Operation(seqNo: int, payload: seq<int>)

  /**
   * The exceptions the loop passes to its handlers. Exceptions raised by
   * remote calls, executors and the persistent-task framework are carried
   * unchanged, whatever they are, as `RemoteFailure`.
   */
  datatype Exception =
    | RemoteFailure(message: string)
    | IllegalArgument(message: string)
      /** The follower's checkpoint was observed above the leader's. */
    | FollowerAhead(followCheckpoint: int, leaderCheckpoint: int)

  /** A value that may be absent (a Java `null` or an empty `Optional`). */
  datatype Option<+T> = None | Some(value: T)

  /** The result of a remote call that returns a value. */
  datatype Response<+T> = Ok(value: T) | Err(error: Exception)

  /**
   * What a `Consumer<Exception>` handler receives: `null` for success, the
   * exception otherwise.
   */
  datatype Completion = Success | Failure(error: Exception)
}
