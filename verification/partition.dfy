/**
 * Splitting of the checkpoint span [from, to] into bounded chunks
 * (`ChunksCoordinator.createChucks`).
 *
 * `createChucks`'s `for` loop runs `i` from `from` in steps of `batchSize` while
 * `i < to` and emits `[i == from ? i : i + 1, min(i + batchSize, to)]`.
 */
module Partition {

  /** One queued chunk: the closed sequence-number range [lo, hi]. */
  datatype Chunk = Chunk(lo: int, hi: int)

  /** The chunks emitted by the loop iterations from cursor `i` on. */
  function ChunksFrom(from: int, i: int, to: int, batchSize: int): seq<Chunk>
    requires batchSize > 0
    decreases if i < to then to - i else 0
  {
    if i < to then
      var lo := if i == from then i else i + 1;
      var hi := if i + batchSize < to then i + batchSize else to;
      [Chunk(lo, hi)] + ChunksFrom(from, i + batchSize, to, batchSize)
    else
      []
  }

  /** The whole queue `createChucks(from, to)` fills. */
  function CreateChunks(from: int, to: int, batchSize: int): (cs: seq<Chunk>)
    requires batchSize > 0
    ensures cs == [] <==> to <= from
    ensures from < to ==> cs[0] == Chunk(from, if from + batchSize < to then from + batchSize else to)
  {
    ChunksFrom(from, from, to, batchSize)
  }

  /** The number of chunks, ceil((to - from) / batchSize), or 0 for an empty span. */
  function ChunkCount(from: int, to: int, batchSize: int): nat
    requires batchSize > 0
  {
    if from < to then (to - from + batchSize - 1) / batchSize else 0
  }

  /** Every chunk is a non-empty range. */
  ghost predicate NonEmptyChunks(cs: seq<Chunk>) {
    forall k :: 0 <= k < |cs| ==> cs[k].lo <= cs[k].hi
  }

  /** Each chunk starts right after the one before it ends. */
  ghost predicate Contiguous(cs: seq<Chunk>) {
    forall k :: 0 < k < |cs| ==> cs[k].lo == cs[k - 1].hi + 1
  }

  /** No chunk spans more than `bound` past its lower end. */
  ghost predicate Bounded(cs: seq<Chunk>, bound: int) {
    forall k :: 0 <= k < |cs| ==> cs[k].hi - cs[k].lo <= bound
  }

  /** Earlier chunks lie entirely below later ones. */
  ghost predicate Ascending(cs: seq<Chunk>) {
    forall k, l :: 0 <= k < l < |cs| ==> cs[k].hi < cs[l].lo
  }

  /** Some chunk contains sequence number `n`. */
  ghost predicate Covered(cs: seq<Chunk>, n: int) {
    exists k :: 0 <= k < |cs| && cs[k].lo <= n <= cs[k].hi
  }

  /** The last element of a non-empty queue. */
  function Last(cs: seq<Chunk>): Chunk
    requires |cs| > 0
  {
    cs[|cs| - 1]
  }

  /** The properties a partition of the non-empty span [from, to] has. */
  ghost predicate PartitionOf(cs: seq<Chunk>, from: int, to: int, batchSize: int) {
    && |cs| > 0
    && cs[0].lo == from
    && Last(cs).hi == to
    && NonEmptyChunks(cs)
    && Contiguous(cs)
    && Bounded(cs, batchSize)
    && Bounded(cs[1..], batchSize - 1)
  }

  /** A positive multiple of `b` is at least `b`. */
  lemma MulAtLeast(d: int, b: int)
    requires d >= 1 && b > 0
    ensures d * b >= b
  {
  }

  /** Euclidean division is determined by any quotient-remainder decomposition. */
  lemma DivUnique(x: int, b: int, q: int, r: int)
    requires b > 0 && 0 <= r < b && x == q * b + r
    ensures x / b == q
  {
    var q', r' := x / b, x % b;
    assert x == q' * b + r';
    var d := q - q';
    assert d * b == q * b - q' * b;
    if d >= 1 {
      MulAtLeast(d, b);
    } else if d <= -1 {
      MulAtLeast(-d, b);
    }
  }

  /** Adding one batch to the dividend adds one to the quotient. */
  lemma DivStep(x: int, b: int)
    requires b > 0
    ensures (x + b) / b == x / b + 1
  {
    assert x + b == (x / b + 1) * b + x % b;
    DivUnique(x + b, b, x / b + 1, x % b);
  }

  /** A positive dividend of at most one batch rounds up to one. */
  lemma DivOne(x: int, b: int)
    requires b > 0 && 0 < x <= b
    ensures (x + b - 1) / b == 1
  {
  }

  /** The loop runs ceil((to - i) / batchSize) more iterations from cursor `i`. */
  lemma {:induction false} ChunksFromCount(from: int, i: int, to: int, batchSize: int)
    requires batchSize > 0
    ensures |ChunksFrom(from, i, to, batchSize)| == ChunkCount(i, to, batchSize)
    decreases if i < to then to - i else 0
  {
    if i < to {
      ChunksFromCount(from, i + batchSize, to, batchSize);
      if i + batchSize < to {
        DivStep(to - (i + batchSize) + batchSize - 1, batchSize);
      } else {
        DivOne(to - i, batchSize);
      }
    }
  }

  /** Putting a chunk in front of a run that starts right after it keeps the run contiguous. */
  lemma Cons(c: Chunk, rest: seq<Chunk>, bound: int)
    requires c.lo <= c.hi && c.hi - c.lo <= bound
    requires NonEmptyChunks(rest) && Contiguous(rest) && Bounded(rest, bound)
    requires |rest| > 0 ==> rest[0].lo == c.hi + 1
    ensures NonEmptyChunks([c] + rest) && Contiguous([c] + rest) && Bounded([c] + rest, bound)
  {
  }

  /** Unfolds one loop iteration: the chunk it emits, then the rest. */
  lemma Unfold(from: int, i: int, to: int, batchSize: int)
    requires batchSize > 0 && i < to
    ensures ChunksFrom(from, i, to, batchSize)
      == [Chunk(if i == from then i else i + 1, if i + batchSize < to then i + batchSize else to)]
         + ChunksFrom(from, i + batchSize, to, batchSize)
  {
  }

  /**
   * The iterations after the first one emit a contiguous run of chunks that
   * starts at `i + 1`, ends at `to`, and spans at most `batchSize - 1` each.
   */
  lemma {:induction false} LaterChunks(from: int, i: int, to: int, batchSize: int)
    requires batchSize > 0 && from < i < to
    ensures |ChunksFrom(from, i, to, batchSize)| > 0
    ensures ChunksFrom(from, i, to, batchSize)[0].lo == i + 1
    ensures Last(ChunksFrom(from, i, to, batchSize)).hi == to
    ensures NonEmptyChunks(ChunksFrom(from, i, to, batchSize))
    ensures Contiguous(ChunksFrom(from, i, to, batchSize))
    ensures Bounded(ChunksFrom(from, i, to, batchSize), batchSize - 1)
    decreases if i < to then to - i else 0
  {
    Unfold(from, i, to, batchSize);
    var rest := ChunksFrom(from, i + batchSize, to, batchSize);
    if i + batchSize < to {
      LaterChunks(from, i + batchSize, to, batchSize);
      Cons(Chunk(i + 1, i + batchSize), rest, batchSize - 1);
      assert Last(ChunksFrom(from, i, to, batchSize)) == Last(rest);
    } else {
      assert rest == [];
      Cons(Chunk(i + 1, to), rest, batchSize - 1);
    }
  }

  /**
   * The span [from, to] of a non-empty range is partitioned: the first
   * chunk starts at `from`, each later one at the previous upper bound + 1,
   * the last ends at `to`, the first spans at most `batchSize` and the
   * others at most `batchSize - 1`, and there are ceil((to - from) / batchSize)
   * of them. An empty or inverted span yields no chunk.
   */
  lemma CreateChunksPartition(from: int, to: int, batchSize: int)
    requires batchSize > 0
    ensures to <= from ==> CreateChunks(from, to, batchSize) == []
    ensures from < to ==> PartitionOf(CreateChunks(from, to, batchSize), from, to, batchSize)
    ensures |CreateChunks(from, to, batchSize)| == ChunkCount(from, to, batchSize)
  {
    ChunksFromCount(from, from, to, batchSize);
    if from < to {
      Unfold(from, from, to, batchSize);
      var cs := CreateChunks(from, to, batchSize);
      var rest := ChunksFrom(from, from + batchSize, to, batchSize);
      assert cs[1..] == rest;
      if from + batchSize < to {
        LaterChunks(from, from + batchSize, to, batchSize);
        Cons(Chunk(from, from + batchSize), rest, batchSize);
        assert Last(cs) == Last(rest);
      } else {
        assert rest == [];
        Cons(Chunk(from, to), rest, batchSize);
      }
    }
  }

  /** Contiguous non-empty chunks lie in strictly ascending order. */
  lemma {:induction false} ContiguousAscending(cs: seq<Chunk>)
    requires NonEmptyChunks(cs) && Contiguous(cs)
    ensures Ascending(cs)
  {
    if |cs| > 1 {
      var init := cs[..|cs| - 1];
      ContiguousAscending(init);
      forall k, l | 0 <= k < l < |cs|
        ensures cs[k].hi < cs[l].lo
      {
        if l < |cs| - 1 {
          assert cs[k] == init[k] && cs[l] == init[l];
        } else if k < l - 1 {
          assert cs[k] == init[k] && cs[l - 1] == init[l - 1];
        }
      }
    }
  }

  /**
   * Contiguous non-empty chunks cover exactly the numbers between the first
   * lower bound and the last upper bound.
   */
  lemma {:induction false} ContiguousCovers(cs: seq<Chunk>, n: int)
    requires |cs| > 0 && NonEmptyChunks(cs) && Contiguous(cs)
    ensures Covered(cs, n) <==> cs[0].lo <= n <= cs[|cs| - 1].hi
  {
    if |cs| == 1 {
      if cs[0].lo <= n <= cs[0].hi {
        assert cs[0].lo <= n <= cs[0].hi;
      }
    } else {
      var rest := cs[1..];
      assert NonEmptyChunks(rest) by {
        forall k | 0 <= k < |rest| ensures rest[k].lo <= rest[k].hi {
          assert rest[k] == cs[k + 1];
        }
      }
      assert Contiguous(rest) by {
        forall k | 0 < k < |rest| ensures rest[k].lo == rest[k - 1].hi + 1 {
          assert rest[k] == cs[k + 1] && rest[k - 1] == cs[k];
        }
      }
      ContiguousCovers(rest, n);
      ContiguousCovers(rest, rest[0].lo);
      assert Covered(rest, rest[0].lo) by {
        assert rest[0].lo <= rest[0].lo <= rest[0].hi;
      }
      assert rest[|rest| - 1] == cs[|cs| - 1];
      if Covered(cs, n) {
        var k :| 0 <= k < |cs| && cs[k].lo <= n <= cs[k].hi;
        if k > 0 {
          assert rest[k - 1] == cs[k];
        }
      }
      if cs[0].lo <= n <= cs[|cs| - 1].hi {
        if n <= cs[0].hi {
          assert cs[0].lo <= n <= cs[0].hi;
        } else {
          var k :| 0 <= k < |rest| && rest[k].lo <= n <= rest[k].hi;
          assert cs[k + 1] == rest[k];
        }
      }
    }
  }

  /**
   * The chunks of a non-empty span are pairwise disjoint, ascending, and
   * their union is exactly [from, to].
   */
  lemma CreateChunksCoverage(from: int, to: int, batchSize: int)
    requires batchSize > 0 && from < to
    ensures Ascending(CreateChunks(from, to, batchSize))
    ensures forall n :: Covered(CreateChunks(from, to, batchSize), n) <==> from <= n <= to
  {
    var cs := CreateChunks(from, to, batchSize);
    CreateChunksPartition(from, to, batchSize);
    ContiguousAscending(cs);
    forall n
      ensures Covered(cs, n) <==> from <= n <= to
    {
      ContiguousCovers(cs, n);
    }
  }

  /**
   * `createChucks`'s `for` loop over a growing queue; it produces the same chunks as
   * `CreateChunks`, with the partition properties.
   */
  method CreateChunksLoop(from: int, to: int, batchSize: int) returns (chunks: seq<Chunk>)
    requires batchSize > 0
    ensures chunks == CreateChunks(from, to, batchSize)
    ensures to <= from ==> chunks == []
    ensures from < to ==> PartitionOf(chunks, from, to, batchSize)
    ensures |chunks| == ChunkCount(from, to, batchSize)
  {
    chunks := [];
    var i := from;
    while i < to
      invariant from <= i
      invariant chunks + ChunksFrom(from, i, to, batchSize) == CreateChunks(from, to, batchSize)
      decreases if i < to then to - i else 0
    {
      var hi := if i + batchSize < to then i + batchSize else to;
      var lo := if i == from then i else i + 1;
      chunks := chunks + [Chunk(lo, hi)];
      i := i + batchSize;
    }
    CreateChunksPartition(from, to, batchSize);
  }

  /** from=0, to=2500, batchSize=1024 gives [0,1024], [1025,2048], [2049,2500]. */
  lemma ExampleThreeChunks()
    ensures CreateChunks(0, 2500, 1024) == [Chunk(0, 1024), Chunk(1025, 2048), Chunk(2049, 2500)]
  {
  }

  /** A batch larger than the span gives the single chunk [from, to]. */
  lemma ExampleSingleChunk()
    ensures CreateChunks(5, 50, 1000) == [Chunk(5, 50)]
  {
  }
}
