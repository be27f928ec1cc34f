/**
 * Fixed-size statement batches. Each loader buffers rows in a JDBC batch and
 * commits the batch once it holds BatchSize rows; the final partial batch is
 * committed when parsing ends.
 */
module Batching {

  /** BATCH_SIZE in every loader. */
  const BatchSize: nat := 1000

  /** The concatenation of a sequence of batches, in order. */
  function Flatten<T>(batches: seq<seq<T>>): seq<T>
  {
    if batches == [] then []
    else Flatten(batches[..|batches| - 1]) + batches[|batches| - 1]
  }

  lemma FlattenSnoc<T>(batches: seq<seq<T>>, b: seq<T>)
    ensures Flatten(batches + [b]) == Flatten(batches) + b
  {
    assert (batches + [b])[..|batches|] == batches;
  }

  lemma {:induction false} FlattenCons<T>(b: seq<T>, batches: seq<seq<T>>)
    ensures Flatten([b] + batches) == b + Flatten(batches)
    decreases |batches|
  {
    if batches != [] {
      var n := |batches|;
      assert ([b] + batches)[..n] == [b] + batches[..n - 1];
      FlattenCons(b, batches[..n - 1]);
    }
  }

  /**
   * The commits a stream of rows produces: full batches of BatchSize rows, then
   * one partial batch if rows are left over. Nothing is lost or reordered.
   */
  function Chunks<T>(rows: seq<T>): (batches: seq<seq<T>>)
    ensures Flatten(batches) == rows
    ensures forall i :: 0 <= i < |batches| ==> 0 < |batches[i]| <= BatchSize
    ensures forall i :: 0 <= i < |batches| - 1 ==> |batches[i]| == BatchSize
    decreases |rows|
  {
    if rows == [] then []
    else if |rows| <= BatchSize then
      assert Flatten([rows]) == Flatten([rows][..0]) + rows;
      [rows]
    else
      var rest := Chunks(rows[BatchSize..]);
      FlattenCons(rows[..BatchSize], rest);
      assert rows == rows[..BatchSize] + rows[BatchSize..];
      [rows[..BatchSize]] + rest
  }

  /** n rows make ceil(n / BatchSize) commits. */
  lemma {:induction false} ChunksCount<T>(rows: seq<T>)
    ensures |Chunks(rows)| == (|rows| + BatchSize - 1) / BatchSize
    decreases |rows|
  {
    if |rows| > BatchSize {
      ChunksCount(rows[BatchSize..]);
    }
  }

  /** The batch-boundary example: 2 500 rows are committed as 1000, 1000 and 500. */
  lemma ChunksOf2500<T>(rows: seq<T>)
    requires |rows| == 2500
    ensures |Chunks(rows)| == 3
    ensures |Chunks(rows)[0]| == 1000 && |Chunks(rows)[1]| == 1000 && |Chunks(rows)[2]| == 500
  {
    var r1 := rows[BatchSize..];
    var r2 := r1[BatchSize..];
    assert Chunks(r2) == [r2];
    assert Chunks(r1) == [r1[..BatchSize]] + [r2];
  }

  /** A full batch in front of a non-empty rest is the first chunk. */
  lemma ChunksCons<T>(first: seq<T>, rest: seq<T>)
    requires |first| == BatchSize && rest != []
    ensures Chunks(first + rest) == [first] + Chunks(rest)
  {
    var rows := first + rest;
    assert rows[..BatchSize] == first;
    assert rows[BatchSize..] == rest;
  }

  /**
   * What a loader leaves behind after a stream: full batches already committed and
   * a pending batch below the threshold. Committing the pending batch if it is
   * non-empty yields exactly the chunks of the stream.
   */
  lemma {:induction false} ChunksOfCommitted<T>(committed: seq<seq<T>>, pending: seq<T>)
    requires forall i :: 0 <= i < |committed| ==> |committed[i]| == BatchSize
    requires |pending| < BatchSize
    ensures Chunks(Flatten(committed) + pending) == committed + (if pending == [] then [] else [pending])
    decreases |committed|
  {
    var last: seq<seq<T>> := if pending == [] then [] else [pending];
    if committed == [] {
      assert Flatten(committed) + pending == pending;
    } else {
      var first, rest := committed[0], committed[1..];
      var tail := Flatten(rest) + pending;
      assert committed == [first] + rest;
      assert |first| == BatchSize;
      assert forall i :: 0 <= i < |rest| ==> rest[i] == committed[i + 1];
      FlattenCons(first, rest);
      assert Flatten(committed) + pending == first + tail;
      ChunksOfCommitted(rest, pending);
      assert committed + last == [first] + (rest + last);
      if tail == [] {
        assert first + tail == first;
        assert Chunks(first) == [first];
      } else {
        ChunksCons(first, tail);
      }
    }
  }
}
