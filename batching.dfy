/**
 * Re-indexing sends a dataset's datapoints to the vector index in chunks of
 * BATCH_SIZE, in order, the last chunk holding what is left (the behaviour of
 * Rust's `slice::chunks`).
 */
module Batching {
  import opened Types

  const BATCH_SIZE: nat := 50

  /** Consecutive chunks of `size` elements; only the last may be shorter; none is empty. */
  function Chunks<T>(s: seq<T>, size: nat): seq<seq<T>>
    requires size > 0
    decreases |s|
  {
    if s == [] then []
    else if |s| <= size then [s]
    else [s[..size]] + Chunks(s[size..], size)
  }

  function Flatten<T>(ss: seq<seq<T>>): seq<T> {
    if ss == [] then [] else ss[0] + Flatten(ss[1..])
  }

  lemma {:induction false} FlattenAppend<T>(a: seq<seq<T>>, b: seq<seq<T>>)
    ensures Flatten(a + b) == Flatten(a) + Flatten(b)
  {
    if a == [] {
      assert a + b == b;
    } else {
      assert (a + b)[1..] == a[1..] + b;
      FlattenAppend(a[1..], b);
    }
  }

  /** Concatenating the chunks gives back the sequence. */
  lemma {:induction false} ChunksFlatten<T>(s: seq<T>, size: nat)
    requires size > 0
    ensures Flatten(Chunks(s, size)) == s
    decreases |s|
  {
    if s != [] && |s| > size {
      ChunksFlatten(s[size..], size);
      assert s[..size] + s[size..] == s;
    }
  }

  /**
   * There are ceil(|s| / size) chunks; every chunk is non-empty and at most `size`
   * long, and every chunk but the last is exactly `size` long.
   */
  lemma {:induction false} ChunksShape<T>(s: seq<T>, size: nat)
    requires size > 0
    ensures var cs := Chunks(s, size);
      && |cs| * size - size < |s| <= |cs| * size
      && (forall i :: 0 <= i < |cs| ==> 0 < |cs[i]| <= size)
      && (forall i :: 0 <= i < |cs| - 1 ==> |cs[i]| == size)
    decreases |s|
  {
    if s != [] && |s| > size {
      var rest := Chunks(s[size..], size);
      ChunksShape(s[size..], size);
      var cs := Chunks(s, size);
      assert cs == [s[..size]] + rest;
      assert |cs| * size == size + |rest| * size;
    }
  }

  /** For the batch size of the service: exactly ceil(n / 50) chunks. */
  lemma ChunkCount<T>(s: seq<T>)
    ensures |Chunks(s, BATCH_SIZE)| == (|s| + BATCH_SIZE - 1) / BATCH_SIZE
  {
    ChunksShape(s, BATCH_SIZE);
  }

  /** 137 datapoints go out as three chunks of 50, 50 and 37. */
  lemma ChunksOf137<T>(s: seq<T>)
    requires |s| == 137
    ensures var cs := Chunks(s, BATCH_SIZE);
      |cs| == 3 && |cs[0]| == 50 && |cs[1]| == 50 && |cs[2]| == 37
      && cs[0] + cs[1] + cs[2] == s
  {
    var t := s[50..];
    var u := t[50..];
    assert Chunks(u, BATCH_SIZE) == [u];
    assert Chunks(t, BATCH_SIZE) == [t[..50]] + [u];
    assert Chunks(s, BATCH_SIZE) == [s[..50]] + ([t[..50]] + [u]);
    assert s[..50] + t[..50] + u == s;
  }

  /** Taking one more chunk off the front of what is left. */
  lemma ChunksStep<T>(s: seq<T>, size: nat, start: nat)
    requires size > 0 && start < |s|
    ensures var end := if start + size <= |s| then start + size else |s|;
      Chunks(s[start..], size) == [s[start..end]] + Chunks(s[end..], size)
  {
    var end := if start + size <= |s| then start + size else |s|;
    if |s[start..]| <= size {
      assert s[start..] == s[start..end];
      assert s[end..] == [];
    } else {
      assert s[start..][..size] == s[start..end];
      assert s[start..][size..] == s[end..];
    }
  }

  /** The index calls for some batches: one per batch when a column is set, none otherwise. */
  function IndexCalls(ns: Uuid, batches: seq<seq<Datapoint>>,
                      column: Option<Column>): (cs: seq<Call>)
    ensures column.None? ==> cs == []
    ensures column.Some? ==> |cs| == |batches|
  {
    if batches == [] || column.None? then []
    else [IndexNewPoints(ns, batches[0], column)] + IndexCalls(ns, batches[1..], column)
  }

  /** The i-th index call carries the i-th batch, with the column. */
  lemma {:induction false} IndexCallsAt(ns: Uuid, batches: seq<seq<Datapoint>>,
                                        column: Option<Column>)
    ensures var cs := IndexCalls(ns, batches, column);
      forall i :: 0 <= i < |cs| ==> cs[i] == IndexNewPoints(ns, batches[i], column)
  {
    if batches != [] && column.Some? {
      IndexCallsAt(ns, batches[1..], column);
      var cs := IndexCalls(ns, batches, column);
      forall i | 0 <= i < |cs|
        ensures cs[i] == IndexNewPoints(ns, batches[i], column)
      {
        if i > 0 {
          assert cs[i] == IndexCalls(ns, batches[1..], column)[i - 1];
        }
      }
    }
  }

  lemma {:induction false} IndexCallsAppend(ns: Uuid, a: seq<seq<Datapoint>>,
                                            b: seq<seq<Datapoint>>, column: Option<Column>)
    ensures IndexCalls(ns, a + b, column) == IndexCalls(ns, a, column) + IndexCalls(ns, b, column)
  {
    if a == [] {
      assert a + b == b;
    } else if column.Some? {
      assert (a + b)[0] == a[0];
      assert (a + b)[1..] == a[1..] + b;
      IndexCallsAppend(ns, a[1..], b, column);
    }
  }

  /** The points of the `IndexNewPoints` calls of a trace, in order. */
  function IndexedBatches(calls: seq<Call>): seq<seq<Datapoint>> {
    if calls == [] then []
    else (if calls[0].IndexNewPoints? then [calls[0].points] else []) + IndexedBatches(calls[1..])
  }

  lemma {:induction false} IndexedBatchesAppend(a: seq<Call>, b: seq<Call>)
    ensures IndexedBatches(a + b) == IndexedBatches(a) + IndexedBatches(b)
  {
    if a == [] {
      assert a + b == b;
    } else {
      var first := if a[0].IndexNewPoints? then [a[0].points] else [];
      assert (a + b)[0] == a[0];
      assert (a + b)[1..] == a[1..] + b;
      assert IndexedBatches(a + b) == first + IndexedBatches(a[1..] + b);
      IndexedBatchesAppend(a[1..], b);
      assert IndexedBatches(a) == first + IndexedBatches(a[1..]);
    }
  }

  /** The index calls for some batches carry exactly those batches, or none without a column. */
  lemma {:induction false} IndexedBatchesOfIndexCalls(ns: Uuid, batches: seq<seq<Datapoint>>,
                                                      column: Option<Column>)
    ensures IndexedBatches(IndexCalls(ns, batches, column)) == if column.Some? then batches else []
  {
    if batches != [] && column.Some? {
      var cs := IndexCalls(ns, batches, column);
      assert cs == [IndexNewPoints(ns, batches[0], column)] + IndexCalls(ns, batches[1..], column);
      IndexedBatchesAppend([IndexNewPoints(ns, batches[0], column)], IndexCalls(ns, batches[1..], column));
      IndexedBatchesOfIndexCalls(ns, batches[1..], column);
      assert [batches[0]] + batches[1..] == batches;
    }
  }

  /** A trace without index calls carries no batches. */
  lemma {:induction false} NoIndexedBatches(calls: seq<Call>)
    requires forall i :: 0 <= i < |calls| ==> !calls[i].IndexNewPoints?
    ensures IndexedBatches(calls) == []
  {
    if calls != [] {
      NoIndexedBatches(calls[1..]);
    }
  }

  /** The batches sent by a prefix of a trace are a prefix of the trace's batches. */
  lemma IndexedBatchesPrefix(calls: seq<Call>, n: nat)
    requires n <= |calls|
    ensures IndexedBatches(calls[..n]) <= IndexedBatches(calls)
  {
    assert calls == calls[..n] + calls[n..];
    IndexedBatchesAppend(calls[..n], calls[n..]);
  }

}
