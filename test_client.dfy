/**
 * chunk_audio from the command-line test client (cli/test_client.py):
 * splits a recording into consecutive chunks of a fixed number of samples,
 * the last one possibly shorter, for streaming to the engine.
 */
module TestClient {
  import opened Seqs

  /** `int(chunk_duration * sample_rate)`: the product truncated toward zero. */
  function ChunkSize(chunkDuration: real, sampleRate: int): int
  {
    var x := chunkDuration * sampleRate as real;
    if x >= 0.0 then x.Floor else -((-x).Floor)
  }

  /** Truncation never moves away from zero and is exact on whole numbers. */
  lemma ChunkSizeTruncates(chunkDuration: real, sampleRate: int)
    ensures var x := chunkDuration * sampleRate as real; var n := ChunkSize(chunkDuration, sampleRate);
      (x >= 0.0 ==> 0.0 <= n as real <= x && x < n as real + 1.0)
      && (x < 0.0 ==> x <= n as real <= 0.0 && n as real - 1.0 < x)
  {
  }

  /** The chunks of `data` for a positive chunk size: ceil(|data| / size) of
   *  them, every one but the last full, together exactly `data`. */
  method ChunkAudio<T>(data: seq<T>, chunkSize: int) returns (chunks: seq<seq<T>>)
    requires chunkSize > 0
    ensures |chunks| == (|data| + chunkSize - 1) / chunkSize
    ensures Concat(chunks) == data
    ensures forall i :: 0 <= i < |chunks| - 1 ==> |chunks[i]| == chunkSize
    ensures forall i :: 0 <= i < |chunks| ==> 0 < |chunks[i]| <= chunkSize
    ensures AreSlices(chunks, data, chunkSize)
  {
    var numChunks := (|data| + chunkSize - 1) / chunkSize;
    chunks := [];
    var i := 0;
    ghost var done := 0;
    while i < numChunks
      invariant 0 <= i <= numChunks
      invariant |chunks| == i && done == Min(i * chunkSize, |data|)
      invariant Concat(chunks) == data[..done]
      invariant forall k :: 0 <= k < i && k < numChunks - 1 ==> |chunks[k]| == chunkSize
      invariant forall k :: 0 <= k < i ==> 0 < |chunks[k]| <= chunkSize
      invariant AreSlices(chunks, data, chunkSize)
    {
      var start := i * chunkSize;
      var end := Min((i + 1) * chunkSize, |data|);
      StepBounds(|data|, chunkSize, i);
      ConcatAppend(chunks, data[start..end]);
      assert data[..start] + data[start..end] == data[..end];
      assert data[start..end] == Slice(data, chunkSize, i);
      SlicesAppend(chunks, data, chunkSize);
      chunks := chunks + [data[start..end]];
      i := i + 1;
      done := end;
    }
    ChunkBounds(|data|, chunkSize, 0);
    assert data[..done] == data;
  }

  /** Samples `i * size` up to `(i + 1) * size` of `data`, cut at its end. */
  function Slice<T>(data: seq<T>, size: nat, i: nat): seq<T>
  {
    data[Min(i * size, |data|)..Min(i * size + size, |data|)]
  }

  /** Below the chunk count the cut never bites at the start: chunk `i` is
   *  the slice `[i * size, min((i + 1) * size, |data|))`, and not empty. */
  lemma SliceInRange<T>(data: seq<T>, size: int, i: nat)
    requires size > 0 && i < (|data| + size - 1) / size
    ensures i * size < Min((i + 1) * size, |data|)
    ensures Slice(data, size, i) == data[i * size..Min((i + 1) * size, |data|)]
  {
    StepBounds(|data|, size, i);
  }

  /** Chunk `k` is exactly `Slice(data, size, k)`, for every `k`. */
  ghost predicate AreSlices<T>(chunks: seq<seq<T>>, data: seq<T>, size: nat)
  {
    forall k :: 0 <= k < |chunks| ==> chunks[k] == Slice(data, size, k)
  }

  lemma SlicesAppend<T>(chunks: seq<seq<T>>, data: seq<T>, size: nat)
    requires AreSlices(chunks, data, size)
    ensures AreSlices(chunks + [Slice(data, size, |chunks|)], data, size)
  {
    var c := chunks + [Slice(data, size, |chunks|)];
    forall k | 0 <= k < |c|
      ensures c[k] == Slice(data, size, k)
    {
      if k < |chunks| {
        assert c[k] == chunks[k];
      }
    }
  }

  /** Where chunk `i` starts and ends, for `i` below the chunk count. */
  lemma ChunkBounds(n: nat, size: int, i: nat)
    requires size > 0
    ensures var count := (n + size - 1) / size;
      && (count * size >= n)
      && (i < count ==> i * size < n)
      && (i < count - 1 ==> (i + 1) * size <= n)
      && (i == count - 1 ==> (i + 1) * size >= n)
  {
    var count := (n + size - 1) / size;
    var m := n + size - 1;
    var r := m % size;
    var whole := count * size;
    assert m == whole + r && 0 <= r < size;
    if i < count {
      MulLe(i + 1, count, size);
      MulSucc(i, size);
      if i < count - 1 {
        MulLe(i + 2, count, size);
        MulSucc(i + 1, size);
      }
    }
  }

  /** Chunk `i` below the count starts where the data taken so far ends,
   *  is non-empty and at most `size` long, and is full unless it is the last. */
  lemma StepBounds(n: nat, size: int, i: nat)
    requires size > 0 && i < (n + size - 1) / size
    ensures Min(i * size, n) == i * size
    ensures i * size < Min((i + 1) * size, n) <= i * size + size
    ensures Min(i * size + size, n) == Min((i + 1) * size, n)
    ensures i < (n + size - 1) / size - 1 ==> Min((i + 1) * size, n) - i * size == size
  {
    ChunkBounds(n, size, i);
    MulSucc(i, size);
  }

  lemma MulSucc(a: int, c: int)
    ensures (a + 1) * c == a * c + c
  {
  }

  /** Multiplying by a natural number keeps order. */
  lemma {:induction false} MulLe(a: nat, b: nat, c: nat)
    requires a <= b
    ensures a * c <= b * c
    decreases b - a
  {
    if a < b {
      MulLe(a + 1, b, c);
      assert (a + 1) * c == a * c + c;
    }
  }
}
