/** Reading a selected file into bytes, and running a processor over a list
    in fixed-size batches with a pause between batches. */
module FileProcessing {
  import opened Wrappers
  import opened Backend

  /** What `FileReader.result` holds when `onload` fires. */
  datatype ReaderResult = ArrayBuffer(bytes: seq<byte>) | Text(text: string) | NoResult

  /** How the reader settles: `onload` with a result, or `onerror`. */
  datatype ReaderEvent = Load(result: ReaderResult) | ReadError

  /** The promise `readFileAsUint8Array` settles with, given the reader's event. */
  function ReadOutcome(e: ReaderEvent): (r: Result<seq<byte>, Thrown>)
    ensures r.Ok? <==> e.Load? && e.result.ArrayBuffer?
    ensures r.Ok? ==> r.value == e.result.bytes
    ensures e.ReadError? ==> r == Err(Error("File reading failed"))
    ensures e.Load? && !e.result.ArrayBuffer? ==> r == Err(Error("Failed to read file as ArrayBuffer"))
  {
    match e
    case ReadError => Err(Error("File reading failed"))
    case Load(ArrayBuffer(bytes)) => Ok(bytes)
    case Load(_) => Err(Error("Failed to read file as ArrayBuffer"))
  }

  function Min(a: int, b: int): int {
    if a <= b then a else b
  }

  /** The batches cut from `items[i..]`: slices of `size` elements, the last
      one possibly shorter. */
  function BatchesFrom<T>(items: seq<T>, size: nat, i: nat): seq<seq<T>>
    requires size >= 1
    decreases |items| - i
  {
    if i >= |items| then [] else [items[i..Min(i + size, |items|)]] + BatchesFrom(items, size, i + size)
  }

  function Batches<T>(items: seq<T>, size: nat): seq<seq<T>>
    requires size >= 1
  {
    BatchesFrom(items, size, 0)
  }

  function Flatten<T>(ss: seq<seq<T>>): seq<T> {
    if ss == [] then [] else ss[0] + Flatten(ss[1..])
  }

  /** Laid end to end, the batches give back the input. */
  lemma {:induction false} BatchesFlatten<T>(items: seq<T>, size: nat, i: nat)
    requires size >= 1 && i <= |items|
    ensures Flatten(BatchesFrom(items, size, i)) == items[i..]
    decreases |items| - i
  {
    if i < |items| {
      var j := Min(i + size, |items|);
      var bs := BatchesFrom(items, size, i);
      assert bs[0] == items[i..j] && bs[1..] == BatchesFrom(items, size, i + size);
      if i + size <= |items| {
        BatchesFlatten(items, size, i + size);
      } else {
        assert BatchesFrom(items, size, i + size) == [];
      }
      assert items[i..] == items[i..j] + items[j..];
    }
  }

  /** Batch `k` is the slice `items[i + k*size .. min(i + (k+1)*size, n))`. */
  lemma {:induction false} BatchAt<T>(items: seq<T>, size: nat, i: nat, k: nat)
    requires size >= 1 && k < |BatchesFrom(items, size, i)|
    ensures i + k * size < |items|
    ensures BatchesFrom(items, size, i)[k] == items[i + k * size..Min(i + (k + 1) * size, |items|)]
    decreases k
  {
    if k > 0 {
      BatchAt(items, size, i + size, k - 1);
      assert i + size + (k - 1) * size == i + k * size;
      assert i + size + k * size == i + (k + 1) * size;
    }
  }

  /** Every batch is non-empty and holds at most `size` items; all but the
      last hold exactly `size`. */
  lemma BatchSizes<T>(items: seq<T>, size: nat, k: nat)
    requires size >= 1 && k < |Batches(items, size)|
    ensures 1 <= |Batches(items, size)[k]| <= size
    ensures k < |Batches(items, size)| - 1 ==> |Batches(items, size)[k]| == size
  {
    BatchAt(items, size, 0, k);
    if k < |Batches(items, size)| - 1 {
      BatchAt(items, size, 0, k + 1);
    }
  }

  /** The number of batches `m` is the ceiling of n / size: (m-1)*size < n <= m*size. */
  lemma {:induction false} BatchCount<T>(items: seq<T>, size: nat, i: nat)
    requires size >= 1 && i <= |items|
    ensures var m, n := |BatchesFrom(items, size, i)|, |items| - i;
            (n == 0 ==> m == 0) && (n > 0 ==> (m - 1) * size < n <= m * size)
    decreases |items| - i
  {
    if i < |items| && i + size < |items| {
      BatchCount(items, size, i + size);
      var m' := |BatchesFrom(items, size, i + size)|;
      assert (m' + 1 - 1) * size == m' * size;
      assert (m' + 1) * size == m' * size + size;
    }
  }

  /** The inner loop of `processFilesInBatches`: the processor runs on
      `items[i..end]` one item after the other, and the results are
      appended in that order. */
  method ProcessBatch<T, R>(items: seq<T>, processor: (T, nat) -> R, i: nat, end: nat,
                            results: seq<R>, ghost calls: seq<nat>)
    returns (results': seq<R>, ghost calls': seq<nat>)
    requires i <= end <= |items| && |results| == i == |calls|
    requires forall k :: 0 <= k < i ==> results[k] == processor(items[k], k) && calls[k] == k
    ensures |results'| == end == |calls'|
    ensures forall k :: 0 <= k < end ==> results'[k] == processor(items[k], k) && calls'[k] == k
  {
    var batch := items[i..end];
    results', calls' := results, calls;
    var j := 0;
    while j < |batch|
      invariant 0 <= j <= |batch|
      invariant |results'| == i + j == |calls'|
      invariant forall k :: 0 <= k < i + j ==> results'[k] == processor(items[k], k) && calls'[k] == k
    {
      assert batch[j] == items[i + j];
      var result := processor(batch[j], i + j);
      results' := results' + [result];
      calls' := calls' + [i + j];
      j := j + 1;
    }
  }

  /** `processFilesInBatches`: the processor runs once per index, in index
      order, batch by batch, with a pause of `delayMs` between consecutive
      batches and none after the last. The loop advances by `batchSize`, so
      it terminates only for `batchSize >= 1`.

      The ghost `calls`, `batches` and `waits` are kept by the method itself
      as a record of what it did; the facts that stand on their own are that
      result `k` is the processor's value for item `k` at index `k`, and that
      the recorded batches are exactly the slices `Batches` defines. */
  method ProcessInBatches<T, R>(items: seq<T>, processor: (T, nat) -> R, batchSize: nat, delayMs: nat)
    returns (results: seq<R>, ghost calls: seq<nat>, ghost batches: seq<seq<T>>, ghost waits: seq<nat>)
    requires batchSize >= 1
    ensures |results| == |items|
    ensures forall k :: 0 <= k < |items| ==> results[k] == processor(items[k], k)
    ensures |calls| == |items| && forall k :: 0 <= k < |calls| ==> calls[k] == k
    ensures batches == Batches(items, batchSize)
    ensures |waits| == (if items == [] then 0 else |batches| - 1)
    ensures forall k :: 0 <= k < |waits| ==> waits[k] == delayMs
  {
    results, calls, batches, waits := [], [], [], [];
    var i := 0;
    while i < |items|
      invariant |results| == Min(i, |items|) == |calls|
      invariant forall k :: 0 <= k < |results| ==> results[k] == processor(items[k], k)
      invariant forall k :: 0 <= k < |calls| ==> calls[k] == k
      invariant batches + BatchesFrom(items, batchSize, i) == Batches(items, batchSize)
      invariant |waits| == if i < |items| || batches == [] then |batches| else |batches| - 1
      invariant forall k :: 0 <= k < |waits| ==> waits[k] == delayMs
      decreases |items| - i
    {
      var end := Min(i + batchSize, |items|);
      var batch := items[i..end];
      results, calls := ProcessBatch(items, processor, i, end, results, calls);
      assert BatchesFrom(items, batchSize, i) == [batch] + BatchesFrom(items, batchSize, i + batchSize);
      batches := batches + [batch];
      if i + batchSize < |items| {
        waits := waits + [delayMs];
      }
      i := i + batchSize;
    }
  }
}
