/** The batching loop of `populate_fact`: batches of at most
    FACT_BATCH_COPY rows until FACT_ROWS rows are written, each batch a
    COPY stream of encoded lines with transaction ids counted on from
    `txn_id_start`. The database receives the streams in order. */
module FactLoad {
  import opened Common
  import opened Chunking
  import opened Fact
  import opened CopyText

  const FactRowsTotal := 1_000_000
  const FactBatchCopy := 200_000
  const TxnIdStart := 10_000_000

  // ---------------------------------------------------------------------------
  // Batch sizes
  // ---------------------------------------------------------------------------

  /** The sizes `n = min(FACT_BATCH_COPY, FACT_ROWS - inserted)` the loop
      takes while rows remain. */
  function BatchPlan(remaining: int, batch: int): seq<int>
    requires batch >= 1
    decreases remaining
  {
    if remaining <= 0 then [] else [Min(batch, remaining)] + BatchPlan(remaining - Min(batch, remaining), batch)
  }

  function Sum(xs: seq<int>): int
  {
    if xs == [] then 0 else xs[0] + Sum(xs[1..])
  }

  /** The batches add up to the rows asked for (none for a count of 0 or less). */
  lemma {:induction false} BatchPlanSum(remaining: int, batch: int)
    requires batch >= 1
    ensures Sum(BatchPlan(remaining, batch)) == (if remaining > 0 then remaining else 0)
    decreases remaining
  {
    if remaining > 0 {
      BatchPlanSum(remaining - Min(batch, remaining), batch);
    }
  }

  /** Every batch holds 1 to `batch` rows, and all but the last exactly `batch`. */
  lemma {:induction false} BatchPlanSizes(remaining: int, batch: int)
    requires batch >= 1
    ensures forall i :: 0 <= i < |BatchPlan(remaining, batch)| ==> 1 <= BatchPlan(remaining, batch)[i] <= batch
    ensures forall i :: 0 <= i < |BatchPlan(remaining, batch)| - 1 ==> BatchPlan(remaining, batch)[i] == batch
    decreases remaining
  {
    if remaining > 0 {
      BatchPlanSizes(remaining - Min(batch, remaining), batch);
      if remaining > batch {
        assert BatchPlan(remaining - batch, batch) != [];
      }
    }
  }

  /** The length of each piece. */
  function Sizes<T>(pieces: seq<seq<T>>): (ns: seq<int>)
    ensures |ns| == |pieces|
  {
    if pieces == [] then [] else [|pieces[0]|] + Sizes(pieces[1..])
  }

  lemma {:induction false} SizesSnoc<T>(pieces: seq<seq<T>>, p: seq<T>)
    ensures Sizes(pieces + [p]) == Sizes(pieces) + [|p|]
    decreases |pieces|
  {
    if pieces != [] {
      assert (pieces + [p])[1..] == pieces[1..] + [p];
      SizesSnoc(pieces[1..], p);
    }
  }

  /** The plan is the sizes of the pieces `chunks` cuts from any sequence of
      that length. */
  lemma {:induction false} BatchPlanChunks<T>(xs: seq<T>, batch: int)
    requires batch >= 1
    ensures BatchPlan(|xs|, batch) == Sizes(ChunksOf(xs, batch))
    decreases |xs|
  {
    if |xs| > batch {
      BatchPlanChunks(xs[batch..], batch);
      var rest := ChunksOf(xs[batch..], batch);
      assert ([xs[..batch]] + rest)[1..] == rest;
    }
  }

  /** The number of batches is the row count divided by the batch size,
      rounded up. */
  lemma BatchPlanCount(remaining: nat, batch: int)
    requires batch >= 1
    ensures |BatchPlan(remaining, batch)| == (remaining + batch - 1) / batch
  {
    var xs := seq(remaining, i => 0);
    BatchPlanChunks(xs, batch);
    ChunksOfCount(xs, batch);
  }

  /** The configured run: five COPY batches of 200,000 rows. */
  lemma ConfiguredBatchPlan()
    ensures BatchPlan(FactRowsTotal, FactBatchCopy) == [200_000, 200_000, 200_000, 200_000, 200_000]
  {
    assert BatchPlan(200_000, FactBatchCopy) == [200_000];
    assert BatchPlan(400_000, FactBatchCopy) == [200_000, 200_000];
    assert BatchPlan(600_000, FactBatchCopy) == [200_000, 200_000, 200_000];
    assert BatchPlan(800_000, FactBatchCopy) == [200_000, 200_000, 200_000, 200_000];
  }

  // ---------------------------------------------------------------------------
  // The loop
  // ---------------------------------------------------------------------------

  /** The COPY stream of each batch of rows. */
  function EncodeBatches(batches: seq<seq<FactRow>>): seq<string>
    decreases |batches|
  {
    if batches == [] then [] else [EncodeBuffer(batches[0])] + EncodeBatches(batches[1..])
  }

  /** Stream b is the encoding of batch b. */
  lemma {:induction false} EncodeBatchesIndex(batches: seq<seq<FactRow>>)
    ensures |EncodeBatches(batches)| == |batches|
    ensures forall b :: 0 <= b < |batches| ==> EncodeBatches(batches)[b] == EncodeBuffer(batches[b])
    decreases |batches|
  {
    if batches != [] {
      EncodeBatchesIndex(batches[1..]);
    }
  }

  /** Sending the streams one after the other sends the encoding of all rows. */
  lemma {:induction false} EncodeBatchesFlatten(batches: seq<seq<FactRow>>)
    ensures Flatten(EncodeBatches(batches)) == EncodeBuffer(Flatten(batches))
    decreases |batches|
  {
    if batches != [] {
      EncodeBatchesFlatten(batches[1..]);
      EncodeBufferConcat(batches[0], Flatten(batches[1..]));
    }
  }

  datatype FactLoadResult = FactLoadResult(sizes: seq<int>, buffers: seq<string>, inserted: int)

  /** The rows a run writes: the first `factRows` draws, numbered from
      `txnIdStart`. */
  function LoadedRows(pools: KeyPools, draws: seq<FactDraw>, factRows: int, txnIdStart: int): (rows: seq<FactRow>)
    requires factRows <= |draws|
    requires forall i :: 0 <= i < |draws| ==> DrawFits(pools, draws[i])
    ensures |rows| == (if factRows > 0 then factRows else 0)
  {
    var total := if factRows > 0 then factRows else 0;
    FactRows(pools, draws[..total], txnIdStart)
  }

  /** The `while inserted < FACT_ROWS` loop. `draws` holds every random
      draw for the rows in order. When rows are due, the sampling of the
      first batch raises ValueError before anything is written if a pool is
      empty, or if the batch size is negative (then the first `n` is
      negative, and `np.random.choice` refuses a negative size). With no
      rows due the loop body never runs, whatever the batch size. On success
      the batch sizes are the plan, the streams are the encodings of the
      consecutive `chunks` of the rows, and together they are the encoding of
      all rows. */
  method PopulateFact(pools: KeyPools, draws: seq<FactDraw>, factRows: int, batchSize: int, txnIdStart: int)
    returns (r: Result<FactLoadResult>)
    requires batchSize != 0 || factRows <= 0
    requires PoolsNonEmpty(pools) && batchSize > 0 ==>
               factRows <= |draws| && forall i :: 0 <= i < |draws| ==> DrawFits(pools, draws[i])
    ensures r.Failure? <==> factRows > 0 && (!PoolsNonEmpty(pools) || batchSize < 0)
    ensures r.Failure? ==> r.error == ValueError
    ensures r.Ok? ==> factRows <= 0 || (PoolsNonEmpty(pools) && batchSize > 0)
    ensures r.Ok? && PoolsNonEmpty(pools) && batchSize > 0 ==>
              var rows := LoadedRows(pools, draws, factRows, txnIdStart);
              && r.value.inserted == |rows|
              && r.value.sizes == BatchPlan(factRows, batchSize)
              && r.value.buffers == EncodeBatches(ChunksOf(rows, batchSize))
              && Flatten(r.value.buffers) == EncodeBuffer(rows)
    ensures r.Ok? && (!PoolsNonEmpty(pools) || batchSize <= 0) ==> r.value == FactLoadResult([], [], 0)
  {
    if factRows > 0 && (!PoolsNonEmpty(pools) || batchSize < 0) {
      return Failure(ValueError);
    }
    if !PoolsNonEmpty(pools) || batchSize <= 0 {
      return Ok(FactLoadResult([], [], 0));
    }
    var sizes, buffers, inserted := CopyBatches(pools, draws, factRows, batchSize, txnIdStart);
    var rows := LoadedRows(pools, draws, factRows, txnIdStart);
    ChunksOfFlatten(rows, batchSize);
    EncodeBatchesFlatten(ChunksOf(rows, batchSize));
    return Ok(FactLoadResult(sizes, buffers, inserted));
  }

  /** The loop itself, once the pools are known to be non-empty. */
  method CopyBatches(pools: KeyPools, draws: seq<FactDraw>, factRows: int, batchSize: int, txnIdStart: int)
    returns (sizes: seq<int>, buffers: seq<string>, inserted: int)
    requires batchSize >= 1
    requires factRows <= |draws| && forall i :: 0 <= i < |draws| ==> DrawFits(pools, draws[i])
    ensures inserted == |LoadedRows(pools, draws, factRows, txnIdStart)|
    ensures sizes == BatchPlan(factRows, batchSize)
    ensures buffers == EncodeBatches(ChunksOf(LoadedRows(pools, draws, factRows, txnIdStart), batchSize))
  {
    ghost var rows := LoadedRows(pools, draws, factRows, txnIdStart);
    inserted := 0;
    sizes := [];
    buffers := [];
    ghost var done: seq<seq<FactRow>> := [];
    assert rows[0..] == rows;
    while inserted < factRows
      invariant Written(rows, batchSize, inserted, done, sizes, buffers)
      decreases factRows - inserted
    {
      var n, buf := CopyBatch(pools, draws, factRows, batchSize, txnIdStart, inserted, rows, done, sizes, buffers);
      done := done + [rows[inserted..inserted + n]];
      sizes, buffers, inserted := sizes + [n], buffers + [buf], inserted + n;
    }
    WrittenAll(rows, batchSize, inserted, done, sizes, buffers);
    if factRows <= 0 {
      assert BatchPlan(factRows, batchSize) == [] == BatchPlan(0, batchSize);
    }
  }

  /** The state of the loop after `inserted` rows: the sizes so far are the
      lengths of the batches so far, the batches so far and the pieces of
      the rest make the pieces of all rows, and the buffers are the streams
      of the batches. */
  ghost predicate Written(rows: seq<FactRow>, batchSize: int, inserted: int,
                          done: seq<seq<FactRow>>, sizes: seq<int>, buffers: seq<string>)
    requires batchSize >= 1
  {
    && 0 <= inserted <= |rows|
    && sizes == Sizes(done)
    && done + ChunksOf(rows[inserted..], batchSize) == ChunksOf(rows, batchSize)
    && buffers == EncodeBatches(done)
  }

  /** Once every row is written, the batches are the pieces of all rows and
      the sizes are the plan. */
  lemma WrittenAll(rows: seq<FactRow>, batchSize: int, inserted: int,
                   done: seq<seq<FactRow>>, sizes: seq<int>, buffers: seq<string>)
    requires batchSize >= 1 && inserted >= |rows|
    requires Written(rows, batchSize, inserted, done, sizes, buffers)
    ensures inserted == |rows|
    ensures done == ChunksOf(rows, batchSize)
    ensures sizes == BatchPlan(|rows|, batchSize)
    ensures buffers == EncodeBatches(ChunksOf(rows, batchSize))
  {
    assert rows[inserted..] == [];
    assert done + [] == done;
    BatchPlanChunks(rows, batchSize);
  }

  /** One turn of the loop: the batch size `min(FACT_BATCH_COPY, FACT_ROWS -
      inserted)`, and the buffer of that many rows with their transaction
      ids. Given the state of the loop before the turn (the ghost
      parameters), the batch is the next piece `chunks` cuts from the rows
      and the buffer is its stream. */
  method CopyBatch(pools: KeyPools, draws: seq<FactDraw>, factRows: int, batchSize: int, txnIdStart: int, inserted: int,
                   ghost rows: seq<FactRow>, ghost done: seq<seq<FactRow>>, ghost sizes: seq<int>, ghost buffers: seq<string>)
    returns (n: int, buf: string)
    requires batchSize >= 1 && 0 <= inserted < factRows
    requires factRows <= |draws| && forall i :: 0 <= i < |draws| ==> DrawFits(pools, draws[i])
    requires rows == LoadedRows(pools, draws, factRows, txnIdStart)
    requires Written(rows, batchSize, inserted, done, sizes, buffers)
    ensures n == Min(batchSize, factRows - inserted)
    ensures Written(rows, batchSize, inserted + n, done + [rows[inserted..inserted + n]], sizes + [n], buffers + [buf])
  {
    n := Min(batchSize, factRows - inserted);
    buf := WriteBatch(pools, draws[inserted..inserted + n], txnIdStart + inserted);
    LoadedRowsSlice(pools, draws, factRows, txnIdStart, inserted, n);
    LoopStep(rows, batchSize, inserted, done, sizes, buffers, n, buf);
  }

  /** One turn of the batching loop keeps its state: the next batch is the
      next piece `chunks` cuts, and its buffer the stream of that piece. */
  lemma LoopStep(rows: seq<FactRow>, batchSize: int, inserted: int,
                 done: seq<seq<FactRow>>, sizes: seq<int>, buffers: seq<string>, n: int, buf: string)
    requires batchSize >= 1
    requires Written(rows, batchSize, inserted, done, sizes, buffers)
    requires inserted < |rows| && n == Min(batchSize, |rows| - inserted)
    requires buf == EncodeBuffer(rows[inserted..inserted + n])
    ensures Written(rows, batchSize, inserted + n, done + [rows[inserted..inserted + n]], sizes + [n], buffers + [buf])
  {
    ChunkStep(rows, done, inserted, n, batchSize);
    EncodeBatchesSnoc(done, rows[inserted..inserted + n]);
    SizesSnoc(done, rows[inserted..inserted + n]);
  }

  /** The inner `for i in range(n)` loop: the line of each row of the batch
      written into a fresh buffer, transaction ids counted from `firstId`
      (`txn_ids`). */
  method WriteBatch(pools: KeyPools, batch: seq<FactDraw>, firstId: int) returns (buf: string)
    requires forall i :: 0 <= i < |batch| ==> DrawFits(pools, batch[i])
    ensures buf == EncodeBuffer(FactRows(pools, batch, firstId))
  {
    var n := |batch|;
    var txnIds := seq(n, k => firstId + k);
    ghost var rows := FactRows(pools, batch, firstId);
    buf := "";
    for i := 0 to n
      invariant buf == EncodeBuffer(rows[..i])
    {
      var row := FactRowOf(pools, batch[i], txnIds[i]);
      assert row == rows[i];
      EncodeBufferStep(rows, i);
      buf := buf + EncodeFactLine(row);
    }
    assert rows[..n] == rows;
  }

  /** Writing one more row appends its line. */
  lemma EncodeBufferStep(rows: seq<FactRow>, i: int)
    requires 0 <= i < |rows|
    ensures EncodeBuffer(rows[..i + 1]) == EncodeBuffer(rows[..i]) + EncodeFactLine(rows[i])
  {
    assert rows[..i + 1][..i] == rows[..i];
  }

  /** The rows of one batch are the rows of its own draws, numbered on. */
  lemma LoadedRowsSlice(pools: KeyPools, draws: seq<FactDraw>, factRows: int, txnIdStart: int, lo: int, n: int)
    requires factRows <= |draws|
    requires forall i :: 0 <= i < |draws| ==> DrawFits(pools, draws[i])
    requires 0 <= lo && 0 <= n && lo + n <= factRows
    ensures LoadedRows(pools, draws, factRows, txnIdStart)[lo..lo + n]
            == FactRows(pools, draws[lo..lo + n], txnIdStart + lo)
  {
  }

  /** One turn of the loop takes the next piece `chunks` would cut. */
  lemma ChunkStep<T>(xs: seq<T>, done: seq<seq<T>>, lo: int, n: int, size: int)
    requires size >= 1 && 0 <= lo < |xs| && n == Min(size, |xs| - lo)
    requires done + ChunksOf(xs[lo..], size) == ChunksOf(xs, size)
    ensures (done + [xs[lo..lo + n]]) + ChunksOf(xs[lo + n..], size) == ChunksOf(xs, size)
  {
    var rest := xs[lo..];
    if |rest| <= size {
      assert rest == xs[lo..lo + n];
      assert xs[lo + n..] == [];
    } else {
      assert rest[..size] == xs[lo..lo + n];
      assert rest[size..] == xs[lo + n..];
    }
  }

  lemma EncodeBatchesSnoc(batches: seq<seq<FactRow>>, batch: seq<FactRow>)
    ensures EncodeBatches(batches + [batch]) == EncodeBatches(batches) + [EncodeBuffer(batch)]
    decreases |batches|
  {
    if batches != [] {
      assert (batches + [batch])[1..] == batches[1..] + [batch];
      EncodeBatchesSnoc(batches[1..], batch);
    }
  }
}
