/**
 * EmbeddingService: embedding generation in batches of 20, the cosine
 * similarity, the vector search over the chunks of ready files, and the
 * selection between vector and keyword results.
 *
 * The embedding API (`embedBatch`, `embed`), the square root and the
 * store-native FULLTEXT ranking are parameters. `EmbedAll` and
 * `VectorSearch` are the specification functions; the methods are the loops
 * of the source, proved equal to them.
 */
module Embedding {
  import opened Wrappers
  import opened Strings
  import opened Json
  import opened Store

  const BatchSize: nat := 20

  /** The error PHP raises when spreading (`...$x`) a value that is not a list. */
  const UnpackError: string := "Only arrays and Traversables can be unpacked"

  // ---------------------------------------------------------------------------
  // Batching (`array_chunk($chunkRecords, 20)`)

  function Batches<T>(xs: seq<T>): seq<seq<T>>
    decreases |xs|
  {
    if xs == [] then []
    else if |xs| <= BatchSize then [xs]
    else [xs[..BatchSize]] + Batches(xs[BatchSize..])
  }

  /** Concatenation of the batches, in order. */
  function Flatten<T>(xss: seq<seq<T>>): seq<T> {
    if xss == [] then [] else Flatten(xss[..|xss| - 1]) + xss[|xss| - 1]
  }

  lemma {:induction false} FlattenCons<T>(x: seq<T>, xss: seq<seq<T>>)
    ensures Flatten([x] + xss) == x + Flatten(xss)
    decreases |xss|
  {
    if xss == [] {
      assert ([x] + xss)[..0] == [];
    } else {
      var init := xss[..|xss| - 1];
      assert ([x] + xss)[..|xss|] == [x] + init;
      FlattenCons(x, init);
    }
  }

  /** Concatenated, the batches give back the input. */
  lemma {:induction false} BatchesFlatten<T>(xs: seq<T>)
    ensures Flatten(Batches(xs)) == xs
    decreases |xs|
  {
    if xs == [] {
    } else if |xs| <= BatchSize {
      assert Flatten([xs]) == Flatten([xs][..0]) + xs;
    } else {
      var rest := xs[BatchSize..];
      BatchesFlatten(rest);
      FlattenCons(xs[..BatchSize], Batches(rest));
      assert xs[..BatchSize] + rest == xs;
    }
  }

  /** The end of batch `b` within the input. */
  function BatchEnd(n: nat, b: nat): nat {
    if BatchSize * b + BatchSize <= n then BatchSize * b + BatchSize else n
  }

  /**
   * The batches are consecutive slices of 20 in original order: batch `b`
   * is `xs[20*b..]` cut at 20 elements, so none is empty and all but the
   * last are full.
   */
  lemma {:induction false} BatchesShape<T>(xs: seq<T>)
    ensures |Batches(xs)| == (|xs| + BatchSize - 1) / BatchSize
    ensures forall b :: 0 <= b < |Batches(xs)| ==>
      BatchSize * b < |xs| && Batches(xs)[b] == xs[BatchSize * b .. BatchEnd(|xs|, b)]
    decreases |xs|
  {
    if xs == [] {
    } else if |xs| <= BatchSize {
    } else {
      var rest := xs[BatchSize..];
      BatchesShape(rest);
      forall b | 0 <= b < |Batches(xs)|
        ensures BatchSize * b < |xs| && Batches(xs)[b] == xs[BatchSize * b .. BatchEnd(|xs|, b)]
      {
        if b > 0 {
          BatchShift(xs, rest, b);
        }
      }
    }
  }

  lemma {:induction false} BatchShift<T>(xs: seq<T>, rest: seq<T>, b: nat)
    requires |xs| > BatchSize && rest == xs[BatchSize..] && 0 < b < |Batches(xs)|
    requires BatchSize * (b - 1) < |rest| && Batches(rest)[b - 1] == rest[BatchSize * (b - 1) .. BatchEnd(|rest|, b - 1)]
    ensures BatchSize * b < |xs| && Batches(xs)[b] == xs[BatchSize * b .. BatchEnd(|xs|, b)]
  {
    var lo, hi := BatchSize * (b - 1), BatchEnd(|rest|, b - 1);
    assert BatchSize * b == lo + BatchSize;
    assert BatchEnd(|xs|, b) == hi + BatchSize;
    assert Batches(xs)[b] == Batches(rest)[b - 1];
    assert rest[lo..hi] == xs[lo + BatchSize..hi + BatchSize];
  }

  /** The texts sent for a batch: the chunk contents in order. */
  function Contents(cs: seq<Chunk>): (r: seq<string>)
    ensures |r| == |cs| && forall i :: 0 <= i < |cs| ==> r[i] == cs[i].content
  {
    if cs == [] then [] else Contents(cs[..|cs| - 1]) + [cs[|cs| - 1].content]
  }

  // ---------------------------------------------------------------------------
  // Embedding rows

  /** A number as `pack('f', ...)` reads it; values other than numbers are read as 0. */
  function NumberOf(v: Value): real {
    match v
    case Int(i) => i as real
    case Float(r) => r
    case Bool(b) => if b then 1.0 else 0.0
    case _ => 0.0
  }

  function VectorOf(items: seq<Value>): (r: seq<real>)
    ensures |r| == |items| && forall i :: 0 <= i < |items| ==> r[i] == NumberOf(items[i])
  {
    if items == [] then [] else VectorOf(items[..|items| - 1]) + [NumberOf(items[|items| - 1])]
  }

  /**
   * What the embedding writes did: the rows inserted, the exception that
   * ended them (if any), and the texts of each `embedBatch` call made.
   */
  datatype EmbedOutcome = EmbedOutcome(rows: seq<EmbeddingRow>, failure: Option<string>, calls: seq<seq<string>>)

  /**
   * The inner loop over one batch: chunk `i` gets the response's entry `i`;
   * an unset (null or missing) entry is skipped; an entry that is not a list
   * makes the spread throw, ending the writes.
   */
  function BatchRows(batch: seq<Chunk>, vs: seq<Value>, model: string): EmbedOutcome {
    if batch == [] then EmbedOutcome([], None, [])
    else ChunkStep(BatchRows(batch[..|batch| - 1], vs, model), batch[|batch| - 1], |batch| - 1, vs, model)
  }

  /** The write for chunk `c`, the `i`-th of its batch. */
  function ChunkStep(prev: EmbedOutcome, c: Chunk, i: nat, vs: seq<Value>, model: string): EmbedOutcome {
    if prev.failure.Some? || i >= |vs| || vs[i].Null? then prev
    else if vs[i].Arr? then EmbedOutcome(prev.rows + [EmbeddingRow(c.id, VectorOf(vs[i].items), model)], None, [])
    else EmbedOutcome(prev.rows, Some(UnpackError), [])
  }

  /** The outer loop: one `embedBatch` call per batch until one of them, or a row write, throws. */
  function EmbedAll(batches: seq<seq<Chunk>>, embedBatch: seq<string> -> Result<seq<Value>>, model: string): EmbedOutcome {
    if batches == [] then EmbedOutcome([], None, [])
    else BatchStep(EmbedAll(batches[..|batches| - 1], embedBatch, model), batches[|batches| - 1], embedBatch, model)
  }

  /** The call and the writes for one batch, unless an earlier one failed. */
  function BatchStep(prev: EmbedOutcome, batch: seq<Chunk>, embedBatch: seq<string> -> Result<seq<Value>>, model: string): EmbedOutcome {
    if prev.failure.Some? then prev
    else
      var calls := prev.calls + [Contents(batch)];
      var response := embedBatch(Contents(batch));
      if response.Fail? then EmbedOutcome(prev.rows, Some(response.message), calls)
      else
        var b := BatchRows(batch, response.value, model);
        EmbedOutcome(prev.rows + b.rows, b.failure, calls)
  }

  /**
   * Every row of a batch carries the configured model and belongs to a
   * chunk `i` of the batch with the response's entry `i`, which is a list.
   */
  lemma {:induction false} BatchRowsFrom(batch: seq<Chunk>, vs: seq<Value>, model: string)
    ensures forall r :: r in BatchRows(batch, vs, model).rows ==>
      exists i :: 0 <= i < |batch| && i < |vs| && vs[i].Arr? && r == EmbeddingRow(batch[i].id, VectorOf(vs[i].items), model)
  {
    if batch != [] {
      BatchRowsFrom(batch[..|batch| - 1], vs, model);
    }
  }

  /**
   * When every entry is null or a list, nothing fails and, for distinct
   * chunks, chunk `i` gets a row exactly when entry `i` exists and is a
   * list: chunks beyond the response, or with a null entry, get none.
   */
  lemma {:induction false} BatchRowsAligned(batch: seq<Chunk>, vs: seq<Value>, model: string)
    requires DistinctIds(batch)
    requires forall i :: 0 <= i < |batch| && i < |vs| ==> vs[i].Null? || vs[i].Arr?
    ensures BatchRows(batch, vs, model).failure.None?
    ensures forall i :: 0 <= i < |batch| && i < |vs| && vs[i].Arr? ==>
      EmbeddingRow(batch[i].id, VectorOf(vs[i].items), model) in BatchRows(batch, vs, model).rows
    ensures forall i :: 0 <= i < |batch| && (i >= |vs| || vs[i].Null?) ==>
      batch[i].id !in EmbeddedIds(BatchRows(batch, vs, model).rows)
  {
    if batch != [] {
      var n := |batch| - 1;
      var front := batch[..n];
      assert forall i :: 0 <= i < n ==> front[i] == batch[i];
      BatchRowsAligned(front, vs, model);
      var prev := BatchRows(front, vs, model);
      assert BatchRows(batch, vs, model) == ChunkStep(prev, batch[n], n, vs, model);
      StepKeeps(prev, batch[n], n, vs, model);
      if n >= |vs| || vs[n].Null? {
        LastAbsent(batch, vs, model);
      }
      forall i | 0 <= i < n && (i >= |vs| || vs[i].Null?)
        ensures batch[i].id !in EmbeddedIds(BatchRows(batch, vs, model).rows)
      {
        assert batch[i].id !in EmbeddedIds(prev.rows);
        assert batch[i].id != batch[n].id;
      }
    }
  }

  /** One chunk's write keeps the earlier rows, fails only on an entry that is neither null nor a list, and adds at most that chunk's id. */
  lemma {:induction false} StepKeeps(prev: EmbedOutcome, c: Chunk, n: nat, vs: seq<Value>, model: string)
    requires prev.failure.None?
    requires n < |vs| ==> vs[n].Null? || vs[n].Arr?
    ensures ChunkStep(prev, c, n, vs, model).failure.None?
    ensures forall r :: r in prev.rows ==> r in ChunkStep(prev, c, n, vs, model).rows
    ensures n < |vs| && vs[n].Arr? ==> EmbeddingRow(c.id, VectorOf(vs[n].items), model) in ChunkStep(prev, c, n, vs, model).rows
    ensures EmbeddedIds(ChunkStep(prev, c, n, vs, model).rows) <= EmbeddedIds(prev.rows) + {c.id}
    ensures n >= |vs| || vs[n].Null? ==> ChunkStep(prev, c, n, vs, model) == prev
  {
  }

  /** For distinct chunks, the last chunk's id is not among the rows written for the ones before it. */
  lemma {:induction false} LastAbsent(batch: seq<Chunk>, vs: seq<Value>, model: string)
    requires batch != [] && DistinctIds(batch)
    ensures batch[|batch| - 1].id !in EmbeddedIds(BatchRows(batch[..|batch| - 1], vs, model).rows)
  {
    var n := |batch| - 1;
    BatchRowsFrom(batch[..n], vs, model);
    forall r | r in BatchRows(batch[..n], vs, model).rows ensures r.chunkId != batch[n].id {
      var j :| 0 <= j < n && j < |vs| && vs[j].Arr? && r == EmbeddingRow(batch[..n][j].id, VectorOf(vs[j].items), model);
      assert batch[..n][j] == batch[j];
    }
  }


  /** An exception ends the writes: later batches are neither sent nor stored. */
  lemma {:induction false} FailureIsFinal(batches: seq<seq<Chunk>>, more: seq<seq<Chunk>>, embedBatch: seq<string> -> Result<seq<Value>>, model: string)
    requires EmbedAll(batches, embedBatch, model).failure.Some?
    ensures EmbedAll(batches + more, embedBatch, model) == EmbedAll(batches, embedBatch, model)
    decreases |more|
  {
    if more == [] {
      assert batches + more == batches;
    } else {
      var init := more[..|more| - 1];
      assert (batches + more)[..|batches + more| - 1] == batches + init;
      FailureIsFinal(batches, init, embedBatch, model);
    }
  }

  /** The outcome after the loop stops at batch `b`, because of a failure or at the end. */
  lemma {:induction false} FinalOutcome(batches: seq<seq<Chunk>>, b: nat, embedBatch: seq<string> -> Result<seq<Value>>, model: string)
    requires b <= |batches| && (b == |batches| || EmbedAll(batches[..b], embedBatch, model).failure.Some?)
    ensures EmbedAll(batches, embedBatch, model) == EmbedAll(batches[..b], embedBatch, model)
  {
    if b < |batches| {
      FailureIsFinal(batches[..b], batches[b..], embedBatch, model);
      assert batches[..b] + batches[b..] == batches;
    } else {
      assert batches[..b] == batches;
    }
  }

  /** Rows written for earlier batches stay when a later batch fails: the rows only grow. */
  lemma {:induction false} RowsOnlyGrow(batches: seq<seq<Chunk>>, more: seq<seq<Chunk>>, embedBatch: seq<string> -> Result<seq<Value>>, model: string)
    ensures var before := EmbedAll(batches, embedBatch, model).rows;
      var after := EmbedAll(batches + more, embedBatch, model).rows;
      |before| <= |after| && after[..|before|] == before
    decreases |more|
  {
    if more == [] {
      assert batches + more == batches;
    } else {
      var init := more[..|more| - 1];
      assert (batches + more)[..|batches + more| - 1] == batches + init;
      RowsOnlyGrow(batches, init, embedBatch, model);
    }
  }

  /**
   * When nothing fails, one `embedBatch` call is made per batch, in order,
   * over that batch's chunk contents.
   */
  lemma {:induction false} CallsPerBatch(batches: seq<seq<Chunk>>, embedBatch: seq<string> -> Result<seq<Value>>, model: string)
    requires EmbedAll(batches, embedBatch, model).failure.None?
    ensures var calls := EmbedAll(batches, embedBatch, model).calls;
      |calls| == |batches| && forall b :: 0 <= b < |batches| ==> calls[b] == Contents(batches[b])
  {
    if batches != [] {
      CallsPerBatch(batches[..|batches| - 1], embedBatch, model);
    }
  }

  /** Every row written carries the configured embedding model and a chunk of the input. */
  lemma {:induction false} RowsTagged(batches: seq<seq<Chunk>>, embedBatch: seq<string> -> Result<seq<Value>>, model: string)
    ensures forall r :: r in EmbedAll(batches, embedBatch, model).rows ==>
      r.model == model && r.chunkId in ChunkIds(Flatten(batches))
  {
    if batches != [] {
      var init, last := batches[..|batches| - 1], batches[|batches| - 1];
      RowsTagged(init, embedBatch, model);
      var prev := EmbedAll(init, embedBatch, model);
      if prev.failure.None? {
        match embedBatch(Contents(last))
        case Fail(_) =>
        case Ok(vs) =>
          BatchRowsFrom(last, vs, model);
      }
      assert ChunkIds(Flatten(batches)) == ChunkIds(Flatten(init)) + ChunkIds(last);
    }
  }

  /** The chunk ids of a prefix of distinct chunks leave out the next chunk's id. */
  predicate DistinctIds(cs: seq<Chunk>) {
    forall i, j :: 0 <= i < j < |cs| ==> cs[i].id != cs[j].id
  }

  lemma {:induction false} PrefixIdsExclude(cs: seq<Chunk>, p: nat)
    requires DistinctIds(cs) && p < |cs|
    ensures cs[p].id !in ChunkIds(cs[..p])
  {
    forall c | c in cs[..p] ensures c.id != cs[p].id {
      var k :| 0 <= k < p && cs[..p][k] == c;
      assert cs[k] == c;
    }
  }

  /** Distinct chunks: the ids before position `p` and those of the slice `cs[p..q]` are disjoint. */
  lemma {:induction false} SliceIdsDisjoint(cs: seq<Chunk>, p: nat, q: nat)
    requires DistinctIds(cs) && p <= q <= |cs|
    ensures forall c :: c in cs[p..q] ==> c.id !in ChunkIds(cs[..p])
    ensures ChunkIds(cs[..q]) == ChunkIds(cs[..p]) + ChunkIds(cs[p..q])
  {
    forall c | c in cs[p..q] ensures c.id !in ChunkIds(cs[..p]) {
      var k :| p <= k < q && cs[k] == c;
      PrefixIdsExclude(cs, k);
      assert cs[..p] <= cs[..k];
      assert forall d :: d in cs[..p] ==> d in cs[..k];
    }
    assert cs[..q] == cs[..p] + cs[p..q];
  }

  /**
   * The inner loop over one batch, given the batch's response `vs`: the
   * rows of `BatchRows` are appended in order and `failure` is the
   * exception a non-list entry raises.
   */
  method WriteBatch(db: KnowledgeStore, batch: seq<Chunk>, vs: seq<Value>, model: string) returns (failure: Option<string>)
    requires db.Valid() && DistinctIds(batch)
    requires forall c :: c in batch ==> c.id in ChunkIds(db.chunks) && c.id !in EmbeddedIds(db.embeddings)
    modifies db
    ensures db.Valid()
    ensures failure == BatchRows(batch, vs, model).failure
    ensures db.embeddings == old(db.embeddings) + BatchRows(batch, vs, model).rows
    ensures db.files == old(db.files) && db.chunks == old(db.chunks) && db.blobs == old(db.blobs) && db.nextId == old(db.nextId)
  {
    var i := 0;
    while i < |batch|
      invariant 0 <= i <= |batch|
      invariant db.Valid()
      invariant BatchRows(batch[..i], vs, model).failure.None?
      invariant db.embeddings == old(db.embeddings) + BatchRows(batch[..i], vs, model).rows
      invariant db.files == old(db.files) && db.chunks == old(db.chunks) && db.blobs == old(db.blobs) && db.nextId == old(db.nextId)
    {
      BatchRowsNext(batch, vs, model, i);
      if i < |vs| && !vs[i].Null? {
        if !vs[i].Arr? {
          BatchRowsStop(batch, vs, model, i + 1);
          return Some(UnpackError);
        }
        assert batch[i] in batch;
        FreshInBatch(batch, vs, model, i, old(db.embeddings));
        db.InsertEmbedding(batch[i].id, VectorOf(vs[i].items), model);
      }
      i := i + 1;
    }
    assert batch[..|batch|] == batch;
    failure := None;
  }

  lemma {:induction false} FlattenAppend<T>(xss: seq<seq<T>>, yss: seq<seq<T>>)
    ensures Flatten(xss + yss) == Flatten(xss) + Flatten(yss)
    decreases |yss|
  {
    if yss == [] {
      assert xss + yss == xss;
    } else {
      var init := yss[..|yss| - 1];
      assert (xss + yss)[..|xss + yss| - 1] == xss + init;
      FlattenAppend(xss, init);
    }
  }

  /** The chunks before batch `b`, then batch `b`, are a prefix of all the chunks. */
  lemma {:induction false} BatchPosition(batches: seq<seq<Chunk>>, b: nat)
    requires b < |batches|
    ensures var before := Flatten(batches[..b]);
      |before| + |batches[b]| <= |Flatten(batches)|
      && Flatten(batches)[..|before|] == before
      && Flatten(batches)[|before|..|before| + |batches[b]|] == batches[b]
  {
    var all := Flatten(batches);
    var before := Flatten(batches[..b]);
    assert batches[..b + 1][..b] == batches[..b];
    assert batches == batches[..b + 1] + batches[b + 1..];
    FlattenAppend(batches[..b + 1], batches[b + 1..]);
    assert all == (before + batches[b]) + Flatten(batches[b + 1..]);
  }

  /**
   * Batch `b` of distinct chunks: its chunks are among all of them, are
   * distinct, and have ids none of the earlier batches has.
   */
  lemma {:induction false} BatchDisjoint(batches: seq<seq<Chunk>>, b: nat)
    requires b < |batches| && DistinctIds(Flatten(batches))
    ensures DistinctIds(batches[b])
    ensures forall c :: c in batches[b] ==> c in Flatten(batches) && c.id !in ChunkIds(Flatten(batches[..b]))
  {
    var all := Flatten(batches);
    var p := |Flatten(batches[..b])|;
    var q := p + |batches[b]|;
    BatchPosition(batches, b);
    SliceIdsDisjoint(all, p, q);
    DistinctSlice(all, p, q);
  }

  lemma {:induction false} DistinctSlice(all: seq<Chunk>, p: nat, q: nat)
    requires DistinctIds(all) && p <= q <= |all|
    ensures DistinctIds(all[p..q])
    ensures forall c :: c in all[p..q] ==> c in all
  {
    var slice := all[p..q];
    forall i, j | 0 <= i < j < |slice| ensures slice[i].id != slice[j].id {
      assert slice[i] == all[p + i] && slice[j] == all[p + j];
    }
    forall c | c in slice ensures c in all {
      var k :| 0 <= k < |slice| && slice[k] == c;
      assert all[p + k] == c;
    }
  }

  /**
   * Before batch `b` is written, none of its chunks has an embedding: the
   * earlier batches wrote rows only for their own chunks.
   */
  lemma {:induction false} NotYetEmbedded(before: seq<EmbeddingRow>, chunks: seq<Chunk>, batches: seq<seq<Chunk>>, b: nat,
                       embedBatch: seq<string> -> Result<seq<Value>>, model: string)
    requires b < |batches| && DistinctIds(Flatten(batches))
    requires forall c :: c in Flatten(batches) ==> c.id in ChunkIds(chunks) && c.id !in EmbeddedIds(before)
    ensures DistinctIds(batches[b])
    ensures forall c :: c in batches[b] ==>
      c.id in ChunkIds(chunks) && c.id !in EmbeddedIds(before + EmbedAll(batches[..b], embedBatch, model).rows)
  {
    BatchDisjoint(batches, b);
    RowsTagged(batches[..b], embedBatch, model);
    var rows := EmbedAll(batches[..b], embedBatch, model).rows;
    forall c | c in batches[b] ensures c.id !in EmbeddedIds(before + rows) {
      assert c in Flatten(batches);
      forall e | e in before + rows ensures e.chunkId != c.id {
        if e in rows {
          assert e.chunkId in ChunkIds(Flatten(batches[..b]));
        }
      }
    }
  }

  /**
   * `generateEmbeddingsForChunks`: the batch loop writing embedding rows.
   * The chunks must be stored, distinct and not yet embedded, as the
   * freshly saved chunks of `_processFile` are. The new rows are exactly
   * those of `EmbedAll`, appended in order, and `failure` is the exception
   * that escaped, if any.
   */
  method GenerateEmbeddings(db: KnowledgeStore, cs: seq<Chunk>, embedBatch: seq<string> -> Result<seq<Value>>, model: string)
    returns (failure: Option<string>)
    requires db.Valid() && DistinctIds(cs)
    requires forall c :: c in cs ==> c.id in ChunkIds(db.chunks) && c.id !in EmbeddedIds(db.embeddings)
    modifies db
    ensures db.Valid()
    ensures failure == EmbedAll(Batches(cs), embedBatch, model).failure
    ensures db.embeddings == old(db.embeddings) + EmbedAll(Batches(cs), embedBatch, model).rows
    ensures db.files == old(db.files) && db.chunks == old(db.chunks) && db.blobs == old(db.blobs) && db.nextId == old(db.nextId)
  {
    var batches := Batches(cs);
    BatchesFlatten(cs);
    ghost var before := db.embeddings;
    var b := 0;
    failure := None;
    assert batches[..0] == [];
    while b < |batches| && failure.None?
      invariant 0 <= b <= |batches|
      invariant db.Valid()
      invariant EmbedAll(batches[..b], embedBatch, model).failure == failure
      invariant db.embeddings == old(db.embeddings) + EmbedAll(batches[..b], embedBatch, model).rows
      invariant db.files == old(db.files) && db.chunks == old(db.chunks) && db.blobs == old(db.blobs) && db.nextId == old(db.nextId)
    {
      failure := EmbedOneBatch(db, before, batches, b, embedBatch, model);
      b := b + 1;
    }
    FinalOutcome(batches, b, embedBatch, model);
  }

  /** One pass of the outer loop: the `embedBatch` call for batch `b` and the writes of its rows. */
  method EmbedOneBatch(db: KnowledgeStore, ghost before: seq<EmbeddingRow>, batches: seq<seq<Chunk>>, b: nat,
                       embedBatch: seq<string> -> Result<seq<Value>>, model: string) returns (failure: Option<string>)
    requires db.Valid() && b < |batches| && DistinctIds(Flatten(batches))
    requires forall c :: c in Flatten(batches) ==> c.id in ChunkIds(db.chunks) && c.id !in EmbeddedIds(before)
    requires EmbedAll(batches[..b], embedBatch, model).failure.None?
    requires db.embeddings == before + EmbedAll(batches[..b], embedBatch, model).rows
    modifies db
    ensures db.Valid()
    ensures failure == EmbedAll(batches[..b + 1], embedBatch, model).failure
    ensures db.embeddings == before + EmbedAll(batches[..b + 1], embedBatch, model).rows
    ensures db.files == old(db.files) && db.chunks == old(db.chunks) && db.blobs == old(db.blobs) && db.nextId == old(db.nextId)
  {
    EmbedAllSnoc(batches, embedBatch, model, b);
    NotYetEmbedded(before, db.chunks, batches, b, embedBatch, model);
    var response := embedBatch(Contents(batches[b]));
    if response.Fail? {
      return Some(response.message);
    }
    failure := WriteBatch(db, batches[b], response.value, model);
  }

  /** One more batch: its call, then its failure or its rows. */
  lemma {:induction false} EmbedAllSnoc(batches: seq<seq<Chunk>>, embedBatch: seq<string> -> Result<seq<Value>>, model: string, b: nat)
    requires b < |batches| && EmbedAll(batches[..b], embedBatch, model).failure.None?
    ensures var prev := EmbedAll(batches[..b], embedBatch, model);
      var next := EmbedAll(batches[..b + 1], embedBatch, model);
      var response := embedBatch(Contents(batches[b]));
      next.calls == prev.calls + [Contents(batches[b])]
      && (response.Fail? ==> next.rows == prev.rows && next.failure == Some(response.message))
      && (response.Ok? ==> next.rows == prev.rows + BatchRows(batches[b], response.value, model).rows
                           && next.failure == BatchRows(batches[b], response.value, model).failure)
  {
    assert batches[..b + 1][..b] == batches[..b];
  }

  /** One more chunk of the batch: its row, nothing, or the spread's exception. */
  /** Chunk `i` of a batch of distinct chunks has no row yet after the rows written for the chunks before it. */
  lemma {:induction false} FreshInBatch(batch: seq<Chunk>, vs: seq<Value>, model: string, i: nat, base: seq<EmbeddingRow>)
    requires DistinctIds(batch) && i < |batch| && batch[i].id !in EmbeddedIds(base)
    ensures batch[i].id !in EmbeddedIds(base + BatchRows(batch[..i], vs, model).rows)
  {
    var rows := BatchRows(batch[..i], vs, model).rows;
    BatchRowsFrom(batch[..i], vs, model);
    forall e | e in base + rows ensures e.chunkId != batch[i].id {
      if e !in base {
        var j :| 0 <= j < i && j < |vs| && vs[j].Arr? && e == EmbeddingRow(batch[..i][j].id, VectorOf(vs[j].items), model);
        assert batch[..i][j] == batch[j];
      }
    }
  }

  lemma {:induction false} BatchRowsNext(batch: seq<Chunk>, vs: seq<Value>, model: string, i: nat)
    requires i < |batch|
    ensures BatchRows(batch[..i + 1], vs, model) == ChunkStep(BatchRows(batch[..i], vs, model), batch[i], i, vs, model)
  {
    assert batch[..i + 1][..i] == batch[..i];
  }

  /** Once a batch's writes fail, the rest of that batch changes nothing. */
  lemma {:induction false} BatchRowsStop(batch: seq<Chunk>, vs: seq<Value>, model: string, n: nat)
    requires n <= |batch| && BatchRows(batch[..n], vs, model).failure.Some?
    ensures BatchRows(batch, vs, model) == BatchRows(batch[..n], vs, model)
    decreases |batch| - n
  {
    if n < |batch| {
      assert batch[..n + 1][..n] == batch[..n];
      BatchRowsStop(batch, vs, model, n + 1);
    } else {
      assert batch[..n] == batch;
    }
  }

  // ---------------------------------------------------------------------------
  // Cosine similarity

  /** The sum of `a[i] * b[i]` over the first `n` components. */
  function Dot(a: seq<real>, b: seq<real>, n: nat): real
    requires n <= |a| && n <= |b|
  {
    if n == 0 then 0.0 else Dot(a, b, n - 1) + a[n - 1] * b[n - 1]
  }

  function MinLength(a: seq<real>, b: seq<real>): nat {
    if |a| < |b| then |a| else |b|
  }

  /**
   * `_cosineSimilarity` over the first `min(|a|, |b|)` components, with
   * `sqrt` a parameter: 0 when either partial norm is 0.
   */
  function Cosine(a: seq<real>, b: seq<real>, sqrt: real -> real): real {
    var n := MinLength(a, b);
    var normA := sqrt(Dot(a, a, n));
    var normB := sqrt(Dot(b, b, n));
    if normA == 0.0 || normB == 0.0 then 0.0 else Dot(a, b, n) / (normA * normB)
  }

  /** The `for` loop accumulating the dot product and the squared norms. */
  method CosineSimilarity(a: seq<real>, b: seq<real>, sqrt: real -> real) returns (score: real)
    ensures score == Cosine(a, b, sqrt)
  {
    var dotProduct, normA, normB := 0.0, 0.0, 0.0;
    var len := if |a| < |b| then |a| else |b|;
    for i := 0 to len
      invariant dotProduct == Dot(a, b, i)
      invariant normA == Dot(a, a, i) && normB == Dot(b, b, i)
    {
      dotProduct := dotProduct + a[i] * b[i];
      normA := normA + a[i] * a[i];
      normB := normB + b[i] * b[i];
    }
    assert len == MinLength(a, b);
    normA := sqrt(normA);
    normB := sqrt(normB);
    assert normA == sqrt(Dot(a, a, MinLength(a, b))) && normB == sqrt(Dot(b, b, MinLength(a, b)));
    if normA == 0.0 || normB == 0.0 {
      return 0.0;
    }
    score := dotProduct / (normA * normB);
  }

  lemma {:induction false} DotPrefix(a: seq<real>, b: seq<real>, a': seq<real>, b': seq<real>, n: nat)
    requires n <= |a| && n <= |b| && n <= |a'| && n <= |b'|
    requires a[..n] == a'[..n] && b[..n] == b'[..n]
    ensures Dot(a, b, n) == Dot(a', b', n)
  {
    if n > 0 {
      assert a[..n - 1] == a'[..n - 1] && b[..n - 1] == b'[..n - 1];
      assert a[n - 1] == a[..n][n - 1] && a'[n - 1] == a'[..n][n - 1];
      assert b[n - 1] == b[..n][n - 1] && b'[n - 1] == b'[..n][n - 1];
      DotPrefix(a, b, a', b', n - 1);
    }
  }

  lemma {:induction false} DotSymmetric(a: seq<real>, b: seq<real>, n: nat)
    requires n <= |a| && n <= |b|
    ensures Dot(a, b, n) == Dot(b, a, n)
  {
    if n > 0 {
      DotSymmetric(a, b, n - 1);
    }
  }

  lemma {:induction false} DotZero(a: seq<real>, b: seq<real>, n: nat)
    requires n <= |a| && n <= |b|
    requires forall i :: 0 <= i < n ==> a[i] == 0.0
    ensures Dot(a, b, n) == 0.0
  {
    if n > 0 {
      DotZero(a, b, n - 1);
    }
  }

  /** Only the first `min(|a|, |b|)` components take part: the longer vector's tail is ignored. */
  lemma {:induction false} CosinePrefix(a: seq<real>, b: seq<real>, sqrt: real -> real)
    ensures Cosine(a, b, sqrt) == Cosine(a[..MinLength(a, b)], b[..MinLength(a, b)], sqrt)
  {
    var n := MinLength(a, b);
    var a', b' := a[..n], b[..n];
    assert MinLength(a', b') == n;
    assert a'[..n] == a[..n] && b'[..n] == b[..n];
    DotPrefix(a, b, a', b', n);
    DotPrefix(a, a, a', a', n);
    DotPrefix(b, b, b', b', n);
    assert Cosine(a', b', sqrt) == (if sqrt(Dot(a', a', n)) == 0.0 || sqrt(Dot(b', b', n)) == 0.0 then 0.0
      else Dot(a', b', n) / (sqrt(Dot(a', a', n)) * sqrt(Dot(b', b', n))));
  }

  /** The similarity is symmetric. */
  lemma {:induction false} CosineSymmetric(a: seq<real>, b: seq<real>, sqrt: real -> real)
    ensures Cosine(a, b, sqrt) == Cosine(b, a, sqrt)
  {
    var n := MinLength(a, b);
    assert MinLength(b, a) == n;
    DotSymmetric(a, b, n);
  }

  /** A query whose first `min(|a|, |b|)` components are all zero scores 0 against anything. */
  lemma {:induction false} CosineZero(a: seq<real>, b: seq<real>, sqrt: real -> real)
    requires sqrt(0.0) == 0.0
    requires forall i :: 0 <= i < MinLength(a, b) ==> a[i] == 0.0
    ensures Cosine(a, b, sqrt) == 0.0
  {
    DotZero(a, a, MinLength(a, b));
  }

  // ---------------------------------------------------------------------------
  // Vector search

  /** A search hit: `content`, `filename` (the file's original name), `chunkId`, `score`. */
  datatype Scored = Scored(content: string, filename: string, chunkId: nat, score: real)

  /** A row of the embeddings ⨝ chunks ⨝ files join. */
  datatype Joined = Joined(embedding: EmbeddingRow, chunk: Chunk, file: KnowledgeFile)

  /**
   * The rows of the inner join of embeddings with their chunk and the
   * chunk's file, restricted to files with status `ready`, in embedding
   * table order.
   */
  function JoinedRows(files: seq<KnowledgeFile>, chunks: seq<Chunk>, embeddings: seq<EmbeddingRow>): (r: seq<Joined>)
    ensures forall j :: j in r ==>
      j.embedding in embeddings && j.chunk in chunks && j.file in files
      && j.chunk.id == j.embedding.chunkId && j.file.id == j.chunk.fileId && j.file.status == Ready
  {
    if embeddings == [] then []
    else
      var e := embeddings[|embeddings| - 1];
      var prev := JoinedRows(files, chunks, embeddings[..|embeddings| - 1]);
      match FindChunk(chunks, e.chunkId)
      case None => prev
      case Some(ci) =>
        match FindFile(files, chunks[ci].fileId)
        case None => prev
        case Some(fi) => if files[fi].status == Ready then prev + [Joined(e, chunks[ci], files[fi])] else prev
  }

  /** Each joined row scored against the query vector. */
  function ScoreAll(rows: seq<Joined>, query: seq<real>, sqrt: real -> real): (r: seq<Scored>)
    ensures |r| == |rows|
    ensures forall i :: 0 <= i < |rows| ==> r[i] == Scored(rows[i].chunk.content, rows[i].file.originalName,
      rows[i].embedding.chunkId, Cosine(query, rows[i].embedding.vector, sqrt))
  {
    if rows == [] then []
    else
      var j := rows[|rows| - 1];
      ScoreAll(rows[..|rows| - 1], query, sqrt)
      + [Scored(j.chunk.content, j.file.originalName, j.embedding.chunkId, Cosine(query, j.embedding.vector, sqrt))]
  }

  predicate SortedByScore(xs: seq<Scored>) {
    forall i, j :: 0 <= i < j < |xs| ==> xs[i].score >= xs[j].score
  }

  /** Inserts `x` before the first element that does not score higher. */
  function InsertByScore(x: Scored, ys: seq<Scored>): (r: seq<Scored>)
    ensures multiset(r) == multiset(ys) + multiset{x}
  {
    if ys == [] || ys[0].score <= x.score then [x] + ys
    else
      assert ys == [ys[0]] + ys[1..];
      [ys[0]] + InsertByScore(x, ys[1..])
  }

  lemma {:induction false} InsertSorted(x: Scored, ys: seq<Scored>)
    requires SortedByScore(ys)
    ensures SortedByScore(InsertByScore(x, ys))
  {
    if ys != [] && ys[0].score > x.score {
      var rest := InsertByScore(x, ys[1..]);
      InsertSorted(x, ys[1..]);
      assert ys == [ys[0]] + ys[1..];
      forall k | 0 <= k < |rest| ensures ys[0].score >= rest[k].score {
        assert rest[k] in multiset(rest);
        assert rest[k] in multiset(ys[1..]) || rest[k] == x;
        if rest[k] != x {
          var m :| 0 <= m < |ys[1..]| && ys[1..][m] == rest[k];
          assert ys[m + 1] == rest[k];
        }
      }
      assert InsertByScore(x, ys) == [ys[0]] + rest;
    }
  }

  /** `usort($scored, fn($a, $b) => $b['score'] <=> $a['score'])`: non-increasing by score, a permutation. */
  function SortByScore(xs: seq<Scored>): (r: seq<Scored>)
    ensures SortedByScore(r)
    ensures multiset(r) == multiset(xs)
  {
    if xs == [] then []
    else
      assert xs == [xs[0]] + xs[1..];
      InsertSorted(xs[0], SortByScore(xs[1..]));
      InsertByScore(xs[0], SortByScore(xs[1..]))
  }

  /**
   * `_embeddingSearch` once the query vector is known: [] for an empty
   * vector; otherwise the scored rows sorted by score and cut at `limit`.
   */
  function VectorSearch(files: seq<KnowledgeFile>, chunks: seq<Chunk>, embeddings: seq<EmbeddingRow>,
                        query: seq<real>, limit: int, sqrt: real -> real): seq<Scored>
  {
    if query == [] then []
    else SliceFront(SortByScore(ScoreAll(JoinedRows(files, chunks, embeddings), query, sqrt)), limit)
  }

  /** A prefix of a list sorted by score holds its best elements. */
  lemma {:induction false} PrefixIsTop(s: seq<Scored>, n: nat)
    requires SortedByScore(s) && n <= |s|
    ensures forall x, y :: x in s[..n] && y in multiset(s) - multiset(s[..n]) ==> x.score >= y.score
  {
    forall x, y | x in s[..n] && y in multiset(s) - multiset(s[..n]) ensures x.score >= y.score {
      LeftOut(s, n, y);
      Above(s, n, x, y);
    }
  }

  /** What the prefix leaves out of the multiset is in the rest. */
  lemma {:induction false} LeftOut(s: seq<Scored>, n: nat, y: Scored)
    requires n <= |s| && y in multiset(s) - multiset(s[..n])
    ensures y in s[n..]
  {
    assert s == s[..n] + s[n..];
    assert multiset(s) == multiset(s[..n]) + multiset(s[n..]);
  }

  /** In a sorted list, an element of the prefix scores at least any of the rest. */
  lemma {:induction false} Above(s: seq<Scored>, n: nat, x: Scored, y: Scored)
    requires SortedByScore(s) && n <= |s| && x in s[..n] && y in s[n..]
    ensures x.score >= y.score
  {
    var i :| 0 <= i < n && s[..n][i] == x;
    var j :| 0 <= j < |s| - n && s[n..][j] == y;
    assert s[i] == x && s[n + j] == y;
  }

  /**
   * `r` is a top slice of `all` for `limit`: at most `limit` (when it is
   * not negative), sorted by score, drawn from `all`, and the best ones: no
   * element of `all` left out beats a kept one.
   */
  predicate TopSlice(r: seq<Scored>, all: seq<Scored>, limit: int) {
    (limit >= 0 ==> |r| <= limit)
    && SortedByScore(r)
    && multiset(r) <= multiset(all)
    && (forall x, y :: x in r && y in multiset(all) - multiset(r) ==> x.score >= y.score)
  }

  /** The vector results are a top slice of the scored rows. */
  lemma {:induction false} VectorSearchTopK(files: seq<KnowledgeFile>, chunks: seq<Chunk>, embeddings: seq<EmbeddingRow>,
                         query: seq<real>, limit: int, sqrt: real -> real)
    requires query != []
    ensures TopSlice(VectorSearch(files, chunks, embeddings, query, limit, sqrt),
                     ScoreAll(JoinedRows(files, chunks, embeddings), query, sqrt), limit)
  {
    SortSliceTop(ScoreAll(JoinedRows(files, chunks, embeddings), query, sqrt), limit);
  }

  /** Sorting by score and slicing gives a top slice. */
  lemma {:induction false} SortSliceTop(all: seq<Scored>, limit: int)
    ensures TopSlice(SliceFront(SortByScore(all), limit), all, limit)
  {
    var s := SortByScore(all);
    var n := |SliceFront(s, limit)|;
    assert SliceFront(s, limit) == s[..n];
    PrefixIsTop(s, n);
    PrefixSorted(s, n);
    PrefixSub(s, n);
  }

  lemma {:induction false} PrefixSorted(s: seq<Scored>, n: nat)
    requires SortedByScore(s) && n <= |s|
    ensures SortedByScore(s[..n])
  {
    assert forall i :: 0 <= i < n ==> s[..n][i] == s[i];
  }

  lemma {:induction false} PrefixSub(s: seq<Scored>, n: nat)
    requires n <= |s|
    ensures multiset(s[..n]) <= multiset(s)
  {
    assert s == s[..n] + s[n..];
    assert multiset(s) == multiset(s[..n]) + multiset(s[n..]);
  }

  /** Every vector result is a chunk of a file with status `ready`. */
  lemma {:induction false} VectorSearchReady(files: seq<KnowledgeFile>, chunks: seq<Chunk>, embeddings: seq<EmbeddingRow>,
                          query: seq<real>, limit: int, sqrt: real -> real, x: Scored)
    requires x in VectorSearch(files, chunks, embeddings, query, limit, sqrt)
    ensures exists c, f :: (c in chunks && f in files && c.id == x.chunkId && f.id == c.fileId
      && f.status == Ready && x.content == c.content && x.filename == f.originalName)
  {
    var rows := JoinedRows(files, chunks, embeddings);
    var all := ScoreAll(rows, query, sqrt);
    var s := SortByScore(all);
    assert x in s;
    assert x in multiset(all);
    var i :| 0 <= i < |all| && all[i] == x;
    assert rows[i] in rows;
  }

  /**
   * `_embeddingSearch`: the query is embedded (an exception escapes as
   * `Fail`), an empty vector or an empty join gives [], and otherwise the
   * loop scores every joined row before the sort and the slice.
   */
  method EmbeddingSearch(db: KnowledgeStore, query: string, limit: int,
                         embed: string -> Result<seq<real>>, sqrt: real -> real) returns (r: Result<seq<Scored>>)
    ensures r == match embed(query)
      case Fail(m) => Fail(m)
      case Ok(qv) => Ok(VectorSearch(db.files, db.chunks, db.embeddings, qv, limit, sqrt))
  {
    var q := embed(query);
    if q.Fail? {
      return Fail(q.message);
    }
    var qv := q.value;
    if qv == [] {
      return Ok([]);
    }
    var rows := JoinedRows(db.files, db.chunks, db.embeddings);
    if rows == [] {
      return Ok([]);
    }
    var scored := [];
    for i := 0 to |rows|
      invariant scored == ScoreAll(rows[..i], qv, sqrt)
    {
      assert rows[..i + 1][..i] == rows[..i];
      var score := CosineSimilarity(qv, rows[i].embedding.vector, sqrt);
      scored := scored + [Scored(rows[i].chunk.content, rows[i].file.originalName, rows[i].embedding.chunkId, score)];
    }
    assert rows[..|rows|] == rows;
    r := Ok(SliceFront(SortByScore(scored), limit));
  }

  /**
   * `search`: the vector results when the vector search succeeds with a
   * non-empty list; the keyword (FULLTEXT) results when it yields nothing
   * or throws.
   */
  method Search(db: KnowledgeStore, query: string, limit: int, embed: string -> Result<seq<real>>,
                sqrt: real -> real, keyword: (string, int) -> seq<Scored>) returns (r: seq<Scored>)
    ensures var v := embed(query);
      if v.Ok? && VectorSearch(db.files, db.chunks, db.embeddings, v.value, limit, sqrt) != []
      then r == VectorSearch(db.files, db.chunks, db.embeddings, v.value, limit, sqrt)
      else r == keyword(query, limit)
  {
    var v := EmbeddingSearch(db, query, limit, embed, sqrt);
    if v.Ok? && v.value != [] {
      return v.value;
    }
    r := keyword(query, limit);
  }
}
