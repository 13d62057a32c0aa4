/**
 * The plugin's database as in-memory tables: the knowledge-base tables
 * (files, chunks, embeddings) plus the stored uploads, the conversation
 * tables (conversations, messages) and the page-rule table. Each table group
 * is a class whose methods are the row writes the services perform; `Valid`
 * holds the schema's unique indexes and foreign keys, and the deletes
 * cascade as the foreign keys do.
 */
module Store {
  import opened Wrappers
  import opened Strings
  import opened Json

  // ---------------------------------------------------------------------------
  // Knowledge base rows

  datatype FileStatus = Processing | Ready | Error

  datatype KnowledgeFile = KnowledgeFile(
    id: nat,
    filename: string,      // the stored blob's name
    originalName: string,
    mimeType: string,
    fileSize: int,
    status: FileStatus,
    chunkCount: nat)

  datatype Chunk = Chunk(id: nat, fileId: nat, content: string, chunkIndex: nat, tokenCount: nat, metadata: Value)

  /** A stored embedding; the float32 blob is kept as its sequence of numbers. */
  datatype EmbeddingRow = EmbeddingRow(chunkId: nat, vector: seq<real>, model: string)

  function FileIds(files: seq<KnowledgeFile>): set<nat> {
    set f | f in files :: f.id
  }

  function ChunkIds(chunks: seq<Chunk>): set<nat> {
    set c | c in chunks :: c.id
  }

  function EmbeddedIds(embeddings: seq<EmbeddingRow>): set<nat> {
    set e | e in embeddings :: e.chunkId
  }

  /** The chunks of one file, in table order. */
  function ChunksOf(chunks: seq<Chunk>, fileId: nat): seq<Chunk> {
    Filter(chunks, (c: Chunk) => c.fileId == fileId)
  }

  /** The position of the file with this id. */
  function FindFile(files: seq<KnowledgeFile>, id: nat): (r: Option<nat>)
    ensures r.Some? ==> r.value < |files| && files[r.value].id == id
    ensures r.None? <==> id !in FileIds(files)
  {
    if files == [] then None
    else if files[|files| - 1].id == id then Some(|files| - 1)
    else
      var r := FindFile(files[..|files| - 1], id);
      assert forall f :: f in files ==> f in files[..|files| - 1] || f == files[|files| - 1];
      r
  }

  /** The position of the chunk with this id. */
  function FindChunk(chunks: seq<Chunk>, id: nat): (r: Option<nat>)
    ensures r.Some? ==> r.value < |chunks| && chunks[r.value].id == id
    ensures r.None? <==> id !in ChunkIds(chunks)
  {
    if chunks == [] then None
    else if chunks[|chunks| - 1].id == id then Some(|chunks| - 1)
    else
      var r := FindChunk(chunks[..|chunks| - 1], id);
      assert forall c :: c in chunks ==> c in chunks[..|chunks| - 1] || c == chunks[|chunks| - 1];
      r
  }

  /**
   * The knowledge-base schema's constraints: primary keys are unique and
   * below the id counter, every chunk belongs to a stored file, every
   * embedding to a stored chunk, and a chunk has at most one embedding
   * (the unique index on `chunkId`).
   */
  predicate KnowledgeTablesOk(files: seq<KnowledgeFile>, chunks: seq<Chunk>, embeddings: seq<EmbeddingRow>, nextId: nat) {
    (forall i, j :: 0 <= i < j < |files| ==> files[i].id != files[j].id)
    && (forall i :: 0 <= i < |files| ==> files[i].id < nextId)
    && (forall i, j :: 0 <= i < j < |chunks| ==> chunks[i].id != chunks[j].id)
    && (forall i :: 0 <= i < |chunks| ==> chunks[i].id < nextId && chunks[i].fileId in FileIds(files))
    && (forall i, j :: 0 <= i < j < |embeddings| ==> embeddings[i].chunkId != embeddings[j].chunkId)
    && (forall i :: 0 <= i < |embeddings| ==> embeddings[i].chunkId in ChunkIds(chunks))
  }

  /** Chunks left after deleting a file's chunks. */
  function ChunksNotOf(chunks: seq<Chunk>, fileId: nat): (r: seq<Chunk>)
    ensures forall c :: c in r <==> c in chunks && c.fileId != fileId
  {
    if chunks == [] then []
    else
      var last := chunks[|chunks| - 1];
      ChunksNotOf(chunks[..|chunks| - 1], fileId) + (if last.fileId != fileId then [last] else [])
  }

  /** Embeddings left when only the chunks with these ids remain (the cascade). */
  function EmbeddingsFor(embeddings: seq<EmbeddingRow>, ids: set<nat>): (r: seq<EmbeddingRow>)
    ensures forall e :: e in r <==> e in embeddings && e.chunkId in ids
  {
    if embeddings == [] then []
    else
      var last := embeddings[|embeddings| - 1];
      EmbeddingsFor(embeddings[..|embeddings| - 1], ids) + (if last.chunkId in ids then [last] else [])
  }

  predicate DistinctChunks(chunks: seq<Chunk>) {
    forall i, j :: 0 <= i < j < |chunks| ==> chunks[i].id != chunks[j].id
  }

  predicate DistinctEmbeddings(embeddings: seq<EmbeddingRow>) {
    forall i, j :: 0 <= i < j < |embeddings| ==> embeddings[i].chunkId != embeddings[j].chunkId
  }

  lemma {:induction false} ChunksNotOfDistinct(chunks: seq<Chunk>, fileId: nat)
    requires DistinctChunks(chunks)
    ensures DistinctChunks(ChunksNotOf(chunks, fileId))
  {
    if chunks != [] {
      var init, last := chunks[..|chunks| - 1], chunks[|chunks| - 1];
      ChunksNotOfDistinct(init, fileId);
      forall c | c in ChunksNotOf(init, fileId) ensures c.id != last.id {
        var k :| 0 <= k < |init| && init[k] == c;
      }
    }
  }

  lemma {:induction false} EmbeddingsForDistinct(embeddings: seq<EmbeddingRow>, ids: set<nat>)
    requires DistinctEmbeddings(embeddings)
    ensures DistinctEmbeddings(EmbeddingsFor(embeddings, ids))
  {
    if embeddings != [] {
      var init, last := embeddings[..|embeddings| - 1], embeddings[|embeddings| - 1];
      EmbeddingsForDistinct(init, ids);
      forall e | e in EmbeddingsFor(init, ids) ensures e.chunkId != last.chunkId {
        var k :| 0 <= k < |init| && init[k] == e;
      }
    }
  }

  /** The tables after deleting the chunks of one file, with the cascade to their embeddings. */
  lemma {:induction false} DeleteChunksKeepsTables(files: seq<KnowledgeFile>, chunks: seq<Chunk>, embeddings: seq<EmbeddingRow>, nextId: nat, fileId: nat)
    requires KnowledgeTablesOk(files, chunks, embeddings, nextId)
    ensures KnowledgeTablesOk(files, ChunksNotOf(chunks, fileId),
      EmbeddingsFor(embeddings, ChunkIds(ChunksNotOf(chunks, fileId))), nextId)
  {
    var cs := ChunksNotOf(chunks, fileId);
    ChunksNotOfDistinct(chunks, fileId);
    EmbeddingsForDistinct(embeddings, ChunkIds(cs));
    var es := EmbeddingsFor(embeddings, ChunkIds(cs));
    forall i | 0 <= i < |es| ensures es[i].chunkId in ChunkIds(cs) {
      assert es[i] in es;
    }
    forall i | 0 <= i < |cs| ensures cs[i].id < nextId && cs[i].fileId in FileIds(files) {
      assert cs[i] in chunks;
    }
  }

  /** Removing the record at `k` removes exactly its id from the set of file ids. */
  lemma {:induction false} RemoveFileIds(files: seq<KnowledgeFile>, k: nat, x: nat)
    requires k < |files| && x in FileIds(files) && x != files[k].id
    ensures x in FileIds(files[..k] + files[k + 1..])
  {
    var m :| 0 <= m < |files| && files[m].id == x;
    var fs := files[..k] + files[k + 1..];
    if m < k { assert fs[m] == files[m]; } else { assert fs[m - 1] == files[m]; }
  }

  /** The tables after deleting one file, with the cascade to its chunks and their embeddings. */
  lemma {:induction false} DeleteFileKeepsTables(files: seq<KnowledgeFile>, chunks: seq<Chunk>, embeddings: seq<EmbeddingRow>, nextId: nat, k: nat)
    requires KnowledgeTablesOk(files, chunks, embeddings, nextId) && k < |files|
    ensures KnowledgeTablesOk(files[..k] + files[k + 1..], ChunksNotOf(chunks, files[k].id),
      EmbeddingsFor(embeddings, ChunkIds(ChunksNotOf(chunks, files[k].id))), nextId)
  {
    var cs := ChunksNotOf(chunks, files[k].id);
    DeleteChunksKeepsTables(files, chunks, embeddings, nextId, files[k].id);
    forall i | 0 <= i < |cs| ensures cs[i].fileId != files[k].id {
      assert cs[i] in cs;
    }
    RemoveFileKeepsTables(files, cs, EmbeddingsFor(embeddings, ChunkIds(cs)), nextId, k);
  }

  /** A file none of whose chunks is left can go without breaking the constraints. */
  lemma {:induction false} RemoveFileKeepsTables(files: seq<KnowledgeFile>, cs: seq<Chunk>, es: seq<EmbeddingRow>, nextId: nat, k: nat)
    requires KnowledgeTablesOk(files, cs, es, nextId) && k < |files|
    requires forall i :: 0 <= i < |cs| ==> cs[i].fileId != files[k].id
    ensures KnowledgeTablesOk(files[..k] + files[k + 1..], cs, es, nextId)
  {
    var fs := files[..k] + files[k + 1..];
    assert forall i :: 0 <= i < |fs| ==> fs[i] == files[if i < k then i else i + 1];
    forall i | 0 <= i < |cs| ensures cs[i].fileId in FileIds(fs) {
      RemoveFileIds(files, k, cs[i].fileId);
    }
  }

  /** The knowledge-base tables and the directory of stored uploads. */
  class KnowledgeStore {
    var files: seq<KnowledgeFile>
    var chunks: seq<Chunk>
    var embeddings: seq<EmbeddingRow>
    var blobs: set<string>
    var nextId: nat

    predicate Valid()
      reads this
    {
      KnowledgeTablesOk(files, chunks, embeddings, nextId)
    }

    constructor ()
      ensures Valid()
      ensures files == [] && chunks == [] && embeddings == [] && blobs == {}
    {
      files, chunks, embeddings, blobs, nextId := [], [], [], {}, 0;
    }

    /** `$file->saveAs($filePath)`: the upload is written to storage. */
    method SaveBlob(name: string)
      modifies this
      ensures blobs == old(blobs) + {name}
      ensures files == old(files) && chunks == old(chunks) && embeddings == old(embeddings) && nextId == old(nextId)
    {
      blobs := blobs + {name};
    }

    /** `unlink($filePath)`. */
    method RemoveBlob(name: string)
      modifies this
      ensures blobs == old(blobs) - {name}
      ensures files == old(files) && chunks == old(chunks) && embeddings == old(embeddings) && nextId == old(nextId)
    {
      blobs := blobs - {name};
    }

    /** A new file record, saved with status `processing` and the default chunk count 0. */
    method InsertFile(filename: string, originalName: string, mimeType: string, fileSize: int) returns (f: KnowledgeFile)
      requires Valid()
      modifies this
      ensures Valid()
      ensures f == KnowledgeFile(old(nextId), filename, originalName, mimeType, fileSize, Processing, 0)
      ensures files == old(files) + [f] && nextId == old(nextId) + 1
      ensures chunks == old(chunks) && embeddings == old(embeddings) && blobs == old(blobs)
    {
      f := KnowledgeFile(nextId, filename, originalName, mimeType, fileSize, Processing, 0);
      assert forall c :: c in chunks ==> c.fileId in FileIds(files + [f]);
      files := files + [f];
      nextId := nextId + 1;
    }

    /** `$record->save(false)` on a loaded file record: its row is rewritten in place. */
    method UpdateFile(k: nat, f: KnowledgeFile)
      requires Valid() && k < |files| && f.id == files[k].id
      modifies this
      ensures Valid()
      ensures files == old(files)[k := f]
      ensures chunks == old(chunks) && embeddings == old(embeddings) && blobs == old(blobs) && nextId == old(nextId)
    {
      assert FileIds(files[k := f]) == FileIds(files) by {
        forall x ensures x in FileIds(files[k := f]) <==> x in FileIds(files) {
          if x in FileIds(files) {
            var g :| g in files && g.id == x;
            var m :| 0 <= m < |files| && files[m] == g;
            assert files[k := f][m].id == x;
          }
          if x in FileIds(files[k := f]) {
            var g :| g in files[k := f] && g.id == x;
            var m :| 0 <= m < |files| && files[k := f][m] == g;
            assert files[m].id == x;
          }
        }
      }
      files := files[k := f];
    }

    /** A new chunk row of an existing file. */
    method InsertChunk(fileId: nat, content: string, chunkIndex: nat, tokenCount: nat, metadata: Value) returns (c: Chunk)
      requires Valid() && fileId in FileIds(files)
      modifies this
      ensures Valid()
      ensures c == Chunk(old(nextId), fileId, content, chunkIndex, tokenCount, metadata)
      ensures chunks == old(chunks) + [c] && nextId == old(nextId) + 1
      ensures files == old(files) && embeddings == old(embeddings) && blobs == old(blobs)
    {
      c := Chunk(nextId, fileId, content, chunkIndex, tokenCount, metadata);
      assert forall e :: e in embeddings ==> e.chunkId in ChunkIds(chunks + [c]);
      chunks := chunks + [c];
      nextId := nextId + 1;
    }

    /** A new embedding row for a stored chunk that has none yet. */
    method InsertEmbedding(chunkId: nat, vector: seq<real>, model: string)
      requires Valid() && chunkId in ChunkIds(chunks) && chunkId !in EmbeddedIds(embeddings)
      modifies this
      ensures Valid()
      ensures embeddings == old(embeddings) + [EmbeddingRow(chunkId, vector, model)]
      ensures files == old(files) && chunks == old(chunks) && blobs == old(blobs) && nextId == old(nextId)
    {
      assert forall i :: 0 <= i < |embeddings| ==> embeddings[i] in embeddings;
      embeddings := embeddings + [EmbeddingRow(chunkId, vector, model)];
    }

    /** `KnowledgeChunkRecord::deleteAll(['fileId' => $fileId])`, cascading to the chunks' embeddings. */
    method DeleteChunksOf(fileId: nat)
      requires Valid()
      modifies this
      ensures Valid()
      ensures chunks == ChunksNotOf(old(chunks), fileId)
      ensures embeddings == EmbeddingsFor(old(embeddings), ChunkIds(chunks))
      ensures files == old(files) && blobs == old(blobs) && nextId == old(nextId)
    {
      DeleteChunksKeepsTables(files, chunks, embeddings, nextId, fileId);
      chunks := ChunksNotOf(chunks, fileId);
      embeddings := EmbeddingsFor(embeddings, ChunkIds(chunks));
    }

    /** `$record->delete()` on a file record, cascading to its chunks and their embeddings. */
    method DeleteFile(k: nat)
      requires Valid() && k < |files|
      modifies this
      ensures Valid()
      ensures files == old(files)[..k] + old(files)[k + 1..]
      ensures chunks == ChunksNotOf(old(chunks), old(files)[k].id)
      ensures embeddings == EmbeddingsFor(old(embeddings), ChunkIds(chunks))
      ensures blobs == old(blobs) && nextId == old(nextId)
    {
      var fs, cs := files[..k] + files[k + 1..], ChunksNotOf(chunks, files[k].id);
      var es := EmbeddingsFor(embeddings, ChunkIds(cs));
      DeleteFileKeepsTables(files, chunks, embeddings, nextId, k);
      assert KnowledgeTablesOk(fs, cs, es, nextId);
      files, chunks, embeddings := fs, cs, es;
    }
  }
}
