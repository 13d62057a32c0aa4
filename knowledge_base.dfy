/**
 * The knowledge-file lifecycle of the knowledge-base service: an upload is
 * stored, recorded with status `processing`, its text extracted, chunked,
 * saved chunk by chunk and embedded; the record ends `ready` or `error`.
 * Reprocessing and deletion work on an existing record.
 *
 * The store is a `Store.KnowledgeStore`. Document parsers, `file_get_contents`,
 * the embedding provider and the UUID generator are parameters.
 */
module KnowledgeBase {
  import opened Wrappers
  import opened Strings
  import opened Json
  import opened Store
  import opened Chunker
  import opened Embedding

  const MaxFileSize: int := 10 * 1024 * 1024
  const TooLarge := "File exceeds maximum size of 10MB."
  const NoText := "No text content could be extracted from the file."
  const NotFound := "File not found."
  const SourceMissing := "Source file not found on disk."

  /**
   * What the service calls out to. `pdf` and `docx` are the document parsers,
   * which may throw; `contents` is `file_get_contents`, whose `false` on an
   * unreadable file the `string` return type of the extraction coerces to "".
   */
  datatype Env = Env(
    storagePath: string,
    pdf: string -> Result<string>,
    docx: string -> Result<string>,
    contents: string -> string,
    embedBatch: seq<string> -> Result<seq<Value>>,
    model: string)

  /** An uploaded file as the request carries it. */
  datatype Upload = Upload(name: string, mimeType: string, size: int, extension: string)

  /** The path of a stored file: the storage directory, '/', its file name. */
  function FilePath(env: Env, filename: string): string {
    env.storagePath + "/" + filename
  }

  /**
   * `_extractText`: the first matching arm of the `match (true)` decides. The
   * plain-text arm and the default arm both read the file, so every file that
   * is neither PDF nor Word is read as text.
   */
  function ExtractText(path: string, mimeType: string, env: Env): (r: Result<string>)
    ensures Contains(mimeType, "pdf") ==> r == env.pdf(path)
    ensures !Contains(mimeType, "pdf") && (Contains(mimeType, "wordprocessingml") || EndsWith(path, ".docx"))
      ==> r == env.docx(path)
    ensures !Contains(mimeType, "pdf") && !Contains(mimeType, "wordprocessingml") && !EndsWith(path, ".docx")
      ==> r == Ok(env.contents(path))
  {
    if Contains(mimeType, "pdf") then env.pdf(path)
    else if Contains(mimeType, "wordprocessingml") || EndsWith(path, ".docx") then env.docx(path)
    else if Contains(mimeType, "text/") || EndsWith(path, ".md") || EndsWith(path, ".txt") then Ok(env.contents(path))
    else Ok(env.contents(path))
  }

  /** The text `_processFile` extracts for a record. */
  function Extracted(f: KnowledgeFile, env: Env): Result<string> {
    ExtractText(FilePath(env, f.filename), f.mimeType, env)
  }

  /**
   * What `_processFile` makes of the extracted text: the exception it lets
   * through or throws, or the chunk texts it saves.
   */
  function Outcome(extracted: Result<string>): (r: Result<seq<string>>)
    ensures extracted.Fail? ==> r == Fail(extracted.message)
    ensures extracted.Ok? ==> (r.Fail? <==> PhpEmpty(Trim(extracted.value)))
    ensures r.Fail? ==> extracted.Fail? || r.message == NoText
    ensures r.Ok? ==> r.value == Chunks(extracted.value)
  {
    if extracted.Fail? then Fail(extracted.message)
    else if PhpEmpty(Trim(extracted.value)) then Fail(NoText)
    else Ok(Chunks(extracted.value))
  }

  /** The metadata saved with every chunk: `['filename' => originalName]`. */
  function Metadata(originalName: string): Value {
    Obj([("filename", Str(originalName))])
  }

  /** The chunk rows `_processFile` saves, the first with id `firstId`. */
  function ChunkRows(fileId: nat, firstId: nat, originalName: string, texts: seq<string>): (r: seq<Chunk>)
    ensures |r| == |texts|
    ensures forall i :: 0 <= i < |r| ==>
      r[i] == Chunk(firstId + i, fileId, texts[i], i, EstimateTokens(texts[i]), Metadata(originalName))
  {
    seq(|texts|, i requires 0 <= i < |texts| =>
      Chunk(firstId + i, fileId, texts[i], i, EstimateTokens(texts[i]), Metadata(originalName)))
  }

  lemma {:induction false} ChunkRowsDistinct(fileId: nat, firstId: nat, originalName: string, texts: seq<string>)
    ensures DistinctIds(ChunkRows(fileId, firstId, originalName, texts))
    ensures forall c :: c in ChunkRows(fileId, firstId, originalName, texts) ==> c.id >= firstId
  {
  }

  lemma {:induction false} ChunkRowsSnoc(fileId: nat, firstId: nat, originalName: string, texts: seq<string>, i: nat)
    requires i < |texts|
    ensures ChunkRows(fileId, firstId, originalName, texts[..i + 1])
      == ChunkRows(fileId, firstId, originalName, texts[..i])
         + [Chunk(firstId + i, fileId, texts[i], i, EstimateTokens(texts[i]), Metadata(originalName))]
  {
  }

  /** Every id in a valid store, of a chunk or of an embedded chunk, is below `nextId`. */
  lemma {:induction false} IdsBelowNext(db: KnowledgeStore)
    requires db.Valid()
    ensures forall x :: x in ChunkIds(db.chunks) ==> x < db.nextId
    ensures forall x :: x in EmbeddedIds(db.embeddings) ==> x < db.nextId
  {
    forall x | x in EmbeddedIds(db.embeddings) ensures x in ChunkIds(db.chunks) {
      var e :| e in db.embeddings && e.chunkId == x;
      var m :| 0 <= m < |db.embeddings| && db.embeddings[m] == e;
    }
    forall x | x in ChunkIds(db.chunks) ensures x < db.nextId {
      var c :| c in db.chunks && c.id == x;
      var m :| 0 <= m < |db.chunks| && db.chunks[m] == c;
    }
  }

  /**
   * The save loop of `_processFile`: one chunk row per text, with consecutive
   * ids from `nextId` and chunk indices from 0. The new ids are fresh, so
   * none of them has an embedding yet.
   */
  method SaveChunks(db: KnowledgeStore, f: KnowledgeFile, texts: seq<string>) returns (saved: seq<Chunk>)
    requires db.Valid() && f.id in FileIds(db.files)
    modifies db
    ensures db.Valid()
    ensures saved == ChunkRows(f.id, old(db.nextId), f.originalName, texts)
    ensures db.chunks == old(db.chunks) + saved && db.nextId == old(db.nextId) + |texts|
    ensures db.files == old(db.files) && db.embeddings == old(db.embeddings) && db.blobs == old(db.blobs)
    ensures DistinctIds(saved)
    ensures forall c :: c in saved ==> c.id in ChunkIds(db.chunks) && c.id !in EmbeddedIds(db.embeddings)
  {
    ghost var n0 := db.nextId;
    ghost var c0 := db.chunks;
    IdsBelowNext(db);
    saved := [];
    var i := 0;
    while i < |texts|
      invariant 0 <= i <= |texts|
      invariant db.Valid()
      invariant db.files == old(db.files) && db.embeddings == old(db.embeddings) && db.blobs == old(db.blobs)
      invariant saved == ChunkRows(f.id, n0, f.originalName, texts[..i])
      invariant db.chunks == c0 + saved && db.nextId == n0 + i
    {
      var c := db.InsertChunk(f.id, texts[i], i, EstimateTokens(texts[i]), Metadata(f.originalName));
      ChunkRowsSnoc(f.id, n0, f.originalName, texts, i);
      saved := saved + [c];
      i := i + 1;
    }
    assert texts[..i] == texts;
    ChunkRowsDistinct(f.id, n0, f.originalName, texts);
    forall c | c in saved ensures c.id in ChunkIds(db.chunks) {
      assert c in db.chunks;
    }
  }

  /**
   * `_processFile` on record `k`. A parser exception escapes and changes
   * nothing; an empty text marks the record `error` with no chunks; otherwise
   * the chunks are saved with consecutive indices, embedded (an embedding
   * failure is swallowed) and the record becomes `ready`.
   */
  method ProcessFile(db: KnowledgeStore, k: nat, env: Env) returns (r: Result<()>)
    requires db.Valid() && k < |db.files|
    modifies db
    ensures db.Valid()
    ensures db.blobs == old(db.blobs)
    ensures r.Fail? <==> Outcome(Extracted(old(db.files)[k], env)).Fail?
    ensures r.Fail? ==> r.message == Outcome(Extracted(old(db.files)[k], env)).message
    ensures Extracted(old(db.files)[k], env).Fail? ==>
      db.files == old(db.files) && db.chunks == old(db.chunks)
      && db.embeddings == old(db.embeddings) && db.nextId == old(db.nextId)
    ensures Extracted(old(db.files)[k], env).Ok? && r.Fail? ==>
      db.files == old(db.files)[k := old(db.files)[k].(status := Error, chunkCount := 0)]
      && db.chunks == old(db.chunks) && db.embeddings == old(db.embeddings) && db.nextId == old(db.nextId)
    ensures r.Ok? ==>
      var texts := Outcome(Extracted(old(db.files)[k], env)).value;
      var rows := ChunkRows(old(db.files)[k].id, old(db.nextId), old(db.files)[k].originalName, texts);
      db.files == old(db.files)[k := old(db.files)[k].(status := Ready, chunkCount := |texts|)]
      && db.chunks == old(db.chunks) + rows
      && db.nextId == old(db.nextId) + |texts|
      && db.embeddings == old(db.embeddings) + EmbedAll(Batches(rows), env.embedBatch, env.model).rows
  {
    var f := db.files[k];
    var extracted := ExtractText(FilePath(env, f.filename), f.mimeType, env);
    if extracted.Fail? {
      return Fail(extracted.message);
    }
    var text := extracted.value;
    if PhpEmpty(Trim(text)) {
      db.UpdateFile(k, f.(status := Error, chunkCount := 0));
      return Fail(NoText);
    }
    var texts := ChunkText(text);
    assert f.id in FileIds(db.files) by { assert db.files[k] == f; }
    var saved := SaveChunks(db, f, texts);
    var _ := GenerateEmbeddings(db, saved, env.embedBatch, env.model);
    db.UpdateFile(k, f.(status := Ready, chunkCount := |texts|));
    r := Ok(());
  }

  /** The record `processUploadedFile` creates, before processing. */
  function UploadRecord(id: nat, uuid: string, u: Upload): KnowledgeFile {
    KnowledgeFile(id, uuid + "." + u.extension, u.name, u.mimeType, u.size, Processing, 0)
  }

  /** The record `processUploadedFile` creates, as it ends up once processing failed. */
  function FailedRecord(id: nat, filename: string, u: Upload): KnowledgeFile {
    KnowledgeFile(id, filename, u.name, u.mimeType, u.size, Error, 0)
  }

  /** What processing the new record gives. */
  function UploadOutcome(id: nat, uuid: string, u: Upload, env: Env): Result<seq<string>> {
    Outcome(Extracted(UploadRecord(id, uuid, u), env))
  }

  /** The chunk rows a successful upload saves, with ids after the record's. */
  function UploadRows(id: nat, u: Upload, texts: seq<string>): seq<Chunk> {
    ChunkRows(id, id + 1, u.name, texts)
  }

  /**
   * `processUploadedFile`. An upload over 10 MB is refused before anything is
   * written. Otherwise the upload is stored as `uuid.extension`, recorded and
   * processed; when processing throws, the record is marked `error`, nothing
   * else is written and the exception is rethrown; on success the chunks are
   * saved and embedded.
   */
  method ProcessUploadedFile(db: KnowledgeStore, u: Upload, uuid: string, env: Env) returns (r: Result<KnowledgeFile>)
    requires db.Valid()
    modifies db
    ensures db.Valid()
    ensures u.size > MaxFileSize ==>
      r == Fail(TooLarge) && db.files == old(db.files) && db.chunks == old(db.chunks)
      && db.embeddings == old(db.embeddings) && db.blobs == old(db.blobs) && db.nextId == old(db.nextId)
    ensures u.size <= MaxFileSize ==>
      db.blobs == old(db.blobs) + {uuid + "." + u.extension}
      && |db.files| == |old(db.files)| + 1 && db.files[..|old(db.files)|] == old(db.files)
    ensures u.size <= MaxFileSize && UploadOutcome(old(db.nextId), uuid, u, env).Fail? ==>
      r == Fail(UploadOutcome(old(db.nextId), uuid, u, env).message)
      && db.files[|old(db.files)|] == FailedRecord(old(db.nextId), uuid + "." + u.extension, u)
      && db.chunks == old(db.chunks) && db.embeddings == old(db.embeddings) && db.nextId == old(db.nextId) + 1
    ensures u.size <= MaxFileSize && UploadOutcome(old(db.nextId), uuid, u, env).Ok? ==>
      r == Ok(db.files[|old(db.files)|])
      && r.value == UploadRecord(old(db.nextId), uuid, u).(status := Ready, chunkCount := |UploadOutcome(old(db.nextId), uuid, u, env).value|)
      && db.chunks == old(db.chunks) + UploadRows(old(db.nextId), u, UploadOutcome(old(db.nextId), uuid, u, env).value)
      && db.nextId == old(db.nextId) + 1 + |UploadOutcome(old(db.nextId), uuid, u, env).value|
      && db.embeddings == old(db.embeddings)
         + EmbedAll(Batches(UploadRows(old(db.nextId), u, UploadOutcome(old(db.nextId), uuid, u, env).value)), env.embedBatch, env.model).rows
  {
    if u.size > MaxFileSize {
      return Fail(TooLarge);
    }
    var filename := uuid + "." + u.extension;
    db.SaveBlob(filename);
    var f := db.InsertFile(filename, u.name, u.mimeType, u.size);
    var k := |db.files| - 1;
    assert db.files[..k] == old(db.files);
    assert f == UploadRecord(old(db.nextId), uuid, u);
    ghost var outcome := UploadOutcome(old(db.nextId), uuid, u, env);
    ghost var before := db.files;
    var p := ProcessFile(db, k, env);
    assert |db.files| == |before| && db.files[..k] == before[..k];
    if p.Fail? {
      assert p.message == outcome.message;
      db.UpdateFile(k, db.files[k].(status := Error));
      assert db.files[k] == FailedRecord(f.id, filename, u);
      return Fail(p.message);
    }
    assert db.files[k] == f.(status := Ready, chunkCount := |outcome.value|);
    r := Ok(db.files[k]);
  }

  /**
   * `reprocessFile`. An unknown id throws. Otherwise the file's chunks (and
   * their embeddings) are deleted first; a missing stored file marks the
   * record `error`; else the record goes back to `processing` and is processed
   * again, and an exception from processing leaves whatever it wrote.
   */
  method ReprocessFile(db: KnowledgeStore, id: nat, env: Env) returns (r: Result<()>)
    requires db.Valid()
    modifies db
    ensures db.Valid()
    ensures db.blobs == old(db.blobs)
    ensures FindFile(old(db.files), id).None? ==>
      r == Fail(NotFound) && db.files == old(db.files) && db.chunks == old(db.chunks)
      && db.embeddings == old(db.embeddings) && db.nextId == old(db.nextId)
    ensures FindFile(old(db.files), id).Some? ==>
      var k := FindFile(old(db.files), id).value;
      var f := old(db.files)[k];
      var outcome := Outcome(Extracted(f, env));
      |db.files| == |old(db.files)|
      && (forall j :: 0 <= j < |db.files| && j != k ==> db.files[j] == old(db.files)[j])
      && db.files[k].id == id
      && (forall c :: c in ChunksNotOf(old(db.chunks), id) ==> c in db.chunks)
      && (f.filename !in old(db.blobs) ==>
            r == Fail(SourceMissing) && db.files[k] == f.(status := Error)
            && db.chunks == ChunksNotOf(old(db.chunks), id))
      && (f.filename in old(db.blobs) && Extracted(f, env).Fail? ==>
            r == Fail(Extracted(f, env).message) && db.files[k] == f.(status := Processing)
            && db.chunks == ChunksNotOf(old(db.chunks), id))
      && (f.filename in old(db.blobs) && Extracted(f, env).Ok? && outcome.Fail? ==>
            r == Fail(NoText) && db.files[k] == f.(status := Error, chunkCount := 0)
            && db.chunks == ChunksNotOf(old(db.chunks), id))
      && (f.filename in old(db.blobs) && outcome.Ok? ==>
            r.Ok? && db.files[k] == f.(status := Ready, chunkCount := |outcome.value|)
            && db.chunks == ChunksNotOf(old(db.chunks), id) + ChunkRows(id, old(db.nextId), f.originalName, outcome.value))
    ensures FindFile(old(db.files), id).Some? ==>
      var f := old(db.files)[FindFile(old(db.files), id).value];
      var outcome := Outcome(Extracted(f, env));
      var kept := EmbeddingsFor(old(db.embeddings), ChunkIds(ChunksNotOf(old(db.chunks), id)));
      (!(f.filename in old(db.blobs) && outcome.Ok?) ==>
         db.embeddings == kept && db.nextId == old(db.nextId))
      && (f.filename in old(db.blobs) && outcome.Ok? ==>
         db.embeddings == kept
           + EmbedAll(Batches(ChunkRows(id, old(db.nextId), f.originalName, outcome.value)), env.embedBatch, env.model).rows
         && db.nextId == old(db.nextId) + |outcome.value|)
  {
    var found := FindFile(db.files, id);
    if found.None? {
      return Fail(NotFound);
    }
    var k := found.value;
    var f := db.files[k];
    db.DeleteChunksOf(id);
    if f.filename !in db.blobs {
      db.UpdateFile(k, f.(status := Error));
      return Fail(SourceMissing);
    }
    db.UpdateFile(k, f.(status := Processing));
    assert Extracted(db.files[k], env) == Extracted(f, env);
    r := ProcessFile(db, k, env);
  }

  /**
   * `deleteFile`. An unknown id is ignored. Otherwise the stored file is
   * removed when present and the record is deleted with its chunks and their
   * embeddings.
   */
  method DeleteFile(db: KnowledgeStore, id: nat)
    requires db.Valid()
    modifies db
    ensures db.Valid()
    ensures FindFile(old(db.files), id).None? ==>
      db.files == old(db.files) && db.chunks == old(db.chunks) && db.embeddings == old(db.embeddings)
      && db.blobs == old(db.blobs) && db.nextId == old(db.nextId)
    ensures FindFile(old(db.files), id).Some? ==>
      var k := FindFile(old(db.files), id).value;
      db.files == old(db.files)[..k] + old(db.files)[k + 1..]
      && db.blobs == old(db.blobs) - {old(db.files)[k].filename}
      && db.chunks == ChunksNotOf(old(db.chunks), id)
      && db.embeddings == EmbeddingsFor(old(db.embeddings), ChunkIds(db.chunks))
      && db.nextId == old(db.nextId)
  {
    var found := FindFile(db.files, id);
    if found.None? {
      return;
    }
    var k := found.value;
    var name := db.files[k].filename;
    if name in db.blobs {
      db.RemoveBlob(name);
    }
    db.DeleteFile(k);
  }

  /**
   * The emptiness check looks at the whole trimmed text, the chunker drops
   * every paragraph equal to "0": a text of two "0" paragraphs passes the
   * check and yields no chunk, so its file becomes `ready` with no chunks.
   */
  lemma {:induction false} ZeroParagraphsMakeNoChunks()
    ensures Outcome(Ok("0\n\n0")) == Ok([])
  {
    ZerosNormalized();
    ZerosSplit();
    ZerosFold();
    assert Trim("0\n\n0") == "0\n\n0";
  }

  lemma {:induction false} ZerosNormalized()
    ensures Normalize("0\n\n0") == "0\n\n0"
  {
    var t := "0\n\n0";
    assert NormalizeLineEndings("0") == "0";
    assert NormalizeLineEndings("\n0") == "\n0";
    assert NormalizeLineEndings("\n\n0") == "\n\n0";
    assert NormalizeLineEndings(t) == t;
    assert CollapseRuns("0", IsNewline, 3, "\n\n") == "0";
    assert RunLength("\n\n0", IsNewline) == 2;
    assert CollapseRuns("\n\n0", IsNewline, 3, "\n\n") == "\n\n0";
  }

  lemma {:induction false} ZerosSplit()
    ensures ParagraphsFrom("0\n\n0", "") == ["0", "0"]
  {
    var t := "0\n\n0";
    assert ParagraphsFrom("0", "") == ["0"] by {
      assert "0"[1..] == "" && "" + ['0'] == "0";
      assert ParagraphsFrom("", "0") == ["0"];
    }
    assert ParagraphsFrom("\n\n0", "0") == ["0", "0"] by {
      assert "\n\n0"[2..] == "0";
    }
    assert t[1..] == "\n\n0";
  }

  lemma {:induction false} ZerosFold()
    ensures ParagraphFold(["0", "0"]) == Pending([], "")
  {
    assert Trim("0") == "0";
    assert ParagraphFold(["0"]) == Pending([], "") by {
      assert ["0"][..0] == [];
    }
    assert ["0", "0"][..1] == ["0"];
  }

  /** Every chunk row `_processFile` saves holds non-empty, trimmed text. */
  lemma {:induction false} SavedRowsWellFormed(extracted: Result<string>, fileId: nat, firstId: nat, originalName: string)
    requires Outcome(extracted).Ok?
    ensures forall c :: c in ChunkRows(fileId, firstId, originalName, Outcome(extracted).value) ==>
      c.content != "" && Trim(c.content) == c.content && c.fileId == fileId
  {
    ChunksWellFormed(extracted.value);
  }
}
