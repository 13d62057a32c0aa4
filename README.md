# AI Assistant for Craft CMS — a verified model of its core

This project models the core of the "AI Assistant" plugin for Craft CMS in Dafny. That core is:

- the knowledge-base ingestion pipeline: chunking, the file lifecycle, embedding batches and search selection;
- the adapters that talk to the two language-model vendors (OpenAI and Anthropic): payloads, response parsing and the two streaming parsers;
- the two-step agent that classifies a visitor's message, runs tools and answers;
- the tool registry and the five tools;
- the conversation store and the chat endpoints with their guards;
- the settings normalisers, the page-rule table and the widget configuration;
- the browser widget's page rules, stream handling and escalation form.

The language model, the HTTP client, JSON decoding, document parsers and the database engine are not modelled. They enter as function-typed parameters (oracles), so every property holds whatever they return.

One module per source file, plus shared helpers:

| module | file | models |
|---|---|---|
| `Wrappers`, `Strings`, `Json` | wrappers.dfy, strings.dfy, json.dfy | option/result values; PHP string helpers (`trim`, `empty`, `explode`, `preg_replace` on runs of a character class); JSON-like values with PHP truthiness and a structural `json_encode` |
| `Store` | store.dfy | the plugin's tables as records, and an in-memory `Db` class whose invariant carries the schema's unique keys and cascades |
| `Chunker`, `KnowledgeBase` | chunker.dfy, knowledge_base.dfy | `KnowledgeBaseService`: the paragraph/sentence chunker as loops, the token estimate, the `processing → ready / error` lifecycle |
| `Embedding` | embedding.dfy | `EmbeddingService`: batches of 20, vector-then-keyword fallback, top-k selection, the cosine loop in exact `real` arithmetic with `sqrt` as a parameter |
| `Provider` | provider.dfy | `ProviderService`: system folding, tool schemas, payloads, response parsing, line framing and both stream state machines |
| `Agent` | ai_service.dfy | `AiService`: markers, forced knowledge-base search, message windows, prompts, streaming event order |
| `Tools`, `ToolRegistry` | tools.dfy, tool_registry.dfy | the five tools and the `ToolRegistry` class |
| `Chat`, `ChatApi` | chat_service.dfy, chat_api.dfy | `ChatService` over the store; `ChatApiController`'s send, stream and escalate actions and SSE framing |
| `PluginSettings`, `Appearance`, `Pages`, `WidgetService` | settings.dfy, appearance.dfy, pages.dfy, widget_service.dfy | the settings model, colour normalisation, page-rule replacement, widget configuration and script guard |
| `Widget` | widget.dfy | chat-widget.js: glob matching, page-rule evaluation, the `ChatWidget` state (messages, streaming flag, stream text) and the escalation form |

Code that mutates state is modelled as classes and methods: the store, the registry, the controllers' request handlers, the chunker loops, the stream parsers and the widget. Each such method is proved equal to a specification function of its inputs and old state. The properties are then lemmas about those functions.

The colour normaliser checks against the 6-digit hex form of CSS Color Module Level 4, section 5.2. The stream parsers handle the `data: ` lines of the event-stream format (HTML Living Standard, section 9.2.5) and nothing else of it.

Where the code differs from what its design suggests, the model follows the code:

- **Sentence-chunk join.** `_chunkBySentences` trims every open chunk and drops a final one PHP's `empty()` rejects, so the join of its chunks is not always the join of its sentences. A text that is the single sentence `"0"` gives no chunk (`Chunker.SentenceChunksDropZero`), while a `"0"` merged into a longer chunk survives. Sentences with leading or trailing trim characters lose them, and these include `\0`, which `trim` strips but `\s` does not split on. A paragraph ending in `\f` gives an empty last sentence, because `\s` splits on `\f` but `trim` keeps it. `Chunker.SentenceChunksJoin` is therefore stated for sentences that are all non-empty, trimmed and not `"0"` (`Chunker.PlainSentence`).
- **Text with zero chunks.** Text like `"0\n\n0"` passes the empty-after-trim check but produces no chunks. The file then becomes `ready` with a chunk count of 0.
- **Custom questions keyed by line.** `customQuestions` keeps the original line keys. With a blank line before a question, the list encodes as a JSON object, and the widget then shows no custom questions.
- **`?` in page-rule globs.** `matchGlob` does not escape `?`, so it acts as a regular-expression quantifier on the preceding character. A leading `?` is a syntax error that stops the widget script.
- **Stream error handlers.** A server `error` event in the widget's stream also fires the connection-error handler, so both handlers run.
- **Widget error text.** The widget shows `config.errorMessage`, which the widget configuration never sets.
- **Off-topic token usage.** The non-streaming off-topic reply reports its usage without step nesting. Its token sum is therefore 0, and `tokensUsed` is stored as null.
- **No cap on streamed replies.** The stream endpoint has no message-cap check; only send has one.
- **Escalate endpoint errors.** The widget treats any JSON reply from the escalate endpoint as success. An error reply (for example, an unknown session) still removes the form and shows the confirmation text.
- **Undefined `avatarUrl`, the one exception.** `getWidgetConfig` reads `$settings->avatarUrl`, which `Settings` does not declare. As written, Yii's unknown-property error makes `getWidgetConfig`, and with it `renderWidgetScript`, always throw. Here the model does not follow the code: it writes `null` for that entry (see the `avatarUrl` line under "## Left out").
- **The escalate tool writes nothing.** The `escalate` tool only builds its result (`Tools.Execute` is a pure function). The conversation is marked escalated by the chat endpoints instead.

## Model

| member | source | states |
|---|---|---|
| Chunker.EstimateTokens | src/services/KnowledgeBaseService.php:271-274 | the estimate is the least integer not below 1.3 times the word count: `13w <= 10r < 13w + 10` |
| Chunker.EstimateMonotone | src/services/KnowledgeBaseService.php:271-274 | a text with at least as many words never gets a smaller estimate |
| Chunker.WordlessEstimate | src/services/KnowledgeBaseService.php:271-274 | a text with no word characters has no words and estimate 0 |
| Chunker.NormalizeLineEndings | src/services/KnowledgeBaseService.php:200 | no carriage return survives the `\r\n?` to `\n` rewrite |
| Chunker.ParagraphsFromWords | src/services/KnowledgeBaseService.php:203 | the blank-line split loses no words: the pieces' word counts add up to the text's |
| Chunker.SplitSentences | src/services/KnowledgeBaseService.php:249 | the sentence split yields at least one piece |
| Chunker.SentencesFromEnds | src/services/KnowledgeBaseService.php:249 | every sentence but the last ends with '.', '!' or '?' |
| Chunker.SentencesFromLast | src/services/KnowledgeBaseService.php:249 | the last sentence is a suffix of the text |
| Chunker.Kept | src/services/KnowledgeBaseService.php:207-209 | the paragraphs the loop keeps are trimmed and not PHP-empty |
| Chunker.ChunkBySentences | src/services/KnowledgeBaseService.php:247-269 | the sentence loop returns exactly `SentenceChunks(text)` |
| Chunker.AppendAll | src/services/KnowledgeBaseService.php:220-222 | the sentence chunks are appended after the chunks so far, in order |
| Chunker.ChunkText | src/services/KnowledgeBaseService.php:198-245 | the paragraph loop returns exactly `Chunks(text)` |
| Chunker.SmallFold | src/services/KnowledgeBaseService.php:226-236 | while the paragraphs fit the 500-token budget nothing is emitted and the open chunk is the kept paragraphs joined by a blank line |
| Chunker.SingleChunk | src/services/KnowledgeBaseService.php:200-244 | a normalised text whose estimate is at most 500 gives exactly one chunk, its trimmed non-empty paragraphs joined by "\n\n" (none when all are PHP-empty) |
| Chunker.SentenceChunksWellFormed | src/services/KnowledgeBaseService.php:247-269 | every sentence chunk of a trimmed text is non-empty and trimmed |
| Chunker.ChunksWellFormed | src/services/KnowledgeBaseService.php:198-245 | every chunk returned is non-empty and has no leading or trailing whitespace |
| Chunker.FoldChunksGrow | src/services/KnowledgeBaseService.php:207-237 | the chunks emitted after fewer paragraphs are a prefix of those emitted after more: chunks are never rewritten |
| Chunker.ChunkOfMonotone | src/services/KnowledgeBaseService.php:207-237 | a later paragraph lands in the same or a later chunk, so chunks follow paragraph order |
| Chunker.ParagraphInChunk | src/services/KnowledgeBaseService.php:207-237 | every paragraph whose own estimate is within budget appears, trimmed, verbatim inside the chunk `ChunkOf` names, and that chunk exists |
| Chunker.OverlapSuffix | src/services/KnowledgeBaseService.php:232-234 | the overlap is a suffix of the closed chunk, and all of it when the chunk has at most 50 space-separated pieces |
| Chunker.OverlapPieces | src/services/KnowledgeBaseService.php:232-234 | splitting the overlap at ' ' gives the last 50 pieces of the closed chunk |
| Chunker.OverflowStep | src/services/KnowledgeBaseService.php:228-234 | on overflow with a non-empty open chunk, that chunk is emitted trimmed and the next opens with its last 50 pieces, "\n\n" and the new paragraph |
| Chunker.LongParagraphStep | src/services/KnowledgeBaseService.php:213-224 | a paragraph over budget closes the open chunk (if any), is emitted as its sentence chunks with no overlap, and leaves the open chunk empty |
| Chunker.SentenceStepJoin | src/services/KnowledgeBaseService.php:254-261 | one sentence step keeps the open chunk plain and grows the ' '-joined text by exactly " " and the sentence |
| Chunker.SentenceFoldJoin | src/services/KnowledgeBaseService.php:253-262 | after all sentences, emitted chunks plus the open chunk, joined by ' ', equal the sentences joined by ' ' |
| Chunker.SentenceChunksJoin | src/services/KnowledgeBaseService.php:247-269 | when every sentence is non-empty, trimmed and not "0", the sentence chunks joined by ' ' equal the sentences joined by ' ' |
| Chunker.SentenceChunksDropZero | src/services/KnowledgeBaseService.php:264-266 | the code as written: the single sentence "0" yields no chunk, so without the plain-sentence condition the join property fails |
| KnowledgeBase.ExtractText | src/services/KnowledgeBaseService.php:147-155 | a PDF MIME type goes to the PDF parser; else a Word MIME type or `.docx` path to the Word parser; everything else is read as plain text |
| KnowledgeBase.Outcome | src/services/KnowledgeBaseService.php:107-118 | an extraction exception passes through; an empty-after-trim (or "0") text fails with the no-text message; otherwise the result is the chunker's output |
| KnowledgeBase.ChunkRows | src/services/KnowledgeBaseService.php:122-133 | one row per chunk text, with consecutive ids, `chunkIndex` = position, `tokenCount` = estimate and the original file name as metadata |
| KnowledgeBase.ChunkRowsDistinct | src/services/KnowledgeBaseService.php:122-133 | the saved rows have distinct ids, none below the first new id |
| KnowledgeBase.SavedRowsWellFormed | src/services/KnowledgeBaseService.php:118-131 | every saved chunk row belongs to the file and holds non-empty trimmed text |
| KnowledgeBase.SaveChunks | src/services/KnowledgeBaseService.php:121-133 | the save loop appends exactly `ChunkRows(...)` with fresh ids and changes no other table |
| KnowledgeBase.ProcessFile | src/services/KnowledgeBaseService.php:107-145 | a parser exception escapes with nothing written; an empty text sets `error` with `chunkCount` 0 and fails; otherwise the chunk rows and the embedding rows of every batch are added and the record becomes `ready` with `chunkCount` = number of chunks, even when embedding throws |
| KnowledgeBase.ProcessUploadedFile | src/services/KnowledgeBaseService.php:30-61 | over 10 MB fails before any blob or record is written; otherwise the blob `uuid.extension` is stored and exactly one record appended; a processing failure leaves it `error`, writes no chunk or embedding, and returns that failure; success returns it `ready` with its chunk rows (ids after the record's) appended and exactly the embedding rows of those chunks' batches |
| KnowledgeBase.ReprocessFile | src/services/KnowledgeBaseService.php:66-87 | an unknown id fails with nothing changed; otherwise the file's chunks and their embeddings go first, and other files' chunks and embeddings are kept; a missing blob sets `error`; a parser failure leaves `processing`; an empty text sets `error`; on these three paths nothing else is written and the id counter is unchanged; success re-chunks, adds exactly the embedding rows of the new chunks' batches, advances the id counter by the chunk count and sets `ready`; other records are untouched |
| KnowledgeBase.DeleteFile | src/services/KnowledgeBaseService.php:92-105 | an unknown id changes nothing; otherwise the blob, the record, its chunks and their embeddings are removed and nothing else |
| KnowledgeBase.ZeroParagraphsMakeNoChunks | src/services/KnowledgeBaseService.php:111-118 | the text "0\n\n0" passes the emptiness check yet yields no chunks |
| Store.ChunksNotOf | src/services/KnowledgeBaseService.php:74 | exactly the chunks of other files remain |
| Store.EmbeddingsFor | src/migrations/Install.php:119 | exactly the embeddings of remaining chunks remain (the cascade) |
| Store.DeleteChunksKeepsTables | src/migrations/Install.php:102-120 | deleting a file's chunks, with the cascade, keeps every key and foreign-key constraint and the one-embedding-per-chunk index |
| Store.DeleteFileKeepsTables | src/migrations/Install.php:102-120 | deleting a file record, with the cascade to chunks and embeddings, keeps every table constraint |
| Store.KnowledgeStore.SaveBlob | src/services/KnowledgeBaseService.php:40 | the upload is added to storage and no table changes |
| Store.KnowledgeStore.RemoveBlob | src/services/KnowledgeBaseService.php:100-102 | the stored file is removed and no table changes |
| Store.KnowledgeStore.InsertFile | src/services/KnowledgeBaseService.php:42-49 | one record is appended with a fresh id, status `processing` and chunk count 0 |
| Store.KnowledgeStore.UpdateFile | src/services/KnowledgeBaseService.php:112-114 | the record's row is rewritten in place and nothing else changes |
| Store.KnowledgeStore.InsertChunk | src/services/KnowledgeBaseService.php:124-131 | one chunk row with a fresh id is appended |
| Store.KnowledgeStore.InsertEmbedding | src/services/EmbeddingService.php:34-39 | one embedding row is appended for a chunk that had none |
| Store.KnowledgeStore.DeleteChunksOf | src/services/KnowledgeBaseService.php:74 | the file's chunks and their embeddings are deleted and nothing else |
| Store.KnowledgeStore.DeleteFile | src/services/KnowledgeBaseService.php:104 | the record is removed with its chunks and their embeddings |
| Embedding.BatchesFlatten | src/services/EmbeddingService.php:22 | concatenated, the batches give back the chunk list |
| Embedding.BatchesShape | src/services/EmbeddingService.php:22 | there are `ceil(n/20)` batches; batch `b` is the slice starting at `20b` of at most 20 chunks, so batches are consecutive, non-empty and in order |
| Embedding.Contents | src/services/EmbeddingService.php:25 | the texts sent are the batch's chunk contents, one per chunk, in order |
| Embedding.VectorOf | src/services/EmbeddingService.php:31 | the stored vector has one component per response item, in order |
| Embedding.BatchRowsFrom | src/services/EmbeddingService.php:28-41 | every row of a batch is for the chunk at some position `i` with response entry `i`, a list, and carries the configured model |
| Embedding.BatchRowsAligned | src/services/EmbeddingService.php:28-41 | with only null or list entries nothing fails; chunk `i` gets a row when entry `i` is a list, and none when the response is shorter or the entry is null |
| Embedding.BatchRowsStop | src/services/EmbeddingService.php:28-41 | once a write in a batch throws, the rest of the batch adds nothing |
| Embedding.FailureIsFinal | src/services/EmbeddingService.php:24-43 | after an exception, later batches are neither sent nor stored |
| Embedding.RowsOnlyGrow | src/services/EmbeddingService.php:24-43 | rows written for earlier batches stay when a later batch fails |
| Embedding.CallsPerBatch | src/services/EmbeddingService.php:24-26 | without failure there is one `embedBatch` call per batch, in order, over that batch's contents |
| Embedding.RowsTagged | src/services/EmbeddingService.php:33-40 | every row carries the configured embedding model and the id of one of the input chunks |
| Embedding.EmbedAllSnoc | src/services/EmbeddingService.php:24-43 | one more batch adds its call, then either its rows or its exception |
| Embedding.NotYetEmbedded | src/services/EmbeddingService.php:24-43 | before batch `b` is written none of its chunks has an embedding, so the one-embedding-per-chunk index holds |
| Embedding.WriteBatch | src/services/EmbeddingService.php:28-42 | the inner loop appends exactly the batch's rows and reports the exception a non-list entry raises; no other table changes |
| Embedding.EmbedOneBatch | src/services/EmbeddingService.php:25-42 | one outer iteration: the call for batch `b` and its row writes, as `EmbedAll` over the first `b+1` batches |
| Embedding.GenerateEmbeddings | src/services/EmbeddingService.php:17-44 | the new embedding rows are exactly those of `EmbedAll` over the batches, appended in order; the escaping exception is reported; no other table changes |
| Embedding.CosineSimilarity | src/services/EmbeddingService.php:132-153 | the loop computes `Cosine(a, b)` over the first `min(len a, len b)` components, 0 when either partial norm is 0 |
| Embedding.CosinePrefix | src/services/EmbeddingService.php:137-143 | the tail of the longer vector takes no part |
| Embedding.CosineSymmetric | src/services/EmbeddingService.php:132-153 | the similarity is symmetric |
| Embedding.CosineZero | src/services/EmbeddingService.php:148-150 | a vector whose compared components are all zero scores 0 |
| Embedding.JoinedRows | src/services/EmbeddingService.php:75-81 | every joined row pairs an embedding with its chunk and that chunk's file, and the file is `ready` |
| Embedding.ScoreAll | src/services/EmbeddingService.php:88-99 | one scored entry per row, with its content, file name, chunk id and cosine score |
| Embedding.InsertByScore | src/services/EmbeddingService.php:102 | insertion adds exactly the one element |
| Embedding.InsertSorted | src/services/EmbeddingService.php:102 | insertion keeps the list non-increasing by score |
| Embedding.SortByScore | src/services/EmbeddingService.php:102 | the sort is non-increasing by score and a permutation |
| Embedding.PrefixIsTop | src/services/EmbeddingService.php:104 | a prefix of a score-sorted list holds its best elements |
| Embedding.VectorSearchTopK | src/services/EmbeddingService.php:87-104 | at most `limit` results, sorted by score, drawn from the scored rows, and none left out scores higher than one kept |
| Embedding.VectorSearchReady | src/services/EmbeddingService.php:75-81 | every vector result is a chunk of a `ready` file, with that chunk's content and file name |
| Embedding.EmbeddingSearch | src/services/EmbeddingService.php:65-105 | a failing `embed` fails; an empty vector or an empty join gives []; otherwise the score loop, sort and slice give `VectorSearch` |
| Embedding.Search | src/services/EmbeddingService.php:49-63 | the vector results when the vector search succeeds with a non-empty list; otherwise the keyword results |
| Provider.NonSystem | src/services/ProviderService.php:262-268 | the messages sent on are exactly the non-system ones, none added |
| Provider.SystemTextJoin | src/services/ProviderService.php:262-268 | the folded prompt is the system contents joined by "\n" with a final "\n", or "" when there are none |
| Provider.SystemContentsEmpty | src/services/ProviderService.php:262-268 | no system content is collected exactly when no message has the system role |
| Provider.SystemFieldPresent | src/services/ProviderService.php:276-278 | the `system` field is set exactly when some message has the system role |
| Provider.FoldingPartitions | src/services/ProviderService.php:262-268 | folding loses no message: kept messages plus system contents number the input |
| Provider.Schema | src/services/ProviderService.php:222 | a tool's parameters when present, else `{type: object, properties: {}}` |
| Provider.FormatOpenAITools | src/services/ProviderService.php:213-227 | one entry per tool |
| Provider.FormatAnthropicTools | src/services/ProviderService.php:396-407 | one entry per tool |
| Provider.OpenAIToolFields | src/services/ProviderService.php:217-224 | an OpenAI entry has type `function` and carries the tool's name, description and schema |
| Provider.AnthropicToolFields | src/services/ProviderService.php:400-404 | an Anthropic entry carries the tool's name, description and schema as `input_schema` |
| Provider.FormattedToolsKeepOrder | src/services/ProviderService.php:213-227 | the entry at position `i` of either format is the tool at position `i` |
| Provider.OpenAIPayloadFields | src/services/ProviderService.php:110-115 | `max_tokens` and `temperature` come from the options, else the settings; messages are sent as given |
| Provider.OpenAIPayloadTools | src/services/ProviderService.php:117-120 | `tools` and `tool_choice: auto` are present exactly for a non-empty tool list |
| Provider.AnthropicPayloadFields | src/services/ProviderService.php:270-274 | `max_tokens` from the options, else the settings; the messages are the non-system ones |
| Provider.AnthropicPayloadOptional | src/services/ProviderService.php:276-282 | no temperature; `system` is the trimmed fold exactly when the fold is truthy; `tools` only for a non-empty list |
| Provider.ParseOpenAICalls | src/services/ProviderService.php:229-252 | text is absent exactly when content is absent; one tool call per entry of `tool_calls`, in order, with id and name, and arguments passed on as decoded, or the empty array when they do not decode |
| Provider.BlocksOfType | src/services/ProviderService.php:418-428 | the blocks of one type, in order |
| Provider.BlockFoldText | src/services/ProviderService.php:418-420 | the text is the in-order concatenation of the text blocks, or absent when there is none |
| Provider.BlockFoldCalls | src/services/ProviderService.php:421-426 | one tool call per `tool_use` block, in order |
| Provider.ToolUseCalls | src/services/ProviderService.php:421-426 | one call per block, with the block's id, name and input or the empty array |
| Provider.EmbedVector | src/services/ProviderService.php:75-76 | the first item's `embedding`, or the empty array when there is none |
| Provider.EmbedBatchVectors | src/services/ProviderService.php:97-102 | vector `i` is the `embedding` of response item `i`: response order, no re-mapping by `index` |
| Provider.EmbedBatch | src/services/ProviderService.php:98-101 | the loop returns exactly `EmbedBatchVectors` |
| Provider.Chat | src/services/ProviderService.php:29-39 | dispatch on the provider: a client failure is passed on; a non-array body is a type error; otherwise the body parsed by that provider's parser |
| Provider.ConcatAppend | src/services/ProviderService.php:164-165 | the buffer after more reads is the earlier buffer followed by the new reads |
| Provider.CompleteLinesOfTerminated | src/services/ProviderService.php:167-169 | lines each followed by "\n" are cut off as exactly those lines |
| Provider.UnterminatedTailIgnored | src/services/ProviderService.php:163-174 | a final line without "\n" is never handled |
| Provider.StopEarly | src/services/ProviderService.php:182 | once the parser has returned, the rest of the body does not matter |
| Provider.ReadLines | src/services/ProviderService.php:163-174 | the read loop hands the body's complete lines, in order, to the line step until it stops; the result does not depend on how the body was split into reads |
| Provider.FindBuffer | src/services/ProviderService.php:197 | the position of the buffer with this index, or -1 exactly when there is none |
| Provider.BufferCalls | src/services/ProviderService.php:179 | one tool call per buffer, arguments left as raw text |
| Provider.OpenAIStream | src/services/ProviderService.php:134-211 | the events are `OpenAIEvents` of the whole body |
| Provider.OpenAILineShape | src/services/ProviderService.php:172-208 | one line keeps the event shape and stops the stream exactly on `[DONE]` |
| Provider.OpenAIShape | src/services/ProviderService.php:163-211 | text deltas first; `done`, preceded by at most one `tool_calls`, ends the events exactly when a `[DONE]` line arrived; without it there is no `done` |
| Provider.OpenAILineContents | src/services/ProviderService.php:172-208 | a `[DONE]` line adds `tool_calls` (when a buffer exists) and `done`; any other line adds its text delta, if non-empty, and its fragments |
| Provider.DeltaTextsAppend | src/services/ProviderService.php:191 | the delta texts of appended events are appended |
| Provider.OpenAIStreamContents | src/services/ProviderService.php:163-211 | the text deltas are the non-empty contents of the lines before `[DONE]`, in order; the buffers are those lines' fragments added in order; the final `tool_calls` carries every buffer |
| Provider.OpenAIStreamGrouped | src/services/ProviderService.php:194-207 | one buffer per distinct index in first-seen order, id and name from that index's first fragment, arguments the raw concatenation of its fragments |
| Provider.AddFragmentGrouped | src/services/ProviderService.php:196-206 | adding one fragment keeps the buffers grouped |
| Provider.FragmentsGrouped | src/services/ProviderService.php:194-207 | from no buffers, any fragment list ends up grouped |
| Provider.AnthropicStream | src/services/ProviderService.php:297-394 | the events are `AnthropicEvents` of the whole body |
| Provider.AnthropicLineShape | src/services/ProviderService.php:352-391 | one line keeps the event shape, records only calls with a name, and stops exactly on `message_stop` |
| Provider.AnthropicShape | src/services/ProviderService.php:343-394 | text deltas first; `done`, preceded by at most one `tool_calls`, ends the events exactly when `message_stop` arrived; every recorded call has a non-empty name |
| Provider.TextDeltaYielded | src/services/ProviderService.php:368-371 | any `text_delta` line, whatever its text (empty included), appends exactly one text event carrying `delta.text ?? ''` and changes nothing else |
| Provider.AnthropicReadsStep | src/services/ProviderService.php:359-384 | a line other than `message_stop` extends the reference reading by that line's item |
| Provider.AnthropicReadsStop | src/services/ProviderService.php:385-391 | `message_stop` closes the events with `tool_calls` carrying every recorded call (when there is one), then `done` |
| Provider.AnthropicStreamContents | src/services/ProviderService.php:343-394 | over the lines before the first `message_stop`: the text events are exactly the `text_delta` texts in order, empty ones included; one call is recorded per `content_block_stop` closing a named tool, with the id and name of the latest `tool_use` start and its `partial_json` since that start, decoded or else `[]`; after such a stop no tool is current; once stopped, the events end with `tool_calls` carrying every call (when there is one), then `done` |
| Agent.WindowedShape | src/services/AiService.php:165-179 | the list is the system prompt, then the last `min(n, len history)` history entries in order with role and content unchanged, then the user's message (`n` is 10 for step 1, 6 for step 2 and the greeting) |
| Agent.Step2PromptParts | src/services/AiService.php:181-198 | the prompt starts with the persona, contains "CONTEXT:\n" + the context, which holds one "--- Tool: NAME ---\nRESULT" block per result (empty for no results), and ends with the page line exactly when `pageUrl` is non-empty |
| Agent.FileLinesContain | src/services/AiService.php:269-275 | every ready file's line appears in the file list |
| Agent.Step1Escalation | src/services/AiService.php:244-262 | the escalation section is there exactly when escalation is enabled; 'low' gives STRICT, 'high' SENSITIVE, anything else BALANCED; when disabled the sensitivity does not matter |
| Agent.Step1ReadyOnly | src/services/AiService.php:265-267 | only files with status `ready` influence the step-1 prompt |
| Agent.Step1Files | src/services/AiService.php:269-275 | each ready file appears in the step-1 prompt as "- NAME (N chunks)" |
| Agent.Step1PageEnding | src/services/AiService.php:285-297 | the prompt ends with the page line when `pageUrl` is non-empty, else with the tool-selection rules |
| Agent.Step1Topics | src/services/AiService.php:277-283 | the allowed and disallowed topic sections appear when the setting is non-empty; an empty one adds nothing |
| Agent.RouteCases | src/services/AiService.php:30-65 | markers are looked for only with no tool calls and a truthy text; tool calls pass through; no calls and a null or falsy text run nothing; the forced route runs exactly one call |
| Agent.OffTopicAnswer | src/services/AiService.php:33-40 | off-topic returns the fallback message, no calls, no results, step 1's usage, whatever the provider and tools would do |
| Agent.GreetingAnswer | src/services/AiService.php:42-57 | greeting makes one tool-less call with the greeting messages; no tool runs; a null text becomes 'Hello! How can I help you?' |
| Agent.ForcedSearch | src/services/AiService.php:59-68 | a plain-text step 1 forces exactly one `search_knowledge_base` call with `{query: userMessage, limit: 5}` and id 'fallback_kb_search' |
| Agent.ToolRouteAnswer | src/services/AiService.php:67-91 | the answer reports the calls and one result per call; step 2 gets the results; a null step-2 text becomes `errorMessage`; usage is reported per step |
| Agent.NothingToRun | src/services/AiService.php:30 | with no tool calls and an empty or null text nothing runs and step 2 gets empty context |
| Agent.AskStep1 | src/services/AiService.php:22-27 | step 1 sends the step-1 messages with every registered schema |
| Agent.ProcessMessage | src/services/AiService.php:15-92 | the method returns `ProcessSpec`: step 1, then the answer it leads to |
| Agent.AnswerStep1 | src/services/AiService.php:29-91 | the part after step 1 returns `Answer` |
| Agent.StreamMarkers | src/services/AiService.php:112-127 | off-topic yields exactly `text_delta(fallback)` then `done`; greeting passes the greeting stream's events through unchanged |
| Agent.StreamEventOrder | src/services/AiService.php:137-162 | every `tool_call` event comes first in call order, then one `tool_result` per result with status 'ok', then the step-2 events unchanged; the results equal those of the non-streaming answer |
| Agent.EventsLayout | src/services/AiService.php:139-162 | the three runs of events laid end to end, with the result events' status 'ok' |
| Agent.ProcessMessageStreaming | src/services/AiService.php:98-163 | the generator's events and failure are `StreamSpec` |
| Agent.StreamStep1 | src/services/AiService.php:112-162 | the part after step 1 yields `StreamFrom` |
| Agent.EmitToolCalls | src/services/AiService.php:140-142 | one `tool_call` event per call, in order |
| Agent.EmitToolResults | src/services/AiService.php:146-148 | one `tool_result` event per result appended, in order |
| Agent.PassThrough | src/services/AiService.php:160-162 | the provider's events are appended unchanged, and its failure passed on |
| Tools.Builtin | src/services/ToolRegistry.php:21-25 | each tool kind has its own tool object carrying that kind |
| Tools.BuiltinNamesDistinct | src/tools/SearchKnowledgeBaseTool.php:9-12 | the five tools answer to five different names, so no registration replaces another |
| Tools.EscalateRequiresReason | src/tools/EscalateTool.php:20-32 | the escalate schema requires `reason` alone and types it as a string |
| Tools.NoArgumentSchemas | src/tools/GetBusinessInfoTool.php:19-25 | get_business_info and list_knowledge_topics advertise an object schema with no properties and no required list |
| Tools.ScoredRows | src/services/EmbeddingService.php:93-98 | one PHP row per hit, in order |
| Tools.SearchEntryFields | src/tools/SearchKnowledgeBaseTool.php:55-59 | an entry copies `content` and takes `source` from `filename`, or 'Unknown' when it is null |
| Tools.SearchEntries | src/tools/SearchKnowledgeBaseTool.php:53-60 | one entry per hit, in order, each with the hit's content and its filename or 'Unknown' |
| Tools.SearchOutput | src/tools/SearchKnowledgeBaseTool.php:53-60 | the loop builds exactly the entry list |
| Tools.SearchArguments | src/tools/SearchKnowledgeBaseTool.php:40-41 | the query defaults to '' and the limit to 5 when absent; given values pass through |
| Tools.SearchEmptyQuery | src/tools/SearchKnowledgeBaseTool.php:43-45 | a missing or PHP-empty query, "0" included, gives the query-required error whatever the search would return |
| Tools.SearchOutcomes | src/tools/SearchKnowledgeBaseTool.php:47-51 | with a query, the tool fails exactly when the search throws, with its message, and no hits give the no-results message |
| Tools.SearchHitSources | src/tools/SearchKnowledgeBaseTool.php:54-59 | entries built from hits carry each hit's own content and filename |
| Tools.BusinessInfoShape | src/tools/GetBusinessInfoTool.php:31-40 | the filtered info is name, description, contact, hours, additional, site_url in that order, each present exactly when truthy |
| Tools.BusinessNameField | src/tools/GetBusinessInfoTool.php:32 | `name` is the business name when set, else the system name, and absent when both are empty |
| Tools.BusinessNameLookup | src/tools/GetBusinessInfoTool.php:32-40 | the name lookup in the filtered info is decided by the first literal field alone |
| Tools.FilterLookupHead | src/tools/GetBusinessInfoTool.php:40 | after filtering a list whose head alone has a key, that key reads the head's value when kept, null otherwise |
| Tools.BusinessInfoFilters | src/tools/GetBusinessInfoTool.php:40 | a field is in the output exactly when it is in the literal and truthy |
| Tools.BusinessInfoEmpty | src/tools/GetBusinessInfoTool.php:40-44 | nothing survives the filter exactly when every setting, the system name and the site URL are empty; then the message is returned |
| Tools.TopicEntryFields | src/tools/ListKnowledgeTopicsTool.php:40-44 | an entry has the file's original name, chunk count and MIME type |
| Tools.TopicEntries | src/tools/ListKnowledgeTopicsTool.php:38-45 | one entry per file, in order, with the file's name, chunk count and type |
| Tools.Topics | src/tools/ListKnowledgeTopicsTool.php:38-45 | the loop builds exactly the entry list |
| Tools.TopicsListReady | src/tools/ListKnowledgeTopicsTool.php:30-50 | the no-files message exactly when no file is ready; otherwise one entry per ready file in table order and `total_files` equal to their number |
| Tools.EscalateEchoesReason | src/tools/EscalateTool.php:34-44 | the result says 'escalated', echoes the reason or the default reason, and carries the fixed message |
| Tools.ElementUri | src/tools/GetPageContextTool.php:51 | the element URI never starts with '/', and is '__home__' exactly when the path without leading slashes is PHP-empty (or is '__home__' itself) |
| Tools.Trims | src/tools/GetPageContextTool.php:127 | each heading trimmed, in order |
| Tools.CollectHeadings | src/tools/GetPageContextTool.php:124-132 | the loop keeps the trimmed, truthy headings in document order |
| Tools.ExtractContent | src/tools/GetPageContextTool.php:110-156 | the extraction yields the trimmed title, the first 20 kept headings and the cleaned, truncated text |
| Tools.ExtractedHeadings | src/tools/GetPageContextTool.php:153 | at most 20 headings, a prefix of the kept ones, each non-empty and trimmed |
| Tools.ExtractedTextBound | src/tools/GetPageContextTool.php:146-149 | text of up to 3000 characters is kept whole; longer text becomes its first 3000 and '...', so never over 3003 |
| Tools.ExtractedTextNoTripleNewline | src/tools/GetPageContextTool.php:142-149 | no three consecutive newlines survive cleaning and truncation |
| Tools.ExtractedTextBlanksCollapsed | src/tools/GetPageContextTool.php:142-149 | no tab survives cleaning and truncation, and no two spaces stand together: every run of spaces and tabs became a single space |
| Tools.TrimTruncateKeeps | src/tools/GetPageContextTool.php:144-149 | trimming and truncating to 3000 characters plus '...' bring in no tab and put no two blanks together |
| Tools.StrValues | src/tools/GetPageContextTool.php:87 | the headings as JSON strings, in order |
| Tools.PageContextKeepsUrl | src/tools/GetPageContextTool.php:42-92 | the context always holds the URL and the path ('/' by default), whatever the lookup and fetch give; a failed fetch adds no page fields |
| Tools.PageContextUrlRequired | src/tools/GetPageContextTool.php:36-40 | a missing or PHP-empty URL gives the URL-required error whatever the element lookup and the fetch would do |
| Tools.Execute | src/services/ToolRegistry.php:67 | of the five tools only the search can throw |
| Tools.Run | src/tools/SearchKnowledgeBaseTool.php:38-63 | each tool's `execute`, loops included, returns what `Execute` specifies |
| ToolRegistry.IndexOfName | src/services/ToolRegistry.php:35 | the position of the first tool with that name, or -1 exactly when none has it |
| ToolRegistry.Find | src/services/ToolRegistry.php:33-36 | a found tool is in the table under that name; nothing is found exactly when no tool has the name |
| ToolRegistry.RegisteredTable | src/services/ToolRegistry.php:28-31 | registering keeps names unique, makes the new tool the one found under its name, leaves other lookups alone, and replaces in place or appends |
| ToolRegistry.InitChain | src/services/ToolRegistry.php:20-25 | the five registrations, in source order, give exactly the built-in table |
| ToolRegistry.InitTools | src/services/ToolRegistry.php:18-26 | after `init` there are five tools with distinct names, each found under its own name, escalate among them |
| ToolRegistry.Schemas | src/services/ToolRegistry.php:47-54 | one schema per tool, in table order |
| ToolRegistry.ExecuteToolCases | src/services/ToolRegistry.php:59-72 | an unknown name gives the unknown-tool error whatever the environment; a tool that throws gives the failure error with its message |
| ToolRegistry.CallResults | src/services/ToolRegistry.php:77-88 | one result per call, in order, with the call's id and name and the result of running that call |
| ToolRegistry.CallResultsIsolated | src/services/ToolRegistry.php:66-71 | a call's result depends on that call alone, whatever else is in the batch |
| ToolRegistry.MissingArgumentsAreEmpty | src/services/ToolRegistry.php:84 | a call without arguments passes the empty array |
| ToolRegistry.Registry.constructor | src/services/ToolRegistry.php:18-26 | the new registry holds exactly the five built-in tools, names unique |
| ToolRegistry.Registry.Register | src/services/ToolRegistry.php:28-31 | the table becomes the registered table; names stay unique |
| ToolRegistry.Registry.Get | src/services/ToolRegistry.php:33-36 | the tool found is in the table under that name; none is found exactly when no tool has it |
| ToolRegistry.Registry.GetSchemas | src/services/ToolRegistry.php:47-54 | the loop returns one schema per tool, in table order |
| ToolRegistry.Registry.ExecuteToolNamed | src/services/ToolRegistry.php:59-72 | the result is what `ExecuteTool` specifies for the table |
| ToolRegistry.Registry.ExecuteToolCalls | src/services/ToolRegistry.php:77-88 | all call results in order when every call's arguments are an array; the TypeError when any is not |
| Chat.FindSession | src/services/ChatService.php:16-18 | a found position holds a row of that session; nothing is found exactly when no row has it |
| Chat.GetOrCreatedResult | src/services/ChatService.php:14-33 | a known session returns its record with the table unchanged (page and IP not updated); an unknown one appends a new active record with empty page or IP stored as null; sessions stay unique and a second call returns the same record |
| Chat.EscalatedRows | src/services/ChatService.php:91-97 | the conversation with that id becomes escalated with metadata exactly `{escalation_reason: reason}`; every other row and column is untouched; session lookups and ids are unchanged |
| Chat.EscalatedFind | src/services/ChatService.php:93-96 | the escalation write does not change which row a session finds |
| Chat.EscalatedLastWins | src/services/ChatService.php:93-96 | escalating twice leaves what the second write stores |
| Chat.EscalatedSessionOf | src/services/ChatService.php:85 | the escalation write does not change the messages-to-conversations join |
| Chat.HistoryWindow | src/services/ChatService.php:50-70 | the history has min(limit, n) entries for the n selected messages, the newest ones oldest first, role copied and null content read as '', each a user or assistant entry |
| Chat.HistoryAfterAppend | src/services/ChatService.php:52-59 | a new user or assistant message of the conversation becomes the newest history entry; any other message leaves the history unchanged |
| Chat.MessageCountAfterAppend | src/services/ChatService.php:72-77 | appending a message raises the user-message count by one exactly when it is a user message of that conversation |
| Chat.RecentCountAfterAppend | src/services/ChatService.php:79-89 | a user message of the session stamped now raises the recent count by one for any window; a message of another role leaves it alone |
| Chat.ConversationStore.constructor | src/migrations/Install.php:33-69 | the store starts empty and consistent |
| Chat.ConversationStore.GetOrCreateConversation | src/services/ChatService.php:14-33 | the table and record are those of `GetOrCreated`; messages are untouched; the next id advances only when a row is created; the store stays consistent |
| Chat.ConversationStore.AddMessage | src/services/ChatService.php:35-48 | exactly one row is appended, with the next id, the given columns and absent extras as null; nothing else changes |
| Chat.ConversationStore.GetConversationHistory | src/services/ChatService.php:59-69 | the loop returns exactly the history window |
| Chat.ConversationStore.MarkEscalated | src/services/ChatService.php:91-97 | the table becomes the escalated table; messages and counters are untouched; the store stays consistent |
| Chat.ConversationStore.SaveConversation | src/controllers/ChatApiController.php:262-266 | the row at that position is replaced by the saved record and nothing else changes; the store stays consistent |
| ChatApi.WireLines | src/controllers/ChatApiController.php:278-282 | a frame reads back as exactly its `event:` line, its `data:` line and a blank line, whatever follows: the JSON never breaks a line |
| ChatApi.EscalationWritesFailure | src/controllers/ChatApiController.php:73-79 | the escalation loop fails exactly when some escalation call's reason is an array, which the `string $reason` parameter refuses |
| ChatApi.EscalationWritesReasons | src/controllers/ChatApiController.php:73-79 | without a failure, the reasons written are those of the escalation calls, in order |
| ChatApi.EscalationWritesConversations | src/controllers/ChatApiController.php:73-79 | conversations are untouched until the first write, then as the last write leaves them |
| ChatApi.EscalationWritesResult | src/controllers/ChatApiController.php:197-204 | one write per escalation call, no deduplication; the conversation ends as the last reason leaves it; no escalation call changes nothing; the loop fails exactly on an array reason |
| ChatApi.EscalationWritesStopped | src/controllers/ChatApiController.php:73-79 | once the loop has failed, later calls do not matter |
| ChatApi.MarkEscalations | src/controllers/ChatApiController.php:197-204 | the loop over the store writes what `EscalationWrites` specifies and touches no message |
| ChatApi.CountTokens | src/controllers/ChatApiController.php:81-84 | the loop sums each usage entry's integer `total_tokens`, 0 for others |
| ChatApi.TokensOfAnswer | src/controllers/ChatApiController.php:81-84 | a two-call answer's tokens are the two steps' `total_tokens`; the off-topic answer's flat usage adds up to 0 and is stored as null |
| ChatApi.ScalarSteps | src/controllers/ChatApiController.php:83 | usage entries that are not arrays add no tokens |
| ChatApi.SendGuards | src/controllers/ChatApiController.php:27-37 | an unconfigured agent answers with the error JSON and a missing or PHP-empty message is a 400, both before any conversation is touched |
| ChatApi.AnsweredKeeps | src/controllers/ChatApiController.php:68-98 | recording an answer keeps every conversation's position, id and session and every saved message |
| ChatApi.SendOpensConversation | src/controllers/ChatApiController.php:39-44 | past the first guards the session's conversation (a fresh UUID for an empty session id) exists afterwards, whatever the reply |
| ChatApi.AdmittedKeeps | src/controllers/ChatApiController.php:46-107 | whatever the reply, an admitted request keeps every conversation's position, id and session |
| ChatApi.SendLimits | src/controllers/ChatApiController.php:46-60 | a session at its per-minute limit gets a 429 and a conversation at its cap gets the closed reply; neither saves a message |
| ChatApi.ClosedReads | src/controllers/ChatApiController.php:55-59 | the capped-conversation reply reads back the limit text and the closed status |
| ChatApi.AskedSavesUserMessage | src/controllers/ChatApiController.php:62-69 | the user's message is saved first and kept whatever the agent does; an agent failure gives the error reply |
| ChatApi.SendSavesUserMessage | src/controllers/ChatApiController.php:62-107 | past every guard the user message is appended, the history the agent gets ends with it, and it stays saved when the agent throws, the reply being the error message with status 'error' |
| ChatApi.SendAnswered | src/controllers/ChatApiController.php:71-98 | one assistant row with the text, JSON calls and results (null when none) and tokens (null for 0); the reply carries its id; the status is 'escalated' exactly when some call escalated, the conversation then left by the last reason |
| ChatApi.ActionSend | src/controllers/ChatApiController.php:20-108 | the store and reply are those of `SendAction`; the store stays consistent |
| ChatApi.SendOpening | src/controllers/ChatApiController.php:44-107 | the store and reply are those of `Opening`: the session's conversation is opened, then the message admitted; the store stays consistent |
| ChatApi.SendAdmitted | src/controllers/ChatApiController.php:46-107 | the store and reply are those of `Admitted` |
| ChatApi.SendAnswer | src/controllers/ChatApiController.php:71-98 | the store and reply are those of `Answered` |
| ChatApi.CollectText | src/controllers/ChatApiController.php:164-168 | the saved text is the in-order concatenation of the `text_delta` payloads, with one `token` frame per delta |
| ChatApi.StreamedKeeps | src/controllers/ChatApiController.php:196-217 | finishing a stream keeps every saved message |
| ChatApi.StreamGuards | src/controllers/ChatApiController.php:128-152 | each refusal is an error frame then an empty `done`; the first two change nothing and the rate limit leaves only the opened conversation; there is no message cap, the user message being saved first |
| ChatApi.StreamFinish | src/controllers/ChatApiController.php:196-217 | an exception sends the error frames and saves nothing more; otherwise one `escalation` frame per write after every event frame, an assistant row with the gathered text, and a final `done` with its id |
| ChatApi.StreamOffTopic | src/controllers/ChatApiController.php:160-212 | an off-topic reply streams one `token` frame with the fallback text, saves it with no calls or results, and ends with `done` |
| ChatApi.ActionStream | src/controllers/ChatApiController.php:113-220 | the store and frames are those of `StreamAction` |
| ChatApi.StreamOpeningRun | src/controllers/ChatApiController.php:141-217 | the store and frames are those of `StreamOpening`: the session's conversation is opened, then the message admitted; the store stays consistent |
| ChatApi.StreamAdmittedRun | src/controllers/ChatApiController.php:143-217 | the store and frames are those of `StreamAdmitted` |
| ChatApi.Relay | src/controllers/ChatApiController.php:156-194 | the event loop gathers exactly what `Collect` specifies |
| ChatApi.StreamRest | src/controllers/ChatApiController.php:196-217 | the store and frames are those of `Streamed` |
| ChatApi.EscalateResult | src/controllers/ChatApiController.php:240-276 | a missing session id or unknown session changes nothing and replies with an error; otherwise that conversation alone becomes escalated, its metadata keeps every key and gains `contact`, one system message is appended, and the reply carries the confirmation |
| ChatApi.ActionEscalate | src/controllers/ChatApiController.php:240-276 | the store and reply are those of `EscalateAction` |
| PluginSettings.NormalizeColorResult | src/models/Settings.php:67-80 | the result is a valid hex colour or the default, and the default whenever the trimmed value is PHP-empty |
| PluginSettings.NormalizeColorAddsHash | src/models/Settings.php:72-77 | six hex digits, with or without their '#' and surrounding blanks, come back trimmed with exactly one leading '#' |
| PluginSettings.HexColorIsNormal | src/models/Settings.php:67-80 | a valid hex colour is returned unchanged |
| PluginSettings.NormalizeColorIdempotent | src/models/Settings.php:67-80 | with a valid default, normalising twice gives what normalising once gives |
| PluginSettings.DefaultColorsValid | src/models/Settings.php:22-25 | the four default colours are valid hex colours |
| PluginSettings.InitializedColors | src/models/Settings.php:58-65 | after `init` every colour field is a valid hex colour, every other field is unchanged, and a second `init` changes nothing |
| PluginSettings.RequiredByLast | src/models/Settings.php:82-94 | a string ending in a character that trim keeps satisfies the `required` rule |
| PluginSettings.DefaultsValid | src/models/Settings.php:10-94 | the declared defaults satisfy every validation rule and `init` leaves them as they are |
| PluginSettings.SettingsModel.constructor | src/models/Settings.php:58-65 | a loaded model holds the loaded values after `init` |
| PluginSettings.SettingsModel.Init | src/models/Settings.php:58-65 | the values become their `init` form |
| Appearance.EnsureAgreesWithNormalize | src/controllers/AppearanceController.php:48-65 | for a present value the controller's colour check gives what the model's normalisation gives, although it tests for emptiness before trimming |
| Appearance.EnsureHexColorResult | src/controllers/AppearanceController.php:48-65 | null or PHP-empty input gives the default; any result is a valid hex colour or the default |
| Appearance.AppliedSettings | src/controllers/AppearanceController.php:28-37 | after the save every colour is a valid hex colour, font, welcome and placeholder are never PHP-empty, absent CSS, JS and position take their defaults, no setting outside the form changes, and `init` would leave the result as it is |
| Appearance.ActionSave | src/controllers/AppearanceController.php:20-46 | the model's values become the applied settings and the result is whether Craft persisted them |
| Pages.PageRuleTable.constructor | src/migrations/Install.php:123-135 | a freshly created rules table is empty |
| Pages.PageRuleTable.DeleteAll | src/controllers/PagesController.php:35-37 | the table becomes empty |
| Pages.PageRuleTable.Insert | src/controllers/PagesController.php:47-56 | exactly that row is appended |
| Pages.SavedRulesRows | src/controllers/PagesController.php:41-57 | every row is the trimmed pattern, its rule type or 'include', at the position given by its sort order, for a kept pattern; sort orders strictly increase; every kept pattern has a row |
| Pages.SavedRulesNoneKept | src/controllers/PagesController.php:42-45 | when every pattern is blank the table ends up empty |
| Pages.SavedRulesAllKept | src/controllers/PagesController.php:41-57 | when no pattern is blank there is one row per pattern, row k for pattern k |
| Pages.SavePageRules | src/controllers/PagesController.php:32-57 | the old rules are deleted and the table becomes exactly the saved rules |
| WidgetService.InsertBySortOrderSame | src/services/WidgetService.php:19 | inserting a rule adds exactly that rule: the rows are the same multiset plus it |
| WidgetService.InsertBySortOrderSorted | src/services/WidgetService.php:19 | inserting into rows sorted by sort order keeps them sorted and adds exactly that rule |
| WidgetService.OrderedRulesSorted | src/services/WidgetService.php:16-20 | the query returns the same rows, sorted by ascending sort order |
| WidgetService.OrderedRulesOfSorted | src/services/WidgetService.php:19 | rows already in sort order come back unchanged |
| WidgetService.SavedRulesInOrder | src/services/WidgetService.php:16-20 | the widget receives the page-rules form's rules in the order they were submitted |
| WidgetService.KeptLinesFrom | src/services/WidgetService.php:51 | each question is a kept line, trimmed, under that line's position |
| WidgetService.KeptLinesIncreasing | src/services/WidgetService.php:51 | question positions strictly increase |
| WidgetService.KeptLinesComplete | src/services/WidgetService.php:51 | every line non-empty after trimming is among the questions |
| WidgetService.KeptLinesRows | src/services/WidgetService.php:51 | each question is a trimmed, non-empty line under its own position; positions strictly increase; every such line is there |
| WidgetService.KeptLinesAll | src/services/WidgetService.php:51 | with no blank line, every line is a question under its own position |
| WidgetService.QuestionsList | src/services/WidgetService.php:51 | with no blank line the questions encode as a list of the trimmed lines |
| WidgetService.QuestionsObject | src/services/WidgetService.php:51 | a blank first line followed by a question makes the questions encode as an object |
| WidgetService.QuestionsShape | src/services/WidgetService.php:51 | the questions reach the widget as a list of the trimmed lines when no line is blank, and as an object when the first line is blank and some question follows |
| WidgetService.Endpoints | src/services/WidgetService.php:38-41 | both endpoints sit directly under the base URL, which never ends in '/', so trailing slashes on the site URL change nothing; the stream endpoint is the chat endpoint plus "/stream" |
| WidgetService.RTrimPrefix | src/services/WidgetService.php:39 | `rtrim` leaves a prefix of the string and removes only the trimmed character |
| WidgetService.ConfigTop | src/services/WidgetService.php:22-54 | the configuration's enabled flag, endpoints, rules in sort order and escalation block are those of the settings; it has no `errorMessage` |
| WidgetService.WiringLookups | src/services/WidgetService.php:38-53 | the endpoints, rules and escalation entries read back as given, and there is no `errorMessage` |
| WidgetService.EscalationReads | src/services/WidgetService.php:43-53 | the escalation block mirrors the enable flag, field flags, custom questions and confirmation settings |
| WidgetService.FlagReads | src/services/WidgetService.php:46-50 | each field flag mirrors its setting |
| WidgetService.EndpointReads | src/services/WidgetService.php:38-41 | the chat and stream entries are the two endpoints |
| WidgetService.ConfigReads | src/services/WidgetService.php:11-55 | what the widget reads from the configuration mirrors the settings: the enable flag, both endpoints, the rules in sort order, the escalation flags and questions; there is no `errorMessage` |
| WidgetService.HexTags | src/services/WidgetService.php:65 | the escaped JSON holds no '<', '>' or "'" |
| WidgetService.HexTagsPlain | src/services/WidgetService.php:65 | text without those characters is left unchanged |
| WidgetService.RenderedScript | src/services/WidgetService.php:57-76 | a disabled widget renders nothing; an enabled one is the inline script assigning the escaped configuration, which holds no '<' so no setting can close the script element early, followed by the widget's script tag |
| Widget.GlobLiteral | src/web/assets/widget/chat-widget.js:383-390 | a pattern without `*` or `?` matches exactly the identical path |
| Widget.GlobSegment | src/web/assets/widget/chat-widget.js:383-390 | a trailing `*` matches the literal prefix followed by any run without '/' |
| Widget.GlobAnyRun | src/web/assets/widget/chat-widget.js:383-390 | a trailing `**` matches the literal prefix followed by any run within one line, '/' included |
| Widget.GlobOptional | src/web/assets/widget/chat-widget.js:383-390 | an unescaped `?` makes the character before it optional, so the pattern matches the path with or without it but not the pattern text itself |
| Widget.GlobLeadingMark | src/web/assets/widget/chat-widget.js:383-390 | a leading `?` does not compile, so the script throws |
| Widget.DecideBroken | src/web/assets/widget/chat-widget.js:8-21 | the page-rule loop throws exactly when some pattern does not compile |
| Widget.DecideNoHit | src/web/assets/widget/chat-widget.js:12-18 | with no matching rule the starting value stands |
| Widget.DecideLastHit | src/web/assets/widget/chat-widget.js:12-18 | the last matching rule decides: shown exactly when it is an include rule |
| Widget.LastMatchDecides | src/web/assets/widget/chat-widget.js:8-21 | no rules always show the widget; the script throws exactly when a pattern does not compile; otherwise the last matching rule decides, and with no match the widget shows exactly when there is no include rule |
| Widget.DecidePrefixBroken | src/web/assets/widget/chat-widget.js:12-18 | once a pattern has thrown, later rules change nothing |
| Widget.ShowWidget | src/web/assets/widget/chat-widget.js:4-21 | the enable guard and the page-rule loop give what `Shown` specifies |
| Widget.ShownForSettings | src/web/assets/widget/chat-widget.js:4-21 | with the rendered configuration the widget reads the table's rules in sort order and shows exactly when the plugin is enabled and the rules allow the page |
| Widget.SavedIsTail | src/web/assets/widget/chat-widget.js:414-419 | local storage holds the last min(50, n) messages, in order, and all of them when there are at most 50 |
| Widget.OptionsForSettings | src/web/assets/widget/chat-widget.js:233 | the rendered configuration has no error message, so the widget always uses its own fallback texts, and escalation is enabled as the setting says |
| Widget.StreamText | src/web/assets/widget/chat-widget.js:195-216 | until `done` or an error the stream stays open, its text is the in-order concatenation of the token deltas, and the chat changes only by the forms escalation events open |
| Widget.StreamDone | src/web/assets/widget/chat-widget.js:249-261 | `done` saves the reply only when there is text, then ends the stream |
| Widget.StreamError | src/web/assets/widget/chat-widget.js:231-275 | an error shows the listener's message, then `onerror` keeps the partial reply or, with no text, adds the connection-lost message; the stream ends |
| Widget.ClosedIgnores | src/web/assets/widget/chat-widget.js:253 | a closed source handles no more events |
| Widget.RunAppend | src/web/assets/widget/chat-widget.js:180-276 | handling two runs of events in a row is handling them one after the other |
| Widget.StreamEndsAtClose | src/web/assets/widget/chat-widget.js:249-275 | events after `done` or an error change nothing |
| Widget.RunKeepsSaved | src/web/assets/widget/chat-widget.js:159-166 | messages only grow during a stream, and storage stays their last 50 |
| Widget.ClosingShowsTwoErrors | src/web/assets/widget/chat-widget.js:231-275 | the server's closing frames read as an error event then `done`; a failure before any text shows the server's message and then the connection-lost message |
| Widget.SendGuard | src/web/assets/widget/chat-widget.js:141-157 | nothing happens exactly when the trimmed input is empty or a stream is running; otherwise the trimmed input is appended as the user's message before anything the stream adds, and storage keeps the last 50 |
| Widget.FormForSettings | src/web/assets/widget/chat-widget.js:278-305 | one input per enabled field, then one per custom question when they arrive as a list; none when a blank first line makes them an object |
| Widget.ContactMissing | src/web/assets/widget/chat-widget.js:319-328 | a name no input has reads nothing in the contact data |
| Widget.ContactLast | src/web/assets/widget/chat-widget.js:319-328 | a name reads the trimmed value of the last input with that name |
| Widget.ContactReads | src/web/assets/widget/chat-widget.js:319-328 | each name reads back its trimmed value unless a later input shares it; a name no input has reads nothing |
| Widget.CustomNotRequired | src/web/assets/widget/chat-widget.js:301-305 | custom-question inputs are never required |
| Widget.OptionalFieldsNeverBlock | src/web/assets/widget/chat-widget.js:319-330 | with the name and email fields off the form always submits, whatever is left blank |
| Widget.ReplaceFirstAt | src/web/assets/widget/chat-widget.js:335-336 | string `replace` with a string pattern replaces only its first occurrence |
| Widget.EscalateUrlForSite | src/web/assets/widget/chat-widget.js:335-336 | the form posts to the site's escalate endpoint unless the stream path already occurs earlier in the stream URL |
| Widget.ConfirmationForSettings | src/web/assets/widget/chat-widget.js:342-351 | whatever the escalate endpoint answers, the widget shows the configured confirmation, or the built-in thanks when it is empty; an unknown session records nothing yet still shows it |
| Widget.ChatWidget.constructor | src/web/assets/widget/chat-widget.js:26 | the widget starts with the loaded history, the same saved, not streaming, no form shown |
| Widget.ChatWidget.SaveMessages | src/web/assets/widget/chat-widget.js:414-419 | storage becomes the last 50 messages; nothing else changes |
| Widget.ChatWidget.AddMessage | src/web/assets/widget/chat-widget.js:152-166 | the message is pushed and the messages saved |
| Widget.ChatWidget.OnError | src/web/assets/widget/chat-widget.js:231-275 | the listener's message then `onerror`'s message are appended and streaming ends |
| Widget.ChatWidget.StreamResponse | src/web/assets/widget/chat-widget.js:180-276 | the widget's state becomes what handling the events from a freshly opened stream gives |
| Widget.ChatWidget.SendMessage | src/web/assets/widget/chat-widget.js:141-150 | the message sent and the new state are those of `Send` |
| Widget.ChatWidget.SubmitEscalation | src/web/assets/widget/chat-widget.js:314-352 | a blank required input sends nothing and changes nothing; otherwise the request goes to `EscalateUrl` of the stream endpoint, its body carries the session id and the contact, and the confirmation message is added |
| Widget.CollectContact | src/web/assets/widget/chat-widget.js:319-330 | the loop builds exactly the contact data, and reports every required input filled exactly when the form would submit |

## Left out

- **The language model.** Its replies are oracle parameters. Whether it actually emits the `[GREETING]` or `[OFF_TOPIC]` markers is outside the code.
- **Transport and output.** The HTTP client (Guzzle posts, timeouts), `header`/`echo`/`flush`/`exit`, the browser's `EventSource` and `fetch` are I/O. The provider's response body is a sequence of reads, and SSE output is the list of frames written.
- **Foreign libraries.** Each is an uninterpreted function parameter:
  - `json_decode` (returns an option);
  - the PDF and DOCX parsers;
  - `strip_tags`/`html_entity_decode` and the HTML heading and title extraction;
  - Craft's element lookup;
  - `parse_url`.
- **`json_encode`.** Compact encoding (`Json.Encode`) and `JSON_PRETTY_PRINT` (`Json.EncodePretty`: four-space indent, `": "` after keys) are modelled with PHP's default escaping (`\/`, the short escapes, `\uXXXX` for control and non-ASCII characters, surrogate pairs above U+FFFF; `Json.EscapeChar`). Not modelled:
  - `JSON_HEX_QUOT`: `WidgetService.HexTags` covers `JSON_HEX_TAG` and `JSON_HEX_APOS` (`<`, `>`, `'`) only;
  - the text of floats in general: `Json.FloatText` prints a value with at most four decimals, as `round(…, 4)` produces, and not PHP's shortest round-trip form of an arbitrary double (exponents, binary rounding).
- **Word counting.** `str_word_count` is modelled as the number of maximal runs of ASCII letters, `'` and `-`. PHP's exception for a leading or trailing `'`/`-` is not modelled.
- **Floating point.**
  - cosine similarity: the dot product, the two norms and the division are exact `real` arithmetic, and `sqrt` is an unconstrained `real -> real` parameter; PHP's double rounding is not modelled;
  - the float32 `pack`/`unpack` blobs are not modelled: vectors are stored as `seq<real>` at full precision;
  - `round(…, 4)` and the temperature value are opaque.
- **MySQL FULLTEXT relevance.** The keyword search is an oracle returning a ranked list.
- **Database exceptions.** Store operations do not fail, with one exception: a foreign-key violation is excluded by precondition (see `Chat.ConversationStore.AddMessage` below).
- **Time.** `dateCreated` order is taken as insertion order. The clock, UUIDs and the published asset URL are parameters.
- **Concurrency.** Requests run one at a time. The lookup-then-insert race in `getOrCreateConversation` is not modelled.
- **PHP and JavaScript values.**
  - Array-key coercion (`"0"` versus `0`) is not modelled.
  - Type errors other than the tool-argument and escalation-reason ones are not modelled.
  - A non-integer `total_tokens` counts as 0.
  - The request's IP is always a string.
  - Craft's text for a missing request parameter is not reproduced.
- **Streamed text.** Every streamed text delta is taken to be a string, both in the stream endpoint and in the widget.
- **Widget UI.**
  - DOM construction, styles, `renderMarkdown`/`escapeHtml`, the shadow DOM and `encodeURIComponent` in the stream URL are not modelled.
  - `localStorage` is the saved message list: the quota and the parsing of `loadMessages` are not modelled.
  - The random session id is a parameter.
- **Widget message saving.** The welcome message is shown but never saved, as in the code.
- **Widget configuration values.**
  - A non-string escalation confirmation counts as absent.
  - Page rules whose `ruleType` or `pattern` is not a string are read through their string conversion.
- **Widget stream ending.** If the events end without `done` or an error, the stream simply stays open.
- **Plugin glue.** The following are parameter copying, routing and template rendering:
  - `Plugin.php`;
  - the ActiveRecord classes (modelled as plain records);
  - `BaseTool.php`;
  - the settings, escalation, restrictions, knowledge-base, conversations and default controllers;
  - the migration's DDL. Its unique keys and cascading deletes are kept as invariants of `Store.Db`.
- **`avatarUrl`.** The widget configuration reads `$settings->avatarUrl`, which the settings never define. The model writes `null` for it in `WidgetService.AppearanceFields`. The unknown-property error a Yii component raises on such a read is not modelled.
- **Stored metadata.** Conversation metadata is kept as a decoded value, not as its JSON text.
- **Rule order ties.** Ties in the pages' `sortOrder` are broken by insertion order, whereas SQL leaves them unspecified.
- **Join order of the vector search.** `Embedding.JoinedRows` lists the joined rows in embedding-table order, whereas the query has no `ORDER BY`. Only equal scores are affected: the stable sort keeps them in that order.
- **The search tool's search.** `search_knowledge_base` calls `EmbeddingService::search` through the `search` field of `Tools.ToolEnv`, an oracle of the raw query and limit values. No lemma ties that oracle to `Embedding.Search`. The tool hands over untyped argument values, which PHP coerces to `string` and `int`, and the store is not a tool parameter.
- Chat.ConversationStore.AddMessage: requires that the conversation exists. The schema's foreign key would make the insert throw otherwise, and database exceptions are not modelled.
- ParseOpenAICalls: a tool call without `id` or `function.name` gets `""` here. The source reads these keys without `??`, so PHP raises an undefined-key warning and yields null, which Yii may turn into an exception. A non-string id or name is read as its string conversion. Call ids and names are strings throughout the model.
- ToolUseCalls: a `tool_use` block without `id` or `name` gets `""` here. The source reads these keys without `??`, with the same warning and null as in `ParseOpenAICalls`. A non-string id or name is read as its string conversion.
- OpenAICall: the per-call reader behind `ParseOpenAICalls`. It reads a missing `id` or `function.name` as `""`, not as null after a warning.
- AnthropicCall: the per-block reader behind `ToolUseCalls`. It reads a missing `id` or `name` as `""`, not as null after a warning.
- Embedding.CosineSimilarity: proves the loop equal to `Embedding.Cosine` over the first `min` components, computed in exact `real` arithmetic with `sqrt` as an unconstrained parameter. It does not promise PHP's double-precision value.
