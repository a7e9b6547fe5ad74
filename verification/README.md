# ubchat indexer — a Dafny model

ubchat is a retrieval-augmented chat system. Documents are fetched from an Oracle
table, cut into chunks, enriched by a language model, embedded and written to a
Pinecone vector index, and their indexing status is written back to the table.
This project models the core of that indexer and proves properties of the model.

- **Text chunker** (`TextChunker`). Four strategies:
  - fixed-size character windows, pulled back to a space and overlapping;
  - recursive token-budget grouping over the separators `"\n\n"`, `"\n"`, `". "`, `" "`;
  - sentences, with a word-by-word split of a sentence over the budget;
  - semantic, which is the recursive strategy.
- **Context enrichment** (`ContextGenerator`):
  - prompt templates;
  - LLM calls with three attempts;
  - the placeholder chunk on failure;
  - the enhanced-text layout;
  - the document summary with head/tail sampling.
- **Embeddings** (`EmbeddingGenerator`):
  - batching, with a per-text fallback and a zero vector when a text still fails;
  - text cleaning and model dimensions;
  - vector ids and the metadata of each vector record.
- **Vector store** (`PineconeClient`): `upsert_batch` and `get_index_stats`.
- **Database** (`OracleClient`): the SQL text and bind parameters of the queries, and rows as records.
- **Orchestrator** (`DocumentIndexer`): `index_document` and `index_all_documents`. This covers:
  - the step order and failure rules;
  - the `indexed`/`error` status updates;
  - the run statistics.
- **Legacy pipeline** (`pipeline.py`):
  - `chunk_id`;
  - Windows-to-Linux path mapping;
  - header/footer removal and line-break joining;
  - `PineconeStore.upsert_pdf`;
  - the tracking table written by `grava_envio_documento`;
  - `RAGPipeline.run`, `_process_document` and `_generate_document_list`.

Every outside service is a function-typed parameter that returns a value or fails
(`Result`): the LLM, the embedding service, the tokenizer, the line-similarity ratio,
the database and the vector index. Code that changes state is modelled as classes and
methods. Each method is proved equal to a specification function, and the properties
the source promises are lemmas about those functions.

Modules (one per file): `Wrappers`, `Values` (Python values and dictionaries), `Strs`
(the Python `str` built-ins used), `Chunks`, `FixedChunking`, `RecursiveChunking`,
`SentenceChunking`, `TextChunking`, `Retry`, `Enrichment`, `Embeddings`, `VectorStore`,
`Oracle`, `Indexer`, `Pipeline`, `TextCleaning`, `PipelineRun`.

## Model

| member | source | states |
|---|---|---|
| Chunks.Tagged | src/indexer/chunking/text_chunker.py:139 | `{**metadata, "strategy": name}`: the caller's keys are kept with their values, and `strategy` is added or overwritten with the strategy name |
| Chunks.SumTokAppend | src/indexer/chunking/text_chunker.py:199-200 | adding a piece to a group adds its token count |
| Chunks.FindsEndBounds | src/indexer/chunking/text_chunker.py:210-218 | locating texts one after another never moves the search position back, and ends inside the text |
| Chunks.FindEarlier | src/indexer/chunking/text_chunker.py:217 | a `find` from an earlier position succeeds whenever a later one does, and finds an occurrence no later |
| Chunks.FindsEarlier | src/indexer/chunking/text_chunker.py:210-218 | starting the chain of `find` calls earlier never makes one fail, and ends no later |
| Chunks.FindsConcat | src/indexer/chunking/text_chunker.py:210-218 | two chains of searches compose when the second starts no earlier than the first ends |
| Chunks.FindsLift | src/indexer/chunking/text_chunker.py:210-218 | texts found one after another inside a slice of the document are found in the whole document, ending no later |
| Chunks.FindInSlice | src/indexer/chunking/text_chunker.py:217 | a `find` that succeeds inside a slice succeeds in the whole text, at or before the lifted position |
| Chunks.FindsOne | src/indexer/chunking/text_chunker.py:217 | a text occurring at `at` is found by a search from any earlier position, ending by the end of that occurrence |
| TextChunking.MetadataOrEmpty | src/indexer/chunking/text_chunker.py:87-88 | no metadata means `{}`; given metadata is used as it is |
| TextChunking.SemanticIsRecursive | src/indexer/chunking/text_chunker.py:367-379 | the semantic strategy returns exactly the recursive strategy's chunks |
| TextChunking.DocumentChunksTagged | src/indexer/chunking/text_chunker.py:70-100 | whatever the strategy, every chunk has text, carries the document id, and carries the caller's metadata tagged with the strategy name (`recursive` for semantic) |
| TextChunking.ChunkDocument | src/indexer/chunking/text_chunker.py:70-100 | `chunk_document` dispatches on the strategy to the strategy whose properties are proved below |
| FixedChunking.WindowEnd | src/indexer/chunking/text_chunker.py:118-125 | the window at `start` ends after `start` and at most `chunk_size` characters later |
| FixedChunking.NextStart | src/indexer/chunking/text_chunker.py:146 | the next window starts strictly later; it starts at `end - overlap` or at `end` |
| FixedChunking.FixedStep | src/indexer/chunking/text_chunker.py:116-146 | one window emits one chunk numbered `index` (the stripped slice, its offsets, its token count, the tagged metadata) unless the stripped slice is empty, then goes on from the next start |
| FixedChunking.FindWindowEnd | src/indexer/chunking/text_chunker.py:118-125 | the loop finding the window's end computes the pulled-back end |
| FixedChunking.FixedNext | src/indexer/chunking/text_chunker.py:116-146 | one pass of the loop advances `start` strictly and keeps `chunks` + the chunks still to come unchanged (the loop invariant) |
| FixedChunking.ChunkFixedSize | src/indexer/chunking/text_chunker.py:102-149 | the loop returns exactly the fixed-size chunk list |
| FixedChunking.WindowPullBack | src/indexer/chunking/text_chunker.py:118-125 | a window is shorter than `chunk_size` exactly when it ends inside the text with a space after `start`; it then ends at the last such space |
| FixedChunking.FixedChunkShape | src/indexer/chunking/text_chunker.py:118-143 | every chunk is a non-empty stripped window: `start <= start_char < len(text)`, `start_char < end_char <= start_char + chunk_size`; it has its token count, the document id and the `fixed_size` tag |
| FixedChunking.FixedIndices | src/indexer/chunking/text_chunker.py:114-143 | `chunk_index` is zero-based (from the start index) and contiguous: it counts emitted chunks only |
| FixedChunking.FixedOrder | src/indexer/chunking/text_chunker.py:116-146 | consecutive chunks start strictly later, and no earlier than `end - overlap` (or `end` when that does not move forward) |
| RecursiveChunking.NonEmptyTail | src/indexer/chunking/text_chunker.py:162-170 | dropping the first separator leaves non-empty separators, so `split` is always called with a non-empty one |
| RecursiveChunking.StripAll | src/indexer/chunking/text_chunker.py:212 | each piece is stripped, the count kept |
| RecursiveChunking.GreedyDeeper | src/indexer/chunking/text_chunker.py:182-190 | at a piece over the budget, the pending group is flushed and the piece is split with the remaining separators |
| RecursiveChunking.GreedyFlush | src/indexer/chunking/text_chunker.py:193-197 | at a piece that fits alone but not with the pending group, the group is flushed and a new group starts with the piece |
| RecursiveChunking.GreedyGrow | src/indexer/chunking/text_chunker.py:198-200 | at a piece that fits with the pending group, the group grows by it |
| RecursiveChunking.Plan | src/indexer/chunking/text_chunker.py:177-203 | the greedy decisions (flush a group, send a piece deeper) refer only to pieces that exist |
| RecursiveChunking.RenderAppend | src/indexer/chunking/text_chunker.py:177-203 | the texts of a run of decisions are the texts of its parts, concatenated |
| RecursiveChunking.RenderFlushed | src/indexer/chunking/text_chunker.py:193-203 | a non-empty pending group renders as one joined text, an empty one as nothing |
| RecursiveChunking.RenderDeeper | src/indexer/chunking/text_chunker.py:188 | a piece sent deeper renders as its split with the remaining separators |
| RecursiveChunking.GreedyRender | src/indexer/chunking/text_chunker.py:177-203 | the greedy loop's output is exactly what its decision list renders to |
| RecursiveChunking.GreedyRenderDeeper | src/indexer/chunking/text_chunker.py:182-190 | the same, in the case of a piece over the budget |
| RecursiveChunking.CoversAppend | src/indexer/chunking/text_chunker.py:177 | decision lists covering consecutive ranges of pieces cover their union |
| RecursiveChunking.SumTokNext | src/indexer/chunking/text_chunker.py:199-200 | adding the next piece to the pending group adds its token count |
| RecursiveChunking.PlanCovers | src/indexer/chunking/text_chunker.py:177-203 | the decisions take every piece exactly once, in the original order |
| RecursiveChunking.PlanCoversDeeper | src/indexer/chunking/text_chunker.py:182-190 | the same, in the case of a piece over the budget |
| RecursiveChunking.PlanBudget | src/indexer/chunking/text_chunker.py:177-203 | every group the greedy pass emits has a summed token count within `chunk_size`; a piece goes deeper only when its own count is over it |
| RecursiveChunking.SplitTextPlan | src/indexer/chunking/text_chunker.py:164-205 | `_split_text` returns `[text]` when the separators are used up or the text fits; otherwise it renders the greedy decisions over `text.split(sep)` |
| RecursiveChunking.JoinBlock | src/indexer/chunking/text_chunker.py:172-183 | a run of pieces, joined with the separator, occurs in the text where its first piece starts; the next piece starts one separator after it |
| RecursiveChunking.JoinBlockOccurs | src/indexer/chunking/text_chunker.py:172-183 | the joined run occurs in the text where its first piece starts |
| RecursiveChunking.JoinBlockNext | src/indexer/chunking/text_chunker.py:172-183 | the piece after a run starts one separator after the run ends |
| RecursiveChunking.SplitTextFinds | src/indexer/chunking/text_chunker.py:164-205 | the pieces `_split_text` returns can be found in the text one after another, without overlapping |
| RecursiveChunking.SplitTextFindsAt | src/indexer/chunking/text_chunker.py:164-205 | the pieces made of a sub-piece occurring at `at` are found from `at`, and the searches end inside that sub-piece |
| RecursiveChunking.GreedyFinds | src/indexer/chunking/text_chunker.py:177-203 | the greedy pass's texts are found one after another from where the pending group starts |
| RecursiveChunking.FlushCutFinds | src/indexer/chunking/text_chunker.py:193-197 | at a flush with pieces pending, the flushed block and the chunks after it are found in order |
| RecursiveChunking.FlushSkipFinds | src/indexer/chunking/text_chunker.py:193-197 | at a flush with nothing pending, the chunks from the next piece are found from the current piece's start |
| RecursiveChunking.GreedyFindsFlush | src/indexer/chunking/text_chunker.py:193-197 | the same, at a piece that forces a flush |
| RecursiveChunking.GreedyFindsOversized | src/indexer/chunking/text_chunker.py:182-190 | the same, at a piece over the budget |
| RecursiveChunking.OversizedTail | src/indexer/chunking/text_chunker.py:182-190 | an oversized piece's sub-split followed by the rest of the pass is found from where that piece starts |
| RecursiveChunking.FlushedFound | src/indexer/chunking/text_chunker.py:183-203 | a flushed group is found at its own start, and the search ends where the group ends |
| RecursiveChunking.PieceStartsGrow | src/indexer/chunking/text_chunker.py:172 | the pieces of a split start further and further into the text |
| RecursiveChunking.StripFoundInPiece | src/indexer/chunking/text_chunker.py:212-217 | a piece's stripped text is found inside the piece |
| RecursiveChunking.FoundInside | src/indexer/chunking/text_chunker.py:217 | a text found inside a piece occurring at `i` is found from `i`, no later than inside the piece |
| RecursiveChunking.FoundViaPiece | src/indexer/chunking/text_chunker.py:212-217 | a text found inside a piece is found wherever the piece is, and ends no later |
| RecursiveChunking.StrippedFound | src/indexer/chunking/text_chunker.py:212-217 | a search for a piece's stripped text succeeds whenever one for the piece does, and ends no later |
| RecursiveChunking.StripFinds | src/indexer/chunking/text_chunker.py:212-217 | if the pieces are found one after another, so are their stripped texts |
| RecursiveChunking.BuildStep | src/indexer/chunking/text_chunker.py:211-231 | a blank piece is skipped and still uses up its index; any other piece becomes one chunk located by `find` from the current position, and the position moves to its end |
| RecursiveChunking.BuildTexts | src/indexer/chunking/text_chunker.py:211-231 | each chunk is the non-blank piece at its own list position, with its token count, the document id and the `recursive` tag |
| RecursiveChunking.FindEmpty | src/indexer/chunking/text_chunker.py:217 | searching for the empty text succeeds where the search starts |
| RecursiveChunking.BuildLocated | src/indexer/chunking/text_chunker.py:211-231 | every chunk's `[start_char, end_char)` holds exactly its text, after the starting position |
| RecursiveChunking.InOrderCons | src/indexer/chunking/text_chunker.py:211-231 | a chunk placed before ordered chunks that start after it keeps them ordered |
| RecursiveChunking.BuildOrdered | src/indexer/chunking/text_chunker.py:211-231 | the built chunks do not overlap and their indices increase |
| RecursiveChunking.RecursiveChunksLocated | src/indexer/chunking/text_chunker.py:151-234 | each recursive chunk is the stripped, non-blank piece at list position `chunk_index` of the split (indices increase, with gaps where blank pieces were skipped); it is located at `[start_char, start_char + len)` in the document; consecutive chunks do not overlap |
| RecursiveChunking.SplitTextLoop | src/indexer/chunking/text_chunker.py:164-205 | the early return and then the loop over `text.split(sep)` compute `_split_text` |
| RecursiveChunking.GreedyLoop | src/indexer/chunking/text_chunker.py:177-203 | the loop with `current_chunk` and `current_size` computes the greedy pass |
| RecursiveChunking.GreedyNext | src/indexer/chunking/text_chunker.py:178-200 | one pass keeps `current_chunk` equal to the pending run and keeps output + the rest of the pass unchanged |
| RecursiveChunking.BuildNext | src/indexer/chunking/text_chunker.py:211-231 | one pass of the building loop keeps chunks + the chunks still to come unchanged |
| RecursiveChunking.ChunkRecursive | src/indexer/chunking/text_chunker.py:151-234 | `_chunk_recursive` returns exactly the recursive chunk list |
| SentenceChunking.SentencesFrom | src/indexer/chunking/text_chunker.py:244-245 | the sentence split always yields at least one piece |
| SentenceChunking.SentencesShape | src/indexer/chunking/text_chunker.py:244-245 | `re.split(r'(?<=[.!?])\s+')`: every piece but the last ends with `.`, `!` or `?`, and no piece holds another break |
| SentenceChunking.Emit | src/indexer/chunking/text_chunker.py:264-279 | emitting a chunk leaves the pending group untouched |
| SentenceChunking.WordStep | src/indexer/chunking/text_chunker.py:288-313 | a word step keeps the word group free of empty words and leaves the sentence group alone |
| SentenceChunking.WordsFold | src/indexer/chunking/text_chunker.py:284-317 | the same over all the words of a sentence |
| SentenceChunking.SentenceStep | src/indexer/chunking/text_chunker.py:253-345 | one sentence keeps the pending group free of empty parts |
| SentenceChunking.SentencesFold | src/indexer/chunking/text_chunker.py:253-345 | the same over all sentences |
| SentenceChunking.SumTokOne | src/indexer/chunking/text_chunker.py:341-342 | a one-part group counts that part's tokens |
| SentenceChunking.EmitGood | src/indexer/chunking/text_chunker.py:324-339 | emitting a well-formed group keeps the state invariant: indices 0, 1, 2, … and each chunk made of its group |
| SentenceChunking.WordsFoldGood | src/indexer/chunking/text_chunker.py:261-319 | the word loop keeps the invariant, and the word group stays within budget unless it is one word |
| SentenceChunking.SentenceStepGood | src/indexer/chunking/text_chunker.py:253-345 | one sentence keeps the invariant |
| SentenceChunking.SentencesFoldGood | src/indexer/chunking/text_chunker.py:253-345 | the outer loop keeps the invariant |
| SentenceChunking.SentenceChunksShape | src/indexer/chunking/text_chunker.py:236-365 | sentence chunks are numbered 0, 1, 2, … with no gaps, carry text, the document id and the `sentence` tag, have a token count within `chunk_size` unless the chunk is a single word (then it is that word's count), and either point at their text in the document or carry the failed search's `-1`; chunk `i` is made of group `i` of the loop: its text is the group joined by spaces and its token count is the sum of the group's parts' counts |
| SentenceChunking.ChunkBySentence | src/indexer/chunking/text_chunker.py:236-365 | the loops return exactly the sentence chunk list |
| SentenceChunking.EmitChunk | src/indexer/chunking/text_chunker.py:324-339 | the emit step of the loop body updates `chunks`, `chunk_index` and `char_position` as the specification step does |
| SentenceChunking.WordNext | src/indexer/chunking/text_chunker.py:284-305 | one pass of the word loop takes the word fold's step |
| SentenceChunking.SplitLongSentence | src/indexer/chunking/text_chunker.py:261-319 | the word loop for a sentence over budget computes the word fold over `sentence.split()` |
| Retry.RetryFromFirst | src/indexer/context/context_generator.py:147-150 | a retried call succeeds exactly when one of the attempts does, returning the first success; otherwise it fails with a `RetryError` wrapping the last attempt's error (no `reraise=True`) |
| Retry.CallWithRetry | src/indexer/embeddings/embedding_generator.py:44-47 | at most 3 attempts are made and every one before the last failed; a success is the last attempt's value, a failure comes after all 3 and is the `RetryError` wrapping the third attempt's error |
| Enrichment.ContextOrDefault | src/indexer/context/context_generator.py:227 | `doc_context or "Não especificado"`: a missing or empty context becomes `Não especificado` |
| Enrichment.FillIgnoresContext | src/indexer/context/context_generator.py:225-228 | a template without `{doc_context}` gives the same prompt whatever the context |
| Enrichment.FillPlain | src/indexer/context/context_generator.py:84-145 | a plain template shows the chunk text right after its introduction, independent of the context |
| Enrichment.FillWithContext | src/indexer/context/context_generator.py:84-145 | the detailed template shows the text after its introduction and the context after its heading |
| Enrichment.LoadedPrompts | src/indexer/context/context_generator.py:82-145 | the templates are `default`, `detailed` and `technical`; only `detailed` asks for the document context |
| Enrichment.PromptShape | src/indexer/context/context_generator.py:224-228 | an unknown template name selects `default`; every prompt shows the chunk text verbatim at a fixed place; a context field, when present, shows the context or `Não especificado` |
| Enrichment.ExtractJsonBlockSpan | src/indexer/context/context_generator.py:196-200 | `re.search(r'\{.*\}', DOTALL)`: the block runs from the first `{` to the last `}`; there is none exactly when no `{` precedes a `}` |
| Enrichment.JoinField | src/indexer/context/context_generator.py:288-296 | `', '.join(v)` succeeds exactly when `v` iterates over strings only |
| Enrichment.JoinDictKeys | src/indexer/context/context_generator.py:288 | joining a JSON object joins its keys in insertion order, as `', '.join(d)` does |
| Enrichment.QuestionLines | src/indexer/context/context_generator.py:294 | the question lines can be built exactly when the value is iterable |
| Enrichment.LayoutShape | src/indexer/context/context_generator.py:284-296 | the enhanced text starts with `CONTEXTO: summary`, shows the chunk text verbatim after `CONTEÚDO:`, then `PERGUNTAS RELACIONADAS:`, and ends with the keywords; it determines the chunk text |
| Enrichment.EnhancedText | src/indexer/context/context_generator.py:272-298 | building the layout fails exactly when a joined list holds a non-string or the questions are not iterable |
| Enrichment.FromReply | src/indexer/context/context_generator.py:238-270 | the original chunk is always kept; a failed or non-dictionary reply gives the placeholder |
| Enrichment.FromReplyShape | src/indexer/context/context_generator.py:240-270 | the enhanced text always holds the chunk text; on success, missing keys default to `""` for summary and topic and `[]` for the three lists |
| Enrichment.Enrich | src/indexer/context/context_generator.py:206-270 | the enriched chunk wraps the given chunk |
| Enrichment.EnrichRetries | src/indexer/context/context_generator.py:231-270 | three failed attempts give the placeholder (`Erro ao gerar contexto`, `Desconhecido`, empty lists, the chunk's own text); a first attempt that succeeds decides the result |
| Enrichment.GenerateContextForChunk | src/indexer/context/context_generator.py:206-270 | the straight-line code with its exception branch computes the enriched chunk |
| Enrichment.GenerateContextsBatch | src/indexer/context/context_generator.py:300-332 | one enriched chunk per chunk, in order; the i-th wraps the i-th chunk |
| Enrichment.SummarySample | src/indexer/context/context_generator.py:350-353 | text of at most 10000 characters is sent whole; longer text is the first 5000, `"\n...\n"`, and the last 5000 |
| Enrichment.SummaryFrom | src/indexer/context/context_generator.py:376-391 | a failed call gives exactly `Documento sem resumo disponível`; a summary never starts or ends with whitespace |
| Enrichment.SummaryIsStripped | src/indexer/context/context_generator.py:376-387 | a successful summary is the reply stripped, and stripping it again changes nothing |
| Embeddings.DimensionOf | src/indexer/embeddings/embedding_generator.py:35-42 | 3072 exactly for `text-embedding-3-large`; 1536 for every other model, known or not |
| Embeddings.Zero | src/indexer/embeddings/embedding_generator.py:135 | `[0.0] * dimension` |
| Embeddings.CleanTextShape | src/indexer/embeddings/embedding_generator.py:107-110 | cleaned text has no newline and no surrounding whitespace, and cleaning is idempotent |
| Embeddings.DivBounds | src/indexer/embeddings/embedding_generator.py:94 | `ceil(n / bs)` batches are enough for all texts and none is empty |
| Embeddings.BatchesCover | src/indexer/embeddings/embedding_generator.py:94-103 | batch `i` is `[i*bs, min((i+1)*bs, n))`: non-empty, at most `bs` long, only the last one shorter |
| Embeddings.Cleaned | src/indexer/embeddings/embedding_generator.py:107-110 | every text of the batch is cleaned, in order |
| Embeddings.Fallback | src/indexer/embeddings/embedding_generator.py:125-135 | one vector per text: its own retried embedding, or the zero vector when that fails |
| Embeddings.EmbedStep | src/indexer/embeddings/embedding_generator.py:100-135 | the result is batch `i`'s vectors followed by those of the later batches |
| Embeddings.BatchItem | src/indexer/embeddings/embedding_generator.py:113-135 | inside a batch, each text's vector is at its own offset, whether from the batch call or from the fallback |
| Embeddings.HeadTailItems | src/indexer/embeddings/embedding_generator.py:100-135 | batch `i`'s answer followed by the later texts' own vectors gives every text from batch `i` on its own vector |
| Embeddings.EmbedFromItems | src/indexer/embeddings/embedding_generator.py:100-135 | from batch `i` on, one vector per remaining text, each the text's own |
| Embeddings.EmbeddingsPerText | src/indexer/embeddings/embedding_generator.py:74-138 | one vector per input text, in input order (given that a successful batch call answers one vector per text); a failing text in a failed batch gets the zero vector, the others their own |
| Embeddings.EmbedEach | src/indexer/embeddings/embedding_generator.py:128-135 | the per-text fallback loop computes the fallback list |
| Embeddings.EmbedBatch | src/indexer/embeddings/embedding_generator.py:101-135 | one batch: the batch call's vectors, or the fallback |
| Embeddings.GenerateEmbeddingsBatch | src/indexer/embeddings/embedding_generator.py:74-138 | the batch loop computes the embedding list |
| Embeddings.IntToStringNoUnderscore | src/indexer/embeddings/embedding_generator.py:191 | `str(chunk_index)` holds no `_` |
| Embeddings.LastUnderscore | src/indexer/embeddings/embedding_generator.py:191 | in an id, the last `_` separates the document id from the index |
| Embeddings.VectorIdUnique | src/indexer/embeddings/embedding_generator.py:191 | `f"{doc_id}_{chunk_index}"` is injective: equal ids mean the same document and index |
| Embeddings.JoinedPrefixIgnoresRest | src/indexer/embeddings/embedding_generator.py:174-181 | only the first `n` list items are looked at |
| Embeddings.FixedEntries | src/indexer/embeddings/embedding_generator.py:165-182 | the eleven fixed keys; `text` is the chunk's first 1000 characters; `doc_id` and `chunk_index` are the chunk's |
| Embeddings.VectorMetadataShape | src/indexer/embeddings/embedding_generator.py:165-188 | the metadata is the fixed keys plus the chunk's str/int/float/bool entries; those entries override fixed keys of the same name, and other entries are never copied; it fails exactly when a list cannot be joined |
| Embeddings.VectorForEnrichedChunk | src/indexer/embeddings/embedding_generator.py:140-197 | a record has the id `doc_id_index` and the retried embedding of the enhanced text (or the chunk text) |
| Embeddings.VectorRetries | src/indexer/embeddings/embedding_generator.py:44-47 | when all three embedding attempts fail, `create_vector_for_enriched_chunk` fails with the `RetryError` wrapping the third attempt's error; when the first attempt succeeds, its vector is the one recorded |
| Embeddings.StripKeepsNoBreak | src/indexer/embeddings/embedding_generator.py:60 | stripping a text without line breaks leaves none |
| Embeddings.ReplaceNoBreak | src/indexer/embeddings/embedding_generator.py:60 | replacing line breaks in a text without any changes nothing |
| Embeddings.CollectNext | src/indexer/embeddings/embedding_generator.py:232-257 | one more candidate keeps the collected records whole exactly when it is there, appending it |
| Embeddings.CollectStaysNone | src/indexer/embeddings/embedding_generator.py:232-257 | once a record cannot be built, the whole collection fails |
| Embeddings.CollectUpToShape | src/indexer/embeddings/embedding_generator.py:232-257 | building the records succeeds exactly when every record can be built, and then they come in order |
| Embeddings.Zipped | src/indexer/embeddings/embedding_generator.py:232 | `zip` yields `min(len(chunks), len(embeddings))` candidates, the i-th from the i-th pair |
| Embeddings.RecordForShape | src/indexer/embeddings/embedding_generator.py:233-257 | a record carries the chunk's id, its own vector and the chunk's metadata |
| Embeddings.BuildRecords | src/indexer/embeddings/embedding_generator.py:232-260 | the loop returns all records in order, or fails with the join error when one cannot be built |
| Embeddings.CreateVectorsBatch | src/indexer/embeddings/embedding_generator.py:199-260 | the enhanced (or plain) texts are embedded in batches of 100, then zipped into records |
| VectorStore.Slices | src/indexer/vectorstore/pinecone_client.py:115-117 | `range(0, n, bs)` gives `ceil(n / bs)` slices |
| VectorStore.Sent | src/indexer/vectorstore/pinecone_client.py:113-126 | no more batches are sent than there are |
| VectorStore.CountedAppend | src/indexer/vectorstore/pinecone_client.py:113-126 | the running total over two runs of batches is the sum of their totals; a failure in the first run ends the count |
| VectorStore.CountedFirstFailure | src/indexer/vectorstore/pinecone_client.py:117-126 | the upsert fails exactly when some batch fails, with the first failing batch's error |
| VectorStore.FlattenSlices | src/indexer/vectorstore/pinecone_client.py:115-117 | the first `k` slices concatenate to the first `k*bs` vectors |
| VectorStore.SlicesCover | src/indexer/vectorstore/pinecone_client.py:115-117 | the slices concatenate to the vectors, in order; each is non-empty and only the last may be shorter than `bs` |
| VectorStore.SentShape | src/indexer/vectorstore/pinecone_client.py:113-126 | the batches sent are a prefix: all of them on success; otherwise up to and including the failing one, with no later batch sent |
| VectorStore.StepOne | src/indexer/vectorstore/pinecone_client.py:115-124 | one more batch adds its `upserted_count`, or fails |
| VectorStore.SendStep | src/indexer/vectorstore/pinecone_client.py:115-124 | the loop invariant is kept by one more batch |
| VectorStore.SendOne | src/indexer/vectorstore/pinecone_client.py:116-118 | batch `k` is `vectors[k*bs : k*bs+bs]`, and it is sent |
| VectorStore.SendSlices | src/indexer/vectorstore/pinecone_client.py:113-126 | the stepped loop returns the sum of the counts, or the first error, and sends exactly the prefix described above |
| VectorStore.UpsertBatch | src/indexer/vectorstore/pinecone_client.py:96-126 | a batch size of 0 raises as `range` does; a negative one sends nothing and returns 0; a positive one is the loop above |
| VectorStore.GetIndexStats | src/indexer/vectorstore/pinecone_client.py:221-244 | a non-empty namespace gives its own entry, or `{}`; an empty namespace gives the whole statistics; a failing call propagates |
| Oracle.Conditions | src/indexer/database/oracle_client.py:77 | one `k = :k` per filter key, in order |
| Oracle.ConditionSeparable | src/indexer/database/oracle_client.py:77-78 | ` AND ` cannot be found inside a condition on a key without whitespace |
| Oracle.WhereClauseReadsBack | src/indexer/database/oracle_client.py:76-78 | the WHERE clause is present exactly when there are filters; split back at ` AND `, it gives the filter keys in order |
| Oracle.Keys | src/indexer/database/oracle_client.py:77 | the filter keys, in order |
| Oracle.Vals | src/indexer/database/oracle_client.py:90-93 | the filter values, in order |
| Oracle.FetchDocumentsQuery | src/indexer/database/oracle_client.py:73-84 | the `+=` steps build the fetch query |
| Oracle.CountDocumentsQuery | src/indexer/database/oracle_client.py:191-195 | the `+=` steps build the count query |
| Oracle.UpdateStatusStatement | src/indexer/database/oracle_client.py:159-166 | the statement and the conditionally extended parameters of the update |
| Oracle.FetchSqlFilterPart | src/indexer/database/oracle_client.py:73-81 | the fetch query is `SELECT * FROM table`, then its WHERE clause, then ` ORDER BY id` |
| Oracle.FetchSqlWhere | src/indexer/database/oracle_client.py:76-78 | a WHERE clause follows the table exactly when there are filters |
| Oracle.FetchSqlPaging | src/indexer/database/oracle_client.py:81-84 | the OFFSET/FETCH clause ends the query exactly when `limit` is truthy; otherwise the query ends with ` ORDER BY id` |
| Oracle.CountSharesWhere | src/indexer/database/oracle_client.py:191-195 | the count query filters exactly as the fetch query does |
| Oracle.UpdateShape | src/indexer/database/oracle_client.py:159-166 | the update always sets `status` and ends with ` WHERE id = :id`; `indexed_at` is in the statement and the parameters exactly when it is truthy |
| Oracle.ZipPairsLookup | src/indexer/database/oracle_client.py:101 | `dict(zip(...))` has a key per column; each key maps to the value paired with its last occurrence |
| Oracle.ZipPairsKeys | src/indexer/database/oracle_client.py:101 | the keys of the row dictionary are exactly the paired column names |
| Oracle.ZipPairsValues | src/indexer/database/oracle_client.py:101 | a column not repeated later maps to its own value |
| Oracle.ZipDictLookup | src/indexer/database/oracle_client.py:133 | `zip` stops at the shorter sequence; the keys and values are as above |
| Oracle.Columns | src/indexer/database/oracle_client.py:96 | the column names are lowercased, in order |
| Oracle.FetchedDocuments | src/indexer/database/oracle_client.py:56-109 | the query runs with the filters as binds; a failure propagates; on success there is one record per row, in order |
| Oracle.FetchDocuments | src/indexer/database/oracle_client.py:96-105 | the row loop builds the fetched records |
| Oracle.UpdateDocumentStatus | src/indexer/database/oracle_client.py:142-179 | returns `True` exactly when the statement runs; otherwise it raises |
| Oracle.FetchDocumentById | src/indexer/database/oracle_client.py:111-140 | no row gives `None`; otherwise the first row as a record; a failure propagates |
| Oracle.CountDocuments | src/indexer/database/oracle_client.py:181-211 | the count is the first column of the first row; with no row, or a row without columns, the call fails with Python's own message for that case |
| Indexer.Bare | src/indexer/main_indexer.py:150-159 | without the LLM, a chunk is wrapped with an empty summary, topic and lists, and its own text as the enhanced text |
| Indexer.TallyStep | src/indexer/main_indexer.py:254-273 | the statistics after one more document are one loop step on those before |
| Indexer.TallyCounts | src/indexer/main_indexer.py:244-273 | `total_documents = len(documents)`; `successful + failed` is the number of documents; `errors` has one entry per failure; chunks and vectors are summed over successes only |
| Indexer.FailuresReported | src/indexer/main_indexer.py:268-273 | every failing document has its `{doc_id, error}` entry, and every entry comes from a failing document |
| Indexer.ConcatStep | src/indexer/main_indexer.py:254 | what a run sent grows by the next document's part |
| Indexer.Results | src/indexer/main_indexer.py:254-273 | one result per document |
| Indexer.Updates | src/indexer/main_indexer.py:254-273 | one list of status updates per document |
| Indexer.Sends | src/indexer/main_indexer.py:254-273 | one list of sent batches per document |
| Indexer.DocumentIndexer.constructor | src/indexer/main_indexer.py:35-89 | the collaborators are stored, and nothing has been written yet |
| Indexer.DocumentIndexer.DocumentText | src/indexer/main_indexer.py:118-120 | the text field must be a non-empty string; a falsy or missing one fails with `Campo '…' vazio ou não encontrado` |
| Indexer.DocumentIndexer.Located | src/indexer/main_indexer.py:114-116 | a missing (or empty) document fails with `Documento … não encontrado`; a database failure propagates |
| Indexer.DocumentIndexer.Enriched | src/indexer/main_indexer.py:140-161 | one enriched chunk per chunk |
| Indexer.DocumentIndexer.Build | src/indexer/main_indexer.py:125-168 | on success, the chunks are those of the document's text and metadata, and the enriched chunks use the one document summary |
| Indexer.DocumentIndexer.Failed | src/indexer/main_indexer.py:197-204 | the failure branch: with status updates on, the document is marked `error` (a failure of that update is what is raised); otherwise the error is raised again; nothing more is sent |
| Indexer.DocumentIndexer.Locate | src/indexer/main_indexer.py:114-116 | fetch and the not-found check |
| Indexer.DocumentIndexer.EnrichAll | src/indexer/main_indexer.py:140-161 | enrichment by the LLM with the one summary, or the bare wrapping |
| Indexer.DocumentIndexer.EmbedAll | src/indexer/main_indexer.py:164-168 | `create_vectors_batch`, using the enhanced text exactly when the LLM is used |
| Indexer.DocumentIndexer.BuildWork | src/indexer/main_indexer.py:123-168 | steps 2 to 5, in order |
| Indexer.DocumentIndexer.PrepareDocument | src/indexer/main_indexer.py:114-168 | steps 1 to 5, which write nothing |
| Indexer.DocumentIndexer.SendUpdate | src/indexer/main_indexer.py:178-184 | one update is logged and fails as the database does |
| Indexer.DocumentIndexer.RecordFailure | src/indexer/main_indexer.py:197-204 | the failure branch's writes and result |
| Indexer.DocumentIndexer.FinishDocument | src/indexer/main_indexer.py:170-195 | upsert in batches of 100, then mark `indexed` |
| Indexer.DocumentIndexer.IndexDocument | src/indexer/main_indexer.py:91-204 | `index_document`: its result, its status updates and its upserted batches |
| Indexer.DocumentIndexer.PrepareFailures | src/indexer/main_indexer.py:114-120 | a missing document or a falsy text field fails with its message; a prepared document was found, is non-empty, and has a non-empty string text |
| Indexer.DocumentIndexer.ChunkedTagged | src/indexer/main_indexer.py:131-136 | chunks carry `str(doc_id)` and the document's other fields as metadata (the text field removed), tagged with the strategy |
| Indexer.DocumentIndexer.EnrichedChunks | src/indexer/main_indexer.py:140-161 | one enriched chunk per chunk, in order; with the LLM each is enriched with the same context; without it each is bare with its own text |
| Indexer.DocumentIndexer.FinishRules | src/indexer/main_indexer.py:170-204 | without status updates nothing is written; success writes exactly one `indexed` update; a failure ends with an `error` update; on success all vectors were sent, and the stats hold the chunk count, the upsert total and the token sum |
| Indexer.DocumentIndexer.UpdatesMark | src/indexer/main_indexer.py:179-203 | `indexed` carries the time; `error` carries none |
| Indexer.DocumentIndexer.RunOutcomes | src/indexer/main_indexer.py:254-273 | one outcome per document |
| Indexer.DocumentIndexer.Ids | src/indexer/main_indexer.py:256 | one id per document, `doc.get("id")` |
| Indexer.DocumentIndexer.Count | src/indexer/main_indexer.py:264-273 | the bookkeeping of one loop turn on the stats dictionary |
| Indexer.DocumentIndexer.IndexNext | src/indexer/main_indexer.py:255-273 | one loop turn: index the document, count it, and keep its writes |
| Indexer.DocumentIndexer.IndexEach | src/indexer/main_indexer.py:254-273 | the loop yields the tallied statistics and all documents' writes in order; a failure does not stop later documents |
| Indexer.DocumentIndexer.IndexAllDocuments | src/indexer/main_indexer.py:206-284 | a failing count or fetch propagates and writes nothing; otherwise the result is the loop's statistics |
| Pipeline.ChunkId | pipeline.py:233-235 | the id is at most 128 characters, a prefix of `doc_id-cNNNNN`, and all of it while it fits |
| Pipeline.ChunkIdReadsBack | pipeline.py:233-235 | while it fits, the id is `doc_id-c` and at least five digits that read back as `i` |
| Pipeline.ChunkIdDistinct | pipeline.py:233-235 | distinct non-negative `i` give distinct ids while the full id fits |
| Pipeline.ChunkIdLongDocument | pipeline.py:233-235 | a document id of 128 characters or more gives every chunk the same id |
| Pipeline.Slashed | pipeline.py:285 | every `\` becomes `/` |
| Pipeline.ReplaceAtStart | pipeline.py:288-289 | replacing the first occurrence of a prefix replaces the prefix |
| Pipeline.MapFromNone | pipeline.py:287-291 | with no mapping matching, the path comes back unchanged |
| Pipeline.MapFromMatch | pipeline.py:287-289 | the first mapping that matches decides the result |
| Pipeline.MapFromFirst | pipeline.py:287-291 | both cases of the mapping loop together |
| Pipeline.ConvertPathFirstMatch | pipeline.py:280-291 | the first matching prefix, in the order of `MAPPINGS` (pipeline.py lines 87-91), is replaced by its mount point, and the rest is kept; with no match the slashed path is returned |
| Pipeline.MountedUnmatched | pipeline.py:87-91 | a converted path matches no Windows prefix |
| Pipeline.ConvertPathNoBackslash | pipeline.py:280-291 | the result holds no backslash |
| Pipeline.MapFromNoBackslash | pipeline.py:287-291 | mapping keeps a path free of backslashes |
| Pipeline.ConvertPathIdempotent | pipeline.py:280-291 | converting twice is converting once |
| Pipeline.SplitExt | pipeline.py:633 | the extension is empty or a suffix of the path starting with `.` |
| Pipeline.LStripChar | pipeline.py:633 | `lstrip(c)` drops exactly the leading `c`s |
| Pipeline.FileExtensionShape | pipeline.py:633 | the extension is the lowercased text after the path's last dot; it holds no dot or slash; a path without a dot has none |
| Pipeline.Setores | pipeline.py:560 | one sector per comma-separated piece |
| Pipeline.StrippedNoComma | pipeline.py:560 | stripping keeps a piece free of commas |
| Pipeline.SetoresShape | pipeline.py:560 | at least one sector; none holds a comma or surrounding whitespace; text without a comma is one stripped sector |
| Pipeline.OrNA | pipeline.py:201-202 | `row[k] or 'N/A'` |
| Pipeline.ListLinesShape | pipeline.py:662-667 | the title line, then four lines per document, document `k`'s at positions `1+4k` to `4+4k` |
| Pipeline.DocumentListLines | pipeline.py:662-667 | the line loop builds the markdown lines |
| Pipeline.NoTextErrorAsWritten | pipeline.py:512 | the WARN row's text as written starts with `Sem texto extraído de: ` |
| Pipeline.NoTextErrorAsWrittenLosesPath | pipeline.py:512 | two different files get the same WARN text, and it names neither |
| Pipeline.NoTextError | pipeline.py:512-513 | the corrected WARN text is the prefix followed by the path |
| Pipeline.NoTextErrorNamesFile | pipeline.py:512-513 | different files get different corrected WARN texts |
| TextCleaning.First | pipeline.py:321 | `s[:n]` has `min(len, n)` elements |
| TextCleaning.Last | pipeline.py:333 | `s[-n:]` has `min(len, n)` elements |
| TextCleaning.LeadingFrom | pipeline.py:321-326 | the header run stays inside both line lists |
| TextCleaning.TrailingFrom | pipeline.py:333-339 | the footer run stays inside both line lists |
| TextCleaning.Leading | pipeline.py:319-328 | the header count is at most either list's length |
| TextCleaning.Trailing | pipeline.py:331-341 | the footer count is at most either list's length |
| TextCleaning.LeadingIsLongestRun | pipeline.py:321-325 | every pair within the header run is similar, and the pair after it is not |
| TextCleaning.TrailingIsLongestRun | pipeline.py:333-338 | every pair within the footer run, counted from the ends, is similar, and the pair before it is not |
| TextCleaning.CountLeading | pipeline.py:321-325 | the header loop computes the header count |
| TextCleaning.CountTrailing | pipeline.py:333-338 | the footer loop computes the footer count |
| TextCleaning.PageLines | pipeline.py:312 | each page's `splitlines()` |
| TextCleaning.HeaderCount | pipeline.py:319-328 | at most 15 header lines, and no more than the page has |
| TextCleaning.FooterCount | pipeline.py:331-341 | at most 15 footer lines among those left |
| TextCleaning.HeaderOf | pipeline.py:319-328 | a page loses at most 15 header lines |
| TextCleaning.FooterOf | pipeline.py:331-341 | header and footer lines together never exceed the page |
| TextCleaning.HeaderAt | pipeline.py:319-328 | the same, for page `i` of the scan |
| TextCleaning.FooterAt | pipeline.py:331-341 | the same, for page `i` of the scan |
| TextCleaning.Body | pipeline.py:344-348 | the lines left are the contiguous slice between header and footer |
| TextCleaning.HeadersAndFootersRemoved | pipeline.py:302-352 | one output page per input page |
| TextCleaning.HeadersAndFootersTrimmed | pipeline.py:302-352 | every page is its source page with at most 15 header and 15 footer lines dropped (no header on the first page), the rest joined with newlines and stripped, and the metadata kept |
| TextCleaning.ComparisonPage | pipeline.py:315-350 | a page is compared with the next page until any header or footer has matched, then with the previous page |
| TextCleaning.NoMatchYet | pipeline.py:319-341 | the match count is zero exactly when no earlier page lost a line |
| TextCleaning.ZeroBefore | pipeline.py:319-341 | while the match count is zero, no earlier page lost a line |
| TextCleaning.ZeroScan | pipeline.py:319-341 | when no earlier page lost a line, the match count is zero |
| TextCleaning.MatchStep | pipeline.py:319-341 | the match count grows by each page's header and footer lines |
| TextCleaning.HeaderIsLongestRun | pipeline.py:319-328 | the removed header is the longest similar run among the first 15 lines |
| TextCleaning.RemoveHeaderFooter | pipeline.py:302-352 | the page loop computes the cleaned pages |
| TextCleaning.CleanPage | pipeline.py:311-350 | one turn cleans page `i` and moves `prev_lines` and `prim_cab` to the next scan state |
| TextCleaning.ScanNext | pipeline.py:311-350 | the values one loop turn computes are the next scan state and the cleaned page |
| TextCleaning.CountsAt | pipeline.py:319-341 | the counts the loop body computes are the page's header and footer counts |
| TextCleaning.ScanStep | pipeline.py:350 | the scan state after page `i` |
| TextCleaning.CleanedPage | pipeline.py:344-348 | page `i` of the result is rebuilt from its body |
| TextCleaning.DropHeader | pipeline.py:319-328 | the header step drops exactly the header count |
| TextCleaning.DropFooter | pipeline.py:331-341 | the footer step drops exactly the footer count |
| TextCleaning.LineBreaksAdjusted | pipeline.py:355-390 | the page count and every page's metadata are kept |
| TextCleaning.MergedLinesShape | pipeline.py:368-383 | merging never adds lines, keeps a non-empty page non-empty, and leaves every line stripped |
| TextCleaning.MergeTrimmed | pipeline.py:376-380 | merging two stripped lines gives a stripped line |
| TextCleaning.NoMergeWithoutLowercase | pipeline.py:368-383 | when no line starts lowercase, the lines are only stripped |
| TextCleaning.MergesLowercase | pipeline.py:376-380 | a lowercase line after one not ending in `.!?;:` is merged: without the hyphen when the previous line ends in `-`, otherwise with one space |
| TextCleaning.TrimmedStrip | pipeline.py:369 | stripping a stripped line changes nothing |
| TextCleaning.MergedLinesStep | pipeline.py:368-383 | one line more is one merge step |
| TextCleaning.AdjustLines | pipeline.py:368-383 | the line loop computes the merged lines |
| TextCleaning.MergeLine | pipeline.py:371-383 | one line turn: overwrite the last line with the merge, or append |
| TextCleaning.AdjustLineBreaks | pipeline.py:355-390 | the page loop computes the adjusted pages |
| PipelineRun.Recorded | pipeline.py:211-227 | the table only grows, by at most one row, keeping its rows |
| PipelineRun.RecordedRow | pipeline.py:211-227 | a row is added exactly when its document has none (the key is unique); either way the document has a row afterwards |
| PipelineRun.SendTable.constructor | pipeline.py:106-115 | the table starts empty |
| PipelineRun.SendTable.Record | pipeline.py:211-227 | `grava_envio_documento` updates the table as described |
| PipelineRun.LoadByExtension | pipeline.py:488-499 | a file loads only as `pdf`, `docx`, `doc` (read from its PDF conversion) or `md`/`markdown`; any other extension fails before reading |
| PipelineRun.Texts | pipeline.py:516 | one text per chunk, in order |
| PipelineRun.PageOfDefault | pipeline.py:561 | `page` is the chunk's truthy page or 0 |
| PipelineRun.MetadataShape | pipeline.py:557-563 | exactly five keys: doc id, `id - name`, the stripped sectors, the page and the chunk text |
| PipelineRun.AssembledShape | pipeline.py:554-564 | assembly fails exactly when there are more embeddings than chunks; otherwise vector `i` has id `chunk_id(doc, i)` and embedding `i`, and the ids are distinct while they fit |
| PipelineRun.VectorsChecks | pipeline.py:545-564 | only the first embedding's length is checked against `EMBED_DIM`, and a mismatch raises the dimension error |
| PipelineRun.UpsertRecords | pipeline.py:469-579 | a call that raises writes no row; otherwise it writes one OK or WARN row for the document; zero chunks give a WARN row and no upsert, and that row's text is the literal, uninterpolated `Sem texto extraído de: {file_path}`, the same for every file |
| PipelineRun.UpsertSendsAll | pipeline.py:566-578 | when nothing raises, every vector was sent and the OK row counts them; a failing batch is re-raised and no row is written |
| PipelineRun.LoadAndSplit | pipeline.py:487-508 | load, clean, split |
| PipelineRun.AssembleVectors | pipeline.py:554-564 | the loop builds the vector list |
| PipelineRun.BuildVectors | pipeline.py:544-564 | embed, check, assemble |
| PipelineRun.PineconeStore.constructor | pipeline.py:396-431 | nothing has been sent yet |
| PipelineRun.PineconeStore.UpsertPdf | pipeline.py:469-579 | `upsert_pdf`: the batches sent, the row written (for a file without chunks, the WARN row with the literal `{file_path}` text), and what is raised |
| PipelineRun.FailedDocumentRecorded | pipeline.py:642-647 | a failing document gets an ERRO row `name: error` unless it already had a row; it always has one afterwards, and no row is lost |
| PipelineRun.Outcomes | pipeline.py:611-612 | one outcome per document |
| PipelineRun.OutcomeAt | pipeline.py:611-612 | document `i`'s outcome is its own `upsert_pdf` call |
| PipelineRun.OutcomesSettled | pipeline.py:625-648 | each call either raises or leaves a row for its document |
| PipelineRun.RunStep | pipeline.py:611-612 | one more document extends the run |
| PipelineRun.RunEnds | pipeline.py:611-612 | an empty run changes nothing |
| PipelineRun.AfterDocumentKeeps | pipeline.py:625-648 | processing a document keeps the rows and leaves one for it |
| PipelineRun.RunKeeps | pipeline.py:611-612 | a run keeps the rows and leaves one per document |
| PipelineRun.RunRecordsEach | pipeline.py:600-615 | however documents fail, the run goes on, and every document has a row afterwards |
| PipelineRun.RagPipeline.constructor | pipeline.py:595-597 | the store and the table are kept |
| PipelineRun.RagPipeline.ProcessDocument | pipeline.py:625-648 | an empty row is skipped; otherwise the upsert's batches and rows (the WARN text as written for a file without chunks), plus an ERRO row when it raised |
| PipelineRun.RagPipeline.GenerateDocumentList | pipeline.py:651-685 | no rows, nothing happens; otherwise the markdown list is built and upserted as `upsert_pdf` does (an empty list gets the literal WARN text), and an error is recorded as its text |
| PipelineRun.RagPipeline.ProcessNext | pipeline.py:611-612 | one more document keeps the loop's invariant |
| PipelineRun.RagPipeline.ProcessEach | pipeline.py:611-612 | the loop sends each document's batches and writes its rows, in order |
| PipelineRun.RagPipeline.Run | pipeline.py:600-615 | no documents, nothing happens; otherwise every document, then the list, each upsert writing its row as `upsert_pdf` writes it as written |
| Strs.Find | src/indexer/chunking/text_chunker.py:217 | `str.find` returns -1 or an in-bounds position at or after `start` |
| Strs.FindOccurs | src/indexer/chunking/text_chunker.py:217 | a non-negative `find` result is an occurrence |
| Strs.FindIsFirst | src/indexer/chunking/text_chunker.py:217 | `find` returns the first occurrence, and -1 only when there is none |
| Strs.RFindChar | src/indexer/chunking/text_chunker.py:123 | `rfind` returns the last position holding the character, or -1 when none does |
| Strs.JoinSplit | src/indexer/chunking/text_chunker.py:172 | joining the pieces of `split(sep)` with `sep` gives the text back |
| Strs.SplitJoin | src/indexer/database/oracle_client.py:78 | splitting a join whose parts do not contain the separator gives the parts back |
| Strs.SplitPiecesFree | src/indexer/chunking/text_chunker.py:172 | no piece of `split(sep)` contains the separator |
| Strs.StripSlice | src/indexer/chunking/text_chunker.py:127 | `strip()` is a contiguous slice of the text that neither starts nor ends with whitespace |
| Strs.SplitWhitespace | src/indexer/chunking/text_chunker.py:284 | `split()` gives non-empty words without whitespace |
| Strs.SplitLinesNoBreak | pipeline.py:312 | no line of `splitlines()` holds a line break |
| Strs.StripIdempotent | src/indexer/chunking/text_chunker.py:127 | stripping twice is stripping once |
| Strs.StripDropsSpace | src/indexer/chunking/text_chunker.py:127 | `strip` drops only whitespace, and gives `""` exactly for all-whitespace text |
| Strs.SplitWhitespaceEmpty | src/indexer/chunking/text_chunker.py:284 | `split()` is empty exactly for all-whitespace text |
| Strs.ReplaceFirst | pipeline.py:289 | `replace(pat, repl, 1)` replaces the first occurrence only, and nothing when there is none |
| Strs.IntToStringInjective | src/indexer/embeddings/embedding_generator.py:191 | different integers print differently |
| Strs.NatToStringValue | src/indexer/embeddings/embedding_generator.py:191 | `str(n)` reads back as `n` |
| Strs.ZFillNatValue | pipeline.py:235 | a zero-padded `str(n)` still reads back as `n` |
| Values.Get | src/indexer/context/context_generator.py:242-246 | `d.get(k, default)` |
| Values.Without | src/indexer/main_indexer.py:131 | the dictionary comprehension removes exactly the text field |
| Chunks.StrategyName | src/indexer/chunking/text_chunker.py:13-18 | the value of each `ChunkStrategy` member: `fixed_size`, `recursive`, `sentence`, `semantic` |
| Chunks.SumTok | src/indexer/chunking/text_chunker.py:199-200 | the running `current_size`/`current_tokens`: the sum of the parts' token counts |
| Chunks.Located | src/indexer/chunking/text_chunker.py:217-218 | a chunk is located when `text[start_char:end_char]` is exactly its text |
| Chunks.FindsAll | src/indexer/chunking/text_chunker.py:210-218 | each text is found by `find` from where the previous one ended |
| Chunks.FindsEnd | src/indexer/chunking/text_chunker.py:210-218 | the `char_position` after the last of those searches |
| TextChunking.Usable | src/indexer/chunking/text_chunker.py:116-146 | the fixed-size strategy needs `chunk_size >= 1` for its loop to move forward; the others take any setting |
| TextChunking.DocumentChunks | src/indexer/chunking/text_chunker.py:70-100 | the chunk list of the chosen strategy, with `metadata or {}` |
| TextChunking.WrittenName | src/indexer/chunking/text_chunker.py:367-379 | the `strategy` tag written into the chunks: the semantic strategy writes `recursive`, since it runs that code |
| FixedChunking.FixedFrom | src/indexer/chunking/text_chunker.py:116-146 | the windows from `start` on: each non-blank stripped window becomes the next-numbered chunk, and a blank one is skipped without using an index |
| FixedChunking.FixedChunks | src/indexer/chunking/text_chunker.py:102-149 | the fixed-size chunk list, starting at 0 with index 0 |
| FixedChunking.Advances | src/indexer/chunking/text_chunker.py:146 | the order between consecutive chunks: strictly later, and no earlier than `end - overlap` |
| RecursiveChunking.NonEmptySeps | src/indexer/chunking/text_chunker.py:162 | none of the separators is empty, so `split` never raises |
| RecursiveChunking.SplitText | src/indexer/chunking/text_chunker.py:164-205 | `_split_text`: the text itself when the separators are used up or it fits, else the greedy pass over `text.split(separators[0])` |
| RecursiveChunking.Greedy | src/indexer/chunking/text_chunker.py:177-203 | the greedy loop: a piece over the budget flushes the group and goes deeper; a piece that does not fit flushes and starts a group; otherwise the group grows; the last group is flushed |
| RecursiveChunking.BuildFrom | src/indexer/chunking/text_chunker.py:211-231 | the chunk-building loop: each non-blank stripped piece becomes a chunk at its list position, located by `find` from the end of the previous one |
| RecursiveChunking.RecursiveChunks | src/indexer/chunking/text_chunker.py:151-234 | the recursive chunk list: the stripped pieces of `_split_text` over `\n\n`, `\n`, `. `, ` ` |
| RecursiveChunking.InRange | src/indexer/chunking/text_chunker.py:177-203 | a decision refers to pieces that exist |
| RecursiveChunking.Render | src/indexer/chunking/text_chunker.py:177-203 | the texts a decision list produces: a group joined with the separator, a deeper piece split again |
| RecursiveChunking.Covers | src/indexer/chunking/text_chunker.py:177 | the decisions take the pieces of a range once each, in order |
| RecursiveChunking.WithinBudget | src/indexer/chunking/text_chunker.py:182-200 | a group's summed tokens are within `chunk_size`; a piece goes deeper only when its own count exceeds it |
| RecursiveChunking.PieceStart | src/indexer/chunking/text_chunker.py:172 | where piece `j` of `text.split(sep)` starts in the text |
| RecursiveChunking.InOrder | src/indexer/chunking/text_chunker.py:211-231 | consecutive chunks do not overlap and their indices increase |
| SentenceChunking.EndsSentence | src/indexer/chunking/text_chunker.py:244 | the look-behind class `[.!?]` |
| SentenceChunking.BreakAt | src/indexer/chunking/text_chunker.py:244 | a match of `(?<=[.!?])\s+` starts here |
| SentenceChunking.SplitSentences | src/indexer/chunking/text_chunker.py:244-245 | `re.split(r'(?<=[.!?])\s+', text)`: the pieces between whitespace runs that follow `.`, `!` or `?` |
| SentenceChunking.NonBlank | src/indexer/chunking/text_chunker.py:254-256 | every part of a group is non-empty (blank sentences are skipped) |
| SentenceChunking.Finish | src/indexer/chunking/text_chunker.py:347-362 | after the loop, a non-empty pending group is emitted as the last chunk |
| SentenceChunking.SentenceChunks | src/indexer/chunking/text_chunker.py:236-365 | the sentence chunk list: the sentence loop, then the final emit |
| SentenceChunking.SentenceGroups | src/indexer/chunking/text_chunker.py:236-365 | the groups of sentences or words the chunks join, in emission order |
| SentenceChunking.ChunkOf | src/indexer/chunking/text_chunker.py:264-276 | a chunk is made of its group: text `" ".join(group)`, token count the sum of the parts' counts, and located by `find` or `-1` |
| SentenceChunking.Pending | src/indexer/chunking/text_chunker.py:341-345 | `current_tokens` is the sum of the pending parts' counts, within `chunk_size` unless the group is one word |
| SentenceChunking.Good | src/indexer/chunking/text_chunker.py:253-345 | the loop invariant: chunks numbered 0, 1, 2, …, each made of its group, and a well-formed pending group |
| SentenceChunking.PartsOf | src/indexer/chunking/text_chunker.py:253-319 | what one sentence contributes: nothing when blank, its words when over the budget, itself otherwise |
| SentenceChunking.Parts | src/indexer/chunking/text_chunker.py:253-345 | the contributions of all sentences, in order |
| SentenceChunking.Flatten | src/indexer/chunking/text_chunker.py:264 | the groups laid end to end |
| SentenceChunking.EmitCovers | src/indexer/chunking/text_chunker.py:263-281 | emitting a group lays its parts after those of the earlier chunks |
| SentenceChunking.WordStepCovers | src/indexer/chunking/text_chunker.py:288-313 | one word goes after the emitted and pending words, whether it fits or starts a new group |
| SentenceChunking.WordsFoldCovers | src/indexer/chunking/text_chunker.py:288-317 | the word loop moves a sentence's words, in order, into the emitted groups and the pending group |
| SentenceChunking.Laid | src/indexer/chunking/text_chunker.py:247-251 | the parts a loop state holds: the emitted groups', then the pending ones |
| SentenceChunking.SentenceStepCovers | src/indexer/chunking/text_chunker.py:253-345 | one sentence adds exactly its parts after those already held |
| SentenceChunking.SentencesFoldCovers | src/indexer/chunking/text_chunker.py:253-345 | the sentence loop adds the parts of every sentence, in order |
| SentenceChunking.SentenceChunksCover | src/indexer/chunking/text_chunker.py:236-365 | the chunks' groups, laid end to end, are every non-blank stripped sentence in order, an over-budget sentence by its words: nothing dropped, repeated or reordered |
| Enrichment.Plain | src/indexer/context/context_generator.py:85-103 | the shape of the `default` and `technical` templates: introduction, `{text}`, instructions |
| Enrichment.WithContext | src/indexer/context/context_generator.py:105-126 | the shape of the `detailed` template: introduction, `{text}`, the `CONTEXTO DO DOCUMENTO:` heading, `{doc_context}`, instructions |
| Enrichment.LoadPrompts | src/indexer/context/context_generator.py:82-145 | `_load_prompts`: the `default`, `detailed` and `technical` templates |
| Enrichment.Fill | src/indexer/context/context_generator.py:225-228 | `str.format`: each field replaced by its value, the literal text kept |
| Enrichment.Prompt | src/indexer/context/context_generator.py:224-228 | the selected template filled with the chunk text and `doc_context or "Não especificado"` |
| Enrichment.Shaped | src/indexer/context/context_generator.py:82-145 | a template has one of the two loaded shapes |
| Enrichment.Selected | src/indexer/context/context_generator.py:224 | `prompts.get(template, prompts["default"])` |
| Enrichment.TextAt | src/indexer/context/context_generator.py:93-94 | the chunk text starts right after the template's introduction |
| Enrichment.ExtractJsonBlock | src/indexer/context/context_generator.py:196 | `re.search(r'\{.*\}', content, re.DOTALL)`: from the first `{` to the last `}` after it, or no match |
| Enrichment.Attempt | src/indexer/context/context_generator.py:151-204 | one attempt: with `openai`, the reply `eval`-ed; with any other provider, Anthropic's reply, its JSON block parsed, or the `Não foi possível extrair JSON da resposta` error when it has none |
| Enrichment.Attempts | src/indexer/context/context_generator.py:147-150 | the attempts the `@retry` decorator makes, numbered |
| Enrichment.Shown | src/indexer/context/context_generator.py:294 | `str(v)` in an f-string: a string shows as itself, any other value through `show` |
| Enrichment.Items | src/indexer/context/context_generator.py:288-296 | iterating a reply field: a list's items, a string's characters, a JSON object's keys in insertion order; any other value is not iterable here |
| Enrichment.Preamble | src/indexer/context/context_generator.py:284-290 | the enhanced text up to `CONTEÚDO:` |
| Enrichment.Postscript | src/indexer/context/context_generator.py:292-296 | the enhanced text after the chunk text: the question lines and the keywords |
| Enrichment.Layout | src/indexer/context/context_generator.py:284-296 | the whole `_create_enhanced_text` f-string |
| Enrichment.Placeholder | src/indexer/context/context_generator.py:262-270 | the chunk returned on error: `Erro ao gerar contexto`, empty lists, `Desconhecido`, the chunk's own text |
| Enrichment.SummaryPrompt | src/indexer/context/context_generator.py:355-360 | the summary prompt around the sampled text, with `max_length` written in |
| Enrichment.DocumentSummary | src/indexer/context/context_generator.py:334-391 | `generate_document_summary`: one call on the sampled prompt, its reply stripped, or the fallback text |
| Embeddings.OneEach | src/indexer/embeddings/embedding_generator.py:117-118 | the batch call answers one vector per text, which the source assumes |
| Embeddings.Dimension | src/indexer/embeddings/embedding_generator.py:35-42 | the dimension table, 1536 for an unknown model |
| Embeddings.CleanText | src/indexer/embeddings/embedding_generator.py:60 | `text.replace("\n", " ").strip()` |
| Embeddings.NumBatches | src/indexer/embeddings/embedding_generator.py:94 | `(len(texts) + batch_size - 1) // batch_size` |
| Embeddings.BatchEnd | src/indexer/embeddings/embedding_generator.py:100-103 | where batch `i` ends: `min((i + 1) * batch_size, n)` |
| Embeddings.Batch | src/indexer/embeddings/embedding_generator.py:100-103 | the texts of batch `i` |
| Embeddings.OneAttempts | src/indexer/embeddings/embedding_generator.py:44-47 | the attempts of the retried `generate_embedding` on one text |
| Embeddings.Embedding | src/indexer/embeddings/embedding_generator.py:44-72 | `generate_embedding`: clean the text, then up to three attempts; a `RetryError` when all fail |
| Embeddings.Single | src/indexer/embeddings/embedding_generator.py:128-135 | one text's fallback: its own embedding, or the zero vector |
| Embeddings.BatchVectors | src/indexer/embeddings/embedding_generator.py:105-135 | one batch: the batch call's vectors, or one fallback vector per text |
| Embeddings.EmbedFrom | src/indexer/embeddings/embedding_generator.py:100-135 | the vectors of batches `i` onwards, in order |
| Embeddings.Embeddings | src/indexer/embeddings/embedding_generator.py:74-138 | the result of `generate_embeddings_batch` |
| Embeddings.ItemVector | src/indexer/embeddings/embedding_generator.py:113-135 | an independent account of text `k`'s vector: its place in its batch's answer, or its own fallback |
| Embeddings.VectorId | src/indexer/embeddings/embedding_generator.py:191 | `f"{doc_id}_{chunk_index}"` |
| Embeddings.Truncated | src/indexer/embeddings/embedding_generator.py:179-181 | `v[:n]` on a list or a string |
| Embeddings.JoinedPrefix | src/indexer/embeddings/embedding_generator.py:179-181 | `sep.join(v[:n])`, or nothing where it raises |
| Embeddings.ScalarEntries | src/indexer/embeddings/embedding_generator.py:184-187 | the chunk's metadata entries whose values are `str`, `int`, `float` or `bool` |
| Embeddings.VectorMetadata | src/indexer/embeddings/embedding_generator.py:165-188 | the record metadata, or nothing when a list field cannot be sliced or joined |
| Embeddings.RecordFor | src/indexer/embeddings/embedding_generator.py:233-257 | the record for one chunk and its vector: id, values, metadata |
| Embeddings.EmbeddingText | src/indexer/embeddings/embedding_generator.py:156-159 | the enhanced text when asked for, else the chunk's own |
| Embeddings.CollectUpTo | src/indexer/embeddings/embedding_generator.py:232-257 | the loop's records so far, or nothing once one fails |
| Embeddings.Records | src/indexer/embeddings/embedding_generator.py:232-260 | the records of `create_vectors_batch`, or nothing when one cannot be built |
| Retry.RetryFrom | src/indexer/embeddings/embedding_generator.py:44-47 | attempts `k` to `limit`: the first success, or a `RetryError` wrapping the last failure |
| Retry.Retried | src/indexer/embeddings/embedding_generator.py:44-47 | `@retry(stop=stop_after_attempt(3))`: attempts 0 to 2 |
| Retry.RetryError | src/indexer/embeddings/embedding_generator.py:44-47 | the error raised once the attempts run out wraps the last attempt's error, which can be read back from it |
| VectorStore.Slice | src/indexer/vectorstore/pinecone_client.py:116 | `vectors[i : i + batch_size]` for `i = k * batch_size` |
| VectorStore.Flatten | src/indexer/vectorstore/pinecone_client.py:115-117 | the slices laid end to end |
| VectorStore.Counted | src/indexer/vectorstore/pinecone_client.py:113-126 | the running `total_upserted`: the first failure ends it, otherwise the counts add up |
| Values.Truthy | pipeline.py:561 | Python truthiness: empty strings and containers, zero, `False` and `None` are false |
| Values.IsScalar | src/indexer/embeddings/embedding_generator.py:186 | `isinstance(v, (str, int, float, bool))` |
| Indexer.TotalTokens | src/indexer/main_indexer.py:190 | `sum(c.token_count for c in chunks)` |
| Indexer.EmbeddingTexts | src/indexer/embeddings/embedding_generator.py:218-221 | the texts `create_vectors_batch` embeds, one per enriched chunk |
| Indexer.SumChunks | src/indexer/main_indexer.py:265 | `total_chunks`: the chunks of the successful documents, added up |
| Indexer.SumVectors | src/indexer/main_indexer.py:266 | `total_vectors`: the vectors upserted for the successful documents, added up |
| Indexer.Successes | src/indexer/main_indexer.py:264 | `successful`: the number of successful documents |
| Indexer.Failures | src/indexer/main_indexer.py:268-273 | the `errors` list: `{doc_id, error}` for each failing document, in order |
| Indexer.Step | src/indexer/main_indexer.py:255-273 | one loop turn on the statistics: a success counts and adds its chunks and vectors; a failure counts and adds its error entry |
| Indexer.Tally | src/indexer/main_indexer.py:244-273 | the statistics after the loop, starting from `total_documents` and zeros |
| Indexer.Concat | src/indexer/main_indexer.py:254 | what the run's documents sent or wrote, in order |
| Indexer.DocumentIndexer.Valid | src/indexer/main_indexer.py:35-89 | the configured chunker can run and the default template is loaded |
| Indexer.DocumentIndexer.NotFound | src/indexer/main_indexer.py:116 | the message `Documento {doc_id} não encontrado` |
| Indexer.DocumentIndexer.EmptyField | src/indexer/main_indexer.py:120 | the message `Campo '{text_field}' vazio ou não encontrado` |
| Indexer.DocumentIndexer.Summary | src/indexer/main_indexer.py:125-128 | `doc_context`: the document summary with the LLM, else `None` |
| Indexer.DocumentIndexer.Chunked | src/indexer/main_indexer.py:131-136 | the chunks of the text, with `str(doc_id)` and the document's other fields as metadata |
| Indexer.DocumentIndexer.Vectors | src/indexer/main_indexer.py:164-168 | `create_vectors_batch`, with the enhanced texts exactly when the LLM is used |
| Indexer.DocumentIndexer.Prepare | src/indexer/main_indexer.py:114-168 | steps 1 to 5: fetch, check the text, summarise, chunk, enrich, build the vectors |
| Indexer.DocumentIndexer.ErrorUpdate | src/indexer/main_indexer.py:200-203 | the `error` status update, without a time |
| Indexer.DocumentIndexer.IndexedUpdate | src/indexer/main_indexer.py:180-184 | the `indexed` status update, with the time |
| Indexer.DocumentIndexer.Finish | src/indexer/main_indexer.py:170-204 | steps 6 and 7 and the `except` branch, given what steps 1 to 5 produced |
| Indexer.DocumentIndexer.IndexOutcome | src/indexer/main_indexer.py:91-204 | `index_document` as a whole: its result, status updates and upserted batches |
| Oracle.Condition | src/indexer/database/oracle_client.py:77 | `f"{key} = :{key}"` |
| Oracle.ConditionKey | src/indexer/database/oracle_client.py:77 | the key a condition was written for |
| Oracle.WhereClause | src/indexer/database/oracle_client.py:76-78 | ` WHERE ` and the conditions joined by ` AND `, or nothing without filters |
| Oracle.Paged | src/indexer/database/oracle_client.py:83 | `if limit:`: `None` and `0` mean no paging |
| Oracle.Paging | src/indexer/database/oracle_client.py:83-84 | the `OFFSET … ROWS FETCH NEXT … ROWS ONLY` clause, when paged |
| Oracle.FetchSql | src/indexer/database/oracle_client.py:73-84 | the query text of `fetch_documents` |
| Oracle.CountSql | src/indexer/database/oracle_client.py:191-195 | the query text of `count_documents` |
| Oracle.ByIdSql | src/indexer/database/oracle_client.py:121 | the query text of `fetch_document_by_id` |
| Oracle.UpdateHead | src/indexer/database/oracle_client.py:159 | the head of the update statement |
| Oracle.UpdateSql | src/indexer/database/oracle_client.py:159-166 | the update statement, with `indexed_at` exactly when it is truthy |
| Oracle.UpdateParams | src/indexer/database/oracle_client.py:160-164 | the update's bind parameters: status and id, plus `indexed_at` when truthy |
| Oracle.ZipPairs | src/indexer/database/oracle_client.py:101 | the first `n` pairs of `zip` as a dictionary, a later equal key winning |
| Oracle.ZipDict | src/indexer/database/oracle_client.py:133 | `dict(zip(columns, row))` |
| Oracle.FilterParams | src/indexer/database/oracle_client.py:90-93 | the filters as bind parameters, or none when they are empty |
| Oracle.RowRecord | src/indexer/database/oracle_client.py:132-133 | one row as a document: lowercased column names to the row's values |
| Pipeline.FullChunkId | pipeline.py:235 | `f"{doc_id}-c{str(i).zfill(5)}"` before the cut to 128 characters |
| Pipeline.NoBackslash | pipeline.py:285 | the path holds no `\` |
| Pipeline.Usable | pipeline.py:87-91 | every Windows prefix in the mapping table is non-empty |
| Pipeline.Matches | pipeline.py:288 | the path starts with mapping `k`'s slashed Windows prefix |
| Pipeline.MapFrom | pipeline.py:287-291 | the mapping loop from mapping `k` on: the first match is replaced once, else the path is returned as it is |
| Pipeline.ConvertPath | pipeline.py:280-291 | `converte_path_to_linux`: slashes normalised, then the mapping loop |
| Pipeline.FileExtension | pipeline.py:633 | `os.path.splitext(path)[1].lstrip(".").lower()` |
| Pipeline.Entry | pipeline.py:199-203 | one list row: the name, and the type and sector or `N/A` |
| Pipeline.EntryLines | pipeline.py:664-667 | the four lines written for one document |
| Pipeline.ListLines | pipeline.py:662-667 | the title, then each document's four lines |
| TextCleaning.Comparison | pipeline.py:315-316 | the lines a page is compared with: the next page's until something has matched, then the previous page's |
| TextCleaning.ScanTo | pipeline.py:311-350 | `prev_lines` and `prim_cab` before page `k` |
| TextCleaning.PageText | pipeline.py:345 | `"\n".join(linhas).strip()` |
| TextCleaning.Cleaned | pipeline.py:343-348 | page `i` rebuilt from its lines between header and footer, with its metadata |
| TextCleaning.TrimmedFrom | pipeline.py:319-348 | a page is its source page with at most 15 lines dropped at each end, rejoined and stripped, its metadata kept |
| TextCleaning.EndsStrong | pipeline.py:376 | `re.search(r'[.!?;:]\s*$', anterior)` finds a match |
| TextCleaning.Joins | pipeline.py:376 | the previous line is non-empty and not ending in strong punctuation, and the line starts lowercase |
| TextCleaning.Merge | pipeline.py:377-380 | a trailing hyphen is dropped and the lines run together; otherwise they are joined with one space |
| TextCleaning.AddLine | pipeline.py:369-383 | one turn of the line loop: merge into the last line, or append |
| TextCleaning.MergedLines | pipeline.py:365-383 | the page's lines after the line loop |
| TextCleaning.AdjustedPage | pipeline.py:363-388 | one page after `ajustar_quebras_linha`: the merged lines joined with `\n`, the metadata kept |
| TextCleaning.Trimmed | pipeline.py:369 | a line neither starts nor ends with whitespace |
| PipelineRun.OkRecord | pipeline.py:578 | the OK row: RAG id, chunk count, status `OK`, no error |
| PipelineRun.WarnRecord | pipeline.py:512 | the WARN row: status `WARN` and its text |
| PipelineRun.ErrorRecord | pipeline.py:643-647 | the ERRO row: status `ERRO` and its text |
| PipelineRun.HasDocument | pipeline.py:110 | the table has a row for the document code |
| PipelineRun.KeysUnique | pipeline.py:110 | `cd_documento` is the primary key: no two rows share it |
| PipelineRun.Logged | pipeline.py:211-227 | a row that may be absent is written when present |
| PipelineRun.SendTable.Valid | pipeline.py:106-115 | the table's rows keep their keys unique |
| PipelineRun.DimensionError | pipeline.py:548-551 | the message of the dimension check |
| PipelineRun.ReadWith | pipeline.py:499 | `loader.load()` on the file |
| PipelineRun.Load | pipeline.py:487-499 | step 1: the loader by extension, a `.doc` converted to PDF first |
| PipelineRun.CleanedPages | pipeline.py:502-503 | header and footer removal, then line-break joining |
| PipelineRun.Chunked | pipeline.py:487-508 | the file's chunks: loaded, cleaned and split |
| PipelineRun.PageOf | pipeline.py:561 | `metadata.get("page") or 0` |
| PipelineRun.SetoresValue | pipeline.py:560 | the stripped sectors as a list value |
| PipelineRun.Metadata | pipeline.py:557-563 | one vector's metadata: doc id, source, sectors, page, text |
| PipelineRun.VectorAt | pipeline.py:556-564 | vector `i`: `chunk_id(doc_id, i)`, embedding `i`, chunk `i`'s metadata |
| PipelineRun.Assembled | pipeline.py:554-564 | step 4: one vector per embedding; an embedding without a chunk raises on `docs[i]` |
| PipelineRun.Vectors | pipeline.py:545-564 | steps 3 and 4: embed, check the first vector's length, assemble |
| PipelineRun.Sending | pipeline.py:568-579 | step 5: the batches in order until one raises, then the OK row with the vector count |
| PipelineRun.UpsertOutcome | pipeline.py:469-579 | `upsert_pdf`: its batches, its row and what it raises; no chunks give the WARN row with the literal `{file_path}` text |
| PipelineRun.DocumentOutcome | pipeline.py:631-641 | the `upsert_pdf` call `_process_document` makes for one document |
| PipelineRun.AfterDocument | pipeline.py:630-647 | the table after one document: the upsert's row, and an ERRO row `name: error` when it raised |
| PipelineRun.Settled | pipeline.py:469-579 | an upsert leaves a row for its document exactly when it does not raise |
| PipelineRun.RunBatches | pipeline.py:611-612 | the batches sent over a run, in order |
| PipelineRun.RunRows | pipeline.py:611-612 | the table after each document was processed in turn |
| PipelineRun.ListOutcome | pipeline.py:676-683 | the `upsert_pdf` call for `Lista_Documentos.md` |
| PipelineRun.AfterList | pipeline.py:675-685 | the table after the list was sent: an error is recorded as its bare text |
| PipelineRun.RagPipeline.Progressed | pipeline.py:611-612 | the loop invariant of `run`: the first `i` documents were processed |
| Strs.OccursAt | src/indexer/chunking/text_chunker.py:217 | `sub` occurs in `s` at position `i` |
| Strs.Contains | src/indexer/chunking/text_chunker.py:172 | `sub in s`, the property that no piece of `split(sep)` has |
| Strs.IsSpace | src/indexer/chunking/text_chunker.py:127 | the whitespace set of `str.isspace`, which `strip()`, `split()` and `\s` use |
| Strs.IsLineBreak | pipeline.py:312 | the characters at which `splitlines()` breaks |
| Strs.IsLower | pipeline.py:376 | `str.islower` on one character |
| Strs.LowerChar | pipeline.py:633 | `str.lower` on one character: `A`–`Z` become lowercase, characters outside the mapped ranges are kept |
| Strs.Lower | pipeline.py:633 | `str.lower` maps each character on its own and keeps the length |
| Strs.IsDigit | pipeline.py:235 | a decimal digit |
| Strs.NoSpace | src/indexer/chunking/text_chunker.py:284 | a text without whitespace, as each word of `split()` is |
| Strs.AllSpace | src/indexer/chunking/text_chunker.py:213 | a text that strips to nothing |
| Strs.FirstNonSpace | src/indexer/chunking/text_chunker.py:127 | the first non-whitespace position from `i`, everything before it whitespace |
| Strs.EndNonSpace | src/indexer/chunking/text_chunker.py:127 | the end of a slice once its trailing whitespace is dropped, everything after it whitespace |
| Strs.StripStart | src/indexer/chunking/text_chunker.py:127 | where `strip()` starts |
| Strs.StripEnd | src/indexer/chunking/text_chunker.py:127 | where `strip()` ends, never before it starts |
| Strs.LStrip | pipeline.py:633 | `lstrip()`: a suffix of the text that does not start with whitespace |
| Strs.Strip | src/indexer/chunking/text_chunker.py:127 | `strip()`: the text between the first and the last non-whitespace character |
| Strs.StartsWith | pipeline.py:288 | `str.startswith` |
| Strs.EndsWith | pipeline.py:377 | `str.endswith` |
| Strs.Join | src/indexer/chunking/text_chunker.py:183 | `sep.join(parts)` |
| Strs.JoinCons | src/indexer/chunking/text_chunker.py:183 | a first part joined to a non-empty run is followed by one separator |
| Strs.JoinAppend | src/indexer/chunking/text_chunker.py:183 | joining two non-empty runs puts one separator between their joins |
| Strs.JoinSplitAt | src/indexer/chunking/text_chunker.py:183 | cutting the parts at `m` cuts their join at one separator |
| Strs.JoinPrefixOccurs | src/indexer/chunking/text_chunker.py:183 | the join of the first `m` parts starts the join of all of them |
| Strs.FindExtends | src/indexer/chunking/text_chunker.py:217 | appending text does not change the first occurrence |
| Strs.Split | src/indexer/chunking/text_chunker.py:172 | `text.split(sep)` for a non-empty separator, at least one piece |
| Strs.WordEnd | src/indexer/chunking/text_chunker.py:284 | where the word starting at `i` ends |
| Strs.WordsFrom | src/indexer/chunking/text_chunker.py:284 | `split()`: non-empty words without whitespace |
| Strs.LineEnd | pipeline.py:312 | where the line starting at `i` ends |
| Strs.SplitLines | pipeline.py:312 | `splitlines()`: no more lines than characters, and none exactly for the empty text |
| Strs.NoLineBreak | pipeline.py:312 | a line holds no line break |
| Strs.ReplaceChar | pipeline.py:285 | `s.replace(a, b)` for single characters: each `a` becomes `b`, the length kept |
| Strs.DigitChar | pipeline.py:235 | the digit character of a value below 10 |
| Strs.DigitValue | pipeline.py:235 | the value of a digit character |
| Strs.AllDigits | pipeline.py:235 | a text of decimal digits |
| Strs.DigitsValue | pipeline.py:235 | the number a digit string denotes |
| Strs.NatToString | pipeline.py:235 | `str(n)`: non-empty digits, one digit exactly below 10 |
| Strs.IntToString | pipeline.py:235 | `str(i)`: never empty |
| Strs.NatToStringInjective | pipeline.py:235 | equal decimal texts mean equal numbers |
| Strs.IntToStringSign | pipeline.py:235 | `str(i)` starts with `-` exactly when `i` is negative |
| Strs.Zeros | pipeline.py:235 | `n` zeros |
| Strs.ZFill | pipeline.py:235 | `zfill(width)`: the text padded to `width`, or kept when longer |
| Strs.LeadingZerosValue | pipeline.py:235 | leading zeros do not change a digit string's value |
| Strs.ZerosValue | pipeline.py:235 | a string of zeros denotes 0 |
| Strs.Take | src/indexer/embeddings/embedding_generator.py:174 | `s[:n]`: the first `min(len, n)` characters |

## Left out

- Network and database I/O are not modelled. The LLM providers, the embedding service, Oracle, the Pinecone index and the SQLAlchemy session are parameters that answer or fail. Connection pools, cursors, index creation and readiness waits, and `_ensure_namespace_exists` (with its dummy vector) are left out.
- Foreign algorithms are uninterpreted parameters:
  - tiktoken's `count_tokens`;
  - the `difflib` ratio behind `linhas_similares`, as a boolean `similar`;
  - the `eval`/`json.loads` parsing of LLM replies;
  - the langchain loaders and `RecursiveCharacterTextSplitter`;
  - the LibreOffice conversion in `convert_doc_to_pdf`.
- Retry.CallWithRetry: the exponential back-off sleeps between attempts are not modelled; only the attempt bound and the order of attempts are.
- Timestamps (`datetime.now().isoformat()`) are given by a clock parameter, one value per document. The tracking table's send time is not stored.
- Embedding vectors are opaque sequences of reals; only their number and the zero fill matter. `generate_query_embedding` is `generate_embedding` (`Embeddings.Embedding`) and has no member of its own.
- Logging (`logger`, `gerar_log`), progress bars, writing `Lista_Documentos.md` to disk, and `_cleanup_temporary_files` are not modelled.
- The CLI, the demo scripts, configuration loading, `search`, `delete_document`, `get_stats`, `close`, and the client methods `query`, `delete_by_*` and `fetch_vectors` are outside this model. `upsert_vectors` is the `upsert` parameter.
- `DBManager.buscar_documentos_para_processar` and `buscar_lista_documentos` are not modelled. The first produces the document rows (paths already converted); the second produces the list rows, and it returns `[]` on its own errors. Both are inputs of `RagPipeline.Run`.
- PipelineRun.Recorded: the model assumes the database table enforces the ORM's primary key on `cd_documento` (pipeline.py:110), so a re-sent document's row is dropped. Against a table created without that key, every send would be kept as a history row, which is how the queries at pipeline.py:133-135 read the table. That case is not modelled.
- PipelineRun.SendTable.Record: only the `IntegrityError` of a duplicate document code is modelled (the row is dropped). Other database errors are not.
- PipelineRun.RagPipeline.ProcessDocument: a row missing one of the keys it reads (a `KeyError`) is not modelled. Document rows are a datatype with those fields.
- The `delete_before` step of `upsert_pdf` is commented out in the source and is not modelled.
- TextChunking.ChunkDocument: with the fixed-size strategy it requires `chunk_size >= 1` (any `chunk_overlap`), so every `chunk_size <= 0` is excluded. Among those, the loop never ends when `chunk_overlap >= chunk_size` (for example 0 and 0 stay at position 0). When `chunk_overlap < chunk_size` it does end, but its `rfind` and slice bounds fall below `start` and, being negative, count from the end of the text (`chunk_size` 0 with `chunk_overlap` -1 on `"ab"` gives no chunk; `chunk_size` -1 with `chunk_overlap` -5 on `"abcdef"` gives `"abcde"` with `end_char` -1); those terminating settings are not modelled either. The unknown-strategy `ValueError` cannot arise, since the strategy is a closed datatype.
- FixedChunking.ChunkFixedSize: requires `chunk_size >= 1`, for the same reason. With `chunk_size >= 1` every window ends after its start, so the loop ends for every `chunk_overlap`.
- `chunk_overlap < chunk_size` is not required, matching the configuration, which does not enforce it.
- Strs.Lower: `str.lower` and `str.islower` are modelled for ASCII and Latin-1 only. Other Unicode case mappings are not.
- Strs.IsSpace is the `str.isspace` set, which `strip()`, `split()` and the regular expression `\s` share. The regex `\s` class and the splitting are modelled directly, not by a regex engine.
- Indexer.DocumentIndexer.Build: a text field that is present but not a string fails with a fixed message. The Python `TypeError` text is not modelled.
- Embeddings.EmbeddingsPerText: requires that a successful batch call answers one vector per text, which the source assumes without checking.
- Pipeline.SplitExt: `os.path.splitext` is modelled for `/`-separated paths, since the paths are converted to Linux form first.
- Embeddings.BuildRecords: any metadata field that cannot be sliced and joined fails with one fixed message. Python's message differs by case: a non-string list entry gives `sequence item 0: expected str instance, int found` (with the item's index and type); a dict field gives `unhashable type: 'slice'`; a number, boolean or `None` field gives `'int' object is not subscriptable` (or the like). The same fixed message is what Embeddings.VectorForEnrichedChunk fails with.
- Retry.RetryError: the text of tenacity's `RetryError` is `RetryError[<Future at 0x… state=finished raised E>]`; the model writes it as `RetryError[` + the last attempt's error + `]`, leaving out the object address and the exception class.
- Python's `str()` on non-string values (ids in messages, list items in f-strings) is a parameter `show`.
- Values.Value: a `VDict` carries its keys in insertion order beside its map, as the JSON parser builds it; that both hold the same keys, each once, is not enforced, because the parser is not part of this model.

## Findings

| source | as written | input that shows it | evidently intended | confidence | as-written member | corrected member |
|---|---|---|---|---|---|---|
| pipeline.py:512 | the WARN row's `ds_erro` is a plain string `'Sem texto extraído de: {file_path}'`, not an f-string, so it holds the literal text `{file_path}` | any two files whose splitter yields no chunks, e.g. `/mnt/APPS/a.pdf` and `/mnt/APPS/b.pdf`: both rows read the same and name neither file | the path interpolated, as the log line at pipeline.py:513 does | high; not executed | Pipeline.NoTextErrorAsWritten (with Pipeline.NoTextErrorAsWrittenLosesPath) | Pipeline.NoTextError (with Pipeline.NoTextErrorNamesFile) |

