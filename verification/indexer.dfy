/** `DocumentIndexer`: fetches a document from Oracle, chunks it, enriches
    each chunk with the model (or wraps it bare), embeds the chunks, upserts
    the vectors in batches of 100 and records the outcome in the document's
    status column; `index_all_documents` runs this over every fetched
    document and tallies the results.

    The collaborators are the indexer's fields and never change: the
    database (`execute`, answering each statement), the chunker settings,
    the context generator, the embedder and the vector index (`upsert`).
    What the indexer changes are the two logs it leaves behind: the status
    updates sent to the database and the batches sent to the index. */
module Indexer {
  import opened Wrappers
  import opened Values
  import opened Chunks
  import TextChunking
  import Enrichment
  import Embeddings
  import VectorStore
  import Oracle

  /** What `index_document` returns. */
  datatype DocStats = DocStats(
    docId: Value,
    chunks: nat,
    vectorsUpserted: nat,
    totalTokens: int,
    useLlmContext: bool)

  /** One entry of the run's `errors` list. */
  datatype DocError = DocError(docId: Value, error: string)

  /** What `index_all_documents` returns. */
  datatype RunStats = RunStats(
    totalDocuments: nat,
    successful: nat,
    failed: nat,
    totalChunks: nat,
    totalVectors: nat,
    errors: seq<DocError>)

  /** An `UPDATE` sent to the database: the statement and its parameters. */
  datatype StatusUpdate = StatusUpdate(statement: string, params: Record)

  /** What was worked out for one document before anything is written. */
  datatype Work = Work(
    document: Record,
    text: string,
    chunks: seq<Chunk>,
    enriched: seq<Enrichment.EnrichedChunk>,
    vectors: seq<Embeddings.VectorRecord>)

  /** Everything one call of `index_document` yields: its result, the
      status updates it sends and the batches it hands to the index. */
  datatype Outcome = Outcome(
    result: Result<DocStats, string>,
    updates: seq<StatusUpdate>,
    sent: seq<seq<Embeddings.VectorRecord>>)

  /** The error for a text that is present but not a string (the chunker
      cannot measure it). */
  const NotText := "document text is not a string"

  /** The template every chunk is enriched with. */
  const Template := "default"

  /** The upsert batch size `index_document` asks for. */
  const UpsertBatchSize: nat := 100

  /** The summary length `generate_document_summary` is called with. */
  const SummaryLength := 500

  /** `sum(c.token_count for c in chunks)`. */
  function TotalTokens(chunks: seq<Chunk>): int {
    if chunks == [] then 0 else TotalTokens(chunks[..|chunks| - 1]) + chunks[|chunks| - 1].tokenCount
  }

  /** The enriched chunk built without the model: empty summary, topic and
      lists, and the chunk's own text as the enhanced text. */
  function Bare(chunk: Chunk): (r: Enrichment.EnrichedChunk)
    ensures r.original == chunk && r.enhancedText == chunk.text
    ensures r.summary == VStr("") && r.topic == VStr("")
    ensures r.keyConcepts == VList([]) && r.keywords == VList([]) && r.questions == VList([])
  {
    Enrichment.EnrichedChunk(chunk, VStr(""), VList([]), VList([]), VStr(""), VList([]), chunk.text)
  }

  /** The texts `create_vectors_batch` embeds. */
  function EmbeddingTexts(ecs: seq<Enrichment.EnrichedChunk>, useEnhancedText: bool): seq<string> {
    seq(|ecs|, i requires 0 <= i < |ecs| => Embeddings.EmbeddingText(ecs[i], useEnhancedText))
  }

  function SumChunks(results: seq<Result<DocStats, string>>): nat {
    if results == [] then 0
    else SumChunks(results[..|results| - 1])
         + (if results[|results| - 1].Success? then results[|results| - 1].value.chunks else 0)
  }

  function SumVectors(results: seq<Result<DocStats, string>>): nat {
    if results == [] then 0
    else SumVectors(results[..|results| - 1])
         + (if results[|results| - 1].Success? then results[|results| - 1].value.vectorsUpserted else 0)
  }

  function Successes(results: seq<Result<DocStats, string>>): nat {
    if results == [] then 0
    else Successes(results[..|results| - 1]) + (if results[|results| - 1].Success? then 1 else 0)
  }

  /** The failures in processing order, each with its document's id. */
  function Failures(ids: seq<Value>, results: seq<Result<DocStats, string>>): seq<DocError>
    requires |ids| == |results|
  {
    if results == [] then []
    else
      var n := |results| - 1;
      Failures(ids[..n], results[..n])
      + (if results[n].Failure? then [DocError(ids[n], results[n].error)] else [])
  }

  /** One turn of the document loop: a success adds one to `successful`
      and its chunks and vectors to the totals; a failure adds one to
      `failed` and its entry to `errors`. */
  function Step(before: RunStats, id: Value, result: Result<DocStats, string>): RunStats {
    match result
    case Success(s) =>
      before.(successful := before.successful + 1,
              totalChunks := before.totalChunks + s.chunks,
              totalVectors := before.totalVectors + s.vectorsUpserted)
    case Failure(e) =>
      before.(failed := before.failed + 1, errors := before.errors + [DocError(id, e)])
  }

  /** The statistics the run accumulates, one document after another. */
  function Tally(total: nat, ids: seq<Value>, results: seq<Result<DocStats, string>>): RunStats
    requires |ids| == |results|
  {
    if results == [] then RunStats(total, 0, 0, 0, 0, [])
    else
      var n := |results| - 1;
      Step(Tally(total, ids[..n], results[..n]), ids[n], results[n])
  }

  lemma TallyStep(total: nat, ids: seq<Value>, results: seq<Result<DocStats, string>>, k: nat)
    requires |ids| == |results| && k < |results|
    ensures Tally(total, ids[..k + 1], results[..k + 1]) == Step(Tally(total, ids[..k], results[..k]), ids[k], results[k])
  {
    assert ids[..k + 1][..k] == ids[..k] && results[..k + 1][..k] == results[..k];
  }

  /** Every document is counted once, as a success or as a failure, and a
      failure does not stop the count; the errors are exactly the failures
      in processing order; the totals add up the successful documents
      only. */
  lemma {:induction false} TallyCounts(total: nat, ids: seq<Value>, results: seq<Result<DocStats, string>>)
    requires |ids| == |results|
    ensures Tally(total, ids, results).totalDocuments == total
    ensures Tally(total, ids, results).successful + Tally(total, ids, results).failed == |results|
    ensures Tally(total, ids, results).successful == Successes(results)
    ensures Tally(total, ids, results).errors == Failures(ids, results)
    ensures |Tally(total, ids, results).errors| == Tally(total, ids, results).failed
    ensures Tally(total, ids, results).totalChunks == SumChunks(results)
    ensures Tally(total, ids, results).totalVectors == SumVectors(results)
  {
    if results != [] {
      var n := |results| - 1;
      TallyCounts(total, ids[..n], results[..n]);
    }
  }

  /** A failing document leaves its entry in `errors`: every failure is
      reported with its own id and message, and every entry reports one. */
  lemma {:induction false} FailuresReported(ids: seq<Value>, results: seq<Result<DocStats, string>>)
    requires |ids| == |results|
    ensures forall k :: 0 <= k < |results| && results[k].Failure? ==>
      DocError(ids[k], results[k].error) in Failures(ids, results)
    ensures forall e :: e in Failures(ids, results) ==>
      exists k :: 0 <= k < |results| && results[k].Failure? && e == DocError(ids[k], results[k].error)
  {
    if results != [] {
      var n := |results| - 1;
      FailuresReported(ids[..n], results[..n]);
      forall e | e in Failures(ids, results)
        ensures exists k :: 0 <= k < |results| && results[k].Failure? && e == DocError(ids[k], results[k].error)
      {
        if e in Failures(ids[..n], results[..n]) {
          var k :| 0 <= k < n && results[..n][k].Failure? && e == DocError(ids[..n][k], results[..n][k].error);
          assert results[k] == results[..n][k] && ids[k] == ids[..n][k];
        } else {
          assert e == DocError(ids[n], results[n].error);
        }
      }
    }
  }

  /** `flatten`: what a run of documents sent, in order. */
  function Concat<T>(parts: seq<seq<T>>): seq<T> {
    if parts == [] then [] else Concat(parts[..|parts| - 1]) + parts[|parts| - 1]
  }

  lemma ConcatStep<T>(parts: seq<seq<T>>, k: nat)
    requires k < |parts|
    ensures Concat(parts[..k + 1]) == Concat(parts[..k]) + parts[k]
  {
    assert parts[..k + 1][..|parts[..k + 1]| - 1] == parts[..k];
  }

  lemma AppendAssoc<T>(a: seq<T>, b: seq<T>, c: seq<T>)
    ensures (a + b) + c == a + (b + c)
  {
  }

  function Results(os: seq<Outcome>): (r: seq<Result<DocStats, string>>)
    ensures |r| == |os|
  {
    seq(|os|, k requires 0 <= k < |os| => os[k].result)
  }

  function Updates(os: seq<Outcome>): (r: seq<seq<StatusUpdate>>)
    ensures |r| == |os|
  {
    seq(|os|, k requires 0 <= k < |os| => os[k].updates)
  }

  function Sends(os: seq<Outcome>): (r: seq<seq<seq<Embeddings.VectorRecord>>>)
    ensures |r| == |os|
  {
    seq(|os|, k requires 0 <= k < |os| => os[k].sent)
  }

  class DocumentIndexer {
    const execute: Oracle.Execute
    const table: string
    const chunker: Chunker
    const useLlmContext: bool
    const generator: Enrichment.Generator
    const embedder: Embeddings.Embedder
    const upsert: (seq<Embeddings.VectorRecord>, string) -> Result<nat, string>
    /** `str(doc_id)`. */
    const show: Value -> string

    /** The status updates sent to the database so far, in order. */
    var statusUpdates: seq<StatusUpdate>
    /** The batches handed to the vector index so far, in order. */
    var upserted: seq<seq<Embeddings.VectorRecord>>

    /** The chunker can run and the generator has its default template. */
    predicate Valid() {
      TextChunking.Usable(chunker) && Template in generator.prompts
    }

    constructor(execute: Oracle.Execute, table: string, chunker: Chunker, useLlmContext: bool,
                generator: Enrichment.Generator, embedder: Embeddings.Embedder,
                upsert: (seq<Embeddings.VectorRecord>, string) -> Result<nat, string>, show: Value -> string)
      requires TextChunking.Usable(chunker) && Template in generator.prompts
      ensures Valid()
      ensures this.execute == execute && this.table == table && this.chunker == chunker
      ensures this.useLlmContext == useLlmContext && this.generator == generator
      ensures this.embedder == embedder && this.upsert == upsert && this.show == show
      ensures statusUpdates == [] && upserted == []
    {
      this.execute := execute;
      this.table := table;
      this.chunker := chunker;
      this.useLlmContext := useLlmContext;
      this.generator := generator;
      this.embedder := embedder;
      this.upsert := upsert;
      this.show := show;
      statusUpdates := [];
      upserted := [];
    }

    function NotFound(docId: Value): string {
      "Documento " + Enrichment.Shown(show, docId) + " não encontrado"
    }

    function EmptyField(textField: string): string {
      "Campo '" + textField + "' vazio ou não encontrado"
    }

    /** `document.get(text_field, "")`, which must be a non-empty string. */
    function DocumentText(document: Record, textField: string): (r: Result<string, string>)
      ensures r.Success? <==> Get(document, textField, VStr("")).VStr? && Get(document, textField, VStr("")).s != ""
      ensures r.Success? ==> textField in document && document[textField] == VStr(r.value)
      ensures !Truthy(Get(document, textField, VStr(""))) ==> r == Failure(EmptyField(textField))
    {
      var v := Get(document, textField, VStr(""));
      if !Truthy(v) then Failure(EmptyField(textField))
      else if v.VStr? then Success(v.s)
      else Failure(NotText)
    }

    /** `fetch_document_by_id`, then the check that something was found:
        a missing row, or a row that reads as an empty dict, is "not
        found". */
    function Located(docId: Value): (r: Result<Record, string>)
      ensures Oracle.FetchDocumentById(execute, table, docId).Failure? ==>
        r == Failure(Oracle.FetchDocumentById(execute, table, docId).error)
      ensures Oracle.FetchDocumentById(execute, table, docId) == Success(None) ==> r == Failure(NotFound(docId))
      ensures r.Success? <==> (Oracle.FetchDocumentById(execute, table, docId).Success?
                               && Oracle.FetchDocumentById(execute, table, docId).value.Some?
                               && Oracle.FetchDocumentById(execute, table, docId).value.value != map[])
      ensures r.Success? ==> Oracle.FetchDocumentById(execute, table, docId).value.value == r.value
    {
      match Oracle.FetchDocumentById(execute, table, docId)
      case Failure(e) => Failure(e)
      case Success(found) =>
        if found.None? || found.value == map[] then Failure(NotFound(docId)) else Success(found.value)
    }

    /** The document context: one summary of the whole text, made only when
        the model is used. */
    function Summary(text: string): Option<string> {
      if useLlmContext then Some(Enrichment.DocumentSummary(generator, text, SummaryLength)) else None
    }

    /** The chunks, with the document's id as a string and the document's
        other fields as metadata. */
    function Chunked(document: Record, text: string, docId: Value, textField: string): seq<Chunk>
      requires Valid()
    {
      TextChunking.DocumentChunks(chunker, text, Enrichment.Shown(show, docId), Some(Without(document, textField)))
    }

    /** The enriched chunks: by the model, every chunk with the same
        document context, or bare. */
    function Enriched(chunks: seq<Chunk>, docContext: Option<string>): (r: seq<Enrichment.EnrichedChunk>)
      requires Valid()
      ensures |r| == |chunks|
    {
      if useLlmContext then
        seq(|chunks|, i requires 0 <= i < |chunks| => Enrichment.Enrich(generator, chunks[i], docContext, Template))
      else
        seq(|chunks|, i requires 0 <= i < |chunks| => Bare(chunks[i]))
    }

    /** `create_vectors_batch`, embedding the enhanced texts exactly when
        the model is used. */
    function Vectors(enriched: seq<Enrichment.EnrichedChunk>): Result<seq<Embeddings.VectorRecord>, string> {
      match Embeddings.Records(enriched, Embeddings.Embeddings(embedder, EmbeddingTexts(enriched, useLlmContext), 100))
      case None => Failure(Embeddings.MetadataError)
      case Some(vectors) => Success(vectors)
    }

    /** Steps 2 to 5 of `index_document` for a found document and its
        text: summarise, chunk, enrich, build the vector records. */
    function Build(document: Record, text: string, docId: Value, textField: string): (r: Result<Work, string>)
      requires Valid()
      ensures r.Success? ==>
        r.value.document == document && r.value.text == text
        && r.value.chunks == Chunked(document, text, docId, textField)
        && r.value.enriched == Enriched(r.value.chunks, Summary(text))
    {
      var chunks := Chunked(document, text, docId, textField);
      var enriched := Enriched(chunks, Summary(text));
      match Vectors(enriched)
      case Failure(e) => Failure(e)
      case Success(vectors) => Success(Work(document, text, chunks, enriched, vectors))
    }

    /** Steps 1 to 5 of `index_document`: fetch, check the text, summarise
        (with the model), chunk, enrich and build the vector records. */
    function Prepare(docId: Value, textField: string): Result<Work, string>
      requires Valid()
    {
      match Located(docId)
      case Failure(e) => Failure(e)
      case Success(document) =>
        match DocumentText(document, textField)
        case Failure(e) => Failure(e)
        case Success(text) => Build(document, text, docId, textField)
    }

    function ErrorUpdate(docId: Value): StatusUpdate {
      StatusUpdate(Oracle.UpdateSql(table, None), Oracle.UpdateParams(docId, "error", None))
    }

    function IndexedUpdate(docId: Value, now: string): StatusUpdate {
      StatusUpdate(Oracle.UpdateSql(table, Some(now)), Oracle.UpdateParams(docId, "indexed", Some(now)))
    }

    /** The `except` branch: with status updates on, the document is marked
        `"error"` (a failure of that update is what propagates); then the
        error is raised again. */
    function Failed(docId: Value, error: string, updateStatus: bool,
                    before: seq<StatusUpdate>, sent: seq<seq<Embeddings.VectorRecord>>): (o: Outcome)
      ensures o.result.Failure? && o.sent == sent
      ensures updateStatus ==> o.updates == before + [ErrorUpdate(docId)]
      ensures !updateStatus ==> o.updates == before && o.result == Failure(error)
    {
      if updateStatus then
        var u := ErrorUpdate(docId);
        match execute(u.statement, Some(u.params))
        case Failure(e) => Outcome(Failure(e), before + [u], sent)
        case Success(_) => Outcome(Failure(error), before + [u], sent)
      else Outcome(Failure(error), before, sent)
    }

    /** Steps 6 and 7 of `index_document` and its `except` branch, given
        what the earlier steps produced. */
    function Finish(docId: Value, prepared: Result<Work, string>, namespace: string, updateStatus: bool, now: string): Outcome {
      match prepared
      case Failure(e) => Failed(docId, e, updateStatus, [], [])
      case Success(w) =>
        var batches := VectorStore.Slices(w.vectors, UpsertBatchSize);
        var sent := VectorStore.Sent(upsert, batches, namespace);
        match VectorStore.Counted(upsert, batches, namespace)
        case Failure(e) => Failed(docId, e, updateStatus, [], sent)
        case Success(total) =>
          var stats := DocStats(docId, |w.chunks|, total, TotalTokens(w.chunks), useLlmContext);
          if updateStatus then
            var u := IndexedUpdate(docId, now);
            match execute(u.statement, Some(u.params))
            case Failure(e) => Failed(docId, e, true, [u], sent)
            case Success(_) => Outcome(Success(stats), [u], sent)
          else Outcome(Success(stats), [], sent)
    }

    /** `index_document` as a whole. */
    function IndexOutcome(docId: Value, textField: string, namespace: string, updateStatus: bool, now: string): Outcome
      requires Valid()
    {
      Finish(docId, Prepare(docId, textField), namespace, updateStatus, now)
    }

    /** `fetch_document_by_id` and the "not found" check. */
    method Locate(docId: Value) returns (r: Result<Record, string>)
      ensures r == Located(docId)
    {
      var fetched := Oracle.FetchDocumentById(execute, table, docId);
      if fetched.Failure? {
        return Failure(fetched.error);
      }
      if fetched.value.None? || fetched.value.value == map[] {
        return Failure(NotFound(docId));
      }
      r := Success(fetched.value.value);
    }

    /** Enrichment of all the chunks: `generate_contexts_batch` with the
        model, bare chunks without it. */
    method EnrichAll(chunks: seq<Chunk>, docContext: Option<string>) returns (enriched: seq<Enrichment.EnrichedChunk>)
      requires Valid()
      ensures enriched == Enriched(chunks, docContext)
    {
      if useLlmContext {
        enriched := Enrichment.GenerateContextsBatch(generator, chunks, docContext, Template);
      } else {
        enriched := seq(|chunks|, i requires 0 <= i < |chunks| => Bare(chunks[i]));
      }
    }

    /** `create_vectors_batch` on the enriched chunks. */
    method EmbedAll(enriched: seq<Enrichment.EnrichedChunk>) returns (r: Result<seq<Embeddings.VectorRecord>, string>)
      ensures r == Vectors(enriched)
    {
      var embeddings;
      r, embeddings := Embeddings.CreateVectorsBatch(embedder, enriched, useLlmContext);
      assert EmbeddingTexts(enriched, useLlmContext)
          == seq(|enriched|, i requires 0 <= i < |enriched| => Embeddings.EmbeddingText(enriched[i], useLlmContext));
    }

    /** Steps 2 to 5, in the source's order. */
    method BuildWork(document: Record, text: string, docId: Value, textField: string) returns (r: Result<Work, string>)
      requires Valid()
      ensures r == Build(document, text, docId, textField)
    {
      var docContext := Summary(text);
      var metadata := Without(document, textField);
      var chunks := TextChunking.ChunkDocument(chunker, text, Enrichment.Shown(show, docId), Some(metadata));
      var enriched := EnrichAll(chunks, docContext);
      var vectors := EmbedAll(enriched);
      if vectors.Failure? {
        return Failure(vectors.error);
      }
      r := Success(Work(document, text, chunks, enriched, vectors.value));
    }

    /** Steps 1 to 5 of `index_document`. They change nothing: the
        database is only read. */
    method PrepareDocument(docId: Value, textField: string) returns (r: Result<Work, string>)
      requires Valid()
      ensures r == Prepare(docId, textField)
    {
      var document := Locate(docId);
      if document.Failure? {
        return Failure(document.error);
      }
      var text := DocumentText(document.value, textField);
      if text.Failure? {
        return Failure(text.error);
      }
      r := BuildWork(document.value, text.value, docId, textField);
    }

    /** Sends one status update; it fails as the database does. */
    method SendUpdate(u: StatusUpdate) returns (r: Result<bool, string>)
      modifies this
      ensures statusUpdates == old(statusUpdates) + [u]
      ensures upserted == old(upserted)
      ensures r.Success? <==> execute(u.statement, Some(u.params)).Success?
      ensures r.Failure? ==> r.error == execute(u.statement, Some(u.params)).error
    {
      statusUpdates := statusUpdates + [u];
      match execute(u.statement, Some(u.params)) {
        case Failure(e) => r := Failure(e);
        case Success(_) => r := Success(true);
      }
    }

    /** The `except` branch of `index_document`. */
    method RecordFailure(docId: Value, error: string, updateStatus: bool, ghost before: seq<StatusUpdate>,
                         ghost sent: seq<seq<Embeddings.VectorRecord>>) returns (r: Result<DocStats, string>)
      requires |before| <= |statusUpdates| && statusUpdates[|statusUpdates| - |before|..] == before
      modifies this
      ensures r == Failed(docId, error, updateStatus, before, sent).result
      ensures statusUpdates == old(statusUpdates)[..|old(statusUpdates)| - |before|]
        + Failed(docId, error, updateStatus, before, sent).updates
      ensures upserted == old(upserted)
    {
      r := Failure(error);
      if updateStatus {
        var marked := SendUpdate(ErrorUpdate(docId));
        if marked.Failure? {
          r := Failure(marked.error);
        }
      }
    }

    /** Steps 6 and 7 of `index_document`: upsert in batches of 100, then
        (with updates on) mark the document `"indexed"` at `now`; a failure
        of either goes to the `except` branch. */
    method FinishDocument(docId: Value, work: Work, namespace: string, updateStatus: bool, now: string)
      returns (r: Result<DocStats, string>)
      modifies this
      ensures r == Finish(docId, Success(work), namespace, updateStatus, now).result
      ensures statusUpdates == old(statusUpdates) + Finish(docId, Success(work), namespace, updateStatus, now).updates
      ensures upserted == old(upserted) + Finish(docId, Success(work), namespace, updateStatus, now).sent
    {
      var total, sent := VectorStore.UpsertBatch(upsert, work.vectors, UpsertBatchSize, namespace);
      upserted := upserted + sent;
      if total.Failure? {
        r := RecordFailure(docId, total.error, updateStatus, [], sent);
        return;
      }
      if updateStatus {
        var u := IndexedUpdate(docId, now);
        var marked := SendUpdate(u);
        if marked.Failure? {
          r := RecordFailure(docId, marked.error, true, [u], sent);
          return;
        }
      }
      r := Success(DocStats(docId, |work.chunks|, total.value, TotalTokens(work.chunks), useLlmContext));
    }

    /** `index_document`: the steps in order; any failure marks the
        document `"error"` (when updates are on) and is raised again; on
        success the document is marked `"indexed"` at `now`. */
    method IndexDocument(docId: Value, textField: string, namespace: string, updateStatus: bool, now: string)
      returns (r: Result<DocStats, string>)
      requires Valid()
      modifies this
      ensures r == IndexOutcome(docId, textField, namespace, updateStatus, now).result
      ensures statusUpdates == old(statusUpdates) + IndexOutcome(docId, textField, namespace, updateStatus, now).updates
      ensures upserted == old(upserted) + IndexOutcome(docId, textField, namespace, updateStatus, now).sent
    {
      var work := PrepareDocument(docId, textField);
      if work.Failure? {
        r := RecordFailure(docId, work.error, updateStatus, [], []);
        return;
      }
      r := FinishDocument(docId, work.value, namespace, updateStatus, now);
    }

    /** A document cannot be indexed when it is missing (or empty) or when
        its text field is missing or empty; and a document that is indexed
        was found with a non-empty string in its text field. */
    lemma PrepareFailures(docId: Value, textField: string)
      requires Valid()
      ensures Oracle.FetchDocumentById(execute, table, docId) == Success(None) ==>
        Prepare(docId, textField) == Failure(NotFound(docId))
      ensures Located(docId).Success? && !Truthy(Get(Located(docId).value, textField, VStr(""))) ==>
        Prepare(docId, textField) == Failure(EmptyField(textField))
      ensures Prepare(docId, textField).Success? ==>
        var w := Prepare(docId, textField).value;
        Oracle.FetchDocumentById(execute, table, docId) == Success(Some(w.document))
        && w.document != map[] && w.text != ""
        && textField in w.document && w.document[textField] == VStr(w.text)
    {
    }

    /** Every chunk has text, carries the document's id as a string and,
        as metadata, the document's record without its text field, tagged
        with the strategy. */
    lemma ChunkedTagged(document: Record, text: string, docId: Value, textField: string)
      requires Valid()
      ensures forall c <- Chunked(document, text, docId, textField) ::
        c.text != [] && c.docId == Enrichment.Shown(show, docId)
        && c.metadata == Tagged(Without(document, textField), TextChunking.WrittenName(chunker.strategy))
        && (textField != "strategy" ==> textField !in c.metadata)
    {
      TextChunking.DocumentChunksTagged(chunker, text, Enrichment.Shown(show, docId), Some(Without(document, textField)));
    }

    /** One enriched chunk per chunk, in order: with the model, every chunk
        is enriched with the same document context; without it, every
        chunk is wrapped bare, its own text as the enhanced text. */
    lemma EnrichedChunks(chunks: seq<Chunk>, docContext: Option<string>)
      requires Valid()
      ensures |Enriched(chunks, docContext)| == |chunks|
      ensures forall i :: 0 <= i < |chunks| ==> Enriched(chunks, docContext)[i].original == chunks[i]
      ensures useLlmContext ==> forall i :: 0 <= i < |chunks| ==>
        Enriched(chunks, docContext)[i] == Enrichment.Enrich(generator, chunks[i], docContext, Template)
      ensures !useLlmContext ==> forall i :: 0 <= i < |chunks| ==>
        Enriched(chunks, docContext)[i] == Bare(chunks[i])
        && Enriched(chunks, docContext)[i].enhancedText == chunks[i].text
    {
    }

    /** The status rules: with updates off nothing is written to the
        database; with updates on, an indexed document gets exactly one
        update, to `"indexed"` at `now`, and a failed one ends with the
        update to `"error"`. A document whose preparation fails sends
        nothing to the index; an indexed one sends all its vectors, and its
        statistics count its chunks, their tokens and the upserted total. */
    lemma FinishRules(docId: Value, prepared: Result<Work, string>, namespace: string, updateStatus: bool, now: string)
      ensures var o := Finish(docId, prepared, namespace, updateStatus, now);
        (!updateStatus ==> o.updates == [])
        && (updateStatus && o.result.Success? ==> o.updates == [IndexedUpdate(docId, now)])
        && (updateStatus && o.result.Failure? ==>
              o.updates != [] && o.updates[|o.updates| - 1] == ErrorUpdate(docId))
        && (prepared.Failure? ==> o.result.Failure? && o.sent == [])
      ensures var o := Finish(docId, prepared, namespace, updateStatus, now);
        o.result.Success? ==>
          prepared.Success?
          && VectorStore.Flatten(o.sent) == prepared.value.vectors
          && o.result.value == DocStats(docId, |prepared.value.chunks|,
                VectorStore.Counted(upsert, VectorStore.Slices(prepared.value.vectors, UpsertBatchSize), namespace).value,
                TotalTokens(prepared.value.chunks), useLlmContext)
    {
      var o := Finish(docId, prepared, namespace, updateStatus, now);
      if o.result.Success? {
        var batches := VectorStore.Slices(prepared.value.vectors, UpsertBatchSize);
        VectorStore.SentShape(upsert, batches, namespace);
        VectorStore.SlicesCover(prepared.value.vectors, UpsertBatchSize);
      }
    }

    /** The marks written: `"indexed"` with its time, or `"error"` without
        one; both name the document by id. */
    lemma UpdatesMark(docId: Value, now: string)
      ensures IndexedUpdate(docId, now).params["status"] == VStr("indexed")
      ensures IndexedUpdate(docId, now).params["id"] == docId
      ensures now != "" ==> IndexedUpdate(docId, now).params["indexed_at"] == VStr(now)
      ensures ErrorUpdate(docId).params["status"] == VStr("error")
      ensures ErrorUpdate(docId).params["id"] == docId
      ensures "indexed_at" !in ErrorUpdate(docId).params
    {
      Oracle.UpdateShape(table, docId, "indexed", Some(now));
      Oracle.UpdateShape(table, docId, "error", None);
    }

    /** The outcome of every document of a run, in order; document `k` is
        stamped with `clock(k)`. */
    function RunOutcomes(ids: seq<Value>, textField: string, namespace: string, updateStatus: bool,
                         clock: nat -> string): (r: seq<Outcome>)
      requires Valid()
      ensures |r| == |ids|
    {
      seq(|ids|, k requires 0 <= k < |ids| => IndexOutcome(ids[k], textField, namespace, updateStatus, clock(k)))
    }

    /** `[doc.get("id") for doc in documents]`. */
    function Ids(documents: seq<Record>): (r: seq<Value>)
      ensures |r| == |documents|
    {
      seq(|documents|, k requires 0 <= k < |documents| => Get(documents[k], "id", VNone))
    }

    /** The bookkeeping of one turn of the loop: a success adds one to
        `successful` and its chunks and vectors to the totals; a failure
        adds one to `failed` and its entry to `errors`. */
    static method Count(stats: RunStats, docId: Value, result: Result<DocStats, string>) returns (next: RunStats)
      ensures next == Step(stats, docId, result)
    {
      next := stats;
      match result {
        case Success(s) =>
          next := next.(successful := next.successful + 1,
                        totalChunks := next.totalChunks + s.chunks,
                        totalVectors := next.totalVectors + s.vectorsUpserted);
        case Failure(e) =>
          next := next.(failed := next.failed + 1,
                        errors := next.errors + [DocError(docId, e)]);
      }
    }

    /** One turn of the document loop: index document `k` at `clock(k)`
        and count its success or failure. */
    method IndexNext(documents: seq<Record>, k: nat, stats: RunStats, textField: string, namespace: string,
                     updateStatus: bool, clock: nat -> string) returns (next: RunStats)
      requires Valid() && k < |documents|
      modifies this
      ensures next == Step(stats, Ids(documents)[k], IndexOutcome(Ids(documents)[k], textField, namespace, updateStatus, clock(k)).result)
      ensures statusUpdates == old(statusUpdates) + IndexOutcome(Ids(documents)[k], textField, namespace, updateStatus, clock(k)).updates
      ensures upserted == old(upserted) + IndexOutcome(Ids(documents)[k], textField, namespace, updateStatus, clock(k)).sent
    {
      var docId := Get(documents[k], "id", VNone);
      var result := IndexDocument(docId, textField, namespace, updateStatus, clock(k));
      next := Count(stats, docId, result);
    }

    /** The document loop of `index_all_documents`: each document is
        indexed in turn, and its success or failure is tallied. */
    method IndexEach(documents: seq<Record>, textField: string, namespace: string, updateStatus: bool,
                     clock: nat -> string) returns (stats: RunStats)
      requires Valid()
      modifies this
      ensures var o := RunOutcomes(Ids(documents), textField, namespace, updateStatus, clock);
        stats == Tally(|documents|, Ids(documents), Results(o))
        && statusUpdates == old(statusUpdates) + Concat(Updates(o))
        && upserted == old(upserted) + Concat(Sends(o))
    {
      ghost var ids := Ids(documents);
      ghost var o := RunOutcomes(ids, textField, namespace, updateStatus, clock);
      stats := RunStats(|documents|, 0, 0, 0, 0, []);
      for k := 0 to |documents|
        invariant stats == Tally(|documents|, ids[..k], Results(o)[..k])
        invariant statusUpdates == old(statusUpdates) + Concat(Updates(o)[..k])
        invariant upserted == old(upserted) + Concat(Sends(o)[..k])
      {
        ghost var updatesBefore, upsertedBefore := statusUpdates, upserted;
        stats := IndexNext(documents, k, stats, textField, namespace, updateStatus, clock);
        assert o[k] == IndexOutcome(ids[k], textField, namespace, updateStatus, clock(k));
        TallyStep(|documents|, ids, Results(o), k);
        ConcatStep(Updates(o), k);
        ConcatStep(Sends(o), k);
        AppendAssoc(old(statusUpdates), Concat(Updates(o)[..k]), Updates(o)[k]);
        AppendAssoc(old(upserted), Concat(Sends(o)[..k]), Sends(o)[k]);
      }
      assert ids[..|documents|] == ids && Results(o)[..|documents|] == Results(o);
      assert Updates(o)[..|documents|] == Updates(o) && Sends(o)[..|documents|] == Sends(o);
    }

    /** `index_all_documents`: count (a failure there, or in the fetch,
        ends the run), fetch the documents with the limit and filters, then
        index each one. */
    method IndexAllDocuments(textField: string, namespace: string, limit: Option<int>, filters: Oracle.Filters,
                             updateStatus: bool, clock: nat -> string) returns (r: Result<RunStats, string>)
      requires Valid()
      modifies this
      ensures Oracle.CountDocuments(execute, table, filters).Failure? ==>
        r == Failure(Oracle.CountDocuments(execute, table, filters).error)
        && statusUpdates == old(statusUpdates) && upserted == old(upserted)
      ensures (Oracle.CountDocuments(execute, table, filters).Success?
               && Oracle.FetchedDocuments(execute, table, limit, 0, filters).Failure?) ==>
        r == Failure(Oracle.FetchedDocuments(execute, table, limit, 0, filters).error)
        && statusUpdates == old(statusUpdates) && upserted == old(upserted)
      ensures (Oracle.CountDocuments(execute, table, filters).Success?
               && Oracle.FetchedDocuments(execute, table, limit, 0, filters).Success?) ==>
        var documents := Oracle.FetchedDocuments(execute, table, limit, 0, filters).value;
        var o := RunOutcomes(Ids(documents), textField, namespace, updateStatus, clock);
        r == Success(Tally(|documents|, Ids(documents), Results(o)))
        && statusUpdates == old(statusUpdates) + Concat(Updates(o))
        && upserted == old(upserted) + Concat(Sends(o))
    {
      var totalDocs := Oracle.CountDocuments(execute, table, filters);
      if totalDocs.Failure? {
        return Failure(totalDocs.error);
      }
      var documents := Oracle.FetchDocuments(execute, table, limit, 0, filters);
      if documents.Failure? {
        return Failure(documents.error);
      }
      var stats := IndexEach(documents.value, textField, namespace, updateStatus, clock);
      r := Success(stats);
    }
  }
}
