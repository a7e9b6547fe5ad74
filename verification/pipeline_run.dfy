/** The legacy loading run of `pipeline.py`: a file is loaded by its
    extension, cleaned page by page, split, embedded and sent to the vector
    index in batches, and every outcome is written to the tracking table
    DS_RAG_DOCUMENTOS. The loaders, the `.doc` conversion, the splitter,
    the embedding service and the index are parameters (`Services`). */
module PipelineRun {
  import opened Wrappers
  import opened Strs
  import opened Values
  import opened TextCleaning
  import opened Pipeline
  import Embeddings
  import VectorStore
  import Indexer

  type Vector = Embeddings.Vector
  type VectorRecord = Embeddings.VectorRecord

  // ---------------------------------------------------------------------
  // The tracking table
  // ---------------------------------------------------------------------

  /** A row of the tracking table (its send time is left out). */
  datatype SendRecord = SendRecord(
    document: string,
    ragId: Option<string>,
    chunks: Option<nat>,
    status: string,
    error: Option<string>)

  function OkRecord(document: string, ragId: string, chunks: nat): SendRecord {
    SendRecord(document, Some(ragId), Some(chunks), "OK", None)
  }

  function WarnRecord(document: string, error: string): SendRecord {
    SendRecord(document, None, None, "WARN", Some(error))
  }

  function ErrorRecord(document: string, error: string): SendRecord {
    SendRecord(document, None, None, "ERRO", Some(error))
  }

  predicate HasDocument(rows: seq<SendRecord>, document: string) {
    exists i :: 0 <= i < |rows| && rows[i].document == document
  }

  /** The document code is the primary key of the table. */
  ghost predicate KeysUnique(rows: seq<SendRecord>) {
    forall i, j :: 0 <= i < j < |rows| ==> rows[i].document != rows[j].document
  }

  /** `grava_envio_documento`: the insert is committed, unless the key is
      taken, in which case the IntegrityError rolls it back and the table
      keeps its rows. */
  function Recorded(rows: seq<SendRecord>, r: SendRecord): (t: seq<SendRecord>)
    ensures |rows| <= |t| <= |rows| + 1 && t[..|rows|] == rows
  {
    if HasDocument(rows, r.document) then rows else rows + [r]
  }

  /** A row is added exactly when its document has none yet, and then it
      is the new last row; afterwards the document has a row, and the key
      stays unique. */
  lemma RecordedRow(rows: seq<SendRecord>, r: SendRecord)
    ensures HasDocument(Recorded(rows, r), r.document)
    ensures Recorded(rows, r) == rows + [r] <==> !HasDocument(rows, r.document)
    ensures HasDocument(rows, r.document) ==> Recorded(rows, r) == rows
    ensures KeysUnique(rows) ==> KeysUnique(Recorded(rows, r))
  {
    if HasDocument(rows, r.document) {
      assert |Recorded(rows, r)| == |rows|;
    } else {
      assert Recorded(rows, r)[|rows|].document == r.document;
    }
  }

  /** A record that may not be written. */
  function Logged(rows: seq<SendRecord>, r: Option<SendRecord>): seq<SendRecord> {
    if r.Some? then Recorded(rows, r.value) else rows
  }

  /** The table as a mutable object: the rows written so far, in order. */
  class SendTable {
    var rows: seq<SendRecord>

    ghost predicate Valid()
      reads this
    {
      KeysUnique(rows)
    }

    constructor()
      ensures rows == [] && Valid()
    {
      rows := [];
    }

    /** `grava_envio_documento(...)`. */
    method Record(r: SendRecord)
      requires Valid()
      modifies this
      ensures Valid()
      ensures rows == Recorded(old(rows), r)
    {
      RecordedRow(rows, r);
      if !HasDocument(rows, r.document) {
        rows := rows + [r];
      }
    }
  }

  // ---------------------------------------------------------------------
  // What the store depends on
  // ---------------------------------------------------------------------

  /** The langchain loaders `upsert_pdf` chooses between. */
  datatype Loader = PdfLoader | DocxLoader | TextLoader

  /** The collaborators of `PineconeStore`: `load` reads a file with a
      loader, `convert` is `convert_doc_to_pdf`, `similar` is
      `linhas_similares`, `split` the recursive splitter for a chunk size and
      overlap, `embed` the embedding model's `embed_documents`, `upsert` the
      index's `upsert`; `embedDim` is `EMBED_DIM`. Each failing call gives
      the text of the exception it raises. */
  datatype Services = Services(
    load: (Loader, string) -> Result<seq<Page<Record>>, string>,
    convert: string -> Result<string, string>,
    similar: Similar,
    split: (seq<Page<Record>>, int, int) -> Result<seq<Page<Record>>, string>,
    embed: seq<string> -> Result<seq<Vector>, string>,
    upsert: (seq<VectorRecord>, string) -> Result<nat, string>,
    embedDim: nat)

  /** `EMBED_DIM` when the environment does not set it. */
  const DefaultEmbedDim: nat := 1024

  /** What reading `loader` raises when no branch chose a loader. */
  const UnboundLoader := "cannot access local variable 'loader' where it is not associated with a value"

  /** What indexing past the end of a list raises. */
  const IndexOutOfRange := "list index out of range"

  /** The message of the dimension check. */
  function DimensionError(found: nat, expected: nat): string {
    "Dimens\U{E3}o do embedding (" + NatToString(found) + ") != EMBED_DIM (" + NatToString(expected)
      + "). Confirme o modelo e o dimension do \U{ED}ndice."
  }

  // ---------------------------------------------------------------------
  // upsert_pdf, stage by stage
  // ---------------------------------------------------------------------

  /** The file that was read (a `.doc` is read from its PDF conversion) and
      its pages or chunks. */
  datatype Loaded = Loaded(path: string, pages: seq<Page<Record>>)

  function ReadWith(sv: Services, loader: Loader, path: string): Result<Loaded, string> {
    var pages :- sv.load(loader, path);
    Success(Loaded(path, pages))
  }

  /** Step 1 of `upsert_pdf`: the loader by extension. */
  function Load(sv: Services, path: string, ext: string): Result<Loaded, string> {
    if ext == "pdf" then ReadWith(sv, PdfLoader, path)
    else if ext == "docx" then ReadWith(sv, DocxLoader, path)
    else if ext == "doc" then
      (var pdf :- sv.convert(path); ReadWith(sv, PdfLoader, pdf))
    else if Lower(ext) == "md" || Lower(ext) == "markdown" then ReadWith(sv, TextLoader, path)
    else Failure(UnboundLoader)
  }

  /** A file loads only under one of the five extensions (`md` and
      `markdown` in any case, the others in lower case), and a `.doc` is read
      from the file its conversion produced; any other extension fails with
      the unbound-loader error, before anything is read. */
  lemma LoadByExtension(sv: Services, path: string, ext: string)
    ensures Load(sv, path, ext).Success? ==>
      ext == "pdf" || ext == "docx" || ext == "doc" || Lower(ext) == "md" || Lower(ext) == "markdown"
    ensures !(ext == "pdf" || ext == "docx" || ext == "doc" || Lower(ext) == "md" || Lower(ext) == "markdown")
      ==> Load(sv, path, ext) == Failure(UnboundLoader)
    ensures ext == "doc" && Load(sv, path, ext).Success? ==>
      sv.convert(path).Success? && Load(sv, path, ext).value.path == sv.convert(path).value
      && sv.load(PdfLoader, sv.convert(path).value) == Success(Load(sv, path, ext).value.pages)
    ensures ext != "doc" && Load(sv, path, ext).Success? ==> Load(sv, path, ext).value.path == path
  {
  }

  /** Header and footer removal, then line-break joining. */
  function CleanedPages(sv: Services, pages: seq<Page<Record>>): seq<Page<Record>> {
    LineBreaksAdjusted(HeadersAndFootersRemoved(sv.similar, pages))
  }

  /** The chunks of the file: loaded, cleaned and split. */
  function Chunked(sv: Services, path: string, ext: string, size: int, overlap: int): Result<Loaded, string> {
    var loaded :- Load(sv, path, ext);
    var docs :- sv.split(CleanedPages(sv, loaded.pages), size, overlap);
    Success(Loaded(loaded.path, docs))
  }

  /** `[d.page_content for d in docs]`. */
  function Texts(docs: seq<Page<Record>>): (r: seq<string>)
    ensures |r| == |docs| && forall i :: 0 <= i < |docs| ==> r[i] == docs[i].content
  {
    seq(|docs|, i requires 0 <= i < |docs| => docs[i].content)
  }

  /** `metadata.get("page") or 0`. */
  function PageOf(metadata: Record): Value {
    var page := Get(metadata, "page", VNone);
    if Truthy(page) then page else VInt(0)
  }

  /** The page is the chunk's own when it has a truthy one, else 0. */
  lemma PageOfDefault(metadata: Record)
    ensures "page" in metadata && Truthy(metadata["page"]) ==> PageOf(metadata) == metadata["page"]
    ensures !("page" in metadata && Truthy(metadata["page"])) ==> PageOf(metadata) == VInt(0)
    ensures Truthy(PageOf(metadata)) || PageOf(metadata) == VInt(0)
  {
  }

  /** The sector list as a metadata value. */
  function SetoresValue(sectors: string): Value {
    VList(seq(|Setores(sectors)|, i requires 0 <= i < |Setores(sectors)| => VStr(Setores(sectors)[i])))
  }

  /** The metadata of one vector. */
  function Metadata(documentId: string, documentName: string, sectors: string, doc: Page<Record>): Record {
    map[
      "doc_id" := VStr(documentId),
      "source" := VStr(documentId + " - " + documentName),
      "setores" := SetoresValue(sectors),
      "page" := PageOf(doc.metadata),
      "text" := VStr(doc.content)]
  }

  /** The metadata has exactly the five keys: the document id, the source
      `id - name`, the stripped sectors, the page and the chunk text. */
  lemma MetadataShape(documentId: string, documentName: string, sectors: string, doc: Page<Record>)
    ensures Metadata(documentId, documentName, sectors, doc).Keys == {"doc_id", "source", "setores", "page", "text"}
    ensures Metadata(documentId, documentName, sectors, doc)["doc_id"] == VStr(documentId)
    ensures Metadata(documentId, documentName, sectors, doc)["source"] == VStr(documentId + " - " + documentName)
    ensures Metadata(documentId, documentName, sectors, doc)["text"] == VStr(doc.content)
    ensures Metadata(documentId, documentName, sectors, doc)["page"] == PageOf(doc.metadata)
    ensures |Metadata(documentId, documentName, sectors, doc)["setores"].items| == |Setores(sectors)|
    ensures forall i :: 0 <= i < |Setores(sectors)| ==>
      Metadata(documentId, documentName, sectors, doc)["setores"].items[i] == VStr(Setores(sectors)[i])
  {
  }

  /** Vector `i`: its chunk id, embedding `i`, and chunk `i`'s metadata. */
  function VectorAt(documentId: string, documentName: string, sectors: string,
                    docs: seq<Page<Record>>, embeddings: seq<Vector>, i: nat): VectorRecord
    requires i < |docs| && i < |embeddings|
  {
    Embeddings.VectorRecord(ChunkId(documentId, i), embeddings[i], Metadata(documentId, documentName, sectors, docs[i]))
  }

  /** Step 4 of `upsert_pdf`: one vector per embedding; an embedding
      without a chunk fails on `docs[i]`. */
  function Assembled(documentId: string, documentName: string, sectors: string,
                     docs: seq<Page<Record>>, embeddings: seq<Vector>): Result<seq<VectorRecord>, string>
  {
    if |embeddings| > |docs| then Failure(IndexOutOfRange)
    else Success(seq(|embeddings|, i requires 0 <= i < |embeddings| => VectorAt(documentId, documentName, sectors, docs, embeddings, i)))
  }

  /** Assembly fails exactly when there are more embeddings than chunks;
      otherwise vector `i` has the `i`-th chunk id and embedding, and the
      ids are pairwise distinct while the document id is short enough for
      them to need no cutting. */
  lemma AssembledShape(documentId: string, documentName: string, sectors: string,
                       docs: seq<Page<Record>>, embeddings: seq<Vector>)
    ensures Assembled(documentId, documentName, sectors, docs, embeddings).Failure? <==> |embeddings| > |docs|
    ensures Assembled(documentId, documentName, sectors, docs, embeddings).Success? ==>
      |Assembled(documentId, documentName, sectors, docs, embeddings).value| == |embeddings|
      && forall i :: 0 <= i < |embeddings| ==>
        Assembled(documentId, documentName, sectors, docs, embeddings).value[i].id == ChunkId(documentId, i)
        && Assembled(documentId, documentName, sectors, docs, embeddings).value[i].values == embeddings[i]
    ensures (Assembled(documentId, documentName, sectors, docs, embeddings).Success?
      && (forall i :: 0 <= i < |embeddings| ==> |FullChunkId(documentId, i)| <= IdLength)) ==>
      forall i, j :: 0 <= i < j < |embeddings| ==>
        Assembled(documentId, documentName, sectors, docs, embeddings).value[i].id
        != Assembled(documentId, documentName, sectors, docs, embeddings).value[j].id
  {
    if |embeddings| <= |docs| && forall i :: 0 <= i < |embeddings| ==> |FullChunkId(documentId, i)| <= IdLength {
      forall i, j | 0 <= i < j < |embeddings|
        ensures ChunkId(documentId, i) != ChunkId(documentId, j)
      {
        ChunkIdDistinct(documentId, i, j);
      }
    }
  }

  /** Step 3 and 4 of `upsert_pdf`: embed the texts; only the first vector's
      length is checked, and a mismatch raises; then the vectors are
      assembled. */
  function Vectors(sv: Services, documentId: string, documentName: string, sectors: string,
                   docs: seq<Page<Record>>): Result<seq<VectorRecord>, string>
  {
    var embeddings :- sv.embed(Texts(docs));
    if embeddings == [] then Failure(IndexOutOfRange)
    else if |embeddings[0]| != sv.embedDim then Failure(DimensionError(|embeddings[0]|, sv.embedDim))
    else Assembled(documentId, documentName, sectors, docs, embeddings)
  }

  /** The embeddings pass exactly when the service answers with at least
      one vector, the first of the index's dimension, and no more vectors
      than chunks; the lengths of the other vectors are never looked at. */
  lemma VectorsChecks(sv: Services, documentId: string, documentName: string, sectors: string,
                      docs: seq<Page<Record>>)
    ensures Vectors(sv, documentId, documentName, sectors, docs).Success? <==>
      sv.embed(Texts(docs)).Success? && sv.embed(Texts(docs)).value != []
      && |sv.embed(Texts(docs)).value[0]| == sv.embedDim
      && |sv.embed(Texts(docs)).value| <= |docs|
    ensures (sv.embed(Texts(docs)).Success? && sv.embed(Texts(docs)).value != []
      && |sv.embed(Texts(docs)).value[0]| != sv.embedDim) ==>
      Vectors(sv, documentId, documentName, sectors, docs)
        == Failure(DimensionError(|sv.embed(Texts(docs)).value[0]|, sv.embedDim))
    ensures Vectors(sv, documentId, documentName, sectors, docs).Success? ==>
      Vectors(sv, documentId, documentName, sectors, docs)
        == Assembled(documentId, documentName, sectors, docs, sv.embed(Texts(docs)).value)
  {
    AssembledShape(documentId, documentName, sectors, docs, if sv.embed(Texts(docs)).Success? then sv.embed(Texts(docs)).value else []);
  }

  /** What one call of `upsert_pdf` does: the batches it hands to the
      index, the row it writes to the table, and the error it raises. */
  datatype Upsert = Upsert(batches: seq<seq<VectorRecord>>, record: Option<SendRecord>, raised: Option<string>)

  /** Step 5 of `upsert_pdf`: the batches of `range(0, len(vectors),
      batch_size)` go out in order until one fails, which is re-raised;
      when all are sent the OK row carries the number of vectors. */
  function Sending(sv: Services, documentId: string, vectors: seq<VectorRecord>, namespace: string, batchSize: int): Upsert {
    if batchSize == 0 then Upsert([], None, Some(VectorStore.ZeroStep))
    else if batchSize < 0 then Upsert([], Some(OkRecord(documentId, documentId, |vectors|)), None)
    else
      var sent := VectorStore.Sent(sv.upsert, VectorStore.Slices(vectors, batchSize), namespace);
      match VectorStore.Counted(sv.upsert, VectorStore.Slices(vectors, batchSize), namespace)
      case Failure(e) => Upsert(sent, None, Some(e))
      case Success(_) => Upsert(sent, Some(OkRecord(documentId, documentId, |vectors|)), None)
  }

  /** `upsert_pdf(file_path, file_extension, document_id, document_name,
      cd_setores_liberados, namespace, delete_before, batch_size, chunk_size,
      chunk_overlap)`. */
  function UpsertOutcome(sv: Services, path: string, ext: string, documentId: string, documentName: string,
                         sectors: string, namespace: string, batchSize: int, size: int, overlap: int): Upsert
  {
    match Chunked(sv, path, ext, size, overlap)
    case Failure(e) => Upsert([], None, Some(e))
    case Success(chunks) =>
      if chunks.pages == [] then Upsert([], Some(WarnRecord(documentId, NoTextErrorAsWritten(chunks.path))), None)
      else
        match Vectors(sv, documentId, documentName, sectors, chunks.pages)
        case Failure(e) => Upsert([], None, Some(e))
        case Success(vectors) => Sending(sv, documentId, vectors, namespace, batchSize)
  }

  /** A call that raises writes no row; a call that does not raise writes
      exactly one, WARN or OK. A file without chunks sends nothing and
      writes a WARN row whose text is the literal, uninterpolated
      `{file_path}` status, the same for every file. */
  lemma UpsertRecords(sv: Services, path: string, ext: string, documentId: string, documentName: string,
                      sectors: string, namespace: string, batchSize: int, size: int, overlap: int)
    ensures UpsertOutcome(sv, path, ext, documentId, documentName, sectors, namespace, batchSize, size, overlap).raised.Some?
      <==> UpsertOutcome(sv, path, ext, documentId, documentName, sectors, namespace, batchSize, size, overlap).record.None?
    ensures UpsertOutcome(sv, path, ext, documentId, documentName, sectors, namespace, batchSize, size, overlap).record.Some? ==>
      UpsertOutcome(sv, path, ext, documentId, documentName, sectors, namespace, batchSize, size, overlap).record.value.document == documentId
      && UpsertOutcome(sv, path, ext, documentId, documentName, sectors, namespace, batchSize, size, overlap).record.value.status in {"OK", "WARN"}
    ensures Chunked(sv, path, ext, size, overlap).Success? && Chunked(sv, path, ext, size, overlap).value.pages == [] ==>
      UpsertOutcome(sv, path, ext, documentId, documentName, sectors, namespace, batchSize, size, overlap)
        == Upsert([], Some(WarnRecord(documentId, NoTextErrorAsWritten(Chunked(sv, path, ext, size, overlap).value.path))), None)
  {
  }

  /** When `upsert_pdf` returns normally with an OK row, every vector went
      out, batch after batch, and the row counts them. */
  lemma UpsertSendsAll(sv: Services, documentId: string, vectors: seq<VectorRecord>, namespace: string, batchSize: int)
    requires batchSize > 0
    ensures Sending(sv, documentId, vectors, namespace, batchSize).raised.None? ==>
      VectorStore.Flatten(Sending(sv, documentId, vectors, namespace, batchSize).batches) == vectors
      && Sending(sv, documentId, vectors, namespace, batchSize).record == Some(OkRecord(documentId, documentId, |vectors|))
    ensures Sending(sv, documentId, vectors, namespace, batchSize).raised.Some? ==>
      Sending(sv, documentId, vectors, namespace, batchSize).batches != []
      && Sending(sv, documentId, vectors, namespace, batchSize).record.None?
  {
    var slices := VectorStore.Slices(vectors, batchSize);
    VectorStore.SentShape(sv.upsert, slices, namespace);
    VectorStore.SlicesCover(vectors, batchSize);
  }

  // ---------------------------------------------------------------------
  // The methods
  // ---------------------------------------------------------------------

  /** Steps 1 to 1.1 of `upsert_pdf`: load, clean and split. */
  method LoadAndSplit(sv: Services, path: string, ext: string, size: int, overlap: int)
    returns (r: Result<Loaded, string>)
    ensures r == Chunked(sv, path, ext, size, overlap)
  {
    var loaded := Load(sv, path, ext);
    if loaded.Failure? {
      return Failure(loaded.error);
    }
    var pages := RemoveHeaderFooter(sv.similar, loaded.value.pages);
    pages := AdjustLineBreaks(pages);
    var docs := sv.split(pages, size, overlap);
    if docs.Failure? {
      return Failure(docs.error);
    }
    r := Success(Loaded(loaded.value.path, docs.value));
  }

  /** The loop of step 4 that builds `vectors`. */
  method AssembleVectors(documentId: string, documentName: string, sectors: string,
                         docs: seq<Page<Record>>, texts: seq<string>, embeddings: seq<Vector>)
    returns (r: Result<seq<VectorRecord>, string>)
    requires texts == Texts(docs)
    ensures r == Assembled(documentId, documentName, sectors, docs, embeddings)
  {
    var vectors: seq<VectorRecord> := [];
    for i := 0 to |embeddings|
      invariant i <= |docs|
      invariant |vectors| == i
      invariant forall k :: 0 <= k < i ==> vectors[k] == VectorAt(documentId, documentName, sectors, docs, embeddings, k)
    {
      if i >= |docs| {
        return Failure(IndexOutOfRange);
      }
      var vid := ChunkId(documentId, i);
      var meta := Metadata(documentId, documentName, sectors, Page(texts[i], docs[i].metadata));
      vectors := vectors + [Embeddings.VectorRecord(vid, embeddings[i], meta)];
    }
    r := Success(vectors);
    assert r.value == Assembled(documentId, documentName, sectors, docs, embeddings).value;
  }

  /** Steps 3 and 4 of `upsert_pdf`. */
  method BuildVectors(sv: Services, documentId: string, documentName: string, sectors: string,
                      docs: seq<Page<Record>>)
    returns (r: Result<seq<VectorRecord>, string>)
    ensures r == Vectors(sv, documentId, documentName, sectors, docs)
  {
    var texts := Texts(docs);
    var embeddings := sv.embed(texts);
    if embeddings.Failure? {
      return Failure(embeddings.error);
    }
    if |embeddings.value| == 0 {
      return Failure(IndexOutOfRange);
    }
    if |embeddings.value[0]| != sv.embedDim {
      return Failure(DimensionError(|embeddings.value[0]|, sv.embedDim));
    }
    r := AssembleVectors(documentId, documentName, sectors, docs, texts, embeddings.value);
  }

  /** `PineconeStore`: the index connection and the embedding model, and
      the batches handed to the index so far. */
  class PineconeStore {
    const services: Services
    var sent: seq<seq<VectorRecord>>

    constructor(services: Services)
      ensures this.services == services && sent == []
    {
      this.services := services;
      sent := [];
    }

    /** `upsert_pdf`: the batches it sends are added to `sent`, its row goes
        to the table, and the error it raises is returned. */
    method UpsertPdf(table: SendTable, path: string, ext: string, documentId: string, documentName: string,
                     sectors: string, namespace: string, batchSize: int, size: int, overlap: int)
      returns (raised: Option<string>)
      requires table.Valid()
      modifies this, table
      ensures table.Valid()
      ensures sent == old(sent)
        + UpsertOutcome(services, path, ext, documentId, documentName, sectors, namespace, batchSize, size, overlap).batches
      ensures table.rows == Logged(old(table.rows),
        UpsertOutcome(services, path, ext, documentId, documentName, sectors, namespace, batchSize, size, overlap).record)
      ensures raised == UpsertOutcome(services, path, ext, documentId, documentName, sectors, namespace, batchSize, size, overlap).raised
    {
      var chunks := LoadAndSplit(services, path, ext, size, overlap);
      if chunks.Failure? {
        return Some(chunks.error);
      }
      if chunks.value.pages == [] {
        table.Record(WarnRecord(documentId, NoTextErrorAsWritten(chunks.value.path)));
        return None;
      }
      var vectors := BuildVectors(services, documentId, documentName, sectors, chunks.value.pages);
      if vectors.Failure? {
        return Some(vectors.error);
      }
      var r, batches := VectorStore.UpsertBatch(services.upsert, vectors.value, batchSize, namespace);
      sent := sent + batches;
      if r.Failure? {
        return Some(r.error);
      }
      table.Record(OkRecord(documentId, documentId, |vectors.value|));
      raised := None;
    }
  }

  // ---------------------------------------------------------------------
  // RAGPipeline
  // ---------------------------------------------------------------------

  /** A document row to load: its code, name, file path (already mapped to
      the Linux mount) and its comma-separated released sectors. */
  datatype Document = Document(code: string, name: string, file: string, sectors: string)

  /** `RAGPipeline.CHUNK_SIZE` and `CHUNK_OVERLAP`. */
  const ChunkSize: int := 1800
  const ChunkOverlap: int := 300

  /** The defaults of `upsert_pdf`'s batch size, chunk size and overlap. */
  const DefaultBatchSize: int := 100
  const DefaultChunkSize: int := 2500
  const DefaultOverlap: int := 100

  const Namespace := "default"

  /** What `_process_document` asks of `upsert_pdf` for one document. */
  function DocumentOutcome(sv: Services, d: Document): Upsert {
    UpsertOutcome(sv, d.file, FileExtension(d.file), d.code, d.name, d.sectors, Namespace,
                  DefaultBatchSize, ChunkSize, ChunkOverlap)
  }

  /** The table after `_process_document`: the row `upsert_pdf` wrote, or,
      when it raised, an ERRO row `name: error`. */
  function AfterDocument(rows: seq<SendRecord>, d: Document, o: Upsert): seq<SendRecord> {
    if o.raised.Some? then Recorded(Logged(rows, o.record), ErrorRecord(d.code, d.name + ": " + o.raised.value))
    else Logged(rows, o.record)
  }

  /** A document whose load fails anywhere gets an ERRO row naming it and
      the error, unless it already had a row; either way it has a row
      afterwards, and nothing else is lost from the table. */
  lemma FailedDocumentRecorded(sv: Services, rows: seq<SendRecord>, d: Document)
    requires DocumentOutcome(sv, d).raised.Some?
    ensures !HasDocument(rows, d.code) ==>
      AfterDocument(rows, d, DocumentOutcome(sv, d))
        == rows + [ErrorRecord(d.code, d.name + ": " + DocumentOutcome(sv, d).raised.value)]
    ensures HasDocument(AfterDocument(rows, d, DocumentOutcome(sv, d)), d.code)
    ensures rows <= AfterDocument(rows, d, DocumentOutcome(sv, d))
  {
    var o := DocumentOutcome(sv, d);
    UpsertRecords(sv, d.file, FileExtension(d.file), d.code, d.name, d.sectors, Namespace,
                  DefaultBatchSize, ChunkSize, ChunkOverlap);
    RecordedRow(rows, ErrorRecord(d.code, d.name + ": " + o.raised.value));
  }

  /** What `upsert_pdf` may leave behind for a document: a row for that
      document exactly when it does not raise. */
  predicate Settled(o: Upsert, code: string) {
    (o.raised.Some? <==> o.record.None?) && (o.record.Some? ==> o.record.value.document == code)
  }

  /** The outcome of each document of a run, in order. */
  function Outcomes(sv: Services, docs: seq<Document>): (r: seq<Upsert>)
    ensures |r| == |docs|
  {
    if docs == [] then [] else Outcomes(sv, docs[..|docs| - 1]) + [DocumentOutcome(sv, docs[|docs| - 1])]
  }

  lemma {:induction false} OutcomeAt(sv: Services, docs: seq<Document>, i: nat)
    requires i < |docs|
    ensures Outcomes(sv, docs)[i] == DocumentOutcome(sv, docs[i])
  {
    if i < |docs| - 1 {
      OutcomeAt(sv, docs[..|docs| - 1], i);
    }
  }

  lemma OutcomesSettled(sv: Services, docs: seq<Document>)
    ensures forall k :: 0 <= k < |docs| ==> Settled(Outcomes(sv, docs)[k], docs[k].code)
  {
    forall k | 0 <= k < |docs|
      ensures Settled(Outcomes(sv, docs)[k], docs[k].code)
    {
      var d := docs[k];
      OutcomeAt(sv, docs, k);
      UpsertRecords(sv, d.file, FileExtension(d.file), d.code, d.name, d.sectors, Namespace,
                    DefaultBatchSize, ChunkSize, ChunkOverlap);
    }
  }

  /** The batches sent over a run. */
  function RunBatches(outs: seq<Upsert>): seq<seq<VectorRecord>> {
    if outs == [] then [] else RunBatches(outs[..|outs| - 1]) + outs[|outs| - 1].batches
  }

  /** The table after a run's documents were processed one after the
      other. */
  function RunRows(rows: seq<SendRecord>, docs: seq<Document>, outs: seq<Upsert>): seq<SendRecord>
    requires |outs| == |docs|
  {
    if docs == [] then rows
    else AfterDocument(RunRows(rows, docs[..|docs| - 1], outs[..|outs| - 1]), docs[|docs| - 1], outs[|outs| - 1])
  }

  /** The run over one document more. */
  lemma RunStep(rows: seq<SendRecord>, docs: seq<Document>, outs: seq<Upsert>, i: nat)
    requires |outs| == |docs| && i < |docs|
    ensures RunBatches(outs[..i + 1]) == RunBatches(outs[..i]) + outs[i].batches
    ensures RunRows(rows, docs[..i + 1], outs[..i + 1]) == AfterDocument(RunRows(rows, docs[..i], outs[..i]), docs[i], outs[i])
  {
    assert docs[..i + 1][..i] == docs[..i];
    assert outs[..i + 1][..i] == outs[..i];
  }

  /** A run over no documents changes nothing, and the run over all of
      them is the run over every prefix's end. */
  lemma RunEnds(rows: seq<SendRecord>, docs: seq<Document>, outs: seq<Upsert>)
    requires |outs| == |docs|
    ensures RunBatches(outs[..0]) == [] && RunRows(rows, docs[..0], outs[..0]) == rows
    ensures docs[..|docs|] == docs && outs[..|outs|] == outs
  {
    assert outs[..0] == [] && docs[..0] == [];
  }

  /** One document more keeps the rows and leaves a row for it. */
  lemma AfterDocumentKeeps(rows: seq<SendRecord>, d: Document, o: Upsert)
    requires Settled(o, d.code)
    ensures rows <= AfterDocument(rows, d, o)
    ensures HasDocument(AfterDocument(rows, d, o), d.code)
  {
    if o.record.Some? {
      RecordedRow(rows, o.record.value);
    } else {
      RecordedRow(rows, ErrorRecord(d.code, d.name + ": " + o.raised.value));
    }
  }

  lemma {:induction false} RunKeeps(rows: seq<SendRecord>, docs: seq<Document>, outs: seq<Upsert>)
    requires |outs| == |docs|
    requires forall k :: 0 <= k < |docs| ==> Settled(outs[k], docs[k].code)
    ensures rows <= RunRows(rows, docs, outs)
    ensures forall k :: 0 <= k < |docs| ==> HasDocument(RunRows(rows, docs, outs), docs[k].code)
  {
    if docs != [] {
      var n := |docs| - 1;
      var before := RunRows(rows, docs[..n], outs[..n]);
      RunKeeps(rows, docs[..n], outs[..n]);
      AfterDocumentKeeps(before, docs[n], outs[n]);
      var after := RunRows(rows, docs, outs);
      forall k | 0 <= k < n
        ensures HasDocument(after, docs[k].code)
      {
        assert docs[..n][k] == docs[k];
        var i :| 0 <= i < |before| && before[i].document == docs[k].code;
        assert after[i] == before[i];
      }
    }
  }

  /** However documents fail, the run goes on: every processed document has
      a row in the table afterwards, and earlier rows are kept. */
  lemma RunRecordsEach(sv: Services, rows: seq<SendRecord>, docs: seq<Document>)
    ensures rows <= RunRows(rows, docs, Outcomes(sv, docs))
    ensures forall k :: 0 <= k < |docs| ==> HasDocument(RunRows(rows, docs, Outcomes(sv, docs)), docs[k].code)
  {
    OutcomesSettled(sv, docs);
    RunKeeps(rows, docs, Outcomes(sv, docs));
  }

  /** What `_generate_document_list` asks of `upsert_pdf` for the list it
      wrote to `dir/Lista_Documentos.md`. */
  function ListOutcome(sv: Services, dir: string): Upsert {
    UpsertOutcome(sv, dir + "/Lista_Documentos.md", "md", "Lista_Documentos", "Lista_Documentos", "0", Namespace,
                  DefaultBatchSize, DefaultChunkSize, DefaultOverlap)
  }

  /** The table after the list was sent: an error is recorded as its bare
      text. */
  function AfterList(rows: seq<SendRecord>, o: Upsert): seq<SendRecord> {
    if o.raised.Some? then Recorded(Logged(rows, o.record), ErrorRecord("Lista_Documentos", o.raised.value))
    else Logged(rows, o.record)
  }

  /** `RAGPipeline`: the store, the tracking table and the folder the
      document list is written to. */
  class RagPipeline {
    const store: PineconeStore
    const table: SendTable
    const conversionDir: string

    constructor(store: PineconeStore, table: SendTable, conversionDir: string)
      ensures this.store == store && this.table == table && this.conversionDir == conversionDir
    {
      this.store := store;
      this.table := table;
      this.conversionDir := conversionDir;
    }

    /** `_process_document`: an empty row is skipped; otherwise the file is
        sent with the pipeline's chunk size and overlap, and an exception
        becomes an ERRO row instead of ending the run. */
    method ProcessDocument(doc: Option<Document>)
      requires table.Valid()
      modifies store, table
      ensures table.Valid()
      ensures doc.None? ==> store.sent == old(store.sent) && table.rows == old(table.rows)
      ensures doc.Some? ==> store.sent == old(store.sent) + DocumentOutcome(store.services, doc.value).batches
      ensures doc.Some? ==>
        table.rows == AfterDocument(old(table.rows), doc.value, DocumentOutcome(store.services, doc.value))
    {
      if doc.None? {
        return;
      }
      var d := doc.value;
      var raised := store.UpsertPdf(table, d.file, FileExtension(d.file), d.code, d.name, d.sectors, Namespace,
                                    DefaultBatchSize, ChunkSize, ChunkOverlap);
      if raised.Some? {
        table.Record(ErrorRecord(d.code, d.name + ": " + raised.value));
      }
    }

    /** `_generate_document_list`: nothing happens without rows; otherwise
        the markdown text is built (and returned: writing the file is left
        out), and the file is sent under the id `Lista_Documentos`. */
    method GenerateDocumentList(rows: seq<ListRow>) returns (content: Option<string>)
      requires table.Valid()
      modifies store, table
      ensures table.Valid()
      ensures rows == [] ==> content.None? && store.sent == old(store.sent) && table.rows == old(table.rows)
      ensures rows != [] ==>
        content == Some(Join("\n", ListLines(seq(|rows|, i requires 0 <= i < |rows| => Entry(rows[i])))))
      ensures rows != [] ==> store.sent == old(store.sent) + ListOutcome(store.services, conversionDir).batches
      ensures rows != [] ==> table.rows == AfterList(old(table.rows), ListOutcome(store.services, conversionDir))
    {
      if rows == [] {
        return None;
      }
      var lines := DocumentListLines(rows);
      content := Some(Join("\n", lines));
      var raised := store.UpsertPdf(table, conversionDir + "/Lista_Documentos.md", "md", "Lista_Documentos",
                                    "Lista_Documentos", "0", Namespace, DefaultBatchSize, DefaultChunkSize, DefaultOverlap);
      if raised.Some? {
        table.Record(ErrorRecord("Lista_Documentos", raised.value));
      }
    }

    /** How far the loop of `run` has come: the first `i` documents were
        processed, starting from `sent0` and `rows0`. */
    ghost predicate Progressed(documents: seq<Document>, outs: seq<Upsert>, sent0: seq<seq<VectorRecord>>,
                               rows0: seq<SendRecord>, i: nat)
      reads this, store, table
    {
      i <= |documents| && |outs| == |documents| && table.Valid()
      && store.sent == sent0 + RunBatches(outs[..i])
      && table.rows == RunRows(rows0, documents[..i], outs[..i])
    }

    /** The body of the loop of `run`: one document more. */
    method ProcessNext(documents: seq<Document>, i: nat, ghost outs: seq<Upsert>,
                       ghost sent0: seq<seq<VectorRecord>>, ghost rows0: seq<SendRecord>)
      requires i < |documents| && outs == Outcomes(store.services, documents)
      requires Progressed(documents, outs, sent0, rows0, i)
      modifies store, table
      ensures Progressed(documents, outs, sent0, rows0, i + 1)
    {
      OutcomeAt(store.services, documents, i);
      ProcessDocument(Some(documents[i]));
      RunStep(rows0, documents, outs, i);
      Indexer.AppendAssoc(sent0, RunBatches(outs[..i]), outs[i].batches);
    }

    /** The loop of `run` over the documents. */
    method ProcessEach(documents: seq<Document>)
      requires table.Valid()
      modifies store, table
      ensures table.Valid()
      ensures store.sent == old(store.sent) + RunBatches(Outcomes(store.services, documents))
      ensures table.rows == RunRows(old(table.rows), documents, Outcomes(store.services, documents))
    {
      ghost var outs := Outcomes(store.services, documents);
      ghost var sent0 := store.sent;
      ghost var rows0 := table.rows;
      RunEnds(rows0, documents, outs);
      for i := 0 to |documents|
        invariant Progressed(documents, outs, sent0, rows0, i)
      {
        ProcessNext(documents, i, outs, sent0, rows0);
      }
    }

    /** `run`: with no documents nothing happens; otherwise each document is
        processed in turn and then the document list is generated. */
    method Run(documents: seq<Document>, listRows: seq<ListRow>)
      requires table.Valid()
      modifies store, table
      ensures table.Valid()
      ensures documents == [] ==> store.sent == old(store.sent) && table.rows == old(table.rows)
      ensures documents != [] && listRows == [] ==>
        store.sent == old(store.sent) + RunBatches(Outcomes(store.services, documents))
        && table.rows == RunRows(old(table.rows), documents, Outcomes(store.services, documents))
      ensures documents != [] && listRows != [] ==>
        store.sent == old(store.sent) + RunBatches(Outcomes(store.services, documents))
          + ListOutcome(store.services, conversionDir).batches
        && table.rows == AfterList(RunRows(old(table.rows), documents, Outcomes(store.services, documents)),
                                   ListOutcome(store.services, conversionDir))
    {
      if documents == [] {
        return;
      }
      ProcessEach(documents);
      var _ := GenerateDocumentList(listRows);
    }
  }
}
