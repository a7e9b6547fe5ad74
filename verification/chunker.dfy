/** `TextChunker.chunk_document`: the strategy chosen when the chunker was
    built decides how a document is cut. The semantic strategy is, for now,
    the recursive one. */
module TextChunking {
  import opened Wrappers
  import opened Strs
  import opened Values
  import opened Chunks
  import FixedChunking
  import RecursiveChunking
  import SentenceChunking

  /** The caller's metadata, or `{}` when none is given. */
  function MetadataOrEmpty(metadata: Option<Record>): (r: Record)
    ensures metadata.None? ==> r == map[]
    ensures metadata.Some? ==> r == metadata.value
  {
    match metadata
    case None => map[]
    case Some(m) => m
  }

  /** The fixed-size window is modelled for a positive `chunk_size`, where
      every window ends after its start; with a smaller size the window's
      bounds count from the end of the text, or it never moves. The other
      strategies accept any setting. */
  predicate Usable(ck: Chunker) {
    ck.strategy.FixedSize? ==> ck.chunkSize >= 1
  }

  function DocumentChunks(ck: Chunker, text: string, docId: string, metadata: Option<Record>): seq<Chunk>
    requires Usable(ck)
  {
    var md := MetadataOrEmpty(metadata);
    match ck.strategy
    case FixedSize => FixedChunking.FixedChunks(ck, text, docId, md)
    case Semantic => RecursiveChunking.RecursiveChunks(ck, text, docId, md)
    case Recursive => RecursiveChunking.RecursiveChunks(ck, text, docId, md)
    case Sentence => SentenceChunking.SentenceChunks(ck, text, docId, md)
  }

  /** The name written under `"strategy"` in every chunk's metadata: the
      semantic strategy writes `"recursive"`, because it runs that code. */
  function WrittenName(s: Strategy): string {
    if s.Semantic? then "recursive" else StrategyName(s)
  }

  /** `_chunk_semantic` returns exactly what `_chunk_recursive` returns. */
  lemma SemanticIsRecursive(ck: Chunker, text: string, docId: string, metadata: Option<Record>)
    requires ck.strategy == Semantic
    ensures DocumentChunks(ck, text, docId, metadata)
            == RecursiveChunking.RecursiveChunks(ck, text, docId, MetadataOrEmpty(metadata))
  {
  }

  /** Whatever the strategy, every chunk has text, carries the document id,
      and its metadata is the caller's (or `{}`) with `"strategy"` set. */
  lemma DocumentChunksTagged(ck: Chunker, text: string, docId: string, metadata: Option<Record>)
    requires Usable(ck)
    ensures forall c <- DocumentChunks(ck, text, docId, metadata) ::
      c.text != [] && c.docId == docId
      && c.metadata == Tagged(MetadataOrEmpty(metadata), WrittenName(ck.strategy))
  {
    var md := MetadataOrEmpty(metadata);
    match ck.strategy
    case FixedSize => FixedChunking.FixedChunkShape(ck, text, docId, md, 0, 0);
    case Semantic => RecursiveChunking.RecursiveChunksLocated(ck, text, docId, md);
    case Recursive => RecursiveChunking.RecursiveChunksLocated(ck, text, docId, md);
    case Sentence => SentenceChunking.SentenceChunksShape(ck, text, docId, md);
  }

  /** `chunk_document`. */
  method ChunkDocument(ck: Chunker, text: string, docId: string, metadata: Option<Record>)
    returns (chunks: seq<Chunk>)
    requires Usable(ck)
    ensures chunks == DocumentChunks(ck, text, docId, metadata)
  {
    var md := if metadata.None? then map[] else metadata.value;
    match ck.strategy {
      case FixedSize =>
        chunks := FixedChunking.ChunkFixedSize(ck, text, docId, md);
      case Semantic =>
        chunks := RecursiveChunking.ChunkRecursive(ck, text, docId, md);
      case Recursive =>
        chunks := RecursiveChunking.ChunkRecursive(ck, text, docId, md);
      case Sentence =>
        chunks := SentenceChunking.ChunkBySentence(ck, text, docId, md);
    }
  }
}
