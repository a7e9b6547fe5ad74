/** `EmbeddingGenerator`: texts are embedded in batches, with a per-text
    fallback when a batch call fails, and each enriched chunk becomes a
    vector record (id, values, flattened metadata).

    The embedding service is two functions: one call for a batch of texts,
    and one call for a single text at a given attempt (the single call is
    retried, the batch call is not). Vectors are opaque sequences of
    numbers. */
module Embeddings {
  import opened Wrappers
  import opened Strs
  import opened Values
  import opened Chunks
  import Enrichment
  import Retry

  type Vector = seq<real>

  datatype Embedder = Embedder(
    model: string,
    embedMany: seq<string> -> Result<seq<Vector>, string>,
    embedOne: (string, nat) -> Result<Vector, string>)

  /** The service answers a successful batch call with one vector per
      text. */
  ghost predicate OneEach(emb: Embedder) {
    forall ts :: emb.embedMany(ts).Success? ==> |emb.embedMany(ts).value| == |ts|
  }

  // ---------------------------------------------------------------------
  // Dimension and cleaning
  // ---------------------------------------------------------------------

  const Dimensions: map<string, nat> := map[
    "text-embedding-3-small" := 1536,
    "text-embedding-3-large" := 3072,
    "text-embedding-ada-002" := 1536
  ]

  /** `_get_embedding_dimension`: the known models' sizes, 1536 for any
      other. */
  function Dimension(model: string): nat {
    if model in Dimensions then Dimensions[model] else 1536
  }

  /** Only the large model has 3072 dimensions; every other model, known
      or not, has 1536. */
  lemma DimensionOf(model: string)
    ensures Dimension(model) == 3072 <==> model == "text-embedding-3-large"
    ensures Dimension(model) == 1536 <==> model != "text-embedding-3-large"
  {
  }

  /** `[0.0] * self.dimension`. */
  function Zero(dim: nat): (v: Vector)
    ensures |v| == dim && forall i :: 0 <= i < dim ==> v[i] == 0.0
  {
    seq(dim, _ => 0.0)
  }

  /** `text.replace("\n", " ").strip()`. */
  function CleanText(text: string): string {
    Strip(ReplaceChar(text, '\n', ' '))
  }

  /** A cleaned text has no line break and no surrounding whitespace, so
      cleaning it again changes nothing. */
  lemma CleanTextShape(text: string)
    ensures forall i :: 0 <= i < |CleanText(text)| ==> CleanText(text)[i] != '\n'
    ensures CleanText(text) == [] || (!IsSpace(CleanText(text)[0]) && !IsSpace(CleanText(text)[|CleanText(text)| - 1]))
    ensures CleanText(CleanText(text)) == CleanText(text)
  {
    var r := ReplaceChar(text, '\n', ' ');
    StripKeepsNoBreak(r);
    StripSlice(r);
    ReplaceNoBreak(Strip(r));
    StripIdempotent(r);
  }

  /** A slice of a text without line breaks has none either. */
  lemma StripKeepsNoBreak(r: string)
    requires forall i :: 0 <= i < |r| ==> r[i] != '\n'
    ensures forall i :: 0 <= i < |Strip(r)| ==> Strip(r)[i] != '\n'
  {
    StripSlice(r);
  }

  /** Replacing line breaks in a text without any changes nothing. */
  lemma ReplaceNoBreak(c: string)
    requires forall i :: 0 <= i < |c| ==> c[i] != '\n'
    ensures ReplaceChar(c, '\n', ' ') == c
  {
  }

  // ---------------------------------------------------------------------
  // generate_embeddings_batch
  // ---------------------------------------------------------------------

  /** `(len(texts) + batch_size - 1) // batch_size`. */
  function NumBatches(n: nat, bs: nat): nat
    requires bs >= 1
  {
    (n + bs - 1) / bs
  }

  function Min(a: int, b: int): int {
    if a <= b then a else b
  }

  /** Batch `i` runs from `i * bs` to `min((i + 1) * bs, n)`. */
  function BatchEnd(i: nat, bs: nat, n: nat): nat {
    Min((i + 1) * bs, n)
  }

  lemma DivBounds(n: nat, bs: nat)
    requires bs >= 1
    ensures NumBatches(n, bs) * bs >= n
    ensures n > 0 ==> (NumBatches(n, bs) - 1) * bs < n
    ensures n == 0 ==> NumBatches(n, bs) == 0
  {
    var q := NumBatches(n, bs);
    var r := (n + bs - 1) % bs;
    assert n + bs - 1 == q * bs + r;
    assert (q - 1) * bs == q * bs - bs;
  }

  lemma MulMono(i: nat, j: nat, bs: nat)
    requires i <= j
    ensures i * bs <= j * bs
  {
    assert j * bs - i * bs == (j - i) * bs;
  }

  /** The batches cover the texts in order: each is non-empty and at most
      `bs` long, starts where the previous one ended, the first starts at 0
      and the last ends at `n`; only the last can be shorter than `bs`. */
  lemma BatchesCover(n: nat, bs: nat, i: nat)
    requires bs >= 1 && i < NumBatches(n, bs)
    ensures i * bs < BatchEnd(i, bs, n) <= n
    ensures BatchEnd(i, bs, n) - i * bs <= bs
    ensures i + 1 < NumBatches(n, bs) ==> BatchEnd(i, bs, n) == (i + 1) * bs
    ensures i + 1 == NumBatches(n, bs) ==> BatchEnd(i, bs, n) == n
  {
    DivBounds(n, bs);
    var q := NumBatches(n, bs);
    MulMono(i, q - 1, bs);
    assert (i + 1) * bs == i * bs + bs;
    if i + 1 < q {
      MulMono(i + 1, q - 1, bs);
    }
  }

  /** The texts of batch `i`. */
  function Batch(texts: seq<string>, bs: nat, i: nat): seq<string>
    requires bs >= 1 && i < NumBatches(|texts|, bs)
  {
    BatchesCover(|texts|, bs, i);
    texts[i * bs..BatchEnd(i, bs, |texts|)]
  }

  function Cleaned(texts: seq<string>): (r: seq<string>)
    ensures |r| == |texts| && forall j :: 0 <= j < |texts| ==> r[j] == CleanText(texts[j])
  {
    seq(|texts|, j requires 0 <= j < |texts| => CleanText(texts[j]))
  }

  function OneAttempts(emb: Embedder, text: string): nat -> Result<Vector, string> {
    (n: nat) => emb.embedOne(text, n)
  }

  /** `generate_embedding` (cleaning, then up to three attempts; a
      `RetryError` when all of them fail). */
  function Embedding(emb: Embedder, text: string): Result<Vector, string> {
    Retry.Retried(OneAttempts(emb, CleanText(text)))
  }

  /** The fallback for one text: its own embedding, or the zero vector. */
  function Single(emb: Embedder, text: string): Vector {
    match Embedding(emb, text)
    case Success(v) => v
    case Failure(_) => Zero(Dimension(emb.model))
  }

  function Fallback(emb: Embedder, texts: seq<string>): (r: seq<Vector>)
    ensures |r| == |texts| && forall j :: 0 <= j < |texts| ==> r[j] == Single(emb, texts[j])
  {
    seq(|texts|, j requires 0 <= j < |texts| => Single(emb, texts[j]))
  }

  /** What one batch contributes: the batch call's vectors, or one
      fallback vector per text. */
  function BatchVectors(emb: Embedder, texts: seq<string>): seq<Vector> {
    match emb.embedMany(Cleaned(texts))
    case Success(vs) => vs
    case Failure(_) => Fallback(emb, texts)
  }

  function EmbedFrom(emb: Embedder, texts: seq<string>, bs: nat, i: nat): seq<Vector>
    requires bs >= 1
    decreases NumBatches(|texts|, bs) - i
  {
    if i >= NumBatches(|texts|, bs) then []
    else BatchVectors(emb, Batch(texts, bs, i)) + EmbedFrom(emb, texts, bs, i + 1)
  }

  /** The result of `generate_embeddings_batch`. */
  function Embeddings(emb: Embedder, texts: seq<string>, bs: nat): seq<Vector>
    requires bs >= 1
  {
    EmbedFrom(emb, texts, bs, 0)
  }

  lemma EmbedStep(emb: Embedder, texts: seq<string>, bs: nat, i: nat)
    requires bs >= 1 && i < NumBatches(|texts|, bs)
    ensures EmbedFrom(emb, texts, bs, i) == BatchVectors(emb, Batch(texts, bs, i)) + EmbedFrom(emb, texts, bs, i + 1)
  {
  }

  /** An independent account of the vector for text `k`: the vector at its
      place in its batch's answer, or, when that batch call failed, its own
      embedding or the zero vector. */
  function ItemVector(emb: Embedder, texts: seq<string>, bs: nat, k: nat): Vector
    requires bs >= 1 && k < |texts|
  {
    var b := k / bs;
    var lo := b * bs;
    var hi := Min(lo + bs, |texts|);
    if 0 <= lo <= k < hi then
      match emb.embedMany(Cleaned(texts[lo..hi]))
      case Success(vs) => if k - lo < |vs| then vs[k - lo] else Zero(Dimension(emb.model))
      case Failure(_) => Single(emb, texts[k])
    else Zero(Dimension(emb.model))
  }

  lemma DivOf(k: nat, bs: nat, i: nat)
    requires bs >= 1 && i * bs <= k < i * bs + bs
    ensures k / bs == i
  {
    var q := k / bs;
    var r := k % bs;
    assert k == q * bs + r;
    if q < i {
      assert (q + 1) * bs == q * bs + bs;
      MulMono(q + 1, i, bs);
    } else if q > i {
      MulMono(i + 1, q, bs);
    }
  }

  /** Inside batch `i`, the batch's answer holds each text's own
      `ItemVector`, one per text. */
  lemma BatchItem(emb: Embedder, texts: seq<string>, bs: nat, i: nat, k: nat)
    requires bs >= 1 && OneEach(emb) && i < NumBatches(|texts|, bs)
    requires i * bs <= k < BatchEnd(i, bs, |texts|)
    ensures |BatchVectors(emb, Batch(texts, bs, i))| == BatchEnd(i, bs, |texts|) - i * bs
    ensures BatchVectors(emb, Batch(texts, bs, i))[k - i * bs] == ItemVector(emb, texts, bs, k)
  {
    var n := |texts|;
    var lo := i * bs;
    var hi := BatchEnd(i, bs, n);
    BatchesCover(n, bs, i);
    assert k / bs == i by {
      DivOf(k, bs, i);
    }
    assert hi == Min(lo + bs, n) by {
      assert (i + 1) * bs == lo + bs;
    }
    var batch := Batch(texts, bs, i);
    assert batch == texts[lo..hi];
    assert |batch| == hi - lo;
    assert batch[k - lo] == texts[k];
  }

  /** Batch `i`'s answer followed by vectors that are the later texts' own
      `ItemVector`s: every text from batch `i` on has its own vector. */
  lemma HeadTailItems(emb: Embedder, texts: seq<string>, bs: nat, i: nat, tail: seq<Vector>)
    requires bs >= 1 && OneEach(emb) && i < NumBatches(|texts|, bs)
    requires |tail| == |texts| - BatchEnd(i, bs, |texts|)
    requires forall k :: BatchEnd(i, bs, |texts|) <= k < |texts| ==>
      tail[k - BatchEnd(i, bs, |texts|)] == ItemVector(emb, texts, bs, k)
    ensures |BatchVectors(emb, Batch(texts, bs, i)) + tail| == |texts| - i * bs
    ensures forall k :: i * bs <= k < |texts| ==>
      (BatchVectors(emb, Batch(texts, bs, i)) + tail)[k - i * bs] == ItemVector(emb, texts, bs, k)
  {
    var lo := i * bs;
    var hi := BatchEnd(i, bs, |texts|);
    var head := BatchVectors(emb, Batch(texts, bs, i));
    BatchesCover(|texts|, bs, i);
    BatchItem(emb, texts, bs, i, lo);
    forall k | lo <= k < |texts|
      ensures (head + tail)[k - lo] == ItemVector(emb, texts, bs, k)
    {
      if k < hi {
        BatchItem(emb, texts, bs, i, k);
      } else {
        assert (head + tail)[k - lo] == tail[k - hi];
      }
    }
  }

  /** From batch `i` on, one vector per text and each one is the text's
      own `ItemVector`. */
  lemma {:induction false} EmbedFromItems(emb: Embedder, texts: seq<string>, bs: nat, i: nat)
    requires bs >= 1 && OneEach(emb) && i <= NumBatches(|texts|, bs)
    ensures |EmbedFrom(emb, texts, bs, i)| == |texts| - Min(i * bs, |texts|)
    ensures forall k :: Min(i * bs, |texts|) <= k < |texts| ==>
      EmbedFrom(emb, texts, bs, i)[k - Min(i * bs, |texts|)] == ItemVector(emb, texts, bs, k)
    decreases NumBatches(|texts|, bs) - i
  {
    var n := |texts|;
    DivBounds(n, bs);
    if i == NumBatches(n, bs) {
      return;
    }
    BatchesCover(n, bs, i);
    EmbedFromItems(emb, texts, bs, i + 1);
    EmbedStep(emb, texts, bs, i);
    assert Min(i * bs, n) == i * bs;
    assert Min((i + 1) * bs, n) == BatchEnd(i, bs, n);
    HeadTailItems(emb, texts, bs, i, EmbedFrom(emb, texts, bs, i + 1));
  }

  /** `generate_embeddings_batch` gives one vector per text, in input
      order, provided each successful batch call answers one vector per
      text; the vector of a text whose batch failed is its own embedding,
      or the zero vector of the model's dimension when that fails too. */
  lemma EmbeddingsPerText(emb: Embedder, texts: seq<string>, bs: nat)
    requires bs >= 1 && OneEach(emb)
    ensures |Embeddings(emb, texts, bs)| == |texts|
    ensures forall k :: 0 <= k < |texts| ==> Embeddings(emb, texts, bs)[k] == ItemVector(emb, texts, bs, k)
  {
    EmbedFromItems(emb, texts, bs, 0);
  }

  /** The per-text fallback loop: each text's own embedding, or the zero
      vector. */
  method EmbedEach(emb: Embedder, texts: seq<string>) returns (vectors: seq<Vector>)
    ensures vectors == Fallback(emb, texts)
  {
    vectors := [];
    for j := 0 to |texts|
      invariant vectors == Fallback(emb, texts[..j])
    {
      var r, _ := Retry.CallWithRetry(OneAttempts(emb, CleanText(texts[j])));
      if r.Success? {
        vectors := vectors + [r.value];
      } else {
        vectors := vectors + [Zero(Dimension(emb.model))];
      }
      assert texts[..j + 1] == texts[..j] + [texts[j]];
    }
    assert texts[..|texts|] == texts;
  }

  /** One batch of `generate_embeddings_batch`: the batch call on the
      cleaned texts, or the per-text fallback when it fails. */
  method EmbedBatch(emb: Embedder, texts: seq<string>, batchSize: nat, i: nat)
    returns (batchEmbeddings: seq<Vector>)
    requires batchSize >= 1 && i < NumBatches(|texts|, batchSize)
    ensures batchEmbeddings == BatchVectors(emb, Batch(texts, batchSize, i))
  {
    BatchesCover(|texts|, batchSize, i);
    var startIdx := i * batchSize;
    var endIdx := Min((i + 1) * batchSize, |texts|);
    var batchTexts := texts[startIdx..endIdx];
    var cleaned := seq(|batchTexts|, j requires 0 <= j < |batchTexts| => CleanText(batchTexts[j]));
    var response := emb.embedMany(cleaned);
    assert cleaned == Cleaned(batchTexts);
    if response.Success? {
      batchEmbeddings := response.value;
    } else {
      batchEmbeddings := EmbedEach(emb, batchTexts);
    }
  }

  /** `generate_embeddings_batch`. */
  method GenerateEmbeddingsBatch(emb: Embedder, texts: seq<string>, batchSize: nat)
    returns (all: seq<Vector>)
    requires batchSize >= 1
    ensures all == Embeddings(emb, texts, batchSize)
  {
    all := [];
    var numBatches := (|texts| + batchSize - 1) / batchSize;
    for i := 0 to numBatches
      invariant all + EmbedFrom(emb, texts, batchSize, i) == Embeddings(emb, texts, batchSize)
    {
      var batchEmbeddings := EmbedBatch(emb, texts, batchSize, i);
      EmbedStep(emb, texts, batchSize, i);
      assert all + EmbedFrom(emb, texts, batchSize, i)
          == (all + batchEmbeddings) + EmbedFrom(emb, texts, batchSize, i + 1);
      all := all + batchEmbeddings;
    }
  }

  // ---------------------------------------------------------------------
  // Vector records
  // ---------------------------------------------------------------------

  /** A record in the vector store's format: `{id, values, metadata}`. */
  datatype VectorRecord = VectorRecord(id: string, values: Vector, metadata: Record)

  /** `f"{doc_id}_{chunk_index}"`. */
  function VectorId(docId: string, chunkIndex: int): string {
    docId + "_" + IntToString(chunkIndex)
  }

  lemma IntToStringNoUnderscore(i: int)
    ensures forall j :: 0 <= j < |IntToString(i)| ==> IntToString(i)[j] != '_'
  {
    if i < 0 {
      assert forall j :: 1 <= j < |IntToString(i)| ==> IntToString(i)[j] == NatToString(-i)[j - 1];
    }
  }

  /** In `d + "_" + a` with no `_` in `a`, the last `_` is the one at `|d|`. */
  lemma LastUnderscore(d: string, a: string)
    requires forall j :: 0 <= j < |a| ==> a[j] != '_'
    ensures (d + "_" + a)[|d|] == '_'
    ensures forall j :: |d| < j < |d| + 1 + |a| ==> (d + "_" + a)[j] != '_'
  {
    var s := d + "_" + a;
    forall j | |d| < j < |d| + 1 + |a|
      ensures s[j] != '_'
    {
      assert s[j] == a[j - |d| - 1];
    }
  }

  /** Ids are unique: two chunks get the same id only when they have the
      same document id and the same index. */
  lemma VectorIdUnique(d1: string, i1: int, d2: string, i2: int)
    requires VectorId(d1, i1) == VectorId(d2, i2)
    ensures d1 == d2 && i1 == i2
  {
    var s := VectorId(d1, i1);
    var a := IntToString(i1);
    var b := IntToString(i2);
    IntToStringNoUnderscore(i1);
    IntToStringNoUnderscore(i2);
    LastUnderscore(d1, a);
    LastUnderscore(d2, b);
    assert |d1| == |d2|;
    assert a == s[|d1| + 1..] == b;
    IntToStringInjective(i1, i2);
    assert d1 == s[..|d1|] == d2;
  }

  /** `v[:n]` on a list or a string; other values cannot be sliced here. */
  function Truncated(v: Value, n: nat): Option<Value> {
    match v
    case VList(items) => Some(VList(if |items| <= n then items else items[..n]))
    case VStr(s) => Some(VStr(Take(s, n)))
    case _ => None
  }

  /** `sep.join(v[:n])`. */
  function JoinedPrefix(sep: string, v: Value, n: nat): Option<string> {
    match Truncated(v, n)
    case None => None
    case Some(t) => Enrichment.JoinField(sep, t)
  }

  /** Only the first `n` items are looked at: what follows them, strings or
      not, changes nothing. */
  lemma JoinedPrefixIgnoresRest(sep: string, items: seq<Value>, rest: seq<Value>, n: nat)
    requires |items| >= n
    ensures JoinedPrefix(sep, VList(items + rest), n) == JoinedPrefix(sep, VList(items), n)
  {
    if rest == [] {
      assert items + rest == items;
    } else {
      assert (items + rest)[..n] == items[..n];
      if |items| == n {
        assert items[..n] == items;
      }
    }
  }

  /** The chunk's own metadata entries that are strings, numbers or
      booleans. */
  function ScalarEntries(md: Record): Record {
    map k | k in md && IsScalar(md[k]) :: md[k]
  }

  /** The metadata keys written for every record. */
  const FixedKeys: set<string> := {"doc_id", "chunk_index", "start_char", "end_char", "token_count", "text",
                                   "contextual_summary", "topic", "key_concepts", "keywords", "questions"}

  /** The fixed entries of a record's metadata, given the joined list
      fields. */
  function FixedEntries(ec: Enrichment.EnrichedChunk, concepts: string, keywords: string, questions: string)
    : (m: Record)
    ensures m.Keys == FixedKeys
    ensures m["text"].VStr? && m["text"].s == Take(ec.original.text, 1000)
    ensures m["doc_id"] == VStr(ec.original.docId) && m["chunk_index"] == VInt(ec.original.chunkIndex)
  {
    var c := ec.original;
    map[
      "doc_id" := VStr(c.docId),
      "chunk_index" := VInt(c.chunkIndex),
      "start_char" := VInt(c.startChar),
      "end_char" := VInt(c.endChar),
      "token_count" := VInt(c.tokenCount),
      "text" := VStr(Take(c.text, 1000)),
      "contextual_summary" := ec.summary,
      "topic" := ec.topic,
      "key_concepts" := VStr(concepts),
      "keywords" := VStr(keywords),
      "questions" := VStr(questions)
    ]
  }

  /** The metadata of `create_vector_for_enriched_chunk`, or `None` where
      building it raises (a list field that cannot be sliced or joined). */
  function VectorMetadata(ec: Enrichment.EnrichedChunk): Option<Record> {
    var concepts := JoinedPrefix(", ", ec.keyConcepts, 5);
    var keywords := JoinedPrefix(", ", ec.keywords, 10);
    var questions := JoinedPrefix(" | ", ec.questions, 3);
    if concepts.None? || keywords.None? || questions.None? then None
    else Some(FixedEntries(ec, concepts.value, keywords.value, questions.value) + ScalarEntries(ec.original.metadata))
  }

  /** The metadata has the fixed keys and the chunk's scalar entries and
      nothing else; a chunk entry overrides a fixed key of the same name,
      and a non-scalar chunk entry is never copied. Unless overridden, the
      text is the chunk's first 1000 characters and the document id and
      index are the chunk's. */
  lemma VectorMetadataShape(ec: Enrichment.EnrichedChunk)
    ensures VectorMetadata(ec).Some? ==>
      var m := VectorMetadata(ec).value;
      var md := ec.original.metadata;
      (forall k :: k in m <==> k in FixedKeys || (k in md && IsScalar(md[k])))
      && (forall k :: k in md && IsScalar(md[k]) ==> m[k] == md[k])
      && (forall k :: k in m && k !in FixedKeys ==> IsScalar(m[k]))
      && ("text" !in ScalarEntries(md) ==>
            m["text"].VStr? && |m["text"].s| <= 1000 && m["text"].s == ec.original.text[..|m["text"].s|]
            && (|ec.original.text| <= 1000 ==> m["text"].s == ec.original.text))
      && ("doc_id" !in ScalarEntries(md) ==> m["doc_id"] == VStr(ec.original.docId))
      && ("chunk_index" !in ScalarEntries(md) ==> m["chunk_index"] == VInt(ec.original.chunkIndex))
    ensures VectorMetadata(ec).None? <==>
      JoinedPrefix(", ", ec.keyConcepts, 5).None? || JoinedPrefix(", ", ec.keywords, 10).None?
      || JoinedPrefix(" | ", ec.questions, 3).None?
  {
    var concepts := JoinedPrefix(", ", ec.keyConcepts, 5);
    var keywords := JoinedPrefix(", ", ec.keywords, 10);
    var questions := JoinedPrefix(" | ", ec.questions, 3);
    if concepts.Some? && keywords.Some? && questions.Some? {
      var f := FixedEntries(ec, concepts.value, keywords.value, questions.value);
      var md := ec.original.metadata;
      var m := f + ScalarEntries(md);
      assert VectorMetadata(ec) == Some(m);
      if "text" !in ScalarEntries(md) {
        assert m["text"] == f["text"];
      }
    }
  }

  /** The record for one enriched chunk and its vector. */
  function RecordFor(ec: Enrichment.EnrichedChunk, values: Vector): Option<VectorRecord> {
    match VectorMetadata(ec)
    case None => None
    case Some(m) => Some(VectorRecord(VectorId(ec.original.docId, ec.original.chunkIndex), values, m))
  }

  /** The text that is embedded: the enhanced text, or the chunk's own. */
  function EmbeddingText(ec: Enrichment.EnrichedChunk, useEnhancedText: bool): string {
    if useEnhancedText then ec.enhancedText else ec.original.text
  }

  /** `create_vector_for_enriched_chunk`: embed, then build the record. */
  function VectorForEnrichedChunk(emb: Embedder, ec: Enrichment.EnrichedChunk, useEnhancedText: bool)
    : (r: Result<VectorRecord, string>)
    ensures r.Success? ==> r.value.id == VectorId(ec.original.docId, ec.original.chunkIndex)
    ensures r.Success? ==> Embedding(emb, EmbeddingText(ec, useEnhancedText)) == Success(r.value.values)
  {
    match Embedding(emb, EmbeddingText(ec, useEnhancedText))
    case Failure(e) => Failure(e)
    case Success(v) =>
      match RecordFor(ec, v)
      case None => Failure("sequence item: expected str instance")
      case Some(rec) => Success(rec)
  }

  /** When every embedding attempt fails, `create_vector_for_enriched_chunk`
      raises the `RetryError` wrapping the third attempt's error; when the
      first attempt succeeds, its vector is the one recorded. */
  lemma VectorRetries(emb: Embedder, ec: Enrichment.EnrichedChunk, useEnhancedText: bool)
    ensures var call := OneAttempts(emb, CleanText(EmbeddingText(ec, useEnhancedText)));
      (forall a :: 0 <= a < Retry.MaxAttempts ==> call(a).Failure?) ==>
        VectorForEnrichedChunk(emb, ec, useEnhancedText) == Failure(Retry.RetryError(call(Retry.MaxAttempts - 1).error))
    ensures var call := OneAttempts(emb, CleanText(EmbeddingText(ec, useEnhancedText)));
      VectorForEnrichedChunk(emb, ec, useEnhancedText).Success? ==>
        call(0).Success? ==> VectorForEnrichedChunk(emb, ec, useEnhancedText).value.values == call(0).value
  {
    var call := OneAttempts(emb, CleanText(EmbeddingText(ec, useEnhancedText)));
    Retry.RetryFromFirst(call, 0, Retry.MaxAttempts);
  }

  /** All the values, or `None` as soon as one of the first `k` is
      missing. */
  function CollectUpTo<T>(opts: seq<Option<T>>, k: nat): Option<seq<T>>
    requires k <= |opts|
  {
    if k == 0 then Some([])
    else
      match CollectUpTo(opts, k - 1)
      case None => None
      case Some(p) =>
        match opts[k - 1]
        case None => None
        case Some(x) => Some(p + [x])
  }

  /** One more candidate: collecting stays whole exactly when it is there. */
  lemma CollectNext<T>(opts: seq<Option<T>>, i: nat, p: seq<T>)
    requires i < |opts| && CollectUpTo(opts, i) == Some(p)
    ensures opts[i].Some? ==> CollectUpTo(opts, i + 1) == Some(p + [opts[i].value])
    ensures opts[i].None? ==> CollectUpTo(opts, i + 1).None?
  {
  }

  /** Once a candidate is missing, collecting further stays `None`. */
  lemma {:induction false} CollectStaysNone<T>(opts: seq<Option<T>>, i: nat, k: nat)
    requires i <= k <= |opts| && CollectUpTo(opts, i).None?
    ensures CollectUpTo(opts, k).None?
    decreases k - i
  {
    if i < k {
      CollectStaysNone(opts, i + 1, k);
    }
  }

  /** Collecting succeeds exactly when every value is there, and then it
      gives the values in order. */
  lemma {:induction false} CollectUpToShape<T>(opts: seq<Option<T>>, k: nat)
    requires k <= |opts|
    ensures CollectUpTo(opts, k).Some? <==> forall i :: 0 <= i < k ==> opts[i].Some?
    ensures CollectUpTo(opts, k).Some? ==>
      |CollectUpTo(opts, k).value| == k
      && forall i :: 0 <= i < k ==> CollectUpTo(opts, k).value[i] == opts[i].value
  {
    if k > 0 {
      CollectUpToShape(opts, k - 1);
    }
  }

  /** The candidate records of `zip(chunks, embeddings)`: as many as the
      shorter of the two, the i-th built from the i-th of each. */
  function Zipped(ecs: seq<Enrichment.EnrichedChunk>, vs: seq<Vector>): (r: seq<Option<VectorRecord>>)
    ensures |r| == Min(|ecs|, |vs|)
    ensures forall i {:trigger RecordFor(ecs[i], vs[i])} :: 0 <= i < |r| ==> r[i] == RecordFor(ecs[i], vs[i])
  {
    seq(Min(|ecs|, |vs|), i requires 0 <= i < Min(|ecs|, |vs|) => RecordFor(ecs[i], vs[i]))
  }

  /** The records of `create_vectors_batch`, or `None` when one cannot be
      built. */
  function Records(ecs: seq<Enrichment.EnrichedChunk>, vs: seq<Vector>): Option<seq<VectorRecord>> {
    CollectUpTo(Zipped(ecs, vs), Min(|ecs|, |vs|))
  }

  /** A record carries the chunk's id and its own vector. */
  lemma RecordForShape(ec: Enrichment.EnrichedChunk, values: Vector)
    ensures RecordFor(ec, values).Some? ==>
      RecordFor(ec, values).value.id == VectorId(ec.original.docId, ec.original.chunkIndex)
      && RecordFor(ec, values).value.values == values
      && RecordFor(ec, values).value.metadata == VectorMetadata(ec).value
  {
  }

  /** What `", ".join` raises on a list entry that is not a string. */
  const MetadataError := "sequence item: expected str instance"

  /** The record-building loop of `create_vectors_batch`. */
  method BuildRecords(ecs: seq<Enrichment.EnrichedChunk>, embeddings: seq<Vector>)
    returns (r: Result<seq<VectorRecord>, string>)
    ensures r.Success? <==> Records(ecs, embeddings).Some?
    ensures r.Success? ==> r.value == Records(ecs, embeddings).value
    ensures r.Failure? ==> r.error == MetadataError
  {
    var n := Min(|ecs|, |embeddings|);
    var opts := Zipped(ecs, embeddings);
    var vectors := [];
    for i := 0 to n
      invariant CollectUpTo(opts, i) == Some(vectors)
    {
      var rec := opts[i];
      CollectNext(opts, i, vectors);
      if rec.None? {
        CollectStaysNone(opts, i + 1, n);
        return Failure(MetadataError);
      }
      vectors := vectors + [rec.value];
    }
    r := Success(vectors);
  }

  /** `create_vectors_batch`: embed every chunk's text in batches of 100,
      then build one record per pair of `zip(chunks, embeddings)`; it fails
      exactly when one of those records cannot be built. */
  method CreateVectorsBatch(emb: Embedder, ecs: seq<Enrichment.EnrichedChunk>, useEnhancedText: bool)
    returns (r: Result<seq<VectorRecord>, string>, embeddings: seq<Vector>)
    ensures embeddings == Embeddings(emb, seq(|ecs|, i requires 0 <= i < |ecs| => EmbeddingText(ecs[i], useEnhancedText)), 100)
    ensures r.Success? <==> Records(ecs, embeddings).Some?
    ensures r.Success? ==> r.value == Records(ecs, embeddings).value
    ensures r.Failure? ==> r.error == MetadataError
  {
    var texts := seq(|ecs|, i requires 0 <= i < |ecs| => EmbeddingText(ecs[i], useEnhancedText));
    embeddings := GenerateEmbeddingsBatch(emb, texts, 100);
    r := BuildRecords(ecs, embeddings);
  }
}
