/** The fixed-size strategy of the text chunker: a window of `chunk_size`
    characters that is pulled back to the last space when it ends inside the
    text, followed by the next window starting `chunk_overlap` characters
    before the end of this one (or at its end, when that would not move
    forward). */
module FixedChunking {
  import opened Strs
  import opened Values
  import opened Chunks

  function Min(a: int, b: int): int {
    if a <= b then a else b
  }

  /** The end of the window that starts at `start`. */
  function WindowEnd(text: string, size: int, start: nat): (end: nat)
    requires size >= 1
    ensures start < end <= start + size
  {
    var end := start + size;
    if end < |text| then
      var lastSpace := RFindChar(text, ' ', start, end);
      if lastSpace > start then lastSpace else end
    else
      end
  }

  /** Where the following window starts. */
  function NextStart(start: int, end: int, overlap: int): (next: int)
    ensures start < end ==> next > start
    ensures next == end - overlap || next == end
  {
    if end - overlap > start then end - overlap else end
  }

  /** The chunks emitted from the window at `start` onwards, numbered from
      `index`. A window whose stripped text is empty emits nothing and does
      not consume an index. */
  function FixedFrom(ck: Chunker, text: string, docId: string, metadata: Record,
                     start: nat, index: nat): seq<Chunk>
    requires ck.chunkSize >= 1
    decreases |text| - start
  {
    if start >= |text| then []
    else
      var end := WindowEnd(text, ck.chunkSize, start);
      var t := Strip(text[start..Min(end, |text|)]);
      var next := NextStart(start, end, ck.chunkOverlap);
      if t != [] then
        [Chunk(t, index, docId, start, end, ck.tok(t), Tagged(metadata, "fixed_size"))]
        + FixedFrom(ck, text, docId, metadata, next, index + 1)
      else
        FixedFrom(ck, text, docId, metadata, next, index)
  }

  function FixedChunks(ck: Chunker, text: string, docId: string, metadata: Record): seq<Chunk>
    requires ck.chunkSize >= 1
  {
    FixedFrom(ck, text, docId, metadata, 0, 0)
  }

  /** One window of `FixedFrom`: its chunk, if its stripped text `t` is
      not empty, followed by the windows from the next start. */
  lemma FixedStep(ck: Chunker, text: string, docId: string, metadata: Record, start: nat, index: nat,
                  end: nat, t: string, next: nat)
    requires ck.chunkSize >= 1 && start < |text|
    requires end == WindowEnd(text, ck.chunkSize, start)
    requires t == Strip(text[start..Min(end, |text|)]) && next == NextStart(start, end, ck.chunkOverlap)
    ensures t != [] ==>
      (FixedFrom(ck, text, docId, metadata, start, index)
       == [Chunk(t, index, docId, start, end, ck.tok(t), Tagged(metadata, "fixed_size"))]
          + FixedFrom(ck, text, docId, metadata, next, index + 1))
    ensures t == [] ==>
      (FixedFrom(ck, text, docId, metadata, start, index) == FixedFrom(ck, text, docId, metadata, next, index))
  {
  }

  /** The end of the window at `start`, as `_chunk_fixed_size` computes it. */
  method FindWindowEnd(text: string, size: int, start: nat) returns (end: nat)
    requires size >= 1
    ensures end == WindowEnd(text, size, start)
  {
    end := start + size;
    if end < |text| {
      var lastSpace := RFindChar(text, ' ', start, end);
      if lastSpace > start {
        end := lastSpace;
      }
    }
  }

  lemma Regroup(chunks: seq<Chunk>, chunk: Chunk, rest: seq<Chunk>)
    ensures (chunks + [chunk]) + rest == chunks + ([chunk] + rest)
  {
  }

  /** One pass of the loop of `_chunk_fixed_size`: the window at `start`
      adds its chunk, if any, and hands over to the next start. */
  method FixedNext(ck: Chunker, text: string, docId: string, metadata: Record, start: nat,
                   chunks: seq<Chunk>)
    returns (next: nat, chunks': seq<Chunk>)
    requires ck.chunkSize >= 1 && start < |text|
    ensures start < next
    ensures chunks' + FixedFrom(ck, text, docId, metadata, next, |chunks'|)
            == chunks + FixedFrom(ck, text, docId, metadata, start, |chunks|)
  {
    var chunkIndex := |chunks|;
    var end := FindWindowEnd(text, ck.chunkSize, start);
    var chunkText := Strip(text[start..Min(end, |text|)]);
    next := if end - ck.chunkOverlap > start then end - ck.chunkOverlap else end;
    FixedStep(ck, text, docId, metadata, start, chunkIndex, end, chunkText, next);
    if chunkText != [] {
      var chunk := Chunk(chunkText, chunkIndex, docId, start, end, ck.tok(chunkText),
                         Tagged(metadata, "fixed_size"));
      chunks' := chunks + [chunk];
      Regroup(chunks, chunk, FixedFrom(ck, text, docId, metadata, next, chunkIndex + 1));
    } else {
      chunks' := chunks;
    }
  }

  /** `_chunk_fixed_size`. */
  method ChunkFixedSize(ck: Chunker, text: string, docId: string, metadata: Record)
    returns (chunks: seq<Chunk>)
    requires ck.chunkSize >= 1
    ensures chunks == FixedChunks(ck, text, docId, metadata)
  {
    chunks := [];
    var start: nat := 0;
    while start < |text|
      invariant chunks + FixedFrom(ck, text, docId, metadata, start, |chunks|)
                == FixedChunks(ck, text, docId, metadata)
      decreases |text| - start
    {
      start, chunks := FixedNext(ck, text, docId, metadata, start, chunks);
    }
  }

  // ---------------------------------------------------------------------
  // Properties
  // ---------------------------------------------------------------------

  /** A window that ends inside the text is pulled back exactly when there
      is a space strictly after its start; it then ends at the last such
      space. */
  lemma WindowPullBack(text: string, size: int, start: nat)
    requires size >= 1
    ensures var end := WindowEnd(text, size, start);
      end < start + size <==>
        start + size < |text| && exists k :: start < k < start + size && text[k] == ' '
    ensures var end := WindowEnd(text, size, start);
      end < start + size ==>
        text[end] == ' ' && forall k :: end < k < start + size ==> text[k] != ' '
  {
    var end := WindowEnd(text, size, start);
    if start + size < |text| {
      var ls := RFindChar(text, ' ', start, start + size);
      if ls <= start {
        forall k | start < k < start + size
          ensures text[k] != ' '
        {
        }
      }
    }
  }

  /** Every chunk is a non-empty, stripped window of at most `chunk_size`
      characters that starts inside the text; its token count is the
      tokenizer's count of its text. */
  lemma {:induction false} FixedChunkShape(ck: Chunker, text: string, docId: string,
                                           metadata: Record, start: nat, index: nat)
    requires ck.chunkSize >= 1
    ensures forall c <- FixedFrom(ck, text, docId, metadata, start, index) ::
      start <= c.startChar < |text| && c.startChar < c.endChar <= c.startChar + ck.chunkSize
      && c.text == Strip(text[c.startChar..Min(c.endChar, |text|)]) && c.text != []
      && c.tokenCount == ck.tok(c.text) && c.docId == docId
      && c.metadata == Tagged(metadata, "fixed_size")
    decreases |text| - start
  {
    if start < |text| {
      var end := WindowEnd(text, ck.chunkSize, start);
      var next := NextStart(start, end, ck.chunkOverlap);
      FixedChunkShape(ck, text, docId, metadata, next, index);
      FixedChunkShape(ck, text, docId, metadata, next, index + 1);
    }
  }

  /** `chunk_index` counts the emitted chunks: the i-th chunk has index
      `index + i`. */
  lemma {:induction false} FixedIndices(ck: Chunker, text: string, docId: string,
                                        metadata: Record, start: nat, index: nat)
    requires ck.chunkSize >= 1
    ensures forall i :: 0 <= i < |FixedFrom(ck, text, docId, metadata, start, index)| ==>
      FixedFrom(ck, text, docId, metadata, start, index)[i].chunkIndex == index + i
    decreases |text| - start
  {
    if start < |text| {
      var end := WindowEnd(text, ck.chunkSize, start);
      var next := NextStart(start, end, ck.chunkOverlap);
      var t := Strip(text[start..Min(end, |text|)]);
      var r := FixedFrom(ck, text, docId, metadata, start, index);
      if t != [] {
        var rest := FixedFrom(ck, text, docId, metadata, next, index + 1);
        FixedIndices(ck, text, docId, metadata, next, index + 1);
        forall i | 0 <= i < |r|
          ensures r[i].chunkIndex == index + i
        {
          if i > 0 {
            assert r[i] == rest[i - 1];
          }
        }
      } else {
        FixedIndices(ck, text, docId, metadata, next, index);
      }
    }
  }

  /** Chunk `b` follows chunk `a`: it starts strictly later, and no earlier
      than where `a`'s window hands over. */
  predicate Advances(a: Chunk, b: Chunk, overlap: int) {
    a.startChar < b.startChar && b.startChar >= NextStart(a.startChar, a.endChar, overlap)
  }

  /** Consecutive chunks move strictly forward, and each starts no earlier
      than where the previous window hands over: `end - overlap`, or `end`
      when that would not move forward. */
  lemma {:induction false} FixedOrder(ck: Chunker, text: string, docId: string,
                                      metadata: Record, start: nat, index: nat)
    requires ck.chunkSize >= 1
    ensures forall i :: 0 <= i < |FixedFrom(ck, text, docId, metadata, start, index)| - 1 ==>
      Advances(FixedFrom(ck, text, docId, metadata, start, index)[i],
               FixedFrom(ck, text, docId, metadata, start, index)[i + 1], ck.chunkOverlap)
    decreases |text| - start
  {
    if start < |text| {
      var end := WindowEnd(text, ck.chunkSize, start);
      var next := NextStart(start, end, ck.chunkOverlap);
      var t := Strip(text[start..Min(end, |text|)]);
      if t != [] {
        FixedOrder(ck, text, docId, metadata, next, index + 1);
        FixedChunkShape(ck, text, docId, metadata, next, index + 1);
        var r := FixedFrom(ck, text, docId, metadata, start, index);
        var rest := FixedFrom(ck, text, docId, metadata, next, index + 1);
        forall i | 0 <= i < |r| - 1
          ensures Advances(r[i], r[i + 1], ck.chunkOverlap)
        {
          assert r[i + 1] == rest[i] && rest[i] in rest;
          if i > 0 {
            assert r[i] == rest[i - 1];
          }
        }
      } else {
        FixedOrder(ck, text, docId, metadata, next, index);
      }
    }
  }
}
