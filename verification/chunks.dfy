/** The chunk record produced by every chunking strategy, the chunker's
    settings, and the bookkeeping the strategies share: locating a chunk's
    text with `str.find` from a moving position. */
module Chunks {
  import opened Strs
  import opened Values

  /** One piece of a document. `startChar`/`endChar` are what the strategy
      computed; they can be -1-based when a search fails (sentence strategy). */
  datatype Chunk = Chunk(
    text: string,
    chunkIndex: int,
    docId: string,
    startChar: int,
    endChar: int,
    tokenCount: int,
    metadata: Record)

  datatype Strategy = FixedSize | Semantic | Recursive | Sentence

  /** The settings a `TextChunker` holds. `tok` is the tokenizer's
      `count_tokens`, an uninterpreted function of the text. */
  datatype Chunker = Chunker(
    chunkSize: int,
    chunkOverlap: int,
    strategy: Strategy,
    tok: string -> nat)

  /** The strategy's name as written into each chunk's metadata. */
  function StrategyName(s: Strategy): string {
    match s
    case FixedSize => "fixed_size"
    case Semantic => "semantic"
    case Recursive => "recursive"
    case Sentence => "sentence"
  }

  /** `{**metadata, "strategy": name}`: the caller's metadata with the
      strategy key added or overwritten. */
  function Tagged(metadata: Record, name: string): (r: Record)
    ensures "strategy" in r && r["strategy"] == VStr(name)
    ensures forall k :: k in r <==> k in metadata || k == "strategy"
    ensures forall k :: k in metadata && k != "strategy" ==> r[k] == metadata[k]
  {
    metadata["strategy" := VStr(name)]
  }

  /** Sum of the token counts of `parts`. */
  function SumTok(tok: string -> nat, parts: seq<string>): nat {
    if parts == [] then 0 else SumTok(tok, parts[..|parts| - 1]) + tok(parts[|parts| - 1])
  }

  lemma SumTokAppend(tok: string -> nat, parts: seq<string>, p: string)
    ensures SumTok(tok, parts + [p]) == SumTok(tok, parts) + tok(p)
  {
    assert (parts + [p])[..|parts|] == parts;
  }

  /** The chunk's offsets point at its text inside the document. */
  predicate Located(c: Chunk, text: string) {
    0 <= c.startChar && c.endChar == c.startChar + |c.text| && c.endChar <= |text|
    && text[c.startChar..c.endChar] == c.text
  }

  // ---------------------------------------------------------------------
  // Locating texts one after the other with str.find
  // ---------------------------------------------------------------------

  /** Locating `parts` in `text` one after another, each search starting
      where the previous match ended (as the chunk-building loops do),
      finds every one of them. */
  predicate FindsAll(parts: seq<string>, text: string, from: nat)
    decreases |parts|
  {
    parts == [] ||
    (Find(text, parts[0], from) >= 0 &&
     FindsAll(parts[1..], text, Find(text, parts[0], from) + |parts[0]|))
  }

  /** Where the search position is after locating all of `parts`. */
  function FindsEnd(parts: seq<string>, text: string, from: nat): nat
    requires FindsAll(parts, text, from)
    decreases |parts|
  {
    if parts == [] then from
    else FindsEnd(parts[1..], text, Find(text, parts[0], from) + |parts[0]|)
  }

  /** The searches end no earlier than they start, and inside the text. */
  lemma {:induction false} FindsEndBounds(parts: seq<string>, text: string, from: nat)
    requires FindsAll(parts, text, from)
    ensures FindsEnd(parts, text, from) >= from
    ensures parts != [] ==> FindsEnd(parts, text, from) <= |text|
    decreases |parts|
  {
    if parts != [] {
      var i := Find(text, parts[0], from);
      FindsEndBounds(parts[1..], text, i + |parts[0]|);
    }
  }

  /** Searching from an earlier position finds the first occurrence no later. */
  lemma FindEarlier(text: string, sub: string, f: nat, g: nat)
    requires f <= g && Find(text, sub, g) >= 0
    ensures 0 <= Find(text, sub, f) <= Find(text, sub, g)
  {
    FindOccurs(text, sub, g);
    FindIsFirst(text, sub, f);
  }

  /** Starting the searches earlier never makes one fail, and ends no later. */
  lemma {:induction false} FindsEarlier(parts: seq<string>, text: string, f: nat, g: nat)
    requires f <= g && FindsAll(parts, text, g)
    ensures FindsAll(parts, text, f)
    ensures FindsEnd(parts, text, f) <= FindsEnd(parts, text, g)
    decreases |parts|
  {
    if parts != [] {
      FindEarlier(text, parts[0], f, g);
      FindsEarlier(parts[1..], text, Find(text, parts[0], f) + |parts[0]|,
        Find(text, parts[0], g) + |parts[0]|);
    }
  }

  /** Two runs of searches compose when the second starts no earlier than
      the first one ended. */
  lemma {:induction false} FindsConcat(a: seq<string>, b: seq<string>, text: string, f: nat, g: nat)
    requires FindsAll(a, text, f) && FindsAll(b, text, g)
    requires FindsEnd(a, text, f) <= g
    ensures FindsAll(a + b, text, f)
    ensures FindsEnd(a + b, text, f) <= FindsEnd(b, text, g)
    decreases |a|
  {
    if a == [] {
      assert a + b == b;
      FindsEarlier(b, text, f, g);
    } else {
      var ab := a + b;
      var next := Find(text, a[0], f) + |a[0]|;
      assert ab[0] == a[0] && ab[1..] == a[1..] + b;
      FindsConcat(a[1..], b, text, next, g);
    }
  }

  /** Texts found one after another inside the slice `text[lo..hi]` are
      found one after another in `text` itself, from `lo` on. */
  lemma {:induction false} FindsLift(parts: seq<string>, text: string, lo: nat, hi: nat, f: nat)
    requires lo <= hi <= |text|
    requires FindsAll(parts, text[lo..hi], f)
    ensures FindsAll(parts, text, lo + f)
    ensures FindsEnd(parts, text, lo + f) <= lo + FindsEnd(parts, text[lo..hi], f)
    decreases |parts|
  {
    if parts != [] {
      var p := parts[0];
      var i := Find(text[lo..hi], p, f);
      FindInSlice(text, lo, hi, p, f);
      var j := Find(text, p, lo + f);
      FindsLift(parts[1..], text, lo, hi, i + |p|);
      FindsEarlier(parts[1..], text, j + |p|, lo + i + |p|);
    }
  }

  /** A search inside the slice `text[lo..hi]` that succeeds at `i` has a
      counterpart in `text` that succeeds no later than `lo + i`. */
  lemma FindInSlice(text: string, lo: nat, hi: nat, p: string, f: nat)
    requires lo <= hi <= |text|
    requires Find(text[lo..hi], p, f) >= 0
    ensures 0 <= Find(text, p, lo + f) <= lo + Find(text[lo..hi], p, f)
  {
    var i := Find(text[lo..hi], p, f);
    FindOccurs(text[lo..hi], p, f);
    OccursInSlice(text, lo, hi, p, i);
    FindIsFirst(text, p, lo + f);
  }

  /** A text that occurs at `at` is found by a search from any earlier
      position, and the search ends no later than the occurrence. */
  lemma FindsOne(sub: string, text: string, at: nat, f: nat)
    requires f <= at && OccursAt(text, sub, at)
    ensures FindsAll([sub], text, f)
    ensures FindsEnd([sub], text, f) <= at + |sub|
  {
    FindIsFirst(text, sub, f);
    assert [sub][1..] == [];
  }
}
