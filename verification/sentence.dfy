/** The sentence strategy of the text chunker (`_chunk_by_sentence`): split
    the document after `.`, `!` or `?` followed by whitespace, group whole
    sentences under the token budget, and break a sentence that alone
    exceeds the budget into groups of words. Each chunk is located with
    `str.find` from the end of the previous one; a group joined with single
    spaces need not occur in the document, and then `start_char` is -1. */
module SentenceChunking {
  import opened Strs
  import opened Values
  import opened Chunks

  // ---------------------------------------------------------------------
  // re.split(r'(?<=[.!?])\s+', text)
  // ---------------------------------------------------------------------

  predicate EndsSentence(c: char) {
    c == '.' || c == '!' || c == '?'
  }

  /** A match of the pattern starts at `i`: the character before is `.`, `!`
      or `?`, and the one at `i` is whitespace. */
  predicate BreakAt(s: string, i: nat) {
    0 < i < |s| && EndsSentence(s[i - 1]) && IsSpace(s[i])
  }

  /** The pieces of `s[p..]`, scanning for a match from `i`. A match takes
      the whole whitespace run (the `\s+` is greedy); the text after it
      starts the next piece. */
  function SentencesFrom(s: string, p: nat, i: nat): (r: seq<string>)
    requires p <= i <= |s|
    ensures r != []
    decreases |s| - i
  {
    if i == |s| then [s[p..]]
    else if BreakAt(s, i) then
      var e := FirstNonSpace(s, i);
      [s[p..i]] + SentencesFrom(s, e, e)
    else SentencesFrom(s, p, i + 1)
  }

  function SplitSentences(s: string): seq<string> {
    SentencesFrom(s, 0, 0)
  }

  /** Every piece but the last ends with `.`, `!` or `?`, and no piece
      contains a match of the pattern. */
  lemma {:induction false} SentencesShape(s: string, p: nat, i: nat)
    requires p <= i <= |s|
    requires p == i ==> p == 0 || !EndsSentence(s[p - 1])
    requires forall q :: p < q < i ==> !BreakAt(s, q)
    ensures forall k :: 0 <= k < |SentencesFrom(s, p, i)| - 1 ==>
      SentencesFrom(s, p, i)[k] != []
      && EndsSentence(SentencesFrom(s, p, i)[k][|SentencesFrom(s, p, i)[k]| - 1])
    ensures forall k, q :: 0 <= k < |SentencesFrom(s, p, i)| && 0 < q < |SentencesFrom(s, p, i)[k]| ==>
      !BreakAt(SentencesFrom(s, p, i)[k], q)
    decreases |s| - i
  {
    var r := SentencesFrom(s, p, i);
    if i == |s| {
      forall q | 0 < q < |s[p..]|
        ensures !BreakAt(s[p..], q)
      {
        assert s[p..][q] == s[p + q] && s[p..][q - 1] == s[p + q - 1];
        assert !BreakAt(s, p + q);
      }
    } else if BreakAt(s, i) {
      var e := FirstNonSpace(s, i);
      assert e > i;
      assert IsSpace(s[e - 1]);
      SentencesShape(s, e, e);
      var tail := SentencesFrom(s, e, e);
      assert r == [s[p..i]] + tail;
      assert p < i;
      forall k | 0 <= k < |r| - 1
        ensures r[k] != [] && EndsSentence(r[k][|r[k]| - 1])
      {
        if k > 0 {
          assert r[k] == tail[k - 1];
        } else {
          assert r[0][|r[0]| - 1] == s[i - 1];
        }
      }
      forall k, q | 0 <= k < |r| && 0 < q < |r[k]|
        ensures !BreakAt(r[k], q)
      {
        if k > 0 {
          assert r[k] == tail[k - 1];
        } else {
          assert r[0][q] == s[p + q] && r[0][q - 1] == s[p + q - 1];
          assert !BreakAt(s, p + q);
        }
      }
    } else {
      SentencesShape(s, p, i + 1);
    }
  }

  // ---------------------------------------------------------------------
  // The loop state
  // ---------------------------------------------------------------------

  /** What the strategy works on: the chunker's settings, the document and
      the caller's metadata. */
  datatype Job = Job(ck: Chunker, text: string, docId: string, metadata: Record)

  /** The variables of `_chunk_by_sentence`: `chunks`, `current_chunk`,
      `current_tokens`, `chunk_index` and `char_position`. `groups` records,
      for each chunk, the sentences or words it joins. */
  datatype SentState = SentState(
    chunks: seq<Chunk>,
    groups: seq<seq<string>>,
    current: seq<string>,
    currentTokens: int,
    chunkIndex: nat,
    charPos: nat)

  /** The variables of the inner word loop: `temp_chunk` and `temp_tokens`,
      beside the outer state. */
  datatype WordAcc = WordAcc(st: SentState, temp: seq<string>, tempTokens: int)

  const Start := SentState([], [], [], 0, 0, 0)

  predicate NonBlank(parts: seq<string>) {
    forall i :: 0 <= i < |parts| ==> parts[i] != []
  }

  /** Emitting `" ".join(parts)` as the next chunk, located from
      `char_position`, which then moves to the chunk's end. */
  function Emit(job: Job, st: SentState, parts: seq<string>, tokens: int): (r: SentState)
    requires parts != [] && NonBlank(parts)
    ensures r.current == st.current && r.currentTokens == st.currentTokens
  {
    var t := Join(" ", parts);
    assert parts[0] != [];
    var start := Find(job.text, t, st.charPos);
    var end := start + |t|;
    st.(chunks := st.chunks + [Chunk(t, st.chunkIndex, job.docId, start, end, tokens,
                                     Tagged(job.metadata, "sentence"))],
        groups := st.groups + [parts],
        chunkIndex := st.chunkIndex + 1,
        charPos := end)
  }

  /** One word of a sentence over the budget. */
  function WordStep(job: Job, acc: WordAcc, word: string): (r: WordAcc)
    requires NonBlank(acc.temp) && word != []
    ensures NonBlank(r.temp) && r.st.current == acc.st.current
  {
    var wordTokens := job.ck.tok(word);
    if acc.tempTokens + wordTokens > job.ck.chunkSize then
      var st := if acc.temp != [] then Emit(job, acc.st, acc.temp, acc.tempTokens) else acc.st;
      WordAcc(st, [word], wordTokens)
    else
      WordAcc(acc.st, acc.temp + [word], acc.tempTokens + wordTokens)
  }

  /** The word loop over `words`, left to right. */
  function WordsFold(job: Job, acc: WordAcc, words: seq<string>): (r: WordAcc)
    requires NonBlank(acc.temp) && NonBlank(words)
    ensures NonBlank(r.temp) && r.st.current == acc.st.current
    decreases |words|
  {
    if words == [] then acc
    else WordStep(job, WordsFold(job, acc, words[..|words| - 1]), words[|words| - 1])
  }

  /** One sentence of the outer loop. */
  function SentenceStep(job: Job, st: SentState, sentence: string): (r: SentState)
    requires NonBlank(st.current)
    ensures NonBlank(r.current)
  {
    var s := Strip(sentence);
    if s == [] then st
    else
      var sentenceTokens := job.ck.tok(s);
      if sentenceTokens > job.ck.chunkSize then
        var st1 := if st.current != [] then Emit(job, st, st.current, st.currentTokens).(current := [], currentTokens := 0)
                   else st;
        var acc := WordsFold(job, WordAcc(st1, [], 0), SplitWhitespace(s));
        if acc.temp != [] then acc.st.(current := acc.temp, currentTokens := acc.tempTokens)
        else acc.st
      else if st.currentTokens + sentenceTokens > job.ck.chunkSize then
        var st1 := if st.current != [] then Emit(job, st, st.current, st.currentTokens) else st;
        st1.(current := [s], currentTokens := sentenceTokens)
      else
        st.(current := st.current + [s], currentTokens := st.currentTokens + sentenceTokens)
  }

  /** The outer loop over `sentences`, left to right. */
  function SentencesFold(job: Job, st: SentState, sentences: seq<string>): (r: SentState)
    requires NonBlank(st.current)
    ensures NonBlank(r.current)
    decreases |sentences|
  {
    if sentences == [] then st
    else SentenceStep(job, SentencesFold(job, st, sentences[..|sentences| - 1]), sentences[|sentences| - 1])
  }

  /** The last group, if any, is emitted after the loop. */
  function Finish(job: Job, st: SentState): SentState
    requires NonBlank(st.current)
  {
    if st.current != [] then Emit(job, st, st.current, st.currentTokens) else st
  }

  function SentenceChunks(ck: Chunker, text: string, docId: string, metadata: Record): seq<Chunk> {
    var job := Job(ck, text, docId, metadata);
    Finish(job, SentencesFold(job, Start, SplitSentences(text))).chunks
  }

  /** The group of sentences or words each sentence chunk joins. */
  function SentenceGroups(ck: Chunker, text: string, docId: string, metadata: Record): seq<seq<string>> {
    var job := Job(ck, text, docId, metadata);
    Finish(job, SentencesFold(job, Start, SplitSentences(text))).groups
  }

  // ---------------------------------------------------------------------
  // Properties
  // ---------------------------------------------------------------------

  /** A chunk made of `group`: its text is the group joined with single
      spaces, its token count is the sum of the parts' counts and is within
      the budget unless the group is one word, and it either points at its
      text in the document or carries the failed search's -1. */
  predicate ChunkOf(job: Job, c: Chunk, group: seq<string>) {
    group != [] && NonBlank(group)
    && c.text == Join(" ", group) && c.tokenCount == SumTok(job.ck.tok, group)
    && (c.tokenCount <= job.ck.chunkSize || (|group| == 1 && NoSpace(group[0])))
    && ((c.startChar == -1 && c.endChar == |c.text| - 1) || Located(c, job.text))
    && c.docId == job.docId && c.metadata == Tagged(job.metadata, "sentence")
  }

  /** A pending group: its token count is the sum of its parts' counts and
      is within the budget unless the group is one word. */
  predicate Pending(job: Job, parts: seq<string>, tokens: int) {
    NonBlank(parts) && tokens == SumTok(job.ck.tok, parts)
    && (parts == [] || tokens <= job.ck.chunkSize || (|parts| == 1 && NoSpace(parts[0])))
  }

  /** What holds of the state between iterations: the chunks are numbered
      0, 1, 2, ... with no gaps, each is made of its recorded group, and the
      pending group is well formed. */
  predicate Good(job: Job, st: SentState) {
    |st.groups| == |st.chunks| == st.chunkIndex
    && (forall i :: 0 <= i < |st.chunks| ==> st.chunks[i].chunkIndex == i)
    && (forall i :: 0 <= i < |st.chunks| ==> ChunkOf(job, st.chunks[i], st.groups[i]))
    && Pending(job, st.current, st.currentTokens)
  }

  lemma SumTokOne(tok: string -> nat, p: string)
    ensures SumTok(tok, [p]) == tok(p)
  {
    assert [p][..0] == [];
  }

  /** Emitting a well-formed group keeps the state good. */
  lemma EmitGood(job: Job, st: SentState, parts: seq<string>, tokens: int)
    requires Good(job, st.(current := [], currentTokens := 0))
    requires parts != [] && Pending(job, parts, tokens)
    ensures Good(job, Emit(job, st, parts, tokens).(current := [], currentTokens := 0))
  {
    var r := Emit(job, st, parts, tokens);
    var t := Join(" ", parts);
    var n := |st.chunks|;
    var start := Find(job.text, t, st.charPos);
    FindOccurs(job.text, t, st.charPos);
    assert r.chunks[n].text == t && r.chunks[n].startChar == start;
    assert ChunkOf(job, r.chunks[n], parts);
    forall i | 0 <= i < |r.chunks|
      ensures r.chunks[i].chunkIndex == i && ChunkOf(job, r.chunks[i], r.groups[i])
    {
      if i < n {
        assert r.chunks[i] == st.chunks[i] && r.groups[i] == st.groups[i];
      }
    }
    assert SumTok(job.ck.tok, []) == 0;
  }

  /** The word loop keeps the state good, with the pending words as a
      well-formed pending group. */
  lemma {:induction false} WordsFoldGood(job: Job, acc: WordAcc, words: seq<string>)
    requires Good(job, acc.st) && acc.st.current == [] && acc.st.currentTokens == 0
    requires Pending(job, acc.temp, acc.tempTokens)
    requires NonBlank(words) && forall i :: 0 <= i < |words| ==> NoSpace(words[i])
    ensures Good(job, WordsFold(job, acc, words).st)
    ensures WordsFold(job, acc, words).st.current == []
    ensures Pending(job, WordsFold(job, acc, words).temp, WordsFold(job, acc, words).tempTokens)
    decreases |words|
  {
    if words != [] {
      var init := words[..|words| - 1];
      var word := words[|words| - 1];
      assert forall i :: 0 <= i < |init| ==> init[i] == words[i];
      WordsFoldGood(job, acc, init);
      var a := WordsFold(job, acc, init);
      var wordTokens := job.ck.tok(word);
      SumTokOne(job.ck.tok, word);
      if a.tempTokens + wordTokens > job.ck.chunkSize {
        if a.temp != [] {
          EmitGood(job, a.st, a.temp, a.tempTokens);
        }
      } else {
        SumTokAppend(job.ck.tok, a.temp, word);
      }
    }
  }

  /** One sentence keeps the state good. */
  lemma SentenceStepGood(job: Job, st: SentState, sentence: string)
    requires Good(job, st)
    ensures Good(job, SentenceStep(job, st, sentence))
  {
    var s := Strip(sentence);
    if s != [] {
      var sentenceTokens := job.ck.tok(s);
      SumTokOne(job.ck.tok, s);
      if sentenceTokens > job.ck.chunkSize {
        var st1 := if st.current != [] then Emit(job, st, st.current, st.currentTokens).(current := [], currentTokens := 0)
                   else st;
        if st.current != [] {
          EmitGood(job, st, st.current, st.currentTokens);
        }
        assert SumTok(job.ck.tok, []) == 0;
        WordsFoldGood(job, WordAcc(st1, [], 0), SplitWhitespace(s));
      } else if st.currentTokens + sentenceTokens > job.ck.chunkSize {
        if st.current != [] {
          EmitGood(job, st, st.current, st.currentTokens);
        }
      } else {
        SumTokAppend(job.ck.tok, st.current, s);
      }
    }
  }

  lemma {:induction false} SentencesFoldGood(job: Job, st: SentState, sentences: seq<string>)
    requires Good(job, st)
    ensures Good(job, SentencesFold(job, st, sentences))
    decreases |sentences|
  {
    if sentences != [] {
      SentencesFoldGood(job, st, sentences[..|sentences| - 1]);
      SentenceStepGood(job, SentencesFold(job, st, sentences[..|sentences| - 1]), sentences[|sentences| - 1]);
    }
  }

  /** The sentence strategy's chunks are numbered 0, 1, 2, ... with no
      gaps. Each joins a non-empty group of sentences or words with single
      spaces; its token count is the sum of the parts' counts and is within
      the budget unless the chunk is a single word; and it either points at
      its text in the document or has `start_char == -1`. */
  lemma SentenceChunksShape(ck: Chunker, text: string, docId: string, metadata: Record)
    ensures forall i :: 0 <= i < |SentenceChunks(ck, text, docId, metadata)| ==>
      SentenceChunks(ck, text, docId, metadata)[i].chunkIndex == i
    ensures |SentenceGroups(ck, text, docId, metadata)| == |SentenceChunks(ck, text, docId, metadata)|
    ensures forall i :: 0 <= i < |SentenceChunks(ck, text, docId, metadata)| ==>
      ChunkOf(Job(ck, text, docId, metadata), SentenceChunks(ck, text, docId, metadata)[i],
              SentenceGroups(ck, text, docId, metadata)[i])
    ensures forall c <- SentenceChunks(ck, text, docId, metadata) ::
      c.text != [] && c.docId == docId && c.metadata == Tagged(metadata, "sentence")
      && (c.tokenCount <= ck.chunkSize || (NoSpace(c.text) && c.tokenCount == ck.tok(c.text)))
      && ((c.startChar == -1 && c.endChar == |c.text| - 1) || Located(c, text))
  {
    var job := Job(ck, text, docId, metadata);
    assert Good(job, Start);
    SentencesFoldGood(job, Start, SplitSentences(text));
    var st := SentencesFold(job, Start, SplitSentences(text));
    var fin := Finish(job, st);
    if st.current != [] {
      EmitGood(job, st, st.current, st.currentTokens);
    }
    assert Good(job, fin.(current := [], currentTokens := 0));
    forall c <- fin.chunks
      ensures c.text != []
      && (c.tokenCount <= ck.chunkSize || (NoSpace(c.text) && c.tokenCount == ck.tok(c.text)))
    {
      var i :| 0 <= i < |fin.chunks| && fin.chunks[i] == c;
      var g := fin.groups[i];
      assert ChunkOf(job, c, g);
      assert g[0] != [];
      if c.tokenCount > ck.chunkSize {
        SumTokOne(ck.tok, g[0]);
        assert g == [g[0]];
      }
    }
  }

  // ---------------------------------------------------------------------
  // Coverage: every sentence ends up in the chunks, in order
  // ---------------------------------------------------------------------

  /** The parts one sentence contributes: nothing when it is blank, its
      words when it alone is over the budget, the stripped sentence
      otherwise. */
  function PartsOf(ck: Chunker, sentence: string): seq<string> {
    var s := Strip(sentence);
    if s == [] then []
    else if ck.tok(s) > ck.chunkSize then SplitWhitespace(s)
    else [s]
  }

  /** The parts of all `sentences`, in order. */
  function Parts(ck: Chunker, sentences: seq<string>): seq<string>
    decreases |sentences|
  {
    if sentences == [] then []
    else Parts(ck, sentences[..|sentences| - 1]) + PartsOf(ck, sentences[|sentences| - 1])
  }

  /** The groups laid end to end. */
  function Flatten(groups: seq<seq<string>>): seq<string>
    decreases |groups|
  {
    if groups == [] then []
    else Flatten(groups[..|groups| - 1]) + groups[|groups| - 1]
  }

  lemma FlattenSnoc(groups: seq<seq<string>>, g: seq<string>)
    ensures Flatten(groups + [g]) == Flatten(groups) + g
  {
    assert (groups + [g])[..|groups|] == groups;
  }

  /** Emitting a group lays its parts after the earlier groups. */
  lemma EmitCovers(job: Job, st: SentState, parts: seq<string>, tokens: int)
    requires parts != [] && NonBlank(parts)
    ensures Flatten(Emit(job, st, parts, tokens).groups) == Flatten(st.groups) + parts
  {
    FlattenSnoc(st.groups, parts);
  }

  /** One word goes after the emitted and pending words. */
  lemma WordStepCovers(job: Job, a: WordAcc, word: string)
    requires NonBlank(a.temp) && word != []
    ensures Flatten(WordStep(job, a, word).st.groups) + WordStep(job, a, word).temp
            == Flatten(a.st.groups) + a.temp + [word]
  {
    if a.tempTokens + job.ck.tok(word) > job.ck.chunkSize && a.temp != [] {
      EmitCovers(job, a.st, a.temp, a.tempTokens);
    }
  }

  /** The word loop moves the words, in order, into the emitted groups and
      the pending words. */
  lemma {:induction false} WordsFoldCovers(job: Job, acc: WordAcc, words: seq<string>)
    requires NonBlank(acc.temp) && NonBlank(words)
    ensures Flatten(WordsFold(job, acc, words).st.groups) + WordsFold(job, acc, words).temp
            == Flatten(acc.st.groups) + acc.temp + words
    decreases |words|
  {
    if words != [] {
      var init := words[..|words| - 1];
      var word := words[|words| - 1];
      assert forall i :: 0 <= i < |init| ==> init[i] == words[i];
      WordsFoldCovers(job, acc, init);
      WordStepCovers(job, WordsFold(job, acc, init), word);
      assert words == init + [word];
    }
  }

  /** The parts a state holds: those of its emitted groups, then the
      pending ones. */
  function Laid(st: SentState): seq<string> {
    Flatten(st.groups) + st.current
  }

  lemma AppendAssoc(a: seq<string>, b: seq<string>, c: seq<string>)
    ensures (a + b) + c == a + (b + c)
  {
  }

  /** One sentence adds its parts after the emitted and pending ones. */
  lemma SentenceStepCovers(job: Job, st: SentState, sentence: string)
    requires NonBlank(st.current)
    ensures Laid(SentenceStep(job, st, sentence)) == Laid(st) + PartsOf(job.ck, sentence)
  {
    var s := Strip(sentence);
    if s != [] {
      if job.ck.tok(s) > job.ck.chunkSize {
        var st1 := if st.current != [] then Emit(job, st, st.current, st.currentTokens).(current := [], currentTokens := 0)
                   else st;
        if st.current != [] {
          EmitCovers(job, st, st.current, st.currentTokens);
        }
        assert Flatten(st1.groups) + st1.current == Flatten(st.groups) + st.current && st1.current == [];
        WordsFoldCovers(job, WordAcc(st1, [], 0), SplitWhitespace(s));
      } else if st.currentTokens + job.ck.tok(s) > job.ck.chunkSize {
        if st.current != [] {
          EmitCovers(job, st, st.current, st.currentTokens);
        }
      }
    }
  }

  lemma {:induction false} SentencesFoldCovers(job: Job, st: SentState, sentences: seq<string>)
    requires NonBlank(st.current)
    ensures Laid(SentencesFold(job, st, sentences)) == Laid(st) + Parts(job.ck, sentences)
    decreases |sentences|
  {
    if sentences != [] {
      var init := sentences[..|sentences| - 1];
      var last := sentences[|sentences| - 1];
      SentencesFoldCovers(job, st, init);
      SentenceStepCovers(job, SentencesFold(job, st, init), last);
      AppendAssoc(Laid(st), Parts(job.ck, init), PartsOf(job.ck, last));
    }
  }

  /** Read in order, the sentence chunks' groups are exactly the document's
      non-blank stripped sentences, each sentence over the budget replaced
      by its words: nothing is dropped, repeated or reordered. */
  lemma SentenceChunksCover(ck: Chunker, text: string, docId: string, metadata: Record)
    ensures Flatten(SentenceGroups(ck, text, docId, metadata)) == Parts(ck, SplitSentences(text))
  {
    var job := Job(ck, text, docId, metadata);
    var sentences := SplitSentences(text);
    assert Laid(Start) == [];
    SentencesFoldCovers(job, Start, sentences);
    var st := SentencesFold(job, Start, sentences);
    assert Laid(st) == Parts(ck, sentences);
    if st.current != [] {
      EmitCovers(job, st, st.current, st.currentTokens);
    }
    assert SentenceGroups(ck, text, docId, metadata) == Finish(job, st).groups;
  }

  // ---------------------------------------------------------------------
  // The method
  // ---------------------------------------------------------------------

  /** `_chunk_by_sentence`. */
  method ChunkBySentence(ck: Chunker, text: string, docId: string, metadata: Record)
    returns (chunks: seq<Chunk>)
    ensures chunks == SentenceChunks(ck, text, docId, metadata)
  {
    ghost var job := Job(ck, text, docId, metadata);
    var sentences := SplitSentences(text);
    chunks := [];
    ghost var groups: seq<seq<string>> := [];
    var currentChunk: seq<string> := [];
    var currentTokens := 0;
    var chunkIndex: nat := 0;
    var charPosition: nat := 0;
    for n := 0 to |sentences|
      invariant SentState(chunks, groups, currentChunk, currentTokens, chunkIndex, charPosition)
                == SentencesFold(job, Start, sentences[..n])
    {
      ghost var before := SentState(chunks, groups, currentChunk, currentTokens, chunkIndex, charPosition);
      assert sentences[..n + 1][..n] == sentences[..n];
      assert SentencesFold(job, Start, sentences[..n + 1]) == SentenceStep(job, before, sentences[n]);
      var sentence := Strip(sentences[n]);
      if sentence == [] {
        continue;
      }
      var sentenceTokens := ck.tok(sentence);
      if sentenceTokens > ck.chunkSize {
        if currentChunk != [] {
          chunks, groups, chunkIndex, charPosition :=
            EmitChunk(ck, text, docId, metadata, chunks, groups, chunkIndex, charPosition,
                      currentChunk, currentTokens);
          currentChunk := [];
          currentTokens := 0;
        }
        ghost var st1 := SentState(chunks, groups, currentChunk, currentTokens, chunkIndex, charPosition);
        assert st1 == if before.current != [] then Emit(job, before, before.current, before.currentTokens).(current := [], currentTokens := 0)
                      else before;
        var tempChunk, tempTokens;
        chunks, groups, chunkIndex, charPosition, tempChunk, tempTokens :=
          SplitLongSentence(ck, text, docId, metadata, chunks, groups, chunkIndex, charPosition, sentence);
        if tempChunk != [] {
          currentChunk := tempChunk;
          currentTokens := tempTokens;
        }
        continue;
      }
      if currentTokens + sentenceTokens > ck.chunkSize {
        if currentChunk != [] {
          chunks, groups, chunkIndex, charPosition :=
            EmitChunk(ck, text, docId, metadata, chunks, groups, chunkIndex, charPosition,
                      currentChunk, currentTokens);
        }
        currentChunk := [sentence];
        currentTokens := sentenceTokens;
      } else {
        currentChunk := currentChunk + [sentence];
        currentTokens := currentTokens + sentenceTokens;
      }
    }
    assert sentences[..|sentences|] == sentences;
    ghost var last := SentState(chunks, groups, currentChunk, currentTokens, chunkIndex, charPosition);
    if currentChunk != [] {
      chunks, groups, chunkIndex, charPosition :=
        EmitChunk(ck, text, docId, metadata, chunks, groups, chunkIndex, charPosition,
                  currentChunk, currentTokens);
    }
    assert chunks == Finish(job, last).chunks;
  }

  /** Emitting `" ".join(parts)` as the next chunk: the step the loop body
      writes out at each of its four flushes. */
  method EmitChunk(ck: Chunker, text: string, docId: string, metadata: Record,
                   chunks: seq<Chunk>, ghost groups: seq<seq<string>>, chunkIndex: nat, charPosition: nat,
                   parts: seq<string>, tokens: int)
    returns (chunks': seq<Chunk>, ghost groups': seq<seq<string>>, chunkIndex': nat, charPosition': nat)
    requires parts != [] && NonBlank(parts)
    ensures forall current, currentTokens ::
      SentState(chunks', groups', current, currentTokens, chunkIndex', charPosition')
      == Emit(Job(ck, text, docId, metadata),
              SentState(chunks, groups, current, currentTokens, chunkIndex, charPosition), parts, tokens)
  {
    var chunkText := Join(" ", parts);
    assert parts[0] != [];
    var startChar := Find(text, chunkText, charPosition);
    var endChar := startChar + |chunkText|;
    chunks' := chunks + [Chunk(chunkText, chunkIndex, docId, startChar, endChar, tokens,
                               Tagged(metadata, "sentence"))];
    groups' := groups + [parts];
    chunkIndex' := chunkIndex + 1;
    charPosition' := endChar;
  }

  /** One pass of the word loop: a word that would overflow the pending
      group emits that group (if any) and starts a new one; any other word
      joins the pending group. */
  method WordNext(ck: Chunker, text: string, docId: string, metadata: Record,
                  chunks: seq<Chunk>, ghost groups: seq<seq<string>>, chunkIndex: nat, charPosition: nat,
                  tempChunk: seq<string>, tempTokens: int, word: string)
    returns (chunks': seq<Chunk>, ghost groups': seq<seq<string>>, chunkIndex': nat, charPosition': nat,
             tempChunk': seq<string>, tempTokens': int)
    requires NonBlank(tempChunk) && word != []
    ensures NonBlank(tempChunk')
    ensures forall current, currentTokens ::
      WordAcc(SentState(chunks', groups', current, currentTokens, chunkIndex', charPosition'), tempChunk', tempTokens')
      == WordStep(Job(ck, text, docId, metadata),
                  WordAcc(SentState(chunks, groups, current, currentTokens, chunkIndex, charPosition), tempChunk, tempTokens),
                  word)
  {
    chunks', groups', chunkIndex', charPosition' := chunks, groups, chunkIndex, charPosition;
    var wordTokens := ck.tok(word);
    if tempTokens + wordTokens > ck.chunkSize {
      if tempChunk != [] {
        chunks', groups', chunkIndex', charPosition' :=
          EmitChunk(ck, text, docId, metadata, chunks, groups, chunkIndex, charPosition,
                    tempChunk, tempTokens);
      }
      tempChunk' := [word];
      tempTokens' := wordTokens;
    } else {
      tempChunk' := tempChunk + [word];
      tempTokens' := tempTokens + wordTokens;
    }
  }

  /** The word loop of `_chunk_by_sentence` for a sentence over the budget:
      words are grouped under the budget, a group is emitted when the next
      word would overflow it, and the last group is handed back as
      `temp_chunk`. */
  method SplitLongSentence(ck: Chunker, text: string, docId: string, metadata: Record,
                           chunks: seq<Chunk>, ghost groups: seq<seq<string>>, chunkIndex: nat,
                           charPosition: nat, sentence: string)
    returns (chunks': seq<Chunk>, ghost groups': seq<seq<string>>, chunkIndex': nat, charPosition': nat,
             tempChunk: seq<string>, tempTokens: int)
    ensures forall current, currentTokens ::
      WordAcc(SentState(chunks', groups', current, currentTokens, chunkIndex', charPosition'), tempChunk, tempTokens)
      == WordsFold(Job(ck, text, docId, metadata),
                   WordAcc(SentState(chunks, groups, current, currentTokens, chunkIndex, charPosition), [], 0),
                   SplitWhitespace(sentence))
  {
    var words := SplitWhitespace(sentence);
    chunks', groups', chunkIndex', charPosition' := chunks, groups, chunkIndex, charPosition;
    tempChunk := [];
    tempTokens := 0;
    for m := 0 to |words|
      invariant NonBlank(tempChunk)
      invariant forall current, currentTokens ::
        WordAcc(SentState(chunks', groups', current, currentTokens, chunkIndex', charPosition'), tempChunk, tempTokens)
        == WordsFold(Job(ck, text, docId, metadata),
                     WordAcc(SentState(chunks, groups, current, currentTokens, chunkIndex, charPosition), [], 0),
                     words[..m])
    {
      assert words[..m + 1][..m] == words[..m];
      chunks', groups', chunkIndex', charPosition', tempChunk, tempTokens :=
        WordNext(ck, text, docId, metadata, chunks', groups', chunkIndex', charPosition',
                 tempChunk, tempTokens, words[m]);
    }
    assert words[..|words|] == words;
  }
}
