/** The recursive strategy of the text chunker (`_chunk_recursive` and its
    inner `_split_text`): split on the first separator, greedily regroup the
    pieces under the token budget, recurse with the remaining separators on
    any piece that alone exceeds the budget, and finally locate each
    stripped piece in the document with `str.find` from the end of the
    previous one. The semantic strategy is this same function. */
module RecursiveChunking {
  import opened Strs
  import opened Values
  import opened Chunks

  /** Paragraphs, lines, sentences, words. */
  const Separators: seq<string> := ["\n\n", "\n", ". ", " "]

  predicate NonEmptySeps(seps: seq<string>) {
    forall i :: 0 <= i < |seps| ==> seps[i] != []
  }

  lemma NonEmptyTail(seps: seq<string>)
    requires NonEmptySeps(seps) && seps != []
    ensures seps[0] != [] && NonEmptySeps(seps[1..])
  {
    assert forall i :: 0 <= i < |seps| - 1 ==> seps[1..][i] == seps[i + 1];
  }

  /** `_split_text(text, separators)`. */
  function SplitText(ck: Chunker, text: string, seps: seq<string>): seq<string>
    requires NonEmptySeps(seps)
    decreases |seps|, 1, 0
  {
    if seps == [] || ck.tok(text) <= ck.chunkSize then [text]
    else
      NonEmptyTail(seps);
      Greedy(ck, seps, Split(text, seps[0]), 0, 0, 0)
  }

  /** The greedy loop of `_split_text` over `pieces[k..]`. The pending group
      `current_chunk` is always the run `pieces[j..k]` of pieces since the
      last flush, and `curSize` is `current_size`. */
  function Greedy(ck: Chunker, seps: seq<string>, pieces: seq<string>,
                  k: nat, j: nat, curSize: int): seq<string>
    requires NonEmptySeps(seps) && seps != []
    requires j <= k <= |pieces|
    decreases |seps|, 0, |pieces| - k
  {
    NonEmptyTail(seps);
    var sep := seps[0];
    var flushed := if j < k then [Join(sep, pieces[j..k])] else [];
    if k == |pieces| then flushed
    else
      var piece := pieces[k];
      var pieceTokens := ck.tok(piece);
      if pieceTokens > ck.chunkSize then
        flushed + SplitText(ck, piece, seps[1..])
        + Greedy(ck, seps, pieces, k + 1, k + 1, if j < k then 0 else curSize)
      else if curSize + pieceTokens > ck.chunkSize then
        if j < k then flushed + Greedy(ck, seps, pieces, k + 1, k, pieceTokens)
        else Greedy(ck, seps, pieces, k + 1, k + 1, curSize)
      else
        Greedy(ck, seps, pieces, k + 1, j, curSize + pieceTokens)
  }

  /** Every piece stripped of its surrounding whitespace. */
  function StripAll(pieces: seq<string>): (r: seq<string>)
    ensures |r| == |pieces|
    ensures forall i :: 0 <= i < |pieces| ==> r[i] == Strip(pieces[i])
  {
    seq(|pieces|, i requires 0 <= i < |pieces| => Strip(pieces[i]))
  }

  /** The chunk-building loop of `_chunk_recursive` over the stripped pieces
      not yet visited, `rest`, whose first element sits at list position
      `k`, with the search position at `cp`. A blank piece is skipped
      without emitting a chunk. */
  function BuildFrom(ck: Chunker, text: string, docId: string, metadata: Record,
                     rest: seq<string>, k: nat, cp: nat): seq<Chunk>
    decreases |rest|
  {
    if rest == [] then []
    else if rest[0] == [] then BuildFrom(ck, text, docId, metadata, rest[1..], k + 1, cp)
    else
      var startChar := Find(text, rest[0], cp);
      var endChar := startChar + |rest[0]|;
      [Chunk(rest[0], k, docId, startChar, endChar, ck.tok(rest[0]), Tagged(metadata, "recursive"))]
      + BuildFrom(ck, text, docId, metadata, rest[1..], k + 1, endChar)
  }

  function RecursiveChunks(ck: Chunker, text: string, docId: string, metadata: Record): seq<Chunk> {
    BuildFrom(ck, text, docId, metadata, StripAll(SplitText(ck, text, Separators)), 0, 0)
  }

  /** A step of the greedy loop at a piece over the budget: the pending
      run is flushed and the piece is split with the next separators. */
  lemma GreedyDeeper(ck: Chunker, seps: seq<string>, pieces: seq<string>, k: nat, j: nat, curSize: int)
    requires NonEmptySeps(seps) && seps != []
    requires j <= k < |pieces| && ck.tok(pieces[k]) > ck.chunkSize
    ensures NonEmptySeps(seps[1..])
    ensures Greedy(ck, seps, pieces, k, j, curSize)
            == (if j < k then [Join(seps[0], pieces[j..k])] else [])
               + (SplitText(ck, pieces[k], seps[1..])
                  + Greedy(ck, seps, pieces, k + 1, k + 1, if j < k then 0 else curSize))
  {
    NonEmptyTail(seps);
  }

  /** A step at a piece that fits the budget alone but not with the pending
      run: the run is flushed and the piece starts the next one (with no
      pending run, the piece is passed over and `current_size` kept). */
  lemma GreedyFlush(ck: Chunker, seps: seq<string>, pieces: seq<string>, k: nat, j: nat, curSize: int)
    requires NonEmptySeps(seps) && seps != []
    requires j <= k < |pieces| && ck.tok(pieces[k]) <= ck.chunkSize
    requires curSize + ck.tok(pieces[k]) > ck.chunkSize
    ensures j < k ==>
      (Greedy(ck, seps, pieces, k, j, curSize)
       == [Join(seps[0], pieces[j..k])] + Greedy(ck, seps, pieces, k + 1, k, ck.tok(pieces[k])))
    ensures j == k ==>
      (Greedy(ck, seps, pieces, k, j, curSize) == Greedy(ck, seps, pieces, k + 1, k + 1, curSize))
  {
    NonEmptyTail(seps);
  }

  /** A step at a piece that fits with the pending run: the run grows. */
  lemma GreedyGrow(ck: Chunker, seps: seq<string>, pieces: seq<string>, k: nat, j: nat, curSize: int)
    requires NonEmptySeps(seps) && seps != []
    requires j <= k < |pieces| && ck.tok(pieces[k]) <= ck.chunkSize
    requires curSize + ck.tok(pieces[k]) <= ck.chunkSize
    ensures Greedy(ck, seps, pieces, k, j, curSize)
            == Greedy(ck, seps, pieces, k + 1, j, curSize + ck.tok(pieces[k]))
  {
    NonEmptyTail(seps);
  }

  // ---------------------------------------------------------------------
  // The grouping decisions of the greedy loop
  // ---------------------------------------------------------------------

  /** One decision of the greedy loop: the run `pieces[lo..hi]` is emitted
      as one group, or the piece at `at` is handed to the next separator. */
  datatype Part = Group(lo: nat, hi: nat) | Deeper(at: nat)

  predicate InRange(p: Part, n: nat) {
    match p
    case Group(lo, hi) => lo < hi <= n
    case Deeper(at) => at < n
  }

  /** The decisions the greedy loop takes over `pieces[k..]`, with the same
      control flow as `Greedy` and the texts left out. */
  function Plan(ck: Chunker, pieces: seq<string>, k: nat, j: nat, curSize: int): (r: seq<Part>)
    requires j <= k <= |pieces|
    ensures forall p <- r :: InRange(p, |pieces|)
    decreases |pieces| - k
  {
    var flushed := if j < k then [Group(j, k)] else [];
    if k == |pieces| then flushed
    else
      var pieceTokens := ck.tok(pieces[k]);
      if pieceTokens > ck.chunkSize then
        flushed + [Deeper(k)] + Plan(ck, pieces, k + 1, k + 1, if j < k then 0 else curSize)
      else if curSize + pieceTokens > ck.chunkSize then
        if j < k then flushed + Plan(ck, pieces, k + 1, k, pieceTokens)
        else Plan(ck, pieces, k + 1, k + 1, curSize)
      else
        Plan(ck, pieces, k + 1, j, curSize + pieceTokens)
  }

  /** The texts a list of decisions produces: a group is joined with the
      separator, a deeper piece is split with the remaining separators. */
  function Render(ck: Chunker, seps: seq<string>, pieces: seq<string>, plan: seq<Part>): seq<string>
    requires NonEmptySeps(seps) && seps != []
    requires forall p <- plan :: InRange(p, |pieces|)
    decreases |plan|
  {
    if plan == [] then []
    else
      NonEmptyTail(seps);
      assert plan[0] in plan && InRange(plan[0], |pieces|);
      var first := match plan[0]
        case Group(lo, hi) => [Join(seps[0], pieces[lo..hi])]
        case Deeper(at) => SplitText(ck, pieces[at], seps[1..]);
      first + Render(ck, seps, pieces, plan[1..])
  }

  lemma {:induction false} RenderAppend(ck: Chunker, seps: seq<string>, pieces: seq<string>,
                                        a: seq<Part>, b: seq<Part>)
    requires NonEmptySeps(seps) && seps != []
    requires forall p <- a :: InRange(p, |pieces|)
    requires forall p <- b :: InRange(p, |pieces|)
    ensures Render(ck, seps, pieces, a + b)
            == Render(ck, seps, pieces, a) + Render(ck, seps, pieces, b)
    decreases |a|
  {
    if a == [] {
      assert a + b == b;
    } else {
      assert (a + b)[0] == a[0] && (a + b)[1..] == a[1..] + b;
      RenderAppend(ck, seps, pieces, a[1..], b);
    }
  }

  /** The pending run, rendered: one joined group, or nothing. */
  lemma RenderFlushed(ck: Chunker, seps: seq<string>, pieces: seq<string>, j: nat, k: nat)
    requires NonEmptySeps(seps) && seps != []
    requires j <= k <= |pieces|
    ensures Render(ck, seps, pieces, if j < k then [Group(j, k)] else [])
            == if j < k then [Join(seps[0], pieces[j..k])] else []
  {
    if j < k {
      assert [Group(j, k)][1..] == [];
    }
  }

  /** A piece sent deeper, rendered: its split with the next separators. */
  lemma RenderDeeper(ck: Chunker, seps: seq<string>, pieces: seq<string>, k: nat)
    requires NonEmptySeps(seps) && seps != []
    requires k < |pieces|
    ensures NonEmptySeps(seps[1..])
    ensures Render(ck, seps, pieces, [Deeper(k)]) == SplitText(ck, pieces[k], seps[1..])
  {
    NonEmptyTail(seps);
    assert [Deeper(k)][1..] == [];
  }

  /** The greedy loop produces exactly what its decisions render to. */
  lemma {:induction false} GreedyRender(ck: Chunker, seps: seq<string>, pieces: seq<string>,
                                        k: nat, j: nat, curSize: int)
    requires NonEmptySeps(seps) && seps != []
    requires j <= k <= |pieces|
    ensures Greedy(ck, seps, pieces, k, j, curSize)
            == Render(ck, seps, pieces, Plan(ck, pieces, k, j, curSize))
    decreases |pieces| - k, 1
  {
    var flushed := if j < k then [Group(j, k)] else [];
    RenderFlushed(ck, seps, pieces, j, k);
    if k < |pieces| {
      var pieceTokens := ck.tok(pieces[k]);
      if pieceTokens > ck.chunkSize {
        GreedyRenderDeeper(ck, seps, pieces, k, j, curSize);
      } else if curSize + pieceTokens > ck.chunkSize {
        GreedyFlush(ck, seps, pieces, k, j, curSize);
        if j < k {
          GreedyRender(ck, seps, pieces, k + 1, k, pieceTokens);
          RenderAppend(ck, seps, pieces, flushed, Plan(ck, pieces, k + 1, k, pieceTokens));
        } else {
          GreedyRender(ck, seps, pieces, k + 1, k + 1, curSize);
        }
      } else {
        GreedyGrow(ck, seps, pieces, k, j, curSize);
        GreedyRender(ck, seps, pieces, k + 1, j, curSize + pieceTokens);
      }
    }
  }

  /** The case of `GreedyRender` at a piece over the budget. */
  lemma {:induction false} GreedyRenderDeeper(ck: Chunker, seps: seq<string>, pieces: seq<string>,
                                              k: nat, j: nat, curSize: int)
    requires NonEmptySeps(seps) && seps != []
    requires j <= k < |pieces| && ck.tok(pieces[k]) > ck.chunkSize
    ensures Greedy(ck, seps, pieces, k, j, curSize)
            == Render(ck, seps, pieces, Plan(ck, pieces, k, j, curSize))
    decreases |pieces| - k, 0
  {
    var flushed := if j < k then [Group(j, k)] else [];
    var next := if j < k then 0 else curSize;
    GreedyDeeper(ck, seps, pieces, k, j, curSize);
    RenderFlushed(ck, seps, pieces, j, k);
    RenderDeeper(ck, seps, pieces, k);
    GreedyRender(ck, seps, pieces, k + 1, k + 1, next);
    var rest := Plan(ck, pieces, k + 1, k + 1, next);
    assert Plan(ck, pieces, k, j, curSize) == flushed + [Deeper(k)] + rest;
    RenderAppend(ck, seps, pieces, flushed, [Deeper(k)]);
    RenderAppend(ck, seps, pieces, flushed + [Deeper(k)], rest);
  }

  /** The decisions take the pieces from `from` to `to` in order, each
      exactly once. */
  predicate Covers(plan: seq<Part>, from: nat, to: nat)
    decreases |plan|
  {
    if plan == [] then from == to
    else match plan[0]
      case Group(lo, hi) => lo == from && lo < hi && Covers(plan[1..], hi, to)
      case Deeper(at) => at == from && Covers(plan[1..], at + 1, to)
  }

  /** A group stays within the token budget; a piece goes deeper only when
      it alone exceeds the budget. */
  predicate WithinBudget(ck: Chunker, pieces: seq<string>, p: Part) {
    match p
    case Group(lo, hi) => lo < hi <= |pieces| && SumTok(ck.tok, pieces[lo..hi]) <= ck.chunkSize
    case Deeper(at) => at < |pieces| && ck.tok(pieces[at]) > ck.chunkSize
  }

  lemma {:induction false} CoversAppend(a: seq<Part>, b: seq<Part>, from: nat, mid: nat, to: nat)
    requires Covers(a, from, mid) && Covers(b, mid, to)
    ensures Covers(a + b, from, to)
    decreases |a|
  {
    if a == [] {
      assert a + b == b;
    } else {
      assert (a + b)[0] == a[0] && (a + b)[1..] == a[1..] + b;
      match a[0]
      case Group(lo, hi) => CoversAppend(a[1..], b, hi, mid, to);
      case Deeper(at) => CoversAppend(a[1..], b, at + 1, mid, to);
    }
  }

  /** Adding the next piece to the pending group adds its token count. */
  lemma SumTokNext(ck: Chunker, pieces: seq<string>, j: nat, k: nat)
    requires j <= k < |pieces|
    ensures SumTok(ck.tok, pieces[j..k + 1]) == SumTok(ck.tok, pieces[j..k]) + ck.tok(pieces[k])
    ensures SumTok(ck.tok, pieces[k..k + 1]) == ck.tok(pieces[k])
  {
    assert pieces[j..k + 1] == pieces[j..k] + [pieces[k]];
    SumTokAppend(ck.tok, pieces[j..k], pieces[k]);
    assert pieces[k..k + 1] == [] + [pieces[k]];
    SumTokAppend(ck.tok, [], pieces[k]);
  }

  /** While the pending group `pieces[j..k]` is within the budget and
      `current_size` is its token sum, the greedy loop's decisions cover
      every remaining piece once and in order: no piece is ever dropped. */
  lemma {:induction false} PlanCovers(ck: Chunker, pieces: seq<string>, k: nat, j: nat, curSize: int)
    requires j <= k <= |pieces|
    requires curSize == SumTok(ck.tok, pieces[j..k]) && (j < k ==> curSize <= ck.chunkSize)
    ensures Covers(Plan(ck, pieces, k, j, curSize), j, |pieces|)
    decreases |pieces| - k, 1
  {
    var flushed := if j < k then [Group(j, k)] else [];
    assert Covers(flushed, j, k) by {
      if j < k {
        assert flushed[1..] == [];
      }
    }
    if k < |pieces| {
      var pieceTokens := ck.tok(pieces[k]);
      SumTokNext(ck, pieces, j, k);
      if pieceTokens > ck.chunkSize {
        PlanCoversDeeper(ck, pieces, k, j, curSize);
      } else if curSize + pieceTokens > ck.chunkSize {
        PlanCovers(ck, pieces, k + 1, k, pieceTokens);
        CoversAppend(flushed, Plan(ck, pieces, k + 1, k, pieceTokens), j, k, |pieces|);
      } else {
        PlanCovers(ck, pieces, k + 1, j, curSize + pieceTokens);
      }
    }
  }

  /** The case of `PlanCovers` at a piece over the budget. */
  lemma {:induction false} PlanCoversDeeper(ck: Chunker, pieces: seq<string>, k: nat, j: nat, curSize: int)
    requires j <= k < |pieces| && ck.tok(pieces[k]) > ck.chunkSize
    requires curSize == SumTok(ck.tok, pieces[j..k]) && (j < k ==> curSize <= ck.chunkSize)
    ensures Covers(Plan(ck, pieces, k, j, curSize), j, |pieces|)
    decreases |pieces| - k, 0
  {
    var flushed := if j < k then [Group(j, k)] else [];
    assert Covers(flushed, j, k) by {
      if j < k {
        assert flushed[1..] == [];
      }
    }
    var next := if j < k then 0 else curSize;
    assert next == SumTok(ck.tok, pieces[k + 1..k + 1]) by {
      assert pieces[k + 1..k + 1] == [];
      assert j == k ==> pieces[j..k] == [];
    }
    PlanCovers(ck, pieces, k + 1, k + 1, next);
    var rest := Plan(ck, pieces, k + 1, k + 1, next);
    assert Plan(ck, pieces, k, j, curSize) == flushed + ([Deeper(k)] + rest);
    assert [Deeper(k)][1..] == [];
    CoversAppend([Deeper(k)], rest, k, k + 1, |pieces|);
    CoversAppend(flushed, [Deeper(k)] + rest, j, k, |pieces|);
  }

  /** Under the same condition every group the loop emits is within the
      token budget, and only pieces over the budget go deeper. */
  lemma {:induction false} PlanBudget(ck: Chunker, pieces: seq<string>, k: nat, j: nat, curSize: int)
    requires j <= k <= |pieces|
    requires curSize == SumTok(ck.tok, pieces[j..k]) && (j < k ==> curSize <= ck.chunkSize)
    ensures forall p <- Plan(ck, pieces, k, j, curSize) :: WithinBudget(ck, pieces, p)
    decreases |pieces| - k
  {
    if k < |pieces| {
      var pieceTokens := ck.tok(pieces[k]);
      SumTokNext(ck, pieces, j, k);
      if pieceTokens > ck.chunkSize {
        var next := if j < k then 0 else curSize;
        assert pieces[k + 1..k + 1] == [];
        PlanBudget(ck, pieces, k + 1, k + 1, next);
      } else if curSize + pieceTokens > ck.chunkSize {
        PlanBudget(ck, pieces, k + 1, k, pieceTokens);
      } else {
        PlanBudget(ck, pieces, k + 1, j, curSize + pieceTokens);
      }
    }
  }

  /** `_split_text` returns the text alone when the separators are used up
      or the text fits the budget; otherwise it renders the greedy loop's
      decisions over the split, which take every piece once and in order,
      keep each group within the budget and send deeper only the pieces
      over the budget. */
  lemma SplitTextPlan(ck: Chunker, text: string, seps: seq<string>)
    requires NonEmptySeps(seps)
    ensures seps == [] || ck.tok(text) <= ck.chunkSize ==> SplitText(ck, text, seps) == [text]
    ensures seps != [] && ck.tok(text) > ck.chunkSize ==>
      SplitText(ck, text, seps)
        == Render(ck, seps, Split(text, seps[0]), Plan(ck, Split(text, seps[0]), 0, 0, 0))
      && Covers(Plan(ck, Split(text, seps[0]), 0, 0, 0), 0, |Split(text, seps[0])|)
      && forall p <- Plan(ck, Split(text, seps[0]), 0, 0, 0) :: WithinBudget(ck, Split(text, seps[0]), p)
  {
    if seps != [] && ck.tok(text) > ck.chunkSize {
      NonEmptyTail(seps);
      var pieces := Split(text, seps[0]);
      assert pieces[0..0] == [];
      GreedyRender(ck, seps, pieces, 0, 0, 0);
      PlanCovers(ck, pieces, 0, 0, 0);
      PlanBudget(ck, pieces, 0, 0, 0);
    }
  }

  // ---------------------------------------------------------------------
  // Where the pieces of a split sit in the text
  // ---------------------------------------------------------------------

  /** Where `pieces[j]` starts inside `sep.join(pieces)`. */
  function PieceStart(sep: string, pieces: seq<string>, j: nat): nat
    requires j <= |pieces|
  {
    if j == 0 then 0 else |Join(sep, pieces[..j])| + |sep|
  }

  /** The run `pieces[j..k]`, joined, sits inside `sep.join(pieces)` at
      `PieceStart(j)`, and the next piece starts one separator after it. */
  lemma JoinBlock(sep: string, pieces: seq<string>, j: nat, k: nat)
    requires j < k <= |pieces|
    ensures OccursAt(Join(sep, pieces), Join(sep, pieces[j..k]), PieceStart(sep, pieces, j))
    ensures k < |pieces| ==>
      PieceStart(sep, pieces, k) == PieceStart(sep, pieces, j) + |Join(sep, pieces[j..k])| + |sep|
  {
    JoinBlockOccurs(sep, pieces, j, k);
    if k < |pieces| {
      JoinBlockNext(sep, pieces, j, k);
    }
  }

  lemma JoinBlockOccurs(sep: string, pieces: seq<string>, j: nat, k: nat)
    requires j < k <= |pieces|
    ensures OccursAt(Join(sep, pieces), Join(sep, pieces[j..k]), PieceStart(sep, pieces, j))
  {
    var q := pieces[j..];
    assert q[..k - j] == pieces[j..k];
    JoinPrefixOccurs(sep, q, k - j);
    if j > 0 {
      var u := Join(sep, pieces[..j]) + sep;
      JoinSplitAt(sep, pieces, j);
      assert Join(sep, pieces) == u + Join(sep, q) + [];
      OccursInMiddle(u, Join(sep, q), []);
      OccursWithin(Join(sep, pieces), Join(sep, q), |u|, Join(sep, pieces[j..k]), 0);
    } else {
      assert q == pieces;
    }
  }

  lemma JoinBlockNext(sep: string, pieces: seq<string>, j: nat, k: nat)
    requires j < k < |pieces|
    ensures PieceStart(sep, pieces, k) == PieceStart(sep, pieces, j) + |Join(sep, pieces[j..k])| + |sep|
  {
    if j > 0 {
      assert pieces[..k][..j] == pieces[..j] && pieces[..k][j..] == pieces[j..k];
      JoinSplitAt(sep, pieces[..k], j);
    } else {
      assert pieces[..k] == pieces[j..k];
    }
  }

  // ---------------------------------------------------------------------
  // Every piece `_split_text` returns is found by the chunk-building loop
  // ---------------------------------------------------------------------

  /** The pieces `_split_text` returns lie in the text in order, without
      overlapping: searching for each from the end of the previous one
      always succeeds. */
  lemma {:induction false} SplitTextFinds(ck: Chunker, text: string, seps: seq<string>)
    requires NonEmptySeps(seps)
    ensures FindsAll(SplitText(ck, text, seps), text, 0)
    decreases |seps|, 1, 0, 0
  {
    if seps == [] || ck.tok(text) <= ck.chunkSize {
      assert OccursAt(text, text, 0) by {
        assert text[0..|text|] == text;
      }
      FindsOne(text, text, 0, 0);
    } else {
      NonEmptyTail(seps);
      var pieces := Split(text, seps[0]);
      JoinSplit(text, seps[0]);
      GreedyFinds(ck, seps, pieces, text, 0, 0, 0);
    }
  }

  /** The pieces `_split_text` makes of `piece`, which occurs in `text` at
      `at`, are found in `text` from `at` on, and the searches end inside
      `piece`. */
  lemma {:induction false} SplitTextFindsAt(ck: Chunker, piece: string, seps: seq<string>,
                                            text: string, at: nat)
    requires NonEmptySeps(seps) && OccursAt(text, piece, at)
    ensures FindsAll(SplitText(ck, piece, seps), text, at)
    ensures FindsEnd(SplitText(ck, piece, seps), text, at) <= at + |piece|
    decreases |seps|, 2, 0, 0
  {
    var sub := SplitText(ck, piece, seps);
    SplitTextFinds(ck, piece, seps);
    FindsEndBounds(sub, piece, 0);
    assert text[at..at + |piece|] == piece;
    FindsLift(sub, text, at, at + |piece|, 0);
  }

  /** The greedy pass from piece `k`, with the pending run `pieces[j..k]`,
      yields texts found in order from where `pieces[j]` starts. */
  lemma {:induction false} GreedyFinds(ck: Chunker, seps: seq<string>, pieces: seq<string>,
                                       text: string, k: nat, j: nat, curSize: int)
    requires NonEmptySeps(seps) && seps != []
    requires j <= k <= |pieces| && text == Join(seps[0], pieces)
    ensures FindsAll(Greedy(ck, seps, pieces, k, j, curSize), text, PieceStart(seps[0], pieces, j))
    decreases |seps|, 0, |pieces| - k, 2
  {
    var sep := seps[0];
    var pj := PieceStart(sep, pieces, j);
    if k == |pieces| {
      if j < k {
        JoinBlock(sep, pieces, j, k);
        FindsOne(Join(sep, pieces[j..k]), text, pj, pj);
      }
    } else {
      var piece := pieces[k];
      if ck.tok(piece) > ck.chunkSize {
        GreedyFindsOversized(ck, seps, pieces, text, k, j, curSize);
      } else if curSize + ck.tok(piece) > ck.chunkSize {
        GreedyFindsFlush(ck, seps, pieces, text, k, j, curSize);
      } else {
        GreedyGrow(ck, seps, pieces, k, j, curSize);
        GreedyFinds(ck, seps, pieces, text, k + 1, j, curSize + ck.tok(piece));
      }
    }
  }

  /** The step of the greedy pass at a piece that does not fit with the
      pending run: flush the run, then go on from the piece. */
  lemma {:induction false} GreedyFindsFlush(ck: Chunker, seps: seq<string>, pieces: seq<string>,
                                            text: string, k: nat, j: nat, curSize: int)
    requires NonEmptySeps(seps) && seps != []
    requires j <= k < |pieces| && text == Join(seps[0], pieces)
    requires ck.tok(pieces[k]) <= ck.chunkSize && curSize + ck.tok(pieces[k]) > ck.chunkSize
    ensures FindsAll(Greedy(ck, seps, pieces, k, j, curSize), text, PieceStart(seps[0], pieces, j))
    decreases |seps|, 0, |pieces| - k, 1
  {
    GreedyFlush(ck, seps, pieces, k, j, curSize);
    if j < k {
      FlushCutFinds(ck, seps, pieces, text, k, j);
    } else if k + 1 < |pieces| {
      FlushSkipFinds(ck, seps, pieces, text, k, curSize);
    } else {
      assert Greedy(ck, seps, pieces, k + 1, k + 1, curSize) == [];
    }
  }

  /** A flush with pieces pending: the flushed block is found from its
      first piece's start, and the chunks after it from the current
      piece's. */
  lemma FlushCutFinds(ck: Chunker, seps: seq<string>, pieces: seq<string>, text: string, k: nat, j: nat)
    requires NonEmptySeps(seps) && seps != []
    requires j < k < |pieces| && text == Join(seps[0], pieces)
    ensures FindsAll([Join(seps[0], pieces[j..k])] + Greedy(ck, seps, pieces, k + 1, k, ck.tok(pieces[k])),
                     text, PieceStart(seps[0], pieces, j))
    decreases |seps|, 0, |pieces| - k, 0
  {
    var sep := seps[0];
    var rest := Greedy(ck, seps, pieces, k + 1, k, ck.tok(pieces[k]));
    GreedyFinds(ck, seps, pieces, text, k + 1, k, ck.tok(pieces[k]));
    FlushedFound(sep, pieces, text, j, k);
    FindsConcat([Join(sep, pieces[j..k])], rest, text, PieceStart(sep, pieces, j), PieceStart(sep, pieces, k));
  }

  /** A flush with nothing pending: the chunks from the next piece on are
      found from the current piece's start. */
  lemma FlushSkipFinds(ck: Chunker, seps: seq<string>, pieces: seq<string>, text: string, k: nat, curSize: int)
    requires NonEmptySeps(seps) && seps != []
    requires k + 1 < |pieces| && text == Join(seps[0], pieces)
    ensures FindsAll(Greedy(ck, seps, pieces, k + 1, k + 1, curSize), text, PieceStart(seps[0], pieces, k))
    decreases |seps|, 0, |pieces| - k, 0
  {
    var sep := seps[0];
    GreedyFinds(ck, seps, pieces, text, k + 1, k + 1, curSize);
    PieceStartsGrow(sep, pieces, k);
    FindsEarlier(Greedy(ck, seps, pieces, k + 1, k + 1, curSize), text, PieceStart(sep, pieces, k),
                 PieceStart(sep, pieces, k + 1));
  }

  /** The step of the greedy pass at a piece over the budget: flush the
      pending run, then the piece's own sub-split, then the rest. */
  lemma {:induction false} GreedyFindsOversized(ck: Chunker, seps: seq<string>, pieces: seq<string>,
                                                text: string, k: nat, j: nat, curSize: int)
    requires NonEmptySeps(seps) && seps != []
    requires j <= k < |pieces| && text == Join(seps[0], pieces)
    requires ck.tok(pieces[k]) > ck.chunkSize
    ensures FindsAll(Greedy(ck, seps, pieces, k, j, curSize), text, PieceStart(seps[0], pieces, j))
    decreases |seps|, 0, |pieces| - k, 1
  {
    var sep := seps[0];
    GreedyDeeper(ck, seps, pieces, k, j, curSize);
    var cs := if j < k then 0 else curSize;
    var tail := SplitText(ck, pieces[k], seps[1..]) + Greedy(ck, seps, pieces, k + 1, k + 1, cs);
    OversizedTail(ck, seps, pieces, text, k, cs);
    if j < k {
      var flushed := [Join(sep, pieces[j..k])];
      FlushedFound(sep, pieces, text, j, k);
      FindsConcat(flushed, tail, text, PieceStart(sep, pieces, j), PieceStart(sep, pieces, k));
    } else {
      assert [] + tail == tail;
    }
  }

  /** From where a piece over the budget starts, its own sub-split and then
      the rest of the greedy pass are found in order. */
  lemma {:induction false} OversizedTail(ck: Chunker, seps: seq<string>, pieces: seq<string>,
                                         text: string, k: nat, cs: int)
    requires NonEmptySeps(seps) && seps != []
    requires k < |pieces| && text == Join(seps[0], pieces)
    ensures NonEmptySeps(seps[1..])
    ensures FindsAll(SplitText(ck, pieces[k], seps[1..]) + Greedy(ck, seps, pieces, k + 1, k + 1, cs),
                     text, PieceStart(seps[0], pieces, k))
    decreases |seps|, 0, |pieces| - k, 0
  {
    NonEmptyTail(seps);
    var sep := seps[0];
    var piece := pieces[k];
    var pk := PieceStart(sep, pieces, k);
    var sub := SplitText(ck, piece, seps[1..]);
    var rest := Greedy(ck, seps, pieces, k + 1, k + 1, cs);
    assert Join(sep, pieces[k..k + 1]) == piece by {
      assert pieces[k..k + 1] == [piece];
    }
    JoinBlock(sep, pieces, k, k + 1);
    SplitTextFindsAt(ck, piece, seps[1..], text, pk);
    if k + 1 < |pieces| {
      var pk1 := PieceStart(sep, pieces, k + 1);
      assert pk + |piece| <= pk1;
      GreedyFinds(ck, seps, pieces, text, k + 1, k + 1, cs);
      FindsEarlier(rest, text, pk + |piece|, pk1);
    } else {
      assert rest == [];
    }
    FindsConcat(sub, rest, text, pk, pk + |piece|);
  }

  /** A flushed run `pieces[j..k]` is found at its own start and the search
      ends before piece `k` starts. */
  lemma FlushedFound(sep: string, pieces: seq<string>, text: string, j: nat, k: nat)
    requires j < k < |pieces| && text == Join(sep, pieces)
    ensures FindsAll([Join(sep, pieces[j..k])], text, PieceStart(sep, pieces, j))
    ensures FindsEnd([Join(sep, pieces[j..k])], text, PieceStart(sep, pieces, j))
            <= PieceStart(sep, pieces, k)
  {
    JoinBlock(sep, pieces, j, k);
    var pj := PieceStart(sep, pieces, j);
    FindsOne(Join(sep, pieces[j..k]), text, pj, pj);
  }

  /** Pieces start further and further into the text. */
  lemma PieceStartsGrow(sep: string, pieces: seq<string>, k: nat)
    requires k + 1 < |pieces|
    ensures PieceStart(sep, pieces, k) <= PieceStart(sep, pieces, k + 1)
  {
    assert pieces[k..k + 1] == [pieces[k]];
    JoinBlock(sep, pieces, k, k + 1);
  }

  // ---------------------------------------------------------------------
  // The chunk-building loop
  // ---------------------------------------------------------------------

  /** A piece's stripped text is found inside the piece. */
  lemma StripFoundInPiece(piece: string)
    ensures 0 <= Find(piece, Strip(piece), 0)
    ensures Find(piece, Strip(piece), 0) + |Strip(piece)| <= |piece|
  {
    StripSlice(piece);
    assert OccursAt(piece, Strip(piece), StripStart(piece));
    FindIsFirst(piece, Strip(piece), 0);
  }

  /** A text found inside a piece that occurs at `i` is found from `i`,
      no later than inside the piece. */
  lemma FoundInside(text: string, piece: string, i: nat, t: string)
    requires OccursAt(text, piece, i)
    requires Find(piece, t, 0) >= 0
    ensures 0 <= Find(text, t, i) <= i + Find(piece, t, 0)
  {
    assert text[i..i + |piece|] == piece;
    FindInSlice(text, i, i + |piece|, t, 0);
  }

  /** A text found inside a piece is found from `cp` once the piece is, and
      ends no later than the piece. */
  lemma FoundViaPiece(text: string, piece: string, t: string, cp: nat)
    requires Find(text, piece, cp) >= 0
    requires 0 <= Find(piece, t, 0) && Find(piece, t, 0) + |t| <= |piece|
    ensures 0 <= Find(text, t, cp)
    ensures Find(text, t, cp) + |t| <= Find(text, piece, cp) + |piece|
  {
    var i := Find(text, piece, cp);
    FindOccurs(text, piece, cp);
    FoundInside(text, piece, i, t);
    FindEarlier(text, t, cp, i);
  }

  /** Locating a piece's stripped text from `cp` succeeds, and ends no later
      than locating the piece itself. */
  lemma StrippedFound(text: string, piece: string, cp: nat)
    requires Find(text, piece, cp) >= 0
    ensures 0 <= Find(text, Strip(piece), cp)
    ensures Find(text, Strip(piece), cp) + |Strip(piece)| <= Find(text, piece, cp) + |piece|
  {
    StripFoundInPiece(piece);
    FoundViaPiece(text, piece, Strip(piece), cp);
  }

  /** If the pieces are found one after another, so are their stripped
      texts. */
  lemma {:induction false} StripFinds(pieces: seq<string>, text: string, cp: nat)
    requires FindsAll(pieces, text, cp)
    ensures FindsAll(StripAll(pieces), text, cp)
    decreases |pieces|
  {
    if pieces != [] {
      var p := pieces[0];
      var t := Strip(p);
      var i := Find(text, p, cp);
      StrippedFound(text, p, cp);
      var e := Find(text, t, cp) + |t|;
      FindsEarlier(pieces[1..], text, e, i + |p|);
      StripFinds(pieces[1..], text, e);
      assert StripAll(pieces)[1..] == StripAll(pieces[1..]);
    }
  }

  /** The building loop skips a blank piece; on any other it emits one
      chunk located by a search from `cp`. */
  lemma BuildStep(ck: Chunker, text: string, docId: string, metadata: Record,
                  rest: seq<string>, k: nat, cp: nat)
    requires rest != []
    ensures rest[0] == [] ==>
      BuildFrom(ck, text, docId, metadata, rest, k, cp)
      == BuildFrom(ck, text, docId, metadata, rest[1..], k + 1, cp)
    ensures rest[0] != [] ==>
      BuildFrom(ck, text, docId, metadata, rest, k, cp)
      == [Chunk(rest[0], k, docId, Find(text, rest[0], cp), Find(text, rest[0], cp) + |rest[0]|,
                ck.tok(rest[0]), Tagged(metadata, "recursive"))]
         + BuildFrom(ck, text, docId, metadata, rest[1..], k + 1, Find(text, rest[0], cp) + |rest[0]|)
  {
  }

  /** Each chunk is the non-blank piece at its own list position, with the
      tokenizer's count, the document id and the tagged metadata. */
  lemma {:induction false} BuildTexts(ck: Chunker, text: string, docId: string, metadata: Record,
                                      rest: seq<string>, k: nat, cp: nat)
    ensures forall c <- BuildFrom(ck, text, docId, metadata, rest, k, cp) ::
      k <= c.chunkIndex < k + |rest| && c.text == rest[c.chunkIndex - k] && c.text != []
      && c.docId == docId && c.tokenCount == ck.tok(c.text)
      && c.metadata == Tagged(metadata, "recursive")
    decreases |rest|
  {
    if rest != [] {
      var e := if rest[0] == [] then cp else Find(text, rest[0], cp) + |rest[0]|;
      BuildTexts(ck, text, docId, metadata, rest[1..], k + 1, e);
      BuildStep(ck, text, docId, metadata, rest, k, cp);
      forall c <- BuildFrom(ck, text, docId, metadata, rest[1..], k + 1, e)
        ensures c.text == rest[c.chunkIndex - k]
      {
        assert rest[1..][c.chunkIndex - (k + 1)] == rest[c.chunkIndex - k];
      }
    }
  }

  /** A search for the empty text from inside the document succeeds where
      it starts. */
  lemma FindEmpty(text: string, cp: nat)
    requires cp <= |text|
    ensures Find(text, [], cp) == cp
  {
  }

  /** Given texts that are found one after another from `cp`, every chunk
      the loop builds points at its text in the document, after `cp`. */
  lemma {:induction false} BuildLocated(ck: Chunker, text: string, docId: string, metadata: Record,
                                        rest: seq<string>, k: nat, cp: nat)
    requires cp <= |text| && FindsAll(rest, text, cp)
    ensures forall c <- BuildFrom(ck, text, docId, metadata, rest, k, cp) ::
      Located(c, text) && cp <= c.startChar
    decreases |rest|
  {
    if rest != [] {
      BuildStep(ck, text, docId, metadata, rest, k, cp);
      var t := rest[0];
      var st := Find(text, t, cp);
      if t == [] {
        FindEmpty(text, cp);
        BuildLocated(ck, text, docId, metadata, rest[1..], k + 1, cp);
      } else {
        var e := st + |t|;
        BuildLocated(ck, text, docId, metadata, rest[1..], k + 1, e);
        var c0 := Chunk(t, k, docId, st, e, ck.tok(t), Tagged(metadata, "recursive"));
        FindOccurs(text, t, cp);
        assert Located(c0, text);
        var tail := BuildFrom(ck, text, docId, metadata, rest[1..], k + 1, e);
        forall c <- [c0] + tail
          ensures Located(c, text) && cp <= c.startChar
        {
          if c != c0 {
            assert c in tail;
          }
        }
      }
    }
  }

  /** Consecutive chunks do not overlap, and their list positions
      increase. */
  predicate InOrder(cs: seq<Chunk>) {
    forall i :: 0 <= i < |cs| - 1 ==>
      cs[i].endChar <= cs[i + 1].startChar && cs[i].chunkIndex < cs[i + 1].chunkIndex
  }

  /** A chunk placed before an ordered list that starts after it. */
  lemma InOrderCons(c: Chunk, tail: seq<Chunk>)
    requires InOrder(tail)
    requires tail != [] ==> c.endChar <= tail[0].startChar && c.chunkIndex < tail[0].chunkIndex
    ensures InOrder([c] + tail)
  {
    var r := [c] + tail;
    forall n | 0 <= n < |r| - 1
      ensures r[n].endChar <= r[n + 1].startChar && r[n].chunkIndex < r[n + 1].chunkIndex
    {
      assert r[n + 1] == tail[n];
      if n > 0 {
        assert r[n] == tail[n - 1];
      }
    }
  }

  /** The chunks the loop builds are in order, and the first starts at or
      after `cp`, at a list position of at least `k`. */
  lemma {:induction false} BuildOrdered(ck: Chunker, text: string, docId: string, metadata: Record,
                                        rest: seq<string>, k: nat, cp: nat)
    requires FindsAll(rest, text, cp)
    ensures var r := BuildFrom(ck, text, docId, metadata, rest, k, cp);
      InOrder(r) && (r != [] ==> cp <= r[0].startChar && k <= r[0].chunkIndex)
    decreases |rest|
  {
    if rest != [] {
      BuildStep(ck, text, docId, metadata, rest, k, cp);
      var t := rest[0];
      if t == [] {
        assert Find(text, t, cp) == cp;
        BuildOrdered(ck, text, docId, metadata, rest[1..], k + 1, cp);
      } else {
        var st := Find(text, t, cp);
        var e := st + |t|;
        BuildOrdered(ck, text, docId, metadata, rest[1..], k + 1, e);
        var c0 := Chunk(t, k, docId, st, e, ck.tok(t), Tagged(metadata, "recursive"));
        InOrderCons(c0, BuildFrom(ck, text, docId, metadata, rest[1..], k + 1, e));
      }
    }
  }

  /** The recursive strategy's chunks: each is the non-blank stripped piece
      of the split at position `chunk_index` (so indices increase but skip
      blank pieces), found in the document at `[start_char, end_char)`;
      consecutive chunks do not overlap. */
  lemma RecursiveChunksLocated(ck: Chunker, text: string, docId: string, metadata: Record)
    ensures forall c <- RecursiveChunks(ck, text, docId, metadata) ::
      Located(c, text)
      && 0 <= c.chunkIndex < |SplitText(ck, text, Separators)|
      && c.text == Strip(SplitText(ck, text, Separators)[c.chunkIndex]) && c.text != []
      && c.tokenCount == ck.tok(c.text) && c.docId == docId
      && c.metadata == Tagged(metadata, "recursive")
    ensures InOrder(RecursiveChunks(ck, text, docId, metadata))
  {
    assert NonEmptySeps(Separators);
    var pieces := SplitText(ck, text, Separators);
    SplitTextFinds(ck, text, Separators);
    StripFinds(pieces, text, 0);
    BuildTexts(ck, text, docId, metadata, StripAll(pieces), 0, 0);
    BuildLocated(ck, text, docId, metadata, StripAll(pieces), 0, 0);
    BuildOrdered(ck, text, docId, metadata, StripAll(pieces), 0, 0);
  }

  // ---------------------------------------------------------------------
  // The methods
  // ---------------------------------------------------------------------

  /** `_split_text`, as the code runs it: the early return, then the
      greedy loop over `text.split(separator)`. */
  method SplitTextLoop(ck: Chunker, text: string, seps: seq<string>) returns (result: seq<string>)
    requires NonEmptySeps(seps)
    ensures result == SplitText(ck, text, seps)
    decreases |seps|, 2
  {
    if seps == [] || ck.tok(text) <= ck.chunkSize {
      return [text];
    }
    NonEmptyTail(seps);
    var splits := Split(text, seps[0]);
    result := GreedyLoop(ck, seps, splits);
  }

  /** The loop of `_split_text` over the pieces of one split. */
  method GreedyLoop(ck: Chunker, seps: seq<string>, splits: seq<string>) returns (result: seq<string>)
    requires NonEmptySeps(seps) && seps != []
    ensures result == Greedy(ck, seps, splits, 0, 0, 0)
    decreases |seps|, 1
  {
    result := [];
    var current: seq<string> := [];
    var currentSize := 0;
    ghost var j: nat := 0;
    for k := 0 to |splits|
      invariant j <= k
      invariant current == splits[j..k]
      invariant result + Greedy(ck, seps, splits, k, j, currentSize) == Greedy(ck, seps, splits, 0, 0, 0)
    {
      result, current, currentSize, j := GreedyNext(ck, seps, splits, k, j, result, current, currentSize);
    }
    NonEmptyTail(seps);
    assert Greedy(ck, seps, splits, |splits|, j, currentSize)
           == if current != [] then [Join(seps[0], current)] else [];
    if current != [] {
      result := result + [Join(seps[0], current)];
    }
  }

  /** One pass of that loop, over `splits[k]`, with `current_chunk` the
      pending run `splits[j..k]`. */
  method GreedyNext(ck: Chunker, seps: seq<string>, splits: seq<string>, k: nat, ghost j: nat,
                    result: seq<string>, current: seq<string>, currentSize: int)
    returns (result': seq<string>, current': seq<string>, currentSize': int, ghost j': nat)
    requires NonEmptySeps(seps) && seps != []
    requires j <= k < |splits| && current == splits[j..k]
    ensures j' <= k + 1 && current' == splits[j'..k + 1]
    ensures result' + Greedy(ck, seps, splits, k + 1, j', currentSize')
            == result + Greedy(ck, seps, splits, k, j, currentSize)
    decreases |seps|, 0
  {
    NonEmptyTail(seps);
    var separator := seps[0];
    var split := splits[k];
    var splitTokens := ck.tok(split);
    if splitTokens > ck.chunkSize {
      GreedyDeeper(ck, seps, splits, k, j, currentSize);
      var flushed: seq<string> := [];
      currentSize' := currentSize;
      if current != [] {
        flushed := [Join(separator, current)];
        currentSize' := 0;
      }
      var subSplits := SplitTextLoop(ck, split, seps[1..]);
      ghost var tail := Greedy(ck, seps, splits, k + 1, k + 1, currentSize');
      assert result + flushed + subSplits + tail == result + (flushed + (subSplits + tail));
      return result + flushed + subSplits, [], currentSize', k + 1;
    }
    if currentSize + splitTokens > ck.chunkSize {
      GreedyFlush(ck, seps, splits, k, j, currentSize);
      if current != [] {
        ghost var tail := Greedy(ck, seps, splits, k + 1, k, splitTokens);
        assert result + [Join(separator, current)] + tail == result + ([Join(separator, current)] + tail);
        return result + [Join(separator, current)], [split], splitTokens, k;
      }
      return result, current, currentSize, k + 1;
    }
    GreedyGrow(ck, seps, splits, k, j, currentSize);
    assert splits[j..k + 1] == current + [split];
    return result, current + [split], currentSize + splitTokens, j;
  }

  /** One pass of the chunk-building loop of `_chunk_recursive` over the
      piece `textChunk` at list position `chunkIndex`, whose stripped text
      heads the stripped pieces not yet visited, `rest`: a blank piece is
      skipped, any other becomes a chunk located from
      `charPosition`. */
  method BuildNext(ck: Chunker, text: string, docId: string, metadata: Record,
                   textChunk: string, ghost rest: seq<string>, chunkIndex: nat,
                   chunks: seq<Chunk>, charPosition: nat)
    returns (chunks': seq<Chunk>, charPosition': nat)
    requires rest != [] && rest[0] == Strip(textChunk)
    ensures chunks' + BuildFrom(ck, text, docId, metadata, rest[1..], chunkIndex + 1, charPosition')
            == chunks + BuildFrom(ck, text, docId, metadata, rest, chunkIndex, charPosition)
  {
    BuildStep(ck, text, docId, metadata, rest, chunkIndex, charPosition);
    var chunkText := Strip(textChunk);
    if chunkText == [] {
      return chunks, charPosition;
    }
    var tokenCount := ck.tok(chunkText);
    var startChar := Find(text, chunkText, charPosition);
    var endChar := startChar + |chunkText|;
    var chunk := Chunk(chunkText, chunkIndex, docId, startChar, endChar, tokenCount,
                       Tagged(metadata, "recursive"));
    ghost var later := BuildFrom(ck, text, docId, metadata, rest[1..], chunkIndex + 1, endChar);
    assert chunks + ([chunk] + later) == (chunks + [chunk]) + later;
    chunks' := chunks + [chunk];
    charPosition' := endChar;
  }

  /** `_chunk_recursive`: split, then locate every non-blank stripped piece
      with `text.find(piece, char_position)`. */
  method ChunkRecursive(ck: Chunker, text: string, docId: string, metadata: Record)
    returns (chunks: seq<Chunk>)
    ensures chunks == RecursiveChunks(ck, text, docId, metadata)
  {
    assert NonEmptySeps(Separators);
    var textChunks := SplitTextLoop(ck, text, Separators);
    chunks := [];
    var charPosition: nat := 0;
    ghost var stripped := StripAll(textChunks);
    assert stripped[0..] == stripped;
    for chunkIndex := 0 to |textChunks|
      invariant chunks + BuildFrom(ck, text, docId, metadata, stripped[chunkIndex..], chunkIndex, charPosition)
                == RecursiveChunks(ck, text, docId, metadata)
    {
      assert stripped[chunkIndex..][1..] == stripped[chunkIndex + 1..];
      assert stripped[chunkIndex..][0] == Strip(textChunks[chunkIndex]);
      chunks, charPosition := BuildNext(ck, text, docId, metadata, textChunks[chunkIndex],
                                        stripped[chunkIndex..], chunkIndex, chunks, charPosition);
    }
  }
}
