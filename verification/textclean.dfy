/** The page clean-up `pipeline.py` applies before splitting a file:
    header and footer removal by comparing each page with a neighbour, then
    the joining of lines that a page break or a hard wrap cut in two. */
module TextCleaning {
  import opened Strs

  /** A loaded page: its text and its metadata. */
  datatype Page<M> = Page(content: string, metadata: M)

  /** `linhas_similares` with its default cutoff: whether two lines are
      alike enough to be the same header or footer line. */
  type Similar = (string, string) -> bool

  /** `max_linhas`: how many lines at each end of a page are compared. */
  const MaxLines: nat := 15

  /** `s[:n]`. */
  function First<T>(s: seq<T>, n: nat): (r: seq<T>)
    ensures |r| == if |s| <= n then |s| else n
  {
    if |s| <= n then s else s[..n]
  }

  /** `s[-n:]` for `n >= 1`, and the whole of `s` when it is shorter. */
  function Last<T>(s: seq<T>, n: nat): (r: seq<T>)
    ensures |r| == if |s| <= n then |s| else n
  {
    if |s| <= n then s else s[|s| - n..]
  }

  // ---------------------------------------------------------------------
  // Runs of similar lines
  // ---------------------------------------------------------------------

  /** How many pairs of `zip(a, b)`, from position `j` on, are similar
      before the first that is not. */
  function LeadingFrom(similar: Similar, a: seq<string>, b: seq<string>, j: nat): (n: nat)
    requires j <= |a| && j <= |b|
    ensures j + n <= |a| && j + n <= |b|
    decreases |a| - j
  {
    if j < |a| && j < |b| && similar(a[j], b[j]) then 1 + LeadingFrom(similar, a, b, j + 1) else 0
  }

  /** How many pairs of `zip(reversed(a), reversed(b))`, from position `j`
      of the reversed lists on, are similar before the first that is not. */
  function TrailingFrom(similar: Similar, a: seq<string>, b: seq<string>, j: nat): (n: nat)
    requires j <= |a| && j <= |b|
    ensures j + n <= |a| && j + n <= |b|
    decreases |a| - j
  {
    if j < |a| && j < |b| && similar(a[|a| - 1 - j], b[|b| - 1 - j]) then 1 + TrailingFrom(similar, a, b, j + 1) else 0
  }

  /** The header count of `zip(a, b)`. */
  function Leading(similar: Similar, a: seq<string>, b: seq<string>): (n: nat)
    ensures n <= |a| && n <= |b|
  {
    LeadingFrom(similar, a, b, 0)
  }

  /** The footer count of `zip(reversed(a), reversed(b))`. */
  function Trailing(similar: Similar, a: seq<string>, b: seq<string>): (n: nat)
    ensures n <= |a| && n <= |b|
  {
    TrailingFrom(similar, a, b, 0)
  }

  /** The leading count is the longest run: every pair inside it is
      similar, and the pair right after it (when there is one) is not. */
  lemma {:induction false} LeadingIsLongestRun(similar: Similar, a: seq<string>, b: seq<string>, j: nat)
    requires j <= |a| && j <= |b|
    ensures forall k :: j <= k < j + LeadingFrom(similar, a, b, j) ==> similar(a[k], b[k])
    ensures j + LeadingFrom(similar, a, b, j) < |a| && j + LeadingFrom(similar, a, b, j) < |b| ==>
      !similar(a[j + LeadingFrom(similar, a, b, j)], b[j + LeadingFrom(similar, a, b, j)])
    decreases |a| - j
  {
    if j < |a| && j < |b| && similar(a[j], b[j]) {
      LeadingIsLongestRun(similar, a, b, j + 1);
    }
  }

  /** The trailing count is the longest run from the ends: every pair
      inside it (lines of `a` and `b` at the same distance from their
      ends) is similar, and the pair right before it is not. */
  lemma {:induction false} TrailingIsLongestRun(similar: Similar, a: seq<string>, b: seq<string>, j: nat)
    requires j <= |a| && j <= |b|
    ensures forall p :: |a| - j - TrailingFrom(similar, a, b, j) <= p < |a| - j ==> similar(a[p], b[p + |b| - |a|])
    ensures j + TrailingFrom(similar, a, b, j) < |a| && j + TrailingFrom(similar, a, b, j) < |b| ==>
      !similar(a[|a| - 1 - j - TrailingFrom(similar, a, b, j)], b[|b| - 1 - j - TrailingFrom(similar, a, b, j)])
    decreases |a| - j
  {
    if j < |a| && j < |b| && similar(a[|a| - 1 - j], b[|b| - 1 - j]) {
      TrailingIsLongestRun(similar, a, b, j + 1);
    }
  }

  /** The header loop: walk `zip(a, b)` from the front while the lines are
      similar. */
  method CountLeading(similar: Similar, a: seq<string>, b: seq<string>) returns (n: nat)
    ensures n == Leading(similar, a, b)
  {
    n := 0;
    while n < |a| && n < |b| && similar(a[n], b[n])
      invariant n <= |a| && n <= |b|
      invariant Leading(similar, a, b) == n + LeadingFrom(similar, a, b, n)
    {
      n := n + 1;
    }
  }

  /** The footer loop: walk `zip(reversed(a), reversed(b))` while the
      lines are similar. */
  method CountTrailing(similar: Similar, a: seq<string>, b: seq<string>) returns (n: nat)
    ensures n == Trailing(similar, a, b)
  {
    n := 0;
    while n < |a| && n < |b| && similar(a[|a| - 1 - n], b[|b| - 1 - n])
      invariant n <= |a| && n <= |b|
      invariant Trailing(similar, a, b) == n + TrailingFrom(similar, a, b, n)
    {
      n := n + 1;
    }
  }

  // ---------------------------------------------------------------------
  // remover_cabecalho_rodape
  // ---------------------------------------------------------------------

  /** What the page loop carries from one page to the next: the lines of
      the page compared with, and how many header or footer lines have
      matched so far (`prim_cab`). */
  datatype Scan = Scan(prevLines: seq<string>, primCab: nat)

  /** The lines of each page, `page_content.splitlines()`. */
  function PageLines<M>(pages: seq<Page<M>>): (ls: seq<seq<string>>)
    ensures |ls| == |pages| && forall i :: 0 <= i < |pages| ==> ls[i] == SplitLines(pages[i].content)
  {
    seq(|pages|, i requires 0 <= i < |pages| => SplitLines(pages[i].content))
  }

  /** The lines page `i` is compared with: the next page's while nothing
      has matched yet (and there is a next page), otherwise the lines kept
      from the previous turn. Here `ls` holds the lines of every page. */
  function Comparison(ls: seq<seq<string>>, i: nat, st: Scan): seq<string>
    requires i < |ls|
  {
    if st.primCab == 0 && i < |ls| - 1 then ls[i + 1] else st.prevLines
  }

  /** Header lines are looked for from the second page on. */
  function HeaderCount(similar: Similar, lines: seq<string>, prev: seq<string>, i: nat): (h: nat)
    ensures h <= |lines| && h <= MaxLines
  {
    if i > 0 && prev != [] then Leading(similar, First(lines, MaxLines), First(prev, MaxLines)) else 0
  }

  /** Footer lines are looked for on every page, among the lines left
      after the header. */
  function FooterCount(similar: Similar, rest: seq<string>, prev: seq<string>): (f: nat)
    ensures f <= |rest| && f <= MaxLines
  {
    if prev != [] then Trailing(similar, Last(rest, MaxLines), Last(prev, MaxLines)) else 0
  }

  /** How many header lines page `i` loses, given the loop state before
      it. */
  function HeaderOf(similar: Similar, ls: seq<seq<string>>, i: nat, st: Scan): (h: nat)
    requires i < |ls|
    ensures h <= |ls[i]| && h <= MaxLines
  {
    HeaderCount(similar, ls[i], Comparison(ls, i, st), i)
  }

  /** How many footer lines page `i` loses, given the loop state before
      it. */
  function FooterOf(similar: Similar, ls: seq<seq<string>>, i: nat, st: Scan): (f: nat)
    requires i < |ls|
    ensures HeaderOf(similar, ls, i, st) + f <= |ls[i]| && f <= MaxLines
  {
    FooterCount(similar, ls[i][HeaderOf(similar, ls, i, st)..], Comparison(ls, i, st))
  }

  /** The loop state before page `k`. */
  function ScanTo(similar: Similar, ls: seq<seq<string>>, k: nat): Scan
    requires k <= |ls|
  {
    if k == 0 then Scan([], 0)
    else
      var st := ScanTo(similar, ls, k - 1);
      Scan(ls[k - 1], st.primCab + HeaderOf(similar, ls, k - 1, st) + FooterOf(similar, ls, k - 1, st))
  }

  /** How many header lines page `i` loses. */
  function HeaderAt(similar: Similar, ls: seq<seq<string>>, i: nat): (h: nat)
    requires i < |ls|
    ensures h <= |ls[i]| && h <= MaxLines
  {
    HeaderOf(similar, ls, i, ScanTo(similar, ls, i))
  }

  /** How many footer lines page `i` loses. */
  function FooterAt(similar: Similar, ls: seq<seq<string>>, i: nat): (f: nat)
    requires i < |ls|
    ensures HeaderAt(similar, ls, i) + f <= |ls[i]| && f <= MaxLines
  {
    FooterOf(similar, ls, i, ScanTo(similar, ls, i))
  }

  /** `"\n".join(lines).strip()`. */
  function PageText(lines: seq<string>): string {
    Strip(Join("\n", lines))
  }

  /** The lines of a page left once `h` at the top and `f` at the bottom
      are dropped. */
  function Body(lines: seq<string>, h: nat, f: nat): (r: seq<string>)
    requires h + f <= |lines|
    ensures |r| == |lines| - h - f
    ensures forall k :: 0 <= k < |r| ==> r[k] == lines[h + k]
  {
    lines[h..|lines| - f]
  }

  /** Page `i` as the loop rebuilds it. */
  function Cleaned<M>(similar: Similar, pages: seq<Page<M>>, i: nat): Page<M>
    requires i < |pages|
  {
    var ls := PageLines(pages);
    Page(PageText(Body(ls[i], HeaderAt(similar, ls, i), FooterAt(similar, ls, i))), pages[i].metadata)
  }

  /** `remover_cabecalho_rodape(pages)`. */
  function HeadersAndFootersRemoved<M>(similar: Similar, pages: seq<Page<M>>): (r: seq<Page<M>>)
    ensures |r| == |pages|
  {
    seq(|pages|, i requires 0 <= i < |pages| => Cleaned(similar, pages, i))
  }

  /** Page `p` is page `source` with `h` lines dropped at the top and `f`
      at the bottom (at most `MaxLines` each), the rest joined with
      newlines and stripped, the metadata kept. */
  ghost predicate TrimmedFrom<M>(p: Page<M>, source: Page<M>, h: nat, f: nat) {
    var lines := SplitLines(source.content);
    h <= MaxLines && f <= MaxLines && h + f <= |lines|
    && p.content == PageText(Body(lines, h, f)) && p.metadata == source.metadata
  }

  /** `remover_cabecalho_rodape` keeps the number of pages; every page is
      its source page with some header lines and footer lines (at most 15
      each, and no header lines on the first page) dropped, the rest joined
      with newlines and stripped, and the metadata kept. */
  lemma HeadersAndFootersTrimmed<M>(similar: Similar, pages: seq<Page<M>>, i: nat)
    requires i < |pages|
    ensures |HeadersAndFootersRemoved(similar, pages)| == |pages|
    ensures TrimmedFrom(HeadersAndFootersRemoved(similar, pages)[i], pages[i],
                        HeaderAt(similar, PageLines(pages), i), FooterAt(similar, PageLines(pages), i))
    ensures i == 0 ==> HeaderAt(similar, PageLines(pages), i) == 0
  {
  }

  /** Which page is compared with page `i`: the next page as long as no
      header or footer line has matched (and page `i` is not the last);
      otherwise the previous page. */
  lemma ComparisonPage(similar: Similar, ls: seq<seq<string>>, i: nat)
    requires i < |ls|
    ensures ScanTo(similar, ls, i).primCab == 0 && i < |ls| - 1 ==>
      Comparison(ls, i, ScanTo(similar, ls, i)) == ls[i + 1]
    ensures !(ScanTo(similar, ls, i).primCab == 0 && i < |ls| - 1) && i > 0 ==>
      Comparison(ls, i, ScanTo(similar, ls, i)) == ls[i - 1]
    ensures i == 0 && |ls| == 1 ==> Comparison(ls, i, ScanTo(similar, ls, i)) == []
  {
  }

  /** The match count is still zero before page `k` exactly when no
      header or footer line was removed from any page before it; so the
      pages are compared with their successors up to the first match, and
      with their predecessors from then on. */
  lemma NoMatchYet(similar: Similar, ls: seq<seq<string>>, k: nat)
    requires k <= |ls|
    ensures ScanTo(similar, ls, k).primCab == 0 <==>
      (forall j :: 0 <= j < k ==> HeaderAt(similar, ls, j) == 0 && FooterAt(similar, ls, j) == 0)
  {
    if ScanTo(similar, ls, k).primCab == 0 {
      forall j | 0 <= j < k ensures HeaderAt(similar, ls, j) == 0 && FooterAt(similar, ls, j) == 0 {
        ZeroBefore(similar, ls, k, j);
      }
    }
    if forall j :: 0 <= j < k ==> HeaderAt(similar, ls, j) == 0 && FooterAt(similar, ls, j) == 0 {
      ZeroScan(similar, ls, k);
    }
  }

  /** While the match count is zero, no page before has lost a line. */
  lemma {:induction false} ZeroBefore(similar: Similar, ls: seq<seq<string>>, k: nat, j: nat)
    requires j < k <= |ls| && ScanTo(similar, ls, k).primCab == 0
    ensures HeaderAt(similar, ls, j) == 0 && FooterAt(similar, ls, j) == 0
    decreases k
  {
    MatchStep(similar, ls, k - 1);
    if j < k - 1 {
      ZeroBefore(similar, ls, k - 1, j);
    }
  }

  /** When no page before `k` has lost a line, the match count is zero. */
  lemma {:induction false} ZeroScan(similar: Similar, ls: seq<seq<string>>, k: nat)
    requires k <= |ls|
    requires forall j :: 0 <= j < k ==> HeaderAt(similar, ls, j) == 0 && FooterAt(similar, ls, j) == 0
    ensures ScanTo(similar, ls, k).primCab == 0
  {
    if k > 0 {
      ZeroScan(similar, ls, k - 1);
      MatchStep(similar, ls, k - 1);
    }
  }

  /** The match count after page `k` adds that page's header and footer
      counts. */
  lemma MatchStep(similar: Similar, ls: seq<seq<string>>, k: nat)
    requires k < |ls|
    ensures ScanTo(similar, ls, k + 1).primCab
      == ScanTo(similar, ls, k).primCab + HeaderAt(similar, ls, k) + FooterAt(similar, ls, k)
  {
  }

  /** The removed header of a page is the longest run, among its first 15
      lines, of lines similar to the compared page's line at the same
      position. */
  lemma HeaderIsLongestRun(similar: Similar, lines: seq<string>, prev: seq<string>, i: nat)
    requires i > 0 && prev != []
    ensures var h := HeaderCount(similar, lines, prev, i);
      (forall j :: 0 <= j < h ==> similar(lines[j], prev[j]))
      && (h < |First(lines, MaxLines)| && h < |First(prev, MaxLines)| ==> !similar(lines[h], prev[h]))
  {
    LeadingIsLongestRun(similar, First(lines, MaxLines), First(prev, MaxLines), 0);
  }

  /** `remover_cabecalho_rodape`: one output page per input page, built
      turn by turn with the compared lines and the match count carried
      over. */
  method RemoveHeaderFooter<M>(similar: Similar, pages: seq<Page<M>>) returns (resultado: seq<Page<M>>)
    ensures resultado == HeadersAndFootersRemoved(similar, pages)
  {
    resultado := [];
    var prevLines: seq<string> := [];
    var primCab: nat := 0;
    for i := 0 to |pages|
      invariant Scan(prevLines, primCab) == ScanTo(similar, PageLines(pages), i)
      invariant resultado == HeadersAndFootersRemoved(similar, pages)[..i]
    {
      var page;
      page, prevLines, primCab := CleanPage(similar, pages, i, prevLines, primCab);
      TakeOneMore(HeadersAndFootersRemoved(similar, pages), i);
      resultado := resultado + [page];
    }
  }

  /** One turn of the page loop: page `i` cleaned, and the compared lines
      and match count for the next turn. */
  method CleanPage<M>(similar: Similar, pages: seq<Page<M>>, i: nat, prevLines: seq<string>, primCab: nat)
    returns (page: Page<M>, prevLines': seq<string>, primCab': nat)
    requires i < |pages| && Scan(prevLines, primCab) == ScanTo(similar, PageLines(pages), i)
    ensures page == HeadersAndFootersRemoved(similar, pages)[i]
    ensures Scan(prevLines', primCab') == ScanTo(similar, PageLines(pages), i + 1)
  {
    var linhas := SplitLines(pages[i].content);
    var compared := prevLines;
    if primCab == 0 && i < |pages| - 1 {
      compared := SplitLines(pages[i + 1].content);
    }
    var semCabecalho, cabecalho := DropHeader(similar, linhas, compared, i);
    var corpo, rodape := DropFooter(similar, semCabecalho, compared);
    ScanNext(similar, pages, i, compared, cabecalho, rodape, corpo);
    primCab' := primCab + cabecalho + rodape;
    page := Page(PageText(corpo), pages[i].metadata);
    prevLines' := linhas;
  }

  /** One turn of the loop, from the values the loop body computes. */
  lemma ScanNext<M>(similar: Similar, pages: seq<Page<M>>, i: nat, prev: seq<string>, h: nat, f: nat, corpo: seq<string>)
    requires i < |pages|
    requires prev == Comparison(PageLines(pages), i, ScanTo(similar, PageLines(pages), i))
    requires h == HeaderCount(similar, PageLines(pages)[i], prev, i)
    requires f == FooterCount(similar, PageLines(pages)[i][h..], prev)
    requires corpo == PageLines(pages)[i][h..][..|PageLines(pages)[i][h..]| - f]
    ensures ScanTo(similar, PageLines(pages), i + 1) == Scan(PageLines(pages)[i], ScanTo(similar, PageLines(pages), i).primCab + h + f)
    ensures HeadersAndFootersRemoved(similar, pages)[i] == Page(PageText(corpo), pages[i].metadata)
  {
    var ls := PageLines(pages);
    CountsAt(similar, ls, i, prev, h, f);
    ScanStep(similar, ls, i);
    CleanedPage(similar, pages, i, h, f, corpo);
  }

  /** The counts the loop body computes are the page's header and footer
      counts. */
  lemma CountsAt(similar: Similar, ls: seq<seq<string>>, i: nat, prev: seq<string>, h: nat, f: nat)
    requires i < |ls|
    requires prev == Comparison(ls, i, ScanTo(similar, ls, i))
    requires h == HeaderCount(similar, ls[i], prev, i)
    requires f == FooterCount(similar, ls[i][h..], prev)
    ensures h == HeaderAt(similar, ls, i) && f == FooterAt(similar, ls, i)
  {
  }

  /** The loop state after page `i`. */
  lemma ScanStep(similar: Similar, ls: seq<seq<string>>, i: nat)
    requires i < |ls|
    ensures ScanTo(similar, ls, i + 1)
      == Scan(ls[i], ScanTo(similar, ls, i).primCab + HeaderAt(similar, ls, i) + FooterAt(similar, ls, i))
  {
  }

  /** Page `i` of the result, from the header and footer counts and the
      lines kept. */
  lemma CleanedPage<M>(similar: Similar, pages: seq<Page<M>>, i: nat, h: nat, f: nat, corpo: seq<string>)
    requires i < |pages|
    requires h == HeaderAt(similar, PageLines(pages), i) && f == FooterAt(similar, PageLines(pages), i)
    requires corpo == PageLines(pages)[i][h..][..|PageLines(pages)[i][h..]| - f]
    ensures HeadersAndFootersRemoved(similar, pages)[i] == Page(PageText(corpo), pages[i].metadata)
  {
    assert corpo == Body(PageLines(pages)[i], h, f);
  }

  lemma TakeOneMore<T>(s: seq<T>, i: nat)
    requires i < |s|
    ensures s[..i + 1] == s[..i] + [s[i]]
  {
  }

  /** The header step of the page loop: from the second page on, and when
      there are lines to compare with, the leading run of similar lines
      among the first 15 is dropped. */
  method DropHeader(similar: Similar, linhas: seq<string>, prevLines: seq<string>, i: nat)
    returns (rest: seq<string>, cabecalho: nat)
    ensures cabecalho == HeaderCount(similar, linhas, prevLines, i)
    ensures rest == linhas[cabecalho..]
  {
    rest, cabecalho := linhas, 0;
    if i > 0 && prevLines != [] {
      cabecalho := CountLeading(similar, First(linhas, MaxLines), First(prevLines, MaxLines));
      if cabecalho > 0 {
        rest := linhas[cabecalho..];
      }
    }
  }

  /** The footer step of the page loop: when there are lines to compare
      with, the trailing run of similar lines among the last 15 is
      dropped. */
  method DropFooter(similar: Similar, linhas: seq<string>, prevLines: seq<string>)
    returns (rest: seq<string>, rodape: nat)
    ensures rodape == FooterCount(similar, linhas, prevLines)
    ensures rest == linhas[..|linhas| - rodape]
  {
    rest, rodape := linhas, 0;
    if prevLines != [] {
      rodape := CountTrailing(similar, Last(linhas, MaxLines), Last(prevLines, MaxLines));
      if rodape > 0 {
        rest := linhas[..|linhas| - rodape];
      }
    }
  }

  // ---------------------------------------------------------------------
  // ajustar_quebras_linha
  // ---------------------------------------------------------------------

  /** The search for `[.!?;:]\s*$`: after any trailing whitespace, the
      text ends in strong punctuation. */
  predicate EndsStrong(s: string)
    decreases |s|
  {
    s != [] && (s[|s| - 1] in ".!?;:" || (IsSpace(s[|s| - 1]) && EndsStrong(s[..|s| - 1])))
  }

  /** A line is merged into the previous one when the previous one is
      non-empty and does not end in strong punctuation, and the line starts
      with a lowercase letter. */
  predicate Joins(previous: string, line: string) {
    previous != [] && !EndsStrong(previous) && line != [] && IsLower(line[0])
  }

  /** The merge: a trailing hyphen is dropped and the lines run together;
      otherwise they are joined with one space. */
  function Merge(previous: string, line: string): string
    requires previous != []
  {
    if EndsWith(previous, "-") then previous[..|previous| - 1] + line else previous + " " + line
  }

  /** One turn of the line loop on the lines kept so far. */
  function AddLine(kept: seq<string>, line: string): seq<string> {
    if kept != [] && Joins(kept[|kept| - 1], line) then kept[|kept| - 1 := Merge(kept[|kept| - 1], line)]
    else kept + [line]
  }

  /** The lines of a page after every line is stripped and merged where
      the rule says so. */
  function MergedLines(lines: seq<string>): seq<string> {
    if lines == [] then [] else AddLine(MergedLines(lines[..|lines| - 1]), Strip(lines[|lines| - 1]))
  }

  /** `ajustar_quebras_linha` on one page. */
  function AdjustedPage<M>(p: Page<M>): Page<M> {
    Page(Join("\n", MergedLines(SplitLines(p.content))), p.metadata)
  }

  /** `ajustar_quebras_linha`: the page count and every page's metadata
      are kept. */
  function LineBreaksAdjusted<M>(pages: seq<Page<M>>): (r: seq<Page<M>>)
    ensures |r| == |pages|
    ensures forall i :: 0 <= i < |pages| ==> r[i].metadata == pages[i].metadata
  {
    seq(|pages|, i requires 0 <= i < |pages| => AdjustedPage(pages[i]))
  }

  /** Neither starts nor ends with whitespace. */
  predicate Trimmed(s: string) {
    s == [] || (!IsSpace(s[0]) && !IsSpace(s[|s| - 1]))
  }

  /** Merging never adds lines, keeps at least one line of a non-empty
      page, and leaves every line without surrounding whitespace. */
  lemma {:induction false} MergedLinesShape(lines: seq<string>)
    ensures |MergedLines(lines)| <= |lines|
    ensures lines != [] ==> MergedLines(lines) != []
    ensures forall k :: 0 <= k < |MergedLines(lines)| ==> Trimmed(MergedLines(lines)[k])
  {
    if lines != [] {
      var kept := MergedLines(lines[..|lines| - 1]);
      var line := Strip(lines[|lines| - 1]);
      MergedLinesShape(lines[..|lines| - 1]);
      StripSlice(lines[|lines| - 1]);
      assert Trimmed(line);
      if kept != [] && Joins(kept[|kept| - 1], line) {
        MergeTrimmed(kept[|kept| - 1], line);
      }
    }
  }

  lemma MergeTrimmed(previous: string, line: string)
    requires Joins(previous, line) && Trimmed(previous) && Trimmed(line)
    ensures Trimmed(Merge(previous, line))
  {
    var m := Merge(previous, line);
    if EndsWith(previous, "-") && |previous| == 1 {
      assert m == line;
    } else {
      assert m[0] == previous[0];
      assert m[|m| - 1] == line[|line| - 1];
    }
  }

  /** When no line after the first starts with a lowercase letter, nothing
      is merged: the result is the stripped lines, one for one. */
  lemma {:induction false} NoMergeWithoutLowercase(lines: seq<string>)
    requires forall k :: 1 <= k < |lines| ==> Strip(lines[k]) == [] || !IsLower(Strip(lines[k])[0])
    ensures |MergedLines(lines)| == |lines|
    ensures forall k :: 0 <= k < |lines| ==> MergedLines(lines)[k] == Strip(lines[k])
  {
    if lines != [] {
      var init := lines[..|lines| - 1];
      forall k | 1 <= k < |init| ensures Strip(init[k]) == [] || !IsLower(Strip(init[k])[0]) {
        assert init[k] == lines[k];
      }
      NoMergeWithoutLowercase(init);
      var kept := MergedLines(init);
      var line := Strip(lines[|lines| - 1]);
      assert !(kept != [] && Joins(kept[|kept| - 1], line));
      assert MergedLines(lines) == kept + [line];
      forall k | 0 <= k < |lines| ensures MergedLines(lines)[k] == Strip(lines[k]) {
        if k < |init| {
          assert lines[k] == init[k];
        }
      }
    }
  }

  /** A lowercase line after a line without strong punctuation at its end
      is merged into it: two lines become one. */
  lemma MergesLowercase(previous: string, line: string)
    requires Trimmed(previous) && previous != [] && !(previous[|previous| - 1] in ".!?;:")
    requires Trimmed(line) && line != [] && IsLower(line[0])
    ensures MergedLines([previous, line]) == [Merge(previous, line)]
    ensures !EndsWith(previous, "-") ==> MergedLines([previous, line]) == [previous + " " + line]
  {
    assert [previous, line][..1] == [previous];
    assert MergedLines([previous]) == [Strip(previous)] by {
      assert [previous][..0] == [];
    }
    TrimmedStrip(previous);
    TrimmedStrip(line);
  }

  lemma TrimmedStrip(s: string)
    requires Trimmed(s)
    ensures Strip(s) == s
  {
    if s != [] {
      assert FirstNonSpace(s, 0) == 0;
      assert EndNonSpace(s, 0, |s|) == |s|;
    }
  }

  lemma MergedLinesStep(lines: seq<string>, i: nat)
    requires i < |lines|
    ensures MergedLines(lines[..i + 1]) == AddLine(MergedLines(lines[..i]), Strip(lines[i]))
    ensures i > 0 ==> MergedLines(lines[..i]) != []
  {
    assert lines[..i + 1][..i] == lines[..i];
    if i > 0 {
      MergedLinesShape(lines[..i]);
    }
  }

  /** The line loop of one page: strip each line, then merge it into the
      previous one or append it. */
  method AdjustLines(linhas: seq<string>) returns (resultado: seq<string>)
    ensures resultado == MergedLines(linhas)
  {
    resultado := [];
    for i := 0 to |linhas|
      invariant resultado == MergedLines(linhas[..i])
    {
      var linha := Strip(linhas[i]);
      MergedLinesStep(linhas, i);
      resultado := MergeLine(resultado, i, linha);
    }
    assert linhas[..|linhas|] == linhas;
  }

  /** One turn of the line loop: line `i`, already stripped, is merged into
      the last line kept or appended. */
  method MergeLine(resultado: seq<string>, i: nat, linha: string) returns (r: seq<string>)
    requires i > 0 ==> resultado != []
    requires i == 0 ==> resultado == []
    ensures r == AddLine(resultado, linha)
  {
    if i > 0 {
      var anterior := resultado[|resultado| - 1];
      if anterior != [] && !EndsStrong(anterior) && linha != [] && IsLower(linha[0]) {
        if EndsWith(anterior, "-") {
          return resultado[|resultado| - 1 := anterior[..|anterior| - 1] + linha];
        } else {
          return resultado[|resultado| - 1 := anterior + " " + linha];
        }
      }
    }
    r := resultado + [linha];
  }

  /** `ajustar_quebras_linha`: every page rebuilt with its lines adjusted
      and its metadata kept. */
  method AdjustLineBreaks<M>(pages: seq<Page<M>>) returns (docs: seq<Page<M>>)
    ensures docs == LineBreaksAdjusted(pages)
  {
    docs := [];
    for i := 0 to |pages|
      invariant docs == LineBreaksAdjusted(pages)[..i]
    {
      var resultado := AdjustLines(SplitLines(pages[i].content));
      TakeOneMore(LineBreaksAdjusted(pages), i);
      docs := docs + [Page(Join("\n", resultado), pages[i].metadata)];
    }
  }
}
