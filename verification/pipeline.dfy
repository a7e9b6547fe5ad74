/** The helpers of the legacy loading pipeline (`pipeline.py`): vector ids,
    the mapping of Windows share paths onto Linux mount points, the file
    extension and sector list taken from a document row, the markdown list
    of active documents, and the status texts written to the tracking
    table. */
module Pipeline {
  import opened Wrappers
  import opened Strs

  // ---------------------------------------------------------------------
  // chunk_id
  // ---------------------------------------------------------------------

  /** The longest id kept. */
  const IdLength: nat := 128

  /** How many digits the chunk number is padded to. */
  const IndexWidth: nat := 5

  /** `f"{doc_id}-c{str(i).zfill(5)}"` before it is cut to length. */
  function FullChunkId(docId: string, i: int): string {
    docId + "-c" + ZFill(IntToString(i), IndexWidth)
  }

  /** `chunk_id(doc_id, i)`: the full id cut to its first 128 characters. */
  function ChunkId(docId: string, i: int): (r: string)
    ensures |r| <= IdLength
    ensures StartsWith(FullChunkId(docId, i), r)
    ensures |FullChunkId(docId, i)| <= IdLength ==> r == FullChunkId(docId, i)
  {
    Take(FullChunkId(docId, i), IdLength)
  }

  /** While the full id fits, a chunk id is the document id, `-c`, and at
      least five decimal digits that read back as the chunk number. */
  lemma ChunkIdReadsBack(docId: string, i: nat)
    requires |FullChunkId(docId, i)| <= IdLength
    ensures |docId| + 2 <= |ChunkId(docId, i)|
    ensures ChunkId(docId, i)[..|docId| + 2] == docId + "-c"
    ensures |ChunkId(docId, i)| >= |docId| + 2 + IndexWidth
    ensures AllDigits(ChunkId(docId, i)[|docId| + 2..])
    ensures DigitsValue(ChunkId(docId, i)[|docId| + 2..]) == i
  {
    var digits := ZFill(NatToString(i), IndexWidth);
    assert ChunkId(docId, i) == (docId + "-c") + digits;
    assert ChunkId(docId, i)[|docId| + 2..] == digits;
    ZFillNatValue(i, IndexWidth);
  }

  /** Different chunks of one document get different ids as long as the
      ids need no cutting. */
  lemma ChunkIdDistinct(docId: string, i: nat, j: nat)
    requires |FullChunkId(docId, i)| <= IdLength && |FullChunkId(docId, j)| <= IdLength
    requires i != j
    ensures ChunkId(docId, i) != ChunkId(docId, j)
  {
    ChunkIdReadsBack(docId, i);
    ChunkIdReadsBack(docId, j);
  }

  /** A document id of 128 characters or more leaves nothing of the chunk
      number: every chunk of that document gets the same id. */
  lemma ChunkIdLongDocument(docId: string, i: int, j: int)
    requires |docId| >= IdLength
    ensures ChunkId(docId, i) == docId[..IdLength]
    ensures ChunkId(docId, i) == ChunkId(docId, j)
  {
    assert FullChunkId(docId, i)[..IdLength] == docId[..IdLength];
    assert FullChunkId(docId, j)[..IdLength] == docId[..IdLength];
  }

  // ---------------------------------------------------------------------
  // converte_path_to_linux
  // ---------------------------------------------------------------------

  /** A Windows share prefix and the Linux mount point it is reached by. */
  datatype Mapping = Mapping(windows: string, linux: string)

  /** `MAPPINGS`, in the order the dictionary is iterated. */
  const Mappings: seq<Mapping> := [
    Mapping("\\\\blumenau.unimed\\dfs\\APPS", "/mnt/APPS"),
    Mapping("\\\\blumenau.unimed\\dfs\\Qualidade", "/mnt/Qualidade"),
    Mapping("R:\\Qualidade", "/mnt/Qualidade")
  ]

  predicate NoBackslash(s: string) {
    forall i :: 0 <= i < |s| ==> s[i] != '\\'
  }

  /** `s.replace("\\", "/")`. */
  function Slashed(s: string): (r: string)
    ensures |r| == |s| && NoBackslash(r)
  {
    ReplaceChar(s, '\\', '/')
  }

  predicate Usable(ms: seq<Mapping>) {
    forall k :: 0 <= k < |ms| ==> ms[k].windows != []
  }

  /** Whether mapping `k`'s slashed Windows prefix starts the path. */
  predicate Matches(path: string, ms: seq<Mapping>, k: nat)
    requires k < |ms|
  {
    StartsWith(path, Slashed(ms[k].windows))
  }

  /** The loop over the mappings from mapping `k` on: the first whose
      slashed Windows prefix starts the path has its first occurrence
      replaced by the Linux prefix; with no match the path comes back as it
      is. */
  function MapFrom(path: string, ms: seq<Mapping>, k: nat): string
    requires Usable(ms) && k <= |ms|
    decreases |ms| - k
  {
    if k == |ms| then path
    else if Matches(path, ms, k) then ReplaceFirst(path, Slashed(ms[k].windows), ms[k].linux)
    else MapFrom(path, ms, k + 1)
  }

  /** `converte_path_to_linux(win_path)`. */
  function ConvertPath(winPath: string): string {
    MapFrom(Slashed(winPath), Mappings, 0)
  }

  /** Replacing the first occurrence of a prefix replaces the prefix. */
  lemma ReplaceAtStart(path: string, p: string, repl: string)
    requires p != [] && StartsWith(path, p)
    ensures ReplaceFirst(path, p, repl) == repl + path[|p|..]
  {
    assert Find(path, p, 0) == 0;
  }

  /** With no mapping matching from `k` on, the path comes back as it is. */
  lemma {:induction false} MapFromNone(path: string, ms: seq<Mapping>, k: nat)
    requires Usable(ms) && k <= |ms|
    requires forall m :: k <= m < |ms| ==> !Matches(path, ms, m)
    ensures MapFrom(path, ms, k) == path
    decreases |ms| - k
  {
    if k < |ms| {
      assert !Matches(path, ms, k);
      MapFromNone(path, ms, k + 1);
    }
  }

  /** The first mapping from `k` on that matches decides the result. */
  lemma {:induction false} MapFromMatch(path: string, ms: seq<Mapping>, k: nat, m: nat)
    requires Usable(ms) && k <= m < |ms| && Matches(path, ms, m)
    requires forall j :: k <= j < m ==> !Matches(path, ms, j)
    ensures MapFrom(path, ms, k) == ms[m].linux + path[|ms[m].windows|..]
    decreases m - k
  {
    if k < m {
      assert !Matches(path, ms, k);
      MapFromMatch(path, ms, k + 1, m);
    } else {
      ReplaceAtStart(path, Slashed(ms[k].windows), ms[k].linux);
    }
  }

  lemma MapFromFirst(path: string, ms: seq<Mapping>, k: nat)
    requires Usable(ms) && k <= |ms|
    ensures (forall m :: k <= m < |ms| ==> !Matches(path, ms, m)) ==> MapFrom(path, ms, k) == path
    ensures forall m :: (k <= m < |ms| && Matches(path, ms, m) && (forall j :: k <= j < m ==> !Matches(path, ms, j))
      ==> MapFrom(path, ms, k) == ms[m].linux + path[|ms[m].windows|..])
  {
    if forall m :: k <= m < |ms| ==> !Matches(path, ms, m) {
      MapFromNone(path, ms, k);
    }
    forall m | k <= m < |ms| && Matches(path, ms, m) && (forall j :: k <= j < m ==> !Matches(path, ms, j))
      ensures MapFrom(path, ms, k) == ms[m].linux + path[|ms[m].windows|..]
    {
      MapFromMatch(path, ms, k, m);
    }
  }

  /** Every backslash becomes a slash; the first mapping, in order, whose
      prefix starts the slashed path has that prefix replaced by its mount
      point and the rest of the path kept; with no match the slashed path
      is the result. */
  lemma ConvertPathFirstMatch(winPath: string)
    ensures (forall k :: 0 <= k < |Mappings| ==> !Matches(Slashed(winPath), Mappings, k))
      ==> ConvertPath(winPath) == Slashed(winPath)
    ensures forall k :: (0 <= k < |Mappings| && Matches(Slashed(winPath), Mappings, k)
      && (forall j :: 0 <= j < k ==> !Matches(Slashed(winPath), Mappings, j))
      ==> ConvertPath(winPath) == Mappings[k].linux + Slashed(winPath)[|Mappings[k].windows|..])
  {
    MapFromFirst(Slashed(winPath), Mappings, 0);
  }

  /** A mount point never starts a slashed Windows prefix: the Linux
      prefixes start with `/m`, the Windows ones with `//` or `R:`. */
  lemma MountedUnmatched(path: string, k: nat, j: nat)
    requires k < |Mappings| && j < |Mappings|
    requires StartsWith(path, Mappings[k].linux)
    ensures !Matches(path, Mappings, j)
  {
    assert path[0] == '/' && path[1] == 'm';
    if j < 2 {
      assert Mappings[j].windows[1] == '\\';
      assert Slashed(Mappings[j].windows)[1] == '/';
    } else {
      assert Slashed(Mappings[j].windows)[0] == 'R';
    }
  }

  /** The converted path holds no backslash. */
  lemma ConvertPathNoBackslash(winPath: string)
    ensures NoBackslash(ConvertPath(winPath))
  {
    assert forall m :: 0 <= m < |Mappings| ==> NoBackslash(Mappings[m].linux);
    MapFromNoBackslash(Slashed(winPath), Mappings, 0);
  }

  lemma {:induction false} MapFromNoBackslash(path: string, ms: seq<Mapping>, k: nat)
    requires Usable(ms) && k <= |ms|
    requires NoBackslash(path) && forall m :: 0 <= m < |ms| ==> NoBackslash(ms[m].linux)
    ensures NoBackslash(MapFrom(path, ms, k))
    decreases |ms| - k
  {
    if k < |ms| {
      if Matches(path, ms, k) {
        ReplaceAtStart(path, Slashed(ms[k].windows), ms[k].linux);
      } else {
        MapFromNoBackslash(path, ms, k + 1);
      }
    }
  }

  /** Converting a converted path changes nothing. */
  lemma ConvertPathIdempotent(winPath: string)
    ensures ConvertPath(ConvertPath(winPath)) == ConvertPath(winPath)
  {
    var p := Slashed(winPath);
    var r := ConvertPath(winPath);
    ConvertPathFirstMatch(winPath);
    ConvertPathNoBackslash(winPath);
    assert Slashed(r) == r;
    ConvertPathFirstMatch(r);
    if exists k :: 0 <= k < |Mappings| && Matches(p, Mappings, k) {
      var k :| 0 <= k < |Mappings| && Matches(p, Mappings, k)
        && forall j :: 0 <= j < k ==> !Matches(p, Mappings, j);
      assert StartsWith(r, Mappings[k].linux);
      forall j | 0 <= j < |Mappings|
        ensures !Matches(r, Mappings, j)
      {
        MountedUnmatched(r, k, j);
      }
    }
  }

  // ---------------------------------------------------------------------
  // The file extension and the sector list of a document row
  // ---------------------------------------------------------------------

  /** `os.path.splitext(p)[1]` with `/` as the separator: from the last dot
      on, when that dot comes after the last `/` and something other than
      dots precedes it in the file name; otherwise empty. */
  function SplitExt(p: string): (ext: string)
    ensures ext == [] || (|ext| <= |p| && ext == p[|p| - |ext|..] && ext[0] == '.')
  {
    var sep := RFindChar(p, '/', 0, |p|);
    var dot := RFindChar(p, '.', 0, |p|);
    if dot > sep && exists k :: sep + 1 <= k < dot && p[k] != '.' then p[dot..] else []
  }

  /** `s.lstrip(c)` for one character. */
  function LStripChar(s: string, c: char): (r: string)
    ensures |r| <= |s| && r == s[|s| - |r|..]
    ensures r != [] ==> r[0] != c
    ensures forall i :: 0 <= i < |s| - |r| ==> s[i] == c
  {
    if s != [] && s[0] == c then LStripChar(s[1..], c) else s
  }

  /** `os.path.splitext(path)[1].lstrip(".").lower()`. */
  function FileExtension(path: string): string {
    Lower(LStripChar(SplitExt(path), '.'))
  }

  /** The extension is the text after the last dot of the path, lowered;
      it holds neither a dot nor a slash, and a path without a dot has
      none. */
  lemma FileExtensionShape(path: string)
    ensures FileExtension(path) != [] ==>
      |FileExtension(path)| < |path| && path[|path| - |FileExtension(path)| - 1] == '.'
      && FileExtension(path) == Lower(path[|path| - |FileExtension(path)|..])
    ensures forall i :: |path| - |FileExtension(path)| <= i < |path| ==> path[i] != '.' && path[i] != '/'
    ensures (forall i :: 0 <= i < |path| ==> path[i] != '.') ==> FileExtension(path) == []
  {
    var sep := RFindChar(path, '/', 0, |path|);
    var dot := RFindChar(path, '.', 0, |path|);
    var ext := SplitExt(path);
    if ext != [] {
      assert ext == path[dot..];
      assert LStripChar(ext, '.') == ext[1..];
      assert path[|path| - |ext[1..]|..] == ext[1..];
    }
  }

  /** `[x.strip() for x in cd_setores_liberados.split(",")]`. */
  function Setores(s: string): (r: seq<string>)
    ensures |r| == |Split(s, ",")|
  {
    seq(|Split(s, ",")|, i requires 0 <= i < |Split(s, ",")| => Strip(Split(s, ",")[i]))
  }

  /** A stripped piece without a comma holds no comma. */
  lemma StrippedNoComma(piece: string)
    requires !Contains(piece, ",")
    ensures forall j :: 0 <= j < |Strip(piece)| ==> Strip(piece)[j] != ','
  {
    StripSlice(piece);
    forall j | 0 <= j < |Strip(piece)|
      ensures Strip(piece)[j] != ','
    {
      var at := StripStart(piece) + j;
      assert piece[at] == Strip(piece)[j];
      if piece[at] == ',' {
        assert piece[at..at + 1] == ",";
        assert OccursAt(piece, ",", at);
      }
    }
  }

  /** There is at least one sector, and none holds a comma or starts or
      ends with whitespace; a list without commas is one sector, the
      stripped text. */
  lemma SetoresShape(s: string)
    ensures |Setores(s)| >= 1
    ensures forall i, j :: 0 <= i < |Setores(s)| && 0 <= j < |Setores(s)[i]| ==> Setores(s)[i][j] != ','
    ensures forall i :: 0 <= i < |Setores(s)| && Setores(s)[i] != [] ==>
      !IsSpace(Setores(s)[i][0]) && !IsSpace(Setores(s)[i][|Setores(s)[i]| - 1])
    ensures (forall j :: 0 <= j < |s| ==> s[j] != ',') ==> Setores(s) == [Strip(s)]
  {
    var pieces := Split(s, ",");
    SplitPiecesFree(s, ",");
    FindOccurs(s, ",", 0);
    if Find(s, ",", 0) >= 0 {
      assert s[Find(s, ",", 0)] == s[Find(s, ",", 0)..Find(s, ",", 0) + 1][0];
    }
    forall i | 0 <= i < |Setores(s)|
      ensures forall j :: 0 <= j < |Setores(s)[i]| ==> Setores(s)[i][j] != ','
      ensures Setores(s)[i] != [] ==> !IsSpace(Setores(s)[i][0]) && !IsSpace(Setores(s)[i][|Setores(s)[i]| - 1])
    {
      StrippedNoComma(pieces[i]);
      StripSlice(pieces[i]);
    }
  }

  // ---------------------------------------------------------------------
  // The list of active documents
  // ---------------------------------------------------------------------

  /** One row of the active-document query: the document's code and name,
      its type and its responsible sector (the last two may be NULL). */
  datatype ListRow = ListRow(name: string, kind: Option<string>, sector: Option<string>)

  /** The entry built from a row, with `row[k] or 'N/A'` for the two
      optional columns. */
  datatype ListEntry = ListEntry(name: string, kind: string, sector: string)

  function OrNA(v: Option<string>): (r: string)
    ensures v.Some? && v.value != [] ==> r == v.value
    ensures v.None? || v.value == [] ==> r == "N/A"
  {
    if v.Some? && v.value != [] then v.value else "N/A"
  }

  function Entry(row: ListRow): ListEntry {
    ListEntry(row.name, OrNA(row.kind), OrNA(row.sector))
  }

  /** The markdown title line. */
  const ListTitle := "# Lista de Documentos Ativos\n"

  /** The separator written after each entry. */
  const ListRule := "\n---\n"

  /** The four lines written for one entry. */
  function EntryLines(e: ListEntry): seq<string> {
    ["## Documento: " + e.name,
     "- **Tipo do Documento:** " + e.kind,
     "- **Setor Respons\U{E1}vel:** " + e.sector,
     ListRule]
  }

  /** The lines of the markdown list: the title, then each entry's four
      lines in order. */
  function ListLines(entries: seq<ListEntry>): seq<string> {
    if entries == [] then [ListTitle]
    else ListLines(entries[..|entries| - 1]) + EntryLines(entries[|entries| - 1])
  }

  /** The list has the title and then four lines per entry, entry `k`'s at
      positions `1 + 4k` to `4 + 4k`. */
  lemma {:induction false} ListLinesShape(entries: seq<ListEntry>)
    ensures |ListLines(entries)| == 1 + 4 * |entries|
    ensures ListLines(entries)[0] == ListTitle
    ensures forall k :: 0 <= k < |entries| ==>
      ListLines(entries)[1 + 4 * k..5 + 4 * k] == EntryLines(entries[k])
  {
    if entries != [] {
      var init := entries[..|entries| - 1];
      ListLinesShape(init);
      var lines := ListLines(entries);
      assert lines == ListLines(init) + EntryLines(entries[|entries| - 1]);
      forall k | 0 <= k < |entries|
        ensures lines[1 + 4 * k..5 + 4 * k] == EntryLines(entries[k])
      {
        if k < |init| {
          assert init[k] == entries[k];
          assert lines[1 + 4 * k..5 + 4 * k] == ListLines(init)[1 + 4 * k..5 + 4 * k];
        } else {
          assert lines[1 + 4 * k..5 + 4 * k] == EntryLines(entries[|entries| - 1]);
        }
      }
    }
  }

  /** The loop of `_generate_document_list` that builds the lines. */
  method DocumentListLines(rows: seq<ListRow>) returns (lines: seq<string>)
    ensures lines == ListLines(seq(|rows|, i requires 0 <= i < |rows| => Entry(rows[i])))
  {
    ghost var entries := seq(|rows|, i requires 0 <= i < |rows| => Entry(rows[i]));
    lines := [ListTitle];
    for i := 0 to |rows|
      invariant lines == ListLines(entries[..i])
    {
      var doc := Entry(rows[i]);
      lines := lines + ["## Documento: " + doc.name];
      lines := lines + ["- **Tipo do Documento:** " + doc.kind];
      lines := lines + ["- **Setor Respons\U{E1}vel:** " + doc.sector];
      lines := lines + [ListRule];
      assert entries[..i + 1][..i] == entries[..i];
    }
    assert entries[..|rows|] == entries;
  }

  // ---------------------------------------------------------------------
  // Status texts of the tracking table
  // ---------------------------------------------------------------------

  /** What comes before the file name in the "no text" status. */
  const NoTextPrefix := "Sem texto extra\U{ED}do de: "

  /** The "no text" status as the source writes it: the string lacks the
      `f` prefix, so the placeholder stays as literal text and the status is
      the same for every file. */
  function NoTextErrorAsWritten(path: string): (r: string)
    ensures |r| >= |NoTextPrefix| && r[..|NoTextPrefix|] == NoTextPrefix
  {
    NoTextPrefix + "{file_path}"
  }

  /** Two different files get the same status, and it names neither. */
  lemma NoTextErrorAsWrittenLosesPath()
    ensures NoTextErrorAsWritten("/mnt/APPS/a.pdf") == NoTextErrorAsWritten("/mnt/APPS/b.pdf")
    ensures !EndsWith(NoTextErrorAsWritten("/mnt/APPS/a.pdf"), "/mnt/APPS/a.pdf")
  {
    var r := NoTextErrorAsWritten("/mnt/APPS/a.pdf");
    assert r[|r| - 1] == '}';
  }

  /** The "no text" status as the log line next to it reads: the prefix
      followed by the file's path. */
  function NoTextError(path: string): (r: string)
    ensures |r| >= |NoTextPrefix| && r[..|NoTextPrefix|] == NoTextPrefix && r[|NoTextPrefix|..] == path
  {
    NoTextPrefix + path
  }

  /** The corrected status names the file: different files, different
      statuses. */
  lemma NoTextErrorNamesFile(p: string, q: string)
    requires p != q
    ensures NoTextError(p) != NoTextError(q)
  {
    assert NoTextError(p)[|NoTextPrefix|..] == p;
  }
}
