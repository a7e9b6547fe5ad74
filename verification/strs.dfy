/** The Python `str` built-ins the indexer relies on, each stated with the
    contract Python documents for it: `isspace`, `strip`, `find`, `rfind`,
    `split(sep)`, `split()`, `splitlines`, `join`, `replace`, `startswith`,
    `lower`, `islower`, `zfill` and `str(int)`. */
module Strs {

  // ---------------------------------------------------------------------
  // Character classes
  // ---------------------------------------------------------------------

  /** Python's `str.isspace` for one character (the set `Py_UNICODE_ISSPACE`
      accepts); `strip()`, `split()` and the regular-expression class `\s`
      all use this set. */
  predicate IsSpace(c: char) {
    ('\t' <= c <= '\r') || ('\U{1C}' <= c <= ' ') || c == '\U{85}' || c == '\U{A0}'
    || c == '\U{1680}' || ('\U{2000}' <= c <= '\U{200A}') || c == '\U{2028}'
    || c == '\U{2029}' || c == '\U{202F}' || c == '\U{205F}' || c == '\U{3000}'
  }

  /** The characters at which Python's `str.splitlines` breaks a line. */
  predicate IsLineBreak(c: char) {
    c == '\n' || c == '\r' || c == '\U{0B}' || c == '\U{0C}' || ('\U{1C}' <= c <= '\U{1E}')
    || c == '\U{85}' || c == '\U{2028}' || c == '\U{2029}'
  }

  /** Python's `str.islower` on a single character, for ASCII and Latin-1. */
  predicate IsLower(c: char) {
    ('a' <= c <= 'z') || c == '\U{AA}' || c == '\U{B5}' || c == '\U{BA}'
    || ('\U{DF}' <= c <= '\U{F6}') || ('\U{F8}' <= c <= '\U{FF}')
  }

  /** Python's `str.lower` on a single character, for ASCII and Latin-1. */
  function LowerChar(c: char): (r: char)
    ensures ('A' <= c <= 'Z') ==> 'a' <= r <= 'z'
    ensures !('A' <= c <= 'Z') && !('\U{C0}' <= c <= '\U{DE}' && c != '\U{D7}') ==> r == c
  {
    if 'A' <= c <= 'Z' || ('\U{C0}' <= c <= '\U{DE}' && c != '\U{D7}') then
      (c as int + 32) as char
    else
      c
  }

  function Lower(s: string): (r: string)
    ensures |r| == |s| && forall i :: 0 <= i < |s| ==> r[i] == LowerChar(s[i])
  {
    seq(|s|, i requires 0 <= i < |s| => LowerChar(s[i]))
  }

  predicate IsDigit(c: char) {
    '0' <= c <= '9'
  }

  predicate NoSpace(s: string) {
    forall i :: 0 <= i < |s| ==> !IsSpace(s[i])
  }

  predicate AllSpace(s: string) {
    forall i :: 0 <= i < |s| ==> IsSpace(s[i])
  }

  // ---------------------------------------------------------------------
  // strip
  // ---------------------------------------------------------------------

  /** The first index at or after `i` that holds a non-whitespace
      character, or `|s|`. */
  function FirstNonSpace(s: string, i: nat): (k: nat)
    requires i <= |s|
    ensures i <= k <= |s|
    ensures forall j :: i <= j < k ==> IsSpace(s[j])
    ensures k < |s| ==> !IsSpace(s[k])
    decreases |s| - i
  {
    if i < |s| && IsSpace(s[i]) then FirstNonSpace(s, i + 1) else i
  }

  /** The end of `s[lo..j]` once its trailing whitespace is dropped. */
  function EndNonSpace(s: string, lo: nat, j: nat): (k: nat)
    requires lo <= j <= |s|
    ensures lo <= k <= j
    ensures forall m :: k <= m < j ==> IsSpace(s[m])
    ensures k > lo ==> !IsSpace(s[k - 1])
    decreases j
  {
    if j > lo && IsSpace(s[j - 1]) then EndNonSpace(s, lo, j - 1) else j
  }

  /** Where `s.strip()` starts and ends inside `s`. */
  function StripStart(s: string): nat {
    FirstNonSpace(s, 0)
  }

  function StripEnd(s: string): (e: nat)
    ensures StripStart(s) <= e <= |s|
  {
    EndNonSpace(s, StripStart(s), |s|)
  }

  /** Python's `str.lstrip()`: drops the leading whitespace. */
  function LStrip(s: string): (r: string)
    ensures |r| <= |s| && r == s[|s| - |r|..]
    ensures r != [] ==> !IsSpace(r[0])
  {
    s[FirstNonSpace(s, 0)..]
  }

  /** Python's `str.strip()`: the text between the first and the last
      non-whitespace character. */
  function Strip(s: string): string {
    s[StripStart(s)..StripEnd(s)]
  }

  /** `strip()` returns a slice of its input that neither starts nor ends
      with whitespace. */
  lemma StripSlice(s: string)
    ensures StripStart(s) + |Strip(s)| <= |s|
    ensures Strip(s) == s[StripStart(s)..StripStart(s) + |Strip(s)|]
    ensures Strip(s) != [] ==> !IsSpace(Strip(s)[0]) && !IsSpace(Strip(s)[|Strip(s)| - 1])
  {
  }

  /** What `strip()` drops is whitespace, and the result is empty exactly
      when the whole text is whitespace. */
  lemma StripDropsSpace(s: string)
    ensures forall i :: 0 <= i < StripStart(s) ==> IsSpace(s[i])
    ensures forall i :: StripEnd(s) <= i < |s| ==> IsSpace(s[i])
    ensures Strip(s) == [] <==> AllSpace(s)
  {
  }

  /** Stripping twice is stripping once. */
  lemma StripIdempotent(s: string)
    ensures Strip(Strip(s)) == Strip(s)
  {
    var r := Strip(s);
    if r != [] {
      assert FirstNonSpace(r, 0) == 0;
      assert EndNonSpace(r, 0, |r|) == |r|;
    }
  }

  // ---------------------------------------------------------------------
  // find, rfind, startswith
  // ---------------------------------------------------------------------

  predicate OccursAt(s: string, sub: string, i: int) {
    0 <= i && i + |sub| <= |s| && s[i..i + |sub|] == sub
  }

  ghost predicate Contains(s: string, sub: string) {
    exists i :: OccursAt(s, sub, i)
  }

  /** An occurrence of `sub` at `i` puts each of its characters in place. */
  lemma OccursAtChars(s: string, sub: string, i: int)
    ensures OccursAt(s, sub, i) ==> forall k :: 0 <= k < |sub| ==> s[i + k] == sub[k]
  {
    if OccursAt(s, sub, i) {
      forall k | 0 <= k < |sub|
        ensures s[i + k] == sub[k]
      {
        assert s[i..i + |sub|][k] == sub[k];
      }
    }
  }

  /** Python's `s.find(sub, start)` for a non-negative `start`: the first
      occurrence at or after `start`, or -1. */
  function Find(s: string, sub: string, start: nat): (r: int)
    ensures r == -1 || (start <= r && r + |sub| <= |s|)
    decreases |s| - start
  {
    if start + |sub| > |s| then -1
    else if s[start..start + |sub|] == sub then start
    else Find(s, sub, start + 1)
  }

  /** What `find` returns, when it is not -1, is an occurrence. */
  lemma {:induction false} FindOccurs(s: string, sub: string, start: nat)
    ensures Find(s, sub, start) >= 0 ==> OccursAt(s, sub, Find(s, sub, start))
    decreases |s| - start
  {
    if start + |sub| <= |s| && s[start..start + |sub|] != sub {
      FindOccurs(s, sub, start + 1);
    }
  }

  /** `find` returns the FIRST occurrence at or after `start`, and -1 only
      when there is none. */
  lemma {:induction false} FindIsFirst(s: string, sub: string, start: nat)
    ensures Find(s, sub, start) == -1 ==> forall i :: start <= i ==> !OccursAt(s, sub, i)
    ensures Find(s, sub, start) != -1 ==>
      forall i :: start <= i < Find(s, sub, start) ==> !OccursAt(s, sub, i)
    decreases |s| - start
  {
    if start + |sub| <= |s| && s[start..start + |sub|] != sub {
      FindIsFirst(s, sub, start + 1);
    }
  }

  /** Python's `s.rfind(c, lo, hi)` for one character: the last index in
      `[lo, hi)` holding `c`, or -1. */
  function RFindChar(s: string, c: char, lo: nat, hi: nat): (r: int)
    requires hi <= |s|
    ensures r == -1 || (lo <= r < hi && s[r] == c)
    ensures r == -1 ==> forall i :: lo <= i < hi ==> s[i] != c
    ensures r != -1 ==> forall i :: r < i < hi ==> s[i] != c
    decreases hi
  {
    if hi <= lo then -1
    else if s[hi - 1] == c then hi - 1
    else RFindChar(s, c, lo, hi - 1)
  }

  predicate StartsWith(s: string, prefix: string) {
    |prefix| <= |s| && s[..|prefix|] == prefix
  }

  predicate EndsWith(s: string, suffix: string) {
    |suffix| <= |s| && s[|s| - |suffix|..] == suffix
  }

  // ---------------------------------------------------------------------
  // split(sep) and join
  // ---------------------------------------------------------------------

  /** Python's `sep.join(parts)`. */
  function Join(sep: string, parts: seq<string>): string {
    if parts == [] then ""
    else if |parts| == 1 then parts[0]
    else parts[0] + sep + Join(sep, parts[1..])
  }

  /** Joining a first part to a non-empty run puts one separator after it. */
  lemma JoinCons(sep: string, head: string, tail: seq<string>)
    requires tail != []
    ensures Join(sep, [head] + tail) == head + sep + Join(sep, tail)
  {
    assert ([head] + tail)[1..] == tail;
  }

  /** Joining two non-empty runs of parts: the separator appears once
      more, between them. */
  lemma {:induction false} JoinAppend(sep: string, a: seq<string>, b: seq<string>)
    requires a != [] && b != []
    ensures Join(sep, a + b) == Join(sep, a) + sep + Join(sep, b)
    decreases |a|
  {
    if |a| == 1 {
      assert a + b == [a[0]] + b;
      JoinCons(sep, a[0], b);
    } else {
      JoinAppend(sep, a[1..], b);
      assert a + b == [a[0]] + (a[1..] + b);
      JoinCons(sep, a[0], a[1..] + b);
      JoinCons(sep, a[0], a[1..]);
      assert a == [a[0]] + a[1..];
    }
  }

  /** Python's `s.split(sep)` for a non-empty separator: the text between
      successive non-overlapping occurrences of `sep`, left to right. */
  function Split(s: string, sep: string): (r: seq<string>)
    requires sep != []
    ensures |r| >= 1
    decreases |s|
  {
    var i := Find(s, sep, 0);
    if i < 0 then [s] else [s[..i]] + Split(s[i + |sep|..], sep)
  }

  /** Joining the pieces of a split with the same separator gives the text
      back: `sep.join(s.split(sep)) == s`. */
  lemma {:induction false} JoinSplit(s: string, sep: string)
    requires sep != []
    ensures Join(sep, Split(s, sep)) == s
    decreases |s|
  {
    var i := Find(s, sep, 0);
    if i >= 0 {
      FindOccurs(s, sep, 0);
      var rest := s[i + |sep|..];
      JoinSplit(rest, sep);
      JoinCons(sep, s[..i], Split(rest, sep));
      Reassemble(s, i, i + |sep|);
    }
  }

  /** Cutting a text at two positions and gluing the parts gives it back. */
  lemma Reassemble(s: string, i: nat, j: nat)
    requires i <= j <= |s|
    ensures s[..i] + s[i..j] + s[j..] == s
  {
  }

  /** A concatenation starts with its first part and ends with its last. */
  lemma ConcatEnds(a: string, b: string)
    ensures StartsWith(a + b, a) && EndsWith(a + b, b)
  {
    assert (a + b)[..|a|] == a;
    assert (a + b)[|a|..] == b;
  }

  /** Appending keeps a prefix; prepending keeps a suffix. */
  lemma AffixesGrow(s: string, p: string, a: string, b: string)
    ensures StartsWith(s, p) ==> StartsWith(s + b, p)
    ensures EndsWith(s, p) ==> EndsWith(a + s, p)
  {
    if StartsWith(s, p) {
      assert (s + b)[..|p|] == s[..|p|];
    }
    if EndsWith(s, p) {
      assert (a + s)[|a + s| - |p|..] == s[|s| - |p|..];
    }
  }

  /** `x` occurs in `u + x + v` right after `u`. */
  lemma OccursInMiddle(u: string, x: string, v: string)
    ensures OccursAt(u + x + v, x, |u|)
  {
    assert (u + x + v)[|u|..|u| + |x|] == x;
  }

  /** An occurrence inside an occurrence is an occurrence. */
  lemma OccursWithin(s: string, u: string, a: nat, x: string, b: nat)
    requires OccursAt(s, u, a) && OccursAt(u, x, b)
    ensures OccursAt(s, x, a + b)
  {
    OccursInSlice(s, a, a + |u|, x, b);
  }

  /** Cutting the parts at `m` cuts their join at one separator. */
  lemma JoinSplitAt(sep: string, parts: seq<string>, m: nat)
    requires 0 < m < |parts|
    ensures Join(sep, parts) == Join(sep, parts[..m]) + sep + Join(sep, parts[m..])
  {
    assert parts == parts[..m] + parts[m..];
    JoinAppend(sep, parts[..m], parts[m..]);
  }

  /** The join of the first `m` parts starts the join of all of them. */
  lemma JoinPrefixOccurs(sep: string, parts: seq<string>, m: nat)
    requires 0 < m <= |parts|
    ensures OccursAt(Join(sep, parts), Join(sep, parts[..m]), 0)
  {
    var x := Join(sep, parts[..m]);
    if m < |parts| {
      JoinSplitAt(sep, parts, m);
      assert Join(sep, parts) == [] + x + (sep + Join(sep, parts[m..]));
      OccursInMiddle([], x, sep + Join(sep, parts[m..]));
    } else {
      assert parts[..m] == parts;
      assert x[0..|x|] == x;
    }
  }

  /** An occurrence inside the slice `s[lo..hi]` is an occurrence in `s`. */
  lemma OccursInSlice(s: string, lo: nat, hi: nat, sub: string, i: int)
    requires lo <= hi <= |s| && OccursAt(s[lo..hi], sub, i)
    ensures OccursAt(s, sub, lo + i)
  {
    var u := s[lo..hi];
    forall k | 0 <= k < |sub|
      ensures s[lo + i..lo + i + |sub|][k] == sub[k]
    {
      assert u[i..i + |sub|][k] == sub[k];
      assert u[i + k] == s[lo + i + k];
    }
  }

  lemma OccursInPrefix(s: string, sub: string, n: nat, j: int)
    requires n <= |s| && OccursAt(s[..n], sub, j)
    ensures OccursAt(s, sub, j)
  {
    assert s[..n][j..j + |sub|] == s[j..j + |sub|];
  }

  lemma OccursInSuffix(s: string, sub: string, n: nat, j: int)
    requires n <= |s| && OccursAt(s[n..], sub, j)
    ensures OccursAt(s, sub, n + j)
  {
    assert s[n..][j..j + |sub|] == s[n + j..n + j + |sub|];
  }

  /** No piece of `s.split(sep)` contains the separator. */
  lemma {:induction false} SplitPiecesFree(s: string, sep: string)
    requires sep != []
    ensures forall k :: 0 <= k < |Split(s, sep)| ==> !Contains(Split(s, sep)[k], sep)
    decreases |s|
  {
    FindIsFirst(s, sep, 0);
    var i := Find(s, sep, 0);
    if i < 0 {
      assert Split(s, sep) == [s];
    } else {
      var rest := s[i + |sep|..];
      SplitPiecesFree(rest, sep);
      assert Split(s, sep) == [s[..i]] + Split(rest, sep);
      if Contains(s[..i], sep) {
        var j :| OccursAt(s[..i], sep, j);
        OccursInPrefix(s, sep, i, j);
      }
    }
  }

  /** The first occurrence in `s` is still the first once text is appended. */
  lemma FindExtends(s: string, t: string, sub: string)
    requires Find(s, sub, 0) >= 0
    ensures Find(s + t, sub, 0) == Find(s, sub, 0)
  {
    var i := Find(s, sub, 0);
    FindOccurs(s, sub, 0);
    FindOccurs(s + t, sub, 0);
    FindIsFirst(s, sub, 0);
    FindIsFirst(s + t, sub, 0);
    assert (s + t)[i..i + |sub|] == s[i..i + |sub|];
    assert OccursAt(s + t, sub, i);
    forall k | 0 <= k < i
      ensures !OccursAt(s + t, sub, k)
    {
      assert !OccursAt(s, sub, k);
      assert (s + t)[k..k + |sub|] == s[k..k + |sub|];
    }
  }

  /** Parts that the separator cannot be found in (nor across the join
      after them) are read back by `split`: `split` undoes `join`. */
  lemma {:induction false} SplitJoin(sep: string, parts: seq<string>)
    requires sep != [] && parts != []
    requires forall i :: 0 <= i < |parts| - 1 ==> Find(parts[i] + sep, sep, 0) == |parts[i]|
    requires Find(parts[|parts| - 1], sep, 0) == -1
    ensures Split(Join(sep, parts), sep) == parts
    decreases |parts|
  {
    if |parts| > 1 {
      var p := parts[0];
      var rest := Join(sep, parts[1..]);
      SplitJoin(sep, parts[1..]);
      FindExtends(p + sep, rest, sep);
      assert p + sep + rest == Join(sep, parts);
      assert Join(sep, parts)[..|p|] == p;
      assert Join(sep, parts)[|p| + |sep|..] == rest;
    }
  }

  // ---------------------------------------------------------------------
  // split() on whitespace runs
  // ---------------------------------------------------------------------

  /** The first index at or after `i` that holds whitespace, or `|s|`. */
  function WordEnd(s: string, i: nat): (e: nat)
    requires i <= |s|
    ensures i <= e <= |s|
    ensures forall k :: i <= k < e ==> !IsSpace(s[k])
    ensures e < |s| ==> IsSpace(s[e])
    decreases |s| - i
  {
    if i == |s| || IsSpace(s[i]) then i else WordEnd(s, i + 1)
  }

  /** Python's `s.split()` with no argument: the maximal runs of
      non-whitespace characters, in order. */
  function SplitWhitespace(s: string): (r: seq<string>)
    ensures forall k :: 0 <= k < |r| ==> r[k] != [] && NoSpace(r[k])
  {
    WordsFrom(s, 0)
  }

  /** The words of `s[i..]`. */
  function WordsFrom(s: string, i: nat): (r: seq<string>)
    requires i <= |s|
    ensures forall k :: 0 <= k < |r| ==> r[k] != [] && NoSpace(r[k])
    decreases |s| - i
  {
    var a := FirstNonSpace(s, i);
    if a == |s| then []
    else
      var e := WordEnd(s, a);
      var w := s[a..e];
      assert NoSpace(w) by {
        forall j | 0 <= j < |w| ensures !IsSpace(w[j]) {
          assert w[j] == s[a + j];
        }
      }
      [w] + WordsFrom(s, e)
  }

  /** `s.split()` is empty exactly when `s` is all whitespace. */
  lemma SplitWhitespaceEmpty(s: string)
    ensures SplitWhitespace(s) == [] <==> AllSpace(s)
  {
  }

  // ---------------------------------------------------------------------
  // splitlines
  // ---------------------------------------------------------------------

  /** The first index at or after `i` that holds a line break, or `|s|`. */
  function LineEnd(s: string, i: nat): (e: nat)
    requires i <= |s|
    ensures i <= e <= |s|
    ensures forall k :: i <= k < e ==> !IsLineBreak(s[k])
    ensures e < |s| ==> IsLineBreak(s[e])
    decreases |s| - i
  {
    if i == |s| || IsLineBreak(s[i]) then i else LineEnd(s, i + 1)
  }

  /** Python's `s.splitlines()`: `"\r\n"` counts as one break and a final
      break does not open an empty last line. */
  function SplitLines(s: string): (r: seq<string>)
    ensures |r| <= |s|
    ensures r == [] <==> s == []
    decreases |s|
  {
    if s == [] then []
    else
      var e := LineEnd(s, 0);
      if e == |s| then [s]
      else
        var next := if s[e] == '\r' && e + 1 < |s| && s[e + 1] == '\n' then e + 2 else e + 1;
        [s[..e]] + SplitLines(s[next..])
  }

  predicate NoLineBreak(line: string) {
    forall j :: 0 <= j < |line| ==> !IsLineBreak(line[j])
  }

  /** No line of `s.splitlines()` holds a line break. */
  lemma {:induction false} SplitLinesNoBreak(s: string)
    ensures forall k :: 0 <= k < |SplitLines(s)| ==> NoLineBreak(SplitLines(s)[k])
    decreases |s|
  {
    if s != [] {
      var e := LineEnd(s, 0);
      assert NoLineBreak(s[..e]) by {
        forall j | 0 <= j < e
          ensures !IsLineBreak(s[..e][j])
        {
          assert s[..e][j] == s[j];
        }
      }
      if e < |s| {
        var next := if s[e] == '\r' && e + 1 < |s| && s[e + 1] == '\n' then e + 2 else e + 1;
        var rest := SplitLines(s[next..]);
        SplitLinesNoBreak(s[next..]);
        var r := SplitLines(s);
        assert r == [s[..e]] + rest;
        forall k | 0 <= k < |r|
          ensures NoLineBreak(r[k])
        {
          if k > 0 {
            assert r[k] == rest[k - 1];
          }
        }
      } else {
        assert s[..e] == s;
      }
    }
  }

  // ---------------------------------------------------------------------
  // replace
  // ---------------------------------------------------------------------

  /** Python's `s.replace(a, b)` for one-character `a` and `b`. */
  function ReplaceChar(s: string, a: char, b: char): (r: string)
    ensures |r| == |s|
    ensures forall i :: 0 <= i < |s| ==> r[i] == if s[i] == a then b else s[i]
  {
    seq(|s|, i requires 0 <= i < |s| => if s[i] == a then b else s[i])
  }

  /** Python's `s.replace(pat, repl, 1)` for a non-empty `pat`. */
  function ReplaceFirst(s: string, pat: string, repl: string): (r: string)
    requires pat != []
    ensures Find(s, pat, 0) == -1 ==> r == s
    ensures Find(s, pat, 0) >= 0 ==>
      r == s[..Find(s, pat, 0)] + repl + s[Find(s, pat, 0) + |pat|..]
  {
    var i := Find(s, pat, 0);
    if i < 0 then s else s[..i] + repl + s[i + |pat|..]
  }

  // ---------------------------------------------------------------------
  // str(int) and zfill
  // ---------------------------------------------------------------------

  function DigitChar(d: nat): (c: char)
    requires d < 10
    ensures IsDigit(c) && c as int - '0' as int == d
  {
    ('0' as int + d) as char
  }

  function DigitValue(c: char): nat
    requires IsDigit(c)
  {
    c as int - '0' as int
  }

  predicate AllDigits(s: string) {
    forall i :: 0 <= i < |s| ==> IsDigit(s[i])
  }

  /** The number a string of decimal digits denotes (leading zeros allowed). */
  function DigitsValue(s: string): nat
    requires AllDigits(s)
  {
    if s == [] then 0 else DigitsValue(s[..|s| - 1]) * 10 + DigitValue(s[|s| - 1])
  }

  /** Python's `str(n)` for a natural number. */
  function NatToString(n: nat): (r: string)
    ensures r != [] && AllDigits(r)
    ensures n < 10 <==> |r| == 1
  {
    if n < 10 then [DigitChar(n)] else NatToString(n / 10) + [DigitChar(n % 10)]
  }

  /** Python's `str(i)` for any integer. */
  function IntToString(i: int): (r: string)
    ensures r != []
  {
    if i < 0 then "-" + NatToString(-i) else NatToString(i)
  }

  /** `str(n)` can be read back: it denotes `n`. */
  lemma {:induction false} NatToStringValue(n: nat)
    ensures DigitsValue(NatToString(n)) == n
  {
    if n >= 10 {
      NatToStringValue(n / 10);
      var s := NatToString(n);
      assert s[..|s| - 1] == NatToString(n / 10);
    }
  }

  lemma NatToStringInjective(a: nat, b: nat)
    requires NatToString(a) == NatToString(b)
    ensures a == b
  {
    NatToStringValue(a);
    NatToStringValue(b);
  }

  /** Different integers print differently. */
  lemma IntToStringInjective(a: int, b: int)
    requires IntToString(a) == IntToString(b)
    ensures a == b
  {
    IntToStringSign(a);
    IntToStringSign(b);
    if a < 0 {
      assert NatToString(-a) == IntToString(a)[1..];
      NatToStringInjective(-a, -b);
    } else {
      NatToStringInjective(a, b);
    }
  }

  /** `str(i)` starts with a minus sign exactly when `i` is negative. */
  lemma IntToStringSign(i: int)
    ensures IntToString(i)[0] == '-' <==> i < 0
  {
    if i >= 0 {
      assert IsDigit(NatToString(i)[0]);
    }
  }

  function Zeros(n: nat): (r: string)
    ensures |r| == n && forall i :: 0 <= i < n ==> r[i] == '0'
  {
    seq(n, _ => '0')
  }

  /** Python's `s.zfill(width)`: zeros inserted after an optional sign until
      the text is `width` long. */
  function ZFill(s: string, width: nat): (r: string)
    ensures |r| == if |s| >= width then |s| else width
  {
    if |s| >= width then s
    else if s != [] && (s[0] == '+' || s[0] == '-') then [s[0]] + Zeros(width - |s|) + s[1..]
    else Zeros(width - |s|) + s
  }

  lemma {:induction false} LeadingZerosValue(n: nat, s: string)
    requires AllDigits(s)
    ensures AllDigits(Zeros(n) + s) && DigitsValue(Zeros(n) + s) == DigitsValue(s)
    decreases |s|
  {
    if s == [] {
      assert Zeros(n) + s == Zeros(n);
      ZerosValue(n);
    } else {
      var t := Zeros(n) + s;
      assert t[..|t| - 1] == Zeros(n) + s[..|s| - 1];
      LeadingZerosValue(n, s[..|s| - 1]);
    }
  }

  lemma {:induction false} ZerosValue(n: nat)
    ensures AllDigits(Zeros(n)) && DigitsValue(Zeros(n)) == 0
  {
    if n > 0 {
      assert Zeros(n)[..n - 1] == Zeros(n - 1);
      ZerosValue(n - 1);
    }
  }

  /** A zero-padded `str(n)` still denotes `n`. */
  lemma ZFillNatValue(n: nat, width: nat)
    ensures AllDigits(ZFill(NatToString(n), width))
    ensures DigitsValue(ZFill(NatToString(n), width)) == n
  {
    var s := NatToString(n);
    NatToStringValue(n);
    if |s| < width {
      assert s[0] != '+' && s[0] != '-' by { assert IsDigit(s[0]); }
      LeadingZerosValue(width - |s|, s);
    }
  }

  /** Python's `s[:n]`. */
  function Take(s: string, n: nat): (r: string)
    ensures |r| == if |s| <= n then |s| else n
    ensures r == s[..|r|]
  {
    if |s| <= n then s else s[..n]
  }
}
