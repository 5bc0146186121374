/**
 * The string operations the pipeline relies on, restricted to what the model needs:
 * ASCII lower-casing (`str.lower`), whitespace tokenising (`str.split()` with no
 * separator), substring search (`in` on strings), prefix slicing (`s[:n]`),
 * character replacement (`str.replace` of one character), `str.join` and the
 * decimal rendering of a natural number inside an f-string.
 */
module Text {

  /** The characters in the ASCII range that `str.split()` treats as whitespace. */
  predicate IsSpace(c: char) {
    c == ' ' || c == '\t' || c == '\n' || c == '\r' || c == '\U{0B}' || c == '\U{0C}'
    || ('\U{1C}' <= c <= '\U{1F}')
  }

  predicate IsUpper(c: char) {
    'A' <= c <= 'Z'
  }

  /** `str.lower` on one character (ASCII letters only). */
  function LowerChar(c: char): (d: char)
    ensures IsUpper(c) ==> d as int == c as int + 32
    ensures !IsUpper(c) ==> d == c
    ensures !IsUpper(d)
    ensures IsSpace(d) <==> IsSpace(c)
  {
    if IsUpper(c) then (c as int + 32) as char else c
  }

  function Lower(s: string): (r: string)
    ensures |r| == |s|
    ensures forall i :: 0 <= i < |s| ==> r[i] == LowerChar(s[i])
  {
    seq(|s|, i requires 0 <= i < |s| => LowerChar(s[i]))
  }

  /** Python's `s[:n]` for a non-negative `n`. */
  function Take(s: string, n: nat): (r: string)
    ensures |r| == if n <= |s| then n else |s|
    ensures r == s[..|r|]
  {
    if n <= |s| then s[..n] else s
  }

  /** `s.replace(from, to)` where both arguments are single characters. */
  function ReplaceChar(s: string, from: char, to: char): (r: string)
    ensures |r| == |s|
    ensures forall i :: 0 <= i < |s| ==> r[i] == if s[i] == from then to else s[i]
  {
    seq(|s|, i requires 0 <= i < |s| => if s[i] == from then to else s[i])
  }

  /** `sep.join(parts)`. */
  function Join(sep: string, parts: seq<string>): string
  {
    if |parts| == 0 then ""
    else if |parts| == 1 then parts[0]
    else parts[0] + sep + Join(sep, parts[1..])
  }

  // ---------------------------------------------------------------------------
  // Whitespace tokenising

  /** Length of the longest prefix of `s` that holds no whitespace. */
  function TokenLen(s: string): (n: nat)
    ensures n <= |s|
    ensures forall i :: 0 <= i < n ==> !IsSpace(s[i])
    ensures n < |s| ==> IsSpace(s[n])
  {
    if s == [] || IsSpace(s[0]) then 0 else 1 + TokenLen(s[1..])
  }

  /** `s.split()`: the maximal runs of non-whitespace characters, in order. */
  function Words(s: string): (ws: seq<string>)
    ensures forall k :: 0 <= k < |ws| ==> ws[k] != []
    ensures forall k, i :: 0 <= k < |ws| && 0 <= i < |ws[k]| ==> !IsSpace(ws[k][i])
    decreases |s|
  {
    if s == [] then []
    else if IsSpace(s[0]) then Words(s[1..])
    else
      var n := TokenLen(s);
      [s[..n]] + Words(s[n..])
  }

  /** `len(s.split()) if s else 0`, as the source counts words. */
  function WordCount(s: string): (n: nat)
    ensures n == |Words(s)|
  {
    if s == "" then 0 else |Words(s)|
  }

  /** Concatenation of a sequence of strings. */
  function Concat(ws: seq<string>): string
  {
    if ws == [] then "" else ws[0] + Concat(ws[1..])
  }

  /** The characters of `s` that are not whitespace, in order. */
  function NonSpace(s: string): string
  {
    if s == [] then ""
    else (if IsSpace(s[0]) then "" else [s[0]]) + NonSpace(s[1..])
  }

  /**
   * Number of positions where a word starts: a non-whitespace character at the
   * front of `s` (when `afterSpace` holds) or right after a whitespace character.
   */
  function WordStarts(s: string, afterSpace: bool): nat
  {
    if s == [] then 0
    else (if afterSpace && !IsSpace(s[0]) then 1 else 0) + WordStarts(s[1..], IsSpace(s[0]))
  }

  lemma {:induction false} NonSpaceOfToken(s: string, n: nat)
    requires n <= |s|
    requires forall i :: 0 <= i < n ==> !IsSpace(s[i])
    ensures NonSpace(s) == s[..n] + NonSpace(s[n..])
    decreases n
  {
    if n > 0 {
      NonSpaceOfToken(s[1..], n - 1);
      assert s[1..][..n - 1] == s[1..n];
      assert s[1..][n - 1..] == s[n..];
      assert s[..n] == [s[0]] + s[1..n];
    }
  }

  /** Splitting loses exactly the whitespace: the words, glued together, are the non-whitespace text. */
  lemma {:induction false} WordsKeepText(s: string)
    ensures Concat(Words(s)) == NonSpace(s)
    decreases |s|
  {
    if s == [] {
    } else if IsSpace(s[0]) {
      WordsKeepText(s[1..]);
    } else {
      var n := TokenLen(s);
      WordsKeepText(s[n..]);
      NonSpaceOfToken(s, n);
      assert Words(s) == [s[..n]] + Words(s[n..]);
      assert ([s[..n]] + Words(s[n..]))[1..] == Words(s[n..]);
    }
  }

  lemma {:induction false} WordStartsInToken(s: string, n: nat)
    requires 0 < n <= |s|
    requires forall i :: 0 <= i < n ==> !IsSpace(s[i])
    ensures WordStarts(s[1..], false) == WordStarts(s[n..], false)
    decreases n
  {
    if n > 1 {
      WordStartsInToken(s[1..], n - 1);
      assert s[1..][1..] == s[2..];
      assert s[1..][n - 1..] == s[n..];
    }
  }

  lemma WordStartsAtBoundary(s: string)
    requires s == [] || IsSpace(s[0])
    ensures WordStarts(s, false) == WordStarts(s, true)
  {
  }

  /** The word count equals the number of places where a word begins. */
  lemma {:induction false} WordsCountStarts(s: string)
    ensures |Words(s)| == WordStarts(s, true)
    decreases |s|
  {
    if s == [] {
    } else if IsSpace(s[0]) {
      WordsCountStarts(s[1..]);
    } else {
      var n := TokenLen(s);
      WordsCountStarts(s[n..]);
      WordStartsInToken(s, n);
      WordStartsAtBoundary(s[n..]);
    }
  }

  lemma {:induction false} TokenLenLower(s: string)
    ensures TokenLen(Lower(s)) == TokenLen(s)
    decreases |s|
  {
    if s != [] && !IsSpace(s[0]) {
      TokenLenLower(s[1..]);
      assert Lower(s)[1..] == Lower(s[1..]);
    }
  }

  /** Lower-casing commutes with splitting: it neither creates nor removes a word boundary. */
  lemma {:induction false} WordsLower(s: string)
    ensures |Words(Lower(s))| == |Words(s)|
    ensures forall k :: 0 <= k < |Words(s)| ==> Words(Lower(s))[k] == Lower(Words(s)[k])
    decreases |s|
  {
    var ls := Lower(s);
    if s == [] {
    } else if IsSpace(s[0]) {
      WordsLower(s[1..]);
      assert ls[1..] == Lower(s[1..]);
    } else {
      var n := TokenLen(s);
      TokenLenLower(s);
      WordsLower(s[n..]);
      assert ls[..n] == Lower(s[..n]);
      assert ls[n..] == Lower(s[n..]);
      assert Words(ls) == [ls[..n]] + Words(ls[n..]);
      assert Words(s) == [s[..n]] + Words(s[n..]);
    }
  }

  /** `s[i]` opens a run of non-whitespace: it is not whitespace and it starts the text or follows whitespace. */
  predicate RunStartAt(s: string, i: nat) {
    i < |s| && !IsSpace(s[i]) && (i == 0 || IsSpace(s[i - 1]))
  }

  function Shift(xs: seq<nat>, d: nat): (ys: seq<nat>)
    ensures |ys| == |xs|
    ensures forall k :: 0 <= k < |xs| ==> ys[k] == xs[k] + d
  {
    seq(|xs|, k requires 0 <= k < |xs| => xs[k] + d)
  }

  /** The position in `s` where each word of `Words(s)` begins. */
  function WordOffsets(s: string): seq<nat>
    decreases |s|
  {
    if s == [] then []
    else if IsSpace(s[0]) then Shift(WordOffsets(s[1..]), 1)
    else
      var n := TokenLen(s);
      [0] + Shift(WordOffsets(s[n..]), n)
  }

  /** Run starts of a suffix are run starts of the whole text, moved by the cut. */
  lemma RunStartInSuffix(s: string, d: nat, i: nat)
    requires d <= |s|
    requires i > 0 || d == 0 || IsSpace(s[d - 1])
    ensures RunStartAt(s[d..], i) <==> RunStartAt(s, i + d)
  {
    if i + d < |s| {
      assert s[d..][i] == s[i + d];
      if i > 0 {
        assert s[d..][i - 1] == s[i + d - 1];
      }
    }
  }

  /** `w` stands in `s` at `i` as a whole run: it opens a run and ends where the run ends. */
  predicate RunAt(s: string, w: string, i: nat) {
    && RunStartAt(s, i)
    && i + |w| <= |s|
    && s[i..i + |w|] == w
    && (i + |w| == |s| || IsSpace(s[i + |w|]))
  }

  predicate Increasing(xs: seq<nat>) {
    forall k, l :: 0 <= k < l < |xs| ==> xs[k] < xs[l]
  }

  /** Every word stands at its offset as a whole run of `s`. */
  predicate WordsAt(s: string, ws: seq<string>, os: seq<nat>) {
    |os| == |ws| && forall k :: 0 <= k < |ws| ==> RunAt(s, ws[k], os[k])
  }

  /** Every run of `s` starts at one of the offsets. */
  predicate CoversRuns(s: string, os: seq<nat>) {
    forall i :: 0 <= i < |s| && RunStartAt(s, i) ==> i in os
  }

  /**
   * `str.split()` cuts only at whitespace: the words are the maximal runs of
   * non-whitespace of `s`, at increasing positions, and every run is a word.
   */
  lemma {:induction false} WordsAreRuns(s: string)
    ensures WordsAt(s, Words(s), WordOffsets(s))
    ensures Increasing(WordOffsets(s))
    ensures CoversRuns(s, WordOffsets(s))
    decreases |s|
  {
    if s == [] {
    } else if IsSpace(s[0]) {
      var t := s[1..];
      WordsAreRuns(t);
      WordsAreRunsAfterSpace(s, Words(t), WordOffsets(t));
    } else {
      var n := TokenLen(s);
      var t := s[n..];
      WordsAreRuns(t);
      WordsAreRunsAtToken(s, n, Words(t), WordOffsets(t));
    }
  }

  lemma WordsAreRunsAfterSpace(s: string, ws: seq<string>, ot: seq<nat>)
    requires s != [] && IsSpace(s[0])
    requires WordsAt(s[1..], ws, ot) && Increasing(ot) && CoversRuns(s[1..], ot)
    ensures WordsAt(s, ws, Shift(ot, 1))
    ensures Increasing(Shift(ot, 1))
    ensures CoversRuns(s, Shift(ot, 1))
  {
    var t := s[1..];
    var os := Shift(ot, 1);
    forall k | 0 <= k < |ws|
      ensures RunAt(s, ws[k], os[k])
    {
      RunAfterCut(s, 1, ws[k], ot[k]);
    }
    forall i | 0 <= i < |s| && RunStartAt(s, i)
      ensures i in os
    {
      RunStartInSuffix(s, 1, i - 1);
      var k :| 0 <= k < |ot| && ot[k] == i - 1;
      assert os[k] == i;
    }
  }

  lemma WordsAreRunsAtToken(s: string, n: nat, ws: seq<string>, ot: seq<nat>)
    requires s != [] && !IsSpace(s[0]) && n == TokenLen(s)
    requires WordsAt(s[n..], ws, ot) && Increasing(ot) && CoversRuns(s[n..], ot)
    ensures WordsAt(s, [s[..n]] + ws, [0] + Shift(ot, n))
    ensures Increasing([0] + Shift(ot, n))
    ensures CoversRuns(s, [0] + Shift(ot, n))
  {
    TokenOffsetsPositive(s, n, ws, ot);
    TokenWordsAt(s, n, ws, ot);
    TokenCoversRuns(s, n, ot);
  }

  /** After the first word, the next run cannot start right at the cut, which is whitespace. */
  lemma TokenOffsetsPositive(s: string, n: nat, ws: seq<string>, ot: seq<nat>)
    requires s != [] && !IsSpace(s[0]) && n == TokenLen(s)
    requires WordsAt(s[n..], ws, ot) && Increasing(ot)
    ensures forall k :: 0 <= k < |ot| ==> ot[k] > 0
    ensures Increasing([0] + Shift(ot, n))
  {
    assert !RunStartAt(s[n..], 0);
    forall k | 0 <= k < |ot|
      ensures ot[k] > 0
    {
      assert RunAt(s[n..], ws[k], ot[k]);
    }
  }

  lemma TokenWordsAt(s: string, n: nat, ws: seq<string>, ot: seq<nat>)
    requires s != [] && !IsSpace(s[0]) && n == TokenLen(s)
    requires WordsAt(s[n..], ws, ot)
    requires forall k :: 0 <= k < |ot| ==> ot[k] > 0
    ensures WordsAt(s, [s[..n]] + ws, [0] + Shift(ot, n))
  {
    var os := [0] + Shift(ot, n);
    var all := [s[..n]] + ws;
    FirstWordAt(s, n);
    forall k | 1 <= k < |all|
      ensures RunAt(s, all[k], os[k])
    {
      RunAfterCut(s, n, ws[k - 1], ot[k - 1]);
      assert all[k] == ws[k - 1];
      assert os[k] == ot[k - 1] + n;
    }
  }

  lemma FirstWordAt(s: string, n: nat)
    requires s != [] && !IsSpace(s[0]) && n == TokenLen(s)
    ensures RunAt(s, s[..n], 0)
  {
    assert s[0..n] == s[..n];
  }

  lemma TokenCoversRuns(s: string, n: nat, ot: seq<nat>)
    requires s != [] && !IsSpace(s[0]) && n == TokenLen(s)
    requires CoversRuns(s[n..], ot)
    ensures CoversRuns(s, [0] + Shift(ot, n))
  {
    var os := [0] + Shift(ot, n);
    forall i | 0 <= i < |s| && RunStartAt(s, i)
      ensures i in os
    {
      if i == 0 {
        assert os[0] == 0;
      } else {
        assert i > n;
        RunStartInSuffix(s, n, i - n);
        var k :| 0 <= k < |ot| && ot[k] == i - n;
        assert os[k + 1] == i;
      }
    }
  }

  /** A whole run of a suffix is a whole run of the text, moved by the cut. */
  lemma RunAfterCut(s: string, d: nat, w: string, j: nat)
    requires d <= |s|
    requires j > 0 || d == 0 || IsSpace(s[d - 1])
    requires RunAt(s[d..], w, j)
    ensures RunAt(s, w, j + d)
  {
    RunStartInSuffix(s, d, j);
    assert s[d..][j..j + |w|] == s[j + d..j + d + |w|];
    if j + |w| < |s| - d {
      assert s[d..][j + |w|] == s[j + d + |w|];
    }
  }

  /** Splitting a word followed by a blank and more text. */
  lemma WordsSpaced(w: string, rest: string)
    requires w != [] && forall i :: 0 <= i < |w| ==> !IsSpace(w[i])
    ensures Words(w + " " + rest) == [w] + Words(rest)
  {
    var s := w + " " + rest;
    assert s == w + (" " + rest);
    TokenLenOfWord(w, " " + rest);
    assert s[..|w|] == w;
    assert s[|w|..] == " " + rest;
    assert (" " + rest)[1..] == rest;
  }

  /** Splitting a single word. */
  lemma WordsOfWord(w: string)
    requires w != [] && forall i :: 0 <= i < |w| ==> !IsSpace(w[i])
    ensures Words(w) == [w]
  {
    TokenLenOfWord(w, "");
    assert w + "" == w;
  }

  lemma {:induction false} TokenLenOfWord(w: string, rest: string)
    requires forall i :: 0 <= i < |w| ==> !IsSpace(w[i])
    requires rest == [] || IsSpace(rest[0])
    ensures TokenLen(w + rest) == |w|
    decreases |w|
  {
    if w != [] {
      TokenLenOfWord(w[1..], rest);
      assert (w + rest)[1..] == w[1..] + rest;
    }
  }

  predicate IsWord(w: string) {
    w != [] && forall i :: 0 <= i < |w| ==> !IsSpace(w[i])
  }

  /** Round trip: splitting words joined by single blanks gives the words back. */
  lemma {:induction false} WordsOfJoin(ws: seq<string>)
    requires forall k :: 0 <= k < |ws| ==> IsWord(ws[k])
    ensures Words(Join(" ", ws)) == ws
  {
    if |ws| == 1 {
      WordsOfWord(ws[0]);
    } else if |ws| > 1 {
      WordsOfJoin(ws[1..]);
      WordsSpaced(ws[0], Join(" ", ws[1..]));
    }
  }

  /** Text without upper-case letters is its own lower-case form. */
  lemma LowerOfLower(s: string)
    requires forall i :: 0 <= i < |s| ==> !IsUpper(s[i])
    ensures Lower(s) == s
  {
  }

  lemma WordCountLower(s: string)
    ensures WordCount(Lower(s)) == WordCount(s)
  {
    WordsLower(s);
  }

  // ---------------------------------------------------------------------------
  // Substring search

  /** `pat` stands in `s` starting at position `i`. */
  predicate MatchAt(pat: string, s: string, i: nat) {
    i + |pat| <= |s| && s[i..i + |pat|] == pat
  }

  /** `pat` occurs in `s` at some position. */
  ghost predicate Occurs(pat: string, s: string) {
    exists i: nat :: MatchAt(pat, s, i)
  }

  /** `pat in s`, searched left to right. */
  function Contains(s: string, pat: string): bool
    decreases |s|
  {
    if |pat| <= |s| && s[..|pat|] == pat then true
    else if s == [] then false
    else Contains(s[1..], pat)
  }

  /** The left-to-right search finds `pat` exactly when it occurs somewhere. */
  lemma {:induction false} ContainsIffOccurs(s: string, pat: string)
    ensures Contains(s, pat) <==> Occurs(pat, s)
    decreases |s|
  {
    if |pat| <= |s| && s[..|pat|] == pat {
      assert MatchAt(pat, s, 0);
    } else if s == [] {
    } else {
      ContainsIffOccurs(s[1..], pat);
      if Occurs(pat, s[1..]) {
        var i: nat :| MatchAt(pat, s[1..], i);
        assert s[1..][i..i + |pat|] == s[i + 1..i + 1 + |pat|];
        assert MatchAt(pat, s, i + 1);
      }
      if Occurs(pat, s) {
        var i: nat :| MatchAt(pat, s, i);
        assert i != 0;
        assert s[1..][i - 1..i - 1 + |pat|] == s[i..i + |pat|];
        assert MatchAt(pat, s[1..], i - 1);
      }
    }
  }

  /** A string without the first character of `pat` cannot contain `pat`. */
  lemma AbsentCharNotContained(s: string, pat: string)
    requires pat != []
    requires forall i :: 0 <= i < |s| ==> s[i] != pat[0]
    ensures !Contains(s, pat)
  {
    ContainsIffOccurs(s, pat);
    forall i: nat
      ensures !MatchAt(pat, s, i)
    {
      if i + |pat| <= |s| {
        assert s[i..i + |pat|][0] == s[i];
      }
    }
  }

  // ---------------------------------------------------------------------------
  // Decimal rendering of natural numbers

  predicate IsDigit(c: char) {
    '0' <= c <= '9'
  }

  function DigitChar(d: nat): (c: char)
    requires d < 10
    ensures IsDigit(c)
  {
    "0123456789"[d]
  }

  /** The decimal digits of `n` as an f-string renders them. */
  function NatToString(n: nat): (s: string)
    ensures s != []
    ensures forall i :: 0 <= i < |s| ==> IsDigit(s[i])
  {
    if n < 10 then [DigitChar(n)] else NatToString(n / 10) + [DigitChar(n % 10)]
  }
}
