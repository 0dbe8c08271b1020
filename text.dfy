/** The string operations the application relies on: `trim`, `split`,
    `toLowerCase`, `includes`, a global `replace`, and the "first n characters
    plus an ellipsis" preview used by several cards and tables.

    Whitespace is the ASCII whitespace set and lower-casing maps only the
    letters A to Z; characters outside ASCII are left as they are. */
module Text {

  predicate IsSpace(c: char) {
    c == ' ' || c == '\t' || c == '\n' || c == '\r' || c == '\U{0B}' || c == '\U{0C}'
  }

  predicate NoSpace(s: string) {
    forall i :: 0 <= i < |s| ==> !IsSpace(s[i])
  }

  predicate AllSpace(s: string) {
    forall i :: 0 <= i < |s| ==> IsSpace(s[i])
  }

  // ---------------------------------------------------------------- trim

  /** `s` without its leading whitespace. */
  function TrimStart(s: string): (r: string)
    ensures |r| <= |s| && r == s[|s| - |r|..]
    ensures r == [] || !IsSpace(r[0])
    ensures AllSpace(s[..|s| - |r|])
  {
    if |s| > 0 && IsSpace(s[0]) then
      var r := TrimStart(s[1..]);
      assert s[..|s| - |r|] == [s[0]] + s[1..][..|s[1..]| - |r|];
      r
    else
      s
  }

  /** `s` without its trailing whitespace. */
  function TrimEnd(s: string): (r: string)
    ensures |r| <= |s| && r == s[..|r|]
    ensures r == [] || !IsSpace(r[|r| - 1])
    ensures AllSpace(s[|r|..])
  {
    if |s| > 0 && IsSpace(s[|s| - 1]) then
      var r := TrimEnd(s[..|s| - 1]);
      assert s[|r|..] == s[..|s| - 1][|r|..] + [s[|s| - 1]];
      r
    else
      s
  }

  /** `String.prototype.trim`. */
  function Trim(s: string): (r: string)
    ensures |r| <= |s|
    ensures r == [] || (!IsSpace(r[0]) && !IsSpace(r[|r| - 1]))
    ensures r == [] <==> AllSpace(s)
  {
    var a := TrimStart(s);
    var r := TrimEnd(a);
    TrimEnds(s, a, r);
    r
  }

  /** Trimming removes only whitespace: the result is a piece of `s` with
      nothing but whitespace before and after it. */
  lemma TrimRemovesOnlySpace(s: string)
    ensures exists start :: 0 <= start <= |s| - |Trim(s)| && Trim(s) == s[start..start + |Trim(s)|]
              && AllSpace(s[..start]) && AllSpace(s[start + |Trim(s)|..])
  {
    var a := TrimStart(s);
    var r := TrimEnd(a);
    assert Trim(s) == r;
    TrimIsSlice(s, a, r);
  }

  /** The trimmed text is empty exactly for whitespace-only text, and
      otherwise starts and ends with a character that is not whitespace. */
  lemma TrimEnds(s: string, a: string, r: string)
    requires |a| <= |s| && a == s[|s| - |a|..] && AllSpace(s[..|s| - |a|])
    requires a == [] || !IsSpace(a[0])
    requires |r| <= |a| && r == a[..|r|] && AllSpace(a[|r|..])
    requires r == [] || !IsSpace(r[|r| - 1])
    ensures r == [] || (!IsSpace(r[0]) && !IsSpace(r[|r| - 1]))
    ensures r == [] <==> AllSpace(s)
  {
    assert a != [] ==> a[0] == s[|s| - |a|];
    assert |a| > |r| ==> a[|r|..][0] == a[|r|];
    if r == [] {
      assert a == [];
      assert s[..|s| - |a|] == s;
    }
  }

  /** Cutting the leading and then the trailing whitespace leaves a piece
      of `s` with only whitespace on either side. */
  lemma TrimIsSlice(s: string, a: string, r: string)
    requires |a| <= |s| && a == s[|s| - |a|..] && AllSpace(s[..|s| - |a|])
    requires |r| <= |a| && r == a[..|r|] && AllSpace(a[|r|..])
    ensures var start := |s| - |a|;
            start + |r| <= |s| && r == s[start..start + |r|]
            && AllSpace(s[..start]) && AllSpace(s[start + |r|..])
  {
    var start := |s| - |a|;
    assert r == s[start..start + |r|];
    assert s[start + |r|..] == a[|r|..];
  }

  /** A string that neither starts nor ends with whitespace is its own
      trim. */
  lemma TrimUntouched(s: string)
    requires s == [] || (!IsSpace(s[0]) && !IsSpace(s[|s| - 1]))
    ensures Trim(s) == s
  {
  }

  /** The input is empty once trimmed: `!value.trim()`. */
  predicate IsBlank(s: string) {
    Trim(s) == []
  }

  // ---------------------------------------------------------------- split

  /** `s.split(/\s+/)`: the pieces between maximal runs of whitespace. A
      leading or trailing run yields an empty first or last piece, and the
      empty string yields one empty piece. */
  function SplitOnSpaces(s: string): (pieces: seq<string>)
    ensures |pieces| >= 1
    ensures forall i :: 0 <= i < |pieces| ==> NoSpace(pieces[i])
    decreases |s|
  {
    if |s| == 0 then [""]
    else if IsSpace(s[0]) then
      var t := TrimStart(s);
      assert |t| == |s| ==> t == s;
      [""] + SplitOnSpaces(t)
    else
      var rest := SplitOnSpaces(s[1..]);
      [[s[0]] + rest[0]] + rest[1..]
  }

  /** `input.trim().split(/\s+/).length`: the word count used by the
      length heuristics. */
  function WordCount(s: string): (n: nat)
    ensures n >= 1
    ensures IsBlank(s) ==> n == 1
  {
    |SplitOnSpaces(Trim(s))|
  }

  /** A word without whitespace followed by one space: the split yields that
      word, then the pieces of the rest. */
  lemma {:induction false} SplitWordThenSpace(w: string, rest: string)
    requires |w| > 0 && NoSpace(w)
    requires rest == [] || !IsSpace(rest[0])
    ensures SplitOnSpaces(w + " " + rest) == [w] + SplitOnSpaces(rest)
    decreases |w|
  {
    var s := w + " " + rest;
    assert s[0] == w[0];
    if |w| == 1 {
      assert s[1..] == " " + rest;
      assert (" " + rest)[1..] == rest;
      assert TrimStart(" " + rest) == TrimStart(rest) == rest;
      assert SplitOnSpaces(" " + rest) == [""] + SplitOnSpaces(rest);
      assert [w[0]] + "" == w;
    } else {
      assert s[1..] == w[1..] + " " + rest;
      SplitWordThenSpace(w[1..], rest);
      assert [w[0]] + w[1..] == w;
    }
  }

  /** A non-empty word without whitespace splits into itself. */
  lemma {:induction false} SplitSingleWord(w: string)
    requires |w| > 0 && NoSpace(w)
    ensures SplitOnSpaces(w) == [w]
    decreases |w|
  {
    if |w| > 1 {
      SplitSingleWord(w[1..]);
      assert [w[0]] + w[1..] == w;
    } else {
      assert w[1..] == [];
      assert [w[0]] + "" == w;
    }
  }

  /** `s.split(".")` and every other split on one separator character. */
  function SplitOn(s: string, sep: char): (pieces: seq<string>)
    ensures |pieces| >= 1
    ensures forall i :: 0 <= i < |pieces| ==> sep !in pieces[i]
    decreases |s|
  {
    if |s| == 0 then [""]
    else if s[0] == sep then [""] + SplitOn(s[1..], sep)
    else
      var rest := SplitOn(s[1..], sep);
      [[s[0]] + rest[0]] + rest[1..]
  }

  /** `pieces.join(sep)`. */
  function JoinWith(pieces: seq<string>, sep: char): string
    requires |pieces| >= 1
  {
    if |pieces| == 1 then pieces[0] else pieces[0] + [sep] + JoinWith(pieces[1..], sep)
  }

  /** Splitting on a separator loses nothing: joining the pieces back with the
      same separator gives the original string. */
  lemma {:induction false} SplitOnJoin(s: string, sep: char)
    ensures JoinWith(SplitOn(s, sep), sep) == s
    decreases |s|
  {
    if |s| == 0 {
    } else if s[0] == sep {
      SplitOnJoin(s[1..], sep);
      assert [s[0]] + s[1..] == s;
    } else {
      var rest := SplitOn(s[1..], sep);
      SplitOnJoin(s[1..], sep);
      if |rest| == 1 {
        assert [s[0]] + rest[0] == s;
      } else {
        var pieces := [[s[0]] + rest[0]] + rest[1..];
        assert pieces[1..] == rest[1..];
        assert JoinWith(rest, sep) == rest[0] + [sep] + JoinWith(rest[1..], sep);
        assert [s[0]] + s[1..] == s;
      }
    }
  }

  // ---------------------------------------------------------- lower case

  function LowerChar(c: char): char {
    if 'A' <= c <= 'Z' then (c as int + 32) as char else c
  }

  /** `toLowerCase` on the ASCII letters. */
  function ToLower(s: string): (r: string)
    ensures |r| == |s|
    ensures forall i :: 0 <= i < |s| ==> r[i] == LowerChar(s[i])
  {
    seq(|s|, i requires 0 <= i < |s| => LowerChar(s[i]))
  }

  lemma ToLowerAppend(a: string, b: string)
    ensures ToLower(a + b) == ToLower(a) + ToLower(b)
  {
    assert forall i :: 0 <= i < |a + b| ==> ToLower(a + b)[i] == (ToLower(a) + ToLower(b))[i];
  }

  // ------------------------------------------------------------- includes

  /** `word` occurs in `text` starting at index `i`. */
  predicate OccursAt(text: string, word: string, i: int) {
    0 <= i && i + |word| <= |text| && text[i..i + |word|] == word
  }

  /** Character-by-character comparison of `word[j..]` against `text` at `i`. */
  function MatchesFrom(text: string, word: string, i: nat, j: nat): bool
    requires i + |word| <= |text| && j <= |word|
    decreases |word| - j
  {
    j == |word| || (text[i + j] == word[j] && MatchesFrom(text, word, i, j + 1))
  }

  /** Scan of the start positions from `i` onwards. */
  function IncludesFrom(text: string, word: string, i: nat): bool
    decreases |text| - i
  {
    i + |word| <= |text| && (MatchesFrom(text, word, i, 0) || IncludesFrom(text, word, i + 1))
  }

  /** `text.includes(word)`: plain substring search. */
  function Includes(text: string, word: string): bool {
    IncludesFrom(text, word, 0)
  }

  /** `Includes` holds exactly when the word occurs at some index. */
  lemma IncludesOccurs(text: string, word: string)
    ensures Includes(text, word) <==> exists k :: OccursAt(text, word, k)
  {
    IncludesFromOccurs(text, word, 0);
  }

  lemma {:induction false} MatchesFromSlices(text: string, word: string, i: nat, j: nat)
    requires i + |word| <= |text| && j <= |word|
    ensures MatchesFrom(text, word, i, j) <==> text[i + j..i + |word|] == word[j..]
    decreases |word| - j
  {
    if j < |word| {
      MatchesFromSlices(text, word, i, j + 1);
      assert text[i + j..i + |word|] == [text[i + j]] + text[i + j + 1..i + |word|];
      assert word[j..] == [word[j]] + word[j + 1..];
    }
  }

  lemma {:induction false} IncludesFromOccurs(text: string, word: string, i: nat)
    ensures IncludesFrom(text, word, i) <==> exists k :: i <= k && OccursAt(text, word, k)
    decreases |text| - i
  {
    if i + |word| <= |text| {
      MatchesFromSlices(text, word, i, 0);
      assert word[0..] == word;
      IncludesFromOccurs(text, word, i + 1);
      assert MatchesFrom(text, word, i, 0) <==> OccursAt(text, word, i);
      if exists k :: i <= k && OccursAt(text, word, k) {
        var k :| i <= k && OccursAt(text, word, k);
        if k != i {
          assert i + 1 <= k;
        }
      }
    }
  }

  /** A keyword without a space cannot straddle a space, so an occurrence in
      `a + " " + b` is an occurrence in `a` or in `b`. */
  lemma IncludesAroundSpace(a: string, b: string, word: string)
    requires ' ' !in word
    ensures Includes(a + " " + b, word) <==> Includes(a, word) || Includes(b, word)
  {
    var s := a + " " + b;
    IncludesOccurs(s, word);
    IncludesOccurs(a, word);
    IncludesOccurs(b, word);
    if Includes(s, word) {
      var k :| OccursAt(s, word, k);
      forall m | k <= m < k + |word|
        ensures s[m] != ' '
      {
        assert s[m] == s[k..k + |word|][m - k];
        assert word[m - k] in word;
      }
      assert s[|a|] == ' ';
      if k + |word| <= |a| {
        assert s[k..k + |word|] == a[k..k + |word|];
        assert OccursAt(a, word, k);
      } else {
        assert s[k..k + |word|] == b[k - |a| - 1..k - |a| - 1 + |word|];
        assert OccursAt(b, word, k - |a| - 1);
      }
    }
    if Includes(a, word) {
      var k :| OccursAt(a, word, k);
      assert s[k..k + |word|] == a[k..k + |word|];
      assert OccursAt(s, word, k);
    }
    if Includes(b, word) {
      var k :| OccursAt(b, word, k);
      assert s[k + |a| + 1..k + |a| + 1 + |word|] == b[k..k + |word|];
      assert OccursAt(s, word, k + |a| + 1);
    }
  }

  /** A word containing a character that does not occur in the text does not
      occur in it either. */
  lemma AbsentCharacter(text: string, word: string, j: nat)
    requires j < |word| && word[j] !in text
    ensures !Includes(text, word)
  {
    IncludesOccurs(text, word);
    forall k: nat | k + |word| <= |text|
      ensures !OccursAt(text, word, k)
    {
      assert text[k..k + |word|][j] == text[k + j];
    }
  }

  // -------------------------------------------------------- replace all

  /** `s.replace(new RegExp(pat, "g"), rep)` for a pattern that is a plain
      string: each leftmost non-overlapping occurrence is replaced. */
  function ReplaceAll(s: string, pat: string, rep: string): string
    requires |pat| > 0
    decreases |s|
  {
    if |s| < |pat| then s
    else if s[..|pat|] == pat then rep + ReplaceAll(s[|pat|..], pat, rep)
    else [s[0]] + ReplaceAll(s[1..], pat, rep)
  }

  /** Where the pattern does not occur, replacing it changes nothing. */
  lemma {:induction false} ReplaceAllAbsent(s: string, pat: string, rep: string)
    requires |pat| > 0 && !Includes(s, pat)
    ensures ReplaceAll(s, pat, rep) == s
    decreases |s|
  {
    if |s| >= |pat| {
      forall k | OccursAt(s[1..], pat, k)
        ensures OccursAt(s, pat, k + 1)
      {
        assert s[1..][k..k + |pat|] == s[k + 1..k + 1 + |pat|];
      }
      IncludesOccurs(s, pat);
      IncludesOccurs(s[1..], pat);
      assert !OccursAt(s, pat, 0);
      ReplaceAllAbsent(s[1..], pat, rep);
      assert [s[0]] + s[1..] == s;
    }
  }

  /** Replacing a pattern by itself is the identity. */
  lemma {:induction false} ReplaceAllSelf(s: string, pat: string)
    requires |pat| > 0
    ensures ReplaceAll(s, pat, pat) == s
    decreases |s|
  {
    if |s| >= |pat| {
      if s[..|pat|] == pat {
        ReplaceAllSelf(s[|pat|..], pat);
        assert s[..|pat|] + s[|pat|..] == s;
      } else {
        ReplaceAllSelf(s[1..], pat);
        assert [s[0]] + s[1..] == s;
      }
    }
  }

  // ------------------------------------------------------------ previews

  /** The first `n` characters followed by "..." when the text is longer than
      `n`; the text itself otherwise. */
  function Truncate(s: string, n: nat): (r: string)
    ensures |s| <= n ==> r == s
    ensures |s| > n ==> |r| == n + 3 && r[n..] == "..."
    ensures |r| <= n + 3
    ensures s[..if |s| < n then |s| else n] <= r
  {
    if |s| <= n then s else s[..n] + "..."
  }
}
