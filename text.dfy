/** The string operations of the Kotlin and Java standard libraries that the
    build runner uses: case folding, `trim`, `isBlank`, decimal rendering of
    integers, `split('-')`, `Pattern.compile("\\s+").split(...)` and
    `joinToString`. Case folding covers ASCII letters only. */
module Text {
  import opened Common

  // ---------------------------------------------------------------------
  // Case

  function LowerChar(c: char): (r: char)
    ensures 'A' <= c <= 'Z' ==> 'a' <= r <= 'z'
    ensures !('A' <= c <= 'Z') ==> r == c
  {
    if 'A' <= c <= 'Z' then (c as int - 'A' as int + 'a' as int) as char else c
  }

  /** `toLowerCase()`, letter by letter. */
  function Lower(s: string): (r: string)
    ensures |r| == |s|
    ensures forall i :: 0 <= i < |s| ==> r[i] == LowerChar(s[i])
  {
    seq(|s|, i requires 0 <= i < |s| => LowerChar(s[i]))
  }

  lemma LowerAppend(a: string, b: string)
    ensures Lower(a + b) == Lower(a) + Lower(b)
  {
  }

  lemma LowerIdempotent(s: string)
    ensures Lower(Lower(s)) == Lower(s)
  {
  }

  /** Kotlin's `a.equals(b, ignoreCase = true)`. */
  predicate EqualsIgnoreCase(a: string, b: string) {
    Lower(a) == Lower(b)
  }

  // ---------------------------------------------------------------------
  // Whitespace

  /** Kotlin's `Char.isWhitespace()`: Java's `Character.isWhitespace` or
      `Character.isSpaceChar`. */
  predicate IsWhitespace(c: char) {
    || 9 <= c as int <= 13
    || 28 <= c as int <= 32
    || c as int == 0xA0 || c as int == 0x1680
    || 0x2000 <= c as int <= 0x200A
    || c as int == 0x2028 || c as int == 0x2029 || c as int == 0x202F
    || c as int == 0x205F || c as int == 0x3000
  }

  /** A character matched by the regular-expression class `\s`. */
  predicate IsRegexSpace(c: char) {
    c == ' ' || c == '\t' || c == '\n' || c as int == 0x0B || c as int == 0x0C || c == '\r'
  }

  lemma RegexSpaceIsWhitespace(c: char)
    ensures IsRegexSpace(c) ==> IsWhitespace(c)
  {
  }

  /** Kotlin's `isBlank()` (and `isNullOrBlank()` of a non-null string). */
  predicate IsBlank(s: string) {
    forall i :: 0 <= i < |s| ==> IsWhitespace(s[i])
  }

  function TrimStart(s: string): (r: string)
    ensures |r| <= |s| && r == s[|s| - |r|..]
    ensures r != [] ==> !IsWhitespace(r[0])
    ensures forall i :: 0 <= i < |s| - |r| ==> IsWhitespace(s[i])
  {
    if s != [] && IsWhitespace(s[0]) then TrimStart(s[1..]) else s
  }

  function TrimEnd(s: string): (r: string)
    ensures |r| <= |s| && r == s[..|r|]
    ensures r != [] ==> !IsWhitespace(r[|r| - 1])
    ensures forall i :: |r| <= i < |s| ==> IsWhitespace(s[i])
  {
    if s != [] && IsWhitespace(s[|s| - 1]) then TrimEnd(s[..|s| - 1]) else s
  }

  /** `r` is the slice of `s` at `i`, and only whitespace surrounds it. */
  predicate SurroundedByWhitespace(s: string, r: string, i: int) {
    0 <= i <= |s| - |r| && r == s[i..i + |r|]
    && (forall j :: 0 <= j < i ==> IsWhitespace(s[j]))
    && (forall j :: i + |r| <= j < |s| ==> IsWhitespace(s[j]))
  }

  /** Kotlin's `trim()`: `s` without its leading and trailing whitespace.
      The result is empty exactly when `s` is blank, and otherwise neither
      starts nor ends with whitespace. */
  function Trim(s: string): (r: string)
    ensures |r| <= |s|
    ensures exists i :: SurroundedByWhitespace(s, r, i)
    ensures r != [] ==> !IsWhitespace(r[0]) && !IsWhitespace(r[|r| - 1])
    ensures r == [] <==> IsBlank(s)
  {
    var t := TrimStart(s);
    assert t != [] ==> t[0] == s[|s| - |t|];
    var r := TrimEnd(t);
    WhitespaceAroundTrims(s, t, r);
    r
  }

  /** Whitespace cut from the front of `s` to give `t`, then from the back
      of `t` to give `r`, surrounds `r` in `s`. */
  lemma WhitespaceAroundTrims(s: string, t: string, r: string)
    requires |t| <= |s| && t == s[|s| - |t|..]
    requires forall j :: 0 <= j < |s| - |t| ==> IsWhitespace(s[j])
    requires |r| <= |t| && r == t[..|r|]
    requires forall j :: |r| <= j < |t| ==> IsWhitespace(t[j])
    ensures SurroundedByWhitespace(s, r, |s| - |t|)
  {
    var i := |s| - |t|;
    assert forall k :: 0 <= k < |r| ==> r[k] == s[i + k];
    assert forall j :: i + |r| <= j < |s| ==> s[j] == t[j - i];
  }

  /** A string without whitespace at either end is its own trim. */
  lemma TrimOfTrimmed(s: string)
    requires s != [] ==> !IsWhitespace(s[0]) && !IsWhitespace(s[|s| - 1])
    ensures Trim(s) == s
  {
  }

  // ---------------------------------------------------------------------
  // Decimal rendering (Kotlin string templates of an `Int`)

  function Digit(d: nat): (c: char)
    requires d < 10
    ensures '0' <= c <= '9'
  {
    (d + '0' as int) as char
  }

  predicate IsDigit(c: char) {
    '0' <= c <= '9'
  }

  function NatToString(n: nat): (s: string)
    ensures |s| >= 1
    ensures forall i :: 0 <= i < |s| ==> IsDigit(s[i])
  {
    if n < 10 then [Digit(n)] else NatToString(n / 10) + [Digit(n % 10)]
  }

  /** `"$n"` for an integer: a minus sign before the digits of a negative. */
  function IntToString(n: int): (s: string)
    ensures |s| >= 1
  {
    if n < 0 then "-" + NatToString(-n) else NatToString(n)
  }

  /** The value of a string of decimal digits: the partner of `NatToString`. */
  function DigitsValue(s: string): nat
    requires forall i :: 0 <= i < |s| ==> IsDigit(s[i])
  {
    if s == [] then 0
    else
      assert IsDigit(s[|s| - 1]);
      DigitsValue(s[..|s| - 1]) * 10 + (s[|s| - 1] as int - '0' as int)
  }

  lemma {:induction false} NatToStringRoundTrip(n: nat)
    ensures DigitsValue(NatToString(n)) == n
  {
    if n >= 10 {
      var s := NatToString(n);
      assert s[..|s| - 1] == NatToString(n / 10);
      NatToStringRoundTrip(n / 10);
    }
  }

  lemma SignOfIntToString(n: int)
    ensures IntToString(n)[0] == '-' <==> n < 0
  {
  }

  /** Distinct integers render as distinct strings. */
  lemma IntToStringInjective(a: int, b: int)
    ensures IntToString(a) == IntToString(b) ==> a == b
  {
    if IntToString(a) == IntToString(b) {
      SignOfIntToString(a);
      SignOfIntToString(b);
      if a < 0 {
        assert NatToString(-a) == IntToString(a)[1..];
        assert NatToString(-b) == IntToString(b)[1..];
        NatToStringRoundTrip(-a);
        NatToStringRoundTrip(-b);
      } else {
        NatToStringRoundTrip(a);
        NatToStringRoundTrip(b);
      }
    }
  }

  // ---------------------------------------------------------------------
  // Splitting on one character: Kotlin's `split(c)`

  /** The pieces of `s` between the occurrences of `sep`; there is always
      one piece more than there are separators. */
  function SplitOn(s: string, sep: char): (r: seq<string>)
    ensures |r| >= 1
    ensures forall k, i :: 0 <= k < |r| && 0 <= i < |r[k]| ==> r[k][i] != sep
  {
    if s == [] then [""]
    else
      var rest := SplitOn(s[1..], sep);
      if s[0] == sep then [""] + rest else [[s[0]] + rest[0]] + rest[1..]
  }

  /** `s` with every occurrence of `c` removed. */
  function Without(s: string, c: char): (r: string)
    ensures forall i :: 0 <= i < |r| ==> r[i] != c
  {
    if s == [] then []
    else (if s[0] == c then [] else [s[0]]) + Without(s[1..], c)
  }

  /** Gluing the pieces back together gives the text without the separators. */
  lemma {:induction false} SplitOnFlatten(s: string, sep: char)
    ensures Flatten(SplitOn(s, sep)) == Without(s, sep)
  {
    if s != [] {
      var rest := SplitOn(s[1..], sep);
      SplitOnFlatten(s[1..], sep);
      if s[0] != sep {
        var r := SplitOn(s, sep);
        assert r[0] == [s[0]] + rest[0] && r[1..] == rest[1..];
        assert Flatten(rest) == rest[0] + Flatten(rest[1..]);
      }
    }
  }

  lemma {:induction false} SplitOnSeparatorFree(a: string, sep: char)
    requires forall i :: 0 <= i < |a| ==> a[i] != sep
    ensures SplitOn(a, sep) == [a]
  {
    if a != [] {
      assert forall i :: 0 <= i < |a[1..]| ==> a[1..][i] == a[i + 1];
      SplitOnSeparatorFree(a[1..], sep);
      assert [a[0]] + a[1..] == a;
    }
  }

  lemma {:induction false} SplitOnAfterPiece(a: string, sep: char, r: string)
    requires forall i :: 0 <= i < |a| ==> a[i] != sep
    ensures SplitOn(a + [sep] + r, sep) == [a] + SplitOn(r, sep)
  {
    if a == [] {
      assert a + [sep] + r == [sep] + r;
      assert ([sep] + r)[1..] == r;
    } else {
      var s := a + [sep] + r;
      assert s[0] == a[0] && s[1..] == a[1..] + [sep] + r;
      assert forall i :: 0 <= i < |a[1..]| ==> a[1..][i] == a[i + 1];
      SplitOnAfterPiece(a[1..], sep, r);
      assert [a[0]] + a[1..] == a;
    }
  }

  /** Splitting undoes joining, when no piece holds the separator. */
  lemma {:induction false} SplitOnJoin(parts: seq<string>, sep: char)
    requires |parts| >= 1
    requires forall k, i :: 0 <= k < |parts| && 0 <= i < |parts[k]| ==> parts[k][i] != sep
    ensures SplitOn(Join(parts, [sep]), sep) == parts
  {
    if |parts| == 1 {
      SplitOnSeparatorFree(parts[0], sep);
    } else {
      assert forall i :: 0 <= i < |parts[0]| ==> parts[0][i] != sep;
      SplitOnAfterPiece(parts[0], sep, Join(parts[1..], [sep]));
      SplitOnJoin(parts[1..], sep);
    }
  }

  lemma LowerDigits(s: string)
    requires forall i :: 0 <= i < |s| ==> IsDigit(s[i]) || s[i] == '-'
    ensures Lower(s) == s
  {
  }

  // ---------------------------------------------------------------------
  // Splitting on runs of whitespace: Java's `Pattern.compile("\\s+").split(s)`

  /** The longest prefix of `s` holding no `\s` character. */
  function Word(s: string): (w: string)
    ensures |w| <= |s| && w == s[..|w|]
    ensures s != [] && !IsRegexSpace(s[0]) ==> |w| >= 1
    ensures forall i :: 0 <= i < |w| ==> !IsRegexSpace(w[i])
    ensures |w| < |s| ==> IsRegexSpace(s[|w|])
  {
    if s == [] || IsRegexSpace(s[0]) then [] else [s[0]] + Word(s[1..])
  }

  /** `s` without its leading run of `\s` characters. */
  function SkipSpaces(s: string): (r: string)
    ensures |r| <= |s| && r == s[|s| - |r|..]
    ensures r != [] ==> !IsRegexSpace(r[0])
    ensures forall i :: 0 <= i < |s| - |r| ==> IsRegexSpace(s[i])
  {
    if s != [] && IsRegexSpace(s[0]) then SkipSpaces(s[1..]) else s
  }

  /** The pieces of `s` around every maximal run of `\s` characters,
      empty pieces included (a leading run gives a leading "", a trailing
      run a trailing ""). */
  function Pieces(s: string): (r: seq<string>)
    ensures |r| >= 1
    ensures forall k, i :: 0 <= k < |r| && 0 <= i < |r[k]| ==> !IsRegexSpace(r[k][i])
    decreases |s|
  {
    var w := Word(s);
    if |w| == |s| then [w] else [w] + Pieces(SkipSpaces(s[|w|..]))
  }

  function DropTrailingEmpty(p: seq<string>): (r: seq<string>)
    ensures |r| <= |p| && r == p[..|r|]
    ensures r != [] ==> r[|r| - 1] != ""
    ensures forall k :: |r| <= k < |p| ==> p[k] == ""
  {
    if p != [] && p[|p| - 1] == "" then DropTrailingEmpty(p[..|p| - 1]) else p
  }

  predicate HasRegexSpace(s: string) {
    exists i :: 0 <= i < |s| && IsRegexSpace(s[i])
  }

  /** Java's `Pattern.split` with limit 0: the whole input when the pattern
      never matches, otherwise the pieces without the trailing empty ones. */
  function SplitOnWhitespace(s: string): seq<string> {
    if HasRegexSpace(s) then DropTrailingEmpty(Pieces(s)) else [s]
  }

  /** The words of `s`: its maximal runs of non-`\s` characters. On a
      string that was trimmed, `SplitOnWhitespace` yields exactly these. */
  function Words(s: string): (r: seq<string>)
    ensures IsWordList(r)
    decreases |s|
  {
    var t := SkipSpaces(s);
    if t == [] then []
    else
      WordOfNonSpace(t);
      var w := Word(t);
      var rest := Words(t[|w|..]);
      ConsWordList(w, rest);
      [w] + rest
  }

  /** A non-empty run of non-`\s` characters. */
  predicate IsWordItem(w: string) {
    w != "" && !HasRegexSpace(w)
  }

  predicate IsWordList(r: seq<string>) {
    forall k :: 0 <= k < |r| ==> IsWordItem(r[k])
  }

  /** The word at the start of a string that does not start with `\s`. */
  lemma WordOfNonSpace(t: string)
    requires t != [] && !IsRegexSpace(t[0])
    ensures 1 <= |Word(t)| <= |t| && IsWordItem(Word(t))
  {
  }

  lemma ConsWordList(w: string, rest: seq<string>)
    requires IsWordItem(w) && IsWordList(rest)
    ensures IsWordList([w] + rest)
  {
    assert forall k :: 1 <= k < |rest| + 1 ==> ([w] + rest)[k] == rest[k - 1];
  }

  lemma {:induction false} PiecesOfTrimmed(s: string)
    requires s != [] && !IsRegexSpace(s[0]) && !IsRegexSpace(s[|s| - 1])
    ensures Pieces(s) == Words(s)
    decreases |s|
  {
    var w := Word(s);
    assert SkipSpaces(s) == s;
    if |w| < |s| {
      var rest := SkipSpaces(s[|w|..]);
      assert rest != [];
      assert rest[|rest| - 1] == s[|s| - 1];
      PiecesOfTrimmed(rest);
      WordsSkip(s[|w|..]);
    }
  }

  lemma WordsSkip(s: string)
    ensures Words(s) == Words(SkipSpaces(s))
  {
    SkipSpacesIdempotent(s);
  }

  lemma {:induction false} SkipSpacesIdempotent(s: string)
    ensures SkipSpaces(SkipSpaces(s)) == SkipSpaces(s)
  {
    if s != [] && IsRegexSpace(s[0]) {
      SkipSpacesIdempotent(s[1..]);
    }
  }

  /** Splitting a trimmed line on whitespace gives its words, or the single
      empty string when the line is empty. */
  lemma SplitTrimmedLine(line: string)
    ensures SplitOnWhitespace(Trim(line)) == if Trim(line) == "" then [""] else Words(Trim(line))
  {
    var t := Trim(line);
    if t != "" {
      RegexSpaceIsWhitespace(t[0]);
      RegexSpaceIsWhitespace(t[|t| - 1]);
      SplitSpaceBounded(t);
    }
  }

  /** A non-empty string with no `\s` at either end splits into its words. */
  lemma SplitSpaceBounded(t: string)
    requires t != [] && !IsRegexSpace(t[0]) && !IsRegexSpace(t[|t| - 1])
    ensures SplitOnWhitespace(t) == Words(t)
  {
    if HasRegexSpace(t) {
      PiecesOfTrimmed(t);
      var p := Pieces(t);
      assert IsWordItem(p[|p| - 1]);
    } else {
      WordsOfSpaceless(t);
    }
  }

  lemma WordsOfSpaceless(s: string)
    requires s != [] && !HasRegexSpace(s)
    ensures Words(s) == [s]
  {
    assert SkipSpaces(s) == s;
    WordOfSpaceless(s);
  }

  lemma {:induction false} WordOfSpaceless(s: string)
    requires !HasRegexSpace(s)
    ensures Word(s) == s
  {
    if s != [] {
      assert !HasRegexSpace(s[1..]) by {
        forall i | 0 <= i < |s[1..]| ensures !IsRegexSpace(s[1..][i]) {
          assert s[1..][i] == s[i + 1];
        }
      }
      WordOfSpaceless(s[1..]);
    }
  }

  /** A non-empty string without any whitespace. */
  predicate IsPlainWord(w: string) {
    w != [] && forall i :: 0 <= i < |w| ==> !IsWhitespace(w[i])
  }

  lemma PlainWordHasNoRegexSpace(w: string)
    requires IsPlainWord(w)
    ensures !HasRegexSpace(w)
  {
    forall i | 0 <= i < |w| ensures !IsRegexSpace(w[i]) {
      RegexSpaceIsWhitespace(w[i]);
    }
  }

  /** A line holding one word splits into that word. */
  lemma SplitOneWord(w: string)
    requires IsPlainWord(w)
    ensures SplitOnWhitespace(Trim(w)) == [w]
  {
    TrimOfTrimmed(w);
    PlainWordHasNoRegexSpace(w);
  }

  lemma {:induction false} WordBeforeSpace(a: string, r: string)
    requires !HasRegexSpace(a)
    requires r != [] && IsRegexSpace(r[0])
    ensures Word(a + r) == a
  {
    if a != [] {
      assert !IsRegexSpace(a[0]);
      assert !HasRegexSpace(a[1..]) by {
        forall i | 0 <= i < |a[1..]| ensures !IsRegexSpace(a[1..][i]) {
          assert a[1..][i] == a[i + 1];
        }
      }
      assert (a + r)[1..] == a[1..] + r;
      WordBeforeSpace(a[1..], r);
    } else {
      assert a + r == r;
    }
  }

  /** A line holding two words separated by one space splits into them. */
  lemma SplitTwoWords(a: string, b: string)
    requires IsPlainWord(a) && IsPlainWord(b)
    ensures SplitOnWhitespace(Trim(a + " " + b)) == [a, b]
  {
    var s := a + " " + b;
    assert s[0] == a[0] && s[|s| - 1] == b[|b| - 1];
    TrimOfTrimmed(s);
    SplitTrimmedLine(s);
    PlainWordHasNoRegexSpace(a);
    PlainWordHasNoRegexSpace(b);
    WordsOfTwo(a, b);
  }

  lemma WordsOfTwo(a: string, b: string)
    requires a != [] && b != [] && !HasRegexSpace(a) && !HasRegexSpace(b)
    ensures Words(a + " " + b) == [a, b]
  {
    WordsOfWordThen(a, [' '] + b);
    WordsAfterOneSpace(b);
    AppendAssociative(a, " ", b);
  }

  lemma WordsOfWordThen(a: string, r: string)
    requires a != [] && !HasRegexSpace(a) && r != [] && IsRegexSpace(r[0])
    ensures Words(a + r) == [a] + Words(r)
  {
    var s := a + r;
    assert !IsRegexSpace(s[0]) by {
      assert s[0] == a[0];
    }
    SkipSpacesOfWord(s);
    WordBeforeSpace(a, r);
    WordsUnfold(s);
    assert s[|a|..] == r;
  }

  lemma WordsAfterOneSpace(b: string)
    requires b != [] && !HasRegexSpace(b)
    ensures Words([' '] + b) == [b]
  {
    SkipOneSpace(b);
    WordsSkip([' '] + b);
    WordsOfSpaceless(b);
  }

  lemma SkipSpacesOfWord(s: string)
    requires s != [] && !IsRegexSpace(s[0])
    ensures SkipSpaces(s) == s
  {
  }

  lemma SkipOneSpace(b: string)
    requires b != [] && !IsRegexSpace(b[0])
    ensures SkipSpaces([' '] + b) == b
  {
    assert ([' '] + b)[1..] == b;
  }

  lemma WordsUnfold(s: string)
    requires SkipSpaces(s) != []
    ensures Words(s) == [Word(SkipSpaces(s))] + Words(SkipSpaces(s)[|Word(SkipSpaces(s))|..])
  {
  }

  // ---------------------------------------------------------------------
  // Joining: `joinToString(sep)`

  function Join(parts: seq<string>, sep: string): string {
    if parts == [] then ""
    else if |parts| == 1 then parts[0]
    else parts[0] + sep + Join(parts[1..], sep)
  }
}
