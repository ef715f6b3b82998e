/**
 * Text helpers shared by the firmware and backend models: the Arduino `String`
 * operations the firmware uses (case-insensitive comparison, `indexOf`,
 * `startsWith` at an offset, `toInt`) and the Python `str` operations the
 * backend uses (`strip`, `split`, `join`, `replace`, `int()` and `str()` of an
 * integer). Characters are Unicode code points; case folding is ASCII only,
 * which is all the comparisons in the models need.
 */
module Strings {
  import opened Wrappers

  // ---------------------------------------------------------------------------
  // Character classes

  predicate IsDigit(c: char) { '0' <= c <= '9' }

  /** C `isspace` in the "C" locale, as `atol` uses it. */
  predicate IsCSpace(c: char) { c == ' ' || '\t' <= c <= '\r' }

  /** Python's `str.isspace` for one character: what `strip()` and `split()` drop. */
  predicate IsPySpace(c: char) {
    var n := c as int;
    || 0x09 <= n <= 0x0d
    || 0x1c <= n <= 0x20
    || n == 0x85 || n == 0xa0 || n == 0x1680
    || 0x2000 <= n <= 0x200a
    || n == 0x2028 || n == 0x2029 || n == 0x202f || n == 0x205f || n == 0x3000
  }

  predicate NoPySpace(s: string) {
    forall i | 0 <= i < |s| :: !IsPySpace(s[i])
  }

  /** A non-empty run of non-whitespace characters. */
  predicate IsWord(w: string) {
    w != [] && NoPySpace(w)
  }

  function DigitValue(c: char): nat
    requires IsDigit(c)
  {
    c as int - '0' as int
  }

  function DigitChar(d: nat): (c: char)
    requires d < 10
    ensures IsDigit(c) && DigitValue(c) == d
  {
    ('0' as int + d) as char
  }

  // ---------------------------------------------------------------------------
  // Case

  function LowerChar(c: char): char {
    if 'A' <= c <= 'Z' then (c as int + 32) as char else c
  }

  function Lower(s: string): (r: string)
    ensures |r| == |s|
    ensures forall i | 0 <= i < |s| :: r[i] == LowerChar(s[i])
  {
    seq(|s|, i requires 0 <= i < |s| => LowerChar(s[i]))
  }

  /** Arduino `String::equalsIgnoreCase`: same length, equal after lower-casing each character. */
  predicate EqualsIgnoreCase(a: string, b: string) {
    Lower(a) == Lower(b)
  }

  // ---------------------------------------------------------------------------
  // Prefixes, suffixes, occurrences

  predicate StartsWith(s: string, p: string) {
    |p| <= |s| && s[..|p|] == p
  }

  predicate EndsWith(s: string, p: string) {
    |p| <= |s| && s[|s| - |p|..] == p
  }

  /** `p` occurs in `s` starting at index `i`. */
  predicate OccursAt(s: string, p: string, i: nat) {
    i + |p| <= |s| && s[i..i + |p|] == p
  }

  /** Python's `p in s`. */
  predicate Contains(s: string, p: string) {
    exists i: nat | i <= |s| :: OccursAt(s, p, i)
  }

  /** Arduino `String::startsWith(prefix, offset)`. */
  predicate StartsWithAt(s: string, p: string, offset: nat) {
    OccursAt(s, p, offset)
  }

  /**
   * Arduino `String::indexOf(pattern, fromIndex)`: -1 when `fromIndex` is at or
   * past the end, otherwise the first occurrence at or after `fromIndex`, or -1.
   */
  function IndexOf(s: string, p: string, from: nat): (r: int)
    ensures r == -1 || (from <= r < |s| && OccursAt(s, p, r))
    decreases |s| - from
  {
    if from >= |s| then -1
    else if OccursAt(s, p, from) then from
    else IndexOf(s, p, from + 1)
  }

  /** `IndexOf` finds the first occurrence at or after `from`, and -1 only when there is none. */
  lemma {:induction false} IndexOfFirst(s: string, p: string, from: nat)
    ensures IndexOf(s, p, from) == -1 ==> forall i: nat | from <= i < |s| :: !OccursAt(s, p, i)
    ensures IndexOf(s, p, from) != -1 ==> forall i: nat | from <= i < IndexOf(s, p, from) :: !OccursAt(s, p, i)
    decreases |s| - from
  {
    if from < |s| && !OccursAt(s, p, from) {
      IndexOfFirst(s, p, from + 1);
    }
  }

  /** Arduino `String::indexOf(ch, fromIndex)`: the first position at or after `fromIndex` holding `ch`, or -1. */
  function IndexOfChar(s: string, ch: char, from: nat): (r: int)
    ensures r == -1 || (from <= r < |s| && s[r] == ch)
    decreases |s| - from
  {
    if from >= |s| then -1
    else if s[from] == ch then from
    else IndexOfChar(s, ch, from + 1)
  }

  /** `IndexOfChar` finds the first `ch` at or after `from`, and -1 only when there is none. */
  lemma {:induction false} IndexOfCharFirst(s: string, ch: char, from: nat)
    ensures IndexOfChar(s, ch, from) == -1 ==> forall i | from <= i < |s| :: s[i] != ch
    ensures IndexOfChar(s, ch, from) != -1 ==> forall i | from <= i < IndexOfChar(s, ch, from) :: s[i] != ch
    decreases |s| - from
  {
    if from < |s| && s[from] != ch {
      IndexOfCharFirst(s, ch, from + 1);
    }
  }

  /** `IndexOfChar` returns a position exactly when it holds the first `ch` at or after `from`. */
  lemma {:induction false} IndexOfCharIs(s: string, ch: char, from: nat, i: nat)
    requires from <= i < |s| && s[i] == ch
    requires forall j | from <= j < i :: s[j] != ch
    ensures IndexOfChar(s, ch, from) == i
    decreases i - from
  {
    if from < i {
      IndexOfCharIs(s, ch, from + 1, i);
    }
  }

  /** `IndexOf` returns a position exactly when it is the first occurrence at or after `from`. */
  lemma {:induction false} IndexOfIs(s: string, p: string, from: nat, i: nat)
    requires from <= i < |s| && OccursAt(s, p, i)
    requires forall j: nat | from <= j < i :: !OccursAt(s, p, j)
    ensures IndexOf(s, p, from) == i
    decreases i - from
  {
    if from < i {
      IndexOfIs(s, p, from + 1, i);
    }
  }

  // ---------------------------------------------------------------------------
  // Python strip / rstrip

  function LStrip(s: string): (r: string)
    ensures |r| <= |s| && r == s[|s| - |r|..]
    ensures r == [] || !IsPySpace(r[0])
    decreases |s|
  {
    if s != [] && IsPySpace(s[0]) then LStrip(s[1..]) else s
  }

  function RStrip(s: string): (r: string)
    ensures |r| <= |s| && r == s[..|r|]
    ensures r == [] || !IsPySpace(r[|r| - 1])
    ensures forall i | |r| <= i < |s| :: IsPySpace(s[i])
    decreases |s|
  {
    if s != [] && IsPySpace(s[|s| - 1]) then RStrip(s[..|s| - 1]) else s
  }

  /** Python `s.strip()`. */
  function Strip(s: string): (r: string)
    ensures r == [] || (!IsPySpace(r[0]) && !IsPySpace(r[|r| - 1]))
  {
    LStrip(RStrip(s))
  }

  lemma StripNoEdgeSpace(s: string)
    requires s == [] || (!IsPySpace(s[0]) && !IsPySpace(s[|s| - 1]))
    ensures Strip(s) == s
  {
  }

  /** Stripping twice is the same as stripping once. */
  lemma StripIdempotent(s: string)
    ensures Strip(Strip(s)) == Strip(s)
  {
    StripNoEdgeSpace(Strip(s));
  }

  /** Python `s.rstrip(c)` for a one-character argument. */
  function RStripChar(s: string, c: char): (r: string)
    ensures |r| <= |s| && r == s[..|r|]
    ensures r == [] || r[|r| - 1] != c
    ensures forall i | |r| <= i < |s| :: s[i] == c
    decreases |s|
  {
    if s != [] && s[|s| - 1] == c then RStripChar(s[..|s| - 1], c) else s
  }

  // ---------------------------------------------------------------------------
  // Python split / join

  /**
   * Python `s.split()`: the maximal runs of non-whitespace, in order. Defined
   * one character at a time: a non-space character either starts a new word or,
   * when the next character is also non-space, goes in front of the next word.
   */
  function Split(s: string): (parts: seq<string>)
    ensures forall k | 0 <= k < |parts| :: IsWord(parts[k])
    ensures s != [] && !IsPySpace(s[0]) ==> parts != [] && parts[0] != [] && parts[0][0] == s[0]
    decreases |s|
  {
    if s == [] then []
    else
      var rest := Split(s[1..]);
      if IsPySpace(s[0]) then rest
      else if |s| > 1 && !IsPySpace(s[1]) then
        assert s[1..][0] == s[1];
        [[s[0]] + rest[0]] + rest[1..]
      else [[s[0]]] + rest
  }

  /** Python `sep.join(parts)`. */
  function Join(parts: seq<string>, sep: string): string {
    if parts == [] then ""
    else if |parts| == 1 then parts[0]
    else parts[0] + sep + Join(parts[1..], sep)
  }

  /** A word followed by nothing or by whitespace splits off as the first part. */
  lemma {:induction false} SplitWordThen(w: string, rest: string)
    requires IsWord(w)
    requires rest == [] || IsPySpace(rest[0])
    ensures Split(w + rest) == [w] + Split(rest)
    decreases |w|
  {
    var s := w + rest;
    assert s[1..] == w[1..] + rest;
    if |w| == 1 {
      assert w == [s[0]];
    } else {
      SplitWordThen(w[1..], rest);
      assert s[1] == w[1];
      assert [s[0]] + w[1..] == w;
    }
  }

  lemma SplitLeadingSpace(x: string)
    requires x != [] && IsPySpace(x[0])
    ensures Split(x) == Split(x[1..])
  {
  }

  /** One step of the round trip: a word in front of an already round-tripping list. */
  lemma SplitJoinCons(words: seq<string>)
    requires |words| >= 2 && IsWord(words[0])
    requires Split(Join(words[1..], " ")) == words[1..]
    ensures Split(Join(words, " ")) == words
  {
    var w := words[0];
    var j := Join(words[1..], " ");
    var s := w + (" " + j);
    assert Join(words, " ") == s;
    assert Split(s) == [w] + Split(" " + j) by {
      SplitWordThen(w, " " + j);
    }
    assert Split(" " + j) == Split(j) by {
      SplitLeadingSpace(" " + j);
      assert (" " + j)[1..] == j;
    }
    assert [w] + words[1..] == words;
  }

  lemma SplitOneWord(w: string)
    requires IsWord(w)
    ensures Split(Join([w], " ")) == [w]
  {
    assert Join([w], " ") == w;
    SplitWordThen(w, []);
    assert w + [] == w;
  }

  /** Joining non-empty words with single spaces and splitting gives the words back. */
  lemma {:induction false} SplitJoinWords(words: seq<string>)
    requires forall k | 0 <= k < |words| :: IsWord(words[k])
    ensures Split(Join(words, " ")) == words
    decreases |words|
  {
    if |words| >= 2 {
      SplitJoinWords(words[1..]);
      SplitJoinCons(words);
    }
    else if words != [] {
      assert words == [words[0]];
      SplitOneWord(words[0]);
    }
  }

  lemma JoinStartsWithFirst(parts: seq<string>, sep: string)
    requires parts != [] && parts[0] != []
    ensures Join(parts, sep) != [] && Join(parts, sep)[0] == parts[0][0]
  {
  }

  /** Python `s.split(c)` for a one-character separator: never empty, parts free of `c`. */
  function SplitOn(s: string, c: char): (parts: seq<string>)
    ensures |parts| >= 1
    ensures forall k | 0 <= k < |parts| :: c !in parts[k]
    decreases |s|
  {
    if s == [] then [""]
    else
      var rest := SplitOn(s[1..], c);
      if s[0] == c then [""] + rest else [[s[0]] + rest[0]] + rest[1..]
  }

  /** Splitting on `c` and joining with `c` is the identity. */
  lemma {:induction false} JoinSplitOn(s: string, c: char)
    ensures Join(SplitOn(s, c), [c]) == s
    decreases |s|
  {
    if s != [] {
      var rest := SplitOn(s[1..], c);
      JoinSplitOn(s[1..], c);
      if s[0] == c {
        assert SplitOn(s, c) == [""] + rest;
        assert ([""] + rest)[1..] == rest;
        assert s == [c] + s[1..];
      } else {
        var parts := [[s[0]] + rest[0]] + rest[1..];
        assert SplitOn(s, c) == parts;
        if |rest| == 1 {
          assert s == [s[0]] + s[1..];
        } else {
          assert parts[1..] == rest[1..];
          assert Join(rest, [c]) == rest[0] + [c] + Join(rest[1..], [c]);
          assert s == [s[0]] + s[1..];
        }
      }
    }
  }

  // ---------------------------------------------------------------------------
  // Python replace

  /** Python `s.replace(old, new)`: left-to-right, non-overlapping. */
  function Replace(s: string, pat: string, rep: string): string
    decreases |s|
  {
    if pat == [] then rep + (if s == [] then [] else [s[0]] + Replace(s[1..], pat, rep))
    else if |s| < |pat| then s
    else if s[..|pat|] == pat then rep + Replace(s[|pat|..], pat, rep)
    else [s[0]] + Replace(s[1..], pat, rep)
  }

  /** A placeholder that does not occur is left alone. */
  lemma {:induction false} ReplaceAbsent(s: string, pat: string, rep: string)
    requires pat != [] && !Contains(s, pat)
    ensures Replace(s, pat, rep) == s
    decreases |s|
  {
    if |s| >= |pat| {
      assert !OccursAt(s, pat, 0);
      assert !Contains(s[1..], pat) by {
        forall i: nat | i <= |s[1..]| ensures !OccursAt(s[1..], pat, i) {
          assert !OccursAt(s, pat, i + 1);
          if i + |pat| <= |s[1..]| {
            assert s[i + 1..i + 1 + |pat|] == s[1..][i..i + |pat|];
          }
        }
      }
      ReplaceAbsent(s[1..], pat, rep);
      assert s == [s[0]] + s[1..];
    }
  }

  // ---------------------------------------------------------------------------
  // Integers as text

  function NatToString(n: nat): (s: string)
    ensures |s| >= 1 && forall i | 0 <= i < |s| :: IsDigit(s[i])
    decreases n
  {
    if n < 10 then [DigitChar(n)] else NatToString(n / 10) + [DigitChar(n % 10)]
  }

  /** Python `str(i)` for an integer. */
  function IntToString(i: int): string {
    if i < 0 then "-" + NatToString(-i) else NatToString(i)
  }

  predicate AllDigits(s: string) {
    forall i | 0 <= i < |s| :: IsDigit(s[i])
  }

  /** The decimal value of a string of digits. */
  function DigitsValue(s: string): nat
    requires AllDigits(s)
    decreases |s|
  {
    if s == [] then 0 else DigitsValue(s[..|s| - 1]) * 10 + DigitValue(s[|s| - 1])
  }

  lemma {:induction false} DigitsValueOfNatToString(n: nat)
    ensures DigitsValue(NatToString(n)) == n
    decreases n
  {
    if n >= 10 {
      DigitsValueOfNatToString(n / 10);
      var s := NatToString(n);
      assert s[..|s| - 1] == NatToString(n / 10);
    }
  }

  /** The digits of `s` with the underscores taken out. */
  function WithoutUnderscores(s: string): (r: string)
    ensures |r| <= |s|
    ensures (forall i | 0 <= i < |s| :: IsDigit(s[i]) || s[i] == '_') ==> AllDigits(r)
    ensures AllDigits(s) ==> r == s
  {
    if s == [] then []
    else (if s[0] == '_' then [] else [s[0]]) + WithoutUnderscores(s[1..])
  }

  /** Digits, optionally grouped by single underscores between digits (Python integer literal). */
  predicate IsDigitGroups(s: string) {
    && s != []
    && IsDigit(s[0]) && IsDigit(s[|s| - 1])
    && (forall i | 0 <= i < |s| :: IsDigit(s[i]) || s[i] == '_')
    && (forall i | 0 <= i < |s| - 1 :: !(s[i] == '_' && s[i + 1] == '_'))
  }

  /**
   * Python `int(s)` for a string: surrounding whitespace is ignored, one optional
   * sign, then ASCII decimal digits (single underscores allowed between digits).
   * `None` stands for the `ValueError` Python raises.
   */
  function ParsePyInt(s: string): (r: Option<int>)
    ensures Strip(s) == [] ==> r == None
  {
    ParseStrippedInt(Strip(s))
  }

  /** What `int()` makes of text that has already been stripped. */
  function ParseStrippedInt(t: string): Option<int> {
    if t == [] then None
    else
      var neg := t[0] == '-';
      var body := if t[0] == '-' || t[0] == '+' then t[1..] else t;
      if !IsDigitGroups(body) then None
      else
        var v: int := DigitsValue(WithoutUnderscores(body));
        Some(if neg then -v else v)
  }

  /** The text of the body after the optional sign, as `ParsePyInt` reads it. */
  lemma ParseUnsignedBody(t: string)
    requires t != [] && Strip(t) == t && IsDigitGroups(t)
    ensures ParsePyInt(t) == Some(DigitsValue(WithoutUnderscores(t)) as int)
  {
  }

  lemma ParseMinusBody(t: string, body: string)
    requires t != [] && Strip(t) == t && t[0] == '-' && t[1..] == body && IsDigitGroups(body)
    ensures ParsePyInt(t) == Some(-(DigitsValue(WithoutUnderscores(body)) as int))
  {
  }

  lemma ParseDigits(d: string)
    requires d != [] && AllDigits(d)
    ensures ParsePyInt(d) == Some(DigitsValue(d) as int)
  {
    assert Strip(d) == d by {
      assert IsDigit(d[0]) && IsDigit(d[|d| - 1]);
      StripNoEdgeSpace(d);
    }
    assert IsDigitGroups(d);
    assert WithoutUnderscores(d) == d;
    ParseUnsignedBody(d);
  }

  lemma MinusDigitsFacts(t: string, d: string)
    requires d != [] && AllDigits(d)
    requires |t| == |d| + 1 && t[0] == '-' && t[1..] == d
    ensures Strip(t) == t && IsDigitGroups(d) && WithoutUnderscores(d) == d
  {
    assert t[|t| - 1] == d[|d| - 1];
    StripNoEdgeSpace(t);
  }

  lemma ParseNegDigits(t: string, d: string)
    requires d != [] && AllDigits(d)
    requires |t| == |d| + 1 && t[0] == '-' && t[1..] == d
    ensures ParsePyInt(t) == Some(-(DigitsValue(d) as int))
  {
    MinusDigitsFacts(t, d);
    ParseMinusBody(t, d);
  }

  lemma IntToStringShape(i: int)
    ensures var t := IntToString(i);
      if i < 0 then |t| == |NatToString(-i)| + 1 && t[0] == '-' && t[1..] == NatToString(-i)
      else t == NatToString(i)
  {
    if i < 0 {
      assert IntToString(i)[1..] == NatToString(-i);
    }
  }

  lemma ParseNegativeText(i: int, t: string)
    requires i < 0 && t == IntToString(i)
    ensures ParsePyInt(t) == Some(i)
  {
    var d := NatToString(-i);
    IntToStringShape(i);
    assert |t| == |d| + 1 && t[0] == '-' && t[1..] == d;
    assert d != [] && AllDigits(d);
    DigitsValueOfNatToString(-i);
    assert DigitsValue(d) == -i;
    ParseNegDigits(t, d);
    assert ParsePyInt(t) == Some(-(DigitsValue(d) as int));
  }

  lemma ParseNonNegativeText(i: int, t: string)
    requires i >= 0 && t == IntToString(i)
    ensures ParsePyInt(t) == Some(i)
  {
    IntToStringShape(i);
    DigitsValueOfNatToString(i);
    ParseDigits(NatToString(i));
  }

  /** `int(str(i)) == i`: the text of an integer parses back to it. */
  lemma ParseIntToString(i: int)
    ensures ParsePyInt(IntToString(i)) == Some(i)
  {
    if i < 0 {
      ParseNegativeText(i, IntToString(i));
    } else {
      ParseNonNegativeText(i, IntToString(i));
    }
  }

  // ---------------------------------------------------------------------------
  // Arduino String::toInt (C atol)

  function DropCSpace(s: string): (r: string)
    ensures |r| <= |s|
    decreases |s|
  {
    if s != [] && IsCSpace(s[0]) then DropCSpace(s[1..]) else s
  }

  /** The longest prefix of `s` made of digits. */
  function DigitPrefix(s: string): (r: string)
    ensures AllDigits(r) && |r| <= |s| && r == s[..|r|]
    ensures |r| == |s| || !IsDigit(s[|r|])
  {
    if s != [] && IsDigit(s[0]) then [s[0]] + DigitPrefix(s[1..]) else []
  }

  /**
   * Arduino `String::toInt`, i.e. C `atol`: leading whitespace, an optional
   * sign, then as many digits as follow; 0 when there are none.
   */
  function AtoL(s: string): int {
    var t := DropCSpace(s);
    if t != [] && (t[0] == '-' || t[0] == '+') then
      var v: int := DigitsValue(DigitPrefix(t[1..]));
      if t[0] == '-' then -v else v
    else DigitsValue(DigitPrefix(t))
  }
}
