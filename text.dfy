/**
 * The handful of Python string operations the assistant relies on, restricted to ASCII:
 * `str.strip()`, `str.splitlines()`, `"x" in s`, `str.isdigit` and `int(...)` of a digit string,
 * together with `str(n)` for a natural number (used when the final score is printed).
 */
module Text {

  /** Python's `str.isspace` on the ASCII range: TAB, LF, VT, FF, CR, the separators 0x1C-0x1F and SPACE. */
  predicate IsSpace(c: char) {
    ('\t' <= c <= '\r') || ('\U{1C}' <= c <= ' ')
  }

  predicate AllSpace(s: string) {
    forall i :: 0 <= i < |s| ==> IsSpace(s[i])
  }

  /** Python's `str.isdigit` on the ASCII range. */
  predicate IsDigit(c: char) {
    '0' <= c <= '9'
  }

  predicate AllDigits(s: string) {
    forall i :: 0 <= i < |s| ==> IsDigit(s[i])
  }

  // ---------------------------------------------------------------------------
  // str.strip()
  // ---------------------------------------------------------------------------

  /** The number of whitespace characters at the start of `s`. */
  function LeadingSpaces(s: string): (n: nat)
    ensures n <= |s|
  {
    if s != [] && IsSpace(s[0]) then 1 + LeadingSpaces(s[1..]) else 0
  }

  /** `LeadingSpaces` counts whitespace up to the first other character. */
  lemma {:induction false} LeadingSpacesSpec(s: string)
    ensures forall i :: 0 <= i < LeadingSpaces(s) ==> IsSpace(s[i])
    ensures LeadingSpaces(s) == |s| || !IsSpace(s[LeadingSpaces(s)])
    decreases |s|
  {
    if s != [] && IsSpace(s[0]) {
      LeadingSpacesSpec(s[1..]);
      assert forall i :: 1 <= i < |s| ==> s[i] == s[1..][i - 1];
    }
  }

  /** The number of whitespace characters at the end of `s`. */
  function TrailingSpaces(s: string): (n: nat)
    ensures n <= |s|
  {
    if s != [] && IsSpace(s[|s| - 1]) then 1 + TrailingSpaces(s[..|s| - 1]) else 0
  }

  /** `TrailingSpaces` counts whitespace back to the last other character. */
  lemma {:induction false} TrailingSpacesSpec(s: string)
    ensures forall i :: |s| - TrailingSpaces(s) <= i < |s| ==> IsSpace(s[i])
    ensures TrailingSpaces(s) == |s| || !IsSpace(s[|s| - TrailingSpaces(s) - 1])
    decreases |s|
  {
    if s != [] && IsSpace(s[|s| - 1]) {
      TrailingSpacesSpec(s[..|s| - 1]);
      assert forall i :: 0 <= i < |s| - 1 ==> s[i] == s[..|s| - 1][i];
    }
  }

  /** `r` is `s` with nothing but whitespace removed on either side. */
  ghost predicate PaddedBy(s: string, r: string) {
    exists i :: 0 <= i <= |s| - |r| && s[i..i + |r|] == r && AllSpace(s[..i]) && AllSpace(s[i + |r|..])
  }

  /** Neither end of `r` is whitespace. */
  predicate Trimmed(r: string) {
    r == [] || (!IsSpace(r[0]) && !IsSpace(r[|r| - 1]))
  }

  /** Python's `s.strip()`: leading and trailing whitespace removed (its contract is `StripSpec`). */
  function Strip(s: string): string {
    var t := s[LeadingSpaces(s)..];
    t[..|t| - TrailingSpaces(t)]
  }

  /** `strip` removes only whitespace, and all of it at both ends. */
  lemma StripSpec(s: string)
    ensures Trimmed(Strip(s))
    ensures PaddedBy(s, Strip(s))
  {
    StripIsTrimmed(s);
    StripIsPadded(s);
  }

  lemma StripIsTrimmed(s: string)
    ensures Trimmed(Strip(s))
  {
    var lead := LeadingSpaces(s);
    var t := s[lead..];
    var trail := TrailingSpaces(t);
    var r := t[..|t| - trail];
    LeadingSpacesSpec(s);
    TrailingSpacesSpec(t);
    assert r == Strip(s);
    assert r != [] ==> r[0] == s[lead] && r[|r| - 1] == t[|t| - trail - 1];
  }

  lemma StripIsPadded(s: string)
    ensures PaddedBy(s, Strip(s))
  {
    var lead := LeadingSpaces(s);
    var t := s[lead..];
    var trail := TrailingSpaces(t);
    var r := t[..|t| - trail];
    assert r == Strip(s);
    assert s[lead..lead + |r|] == r;
    LeadingSpacesAreSpace(s);
    TrailingSpacesAreSpace(t);
    assert s[lead + |r|..] == t[|t| - trail..];
  }

  lemma LeadingSpacesAreSpace(s: string)
    ensures AllSpace(s[..LeadingSpaces(s)])
  {
    LeadingSpacesSpec(s);
    assert forall k :: 0 <= k < LeadingSpaces(s) ==> s[..LeadingSpaces(s)][k] == s[k];
  }

  lemma TrailingSpacesAreSpace(t: string)
    ensures AllSpace(t[|t| - TrailingSpaces(t)..])
  {
    var trail := TrailingSpaces(t);
    TrailingSpacesSpec(t);
    assert forall k :: |t| - trail <= k < |t| ==> t[|t| - trail..][k - (|t| - trail)] == t[k];
  }

  /** `LeadingSpaces` stops at the first character that is not whitespace. */
  lemma LeadingSpacesAt(s: string, i: nat)
    requires i <= |s| && AllSpace(s[..i]) && (i == |s| || !IsSpace(s[i]))
    ensures LeadingSpaces(s) == i
  {
    LeadingSpacesSpec(s);
    assert forall k :: 0 <= k < i ==> s[k] == s[..i][k];
  }

  /** `TrailingSpaces` stops at the last character that is not whitespace. */
  lemma TrailingSpacesAt(s: string, j: nat)
    requires j <= |s| && AllSpace(s[|s| - j..]) && (j == |s| || !IsSpace(s[|s| - j - 1]))
    ensures TrailingSpaces(s) == j
  {
    TrailingSpacesSpec(s);
    assert forall k :: |s| - j <= k < |s| ==> s[k] == s[|s| - j..][k - (|s| - j)];
  }

  /** `Strip` is the only way to cut `s` into whitespace, a trimmed middle and whitespace. */
  lemma StripUnique(s: string, m: string)
    requires PaddedBy(s, m) && Trimmed(m)
    ensures Strip(s) == m
  {
    var i :| 0 <= i <= |s| - |m| && s[i..i + |m|] == m && AllSpace(s[..i]) && AllSpace(s[i + |m|..]);
    if m == [] {
      StripAllSpace(s, i);
    } else {
      StripAround(s, m, i);
    }
  }

  /** A text of whitespace only strips to nothing. */
  lemma StripAllSpace(s: string, i: nat)
    requires i <= |s| && AllSpace(s[..i]) && AllSpace(s[i..])
    ensures Strip(s) == []
  {
    assert AllSpace(s) by {
      forall k | 0 <= k < |s| ensures IsSpace(s[k]) {
        if k < i { assert s[k] == s[..i][k]; } else { assert s[k] == s[i..][k - i]; }
      }
    }
    assert s[..|s|] == s;
    LeadingSpacesAt(s, |s|);
  }

  /** Whitespace, then a non-empty trimmed middle, then whitespace, strips to the middle. */
  lemma StripAround(s: string, m: string, i: nat)
    requires m != [] && Trimmed(m)
    requires i + |m| <= |s| && s[i..i + |m|] == m && AllSpace(s[..i]) && AllSpace(s[i + |m|..])
    ensures Strip(s) == m
  {
    assert s[i] == m[0];
    LeadingSpacesAt(s, i);
    var t := s[i..];
    var q := s[i + |m|..];
    assert t == m + q;
    assert t[|t| - |q|..] == q;
    assert t[|t| - |q| - 1] == m[|m| - 1];
    TrailingSpacesAt(t, |q|);
    assert t[..|t| - |q|] == m;
  }

  /** A trimmed, non-empty text is its own `strip()`. */
  lemma StripTrimmed(s: string)
    requires s != [] && Trimmed(s)
    ensures Strip(s) == s
  {
    assert s[0..0 + |s|] == s && s[..0] == [] && s[|s|..] == [];
    StripUnique(s, s);
  }

  lemma StripIdempotent(s: string)
    ensures Strip(Strip(s)) == Strip(s)
  {
    var r := Strip(s);
    StripSpec(s);
    assert r[0..0 + |r|] == r && r[..0] == [] && r[|r|..] == [];
    StripUnique(r, r);
  }

  // ---------------------------------------------------------------------------
  // str.split('\n'), str.splitlines() and "\n".join(...)
  // ---------------------------------------------------------------------------

  /** The pieces of `s` between line feeds, as Python's `s.split("\n")` gives them. */
  function SplitOn(s: string): (r: seq<string>)
    ensures |r| >= 1
    ensures forall k :: 0 <= k < |r| ==> '\n' !in r[k]
  {
    if s == [] then [[]]
    else if s[0] == '\n' then [[]] + SplitOn(s[1..])
    else
      var rest := SplitOn(s[1..]);
      [[s[0]] + rest[0]] + rest[1..]
  }

  /** Python's `sep.join(parts)`. */
  function Join(sep: string, parts: seq<string>): string {
    if |parts| == 0 then []
    else if |parts| == 1 then parts[0]
    else parts[0] + sep + Join(sep, parts[1..])
  }

  /** Python's `"\n".join(lines)`. */
  function JoinLines(lines: seq<string>): string {
    Join("\n", lines)
  }

  /**
   * Python's `s.splitlines()` with LF as the only line break: the empty string has no lines,
   * and a line feed at the very end does not start another line.
   */
  function SplitLines(s: string): (r: seq<string>)
    ensures forall k :: 0 <= k < |r| ==> '\n' !in r[k]
    ensures s == [] <==> r == []
  {
    if s == [] then []
    else if s[|s| - 1] == '\n' then SplitOn(s[..|s| - 1])
    else SplitOn(s)
  }

  lemma {:induction false} JoinSplitOn(s: string)
    ensures JoinLines(SplitOn(s)) == s
    decreases |s|
  {
    if s == [] {
    } else if s[0] == '\n' {
      JoinSplitOn(s[1..]);
      assert s == [] + "\n" + s[1..];
    } else {
      var rest := SplitOn(s[1..]);
      JoinSplitOn(s[1..]);
      if |rest| == 1 {
      } else {
        assert JoinLines(rest) == rest[0] + "\n" + JoinLines(rest[1..]);
        var r := [[s[0]] + rest[0]] + rest[1..];
        assert r[1..] == rest[1..];
      }
      assert s == [s[0]] + s[1..];
    }
  }

  lemma {:induction false} SplitOnJoin(lines: seq<string>)
    requires |lines| >= 1
    requires forall k :: 0 <= k < |lines| ==> '\n' !in lines[k]
    ensures SplitOn(JoinLines(lines)) == lines
    decreases |lines|, |lines[0]|
  {
    var first := lines[0];
    if first == [] {
      if |lines| == 1 {
      } else {
        var s := JoinLines(lines);
        assert s == "\n" + JoinLines(lines[1..]);
        assert s[1..] == JoinLines(lines[1..]);
        SplitOnJoin(lines[1..]);
      }
    } else {
      var shorter := [first[1..]] + lines[1..];
      assert forall k :: 0 <= k < |first[1..]| ==> first[1..][k] == first[k + 1];
      assert forall k :: 1 <= k < |shorter| ==> shorter[k] == lines[k];
      SplitOnJoin(shorter);
      var s := JoinLines(lines);
      if |lines| == 1 {
        assert s == [first[0]] + JoinLines(shorter);
      } else {
        assert shorter[1..] == lines[1..];
        assert s == [first[0]] + JoinLines(shorter);
      }
      assert s[0] == first[0] && s[0] != '\n';
      assert s[1..] == JoinLines(shorter);
      assert [first[0]] + first[1..] == first;
    }
  }

  lemma JoinThreeLines(a: string, b: string, c: string)
    ensures JoinLines([a, b, c]) == a + "\n" + b + "\n" + c
  {
    assert [a, b, c][1..] == [b, c] && [b, c][1..] == [c];
    assert Join("\n", [c]) == c;
    assert Join("\n", [b, c]) == b + "\n" + c;
    assert Join("\n", [a, b, c]) == a + "\n" + Join("\n", [b, c]);
  }

  /** `splitlines` loses nothing but a final line feed. */
  lemma JoinSplitLines(s: string)
    ensures JoinLines(SplitLines(s)) + (if s != [] && s[|s| - 1] == '\n' then "\n" else "") == s
  {
    if s == [] {
    } else if s[|s| - 1] == '\n' {
      JoinSplitOn(s[..|s| - 1]);
      assert s == s[..|s| - 1] + "\n";
    } else {
      JoinSplitOn(s);
    }
  }

  /** Lines without line feeds, the last of them not empty, come back from `splitlines` unchanged. */
  lemma SplitLinesJoin(lines: seq<string>)
    requires |lines| >= 1 && lines[|lines| - 1] != []
    requires forall k :: 0 <= k < |lines| ==> '\n' !in lines[k]
    ensures SplitLines(JoinLines(lines)) == lines
  {
    var s := JoinLines(lines);
    JoinLastChar(lines);
    SplitOnJoin(lines);
  }

  lemma {:induction false} JoinLastChar(lines: seq<string>)
    requires |lines| >= 1 && lines[|lines| - 1] != []
    ensures JoinLines(lines) != []
    ensures JoinLines(lines)[|JoinLines(lines)| - 1] == lines[|lines| - 1][|lines[|lines| - 1]| - 1]
    decreases |lines|
  {
    if |lines| > 1 {
      JoinLastChar(lines[1..]);
    }
  }

  /** The first line of `a + "\n" + b` is `a`, and the remaining lines are those of `b`. */
  lemma {:induction false} SplitOnFirstLine(a: string, b: string)
    requires '\n' !in a
    ensures SplitOn(a + "\n" + b) == [a] + SplitOn(b)
    decreases |a|
  {
    if a == [] {
      assert (a + "\n" + b)[1..] == b;
    } else {
      assert forall k :: 0 <= k < |a[1..]| ==> a[1..][k] == a[k + 1];
      SplitOnFirstLine(a[1..], b);
      assert (a + "\n" + b)[1..] == a[1..] + "\n" + b;
      assert [a[0]] + a[1..] == a;
    }
  }

  lemma SplitLinesFirstLine(a: string, b: string)
    requires '\n' !in a
    ensures SplitLines(a + "\n" + b)[0] == a
  {
    var s := a + "\n" + b;
    if b == [] {
      assert s[..|s| - 1] == a;
      assert SplitOn(a) == SplitOn(JoinLines([a]));
      SplitOnJoin([a]);
    } else if b[|b| - 1] == '\n' {
      assert s[..|s| - 1] == a + "\n" + b[..|b| - 1];
      SplitOnFirstLine(a, b[..|b| - 1]);
    } else {
      SplitOnFirstLine(a, b);
    }
  }

  // ---------------------------------------------------------------------------
  // "pat" in s
  // ---------------------------------------------------------------------------

  /** Python's `pat in s` for strings: `pat` occurs somewhere in `s`. */
  predicate HasInfix(s: string, pat: string) {
    exists i :: 0 <= i <= |s| - |pat| && OccursAt(s, pat, i)
  }

  predicate OccursAt(s: string, pat: string, i: nat)
    requires i + |pat| <= |s|
  {
    s[i..i + |pat|] == pat
  }

  // ---------------------------------------------------------------------------
  // "".join(filter(str.isdigit, s)), int(...) and str(n)
  // ---------------------------------------------------------------------------

  /** Python's `"".join(filter(str.isdigit, s))`: the digits of `s`, in order. */
  function Digits(s: string): (r: string)
    ensures |r| <= |s|
    ensures AllDigits(r)
  {
    if s == [] then []
    else if IsDigit(s[0]) then [s[0]] + Digits(s[1..])
    else Digits(s[1..])
  }

  /** The filter comes out empty exactly when `s` holds no digit. */
  lemma {:induction false} DigitsEmpty(s: string)
    ensures Digits(s) == [] <==> forall i :: 0 <= i < |s| ==> !IsDigit(s[i])
    decreases |s|
  {
    if s != [] {
      DigitsEmpty(s[1..]);
      assert forall i :: 1 <= i < |s| ==> s[i] == s[1..][i - 1];
    }
  }

  /** Filtering distributes over concatenation. */
  lemma {:induction false} DigitsAppend(a: string, b: string)
    ensures Digits(a + b) == Digits(a) + Digits(b)
    decreases |a|
  {
    if a == [] {
      assert a + b == b;
    } else {
      var ab := a + b;
      assert ab[0] == a[0] && ab[1..] == a[1..] + b;
      DigitsAppend(a[1..], b);
      var head := if IsDigit(a[0]) then [a[0]] else [];
      assert Digits(ab) == head + Digits(ab[1..]);
      assert Digits(a) == head + Digits(a[1..]);
    }
  }

  /** A string of digits is its own digit filter. */
  lemma {:induction false} DigitsOfDigits(s: string)
    requires AllDigits(s)
    ensures Digits(s) == s
    decreases |s|
  {
    if s != [] {
      DigitsOfDigits(s[1..]);
      assert [s[0]] + s[1..] == s;
    }
  }

  function DigitValue(c: char): (d: nat)
    requires IsDigit(c)
    ensures d < 10
  {
    (c - '0') as nat
  }

  function DigitChar(d: nat): (c: char)
    requires d < 10
    ensures IsDigit(c) && DigitValue(c) == d
  {
    ('0' as int + d) as char
  }

  function Pow10(n: nat): (p: nat)
    ensures p >= 1
  {
    if n == 0 then 1 else 10 * Pow10(n - 1)
  }

  /**
   * Python's `int(d)` for a non-empty string of decimal digits (leading zeros allowed). The empty
   * string, on which `int` raises, reads as 0 here; callers that follow `int`'s error path test for it.
   */
  function DecimalValue(d: string): (n: nat)
    requires AllDigits(d)
    ensures n < Pow10(|d|)
  {
    if d == [] then 0
    else 10 * DecimalValue(d[..|d| - 1]) + DigitValue(d[|d| - 1])
  }

  /** Python's `str(n)` for a natural number: its decimal digits, without leading zeros. */
  function DecimalString(n: nat): (s: string)
    ensures s != [] && AllDigits(s)
    ensures |s| > 1 ==> s[0] != '0'
  {
    if n < 10 then [DigitChar(n)]
    else DecimalString(n / 10) + [DigitChar(n % 10)]
  }

  /** Reading back a printed number gives the number. */
  lemma {:induction false} DecimalRoundTrip(n: nat)
    ensures DecimalValue(DecimalString(n)) == n
  {
    if n >= 10 {
      DecimalRoundTrip(n / 10);
      var s := DecimalString(n);
      assert s[..|s| - 1] == DecimalString(n / 10);
    }
  }

  /** Printing a parsed digit string gives it back, when it has no leading zero. */
  lemma {:induction false} DecimalStringOfValue(d: string)
    requires d != [] && AllDigits(d)
    requires |d| > 1 ==> d[0] != '0'
    ensures DecimalString(DecimalValue(d)) == d
    decreases |d|
  {
    var n := DecimalValue(d);
    var init := d[..|d| - 1];
    if |d| == 1 {
      assert n == DigitValue(d[0]);
    } else {
      assert init[0] == d[0];
      DecimalStringOfValue(init);
      var m := DecimalValue(init);
      assert m != 0 by {
        assert DecimalString(0) == ['0'];
      }
      assert n / 10 == m && n % 10 == DigitValue(d[|d| - 1]);
      assert d == init + [d[|d| - 1]];
    }
  }
}
