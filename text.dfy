/**
 * The parts of Kotlin's string library the widget relies on: whitespace,
 * `isBlank`, `trim`, `endsWith`, `compareTo` (lexicographic order) and the
 * decimal rendering of an `Int` inside a string template.
 */
module Text {

  /** Kotlin's `Char.isWhitespace`: Java whitespace or a Unicode space separator. */
  predicate IsWhitespace(c: char) {
    || ('\U{9}' <= c <= '\U{D}')
    || ('\U{1C}' <= c <= '\U{20}')
    || c == '\U{A0}' || c == '\U{1680}'
    || ('\U{2000}' <= c <= '\U{200A}')
    || c == '\U{2028}' || c == '\U{2029}' || c == '\U{202F}' || c == '\U{205F}'
    || c == '\U{3000}'
  }

  /** `CharSequence.isBlank`: empty or whitespace only. */
  predicate IsBlank(s: string) {
    forall i :: 0 <= i < |s| ==> IsWhitespace(s[i])
  }

  /** Drops leading whitespace; what it drops is blank and what is left starts with a non-blank. */
  function TrimStart(s: string): (r: string)
    ensures |r| <= |s| && r == s[|s| - |r|..]
    ensures IsBlank(s[..|s| - |r|])
    ensures r == [] || !IsWhitespace(r[0])
  {
    if s != [] && IsWhitespace(s[0]) then
      var r := TrimStart(s[1..]);
      var tail := s[1..];
      assert forall i :: 1 <= i < |s| - |r| ==> s[i] == tail[i - 1];
      r
    else s
  }

  /** Drops trailing whitespace; what it drops is blank and what is left ends with a non-blank. */
  function TrimEnd(s: string): (r: string)
    ensures |r| <= |s| && r == s[..|r|]
    ensures IsBlank(s[|r|..])
    ensures r == [] || !IsWhitespace(r[|r| - 1])
  {
    if s != [] && IsWhitespace(s[|s| - 1]) then
      var r := TrimEnd(s[..|s| - 1]);
      assert s[|r|..] == s[..|s| - 1][|r|..] + [s[|s| - 1]];
      r
    else s
  }

  /** `String.trim()`: both ends stripped of whitespace; empty exactly for a blank input. */
  function Trim(s: string): (r: string)
    ensures |r| <= |s|
    ensures r == [] || (!IsWhitespace(r[0]) && !IsWhitespace(r[|r| - 1]))
    ensures r == [] <==> IsBlank(s)
  {
    var t := TrimStart(s);
    TrimEndKeepsStart(t);
    BlankSplit(s[..|s| - |t|], t);
    assert s == s[..|s| - |t|] + t;
    TrimEnd(t)
  }

  lemma TrimEndKeepsStart(t: string)
    requires t == [] || !IsWhitespace(t[0])
    ensures TrimEnd(t) == [] <==> t == []
    ensures TrimEnd(t) == [] || !IsWhitespace(TrimEnd(t)[0])
  {
    var r := TrimEnd(t);
  }

  lemma BlankSplit(a: string, b: string)
    requires IsBlank(a)
    ensures IsBlank(a + b) <==> IsBlank(b)
  {
    if IsBlank(b) {
      assert forall i :: 0 <= i < |a + b| ==> (a + b)[i] == if i < |a| then a[i] else b[i - |a|];
    }
    if IsBlank(a + b) {
      assert forall i :: 0 <= i < |b| ==> b[i] == (a + b)[i + |a|];
    }
  }

  /** Whitespace around a string with no whitespace at either end is exactly what `trim` removes. */
  lemma {:induction false} TrimInverse(before: string, core: string, after: string)
    requires IsBlank(before) && IsBlank(after)
    requires core == [] || (!IsWhitespace(core[0]) && !IsWhitespace(core[|core| - 1]))
    ensures Trim(before + core + after) == core
  {
    assert before + core + after == before + (core + after);
    if core == [] {
      assert core + after == after;
      TrimStartOfBlank(before, after);
    } else {
      TrimStartOfBlank(before, core + after);
      assert (core + after)[0] == core[0];
      TrimEndOfBlank(core, after);
    }
  }

  lemma {:induction false} TrimStartOfBlank(blank: string, rest: string)
    requires IsBlank(blank)
    requires rest == [] || !IsWhitespace(rest[0]) || IsBlank(rest)
    ensures TrimStart(blank + rest) == TrimStart(rest)
  {
    if blank != [] {
      assert (blank + rest)[1..] == blank[1..] + rest;
      TrimStartOfBlank(blank[1..], rest);
    }
  }

  lemma {:induction false} TrimEndOfBlank(core: string, blank: string)
    requires IsBlank(blank)
    requires core == [] || !IsWhitespace(core[|core| - 1])
    ensures TrimEnd(core + blank) == core
  {
    if blank != [] {
      assert (core + blank)[..|core + blank| - 1] == core + blank[..|blank| - 1];
      TrimEndOfBlank(core, blank[..|blank| - 1]);
    } else {
      assert core + blank == core;
    }
  }

  /** `trim` is idempotent. */
  lemma TrimIdempotent(s: string)
    ensures Trim(Trim(s)) == Trim(s)
  {
    var t := Trim(s);
    TrimInverse([], t, []);
    assert [] + t + [] == t;
  }

  /** `String.endsWith`. */
  predicate EndsWith(s: string, suffix: string) {
    |suffix| <= |s| && s[|s| - |suffix|..] == suffix
  }

  /** `a.compareTo(b) < 0`: lexicographic order by character, a proper prefix first. */
  predicate LexLess(a: string, b: string) {
    if a == [] then b != []
    else if b == [] then false
    else a[0] < b[0] || (a[0] == b[0] && LexLess(a[1..], b[1..]))
  }

  /** No string sorts before itself. */
  lemma {:induction false} LexLessIrreflexive(a: string)
    ensures !LexLess(a, a)
  {
    if a != [] { LexLessIrreflexive(a[1..]); }
  }

  /** Lexicographic order is total: distinct strings are ordered one way or the other. */
  lemma {:induction false} LexLessTotal(a: string, b: string)
    ensures a == b || LexLess(a, b) || LexLess(b, a)
  {
    if a != [] && b != [] && a[0] == b[0] {
      LexLessTotal(a[1..], b[1..]);
      if a[1..] == b[1..] { assert a == [a[0]] + a[1..] && b == [b[0]] + b[1..]; }
    }
  }

  /** No two strings sort before each other. */
  lemma {:induction false} LexLessAsymmetric(a: string, b: string)
    ensures !(LexLess(a, b) && LexLess(b, a))
  {
    if a != [] && b != [] && a[0] == b[0] { LexLessAsymmetric(a[1..], b[1..]); }
  }

  /** Equal up to position `k`, and smaller there: smaller. */
  lemma {:induction false} LexLessAt(a: string, b: string, k: nat)
    requires k < |a| && k < |b| && a[..k] == b[..k] && a[k] < b[k]
    ensures LexLess(a, b)
  {
    if k > 0 {
      assert a[0] == a[..k][0] == b[..k][0] == b[0];
      assert a[1..][..k - 1] == a[1..k] == a[..k][1..];
      assert b[1..][..k - 1] == b[1..k] == b[..k][1..];
      LexLessAt(a[1..], b[1..], k - 1);
    }
  }

  /** Comparing two strings whose first parts have the same length compares those first parts first. */
  lemma {:induction false} LexLessConcat(p: string, x: string, q: string, y: string)
    requires |p| == |q|
    ensures LexLess(p + x, q + y) <==> LexLess(p, q) || (p == q && LexLess(x, y))
  {
    if p != [] {
      assert (p + x)[1..] == p[1..] + x && (p + y)[1..] == p[1..] + y;
      assert (q + y)[1..] == q[1..] + y;
      LexLessConcat(p[1..], x, q[1..], y);
      assert p == q <==> p[0] == q[0] && p[1..] == q[1..] by {
        if p[0] == q[0] && p[1..] == q[1..] { assert p == [p[0]] + p[1..] && q == [q[0]] + q[1..]; }
      }
    } else {
      assert p + x == x && q + y == y;
    }
  }

  /**
   * `lowercase()` as far as the widget compares its result: Latin capitals
   * become small letters. Other characters are kept; no other character
   * lowercases to a plain Latin small letter, so comparisons with ASCII words
   * come out as they do under full Unicode lowercasing.
   */
  function LowerChar(c: char): char {
    if 'A' <= c <= 'Z' then (c as int + 32) as char else c
  }

  function Lowercase(s: string): (r: string)
    ensures |r| == |s|
  {
    if s == [] then [] else [LowerChar(s[0])] + Lowercase(s[1..])
  }

  /** `s.lowercase() == word`, compared character by character. */
  predicate LowercaseIs(s: string, word: string) {
    |s| == |word| && (s == [] || (LowerChar(s[0]) == word[0] && LowercaseIs(s[1..], word[1..])))
  }

  lemma {:induction false} LowercaseIsLowercase(s: string, word: string)
    ensures LowercaseIs(s, word) <==> Lowercase(s) == word
  {
    if s != [] && |s| == |word| {
      LowercaseIsLowercase(s[1..], word[1..]);
      assert Lowercase(s) == [LowerChar(s[0])] + Lowercase(s[1..]);
      if Lowercase(s) == word {
        assert Lowercase(s)[1..] == Lowercase(s[1..]);
      }
      assert word == [word[0]] + word[1..];
    }
  }

  predicate IsDigit(c: char) {
    '0' <= c <= '9'
  }

  function DigitChar(d: nat): (c: char)
    requires d < 10
    ensures IsDigit(c)
  {
    ('0' as int + d) as char
  }

  function DigitValue(c: char): nat
    requires IsDigit(c)
  {
    (c as int - '0' as int) as nat
  }

  /** Decimal digits of a natural number, most significant first, no leading zeros. */
  function NatToString(n: nat): (s: string)
    ensures s != [] && forall i :: 0 <= i < |s| ==> IsDigit(s[i])
    decreases n
  {
    if n < 10 then [DigitChar(n)] else NatToString(n / 10) + [DigitChar(n % 10)]
  }

  /** The number a string of digits denotes. */
  function DigitsValue(s: string): nat
    requires forall i :: 0 <= i < |s| ==> IsDigit(s[i])
  {
    if s == [] then 0 else 10 * DigitsValue(s[..|s| - 1]) + DigitValue(s[|s| - 1])
  }

  /** Reading back the digits of `n` gives `n`. */
  lemma {:induction false} NatToStringRoundTrip(n: nat)
    ensures DigitsValue(NatToString(n)) == n
    decreases n
  {
    if n >= 10 {
      var s := NatToString(n);
      assert s[..|s| - 1] == NatToString(n / 10);
      NatToStringRoundTrip(n / 10);
    }
  }

  /** An `Int` in a string template: a minus sign before the digits of a negative number. */
  function IntToString(n: int): (s: string)
    ensures s != []
  {
    if n < 0 then "-" + NatToString(-n) else NatToString(n)
  }

  /** Different numbers render differently. */
  lemma IntToStringInjective(a: int, b: int)
    requires IntToString(a) == IntToString(b)
    ensures a == b
  {
    var s := IntToString(a);
    assert a < 0 <==> s[0] == '-' by {
      if a >= 0 { assert IsDigit(NatToString(a)[0]); }
    }
    assert b < 0 <==> s[0] == '-' by {
      if b >= 0 { assert IsDigit(NatToString(b)[0]); }
    }
    if a < 0 {
      assert NatToString(-a) == s[1..] == NatToString(-b);
      NatToStringRoundTrip(-a);
      NatToStringRoundTrip(-b);
    } else {
      NatToStringRoundTrip(a);
      NatToStringRoundTrip(b);
    }
  }
}
