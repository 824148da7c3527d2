/**
 * The Kotlin string functions the application relies on, written out as scanners.
 * Case mapping covers ASCII letters only; whitespace is the JVM definition
 * used by Kotlin's `Char.isWhitespace()`.
 */
module Text {

  /** Kotlin `Char.isWhitespace()` on the JVM: `Character.isWhitespace(c) || Character.isSpaceChar(c)`. */
  predicate IsWhitespace(c: char) {
    || ('\t' <= c <= '\r')
    || ('\U{1C}' <= c <= ' ')
    || c == '\U{A0}' || c == '\U{1680}'
    || ('\U{2000}' <= c <= '\U{200A}')
    || c == '\U{2028}' || c == '\U{2029}' || c == '\U{202F}' || c == '\U{205F}' || c == '\U{3000}'
  }

  predicate NoWhitespace(s: string) {
    forall i :: 0 <= i < |s| ==> !IsWhitespace(s[i])
  }

  /** Kotlin `String.startsWith(prefix)`. */
  predicate StartsWith(s: string, prefix: string) {
    |prefix| <= |s| && s[..|prefix|] == prefix
  }

  /** Kotlin `String.endsWith(suffix)`. */
  predicate EndsWith(s: string, suffix: string) {
    |suffix| <= |s| && s[|s| - |suffix|..] == suffix
  }

  // ---------------------------------------------------------------- trimming

  /** Drops leading whitespace. */
  function TrimStart(s: string): (r: string)
    ensures |r| <= |s| && r == s[|s| - |r|..]
    ensures forall i :: 0 <= i < |s| - |r| ==> IsWhitespace(s[i])
    ensures r != [] ==> !IsWhitespace(r[0])
  {
    if s != [] && IsWhitespace(s[0]) then TrimStart(s[1..]) else s
  }

  /** Drops trailing whitespace. */
  function TrimEnd(s: string): (r: string)
    ensures |r| <= |s| && r == s[..|r|]
    ensures forall i :: |r| <= i < |s| ==> IsWhitespace(s[i])
    ensures r != [] ==> !IsWhitespace(r[|r| - 1])
  {
    if s != [] && IsWhitespace(s[|s| - 1]) then TrimEnd(s[..|s| - 1]) else s
  }

  /**
   * Kotlin `String.trim()`: `s` with its leading and trailing whitespace
   * removed, that is, the longest infix with no whitespace at either end.
   */
  function Trim(s: string): (r: string)
    ensures |r| <= |s|
    ensures var k := |s| - |TrimStart(s)|;
      && k + |r| <= |s|
      && r == s[k..k + |r|]
      && forall i :: 0 <= i < k || k + |r| <= i < |s| ==> IsWhitespace(s[i])
    ensures r != [] ==> !IsWhitespace(r[0]) && !IsWhitespace(r[|r| - 1])
  {
    var t := TrimStart(s);
    var r := TrimEnd(t);
    TrimBothEnds(s, t, r);
    r
  }

  /** Whitespace dropped from the front, then from the back, lies around the infix that is kept. */
  lemma TrimBothEnds(s: string, t: string, r: string)
    requires |t| <= |s| && t == s[|s| - |t|..]
    requires forall i :: 0 <= i < |s| - |t| ==> IsWhitespace(s[i])
    requires |r| <= |t| && r == t[..|r|]
    requires forall i :: |r| <= i < |t| ==> IsWhitespace(t[i])
    ensures var k := |s| - |t|;
      && k + |r| <= |s|
      && r == s[k..k + |r|]
      && forall i :: 0 <= i < k || k + |r| <= i < |s| ==> IsWhitespace(s[i])
  {
    var k := |s| - |t|;
    forall i | k + |r| <= i < |s| ensures IsWhitespace(s[i]) {
      assert s[i] == t[i - k];
    }
  }


  /** Trimming cannot remove a leading prefix that contains no whitespace. */
  lemma TrimKeepsPrefix(s: string, p: string)
    requires StartsWith(s, p) && p != [] && NoWhitespace(p)
    ensures StartsWith(Trim(s), p)
  {
    assert s[0] == p[0];
    assert !IsWhitespace(p[0]);
    assert TrimStart(s) == s;
    var r := TrimEnd(s);
    assert s[|p| - 1] == p[|p| - 1];
    assert !IsWhitespace(p[|p| - 1]);
    assert |r| >= |p|;
    assert r[..|p|] == s[..|p|];
  }

  // ------------------------------------------------------------ line splitting

  predicate IsLineBreak(c: char) {
    c == '\n' || c == '\r'
  }

  predicate NoLineBreak(s: string) {
    forall i :: 0 <= i < |s| ==> !IsLineBreak(s[i])
  }

  /** Index of the first '\r' or '\n' at or after `from`, or |s| when there is none. */
  function NextBreak(s: string, from: nat): (i: nat)
    requires from <= |s|
    ensures from <= i <= |s|
    ensures i < |s| ==> IsLineBreak(s[i])
    ensures forall j :: from <= j < i ==> !IsLineBreak(s[j])
    decreases |s| - from
  {
    if from == |s| || IsLineBreak(s[from]) then from else NextBreak(s, from + 1)
  }

  /** Width of the separator that starts at `i`: "\r\n" counts as one separator. */
  function BreakWidth(s: string, i: nat): (w: nat)
    requires i < |s|
    ensures 1 <= w && i + w <= |s|
  {
    if s[i] == '\r' && i + 1 < |s| && s[i + 1] == '\n' then 2 else 1
  }

  /**
   * Kotlin `CharSequence.lines()`: the text split at "\r\n", "\n" and "\r".
   * There is always at least one line; the text after the last separator is
   * the last line, so "" gives [""] and "a\n" gives ["a", ""].
   */
  function Lines(s: string): (r: seq<string>)
    ensures |r| >= 1
    ensures forall k :: 0 <= k < |r| ==> NoLineBreak(r[k])
    ensures r == [s] <==> NoLineBreak(s)
    decreases |s|
  {
    var i := NextBreak(s, 0);
    if i == |s| then [s] else [s[..i]] + Lines(s[i + BreakWidth(s, i)..])
  }

  /** A line followed by "\n" contributes exactly that line, and the rest is split on its own. */
  lemma LinesCons(a: string, b: string)
    requires NoLineBreak(a)
    ensures Lines(a + "\n" + b) == [a] + Lines(b)
  {
    var s := a + "\n" + b;
    assert s[|a|] == '\n';
    assert NextBreak(s, 0) == |a|;
    assert BreakWidth(s, |a|) == 1;
    assert s[..|a|] == a;
    assert s[|a| + 1..] == b;
  }

  /** A line followed by "\r\n" contributes exactly that line: the pair is one separator. */
  lemma LinesCrLf(a: string, b: string)
    requires NoLineBreak(a)
    ensures Lines(a + "\r\n" + b) == [a] + Lines(b)
  {
    var s := a + "\r\n" + b;
    assert s[|a|] == '\r' && s[|a| + 1] == '\n';
    assert NextBreak(s, 0) == |a|;
    assert BreakWidth(s, |a|) == 2;
    assert s[..|a|] == a;
    assert s[|a| + 2..] == b;
  }

  /** A line followed by a lone "\r" contributes exactly that line. */
  lemma LinesCr(a: string, b: string)
    requires NoLineBreak(a)
    requires b == [] || b[0] != '\n'
    ensures Lines(a + "\r" + b) == [a] + Lines(b)
  {
    var s := a + "\r" + b;
    assert s[|a|] == '\r';
    assert NextBreak(s, 0) == |a|;
    assert |a| + 1 < |s| ==> s[|a| + 1] == b[0];
    assert BreakWidth(s, |a|) == 1;
    assert s[..|a|] == a;
    assert s[|a| + 1..] == b;
  }

  // -------------------------------------------------------------- substrings

  /** Kotlin `String.indexOf(c)`: first position of `c`, or -1. */
  function IndexOfChar(s: string, c: char): (i: int)
    ensures -1 <= i < |s|
    ensures i >= 0 ==> s[i] == c && c !in s[..i]
    ensures i == -1 <==> c !in s
  {
    if s == [] then -1
    else if s[0] == c then 0
    else
      var k := IndexOfChar(s[1..], c);
      assert s == [s[0]] + s[1..];
      if k == -1 then -1 else k + 1
  }

  /**
   * Kotlin `String.substringAfter(delimiter)` with a one-character delimiter:
   * the text after the first occurrence, or the whole string when there is none.
   */
  function SubstringAfter(s: string, delim: char): (r: string)
    ensures delim !in s ==> r == s
    ensures delim in s ==> |r| < |s| && s == s[..|s| - |r| - 1] + [delim] + r && delim !in s[..|s| - |r| - 1]
  {
    var i := IndexOfChar(s, delim);
    if i == -1 then s
    else
      assert s == s[..i] + [delim] + s[i + 1..];
      s[i + 1..]
  }

  // ------------------------------------------------------------ case mapping

  /** `Char.lowercaseChar()` restricted to ASCII letters. */
  function LowerChar(c: char): (r: char)
    ensures 'A' <= c <= 'Z' ==> 'a' <= r <= 'z' && r as int == c as int + 32
    ensures !('A' <= c <= 'Z') ==> r == c
  {
    if 'A' <= c <= 'Z' then (c as int + 32) as char else c
  }

  /** `String.lowercase()` restricted to ASCII letters. */
  function Lower(s: string): (r: string)
    ensures |r| == |s|
    ensures forall i :: 0 <= i < |s| ==> r[i] == LowerChar(s[i])
  {
    seq(|s|, i requires 0 <= i < |s| => LowerChar(s[i]))
  }

  lemma LowerIdempotent(s: string)
    ensures Lower(Lower(s)) == Lower(s)
  {
  }

  /** `Char.equals(other, ignoreCase = true)` restricted to ASCII letters. */
  predicate CharEqualsIgnoreCase(a: char, b: char) {
    LowerChar(a) == LowerChar(b)
  }

  /** `regionMatches(at, q, 0, |q|, ignoreCase = true)`. */
  predicate RegionMatchesIgnoreCase(s: string, at: nat, q: string)
    requires at + |q| <= |s|
  {
    forall j :: 0 <= j < |q| ==> CharEqualsIgnoreCase(s[at + j], q[j])
  }

  /** Kotlin `indexOf(q, from, ignoreCase = true)`: the first match position at or after `from`, or -1. */
  function IndexOfIgnoreCase(s: string, q: string, from: nat): (i: int)
    ensures i == -1 || (from <= i && i + |q| <= |s| && RegionMatchesIgnoreCase(s, i, q))
    ensures forall j :: from <= j && j + |q| <= |s| && (i == -1 || j < i) ==> !RegionMatchesIgnoreCase(s, j, q)
    decreases |s| - from
  {
    if from + |q| > |s| then -1
    else if RegionMatchesIgnoreCase(s, from, q) then from
    else IndexOfIgnoreCase(s, q, from + 1)
  }

  /** Kotlin `s.contains(q, ignoreCase = true)`. */
  predicate ContainsIgnoreCase(s: string, q: string) {
    IndexOfIgnoreCase(s, q, 0) >= 0
  }

  /** The lower-cased query occurs in the lower-cased text at `i`. */
  predicate LowerInfixAt(s: string, q: string, i: int) {
    0 <= i && i + |q| <= |s| && Lower(s)[i..i + |q|] == Lower(q)
  }

  /** A case-insensitive match is a match of the lower-cased texts. */
  lemma {:induction false} ContainsIgnoreCaseIsLowerInfix(s: string, q: string)
    ensures ContainsIgnoreCase(s, q) <==> exists i :: LowerInfixAt(s, q, i)
  {
    var ls, lq := Lower(s), Lower(q);
    forall i | 0 <= i && i + |q| <= |s|
      ensures RegionMatchesIgnoreCase(s, i, q) <==> ls[i..i + |q|] == lq
    {
      if RegionMatchesIgnoreCase(s, i, q) {
        assert forall j :: 0 <= j < |q| ==> ls[i..i + |q|][j] == lq[j];
      }
      if ls[i..i + |q|] == lq {
        forall j | 0 <= j < |q| ensures CharEqualsIgnoreCase(s[i + j], q[j]) {
          assert ls[i..i + |q|][j] == lq[j];
        }
      }
    }
    var k := IndexOfIgnoreCase(s, q, 0);
    if k >= 0 {
      assert LowerInfixAt(s, q, k);
    } else {
      forall i | 0 <= i && i + |q| <= |s| ensures !LowerInfixAt(s, q, i) {
        assert !RegionMatchesIgnoreCase(s, i, q);
      }
    }
  }

  /** Every text contains the empty query. */
  lemma ContainsEmpty(s: string)
    ensures ContainsIgnoreCase(s, "")
  {
    assert RegionMatchesIgnoreCase(s, 0, "");
  }

  // ---------------------------------------------------------------- decimals

  function DigitChar(d: nat): (c: char)
    requires d < 10
    ensures '0' <= c <= '9' && c as int - '0' as int == d
  {
    ('0' as int + d) as char
  }

  predicate IsDigit(c: char) {
    '0' <= c <= '9'
  }

  /** Decimal digits of `n`, most significant first, no leading zero. */
  function NatToDecimal(n: nat): (r: string)
    ensures r != [] && forall i :: 0 <= i < |r| ==> IsDigit(r[i])
    decreases n
  {
    if n < 10 then [DigitChar(n)] else NatToDecimal(n / 10) + [DigitChar(n % 10)]
  }

  /** Kotlin `Int.toString()`: an optional '-' and the decimal digits. */
  function IntToDecimal(i: int): (r: string)
    ensures r != []
    ensures forall k :: 0 <= k < |r| ==> r[k] == '-' || IsDigit(r[k])
  {
    if i < 0 then "-" + NatToDecimal(-i) else NatToDecimal(i)
  }

  /** Value of a string of decimal digits. */
  function DigitsValue(s: string): nat
    requires forall i :: 0 <= i < |s| ==> IsDigit(s[i])
  {
    if s == [] then 0
    else
      assert IsDigit(s[|s| - 1]);
      10 * DigitsValue(s[..|s| - 1]) + (s[|s| - 1] as int - '0' as int)
  }

  /** Reading back a decimal string, as `String.toInt()` does for the navigation argument. */
  function DecimalToInt(s: string): int
    requires s != [] && forall k :: 0 <= k < |s| ==> s[k] == '-' || IsDigit(s[k])
    requires forall k :: 1 <= k < |s| ==> IsDigit(s[k])
    requires s[0] == '-' ==> |s| >= 2
  {
    if s[0] == '-' then -(DigitsValue(s[1..]) as int) else DigitsValue(s)
  }

  lemma {:induction false} NatToDecimalRoundTrip(n: nat)
    ensures DigitsValue(NatToDecimal(n)) == n
    decreases n
  {
    if n >= 10 {
      NatToDecimalRoundTrip(n / 10);
      var r := NatToDecimal(n);
      assert r[..|r| - 1] == NatToDecimal(n / 10);
    }
  }

  /** `IntToDecimal(i).toInt() == i`: the channel index survives the route. */
  lemma IntToDecimalRoundTrip(i: int)
    ensures var r := IntToDecimal(i);
      (forall k :: 1 <= k < |r| ==> IsDigit(r[k])) && (r[0] == '-' ==> |r| >= 2) && DecimalToInt(r) == i
  {
    if i < 0 {
      NatToDecimalRoundTrip(-i);
      assert IntToDecimal(i)[1..] == NatToDecimal(-i);
    } else {
      NatToDecimalRoundTrip(i);
    }
  }
}
