/**
 * The few JavaScript string primitives the editor relies on:
 * `String.prototype.trim` and the test "is the trimmed text empty",
 * `.length` (UTF-16 code units) and the decimal spelling of an array index.
 */
module JsText {

  /** ECMAScript WhiteSpace and LineTerminator code points, the set `trim` removes. */
  predicate IsWhitespace(c: char)
  {
    var n := c as int;
    n == 0x09 || n == 0x0A || n == 0x0B || n == 0x0C || n == 0x0D || n == 0x20
    || n == 0xA0 || n == 0x1680 || (0x2000 <= n <= 0x200A) || n == 0x2028 || n == 0x2029
    || n == 0x202F || n == 0x205F || n == 0x3000 || n == 0xFEFF
  }

  /** `!s || s.trim().length === 0`: the text is empty or whitespace only. */
  predicate IsBlank(s: string)
  {
    forall i :: 0 <= i < |s| ==> IsWhitespace(s[i])
  }

  /** JavaScript's `s.length`: a code point above U+FFFF takes two UTF-16 code units. */
  function JsLength(s: string): (n: nat)
    ensures |s| <= n <= 2 * |s|
    ensures (forall i :: 0 <= i < |s| ==> s[i] as int <= 0xFFFF) ==> n == |s|
  {
    if s == [] then 0 else (if s[0] as int > 0xFFFF then 2 else 1) + JsLength(s[1..])
  }

  predicate IsDigit(c: char)
  {
    '0' <= c <= '9'
  }

  predicate AllDigits(s: string)
  {
    forall i :: 0 <= i < |s| ==> IsDigit(s[i])
  }

  /** The number a string of decimal digits spells (a non-digit counts as 0). */
  function DigitsValue(s: string): nat
  {
    if s == [] then 0
    else DigitsValue(s[..|s| - 1]) * 10 + (if IsDigit(s[|s| - 1]) then (s[|s| - 1] - '0') as int else 0)
  }

  /** Canonical decimal spelling: digits only, and no leading zero unless the number is 0. */
  predicate IsCanonical(s: string)
  {
    s != [] && AllDigits(s) && (s[0] == '0' ==> |s| == 1)
  }

  /** Decimal digits of `n`, the property key JavaScript gives to index `n`. */
  function NatToString(n: nat): (s: string)
    ensures IsCanonical(s)
    ensures DigitsValue(s) == n
    decreases n
  {
    var d := ['0' + (n % 10) as char];
    if n < 10 then d
    else
      var p := NatToString(n / 10);
      assert (p + d)[..|p + d| - 1] == p;
      p + d
  }

  /** A canonical spelling is the one `NatToString` gives, so two of them differ exactly when their numbers do. */
  lemma {:induction false} CanonicalSpelling(s: string)
    requires IsCanonical(s)
    ensures NatToString(DigitsValue(s)) == s
    decreases |s|
  {
    var p, last := s[..|s| - 1], s[|s| - 1];
    var d := (last - '0') as int;
    assert DigitsValue(s) == DigitsValue(p) * 10 + d;
    if |s| > 1 {
      assert p[0] == s[0];
      LeadingDigitBound(p);
      CanonicalSpelling(p);
      LastDigit(DigitsValue(p), d);
      assert s == p + [last];
    }
  }

  /** Appending a digit: the last digit and the rest can be read back. */
  lemma LastDigit(q: nat, d: int)
    requires 0 <= d < 10
    ensures (q * 10 + d) % 10 == d && (q * 10 + d) / 10 == q
  {
  }

  /** A digit string is worth at least its first digit. */
  lemma {:induction false} LeadingDigitBound(s: string)
    requires s != [] && AllDigits(s)
    ensures DigitsValue(s) >= (s[0] - '0') as int
    decreases |s|
  {
    if |s| > 1 {
      var p := s[..|s| - 1];
      assert p[0] == s[0];
      LeadingDigitBound(p);
    }
  }

  /** Two canonical spellings of the same number are the same text. */
  lemma CanonicalUnique(a: string, b: string)
    requires IsCanonical(a) && IsCanonical(b) && DigitsValue(a) == DigitsValue(b)
    ensures a == b
  {
    CanonicalSpelling(a);
    CanonicalSpelling(b);
  }

  /** `s.includes(t)` on strings: `t` occurs at some offset of `s`. */
  predicate Includes(s: string, t: string)
    decreases |s|
  {
    t <= s || (s != [] && Includes(s[1..], t))
  }

  /** The text after its leading whitespace. */
  function TrimStart(s: string): (r: string)
    ensures |r| <= |s| && r == s[|s| - |r|..]
    ensures forall i :: 0 <= i < |s| - |r| ==> IsWhitespace(s[i])
    ensures r != [] ==> !IsWhitespace(r[0])
  {
    if s != [] && IsWhitespace(s[0]) then
      var r := TrimStart(s[1..]);
      assert forall i :: 1 <= i < |s| - |r| ==> s[i] == s[1..][i - 1];
      r
    else s
  }

  /** The text before its trailing whitespace. */
  function TrimEnd(s: string): (r: string)
    ensures |r| <= |s| && r == s[..|r|]
    ensures forall i :: |r| <= i < |s| ==> IsWhitespace(s[i])
    ensures r != [] ==> !IsWhitespace(r[|r| - 1])
  {
    if s != [] && IsWhitespace(s[|s| - 1]) then
      var r := TrimEnd(s[..|s| - 1]);
      assert forall i :: |r| <= i < |s| - 1 ==> s[i] == s[..|s| - 1][i];
      r
    else s
  }

  /** `r` is `s` with some whitespace removed at the front and at the back, and nothing else. */
  predicate TrimmedOf(s: string, r: string)
  {
    exists i :: 0 <= i <= |s| - |r| && r == s[i..i + |r|] && IsBlank(s[..i]) && IsBlank(s[i + |r|..])
  }

  /**
   * `s.trim()`: the input with whitespace removed at both ends and nowhere
   * else; empty exactly for blank text.
   */
  function Trim(s: string): (r: string)
    ensures TrimmedOf(s, r)
    ensures r != [] ==> !IsWhitespace(r[0]) && !IsWhitespace(r[|r| - 1])
    ensures r == [] <==> IsBlank(s)
  {
    var t := TrimStart(s);
    var r := TrimEnd(t);
    TrimWitness(s, t, r);
    r
  }

  /** Whitespace dropped from the front, then from the back, is whitespace dropped at both ends. */
  lemma TrimWitness(s: string, t: string, r: string)
    requires |t| <= |s| && t == s[|s| - |t|..] && forall i :: 0 <= i < |s| - |t| ==> IsWhitespace(s[i])
    requires t != [] ==> !IsWhitespace(t[0])
    requires |r| <= |t| && r == t[..|r|] && forall i :: |r| <= i < |t| ==> IsWhitespace(t[i])
    requires r != [] ==> !IsWhitespace(r[|r| - 1])
    ensures TrimmedOf(s, r)
    ensures r != [] ==> !IsWhitespace(r[0]) && !IsWhitespace(r[|r| - 1])
    ensures r == [] <==> IsBlank(s)
  {
    var i := |s| - |t|;
    var head, mid, tail := s[..i], s[i..i + |r|], s[i + |r|..];
    assert r == mid;
    forall k | 0 <= k < |head| ensures IsWhitespace(head[k]) {
      assert head[k] == s[k];
    }
    forall k | 0 <= k < |tail| ensures IsWhitespace(tail[k]) {
      assert tail[k] == t[|r| + k];
    }
    if r != [] {
      assert r[0] == t[0];
      assert !IsWhitespace(s[i]);
    } else {
      if t != [] {
        assert false;
      }
      forall k | 0 <= k < |s| ensures IsWhitespace(s[k]) {
        assert s[k] == head[k];
      }
    }
  }
}
