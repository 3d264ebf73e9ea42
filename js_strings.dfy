/** String operations of the JavaScript runtime that the login form relies on:
    `String.prototype.trim` (ECMAScript 2023, section 22.1.3.32) and the decimal
    rendering of a non-negative integer (Number::toString, section 6.1.6.1.20). */
module JsStrings {

  /** The code points `trim` removes: WhiteSpace (section 12.2) and LineTerminator
      (section 12.3). Every Zs code point of Unicode 15 is listed. */
  predicate IsWhitespace(c: char) {
    || c == '\t' || c == '\n' || c == '\U{000B}' || c == '\U{000C}' || c == '\r'
    || c == ' ' || c == '\U{00A0}' || c == '\U{1680}'
    || ('\U{2000}' <= c <= '\U{200A}')
    || c == '\U{2028}' || c == '\U{2029}' || c == '\U{202F}' || c == '\U{205F}'
    || c == '\U{3000}' || c == '\U{FEFF}'
  }

  predicate AllWhitespace(s: string) {
    forall k :: 0 <= k < |s| ==> IsWhitespace(s[k])
  }

  /** Neither end of `s` is whitespace. */
  predicate Trimmed(s: string) {
    s == [] || (!IsWhitespace(s[0]) && !IsWhitespace(s[|s| - 1]))
  }

  /** The number of whitespace characters `s` starts with. */
  function LeadingWhitespace(s: string): (n: nat)
    ensures n <= |s|
    ensures forall k :: 0 <= k < n ==> IsWhitespace(s[k])
    ensures n < |s| ==> !IsWhitespace(s[n])
  {
    if s != [] && IsWhitespace(s[0]) then 1 + LeadingWhitespace(s[1..]) else 0
  }

  /** The number of whitespace characters `s` ends with. */
  function TrailingWhitespace(s: string): (n: nat)
    ensures n <= |s|
    ensures forall k :: |s| - n <= k < |s| ==> IsWhitespace(s[k])
    ensures n < |s| ==> !IsWhitespace(s[|s| - 1 - n])
  {
    if s != [] && IsWhitespace(s[|s| - 1]) then 1 + TrailingWhitespace(s[..|s| - 1]) else 0
  }

  /** `s.trim()`: `s` without its leading and trailing whitespace. */
  function Trim(s: string): (r: string)
    ensures r == [] <==> AllWhitespace(s)
    ensures |r| <= |s|
  {
    var i := LeadingWhitespace(s);
    if i == |s| then []
    else
      var n := TrailingWhitespace(s);
      assert !IsWhitespace(s[i]);
      s[i..|s| - n]
  }

  /** `trim` leaves no whitespace at either end. */
  lemma TrimIsTrimmed(s: string)
    ensures Trimmed(Trim(s))
  {
    if !AllWhitespace(s) {
      var i, n := LeadingWhitespace(s), TrailingWhitespace(s);
      assert s[i] == Trim(s)[0];
      assert s[|s| - n - 1] == Trim(s)[|Trim(s)| - 1];
    }
  }

  /** In a string that is not all whitespace, the leading and the trailing
      whitespace do not meet. */
  lemma WhitespaceEndsApart(s: string)
    requires !AllWhitespace(s)
    ensures LeadingWhitespace(s) < |s| - TrailingWhitespace(s)
  {
    var k :| 0 <= k < |s| && !IsWhitespace(s[k]);
    assert LeadingWhitespace(s) <= k;
    assert k < |s| - TrailingWhitespace(s);
  }

  /** `trim` removes whitespace at the two ends and nothing else: what is left
      lies between the leading and the trailing whitespace of `s`. */
  lemma TrimKeepsInfix(s: string)
    requires !AllWhitespace(s)
    ensures Trim(s) == s[LeadingWhitespace(s)..|s| - TrailingWhitespace(s)]
  {
    WhitespaceEndsApart(s);
  }

  /** A string with no whitespace at either end is left as it is. */
  lemma TrimOfTrimmed(s: string)
    requires Trimmed(s)
    ensures Trim(s) == s
  {
    if s != [] {
      assert LeadingWhitespace(s) == 0;
      assert TrailingWhitespace(s) == 0;
    }
  }

  /** Trimming twice is trimming once. */
  lemma TrimIdempotent(s: string)
    ensures Trim(Trim(s)) == Trim(s)
  {
    TrimIsTrimmed(s);
    TrimOfTrimmed(Trim(s));
  }

  /** When `p` starts with a non-whitespace character and `q` is all
      whitespace, trimming `p + q` only removes the trailing whitespace of `p`
      and all of `q`. */
  lemma TrimAfterPrefix(p: string, q: string)
    requires p != [] && !IsWhitespace(p[0]) && AllWhitespace(q)
    ensures Trim(p + q) == p[..|p| - TrailingWhitespace(p)]
  {
    var s := p + q;
    assert LeadingWhitespace(s) == 0 by { assert s[0] == p[0]; }
    TrailingOfWhitespaceSuffix(p, q);
  }

  /** Trimming a word followed by a space and an all-whitespace `q` leaves
      the word. */
  lemma TrimAfterWordBlank(w: string, q: string)
    requires w != [] && Trimmed(w) && AllWhitespace(q)
    ensures Trim(w + " " + q) == w
  {
    var sq := " " + q;
    assert w + " " + q == w + sq;
    assert AllWhitespace(sq) by {
      assert forall k :: 0 <= k < |q| ==> sq[k + 1] == q[k];
    }
    TrimAfterPrefix(w, sq);
    assert TrailingWhitespace(w) == 0;
    assert w[..|w|] == w;
  }

  lemma {:induction false} TrailingOfWhitespaceSuffix(p: string, q: string)
    requires AllWhitespace(q)
    ensures TrailingWhitespace(p + q) == TrailingWhitespace(p) + |q|
    decreases |q|
  {
    if q == [] {
      assert p + q == p;
    } else {
      var q' := q[..|q| - 1];
      assert (p + q)[..|p + q| - 1] == p + q';
      TrailingOfWhitespaceSuffix(p, q');
    }
  }
}

/** Decimal notation of the integers that stand for HTTP status codes. */
module Decimal {

  function DigitChar(d: nat): (c: char)
    requires d < 10
    ensures '0' <= c <= '9'
    ensures c as int - '0' as int == d
  {
    (48 + d) as char
  }

  predicate AllDigits(s: string) {
    forall k :: 0 <= k < |s| ==> '0' <= s[k] <= '9'
  }

  /** The decimal digits of `n`, most significant first, with no leading zero. */
  function NatToString(n: nat): (r: string)
    ensures |r| >= 1 && AllDigits(r)
    ensures r[0] == '0' <==> n == 0
    ensures |r| == 1 <==> n < 10
  {
    if n < 10 then [DigitChar(n)] else NatToString(n / 10) + [DigitChar(n % 10)]
  }

  /** The value of a string of decimal digits: the reading `NatToString` inverts. */
  function DigitsValue(s: string): nat
    requires AllDigits(s)
  {
    if s == [] then 0
    else 10 * DigitsValue(s[..|s| - 1]) + (s[|s| - 1] as int - '0' as int)
  }

  lemma {:induction false} NatToStringRoundTrip(n: nat)
    ensures DigitsValue(NatToString(n)) == n
  {
    var r := NatToString(n);
    if n >= 10 {
      NatToStringRoundTrip(n / 10);
      assert r[..|r| - 1] == NatToString(n / 10);
    } else {
      assert r[..|r| - 1] == [];
    }
  }
}
