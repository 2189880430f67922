/**
 * The string operations the quiz relies on: Python's `str.strip()` (with the
 * exact set of characters `str.isspace()` accepts), `str.lower()` restricted
 * to ASCII letters, and `str(n)` for a non-negative integer.
 */
module Text {

  /** The characters for which Python's `str.isspace()` holds. */
  predicate IsSpace(c: char)
  {
    || c == ' '
    || ('\t' <= c <= '\r')                  // \t \n \v \f \r
    || ('\U{1C}' <= c <= '\U{1F}')
    || c == '\U{85}' || c == '\U{A0}' || c == '\U{1680}'
    || ('\U{2000}' <= c <= '\U{200A}')
    || c == '\U{2028}' || c == '\U{2029}' || c == '\U{202F}' || c == '\U{205F}'
    || c == '\U{3000}'
  }

  /** Lower-casing of one character (ASCII letters only). */
  function LowerChar(c: char): char
  {
    if 'A' <= c <= 'Z' then (c as int - 'A' as int + 'a' as int) as char else c
  }

  /** `s.lower()`, character by character. */
  function Lower(s: string): string
  {
    seq(|s|, k requires 0 <= k < |s| => LowerChar(s[k]))
  }

  /** The number of whitespace characters at the start of `s`. */
  function LeadingSpaces(s: string): (n: nat)
    ensures n <= |s|
    ensures forall k :: 0 <= k < n ==> IsSpace(s[k])
    ensures n < |s| ==> !IsSpace(s[n])
  {
    if |s| > 0 && IsSpace(s[0]) then 1 + LeadingSpaces(s[1..]) else 0
  }

  /** The number of whitespace characters at the end of `s`. */
  function TrailingSpaces(s: string): (n: nat)
    ensures n <= |s|
    ensures forall k :: |s| - n <= k < |s| ==> IsSpace(s[k])
    ensures n < |s| ==> !IsSpace(s[|s| - 1 - n])
  {
    if |s| > 0 && IsSpace(s[|s| - 1]) then 1 + TrailingSpaces(s[..|s| - 1]) else 0
  }

  /**
   * `s.strip()`: the slice of `s` that is left once the whitespace at both
   * ends is removed; it neither starts nor ends with whitespace.
   */
  function Strip(s: string): (r: string)
    ensures exists i, j :: 0 <= i <= j <= |s| && r == s[i..j]
                        && (forall k :: 0 <= k < i ==> IsSpace(s[k]))
                        && (forall k :: j <= k < |s| ==> IsSpace(s[k]))
    ensures r != [] ==> !IsSpace(r[0]) && !IsSpace(r[|r| - 1])
  {
    var i := LeadingSpaces(s);
    var j := |s| - TrailingSpaces(s[i..]);
    s[i..j]
  }

  /** `s.strip().lower()`, the normal form both answers are compared in. */
  function Normalize(s: string): string
  {
    Lower(Strip(s))
  }

  /** A string that neither starts nor ends with whitespace is its own `strip()`. */
  lemma StripTrimmed(s: string)
    requires s != [] ==> !IsSpace(s[0]) && !IsSpace(s[|s| - 1])
    ensures Strip(s) == s
  {
  }

  /** Lower-casing keeps the ends of a string free of whitespace if they were. */
  lemma LowerKeepsEnds(s: string)
    requires s != [] ==> !IsSpace(s[0]) && !IsSpace(s[|s| - 1])
    ensures var u := Lower(s); u != [] ==> !IsSpace(u[0]) && !IsSpace(u[|u| - 1])
  {
  }

  /** Normalising a normalised answer changes nothing. */
  lemma NormalizeIdempotent(s: string)
    ensures Normalize(Normalize(s)) == Normalize(s)
  {
    LowerKeepsEnds(Strip(s));
    StripTrimmed(Lower(Strip(s)));
  }

  /** The decimal digit for `d`. */
  function Digit(d: nat): char
    requires d < 10
  {
    "0123456789"[d]
  }

  /** The value of a decimal digit character. */
  function DigitValue(c: char): nat
  {
    if '0' <= c <= '9' then c as int - '0' as int else 0
  }

  /** `str(n)` for a non-negative integer: its decimal digits, most significant first. */
  function NatToString(n: nat): (s: string)
    ensures s != []
    ensures forall k :: 0 <= k < |s| ==> '0' <= s[k] <= '9'
    ensures n > 0 ==> s[0] != '0'
    ensures |s| > 1 ==> s[0] != '0'
    ensures n < 10 <==> |s| == 1
  {
    if n < 10 then [Digit(n)] else NatToString(n / 10) + [Digit(n % 10)]
  }

  /** Reads a string of decimal digits back as a number. */
  function ParseNat(s: string): nat
  {
    if s == [] then 0 else 10 * ParseNat(s[..|s| - 1]) + DigitValue(s[|s| - 1])
  }

  /** The decimal text of a count reads back as that count. */
  lemma {:induction false} NatToStringRoundTrip(n: nat)
    ensures ParseNat(NatToString(n)) == n
  {
    if n < 10 {
      assert NatToString(n) == [Digit(n)];
      assert [Digit(n)][..0] == [];
    } else {
      var s := NatToString(n / 10);
      NatToStringRoundTrip(n / 10);
      assert (s + [Digit(n % 10)])[..|s|] == s;
    }
  }
}
