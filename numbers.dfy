/**
 * JavaScript's `parseInt(s)` (radix left undefined) and the decimal rendering
 * of natural numbers that lodash and the property accessors use for array
 * indices.
 */
module Numbers {
  import opened Wrappers

  predicate IsDigit(c: char) { '0' <= c <= '9' }

  predicate IsHexDigit(c: char) { IsDigit(c) || 'a' <= c <= 'f' || 'A' <= c <= 'F' }

  /**
   * JavaScript white space and line terminators: what `parseInt` skips before
   * the number and what `\s` matches in a regular expression. Tab, vertical
   * tab, form feed, space, no-break space, the byte order mark, the other
   * space separators of Unicode (U+1680, U+2000 to U+200A, U+202F, U+205F,
   * U+3000), line feed, carriage return and the line and paragraph separators.
   */
  predicate IsSpace(c: char) {
    c == '\t' || c == '\U{B}' || c == '\U{C}' || c == ' ' || c == '\U{A0}' || c == '\U{FEFF}'
    || c == '\U{1680}' || '\U{2000}' <= c <= '\U{200A}' || c == '\U{202F}' || c == '\U{205F}' || c == '\U{3000}'
    || c == '\n' || c == '\r' || c == '\U{2028}' || c == '\U{2029}'
  }

  predicate AllDigits(s: string) { forall i :: 0 <= i < |s| ==> IsDigit(s[i]) }

  predicate AllHexDigits(s: string) { forall i :: 0 <= i < |s| ==> IsHexDigit(s[i]) }

  function DigitValue(c: char): nat
    requires IsHexDigit(c)
  {
    if IsDigit(c) then (c as int) - ('0' as int)
    else if 'a' <= c <= 'f' then (c as int) - ('a' as int) + 10
    else (c as int) - ('A' as int) + 10
  }

  function DigitChar(d: nat): (c: char)
    requires d < 10
    ensures IsDigit(c) && DigitValue(c) == d
  {
    (('0' as int) + d) as char
  }

  /** `s` without its leading white space. */
  function TrimStart(s: string): (t: string)
    ensures |t| <= |s| && t == s[|s| - |t|..]
    ensures |t| > 0 ==> !IsSpace(t[0])
  {
    if |s| > 0 && IsSpace(s[0]) then TrimStart(s[1..]) else s
  }

  /** The longest prefix of `s` whose characters all satisfy the digit test of `hex`. */
  function LeadingDigits(s: string, hex: bool): (d: string)
    ensures |d| <= |s| && d == s[..|d|]
    ensures AllHexDigits(d) && (!hex ==> AllDigits(d))
    ensures |d| < |s| ==> !(if hex then IsHexDigit(s[|d|]) else IsDigit(s[|d|]))
  {
    if |s| == 0 || !(if hex then IsHexDigit(s[0]) else IsDigit(s[0])) then []
    else [s[0]] + LeadingDigits(s[1..], hex)
  }

  /** The value of a digit string, most significant digit first, in the given base. */
  function DigitsValue(d: string, base: nat): nat
    requires AllHexDigits(d)
  {
    if |d| == 0 then 0 else DigitsValue(d[..|d| - 1], base) * base + DigitValue(d[|d| - 1])
  }

  /** True when `s` starts with the "0x"/"0X" prefix that makes `parseInt` read base 16. */
  predicate HexPrefixed(s: string) { |s| >= 2 && s[0] == '0' && (s[1] == 'x' || s[1] == 'X') }

  /** The unsigned part of `parseInt`: `None` stands for `NaN`. */
  function ParseUnsigned(s: string): Option<nat>
  {
    if HexPrefixed(s) then
      var d := LeadingDigits(s[2..], true);
      if d == [] then None else Some(DigitsValue(d, 16))
    else
      var d := LeadingDigits(s, false);
      if d == [] then None else Some(DigitsValue(d, 10))
  }

  /**
   * `parseInt(s)`: skip white space, read an optional sign, then the longest
   * digit prefix (hexadecimal after "0x"); `None` stands for `NaN`.
   */
  function ParseInt(s: string): Option<int>
  {
    var t := TrimStart(s);
    var neg := |t| > 0 && t[0] == '-';
    var body := if |t| > 0 && (t[0] == '-' || t[0] == '+') then t[1..] else t;
    match ParseUnsigned(body)
    case None => None
    case Some(n) =>
      var v: int := if neg then -(n as int) else n;
      Some(v)
  }

  /** The decimal rendering of `n`, as `String(n)` produces it. */
  function NatToString(n: nat): (s: string)
    ensures |s| > 0 && AllDigits(s)
  {
    if n < 10 then [DigitChar(n)] else NatToString(n / 10) + [DigitChar(n % 10)]
  }

  lemma {:induction false} DigitsValueOfNatToString(n: nat)
    ensures DigitsValue(NatToString(n), 10) == n
  {
    if n >= 10 {
      var s := NatToString(n);
      assert s[..|s| - 1] == NatToString(n / 10);
      DigitsValueOfNatToString(n / 10);
    }
  }

  lemma {:induction false} LeadingDigitsOfDigits(s: string)
    requires AllDigits(s)
    ensures LeadingDigits(s, false) == s
  {
    if |s| > 0 {
      LeadingDigitsOfDigits(s[1..]);
    }
  }

  /** Reading back the decimal rendering of a natural number gives that number. */
  lemma ParseIntOfNatToString(n: nat)
    ensures ParseInt(NatToString(n)) == Some(n)
  {
    var s := NatToString(n);
    assert IsDigit(s[0]) && !IsSpace(s[0]);
    assert TrimStart(s) == s;
    assert !HexPrefixed(s) by {
      if |s| >= 2 { assert IsDigit(s[1]); }
    }
    LeadingDigitsOfDigits(s);
    DigitsValueOfNatToString(n);
    assert ParseUnsigned(s) == Some(n);
  }

  /** Distinct numbers have distinct decimal renderings (so index keys never collide). */
  lemma NatToStringInjective()
    ensures forall i: nat, j: nat :: NatToString(i) == NatToString(j) ==> i == j
  {
    forall i: nat, j: nat | NatToString(i) == NatToString(j)
      ensures i == j
    {
      ParseIntOfNatToString(i);
      ParseIntOfNatToString(j);
    }
  }

  /**
   * `parseInt` yields a number exactly when, after white space and an optional
   * sign, the text starts with a decimal digit (and, after "0x", with a hex digit).
   */
  lemma ParseIntDefinedIff(s: string)
    ensures ParseInt(s).Some? <==>
      var t := TrimStart(s);
      var body := if |t| > 0 && (t[0] == '-' || t[0] == '+') then t[1..] else t;
      if HexPrefixed(body) then |body| > 2 && IsHexDigit(body[2]) else |body| > 0 && IsDigit(body[0])
  {
  }
}
