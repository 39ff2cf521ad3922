/**
 * The two Number conversions the configuration relies on:
 * `parseInt(string, 10)` as section 19.2.5 of ECMA-262 ("parseInt (string,
 * radix)") defines it, and the decimal rendering of an integer (what
 * Number::toString gives for an integral value), used to state round trips.
 * NaN is `None`; results are exact integers.
 */
module NumberParsing {
  import opened Wrappers

  /** StrWhiteSpaceChar: the WhiteSpace and LineTerminator code points. */
  predicate IsStrWhiteSpace(c: char) {
    || c == '\t' || c == '\n' || c == '\U{000B}' || c == '\U{000C}' || c == '\r' || c == ' '
    || c == '\U{00A0}' || c == '\U{1680}' || ('\U{2000}' <= c <= '\U{200A}')
    || c == '\U{2028}' || c == '\U{2029}' || c == '\U{202F}' || c == '\U{205F}'
    || c == '\U{3000}' || c == '\U{FEFF}'
  }

  /** A radix-10 digit. */
  predicate IsDigit(c: char) {
    '0' <= c <= '9'
  }

  predicate AllWhiteSpace(s: string) {
    forall i | 0 <= i < |s| :: IsStrWhiteSpace(s[i])
  }

  predicate AllDigits(s: string) {
    forall i | 0 <= i < |s| :: IsDigit(s[i])
  }

  function DigitValue(c: char): (d: nat)
    requires IsDigit(c)
    ensures d < 10
    ensures DigitChar(d) == c
  {
    c as int - '0' as int
  }

  function DigitChar(d: nat): (c: char)
    requires d < 10
    ensures IsDigit(c)
  {
    ('0' as int + d) as char
  }

  /**
   * How many characters TrimString(s, start) drops: the length of the
   * longest prefix of white space.
   */
  function LeadingWhiteSpace(s: string): (n: nat)
    ensures n <= |s|
    ensures forall i | 0 <= i < n :: IsStrWhiteSpace(s[i])
    ensures n == |s| || !IsStrWhiteSpace(s[n])
  {
    if s != [] && IsStrWhiteSpace(s[0]) then 1 + LeadingWhiteSpace(s[1..]) else 0
  }

  /** The length of the longest prefix of radix-10 digits. */
  function DigitCount(s: string): (n: nat)
    ensures n <= |s|
    ensures forall i | 0 <= i < n :: IsDigit(s[i])
    ensures n == |s| || !IsDigit(s[n])
  {
    if s != [] && IsDigit(s[0]) then 1 + DigitCount(s[1..]) else 0
  }

  /** 10 to the power n. */
  function Pow10(n: nat): (p: nat)
    ensures p >= 1
  {
    if n == 0 then 1 else 10 * Pow10(n - 1)
  }

  /** The mathematical value of a digit string read in radix 10: below 10 to the power of its length. */
  function DigitsValue(d: string): (v: nat)
    requires AllDigits(d)
    ensures v < Pow10(|d|)
  {
    if d == [] then 0 else DigitsValue(d[..|d| - 1]) * 10 + DigitValue(d[|d| - 1])
  }

  /** The string with one leading '+' or '-' removed, if it has one. */
  function DropSign(t: string): string {
    if t != [] && (t[0] == '+' || t[0] == '-') then t[1..] else t
  }

  /** The sign step of parseInt: -1 only when the trimmed text starts with '-'. */
  function SignOf(t: string): int {
    if t != [] && t[0] == '-' then -1 else 1
  }

  /**
   * The steps of parseInt(s, 10) after the white space is trimmed: take an
   * optional sign, read the maximal run of digits; NaN (None) when that run
   * is empty. A result of -0 is the integer 0 here.
   */
  function ParseTrimmed(t: string): (r: Option<int>)
    ensures r.Some? ==> exists i :: 0 <= i < |t| && IsDigit(t[i])
  {
    var u := DropSign(t);
    var k := DigitCount(u);
    if k == 0 then None
    else
      assert IsDigit(t[|t| - |u|]);
      Some(SignOf(t) * DigitsValue(u[..k]))
  }

  /** parseInt(s, 10): skip leading white space, then parse the rest. */
  function ParseInt(s: string): (r: Option<int>)
    ensures r.Some? ==> exists i :: 0 <= i < |s| && IsDigit(s[i])
  {
    var n := LeadingWhiteSpace(s);
    var r := ParseTrimmed(s[n..]);
    assert r.Some? ==> exists i :: n <= i < |s| && IsDigit(s[i]) by {
      if r.Some? {
        var i :| 0 <= i < |s[n..]| && IsDigit(s[n..][i]);
        assert IsDigit(s[n + i]);
      }
    }
    r
  }

  /** Decimal digits of a natural number, most significant first, no leading zero. */
  function NatDecimal(n: nat): (r: string)
    ensures r != [] && AllDigits(r)
    ensures |r| > 1 ==> r[0] != '0'
  {
    if n < 10 then [DigitChar(n)] else NatDecimal(n / 10) + [DigitChar(n % 10)]
  }

  /** The decimal rendering of an integer, with '-' before a negative one. */
  function Decimal(n: int): (r: string)
    ensures r != []
  {
    if n < 0 then "-" + NatDecimal(-n) else NatDecimal(n)
  }

  /** White space followed by a non-white character (or nothing): exactly the white space is dropped. */
  lemma {:induction false} LeadingWhiteSpaceOf(ws: string, x: string)
    requires AllWhiteSpace(ws)
    requires x == [] || !IsStrWhiteSpace(x[0])
    ensures LeadingWhiteSpace(ws + x) == |ws|
  {
    if ws != [] {
      assert (ws + x)[1..] == ws[1..] + x;
      LeadingWhiteSpaceOf(ws[1..], x);
    } else {
      assert ws + x == x;
    }
  }

  /** Digits followed by a non-digit (or nothing): exactly the digits are counted. */
  lemma {:induction false} DigitCountOf(d: string, rest: string)
    requires AllDigits(d)
    requires rest == [] || !IsDigit(rest[0])
    ensures DigitCount(d + rest) == |d|
  {
    if d != [] {
      assert (d + rest)[1..] == d[1..] + rest;
      DigitCountOf(d[1..], rest);
    } else {
      assert d + rest == rest;
    }
  }

  lemma {:induction false} DigitsValueOfNatDecimal(n: nat)
    ensures DigitsValue(NatDecimal(n)) == n
  {
    if n >= 10 {
      var d := NatDecimal(n);
      assert d[..|d| - 1] == NatDecimal(n / 10);
      DigitsValueOfNatDecimal(n / 10);
    }
  }

  /** Leading white space is skipped: parseInt reads what follows it. */
  lemma ParseIntSkipsWhiteSpace(ws: string, t: string)
    requires AllWhiteSpace(ws)
    requires t == [] || !IsStrWhiteSpace(t[0])
    ensures ParseInt(ws + t) == ParseTrimmed(t)
  {
    LeadingWhiteSpaceOf(ws, t);
    assert (ws + t)[|ws|..] == t;
  }

  /** An optional sign and at least one digit: the signed value of the digits. */
  lemma ParseTrimmedDigits(sign: string, digits: string, rest: string)
    requires sign == "" || sign == "+" || sign == "-"
    requires digits != [] && AllDigits(digits)
    requires rest == [] || !IsDigit(rest[0])
    ensures ParseTrimmed(sign + digits + rest)
         == Some((if sign == "-" then -1 else 1) * DigitsValue(digits))
  {
    var u := digits + rest;
    var t := sign + u;
    assert sign + digits + rest == t;
    assert DropSign(t) == u && SignOf(t) == (if sign == "-" then -1 else 1) by {
      if sign == "" {
        assert t == u && u[0] == digits[0];
      } else {
        assert t[0] == sign[0] && t[1..] == u;
      }
    }
    DigitCountOf(digits, rest);
    assert u[..|digits|] == digits;
    assert ParseTrimmed(t) == Some(SignOf(t) * DigitsValue(u[..DigitCount(u)]));
  }

  /**
   * Whatever follows the digit run is ignored: white space, then an optional
   * sign, then at least one digit, then anything that does not start with a
   * digit, parses to the signed value of the digits.
   */
  lemma ParseIntLeadingDigits(ws: string, sign: string, digits: string, rest: string)
    requires AllWhiteSpace(ws)
    requires sign == "" || sign == "+" || sign == "-"
    requires digits != [] && AllDigits(digits)
    requires rest == [] || !IsDigit(rest[0])
    ensures ParseInt(ws + sign + digits + rest)
         == Some((if sign == "-" then -1 else 1) * DigitsValue(digits))
  {
    var t := sign + digits + rest;
    assert ws + sign + digits + rest == ws + t;
    assert t[0] == if sign == "" then digits[0] else sign[0];
    ParseIntSkipsWhiteSpace(ws, t);
    ParseTrimmedDigits(sign, digits, rest);
  }

  /** No digit right after the optional sign: NaN. */
  lemma ParseTrimmedNoDigits(sign: string, rest: string)
    requires sign == "" || sign == "+" || sign == "-"
    requires rest == [] || !IsDigit(rest[0])
    requires sign == "" && rest != [] ==> rest[0] != '+' && rest[0] != '-'
    ensures ParseTrimmed(sign + rest) == None
  {
    assert DropSign(sign + rest) == rest by {
      if sign != "" {
        assert (sign + rest)[1..] == rest;
      } else {
        assert sign + rest == rest;
      }
    }
  }

  /**
   * NaN: when the character after the white space and the optional sign is
   * not a digit (or there is none), parseInt gives NaN.
   */
  lemma ParseIntNoDigits(ws: string, sign: string, rest: string)
    requires AllWhiteSpace(ws)
    requires sign == "" || sign == "+" || sign == "-"
    requires rest == [] || !IsDigit(rest[0])
    requires sign == "" && rest != [] ==> !IsStrWhiteSpace(rest[0]) && rest[0] != '+' && rest[0] != '-'
    ensures ParseInt(ws + sign + rest) == None
  {
    var t := sign + rest;
    assert ws + sign + rest == ws + t;
    assert t != [] ==> t[0] == if sign == "" then rest[0] else sign[0];
    ParseIntSkipsWhiteSpace(ws, t);
    ParseTrimmedNoDigits(sign, rest);
  }

  /** The decimal rendering of an integer is its sign followed by the digits of its magnitude. */
  lemma DecimalParts(n: int) returns (sign: string, digits: string)
    ensures sign == (if n < 0 then "-" else "")
    ensures Decimal(n) == sign + digits
    ensures digits != [] && AllDigits(digits)
    ensures (if sign == "-" then -1 else 1) * DigitsValue(digits) == n
  {
    var m: nat := if n < 0 then -n else n;
    sign, digits := if n < 0 then "-" else "", NatDecimal(m);
    DigitsValueOfNatDecimal(m);
  }

  /** Rendering an integer in decimal and parsing it back gives the integer. */
  lemma ParseIntDecimal(n: int, rest: string)
    requires rest == [] || !IsDigit(rest[0])
    ensures ParseInt(Decimal(n) + rest) == Some(n)
  {
    var sign, digits := DecimalParts(n);
    assert Decimal(n) + rest == [] + sign + digits + rest;
    ParseIntLeadingDigits([], sign, digits, rest);
  }
}
