/**
 * JavaScript's global `parseInt(string)` called without a radix, as the
 * store uses it to turn the `:id` path parameter into a number
 * (ECMAScript 2024, section 19.2.5), and the decimal rendering of a
 * non-negative integer that produces such parameters (what `String(n)`
 * gives for the integers below 2^53 that ids are).
 * A result of None stands for NaN.
 */
module JsParse {
  import opened Wrappers

  /** StrWhiteSpaceChar: WhiteSpace and LineTerminator code points (ECMAScript 2024, sections 12.2, 12.3 and 7.1.4.1.1). */
  predicate IsStrWhiteSpace(c: char) {
    || c == '\t' || c == '\n' || c == '\U{000B}' || c == '\U{000C}' || c == '\r'
    || c == ' ' || c == '\U{00A0}' || c == '\U{1680}'
    || ('\U{2000}' <= c <= '\U{200A}')
    || c == '\U{2028}' || c == '\U{2029}' || c == '\U{202F}' || c == '\U{205F}'
    || c == '\U{3000}' || c == '\U{FEFF}'
  }

  /** Drops the leading white space. */
  function TrimStart(s: string): (t: string)
    ensures |t| <= |s| && t == s[|s| - |t|..]
    ensures t == [] || !IsStrWhiteSpace(t[0])
    ensures forall i :: 0 <= i < |s| - |t| ==> IsStrWhiteSpace(s[i])
  {
    if s != [] && IsStrWhiteSpace(s[0]) then TrimStart(s[1..]) else s
  }

  /** The value of c as a digit in a radix up to 36 (0-9, then a or A = 10 up to z or Z = 35); 36 for any other character. */
  function DigitValue(c: char): (v: nat)
    ensures v <= 36
    ensures v < 10 <==> '0' <= c <= '9'
  {
    if '0' <= c <= '9' then c as int - '0' as int
    else if 'a' <= c <= 'z' then c as int - 'a' as int + 10
    else if 'A' <= c <= 'Z' then c as int - 'A' as int + 10
    else 36
  }

  predicate IsDigit(c: char, radix: nat) {
    DigitValue(c) < radix
  }

  /** The length of the longest prefix of s made of radix digits. */
  function DigitPrefixLength(s: string, radix: nat): (n: nat)
    ensures n <= |s|
    ensures forall i :: 0 <= i < n ==> IsDigit(s[i], radix)
    ensures n < |s| ==> !IsDigit(s[n], radix)
  {
    if s != [] && IsDigit(s[0], radix) then 1 + DigitPrefixLength(s[1..], radix) else 0
  }

  /** The mathematical value of a string of digits, most significant first. */
  function DigitsValue(ds: string, radix: nat): nat {
    if ds == [] then 0 else DigitsValue(ds[..|ds| - 1], radix) * radix + DigitValue(ds[|ds| - 1])
  }

  /**
   * parseInt(input) with the radix left undefined: skip leading white space,
   * take one optional sign, switch to radix 16 on a "0x" or "0X" prefix,
   * then read the longest run of digits; no digit at all gives NaN (None).
   * Whatever follows the digits is ignored.
   */
  function ParseInt(input: string): Option<int> {
    var s := TrimStart(input);
    var sign := if s != [] && s[0] == '-' then -1 else 1;
    var unsigned := if s != [] && (s[0] == '+' || s[0] == '-') then s[1..] else s;
    var hex := |unsigned| >= 2 && unsigned[0] == '0' && (unsigned[1] == 'x' || unsigned[1] == 'X');
    var radix := if hex then 16 else 10;
    var digits := if hex then unsigned[2..] else unsigned;
    var n := DigitPrefixLength(digits, radix);
    if n == 0 then None else Some(sign * DigitsValue(digits[..n], radix))
  }

  /** A number comes only from an input holding at least one digit, and it is negative only after a leading "-". */
  lemma ParseIntNeedsDigit(input: string)
    ensures ParseInt(input).Some? ==> exists i :: 0 <= i < |input| && IsDigit(input[i], 16)
    ensures ParseInt(input).Some? && ParseInt(input).value < 0 ==> TrimStart(input) != [] && TrimStart(input)[0] == '-'
  {
  }

  function DigitChar(d: nat): (c: char)
    requires d < 10
    ensures DigitValue(c) == d
  {
    ('0' as int + d) as char
  }

  /**
   * The decimal digits of n without leading zeros. For n below 2^53 this is
   * JavaScript's String(n); above that, String gives a rounded or exponent
   * form instead.
   */
  function DecimalString(n: nat): (s: string)
    ensures |s| >= 1
    ensures forall i :: 0 <= i < |s| ==> IsDigit(s[i], 10)
    ensures s[0] == '0' ==> n == 0
  {
    if n < 10 then [DigitChar(n)] else DecimalString(n / 10) + [DigitChar(n % 10)]
  }

  lemma {:induction false} DecimalStringValue(n: nat)
    ensures DigitsValue(DecimalString(n), 10) == n
  {
    if n >= 10 {
      var s := DecimalString(n);
      assert s[..|s| - 1] == DecimalString(n / 10);
      DecimalStringValue(n / 10);
    }
  }

  lemma {:induction false} DigitPrefixOfDigits(ds: string, t: string, radix: nat)
    requires forall i :: 0 <= i < |ds| ==> IsDigit(ds[i], radix)
    requires t == [] || !IsDigit(t[0], radix)
    ensures DigitPrefixLength(ds + t, radix) == |ds|
  {
    if ds != [] {
      assert (ds + t)[1..] == ds[1..] + t;
      DigitPrefixOfDigits(ds[1..], t, radix);
    }
  }

  /** A string that starts with a decimal digit, and not with "0x" or "0X", is read in radix 10 from its first character. */
  lemma ParseIntDecimalStart(s: string)
    requires s != [] && IsDigit(s[0], 10)
    requires !(|s| >= 2 && s[0] == '0' && (s[1] == 'x' || s[1] == 'X'))
    ensures ParseInt(s) == Some(DigitsValue(s[..DigitPrefixLength(s, 10)], 10))
  {
    assert !IsStrWhiteSpace(s[0]);
    assert TrimStart(s) == s;
  }

  /**
   * parseInt reads back the decimal rendering of n even when other text
   * follows it, as long as that text does not begin with a decimal digit
   * (and, after "0", not with x or X, which would start a hexadecimal
   * literal): parseInt("3abc") is 3, not NaN.
   */
  lemma ParseIntDecimalPrefix(n: nat, t: string)
    requires t == [] || !IsDigit(t[0], 10)
    requires n == 0 && t != [] ==> t[0] != 'x' && t[0] != 'X'
    ensures ParseInt(DecimalString(n) + t) == Some(n)
  {
    var ds := DecimalString(n);
    var s := ds + t;
    assert s[0] == ds[0];
    if ds[0] == '0' {
      assert n == 0 && |ds| == 1;
      assert |s| >= 2 ==> s[1] == t[0];
    }
    ParseIntDecimalStart(s);
    DigitPrefixOfDigits(ds, t, 10);
    assert s[..|ds|] == ds;
    DecimalStringValue(n);
  }

  /** The round trip: parseInt reads the decimal rendering of every non-negative integer n back as n. */
  lemma ParseIntRoundTrip(n: nat)
    ensures ParseInt(DecimalString(n)) == Some(n)
  {
    ParseIntDecimalPrefix(n, []);
    assert DecimalString(n) + [] == DecimalString(n);
  }

  /** Inputs with no digit after the optional sign give NaN. */
  lemma ParseIntNoDigits(s: string)
    requires s == [] || (!IsStrWhiteSpace(s[0]) && s[0] != '+' && s[0] != '-' && !IsDigit(s[0], 10))
    ensures ParseInt(s) == None
  {
    assert TrimStart(s) == s;
  }

  /** A trailing non-digit suffix is ignored and a leading letter gives NaN. */
  lemma ParseIntExamples()
    ensures ParseInt("3abc") == Some(3)
    ensures ParseInt("abc") == None
  {
    assert ParseInt("3abc") == Some(3) by {
      ParseIntDecimalPrefix(3, "abc");
      assert DecimalString(3) + "abc" == "3abc";
    }
    assert ParseInt("abc") == None by {
      ParseIntNoDigits("abc");
    }
  }
}
