/**
 The two pieces of JavaScript number handling the recent-hires template relies
 on: the global `parseInt` with no radix, and the conversion of the resulting
 number back to text when it is spliced into a template literal.
 */
module JsNumber {
  import Text

  /** An integral JavaScript number, or NaN (what `parseInt` returns on no digits). */
  datatype Number = NaN | Finite(value: int)

  predicate IsDecimalDigit(c: char) {
    '0' <= c <= '9'
  }

  /** The value of `c` as a digit in base `radix`, if it is one. */
  function DigitValue(c: char, radix: nat): (r: int)
    requires radix == 10 || radix == 16
    ensures -1 <= r < radix
    ensures IsDecimalDigit(c) ==> r == c as int - '0' as int
  {
    if IsDecimalDigit(c) then c as int - '0' as int
    else if radix == 16 && 'a' <= c <= 'f' then c as int - 'a' as int + 10
    else if radix == 16 && 'A' <= c <= 'F' then c as int - 'A' as int + 10
    else -1
  }

  predicate AllDigits(s: string, radix: nat)
    requires radix == 10 || radix == 16
  {
    forall i :: 0 <= i < |s| ==> DigitValue(s[i], radix) >= 0
  }

  /** The longest prefix of `s` made of digits of base `radix`. */
  function DigitPrefix(s: string, radix: nat): (r: string)
    requires radix == 10 || radix == 16
    ensures |r| <= |s| && r == s[..|r|]
    ensures AllDigits(r, radix)
    ensures |r| < |s| ==> DigitValue(s[|r|], radix) < 0
  {
    if |s| > 0 && DigitValue(s[0], radix) >= 0 then [s[0]] + DigitPrefix(s[1..], radix) else []
  }

  /** The mathematical value of a digit string, most significant digit first. */
  function DigitsValue(s: string, radix: nat): (r: nat)
    requires radix == 10 || radix == 16
    requires AllDigits(s, radix)
  {
    if |s| == 0 then 0
    else DigitsValue(s[..|s| - 1], radix) * radix + DigitValue(s[|s| - 1], radix)
  }

  /**
   `parseInt(s)` with the radix left undefined: skip leading whitespace, take an
   optional sign, switch to base 16 on a `0x`/`0X` prefix, then read the longest
   run of digits; no digit at all gives NaN.
   */
  function ParseInt(s: string): Number {
    var t := Text.TrimStart(s);
    var negative := |t| > 0 && t[0] == '-';
    var u := if |t| > 0 && (t[0] == '-' || t[0] == '+') then t[1..] else t;
    var hex := |u| >= 2 && u[0] == '0' && (u[1] == 'x' || u[1] == 'X');
    var radix := if hex then 16 else 10;
    var digits := DigitPrefix(if hex then u[2..] else u, radix);
    if |digits| == 0 then NaN
    else
      var magnitude: int := DigitsValue(digits, radix);
      Finite(if negative then -magnitude else magnitude)
  }

  /** The decimal numeral of `n`, without leading zeros. */
  function NatToString(n: nat): (r: string)
    ensures |r| > 0
    ensures AllDigits(r, 10)
    ensures r[0] == '0' ==> n == 0 && |r| == 1
  {
    if n < 10 then ['0' + n as char]
    else NatToString(n / 10) + ['0' + (n % 10) as char]
  }

  /** `String(x)` for the numbers `ParseInt` produces. */
  function ToString(x: Number): string {
    match x
    case NaN => "NaN"
    case Finite(v) => if v < 0 then "-" + NatToString(-v) else NatToString(v)
  }

  lemma {:induction false} DigitsValueOfNatToString(n: nat)
    ensures DigitsValue(NatToString(n), 10) == n
  {
    var s := NatToString(n);
    if n >= 10 {
      DigitsValueOfNatToString(n / 10);
      assert s[..|s| - 1] == NatToString(n / 10);
    }
  }

  lemma {:induction false} DigitPrefixOfDigits(s: string, radix: nat)
    requires radix == 10 || radix == 16
    requires AllDigits(s, radix)
    ensures DigitPrefix(s, radix) == s
  {
    if |s| > 0 {
      DigitPrefixOfDigits(s[1..], radix);
      assert s == [s[0]] + s[1..];
    }
  }

  /** A decimal digit string has no leading whitespace, no sign and no hexadecimal prefix. */
  lemma DecimalDigitsArePlain(s: string)
    requires |s| > 0 && AllDigits(s, 10)
    ensures Text.TrimStart(s) == s
    ensures s[0] != '-' && s[0] != '+'
    ensures !(|s| >= 2 && s[0] == '0' && (s[1] == 'x' || s[1] == 'X'))
  {
    assert DigitValue(s[0], 10) >= 0;
    assert '0' <= s[0] <= '9';
    assert !Text.IsJsWhitespace(s[0]);
    if |s| >= 2 {
      assert DigitValue(s[1], 10) >= 0;
      assert '0' <= s[1] <= '9';
    }
  }

  /** A string of decimal digits parses to its decimal value; leading zeros included. */
  lemma ParseIntOfDecimalDigits(s: string)
    requires |s| > 0 && AllDigits(s, 10)
    ensures ParseInt(s) == Finite(DigitsValue(s, 10))
  {
    DecimalDigitsArePlain(s);
    DigitPrefixOfDigits(s, 10);
  }

  /** Printing a non-negative integer and parsing it back gives the same number. */
  lemma ParseIntRoundTrip(n: nat)
    ensures ParseInt(ToString(Finite(n))) == Finite(n)
  {
    ParseIntOfDecimalDigits(NatToString(n));
    DigitsValueOfNatToString(n);
  }
}
