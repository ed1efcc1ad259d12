/** JavaScript's `parseInt` on decimal and `0x` text, as the geolocation
    router uses it. */
module JsNumbers {
  import opened Base

  /** A number `parseInt` can produce: `NaN` or an integer. */
  datatype JsNumber = NaN | Int(i: int)

  predicate TruthyNumber(n: JsNumber)
  {
    n.Int? && n.i != 0
  }

  /** The longest prefix of decimal digits. */
  function DigitPrefix(s: string): (p: string)
    ensures |p| <= |s| && p == s[..|p|] && AllDigits(p)
    ensures |p| < |s| ==> !IsDigit(s[|p|])
  {
    if s != [] && IsDigit(s[0]) then [s[0]] + DigitPrefix(s[1..]) else []
  }

  predicate IsHexDigit(c: char)
  {
    IsDigit(c) || 'a' <= c <= 'f' || 'A' <= c <= 'F'
  }

  function HexDigitValue(c: char): (d: nat)
    requires IsHexDigit(c)
    ensures d < 16
  {
    if IsDigit(c) then DigitValue(c)
    else if 'a' <= c <= 'f' then c as int - 'a' as int + 10
    else c as int - 'A' as int + 10
  }

  /** The longest prefix of hexadecimal digits. */
  function HexPrefix(s: string): (p: string)
    ensures |p| <= |s| && p == s[..|p|]
    ensures forall i :: 0 <= i < |p| ==> IsHexDigit(p[i])
    ensures |p| < |s| ==> !IsHexDigit(s[|p|])
  {
    if s != [] && IsHexDigit(s[0]) then [s[0]] + HexPrefix(s[1..]) else []
  }

  function HexValue(s: string): nat
    requires forall i :: 0 <= i < |s| ==> IsHexDigit(s[i])
  {
    if s == [] then 0 else HexValue(s[..|s| - 1]) * 16 + HexDigitValue(s[|s| - 1])
  }

  /** The magnitude `parseInt` reads after the sign: `0x`/`0X` then hex
      digits, otherwise decimal digits; no digit at all is `NaN`. */
  function ParseMagnitude(s: string): (n: JsNumber)
    ensures n.Int? ==> n.i >= 0
  {
    if |s| >= 2 && s[0] == '0' && (s[1] == 'x' || s[1] == 'X') then
      var h := HexPrefix(s[2..]);
      if h == [] then NaN else Int(HexValue(h))
    else
      var d := DigitPrefix(s);
      if d == [] then NaN else Int(DigitsValue(d))
  }

  /** `parseInt(s)` with no radix: leading white space is skipped, then an
      optional sign, then the magnitude. */
  function ParseInt(s: string): (n: JsNumber)
    ensures TrimStart(s) == [] ==> n == NaN
  {
    var t := TrimStart(s);
    if t != [] && (t[0] == '-' || t[0] == '+') then
      match ParseMagnitude(t[1..])
      case NaN => NaN
      case Int(m) => Int(if t[0] == '-' then -m else m)
    else ParseMagnitude(t)
  }

  /** `Number(s)` (and the conversion `<` applies to a string) on decimal
      integer text: white space around it is ignored, empty text is 0, `0x`
      introduces hex digits, and other text is `NaN` here (fractions,
      exponents, `Infinity`, `0b` and `0o` text are not read). */
  function ToNumber(s: string): (n: JsNumber)
    ensures Trim(s) == "" ==> n == Int(0)
  {
    var t := Trim(s);
    if t == "" then Int(0)
    else if |t| >= 2 && t[0] == '0' && (t[1] == 'x' || t[1] == 'X') then
      if |t| > 2 && forall i :: 2 <= i < |t| ==> IsHexDigit(t[i]) then Int(HexValue(t[2..])) else NaN
    else
      var sign := if t[0] == '-' || t[0] == '+' then 1 else 0;
      var digits := t[sign..];
      if digits != [] && AllDigits(digits) then
        var v: int := DigitsValue(digits);
        Int(if t[0] == '-' then -v else v)
      else NaN
  }

  /** `Number` reads back the text of any integer written without an exponent,
      like `parseInt`. */
  lemma ToNumberRoundTrip(n: int)
    requires -ExponentFrom < n < ExponentFrom
    ensures ToNumber(IntToString(n)) == Int(n)
  {
    var s := IntToString(n);
    var m: nat := if n < 0 then -n else n;
    assert TrimStart(s) == s;
    assert TrimEnd(s) == s;
    NatToStringRoundTrip(m);
    if n < 0 {
      assert s[1..] == NatToString(m);
    }
  }

  /** `parseInt(v)`: the value is converted to a string first. */
  function ParseIntValue(v: Value): JsNumber
  {
    ParseInt(JsString(v))
  }

  lemma {:induction false} DigitPrefixOfDigits(s: string)
    requires AllDigits(s)
    ensures DigitPrefix(s) == s
  {
    if s != [] {
      DigitPrefixOfDigits(s[1..]);
    }
  }

  /** `parseInt` reads back the text of any integer written without an exponent. */
  lemma ParseIntRoundTrip(n: int)
    requires -ExponentFrom < n < ExponentFrom
    ensures ParseInt(IntToString(n)) == Int(n)
  {
    var s := IntToString(n);
    var m: nat := if n < 0 then -n else n;
    var digits := NatToString(m);
    assert TrimStart(s) == s;
    DigitPrefixOfDigits(digits);
    NatToStringRoundTrip(m);
    if n < 0 {
      assert s[1..] == digits;
    }
    assert !(|digits| >= 2 && digits[0] == '0');
  }

  /** `parseInt` of `undefined` or `null` is `NaN`. */
  lemma ParseIntOfNothing()
    ensures ParseIntValue(Undefined) == NaN && ParseIntValue(Null) == NaN
  {
    assert TrimStart("undefined") == "undefined";
    assert TrimStart("null") == "null";
  }
}
