/**
 The part of JavaScript's number semantics that the settings layer relies
 on: `parseInt(s)` with no radix argument, which reads the redraw throttle
 back from storage, and `String(n)`, which the storage backend applies to a
 number before it stores it.

 Numbers are modelled as integers plus NaN. `parseInt` can also yield
 +Infinity (a run of 309 or more digits) and -0 (for "-0"); those two
 values are not part of this model.
 */
module JsNumbers {

  /** A JavaScript number: an integer or NaN. */
  datatype JsNumber = Int(value: int) | NaN

  /** StrWhiteSpaceChar of ECMAScript: WhiteSpace (tab, vertical tab, form
      feed, the byte order mark and every space separator) and LineTerminator. */
  predicate IsWhiteSpace(c: char) {
    var u := c as int;
    u == 0x09 || u == 0x0B || u == 0x0C || u == 0xFEFF
    || u == 0x20 || u == 0xA0 || u == 0x1680 || (0x2000 <= u <= 0x200A)
    || u == 0x202F || u == 0x205F || u == 0x3000
    || u == 0x0A || u == 0x0D || u == 0x2028 || u == 0x2029
  }

  predicate IsDecimalDigit(c: char) {
    '0' <= c <= '9'
  }

  /** A digit of the given radix; `parseInt` without a radix uses 10 or 16. */
  predicate IsRadixDigit(c: char, radix: nat) {
    if radix == 16 then IsDecimalDigit(c) || 'a' <= c <= 'f' || 'A' <= c <= 'F'
    else IsDecimalDigit(c)
  }

  predicate AllRadixDigits(s: string, radix: nat) {
    forall i :: 0 <= i < |s| ==> IsRadixDigit(s[i], radix)
  }

  /** The value of a (decimal or hexadecimal) digit character. */
  function DigitValue(c: char): (d: nat)
    ensures IsDecimalDigit(c) ==> d == c as int - '0' as int
    ensures IsRadixDigit(c, 16) ==> d < 16
  {
    if IsDecimalDigit(c) then c as int - '0' as int
    else if 'a' <= c <= 'f' then c as int - 'a' as int + 10
    else if 'A' <= c <= 'F' then c as int - 'A' as int + 10
    else 0
  }

  /** The character of a decimal digit. */
  function DecimalChar(d: nat): (c: char)
    requires d < 10
    ensures IsDecimalDigit(c) && DigitValue(c) == d
  {
    ('0' as int + d) as char
  }

  /** The numeric value of a string of digits, most significant first. */
  function DigitsValue(s: string, radix: nat): nat {
    if s == [] then 0
    else DigitsValue(s[..|s| - 1], radix) * radix + DigitValue(s[|s| - 1])
  }

  /** `s` with its leading white space removed. */
  function TrimStart(s: string): string {
    if s != [] && IsWhiteSpace(s[0]) then TrimStart(s[1..]) else s
  }

  /** The longest prefix of `s` made of digits of the radix. */
  function DigitPrefix(s: string, radix: nat): string {
    if s == [] || !IsRadixDigit(s[0], radix) then []
    else [s[0]] + DigitPrefix(s[1..], radix)
  }

  /** `TrimStart` removes exactly the leading run of white space. */
  lemma {:induction false} TrimStartSpec(s: string)
    ensures var r := TrimStart(s);
      && |r| <= |s| && r == s[|s| - |r|..]
      && (r == [] || !IsWhiteSpace(r[0]))
      && forall i :: 0 <= i < |s| - |r| ==> IsWhiteSpace(s[i])
  {
    if s != [] && IsWhiteSpace(s[0]) {
      var t := s[1..];
      TrimStartSpec(t);
      var r := TrimStart(t);
      assert TrimStart(s) == r;
      assert t[|t| - |r|..] == s[|s| - |r|..];
      forall i | 0 <= i < |s| - |r| ensures IsWhiteSpace(s[i]) {
        if i > 0 { assert s[i] == t[i - 1]; }
      }
    }
  }

  /** `DigitPrefix` is the longest prefix made of digits of the radix. */
  lemma {:induction false} DigitPrefixSpec(s: string, radix: nat)
    ensures var r := DigitPrefix(s, radix);
      && |r| <= |s| && r == s[..|r|]
      && AllRadixDigits(r, radix)
      && (|r| == |s| || !IsRadixDigit(s[|r|], radix))
  {
    if s != [] && IsRadixDigit(s[0], radix) {
      DigitPrefixSpec(s[1..], radix);
    }
  }

  /** Digits after any sign: a `0x` or `0X` prefix switches to radix 16,
      then the longest run of digits is read; NaN if that run is empty. */
  function ParseDigits(u: string): JsNumber {
    var hex := |u| >= 2 && u[0] == '0' && (u[1] == 'x' || u[1] == 'X');
    var radix := if hex then 16 else 10;
    var z := DigitPrefix(if hex then u[2..] else u, radix);
    if z == [] then NaN else Int(DigitsValue(z, radix))
  }

  /** The sign applied to the digits' value; NaN stays NaN. */
  function Negate(x: JsNumber): JsNumber {
    match x
    case NaN => NaN
    case Int(i) => Int(-i)
  }

  /** An optional `-` or `+` followed by digits. */
  function ParseSigned(t: string): JsNumber {
    if t != [] && t[0] == '-' then Negate(ParseDigits(t[1..]))
    else if t != [] && t[0] == '+' then ParseDigits(t[1..])
    else ParseDigits(t)
  }

  /** JavaScript's `parseInt(s)` with the radix left undefined: skip leading
      white space, then read a signed run of digits. */
  function ParseInt(s: string): JsNumber {
    ParseSigned(TrimStart(s))
  }

  /** The decimal digits of a natural number, without leading zeros. */
  function NatToDecimal(n: nat): (s: string)
    decreases n
  {
    if n < 10 then [DecimalChar(n)]
    else NatToDecimal(n / 10) + [DecimalChar(n % 10)]
  }

  /** JavaScript's `String(x)` for the numbers of this model. */
  function NumberToString(x: JsNumber): string {
    match x
    case NaN => "NaN"
    case Int(i) => if i < 0 then "-" + NatToDecimal(-i) else NatToDecimal(i)
  }

  lemma {:induction false} NatToDecimalDigits(n: nat)
    ensures NatToDecimal(n) != []
    ensures AllRadixDigits(NatToDecimal(n), 10)
    ensures DigitsValue(NatToDecimal(n), 10) == n
    decreases n
  {
    if n >= 10 {
      NatToDecimalDigits(n / 10);
      var s := NatToDecimal(n);
      assert s[..|s| - 1] == NatToDecimal(n / 10);
    }
  }

  /** A digit string is its own longest digit prefix. */
  lemma {:induction false} DigitPrefixOfDigits(s: string, radix: nat)
    requires AllRadixDigits(s, radix)
    ensures DigitPrefix(s, radix) == s
  {
    if s != [] {
      DigitPrefixOfDigits(s[1..], radix);
    }
  }

  /** A non-empty decimal digit string has no sign and no `0x` prefix, so it
      is read in radix 10 as a whole. */
  lemma ParseDigitsOfDecimal(s: string)
    requires s != [] && AllRadixDigits(s, 10)
    ensures ParseDigits(s) == Int(DigitsValue(s, 10))
  {
    assert |s| >= 2 ==> IsDecimalDigit(s[1]);
    DigitPrefixOfDigits(s, 10);
  }

  /** `parseInt` reads every non-empty string of decimal digits as its value. */
  lemma ParseIntOfDecimal(s: string)
    requires s != [] && AllRadixDigits(s, 10)
    ensures ParseInt(s) == Int(DigitsValue(s, 10))
  {
    assert IsDecimalDigit(s[0]);
    assert TrimStart(s) == s;
    ParseDigitsOfDecimal(s);
  }

  /** `parseInt("NaN")` finds no digit. */
  lemma ParseIntOfNaNString()
    ensures ParseInt("NaN") == NaN
  {
    var s := "NaN";
    assert !IsWhiteSpace(s[0]);
    assert TrimStart(s) == s;
    assert !IsRadixDigit(s[0], 10);
    assert ParseSigned(s) == ParseDigits(s);
  }

  /** A minus sign followed by the decimal digits of `n` reads as `-n`. */
  lemma ParseIntOfNegative(n: nat)
    ensures ParseInt("-" + NatToDecimal(n)) == Int(-(n as int))
  {
    var d := NatToDecimal(n);
    NatToDecimalDigits(n);
    var s := "-" + d;
    assert !IsWhiteSpace(s[0]);
    assert TrimStart(s) == s;
    assert s[1..] == d;
    ParseDigitsOfDecimal(d);
  }

  /** `parseInt(String(x)) == x` for every number of the model, NaN included. */
  lemma ParseIntOfNumberToString(x: JsNumber)
    ensures ParseInt(NumberToString(x)) == x
  {
    match x
    case NaN =>
      ParseIntOfNaNString();
    case Int(i) =>
      if i < 0 {
        ParseIntOfNegative(-i);
      } else {
        NatToDecimalDigits(i);
        ParseIntOfDecimal(NatToDecimal(i));
      }
  }

  /** The string form of a number is never empty, so `String(n) || d` is `String(n)`. */
  lemma NumberToStringNonEmpty(x: JsNumber)
    ensures NumberToString(x) != []
  {
    if x.Int? && x.value >= 0 {
      NatToDecimalDigits(x.value);
    }
  }

  /** `parseInt("50")`, the throttle's fallback string, is 50. */
  lemma ParseIntFifty()
    ensures ParseInt("50") == Int(50)
  {
    var s := "50";
    assert !IsWhiteSpace(s[0]);
    assert TrimStart(s) == s;
    assert ParseSigned(s) == ParseDigits(s);
    assert IsDecimalDigit(s[0]) && IsDecimalDigit(s[1]);
    assert s[..1] == "5";
    ParseDigitsOfDecimal(s);
  }

  /** `parseInt("120")` is 120. */
  lemma ParseIntOneTwenty()
    ensures ParseInt("120") == Int(120)
  {
    var s := "120";
    assert !IsWhiteSpace(s[0]);
    assert TrimStart(s) == s;
    assert ParseSigned(s) == ParseDigits(s);
    assert IsDecimalDigit(s[0]) && IsDecimalDigit(s[1]) && IsDecimalDigit(s[2]);
    var t := "12";
    assert s[..2] == t && t[..1] == "1";
    assert DigitsValue(t, 10) == 12;
    ParseDigitsOfDecimal(s);
  }

  /** `parseInt("")` and `parseInt("fast")` are NaN. */
  lemma ParseIntNaNExamples()
    ensures ParseInt("") == NaN
    ensures ParseInt("fast") == NaN
  {
    var f := "fast";
    assert !IsWhiteSpace(f[0]) && !IsRadixDigit(f[0], 10);
    assert TrimStart(f) == f;
    assert ParseSigned(f) == ParseDigits(f);
  }

  /** `parseInt` is NaN whenever no decimal digit follows the leading
      white space and the optional sign: without a leading `0` there is no
      `0x` prefix, and the decimal digit run is empty. */
  lemma ParseIntNoDigit(s: string)
    requires var t := TrimStart(s);
      var u := if t != [] && (t[0] == '-' || t[0] == '+') then t[1..] else t;
      u == [] || !IsDecimalDigit(u[0])
    ensures ParseInt(s) == NaN
  {
    var t := TrimStart(s);
    var u := if t != [] && (t[0] == '-' || t[0] == '+') then t[1..] else t;
    assert DigitPrefix(u, 10) == [];
    assert ParseDigits(u) == NaN;
  }

  /** `parseInt(" 7ms")` is 7. */
  lemma ParseIntPrefixExample()
    ensures ParseInt(" 7ms") == Int(7)
  {
    var s := " 7ms";
    assert IsWhiteSpace(s[0]) && !IsWhiteSpace(s[1]);
    assert s[1..] == "7ms";
    assert TrimStart(s) == TrimStart(s[1..]) == s[1..];
    var t := "7ms";
    assert ParseSigned(t) == ParseDigits(t);
    assert !IsRadixDigit(t[1], 10);
    assert DigitPrefix(t[1..], 10) == [];
    assert DigitPrefix(t, 10) == "7";
    assert DigitsValue("7", 10) == 7;
    assert ParseDigits(t) == Int(7);
  }
}
