/** Parameter values as the tools read them: a `vtkVariant` holding either the
    descriptor's typed default or the raw attribute string of the parameter
    node, and the integer conversion `vtkVariant::ToInt` applies to it. */
module Variants {

  /** The value types a tool parameter may declare. */
  datatype ParameterType =
    | ParameterBool
    | ParameterInt
    | ParameterDouble
    | ParameterString
    | ParameterStringEnum

  /** A `vtkVariant`. `TypeCode` is the variant built from a `ParameterType`
      enumerator, which the parameter-value accessor returns for an index out
      of range. */
  datatype Variant =
    | Invalid
    | Bool(b: bool)
    | Int(i: int)
    | Double(d: real)
    | Str(s: string)
    | TypeCode(t: ParameterType)

  const Int32Min: int := -0x8000_0000
  const Int32Max: int := 0x7FFF_FFFF

  predicate IsDigit(c: char) {
    '0' <= c <= '9'
  }

  predicate AllDigits(s: string) {
    forall i :: 0 <= i < |s| ==> IsDigit(s[i])
  }

  function DigitValue(c: char): nat
    requires IsDigit(c)
  {
    (c as int) - ('0' as int)
  }

  function DigitChar(d: nat): (c: char)
    requires d < 10
    ensures IsDigit(c) && DigitValue(c) == d
  {
    (('0' as int) + d) as char
  }

  /** The value of a non-empty run of decimal digits, most significant first. */
  function DigitsValue(s: string): nat
    requires AllDigits(s)
  {
    if |s| == 0 then 0
    else DigitsValue(s[..|s| - 1]) * 10 + DigitValue(s[|s| - 1])
  }

  /** Decimal text of a natural number, without leading zeros. */
  function Decimal(n: nat): (s: string)
    ensures |s| >= 1 && AllDigits(s)
  {
    if n < 10 then [DigitChar(n)]
    else Decimal(n / 10) + [DigitChar(n % 10)]
  }

  /** The characters `isspace` accepts in the C locale: blank, tab, line
      feed, vertical tab, form feed and carriage return. */
  predicate IsSpace(c: char) {
    c == ' ' || 9 <= c as int <= 13
  }

  /** The text after the leading white space. */
  function SkipSpace(s: string): (t: string)
    ensures |t| <= |s| && t == s[|s| - |t|..]
    ensures |t| == 0 || !IsSpace(t[0])
    ensures forall i :: 0 <= i < |s| - |t| ==> IsSpace(s[i])
  {
    if |s| > 0 && IsSpace(s[0]) then SkipSpace(s[1..]) else s
  }

  /** The length of the longest run of digits at the start of s. */
  function DigitPrefixLength(s: string): (k: nat)
    ensures k <= |s| && AllDigits(s[..k])
    ensures k == |s| || !IsDigit(s[k])
  {
    if |s| > 0 && IsDigit(s[0]) then
      var k := 1 + DigitPrefixLength(s[1..]);
      assert s[..k] == [s[0]] + s[1..][..k - 1];
      k
    else 0
  }

  /** A value outside the 32-bit range is stored as the nearest bound. */
  function Saturate32(v: int): int {
    if v < Int32Min then Int32Min else if v > Int32Max then Int32Max else v
  }

  /** The 32-bit value a sign and a magnitude denote. */
  function Signed(negative: bool, magnitude: nat): int {
    Saturate32(if negative then -(magnitude as int) else magnitude)
  }

  datatype ParseResult = NotANumber | Number(value: int)

  /** Extraction of an `int` from a string stream (`stream >> i`), which is
      how `vtkVariant` converts a string: leading white space is skipped, an
      optional sign and the longest run of digits after it are read, and the
      rest of the text is ignored. Without a digit nothing is read; a value
      too large in magnitude is stored as the 32-bit bound. */
  function ExtractInt(s: string): (r: ParseResult)
    ensures r.Number? ==> Int32Min <= r.value <= Int32Max
  {
    ReadSigned(SkipSpace(s))
  }

  /** An optional sign, then the digits. */
  function ReadSigned(t: string): (r: ParseResult)
    ensures r.Number? ==> Int32Min <= r.value <= Int32Max
  {
    if |t| > 0 && (t[0] == '-' || t[0] == '+') then ReadDigits(t[0] == '-', t[1..])
    else ReadDigits(false, t)
  }

  /** The longest run of leading digits, negated after a minus sign. */
  function ReadDigits(negative: bool, body: string): (r: ParseResult)
    ensures r.Number? ==> Int32Min <= r.value <= Int32Max
    ensures r.NotANumber? <==> |body| == 0 || !IsDigit(body[0])
  {
    var k := DigitPrefixLength(body);
    if k == 0 then NotANumber
    else
      Number(Signed(negative, DigitsValue(body[..k])))
  }

  /** "-" for a negative number, nothing otherwise. */
  function Sign(negative: bool): string {
    if negative then "-" else ""
  }

  /** Decimal text of an integer, as `vtkVariant::ToString` writes it. */
  function IntToString(i: int): string
  {
    Sign(i < 0) + Decimal(if i < 0 then -i else i)
  }

  /** `vtkVariant::ToInt`: a string converts to the value of its leading
      integer, whatever follows it, and to 0 when it does not start with one;
      the validity flag is not consulted. An invalid variant converts to 0. */
  function ToInt(v: Variant): (r: int)
    requires !v.TypeCode?
    ensures v.Str? ==> Int32Min <= r <= Int32Max
    ensures v.Bool? ==> (r != 0 <==> v.b)
    ensures v.Invalid? ==> r == 0
  {
    match v
    case Invalid => 0
    case Bool(b) => if b then 1 else 0
    case Int(i) => i
    case Double(d) => if d >= 0.0 then d.Floor else -((-d).Floor)
    case Str(s) => if ExtractInt(s).Number? then ExtractInt(s).value else 0
  }

  /** A boolean parameter is on when its value converts to a non-zero integer. */
  predicate IsOn(v: Variant)
    requires !v.TypeCode?
  {
    ToInt(v) != 0
  }

  lemma {:induction false} DecimalRoundTrip(n: nat)
    ensures DigitsValue(Decimal(n)) == n
    decreases n
  {
    if n >= 10 {
      var s := Decimal(n);
      assert s[..|s| - 1] == Decimal(n / 10);
      DecimalRoundTrip(n / 10);
    }
  }

  /** White space in front of text that does not start with white space is
      skipped. */
  lemma {:induction false} SkipSpaceOver(ws: string, x: string)
    requires forall k :: 0 <= k < |ws| ==> IsSpace(ws[k])
    requires |x| == 0 || !IsSpace(x[0])
    ensures SkipSpace(ws + x) == x
    decreases |ws|
  {
    if |ws| == 0 {
      assert ws + x == x;
    } else {
      assert (ws + x)[1..] == ws[1..] + x;
      SkipSpaceOver(ws[1..], x);
    }
  }

  /** A run of digits followed by a non-digit is read up to the non-digit. */
  lemma {:induction false} DigitRunThenStop(d: string, rest: string)
    requires AllDigits(d)
    requires |rest| == 0 || !IsDigit(rest[0])
    ensures DigitPrefixLength(d + rest) == |d| && (d + rest)[..|d|] == d
    decreases |d|
  {
    if |d| == 0 {
      assert d + rest == rest;
    } else {
      assert (d + rest)[1..] == d[1..] + rest;
      DigitRunThenStop(d[1..], rest);
    }
  }

  /** White space, an optional minus sign, digits and then a non-digit: the
      digits are read, with the sign, and the rest is ignored. */
  lemma SignedDigitsRead(ws: string, negative: bool, d: string, rest: string)
    requires forall k :: 0 <= k < |ws| ==> IsSpace(ws[k])
    requires |d| > 0 && AllDigits(d)
    requires |rest| == 0 || !IsDigit(rest[0])
    ensures ExtractInt(ws + (Sign(negative) + (d + rest))) == Number(Signed(negative, DigitsValue(d)))
  {
    var x := Sign(negative) + (d + rest);
    SignRead(negative, d + rest);
    SkipSpaceOver(ws, x);
    DigitsRead(negative, d, rest);
  }

  /** A sign in front of a digit is read as the sign of what follows. */
  lemma SignRead(negative: bool, body: string)
    requires |body| > 0 && IsDigit(body[0])
    ensures var x := Sign(negative) + body;
      x[0] != ' ' && !IsSpace(x[0]) && ReadSigned(x) == ReadDigits(negative, body)
  {
    var x := Sign(negative) + body;
    if negative {
      assert x[0] == '-' && x[1..] == body;
    } else {
      assert x == body;
    }
  }

  lemma DigitsRead(negative: bool, d: string, rest: string)
    requires |d| > 0 && AllDigits(d)
    requires |rest| == 0 || !IsDigit(rest[0])
    ensures ReadDigits(negative, d + rest) == Number(Signed(negative, DigitsValue(d)))
  {
    DigitRunThenStop(d, rest);
    var body := d + rest;
    var k := DigitPrefixLength(body);
    assert k == |d| && body[..k] == d;
    var magnitude: int := DigitsValue(d);
    assert DigitsValue(body[..k]) == magnitude;
    assert k != 0;
  }

  /** The conversion reads the integer at the start of the text, after any
      white space, and ignores whatever follows it: "1.0" reads as 1 and
      " 2abc" as 2. */
  lemma LeadingIntegerRead(ws: string, i: int, rest: string)
    requires forall k :: 0 <= k < |ws| ==> IsSpace(ws[k])
    requires Int32Min <= i <= Int32Max
    requires |rest| == 0 || !IsDigit(rest[0])
    ensures ExtractInt(ws + IntToString(i) + rest) == Number(i)
    ensures ToInt(Str(ws + IntToString(i) + rest)) == i
  {
    var magnitude: nat := if i < 0 then -i else i;
    var d := Decimal(magnitude);
    assert ws + IntToString(i) + rest == ws + (Sign(i < 0) + (d + rest));
    SignedDigitsRead(ws, i < 0, d, rest);
    DecimalRoundTrip(magnitude);
  }

  /** What the module widget writes for an integer (`vtkVariant(int).ToString()`)
      reads back as the same integer. */
  lemma IntRoundTrip(i: int)
    requires Int32Min <= i <= Int32Max
    ensures ExtractInt(IntToString(i)) == Number(i)
    ensures ToInt(Str(IntToString(i))) == i
  {
    LeadingIntegerRead("", i, "");
    assert "" + IntToString(i) + "" == IntToString(i);
  }

  /** A number too large for 32 bits converts to the largest 32-bit value. */
  lemma OutOfRangeSaturates(n: nat)
    requires n > Int32Max
    ensures ToInt(Str(Decimal(n))) == Int32Max
  {
    SignedDigitsRead("", false, Decimal(n), "");
    assert "" + (Sign(false) + (Decimal(n) + "")) == Decimal(n);
    DecimalRoundTrip(n);
  }

  /** Digits followed by a fraction convert to the digits' value: the
      fraction is not rounded, it is dropped, so a boolean written as "1.0"
      is on and one written as "0.5" is off. */
  lemma FractionDropped(d: string, fraction: string)
    requires |d| > 0 && AllDigits(d) && DigitsValue(d) <= Int32Max
    requires |fraction| > 0 && fraction[0] == '.'
    ensures ToInt(Str(d + fraction)) == DigitsValue(d)
  {
    SignedDigitsRead("", false, d, fraction);
    assert "" + (Sign(false) + (d + fraction)) == d + fraction;
  }

  /** The check box of a boolean parameter is written as "1" or "0"; reading
      that text back as a boolean parameter gives the box's state. */
  lemma CheckBoxRoundTrip(checked: bool)
    ensures IsOn(Str(IntToString(if checked then 1 else 0))) == checked
  {
    IntRoundTrip(if checked then 1 else 0);
  }
}
