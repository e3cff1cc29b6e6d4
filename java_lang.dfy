/**
 * The parts of the Java platform that the dialect relies on: the ranges of
 * the primitive integer types, boxed objects and the exceptions the casts
 * throw, `Integer.toString` (what `StringBuilder.append(int)` writes),
 * `Integer.parseInt` / `Short.parseShort`, and `StringBuilder`.
 */
module JavaLang {
  import opened Wrappers

  const BYTE_MIN_VALUE: int := -128
  const BYTE_MAX_VALUE: int := 127
  const SHORT_MIN_VALUE: int := -32768
  const SHORT_MAX_VALUE: int := 32767
  const INT_MIN_VALUE: int := -0x8000_0000
  const INT_MAX_VALUE: int := 0x7FFF_FFFF

  /** Java `byte`, `short` and `int` values (two's-complement ranges). */
  type JByte = x: int | -128 <= x <= 127
  type JShort = x: int | -32768 <= x <= 32767
  type JInt = x: int | -0x8000_0000 <= x <= 0x7FFF_FFFF

  /** The exceptions the modelled code can raise. */
  datatype JavaException =
    | NullPointerException
    | ClassCastException
    | NumberFormatException(input: string)

  /** A value of static type `Object`, as far as the converters look at it. */
  datatype JavaObject =
    | Null
    | BoxedByte(byteValue: JByte)
    | BoxedShort(shortValue: JShort)
    | OtherObject

  predicate IsDigit(c: char) {
    '0' <= c <= '9'
  }

  predicate AllDigits(s: string) {
    forall i :: 0 <= i < |s| ==> IsDigit(s[i])
  }

  function DigitValue(c: char): (d: nat)
    requires IsDigit(c)
    ensures d < 10
  {
    (c as int) - ('0' as int)
  }

  function DigitChar(d: nat): (c: char)
    requires d < 10
    ensures IsDigit(c) && DigitValue(c) == d
  {
    (('0' as int) + d) as char
  }

  /** The decimal digits of `n`, most significant first, without leading zeros. */
  function NatToDecimal(n: nat): (r: string)
    ensures |r| >= 1 && AllDigits(r)
    ensures r[0] == '0' ==> n == 0
    decreases n
  {
    if n < 10 then [DigitChar(n)] else NatToDecimal(n / 10) + [DigitChar(n % 10)]
  }

  /** The value of a string of decimal digits. */
  function DigitsValue(s: string): (v: nat)
    requires AllDigits(s)
    decreases |s|
  {
    if s == [] then 0 else DigitsValue(s[..|s| - 1]) * 10 + DigitValue(s[|s| - 1])
  }

  lemma {:induction false} DigitsValueOfNatToDecimal(n: nat)
    ensures DigitsValue(NatToDecimal(n)) == n
  {
    if n >= 10 {
      var r := NatToDecimal(n);
      assert r[..|r| - 1] == NatToDecimal(n / 10);
      DigitsValueOfNatToDecimal(n / 10);
    }
  }

  /** `Integer.toString(n)`: an optional minus sign, then the digits of |n|. */
  function IntToDecimal(n: int): (r: string)
    ensures |r| >= 1
    ensures r[0] == '-' <==> n < 0
    ensures n < 0 ==> AllDigits(r[1..]) && |r| >= 2
    ensures n >= 0 ==> AllDigits(r)
  {
    if n < 0 then "-" + NatToDecimal(-n) else NatToDecimal(n)
  }

  /** The digits after an optional leading sign. */
  function UnsignedPart(s: string): (u: string)
    ensures |u| == |s| || |u| == |s| - 1
  {
    if |s| > 0 && (s[0] == '-' || s[0] == '+') then s[1..] else s
  }

  /** An optional sign followed by at least one decimal digit. */
  predicate IsNumeral(s: string) {
    |UnsignedPart(s)| > 0 && AllDigits(UnsignedPart(s))
  }

  /** The value a numeral denotes. */
  function NumeralValue(s: string): (v: int)
    requires IsNumeral(s)
  {
    if s[0] == '-' then -(DigitsValue(UnsignedPart(s)) as int) else DigitsValue(UnsignedPart(s))
  }

  /**
   * `Integer.parseInt(s, 10)`: an optional `-` or `+`, then at least one
   * digit, and the value must fit in an `int`; otherwise
   * NumberFormatException.
   */
  function ParseInt(s: string): (r: Result<JInt, JavaException>)
    ensures r.Success? <==> IsNumeral(s) && INT_MIN_VALUE <= NumeralValue(s) <= INT_MAX_VALUE
    ensures r.Success? ==> r.value == NumeralValue(s)
    ensures r.Failure? ==> r.error == NumberFormatException(s)
  {
    if |s| == 0 then Failure(NumberFormatException(s))
    else
      var digits := if s[0] == '-' || s[0] == '+' then s[1..] else s;
      if |digits| == 0 || !AllDigits(digits) then Failure(NumberFormatException(s))
      else
        var magnitude: int := DigitsValue(digits);
        var v: int := if s[0] == '-' then -magnitude else magnitude;
        if INT_MIN_VALUE <= v <= INT_MAX_VALUE then Success(v)
        else Failure(NumberFormatException(s))
  }

  /** `Short.parseShort(s)`: `Integer.parseInt`, then a range check to `short`. */
  function ParseShort(s: string): (r: Result<JShort, JavaException>)
    ensures r.Success? ==> ParseInt(s) == Success(r.value)
    ensures ParseInt(s).Success? && SHORT_MIN_VALUE <= ParseInt(s).value <= SHORT_MAX_VALUE
            ==> r.Success?
  {
    match ParseInt(s)
    case Failure(e) => Failure(e)
    case Success(i) =>
      if i < SHORT_MIN_VALUE || i > SHORT_MAX_VALUE then Failure(NumberFormatException(s))
      else Success(i)
  }

  /** Reading back what `Integer.toString` wrote gives the same `int`. */
  lemma ParseIntOfDecimal(n: JInt)
    ensures ParseInt(IntToDecimal(n)) == Success(n)
  {
    var s := IntToDecimal(n);
    if n < 0 {
      var m: nat := -(n as int);
      assert s[1..] == NatToDecimal(m);
      DigitsValueOfNatToDecimal(m);
    } else {
      assert IsDigit(s[0]);
      DigitsValueOfNatToDecimal(n);
    }
  }

  lemma ParseShortOfDecimal(v: JShort)
    ensures ParseShort(IntToDecimal(v)) == Success(v)
  {
    ParseIntOfDecimal(v);
  }

  /** Parsing rejects the empty string and a lone sign. */
  lemma ParseIntRejectsNoDigits(s: string)
    requires s == "" || s == "-" || s == "+"
    ensures ParseInt(s).Failure?
  {
  }

  /** `java.lang.StringBuilder`, reduced to its character contents. */
  class StringBuilder {
    var text: string

    constructor ()
      ensures text == ""
    {
      text := "";
    }

    method Append(s: string)
      modifies this
      ensures text == old(text) + s
    {
      text := text + s;
    }

    method AppendChar(c: char)
      modifies this
      ensures text == old(text) + [c]
    {
      text := text + [c];
    }

    /** `append(int)` writes `Integer.toString(n)`. */
    method AppendInt(n: JInt)
      modifies this
      ensures text == old(text) + IntToDecimal(n)
    {
      text := text + IntToDecimal(n);
    }

    method ToString() returns (s: string)
      ensures s == text
    {
      s := text;
    }
  }
}
