/**
 * The few pieces of Java's runtime semantics the model depends on: nullable
 * references as Option, 32- and 64-bit integers, Long.intValue() truncation,
 * and the decimal text Java's string concatenation produces for an Integer
 * (with the literal "null" for a null reference), together with its parser.
 */
module JavaLang {

  /** A Java reference that may be null. */
  datatype Option<+T> = None | Some(value: T) {
    function GetOr(default: T): T {
      match this
      case Some(v) => v
      case None => default
    }
  }

  /** The outcome of an operation that throws on bad input. */
  datatype Result<+R, +E> = Ok(value: R) | Err(error: E)

  /** Java `int` / `Integer` values. */
  type Int32 = x: int | -0x8000_0000 <= x < 0x8000_0000

  /** Java `long` values. */
  type Int64 = x: int | -0x8000_0000_0000_0000 <= x < 0x8000_0000_0000_0000

  /** Long.intValue(): keeps the low 32 bits and reads them as two's complement. */
  function LongIntValue(x: Int64): (r: Int32)
    ensures (x - r) % 0x1_0000_0000 == 0
    ensures -0x8000_0000 <= x < 0x8000_0000 ==> r == x
  {
    var q := (x + 0x8000_0000) / 0x1_0000_0000;
    var m := (x + 0x8000_0000) % 0x1_0000_0000;
    assert x + 0x8000_0000 == q * 0x1_0000_0000 + m;
    assert x - (m - 0x8000_0000) == q * 0x1_0000_0000;
    m - 0x8000_0000
  }

  predicate IsDigit(c: char) {
    '0' <= c <= '9'
  }

  function DigitChar(d: nat): (c: char)
    requires d < 10
    ensures IsDigit(c) && DigitValue(c) == d
  {
    ('0' as int + d) as char
  }

  function DigitValue(c: char): nat
    requires IsDigit(c)
  {
    c as int - '0' as int
  }

  /** Decimal digits of n, most significant first, as Integer.toString writes them. */
  function NatToDecimal(n: nat): (s: string)
    ensures |s| > 0
    ensures forall i :: 0 <= i < |s| ==> IsDigit(s[i])
    ensures s[0] == '0' <==> n == 0
  {
    if n < 10 then [DigitChar(n)] else NatToDecimal(n / 10) + [DigitChar(n % 10)]
  }

  /** Reads a non-empty run of decimal digits; None on anything else. */
  function ParseDecimal(s: string): (r: Option<nat>)
    ensures r.Some? <==> |s| > 0 && forall i :: 0 <= i < |s| ==> IsDigit(s[i])
  {
    if |s| == 0 || !IsDigit(s[|s| - 1]) then None
    else if |s| == 1 then Some(DigitValue(s[0]))
    else
      match ParseDecimal(s[..|s| - 1])
      case None => None
      case Some(v) => Some(10 * v + DigitValue(s[|s| - 1]))
  }

  lemma {:induction false} ParseNatToDecimal(n: nat)
    ensures ParseDecimal(NatToDecimal(n)) == Some(n)
  {
    if n >= 10 {
      var s := NatToDecimal(n);
      assert s[..|s| - 1] == NatToDecimal(n / 10);
      ParseNatToDecimal(n / 10);
    }
  }

  /** The text `"" + x` yields for a java.lang.Integer x (null included). */
  function IntegerToString(x: Option<Int32>): (s: string)
    ensures |s| > 0 && '_' !in s
  {
    match x
    case None => "null"
    case Some(v) => if v < 0 then "-" + NatToDecimal(-(v as int)) else NatToDecimal(v as int)
  }

  /** Inverse of IntegerToString: Some(x) for the text of x, None for other text. */
  function ParseInteger(s: string): Option<Option<Int32>> {
    if s == "null" then Some(None)
    else if |s| > 0 && s[0] == '-' then
      match ParseDecimal(s[1..])
      case Some(v) => if v <= 0x8000_0000 then Some(Some(-(v as int))) else None
      case None => None
    else
      match ParseDecimal(s)
      case Some(v) => if v < 0x8000_0000 then Some(Some(v)) else None
      case None => None
  }

  lemma {:induction false} IntegerToStringRoundTrip(x: Option<Int32>)
    ensures ParseInteger(IntegerToString(x)) == Some(x)
  {
    match x
    case None =>
    case Some(v) =>
      if v < 0 {
        var digits := NatToDecimal(-(v as int));
        assert ("-" + digits)[1..] == digits;
        ParseNatToDecimal(-(v as int));
      } else {
        ParseNatToDecimal(v as int);
      }
  }

  /** Position of the first c in s, if any. */
  function IndexOf(s: string, c: char): (r: Option<nat>)
    ensures r.Some? ==> r.value < |s| && s[r.value] == c && c !in s[..r.value]
    ensures r.None? <==> c !in s
  {
    if |s| == 0 then None
    else if s[0] == c then Some(0)
    else
      match IndexOf(s[1..], c)
      case None => None
      case Some(i) => Some(i + 1)
  }

  lemma IndexOfAfter(a: string, c: char, b: string)
    requires c !in a
    ensures IndexOf(a + [c] + b, c) == Some(|a|)
  {
    assert (a + [c] + b)[|a|] == c;
  }
}
