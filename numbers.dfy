/**
 * The integer half of .NET's number parsing as the decoders use it: `byte.Parse`, `sbyte.Parse`,
 * `short.Parse`, `ushort.Parse`, `int.Parse`, `uint.Parse`, `long.Parse` and `ulong.Parse` on the
 * text of a number token. Each accepts an optional sign followed by decimal digits and fails with
 * an overflow when the value lies outside its kind's range.
 */
module Numbers {
  import opened Tokens

  /** The eight integer kinds of .NET. */
  datatype IntKind = Byte | SByte | Short | UShort | Int | UInt | Long | ULong

  function MinOf(k: IntKind): int
  {
    match k
    case Byte => 0
    case SByte => -0x80
    case Short => -0x8000
    case UShort => 0
    case Int => -0x8000_0000
    case UInt => 0
    case Long => -0x8000_0000_0000_0000
    case ULong => 0
  }

  function MaxOf(k: IntKind): int
  {
    match k
    case Byte => 0xFF
    case SByte => 0x7F
    case Short => 0x7FFF
    case UShort => 0xFFFF
    case Int => 0x7FFF_FFFF
    case UInt => 0xFFFF_FFFF
    case Long => 0x7FFF_FFFF_FFFF_FFFF
    case ULong => 0xFFFF_FFFF_FFFF_FFFF
  }

  predicate InRange(k: IntKind, n: int)
  {
    MinOf(k) <= n <= MaxOf(k)
  }

  predicate IsDigit(c: char)
  {
    '0' <= c <= '9'
  }

  predicate AllDigits(s: string)
  {
    forall i :: 0 <= i < |s| ==> IsDigit(s[i])
  }

  function DigitValue(c: char): nat
    requires IsDigit(c)
  {
    c as int - '0' as int
  }

  /** The value of a string of decimal digits, most significant first. */
  function DigitsValue(s: string): nat
    requires AllDigits(s)
  {
    if s == [] then 0 else DigitsValue(s[..|s| - 1]) * 10 + DigitValue(s[|s| - 1])
  }

  /** `2` to the power of the kind's width in bits. */
  function Modulus(k: IntKind): (m: int)
    ensures m == MaxOf(k) - MinOf(k) + 1
  {
    match k
    case Byte => 0x100
    case SByte => 0x100
    case Short => 0x1_0000
    case UShort => 0x1_0000
    case Int => 0x1_0000_0000
    case UInt => 0x1_0000_0000
    case Long => 0x1_0000_0000_0000_0000
    case ULong => 0x1_0000_0000_0000_0000
  }

  /**
   * `n` kept to the low bits of kind `k`, read back in two's complement when `k` is signed: the
   * unchecked conversion .NET applies when it stores an integer in a narrower or unsigned type.
   */
  function Truncate(k: IntKind, n: int): (r: int)
    ensures InRange(k, r)
    ensures (r - n) % Modulus(k) == 0
    ensures InRange(k, n) ==> r == n
  {
    var u := n % Modulus(k);
    if u > MaxOf(k) then u - Modulus(k) else u
  }

  /** The integer syntax `int.Parse` accepts on a token: an optional sign and at least one digit. */
  predicate IntegerSyntax(text: string)
  {
    || (|text| > 0 && AllDigits(text))
    || (|text| > 1 && (text[0] == '-' || text[0] == '+') && AllDigits(text[1..]))
  }

  /** The mathematical value of a number token's text read as an integer, if it is one. */
  function ParseInteger(text: string): (r: Option<int>)
    ensures r.Some? <==> IntegerSyntax(text)
    ensures r.Some? && text[0] == '-' ==> r.value <= 0
    ensures r.Some? && text[0] != '-' ==> r.value >= 0
  {
    if |text| > 0 && (text[0] == '-' || text[0] == '+') then
      var digits := text[1..];
      if |digits| > 0 && AllDigits(digits) then
        var magnitude: int := DigitsValue(digits);
        Some(if text[0] == '-' then -magnitude else magnitude)
      else None
    else if |text| > 0 && AllDigits(text) then Some(DigitsValue(text))
    else None
  }

  /** The outcome of one of the `Parse` methods of an integer kind. */
  datatype IntParse = Value(n: int) | FormatError | OverflowError

  /** `k.Parse(text)`: a format error unless the text is an integer, an overflow outside the range. */
  function ParseAs(k: IntKind, text: string): (r: IntParse)
    ensures r.Value? <==> ParseInteger(text).Some? && InRange(k, ParseInteger(text).value)
    ensures r.Value? ==> r.n == ParseInteger(text).value
    ensures r.FormatError? <==> !IntegerSyntax(text)
  {
    match ParseInteger(text)
    case None => FormatError
    case Some(n) => if InRange(k, n) then Value(n) else OverflowError
  }

  /** The canonical decimal text of a natural number. */
  function NatToText(n: nat): (s: string)
    ensures |s| > 0 && AllDigits(s)
  {
    var last := ['0' + (n % 10) as char];
    if n < 10 then last else NatToText(n / 10) + last
  }

  /** The canonical decimal text of an integer: a minus sign for negatives, no plus sign. */
  function IntToText(n: int): string
  {
    if n < 0 then "-" + NatToText(-n) else NatToText(n)
  }

  lemma {:induction false} NatToTextValue(n: nat)
    ensures DigitsValue(NatToText(n)) == n
  {
    var s := NatToText(n);
    var last := ['0' + (n % 10) as char];
    if n >= 10 {
      var prefix := NatToText(n / 10);
      assert s == prefix + last;
      assert s[..|s| - 1] == prefix;
      NatToTextValue(n / 10);
    }
  }

  /** Reading back the canonical text of any integer yields that integer. */
  lemma IntegerRoundTrip(n: int)
    ensures ParseInteger(IntToText(n)) == Some(n)
  {
    if n < 0 {
      var digits := NatToText(-n);
      assert IntToText(n)[1..] == digits;
      NatToTextValue(-n);
    } else {
      NatToTextValue(n);
    }
  }

  /** Each kind's parse accepts the canonical text of exactly the values in its range. */
  lemma ParseAsText(k: IntKind, n: int)
    ensures ParseAs(k, IntToText(n)) == if InRange(k, n) then Value(n) else OverflowError
  {
    IntegerRoundTrip(n);
  }

  /** 200 fits a byte; 300 does not, and neither does -1. */
  lemma ByteRange()
    ensures ParseAs(Byte, "200") == Value(200)
    ensures ParseAs(Byte, "300") == OverflowError
    ensures ParseAs(Byte, "-1") == OverflowError
  {
    assert IntToText(200) == "200";
    assert IntToText(300) == "300";
    assert IntToText(-1) == "-1";
    ParseAsText(Byte, 200);
    ParseAsText(Byte, 300);
    ParseAsText(Byte, -1);
  }

  /** 300 kept to a byte is 44; -1 kept to a `uint` is its largest value; 200 as an `sbyte` is -56. */
  lemma TruncateExamples()
    ensures Truncate(Byte, 300) == 44
    ensures Truncate(UInt, -1) == 0xFFFF_FFFF
    ensures Truncate(SByte, 200) == -56
    ensures Truncate(Int, -1) == -1
  {
  }
}
