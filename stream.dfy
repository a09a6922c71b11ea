/**
 * The output sink `std::ostream` as an append-only character buffer, and the
 * text that `operator<<` writes for the value types the serializers stream.
 */
module Stream {
  import opened Wrappers

  /** The C++ `int`: 32 bits, two's complement. */
  newtype Int32 = x: int | -0x8000_0000 <= x < 0x8000_0000

  /** An output stream: everything written so far, in order. */
  class OutStream {
    var text: string

    constructor ()
      ensures text == []
    {
      text := [];
    }

    /** `os << s`: appends `s`; what was already written is kept as a prefix. */
    method Write(s: string)
      modifies this
      ensures text == old(text) + s
    {
      text := text + s;
    }
  }

  /**
   * What streaming a `const char*` writes: the characters before the first
   * NUL, that is, the longest NUL-free prefix of the character array.
   */
  function CStr(s: string): string {
    if s == [] || s[0] == '\0' then [] else [s[0]] + CStr(s[1..])
  }

  /** `CStr(s)` is a prefix of `s` without NUL that stops only at a NUL or at the end. */
  lemma {:induction false} CStrIsNulFreePrefix(s: string)
    ensures CStr(s) <= s
    ensures '\0' !in CStr(s)
    ensures |CStr(s)| < |s| ==> s[|CStr(s)|] == '\0'
  {
    if s != [] && s[0] != '\0' {
      CStrIsNulFreePrefix(s[1..]);
    }
  }

  /** A character not in `s` is not in what streaming `s` writes. */
  lemma CStrKeepsOut(s: string, c: char)
    requires c !in s
    ensures c !in CStr(s)
  {
    CStrIsNulFreePrefix(s);
  }

  /** An array without a NUL is written whole. */
  lemma CStrWithoutNul(s: string)
    requires '\0' !in s
    ensures CStr(s) == s
  {
    CStrIsNulFreePrefix(s);
  }

  predicate IsDigit(c: char) {
    '0' <= c <= '9'
  }

  predicate IsDigits(s: string) {
    forall i :: 0 <= i < |s| ==> IsDigit(s[i])
  }

  function DigitChar(d: nat): (c: char)
    requires d < 10
    ensures IsDigit(c)
  {
    (('0' as int) + d) as char
  }

  function DigitValue(c: char): (d: nat)
    requires IsDigit(c)
    ensures d < 10
  {
    (c as int) - ('0' as int)
  }

  /** Decimal digits of `n`, most significant first. */
  function NatText(n: nat): string {
    if n < 10 then [DigitChar(n)] else NatText(n / 10) + [DigitChar(n % 10)]
  }

  /** The decimal text of a natural number is a non-empty digit string without leading zeros. */
  lemma {:induction false} NatTextDigits(n: nat)
    ensures |NatText(n)| >= 1 && IsDigits(NatText(n))
    ensures NatText(n)[0] == '0' ==> NatText(n) == "0"
  {
    if n >= 10 {
      NatTextDigits(n / 10);
    }
  }

  /** The number a string of decimal digits denotes. */
  function DigitsValue(s: string): nat
    requires IsDigits(s)
  {
    if s == [] then 0 else 10 * DigitsValue(s[..|s| - 1]) + DigitValue(s[|s| - 1])
  }

  /**
   * What `os << i` writes for an integer with the default stream flags:
   * a minus sign for a negative value, then the decimal digits of its magnitude.
   */
  function IntText(i: int): string {
    if i < 0 then "-" + NatText(-i) else NatText(i)
  }

  /** Reads back a decimal integer: an optional minus sign, then at least one digit. */
  function ReadInt(s: string): Option<int> {
    if |s| >= 2 && s[0] == '-' && IsDigits(s[1..]) then Some(-(DigitsValue(s[1..]) as int))
    else if |s| >= 1 && IsDigits(s) then Some(DigitsValue(s) as int)
    else None
  }

  lemma {:induction false} NatTextRoundTrip(n: nat)
    ensures IsDigits(NatText(n)) && DigitsValue(NatText(n)) == n
  {
    NatTextDigits(n);
    if n >= 10 {
      NatTextRoundTrip(n / 10);
      var s := NatText(n);
      assert s[..|s| - 1] == NatText(n / 10);
    }
  }

  /** The decimal text of an integer reads back as that integer. */
  lemma IntTextRoundTrip(i: int)
    ensures ReadInt(IntText(i)) == Some(i)
  {
    if i < 0 {
      NatTextRoundTrip(-i);
      assert IntText(i)[1..] == NatText(-i);
    } else {
      NatTextRoundTrip(i);
    }
  }

  /** Distinct integers are written as distinct texts. */
  lemma IntTextInjective(i: int, j: int)
    requires IntText(i) == IntText(j)
    ensures i == j
  {
    IntTextRoundTrip(i);
    IntTextRoundTrip(j);
  }

  /** The decimal text of an integer is made of digits and a leading minus sign only. */
  lemma IntTextPlain(i: int)
    ensures forall k :: 0 <= k < |IntText(i)| ==> IsDigit(IntText(i)[k]) || (k == 0 && i < 0 && IntText(i)[k] == '-')
  {
    NatTextDigits(if i < 0 then -i else i);
  }
}
