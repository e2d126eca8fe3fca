/** Byte encodings of numbers: fixed-width big-endian lengths and decimal text. */
module Encoding {
  import opened Basics

  function Power256(width: nat): nat {
    if width == 0 then 1 else 256 * Power256(width - 1)
  }

  function BigEndian(n: nat, width: nat): (s: Bytes)
    requires n < Power256(width)
    ensures |s| == width
  {
    if width == 0 then [] else BigEndian(n / 256, width - 1) + [(n % 256) as byte]
  }

  /** The number a string of bytes spells in base 256, most significant byte first. */
  function ReadBigEndian(s: Bytes): nat {
    if s == [] then 0 else 256 * ReadBigEndian(s[..|s| - 1]) + s[|s| - 1] as nat
  }

  lemma {:induction false} BigEndianReads(n: nat, width: nat)
    requires n < Power256(width)
    ensures ReadBigEndian(BigEndian(n, width)) == n
  {
    if width > 0 {
      BigEndianReads(n / 256, width - 1);
      var s, init := BigEndian(n, width), BigEndian(n / 256, width - 1);
      assert s[..|s| - 1] == init;
    }
  }

  lemma BigEndianInjective(a: nat, b: nat, width: nat)
    requires a < Power256(width) && b < Power256(width) && BigEndian(a, width) == BigEndian(b, width)
    ensures a == b
  {
    BigEndianReads(a, width);
    BigEndianReads(b, width);
  }

  const DIGITS: Bytes := [48, 49, 50, 51, 52, 53, 54, 55, 56, 57]
  const MINUS: byte := 45

  function Decimal(n: nat): (s: Bytes)
    ensures |s| > 0 && forall i :: 0 <= i < |s| ==> s[i] in DIGITS
  {
    if n < 10 then [DIGITS[n]] else Decimal(n / 10) + [DIGITS[n % 10]]
  }

  /** The number a string of digits spells in base ten; '0' is 48. */
  function ReadDecimal(s: Bytes): int {
    if s == [] then 0 else 10 * ReadDecimal(s[..|s| - 1]) + (s[|s| - 1] as int - 48)
  }

  /** The digits spell the number, without a leading zero. */
  lemma {:induction false} DecimalReads(n: nat)
    ensures ReadDecimal(Decimal(n)) == n && (n > 0 ==> Decimal(n)[0] != 48)
  {
    if n >= 10 {
      DecimalReads(n / 10);
      assert Decimal(n)[..|Decimal(n)| - 1] == Decimal(n / 10);
    } else {
      assert [DIGITS[n]][..0] == [];
    }
  }

  lemma DecimalInjective(a: nat, b: nat)
    requires Decimal(a) == Decimal(b)
    ensures a == b
  {
    DecimalReads(a);
    DecimalReads(b);
  }

  /** `str(n)` of an integer. */
  function SignedDecimal(n: int): Bytes {
    if n < 0 then [MINUS] + Decimal(-n) else Decimal(n)
  }

  /** A minus sign for a negative number, then the digits of its magnitude. */
  lemma SignedDecimalReads(n: int)
    ensures SignedDecimal(n) != []
    ensures if SignedDecimal(n)[0] == 45 then n < 0 && ReadDecimal(SignedDecimal(n)[1..]) == -n
            else n >= 0 && ReadDecimal(SignedDecimal(n)) == n
  {
    DecimalReads(if n < 0 then -n else n);
    if n < 0 {
      assert SignedDecimal(n)[1..] == Decimal(-n);
    }
  }

  lemma SignedDecimalInjective(a: int, b: int)
    requires SignedDecimal(a) == SignedDecimal(b)
    ensures a == b
  {
    SignedDecimalReads(a);
    SignedDecimalReads(b);
  }

  /** The bytes of a text whose characters are below 128. */
  function Ascii(s: string): (b: Bytes)
    ensures |b| == |s| && forall i :: 0 <= i < |s| && s[i] as int < 128 ==> b[i] as int == s[i] as int
  {
    seq(|s|, i requires 0 <= i < |s| => (s[i] as int % 256) as byte)
  }
}
