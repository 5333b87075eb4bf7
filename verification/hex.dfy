/**
 `Long.toHexString`, which the component uses to turn a millisecond
 timestamp into the call-id part of a call resource. A Java `long` is a
 64-bit two's-complement integer; `toHexString` prints its unsigned value in
 lower-case hexadecimal without leading zeros ("0" for zero).
 `ParseHex` is the reading direction, used to show the encoding loses nothing.
 */
module Hex {

  /** 2^64, the number of distinct `long` values. */
  const TWO_TO_64: int := 0x1_0000_0000_0000_0000

  /** Java's `long`. */
  type Long = x: int | -0x8000_0000_0000_0000 <= x < 0x8000_0000_0000_0000

  function Pow16(k: nat): (p: nat)
    ensures p >= 1
  {
    if k == 0 then 1 else 16 * Pow16(k - 1)
  }

  predicate IsLowerHexDigit(ch: char) {
    '0' <= ch <= '9' || 'a' <= ch <= 'f'
  }

  /** Only lower-case hex digits. */
  predicate IsHexString(s: string) {
    forall i :: 0 <= i < |s| ==> IsLowerHexDigit(s[i])
  }

  /** The form `toHexString` produces: non-empty, and no leading zero unless it is "0". */
  predicate IsCanonicalHex(s: string) {
    IsHexString(s) && |s| >= 1 && (s[0] == '0' ==> s == "0")
  }

  /** `Character.forDigit(d, 16)`: the lower-case digit of value `d`. */
  function Digit(d: nat): (ch: char)
    requires d < 16
    ensures IsLowerHexDigit(ch)
    ensures DigitValue(ch) == d
  {
    if d < 10 then ('0' as int + d) as char else ('a' as int + d - 10) as char
  }

  /** The value of one lower-case hex digit. */
  function DigitValue(ch: char): (d: nat)
    requires IsLowerHexDigit(ch)
    ensures d < 16
  {
    if ch <= '9' then ch as int - '0' as int else ch as int - 'a' as int + 10
  }

  /** The unsigned reading of a `long`: the value in [0, 2^64) with the same 64 bits. */
  function Unsigned(x: Long): (u: nat)
    ensures u < TWO_TO_64
    ensures (u - x) % TWO_TO_64 == 0
  {
    if x < 0 then x + TWO_TO_64 else x
  }

  /** Hexadecimal digits of a natural number, most significant first. */
  function ToHexString(n: nat): (s: string)
    ensures IsCanonicalHex(s)
    ensures n > 0 ==> s[0] != '0'
    decreases n
  {
    if n < 16 then [Digit(n)] else ToHexString(n / 16) + [Digit(n % 16)]
  }

  /** `Long.toHexString(x)`. */
  function LongToHexString(x: Long): (s: string)
    ensures IsCanonicalHex(s)
    ensures |s| <= 16
    ensures ParseHex(s) == Unsigned(x)
  {
    ParseToHexString(Unsigned(x));
    Pow16Is64Bits();
    ToHexStringLength(Unsigned(x), 16);
    ToHexString(Unsigned(x))
  }

  /** The number a string of hex digits denotes. */
  function ParseHex(s: string): (n: nat)
    requires IsHexString(s)
    ensures n < Pow16(|s|)
  {
    if |s| == 0 then 0
    else
      var p := ParseHex(s[..|s| - 1]);
      assert p <= Pow16(|s| - 1) - 1;
      p * 16 + DigitValue(s[|s| - 1])
  }

  /** Sixteen hex digits are exactly 64 bits. */
  lemma Pow16Is64Bits()
    ensures Pow16(16) == TWO_TO_64
  {
    assert Pow16(4) == 0x1_0000;
    assert Pow16(8) == 0x1_0000_0000 by { assert Pow16(8) == Pow16(4) * 0x1_0000; }
  }

  /** A number below 16^k needs at most k digits. */
  lemma {:induction false} ToHexStringLength(n: nat, k: nat)
    requires 1 <= k && n < Pow16(k)
    ensures |ToHexString(n)| <= k
    decreases k
  {
    if n >= 16 {
      assert k >= 2;
      assert n / 16 < Pow16(k - 1);
      ToHexStringLength(n / 16, k - 1);
    }
  }

  /** Reading back what `ToHexString` wrote gives the number. */
  lemma {:induction false} ParseToHexString(n: nat)
    ensures ParseHex(ToHexString(n)) == n
    decreases n
  {
    var s := ToHexString(n);
    if n >= 16 {
      ParseToHexString(n / 16);
      assert s[..|s| - 1] == ToHexString(n / 16);
    }
  }

  /** A canonical hex string denotes a positive number unless it is "0". */
  lemma {:induction false} ParseHexPositive(s: string)
    requires IsHexString(s) && |s| >= 1 && s[0] != '0'
    ensures ParseHex(s) > 0
    decreases |s|
  {
    if |s| > 1 {
      ParseHexPositive(s[..|s| - 1]);
    }
  }

  /** Writing the number a canonical hex string denotes gives the string back. */
  lemma {:induction false} ToHexStringOfParse(s: string)
    requires IsCanonicalHex(s)
    ensures ToHexString(ParseHex(s)) == s
    decreases |s|
  {
    if |s| > 1 {
      var p := s[..|s| - 1];
      ParseHexPositive(p);
      ParseHexPositive(s);
      ToHexStringOfParse(p);
      var n := ParseHex(s);
      assert n / 16 == ParseHex(p) && n % 16 == DigitValue(s[|s| - 1]);
      assert s == p + [s[|s| - 1]];
    }
  }

  /** Distinct numbers have distinct hex strings. */
  lemma ToHexStringInjective(a: nat, b: nat)
    ensures ToHexString(a) == ToHexString(b) <==> a == b
  {
    ParseToHexString(a);
    ParseToHexString(b);
  }

  /** Distinct `long` values have distinct `Long.toHexString` renderings. */
  lemma LongToHexStringInjective(x: Long, y: Long)
    ensures LongToHexString(x) == LongToHexString(y) <==> x == y
  {
    ToHexStringInjective(Unsigned(x), Unsigned(y));
  }

  /** `Long.toHexString` never prints '@', the delimiter of a call resource. */
  lemma LongToHexStringHasNoAt(x: Long)
    ensures '@' !in LongToHexString(x)
  {
    var s := LongToHexString(x);
    forall i | 0 <= i < |s|
      ensures s[i] != '@'
    {
      assert IsLowerHexDigit(s[i]);
    }
  }
}
