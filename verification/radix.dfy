/**
 * The Android `state` value: a uniformly random 130-bit non-negative integer
 * printed in radix 32 (Java's BigInteger.toString(32), digits 0-9 then a-v,
 * no leading zeros, "0" for zero).
 */
module Radix {

  function Pow(b: nat, e: nat): nat {
    if e == 0 then 1 else b * Pow(b, e - 1)
  }

  /** 2^130: the exclusive upper bound of `BigInteger(130, random)`. */
  const StateSeedBound: nat := 0x4_0000_0000_0000_0000_0000_0000_0000_0000

  /** The random draw behind one generated `state`. */
  type StateSeed = n: nat | n < StateSeedBound

  predicate IsDigit(c: char) {
    ('0' <= c <= '9') || ('a' <= c <= 'v')
  }

  function Digit(d: nat): (c: char)
    requires d < 32
  {
    if d < 10 then ('0' as int + d) as char else ('a' as int + d - 10) as char
  }

  function DigitValue(c: char): nat
    requires IsDigit(c)
  {
    if c <= '9' then c as int - '0' as int else c as int - 'a' as int + 10
  }

  /** A string BigInteger.toString(32) can print for a non-negative value. */
  predicate IsCanonical(s: string) {
    && |s| >= 1
    && (forall i :: 0 <= i < |s| ==> IsDigit(s[i]))
    && (|s| > 1 ==> s[0] != '0')
  }

  /** Radix-32 rendering, most significant digit first. */
  function ToBase32(n: nat): (r: string)
    ensures IsCanonical(r)
    ensures r[0] == '0' <==> n == 0
    decreases n
  {
    if n < 32 then [Digit(n)] else ToBase32(n / 32) + [Digit(n % 32)]
  }

  /** The value a radix-32 digit string denotes. */
  function FromBase32(s: string): nat
    requires forall i :: 0 <= i < |s| ==> IsDigit(s[i])
  {
    if |s| == 0 then 0 else FromBase32(s[..|s| - 1]) * 32 + DigitValue(s[|s| - 1])
  }

  lemma DigitThenValue(d: nat)
    requires d < 32
    ensures IsDigit(Digit(d)) && DigitValue(Digit(d)) == d
  {
  }

  lemma ValueThenDigit(c: char)
    requires IsDigit(c)
    ensures DigitValue(c) < 32 && Digit(DigitValue(c)) == c
  {
  }

  /** Reading back what was printed gives the drawn value. */
  lemma {:induction false} FromToBase32(n: nat)
    ensures FromBase32(ToBase32(n)) == n
    decreases n
  {
    DigitThenValue(n % 32);
    if n >= 32 {
      var p := ToBase32(n / 32);
      assert (p + [Digit(n % 32)])[..|p|] == p;
      FromToBase32(n / 32);
    }
  }

  /** A canonical string with a non-zero leading digit denotes a positive value. */
  lemma {:induction false} LeadingDigitPositive(s: string)
    requires IsCanonical(s) && s[0] != '0'
    ensures FromBase32(s) >= 1
    decreases |s|
  {
    var p := s[..|s| - 1];
    if |s| > 1 {
      assert p[0] == s[0];
      LeadingDigitPositive(p);
    }
  }

  /** Every canonical string is the printing of the value it denotes. */
  lemma {:induction false} ToFromBase32(s: string)
    requires IsCanonical(s)
    ensures ToBase32(FromBase32(s)) == s
    decreases |s|
  {
    var c := s[|s| - 1];
    var p := s[..|s| - 1];
    ValueThenDigit(c);
    if |s| == 1 {
      assert s == [c];
    } else {
      assert p[0] == s[0];
      LeadingDigitPositive(p);
      ToFromBase32(p);
      var v := FromBase32(p);
      assert (v * 32 + DigitValue(c)) / 32 == v;
      assert (v * 32 + DigitValue(c)) % 32 == DigitValue(c);
      assert s == p + [c];
    }
  }

  /** Values below 32^k print in at most k digits. */
  lemma {:induction false} ToBase32Length(n: nat, k: nat)
    requires k >= 1 && n < Pow(32, k)
    ensures |ToBase32(n)| <= k
    decreases k
  {
    if n >= 32 {
      assert k > 1;
      ToBase32Length(n / 32, k - 1);
    }
  }

  lemma {:induction false} PowAdd(b: nat, m: nat, n: nat)
    ensures Pow(b, m + n) == Pow(b, m) * Pow(b, n)
    decreases m
  {
    if m > 0 {
      PowAdd(b, m - 1, n);
    }
  }

  /** 130 bits are exactly 26 radix-32 digits: 32^26 == 2^130. */
  lemma SeedBoundIsPow32()
    ensures Pow(32, 26) == StateSeedBound
  {
    assert Pow(32, 6) == 0x4000_0000;
    assert Pow(32, 7) == 0x8_0000_0000;
    PowAdd(32, 6, 7);
    PowAdd(32, 13, 13);
  }

  /** A 130-bit value prints in at most 26 radix-32 digits. */
  lemma StateLength(n: StateSeed)
    ensures |ToBase32(n)| <= 26
  {
    SeedBoundIsPow32();
    ToBase32Length(n, 26);
  }
}
