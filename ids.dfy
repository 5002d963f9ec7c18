/**
  Positional identifiers. The service names the n-th key `key-{n:03d}` and the
  n-th allocation `alloc-{n:03d}`: the decimal rendering of n, left-padded with
  zeros to at least three characters. This module defines that formatter and
  proves that it is injective, so positional ids never collide.
 */
module Ids {

  predicate IsDigit(c: char) {
    '0' <= c <= '9'
  }

  predicate AllDigits(s: string) {
    forall i :: 0 <= i < |s| ==> IsDigit(s[i])
  }

  function DigitValue(c: char): nat
    requires IsDigit(c)
  {
    c as int - '0' as int
  }

  function DigitChar(d: nat): (c: char)
    requires d < 10
    ensures IsDigit(c) && DigitValue(c) == d
  {
    ('0' as int + d) as char
  }

  /** The decimal rendering of n without leading zeros, as Python's `str(n)`. */
  function Decimal(n: nat): (s: string)
    ensures 1 <= |s| && AllDigits(s)
    ensures s[0] == '0' ==> n == 0
    decreases n
  {
    if n < 10 then [DigitChar(n)] else Decimal(n / 10) + [DigitChar(n % 10)]
  }

  function Zeros(k: nat): (s: string)
    ensures |s| == k && forall i :: 0 <= i < k ==> s[i] == '0'
  {
    seq(k, _ => '0')
  }

  /** Python's `{n:03d}`: the decimal digits of n, zero-padded to width three. */
  function Pad3(n: nat): (s: string)
    ensures 3 <= |s| && AllDigits(s)
    ensures |s| == 3 || s[0] != '0'
  {
    var d := Decimal(n);
    if |d| < 3 then Zeros(3 - |d|) + d else d
  }

  /** Reads a string of digits back as a number (leading zeros contribute nothing). */
  function DigitsValue(s: string): nat
    requires AllDigits(s)
    decreases |s|
  {
    if s == [] then 0 else 10 * DigitsValue(s[..|s| - 1]) + DigitValue(s[|s| - 1])
  }

  lemma {:induction false} DecimalValue(n: nat)
    ensures DigitsValue(Decimal(n)) == n
    decreases n
  {
    if n >= 10 {
      var s := Decimal(n);
      assert s[..|s| - 1] == Decimal(n / 10);
      DecimalValue(n / 10);
    }
  }

  lemma {:induction false} ZerosValue(k: nat)
    ensures AllDigits(Zeros(k)) && DigitsValue(Zeros(k)) == 0
  {
    if k > 0 {
      assert Zeros(k)[..k - 1] == Zeros(k - 1);
      ZerosValue(k - 1);
    }
  }

  lemma {:induction false} LeadingZerosValue(k: nat, s: string)
    requires AllDigits(s)
    ensures AllDigits(Zeros(k) + s) && DigitsValue(Zeros(k) + s) == DigitsValue(s)
    decreases |s|
  {
    var t := Zeros(k) + s;
    if s == [] {
      assert t == Zeros(k);
      ZerosValue(k);
    } else {
      assert t[..|t| - 1] == Zeros(k) + s[..|s| - 1];
      LeadingZerosValue(k, s[..|s| - 1]);
    }
  }

  /** Padding loses nothing: the padded digits read back as n. */
  lemma Pad3Value(n: nat)
    ensures DigitsValue(Pad3(n)) == n
  {
    var d := Decimal(n);
    DecimalValue(n);
    if |d| < 3 {
      LeadingZerosValue(3 - |d|, d);
    }
  }

  /** `prefix` followed by the padded number, as `f"key-{n:03d}"`. */
  function FormatId(prefix: string, n: nat): (s: string)
    ensures |s| >= |prefix| + 3 && s[..|prefix|] == prefix
  {
    prefix + Pad3(n)
  }

  function KeyId(n: nat): string {
    FormatId("key-", n)
  }

  function AllocId(n: nat): string {
    FormatId("alloc-", n)
  }

  /** The characters after the prefix are digits that read back as n. */
  lemma FormatIdValue(prefix: string, n: nat)
    ensures AllDigits(FormatId(prefix, n)[|prefix|..])
    ensures DigitsValue(FormatId(prefix, n)[|prefix|..]) == n
  {
    assert FormatId(prefix, n)[|prefix|..] == Pad3(n);
    Pad3Value(n);
  }

  /** Distinct numbers give distinct ids under the same prefix. */
  lemma FormatIdInjective(prefix: string, n: nat, m: nat)
    requires FormatId(prefix, n) == FormatId(prefix, m)
    ensures n == m
  {
    FormatIdValue(prefix, n);
    FormatIdValue(prefix, m);
  }
}
