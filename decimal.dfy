/**
 * Decimal rendering of integers, as `sprintf('%d', n)` produces it, and the
 * parser that inverts it. The fixtures build every title, e-mail, user name
 * and tag name with this conversion, so its injectivity is what makes those
 * strings pairwise distinct.
 */
module Decimal {

  predicate IsDigit(c: char) {
    '0' <= c <= '9'
  }

  function DigitChar(d: nat): (c: char)
    requires d < 10
    ensures IsDigit(c) && c as int - '0' as int == d
  {
    "0123456789"[d]
  }

  function DigitValue(c: char): nat
    requires IsDigit(c)
  {
    c as int - '0' as int
  }

  /** `sprintf('%d', n)` for a non-negative `n`: most significant digit first. */
  function FromNat(n: nat): (s: string)
    ensures |s| >= 1
    decreases n
  {
    if n < 10 then [DigitChar(n)] else FromNat(n / 10) + [DigitChar(n % 10)]
  }

  /** Only digits, and no leading zero except for 0 itself. */
  lemma {:induction false} FromNatDigits(n: nat)
    ensures forall k :: 0 <= k < |FromNat(n)| ==> IsDigit(FromNat(n)[k])
    ensures FromNat(n)[0] == '0' ==> n == 0
    decreases n
  {
    if n >= 10 {
      FromNatDigits(n / 10);
    }
  }

  /** `sprintf('%d', n)`: a minus sign in front of a negative number. */
  function FromInt(n: int): (s: string)
    ensures |s| >= 1
    ensures s[0] == '-' <==> n < 0
  {
    FromNatDigits(if n < 0 then -n else n);
    if n < 0 then "-" + FromNat(-n) else FromNat(n)
  }

  /** Reads a string of digits back as a number (the empty string reads as 0). */
  function ToNat(s: string): nat
    requires forall k :: 0 <= k < |s| ==> IsDigit(s[k])
  {
    if |s| == 0 then 0 else 10 * ToNat(s[..|s| - 1]) + DigitValue(s[|s| - 1])
  }

  lemma {:induction false} ToNatFromNat(n: nat)
    ensures forall k :: 0 <= k < |FromNat(n)| ==> IsDigit(FromNat(n)[k])
    ensures ToNat(FromNat(n)) == n
    decreases n
  {
    FromNatDigits(n);
    var s := FromNat(n);
    if n >= 10 {
      var prefix := FromNat(n / 10);
      assert s[..|s| - 1] == prefix;
      ToNatFromNat(n / 10);
    }
  }

  lemma FromNatInjective(a: nat, b: nat)
    requires FromNat(a) == FromNat(b)
    ensures a == b
  {
    ToNatFromNat(a);
    ToNatFromNat(b);
  }

  lemma FromIntInjective(a: int, b: int)
    requires FromInt(a) == FromInt(b)
    ensures a == b
  {
    if a < 0 && b < 0 {
      assert FromInt(a)[1..] == FromNat(-a);
      assert FromInt(b)[1..] == FromNat(-b);
      FromNatInjective(-a, -b);
    } else if a >= 0 && b >= 0 {
      FromNatInjective(a, b);
    }
  }

  /** A fixed prefix and suffix around a decimal number keep distinct numbers distinct. */
  lemma FramedInjective(prefix: string, suffix: string, a: int, b: int)
    requires prefix + FromInt(a) + suffix == prefix + FromInt(b) + suffix
    ensures a == b
  {
    var sa, sb := prefix + FromInt(a) + suffix, prefix + FromInt(b) + suffix;
    assert |FromInt(a)| == |FromInt(b)|;
    assert sa[|prefix|..|sa| - |suffix|] == FromInt(a);
    assert sb[|prefix|..|sb| - |suffix|] == FromInt(b);
    FromIntInjective(a, b);
  }
}
