/** Decimal text of natural numbers, as Python's `%d` and `%0Nd` format them,
    and the value of a digit string read back. */
module Decimal {

  predicate IsDigit(c: char) {
    '0' <= c <= '9'
  }

  predicate AllDigits(s: string) {
    forall i :: 0 <= i < |s| ==> IsDigit(s[i])
  }

  function DigitValue(c: char): nat
    requires IsDigit(c)
  {
    c as int - '0' as int
  }

  function DigitChar(d: nat): (c: char)
    requires d < 10
    ensures IsDigit(c) && DigitValue(c) == d
  {
    ('0' as int + d) as char
  }

  /** The number a string of digits denotes, most significant digit first. */
  function NumberOf(s: string): nat
    requires AllDigits(s)
  {
    if s == [] then 0 else NumberOf(s[..|s| - 1]) * 10 + DigitValue(s[|s| - 1])
  }

  function Pow10(k: nat): (p: nat)
    ensures p >= 1
  {
    if k == 0 then 1 else 10 * Pow10(k - 1)
  }

  /** `"%d" % n`: the shortest decimal text of n. */
  function Text(n: nat): (s: string)
    ensures 1 <= |s| && AllDigits(s)
    ensures NumberOf(s) == n
    ensures |s| > 1 ==> s[0] != '0'
  {
    if n < 10 then [DigitChar(n)]
    else
      var front := Text(n / 10);
      var s := front + [DigitChar(n % 10)];
      assert s[..|s| - 1] == front;
      s
  }

  function Zeros(k: nat): (z: string)
    ensures |z| == k && AllDigits(z)
  {
    seq(k, _ => '0')
  }

  /** `"%0*d" % (width, n)`: n with zeros in front up to width digits. */
  function ZeroPadded(n: nat, width: nat): (s: string)
    ensures AllDigits(s) && NumberOf(s) == n
    ensures |Text(n)| <= width ==> |s| == width
    ensures |Text(n)| > width ==> s == Text(n)
  {
    var digits := Text(n);
    var pad := if |digits| < width then width - |digits| else 0;
    LeadingZerosIgnored(pad, digits);
    Zeros(pad) + digits
  }

  lemma {:induction false} NumberOfZeros(k: nat)
    ensures NumberOf(Zeros(k)) == 0
  {
    if k > 0 {
      assert Zeros(k)[..k - 1] == Zeros(k - 1);
      NumberOfZeros(k - 1);
    }
  }

  /** Zeros in front of a digit string do not change the number it denotes. */
  lemma {:induction false} LeadingZerosIgnored(k: nat, s: string)
    requires AllDigits(s)
    ensures AllDigits(Zeros(k) + s) && NumberOf(Zeros(k) + s) == NumberOf(s)
    decreases |s|
  {
    var z := Zeros(k) + s;
    if s == [] {
      assert z == Zeros(k);
      NumberOfZeros(k);
    } else {
      var front := s[..|s| - 1];
      assert z[..|z| - 1] == Zeros(k) + front;
      LeadingZerosIgnored(k, front);
    }
  }

  /** A number below 10^k has at most k digits. */
  lemma {:induction false} TextLength(n: nat, k: nat)
    requires 1 <= k && n < Pow10(k)
    ensures |Text(n)| <= k
  {
    if n >= 10 {
      assert Pow10(1) == 10;
      assert n / 10 < Pow10(k - 1);
      TextLength(n / 10, k - 1);
    }
  }

  /** A number of at least 10^k has more than k digits. */
  lemma {:induction false} TextLengthAbove(n: nat, k: nat)
    requires Pow10(k) <= n
    ensures |Text(n)| > k
  {
    if k > 0 {
      assert n >= 10;
      assert n / 10 >= Pow10(k - 1);
      TextLengthAbove(n / 10, k - 1);
    }
  }

  /** Zero padding a number that fits in width digits gives exactly width digits. */
  lemma PaddedFits(n: nat, width: nat)
    requires 1 <= width && n < Pow10(width)
    ensures |ZeroPadded(n, width)| == width
  {
    TextLength(n, width);
  }
}
