/**
 Decimal text of integers, as the C++ stream operators produce it for the
 plugin: `os << n` for an integer, and `std::setfill('0') << std::setw(w) << n`
 for the zero-padded identity fields of the trajectory paths.
 */
module Decimal {

  predicate IsDigit(c: char) {
    '0' <= c <= '9'
  }

  predicate AllDigits(s: string) {
    forall i :: 0 <= i < |s| ==> IsDigit(s[i])
  }

  function DigitValue(c: char): (d: nat)
    requires IsDigit(c)
    ensures d < 10
  {
    c as int - '0' as int
  }

  function DigitChar(d: nat): (c: char)
    requires d < 10
    ensures IsDigit(c) && DigitValue(c) == d
  {
    ('0' as int + d) as char
  }

  /** The number a string of decimal digits denotes, most significant digit first. */
  function Value(s: string): nat
    requires AllDigits(s)
  {
    if s == [] then 0 else Value(s[..|s| - 1]) * 10 + DigitValue(s[|s| - 1])
  }

  /** The canonical decimal text of a natural number: no sign, no leading zero. */
  function Digits(n: nat): (r: string)
    ensures |r| >= 1 && AllDigits(r)
    ensures Value(r) == n
    ensures r[0] == '0' ==> r == "0"
  {
    if n < 10 then [DigitChar(n)]
    else
      var d, c := Digits(n / 10), DigitChar(n % 10);
      assert (d + [c])[..|d|] == d;
      d + [c]
  }

  function Zeros(k: nat): (r: string)
    ensures |r| == k && AllDigits(r)
  {
    seq(k, _ => '0')
  }

  lemma {:induction false} ZerosValue(k: nat)
    ensures Value(Zeros(k)) == 0
  {
    if k > 0 {
      assert Zeros(k)[..k - 1] == Zeros(k - 1);
      ZerosValue(k - 1);
    }
  }

  /** Leading zeros do not change the value of a digit string. */
  lemma {:induction false} LeadingZerosValue(k: nat, s: string)
    requires AllDigits(s)
    ensures AllDigits(Zeros(k) + s) && Value(Zeros(k) + s) == Value(s)
  {
    if s == [] {
      assert Zeros(k) + s == Zeros(k);
      ZerosValue(k);
    } else {
      var init := s[..|s| - 1];
      assert (Zeros(k) + s)[..|Zeros(k) + s| - 1] == Zeros(k) + init;
      LeadingZerosValue(k, init);
    }
  }

  /**
   `std::setfill('0') << std::setw(width) << n` for a non-negative `n`: the
   decimal text right-aligned in a field of at least `width` characters, the
   gap filled with '0'. A number wider than the field is never truncated.
   */
  function Pad(n: nat, width: nat): (r: string)
    ensures |r| == if |Digits(n)| < width then width else |Digits(n)|
    ensures AllDigits(r) && Value(r) == n
    ensures r[|r| - |Digits(n)|..] == Digits(n)
    ensures forall i :: 0 <= i < |r| - |Digits(n)| ==> r[i] == '0'
  {
    var d := Digits(n);
    var k := if |d| < width then width - |d| else 0;
    LeadingZerosValue(k, d);
    assert (Zeros(k) + d)[k..] == d;
    Zeros(k) + d
  }

  /** Padding to a fixed width is one-to-one: the padded text determines the number. */
  lemma PadInjective(a: nat, b: nat, width: nat)
    requires Pad(a, width) == Pad(b, width)
    ensures a == b
  {
    assert Value(Pad(a, width)) == a && Value(Pad(b, width)) == b;
  }

  /** `os << i` for an `int`: an optional minus sign followed by the canonical digits of |i|. */
  function IntText(i: int): (r: string)
    ensures |r| >= 1
    ensures (r[0] == '-') <==> i < 0
    ensures var mag := if i < 0 then r[1..] else r;
      |mag| >= 1 && AllDigits(mag) && Value(mag) == (if i < 0 then -i else i) && (mag[0] == '0' ==> mag == "0")
    ensures IsDigit(r[|r| - 1])
  {
    if i < 0 then
      var d := Digits(-i);
      assert ("-" + d)[1..] == d;
      "-" + d
    else Digits(i)
  }
}
