/** Go's int64 and the base-10 text of int64 values, as read by
    `strconv.ParseInt(s, 10, 64)` and written by `strconv.FormatInt(n, 10)`. */
module Strconv {
  import opened Wrappers

  const MinInt64: int := -0x8000_0000_0000_0000
  const MaxInt64: int := 0x7FFF_FFFF_FFFF_FFFF
  const TwoTo64: int := 0x1_0000_0000_0000_0000

  /** Go's int64. */
  type Int64 = x: int | MinInt64 <= x <= MaxInt64

  /** Go's int64 addition: the exact sum, wrapped once into range on overflow. */
  function AddInt64(a: Int64, b: Int64): (r: Int64)
    ensures MinInt64 <= a + b <= MaxInt64 ==> r == a + b
  {
    var sum := a + b;
    if sum > MaxInt64 then sum - TwoTo64
    else if sum < MinInt64 then sum + TwoTo64
    else sum
  }

  /** The wrapped sum is the exact sum modulo 2^64: two's-complement addition. */
  lemma AddInt64Congruent(a: Int64, b: Int64)
    ensures (AddInt64(a, b) - (a + b)) % TwoTo64 == 0
  {
    var d := AddInt64(a, b) - (a + b);
    assert d == 0 || d == TwoTo64 || d == -TwoTo64;
  }

  predicate IsDigit(c: char) {
    '0' <= c <= '9'
  }

  predicate AllDigits(s: string) {
    forall i | 0 <= i < |s| :: IsDigit(s[i])
  }

  function DigitValue(c: char): (d: nat)
    requires IsDigit(c)
    ensures d < 10
  {
    c as int - '0' as int
  }

  function DigitChar(d: nat): (c: char)
    requires d < 10
    ensures IsDigit(c) && DigitValue(c) == d
  {
    ('0' as int + d) as char
  }

  /** The value of a run of decimal digits, most significant digit first. */
  function DigitsValue(s: string): nat
    requires AllDigits(s)
  {
    if s == [] then 0 else DigitsValue(s[..|s| - 1]) * 10 + DigitValue(s[|s| - 1])
  }

  /** The decimal digits of m, most significant first, without leading zeros. */
  function Digits(m: nat): string {
    if m < 10 then [DigitChar(m)] else Digits(m / 10) + [DigitChar(m % 10)]
  }

  /** Digits writes a non-empty run of digits whose value is m. */
  lemma {:induction false} DigitsRoundTrip(m: nat)
    ensures |Digits(m)| > 0 && AllDigits(Digits(m))
    ensures DigitsValue(Digits(m)) == m
  {
    if m >= 10 {
      DigitsRoundTrip(m / 10);
      var s := Digits(m);
      assert s[..|s| - 1] == Digits(m / 10);
    }
  }

  /** `strconv.FormatInt(n, 10)`: a minus sign for negative values, then the digits. */
  function FormatInt(n: Int64): string {
    if n < 0 then "-" + Digits(-(n as int)) else Digits(n)
  }

  /** `strconv.ParseInt(s, 10, 64)`, with every error (empty input, a character that
      is not a digit after the optional sign, a value outside int64) folded into None. */
  function ParseInt64(s: string): (r: Option<Int64>)
    ensures r.Some? ==> |s| > 0 && AllDigits(s[1..])
    ensures r.Some? ==> IsDigit(s[0]) || (|s| > 1 && (s[0] == '+' || s[0] == '-'))
    ensures r.Some? && s[0] == '-' ==> r.value <= 0
  {
    if |s| == 0 then None
    else
      var digits := if s[0] == '+' || s[0] == '-' then s[1..] else s;
      if |digits| == 0 || !AllDigits(digits) then None
      else
        var magnitude: int := DigitsValue(digits);
        var v: int := if s[0] == '-' then -magnitude else magnitude;
        if MinInt64 <= v <= MaxInt64 then Some(v) else None
  }

  /** What FormatInt writes, ParseInt64 reads back unchanged. */
  lemma {:induction false} ParseFormatRoundTrip(n: Int64)
    ensures ParseInt64(FormatInt(n)) == Some(n)
  {
    var s := FormatInt(n);
    if n < 0 {
      var d := Digits(-(n as int));
      DigitsRoundTrip(-(n as int));
      assert s == "-" + d;
      assert s[0] == '-' && s[1..] == d;
      assert DigitsValue(d) == -(n as int);
    } else {
      var d := Digits(n);
      DigitsRoundTrip(n);
      assert s == d && IsDigit(s[0]);
      assert s[0] != '+' && s[0] != '-';
      assert DigitsValue(d) == n;
    }
  }
}
