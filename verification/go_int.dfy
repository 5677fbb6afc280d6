/**
 * Go's 64-bit `int`: two's-complement wrap-around of multiplication and the
 * documented contract of `strconv.Atoi`, which the pan strategies and the
 * request mapping use to read measures given as decimal strings.
 */
module GoInt {
  import opened Wrappers

  const MinInt64: int := -0x8000_0000_0000_0000
  const MaxInt64: int := 0x7fff_ffff_ffff_ffff
  const TwoTo64: int := 0x1_0000_0000_0000_0000

  predicate IsInt64(x: int) {
    MinInt64 <= x <= MaxInt64
  }

  /** How far `x` lies outside the int64 range. */
  function Excess(x: int): nat {
    if x > MaxInt64 then x - MaxInt64 else if x < MinInt64 then MinInt64 - x else 0
  }

  /**
   * The value a Go `int` holds after an arithmetic result `x` wraps around:
   * `x` shifted by whole multiples of 2^64 into the int64 range.
   */
  function Wrap64(x: int): (r: int)
    ensures IsInt64(r)
    ensures IsInt64(x) ==> r == x
    decreases Excess(x)
  {
    if x > MaxInt64 then Wrap64(x - TwoTo64)
    else if x < MinInt64 then Wrap64(x + TwoTo64)
    else x
  }

  /** Wrapping only ever moves a value by whole multiples of 2^64. */
  lemma {:induction false} Wrap64Congruent(x: int)
    ensures (x - Wrap64(x)) % TwoTo64 == 0
    decreases Excess(x)
  {
    if x > MaxInt64 {
      Wrap64Congruent(x - TwoTo64);
    } else if x < MinInt64 {
      Wrap64Congruent(x + TwoTo64);
    }
  }

  /** Go's `a * b` on `int`. */
  function Mul64(a: int, b: int): (r: int)
    ensures IsInt64(r)
    ensures IsInt64(a * b) ==> r == a * b
  {
    Wrap64(a * b)
  }

  /** Products of two measures below 2^31 in magnitude never wrap. */
  lemma SmallProductsDoNotWrap(a: int, b: int)
    requires -0x8000_0000 < a < 0x8000_0000 && -0x8000_0000 < b < 0x8000_0000
    ensures Mul64(a, b) == a * b
  {
    var x: nat := if a < 0 then -a else a;
    var y: nat := if b < 0 then -b else b;
    ProductBound(x, y);
    assert a * b == x * y || a * b == -(x * y);
  }

  lemma ProductBound(x: nat, y: nat)
    requires x < 0x8000_0000 && y < 0x8000_0000
    ensures x * y < 0x4000_0000_0000_0000
  {
    var b: nat := 0x8000_0000;
    MulMonotone(x, y, b);
    MulMonotone(b, x, b);
    assert b * b == 0x4000_0000_0000_0000;
  }

  lemma MulMonotone(a: nat, m: nat, n: nat)
    requires m <= n
    ensures a * m <= a * n
  {
    assert a * n - a * m == a * (n - m);
  }

  /** The `Err` field of a `strconv.NumError`. */
  datatype NumError = ErrSyntax | ErrRange

  /** Both results of `strconv.Atoi`: the value is returned even when `err` is set. */
  datatype AtoiResult = AtoiResult(value: int, err: Option<NumError>)

  predicate IsDigit(c: char) {
    '0' <= c <= '9'
  }

  predicate AllDigits(s: string) {
    forall i :: 0 <= i < |s| ==> IsDigit(s[i])
  }

  function DigitValue(c: char): (d: nat)
    requires IsDigit(c)
    ensures d < 10
  {
    (c as int) - ('0' as int)
  }

  function DigitChar(d: nat): (c: char)
    requires d < 10
    ensures IsDigit(c) && DigitValue(c) == d
  {
    ((d + '0' as int) as char)
  }

  /** The number a string of decimal digits denotes. */
  function DecimalValue(s: string): nat
    requires AllDigits(s)
  {
    if |s| == 0 then 0 else DecimalValue(s[..|s| - 1]) * 10 + DigitValue(s[|s| - 1])
  }

  predicate HasSign(s: string) {
    |s| > 0 && (s[0] == '+' || s[0] == '-')
  }

  /** The string after an optional leading sign. */
  function Unsigned(s: string): string {
    if HasSign(s) then s[1..] else s
  }

  /** What `Atoi` accepts in base 10: an optional sign followed by at least one digit. */
  predicate WellFormed(s: string) {
    |Unsigned(s)| > 0 && AllDigits(Unsigned(s))
  }

  /** The mathematical value of a well-formed decimal string. */
  function SignedValue(s: string): int
    requires WellFormed(s)
  {
    var magnitude: int := DecimalValue(Unsigned(s));
    if |s| > 0 && s[0] == '-' then -magnitude else magnitude
  }

  /**
   * `strconv.Atoi` on a 64-bit platform: a syntax error returns 0, a value out of
   * range returns the extreme int64 of the same sign, and both report an error.
   */
  function Atoi(s: string): (r: AtoiResult)
    ensures IsInt64(r.value)
    ensures r.err.None? <==> WellFormed(s) && IsInt64(SignedValue(s))
    ensures r.err.None? ==> r.value == SignedValue(s)
    ensures r.err == Some(ErrSyntax) <==> !WellFormed(s)
    ensures r.err == Some(ErrSyntax) ==> r.value == 0
    ensures r.err == Some(ErrRange) ==> r.value == if SignedValue(s) > 0 then MaxInt64 else MinInt64
  {
    if !WellFormed(s) then AtoiResult(0, Some(ErrSyntax))
    else
      var n := SignedValue(s);
      if n > MaxInt64 then AtoiResult(MaxInt64, Some(ErrRange))
      else if n < MinInt64 then AtoiResult(MinInt64, Some(ErrRange))
      else AtoiResult(n, None)
  }

  /** Decimal digits of a natural number, most significant first (`strconv.Itoa` without the sign). */
  function NatToString(n: nat): (s: string)
    ensures |s| > 0 && AllDigits(s)
    decreases n
  {
    if n < 10 then [DigitChar(n)] else NatToString(n / 10) + [DigitChar(n % 10)]
  }

  /** `strconv.Itoa`: how a client writes an integer measure. */
  function Itoa(n: int): string {
    if n < 0 then "-" + NatToString(-n) else NatToString(n)
  }

  lemma {:induction false} NatToStringValue(n: nat)
    ensures DecimalValue(NatToString(n)) == n
    decreases n
  {
    var s := NatToString(n);
    if n >= 10 {
      NatToStringValue(n / 10);
      assert s[..|s| - 1] == NatToString(n / 10);
    }
  }

  /** Reading back what `Itoa` wrote gives the same integer and no error. */
  lemma AtoiItoaRoundTrip(n: int)
    requires IsInt64(n)
    ensures Atoi(Itoa(n)) == AtoiResult(n, None)
  {
    var s := Itoa(n);
    if n < 0 {
      NatToStringValue(-n);
      assert Unsigned(s) == NatToString(-n);
    } else {
      NatToStringValue(n);
      assert Unsigned(s) == NatToString(n);
    }
  }

  /** The usual syntax failures: empty, a bare sign, letters and a decimal point all read as 0. */
  lemma AtoiRejections()
    ensures Atoi("") == AtoiResult(0, Some(ErrSyntax))
    ensures Atoi("-") == AtoiResult(0, Some(ErrSyntax))
    ensures Atoi("invalid") == AtoiResult(0, Some(ErrSyntax))
    ensures Atoi("2.5") == AtoiResult(0, Some(ErrSyntax))
  {
    assert !AllDigits("invalid") by { assert !IsDigit("invalid"[0]); }
    assert !AllDigits("2.5") by { assert !IsDigit("2.5"[1]); }
  }

  /** Decimal strings beyond the int64 range are clamped to the extreme of their sign. */
  lemma AtoiClampsOverflow(n: nat)
    requires n > MaxInt64
    ensures Atoi(NatToString(n)) == AtoiResult(MaxInt64, Some(ErrRange))
    ensures n > -MinInt64 ==> Atoi("-" + NatToString(n)) == AtoiResult(MinInt64, Some(ErrRange))
  {
    NatToStringValue(n);
    var neg := "-" + NatToString(n);
    assert Unsigned(neg) == NatToString(n);
  }
}
