/** The decimal conversions the protocol relies on: Go's `strconv.Atoi`
    (64-bit `int`), used by the decoder on the size fields, and the decimal
    rendering a client produces with the `%d` verb when it writes a size
    field. */
module Strconv {
  import opened Bytes

  const MinInt64: int := -0x8000_0000_0000_0000
  const MaxInt64: int := 0x7FFF_FFFF_FFFF_FFFF

  const Zero: byte := 48
  const Plus: byte := 43
  const Minus: byte := 45

  predicate IsDigit(b: byte) {
    Zero <= b <= Zero + 9
  }

  predicate AllDigits(s: seq<byte>) {
    forall i :: 0 <= i < |s| ==> IsDigit(s[i])
  }

  /** The value of a run of decimal digits, most significant first. */
  function DigitsValue(s: seq<byte>): (n: nat)
    requires AllDigits(s)
  {
    if s == [] then 0 else DigitsValue(s[..|s| - 1]) * 10 + (s[|s| - 1] - Zero) as int
  }

  /** Go's `strconv.Atoi` on a 64-bit platform: an optional `+` or `-`, then
      one or more decimal digits (leading zeros allowed, no underscores),
      whose value must lie in the `int64` range. Any other text is an error,
      modelled as `None`. */
  function Atoi(s: seq<byte>): (r: Option<int>)
    ensures r.Some? ==> MinInt64 <= r.value <= MaxInt64
    ensures r.Some? ==> 0 < |s| && (IsDigit(s[0]) || s[0] == Plus || s[0] == Minus)
    ensures r.Some? && 0 < |s| && IsDigit(s[0]) ==> 0 <= r.value
  {
    var signed := 0 < |s| && (s[0] == Plus || s[0] == Minus);
    var digits := if signed then s[1..] else s;
    if digits == [] || !AllDigits(digits) then None
    else
      var n: int := if signed && s[0] == Minus then -(DigitsValue(digits) as int) else DigitsValue(digits);
      if MinInt64 <= n <= MaxInt64 then Some(n) else None
  }

  /** The decimal rendering of a natural number (Go's `%d`), without sign
      or leading zeros. */
  function Decimal(n: nat): (d: seq<byte>)
    ensures 0 < |d| && AllDigits(d)
    ensures Space !in d
  {
    var last := [Zero + (n % 10) as byte];
    if n < 10 then last else Decimal(n / 10) + last
  }

  /** Powers of ten, to bound the length of a rendering. */
  function Pow10(k: nat): (p: nat)
    ensures 0 < p
  {
    if k == 0 then 1 else 10 * Pow10(k - 1)
  }

  /** Parsing the rendering of `n` gives `n` back. */
  lemma {:induction false} DigitsValueOfDecimal(n: nat)
    ensures DigitsValue(Decimal(n)) == n
  {
    var d := Decimal(n);
    if n >= 10 {
      DigitsValueOfDecimal(n / 10);
      assert d[..|d| - 1] == Decimal(n / 10);
    }
  }

  /** `Atoi` inverts `Decimal` on every size a Go `int` can hold. */
  lemma AtoiOfDecimal(n: nat)
    requires n <= MaxInt64
    ensures Atoi(Decimal(n)) == Some(n)
  {
    DigitsValueOfDecimal(n);
  }

  /** A number below 10^k is rendered in at most k digits. */
  lemma {:induction false} DecimalLengthBound(n: nat, k: nat)
    requires 0 < k && n < Pow10(k)
    ensures |Decimal(n)| <= k
  {
    if n >= 10 {
      assert 1 < k;
      assert n / 10 < Pow10(k - 1);
      DecimalLengthBound(n / 10, k - 1);
    }
  }

  /** Every size a Go `int` can hold is rendered in at most 19 digits. */
  lemma DecimalOfIntIsShort(n: nat)
    requires n <= MaxInt64
    ensures |Decimal(n)| <= 19
  {
    assert Pow10(4) == 10_000;
    assert Pow10(8) == 100_000_000;
    assert Pow10(12) == 1_000_000_000_000;
    assert Pow10(16) == 10_000_000_000_000_000;
    assert Pow10(19) == 10_000_000_000_000_000_000;
    DecimalLengthBound(n, 19);
  }
}
