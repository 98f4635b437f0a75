/** Integer primitives behind the driver's C++ arithmetic: bytes, the int16_t and
    int32_t ranges, the narrowing conversion to int16_t and C++ integer division. */
module Bits {

  /** An unsigned 8-bit register value (`uint8_t`). */
  type byte = bv8

  predicate IsInt16(x: int) { -0x8000 <= x < 0x8000 }

  predicate IsInt32(x: int) { -0x8000_0000 <= x < 0x8000_0000 }

  /** The byte whose unsigned value is `x`, built from its two nibbles so that the proof
      stays within bit-vector-to-integer reasoning. */
  function ToByte(x: int): (b: byte)
    requires 0 <= x < 0x100
    ensures b as int == x
  {
    (Nibble(x / 16) << 4) | Nibble(x % 16)
  }

  function Nibble(n: int): (b: byte)
    requires 0 <= n < 16
    ensures b as int == n && b < 16
  {
    if n < 8 then
      if n < 4 then (if n < 2 then (if n == 0 then 0 else 1) else (if n == 2 then 2 else 3))
      else (if n < 6 then (if n == 4 then 4 else 5) else (if n == 6 then 6 else 7))
    else
      if n < 12 then (if n < 10 then (if n == 8 then 8 else 9) else (if n == 10 then 10 else 11))
      else (if n < 14 then (if n == 12 then 12 else 13) else (if n == 14 then 14 else 15))
  }

  /** Conversion of an integer to `int16_t`: two's-complement wrap-around modulo 2^16. */
  function WrapInt16(x: int): (r: int)
    ensures IsInt16(r)
    ensures (x - r) % 0x1_0000 == 0
    ensures IsInt16(x) ==> r == x
    ensures 0 <= x < 0x1_0000 ==> r == (if x < 0x8000 then x else x - 0x1_0000)
  {
    var m := x % 0x1_0000;
    if m < 0x8000 then m else m - 0x1_0000
  }

  /** The int16_t range holds exactly one representative of every residue class modulo 2^16,
      so the contract of WrapInt16 determines its result. */
  lemma WrapInt16Unique(x: int, r: int)
    requires IsInt16(r) && (x - r) % 0x1_0000 == 0
    ensures WrapInt16(x) == r
  {
    var w := WrapInt16(x);
    var d := w - r;
    assert (x - r) - (x - w) == d;
    assert d % 0x1_0000 == 0;
    assert -0x1_0000 < d < 0x1_0000;
  }

  /** C++ integer division `a / b` for a positive divisor: the quotient is truncated toward
      zero, unlike Dafny's `/`, whose remainder is never negative. */
  function TruncDiv(a: int, b: int): (q: int)
    requires b > 0
    ensures 0 <= a ==> 0 <= q && q * b <= a < q * b + b
    ensures a < 0 ==> q <= 0 && (-q) * b <= -a < (-q) * b + b
  {
    if a >= 0 then
      DivBounds(a, b);
      a / b
    else
      NegDivBounds(a, b);
      -((-a) / b)
  }

  lemma DivBounds(a: int, b: int)
    requires 0 <= a && 0 < b
    ensures (a / b) * b <= a < (a / b) * b + b
  {
    assert a == (a / b) * b + a % b;
  }

  lemma NegDivBounds(a: int, b: int)
    requires a < 0 && 0 < b
    ensures var q := -((-a) / b); q <= 0 && (-q) * b <= -a < (-q) * b + b
  {
    var d := (-a) / b;
    DivBounds(-a, b);
    assert -(-d) == d;
  }

  /** Truncation is symmetric around zero: negating the dividend negates the quotient. */
  lemma TruncDivNegate(a: int, b: int)
    requires b > 0
    ensures TruncDiv(-a, b) == -TruncDiv(a, b)
  {
  }

  /** Every quotient that meets the truncation contract is TruncDiv's. */
  lemma TruncDivUnique(a: int, b: int, q: int)
    requires b > 0
    requires 0 <= a ==> 0 <= q && q * b <= a < q * b + b
    requires a < 0 ==> q <= 0 && (-q) * b <= -a < (-q) * b + b
    ensures TruncDiv(a, b) == q
  {
    if a >= 0 {
      QuotientUnique(a, b, TruncDiv(a, b), q);
    } else {
      QuotientUnique(-a, b, -TruncDiv(a, b), -q);
    }
  }

  /** At most one x satisfies x * b <= n < x * b + b. */
  lemma QuotientUnique(n: int, b: int, x: int, y: int)
    requires b > 0
    requires x * b <= n < x * b + b
    requires y * b <= n < y * b + b
    ensures x == y
  {
    if x < y {
      MulMonotone(x + 1, y, b);
    } else if y < x {
      MulMonotone(y + 1, x, b);
    }
  }

  lemma MulMonotone(x: int, y: int, b: int)
    requires x <= y && b > 0
    ensures x * b <= y * b
  {
  }

  /** For a negative odd dividend the two divisions differ: C++ gives -3 / 2 == -1. */
  lemma TruncDivDiffersFromEuclidean()
    ensures TruncDiv(-3, 2) == -1
    ensures -3 / 2 == -2
  {
  }
}
