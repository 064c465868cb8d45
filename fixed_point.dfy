/** C integer semantics that the BME280 compensation code relies on, over
    unbounded integers: arithmetic right shift (gcc on signed values), left
    shift as multiplication, truncating division, and the narrowing
    conversions to int16_t, int8_t and uint32_t (gcc: modulo 2^n). */
module FixedPoint {

  /** 2^n. */
  function Pow2(n: nat): (r: nat)
    ensures r >= 1
  {
    if n == 0 then 1 else 2 * Pow2(n - 1)
  }

  /** C `x >> n` on a signed value: gcc shifts arithmetically, so the result
      is the floor of x / 2^n (Dafny's `/` is floor division for a positive
      divisor). */
  function Asr(x: int, n: nat): (r: int)
    ensures Pow2(n) * r <= x < Pow2(n) * r + Pow2(n)
  {
    x / Pow2(n)
  }

  /** C `x << n`, read as x * 2^n (what gcc produces, also for a negative x).
      No bits are lost, so shifting back right gives x again. */
  function Shl(x: int, n: nat): (r: int)
    ensures Asr(r, n) == x
  {
    DivUnique(x * Pow2(n), Pow2(n), x);
    x * Pow2(n)
  }

  /** The n low bits of `x << n` are zero; with the contract of Shl this
      pins the shifted value to exactly x * 2^n. */
  lemma ShlLowBits(x: int, n: nat)
    ensures Shl(x, n) % Pow2(n) == 0
    ensures Shl(x, n) == Pow2(n) * Asr(Shl(x, n), n)
  {
  }

  function Abs(x: int): nat
  {
    if x < 0 then -x else x
  }

  /** C `a / b` on signed integers: the quotient truncated toward zero. The
      contract is the definition in C99 6.5.5: the remainder a - r*b is
      smaller than |b| in magnitude and has the sign of the dividend. */
  function TruncDiv(a: int, b: int): (r: int)
    requires b != 0
    ensures Abs(a - r * b) < Abs(b)
    ensures a - r * b == 0 || (a - r * b < 0 <==> a < 0)
  {
    var q := Abs(a) / Abs(b);
    TruncDivBounds(Abs(a), Abs(b));
    if (a < 0) != (b < 0) then -q else q
  }

  lemma TruncDivBounds(m: nat, n: nat)
    requires n > 0
    ensures 0 <= m - (m / n) * n < n
  {
  }

  /** For a non-negative dividend and a positive divisor, truncation and
      floor agree: C's `/` is then Dafny's `/`. */
  lemma TruncDivNonNegative(a: int, b: int)
    requires a >= 0 && b > 0
    ensures TruncDiv(a, b) == a / b
  {
    var r := TruncDiv(a, b);
    assert 0 <= a - r * b < b;
    DivUnique(a, b, r);
  }

  lemma DivUnique(a: int, b: int, r: int)
    requires b > 0 && 0 <= a - r * b < b
    ensures r == a / b
  {
    var q := a / b;
    assert 0 <= a - q * b < b;
    assert (a - r * b) - (a - q * b) == (q - r) * b;
    if r < q {
      MulAtLeast(q - r, b);
    } else if r > q {
      MulAtLeast(r - q, b);
    }
  }

  lemma MulAtLeast(k: int, b: int)
    requires k >= 1 && b > 0
    ensures k * b >= b
  {
    assert k * b == (k - 1) * b + b;
  }

  /** Floor division by a positive divisor is monotone in the dividend. */
  lemma DivMonotone(x: int, y: int, b: int)
    requires x <= y && b > 0
    ensures x / b <= y / b
  {
    if x / b > y / b {
      assert b * (x / b) - b * (y / b) == (x / b - y / b) * b;
      MulAtLeast(x / b - y / b, b);
    }
  }

  /** For a negative dividend and a positive divisor, C's `/` is the
      negated floor quotient of the magnitude. */
  lemma TruncDivNegative(a: int, b: int)
    requires a < 0 && b > 0
    ensures TruncDiv(a, b) == -((-a) / b)
  {
  }

  /** C's truncating division by a positive divisor is monotone in the
      dividend, across the change of sign as well. */
  lemma TruncDivMonotone(a1: int, a2: int, b: int)
    requires a1 <= a2 && b > 0
    ensures TruncDiv(a1, b) <= TruncDiv(a2, b)
  {
    if a1 >= 0 {
      TruncDivNonNegative(a1, b);
      TruncDivNonNegative(a2, b);
      DivMonotone(a1, a2, b);
    } else if a2 < 0 {
      TruncDivNegative(a1, b);
      TruncDivNegative(a2, b);
      DivMonotone(-a2, -a1, b);
    } else {
      TruncDivNegative(a1, b);
      TruncDivNonNegative(a2, b);
      DivMonotone(0, -a1, b);
      DivMonotone(0, a2, b);
    }
  }

  /** Conversion of an int to uint32_t: reduction modulo 2^32. */
  function ToUint32(x: int): (r: int)
    ensures 0 <= r < 0x1_0000_0000
    ensures (x - r) % 0x1_0000_0000 == 0
    ensures 0 <= x < 0x1_0000_0000 ==> r == x
  {
    x % 0x1_0000_0000
  }

  /** Storing a value of [0, 65535] (an `int` built from two bytes) into an
      int16_t: gcc keeps the bit pattern, so values from 32768 up wrap to
      negative. */
  function ToInt16(x: int): (r: int)
    requires 0 <= x < 0x1_0000
    ensures -0x8000 <= r < 0x8000
    ensures r == x || r == x - 0x1_0000
  {
    if x >= 0x8000 then x - 0x1_0000 else x
  }

  /** Storing a uint8_t into an int8_t: the bit pattern is kept, so values
      from 128 up wrap to negative. */
  function ToInt8(x: int): (r: int)
    requires 0 <= x < 0x100
    ensures -0x80 <= r < 0x80
    ensures r == x || r == x - 0x100
  {
    if x >= 0x80 then x - 0x100 else x
  }
}
