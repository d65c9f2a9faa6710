/**
 * The fixed-width integer types the source uses (`i32`, `u32`, `u64`, `u16`
 * status codes, bytes) as bounded subsets of Dafny's unbounded `int`, and the
 * saturating and wrapping operations on `u64` that the source relies on.
 */
module Numeric {

  const U32_LIMIT: nat := 0x1_0000_0000
  const U64_LIMIT: nat := 0x1_0000_0000_0000_0000
  /** `u64::MAX`, the value every saturating `u64` operation stops at. */
  const U64_MAX: nat := U64_LIMIT - 1

  type byte = x: int | 0 <= x < 0x100
  type i32 = x: int | -0x8000_0000 <= x < 0x8000_0000
  type u32 = x: nat | x < U32_LIMIT
  type u64 = x: nat | x < U64_LIMIT

  function Min(a: int, b: int): int
  {
    if a <= b then a else b
  }

  /** 2 to the power n, exactly. */
  function Pow2(n: nat): (r: nat)
    ensures r >= 1
  {
    if n == 0 then 1 else 2 * Pow2(n - 1)
  }

  lemma {:induction false} Pow2Monotone(m: nat, n: nat)
    requires m <= n
    ensures Pow2(m) <= Pow2(n)
    decreases n
  {
    if m < n {
      Pow2Monotone(m, n - 1);
    }
  }

  lemma {:induction false} Pow2Add(m: nat, n: nat)
    ensures Pow2(m + n) == Pow2(m) * Pow2(n)
    decreases n
  {
    if n > 0 {
      Pow2Add(m, n - 1);
      assert Pow2(m + n) == 2 * Pow2(m + n - 1);
    }
  }

  lemma Pow2Of64()
    ensures Pow2(64) == U64_LIMIT
  {
    assert Pow2(8) == 256;
    Pow2Add(8, 8);
    assert Pow2(16) == 0x1_0000;
    Pow2Add(16, 16);
    assert Pow2(32) == U32_LIMIT;
    Pow2Add(32, 32);
  }

  /** `u64::saturating_mul`: the exact product, or `u64::MAX` when it does not fit. */
  function SaturatingMul(a: u64, b: u64): u64
  {
    if a * b <= U64_MAX then a * b else U64_MAX
  }

  /**
   * `2_u64.saturating_pow(n)`. The body saturates by exponent (2^64 is the first
   * power that does not fit); the contract says that this is the exact power
   * clipped at `u64::MAX`.
   */
  function SaturatingPow2(n: nat): (r: u64)
    ensures r == Min(Pow2(n), U64_MAX)
  {
    if n >= 64 then
      Pow2Of64();
      Pow2Monotone(64, n);
      U64_MAX
    else
      Pow2Of64();
      Pow2Monotone(n + 1, 64);
      Pow2(n)
  }

  lemma MulAtLeast(a: nat, b: nat)
    requires b >= 1
    ensures a * b >= a
  {
    assert a * b == a * (b - 1) + a;
  }

  lemma MulMonotone(a: nat, b: nat, c: nat)
    requires b <= c
    ensures a * b <= a * c
  {
    assert a * c == a * b + a * (c - b);
  }

  /** Saturating a product by a clipped factor is clipping the exact product. */
  lemma SaturatingMulClipped(a: u64, p: nat, f: u64)
    requires f == Min(p, U64_MAX)
    ensures SaturatingMul(a, f) == Min(a * p, U64_MAX)
  {
    if p > U64_MAX && a >= 1 {
      MulAtLeast(a, p);
      MulAtLeast(f, a);
    }
  }

  /**
   * Scaling by a saturated power of two and saturating the product gives the
   * exact scaled power, clipped at `u64::MAX`.
   */
  lemma SaturatingScale(a: u64, n: nat)
    ensures SaturatingMul(a, SaturatingPow2(n)) == Min(a * Pow2(n), U64_MAX)
  {
    SaturatingMulClipped(a, Pow2(n), SaturatingPow2(n));
  }

  /** `u64` multiplication as a release build computes it: modulo 2^64. */
  function WrappingMul(a: u64, b: u64): u64
  {
    (a * b) % U64_LIMIT
  }
}
