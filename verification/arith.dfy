/** Integer facts shared by the tile algebra, the batch partition and the grid:
    powers of two, uniqueness of Euclidean division, and single bits of an integer. */
module Arith {

  /** 2^n. */
  function Pow2(n: nat): (r: nat)
    ensures r >= 1
    ensures n >= 1 ==> r % 2 == 0
  {
    if n == 0 then 1 else 2 * Pow2(n - 1)
  }

  lemma {:induction false} Pow2Add(a: nat, b: nat)
    ensures Pow2(a + b) == Pow2(a) * Pow2(b)
  {
    if a > 0 {
      Pow2Add(a - 1, b);
    }
  }

  lemma {:induction false} Pow2Mono(a: nat, b: nat)
    requires a <= b
    ensures Pow2(a) <= Pow2(b)
  {
    if a < b {
      Pow2Mono(a, b - 1);
    }
  }

  /** The powers the 32-bit shift arguments need. */
  lemma Pow2Values()
    ensures Pow2(21) == 0x20_0000 && Pow2(22) == 0x40_0000 && Pow2(23) == 0x80_0000
  {
    assert Pow2(2) == 4;
    Pow2Add(2, 2);
    Pow2Add(4, 4);
    Pow2Add(8, 8);
    Pow2Add(16, 4);
    Pow2Add(20, 1);
    Pow2Add(20, 2);
    Pow2Add(20, 3);
    assert Pow2(3) == 8;
  }

  /** `Math.ceil` on an exact real: the least integer not below x. */
  function Ceil(x: real): (n: int)
    ensures x <= n as real < x + 1.0
  {
    -((-x).Floor)
  }

  function Min(a: int, b: int): int {
    if a <= b then a else b
  }

  /** Quotient and remainder are determined by the defining equation. */
  lemma DivModUnique(x: int, d: int, q: int, r: int)
    requires d > 0 && 0 <= r < d && x == q * d + r
    ensures x / d == q && x % d == r
  {
    var q0, r0 := x / d, x % d;
    assert (q - q0) * d == r0 - r;
    SmallMultiple(q - q0, d);
  }

  /** The only multiple of d strictly between -d and d is zero. */
  lemma SmallMultiple(k: int, d: int)
    requires d > 0 && -d < k * d < d
    ensures k == 0
  {
    MulAtLeast(k, d);
    MulAtLeast(-k, d);
  }

  lemma MulAtLeast(k: int, d: int)
    requires d > 0
    ensures k >= 1 ==> k * d >= d
  {
    if k >= 1 {
      assert k * d == (k - 1) * d + d;
    }
  }

  /** Multiplying by a natural keeps the order. */
  lemma MulMono(a: int, b: int, d: int)
    requires d >= 0
    ensures a <= b ==> a * d <= b * d
  {
    if a < b {
      assert b * d - a * d == (b - a) * d;
      if d > 0 {
        MulAtLeast(b - a, d);
      }
    }
  }

  /** Euclidean division: k is its quotient times d plus its remainder. */
  lemma DivMod(k: int, d: int)
    requires d > 0
    ensures k == (k / d) * d + k % d && 0 <= k % d < d
  {
  }

  /** A number below n * d has a quotient by d below n. */
  lemma QuotientBound(k: int, n: int, d: int)
    requires d > 0 && 0 <= k < n * d
    ensures 0 <= k / d < n
  {
    MulMono(n, k / d, d);
  }

  /** Dividing by a then by b is dividing by a * b. */
  lemma DivDiv(x: int, a: int, b: int)
    requires a > 0 && b > 0
    ensures x / (a * b) == (x / a) / b
  {
    var q1, r1 := x / a, x % a;
    var q2, r2 := q1 / b, q1 % b;
    assert x == q1 * a + r1;
    assert q1 == q2 * b + r2;
    DivDivSum(q1, q2, r2, a, b);
    DivDivRem(r2, r1, a, b);
    DivModUnique(x, a * b, q2, r2 * a + r1);
  }

  lemma DivDivSum(q1: int, q2: int, r2: int, a: int, b: int)
    requires q1 == q2 * b + r2
    ensures q1 * a == q2 * (a * b) + r2 * a
  {
    assert q1 * a == (q2 * b) * a + r2 * a;
  }

  lemma DivDivRem(r2: int, r1: int, a: int, b: int)
    requires a > 0 && 0 <= r2 < b && 0 <= r1 < a
    ensures 0 <= r2 * a + r1 < a * b
  {
    MulMono(r2, b - 1, a);
    MulMono(0, r2, a);
    assert (b - 1) * a + a == a * b;
  }

  /** Bit k of x in two's complement (0 or 1); for a negative x this is the bit
      of its infinite sign-extended representation. */
  function Bit(x: int, k: nat): (b: nat)
    ensures b <= 1
  {
    (x / Pow2(k)) % 2
  }

  lemma BitZero(x: int)
    ensures Bit(x, 0) == x % 2
  {
  }

  /** Bit k + 1 of x is bit k of x shifted right by one. */
  lemma BitShift(x: int, k: nat)
    ensures Bit(x, k + 1) == Bit(x / 2, k)
  {
    DivDiv(x, 2, Pow2(k));
  }

  /** Halving a number below 2^(z+1) leaves it below 2^z. */
  lemma HalfBound(x: int, z: nat)
    requires 0 <= x < Pow2(z + 1)
    ensures 0 <= x / 2 < Pow2(z)
  {
  }

  /** Two naturals below 2^z with the same low z bits are equal. */
  lemma {:induction false} BitsDetermine(a: int, b: int, z: nat)
    requires 0 <= a < Pow2(z) && 0 <= b < Pow2(z)
    requires forall k :: 0 <= k < z ==> Bit(a, k) == Bit(b, k)
    ensures a == b
  {
    if z > 0 {
      assert Bit(a, 0) == Bit(b, 0);
      BitZero(a);
      BitZero(b);
      HalfBound(a, z - 1);
      HalfBound(b, z - 1);
      forall k | 0 <= k < z - 1
        ensures Bit(a / 2, k) == Bit(b / 2, k)
      {
        BitShift(a, k);
        BitShift(b, k);
        assert Bit(a, k + 1) == Bit(b, k + 1);
      }
      BitsDetermine(a / 2, b / 2, z - 1);
    }
  }
}
