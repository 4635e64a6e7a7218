/**
 * Unsigned machine words and the C bitwise operators the driver applies to
 * them (`&`, `|`, `<<`, the signed reinterpretation of a 32-bit word and the
 * arithmetic `>>`).  The operators are defined bit by bit on naturals, and
 * the lemmas below turn the patterns the driver uses (a low mask, a
 * single-bit test, an OR of non-overlapping fields) into plain arithmetic.
 */
module Bits {

  /** A `uint8_t`. */
  type Byte = x: int | 0 <= x < 0x100

  /** A `uint32_t`. */
  type U32 = x: int | 0 <= x < 0x1_0000_0000

  function Pow2(n: nat): (r: nat)
    ensures r >= 1
  {
    if n == 0 then 1 else 2 * Pow2(n - 1)
  }

  /** C's `a | b` on unsigned operands, least significant bit first. */
  function BitOr(a: nat, b: nat): nat
    decreases a + b
  {
    if a == 0 && b == 0 then 0
    else 2 * BitOr(a / 2, b / 2) + (if a % 2 == 1 || b % 2 == 1 then 1 else 0)
  }

  /** C's `a & b` on unsigned operands, least significant bit first. */
  function BitAnd(a: nat, b: nat): nat
    decreases a + b
  {
    if a == 0 && b == 0 then 0
    else 2 * BitAnd(a / 2, b / 2) + (if a % 2 == 1 && b % 2 == 1 then 1 else 0)
  }

  /** `x << n` on a `uint32_t`: bits shifted past bit 31 are lost. */
  function Shl32(x: U32, n: nat): U32
  {
    (x * Pow2(n)) % 0x1_0000_0000
  }

  /** `static_cast<int32_t>(x)` for a 32-bit pattern: two's complement. */
  function ToInt32(x: nat): int
  {
    var w := x % 0x1_0000_0000;
    if w < 0x8000_0000 then w else w - 0x1_0000_0000
  }

  /** `static_cast<uint32_t>(x)` for an `int32_t`: reduction modulo 2^32. */
  function ToU32(x: int): U32
  {
    x % 0x1_0000_0000
  }

  /** `x >> n` on an `int32_t`: an arithmetic shift, which rounds toward minus infinity. */
  function Asr(x: int, n: nat): int
  {
    x / Pow2(n)
  }

  /** 1 when bit `k` of `x` is set, 0 otherwise. */
  function Bit(x: nat, k: nat): nat
  {
    (x / Pow2(k)) % 2
  }

  lemma Pow2Values()
    ensures Pow2(7) == 0x80 && Pow2(8) == 0x100 && Pow2(16) == 0x1_0000
    ensures Pow2(23) == 0x80_0000 && Pow2(24) == 0x100_0000
  {
  }

  // One step of each operator: the lowest bit, and the rest shifted down.

  lemma OrStep(A: nat, B: nat, a: nat, b: nat, i: nat, j: nat)
    requires i < 2 && j < 2 && A == 2 * a + i && B == 2 * b + j
    ensures BitOr(A, B) == 2 * BitOr(a, b) + (if i == 1 || j == 1 then 1 else 0)
  {
    assert A / 2 == a && A % 2 == i;
    assert B / 2 == b && B % 2 == j;
    if A == 0 && B == 0 {
      assert a == 0 && b == 0;
    }
  }

  lemma AndStep(A: nat, B: nat, a: nat, b: nat, i: nat, j: nat)
    requires i < 2 && j < 2 && A == 2 * a + i && B == 2 * b + j
    ensures BitAnd(A, B) == 2 * BitAnd(a, b) + (if i == 1 && j == 1 then 1 else 0)
  {
    assert A / 2 == a && A % 2 == i;
    assert B / 2 == b && B % 2 == j;
    if A == 0 && B == 0 {
      assert a == 0 && b == 0;
    }
  }

  lemma MulNonneg(a: nat, b: nat)
    ensures a * b >= 0
  {
  }

  lemma Double(x: nat, p: nat)
    ensures x * (2 * p) == 2 * (x * p)
  {
  }

  lemma OrSplitStep(x: nat, y: nat, z: nat, w: nat, p: nat)
    requires x * p >= 0 && z * p >= 0 && x * (2 * p) >= 0 && z * (2 * p) >= 0
    requires y < 2 * p && w < 2 * p
    requires BitOr(x * p + y / 2, z * p + w / 2) == BitOr(x, z) * p + BitOr(y / 2, w / 2)
    ensures BitOr(x * (2 * p) + y, z * (2 * p) + w) == BitOr(x, z) * (2 * p) + BitOr(y, w)
  {
    var c := BitOr(x, z);
    MulNonneg(x, p);
    MulNonneg(z, p);
    var X2: nat, Z2: nat := x * p + y / 2, z * p + w / 2;
    Double(x, p);
    Double(z, p);
    Double(c, p);
    OrStep(x * (2 * p) + y, z * (2 * p) + w, X2, Z2, y % 2, w % 2);
    OrStep(y, w, y / 2, w / 2, y % 2, w % 2);
  }

  lemma AndSplitStep(x: nat, y: nat, z: nat, w: nat, p: nat)
    requires x * p >= 0 && z * p >= 0 && x * (2 * p) >= 0 && z * (2 * p) >= 0
    requires y < 2 * p && w < 2 * p
    requires BitAnd(x * p + y / 2, z * p + w / 2) == BitAnd(x, z) * p + BitAnd(y / 2, w / 2)
    ensures BitAnd(x * (2 * p) + y, z * (2 * p) + w) == BitAnd(x, z) * (2 * p) + BitAnd(y, w)
  {
    var c := BitAnd(x, z);
    MulNonneg(x, p);
    MulNonneg(z, p);
    var X2: nat, Z2: nat := x * p + y / 2, z * p + w / 2;
    Double(x, p);
    Double(z, p);
    Double(c, p);
    AndStep(x * (2 * p) + y, z * (2 * p) + w, X2, Z2, y % 2, w % 2);
    AndStep(y, w, y / 2, w / 2, y % 2, w % 2);
  }

  /** OR acts separately on the bits at and above position k and those below it. */
  lemma {:induction false} OrSplit(x: nat, y: nat, z: nat, w: nat, k: nat)
    requires y < Pow2(k) && w < Pow2(k)
    ensures BitOr(x * Pow2(k) + y, z * Pow2(k) + w) == BitOr(x, z) * Pow2(k) + BitOr(y, w)
  {
    if k > 0 {
      OrSplit(x, y / 2, z, w / 2, k - 1);
      MulNonneg(x, Pow2(k - 1));
      MulNonneg(z, Pow2(k - 1));
      MulNonneg(x, 2 * Pow2(k - 1));
      MulNonneg(z, 2 * Pow2(k - 1));
      OrSplitStep(x, y, z, w, Pow2(k - 1));
    }
  }

  /** AND acts separately on the bits at and above position k and those below it. */
  lemma {:induction false} AndSplit(x: nat, y: nat, z: nat, w: nat, k: nat)
    requires y < Pow2(k) && w < Pow2(k)
    ensures BitAnd(x * Pow2(k) + y, z * Pow2(k) + w) == BitAnd(x, z) * Pow2(k) + BitAnd(y, w)
  {
    if k > 0 {
      AndSplit(x, y / 2, z, w / 2, k - 1);
      MulNonneg(x, Pow2(k - 1));
      MulNonneg(z, Pow2(k - 1));
      MulNonneg(x, 2 * Pow2(k - 1));
      MulNonneg(z, 2 * Pow2(k - 1));
      AndSplitStep(x, y, z, w, Pow2(k - 1));
    }
  }

  lemma {:induction false} OrZero(a: nat)
    ensures BitOr(a, 0) == a && BitOr(0, a) == a
    decreases a
  {
    if a != 0 {
      OrZero(a / 2);
    }
  }

  lemma {:induction false} AndZero(a: nat)
    ensures BitAnd(a, 0) == 0 && BitAnd(0, a) == 0
    decreases a
  {
    if a != 0 {
      AndZero(a / 2);
    }
  }

  /** A mask of k ones keeps a k-bit value whole. */
  lemma {:induction false} AndOnes(y: nat, k: nat)
    requires y < Pow2(k)
    ensures BitAnd(y, Pow2(k) - 1) == y
  {
    if k > 0 {
      var p := Pow2(k - 1);
      AndOnes(y / 2, k - 1);
      AndStep(y, Pow2(k) - 1, y / 2, p - 1, y % 2, 1);
    }
  }

  lemma DivMod(a: nat, p: nat)
    requires p >= 1
    ensures a / p >= 0 && a % p < p && (a / p) * p + a % p == a
  {
  }

  /** A quotient and a remainder in range are the quotient and remainder. */
  lemma DivModUnique(n: int, m: int, q: int, r: int)
    requires 0 < m && n == q * m + r && 0 <= r < m
    ensures n / m == q && n % m == r
  {
    var q', r' := n / m, n % m;
    assert (q' - q) * m == r - r';
    if q' > q {
      MulMonotone(q' - q, m);
    } else if q' < q {
      MulMonotone(q - q', m);
    }
  }

  /** A value below the modulus is its own remainder. */
  lemma ModBelow(n: int, m: int)
    requires 0 <= n && 0 < m
    ensures n < m ==> n % m == n && n / m == 0
  {
    if n < m {
      DivModUnique(n, m, 0, n);
    }
  }

  lemma MulMonotone(d: int, m: int)
    requires d >= 1 && m > 0
    ensures d * m >= m
  {
  }

  /** `a & (2^k - 1)` keeps exactly the k low bits: it is `a mod 2^k`. */
  lemma AndLowMask(a: nat, k: nat)
    ensures BitAnd(a, Pow2(k) - 1) == a % Pow2(k)
  {
    var p := Pow2(k);
    DivMod(a, p);
    var q: nat, r: nat := a / p, a % p;
    MulNonneg(q, p);
    AndSplit(q, r, 0, p - 1, k);
    assert BitAnd(a, 0 * p + (p - 1)) == BitAnd(q, 0) * p + BitAnd(r, p - 1);
    AndZero(q);
    AndOnes(r, k);
  }

  /** `q & 1` is the lowest bit of q. */
  lemma AndOne(q: nat)
    ensures BitAnd(q, 1) == q % 2
  {
    AndZero(q / 2);
    AndStep(q, 1, q / 2, 0, q % 2, 1);
  }

  /** `a & 2^k` is `2^k` when bit k of `a` is set and 0 otherwise. */
  lemma AndSingleBit(a: nat, k: nat)
    ensures BitAnd(a, Pow2(k)) == Pow2(k) * Bit(a, k)
  {
    var p := Pow2(k);
    DivMod(a, p);
    var q: nat, r: nat := a / p, a % p;
    MulNonneg(q, p);
    AndSplit(q, r, 1, 0, k);
    assert a == q * p + r && p == 1 * p + 0;
    AndZero(r);
    AndOne(q);
    assert Bit(a, k) == q % 2;
  }

  /** OR of a value shifted past the k low bits with a k-bit value is their sum. */
  lemma OrDisjoint(a: nat, b: nat, k: nat)
    requires b < Pow2(k)
    ensures BitOr(a * Pow2(k), b) == a * Pow2(k) + b
    ensures BitOr(b, a * Pow2(k)) == a * Pow2(k) + b
  {
    var p := Pow2(k);
    MulNonneg(a, p);
    OrSplit(a, 0, 0, b, k);
    assert a * p + 0 == a * p && 0 * p + b == b;
    OrZero(a);
    OrZero(b);
    OrComm(a * p, b);
  }

  lemma {:induction false} OrComm(a: nat, b: nat)
    ensures BitOr(a, b) == BitOr(b, a)
    decreases a + b
  {
    if a != 0 || b != 0 {
      OrComm(a / 2, b / 2);
    }
  }

  /** `OrDisjoint` for a value already known to be a multiple of 2^k. */
  lemma OrDisjointAt(A: nat, a: nat, b: nat, k: nat)
    requires A == a * Pow2(k) && b < Pow2(k)
    ensures BitOr(A, b) == A + b
  {
    OrDisjoint(a, b, k);
  }

  /** Shifting both operands left by k shifts their OR left by k. */
  lemma OrShift(A: nat, B: nat, a: nat, b: nat, k: nat)
    requires A == a * Pow2(k) && B == b * Pow2(k)
    ensures BitOr(A, B) == BitOr(a, b) * Pow2(k)
  {
    MulNonneg(a, Pow2(k));
    MulNonneg(b, Pow2(k));
    OrSplit(a, 0, b, 0, k);
    OrZero(0);
  }

  /** 2^(a+b) is 2^a times 2^b. */
  lemma {:induction false} Pow2Add(a: nat, b: nat)
    ensures Pow2(a + b) == Pow2(a) * Pow2(b)
    decreases a
  {
    if a > 0 {
      Pow2Add(a - 1, b);
    }
  }

  /** Powers of two grow strictly. */
  lemma {:induction false} Pow2Less(a: nat, b: nat)
    requires a < b
    ensures Pow2(a) < Pow2(b)
    decreases b
  {
    if a < b - 1 {
      Pow2Less(a, b - 1);
    }
  }

  /** No bit of 0 is set. */
  lemma ZeroBits()
    ensures forall k: nat :: Bit(0, k) == 0
  {
    forall k: nat
      ensures Bit(0, k) == 0
    {
      ModBelow(0, Pow2(k));
    }
  }

  /** 2^j has bit j set and no other. */
  lemma OneHotBits(j: nat)
    ensures forall k: nat :: Bit(Pow2(j), k) == (if k == j then 1 else 0)
  {
    forall k: nat
      ensures Bit(Pow2(j), k) == (if k == j then 1 else 0)
    {
      if j < k {
        Pow2Less(j, k);
        ModBelow(Pow2(j), Pow2(k));
      } else {
        Pow2Add(j - k, k);
        DivModUnique(Pow2(j), Pow2(k), Pow2(j - k), 0);
        if j > k {
          DivModUnique(Pow2(j - k), 2, Pow2(j - k - 1), 0);
        }
      }
    }
  }

  /** A mask of n ones, 2^n - 1, has exactly the bits below n set. */
  lemma LowOnesBits(m: nat, n: nat)
    requires m + 1 == Pow2(n)
    ensures forall k: nat :: Bit(m, k) == (if k < n then 1 else 0)
  {
    forall k: nat
      ensures Bit(m, k) == (if k < n then 1 else 0)
    {
      if n <= k {
        if n < k {
          Pow2Less(n, k);
        }
        ModBelow(m, Pow2(k));
      } else {
        LowOnesBit(m, n, k);
      }
    }
  }

  /** One bit of a mask of n ones, below n. */
  lemma LowOnesBit(m: nat, n: nat, k: nat)
    requires m + 1 == Pow2(n) && k < n
    ensures Bit(m, k) == 1
  {
    var d: nat := n - k;
    var g: int, p: int := Pow2(d - 1), Pow2(k);
    Pow2Add(d, k);
    assert d + k == n && Pow2(d) == 2 * g;
    var h: int := 2 * g;
    MulPred(h, p);
    DivModUnique(m, p, h - 1, p - 1);
    DivModUnique(h - 1, 2, g - 1, 1);
  }

  lemma MulPred(h: int, p: int)
    ensures (h - 1) * p + (p - 1) == h * p - 1
  {
  }

  /** `b & 0x7F` clears bit 7 of a byte and nothing else. */
  lemma ByteLowMask(b: Byte)
    ensures BitAnd(b, 0x7F) == b % 0x80
  {
    Pow2Values();
    AndLowMask(b, 7);
  }

  /** `b | 0x80` sets bit 7 of a byte and nothing else. */
  lemma ByteHighFlag(b: Byte)
    ensures BitOr(b, 0x80) == b % 0x80 + 0x80
  {
    Pow2Values();
    var h, l := b / 0x80, b % 0x80;
    assert h < 2 && h * Pow2(7) + l == b && 1 * Pow2(7) + 0 == 0x80;
    OrSplit(h, l, 1, 0, 7);
    OrZero(l);
    assert BitOr(h, 1) == 1 by {
      OrZero(0);
      OrStep(h, 1, 0, 0, h, 1);
    }
  }
}
