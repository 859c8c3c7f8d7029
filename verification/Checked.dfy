/**
 Checked 64-bit arithmetic and the 128-bit intermediate used by rate derivation
 (include/linkobs/core/checked.hpp).

 Machine words are naturals below a power of two. Shifts are written as division or
 multiplication by a power of two, truncation as `%`, and `|` of disjoint bits as `+`.
 The two long divisions are loops in the original and are methods here; each one is
 proved against a closed-form quotient.
 */
module Checked {

  const TWO_32: nat := 0x1_0000_0000
  const TWO_63: nat := 0x8000_0000_0000_0000
  const TWO_64: nat := 0x1_0000_0000_0000_0000
  const MIN_I64: int := -0x8000_0000_0000_0000
  const TWO_128: nat := 0x1_0000_0000_0000_0000_0000_0000_0000_0000

  type U64 = n: nat | n < TWO_64
  type I64 = n: int | -0x8000_0000_0000_0000 <= n < TWO_63

  /** The original pairs an `ok` flag with a value; the value is only meaningful when `ok`. */
  datatype Checked<+T> = Failed | Exact(value: T)

  function CheckedAdd(lhs: U64, rhs: U64): Checked<U64> {
    if rhs > TWO_64 - 1 - lhs then Failed else Exact(lhs + rhs)
  }

  function CheckedMul(lhs: U64, rhs: U64): (r: Checked<U64>)
    ensures r == if lhs * rhs < TWO_64 then Exact(lhs * rhs) else Failed
  {
    if lhs == 0 || rhs == 0 then
      Exact(0)
    else if lhs > (TWO_64 - 1) / rhs then
      MulGuard(lhs, rhs);
      Failed
    else
      MulGuard(lhs, rhs);
      Exact(lhs * rhs)
  }

  lemma MulGuard(lhs: nat, rhs: nat)
    requires rhs > 0
    ensures lhs > (TWO_64 - 1) / rhs <==> lhs * rhs >= TWO_64
  {
    var q := (TWO_64 - 1) / rhs;
    if lhs > q {
      assert lhs * rhs >= (q + 1) * rhs;
    } else {
      assert lhs * rhs <= q * rhs;
    }
  }

  /** Signed subtraction: the most negative right operand is refused before it is negated. */
  function CheckedSubI64(lhs: I64, rhs: I64): Checked<I64> {
    if rhs == MIN_I64 then Failed
    else if -rhs > 0 && lhs > TWO_63 - 1 + rhs then Failed
    else if -rhs < 0 && lhs < MIN_I64 + rhs then Failed
    else Exact(lhs - rhs)
  }

  // ---------------------------------------------------------------------------
  // Powers of two
  // ---------------------------------------------------------------------------

  function Pow2(n: nat): (r: nat)
    ensures r > 0
  {
    if n == 0 then 1 else 2 * Pow2(n - 1)
  }

  lemma Pow2Word()
    ensures Pow2(64) == TWO_64 && Pow2(128) == TWO_128
  {
    assert Pow2(8) == 0x100;
    Pow2Square(8, 0x100);
    Pow2Square(16, 0x1_0000);
    Pow2Square(32, TWO_32);
    Pow2Square(64, TWO_64);
  }

  lemma Pow2Square(k: nat, v: nat)
    requires Pow2(k) == v
    ensures Pow2(2 * k) == v * v
  {
    ExactSplit(k, k);
  }

  /** Logical right shift. */
  function Shr(n: nat, k: nat): nat
  {
    if k == 0 then n else Shr(n / 2, k - 1)
  }

  /** Shifting by one more drops one more bit. */
  lemma {:induction false} ShrStep(n: nat, k: nat)
    ensures Shr(n, k + 1) == Shr(n, k) / 2
    ensures Shr(n, k) == 2 * Shr(n, k + 1) + Shr(n, k) % 2
  {
    if k != 0 {
      ShrStep(n / 2, k - 1);
    }
  }

  lemma {:induction false} ShrAdd(n: nat, j: nat, k: nat)
    ensures Shr(n, j + k) == Shr(Shr(n, j), k)
  {
    if j != 0 {
      ShrAdd(n / 2, j - 1, k);
    }
  }

  /** Shifting a value made of a high and a low part by no more than the low part's width. */
  lemma {:induction false} ShrParts(high: nat, low: nat, width: nat, k: nat)
    requires k <= width
    ensures Shr(high * Pow2(width) + low, k) == high * Pow2(width - k) + Shr(low, k)
    decreases k
  {
    if k != 0 {
      DoubleFactor(high, Pow2(width - 1));
      assert (high * Pow2(width) + low) / 2 == high * Pow2(width - 1) + low / 2;
      ShrParts(high, low / 2, width - 1, k - 1);
    }
  }

  lemma DoubleFactor(x: nat, y: nat)
    ensures x * (2 * y) == 2 * (x * y)
  {
  }

  /** Multiplying back never exceeds the original, and small values shift to zero. */
  lemma {:induction false} ShrBounds(n: nat, k: nat)
    ensures Shr(n, k) * Pow2(k) <= n
    ensures n < Pow2(k) ==> Shr(n, k) == 0
  {
    if k != 0 {
      ShrBounds(n / 2, k - 1);
      DoubleFactor(Shr(n, k), Pow2(k - 1));
    }
  }

  // ---------------------------------------------------------------------------
  // Euclidean division helpers
  // ---------------------------------------------------------------------------

  lemma DivUnique(n: nat, d: nat, q: nat, r: nat)
    requires d > 0 && n == q * d + r && r < d
    ensures n / d == q && n % d == r
  {
    var q', r' := n / d, n % d;
    assert n == q' * d + r';
    SameQuotient(d, q, r, q', r');
  }

  lemma SameQuotient(d: nat, q: nat, r: nat, q': nat, r': nat)
    requires q * d + r == q' * d + r' && r < d && r' < d
    ensures q == q' && r == r'
  {
    if q' < q {
      MulBound(q' + 1, d, q, d);
    } else if q < q' {
      MulBound(q + 1, d, q', d);
    }
  }

  lemma MulBound(a: nat, b: nat, x: nat, y: nat)
    requires a <= x && b <= y
    ensures a * b <= x * y
  {
    assert a * b <= x * b;
    assert x * b <= x * y;
  }

  // ---------------------------------------------------------------------------
  // 128-bit values
  // ---------------------------------------------------------------------------

  datatype U128 = U128(hi: U64, lo: U64) {
    predicate IsZero() { hi == 0 && lo == 0 }

    function Value(): nat { hi * TWO_64 + lo }
  }

  /** Three-way comparison on the limbs. */
  function Compare(lhs: U128, rhs: U128): (c: int)
    ensures c < 0 <==> lhs.Value() < rhs.Value()
    ensures c == 0 <==> lhs == rhs
    ensures c > 0 <==> lhs.Value() > rhs.Value()
  {
    if lhs.hi != rhs.hi then (if lhs.hi < rhs.hi then -1 else 1)
    else if lhs.lo != rhs.lo then (if lhs.lo < rhs.lo then -1 else 1)
    else 0
  }

  /** Unsigned subtraction modulo 2^64. */
  function WrapSub(lhs: U64, rhs: U64): U64 {
    if lhs >= rhs then lhs - rhs else lhs - rhs + TWO_64
  }

  /** Limb-wise subtraction with borrow; wraps modulo 2^128 when the true result is negative. */
  function SubU128(lhs: U128, rhs: U128): (r: U128)
    ensures r.Value() == lhs.Value() - rhs.Value() + (if lhs.Value() >= rhs.Value() then 0 else TWO_128)
  {
    var borrow := if lhs.lo < rhs.lo then 1 else 0;
    U128(WrapSub(WrapSub(lhs.hi, rhs.hi), borrow), WrapSub(lhs.lo, rhs.lo))
  }

  predicate HighBit(value: U128) {
    value.hi / TWO_63 != 0
  }

  /** Left shift by one; the bit shifted out is the one `HighBit` reported. */
  function Shl1(value: U128): (r: U128)
    ensures r.Value() == (if HighBit(value) then 2 * value.Value() - TWO_128 else 2 * value.Value())
    ensures r.lo % 2 == 0
  {
    TopBit(value.hi);
    TopBit(value.lo);
    U128((value.hi * 2) % TWO_64 + value.lo / TWO_63, (value.lo * 2) % TWO_64)
  }

  lemma TopBit(w: U64)
    ensures w / TWO_63 == (if w >= TWO_63 then 1 else 0)
    ensures (w * 2) % TWO_64 == 2 * w - (if w >= TWO_63 then TWO_64 else 0)
    ensures ((w * 2) % TWO_64) % 2 == 0
  {
  }

  /** Largest product of two 32-bit limbs. */
  const MAX_LIMB_PRODUCT: nat := 0xFFFF_FFFE_0000_0001

  type Limb = n: nat | n < TWO_32

  /** A product of two limbs fits 64 bits. */
  function Times(a: Limb, b: Limb): (p: U64)
    ensures p == a * b && p <= MAX_LIMB_PRODUCT
  {
    MulBound(a, b, TWO_32 - 1, TWO_32 - 1);
    a * b
  }

  /** Schoolbook 64x64 multiplication from 32-bit limbs is the exact product. */
  function MulU64(lhs: U64, rhs: U64): (r: U128)
    ensures r.Value() == lhs * rhs
  {
    var lhsLow, lhsHigh := lhs % TWO_32, lhs / TWO_32;
    var rhsLow, rhsHigh := rhs % TWO_32, rhs / TWO_32;
    var lowLow, lowHigh, highLow, highHigh :=
      Times(lhsLow, rhsLow), Times(lhsLow, rhsHigh), Times(lhsHigh, rhsLow), Times(lhsHigh, rhsHigh);
    LimbProducts(lhs, rhs, lowLow, lowHigh, highLow, highHigh);
    CombineLimbs(lowLow, lowHigh, highLow, highHigh)
  }

  /** Adds the four limb products at their weights; no partial sum overflows 64 bits. */
  function CombineLimbs(lowLow: U64, lowHigh: U64, highLow: U64, highHigh: U64): (r: U128)
    requires lowLow <= MAX_LIMB_PRODUCT && lowHigh <= MAX_LIMB_PRODUCT
    requires highLow <= MAX_LIMB_PRODUCT && highHigh <= MAX_LIMB_PRODUCT
    ensures r.Value() == highHigh * TWO_64 + (lowHigh + highLow) * TWO_32 + lowLow
  {
    var middle := (lowHigh + lowLow / TWO_32 + highLow % TWO_32) % TWO_64;
    CombineSums(lowLow, lowHigh, highLow, highHigh);
    var resultLo := (middle * TWO_32) % TWO_64 + lowLow % TWO_32;
    var resultHi := (highHigh + highLow / TWO_32 + middle / TWO_32) % TWO_64;
    U128(resultHi, resultLo)
  }

  lemma CombineSums(lowLow: nat, lowHigh: nat, highLow: nat, highHigh: nat)
    requires lowLow <= MAX_LIMB_PRODUCT && lowHigh <= MAX_LIMB_PRODUCT
    requires highLow <= MAX_LIMB_PRODUCT && highHigh <= MAX_LIMB_PRODUCT
    ensures
      var middle := lowHigh + lowLow / TWO_32 + highLow % TWO_32;
      var high := highHigh + highLow / TWO_32 + middle / TWO_32;
      && middle % TWO_64 == middle && high % TWO_64 == high < TWO_64
      && (middle * TWO_32) % TWO_64 == (middle % TWO_32) * TWO_32
      && high * TWO_64 + (middle % TWO_32) * TWO_32 + lowLow % TWO_32
         == highHigh * TWO_64 + (lowHigh + highLow) * TWO_32 + lowLow
  {
    var middle := lowHigh + lowLow / TWO_32 + highLow % TWO_32;
    LowHalf(middle);
  }

  lemma LowHalf(middle: U64)
    ensures (middle * TWO_32) % TWO_64 == (middle % TWO_32) * TWO_32
  {
    var q, r := middle / TWO_32, middle % TWO_32;
    assert middle * TWO_32 == q * TWO_64 + r * TWO_32;
  }

  lemma LimbProducts(lhs: U64, rhs: U64, lowLow: nat, lowHigh: nat, highLow: nat, highHigh: nat)
    requires
      var a0, a1, b0, b1 := lhs % TWO_32, lhs / TWO_32, rhs % TWO_32, rhs / TWO_32;
      lowLow == a0 * b0 && lowHigh == a0 * b1 && highLow == a1 * b0 && highHigh == a1 * b1
    ensures lhs * rhs == highHigh * TWO_64 + (lowHigh + highLow) * TWO_32 + lowLow
  {
    var a0, a1, b0, b1 := lhs % TWO_32, lhs / TWO_32, rhs % TWO_32, rhs / TWO_32;
    assert lhs == a1 * TWO_32 + a0 && rhs == b1 * TWO_32 + b0;
    ProductOfParts(a0, a1, b0, b1);
  }

  lemma ProductOfParts(a0: nat, a1: nat, b0: nat, b1: nat)
    ensures (a1 * TWO_32 + a0) * (b1 * TWO_32 + b0) == (a1 * b1) * TWO_64 + (a0 * b1 + a1 * b0) * TWO_32 + a0 * b0
  {
    Distribute(a1 * TWO_32, a0, b1 * TWO_32 + b0);
    Distribute(b1 * TWO_32, b0, a1);
    Distribute(b1 * TWO_32, b0, a0);
    Associate(a1, b1 * TWO_32 + b0, TWO_32);
    Associate(b1, a1, TWO_32);
    Associate(b1, a0, TWO_32);
  }

  lemma Distribute(x: nat, y: nat, z: nat)
    ensures (x + y) * z == x * z + y * z
  {
  }

  lemma Associate(x: nat, y: nat, c: nat)
    ensures (x * c) * y == (x * y) * c
  {
  }

  // ---------------------------------------------------------------------------
  // Long division
  // ---------------------------------------------------------------------------

  /** The quotient, when there is one and it fits in a word. */
  function FloorQuotient(n: nat, d: nat): Checked<U64> {
    if d == 0 || n / d >= TWO_64 then Failed else Exact(n / d)
  }

  /** Every running remainder of the bitwise division can be doubled without losing its top bit. */
  predicate RemaindersFit(n: nat, d: nat)
    requires d > 0
  {
    forall k | 1 <= k <= 128 :: Shr(n, k) % d < TWO_63
  }

  /** What the 64-bit-remainder division returns: it also refuses when a remainder would overflow. */
  function ShiftingQuotient(n: nat, d: nat): Checked<U64> {
    if d != 0 && !RemaindersFit(n, d) then Failed else FloorQuotient(n, d)
  }

  /** Bit `bit` of the 128-bit value, as both loops fetch it. */
  function BitOf(x: U128, bit: nat): (b: nat)
    requires bit < 128
    ensures b < 2
  {
    if bit >= 64 then Shr(x.hi, bit - 64) % 2 else Shr(x.lo, bit) % 2
  }

  /** The fetched bit is the bit of the whole value. */
  lemma BitOfValue(x: U128, bit: nat)
    requires bit < 128
    ensures BitOf(x, bit) == Shr(x.Value(), bit) % 2
  {
    if bit >= 64 {
      HighWord(x.hi, x.lo);
      ShrAdd(x.Value(), 64, bit - 64);
    } else {
      LowWordParity(x.hi, x.lo, bit);
    }
  }

  lemma HighWord(hi: nat, lo: nat)
    requires lo < TWO_64
    ensures Shr(hi * TWO_64 + lo, 64) == hi
  {
    Pow2Word();
    ShrParts(hi, lo, 64, 64);
    ShrBounds(lo, 64);
  }

  lemma LowWordParity(hi: nat, lo: nat, bit: nat)
    requires bit < 64
    ensures Shr(hi * TWO_64 + lo, bit) % 2 == Shr(lo, bit) % 2
  {
    Pow2Word();
    LowParity(hi, lo, 64, bit);
  }

  lemma LowParity(high: nat, low: nat, width: nat, k: nat)
    requires k < width
    ensures Shr(high * Pow2(width) + low, k) % 2 == Shr(low, k) % 2
  {
    var rest := Pow2(width - k - 1);
    ShrParts(high, low, width, k);
    DoubleFactor(high, rest);
    SameParity(Shr(high * Pow2(width) + low, k), high * rest, Shr(low, k));
  }

  lemma SameParity(m: nat, g: nat, t: nat)
    requires m == 2 * g + t
    ensures m % 2 == t % 2
  {
  }

  /** One subtracting or non-subtracting step of schoolbook binary division. */
  lemma DivisionStep(prefix: nat, d: nat, q: nat, r: nat, b: nat)
    requires d > 0 && prefix == q * d + r && r < d && b < 2
    ensures 2 * r + b >= d ==> 2 * prefix + b == (2 * q + 1) * d + (2 * r + b - d) && 2 * r + b - d < d
    ensures 2 * r + b < d ==> 2 * prefix + b == (2 * q) * d + (2 * r + b)
  {
    assert (2 * q + 1) * d == 2 * (q * d) + d;
    assert (2 * q) * d == 2 * (q * d);
  }

  lemma LargeQuotient(n: nat, d: nat, m: nat)
    requires d > 0 && m * d <= n
    ensures m <= n / d
  {
    var q, r := n / d, n % d;
    assert n == q * d + r;
    if q < m {
      MulBound(q + 1, d, m, d);
    }
  }

  /** A bit set at position 64 or above means the quotient needs more than 64 bits. */
  lemma HighQuotientBit(n: nat, d: nat, bit: nat)
    requires d > 0 && bit >= 64 && Shr(n, bit) >= d
    ensures n / d >= TWO_64
  {
    Pow2Word();
    ShrBounds(n, 64);
    ShrAdd(n, 64, bit - 64);
    ShrBounds(Shr(n, 64), bit - 64);
    MulBound(Shr(n, bit), 1, Shr(n, bit), Pow2(bit - 64));
    LargeQuotient(n, d, TWO_64);
  }

  /** What the partial quotient is worth, and why it stays within a word. */
  lemma QuotientRoom(q: nat, k: nat)
    requires 1 <= k <= 64 && q < Pow2(64 - k)
    ensures q * Pow2(k) == (2 * q) * Pow2(k - 1)
    ensures (2 * q + 1) * Pow2(k - 1) == q * Pow2(k) + Pow2(k - 1)
    ensures 2 * q + 1 < Pow2(64 - (k - 1))
    ensures (2 * q + 1) * Pow2(k - 1) < TWO_64
  {
    ExactSplit(k - 1, 65 - k);
    Pow2Word();
    RoomStep(q, Pow2(k - 1), Pow2(64 - k));
  }

  lemma {:induction false} ExactSplit(a: nat, b: nat)
    ensures Pow2(a) * Pow2(b) == Pow2(a + b)
  {
    if a != 0 {
      ExactSplit(a - 1, b);
      Associate(Pow2(a - 1), Pow2(b), 2);
    }
  }

  lemma RoomStep(q: nat, p: nat, room: nat)
    requires p * (2 * room) == TWO_64 && q < room
    ensures q * (2 * p) == (2 * q) * p
    ensures (2 * q + 1) * p == q * (2 * p) + p
    ensures (2 * q + 1) * p < TWO_64
  {
    Associate(q, p, 2);
    Distribute(2 * q, 1, p);
    MulBound(2 * q + 2, p, 2 * room, p);
    Distribute(2 * q + 1, 1, p);
  }

  /** Loop state after the top 128 - bits bits: prefix = q * d + r, and the quotient so far is q at its weight. */
  ghost predicate Dividing(n: nat, d: nat, bits: nat, q: nat, r: nat, quotient: nat) {
    && 0 < d && bits <= 128 && r < d
    && Shr(n, bits) == q * d + r
    && (bits >= 64 ==> q == 0)
    && (bits <= 64 ==> q < Pow2(64 - bits))
    && quotient == q * Pow2(bits) < TWO_64
  }

  lemma DividingStart(n: nat, d: nat)
    requires 0 < d && n < TWO_128
    ensures Dividing(n, d, 128, 0, 0, 0)
  {
    Pow2Word();
    ShrBounds(n, 128);
  }

  lemma DividingStep(x: U128, d: nat, bits: nat, q: nat, r: nat, quotient: nat)
    requires Dividing(x.Value(), d, bits, q, r, quotient) && bits > 0
    ensures
      var r' := 2 * r + BitOf(x, bits - 1);
      if r' < d then Dividing(x.Value(), d, bits - 1, 2 * q, r', quotient)
      else if bits <= 64 then Dividing(x.Value(), d, bits - 1, 2 * q + 1, r' - d, quotient + Pow2(bits - 1))
      else x.Value() / d >= TWO_64
  {
    var bit := bits - 1;
    ShrStep(x.Value(), bit);
    BitOfValue(x, bit);
    DivisionStep(Shr(x.Value(), bits), d, q, r, BitOf(x, bit));
    if bits <= 64 {
      QuotientRoom(q, bits);
    } else if 2 * r + BitOf(x, bit) >= d {
      HighQuotientBit(x.Value(), d, bit);
    }
  }

  lemma DividingDone(n: nat, d: nat, q: nat, r: nat, quotient: nat)
    requires Dividing(n, d, 0, q, r, quotient)
    ensures FloorQuotient(n, d) == Exact(quotient)
  {
    assert Pow2(0) == 1 && q * 1 == q;
    DivUnique(n, d, q, r);
  }

  lemma DividingRemainder(n: nat, d: nat, bits: nat, q: nat, r: nat, quotient: nat)
    requires Dividing(n, d, bits, q, r, quotient)
    ensures Shr(n, bits) % d == r
  {
    DivUnique(Shr(n, bits), d, q, r);
  }

  lemma RefusedRemainder(n: nat, d: nat, k: nat)
    requires d > 0 && 1 <= k <= 128 && Shr(n, k) % d >= TWO_63
    ensures ShiftingQuotient(n, d) == Failed
  {
  }

  /** A word shifted left by one: exact below 2^63. */
  function DoubleWord(w: U64): (r: U64)
    ensures w < TWO_63 ==> r == 2 * w
  {
    (w * 2) % TWO_64
  }

  /** u128_div_u64: bitwise division whose running remainder lives in 64 bits. */
  method DivU64(dividend: U128, divisor: U64) returns (result: Checked<U64>)
    ensures result == ShiftingQuotient(dividend.Value(), divisor)
  {
    if divisor == 0 {
      return Failed;
    }
    var quotient: nat, remainder: nat, bits: nat := 0, 0, 128;
    ghost var n, q: nat := dividend.Value(), 0;
    DividingStart(n, divisor);
    while bits > 0
      invariant Dividing(n, divisor, bits, q, remainder, quotient)
      invariant forall k | bits < k <= 128 :: Shr(n, k) % divisor < TWO_63
    {
      DividingRemainder(n, divisor, bits, q, remainder, quotient);
      if remainder > (TWO_64 - 1) / 2 {
        RefusedRemainder(n, divisor, bits);
        return Failed;
      }
      DividingStep(dividend, divisor, bits, q, remainder, quotient);
      bits := bits - 1;
      remainder := DoubleWord(remainder) + BitOf(dividend, bits);
      q := 2 * q;
      if remainder >= divisor {
        remainder := remainder - divisor;
        if bits >= 64 {
          return Failed;
        }
        quotient := quotient + Pow2(bits);
        q := q + 1;
      }
    }
    DividingDone(n, divisor, q, remainder, quotient);
    return Exact(quotient);
  }

  /** Shifts the next numerator bit into the remainder. */
  function ShiftIn(remainder: U128, b: nat): (r: U128)
    requires b < 2
    ensures r.Value() == 2 * remainder.Value() + b - (if HighBit(remainder) then TWO_128 else 0)
  {
    var shifted := Shl1(remainder);
    shifted.(lo := shifted.lo + b)
  }

  /** Subtracting after the carry bit was dropped still yields the true difference. */
  lemma CarriedDifference(remainder: U128, d: U128, b: nat)
    requires b < 2 && remainder.Value() < d.Value()
    ensures
      var s := ShiftIn(remainder, b);
      var doubled := 2 * remainder.Value() + b;
      && (HighBit(remainder) || Compare(s, d) >= 0 <==> doubled >= d.Value())
      && (doubled >= d.Value() ==> SubU128(s, d).Value() == doubled - d.Value())
      && (doubled < d.Value() ==> s.Value() == doubled)
  {
  }

  /** One step of the long division: shift a bit in, and subtract the divisor if it fits. */
  method ShiftAndSubtract(remainder: U128, denominator: U128, b: nat) returns (taken: bool, next: U128)
    requires b < 2 && remainder.Value() < denominator.Value()
    ensures taken <==> 2 * remainder.Value() + b >= denominator.Value()
    ensures next.Value() == 2 * remainder.Value() + b - (if taken then denominator.Value() else 0)
  {
    CarriedDifference(remainder, denominator, b);
    var carry := HighBit(remainder);
    next := ShiftIn(remainder, b);
    taken := carry || Compare(next, denominator) >= 0;
    if taken {
      next := SubU128(next, denominator);
    }
  }

  /** u128_div_u128: the carry out of the shift stands for bit 128 of the remainder. */
  method DivU128(numerator: U128, denominator: U128) returns (result: Checked<U64>)
    ensures result == FloorQuotient(numerator.Value(), denominator.Value())
  {
    if denominator.IsZero() {
      return Failed;
    }
    var quotient: nat, remainder, bits: nat := 0, U128(0, 0), 128;
    ghost var n, d, q: nat := numerator.Value(), denominator.Value(), 0;
    DividingStart(n, d);
    while bits > 0
      invariant Dividing(n, d, bits, q, remainder.Value(), quotient)
    {
      DividingStep(numerator, d, bits, q, remainder.Value(), quotient);
      bits := bits - 1;
      var taken, next := ShiftAndSubtract(remainder, denominator, BitOf(numerator, bits));
      remainder := next;
      q := 2 * q;
      if taken {
        if bits >= 64 {
          return Failed;
        }
        quotient := quotient + Pow2(bits);
        q := q + 1;
      }
    }
    DividingDone(n, d, q, remainder.Value(), quotient);
    return Exact(quotient);
  }

  /** Below 2^63 no remainder can overflow, so the 64-bit division is exact and complete. */
  lemma ShiftingQuotientComplete(n: nat, d: nat)
    requires 0 < d <= TWO_63
    ensures ShiftingQuotient(n, d) == FloorQuotient(n, d)
  {
    forall k | 1 <= k <= 128 ensures Shr(n, k) % d < TWO_63 {
      assert Shr(n, k) % d < d;
    }
  }

  /** Above 2^63 a representable quotient can be refused: here the true quotient is 1. */
  lemma ShiftingQuotientRefusesRepresentable()
    ensures FloorQuotient(TWO_64, TWO_64 - 1) == Exact(1)
    ensures ShiftingQuotient(TWO_64, TWO_64 - 1) == Failed
  {
    DivUnique(TWO_64, TWO_64 - 1, 1, 1);
    assert Shr(TWO_64, 1) == TWO_63;
    DivUnique(TWO_63, TWO_64 - 1, 0, TWO_63);
  }

  /** checked_mul_div: a product divided through a 128-bit intermediate. */
  method CheckedMulDiv(lhs: U64, rhs: U64, divisor: U64) returns (result: Checked<U64>)
    ensures result == ShiftingQuotient(lhs * rhs, divisor)
  {
    if divisor == 0 {
      return Failed;
    }
    result := DivU64(MulU64(lhs, rhs), divisor);
  }
}
