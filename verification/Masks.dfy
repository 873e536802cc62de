/** 64-bit way masks.

  A mask is a natural number below 2^64, and `|`, `&` and `&^` are the bitwise operators, written
  out one binary digit at a time. `Bits` reads a mask as the set of way numbers it contains; the
  lemmas below say what each operator does to that set, and everything else in the project
  reasons about masks through them.
*/
module Masks {

  const WORD_LIMIT: nat := 0x1_0000_0000_0000_0000

  type Word = w: nat | w < WORD_LIMIT

  function Pow2(k: nat): (p: nat)
    ensures p >= 1
  {
    if k == 0 then 1 else 2 * Pow2(k - 1)
  }

  lemma {:induction false} WordWidth()
    ensures Pow2(64) == WORD_LIMIT
  {
    Pow2Times65536(0);
    Pow2Times65536(16);
    Pow2Times65536(32);
    Pow2Times65536(48);
    assert Pow2(0) == 1;
  }

  lemma {:induction false} Pow2Times16(k: nat)
    ensures Pow2(k + 4) == 16 * Pow2(k)
  {
    assert Pow2(k + 1) == 2 * Pow2(k);
    assert Pow2(k + 2) == 2 * Pow2(k + 1);
    assert Pow2(k + 3) == 2 * Pow2(k + 2);
  }

  lemma {:induction false} Pow2Times65536(k: nat)
    ensures Pow2(k + 16) == 0x1_0000 * Pow2(k)
  {
    Pow2Times16(k);
    Pow2Times16(k + 4);
    Pow2Times16(k + 8);
    Pow2Times16(k + 12);
  }

  lemma {:induction false} Pow2Monotone(j: nat, k: nat)
    requires j <= k
    ensures Pow2(j) <= Pow2(k)
    decreases k
  {
    if j < k { Pow2Monotone(j, k - 1); }
  }

  // ---- The operators -------------------------------------------------------------------------

  function OrDigits(a: nat, b: nat): nat {
    if a == 0 && b == 0 then 0
    else (if a % 2 == 1 || b % 2 == 1 then 1 else 0) + 2 * OrDigits(a / 2, b / 2)
  }

  function AndDigits(a: nat, b: nat): (r: nat)
    ensures r <= a
  {
    if a == 0 || b == 0 then 0
    else (if a % 2 == 1 && b % 2 == 1 then 1 else 0) + 2 * AndDigits(a / 2, b / 2)
  }

  function AndNotDigits(a: nat, b: nat): (r: nat)
    ensures r <= a
  {
    if a == 0 then 0
    else (if a % 2 == 1 && b % 2 == 0 then 1 else 0) + 2 * AndNotDigits(a / 2, b / 2)
  }

  lemma {:induction false} OrDigitsBound(a: nat, b: nat, k: nat)
    requires a < Pow2(k) && b < Pow2(k)
    ensures OrDigits(a, b) < Pow2(k)
  {
    if k > 0 { OrDigitsBound(a / 2, b / 2, k - 1); }
  }

  /** `a | b` */
  function Or(a: Word, b: Word): Word {
    WordWidth();
    OrDigitsBound(a, b, 64);
    OrDigits(a, b)
  }

  /** `a & b` */
  function And(a: Word, b: Word): Word {
    AndDigits(a, b)
  }

  /** `a &^ b` */
  function AndNot(a: Word, b: Word): Word {
    AndNotDigits(a, b)
  }

  /** `1 << uint(i)`: zero once the bit is shifted out of the word. A negative `i` becomes a huge
      shift count. */
  function OneBit(i: int): Word {
    if 0 <= i < 64 then
      Pow2Monotone(i, 63);
      WordWidth();
      Pow2(i)
    else 0
  }

  // ---- Masks as sets -------------------------------------------------------------------------

  predicate Has(m: nat, i: nat)
    decreases i
  {
    if i == 0 then m % 2 == 1 else Has(m / 2, i - 1)
  }

  ghost function Bits(m: Word): set<nat> {
    set i: nat | i < 64 && Has(m, i)
  }

  /** The ways `start`, ..., `start + count - 1`. */
  ghost function Interval(start: int, count: int): set<nat> {
    set i: nat | start <= i < start + count && Within(start, count, i)
  }

  ghost predicate Within(start: int, count: int, i: int) {
    start <= i < start + count
  }

  lemma {:induction false} HasOr(a: nat, b: nat, i: nat)
    ensures Has(OrDigits(a, b), i) <==> Has(a, i) || Has(b, i)
    decreases i
  {
    if i > 0 {
      HasOr(a / 2, b / 2, i - 1);
      if a == 0 && b == 0 { HasZero(i); }
    }
  }

  lemma {:induction false} HasAnd(a: nat, b: nat, i: nat)
    ensures Has(AndDigits(a, b), i) <==> Has(a, i) && Has(b, i)
    decreases i
  {
    HasZero(i);
    if i > 0 { HasAnd(a / 2, b / 2, i - 1); }
  }

  lemma {:induction false} HasAndNot(a: nat, b: nat, i: nat)
    ensures Has(AndNotDigits(a, b), i) <==> Has(a, i) && !Has(b, i)
    decreases i
  {
    HasZero(i);
    if i > 0 { HasAndNot(a / 2, b / 2, i - 1); }
  }

  lemma {:induction false} HasZero(i: nat)
    ensures !Has(0, i)
  {
    if i > 0 { HasZero(i - 1); }
  }

  lemma {:induction false} HasPow2(k: nat, i: nat)
    ensures Has(Pow2(k), i) <==> i == k
    decreases i
  {
    if i > 0 {
      if k == 0 { HasZero(i - 1); } else { HasPow2(k - 1, i - 1); }
    }
  }

  lemma {:induction false} HasBelow(m: nat, k: nat, i: nat)
    requires m < Pow2(k) && i >= k
    ensures !Has(m, i)
    decreases k
  {
    if k == 0 { HasZero(i); } else { HasBelow(m / 2, k - 1, i - 1); }
  }

  lemma {:induction false} SameDigits(a: nat, b: nat)
    requires forall i: nat :: Has(a, i) <==> Has(b, i)
    ensures a == b
  {
    assert Has(a, 0) <==> Has(b, 0);
    if a != 0 || b != 0 {
      forall i: nat ensures Has(a / 2, i) <==> Has(b / 2, i) {
        assert Has(a, i + 1) <==> Has(b, i + 1);
      }
      SameDigits(a / 2, b / 2);
    }
  }

  lemma {:induction false} BitsOr(a: Word, b: Word)
    ensures Bits(Or(a, b)) == Bits(a) + Bits(b)
  {
    forall i: nat | i < 64 ensures Has(Or(a, b), i) <==> Has(a, i) || Has(b, i) { HasOr(a, b, i); }
  }

  lemma {:induction false} BitsAnd(a: Word, b: Word)
    ensures Bits(And(a, b)) == Bits(a) * Bits(b)
  {
    forall i: nat | i < 64 ensures Has(And(a, b), i) <==> Has(a, i) && Has(b, i) { HasAnd(a, b, i); }
  }

  lemma {:induction false} BitsAndNot(a: Word, b: Word)
    ensures Bits(AndNot(a, b)) == Bits(a) - Bits(b)
  {
    forall i: nat | i < 64 ensures Has(AndNot(a, b), i) <==> Has(a, i) && !Has(b, i) { HasAndNot(a, b, i); }
  }

  lemma {:induction false} BitsOneBit(i: int)
    ensures Bits(OneBit(i)) == if 0 <= i < 64 then {i} else {}
  {
    forall j: nat | j < 64 ensures Has(OneBit(i), j) <==> 0 <= i < 64 && j == i {
      if 0 <= i < 64 { HasPow2(i, j); } else { HasZero(j); }
    }
  }

  /** A mask is determined by its ways. */
  lemma {:induction false} SameBits(a: Word, b: Word)
    requires Bits(a) == Bits(b)
    ensures a == b
  {
    forall i: nat ensures Has(a, i) <==> Has(b, i) {
      if i < 64 {
        assert i in Bits(a) <==> i in Bits(b);
      } else {
        WordWidth();
        HasBelow(a, 64, i);
        HasBelow(b, 64, i);
      }
    }
    SameDigits(a, b);
  }

  lemma {:induction false} BitsZero()
    ensures Bits(0) == {}
  {
    forall i: nat ensures !Has(0, i) { HasZero(i); }
  }

  lemma {:induction false} ZeroIffNoBits(m: Word)
    ensures m == 0 <==> Bits(m) == {}
  {
    BitsZero();
    if Bits(m) == {} { SameBits(m, 0); }
  }

  /** The test `a & b == 0` is disjointness. */
  lemma {:induction false} OverlapTest(a: Word, b: Word)
    ensures And(a, b) == 0 <==> Bits(a) !! Bits(b)
  {
    BitsAnd(a, b);
    ZeroIffNoBits(And(a, b));
    if Bits(a) * Bits(b) == {} {
      forall i | i in Bits(a) ensures i !in Bits(b) { assert i !in Bits(a) * Bits(b); }
    }
  }

  // ---- Building masks ------------------------------------------------------------------------

  /** The mask of `count` consecutive ways from `start`, as a value. */
  function WayMask(start: int, count: int): Word
    decreases if count < 0 then 0 else count
  {
    if count <= 0 then 0 else Or(WayMask(start, count - 1), OneBit(start + count - 1))
  }

  lemma {:induction false} BitsWayMask(start: int, count: int)
    ensures Bits(WayMask(start, count)) == set i: nat | i in Interval(start, count) && i < 64
    decreases if count < 0 then 0 else count
  {
    if count <= 0 {
      BitsZero();
    } else {
      BitsWayMask(start, count - 1);
      BitsOneBit(start + count - 1);
      BitsOr(WayMask(start, count - 1), OneBit(start + count - 1));
    }
  }

  /** `buildWayMask` and `buildCBM`: the two loops of the driver that assemble a mask. */
  method BuildMask(start: int, count: int) returns (mask: Word)
    ensures mask == WayMask(start, count)
    ensures Bits(mask) == set i: nat | i in Interval(start, count) && i < 64
  {
    mask := 0;
    var i := start;
    while i < start + count
      invariant count <= 0 ==> i == start
      invariant count > 0 ==> start <= i <= start + count
      invariant mask == WayMask(start, i - start)
    {
      mask := Or(mask, OneBit(i));
      i := i + 1;
    }
    BitsWayMask(start, count);
  }

  lemma {:induction false} IntervalSize(start: nat, count: nat)
    ensures |Interval(start, count)| == count
  {
    if count == 0 {
      assert Interval(start, count) == {};
    } else {
      IntervalSize(start, count - 1);
      assert Interval(start, count) == Interval(start, count - 1) + {start + count - 1};
    }
  }

  lemma {:induction false} SubsetSize(a: set<nat>, b: set<nat>)
    requires a <= b
    ensures |a| <= |b|
  {
    assert b == a + (b - a);
  }

  // ---- Counting ------------------------------------------------------------------------------

  /** How many of the `k` lowest ways are in `m`. */
  ghost function CountLow(m: nat, k: nat): nat {
    if k == 0 then 0 else CountLow(m, k - 1) + if Has(m, k - 1) then 1 else 0
  }

  lemma {:induction false} CountLowSize(m: nat, k: nat)
    ensures CountLow(m, k) == |LowBits(m, k)|
  {
    if k == 0 {
      assert LowBits(m, k) == {};
    } else {
      CountLowSize(m, k - 1);
      assert LowBits(m, k) == LowBits(m, k - 1) + if Has(m, k - 1) then {k - 1} else {};
    }
  }

  ghost function LowBits(m: nat, k: nat): set<nat> {
    set i: nat | i < k && Has(m, i)
  }

  lemma {:induction false} CountLowShift(m: nat, k: nat)
    requires k > 0
    ensures CountLow(m, k) == m % 2 + CountLow(m / 2, k - 1)
  {
    if k > 1 { CountLowShift(m, k - 1); }
  }

  lemma {:induction false} CountLowZero(k: nat)
    ensures CountLow(0, k) == 0
  {
    if k > 0 { CountLowZero(k - 1); HasZero(k - 1); }
  }

  lemma {:induction false} CountLowBound(m: nat, k: nat)
    ensures CountLow(m, k) <= k
  {
    if k > 0 { CountLowBound(m, k - 1); }
  }

  /** `NumWays`: the population count of the capacity mask. It never exceeds the word width, which
      is why the totals handed to the allocator are at most 64. */
  method NumWays(cbmMask: Word) returns (n: nat)
    ensures n == |Bits(cbmMask)|
    ensures n <= 64
  {
    n := 0;
    var m: nat := cbmMask;
    ghost var width: nat := 64;
    WordWidth();
    while m > 0
      invariant width <= 64 && m < Pow2(width)
      invariant n + CountLow(m, width) == CountLow(cbmMask, 64)
    {
      CountLowShift(m, width);
      n := n + m % 2;
      m := m / 2;
      width := width - 1;
    }
    CountLowZero(width);
    CountLowSize(cbmMask, 64);
    CountLowBound(cbmMask, 64);
    assert Bits(cbmMask) == LowBits(cbmMask, 64);
  }
}
