/** Bitwise arithmetic on naturals, as the ring buffer uses it to size and index its slots. */
module Bits {

  function Pow2(e: nat): (r: nat)
    ensures r >= 1
  {
    if e == 0 then 1 else 2 * Pow2(e - 1)
  }

  /** Bit i of w. */
  predicate Bit(w: nat, i: nat) {
    if i == 0 then w % 2 == 1 else Bit(w / 2, i - 1)
  }

  /** w >> m */
  function ShiftRight(w: nat, m: nat): (r: nat)
    ensures r <= w
  {
    if m == 0 then w else ShiftRight(w / 2, m - 1)
  }

  /** a | b, one binary digit at a time. */
  function Or(a: nat, b: nat): (r: nat)
    ensures r >= a
    decreases a + b
  {
    if a == 0 && b == 0 then 0
    else 2 * Or(a / 2, b / 2) + (if a % 2 == 1 || b % 2 == 1 then 1 else 0)
  }

  /** a & b, one binary digit at a time. */
  function And(a: nat, b: nat): (r: nat)
    ensures r <= a && r <= b
  {
    if a == 0 || b == 0 then 0
    else 2 * And(a / 2, b / 2) + (if a % 2 == 1 && b % 2 == 1 then 1 else 0)
  }

  // ----- 64-bit integers

  const TWO63: int := 0x8000_0000_0000_0000
  const TWO64: int := 0x1_0000_0000_0000_0000

  predicate IsInt64(x: int) {
    -TWO63 <= x < TWO63
  }

  /** Two's-complement wrap-around of an int64 computation. */
  function Wrap64(x: int): (r: int)
    ensures IsInt64(r) && (x - r) % TWO64 == 0
    ensures IsInt64(x) ==> r == x
    ensures TWO63 <= x < TWO64 ==> r < 0
  {
    var m := x % TWO64;
    if m >= TWO63 then m - TWO64 else m
  }

  // ----- powers of two and quotients

  lemma {:induction false} Pow2Add(a: nat, b: nat)
    ensures Pow2(a + b) == Pow2(a) * Pow2(b)
  {
    if a == 0 {
    } else {
      Pow2Add(a - 1, b);
      MulAssoc(2, Pow2(a - 1), Pow2(b));
    }
  }

  lemma MulAssoc(a: int, b: int, c: int)
    ensures a * (b * c) == (a * b) * c
  {
  }

  lemma {:induction false} Pow2Monotone(a: nat, b: nat)
    requires a <= b
    ensures Pow2(a) <= Pow2(b)
    ensures a < b ==> Pow2(a) < Pow2(b)
  {
    if a == b {
    } else {
      Pow2Monotone(a, b - 1);
    }
  }

  lemma MulAtLeast(d: int, k: int)
    requires d >= 0 && k >= 1
    ensures d * k >= d
  {
    assert d * k == d * (k - 1) + d;
  }

  lemma QuotientIs(w: int, d: int, q: int, r: int)
    requires d > 0 && 0 <= r < d && w == d * q + r
    ensures w / d == q && w % d == r
  {
    var q', r' := w / d, w % d;
    assert w == d * q' + r' && 0 <= r' < d;
    UniqueQuotient(d, q, r, q', r');
  }

  lemma UniqueQuotient(d: int, q: int, r: int, q': int, r': int)
    requires d > 0 && 0 <= r < d && 0 <= r' < d && d * q + r == d * q' + r'
    ensures q == q' && r == r'
  {
    assert d * (q - q') == r' - r && d * (q' - q) == r - r';
    if q > q' {
      MulAtLeast(d, q - q');
    } else if q < q' {
      MulAtLeast(d, q' - q);
    }
  }

  lemma Pow2At31(n: nat)
    requires n == 31
    ensures Pow2(n) == 0x8000_0000
  {
    assert Pow2(n - 30) == 2 && Pow2(n - 29) == 4;
    assert Pow2(n - 28) == 8 && Pow2(n - 27) == 16 && Pow2(n - 26) == 32 && Pow2(n - 25) == 64;
    Pow2Add(6, 6);
    Pow2Add(12, 12);
    Pow2Add(24, 6);
    assert Pow2(n) == 2 * Pow2(n - 1);
  }

  lemma Pow2At62()
    ensures Pow2(62) == 0x4000_0000_0000_0000
    ensures Pow2(63) == TWO63
  {
    Pow2At31(31);
    Pow2Add(31, 31);
    assert Pow2(63) == 2 * Pow2(62);
  }

  // ----- bits of | and >>

  lemma {:induction false} ShiftBit(w: nat, m: nat, i: nat)
    ensures Bit(ShiftRight(w, m), i) == Bit(w, m + i)
  {
    if m == 0 {
    } else {
      ShiftBit(w / 2, m - 1, i);
    }
  }

  lemma {:induction false} OrBit(a: nat, b: nat, i: nat)
    ensures Bit(Or(a, b), i) <==> Bit(a, i) || Bit(b, i)
    decreases i
  {
    if i == 0 {
    } else {
      OrBit(a / 2, b / 2, i - 1);
    }
  }

  lemma {:induction false} OrBelow(a: nat, b: nat, n: nat)
    requires a < Pow2(n) && b < Pow2(n)
    ensures Or(a, b) < Pow2(n)
  {
    if n == 0 {
    } else {
      OrBelow(a / 2, b / 2, n - 1);
    }
  }

  /** All n low bits of 2^n - 1 are set. */
  lemma {:induction false} OnesBit(n: nat, i: nat)
    requires i < n
    ensures Bit(Pow2(n) - 1, i)
  {
    if i == 0 {
    } else {
      OnesBit(n - 1, i - 1);
      assert (Pow2(n) - 1) / 2 == Pow2(n - 1) - 1;
    }
  }

  /** Any other number below 2^n has a zero among its n low bits. */
  lemma {:induction false} ZeroBit(w: nat, n: nat) returns (i: nat)
    requires w < Pow2(n) - 1
    ensures i < n && !Bit(w, i)
  {
    if w % 2 == 0 {
      i := 0;
    } else {
      i := ZeroBit(w / 2, n - 1);
      i := i + 1;
    }
  }

  /** Masking with 2^n - 1 is the remainder modulo 2^n. */
  lemma {:induction false} MaskIsMod(x: nat, n: nat)
    ensures And(x, Pow2(n) - 1) == x % Pow2(n)
  {
    if n == 0 {
    } else if x == 0 {
    } else {
      MaskIsMod(x / 2, n - 1);
      ModDouble(x, Pow2(n - 1));
      MaskStep(x, Pow2(n - 1));
    }
  }

  lemma MaskStep(x: nat, h: nat)
    requires x > 0 && h > 0
    ensures And(x, 2 * h - 1) == 2 * And(x / 2, h - 1) + x % 2
  {
    assert (2 * h - 1) / 2 == h - 1 && (2 * h - 1) % 2 == 1;
  }

  lemma ModDouble(x: nat, h: nat)
    requires h > 0
    ensures x % (2 * h) == 2 * (x / 2 % h) + x % 2
  {
    var y, b := x / 2, x % 2;
    var q, r := y / h, y % h;
    assert y == h * q + r && x == 2 * y + b;
    assert (2 * h) * q == 2 * (h * q);
    QuotientIs(x, 2 * h, q, 2 * r + b);
  }

  // ----- sizing the ring: nextPowerOfTwo in ring/buffer.go

  /** One line of the cascade: v |= v >> m. */
  function Smear(v: nat, m: nat): (r: nat)
    ensures r >= v
  {
    Or(v, ShiftRight(v, m))
  }

  function Cascade(v: nat): (r: nat)
    ensures r >= v
  {
    Smear(Smear(Smear(Smear(Smear(v, 1), 2), 4), 8), 16)
  }

  /** The number of binary digits of w. */
  function Width(w: nat): (n: nat)
    ensures w < Pow2(n)
    ensures n > 0 ==> Pow2(n - 1) <= w && Bit(w, n - 1)
  {
    if w == 0 then 0 else Width(w / 2) + 1
  }

  /** Some bit of w at position i..i+span-1 is set. */
  ghost predicate SetWithin(w: nat, i: nat, span: nat) {
    exists j: nat :: i <= j < i + span && Bit(w, j)
  }

  /** v shows w smeared over `span` positions. */
  ghost predicate Smeared(w: nat, v: nat, span: nat) {
    forall i: nat :: Bit(v, i) <==> SetWithin(w, i, span)
  }

  lemma SmearedAt(w: nat, v: nat, span: nat, i: nat)
    requires Smeared(w, v, span)
    ensures Bit(v, i) <==> SetWithin(w, i, span)
  {
  }

  /** One more line with m == span doubles the span. */
  lemma SmearDoubles(w: nat, v: nat, span: nat, n: nat)
    requires v < Pow2(n) && Smeared(w, v, span)
    ensures Smear(v, span) < Pow2(n) && Smeared(w, Smear(v, span), 2 * span)
  {
    OrBelow(v, ShiftRight(v, span), n);
    forall i: nat
      ensures Bit(Smear(v, span), i) <==> SetWithin(w, i, 2 * span)
    {
      OrBit(v, ShiftRight(v, span), i);
      ShiftBit(v, span, i);
      SplitSpan(w, i, span);
      assert Bit(v, i) <==> SetWithin(w, i, span);
      assert Bit(v, span + i) <==> SetWithin(w, span + i, span);
    }
  }

  lemma SplitSpan(w: nat, i: nat, span: nat)
    ensures SetWithin(w, i, 2 * span) <==> SetWithin(w, i, span) || SetWithin(w, span + i, span)
  {
  }

  /** Bit i of the cascade is set exactly when a bit of the input is set among i..i+31. */
  lemma CascadeBits(w: nat, n: nat)
    requires w < Pow2(n)
    ensures Cascade(w) < Pow2(n) && Smeared(w, Cascade(w), 32)
  {
    forall i: nat
      ensures Bit(w, i) <==> SetWithin(w, i, 1)
    {
      if SetWithin(w, i, 1) {
        var j: nat :| i <= j < i + 1 && Bit(w, j);
        assert j == i;
      }
    }
    assert Smeared(w, w, 1);
    SmearDoubles(w, w, 1, n);
    SmearDoubles(w, Smear(w, 1), 2, n);
    SmearDoubles(w, Smear(Smear(w, 1), 2), 4, n);
    SmearDoubles(w, Smear(Smear(Smear(w, 1), 2), 4), 8, n);
    SmearDoubles(w, Smear(Smear(Smear(Smear(w, 1), 2), 4), 8), 16, n);
  }

  /** What nextPowerOfTwo(v) returns on a 64-bit platform: the last increment may wrap. */
  function Rounded(v: int): (c: int)
    ensures IsInt64(c)
  {
    if v <= 1 then 1 else Wrap64(Cascade(v - 1) + 1)
  }

  /** nextPowerOfTwo(v), its local reassigned line by line. */
  method NextPowerOfTwo(v: int) returns (c: int)
    requires IsInt64(v)
    ensures c == Rounded(v)
    ensures v <= 1 ==> c == 1
    ensures v > 1 ==> (LeastPowerOfTwo(c, v) <==> v <= Pow2(62) && NoLongGap(v - 1))
    ensures v > 1 ==> (IsPowerOfTwo(c) <==> v <= Pow2(62) && NoLongGap(v - 1))
    ensures v > 1 ==> (c <= 0 <==> v > Pow2(62) && NoLongGap(v - 1))
  {
    hide Or, ShiftRight, Wrap64, LeastPowerOfTwo, IsPowerOfTwo, NoLongGap;
    if v <= 1 {
      return 1;
    }
    NextPowerOfTwoExact(v);
    var w: nat := v - 1;
    w := Or(w, ShiftRight(w, 1));
    w := Or(w, ShiftRight(w, 2));
    w := Or(w, ShiftRight(w, 4));
    w := Or(w, ShiftRight(w, 8));
    w := Or(w, ShiftRight(w, 16));
    c := Wrap64(w + 1);
  }

  ghost predicate IsPowerOfTwo(c: int) {
    exists n: nat :: c == Pow2(n)
  }

  /** c is the least power of two that is at least v. */
  ghost predicate LeastPowerOfTwo(c: int, v: int) {
    && IsPowerOfTwo(c)
    && c >= v
    && forall n: nat :: Pow2(n) >= v ==> Pow2(n) >= c
  }

  /** Every zero bit of w below its leading bit has a set bit at most 31 places above it. */
  ghost predicate NoLongGap(w: nat) {
    forall i: nat :: i < Width(w) ==> SetWithin(w, i, 32)
  }

  /** 2^Width(w) is the least power of two above w. */
  lemma WidthIsLeast(w: nat)
    ensures LeastPowerOfTwo(Pow2(Width(w)), w + 1)
  {
  }

  /** The cascade fills every place below the leading bit exactly when there is no long gap. */
  lemma CascadeFills(w: nat)
    ensures w <= Cascade(w) < Pow2(Width(w))
    ensures NoLongGap(w) <==> Cascade(w) + 1 == Pow2(Width(w))
  {
    CascadeBits(w, Width(w));
    SmearFills(w, Cascade(w));
  }

  lemma SmearFills(w: nat, v: nat)
    requires v < Pow2(Width(w)) && Smeared(w, v, 32)
    ensures NoLongGap(w) <==> v + 1 == Pow2(Width(w))
  {
    var n := Width(w);
    if v + 1 == Pow2(n) {
      forall i: nat | i < n
        ensures SetWithin(w, i, 32)
      {
        OnesBit(n, i);
        SmearedAt(w, v, 32, i);
      }
    } else {
      var i := ZeroBit(v, n);
      SmearedAt(w, v, 32, i);
    }
  }

  /** Over unbounded integers the cascade is right exactly when v - 1 has no gap of 32 zeros. */
  lemma CascadeExact(v: int)
    requires v > 1
    ensures LeastPowerOfTwo(Cascade(v - 1) + 1, v) <==> NoLongGap(v - 1)
    ensures IsPowerOfTwo(Cascade(v - 1) + 1) <==> NoLongGap(v - 1)
  {
    var w: nat := v - 1;
    CascadeFills(w);
    WidthIsLeast(w);
  }

  /** A request in int range keeps the cascade in int range: only the last increment can leave it, and does so exactly
      for a request above 2^62 without a long gap. */
  lemma CascadeInRange(v: int)
    requires IsInt64(v) && v > 1
    ensures Cascade(v - 1) + 1 <= TWO63
    ensures Cascade(v - 1) + 1 == TWO63 <==> v > Pow2(62) && NoLongGap(v - 1)
  {
    var w: nat := v - 1;
    Pow2At62();
    CascadeFills(w);
    if Width(w) > 63 {
      Pow2Monotone(63, Width(w) - 1);
    } else if Width(w) == 63 {
    } else {
      Pow2Monotone(Width(w), 62);
    }
  }

  lemma LeastIsPower(c: int, v: int)
    ensures LeastPowerOfTwo(c, v) ==> IsPowerOfTwo(c)
  {
  }

  /** The requests for which nextPowerOfTwo is right are exactly those up to 2^62 without a gap of 32 zeros in v - 1.
      For all others the result is no power of two at all: above 2^62 and without a gap it is negative, and otherwise
      some bit was missed. */
  lemma NextPowerOfTwoExact(v: int)
    requires IsInt64(v) && v > 1
    ensures LeastPowerOfTwo(Rounded(v), v) <==> v <= Pow2(62) && NoLongGap(v - 1)
    ensures IsPowerOfTwo(Rounded(v)) <==> v <= Pow2(62) && NoLongGap(v - 1)
    ensures Rounded(v) <= 0 <==> v > Pow2(62) && NoLongGap(v - 1)
  {
    hide Cascade, NoLongGap, LeastPowerOfTwo;
    CascadeExact(v);
    CascadeInRange(v);
    LeastIsPower(Rounded(v), v);
  }

  /** The largest request of all: the increment wraps to the least int64. */
  lemma LargestRequest()
    ensures Rounded(TWO63 - 1) == -TWO63
  {
    hide Cascade, NoLongGap;
    Pow2At62();
    NoGapBelow(62, TWO63 - 2);
    CascadeInRange(TWO63 - 1);
  }

  /** 2^(n+1) - 2 is a run of ones but for its last bit. */
  lemma NoGapBelow(n: nat, w: nat)
    requires n >= 1 && w == 2 * (Pow2(n) - 1)
    ensures NoLongGap(w)
  {
    hide Pow2, Bit;
    assert Pow2(n + 1) == 2 * Pow2(n) && Pow2(n) >= 2 by {
      Doubles(n);
    }
    WidthIs(w, n + 1);
    forall i: nat | i < n + 1
      ensures SetWithin(w, i, 32)
    {
      var j := if i == 0 then 1 else i;
      OnesBit(n, j - 1);
      DoubleBit(Pow2(n) - 1, j);
      assert i <= j < i + 32 && Bit(w, j);
    }
  }

  lemma DoubleBit(h: nat, j: nat)
    requires j >= 1
    ensures Bit(2 * h, j) == Bit(h, j - 1)
  {
    assert 2 * h / 2 == h;
  }

  lemma Doubles(n: nat)
    ensures Pow2(n + 1) == 2 * Pow2(n)
    ensures n >= 1 ==> Pow2(n) >= 2
  {
  }

  /** Every request up to 2^32 is within the cascade's reach. */
  lemma CascadeCovers32(v: int)
    requires 1 < v <= Pow2(32)
    ensures LeastPowerOfTwo(Rounded(v), v)
  {
    var w: nat := v - 1;
    var top := Width(w) - 1;
    assert Bit(w, top);
    if top >= 32 {
      Pow2Monotone(32, top);
    }
    forall i: nat | i < Width(w)
      ensures SetWithin(w, i, 32)
    {
      assert i <= top < i + 32;
    }
    Pow2Monotone(32, 62);
    Pow2At62();
    NextPowerOfTwoExact(v);
  }

  /** Past the reach: each request 2^n + 1 from 2^32 + 1 on gets a capacity that is no power of two. */
  lemma CascadeMisses(n: nat, w: nat)
    requires 32 <= n <= 62 && w == Pow2(n)
    ensures !IsPowerOfTwo(Rounded(w + 1))
  {
    WidthIs(w, n + 1);
    LowBitsClear(n, w);
    Pow2Monotone(n, 62);
    Pow2At62();
    NextPowerOfTwoExact(w + 1);
  }

  /** A number below 2^n with all its n low bits set is 2^n - 1. */
  lemma AllOnes(v: nat, n: nat)
    requires v < Pow2(n) && forall i: nat :: i < n ==> Bit(v, i)
    ensures v == Pow2(n) - 1
  {
    if v < Pow2(n) - 1 {
      var i := ZeroBit(v, n);
    }
  }

  /** The least request that goes wrong, 2^32 + 1: its capacity is 2^33 - 1, and the mask 2^33 - 2 has its lowest bit
      clear. */
  lemma SmallestMiss()
    ensures Rounded(0x1_0000_0001) == 0x1_FFFF_FFFF
  {
    hide Cascade, Pow2, Wrap64;
    var w := 0x1_0000_0000;
    Pow2At31(31);
    Doubles(31);
    Doubles(32);
    CascadeBits(w, 33);
    var v := Cascade(w);
    SmearOfPower(w, v);
    assert v == 2 * (v / 2) + v % 2;
    WrapInRange(v + 1);
  }

  lemma WrapInRange(x: int)
    requires IsInt64(x)
    ensures Wrap64(x) == x
  {
  }

  lemma SmearOfPower(w: nat, v: nat)
    requires w == Pow2(32) && v < Pow2(33) && Smeared(w, v, 32)
    ensures v / 2 == Pow2(32) - 1 && v % 2 == 0
  {
    hide Pow2;
    Doubles(32);
    forall i: nat | i < 32
      ensures Bit(v / 2, i)
    {
      SmearedAt(w, v, 32, i + 1);
      PowerTop(32);
      assert SetWithin(w, i + 1, 32);
      assert Bit(v, i + 1) == Bit(v / 2, i);
    }
    AllOnes(v / 2, 32);
    LowBitsClear(32, w);
    SmearedAt(w, v, 32, 0);
    assert !Bit(v, 0);
  }

  lemma {:induction false} PowerTop(n: nat)
    ensures Bit(Pow2(n), n)
  {
    if n > 0 {
      PowerTop(n - 1);
      assert Pow2(n) / 2 == Pow2(n - 1);
    }
  }

  lemma LowBitsClear(n: nat, w: nat)
    requires n >= 32 && w == Pow2(n)
    ensures !SetWithin(w, 0, 32)
  {
    if SetWithin(w, 0, 32) {
      var j: nat :| 0 <= j < 0 + 32 && Bit(w, j);
      PowerBit(n, j);
    }
  }

  lemma {:induction false} PowerBit(n: nat, j: nat)
    requires j < n
    ensures !Bit(Pow2(n), j)
  {
    if j == 0 {
    } else {
      PowerBit(n - 1, j - 1);
      assert Pow2(n) / 2 == Pow2(n - 1);
    }
  }

  lemma WidthIs(w: nat, n: nat)
    requires n > 0 && Pow2(n - 1) <= w < Pow2(n)
    ensures Width(w) == n
  {
    if Width(w) < n {
      Pow2Monotone(Width(w), n - 1);
    } else if Width(w) > n {
      Pow2Monotone(n, Width(w) - 1);
    }
  }

  // ----- masking

  lemma {:induction false} AndPower(w: nat, i: nat)
    requires !Bit(w, i)
    ensures And(Pow2(i), w) == 0
  {
    if i == 0 {
    } else {
      AndPower(w / 2, i - 1);
      assert Pow2(i) / 2 == Pow2(i - 1) && Pow2(i) % 2 == 0;
    }
  }

  ghost predicate MaskReduces(c: nat)
    requires c >= 1
  {
    forall x: nat :: And(x, c - 1) == x % c
  }

  /** The mask addresses slots modulo the capacity exactly when the capacity is a power of two. */
  lemma MaskExact(c: nat)
    requires c >= 1
    ensures MaskReduces(c) <==> IsPowerOfTwo(c)
  {
    if IsPowerOfTwo(c) {
      var n: nat :| c == Pow2(n);
      forall x: nat
        ensures And(x, c - 1) == x % c
      {
        MaskIsMod(x, n);
      }
    } else {
      var n := Width(c - 1);
      assert c != Pow2(n);
      var i := ZeroBit(c - 1, n);
      AndPower(c - 1, i);
      Pow2Monotone(i, n - 1);
      SmallRemainder(Pow2(i), c);
      assert And(Pow2(i), c - 1) != Pow2(i) % c;
    }
  }

  lemma SmallRemainder(x: nat, c: nat)
    requires x < c
    ensures x % c == x
  {
  }
}
