/** Rounding up to powers of two by smearing bits (kit/utils/buf/bytes.go), on 64-bit machines. */
module PowersOfTwo {

  datatype Result<T> = Panic | Ok(value: T)

  const INT64_MIN: int := -0x8000_0000_0000_0000
  const INT64_MAX: int := 0x7fff_ffff_ffff_ffff
  const MAX_INT_HEAD_BIT: int := 0x4000_0000_0000_0000

  predicate IsInt64(n: int) {
    INT64_MIN <= n <= INT64_MAX
  }

  function Pow2(k: nat): (r: int)
    ensures r > 0
  {
    if k == 0 then 1 else 2 * Pow2(k - 1)
  }

  ghost predicate IsPow2(n: int) {
    exists k: nat :: n == Pow2(k)
  }

  lemma Pow2Monotone(a: nat, b: nat)
    requires a <= b
    ensures Pow2(a) <= Pow2(b) && (a < b ==> Pow2(a) < Pow2(b))
  {
  }

  lemma Pow2PlusTen(k: nat)
    ensures Pow2(k + 10) == 1024 * Pow2(k)
  {
    assert Pow2(k + 2) == 4 * Pow2(k);
    assert Pow2(k + 4) == 4 * Pow2(k + 2);
    assert Pow2(k + 6) == 4 * Pow2(k + 4);
    assert Pow2(k + 8) == 4 * Pow2(k + 6);
    assert Pow2(k + 10) == 4 * Pow2(k + 8);
  }

  lemma HeadBitIsPow2()
    ensures Pow2(62) == MAX_INT_HEAD_BIT
  {
    assert Pow2(2) == 4;
    Pow2PlusTen(2);
    Pow2PlusTen(12);
    Pow2PlusTen(22);
    Pow2PlusTen(32);
    Pow2PlusTen(42);
    Pow2PlusTen(52);
  }

  // Bitwise operators on non-negative integers, one bit at a time from the lowest.

  function Or(a: nat, b: nat): nat
    decreases a + b
  {
    if a == 0 && b == 0 then 0 else 2 * Or(a / 2, b / 2) + if a % 2 == 1 || b % 2 == 1 then 1 else 0
  }

  function Shr(n: nat, k: nat): nat
    decreases k
  {
    if k == 0 then n else Shr(n / 2, k - 1)
  }

  predicate Bit(n: nat, i: nat)
    decreases i
  {
    if i == 0 then n % 2 == 1 else Bit(n / 2, i - 1)
  }

  lemma {:induction false} BitOfOr(a: nat, b: nat, i: nat)
    ensures Bit(Or(a, b), i) <==> Bit(a, i) || Bit(b, i)
    decreases i
  {
    if a == 0 && b == 0 {
      NoBitInZero(i);
    } else if i > 0 {
      BitOfOr(a / 2, b / 2, i - 1);
    }
  }

  lemma NoBitInZero(i: nat)
    ensures !Bit(0, i)
  {
  }

  lemma {:induction false} BitOfShr(n: nat, k: nat, i: nat)
    ensures Bit(Shr(n, k), i) <==> Bit(n, k + i)
    decreases k
  {
    if k > 0 {
      BitOfShr(n / 2, k - 1, i);
    }
  }

  /** The number of bits of n. */
  function Len(n: nat): nat {
    if n == 0 then 0 else 1 + Len(n / 2)
  }

  lemma {:induction false} LenBounds(n: nat)
    requires n > 0
    ensures Len(n) > 0 && Pow2(Len(n) - 1) <= n < Pow2(Len(n))
  {
    if n > 1 {
      LenBounds(n / 2);
    }
  }

  lemma {:induction false} BitsOfLen(n: nat, i: nat)
    ensures i >= Len(n) ==> !Bit(n, i)
    ensures i + 1 == Len(n) ==> Bit(n, i)
    decreases i
  {
    if i > 0 && n > 0 {
      BitsOfLen(n / 2, i - 1);
    } else if n == 0 {
      NoBitInZero(i);
    } else {
      assert n / 2 > 0 ==> Len(n / 2) > 0;
    }
  }

  /** The highest w of the bits below h are set, and no bit from h on is. */
  ghost predicate Smeared(n: nat, h: nat, w: nat) {
    && (forall i: nat :: i >= h ==> !Bit(n, i))
    && (forall i: nat :: i < h <= i + w ==> Bit(n, i))
  }

  lemma OrShrSmears(n: nat, h: nat, w: nat)
    requires Smeared(n, h, w)
    ensures Smeared(Or(n, Shr(n, w)), h, 2 * w)
  {
    var m := Or(n, Shr(n, w));
    forall i: nat ensures (i >= h ==> !Bit(m, i)) && (i < h <= i + 2 * w ==> Bit(m, i)) {
      BitOfOr(n, Shr(n, w), i);
      BitOfShr(n, w, i);
    }
  }

  lemma {:induction false} FullySmeared(n: nat, h: nat)
    requires Smeared(n, h, h)
    ensures n == Pow2(h) - 1
    decreases h
  {
    if h == 0 {
      if n > 0 {
        BitsOfLen(n, Len(n) - 1);
      }
    } else {
      assert Bit(n, 0);
      forall i: nat ensures Bit(n / 2, i) == Bit(n, i + 1) {
      }
      FullySmeared(n / 2, h - 1);
    }
  }

  /** Fills every bit below the highest one. */
  method FillBits(n: nat) returns (r: nat)
    requires n <= INT64_MAX
    ensures r == Pow2(Len(n)) - 1
  {
    ghost var h := Len(n);
    LenOfInt64(n);
    forall i: nat ensures (i >= h ==> !Bit(n, i)) && (i + 1 == h ==> Bit(n, i)) {
      BitsOfLen(n, i);
    }
    OrShrSmears(n, h, 1);
    r := Or(n, Shr(n, 1));
    OrShrSmears(r, h, 2);
    r := Or(r, Shr(r, 2));
    OrShrSmears(r, h, 4);
    r := Or(r, Shr(r, 4));
    OrShrSmears(r, h, 8);
    r := Or(r, Shr(r, 8));
    OrShrSmears(r, h, 16);
    r := Or(r, Shr(r, 16));
    OrShrSmears(r, h, 32);
    r := Or(r, Shr(r, 32));
    FullySmeared(r, h);
  }

  lemma LenOfInt64(n: nat)
    requires n <= INT64_MAX
    ensures Len(n) <= 63 && (n < MAX_INT_HEAD_BIT ==> Len(n) <= 62)
  {
    HeadBitIsPow2();
    assert Pow2(63) == 2 * Pow2(62);
    if n > 0 {
      LenBounds(n);
      if Len(n) > 63 {
        Pow2Monotone(63, Len(n) - 1);
      }
      if Len(n) > 62 {
        Pow2Monotone(62, Len(n) - 1);
      }
    }
  }

  /** What n is rounded up to: itself when it is at most 2. */
  function Ceil(n: int): int {
    if n <= 2 then n else Pow2(Len(n - 1))
  }

  ghost predicate IsLeastPow2From(p: int, n: int) {
    IsPow2(p) && n <= p && forall k: nat :: n <= Pow2(k) ==> p <= Pow2(k)
  }

  /** For positive n that is the least power of two from n on. */
  lemma CeilIsLeastPowerOfTwo(n: int)
    requires n >= 1
    ensures IsLeastPow2From(Ceil(n), n)
  {
    assert Pow2(0) == 1 && Pow2(1) == 2;
    if n > 2 {
      LenBounds(n - 1);
      forall k: nat | n <= Pow2(k) ensures Ceil(n) <= Pow2(k) {
        if k < Len(n - 1) {
          Pow2Monotone(k, Len(n - 1) - 1);
        } else {
          Pow2Monotone(Len(n - 1), k);
        }
      }
    } else {
      assert n == Pow2(n - 1);
    }
  }

  /** It panics exactly for arguments above 2^62, and no intermediate value overflows. */
  method CeilToPowerOfTwo(n: int) returns (r: Result<int>)
    requires IsInt64(n)
    ensures r == if n > MAX_INT_HEAD_BIT then Panic else Ok(Ceil(n))
    ensures r.Ok? && n >= 1 ==> IsLeastPow2From(r.value, n)
    ensures r.Ok? ==> IsInt64(r.value) && (n >= 0 ==> r.value <= MAX_INT_HEAD_BIT)
  {
    if (n / MAX_INT_HEAD_BIT) % 2 == 1 && n > MAX_INT_HEAD_BIT {
      return Panic;
    }
    if n >= 1 {
      CeilIsLeastPowerOfTwo(n);
    }
    if n <= 2 {
      return Ok(n);
    }
    HeadBitIsSet(n);
    CeilIsInt64(n);
    var m := n - 1;
    m := FillBits(m);
    m := m + 1;
    return Ok(m);
  }

  lemma HeadBitIsSet(n: int)
    ensures MAX_INT_HEAD_BIT < n <= INT64_MAX ==> (n / MAX_INT_HEAD_BIT) % 2 == 1
  {
  }

  lemma CeilIsInt64(n: int)
    requires 2 < n <= MAX_INT_HEAD_BIT
    ensures Ceil(n) <= MAX_INT_HEAD_BIT
  {
    LenOfInt64(n - 1);
    Pow2Monotone(Len(n - 1), 62);
    HeadBitIsPow2();
  }

  // The loop that doubles a size until it is past the maximum.

  /** A shift to the left by one, in 64 bits. */
  function Shl(n: int): (r: int)
    ensures IsInt64(n) ==> IsInt64(r)
  {
    if 2 * n > INT64_MAX then 2 * n - 0x1_0000_0000_0000_0000
    else if 2 * n < INT64_MIN then 2 * n + 0x1_0000_0000_0000_0000
    else 2 * n
  }

  function Shifted(n: int, k: nat): int {
    if k == 0 then n else Shl(Shifted(n, k - 1))
  }

  /** The doublings of n get past max. */
  ghost predicate Stops(n: int, max: int) {
    exists k: nat :: Shifted(n, k) > max
  }

  lemma {:induction false} ShiftedPow2(j: nat, k: nat)
    requires j <= 62
    ensures Shifted(Pow2(j), k) == if j + k <= 62 then Pow2(j + k) else if j + k == 63 then INT64_MIN else 0
  {
    HeadBitIsPow2();
    Pow2Monotone(j, 62);
    if k > 0 {
      ShiftedPow2(j, k - 1);
      if j + k <= 62 {
        Pow2Monotone(j + k, 62);
      }
    }
  }

  /** From a power of two the loop ends exactly when the maximum is below 2^62. */
  lemma StopsIffBelowHeadBit(p: int, max: int)
    requires IsPow2(p) && p <= MAX_INT_HEAD_BIT && IsInt64(max)
    ensures Stops(p, max) <==> max < MAX_INT_HEAD_BIT
  {
    HeadBitIsPow2();
    var j: nat :| p == Pow2(j);
    if j > 62 {
      Pow2Monotone(62, j);
    }
    if max < MAX_INT_HEAD_BIT {
      ShiftedPow2(j, 62 - j);
    } else {
      forall k: nat ensures Shifted(p, k) <= max {
        ShiftedPow2(j, k);
        if j + k <= 62 {
          Pow2Monotone(j + k, 62);
        }
      }
    }
  }

  /** Where the loop starts. */
  function Start(minSize: int): int {
    Ceil(if minSize == 0 then 1 else minSize)
  }

  /** The sizes passed to the callback. Its precondition is that the loop ends at all. */
  method LogarithmicRange(minSize: int, maxSize: int) returns (r: Result<seq<int>>)
    requires IsInt64(minSize) && IsInt64(maxSize)
    requires minSize <= MAX_INT_HEAD_BIT ==> Stops(Start(minSize), maxSize)
    ensures r.Panic? <==> minSize > MAX_INT_HEAD_BIT
    ensures r.Ok? ==> IsRange(r.value, Start(minSize), maxSize)
  {
    var min := minSize;
    if min == 0 {
      min := 1;
    }
    var start := CeilToPowerOfTwo(min);
    if start.Panic? {
      return Panic;
    }
    var sizes := Doublings(start.value, maxSize);
    return Ok(sizes);
  }

  method Doublings(start: int, max: int) returns (sizes: seq<int>)
    requires Stops(start, max)
    ensures IsRange(sizes, start, max)
  {
    var n := start;
    sizes := [];
    ghost var last: nat :| Shifted(start, last) > max;
    while n <= max
      invariant n == Shifted(start, |sizes|) && |sizes| <= last
      invariant forall i {:trigger sizes[i]} :: 0 <= i < |sizes| ==> sizes[i] == Shifted(start, i) <= max
      decreases last - |sizes|
    {
      sizes := sizes + [n];
      n := Shl(n);
    }
  }

  ghost predicate IsRange(sizes: seq<int>, start: int, max: int) {
    && (forall i {:trigger sizes[i]} :: 0 <= i < |sizes| ==> sizes[i] == Shifted(start, i) <= max)
    && Shifted(start, |sizes|) > max
  }

  /** Unless the minimum is negative, the sizes are exactly the powers of two from minimum to
      maximum. */
  lemma RangeIsThePowersOfTwo(sizes: seq<int>, minSize: int, max: int)
    requires 0 <= minSize <= MAX_INT_HEAD_BIT && max < MAX_INT_HEAD_BIT
    requires IsRange(sizes, Start(minSize), max)
    ensures forall p :: p in sizes <==> IsPow2(p) && minSize <= p <= max
  {
    var start, least := Start(minSize), if minSize == 0 then 1 else minSize;
    CeilIsLeastPowerOfTwo(least);
    var j: nat :| start == Pow2(j);
    HeadBitIsPow2();
    assert start <= Pow2(62);
    if j > 62 {
      Pow2Monotone(62, j);
    }
    forall i: nat ensures j + i <= 62 ==> Shifted(start, i) == Pow2(j + i) {
      ShiftedPow2(j, i);
    }
    NoLongerThanPowers(sizes, j, max);
    forall p ensures p in sizes <==> IsPow2(p) && minSize <= p <= max {
      if p in sizes {
        var i :| 0 <= i < |sizes| && sizes[i] == p;
        Pow2Monotone(j, j + i);
      }
      if IsPow2(p) && minSize <= p <= max {
        PowerIsThere(sizes, j, least, max, p);
      }
    }
  }

  lemma PowerIsThere(sizes: seq<int>, j: nat, minSize: int, max: int, p: int)
    requires forall i {:trigger sizes[i]} :: 0 <= i < |sizes| ==> sizes[i] == Pow2(j + i)
    requires max < Pow2(j + |sizes|) && IsLeastPow2From(Pow2(j), minSize)
    requires IsPow2(p) && minSize <= p <= max
    ensures p in sizes
  {
    var k: nat :| p == Pow2(k);
    if k < j {
      Pow2Monotone(k, j);
    }
    if k - j >= |sizes| {
      Pow2Monotone(j + |sizes|, k);
    }
    assert sizes[k - j] == p;
  }

  lemma NoLongerThanPowers(sizes: seq<int>, j: nat, max: int)
    requires j <= 62 && max < MAX_INT_HEAD_BIT && IsRange(sizes, Pow2(j), max)
    ensures j + |sizes| <= 62
  {
    if j + |sizes| > 62 {
      var top := sizes[62 - j];
      HeadBitIsPow2();
      ShiftedPow2(j, 62 - j);
    }
  }
}
