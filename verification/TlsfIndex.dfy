/** Size classes and bitmaps of the TLSF allocator (runtime/libtvm/tlsf.c:160-231). A class
    (fl, sl) is numbered 32*fl + sl, which is also its offset in the 24 by 32 matrix. */
module TlsfIndex {
  import opened Words

  const REAL_FLI: nat := 24
  const CLASSES: nat := 768
  const SMALL_BLOCK: int := 128
  /** Sizes below this have a class. */
  const MAX_SIZE: int := 0x4000_0000

  /** The C code's 256-entry table of most significant bit positions. */
  function Table(x: nat): int
    requires x < 256
  {
    if x < 16 then (if x < 4 then (if x < 2 then x - 1 else 1) else if x < 8 then 2 else 3)
    else if x < 64 then (if x < 32 then 4 else 5) else if x < 128 then 6 else 7
  }

  function ByteShift(x: Word): nat {
    if x <= 0xffff then (if x <= 0xff then 0 else 8) else if x <= 0xff_ffff then 16 else 24
  }

  lemma ByteShiftFits(x: Word)
    ensures Shr(x, ByteShift(x)) < 256
    ensures x == 0 <==> Shr(x, ByteShift(x)) == 0
  {
    PowBytes();
    ShrIsDiv(x, ByteShift(x));
  }

  lemma PowBytes()
    ensures Pow2(0) == 1 && Pow2(8) == 0x100 && Pow2(16) == 0x1_0000 && Pow2(24) == 0x100_0000
  {
    Pow2At32();
    assert Pow2(24) == 8 * Pow2(21);
  }

  /** ms_bit: position of the most significant set bit, -1 for zero. */
  function MsBit(x: Word): (r: int)
    ensures x == 0 ==> r == -1
    ensures x > 0 ==> 0 <= r < 32 && Pow2(r) <= x < Pow2(r + 1)
  {
    ByteShiftFits(x);
    MsBitRange(x);
    Table(Shr(x, ByteShift(x))) + ByteShift(x)
  }

  lemma TablePower(y: nat)
    requires 0 < y < 256
    ensures 0 <= Table(y) <= 7 && Pow2(Table(y)) <= y < Pow2(Table(y) + 1)
  {
    SmallPowers();
    hide Pow2;
  }

  lemma SmallPowers()
    ensures Pow2(0) == 1 && Pow2(1) == 2 && Pow2(2) == 4 && Pow2(3) == 8 && Pow2(4) == 16
    ensures Pow2(5) == 32 && Pow2(6) == 64 && Pow2(7) == 128 && Pow2(8) == 256
  {
    Pow2At32();
    assert Pow2(2) == 4;
    assert Pow2(7) == 128;
  }

  lemma MsBitRange(x: Word)
    ensures var a := ByteShift(x); var y := Shr(x, a);
            && y < 256
            && (x > 0 ==>
                 && y > 0 && Table(y) >= 0 && Table(y) + a < 32
                 && Pow2(Table(y) + a) <= x < Pow2(Table(y) + a + 1))
  {
    var a := ByteShift(x);
    var y := Shr(x, a);
    ByteShiftFits(x);
    if x > 0 {
      TablePower(y);
      ShrIsDiv(x, a);
      Pow2Add(Table(y), a);
      Pow2Add(Table(y) + 1, a);
      Sandwich(x, Pow2(a), y, Pow2(Table(y)), Pow2(Table(y) + 1));
    }
  }

  lemma Sandwich(x: nat, p: nat, y: nat, lo: nat, hi: nat)
    requires p > 0 && y == x / p && lo <= y < hi
    ensures lo * p <= x < hi * p
  {
    assert x == p * y + x % p;
    MulLe(p, lo, y);
    MulLe(p, y + 1, hi);
  }

  lemma MulLe(p: nat, a: nat, b: nat)
    requires a <= b
    ensures p * a <= p * b && a * p <= b * p
  {
    assert p * (b - a) >= 0;
  }

  /** ls_bit isolates the lowest set bit with x & -x and looks its position up. */
  function LsBit(x: Word): (r: int)
    ensures x == 0 ==> r == -1
    ensures x > 0 ==> 0 <= r < 32 && Bit(x, r) && forall k: nat | k < r :: !Bit(x, k)
  {
    Isolate(x);
    MsBit(And(x, Sub(0, x)))
  }

  lemma Isolate(x: Word)
    ensures And(x, Sub(0, x)) < W
    ensures x == 0 ==> And(x, Sub(0, x)) == 0
    ensures x > 0 ==>
              && And(x, Sub(0, x)) > 0
              && var r := MsBit(And(x, Sub(0, x)));
                 Bit(x, r) && forall k: nat | k < r :: !Bit(x, k)
  {
    hide Pow2, And, Bit;
    AndAtMost(x, Sub(0, x));
    if x > 0 {
      Pow2At32();
      var r := IsolateIn(x, 32);
      assert Sub(0, x) == W - x;
      var m := MsBit(Pow2(r));
      if m < r { Pow2Mono(m + 1, r); }
      if r < m { Pow2Strict(r, m); }
    }
  }

  lemma Pow2Strict(a: nat, b: nat)
    requires a < b
    ensures Pow2(a) < Pow2(b)
  {
    Pow2Mono(a + 1, b);
  }

  lemma {:induction false} IsolateIn(x: nat, n: nat) returns (r: nat)
    requires 0 < x < Pow2(n)
    ensures r < n && And(x, Pow2(n) - x) == Pow2(r)
    ensures Bit(x, r) && forall k: nat | k < r :: !Bit(x, k)
    decreases n
  {
    if x % 2 == 1 {
      r := 0;
      assert (Pow2(n) - x) / 2 == Pow2(n - 1) - 1 - x / 2;
      ComplementDisjoint(x / 2, n - 1);
    } else {
      assert (Pow2(n) - x) / 2 == Pow2(n - 1) - x / 2;
      r := IsolateIn(x / 2, n - 1);
      r := r + 1;
      forall k: nat | k < r ensures !Bit(x, k) { if k > 0 { assert !Bit(x / 2, k - 1); } }
    }
  }

  lemma {:induction false} ComplementDisjoint(x: nat, n: nat)
    requires x < Pow2(n)
    ensures And(x, Pow2(n) - 1 - x) == 0
    decreases n
  {
    if x > 0 {
      assert (Pow2(n) - 1 - x) / 2 == Pow2(n - 1) - 1 - x / 2;
      ComplementDisjoint(x / 2, n - 1);
    }
  }

  // ---------------------------------------------------------------- bitmaps

  function SetBit(nr: nat, map_: Word): Word
    requires nr < 32
  {
    Or(map_, Pow2(nr)) % W
  }

  function ClearBit(nr: nat, map_: Word): Word
    requires nr < 32
  {
    And(map_, Not(Pow2(nr) % W)) % W
  }

  lemma {:induction false} BitPow2(j: nat, k: nat)
    ensures Bit(Pow2(j), k) <==> j == k
    decreases k
  {
    if k > 0 && j > 0 { BitPow2(j - 1, k - 1); }
    if k > 0 && j == 0 { BitZero(k - 1); }
  }

  lemma SetBitBits(nr: nat, m: Word, k: nat)
    requires nr < 32
    ensures Bit(SetBit(nr, m), k) <==> k == nr || Bit(m, k)
  {
    hide Or, Bit, Pow2;
    Pow2At32();
    Pow2Strict(nr, 32);
    OrBelow(m, Pow2(nr), 32);
    BitOr(m, Pow2(nr), k);
    BitPow2(nr, k);
  }

  lemma ClearBitBits(nr: nat, m: Word, k: nat)
    requires nr < 32
    ensures Bit(ClearBit(nr, m), k) <==> k != nr && Bit(m, k)
  {
    hide And, Bit, Pow2;
    Pow2At32();
    Pow2Strict(nr, 32);
    AndAtMost(m, Not(Pow2(nr)));
    BitAnd(m, Not(Pow2(nr)), k);
    BitPow2(nr, k);
    if k < 32 { BitNot(Pow2(nr), k); } else { HighBitClear(m, k); }
  }

  lemma HighBitClear(m: Word, k: nat)
    requires k >= 32
    ensures !Bit(m, k)
  {
    Pow2At32();
    Pow2Mono(32, k);
    BitHigh(m, k);
  }

  lemma {:induction false} NonZeroHasBit(x: nat, n: nat) returns (k: nat)
    requires 0 < x < Pow2(n)
    ensures k < n && Bit(x, k)
    decreases n
  {
    if x % 2 == 1 { k := 0; } else { k := NonZeroHasBit(x / 2, n - 1); k := k + 1; }
  }

  /** ~0 << n: every bit from n upwards. */
  function MaskFrom(n: nat): Word { Shl(W - 1, n) }

  lemma MaskFromBits(n: nat, k: nat)
    requires n <= 32 && k < 32
    ensures Bit(MaskFrom(n), k) <==> k >= n
  {
    var p := Pow2(n);
    Pow2At32();
    Pow2Mono(n, 32);
    assert MaskFrom(n) == Pow2(32) - 1 - (p - 1) by { MaskValue(p); }
    BitComplement(32, p - 1, k);
    OnesBits(n, k);
  }

  lemma MaskValue(p: nat)
    requires 1 <= p <= W
    ensures ((W - 1) * p) % W == W - p
  {
    assert (W - 1) * p == W * (p - 1) + (W - p);
    if p == W {} else { DivIs((W - 1) * p, W, p - 1, W - p); }
  }

  lemma {:induction false} OnesBits(n: nat, k: nat)
    ensures Bit(Pow2(n) - 1, k) <==> k < n
    decreases k
  {
    if n == 0 {
      BitZero(k);
    } else if k > 0 {
      assert (Pow2(n) - 1) / 2 == Pow2(n - 1) - 1;
      OnesBits(n - 1, k - 1);
    }
  }

  // ------------------------------------------------------------ size classes

  /** First-level index and sub-index of a block size. */
  function MappingInsert(r: Word): (i: (nat, nat))
    requires 0 < r < MAX_SIZE
    ensures i.0 < REAL_FLI && i.1 < 32
  {
    MappingRange(r);
    if r < SMALL_BLOCK then (0, r / 4)
    else (MsBit(r) - 6, Shr(r, MsBit(r) - 5) - 32)
  }

  function Class(r: Word): (c: nat)
    requires 0 < r < MAX_SIZE
    ensures c < CLASSES
  {
    var (fl, sl) := MappingInsert(r);
    32 * fl + sl
  }

  /** The smallest size of a class; the class after the last one bounds it from above. */
  function Floor(c: nat): nat {
    if c < 32 then 4 * c else (32 + c % 32) * Pow2(c / 32 + 1)
  }

  lemma MappingRange(r: Word)
    requires 0 < r < MAX_SIZE
    ensures r >= SMALL_BLOCK ==>
      && 7 <= MsBit(r) <= 29
      && 32 <= Shr(r, MsBit(r) - 5) < 64
      && Shr(r, MsBit(r) - 5) * Pow2(MsBit(r) - 5) <= r < (Shr(r, MsBit(r) - 5) + 1) * Pow2(MsBit(r) - 5)
  {
    if r >= SMALL_BLOCK {
      var m := MsBit(r);
      SmallPowers();
      MaxPower();
      hide Pow2;
      if m < 7 { Pow2Mono(m + 1, 7); }
      if m > 29 { Pow2Mono(30, m); }
      Leading(r, m);
    }
  }

  lemma MaxPower()
    ensures Pow2(30) == MAX_SIZE
  {
    Pow2At32();
    assert Pow2(31) == 2 * Pow2(30);
  }

  /** The leading six bits of r and the bounds they give. */
  lemma Leading(r: nat, m: nat)
    requires m >= 5 && Pow2(m) <= r < Pow2(m + 1)
    ensures var h := Shr(r, m - 5); 32 <= h < 64 && h * Pow2(m - 5) <= r < (h + 1) * Pow2(m - 5)
  {
    var h, p := Shr(r, m - 5), Pow2(m - 5);
    ShrIsDiv(r, m - 5);
    SmallPowers();
    Pow2Add(5, m - 5);
    Pow2Add(6, m - 5);
    Bounds(r, p, h);
  }

  lemma Bounds(r: nat, p: nat, h: nat)
    requires p > 0 && h == r / p && 32 * p <= r < 64 * p
    ensures 32 <= h < 64 && h * p <= r < (h + 1) * p
  {
    assert r == p * h + r % p;
    if h < 32 { MulLe(p, h + 1, 32); }
    if h >= 64 { MulLe(p, 64, h); }
    assert (h + 1) * p == h * p + p;
  }

  lemma ClassBounds(r: Word)
    requires 0 < r < MAX_SIZE
    ensures Floor(Class(r)) <= r < Floor(Class(r) + 1)
  {
    hide Shr, Pow2;
    MappingRange(r);
    SmallPowers();
    if r >= SMALL_BLOCK {
      var m := MsBit(r);
      var h := Shr(r, m - 5);
      var c := Class(r);
      assert c == 32 * (m - 6) + (h - 32);
      if h < 63 {
        assert (c + 1) / 32 == m - 6 && (c + 1) % 32 == h - 31;
      } else {
        assert (c + 1) / 32 == m - 5 && (c + 1) % 32 == 0;
        Pow2Add(1, m - 5);
        TwoTimes(Pow2(m - 5));
      }
    } else if Class(r) == 31 {
    }
  }

  lemma TwoTimes(p: nat)
    ensures 64 * p == 32 * (2 * p)
  {}

  lemma FloorStep(c: nat)
    ensures Floor(c) < Floor(c + 1)
  {
    if c >= 32 {
      var fl, sl := c / 32, c % 32;
      var p := Pow2(fl + 1);
      if sl < 31 {
        assert (c + 1) / 32 == fl && (c + 1) % 32 == sl + 1;
        MulStep(32 + sl, p);
      } else {
        assert (c + 1) / 32 == fl + 1 && (c + 1) % 32 == 0;
        assert Pow2(fl + 2) == 2 * p;
        MulStep(63, p);
      }
    } else if c == 31 {
      SmallPowers();
      assert Floor(32) == 32 * Pow2(2);
    }
  }

  lemma MulStep(a: nat, p: nat)
    requires p > 0
    ensures a * p < (a + 1) * p
  {}

  lemma {:induction false} FloorMono(c: nat, d: nat)
    requires c <= d
    ensures Floor(c) <= Floor(d)
    decreases d
  {
    hide Floor;
    if c < d {
      FloorMono(c, d - 1);
      FloorStep(d - 1);
    }
  }

  /** Bigger sizes have bigger classes. */
  lemma ClassMono(a: Word, b: Word)
    requires 0 < a <= b < MAX_SIZE
    ensures Class(a) <= Class(b)
  {
    hide Floor, Class;
    ClassBounds(a);
    ClassBounds(b);
    if Class(a) > Class(b) { FloorMono(Class(b) + 1, Class(a)); }
  }

  /** Rounding to a class boundary in MAPPING_SEARCH; -1 in C wraps nowhere for sizes below 2^30. */
  function SearchStep(r: Word): (t: nat)
    requires SMALL_BLOCK <= r < MAX_SIZE
  {
    MappingRange(r);
    Pow2(MsBit(r) - 5) - 1
  }

  /** The request rounded up so that every block of the class found is big enough. */
  function SearchSize(r: Word): nat
    requires 0 < r < MAX_SIZE
  {
    if r < SMALL_BLOCK then r
    else
      var t := SearchStep(r);
      (r + t) - (r + t) % (t + 1)
  }

  /** MAPPING_SEARCH's class, read off the rounded-up request before its low bits are cleared. */
  function SearchClass(r: Word): (c: nat)
    requires 0 < r < MAX_SIZE && SearchSize(r) < MAX_SIZE
    ensures c < CLASSES
  {
    SearchIsFloor(r);
    if r < SMALL_BLOCK then r / 4 else Class(r + SearchStep(r))
  }

  /** Rounding goes up to the floor of the class searched, by at most one part in 32. */
  lemma SearchIsFloor(r: Word)
    requires 0 < r < MAX_SIZE && SearchSize(r) < MAX_SIZE
    ensures r <= SearchSize(r) <= r + r / 32
    ensures r >= SMALL_BLOCK ==> r + SearchStep(r) < MAX_SIZE
    ensures r >= SMALL_BLOCK ==> Floor(Class(r + SearchStep(r))) == SearchSize(r)
  {
    hide Pow2, Floor, Class, MsBit, SearchStep, SearchSize;
    SmallSearch(r);
    if r >= SMALL_BLOCK {
      var m := MsBit(r);
      MappingRange(r);
      var q := RoundedDigits(r, m);
      Sextet(m);
      MaxMultiple(m, q);
      if q < 64 {
        ClassOf(r + SearchStep(r), m, q);
      } else {
        Halved(q, Pow2(m - 5));
        BelowTop(m);
        ClassOf(r + SearchStep(r), m + 1, 32);
      }
    }
  }

  /** No class begins between a request and its rounded size: nothing smaller would do. */
  lemma SearchIsLeast(r: Word, d: nat)
    requires 0 < r < MAX_SIZE && Floor(d) >= r
    ensures SearchSize(r) <= Floor(d)
  {
    hide Pow2, Floor, Class, MsBit, Shr, SearchStep, SearchSize;
    SmallSearch(r);
    if r >= SMALL_BLOCK {
      var m := MsBit(r);
      MappingRange(r);
      var h, p := Shr(r, m - 5), Pow2(m - 5);
      ClassOf(r, m, h);
      NextFloor(m, h);
      NotBelow(r, d);
      RoundsUp(r, m);
      LeastMultiple(SearchSize(r), r, p, h);
      if d > Class(r) { FloorMono(Class(r) + 1, d); }
    }
  }

  /** A class that begins at r or later is not before the class of r. */
  lemma NotBelow(r: Word, d: nat)
    requires 0 < r < MAX_SIZE && Floor(d) >= r
    ensures d >= Class(r)
  {
    hide Floor, Class;
    ClassBounds(r);
    if d < Class(r) {
      FloorStep(d);
      FloorMono(d + 1, Class(r));
    }
  }

  lemma NextFloor(m: nat, h: nat)
    requires 7 <= m && 32 <= h < 64
    ensures Floor(32 * (m - 6) + (h - 32) + 1) == (h + 1) * Pow2(m - 5)
  {
    var c := 32 * (m - 6) + (h - 32) + 1;
    if h < 63 {
      assert c / 32 == m - 6 && c % 32 == h - 31;
    } else {
      assert c / 32 == m - 5 && c % 32 == 0;
      assert Pow2(m - 4) == 2 * Pow2(m - 5);
      TwoTimes(Pow2(m - 5));
    }
  }

  lemma RoundsUp(r: Word, m: nat)
    requires SMALL_BLOCK <= r < MAX_SIZE && m == MsBit(r) && m >= 5
    ensures var p := Pow2(m - 5); p > 0 && SearchSize(r) == (r + (p - 1)) - (r + (p - 1)) % p
  {
    hide MsBit;
  }

  lemma LeastMultiple(n: int, r: nat, p: nat, h: nat)
    requires p > 0 && n == (r + (p - 1)) - (r + (p - 1)) % p && h * p <= r < (h + 1) * p
    ensures n <= (h + 1) * p && (r == h * p ==> n == r)
  {
    var x := r + (p - 1);
    var q := x / p;
    assert x == p * q + x % p && (h + 2) * p == (h + 1) * p + p && (h + 1) * p == h * p + p;
    if q > h + 1 { MulLe(p, h + 2, q); }
    if q <= h + 1 { MulLe(p, q, h + 1); }
    if r == h * p { DivIs(x, p, h, p - 1); }
  }

  lemma SmallSearch(r: Word)
    requires 0 < r < MAX_SIZE
    ensures r < SMALL_BLOCK ==> SearchSize(r) == r
  {}

  lemma BelowTop(m: nat)
    requires 7 <= m <= 29 && 32 * (2 * Pow2(m - 5)) < MAX_SIZE
    ensures m <= 28
  {
    Sextet(m);
    MaxPower();
  }

  lemma Halved(q: nat, p: nat)
    requires q == 64
    ensures q * p == 32 * (2 * p) && (q + 1) * p <= 33 * (2 * p)
  {}

  /** The leading digits of the rounded-up request. */
  lemma RoundedDigits(r: Word, m: nat) returns (q: nat)
    requires SMALL_BLOCK <= r < MAX_SIZE && m == MsBit(r)
    ensures 7 <= m <= 29 && 32 <= q <= 64
    ensures q * Pow2(m - 5) == SearchSize(r) <= r + SearchStep(r) < (q + 1) * Pow2(m - 5)
    ensures r <= SearchSize(r) <= r + r / 32
  {
    hide Pow2, MsBit, Shr;
    MappingRange(r);
    q := RoundUp(r, Pow2(m - 5), Shr(r, m - 5));
  }

  lemma Sextet(m: nat)
    requires m >= 5
    ensures Pow2(m) == 32 * Pow2(m - 5) && Pow2(m + 1) == 64 * Pow2(m - 5) && Pow2(m - 4) == 2 * Pow2(m - 5)
  {
    SmallPowers();
    Pow2Add(5, m - 5);
    Pow2Add(6, m - 5);
  }

  lemma RoundUp(r: nat, p: nat, h: nat) returns (q: nat)
    requires p > 0 && 32 <= h < 64 && h * p <= r < (h + 1) * p
    ensures 32 <= q <= 64
    ensures q * p == (r + p - 1) - (r + p - 1) % p && q * p <= r + p - 1 < (q + 1) * p
    ensures r <= q * p <= r + p - 1 && p - 1 <= r / 32
  {
    var x := r + p - 1;
    q := x / p;
    assert x == p * q + x % p;
    MulLe(p, 32, h);
    assert (h + 2) * p == (h + 1) * p + p && (q + 1) * p == q * p + p;
    if q < h { MulLe(p, q + 1, h); }
    if q > h + 1 { MulLe(p, h + 2, q); }
  }

  lemma MaxMultiple(m: nat, q: nat)
    requires 7 <= m <= 29 && q * Pow2(m - 5) < MAX_SIZE
    ensures (q + 1) * Pow2(m - 5) <= MAX_SIZE
  {
    var p, n := Pow2(m - 5), Pow2(35 - m);
    MaxPower();
    Pow2Add(m - 5, 35 - m);
    Multiple(p, q, n);
  }

  lemma Multiple(p: nat, q: nat, n: nat)
    requires p > 0 && q * p < p * n
    ensures (q + 1) * p <= p * n
  {
    if q >= n { MulLe(p, n, q); }
    MulLe(p, q + 1, n);
  }

  lemma MsBitIs(x: Word, m: nat)
    requires x > 0 && Pow2(m) <= x < Pow2(m + 1)
    ensures MsBit(x) == m
  {
    hide Pow2;
    var k := MsBit(x);
    if k < m { Pow2Mono(k + 1, m); }
    if k > m { Pow2Mono(m + 1, k); }
  }

  /** The class of a size with leading digits q at position m. */
  lemma ClassOf(x: Word, m: nat, q: nat)
    requires SMALL_BLOCK <= x < MAX_SIZE && 7 <= m <= 29 && 32 <= q < 64
    requires q * Pow2(m - 5) <= x < (q + 1) * Pow2(m - 5)
    ensures Class(x) == 32 * (m - 6) + (q - 32) && Floor(Class(x)) == q * Pow2(m - 5)
  {
    hide Pow2, MsBit, Shr;
    var p := Pow2(m - 5);
    Sextet(m);
    MulLe(p, 32, q);
    MulLe(p, q + 1, 64);
    MsBitIs(x, m);
    ShrIsDiv(x, m - 5);
    QuotientIs(x, p, q);
    var c := 32 * (m - 6) + (q - 32);
    assert c / 32 == m - 6 && c % 32 == q - 32;
  }

  lemma QuotientIs(x: nat, p: nat, q: nat)
    requires p > 0 && q * p <= x < (q + 1) * p
    ensures x / p == q
  {
    DivIs(x, p, q, x - q * p);
  }

  /** Every block in a class from the one searched onwards is big enough (soundness), and
      every block that is big enough is in such a class (completeness). */
  lemma SearchExact(r: Word, s: Word)
    requires 0 < r < MAX_SIZE && r % 4 == 0 && SearchSize(r) < MAX_SIZE
    requires 0 < s < MAX_SIZE && s % 4 == 0
    ensures SearchClass(r) <= Class(s) <==> SearchSize(r) <= s
  {
    hide Class, Floor;
    var c, n := SearchClass(r), SearchSize(r);
    SearchIsFloor(r);
    SmallClass(r);
    ClassBounds(s);
    if c <= Class(s) {
      FloorMono(c, Class(s));
    }
    if n <= s {
      if r < SMALL_BLOCK { ClassMono(r, s); } else { FloorClass(r + SearchStep(r), s); }
    }
  }

  lemma FloorClass(x: Word, s: Word)
    requires 0 < x < MAX_SIZE && 0 < s < MAX_SIZE && Floor(Class(x)) <= s
    ensures Class(x) <= Class(s)
  {
    hide Floor, Class;
    ClassBounds(s);
    if Class(s) < Class(x) { FloorMono(Class(s) + 1, Class(x)); }
  }

  lemma SmallClass(r: Word)
    requires 0 < r < MAX_SIZE && r % 4 == 0
    ensures r < SMALL_BLOCK ==> Class(r) == r / 4 && Floor(r / 4) == r
  {}

  /** Rounding keeps multiples of 8. */
  lemma SearchAligned(r: Word)
    requires 0 < r < MAX_SIZE && r % 8 == 0
    ensures SearchSize(r) % 8 == 0
  {
    hide Pow2, MsBit, Shr;
    if r >= SMALL_BLOCK {
      var m := MsBit(r);
      MappingRange(r);
      SmallPowers();
      if m == 7 {
        assert SearchStep(r) == 3;
      } else {
        Pow2Add(3, m - 8);
        MultipleOf8(r + SearchStep(r), Pow2(m - 8));
      }
    }
  }

  lemma MultipleOf8(x: nat, k: nat)
    requires k > 0
    ensures (x - x % (8 * k)) % 8 == 0
  {
    var q := x / (8 * k);
    assert x - x % (8 * k) == (8 * k) * q == 8 * (k * q);
  }
}
