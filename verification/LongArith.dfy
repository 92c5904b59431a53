/** Double-word arithmetic on 16-bit digits (runtime/libtvm/ins_sec.c, 32-bit words,
    no two-word type): the algorithms behind ldiv, lmul and norm. */
module LongArith {
  import opened Words

  const B: int := 0x1_0000
  /** The product-sum the transputer's long multiply promises. */
  function Wide(hi: Word, lo: Word): nat { hi * W + lo }

  // ---------------------------------------------------------------- lemmas

  lemma MulMono(v: nat, a: nat, b: nat)
    requires a <= b
    ensures v * a <= v * b
  {
    assert v * (b - a) >= 0;
  }

  lemma ProductBelow(a: nat, b: nat, m: nat, n: nat)
    requires a <= m && b <= n
    ensures a * b <= m * n
  {
    MulMono(a, b, n);
    MulMono(n, a, m);
  }

  lemma QuotientLess(q: nat, n: nat, v: nat)
    requires v > 0 && n < q * v
    ensures n / v < q
  {
    var t := n / v;
    if t >= q { MulMono(v, q, t); }
  }

  lemma QuotientAtLeast(q: nat, n: nat, v: nat)
    requires v > 0 && q * v <= n
    ensures q <= n / v
  {
    var t := n / v;
    if t < q { MulMono(v, t + 1, q); }
  }

  /** q is a trial digit for u with leading divisor digit v1, rhat its remainder. */
  ghost predicate Trial(u: nat, v1: nat, q: nat, rhat: nat) { q * v1 + rhat == u }

  /** By how much the trial digit overshoots, computed from the low digits only. */
  ghost function Digit(u: nat, d: nat, v1: nat, v0: nat): nat
    requires v1 > 0
  {
    (u * B + d) / (v1 * B + v0)
  }

  lemma TrialDigit(u: nat, d: nat, v1: nat, v0: nat, q: nat, rhat: nat)
    requires Trial(u, v1, q, rhat)
    ensures q * (v1 * B + v0) - (u * B + d) == q * v0 - (B * rhat + d)
  {
    assert q * (v1 * B + v0) == (q * v1) * B + q * v0;
  }

  lemma TrialTooBig(u: nat, d: nat, v1: nat, v0: nat, q: nat, rhat: nat)
    requires Trial(u, v1, q, rhat) && v1 > 0
    requires q * v0 > B * rhat + d
    ensures Digit(u, d, v1, v0) < q
  {
    TrialDigit(u, d, v1, v0, q, rhat);
    QuotientLess(q, u * B + d, v1 * B + v0);
  }

  lemma TrialFits(u: nat, d: nat, v1: nat, v0: nat, q: nat, rhat: nat)
    requires Trial(u, v1, q, rhat) && v1 > 0
    requires q * v0 <= B * rhat + d
    ensures q <= Digit(u, d, v1, v0)
  {
    TrialDigit(u, d, v1, v0, q, rhat);
    QuotientAtLeast(q, u * B + d, v1 * B + v0);
  }

  /** Once rhat has reached the base, the trial digit is no longer too big. */
  lemma TrialStops(u: nat, d: nat, v1: nat, v0: nat, q: nat, rhat: nat)
    requires Trial(u, v1, q, rhat)
    requires 0 < v1 && v0 < B && u < v1 * B + v0 && rhat >= B
    ensures q < B && q <= Digit(u, d, v1, v0)
  {
    if q >= B { MulMono(v1, B, q); }
    ProductBelow(q, v0, B, B);
    MulMono(B, B, rhat);
    TrialFits(u, d, v1, v0, q, rhat);
  }

  lemma TrialStart(u: nat, v1: nat)
    requires v1 > 0
    ensures Trial(u, v1, u / v1, u % v1)
  {}

  lemma TrialStep(u: nat, v1: nat, q: nat, rhat: nat)
    requires Trial(u, v1, q, rhat) && q > 0
    ensures Trial(u, v1, q - 1, rhat + v1)
  {
    assert (q - 1) * v1 == q * v1 - v1;
  }

  /** The first trial digit is never too small. */
  lemma TrialAtLeast(u: nat, d: nat, v1: nat, v0: nat)
    requires v1 > 0 && d < B
    ensures Digit(u, d, v1, v0) <= u / v1
  {
    var q := u / v1;
    assert u < (q + 1) * v1;
    MulMono(B, u + 1, (q + 1) * v1);
    assert (q + 1) * (v1 * B + v0) == B * ((q + 1) * v1) + (q + 1) * v0;
    QuotientLess(q + 1, u * B + d, v1 * B + v0);
  }

  lemma DigitBelowBase(u: nat, d: nat, v1: nat, v0: nat)
    requires v1 > 0 && u < v1 * B + v0 && d < B
    ensures Digit(u, d, v1, v0) < B
  {
    MulMono(B, u + 1, v1 * B + v0);
    QuotientLess(B, u * B + d, v1 * B + v0);
  }

  /** The two products the correction test compares do not wrap around. */
  lemma MulExact(x: nat, y: nat)
    requires x * y < W
    ensures Mul(x, y) == x * y
  {}

  lemma DigitProduct(x: nat, y: nat)
    requires x < B && y < B
    ensures x * y <= 0xFFFE_0001
  {
    MulMono(x, y, B - 1);
  }

  /** The two products the correction test compares do not wrap around. */
  lemma TestExact(q: nat, vn0: nat, rhat: nat, d: nat)
    requires q < B && vn0 < B && rhat < B && d < B
    ensures Mul(q, vn0) == q * vn0 && Add(Mul(B, rhat), d) == B * rhat + d
  {
    DigitProduct(q, vn0);
    MulExact(q, vn0);
    MulExact(B, rhat);
  }

  /** The correction test of the C code, with its wrap-around products. */
  predicate Overshoots(q: Word, rhat: Word, vn0: Word, d: Word) { q >= B || Mul(q, vn0) > Add(Mul(B, rhat), d) }

  /** The trial digit q is not too small, and the test tells whether it is too big. */
  ghost predicate Judged(u: Word, d: Word, v1: Word, v0: Word, q: Word, rhat: Word)
    requires v1 > 0
  {
    Trial(u, v1, q, rhat) && rhat < B && Digit(u, d, v1, v0) <= q < W &&
    (Overshoots(q, rhat, v0, d) <==> Digit(u, d, v1, v0) < q)
  }

  lemma CorrectionTest(u: Word, d: Word, v1: Word, v0: Word, q: Word, rhat: Word)
    requires Trial(u, v1, q, rhat) && 0 < v1 && v0 < B && d < B && rhat < B && u < v1 * B + v0
    requires Digit(u, d, v1, v0) <= q
    ensures Judged(u, d, v1, v0, q, rhat)
  {
    DigitBelowBase(u, d, v1, v0);
    if q < B {
      TestExact(q, v0, rhat, d);
      if q * v0 > B * rhat + d { TrialTooBig(u, d, v1, v0, q, rhat); } else { TrialFits(u, d, v1, v0, q, rhat); }
    }
  }

  lemma CorrectionStep(u: Word, d: Word, v1: Word, v0: Word, q: Word, rhat: Word)
    requires 0 < v1 < B && v0 < B && d < B && u < v1 * B + v0
    requires Judged(u, d, v1, v0, q, rhat) && Overshoots(q, rhat, v0, d)
    ensures q > 0 && Digit(u, d, v1, v0) <= q - 1
    ensures rhat + v1 < B ==> Judged(u, d, v1, v0, q - 1, rhat + v1)
    ensures rhat + v1 >= B || !Overshoots(q - 1, rhat + v1, v0, d) ==> q - 1 == Digit(u, d, v1, v0)
  {
    TrialStep(u, v1, q, rhat);
    if rhat + v1 < B {
      CorrectionTest(u, d, v1, v0, q - 1, rhat + v1);
    } else {
      TrialStops(u, d, v1, v0, q - 1, rhat + v1);
    }
  }

  /** The first digit estimate and its remainder, before correction. */
  method FirstTrial(u: Word, d: Word, vn1: Word, vn0: Word) returns (q: Word, rhat: Word)
    requires 0 < vn1 < B && vn0 < B && d < B && u < vn1 * B + vn0
    ensures Judged(u, d, vn1, vn0, q, rhat) && rhat < vn1
    ensures Overshoots(q, rhat, vn0, d) || q == Digit(u, d, vn1, vn0)
  {
    hide Digit, Judged, Overshoots;
    FirstJudged(u, d, vn1, vn0);
    q := u / vn1;
    rhat := Sub(u, Mul(q, vn1));
  }

  lemma FirstJudged(u: Word, d: Word, v1: Word, v0: Word)
    requires 0 < v1 < B && v0 < B && d < B && u < v1 * B + v0
    ensures u / v1 <= u && u % v1 < v1
    ensures var q: nat, r: nat := u / v1, u % v1;
            && q < W && r < v1 && Sub(u, Mul(q, v1)) == r && Judged(u, d, v1, v0, q, r)
            && (Overshoots(q, r, v0, d) || q == Digit(u, d, v1, v0))
  {
    hide Digit, Overshoots;
    var q, r := u / v1, u % v1;
    TrialStart(u, v1);
    TrialAtLeast(u, d, v1, v0);
    QuotientFits(u, v1);
    CorrectionTest(u, d, v1, v0, q, r);
  }

  lemma QuotientFits(u: Word, v1: Word)
    requires 0 < v1
    ensures u / v1 <= u && u / v1 * v1 <= u && Sub(u, Mul(u / v1, v1)) == u % v1
  {
    var q := u / v1;
    assert u == q * v1 + u % v1;
    MulMono(q, 1, v1);
  }

  /** One quotient digit: the estimate is corrected downwards at most twice. */
  method QuotientDigit(u: Word, d: Word, vn1: Word, vn0: Word) returns (q: Word, ghost corrections: nat)
    requires B / 2 <= vn1 < B && vn0 < B && d < B && u < vn1 * B + vn0
    ensures q == Digit(u, d, vn1, vn0) && q < B
    ensures corrections <= 2
  {
    hide Judged, Overshoots, Digit;
    DigitBelowBase(u, d, vn1, vn0);
    var rhat: Word;
    q, rhat := FirstTrial(u, d, vn1, vn0);
    corrections := 0;
    while Overshoots(q, rhat, vn0, d)
      invariant Judged(u, d, vn1, vn0, q, rhat) && corrections * (B / 2) <= rhat < B
      invariant Overshoots(q, rhat, vn0, d) || q == Digit(u, d, vn1, vn0)
      decreases B - rhat
    {
      CorrectionStep(u, d, vn1, vn0, q, rhat);
      q := Sub(q, 1);
      rhat := Add(rhat, vn1);
      corrections := corrections + 1;
      if rhat >= B { break; }
    }
  }

  ghost function Scaled(v: nat, n: nat): nat { v * Pow2(n) }

  lemma ScaledMore(v: nat, n: nat)
    ensures Scaled(v, 0) == v
    ensures Scaled(v, n + 1) == 2 * Scaled(v, n) && Scaled(v, n + 2) == 4 * Scaled(v, n)
    ensures Scaled(v, n + 4) == 16 * Scaled(v, n) && Scaled(v, n + 8) == 256 * Scaled(v, n)
    ensures Scaled(v, n + 16) == 0x1_0000 * Scaled(v, n)
  {
    Pow2At32();
    assert Pow2(1) == 2 && Pow2(2) == 4 && Pow2(4) == 16;
    ScaledBy(v, n, 1);
    ScaledBy(v, n, 2);
    ScaledBy(v, n, 4);
    ScaledBy(v, n, 8);
    ScaledBy(v, n, 16);
  }

  lemma ScaledBy(v: nat, n: nat, k: nat)
    ensures Scaled(v, n + k) == Pow2(k) * Scaled(v, n)
  {
    Pow2Add(n, k);
    MulRotate(v, Pow2(n), Pow2(k));
  }

  lemma MulRotate(a: int, b: int, c: int)
    ensures a * (b * c) == c * (a * b)
  {}

  /** Number of leading zero bits, by binary search. */
  method Nlz(v: Word) returns (n: nat)
    ensures v == 0 ==> n == 32
    ensures v > 0 ==> n <= 31 && MIN_INT <= Scaled(v, n) < W
  {
    hide Scaled;
    if v == 0 { return 32; }
    var x := v;
    n := 0;
    ScaledMore(v, 0);
    if x <= 0x0000_FFFF { n := n + 16; x := x * 0x1_0000; }
    assert Leading(v, n, x, 16, 0x1_0000);
    if x <= 0x00FF_FFFF { LeadingShift(v, n, x); n := n + 8; x := x * 0x100; }
    assert Leading(v, n, x, 24, 0x100_0000);
    if x <= 0x0FFF_FFFF { LeadingShift(v, n, x); n := n + 4; x := x * 0x10; }
    assert Leading(v, n, x, 28, 0x1000_0000);
    if x <= 0x3FFF_FFFF { LeadingShift(v, n, x); n := n + 2; x := x * 4; }
    assert Leading(v, n, x, 30, 0x4000_0000);
    if x <= 0x7FFF_FFFF { LeadingShift(v, n, x); n := n + 1; }
  }

  /** x is v shifted left n <= m places and at least low. */
  ghost predicate Leading(v: Word, n: nat, x: Word, m: nat, low: nat) { n <= m && x == Scaled(v, n) && low <= x }

  lemma LeadingShift(v: Word, n: nat, x: Word)
    requires x == Scaled(v, n)
    ensures Scaled(v, n + 1) == 2 * x && Scaled(v, n + 2) == 4 * x && Scaled(v, n + 4) == 16 * x && Scaled(v, n + 8) == 256 * x
  {
    ScaledMore(v, n);
  }

  /** Schoolbook division of a two-digit dividend by a normalised divisor. */
  lemma TwoDigits(un32: nat, un1: nat, un0: nat, d: nat, q1: nat, r1: nat, q0: nat, r0: nat)
    requires un32 * B + un1 == q1 * d + r1 && r1 * B + un0 == q0 * d + r0
    ensures un32 * W + (un1 * B + un0) == (q1 * B + q0) * d + r0
  {
    assert (q1 * B + q0) * d == (q1 * d) * B + q0 * d;
  }

  /** Dividing both operands by the normalising power of two. */
  lemma Unscale(n: nat, v: nat, s: nat, q: nat, r0: nat)
    requires v > 0 && Scaled(n, s) == q * Scaled(v, s) + r0 && r0 < Scaled(v, s)
    ensures q == n / v && Shr(r0, s) == n % v
  {
    var p, r := Pow2(s), n - q * v;
    ScaledRemainder(n, v, p, q, r0);
    RemainderRange(p, r, v, r0);
    QuotientOf(n, v, q, r);
    ShrIsDiv(r0, s);
    QuotientOf(r0, p, r, 0);
  }

  lemma QuotientOf(n: nat, d: nat, q: int, r: nat)
    requires r < d && n == q * d + r
    ensures n / d == q && n % d == r
  {
    DivIs(n, d, q, r);
  }

  lemma RemainderRange(p: nat, r: int, v: nat, r0: nat)
    requires p > 0 && r * p == r0 < v * p
    ensures 0 <= r < v
  {
    if r >= v { MulMono(p, v, r); }
    if r < 0 { MulGe(p, -r); }
  }

  lemma ScaledRemainder(n: int, v: int, p: int, q: int, r0: int)
    requires n * p == q * (v * p) + r0
    ensures (n - q * v) * p == r0
  {
    assert q * (v * p) == (q * v) * p;
  }

  /** The bits of u0 that a left shift by s moves into the upper word. */
  function Spill(u0: Word, s: nat): nat
    requires s <= 31
  {
    if s == 0 then 0 else Shr(u0, 32 - s)
  }

  lemma SpillSplits(u0: Word, s: nat)
    requires s <= 31
    ensures Spill(u0, s) < Pow2(s) && Scaled(u0, s) == Spill(u0, s) * W + Shl(u0, s)
  {
    if s > 0 {
      Pow2Add(s, 32 - s);
      Pow2At32();
      ShrIsDiv(u0, 32 - s);
      SplitSpill(u0, Pow2(s), Pow2(32 - s));
    }
  }

  /** Shifting the 64-bit dividend left by s keeps every bit when u1 < v. */
  lemma ShiftDividend(u1: Word, u0: Word, v: Word, s: nat)
    requires s <= 31 && u1 < v && Scaled(v, s) < W
    ensures Shl(v, s) == Scaled(v, s)
    ensures Or(Shl(u1, s), Spill(u0, s)) == Scaled(u1, s) + Spill(u0, s) < Scaled(v, s)
    ensures (Scaled(u1, s) + Spill(u0, s)) * W + Shl(u0, s) == Scaled(Wide(u1, u0), s)
  {
    hide Shl, Or, Shr, Spill;
    ShlExact(v, s);
    ScaledLess(u1, v, s);
    ShlExact(u1, s);
    SpillSplits(u0, s);
    OrDisjoint(u1, Spill(u0, s), s);
    WideTimes(u1, u0, Pow2(s));
  }

  lemma ShlExact(x: Word, s: nat)
    requires Scaled(x, s) < W
    ensures Shl(x, s) == Scaled(x, s)
  {}

  lemma ScaledLess(u: nat, v: nat, s: nat)
    requires u < v
    ensures Scaled(u, s) + Pow2(s) <= Scaled(v, s)
  {
    MulMono(Pow2(s), u + 1, v);
  }

  lemma WideTimes(u1: int, u0: int, p: int)
    ensures (u1 * W + u0) * p == (u1 * p) * W + u0 * p
  {}

  lemma SplitSpill(u0: nat, p: nat, k: nat)
    requires p > 0 && k > 0 && p * k == W && u0 < W
    ensures u0 / k < p && u0 * p == (u0 / k) * W + (u0 * p) % W
  {
    var t, r := u0 / k, u0 % k;
    assert u0 == k * t + r;
    assert u0 * p == t * W + r * p by { assert (k * t) * p == t * (p * k); }
    MulMono(p, r + 1, k);
    DivIs(u0 * p, W, t, r * p);
    if t >= p { MulMono(k, p, t); }
  }

  /** u*b + d - q*v computed with wrap-around is the true remainder. */
  lemma WrapRemainder(u: Word, d: Word, q: Word, v: Word)
    requires 0 <= u * B + d - q * v < W
    ensures Sub(Add(Mul(u, B), d), Mul(q, v)) == u * B + d - q * v
  {
    var m := q * v;
    ModDiff(u * B, d, m);
  }

  lemma ModDiff(a: int, d: int, m: int)
    requires 0 <= a + d - m < W
    ensures ((a % W + d) % W - m % W) % W == a + d - m
  {}

  method DigitAndRemainder(u: Word, d: Word, v: Word) returns (q: Word, rem: Word)
    requires MIN_INT <= v && u < v && d < B
    ensures u * B + d == q * v + rem && rem < v && q < B
  {
    var vn1, vn0 := v / B, v % B;
    assert v == vn1 * B + vn0;
    ghost var corrections;
    q, corrections := QuotientDigit(u, d, vn1, vn0);
    ghost var n := u * B + d;
    assert n == v * (n / v) + n % v;
    WrapRemainder(u, d, q, v);
    rem := Sub(Add(Mul(u, B), d), Mul(q, v));
  }

  method DivideLong(u1: Word, u0: Word, v0: Word) returns (q: Word, rem: Word)
    requires u1 < v0
    ensures q == Wide(u1, u0) / v0 && rem == Wide(u1, u0) % v0
  {
    hide Scaled, Spill, Shl, Or, Shr, Wide;
    var s := Nlz(v0);
    var v := Shl(v0, s);
    ShiftDividend(u1, u0, v0, s);
    var un32: Word := Or(Shl(u1, s), Spill(u0, s));
    var un10 := Shl(u0, s);
    var un1, un0 := un10 / B, un10 % B;
    var q1, un21 := DigitAndRemainder(un32, un1, v);
    var q0, r0 := DigitAndRemainder(un21, un0, v);
    TwoDigits(un32, un1, un0, v, q1, un21, q0, r0);
    Unscale(Wide(u1, u0), v0, s, q1 * B + q0, r0);
    rem := Shr(r0, s);
    q := Add(Mul(q1, B), q0);
  }

  // ------------------------------------------------------------------ lmul

  /** Carry out of a 32-bit addition, read off the top bits of the operands and the sum. */
  function CarryBit(a: Word, c: Word, sum: Word): nat { Shr(Or(And(a, c), And(Or(a, c), Not(sum))), 31) }

  lemma CarryIsOverflow(a: Word, c: Word)
    ensures CarryBit(a, c, Add(a, c)) == (a + c) / W
  {
    var sum := Add(a, c);
    var x, y := And(a, c), And(Or(a, c), Not(sum));
    Pow2At32();
    AndAtMost(a, c);
    OrBelow(a, c, 32);
    AndAtMost(Or(a, c), Not(sum));
    OrBelow(x, y, 32);
    BitOr(x, y, 31);
    BitAnd(a, c, 31);
    BitAnd(Or(a, c), Not(sum), 31);
    BitOr(a, c, 31);
    BitNot(sum, 31);
    TopBit(a);
    TopBit(c);
    TopBit(sum);
    TopBit(Or(x, y));
  }

  /** The four partial products put together. */
  lemma PartialProducts(u: nat, u0: nat, u1: nat, v: nat, v0: nat, v1: nat,
                        w3: nat, k: nat, w2: nat, w1: nat, k2: nat, low: nat)
    requires u == u0 * B + u1 && v == v0 * B + v1
    requires u1 * v1 == k * B + w3 && u0 * v1 + k == w1 * B + w2 && u1 * v0 + w2 == k2 * B + low
    ensures u * v == (u0 * v0 + w1 + k2) * W + (low * B + w3)
  {
    assert (u0 * B + u1) * (v0 * B + v1) == (u0 * v0) * W + (u0 * v1) * B + (u1 * v0) * B + u1 * v1;
  }

  lemma ProductHigh(u: Word, v: Word, hi: nat, lo: nat)
    requires u * v == hi * W + lo
    ensures hi <= W - 2
  {
    MulMono(u, v, W - 1);
    MulMono(W - 1, u, W - 1);
  }

  lemma DigitProductExact(x: nat, y: nat)
    requires x < B && y < B
    ensures Mul(x, y) == x * y <= 0xFFFE_0001
  {
    DigitProduct(x, y);
    MulExact(x, y);
  }

  lemma AddExact(x: int, y: int)
    requires 0 <= x + y < W
    ensures Add(x, y) == x + y
  {}

  lemma AssembleExact(p: Word, w1: Word, k: Word, t: Word, w3: Word)
    requires w3 < B && p + w1 + k < W
    ensures Add(Add(p, w1), k) == p + w1 + k
    ensures Add(Shl(t, 16), w3) == (t % B) * B + w3
  {
    Pow2At32();
  }

  method Halves(x: Word) returns (upper: Word, lower: Word)
    ensures x == upper * B + lower && upper < B && lower < B
  {
    upper, lower := x / B, x % B;
  }

  method MultiplyLong(u: Word, v: Word) returns (hi: Word, lo: Word)
    ensures Wide(hi, lo) == u * v && hi <= W - 2
  {
    hide Mul, Shl, Add;
    var u0, u1 := Halves(u);
    var v0, v1 := Halves(v);
    DigitProductExact(u1, v1);
    DigitProductExact(u0, v1);
    DigitProductExact(u1, v0);
    DigitProductExact(u0, v0);
    AddExact(Mul(u0, v1), Mul(u1, v1) / B);
    var t := Mul(u1, v1);
    var w3, k := t % B, t / B;
    var t2 := Add(Mul(u0, v1), k);
    var w2, w1 := t2 % B, t2 / B;
    AddExact(Mul(u1, v0), w2);
    var t3 := Add(Mul(u1, v0), w2);
    var k3 := t3 / B;
    PartialProducts(u, u0, u1, v, v0, v1, w3, k, w2, w1, k3, t3 % B);
    ProductHigh(u, v, Mul(u0, v0) + w1 + k3, (t3 % B) * B + w3);
    AssembleExact(Mul(u0, v0), w1, k3, t3, w3);
    hi := Add(Add(Mul(u0, v0), w1), k3);
    lo := Add(Shl(t3, 16), w3);
  }

  /** The product with the carry word added: never more than two words. */
  method MultiplyAdd(u: Word, v: Word, c: Word) returns (hi: Word, lo: Word)
    ensures Wide(hi, lo) == u * v + c
  {
    hide CarryBit;
    hi, lo := MultiplyLong(u, v);
    CarryIsOverflow(lo, c);
    var sum := Add(lo, c);
    hi := Add(hi, CarryBit(lo, c, sum));
    lo := sum;
  }

  /** Dividing q*v + r by v gives q and r back. */
  lemma MultiplyThenDivide(q: Word, v: Word, r: Word, hi: Word, lo: Word)
    requires r < v && Wide(hi, lo) == q * v + r
    ensures hi < v && Wide(hi, lo) / v == q && Wide(hi, lo) % v == r
  {
    QuotientOf(Wide(hi, lo), v, q, r);
    MulMono(v, q + 1, W);
    assert (q + 1) * v == q * v + v;
    assert hi * W < v * W;
  }

  // ------------------------------------------------------------------ norm

  /** Shift a double word left until its top bit is set. */
  method Normalise(hi0: Word, lo0: Word) returns (hi: Word, lo: Word, count: Word)
    requires Wide(hi0, lo0) > 0
    ensures Wide(hi, lo) == Scaled(Wide(hi0, lo0), count) && hi >= MIN_INT && count < 64
  {
    hi, lo, count := hi0, lo0, 0;
    ghost var n: nat := 0;
    ScaledMore(Wide(hi, lo), 0);
    while !Bit(hi, 31)
      invariant Wide(hi, lo) == Scaled(Wide(hi0, lo0), count) && count < 64
      decreases 64 - count
    {
      DoubleWord(hi, lo);
      ScaledMore(Wide(hi0, lo0), count);
      ScaledBelow(Wide(hi0, lo0), count + 1);
      hi := Shl(hi, 1);
      if Bit(lo, 31) { hi := Or(hi, 1); }
      lo := Shl(lo, 1);
      count := count + 1;
    }
    TopBit(hi);
  }

  lemma DoubleWord(hi: Word, lo: Word)
    requires !Bit(hi, 31)
    ensures var hi2 := if Bit(lo, 31) then Or(Shl(hi, 1), 1) else Shl(hi, 1);
            hi2 < W && Wide(hi2, Shl(lo, 1)) == 2 * Wide(hi, lo)
  {
    TopBit(hi);
    TopBit(lo);
    assert Pow2(1) == 2;
    OrDisjoint(hi, 1, 1);
  }

  lemma ScaledBelow(m: nat, k: nat)
    requires m > 0 && Scaled(m, k) < W * W
    ensures k < 64
  {
    Pow2At32();
    Pow2Add(32, 32);
    MulMono(Pow2(k), 1, m);
    if k >= 64 { Pow2Mono(64, k); }
  }
}
