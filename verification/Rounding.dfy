/** Packing a normalised double-word mantissa into a REAL32 (runtime/libtvm/ins_float.c):
    postnormsn adjusts the exponent, roundsn rounds to nearest, ties to even. */
module Rounding {
  import opened Words
  import opened LongArith

  const FP_INFINITY: int := 0x7F80_0000
  const FRACTION: int := 0x80_0000

  /** The value of the non-negative REAL32 with encoding g, in units of 2^-190, so that a
      mantissa M with top bit 2^63 and biased exponent E has value M * 2^E. The encoding of
      infinity stands for 2^128, the number an overflowing rounding would have produced
      (section 4.3.1 of IEEE 754-2008). */
  function Value(g: nat): nat {
    var e, f := g / FRACTION, g % FRACTION;
    if e == 0 then Weight(f, 1) else Weight(FRACTION + f, e)
  }

  function Weight(significand: nat, e: nat): nat { significand * (0x100_0000_0000 * Pow2(e)) }

  function Distance(x: nat, y: nat): nat { if x < y then y - x else x - y }

  /** f is the correctly rounded encoding of x: nearest, and even when two are as near. */
  ghost predicate NearestEven(f: nat, x: nat) {
    && f <= FP_INFINITY
    && forall g: nat | g <= FP_INFINITY && g != f ::
         Distance(Value(f), x) < Distance(Value(g), x)
         || (Distance(Value(f), x) == Distance(Value(g), x) && f % 2 == 0)
  }

  lemma WeightMono(a: nat, b: nat, e: nat)
    requires a < b
    ensures Weight(a, e) < Weight(b, e)
  {
    var w := 0x100_0000_0000 * Pow2(e);
    MulMono(w, a + 1, b);
  }

  lemma WeightCarry(e: nat)
    ensures Weight(2 * FRACTION, e) == Weight(FRACTION, e + 1)
  {}

  lemma ValueStep(g: nat)
    ensures Value(g) < Value(g + 1)
  {
    var e, f := g / FRACTION, g % FRACTION;
    if f + 1 < FRACTION {
      WeightMono(f, f + 1, 1);
      WeightMono(FRACTION + f, FRACTION + f + 1, e);
    } else if e == 0 {
      WeightMono(f, FRACTION, 1);
    } else {
      WeightMono(FRACTION + f, 2 * FRACTION, e);
      WeightCarry(e);
    }
  }

  /** Encodings are ordered like the numbers they stand for. */
  lemma {:induction false} ValueMono(a: nat, b: nat)
    requires a < b
    ensures Value(a) < Value(b)
    decreases b
  {
    ValueStep(b - 1);
    if a < b - 1 { ValueMono(a, b - 1); }
  }

  /** Between two neighbouring encodings, the nearer one (or the even one) is nearest of all. */
  lemma NeighbourIsNearest(t: nat, x: nat)
    requires t < FP_INFINITY && Value(t) <= x < Value(t + 1)
    ensures var down, up := x - Value(t), Value(t + 1) - x;
            NearestEven(if down < up || (down == up && t % 2 == 0) then t else t + 1, x)
  {
    var down, up := x - Value(t), Value(t + 1) - x;
    var f := if down < up || (down == up && t % 2 == 0) then t else t + 1;
    forall g: nat | g <= FP_INFINITY && g != f
      ensures Distance(Value(f), x) < Distance(Value(g), x)
              || (Distance(Value(f), x) == Distance(Value(g), x) && f % 2 == 0)
    {
      if g < t { ValueMono(g, t); }
      if g > t + 1 { ValueMono(t + 1, g); }
    }
  }

  lemma EncodingOf(m: nat, e: nat)
    requires FRACTION <= m < 2 * FRACTION && 1 <= e
    ensures Value(e * FRACTION + (m - FRACTION)) == Weight(m, e)
    ensures Value(e * FRACTION + (m - FRACTION) + 1) == Weight(m + 1, e)
  {
    hide Weight;
    var t := e * FRACTION + (m - FRACTION);
    assert t / FRACTION == e && t % FRACTION == m - FRACTION;
    if m + 1 < 2 * FRACTION {
      assert (t + 1) / FRACTION == e && (t + 1) % FRACTION == m + 1 - FRACTION;
    } else {
      assert (t + 1) / FRACTION == e + 1 && (t + 1) % FRACTION == 0;
      WeightCarry(e);
    }
  }

  /** The encoding obtained by dropping the low 40 bits, and the one above it, bracket x. */
  lemma Truncation(m: nat, rest: nat, e: nat)
    requires FRACTION <= m < 2 * FRACTION && rest < 0x100_0000_0000 && 1 <= e
    ensures var t := e * FRACTION + (m - FRACTION);
            var x := Scaled(m * 0x100_0000_0000 + rest, e);
            && x - Value(t) == rest * Pow2(e)
            && Value(t + 1) - x == (0x100_0000_0000 - rest) * Pow2(e)
  {
    hide Value;
    EncodingOf(m, e);
    Spread(m, rest, Pow2(e));
  }

  lemma Spread(m: int, rest: int, p: int)
    ensures (m * 0x100_0000_0000 + rest) * p == m * (0x100_0000_0000 * p) + rest * p
    ensures (m + 1) * (0x100_0000_0000 * p) == m * (0x100_0000_0000 * p) + 0x100_0000_0000 * p
    ensures (0x100_0000_0000 - rest) * p == 0x100_0000_0000 * p - rest * p
  {}

  lemma {:induction false} OrZeroIff(x: nat, y: nat)
    ensures Or(x, y) == 0 <==> x == 0 && y == 0
    decreases x + y
  {
    if x + y > 0 { OrZeroIff(x / 2, y / 2); }
  }

  /** roundsn on a guard word, a fraction word and an exponent word. */
  function RoundWord(guard: Word, fraction: Word, exponent: Word): Word {
    if Signed(exponent) >= 0xFF then FP_INFINITY
    else
      var f := Or(Shl(exponent % 0x100, 23), Shr(fraction, 8) % FRACTION) % W;
      if fraction / 0x80 % 2 == 0 then f
      else if Or(Or(guard, fraction % 0x80), f % 2) == 0 then f
      else Add(f, 1)
  }

  /** The rounding decision is a comparison with half a unit in the last place. */
  lemma RoundDecision(guard: Word, fraction: Word, e: Word)
    requires fraction >= MIN_INT && 1 <= e <= 254
    ensures var m := fraction / 0x100;
            var rest := fraction % 0x100 * W + guard;
            var t := e * FRACTION + (m - FRACTION);
            && FRACTION <= m < 2 * FRACTION && rest < 0x100_0000_0000
            && RoundWord(guard, fraction, e) ==
               (if rest < 0x80_0000_0000 || (rest == 0x80_0000_0000 && t % 2 == 0) then t else t + 1)
  {
    hide Or, Shl, Shr;
    var m := fraction / 0x100;
    var t := e * FRACTION + (m - FRACTION);
    PackedWord(fraction, e);
    OrZeroIff(guard, fraction % 0x80);
    OrZeroIff(Or(guard, fraction % 0x80), t % 2);
  }

  lemma ExponentField(e: Word)
    requires e <= 254
    ensures Shl(e % 0x100, 23) == e * FRACTION && Pow2(23) == FRACTION
  {
    assert Pow2(18) == 0x4_0000 by { Pow2At32(); }
  }

  lemma PackedWord(fraction: Word, e: Word)
    requires fraction >= MIN_INT && 1 <= e <= 254
    ensures Or(Shl(e % 0x100, 23), Shr(fraction, 8) % FRACTION) == e * FRACTION + (fraction / 0x100 - FRACTION)
  {
    hide Shl, Or, Shr;
    Pow2At32();
    ShrIsDiv(fraction, 8);
    ExponentField(e);
    OrDisjoint(e, fraction / 0x100 - FRACTION, 23);
  }

  /** roundsn is correct rounding of guard and fraction at any positive biased exponent, to
      infinity when the exponent is too big. */
  lemma RoundIsNearest(guard: Word, fraction: Word, e: Word)
    requires fraction >= MIN_INT && Signed(e) >= 1
    ensures NearestEven(RoundWord(guard, fraction, e), Scaled(Wide(fraction, guard), e))
  {
    hide RoundWord, NearestEven, Value, Scaled;
    if e <= 254 {
      RoundIsNear(guard, fraction, e);
    } else {
      TooBig(guard, fraction, e);
      BeyondInfinity(Wide(fraction, guard), e);
      InfinityIsNearest(Scaled(Wide(fraction, guard), e));
    }
  }

  lemma TooBig(guard: Word, fraction: Word, e: Word)
    requires Signed(e) >= 0xFF
    ensures RoundWord(guard, fraction, e) == FP_INFINITY
  {}

  lemma BeyondInfinity(x: nat, e: nat)
    requires x >= MIN_INT * W && e >= 255
    ensures Scaled(x, e) >= Value(FP_INFINITY)
  {
    hide Pow2;
    Pow2Mono(255, e);
    MulMono(Pow2(e), MIN_INT * W, x);
    MulMono(MIN_INT * W, Pow2(255), Pow2(e));
  }

  lemma InfinityIsNearest(x: nat)
    requires x >= Value(FP_INFINITY)
    ensures NearestEven(FP_INFINITY, x)
  {
    hide Value;
    forall g: nat | g <= FP_INFINITY && g != FP_INFINITY ensures Distance(Value(FP_INFINITY), x) < Distance(Value(g), x) {
      ValueMono(g, FP_INFINITY);
    }
  }

  lemma RoundIsNear(guard: Word, fraction: Word, e: Word)
    requires fraction >= MIN_INT && 1 <= e <= 254
    ensures NearestEven(RoundWord(guard, fraction, e), Scaled(Wide(fraction, guard), e))
  {
    hide RoundWord, NearestEven, Value;
    var m := fraction / 0x100;
    var rest := fraction % 0x100 * W + guard;
    var t := e * FRACTION + (m - FRACTION);
    RoundDecision(guard, fraction, e);
    Truncation(m, rest, e);
    assert Wide(fraction, guard) == m * 0x100_0000_0000 + rest;
    CompareHalves(rest, Pow2(e));
    NeighbourIsNearest(t, Scaled(Wide(fraction, guard), e));
  }

  /** With exponent 0 and the top bit clear, roundsn rounds correctly among the denormal
      numbers, and up to the smallest normal one. */
  lemma DenormalIsNearest(guard: Word, fraction: Word)
    requires fraction < MIN_INT
    ensures NearestEven(RoundWord(guard, fraction, 0), Scaled(Wide(fraction, guard), 1))
  {
    hide RoundWord, NearestEven, Value;
    var t := fraction / 0x100;
    var rest := fraction % 0x100 * W + guard;
    DenormalDecision(guard, fraction);
    DenormalValues(t);
    Spread(t, rest, 2);
    assert Wide(fraction, guard) == t * 0x100_0000_0000 + rest;
    CompareHalves(rest, 2);
    NeighbourIsNearest(t, Scaled(Wide(fraction, guard), 1));
  }

  lemma DenormalValues(t: nat)
    requires t < FRACTION
    ensures Value(t) == t * (0x100_0000_0000 * 2) && Value(t + 1) == (t + 1) * (0x100_0000_0000 * 2)
  {
    if t + 1 == FRACTION { assert (t + 1) / FRACTION == 1 && (t + 1) % FRACTION == 0; }
  }

  lemma DenormalDecision(guard: Word, fraction: Word)
    requires fraction < MIN_INT
    ensures var rest, t := fraction % 0x100 * W + guard, fraction / 0x100;
            && t < FRACTION && rest < 0x100_0000_0000
            && RoundWord(guard, fraction, 0) ==
               (if rest < 0x80_0000_0000 || (rest == 0x80_0000_0000 && t % 2 == 0) then t else t + 1)
  {
    hide Or, Shl, Shr;
    DenormalWord(fraction);
    OrZeroIff(guard, fraction % 0x80);
    OrZeroIff(Or(guard, fraction % 0x80), fraction / 0x100 % 2);
  }

  lemma DenormalWord(fraction: Word)
    requires fraction < MIN_INT
    ensures Or(Shl(0 % 0x100, 23), Shr(fraction, 8) % FRACTION) == fraction / 0x100
  {
    hide Or, Shl, Shr;
    Pow2At32();
    ShrIsDiv(fraction, 8);
    ExponentField(0);
    OrDisjoint(0, fraction / 0x100, 23);
  }

  lemma CompareHalves(rest: nat, p: nat)
    requires rest < 0x100_0000_0000 && p > 0
    ensures var down, up := rest * p, (0x100_0000_0000 - rest) * p;
            && 0 <= down && 0 < up
            && (down < up <==> rest < 0x80_0000_0000)
            && (down == up <==> rest == 0x80_0000_0000)
  {
    var half := 0x80_0000_0000 * p;
    if rest < 0x80_0000_0000 { MulMono(p, rest + 1, 0x80_0000_0000); }
    if rest > 0x80_0000_0000 { MulMono(p, 0x80_0000_0000 + 1, rest); }
    MulGe(p, 0x100_0000_0000 - rest);
    assert rest * p + (0x100_0000_0000 - rest) * p == 2 * half;
  }
}
