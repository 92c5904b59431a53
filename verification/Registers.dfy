/** The evaluation-stack registers and the double-word and floating-point packing
    instructions that overwrite them (runtime/libtvm/ins_sec.c, ins_float.c). */
module Registers {
  import opened Words
  import opened LongArith
  import opened Rounding

  const EFLAG_INTOV: Word := 4

  /** ECTX_CONTINUE, or ECTX_ERROR after raising an error flag. */
  datatype Outcome = Continue | Error

  datatype Triple = Triple(guard: Word, fraction: Word, exponent: Word)

  /** The 64-bit value the denormal branch of postnormsn shifts: both words are signed, so a
      guard word with its top bit set is widened with ones that overwrite the mantissa. */
  function DenormalOperand(guard: Word, fraction: Word): nat {
    Wide(if guard < MIN_INT then fraction else W - 1, guard)
  }

  /** postnormsn on the guard word, fraction word, normalisation shift and stored exponent. */
  function PostNorm(guard: Word, fraction: Word, shift: Word, stored: Word): Triple {
    var e := Sub(stored, shift);
    if Signed(e) <= -32 then Triple(0, 0, 0)
    else if Signed(e) <= 0 then
      var x := Shr(DenormalOperand(guard, fraction), 1 - Signed(e));
      Triple(x % W, x / W % W, 0)
    else Triple(guard, fraction, e)
  }

  /** The denormal branch shifts the mantissa right as intended exactly when the guard
      word's top bit is clear or the fraction word is already all ones; otherwise it shifts
      a mantissa whose fraction word is lost to ones. */
  lemma DenormalShift(guard: Word, fraction: Word, shift: Word, stored: Word)
    requires -32 < Signed(Sub(stored, shift)) <= 0
    ensures var p := PostNorm(guard, fraction, shift, stored);
            Wide(p.fraction, p.guard) == Shr(Wide(fraction, guard), 1 - Signed(Sub(stored, shift)))
            <==> guard < MIN_INT || fraction == W - 1
    ensures var p := PostNorm(guard, fraction, shift, stored);
            guard >= MIN_INT ==> Wide(p.fraction, p.guard) == Shr(Wide(W - 1, guard), 1 - Signed(Sub(stored, shift)))
  {
    hide Shr, DenormalOperand, Wide;
    var k := 1 - Signed(Sub(stored, shift));
    var x, y := DenormalOperand(guard, fraction), Wide(fraction, guard);
    ShrIsDiv(x, k);
    ShrIsDiv(y, k);
    Pow2At32();
    Pow2Mono(k, 32);
    Operands(guard, fraction);
    DivSeparates(x, y, Pow2(k));
    DivSmall(x, Pow2(k));
    Recombine(x / Pow2(k));
  }

  lemma Operands(guard: Word, fraction: Word)
    ensures var x, y := DenormalOperand(guard, fraction), Wide(fraction, guard);
            && y <= x < W * W && (x - y) % W == 0
            && (x == y <==> guard < MIN_INT || fraction == W - 1) && (guard >= MIN_INT ==> x == Wide(W - 1, guard))
  {}

  lemma Recombine(x: nat)
    requires x < W * W
    ensures Wide(x / W % W, x % W) == x
  {}

  lemma DivSmall(x: nat, p: nat)
    requires p >= 1 && x < W * W
    ensures 0 <= x / p < W * W
  {
    var q, r := x / p, x % p;
    MulMono(q, 1, p);
  }

  lemma DivSeparates(x: nat, y: nat, p: nat)
    requires 1 <= p <= W && y <= x && (x - y) % W == 0
    ensures x / p == y / p <==> x == y
  {
    var q, q2 := x / p, y / p;
    assert x == q * p + x % p && y == q2 * p + y % p;
    assert x != y ==> x - y >= W;
  }

  /** What unpacksn calls the number with encoding g, sign aside. */
  function Kind(g: nat): Word { if g == 0 then 0 else if g < FP_INFINITY then 1 else if g == FP_INFINITY then 2 else 3 }

  /** The kinds tell zero, the finite numbers, infinity and what is not a number apart, by value. */
  lemma KindIs(g: nat)
    ensures Kind(g) == 0 <==> Value(g) == 0
    ensures Kind(g) == 1 <==> 0 < Value(g) < Value(FP_INFINITY)
    ensures Kind(g) == 2 <==> Value(g) == Value(FP_INFINITY)
    ensures Kind(g) == 3 <==> Value(g) > Value(FP_INFINITY)
  {
    hide Value;
    ZeroValue();
    if g > 0 { ValueMono(0, g); }
    if g < FP_INFINITY { ValueMono(g, FP_INFINITY); }
    if g > FP_INFINITY { ValueMono(FP_INFINITY, g); }
    ValueMono(0, FP_INFINITY);
  }

  lemma ZeroValue()
    ensures Value(0) == 0
  {}

  /** The fraction and exponent of the number with encoding g have its value, and are those of
      a normalised number when g is; infinity and not-a-number keep their fields. */
  ghost predicate Unpacked(fraction: Word, exponent: Word, g: nat) {
    && (g < FP_INFINITY ==> Scaled(Wide(fraction, 0), exponent) == Value(g))
    && (FRACTION <= g < FP_INFINITY ==> fraction >= MIN_INT && 1 <= exponent <= 254)
    && (g >= FP_INFINITY ==> exponent == 0xFF && fraction == g % FRACTION * 0x100)
  }

  lemma UnpackedIs(word: Word)
    ensures var g, e, m := word % MIN_INT, word / FRACTION % 0x100, word % FRACTION * 0x100;
            && (e == 0 ==> Unpacked(m, if m == 0 then 0 else 1, g) && g < FRACTION && (m == 0 <==> g == 0))
            && (e == 0xFF ==> Unpacked(m, e, g) && g >= FP_INFINITY && (m == 0 <==> g == FP_INFINITY))
            && (0 < e < 0xFF ==> Unpacked(Or(Shl(1, 31), m) % W, e, g) && FRACTION <= g < FP_INFINITY)
  {
    hide Or, Scaled, Value;
    var g, e, m := word % MIN_INT, word / FRACTION % 0x100, word % FRACTION * 0x100;
    Fields(word);
    Pow2At32();
    OrDisjoint(1, m, 31);
    if e < 0xFF { UnpackedValue(g, e, g % FRACTION); }
  }

  lemma Fields(word: Word)
    ensures var g := word % MIN_INT; g / FRACTION == word / FRACTION % 0x100 && g % FRACTION == word % FRACTION
  {
    assert word / FRACTION == word / MIN_INT * 0x100 + word % MIN_INT / FRACTION;
  }

  lemma UnpackedValue(g: nat, e: nat, f: nat)
    requires e == g / FRACTION && f == g % FRACTION
    ensures e == 0 ==> Scaled(Wide(f * 0x100, 0), 1) == Value(g) && (f == 0 ==> Scaled(Wide(f * 0x100, 0), 0) == Value(g))
    ensures 0 < e ==> Scaled(Wide(MIN_INT + f * 0x100, 0), e) == Value(g)
  {
    Weigh(f, Pow2(1));
    Weigh(FRACTION + f, Pow2(e));
  }

  lemma Weigh(m: int, p: int)
    ensures m * 0x100 * W * p == m * (0x100_0000_0000 * p)
  {}

  lemma UnpackedNormal(fraction: Word, exponent: Word, g: nat)
    requires Unpacked(fraction, exponent, g) && FRACTION <= g < FP_INFINITY
    ensures fraction >= MIN_INT && 1 <= exponent <= 254 && Scaled(Wide(fraction, 0), exponent) == Value(g)
  {
    hide Scaled, Value;
  }

  /** A number that needs no rounding is packed as it was. */
  lemma PackAgain(fraction: Word, exponent: Word, g: nat)
    requires fraction >= MIN_INT && 1 <= exponent <= 254 && g < FP_INFINITY && Scaled(Wide(fraction, 0), exponent) == Value(g)
    ensures RoundWord(0, fraction, exponent) == g
  {
    hide RoundWord, Value, Scaled;
    RoundIsNearest(0, fraction, exponent);
    hide NearestEven;
    NearestOfItself(RoundWord(0, fraction, exponent), g);
  }

  lemma NearestOfItself(f: nat, g: nat)
    requires NearestEven(f, Value(g)) && g <= FP_INFINITY
    ensures f == g
  {
    hide Value;
    assert Distance(Value(g), Value(g)) == 0;
    if f < g { ValueMono(f, g); }
    if g < f { ValueMono(g, f); }
  }

  /** norm finds nothing to do when the top bit is set. */
  lemma NoShift(hi: Word, lo: Word, hi2: Word, lo2: Word, n: nat)
    requires hi >= MIN_INT && Wide(hi2, lo2) == Scaled(Wide(hi, lo), n)
    ensures n == 0 && hi2 == hi && lo2 == lo
  {
    if n > 0 {
      assert Pow2(n) == 2 * Pow2(n - 1);
      MulMono(Wide(hi, lo), 2, Pow2(n));
    }
  }

  lemma WideNormal(hi: Word)
    requires hi >= MIN_INT
    ensures Wide(hi, 0) > 0
  {}

  /** postnormsn leaves the fields of a normal number alone. */
  lemma NoDenormal(guard: Word, fraction: Word, e: Word)
    requires 1 <= e <= 254
    ensures PostNorm(guard, fraction, 0, e) == Triple(guard, fraction, e)
  {
    hide Shr, DenormalOperand;
  }

  /** The denormal branch of postnormsn shifts the double word x as it means to. */
  predicate Shifts(x: nat) { x % W < MIN_INT || x / W == W - 1 }

  lemma ZeroPacks()
    ensures RoundWord(0, 0, 0) == 0
  {
    hide Or, Shl, Shr;
    Pow2At32();
    ExponentField(0);
    ShrIsDiv(0, 8);
    OrDisjoint(0, 0, 23);
  }

  lemma DenormalPacks(guard: Word, fraction: Word, e: Word)
    requires -32 < Signed(e) <= 0
    ensures var p, x := PostNorm(guard, fraction, 0, e), Wide(fraction, guard);
            Shifts(x) ==> NearestEven(RoundWord(p.guard, p.fraction, p.exponent), Scaled(Shr(x, 1 - Signed(e)), 1))
  {
    hide RoundWord, NearestEven, Shr, Scaled, DenormalOperand;
    var p, x := PostNorm(guard, fraction, 0, e), Wide(fraction, guard);
    if Shifts(x) {
      assert x % W == guard && x / W == fraction;
      DenormalShift(guard, fraction, 0, e);
      HalfAtMost(x, 1 - Signed(e));
      DenormalIsNearest(p.guard, p.fraction);
    }
  }

  lemma HalfAtMost(x: nat, k: nat)
    requires x < W * W && k >= 1
    ensures Shr(x, k) < MIN_INT * W
  {
    ShrIsDiv(x, k);
    var p := Pow2(k);
    assert p == 2 * Pow2(k - 1);
    var q := x / p;
    assert x == p * q + x % p;
    MulMono(q, 2, p);
  }

  /** The word f is what the double word x, which has its top bit set, becomes at exponent e. */
  ghost predicate PackedAs(f: Word, x: nat, e: Word) {
    && (Signed(e) >= 1 ==> NearestEven(f, Scaled(x, e)))
    && (-32 < Signed(e) <= 0 && Shifts(x) ==> NearestEven(f, Scaled(Shr(x, 1 - Signed(e)), 1)))
    && (Signed(e) <= -32 ==> f == 0)
  }

  lemma Packs(guard: Word, fraction: Word, shift: Word, stored: Word)
    requires fraction >= MIN_INT
    ensures var p := PostNorm(guard, fraction, shift, stored);
            PackedAs(RoundWord(p.guard, p.fraction, p.exponent), Wide(fraction, guard), Sub(stored, shift))
  {
    hide RoundWord, NearestEven, Shr, Scaled, DenormalOperand;
    var e := Sub(stored, shift);
    assert PostNorm(guard, fraction, shift, stored) == PostNorm(guard, fraction, 0, e);
    if Signed(e) >= 1 {
      RoundIsNearest(guard, fraction, e);
    } else if Signed(e) <= -32 {
      ZeroPacks();
    } else {
      DenormalPacks(guard, fraction, e);
    }
  }

  class Registers {
    var areg: Word
    var breg: Word
    var creg: Word
    /** WS_TEMP of the current workspace. */
    var temp: Word
    var eflags: Word

    /** ldiv: divide creg:breg by areg, quotient to areg and remainder to breg; the C code
        leaves the stack alone and raises the overflow flag when creg is not below areg. */
    method Ldiv() returns (r: Outcome)
      modifies this
      ensures old(creg) >= old(areg) ==>
        && r == Error && eflags == Or(old(eflags), EFLAG_INTOV) % W
        && areg == old(areg) && breg == old(breg)
      ensures old(creg) < old(areg) ==>
        && r == Continue && eflags == old(eflags)
        && areg == Wide(old(creg), old(breg)) / old(areg)
        && breg == Wide(old(creg), old(breg)) % old(areg)
      ensures creg == old(creg) && temp == old(temp)
    {
      var u1, u0, v := creg, breg, areg;
      if u1 >= v {
        eflags := Or(eflags, EFLAG_INTOV) % W;
        return Error;
      }
      var q, rem := DivideLong(u1, u0, v);
      breg := rem;
      areg := q;
      return Continue;
    }

    /** lmul: multiply areg by breg and add creg, low word to areg and high word to breg. */
    method Lmul() returns (r: Outcome)
      modifies this
      ensures r == Continue
      ensures Wide(breg, areg) == old(breg) * old(areg) + old(creg)
      ensures creg == old(creg) && temp == old(temp) && eflags == old(eflags)
    {
      breg, areg := MultiplyAdd(breg, areg, creg);
      return Continue;
    }

    /** lmul followed by ldiv by the same divisor, with the product word moved to creg and
        breg in between, gives back quotient and remainder. */
    method LmulThenLdiv(q: Word, v: Word, rem: Word)
      requires rem < v
      modifies this
      ensures areg == q && breg == rem && eflags == old(eflags)
    {
      areg, breg, creg := v, q, rem;
      var r := Lmul();
      MultiplyThenDivide(q, v, rem, breg, areg);
      creg, breg, areg := breg, areg, v;
      r := Ldiv();
    }

    /** norm: shift breg:areg left until the top bit is set, count to creg; 64 for zero. */
    method Norm() returns (r: Outcome)
      modifies this
      ensures r == Continue && temp == old(temp) && eflags == old(eflags)
      ensures old(Wide(breg, areg)) == 0 ==> areg == 0 && breg == 0 && creg == 64
      ensures old(Wide(breg, areg)) > 0 ==>
        Wide(breg, areg) == Scaled(old(Wide(breg, areg)), creg) && breg >= MIN_INT && creg < 64
    {
      creg := 0;
      if areg == 0 && breg == 0 {
        creg := 64;
      } else {
        breg, areg, creg := Normalise(breg, areg);
      }
      return Continue;
    }

    /** postnormsn: subtract the shift count from the stored exponent. */
    method Postnormsn() returns (r: Outcome)
      modifies this
      ensures r == Continue && temp == old(temp) && eflags == old(eflags)
      ensures Triple(areg, breg, creg) == PostNorm(old(areg), old(breg), old(creg), old(temp))
    {
      var guard, mantissa := areg, breg;
      var exponent := Sub(temp, creg);
      if Signed(exponent) <= -32 {
        exponent, mantissa, guard := 0, 0, 0;
      } else if Signed(exponent) <= 0 {
        var x := Shr(DenormalOperand(guard, mantissa), 1 - Signed(exponent));
        mantissa := x / W % W;
        guard := x % W;
        exponent := 0;
      }
      areg, breg, creg := guard, mantissa, exponent;
      return Continue;
    }

    /** roundsn: build the REAL32 from guard word, fraction and exponent. */
    method Roundsn() returns (r: Outcome)
      modifies this
      ensures r == Continue && temp == old(temp) && eflags == old(eflags)
      ensures areg == RoundWord(old(areg), old(breg), old(creg))
      ensures breg == old(breg) && creg == old(creg)
    {
      var f: Word;
      if Signed(creg) >= 0xFF {
        f := FP_INFINITY;
      } else {
        f := Or(Shl(creg % 0x100, 23), Shr(breg, 8) % FRACTION) % W;
        if breg / 0x80 % 2 == 0 {
        } else if Or(Or(areg, breg % 0x80), f % 2) == 0 {
        } else {
          f := Add(f, 1);
        }
      }
      areg := f;
      return Continue;
    }

    /** unpacksn: fraction to areg, exponent to breg; the type of the number, 0 for zero, 1 for
        a number, 2 for infinity and 3 for not-a-number, joins the types so far in creg. The
        sign is ignored. Fraction and exponent have the value of the number. */
    method Unpacksn() returns (r: Outcome)
      modifies this
      ensures r == Continue && temp == old(temp) && eflags == old(eflags)
      ensures creg == Add(Mul(4, old(breg)), Kind(old(areg) % MIN_INT))
      ensures Unpacked(areg, breg, old(areg) % MIN_INT)
    {
      hide Unpacked, Or;
      var word := areg;
      var exponent: Word, mantissa: Word := word / FRACTION % 0x100, word % FRACTION * 0x100;
      var kind: Word;
      if exponent == 0 {
        if mantissa == 0 {
          kind := 0;
        } else {
          kind := 1;
          exponent := 1;
        }
      } else if exponent == 0xFF {
        kind := if mantissa == 0 then 2 else 3;
      } else {
        kind := 1;
        mantissa := Or(Shl(1, 31), mantissa) % W;
      }
      UnpackedIs(word);
      areg, breg, creg := mantissa, exponent, Add(Mul(4, breg), kind);
      return Continue;
    }

    /** unpacksn, then norm, postnormsn and roundsn on what it unpacked, give back the number
        without its sign. */
    method UnpackThenPack()
      requires FRACTION <= areg % MIN_INT < FP_INFINITY
      modifies this
      ensures areg == old(areg) % MIN_INT && eflags == old(eflags)
    {
      hide RoundWord, Unpacked, Scaled, Wide, PostNorm;
      ghost var g := areg % MIN_INT;
      var r := Unpacksn();
      ghost var fraction, e := areg, breg;
      UnpackedNormal(fraction, e, g);
      PackAgain(fraction, e, g);
      temp := breg;
      areg, breg := 0, areg;
      WideNormal(fraction);
      r := Norm();
      NoShift(fraction, 0, breg, areg, creg);
      r := Postnormsn();
      NoDenormal(0, fraction, e);
      r := Roundsn();
    }

    /** norm, postnormsn, roundsn on a non-zero mantissa breg:areg: when the exponent after
        normalisation is positive the result is the correctly rounded REAL32, infinity
        included; when it is not, and the denormal branch shifts as it means to, it is the
        shifted mantissa correctly rounded; and below that it is zero. */
    method PackReal32() returns (ghost shift: Word)
      requires Wide(breg, areg) > 0
      modifies this
      ensures var m := old(Wide(breg, areg));
              && shift < 64 && MIN_INT * W <= Scaled(m, shift) < W * W
              && PackedAs(areg, Scaled(m, shift), Sub(old(temp), shift))
      ensures eflags == old(eflags)
    {
      hide RoundWord, PostNorm, PackedAs, Scaled;
      var r := Norm();
      shift := creg;
      ghost var guard, fraction := areg, breg;
      ghost var creg0, stored := creg, temp;
      r := Postnormsn();
      r := Roundsn();
      Packs(guard, fraction, creg0, stored);
    }
  }
}
