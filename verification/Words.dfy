/** 32-bit machine words (TVM_WORD_LENGTH == 4) as natural numbers, with C's
    unsigned wrap-around and its bitwise operators defined bit by bit. */
module Words {
  const W: int := 0x1_0000_0000
  const MIN_INT: int := 0x8000_0000

  type Word = x: int | 0 <= x < 0x1_0000_0000

  /** Cells by address; one that has not been written holds zero. */
  type Mem = map<int, int>

  function Rd(m: Mem, a: int): int { if a in m then m[a] else 0 }

  function Add(x: int, y: int): Word { (x + y) % W }
  function Sub(x: int, y: int): Word { (x - y) % W }
  function Mul(x: int, y: int): Word { (x * y) % W }

  /** The two's-complement reading of a word. */
  function Signed(x: Word): int { if x < MIN_INT then x else x - W }

  function Pow2(k: nat): (p: nat)
    ensures p >= 1
  {
    if k == 0 then 1 else 2 * Pow2(k - 1)
  }

  function Shr(x: nat, k: nat): nat { if k == 0 then x else Shr(x / 2, k - 1) }
  function Shl(x: Word, k: nat): Word { (x * Pow2(k)) % W }

  predicate Bit(x: nat, k: nat) { if k == 0 then x % 2 == 1 else Bit(x / 2, k - 1) }

  function And(x: nat, y: nat): nat
    decreases x
  {
    if x == 0 then 0 else 2 * And(x / 2, y / 2) + (if x % 2 == 1 && y % 2 == 1 then 1 else 0)
  }

  function Or(x: nat, y: nat): nat
    decreases x + y
  {
    if x + y == 0 then 0 else 2 * Or(x / 2, y / 2) + (if x % 2 == 1 || y % 2 == 1 then 1 else 0)
  }

  function Not(x: Word): Word { W - 1 - x }

  lemma {:induction false} BitAnd(x: nat, y: nat, k: nat)
    ensures Bit(And(x, y), k) <==> Bit(x, k) && Bit(y, k)
    decreases k
  {
    if x == 0 {
      BitZero(k);
    } else if k > 0 {
      BitAnd(x / 2, y / 2, k - 1);
    }
  }

  lemma {:induction false} BitOr(x: nat, y: nat, k: nat)
    ensures Bit(Or(x, y), k) <==> Bit(x, k) || Bit(y, k)
    decreases k
  {
    if x + y == 0 {
      BitZero(k);
    } else if k > 0 {
      BitOr(x / 2, y / 2, k - 1);
    }
  }

  lemma {:induction false} BitZero(k: nat)
    ensures !Bit(0, k)
  {
    if k > 0 { BitZero(k - 1); }
  }

  lemma {:induction false} BitComplement(n: nat, x: nat, k: nat)
    requires x < Pow2(n) && k < n
    ensures Bit(Pow2(n) - 1 - x, k) <==> !Bit(x, k)
    decreases k
  {
    HalfComplement(Pow2(n - 1), x);
    if k > 0 { BitComplement(n - 1, x / 2, k - 1); }
  }

  lemma HalfComplement(p: nat, x: nat)
    ensures (2 * p - 1 - x) / 2 == p - 1 - x / 2 && ((2 * p - 1 - x) % 2 == 1 <==> x % 2 != 1)
  {}

  lemma {:induction false} BitHigh(x: nat, k: nat)
    requires x < Pow2(k)
    ensures !Bit(x, k)
  {
    if k > 0 { BitHigh(x / 2, k - 1); }
  }

  lemma Pow2At32()
    ensures Pow2(32) == W && Pow2(31) == MIN_INT && Pow2(16) == 0x1_0000
    ensures Pow2(8) == 256 && Pow2(5) == 32
  {
    assert Pow2(5) == 32;
    assert Pow2(8) == 256;
    assert Pow2(13) == 8192;
    assert Pow2(16) == 0x1_0000;
    assert Pow2(21) == 0x20_0000;
    assert Pow2(26) == 0x400_0000;
    assert Pow2(31) == MIN_INT;
  }

  lemma BitNot(x: Word, k: nat)
    requires k < 32
    ensures Bit(Not(x), k) <==> !Bit(x, k)
  {
    Pow2At32();
    BitComplement(32, x, k);
  }

  lemma {:induction false} Pow2Add(a: nat, b: nat)
    ensures Pow2(a + b) == Pow2(a) * Pow2(b)
  {
    if a > 0 { Pow2Add(a - 1, b); }
  }

  lemma {:induction false} Pow2Mono(a: nat, b: nat)
    requires a <= b
    ensures Pow2(a) <= Pow2(b)
    decreases b
  {
    if a < b { Pow2Mono(a, b - 1); }
  }

  lemma MulGe(a: int, b: int)
    requires a > 0 && b > 0
    ensures a * b >= a
  {}

  /** Quotient and remainder are determined by their defining equation. */
  lemma DivUnique(d: int, q: int, r: int, q2: int, r2: int)
    requires d > 0 && 0 <= r < d && 0 <= r2 < d
    requires d * q + r == d * q2 + r2
    ensures q == q2 && r == r2
  {
    assert d * (q - q2) == r2 - r && d * (q2 - q) == r - r2;
    if q > q2 { MulGe(d, q - q2); }
    if q2 > q { MulGe(d, q2 - q); }
  }

  lemma DivIs(x: int, d: int, q: int, r: int)
    requires d > 0 && x == d * q + r && 0 <= r < d
    ensures x / d == q && x % d == r
  {
    DivUnique(d, q, r, x / d, x % d);
  }

  lemma DivTwice(x: nat, m: nat, n: nat)
    requires m > 0 && n > 0
    ensures m * n > 0 && x / m / n == x / (m * n)
  {
    var q, r := x / m, x % m;
    var q2, r2 := q / n, q % n;
    MulGe(m, n);
    DivTwiceParts(x, m, n, q, r, q2, r2);
    DivIs(x, m * n, q2, m * r2 + r);
  }

  lemma DivTwiceParts(x: int, m: int, n: int, q: int, r: int, q2: int, r2: int)
    requires m > 0 && n > 0 && x == m * q + r && q == n * q2 + r2 && 0 <= r < m && 0 <= r2 < n
    ensures x == (m * n) * q2 + (m * r2 + r) && 0 <= m * r2 + r < m * n
  {
    assert m * (n * q2 + r2) == (m * n) * q2 + m * r2;
    assert m * (n - r2) == m * n - m * r2;
    MulGe(m, n - r2);
    if r2 > 0 { MulGe(m, r2); }
  }

  lemma {:induction false} ShrIsDiv(x: nat, k: nat)
    ensures Shr(x, k) == x / Pow2(k)
    decreases k
  {
    if k > 0 {
      ShrIsDiv(x / 2, k - 1);
      DivTwice(x, 2, Pow2(k - 1));
    }
  }

  lemma {:induction false} BitIsDiv(x: nat, k: nat)
    ensures Bit(x, k) <==> (x / Pow2(k)) % 2 == 1
    decreases k
  {
    if k > 0 {
      BitIsDiv(x / 2, k - 1);
      DivTwice(x, 2, Pow2(k - 1));
    }
  }

  /** OR-ing a value shifted left by s with one below 2^s is addition. */
  lemma {:induction false} OrDisjoint(x: nat, y: nat, s: nat)
    requires y < Pow2(s)
    ensures Or(x * Pow2(s), y) == x * Pow2(s) + y
    decreases s
  {
    if s == 0 {
      OrZero(x);
    } else {
      var h := x * Pow2(s - 1);
      assert x * Pow2(s) == 2 * h;
      OrDisjoint(x, y / 2, s - 1);
    }
  }

  lemma {:induction false} AndAtMost(x: nat, y: nat)
    ensures And(x, y) <= x
  {
    if x > 0 { AndAtMost(x / 2, y / 2); }
  }

  lemma {:induction false} OrBelow(x: nat, y: nat, n: nat)
    requires x < Pow2(n) && y < Pow2(n)
    ensures Or(x, y) < Pow2(n)
    decreases n
  {
    if n > 0 { OrBelow(x / 2, y / 2, n - 1); }
  }

  lemma {:induction false} OrZero(x: nat)
    ensures Or(x, 0) == x
  {
    if x > 0 { OrZero(x / 2); }
  }

  lemma TopBit(x: Word)
    ensures Bit(x, 31) <==> x >= MIN_INT
    ensures Shr(x, 31) == if x >= MIN_INT then 1 else 0
  {
    Pow2At32();
    BitIsDiv(x, 31);
    ShrIsDiv(x, 31);
  }
}
