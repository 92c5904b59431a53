/** The physical block chain of a TLSF pool, as a map from header addresses. The block at a
    has its header in [a, a+8) and its payload in [a+8, a+8+size). */
module TlsfChain {
  const OVERHEAD: int := 8
  const MIN_BLOCK: int := 8

  datatype Block = Block(size: nat, free: bool, prevFree: bool)
  type Chain = map<int, Block>

  function Next(chain: Chain, a: int): int
    requires a in chain
  {
    a + OVERHEAD + chain[a].size
  }

  /** The blocks tile the pool from first to the size-0 sentinel at end, and every prevFree
      flag tells the truth about the block before. */
  ghost predicate Tiled(chain: Chain, first: int, end: int) {
    && first in chain && end in chain && first < end
    && chain[end].size == 0 && !chain[end].free && !chain[first].prevFree
    && (forall a | a in chain :: first <= a <= end)
    && (forall a {:trigger Linked(chain, a)} | a in chain && a != end :: Linked(chain, a))
    && Ordered(chain)
  }

  /** Every block ends before the next header begins: live allocations are disjoint. */
  ghost predicate Ordered(chain: Chain) {
    forall a, b | a in chain && b in chain && a < b :: Next(chain, a) <= b
  }

  ghost predicate Linked(chain: Chain, a: int)
    requires a in chain
  {
    && chain[a].size >= MIN_BLOCK && chain[a].size % 8 == 0
    && Next(chain, a) in chain
    && chain[Next(chain, a)].prevFree == chain[a].free
  }

  /** No two neighbouring blocks are both free. */
  ghost predicate Coalesced(chain: Chain) {
    forall a | a in chain && chain[a].free && Next(chain, a) in chain :: !chain[Next(chain, a)].free
  }

  /** A block of a well-formed chain, other than the sentinel. */
  ghost predicate At(chain: Chain, first: int, end: int, a: int) {
    Tiled(chain, first, end) && a in chain && a != end && Linked(chain, a)
  }

  // ------------------------------------------------------------ transformations

  function SetFree(chain: Chain, a: int, free: bool): Chain
    requires a in chain && Next(chain, a) in chain
  {
    var n := Next(chain, a);
    chain[a := chain[a].(free := free)][n := chain[n].(prevFree := free)]
  }

  /** Absorb the next block. */
  function Merge(chain: Chain, a: int): Chain
    requires a in chain && Next(chain, a) in chain
  {
    var n := Next(chain, a);
    var wide := chain[a].(size := chain[a].size + OVERHEAD + chain[n].size);
    var nn := Next(chain, n);
    var rest := (chain - {n})[a := wide];
    if nn in rest then rest[nn := rest[nn].(prevFree := chain[a].free)] else rest
  }

  /** Cut a block to the given size; the remainder becomes a free block. */
  function Split(chain: Chain, a: int, size: nat): Chain
    requires a in chain && Next(chain, a) in chain && size + OVERHEAD <= chain[a].size
  {
    var n, nn := a + OVERHEAD + size, Next(chain, a);
    chain[a := chain[a].(size := size)]
         [n := Block(chain[a].size - size - OVERHEAD, true, chain[a].free)]
         [nn := chain[nn].(prevFree := true)]
  }

  lemma NextInside(chain: Chain, first: int, end: int, a: int)
    requires Tiled(chain, first, end) && a in chain && a != end
    ensures Linked(chain, a) && a < Next(chain, a) <= end && Next(chain, a) != first
  {
    assert Linked(chain, a);
  }

  lemma TiledSetFree(chain: Chain, first: int, end: int, a: int, free: bool)
    requires Tiled(chain, first, end) && a in chain && a != end && Linked(chain, a)
    ensures Tiled(SetFree(chain, a, free), first, end)
  {
    var c := SetFree(chain, a, free);
    NextInside(chain, first, end, a);
    SetFreeShape(chain, a, free);
    hide SetFree;
    assert Ordered(c) by { forall x, y | x in c && y in c && x < y ensures Next(c, x) <= y { assert Next(chain, x) <= y; } }
    hide Ordered;
    forall b | b in c && b != end ensures Linked(c, b) {
      NextInside(chain, first, end, b);
      Successors(chain, first, end, a, b);
    }
    hide Linked;
  }

  lemma SetFreeShape(chain: Chain, a: int, free: bool)
    requires a in chain && Next(chain, a) in chain && chain[a].size > 0
    ensures var c := SetFree(chain, a, free);
            && c.Keys == chain.Keys
            && forall x | x in chain ::
                 && c[x].size == chain[x].size
                 && c[x].free == (if x == a then free else chain[x].free)
                 && c[x].prevFree == (if x == Next(chain, a) then free else chain[x].prevFree)
  {}

  /** Distinct blocks have distinct successors. */
  lemma Successors(chain: Chain, first: int, end: int, a: int, b: int)
    requires Tiled(chain, first, end) && a in chain && b in chain && a != end && b != end
    ensures Next(chain, a) == Next(chain, b) ==> a == b
  {
    NextInside(chain, first, end, a);
    NextInside(chain, first, end, b);
    if a < b { assert Next(chain, a) <= b; }
    if b < a { assert Next(chain, b) <= a; }
  }

  lemma TiledMerge(chain: Chain, first: int, end: int, a: int)
    requires Tiled(chain, first, end) && a in chain && a != end && Linked(chain, a)
    requires Next(chain, a) != end && Linked(chain, Next(chain, a))
    ensures Tiled(Merge(chain, a), first, end)
    ensures Merge(chain, a).Keys == chain.Keys - {Next(chain, a)}
  {
    var c := Merge(chain, a);
    var n := Next(chain, a);
    NextInside(chain, first, end, a);
    NextInside(chain, first, end, n);
    MergeShape(chain, a);
    MergeOrdered(chain, a);
    hide Merge, Ordered, Linked;
    forall b | b in c && b != end ensures Linked(c, b) { MergeLink(chain, first, end, a, b); }
  }

  lemma MergeLink(chain: Chain, first: int, end: int, a: int, b: int)
    requires Tiled(chain, first, end) && a in chain && a != end && Linked(chain, a)
    requires Next(chain, a) != end && Linked(chain, Next(chain, a))
    requires b in chain && b != end && b != Next(chain, a)
    ensures b in Merge(chain, a) && Linked(Merge(chain, a), b)
  {
    var n := Next(chain, a);
    NextInside(chain, first, end, a);
    NextInside(chain, first, end, n);
    NextInside(chain, first, end, b);
    Successors(chain, first, end, a, b);
    Successors(chain, first, end, n, b);
    MergeShape(chain, a);
    hide Merge, Tiled;
  }

  lemma MergeOrdered(chain: Chain, a: int)
    requires Ordered(chain)
    requires a in chain && Next(chain, a) in chain && chain[a].size > 0 && chain[Next(chain, a)].size > 0
    requires Next(chain, Next(chain, a)) in chain
    ensures Ordered(Merge(chain, a))
  {
    var c, n := Merge(chain, a), Next(chain, a);
    MergeShape(chain, a);
    hide Merge;
    forall x, y | x in c && y in c && x < y ensures Next(c, x) <= y {
      assert Next(chain, x) <= y;
      if x == a { assert n < y; assert Next(chain, n) <= y; }
    }
  }

  lemma MergeShape(chain: Chain, a: int)
    requires a in chain && Next(chain, a) in chain && chain[a].size > 0 && chain[Next(chain, a)].size > 0
    requires Next(chain, Next(chain, a)) in chain
    ensures var c, n := Merge(chain, a), Next(chain, a);
            && c.Keys == chain.Keys - {n}
            && forall x | x in c ::
                 && c[x].size == (if x == a then chain[a].size + OVERHEAD + chain[n].size else chain[x].size)
                 && c[x].free == chain[x].free
                 && c[x].prevFree == (if x == Next(chain, n) then chain[a].free else chain[x].prevFree)
  {}

  lemma TiledSplit(chain: Chain, first: int, end: int, a: int, size: nat)
    requires Tiled(chain, first, end) && a in chain && a != end && Linked(chain, a)
    requires size >= MIN_BLOCK && size % 8 == 0 && size + 16 <= chain[a].size
    ensures Tiled(Split(chain, a, size), first, end)
    ensures a + OVERHEAD + size !in chain
  {
    hide Split, Ordered, Linked;
    LinkedSize(chain, a);
    var c := Split(chain, a, size);
    NextInside(chain, first, end, a);
    CutIsNew(chain, a, size);
    SplitShape(chain, a, size);
    SplitOrdered(chain, a, size);
    forall b | b in c && b != end ensures Linked(c, b) { SplitLink(chain, first, end, a, size, b); }
  }

  lemma CutIsNew(chain: Chain, a: int, size: nat)
    requires Ordered(chain) && a in chain && size < chain[a].size
    ensures a + OVERHEAD + size !in chain
  {
    assert forall x | x in chain && a < x :: Next(chain, a) <= x;
  }

  lemma LinkedSize(chain: Chain, a: int)
    requires a in chain && Linked(chain, a)
    ensures chain[a].size >= MIN_BLOCK && Next(chain, a) in chain
  {}

  lemma SplitLink(chain: Chain, first: int, end: int, a: int, size: nat, b: int)
    requires Tiled(chain, first, end) && a in chain && a != end && Linked(chain, a)
    requires size >= MIN_BLOCK && size % 8 == 0 && size + 16 <= chain[a].size
    requires a + OVERHEAD + size !in chain
    requires b == a + OVERHEAD + size || (b in chain && b != end)
    ensures b in Split(chain, a, size) && Linked(Split(chain, a, size), b)
  {
    var c, n := Split(chain, a, size), a + OVERHEAD + size;
    NextInside(chain, first, end, a);
    SplitShape(chain, a, size);
    hide Split;
    if b == n {
      hide Tiled;
      assert Next(c, n) == Next(chain, a);
    } else if b == a {
      hide Tiled;
      assert Next(c, a) == n;
    } else {
      NextInside(chain, first, end, b);
      Successors(chain, first, end, a, b);
      hide Tiled;
      assert Next(c, b) == Next(chain, b);
    }
  }

  lemma SplitOrdered(chain: Chain, a: int, size: nat)
    requires Ordered(chain)
    requires a in chain && Next(chain, a) in chain && size + OVERHEAD < chain[a].size
    requires a + OVERHEAD + size !in chain
    ensures Ordered(Split(chain, a, size))
  {
    var c, n := Split(chain, a, size), a + OVERHEAD + size;
    SplitShape(chain, a, size);
    hide Split;
    forall x, y | x in c && y in c && x < y ensures Next(c, x) <= y {
      if x in chain && y in chain {
        assert Next(chain, x) <= y;
      } else if x in chain {
        if x < a { assert Next(chain, x) <= a; }
      } else {
        assert Next(chain, a) <= y;
      }
    }
  }

  lemma SplitShape(chain: Chain, a: int, size: nat)
    requires a in chain && Next(chain, a) in chain && size + OVERHEAD < chain[a].size
    requires a + OVERHEAD + size !in chain
    ensures var c, n := Split(chain, a, size), a + OVERHEAD + size;
            && c.Keys == chain.Keys + {n}
            && c[n] == Block(chain[a].size - size - OVERHEAD, true, chain[a].free)
            && forall x | x in chain ::
                 && c[x].size == (if x == a then size else chain[x].size)
                 && c[x].free == chain[x].free
                 && c[x].prevFree == (if x == Next(chain, a) then true else chain[x].prevFree)
  {}

  // ------------------------------------------------------------ accounting

  /** Bytes held by the free blocks from a onwards, headers included. */
  ghost function FreeBytes(chain: Chain, first: int, end: int, a: int): nat
    requires Tiled(chain, first, end) && a in chain
    decreases end - a
  {
    if a == end then 0
    else
      NextInside(chain, first, end, a);
      (if chain[a].free then chain[a].size + OVERHEAD else 0) + FreeBytes(chain, first, end, Next(chain, a))
  }

  /** FreeBytes looks only at the blocks from a onwards. */
  lemma {:induction false} FreeBytesSame(c: Chain, d: Chain, first: int, end: int, a: int)
    requires Tiled(c, first, end) && Tiled(d, first, end) && a in c && a in d
    requires forall x | x >= a :: (x in c <==> x in d) && (x in c ==> c[x].size == d[x].size && c[x].free == d[x].free)
    ensures FreeBytes(c, first, end, a) == FreeBytes(d, first, end, a)
    decreases end - a
  {
    if a != end {
      NextInside(c, first, end, a);
      NextInside(d, first, end, a);
      FreeBytesSame(c, d, first, end, Next(c, a));
    }
  }

  /** Blocks before t contribute the same to two chains that agree on them. */
  lemma {:induction false} FreeBytesPrefix(c: Chain, d: Chain, first: int, end: int, a: int, t: int)
    requires Tiled(c, first, end) && Tiled(d, first, end) && a in c && a in d && t in c && t in d && a <= t
    requires forall x | a <= x < t :: (x in c <==> x in d) && (x in c ==> c[x].size == d[x].size && c[x].free == d[x].free)
    ensures FreeBytes(c, first, end, a) - FreeBytes(c, first, end, t)
         == FreeBytes(d, first, end, a) - FreeBytes(d, first, end, t)
    decreases t - a
  {
    if a < t {
      NextInside(c, first, end, a);
      NextInside(d, first, end, a);
      assert Next(c, a) <= t;
      FreeBytesPrefix(c, d, first, end, Next(c, a), t);
    }
  }

  ghost function TotalFree(chain: Chain, first: int, end: int): nat
    requires Tiled(chain, first, end)
  {
    FreeBytes(chain, first, end, first)
  }

  lemma TotalFrom(c: Chain, d: Chain, first: int, end: int, t: int)
    requires Tiled(c, first, end) && Tiled(d, first, end) && t in c && t in d
    requires forall x | x < t :: (x in c <==> x in d) && (x in c ==> c[x].size == d[x].size && c[x].free == d[x].free)
    ensures TotalFree(c, first, end) - TotalFree(d, first, end)
         == FreeBytes(c, first, end, t) - FreeBytes(d, first, end, t)
  {
    FreeBytesPrefix(c, d, first, end, first, t);
  }

  lemma TotalSetFree(chain: Chain, first: int, end: int, a: int, free: bool)
    requires Tiled(chain, first, end) && a in chain && a != end && Linked(chain, a) && chain[a].free != free
    ensures Tiled(SetFree(chain, a, free), first, end)
    ensures var n := chain[a].size + OVERHEAD;
            TotalFree(SetFree(chain, a, free), first, end) == TotalFree(chain, first, end) + (if free then n else -n)
  {
    var c := SetFree(chain, a, free);
    TiledSetFree(chain, first, end, a, free);
    NextInside(chain, first, end, a);
    assert c.Keys == chain.Keys;
    TotalFrom(c, chain, first, end, a);
    FreeBytesSame(c, chain, first, end, Next(chain, a));
  }

  /** Merging changes the total by the absorbed block when only one of the two is free. */
  lemma TotalMerge(chain: Chain, first: int, end: int, a: int)
    requires Tiled(chain, first, end) && a in chain && a != end && Linked(chain, a)
    requires Next(chain, a) != end && Linked(chain, Next(chain, a))
    ensures Tiled(Merge(chain, a), first, end)
    ensures var n := chain[Next(chain, a)];
            TotalFree(Merge(chain, a), first, end) == TotalFree(chain, first, end)
              + (if chain[a].free then n.size + OVERHEAD else 0) - (if n.free then n.size + OVERHEAD else 0)
  {
    var c := Merge(chain, a);
    var n := Next(chain, a);
    TiledMerge(chain, first, end, a);
    NextInside(chain, first, end, a);
    NextInside(chain, first, end, n);
    MergeShape(chain, a);
    hide Merge;
    TotalFrom(c, chain, first, end, a);
    FreeBytesSame(c, chain, first, end, Next(chain, n));
  }

  lemma TotalSplit(chain: Chain, first: int, end: int, a: int, size: nat)
    requires Tiled(chain, first, end) && a in chain && a != end && Linked(chain, a) && !chain[a].free
    requires size >= MIN_BLOCK && size % 8 == 0 && size + 16 <= chain[a].size
    ensures Tiled(Split(chain, a, size), first, end)
    ensures TotalFree(Split(chain, a, size), first, end) == TotalFree(chain, first, end) + (chain[a].size - size)
  {
    var c := Split(chain, a, size);
    var n, nn := a + OVERHEAD + size, Next(chain, a);
    TiledSplit(chain, first, end, a, size);
    NextInside(chain, first, end, a);
    TotalFrom(c, chain, first, end, a);
    assert Next(c, a) == n && Next(c, n) == nn;
    FreeBytesSame(c, chain, first, end, nn);
  }

  /** The block that ends where b begins. */
  lemma Predecessor(chain: Chain, first: int, end: int, b: int) returns (p: int)
    requires Tiled(chain, first, end) && b in chain && b != first
    ensures p in chain && p != end && p < b && Next(chain, p) == b && Linked(chain, p)
  {
    p := first;
    assert Linked(chain, p);
    while Next(chain, p) != b
      invariant p in chain && p < b && p != end && Linked(chain, p) && Next(chain, p) <= b
      decreases b - p
    {
      p := Next(chain, p);
      assert Linked(chain, p);
      assert Next(chain, p) <= b;
    }
  }

  // ------------------------------------------------------------ the walk along the pool

  /** The header addresses met walking from a to the sentinel. */
  ghost function Walk(chain: Chain, first: int, end: int, a: int): seq<int>
    requires Tiled(chain, first, end) && a in chain
    decreases end - a
  {
    if a == end then [end]
    else
      NextInside(chain, first, end, a);
      [a] + Walk(chain, first, end, Next(chain, a))
  }

  /** The walk visits every block from a onwards once, each block ending where the next begins. */
  lemma {:induction false} WalkTiles(chain: Chain, first: int, end: int, a: int)
    requires Tiled(chain, first, end) && a in chain
    ensures var w := Walk(chain, first, end, a);
            && |w| > 0 && w[0] == a && w[|w| - 1] == end
            && (forall x | x in w :: x in chain)
            && (forall i: nat | i + 1 < |w| :: w[i + 1] == Next(chain, w[i]))
            && (forall x | x in chain && a <= x :: x in w)
    decreases end - a
  {
    if a != end {
      NextInside(chain, first, end, a);
      var n := Next(chain, a);
      WalkTiles(chain, first, end, n);
      var v, w := Walk(chain, first, end, n), Walk(chain, first, end, a);
      assert w == [a] + v;
      forall i: nat | i + 1 < |w| ensures w[i + 1] == Next(chain, w[i]) {
        if i > 0 { assert v[i] == Next(chain, v[i - 1]); }
      }
      forall x | x in chain && a <= x ensures x in w {
        if x != a { assert Next(chain, a) <= x; assert x in v; }
      }
    }
  }
}
