/** What single header writes and chain rearrangements do to the agreement between the pool
    words and the chain. */
module TlsfSteps {
  import opened Words
  import opened TlsfIndex
  import opened TlsfChain
  import opened TlsfLists
  import opened TlsfState

  // ---------------------------------------------------------------- single writes

  /** Writing the size word of h concerns only h's header. */
  lemma SizeWrite(mem: Mem, chain: Chain, first: int, end: int, skip: set<int>, h: int, v: int)
    requires Tiled(chain, first, end) && h in chain && HeadsBut(mem, chain, skip)
    ensures HeadsBut(mem[h + 4 := v], chain, skip + {h})
    ensures OnlyHeaders(mem, mem[h + 4 := v], {h})
  {
    TiledSpaced(chain, first, end);
    var m := mem[h + 4 := v];
    forall a | a in chain && a !in skip + {h} ensures HeadAt(m, chain, a) {
      assert HeadAt(mem, chain, a);
      if a != end { NextInside(chain, first, end, a); }
    }
  }

  /** Writing the back pointer of a's successor concerns only a's header. */
  lemma BackWrite(mem: Mem, chain: Chain, first: int, end: int, skip: set<int>, a: int, v: int)
    requires At(chain, first, end, a) && HeadsBut(mem, chain, skip)
    ensures HeadsBut(mem[Next(chain, a) := v], chain, skip + {a})
    ensures OnlyHeaders(mem, mem[Next(chain, a) := v], {Next(chain, a)})
  {
    var n := Next(chain, a);
    TiledSpaced(chain, first, end);
    NextInside(chain, first, end, a);
    var m := mem[n := v];
    forall x | x in chain && x !in skip + {a} ensures HeadAt(m, chain, x) {
      assert HeadAt(mem, chain, x);
      if x != end { Successors(chain, first, end, a, x); }
    }
  }

  lemma HeadsClosed(mem: Mem, chain: Chain, skip: set<int>, a: int)
    requires HeadsBut(mem, chain, skip) && a in chain && HeadAt(mem, chain, a)
    ensures HeadsBut(mem, chain, skip - {a})
  {}

  lemma HeadsWiden(mem: Mem, chain: Chain, skip: set<int>, skip2: set<int>)
    requires HeadsBut(mem, chain, skip) && skip <= skip2
    ensures HeadsBut(mem, chain, skip2)
  {}

  // ---------------------------------------------------------------- chain rearrangements

  lemma MergeHeads(mem: Mem, chain: Chain, first: int, end: int, a: int, skip: set<int>)
    requires At(chain, first, end, a) && At(chain, first, end, Next(chain, a)) && HeadsBut(mem, chain, skip)
    ensures HeadsBut(mem, Merge(chain, a), skip + {a, Next(chain, Next(chain, a))})
  {
    var c, n := Merge(chain, a), Next(chain, a);
    NextInside(chain, first, end, a);
    NextInside(chain, first, end, n);
    MergeShape(chain, a);
    hide Merge, Tiled;
    forall x | x in c && x !in skip + {a, Next(chain, n)} ensures HeadAt(mem, c, x) { assert HeadAt(mem, chain, x); }
  }

  lemma SetFreeHeads(mem: Mem, chain: Chain, first: int, end: int, a: int, free: bool, skip: set<int>)
    requires At(chain, first, end, a) && HeadsBut(mem, chain, skip)
    ensures HeadsBut(mem, SetFree(chain, a, free), skip + {a, Next(chain, a)})
  {
    var c := SetFree(chain, a, free);
    SetFreeShape(chain, a, free);
    hide SetFree, Tiled;
    forall x | x in c && x !in skip + {a, Next(chain, a)} ensures HeadAt(mem, c, x) { assert HeadAt(mem, chain, x); }
  }

  /** The headers of the two parts of a split block, and of the block after it. */
  lemma SplitHeads(mem: Mem, mem2: Mem, chain: Chain, first: int, end: int, a: int, size: nat)
    requires At(chain, first, end, a) && !chain[a].free && !chain[Next(chain, a)].free
    requires size >= MIN_BLOCK && size % 8 == 0 && size + 16 <= chain[a].size
    requires HeadsBut(mem, chain, {a, Next(chain, a)})
    requires var n, nn := a + OVERHEAD + size, Next(chain, a);
             && OnlyHeaders(mem, mem2, {n, nn})
             && Rd(mem2, n + 4) == chain[a].size - size - OVERHEAD + 1 && Rd(mem2, nn) == n
             && Rd(mem2, nn + 4) == Encoded(chain[nn].(prevFree := true))
    ensures HeadsBut(mem2, Split(chain, a, size), {a})
  {
    var c, n, nn := Split(chain, a, size), a + OVERHEAD + size, Next(chain, a);
    NextInside(chain, first, end, a);
    TiledSplit(chain, first, end, a, size);
    TiledSpaced(c, first, end);
    SplitShape(chain, a, size);
    hide Split;
    forall x | x in c && x != a ensures HeadAt(mem2, c, x) {
      if x == n {
        assert Next(c, n) == nn;
      } else if x != nn {
        assert HeadAt(mem, chain, x);
        HeaderKept(mem, mem2, {n, nn}, c.Keys, x);
        if chain[x].free {
          NextInside(chain, first, end, x);
          Successors(chain, first, end, a, x);
          HeaderKept(mem, mem2, {n, nn}, c.Keys, Next(chain, x));
        }
      }
    }
  }

  // ---------------------------------------------------------------- agreement

  lemma MergeAgree(chain: Chain, first: int, end: int, lists: Lists, a: int)
    requires At(chain, first, end, a) && At(chain, first, end, Next(chain, a))
    requires Agree(chain, lists, {if chain[Next(chain, a)].free then Next(chain, a) else a})
    requires chain[a].free != chain[Next(chain, a)].free
    ensures Agree(Merge(chain, a), lists, if chain[a].free then {a} else {})
  {
    NextInside(chain, first, end, Next(chain, a));
    MergeShape(chain, a);
    hide Merge, Tiled, BlockClass;
    AgreeChange(chain, Merge(chain, a), lists, {if chain[Next(chain, a)].free then Next(chain, a) else a},
                if chain[a].free then {a} else {});
  }

  lemma SetFreeAgree(chain: Chain, first: int, end: int, lists: Lists, a: int, free: bool)
    requires At(chain, first, end, a) && chain[a].free != free
    requires Agree(chain, lists, if free then {} else {a})
    ensures Agree(SetFree(chain, a, free), lists, if free then {a} else {})
  {
    SetFreeShape(chain, a, free);
    hide SetFree, Tiled, BlockClass;
    AgreeChange(chain, SetFree(chain, a, free), lists, if free then {} else {a}, if free then {a} else {});
  }

  lemma SplitAgree(chain: Chain, first: int, end: int, lists: Lists, a: int, size: nat)
    requires At(chain, first, end, a) && !chain[a].free && Agree(chain, lists, {})
    requires size >= MIN_BLOCK && size % 8 == 0 && size + 16 <= chain[a].size
    ensures Agree(Split(chain, a, size), lists, {a + OVERHEAD + size})
  {
    TiledSplit(chain, first, end, a, size);
    SplitShape(chain, a, size);
    hide Split, Tiled, BlockClass;
    AgreeChange(chain, Split(chain, a, size), lists, {}, {a + OVERHEAD + size});
  }

  // ---------------------------------------------------------------- flag arithmetic

  function WithPrev(w: int): int { if PrevBit(w) then w else w + 2 }
  function WithoutPrev(w: int): int { if PrevBit(w) then w - 2 else w }
  function WithFree(w: int): int { if FreeBit(w) then w else w + 1 }
  function WithoutFree(w: int): int { if FreeBit(w) then w - 1 else w }

  lemma FlagWrites(b: Block)
    requires b.size % 8 == 0
    ensures WithPrev(Encoded(b)) == Encoded(b.(prevFree := true))
    ensures WithoutPrev(Encoded(b)) == Encoded(b.(prevFree := false))
    ensures WithFree(Encoded(b)) == Encoded(b.(free := true))
    ensures WithoutFree(Encoded(b)) == Encoded(b.(free := false))
  {
    Decode(b);
    Decode(b.(free := true));
    Decode(b.(prevFree := true));
  }
}
