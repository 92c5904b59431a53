/** What malloc, free and realloc do to the block chain: each keeps the tiling, leaves no two
    neighbouring free blocks, keeps every other live block in place and moves exactly the
    bytes it should between the free blocks and the caller. */
module TlsfPlan {
  import opened TlsfChain

  /** Every live block of c other than b is live in d, with the same size. */
  ghost predicate KeepsLive(c: Chain, d: Chain, b: int) {
    forall p | p in c && !c[p].free && p != b :: p in d && !d[p].free && d[p].size == c[p].size
  }

  ghost predicate Sound(chain: Chain, first: int, end: int) { Tiled(chain, first, end) && Coalesced(chain) }

  lemma KeepsTrans(c: Chain, d: Chain, e: Chain, b: int)
    requires KeepsLive(c, d, b) && KeepsLive(d, e, b)
    ensures KeepsLive(c, e, b)
  {}

  // ---------------------------------------------------------------- primitives

  lemma SetUsed(chain: Chain, first: int, end: int, a: int)
    requires Sound(chain, first, end) && At(chain, first, end, a) && chain[a].free
    ensures var c := SetFree(chain, a, false);
            && Sound(c, first, end) && KeepsLive(chain, c, a) && At(c, first, end, a)
            && c[a].size == chain[a].size && !c[a].free && !c[Next(c, a)].free
            && TotalFree(c, first, end) == TotalFree(chain, first, end) - (chain[a].size + OVERHEAD)
  {
    var c := SetFree(chain, a, false);
    NextInside(chain, first, end, a);
    TotalSetFree(chain, first, end, a, false);
    SetFreeShape(chain, a, false);
    hide SetFree, Tiled;
    forall x | x in c && c[x].free && Next(c, x) in c ensures !c[Next(c, x)].free { assert Next(c, x) == Next(chain, x); }
    AtAgain(c, first, end, a);
  }

  lemma AtAgain(chain: Chain, first: int, end: int, a: int)
    requires Tiled(chain, first, end) && a in chain && a != end
    ensures At(chain, first, end, a)
  {
    NextInside(chain, first, end, a);
  }

  lemma SetReleased(chain: Chain, first: int, end: int, a: int)
    requires Sound(chain, first, end) && At(chain, first, end, a) && !chain[a].free
    requires !chain[Next(chain, a)].free && !chain[a].prevFree
    ensures var c := SetFree(chain, a, true);
            && Sound(c, first, end) && KeepsLive(chain, c, a)
            && TotalFree(c, first, end) == TotalFree(chain, first, end) + (chain[a].size + OVERHEAD)
  {
    var c := SetFree(chain, a, true);
    NextInside(chain, first, end, a);
    TotalSetFree(chain, first, end, a, true);
    SetFreeShape(chain, a, true);
    hide SetFree;
    forall x | x in c && c[x].free && Next(c, x) in c ensures !c[Next(c, x)].free {
      assert Next(c, x) == Next(chain, x);
      if Next(chain, x) == a && x != a {
        if x != end { NextInside(chain, first, end, x); }
      }
    }
  }

  /** A used block absorbs the free block after it. */
  lemma AbsorbFree(chain: Chain, first: int, end: int, a: int)
    requires Sound(chain, first, end) && At(chain, first, end, a) && At(chain, first, end, Next(chain, a))
    requires !chain[a].free && chain[Next(chain, a)].free
    ensures var c := Merge(chain, a);
            && Sound(c, first, end) && KeepsLive(chain, c, a) && At(c, first, end, a)
            && c[a] == chain[a].(size := chain[a].size + OVERHEAD + chain[Next(chain, a)].size)
            && !c[Next(c, a)].free && Next(c, a) == Next(chain, Next(chain, a))
            && TotalFree(c, first, end) == TotalFree(chain, first, end) - (chain[Next(chain, a)].size + OVERHEAD)
  {
    var c, n := Merge(chain, a), Next(chain, a);
    NextInside(chain, first, end, a);
    NextInside(chain, first, end, n);
    TotalMerge(chain, first, end, a);
    MergeShape(chain, a);
    AtAgain(c, first, end, a);
    assert Next(c, a) == Next(chain, n);
    hide Merge, Tiled;
    forall x | x in c && c[x].free && Next(c, x) in c ensures !c[Next(c, x)].free { assert Next(c, x) == Next(chain, x); }
  }

  /** A free block absorbs the used block after it. */
  lemma AbsorbUsed(chain: Chain, first: int, end: int, a: int)
    requires Sound(chain, first, end) && At(chain, first, end, a) && At(chain, first, end, Next(chain, a))
    requires chain[a].free && !chain[Next(chain, a)].free && !chain[Next(chain, Next(chain, a))].free
    ensures var c := Merge(chain, a);
            && Sound(c, first, end) && KeepsLive(chain, c, Next(chain, a))
            && TotalFree(c, first, end) == TotalFree(chain, first, end) + (chain[Next(chain, a)].size + OVERHEAD)
  {
    var c, n := Merge(chain, a), Next(chain, a);
    NextInside(chain, first, end, a);
    NextInside(chain, first, end, n);
    TotalMerge(chain, first, end, a);
    MergeShape(chain, a);
    assert Next(c, a) == Next(chain, n);
    hide Merge, Tiled;
    forall x | x in c && c[x].free && Next(c, x) in c ensures !c[Next(c, x)].free {
      if x != a { assert Next(c, x) == Next(chain, x); }
    }
  }

  lemma CutUsed(chain: Chain, first: int, end: int, a: int, size: nat)
    requires Sound(chain, first, end) && At(chain, first, end, a) && !chain[a].free && !chain[Next(chain, a)].free
    requires size >= MIN_BLOCK && size % 8 == 0 && size + 16 <= chain[a].size
    ensures var c := Split(chain, a, size);
            && Sound(c, first, end) && KeepsLive(chain, c, a)
            && a in c && c[a] == Block(size, false, chain[a].prevFree)
            && TotalFree(c, first, end) == TotalFree(chain, first, end) + (chain[a].size - size)
  {
    var c, n := Split(chain, a, size), a + OVERHEAD + size;
    NextInside(chain, first, end, a);
    TiledSplit(chain, first, end, a, size);
    TotalSplit(chain, first, end, a, size);
    SplitShape(chain, a, size);
    assert Next(c, n) == Next(chain, a);
    hide Split, Tiled;
    forall x | x in c && c[x].free && Next(c, x) in c ensures !c[Next(c, x)].free {
      if x != n {
        assert Next(c, x) == Next(chain, x);
        FreeNextIn(chain, first, end, x);
      }
    }
  }

  lemma FreeNextIn(chain: Chain, first: int, end: int, x: int)
    requires Tiled(chain, first, end) && x in chain && chain[x].free
    ensures Next(chain, x) in chain
  {
    NextInside(chain, first, end, x);
  }

  // ---------------------------------------------------------------- malloc

  /** b is handed out with n bytes; a remainder that can hold a header becomes a free block. */
  function Allocated(chain: Chain, b: int, n: nat): Chain
    requires b in chain && Next(chain, b) in chain && n <= chain[b].size
  {
    var c := SetFree(chain, b, false);
    if chain[b].size - n >= 16 then Split(c, b, n) else c
  }

  lemma AllocatedOk(chain: Chain, first: int, end: int, b: int, n: nat)
    requires Sound(chain, first, end) && At(chain, first, end, b) && chain[b].free
    requires n >= MIN_BLOCK && n % 8 == 0 && n <= chain[b].size
    ensures var c := Allocated(chain, b, n);
            && Sound(c, first, end) && KeepsLive(chain, c, b)
            && b in c && !c[b].free && n <= c[b].size <= n + 8
            && TotalFree(c, first, end) == TotalFree(chain, first, end) - (c[b].size + OVERHEAD)
  {
    hide Sound, Split, SetFree, KeepsLive;
    SetUsed(chain, first, end, b);
    if chain[b].size - n >= 16 {
      CutUsed(SetFree(chain, b, false), first, end, b, n);
      KeepsTrans(chain, SetFree(chain, b, false), Allocated(chain, b, n), b);
    }
  }

  // ---------------------------------------------------------------- realloc in place

  /** b together with a free block after it. */
  function Widened(chain: Chain, b: int): Chain
    requires b in chain && Next(chain, b) in chain
  {
    if chain[Next(chain, b)].free then Merge(chain, b) else chain
  }

  function Resized(chain: Chain, b: int, n: nat): Chain
    requires b in chain && Next(chain, b) in chain
    requires b in Widened(chain, b) && Next(Widened(chain, b), b) in Widened(chain, b) && n <= Widened(chain, b)[b].size
  {
    var c := Widened(chain, b);
    if c[b].size - n >= 16 then Split(c, b, n) else c
  }

  lemma WidenedOk(chain: Chain, first: int, end: int, b: int)
    requires Sound(chain, first, end) && At(chain, first, end, b) && !chain[b].free
    ensures var c, n := Widened(chain, b), Next(chain, b);
            && Sound(c, first, end) && KeepsLive(chain, c, b) && At(c, first, end, b)
            && c[b] == chain[b].(size := if chain[n].free then chain[b].size + OVERHEAD + chain[n].size else chain[b].size)
            && !c[Next(c, b)].free
            && TotalFree(c, first, end) == TotalFree(chain, first, end) - (c[b].size - chain[b].size)
  {
    var n := Next(chain, b);
    if chain[n].free {
      AtAgain(chain, first, end, n);
      hide Sound, Merge, KeepsLive;
      AbsorbFree(chain, first, end, b);
    }
  }

  lemma ResizedOk(chain: Chain, first: int, end: int, b: int, n: nat)
    requires Sound(chain, first, end) && At(chain, first, end, b) && !chain[b].free
    requires n >= MIN_BLOCK && n % 8 == 0
    requires b in Widened(chain, b) && Next(Widened(chain, b), b) in Widened(chain, b) && n <= Widened(chain, b)[b].size
    ensures var c := Resized(chain, b, n);
            && Sound(c, first, end) && KeepsLive(chain, c, b)
            && b in c && !c[b].free && n <= c[b].size <= n + 8
            && TotalFree(c, first, end) == TotalFree(chain, first, end) - (c[b].size - chain[b].size)
  {
    hide Sound, Split, Widened, KeepsLive;
    WidenedOk(chain, first, end, b);
    SizeMultiple(Widened(chain, b), first, end, b);
    if Widened(chain, b)[b].size - n >= 16 {
      CutUsed(Widened(chain, b), first, end, b, n);
      KeepsTrans(chain, Widened(chain, b), Resized(chain, b, n), b);
    }
  }

  lemma SizeMultiple(chain: Chain, first: int, end: int, b: int)
    requires At(chain, first, end, b)
    ensures chain[b].size % 8 == 0
  {}

  // ---------------------------------------------------------------- free

  /** b is given back and joined with free neighbours; p is the block before b. */
  function Released(chain: Chain, b: int, p: int): Chain
    requires b in chain && Next(chain, b) in chain && b in Widened(chain, b) && Next(Widened(chain, b), b) in Widened(chain, b)
    requires chain[b].prevFree ==> p in Widened(chain, b) && Next(Widened(chain, b), p) == b
  {
    var c := Widened(chain, b);
    if chain[b].prevFree then Merge(c, p) else SetFree(c, b, true)
  }

  lemma ReleasedOk(chain: Chain, first: int, end: int, b: int, p: int)
    requires Sound(chain, first, end) && At(chain, first, end, b) && !chain[b].free
    requires chain[b].prevFree ==> p in chain && chain[p].free && Next(chain, p) == b
    ensures var w := Widened(chain, b);
            && b in w && Next(w, b) in w && (chain[b].prevFree ==> p in w && Next(w, p) == b)
    ensures var c := Released(chain, b, p);
            && Sound(c, first, end) && KeepsLive(chain, c, b)
            && TotalFree(c, first, end) == TotalFree(chain, first, end) + (chain[b].size + OVERHEAD)
  {
    var w := Widened(chain, b);
    WidenedOk(chain, first, end, b);
    WidenedPrevious(chain, first, end, b, p);
    hide Widened, KeepsLive;
    if chain[b].prevFree {
      AtAgain(w, first, end, p);
      hide Sound, Merge, SetFree;
      AbsorbUsed(w, first, end, p);
      KeepsTrans(chain, w, Merge(w, p), b);
    } else {
      hide Sound, Merge, SetFree;
      SetReleased(w, first, end, b);
      KeepsTrans(chain, w, SetFree(w, b, true), b);
    }
  }

  lemma WidenedPrevious(chain: Chain, first: int, end: int, b: int, p: int)
    requires Sound(chain, first, end) && At(chain, first, end, b) && !chain[b].free
    requires chain[b].prevFree ==> p in chain && chain[p].free && Next(chain, p) == b
    ensures chain[b].prevFree ==>
              && p in Widened(chain, b) && p != end && p < b
              && Widened(chain, b)[p] == chain[p] && Next(Widened(chain, b), p) == b
  {
    if chain[b].prevFree {
      NextInside(chain, first, end, p);
      if chain[Next(chain, b)].free {
        NextInside(chain, first, end, Next(chain, b));
        MergeShape(chain, b);
        NextInside(chain, first, end, b);
      }
    }
  }
}
