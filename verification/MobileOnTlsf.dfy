/** What mobile memory asks of its allocator, and that TLSF provides it
    (runtime/libtvm/tvm_mem.h:118-136). */
module MobileOnTlsf {
  import opened Words
  import MobileState
  import MobileClone
  import MobileRelease
  import opened TlsfChain
  import opened TlsfLists
  import opened TlsfState
  import opened TlsfPlan
  import opened TlsfView
  import opened TlsfOps

  /** A mobile heap in a TLSF pool: its blocks are payloads of live blocks, with the same cells. */
  ghost predicate Backs(v: View, h: MobileState.Heap) {
    && (forall p | p in h.blocks :: Payload(v, p) && h.blocks[p] <= v.chain[p - OVERHEAD].size)
    && (forall a | MobileState.Live(h, a) :: Rd(v.mem, a) == MobileState.At(h, a))
  }

  ghost predicate Payload(v: View, p: int) {
    p - OVERHEAD in v.chain && !v.chain[p - OVERHEAD].free && p - OVERHEAD != v.end
  }

  /** Blocks of a heap in a consistent pool do not overlap. */
  lemma BackedApart(v: View, h: MobileState.Heap)
    requires Holds(v, {}, {}) && forall p | p in h.blocks :: Payload(v, p) && h.blocks[p] <= v.chain[p - OVERHEAD].size
    ensures MobileState.Apart(h)
  {
    hide Holds;
    forall p | p in h.blocks ensures p > 0 { PayloadInside(v, p); }
    forall p, q, a | MobileState.InBlock(h, p, a) && MobileState.InBlock(h, q, a) ensures p == q {
      LiveDisjoint(v, p - OVERHEAD, q - OVERHEAD);
    }
  }

  lemma PayloadInside(v: View, p: int)
    requires Holds(v, {}, {}) && Payload(v, p)
    ensures p > 0
  {
    hide ListsOk, Distinct, BitsOk, Agree, HeadsBut;
    LiveDisjoint(v, p - OVERHEAD, p - OVERHEAD);
  }

  /** What tlsf_malloc hands out is a fresh block for mobile memory: m is h with that block. */
  lemma MallocIsFresh(v: View, w: View, h: MobileState.Heap, m: MobileState.Heap, b: int, r: nat, n: nat, size: nat)
    requires Holds(v, {}, {}) && Holds(w, {}, {}) && Provided(v, w, b, r, n) && Backs(v, h) && size <= r
    requires m.blocks == h.blocks[b + OVERHEAD := size]
    requires forall a | MobileState.Live(m, a) :: Rd(w.mem, a) == MobileState.At(m, a)
    ensures Backs(w, m) && MobileClone.Fresh(h, m, b + OVERHEAD, size)
  {
    hide Holds, GoodFit, Allocated, MobileState.Live, MobileState.Apart;
    var p := b + OVERHEAD;
    FitIsFree(v, b, n);
    assert p !in h.blocks;
    forall q | q in m.blocks ensures Payload(w, q) && m.blocks[q] <= w.chain[q - OVERHEAD].size {
      if q != p { assert Payload(v, q); }
    }
    BackedApart(w, m);
    PayloadInside(w, p);
    forall a | MobileState.Live(h, a) ensures MobileState.At(m, a) == MobileState.At(h, a) {
      KeptCell(v, w, h, b, a);
      StillLive(h, m, p, a);
    }
  }

  lemma FitIsFree(v: View, b: int, n: nat)
    requires Holds(v, {}, {}) && GoodFit(v.chain, b, n)
    ensures b in v.chain && v.chain[b].free && b != v.end
  {
    hide ListsOk, Distinct, BitsOk, Agree, HeadsBut;
  }

  lemma StillLive(h: MobileState.Heap, m: MobileState.Heap, p: int, a: int)
    requires MobileState.Live(h, a) && p !in h.blocks && forall q | q in h.blocks :: q in m.blocks && m.blocks[q] == h.blocks[q]
    ensures MobileState.Live(m, a)
  {
    var q :| MobileState.InBlock(h, q, a);
    assert MobileState.InBlock(m, q, a);
  }

  /** The cells of a block other than b are the same in w. */
  lemma KeptCell(v: View, w: View, h: MobileState.Heap, b: int, a: int)
    requires Backs(v, h) && b + OVERHEAD !in h.blocks && PayloadsKept(v.mem, w.mem, v.chain, b) && MobileState.Live(h, a)
    ensures Rd(w.mem, a) == MobileState.At(h, a)
  {
    var q :| MobileState.InBlock(h, q, a);
    assert Payload(v, q) && PayloadSame(v.mem, w.mem, q - OVERHEAD, v.chain[q - OVERHEAD].size);
  }

  /** What tlsf_free takes back is a block freed for mobile memory: m is h without that block. */
  lemma FreeIsFreed(v: View, w: View, h: MobileState.Heap, m: MobileState.Heap, b: int)
    requires Holds(v, {}, {}) && GivenBack(v, w, b) && Backs(v, h) && b + OVERHEAD in h.blocks
    requires m.blocks == h.blocks - {b + OVERHEAD}
    requires forall a | MobileState.Live(m, a) :: Rd(w.mem, a) == MobileState.At(m, a)
    ensures Backs(w, m) && MobileRelease.Freed(h, m, b + OVERHEAD)
  {
    hide Holds, Widened, Released, MobileState.Live;
    forall q | q in m.blocks ensures Payload(w, q) && m.blocks[q] <= w.chain[q - OVERHEAD].size { assert Payload(v, q); }
    forall a | MobileState.Live(m, a) ensures MobileState.At(m, a) == MobileState.At(h, a) { OtherCell(v, w, h, m, b, a); }
  }

  lemma OtherCell(v: View, w: View, h: MobileState.Heap, m: MobileState.Heap, b: int, a: int)
    requires Backs(v, h) && m.blocks == h.blocks - {b + OVERHEAD} && PayloadsKept(v.mem, w.mem, v.chain, b) && MobileState.Live(m, a)
    ensures MobileState.Live(h, a) && Rd(w.mem, a) == MobileState.At(h, a)
  {
    var q :| MobileState.InBlock(m, q, a);
    assert MobileState.InBlock(h, q, a);
    assert Payload(v, q) && PayloadSame(v.mem, w.mem, q - OVERHEAD, v.chain[q - OVERHEAD].size);
  }

  /** Writing a cell of a block keeps the pool consistent. */
  lemma StoreIsBacked(v: View, h: MobileState.Heap, p: int, a: int, x: nat)
    requires Holds(v, {}, {}) && Backs(v, h) && MobileState.InBlock(h, p, a)
    ensures var w := v.(mem := v.mem[a := x]); Holds(w, {}, {}) && Backs(w, MobileClone.Put(h, a, x))
  {
    hide Holds, MobileState.Live;
    var b := p - OVERHEAD;
    assert Payload(v, p);
    PayloadAt(v, p);
    PayloadWrite(v, v.mem[a := x], b, v.chain[b].size);
    MobileClone.SameBlocks(h, MobileClone.Put(h, a, x));
    SameLives(h, a, x);
  }

  lemma PayloadAt(v: View, p: int)
    requires Holds(v, {}, {}) && Payload(v, p)
    ensures At(v.chain, v.first, v.end, p - OVERHEAD)
  {
    hide ListsOk, Distinct, BitsOk, Agree, HeadsBut;
  }

  lemma SameLives(h: MobileState.Heap, a: int, x: nat)
    ensures forall c :: MobileState.Live(MobileClone.Put(h, a, x), c) <==> MobileState.Live(h, c)
  {
    var m := MobileClone.Put(h, a, x);
    MobileClone.SameBlocks(h, m);
    hide MobileState.InBlock;
  }
}
