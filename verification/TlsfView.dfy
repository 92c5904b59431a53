/** The state of a pool as one value, what it means for it to be consistent, and what each
    list operation and header write of the allocator makes of it. */
module TlsfView {
  import opened Words
  import opened TlsfIndex
  import opened TlsfChain
  import opened TlsfLists
  import opened TlsfState
  import opened TlsfSteps
  import opened TlsfPlan

  /** mem, matrix and the bitmaps are the C structure; chain, lists and the pool's bounds say
      what they represent. */
  datatype View = View(mem: Mem, matrix: seq<int>, slb: seq<Word>, flb: Word,
                       chain: Chain, lists: Lists, first: int, end: int)

  /** The chain tiles the pool, the headers outside skipH describe it, and the index lists
      exactly the free blocks outside skipA. */
  ghost predicate Holds(v: View, skipA: set<int>, skipH: set<int>) {
    && Shape(v)
    && ListsOk(v.mem, v.matrix, v.lists) && Distinct(v.lists) && BitsOk(v.slb, v.flb, v.lists)
    && Agree(v.chain, v.lists, skipA)
    && HeadsBut(v.mem, v.chain, skipH)
  }

  ghost predicate Shape(v: View) { 0 < v.first && v.end - v.first <= MAX_SIZE && Tiled(v.chain, v.first, v.end) }

  /** The payload of every live block of chain is the same. */
  ghost predicate LivePayloads(mem: Mem, mem2: Mem, chain: Chain) {
    forall p | p in chain && !chain[p].free :: PayloadSame(mem, mem2, p, chain[p].size)
  }

  ghost predicate SameHeads(mem: Mem, mem2: Mem, chain: Chain) {
    forall a | a in chain :: Rd(mem2, a) == Rd(mem, a) && Rd(mem2, a + 4) == Rd(mem, a + 4)
  }

  lemma LiveTrans(m1: Mem, m2: Mem, m3: Mem, chain: Chain)
    requires LivePayloads(m1, m2, chain) && LivePayloads(m2, m3, chain)
    ensures LivePayloads(m1, m3, chain)
  {
    forall p | p in chain && !chain[p].free ensures PayloadSame(m1, m3, p, chain[p].size) {
      assert PayloadSame(m1, m2, p, chain[p].size) && PayloadSame(m2, m3, p, chain[p].size);
    }
  }

  ghost predicate FreeNodes(t: set<int>, chain: Chain) { forall a | a in t :: a in chain && chain[a].free }

  /** Link writes to free blocks leave headers and live payloads alone. */
  lemma LinkWrites(v: View, m2: Mem, t: set<int>, skipH: set<int>)
    requires Shape(v) && OnlyLinks(v.mem, m2, t) && FreeNodes(t, v.chain) && HeadsBut(v.mem, v.chain, skipH)
    ensures HeadsBut(m2, v.chain, skipH) && LivePayloads(v.mem, m2, v.chain) && SameHeads(v.mem, m2, v.chain)
  {
    var c := v.chain;
    TiledSpaced(c, v.first, v.end);
    forall a | a in t ensures a in c.Keys {}
    LinksKeepHeads(v.mem, m2, t, c, v.first, v.end, skipH);
    forall p | p in c && !c[p].free ensures PayloadSame(v.mem, m2, p, c[p].size) {
      PayloadMissed(v.mem, m2, t, {}, c, v.first, v.end, p);
    }
    forall a | a in c ensures Rd(m2, a) == Rd(v.mem, a) && Rd(m2, a + 4) == Rd(v.mem, a + 4) {
      NodeUntouched(v.mem, m2, t, c.Keys, a);
    }
  }

  lemma NodesInChain(v: View, skipA: set<int>)
    requires Shape(v) && Agree(v.chain, v.lists, skipA)
    ensures NodesIn(v.lists, v.chain.Keys) && Spaced(v.chain.Keys)
    ensures forall a | a in v.chain :: a > 0
  {
    TiledSpaced(v.chain, v.first, v.end);
    forall c: nat, i: nat | c < |v.lists| && i < |v.lists[c]| ensures v.lists[c][i] in v.chain.Keys {
      assert Member(v.chain, skipA, c, v.lists[c][i]);
    }
  }

  /** Header writes to blocks of the chain leave the index and live payloads alone. */
  lemma HeaderWrites(v: View, m2: Mem, hs: set<int>, skipA: set<int>)
    requires Shape(v) && ListsOk(v.mem, v.matrix, v.lists) && Agree(v.chain, v.lists, skipA)
    requires OnlyHeaders(v.mem, m2, hs) && hs <= v.chain.Keys
    ensures ListsOk(m2, v.matrix, v.lists) && LivePayloads(v.mem, m2, v.chain)
  {
    var c := v.chain;
    NodesInChain(v, skipA);
    HeadersKeepLists(v.mem, m2, hs, c.Keys, v.matrix, v.lists);
    forall p | p in c && !c[p].free ensures PayloadSame(v.mem, m2, p, c[p].size) {
      PayloadMissed(v.mem, m2, {}, hs, c, v.first, v.end, p);
    }
  }

  // ---------------------------------------------------------------- INSERT_BLOCK

  function Pushed(v: View, b: int, fl: nat, sl: nat): View
    requires fl < REAL_FLI && sl < 32 && |v.matrix| == |v.lists| == CLASSES && |v.slb| == REAL_FLI
  {
    var c := 32 * fl + sl;
    v.(mem := PushMem(v.mem, b, v.matrix[c]), matrix := v.matrix[c := b],
       slb := v.slb[fl := SetBit(sl, v.slb[fl])], flb := SetBit(fl, v.flb),
       lists := v.lists[c := [b] + v.lists[c]])
  }

  lemma PushedHolds(v: View, b: int, fl: nat, sl: nat, skipH: set<int>)
    requires Holds(v, {b}, skipH) && b in v.chain && v.chain[b].free
    requires fl < REAL_FLI && sl < 32 && BlockClass(v.chain[b]) == 32 * fl + sl
    ensures var w := Pushed(v, b, fl, sl);
            Holds(w, {}, skipH) && LivePayloads(v.mem, w.mem, v.chain) && SameHeads(v.mem, w.mem, v.chain)
  {
    hide Bit, SetBit, BlockClass, Tiled, HeadsBut;
    var c := 32 * fl + sl;
    var h := v.matrix[c];
    AgreePush(v.chain, v.lists, b);
    NodesInChain(v, {b});
    PushLists(v.mem, v.matrix, v.lists, c, b, v.chain.Keys);
    PushDistinct(v.lists, c, b);
    BitsSet(v.slb, v.flb, v.lists, fl, sl, [b] + v.lists[c]);
    PushLinks(v.mem, b, h);
    HeadIsMember(v, c, {b});
    LinkWrites(v, PushMem(v.mem, b, h), if h != 0 then {b, h} else {b}, skipH);
  }

  lemma HeadIsMember(v: View, c: nat, skipA: set<int>)
    requires ListsOk(v.mem, v.matrix, v.lists) && Agree(v.chain, v.lists, skipA) && c < CLASSES
    ensures v.matrix[c] != 0 ==> v.lists[c] != [] && v.lists[c][0] == v.matrix[c] && Member(v.chain, skipA, c, v.matrix[c])
    ensures v.lists[c] != [] ==> v.matrix[c] == v.lists[c][0] != 0
  {
    assert ListAt(v.mem, v.matrix[c], v.lists[c]);
    if v.lists[c] != [] { assert NodeOk(v.mem, v.lists[c], 0); assert Member(v.chain, skipA, c, v.lists[c][0]); }
  }

  // ---------------------------------------------------------------- EXTRACT_BLOCK

  /** List (fl, sl) with its node k unlinked. */
  function Unlinked(v: View, k: nat, fl: nat, sl: nat): View
    requires fl < REAL_FLI && sl < 32 && |v.matrix| == |v.lists| == CLASSES && |v.slb| == REAL_FLI
    requires k < |v.lists[32 * fl + sl]|
  {
    var c := 32 * fl + sl;
    var s := v.lists[c];
    var rest := Drop(s, k);
    var slb := if rest == [] then v.slb[fl := ClearBit(sl, v.slb[fl])] else v.slb;
    v.(mem := UnlinkMem(v.mem, s[k], PrevIn(s, k), NextIn(s, k)), matrix := v.matrix[c := HeadOf(rest)],
       slb := slb, flb := if rest == [] && slb[fl] == 0 then ClearBit(fl, v.flb) else v.flb,
       lists := v.lists[c := rest])
  }

  /** The neighbours of a listed block, as its link words record them. */
  lemma LinkWords(v: View, c: nat, k: nat, skipH: set<int>)
    requires Holds(v, {}, skipH) && c < CLASSES && k < |v.lists[c]|
    ensures var s := v.lists[c];
            var b, p, n := s[k], PrevIn(s, k), NextIn(s, k);
            && Rd(v.mem, LinkNext(b)) == n && Rd(v.mem, LinkPrev(b)) == p
            && (v.matrix[c] == b <==> k == 0) && p != b && n != b
            && HeadOf(Drop(s, k)) == (if k == 0 then n else v.matrix[c])
            && FreeNodes(UnlinkNodes(b, p, n), v.chain) && Member(v.chain, {}, c, b)
            && (k == 0 ==> p == 0) && (Drop(s, k) == [] <==> k == 0 && n == 0)
  {
    var s := v.lists[c];
    NodesInChain(v, {});
    assert ListAt(v.mem, v.matrix[c], s);
    assert NodeOk(v.mem, s, k) && NodeOk(v.mem, s, 0);
    assert Member(v.chain, {}, c, s[k]);
    ProperList(v.mem, v.matrix, v.lists, c, v.chain.Keys);
    if k > 0 { assert Member(v.chain, {}, c, s[k - 1]); }
    if k + 1 < |s| { assert Member(v.chain, {}, c, s[k + 1]); }
  }

  lemma UnlinkedHolds(v: View, k: nat, fl: nat, sl: nat, skipH: set<int>)
    requires Holds(v, {}, skipH) && fl < REAL_FLI && sl < 32 && k < |v.lists[32 * fl + sl]|
    ensures var w := Unlinked(v, k, fl, sl);
            && Holds(w, {v.lists[32 * fl + sl][k]}, skipH)
            && LivePayloads(v.mem, w.mem, v.chain) && SameHeads(v.mem, w.mem, v.chain)
  {
    hide Bit, ClearBit, BlockClass, Tiled, HeadsBut;
    var c := 32 * fl + sl;
    var s := v.lists[c];
    var b, p, n := s[k], PrevIn(s, k), NextIn(s, k);
    NodesInChain(v, {});
    LinkWords(v, c, k, skipH);
    UnlinkLists(v.mem, v.matrix, v.lists, c, k, v.chain.Keys);
    DropDistinct(v.lists, c, k);
    AgreeDrop(v.chain, v.lists, c, k);
    UnlinkLinks(v.mem, b, p, n);
    LinkWrites(v, UnlinkMem(v.mem, b, p, n), UnlinkNodes(b, p, n), skipH);
    if Drop(s, k) == [] {
      BitsCleared(v.slb, v.flb, v.lists, fl, sl);
    } else {
      BitsSame(v.slb, v.flb, v.lists, c, Drop(s, k));
    }
  }

  // ---------------------------------------------------------------- headers

  function SizeWritten(v: View, h: int, w: int): View { v.(mem := v.mem[h + 4 := w]) }

  /** Writing the size word of h; h's header is right afterwards when w encodes its block. */
  lemma SizeWrittenHolds(v: View, h: int, w: int, skipA: set<int>, skipH: set<int>)
    requires Holds(v, skipA, skipH) && h in v.chain
    ensures Holds(SizeWritten(v, h, w), skipA, skipH + {h})
    ensures w == Encoded(v.chain[h]) && !v.chain[h].free ==> Holds(SizeWritten(v, h, w), skipA, skipH - {h})
    ensures LivePayloads(v.mem, SizeWritten(v, h, w).mem, v.chain)
  {
    hide Tiled, BitsOk, Agree, Distinct;
    var m := v.mem[h + 4 := w];
    SizeWrite(v.mem, v.chain, v.first, v.end, skipH, h, w);
    HeaderWrites(v, m, {h}, skipA);
    if w == Encoded(v.chain[h]) && !v.chain[h].free {
      assert HeadAt(m, v.chain, h);
      HeadsClosed(m, v.chain, skipH + {h}, h);
      assert skipH + {h} - {h} == skipH - {h};
    }
  }

  function BackLinked(v: View, n: int, p: int): View { v.(mem := v.mem[n := p]) }

  /** Writing the back pointer of the block after a. */
  lemma BackLinkedHolds(v: View, a: int, skipA: set<int>, skipH: set<int>)
    requires Holds(v, skipA, skipH) && At(v.chain, v.first, v.end, a)
    ensures var w := BackLinked(v, Next(v.chain, a), a);
            && Holds(w, skipA, skipH + {a}) && LivePayloads(v.mem, w.mem, v.chain)
            && (Rd(w.mem, a + 4) == Encoded(v.chain[a]) ==> Holds(w, skipA, skipH - {a}))
            && Rd(w.mem, a + 4) == Rd(v.mem, a + 4)
  {
    hide BitsOk, Agree, Distinct;
    var n := Next(v.chain, a);
    var m := v.mem[n := a];
    NextInside(v.chain, v.first, v.end, a);
    hide Tiled;
    BackWrite(v.mem, v.chain, v.first, v.end, skipH, a, a);
    HeaderWrites(v, m, {n}, skipA);
    if Rd(m, a + 4) == Encoded(v.chain[a]) {
      assert HeadAt(m, v.chain, a);
      HeadsClosed(m, v.chain, skipH + {a}, a);
      assert skipH + {a} - {a} == skipH - {a};
    }
  }

  // ---------------------------------------------------------------- splitting

  /** b is used, and its header and the next one may still have to be written. */
  ghost predicate Splittable(v: View, b: int, size: nat) {
    && At(v.chain, v.first, v.end, b) && !v.chain[b].free && !v.chain[Next(v.chain, b)].free
    && Holds(v, {}, {b, Next(v.chain, b)})
    && size >= MIN_BLOCK && size % 8 == 0 && size + 16 <= v.chain[b].size
    && PrevBit(Rd(v.mem, b + 4)) == v.chain[b].prevFree
    && WithPrev(Rd(v.mem, Next(v.chain, b) + 4)) == Encoded(v.chain[Next(v.chain, b)].(prevFree := true))
  }

  function Remainder(v: View, b: int, size: nat): View
    requires b in v.chain && Next(v.chain, b) in v.chain && size + OVERHEAD <= v.chain[b].size
  {
    var b2, n := b + OVERHEAD + size, Next(v.chain, b);
    var m := v.mem[b2 + 4 := v.chain[b].size - size - OVERHEAD + 1][n := b2];
    v.(mem := m[n + 4 := WithPrev(Rd(m, n + 4))], chain := Split(v.chain, b, size))
  }

  lemma RemainderMem(v: View, b: int, size: nat)
    requires Splittable(v, b, size)
    ensures var b2, n := b + OVERHEAD + size, Next(v.chain, b);
            var m := Remainder(v, b, size).mem;
            && OnlyHeaders(v.mem, m, {b2, n}) && b2 !in v.chain && n in v.chain
            && Rd(m, b2 + 4) == v.chain[b].size - size - OVERHEAD + 1 && Rd(m, n) == b2
            && Rd(m, n + 4) == Encoded(v.chain[n].(prevFree := true)) && Rd(m, b + 4) == Rd(v.mem, b + 4)
  {
    hide WithPrev, PrevBit, BitsOk, Agree, Distinct, ListsOk, HeadsBut;
    NextInside(v.chain, v.first, v.end, b);
    TiledSplit(v.chain, v.first, v.end, b, size);
  }

  lemma RemainderHolds(v: View, b: int, size: nat)
    requires Splittable(v, b, size)
    ensures var w := Remainder(v, b, size);
            var b2 := b + OVERHEAD + size;
            && Holds(w, {b2}, {b}) && LivePayloads(v.mem, w.mem, w.chain)
            && b in w.chain && w.chain[b] == Block(size, false, v.chain[b].prevFree)
            && b2 in w.chain && w.chain[b2] == Block(v.chain[b].size - size - OVERHEAD, true, false)
            && PrevBit(Rd(w.mem, b + 4)) == v.chain[b].prevFree
  {
    var b2, n := b + OVERHEAD + size, Next(v.chain, b);
    var m, c := Remainder(v, b, size).mem, Split(v.chain, b, size);
    RemainderMem(v, b, size);
    hide Remainder, WithPrev, BitsOk, Distinct, BlockClass;
    SplitHeads(v.mem, m, v.chain, v.first, v.end, b, size);
    SplitAgree(v.chain, v.first, v.end, v.lists, b, size);
    SplitShape(v.chain, b, size);
    TiledSplit(v.chain, v.first, v.end, b, size);
    hide Split, Tiled;
    assert c[b] == Block(size, false, v.chain[b].prevFree);
    HeaderWrites(v.(chain := c), m, {b2, n}, {b2});
    RemainderIs(v, b, size);
  }

  lemma RemainderIs(v: View, b: int, size: nat)
    requires b in v.chain && Next(v.chain, b) in v.chain && size + OVERHEAD <= v.chain[b].size
    ensures var w := Remainder(v, b, size);
            w == v.(mem := w.mem, chain := Split(v.chain, b, size))
  {}

  /** The remainder with its header written and put on the list of its class. */
  function Listed(v: View, b: int, size: nat): View
    requires b in v.chain && Next(v.chain, b) in v.chain && size + 16 <= v.chain[b].size < MAX_SIZE
    requires |v.matrix| == |v.lists| == CLASSES && |v.slb| == REAL_FLI
  {
    var i := MappingInsert(v.chain[b].size - size - OVERHEAD);
    Pushed(Remainder(v, b, size), b + OVERHEAD + size, i.0, i.1)
  }

  /** A used block cut to size: both parts with their headers, the remainder on its list. */
  function Carved(v: View, b: int, size: nat): View
    requires b in v.chain && Next(v.chain, b) in v.chain && size + 16 <= v.chain[b].size < MAX_SIZE
    requires |v.matrix| == |v.lists| == CLASSES && |v.slb| == REAL_FLI
  {
    var w := Listed(v, b, size);
    SizeWritten(w, b, size + (if PrevBit(Rd(w.mem, b + 4)) then 2 else 0))
  }

  ghost predicate ListedFrom(v: View, w: View, b: int, size: nat, c: Chain) {
    && CarvedFrom(v, w, c, {b})
    && b in v.chain && b in c && c[b] == Block(size, false, v.chain[b].prevFree)
    && PrevBit(Rd(w.mem, b + 4)) == v.chain[b].prevFree
  }

  lemma ListedHolds(v: View, b: int, size: nat)
    requires Splittable(v, b, size) && v.chain[b].size < MAX_SIZE
    ensures ListedFrom(v, Listed(v, b, size), b, size, Split(v.chain, b, size))
  {
    var n := v.chain[b].size - size - OVERHEAD;
    var i := MappingInsert(n);
    RemainderHolds(v, b, size);
    RemainderIs(v, b, size);
    RemainderClass(n);
    IndexSizes(Remainder(v, b, size), {b + OVERHEAD + size}, {b});
    hide Holds, Remainder, LivePayloads, PrevBit, Splittable, At, BlockClass, MappingInsert, Split, Pushed, ListedFrom;
    FinishList(v, Remainder(v, b, size), b, size, i.0, i.1);
  }

  lemma SplittableSizes(v: View, b: int, size: nat)
    requires Splittable(v, b, size)
    ensures b in v.chain && Next(v.chain, b) in v.chain && size + 16 <= v.chain[b].size
    ensures |v.matrix| == |v.lists| == CLASSES && |v.slb| == REAL_FLI
  {}

  lemma FinishList(v: View, r: View, b: int, size: nat, fl: nat, sl: nat)
    requires var b2 := b + OVERHEAD + size;
             && Holds(r, {b2}, {b}) && LivePayloads(v.mem, r.mem, r.chain) && r.first == v.first && r.end == v.end
             && b2 in r.chain && r.chain[b2].free && BlockClass(r.chain[b2]) == 32 * fl + sl
             && b in v.chain && b in r.chain && r.chain[b] == Block(size, false, v.chain[b].prevFree)
             && PrevBit(Rd(r.mem, b + 4)) == v.chain[b].prevFree
    requires fl < REAL_FLI && sl < 32
    ensures |r.matrix| == |r.lists| == CLASSES && |r.slb| == REAL_FLI
    ensures ListedFrom(v, Pushed(r, b + OVERHEAD + size, fl, sl), b, size, r.chain)
  {
    var b2 := b + OVERHEAD + size;
    IndexSizes(r, {b2}, {b});
    PushedIs(r, b2, fl, sl);
    hide Holds, LivePayloads, PrevBit, BlockClass, Pushed;
    PushedHolds(r, b2, fl, sl, {b});
    LiveTrans(v.mem, r.mem, Pushed(r, b2, fl, sl).mem, r.chain);
  }

  lemma CarvedHolds(v: View, b: int, size: nat)
    requires Splittable(v, b, size) && v.chain[b].size < MAX_SIZE
    ensures CarvedFrom(v, Carved(v, b, size), Split(v.chain, b, size), {})
  {
    hide Holds, Listed, LivePayloads, PrevBit, Splittable, At, Split, CarvedFrom, ListedFrom, SizeWritten;
    SplittableSizes(v, b, size);
    ListedHolds(v, b, size);
    FinishCarve(v, Listed(v, b, size), b, size, Split(v.chain, b, size));
  }

  /** w is a consistent pool over chain c in which v's live payloads survive. */
  ghost predicate CarvedFrom(v: View, w: View, c: Chain, skipH: set<int>) {
    && Holds(w, {}, skipH) && LivePayloads(v.mem, w.mem, c)
    && w.chain == c && w.first == v.first && w.end == v.end
  }

  lemma FinishCarve(v: View, w: View, b: int, size: nat, c: Chain)
    requires ListedFrom(v, w, b, size, c)
    ensures CarvedFrom(v, SizeWritten(w, b, size + (if PrevBit(Rd(w.mem, b + 4)) then 2 else 0)), c, {})
  {
    hide Holds, LivePayloads, PrevBit;
    var word := Encoded(c[b]);
    SizeWrittenHolds(w, b, word, {}, {b});
    assert {b} - {b} == {};
    LiveTrans(v.mem, w.mem, SizeWritten(w, b, word).mem, c);
  }

  lemma RemainderClass(n: nat)
    requires 0 < n < MAX_SIZE
    ensures var i := MappingInsert(n); forall f, p :: BlockClass(Block(n, f, p)) == 32 * i.0 + i.1
  {}

  lemma IndexSizes(v: View, skipA: set<int>, skipH: set<int>)
    requires Holds(v, skipA, skipH)
    ensures |v.matrix| == |v.lists| == CLASSES && |v.slb| == REAL_FLI
  {}

  lemma PushedIs(v: View, b: int, fl: nat, sl: nat)
    requires fl < REAL_FLI && sl < 32 && |v.matrix| == |v.lists| == CLASSES && |v.slb| == REAL_FLI
    ensures var w := Pushed(v, b, fl, sl); w.chain == v.chain && w.first == v.first && w.end == v.end
  {}

  // ---------------------------------------------------------------- rearranging the chain

  lemma MergedHolds(v: View, a: int, skipH: set<int>)
    requires At(v.chain, v.first, v.end, a) && At(v.chain, v.first, v.end, Next(v.chain, a))
    requires v.chain[a].free != v.chain[Next(v.chain, a)].free
    requires Holds(v, {if v.chain[a].free then a else Next(v.chain, a)}, skipH)
    ensures Holds(v.(chain := Merge(v.chain, a)), if v.chain[a].free then {a} else {},
                  skipH + {a, Next(v.chain, Next(v.chain, a))})
  {
    TiledMerge(v.chain, v.first, v.end, a);
    MergeHeads(v.mem, v.chain, v.first, v.end, a, skipH);
    MergeAgree(v.chain, v.first, v.end, v.lists, a);
  }

  lemma SetFreeHolds(v: View, a: int, free: bool, skipH: set<int>)
    requires At(v.chain, v.first, v.end, a) && v.chain[a].free != free
    requires Holds(v, if free then {} else {a}, skipH)
    ensures Holds(v.(chain := SetFree(v.chain, a, free)), if free then {a} else {}, skipH + {a, Next(v.chain, a)})
  {
    TiledSetFree(v.chain, v.first, v.end, a, free);
    SetFreeHeads(v.mem, v.chain, v.first, v.end, a, free, skipH);
    SetFreeAgree(v.chain, v.first, v.end, v.lists, a, free);
  }

  /** Skipped headers that are no longer in the chain do not matter. */
  lemma SkipGone(v: View, skipA: set<int>, skipH: set<int>)
    requires Holds(v, skipA, skipH) && skipH !! v.chain.Keys
    ensures Holds(v, skipA, {})
  {
    forall a | a in v.chain ensures HeadAt(v.mem, v.chain, a) { assert a !in skipH; }
  }

  /** Zeroing the link words of a used block touches neither index nor headers. */
  function Cleared(v: View, b: int): View { v.(mem := v.mem[LinkPrev(b) := 0][LinkNext(b) := 0]) }

  lemma ClearedHolds(v: View, b: int, skipH: set<int>)
    requires Holds(v, {}, skipH) && At(v.chain, v.first, v.end, b) && !v.chain[b].free
    ensures Holds(Cleared(v, b), {}, skipH) && SameHeads(v.mem, Cleared(v, b).mem, v.chain)
    ensures forall p | p in v.chain && p != b :: PayloadSame(v.mem, Cleared(v, b).mem, p, v.chain[p].size)
  {
    var m, c := Cleared(v, b).mem, v.chain;
    assert OnlyLinks(v.mem, m, {b});
    NodesInChain(v, {});
    LinksKeepHeads(v.mem, m, {b}, c, v.first, v.end, skipH);
    forall d: nat | d < CLASSES ensures ListAt(m, v.matrix[d], v.lists[d]) {
      forall i: nat | i < |v.lists[d]| ensures v.lists[d][i] in c.Keys && v.lists[d][i] != b {
        assert Member(c, {}, d, v.lists[d][i]);
      }
      ListUntouched(v.mem, m, {b}, c.Keys, v.matrix[d], v.lists[d]);
    }
    forall p | p in c && p != b ensures PayloadSame(v.mem, m, p, c[p].size) {
      PayloadMissed(v.mem, m, {b}, {}, c, v.first, v.end, p);
    }
    forall a | a in c ensures Rd(m, a) == Rd(v.mem, a) && Rd(m, a + 4) == Rd(v.mem, a + 4) {
      NodeUntouched(v.mem, m, {b}, c.Keys, a);
    }
  }

  // ---------------------------------------------------------------- live blocks over several steps

  /** Every live block of c other than b has the same payload. */
  ghost predicate PayloadsKept(m: Mem, m2: Mem, c: Chain, b: int) {
    forall p | p in c && !c[p].free && p != b :: PayloadSame(m, m2, p, c[p].size)
  }

  lemma LiveMeansKept(m: Mem, m2: Mem, c: Chain, d: Chain, b: int)
    requires LivePayloads(m, m2, d) && KeepsLive(c, d, b)
    ensures PayloadsKept(m, m2, c, b)
  {
    forall p | p in c && !c[p].free && p != b ensures PayloadSame(m, m2, p, c[p].size) {
      assert PayloadSame(m, m2, p, d[p].size);
    }
  }

  lemma KeptTrans(m1: Mem, m2: Mem, m3: Mem, c: Chain, b: int)
    requires PayloadsKept(m1, m2, c, b) && PayloadsKept(m2, m3, c, b)
    ensures PayloadsKept(m1, m3, c, b)
  {
    forall p | p in c && !c[p].free && p != b ensures PayloadSame(m1, m3, p, c[p].size) {
      assert PayloadSame(m1, m2, p, c[p].size) && PayloadSame(m2, m3, p, c[p].size);
    }
  }
}
