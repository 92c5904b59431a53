/** The states malloc, realloc and free pass through, and why each of them ends in a
    consistent pool with every other live payload intact. */
module TlsfOps {
  import opened Words
  import opened TlsfIndex
  import opened TlsfChain
  import opened TlsfLists
  import opened TlsfState
  import opened TlsfSteps
  import opened TlsfPlan
  import opened TlsfView

  /** w is a consistent pool over chain c; live payloads of v other than b's are untouched. */
  ghost predicate Reached(v: View, w: View, c: Chain, b: int) {
    && Holds(w, {}, {}) && w.chain == c && w.first == v.first && w.end == v.end
    && PayloadsKept(v.mem, w.mem, v.chain, b)
  }

  lemma HeaderIs(v: View, skipA: set<int>, skipH: set<int>, a: int)
    requires Holds(v, skipA, skipH) && a in v.chain && a !in skipH
    ensures Rd(v.mem, a + 4) == Encoded(v.chain[a])
    ensures v.chain[a].size % 8 == 0 && v.chain[a].size < MAX_SIZE
    ensures a != v.end ==> At(v.chain, v.first, v.end, a) && Next(v.chain, a) in v.chain
    ensures v.chain[a].free ==> Rd(v.mem, Next(v.chain, a)) == a && a != v.end
  {
    assert HeadAt(v.mem, v.chain, a);
    if a != v.end { NextInside(v.chain, v.first, v.end, a); }
  }

  // ---------------------------------------------------------------- malloc

  /** The block found is unlinked and regarded as used; its header still says free. */
  function Taken(v: View, b: int, fl: nat, sl: nat): View
    requires fl < REAL_FLI && sl < 32 && |v.matrix| == |v.lists| == CLASSES && |v.slb| == REAL_FLI
    requires v.lists[32 * fl + sl] != [] && b in v.chain && Next(v.chain, b) in v.chain
  {
    Unlinked(v, 0, fl, sl).(chain := SetFree(v.chain, b, false))
  }

  lemma ListedBlock(v: View, fl: nat, sl: nat)
    requires Holds(v, {}, {}) && fl < REAL_FLI && sl < 32 && v.lists[32 * fl + sl] != []
    ensures var b := v.lists[32 * fl + sl][0];
            && At(v.chain, v.first, v.end, b) && v.chain[b].free && BlockClass(v.chain[b]) == 32 * fl + sl
            && Rd(v.mem, b + 4) == Encoded(v.chain[b]) && v.chain[b].size % 8 == 0 && v.chain[b].size < MAX_SIZE
            && Next(v.chain, b) in v.chain && b > 0
  {
    var b := v.lists[32 * fl + sl][0];
    assert Member(v.chain, {}, 32 * fl + sl, b);
    HeaderIs(v, {}, {}, b);
  }

  /** What Taken looks like: the two headers concerned still hold their old words. */
  ghost predicate TakenFrom(v: View, w: View, b: int) {
    && At(w.chain, w.first, w.end, b) && b in w.chain && Next(w.chain, b) in w.chain && b in v.chain && Next(v.chain, b) in v.chain
    && w.chain == SetFree(v.chain, b, false) && w.first == v.first && w.end == v.end
    && Next(w.chain, b) == Next(v.chain, b) && w.chain[b] == v.chain[b].(free := false)
    && !w.chain[Next(w.chain, b)].free && !w.chain[Next(w.chain, b)].prevFree
    && Holds(w, {}, {b, Next(w.chain, b)})
    && Rd(w.mem, b + 4) == Encoded(v.chain[b]) && v.chain[b].free
    && Rd(w.mem, Next(w.chain, b) + 4) == Encoded(w.chain[Next(w.chain, b)].(prevFree := true))
    && w.chain[b].size % 8 == 0 && w.chain[Next(w.chain, b)].size % 8 == 0
    && PayloadsKept(v.mem, w.mem, v.chain, b) && KeepsLive(v.chain, w.chain, b)
  }

  lemma TakenIs(v: View, fl: nat, sl: nat)
    requires Holds(v, {}, {}) && Coalesced(v.chain)
    requires fl < REAL_FLI && sl < 32 && v.lists[32 * fl + sl] != []
    ensures var b := v.lists[32 * fl + sl][0];
            && b in v.chain && Next(v.chain, b) in v.chain && |v.matrix| == CLASSES && |v.slb| == REAL_FLI
            && TakenFrom(v, Taken(v, b, fl, sl), b)
  {
    hide Unlinked, Holds, LivePayloads, BlockClass, TakenFrom, SetFree, At, Coalesced;
    IndexSizes(v, {}, {});
    var b := v.lists[32 * fl + sl][0];
    var u := Unlinked(v, 0, fl, sl);
    ListedBlock(v, fl, sl);
    UnlinkedHolds(v, 0, fl, sl, {});
    var n := Next(v.chain, b);
    HeaderIs(v, {}, {}, n);
    UnlinkedIs(v, 0, fl, sl);
    TakenAssemble(v, u, b);
  }

  lemma TakenAssemble(v: View, u: View, b: int)
    requires Holds(u, {b}, {}) && u.chain == v.chain && u.first == v.first && u.end == v.end
    requires At(v.chain, v.first, v.end, b) && v.chain[b].free && Coalesced(v.chain) && Next(v.chain, b) in v.chain
    requires Rd(u.mem, b + 4) == Encoded(v.chain[b]) && v.chain[b].size % 8 == 0
    requires var n := Next(v.chain, b); Rd(u.mem, n + 4) == Encoded(v.chain[n]) && v.chain[n].size % 8 == 0
    requires LivePayloads(v.mem, u.mem, v.chain)
    ensures TakenFrom(v, u.(chain := SetFree(v.chain, b, false)), b)
  {
    hide Coalesced, KeepsLive, SetFree, Tiled, PayloadsKept, LivePayloads, Encoded, Linked, Holds;
    var n := Next(v.chain, b);
    FreeThenUsed(v, b);
    Unmoved(v, b);
    LiveMeansKept(v.mem, u.mem, v.chain, v.chain, b);
    SetUsed(v.chain, v.first, v.end, b);
    SetFreeShape(v.chain, b, false);
    TakeHolds(u, b);
  }

  lemma FreeThenUsed(v: View, b: int)
    requires At(v.chain, v.first, v.end, b) && v.chain[b].free && Coalesced(v.chain) && Next(v.chain, b) in v.chain
    ensures v.chain[Next(v.chain, b)].prevFree && !v.chain[Next(v.chain, b)].free && Next(v.chain, b) != b
    ensures v.chain[b].size > 0
  {}

  lemma TakeHolds(u: View, b: int)
    requires Holds(u, {b}, {}) && At(u.chain, u.first, u.end, b) && u.chain[b].free
    ensures Holds(u.(chain := SetFree(u.chain, b, false)), {}, {b, Next(u.chain, b)})
  {
    SetFreeHolds(u, b, false, {});
    assert {} + {b, Next(u.chain, b)} == {b, Next(u.chain, b)};
  }

  lemma UnlinkedIs(v: View, k: nat, fl: nat, sl: nat)
    requires fl < REAL_FLI && sl < 32 && |v.matrix| == |v.lists| == CLASSES && |v.slb| == REAL_FLI
    requires k < |v.lists[32 * fl + sl]|
    ensures var w := Unlinked(v, k, fl, sl); w.chain == v.chain && w.first == v.first && w.end == v.end
  {}

  /** Cutting the block taken. */
  lemma TakenSplit(v: View, w: View, b: int, size: nat)
    requires TakenFrom(v, w, b) && size >= MIN_BLOCK && size % 8 == 0 && size + 16 <= v.chain[b].size < MAX_SIZE
    ensures Splittable(w, b, size) && PrevBit(Rd(w.mem, Next(w.chain, b) + 4))
    ensures |w.matrix| == |w.lists| == CLASSES && |w.slb| == REAL_FLI
    ensures Reached(v, Carved(w, b, size), Split(w.chain, b, size), b)
  {
    hide Holds, PayloadsKept, KeepsLive, At, SetFree, Split, Carved;
    var n := Next(w.chain, b);
    Decode(v.chain[b]);
    Decode(w.chain[n].(prevFree := true));
    FlagWrites(w.chain[n]);
    assert WithPrev(Encoded(w.chain[n].(prevFree := true))) == Encoded(w.chain[n].(prevFree := true));
    SplittableSizes(w, b, size);
    CarvedHolds(w, b, size);
    CarveReached(v, w, Carved(w, b, size), b, size);
  }

  lemma CarveReached(v: View, w: View, x: View, b: int, size: nat)
    requires At(w.chain, w.first, w.end, b) && size + 16 <= w.chain[b].size && size >= MIN_BLOCK && size % 8 == 0
    requires CarvedFrom(w, x, Split(w.chain, b, size), {}) && w.first == v.first && w.end == v.end
    requires PayloadsKept(v.mem, w.mem, v.chain, b) && KeepsLive(v.chain, w.chain, b)
    ensures Reached(v, x, Split(w.chain, b, size), b)
  {
    hide Holds, Split, Tiled;
    TiledSplit(w.chain, w.first, w.end, b, size);
    SplitShape(w.chain, b, size);
    assert KeepsLive(v.chain, x.chain, b);
    LiveMeansKept(w.mem, x.mem, v.chain, x.chain, b);
    KeptTrans(v.mem, w.mem, x.mem, v.chain, b);
  }

  /** Handing out the block taken whole. */
  function Whole(w: View, b: int, n: int): View {
    var x := SizeWritten(w, n, WithoutPrev(Rd(w.mem, n + 4)));
    SizeWritten(x, b, WithoutFree(Rd(x.mem, b + 4)))
  }

  lemma TakenWhole(v: View, w: View, b: int)
    requires TakenFrom(v, w, b)
    ensures Reached(v, Whole(w, b, Next(w.chain, b)), w.chain, b)
  {
    hide Holds, PayloadsKept, KeepsLive, At, SetFree, LivePayloads;
    var n := Next(w.chain, b);
    FlagWrites(w.chain[n].(prevFree := true));
    FlagWrites(v.chain[b]);
    var word := WithoutPrev(Rd(w.mem, n + 4));
    var x := SizeWritten(w, n, word);
    WholeStep(v, w, b, n, word, {b, n});
    assert {b, n} - {n} == {b};
    assert Rd(x.mem, b + 4) == Rd(w.mem, b + 4);
    WholeStep(v, x, b, b, WithoutFree(Rd(x.mem, b + 4)), {b});
    assert {b} - {b} == {};
  }

  /** Completing the header of a used block h. */
  lemma WholeStep(v: View, w: View, b: int, h: int, word: int, skipH: set<int>)
    requires Holds(w, {}, skipH) && h in w.chain && !w.chain[h].free && word == Encoded(w.chain[h])
    requires PayloadsKept(v.mem, w.mem, v.chain, b) && KeepsLive(v.chain, w.chain, b)
    ensures Holds(SizeWritten(w, h, word), {}, skipH - {h})
    ensures PayloadsKept(v.mem, SizeWritten(w, h, word).mem, v.chain, b)
  {
    hide Holds, PayloadsKept, KeepsLive, LivePayloads;
    var x := SizeWritten(w, h, word);
    SizeWrittenHolds(w, h, word, {}, skipH);
    LiveMeansKept(w.mem, x.mem, v.chain, w.chain, b);
    KeptTrans(v.mem, w.mem, x.mem, v.chain, b);
  }

  /** What handing out n bytes of the block taken, in state w, leads to. */
  ghost predicate HandsOut(v: View, w: View, b: int, n: nat) {
    && TakenReady(v, w, b, n)
    && (n + 16 <= v.chain[b].size ==> SplitReady(w, b, n) && HandedOut(v, Carved(w, b, n), b, n))
    && (n + 16 > v.chain[b].size ==> HandedOut(v, Whole(w, b, Next(w.chain, b)), b, n))
  }

  ghost predicate TakenReady(v: View, w: View, b: int, n: nat) {
    && b in v.chain && Next(v.chain, b) in v.chain && b in w.chain && Next(w.chain, b) in w.chain
    && Next(w.chain, b) == Next(v.chain, b) && w.chain[b].size == v.chain[b].size < MAX_SIZE
    && SizeOf(Rd(w.mem, b + 4)) == v.chain[b].size && n <= v.chain[b].size
    && |w.matrix| == |w.lists| == CLASSES && |w.slb| == REAL_FLI
  }

  ghost predicate SplitReady(w: View, b: int, n: nat)
    requires b in w.chain
  {
    PrevBit(Rd(w.mem, Next(w.chain, b) + 4))
  }

  ghost predicate HandedOut(v: View, x: View, b: int, n: nat)
    requires b in v.chain && Next(v.chain, b) in v.chain && n <= v.chain[b].size
  {
    Reached(v, x, Allocated(v.chain, b, n), b) && b in x.chain && SizeOf(Rd(x.mem, b + 4)) == x.chain[b].size
  }

  lemma HandsOutIs(v: View, fl: nat, sl: nat, n: nat)
    requires Holds(v, {}, {}) && Coalesced(v.chain) && fl < REAL_FLI && sl < 32 && v.lists[32 * fl + sl] != []
    requires n >= MIN_BLOCK && n % 8 == 0
    requires v.lists[32 * fl + sl][0] in v.chain && n <= v.chain[v.lists[32 * fl + sl][0]].size
    ensures |v.matrix| == CLASSES && |v.slb| == REAL_FLI && Next(v.chain, v.lists[32 * fl + sl][0]) in v.chain
    ensures HandsOut(v, Taken(v, v.lists[32 * fl + sl][0], fl, sl), v.lists[32 * fl + sl][0], n)
  {
    hide Holds, Taken, Carved, Whole, SetFree, Split, BlockClass, HandedOut, Coalesced, At, TakenFrom, SplitReady;
    IndexSizes(v, {}, {});
    var b := v.lists[32 * fl + sl][0];
    TakenIs(v, fl, sl);
    ListedBlock(v, fl, sl);
    var w := Taken(v, b, fl, sl);
    TakenBlock(v, w, b);
    Decode(v.chain[b]);
    IndexSizes(w, {}, {b, Next(w.chain, b)});
    if n + 16 <= v.chain[b].size { HandOutPart(v, w, b, n); } else { HandOutWhole(v, w, b, n); }
  }

  lemma TakenBlock(v: View, w: View, b: int)
    requires TakenFrom(v, w, b)
    ensures b in w.chain && Next(w.chain, b) in w.chain && b in v.chain && Next(v.chain, b) in v.chain
    ensures Next(w.chain, b) == Next(v.chain, b) && w.chain[b] == v.chain[b].(free := false)
    ensures Rd(w.mem, b + 4) == Encoded(v.chain[b]) && w.chain == SetFree(v.chain, b, false)
    ensures At(w.chain, w.first, w.end, b) && Holds(w, {}, {b, Next(w.chain, b)})
  {}

  lemma HandOutPart(v: View, w: View, b: int, n: nat)
    requires TakenFrom(v, w, b) && n >= MIN_BLOCK && n % 8 == 0 && n + 16 <= v.chain[b].size < MAX_SIZE
    ensures b in w.chain && Next(w.chain, b) in w.chain && w.chain[b].size == v.chain[b].size
    ensures |w.matrix| == |w.lists| == CLASSES && |w.slb| == REAL_FLI
    ensures SplitReady(w, b, n) && HandedOut(v, Carved(w, b, n), b, n)
  {
    hide Holds, Carved, SetFree, TakenFrom, PayloadsKept, Split, PrevBit, At, SizeOf, Encoded, Tiled, FreeBit;
    TakenBlock(v, w, b);
    TakenSplit(v, w, b, n);
    InSplit(w.chain, w.first, w.end, b, n);
    HandedOutSize(v, Carved(w, b, n), b);
  }

  lemma HandOutWhole(v: View, w: View, b: int, n: nat)
    requires TakenFrom(v, w, b) && n <= v.chain[b].size < n + 16
    ensures b in w.chain && HandedOut(v, Whole(w, b, Next(w.chain, b)), b, n)
  {
    TakenBlock(v, w, b);
    hide Holds, Whole, SetFree, TakenFrom, PayloadsKept;
    TakenWhole(v, w, b);
    HandedOutSize(v, Whole(w, b, Next(w.chain, b)), b);
  }

  lemma InSplit(chain: Chain, first: int, end: int, b: int, n: nat)
    requires At(chain, first, end, b) && n >= MIN_BLOCK && n % 8 == 0 && n + 16 <= chain[b].size
    ensures b in Split(chain, b, n) && Next(chain, b) in chain
  {}

  lemma HandedOutSize(v: View, x: View, b: int)
    requires Holds(x, {}, {}) && b in x.chain
    ensures SizeOf(Rd(x.mem, b + 4)) == x.chain[b].size
  {
    HeaderIs(x, {}, {}, b);
    Decode(x.chain[b]);
  }

  /** No free block has n bytes. */
  ghost predicate NoFit(chain: Chain, n: nat) { forall a | a in chain && chain[a].free :: chain[a].size < n }

  /** b is a free block of at least n bytes, of the lowest class that has one. */
  ghost predicate GoodFit(chain: Chain, b: int, n: nat) {
    && b in chain && chain[b].free && n <= chain[b].size
    && forall a | a in chain && chain[a].free && n <= chain[a].size :: BlockClass(chain[b]) <= BlockClass(chain[a])
  }

  ghost predicate EmptyLists(lists: Lists, lo: nat, hi: nat) {
    hi <= |lists| && forall c: nat | lo <= c < hi :: lists[c] == []
  }

  /** Any free block with enough bytes sits on a list the search looks at. */
  lemma BigEnough(v: View, r: Word, a: int)
    requires Holds(v, {}, {}) && 0 < r < MAX_SIZE && r % 8 == 0 && SearchSize(r) < MAX_SIZE
    requires a in v.chain && v.chain[a].free
    ensures |v.lists| == CLASSES && v.lists[BlockClass(v.chain[a])] != []
    ensures SearchClass(r) <= BlockClass(v.chain[a]) <==> SearchSize(r) <= v.chain[a].size
  {
    hide SearchSize, SearchClass, Class, BlockClass, Holds, At;
    HeaderIs(v, {}, {}, a);
    FreeSized(v, a);
    SearchFinds(r, v.chain[a]);
  }

  lemma SearchFinds(r: Word, b: Block)
    requires 0 < r < MAX_SIZE && r % 8 == 0 && SearchSize(r) < MAX_SIZE && 0 < b.size < MAX_SIZE && b.size % 8 == 0
    ensures SearchClass(r) <= BlockClass(b) <==> SearchSize(r) <= b.size
  {
    hide SearchSize, SearchClass, Class;
    Quarters(r);
    Quarters(b.size);
    SearchExact(r, b.size);
  }

  lemma Quarters(x: nat)
    requires x % 8 == 0
    ensures x % 4 == 0
  {
    assert x == 4 * (2 * (x / 8));
  }

  lemma FreeSized(v: View, a: int)
    requires Holds(v, {}, {}) && a in v.chain && v.chain[a].free && a != v.end
    ensures v.chain[a].size >= MIN_BLOCK && |v.lists| == CLASSES && a in v.lists[BlockClass(v.chain[a])]
  {
    NextInside(v.chain, v.first, v.end, a);
  }

  lemma NothingFits(v: View, r: Word)
    requires Holds(v, {}, {}) && 0 < r < MAX_SIZE && r % 8 == 0 && SearchSize(r) < MAX_SIZE
    requires EmptyLists(v.lists, SearchClass(r), CLASSES)
    ensures NoFit(v.chain, SearchSize(r))
  {
    hide Holds, SearchSize, SearchClass, BlockClass;
    forall a | a in v.chain && v.chain[a].free ensures v.chain[a].size < SearchSize(r) {
      BigEnough(v, r, a);
    }
  }

  lemma FoundFits(v: View, r: Word, c: nat)
    requires Holds(v, {}, {}) && 0 < r < MAX_SIZE && r % 8 == 0 && SearchSize(r) < MAX_SIZE
    requires SearchClass(r) <= c < CLASSES == |v.lists| && EmptyLists(v.lists, SearchClass(r), c) && v.lists[c] != []
    ensures GoodFit(v.chain, v.lists[c][0], SearchSize(r))
  {
    var b := v.lists[c][0];
    assert Member(v.chain, {}, c, b);
    hide Holds, SearchSize, SearchClass, BlockClass;
    BigEnough(v, r, b);
    forall a | a in v.chain && v.chain[a].free && SearchSize(r) <= v.chain[a].size ensures c <= BlockClass(v.chain[a]) {
      BigEnough(v, r, a);
    }
  }

  /** What a successful malloc of size bytes returns: a good fit, cut to the rounded size,
      with every other live block and payload untouched. */
  ghost predicate Provided(v: View, w: View, b: int, r: nat, n: nat) {
    && GoodFit(v.chain, b, n) && Next(v.chain, b) in v.chain && w.chain == Allocated(v.chain, b, n)
    && b in w.chain && !w.chain[b].free && r <= n <= w.chain[b].size <= n + 8 && n <= r + r / 32
    && w.first == v.first && w.end == v.end
    && KeepsLive(v.chain, w.chain, b) && PayloadsKept(v.mem, w.mem, v.chain, b)
  }

  lemma ShapeOf(v: View)
    requires Holds(v, {}, {})
    ensures Shape(v)
  {}

  lemma ProvidedIs(v: View, w: View, b: int, r: Word)
    requires Holds(v, {}, {}) && Coalesced(v.chain) && 0 < r < MAX_SIZE && r % 8 == 0 && SearchSize(r) < MAX_SIZE
    requires GoodFit(v.chain, b, SearchSize(r)) && Next(v.chain, b) in v.chain
    requires Reached(v, w, Allocated(v.chain, b, SearchSize(r)), b)
    ensures Provided(v, w, b, r, SearchSize(r)) && Holds(w, {}, {}) && Coalesced(w.chain)
    ensures TotalFree(w.chain, w.first, w.end) == TotalFree(v.chain, v.first, v.end) - (w.chain[b].size + OVERHEAD)
  {
    hide Holds, Pow2, Floor, Class, MsBit, SearchStep, Encoded;
    SearchIsFloor(r);
    SearchAligned(r);
    HeaderIs(v, {}, {}, b);
    ShapeOf(v);
    hide Allocated, PayloadsKept, KeepsLive, SearchSize, BlockClass, Tiled, HeadsBut, ListsOk, BitsOk, Agree, Distinct, Coalesced, At;
    AllocatedOk(v.chain, v.first, v.end, b, SearchSize(r));
  }

  // ---------------------------------------------------------------- joining with the next block

  /** The free block after the used block b is unlinked and its bytes regarded as b's. */
  ghost predicate JoinedFrom(v: View, w: View, b: int) {
    && At(v.chain, v.first, v.end, b) && Next(v.chain, b) in v.chain && At(w.chain, w.first, w.end, b)
    && Next(w.chain, b) in w.chain && Next(w.chain, b) in v.chain
    && w.chain == Merge(v.chain, b) && w.first == v.first && w.end == v.end
    && w.chain[b] == v.chain[b].(size := v.chain[b].size + OVERHEAD + v.chain[Next(v.chain, b)].size)
    && !w.chain[b].free && !w.chain[Next(w.chain, b)].free && w.chain[b].size % 8 == 0 && w.chain[b].size < MAX_SIZE
    && Holds(w, {}, {b, Next(w.chain, b)})
    && SameHeads(v.mem, w.mem, v.chain) && LivePayloads(v.mem, w.mem, v.chain) && KeepsLive(v.chain, w.chain, b)
    && Rd(w.mem, Next(w.chain, b) + 4) == Encoded(w.chain[Next(w.chain, b)].(prevFree := true))
    && w.chain[Next(w.chain, b)].size % 8 == 0
  }

  /** Where a free block is listed. */
  lemma FreeListed(v: View, skipH: set<int>, n: int) returns (k: nat)
    requires Holds(v, {}, skipH) && n in v.chain && v.chain[n].free
    ensures var c := BlockClass(v.chain[n]);
            c < |v.lists| && k < |v.lists[c]| && v.lists[c][k] == n
  {
    var c := BlockClass(v.chain[n]);
    assert n in v.lists[c];
    k :| k < |v.lists[c]| && v.lists[c][k] == n;
  }

  lemma JoinNext(v: View, b: int, k: nat, fl: nat, sl: nat, skipH: set<int>)
    requires Holds(v, {}, skipH) && Coalesced(v.chain) && skipH <= {b}
    requires At(v.chain, v.first, v.end, b) && !v.chain[b].free
    requires Next(v.chain, b) in v.chain && v.chain[Next(v.chain, b)].free
    requires fl < REAL_FLI && sl < 32 && k < |v.lists[32 * fl + sl]| && v.lists[32 * fl + sl][k] == Next(v.chain, b)
    ensures |v.matrix| == CLASSES && |v.slb| == REAL_FLI
    ensures JoinedFrom(v, Unlinked(v, k, fl, sl).(chain := Merge(v.chain, b)), b)
  {
    hide Unlinked, Holds, LivePayloads, SameHeads, BlockClass, Coalesced, JoinedFrom, At;
    IndexSizes(v, {}, skipH);
    IsIn(v, b);
    var n := Next(v.chain, b);
    var u := Unlinked(v, k, fl, sl);
    UnlinkedHolds(v, k, fl, sl, skipH);
    UnlinkedIs(v, k, fl, sl);
    HeaderIs(v, {}, skipH, n);
    JoinHeader(v, b, skipH);
    JoinAssemble(v, u, b, skipH);
  }

  lemma JoinHeader(v: View, b: int, skipH: set<int>)
    requires Holds(v, {}, skipH) && Coalesced(v.chain) && skipH <= {b}
    requires At(v.chain, v.first, v.end, b) && !v.chain[b].free
    requires Next(v.chain, b) in v.chain && v.chain[Next(v.chain, b)].free
    ensures At(v.chain, v.first, v.end, Next(v.chain, b)) && Next(v.chain, Next(v.chain, b)) in v.chain
    ensures var nn := Next(v.chain, Next(v.chain, b));
            Rd(v.mem, nn + 4) == Encoded(v.chain[nn]) && v.chain[nn].size % 8 == 0 && v.chain[nn].prevFree && !v.chain[nn].free
  {
    var n := Next(v.chain, b);
    HeaderIs(v, {}, skipH, n);
    assert Linked(v.chain, n) && b < n;
    HeaderIs(v, {}, skipH, Next(v.chain, n));
  }

  lemma JoinAssemble(v: View, u: View, b: int, skipH: set<int>)
    requires u.chain == v.chain && u.first == v.first && u.end == v.end
    requires At(v.chain, v.first, v.end, b) && !v.chain[b].free && Coalesced(v.chain) && skipH <= {b}
    requires Next(v.chain, b) in v.chain && v.chain[Next(v.chain, b)].free && At(v.chain, v.first, v.end, Next(v.chain, b))
    requires Holds(u, {Next(v.chain, b)}, skipH) && LivePayloads(v.mem, u.mem, v.chain) && SameHeads(v.mem, u.mem, v.chain)
    requires var nn := Next(v.chain, Next(v.chain, b));
             nn in v.chain && Rd(v.mem, nn + 4) == Encoded(v.chain[nn]) && v.chain[nn].size % 8 == 0 && v.chain[nn].prevFree
    ensures JoinedFrom(v, u.(chain := Merge(v.chain, b)), b)
  {
    hide Merge, Coalesced, KeepsLive, Tiled, LivePayloads, SameHeads, HeadsBut, Agree, ListsOk, BitsOk, Distinct;
    var n := Next(v.chain, b);
    var nn := Next(v.chain, n);
    var w := u.(chain := Merge(v.chain, b));
    SameHeadAt(v.mem, u.mem, v.chain, nn);
    MergedHolds(u, b, skipH);
    assert skipH + {b, nn} == {b, nn};
    AbsorbFree(v.chain, v.first, v.end, b);
    MergeShape(v.chain, b);
    NextInside(v.chain, v.first, v.end, n);
    SizeBelow(w, b);
    assert w.chain[nn] == v.chain[nn].(prevFree := false);
  }

  lemma SizeBelow(v: View, a: int)
    requires Shape(v) && At(v.chain, v.first, v.end, a)
    ensures v.chain[a].size < MAX_SIZE && v.chain[a].size % 8 == 0
  {
    NextInside(v.chain, v.first, v.end, a);
  }

  // ---------------------------------------------------------------- realloc in place

  /** A consistent pool is reached and the first k payload bytes of b are still there. */
  ghost predicate ReachedKeeping(v: View, w: View, c: Chain, b: int, k: int) {
    Reached(v, w, c, b) && PayloadSame(v.mem, w.mem, b, k)
  }

  /** A block whose headers are all right can be cut. */
  lemma SplitHeld(v: View, b: int, size: nat)
    requires Holds(v, {}, {}) && At(v.chain, v.first, v.end, b) && !v.chain[b].free
    requires Next(v.chain, b) in v.chain && !v.chain[Next(v.chain, b)].free
    requires size >= MIN_BLOCK && size % 8 == 0 && size + 16 <= v.chain[b].size
    ensures Splittable(v, b, size) && v.chain[b].size < MAX_SIZE
  {
    var n := Next(v.chain, b);
    HeaderIs(v, {}, {}, b);
    HeaderIs(v, {}, {}, n);
    HeadsWiden(v.mem, v.chain, {}, {b, n});
    Decode(v.chain[b]);
    FlagWrites(v.chain[n]);
  }

  /** A block joined with the free one after it can be cut, if its own header was right. */
  lemma SplitJoined(v: View, w: View, b: int, size: nat)
    requires JoinedFrom(v, w, b) && Rd(v.mem, b + 4) == Encoded(v.chain[b])
    requires size >= MIN_BLOCK && size % 8 == 0 && size + 16 <= w.chain[b].size
    ensures Splittable(w, b, size) && w.chain[b].size < MAX_SIZE
  {
    var n := Next(w.chain, b);
    hide Holds, Merge, Tiled, LivePayloads, KeepsLive;
    assert Linked(v.chain, b);
    Decode(v.chain[b]);
    FlagWrites(w.chain[n]);
    Decode(w.chain[n].(prevFree := true));
  }

  /** Cutting b at size keeps the first k bytes of its payload when k is at most size. */
  lemma CutResized(v: View, w: View, b: int, size: nat, k: nat)
    requires Splittable(w, b, size) && w.chain[b].size < MAX_SIZE && k <= size
    requires w.first == v.first && w.end == v.end && KeepsLive(v.chain, w.chain, b)
    requires PayloadsKept(v.mem, w.mem, v.chain, b) && PayloadSame(v.mem, w.mem, b, k)
    ensures b in w.chain && Next(w.chain, b) in w.chain && size + 16 <= w.chain[b].size
    ensures |w.matrix| == |w.lists| == CLASSES && |w.slb| == REAL_FLI
    ensures ReachedKeeping(v, Carved(w, b, size), Split(w.chain, b, size), b, k)
  {
    SplittableSizes(w, b, size);
    SplittableAt(w, b, size);
    hide Holds, Carved, Splittable, Split, PayloadsKept, KeepsLive, At;
    CarvedHolds(w, b, size);
    CarveReached(v, w, Carved(w, b, size), b, size);
    CarveContent(w, Carved(w, b, size), b, size);
    ContentTrans(v.mem, w.mem, Carved(w, b, size).mem, b, k, size);
  }

  lemma SplittableAt(w: View, b: int, size: nat)
    requires Splittable(w, b, size)
    ensures At(w.chain, w.first, w.end, b) && !w.chain[b].free && size >= MIN_BLOCK && size % 8 == 0
    ensures b + OVERHEAD + size !in w.chain
  {
    TiledSplit(w.chain, w.first, w.end, b, size);
  }

  lemma CarveContent(w: View, x: View, b: int, size: nat)
    requires b in w.chain && Next(w.chain, b) in w.chain && size + 16 <= w.chain[b].size && !w.chain[b].free
    requires b + OVERHEAD + size !in w.chain
    requires CarvedFrom(w, x, Split(w.chain, b, size), {})
    ensures PayloadSame(w.mem, x.mem, b, size)
  {
    SplitShape(w.chain, b, size);
    hide Holds, Split, PayloadSame;
    assert !x.chain[b].free && x.chain[b].size == size;
  }

  lemma ContentTrans(m1: Mem, m2: Mem, m3: Mem, b: int, k: int, size: int)
    requires PayloadSame(m1, m2, b, k) && PayloadSame(m2, m3, b, size) && k <= size
    ensures PayloadSame(m1, m3, b, k)
  {}

  /** The header writes that make the joined block one used block. */
  function Extended(w: View, b: int, nn: int, more: int): View {
    var x := BackLinked(SizeWritten(w, b, Rd(w.mem, b + 4) + more), nn, b);
    SizeWritten(x, nn, WithoutPrev(Rd(x.mem, nn + 4)))
  }

  lemma ExtendedHolds(v: View, w: View, b: int)
    requires JoinedFrom(v, w, b) && Rd(v.mem, b + 4) == Encoded(v.chain[b]) && !v.chain[b].free
    ensures var x := Extended(w, b, Next(w.chain, b), v.chain[Next(v.chain, b)].size + OVERHEAD);
            ReachedKeeping(v, x, w.chain, b, v.chain[b].size)
  {
    hide Holds, Merge, Tiled, LivePayloads, SameHeads, Extended, JoinedFrom, ReachedKeeping, Encoded, WithoutPrev, At;
    JoinedBlock(v, w, b);
    var nn := Next(w.chain, b);
    NextWord(v, w, b);
    ExtendedWrites(w, b, v.chain[Next(v.chain, b)].size + OVERHEAD);
    JoinedContent(v, w, Extended(w, b, nn, v.chain[Next(v.chain, b)].size + OVERHEAD), b);
  }

  lemma NextWord(v: View, w: View, b: int)
    requires JoinedFrom(v, w, b)
    ensures WithoutPrev(Rd(w.mem, Next(w.chain, b) + 4)) == Encoded(w.chain[Next(w.chain, b)])
    ensures Holds(w, {}, {b, Next(w.chain, b)})
  {
    hide Holds, LivePayloads, SameHeads, WithoutPrev;
    FlagWrites(w.chain[Next(w.chain, b)].(prevFree := true));
  }

  lemma ExtendedWrites(w: View, b: int, more: int)
    requires At(w.chain, w.first, w.end, b) && Next(w.chain, b) in w.chain && !w.chain[b].free && !w.chain[Next(w.chain, b)].free
    requires Holds(w, {}, {b, Next(w.chain, b)}) && Rd(w.mem, b + 4) + more == Encoded(w.chain[b])
    requires WithoutPrev(Rd(w.mem, Next(w.chain, b) + 4)) == Encoded(w.chain[Next(w.chain, b)])
    ensures CarvedFrom(w, Extended(w, b, Next(w.chain, b), more), w.chain, {})
  {
    hide Holds, Tiled, LivePayloads, WithoutPrev, Encoded;
    var nn := Next(w.chain, b);
    NextInside(w.chain, w.first, w.end, b);
    var w1 := SizeWritten(w, b, Rd(w.mem, b + 4) + more);
    SizeWrittenHolds(w, b, Encoded(w.chain[b]), {}, {b, nn});
    assert {b, nn} - {b} == {nn};
    var w2 := BackLinked(w1, nn, b);
    BackLinkedHolds(w1, b, {}, {nn});
    assert {nn} - {b} == {nn};
    assert Rd(w2.mem, nn + 4) == Rd(w.mem, nn + 4);
    FinishExtend(w, w1, w2, nn);
  }

  lemma FinishExtend(w: View, w1: View, w2: View, nn: int)
    requires Holds(w2, {}, {nn}) && w1.chain == w.chain && w2.chain == w.chain && w2.first == w.first && w2.end == w.end
    requires LivePayloads(w.mem, w1.mem, w.chain) && LivePayloads(w1.mem, w2.mem, w.chain)
    requires nn in w.chain && !w.chain[nn].free && WithoutPrev(Rd(w2.mem, nn + 4)) == Encoded(w.chain[nn])
    ensures CarvedFrom(w, SizeWritten(w2, nn, WithoutPrev(Rd(w2.mem, nn + 4))), w.chain, {})
  {
    hide Holds, LivePayloads, WithoutPrev, Encoded;
    var word := WithoutPrev(Rd(w2.mem, nn + 4));
    SizeWrittenHolds(w2, nn, word, {}, {nn});
    assert {nn} - {nn} == {};
    LiveTrans(w.mem, w1.mem, w2.mem, w.chain);
    LiveTrans(w.mem, w2.mem, SizeWritten(w2, nn, word).mem, w.chain);
  }

  lemma JoinedKept(v: View, w: View, b: int)
    requires JoinedFrom(v, w, b)
    ensures SameHeads(v.mem, w.mem, v.chain) && Rd(w.mem, b + 4) == Rd(v.mem, b + 4)
  {}

  lemma JoinedContent(v: View, w: View, x: View, b: int)
    requires JoinedFrom(v, w, b) && !v.chain[b].free
    requires Holds(x, {}, {}) && x.chain == w.chain && x.first == w.first && x.end == w.end && LivePayloads(w.mem, x.mem, w.chain)
    ensures ReachedKeeping(v, x, w.chain, b, v.chain[b].size)
  {
    hide Holds, Merge, Tiled, SameHeads;
    assert KeepsLive(v.chain, v.chain, b);
    LiveMeansKept(v.mem, w.mem, v.chain, v.chain, b);
    LiveMeansKept(w.mem, x.mem, v.chain, w.chain, b);
    KeptTrans(v.mem, w.mem, x.mem, v.chain, b);
    ContentTrans(v.mem, w.mem, x.mem, b, v.chain[b].size, w.chain[b].size);
  }

  // ---------------------------------------------------------------- free

  /** b marked free in its header, with its link words zeroed. */
  function Opened(v: View, b: int): View { Cleared(SizeWritten(v, b, WithFree(Rd(v.mem, b + 4))), b) }

  ghost predicate OpenedFrom(v: View, x: View, b: int) {
    && x.chain == v.chain && x.first == v.first && x.end == v.end && b in v.chain
    && Holds(x, {}, {b}) && PayloadsKept(v.mem, x.mem, v.chain, b)
    && Rd(x.mem, b + 4) == Encoded(v.chain[b].(free := true))
  }

  lemma OpenedHolds(v: View, b: int)
    requires Holds(v, {}, {}) && At(v.chain, v.first, v.end, b) && !v.chain[b].free
    ensures OpenedFrom(v, Opened(v, b), b)
  {
    hide Holds, Tiled, LivePayloads;
    var x := SizeWritten(v, b, WithFree(Rd(v.mem, b + 4)));
    HeaderIs(v, {}, {}, b);
    FlagWrites(v.chain[b]);
    SizeWrittenHolds(v, b, WithFree(Rd(v.mem, b + 4)), {}, {});
    assert {} + {b} == {b};
    ClearedHolds(x, b, {b});
    assert KeepsLive(v.chain, v.chain, b);
    LiveMeansKept(v.mem, x.mem, v.chain, v.chain, b);
    assert PayloadsKept(x.mem, Opened(v, b).mem, v.chain, b);
    KeptTrans(v.mem, x.mem, Opened(v, b).mem, v.chain, b);
  }

  /** b is marked free, any free block after it has been joined, its own list is not yet known. */
  ghost predicate Loose(v: View, x: View, b: int) { LooseChain(v, x, b) && LooseMem(v, x, b) }

  ghost predicate LooseChain(v: View, x: View, b: int) {
    && b in v.chain && Next(v.chain, b) in v.chain && b in x.chain && Next(x.chain, b) in x.chain
    && x.chain == Widened(v.chain, b) && x.first == v.first && x.end == v.end
    && At(x.chain, x.first, x.end, b) && !x.chain[b].free && !x.chain[Next(x.chain, b)].free
    && x.chain[b].size % 8 == 0 && x.chain[b].prevFree == v.chain[b].prevFree
  }

  ghost predicate LooseMem(v: View, x: View, b: int)
    requires b in x.chain && Next(x.chain, b) in x.chain
  {
    && Holds(x, {}, {b, Next(x.chain, b)})
    && Rd(x.mem, b + 4) == Encoded(x.chain[b].(free := true))
    && WithPrev(Rd(x.mem, Next(x.chain, b) + 4)) == Encoded(x.chain[Next(x.chain, b)].(prevFree := true))
    && PayloadsKept(v.mem, x.mem, v.chain, b)
  }

  lemma LooseAlone(v: View, x: View, b: int)
    requires Holds(v, {}, {}) && At(v.chain, v.first, v.end, b) && !v.chain[b].free && OpenedFrom(v, x, b)
    requires Next(v.chain, b) in v.chain && !v.chain[Next(v.chain, b)].free
    ensures Loose(v, x, b)
  {
    var n := Next(v.chain, b);
    NextInside(v.chain, v.first, v.end, b);
    HeaderIs(x, {}, {b}, n);
    FlagWrites(x.chain[n]);
    HeadsWiden(x.mem, x.chain, {b}, {b, n});
  }

  lemma LooseJoined(v: View, y: View, w: View, b: int)
    requires At(v.chain, v.first, v.end, b) && !v.chain[b].free && OpenedFrom(v, y, b) && JoinedFrom(y, w, b)
    requires v.chain[Next(v.chain, b)].free
    ensures Loose(v, SizeWritten(w, b, Rd(w.mem, b + 4) + v.chain[Next(v.chain, b)].size + OVERHEAD), b)
  {
    hide JoinedFrom, OpenedFrom, LooseChain, LooseMem, Tiled, Linked;
    LooseJoinedChain(v, y, w, b);
    var word := Rd(w.mem, b + 4) + v.chain[Next(v.chain, b)].size + OVERHEAD;
    LooseJoinedMem(v, y, w, b, word);
    SizeWrittenChain(v, w, b, word);
  }

  lemma SizeWrittenChain(v: View, w: View, b: int, word: int)
    requires LooseChain(v, w, b)
    ensures LooseChain(v, SizeWritten(w, b, word), b)
  {}

  lemma LooseJoinedChain(v: View, y: View, w: View, b: int)
    requires At(v.chain, v.first, v.end, b) && !v.chain[b].free && OpenedFrom(v, y, b) && JoinedFrom(y, w, b)
    requires v.chain[Next(v.chain, b)].free
    ensures LooseChain(v, w, b) && b in w.chain && Next(w.chain, b) in w.chain && b in v.chain && Next(v.chain, b) in v.chain
    ensures Rd(w.mem, b + 4) + v.chain[Next(v.chain, b)].size + OVERHEAD == Encoded(w.chain[b].(free := true))
  {
    hide Holds, Tiled, Merge, KeepsLive, LivePayloads, PayloadsKept;
    assert Rd(w.mem, b + 4) == Rd(y.mem, b + 4);
  }

  lemma LooseJoinedMem(v: View, y: View, w: View, b: int, word: int)
    requires OpenedFrom(v, y, b) && JoinedFrom(y, w, b) && word == Encoded(w.chain[b].(free := true))
    ensures LooseMem(v, SizeWritten(w, b, word), b)
  {
    hide Holds, Tiled, Merge, SameHeads, KeepsLive, LivePayloads, PayloadsKept, WithPrev, Encoded, JoinedFrom, OpenedFrom;
    JoinedWords(y, w, b);
    var nn := Next(w.chain, b);
    JoinedPayloads(v, y, w, b);
    SizeWrittenHolds(w, b, word, {}, {b, nn});
    assert {b, nn} + {b} == {b, nn};
    LiveAfterJoin(v, w, SizeWritten(w, b, word), b);
  }

  lemma JoinedWords(v: View, w: View, b: int)
    requires JoinedFrom(v, w, b)
    ensures b in w.chain && Next(w.chain, b) in w.chain && b < Next(w.chain, b) && Holds(w, {}, {b, Next(w.chain, b)})
    ensures WithPrev(Rd(w.mem, Next(w.chain, b) + 4)) == Encoded(w.chain[Next(w.chain, b)].(prevFree := true))
  {
    hide Holds, LivePayloads, SameHeads, WithPrev, KeepsLive, Merge;
    FlagWrites(w.chain[Next(w.chain, b)].(prevFree := true));
    NextInside(w.chain, w.first, w.end, b);
  }

  lemma JoinedPayloads(v: View, y: View, w: View, b: int)
    requires OpenedFrom(v, y, b) && JoinedFrom(y, w, b)
    ensures PayloadsKept(v.mem, w.mem, v.chain, b) && KeepsLive(v.chain, w.chain, b)
  {
    hide Holds, Tiled, Merge, SameHeads;
    assert KeepsLive(v.chain, v.chain, b);
    LiveMeansKept(y.mem, w.mem, v.chain, v.chain, b);
    KeptTrans(v.mem, y.mem, w.mem, v.chain, b);
  }

  lemma LiveAfterJoin(v: View, w: View, x: View, b: int)
    requires PayloadsKept(v.mem, w.mem, v.chain, b) && KeepsLive(v.chain, w.chain, b) && LivePayloads(w.mem, x.mem, w.chain)
    ensures PayloadsKept(v.mem, x.mem, v.chain, b)
  {
    hide PayloadsKept, KeepsLive, LivePayloads;
    LiveMeansKept(w.mem, x.mem, v.chain, w.chain, b);
    KeptTrans(v.mem, w.mem, x.mem, v.chain, b);
  }

  /** The free block a (b itself, or the one before it) is ready to be listed. */
  ghost predicate Ready(v: View, z: View, a: int, b: int) { ReadyChain(v, z, a, b) && ReadyMem(v, z, a, b) }

  ghost predicate ReadyChain(v: View, z: View, a: int, b: int) {
    && At(z.chain, z.first, z.end, a) && a in z.chain && z.chain[a].free && Next(z.chain, a) in z.chain
    && z.first == v.first && z.end == v.end
    && !z.chain[Next(z.chain, a)].free && (b == a || b !in z.chain)
    && 0 < z.chain[a].size < MAX_SIZE
    && KeepsLive(v.chain, z.chain, b)
  }

  ghost predicate ReadyMem(v: View, z: View, a: int, b: int)
    requires a in z.chain && Next(z.chain, a) in z.chain
  {
    && Holds(z, {a}, {b, Next(z.chain, a), a})
    && Rd(z.mem, a + 4) == Encoded(z.chain[a])
    && WithPrev(Rd(z.mem, Next(z.chain, a) + 4)) == Encoded(z.chain[Next(z.chain, a)])
    && PayloadsKept(v.mem, z.mem, v.chain, b)
  }

  lemma ReadyAlone(v: View, x: View, b: int)
    requires Loose(v, x, b) && !x.chain[b].prevFree && KeepsLive(v.chain, x.chain, b) && Coalesced(x.chain)
    ensures Ready(v, x.(chain := SetFree(x.chain, b, true)), b, b)
  {
    hide Holds, SetFree, Tiled, KeepsLive, PayloadsKept, Coalesced;
    LooseShape(v, x, b);
    var n := Next(x.chain, b);
    var z := x.(chain := SetFree(x.chain, b, true));
    SetFreeHolds(x, b, true, {b, n});
    assert {b, n} + {b, n} == {b, n, b};
    SetReleased(x.chain, x.first, x.end, b);
    SetFreeShape(x.chain, b, true);
    KeepsTrans(v.chain, x.chain, z.chain, b);
    TiledSetFree(x.chain, x.first, x.end, b, true);
    NextInside(x.chain, x.first, x.end, b);
    AtAgain(z.chain, z.first, z.end, b);
    SizeBelow(x, b);
    assert z.chain[n] == x.chain[n].(prevFree := true);
    assert z.chain[b] == x.chain[b].(free := true);
  }

  /** The free block before b takes over b's bytes. */
  function Absorbing(x: View, b: int, p: int, k: nat, fl: nat, sl: nat): View
    requires fl < REAL_FLI && sl < 32 && |x.matrix| == |x.lists| == CLASSES && |x.slb| == REAL_FLI
    requires k < |x.lists[32 * fl + sl]| && p in x.chain && Next(x.chain, p) in x.chain
  {
    var u := Unlinked(x, k, fl, sl);
    SizeWritten(u, p, Rd(u.mem, p + 4) + SizeOf(Rd(u.mem, b + 4)) + OVERHEAD).(chain := Merge(x.chain, p))
  }

  lemma ReadyPrevious(v: View, x: View, b: int, p: int, k: nat, fl: nat, sl: nat)
    requires Loose(v, x, b) && KeepsLive(v.chain, x.chain, b) && Coalesced(x.chain)
    requires At(x.chain, x.first, x.end, p) && x.chain[p].free && Next(x.chain, p) == b
    requires fl < REAL_FLI && sl < 32 && k < |x.lists[32 * fl + sl]| && x.lists[32 * fl + sl][k] == p
    ensures |x.matrix| == CLASSES && |x.slb| == REAL_FLI && Ready(v, Absorbing(x, b, p, k, fl, sl), p, b)
  {
    hide Unlinked, Loose, Holds, LivePayloads, SameHeads, KeepsLive, Coalesced, ReadyMem, At, ReadyChain, SizeWritten, Merge;
    LooseFacts(v, x, b);
    var u := Unlinked(x, k, fl, sl);
    UnlinkedHolds(x, k, fl, sl, {b, Next(x.chain, b)});
    UnlinkedIs(x, k, fl, sl);
    PreviousHeader(v, x, b, p);
    ReadyPreviousChain(v, x, b, p);
    AbsorbStep(v, x, u, b, p);
  }

  lemma LooseFacts(v: View, x: View, b: int)
    requires Loose(v, x, b)
    ensures b in x.chain && Next(x.chain, b) in x.chain && At(x.chain, x.first, x.end, b)
    ensures Holds(x, {}, {b, Next(x.chain, b)}) && |x.matrix| == |x.lists| == CLASSES && |x.slb| == REAL_FLI
  {}

  lemma AbsorbShape(v: View, x: View, b: int, p: int)
    requires Loose(v, x, b) && At(x.chain, x.first, x.end, p) && x.chain[p].free && Next(x.chain, p) == b
    ensures b in x.chain && p in x.chain && Next(x.chain, b) in x.chain && Next(x.chain, b) != p && b != p
    ensures var c, n := Merge(x.chain, p), Next(x.chain, b);
            && p in c && Next(c, p) == n && n in c && c[n] == x.chain[n].(prevFree := true)
            && c[p] == x.chain[p].(size := x.chain[p].size + OVERHEAD + x.chain[b].size)
  {
    NextInside(x.chain, x.first, x.end, b);
    NextInside(x.chain, x.first, x.end, p);
    MergeShape(x.chain, p);
  }

  lemma PreviousHeader(v: View, x: View, b: int, p: int)
    requires Loose(v, x, b) && At(x.chain, x.first, x.end, p) && x.chain[p].free && Next(x.chain, p) == b
    ensures Rd(x.mem, p + 4) == Encoded(x.chain[p]) && x.chain[p].size % 8 == 0
    ensures SizeOf(Rd(x.mem, b + 4)) == x.chain[b].size
  {
    NextInside(x.chain, x.first, x.end, b);
    NextInside(x.chain, x.first, x.end, p);
    HeaderIs(x, {}, {b, Next(x.chain, b)}, p);
    Decode(x.chain[b].(free := true));
  }

  lemma ReadyPreviousChain(v: View, x: View, b: int, p: int)
    requires Loose(v, x, b) && KeepsLive(v.chain, x.chain, b) && Coalesced(x.chain)
    requires At(x.chain, x.first, x.end, p) && x.chain[p].free && Next(x.chain, p) == b
    ensures ReadyChain(v, x.(chain := Merge(x.chain, p)), p, b)
  {
    hide Merge, Tiled, KeepsLive, Coalesced, LooseMem;
    var c := Merge(x.chain, p);
    NextInside(x.chain, x.first, x.end, b);
    NextInside(x.chain, x.first, x.end, p);
    AbsorbUsed(x.chain, x.first, x.end, p);
    MergeShape(x.chain, p);
    KeepsTrans(v.chain, x.chain, c, b);
    AtAgain(c, x.first, x.end, p);
    LooseShape(v, x, b);
    SizeBelow(x.(chain := c), p);
    assert c[p] == x.chain[p].(size := x.chain[p].size + OVERHEAD + x.chain[b].size);
    assert Next(c, p) == Next(x.chain, b);
  }

  lemma LooseShape(v: View, x: View, b: int)
    requires Loose(v, x, b)
    ensures Shape(x)
  {}

  lemma AbsorbStep(v: View, x: View, u: View, b: int, p: int)
    requires Loose(v, x, b) && KeepsLive(v.chain, x.chain, b)
    requires At(x.chain, x.first, x.end, p) && x.chain[p].free && Next(x.chain, p) == b
    requires u.chain == x.chain && u.first == x.first && u.end == x.end
    requires b in x.chain && Next(x.chain, b) in x.chain
    requires Holds(u, {p}, {b, Next(x.chain, b)})
    requires LivePayloads(x.mem, u.mem, x.chain) && SameHeads(x.mem, u.mem, x.chain)
    requires Rd(x.mem, p + 4) == Encoded(x.chain[p]) && SizeOf(Rd(x.mem, b + 4)) == x.chain[b].size
    requires ReadyChain(v, x.(chain := Merge(x.chain, p)), p, b)
    ensures var y := SizeWritten(u, p, Rd(u.mem, p + 4) + SizeOf(Rd(u.mem, b + 4)) + OVERHEAD);
            Ready(v, y.(chain := Merge(x.chain, p)), p, b)
  {
    hide Merge, Holds, Tiled, LivePayloads, KeepsLive, PayloadsKept, WithPrev, SizeOf, ReadyMem, SameHeads, Loose, Linked, At;
    var n := Next(x.chain, b);
    var word := Rd(x.mem, p + 4) + x.chain[b].size + OVERHEAD;
    AbsorbShape(v, x, b, p);
    SameHeadAt(x.mem, u.mem, x.chain, n);
    SameHeadAt(x.mem, u.mem, x.chain, p);
    SameHeadAt(x.mem, u.mem, x.chain, b);
    AbsorbMem(v, x, u, b, p, word);
  }

  lemma AbsorbMem(v: View, x: View, u: View, b: int, p: int, word: int)
    requires Loose(v, x, b) && KeepsLive(v.chain, x.chain, b)
    requires At(x.chain, x.first, x.end, p) && x.chain[p].free && Next(x.chain, p) == b
    requires u.chain == x.chain && u.first == x.first && u.end == x.end
    requires b in x.chain && Next(x.chain, b) in x.chain && p in Merge(x.chain, p) && Next(Merge(x.chain, p), p) == Next(x.chain, b)
    requires Holds(u, {p}, {b, Next(x.chain, b)}) && LivePayloads(x.mem, u.mem, x.chain)
    requires Rd(u.mem, Next(x.chain, b) + 4) == Rd(x.mem, Next(x.chain, b) + 4)
    requires Next(x.chain, b) in Merge(x.chain, p) && Next(x.chain, b) != p
    requires Merge(x.chain, p)[Next(x.chain, b)] == x.chain[Next(x.chain, b)].(prevFree := true)
    requires word == Encoded(Merge(x.chain, p)[p])
    ensures ReadyMem(v, SizeWritten(u, p, word).(chain := Merge(x.chain, p)), p, b)
  {
    hide Holds, Merge, Tiled, LivePayloads, KeepsLive, PayloadsKept, WithPrev, Encoded;
    var n := Next(x.chain, b);
    LoosePayloads(v, x, u, b, p, word);
    AbsorbHolds(u, b, p, word);
    assert Rd(SizeWritten(u, p, word).mem, n + 4) == Rd(u.mem, n + 4);
  }

  lemma LoosePayloads(v: View, x: View, u: View, b: int, p: int, word: int)
    requires Loose(v, x, b) && KeepsLive(v.chain, x.chain, b)
    requires LivePayloads(x.mem, u.mem, x.chain) && u.chain == x.chain && p in x.chain
    requires Holds(u, {p}, {b, Next(x.chain, b)})
    ensures PayloadsKept(v.mem, SizeWritten(u, p, word).mem, v.chain, b)
  {
    hide Holds, LivePayloads, KeepsLive, PayloadsKept;
    SizeWrittenHolds(u, p, word, {p}, {b, Next(x.chain, b)});
    LiveAfterJoin(v, x, u, b);
    LiveAfterJoin(v, u, SizeWritten(u, p, word), b);
  }

  lemma AbsorbHolds(u: View, b: int, p: int, word: int)
    requires At(u.chain, u.first, u.end, p) && u.chain[p].free && Next(u.chain, p) == b
    requires At(u.chain, u.first, u.end, b) && !u.chain[b].free && Next(u.chain, b) in u.chain
    requires Holds(u, {p}, {b, Next(u.chain, b)})
    ensures Holds(SizeWritten(u, p, word).(chain := Merge(u.chain, p)), {p}, {b, Next(u.chain, b), p})
  {
    hide Holds, Tiled;
    var n := Next(u.chain, b);
    SizeWrittenHolds(u, p, word, {p}, {b, n});
    MergedHolds(SizeWritten(u, p, word), p, {b, n} + {p});
    assert {b, n} + {p} + {p, n} == {b, n, p};
  }

  /** The last writes of free: list the block, then tell the block after it. */
  function Relinked(z: View, a: int, fl: nat, sl: nat): View
    requires fl < REAL_FLI && sl < 32 && |z.matrix| == |z.lists| == CLASSES && |z.slb| == REAL_FLI
    requires a in z.chain
  {
    var t, n := Pushed(z, a, fl, sl), Next(z.chain, a);
    BackLinked(SizeWritten(t, n, WithPrev(Rd(t.mem, n + 4))), n, a)
  }

  lemma RelinkedHolds(v: View, z: View, a: int, b: int, fl: nat, sl: nat)
    requires Ready(v, z, a, b) && fl < REAL_FLI && sl < 32 && BlockClass(z.chain[a]) == 32 * fl + sl
    ensures |z.matrix| == |z.lists| == CLASSES && |z.slb| == REAL_FLI
    ensures Reached(v, Relinked(z, a, fl, sl), z.chain, b)
  {
    hide Holds, Pushed, Tiled, LivePayloads, KeepsLive, PayloadsKept, WithPrev, Encoded, BlockClass;
    var n := Next(z.chain, a);
    IndexSizes(z, {a}, {b, n, a});
    PushedHolds(z, a, fl, sl, {b, n, a});
    PushedIs(z, a, fl, sl);
    NextInside(z.chain, z.first, z.end, a);
    FinishFree(v, z, Pushed(z, a, fl, sl), a, b);
  }

  lemma ReadyFacts(v: View, z: View, a: int, b: int)
    requires Ready(v, z, a, b)
    ensures At(z.chain, z.first, z.end, a) && a in z.chain && Next(z.chain, a) in z.chain && !z.chain[Next(z.chain, a)].free
    ensures (b == a || b !in z.chain) && Holds(z, {a}, {b, Next(z.chain, a), a}) && z.first == v.first && z.end == v.end
    ensures Rd(z.mem, a + 4) == Encoded(z.chain[a])
    ensures WithPrev(Rd(z.mem, Next(z.chain, a) + 4)) == Encoded(z.chain[Next(z.chain, a)])
    ensures PayloadsKept(v.mem, z.mem, v.chain, b) && KeepsLive(v.chain, z.chain, b)
  {}

  lemma SameHeadAt(m: Mem, m2: Mem, chain: Chain, a: int)
    requires SameHeads(m, m2, chain) && a in chain
    ensures Rd(m2, a + 4) == Rd(m, a + 4)
  {}

  lemma FinishFree(v: View, z: View, t: View, a: int, b: int)
    requires Ready(v, z, a, b) && t.chain == z.chain && t.first == z.first && t.end == z.end
    requires Holds(t, {}, {b, Next(z.chain, a), a}) && LivePayloads(z.mem, t.mem, z.chain) && SameHeads(z.mem, t.mem, z.chain)
    ensures var n := Next(z.chain, a);
            Reached(v, BackLinked(SizeWritten(t, n, WithPrev(Rd(t.mem, n + 4))), n, a), z.chain, b)
  {
    hide Ready, Holds, Tiled, LivePayloads, KeepsLive, PayloadsKept, WithPrev, Encoded, SameHeads, At, Linked;
    ReadyFacts(v, z, a, b);
    var n := Next(z.chain, a);
    SameHeadAt(z.mem, t.mem, z.chain, n);
    SameHeadAt(z.mem, t.mem, z.chain, a);
    FinishWrites(t, a, b, WithPrev(Rd(t.mem, n + 4)));
    LiveAfterJoin(v, z, t, b);
    LiveAfterJoin(v, t, BackLinked(SizeWritten(t, n, WithPrev(Rd(t.mem, n + 4))), n, a), b);
  }

  lemma FinishWrites(t: View, a: int, b: int, word: int)
    requires At(t.chain, t.first, t.end, a) && Next(t.chain, a) in t.chain && !t.chain[Next(t.chain, a)].free
    requires Holds(t, {}, {b, Next(t.chain, a), a}) && (b == a || b !in t.chain)
    requires word == Encoded(t.chain[Next(t.chain, a)]) && Rd(t.mem, a + 4) == Encoded(t.chain[a])
    ensures var n := Next(t.chain, a);
            var r := BackLinked(SizeWritten(t, n, word), n, a);
            Holds(r, {}, {}) && LivePayloads(t.mem, r.mem, t.chain)
  {
    hide Holds, Tiled, LivePayloads, Encoded;
    var n := Next(t.chain, a);
    NextInside(t.chain, t.first, t.end, a);
    var s := SizeWritten(t, n, word);
    SizeWrittenHolds(t, n, word, {}, {b, n, a});
    assert Rd(s.mem, a + 4) == Rd(t.mem, a + 4);
    BackLinkedHolds(s, a, {}, {b, n, a} - {n});
    SkipGone(BackLinked(s, n, a), {}, {b, n, a} - {n} - {a});
    LiveTrans(t.mem, s.mem, BackLinked(s, n, a).mem, t.chain);
  }

  // ---------------------------------------------------------------- the steps of free

  /** What free sees after marking b: the size of b and the state of the block after it. */
  ghost predicate AfterSeen(y: View, b: int, fl: nat, sl: nat, k: nat) {
    && b in y.chain && Next(y.chain, b) in y.chain && SizeOf(Rd(y.mem, b + 4)) == y.chain[b].size
    && SeenFree(y, Next(y.chain, b), fl, sl, k)
  }

  /** A block's free bit, and where it is listed when the bit is set. */
  ghost predicate SeenFree(y: View, n: int, fl: nat, sl: nat, k: nat)
    requires n in y.chain
  {
    && FreeBit(Rd(y.mem, n + 4)) == y.chain[n].free
    && |y.matrix| == |y.lists| == CLASSES && |y.slb| == REAL_FLI
    && (y.chain[n].free ==> ListedAt(y, n, fl, sl, k))
  }

  ghost predicate ListedAt(y: View, n: int, fl: nat, sl: nat, k: nat)
    requires n in y.chain && |y.lists| == CLASSES
  {
    && SizeOf(Rd(y.mem, n + 4)) == y.chain[n].size && 0 < y.chain[n].size < MAX_SIZE
    && MappingInsert(y.chain[n].size) == (fl, sl)
    && fl < REAL_FLI && sl < 32 && k < |y.lists[32 * fl + sl]| && y.lists[32 * fl + sl][k] == n
    && BlockClass(y.chain[n]) == 32 * fl + sl
  }

  lemma SeeFree(y: View, skipH: set<int>, n: int) returns (fl: nat, sl: nat, k: nat)
    requires Holds(y, {}, skipH) && n in y.chain && n !in skipH
    ensures SeenFree(y, n, fl, sl, k)
  {
    HeaderIs(y, {}, skipH, n);
    IndexSizes(y, {}, skipH);
    Decode(y.chain[n]);
    fl, sl, k := 0, 0, 0;
    if y.chain[n].free {
      k := FreeListed(y, skipH, n);
      FreeSize(y, n);
      hide Holds, At, BlockClass, Encoded;
      var i := MappingInsert(y.chain[n].size);
      fl, sl := i.0, i.1;
      ClassSplit(y.chain[n]);
    }
  }

  lemma FreeSize(y: View, n: int)
    requires n in y.chain && y.chain[n].free && (n != y.end ==> At(y.chain, y.first, y.end, n)) && n != y.end
    ensures y.chain[n].size > 0
  {}

  lemma ClassSplit(b: Block)
    requires 0 < b.size < MAX_SIZE
    ensures BlockClass(b) == 32 * MappingInsert(b.size).0 + MappingInsert(b.size).1
  {}

  lemma SeeAfter(v: View, y: View, b: int) returns (fl: nat, sl: nat, k: nat)
    requires At(v.chain, v.first, v.end, b) && OpenedFrom(v, y, b)
    ensures AfterSeen(y, b, fl, sl, k)
  {
    NextInside(v.chain, v.first, v.end, b);
    Decode(v.chain[b].(free := true));
    hide Holds, BlockClass, MappingInsert;
    fl, sl, k := SeeFree(y, {b}, Next(y.chain, b));
  }

  lemma JoinAfterIs(v: View, y: View, b: int, fl: nat, sl: nat, k: nat)
    requires Holds(v, {}, {}) && Coalesced(v.chain) && At(v.chain, v.first, v.end, b) && !v.chain[b].free && OpenedFrom(v, y, b)
    requires AfterSeen(y, b, fl, sl, k)
    ensures !y.chain[Next(y.chain, b)].free ==> Loose(v, y, b)
    ensures y.chain[Next(y.chain, b)].free ==>
              var w := Unlinked(y, k, fl, sl).(chain := Merge(y.chain, b));
              && SizeOf(Rd(w.mem, Next(y.chain, b) + 4)) == y.chain[Next(y.chain, b)].size
              && Loose(v, SizeWritten(w, b, Rd(w.mem, b + 4) + y.chain[Next(y.chain, b)].size + OVERHEAD), b)
  {
    hide Holds, Unlinked, Merge, BlockClass, MappingInsert, Coalesced, Encoded, Loose;
    var n := Next(y.chain, b);
    if y.chain[n].free {
      var w := Unlinked(y, k, fl, sl).(chain := Merge(y.chain, b));
      JoinNext(y, b, k, fl, sl, {b});
      JoinedHead(y, w, b);
      LooseJoined(v, y, w, b);
    } else {
      LooseAlone(v, y, b);
    }
  }

  lemma JoinedHead(y: View, w: View, b: int)
    requires JoinedFrom(y, w, b)
    ensures Rd(w.mem, Next(y.chain, b) + 4) == Rd(y.mem, Next(y.chain, b) + 4)
  {}

  /** What free sees before b: the previous block's address in b's header, and where it is listed. */
  ghost predicate BeforeSeen(x: View, b: int, fl: nat, sl: nat, k: nat) {
    && b in x.chain && Next(x.chain, b) in x.chain && PrevBit(Rd(x.mem, b + 4)) == x.chain[b].prevFree
    && (x.chain[b].prevFree ==> PreviousSeen(x, b, Rd(x.mem, b), fl, sl, k))
  }

  ghost predicate PreviousSeen(x: View, b: int, p: int, fl: nat, sl: nat, k: nat) {
    p in x.chain && x.chain[p].free && Next(x.chain, p) == b && At(x.chain, x.first, x.end, p) && SeenFree(x, p, fl, sl, k)
  }

  lemma SeeBefore(v: View, x: View, b: int) returns (fl: nat, sl: nat, k: nat)
    requires Loose(v, x, b)
    ensures BeforeSeen(x, b, fl, sl, k)
  {
    LooseFacts(v, x, b);
    Decode(x.chain[b].(free := true));
    fl, sl, k := 0, 0, 0;
    if x.chain[b].prevFree {
      var p := BlockBefore(x, b);
      hide Holds, BlockClass, MappingInsert;
      HeaderIs(x, {}, {b, Next(x.chain, b)}, p);
      fl, sl, k := SeeFree(x, {b, Next(x.chain, b)}, p);
    }
  }

  lemma BlockBefore(x: View, b: int) returns (p: int)
    requires Shape(x) && At(x.chain, x.first, x.end, b) && x.chain[b].prevFree
    ensures p in x.chain && p < b && Next(x.chain, p) == b && x.chain[p].free && At(x.chain, x.first, x.end, p)
    ensures p != Next(x.chain, b)
  {
    p := Predecessor(x.chain, x.first, x.end, b);
    NextInside(x.chain, x.first, x.end, b);
  }

  /** What happens to the chain when the free block before b is joined, or there is none. */
  ghost predicate JoinedBefore(x: View, a: int, b: int, c: Chain) {
    && b in x.chain && Next(x.chain, b) in x.chain
    && (x.chain[b].prevFree ==>
          a in x.chain && At(x.chain, x.first, x.end, a) && Next(x.chain, a) == b && c == Merge(x.chain, a))
    && (!x.chain[b].prevFree ==> a == b && c == SetFree(x.chain, b, true))
  }

  lemma JoinBeforeIs(v: View, x: View, b: int, fl: nat, sl: nat, k: nat)
    requires Loose(v, x, b) && KeepsLive(v.chain, x.chain, b) && Coalesced(x.chain) && BeforeSeen(x, b, fl, sl, k)
    ensures !x.chain[b].prevFree ==>
              var z := x.(chain := SetFree(x.chain, b, true));
              Ready(v, z, b, b) && JoinedBefore(x, b, b, z.chain)
    ensures x.chain[b].prevFree ==>
              var p := Rd(x.mem, b);
              && fl < REAL_FLI && sl < 32 && |x.matrix| == |x.lists| == CLASSES && |x.slb| == REAL_FLI
              && k < |x.lists[32 * fl + sl]| && p in x.chain && Next(x.chain, p) in x.chain
              && Ready(v, Absorbing(x, b, p, k, fl, sl), p, b) && JoinedBefore(x, p, b, Merge(x.chain, p))
  {
    hide Holds, Absorbing, Merge, SetFree, BlockClass, MappingInsert, Coalesced, Encoded, Loose, KeepsLive, Ready, FreeBit, At;
    if x.chain[b].prevFree {
      ReadyPrevious(v, x, b, Rd(x.mem, b), k, fl, sl);
    } else {
      ReadyAlone(v, x, b);
    }
  }

  /** What free(b) makes of the pool: b joined with its free neighbours, nothing else touched. */
  ghost predicate GivenBack(v: View, w: View, b: int) {
    var p := Rd(v.mem, b);
    && b in v.chain && Next(v.chain, b) in v.chain && b in Widened(v.chain, b) && Next(Widened(v.chain, b), b) in Widened(v.chain, b)
    && (v.chain[b].prevFree ==> p in Widened(v.chain, b) && Next(Widened(v.chain, b), p) == b)
    && w.chain == Released(v.chain, b, p) && w.first == v.first && w.end == v.end
    && (b in w.chain ==> w.chain[b].free)
    && KeepsLive(v.chain, w.chain, b) && PayloadsKept(v.mem, w.mem, v.chain, b)
  }

  lemma GivenBackIs(v: View, x: View, w: View, a: int, b: int)
    requires Holds(v, {}, {}) && Coalesced(v.chain) && At(v.chain, v.first, v.end, b) && !v.chain[b].free
    requires LooseChain(v, x, b) && JoinedBefore(x, a, b, w.chain) && Reached(v, w, w.chain, b)
    ensures GivenBack(v, w, b) && Holds(w, {}, {}) && Coalesced(w.chain)
    ensures TotalFree(w.chain, w.first, w.end) == TotalFree(v.chain, v.first, v.end) + (v.chain[b].size + OVERHEAD)
  {
    var p := Rd(v.mem, b);
    if v.chain[b].prevFree {
      p := BlockBefore(v, b);
      HeaderIs(v, {}, {}, p);
      WidenedPrevious(v.chain, v.first, v.end, b, p);
      Successors(x.chain, x.first, x.end, p, a);
    }
    ReleasedOk(v.chain, v.first, v.end, b, p);
    FreedGone(v, x, a, b, w.chain);
    hide Widened, Merge, SetFree, KeepsLive, PayloadsKept, HeadsBut, ListsOk, BitsOk, Agree, Distinct, At;
  }

  lemma FreedGone(v: View, x: View, a: int, b: int, c: Chain)
    requires LooseChain(v, x, b) && JoinedBefore(x, a, b, c)
    ensures b in c ==> c[b].free
  {}

  lemma WidenedFacts(v: View, x: View, b: int)
    requires Holds(v, {}, {}) && Coalesced(v.chain) && At(v.chain, v.first, v.end, b) && !v.chain[b].free
    requires LooseChain(v, x, b)
    ensures KeepsLive(v.chain, x.chain, b) && Coalesced(x.chain)
  {
    hide Widened, KeepsLive, HeadsBut, ListsOk, BitsOk, Agree, Distinct;
    WidenedOk(v.chain, v.first, v.end, b);
  }

  /** Where the last step of free finds its words. */
  lemma ReadyWords(v: View, z: View, a: int, b: int) returns (fl: nat, sl: nat)
    requires Ready(v, z, a, b)
    ensures a in z.chain && Next(z.chain, a) in z.chain && SizeOf(Rd(z.mem, a + 4)) == z.chain[a].size
    ensures 0 < z.chain[a].size < MAX_SIZE && MappingInsert(z.chain[a].size) == (fl, sl)
    ensures |z.matrix| == |z.lists| == CLASSES && |z.slb| == REAL_FLI && fl < REAL_FLI && sl < 32
    ensures Rd(Pushed(z, a, fl, sl).mem, a + 4) == Rd(z.mem, a + 4)
    ensures Reached(v, Relinked(z, a, fl, sl), z.chain, b)
  {
    ReadyFacts(v, z, a, b);
    SizeBelow(z, a);
    Decode(z.chain[a]);
    IndexSizes(z, {a}, {b, Next(z.chain, a), a});
    ClassSplit(z.chain[a]);
    var i := MappingInsert(z.chain[a].size);
    fl, sl := i.0, i.1;
    hide Holds, Pushed, Relinked, Reached, BlockClass, MappingInsert, At, ReadyMem;
    RelinkedHolds(v, z, a, b, fl, sl);
    PushedHead(z, a, b, fl, sl);
  }

  lemma PushedHead(z: View, a: int, b: int, fl: nat, sl: nat)
    requires a in z.chain && Next(z.chain, a) in z.chain && Holds(z, {a}, {b, Next(z.chain, a), a}) && z.chain[a].free
    requires fl < REAL_FLI && sl < 32 && BlockClass(z.chain[a]) == 32 * fl + sl
    ensures |z.matrix| == |z.lists| == CLASSES && |z.slb| == REAL_FLI
    ensures Rd(Pushed(z, a, fl, sl).mem, a + 4) == Rd(z.mem, a + 4)
  {
    IndexSizes(z, {a}, {b, Next(z.chain, a), a});
    hide Pushed;
    PushedHolds(z, a, fl, sl, {b, Next(z.chain, a), a});
  }

  lemma OpenedFacts(v: View, y: View, b: int)
    requires OpenedFrom(v, y, b)
    ensures Holds(y, {}, {b})
  {}

  lemma LooseIs(v: View, x: View, b: int)
    requires Loose(v, x, b)
    ensures LooseChain(v, x, b)
  {}

  lemma ReachedIs(v: View, w: View, c: Chain, b: int)
    requires Reached(v, w, c, b)
    ensures w.chain == c && w.first == v.first && w.end == v.end && Holds(w, {}, {})
  {}

  /** The header of a live block, before and after free marks it. */
  lemma LiveWords(v: View, b: int)
    requires Holds(v, {}, {}) && b in v.chain && b != v.end && !v.chain[b].free
    ensures At(v.chain, v.first, v.end, b)
    ensures SizeOf(Rd(v.mem, b + 4)) == v.chain[b].size == SizeOf(WithFree(Rd(v.mem, b + 4)))
  {
    HeaderIs(v, {}, {}, b);
    FlagWrites(v.chain[b]);
    Decode(v.chain[b]);
    Decode(v.chain[b].(free := true));
  }

  // ---------------------------------------------------------------- the steps of realloc in place

  lemma SeeNext(v: View, b: int) returns (fl: nat, sl: nat, k: nat)
    requires Holds(v, {}, {}) && At(v.chain, v.first, v.end, b)
    ensures AfterSeen(v, b, fl, sl, k)
  {
    NextInside(v.chain, v.first, v.end, b);
    HeaderIs(v, {}, {}, b);
    Decode(v.chain[b]);
    hide Holds, BlockClass, MappingInsert;
    fl, sl, k := SeeFree(v, {}, Next(v.chain, b));
  }

  /** b was resized to at least n bytes where it is, keeping the first k payload bytes. */
  ghost predicate InPlace(v: View, w: View, b: int, n: nat, k: int) {
    && b in v.chain && Next(v.chain, b) in v.chain && b in Widened(v.chain, b)
    && Next(Widened(v.chain, b), b) in Widened(v.chain, b) && n <= Widened(v.chain, b)[b].size
    && ReachedKeeping(v, w, Resized(v.chain, b, n), b, k)
  }

  /** State w can be cut at n, which keeps the first k payload bytes. */
  ghost predicate CutsTo(v: View, w: View, b: int, n: nat, k: int) {
    && b in w.chain && Next(w.chain, b) in w.chain && n + 16 <= w.chain[b].size < MAX_SIZE
    && |w.matrix| == |w.lists| == CLASSES && |w.slb| == REAL_FLI
    && InPlace(v, Carved(w, b, n), b, n, k)
  }

  /** What joining the block after b makes of the sizes. */
  ghost predicate JoinedSizes(v: View, w: View, b: int) {
    && b in v.chain && Next(v.chain, b) in v.chain && b in w.chain && Next(w.chain, b) in w.chain
    && SizeOf(Rd(w.mem, Next(v.chain, b) + 4)) == v.chain[Next(v.chain, b)].size
    && w.chain[b].size == v.chain[b].size + OVERHEAD + v.chain[Next(v.chain, b)].size
  }

  lemma ShrinkIs(v: View, b: int, n: nat, fl: nat, sl: nat, k: nat)
    requires Holds(v, {}, {}) && Coalesced(v.chain) && At(v.chain, v.first, v.end, b) && !v.chain[b].free
    requires AfterSeen(v, b, fl, sl, k) && n >= MIN_BLOCK && n % 8 == 0 && n <= v.chain[b].size
    ensures v.chain[Next(v.chain, b)].free ==>
              var w := Unlinked(v, k, fl, sl).(chain := Merge(v.chain, b));
              JoinedSizes(v, w, b) && CutsTo(v, w, b, n, n)
    ensures !v.chain[Next(v.chain, b)].free && n + 16 <= v.chain[b].size ==> CutsTo(v, v, b, n, n)
    ensures !v.chain[Next(v.chain, b)].free && n + 16 > v.chain[b].size ==> InPlace(v, v, b, n, n)
  {
    hide Holds, Unlinked, Merge, BlockClass, MappingInsert, Coalesced, Encoded, At, CutsTo, InPlace, JoinedSizes;
    if v.chain[Next(v.chain, b)].free {
      var w := Unlinked(v, k, fl, sl).(chain := Merge(v.chain, b));
      JoinSized(v, b, fl, sl, k);
      ShrinkJoined(v, w, b, n);
    } else {
      ShrinkAlone(v, b, n);
    }
  }

  lemma JoinSized(v: View, b: int, fl: nat, sl: nat, k: nat)
    requires Holds(v, {}, {}) && Coalesced(v.chain) && At(v.chain, v.first, v.end, b) && !v.chain[b].free
    requires AfterSeen(v, b, fl, sl, k) && v.chain[Next(v.chain, b)].free
    ensures var w := Unlinked(v, k, fl, sl).(chain := Merge(v.chain, b));
            && JoinedFrom(v, w, b) && JoinedSizes(v, w, b) && Rd(v.mem, b + 4) == Encoded(v.chain[b])
            && v.chain[Next(v.chain, b)].size >= MIN_BLOCK
  {
    hide Holds, Unlinked, Merge, BlockClass, MappingInsert, Coalesced, Encoded, At, JoinedFrom, SizeOf, FreeBit;
    HoldsShape(v);
    NextLarge(v, b);
    HeaderIs(v, {}, {}, b);
    var w := Unlinked(v, k, fl, sl).(chain := Merge(v.chain, b));
    JoinNext(v, b, k, fl, sl, {});
    JoinedHead(v, w, b);
    JoinedBlock(v, w, b);
  }

  lemma HoldsShape(v: View)
    requires Holds(v, {}, {})
    ensures Shape(v)
  {}

  lemma NextLarge(v: View, b: int)
    requires Shape(v) && At(v.chain, v.first, v.end, b) && Next(v.chain, b) in v.chain && v.chain[Next(v.chain, b)].free
    ensures v.chain[Next(v.chain, b)].size >= MIN_BLOCK && b != v.end
  {
    NextInside(v.chain, v.first, v.end, Next(v.chain, b));
  }

  lemma ShrinkJoined(v: View, w: View, b: int, n: nat)
    requires JoinedFrom(v, w, b) && JoinedSizes(v, w, b) && Rd(v.mem, b + 4) == Encoded(v.chain[b])
    requires v.chain[Next(v.chain, b)].free && v.chain[Next(v.chain, b)].size >= MIN_BLOCK && !v.chain[b].free
    requires n >= MIN_BLOCK && n % 8 == 0 && n <= v.chain[b].size
    ensures CutsTo(v, w, b, n, n)
  {
    JoinedLive(v, w, b, n);
    hide Holds, Merge, Encoded, At, LivePayloads, KeepsLive, SameHeads, PayloadsKept, Carved, Split, Splittable;
    SplitJoined(v, w, b, n);
    CutResized(v, w, b, n, n);
  }

  lemma JoinedLive(v: View, w: View, b: int, n: nat)
    requires JoinedFrom(v, w, b) && n <= v.chain[b].size && !v.chain[b].free
    ensures KeepsLive(v.chain, w.chain, b) && PayloadsKept(v.mem, w.mem, v.chain, b) && PayloadSame(v.mem, w.mem, b, n)
  {
    hide Holds, Merge, SameHeads;
    assert KeepsLive(v.chain, v.chain, b);
    LiveMeansKept(v.mem, w.mem, v.chain, v.chain, b);
    assert PayloadSame(v.mem, w.mem, b, v.chain[b].size);
  }

  lemma ShrinkAlone(v: View, b: int, n: nat)
    requires Holds(v, {}, {}) && At(v.chain, v.first, v.end, b) && !v.chain[b].free
    requires Next(v.chain, b) in v.chain && !v.chain[Next(v.chain, b)].free
    requires n >= MIN_BLOCK && n % 8 == 0 && n <= v.chain[b].size
    ensures n + 16 <= v.chain[b].size ==> CutsTo(v, v, b, n, n)
    ensures n + 16 > v.chain[b].size ==> InPlace(v, v, b, n, n)
  {
    hide Holds, Encoded, At, KeepsLive, PayloadsKept, Carved, Split, Splittable;
    IsIn(v, b);
    if n + 16 <= v.chain[b].size {
      SplitHeld(v, b, n);
      Unmoved(v, b);
      CutResized(v, v, b, n, n);
    } else {
      Unmoved(v, b);
    }
  }

  lemma IsIn(v: View, b: int)
    requires At(v.chain, v.first, v.end, b)
    ensures b in v.chain
  {}

  lemma Unmoved(v: View, b: int)
    ensures KeepsLive(v.chain, v.chain, b) && PayloadsKept(v.mem, v.mem, v.chain, b)
  {}

  lemma GrowIs(v: View, b: int, n: nat, fl: nat, sl: nat, k: nat)
    requires Holds(v, {}, {}) && Coalesced(v.chain) && At(v.chain, v.first, v.end, b) && !v.chain[b].free
    requires AfterSeen(v, b, fl, sl, k) && v.chain[Next(v.chain, b)].free
    requires n % 8 == 0 && v.chain[b].size < n <= v.chain[b].size + v.chain[Next(v.chain, b)].size
    ensures var w := Unlinked(v, k, fl, sl).(chain := Merge(v.chain, b));
            var more := v.chain[Next(v.chain, b)].size + OVERHEAD;
            && JoinedSizes(v, w, b) && SizeOf(Rd(w.mem, b + 4) + more) == w.chain[b].size
            && Grown(v, w, Extended(w, b, Next(w.chain, b), more), b, n)
  {
    hide Holds, Unlinked, Merge, BlockClass, MappingInsert, Coalesced, Encoded, At, CutsTo, InPlace, JoinedSizes, Extended, JoinedFrom, Grown;
    var w := Unlinked(v, k, fl, sl).(chain := Merge(v.chain, b));
    JoinSized(v, b, fl, sl, k);
    GrowJoined(v, w, b, n);
  }

  /** The joined block with its headers written, ready to be cut or used whole. */
  ghost predicate Grown(v: View, w: View, x: View, b: int, n: nat) {
    && b in v.chain && b in x.chain && x.chain == w.chain && SizeOf(Rd(x.mem, b + 4)) == x.chain[b].size && n <= x.chain[b].size
    && (n + 16 <= x.chain[b].size ==> CutsTo(v, x, b, n, v.chain[b].size))
    && (n + 16 > x.chain[b].size ==> InPlace(v, x, b, n, v.chain[b].size))
  }

  lemma GrowJoined(v: View, w: View, b: int, n: nat)
    requires JoinedFrom(v, w, b) && JoinedSizes(v, w, b) && Rd(v.mem, b + 4) == Encoded(v.chain[b])
    requires v.chain[Next(v.chain, b)].free && !v.chain[b].free
    requires n % 8 == 0 && v.chain[b].size < n <= v.chain[b].size + v.chain[Next(v.chain, b)].size && n >= MIN_BLOCK
    ensures var more := v.chain[Next(v.chain, b)].size + OVERHEAD;
            SizeOf(Rd(w.mem, b + 4) + more) == w.chain[b].size && Grown(v, w, Extended(w, b, Next(w.chain, b), more), b, n)
  {
    hide Extended, SizeOf, Encoded, JoinedFrom, ReachedKeeping, Grown;
    JoinedBlock(v, w, b);
    Decode(w.chain[b]);
    ExtendedHolds(v, w, b);
    GrownIs(v, w, Extended(w, b, Next(w.chain, b), v.chain[Next(v.chain, b)].size + OVERHEAD), b, n);
  }

  lemma GrownIs(v: View, w: View, x: View, b: int, n: nat)
    requires JoinedFrom(v, w, b) && Rd(v.mem, b + 4) == Encoded(v.chain[b])
    requires v.chain[Next(v.chain, b)].free && ReachedKeeping(v, x, w.chain, b, v.chain[b].size)
    requires n % 8 == 0 && v.chain[b].size < n <= v.chain[b].size + v.chain[Next(v.chain, b)].size && n >= MIN_BLOCK
    ensures Grown(v, w, x, b, n)
  {
    hide JoinedFrom, Encoded, InPlace, CutsTo, Merge, SizeOf, KeepsLive, PayloadsKept, At, Holds, PayloadSame, Reached;
    JoinedBlock(v, w, b);
    ReachedIs(v, x, w.chain, b);
    HandedOutSize(v, x, b);
    if n + 16 <= x.chain[b].size { GrowCut(v, x, b, n); } else { GrowWhole(v, x, b, n); }
  }

  lemma JoinedBlock(v: View, w: View, b: int)
    requires JoinedFrom(v, w, b) && Rd(v.mem, b + 4) == Encoded(v.chain[b])
    ensures b in w.chain && b in v.chain && Next(v.chain, b) in v.chain && Next(w.chain, b) in w.chain
    ensures w.chain[b].size == v.chain[b].size + OVERHEAD + v.chain[Next(v.chain, b)].size
    ensures At(w.chain, w.first, w.end, b) && !w.chain[b].free && !w.chain[Next(w.chain, b)].free && w.chain == Merge(v.chain, b)
    ensures KeepsLive(v.chain, w.chain, b) && w.chain[b].size % 8 == 0 && w.first == v.first && w.end == v.end
    ensures Rd(w.mem, b + 4) + v.chain[Next(v.chain, b)].size + OVERHEAD == Encoded(w.chain[b])
  {
    JoinedKept(v, w, b);
  }

  lemma GrowWhole(v: View, x: View, b: int, n: nat)
    requires b in v.chain && Next(v.chain, b) in v.chain && v.chain[Next(v.chain, b)].free && x.chain == Merge(v.chain, b)
    requires b in x.chain && Next(x.chain, b) in x.chain && n <= x.chain[b].size < n + 16
    requires ReachedKeeping(v, x, x.chain, b, v.chain[b].size)
    ensures InPlace(v, x, b, n, v.chain[b].size)
  {
    hide Reached, Merge, PayloadSame;
  }

  lemma GrowCut(v: View, x: View, b: int, n: nat)
    requires b in v.chain && Next(v.chain, b) in v.chain && v.chain[Next(v.chain, b)].free && x.chain == Merge(v.chain, b)
    requires At(x.chain, x.first, x.end, b) && Next(x.chain, b) in x.chain && !x.chain[b].free && !x.chain[Next(x.chain, b)].free
    requires KeepsLive(v.chain, x.chain, b) && ReachedKeeping(v, x, x.chain, b, v.chain[b].size)
    requires n % 8 == 0 && v.chain[b].size < n && n >= MIN_BLOCK && n + 16 <= x.chain[b].size
    ensures CutsTo(v, x, b, n, v.chain[b].size)
  {
    hide Holds, Merge, At, KeepsLive, PayloadsKept, Carved, Split, PayloadSame, Splittable;
    SplitHeld(x, b, n);
    CutResized(v, x, b, n, v.chain[b].size);
  }

  lemma InPlaceIs(v: View, w: View, b: int, n: nat, k: int)
    requires Holds(v, {}, {}) && Coalesced(v.chain) && At(v.chain, v.first, v.end, b) && !v.chain[b].free
    requires n >= MIN_BLOCK && n % 8 == 0 && InPlace(v, w, b, n, k)
    ensures Holds(w, {}, {}) && Coalesced(w.chain) && w.first == v.first && w.end == v.end
    ensures b in w.chain && !w.chain[b].free && n <= w.chain[b].size <= n + 8 && b != w.end
    ensures KeepsLive(v.chain, w.chain, b) && PayloadsKept(v.mem, w.mem, v.chain, b) && PayloadSame(v.mem, w.mem, b, k)
    ensures TotalFree(w.chain, w.first, w.end) == TotalFree(v.chain, v.first, v.end) - (w.chain[b].size - v.chain[b].size)
    ensures SizeOf(Rd(w.mem, b + 4)) == w.chain[b].size
  {
    hide Resized, Widened, KeepsLive, PayloadsKept, PayloadSame, HeadsBut, ListsOk, BitsOk, Agree, Distinct, SizeOf, BlockClass;
    ResizedOk(v.chain, v.first, v.end, b, n);
    HandedOutSize(w, w, b);
  }

  // ---------------------------------------------------------------- realloc by copying

  function PayloadAt(m: Mem, b: int, i: int): int { Rd(m, b + OVERHEAD + i) }

  /** The first k payload bytes of block b of m are those of block a of m2. */
  ghost predicate Copied(m: Mem, m2: Mem, b: int, a: int, k: int) {
    forall i | 0 <= i < k :: PayloadAt(m2, a, i) == PayloadAt(m, b, i)
  }

  /** Only the first k payload bytes of a differ. */
  ghost predicate OnlyPayload(m: Mem, m2: Mem, a: int, k: int) {
    forall x | !(a + OVERHEAD <= x < a + OVERHEAD + k) :: Rd(m2, x) == Rd(m, x)
  }

  /** The owner of a live block may write its payload. */
  lemma PayloadWrite(v: View, m2: Mem, a: int, k: int)
    requires Holds(v, {}, {}) && At(v.chain, v.first, v.end, a) && !v.chain[a].free && k <= v.chain[a].size
    requires OnlyPayload(v.mem, m2, a, k)
    ensures Holds(v.(mem := m2), {}, {}) && PayloadsKept(v.mem, m2, v.chain, a)
  {
    hide Distinct, BitsOk, BlockClass;
    forall x | x in v.chain ensures HeadAt(m2, v.chain, x) { HeadMissed(v, m2, a, k, x); }
    forall d: nat | d < CLASSES ensures ListAt(m2, v.matrix[d], v.lists[d]) { ListMissed(v, m2, a, k, d); }
    forall p | p in v.chain && !v.chain[p].free && p != a ensures PayloadSame(v.mem, m2, p, v.chain[p].size) {
      OtherPayload(v, m2, a, k, p);
    }
  }

  lemma HeadMissed(v: View, m2: Mem, a: int, k: int, x: int)
    requires Shape(v) && HeadsBut(v.mem, v.chain, {}) && At(v.chain, v.first, v.end, a) && k <= v.chain[a].size
    requires OnlyPayload(v.mem, m2, a, k) && x in v.chain
    ensures HeadAt(m2, v.chain, x)
  {
    assert HeadAt(v.mem, v.chain, x);
    if x > a { assert Next(v.chain, a) <= x; }
    if v.chain[x].free {
      NextInside(v.chain, v.first, v.end, x);
      var n := Next(v.chain, x);
      if n > a { assert Next(v.chain, a) <= n; }
    }
  }

  lemma ListMissed(v: View, m2: Mem, a: int, k: int, d: nat)
    requires Shape(v) && ListsOk(v.mem, v.matrix, v.lists) && Agree(v.chain, v.lists, {}) && d < CLASSES
    requires At(v.chain, v.first, v.end, a) && !v.chain[a].free && k <= v.chain[a].size && OnlyPayload(v.mem, m2, a, k)
    ensures ListAt(m2, v.matrix[d], v.lists[d])
  {
    var s := v.lists[d];
    assert ListAt(v.mem, v.matrix[d], s);
    TiledSpaced(v.chain, v.first, v.end);
    forall i: nat | i < |s| ensures NodeOk(m2, s, i) {
      assert NodeOk(v.mem, s, i) && Member(v.chain, {}, d, s[i]);
      if s[i] > a { assert Next(v.chain, a) <= s[i]; }
      if s[i] < a { assert s[i] + 16 <= a; }
    }
  }

  lemma OtherPayload(v: View, m2: Mem, a: int, k: int, p: int)
    requires Shape(v) && At(v.chain, v.first, v.end, a) && k <= v.chain[a].size && OnlyPayload(v.mem, m2, a, k)
    requires p in v.chain && p != a
    ensures PayloadSame(v.mem, m2, p, v.chain[p].size)
  {
    if p < a { assert Next(v.chain, p) <= a; } else { assert Next(v.chain, a) <= p; }
  }

  /** realloc's promise: block a has at least r bytes, its first bytes are b's old ones, and
      every other live block and payload is as it was; when a is another block, it was free
      before and b is no longer live. */
  ghost predicate Reallocated(v: View, w: View, b: int, a: int, r: nat) {
    && b in v.chain && a in w.chain && a != w.end && !w.chain[a].free && r <= w.chain[a].size
    && Copied(v.mem, w.mem, b, a, if v.chain[b].size < r then v.chain[b].size else r)
    && KeepsLive(v.chain, w.chain, b) && PayloadsKept(v.mem, w.mem, v.chain, b)
    && (a != b ==> a in v.chain && v.chain[a].free && (b in w.chain ==> w.chain[b].free))
  }

  lemma CopiedInPlace(m: Mem, m2: Mem, b: int, k: int)
    requires PayloadSame(m, m2, b, k)
    ensures Copied(m, m2, b, b, k)
  {}

  /** malloc, copy, free: y is the pool after malloc, z after the copy, w at the end. */
  lemma RelocatedIs(v: View, y: View, z: View, w: View, b: int, a: int, r: nat, n: nat)
    requires Provided(v, y, a, r, n) && b in v.chain && !v.chain[b].free && v.chain[b].size < r
    requires z == y.(mem := z.mem) && a != y.end && b in y.chain
    requires Copied(y.mem, z.mem, b, a, v.chain[b].size) && PayloadsKept(y.mem, z.mem, y.chain, a)
    requires GivenBack(z, w, b)
    ensures Reallocated(v, w, b, a, r)
  {
    hide Allocated, Widened, Released, BlockClass;
    assert a != b;
    assert PayloadSame(z.mem, w.mem, a, z.chain[a].size);
    assert PayloadSame(v.mem, y.mem, b, v.chain[b].size);
    forall p | p in v.chain && !v.chain[p].free && p != b ensures PayloadSame(v.mem, w.mem, p, v.chain[p].size) {
      KeptThrice(v, y, z, w, b, a, p);
    }
    forall i | 0 <= i < v.chain[b].size ensures PayloadAt(w.mem, a, i) == PayloadAt(v.mem, b, i) {
      assert PayloadAt(z.mem, a, i) == PayloadAt(y.mem, b, i);
    }
  }

  lemma KeptThrice(v: View, y: View, z: View, w: View, b: int, a: int, p: int)
    requires KeepsLive(v.chain, y.chain, a) && PayloadsKept(v.mem, y.mem, v.chain, a)
    requires PayloadsKept(y.mem, z.mem, y.chain, a) && z.chain == y.chain
    requires KeepsLive(z.chain, w.chain, b) && PayloadsKept(z.mem, w.mem, z.chain, b)
    requires p in v.chain && !v.chain[p].free && p != b && p != a
    ensures PayloadSame(v.mem, w.mem, p, v.chain[p].size)
  {
    assert PayloadSame(v.mem, y.mem, p, v.chain[p].size);
    assert PayloadSame(y.mem, z.mem, p, v.chain[p].size);
    assert PayloadSame(z.mem, w.mem, p, v.chain[p].size);
  }

  /** The copying path after its malloc: both blocks are there and do not overlap. */
  lemma ReadyToCopy(v: View, y: View, b: int, a: int, r: nat, n: nat)
    requires Provided(v, y, a, r, n) && Holds(y, {}, {}) && b in v.chain && b != v.end && !v.chain[b].free && a != y.end
    ensures b in y.chain && !y.chain[b].free && SizeOf(Rd(y.mem, b + 4)) == y.chain[b].size == v.chain[b].size
    ensures a in y.chain && At(y.chain, y.first, y.end, a) && !y.chain[a].free && r <= y.chain[a].size && a != b
    ensures b + OVERHEAD + y.chain[b].size <= a || a + OVERHEAD + y.chain[a].size <= b
  {
    hide Allocated, PayloadsKept, BlockClass, ListsOk, BitsOk, Agree, Distinct;
    LiveWords(y, b);
    LiveWords(y, a);
    if b < a { assert Next(y.chain, b) <= a; } else { assert Next(y.chain, a) <= b; }
  }

  lemma ResizedInPlace(v: View, w: View, b: int, n: nat, k: int)
    requires Holds(v, {}, {}) && Coalesced(v.chain) && At(v.chain, v.first, v.end, b) && !v.chain[b].free
    requires n >= MIN_BLOCK && n % 8 == 0 && InPlace(v, w, b, n, k)
    requires k == if v.chain[b].size < n then v.chain[b].size else n
    ensures Holds(w, {}, {}) && Coalesced(w.chain) && w.first == v.first && w.end == v.end
    ensures Reallocated(v, w, b, b, n) && w.chain[b].size <= n + 8
    ensures TotalFree(w.chain, w.first, w.end) == TotalFree(v.chain, v.first, v.end) - (w.chain[b].size - v.chain[b].size)
    ensures SizeOf(Rd(w.mem, b + 4)) == w.chain[b].size
  {
    hide InPlace, KeepsLive, PayloadsKept, PayloadSame, Holds, Coalesced, SizeOf, TotalFree, Copied;
    InPlaceIs(v, w, b, n, k);
    CopiedInPlace(v.mem, w.mem, b, k);
  }

  lemma ProvidedLive(v: View, w: View, a: int, r: nat, n: nat)
    requires Provided(v, w, a, r, n) && Shape(w) && r > 0
    ensures a != w.end && a in w.chain && !w.chain[a].free && w.end == v.end && w.first == v.first
  {}

  /** The block handed out keeps its size while the old one is freed. */
  lemma SizeStays(z: View, w: View, b: int, a: int)
    requires GivenBack(z, w, b) && a in z.chain && !z.chain[a].free && a != b
    ensures a in w.chain && w.chain[a].size == z.chain[a].size
  {}

  // ---------------------------------------------------------------- a new pool

  function NewChain(first: int, size: nat): Chain {
    map[first := Block(size, true, false), first + OVERHEAD + size := Block(0, false, true)]
  }

  function NoHeads(): seq<int> { seq(CLASSES, _ => 0) }
  function NoBits(): seq<Word> { seq(REAL_FLI, _ => 0) }
  function NoLists(): Lists { seq(CLASSES, _ => []) }

  /** The zeroed control structure and pool, with the first size word written. */
  function Blank(first: int, size: nat): View {
    View(map[first + 4 := size + 1], NoHeads(), NoBits(), 0,
         NewChain(first, size), NoLists(), first, first + OVERHEAD + size)
  }

  lemma NewChainOk(first: int, size: nat)
    requires size >= MIN_BLOCK && size % 8 == 0
    ensures Tiled(NewChain(first, size), first, first + OVERHEAD + size) && Coalesced(NewChain(first, size))
    ensures At(NewChain(first, size), first, first + OVERHEAD + size, first)
    ensures TotalFree(NewChain(first, size), first, first + OVERHEAD + size) == size + OVERHEAD
  {
    var c, end := NewChain(first, size), first + OVERHEAD + size;
    assert Next(c, first) == end && Linked(c, first);
    assert FreeBytes(c, first, end, end) == 0;
  }

  lemma BlankHolds(first: int, size: nat)
    requires 0 < first && MIN_BLOCK <= size && size < MAX_SIZE && size % 8 == 0
    ensures Holds(Blank(first, size), {first}, {first, first + OVERHEAD + size})
  {
    NewChainOk(first, size);
    var v := Blank(first, size);
    assert BitsOk(v.slb, v.flb, v.lists) by { forall k: nat ensures !Bit(0, k) { BitZero(k); } }
    hide BitsOk, Bit, Tiled;
  }

  /** The writes after the first INSERT_BLOCK: the sentinel's header. */
  function Formatted(first: int, size: nat, fl: nat, sl: nat): View
    requires fl < REAL_FLI && sl < 32
  {
    var end := first + OVERHEAD + size;
    SizeWritten(BackLinked(Pushed(Blank(first, size), first, fl, sl), end, first), end, 2)
  }

  lemma FormattedHolds(first: int, size: nat)
    requires 0 < first && MIN_BLOCK <= size && size < MAX_SIZE && size % 8 == 0
    ensures var i := MappingInsert(size);
            Holds(Formatted(first, size, i.0, i.1), {}, {}) && Formatted(first, size, i.0, i.1).chain == NewChain(first, size)
  {
    hide Holds, BlockClass, MappingInsert, Tiled, At, Coalesced, TotalFree, Pushed, LivePayloads;
    var end, i := first + OVERHEAD + size, MappingInsert(size);
    var v := Blank(first, size);
    BlankHolds(first, size);
    NewChainOk(first, size);
    RemainderClass(size);
    PushedHolds(v, first, i.0, i.1, {first, end});
    PushedIs(v, first, i.0, i.1);
    var w := Pushed(v, first, i.0, i.1);
    assert Rd(w.mem, first + 4) == Encoded(w.chain[first]);
    BackLinkedHolds(w, first, {}, {first, end});
    var x := BackLinked(w, end, first);
    assert {first, end} - {first} == {end};
    SizeWrittenHolds(x, end, 2, {}, {end});
    assert {end} - {end} == {};
  }

  lemma FormattedBounds(first: int, size: nat)
    requires 0 < size < MAX_SIZE
    ensures var i := MappingInsert(size); var w := Formatted(first, size, i.0, i.1);
            w.first == first && w.end == first + OVERHEAD + size
  {
    hide MappingInsert, SetBit, PushMem;
  }

  // ---------------------------------------------------------------- what consistency means to callers

  /** Live payloads lie inside the pool and do not overlap. */
  lemma LiveDisjoint(v: View, a: int, b: int)
    requires Holds(v, {}, {}) && a in v.chain && b in v.chain && !v.chain[a].free && !v.chain[b].free
    requires a != v.end && b != v.end
    ensures v.first + OVERHEAD <= a + OVERHEAD < a + OVERHEAD + v.chain[a].size <= v.end
    ensures a != b ==> a + OVERHEAD + v.chain[a].size <= b || b + OVERHEAD + v.chain[b].size <= a
  {
    NextInside(v.chain, v.first, v.end, a);
    if a < b { assert Next(v.chain, a) <= b; }
    if b < a { assert Next(v.chain, b) <= a; }
  }

  /** Block a is on list (fl, sl) exactly when it is free and its size maps to (fl, sl); the
      heads, links and bitmaps of the C structure describe these lists. */
  lemma IndexExact(v: View, a: int, fl: nat, sl: nat)
    requires Holds(v, {}, {}) && fl < REAL_FLI && sl < 32
    ensures |v.lists| == |v.matrix| == CLASSES && |v.slb| == REAL_FLI
    ensures a in v.lists[32 * fl + sl] <==>
              a in v.chain && v.chain[a].free && 0 < v.chain[a].size < MAX_SIZE && MappingInsert(v.chain[a].size) == (fl, sl)
    ensures ListAt(v.mem, v.matrix[32 * fl + sl], v.lists[32 * fl + sl])
    ensures Bit(v.slb[fl], sl) <==> v.matrix[32 * fl + sl] != 0
    ensures Bit(v.flb, fl) <==> v.slb[fl] != 0
  {
    hide Bit, MappingInsert, Tiled;
    var c := 32 * fl + sl;
    HeadIsMember(v, c, {});
    if a in v.lists[c] {
      var i: nat :| i < |v.lists[c]| && v.lists[c][i] == a;
      assert Member(v.chain, {}, c, a);
    }
    if a in v.chain && v.chain[a].free {
      HeaderIs(v, {}, {}, a);
      assert Linked(v.chain, a);
      ClassSplit(v.chain[a]);
    }
  }
}
