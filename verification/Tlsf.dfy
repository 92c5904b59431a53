/** The TLSF pool: malloc, free and realloc over raw pool words (runtime/libtvm/tlsf.c). */
module Tlsf {
  import opened Words
  import opened TlsfIndex
  import opened TlsfChain
  import opened TlsfLists
  import opened TlsfState
  import opened TlsfSteps
  import opened TlsfPlan
  import opened TlsfView
  import opened TlsfOps

  /** sizeof(tlsf_t): three words, 24 second-level bitmaps and the 24 by 32 matrix. */
  const CONTROL_SIZE: int := 3180
  /** sizeof(bhdr_t). */
  const HEADER_SIZE: int := 16

  function RoundUp8(r: int): (s: int)
    ensures s % 8 == 0 && r <= s < r + 8
  {
    (r + 7) - (r + 7) % 8
  }

  function RoundDown8(r: int): (s: int)
    ensures s % 8 == 0 && s <= r < s + 8
  {
    r - r % 8
  }

  /** The block size a request asks for. */
  function Request(size: nat): (r: nat)
    ensures r >= MIN_BLOCK && r % 8 == 0 && r >= size
    ensures size <= 8 ==> r == 8
    ensures size > 8 ==> r < size + 8
  {
    if size < MIN_BLOCK then MIN_BLOCK else RoundUp8(size)
  }

  /** It is the least multiple of 8 that is at least 8 and holds the request. */
  lemma RequestIsLeast(size: nat, m: nat)
    requires m % 8 == 0 && m >= 8 && m >= size
    ensures Request(size) <= m
  {
    hide Request;
  }

  function FoundIn(x: Word): (r: nat)
    ensures x != 0 ==> r == LsBit(x) && r < 32
  {
    if LsBit(x) < 0 then 0 else LsBit(x)
  }

  /** A request the size classes can express. */
  predicate Serviceable(size: nat) { Request(size) < MAX_SIZE && SearchSize(Request(size)) < MAX_SIZE }

  /** The pools tlsf_init_memory_pool accepts. */
  predicate Formattable(poolSize: nat, pool: nat) {
    && pool != 0 && pool % 4 == 0 && poolSize >= CONTROL_SIZE + 128
    && RoundDown8(poolSize - CONTROL_SIZE - 2 * OVERHEAD) < MAX_SIZE
  }

  lemma SizeFits(poolSize: nat, size: int)
    requires poolSize >= CONTROL_SIZE + 128 && size == RoundDown8(poolSize - CONTROL_SIZE - 2 * OVERHEAD) < MAX_SIZE
    ensures size % 8 == 0 && MIN_BLOCK <= size && size < MAX_SIZE
  {}

  /** The sentinel's header lies inside the pool exactly for sizes at most 3 above a multiple of 8. */
  lemma SentinelInside(poolSize: nat, pool: nat)
    ensures var size := RoundDown8(poolSize - CONTROL_SIZE - 2 * OVERHEAD);
            pool + RoundUp8(CONTROL_SIZE) + 2 * OVERHEAD + size <= pool + poolSize <==> poolSize % 8 < 4
  {}

  lemma NoPrev()
    ensures !PrevBit(0)
  {}

  class Pool {
    var mem: Mem
    var matrix: seq<int>
    var slBitmap: seq<Word>
    var flBitmap: Word
    var usedSize: int
    /** What the words above represent. */
    ghost var chain: Chain
    ghost var lists: Lists
    ghost var first: int
    ghost var end: int
    /** Pool size plus one header. */
    ghost var total: int

    ghost function V(): View
      reads this
    {
      View(mem, matrix, slBitmap, flBitmap, chain, lists, first, end)
    }

    /** The consistency of a pool between calls. */
    ghost predicate Valid()
      reads this
    {
      && Holds(V(), {}, {}) && Coalesced(chain)
      && usedSize + TotalFree(chain, first, end) == total
    }

    predicate Sizes()
      reads this
    {
      |matrix| == CLASSES && |slBitmap| == REAL_FLI
    }

    /** tlsf_init_memory_pool: one free block and the size-0 sentinel, or -1. */
    method InitMemoryPool(poolSize: nat, pool: nat) returns (r: int)
      modifies this
      ensures r == -1 <==> !Formattable(poolSize, pool)
      ensures r == -1 <==>
        pool == 0 || pool % 4 != 0 || poolSize < 3308 || (poolSize - 3196) - (poolSize - 3196) % 8 >= 0x4000_0000
      ensures r != -1 ==>
        && Valid() && r == RoundDown8(poolSize - CONTROL_SIZE - 2 * OVERHEAD) && first == pool + RoundUp8(CONTROL_SIZE)
        && chain == NewChain(first, r) && end == first + OVERHEAD + r && total == poolSize + OVERHEAD
      ensures r != -1 ==> (end + OVERHEAD <= pool + poolSize <==> poolSize % 8 < 4)
    {
      hide Holds, Coalesced, TotalFree, MappingInsert, At, Tiled, Formatted, NoHeads, NoBits, NoLists, NewChain;
      if pool == 0 || poolSize == 0 || poolSize < CONTROL_SIZE + 128 { return -1; }
      if pool % 4 != 0 { return -1; }
      mem, matrix, slBitmap, flBitmap := map[], NoHeads(), NoBits(), 0;
      var b := pool + RoundUp8(CONTROL_SIZE);
      var size := RoundDown8(poolSize - CONTROL_SIZE - 2 * OVERHEAD);
      mem := mem[b + 4 := size + 1];
      if size + 1 > MAX_SIZE { return -1; }
      SizeFits(poolSize, size);
      FormattedHolds(b, size);
      NewChainOk(b, size);
      FormattedBounds(b, size);
      SentinelInside(poolSize, pool);
      first, end, chain, lists, total := b, b + OVERHEAD + size, NewChain(b, size), NoLists(), poolSize + OVERHEAD;
      ListAndSeal(b, size);
      usedSize := poolSize - size;
      r := size;
    }

    /** List the only block of a new pool and write the sentinel behind it. */
    method ListAndSeal(b: int, size: nat)
      requires 0 < size < MAX_SIZE && V() == Blank(b, size)
      modifies this`mem, this`matrix, this`slBitmap, this`flBitmap, this`lists
      ensures V() == Formatted(b, size, MappingInsert(size).0, MappingInsert(size).1)
    {
      hide MappingInsert, SetBit;
      var (fl, sl) := MappingInsert(size);
      InsertBlock(b, fl, sl);
      var lb := b + OVERHEAD + size;
      mem := mem[lb := b];
      mem := mem[lb + 4 := 2];
    }

    /** INSERT_BLOCK */
    method InsertBlock(b: int, fl: nat, sl: nat)
      requires fl < REAL_FLI && sl < 32 && |V().matrix| == |V().lists| == CLASSES && |V().slb| == REAL_FLI
      modifies this`mem, this`matrix, this`slBitmap, this`flBitmap, this`lists
      ensures V() == Pushed(old(V()), b, fl, sl)
    {
      var c := 32 * fl + sl;
      var h := matrix[c];
      mem := mem[LinkPrev(b) := 0][LinkNext(b) := h];
      if h != 0 { mem := mem[LinkPrev(h) := b]; }
      matrix := matrix[c := b];
      slBitmap := slBitmap[fl := SetBit(sl, slBitmap[fl])];
      flBitmap := SetBit(fl, flBitmap);
      lists := lists[c := [b] + lists[c]];
    }

    /** EXTRACT_BLOCK: unlink node k of list (fl, sl). */
    method ExtractBlock(b: int, fl: nat, sl: nat, ghost k: nat, ghost skipH: set<int>)
      requires Holds(V(), {}, skipH) && fl < REAL_FLI && sl < 32
      requires k < |lists[32 * fl + sl]| && lists[32 * fl + sl][k] == b
      modifies this`mem, this`matrix, this`slBitmap, this`flBitmap, this`lists
      ensures V() == Unlinked(old(V()), k, fl, sl)
    {
      hide Holds, Drop, ClearBit, UnlinkNodes;
      var c := 32 * fl + sl;
      LinkWords(V(), c, k, skipH);
      IndexSizes(V(), {}, skipH);
      var n, p := Rd(mem, LinkNext(b)), Rd(mem, LinkPrev(b));
      ghost var rest := Drop(lists[c], k);
      lists := lists[c := rest];
      if n != 0 { mem := mem[LinkPrev(n) := p]; }
      if p != 0 { mem := mem[LinkNext(p) := n]; }
      if matrix[c] == b {
        matrix := matrix[c := n];
        if n == 0 { ClearBits(fl, sl); }
      }
      mem := mem[LinkPrev(b) := 0][LinkNext(b) := 0];
      assert matrix == old(matrix)[c := HeadOf(rest)];
    }

    /** EXTRACT_BLOCK_HDR: unlink the first block of list (fl, sl). */
    method ExtractBlockHdr(b: int, fl: nat, sl: nat)
      requires Holds(V(), {}, {}) && fl < REAL_FLI && sl < 32
      requires 0 < |lists[32 * fl + sl]| && lists[32 * fl + sl][0] == b
      modifies this`mem, this`matrix, this`slBitmap, this`flBitmap, this`lists
      ensures V() == Unlinked(old(V()), 0, fl, sl)
    {
      hide Holds, Drop, ClearBit, UnlinkNodes;
      var c := 32 * fl + sl;
      LinkWords(V(), c, 0, {});
      IndexSizes(V(), {}, {});
      var n := Rd(mem, LinkNext(b));
      ghost var rest := Drop(lists[c], 0);
      lists := lists[c := rest];
      matrix := matrix[c := n];
      if n != 0 {
        mem := mem[LinkPrev(n) := 0];
      } else {
        ClearBits(fl, sl);
      }
      mem := mem[LinkPrev(b) := 0][LinkNext(b) := 0];
    }

    /** clear_bit on the second level, and on the first level when the row became empty. */
    method ClearBits(fl: nat, sl: nat)
      requires fl < REAL_FLI && sl < 32 && |slBitmap| == REAL_FLI
      modifies this`slBitmap, this`flBitmap
      ensures slBitmap == old(slBitmap)[fl := ClearBit(sl, old(slBitmap)[fl])]
      ensures flBitmap == if slBitmap[fl] == 0 then ClearBit(fl, old(flBitmap)) else old(flBitmap)
    {
      slBitmap := slBitmap[fl := ClearBit(sl, slBitmap[fl])];
      if slBitmap[fl] == 0 { flBitmap := ClearBit(fl, flBitmap); }
    }

    /** FIND_SUITABLE_BLOCK: the head of the first non-empty list from (fl0, sl0) onwards. */
    method FindSuitableBlock(fl0: nat, sl0: nat) returns (b: int, fl: nat, sl: nat)
      requires Holds(V(), {}, {}) && fl0 < REAL_FLI && sl0 < 32
      ensures b == 0 ==> EmptyLists(lists, 32 * fl0 + sl0, CLASSES)
      ensures b != 0 ==>
        && fl < REAL_FLI && sl < 32 && 32 * fl0 + sl0 <= 32 * fl + sl
        && lists[32 * fl + sl] != [] && b == lists[32 * fl + sl][0]
        && EmptyLists(lists, 32 * fl0 + sl0, 32 * fl + sl)
    {
      hide Bit, MaskFrom, And, FirstFrom, LsBit, Tiled, HeadsBut, Distinct, Agree, ListsOk;
      IndexSizes(V(), {}, {});
      SuitableIsFirst(slBitmap, flBitmap, lists, fl0, sl0);
      FirstFromIs(slBitmap[fl0], sl0);
      FirstFromIs(flBitmap, fl0 + 1);
      fl, sl, b := fl0, sl0, 0;
      var tmp := And(slBitmap[fl], MaskFrom(sl)) % W;
      if tmp != 0 {
        sl := FirstFrom(slBitmap[fl], sl);
        HeadIsMember(V(), 32 * fl + sl, {});
        b := matrix[32 * fl + sl];
      } else {
        var row := FirstFrom(flBitmap, fl + 1);
        if row > 0 {
          fl, sl := row, FoundIn(slBitmap[row]);
          HeadIsMember(V(), 32 * fl + sl, {});
          b := matrix[32 * fl + sl];
        }
      }
    }

    // ------------------------------------------------------------ splitting

    /** The remainder of used block b becomes a free block in front of nextB. */
    method SplitOff(b: int, nextB: int, size: nat, more: nat, mark: bool)
      requires Sizes() && |lists| == CLASSES && b in chain && Next(chain, b) in chain && nextB == Next(chain, b)
      requires size + 16 <= chain[b].size < MAX_SIZE && more == chain[b].size - size - OVERHEAD
      requires mark || PrevBit(Rd(mem, nextB + 4))
      modifies this`mem, this`matrix, this`slBitmap, this`flBitmap, this`lists, this`chain
      ensures V() == Carved(old(V()), b, size)
    {
      hide PrevBit, Split, MappingInsert, SetBit;
      var b2 := b + OVERHEAD + size;
      mem := mem[b2 + 4 := more + 1][nextB := b2];
      if mark { mem := mem[nextB + 4 := WithPrev(Rd(mem, nextB + 4))]; }
      NoPrev();
      chain := Split(chain, b, size);
      assert V() == Remainder(old(V()), b, size);
      var (fl, sl) := MappingInsert(more);
      InsertBlock(b2, fl, sl);
      mem := mem[b + 4 := size + (if PrevBit(Rd(mem, b + 4)) then 2 else 0)];
    }

    // ------------------------------------------------------------ malloc

    /** MAPPING_SEARCH */
    method MappingSearch(r: Word) returns (n: nat, fl: nat, sl: nat)
      requires 0 < r < MAX_SIZE && SearchSize(r) < MAX_SIZE
      ensures n == SearchSize(r) && fl < REAL_FLI && sl < 32 && 32 * fl + sl == SearchClass(r)
    {
      SearchIsFloor(r);
      if r < SMALL_BLOCK {
        n, fl, sl := r, 0, r / (SMALL_BLOCK / 32);
      } else {
        var t := SearchStep(r);
        var big := r + t;
        var i := MappingInsert(big);
        n, fl, sl := big - big % (t + 1), i.0, i.1;
      }
    }

    /** tlsf_malloc once a block is found: unlink it, cut it if the remainder can hold a
        header, and account for it. */
    method HandOut(b: int, fl: nat, sl: nat, size: nat)
      requires Holds(V(), {}, {}) && Coalesced(chain)
      requires fl < REAL_FLI && sl < 32 && lists[32 * fl + sl] != [] && lists[32 * fl + sl][0] == b
      requires size >= MIN_BLOCK && size % 8 == 0 && b in chain && size <= chain[b].size && Next(chain, b) in chain
      modifies this`mem, this`matrix, this`slBitmap, this`flBitmap, this`lists, this`chain, this`usedSize
      ensures Reached(old(V()), V(), Allocated(old(chain), b, size), b)
      ensures b in chain && usedSize == old(usedSize) + chain[b].size + OVERHEAD
    {
      hide Holds, PayloadsKept, SetFree, SizeOf, Unlinked, Allocated, Coalesced, Reached, HandsOut;
      ghost var v := V();
      HandsOutIs(v, fl, sl, size);
      ExtractBlockHdr(b, fl, sl);
      chain := SetFree(chain, b, false);
      CutTaken(b, size, v);
      usedSize := usedSize + SizeOf(Rd(mem, b + 4)) + OVERHEAD;
    }

    /** Cut the block taken if the remainder can hold a header. */
    method CutTaken(b: int, size: nat, ghost v: View)
      requires HandsOut(v, V(), b, size)
      modifies this`mem, this`matrix, this`slBitmap, this`flBitmap, this`lists, this`chain
      ensures b in v.chain && Next(v.chain, b) in v.chain && size <= v.chain[b].size && HandedOut(v, V(), b, size)
    {
      hide WithoutPrev, WithoutFree, SizeOf, PrevBit, Carved, HandedOut;
      var whole := SizeOf(Rd(mem, b + 4));
      var nextB := b + OVERHEAD + whole;
      if whole - size >= HEADER_SIZE {
        SplitOff(b, nextB, size, whole - size - OVERHEAD, false);
      } else {
        mem := mem[nextB + 4 := WithoutPrev(Rd(mem, nextB + 4))];
        mem := mem[b + 4 := WithoutFree(Rd(mem, b + 4))];
      }
    }

    /** tlsf_malloc. Null is returned exactly when no free block has the rounded size, and
        then nothing has changed. */
    method Malloc(size: nat) returns (ptr: int)
      requires Valid() && Serviceable(size)
      modifies this`mem, this`matrix, this`slBitmap, this`flBitmap, this`lists, this`chain, this`usedSize
      ensures Valid()
      ensures ptr == 0 <==> NoFit(old(chain), SearchSize(Request(size)))
      ensures ptr == 0 ==> V() == old(V()) && usedSize == old(usedSize)
      ensures ptr != 0 ==> Provided(old(V()), V(), ptr - OVERHEAD, Request(size), SearchSize(Request(size)))
      ensures ptr != 0 ==> ptr > OVERHEAD && (ptr - OVERHEAD) in chain
      ensures ptr != 0 ==> usedSize == old(usedSize) + chain[ptr - OVERHEAD].size + OVERHEAD
    {
      hide Holds, Coalesced, TotalFree, SearchSize, SearchClass, Allocated, PayloadsKept, KeepsLive;
      ghost var v := V();
      IndexSizes(v, {}, {});
      var r := Request(size);
      var n, fl0, sl0 := MappingSearch(r);
      var b, fl, sl := FindSuitableBlock(fl0, sl0);
      if b == 0 {
        NothingFits(v, r);
        return 0;
      }
      FoundFits(v, r, 32 * fl + sl);
      ListedBlock(v, fl, sl);
      SearchAligned(r);
      SearchIsFloor(r);
      HandOut(b, fl, sl, n);
      ProvidedIs(v, V(), b, r);
      ptr := b + OVERHEAD;
    }

    // ------------------------------------------------------------ free

    /** ptr was returned by malloc or realloc and not freed since. */
    ghost predicate Live(ptr: int)
      reads this
    {
      ptr - OVERHEAD in chain && ptr - OVERHEAD != end && !chain[ptr - OVERHEAD].free
    }

    /** A free block after b is unlinked and its bytes are added to b. */
    method JoinAfter(b: int, ghost v: View)
      requires Holds(v, {}, {}) && Coalesced(v.chain) && At(v.chain, v.first, v.end, b) && !v.chain[b].free
      requires OpenedFrom(v, V(), b)
      modifies this`mem, this`matrix, this`slBitmap, this`flBitmap, this`lists, this`chain
      ensures Loose(v, V(), b)
    {
      hide Holds, Coalesced, Loose, Merge, SizeOf, FreeBit, BlockClass, MappingInsert, Unlinked, OpenedFrom, At;
      ghost var y := V();
      ghost var gfl, gsl, k := SeeAfter(v, y, b);
      JoinAfterIs(v, y, b, gfl, gsl, k);
      OpenedFacts(v, y, b);
      var tmp := b + OVERHEAD + SizeOf(Rd(mem, b + 4));
      if FreeBit(Rd(mem, tmp + 4)) {
        var (fl, sl) := MappingInsert(SizeOf(Rd(mem, tmp + 4)));
        ExtractBlock(tmp, fl, sl, k, {b});
        chain := Merge(chain, b);
        mem := mem[b + 4 := Rd(mem, b + 4) + SizeOf(Rd(mem, tmp + 4)) + OVERHEAD];
      }
    }

    /** A free block before b is unlinked and takes over b's bytes. */
    method JoinBefore(b: int, ghost v: View) returns (a: int)
      requires Loose(v, V(), b) && KeepsLive(v.chain, chain, b) && Coalesced(chain)
      modifies this`mem, this`matrix, this`slBitmap, this`flBitmap, this`lists, this`chain
      ensures Ready(v, V(), a, b) && JoinedBefore(old(V()), a, b, chain)
    {
      hide Holds, Coalesced, Loose, Merge, SetFree, SizeOf, FreeBit, PrevBit, BlockClass, MappingInsert, Unlinked, KeepsLive, Ready, JoinedBefore, At;
      ghost var x := V();
      ghost var gfl, gsl, k := SeeBefore(v, x, b);
      JoinBeforeIs(v, x, b, gfl, gsl, k);
      LooseFacts(v, x, b);
      a := b;
      if PrevBit(Rd(mem, b + 4)) {
        var tmp := Rd(mem, b);
        var (fl, sl) := MappingInsert(SizeOf(Rd(mem, tmp + 4)));
        ExtractBlock(tmp, fl, sl, k, {b, Next(chain, b)});
        mem := mem[tmp + 4 := Rd(mem, tmp + 4) + SizeOf(Rd(mem, b + 4)) + OVERHEAD];
        chain := Merge(chain, tmp);
        a := tmp;
      } else {
        chain := SetFree(chain, b, true);
      }
    }

    /** List the free block a and tell the block after it. */
    method Relist(a: int, ghost b: int, ghost v: View)
      requires Ready(v, V(), a, b)
      modifies this`mem, this`matrix, this`slBitmap, this`flBitmap, this`lists
      ensures Reached(v, V(), old(V()).chain, b)
    {
      hide Holds, SizeOf, WithPrev, BlockClass, MappingInsert, Pushed, Reached, Ready;
      ghost var z := V();
      ghost var gfl, gsl := ReadyWords(v, z, a, b);
      var (fl, sl) := MappingInsert(SizeOf(Rd(mem, a + 4)));
      InsertBlock(a, fl, sl);
      var tmp := a + OVERHEAD + SizeOf(Rd(mem, a + 4));
      TellNext(tmp, a);
    }

    /** The block at n learns that the block before it is the free block a. */
    method TellNext(n: int, a: int)
      modifies this`mem
      ensures V() == BackLinked(SizeWritten(old(V()), n, WithPrev(Rd(old(V()).mem, n + 4))), n, a)
    {
      mem := mem[n + 4 := WithPrev(Rd(mem, n + 4))];
      mem := mem[n := a];
    }

    /** tlsf_free */
    method Free(ptr: int)
      requires Valid() && (ptr != 0 ==> Live(ptr))
      modifies this`mem, this`matrix, this`slBitmap, this`flBitmap, this`lists, this`chain, this`usedSize
      ensures Valid()
      ensures ptr == 0 ==> V() == old(V()) && usedSize == old(usedSize)
      ensures ptr != 0 ==> GivenBack(old(V()), V(), ptr - OVERHEAD)
      ensures ptr != 0 ==> usedSize == old(usedSize) - (old(chain)[ptr - OVERHEAD].size + OVERHEAD)
    {
      hide Holds, Coalesced, TotalFree, SizeOf, WithFree, GivenBack, Loose, Ready, Reached, JoinedBefore, OpenedFrom, At;
      if ptr == 0 { return; }
      ghost var v := V();
      var b := ptr - OVERHEAD;
      LiveWords(v, b);
      OpenedHolds(v, b);
      mem := mem[b + 4 := WithFree(Rd(mem, b + 4))];
      usedSize := usedSize - (SizeOf(Rd(mem, b + 4)) + OVERHEAD);
      mem := mem[LinkPrev(b) := 0][LinkNext(b) := 0];
      JoinAfter(b, v);
      ghost var x := V();
      LooseIs(v, x, b);
      WidenedFacts(v, x, b);
      var a := JoinBefore(b, v);
      Relist(a, b, v);
      ReachedIs(v, V(), chain, b);
      GivenBackIs(v, x, V(), a, b);
    }

    // ------------------------------------------------------------ realloc

    /** The request is no bigger than the block: take in a free block after it, then cut. */
    method Shrink(b: int, size: nat)
      requires Holds(V(), {}, {}) && Coalesced(chain) && At(chain, first, end, b) && !chain[b].free
      requires size >= MIN_BLOCK && size % 8 == 0 && size <= chain[b].size
      modifies this`mem, this`matrix, this`slBitmap, this`flBitmap, this`lists, this`chain
      ensures InPlace(old(V()), V(), b, size, size)
    {
      hide Holds, Coalesced, At, SizeOf, FreeBit, PrevBit, MappingInsert, BlockClass, Unlinked, Merge, Carved, InPlace, Split;
      ghost var v := V();
      ghost var gfl, gsl, k := SeeNext(v, b);
      ShrinkIs(v, b, size, gfl, gsl, k);
      var tmp := SizeOf(Rd(mem, b + 4));
      var nextB := b + OVERHEAD + tmp;
      if FreeBit(Rd(mem, nextB + 4)) {
        var (fl, sl) := MappingInsert(SizeOf(Rd(mem, nextB + 4)));
        ExtractBlock(nextB, fl, sl, k, {});
        chain := Merge(chain, b);
        tmp := tmp + SizeOf(Rd(mem, nextB + 4)) + OVERHEAD;
        nextB := nextB + OVERHEAD + SizeOf(Rd(mem, nextB + 4));
      }
      tmp := tmp - size;
      if tmp >= HEADER_SIZE {
        SplitOff(b, nextB, size, tmp - OVERHEAD, true);
      }
    }

    /** The request fits with the free block after b: join it, then cut. */
    method Grow(b: int, size: nat)
      requires Holds(V(), {}, {}) && Coalesced(chain) && At(chain, first, end, b) && !chain[b].free
      requires Next(chain, b) in chain && chain[Next(chain, b)].free
      requires size % 8 == 0 && chain[b].size < size <= chain[b].size + chain[Next(chain, b)].size
      modifies this`mem, this`matrix, this`slBitmap, this`flBitmap, this`lists, this`chain
      ensures InPlace(old(V()), V(), b, size, old(chain)[b].size)
    {
      hide Holds, Coalesced, At, SizeOf, FreeBit, PrevBit, MappingInsert, BlockClass, Unlinked, Merge, Carved, InPlace, Split, WithoutPrev, Extended;
      ghost var v := V();
      ghost var gfl, gsl, k := SeeNext(v, b);
      GrowIs(v, b, size, gfl, gsl, k);
      var nextB := b + OVERHEAD + SizeOf(Rd(mem, b + 4));
      var (fl, sl) := MappingInsert(SizeOf(Rd(mem, nextB + 4)));
      ExtractBlock(nextB, fl, sl, k, {});
      chain := Merge(chain, b);
      ExtendHeader(b, SizeOf(Rd(mem, nextB + 4)) + OVERHEAD);
      nextB := b + OVERHEAD + SizeOf(Rd(mem, b + 4));
      var tmp := SizeOf(Rd(mem, b + 4)) - size;
      if tmp >= HEADER_SIZE {
        SplitOff(b, nextB, size, tmp - OVERHEAD, true);
      }
    }

    /** The headers of the joined block and of the block after it. */
    method ExtendHeader(b: int, more: int)
      requires b in chain && Next(chain, b) in chain && SizeOf(Rd(mem, b + 4) + more) == chain[b].size
      modifies this`mem
      ensures V() == Extended(old(V()), b, Next(chain, b), more)
    {
      mem := mem[b + 4 := Rd(mem, b + 4) + more];
      var nextB := b + OVERHEAD + SizeOf(Rd(mem, b + 4));
      mem := mem[nextB := b];
      mem := mem[nextB + 4 := WithoutPrev(Rd(mem, nextB + 4))];
    }

    /** The cases in which realloc leaves the block where it is. */
    ghost predicate FitsInPlace(b: int, r: nat)
      requires b in chain
      reads this
    {
      || r <= chain[b].size
      || (Next(chain, b) in chain && chain[Next(chain, b)].free && r <= chain[b].size + chain[Next(chain, b)].size)
    }

    /** Resize in place if the block, or the block and a free one after it, are big enough. */
    method ResizeInPlace(b: int, r: nat) returns (done: bool)
      requires Valid() && Live(b + OVERHEAD) && r >= MIN_BLOCK && r % 8 == 0
      modifies this`mem, this`matrix, this`slBitmap, this`flBitmap, this`lists, this`chain, this`usedSize
      ensures Valid() && done == old(FitsInPlace(b, r))
      ensures !done ==> V() == old(V()) && usedSize == old(usedSize)
      ensures done ==> Reallocated(old(V()), V(), b, b, r) && chain[b].size <= r + 8 && end == old(end)
      ensures done ==> usedSize == old(usedSize) + chain[b].size - old(chain)[b].size
    {
      hide Holds, Coalesced, TotalFree, SizeOf, FreeBit, InPlace, At, KeepsLive, PayloadsKept, MappingInsert, BlockClass;
      ghost var v := V();
      LiveWords(v, b);
      ghost var gfl, gsl, k := SeeNext(v, b);
      var tmp := SizeOf(Rd(mem, b + 4));
      var nextB := b + OVERHEAD + tmp;
      if r <= tmp {
        usedSize := usedSize - (tmp + OVERHEAD);
        Shrink(b, r);
        ResizedInPlace(v, V(), b, r, r);
        usedSize := usedSize + SizeOf(Rd(mem, b + 4)) + OVERHEAD;
        return true;
      }
      if FreeBit(Rd(mem, nextB + 4)) {
        if r <= tmp + SizeOf(Rd(mem, nextB + 4)) {
          usedSize := usedSize - (tmp + OVERHEAD);
          Grow(b, r);
          ResizedInPlace(v, V(), b, r, tmp);
          usedSize := usedSize + SizeOf(Rd(mem, b + 4)) + OVERHEAD;
          return true;
        }
      }
      done := false;
    }

    /** memcpy of k payload bytes of block b to block a. */
    method CopyPayload(a: int, b: int, k: nat)
      requires b + OVERHEAD + k <= a || a + OVERHEAD + k <= b
      modifies this`mem
      ensures Copied(old(mem), mem, b, a, k) && OnlyPayload(old(mem), mem, a, k)
    {
      var i := 0;
      while i < k
        invariant 0 <= i <= k
        invariant Copied(old(mem), mem, b, a, i) && OnlyPayload(old(mem), mem, a, i)
      {
        mem := mem[a + OVERHEAD + i := Rd(mem, b + OVERHEAD + i)];
        i := i + 1;
      }
    }

    /** malloc, copy, free. */
    method Relocate(b: int, r: nat) returns (ptr: int)
      requires Valid() && Live(b + OVERHEAD) && r == Request(r) && Serviceable(r) && chain[b].size < r
      requires !NoFit(chain, SearchSize(r))
      modifies this`mem, this`matrix, this`slBitmap, this`flBitmap, this`lists, this`chain, this`usedSize
      ensures Valid() && ptr != b + OVERHEAD && Reallocated(old(V()), V(), b, ptr - OVERHEAD, r)
      ensures usedSize == old(usedSize) + chain[ptr - OVERHEAD].size - old(chain)[b].size
    {
      hide Holds, Coalesced, TotalFree, SizeOf, At, Provided, GivenBack, Reallocated, KeepsLive, PayloadsKept, Copied, OnlyPayload, NoFit, SearchSize;
      ghost var v := V();
      ptr := Malloc(r);
      ghost var a, y := ptr - OVERHEAD, V();
      HoldsShape(y);
      ProvidedLive(v, y, a, r, SearchSize(r));
      ReadyToCopy(v, y, b, a, r, SearchSize(r));
      var size := SizeOf(Rd(mem, b + 4));
      CopyPayload(ptr - OVERHEAD, b, if size > r then r else size);
      ghost var z := V();
      PayloadWrite(y, z.mem, a, size);
      Free(b + OVERHEAD);
      RelocatedIs(v, y, z, V(), b, a, r, SearchSize(r));
      SizeStays(z, V(), b, a);
    }

    /** tlsf_realloc */
    method Realloc(ptr: int, newSize: nat) returns (q: int)
      requires Valid() && (ptr != 0 ==> Live(ptr))
      requires newSize > 0 && (ptr == 0 || !FitsInPlace(ptr - OVERHEAD, Request(newSize))) ==> Serviceable(newSize)
      requires newSize > 0 && ptr != 0 && !FitsInPlace(ptr - OVERHEAD, Request(newSize)) ==>
                 !NoFit(chain, SearchSize(Request(newSize)))
      modifies this`mem, this`matrix, this`slBitmap, this`flBitmap, this`lists, this`chain, this`usedSize
      ensures Valid()
      ensures ptr == 0 && newSize == 0 ==> q == 0 && V() == old(V()) && usedSize == old(usedSize)
      ensures ptr == 0 && newSize > 0 ==>
        && (q == 0 <==> NoFit(old(chain), SearchSize(Request(newSize))))
        && (q == 0 ==> V() == old(V()) && usedSize == old(usedSize))
        && (q != 0 ==> Provided(old(V()), V(), q - OVERHEAD, Request(newSize), SearchSize(Request(newSize))))
      ensures ptr != 0 && newSize == 0 ==> q == 0 && GivenBack(old(V()), V(), ptr - OVERHEAD)
      ensures ptr != 0 && newSize > 0 ==>
        && Reallocated(old(V()), V(), ptr - OVERHEAD, q - OVERHEAD, Request(newSize))
        && (q == ptr <==> old(FitsInPlace(ptr - OVERHEAD, Request(newSize))))
        && (var b, c, r := ptr - OVERHEAD, old(chain), Request(newSize);
            q == ptr <==> r <= c[b].size || (Next(c, b) in c && c[Next(c, b)].free && r <= c[b].size + c[Next(c, b)].size))
        && usedSize == old(usedSize) + chain[q - OVERHEAD].size - old(chain)[ptr - OVERHEAD].size
    {
      hide Holds, Coalesced, TotalFree, Provided, GivenBack, KeepsLive, PayloadsKept, Copied, NoFit, SearchSize;
      if ptr == 0 {
        if newSize != 0 {
          q := Malloc(newSize);
        } else {
          q := 0;
        }
      } else if newSize == 0 {
        Free(ptr);
        q := 0;
      } else {
        var b, r := ptr - OVERHEAD, Request(newSize);
        var done := ResizeInPlace(b, r);
        if done {
          q := ptr;
        } else {
          q := Relocate(b, r);
        }
      }
    }
  }
}
