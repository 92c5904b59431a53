/** How the words of a TLSF pool represent the block chain and the free-list index. */
module TlsfState {
  import opened Words
  import opened TlsfIndex
  import opened TlsfChain
  import opened TlsfLists

  // ---------------------------------------------------------------- bitmaps

  /** Every first- and second-level bit is set exactly when its lists are non-empty. */
  ghost predicate BitsOk(slb: seq<Word>, flb: Word, lists: Lists) {
    && |slb| == REAL_FLI && |lists| == CLASSES
    && (forall fl: nat, sl: nat | fl < REAL_FLI && sl < 32 :: Bit(slb[fl], sl) <==> lists[32 * fl + sl] != [])
    && (forall fl: nat :: Bit(flb, fl) <==> fl < REAL_FLI && slb[fl] != 0)
  }

  lemma RowEmpty(slb: seq<Word>, flb: Word, lists: Lists, fl: nat, sl: nat)
    requires BitsOk(slb, flb, lists) && fl < REAL_FLI && sl < 32 && slb[fl] == 0
    ensures lists[32 * fl + sl] == []
  {
    BitZero(sl);
    assert !Bit(slb[fl], sl);
  }

  /** The lowest set bit of a bitmap from position n upwards. */
  function FirstFrom(x: Word, n: nat): int
    requires n <= 32
  {
    LsBit(And(x, MaskFrom(n)) % W)
  }

  lemma FirstFromIs(x: Word, n: nat)
    requires n <= 32
    ensures var r := FirstFrom(x, n);
            && -1 <= r < 32
            && (And(x, MaskFrom(n)) % W == 0 <==> r == -1)
            && (r == -1 ==> forall k: nat | n <= k < 32 :: !Bit(x, k))
            && (r != -1 ==> n <= r && Bit(x, r) && forall k: nat | n <= k < r :: !Bit(x, k))
  {
    hide MaskFrom, And, Bit, LsBit;
    var m := And(x, MaskFrom(n));
    AndAtMost(x, MaskFrom(n));
    forall k: nat | k < 32 ensures Bit(m, k) <==> Bit(x, k) && k >= n {
      BitAnd(x, MaskFrom(n), k);
      MaskFromBits(n, k);
    }
    var r := FirstFrom(x, n);
    if r == -1 {
      forall k: nat | n <= k < 32 ensures !Bit(x, k) { BitZero(k); }
    } else {
      forall k: nat | n <= k < r ensures !Bit(x, k) { assert !Bit(m, k); }
    }
  }

  /** Clear bits of a row mean empty lists. */
  lemma RowGap(slb: seq<Word>, flb: Word, lists: Lists, fl: nat, lo: nat, hi: nat)
    requires BitsOk(slb, flb, lists) && fl < REAL_FLI && hi <= 32
    requires forall k: nat | lo <= k < hi :: !Bit(slb[fl], k)
    ensures forall c: nat | 32 * fl + lo <= c < 32 * fl + hi :: lists[c] == []
  {
    forall c: nat | 32 * fl + lo <= c < 32 * fl + hi ensures lists[c] == [] {
      assert !Bit(slb[fl], c - 32 * fl);
      assert c == 32 * fl + (c - 32 * fl);
    }
  }

  /** Clear first-level bits mean rows of empty lists. */
  lemma RowsGap(slb: seq<Word>, flb: Word, lists: Lists, lo: nat, hi: nat)
    requires BitsOk(slb, flb, lists) && hi <= REAL_FLI
    requires forall f: nat | lo <= f < hi :: !Bit(flb, f)
    ensures forall c: nat | 32 * lo <= c < 32 * hi :: lists[c] == []
  {
    forall c: nat | 32 * lo <= c < 32 * hi ensures lists[c] == [] {
      assert !Bit(flb, c / 32);
      RowEmpty(slb, flb, lists, c / 32, c % 32);
    }
  }

  /** What the two-level bitmap search returns, as a list number; -1 when it fails. */
  function Suitable(slb: seq<Word>, flb: Word, fl: nat, sl: nat): int
    requires |slb| == REAL_FLI && fl < REAL_FLI && sl < 32
  {
    if FirstFrom(slb[fl], sl) != -1 then 32 * fl + FirstFrom(slb[fl], sl)
    else
      var row := FirstFrom(flb, fl + 1);
      if 0 < row < REAL_FLI then 32 * row + LsBit(slb[row]) else -1
  }

  /** The search finds the first non-empty list from (fl, sl) onwards, or there is none. */
  lemma SuitableIsFirst(slb: seq<Word>, flb: Word, lists: Lists, fl: nat, sl: nat)
    requires BitsOk(slb, flb, lists) && fl < REAL_FLI && sl < 32
    ensures var c := Suitable(slb, flb, fl, sl);
            && -1 <= c < CLASSES && (c != -1 ==> c >= 32 * fl + sl && lists[c] != [])
            && (forall d: nat | 32 * fl + sl <= d < (if c == -1 then CLASSES else c) :: lists[d] == [])
    ensures FirstFrom(flb, fl + 1) < REAL_FLI
  {
    hide Bit, FirstFrom, LsBit;
    var r, row := FirstFrom(slb[fl], sl), FirstFrom(flb, fl + 1);
    FirstFromIs(slb[fl], sl);
    FirstFromIs(flb, fl + 1);
    assert row != -1 ==> Bit(flb, row);
    RowGap(slb, flb, lists, fl, sl, if r != -1 then r else 32);
    if r != -1 {
      assert Bit(slb[fl], r);
    } else {
      RowsGap(slb, flb, lists, fl + 1, if row != -1 then row else REAL_FLI);
      if row != -1 { FirstInRow(slb, flb, lists, row); }
      SplitRange(lists, fl, sl, if row != -1 then row else REAL_FLI, if row != -1 then LsBit(slb[row]) else 0);
    }
  }

  lemma FirstInRow(slb: seq<Word>, flb: Word, lists: Lists, row: nat)
    requires BitsOk(slb, flb, lists) && row < REAL_FLI && slb[row] != 0
    ensures var l := LsBit(slb[row]);
            && 0 <= l < 32 && lists[32 * row + l] != []
            && forall c: nat | 32 * row <= c < 32 * row + l :: lists[c] == []
  {
    var l := LsBit(slb[row]);
    assert Bit(slb[row], l);
    RowGap(slb, flb, lists, row, 0, l);
  }

  lemma SplitRange(lists: Lists, fl: nat, sl: nat, row: nat, l: nat)
    requires |lists| == CLASSES && fl < row <= REAL_FLI && l < 32 && (row == REAL_FLI ==> l == 0)
    requires forall c: nat | 32 * fl + sl <= c < 32 * fl + 32 :: lists[c] == []
    requires forall c: nat | 32 * (fl + 1) <= c < 32 * row :: lists[c] == []
    requires forall c: nat | 32 * row <= c < 32 * row + l :: lists[c] == []
    ensures forall c: nat | 32 * fl + sl <= c < 32 * row + l :: lists[c] == []
  {}

  lemma BitsSet(slb: seq<Word>, flb: Word, lists: Lists, fl: nat, sl: nat, s: seq<int>)
    requires BitsOk(slb, flb, lists) && fl < REAL_FLI && sl < 32 && s != []
    ensures BitsOk(slb[fl := SetBit(sl, slb[fl])], SetBit(fl, flb), lists[32 * fl + sl := s])
  {
    hide Bit, SetBit;
    var slb2, flb2 := slb[fl := SetBit(sl, slb[fl])], SetBit(fl, flb);
    var lists2 := lists[32 * fl + sl := s];
    forall f: nat, l: nat | f < REAL_FLI && l < 32 ensures Bit(slb2[f], l) <==> lists2[32 * f + l] != [] {
      SetBitBits(sl, slb[fl], l);
      assert Bit(slb[f], l) <==> lists[32 * f + l] != [];
    }
    SetBitBits(sl, slb[fl], sl);
    if slb2[fl] == 0 { BitZero(sl); }
    forall f: nat ensures Bit(flb2, f) <==> f < REAL_FLI && slb2[f] != 0 { SetBitBits(fl, flb, f); }
  }

  /** Emptying a list clears its bit, and the row's bit when the row became empty. */
  lemma BitsCleared(slb: seq<Word>, flb: Word, lists: Lists, fl: nat, sl: nat)
    requires BitsOk(slb, flb, lists) && fl < REAL_FLI && sl < 32
    ensures var slb2 := slb[fl := ClearBit(sl, slb[fl])];
            BitsOk(slb2, if slb2[fl] == 0 then ClearBit(fl, flb) else flb, lists[32 * fl + sl := []])
  {
    hide Bit, ClearBit;
    var slb2 := slb[fl := ClearBit(sl, slb[fl])];
    var flb2 := if slb2[fl] == 0 then ClearBit(fl, flb) else flb;
    var lists2 := lists[32 * fl + sl := []];
    forall f: nat, l: nat | f < REAL_FLI && l < 32 ensures Bit(slb2[f], l) <==> lists2[32 * f + l] != [] {
      ClearBitBits(sl, slb[fl], l);
      assert Bit(slb[f], l) <==> lists[32 * f + l] != [];
    }
    if slb2[fl] != 0 && slb[fl] == 0 {
      Pow2At32();
      var k := NonZeroHasBit(slb2[fl], 32);
      ClearBitBits(sl, slb[fl], k);
      BitZero(k);
    }
    forall f: nat ensures Bit(flb2, f) <==> f < REAL_FLI && slb2[f] != 0 { ClearBitBits(fl, flb, f); }
  }

  lemma BitsSame(slb: seq<Word>, flb: Word, lists: Lists, c: nat, s: seq<int>)
    requires BitsOk(slb, flb, lists) && c < CLASSES && (s == [] <==> lists[c] == [])
    ensures BitsOk(slb, flb, lists[c := s])
  {}

  // ---------------------------------------------------------------- agreement of chain and lists

  function BlockClass(b: Block): (c: nat)
    ensures c < CLASSES
  {
    if 0 < b.size < MAX_SIZE then Class(b.size) else 0
  }

  /** A block is on the list of its class exactly when it is free (and not in skip). */
  ghost predicate Agree(chain: Chain, lists: Lists, skip: set<int>) {
    && |lists| == CLASSES
    && (forall c: nat, i: nat | c < CLASSES && i < |lists[c]| :: Member(chain, skip, c, lists[c][i]))
    && (forall a | a in chain && chain[a].free && a !in skip :: a in lists[BlockClass(chain[a])])
  }

  ghost predicate Member(chain: Chain, skip: set<int>, c: nat, a: int) {
    a in chain && chain[a].free && a !in skip && BlockClass(chain[a]) == c
  }

  lemma AgreePush(chain: Chain, lists: Lists, b: int)
    requires Agree(chain, lists, {b}) && b in chain && chain[b].free
    ensures Absent(lists, b)
    ensures var c := BlockClass(chain[b]); Agree(chain, lists[c := [b] + lists[c]], {})
  {
    hide BlockClass;
    var c := BlockClass(chain[b]);
    var l := lists[c := [b] + lists[c]];
    forall d: nat, i: nat | d < CLASSES && i < |l[d]| ensures Member(chain, {}, d, l[d][i]) {
      if d != c { assert Member(chain, {b}, d, lists[d][i]); }
      if d == c && i > 0 { assert Member(chain, {b}, d, lists[d][i - 1]); }
    }
    forall a | a in chain && chain[a].free ensures a in l[BlockClass(chain[a])] {
      if a != b { assert a in lists[BlockClass(chain[a])]; }
      if a == b { assert l[c][0] == b; }
    }
    forall d: nat, i: nat | d < |lists| && i < |lists[d]| ensures lists[d][i] != b {
      assert Member(chain, {b}, d, lists[d][i]);
    }
  }

  lemma AgreeDrop(chain: Chain, lists: Lists, c: nat, k: nat)
    requires Agree(chain, lists, {}) && Distinct(lists) && c < CLASSES && k < |lists[c]|
    ensures Agree(chain, lists[c := Drop(lists[c], k)], {lists[c][k]})
  {
    hide BlockClass;
    var b := lists[c][k];
    var l := lists[c := Drop(lists[c], k)];
    DropDistinct(lists, c, k);
    forall d: nat, i: nat | d < CLASSES && i < |l[d]| ensures Member(chain, {b}, d, l[d][i]) {
      assert l[d][i] == lists[d][Moved(d, c, k, i)];
      assert Member(chain, {}, d, lists[d][Moved(d, c, k, i)]);
    }
    forall a | a in chain && chain[a].free && a != b ensures a in l[BlockClass(chain[a])] {
      var d := BlockClass(chain[a]);
      var i: nat :| i < |lists[d]| && lists[d][i] == a;
      if d == c { assert l[d][if i < k then i else i - 1] == a; }
    }
  }

  /** The lists still agree after blocks in skip or skip2 have changed. */
  lemma AgreeChange(chain: Chain, chain2: Chain, lists: Lists, skip: set<int>, skip2: set<int>)
    requires Agree(chain, lists, skip)
    requires forall a | a in chain && chain[a].free && a !in skip ::
               a in chain2 && chain2[a].free && chain2[a].size == chain[a].size && a !in skip2
    requires forall a | a in chain2 && chain2[a].free && a !in skip2 ::
               a in chain && chain[a].free && chain2[a].size == chain[a].size && a !in skip
    ensures Agree(chain2, lists, skip2)
  {
    forall c: nat, i: nat | c < CLASSES && i < |lists[c]| ensures Member(chain2, skip2, c, lists[c][i]) {
      assert Member(chain, skip, c, lists[c][i]);
    }
  }

  // ---------------------------------------------------------------- headers

  /** The size word: the size with bit 0 set for a free block, bit 1 when the one before is. */
  function Encoded(b: Block): int { b.size + (if b.free then 1 else 0) + (if b.prevFree then 2 else 0) }

  /** size & BLOCK_SIZE, size & FREE_BLOCK and size & PREV_FREE. */
  function SizeOf(w: int): int { w - w % 4 }
  predicate FreeBit(w: int) { w % 2 == 1 }
  predicate PrevBit(w: int) { w / 2 % 2 == 1 }

  lemma Decode(b: Block)
    requires b.size % 8 == 0
    ensures SizeOf(Encoded(b)) == b.size && FreeBit(Encoded(b)) == b.free && PrevBit(Encoded(b)) == b.prevFree
  {
    FlagsOf(b.size / 8, (if b.free then 1 else 0) + (if b.prevFree then 2 else 0));
  }

  lemma FlagsOf(k: nat, r: nat)
    requires r < 4
    ensures (8 * k + r) % 4 == r && (8 * k + r) % 2 == r % 2 && (8 * k + r) / 2 % 2 == r / 2
  {
    assert (8 * k + r) / 2 == 2 * (2 * k) + r / 2;
  }

  ghost predicate HeadAt(mem: Mem, chain: Chain, a: int)
    requires a in chain
  {
    && Rd(mem, a + 4) == Encoded(chain[a])
    && (chain[a].free ==> Rd(mem, Next(chain, a)) == a)
  }

  ghost predicate HeadsBut(mem: Mem, chain: Chain, skip: set<int>) {
    forall a {:trigger HeadAt(mem, chain, a)} | a in chain && a !in skip :: HeadAt(mem, chain, a)
  }

  /** Only header words of the blocks at hs differ. */
  ghost predicate OnlyHeaders(mem: Mem, mem2: Mem, hs: set<int>) {
    forall x | Rd(mem2, x) != Rd(mem, x) :: HeaderWord(hs, x)
  }

  ghost predicate HeaderWord(hs: set<int>, x: int) { x in hs || x - 4 in hs }

  lemma TiledSpaced(chain: Chain, first: int, end: int)
    requires Tiled(chain, first, end)
    ensures Spaced(chain.Keys)
  {
    forall a, b | a in chain && b in chain && a < b ensures a + 16 <= b {
      assert a != end;
      assert Linked(chain, a);
      assert Next(chain, a) <= b;
    }
  }

  /** Header writes do not disturb the free lists. */
  lemma HeadersKeepLists(mem: Mem, mem2: Mem, hs: set<int>, keys: set<int>, matrix: seq<int>, lists: Lists)
    requires OnlyHeaders(mem, mem2, hs) && hs <= keys && Spaced(keys)
    requires ListsOk(mem, matrix, lists) && NodesIn(lists, keys)
    ensures ListsOk(mem2, matrix, lists)
  {
    forall c: nat | c < CLASSES ensures ListAt(mem2, matrix[c], lists[c]) {
      var s := lists[c];
      assert ListAt(mem, matrix[c], s);
      forall i: nat | i < |s| ensures NodeOk(mem2, s, i) {
        assert NodeOk(mem, s, i);
        LinkWordsKept(mem, mem2, hs, keys, s[i]);
      }
    }
  }

  lemma LinkWordsKept(mem: Mem, mem2: Mem, hs: set<int>, keys: set<int>, a: int)
    requires OnlyHeaders(mem, mem2, hs) && hs <= keys && Spaced(keys) && a in keys
    ensures Rd(mem2, a + 8) == Rd(mem, a + 8) && Rd(mem2, a + 12) == Rd(mem, a + 12)
  {
    forall h | h in hs ensures h <= a || a + 16 <= h { assert h in keys; }
    assert !HeaderWord(hs, a + 8) && !HeaderWord(hs, a + 12);
  }

  /** Header words outside hs are kept by header writes, all of them by link writes. */
  lemma HeaderKept(mem: Mem, mem2: Mem, hs: set<int>, keys: set<int>, a: int)
    requires OnlyHeaders(mem, mem2, hs) && hs <= keys && Spaced(keys) && a in keys && a !in hs
    ensures Rd(mem2, a) == Rd(mem, a) && Rd(mem2, a + 4) == Rd(mem, a + 4)
  {
    forall h | h in hs ensures h + 16 <= a || a + 16 <= h { assert h in keys; }
    assert !HeaderWord(hs, a) && !HeaderWord(hs, a + 4);
  }

  lemma LinksKeepHeads(mem: Mem, mem2: Mem, t: set<int>, chain: Chain, first: int, end: int, skip: set<int>)
    requires OnlyLinks(mem, mem2, t) && t <= chain.Keys && Tiled(chain, first, end) && HeadsBut(mem, chain, skip)
    ensures HeadsBut(mem2, chain, skip)
  {
    TiledSpaced(chain, first, end);
    forall a | a in chain && a !in skip ensures HeadAt(mem2, chain, a) {
      assert HeadAt(mem, chain, a);
      NodeUntouched(mem, mem2, t, chain.Keys, a);
      if chain[a].free {
        NextInside(chain, first, end, a);
        NodeUntouched(mem, mem2, t, chain.Keys, Next(chain, a));
      }
    }
  }

  // ---------------------------------------------------------------- payloads

  /** The payload words of a block of the given size at p are the same. */
  ghost predicate PayloadSame(mem: Mem, mem2: Mem, p: int, size: int) {
    forall x | p + OVERHEAD <= x < p + OVERHEAD + size :: Rd(mem2, x) == Rd(mem, x)
  }

  /** Link writes to other blocks and header writes stay out of a block's payload. */
  lemma PayloadMissed(mem: Mem, mem2: Mem, t: set<int>, hs: set<int>, chain: Chain, first: int, end: int, p: int)
    requires Tiled(chain, first, end) && p in chain && p !in t && t <= chain.Keys && end !in t && hs <= chain.Keys
    requires OnlyLinks(mem, mem2, t) || OnlyHeaders(mem, mem2, hs)
    ensures PayloadSame(mem, mem2, p, chain[p].size)
  {
    forall n | n in t ensures n + 16 <= p + OVERHEAD || p + OVERHEAD + chain[p].size <= n {
      assert Linked(chain, n);
      if n < p { assert Next(chain, n) <= p; } else { assert Next(chain, p) <= n; }
    }
    forall h | h in hs ensures h <= p || p + OVERHEAD + chain[p].size <= h {
      if h > p { assert Next(chain, p) <= h; }
    }
    forall x | p + OVERHEAD <= x < p + OVERHEAD + chain[p].size ensures Rd(mem2, x) == Rd(mem, x) {
      assert !LinkWord(t, x);
      assert !HeaderWord(hs, x);
    }
  }
}
