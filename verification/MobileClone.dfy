/** Cloning mobiles: owned storage is copied, shared bundles gain a reference for each use
    (runtime/libtvm/ins_mobile.c:295-403). */
module MobileClone {
  import opened Words
  import opened MobileTypes
  import opened MobileState

  /** n is h with the blocks of t allocated and its uses of bundles counted. */
  ghost predicate Grown(h: Heap, n: Heap, t: Shape) {
    && Apart(n)
    && (forall b {:trigger b in n.blocks} {:trigger Owns(t, b)} :: b in n.blocks <==> b in h.blocks || Owns(t, b))
    && (forall b | b in h.blocks :: BlockKept(h, n, b) && !Owns(t, b))
    && (forall a | Live(h, a) :: At(n, a) == At(h, a) + Uses(t, a + 8))
  }

  /** t, in n, is a clone of s: it denotes the same, in blocks that are all new, and shares
      the same bundles. */
  ghost predicate Cloned(h: Heap, n: Heap, s: Shape, t: Shape) {
    && Grown(h, n, t) && Rep(n, t) && Once(t) && Denotes(n, t) == Denotes(h, s) && SameUses(s, t)
  }

  function ByteAt(h: Heap, a: int, i: nat): nat { At(h, a + i) }

  /** A cloned array of numbers has the same type, size and dimensions, and all its bytes, at
      the width of its numbers, are those of the original. */
  lemma ClonedNumbers(h: Heap, n: Heap, p: int, q: int, code: nat)
    requires Cloned(h, n, Flat(p), Flat(q)) && code in {0, 1, 2, 3, 5, 6} && ElementType(TypeAt(h, p)) == MakeNum(code)
    ensures TypeAt(n, q) == TypeAt(h, p) && SizeAt(n, q) == SizeAt(h, p)
    ensures forall i: nat | i < Dimensions(TypeAt(h, p)) :: At(n, q + 4 + 4 * i) == At(h, p + 4 + 4 * i)
    ensures forall i: nat | i < SizeAt(h, p) * Width(code) :: ByteAt(n, DataAt(n, q), i) == ByteAt(h, DataAt(h, p), i)
  {
    hide Unit, MakeNum, ElementType, Dimensions, Grown, Rep, Once, SameUses, Uses;
    NumberUnit(TypeAt(h, p), code);
    var was, after := Denotes(h, Flat(p)), Denotes(n, Flat(q));
    assert after.t == was.t && after.bytes == was.bytes && after.dims == was.dims;
    assert |after.bytes| == SizeAt(n, q) * Unit(TypeAt(n, q)) && |was.bytes| == SizeAt(h, p) * Unit(TypeAt(h, p));
    SameFactor(SizeAt(n, q), SizeAt(h, p), Unit(TypeAt(h, p)));
    forall i: nat | i < Dimensions(TypeAt(h, p)) ensures At(n, q + 4 + 4 * i) == At(h, p + 4 + 4 * i) {
      assert after.dims[i] == was.dims[i];
    }
    forall i: nat | i < SizeAt(h, p) * Width(code) ensures ByteAt(n, DataAt(n, q), i) == ByteAt(h, DataAt(h, p), i) {
      assert after.bytes[i] == was.bytes[i];
    }
  }

  lemma SameFactor(a: nat, b: nat, u: nat)
    requires u > 0 && a * u == b * u
    ensures a == b
  {
    assert (a - b) * u == 0;
  }

  ghost predicate SameUses(s: Shape, t: Shape) { forall p {:trigger Uses(t, p)} :: Uses(t, p) == Uses(s, p) }

  /** The counts have room for another reference of each use. */
  ghost predicate Room(h: Heap, s: Shape) {
    forall p {:trigger Uses(s, p)} | Uses(s, p) > 0 :: CountAt(h, p) + Uses(s, p) < W
  }

  ghost predicate Clonable(h: Heap, s: Shape) { Apart(h) && Rep(h, s) && Tidy(h, s) && Room(h, s) }

  // ---------------------------------------------------------------- where things are

  lemma {:induction false} UsedItem(items: seq<Shape>, p: int) returns (i: nat)
    requires UsesIn(items, p) > 0
    ensures i < |items| && Uses(items[i], p) > 0
  {
    var last := |items| - 1;
    if Uses(items[last], p) > 0 {
      i := last;
    } else {
      i := UsedItem(items[..last], p);
    }
  }

  /** Every bundle used is there. */
  lemma {:induction false} UsedBundle(h: Heap, s: Shape, p: int)
    requires Rep(h, s) && Uses(s, p) > 0
    ensures BundleAt(h, p)
  {
    hide ArrayAt, BundleAt, RawAt, UsesIn;
    if s.Nest? {
      var i := UsedItem(s.items, p);
      UsedBundle(h, s.items[i], p);
    }
  }

  /** Every block owned is there. */
  lemma {:induction false} OwnedBlock(h: Heap, s: Shape, b: int)
    requires Rep(h, s) && Owns(s, b)
    ensures b in h.blocks
  {
    hide BundleAt;
    if s.Nest? && b != s.ptr - 8 {
      var i: nat :| i < |s.items| && Owns(s.items[i], b);
      OwnedBlock(h, s.items[i], b);
    }
  }

  lemma NeedsLive(h: Heap, s: Shape, a: int)
    requires Rep(h, s) && Needs(h, s, a)
    ensures Live(h, a)
  {
    hide Rep, Uses, Owns;
    if b :| Owns(s, b) && InBlock(h, b, a) {
    } else {
      UsedBundle(h, s, a + 4);
    }
  }

  /** A bundle's count is in a live block. */
  lemma CountLive(h: Heap, s: Shape, p: int)
    requires Rep(h, s) && Uses(s, p) > 0
    ensures InBlock(h, BaseOf(h, p), p - 8) && Live(h, p - 8)
  {
    hide Rep, Uses;
    UsedBundle(h, s, p);
  }

  // ---------------------------------------------------------------- the source is left as it was

  /** No count of a bundle of t is among the cells s is made of. */
  ghost predicate Uncounted(h: Heap, s: Shape, t: Shape) { forall a {:trigger Needs(h, s, a)} | Needs(h, s, a) :: Uses(t, a + 8) == 0 }

  /** What s is made of stays as it was when a clone t of something has been made. */
  lemma GrownKept(h: Heap, n: Heap, s: Shape, t: Shape)
    requires Rep(h, s) && Grown(h, n, t) && Uncounted(h, s, t)
    ensures Kept(h, n, s)
  {
    hide Rep, Uses, Owns, Apart, Live;
    forall a | Needs(h, s, a) ensures At(n, a) == At(h, a) { NeedsLive(h, s, a); }
    forall b | Owns(s, b) ensures BlockKept(h, n, b) { OwnedBlock(h, s, b); }
    forall p | Uses(s, p) > 0 ensures BlockKept(h, n, BaseOf(h, p)) { UsedBundle(h, s, p); }
  }

  // ---------------------------------------------------------------- cloning an array of mobiles

  /** The header of the copy ma of the array s. */
  ghost predicate Headed(h: Heap, n: Heap, s: Shape, ma: int)
    requires !s.Null?
  {
    && ArrayAt(n, ma + 8) && TypeAt(n, ma + 8) == TypeAt(h, s.ptr) && SizeAt(n, ma + 8) == SizeAt(h, s.ptr)
    && DimsAt(n, ma + 8) == DimsAt(h, s.ptr)
  }

  /** The first |done| elements of s have been cloned, into the array ma. */
  ghost predicate Cloning(h: Heap, n: Heap, s: Shape, ma: int, done: seq<Shape>) {
    && s.Nest? && |done| <= |s.items| && Headed(h, n, s, ma)
    && Grown(h, n, Nest(ma + 8, done)) && RepIn(n, done) && Once(Nest(ma + 8, done))
    && DenotesIn(n, done) == DenotesIn(h, s.items[..|done|])
    && (forall p {:trigger UsesIn(done, p)} :: UsesIn(done, p) == UsesIn(s.items[..|done|], p))
    && (forall j: nat | j < |done| :: At(n, DataAt(n, ma + 8) + 4 * j) == Ptr(done[j]))
  }

  lemma CloningKept(h: Heap, n: Heap, s: Shape, ma: int, done: seq<Shape>)
    requires Clonable(h, s) && Cloning(h, n, s, ma, done)
    ensures Kept(h, n, s)
  {
    hide Apart, Rep, Room, Headed, Grown, RepIn, Once, DenotesIn, UsesIn, Kept, Needs;
    forall a | Needs(h, s, a) ensures Uses(Nest(ma + 8, done), a + 8) == 0 {
      assert UsesIn(done, a + 8) == UsesIn(s.items[..|done|], a + 8);
      UsesPrefix(s.items, |done|, a + 8);
    }
    GrownKept(h, n, s, Nest(ma + 8, done));
  }

  /** The next element can be cloned, and is still what it was. */
  lemma ItemReady(h: Heap, n: Heap, s: Shape, ma: int, done: seq<Shape>)
    requires Clonable(h, s) && Cloning(h, n, s, ma, done) && |done| < |s.items|
    ensures Clonable(n, s.items[|done|]) && Denotes(n, s.items[|done|]) == Denotes(h, s.items[|done|])
    ensures At(n, DataAt(h, s.ptr) + 4 * |done|) == Ptr(s.items[|done|])
  {
    hide Rep, Tidy, Room, Headed, RepIn, Once, DenotesIn, UsesIn, Kept, Apart, Live;
    var i := |done|;
    CloningKept(h, n, s, ma, done);
    OwnKept(h, n, s);
    KeptItem(h, n, s, i);
    ItemRep(h, s, i);
    RepKept(h, n, s.items[i]);
    RepKept(h, n, s);
    ItemRep(n, s, i);
    TidyItem(h, s, i);
    TidyKept(h, n, s.items[i]);
    ItemRoom(h, n, s, ma, done);
  }

  lemma ItemRep(h: Heap, s: Shape, i: nat)
    requires Rep(h, s) && s.Nest? && i < |s.items|
    ensures Rep(h, s.items[i]) && At(h, DataAt(h, s.ptr) + 4 * i) == Ptr(s.items[i])
  {
    hide ArrayAt;
  }

  lemma TidyKept(h: Heap, n: Heap, s: Shape)
    requires Tidy(h, s) && Kept(h, n, s)
    ensures Tidy(n, s)
  {
    hide Uses, Owns;
    forall a | Needs(n, s, a) ensures Uses(s, a + 8) == 0 {
      if b :| Owns(s, b) && InBlock(n, b, a) { assert BlockKept(h, n, b) && InBlock(h, b, a); }
      assert Needs(h, s, a);
    }
  }

  lemma TidyItem(h: Heap, s: Shape, i: nat)
    requires Tidy(h, s) && s.Nest? && i < |s.items|
    ensures Tidy(h, s.items[i])
  {
    hide Uses, Owns;
    forall p ensures Uses(s.items[i], p) <= Uses(s, p) { ItemUses(s, i, p); }
    forall a | Needs(h, s.items[i], a) ensures Uses(s.items[i], a + 8) == 0 {
      if b :| Owns(s.items[i], b) && InBlock(h, b, a) { ItemOwns(s, i, b); }
      assert Needs(h, s, a);
    }
  }

  lemma ItemOwns(s: Shape, i: nat, b: int)
    requires s.Nest? && i < |s.items| && Owns(s.items[i], b)
    ensures Owns(s, b)
  {}

  lemma ItemUses(s: Shape, i: nat, p: int)
    requires s.Nest? && i < |s.items|
    ensures Uses(s.items[i], p) <= Uses(s, p)
  {
    UsesItem(s.items, i, p);
  }

  lemma ItemRoom(h: Heap, n: Heap, s: Shape, ma: int, done: seq<Shape>)
    requires Clonable(h, s) && Cloning(h, n, s, ma, done) && |done| < |s.items|
    ensures Room(n, s.items[|done|])
  {
    hide Rep, Tidy, Headed, RepIn, Once, DenotesIn, UsesIn, Apart, Live;
    var i := |done|;
    forall p | Uses(s.items[i], p) > 0 ensures CountAt(n, p) + Uses(s.items[i], p) < W {
      UsesItem(s.items, i, p);
      CountLive(h, s, p);
      UsesNext(s.items, i, p);
      UsesPrefix(s.items, i + 1, p);
      assert At(n, p - 8) == At(h, p - 8) + Uses(Nest(ma + 8, done), p - 8 + 8);
    }
  }

  // ---------------------------------------------------------------- one more element

  /** n2 with the word v written at a. */
  function Put(n: Heap, a: int, v: nat): Heap { n.(mem := n.mem[a := v]) }

  /** The address of the next element of the copy. */
  function SlotAt(n: Heap, ma: int, i: nat): int { DataAt(n, ma + 8) + 4 * i }

  /** The next element has been cloned as t, and its address stored. */
  ghost predicate Stepping(h: Heap, n: Heap, m: Heap, k: Heap, s: Shape, ma: int, done: seq<Shape>, t: Shape) {
    && Clonable(h, s) && Cloning(h, n, s, ma, done) && |done| < |s.items| && ma !in h.blocks
    && Cloned(n, m, s.items[|done|], t) && 0 <= Ptr(t) && k == Put(m, SlotAt(n, ma, |done|), Ptr(t))
  }

  lemma CloneStep(h: Heap, n: Heap, m: Heap, k: Heap, s: Shape, ma: int, done: seq<Shape>, t: Shape)
    requires Stepping(h, n, m, k, s, ma, done, t)
    ensures Cloning(h, k, s, ma, done + [t])
  {
    hide Stepping;
    StepHeader(h, n, m, k, s, ma, done, t);
    StepGrown(h, n, m, k, s, ma, done, t);
    StepRep(h, n, m, k, s, ma, done, t);
    StepOnce(h, n, m, k, s, ma, done, t);
    StepUses(h, n, m, k, s, ma, done, t);
    StepSlots(h, n, m, k, s, ma, done, t);
    assert |done| < |s.items| by { StepFacts(h, n, m, k, s, ma, done, t); }
    CloningIs(h, k, s, ma, done + [t]);
  }

  lemma StepFacts(h: Heap, n: Heap, m: Heap, k: Heap, s: Shape, ma: int, done: seq<Shape>, t: Shape)
    requires Stepping(h, n, m, k, s, ma, done, t)
    ensures s.Nest? && |done| < |s.items| && ma !in h.blocks && Rep(h, s) && Tidy(h, s) && Apart(h)
    ensures Grown(h, n, Nest(ma + 8, done)) && Grown(n, m, t) && SameUses(s.items[|done|], t) && Rep(m, t) && Apart(n) && Apart(m)
    ensures forall c | c in h.blocks :: BlockKept(h, n, c)
    ensures forall c | c in n.blocks :: BlockKept(n, m, c)
    ensures ma in n.blocks && Cloning(h, n, s, ma, done) && k.blocks == m.blocks
  {
    hide Rep, Tidy, Room, Headed, RepIn, Once, DenotesIn, UsesIn, Apart, Live, Uses, BlockKept;
    assert Owns(Nest(ma + 8, done), ma);
  }

  /** Counts are kept in blocks that were there before. */
  lemma ItemCounts(h: Heap, s: Shape, i: nat)
    requires Rep(h, s) && s.Nest? && i < |s.items|
    ensures forall p {:trigger Uses(s.items[i], p)} | Uses(s.items[i], p) > 0 :: Live(h, p - 8)
  {
    hide Rep, Uses, Live;
    forall p | Uses(s.items[i], p) > 0 ensures Live(h, p - 8) {
      ItemUses(s, i, p);
      CountLive(h, s, p);
    }
  }

  /** Cells of new blocks, other than the slot, are as they were. */
  lemma StepNew(h: Heap, n: Heap, m: Heap, k: Heap, s: Shape, ma: int, done: seq<Shape>, t: Shape, b: int, a: int)
    requires Stepping(h, n, m, k, s, ma, done, t) && InBlock(n, b, a) && b !in h.blocks && a != SlotAt(n, ma, |done|)
    ensures At(k, a) == At(n, a)
  {
    hide Clonable, Cloning, Cloned, Rep, Uses, Live, Apart, Grown, Tidy;
    StepFacts(h, n, m, k, s, ma, done, t);
    ItemCounts(h, s, |done|);
    NewCellKept(h, n, m, s.items[|done|], t, b, a);
  }

  /** The slot is in the copy's block alone. */
  lemma StepSlot(h: Heap, n: Heap, m: Heap, k: Heap, s: Shape, ma: int, done: seq<Shape>, t: Shape, b: int)
    requires Stepping(h, n, m, k, s, ma, done, t) && InBlock(m, b, SlotAt(n, ma, |done|))
    ensures b == ma
  {
    hide Clonable, Cloned, Cloning, Rep, Live, Grown, Tidy;
    StepFacts(h, n, m, k, s, ma, done, t);
    SlotInBlock(h, n, s, ma, done);
    assert BlockKept(n, m, ma) && InBlock(m, ma, SlotAt(n, ma, |done|));
  }

  /** Cells that were live before have counted the uses of one more element. */
  lemma StepOld(h: Heap, n: Heap, m: Heap, k: Heap, s: Shape, ma: int, done: seq<Shape>, t: Shape, a: int)
    requires Stepping(h, n, m, k, s, ma, done, t) && Live(h, a)
    ensures At(k, a) == At(m, a) == At(n, a) + Uses(t, a + 8)
    ensures At(k, a) == At(h, a) + UsesIn(done + [t], a + 8)
  {
    hide Clonable, Cloned, Cloning, Rep, Apart, Tidy, UsesIn;
    StepFacts(h, n, m, k, s, ma, done, t);
    var b :| InBlock(h, b, a);
    assert BlockKept(h, n, b);
    assert BlockKept(n, m, b) && InBlock(n, b, a) && InBlock(m, b, a);
    if a == SlotAt(n, ma, |done|) { StepSlot(h, n, m, k, s, ma, done, t, b); }
    UsesAppend(done, t, a + 8);
    assert At(n, a) == At(h, a) + Uses(Nest(ma + 8, done), a + 8);
  }

  lemma StepGrown(h: Heap, n: Heap, m: Heap, k: Heap, s: Shape, ma: int, done: seq<Shape>, t: Shape)
    requires Stepping(h, n, m, k, s, ma, done, t)
    ensures Grown(h, k, Nest(ma + 8, done + [t]))
  {
    hide Clonable, Cloned, Cloning, Rep, Tidy, UsesIn, Live, InBlock;
    StepFacts(h, n, m, k, s, ma, done, t);
    var u := Nest(ma + 8, done + [t]);
    assert forall b, a :: InBlock(k, b, a) <==> InBlock(m, b, a) by { SameBlocks(m, k); }
    forall b ensures Owns(u, b) <==> Owns(Nest(ma + 8, done), b) || Owns(t, b) { OwnsAppend(ma + 8, done, t, b); }
    forall a | Live(h, a) ensures At(k, a) == At(h, a) + Uses(u, a + 8) { StepOld(h, n, m, k, s, ma, done, t, a); }
  }

  lemma SameBlocks(m: Heap, k: Heap)
    requires k.blocks == m.blocks
    ensures forall b, a :: InBlock(k, b, a) <==> InBlock(m, b, a)
  {}

  lemma OwnsAppend(p: int, done: seq<Shape>, t: Shape, b: int)
    ensures Owns(Nest(p, done + [t]), b) <==> Owns(Nest(p, done), b) || Owns(t, b)
  {
    if Owns(t, b) { assert (done + [t])[|done|] == t; }
    if i: nat :| i < |done| && Owns(done[i], b) { assert (done + [t])[i] == done[i]; }
  }

  lemma CloningIs(h: Heap, n: Heap, s: Shape, ma: int, done: seq<Shape>)
    requires s.Nest? && |done| <= |s.items| && Headed(h, n, s, ma)
    requires Grown(h, n, Nest(ma + 8, done)) && RepIn(n, done) && Once(Nest(ma + 8, done))
    requires DenotesIn(n, done) == DenotesIn(h, s.items[..|done|])
    requires forall p {:trigger UsesIn(done, p)} :: UsesIn(done, p) == UsesIn(s.items[..|done|], p)
    requires forall j: nat | j < |done| :: At(n, DataAt(n, ma + 8) + 4 * j) == Ptr(done[j])
    ensures Cloning(h, n, s, ma, done)
  {
    hide Headed, Grown, RepIn, Once, DenotesIn, UsesIn;
  }

  /** The copy's own block: the slot of the next element is in it, and it is nobody else's. */
  lemma SlotInBlock(h: Heap, n: Heap, s: Shape, ma: int, done: seq<Shape>)
    requires Cloning(h, n, s, ma, done) && |done| < |s.items| && Rep(h, s)
    ensures InBlock(n, ma, SlotAt(n, ma, |done|)) && Unit(TypeAt(n, ma + 8)) == 4
    ensures ma + 4 * MetaWords(TypeAt(n, ma + 8)) <= DataAt(n, ma + 8) && MetaWords(TypeAt(n, ma + 8)) >= 4
  {
    hide Grown, RepIn, Once, DenotesIn, UsesIn, DimsAt;
    assert Unit(TypeAt(n, ma + 8)) == 4 by { WordUnit(TypeAt(n, ma + 8)); }
  }

  lemma NotOld(h: Heap, n: Heap, b: int, a: int)
    requires Apart(n) && InBlock(n, b, a) && b !in h.blocks && forall c | c in h.blocks :: BlockKept(h, n, c)
    ensures !Live(h, a)
  {
    if c :| InBlock(h, c, a) { assert BlockKept(h, n, c) && InBlock(n, c, a); }
  }

  /** A cell in a block of n that h does not have is not touched by cloning another element. */
  lemma NewCellKept(h: Heap, n: Heap, m: Heap, u: Shape, t: Shape, b: int, a: int)
    requires Apart(n) && InBlock(n, b, a) && b !in h.blocks && Grown(n, m, t) && SameUses(u, t)
    requires forall p {:trigger Uses(u, p)} | Uses(u, p) > 0 :: Live(h, p - 8)
    requires forall c | c in h.blocks :: BlockKept(h, n, c)
    ensures At(m, a) == At(n, a)
  {
    hide Uses, Owns, Apart, BlockKept;
    NotOld(h, n, b, a);
    assert Live(n, a);
    assert Uses(t, a + 8) == Uses(u, a + 8);
    assert a + 8 - 8 == a;
  }

  /** The header of the copy stays. */
  lemma StepHeader(h: Heap, n: Heap, m: Heap, k: Heap, s: Shape, ma: int, done: seq<Shape>, t: Shape)
    requires Stepping(h, n, m, k, s, ma, done, t)
    ensures s.Nest? && Headed(h, k, s, ma) && DataAt(k, ma + 8) == DataAt(n, ma + 8)
  {
    hide Stepping, Cloning, Rep, Tidy, Grown;
    StepFacts(h, n, m, k, s, ma, done, t);
    StepHeaded(h, n, m, k, s, ma, done, t);
    var words := MetaWords(TypeAt(n, ma + 8));
    forall a | ma <= a < ma + 4 * words ensures At(k, a) == At(n, a) { StepNew(h, n, m, k, s, ma, done, t, ma, a); }
    HeaderSame(n, k, ma);
  }

  lemma StepHeaded(h: Heap, n: Heap, m: Heap, k: Heap, s: Shape, ma: int, done: seq<Shape>, t: Shape)
    requires Stepping(h, n, m, k, s, ma, done, t)
    ensures s.Nest? && Headed(h, n, s, ma) && BlockKept(n, k, ma)
    ensures SlotAt(n, ma, |done|) >= ma + 4 * MetaWords(TypeAt(n, ma + 8)) && MetaWords(TypeAt(n, ma + 8)) >= 4
  {
    hide Rep, Tidy, Grown, Headed, RepIn, Once, DenotesIn, UsesIn;
    StepFacts(h, n, m, k, s, ma, done, t);
    SlotInBlock(h, n, s, ma, done);
  }

  lemma HeaderSame(n: Heap, k: Heap, ma: int)
    requires ArrayAt(n, ma + 8) && BlockKept(n, k, ma)
    requires forall a | ma <= a < ma + 4 * MetaWords(TypeAt(n, ma + 8)) :: At(k, a) == At(n, a)
    ensures ArrayAt(k, ma + 8) && TypeAt(k, ma + 8) == TypeAt(n, ma + 8) && SizeAt(k, ma + 8) == SizeAt(n, ma + 8)
    ensures DimsAt(k, ma + 8) == DimsAt(n, ma + 8) && DataAt(k, ma + 8) == DataAt(n, ma + 8)
  {
    hide Unit;
    assert MetaWords(TypeAt(n, ma + 8)) >= Dimensions(TypeAt(n, ma + 8)) + 3;
    hide MetaWords, Dimensions;
  }

  /** The clones made so far are left alone. */
  lemma StepKeepsDone(h: Heap, n: Heap, m: Heap, k: Heap, s: Shape, ma: int, done: seq<Shape>, t: Shape, j: nat)
    requires Stepping(h, n, m, k, s, ma, done, t) && j < |done|
    ensures Kept(n, k, done[j])
  {
    hide Stepping, Cloning, Tidy, UsesIn, Rep, Apart, Grown;
    StepFacts(h, n, m, k, s, ma, done, t);
    DoneFacts(h, n, s, ma, done, j);
    forall a | Needs(n, done[j], a) ensures At(k, a) == At(n, a) {
      if b :| Owns(done[j], b) && InBlock(n, b, a) {
        if a == SlotAt(n, ma, |done|) { assert BlockKept(n, m, b); StepSlot(h, n, m, k, s, ma, done, t, b); }
        StepNew(h, n, m, k, s, ma, done, t, b, a);
      } else {
        StepType(h, n, m, k, s, ma, done, t, a);
      }
    }
    forall b | Owns(done[j], b) ensures BlockKept(n, k, b) { assert BlockKept(n, m, b); }
    forall p | Uses(done[j], p) > 0 ensures BlockKept(n, k, BaseOf(n, p)) {
      UsedBundle(n, done[j], p);
      assert BlockKept(n, m, BaseOf(n, p));
    }
  }

  /** A clone made so far: where it is, and what it uses. */
  lemma DoneFacts(h: Heap, n: Heap, s: Shape, ma: int, done: seq<Shape>, j: nat)
    requires Cloning(h, n, s, ma, done) && j < |done|
    ensures Rep(n, done[j]) && !Owns(done[j], ma)
    ensures forall b {:trigger Owns(done[j], b)} | Owns(done[j], b) :: b !in h.blocks && b in n.blocks
    ensures forall p {:trigger Uses(done[j], p)} :: Uses(done[j], p) <= Uses(s, p)
  {
    hide Rep, Headed, DenotesIn, UsesIn;
    forall b | Owns(done[j], b) ensures b !in h.blocks && b in n.blocks { assert Owns(Nest(ma + 8, done), b); }
    forall p ensures Uses(done[j], p) <= Uses(s, p) {
      UsesItem(done, j, p);
      UsesPrefix(s.items, |done|, p);
    }
  }

  /** A type word of a bundle s uses is not a count that cloning changes. */
  lemma StepType(h: Heap, n: Heap, m: Heap, k: Heap, s: Shape, ma: int, done: seq<Shape>, t: Shape, a: int)
    requires Stepping(h, n, m, k, s, ma, done, t) && Uses(s, a + 4) > 0
    ensures At(k, a) == At(n, a) && At(k, a) == At(m, a)
  {
    hide Stepping, Rep, Apart, Grown, Uses, Live;
    StepFacts(h, n, m, k, s, ma, done, t);
    assert Needs(h, s, a);
    NeedsLive(h, s, a);
    StepOld(h, n, m, k, s, ma, done, t, a);
    ItemUses(s, |done|, a + 8);
  }

  /** Storing its address leaves the new clone alone. */
  lemma StepKeepsNew(h: Heap, n: Heap, m: Heap, k: Heap, s: Shape, ma: int, done: seq<Shape>, t: Shape)
    requires Stepping(h, n, m, k, s, ma, done, t)
    ensures Kept(m, k, t)
  {
    hide Cloning, Cloned, Clonable, Tidy, UsesIn, Rep, Apart, Uses, Owns;
    StepFacts(h, n, m, k, s, ma, done, t);
    forall a | Needs(m, t, a) ensures At(k, a) == At(m, a) {
      if b :| Owns(t, b) && InBlock(m, b, a) {
        if a == SlotAt(n, ma, |done|) { StepSlot(h, n, m, k, s, ma, done, t, b); }
      } else {
        ItemUses(s, |done|, a + 4);
        StepType(h, n, m, k, s, ma, done, t, a);
      }
    }
    forall b | Owns(t, b) ensures BlockKept(m, k, b) {}
    forall p | Uses(t, p) > 0 ensures BlockKept(m, k, BaseOf(m, p)) { UsedBundle(m, t, p); }
  }

  lemma StepRep(h: Heap, n: Heap, m: Heap, k: Heap, s: Shape, ma: int, done: seq<Shape>, t: Shape)
    requires Stepping(h, n, m, k, s, ma, done, t)
    ensures RepIn(k, done + [t]) && s.Nest? && |done| < |s.items|
    ensures DenotesIn(k, done + [t]) == DenotesIn(h, s.items[..|done| + 1])
  {
    hide Tidy, Rep, Apart, Grown, Kept, Headed, Once, DenotesIn, UsesIn, SameUses, Room;
    var i := |done|;
    StepFacts(h, n, m, k, s, ma, done, t);
    forall j: nat | j < i ensures Kept(n, k, done[j]) { StepKeepsDone(h, n, m, k, s, ma, done, t, j); }
    RepInKept(n, k, done);
    StepKeepsNew(h, n, m, k, s, ma, done, t);
    RepKept(m, k, t);
    ItemReady(h, n, s, ma, done);
    DenotesAppend(k, done, t);
    DenotesNext(h, s.items, i);
  }

  lemma DenotesAppend(h: Heap, items: seq<Shape>, s: Shape)
    ensures DenotesIn(h, items + [s]) == DenotesIn(h, items) + [Denotes(h, s)]
  {
    hide Denotes;
    assert (items + [s])[..|items|] == items;
  }

  lemma DenotesNext(h: Heap, items: seq<Shape>, i: nat)
    requires i < |items|
    ensures DenotesIn(h, items[..i + 1]) == DenotesIn(h, items[..i]) + [Denotes(h, items[i])]
  {
    hide Denotes;
    assert items[..i + 1][..i] == items[..i];
  }

  lemma StepOnce(h: Heap, n: Heap, m: Heap, k: Heap, s: Shape, ma: int, done: seq<Shape>, t: Shape)
    requires Stepping(h, n, m, k, s, ma, done, t)
    ensures Once(Nest(ma + 8, done + [t]))
  {
    hide Tidy, Rep, Apart, Kept, Headed, DenotesIn, UsesIn, SameUses, Room, RepIn;
    StepFacts(h, n, m, k, s, ma, done, t);
    forall j: nat | j < |done| ensures forall b {:trigger Owns(done[j], b)} | Owns(done[j], b) :: b in n.blocks {
      DoneFacts(h, n, s, ma, done, j);
    }
    assert forall b | Owns(t, b) :: b !in n.blocks;
    OnceAppend(ma, done, t, n.blocks.Keys);
  }

  lemma OnceAppend(ma: int, done: seq<Shape>, t: Shape, there: set<int>)
    requires Once(Nest(ma + 8, done)) && Once(t) && ma in there
    requires forall j: nat, b {:trigger Owns(done[j], b)} | j < |done| && Owns(done[j], b) :: b in there
    requires forall b | Owns(t, b) :: b !in there
    ensures Once(Nest(ma + 8, done + [t]))
  {
    hide Owns;
    var u := done + [t];
    forall i: nat, j: nat, b | i < |u| && j < |u| && Owns(u[i], b) && Owns(u[j], b) ensures i == j {
      if i < |done| { assert u[i] == done[i]; }
      if j < |done| { assert u[j] == done[j]; }
    }
    forall i: nat | i < |u| ensures Once(u[i]) && !Owns(u[i], ma) {
      if i < |done| { assert u[i] == done[i] && Once(done[i]); }
    }
  }

  lemma StepUses(h: Heap, n: Heap, m: Heap, k: Heap, s: Shape, ma: int, done: seq<Shape>, t: Shape)
    requires Stepping(h, n, m, k, s, ma, done, t)
    ensures s.Nest? && |done| < |s.items|
    ensures forall p {:trigger UsesIn(done + [t], p)} :: UsesIn(done + [t], p) == UsesIn(s.items[..|done| + 1], p)
  {
    hide Tidy, Rep, Apart, Kept, Headed, DenotesIn, UsesIn, Uses, Room, RepIn, Grown, Once, Clonable, Denotes;
    forall p ensures UsesIn(done + [t], p) == UsesIn(s.items[..|done| + 1], p) {
      UsesAppend(done, t, p);
      UsesNext(s.items, |done|, p);
    }
  }

  lemma StepSlots(h: Heap, n: Heap, m: Heap, k: Heap, s: Shape, ma: int, done: seq<Shape>, t: Shape)
    requires Stepping(h, n, m, k, s, ma, done, t)
    ensures forall j: nat | j < |done + [t]| :: At(k, DataAt(k, ma + 8) + 4 * j) == Ptr((done + [t])[j])
  {
    hide Tidy, Rep, Apart, Kept, Headed, DenotesIn, UsesIn, Room, RepIn, Grown, Once, Cloned, Clonable;
    StepFacts(h, n, m, k, s, ma, done, t);
    StepHeader(h, n, m, k, s, ma, done, t);
    SlotInBlock(h, n, s, ma, done);
    forall j: nat | j < |done| ensures At(k, DataAt(k, ma + 8) + 4 * j) == Ptr(done[j]) {
      StepNew(h, n, m, k, s, ma, done, t, ma, DataAt(n, ma + 8) + 4 * j);
    }
  }

  // ---------------------------------------------------------------- beginning and ending

  /** n is h with the block b, of the given size, allocated and perhaps written. */
  ghost predicate Fresh(h: Heap, n: Heap, b: int, size: nat) {
    b > 0 && b !in h.blocks && n.blocks == h.blocks[b := size] && Apart(n) && forall a | Live(h, a) :: At(n, a) == At(h, a)
  }

  /** A new block that nothing is shared by. */
  lemma FreshGrown(h: Heap, n: Heap, b: int, size: nat, t: Shape)
    requires Fresh(h, n, b, size) && (forall c {:trigger Owns(t, c)} :: Owns(t, c) <==> c == b) && forall p :: Uses(t, p) == 0
    ensures Grown(h, n, t)
  {
    hide Owns, Uses, Live, Apart;
  }

  lemma CloneBegins(h: Heap, n: Heap, s: Shape, ma: int, size: nat)
    requires s.Nest? && Rep(h, s) && Fresh(h, n, ma, size) && Headed(h, n, s, ma)
    ensures Cloning(h, n, s, ma, [])
  {
    hide Fresh, Headed, Rep;
    FreshGrown(h, n, ma, size, Nest(ma + 8, []));
    hide Grown;
    var none: seq<Shape> := [];
    assert s.items[..|none|] == none;
    CloningIs(h, n, s, ma, none);
  }

  lemma CloneEnds(h: Heap, n: Heap, s: Shape, ma: int, done: seq<Shape>)
    requires Rep(h, s) && Cloning(h, n, s, ma, done) && |done| == |s.items|
    ensures Cloned(h, n, s, Nest(ma + 8, done))
  {
    hide Grown, Once, RepIn, DenotesIn, UsesIn, ArrayAt, DimsAt, Numeric;
    assert s.items[..|done|] == s.items;
    assert Rep(n, Nest(ma + 8, done));
    assert Denotes(n, Nest(ma + 8, done)) == Denotes(h, s);
    forall p ensures Uses(Nest(ma + 8, done), p) == Uses(s, p) { assert UsesIn(done, p) == UsesIn(s.items[..|done|], p); }
  }

  /** Numeric elements copied. */
  lemma FlatCloned(h: Heap, n: Heap, p: int, ma: int, size: nat)
    requires Rep(h, Flat(p)) && Fresh(h, n, ma, size) && Headed(h, n, Flat(p), ma)
    requires Cells(n, DataAt(n, ma + 8), 1, ElementBytes(h, p)) == Cells(h, DataAt(h, p), 1, ElementBytes(h, p))
    ensures Cloned(h, n, Flat(p), Flat(ma + 8))
  {
    hide Fresh, ArrayAt, DimsAt, Unit, Numeric, Cells;
    FreshGrown(h, n, ma, size, Flat(ma + 8));
    hide Grown;
  }

  lemma RawCloned(h: Heap, n: Heap, p: int, md: int, size: nat)
    requires Rep(h, Raw(p)) && Fresh(h, n, md, size) && RawAt(n, md + 8)
    requires TypeAt(n, md + 8) == TypeAt(h, p) && SizeAt(n, md + 8) == SizeAt(h, p)
    requires Cells(n, md + 8, 1, SizeAt(h, p)) == Cells(h, p, 1, SizeAt(h, p))
    ensures Cloned(h, n, Raw(p), Raw(md + 8))
  {
    hide Fresh, RawAt, Cells;
    FreshGrown(h, n, md, size, Raw(md + 8));
    hide Grown;
  }

  /** A bundle is shared: one more reference. */
  lemma BundleCloned(h: Heap, p: int)
    requires Clonable(h, Bundle(p))
    ensures Cloned(h, Put(h, p - 8, CountAt(h, p) + 1), Bundle(p), Bundle(p))
  {
    var n := Put(h, p - 8, CountAt(h, p) + 1);
    assert Needs(h, Bundle(p), p - 4) by { assert Uses(Bundle(p), p - 4 + 4) > 0; }
    SameBlocks(h, n);
  }

  lemma NullCloned(h: Heap)
    requires Apart(h)
    ensures Cloned(h, h, Null, Null)
  {}
}
