/** Releasing mobiles: owned blocks are freed, shared bundles lose a reference for each use
    and are freed with the last (runtime/libtvm/ins_mobile.c:194-292). */
module MobileRelease {
  import opened Words
  import opened MobileTypes
  import opened MobileState
  import opened MobileClone

  /** The blocks a release frees: those owned, and those of bundles all of whose references
      go. */
  ghost predicate Gone(h: Heap, s: Shape, b: int) { Owns(s, b) || Dropped(h, s, b) }

  ghost predicate Dropped(h: Heap, s: Shape, b: int) { exists p :: DroppedAt(h, s, b, p) }

  ghost predicate DroppedAt(h: Heap, s: Shape, b: int, p: int) {
    Uses(s, p) > 0 && CountAt(h, p) == Uses(s, p) && BaseOf(h, p) == b
  }

  /** n is h with s released: exactly those blocks are gone, and every other cell is as it
      was but for the counts. */
  ghost predicate Released(h: Heap, n: Heap, s: Shape) {
    && (forall b {:trigger b in n.blocks} {:trigger Gone(h, s, b)} :: b in n.blocks <==> b in h.blocks && !Gone(h, s, b))
    && (forall b | b in n.blocks :: BlockKept(h, n, b))
    && (forall a | Live(n, a) :: At(n, a) + Uses(s, a + 8) == At(h, a))
  }

  /** The counts cover the references of s. */
  ghost predicate Counted(h: Heap, s: Shape) { forall p {:trigger Uses(s, p)} | Uses(s, p) > 0 :: Uses(s, p) <= CountAt(h, p) }

  /** Different bundles are in different blocks. */
  ghost predicate OneBase(h: Heap, s: Shape) {
    forall p, q {:trigger Uses(s, p), Uses(s, q)} | Uses(s, p) > 0 && Uses(s, q) > 0 && BaseOf(h, p) == BaseOf(h, q) :: p == q
  }

  ghost predicate Releasable(h: Heap, s: Shape) {
    Apart(h) && Rep(h, s) && Once(s) && Tidy(h, s) && Counted(h, s) && OneBase(h, s)
  }

  lemma ReleasedApart(h: Heap, n: Heap, s: Shape)
    requires Apart(h) && Released(h, n, s)
    ensures Apart(n) && forall a | Live(n, a) :: Live(h, a)
  {
    hide Gone;
    forall b, a | InBlock(n, b, a) ensures InBlock(h, b, a) { assert BlockKept(h, n, b); }
  }

  /** A bundle s uses is not in a block s owns. */
  lemma NotMixed(h: Heap, s: Shape, p: int)
    requires Rep(h, s) && Tidy(h, s) && Uses(s, p) > 0
    ensures !Owns(s, BaseOf(h, p))
  {
    hide Rep, Uses, Owns;
    UsedBundle(h, s, p);
    if Owns(s, BaseOf(h, p)) { OwnNeeded(h, s, BaseOf(h, p), p - 8); }
  }

  lemma OwnNeeded(h: Heap, s: Shape, b: int, a: int)
    requires Owns(s, b) && InBlock(h, b, a)
    ensures Needs(h, s, a)
  {}

  /** The uses of the first elements of s are among the uses of s. */
  lemma PrefixUses(s: Shape, i: nat, p: int)
    requires s.Nest? && i <= |s.items|
    ensures Uses(Nest(0, s.items[..i]), p) == UsesIn(s.items[..i], p) <= Uses(s, p)
    ensures i < |s.items| ==> UsesIn(s.items[..i], p) + Uses(s.items[i], p) == UsesIn(s.items[..i + 1], p) <= Uses(s, p)
  {
    UsesPrefix(s.items, i, p);
    if i < |s.items| {
      UsesNext(s.items, i, p);
      UsesPrefix(s.items, i + 1, p);
    }
  }

  // ---------------------------------------------------------------- releasing an array of mobiles

  /** The first i elements of s have been released. The address 0 stands for no block. */
  ghost predicate Releasing(h: Heap, n: Heap, s: Shape, i: nat) {
    s.Nest? && i <= |s.items| && Released(h, n, Nest(0, s.items[..i]))
  }

  lemma PrefixOwns(items: seq<Shape>, i: nat, b: int)
    requires i <= |items| && Owns(Nest(0, items[..i]), b)
    ensures b == -8 || exists j: nat :: j < i && Owns(items[j], b)
  {}

  /** The first elements do not own the block of any bundle of s, nor a block of the next
      element; nor is either dropped with them. */
  lemma NotOwnedYet(h: Heap, s: Shape, i: nat, b: int)
    requires Releasable(h, s) && s.Nest? && i < |s.items| && b in h.blocks && (!Owns(s, b) || Owns(s.items[i], b))
    ensures !Owns(Nest(0, s.items[..i]), b)
  {
    hide Rep, Tidy, Owns, Uses;
    assert OnceIn(s.items);
    if Owns(Nest(0, s.items[..i]), b) {
      PrefixOwns(s.items, i, b);
      var j: nat :| j < i && Owns(s.items[j], b);
      ItemOwns(s, j, b);
    }
  }

  lemma BaseNotDropped(h: Heap, s: Shape, i: nat, p: int)
    requires Releasable(h, s) && s.Nest? && i < |s.items| && Uses(s.items[i], p) > 0
    ensures !Dropped(h, Nest(0, s.items[..i]), BaseOf(h, p))
  {
    hide Rep, Tidy, Apart, Once, Uses, UsesIn;
    PrefixUses(s, i, p);
    forall q ensures !DroppedAt(h, Nest(0, s.items[..i]), BaseOf(h, p), q) { PrefixUses(s, i, q); }
  }

  lemma OwnNotDropped(h: Heap, s: Shape, i: nat, b: int)
    requires Releasable(h, s) && s.Nest? && i < |s.items| && Owns(s.items[i], b)
    ensures !Dropped(h, Nest(0, s.items[..i]), b)
  {
    hide Rep, Tidy, Apart, Once, Uses, UsesIn, Owns;
    ItemOwns(s, i, b);
    forall q ensures !DroppedAt(h, Nest(0, s.items[..i]), b, q) {
      PrefixUses(s, i, q);
      if Uses(s, q) > 0 { NotMixed(h, s, q); }
    }
  }

  /** The block of a bundle the next element uses is still there. */
  lemma BaseStays(h: Heap, n: Heap, s: Shape, i: nat, p: int)
    requires Releasable(h, s) && Releasing(h, n, s, i) && i < |s.items| && Uses(s.items[i], p) > 0
    ensures BlockKept(h, n, BaseOf(h, p)) && BundleAt(h, p)
  {
    hide Rep, Tidy, Apart, Once, Uses, UsesIn, Owns, Live, Dropped;
    ItemUses(s, i, p);
    UsedBundle(h, s, p);
    NotMixed(h, s, p);
    NotOwnedYet(h, s, i, BaseOf(h, p));
    BaseNotDropped(h, s, i, p);
    assert !Gone(h, Nest(0, s.items[..i]), BaseOf(h, p));
  }

  /** The block the next element owns is still there. */
  lemma OwnStays(h: Heap, n: Heap, s: Shape, i: nat, b: int)
    requires Releasable(h, s) && Releasing(h, n, s, i) && i < |s.items| && Owns(s.items[i], b)
    ensures BlockKept(h, n, b)
  {
    hide Rep, Tidy, Apart, Once, Uses, UsesIn, Owns, Live, Dropped;
    ItemOwns(s, i, b);
    OwnedBlock(h, s, b);
    NotOwnedYet(h, s, i, b);
    OwnNotDropped(h, s, i, b);
    assert !Gone(h, Nest(0, s.items[..i]), b);
  }

  /** The next element is untouched so far. */
  lemma NextKept(h: Heap, n: Heap, s: Shape, i: nat)
    requires Releasable(h, s) && Releasing(h, n, s, i) && i < |s.items|
    ensures Kept(h, n, s.items[i])
  {
    hide Releasable, Rep, Uses, Owns, Gone;
    forall b | Owns(s.items[i], b) ensures BlockKept(h, n, b) { OwnStays(h, n, s, i, b); }
    forall p | Uses(s.items[i], p) > 0 ensures BlockKept(h, n, BaseOf(h, p)) { BaseStays(h, n, s, i, p); }
    forall a | Needs(h, s.items[i], a) ensures At(n, a) == At(h, a) { NextCell(h, n, s, i, a); }
  }

  lemma NextCell(h: Heap, n: Heap, s: Shape, i: nat, a: int)
    requires Releasable(h, s) && Releasing(h, n, s, i) && i < |s.items| && Needs(h, s.items[i], a)
    ensures At(n, a) == At(h, a)
  {
    hide Rep, Uses, UsesIn, Owns, Gone, Apart, Once;
    if b :| Owns(s.items[i], b) && InBlock(h, b, a) {
      OwnStays(h, n, s, i, b);
      ItemOwns(s, i, b);
      assert InBlock(n, b, a);
    } else {
      BaseStays(h, n, s, i, a + 4);
      ItemUses(s, i, a + 4);
      assert InBlock(n, BaseOf(h, a + 4), a + 4 - 4);
    }
    assert Live(n, a) && Needs(h, s, a);
    PrefixUses(s, i, a + 8);
  }

  /** The next element can be released. */
  lemma NextReleasable(h: Heap, n: Heap, s: Shape, i: nat)
    requires Releasable(h, s) && Releasing(h, n, s, i) && i < |s.items|
    ensures Releasable(n, s.items[i])
    ensures forall p {:trigger Uses(s.items[i], p)} | Uses(s.items[i], p) > 0 :: BaseOf(n, p) == BaseOf(h, p)
  {
    hide Rep, Uses, UsesIn, Owns, Gone, Kept, Tidy, Apart, BaseOf, Released;
    var u := s.items[i];
    ReleasedApart(h, n, Nest(0, s.items[..i]));
    NextKept(h, n, s, i);
    ItemRep(h, s, i);
    RepKept(h, n, u);
    TidyItem(h, s, i);
    TidyKept(h, n, u);
    forall p | Uses(u, p) > 0 ensures Uses(u, p) <= CountAt(n, p) && BaseOf(n, p) == BaseOf(h, p) { NextCount(h, n, s, i, p); }
    forall p ensures Uses(u, p) <= Uses(s, p) { ItemUses(s, i, p); }
    assert OnceIn(s.items) && Once(u);
    forall p, q | Uses(u, p) > 0 && Uses(u, q) > 0 && BaseOf(n, p) == BaseOf(n, q) ensures p == q {
      assert Uses(s, p) > 0 && Uses(s, q) > 0;
    }
  }

  lemma NextCount(h: Heap, n: Heap, s: Shape, i: nat, p: int)
    requires Releasable(h, s) && Releasing(h, n, s, i) && i < |s.items| && Uses(s.items[i], p) > 0
    ensures Uses(s.items[i], p) <= CountAt(n, p) && BaseOf(n, p) == BaseOf(h, p)
    ensures CountAt(n, p) + UsesIn(s.items[..i], p) == CountAt(h, p)
  {
    hide Rep, Uses, UsesIn, Owns, Gone, Tidy, Apart, Once;
    BaseStays(h, n, s, i, p);
    assert InBlock(n, BaseOf(h, p), p - 8) && Live(n, p - 8);
    assert At(n, p - 8) + Uses(Nest(0, s.items[..i]), p - 8 + 8) == At(h, p - 8);
    PrefixUses(s, i, p);
    ItemUses(s, i, p);
    assert Needs(h, s.items[i], p - 4) by { assert Uses(s.items[i], p - 4 + 4) > 0; }
    NextCell(h, n, s, i, p - 4);
  }

  // ---------------------------------------------------------------- one more element

  lemma NestOwns(items: seq<Shape>, i: nat, b: int)
    requires i < |items| && b != -8
    ensures Owns(Nest(0, items[..i + 1]), b) <==> Owns(Nest(0, items[..i]), b) || Owns(items[i], b)
  {
    assert items[..i + 1] == items[..i] + [items[i]];
    OwnsAppend(0, items[..i], items[i], b);
  }

  lemma ReleaseStep(h: Heap, n: Heap, m: Heap, s: Shape, i: nat)
    requires Releasable(h, s) && Releasing(h, n, s, i) && i < |s.items| && Released(n, m, s.items[i])
    ensures Releasing(h, m, s, i + 1)
  {
    hide Rep, Uses, UsesIn, Owns, Gone, Tidy, Apart, Releasable;
    var u, v := Nest(0, s.items[..i]), Nest(0, s.items[..i + 1]);
    forall b | b in m.blocks ensures BlockKept(h, m, b) { assert BlockKept(n, m, b); }
    forall a | Live(m, a) ensures At(m, a) + Uses(v, a + 8) == At(h, a) {
      var b :| InBlock(m, b, a);
      assert BlockKept(n, m, b) && InBlock(n, b, a);
      PrefixUses(s, i, a + 8);
      NestUses(0, s.items[..i + 1], a + 8);
    }
    forall b | b in h.blocks ensures Gone(h, v, b) <==> !(b in m.blocks) { StepGone(h, n, m, s, i, b); }
  }

  lemma NestUses(ptr: int, items: seq<Shape>, p: int)
    ensures Uses(Nest(ptr, items), p) == UsesIn(items, p)
  {}

  /** What is gone after one more element. */
  lemma StepGone(h: Heap, n: Heap, m: Heap, s: Shape, i: nat, b: int)
    requires Releasable(h, s) && Releasing(h, n, s, i) && i < |s.items| && Released(n, m, s.items[i]) && b in h.blocks
    ensures Gone(h, Nest(0, s.items[..i + 1]), b) <==> b !in m.blocks
  {
    hide Rep, Uses, UsesIn, Owns, Tidy, Once, Dropped, Live;
    var u, v := Nest(0, s.items[..i]), Nest(0, s.items[..i + 1]);
    NestOwns(s.items, i, b);
    DroppedStays(h, s, i, b);
    assert Gone(h, u, b) <==> b !in n.blocks;
    if b in n.blocks {
      assert Gone(n, s.items[i], b) <==> b !in m.blocks;
      DroppedNow(h, n, s, i, b);
    }
  }

  /** A bundle dropped stays dropped. */
  lemma DroppedStays(h: Heap, s: Shape, i: nat, b: int)
    requires Releasable(h, s) && s.Nest? && i < |s.items|
    ensures Dropped(h, Nest(0, s.items[..i]), b) ==> Dropped(h, Nest(0, s.items[..i + 1]), b)
  {
    hide Rep, Uses, UsesIn, Owns, Tidy, Once, Apart;
    if p :| DroppedAt(h, Nest(0, s.items[..i]), b, p) {
      PrefixUses(s, i, p);
      NestUses(0, s.items[..i + 1], p);
      assert DroppedAt(h, Nest(0, s.items[..i + 1]), b, p);
    }
  }

  /** A bundle that was still there is dropped with the next element exactly when that has
      its last references. */
  lemma DroppedNow(h: Heap, n: Heap, s: Shape, i: nat, b: int)
    requires Releasable(h, s) && Releasing(h, n, s, i) && i < |s.items| && b in n.blocks && !Dropped(h, Nest(0, s.items[..i]), b)
    ensures Dropped(h, Nest(0, s.items[..i + 1]), b) <==> Dropped(n, s.items[i], b)
  {
    hide Releasable, Released, DroppedAt;
    var v, t := Nest(0, s.items[..i + 1]), s.items[i];
    if p :| DroppedAt(h, v, b, p) { DroppedAtNow(h, n, s, i, b, p); }
    if p :| DroppedAt(n, t, b, p) { DroppedAtNow(h, n, s, i, b, p); }
  }

  lemma DroppedAtNow(h: Heap, n: Heap, s: Shape, i: nat, b: int, p: int)
    requires Releasable(h, s) && Releasing(h, n, s, i) && i < |s.items| && b in n.blocks && !Dropped(h, Nest(0, s.items[..i]), b)
    ensures DroppedAt(h, Nest(0, s.items[..i + 1]), b, p) <==> DroppedAt(n, s.items[i], b, p)
  {
    hide Rep, Uses, UsesIn, Owns, Tidy, Once, Apart, Releasable, Released;
    PrefixUses(s, i, p);
    NestUses(0, s.items[..i + 1], p);
    if Uses(s.items[i], p) > 0 {
      NextCount(h, n, s, i, p);
    } else {
      assert !DroppedAt(h, Nest(0, s.items[..i]), b, p);
    }
  }

  // ---------------------------------------------------------------- beginning and ending

  lemma ReleaseBegins(h: Heap, s: Shape)
    requires Releasable(h, s) && s.Nest?
    ensures Releasing(h, h, s, 0)
  {
    hide Rep, Tidy, Once;
    var none: seq<Shape> := [];
    assert s.items[..0] == none;
    forall p ensures Uses(Nest(0, none), p) == 0 {}
    forall b | b in h.blocks ensures !Gone(h, Nest(0, none), b) { assert b > 0 && !OwnsIn(none, b); }
  }

  /** n is h with the block b freed: what was in it is lost. */
  ghost predicate Freed(h: Heap, n: Heap, b: int) {
    n.blocks == h.blocks - {b} && forall a | Live(n, a) :: At(n, a) == At(h, a)
  }

  lemma FreedLive(h: Heap, n: Heap, b: int)
    requires Freed(h, n, b)
    ensures forall c, a | InBlock(n, c, a) :: c != b && InBlock(h, c, a)
    ensures forall a | Live(n, a) :: Live(h, a)
  {}

  lemma ReleaseEnds(h: Heap, n: Heap, m: Heap, s: Shape)
    requires Releasable(h, s) && s.Nest? && Releasing(h, n, s, |s.items|) && Freed(n, m, s.ptr - 8)
    ensures Released(h, m, s)
  {
    hide Rep, Tidy, Once, UsesIn;
    var u := Nest(0, s.items);
    assert s.items[..|s.items|] == s.items;
    forall p ensures Uses(u, p) == Uses(s, p) {}
    forall b ensures Owns(s, b) || b == -8 <==> Owns(u, b) || b == s.ptr - 8 {}
    hide Uses, Owns;
    FreedLive(n, m, s.ptr - 8);
    forall b | b in h.blocks ensures b != -8 && (Gone(h, s, b) <==> Gone(h, u, b) || b == s.ptr - 8) {
      forall p ensures DroppedAt(h, s, b, p) <==> DroppedAt(h, u, b, p) {}
    }
  }

  lemma OwnReleased(h: Heap, m: Heap, s: Shape)
    requires Releasable(h, s) && (s.Flat? || s.Raw?) && Freed(h, m, s.ptr - 8)
    ensures Released(h, m, s)
  {
    hide Rep, Tidy, Once;
    FreedLive(h, m, s.ptr - 8);
  }

  lemma NullReleased(h: Heap)
    ensures Released(h, h, Null)
  {}

  /** The last reference frees the bundle. */
  lemma LastReleased(h: Heap, m: Heap, p: int)
    requires Releasable(h, Bundle(p)) && CountAt(h, p) <= 1 && Freed(h, m, BaseOf(h, p))
    ensures Released(h, m, Bundle(p))
  {
    assert Uses(Bundle(p), p) == 1;
    assert DroppedAt(h, Bundle(p), BaseOf(h, p), p);
    FreedLive(h, m, BaseOf(h, p));
    forall a | Live(m, a) ensures a != p - 8 {
      var b :| InBlock(m, b, a);
      assert InBlock(h, BaseOf(h, p), p - 8);
    }
  }

  /** Any other reference is counted off. */
  lemma BundleReleased(h: Heap, p: int)
    requires Releasable(h, Bundle(p)) && CountAt(h, p) > 1
    ensures Released(h, Put(h, p - 8, CountAt(h, p) - 1), Bundle(p))
  {
    SameBlocks(h, Put(h, p - 8, CountAt(h, p) - 1));
  }
}
