/** A whole heap of mobiles: cloning and releasing undo each other, reference counts tell the
    number of references, and no block is leaked or freed early. */
module MobileRoots {
  import opened Words
  import opened MobileTypes
  import opened MobileState
  import opened MobileClone
  import opened MobileRelease

  // ---------------------------------------------------------------- clone, then release

  /** The counts are at least one. */
  ghost predicate Held(h: Heap, s: Shape) { forall p {:trigger Uses(s, p)} | Uses(s, p) > 0 :: CountAt(h, p) >= 1 }

  /** Releasing a clone restores every reference count and frees exactly what cloning
      allocated. */
  lemma CloneThenRelease(h: Heap, n: Heap, m: Heap, s: Shape, t: Shape)
    requires Clonable(h, s) && Held(h, s) && Cloned(h, n, s, t) && Released(n, m, t)
    ensures m.blocks == h.blocks && forall a | Live(h, a) :: At(m, a) == At(h, a)
  {
    hide Rep, Uses, Owns, Once, Apart, Tidy, Denotes, Live, Dropped;
    forall b ensures b in m.blocks <==> b in h.blocks { UndoneBlock(h, n, m, s, t, b); }
    forall b | b in h.blocks ensures m.blocks[b] == h.blocks[b] { assert BlockKept(n, m, b) && BlockKept(h, n, b); }
    forall a | Live(h, a) ensures At(m, a) == At(h, a) {
      assert Live(m, a) by { SameLive(h, m, a); }
    }
  }

  lemma SameLive(h: Heap, m: Heap, a: int)
    requires Live(h, a) && m.blocks == h.blocks
    ensures Live(m, a)
  {
    var b :| InBlock(h, b, a);
    assert InBlock(m, b, a);
  }

  lemma UndoneBlock(h: Heap, n: Heap, m: Heap, s: Shape, t: Shape, b: int)
    requires Clonable(h, s) && Held(h, s) && Cloned(h, n, s, t) && Released(n, m, t)
    ensures b in m.blocks <==> b in h.blocks
  {
    hide Rep, Uses, Owns, Once, Apart, Tidy, Denotes, Live;
    forall p ensures !DroppedAt(n, t, b, p) {
      if Uses(s, p) > 0 {
        CountLive(h, s, p);
        assert At(n, p - 8) == At(h, p - 8) + Uses(t, p - 8 + 8);
      }
      assert Uses(t, p) == Uses(s, p);
    }
    assert Gone(n, t, b) <==> Owns(t, b);
  }

  /** A clone can be released. */
  lemma CloneReleasable(h: Heap, n: Heap, s: Shape, t: Shape)
    requires Clonable(h, s) && OneBase(h, s) && Cloned(h, n, s, t)
    ensures Releasable(n, t)
  {
    hide Rep, Uses, Owns, Once, Apart, Denotes, Live, Needs, BaseOf, Tidy;
    CloneTidy(h, n, s, t);
    forall p ensures Uses(t, p) == Uses(s, p) {}
    forall p | Uses(t, p) > 0 ensures Uses(t, p) <= CountAt(n, p) && BaseOf(n, p) == BaseOf(h, p) {
      CountLive(h, s, p);
      assert At(n, p - 8) == At(h, p - 8) + Uses(t, p - 8 + 8);
      CloneBase(h, n, s, t, p);
    }
  }

  lemma CloneBase(h: Heap, n: Heap, s: Shape, t: Shape, p: int)
    requires Clonable(h, s) && Cloned(h, n, s, t) && Uses(t, p) > 0
    ensures BaseOf(n, p) == BaseOf(h, p)
  {
    hide Rep, Uses, Owns, Once, Apart, Denotes, Live;
    assert Uses(s, p - 4 + 4) == Uses(t, p) && Needs(h, s, p - 4);
    NeedsLive(h, s, p - 4);
    assert At(n, p - 4) == At(h, p - 4) + Uses(t, p - 4 + 8);
    assert Uses(t, p - 4 + 8) == Uses(s, p - 4 + 8) == 0;
  }

  lemma CloneTidy(h: Heap, n: Heap, s: Shape, t: Shape)
    requires Clonable(h, s) && Cloned(h, n, s, t)
    ensures Tidy(n, t)
  {
    hide Rep, Uses, Owns, Once, Denotes, Live, Apart;
    forall a | Needs(n, t, a) ensures Uses(t, a + 8) == 0 {
      assert Uses(t, a + 8) == Uses(s, a + 8) && Uses(t, a + 4) == Uses(s, a + 4);
      if b :| Owns(t, b) && InBlock(n, b, a) {
        NotOld(h, n, b, a);
        if Uses(s, a + 8) > 0 { CountLive(h, s, a + 8); }
      } else {
        assert Needs(h, s, a);
      }
    }
  }

  // ---------------------------------------------------------------- the whole heap

  /** Everything the program holds, as one shape without a block of its own. */
  function All(roots: seq<Shape>): Shape { Nest(0, roots) }

  /** The roots describe the heap: nothing is owned twice, each count is the number of
      references, and every block is owned or is that of a bundle in use. */
  ghost predicate Accounts(h: Heap, roots: seq<Shape>) {
    && Apart(h) && RepIn(h, roots) && Once(All(roots)) && Tidy(h, All(roots)) && OneBase(h, All(roots))
    && (forall p {:trigger UsesIn(roots, p)} | UsesIn(roots, p) > 0 :: CountAt(h, p) == UsesIn(roots, p))
    && (forall b | b in h.blocks :: Accounted(h, roots, b))
  }

  ghost predicate Accounted(h: Heap, roots: seq<Shape>, b: int) {
    OwnsIn(roots, b) || exists p :: UsesIn(roots, p) > 0 && BaseOf(h, p) == b
  }

  /** When nothing is held, nothing is allocated. */
  lemma NothingLeaks(h: Heap)
    requires Accounts(h, [])
    ensures h.blocks == map[]
  {
    hide Apart, Tidy, Rep, Accounted;
    forall b | b in h.blocks ensures false { NoneAccounted(h, [], b); }
    assert h.blocks.Keys == {};
  }

  lemma NoneAccounted(h: Heap, roots: seq<Shape>, b: int)
    requires roots == []
    ensures !Accounted(h, roots, b)
  {}

  lemma NothingHeld()
    ensures Accounts(Heap(map[], map[]), [])
  {
    hide Accounted;
    var h, none: seq<Shape> := Heap(map[], map[]), [];
    forall p ensures Uses(All(none), p) == 0 {}
    forall a ensures !Live(h, a) {}
    forall b ensures Owns(All(none), b) <==> b == -8 {}
    assert Once(All(none));
    assert Tidy(h, All(none));
    AccountsAre(h, none);
  }

  lemma RootFacts(h: Heap, roots: seq<Shape>, i: nat)
    requires Accounts(h, roots) && i < |roots|
    ensures Rep(h, roots[i]) && Once(roots[i]) && Tidy(h, roots[i]) && Held(h, roots[i])
    ensures Counted(h, roots[i]) && OneBase(h, roots[i]) && Releasable(h, roots[i])
  {
    hide Rep, Owns, UsesIn, Uses, Tidy, BaseOf;
    var s := All(roots);
    TidyItem(h, s, i);
    forall p ensures Uses(roots[i], p) <= Uses(s, p) == UsesIn(roots, p) {
      ItemUses(s, i, p);
      NestUses(0, roots, p);
    }
    assert OnceIn(roots);
  }

  /** Owned blocks and uses, root by root. */
  lemma AllOwns(roots: seq<Shape>, i: nat, b: int)
    requires i < |roots| && Owns(roots[i], b)
    ensures Owns(All(roots), b)
  {}

  /** t shares only bundles that are in use. */
  ghost predicate Within(t: Shape, roots: seq<Shape>) { forall p {:trigger Uses(t, p)} :: Uses(t, p) <= UsesIn(roots, p) }

  /** n is h with another object t, which owns new blocks. */
  ghost predicate Added(h: Heap, n: Heap, roots: seq<Shape>, t: Shape) { Grown(h, n, t) && Rep(n, t) && Once(t) && Within(t, roots) }

  lemma ClonedAdded(h: Heap, n: Heap, roots: seq<Shape>, i: nat, t: Shape)
    requires i < |roots| && Cloned(h, n, roots[i], t)
    ensures Added(h, n, roots, t)
  {
    hide Grown, Rep, Once, Denotes, Uses, UsesIn;
    forall p ensures Uses(t, p) <= UsesIn(roots, p) { UsesItem(roots, i, p); }
  }

  /** A root is left alone when another object is added. */
  lemma RootKept(h: Heap, n: Heap, roots: seq<Shape>, j: nat, t: Shape)
    requires Accounts(h, roots) && j < |roots| && Added(h, n, roots, t)
    ensures Kept(h, n, roots[j])
  {
    hide Rep, Owns, UsesIn, Uses, OneBase, Once, Grown, Apart, Kept;
    forall a | Needs(h, roots[j], a) ensures Uses(t, a + 8) == 0 {
      NeedsAll(h, roots, j, a);
      NestUses(0, roots, a + 8);
      assert Uses(t, a + 8) <= UsesIn(roots, a + 8);
    }
    GrownKept(h, n, roots[j], t);
  }

  lemma NeedsAll(h: Heap, roots: seq<Shape>, j: nat, a: int)
    requires j < |roots| && Needs(h, roots[j], a)
    ensures Needs(h, All(roots), a)
  {
    hide Owns, Uses;
    ItemUses(All(roots), j, a + 4);
    if b :| Owns(roots[j], b) && InBlock(h, b, a) { AllOwns(roots, j, b); }
  }

  /** Cloning a root: the clone becomes another root. */
  lemma CloneAccounts(h: Heap, n: Heap, roots: seq<Shape>, i: nat, t: Shape)
    requires Accounts(h, roots) && i < |roots| && Cloned(h, n, roots[i], t)
    ensures Accounts(n, roots + [t]) && forall j: nat | j < |roots| :: Denotes(n, roots[j]) == Denotes(h, roots[j])
  {
    hide Accounts, Cloned, Added, Denotes, Kept;
    ClonedAdded(h, n, roots, i, t);
    AddedAccounts(h, n, roots, t);
    CloneRep(h, n, roots, t);
  }

  lemma AddedAccounts(h: Heap, n: Heap, roots: seq<Shape>, t: Shape)
    requires Accounts(h, roots) && Added(h, n, roots, t)
    ensures Accounts(n, roots + [t])
  {
    hide Accounts, Added;
    CloneRep(h, n, roots, t);
    CloneOnce(h, n, roots, t);
    CloneAllTidy(h, n, roots, t);
    CloneOneBase(h, n, roots, t);
    CloneCounts(h, n, roots, t);
    CloneAccounted(h, n, roots, t);
    AccountsAre(n, roots + [t]);
  }

  /** A new object without bundles becomes another root. */
  lemma FreshAccounts(h: Heap, n: Heap, roots: seq<Shape>, b: int, size: nat, t: Shape)
    requires Accounts(h, roots) && Fresh(h, n, b, size) && Rep(n, t) && Once(t)
    requires (forall c {:trigger Owns(t, c)} :: Owns(t, c) <==> c == b) && forall p :: Uses(t, p) == 0
    ensures Accounts(n, roots + [t]) && forall j: nat | j < |roots| :: Denotes(n, roots[j]) == Denotes(h, roots[j])
  {
    hide Accounts, Fresh, Rep, Once, Uses, UsesIn, Owns, Grown, Denotes, Kept;
    FreshGrown(h, n, b, size, t);
    assert Added(h, n, roots, t);
    AddedAccounts(h, n, roots, t);
    CloneRep(h, n, roots, t);
  }

  lemma AccountsAre(h: Heap, roots: seq<Shape>)
    requires Apart(h) && RepIn(h, roots) && Once(All(roots)) && Tidy(h, All(roots)) && OneBase(h, All(roots))
    requires forall p {:trigger UsesIn(roots, p)} | UsesIn(roots, p) > 0 :: CountAt(h, p) == UsesIn(roots, p)
    requires forall b | b in h.blocks :: Accounted(h, roots, b)
    ensures Accounts(h, roots)
  {}

  lemma CloneRep(h: Heap, n: Heap, roots: seq<Shape>, t: Shape)
    requires Accounts(h, roots) && Added(h, n, roots, t)
    ensures RepIn(n, roots + [t]) && Apart(n)
    ensures forall j: nat | j < |roots| :: Denotes(n, roots[j]) == Denotes(h, roots[j]) && Kept(h, n, roots[j])
  {
    hide Rep, Once, Tidy, OneBase, Denotes, Apart, Kept, UsesIn;
    forall j: nat | j < |roots| ensures Rep(n, roots[j]) && Denotes(n, roots[j]) == Denotes(h, roots[j]) && Kept(h, n, roots[j]) {
      RootKept(h, n, roots, j, t);
      RepKept(h, n, roots[j]);
    }
  }

  lemma CloneOnce(h: Heap, n: Heap, roots: seq<Shape>, t: Shape)
    requires Accounts(h, roots) && Added(h, n, roots, t)
    ensures Once(All(roots + [t]))
  {
    hide Rep, Tidy, OneBase, Denotes, Owns, UsesIn;
    forall j: nat, b {:trigger Owns(roots[j], b)} | j < |roots| && Owns(roots[j], b) ensures b in h.blocks {
      OwnedBlock(h, roots[j], b);
    }
    NoBlock(roots);
    OnceAppend(-8, roots, t, h.blocks.Keys + {-8});
  }

  lemma NoBlock(roots: seq<Shape>)
    requires Once(All(roots))
    ensures Once(Nest(-8 + 8, roots))
  {}

  /** A bundle in use is there, with its count. */
  lemma UsedLive(h: Heap, roots: seq<Shape>, p: int) returns (j: nat)
    requires RepIn(h, roots) && UsesIn(roots, p) > 0
    ensures j < |roots| && Uses(roots[j], p) > 0 && Live(h, p - 8) && BundleAt(h, p)
    ensures Needs(h, roots[j], p - 4) && Needs(h, All(roots), p - 4)
  {
    hide Rep, Uses, UsesIn, Live, Owns, BundleAt;
    j := UsedItem(roots, p);
    CountLive(h, roots[j], p);
    UsedBundle(h, roots[j], p);
    assert Uses(roots[j], p - 4 + 4) > 0;
    NeedsAll(h, roots, j, p - 4);
  }

  /** Another object adds its uses. */
  lemma AddedUses(roots: seq<Shape>, t: Shape, p: int)
    requires Within(t, roots)
    ensures Uses(All(roots + [t]), p) == UsesIn(roots + [t], p) == UsesIn(roots, p) + Uses(t, p)
    ensures Uses(t, p) <= UsesIn(roots, p) == Uses(All(roots), p)
  {
    hide UsesIn;
    UsesAppend(roots, t, p);
    assert Uses(t, p) <= UsesIn(roots, p);
  }

  lemma CloneAllTidy(h: Heap, n: Heap, roots: seq<Shape>, t: Shape)
    requires Accounts(h, roots) && Added(h, n, roots, t)
    ensures Tidy(n, All(roots + [t]))
  {
    hide Rep, Once, OneBase, Denotes, UsesIn, Uses, Owns, Live, Accounted;
    forall a | Needs(n, All(roots + [t]), a) ensures Uses(All(roots + [t]), a + 8) == 0 {
      AddedUses(roots, t, a + 8);
      AddedUses(roots, t, a + 4);
      if b :| Owns(All(roots + [t]), b) && InBlock(n, b, a) {
        OwnsAppend(0, roots, t, b);
        if Owns(t, b) {
          NotOld(h, n, b, a);
          if UsesIn(roots, a + 8) > 0 { var j := UsedLive(h, roots, a + 8); }
        } else {
          assert BlockKept(h, n, b) && InBlock(h, b, a) && Needs(h, All(roots), a);
        }
      } else {
        assert Needs(h, All(roots), a);
      }
    }
  }

  /** Bundles stay in their blocks. */
  lemma BaseKept(h: Heap, n: Heap, roots: seq<Shape>, p: int)
    requires RepIn(h, roots) && UsesIn(roots, p) > 0 && forall j: nat | j < |roots| :: Kept(h, n, roots[j])
    ensures BaseOf(n, p) == BaseOf(h, p)
  {
    hide Rep, Uses, UsesIn, Owns, Live, Needs;
    var j := UsedLive(h, roots, p);
  }

  lemma CloneOneBase(h: Heap, n: Heap, roots: seq<Shape>, t: Shape)
    requires Accounts(h, roots) && Added(h, n, roots, t)
    ensures OneBase(n, All(roots + [t]))
  {
    hide Rep, Once, Denotes, UsesIn, Uses, Owns, Live, Accounted, Tidy, BaseOf, Kept, Grown, Apart;
    CloneRep(h, n, roots, t);
    var u := All(roots + [t]);
    forall p, q | Uses(u, p) > 0 && Uses(u, q) > 0 && BaseOf(n, p) == BaseOf(n, q) ensures p == q {
      AddedUses(roots, t, p);
      AddedUses(roots, t, q);
      BaseKept(h, n, roots, p);
      BaseKept(h, n, roots, q);
    }
  }

  lemma CloneCounts(h: Heap, n: Heap, roots: seq<Shape>, t: Shape)
    requires Accounts(h, roots) && Added(h, n, roots, t)
    ensures forall p {:trigger UsesIn(roots + [t], p)} | UsesIn(roots + [t], p) > 0 :: CountAt(n, p) == UsesIn(roots + [t], p)
  {
    hide Rep, Once, Denotes, UsesIn, Uses, Owns, Live, Accounted, Tidy, OneBase, Apart;
    forall p | UsesIn(roots + [t], p) > 0 ensures CountAt(n, p) == UsesIn(roots + [t], p) {
      AddedUses(roots, t, p);
      var j := UsedLive(h, roots, p);
      assert At(n, p - 8) == At(h, p - 8) + Uses(t, p - 8 + 8);
    }
  }

  lemma CloneAccounted(h: Heap, n: Heap, roots: seq<Shape>, t: Shape)
    requires Accounts(h, roots) && Added(h, n, roots, t)
    ensures forall b | b in n.blocks :: Accounted(n, roots + [t], b)
  {
    hide Rep, Once, Denotes, UsesIn, Uses, Owns, Live, Tidy, OneBase, Apart, BaseOf, Kept;
    CloneRep(h, n, roots, t);
    forall b | b in n.blocks ensures Accounted(n, roots + [t], b) {
      if Owns(t, b) {
        assert (roots + [t])[|roots|] == t;
      } else {
        assert Accounted(h, roots, b);
        if j: nat :| j < |roots| && Owns(roots[j], b) {
          assert (roots + [t])[j] == roots[j];
        } else {
          var p :| UsesIn(roots, p) > 0 && BaseOf(h, p) == b;
          BaseKept(h, n, roots, p);
          UsesAppend(roots, t, p);
        }
      }
    }
  }

  // ---------------------------------------------------------------- releasing a root

  lemma {:induction false} UsesConcat(a: seq<Shape>, b: seq<Shape>, p: int)
    ensures UsesIn(a + b, p) == UsesIn(a, p) + UsesIn(b, p)
  {
    if b == [] {
      assert a + b == a;
    } else {
      var last := |b| - 1;
      assert (a + b)[..|a| + last] == a + b[..last];
      UsesConcat(a, b[..last], p);
    }
  }

  /** The roots without the i-th. */
  function Rest(roots: seq<Shape>, i: nat): seq<Shape>
    requires i < |roots|
  {
    roots[..i] + roots[i + 1..]
  }

  lemma RestUses(roots: seq<Shape>, i: nat, p: int)
    requires i < |roots|
    ensures UsesIn(Rest(roots, i), p) + Uses(roots[i], p) == UsesIn(roots, p) == Uses(All(roots), p)
    ensures Uses(All(Rest(roots, i)), p) == UsesIn(Rest(roots, i), p)
  {
    UsesConcat(roots[..i], roots[i + 1..], p);
    UsesNext(roots, i, p);
    UsesConcat(roots[..i + 1], roots[i + 1..], p);
    assert roots[..i + 1] + roots[i + 1..] == roots;
  }

  /** The position of a remaining root among all of them. */
  function Before(i: nat, j: nat): nat { if j < i then j else j + 1 }

  /** The other roots are left alone. */
  lemma OtherKept(h: Heap, n: Heap, roots: seq<Shape>, i: nat, j: nat)
    requires Accounts(h, roots) && i < |roots| && Released(h, n, roots[i]) && j < |Rest(roots, i)|
    ensures Kept(h, n, Rest(roots, i)[j])
  {
    hide Rep, Once, UsesIn, Uses, Owns, Live, Tidy, OneBase, Apart, BaseOf, Gone, Accounts, Released, BlockKept;
    var r := Rest(roots, i)[j];
    assert r == roots[Before(i, j)];
    forall b | Owns(r, b) ensures BlockKept(h, n, b) { OtherBlock(h, n, roots, i, j, b); }
    forall p | Uses(r, p) > 0 ensures BlockKept(h, n, BaseOf(h, p)) { OtherBase(h, n, roots, i, j, p); }
    forall a | Needs(h, r, a) ensures At(n, a) == At(h, a) { OtherCell(h, n, roots, i, j, a); }
  }

  lemma RootsApart(roots: seq<Shape>, i: nat, j: nat, b: int)
    requires Once(All(roots)) && i < |roots| && j < |roots| && i != j && Owns(roots[j], b)
    ensures !Owns(roots[i], b)
  {
    hide Owns;
    assert OnceIn(roots);
  }

  /** The block of a bundle is nobody's own. */
  lemma AllNotMixed(h: Heap, roots: seq<Shape>, p: int)
    requires Accounts(h, roots) && UsesIn(roots, p) > 0
    ensures !Owns(All(roots), BaseOf(h, p)) && BundleAt(h, p)
  {
    hide Rep, Once, Uses, UsesIn, Owns, OneBase, Apart, Accounted;
    var j := UsedLive(h, roots, p);
    NestUses(0, roots, p);
    assert Uses(All(roots), p - 8 + 8) > 0;
    if Owns(All(roots), BaseOf(h, p)) { OwnNeeded(h, All(roots), BaseOf(h, p), p - 8); }
  }

  lemma OtherBlock(h: Heap, n: Heap, roots: seq<Shape>, i: nat, j: nat, b: int)
    requires Accounts(h, roots) && i < |roots| && Released(h, n, roots[i]) && j < |Rest(roots, i)|
    requires Owns(roots[Before(i, j)], b)
    ensures BlockKept(h, n, b)
  {
    hide Rep, UsesIn, Uses, Owns, Live, Tidy, OneBase, Apart, BaseOf, Accounted;
    RootsApart(roots, i, Before(i, j), b);
    OwnedBlock(h, roots[Before(i, j)], b);
    AllOwns(roots, Before(i, j), b);
    forall p ensures !DroppedAt(h, roots[i], b, p) {
      UsesItem(roots, i, p);
      if UsesIn(roots, p) > 0 { AllNotMixed(h, roots, p); }
    }
    assert !Gone(h, roots[i], b);
  }

  lemma OtherBase(h: Heap, n: Heap, roots: seq<Shape>, i: nat, j: nat, p: int)
    requires Accounts(h, roots) && i < |roots| && Released(h, n, roots[i]) && j < |Rest(roots, i)|
    requires Uses(roots[Before(i, j)], p) > 0
    ensures BlockKept(h, n, BaseOf(h, p)) && BundleAt(h, p)
  {
    hide Rep, Once, UsesIn, Uses, Owns, Live, Tidy, Apart, BaseOf, Accounted;
    TwoUses(roots, i, j, p);
    AllNotMixed(h, roots, p);
    forall q ensures !DroppedAt(h, roots[i], BaseOf(h, p), q) {
      UsesItem(roots, i, q);
      NestUses(0, roots, p);
      NestUses(0, roots, q);
    }
    if Owns(roots[i], BaseOf(h, p)) { AllOwns(roots, i, BaseOf(h, p)); }
    assert !Gone(h, roots[i], BaseOf(h, p));
  }

  lemma TwoUses(roots: seq<Shape>, i: nat, j: nat, p: int)
    requires i < |roots| && j < |Rest(roots, i)|
    ensures Uses(roots[i], p) + Uses(roots[Before(i, j)], p) <= UsesIn(roots, p)
  {
    hide Uses, UsesIn;
    RestUses(roots, i, p);
    UsesItem(Rest(roots, i), j, p);
  }

  lemma OtherCell(h: Heap, n: Heap, roots: seq<Shape>, i: nat, j: nat, a: int)
    requires Accounts(h, roots) && i < |roots| && Released(h, n, roots[i]) && j < |Rest(roots, i)|
    requires Needs(h, roots[Before(i, j)], a)
    ensures At(n, a) == At(h, a)
  {
    hide Rep, Once, UsesIn, Uses, Owns, OneBase, Apart, Accounted, Gone;
    var r := roots[Before(i, j)];
    if b :| Owns(r, b) && InBlock(h, b, a) {
      OtherBlock(h, n, roots, i, j, b);
      assert InBlock(n, b, a);
    } else {
      OtherBase(h, n, roots, i, j, a + 4);
      assert InBlock(n, BaseOf(h, a + 4), a + 4 - 4);
    }
    assert Live(n, a);
    NeedsAll(h, roots, Before(i, j), a);
    NestUses(0, roots, a + 8);
    UsesItem(roots, i, a + 8);
  }

  /** Releasing a root: the others account for what is left. */
  lemma ReleaseAccounts(h: Heap, n: Heap, roots: seq<Shape>, i: nat)
    requires Accounts(h, roots) && i < |roots| && Released(h, n, roots[i])
    ensures Accounts(n, Rest(roots, i))
    ensures forall j: nat | j < |Rest(roots, i)| :: Denotes(n, Rest(roots, i)[j]) == Denotes(h, Rest(roots, i)[j])
  {
    hide Accounts, Released, Denotes;
    RestRep(h, n, roots, i);
    RestOnce(h, roots, i);
    RestTidy(h, n, roots, i);
    RestOneBase(h, n, roots, i);
    RestCounts(h, n, roots, i);
    RestAccounted(h, n, roots, i);
    AccountsAre(n, Rest(roots, i));
  }

  lemma RestRep(h: Heap, n: Heap, roots: seq<Shape>, i: nat)
    requires Accounts(h, roots) && i < |roots| && Released(h, n, roots[i])
    ensures RepIn(h, Rest(roots, i)) && RepIn(n, Rest(roots, i)) && Apart(n)
    ensures forall j: nat | j < |Rest(roots, i)| :: Denotes(n, Rest(roots, i)[j]) == Denotes(h, Rest(roots, i)[j])
    ensures forall j: nat | j < |Rest(roots, i)| :: Kept(h, n, Rest(roots, i)[j])
  {
    hide Rep, Once, UsesIn, Uses, Owns, OneBase, Apart, Released, Tidy, Denotes, Kept;
    ReleasedApart(h, n, roots[i]);
    forall j: nat | j < |Rest(roots, i)|
      ensures var r := Rest(roots, i)[j]; Rep(h, r) && Rep(n, r) && Denotes(n, r) == Denotes(h, r) && Kept(h, n, r)
    {
      assert Rest(roots, i)[j] == roots[Before(i, j)];
      OtherKept(h, n, roots, i, j);
      RepKept(h, n, Rest(roots, i)[j]);
    }
  }

  lemma RestOnce(h: Heap, roots: seq<Shape>, i: nat)
    requires Accounts(h, roots) && i < |roots|
    ensures Once(All(Rest(roots, i)))
  {
    hide Rep, UsesIn, Uses, Owns, OneBase, Apart, Tidy, Accounted;
    var rest := Rest(roots, i);
    assert OnceIn(roots);
    forall j: nat | j < |rest| ensures rest[j] == roots[Before(i, j)] {}
    forall j: nat, k: nat, b | j < |rest| && k < |rest| && Owns(rest[j], b) && Owns(rest[k], b) ensures j == k {
      assert rest[j] == roots[Before(i, j)] && rest[k] == roots[Before(i, k)];
    }
  }

  lemma RestTidy(h: Heap, n: Heap, roots: seq<Shape>, i: nat)
    requires Accounts(h, roots) && i < |roots| && Released(h, n, roots[i])
    ensures Tidy(n, All(Rest(roots, i)))
  {
    hide Rep, Once, UsesIn, Uses, Owns, OneBase, Apart, Accounted, Gone;
    var rest := Rest(roots, i);
    forall a | Needs(n, All(rest), a) ensures Uses(All(rest), a + 8) == 0 {
      RestUses(roots, i, a + 8);
      RestUses(roots, i, a + 4);
      if b :| Owns(All(rest), b) && InBlock(n, b, a) {
        RestOwns(roots, i, b);
        assert BlockKept(h, n, b) && InBlock(h, b, a);
      }
      assert Needs(h, All(roots), a);
    }
  }

  lemma RestOwns(roots: seq<Shape>, i: nat, b: int)
    requires i < |roots| && Owns(All(Rest(roots, i)), b)
    ensures Owns(All(roots), b)
  {
    if j: nat :| j < |Rest(roots, i)| && Owns(Rest(roots, i)[j], b) {
      assert Rest(roots, i)[j] == roots[Before(i, j)];
    }
  }

  lemma RestOneBase(h: Heap, n: Heap, roots: seq<Shape>, i: nat)
    requires Accounts(h, roots) && i < |roots| && Released(h, n, roots[i])
    ensures OneBase(n, All(Rest(roots, i)))
  {
    hide Rep, Once, UsesIn, Uses, Owns, Apart, Accounted, Gone, BaseOf, Kept, Released, Tidy;
    RestRep(h, n, roots, i);
    var u := All(Rest(roots, i));
    forall p, q | Uses(u, p) > 0 && Uses(u, q) > 0 && BaseOf(n, p) == BaseOf(n, q) ensures p == q {
      RestUses(roots, i, p);
      RestUses(roots, i, q);
      BaseKept(h, n, Rest(roots, i), p);
      BaseKept(h, n, Rest(roots, i), q);
    }
  }

  lemma RestCounts(h: Heap, n: Heap, roots: seq<Shape>, i: nat)
    requires Accounts(h, roots) && i < |roots| && Released(h, n, roots[i])
    ensures forall p {:trigger UsesIn(Rest(roots, i), p)} | UsesIn(Rest(roots, i), p) > 0 :: CountAt(n, p) == UsesIn(Rest(roots, i), p)
  {
    hide Rep, Once, UsesIn, Uses, Owns, Apart, Accounted, Gone, BaseOf, Kept, Tidy, OneBase;
    RestRep(h, n, roots, i);
    forall p | UsesIn(Rest(roots, i), p) > 0 ensures CountAt(n, p) == UsesIn(Rest(roots, i), p) {
      RestUses(roots, i, p);
      var j := UsedLive(n, Rest(roots, i), p);
      assert At(n, p - 8) + Uses(roots[i], p - 8 + 8) == At(h, p - 8);
    }
  }

  lemma RestAccounted(h: Heap, n: Heap, roots: seq<Shape>, i: nat)
    requires Accounts(h, roots) && i < |roots| && Released(h, n, roots[i])
    ensures forall b | b in n.blocks :: Accounted(n, Rest(roots, i), b)
  {
    hide Rep, Once, UsesIn, Uses, Owns, Apart, BaseOf, Kept, Tidy, OneBase, Dropped;
    RestRep(h, n, roots, i);
    forall b | b in n.blocks ensures Accounted(n, Rest(roots, i), b) {
      assert Accounted(h, roots, b) && !Gone(h, roots[i], b);
      if j: nat :| j < |roots| && Owns(roots[j], b) {
        assert j != i;
        assert Rest(roots, i)[if j < i then j else j - 1] == roots[j];
      } else {
        var p :| UsesIn(roots, p) > 0 && BaseOf(h, p) == b;
        RestUses(roots, i, p);
        NotAllDropped(h, roots, i, b, p);
        BaseKept(h, n, Rest(roots, i), p);
      }
    }
  }

  lemma NotAllDropped(h: Heap, roots: seq<Shape>, i: nat, b: int, p: int)
    requires Accounts(h, roots) && i < |roots| && UsesIn(roots, p) > 0 && BaseOf(h, p) == b && !Dropped(h, roots[i], b)
    ensures UsesIn(Rest(roots, i), p) > 0
  {
    hide Rep, Once, UsesIn, Uses, Owns, Apart, BaseOf, Tidy, OneBase;
    RestUses(roots, i, p);
    assert !DroppedAt(h, roots[i], b, p);
  }

  // ---------------------------------------------------------------- a new bundle

  /** n is h with a new bundle p, with a count of two, in a block of its own. */
  ghost predicate NewBundle(h: Heap, n: Heap, p: int, size: nat) {
    BundleAt(n, p) && Fresh(h, n, BaseOf(n, p), size) && CountAt(n, p) == 2
  }

  /** The two ends of a new bundle become roots. */
  lemma BundleAccounts(h: Heap, n: Heap, roots: seq<Shape>, p: int, size: nat)
    requires Accounts(h, roots) && NewBundle(h, n, p, size)
    ensures Accounts(n, roots + [Bundle(p), Bundle(p)])
    ensures forall j: nat | j < |roots| :: Denotes(n, roots[j]) == Denotes(h, roots[j])
  {
    hide Accounts, NewBundle, Denotes, Kept;
    EndsRep(h, n, roots, p, size);
    EndsOnce(roots, p) by { assert Once(All(roots)) by { AccountsOnce(h, roots); } }
    EndsTidy(h, n, roots, p, size);
    EndsOneBase(h, n, roots, p, size);
    EndsCounts(h, n, roots, p, size);
    EndsAccounted(h, n, roots, p, size);
    AccountsAre(n, roots + [Bundle(p), Bundle(p)]);
  }

  lemma AccountsOnce(h: Heap, roots: seq<Shape>)
    requires Accounts(h, roots)
    ensures Once(All(roots)) && Apart(h)
  {}

  /** The uses and blocks of the roots and the two ends. */
  lemma EndsUses(roots: seq<Shape>, p: int, q: int)
    ensures var u := roots + [Bundle(p), Bundle(p)];
            Uses(All(u), q) == UsesIn(u, q) == UsesIn(roots, q) + if p == q then 2 else 0
  {
    UsesConcat(roots, [Bundle(p), Bundle(p)], q);
    UsesAppend([Bundle(p)], Bundle(p), q);
    UsesAppend([], Bundle(p), q);
    assert [Bundle(p)] + [Bundle(p)] == [Bundle(p), Bundle(p)] && [] + [Bundle(p)] == [Bundle(p)];
    NestUses(0, roots + [Bundle(p), Bundle(p)], q);
  }

  lemma EndsOwns(roots: seq<Shape>, p: int, b: int)
    ensures Owns(All(roots + [Bundle(p), Bundle(p)]), b) <==> Owns(All(roots), b)
  {
    OwnsAppend(0, roots, Bundle(p), b);
    OwnsAppend(0, roots + [Bundle(p)], Bundle(p), b);
    assert roots + [Bundle(p)] + [Bundle(p)] == roots + [Bundle(p), Bundle(p)];
  }

  lemma EndsOnce(roots: seq<Shape>, p: int)
    requires Once(All(roots))
    ensures Once(All(roots + [Bundle(p), Bundle(p)]))
  {
    assert OnceIn(roots);
    var u := roots + [Bundle(p), Bundle(p)];
    EndsOwns(roots, p, -8);
    forall i: nat | i < |u| ensures Once(u[i]) {}
    forall i: nat, j: nat, b | i < |u| && j < |u| && Owns(u[i], b) && Owns(u[j], b) ensures i == j {
      assert u[i] == roots[i] && u[j] == roots[j];
    }
    assert OnceIn(u);
  }

  /** A cell in the new block was not live. */
  lemma NewBundleFacts(h: Heap, n: Heap, p: int, size: nat)
    requires NewBundle(h, n, p, size)
    ensures BundleAt(n, p) && Apart(n) && CountAt(n, p) == 2 && (forall a | Live(h, a) :: At(n, a) == At(h, a))
    ensures !Live(h, p - 8) && !Live(h, p - 4) && BaseOf(n, p) !in h.blocks
    ensures n.blocks.Keys == h.blocks.Keys + {BaseOf(n, p)} && forall b | b in h.blocks :: BlockKept(h, n, b)
  {
    hide Live, TypeIs;
    assert forall b | b in h.blocks :: BlockKept(h, n, b);
    NotOld(h, n, BaseOf(n, p), p - 8);
    NotOld(h, n, BaseOf(n, p), p - 4);
  }

  lemma EndsRep(h: Heap, n: Heap, roots: seq<Shape>, p: int, size: nat)
    requires Accounts(h, roots) && NewBundle(h, n, p, size)
    ensures RepIn(n, roots + [Bundle(p), Bundle(p)]) && Apart(n)
    ensures forall j: nat | j < |roots| :: Denotes(n, roots[j]) == Denotes(h, roots[j]) && Kept(h, n, roots[j])
  {
    hide Once, Tidy, OneBase, Denotes, Apart, Kept, UsesIn, Uses, Owns, NewBundle, Live, BundleAt, ArrayAt, RawAt, Accounted;
    NewBundleFacts(h, n, p, size);
    forall j: nat | j < |roots| ensures Rep(n, roots[j]) && Denotes(n, roots[j]) == Denotes(h, roots[j]) && Kept(h, n, roots[j]) {
      NewKeeps(h, n, roots[j]);
      RepKept(h, n, roots[j]);
    }
    assert Rep(n, Bundle(p));
  }

  lemma NewKeeps(h: Heap, n: Heap, s: Shape)
    requires Rep(h, s) && (forall a | Live(h, a) :: At(n, a) == At(h, a)) && forall b | b in h.blocks :: BlockKept(h, n, b)
    ensures Kept(h, n, s)
  {
    hide Rep, Uses, Owns, Live;
    forall a | Needs(h, s, a) ensures At(n, a) == At(h, a) { NeedsLive(h, s, a); }
    forall b | Owns(s, b) ensures BlockKept(h, n, b) { OwnedBlock(h, s, b); }
    forall p | Uses(s, p) > 0 ensures BlockKept(h, n, BaseOf(h, p)) { UsedBundle(h, s, p); }
  }

  lemma EndsTidy(h: Heap, n: Heap, roots: seq<Shape>, p: int, size: nat)
    requires Accounts(h, roots) && NewBundle(h, n, p, size)
    ensures Tidy(n, All(roots + [Bundle(p), Bundle(p)]))
  {
    hide Rep, Once, OneBase, UsesIn, Uses, Owns, Live, Accounted, NewBundle, Apart;
    NewBundleFacts(h, n, p, size);
    var u := All(roots + [Bundle(p), Bundle(p)]);
    forall a | Needs(n, u, a) ensures Uses(u, a + 8) == 0 {
      EndsUses(roots, p, a + 8);
      EndsUses(roots, p, a + 4);
      NestUses(0, roots, a + 8);
      NestUses(0, roots, a + 4);
      if UsesIn(roots, a + 8) > 0 { var j := UsedLive(h, roots, a + 8); }
      if UsesIn(roots, a + 4) > 0 { var j := UsedLive(h, roots, a + 4); RootLive(h, roots, j, a); }
      if b :| Owns(u, b) && InBlock(n, b, a) {
        EndsOwns(roots, p, b);
        RootBlock(h, roots, b);
        PositiveBlock(n, b);
        assert BlockKept(h, n, b) && InBlock(h, b, a) && Needs(h, All(roots), a);
        BlockLive(h, b, a);
      }
    }
  }

  lemma PositiveBlock(h: Heap, b: int)
    requires Apart(h) && b in h.blocks
    ensures b > 0
  {}

  lemma BlockLive(h: Heap, b: int, a: int)
    requires InBlock(h, b, a)
    ensures Live(h, a)
  {}

  lemma RootLive(h: Heap, roots: seq<Shape>, j: nat, a: int)
    requires RepIn(h, roots) && j < |roots| && Needs(h, roots[j], a)
    ensures Live(h, a)
  {
    hide Rep, Needs, Live;
    NeedsLive(h, roots[j], a);
  }

  lemma RootBlock(h: Heap, roots: seq<Shape>, b: int)
    requires RepIn(h, roots) && Owns(All(roots), b)
    ensures b in h.blocks || b == -8
  {
    hide Rep;
    if j: nat :| j < |roots| && Owns(roots[j], b) { OwnedBlock(h, roots[j], b); }
  }

  lemma EndsOneBase(h: Heap, n: Heap, roots: seq<Shape>, p: int, size: nat)
    requires Accounts(h, roots) && NewBundle(h, n, p, size)
    ensures OneBase(n, All(roots + [Bundle(p), Bundle(p)]))
  {
    hide Rep, Once, UsesIn, Uses, Owns, Live, Accounted, Tidy, BaseOf, Kept, Apart, NewBundle;
    EndsRep(h, n, roots, p, size);
    NewBundleFacts(h, n, p, size);
    var u := All(roots + [Bundle(p), Bundle(p)]);
    forall q, r | Uses(u, q) > 0 && Uses(u, r) > 0 && BaseOf(n, q) == BaseOf(n, r) ensures q == r {
      OldBase(h, n, roots, p, q);
      OldBase(h, n, roots, p, r);
    }
  }

  /** A bundle other than the new one is where it was. */
  lemma OldBase(h: Heap, n: Heap, roots: seq<Shape>, p: int, q: int)
    requires RepIn(h, roots) && forall j: nat | j < |roots| :: Kept(h, n, roots[j])
    requires Uses(All(roots + [Bundle(p), Bundle(p)]), q) > 0
    ensures q == p || (Uses(All(roots), q) > 0 && BaseOf(n, q) == BaseOf(h, q) && BaseOf(h, q) in h.blocks)
  {
    hide Rep, UsesIn, Uses, BaseOf, Kept;
    EndsUses(roots, p, q);
    NestUses(0, roots, q);
    if q != p {
      BaseKept(h, n, roots, q);
      var j := UsedLive(h, roots, q);
    }
  }

  lemma EndsCounts(h: Heap, n: Heap, roots: seq<Shape>, p: int, size: nat)
    requires Accounts(h, roots) && NewBundle(h, n, p, size)
    ensures var u := roots + [Bundle(p), Bundle(p)];
            forall q {:trigger UsesIn(u, q)} | UsesIn(u, q) > 0 :: CountAt(n, q) == UsesIn(u, q)
  {
    hide Rep, Once, UsesIn, Uses, Owns, Live, Accounted, Tidy, OneBase, Apart, NewBundle;
    NewBundleFacts(h, n, p, size);
    var u := roots + [Bundle(p), Bundle(p)];
    forall q | UsesIn(u, q) > 0 ensures CountAt(n, q) == UsesIn(u, q) {
      EndsUses(roots, p, q);
      if UsesIn(roots, q) > 0 { var j := UsedLive(h, roots, q); }
    }
  }

  lemma EndsAccounted(h: Heap, n: Heap, roots: seq<Shape>, p: int, size: nat)
    requires Accounts(h, roots) && NewBundle(h, n, p, size)
    ensures forall b | b in n.blocks :: Accounted(n, roots + [Bundle(p), Bundle(p)], b)
  {
    hide Rep, Once, UsesIn, Uses, Owns, Live, Tidy, OneBase, Apart, BaseOf, Kept, NewBundle;
    EndsRep(h, n, roots, p, size);
    NewBundleFacts(h, n, p, size);
    var u := roots + [Bundle(p), Bundle(p)];
    EndsUses(roots, p, p);
    forall b | b in n.blocks ensures Accounted(n, u, b) {
      if b == BaseOf(n, p) {
        assert UsesIn(u, p) > 0;
      } else {
        assert Accounted(h, roots, b);
        if j: nat :| j < |roots| && Owns(roots[j], b) {
          assert u[j] == roots[j];
        } else {
          var q :| UsesIn(roots, q) > 0 && BaseOf(h, q) == b;
          BaseKept(h, n, roots, q);
          EndsUses(roots, p, q);
        }
      }
    }
  }
}
