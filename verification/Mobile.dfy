/** Mobile memory as the C code handles it: headers, elements and reference counts written in
    place (runtime/libtvm/ins_mobile.c:51-403). */
module Mobile {
  import opened Words
  import opened MobileTypes
  import opened MobileState
  import opened MobileClone
  import opened MobileRelease
  import opened MobileRoots

  /** The header of a new array. */
  ghost predicate HeaderMade(n: Heap, ma: int, t: nat, size: nat) {
    && ma > 0 && At(n, ma) == size && At(n, ma + 4) == t && At(n, ma + 8) == ElementsAt(ma, t, size)
    && (HasDma(t) ==> At(n, ma + 12 + 4 * Dimensions(t)) == ElementsAt(ma, t, size))
  }

  lemma FreshWrite(h: Heap, n: Heap, b: int, size: nat, a: int, v: nat)
    requires Fresh(h, n, b, size) && b <= a < b + size
    ensures Fresh(h, Put(n, a, v), b, size)
  {
    SameBlocks(n, Put(n, a, v));
    assert InBlock(n, b, a);
    if c :| InBlock(h, c, a) { assert InBlock(n, c, a); }
  }

  lemma HeaderArray(h: Heap, n: Heap, ma: int, t: nat, size: nat)
    requires Fresh(h, n, ma, ArrayBytes(t, size)) && HeaderMade(n, ma, t, size) && Simple(t) && Type(t) == MT_ARRAY
    ensures ArrayAt(n, ma + 8)
  {
    hide Unit, Alignment, ElementsAt, MetaWords, Apart, Live, Simple, Type;
    if size > 0 { ElementsInside(ma, t, size); }
    assert size * Unit(t) >= 0;
  }

  /** The header of a copy, once the dimensions are copied. */
  lemma CopyHeaded(h: Heap, n: Heap, s: Shape, ma: int)
    requires !s.Null? && ArrayAt(h, s.ptr) && Fresh(h, n, ma, ArrayBytes(TypeAt(h, s.ptr), SizeAt(h, s.ptr)))
    requires HeaderMade(n, ma, TypeAt(h, s.ptr), SizeAt(h, s.ptr))
    requires Cells(n, ma + 12, 4, Dimensions(TypeAt(h, s.ptr))) == Cells(h, s.ptr + 4, 4, Dimensions(TypeAt(h, s.ptr)))
    ensures Headed(h, n, s, ma)
  {
    hide Fresh, Cells, ArrayBytes, ElementsAt;
    HeaderArray(h, n, ma, TypeAt(h, s.ptr), SizeAt(h, s.ptr));
  }

  lemma MetaRoom(t: nat, size: nat)
    ensures 4 * MetaWords(t) <= ArrayBytes(t, size) && Dimensions(t) + 3 + (if HasDma(t) then 1 else 0) == MetaWords(t)
  {
    hide Unit, Alignment, HasDma;
    assert size * Unit(t) >= 0;
  }

  lemma HeaderStays(n: Heap, m: Heap, ma: int, t: nat, size: nat)
    requires HeaderMade(n, ma, t, size) && forall a | a < ma + 4 * MetaWords(t) :: At(m, a) == At(n, a)
    ensures HeaderMade(m, ma, t, size)
  {
    hide ElementsAt;
  }

  lemma CellsGrow(n: Heap, h: Heap, a: int, b: int, step: int, k: nat)
    requires Cells(n, a, step, k) == Cells(h, b, step, k) && At(n, a + step * k) == At(h, b + step * k)
    ensures Cells(n, a, step, k + 1) == Cells(h, b, step, k + 1)
  {
    forall i | 0 <= i < k ensures At(n, a + step * i) == At(h, b + step * i) {
      assert Cells(n, a, step, k)[i] == Cells(h, b, step, k)[i];
    }
  }

  lemma FreshApart(h: Heap, b: int, size: nat)
    requires Apart(h) && b > 0 && forall c | c in h.blocks :: c < b && c + h.blocks[c] <= b
    ensures Fresh(h, h.(blocks := h.blocks[b := size]), b, size)
  {
    var n := h.(blocks := h.blocks[b := size]);
    forall c, a | InBlock(n, c, a) && c != b ensures InBlock(h, c, a) {}
  }

  lemma NoCells(n: Heap, h: Heap, a: int, b: int, step: nat)
    ensures Cells(n, a, step, 0) == Cells(h, b, step, 0)
  {}

  lemma StepInside(step: nat, i: nat, n: nat)
    requires step > 0 && i < n
    ensures 0 <= step * i && step * i + step == step * (i + 1) <= step * n
  {
    if n > i + 1 { MulGe(n - i - 1, step); }
    assert step * n - step * (i + 1) == step * (n - i - 1);
  }

  /** A write behind the cells does not change them. */
  lemma CellsElsewhere(n: Heap, a: int, step: nat, k: nat, d: int, v: nat)
    requires step > 0 && d == a + step * k
    ensures Cells(Put(n, d, v), a, step, k) == Cells(n, a, step, k)
  {
    forall i | 0 <= i < k ensures a + step * i != d { StepInside(step, i, k); }
  }

  /** Room for the elements of an array of mobiles. */
  lemma ElementRoom(ma: int, t: nat, size: nat)
    requires !Numeric(t) && ma > 0
    ensures size > 0 ==> ma + 12 <= ma + 4 * MetaWords(t) <= ElementsAt(ma, t, size)
    ensures size > 0 ==> ElementsAt(ma, t, size) + 4 * size <= ma + ArrayBytes(t, size)
  {
    hide Alignment, ElementsAt, ArrayBytes;
    WordUnit(t);
    if size > 0 { ElementsInside(ma, t, size); }
    MetaRoom(t, size);
  }

  function DataBytes(size: nat): nat { 8 + (size + 3) / 4 * 4 }

  lemma FreshHas(h: Heap, n: Heap, b: int, size: nat)
    requires Fresh(h, n, b, size)
    ensures b > 0 && b in n.blocks && n.blocks[b] == size && b !in h.blocks && Apart(n)
  {}

  /** The type word tells what an object is. */
  lemma ObjectType(h: Heap, s: Shape)
    requires Rep(h, s) && !s.Null?
    ensures var kind := Type(TypeAt(h, s.ptr));
            && (s.Flat? || s.Nest? <==> kind == MT_ARRAY) && (s.Bundle? <==> kind == MT_CB) && (s.Raw? <==> kind == MT_DATA)
  {
    hide Type, RepIn;
  }

  lemma ArrayKind(h: Heap, s: Shape)
    requires Rep(h, s) && (s.Flat? || s.Nest?)
    ensures s.Flat? <==> Numeric(TypeAt(h, s.ptr))
  {
    hide Numeric, RepIn, ArrayAt;
  }

  lemma RawLive(h: Heap, p: int)
    requires RawAt(h, p)
    ensures forall i: nat | i < SizeAt(h, p) :: Live(h, p + 1 * i)
  {
    forall i: nat | i < SizeAt(h, p) ensures Live(h, p + 1 * i) { assert InBlock(h, p - 8, p + i); }
  }

  lemma ArrayLive(h: Heap, p: int)
    requires ArrayAt(h, p)
    ensures forall i: nat | i < Dimensions(TypeAt(h, p)) :: Live(h, p + 4 + 4 * i)
    ensures Live(h, p - 8) && Live(h, p - 4) && Live(h, p)
    ensures forall i: nat | i < ElementBytes(h, p) :: Live(h, DataAt(h, p) + 1 * i)
  {
    hide Unit, Dimensions;
    MetaRoom(TypeAt(h, p), 0);
    assert InBlock(h, p - 8, p - 8) && InBlock(h, p - 8, p - 4) && InBlock(h, p - 8, p);
    forall i: nat | i < Dimensions(TypeAt(h, p)) ensures Live(h, p + 4 + 4 * i) { assert InBlock(h, p - 8, p + 4 + 4 * i); }
    forall i: nat | i < ElementBytes(h, p) ensures Live(h, DataAt(h, p) + 1 * i) { assert InBlock(h, p - 8, DataAt(h, p) + i); }
  }

  /** A copy ma of the array at p with its header and dimensions, but not its elements. */
  ghost predicate Begun(h: Heap, n: Heap, p: int, ma: int) {
    && Fresh(h, n, ma, ArrayBytes(TypeAt(h, p), SizeAt(h, p))) && HeaderMade(n, ma, TypeAt(h, p), SizeAt(h, p))
    && Cells(n, ma + 12, 4, Dimensions(TypeAt(h, p))) == Cells(h, p + 4, 4, Dimensions(TypeAt(h, p)))
  }

  lemma BegunFacts(h: Heap, n: Heap, s: Shape, ma: int)
    requires Clonable(h, s) && (s.Flat? || s.Nest?) && Begun(h, n, s.ptr, ma)
    ensures var p := s.ptr;
            && ArrayAt(h, p) && Headed(h, n, s, ma) && ma !in h.blocks && ma > 0
            && At(n, p) == At(h, p) && At(n, p - 4) == At(h, p - 4) && At(n, p - 8) == At(h, p - 8)
            && (forall i: nat | i < ElementBytes(h, p) :: Live(h, DataAt(h, p) + 1 * i))
            && (SizeAt(h, p) > 0 ==>
                  && ma + 4 * MetaWords(TypeAt(h, p)) <= DataAt(n, ma + 8)
                  && DataAt(n, ma + 8) + ElementBytes(h, p) <= ma + ArrayBytes(TypeAt(h, p), SizeAt(h, p)))
  {
    hide Tidy, Room, Apart, RepIn, Live, ElementsAt, Cells, Dimensions, MetaWords, Unit, Alignment, Numeric;
    ArrayLive(h, s.ptr);
    CopyHeaded(h, n, s, ma);
    if SizeAt(h, s.ptr) > 0 { ElementsInside(ma, TypeAt(h, s.ptr), SizeAt(h, s.ptr)); }
  }

  lemma ElementsCopied(h: Heap, n: Heap, m: Heap, p: int, ma: int)
    requires Clonable(h, Flat(p)) && Begun(h, n, p, ma) && Fresh(h, m, ma, ArrayBytes(TypeAt(h, p), SizeAt(h, p)))
    requires Cells(m, DataAt(n, ma + 8), 1, ElementBytes(h, p)) == Cells(h, DataAt(h, p), 1, ElementBytes(h, p))
    requires forall a | !(DataAt(n, ma + 8) <= a < DataAt(n, ma + 8) + 1 * ElementBytes(h, p)) :: At(m, a) == At(n, a)
    ensures Cloned(h, m, Flat(p), Flat(ma + 8))
  {
    hide Tidy, Room, Apart, Live, ElementsAt, Cells, Dimensions, ArrayBytes, Numeric, Cloned, Fresh, Unit;
    var t, size := TypeAt(h, p), SizeAt(h, p);
    BegunFacts(h, n, Flat(p), ma);
    MetaRoom(t, size);
    if size == 0 { assert ElementBytes(h, p) == 0; }
    DimsKept(n, m, ma, Dimensions(t));
    CopyHeaded(h, m, Flat(p), ma);
    FlatCloned(h, m, p, ma, ArrayBytes(t, size));
  }

  lemma DimsKept(n: Heap, m: Heap, ma: int, d: nat)
    requires forall a | ma <= a < ma + 12 + 4 * d :: At(m, a) == At(n, a)
    ensures Cells(m, ma + 12, 4, d) == Cells(n, ma + 12, 4, d)
  {}

  lemma BegunItems(h: Heap, n: Heap, s: Shape, ma: int)
    requires Clonable(h, s) && s.Nest? && Begun(h, n, s.ptr, ma)
    ensures Rep(h, s) && Cloning(h, n, s, ma, []) && SizeAt(n, s.ptr) == |s.items| && DataAt(n, s.ptr) == DataAt(h, s.ptr)
  {
    hide Tidy, Room, Apart, RepIn, ArrayAt, Headed, Cells, Cloning;
    BegunFacts(h, n, s, ma);
    CloneBegins(h, n, s, ma, ArrayBytes(TypeAt(h, s.ptr), SizeAt(h, s.ptr)));
  }

  /** The null pointer is no object. */
  lemma NullPointer(h: Heap, s: Shape)
    requires Rep(h, s)
    ensures Ptr(s) == 0 <==> s.Null?
  {
    hide RepIn;
  }

  lemma NullItem(h: Heap, s: Shape)
    requires Clonable(h, s)
    ensures (Ptr(s) == 0 <==> s.Null?) && Apart(h)
  {
    hide Tidy, Room, Apart, Rep;
    NullPointer(h, s);
  }

  lemma ClonePtr(h: Heap, n: Heap, s: Shape, t: Shape)
    requires Cloned(h, n, s, t)
    ensures Ptr(t) >= 0
  {
    hide Grown, Once, RepIn, DenotesIn, SameUses;
  }

  lemma StepIs(h: Heap, n: Heap, m: Heap, k: Heap, s: Shape, ma: int, done: seq<Shape>, t: Shape)
    requires Clonable(h, s) && Cloning(h, n, s, ma, done) && |done| < |s.items| && Cloned(n, m, s.items[|done|], t) && 0 <= Ptr(t)
    requires k == Put(m, SlotAt(n, ma, |done|), Ptr(t))
    ensures Stepping(h, n, m, k, s, ma, done, t)
  {
    hide Clonable, Cloned, Headed, RepIn, Once, DenotesIn, UsesIn;
    assert Owns(Nest(ma + 8, done), ma);
  }

  lemma NestFacts(h: Heap, s: Shape)
    requires Releasable(h, s) && s.Nest?
    ensures SizeAt(h, s.ptr) == |s.items| && Rep(h, s)
  {
    hide ArrayAt, RepIn, Tidy, Apart, Once;
  }

  lemma BaseLive(h: Heap, p: int)
    requires BundleAt(h, p)
    ensures p - 4 * BundleWords(TypeAt(h, p)) in h.blocks && BaseOf(h, p) == p - 4 * BundleWords(TypeAt(h, p))
  {
    hide BundleWords;
  }

  lemma RawBlock(h: Heap, p: int)
    requires RawAt(h, p)
    ensures p - 8 in h.blocks
  {}

  /** The pointer to the next element is still in the array. */
  lemma NextPointer(h: Heap, n: Heap, s: Shape, i: nat)
    requires Releasable(h, s) && Releasing(h, n, s, i) && i < |s.items|
    ensures At(n, DataAt(h, s.ptr) + 4 * i) == Ptr(s.items[i]) && (Ptr(s.items[i]) == 0 <==> s.items[i].Null?)
  {
    hide ArrayAt, RepIn, Tidy, Apart, Once, Released, Uses, UsesIn, Counted, OneBase;
    ItemRep(h, s, i);
    NullPointer(h, s.items[i]);
    OwnCells(h, n, s, i, DataAt(h, s.ptr) + 4 * i);
  }

  /** The cells of the array itself stay while its elements are released. */
  lemma OwnCells(h: Heap, n: Heap, s: Shape, i: nat, a: int)
    requires Releasable(h, s) && Releasing(h, n, s, i) && i < |s.items| && a == DataAt(h, s.ptr) + 4 * i
    ensures At(n, a) == At(h, a)
  {
    hide Tidy, Apart, Uses, UsesIn, Once, OneBase, Released;
    OwnBlock(h, n, s);
    OwnSlot(h, s, i);
    assert InBlock(n, s.ptr - 8, a) && Live(n, a) && Owns(s, s.ptr - 8) && Needs(h, s, a);
    TidyAt(h, s, a);
    PrefixUses(s, i, a + 8);
    ReleasedAt(h, n, Nest(0, s.items[..i]), a);
  }

  lemma OwnSlot(h: Heap, s: Shape, i: nat)
    requires Rep(h, s) && s.Nest? && i < |s.items|
    ensures InBlock(h, s.ptr - 8, DataAt(h, s.ptr) + 4 * i)
  {
    hide RepIn, Unit;
    WordUnit(TypeAt(h, s.ptr));
  }

  lemma TidyAt(h: Heap, s: Shape, a: int)
    requires Tidy(h, s) && Needs(h, s, a)
    ensures Uses(s, a + 8) == 0
  {}

  lemma ReleasedAt(h: Heap, n: Heap, u: Shape, a: int)
    requires Released(h, n, u) && Live(n, a)
    ensures At(n, a) + Uses(u, a + 8) == At(h, a)
  {}

  /** The block of an array is still there when its elements have been released. */
  lemma OwnBlock(h: Heap, n: Heap, s: Shape)
    requires Releasable(h, s) && (s.Flat? || s.Nest?)
    requires if s.Nest? then exists i: nat :: Releasing(h, n, s, i) else n == h
    ensures BlockKept(h, n, s.ptr - 8) && s.ptr - 8 in n.blocks
  {
    hide Tidy, Apart, Uses, UsesIn, OneBase, RepIn;
    if s.Nest? {
      var i: nat :| Releasing(h, n, s, i);
      NestStays(h, n, s, i);
    }
  }

  lemma NestStays(h: Heap, n: Heap, s: Shape, i: nat)
    requires Releasable(h, s) && Releasing(h, n, s, i)
    ensures BlockKept(h, n, s.ptr - 8)
  {
    hide Tidy, Apart, Uses, UsesIn, RepIn, Dropped, Live;
    var u, b := Nest(0, s.items[..i]), s.ptr - 8;
    assert b > 0;
    if Owns(u, b) { PrefixOwns(s.items, i, b); }
    assert !Dropped(h, u, b) by { NestNotDropped(h, s, i); }
    assert !Gone(h, u, b);
  }

  lemma NestNotDropped(h: Heap, s: Shape, i: nat)
    requires Releasable(h, s) && s.Nest? && i <= |s.items|
    ensures !Dropped(h, Nest(0, s.items[..i]), s.ptr - 8)
  {
    hide Rep, Tidy, Apart, Once, Uses, UsesIn, OneBase;
    var b := s.ptr - 8;
    forall q ensures !DroppedAt(h, Nest(0, s.items[..i]), b, q) {
      PrefixUses(s, i, q);
      if Uses(s, q) > 0 { NotMixed(h, s, q); }
    }
  }

  /** The mobiles ss denote what they did. */
  ghost predicate Unharmed(h: Heap, n: Heap, ss: seq<Shape>) { forall j: nat | j < |ss| :: Denotes(n, ss[j]) == Denotes(h, ss[j]) }

  function Nulls(size: nat): (ss: seq<Shape>)
    ensures |ss| == size && forall i | 0 <= i < size :: ss[i] == Null
  {
    seq(size, _ => Null)
  }

  lemma {:induction false} NullsUse(size: nat, p: int)
    ensures UsesIn(Nulls(size), p) == 0
  {
    if size > 0 {
      assert Nulls(size)[..size - 1] == Nulls(size - 1);
      NullsUse(size - 1, p);
    }
  }

  lemma NullsOwn(size: nat, p: int)
    ensures Once(Nest(p, Nulls(size)))
    ensures forall c {:trigger Owns(Nest(p, Nulls(size)), c)} :: Owns(Nest(p, Nulls(size)), c) <==> c == p - 8
  {
    var ss := Nulls(size);
    forall i: nat | i < size ensures ss[i] == Null && Once(ss[i]) {}
    hide Nulls;
    forall c ensures !OwnsIn(ss, c) {}
    forall c ensures Owns(Nest(p, ss), c) <==> c == p - 8 {}
  }

  /** A new array becomes another root. */
  lemma NewArrayRoot(h: Heap, n: Heap, roots: seq<Shape>, ma: int, t: nat, size: nat)
    requires Accounts(h, roots) && Fresh(h, n, ma, ArrayBytes(t, size)) && HeaderMade(n, ma, t, size)
    requires Simple(t) && Type(t) == MT_ARRAY
    requires !Numeric(t) ==> forall i: nat | i < size :: At(n, ElementsAt(ma, t, size) + 4 * i) == 0
    ensures var s := if Numeric(t) then Flat(ma + 8) else Nest(ma + 8, Nulls(size));
            Accounts(n, roots + [s]) && Unharmed(h, n, roots)
  {
    hide Accounts, Fresh, ArrayBytes, ElementsAt, Simple, Type, Numeric, Denotes, ArrayAt, UsesIn, Owns, Once;
    HeaderArray(h, n, ma, t, size);
    forall p ensures UsesIn(Nulls(size), p) == 0 { NullsUse(size, p); }
    if Numeric(t) {
      FlatOwns(ma);
      FreshAccounts(h, n, roots, ma, ArrayBytes(t, size), Flat(ma + 8));
    } else {
      assert RepIn(n, Nulls(size));
      NullsOwn(size, ma + 8);
      FreshAccounts(h, n, roots, ma, ArrayBytes(t, size), Nest(ma + 8, Nulls(size)));
    }
  }

  lemma FlatOwns(ma: int)
    ensures Once(Flat(ma + 8)) && forall c {:trigger Owns(Flat(ma + 8), c)} :: Owns(Flat(ma + 8), c) <==> c == ma
  {}

  lemma NewDataRoot(h: Heap, n: Heap, roots: seq<Shape>, md: int, t: nat, size: nat)
    requires Accounts(h, roots) && Fresh(h, n, md, DataBytes(size)) && At(n, md) == size && At(n, md + 4) == t
    requires Simple(t) && Type(t) == MT_DATA
    ensures Accounts(n, roots + [Raw(md + 8)]) && Unharmed(h, n, roots)
  {
    hide Accounts, Fresh, Simple, Type, Denotes;
    FreshHas(h, n, md, DataBytes(size));
    FreshAccounts(h, n, roots, md, DataBytes(size), Raw(md + 8));
  }

  lemma CloneSame(h: Heap, n: Heap, s: Shape, t: Shape)
    requires Cloned(h, n, s, t)
    ensures Denotes(n, t) == Denotes(h, s)
  {}

  /** The number of channels does not change what else a bundle's type says. */
  lemma WordsOf(t: nat, channels: nat)
    requires Simple(t) && Type(t) == MT_CB && t < 256 && !External(t)
    ensures var u := t + 256 * channels; Simple(u) && Type(u) == MT_CB && BundleWords(u) == BundleWords(t) && !External(u)
    ensures BundleWords(t) == 2 + (if Flags(t) % 2 == 1 then 4 else 0)
  {
    var u := t + 256 * channels;
    DivIs(u, 32, t / 32 + 8 * channels, t % 32);
    DivIs(u, 2, t / 2 + 128 * channels, t % 2);
    DivIs(t / 2 + 128 * channels, 16, t / 2 / 16 + 8 * channels, t / 2 % 16);
    DivIs(t / 32 + 8 * channels, 2, t / 32 / 2 + 4 * channels, t / 32 % 2);
    DivIs(t / 32 + 8 * channels, 4, t / 32 / 4 + 2 * channels, t / 32 % 4);
    DivIs(t / 32 / 4 + 2 * channels, 2, t / 32 / 4 / 2 + channels, t / 32 / 4 % 2);
  }

  lemma NewBundleRoot(h: Heap, n: Heap, roots: seq<Shape>, p: int, t: nat, channels: nat)
    requires Accounts(h, roots) && Simple(t) && Type(t) == MT_CB && t < 256 && !External(t)
    requires var words := BundleWords(t); Fresh(h, n, p - 4 * words, 4 * (words + channels))
    requires CountAt(n, p) == 2 && TypeAt(n, p) == t + 256 * channels
    ensures Accounts(n, roots + [Bundle(p), Bundle(p)]) && Unharmed(h, n, roots)
  {
    hide Accounts, Fresh, Simple, Type, Denotes, BundleWords;
    WordsOf(t, channels);
    FreshHas(h, n, p - 4 * BundleWords(t), 4 * (BundleWords(t) + channels));
    BundleAccounts(h, n, roots, p, 4 * (BundleWords(t) + channels));
  }

  /** A semaphore nobody holds (runtime/libtvm/ins_pi.c:297-301). */
  ghost predicate FreeLock(n: Heap, a: int) { At(n, a) == 1 && At(n, a + 4) == 0 }

  class Store {
    var mem: map<int, nat>
    var brk: nat
    ghost var blocks: map<int, nat>
    /** The mobiles the program holds. */
    ghost var roots: seq<Shape>

    ghost function V(): Heap
      reads this`mem, this`blocks
    {
      Heap(mem, blocks)
    }

    /** Blocks lie below the end of the memory in use. */
    ghost predicate Bounded()
      reads this`brk, this`blocks
    {
      forall b | b in blocks :: 0 < b < brk && b + blocks[b] < brk
    }

    /** The mobiles held describe the memory in use. */
    ghost predicate Good()
      reads this
    {
      Bounded() && Accounts(V(), roots)
    }

    constructor ()
      ensures Good() && roots == []
    {
      mem, brk, blocks, roots := map[], 0, map[], [];
      new;
      NothingHeld();
    }

    method Write(a: int, v: nat)
      requires Bounded()
      modifies this`mem
      ensures V() == Put(old(V()), a, v) && Bounded()
    {
      mem := mem[a := v];
    }

    /** read_word and read_byte */
    function Read(a: int): (v: nat)
      reads this`mem, this`blocks
      ensures v == At(V(), a)
    {
      if a in mem then mem[a] else 0
    }

    /** tvm_malloc, which finds room: a block apart from all others, its cells arbitrary. */
    method Malloc(size: nat) returns (b: int)
      requires Bounded() && Apart(V())
      modifies this`mem, this`brk, this`blocks
      ensures Bounded() && Fresh(old(V()), V(), b, size)
    {
      b := brk + 8 - brk % 8;
      FreshApart(V(), b, size);
      brk := b + size + 1;
      blocks := blocks[b := size];
    }

    /** tvm_free: what was in the block is lost. */
    method Free(b: int)
      requires Bounded() && b in V().blocks
      modifies this`mem, this`blocks
      ensures Bounded() && Freed(old(V()), V(), b)
    {
      blocks := blocks - {b};
    }

    /** Cells copied into a new block: bytes by memcpy, or words. */
    method Copy(dst: int, src: int, step: nat, n: nat, ghost h: Heap, ghost b: int, ghost size: nat)
      requires step > 0 && Bounded() && Fresh(h, V(), b, size) && (n > 0 ==> b <= dst && dst + step * n <= b + size)
      requires forall i: nat | i < n :: Live(h, src + step * i)
      modifies this`mem
      ensures Bounded() && Fresh(h, V(), b, size) && Cells(V(), dst, step, n) == Cells(h, src, step, n)
      ensures forall a | !(dst <= a < dst + step * n) :: At(V(), a) == At(old(V()), a)
    {
      hide V, Live, Apart, Cells;
      var i, d, s := 0, dst, src;
      NoCells(V(), h, dst, src, step);
      while i < n
        invariant 0 <= i <= n && d == dst + step * i && s == src + step * i
        invariant Bounded() && Fresh(h, V(), b, size) && Cells(V(), dst, step, i) == Cells(h, src, step, i)
        invariant forall a | !(dst <= a < dst + step * n) :: At(V(), a) == At(old(V()), a)
      {
        StepInside(step, i, n);
        ghost var n0 := V();
        FreshWrite(h, n0, b, size, d, Read(s));
        Write(d, Read(s));
        CellsElsewhere(n0, dst, step, i, d, V().mem[d]);
        CellsGrow(V(), h, dst, src, step, i);
        i, d, s := i + 1, d + step, s + step;
      }
    }

    // ------------------------------------------------------------ allocation

    /** mt_alloc_array_int */
    method AllocArrayInt(t: nat, size: nat, init: bool) returns (ma: int)
      requires Bounded() && Apart(V())
      modifies this`mem, this`brk, this`blocks
      ensures Bounded() && Fresh(old(V()), V(), ma, ArrayBytes(t, size)) && HeaderMade(V(), ma, t, size)
      ensures init && !Numeric(t) ==> forall i: nat | i < size :: At(V(), ElementsAt(ma, t, size) + 4 * i) == 0
    {
      hide V, Apart, Live, ArrayBytes, ElementsAt, MetaWords, Numeric, HasDma;
      ghost var h := V();
      ma := Malloc(ArrayBytes(t, size));
      var data := ElementsAt(ma, t, size);
      MetaRoom(t, size);
      WriteNew(ma, size, h, ma, ArrayBytes(t, size));
      WriteNew(ma + 4, t, h, ma, ArrayBytes(t, size));
      WriteNew(ma + 8, data, h, ma, ArrayBytes(t, size));
      if HasDma(t) { WriteNew(ma + 12 + 4 * Dimensions(t), data, h, ma, ArrayBytes(t, size)); }
      if init && !Numeric(t) { ClearElements(ma, t, size, h); }
    }

    method WriteNew(a: int, v: nat, ghost h: Heap, ghost b: int, ghost size: nat)
      requires Bounded() && Fresh(h, V(), b, size) && b <= a < b + size
      modifies this`mem
      ensures Bounded() && Fresh(h, V(), b, size) && V() == Put(old(V()), a, v)
    {
      hide V;
      FreshWrite(h, V(), b, size, a, v);
      Write(a, v);
    }

    /** The elements of a new array of mobiles are null. */
    method ClearElements(ma: int, t: nat, size: nat, ghost h: Heap)
      requires Bounded() && Fresh(h, V(), ma, ArrayBytes(t, size)) && HeaderMade(V(), ma, t, size) && !Numeric(t)
      modifies this`mem
      ensures Bounded() && Fresh(h, V(), ma, ArrayBytes(t, size)) && HeaderMade(V(), ma, t, size)
      ensures forall i: nat | i < size :: At(V(), ElementsAt(ma, t, size) + 4 * i) == 0
      ensures forall a | a < ma + 4 * MetaWords(t) :: At(V(), a) == At(old(V()), a)
    {
      hide V, Apart, Live, ArrayBytes, ElementsAt, Numeric, MetaWords, HeaderMade;
      assert ma > 0 by { FreshHas(h, V(), ma, ArrayBytes(t, size)); }
      ElementRoom(ma, t, size);
      var data, i := ElementsAt(ma, t, size), 0;
      while i < size
        invariant 0 <= i <= size && Bounded() && Fresh(h, V(), ma, ArrayBytes(t, size))
        invariant data == ElementsAt(ma, t, size) + 4 * i
        invariant forall j: nat | j < i :: At(V(), ElementsAt(ma, t, size) + 4 * j) == 0
        invariant forall a | a < ma + 4 * MetaWords(t) :: At(V(), a) == At(old(V()), a)
      {
        WriteNew(data, 0, h, ma, ArrayBytes(t, size));
        data, i := data + 4, i + 1;
      }
      HeaderStays(old(V()), V(), ma, t, size);
    }

    /** mt_alloc_data: the bytes are rounded up to words. */
    method AllocData(t: nat, size: nat) returns (md: int)
      requires Bounded() && Apart(V())
      modifies this`mem, this`brk, this`blocks
      ensures Bounded() && Fresh(old(V()), V(), md, DataBytes(size)) && At(V(), md) == size && At(V(), md + 4) == t
    {
      hide V, Apart, Live;
      ghost var h := V();
      md := Malloc(DataBytes(size));
      WriteNew(md, size, h, md, DataBytes(size));
      WriteNew(md + 4, t, h, md, DataBytes(size));
    }

    // ------------------------------------------------------------ clone

    /** mt_clone and mt_clone_simple, of an object described by s */
    method Clone(p: int, ghost s: Shape) returns (q: int, ghost t: Shape)
      requires Bounded() && Clonable(V(), s) && !s.Null? && p == s.ptr
      modifies this`mem, this`brk, this`blocks
      ensures Bounded() && Cloned(old(V()), V(), s, t) && q == Ptr(t)
      decreases s, 2
    {
      hide V, Apart, Tidy, Cloned, Room, ArrayAt, RawAt, BundleAt;
      ghost var h := V();
      ObjectType(h, s);
      var kind := Type(Read(p - 4));
      if kind == MT_ARRAY {
        q, t := CloneArray(p, s);
      } else if kind == MT_CB {
        BundleCloned(h, p);
        Write(p - 8, Read(p - 8) + 1);
        q, t := p, s;
      } else {
        q, t := CloneData(p);
      }
    }

    method CloneData(p: int) returns (q: int, ghost t: Shape)
      requires Bounded() && Clonable(V(), Raw(p))
      modifies this`mem, this`brk, this`blocks
      ensures Bounded() && Cloned(old(V()), V(), Raw(p), t) && q == Ptr(t)
    {
      hide V, Apart, Tidy, Cloned, Room, Live, Cells, Fresh, Simple, Type;
      ghost var h := V();
      var size := Read(p - 8);
      var md := AllocData(Read(p - 4), size);
      RawLive(h, p);
      Copy(md + 8, p, 1, size, h, md, DataBytes(size));
      FreshHas(h, V(), md, DataBytes(size));
      RawCloned(h, V(), p, md, DataBytes(size));
      q, t := md + 8, Raw(md + 8);
    }

    /** mt_clone_array */
    method CloneArray(p: int, ghost s: Shape) returns (q: int, ghost t: Shape)
      requires Bounded() && Clonable(V(), s) && (s.Flat? || s.Nest?) && p == s.ptr
      modifies this`mem, this`brk, this`blocks
      ensures Bounded() && Cloned(old(V()), V(), s, t) && q == Ptr(t)
      decreases s, 1
    {
      hide V, Apart, Tidy, Cloned, Room, Live, Cells, Fresh, Numeric, Unit, ArrayAt, RepIn, Headed;
      ghost var h := V();
      ArrayKind(h, s);
      var numeric := Numeric(Read(p - 4));
      var ma := CloneHeader(p, s);
      if numeric {
        t := CloneElements(p, ma, h);
      } else {
        t := CloneItems(p, ma, h, s);
      }
      q := ma + 8;
    }

    /** The header and the dimensions of the copy. */
    method CloneHeader(p: int, ghost s: Shape) returns (ma: int)
      requires Bounded() && Clonable(V(), s) && (s.Flat? || s.Nest?) && p == s.ptr
      modifies this`mem, this`brk, this`blocks
      ensures Bounded() && Begun(old(V()), V(), p, ma)
    {
      hide V, Apart, Tidy, Room, Live, Cells, Fresh, Numeric, Unit, ArrayBytes, ElementsAt, MetaWords, Dimensions, RepIn;
      ghost var h := V();
      var t, size := Read(p - 4), Read(p - 8);
      ma := AllocArrayInt(t, size, false);
      ArrayLive(h, p);
      MetaRoom(t, size);
      Copy(ma + 12, p + 4, 4, Dimensions(t), h, ma, ArrayBytes(t, size));
    }

    /** Numeric elements are copied byte by byte. */
    method CloneElements(p: int, ma: int, ghost h: Heap) returns (ghost t: Shape)
      requires Bounded() && Clonable(h, Flat(p)) && Begun(h, V(), p, ma)
      modifies this`mem
      ensures Bounded() && Cloned(h, V(), Flat(p), t) && t == Flat(ma + 8)
    {
      hide V, Apart, Tidy, Room, Live, Cells, Fresh, Numeric, Unit, ArrayBytes, ElementsAt, MetaWords, Dimensions, Cloned, Clonable;
      ghost var n := V();
      BegunFacts(h, n, Flat(p), ma);
      var bytes := Read(p - 8) * Unit(Read(p - 4));
      Copy(Read(ma + 8), Read(p), 1, bytes, h, ma, ArrayBytes(TypeAt(h, p), SizeAt(h, p)));
      ElementsCopied(h, n, V(), p, ma);
      t := Flat(ma + 8);
    }

    /** Mobile elements are cloned one by one. */
    method CloneItems(p: int, ma: int, ghost h: Heap, ghost s: Shape) returns (ghost t: Shape)
      requires Bounded() && Clonable(h, s) && s.Nest? && p == s.ptr && Begun(h, V(), p, ma)
      modifies this`mem, this`brk, this`blocks
      ensures Bounded() && Cloned(h, V(), s, t) && t.Nest? && t.ptr == ma + 8
      decreases s, 0
    {
      hide V, Apart, Tidy, Room, Live, Cells, Fresh, Numeric, Unit, ArrayBytes, ElementsAt, MetaWords, Dimensions, Cloned, Clonable,
           Cloning, Begun, Rep;
      BegunItems(h, V(), s, ma);
      var size, src, dst := Read(p - 8), Read(p), Read(ma + 8);
      ghost var done: seq<Shape> := [];
      while size > 0
        invariant Bounded() && Cloning(h, V(), s, ma, done) && |done| + size == |s.items|
        invariant src == DataAt(h, p) + 4 * |done| && dst == SlotAt(V(), ma, |done|)
      {
        ghost var n := V();
        ItemReady(h, n, s, ma, done);
        var inner := Read(src);
        ghost var u := Null;
        NullItem(n, s.items[|done|]);
        if inner != 0 {
          inner, u := Clone(inner, s.items[|done|]);
        } else {
          NullCloned(n);
        }
        ghost var m := V();
        ClonePtr(n, m, s.items[|done|], u);
        Write(dst, inner);
        StepIs(h, n, m, V(), s, ma, done, u);
        CloneStep(h, n, m, V(), s, ma, done, u);
        StepHeader(h, n, m, V(), s, ma, done, u);
        done := done + [u];
        size, src, dst := size - 1, src + 4, dst + 4;
      }
      CloneEnds(h, V(), s, ma, done);
      t := Nest(ma + 8, done);
    }

    // ------------------------------------------------------------ release

    /** mt_release and mt_release_simple, of an object described by s */
    method Release(p: int, ghost s: Shape)
      requires Bounded() && Releasable(V(), s) && !s.Null? && p == s.ptr
      modifies this`mem, this`blocks
      ensures Bounded() && Released(old(V()), V(), s)
      decreases s, 1
    {
      hide V, Apart, Tidy, Once, Counted, OneBase, Released, Freed, ArrayAt, RawAt, BundleAt, RepIn, Numeric;
      ghost var h := V();
      ObjectType(h, s);
      var t := Read(p - 4);
      if Type(t) == MT_ARRAY {
        ArrayKind(h, s);
        if !Numeric(t) { ReleaseItems(p, s); }
        ghost var n := V();
        OwnBlock(h, n, s);
        Free(p - 8);
        if s.Nest? { ReleaseEnds(h, n, V(), s); } else { OwnReleased(h, V(), s); }
      } else if Type(t) == MT_CB {
        var refs := Read(p - 8);
        BaseLive(h, p);
        if refs <= 1 {
          Free(p - 4 * BundleWords(t));
          LastReleased(h, V(), p);
        } else {
          Write(p - 8, refs - 1);
          BundleReleased(h, p);
        }
      } else {
        RawBlock(h, p);
        Free(p - 8);
        OwnReleased(h, V(), s);
      }
    }

    /** The elements of an array of mobiles are released one by one. */
    method ReleaseItems(p: int, ghost s: Shape)
      requires Bounded() && Releasable(V(), s) && s.Nest? && p == s.ptr
      modifies this`mem, this`blocks
      ensures Bounded() && Releasing(old(V()), V(), s, |s.items|)
      decreases s, 0
    {
      hide V, Releasable, Released, Releasing, Rep;
      ghost var h := V();
      NestFacts(h, s);
      var size, data := Read(p - 8), Read(p);
      ghost var i := 0;
      ReleaseBegins(h, s);
      while size > 0
        invariant Bounded() && Releasing(h, V(), s, i) && i + size == |s.items| && data == DataAt(h, p) + 4 * i
      {
        ghost var n := V();
        NextReleasable(h, n, s, i);
        NextPointer(h, n, s, i);
        var inner := Read(data);
        NullReleased(n);
        if inner != 0 { Release(inner, s.items[i]); }
        ReleaseStep(h, n, V(), s, i);
        size, data, i := size - 1, data + 4, i + 1;
      }
    }

    // ------------------------------------------------------------ the mobiles a program holds

    /** mt_alloc_array: the elements of an array of mobiles are null */
    method NewArray(t: nat, size: nat) returns (p: int)
      requires Good() && Simple(t) && Type(t) == MT_ARRAY
      modifies this
      ensures Good() && roots == old(roots) + [if Numeric(t) then Flat(p) else Nest(p, Nulls(size))]
      ensures TypeAt(V(), p) == t && SizeAt(V(), p) == size && Unharmed(old(V()), V(), old(roots))
    {
      hide V, Accounts, Fresh, ArrayBytes, ElementsAt, Simple, Type, Numeric, Denotes;
      ghost var h := V();
      AccountsOnce(h, roots);
      var ma := AllocArrayInt(t, size, true);
      p := ma + 8;
      NewArrayRoot(h, V(), roots, ma, t, size);
      roots := roots + [if Numeric(t) then Flat(p) else Nest(p, Nulls(size))];
    }

    /** mt_alloc_data */
    method NewData(t: nat, size: nat) returns (p: int)
      requires Good() && Simple(t) && Type(t) == MT_DATA
      modifies this
      ensures Good() && roots == old(roots) + [Raw(p)]
      ensures TypeAt(V(), p) == t && SizeAt(V(), p) == size && Unharmed(old(V()), V(), old(roots))
    {
      hide V, Accounts, Fresh, Simple, Type, Denotes;
      ghost var h := V();
      AccountsOnce(h, roots);
      var md := AllocData(t, size);
      p := md + 8;
      NewDataRoot(h, V(), roots, md, t, size);
      roots := roots + [Raw(p)];
    }

    /** mt_clone of a mobile held */
    method CloneHeld(p: int, ghost i: nat) returns (q: int)
      requires Good() && i < |roots| && !roots[i].Null? && p == roots[i].ptr && Room(V(), roots[i])
      modifies this
      ensures Good() && |roots| == |old(roots)| + 1 && roots[..|old(roots)|] == old(roots)
      ensures q == Ptr(roots[|old(roots)|]) && Denotes(V(), roots[|old(roots)|]) == Denotes(old(V()), old(roots)[i])
      ensures Unharmed(old(V()), V(), old(roots))
    {
      hide V, Accounts, Room, Denotes, Cloned, Rep;
      ghost var h := V();
      AccountsOnce(h, roots);
      RootFacts(h, roots, i);
      ghost var t;
      q, t := Clone(p, roots[i]);
      CloneAccounts(h, V(), roots, i, t);
      CloneSame(h, V(), roots[i], t);
      roots := roots + [t];
    }

    /** mt_release of a mobile held */
    method ReleaseHeld(p: int, ghost i: nat)
      requires Good() && i < |roots| && !roots[i].Null? && p == roots[i].ptr
      modifies this
      ensures Good() && i < |old(roots)| && roots == Rest(old(roots), i) && Unharmed(old(V()), V(), roots)
    {
      hide V, Accounts, Denotes, Released, Releasable;
      ghost var h := V();
      RootFacts(h, roots, i);
      Release(p, roots[i]);
      ReleaseAccounts(h, V(), roots, i);
      roots := Rest(roots, i);
    }

    /** mt_alloc_cb: a bundle with a reference for each of its two ends. t has no channels yet. */
    method NewBundle(t: nat, channels: nat) returns (p: int)
      requires Good() && Simple(t) && Type(t) == MT_CB && t < 256 && !External(t)
      modifies this
      ensures Good() && roots == old(roots) + [Bundle(p), Bundle(p)]
      ensures TypeAt(V(), p) == t + 256 * channels && Unharmed(old(V()), V(), old(roots))
      ensures forall c: nat | c < channels :: At(V(), p + 4 * c) == 0
      ensures Flags(t) % 2 == 1 ==> FreeLock(V(), p - 24) && FreeLock(V(), p - 16)
    {
      hide V, Accounts, Fresh, Simple, Type, Denotes, BundleWords;
      ghost var h := V();
      AccountsOnce(h, roots);
      var words := BundleWords(t);
      ghost var bytes := 4 * (words + channels);
      WordsOf(t, channels);
      var base := Malloc(4 * (words + channels));
      p := base + 4 * words;
      if Flags(t) % 2 == 1 { MakeLocks(base, h, bytes); }
      WriteNew(p - 8, 2, h, base, bytes);
      WriteNew(p - 4, t + 256 * channels, h, base, bytes);
      ClearChannels(p, channels, h, base, bytes);
      NewBundleRoot(h, V(), roots, p, t, channels);
      roots := roots + [Bundle(p), Bundle(p)];
    }

    /** The locks of a shared bundle are free semaphores. */
    method MakeLocks(base: int, ghost h: Heap, ghost bytes: nat)
      requires Bounded() && Fresh(h, V(), base, bytes) && bytes >= 16
      modifies this`mem
      ensures Bounded() && Fresh(h, V(), base, bytes) && FreeLock(V(), base) && FreeLock(V(), base + 8)
    {
      hide V, Fresh;
      WriteNew(base, 1, h, base, bytes);
      WriteNew(base + 4, 0, h, base, bytes);
      WriteNew(base + 8, 1, h, base, bytes);
      WriteNew(base + 12, 0, h, base, bytes);
    }

    /** The channels of a new bundle are empty. */
    method ClearChannels(p: int, channels: nat, ghost h: Heap, ghost base: int, ghost bytes: nat)
      requires Bounded() && Fresh(h, V(), base, bytes) && base <= p && p + 4 * channels <= base + bytes
      modifies this`mem
      ensures Bounded() && Fresh(h, V(), base, bytes)
      ensures forall c: nat | c < channels :: At(V(), p + 4 * c) == 0
      ensures forall a | a < p :: At(V(), a) == At(old(V()), a)
    {
      hide V, Fresh;
      var i := 0;
      while i < channels
        invariant 0 <= i <= channels && Bounded() && Fresh(h, V(), base, bytes)
        invariant forall c: nat | c < i :: At(V(), p + 4 * c) == 0
        invariant forall a | a < p :: At(V(), a) == At(old(V()), a)
      {
        WriteNew(p + 4 * i, 0, h, base, bytes);
        i := i + 1;
      }
    }
  }
}
