/** Mobile type words: the description of a mobile object packed in one word
    (runtime/libtvm/mobile_types.h). */
module MobileTypes {
  import opened Words

  const MT_NUM: nat := 0
  const MT_ARRAY: nat := 1
  const MT_CB: nat := 2
  const MT_DATA: nat := 7
  const MT_ARRAY_OPTS: nat := 9

  predicate Simple(t: nat) { t % 2 == 1 }

  function Type(t: nat): nat { t / 2 % 16 }

  function Flags(t: nat): nat { t / 32 }

  function Dimensions(t: nat): nat { 1 + Flags(t) % 8 }

  function Inner(t: nat): nat { t / 256 }

  /** Array options: flag bit 0 asks for a hardware address, flag bits 3 to 6 for an alignment. */
  predicate HasOptions(t: nat) { Type(Inner(t)) == MT_ARRAY_OPTS }

  predicate HasDma(t: nat) { HasOptions(t) && Flags(Inner(t)) % 2 == 1 }

  /** The type of the elements of an array. */
  function ElementType(t: nat): nat { if HasOptions(t) then Inner(t) / 4096 else Inner(t) }

  predicate Numeric(t: nat) { Type(ElementType(t)) == MT_NUM }

  function NumType(t: nat): nat { if Flags(t) % 8 < 7 then Flags(t) % 8 else Flags(t) / 8 % 256 }

  function Shift(t: nat): nat {
    if Numeric(t) then NumType(ElementType(t)) / 4 + NumType(ElementType(t)) % 4 else 2
  }

  /** Bytes to an element. */
  function Unit(t: nat): nat { Pow2(Shift(t)) }

  /** One less than the alignment of the elements. */
  function Alignment(t: nat): nat {
    var asked := if HasOptions(t) then Pow2(Inner(t) / 256 % 16) - 1 else 0;
    if asked == 0 && Numeric(t) && Shift(t) > 2 then Unit(t) - 1 else asked
  }

  function MetaWords(t: nat): nat { Dimensions(t) + 3 + if HasDma(t) then 1 else 0 }

  function ArrayBytes(t: nat, size: nat): nat { size * Unit(t) + Alignment(t) + 4 * MetaWords(t) }

  /** Where the elements of a new array go: behind its header, aligned. */
  function ElementsAt(ma: nat, t: nat, size: nat): nat {
    if size == 0 then 0
    else
      var a := ma + 4 * MetaWords(t) + Alignment(t);
      a - a % (Alignment(t) + 1)
  }

  /** The elements of a new array lie in its block, behind its header, and are aligned. */
  lemma ElementsInside(ma: nat, t: nat, size: nat)
    requires size > 0
    ensures var d := ElementsAt(ma, t, size);
            && ma + 4 * MetaWords(t) <= d && d + size * Unit(t) <= ma + ArrayBytes(t, size)
            && d % (Alignment(t) + 1) == 0
  {
    hide MetaWords, Alignment, Unit;
    var m := Alignment(t) + 1;
    var a := ma + 4 * MetaWords(t) + Alignment(t);
    DivIs(a - a % m, m, a / m, 0);
  }

  /** The external form of a bundle, which is not modelled. */
  predicate External(t: nat) { Flags(t) / 4 % 2 == 1 }

  /** The words in front of a channel bundle: two for each lock of a shared one, its reference
      count and its type. */
  function BundleWords(t: nat): nat { 2 + if Flags(t) % 2 == 1 then 4 else 0 }

  // ---------------------------------------------------------------- making type words

  /** MT_MAKE_TYPE with its flags: a self-contained type word. */
  function Make(kind: nat, flags: nat): nat { 1 + 2 * kind + 32 * flags }

  lemma MadeType(kind: nat, flags: nat)
    requires kind < 16
    ensures var t := Make(kind, flags); Simple(t) && Type(t) == kind && Flags(t) == flags
  {
    DivIs(Make(kind, flags), 2, kind + 16 * flags, 1);
    DivIs(kind + 16 * flags, 16, flags, kind);
    DivIs(Make(kind, flags), 32, flags, 1 + 2 * kind);
  }

  /** MT_MAKE_NUM, for the codes BYTE 0, INT16 1, INT32 2, INT64 3, REAL32 5, REAL64 6. */
  function MakeNum(code: nat): nat { Make(MT_NUM, code) }

  /** MT_MAKE_ARRAY_TYPE */
  function MakeArray(dims: nat, inner: nat): nat
    requires 1 <= dims <= 8
  {
    Make(MT_ARRAY, dims - 1 + 8 * inner)
  }

  /** MT_MAKE_ARRAY_OPTS: the elements aligned to 2^alignment bytes, room for a hardware address. */
  function MakeOptions(dma: bool, alignment: nat, inner: nat): nat {
    Make(MT_ARRAY_OPTS, (if dma then 1 else 0) + 8 * alignment + 128 * inner)
  }

  /** The bytes of a number. */
  function Width(code: nat): nat
    requires code in {0, 1, 2, 3, 5, 6}
  {
    match code
    case 0 => 1
    case 1 => 2
    case 2 => 4
    case 3 => 8
    case 5 => 4
    case _ => 8
  }

  /** An array of numbers: each takes the bytes of its type, and eight-byte numbers are
      aligned unless an alignment is asked for. */
  lemma NumberArray(dims: nat, code: nat)
    requires 1 <= dims <= 8 && code in {0, 1, 2, 3, 5, 6}
    ensures var t := MakeArray(dims, MakeNum(code));
            && Simple(t) && Type(t) == MT_ARRAY && Dimensions(t) == dims && Numeric(t) && !HasDma(t)
            && Unit(t) == Width(code) && Alignment(t) == (if Width(code) == 8 then 7 else 0) && MetaWords(t) == dims + 3
  {
    hide Make, Pow2;
    var inner := MakeNum(code);
    MadeArray(dims, inner);
    MadeType(MT_NUM, code);
    NumberUnit(MakeArray(dims, inner), code);
  }

  /** The same with options. */
  lemma AlignedArray(dims: nat, code: nat, dma: bool, alignment: nat)
    requires 1 <= dims <= 8 && code in {0, 1, 2, 3, 5, 6} && alignment < 16
    ensures var t := MakeArray(dims, MakeOptions(dma, alignment, MakeNum(code)));
            && Simple(t) && Type(t) == MT_ARRAY && Dimensions(t) == dims && Numeric(t) && (HasDma(t) <==> dma)
            && Unit(t) == Width(code) && MetaWords(t) == dims + 3 + (if dma then 1 else 0)
            && Alignment(t) == (if alignment > 0 then Pow2(alignment) - 1 else if Width(code) == 8 then 7 else 0)
  {
    hide Make, Pow2;
    var inner := MakeOptions(dma, alignment, MakeNum(code));
    MadeArray(dims, inner);
    MadeOptions(dma, alignment, MakeNum(code));
    MadeType(MT_NUM, code);
    NumberUnit(MakeArray(dims, inner), code);
    AtLeastTwo(alignment);
  }

  lemma AtLeastTwo(k: nat)
    ensures k > 0 ==> Pow2(k) >= 2
    ensures Pow2(0) == 1
  {}

  /** An array of mobiles: a word for each, aligned only when asked for. */
  lemma MobileArray(dims: nat, kind: nat, flags: nat)
    requires 1 <= dims <= 8 && kind < 16 && kind != MT_NUM && kind != MT_ARRAY_OPTS
    ensures var t := MakeArray(dims, Make(kind, flags));
            && Simple(t) && Type(t) == MT_ARRAY && Dimensions(t) == dims && !Numeric(t) && !HasDma(t)
            && Unit(t) == 4 && Alignment(t) == 0 && MetaWords(t) == dims + 3
  {
    hide Make;
    MadeArray(dims, Make(kind, flags));
    MadeType(kind, flags);
    assert Pow2(2) == 4;
  }

  lemma MadeArray(dims: nat, inner: nat)
    requires 1 <= dims <= 8
    ensures var t := MakeArray(dims, inner); Simple(t) && Type(t) == MT_ARRAY && Dimensions(t) == dims && Inner(t) == inner
  {
    MadeType(MT_ARRAY, dims - 1 + 8 * inner);
    DivIs(dims - 1 + 8 * inner, 8, inner, dims - 1);
    DivIs(MakeArray(dims, inner), 256, inner, 3 + 32 * (dims - 1));
  }

  lemma MadeOptions(dma: bool, alignment: nat, inner: nat)
    requires alignment < 16
    ensures var o, d := MakeOptions(dma, alignment, inner), if dma then 1 else 0;
            Type(o) == MT_ARRAY_OPTS && Flags(o) % 2 == d && o / 256 % 16 == alignment && o / 4096 == inner
  {
    var o, d := MakeOptions(dma, alignment, inner), if dma then 1 else 0;
    MadeType(MT_ARRAY_OPTS, d + 8 * alignment + 128 * inner);
    DivIs(d + 8 * alignment + 128 * inner, 2, 4 * alignment + 64 * inner, d);
    DivIs(o, 256, alignment + 16 * inner, 19 + 32 * d);
    DivIs(alignment + 16 * inner, 16, inner, alignment);
    DivIs(o, 4096, inner, 19 + 32 * d + 256 * alignment);
  }

  /** Bytes to a number, by its code. */
  lemma NumberUnit(t: nat, code: nat)
    requires ElementType(t) == MakeNum(code) && code in {0, 1, 2, 3, 5, 6}
    ensures Numeric(t) && Unit(t) == Width(code) && (Shift(t) > 2 <==> Width(code) == 8)
  {
    hide ElementType, Make;
    MadeType(MT_NUM, code);
    assert Pow2(0) == 1 && Pow2(1) == 2 && Pow2(2) == 4 && Pow2(3) == 8;
  }

  /** The same when flag bits 0 to 2 are all set and the next eight bits hold the code. */
  lemma ExtendedUnit(t: nat, code: nat)
    requires ElementType(t) == Make(MT_NUM, 7 + 8 * code) && code in {0, 1, 2, 3, 5, 6}
    ensures Numeric(t) && Unit(t) == Width(code) && (Shift(t) > 2 <==> Width(code) == 8)
  {
    hide ElementType, Make;
    MadeType(MT_NUM, 7 + 8 * code);
    DivIs(7 + 8 * code, 8, code, 7);
    assert Pow2(0) == 1 && Pow2(1) == 2 && Pow2(2) == 4 && Pow2(3) == 8;
  }

  /** The flags of a channel bundle. */
  function BundleFlags(shared: bool, pony: bool, external: bool, channels: nat): nat {
    (if shared then 1 else 0) + (if pony then 2 else 0) + (if external then 4 else 0) + 8 * channels
  }

  /** A channel bundle: two words in front of its channels, and four for the locks of a shared one. */
  lemma MadeBundle(shared: bool, pony: bool, external: bool, channels: nat)
    ensures var t := Make(MT_CB, BundleFlags(shared, pony, external, channels));
            && Simple(t) && Type(t) == MT_CB && (External(t) <==> external) && BundleWords(t) == (if shared then 6 else 2)
  {
    hide Make;
    var s, p, x := if shared then 1 else 0, if pony then 1 else 0, if external then 1 else 0;
    var flags := BundleFlags(shared, pony, external, channels);
    MadeType(MT_CB, flags);
    DivIs(flags, 2, p + 2 * x + 4 * channels, s);
    DivIs(flags, 4, x + 2 * channels, s + 2 * p);
    DivIs(x + 2 * channels, 2, channels, x);
  }
}

/** Mobile objects in memory, what they denote, and what they own. */
module MobileState {
  import opened Words
  import opened MobileTypes

  /** Memory, and the blocks of it that are allocated. */
  datatype Heap = Heap(mem: map<int, nat>, blocks: map<int, nat>)

  /** The word, or byte, at an address. */
  function At(h: Heap, a: int): nat { if a in h.mem then h.mem[a] else 0 }

  /** A mobile object and the objects below it. Arrays and data are owned, bundles shared. */
  datatype Shape =
    | Null
    | Flat(ptr: int)
    | Nest(ptr: int, items: seq<Shape>)
    | Raw(ptr: int)
    | Bundle(ptr: int)

  function Ptr(s: Shape): int { if s.Null? then 0 else s.ptr }

  /** What a mobile denotes. */
  datatype Value =
    | Nothing
    | Numbers(t: nat, dims: seq<nat>, bytes: seq<nat>)
    | Array(t: nat, dims: seq<nat>, items: seq<Value>)
    | Data(t: nat, bytes: seq<nat>)
    | Shared(ptr: int)

  // ---------------------------------------------------------------- blocks

  ghost predicate InBlock(h: Heap, b: int, a: int) { b in h.blocks && b <= a < b + h.blocks[b] }

  ghost predicate Live(h: Heap, a: int) { exists b :: InBlock(h, b, a) }

  /** Blocks do not overlap. */
  ghost predicate Apart(h: Heap) {
    && (forall b | b in h.blocks :: b > 0)
    && (forall b, c, a {:trigger InBlock(h, b, a), InBlock(h, c, a)} :: InBlock(h, b, a) && InBlock(h, c, a) ==> b == c)
  }

  // ---------------------------------------------------------------- objects

  function SizeAt(h: Heap, p: int): nat { At(h, p - 8) }

  /** read_mt_type */
  function TypeAt(h: Heap, p: int): nat { At(h, p - 4) }

  function DataAt(h: Heap, p: int): nat { At(h, p) }

  function CountAt(h: Heap, p: int): nat { At(h, p - 8) }

  /** n cells from a on, step apart: bytes, or words. */
  function Cells(h: Heap, a: int, step: int, n: nat): (s: seq<nat>)
    ensures |s| == n
  {
    seq(n, i => At(h, a + step * i))
  }

  /** The bytes of an array's elements. */
  function ElementBytes(h: Heap, p: int): nat { SizeAt(h, p) * Unit(TypeAt(h, p)) }

  function DimsAt(h: Heap, p: int): seq<nat> { Cells(h, p + 4, 4, Dimensions(TypeAt(h, p))) }

  ghost predicate TypeIs(h: Heap, p: int, kind: nat) { Simple(TypeAt(h, p)) && Type(TypeAt(h, p)) == kind }

  /** An array's header and elements lie in its block; behind its dimensions is the address for
      the hardware, if asked for. */
  ghost predicate ArrayAt(h: Heap, p: int) {
    && p > 8 && p - 8 in h.blocks && TypeIs(h, p, MT_ARRAY)
    && var t, size, d, end := TypeAt(h, p), SizeAt(h, p), DataAt(h, p), p - 8 + h.blocks[p - 8];
       && p - 8 + 4 * MetaWords(t) <= end && (HasDma(t) ==> At(h, p + 4 + 4 * Dimensions(t)) == d)
       && (size > 0 ==> p - 8 + 4 * MetaWords(t) <= d && d + ElementBytes(h, p) <= end)
  }

  ghost predicate RawAt(h: Heap, p: int) {
    && p > 8 && p - 8 in h.blocks && TypeIs(h, p, MT_DATA) && p + SizeAt(h, p) <= p - 8 + h.blocks[p - 8]
  }

  function BaseOf(h: Heap, p: int): int { p - 4 * BundleWords(TypeAt(h, p)) }

  ghost predicate BundleAt(h: Heap, p: int) {
    && p > 8 && TypeIs(h, p, MT_CB) && !External(TypeAt(h, p))
    && InBlock(h, BaseOf(h, p), p - 8) && InBlock(h, BaseOf(h, p), p - 4)
  }

  /** The shape s describes what is in memory at its address. */
  ghost predicate Rep(h: Heap, s: Shape) {
    match s
    case Null => true
    case Flat(p) => ArrayAt(h, p) && Numeric(TypeAt(h, p))
    case Nest(p, items) =>
      && ArrayAt(h, p) && !Numeric(TypeAt(h, p)) && SizeAt(h, p) == |items|
      && (forall i: nat | i < |items| :: At(h, DataAt(h, p) + 4 * i) == Ptr(items[i])) && RepIn(h, items)
    case Raw(p) => RawAt(h, p)
    case Bundle(p) => BundleAt(h, p)
  }

  ghost predicate RepIn(h: Heap, items: seq<Shape>) { forall i: nat | i < |items| :: Rep(h, items[i]) }

  ghost function Denotes(h: Heap, s: Shape): Value {
    match s
    case Null => Nothing
    case Flat(p) => Numbers(TypeAt(h, p), DimsAt(h, p), Cells(h, DataAt(h, p), 1, ElementBytes(h, p)))
    case Nest(p, items) => Array(TypeAt(h, p), DimsAt(h, p), DenotesIn(h, items))
    case Raw(p) => Data(TypeAt(h, p), Cells(h, p, 1, SizeAt(h, p)))
    case Bundle(p) => Shared(p)
  }

  ghost function DenotesIn(h: Heap, items: seq<Shape>): (s: seq<Value>)
    ensures |s| == |items|
  {
    if items == [] then [] else DenotesIn(h, items[..|items| - 1]) + [Denotes(h, items[|items| - 1])]
  }

  // ---------------------------------------------------------------- ownership and sharing

  /** b is a block of s. */
  ghost predicate Owns(s: Shape, b: int) {
    match s
    case Null => false
    case Flat(p) => b == p - 8
    case Nest(p, items) => b == p - 8 || OwnsIn(items, b)
    case Raw(p) => b == p - 8
    case Bundle(_) => false
  }

  ghost predicate OwnsIn(items: seq<Shape>, b: int) { exists i: nat :: i < |items| && Owns(items[i], b) }

  /** No block is owned twice. */
  ghost predicate Once(s: Shape) { s.Nest? ==> OnceIn(s.items) && !OwnsIn(s.items, s.ptr - 8) }

  ghost predicate OnceIn(items: seq<Shape>) {
    && (forall i: nat | i < |items| :: Once(items[i]))
    && (forall i: nat, j: nat, b {:trigger Owns(items[i], b), Owns(items[j], b)} |
          i < |items| && j < |items| && Owns(items[i], b) && Owns(items[j], b) :: i == j)
  }

  /** How often s refers to the bundle p. */
  function Uses(s: Shape, p: int): nat {
    match s
    case Null => 0
    case Flat(_) => 0
    case Nest(_, items) => UsesIn(items, p)
    case Raw(_) => 0
    case Bundle(q) => if p == q then 1 else 0
  }

  function UsesIn(items: seq<Shape>, p: int): nat {
    if items == [] then 0 else UsesIn(items[..|items| - 1], p) + Uses(items[|items| - 1], p)
  }

  /** The cells s is made of: those of its blocks, and the type words of its bundles. */
  ghost predicate Needs(h: Heap, s: Shape, a: int) { (exists b :: Owns(s, b) && InBlock(h, b, a)) || Uses(s, a + 4) > 0 }

  /** The reference counts of the bundles of s are not among the cells s is made of. */
  ghost predicate Tidy(h: Heap, s: Shape) { forall a {:trigger Needs(h, s, a)} | Needs(h, s, a) :: Uses(s, a + 8) == 0 }

  // ---------------------------------------------------------------- frames

  lemma {:induction false} UsesItem(items: seq<Shape>, i: nat, p: int)
    requires i < |items|
    ensures Uses(items[i], p) <= UsesIn(items, p)
  {
    var last := |items| - 1;
    if i < last {
      UsesItem(items[..last], i, p);
      assert items[..last][i] == items[i];
    }
  }

  lemma {:induction false} UsesPrefix(items: seq<Shape>, i: nat, p: int)
    requires i <= |items|
    ensures UsesIn(items[..i], p) <= UsesIn(items, p)
  {
    var last := |items| - 1;
    if i == |items| {
      assert items[..i] == items;
    } else {
      UsesPrefix(items[..last], i, p);
      assert items[..last][..i] == items[..i];
    }
  }

  lemma UsesNext(items: seq<Shape>, i: nat, p: int)
    requires i < |items|
    ensures UsesIn(items[..i + 1], p) == UsesIn(items[..i], p) + Uses(items[i], p)
  {
    assert items[..i + 1][..i] == items[..i];
  }

  lemma UsesAppend(items: seq<Shape>, s: Shape, p: int)
    ensures UsesIn(items + [s], p) == UsesIn(items, p) + Uses(s, p)
  {
    assert (items + [s])[..|items|] == items;
  }

  ghost predicate BlockKept(h: Heap, n: Heap, b: int) { b in h.blocks && b in n.blocks && n.blocks[b] == h.blocks[b] }

  /** Nothing that s is made of differs. */
  ghost predicate Kept(h: Heap, n: Heap, s: Shape) {
    && (forall a {:trigger Needs(h, s, a)} | Needs(h, s, a) :: At(n, a) == At(h, a))
    && (forall b {:trigger Owns(s, b)} | Owns(s, b) :: BlockKept(h, n, b))
    && (forall p {:trigger Uses(s, p)} | Uses(s, p) > 0 :: BlockKept(h, n, BaseOf(h, p)))
  }

  lemma KeptItem(h: Heap, n: Heap, s: Shape, i: nat)
    requires Kept(h, n, s) && s.Nest? && i < |s.items|
    ensures Kept(h, n, s.items[i])
  {
    hide UsesIn;
    forall p ensures Uses(s.items[i], p) <= Uses(s, p) { UsesItem(s.items, i, p); }
    forall b | Owns(s.items[i], b) ensures Owns(s, b) {}
    forall a | Needs(h, s.items[i], a) ensures Needs(h, s, a) {}
  }

  /** What is made of the same cells describes, and denotes, the same. */
  lemma {:induction false} RepKept(h: Heap, n: Heap, s: Shape)
    requires Rep(h, s) && Kept(h, n, s)
    ensures Rep(n, s) && Denotes(n, s) == Denotes(h, s)
    decreases s, 0
  {
    hide Kept, ArrayAt, RawAt, BundleAt, ElementBytes, DimsAt, Numeric, RepIn, DenotesIn, Cells;
    match s
    case Null =>
    case Flat(p) =>
      OwnKept(h, n, s);
      FlatKept(h, n, p);
    case Nest(p, items) =>
      OwnKept(h, n, s);
      NestKept(h, n, p, items);
      forall i: nat | i < |items| ensures Kept(h, n, items[i]) { KeptItem(h, n, s, i); }
      RepInKept(h, n, items);
    case Raw(p) =>
      OwnKept(h, n, s);
      RawKept(h, n, p);
    case Bundle(p) => BundleKept(h, n, p);
  }

  lemma {:induction false} RepInKept(h: Heap, n: Heap, items: seq<Shape>)
    requires RepIn(h, items) && forall i: nat | i < |items| :: Kept(h, n, items[i])
    ensures RepIn(n, items) && DenotesIn(n, items) == DenotesIn(h, items)
    decreases items, 1
  {
    hide Kept, Rep, Denotes;
    if items != [] {
      var last := |items| - 1;
      RepInKept(h, n, items[..last]);
      RepKept(h, n, items[last]);
      forall i: nat | i < |items| ensures Rep(n, items[i]) { if i < last { assert items[i] == items[..last][i]; } }
    }
  }

  lemma BundleKept(h: Heap, n: Heap, p: int)
    requires BundleAt(h, p) && Kept(h, n, Bundle(p))
    ensures BundleAt(n, p) && BaseOf(n, p) == BaseOf(h, p)
  {
    assert Uses(Bundle(p), p - 4 + 4) > 0 && Needs(h, Bundle(p), p - 4);
  }

  /** The cells of an object's own block. */
  lemma OwnKept(h: Heap, n: Heap, s: Shape)
    requires Rep(h, s) && Kept(h, n, s) && (s.Flat? || s.Nest? || s.Raw?)
    ensures var p := s.ptr;
            && SizeAt(n, p) == SizeAt(h, p) && TypeAt(n, p) == TypeAt(h, p) && ElementBytes(n, p) == ElementBytes(h, p)
            && (s.Raw? ==> RawAt(n, p))
            && (!s.Raw? ==> ArrayAt(n, p) && DataAt(n, p) == DataAt(h, p) && DimsAt(n, p) == DimsAt(h, p))
    ensures BlockKept(h, n, s.ptr - 8) && forall a | s.ptr <= a < s.ptr - 8 + h.blocks[s.ptr - 8] :: At(n, a) == At(h, a)
  {
    hide RepIn, Uses;
    var p := s.ptr;
    forall a | InBlock(h, p - 8, a) ensures At(n, a) == At(h, a) { assert Owns(s, p - 8) && Needs(h, s, a); }
    assert Owns(s, p - 8);
    hide Unit;
  }

  lemma CellsSame(h: Heap, n: Heap, a: int, k: nat)
    requires forall x | a <= x < a + k :: At(n, x) == At(h, x)
    ensures Cells(n, a, 1, k) == Cells(h, a, 1, k)
  {}

  lemma FlatKept(h: Heap, n: Heap, p: int)
    requires ArrayAt(h, p) && forall a | p <= a < p - 8 + h.blocks[p - 8] :: At(n, a) == At(h, a)
    ensures Cells(n, DataAt(h, p), 1, ElementBytes(h, p)) == Cells(h, DataAt(h, p), 1, ElementBytes(h, p))
  {
    hide Unit, Cells;
    assert MetaWords(TypeAt(h, p)) >= 4;
    CellsSame(h, n, DataAt(h, p), ElementBytes(h, p));
  }

  lemma NestKept(h: Heap, n: Heap, p: int, items: seq<Shape>)
    requires ArrayAt(h, p) && !Numeric(TypeAt(h, p)) && SizeAt(h, p) == |items|
    requires forall a | p <= a < p - 8 + h.blocks[p - 8] :: At(n, a) == At(h, a)
    ensures forall i: nat | i < |items| :: At(n, DataAt(h, p) + 4 * i) == At(h, DataAt(h, p) + 4 * i)
  {
    hide Unit;
    assert MetaWords(TypeAt(h, p)) >= 4;
    WordUnit(TypeAt(h, p));
  }

  lemma WordUnit(t: nat)
    requires !Numeric(t)
    ensures Unit(t) == 4
  {
    assert Pow2(2) == 2 * Pow2(1) && Pow2(1) == 2 * Pow2(0);
  }

  lemma RawKept(h: Heap, n: Heap, p: int)
    requires RawAt(h, p) && forall a | p <= a < p - 8 + h.blocks[p - 8] :: At(n, a) == At(h, a)
    ensures Cells(n, p, 1, SizeAt(h, p)) == Cells(h, p, 1, SizeAt(h, p))
  {
    CellsSame(h, n, p, SizeAt(h, p));
  }
}
