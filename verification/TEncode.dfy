/** TEncode with two-byte words: the writer and the reader (tools/tenctool/tenclib.py). */
module TEncode {
  type Byte = b: int | 0 <= b < 256
  type Bytes = seq<Byte>

  const WORD: nat := 0x1_0000

  /** The last character of a tag names the type of its element. */
  const TYPE_B: Byte := 66
  const TYPE_I: Byte := 73
  const TYPE_L: Byte := 76
  const TYPE_S: Byte := 83
  const TYPE_U: Byte := 85

  /** "tenc" */
  const HEADER: Bytes := [116, 101, 110, 99]

  datatype Element =
    | ByteString(tag: Bytes, bytes: Bytes)
    | Utf8String(tag: Bytes, bytes: Bytes)
    | List(tag: Bytes, elements: seq<Element>)
    | Unsigned(tag: Bytes, value: nat)
    | Signed(tag: Bytes, value: nat)

  datatype Error = BadHeader | BadElementType | Internal | IndexError

  /** What is left to read after an element or a list of elements, or why reading failed. */
  datatype Parsed<T> = Ok(value: T, pos: nat, rest: Bytes) | Fail(error: Error)

  // ---------------------------------------------------------------- integers

  function Digits(n: nat): Bytes { if n == 0 then [] else Digits(n / 256) + [n % 256] }

  function Zeros(n: int): Bytes { if n <= 0 then [] else [0] + Zeros(n - 1) }

  function IntBytes(n: nat): Bytes { Zeros(2 - |Digits(n)|) + Digits(n) }

  function BytesInt(b: Bytes): nat { if b == [] then 0 else BytesInt(b[..|b| - 1]) * 256 + b[|b| - 1] }

  /** int_to_bytes */
  method IntToBytes(n: nat) returns (b: Bytes)
    ensures b == IntBytes(n)
  {
    b := [];
    var m := n;
    while m > 0
      invariant Digits(n) == Digits(m) + b
    {
      assert Digits(m / 256) + [m % 256] + b == Digits(m / 256) + ([m % 256] + b);
      b := [m % 256] + b;
      m := m / 256;
    }
    var zeros := 2 - |b|;
    while zeros > 0
      invariant b == Zeros(2 - |Digits(n)| - if zeros > 0 then zeros else 0) + Digits(n)
      invariant zeros <= 2 - |Digits(n)|
    {
      b := [0] + b;
      zeros := zeros - 1;
    }
  }

  /** bytes_to_int */
  method BytesToInt(b: Bytes) returns (i: nat)
    ensures i == BytesInt(b)
  {
    i := 0;
    for k := 0 to |b|
      invariant i == BytesInt(b[..k])
    {
      assert b[..k + 1][..k] == b[..k];
      i := b[k] + i * 256;
    }
    assert b[..|b|] == b;
  }

  lemma {:induction false} DigitsInt(n: nat)
    ensures BytesInt(Digits(n)) == n
  {
    if n > 0 {
      DigitsInt(n / 256);
      assert Digits(n)[..|Digits(n)| - 1] == Digits(n / 256);
    }
  }

  /** n needs no more than k digits exactly when it is below 256 to the power k. */
  lemma DigitsSize(n: nat)
    ensures |Digits(n)| <= 1 <==> n < 256
    ensures |Digits(n)| <= 2 <==> n < WORD
    ensures |Digits(n)| <= 3 <==> n < 256 * WORD
  {
    var a, b := n / 256, n / 256 / 256;
    assert n > 0 ==> |Digits(n)| == 1 + |Digits(a)|;
    assert a > 0 ==> |Digits(a)| == 1 + |Digits(b)|;
    assert b > 0 ==> |Digits(b)| == 1 + |Digits(b / 256)|;
    assert b / 256 > 0 ==> |Digits(b / 256)| >= 1;
  }

  /** An integer is read back as it was written; two bytes hold it exactly when it fits a word. */
  lemma {:induction false} IntegerRoundTrip(n: nat)
    ensures BytesInt(IntBytes(n)) == n && |IntBytes(n)| >= 2
    ensures |IntBytes(n)| == 2 <==> n < WORD
  {
    DigitsInt(n);
    DigitsSize(n);
    var d := Digits(n);
    if |d| == 0 {
      assert IntBytes(n) == [0, 0];
      assert [0, 0][..1] == [0] && BytesInt([0]) == 0;
    } else if |d| == 1 {
      assert Zeros(1) == [0] && IntBytes(n) == [0] + d;
      assert ([0] + d)[..1] == [0] && BytesInt([0]) == 0 && d[..0] == [];
    } else {
      assert IntBytes(n) == d;
    }
  }

  /** The high byte comes first. */
  lemma BigEndian(n: nat)
    requires n < WORD
    ensures IntBytes(n) == [n / 256, n % 256] && BytesInt([n / 256, n % 256]) == n
  {
    IntegerRoundTrip(n);
    var a := n / 256;
    assert Digits(n) == if n == 0 then [] else Digits(a) + [n % 256];
    assert Digits(a) == if a == 0 then [] else Digits(a / 256) + [a % 256];
    assert Zeros(1) == [0] && Zeros(2) == [0, 0];
  }

  /** What a reader of two bytes makes of an integer that needs more is much too small. */
  lemma {:induction false} WideInteger(n: nat)
    requires n >= WORD
    ensures |IntBytes(n)| > 2 && BytesInt(IntBytes(n)[..2]) <= n / 256
  {
    DigitsSize(n);
    assert IntBytes(n) == Digits(n);
    DigitsInt(n / 256);
    var d := Digits(n / 256);
    assert Digits(n)[..2] == d[..2];
    PrefixLess(d, 2);
  }

  lemma {:induction false} PrefixLess(b: Bytes, k: nat)
    requires k <= |b|
    ensures BytesInt(b[..k]) <= BytesInt(b)
  {
    if k == |b| {
      assert b[..k] == b;
    } else {
      PrefixLess(b[..|b| - 1], k);
      assert b[..|b| - 1][..k] == b[..k];
    }
  }

  lemma TwoBytes(b: Bytes)
    requires |b| <= 2
    ensures BytesInt(b) < WORD
  {
    if |b| == 1 {
      assert b[..0] == [];
    } else if |b| == 2 {
      assert b[..1][..0] == [] && BytesInt(b[..1]) == b[0];
    }
  }

  // ---------------------------------------------------------------- the writer

  function Padding(n: nat): Bytes { Zeros(n % 2) }

  /** What bytes() makes of an element; the class of signed integers has no such method. */
  function Encode(e: Element): Bytes {
    match e
    case ByteString(tag, bytes) => tag + IntBytes(|bytes|) + bytes + Padding(|bytes|)
    case Utf8String(tag, bytes) => tag + IntBytes(|bytes|) + bytes + Padding(|bytes|)
    case List(tag, elements) => tag + IntBytes(|EncodeAll(elements)|) + EncodeAll(elements)
    case Unsigned(tag, value) => tag + IntBytes(value)
    case Signed(tag, value) => []
  }

  function EncodeAll(es: seq<Element>): Bytes {
    if es == [] then [] else Encode(es[0]) + EncodeAll(es[1..])
  }

  /** dump_bytes */
  function Dump(es: seq<Element>): Bytes { HEADER + IntBytes(|EncodeAll(es)|) + EncodeAll(es) }

  lemma {:induction false} EncodeAppend(es: seq<Element>, e: Element)
    ensures EncodeAll(es + [e]) == EncodeAll(es) + Encode(e)
  {
    hide Encode;
    if es == [] {
      assert [e][1..] == [];
    } else {
      assert (es + [e])[1..] == es[1..] + [e];
      EncodeAppend(es[1..], e);
    }
  }

  /** The loop of dump_bytes and of a list's bytes(). */
  method WriteAll(es: seq<Element>) returns (bytes: Bytes)
    ensures bytes == EncodeAll(es)
  {
    hide Encode;
    bytes := [];
    for k := 0 to |es|
      invariant bytes == EncodeAll(es[..k])
    {
      assert es[..k + 1] == es[..k] + [es[k]];
      EncodeAppend(es[..k], es[k]);
      bytes := bytes + Encode(es[k]);
    }
    assert es[..|es|] == es;
  }

  // ---------------------------------------------------------------- the reader

  /** Slices, which stop at the end of the data. */
  function Take(d: Bytes, n: nat): Bytes { if n <= |d| then d[..n] else d }

  function Drop(d: Bytes, n: nat): Bytes { if n <= |d| then d[n..] else [] }

  function TagOf(data: Bytes): Bytes { Take(data, 4) }

  function SizeOf(data: Bytes): nat { BytesInt(Take(Drop(data, 4), 2)) }

  function BodyOf(data: Bytes): Bytes { Drop(Drop(data, 4), 2) }

  /** A tag, a length, that many bytes, and padding up to an even position. */
  function ParseString(pos: nat, data: Bytes): (r: (Bytes, nat, Bytes)) {
    var n := SizeOf(data);
    var end := pos + 6 + n;
    (Take(BodyOf(data), n), end + end % 2, Drop(Drop(BodyOf(data), n), end % 2))
  }

  function ParseElement(pos: nat, data: Bytes): (r: Parsed<Element>)
    ensures r.Ok? ==> |r.rest| < |data|
    decreases |data|, 0
  {
    if |data| < 3 then Fail(Internal)
    else if |data| == 3 then Fail(IndexError)
    else if data[3] == TYPE_B then
      var s := ParseString(pos, data);
      Ok(ByteString(TagOf(data), s.0), s.1, s.2)
    else if data[3] == TYPE_S then
      var s := ParseString(pos, data);
      Ok(Utf8String(TagOf(data), s.0), s.1, s.2)
    else if data[3] == TYPE_L then
      (match ParseAll(pos + 6, Take(BodyOf(data), SizeOf(data)))
       case Ok(es, end, _) => Ok(List(TagOf(data), es), end, Drop(BodyOf(data), SizeOf(data)))
       case Fail(error) => Fail(error))
    else if data[3] == TYPE_U then Ok(Unsigned(TagOf(data), SizeOf(data)), pos + 6, BodyOf(data))
    else if data[3] == TYPE_I then Ok(Signed(TagOf(data), SizeOf(data)), pos + 6, BodyOf(data))
    else Fail(BadElementType)
  }

  function ParseAll(pos: nat, data: Bytes): (r: Parsed<seq<Element>>)
    ensures r.Ok? ==> r.rest == []
    decreases |data|, 1
  {
    if data == [] then Ok([], pos, [])
    else
      match ParseElement(pos, data)
      case Fail(error) => Fail(error)
      case Ok(e, after, rest) =>
        match ParseAll(after, rest)
        case Fail(error) => Fail(error)
        case Ok(es, end, _) => Ok([e] + es, end, [])
  }

  /** Why reading an element fails, lists apart: fewer than three bytes, exactly three, or a
      last character of the tag that names no type. */
  lemma ElementFails(pos: nat, data: Bytes)
    requires |data| < 4 || data[3] != 76
    ensures ParseElement(pos, data) == Fail(Internal) <==> |data| < 3
    ensures ParseElement(pos, data) == Fail(IndexError) <==> |data| == 3
    ensures ParseElement(pos, data) == Fail(BadElementType) <==> |data| >= 4 && data[3] !in {66, 73, 83, 85}
  {}

  /** parse, for the header of two-byte words; the size in the header is not used. */
  function Parse(data: Bytes): Parsed<seq<Element>> {
    if Take(data, 4) == HEADER then ParseAll(6, Drop(data, 6)) else Fail(BadHeader)
  }

  /** The loop of parse and of parse_list_element. */
  method ReadAll(start: nat, input: Bytes) returns (r: Parsed<seq<Element>>)
    ensures r == ParseAll(start, input)
  {
    hide ParseElement;
    var pos, data, es := start, input, [];
    JoinsNone(ParseAll(start, input));
    while data != []
      invariant Joins(es, ParseAll(pos, data), ParseAll(start, input))
      decreases |data|
    {
      match ParseElement(pos, data) {
        case Fail(error) => return Fail(error);
        case Ok(e, after, rest) =>
          JoinsMore(es, e, ParseAll(after, rest));
          pos, data, es := after, rest, es + [e];
      }
    }
    assert es + [] == es;
    return Ok(es, pos, []);
  }

  /** Reading the remaining elements behind es gives all of them. */
  ghost predicate Joins(es: seq<Element>, more: Parsed<seq<Element>>, all: Parsed<seq<Element>>) {
    match more
    case Fail(error) => all == Fail(error)
    case Ok(rest, pos, _) => all == Ok(es + rest, pos, [])
  }

  lemma JoinsNone(all: Parsed<seq<Element>>)
    requires all.Ok? ==> all.rest == []
    ensures Joins([], all, all)
  {
    if all.Ok? { assert [] + all.value == all.value; }
  }

  lemma JoinsMore(es: seq<Element>, e: Element, more: Parsed<seq<Element>>)
    ensures more.Ok? ==> es + ([e] + more.value) == es + [e] + more.value
  {}

  // ---------------------------------------------------------------- round trips

  /** Tags have four characters, the last one naming the type. */
  ghost predicate Tagged(e: Element) {
    && |e.tag| == 4
    && match e
       case ByteString(tag, _) => tag[3] == TYPE_B
       case Utf8String(tag, _) => tag[3] == TYPE_S
       case List(tag, es) => tag[3] == TYPE_L && TaggedAll(es)
       case Unsigned(tag, _) => tag[3] == TYPE_U
       case Signed(_, _) => false
  }

  ghost predicate TaggedAll(es: seq<Element>) { forall i: nat | i < |es| :: Tagged(es[i]) }

  /** Every number and every length fits a word. */
  ghost predicate Fits(e: Element) {
    match e
    case ByteString(_, bytes) => |bytes| < WORD
    case Utf8String(_, bytes) => |bytes| < WORD
    case List(_, es) => |EncodeAll(es)| < WORD && FitsAll(es)
    case Unsigned(_, value) => value < WORD
    case Signed(_, value) => value < WORD
  }

  ghost predicate FitsAll(es: seq<Element>) { forall i: nat | i < |es| :: Fits(es[i]) }

  /** The parts of an element as the reader takes them apart. */
  lemma Parts(tag: Bytes, size: Bytes, body: Bytes)
    requires |tag| == 4 && |size| == 2
    ensures var d := tag + size + body;
            TagOf(d) == tag && SizeOf(d) == BytesInt(size) && BodyOf(d) == body && |d| >= 6 && d[3] == tag[3]
  {
    var d := tag + size + body;
    assert Drop(d, 4) == size + body;
    assert Take(Drop(d, 4), 2) == size;
  }

  lemma {:induction false} StringRoundTrip(tag: Bytes, bytes: Bytes, pos: nat, tail: Bytes)
    requires |tag| == 4 && |bytes| < WORD && pos % 2 == 0
    ensures var code := tag + IntBytes(|bytes|) + bytes + Padding(|bytes|);
            && ParseString(pos, code + tail) == (bytes, pos + |code|, tail) && |code| % 2 == 0
            && TagOf(code + tail) == tag && |code + tail| >= 6 && (code + tail)[3] == tag[3]
  {
    var n := |bytes|;
    var pad := Padding(n);
    IntegerRoundTrip(n);
    assert |pad| == n % 2 by { if n % 2 == 1 { assert pad == [0]; } }
    var body := bytes + pad + tail;
    assert tag + IntBytes(n) + bytes + pad + tail == tag + IntBytes(n) + body;
    Parts(tag, IntBytes(n), body);
    assert Take(body, n) == bytes && Drop(body, n) == pad + tail && Drop(pad + tail, |pad|) == tail;
    assert (pos + 6 + n) % 2 == n % 2;
  }

  /** Reading what was written for an element gives the element back, and nothing of what follows. */
  lemma {:induction false} ElementRoundTrip(e: Element, pos: nat, tail: Bytes)
    requires Tagged(e) && Fits(e) && pos % 2 == 0
    ensures ParseElement(pos, Encode(e) + tail) == Ok(e, pos + |Encode(e)|, tail) && |Encode(e)| % 2 == 0
    decreases e, 0
  {
    hide ParseString, ParseAll, IntBytes, BytesInt, TagOf, SizeOf, BodyOf, Padding;
    match e
    case ByteString(tag, bytes) => StringRoundTrip(tag, bytes, pos, tail);
    case Utf8String(tag, bytes) => StringRoundTrip(tag, bytes, pos, tail);
    case Unsigned(tag, value) =>
      IntegerRoundTrip(value);
      Parts(tag, IntBytes(value), tail);
    case List(tag, es) =>
      var code := EncodeAll(es);
      IntegerRoundTrip(|code|);
      assert Encode(e) + tail == tag + IntBytes(|code|) + (code + tail);
      Parts(tag, IntBytes(|code|), code + tail);
      assert Take(code + tail, |code|) == code && Drop(code + tail, |code|) == tail;
      AllRoundTrip(es, pos + 6);
    case Signed(_, _) =>
  }

  lemma {:induction false} AllRoundTrip(es: seq<Element>, pos: nat)
    requires TaggedAll(es) && FitsAll(es) && pos % 2 == 0
    ensures ParseAll(pos, EncodeAll(es)) == Ok(es, pos + |EncodeAll(es)|, []) && |EncodeAll(es)| % 2 == 0
    decreases es, 1
  {
    hide ParseElement, Encode, Tagged, Fits;
    if es != [] {
      ElementRoundTrip(es[0], pos, EncodeAll(es[1..]));
      AllRoundTrip(es[1..], pos + |Encode(es[0])|);
      NonEmpty(es[0], pos, EncodeAll(es[1..]));
      assert [es[0]] + es[1..] == es;
    }
  }

  lemma NonEmpty(e: Element, pos: nat, tail: Bytes)
    requires ParseElement(pos, Encode(e) + tail).Ok?
    ensures Encode(e) + tail != []
  {
    hide Encode;
  }

  // ---------------------------------------------------------------- exactness

  /** An element read takes no more bytes than writing it would, and at least half as many. */
  lemma {:induction false} ConsumedElement(pos: nat, data: Bytes)
    requires pos % 2 == 0 && ParseElement(pos, data).Ok? && Tagged(ParseElement(pos, data).value)
    ensures var r := ParseElement(pos, data);
            r.pos % 2 == 0 && |data| - |r.rest| <= |Encode(r.value)| <= 2 * (|data| - |r.rest|)
    decreases |data|, 0
  {
    hide ParseAll, IntBytes, BytesInt, SizeOf, Padding, ParseString, EncodeAll;
    var r := ParseElement(pos, data);
    match r.value
    case ByteString(_, bytes) => ConsumedString(pos, data);
    case Utf8String(_, bytes) => ConsumedString(pos, data);
    case List(_, es) =>
      TwoBytes(Take(Drop(data, 4), 2));
      assert SizeOf(data) < WORD by { SizeOfIs(data); }
      ConsumedAll(pos + 6, Take(BodyOf(data), SizeOf(data)));
      IntegerSize(|EncodeAll(es)|);
    case Unsigned(_, value) =>
      SizeOfIs(data);
      IntegerSize(value);
    case Signed(_, _) =>
  }

  lemma SizeOfIs(data: Bytes)
    ensures SizeOf(data) < WORD
  {
    hide BytesInt;
    TwoBytes(Take(Drop(data, 4), 2));
  }

  lemma IntegerSize(n: nat)
    ensures |IntBytes(n)| >= 2 && (n < WORD ==> |IntBytes(n)| == 2) && (n < 256 * WORD ==> |IntBytes(n)| <= 3)
  {
    IntegerRoundTrip(n);
    DigitsSize(n);
    if |Digits(n)| >= 2 { assert IntBytes(n) == Digits(n); }
  }

  lemma PaddingSize(n: nat)
    ensures |Padding(n)| == n % 2
  {
    if n % 2 == 1 { assert Padding(n) == [0]; }
  }

  lemma ConsumedString(pos: nat, data: Bytes)
    requires pos % 2 == 0 && |data| >= 4
    ensures var s := ParseString(pos, data); var code := 4 + |IntBytes(|s.0|)| + |s.0| + |Padding(|s.0|)|;
            s.1 % 2 == 0 && |data| - |s.2| <= code <= 2 * (|data| - |s.2|)
  {
    hide IntBytes, SizeOf, Padding;
    var n, bytes := SizeOf(data), ParseString(pos, data).0;
    SizeOfIs(data);
    IntegerSize(|bytes|);
    PaddingSize(|bytes|);
    assert (pos + 6 + n) % 2 == n % 2;
  }

  lemma {:induction false} ConsumedAll(pos: nat, data: Bytes)
    requires pos % 2 == 0 && ParseAll(pos, data).Ok? && TaggedAll(ParseAll(pos, data).value)
    ensures var r := ParseAll(pos, data); r.pos % 2 == 0 && |data| <= |EncodeAll(r.value)| <= 2 * |data|
    decreases |data|, 1
  {
    hide ParseElement, Encode, Tagged;
    if data != [] {
      var r := ParseElement(pos, data);
      var es := ParseAll(pos, data).value;
      assert es[0] == r.value && es[1..] == ParseAll(r.pos, r.rest).value;
      ConsumedElement(pos, data);
      ConsumedAll(r.pos, r.rest);
    }
  }

  /** Only an element that fits is read back as it was. */
  lemma {:induction false} ElementFits(e: Element, pos: nat, tail: Bytes)
    requires Tagged(e) && pos % 2 == 0
    requires ParseElement(pos, Encode(e) + tail).Ok? && ParseElement(pos, Encode(e) + tail).value == e
    ensures Fits(e)
    decreases e, 0
  {
    hide ParseAll, IntBytes, BytesInt, Padding, TagOf, SizeOf, BodyOf, EncodeAll;
    var data := Encode(e) + tail;
    match e
    case ByteString(tag, bytes) =>
      assert data == tag + IntBytes(|bytes|) + (bytes + Padding(|bytes|) + tail);
      LengthFits(tag, |bytes|, bytes + Padding(|bytes|) + tail, data);
    case Utf8String(tag, bytes) =>
      assert data == tag + IntBytes(|bytes|) + (bytes + Padding(|bytes|) + tail);
      LengthFits(tag, |bytes|, bytes + Padding(|bytes|) + tail, data);
    case Unsigned(tag, value) => LengthFits(tag, value, tail, data);
    case List(tag, es) => ListFits(tag, es, pos, tail);
    case Signed(_, _) =>
  }

  /** A size or number too big for a word is read as something much smaller. */
  lemma LengthFits(tag: Bytes, n: nat, body: Bytes, data: Bytes)
    requires |tag| == 4 && data == tag + IntBytes(n) + body
    ensures n < WORD ==> SizeOf(data) == n && BodyOf(data) == body
    ensures n >= WORD ==> SizeOf(data) <= n / 256
  {
    hide IntBytes, BytesInt;
    IntegerRoundTrip(n);
    var size := IntBytes(n);
    if n < WORD {
      Parts(tag, size, body);
    } else {
      WideInteger(n);
      assert data == tag + size[..2] + (size[2..] + body);
      Parts(tag, size[..2], size[2..] + body);
    }
  }

  lemma {:induction false} ListFits(tag: Bytes, es: seq<Element>, pos: nat, tail: Bytes)
    requires Tagged(List(tag, es)) && pos % 2 == 0
    requires var r := ParseElement(pos, Encode(List(tag, es)) + tail); r.Ok? && r.value == List(tag, es)
    ensures Fits(List(tag, es))
    decreases es, 2
  {
    hide ParseAll, IntBytes, BytesInt, TagOf, SizeOf, BodyOf;
    var data, code := Encode(List(tag, es)) + tail, EncodeAll(es);
    assert data == tag + IntBytes(|code|) + (code + tail);
    LengthFits(tag, |code|, code + tail, data);
    var inner := Take(BodyOf(data), SizeOf(data));
    assert ParseAll(pos + 6, inner).Ok? && ParseAll(pos + 6, inner).value == es;
    if |code| >= WORD {
      ConsumedAll(pos + 6, inner);
    } else {
      assert Take(code + tail, |code|) == code;
      AllFits(es, pos + 6);
    }
  }

  lemma {:induction false} AllFits(es: seq<Element>, pos: nat)
    requires TaggedAll(es) && pos % 2 == 0
    requires ParseAll(pos, EncodeAll(es)).Ok? && ParseAll(pos, EncodeAll(es)).value == es
    ensures FitsAll(es)
    decreases es, 1
  {
    hide ParseElement, Encode, Tagged, Fits;
    if es != [] {
      var tail := EncodeAll(es[1..]);
      var r := ParseElement(pos, Encode(es[0]) + tail);
      assert EncodeAll(es) != [];
      assert r.value == es[0] && ParseAll(r.pos, r.rest).value == es[1..];
      ElementFits(es[0], pos, tail);
      ElementRoundTrip(es[0], pos, tail);
      AllFits(es[1..], pos + |Encode(es[0])|);
      forall i: nat | i < |es| ensures Fits(es[i]) { if i > 0 { assert es[i] == es[1..][i - 1]; } }
    }
  }

  /** Reading the bytes written for a tree returns that tree exactly when all of its numbers
      and lengths fit a word. */
  lemma RoundTrip(es: seq<Element>)
    requires TaggedAll(es)
    ensures (Parse(Dump(es)).Ok? && Parse(Dump(es)).value == es) <==> FitsAll(es) && |EncodeAll(es)| < WORD
  {
    hide ParseAll, IntBytes, BytesInt, Encode, EncodeAll, Tagged, Fits;
    var code := EncodeAll(es);
    var size := IntBytes(|code|);
    IntegerRoundTrip(|code|);
    assert Take(Dump(es), 4) == HEADER;
    if |code| < WORD {
      assert Drop(Dump(es), 6) == code;
      if FitsAll(es) { AllRoundTrip(es, 6); }
      if ParseAll(6, code).Ok? && ParseAll(6, code).value == es { AllFits(es, 6); }
    } else {
      WideInteger(|code|);
      assert Drop(Dump(es), 6) == size[2..] + code;
      if Parse(Dump(es)).Ok? && Parse(Dump(es)).value == es { ConsumedAll(6, size[2..] + code); }
    }
  }
}

/** The walker over TEncode bytes, with two-byte words (runtime/libtvm/tencode.c). */
module TEncodeWalk {
  import opened TEncode

  /** data.u_int or data.bytes, the latter as an offset. */
  datatype Content = Number(value: nat) | At(offset: nat)

  /** A length is an unsigned int of 32 bits. */
  type UInt = x: int | 0 <= x < 0x1_0000_0000

  const UINT: int := 0x1_0000_0000

  /** *length and the element filled in. */
  datatype Cursor = Cursor(length: UInt, id: Bytes, size: nat, data: Content, next: nat)

  function Aligned(n: nat): nat { n + n % 2 }

  /** Unsigned subtraction. */
  function Minus(a: UInt, b: UInt): UInt { if b <= a then a - b else a - b + UINT }

  predicate IsNumber(id: Bytes)
    requires |id| == 4
  {
    id[3] == TYPE_I || id[3] == TYPE_U
  }

  /** An element with contents of odd length, which end with the data: their padding does not. */
  predicate Unpadded(src: Bytes, at: nat, c: Cursor)
    requires at + c.length <= |src|
  {
    && c.length >= 6 && !IsNumber(src[at..at + 4])
    && BytesInt(src[at + 4..at + 6]) == c.length - 6 && c.length % 2 == 1
  }

  /** tenc_decode_element: 0 and the element, or -1. It passes the end of the data, and the
      length wraps round, exactly at an unpadded element; otherwise the element and what is
      left make up what there was. */
  function Decode(src: Bytes, at: nat, c: Cursor): (r: (int, Cursor))
    requires at + c.length <= |src|
    ensures r.0 == 0 ==> (r.1.next > at + c.length <==> Unpadded(src, at, c))
    ensures Unpadded(src, at, c) ==> r.0 == 0 && r.1.length == UINT - 1 && r.1.next == at + c.length + 1
    ensures r.0 == 0 && !Unpadded(src, at, c) ==> r.1.length < c.length && r.1.next + r.1.length == at + c.length
    ensures c.length % 2 == 0 ==> r.1.length % 2 == 0
    ensures r.0 == 0 || r.0 == -1
  {
    if c.length < 6 then (-1, c)
    else
      var id, n := src[at..at + 4], BytesInt(src[at + 4..at + 6]);
      var left := c.length - 6;
      if IsNumber(id) then (0, Cursor(left, id, 0, Number(n), at + 6))
      else if left < n then (-1, Cursor(left, id, n, c.data, at + 6))
      else (0, Cursor(Minus(left, Aligned(n)), id, n, At(at + 6), at + 6 + Aligned(n)))
  }

  /** The walk does not run over the end of the data: no unpadded element comes before the one
      it looks for. */
  predicate StaysInside(src: Bytes, at: nat, c: Cursor, id: Bytes)
    requires at + c.length <= |src|
    decreases c.length
  {
    c.length == 0
    || var (ret, d) := Decode(src, at, c);
       ret < 0 || d.id == id || (!Unpadded(src, at, c) && StaysInside(src, d.next, d, id))
  }

  /** It never does with an even number of bytes. */
  lemma {:induction false} EvenInside(src: Bytes, at: nat, c: Cursor, id: Bytes)
    requires at + c.length <= |src| && c.length % 2 == 0
    ensures StaysInside(src, at, c, id)
    decreases c.length
  {
    hide Decode;
    if c.length > 0 {
      var (ret, d) := Decode(src, at, c);
      if ret >= 0 { EvenInside(src, d.next, d, id); }
    }
  }

  /** tenc_walk_to_element */
  function Walk(src: Bytes, at: nat, c: Cursor, id: Bytes): (r: (int, Cursor))
    requires at + c.length <= |src| && StaysInside(src, at, c, id)
    decreases c.length
  {
    if c.length == 0 then (-1, c)
    else
      var (ret, d) := Decode(src, at, c);
      if ret < 0 || d.id == id then (ret, d) else Walk(src, d.next, d, id)
  }

  class Walker {
    const src: Bytes
    var length: UInt
    var id: Bytes
    var size: nat
    var data: Content
    var next: nat

    function V(): Cursor
      reads this
    {
      Cursor(length, id, size, data, next)
    }

    constructor (src: Bytes)
      requires |src| < UINT
      ensures this.src == src && length == |src|
    {
      this.src := src;
      length, id, size, data, next := |src|, [], 0, Number(0), 0;
    }

    /** tenc_decode_element */
    method DecodeElement(at: nat) returns (ret: int)
      requires at + length <= |src|
      modifies this
      ensures (ret, V()) == Decode(src, at, old(V()))
    {
      if length < 6 { return -1; }
      id := src[at..at + 4];
      size := BytesInt(src[at + 4..at + 6]);
      next := at + 6;
      length := length - 6;
      if id[3] == TYPE_I || id[3] == TYPE_U {
        data := Number(size);
        size := 0;
        return 0;
      } else if length < size {
        return -1;
      } else {
        var bytes := size;
        if bytes % 2 != 0 { bytes := bytes + (2 - bytes % 2); }
        data := At(next);
        next := next + bytes;
        length := Minus(length, bytes);
        return 0;
      }
    }

    /** tenc_walk_to_element */
    method WalkToElement(start: nat, wanted: Bytes) returns (ret: int)
      requires start + length <= |src| && StaysInside(src, start, V(), wanted)
      modifies this
      ensures (ret, V()) == Walk(src, start, old(V()), wanted)
    {
      hide Decode;
      var at := start;
      while length > 0
        invariant 0 <= at && at + length <= |src| && StaysInside(src, at, V(), wanted)
        invariant Walk(src, at, V(), wanted) == Walk(src, start, old(V()), wanted)
        decreases length
      {
        ret := DecodeElement(at);
        if ret < 0 { return; }
        if id == wanted { return 0; }
        at := next;
      }
      return -1;
    }
  }

  // ---------------------------------------------------------------- walking what was written

  function ContentsSize(e: Element): nat {
    match e
    case ByteString(_, bytes) => |bytes|
    case Utf8String(_, bytes) => |bytes|
    case List(_, es) => |EncodeAll(es)|
    case Unsigned(_, _) => 0
    case Signed(_, _) => 0
  }

  /** The cursor describes e: its tag, and its value or where its contents are. */
  ghost predicate Describes(src: Bytes, c: Cursor, e: Element) {
    && c.id == e.tag && c.size == ContentsSize(e)
    && match e
       case ByteString(_, bytes) => c.data.At? && Found(src, c.data.offset, bytes)
       case Utf8String(_, bytes) => c.data.At? && Found(src, c.data.offset, bytes)
       case List(_, es) => c.data.At? && Found(src, c.data.offset, EncodeAll(es))
       case Unsigned(_, value) => c.data == Number(value)
       case Signed(_, value) => c.data == Number(value)
  }

  ghost predicate Found(src: Bytes, at: nat, b: Bytes) { at + |b| <= |src| && src[at..at + |b|] == b }

  /** Decoding at an element that was written describes it, and moves just past it. */
  lemma DecodesElement(src: Bytes, at: nat, c: Cursor, e: Element, tail: Bytes)
    requires Tagged(e) && Fits(e) && Found(src, at, Encode(e) + tail) && c.length == |Encode(e)| + |tail|
    ensures at + c.length <= |src|
    ensures var (ret, d) := Decode(src, at, c);
            ret == 0 && Describes(src, d, e) && d.next == at + |Encode(e)| && d.length == |tail|
  {
    hide IntBytes, BytesInt, Padding, EncodeAll, Found, Decode;
    match e
    case ByteString(tag, bytes) =>
      PaddingSize(|bytes|);
      assert Encode(e) + tail == tag + IntBytes(|bytes|) + (bytes + (Padding(|bytes|) + tail));
      DecodesSized(src, at, c, tag, bytes, Padding(|bytes|), tail);
    case Utf8String(tag, bytes) =>
      PaddingSize(|bytes|);
      assert Encode(e) + tail == tag + IntBytes(|bytes|) + (bytes + (Padding(|bytes|) + tail));
      DecodesSized(src, at, c, tag, bytes, Padding(|bytes|), tail);
    case List(tag, es) =>
      AllRoundTrip(es, 0);
      assert Encode(e) + tail == tag + IntBytes(|EncodeAll(es)|) + (EncodeAll(es) + ([] + tail));
      DecodesSized(src, at, c, tag, EncodeAll(es), [], tail);
    case Unsigned(tag, value) =>
      assert Encode(e) + tail == tag + IntBytes(value) + ([] + tail);
      DecodesNumber(src, at, c, tag, value, tail);
    case Signed(_, _) =>
  }

  lemma DecodesSized(src: Bytes, at: nat, c: Cursor, tag: Bytes, contents: Bytes, pad: Bytes, tail: Bytes)
    requires |tag| == 4 && tag[3] != TYPE_I && tag[3] != TYPE_U && |contents| < WORD && |pad| == |contents| % 2
    requires var code := tag + IntBytes(|contents|) + (contents + (pad + tail)); Found(src, at, code) && c.length == |code|
    ensures |IntBytes(|contents|)| == 2 && Found(src, at + 6, contents) && at + c.length <= |src|
    ensures Decode(src, at, c) == (0, Cursor(|tail|, tag, |contents|, At(at + 6), at + 6 + |contents| + |pad|))
  {
    hide IntBytes, BytesInt;
    IntegerSize(|contents|);
    Sized(src, at, tag, |contents|, contents, pad + tail);
  }

  lemma DecodesNumber(src: Bytes, at: nat, c: Cursor, tag: Bytes, value: nat, tail: Bytes)
    requires |tag| == 4 && tag[3] == TYPE_U && value < WORD
    requires var code := tag + IntBytes(value) + ([] + tail); Found(src, at, code) && c.length == |code|
    ensures |IntBytes(value)| == 2 && at + c.length <= |src|
    ensures Decode(src, at, c) == (0, Cursor(|tail|, tag, 0, Number(value), at + 6))
  {
    hide IntBytes, BytesInt;
    IntegerSize(value);
    Sized(src, at, tag, value, [], tail);
  }

  /** A tag, a number and contents, found in the source. */
  lemma Sized(src: Bytes, at: nat, tag: Bytes, n: nat, contents: Bytes, tail: Bytes)
    requires |tag| == 4 && n < WORD && Found(src, at, tag + IntBytes(n) + (contents + tail))
    ensures at + 6 <= |src| && src[at..at + 4] == tag && BytesInt(src[at + 4..at + 6]) == n && Found(src, at + 6, contents)
  {
    hide IntBytes, BytesInt;
    IntegerRoundTrip(n);
    var size := IntBytes(n);
    var all := tag + size + (contents + tail);
    var part := src[at..at + |all|];
    assert part[..4] == tag && part[4..6] == size && part[6..6 + |contents|] == contents;
    assert src[at..at + 4] == part[..4] && src[at + 4..at + 6] == part[4..6];
    assert src[at + 6..at + 6 + |contents|] == part[6..6 + |contents|];
  }

  /** The walker stops at the first of the written elements with the tag, describes it, and
      leaves exactly the elements behind it; without such an element it reports failure. */
  lemma {:induction false} WalkFinds(src: Bytes, at: nat, c: Cursor, es: seq<Element>, id: Bytes, i: nat)
    requires TaggedAll(es) && FitsAll(es) && Found(src, at, EncodeAll(es)) && c.length == |EncodeAll(es)|
    requires i <= |es| && (forall j: nat | j < i :: es[j].tag != id) && (i < |es| ==> es[i].tag == id)
    ensures StaysInside(src, at, c, id)
    ensures var (ret, d) := Walk(src, at, c, id);
            && (i == |es| ==> ret == -1)
            && (i < |es| ==> ret == 0 && Describes(src, d, es[i]) && Found(src, d.next, EncodeAll(es[i + 1..]))
                             && d.length == |EncodeAll(es[i + 1..])|)
    decreases |es|
  {
    hide Decode, Encode, Tagged, Fits;
    if es != [] {
      var tail := EncodeAll(es[1..]);
      ElementRoundTrip(es[0], 0, tail);
      DecodesElement(src, at, c, es[0], tail);
      NonEmpty(es[0], 0, tail);
      var (ret, d) := Decode(src, at, c);
      assert src[d.next..d.next + |tail|] == (Encode(es[0]) + tail)[|Encode(es[0])|..] == tail;
      if i > 0 {
        if i < |es| { assert es[1..][i..] == es[i + 1..]; }
        AllRoundTrip(es[1..], 0);
        WalkFinds(src, d.next, d, es[1..], id, i - 1);
      }
    }
  }
}
