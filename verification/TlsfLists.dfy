/** The segregated free lists: doubly linked through the first two payload words of free
    blocks, one list per size class (runtime/libtvm/tlsf.c:234-276). */
module TlsfLists {
  import opened Words
  import opened TlsfIndex

  function LinkPrev(a: int): int { a + 8 }
  function LinkNext(a: int): int { a + 12 }

  function HeadOf(s: seq<int>): int { if s == [] then 0 else s[0] }
  function PrevIn(s: seq<int>, i: nat): int
    requires i < |s|
  {
    if i == 0 then 0 else s[i - 1]
  }
  function NextIn(s: seq<int>, i: nat): int
    requires i < |s|
  {
    if i + 1 < |s| then s[i + 1] else 0
  }

  ghost predicate NodeOk(mem: Mem, s: seq<int>, i: nat)
    requires i < |s|
  {
    s[i] > 0 && Rd(mem, LinkPrev(s[i])) == PrevIn(s, i) && Rd(mem, LinkNext(s[i])) == NextIn(s, i)
  }

  /** head is the first node of the doubly linked list s. */
  ghost predicate ListAt(mem: Mem, head: int, s: seq<int>) {
    head == HeadOf(s) && forall i: nat | i < |s| :: NodeOk(mem, s, i)
  }

  type Lists = seq<seq<int>>

  /** No address occurs twice, within a list or across lists. */
  ghost predicate Distinct(lists: Lists) {
    forall c: nat, d: nat, i: nat, j: nat |
      c < |lists| && d < |lists| && i < |lists[c]| && j < |lists[d]| && lists[c][i] == lists[d][j] :: c == d && i == j
  }

  ghost predicate ListsOk(mem: Mem, matrix: seq<int>, lists: Lists) {
    && |matrix| == |lists| == CLASSES
    && forall c: nat | c < CLASSES :: ListAt(mem, matrix[c], lists[c])
  }

  /** Header-sized extents of distinct nodes do not overlap. */
  ghost predicate Spaced(nodes: set<int>) {
    forall a, b | a in nodes && b in nodes && a < b :: a + 16 <= b
  }

  ghost predicate NodesIn(lists: Lists, nodes: set<int>) {
    forall c: nat, i: nat | c < |lists| && i < |lists[c]| :: lists[c][i] in nodes
  }

  ghost predicate Absent(lists: Lists, b: int) {
    forall c: nat, i: nat | c < |lists| && i < |lists[c]| :: lists[c][i] != b
  }

  /** Only link words of the nodes in t differ. */
  ghost predicate OnlyLinks(mem: Mem, mem2: Mem, t: set<int>) {
    forall x | Rd(mem2, x) != Rd(mem, x) :: LinkWord(t, x)
  }

  ghost predicate LinkWord(t: set<int>, x: int) { x - 8 in t || x - 12 in t }

  lemma NodeUntouched(mem: Mem, mem2: Mem, t: set<int>, nodes: set<int>, a: int)
    requires OnlyLinks(mem, mem2, t) && t <= nodes && Spaced(nodes) && a in nodes
    ensures Rd(mem2, a) == Rd(mem, a) && Rd(mem2, a + 4) == Rd(mem, a + 4)
    ensures a !in t ==> Rd(mem2, a + 8) == Rd(mem, a + 8) && Rd(mem2, a + 12) == Rd(mem, a + 12)
  {
    forall x | a <= x < a + 16 && LinkWord(t, x)
      ensures a in t && a + 8 <= x
    {
      var n := if x - 8 in t then x - 8 else x - 12;
      assert n in nodes;
    }
    assert !LinkWord(t, a) && !LinkWord(t, a + 4);
    if a !in t { assert !LinkWord(t, a + 8) && !LinkWord(t, a + 12); }
  }

  /** A list none of whose nodes is touched stays as it is. */
  lemma ListUntouched(mem: Mem, mem2: Mem, t: set<int>, nodes: set<int>, head: int, s: seq<int>)
    requires OnlyLinks(mem, mem2, t) && t <= nodes && Spaced(nodes)
    requires ListAt(mem, head, s)
    requires forall i: nat | i < |s| :: s[i] in nodes && s[i] !in t
    ensures ListAt(mem2, head, s)
  {
    forall i: nat | i < |s| ensures NodeOk(mem2, s, i) {
      assert NodeOk(mem, s, i);
      NodeUntouched(mem, mem2, t, nodes, s[i]);
    }
  }

  /** All the other lists survive an update whose touched nodes belong to list c. */
  lemma OtherLists(mem: Mem, mem2: Mem, t: set<int>, nodes: set<int>, matrix: seq<int>, lists: Lists, c: nat)
    requires ListsOk(mem, matrix, lists) && NodesIn(lists, nodes) && Spaced(nodes) && c < CLASSES
    requires OnlyLinks(mem, mem2, t) && t <= nodes
    requires forall d: nat, i: nat | d < CLASSES && d != c && i < |lists[d]| :: lists[d][i] !in t
    ensures forall d: nat | d < CLASSES && d != c :: ListAt(mem2, matrix[d], lists[d])
  {
    forall d: nat | d < CLASSES && d != c ensures ListAt(mem2, matrix[d], lists[d]) {
      ListUntouched(mem, mem2, t, nodes, matrix[d], lists[d]);
    }
  }

  // ---------------------------------------------------------------- insertion

  /** The memory after INSERT_BLOCK pushed b in front of head h. */
  function PushMem(mem: Mem, b: int, h: int): Mem {
    var m := mem[LinkPrev(b) := 0][LinkNext(b) := h];
    if h != 0 then m[LinkPrev(h) := b] else m
  }

  lemma PushLinks(mem: Mem, b: int, h: int)
    ensures OnlyLinks(mem, PushMem(mem, b, h), if h != 0 then {b, h} else {b})
  {}

  lemma PushList(mem: Mem, b: int, s: seq<int>, nodes: set<int>)
    requires ListAt(mem, HeadOf(s), s) && Spaced(nodes) && b in nodes && b > 0
    requires forall i: nat | i < |s| :: s[i] in nodes && s[i] != b
    requires forall i: nat, j: nat | i < j < |s| :: s[i] != s[j]
    ensures ListAt(PushMem(mem, b, HeadOf(s)), b, [b] + s)
  {
    var h := HeadOf(s);
    var m := PushMem(mem, b, h);
    var s2 := [b] + s;
    if s != [] { assert NodeOk(mem, s, 0); assert s[0] in nodes; }
    PushLinks(mem, b, h);
    forall i: nat | i < |s2| ensures NodeOk(m, s2, i) {
      if i == 0 {
      } else if i == 1 {
        assert NodeOk(mem, s, 0);
      } else {
        assert NodeOk(mem, s, i - 1);
        assert s[0] != s[i - 1];
        NodeUntouched(mem, m, {b, h}, nodes, s[i - 1]);
      }
    }
  }

  lemma PushLists(mem: Mem, matrix: seq<int>, lists: Lists, c: nat, b: int, nodes: set<int>)
    requires ListsOk(mem, matrix, lists) && Distinct(lists) && NodesIn(lists, nodes) && Spaced(nodes)
    requires c < CLASSES && b in nodes && b > 0 && Absent(lists, b)
    ensures ListsOk(PushMem(mem, b, matrix[c]), matrix[c := b], lists[c := [b] + lists[c]])
  {
    var m := PushMem(mem, b, matrix[c]);
    var s := lists[c];
    assert ListAt(mem, matrix[c], s);
    forall i: nat | i < |s| ensures s[i] in nodes && s[i] != b {}
    PushList(mem, b, s, nodes);
    PushLinks(mem, b, matrix[c]);
    var t := if s != [] then {b, s[0]} else {b};
    assert s != [] ==> NodeOk(mem, s, 0);
    OtherLists(mem, m, t, nodes, matrix, lists, c);
  }

  lemma PushDistinct(lists: Lists, c: nat, b: int)
    requires Distinct(lists) && Absent(lists, b) && c < |lists|
    ensures Distinct(lists[c := [b] + lists[c]])
  {
    var l := lists[c := [b] + lists[c]];
    forall d: nat, e: nat, i: nat, j: nat |
      d < |l| && e < |l| && i < |l[d]| && j < |l[e]| && l[d][i] == l[e][j] ensures d == e && i == j
    {
      var i2 := if d == c then i - 1 else i;
      var j2 := if e == c then j - 1 else j;
      if i2 >= 0 && j2 >= 0 { assert lists[d][i2] == lists[e][j2]; }
    }
  }

  // ---------------------------------------------------------------- extraction

  function Drop(s: seq<int>, i: nat): seq<int>
    requires i < |s|
  {
    s[..i] + s[i + 1..]
  }

  /** The memory after EXTRACT_BLOCK unlinked b with neighbours p and n. */
  function UnlinkMem(mem: Mem, b: int, p: int, n: int): Mem {
    var m := if n != 0 then mem[LinkPrev(n) := p] else mem;
    var m2 := if p != 0 then m[LinkNext(p) := n] else m;
    m2[LinkPrev(b) := 0][LinkNext(b) := 0]
  }

  function UnlinkNodes(b: int, p: int, n: int): set<int> {
    {b} + (if p != 0 then {p} else {}) + (if n != 0 then {n} else {})
  }

  lemma UnlinkLinks(mem: Mem, b: int, p: int, n: int)
    ensures OnlyLinks(mem, UnlinkMem(mem, b, p, n), UnlinkNodes(b, p, n))
  {}

  ghost predicate Proper(s: seq<int>, nodes: set<int>) {
    && (forall i: nat | i < |s| :: s[i] in nodes && s[i] > 0)
    && (forall i: nat, j: nat | i < j < |s| :: s[i] != s[j])
  }

  lemma UnlinkList(mem: Mem, s: seq<int>, k: nat, nodes: set<int>)
    requires ListAt(mem, HeadOf(s), s) && Spaced(nodes) && Proper(s, nodes) && k < |s|
    ensures var m := UnlinkMem(mem, s[k], PrevIn(s, k), NextIn(s, k));
            ListAt(m, HeadOf(Drop(s, k)), Drop(s, k))
  {
    var m := UnlinkMem(mem, s[k], PrevIn(s, k), NextIn(s, k));
    var s2 := Drop(s, k);
    forall i: nat | i < |s2| ensures NodeOk(m, s2, i) {
      UnlinkNode(mem, s, k, nodes, i);
    }
  }

  lemma UnlinkNode(mem: Mem, s: seq<int>, k: nat, nodes: set<int>, i: nat)
    requires ListAt(mem, HeadOf(s), s) && Spaced(nodes) && Proper(s, nodes) && k < |s| && i < |s| - 1
    ensures NodeOk(UnlinkMem(mem, s[k], PrevIn(s, k), NextIn(s, k)), Drop(s, k), i)
  {
    var b, p, n := s[k], PrevIn(s, k), NextIn(s, k);
    var m := UnlinkMem(mem, b, p, n);
    var s2 := Drop(s, k);
    var j := if i < k then i else i + 1;
    var a := s[j];
    assert s2[i] == a && a in nodes && b in nodes && a != b;
    assert NodeOk(mem, s, j);
    assert PrevIn(s2, i) == if j == k + 1 then p else PrevIn(s, j);
    assert NextIn(s2, i) == if j + 1 == k then n else NextIn(s, j);
    UnlinkReads(mem, b, p, n, nodes, a, s, k, j);
  }

  lemma UnlinkReads(mem: Mem, b: int, p: int, n: int, nodes: set<int>, a: int, s: seq<int>, k: nat, j: nat)
    requires Spaced(nodes) && Proper(s, nodes) && k < |s| && j < |s| && j != k
    requires b == s[k] && a == s[j] && p == PrevIn(s, k) && n == NextIn(s, k)
    ensures var m := UnlinkMem(mem, b, p, n);
            && Rd(m, LinkPrev(a)) == (if j == k + 1 then p else Rd(mem, LinkPrev(a)))
            && Rd(m, LinkNext(a)) == (if j + 1 == k then n else Rd(mem, LinkNext(a)))
  {
    assert a in nodes && b in nodes && a != b;
    assert n != 0 ==> n in nodes && (n == a <==> j == k + 1);
    assert p != 0 ==> p in nodes && (p == a <==> j + 1 == k);
  }

  lemma UnlinkLists(mem: Mem, matrix: seq<int>, lists: Lists, c: nat, k: nat, nodes: set<int>)
    requires ListsOk(mem, matrix, lists) && Distinct(lists) && NodesIn(lists, nodes) && Spaced(nodes)
    requires c < CLASSES && k < |lists[c]|
    ensures var s := lists[c];
            var m := UnlinkMem(mem, s[k], PrevIn(s, k), NextIn(s, k));
            ListsOk(m, matrix[c := HeadOf(Drop(s, k))], lists[c := Drop(s, k)])
  {
    var s := lists[c];
    var b, p, n := s[k], PrevIn(s, k), NextIn(s, k);
    var m := UnlinkMem(mem, b, p, n);
    assert ListAt(mem, matrix[c], s);
    ProperList(mem, matrix, lists, c, nodes);
    UnlinkList(mem, s, k, nodes);
    UnlinkLinks(mem, b, p, n);
    var t := UnlinkNodes(b, p, n);
    forall d: nat, i: nat | d < CLASSES && d != c && i < |lists[d]| ensures lists[d][i] !in t {
      assert lists[d][i] != lists[c][k];
      if k > 0 { assert lists[d][i] != lists[c][k - 1]; }
      if k + 1 < |s| { assert lists[d][i] != lists[c][k + 1]; }
    }
    OtherLists(mem, m, t, nodes, matrix, lists, c);
  }

  lemma ProperList(mem: Mem, matrix: seq<int>, lists: Lists, c: nat, nodes: set<int>)
    requires ListsOk(mem, matrix, lists) && Distinct(lists) && NodesIn(lists, nodes) && c < CLASSES
    ensures Proper(lists[c], nodes)
  {
    var s := lists[c];
    assert ListAt(mem, matrix[c], s);
    forall i: nat | i < |s| ensures s[i] in nodes && s[i] > 0 { assert NodeOk(mem, s, i); }
  }

  lemma DropDistinct(lists: Lists, c: nat, k: nat)
    requires Distinct(lists) && c < |lists| && k < |lists[c]|
    ensures var l := lists[c := Drop(lists[c], k)]; Distinct(l) && Absent(l, lists[c][k])
  {
    var l := lists[c := Drop(lists[c], k)];
    forall d: nat, i: nat | d < |l| && i < |l[d]|
      ensures Moved(d, c, k, i) < |lists[d]| && l[d][i] == lists[d][Moved(d, c, k, i)] && l[d][i] != lists[c][k]
    {}
    forall d: nat, e: nat, i: nat, j: nat |
      d < |l| && e < |l| && i < |l[d]| && j < |l[e]| && l[d][i] == l[e][j] ensures d == e && i == j
    {
      assert lists[d][Moved(d, c, k, i)] == lists[e][Moved(e, c, k, j)];
    }
  }

  /** Where index i of list d came from when index k of list c was dropped. */
  function Moved(d: nat, c: nat, k: nat, i: nat): nat { if d == c && k <= i then i + 1 else i }
}
