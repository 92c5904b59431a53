/** Channel words: rendezvous, waking an ALTing process, extended input
    (runtime/libtvm/ins_chan.c:57-246, ins_pi.c:399-503). */
module KernelChannels {
  import opened Words
  import opened KernelState
  import opened KernelFrames
  import opened KernelQueues
  import opened KernelTimers

  // ---------------------------------------------------------------- one channel in hand

  /** All channels but c are consistent, and no process is parked on c. */
  ghost predicate ChanBut(chan: Slots, place: Places, ptr: Slots, link: Slots, alt: Alts, c: int) {
    && (forall d {:trigger ChanAt(chan, place, ptr, link, alt, d)} | d != c :: ChanAt(chan, place, ptr, link, alt, d))
    && (forall p {:trigger HeldAt(chan, place, ptr, p)} :: HeldAt(chan, place, ptr, p) && NotOn(place, p, c))
  }

  ghost predicate NotOn(place: Places, p: int, c: int) {
    p in place && (place[p].Blocked? || place[p].ExtWait?) ==> place[p].c != c
  }

  lemma OpenEmpty(k: K, c: int)
    requires ChanOk(k.chan, k.place, k.ptr, k.link, k.alt) && Ids(k.place) && Rd(k.chan, c) == 0
    ensures ChanBut(k.chan, k.place, k.ptr, k.link, k.alt, c)
  {
    forall p ensures HeldAt(k.chan, k.place, k.ptr, p) && NotOn(k.place, p, c) {
      assert HeldAt(k.chan, k.place, k.ptr, p);
    }
  }

  /** Taking the process q parked on c, or ALTing there, in hand. */
  lemma OpenTaken(k: K, c: int, q: int, ptr2: Slots, alt2: Alts, place2: Places)
    requires ChanOk(k.chan, k.place, k.ptr, k.link, k.alt) && Ids(k.place)
    requires q in k.place && (Rd(k.chan, c) == q || Rd(k.chan, c) == q + 1) && SameLeft(k.alt, alt2)
    requires place2 == k.place[q := Running] || (place2 == k.place && !k.place[q].Blocked? && !k.place[q].ExtWait?)
    requires k.place[q].ExtWait? ==> k.place[q].c == c
    requires k.place[q].Blocked? ==> k.place[q].c == c
    requires forall p | p in k.place && p != q :: Rd(ptr2, p) == Rd(k.ptr, p)
    ensures ChanBut(k.chan, place2, ptr2, k.link, alt2, c)
  {
    forall d | d != c ensures ChanAt(k.chan, place2, ptr2, k.link, alt2, d) {
      assert ChanAt(k.chan, k.place, k.ptr, k.link, k.alt, d);
    }
    forall p ensures HeldAt(k.chan, place2, ptr2, p) && NotOn(place2, p, c) {
      assert HeldAt(k.chan, k.place, k.ptr, p);
    }
  }

  lemma CloseEmpty(chan: Slots, place: Places, ptr: Slots, link: Slots, alt: Alts, c: int)
    requires ChanBut(chan, place, ptr, link, alt, c)
    ensures ChanOk(chan[c := 0], place, ptr, link, alt)
  {
    var h := chan[c := 0];
    forall d ensures ChanAt(h, place, ptr, link, alt, d) {
      if d != c { assert ChanAt(chan, place, ptr, link, alt, d); }
    }
    forall p ensures HeldAt(h, place, ptr, p) { assert HeldAt(chan, place, ptr, p) && NotOn(place, p, c); }
  }

  lemma CloseParked(chan: Slots, place: Places, ptr: Slots, link: Slots, alt: Alts, c: int, p: int, w: Place)
    requires ChanBut(chan, place, ptr, link, alt, c) && p in place && place[p].Running? && p !in alt
    requires w.Blocked? && w.c == c
    ensures ChanOk(chan[c := p], place[p := w], ptr[p := w.buf], link[p := Pending(w)], alt)
  {
    var h, place2, ptr2, link2 := chan[c := p], place[p := w], ptr[p := w.buf], link[p := Pending(w)];
    forall d ensures ChanAt(h, place2, ptr2, link2, alt, d) {
      if d != c { assert ChanAt(chan, place, ptr, link, alt, d); }
    }
    forall x ensures HeldAt(h, place2, ptr2, x) { assert HeldAt(chan, place, ptr, x) && NotOn(place, x, c); }
  }

  // ---------------------------------------------------------------- blocking on a channel

  /** The current process saves its state and puts itself into the channel word. */
  function Block(k: K, c: int, out: bool, buf: int, len: nat): K {
    var p, w := k.wptr, Blocked(c, out, buf, len);
    k.(ptr := k.ptr[p := buf], link := k.link[p := Pending(w)], iptr := k.iptr[p := k.ip],
       chan := k.chan[c := p], place := k.place[p := w])
  }

  lemma BlockCore(k: K, c: int, out: bool, buf: int, len: nat)
    requires Core(k) && InHand(k, k.wptr) && k.wptr !in k.alt && Rd(k.chan, c) == 0
    ensures Core(Block(k, c, out, buf, len))
  {
    hide RunOk, WaitOk, ObjectsOk, ChanOk, AltsOk, TimerOk, Ids, ChanBut;
    OpenEmpty(k, c);
    BlockParts(k, k, c, out, buf, len);
    BlockAlts(k, c, out, buf, len);
  }

  /** Everything but the ALTs, once the channel is in hand. */
  lemma BlockParts(k: K, m: K, c: int, out: bool, buf: int, len: nat)
    requires Ids(m.place) && RunOk(m.link, m.place, m.fptr, m.bptr, m.runq) && WaitOk(m.link, m.place, m.waitq)
    requires ObjectsOk(m.link, m.sem, m.bar, m.waitq, m.holder) && TimerOk(m)
    requires ChanBut(m.chan, m.place, m.ptr, m.link, m.alt, c)
    requires InHand(m, m.wptr) && m.wptr !in m.alt
    ensures var n := Block(m, c, out, buf, len);
            && Ids(n.place) && RunOk(n.link, n.place, n.fptr, n.bptr, n.runq) && WaitOk(n.link, n.place, n.waitq)
            && ObjectsOk(n.link, n.sem, n.bar, n.waitq, n.holder) && TimerOk(n)
            && ChanOk(n.chan, n.place, n.ptr, n.link, n.alt)
  {
    hide RunOk, WaitOk, ObjectsOk, ChanOk, TimerOk, Ids, ChanBut;
    var n := Block(m, c, out, buf, len);
    CloseParked(m.chan, m.place, m.ptr, m.link, m.alt, c, m.wptr, Blocked(c, out, buf, len));
    RunFrame(m.link, n.link, m.place, n.place, m.fptr, m.bptr, m.runq);
    WaitFrame(m.link, n.link, m.place, n.place, m.waitq);
    ObjectsFrame(m.link, n.link, m.place, m.sem, m.bar, m.waitq, m.holder);
    MoveIds(m.place, m.wptr, Blocked(c, out, buf, len));
    TimerFrame(m, n);
  }

  lemma BlockAlts(k: K, c: int, out: bool, buf: int, len: nat)
    requires AltsOk(k) && InHand(k, k.wptr) && k.wptr !in k.alt && Rd(k.chan, c) == 0 && Ids(k.place)
    ensures AltsOk(Block(k, c, out, buf, len))
  {
    hide AltAt;
    var n := Block(k, c, out, buf, len);
    AltsPlaces(k);
    forall x | x in k.alt ensures Steady(k.chan, n.chan, x, k.alt[x].left) {}
    hide AltsOk;
    AltsFrameBut(k, n, k.wptr);
  }

  // ---------------------------------------------------------------- waking an ALTing process

  /** The ALTing process q is told that one of its channels is ready. */
  function Mark(k: K, q: int): K
    requires q in k.place
  {
    k.(ptr := k.ptr[q := READY], alt := Woken(k.alt, q),
       place := if k.place[q].AltWait? || k.place[q].ExtWait? then k.place[q := Running] else k.place)
  }

  /** An output to a channel on which q is ALTing. */
  function Signal(k: K, q: int, c: int, buf: int, len: nat): K
    requires q in k.place
  {
    Block(Mark(k, q), c, true, buf, len)
  }

  lemma SignalCore(k: K, q: int, c: int, buf: int, len: nat)
    requires Core(k) && InHand(k, k.wptr) && k.wptr !in k.alt && Rd(k.chan, c) == q + 1 && Alting(k.place, k.alt, q, c)
    ensures Core(Signal(k, q, c, buf, len)) && q != k.wptr
  {
    hide RunOk, WaitOk, ObjectsOk, ChanOk, AltsOk, TimerOk, Ids, ChanBut, Block;
    AlterPlace(k, q, c);
    var m := Mark(k, q);
    MarkParts(k, q);
    OpenTaken(k, c, q, m.ptr, m.alt, m.place);
    BlockParts(k, m, c, true, buf, len);
    SignalAlts(k, q, c, buf, len);
  }

  /** A process that holds an ALTing mark is active, waiting in its ALT or extended input. */
  lemma AlterPlace(k: K, q: int, c: int)
    requires AltsOk(k) && Alting(k.place, k.alt, q, c)
    ensures k.place[q] == ExtWait(c) || (k.place[q].AltWait? && q in k.alt && k.alt[q].phase.Waiting?)
              || (q in k.alt && (k.place[q].Running? || k.place[q].Queued?) && !k.alt[q].phase.Waiting?)
    ensures q in k.alt <==> !k.place[q].ExtWait?
  {
    hide After, SomeReady, SomeFires, AllMarked, NoTimers;
    if q in k.alt { assert AltAt(k, q); }
  }

  lemma MarkParts(k: K, q: int)
    requires Core(k) && q in k.place
    requires k.place[q].ExtWait? || k.place[q].AltWait? || k.place[q].Running? || k.place[q].Queued?
    ensures var m := Mark(k, q);
            && Ids(m.place) && RunOk(m.link, m.place, m.fptr, m.bptr, m.runq) && WaitOk(m.link, m.place, m.waitq)
            && ObjectsOk(m.link, m.sem, m.bar, m.waitq, m.holder) && TimerOk(m) && SameLeft(k.alt, m.alt)
  {
    hide RunOk, WaitOk, ObjectsOk, ChanOk, TimerOk, Ids, AltsOk;
    var m := Mark(k, q);
    RunFrame(k.link, m.link, k.place, m.place, k.fptr, k.bptr, k.runq);
    WaitFrame(k.link, m.link, k.place, m.place, k.waitq);
    MoveIds(k.place, q, Running);
    TimerFrame(k, m);
  }

  lemma SignalAlts(k: K, q: int, c: int, buf: int, len: nat)
    requires AltsOk(k) && Ids(k.place) && InHand(k, k.wptr) && k.wptr !in k.alt
    requires Rd(k.chan, c) == q + 1 && Alting(k.place, k.alt, q, c)
    ensures AltsOk(Signal(k, q, c, buf, len))
  {
    hide AltAt;
    var n := Signal(k, q, c, buf, len);
    AlterPlace(k, q, c);
    AltsPlaces(k);
    if q in k.alt { SignalAlt(k, q, c, buf, len); }
    forall x | x in k.alt && x != q ensures Steady(k.chan, n.chan, x, k.alt[x].left) {}
    hide AltsOk;
    AltsFrameBut(k, n, q);
  }

  /** No wakeup is lost: in every phase q's ALT now has a guard that fires. */
  lemma SignalAlt(k: K, q: int, c: int, buf: int, len: nat)
    requires AltsOk(k) && Ids(k.place) && InHand(k, k.wptr) && k.wptr !in k.alt && q in k.alt
    requires Rd(k.chan, c) == q + 1 && Alting(k.place, k.alt, q, c)
    ensures AltAt(Signal(k, q, c, buf, len), q)
  {
    var n, left := Signal(k, q, c, buf, len), k.alt[q].left;
    AlterPlace(k, q, c);
    hide After, AltsOk;
    assert AltAt(k, q) by { AltOf(k, q); }
    assert ChanGuard(c) in left && Fires(n, q, ChanGuard(c));
  }

  lemma AltOf(k: K, q: int)
    requires AltsOk(k) && q in k.alt
    ensures AltAt(k, q)
  {}

  // ---------------------------------------------------------------- transferring data

  /** memcpy of n bytes. */
  function Copy(data: Slots, dst: int, src: int, n: nat): Slots {
    if n == 0 then data else Copy(data, dst, src, n - 1)[dst + n - 1 := Rd(data, src + n - 1)]
  }

  function ByteAt(data: Slots, a: int, i: int): int { Rd(data, a + i) }

  /** The destination bytes are the source bytes when the buffers do not overlap; nothing else changes. */
  lemma {:induction false} CopyIs(data: Slots, dst: int, src: int, n: nat)
    requires dst + n <= src || src + n <= dst
    ensures forall i | 0 <= i < n :: ByteAt(Copy(data, dst, src, n), dst, i) == ByteAt(data, src, i)
    ensures forall x | !(dst <= x < dst + n) :: Rd(Copy(data, dst, src, n), x) == Rd(data, x)
  {
    if n > 0 { CopyIs(data, dst, src, n - 1); }
  }

  /** The process parked on c has communicated: the channel is empty and it is in hand. */
  function Release(k: K, q: int, c: int, data: Slots): K {
    k.(chan := k.chan[c := 0], data := data, place := k.place[q := Running])
  }

  /** No ALT has c among its remaining guards. */
  ghost predicate Unguarded(alt: Alts, c: int) { forall p | p in alt :: ChanGuard(c) !in alt[p].left }

  lemma ReleaseCore(k: K, q: int, c: int, data: Slots)
    requires Core(k) && Parked(k.place, k.ptr, k.link, q, c) && Rd(k.chan, c) == q && Unguarded(k.alt, c)
    ensures Core(Release(k, q, c, data))
  {
    hide RunOk, WaitOk, ObjectsOk, ChanOk, AltsOk, TimerOk, Ids, ChanBut;
    var n := Release(k, q, c, data);
    OpenTaken(k, c, q, k.ptr, k.alt, n.place);
    CloseEmpty(k.chan, n.place, k.ptr, k.link, k.alt, c);
    RunFrame(k.link, n.link, k.place, n.place, k.fptr, k.bptr, k.runq);
    WaitFrame(k.link, n.link, k.place, n.place, k.waitq);
    MoveIds(k.place, q, Running);
    TimerFrame(k, n);
    ReleaseAlts(k, q, c, data);
  }

  lemma ReleaseAlts(k: K, q: int, c: int, data: Slots)
    requires AltsOk(k) && q in k.place && k.place[q].Blocked? && Unguarded(k.alt, c)
    ensures AltsOk(Release(k, q, c, data))
  {
    var n := Release(k, q, c, data);
    AltsPlaces(k);
    assert q !in k.alt by { if q in k.alt { BlockedNoAlt(k, q); } }
    hide AltAt, AltsOk;
    AltsFrameBut(k, n, q);
  }

  lemma BlockedNoAlt(k: K, q: int)
    requires AltsOk(k) && q in k.alt
    ensures q in k.place && !k.place[q].Blocked?
  {
    hide After, SomeReady, SomeFires, AllMarked, NoTimers;
    assert AltAt(k, q);
  }
}
