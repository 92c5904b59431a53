/** What each part of the kernel's consistency does not depend on. */
module KernelFrames {
  import opened Words
  import opened KernelState

  /** The same processes wait in queues. */
  ghost predicate SameWaiting(a: Places, b: Places) {
    forall p {:trigger a[p]} {:trigger b[p]} ::
      ((p in a && a[p].InQueue?) || (p in b && b[p].InQueue?)) ==> p in a && p in b && a[p] == b[p]
  }

  ghost predicate SameQueued(a: Places, b: Places) {
    forall p {:trigger a[p]} {:trigger b[p]} :: (p in a && a[p].Queued?) <==> (p in b && b[p].Queued?)
  }

  /** The same processes are blocked on channels. */
  ghost predicate SameBlocked(a: Places, b: Places) {
    forall p {:trigger a[p]} {:trigger b[p]} ::
      ((p in a && (a[p].Blocked? || a[p].ExtWait?)) || (p in b && (b[p].Blocked? || b[p].ExtWait?)))
      ==> p in a && p in b && a[p] == b[p]
  }

  lemma LinkedFrame(link: Slots, link2: Slots, q: seq<int>)
    requires Linked(link, q) && forall p | p in q :: Rd(link2, p) == Rd(link, p)
    ensures Linked(link2, q)
  {
    forall i: nat | i + 1 < |q| ensures LinkAt(link2, q, i) { assert LinkAt(link, q, i) && q[i] in q; }
  }

  lemma MembersFrame(a: Places, b: Places, q: seq<int>, w: Place)
    requires Members(a, q, w)
    requires forall p {:trigger a[p]} {:trigger b[p]} :: (p in a && a[p] == w) <==> (p in b && b[p] == w)
    ensures Members(b, q, w)
  {
    forall p ensures p in q <==> p in b && b[p] == w { assert p in q <==> p in a && a[p] == w; }
  }

  lemma WaitFrame(link: Slots, link2: Slots, a: Places, b: Places, waitq: Queues)
    requires WaitOk(link, a, waitq) && SameWaiting(a, b)
    requires forall p | p in a && a[p].InQueue? :: Rd(link2, p) == Rd(link, p)
    ensures WaitOk(link2, b, waitq)
  {
    hide NoDup, Linked, Members;
    forall x | x in waitq ensures NoDup(waitq[x]) && Linked(link2, waitq[x]) && Members(b, waitq[x], InQueue(x)) {
      QueueFrame(link, link2, a, b, waitq[x], x);
    }
  }

  lemma QueueFrame(link: Slots, link2: Slots, a: Places, b: Places, q: seq<int>, x: int)
    requires Linked(link, q) && Members(a, q, InQueue(x)) && SameWaiting(a, b)
    requires forall p | p in a && a[p].InQueue? :: Rd(link2, p) == Rd(link, p)
    ensures Linked(link2, q) && Members(b, q, InQueue(x))
  {
    LinkedFrame(link, link2, q);
    MembersFrame(a, b, q, InQueue(x));
  }

  lemma ObjectsFrame(link: Slots, link2: Slots, a: Places, sem: map<int, Semaphore>, bar: map<int, Barrier>,
                     waitq: Queues, holder: map<int, int>)
    requires ObjectsOk(link, sem, bar, waitq, holder) && WaitOk(link, a, waitq)
    requires forall p | p in a && a[p].InQueue? :: Rd(link2, p) == Rd(link, p)
    ensures ObjectsOk(link2, sem, bar, waitq, holder)
  {
    hide NoDup, Linked;
    forall x | x in waitq && waitq[x] != [] ensures Rd(link2, waitq[x][|waitq[x]| - 1]) == Rd(link, waitq[x][|waitq[x]| - 1]) {
      assert waitq[x][|waitq[x]| - 1] in waitq[x];
    }
  }

  lemma RunFrame(link: Slots, link2: Slots, a: Places, b: Places, fptr: int, bptr: int, runq: seq<int>)
    requires RunOk(link, a, fptr, bptr, runq) && SameQueued(a, b)
    requires forall p | p in a && a[p].Queued? :: Rd(link2, p) == Rd(link, p)
    ensures RunOk(link2, b, fptr, bptr, runq)
  {
    hide NoDup;
    LinkedFrame(link, link2, runq);
    MembersFrame(a, b, runq, Queued);
  }

  /** The same guards are still to be disabled. */
  ghost predicate SameLeft(alt: Alts, alt2: Alts) {
    alt.Keys == alt2.Keys && forall p | p in alt :: alt2[p].left == alt[p].left
  }

  /** Channels do not care about the slots of processes that are not blocked on them, nor
      about the phase of an ALT. */
  lemma ChanFrame(chan: Slots, a: Places, b: Places, ptr: Slots, ptr2: Slots, link: Slots, link2: Slots, alt: Alts, alt2: Alts)
    requires ChanOk(chan, a, ptr, link, alt) && SameBlocked(a, b) && a.Keys == b.Keys && SameLeft(alt, alt2)
    requires forall p | p in a && a[p].Blocked? :: Rd(link2, p) == Rd(link, p)
    requires forall p | p in a && (a[p].Blocked? || a[p].ExtWait?) :: Rd(ptr2, p) == Rd(ptr, p)
    ensures ChanOk(chan, b, ptr2, link2, alt2)
  {
    forall c ensures ChanAt(chan, b, ptr2, link2, alt2, c) { assert ChanAt(chan, a, ptr, link, alt, c); }
    forall p ensures HeldAt(chan, b, ptr2, p) { assert HeldAt(chan, a, ptr, p); }
  }

  /** Equal TLINK words, or two links of the timer queue. */
  ghost predicate Alike(a: int, b: int) {
    a == b || (a != TIME_SET && a != TIME_NOT_SET && b != TIME_SET && b != TIME_NOT_SET)
  }

  /** The slots of p that concern its ALT and its timer. */
  ghost predicate SameSlots(k: K, n: K, p: int) {
    && Rd(n.ptr, p) == Rd(k.ptr, p) && Rd(n.temp, p) == Rd(k.temp, p)
    && Alike(Rd(n.tlink, p), Rd(k.tlink, p)) && Rd(n.time, p) == Rd(k.time, p)
  }

  /** The place of an ALTing process matters only up to running or queued. */
  ghost predicate SimilarPlace(a: Places, b: Places, p: int) {
    && p in a && p in b
    && (a[p] == b[p] || ((a[p].Running? || a[p].Queued?) && (b[p].Running? || b[p].Queued?)))
  }

  /** The remaining channels of p keep its mark, and those that fire go on firing. */
  ghost predicate Steady(chan: Slots, chan2: Slots, p: int, left: multiset<Guard>) {
    forall c {:trigger Rd(chan, c)} {:trigger Rd(chan2, c)} | ChanGuard(c) in left ::
      && (Rd(chan, c) == p + 1 ==> Rd(chan2, c) == p + 1)
      && (Rd(chan, c) != 0 && Rd(chan, c) != p + 1 ==> Rd(chan2, c) != 0 && Rd(chan2, c) != p + 1)
  }

  /** Nothing that p's ALT depends on has changed for the worse. */
  lemma AltFrame(k: K, n: K, p: int)
    requires AltAt(k, p) && p in n.alt && n.alt[p] == k.alt[p] && Steady(k.chan, n.chan, p, k.alt[p].left)
    requires SameSlots(k, n, p) && SimilarPlace(k.place, n.place, p) && (p in n.timerq <==> p in k.timerq)
    ensures AltAt(n, p)
  {
    hide After, SomeReady, SomeFires, AllMarked, Steady, NoTimers;
    GuardsFrame(k, n, p, k.alt[p].left);
  }

  lemma GuardsFrame(k: K, n: K, p: int, left: multiset<Guard>)
    requires Steady(k.chan, n.chan, p, left) && SameSlots(k, n, p)
    ensures AllMarked(k, p, left) ==> AllMarked(n, p, left)
    ensures SomeReady(k, p, left) ==> SomeReady(n, p, left)
    ensures SomeFires(k, p, left) ==> SomeFires(n, p, left)
  {
    hide After;
    if AllMarked(k, p, left) { AllMarkedFrame(k, n, p, left); }
    if SomeReady(k, p, left) {
      var g :| g in left && !g.TimerGuard? && Fires(k, p, g);
      assert Fires(n, p, g);
    }
    if SomeFires(k, p, left) {
      var g :| g in left && Fires(k, p, g);
      assert Fires(n, p, g);
    }
  }

  lemma AllMarkedFrame(k: K, n: K, p: int, left: multiset<Guard>)
    requires AllMarked(k, p, left) && Steady(k.chan, n.chan, p, left)
    ensures AllMarked(n, p, left)
  {
    forall g | g in left ensures !g.SkipGuard? && (g.ChanGuard? ==> Rd(n.chan, g.c) == p + 1) {
      if g.ChanGuard? { assert ChanGuard(g.c) in left; }
    }
  }

  lemma SteadySame(chan: Slots, p: int, left: multiset<Guard>)
    ensures Steady(chan, chan, p, left)
  {}

  lemma AltsFrame(k: K, n: K)
    requires AltsOk(k) && n.alt == k.alt && n.chan == k.chan && n.timerq == k.timerq
    requires forall p | p in k.alt :: SameSlots(k, n, p) && SimilarPlace(k.place, n.place, p)
    requires forall p {:trigger n.place[p]} | p in n.place && n.place[p].AltWait? :: p in k.place && k.place[p].AltWait?
    ensures AltsOk(n)
  {
    hide AltAt, SameSlots, Steady;
    forall p | p in n.alt ensures AltAt(n, p) {
      SteadySame(k.chan, p, k.alt[p].left);
      AltFrame(k, n, p);
    }
  }

  /** Only p's own ALT can have been affected. */
  lemma AltsFrameBut(k: K, n: K, p: int)
    requires AltsOk(k) && n.alt.Keys - {p} == k.alt.Keys - {p}
    requires forall x | x in k.alt && x != p && x in n.alt ::
               && SameSlots(k, n, x) && SimilarPlace(k.place, n.place, x) && n.alt[x] == k.alt[x]
               && (x in n.timerq <==> x in k.timerq) && Steady(k.chan, n.chan, x, k.alt[x].left)
    requires p in n.alt ==> AltAt(n, p)
    requires forall x {:trigger n.place[x]} | x != p && x in n.place && n.place[x].AltWait? :: x in k.place && k.place[x].AltWait?
    requires p in n.place && n.place[p].AltWait? ==> p in n.alt && n.alt[p].phase.Waiting?
    ensures AltsOk(n)
  {
    hide AltAt, SameSlots, Steady;
    forall x | x in n.alt ensures AltAt(n, x) {
      if x != p {
        assert x in k.alt.Keys - {p};
        AltFrame(k, n, x);
      }
    }
    forall x | x in n.place && n.place[x].AltWait? ensures x in n.alt && n.alt[x].phase.Waiting? {
      if x != p { assert x in k.alt.Keys - {p} && x in n.alt.Keys - {p}; }
    }
  }

  lemma TimerFrame(k: K, n: K)
    requires TimerOk(k) && n.timerq == k.timerq && n.tptr == k.tptr && n.tnext == k.tnext && n.tq == k.tq
    requires n.tlink == k.tlink && n.time == k.time
    requires forall p | p in k.timerq :: TimerMember(k.place, k.alt, p) ==> TimerMember(n.place, n.alt, p)
    requires forall p {:trigger n.place[p]} | p in n.place && n.place[p].TimerWait? ::
               p in k.place && k.place[p].TimerWait? && Rd(n.ptr, p) == Rd(k.ptr, p)
    ensures TimerOk(n)
  {
    hide NoDup, Sorted, TimerLinked, TimerMember, After;
  }
}
