/** Starting, ending and resuming processes; choosing what runs next; extended input
    (runtime/libtvm/scheduler.c:83-164, ins_sec.c:50-82, 167-203, 630-633, ins_pi.c:399-503). */
module KernelProcs {
  import opened Words
  import opened KernelState
  import opened KernelFrames
  import opened KernelQueues
  import opened KernelTimers
  import opened KernelChannels

  datatype Outcome = Continue | Interrupted | Sleep | Empty | Error

  // ---------------------------------------------------------------- dormant processes

  /** A process passes between the hands of the processor and dormancy. */
  function Moved(k: K, p: int, w: Place): K { k.(place := k.place[p := w]) }

  lemma MovedCore(k: K, p: int, w: Place)
    requires Core(k) && p in k.place && p !in k.alt
    requires (InHand(k, p) && w == Dormant) || (k.place[p].Dormant? && w == Running)
    ensures Core(Moved(k, p, w))
  {
    hide RunOk, WaitOk, ObjectsOk, ChanOk, AltsOk, TimerOk, Ids;
    var n := Moved(k, p, w);
    RunFrame(k.link, n.link, k.place, n.place, k.fptr, k.bptr, k.runq);
    WaitFrame(k.link, n.link, k.place, n.place, k.waitq);
    ChanFrame(k.chan, k.place, n.place, k.ptr, n.ptr, k.link, n.link, k.alt, n.alt);
    MoveIds(k.place, p, w);
    AltsPlaces(k);
    AltsFrame(k, n);
    MoveTimer(k, n, p, w);
  }

  lemma DormantNoAlt(k: K, p: int)
    requires Core(k) && p in k.place && k.place[p].Dormant?
    ensures p !in k.alt
  {
    hide RunOk, WaitOk, ObjectsOk, ChanOk, TimerOk, Ids, After, SomeReady, SomeFires, AllMarked, NoTimers;
    if p in k.alt { DormantAlt(k, p); }
  }

  lemma DormantAlt(k: K, p: int)
    requires AltsOk(k) && p in k.alt
    ensures p in k.place && !k.place[p].Dormant?
  {
    hide After, SomeReady, SomeFires, AllMarked, NoTimers;
    assert AltAt(k, p);
  }

  /** Nothing that consistency is about differs. */
  ghost predicate SameCoreFields(k: K, n: K) {
    && n.temp == k.temp && n.link == k.link && n.ptr == k.ptr && n.tlink == k.tlink && n.time == k.time && n.chan == k.chan
    && n.sem == k.sem && n.bar == k.bar && n.fptr == k.fptr && n.bptr == k.bptr && n.tptr == k.tptr && n.tnext == k.tnext
    && n.tq == k.tq && n.runq == k.runq && n.timerq == k.timerq && n.place == k.place && n.alt == k.alt && n.waitq == k.waitq
    && n.holder == k.holder
  }

  lemma CoreSame(k: K, n: K)
    requires Core(k) && SameCoreFields(k, n)
    ensures Core(n)
  {
    hide RunOk, WaitOk, ObjectsOk, ChanOk, AltAt, Ids, NoDup, Sorted, TimerLinked, After;
    AltsPlaces(k);
    AltsFrame(k, n);
  }

  // ---------------------------------------------------------------- run_next_on_queue

  /** walk_timer_queue: TNEXT is left as it was when the queue becomes empty. */
  function Walked(k: K, now: Word): K {
    var w := Walk(k, now);
    w.(tnext := if w.timerq == [] then k.tnext else w.tnext)
  }

  /** walk_timer_queue, and the flag that asks for it. */
  function Synced(k: K, now: Word): K {
    var w := Walked(k, now);
    w.(tq := k.tq && w.tptr != 0)
  }

  /** n is the outcome of looking for something to run: the head of the run queue after the
      timers have been walked, or none. */
  ghost predicate RunsNext(k: K, n: K, o: Outcome, now: Word) {
    if k.intr then o == Interrupted && n == k.(wptr := 0)
    else NextAfter(Synced(k, now), n, o)
  }

  ghost predicate NextAfter(w: K, n: K, o: Outcome) {
    && (w.runq != [] ==> o == Continue && n == TakeNext(w))
    && (w.runq == [] ==> n == w.(wptr := 0) && o == if w.tptr != 0 then Sleep else Empty)
  }

  lemma SyncedCore(k: K, now: Word, s: set<int>)
    requires Core(k) && Hand(k.place, s) && Timely(k.time, k.timerq, now)
    ensures Core(Synced(k, now)) && Hand(Synced(k, now).place, s)
  {
    hide Walk, Core, Hand;
    WalkCore(k, now, s);
    var w := Walk(k, now);
    FlagFacts(k);
    FlagFacts(w);
    var m := WalkExact(k, now);
    FlagCore(w, if w.timerq == [] then k.tnext else w.tnext, k.tq && w.tptr != 0);
  }

  lemma FlagFacts(k: K)
    requires Core(k)
    ensures (k.timerq != [] ==> k.tq) && (k.timerq == [] <==> k.tptr == 0)
  {
    hide RunOk, WaitOk, ObjectsOk, ChanOk, AltsOk, NoDup, Sorted, TimerLinked, After;
    if k.timerq != [] { assert k.timerq[0] in k.timerq; }
  }

  lemma FlagCore(k: K, tnext: int, tq: bool)
    requires Core(k) && (k.timerq != [] ==> tq && tnext == k.tnext)
    ensures Core(k.(tnext := tnext).(tq := tq))
  {
    hide RunOk, WaitOk, ObjectsOk, ChanOk, AltAt, Ids, NoDup, Sorted, TimerLinked, After;
    var n := k.(tnext := tnext).(tq := tq);
    AltsPlaces(k);
    AltsFrame(k, n);
  }

  /** After the timers have been looked at, the flag that asks for it is set exactly when some
      process is still on the timer queue. */
  lemma FlagTells(k: K, n: K, o: Outcome, now: Word)
    requires Core(k) && Timely(k.time, k.timerq, now) && RunsNext(k, n, o, now) && !k.intr
    ensures n.tq <==> n.timerq != []
  {
    hide Core, Hand, Walk, Timely;
    SomeHand(k.place);
    var s :| Hand(k.place, s);
    WalkCore(k, now, s);
    FlagFacts(Walk(k, now));
    FlagFacts(k);
    WalkShorter(k, now);
  }

  lemma {:induction false} WalkShorter(k: K, now: Word)
    ensures k.timerq == [] ==> Walk(k, now).timerq == []
  {}

  /** The processor sleeps or stops only with an empty run queue, and stops only when no
      timer is pending either. */
  ghost predicate Idle(n: K, o: Outcome) {
    && (o == Sleep ==> n.runq == [] && n.timerq != [])
    && (o == Empty ==> n.runq == [] && n.timerq == [])
  }

  /** Whatever the outcome, the state is consistent. */
  lemma RunsNextInv(k: K, n: K, o: Outcome, now: Word)
    requires Core(k) && Hand(k.place, {}) && Timely(k.time, k.timerq, now) && RunsNext(k, n, o, now)
    ensures Inv(n) && (o == Continue <==> n.wptr != 0)
    ensures o != Error && Idle(n, o)
  {
    hide Core, Synced, Hand, TakeNext, Timely;
    if k.intr {
      IdleInv(k);
    } else {
      SyncedCore(k, now, {});
      NextInv(Synced(k, now), n, o);
    }
  }

  lemma IdleInv(k: K)
    requires Core(k) && Hand(k.place, {})
    ensures Inv(k.(wptr := 0))
  {
    hide Core, Hand;
    CoreSame(k, k.(wptr := 0));
  }

  lemma NextInv(w: K, n: K, o: Outcome)
    requires Core(w) && Hand(w.place, {}) && NextAfter(w, n, o)
    ensures Inv(n) && (o == Continue <==> n.wptr != 0)
    ensures o != Error && Idle(n, o)
  {
    hide Core, Hand, TakeNext;
    FlagFacts(w);
    if w.runq != [] {
      TakeCore(w);
      TakePlaces(w);
    } else {
      IdleInv(w);
    }
  }

  lemma TakePlaces(k: K)
    requires Core(k) && k.runq != [] && Hand(k.place, {})
    ensures var n := TakeNext(k); n.wptr == k.runq[0] != 0 && Hand(n.place, {n.wptr})
  {
    hide RunOk, WaitOk, ObjectsOk, ChanOk, AltsOk, TimerOk;
    TakeRun(k);
  }

  // ---------------------------------------------------------------- requeueing and handing over

  /** DESCHEDULE_CURRENT */
  function Requeue(k: K): K { Enqueue(k.(iptr := k.iptr[k.wptr := k.ip]), k.wptr) }

  lemma RequeueCore(k: K, s: set<int>)
    requires Core(k) && InHand(k, k.wptr) && Hand(k.place, s)
    ensures Core(Requeue(k)) && Hand(Requeue(k).place, s - {k.wptr})
  {
    hide Core, Hand, Enqueue;
    var m := k.(iptr := k.iptr[k.wptr := k.ip]);
    CoreSame(k, m);
    EnqueueCore(m, k.wptr);
    EnqueuePlaces(m, k.wptr);
    QueuedHand(k.place, k.wptr, s, Queued);
  }

  lemma QueuedHand(place: Places, p: int, s: set<int>, w: Place)
    requires Hand(place, s) && p in place
    ensures Hand(place[p := w], if w.Running? then s + {p} else s - {p})
  {}

  /** LOAD_PROCESS_RET */
  function Load(k: K, p: int): K { k.(wptr := p, ip := Rd(k.iptr, p)) }

  lemma LoadInv(k: K, p: int)
    requires Core(k) && Hand(k.place, {p}) && p != 0
    ensures Inv(Load(k, p))
  {
    hide Core, Hand;
    CoreSame(k, Load(k, p));
  }

  // ---------------------------------------------------------------- extended input

  /** xable on an empty channel: wait as if for a single guard. */
  function ExtendedWait(k: K, c: int): K {
    var p := k.wptr;
    k.(ptr := k.ptr[p := WAITING], link := k.link[p := c], iptr := k.iptr[p := k.ip], chan := k.chan[c := p + 1],
       place := k.place[p := ExtWait(c)])
  }

  lemma ExtendedWaitCore(k: K, c: int)
    requires Core(k) && InHand(k, k.wptr) && k.wptr !in k.alt && Rd(k.chan, c) == 0
    ensures Core(ExtendedWait(k, c))
  {
    hide RunOk, WaitOk, ObjectsOk, ChanOk, AltsOk, TimerOk, Ids, ChanBut;
    var n, p := ExtendedWait(k, c), k.wptr;
    OpenEmpty(k, c);
    CloseExtended(k, c);
    RunFrame(k.link, n.link, k.place, n.place, k.fptr, k.bptr, k.runq);
    WaitFrame(k.link, n.link, k.place, n.place, k.waitq);
    ObjectsFrame(k.link, n.link, k.place, k.sem, k.bar, k.waitq, k.holder);
    MoveIds(k.place, p, ExtWait(c));
    TimerFrame(k, n);
    ExtendedAlts(k, c);
  }

  lemma CloseExtended(k: K, c: int)
    requires ChanBut(k.chan, k.place, k.ptr, k.link, k.alt, c) && InHand(k, k.wptr) && k.wptr !in k.alt
    ensures var n := ExtendedWait(k, c); ChanOk(n.chan, n.place, n.ptr, n.link, n.alt)
  {
    var n := ExtendedWait(k, c);
    forall d ensures ChanAt(n.chan, n.place, n.ptr, n.link, n.alt, d) { ExtendedChan(k, c, d); }
    forall x ensures HeldAt(n.chan, n.place, n.ptr, x) { ExtendedHeld(k, c, x); }
  }

  lemma ExtendedChan(k: K, c: int, d: int)
    requires ChanBut(k.chan, k.place, k.ptr, k.link, k.alt, c) && InHand(k, k.wptr) && k.wptr !in k.alt
    ensures var n := ExtendedWait(k, c); ChanAt(n.chan, n.place, n.ptr, n.link, n.alt, d)
  {
    hide HeldAt, NotOn;
    if d != c { assert ChanAt(k.chan, k.place, k.ptr, k.link, k.alt, d); }
  }

  lemma ExtendedHeld(k: K, c: int, x: int)
    requires ChanBut(k.chan, k.place, k.ptr, k.link, k.alt, c) && InHand(k, k.wptr) && k.wptr !in k.alt
    ensures var n := ExtendedWait(k, c); HeldAt(n.chan, n.place, n.ptr, x)
  {
    hide ChanAt;
    assert HeldAt(k.chan, k.place, k.ptr, x) && NotOn(k.place, x, c);
  }

  lemma ExtendedAlts(k: K, c: int)
    requires AltsOk(k) && InHand(k, k.wptr) && k.wptr !in k.alt && Rd(k.chan, c) == 0 && Ids(k.place)
    ensures AltsOk(ExtendedWait(k, c))
  {
    hide AltAt;
    var n := ExtendedWait(k, c);
    AltsPlaces(k);
    forall x | x in k.alt ensures Steady(k.chan, n.chan, x, k.alt[x].left) {}
    hide AltsOk;
    AltsFrameBut(k, n, k.wptr);
  }
}
