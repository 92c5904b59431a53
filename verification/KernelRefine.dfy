/** What the words hold in the middle of an operation of the kernel, and how the words it
    writes make up the step it stands for. */
module KernelRefine {
  import opened Words
  import opened KernelState
  import opened KernelFrames
  import opened KernelQueues
  import opened KernelTimers
  import opened KernelChannels
  import opened KernelAlts
  import opened KernelObjects
  import opened KernelProcs
  import opened KernelMachine

  /** The words Expire has written when it comes to queue the head. */
  function Expiring(k: K, now: Word): K
    requires k.timerq != []
  {
    var p := k.timerq[0];
    k.(tlink := k.tlink[p := TIME_SET], time := k.time[p := now], timerq := k.timerq[1..], alt := Woken(k.alt, p))
  }

  lemma FireWakes(k: K, now: Word)
    requires k.timerq != [] && Rd(k.ptr, k.timerq[0]) != READY
    ensures var p := k.timerq[0]; var m := Expiring(k, now);
            Enqueue(m.(ptr := m.ptr[p := READY]).(place := m.place[p := Running]), p)
              == Fire(k, now).(tptr := k.tptr, tnext := k.tnext)
  {
    hide Woken, Behind;
  }

  lemma FirePasses(k: K, now: Word)
    requires k.timerq != [] && Rd(k.ptr, k.timerq[0]) == READY
    ensures Expiring(k, now) == Fire(k, now).(tptr := k.tptr, tnext := k.tnext)
  {
    hide Woken, Behind;
    assert k.ptr[k.timerq[0] := READY] == k.ptr;
  }

  lemma HeadWords(k: K)
    requires Core(k)
    ensures k.tptr == Head(k.timerq) && (k.timerq == [] <==> k.tptr == 0)
    ensures k.timerq != [] ==> k.tnext == Rd(k.time, k.timerq[0]) && k.tq
  {
    hide RunOk, WaitOk, ObjectsOk, ChanOk, AltsOk, NoDup, Sorted, TimerLinked, After;
    if k.timerq != [] { assert k.timerq[0] in k.timerq; }
  }

  lemma WalkNothing(k: K, now: Word)
    requires k.timerq == [] || After(Rd(k.time, k.timerq[0]), now)
    ensures Walk(k, now) == k
  {
    hide After;
  }

  /** In the middle of the walk from v: f is where the walk has got to, cur what the words say,
      with the queue pointers still as they were; t is the next head, and due. */
  ghost predicate Walking(v: K, f: K, cur: K, t: int, now: Word) {
    && Core(f) && Timely(f.time, f.timerq, now) && f.timerq != [] && !After(Rd(f.time, f.timerq[0]), now)
    && cur == f.(tptr := v.tptr, tnext := v.tnext) && Walk(v, now) == Walk(f, now) && t == f.timerq[0]
  }

  lemma WalkBegins(v: K, t: int, now: Word)
    requires Core(v) && Timely(v.time, v.timerq, now) && v.timerq != [] && !After(Rd(v.time, v.timerq[0]), now) && t == v.timerq[0]
    ensures Walking(v, v, v, t, now)
  {
    hide Core, Walk, Timely, After;
  }

  /** One turn of the walk: it ends with the queue empty, or at a head not due yet, or goes on. */
  lemma WalkTurn(v: K, f: K, cur: K, t: int, now: Word)
    requires Walking(v, f, cur, t, now)
    ensures cur.timerq != [] && t == cur.timerq[0]
    ensures var n := Fire(cur, now).(tptr := cur.tptr, tnext := cur.tnext); var after := Rd(cur.tlink, t);
            && |Fire(f, now).timerq| < |f.timerq|
            && (after == 0 ==> n.(tptr := 0) == Walked(v, now))
            && (after != 0 && After(Rd(n.time, after), now) ==> n.(tptr := after, tnext := Rd(n.time, after), tq := true) == Walked(v, now))
            && (after != 0 && !After(Rd(n.time, after), now) ==> Walking(v, Fire(f, now), n, after, now))
  {
    hide Core, Walk, Timely, After, Fire;
    FireIs(f, now);
    FireUnder(f, v.tptr, v.tnext, now);
    var g := Fire(f, now);
    HeadWords(g);
    if g.timerq == [] || After(Rd(g.time, g.timerq[0]), now) { WalkNothing(g, now); }
  }

  /** The queue pointers play no part in firing the head. */
  lemma FireUnder(k: K, tptr: int, tnext: int, now: Word)
    requires k.timerq != []
    ensures Fire(k.(tptr := tptr, tnext := tnext), now).(tptr := tptr, tnext := tnext) == Fire(k, now).(tptr := tptr, tnext := tnext)
  {
    hide Woken, Behind;
  }

  /** Firing the head, word by word. */
  lemma FireIs(k: K, now: Word)
    requires Core(k) && Timely(k.time, k.timerq, now) && k.timerq != [] && !After(Rd(k.time, k.timerq[0]), now)
    ensures var n := Fire(k, now);
            && Core(n) && Timely(n.time, n.timerq, now) && |n.timerq| < |k.timerq| && Walk(k, now) == Walk(n, now)
            && n.tptr == Rd(k.tlink, k.timerq[0])
  {
    hide Core, Timely, After, Fire;
    WalkStep(k, now);
    FireHead(k, now);
  }

  lemma FireHead(k: K, now: Word)
    requires k.timerq != []
    ensures Fire(k, now).tptr == Rd(k.tlink, k.timerq[0])
  {
    hide Woken, Behind;
  }

  lemma FlagStays(k: K, now: Word)
    requires Core(k) && Timely(k.time, k.timerq, now) && k.tq
    ensures Walked(k, now).tq
    ensures Synced(k, now) == (if Walked(k, now).tptr == 0 then Walked(k, now).(tq := false) else Walked(k, now))
  {
    hide Core, Walk, Timely;
    WalkFlagKept(k, now);
  }

  lemma {:induction false} WalkFlagKept(k: K, now: Word)
    ensures Walk(k, now).tq == k.tq
    decreases |k.timerq|
  {
    hide Fire, After;
    if k.timerq != [] && !After(Rd(k.time, k.timerq[0]), now) {
      FireFlag(k, now);
      WalkFlagKept(Fire(k, now), now);
    }
  }

  lemma FireFlag(k: K, now: Word)
    requires k.timerq != []
    ensures Fire(k, now).tq == k.tq && |Fire(k, now).timerq| < |k.timerq|
  {
    hide Woken, Behind;
  }

  lemma NoTimersSynced(k: K, now: Word)
    requires Core(k) && !k.tq
    ensures Synced(k, now) == k
  {
    hide Core;
    FlagFacts(k);
  }

  lemma FrontFacts(k: K)
    requires Core(k)
    ensures k.fptr == 0 <==> k.runq == []
  {
    hide WaitOk, ObjectsOk, ChanOk, AltsOk, TimerOk, NoDup, Linked;
    if k.runq != [] { assert k.runq[0] in k.runq; }
  }

  /** The timer queue and its pointers are in order. */
  ghost predicate TimersReady(k: K) { Ids(k.place) && TimerOk(k) }

  lemma QueueHead(k: K)
    requires TimersReady(k)
    ensures k.tptr == Head(k.timerq) && (k.tptr == 0 <==> k.timerq == [])
    ensures k.timerq != [] ==> k.tnext == Rd(k.time, k.timerq[0])
  {
    hide After, NoDup, Sorted, TimerLinked;
    if k.timerq != [] { assert k.timerq[0] in k.timerq && TimerMember(k.place, k.alt, k.timerq[0]); }
  }

  lemma QueueLink(k: K, i: nat)
    requires TimersReady(k) && i < |k.timerq|
    ensures Rd(k.tlink, k.timerq[i]) == if i + 1 < |k.timerq| then k.timerq[i + 1] else 0
  {
    hide After, NoDup, Sorted;
    assert TimerLinkAt(k.tlink, k.timerq, i);
  }

  lemma QueueNonZero(k: K, i: nat)
    requires TimersReady(k) && i < |k.timerq|
    ensures k.timerq[i] != 0
  {
    hide After, NoDup, Sorted, TimerLinked;
    assert k.timerq[i] in k.timerq && TimerMember(k.place, k.alt, k.timerq[i]);
  }

  lemma OnlyOnce(k: K, i: nat, j: nat)
    requires TimersReady(k) && i < |k.timerq| && j <= i
    ensures k.timerq[j] == k.timerq[i] <==> i == j
  {
    hide After, Sorted, TimerLinked;
  }

  lemma {:induction false} SlotFound(time: Slots, q: seq<int>, t: int, i: nat)
    requires i <= |q| && (forall j: nat | j < i :: !After(Rd(time, q[j]), t)) && (i < |q| ==> After(Rd(time, q[i]), t))
    ensures Slot(time, q, t) == i
  {
    hide After;
    if i > 0 {
      forall j: nat | j < i - 1 ensures !After(Rd(time, q[1..][j]), t) { assert q[1..][j] == q[j + 1]; }
      SlotFound(time, q[1..], t, i - 1);
    }
  }

  lemma InsertFirst(k: K, ws: int, t: Word)
    requires k.timerq == []
    ensures TimerInsert(k, ws, t) == k.(tptr := ws, tnext := t, iptr := k.iptr[ws := k.ip], tlink := k.tlink[ws := 0],
                                       tq := true, timerq := [ws])
  {
    assert InsertAt([], 0, ws) == [ws];
  }

  lemma InsertFront(k: K, ws: int, t: Word)
    requires k.timerq != [] && After(Rd(k.time, k.timerq[0]), t)
    ensures TimerInsert(k, ws, t)
         == k.(tlink := k.tlink[ws := k.timerq[0]], tptr := ws, tnext := t, tq := true, timerq := [ws] + k.timerq)
  {
    hide After;
    SlotFound(k.time, k.timerq, t, 0);
    hide Slot;
    assert InsertAt(k.timerq, 0, ws) == [ws] + k.timerq;
  }

  lemma InsertBehind(k: K, ws: int, t: Word, i: nat)
    requires i < |k.timerq| && Slot(k.time, k.timerq, t) == i + 1 && ws !in k.timerq
    ensures TimerInsert(k, ws, t)
         == k.(tlink := k.tlink[ws := if i + 1 < |k.timerq| then k.timerq[i + 1] else 0][k.timerq[i] := ws],
               timerq := InsertAt(k.timerq, i + 1, ws))
  {
    hide Slot;
  }

  lemma RemoveFirst(k: K)
    requires k.timerq != []
    ensures var ws := k.timerq[0]; var next := Rd(k.tlink, ws);
            TimerRemove(k, 0) == k.(tptr := next, tnext := if next != 0 then Rd(k.time, next) else k.tnext, tq := next != 0 || k.tq,
                                    tlink := k.tlink[ws := TIME_NOT_SET], timerq := RemoveAt(k.timerq, 0))
  {}

  lemma RemoveLater(k: K, i: nat)
    requires 0 < i < |k.timerq|
    ensures var ws := k.timerq[i];
            TimerRemove(k, i) == k.(tlink := k.tlink[k.timerq[i - 1] := Rd(k.tlink, ws)][ws := TIME_NOT_SET], timerq := RemoveAt(k.timerq, i))
  {}

  /** Noting readiness where it has been noted already changes nothing. */
  lemma MarkReady(k: K, q: int)
    requires q in k.place && (Rd(k.ptr, q) == WAITING <==> k.place[q].AltWait? || k.place[q].ExtWait?)
    ensures Rd(k.ptr, q) == READY ==> k.ptr[q := READY] == k.ptr
    ensures Mark(k, q) == k.(ptr := k.ptr[q := READY], alt := Woken(k.alt, q),
                             place := if Rd(k.ptr, q) == WAITING then k.place[q := Running] else k.place)
  {
    hide Woken;
  }

  lemma DisconnectedReady(k: K, data: Slots)
    requires Core(k) && InHand(k, k.wptr) && Hand(k.place, {k.wptr})
    ensures var m := Requeue(k.(data := data)); Core(m) && Hand(m.place, {}) && m.time == k.time && m.timerq == k.timerq
  {
    hide Core, Hand, Requeue;
    CoreSame(k, k.(data := data));
    RequeueCore(k.(data := data), {k.wptr});
    assert {k.wptr} - {k.wptr} == {};
    RequeueTimers(k.(data := data));
  }

  /** The buffers of the two ends do not overlap. */
  ghost predicate Meeting(k: K, q: int, out: bool, buf: int, len: nat) {
    Rd(k.ptr, q) + len <= buf || buf + len <= Rd(k.ptr, q)
  }

  /** An even channel word is a process parked there, at the other end. */
  lemma EvenWord(k: K, c: int, out: bool, buf: int, len: nat, later: Word)
    requires Core(k) && InHand(k, k.wptr) && IoAllowed(k, c, out, buf, len, later)
    requires Rd(k.chan, c) != 0 && Rd(k.chan, c) % 2 == 0
    ensures Meeting(k, Rd(k.chan, c), out, buf, len) && Rd(k.chan, c) - 1 !in k.place
  {
    hide Core, Alting, Timely, Unguarded;
    var v := Rd(k.chan, c);
    if Alting(k.place, k.alt, v - 1, c) {
      AlterOdd(k, c);
    } else {
      PartnerFacts(k, v, c, out, buf, len);
    }
  }

  /** An odd channel word other than the disconnected mark is an ALTing reader. */
  lemma OddWord(k: K, c: int, out: bool, buf: int, len: nat, later: Word)
    requires Core(k) && InHand(k, k.wptr) && IoAllowed(k, c, out, buf, len, later)
    requires Rd(k.chan, c) != 1 && Rd(k.chan, c) % 2 != 0
    ensures out && Alting(k.place, k.alt, Rd(k.chan, c) - 1, c)
  {
    hide Core, Alting, Timely, Unguarded;
    if Partner(k, Rd(k.chan, c), c, out, buf, len) { ProcessEven(k, Rd(k.chan, c)); }
  }

  lemma ProcessEven(k: K, p: int)
    requires Core(k) && p in k.place
    ensures p % 2 == 0
  {
    hide RunOk, WaitOk, ObjectsOk, ChanOk, AltsOk, TimerOk;
  }

  lemma AlterOdd(k: K, c: int)
    requires Core(k) && Alting(k.place, k.alt, Rd(k.chan, c) - 1, c)
    ensures Rd(k.chan, c) % 2 != 0
  {
    hide RunOk, WaitOk, ObjectsOk, ChanOk, AltsOk, TimerOk;
  }

  /** The readiness already noted is not written again. */
  lemma ProceedIs(k: K, time: Slots)
    requires k.wptr in k.alt && Rd(k.ptr, k.wptr) == READY
    ensures Proceed(k, time) == k.(temp := k.temp[k.wptr := NONE_SELECTED], time := time, alt := NextPhase(k, Disabling))
  {
    hide NextPhase;
    assert k.ptr[k.wptr := READY] == k.ptr;
  }

  /** A disable instruction for g would find it fired, and take its branch. */
  ghost predicate Chooses(k: K, g: Guard) { Rd(k.temp, k.wptr) == NONE_SELECTED && Fires(k, k.wptr, g) }

  lemma ReadyStep(k: K, n: K, now: Word, later: Word)
    requires k.wptr in k.alt && Rd(k.ptr, k.wptr) == READY && n == Proceed(k, k.time[k.wptr := now])
    ensures TimedWaitStep(k, n, Continue, now, later)
  {
    hide RunsNext, After, SleepAlt, SleepTimed, Proceed;
  }

  lemma OverdueStep(k: K, n: K, now: Word, later: Word)
    requires k.wptr in k.alt && Rd(k.tlink, k.wptr) != TIME_NOT_SET && After(now, Rd(k.time, k.wptr))
    requires var m := k.(ptr := k.ptr[k.wptr := READY]); n == Proceed(m, m.time[k.wptr := now])
    ensures TimedWaitStep(k, n, Continue, now, later)
  {
    hide RunsNext, After, SleepAlt, SleepTimed, NextPhase;
    assert k.ptr[k.wptr := READY][k.wptr := READY] == k.ptr[k.wptr := READY];
    NextPhaseOf(k, k.(ptr := k.ptr[k.wptr := READY]), Disabling);
  }

  lemma NextPhaseOf(k: K, n: K, phase: Phase)
    requires k.wptr in k.alt && n.alt == k.alt && n.wptr == k.wptr
    ensures NextPhase(n, phase) == NextPhase(k, phase)
  {}

  lemma UntilStep(k: K, n: K, o: Outcome, now: Word, later: Word)
    requires k.wptr in k.alt && Rd(k.ptr, k.wptr) != READY && Rd(k.tlink, k.wptr) != TIME_NOT_SET
    requires !After(now, Rd(k.time, k.wptr)) && RunsNext(SleepTimed(k), n, o, later)
    ensures TimedWaitStep(k, n, o, now, later)
  {
    hide RunsNext, After, SleepAlt, SleepTimed, Proceed;
  }

  lemma NoTimeoutStep(k: K, n: K, o: Outcome, now: Word, later: Word)
    requires k.wptr in k.alt && Rd(k.ptr, k.wptr) != READY && Rd(k.tlink, k.wptr) == TIME_NOT_SET
    requires RunsNext(SleepAlt(k), n, o, later)
    ensures TimedWaitStep(k, n, o, now, later)
  {
    hide RunsNext, After, SleepAlt, SleepTimed, Proceed;
  }

  /** The timer queue is in order when a process not on it has set its own time. */
  lemma OwnTimeReady(k: K, n: K)
    requires Core(k) && InHand(k, k.wptr) && k.wptr !in k.timerq
    requires n.place == k.place && n.alt == k.alt && n.ptr == k.ptr && n.timerq == k.timerq && n.tptr == k.tptr && n.tnext == k.tnext
    requires n.tq == k.tq && n.tlink == k.tlink && forall x | x != k.wptr :: Rd(n.time, x) == Rd(k.time, x)
    ensures TimersReady(n)
  {
    hide RunOk, WaitOk, ObjectsOk, ChanOk, AltsOk, Ids, After, NoDup;
    TimerSlots(k, n);
    hide Sorted, TimerLinked, TimerMember;
  }

  /** Selecting nothing and going on the timer queue can be done in either order. */
  lemma SleepQueue(k: K, t: Word)
    requires Core(k) && InAlt(k, Enabling)
    ensures var n := k.(temp := k.temp[k.wptr := NONE_SELECTED], time := k.time[k.wptr := t]);
            var m := TimerInsert(k.(time := k.time[k.wptr := t]), k.wptr, t);
            && TimersReady(n) && k.wptr !in n.timerq && m.wptr == k.wptr && m.alt == k.alt && m.temp == k.temp
            && TimerInsert(n, k.wptr, t) == m.(temp := n.temp)
  {
    hide Core, InHand, TimersReady, Slot, InsertAt, TimerLinkIn;
    EnablerOffQueue(k);
    OwnTimeReady(k, k.(temp := k.temp[k.wptr := NONE_SELECTED], time := k.time[k.wptr := t]));
  }

  lemma TinQueue(k: K, t: Word)
    requires Core(k) && InHand(k, k.wptr) && k.wptr !in k.alt
    ensures TimersReady(k.(time := k.time[k.wptr := t], iptr := k.iptr[k.wptr := k.ip])) && k.wptr !in k.timerq
  {
    hide Core, InHand, TimersReady;
    EnablerOffQueue(k);
    OwnTimeReady(k, k.(time := k.time[k.wptr := t], iptr := k.iptr[k.wptr := k.ip]));
  }

  lemma InsertKeepsWptr(k: K, ws: int, t: Word)
    ensures TimerInsert(k, ws, t).wptr == k.wptr
  {}

  /** A process disabling a timeout is on the timer queue exactly when its TLINK is a link. */
  lemma TimeoutPlace(k: K, t: Word, process: int)
    requires Core(k) && InHand(k, k.wptr) && DisableAllowed(k, TimerGuard(t), process)
    ensures TimersReady(k)
    ensures k.wptr in k.timerq <==> Rd(k.tlink, k.wptr) != TIME_SET && Rd(k.tlink, k.wptr) != TIME_NOT_SET
    ensures k.wptr in k.timerq ==> !Fires(k, k.wptr, TimerGuard(t))
  {
    hide RunOk, WaitOk, ObjectsOk, ChanOk, TimerOk, Ids, After, SomeReady, SomeFires, AllMarked;
    AltOf(k, k.wptr);
    if k.wptr in k.timerq {
      var i: nat :| i < |k.timerq| && k.timerq[i] == k.wptr;
      MemberLink(k, i);
    }
  }

  /** What taltwt may take for granted. */
  lemma TimedFacts(k: K, now: Word, later: Word)
    requires Inv(k) && TimedWaitAllowed(k, now, later)
    ensures Core(k) && InHand(k, k.wptr) && Hand(k.place, {k.wptr}) && InAlt(k, Enabling)
    ensures k.alt[k.wptr].timed && (Rd(k.tlink, k.wptr) == TIME_SET || Rd(k.tlink, k.wptr) == TIME_NOT_SET)
    ensures Rd(k.tlink, k.wptr) == TIME_NOT_SET ==> NoTimers(k.alt[k.wptr].left)
    ensures !GoesOn(k, now) && Rd(k.tlink, k.wptr) == TIME_NOT_SET ==> OnTime(k, later)
    ensures !GoesOn(k, now) && Rd(k.tlink, k.wptr) != TIME_NOT_SET ==>
              Timely(k.time, k.timerq, Add(Rd(k.time, k.wptr), 1)) && Timely(SleepTimed(k).time, SleepTimed(k).timerq, later)
  {
    hide Core, Hand, Timely, NoTimers, SleepTimed, GoesOn;
    CurrentInHand(k);
    UntimedLeft(k);
  }

  /** An enrolment that does not wrap round leaves room for the count too. */
  lemma EnrolFits(k: K, x: int, n: Word)
    requires Core(k) && x in k.bar
    ensures Add(k.bar[x].enrolled, n) < k.bar[x].enrolled <==> k.bar[x].enrolled + n >= W
    ensures k.bar[x].enrolled + n < W ==> Add(k.bar[x].enrolled, n) == k.bar[x].enrolled + n
    ensures k.bar[x].enrolled + n < W ==> Add(k.bar[x].count, n) == k.bar[x].count + n
    ensures k.bar[x].enrolled + n < W ==> k.bar[x].count + n < W
  {
    hide Core;
    BarFacts(k, x);
  }

  lemma StoppedReady(k: K)
    requires Inv(k) && Plain(k)
    ensures Core(Stopped(k)) && Hand(Stopped(k).place, {}) && Stopped(k).time == k.time && Stopped(k).timerq == k.timerq
  {
    hide Core, Inv, Hand;
    CurrentInHand(k);
    CoreSame(k, k.(iptr := k.iptr[k.wptr := k.ip]));
    MovedCore(k.(iptr := k.iptr[k.wptr := k.ip]), k.wptr, Dormant);
    QueuedHand(k.place, k.wptr, {k.wptr}, Dormant);
    assert {k.wptr} - {k.wptr} == {};
  }

  lemma EndedReady(k: K, w: int)
    requires Inv(k) && Plain(k) && w in k.par
    ensures Core(Ended(k, w)) && Hand(Ended(k, w).place, {}) && Ended(k, w).time == k.time && Ended(k, w).timerq == k.timerq
  {
    hide Core, Inv, Hand;
    CurrentInHand(k);
    MovedCore(k, k.wptr, Dormant);
    QueuedHand(k.place, k.wptr, {k.wptr}, Dormant);
    assert {k.wptr} - {k.wptr} == {};
    CoreSame(Moved(k, k.wptr, Dormant), Ended(k, w));
  }

  lemma RequeueReady(k: K)
    requires Inv(k) && k.wptr != 0
    ensures Core(Requeue(k)) && Hand(Requeue(k).place, {}) && Requeue(k).time == k.time && Requeue(k).timerq == k.timerq
  {
    hide Core, Inv, Hand, Requeue;
    CurrentInHand(k);
    RequeueCore(k, {k.wptr});
    assert {k.wptr} - {k.wptr} == {};
    RequeueTimers(k);
  }

  lemma ExtendedMeeting(k: K, c: int, buf: int, len: nat, later: Word)
    requires Core(k) && InHand(k, k.wptr) && ExtendedInAllowed(k, c, buf, len, later) && Rd(k.chan, c) != 1
    ensures Meeting(k, Rd(k.chan, c), false, buf, len) && Rd(k.chan, c) != 0
  {
    hide RunOk, WaitOk, ObjectsOk, ChanOk, AltsOk, TimerOk, Timely;
    PartnerFacts(k, Rd(k.chan, c), c, false, buf, len);
  }

  /** Emptied for the transfer, the channel word is put back. */
  lemma ExtendedMoves(k: K, c: int, buf: int, len: nat)
    requires Rd(k.chan, c) != 0
    ensures k.chan[c := 0][c := Rd(k.chan, c)] == k.chan
    ensures Moves(k, Rd(k.chan, c), false, buf, len) == Copy(k.data, buf, Rd(k.ptr, Rd(k.chan, c)), len)
  {
    hide Copy;
  }
}
