/** The scheduler over all instructions: what each instruction puts on the run queue, what
    becomes of the current process, and that the run queue is served in order. */
module KernelSchedule {
  import opened Words
  import opened KernelState
  import opened KernelFrames
  import opened KernelQueues
  import opened KernelTimers
  import opened KernelChannels
  import opened KernelAlts
  import opened KernelObjects
  import opened KernelProcs
  import opened KernelMachine
  import opened KernelRun
  import opened KernelPlaces

  // ---------------------------------------------------------------- what an instruction does

  /** How the channel word is found by a process that communicates on it. */
  datatype Meeting = Nobody | Cut | Marked(q: int) | Peer(q: int)

  function Meets(k: K, c: int): Meeting {
    var v := Rd(k.chan, c);
    if v == 0 then Nobody else if v == 1 then Cut else if v - 1 in k.place then Marked(v - 1) else Peer(v)
  }

  /** The processes an instruction puts on the run queue, in this order. */
  ghost function Added(k: K, i: Ins): seq<int> {
    match i
    case Io(c, _, _, _) => if Meets(k, c).Cut? || Meets(k, c).Peer? then [k.wptr] else []
    case SemRelease(x) => if x in k.waitq && k.waitq[x] != [] then [k.waitq[x][0]] else []
    case BarSync(x) => if Completes(k, i, x) then k.waitq[x] else []
    case BarResign(x, _) => if Completes(k, i, x) then k.waitq[x] else []
    case StartP(w, _) => [w]
    case RunP(w) => [w]
    case Reschedule => [k.wptr]
    case XIn(c, _, _) => if Meets(k, c).Cut? then [k.wptr] else []
    case XEnd(c) => if Meets(k, c).Cut? then [] else [Rd(k.chan, c)]
    case _ => []
  }

  /** A timed ALT has a guard that is ready, or its earliest timeout is in the past. */
  ghost predicate ReadyOrLate(k: K, now: Word) {
    Rd(k.ptr, k.wptr) == READY || (Rd(k.tlink, k.wptr) != TIME_NOT_SET && After(now, Rd(k.time, k.wptr)))
  }

  /** Where the current process is to be after an instruction. */
  ghost function Goes(k: K, e: Event): Place {
    match e.ins
    case Io(c, out, buf, len) =>
      (match Meets(k, c)
       case Nobody => Blocked(c, out, buf, len)
       case Marked(_) => Blocked(c, true, buf, len)
       case _ => Queued)
    case AltWait => if Rd(k.ptr, k.wptr) == READY then Running else Place.AltWait
    case TimedAltWait => if ReadyOrLate(k, e.now) then Running else Place.AltWait
    case Tin(t) => if After(e.now, t) then Running else TimerWait
    case SemClaim(x) => if x in k.holder && k.holder[x] == 0 then Running else InQueue(x)
    case BarSync(x) => if Completes(k, e.ins, x) then Running else InQueue(x)
    case StopP => Dormant
    case EndP(w) => if w in k.par && k.par[w].count == 1 && w == k.wptr then Running else Dormant
    case Reschedule => Queued
    case XAble(c) => if Meets(k, c).Nobody? then ExtWait(c) else Running
    case XIn(c, _, _) => if Meets(k, c).Cut? then Queued else Running
    case _ => Running
  }

  /** Who runs next when the scheduler is not asked: the partner met, the ALT that waited, the
      parent joined, or the current process. */
  ghost function HandsTo(k: K, i: Ins): int {
    match i
    case Io(c, _, _, _) => (match Meets(k, c) case Marked(q) => q case Peer(q) => q case _ => k.wptr)
    case EndP(w) => w
    case _ => k.wptr
  }

  /** The current process gives up the processor to nobody in particular. */
  ghost predicate Yields(k: K, e: Event) {
    match e.ins
    case Io(c, _, _, _) =>
      Meets(k, c).Nobody? || Meets(k, c).Cut? || (Meets(k, c).Marked? && Rd(k.ptr, Meets(k, c).q) != WAITING)
    case EndP(w) => !(w in k.par && k.par[w].count == 1)
    case Resume => true
    case _ => Goes(k, e) != Running
  }

  // ---------------------------------------------------------------- choosing what runs next

  /** The queue q is served: its head runs, or the processor idles. */
  ghost predicate Served(q: seq<int>, n: K, o: Outcome) {
    if q == [] then n.wptr == 0 && n.runq == [] && (o == Sleep || o == Empty)
    else o == Continue && n.wptr == q[0] && n.runq == q[1..]
  }

  /** The scheduler with the run queue q: processes the timers wake go behind it, and its head
      runs; an interrupt only stops the processor. */
  ghost predicate Scheduled(q: seq<int>, intr: bool, due: set<int>, n: K, o: Outcome) {
    if intr then o == Interrupted && n.wptr == 0 && n.runq == q
    else exists woken: seq<int> :: (forall p | p in woken :: p in due) && Served(q + woken, n, o)
  }

  lemma SchedulesNext(m: K, n: K, o: Outcome, now: Word)
    requires Core(m) && Timely(m.time, m.timerq, now) && RunsNext(m, n, o, now)
    ensures Scheduled(m.runq, m.intr, DueBy(m, now), n, o)
  {
    hide Core, Timely, DueBy, Walk, TakeNext;
    if !m.intr {
      var l := WalkExact(m, now);
      var woken := Sleepers(m.ptr, m.timerq[..l]);
      SleepersDue(m, now, l);
      WalkedIs(m, now);
      SyncedServed(m, n, o, now);
      assert Served(m.runq + woken, n, o);
    }
  }

  lemma WalkedIs(m: K, now: Word)
    ensures Synced(m, now).runq == Walk(m, now).runq
  {
    hide Walk;
  }

  lemma SyncedServed(m: K, n: K, o: Outcome, now: Word)
    requires Core(m) && Timely(m.time, m.timerq, now) && NextAfter(Synced(m, now), n, o)
    ensures Served(Synced(m, now).runq, n, o)
  {
    hide Core, Timely, Synced, Hand;
    SomeHand(m.place);
    var s :| Hand(m.place, s);
    SyncedCore(m, now, s);
    var w := Synced(m, now);
    if w.runq != [] { HeadTaken(w); }
  }

  lemma HeadTaken(w: K)
    requires Core(w) && w.runq != []
    ensures TakeNext(w).wptr == w.runq[0] && TakeNext(w).runq == w.runq[1..]
  {
    hide WaitOk, ObjectsOk, ChanOk, AltsOk, TimerOk, Ids;
    TakeRun(w);
  }

  lemma {:induction false} SleepersAmong(ptr: Slots, q: seq<int>)
    ensures forall p | p in Sleepers(ptr, q) :: p in q
  {
    if q != [] { SleepersAmong(ptr, q[1..]); }
  }

  lemma SleepersDue(m: K, now: Word, l: nat)
    requires l <= |m.timerq| && forall i: nat | i < l :: !After(Rd(m.time, m.timerq[i]), now)
    ensures forall p | p in Sleepers(m.ptr, m.timerq[..l]) :: p in DueBy(m, now)
  {
    hide After, Sleepers;
    SleepersAmong(m.ptr, m.timerq[..l]);
  }

  /** A process on the run queue, or due on the timer queue and not ready yet, is served or
      stays queued. */
  lemma ServedInTurn(m: K, n: K, o: Outcome, now: Word, p: int)
    requires Core(m) && Timely(m.time, m.timerq, now) && RunsNext(m, n, o, now)
    requires p in m.runq || (!m.intr && p in DueBy(m, now) && Rd(m.ptr, p) != READY)
    ensures p == n.wptr || p in n.runq
  {
    hide Core, Timely, DueBy, Walk, TakeNext;
    if !m.intr {
      var l := WalkExact(m, now);
      WalkedIs(m, now);
      SyncedServed(m, n, o, now);
      if p in DueBy(m, now) && Rd(m.ptr, p) != READY { WokenIn(m, now, l, p); }
      StillServed(Synced(m, now).runq, n, o, p);
    }
  }

  lemma StillServed(q: seq<int>, n: K, o: Outcome, p: int)
    requires Served(q, n, o) && p in q
    ensures p == n.wptr || p in n.runq
  {
    assert q == [q[0]] + q[1..];
  }

  lemma WokenIn(m: K, now: Word, l: nat, p: int)
    requires l <= |m.timerq| && (forall i: nat | i < |m.timerq| :: i < l <==> !After(Rd(m.time, m.timerq[i]), now))
    requires p in DueBy(m, now) && Rd(m.ptr, p) != READY
    ensures p in Sleepers(m.ptr, m.timerq[..l])
  {
    hide After, Sleepers;
    var i: nat :| i < |m.timerq| && m.timerq[i] == p;
    assert m.timerq[..l][i] == p;
    SleeperIn(m.ptr, m.timerq[..l], i);
  }

  lemma {:induction false} SleeperIn(ptr: Slots, q: seq<int>, i: nat)
    requires i < |q| && Rd(ptr, q[i]) != READY
    ensures q[i] in Sleepers(ptr, q)
  {
    if i > 0 { SleeperIn(ptr, q[1..], i - 1); }
  }

  // ---------------------------------------------------------------- before the next is chosen

  /** m is k with the current process gone to w and added behind the run queue. */
  ghost predicate Prepared(k: K, m: K, added: seq<int>, w: Place) {
    m.runq == k.runq + added && k.wptr in m.place && m.place[k.wptr] == w && m.intr == k.intr
  }

  ghost predicate SameTimers(k: K, m: K) { m.time == k.time && m.timerq == k.timerq }

  lemma ParkPrepares(k: K, c: int, out: bool, buf: int, len: nat)
    ensures Prepared(k, Block(k, c, out, buf, len), [], Blocked(c, out, buf, len)) && SameTimers(k, Block(k, c, out, buf, len))
    ensures Prepared(k, ExtendedWait(k, c), [], ExtWait(c)) && SameTimers(k, ExtendedWait(k, c))
  {
    hide Pending;
  }

  lemma RequeuePrepares(k: K, data: Slots)
    ensures var m := Requeue(k.(data := data)); Prepared(k, m, [k.wptr], Queued) && SameTimers(k, m)
  {
    hide Behind;
  }

  lemma StopPrepares(k: K)
    ensures Prepared(k, Stopped(k), [], Dormant) && SameTimers(k, Stopped(k))
  {}

  lemma EndPrepares(k: K, w: int)
    requires w in k.par
    ensures Prepared(k, Ended(k, w), [], Dormant) && SameTimers(k, Ended(k, w))
  {}

  lemma SignalPrepares(k: K, q: int, c: int, buf: int, len: nat)
    requires q in k.place && q != k.wptr
    ensures var m := Signal(k, q, c, buf, len); Prepared(k, m, [], Blocked(c, true, buf, len)) && SameTimers(k, m)
  {
    hide Woken, Pending;
  }

  lemma SleepPrepares(k: K)
    requires k.wptr in k.alt
    ensures var m := SleepAlt(k); Prepared(k, m, [], Place.AltWait) && SameTimers(k, m)
  {
    hide NextPhase;
  }

  lemma SleepTimedPrepares(k: K)
    requires k.wptr in k.alt
    ensures var m := SleepTimed(k); Prepared(k, m, [], Place.AltWait) && Rd(m.ptr, k.wptr) == WAITING
  {
    hide NextPhase, Slot, InsertAt, TimerLinkIn;
  }

  lemma WaitPrepares(k: K, t: Word)
    ensures var m := WaitTime(k, t); Prepared(k, m, [], TimerWait) && Rd(m.ptr, k.wptr) == 0
  {
    hide Slot, InsertAt, TimerLinkIn;
  }

  lemma ClaimPrepares(k: K, x: int)
    requires x in k.sem && x in k.waitq
    ensures var m := ClaimBusy(k, x); Prepared(k, m, [], InQueue(x)) && SameTimers(k, m)
  {
    hide Behind;
  }

  lemma SyncPrepares(k: K, x: int)
    requires x in k.bar && x in k.waitq && k.bar[x].count > 0
    ensures var m := SyncWait(k, x); Prepared(k, m, [], InQueue(x)) && SameTimers(k, m)
  {
    hide BarBehind;
  }

  /** The deadline of the process that parks itself has come already. */
  ghost predicate DueAtOnce(k: K, e: Event) {
    && !k.intr
    && match e.ins
       case Tin(t) => !After(e.now, t) && !After(t, e.later)
       case TimedAltWait =>
         !ReadyOrLate(k, e.now) && Rd(k.tlink, k.wptr) != TIME_NOT_SET && !After(Add(Rd(k.time, k.wptr), 1), e.later)
       case _ => false
  }

  /** p is where it went; one that was queued runs if it was chosen at once. */
  ghost predicate IsAt(n: K, p: int, w: Place) {
    p in n.place && n.place[p] == if w.Queued? && n.wptr == p then Running else w
  }

  /** What becomes of the run queue and of the current process. */
  ghost predicate Outcomes(k: K, e: Event, n: K, o: Outcome) {
    && (Yields(k, e) ==> Scheduled(k.runq + Added(k, e.ins), k.intr, DueBy(k, e.later) + {k.wptr}, n, o))
    && (!Yields(k, e) ==> n.runq == k.runq + Added(k, e.ins) && n.wptr == HandsTo(k, e.ins) && (o == Continue || o == Error))
    && (k.wptr != 0 ==> IsAt(n, k.wptr, if DueAtOnce(k, e) then Queued else Goes(k, e)))
  }

  /** The current process parked itself at w, away from the timers, and another one runs. */
  lemma Parks(k: K, m: K, n: K, o: Outcome, now: Word, added: seq<int>, w: Place)
    requires Core(m) && Timely(m.time, m.timerq, now) && RunsNext(m, n, o, now) && Inv(n)
    requires Prepared(k, m, added, w) && SameTimers(k, m) && k.wptr != 0
    requires w.Queued? ==> k.wptr in added
    requires !w.Queued? ==> Still(w) && !w.TimerWait? && (w.AltWait? ==> k.wptr !in k.timerq)
    ensures Scheduled(k.runq + added, k.intr, DueBy(k, now) + {k.wptr}, n, o) && IsAt(n, k.wptr, w)
  {
    hide Core, Inv, Timely, RunsNext, StillBut, DueBy;
    SchedulesNext(m, n, o, now);
    SameDue(k, m, now);
    MoreDue(m.runq, m.intr, DueBy(m, now), {k.wptr}, n, o);
    if w.Queued? {
      ServedInTurn(m, n, o, now, k.wptr);
      QueuedNow(n, k.wptr);
    } else {
      RunsNextStill(m, n, o, now);
      if k.wptr in DueBy(m, now) { DueMembers(m, k.wptr, now); }
      NotDue(k, now);
      Stayed(m, n, DueBy(m, now), k.wptr);
    }
  }

  lemma MoreDue(q: seq<int>, intr: bool, d: set<int>, e: set<int>, n: K, o: Outcome)
    requires Scheduled(q, intr, d, n, o)
    ensures Scheduled(q, intr, d + e, n, o)
  {
    hide Served;
  }

  lemma SameDue(k: K, m: K, now: int)
    requires SameTimers(k, m)
    ensures DueBy(m, now) == DueBy(k, now)
  {}

  lemma NotDue(k: K, now: int)
    ensures k.wptr !in k.timerq ==> k.wptr !in DueBy(k, now)
  {}

  lemma Stayed(m: K, n: K, d: set<int>, p: int)
    requires StillBut(m, n, d) && p in m.place && Still(m.place[p]) && p !in d
    ensures p in n.place && n.place[p] == m.place[p]
  {}

  lemma QueuedNow(n: K, p: int)
    requires Inv(n) && p != 0 && (p == n.wptr || p in n.runq)
    ensures IsAt(n, p, Queued)
  {
    hide WaitOk, ObjectsOk, ChanOk, AltsOk, TimerOk, Ids, Listed;
  }

  /** The current process went on the timer queue for time t, and another one runs. */
  lemma ParksUntil(k: K, m: K, n: K, o: Outcome, now: Word, w: Place, t: Word)
    requires Core(m) && Timely(m.time, m.timerq, now) && RunsNext(m, n, o, now) && Inv(n)
    requires Prepared(k, m, [], w) && (w.AltWait? || w.TimerWait?) && Inserted(k, m, k.wptr, t) && Rd(m.ptr, k.wptr) != READY
    requires k.wptr != 0
    ensures Scheduled(k.runq, k.intr, DueBy(k, now) + {k.wptr}, n, o)
    ensures IsAt(n, k.wptr, if !k.intr && !After(t, now) then Queued else w)
  {
    hide Core, Inv, Timely, StillBut, DueBy, Inserted, NextAfter;
    SchedulesNext(m, n, o, now);
    InsertedMore(k, m, k.wptr, t, now);
    DueWithin(m.runq, m.intr, DueBy(m, now), DueBy(k, now) + {k.wptr}, n, o);
    assert k.runq + [] == k.runq;
    if !k.intr && !After(t, now) {
      ServedInTurn(m, n, o, now, k.wptr);
      QueuedNow(n, k.wptr);
    } else if !k.intr {
      RunsNextStill(m, n, o, now);
      Stayed(m, n, DueBy(m, now), k.wptr);
    }
  }

  lemma InsertedMore(k: K, m: K, p: int, t: int, now: int)
    requires Inserted(k, m, p, t)
    ensures DueBy(m, now) <= DueBy(k, now) + {p} && (p in DueBy(m, now) <==> !After(t, now))
  {
    hide After, Slot, InsertAt, TimerLinkIn;
    InsertMembers(k.timerq, Slot(m.time, k.timerq, t), p);
  }

  lemma DueWithin(q: seq<int>, intr: bool, d: set<int>, e: set<int>, n: K, o: Outcome)
    requires Scheduled(q, intr, d, n, o) && d <= e
    ensures Scheduled(q, intr, e, n, o)
  {
    hide Served;
  }

  // ---------------------------------------------------------------- instruction by instruction

  lemma Yielded(k: K, e: Event, n: K, o: Outcome, added: seq<int>, w: Place)
    requires Yields(k, e) && Added(k, e.ins) == added && Goes(k, e) == w && !DueAtOnce(k, e)
    requires Scheduled(k.runq + added, k.intr, DueBy(k, e.later) + {k.wptr}, n, o) && IsAt(n, k.wptr, w)
    ensures Outcomes(k, e, n, o)
  {
    hide Yields, Added, Goes, DueAtOnce, Scheduled, IsAt, DueBy;
  }

  lemma Handed(k: K, e: Event, n: K, o: Outcome, added: seq<int>, w: Place, q: int)
    requires !Yields(k, e) && Added(k, e.ins) == added && Goes(k, e) == w && !DueAtOnce(k, e) && HandsTo(k, e.ins) == q
    requires n.runq == k.runq + added && n.wptr == q && (o == Continue || o == Error) && (k.wptr != 0 ==> IsAt(n, k.wptr, w))
    ensures Outcomes(k, e, n, o)
  {
    hide Yields, Added, Goes, DueAtOnce, Scheduled, IsAt, DueBy, HandsTo;
  }

  /** What a communication is to do, by what is in the channel word. */
  lemma IoPlan(k: K, e: Event)
    requires e.ins.Io?
    ensures !DueAtOnce(k, e)
    ensures var i, v := e.ins, Rd(k.chan, e.ins.c);
            && (v == 0 ==> Yields(k, e) && Added(k, i) == [] && Goes(k, e) == Blocked(i.c, i.out, i.buf, i.len))
            && (v == 1 ==> Yields(k, e) && Added(k, i) == [k.wptr] && Goes(k, e) == Queued)
    ensures var i, v := e.ins, Rd(k.chan, e.ins.c);
            v != 0 && v != 1 && v - 1 in k.place ==>
              && (Yields(k, e) <==> Rd(k.ptr, v - 1) != WAITING)
              && Added(k, i) == [] && Goes(k, e) == Blocked(i.c, true, i.buf, i.len) && HandsTo(k, i) == v - 1
    ensures var i, v := e.ins, Rd(k.chan, e.ins.c);
            v != 0 && v != 1 && v - 1 !in k.place ==>
              !Yields(k, e) && Added(k, i) == [k.wptr] && Goes(k, e) == Queued && HandsTo(k, i) == v
  {}

  lemma IoOutcome(k: K, n: K, o: Outcome, c: int, out: bool, buf: int, len: nat, e: Event)
    requires Inv(k) && e.ins == Io(c, out, buf, len) && IoAllowed(k, c, out, buf, len, e.later)
    requires IoStep(k, n, o, c, out, buf, len, e.later) && Inv(n)
    ensures Outcomes(k, e, n, o)
  {
    hide Core, Inv, Hand, Block, Requeue, Load, Signal, Release, RunsNext, Alting, Partner, Zeroed, Moves, InHand, Timely,
         Prepared, Scheduled, IsAt, Outcomes, Yields, Added, Goes, HandsTo, DueAtOnce, DueBy;
    var v := Rd(k.chan, c);
    CurrentInHand(k);
    IoPlan(k, e);
    if v == 0 {
      BlockCore(k, c, out, buf, len);
      ParkPrepares(k, c, out, buf, len);
      Parks(k, Block(k, c, out, buf, len), n, o, e.later, [], Blocked(c, out, buf, len));
      Yielded(k, e, n, o, [], Blocked(c, out, buf, len));
    } else if v == 1 {
      DisconnectedMoves(k, n, o, if out then k.data else Zeroed(k.data, buf, len), e.later);
      Yielded(k, e, n, o, [k.wptr], Queued);
    } else if Alting(k.place, k.alt, v - 1, c) {
      AlterState(k, v - 1, c);
      SignalCore(k, v - 1, c, buf, len);
      SignalPrepares(k, v - 1, c, buf, len);
      if Rd(k.ptr, v - 1) == WAITING {
        SignalLoaded(k, v - 1, c, buf, len);
        PlacedAt(n, k.wptr, Blocked(c, true, buf, len));
        Handed(k, e, n, o, [], Blocked(c, true, buf, len), v - 1);
      } else {
        Parks(k, Signal(k, v - 1, c, buf, len), n, o, e.later, [], Blocked(c, true, buf, len));
        Yielded(k, e, n, o, [], Blocked(c, true, buf, len));
      }
    } else {
      PartnerFacts(k, v, c, out, buf, len);
      MeetLoaded(k, v, c, Moves(k, v, out, buf, len));
      QueuedAt(n, k.wptr);
      Handed(k, e, n, o, [k.wptr], Queued, v);
    }
  }

  lemma QueuedAt(n: K, p: int)
    requires p in n.place && n.place[p] == Queued && n.wptr != p
    ensures IsAt(n, p, Queued)
  {}

  lemma PlacedAt(n: K, p: int, w: Place)
    requires p in n.place && n.place[p] == w && !w.Queued?
    ensures IsAt(n, p, w)
  {}

  lemma DisconnectedMoves(k: K, n: K, o: Outcome, data: Slots, later: Word)
    requires Core(k) && InHand(k, k.wptr) && Hand(k.place, {k.wptr}) && Timely(k.time, k.timerq, later) && k.wptr != 0
    requires RunsNext(Requeue(k.(data := data)), n, o, later) && Inv(n)
    ensures Scheduled(k.runq + [k.wptr], k.intr, DueBy(k, later) + {k.wptr}, n, o) && IsAt(n, k.wptr, Queued)
  {
    hide Core, Inv, Hand, Requeue, RunsNext, Timely, Prepared, Scheduled, IsAt, DueBy;
    var m := k.(data := data);
    CoreSame(k, m);
    RequeueCore(m, {k.wptr});
    RequeuePrepares(k, data);
    Parks(k, Requeue(m), n, o, later, [k.wptr], Queued);
  }

  lemma SignalLoaded(k: K, q: int, c: int, buf: int, len: nat)
    requires q in k.place && q != k.wptr
    ensures var n := Load(Signal(k, q, c, buf, len), q);
            n.runq == k.runq && n.wptr == q && k.wptr in n.place && n.place[k.wptr] == Blocked(c, true, buf, len)
  {
    hide Woken, Pending;
  }

  lemma MeetLoaded(k: K, q: int, c: int, data: Slots)
    requires q != k.wptr
    ensures var n := Load(Requeue(Release(k, q, c, data)), q);
            n.runq == k.runq + [k.wptr] && n.wptr == q && k.wptr in n.place && n.place[k.wptr] == Queued
  {
    hide Behind;
  }

  lemma WaitOutcome(k: K, n: K, o: Outcome, e: Event)
    requires Inv(k) && Inv(n) && e.ins.AltWait? && WaitAllowed(k, e.later) && WaitStep(k, n, o, e.later)
    ensures Outcomes(k, e, n, o)
  {
    hide Core, Inv, Hand, SleepAlt, RunsNext, Timely, NoTimers, NextPhase, Prepared, Scheduled, IsAt, Outcomes, DueBy;
    CurrentInHand(k);
    if Rd(k.ptr, k.wptr) == READY {
      StaysRunning(k, n);
      Handed(k, e, n, o, [], Running, k.wptr);
    } else {
      UntimedLeft(k);
      SleepAltCore(k);
      SleepPrepares(k);
      EnablerOffQueue(k);
      Parks(k, SleepAlt(k), n, o, e.later, [], Place.AltWait);
      Yielded(k, e, n, o, [], Place.AltWait);
    }
  }

  lemma StaysRunning(k: K, n: K)
    requires Inv(n) && n.wptr == k.wptr != 0
    ensures IsAt(n, k.wptr, Running) && (n.runq == k.runq ==> n.runq == k.runq + [])
  {
    hide Core;
  }

  lemma TimedWaitOutcome(k: K, n: K, o: Outcome, e: Event)
    requires Inv(k) && Inv(n) && e.ins.TimedAltWait? && TimedWaitAllowed(k, e.now, e.later)
    requires TimedWaitStep(k, n, o, e.now, e.later)
    ensures Outcomes(k, e, n, o)
  {
    hide Core, Inv, Hand, SleepAlt, SleepTimed, RunsNext, Timely, NoTimers, NextPhase, Prepared, Scheduled, IsAt, Outcomes, DueBy,
         GoesOn, ReadyOrLate, After, Inserted;
    CurrentInHand(k);
    UntimedLeft(k);
    SameCondition(k, e.now);
    if GoesOn(k, e.now) {
      StaysRunning(k, n);
      Handed(k, e, n, o, [], Running, k.wptr);
    } else if Rd(k.tlink, k.wptr) != TIME_NOT_SET {
      NotGoing(k, e.now);
      SleepTimedCore(k);
      SleepTimedPrepares(k);
      SleepTimedSlots(k);
      ParksUntil(k, SleepTimed(k), n, o, e.later, Place.AltWait, Add(Rd(k.time, k.wptr), 1));
      YieldedUntil(k, e, n, o, Place.AltWait);
    } else {
      NotGoing(k, e.now);
      SleepAltCore(k);
      SleepPrepares(k);
      EnablerOffQueue(k);
      Parks(k, SleepAlt(k), n, o, e.later, [], Place.AltWait);
      Yielded(k, e, n, o, [], Place.AltWait);
    }
  }

  lemma SameCondition(k: K, now: Word)
    ensures GoesOn(k, now) <==> ReadyOrLate(k, now)
  {
    hide After;
  }

  lemma NotGoing(k: K, now: Word)
    requires !GoesOn(k, now)
    ensures Rd(k.ptr, k.wptr) != READY
  {
    hide After;
  }

  lemma YieldedUntil(k: K, e: Event, n: K, o: Outcome, w: Place)
    requires Yields(k, e) && Added(k, e.ins) == [] && Goes(k, e) == w
    requires Scheduled(k.runq, k.intr, DueBy(k, e.later) + {k.wptr}, n, o) && IsAt(n, k.wptr, if DueAtOnce(k, e) then Queued else w)
    ensures Outcomes(k, e, n, o)
  {
    hide Yields, Added, Goes, DueAtOnce, Scheduled, IsAt, DueBy;
    assert k.runq + [] == k.runq;
  }

  lemma TinOutcome(k: K, n: K, o: Outcome, t: Word, e: Event)
    requires Inv(k) && Inv(n) && e.ins == Tin(t) && TinAllowed(k, t, e.now, e.later) && TinStep(k, n, o, t, e.now, e.later)
    ensures Outcomes(k, e, n, o)
  {
    hide Core, Inv, Hand, WaitTime, RunsNext, Timely, After, Prepared, Scheduled, IsAt, Outcomes, DueBy, Inserted;
    CurrentInHand(k);
    if After(e.now, t) {
      StaysRunning(k, n);
      Handed(k, e, n, o, [], Running, k.wptr);
    } else {
      WaitTimeCore(k, t);
      WaitPrepares(k, t);
      WaitTimeInserted(k, t);
      ParksUntil(k, WaitTime(k, t), n, o, e.later, TimerWait, t);
      YieldedUntil(k, e, n, o, TimerWait);
    }
  }

  lemma ClaimOutcome(k: K, n: K, o: Outcome, x: int, e: Event)
    requires Inv(k) && Inv(n) && e.ins == SemClaim(x) && ClaimAllowed(k, x, e.later) && ClaimStep(k, n, o, x, e.later)
    ensures Outcomes(k, e, n, o)
  {
    hide Core, Inv, Hand, ClaimBusy, RunsNext, Timely, Prepared, Scheduled, IsAt, Outcomes, DueBy;
    CurrentInHand(k);
    FreeIsFree(k, x);
    if k.sem[x].fptr == 1 {
      StaysRunning(k, n);
      Handed(k, e, n, o, [], Running, k.wptr);
    } else {
      ClaimBusyCore(k, x);
      ClaimPrepares(k, x);
      Parks(k, ClaimBusy(k, x), n, o, e.later, [], InQueue(x));
      Yielded(k, e, n, o, [], InQueue(x));
    }
  }

  lemma SyncOutcome(k: K, n: K, o: Outcome, x: int, e: Event)
    requires Inv(k) && Inv(n) && e.ins == BarSync(x) && SyncAllowed(k, x, e.later) && SyncStep(k, n, o, x, e.later)
    ensures Outcomes(k, e, n, o)
  {
    hide Core, Inv, Hand, SyncWait, Complete, RunsNext, Timely, Prepared, Scheduled, IsAt, Outcomes, DueBy;
    CurrentInHand(k);
    BarEnds(k, x);
    if k.bar[x].count > 1 {
      SyncWaitCore(k, x);
      SyncPrepares(k, x);
      Parks(k, SyncWait(k, x), n, o, e.later, [], InQueue(x));
      Yielded(k, e, n, o, [], InQueue(x));
    } else {
      CompleteIs(k, x, k.bar[x].enrolled);
      CompleteCurrent(k, x, k.bar[x].enrolled);
      StaysRunning(k, n);
      Handed(k, e, n, o, k.waitq[x], Running, k.wptr);
    }
  }

  lemma ResignOutcome(k: K, n: K, o: Outcome, x: int, m: Word, e: Event)
    requires Inv(k) && Inv(n) && e.ins == BarResign(x, m) && k.wptr != 0 && x in k.bar && x in k.waitq && ResignStep(k, n, o, x, m)
    ensures Outcomes(k, e, n, o)
  {
    hide Core, Inv, Hand, Complete, Scheduled, IsAt, Outcomes, DueBy;
    CurrentInHand(k);
    BarEnds(k, x);
    if m == k.bar[x].count {
      CompleteIs(k, x, k.bar[x].enrolled - m);
      CompleteCurrent(k, x, k.bar[x].enrolled - m);
      StaysRunning(k, n);
      Handed(k, e, n, o, k.waitq[x], Running, k.wptr);
    } else {
      StaysRunning(k, n);
      Handed(k, e, n, o, [], Running, k.wptr);
    }
  }

  lemma StopOutcome(k: K, n: K, o: Outcome, e: Event)
    requires Inv(k) && Inv(n) && e.ins.StopP? && YieldAllowed(k, e.later) && RunsNext(Stopped(k), n, o, e.later)
    ensures Outcomes(k, e, n, o)
  {
    hide Core, Inv, Hand, RunsNext, Timely, Prepared, Scheduled, IsAt, Outcomes, DueBy, Stopped;
    StoppedCore(k);
    StopPrepares(k);
    Parks(k, Stopped(k), n, o, e.later, [], Dormant);
    Yielded(k, e, n, o, [], Dormant);
  }

  lemma StoppedCore(k: K)
    requires Inv(k) && Plain(k)
    ensures Core(Stopped(k))
  {
    hide Core, Inv, Hand;
    CurrentInHand(k);
    var m := k.(iptr := k.iptr[k.wptr := k.ip]);
    CoreSame(k, m);
    MovedCore(m, k.wptr, Dormant);
  }

  lemma EndOutcome(k: K, n: K, o: Outcome, w: int, e: Event)
    requires Inv(k) && Inv(n) && e.ins == EndP(w) && EndAllowed(k, w, e.later) && EndStep(k, n, o, w, e.later)
    ensures Outcomes(k, e, n, o)
  {
    hide Core, Inv, Hand, RunsNext, Timely, Prepared, Scheduled, IsAt, Outcomes, DueBy, Ended;
    CurrentInHand(k);
    if k.par[w].count == 1 {
      JoinedPlaces(k, w);
      if w == k.wptr { StaysRunning(k, n); } else { PlacedAt(n, k.wptr, Dormant); }
      Handed(k, e, n, o, [], if w == k.wptr then Running else Dormant, w);
    } else {
      MovedCore(k, k.wptr, Dormant);
      EndedSame(k, w);
      CoreSame(Moved(k, k.wptr, Dormant), Ended(k, w));
      EndPrepares(k, w);
      Parks(k, Ended(k, w), n, o, e.later, [], Dormant);
      Yielded(k, e, n, o, [], Dormant);
    }
  }

  lemma EndedSame(k: K, w: int)
    requires w in k.par
    ensures SameCoreFields(Moved(k, k.wptr, Dormant), Ended(k, w))
  {}

  lemma JoinedPlaces(k: K, w: int)
    requires w in k.par
    ensures var n := Joined(k, w); n.runq == k.runq + [] && n.wptr == w
    ensures var n := Joined(k, w); w != k.wptr ==> k.wptr in n.place && n.place[k.wptr] == Dormant
  {}

  lemma RescheduleOutcome(k: K, n: K, o: Outcome, e: Event)
    requires Inv(k) && Inv(n) && e.ins.Reschedule? && k.wptr != 0 && OnTime(k, e.later) && RunsNext(Requeue(k), n, o, e.later)
    ensures Outcomes(k, e, n, o)
  {
    hide Core, Inv, Hand, Requeue, RunsNext, Timely, Scheduled, IsAt, Outcomes, DueBy;
    CurrentInHand(k);
    assert k.(data := k.data) == k;
    DisconnectedMoves(k, n, o, k.data, e.later);
    Yielded(k, e, n, o, [k.wptr], Queued);
  }

  lemma XAbleOutcome(k: K, n: K, o: Outcome, c: int, e: Event)
    requires Inv(k) && Inv(n) && e.ins == XAble(c) && YieldAllowed(k, e.later) && ExtendedStep(k, n, o, c, e.later)
    ensures Outcomes(k, e, n, o)
  {
    hide Core, Inv, Hand, ExtendedWait, RunsNext, Timely, Prepared, Scheduled, IsAt, Outcomes, DueBy, Block;
    CurrentInHand(k);
    if Rd(k.chan, c) == 0 {
      ExtendedWaitCore(k, c);
      ParkPrepares(k, c, false, 0, 0);
      Parks(k, ExtendedWait(k, c), n, o, e.later, [], ExtWait(c));
      Yielded(k, e, n, o, [], ExtWait(c));
    } else {
      StaysRunning(k, n);
      Handed(k, e, n, o, [], Running, k.wptr);
    }
  }

  lemma XInOutcome(k: K, n: K, o: Outcome, c: int, buf: int, len: nat, e: Event)
    requires Inv(k) && Inv(n) && e.ins == XIn(c, buf, len) && ExtendedInAllowed(k, c, buf, len, e.later)
    requires ExtendedInStep(k, n, o, c, buf, len, e.later)
    ensures Outcomes(k, e, n, o)
  {
    hide Core, Inv, Hand, RunsNext, Timely, Requeue, Zeroed, Moves, Partner, Scheduled, IsAt, Outcomes, DueBy;
    CurrentInHand(k);
    if Rd(k.chan, c) == 1 {
      DisconnectedMoves(k, n, o, Zeroed(k.data, buf, len), e.later);
      Yielded(k, e, n, o, [k.wptr], Queued);
    } else {
      StaysRunning(k, n);
      Handed(k, e, n, o, [], Running, k.wptr);
    }
  }

  /** The current process stays, and the run queue grows by these. */
  ghost predicate Grows(k: K, n: K, added: seq<int>) { n.wptr == k.wptr && n.runq == k.runq + added }

  lemma EnableGrows(k: K, n: K, g: Guard)
    requires k.wptr in k.alt && EnableStep(k, n, g)
    ensures Grows(k, n, [])
  {
    hide More, After;
  }

  lemma DisableGrows(k: K, n: K, g: Guard, process: int)
    requires k.wptr in k.alt && DisableStep(k, n, g, process)
    ensures Grows(k, n, [])
  {
    hide Less, Select, After, CancelTimer;
    if g.TimerGuard? && k.wptr in k.timerq {
      var i: nat :| i < |k.timerq| && k.timerq[i] == k.wptr && n == CancelTimer(k, i, g.t);
      CancelGrows(k, i, g.t);
    }
  }

  lemma CancelGrows(k: K, i: nat, t: Word)
    requires i < |k.timerq| && k.wptr in k.alt
    ensures Grows(k, CancelTimer(k, i, t), [])
  {}

  lemma SetupGrows(k: K, x: int, m: Word, timed: bool, w: int, resume: int)
    ensures Grows(k, NewSem(k, x), [])
    ensures Grows(k, NewBar(k, x, m), [])
    ensures Grows(k, StartAlt(k, timed), [])
    ensures Grows(k, ParStarted(k, w, m, resume), [])
    ensures Grows(k, EndAlt(k), [])
  {}

  lemma EnrolGrows(k: K, n: K, o: Outcome, x: int, m: Word)
    requires x in k.bar && EnrolStep(k, n, o, x, m)
    ensures Grows(k, n, []) && (o == Continue || o == Error)
  {}

  lemma StartGrows(k: K, w: int, iptr: Slots)
    ensures Grows(k, Started(k, w, iptr), [w])
  {
    hide Behind;
  }

  lemma ReleaseGrows(k: K, n: K, x: int)
    requires Inv(k) && ReleaseAllowed(k, x) && ReleaseStep(k, n, x)
    ensures Grows(k, n, if k.waitq[x] != [] then [k.waitq[x][0]] else [])
  {
    hide Core, Hand, HandOver, Enqueue;
    FreeIsFree(k, x);
    if k.sem[x].fptr == 0 {
      WaitersZero(k, x);
      FreedGrows(k, x);
    } else {
      PassedGrows(k, x);
    }
  }

  lemma FreedGrows(k: K, x: int)
    requires x in k.sem
    ensures Grows(k, ReleaseFree(k, x), [])
  {}

  lemma PassedGrows(k: K, x: int)
    requires x in k.sem && x in k.waitq && k.waitq[x] != []
    ensures Grows(k, Enqueue(HandOver(k, x), k.sem[x].fptr), [k.sem[x].fptr])
  {
    hide Behind;
  }

  lemma XEndGrows(k: K, n: K, c: int)
    requires ExtendedEndStep(k, n, c)
    ensures Grows(k, n, if Rd(k.chan, c) == 1 then [] else [Rd(k.chan, c)])
  {
    hide Enqueue, Release;
    LetGoGrows(k, Rd(k.chan, c), c);
  }

  lemma LetGoGrows(k: K, q: int, c: int)
    ensures Grows(k, Enqueue(Release(k, q, c, k.data), q), [q])
  {
    hide Behind;
  }

  lemma AltEndGrows(k: K, n: K, o: Outcome)
    requires AltEndStep(k, n, o)
    ensures Grows(k, n, []) && (o == Continue || o == Error)
  {}

  lemma Grown(k: K, e: Event, n: K, o: Outcome, added: seq<int>)
    requires Inv(n) && Quick(e.ins) && !e.ins.BarResign? && k.wptr != 0 && Grows(k, n, added) && Added(k, e.ins) == added
    requires o == Continue || o == Error
    ensures Outcomes(k, e, n, o)
  {
    hide Inv, Added, Outcomes, Scheduled, IsAt, DueBy;
    StaysRunning(k, n);
    Handed(k, e, n, o, added, Running, k.wptr);
  }

  lemma QuickOutcome(k: K, e: Event, n: K, o: Outcome)
    requires Inv(k) && Inv(n) && Allowed(k, e) && Step(k, e, n, o) && Quick(e.ins) && !e.ins.BarResign?
    ensures Outcomes(k, e, n, o)
  {
    hide Inv, AltStartAllowed, InitAllowed, StartAllowed, ExtendedEndAllowed, EnableStep, DisableStep, ReleaseStep,
         ExtendedEndStep, AltEndStep, EnrolStep, NewSem, NewBar, StartAlt, Started, InHand, OnlyReader, ParStarted, Grows,
         Outcomes;
    QuickCurrent(k, e);
    match e.ins {
      case Enable(g) => EnableGrows(k, n, g);
      case Disable(g, process) => DisableGrows(k, n, g, process);
      case SemRelease(x) => ReleaseGrows(k, n, x);
      case BarEnroll(x, m) => EnrolGrows(k, n, o, x, m);
      case StartP(w, entry) => StartGrows(k, w, k.iptr[w := entry]);
      case RunP(w) => StartGrows(k, w, k.iptr);
      case XEnd(c) => XEndGrows(k, n, c);
      case AltEnd => AltEndGrows(k, n, o);
      case AltStart(timed) => SetupGrows(k, 0, 0, timed, 0, 0);
      case SemInit(x) => SetupGrows(k, x, 0, false, 0, 0);
      case BarInit(x, m) => SetupGrows(k, x, m, false, 0, 0);
      case ParStart(w, m, resume) => SetupGrows(k, 0, m, false, w, resume);
    }
    Grown(k, e, n, o, Added(k, e.ins));
  }

  lemma QuickCurrent(k: K, e: Event)
    requires Allowed(k, e) && Quick(e.ins)
    ensures k.wptr != 0
  {
    hide OnlyReader, InHand, Unguarded, Parked, OnTime;
  }

  lemma ResumeOutcome(k: K, n: K, o: Outcome, e: Event)
    requires Inv(k) && e.ins.Resume? && k.wptr == 0 && OnTime(k, e.later) && RunsNext(k, n, o, e.later)
    ensures Outcomes(k, e, n, o)
  {
    hide Core, Hand, RunsNext, Timely, Scheduled, IsAt, DueBy;
    SchedulesNext(k, n, o, e.later);
    DueWithin(k.runq, k.intr, DueBy(k, e.later), DueBy(k, e.later) + {k.wptr}, n, o);
    assert k.runq + [] == k.runq;
  }

  /** The scheduling of every instruction: what joins the run queue, who runs next, and where
      the current process is then. */
  lemma StepOutcome(k: K, e: Event, n: K, o: Outcome)
    requires Inv(k) && Allowed(k, e) && Step(k, e, n, o)
    ensures Outcomes(k, e, n, o)
  {
    hide Inv, IoAllowed, WaitAllowed, TimedWaitAllowed, TinAllowed, ClaimAllowed, SyncAllowed, EndAllowed, Outcomes,
         YieldAllowed, ExtendedInAllowed, OnTime, IoStep, WaitStep, TimedWaitStep, TinStep, ClaimStep, SyncStep, EndStep, RunsNext,
         ExtendedStep, ExtendedInStep, ResignStep, Stopped, Requeue;
    StepKeeps(k, e, n, o);
    if Quick(e.ins) && !e.ins.BarResign? {
      hide Allowed, Step;
      QuickOutcome(k, e, n, o);
      return;
    }
    match e.ins
    case Io(c, out, buf, len) => IoOutcome(k, n, o, c, out, buf, len, e);
    case AltWait => WaitOutcome(k, n, o, e);
    case TimedAltWait => TimedWaitOutcome(k, n, o, e);
    case Tin(t) => TinOutcome(k, n, o, t, e);
    case SemClaim(x) => ClaimOutcome(k, n, o, x, e);
    case BarSync(x) => SyncOutcome(k, n, o, x, e);
    case BarResign(x, m) => ResignOutcome(k, n, o, x, m, e);
    case EndP(w) => EndOutcome(k, n, o, w, e);
    case StopP => StopOutcome(k, n, o, e);
    case Reschedule => RescheduleOutcome(k, n, o, e);
    case XAble(c) => XAbleOutcome(k, n, o, c, e);
    case XIn(c, buf, len) => XInOutcome(k, n, o, c, buf, len, e);
    case Resume => ResumeOutcome(k, n, o, e);
  }

  /** A process that waits for a time that has not come stays on the timer queue with it. */
  lemma TinWaits(k: K, n: K, o: Outcome, t: Word, e: Event)
    requires Inv(k) && e.ins == Tin(t) && TinAllowed(k, t, e.now, e.later) && TinStep(k, n, o, t, e.now, e.later)
    requires !After(e.now, t) && (k.intr || After(t, e.later))
    ensures k.wptr in n.place && n.place[k.wptr] == TimerWait && k.wptr in n.timerq && Rd(n.time, k.wptr) == t
  {
    hide Core, Inv, Hand, WaitTime, RunsNext, Timely, After, Scheduled, DueBy, Inserted, Added, Yields, HandsTo;
    CurrentInHand(k);
    TinKeeps(k, n, o, t, e.now, e.later);
    TinOutcome(k, n, o, t, e);
    OnePlace(n, k.wptr);
    WaitTimeCore(k, t);
    WaitTimeInserted(k, t);
    InsertedMore(k, WaitTime(k, t), k.wptr, t, e.later);
    DeadlineSet(k, WaitTime(k, t), k.wptr, t);
    SameIntr(k, t);
    RunsNextTime(WaitTime(k, t), n, o, e.later, k.wptr);
  }

  lemma SameIntr(k: K, t: Word)
    ensures WaitTime(k, t).intr == k.intr
  {
    hide Slot, InsertAt, TimerLinkIn;
  }

  lemma DeadlineSet(k: K, m: K, p: int, t: int)
    requires Inserted(k, m, p, t)
    ensures Rd(m.time, p) == t
  {
    hide After, Slot, InsertAt, TimerLinkIn;
  }

  /** The deadline of a process that is not due stays. */
  lemma RunsNextTime(k: K, n: K, o: Outcome, now: Word, p: int)
    requires Core(k) && RunsNext(k, n, o, now) && (k.intr || p !in DueBy(k, now))
    ensures Rd(n.time, p) == Rd(k.time, p)
  {
    hide Core, Walk, DueBy;
    if !k.intr { WalkTime(k, now, p); }
  }

  lemma {:induction false} WalkTime(k: K, now: Word, p: int)
    requires p !in DueBy(k, now)
    ensures Rd(Walk(k, now).time, p) == Rd(k.time, p)
    decreases |k.timerq|
  {
    hide Fire, After;
    if k.timerq != [] && !After(Rd(k.time, k.timerq[0]), now) {
      FireQueues(k, now);
      WalkTime(Fire(k, now), now, p);
    }
  }

  // ---------------------------------------------------------------- the run queue is served in order

  /** The step took the head of the run queue. */
  ghost predicate Dispatches(k: K, e: Event, n: K) { Yields(k, e) && !k.intr && n.wptr != 0 }

  lemma QueueStep(k: K, e: Event, n: K)
    requires Inv(k) && Follows(k, e, n) && k.runq != []
    ensures !Dispatches(k, e, n) ==> k.runq <= n.runq
    ensures Dispatches(k, e, n) ==> n.wptr == k.runq[0] && k.runq[1..] <= n.runq
  {
    hide Inv, Allowed, Step, IsAt, DueBy, Yields, Added, Goes, HandsTo, DueAtOnce;
    var o :| Step(k, e, n, o);
    StepOutcome(k, e, n, o);
    QueueNonZero(k);
    if Yields(k, e) { QueueServed(k, k.runq + Added(k, e.ins), DueBy(k, e.later) + {k.wptr}, n, o); }
  }

  lemma QueueNonZero(k: K)
    requires Inv(k) && k.runq != []
    ensures k.runq[0] != 0
  {
    hide WaitOk, ObjectsOk, ChanOk, AltsOk, TimerOk, Listed;
    assert k.runq[0] in k.runq;
  }

  lemma QueueServed(k: K, q: seq<int>, due: set<int>, n: K, o: Outcome)
    requires Scheduled(q, k.intr, due, n, o) && k.runq <= q && k.runq != [] && k.runq[0] != 0
    ensures k.intr ==> n.wptr == 0 && k.runq <= n.runq
    ensures !k.intr ==> n.wptr == k.runq[0] && k.runq[1..] <= n.runq
  {
    if !k.intr {
      var woken: seq<int> :| (forall p | p in woken :: p in due) && Served(q + woken, n, o);
      assert (q + woken)[1..] == q[1..] + woken;
    }
  }

  /** The dispatches among the steps from state i up to state j. */
  ghost function Turns(states: seq<K>, events: seq<Event>, i: nat, j: nat): (r: nat)
    requires |states| == |events| + 1 && i <= j < |states|
    ensures r <= j - i
    decreases j
  {
    if i == j then 0
    else Turns(states, events, i, j - 1) + if Dispatches(states[j - 1], events[j - 1], states[j]) then 1 else 0
  }

  /** In every run the run queue is served in order: after d dispatches the first d of those
      queued have run, and the others wait in front of all who were queued since. */
  lemma {:induction false} ServedInOrder(states: seq<K>, events: seq<Event>, i: nat, j: nat)
    requires Run(states, events) && Inv(states[0]) && i <= j < |states|
    requires Turns(states, events, i, j) <= |states[i].runq|
    ensures states[i].runq[Turns(states, events, i, j)..] <= states[j].runq
    decreases j
  {
    hide Inv, Allowed, Step, Follows, Dispatches;
    if i < j {
      var q, d := states[i].runq, Turns(states, events, i, j - 1);
      ServedInOrder(states, events, i, j - 1);
      if d < |q| {
        RunKeeps(states, events, j - 1);
        assert Follows(states[j - 1], events[j - 1], states[j]);
        QueueStep(states[j - 1], events[j - 1], states[j]);
        assert q[d..][1..] == q[d + 1..];
      }
    }
  }

  /** The process at place d of the run queue is the one taken by dispatch d. */
  lemma RunsInTurn(states: seq<K>, events: seq<Event>, i: nat, j: nat)
    requires Run(states, events) && Inv(states[0]) && i <= j < |events|
    requires Turns(states, events, i, j) < |states[i].runq| && Dispatches(states[j], events[j], states[j + 1])
    ensures states[j + 1].wptr == states[i].runq[Turns(states, events, i, j)]
  {
    hide Inv, Allowed, Step, Follows, Dispatches;
    ServedInOrder(states, events, i, j);
    RunKeeps(states, events, j);
    assert Follows(states[j], events[j], states[j + 1]);
    QueueStep(states[j], events[j], states[j + 1]);
  }
}
