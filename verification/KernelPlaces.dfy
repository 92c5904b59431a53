/** Every process is in exactly one place, and a parked process is moved only by the
    instruction meant to move it. */
module KernelPlaces {
  import opened Words
  import opened KernelState
  import opened KernelFrames
  import opened KernelQueues
  import opened KernelTimers
  import opened KernelChannels
  import opened KernelAlts
  import opened KernelObjects
  import opened KernelProcs
  import opened KernelMachine
  import opened KernelRun

  // ---------------------------------------------------------------- exactly one place

  /** Which structure of the kernel holds p is decided by its place: it is current, on the run
      queue, in one channel word, on one semaphore or barrier queue, or in none of these. */
  lemma OnePlace(k: K, p: int)
    requires Inv(k) && p in k.place
    ensures p == k.wptr <==> k.place[p].Running?
    ensures p in k.runq <==> k.place[p].Queued?
    ensures forall c :: Rd(k.chan, c) == p <==> k.place[p].Blocked? && k.place[p].c == c
    ensures forall x | x in k.waitq :: p in k.waitq[x] <==> k.place[p] == InQueue(x)
    ensures k.place[p].InQueue? ==> k.place[p].x in k.waitq
    ensures k.place[p].TimerWait? ==> p in k.timerq && p !in k.alt
    ensures k.place[p].AltWait? ==> p in k.alt && k.alt[p].phase.Waiting?
    ensures p in k.timerq ==>
              k.place[p].TimerWait? || (p in k.alt && k.alt[p].timed && (k.alt[p].phase.Waiting? || k.alt[p].phase.Disabling?))
    ensures k.place[p].ExtWait? ==> p !in k.alt
    ensures forall c :: Rd(k.chan, c) == p + 1 ==> k.place[p] == ExtWait(c) || (p in k.alt && ChanGuard(c) in k.alt[p].left)
    ensures k.place[p].ExtWait? ==> Rd(k.chan, k.place[p].c) == p + 1
    ensures NoDup(k.runq) && NoDup(k.timerq) && forall x | x in k.waitq :: NoDup(k.waitq[x])
  {
    hide RunOk, WaitOk, ObjectsOk, AltsOk, TimerOk, ChanOk, NoDup;
    OneQueue(k, p);
    OneTimer(k, p);
    OneMark(k, p);
    forall c ensures Rd(k.chan, c) == p <==> k.place[p].Blocked? && k.place[p].c == c { OneChannel(k, p, c); }
  }

  lemma OneQueue(k: K, p: int)
    requires Core(k) && p in k.place
    ensures p in k.runq <==> k.place[p].Queued?
    ensures forall x | x in k.waitq :: p in k.waitq[x] <==> k.place[p] == InQueue(x)
    ensures k.place[p].InQueue? ==> k.place[p].x in k.waitq
    ensures NoDup(k.runq) && NoDup(k.timerq) && forall x | x in k.waitq :: NoDup(k.waitq[x])
    ensures p != 0
  {
    hide ObjectsOk, AltsOk, ChanOk, NoDup, Linked, Sorted, TimerLinked, After;
    forall x | x in k.waitq ensures p in k.waitq[x] <==> k.place[p] == InQueue(x) {
      assert Members(k.place, k.waitq[x], InQueue(x));
    }
  }

  lemma OneTimer(k: K, p: int)
    requires Core(k) && p in k.place
    ensures k.place[p].TimerWait? ==> p in k.timerq && p !in k.alt
    ensures k.place[p].AltWait? ==> p in k.alt && k.alt[p].phase.Waiting?
    ensures k.place[p].ExtWait? ==> p !in k.alt
    ensures p in k.timerq ==>
              k.place[p].TimerWait? || (p in k.alt && k.alt[p].timed && (k.alt[p].phase.Waiting? || k.alt[p].phase.Disabling?))
  {
    hide RunOk, WaitOk, ObjectsOk, ChanOk, NoDup, Sorted, TimerLinked, After, SomeReady, SomeFires, AllMarked, NoTimers;
    if p in k.alt { AltOf(k, p); }
    if p in k.timerq { assert TimerMember(k.place, k.alt, p); }
  }

  lemma OneMark(k: K, p: int)
    requires Core(k) && p in k.place
    ensures forall c :: Rd(k.chan, c) == p + 1 ==> k.place[p] == ExtWait(c) || (p in k.alt && ChanGuard(c) in k.alt[p].left)
    ensures k.place[p].ExtWait? ==> Rd(k.chan, k.place[p].c) == p + 1
  {
    hide RunOk, WaitOk, ObjectsOk, AltsOk, TimerOk;
    forall c | Rd(k.chan, c) == p + 1 ensures k.place[p] == ExtWait(c) || (p in k.alt && ChanGuard(c) in k.alt[p].left) {
      assert ChanAt(k.chan, k.place, k.ptr, k.link, k.alt, c);
    }
    assert HeldAt(k.chan, k.place, k.ptr, p);
  }

  lemma OneChannel(k: K, p: int, c: int)
    requires Core(k) && p in k.place
    ensures Rd(k.chan, c) == p <==> k.place[p].Blocked? && k.place[p].c == c
  {
    hide RunOk, WaitOk, ObjectsOk, AltsOk, TimerOk;
    assert ChanAt(k.chan, k.place, k.ptr, k.link, k.alt, c) && HeldAt(k.chan, k.place, k.ptr, p);
  }

  lemma IdsEven(k: K, p: int)
    requires Inv(k) && p in k.place
    ensures p > 0 && p % 4 == 0 && p + 1 !in k.place
  {
    hide RunOk, WaitOk, ObjectsOk, TimerOk, AltsOk, ChanOk;
  }

  // ---------------------------------------------------------------- parked processes stay parked

  /** Neither running nor queued to run. */
  predicate Still(w: Place) { !w.Running? && !w.Queued? }

  /** Of the parked processes only those in s may have moved. */
  ghost predicate StillBut(k: K, n: K, s: set<int>) {
    forall p {:trigger n.place[p]} {:trigger k.place[p]} | p in k.place && Still(k.place[p]) && p !in s ::
      p in n.place && n.place[p] == k.place[p]
  }

  /** The processes on the timer queue whose deadline is not after now. */
  function DueBy(k: K, now: int): set<int> { set p | p in k.timerq && !After(Rd(k.time, p), now) }

  /** Of the processes parked in k, only those in e are among d. */
  ghost predicate Only(k: K, d: set<int>, e: set<int>) {
    forall p | p in d && p in k.place && Still(k.place[p]) :: p in e
  }

  lemma StillTrans(k: K, m: K, n: K, s: set<int>, d: set<int>, e: set<int>)
    requires StillBut(k, m, s) && StillBut(m, n, d) && Only(k, d, e)
    ensures StillBut(k, n, s + e)
  {
    forall p | p in k.place && Still(k.place[p]) && p !in s + e ensures p in n.place && n.place[p] == k.place[p] {
      assert m.place[p] == k.place[p];
    }
  }

  lemma StillMore(k: K, n: K, s: set<int>, e: set<int>)
    requires StillBut(k, n, s)
    ensures StillBut(k, n, s + e)
  {}

  lemma FireStill(k: K, now: Word)
    requires k.timerq != []
    ensures StillBut(k, Fire(k, now), {k.timerq[0]})
  {
    hide Rouse, EnqueueIf;
    RousePlaces(k, now);
    EnqueueIfPlaces(Rouse(k, now), k.timerq[0], Rd(k.ptr, k.timerq[0]) != READY);
  }

  /** The head was due; the others are as they were. */
  lemma FireDue(k: K, n: K, now: Word)
    requires k.timerq != [] && !After(Rd(k.time, k.timerq[0]), now)
    requires n.timerq == k.timerq[1..] && n.time == k.time[k.timerq[0] := now] && k.timerq[0] !in k.timerq[1..]
    ensures Only(k, DueBy(n, now), DueBy(k, now)) && {k.timerq[0]} + DueBy(k, now) == DueBy(k, now)
  {
    hide After, Still;
  }

  lemma EnqueueIfPlaces(k: K, p: int, wanted: bool)
    ensures EnqueueIf(k, p, wanted).place == if wanted then k.place[p := Queued] else k.place
  {}

  lemma {:induction false} WalkStill(k: K, now: Word)
    requires Core(k) && Timely(k.time, k.timerq, now)
    ensures StillBut(k, Walk(k, now), DueBy(k, now))
    decreases |k.timerq|
  {
    hide Core, Fire, Timely, StillBut, After, DueBy, Only;
    if k.timerq == [] || After(Rd(k.time, k.timerq[0]), now) {
      NothingMoves(k, DueBy(k, now));
    } else {
      FireStill(k, now);
      WalkStep(k, now);
      WalkStill(Fire(k, now), now);
      FireDue(k, Fire(k, now), now);
      StillTrans(k, Fire(k, now), Walk(k, now), {k.timerq[0]}, DueBy(Fire(k, now), now), DueBy(k, now));
    }
  }

  lemma NothingMoves(k: K, s: set<int>)
    ensures StillBut(k, k, s)
  {}

  lemma RunsNextStill(k: K, n: K, o: Outcome, now: Word)
    requires Core(k) && Timely(k.time, k.timerq, now) && RunsNext(k, n, o, now)
    ensures StillBut(k, n, DueBy(k, now))
  {
    hide Core, Walk, Timely, TakeNext, Hand, DueBy;
    if !k.intr {
      var w := Synced(k, now);
      WalkStill(k, now);
      SomeHand(k.place);
      var s :| Hand(k.place, s);
      SyncedCore(k, now, s);
      if w.runq != [] { TakeStill(w); }
    }
  }

  lemma TakeStill(k: K)
    requires Core(k) && k.runq != []
    ensures StillBut(k, TakeNext(k), {})
  {
    hide WaitOk, ObjectsOk, ChanOk, AltsOk, TimerOk, Ids;
    TakeRun(k);
  }

  /** One process moved, then perhaps another one was chosen to run. */
  lemma MoveThenRun(k: K, m: K, n: K, o: Outcome, now: Word, s: set<int>)
    requires Core(m) && Timely(m.time, m.timerq, now) && RunsNext(m, n, o, now) && StillBut(k, m, s)
    requires (m.time == k.time && m.timerq == k.timerq) || Only(k, DueBy(m, now), DueBy(k, now))
    ensures StillBut(k, n, s + DueBy(k, now))
  {
    hide Core, Timely, RunsNext, StillBut;
    RunsNextStill(m, n, o, now);
    StillTrans(k, m, n, s, DueBy(m, now), DueBy(k, now));
  }

  /** What waits elsewhere than in an ALT or for a time is never due. */
  lemma DueMembers(k: K, p: int, now: int)
    requires Core(k) && p in DueBy(k, now)
    ensures p in k.place && (k.place[p].TimerWait? || k.place[p].AltWait? || !Still(k.place[p]))
  {
    hide RunOk, WaitOk, ObjectsOk, ChanOk, After, NoDup, Sorted, TimerLinked, SomeReady, SomeFires, AllMarked, NoTimers;
    assert TimerMember(k.place, k.alt, p);
    if p in k.alt { AltOf(k, p); }
  }

  /** A process on a channel, on a queue, in extended input or dormant is no business of the timers. */
  lemma StaysPut(k: K, n: K, s: set<int>, now: int, p: int)
    requires Core(k) && StillBut(k, n, s + DueBy(k, now)) && p in k.place && p !in s
    requires Still(k.place[p]) && !k.place[p].TimerWait? && !k.place[p].AltWait?
    ensures p in n.place && n.place[p] == k.place[p]
  {
    hide Core, DueBy;
    if p in DueBy(k, now) { DueMembers(k, p, now); }
  }

  /** Choosing what runs next does not move such a process. */
  lemma RunsNextStays(k: K, n: K, o: Outcome, now: Word, p: int)
    requires Core(k) && Timely(k.time, k.timerq, now) && RunsNext(k, n, o, now) && p in k.place
    requires Still(k.place[p]) && !k.place[p].TimerWait? && !k.place[p].AltWait?
    ensures p in n.place && n.place[p] == k.place[p]
  {
    hide Core, Timely, RunsNext, StillBut, DueBy;
    RunsNextStill(k, n, o, now);
    assert {} + DueBy(k, now) == DueBy(k, now);
    StaysPut(k, n, {}, now, p);
  }

  // ---------------------------------------------------------------- instruction by instruction

  /** The process in a channel word. */
  function Occupant(v: int): int { if v % 2 == 0 then v else v - 1 }

  /** The parked processes an instruction is there to move: the one at the other end of the
      channel, the first waiter of the semaphore, all waiters of the completed barrier, the
      process started, resumed or joined. */
  ghost function MovedBy(k: K, i: Ins): set<int> {
    match i
    case Io(c, _, _, _) => {Occupant(Rd(k.chan, c))}
    case XEnd(c) => {Rd(k.chan, c)}
    case SemRelease(x) => if x in k.waitq && k.waitq[x] != [] then {k.waitq[x][0]} else {}
    case BarSync(x) => if x in k.waitq && x in k.bar && k.bar[x].count <= 1 then set p | p in k.waitq[x] else {}
    case BarResign(x, m) =>
      if x in k.waitq && x in k.bar && k.bar[x].count == m <= k.bar[x].enrolled then set p | p in k.waitq[x] else {}
    case StartP(w, _) => {w}
    case RunP(w) => {w}
    case EndP(w) => if w in k.par && k.par[w].count == 1 then {w} else {}
    case _ => {}
  }

  lemma IoStill(k: K, n: K, o: Outcome, c: int, out: bool, buf: int, len: nat, later: Word)
    requires Inv(k) && IoAllowed(k, c, out, buf, len, later) && IoStep(k, n, o, c, out, buf, len, later)
    ensures StillBut(k, n, {Occupant(Rd(k.chan, c))} + DueBy(k, later))
  {
    hide Core, Inv, Hand, Block, Requeue, Load, Signal, Release, RunsNext, Alting, Partner, Zeroed, Moves, InHand, Timely, StillBut, DueBy;
    CurrentInHand(k);
    var v := Rd(k.chan, c);
    if v == 0 {
      BlockCore(k, c, out, buf, len);
      BlockPlaces(k, c, out, buf, len);
      BlockStill(k, c, out, buf, len);
      MoveThenRun(k, Block(k, c, out, buf, len), n, o, later, {Occupant(v)});
    } else if v == 1 {
      DisconnectedStill(k, n, o, if out then k.data else Zeroed(k.data, buf, len), later, {Occupant(v)});
    } else if Alting(k.place, k.alt, v - 1, c) {
      AlterState(k, v - 1, c);
      AlterIsOdd(k, v);
      SignalCore(k, v - 1, c, buf, len);
      SignalPlaces(k, v - 1, c, buf, len);
      SignalStill(k, v - 1, c, buf, len);
      if Rd(k.ptr, v - 1) == WAITING {
        LoadStill(k, Signal(k, v - 1, c, buf, len), v - 1, {v - 1});
        StillMore(k, n, {v - 1}, DueBy(k, later));
      } else {
        MoveThenRun(k, Signal(k, v - 1, c, buf, len), n, o, later, {v - 1});
      }
    } else {
      PartnerFacts(k, v, c, out, buf, len);
      MeetStill(k, v, c, Moves(k, v, out, buf, len));
      StillMore(k, n, {Occupant(v)}, DueBy(k, later));
    }
  }

  lemma AlterIsOdd(k: K, v: int)
    requires Core(k) && v - 1 in k.place
    ensures Occupant(v) == v - 1
  {
    hide RunOk, WaitOk, ObjectsOk, ChanOk, AltsOk, TimerOk;
  }

  lemma BlockStill(k: K, c: int, out: bool, buf: int, len: nat)
    requires InHand(k, k.wptr)
    ensures forall s :: StillBut(k, Block(k, c, out, buf, len), s)
  {}

  lemma LoadStill(k: K, m: K, q: int, s: set<int>)
    requires StillBut(k, m, s)
    ensures StillBut(k, Load(m, q), s)
  {}

  lemma DisconnectedStill(k: K, n: K, o: Outcome, data: Slots, later: Word, s: set<int>)
    requires Core(k) && InHand(k, k.wptr) && Hand(k.place, {k.wptr}) && Timely(k.time, k.timerq, later)
    requires RunsNext(Requeue(k.(data := data)), n, o, later)
    ensures StillBut(k, n, s + DueBy(k, later))
  {
    hide Core, Hand, Requeue, RunsNext, Timely, StillBut, DueBy;
    var m := k.(data := data);
    CoreSame(k, m);
    RequeueCore(m, {k.wptr});
    RequeueTimers(m);
    RequeueStill(k, data, s);
    MoveThenRun(k, Requeue(m), n, o, later, s);
  }

  lemma RequeueStill(k: K, data: Slots, s: set<int>)
    requires InHand(k, k.wptr)
    ensures StillBut(k, Requeue(k.(data := data)), s)
  {
    hide Behind;
  }

  lemma SignalStill(k: K, q: int, c: int, buf: int, len: nat)
    requires InHand(k, k.wptr) && q in k.place
    ensures StillBut(k, Signal(k, q, c, buf, len), {q})
  {
    hide Woken;
  }

  lemma MeetStill(k: K, q: int, c: int, data: Slots)
    requires InHand(k, k.wptr) && q in k.place && Parked(k.place, k.ptr, k.link, q, c) && Core(k)
    ensures StillBut(k, Load(Requeue(Release(k, q, c, data)), q), {Occupant(q)})
  {
    hide RunOk, WaitOk, ObjectsOk, ChanOk, AltsOk, TimerOk, Behind;
  }

  lemma SamePlaceStill(k: K, n: K, s: set<int>)
    requires n.place == k.place
    ensures StillBut(k, n, s)
  {}

  lemma AltWaitStill(k: K, n: K, o: Outcome, later: Word)
    requires Inv(k) && WaitAllowed(k, later) && WaitStep(k, n, o, later)
    ensures StillBut(k, n, {} + DueBy(k, later))
  {
    hide Core, Inv, Hand, RunsNext, Timely, StillBut, SleepAlt, NoTimers, NextPhase, DueBy;
    CurrentInHand(k);
    if Rd(k.ptr, k.wptr) == READY {
      SamePlaceStill(k, n, {} + DueBy(k, later));
      return;
    }
    UntimedLeft(k);
    SleepAltCore(k);
    SleepAltPlaces(k);
    SleepStill(k);
    MoveThenRun(k, SleepAlt(k), n, o, later, {});
  }

  lemma SleepStill(k: K)
    requires InHand(k, k.wptr) && k.wptr in k.alt
    ensures StillBut(k, SleepAlt(k), {})
  {}

  lemma TimedWaitStill(k: K, n: K, o: Outcome, now: Word, later: Word)
    requires Inv(k) && TimedWaitAllowed(k, now, later) && TimedWaitStep(k, n, o, now, later)
    ensures StillBut(k, n, {} + DueBy(k, later))
  {
    hide Core, Inv, Hand, SleepAlt, SleepTimed, RunsNext, Timely, NoTimers, NextPhase, After, StillBut, DueBy, Only;
    CurrentInHand(k);
    UntimedLeft(k);
    if GoesOn(k, now) {
      SamePlaceStill(k, n, {} + DueBy(k, later));
    } else if Rd(k.tlink, k.wptr) != TIME_NOT_SET {
      SleepTimedCore(k);
      SleepTimedStill(k);
      SleepTimedDue(k, later);
      MoveThenRun(k, SleepTimed(k), n, o, later, {});
    } else {
      SleepAltCore(k);
      SleepAltPlaces(k);
      SleepStill(k);
      MoveThenRun(k, SleepAlt(k), n, o, later, {});
    }
  }

  lemma SleepTimedStill(k: K)
    requires InHand(k, k.wptr) && k.wptr in k.alt
    ensures StillBut(k, SleepTimed(k), {})
  {
    hide Slot, InsertAt, TimerLinkIn;
  }

  /** The current process went on the timer queue; the others are due as before. */
  lemma InsertedDue(k: K, m: K, p: int, t: int, now: Word)
    requires Inserted(k, m, p, t) && InHand(k, p)
    ensures Only(k, DueBy(m, now), DueBy(k, now))
  {
    hide After, Slot, InsertAt, TimerLinkIn;
    InsertMembers(k.timerq, Slot(m.time, k.timerq, t), p);
  }

  lemma SleepTimedDue(k: K, now: Word)
    requires InHand(k, k.wptr) && k.wptr in k.alt
    ensures Only(k, DueBy(SleepTimed(k), now), DueBy(k, now))
  {
    hide SleepTimed, Inserted, Only, DueBy;
    SleepTimedSlots(k);
    InsertedDue(k, SleepTimed(k), k.wptr, Add(Rd(k.time, k.wptr), 1), now);
  }

  lemma TinStill(k: K, n: K, o: Outcome, t: Word, now: Word, later: Word)
    requires Inv(k) && TinAllowed(k, t, now, later) && TinStep(k, n, o, t, now, later)
    ensures StillBut(k, n, {} + DueBy(k, later))
  {
    hide Core, Inv, Hand, WaitTime, RunsNext, Timely, After, StillBut, DueBy, Only, Inserted;
    CurrentInHand(k);
    if After(now, t) {
      NothingMoves(k, {} + DueBy(k, later));
    } else {
      WaitTimeCore(k, t);
      WaitTimeStill(k, t);
      WaitTimeInserted(k, t);
      InsertedDue(k, WaitTime(k, t), k.wptr, t, later);
      MoveThenRun(k, WaitTime(k, t), n, o, later, {});
    }
  }

  lemma WaitTimeStill(k: K, t: Word)
    requires InHand(k, k.wptr)
    ensures StillBut(k, WaitTime(k, t), {})
  {
    hide Slot, InsertAt, TimerLinkIn;
  }

  lemma ClaimStill(k: K, n: K, o: Outcome, x: int, later: Word)
    requires Inv(k) && ClaimAllowed(k, x, later) && ClaimStep(k, n, o, x, later)
    ensures StillBut(k, n, {} + DueBy(k, later))
  {
    hide Core, Inv, Hand, ClaimBusy, RunsNext, Timely, StillBut, DueBy;
    CurrentInHand(k);
    if k.sem[x].fptr == 1 {
      SamePlaceStill(k, n, {} + DueBy(k, later));
    } else {
      ClaimBusyCore(k, x);
      ClaimPlaces(k, x);
      ClaimBusyStill(k, x);
      MoveThenRun(k, ClaimBusy(k, x), n, o, later, {});
    }
  }

  lemma ClaimBusyStill(k: K, x: int)
    requires InHand(k, k.wptr) && x in k.sem && x in k.waitq
    ensures StillBut(k, ClaimBusy(k, x), {})
  {
    hide Behind;
  }

  lemma XAbleStill(k: K, n: K, o: Outcome, c: int, later: Word)
    requires Inv(k) && YieldAllowed(k, later) && ExtendedStep(k, n, o, c, later)
    ensures StillBut(k, n, {} + DueBy(k, later))
  {
    hide Core, Inv, Hand, ExtendedWait, RunsNext, Timely, StillBut, DueBy;
    CurrentInHand(k);
    if Rd(k.chan, c) == 0 {
      ExtendedWaitCore(k, c);
      ExtendedPlaces(k, c);
      ExtendedStill(k, c);
      MoveThenRun(k, ExtendedWait(k, c), n, o, later, {});
    } else {
      NothingMoves(k, {} + DueBy(k, later));
    }
  }

  lemma ExtendedStill(k: K, c: int)
    requires InHand(k, k.wptr)
    ensures StillBut(k, ExtendedWait(k, c), {})
  {}

  lemma EnableStill(k: K, n: K, g: Guard)
    requires EnableAllowed(k, g) && EnableStep(k, n, g)
    ensures StillBut(k, n, {})
  {
    hide More, After;
  }

  lemma DisableStill(k: K, n: K, g: Guard, process: int)
    requires DisableAllowed(k, g, process) && DisableStep(k, n, g, process)
    ensures StillBut(k, n, {})
  {
    hide After, Less, Select, CancelTimer, StillBut, OnlyReader;
    assert n.place == k.place by {
      if g.TimerGuard? && k.wptr in k.timerq {
        var i: nat :| i < |k.timerq| && k.timerq[i] == k.wptr && n == CancelTimer(k, i, g.t);
        CancelPlaces(k, i, g.t);
      }
    }
    SamePlaceStill(k, n, {});
  }

  lemma ReleaseStill(k: K, n: K, x: int)
    requires Inv(k) && ReleaseAllowed(k, x) && ReleaseStep(k, n, x)
    ensures StillBut(k, n, if k.waitq[x] != [] then {k.waitq[x][0]} else {})
  {
    hide Core, Hand, HandOver, Enqueue, StillBut;
    FreeIsFree(k, x);
    if k.sem[x].fptr == 0 {
      WaitersZero(k, x);
      SamePlaceStill(k, n, {});
    } else {
      HandOverPlaces(k, x);
      EnqueuePlaces(HandOver(k, x), k.waitq[x][0]);
      OneMoves(k, n, k.waitq[x][0]);
    }
  }

  lemma WaitersZero(k: K, x: int)
    requires Core(k) && x in k.sem && x in k.waitq && k.sem[x].fptr == 0
    ensures k.waitq[x] == []
  {
    hide Core;
    FreeIsFree(k, x);
  }

  lemma OneMoves(k: K, n: K, h: int)
    requires h in k.place && n.place == k.place[h := Running][h := Queued]
    ensures StillBut(k, n, {h})
  {}

  lemma CompleteStill(k: K, x: int, e: Word)
    requires x in k.bar && x in k.waitq
    ensures StillBut(k, Complete(k, x, e), set p | p in k.waitq[x])
  {
    hide AppendLink;
  }

  lemma SyncStill(k: K, n: K, o: Outcome, x: int, later: Word)
    requires Inv(k) && SyncAllowed(k, x, later) && SyncStep(k, n, o, x, later)
    ensures StillBut(k, n, (if k.bar[x].count <= 1 then set p | p in k.waitq[x] else {}) + DueBy(k, later))
  {
    hide Core, Inv, Hand, SyncWait, Complete, RunsNext, Timely, StillBut, DueBy;
    CurrentInHand(k);
    if k.bar[x].count > 1 {
      SyncWaitCore(k, x);
      SyncPlaces(k, x);
      SyncWaitStill(k, x);
      MoveThenRun(k, SyncWait(k, x), n, o, later, {});
    } else {
      CompleteStill(k, x, k.bar[x].enrolled);
      StillMore(k, n, (set p | p in k.waitq[x]), DueBy(k, later));
    }
  }

  lemma SyncWaitStill(k: K, x: int)
    requires InHand(k, k.wptr) && x in k.bar && x in k.waitq && k.bar[x].count > 0
    ensures StillBut(k, SyncWait(k, x), {})
  {
    hide BarBehind;
  }

  lemma ResignStill(k: K, n: K, o: Outcome, x: int, m: Word)
    requires x in k.bar && x in k.waitq && ResignStep(k, n, o, x, m)
    ensures StillBut(k, n, if k.bar[x].count == m <= k.bar[x].enrolled then set p | p in k.waitq[x] else {})
  {
    hide Complete, StillBut;
    if k.bar[x].count == m <= k.bar[x].enrolled {
      CompleteStill(k, x, k.bar[x].enrolled - m);
    } else {
      SamePlaceStill(k, n, {});
    }
  }

  lemma StartStill(k: K, n: K, w: int, iptr: Slots)
    requires StartAllowed(k, w) && n == Started(k, w, iptr)
    ensures StillBut(k, n, {w})
  {
    hide Enqueue, StillBut;
    EnqueuePlaces(Moved(k, w, Running).(iptr := iptr), w);
    OneMoves(k, n, w);
  }

  lemma StopStill(k: K, n: K, o: Outcome, later: Word)
    requires Inv(k) && YieldAllowed(k, later) && RunsNext(Stopped(k), n, o, later)
    ensures StillBut(k, n, {} + DueBy(k, later))
  {
    hide Core, Inv, Hand, RunsNext, Timely, StillBut, DueBy;
    CurrentInHand(k);
    var m := k.(iptr := k.iptr[k.wptr := k.ip]);
    CoreSame(k, m);
    MovedCore(m, k.wptr, Dormant);
    StoppedStill(k);
    MoveThenRun(k, Stopped(k), n, o, later, {});
  }

  lemma StoppedStill(k: K)
    requires InHand(k, k.wptr)
    ensures StillBut(k, Stopped(k), {})
  {}

  lemma RescheduleStill(k: K, n: K, o: Outcome, later: Word)
    requires Inv(k) && k.wptr != 0 && OnTime(k, later) && RunsNext(Requeue(k), n, o, later)
    ensures StillBut(k, n, {} + DueBy(k, later))
  {
    hide Core, Inv, Hand, RunsNext, Timely, StillBut, Requeue, DueBy;
    CurrentInHand(k);
    assert k == k.(data := k.data);
    DisconnectedStill(k, n, o, k.data, later, {});
  }

  lemma EndStill(k: K, n: K, o: Outcome, w: int, later: Word)
    requires Inv(k) && EndAllowed(k, w, later) && EndStep(k, n, o, w, later)
    ensures StillBut(k, n, (if k.par[w].count == 1 then {w} else {}) + DueBy(k, later))
  {
    hide Core, Inv, Hand, RunsNext, Timely, StillBut, DueBy;
    CurrentInHand(k);
    MovedCore(k, k.wptr, Dormant);
    if k.par[w].count == 1 {
      JoinedStill(k, w);
      StillMore(k, n, {w}, DueBy(k, later));
    } else {
      CoreSame(Moved(k, k.wptr, Dormant), Ended(k, w));
      EndedStill(k, w);
      MoveThenRun(k, Ended(k, w), n, o, later, {});
    }
  }

  lemma JoinedStill(k: K, w: int)
    requires InHand(k, k.wptr) && w in k.par
    ensures StillBut(k, Joined(k, w), {w})
  {}

  lemma EndedStill(k: K, w: int)
    requires InHand(k, k.wptr) && w in k.par
    ensures StillBut(k, Ended(k, w), {})
  {}

  lemma XInStill(k: K, n: K, o: Outcome, c: int, buf: int, len: nat, later: Word)
    requires Inv(k) && ExtendedInAllowed(k, c, buf, len, later) && ExtendedInStep(k, n, o, c, buf, len, later)
    ensures StillBut(k, n, {} + DueBy(k, later))
  {
    hide Core, Inv, Hand, RunsNext, Timely, Requeue, Zeroed, Moves, Partner, StillBut, DueBy;
    CurrentInHand(k);
    if Rd(k.chan, c) == 1 {
      DisconnectedStill(k, n, o, Zeroed(k.data, buf, len), later, {});
    } else {
      SamePlaceStill(k, n, {} + DueBy(k, later));
    }
  }

  lemma XEndStill(k: K, n: K, c: int)
    requires Inv(k) && ExtendedEndAllowed(k, c) && ExtendedEndStep(k, n, c)
    ensures StillBut(k, n, {Rd(k.chan, c)})
  {
    hide Core, Inv, Enqueue, StillBut, Unguarded;
    var q := Rd(k.chan, c);
    if q != 1 {
      EnqueuePlaces(Release(k, q, c, k.data), q);
      OneMoves(k, n, q);
    } else {
      SamePlaceStill(k, n, {q});
    }
  }

  lemma EasyStill(k: K, e: Event, n: K, o: Outcome)
    requires e.ins.AltStart? || e.ins.AltEnd? || e.ins.SemInit? || e.ins.BarInit? || e.ins.BarEnroll? || e.ins.ParStart?
    requires Allowed(k, e) && Step(k, e, n, o)
    ensures StillBut(k, n, {})
  {
    hide Inv, Core, AltStartAllowed, InitAllowed, InAlt, StillBut;
    assert n.place == k.place;
    SamePlaceStill(k, n, {});
  }

  /** Instructions that let nobody else run. */
  predicate Quick(i: Ins) {
    || i.AltStart? || i.Enable? || i.Disable? || i.AltEnd? || i.SemInit? || i.SemRelease? || i.BarInit? || i.BarEnroll?
    || i.BarResign? || i.StartP? || i.RunP? || i.ParStart? || i.XEnd?
  }

  lemma QuickStill(k: K, e: Event, n: K, o: Outcome)
    requires Inv(k) && Allowed(k, e) && Step(k, e, n, o) && Quick(e.ins)
    ensures StillBut(k, n, MovedBy(k, e.ins))
  {
    hide Inv, AltStartAllowed, InitAllowed, StartAllowed, ExtendedEndAllowed, StillBut, EnableStep, DisableStep, ReleaseStep,
         ExtendedEndStep, ResignStep, AltEndStep, EnrolStep, NewSem, NewBar, StartAlt, Started, Complete, InAlt, ParStarted;
    match e.ins
    case Enable(g) => EnableStill(k, n, g);
    case Disable(g, process) => DisableStill(k, n, g, process);
    case SemRelease(x) => ReleaseStill(k, n, x);
    case BarResign(x, m) => ResignStill(k, n, o, x, m);
    case StartP(w, entry) => StartStill(k, n, w, k.iptr[w := entry]);
    case RunP(w) => StartStill(k, n, w, k.iptr);
    case XEnd(c) => XEndStill(k, n, c);
    case _ => EasyStill(k, e, n, o);
  }

  /** No step moves a parked process other than the one it is there to move and those whose
      deadline has come: an outputter stays in its channel word until somebody communicates
      on that channel, a waiter on its semaphore until it is first and the semaphore is
      released, a synchronising process on its barrier until the barrier completes, an ALT
      until one of its channels is output to or its timeout has come. */
  lemma StepStill(k: K, e: Event, n: K, o: Outcome)
    requires Inv(k) && Allowed(k, e) && Step(k, e, n, o)
    ensures StillBut(k, n, MovedBy(k, e.ins) + DueBy(k, e.later))
  {
    hide Inv, IoAllowed, AltStartAllowed, WaitAllowed, TimedWaitAllowed, TinAllowed, StillBut, Occupant,
         InitAllowed, ClaimAllowed, StartAllowed, YieldAllowed, DueBy,
         ExtendedInAllowed, ExtendedEndAllowed, IoStep, EnableStep, WaitStep, TimedWaitStep, DisableStep, TinStep,
         ClaimStep, ReleaseStep, SyncStep, EndStep, RunsNext, ExtendedStep, ExtendedInStep, ExtendedEndStep, ResignStep,
         AltEndStep, EnrolStep, NewSem, NewBar, StartAlt, Started, Stopped, Requeue, OnTime, Complete, InAlt, ParStarted;
    if Quick(e.ins) {
      QuickStill(k, e, n, o);
      StillMore(k, n, MovedBy(k, e.ins), DueBy(k, e.later));
      return;
    }
    match e.ins
    case Io(c, out, buf, len) => IoStill(k, n, o, c, out, buf, len, e.later);
    case AltWait => AltWaitStill(k, n, o, e.later);
    case TimedAltWait => TimedWaitStill(k, n, o, e.now, e.later);
    case Tin(t) => TinStill(k, n, o, t, e.now, e.later);
    case SemClaim(x) => ClaimStill(k, n, o, x, e.later);
    case BarSync(x) => SyncStill(k, n, o, x, e.later);
    case EndP(w) => EndStill(k, n, o, w, e.later);
    case StopP => StopStill(k, n, o, e.later);
    case Reschedule => RescheduleStill(k, n, o, e.later);
    case XAble(c) => XAbleStill(k, n, o, c, e.later);
    case XIn(c, buf, len) => XInStill(k, n, o, c, buf, len, e.later);
    case Resume => ResumeStill(k, n, o, e.later);
  }

  /** For processes that wait for no time, only the instruction counts. */
  lemma StepStays(k: K, e: Event, n: K, o: Outcome, p: int)
    requires Inv(k) && Allowed(k, e) && Step(k, e, n, o) && p in k.place && p !in MovedBy(k, e.ins)
    requires Still(k.place[p]) && !k.place[p].TimerWait? && !k.place[p].AltWait?
    ensures p in n.place && n.place[p] == k.place[p]
  {
    hide Core, Allowed, Step, MovedBy, StillBut, DueBy, Hand;
    StepStill(k, e, n, o);
    StaysPut(k, n, MovedBy(k, e.ins), e.later, p);
  }

  lemma ResumeStill(k: K, n: K, o: Outcome, later: Word)
    requires Inv(k) && OnTime(k, later) && RunsNext(k, n, o, later)
    ensures StillBut(k, n, {} + DueBy(k, later))
  {
    hide Core, RunsNext, Timely, StillBut, DueBy;
    RunsNextStill(k, n, o, later);
    StillMore(k, n, DueBy(k, later), {});
    assert DueBy(k, later) + {} == {} + DueBy(k, later);
  }

  // ---------------------------------------------------------------- what moves whom

  /** The instruction uses up what a barrier still waits for: a sync of the last one enrolled,
      or a resignation of all that are still to come. */
  ghost predicate Completes(k: K, i: Ins, x: int) {
    && x in k.bar && x in k.waitq
    && ((i == BarSync(x) && k.bar[x].enrolled - |k.waitq[x]| <= 1)
        || (i.BarResign? && i.x == x && i.n == k.bar[x].enrolled - |k.waitq[x]|))
  }

  /** The instruction that may move the parked process p. */
  ghost predicate Mover(k: K, i: Ins, p: int)
    requires p in k.place
  {
    match k.place[p]
    case Blocked(c, _, _, _) => (i.Io? || i.XEnd?) && i.c == c
    case ExtWait(c) => i.Io? && i.out && i.c == c
    case AltWait => i.Io? && i.out && p in k.alt && ChanGuard(i.c) in k.alt[p].left && Rd(k.chan, i.c) == p + 1
    case InQueue(x) =>
      (i == SemRelease(x) && x in k.sem && x in k.waitq && k.waitq[x] != [] && k.waitq[x][0] == p) || Completes(k, i, x)
    case Dormant => (i.StartP? || i.RunP? || i.EndP?) && i.w == p
    case _ => false
  }

  /** What a step does to parked processes, place by place: a process blocked on a channel is
      moved by a communication there or by xend, one in extended input or in an ALT by an
      output to a channel it waits for, a waiter for a semaphore by the release that finds it
      first, a waiter at a barrier by its completion, a dormant process by being started or
      as the parent of a PAR; one waiting for a time, and an ALT with a timeout, also by the
      clock. */
  lemma MovedOnly(k: K, e: Event, n: K, o: Outcome, p: int)
    requires Inv(k) && Allowed(k, e) && Step(k, e, n, o) && p in k.place && Still(k.place[p])
    requires p !in n.place || n.place[p] != k.place[p]
    ensures Mover(k, e.ins, p) || ((k.place[p].AltWait? || k.place[p].TimerWait?) && p in DueBy(k, e.later))
  {
    hide Core, Allowed, Step, MovedBy, StillBut, DueBy, Hand, Mover, Still;
    if p in MovedBy(k, e.ins) {
      MoverOf(k, e, p);
    } else {
      StepStill(k, e, n, o);
      NotStill(k, n, MovedBy(k, e.ins), DueBy(k, e.later), p);
      DueMembers(k, p, e.later);
    }
  }

  lemma NotStill(k: K, n: K, s: set<int>, d: set<int>, p: int)
    requires StillBut(k, n, s + d) && p in k.place && Still(k.place[p]) && (p !in n.place || n.place[p] != k.place[p]) && p !in s
    ensures p in d
  {}

  lemma MoverOf(k: K, e: Event, p: int)
    requires Inv(k) && Allowed(k, e) && p in k.place && Still(k.place[p]) && p in MovedBy(k, e.ins)
    ensures Mover(k, e.ins, p)
  {
    hide Core, Inv, IoAllowed, WaitAllowed, TimedWaitAllowed, TinAllowed, ExtendedInAllowed, ExtendedEndAllowed, OnTime, InAlt,
         EnableAllowed, DisableAllowed, StartAllowed, EndAllowed, Mover, Still, Hand, ClaimAllowed, SyncAllowed;
    match e.ins
    case Io(c, out, buf, len) => IoMover(k, c, out, buf, len, e.later, p);
    case XEnd(c) => ChannelMover(k, e.ins, c, p);
    case StartP(w, _) => DormantMover(k, e.ins, p);
    case RunP(w) => DormantMover(k, e.ins, p);
    case EndP(w) => ParentMover(k, w, e.later, p);
    case SemRelease(x) => QueueMover(k, e.ins, x, p);
    case BarSync(x) => QueueMover(k, e.ins, x, p);
    case BarResign(x, _) => QueueMover(k, e.ins, x, p);
    case _ => assert false;
  }

  lemma IoMover(k: K, c: int, out: bool, buf: int, len: nat, later: Word, p: int)
    requires Inv(k) && IoAllowed(k, c, out, buf, len, later) && p in k.place && Still(k.place[p])
    requires Occupant(Rd(k.chan, c)) == p
    ensures Mover(k, Io(c, out, buf, len), p)
  {
    hide Core, Hand, OnTime, Plain;
    OneQueue(k, p);
    OneChannel(k, p, c);
    OneMark(k, p);
    OneTimer(k, p);
    IdsEven(k, p);
    if p in k.alt { MarkedPlace(k, p); }
  }

  lemma MarkedPlace(k: K, p: int)
    requires Inv(k) && p in k.alt
    ensures p in k.place && (k.place[p].AltWait? || !Still(k.place[p]))
  {
    hide RunOk, WaitOk, ObjectsOk, TimerOk, ChanOk, After, SomeReady, SomeFires, AllMarked, NoTimers;
    AltOf(k, p);
  }

  lemma ChannelMover(k: K, i: Ins, c: int, p: int)
    requires Inv(k) && p in k.place && Rd(k.chan, c) == p && i == XEnd(c)
    ensures Mover(k, i, p)
  {
    hide Core, Hand;
    OneChannel(k, p, c);
  }

  lemma DormantMover(k: K, i: Ins, p: int)
    requires p in k.place && (i.StartP? || i.RunP?) && i.w == p && StartAllowed(k, p)
    ensures Mover(k, i, p)
  {}

  lemma ParentMover(k: K, w: int, later: Word, p: int)
    requires Inv(k) && EndAllowed(k, w, later) && k.par[w].count == 1 && p == w && Still(k.place[p])
    ensures Mover(k, EndP(w), p)
  {
    hide Core, OnTime;
  }

  lemma QueueMover(k: K, i: Ins, x: int, p: int)
    requires Inv(k) && p in k.place && p in MovedBy(k, i) && (i.SemRelease? || i.BarSync? || i.BarResign?) && i.x == x
    requires i.SemRelease? ==> x in k.sem
    ensures Mover(k, i, p)
  {
    hide Core, Hand;
    OneQueue(k, p);
    if x in k.bar && x in k.waitq { BarEnds(k, x); }
  }
}
