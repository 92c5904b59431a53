/** Semaphores, barriers and PAR over whole runs: a semaphore is granted in the order it was
    claimed in, nobody leaves a barrier before everyone enrolled has come or resigned, and
    the parent of a PAR goes on once, when the last branch has ended. */
module KernelSync {
  import opened Words
  import opened KernelState
  import opened KernelFrames
  import opened KernelQueues
  import opened KernelTimers
  import opened KernelChannels
  import opened KernelAlts
  import opened KernelObjects
  import opened KernelProcs
  import opened KernelMachine
  import opened KernelRun
  import opened KernelPlaces

  // ---------------------------------------------------------------- what leaves the objects alone

  ghost predicate SameObjects(k: K, n: K) {
    n.sem == k.sem && n.bar == k.bar && n.waitq == k.waitq && n.holder == k.holder && n.par == k.par
  }

  /** Choosing what runs next is nothing to semaphores, barriers and PARs. */
  lemma RunsNextObjects(k: K, n: K, o: Outcome, now: Word)
    requires RunsNext(k, n, o, now)
    ensures SameObjects(k, n)
  {
    hide Walk, TakeNext;
    WalkObjects(k, now);
    if !k.intr && Synced(k, now).runq != [] { TakeObjects(Synced(k, now)); }
  }

  lemma TakeObjects(k: K)
    requires k.runq != []
    ensures SameObjects(k, TakeNext(k))
  {}

  lemma {:induction false} WalkObjects(k: K, now: Word)
    ensures SameObjects(k, Walk(k, now))
    decreases |k.timerq|
  {
    hide Fire, After;
    if k.timerq != [] && !After(Rd(k.time, k.timerq[0]), now) {
      FireObjects(k, now);
      WalkObjects(Fire(k, now), now);
    }
  }

  lemma FireObjects(k: K, now: Word)
    requires k.timerq != []
    ensures SameObjects(k, Fire(k, now)) && |Fire(k, now).timerq| < |k.timerq|
  {
    hide Behind, Woken;
  }

  /** The current process has parked itself, and another one runs. */
  lemma ThenRuns(k: K, m: K, n: K, o: Outcome, now: Word)
    requires SameObjects(k, m) && RunsNext(m, n, o, now)
    ensures SameObjects(k, n)
  {
    hide RunsNext;
    RunsNextObjects(m, n, o, now);
  }

  lemma ParkObjects(k: K, c: int, out: bool, buf: int, len: nat, t: Word)
    ensures SameObjects(k, Block(k, c, out, buf, len)) && SameObjects(k, Requeue(k)) && SameObjects(k, Stopped(k))
    ensures SameObjects(k, ExtendedWait(k, c)) && SameObjects(k, WaitTime(k, t))
  {
    hide Behind, Pending, Slot, InsertAt, TimerLinkIn;
  }

  lemma SleepObjects(k: K)
    requires k.wptr in k.alt
    ensures SameObjects(k, SleepAlt(k)) && SameObjects(k, SleepTimed(k))
  {
    hide NextPhase, Slot, InsertAt, TimerLinkIn;
  }

  lemma MeetObjects(k: K, q: int, c: int, buf: int, len: nat, data: Slots)
    ensures q in k.place ==> SameObjects(k, Signal(k, q, c, buf, len))
    ensures SameObjects(k, Requeue(k.(data := data))) && SameObjects(k, Load(Requeue(Release(k, q, c, data)), q))
  {
    hide Behind, Pending, Woken;
  }

  lemma IoObjects(k: K, n: K, o: Outcome, c: int, out: bool, buf: int, len: nat, later: Word)
    requires IoStep(k, n, o, c, out, buf, len, later)
    ensures SameObjects(k, n)
  {
    hide RunsNext, Block, Requeue, Signal, Release, Load, Moves, Zeroed, SameObjects;
    var v := Rd(k.chan, c);
    ParkObjects(k, c, out, buf, len, 0);
    MeetObjects(k, v, c, buf, len, Moves(k, v, out, buf, len));
    MeetObjects(k, v - 1, c, buf, len, if out then k.data else Zeroed(k.data, buf, len));
    if v == 0 {
      ThenRuns(k, Block(k, c, out, buf, len), n, o, later);
    } else if v == 1 {
      ThenRuns(k, Requeue(k.(data := if out then k.data else Zeroed(k.data, buf, len))), n, o, later);
    } else if v - 1 in k.place {
      if Rd(k.ptr, v - 1) == WAITING {
        LoadObjects(Signal(k, v - 1, c, buf, len), v - 1, k);
      } else {
        ThenRuns(k, Signal(k, v - 1, c, buf, len), n, o, later);
      }
    }
  }

  lemma LoadObjects(k: K, p: int, k0: K)
    requires SameObjects(k0, k)
    ensures SameObjects(k0, Load(k, p))
  {}

  lemma AltObjects(k: K, e: Event, n: K, o: Outcome)
    requires Allowed(k, e) && Step(k, e, n, o) && (e.ins.AltWait? || e.ins.TimedAltWait?)
    ensures SameObjects(k, n)
  {
    hide RunsNext, SleepAlt, SleepTimed, Timely, After, GoesOn, NextPhase;
    SleepObjects(k);
    if e.ins.AltWait? {
      if Rd(k.ptr, k.wptr) != READY { ThenRuns(k, SleepAlt(k), n, o, e.later); }
    } else if !GoesOn(k, e.now) {
      if Rd(k.tlink, k.wptr) != TIME_NOT_SET {
        ThenRuns(k, SleepTimed(k), n, o, e.later);
      } else {
        ThenRuns(k, SleepAlt(k), n, o, e.later);
      }
    }
  }

  lemma TinObjects(k: K, n: K, o: Outcome, t: Word, now: Word, later: Word)
    requires TinStep(k, n, o, t, now, later)
    ensures SameObjects(k, n)
  {
    hide RunsNext, WaitTime, After;
    ParkObjects(k, 0, false, 0, 0, t);
    if !After(now, t) { ThenRuns(k, WaitTime(k, t), n, o, later); }
  }

  lemma ExtendedObjects(k: K, n: K, o: Outcome, c: int, later: Word)
    requires ExtendedStep(k, n, o, c, later)
    ensures SameObjects(k, n)
  {
    hide RunsNext, ExtendedWait;
    ParkObjects(k, c, false, 0, 0, 0);
    if Rd(k.chan, c) == 0 { ThenRuns(k, ExtendedWait(k, c), n, o, later); }
  }

  lemma ExtendedInObjects(k: K, n: K, o: Outcome, c: int, buf: int, len: nat, later: Word)
    requires ExtendedInStep(k, n, o, c, buf, len, later)
    ensures SameObjects(k, n)
  {
    hide RunsNext, Requeue, Zeroed, Moves;
    MeetObjects(k, 0, c, buf, len, Zeroed(k.data, buf, len));
    if Rd(k.chan, c) == 1 { ThenRuns(k, Requeue(k.(data := Zeroed(k.data, buf, len))), n, o, later); }
  }

  lemma EnableObjects(k: K, n: K, g: Guard)
    requires k.wptr in k.alt && EnableStep(k, n, g)
    ensures SameObjects(k, n)
  {
    hide More, After;
  }

  lemma DisableObjects(k: K, n: K, g: Guard, process: int)
    requires k.wptr in k.alt && DisableStep(k, n, g, process)
    ensures SameObjects(k, n)
  {
    hide Less, Select, After, CancelTimer;
    if g.TimerGuard? && k.wptr in k.timerq {
      var i: nat :| i < |k.timerq| && k.timerq[i] == k.wptr && n == CancelTimer(k, i, g.t);
      CancelObjects(k, i, g.t);
    }
  }

  lemma CancelObjects(k: K, i: nat, t: Word)
    requires i < |k.timerq| && k.wptr in k.alt
    ensures SameObjects(k, CancelTimer(k, i, t))
  {}

  /** Instructions that neither touch channels nor let anybody else run. */
  lemma QuickObjects(k: K, w: int, iptr: Slots, q: int, c: int)
    ensures SameObjects(k, StartAlt(k, true)) && SameObjects(k, StartAlt(k, false)) && SameObjects(k, EndAlt(k))
    ensures SameObjects(k, Started(k, w, iptr)) && SameObjects(k, Enqueue(Release(k, q, c, k.data), q)) && SameObjects(k, k)
  {
    hide Behind;
  }

  predicate OnObjects(i: Ins) {
    i.SemInit? || i.SemClaim? || i.SemRelease? || i.BarInit? || i.BarSync? || i.BarEnroll? || i.BarResign?
  }

  /** All other instructions leave all semaphores, barriers and PARs alone. */
  lemma OtherObjects(k: K, e: Event, n: K, o: Outcome)
    requires Allowed(k, e) && Step(k, e, n, o) && !OnObjects(e.ins) && !e.ins.ParStart? && !e.ins.EndP?
    ensures SameObjects(k, n)
  {
    hide IoAllowed, AltStartAllowed, WaitAllowed, TimedWaitAllowed, TinAllowed, InHand, OnlyReader, StartAllowed, YieldAllowed,
         ExtendedInAllowed, ExtendedEndAllowed, OnTime, IoStep, EnableStep, WaitStep, TimedWaitStep, DisableStep, TinStep,
         RunsNext, ExtendedStep, ExtendedInStep, StartAlt, EndAlt, Started, Stopped, Requeue, Enqueue, Release, SameObjects;
    match e.ins
    case Io(c, out, buf, len) => IoObjects(k, n, o, c, out, buf, len, e.later);
    case AltWait => AltObjects(k, e, n, o);
    case TimedAltWait => AltObjects(k, e, n, o);
    case Enable(g) => EnableObjects(k, n, g);
    case Disable(g, process) => DisableObjects(k, n, g, process);
    case Tin(t) => TinObjects(k, n, o, t, e.now, e.later);
    case XAble(c) => ExtendedObjects(k, n, o, c, e.later);
    case XIn(c, buf, len) => ExtendedInObjects(k, n, o, c, buf, len, e.later);
    case StartP(w, entry) => QuickObjects(k, w, k.iptr[w := entry], 0, 0);
    case RunP(w) => QuickObjects(k, w, k.iptr, 0, 0);
    case XEnd(c) => QuickObjects(k, 0, map[], Rd(k.chan, c), c);
    case AltStart(_) => QuickObjects(k, 0, map[], 0, 0);
    case AltEnd => QuickObjects(k, 0, map[], 0, 0);
    case StopP =>
      ParkObjects(k, 0, false, 0, 0, 0);
      ThenRuns(k, Stopped(k), n, o, e.later);
    case Reschedule =>
      ParkObjects(k, 0, false, 0, 0, 0);
      ThenRuns(k, Requeue(k), n, o, e.later);
    case Resume => RunsNextObjects(k, n, o, e.later);
  }

  // ---------------------------------------------------------------- one semaphore or barrier

  predicate SameAt<T(==)>(a: map<int, T>, b: map<int, T>, x: int) { (x in a <==> x in b) && (x in a ==> a[x] == b[x]) }

  /** The words, the queue and the holder of x are as they were. */
  ghost predicate SameObject(k: K, n: K, x: int) {
    SameAt(k.sem, n.sem, x) && SameAt(k.bar, n.bar, x) && SameAt(k.waitq, n.waitq, x) && SameAt(k.holder, n.holder, x)
  }

  /** Only an instruction on x touches it. */
  lemma ElsewhereObject(k: K, e: Event, n: K, o: Outcome, x: int)
    requires Inv(k) && Allowed(k, e) && Step(k, e, n, o) && !(OnObjects(e.ins) && e.ins.x == x)
    ensures SameObject(k, n, x)
  {
    hide Inv, Allowed, Step, SameAt;
    if OnObjects(e.ins) {
      OthersObject(k, e, n, o, x);
    } else if e.ins.ParStart? || e.ins.EndP? {
      ParObject(k, e, n, o, x);
    } else {
      OtherObjects(k, e, n, o);
      SameAts(k, n, x);
    }
  }

  lemma SameAts(k: K, n: K, x: int)
    requires n.sem == k.sem && n.bar == k.bar && n.waitq == k.waitq && n.holder == k.holder
    ensures SameObject(k, n, x)
  {}

  lemma ParObject(k: K, e: Event, n: K, o: Outcome, x: int)
    requires Allowed(k, e) && Step(k, e, n, o) && (e.ins.ParStart? || e.ins.EndP?)
    ensures SameObject(k, n, x)
  {
    hide SameObject, EndStep, YieldAllowed, ParStarted;
    match e.ins {
      case ParStart(w, count, resume) => ParWords(k, w, count, resume);
      case EndP(w) => EndWords(k, n, o, w, e.later);
    }
    SameAts(k, n, x);
  }

  /** The objects but for PARs are the same. */
  ghost predicate ParsOnly(k: K, n: K) { n.sem == k.sem && n.bar == k.bar && n.waitq == k.waitq && n.holder == k.holder }

  lemma ParWords(k: K, w: int, count: Word, resume: int)
    ensures ParsOnly(k, ParStarted(k, w, count, resume))
    ensures ParStarted(k, w, count, resume).par == k.par[w := Par(resume, count)]
  {}

  lemma EndShapes(k: K, w: int)
    requires w in k.par
    ensures ParsOnly(k, Ended(k, w))
    ensures Ended(k, w).par == k.par[w := k.par[w].(count := Sub(k.par[w].count, 1))]
    ensures ParsOnly(k, Joined(k, w))
    ensures Joined(k, w).par == k.par[w := k.par[w].(count := 0)]
  {}

  lemma EndWords(k: K, n: K, o: Outcome, w: int, later: Word)
    requires w in k.par && EndStep(k, n, o, w, later)
    ensures ParsOnly(k, n) && n.par == k.par[w := k.par[w].(count := Sub(k.par[w].count, 1))]
  {
    hide RunsNext, Joined, Ended;
    EndShapes(k, w);
    if k.par[w].count != 1 { RunsNextObjects(Ended(k, w), n, o, later); }
  }

  /** What is done to y is nothing to x. */
  lemma ClaimShapes(k: K, y: int, x: int)
    requires x != y && y in k.sem && y in k.waitq
    ensures SameObject(k, ClaimFree(k, y), x)
    ensures SameObject(k, ClaimBusy(k, y), x)
  {
    hide Behind;
  }

  lemma ReleaseShapes(k: K, y: int, x: int)
    requires x != y && y in k.sem && y in k.waitq
    ensures SameObject(k, ReleaseFree(k, y), x)
    ensures k.waitq[y] != [] ==> SameObject(k, Enqueue(HandOver(k, y), k.sem[y].fptr), x)
  {
    hide Behind;
  }

  lemma SyncShape(k: K, y: int, x: int)
    requires x != y && y in k.bar && y in k.waitq && k.bar[y].count > 0
    ensures SameObject(k, SyncWait(k, y), x)
  {
    hide BarBehind;
  }

  lemma EnrolShape(k: K, y: int, x: int, m: Word)
    requires x != y && y in k.bar && k.bar[y].enrolled + m < W && k.bar[y].count + m < W
    ensures SameObject(k, Enrol(k, y, m), x)
  {}

  lemma ResignShape(k: K, y: int, x: int, m: Word)
    requires x != y && y in k.bar && m <= k.bar[y].enrolled && m <= k.bar[y].count
    ensures SameObject(k, Resign(k, y, m), x)
  {}

  lemma CompleteShape(k: K, y: int, x: int, m: Word)
    requires x != y && y in k.bar && y in k.waitq
    ensures SameObject(k, Complete(k, y, m), x)
  {
    hide AppendLink, SetQueued;
  }

  lemma NewSemShape(k: K, y: int, x: int)
    requires x != y
    ensures SameObject(k, NewSem(k, y), x)
  {}

  lemma NewBarShape(k: K, y: int, x: int, m: Word)
    requires x != y
    ensures SameObject(k, NewBar(k, y, m), x)
  {}

  lemma SameThrough(k: K, m: K, n: K, o: Outcome, now: Word, x: int)
    requires SameObject(k, m, x) && RunsNext(m, n, o, now)
    ensures SameObject(k, n, x)
  {
    hide RunsNext;
    RunsNextObjects(m, n, o, now);
  }

  lemma OthersObject(k: K, e: Event, n: K, o: Outcome, x: int)
    requires Inv(k) && Allowed(k, e) && Step(k, e, n, o) && OnObjects(e.ins) && e.ins.x != x
    ensures SameObject(k, n, x)
  {
    hide Core, Hand, ClaimFree, ClaimBusy, ReleaseFree, HandOver, Enqueue, NewSem, NewBar, SyncWait, Complete, Enrol, Resign,
         RunsNext, OnTime, SameObject, InAlt, IoAllowed, IoStep, StartAlt, StartAllowed, EndStep, EndAllowed;
    var y := e.ins.x;
    match e.ins
    case SemInit(_) => NewSemShape(k, y, x);
    case BarInit(_, m) => NewBarShape(k, y, x, m);
    case SemClaim(_) =>
      ClaimShapes(k, y, x);
      if k.sem[y].fptr != 1 { SameThrough(k, ClaimBusy(k, y), n, o, e.later, x); }
    case SemRelease(_) => ReleaseShapes(k, y, x);
    case BarSync(_) =>
      CompleteShape(k, y, x, k.bar[y].enrolled);
      if k.bar[y].count > 1 {
        SyncShape(k, y, x);
        SameThrough(k, SyncWait(k, y), n, o, e.later, x);
      }
    case BarEnroll(_, m) =>
      SameAts(k, k, x);
      if k.bar[y].enrolled + m < W { EnrolShape(k, y, x, m); }
    case BarResign(_, m) =>
      SameAts(k, k, x);
      if m <= k.bar[y].enrolled {
        CompleteShape(k, y, x, k.bar[y].enrolled - m);
        if m <= k.bar[y].count { ResignShape(k, y, x, m); }
      }
  }

  // ---------------------------------------------------------------- semaphores

  /** The semaphore became free, or went to the first of the waiters, who is queued to run. */
  ghost predicate HandedOn(k: K, n: K, x: int) {
    && x in k.waitq && x in n.holder && x in n.sem && x in n.waitq
    && (k.waitq[x] == [] ==> n.holder[x] == 0 && n.sem[x].fptr == 1 && n.waitq[x] == [] && n.runq == k.runq)
    && (k.waitq[x] != [] ==>
          && n.holder[x] == k.waitq[x][0] && n.sem[x].fptr != 1 && n.waitq[x] == k.waitq[x][1..]
          && n.runq == k.runq + [k.waitq[x][0]] && k.waitq[x][0] !in k.runq)
  }

  /** Releasing a semaphore somebody waits for hands it to the first waiter, which is queued
      to run; the semaphore does not become free in between. */
  lemma HandsOver(k: K, n: K, x: int)
    requires Inv(k) && ReleaseAllowed(k, x) && ReleaseStep(k, n, x)
    ensures HandedOn(k, n, x)
  {
    hide Core, Inv, Hand, Enqueue, HandOver, HandedOn;
    CurrentInHand(k);
    FreeIsFree(k, x);
    ReleaseKeeps(k, n, x);
    if k.sem[x].fptr != 0 { HandsToWaiter(k, n, x); } else { BecomesFree(k, n, x); }
  }

  lemma HandsToWaiter(k: K, n: K, x: int)
    requires Core(k) && Inv(n) && x in k.sem && x in k.waitq && x in k.holder && k.waitq[x] != []
    requires k.sem[x].fptr == k.waitq[x][0] != 0 && n == Enqueue(HandOver(k, x), k.sem[x].fptr)
    ensures HandedOn(k, n, x)
  {
    hide Core, Inv, Enqueue, HandOver, SameObjects;
    HandOverIs(k, x);
    EnqueueObjects(HandOver(k, x), k.waitq[x][0]);
    SameWords(HandOver(k, x), n);
    WaiterQueue(k, x);
    HeldNotFree(n, x);
  }

  lemma BecomesFree(k: K, n: K, x: int)
    requires Core(k) && x in k.sem && x in k.waitq && k.sem[x].fptr == 0 && n == ReleaseFree(k, x)
    ensures HandedOn(k, n, x)
  {
    hide Core;
    WaitersZero(k, x);
  }

  lemma SameWords(k: K, n: K)
    requires SameObjects(k, n)
    ensures n.sem == k.sem && n.waitq == k.waitq && n.holder == k.holder
  {}

  lemma HandOverIs(k: K, x: int)
    requires x in k.sem && x in k.waitq && k.waitq[x] != []
    ensures var m := HandOver(k, x);
            && x in m.sem && x in m.waitq && x in m.holder && m.waitq[x] == k.waitq[x][1..]
            && m.holder[x] == k.sem[x].fptr && m.runq == k.runq
  {}

  lemma EnqueueObjects(k: K, p: int)
    ensures SameObjects(k, Enqueue(k, p)) && Enqueue(k, p).runq == k.runq + [p]
  {}

  lemma HeldNotFree(k: K, x: int)
    requires Inv(k) && x in k.sem
    ensures x in k.holder && (k.sem[x].fptr == 1 <==> k.holder[x] == 0)
  {
    hide Core, Hand;
    FreeIsFree(k, x);
  }

  /** Claiming a busy semaphore queues the process behind the earlier claimants; claiming a
      free one makes it the holder. */
  lemma ClaimsInTurn(k: K, n: K, o: Outcome, x: int, later: Word)
    requires Inv(k) && ClaimAllowed(k, x, later) && ClaimStep(k, n, o, x, later)
    ensures x in k.holder && x in n.holder && x in n.waitq && x in n.sem
    ensures k.holder[x] == 0 ==> n.holder[x] == k.wptr && n.wptr == k.wptr && n.waitq == k.waitq
    ensures k.holder[x] != 0 ==>
              && n.holder[x] == k.holder[x] && n.waitq[x] == k.waitq[x] + [k.wptr]
              && k.wptr in n.place && n.place[k.wptr] == InQueue(x)
  {
    hide Core, Inv, Hand, ClaimBusy, RunsNext, Timely;
    CurrentInHand(k);
    FreeIsFree(k, x);
    if k.sem[x].fptr != 1 {
      ClaimBusyCore(k, x);
      ClaimPlaces(k, x);
      ClaimBusyShape(k, x);
      RunsNextStays(ClaimBusy(k, x), n, o, later, k.wptr);
      RunsNextObjects(ClaimBusy(k, x), n, o, later);
    }
  }

  lemma ClaimBusyShape(k: K, x: int)
    requires x in k.sem && x in k.waitq && x in k.holder
    ensures var m := ClaimBusy(k, x);
            && x in m.waitq && x in m.sem && m.waitq[x] == k.waitq[x] + [k.wptr] && m.holder == k.holder
            && k.wptr in m.place && m.place[k.wptr] == InQueue(x)
  {
    hide Behind;
  }

  /** What a step makes of the queue of a semaphore and of its holder: a claim joins at the
      back or takes what is free, a release passes it to the front, nothing else matters. */
  ghost predicate Turn(k: K, i: Ins, n: K, x: int)
    requires x in k.waitq && x in k.holder && x in n.waitq && x in n.holder
  {
    if i == SemRelease(x) then
      (if k.waitq[x] == [] then n.holder[x] == 0 && n.waitq[x] == []
       else n.holder[x] == k.waitq[x][0] && n.waitq[x] == k.waitq[x][1..])
    else if i == SemClaim(x) then
      (if k.holder[x] == 0 then n.holder[x] == k.wptr && n.waitq[x] == k.waitq[x]
       else n.holder[x] == k.holder[x] && n.waitq[x] == k.waitq[x] + [k.wptr])
    else n.holder[x] == k.holder[x] && n.waitq[x] == k.waitq[x]
  }

  lemma SemaphoreStep(k: K, e: Event, n: K, o: Outcome, x: int)
    requires Inv(k) && Allowed(k, e) && Step(k, e, n, o) && x in k.sem
    ensures x in k.waitq && x in k.holder && x in n.sem && x in n.waitq && x in n.holder && Turn(k, e.ins, n, x)
  {
    hide Core, Hand, IoAllowed, IoStep, RunsNext, ClaimBusy, OnTime;
    FreeIsFree(k, x);
    if e.ins == SemRelease(x) {
      HandsOver(k, n, x);
    } else if e.ins == SemClaim(x) {
      ClaimsInTurn(k, n, o, x, e.later);
    } else {
      NotThere(k, e, x);
      ElsewhereObject(k, e, n, o, x);
    }
  }

  /** A semaphore is not made anew, nor used as a barrier. */
  lemma NotThere(k: K, e: Event, x: int)
    requires Allowed(k, e) && x in k.sem && x in k.waitq && x !in k.bar && e.ins != SemRelease(x) && e.ins != SemClaim(x)
    ensures !(OnObjects(e.ins) && e.ins.x == x)
  {
    hide OnTime;
  }

  /** The releases of x among the events from i up to j. */
  ghost function Releases(events: seq<Event>, x: int, i: nat, j: nat): (r: nat)
    requires i <= j <= |events|
    ensures r <= j - i
    decreases j
  {
    if i == j then 0 else Releases(events, x, i, j - 1) + if events[j - 1].ins == SemRelease(x) then 1 else 0
  }

  /** First come, first served, in every run: h holds x and the queue q waits. After r releases
      the holder is the one at place r of h and q, and the others of q still wait in front of
      all who claimed later. */
  lemma {:induction false} GrantedInOrder(states: seq<K>, events: seq<Event>, i: nat, j: nat, x: int)
    requires Run(states, events) && Inv(states[0]) && i <= j < |states|
    requires x in states[i].sem && x in states[i].waitq && x in states[i].holder && states[i].holder[x] != 0
    requires Releases(events, x, i, j) <= |states[i].waitq[x]|
    ensures x in states[j].sem && x in states[j].waitq && x in states[j].holder
    ensures var r := Releases(events, x, i, j);
            && states[j].holder[x] == ([states[i].holder[x]] + states[i].waitq[x])[r]
            && states[i].waitq[x][r..] <= states[j].waitq[x]
    decreases j
  {
    hide Inv, Allowed, Step, Follows;
    if i < j {
      GrantedInOrder(states, events, i, j - 1, x);
      RunKeeps(states, events, i);
      RunKeeps(states, events, j - 1);
      WaitersNonZero(states[i], x);
      assert Follows(states[j - 1], events[j - 1], states[j]);
      TurnTaken(states[j - 1], events[j - 1], states[j], x);
      InLine(states[i].holder[x], states[i].waitq[x], states[j - 1].waitq[x], Releases(events, x, i, j - 1));
    }
  }

  lemma InLine(h: int, q: seq<int>, w: seq<int>, r: nat)
    requires r <= |q| && q[r..] <= w && h != 0 && forall p | p in q :: p != 0
    ensures ([h] + q)[r] != 0
    ensures r < |q| ==> w != [] && w[0] == q[r] == ([h] + q)[r + 1] && q[r + 1..] <= w[1..]
  {
    assert r > 0 ==> q[r - 1] in q;
    if r < |q| { assert q[r..][1..] == q[r + 1..]; }
  }

  lemma WaitersNonZero(k: K, x: int)
    requires Inv(k) && x in k.waitq
    ensures forall p | p in k.waitq[x] :: p != 0 && p in k.place && k.place[p] == InQueue(x)
  {
    hide ObjectsOk, ChanOk, AltsOk, TimerOk, RunOk, NoDup, Linked;
    assert Members(k.place, k.waitq[x], InQueue(x));
  }

  lemma TurnTaken(k: K, e: Event, n: K, x: int)
    requires Inv(k) && Follows(k, e, n) && x in k.sem
    ensures x in k.waitq && x in k.holder && x in n.sem && x in n.waitq && x in n.holder && Turn(k, e.ins, n, x)
  {
    hide Inv, Allowed, Step, Turn;
    var o :| Step(k, e, n, o);
    SemaphoreStep(k, e, n, o, x);
  }

  /** Of two waiters the earlier one becomes the holder first. */
  lemma EarlierFirst(states: seq<K>, events: seq<Event>, i: nat, j: nat, x: int, a: nat, b: nat) returns (m: nat)
    requires Run(states, events) && Inv(states[0]) && i <= j < |states|
    requires x in states[i].sem && x in states[i].waitq && x in states[i].holder && states[i].holder[x] != 0
    requires a < b < |states[i].waitq[x]| && Releases(events, x, i, j) == b + 1
    ensures x in states[j].holder && states[j].holder[x] == states[i].waitq[x][b]
    ensures i < m < j && x in states[m].holder && states[m].holder[x] == states[i].waitq[x][a]
  {
    hide Inv, Follows;
    GrantedInOrder(states, events, i, j, x);
    m := ReleasedAt(events, x, i, j, a + 1);
    GrantedInOrder(states, events, i, m, x);
  }

  lemma {:induction false} ReleasedAt(events: seq<Event>, x: int, i: nat, j: nat, r: nat) returns (m: nat)
    requires i <= j <= |events| && r <= Releases(events, x, i, j)
    ensures i <= m <= j && Releases(events, x, i, m) == r
    decreases j
  {
    m := j;
    if Releases(events, x, i, j) > r { m := ReleasedAt(events, x, i, j - 1, r); }
  }

  /** Mutual exclusion, in every run: who holds a semaphore holds it until it is released, so
      that at most one process holds it at any time. */
  lemma HoldsUntilRelease(states: seq<K>, events: seq<Event>, i: nat, j: nat, x: int)
    requires Run(states, events) && Inv(states[0]) && i <= j < |states|
    requires x in states[i].holder && states[i].holder[x] != 0
    requires forall m: nat {:trigger events[m]} | i <= m < j :: events[m].ins != SemRelease(x)
    ensures x in states[j].holder && states[j].holder[x] == states[i].holder[x]
  {
    hide Inv, Follows;
    RunKeeps(states, events, i);
    HolderRegistered(states[i], x);
    NoReleases(events, x, i, j);
    GrantedInOrder(states, events, i, j, x);
  }

  lemma HolderRegistered(k: K, x: int)
    requires Inv(k) && x in k.holder
    ensures x in k.waitq && x in k.sem
  {
    hide RunOk, WaitOk, ChanOk, AltsOk, TimerOk, Hand;
  }

  lemma {:induction false} NoReleases(events: seq<Event>, x: int, i: nat, j: nat)
    requires i <= j <= |events| && forall m: nat {:trigger events[m]} | i <= m < j :: events[m].ins != SemRelease(x)
    ensures Releases(events, x, i, j) == 0
    decreases j
  {
    if i < j { NoReleases(events, x, i, j - 1); }
  }

  // ---------------------------------------------------------------- barriers

  /** Nobody leaves a barrier before everyone enrolled has come: sync completes exactly when
      all others enrolled are waiting, and then all waiters join the run queue in order of
      arrival while the barrier starts afresh; otherwise the process waits behind them. */
  lemma BarrierSync(k: K, n: K, o: Outcome, x: int, later: Word)
    requires Inv(k) && SyncAllowed(k, x, later) && SyncStep(k, n, o, x, later)
    ensures k.bar[x].count == k.bar[x].enrolled - |k.waitq[x]|
    ensures k.bar[x].enrolled <= |k.waitq[x]| + 1 ==>
              && o == Continue && n.wptr == k.wptr && n.runq == k.runq + k.waitq[x] && x in n.waitq && n.waitq[x] == []
              && x in n.bar
              && n.bar[x].count == n.bar[x].enrolled == k.bar[x].enrolled
              && forall p | p in k.waitq[x] :: p in n.place && n.place[p].Queued?
    ensures k.bar[x].enrolled > |k.waitq[x]| + 1 ==>
              && x in n.waitq && x in n.bar && n.waitq[x] == k.waitq[x] + [k.wptr]
              && n.bar[x].enrolled == k.bar[x].enrolled && n.bar[x].count == k.bar[x].count - 1
              && k.wptr in n.place && n.place[k.wptr] == InQueue(x)
  {
    hide Core, Inv, Hand, RunsNext, Timely, SyncWait, Complete;
    CurrentInHand(k);
    BarEnds(k, x);
    if k.bar[x].count > 1 {
      SyncWaitCore(k, x);
      SyncPlaces(k, x);
      SyncWaitIs(k, x);
      RunsNextStays(SyncWait(k, x), n, o, later, k.wptr);
      RunsNextObjects(SyncWait(k, x), n, o, later);
    } else {
      CompleteIs(k, x, k.bar[x].enrolled);
      CompletedIs(k, x, k.bar[x].enrolled);
    }
  }

  lemma SyncWaitIs(k: K, x: int)
    requires x in k.bar && x in k.waitq && k.bar[x].count > 1
    ensures var m := SyncWait(k, x);
            && x in m.waitq && x in m.bar && m.waitq[x] == k.waitq[x] + [k.wptr]
            && m.bar[x].enrolled == k.bar[x].enrolled && m.bar[x].count == k.bar[x].count - 1
            && k.wptr in m.place && m.place[k.wptr] == InQueue(x)
  {
    hide BarBehind;
  }

  lemma CompletedIs(k: K, x: int, e: Word)
    requires Core(k) && x in k.bar && x in k.waitq
    ensures var n := Complete(k, x, e);
            && n.wptr == k.wptr && x in n.bar && n.bar[x].count == n.bar[x].enrolled == e
            && forall p | p in k.waitq[x] :: p in n.place && n.place[p].Queued?
  {
    hide AppendLink, RunOk, ChanOk, AltsOk, TimerOk, ObjectsOk, NoDup, Linked;
    assert Members(k.place, k.waitq[x], InQueue(x));
  }

  /** Resigning: an error exactly when more resign than are still to come; when all who are
      still to come resign, the barrier completes, with the waiters queued in order of arrival
      and a fresh count of those left; otherwise only the words change. */
  lemma BarrierResign(k: K, n: K, o: Outcome, x: int, m: Word)
    requires Inv(k) && k.wptr != 0 && x in k.bar && x in k.waitq && ResignStep(k, n, o, x, m)
    ensures o == Error <==> m > k.bar[x].enrolled - |k.waitq[x]|
    ensures o == Error ==> n == k
    ensures o != Error ==> x in n.bar && x in n.waitq && n.bar[x].enrolled == k.bar[x].enrolled - m && n.wptr == k.wptr
    ensures m == k.bar[x].enrolled - |k.waitq[x]| ==>
              && o == Continue && n.runq == k.runq + k.waitq[x] && n.waitq[x] == [] && n.bar[x].count == n.bar[x].enrolled
              && forall p | p in k.waitq[x] :: p in n.place && n.place[p].Queued?
    ensures m < k.bar[x].enrolled - |k.waitq[x]| ==>
              && o == Continue && n.runq == k.runq && n.waitq == k.waitq && n.place == k.place
              && n.bar[x].count == k.bar[x].count - m == n.bar[x].enrolled - |n.waitq[x]|
  {
    hide Core, Inv, Hand, Complete;
    CurrentInHand(k);
    BarEnds(k, x);
    if m == k.bar[x].count {
      CompleteIs(k, x, k.bar[x].enrolled - m);
      CompletedIs(k, x, k.bar[x].enrolled - m);
    }
  }

  /** Enrolling: an error exactly when the number enrolled would pass the word range;
      otherwise there are as many more to wait for, and the waiters go on waiting. */
  lemma BarrierEnroll(k: K, n: K, o: Outcome, x: int, m: Word)
    requires Inv(k) && x in k.bar && x in k.waitq && EnrolStep(k, n, o, x, m)
    ensures o == Error <==> k.bar[x].enrolled + m >= W
    ensures o == Error ==> n == k
    ensures o != Error ==>
              && o == Continue && x in n.bar && x in n.waitq
              && n.bar[x].enrolled == k.bar[x].enrolled + m && n.bar[x].count == k.bar[x].count + m
              && n.bar[x].count == n.bar[x].enrolled - |n.waitq[x]|
              && n.waitq == k.waitq && n.place == k.place && n.runq == k.runq && n.wptr == k.wptr
  {
    hide Core, Hand;
    BarEnds(k, x);
  }

  /** What a step makes of the queue of a barrier. */
  ghost predicate Arrivals(k: K, i: Ins, n: K, x: int)
    requires x in k.waitq && x in n.waitq
  {
    if Completes(k, i, x) then n.waitq[x] == [] && n.runq == k.runq + k.waitq[x]
    else n.waitq[x] == k.waitq[x] + if i == BarSync(x) then [k.wptr] else []
  }

  lemma BarrierStep(k: K, e: Event, n: K, o: Outcome, x: int)
    requires Inv(k) && Allowed(k, e) && Step(k, e, n, o) && x in k.bar
    ensures x in k.waitq && x in n.waitq && x in n.bar && Arrivals(k, e.ins, n, x)
  {
    hide Core, Hand, IoAllowed, IoStep, RunsNext, SyncWait, Complete, OnTime;
    BarRegistered(k, x);
    if e.ins == BarSync(x) {
      BarrierSync(k, n, o, x, e.later);
    } else if e.ins.BarResign? && e.ins.x == x {
      BarrierResign(k, n, o, x, e.ins.n);
    } else if !(e.ins.BarEnroll? && e.ins.x == x) {
      NotHere(k, e, x);
      ElsewhereObject(k, e, n, o, x);
    }
  }

  lemma BarRegistered(k: K, x: int)
    requires Inv(k) && x in k.bar
    ensures x in k.waitq && x !in k.sem
  {
    hide Core, Hand;
    BarFacts(k, x);
  }

  lemma NotHere(k: K, e: Event, x: int)
    requires Allowed(k, e) && x in k.bar && x in k.waitq && x !in k.sem
    requires e.ins != BarSync(x) && !((e.ins.BarResign? || e.ins.BarEnroll?) && e.ins.x == x)
    ensures !(OnObjects(e.ins) && e.ins.x == x)
  {
    hide OnTime;
  }

  /** What an instruction adds to the number enrolled at x: nothing when it is an error. */
  ghost function Joining(k: K, i: Ins, x: int): int {
    if x !in k.bar || x !in k.waitq then 0
    else if i.BarEnroll? && i.x == x && k.bar[x].enrolled + i.n < W then i.n
    else if i.BarResign? && i.x == x && i.n <= k.bar[x].enrolled - |k.waitq[x]| then 0 - i.n
    else 0
  }

  lemma EnrolledStep(k: K, e: Event, n: K, o: Outcome, x: int)
    requires Inv(k) && Allowed(k, e) && Step(k, e, n, o) && x in k.bar
    ensures x in n.bar && n.bar[x].enrolled == k.bar[x].enrolled + Joining(k, e.ins, x)
  {
    hide Core, Hand, IoAllowed, IoStep, RunsNext, SyncWait, Complete, OnTime;
    BarRegistered(k, x);
    if e.ins == BarSync(x) {
      BarrierSync(k, n, o, x, e.later);
    } else if e.ins.BarResign? && e.ins.x == x {
      BarrierResign(k, n, o, x, e.ins.n);
    } else if e.ins.BarEnroll? && e.ins.x == x {
      BarrierEnroll(k, n, o, x, e.ins.n);
    } else {
      NotHere(k, e, x);
      ElsewhereObject(k, e, n, o, x);
    }
  }

  /** Enrolments less resignations at x from state i up to state j. */
  ghost function Enrolments(states: seq<K>, events: seq<Event>, x: int, i: nat, j: nat): int
    requires |states| == |events| + 1 && i <= j < |states|
    decreases j
  {
    if i == j then 0 else Enrolments(states, events, x, i, j - 1) + Joining(states[j - 1], events[j - 1].ins, x)
  }

  /** The account of a barrier in every run: those enrolled are those it was made for, with the
      enrolments and less the resignations since; still to come are those enrolled who do
      not wait. */
  lemma {:induction false} EnrolledAccount(states: seq<K>, events: seq<Event>, i: nat, j: nat, x: int)
    requires Run(states, events) && Inv(states[0]) && i < j < |states| && events[i].ins.BarInit? && events[i].ins.x == x
    ensures x in states[j].bar && x in states[j].waitq
    ensures states[j].bar[x].enrolled == events[i].ins.n + Enrolments(states, events, x, i + 1, j)
    ensures states[j].bar[x].count == states[j].bar[x].enrolled - |states[j].waitq[x]|
    decreases j
  {
    hide Inv, Allowed, Step, Follows, Joining;
    assert Follows(states[j - 1], events[j - 1], states[j]);
    RunKeeps(states, events, j - 1);
    if j == i + 1 {
      MadeFor(states[i], events[i], states[j]);
    } else {
      EnrolledAccount(states, events, i, j - 1, x);
      Enrolled(states[j - 1], events[j - 1], states[j], x);
    }
    RunKeeps(states, events, j);
    CountIs(states[j], x);
  }

  lemma Enrolled(k: K, e: Event, n: K, x: int)
    requires Inv(k) && Follows(k, e, n) && x in k.bar
    ensures x in n.bar && n.bar[x].enrolled == k.bar[x].enrolled + Joining(k, e.ins, x)
  {
    hide Inv, Allowed, Step, Joining;
    var o :| Step(k, e, n, o);
    EnrolledStep(k, e, n, o, x);
  }

  lemma MadeFor(k: K, e: Event, n: K)
    requires Follows(k, e, n) && e.ins.BarInit?
    ensures var x := e.ins.x; x in n.bar && x in n.waitq && n.bar[x].enrolled == e.ins.n && n.waitq[x] == []
  {}

  lemma CountIs(k: K, x: int)
    requires Inv(k) && x in k.bar
    ensures x in k.waitq && k.bar[x].count == k.bar[x].enrolled - |k.waitq[x]|
  {
    hide Core, Hand;
    BarFacts(k, x);
    BarEnds(k, x);
  }

  /** A new semaphore is free, and nobody waits for it. */
  lemma MadeFree(k: K, e: Event, n: K)
    requires Follows(k, e, n) && e.ins.SemInit?
    ensures var x := e.ins.x; x in n.sem && x in n.holder && x in n.waitq && n.holder[x] == 0 && n.waitq[x] == []
  {}

  /** Nobody leaves a barrier, in any run, before all still enrolled have come: until the
      instruction at which the number enrolled less those waiting is used up, by a sync or by
      a resignation, every waiter stays where it is, in order of arrival. */
  lemma {:induction false} WaitsForAll(states: seq<K>, events: seq<Event>, i: nat, j: nat, x: int)
    requires Run(states, events) && Inv(states[0]) && i <= j < |states| && x in states[i].bar && x in states[i].waitq
    requires forall m: nat {:trigger events[m]} | i <= m < j :: !Completes(states[m], events[m].ins, x)
    ensures x in states[j].bar && x in states[j].waitq && states[i].waitq[x] <= states[j].waitq[x]
    ensures forall p | p in states[i].waitq[x] :: p in states[j].place && states[j].place[p] == InQueue(x)
    decreases j
  {
    hide Inv, Allowed, Step, Follows, Completes;
    RunKeeps(states, events, j);
    if i < j {
      WaitsForAll(states, events, i, j - 1, x);
      RunKeeps(states, events, j - 1);
      assert Follows(states[j - 1], events[j - 1], states[j]);
      Arrived(states[j - 1], events[j - 1], states[j], x);
    }
    WaitersNonZero(states[j], x);
  }

  lemma Arrived(k: K, e: Event, n: K, x: int)
    requires Inv(k) && Follows(k, e, n) && x in k.bar
    ensures x in k.waitq && x in n.waitq && x in n.bar && Arrivals(k, e.ins, n, x)
  {
    hide Inv, Allowed, Step, Arrivals;
    var o :| Step(k, e, n, o);
    BarrierStep(k, e, n, o, x);
  }

  /** At the instruction that completes a barrier everyone goes, in order of arrival. */
  lemma AllLeave(states: seq<K>, events: seq<Event>, i: nat, x: int)
    requires Run(states, events) && Inv(states[0]) && i < |events| && Completes(states[i], events[i].ins, x)
    ensures x in states[i + 1].waitq && states[i + 1].waitq[x] == []
    ensures states[i + 1].runq == states[i].runq + states[i].waitq[x]
  {
    hide Inv, Allowed, Step, Follows;
    RunKeeps(states, events, i);
    assert Follows(states[i], events[i], states[i + 1]);
    Arrived(states[i], events[i], states[i + 1], x);
  }

  // ---------------------------------------------------------------- PAR

  /** Only storing the words of the PAR at w, and the ends of its branches, touch them. */
  lemma ParKept(k: K, e: Event, n: K, o: Outcome, w: int)
    requires Inv(k) && Allowed(k, e) && Step(k, e, n, o) && !((e.ins.ParStart? || e.ins.EndP?) && e.ins.w == w)
    ensures SameAt(k.par, n.par, w)
  {
    hide Inv, Allowed, Step;
    if OnObjects(e.ins) {
      ObjectsPar(k, e, n, o);
    } else if e.ins.ParStart? || e.ins.EndP? {
      OtherPar(k, e, n, o, w);
    } else {
      OtherObjects(k, e, n, o);
    }
  }

  lemma OtherPar(k: K, e: Event, n: K, o: Outcome, w: int)
    requires Allowed(k, e) && Step(k, e, n, o) && (e.ins.ParStart? || e.ins.EndP?) && e.ins.w != w
    ensures SameAt(k.par, n.par, w)
  {
    hide EndStep, YieldAllowed, ParStarted;
    match e.ins
    case ParStart(v, count, resume) => ParWords(k, v, count, resume);
    case EndP(v) => EndWords(k, n, o, v, e.later);
  }

  lemma ObjectsPar(k: K, e: Event, n: K, o: Outcome)
    requires Inv(k) && Allowed(k, e) && Step(k, e, n, o) && OnObjects(e.ins)
    ensures n.par == k.par
  {
    hide Core, Hand, ClaimStep, ReleaseStep, SyncStep, EnrolStep, ResignStep, NewSem, NewBar, OnTime, Plain;
    match e.ins
    case SemInit(y) => NewPar(k, y, 0);
    case BarInit(y, m) => NewPar(k, y, m);
    case SemClaim(y) => ClaimPar(k, n, o, y, e.later);
    case SemRelease(y) => ReleasePar(k, n, y);
    case BarSync(y) => SyncPar(k, n, o, y, e.later);
    case BarEnroll(y, m) =>
      BarFacts(k, y);
      WordsPar(k, n, o, y, m);
    case BarResign(y, m) => WordsPar(k, n, o, y, m);
  }

  lemma NewPar(k: K, y: int, m: Word)
    ensures NewSem(k, y).par == k.par
    ensures NewBar(k, y, m).par == k.par
  {}

  lemma SemPar(k: K, y: int)
    requires y in k.sem && y in k.waitq
    ensures ClaimFree(k, y).par == k.par
    ensures ClaimBusy(k, y).par == k.par
    ensures ReleaseFree(k, y).par == k.par
    ensures k.waitq[y] != [] ==> Enqueue(HandOver(k, y), k.sem[y].fptr).par == k.par
  {
    hide Behind;
  }

  lemma BarPar(k: K, y: int, m: Word)
    requires y in k.bar && y in k.waitq
    ensures Complete(k, y, m).par == k.par
    ensures k.bar[y].count > 0 ==> SyncWait(k, y).par == k.par
  {
    hide BarBehind, AppendLink, SetQueued;
  }

  lemma EnrolPar(k: K, y: int, m: Word)
    requires y in k.bar
    ensures k.bar[y].enrolled + m < W && k.bar[y].count + m < W ==> Enrol(k, y, m).par == k.par
    ensures m <= k.bar[y].enrolled && m <= k.bar[y].count ==> Resign(k, y, m).par == k.par
  {}

  lemma ClaimPar(k: K, n: K, o: Outcome, y: int, later: Word)
    requires y in k.sem && y in k.waitq && ClaimStep(k, n, o, y, later)
    ensures n.par == k.par
  {
    hide ClaimFree, ClaimBusy, ReleaseFree, HandOver, Enqueue, RunsNext;
    SemPar(k, y);
    if k.sem[y].fptr != 1 { RunsNextObjects(ClaimBusy(k, y), n, o, later); }
  }

  lemma ReleasePar(k: K, n: K, y: int)
    requires y in k.sem && y in k.waitq && ReleaseStep(k, n, y)
    ensures n.par == k.par
  {
    hide ClaimFree, ClaimBusy, ReleaseFree, HandOver, Enqueue;
    SemPar(k, y);
  }

  lemma SyncPar(k: K, n: K, o: Outcome, y: int, later: Word)
    requires y in k.bar && y in k.waitq && SyncStep(k, n, o, y, later)
    ensures n.par == k.par
  {
    hide SyncWait, Complete, Enrol, Resign, RunsNext;
    BarPar(k, y, k.bar[y].enrolled);
    if k.bar[y].count > 1 { RunsNextObjects(SyncWait(k, y), n, o, later); }
  }

  lemma WordsPar(k: K, n: K, o: Outcome, y: int, m: Word)
    requires y in k.bar && y in k.waitq && (EnrolStep(k, n, o, y, m) || ResignStep(k, n, o, y, m))
    ensures n.par == k.par
  {
    hide SyncWait, Complete, Enrol, Resign;
    EnrolPar(k, y, m);
    if m <= k.bar[y].enrolled { BarPar(k, y, k.bar[y].enrolled - m); }
  }

  /** The branches of the PAR at w that end among the events from i up to j. */
  ghost function Ends(events: seq<Event>, w: int, i: nat, j: nat): (r: nat)
    requires i <= j <= |events|
    ensures r <= j - i
    decreases j
  {
    if i == j then 0 else Ends(events, w, i, j - 1) + if events[j - 1].ins == EndP(w) then 1 else 0
  }

  /** No new PAR is started at w. */
  ghost predicate SamePar(events: seq<Event>, w: int, i: nat, j: nat)
    requires i <= j <= |events|
  {
    forall m: nat {:trigger events[m]} | i <= m < j :: !(events[m].ins.ParStart? && events[m].ins.w == w)
  }

  lemma ParStep(k: K, e: Event, n: K, w: int)
    requires Inv(k) && Follows(k, e, n) && w in k.par && !(e.ins.ParStart? && e.ins.w == w)
    ensures w in n.par && n.par[w] == k.par[w].(count := Sub(k.par[w].count, if e.ins == EndP(w) then 1 else 0))
  {
    hide Inv, Allowed, Step;
    var o :| Step(k, e, n, o);
    if e.ins == EndP(w) {
      EndsOne(k, e, n, o, w);
    } else {
      ParKept(k, e, n, o, w);
    }
  }

  lemma EndsOne(k: K, e: Event, n: K, o: Outcome, w: int)
    requires Allowed(k, e) && Step(k, e, n, o) && e.ins == EndP(w)
    ensures w in k.par && w in n.par && n.par[w] == k.par[w].(count := Sub(k.par[w].count, 1)) && EndStep(k, n, o, w, e.later)
  {
    hide EndStep, YieldAllowed;
    EndWords(k, n, o, w, e.later);
  }

  /** In every run the count word of a PAR is the number of branches less those that ended. */
  lemma {:induction false} ParCount(states: seq<K>, events: seq<Event>, i: nat, j: nat, w: int)
    requires Run(states, events) && Inv(states[0]) && i <= j < |states| && w in states[i].par && SamePar(events, w, i, j)
    ensures w in states[j].par && states[j].par[w].resume == states[i].par[w].resume
    ensures states[j].par[w].count == Sub(states[i].par[w].count, Ends(events, w, i, j))
    decreases j
  {
    hide Inv, Allowed, Step, Follows;
    if i < j {
      ParCount(states, events, i, j - 1, w);
      RunKeeps(states, events, j - 1);
      assert Follows(states[j - 1], events[j - 1], states[j]);
      ParStep(states[j - 1], events[j - 1], states[j], w);
      SubTwice(states[i].par[w].count, Ends(events, w, i, j - 1));
    }
  }

  lemma SubTwice(c: int, a: int)
    ensures Sub(Sub(c, a), 1) == Sub(c, a + 1) && Sub(Sub(c, a), 0) == Sub(c, a)
  {
    Congruent(c - a - 1, Sub(c, a) - 1, (c - a) / W);
  }

  lemma {:induction false} EndsMono(events: seq<Event>, w: int, i: nat, m: nat, j: nat)
    requires i <= m < j <= |events|
    ensures Ends(events, w, i, m) + (if events[m].ins == EndP(w) then 1 else 0) <= Ends(events, w, i, j)
    decreases j
  {
    if m < j - 1 { EndsMono(events, w, i, m, j - 1); }
  }

  /** The parent, once parked, stays parked until the last branch counted has ended. */
  lemma {:induction false} ParentParked(states: seq<K>, events: seq<Event>, i: nat, a: nat, j: nat, w: int)
    requires Run(states, events) && Inv(states[0]) && i <= a <= j < |states| && w in states[i].par && SamePar(events, w, i, j)
    requires Ends(events, w, i, j) < states[i].par[w].count
    requires w in states[a].place && states[a].place[w].Dormant?
    requires forall m: nat {:trigger events[m]} | a <= m < j :: !((events[m].ins.StartP? || events[m].ins.RunP?) && events[m].ins.w == w)
    ensures w in states[j].place && states[j].place[w].Dormant?
    decreases j
  {
    hide Inv, Allowed, Step, Follows, MovedBy;
    if a < j {
      ParentParked(states, events, i, a, j - 1, w);
      RunKeeps(states, events, j - 1);
      ParCount(states, events, i, j - 1, w);
      assert Follows(states[j - 1], events[j - 1], states[j]);
      OneEndLess(states[i].par[w].count, Ends(events, w, i, j - 1));
      StaysParked(states[j - 1], events[j - 1], states[j], w);
    }
  }

  lemma OneEndLess(c: Word, a: nat)
    requires a < c
    ensures Sub(c, a) == c - a
  {}

  lemma StaysParked(k: K, e: Event, n: K, w: int)
    requires Inv(k) && Follows(k, e, n) && w in k.place && k.place[w].Dormant?
    requires !((e.ins.StartP? || e.ins.RunP?) && e.ins.w == w)
    requires e.ins == EndP(w) ==> w in k.par && k.par[w].count != 1
    ensures w in n.place && n.place[w].Dormant?
  {
    hide Inv, Allowed, Step;
    var o :| Step(k, e, n, o);
    if e.ins == EndP(w) {
      StepStays(k, e, n, o, w);
    } else if w !in n.place || n.place[w] != k.place[w] {
      MovedOnly(k, e, n, o, w);
    }
  }

  /** The join of a PAR, in every run: of the branches that end after the words were stored,
      exactly the one that makes the number counted goes on as the parent, at the resume
      address; every other one is gone for good and leaves a parked parent parked. */
  lemma Joins(states: seq<K>, events: seq<Event>, i: nat, j: nat, w: int, count: Word, resume: int)
    requires Run(states, events) && Inv(states[0]) && i < j < |events|
    requires events[i].ins == ParStart(w, count, resume) && events[j].ins == EndP(w) && SamePar(events, w, i + 1, j)
    requires 0 < count && Ends(events, w, i + 1, j) < W
    ensures w in states[j + 1].par && states[j + 1].par[w] == Par(resume, Sub(count, Ends(events, w, i + 1, j) + 1))
    ensures Ends(events, w, i + 1, j) + 1 == count ==>
              && states[j + 1].wptr == w && states[j + 1].ip == resume && states[j + 1].runq == states[j].runq
              && (states[j].wptr != w ==> states[j].wptr in states[j + 1].place && states[j + 1].place[states[j].wptr].Dormant?)
    ensures Ends(events, w, i + 1, j) + 1 != count ==>
              && states[j].wptr in states[j + 1].place && states[j + 1].place[states[j].wptr].Dormant?
              && (w in states[j].place && states[j].place[w].Dormant? ==> w in states[j + 1].place && states[j + 1].place[w].Dormant?)
  {
    hide Inv, Allowed, Step;
    assert Follows(states[i], events[i], states[i + 1]) && Follows(states[j], events[j], states[j + 1]);
    Stored(states[i], events[i], states[i + 1], w, count, resume);
    ParCount(states, events, i + 1, j, w);
    RunKeeps(states, events, j);
    SubTwice(count, Ends(events, w, i + 1, j));
    SubIsOne(count, Ends(events, w, i + 1, j));
    JoinStep(states[j], events[j], states[j + 1], w);
  }

  /** The parent that has ended its own branch is parked when a later branch ends: what
      EndAllowed asks of the parent holds whenever each branch, its own included, ends once. */
  lemma ParentReady(states: seq<K>, events: seq<Event>, i: nat, a: nat, j: nat, w: int, count: Word, resume: int)
    requires Run(states, events) && Inv(states[0]) && i < a < j < |states|
    requires events[i].ins == ParStart(w, count, resume) && events[a].ins == EndP(w) && states[a].wptr == w
    requires SamePar(events, w, i + 1, j) && Ends(events, w, i + 1, j) < count
    requires forall m: nat {:trigger events[m]} | a < m < j :: !((events[m].ins.StartP? || events[m].ins.RunP?) && events[m].ins.w == w)
    ensures w in states[j].place && states[j].place[w].Dormant?
  {
    hide Inv, Allowed, Step;
    EndsMono(events, w, i + 1, a, j);
    Joins(states, events, i, a, w, count, resume);
    assert Follows(states[i], events[i], states[i + 1]);
    Stored(states[i], events[i], states[i + 1], w, count, resume);
    ParentParked(states, events, i + 1, a + 1, j, w);
  }

  lemma Stored(k: K, e: Event, n: K, w: int, count: Word, resume: int)
    requires Follows(k, e, n) && e.ins == ParStart(w, count, resume)
    ensures w in n.par && n.par[w] == Par(resume, count)
  {
    hide ParStarted;
    ParWords(k, w, count, resume);
  }

  lemma SubIsOne(c: Word, a: nat)
    requires 0 < c && a < W
    ensures Sub(c, a) == 1 <==> a + 1 == c
  {}

  lemma JoinStep(k: K, e: Event, n: K, w: int)
    requires Inv(k) && Follows(k, e, n) && e.ins == EndP(w)
    ensures w in k.par && w in n.par && n.par[w] == k.par[w].(count := Sub(k.par[w].count, 1))
    ensures k.par[w].count == 1 ==>
              && n.wptr == w && n.ip == k.par[w].resume && n.runq == k.runq
              && (k.wptr != w ==> k.wptr in n.place && n.place[k.wptr].Dormant?)
    ensures k.par[w].count != 1 ==>
              && k.wptr in n.place && n.place[k.wptr].Dormant?
              && (w in k.place && k.place[w].Dormant? ==> w in n.place && n.place[w].Dormant?)
  {
    hide Inv, Core, Hand, Allowed, Step, EndStep, Joined, Ended;
    var o :| Step(k, e, n, o);
    EndsOne(k, e, n, o, w);
    EndIs(k, e, w);
    if k.par[w].count == 1 {
      JoinedIs(k, n, o, w, e.later);
    } else {
      GoneForGood(k, n, o, w, e.later);
      if w in k.place && k.place[w].Dormant? { StepStays(k, e, n, o, w); }
    }
  }

  lemma EndIs(k: K, e: Event, w: int)
    requires Allowed(k, e) && e.ins == EndP(w)
    ensures EndAllowed(k, w, e.later)
  {
    hide EndAllowed;
  }

  lemma JoinedIs(k: K, n: K, o: Outcome, w: int, later: Word)
    requires w in k.par && EndStep(k, n, o, w, later) && k.par[w].count == 1
    ensures n.wptr == w && n.ip == k.par[w].resume && n.runq == k.runq
    ensures k.wptr != w ==> k.wptr in n.place && n.place[k.wptr].Dormant?
  {
    hide RunsNext, Ended;
  }

  lemma GoneForGood(k: K, n: K, o: Outcome, w: int, later: Word)
    requires Inv(k) && EndAllowed(k, w, later) && EndStep(k, n, o, w, later) && k.par[w].count != 1
    ensures k.wptr in n.place && n.place[k.wptr].Dormant?
  {
    hide Inv, Core, Hand, RunsNext, Timely, Joined;
    EndedCore(k, w);
    EndedPlace(k, w);
    RunsNextStays(Ended(k, w), n, o, later, k.wptr);
  }

  lemma EndedCore(k: K, w: int)
    requires Inv(k) && Plain(k) && w in k.par
    ensures Core(Ended(k, w))
  {
    hide Inv, Core, Hand;
    CurrentInHand(k);
    MovedCore(k, k.wptr, Dormant);
    CoreSame(Moved(k, k.wptr, Dormant), Ended(k, w));
  }

  lemma EndedPlace(k: K, w: int)
    requires w in k.par
    ensures var m := Ended(k, w); m.time == k.time && m.timerq == k.timerq && k.wptr in m.place && m.place[k.wptr].Dormant?
  {}
}
