/** The kernel instructions as steps, the usage rules occam programs obey, and the proof that
    every step keeps the kernel consistent. */
module KernelMachine {
  import opened Words
  import opened KernelState
  import opened KernelFrames
  import opened KernelQueues
  import opened KernelTimers
  import opened KernelChannels
  import opened KernelAlts
  import opened KernelObjects
  import opened KernelProcs

  /** A current process that is not in the middle of an ALT. */
  ghost predicate Plain(k: K) { k.wptr != 0 && k.wptr !in k.alt }

  /** The deadlines pending and the time at which the timers are walked fit one half range. */
  ghost predicate OnTime(k: K, now: int) { Timely(k.time, k.timerq, now) }

  lemma CurrentInHand(k: K)
    requires Inv(k) && k.wptr != 0
    ensures Core(k) && InHand(k, k.wptr) && Hand(k.place, {k.wptr})
  {
    hide Core;
  }

  // ---------------------------------------------------------------- in, out

  function Zeroed(data: Slots, dst: int, n: nat): Slots
    decreases n
  {
    if n == 0 then data else Zeroed(data[dst := 0], dst + 1, n - 1)
  }

  /** What a communication between buf and the buffer of the parked process leaves. */
  function Moves(k: K, q: int, out: bool, buf: int, len: nat): Slots {
    if out then Copy(k.data, Rd(k.ptr, q), buf, len) else Copy(k.data, buf, Rd(k.ptr, q), len)
  }

  /** chan_std_io */
  ghost predicate IoStep(k: K, n: K, o: Outcome, c: int, out: bool, buf: int, len: nat, later: Word) {
    var v := Rd(k.chan, c);
    if v == 0 then RunsNext(Block(k, c, out, buf, len), n, o, later)
    else if v == 1 then RunsNext(Requeue(k.(data := if out then k.data else Zeroed(k.data, buf, len))), n, o, later)
    else if v - 1 in k.place then
      (if Rd(k.ptr, v - 1) == WAITING then o == Continue && n == Load(Signal(k, v - 1, c, buf, len), v - 1)
       else RunsNext(Signal(k, v - 1, c, buf, len), n, o, later))
    else o == Continue && n == Load(Requeue(Release(k, v, c, Moves(k, v, out, buf, len))), v)
  }

  /** The process found on the channel is at its other end, with a buffer of the same length
      somewhere else. */
  ghost predicate Partner(k: K, q: int, c: int, out: bool, buf: int, len: nat) {
    && q in k.place && k.place[q].Blocked? && k.place[q].c == c && k.place[q].out != out && k.place[q].len == len
    && (k.place[q].buf + len <= buf || buf + len <= k.place[q].buf)
  }

  /** One reader and one writer to a channel, with equal lengths. */
  ghost predicate IoAllowed(k: K, c: int, out: bool, buf: int, len: nat, later: Word) {
    && Plain(k) && OnTime(k, later)
    && (Rd(k.chan, c) == 0 || Rd(k.chan, c) == 1 || (out && Alting(k.place, k.alt, Rd(k.chan, c) - 1, c))
        || (Partner(k, Rd(k.chan, c), c, out, buf, len) && Unguarded(k.alt, c)))
  }

  lemma IoKeeps(k: K, n: K, o: Outcome, c: int, out: bool, buf: int, len: nat, later: Word)
    requires Inv(k) && IoAllowed(k, c, out, buf, len, later) && IoStep(k, n, o, c, out, buf, len, later)
    ensures Inv(n) && o != Error && Idle(n, o)
  {
    hide Core, Inv, Hand, Block, Requeue, Load, Signal, Release, RunsNext, Alting, Partner, Zeroed, Moves, InHand, Timely;
    CurrentInHand(k);
    var v := Rd(k.chan, c);
    if v == 0 {
      BlockCore(k, c, out, buf, len);
      BlockPlaces(k, c, out, buf, len);
      RunsNextInv(Block(k, c, out, buf, len), n, o, later);
    } else if v == 1 {
      IoDisconnected(k, n, o, if out then k.data else Zeroed(k.data, buf, len), later);
    } else if Alting(k.place, k.alt, v - 1, c) {
      AlterState(k, v - 1, c);
      IoSignals(k, n, o, c, buf, len, later);
    } else {
      PartnerFacts(k, v, c, out, buf, len);
      IoMeets(k, n, v, c, out, buf, len);
    }
  }

  lemma BlockPlaces(k: K, c: int, out: bool, buf: int, len: nat)
    requires InHand(k, k.wptr) && Hand(k.place, {k.wptr})
    ensures var n := Block(k, c, out, buf, len); Hand(n.place, {}) && n.time == k.time && n.timerq == k.timerq
  {}

  lemma IoDisconnected(k: K, n: K, o: Outcome, data: Slots, later: Word)
    requires Core(k) && InHand(k, k.wptr) && Hand(k.place, {k.wptr}) && Timely(k.time, k.timerq, later)
    requires RunsNext(Requeue(k.(data := data)), n, o, later)
    ensures Inv(n) && o != Error && Idle(n, o)
  {
    hide Core, Inv, Hand, Requeue, RunsNext, Timely;
    var m := k.(data := data);
    CoreSame(k, m);
    RequeueCore(m, {k.wptr});
    assert {k.wptr} - {k.wptr} == {};
    RequeueTimers(m);
    RunsNextInv(Requeue(m), n, o, later);
  }

  lemma RequeueTimers(k: K)
    ensures Requeue(k).time == k.time && Requeue(k).timerq == k.timerq && Requeue(k).iptr == k.iptr[k.wptr := k.ip]
  {
    hide Behind;
  }

  lemma IoSignals(k: K, n: K, o: Outcome, c: int, buf: int, len: nat, later: Word)
    requires Core(k) && InHand(k, k.wptr) && Hand(k.place, {k.wptr}) && k.wptr !in k.alt && Timely(k.time, k.timerq, later)
    requires Alting(k.place, k.alt, Rd(k.chan, c) - 1, c)
    requires var q := Rd(k.chan, c) - 1;
             if Rd(k.ptr, q) == WAITING then o == Continue && n == Load(Signal(k, q, c, buf, len), q)
             else RunsNext(Signal(k, q, c, buf, len), n, o, later)
    ensures Inv(n) && o != Error && Idle(n, o)
  {
    hide Core, Inv, Hand, Load, Signal, RunsNext, Alting, Timely, InHand;
    var q := Rd(k.chan, c) - 1;
    SignalCore(k, q, c, buf, len);
    AlterState(k, q, c);
    SignalPlaces(k, q, c, buf, len);
    if Rd(k.ptr, q) == WAITING {
      LoadInv(Signal(k, q, c, buf, len), q);
    } else {
      RunsNextInv(Signal(k, q, c, buf, len), n, o, later);
    }
  }

  /** The STATE word of an ALTing process is WAITING exactly when it waits. */
  lemma AlterState(k: K, q: int, c: int)
    requires Core(k) && Alting(k.place, k.alt, q, c)
    ensures q in k.place && q != 0
    ensures Rd(k.ptr, q) == WAITING <==> k.place[q].AltWait? || k.place[q].ExtWait?
    ensures Rd(k.ptr, q) == WAITING || Rd(k.ptr, q) == ENABLING || Rd(k.ptr, q) == READY
  {
    hide RunOk, WaitOk, ObjectsOk, TimerOk, After, SomeReady, SomeFires, AllMarked, NoTimers;
    AlterPlace(k, q, c);
    if q in k.alt { AltOf(k, q); } else { assert HeldAt(k.chan, k.place, k.ptr, q); }
  }

  lemma SignalPlaces(k: K, q: int, c: int, buf: int, len: nat)
    requires InHand(k, k.wptr) && Hand(k.place, {k.wptr}) && q in k.place && q != k.wptr
    ensures var n := Signal(k, q, c, buf, len);
            && n.time == k.time && n.timerq == k.timerq
            && (if k.place[q].AltWait? || k.place[q].ExtWait? then Hand(n.place, {q}) else Hand(n.place, {}))
  {
    hide Woken;
  }

  lemma PartnerFacts(k: K, q: int, c: int, out: bool, buf: int, len: nat)
    requires Core(k) && Partner(k, q, c, out, buf, len) && q != 0 && InHand(k, k.wptr)
    ensures Parked(k.place, k.ptr, k.link, q, c) && Rd(k.chan, c) == q && q != k.wptr && q - 1 !in k.place
    ensures Rd(k.ptr, q) == k.place[q].buf
  {
    hide RunOk, WaitOk, ObjectsOk, AltsOk, TimerOk;
    assert HeldAt(k.chan, k.place, k.ptr, q);
    assert ChanAt(k.chan, k.place, k.ptr, k.link, k.alt, c);
  }

  lemma IoMeets(k: K, n: K, q: int, c: int, out: bool, buf: int, len: nat)
    requires Core(k) && InHand(k, k.wptr) && Hand(k.place, {k.wptr}) && q != k.wptr && q != 0
    requires Parked(k.place, k.ptr, k.link, q, c) && Rd(k.chan, c) == q && Unguarded(k.alt, c)
    requires n == Load(Requeue(Release(k, q, c, Moves(k, q, out, buf, len))), q)
    ensures Inv(n)
  {
    hide Core, Inv, Hand, Requeue, Load, Moves, Unguarded, InHand;
    var m := Release(k, q, c, Moves(k, q, out, buf, len));
    ReleaseCore(k, q, c, Moves(k, q, out, buf, len));
    QueuedHand(k.place, q, {k.wptr}, Running);
    StillInHand(k, m, q);
    assert {k.wptr} + {q} == {k.wptr, q} && {k.wptr, q} - {k.wptr} == {q};
    RequeueCore(m, {k.wptr, q});
    LoadInv(Requeue(m), q);
  }

  lemma StillInHand(k: K, m: K, q: int)
    requires InHand(k, k.wptr) && m.place == k.place[q := Running] && m.wptr == k.wptr
    ensures InHand(m, m.wptr)
  {}

  // ---------------------------------------------------------------- alternatives

  /** Steps that only concern the current process's ALT. */
  ghost predicate Stays(k: K, n: K) { n.wptr == k.wptr && n.place == k.place }

  lemma StaysInv(k: K, n: K)
    requires Core(n) && Hand(k.place, {k.wptr}) && k.wptr != 0 && Stays(k, n)
    ensures Inv(n)
  {
    hide Core;
  }

  ghost predicate EnableAllowed(k: K, g: Guard) {
    k.wptr != 0 && InAlt(k, Enabling) && (g.TimerGuard? ==> k.alt[k.wptr].timed)
  }

  ghost predicate EnableStep(k: K, n: K, g: Guard)
    requires k.wptr in k.alt
  {
    match g
    case ChanGuard(c) => n == EnableChan(k, c)
    case SkipGuard => n == EnableSkip(k)
    case TimerGuard(t) => n == EnableTimer(k, t)
  }

  lemma EnableKeeps(k: K, n: K, g: Guard)
    requires Inv(k) && EnableAllowed(k, g) && EnableStep(k, n, g)
    ensures Inv(n)
  {
    hide Core, Inv, Hand, More, After;
    CurrentInHand(k);
    match g
    case ChanGuard(c) =>
      EnableChanCore(k, c);
      StaysInv(k, n);
    case SkipGuard =>
      EnableSkipCore(k);
      StaysInv(k, n);
    case TimerGuard(t) =>
      EnableTimerCore(k, t);
      StaysInv(k, n);
  }

  /** Disable instructions name the guards enabled, in any order; the code offset of a branch
      is not the none-selected mark. */
  ghost predicate DisableAllowed(k: K, g: Guard, process: int) {
    && k.wptr != 0 && InAlt(k, Disabling) && g in k.alt[k.wptr].left && process != NONE_SELECTED
    && (g.ChanGuard? ==> OnlyReader(k.alt, g.c, k.wptr))
  }

  ghost predicate DisableStep(k: K, n: K, g: Guard, process: int)
    requires k.wptr in k.alt
  {
    match g
    case ChanGuard(c) => n == DisableChan(k, c, process)
    case SkipGuard => n == DisableSkip(k, process)
    case TimerGuard(t) =>
      && (k.wptr !in k.timerq ==> n == DisableTimer(k, t, process))
      && (k.wptr in k.timerq ==> exists i: nat :: i < |k.timerq| && k.timerq[i] == k.wptr && n == CancelTimer(k, i, t))
  }

  lemma DisableKeeps(k: K, n: K, g: Guard, process: int)
    requires Inv(k) && DisableAllowed(k, g, process) && DisableStep(k, n, g, process)
    ensures Inv(n)
  {
    hide Core, Inv, Hand, Less, After, Select, TimerRemove, OnlyReader;
    CurrentInHand(k);
    match g
    case ChanGuard(c) =>
      DisableChanCore(k, c, process);
      StaysInv(k, n);
    case SkipGuard =>
      DisableSkipCore(k, process);
      StaysInv(k, n);
    case TimerGuard(t) =>
      if k.wptr in k.timerq {
        var i: nat :| i < |k.timerq| && k.timerq[i] == k.wptr && n == CancelTimer(k, i, t);
        CancelTimerCore(k, i, t);
        CancelPlaces(k, i, t);
        StaysInv(k, n);
      } else {
        DisableTimerCore(k, t, process);
        StaysInv(k, n);
      }
  }

  lemma CancelPlaces(k: K, i: nat, t: Word)
    requires i < |k.timerq| && k.wptr in k.alt
    ensures Stays(k, CancelTimer(k, i, t))
  {}

  /** altwt */
  ghost predicate WaitStep(k: K, n: K, o: Outcome, later: Word)
    requires k.wptr in k.alt
  {
    if Rd(k.ptr, k.wptr) == READY then o == Continue && n == Proceed(k, k.time)
    else RunsNext(SleepAlt(k), n, o, later)
  }

  ghost predicate WaitAllowed(k: K, later: Word) {
    k.wptr != 0 && InAlt(k, Enabling) && !k.alt[k.wptr].timed && OnTime(k, later)
  }

  lemma WaitKeeps(k: K, n: K, o: Outcome, later: Word)
    requires Inv(k) && WaitAllowed(k, later) && WaitStep(k, n, o, later)
    ensures Inv(n) && o != Error && Idle(n, o)
  {
    hide Core, Inv, Hand, SleepAlt, RunsNext, Timely, NoTimers, NextPhase;
    CurrentInHand(k);
    if Rd(k.ptr, k.wptr) == READY {
      ProceedCore(k, k.time);
      StaysInv(k, n);
    } else {
      UntimedLeft(k);
      SleepAltCore(k);
      SleepAltPlaces(k);
      RunsNextInv(SleepAlt(k), n, o, later);
    }
  }

  lemma UntimedLeft(k: K)
    requires Core(k) && InAlt(k, Enabling)
    ensures !k.alt[k.wptr].timed || Rd(k.tlink, k.wptr) != TIME_SET ==> NoTimers(k.alt[k.wptr].left)
    ensures k.alt[k.wptr].timed ==> Rd(k.tlink, k.wptr) == TIME_SET || Rd(k.tlink, k.wptr) == TIME_NOT_SET
  {
    hide RunOk, WaitOk, ObjectsOk, TimerOk, ChanOk, After, SomeReady, AllMarked, NoTimers;
    AltOf(k, k.wptr);
  }

  lemma SleepAltPlaces(k: K)
    requires k.wptr in k.alt && Hand(k.place, {k.wptr})
    ensures var n := SleepAlt(k); Hand(n.place, {}) && n.time == k.time && n.timerq == k.timerq
  {}

  /** taltwt */
  ghost predicate TimedWaitStep(k: K, n: K, o: Outcome, now: Word, later: Word)
    requires k.wptr in k.alt
  {
    if GoesOn(k, now) then o == Continue && n == Proceed(k, k.time[k.wptr := now])
    else if Rd(k.tlink, k.wptr) != TIME_NOT_SET then RunsNext(SleepTimed(k), n, o, later)
    else RunsNext(SleepAlt(k), n, o, later)
  }

  /** taltwt goes on without waiting: a guard is ready or the earliest timeout has passed. */
  ghost predicate GoesOn(k: K, now: Word) {
    Rd(k.ptr, k.wptr) == READY || (Rd(k.tlink, k.wptr) != TIME_NOT_SET && After(now, Rd(k.time, k.wptr)))
  }

  /** Only a process that goes to sleep needs its deadline and the pending ones in one window. */
  ghost predicate TimedWaitAllowed(k: K, now: Word, later: Word) {
    && k.wptr != 0 && InAlt(k, Enabling) && k.alt[k.wptr].timed
    && (!GoesOn(k, now) && Rd(k.tlink, k.wptr) == TIME_NOT_SET ==> OnTime(k, later))
    && (!GoesOn(k, now) && Rd(k.tlink, k.wptr) != TIME_NOT_SET ==> SleepsOnTime(k, later))
  }

  ghost predicate SleepsOnTime(k: K, later: Word)
    requires k.wptr in k.alt
  {
    Timely(k.time, k.timerq, Add(Rd(k.time, k.wptr), 1)) && Timely(SleepTimed(k).time, SleepTimed(k).timerq, later)
  }

  lemma TimedWaitKeeps(k: K, n: K, o: Outcome, now: Word, later: Word)
    requires Inv(k) && TimedWaitAllowed(k, now, later) && TimedWaitStep(k, n, o, now, later)
    ensures Inv(n) && o != Error && Idle(n, o)
  {
    hide Core, Inv, Hand, SleepAlt, SleepTimed, RunsNext, Timely, NoTimers, NextPhase, After;
    CurrentInHand(k);
    UntimedLeft(k);
    if GoesOn(k, now) {
      ProceedCore(k, k.time[k.wptr := now]);
      StaysInv(k, n);
    } else if Rd(k.tlink, k.wptr) != TIME_NOT_SET {
      SleepTimedCore(k);
      SleepTimedPlaces(k);
      RunsNextInv(SleepTimed(k), n, o, later);
    } else {
      SleepAltCore(k);
      SleepAltPlaces(k);
      RunsNextInv(SleepAlt(k), n, o, later);
    }
  }

  lemma SleepTimedPlaces(k: K)
    requires k.wptr in k.alt && Hand(k.place, {k.wptr})
    ensures Hand(SleepTimed(k).place, {})
  {
    hide Slot, InsertAt, TimerLinkIn;
  }

  /** altend */
  ghost predicate AltEndStep(k: K, n: K, o: Outcome) {
    if Rd(k.temp, k.wptr) != NONE_SELECTED then o == Continue && n == EndAlt(k) else o == Error && n == k
  }

  lemma AltEndKeeps(k: K, n: K, o: Outcome)
    requires Inv(k) && k.wptr != 0 && InAlt(k, Disabling) && k.alt[k.wptr].left == multiset{} && AltEndStep(k, n, o)
    ensures Inv(n) && o == Continue
  {
    hide Core, Inv, Hand, InAlt;
    CurrentInHand(k);
    AltEnds(k);
    EndAltCore(k);
    StaysInv(k, n);
  }

  ghost predicate AltStartAllowed(k: K) { Plain(k) }

  lemma AltStartKeeps(k: K, n: K, timed: bool)
    requires Inv(k) && AltStartAllowed(k) && n == StartAlt(k, timed)
    ensures Inv(n)
  {
    hide Core, Inv, Hand;
    CurrentInHand(k);
    StartAltCore(k, timed);
    StaysInv(k, n);
  }

  // ---------------------------------------------------------------- tin

  ghost predicate TinStep(k: K, n: K, o: Outcome, t: Word, now: Word, later: Word) {
    if After(now, t) then o == Continue && n == k else RunsNext(WaitTime(k, t), n, o, later)
  }

  ghost predicate TinAllowed(k: K, t: Word, now: Word, later: Word) {
    && Plain(k)
    && (!After(now, t) ==> Timely(k.time, k.timerq, t) && Timely(WaitTime(k, t).time, WaitTime(k, t).timerq, later))
  }

  lemma TinKeeps(k: K, n: K, o: Outcome, t: Word, now: Word, later: Word)
    requires Inv(k) && TinAllowed(k, t, now, later) && TinStep(k, n, o, t, now, later)
    ensures Inv(n) && o != Error && Idle(n, o)
  {
    hide Core, Hand, WaitTime, RunsNext, Timely, After;
    CurrentInHand(k);
    if !After(now, t) {
      WaitTimeCore(k, t);
      WaitTimePlaces(k, t);
      RunsNextInv(WaitTime(k, t), n, o, later);
    }
  }

  lemma WaitTimePlaces(k: K, t: Word)
    requires InHand(k, k.wptr) && Hand(k.place, {k.wptr})
    ensures Hand(WaitTime(k, t).place, {})
  {
    hide Slot, InsertAt, TimerLinkIn;
  }

  // ---------------------------------------------------------------- semaphores

  ghost predicate ClaimStep(k: K, n: K, o: Outcome, x: int, later: Word)
    requires x in k.sem && x in k.waitq
  {
    if k.sem[x].fptr == 1 then o == Continue && n == ClaimFree(k, x) else RunsNext(ClaimBusy(k, x), n, o, later)
  }

  ghost predicate ClaimAllowed(k: K, x: int, later: Word) { Plain(k) && OnTime(k, later) && x in k.sem && x in k.waitq }

  lemma ClaimKeeps(k: K, n: K, o: Outcome, x: int, later: Word)
    requires Inv(k) && ClaimAllowed(k, x, later) && ClaimStep(k, n, o, x, later)
    ensures Inv(n) && o != Error && Idle(n, o)
  {
    hide Core, Inv, Hand, ClaimBusy, RunsNext, Timely;
    CurrentInHand(k);
    if k.sem[x].fptr == 1 {
      ClaimFreeCore(k, x);
      StaysInv(k, n);
    } else {
      ClaimBusyCore(k, x);
      ClaimPlaces(k, x);
      RunsNextInv(ClaimBusy(k, x), n, o, later);
    }
  }

  lemma ClaimPlaces(k: K, x: int)
    requires InHand(k, k.wptr) && Hand(k.place, {k.wptr}) && x in k.sem && x in k.waitq
    ensures var n := ClaimBusy(k, x); Hand(n.place, {}) && n.time == k.time && n.timerq == k.timerq
  {
    hide Behind;
  }

  /** Only the holder releases. */
  ghost predicate ReleaseAllowed(k: K, x: int) {
    && k.wptr != 0 && x in k.sem && x in k.waitq && x in k.holder && k.holder[x] == k.wptr
  }

  ghost predicate ReleaseStep(k: K, n: K, x: int)
    requires x in k.sem && x in k.waitq
  {
    if k.sem[x].fptr == 0 then n == ReleaseFree(k, x)
    else k.waitq[x] != [] && n == Enqueue(HandOver(k, x), k.sem[x].fptr)
  }

  lemma ReleaseKeeps(k: K, n: K, x: int)
    requires Inv(k) && ReleaseAllowed(k, x) && ReleaseStep(k, n, x)
    ensures Inv(n)
  {
    hide Core, Inv, Hand, HandOver, Enqueue;
    CurrentInHand(k);
    FreeIsFree(k, x);
    if k.sem[x].fptr == 0 {
      ReleaseFreeCore(k, x);
      StaysInv(k, n);
    } else {
      var h := k.waitq[x][0];
      HandOverCore(k, x);
      HandOverPlaces(k, x);
      EnqueueCore(HandOver(k, x), h);
      EnqueuePlaces(HandOver(k, x), h);
      EnqueueCurrent(HandOver(k, x), h);
      BackAgain(k, n, h);
    }
  }

  lemma HandOverPlaces(k: K, x: int)
    requires x in k.sem && x in k.waitq && k.waitq[x] != [] && k.sem[x].fptr == k.waitq[x][0]
    ensures HandOver(k, x).place == k.place[k.waitq[x][0] := Running] && HandOver(k, x).wptr == k.wptr
  {}

  /** A process taken in hand has been put on the run queue; the current one goes on. */
  lemma BackAgain(k: K, n: K, h: int)
    requires Core(n) && Hand(k.place, {k.wptr}) && k.wptr != 0 && h in k.place && !k.place[h].Running?
    requires n.place == k.place[h := Running][h := Queued] && n.wptr == k.wptr
    ensures Inv(n)
  {
    hide Core;
  }

  // ---------------------------------------------------------------- barriers

  ghost predicate SyncStep(k: K, n: K, o: Outcome, x: int, later: Word)
    requires x in k.bar && x in k.waitq
  {
    if k.bar[x].count > 1 then RunsNext(SyncWait(k, x), n, o, later)
    else o == Continue && n == Complete(k, x, k.bar[x].enrolled)
  }

  ghost predicate SyncAllowed(k: K, x: int, later: Word) { Plain(k) && OnTime(k, later) && x in k.bar && x in k.waitq }

  lemma SyncKeeps(k: K, n: K, o: Outcome, x: int, later: Word)
    requires Inv(k) && SyncAllowed(k, x, later) && SyncStep(k, n, o, x, later)
    ensures Inv(n) && o != Error && Idle(n, o)
  {
    hide Core, Inv, Hand, SyncWait, Complete, RunsNext, Timely;
    CurrentInHand(k);
    if k.bar[x].count > 1 {
      SyncWaitCore(k, x);
      SyncPlaces(k, x);
      RunsNextInv(SyncWait(k, x), n, o, later);
    } else {
      CompleteInv(k, x, k.bar[x].enrolled);
    }
  }

  lemma SyncPlaces(k: K, x: int)
    requires InHand(k, k.wptr) && Hand(k.place, {k.wptr}) && x in k.bar && x in k.waitq && k.bar[x].count > 1
    ensures var n := SyncWait(k, x); Hand(n.place, {}) && n.time == k.time && n.timerq == k.timerq
  {
    hide BarBehind;
  }

  lemma CompleteInv(k: K, x: int, e: Word)
    requires Core(k) && Hand(k.place, {k.wptr}) && k.wptr != 0 && x in k.bar && x in k.waitq
    ensures Inv(Complete(k, x, e))
  {
    hide Core, Hand, Complete;
    CompleteCore(k, x, e);
    CompleteCurrent(k, x, e);
  }

  lemma CompleteCurrent(k: K, x: int, e: Word)
    requires x in k.bar && x in k.waitq
    ensures Complete(k, x, e).wptr == k.wptr
  {}

  ghost predicate EnrolStep(k: K, n: K, o: Outcome, x: int, m: Word)
    requires x in k.bar
  {
    if k.bar[x].enrolled + m >= W then o == Error && n == k
    else k.bar[x].count + m < W && o == Continue && n == Enrol(k, x, m)
  }

  lemma EnrolKeeps(k: K, n: K, o: Outcome, x: int, m: Word)
    requires Inv(k) && k.wptr != 0 && x in k.bar && EnrolStep(k, n, o, x, m)
    ensures Inv(n)
  {
    hide Core, Inv, Hand;
    CurrentInHand(k);
    if k.bar[x].enrolled + m < W {
      EnrolCore(k, x, m);
      StaysInv(k, n);
    }
  }

  ghost predicate ResignStep(k: K, n: K, o: Outcome, x: int, m: Word)
    requires x in k.bar && x in k.waitq
  {
    if m > k.bar[x].enrolled || m > k.bar[x].count then o == Error && n == k
    else o == Continue && if m < k.bar[x].count then n == Resign(k, x, m) else n == Complete(k, x, k.bar[x].enrolled - m)
  }

  lemma ResignKeeps(k: K, n: K, o: Outcome, x: int, m: Word)
    requires Inv(k) && k.wptr != 0 && x in k.bar && x in k.waitq && ResignStep(k, n, o, x, m)
    ensures Inv(n)
  {
    hide Core, Inv, Hand, Complete;
    CurrentInHand(k);
    if m <= k.bar[x].enrolled && m <= k.bar[x].count {
      if m < k.bar[x].count {
        ResignCore(k, x, m);
        StaysInv(k, n);
      } else {
        CompleteInv(k, x, k.bar[x].enrolled - m);
      }
    }
  }

  ghost predicate InitAllowed(k: K, x: int) { k.wptr != 0 && x !in k.waitq }

  lemma SemInitKeeps(k: K, n: K, x: int)
    requires Inv(k) && InitAllowed(k, x) && n == NewSem(k, x)
    ensures Inv(n)
  {
    hide Core, Inv, Hand;
    CurrentInHand(k);
    NewSemCore(k, x);
    StaysInv(k, n);
  }

  lemma BarInitKeeps(k: K, n: K, x: int, m: Word)
    requires Inv(k) && InitAllowed(k, x) && n == NewBar(k, x, m)
    ensures Inv(n)
  {
    hide Core, Inv, Hand;
    CurrentInHand(k);
    NewBarCore(k, x, m);
    StaysInv(k, n);
  }

  // ---------------------------------------------------------------- processes

  /** startp and runp put a dormant process on the run queue, startp with a new address. */
  function Started(k: K, w: int, iptr: Slots): K { Enqueue(Moved(k, w, Running).(iptr := iptr), w) }

  ghost predicate StartAllowed(k: K, w: int) { k.wptr != 0 && w in k.place && k.place[w].Dormant? }

  lemma StartKeeps(k: K, n: K, w: int, iptr: Slots)
    requires Inv(k) && StartAllowed(k, w) && n == Started(k, w, iptr)
    ensures Inv(n)
  {
    hide Core, Inv, Hand, Enqueue;
    CurrentInHand(k);
    DormantNoAlt(k, w);
    MovedCore(k, w, Running);
    var m := Moved(k, w, Running).(iptr := iptr);
    CoreSame(Moved(k, w, Running), m);
    EnqueueCore(m, w);
    EnqueuePlaces(m, w);
    EnqueueCurrent(m, w);
    BackAgain(k, n, w);
  }

  lemma EnqueueCurrent(k: K, w: int)
    ensures Enqueue(k, w).wptr == k.wptr
  {}

  /** stopp */
  function Stopped(k: K): K { Moved(k.(iptr := k.iptr[k.wptr := k.ip]), k.wptr, Dormant) }

  ghost predicate YieldAllowed(k: K, later: Word) { Plain(k) && OnTime(k, later) }

  lemma StopKeeps(k: K, n: K, o: Outcome, later: Word)
    requires Inv(k) && YieldAllowed(k, later) && RunsNext(Stopped(k), n, o, later)
    ensures Inv(n) && o != Error && Idle(n, o)
  {
    hide Core, Inv, Hand, RunsNext, Timely;
    CurrentInHand(k);
    var m := k.(iptr := k.iptr[k.wptr := k.ip]);
    CoreSame(k, m);
    MovedCore(m, k.wptr, Dormant);
    QueuedHand(k.place, k.wptr, {k.wptr}, Dormant);
    assert {k.wptr} - {k.wptr} == {};
    RunsNextInv(Stopped(k), n, o, later);
  }

  /** reschedule is allowed in the middle of an ALT. */
  lemma RescheduleKeeps(k: K, n: K, o: Outcome, later: Word)
    requires Inv(k) && k.wptr != 0 && OnTime(k, later) && RunsNext(Requeue(k), n, o, later)
    ensures Inv(n) && o != Error && Idle(n, o)
  {
    hide Core, Inv, Hand, RunsNext, Timely, Requeue;
    CurrentInHand(k);
    RequeueCore(k, {k.wptr});
    assert {k.wptr} - {k.wptr} == {};
    RequeueTimers(k);
    RunsNextInv(Requeue(k), n, o, later);
  }

  /** The current process stores the resume address and the number of branches of a PAR. */
  function ParStarted(k: K, w: int, count: Word, resume: int): K { k.(par := k.par[w := Par(resume, count)]) }

  lemma ParKeeps(k: K, n: K, w: int, count: Word, resume: int)
    requires Inv(k) && k.wptr != 0 && n == ParStarted(k, w, count, resume)
    ensures Inv(n)
  {
    hide Core, Inv, Hand;
    CurrentInHand(k);
    CoreSame(k, n);
    StaysInv(k, n);
  }

  /** endp: the last branch of a PAR to end goes on as the parent. */
  function Joined(k: K, w: int): K
    requires w in k.par
  {
    k.(par := k.par[w := k.par[w].(count := 0)], ip := k.par[w].resume, wptr := w,
       place := k.place[k.wptr := Dormant][w := Running])
  }

  function Ended(k: K, w: int): K
    requires w in k.par
  {
    k.(par := k.par[w := k.par[w].(count := Sub(k.par[w].count, 1))], place := k.place[k.wptr := Dormant])
  }

  ghost predicate EndStep(k: K, n: K, o: Outcome, w: int, later: Word)
    requires w in k.par
  {
    if k.par[w].count == 1 then o == Continue && n == Joined(k, w) else RunsNext(Ended(k, w), n, o, later)
  }

  /** The parent is parked while its branches run, or runs the last of them itself. */
  ghost predicate EndAllowed(k: K, w: int, later: Word) {
    && YieldAllowed(k, later) && w in k.par
    && (k.par[w].count == 1 ==> w in k.place && (w == k.wptr || k.place[w].Dormant?))
  }

  lemma EndKeeps(k: K, n: K, o: Outcome, w: int, later: Word)
    requires Inv(k) && EndAllowed(k, w, later) && EndStep(k, n, o, w, later)
    ensures Inv(n) && o != Error && Idle(n, o)
  {
    hide Core, Inv, Hand, RunsNext, Timely;
    CurrentInHand(k);
    MovedCore(k, k.wptr, Dormant);
    var m := Moved(k, k.wptr, Dormant);
    QueuedHand(k.place, k.wptr, {k.wptr}, Dormant);
    assert {k.wptr} - {k.wptr} == {};
    if k.par[w].count == 1 {
      ParentBack(k, n, w);
    } else {
      CoreSame(m, Ended(k, w));
      RunsNextInv(Ended(k, w), n, o, later);
    }
  }

  lemma ParentBack(k: K, n: K, w: int)
    requires Core(Moved(k, k.wptr, Dormant)) && k.wptr in k.place && Hand(k.place[k.wptr := Dormant], {})
    requires w in k.par && w in k.place && (w == k.wptr || k.place[w].Dormant?) && n == Joined(k, w)
    ensures Inv(n)
  {
    hide Core, Hand;
    var m := Moved(k, k.wptr, Dormant);
    DormantNoAlt(m, w);
    MovedCore(m, w, Running);
    QueuedHand(m.place, w, {}, Running);
    CoreSame(Moved(m, w, Running), n);
    assert {} + {w} == {w};
    NonZeroId(n, w);
  }

  lemma NonZeroId(k: K, w: int)
    requires Core(k) && w in k.place
    ensures w != 0
  {
    hide RunOk, WaitOk, ObjectsOk, ChanOk, AltsOk, TimerOk;
  }

  /** The scheduler is entered again from outside. */
  lemma ResumeKeeps(k: K, n: K, o: Outcome, later: Word)
    requires Inv(k) && k.wptr == 0 && OnTime(k, later) && RunsNext(k, n, o, later)
    ensures Inv(n) && o != Error && Idle(n, o)
  {
    hide Core, Hand, RunsNext, Timely;
    RunsNextInv(k, n, o, later);
  }

  // ---------------------------------------------------------------- extended input

  ghost predicate ExtendedStep(k: K, n: K, o: Outcome, c: int, later: Word) {
    if Rd(k.chan, c) == 0 then RunsNext(ExtendedWait(k, c), n, o, later) else o == Continue && n == k
  }

  lemma ExtendedKeeps(k: K, n: K, o: Outcome, c: int, later: Word)
    requires Inv(k) && YieldAllowed(k, later) && ExtendedStep(k, n, o, c, later)
    ensures Inv(n) && o != Error && Idle(n, o)
  {
    hide Core, Hand, RunsNext, Timely, ExtendedWait;
    CurrentInHand(k);
    if Rd(k.chan, c) == 0 {
      ExtendedWaitCore(k, c);
      ExtendedPlaces(k, c);
      RunsNextInv(ExtendedWait(k, c), n, o, later);
    }
  }

  lemma ExtendedPlaces(k: K, c: int)
    requires InHand(k, k.wptr) && Hand(k.place, {k.wptr})
    ensures var n := ExtendedWait(k, c); Hand(n.place, {}) && n.time == k.time && n.timerq == k.timerq
  {}

  /** xin: the data moves, the outputter stays in the channel. */
  ghost predicate ExtendedInStep(k: K, n: K, o: Outcome, c: int, buf: int, len: nat, later: Word) {
    if Rd(k.chan, c) == 1 then RunsNext(Requeue(k.(data := Zeroed(k.data, buf, len))), n, o, later)
    else o == Continue && n == k.(data := Moves(k, Rd(k.chan, c), false, buf, len))
  }

  /** xin follows xable, so somebody is there or the channel is disconnected. */
  ghost predicate ExtendedInAllowed(k: K, c: int, buf: int, len: nat, later: Word) {
    YieldAllowed(k, later) && (Rd(k.chan, c) == 1 || Partner(k, Rd(k.chan, c), c, false, buf, len))
  }

  lemma ExtendedInKeeps(k: K, n: K, o: Outcome, c: int, buf: int, len: nat, later: Word)
    requires Inv(k) && ExtendedInAllowed(k, c, buf, len, later) && ExtendedInStep(k, n, o, c, buf, len, later)
    ensures Inv(n) && o != Error && Idle(n, o)
  {
    hide Core, Inv, Hand, RunsNext, Timely, Requeue, Zeroed, Moves, Partner;
    CurrentInHand(k);
    if Rd(k.chan, c) == 1 {
      IoDisconnected(k, n, o, Zeroed(k.data, buf, len), later);
    } else {
      CoreSame(k, n);
      StaysInv(k, n);
    }
  }

  /** xend: the outputter is let go. */
  ghost predicate ExtendedEndStep(k: K, n: K, c: int) {
    if Rd(k.chan, c) == 1 then n == k else n == Enqueue(Release(k, Rd(k.chan, c), c, k.data), Rd(k.chan, c))
  }

  ghost predicate ExtendedEndAllowed(k: K, c: int) {
    && k.wptr != 0
    && (Rd(k.chan, c) == 1
        || (Parked(k.place, k.ptr, k.link, Rd(k.chan, c), c) && Unguarded(k.alt, c)))
  }

  lemma ExtendedEndKeeps(k: K, n: K, c: int)
    requires Inv(k) && ExtendedEndAllowed(k, c) && ExtendedEndStep(k, n, c)
    ensures Inv(n)
  {
    hide Core, Inv, Hand, Unguarded, Enqueue;
    var q := Rd(k.chan, c);
    CurrentInHand(k);
    if q != 1 {
      var m := Release(k, q, c, k.data);
      ReleaseCore(k, q, c, k.data);
      EnqueueCore(m, q);
      EnqueuePlaces(m, q);
      EnqueueCurrent(m, q);
      BackAgain(k, n, q);
    }
  }
}
