/** Where processes go on: a process that loses the processor goes on at the address it lost
    it at, whatever runs in between; one started goes on at its entry address, the parent of
    a PAR at the resume address, and an ALT at the branch selected. */
module KernelAddress {
  import opened Words
  import opened KernelState
  import opened KernelFrames
  import opened KernelQueues
  import opened KernelTimers
  import opened KernelChannels
  import opened KernelAlts
  import opened KernelObjects
  import opened KernelProcs
  import opened KernelMachine
  import opened KernelRun
  import opened KernelPlaces

  /** The address at which p goes on. */
  function Address(k: K, p: int): int { if p == k.wptr then k.ip else Rd(k.iptr, p) }

  ghost predicate SameAddress(k: K, n: K, p: int) { Address(n, p) == Address(k, p) }

  // ---------------------------------------------------------------- choosing what runs next

  /** Whoever is chosen to run goes on at the address saved for it. */
  lemma RunsAt(k: K, n: K, o: Outcome, now: Word)
    requires RunsNext(k, n, o, now)
    ensures n.iptr == k.iptr
    ensures n.wptr != 0 ==> n.ip == Rd(k.iptr, n.wptr)
  {
    hide Synced, TakeNext;
    SyncedSaved(k, now);
    if !k.intr && Synced(k, now).runq != [] { TakeSaved(Synced(k, now)); }
  }

  lemma SyncedSaved(k: K, now: Word)
    ensures Synced(k, now).iptr == k.iptr
  {
    hide Walk;
    WalkSaved(k, now);
  }

  lemma TakeSaved(k: K)
    requires k.runq != []
    ensures var n := TakeNext(k); n.iptr == k.iptr && n.ip == Rd(k.iptr, n.wptr)
  {}

  lemma {:induction false} WalkSaved(k: K, now: Word)
    ensures Walk(k, now).iptr == k.iptr
    decreases |k.timerq|
  {
    hide Fire, After;
    if k.timerq != [] && !After(Rd(k.time, k.timerq[0]), now) {
      FireSaved(k, now);
      WalkSaved(Fire(k, now), now);
    }
  }

  lemma FireSaved(k: K, now: Word)
    requires k.timerq != []
    ensures Fire(k, now).iptr == k.iptr && |Fire(k, now).timerq| < |k.timerq|
  {
    hide Behind, Woken;
  }

  /** The current process has saved its address, and nobody else's has changed. */
  ghost predicate Saved(k: K, m: K) {
    forall p :: Rd(m.iptr, p) == if p == k.wptr then k.ip else Rd(k.iptr, p)
  }

  lemma SavedThenRuns(k: K, m: K, n: K, o: Outcome, now: Word, p: int)
    requires Saved(k, m) && RunsNext(m, n, o, now) && p != 0
    ensures SameAddress(k, n, p)
  {
    hide RunsNext;
    RunsAt(m, n, o, now);
  }

  // ---------------------------------------------------------------- who saves its address

  lemma ParkSaves(k: K, c: int, out: bool, buf: int, len: nat, data: Slots)
    ensures Saved(k, Block(k, c, out, buf, len))
    ensures Saved(k, ExtendedWait(k, c))
    ensures Saved(k, Requeue(k.(data := data)))
    ensures Saved(k, Stopped(k))
  {
    hide Behind, Pending;
  }

  lemma MeetSaves(k: K, q: int, c: int, data: Slots)
    ensures Saved(k, Requeue(Release(k, q, c, data)))
  {
    hide Behind;
  }

  lemma SignalSaves(k: K, q: int, c: int, buf: int, len: nat)
    requires q in k.place
    ensures Saved(k, Signal(k, q, c, buf, len))
  {
    hide Pending, Woken;
  }

  lemma WaitSaves(k: K, t: Word)
    ensures Saved(k, WaitTime(k, t))
  {
    hide Slot, InsertAt, TimerLinkIn;
  }

  lemma SleepSaves(k: K)
    requires k.wptr in k.alt
    ensures Saved(k, SleepAlt(k))
    ensures Saved(k, SleepTimed(k))
  {
    hide NextPhase, Slot, InsertAt, TimerLinkIn;
  }

  lemma ClaimSaves(k: K, x: int)
    requires x in k.sem && x in k.waitq
    ensures Saved(k, ClaimBusy(k, x))
  {
    hide Behind;
  }

  lemma SyncSaves(k: K, x: int)
    requires x in k.bar && x in k.waitq && k.bar[x].count > 0
    ensures Saved(k, SyncWait(k, x))
  {
    hide BarBehind;
  }

  lemma LoadAddress(k: K, m: K, q: int, p: int)
    requires Saved(k, m)
    ensures SameAddress(k, Load(m, q), p)
  {}

  // ---------------------------------------------------------------- instruction by instruction

  lemma IoAddress(k: K, n: K, o: Outcome, c: int, out: bool, buf: int, len: nat, later: Word, p: int)
    requires IoStep(k, n, o, c, out, buf, len, later) && p != 0
    ensures SameAddress(k, n, p)
  {
    hide RunsNext, Block, Requeue, Signal, Release, Load, Moves, Zeroed, SameAddress, Saved;
    var v := Rd(k.chan, c);
    ParkSaves(k, c, out, buf, len, if out then k.data else Zeroed(k.data, buf, len));
    if v == 0 {
      SavedThenRuns(k, Block(k, c, out, buf, len), n, o, later, p);
    } else if v == 1 {
      SavedThenRuns(k, Requeue(k.(data := if out then k.data else Zeroed(k.data, buf, len))), n, o, later, p);
    } else if v - 1 in k.place {
      SignalSaves(k, v - 1, c, buf, len);
      if Rd(k.ptr, v - 1) == WAITING {
        LoadAddress(k, Signal(k, v - 1, c, buf, len), v - 1, p);
      } else {
        SavedThenRuns(k, Signal(k, v - 1, c, buf, len), n, o, later, p);
      }
    } else {
      MeetSaves(k, v, c, Moves(k, v, out, buf, len));
      LoadAddress(k, Requeue(Release(k, v, c, Moves(k, v, out, buf, len))), v, p);
    }
  }

  /** The current process stays where it is. */
  ghost predicate Untouched(k: K, n: K) { n.wptr == k.wptr && n.ip == k.ip && n.iptr == k.iptr }

  lemma WaitAddress(k: K, n: K, o: Outcome, later: Word, p: int)
    requires k.wptr in k.alt && WaitStep(k, n, o, later) && p != 0
    ensures SameAddress(k, n, p)
  {
    hide RunsNext, SleepAlt, SleepTimed, SameAddress, Saved, Proceed;
    SleepSaves(k);
    if Rd(k.ptr, k.wptr) == READY {
      GoingOn(k, k.time, p);
    } else {
      SavedThenRuns(k, SleepAlt(k), n, o, later, p);
    }
  }

  lemma GoingOn(k: K, time: Slots, p: int)
    requires k.wptr in k.alt
    ensures SameAddress(k, Proceed(k, time), p)
  {
    hide NextPhase;
  }

  lemma TimedWaitAddress(k: K, n: K, o: Outcome, now: Word, later: Word, p: int)
    requires k.wptr in k.alt && TimedWaitStep(k, n, o, now, later) && p != 0
    ensures SameAddress(k, n, p)
  {
    hide RunsNext, SleepAlt, SleepTimed, SameAddress, Saved, Proceed, GoesOn;
    SleepSaves(k);
    GoingOn(k, k.time[k.wptr := now], p);
    if !GoesOn(k, now) {
      if Rd(k.tlink, k.wptr) != TIME_NOT_SET {
        SavedThenRuns(k, SleepTimed(k), n, o, later, p);
      } else {
        SavedThenRuns(k, SleepAlt(k), n, o, later, p);
      }
    }
  }

  lemma TinAddress(k: K, n: K, o: Outcome, t: Word, now: Word, later: Word, p: int)
    requires TinStep(k, n, o, t, now, later) && p != 0
    ensures SameAddress(k, n, p)
  {
    hide RunsNext, WaitTime, After, Saved;
    WaitSaves(k, t);
    if !After(now, t) { SavedThenRuns(k, WaitTime(k, t), n, o, later, p); }
  }

  lemma ExtendedAddress(k: K, n: K, o: Outcome, c: int, later: Word, p: int)
    requires ExtendedStep(k, n, o, c, later) && p != 0
    ensures SameAddress(k, n, p)
  {
    hide RunsNext, ExtendedWait, Saved, Block, Requeue, Stopped;
    ParkSaves(k, c, false, 0, 0, k.data);
    if Rd(k.chan, c) == 0 { SavedThenRuns(k, ExtendedWait(k, c), n, o, later, p); }
  }

  lemma ExtendedInAddress(k: K, n: K, o: Outcome, c: int, buf: int, len: nat, later: Word, p: int)
    requires ExtendedInStep(k, n, o, c, buf, len, later) && p != 0
    ensures SameAddress(k, n, p)
  {
    hide RunsNext, Requeue, Zeroed, Moves, Saved, Block, ExtendedWait, Stopped;
    ParkSaves(k, c, false, 0, 0, Zeroed(k.data, buf, len));
    if Rd(k.chan, c) == 1 { SavedThenRuns(k, Requeue(k.(data := Zeroed(k.data, buf, len))), n, o, later, p); }
  }

  lemma ClaimAddress(k: K, n: K, o: Outcome, x: int, later: Word, p: int)
    requires x in k.sem && x in k.waitq && ClaimStep(k, n, o, x, later) && p != 0
    ensures SameAddress(k, n, p)
  {
    hide RunsNext, ClaimBusy, Saved;
    ClaimSaves(k, x);
    if k.sem[x].fptr != 1 { SavedThenRuns(k, ClaimBusy(k, x), n, o, later, p); }
  }

  lemma ReleaseAddress(k: K, n: K, x: int, p: int)
    requires x in k.sem && x in k.waitq && ReleaseStep(k, n, x)
    ensures SameAddress(k, n, p)
  {
    hide Enqueue, HandOver, ReleaseFree;
    FreedAddress(k, x, p);
    if k.waitq[x] != [] { PassedAddress(k, x, p); }
  }

  lemma FreedAddress(k: K, x: int, p: int)
    requires x in k.sem
    ensures SameAddress(k, ReleaseFree(k, x), p)
  {}

  lemma PassedAddress(k: K, x: int, p: int)
    requires x in k.sem && x in k.waitq && k.waitq[x] != []
    ensures SameAddress(k, Enqueue(HandOver(k, x), k.sem[x].fptr), p)
  {
    hide Behind;
  }

  lemma SyncAddress(k: K, n: K, o: Outcome, x: int, later: Word, p: int)
    requires x in k.bar && x in k.waitq && SyncStep(k, n, o, x, later) && p != 0
    ensures SameAddress(k, n, p)
  {
    hide RunsNext, SyncWait, Complete, Saved;
    if k.bar[x].count > 1 {
      SyncSaves(k, x);
      SavedThenRuns(k, SyncWait(k, x), n, o, later, p);
    } else {
      CompleteAddress(k, x, k.bar[x].enrolled, p);
    }
  }

  lemma CompleteAddress(k: K, x: int, e: Word, p: int)
    requires x in k.bar && x in k.waitq
    ensures SameAddress(k, Complete(k, x, e), p)
  {
    hide AppendLink, SetQueued;
  }

  lemma ResignAddress(k: K, n: K, o: Outcome, x: int, m: Word, p: int)
    requires x in k.bar && x in k.waitq && ResignStep(k, n, o, x, m)
    ensures SameAddress(k, n, p)
  {
    hide Complete;
    if m <= k.bar[x].enrolled { CompleteAddress(k, x, k.bar[x].enrolled - m, p); }
  }

  lemma EnableAddress(k: K, n: K, g: Guard, p: int)
    requires k.wptr in k.alt && EnableStep(k, n, g)
    ensures SameAddress(k, n, p)
  {
    hide More, After;
  }

  lemma DisableAddress(k: K, n: K, g: Guard, process: int, p: int)
    requires k.wptr in k.alt && DisableStep(k, n, g, process)
    ensures SameAddress(k, n, p)
  {
    hide Less, Select, After, CancelTimer;
    if g.TimerGuard? && k.wptr in k.timerq {
      var i: nat :| i < |k.timerq| && k.timerq[i] == k.wptr && n == CancelTimer(k, i, g.t);
      CancelAddress(k, i, g.t, p);
    }
  }

  lemma CancelAddress(k: K, i: nat, t: Word, p: int)
    requires i < |k.timerq| && k.wptr in k.alt
    ensures SameAddress(k, CancelTimer(k, i, t), p)
  {}

  lemma StartAddress(k: K, w: int, iptr: Slots, p: int)
    requires w != k.wptr
    ensures Address(Started(k, w, iptr), p) == if p == k.wptr then k.ip else Rd(iptr, p)
  {
    hide Behind;
  }

  lemma XEndAddress(k: K, n: K, c: int, p: int)
    requires ExtendedEndStep(k, n, c)
    ensures SameAddress(k, n, p)
  {
    hide Enqueue, Release;
    LetGo(k, Rd(k.chan, c), c, p);
  }

  lemma LetGo(k: K, q: int, c: int, p: int)
    ensures SameAddress(k, Enqueue(Release(k, q, c, k.data), q), p)
  {
    hide Behind;
  }

  lemma SetupAddress(k: K, x: int, m: Word, timed: bool, w: int, resume: int, p: int)
    ensures SameAddress(k, NewSem(k, x), p)
    ensures SameAddress(k, NewBar(k, x, m), p)
    ensures SameAddress(k, StartAlt(k, timed), p)
    ensures SameAddress(k, ParStarted(k, w, m, resume), p)
  {}

  lemma EnrolAddress(k: K, n: K, o: Outcome, x: int, m: Word, p: int)
    requires x in k.bar && EnrolStep(k, n, o, x, m)
    ensures SameAddress(k, n, p)
  {}

  lemma AltEndAddress(k: K, p: int)
    ensures Address(EndAlt(k), p) == if p == k.wptr then k.ip + Rd(k.temp, p) else Rd(k.iptr, p)
  {}

  lemma EndAddress(k: K, n: K, o: Outcome, w: int, later: Word, p: int)
    requires w in k.par && EndStep(k, n, o, w, later) && p != 0
    ensures k.par[w].count == 1 && p == w ==> Address(n, p) == k.par[w].resume
    ensures p != k.wptr && !(k.par[w].count == 1 && p == w) ==> SameAddress(k, n, p)
  {
    hide RunsNext, Ended, Joined;
    EndShapes(k, w, p);
    if k.par[w].count != 1 { RunsAt(Ended(k, w), n, o, later); }
  }

  lemma EndShapes(k: K, w: int, p: int)
    requires w in k.par
    ensures Ended(k, w).iptr == k.iptr
    ensures Address(Joined(k, w), p) == if p == w then k.par[w].resume else Rd(k.iptr, p)
  {}

  // ---------------------------------------------------------------- one step

  /** The last branch of the PAR of p ends. */
  predicate JoinsAt(k: K, i: Ins, p: int) { i == EndP(p) && p in k.par && k.par[p].count == 1 }

  /** The process ends, and does not go on as its own parent. */
  predicate EndsItself(k: K, i: Ins, p: int) { i.EndP? && p == k.wptr && !JoinsAt(k, i, p) }

  /** Where p is to go on after an instruction. */
  function AddressAfter(k: K, i: Ins, p: int): int {
    if i.StartP? && i.w == p then i.entry
    else if JoinsAt(k, i, p) then k.par[p].resume
    else if i.AltEnd? && p == k.wptr then k.ip + Rd(k.temp, p)
    else Address(k, p)
  }

  /** Every process goes on where it was, but for one started, which goes on at its entry, the
      parent of a PAR, which goes on at the resume address, and the process at altend, which
      goes on at the branch selected. */
  lemma StepAddress(k: K, e: Event, n: K, o: Outcome, p: int)
    requires Inv(k) && Allowed(k, e) && Step(k, e, n, o) && p != 0 && !EndsItself(k, e.ins, p)
    ensures Address(n, p) == AddressAfter(k, e.ins, p)
  {
    hide Inv, Address, IoAllowed, AltStartAllowed, WaitAllowed, TimedWaitAllowed, TinAllowed, ClaimAllowed, InitAllowed,
         YieldAllowed, ExtendedInAllowed, ExtendedEndAllowed, OnTime, OnlyReader, InAlt, DisableAllowed, EnableAllowed,
         StartAllowed, EndAllowed, SyncAllowed, ReleaseAllowed, IoStep,
         EnableStep, WaitStep, TimedWaitStep, DisableStep, TinStep, ClaimStep, ReleaseStep, SyncStep, EndStep, RunsNext,
         ExtendedStep, ExtendedInStep, ExtendedEndStep, ResignStep, AltEndStep, EnrolStep, NewSem, NewBar, StartAlt, EndAlt,
         Started, Stopped, Requeue, Saved, ParStarted;
    match e.ins
    case Io(c, out, buf, len) => IoAddress(k, n, o, c, out, buf, len, e.later, p);
    case AltStart(timed) => SetupAddress(k, 0, 0, timed, 0, 0, p);
    case Enable(g) =>
      EnableInAlt(k, g);
      EnableAddress(k, n, g, p);
    case AltWait =>
      WaitInAlt(k, e.later);
      WaitAddress(k, n, o, e.later, p);
    case TimedAltWait =>
      TimedWaitInAlt(k, e.now, e.later);
      TimedWaitAddress(k, n, o, e.now, e.later, p);
    case Disable(g, process) =>
      DisableInAlt(k, g, process);
      DisableAddress(k, n, g, process, p);
    case AltEnd => AltEndsAddress(k, n, o, p);
    case Tin(t) => TinAddress(k, n, o, t, e.now, e.later, p);
    case SemInit(x) => SetupAddress(k, x, 0, false, 0, 0, p);
    case SemClaim(x) => ObjectAddress(k, e, n, o, p);
    case SemRelease(x) => ObjectAddress(k, e, n, o, p);
    case BarInit(x, m) => SetupAddress(k, x, m, false, 0, 0, p);
    case BarSync(x) => ObjectAddress(k, e, n, o, p);
    case BarEnroll(x, m) => EnrolAddress(k, n, o, x, m, p);
    case BarResign(x, m) => ResignAddress(k, n, o, x, m, p);
    case StartP(w, entry) =>
      DormantNotCurrent(k, w);
      StartAddress(k, w, k.iptr[w := entry], p);
      AddressIs(k, p);
    case RunP(w) =>
      DormantNotCurrent(k, w);
      StartAddress(k, w, k.iptr, p);
      AddressIs(k, p);
    case ParStart(w, count, resume) => SetupAddress(k, 0, count, false, w, resume, p);
    case EndP(w) => EndsAddress(k, e, n, o, p);
    case StopP =>
      ParkSaves(k, 0, false, 0, 0, k.data);
      SavedThenRuns(k, Stopped(k), n, o, e.later, p);
    case Reschedule =>
      SameData(k);
      ParkSaves(k, 0, false, 0, 0, k.data);
      SavedThenRuns(k, Requeue(k), n, o, e.later, p);
    case XAble(c) => ExtendedAddress(k, n, o, c, e.later, p);
    case XIn(c, buf, len) => ExtendedInAddress(k, n, o, c, buf, len, e.later, p);
    case XEnd(c) => XEndAddress(k, n, c, p);
    case Resume => ResumeAddress(k, n, o, e.later, p);
  }

  lemma SameData(k: K)
    ensures k.(data := k.data) == k
  {}

  lemma AddressIs(k: K, p: int)
    ensures Address(k, p) == if p == k.wptr then k.ip else Rd(k.iptr, p)
  {}

  lemma EnableInAlt(k: K, g: Guard)
    requires EnableAllowed(k, g)
    ensures k.wptr in k.alt
  {}

  lemma WaitInAlt(k: K, later: Word)
    requires WaitAllowed(k, later)
    ensures k.wptr in k.alt
  {
    hide OnTime;
  }

  lemma TimedWaitInAlt(k: K, now: Word, later: Word)
    requires TimedWaitAllowed(k, now, later)
    ensures k.wptr in k.alt
  {
    hide OnTime, SleepsOnTime, GoesOn;
  }

  lemma DisableInAlt(k: K, g: Guard, process: int)
    requires DisableAllowed(k, g, process)
    ensures k.wptr in k.alt
  {
    hide OnlyReader;
  }

  lemma DormantNotCurrent(k: K, w: int)
    requires Inv(k) && StartAllowed(k, w)
    ensures w != k.wptr
  {
    hide Core;
  }

  lemma ResumeAddress(k: K, n: K, o: Outcome, later: Word, p: int)
    requires RunsNext(k, n, o, later) && k.wptr == 0 && p != 0
    ensures SameAddress(k, n, p)
  {
    hide RunsNext;
    RunsAt(k, n, o, later);
  }

  lemma AltEndsAddress(k: K, n: K, o: Outcome, p: int)
    requires Inv(k) && k.wptr != 0 && InAlt(k, Disabling) && k.alt[k.wptr].left == multiset{} && AltEndStep(k, n, o)
    ensures Address(n, p) == if p == k.wptr then k.ip + Rd(k.temp, p) else Address(k, p)
  {
    hide Core, Inv, Hand, InAlt, EndAlt;
    CurrentInHand(k);
    AltEnds(k);
    AltEndAddress(k, p);
  }

  lemma ObjectAddress(k: K, e: Event, n: K, o: Outcome, p: int)
    requires Allowed(k, e) && Step(k, e, n, o) && (e.ins.SemClaim? || e.ins.SemRelease? || e.ins.BarSync?) && p != 0
    ensures SameAddress(k, n, p)
  {
    hide OnTime, Plain, ClaimStep, ReleaseStep, SyncStep;
    match e.ins
    case SemClaim(x) => ClaimAddress(k, n, o, x, e.later, p);
    case SemRelease(x) => ReleaseAddress(k, n, x, p);
    case BarSync(x) => SyncAddress(k, n, o, x, e.later, p);
  }

  lemma EndsAddress(k: K, e: Event, n: K, o: Outcome, p: int)
    requires Allowed(k, e) && Step(k, e, n, o) && e.ins.EndP? && p != 0 && !EndsItself(k, e.ins, p)
    ensures Address(n, p) == if JoinsAt(k, e.ins, p) then k.par[p].resume else Address(k, p)
  {
    hide YieldAllowed, EndStep;
    EndAddress(k, n, o, e.ins.w, e.later, p);
  }

  // ---------------------------------------------------------------- whole runs

  /** p is started, joined or ended, or chooses its branch of an ALT. */
  predicate Redirects(k: K, i: Ins, p: int) {
    (i.StartP? && i.w == p) || JoinsAt(k, i, p) || EndsItself(k, i, p) || (i.AltEnd? && p == k.wptr)
  }

  /** In every run the address a process goes on at is its own: no step of any other process,
      and none of its own but those that redirect it, changes it. */
  lemma {:induction false} AddressKept(states: seq<K>, events: seq<Event>, i: nat, j: nat, p: int)
    requires Run(states, events) && Inv(states[0]) && i <= j < |states| && p != 0
    requires forall m: nat {:trigger events[m]} | i <= m < j :: !Redirects(states[m], events[m].ins, p)
    ensures Address(states[j], p) == Address(states[i], p)
    decreases j
  {
    hide Inv, Allowed, Step, Follows, Address, Redirects;
    if i < j {
      AddressKept(states, events, i, j - 1, p);
      RunKeeps(states, events, j - 1);
      assert Follows(states[j - 1], events[j - 1], states[j]);
      NotRedirected(states[j - 1], events[j - 1].ins, p);
      StepFollows(states[j - 1], events[j - 1], states[j], p);
    }
  }

  lemma StepFollows(k: K, e: Event, n: K, p: int)
    requires Inv(k) && Follows(k, e, n) && p != 0 && !EndsItself(k, e.ins, p)
    ensures Address(n, p) == AddressAfter(k, e.ins, p)
  {
    hide Inv, Allowed, Step, Address, AddressAfter, EndsItself;
    var o :| Step(k, e, n, o);
    StepAddress(k, e, n, o, p);
  }

  lemma NotRedirected(k: K, i: Ins, p: int)
    requires !Redirects(k, i, p)
    ensures AddressAfter(k, i, p) == Address(k, p) && !EndsItself(k, i, p)
  {}

  /** p does not run from state i up to state j, and nobody starts or joins it. */
  ghost predicate Away(states: seq<K>, events: seq<Event>, i: nat, j: nat, p: int)
    requires |states| == |events| + 1 && i <= j < |states|
  {
    forall m: nat {:trigger events[m]} | i <= m < j ::
      states[m].wptr != p && !(events[m].ins.StartP? && events[m].ins.w == p) && events[m].ins != EndP(p)
  }

  /** A process that loses the processor by any instruction but endp goes on, when it next
      runs, at the address it had, whatever has run in between. */
  lemma GoesOnWhereItWas(states: seq<K>, events: seq<Event>, i: nat, j: nat, p: int)
    requires Run(states, events) && Inv(states[0]) && i < j < |states| && p != 0
    requires states[i].wptr == p && !events[i].ins.EndP? && !events[i].ins.AltEnd? && Away(states, events, i + 1, j, p)
    requires states[j].wptr == p
    ensures states[j].ip == states[i].ip
  {
    hide Inv, Allowed, Step, Follows;
    RunKeeps(states, events, i);
    assert Follows(states[i], events[i], states[i + 1]);
    StartedElsewhere(states[i], events[i], states[i + 1]);
    forall m: nat {:trigger events[m]} | i <= m < j ensures !Redirects(states[m], events[m].ins, p) {
      var e := events[m];
    }
    AddressKept(states, events, i, j, p);
  }

  lemma StartedElsewhere(k: K, e: Event, n: K)
    requires Inv(k) && Follows(k, e, n)
    ensures e.ins.StartP? ==> e.ins.w != k.wptr
  {
    hide Inv, Step, StartAllowed;
    if e.ins.StartP? { DormantNotCurrent(k, e.ins.w); }
  }

  /** A process started runs first from its entry address. */
  lemma StartsAtEntry(states: seq<K>, events: seq<Event>, i: nat, j: nat, p: int)
    requires Run(states, events) && Inv(states[0]) && i < j < |states| && p != 0
    requires events[i].ins.StartP? && events[i].ins.w == p && Away(states, events, i + 1, j, p) && states[j].wptr == p
    ensures states[j].ip == events[i].ins.entry
  {
    hide Inv, Allowed, Step, Follows;
    RunKeeps(states, events, i);
    assert Follows(states[i], events[i], states[i + 1]);
    StepFollows(states[i], events[i], states[i + 1], p);
    forall m: nat {:trigger events[m]} | i + 1 <= m < j ensures !Redirects(states[m], events[m].ins, p) {
      var e := events[m];
    }
    AddressKept(states, events, i + 1, j, p);
  }
}
