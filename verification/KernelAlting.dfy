/** A whole ALT, from its wait to its branch: whatever runs in between, the process comes back
    with all its guards still to disable and none selected, and takes the branch of the first
    guard, in disabling order, that fires. */
module KernelAlting {
  import opened Words
  import opened KernelState
  import opened KernelFrames
  import opened KernelQueues
  import opened KernelTimers
  import opened KernelChannels
  import opened KernelAlts
  import opened KernelObjects
  import opened KernelProcs
  import opened KernelMachine
  import opened KernelRun
  import opened KernelPlaces
  import opened KernelTheorems
  import opened KernelAddress

  // ---------------------------------------------------------------- what leaves an ALT alone

  /** x has the same guards left and the same selection; it may have been woken. */
  ghost predicate AltSame(k: K, n: K, x: int)
    requires x in k.alt
  {
    && x in n.alt && n.alt[x].left == k.alt[x].left && n.alt[x].timed == k.alt[x].timed && Rd(n.temp, x) == Rd(k.temp, x)
    && (n.alt[x].phase == k.alt[x].phase || (k.alt[x].phase.Waiting? && n.alt[x].phase.Disabling?))
  }

  ghost predicate AltsSame(k: K, n: K) { forall x {:trigger AltSame(k, n, x)} | x in k.alt :: AltSame(k, n, x) }

  /** Only the current process's ALT may differ. */
  ghost predicate OthersSame(k: K, n: K) {
    forall x {:trigger AltSame(k, n, x)} | x in k.alt && x != k.wptr :: AltSame(k, n, x)
  }

  lemma AltsThen(k: K, m: K, n: K)
    requires AltsSame(m, n)
    ensures AltsSame(k, m) ==> AltsSame(k, n)
    ensures OthersSame(k, m) ==> OthersSame(k, n)
  {
    if AltsSame(k, m) {
      forall x | x in k.alt ensures AltSame(k, n, x) {
        assert AltSame(k, m, x);
        assert AltSame(m, n, x);
      }
    }
    if OthersSame(k, m) {
      forall x | x in k.alt && x != k.wptr ensures AltSame(k, n, x) {
        assert AltSame(k, m, x);
        assert AltSame(m, n, x);
      }
    }
  }

  lemma RunsNextAlts(k: K, n: K, o: Outcome, now: Word)
    requires RunsNext(k, n, o, now)
    ensures AltsSame(k, n)
  {
    hide Synced, TakeNext, AltSame;
    SyncedAlts(k, now);
    SelfAlts(k);
    if !k.intr {
      var w := Synced(k, now);
      if w.runq != [] { FieldsAlts(w, TakeNext(w)) by { TakeFields(w); } } else { FieldsAlts(w, n); }
      AltsThen(k, w, n);
    }
  }

  lemma SelfAlts(k: K)
    ensures AltsSame(k, k) && AltsSame(k, k.(wptr := 0))
  {}

  ghost predicate SameFields(k: K, n: K) { n.alt == k.alt && n.temp == k.temp }

  lemma FieldsAlts(k: K, n: K)
    requires SameFields(k, n)
    ensures AltsSame(k, n) && OthersSame(k, n)
  {}

  lemma TakeFields(k: K)
    requires k.runq != []
    ensures SameFields(k, TakeNext(k))
  {}

  lemma SyncedAlts(k: K, now: Word)
    ensures AltsSame(k, Synced(k, now))
  {
    hide Walk, AltSame;
    WalkAlts(k, now);
    FieldsAlts(Walk(k, now), Synced(k, now));
    AltsThen(k, Walk(k, now), Synced(k, now));
  }

  lemma {:induction false} WalkAlts(k: K, now: Word)
    ensures AltsSame(k, Walk(k, now))
    decreases |k.timerq|
  {
    hide Fire, After, AltSame;
    SelfAlts(k);
    if k.timerq != [] && !After(Rd(k.time, k.timerq[0]), now) {
      FireAlts(k, now);
      WalkAlts(Fire(k, now), now);
      AltsThen(k, Fire(k, now), Walk(k, now));
    }
  }

  lemma FireAlts(k: K, now: Word)
    requires k.timerq != []
    ensures AltsSame(k, Fire(k, now)) && |Fire(k, now).timerq| < |k.timerq|
  {
    hide Behind;
  }

  lemma ThenRunsAlts(k: K, m: K, n: K, o: Outcome, now: Word)
    requires RunsNext(m, n, o, now)
    ensures AltsSame(k, m) ==> AltsSame(k, n)
    ensures OthersSame(k, m) ==> OthersSame(k, n)
  {
    hide RunsNext, AltsSame, OthersSame;
    RunsNextAlts(m, n, o, now);
    AltsThen(k, m, n);
  }

  // ---------------------------------------------------------------- steps that are not of an ALT

  lemma ParkFields(k: K, c: int, out: bool, buf: int, len: nat, t: Word, data: Slots)
    ensures SameFields(k, Block(k, c, out, buf, len))
    ensures SameFields(k, ExtendedWait(k, c))
    ensures SameFields(k, Requeue(k.(data := data)))
    ensures SameFields(k, Stopped(k))
    ensures SameFields(k, WaitTime(k, t))
  {
    hide Behind, Pending, Slot, InsertAt, TimerLinkIn;
  }

  lemma MeetFields(k: K, q: int, c: int, data: Slots)
    ensures SameFields(k, Load(Requeue(Release(k, q, c, data)), q))
    ensures SameFields(k, Enqueue(Release(k, q, c, data), q))
  {
    hide Behind;
  }

  lemma SignalAltsSame(k: K, q: int, c: int, buf: int, len: nat)
    requires q in k.place
    ensures AltsSame(k, Signal(k, q, c, buf, len))
    ensures AltsSame(k, Load(Signal(k, q, c, buf, len), q))
  {
    hide Pending;
  }

  lemma EndFields(k: K, w: int)
    requires w in k.par
    ensures SameFields(k, Ended(k, w))
    ensures SameFields(k, Joined(k, w))
  {}

  lemma SetupFields(k: K, x: int, m: Word, w: int, resume: int, iptr: Slots)
    ensures SameFields(k, NewSem(k, x))
    ensures SameFields(k, NewBar(k, x, m))
    ensures SameFields(k, ParStarted(k, w, m, resume))
    ensures SameFields(k, Started(k, w, iptr))
  {
    hide Behind;
  }

  lemma SemFields(k: K, x: int)
    requires x in k.sem && x in k.waitq
    ensures SameFields(k, ClaimFree(k, x))
    ensures SameFields(k, ClaimBusy(k, x))
    ensures SameFields(k, ReleaseFree(k, x))
    ensures k.waitq[x] != [] ==> SameFields(k, Enqueue(HandOver(k, x), k.sem[x].fptr))
  {
    hide Behind;
  }

  lemma BarFields(k: K, x: int, m: Word)
    requires x in k.bar && x in k.waitq
    ensures SameFields(k, Complete(k, x, m))
    ensures k.bar[x].count > 0 ==> SameFields(k, SyncWait(k, x))
  {
    hide BarBehind, AppendLink, SetQueued;
  }

  lemma WordFields(k: K, x: int, m: Word)
    requires x in k.bar
    ensures k.bar[x].enrolled + m < W && k.bar[x].count + m < W ==> SameFields(k, Enrol(k, x, m))
    ensures m <= k.bar[x].enrolled && m <= k.bar[x].count ==> SameFields(k, Resign(k, x, m))
  {}

  lemma IoAlts(k: K, n: K, o: Outcome, c: int, out: bool, buf: int, len: nat, later: Word)
    requires IoStep(k, n, o, c, out, buf, len, later)
    ensures AltsSame(k, n)
  {
    hide RunsNext, Block, Requeue, Signal, Release, Load, Moves, Zeroed, SameFields, AltsSame, OthersSame, Stopped, ExtendedWait, WaitTime;
    var v := Rd(k.chan, c);
    var data := if out then k.data else Zeroed(k.data, buf, len);
    ParkFields(k, c, out, buf, len, 0, data);
    if v == 0 {
      FieldsAlts(k, Block(k, c, out, buf, len));
      ThenRunsAlts(k, Block(k, c, out, buf, len), n, o, later);
    } else if v == 1 {
      FieldsAlts(k, Requeue(k.(data := data)));
      ThenRunsAlts(k, Requeue(k.(data := data)), n, o, later);
    } else if v - 1 in k.place {
      SignalAltsSame(k, v - 1, c, buf, len);
      if Rd(k.ptr, v - 1) != WAITING { ThenRunsAlts(k, Signal(k, v - 1, c, buf, len), n, o, later); }
    } else {
      MeetFields(k, v, c, Moves(k, v, out, buf, len));
      FieldsAlts(k, n);
    }
  }

  lemma TinAlts(k: K, n: K, o: Outcome, t: Word, now: Word, later: Word)
    requires TinStep(k, n, o, t, now, later)
    ensures AltsSame(k, n)
  {
    hide RunsNext, WaitTime, Requeue, Stopped, ExtendedWait, Block, After, SameFields, AltsSame, OthersSame;
    SelfAlts(k);
    ParkFields(k, 0, false, 0, 0, t, k.data);
    FieldsAlts(k, WaitTime(k, t));
    if !After(now, t) { ThenRunsAlts(k, WaitTime(k, t), n, o, later); }
  }

  lemma XAbleAlts(k: K, n: K, o: Outcome, c: int, later: Word)
    requires ExtendedStep(k, n, o, c, later)
    ensures AltsSame(k, n)
  {
    hide RunsNext, WaitTime, Requeue, Stopped, ExtendedWait, Block, SameFields, AltsSame, OthersSame;
    SelfAlts(k);
    ParkFields(k, c, false, 0, 0, 0, k.data);
    FieldsAlts(k, ExtendedWait(k, c));
    if Rd(k.chan, c) == 0 { ThenRunsAlts(k, ExtendedWait(k, c), n, o, later); }
  }

  lemma XInAlts(k: K, n: K, o: Outcome, c: int, buf: int, len: nat, later: Word)
    requires ExtendedInStep(k, n, o, c, buf, len, later)
    ensures AltsSame(k, n)
  {
    hide RunsNext, Requeue, Zeroed, Moves, AltsSame, OthersSame, Block, Stopped, ExtendedWait, WaitTime;
    var data := Zeroed(k.data, buf, len);
    ParkFields(k, c, false, 0, 0, 0, data);
    if Rd(k.chan, c) == 1 {
      FieldsAlts(k, Requeue(k.(data := data)));
      ThenRunsAlts(k, Requeue(k.(data := data)), n, o, later);
    } else {
      FieldsAlts(k, n);
    }
  }

  lemma ClaimAlts(k: K, n: K, o: Outcome, x: int, later: Word)
    requires x in k.sem && x in k.waitq && ClaimStep(k, n, o, x, later)
    ensures AltsSame(k, n)
  {
    hide RunsNext, ClaimBusy, ClaimFree, ReleaseFree, HandOver, Enqueue, SameFields, AltsSame, OthersSame;
    SemFields(k, x);
    if k.sem[x].fptr == 1 {
      FieldsAlts(k, n);
    } else {
      FieldsAlts(k, ClaimBusy(k, x));
      ThenRunsAlts(k, ClaimBusy(k, x), n, o, later);
    }
  }

  lemma ReleaseAlts(k: K, n: K, x: int)
    requires x in k.sem && x in k.waitq && ReleaseStep(k, n, x)
    ensures AltsSame(k, n)
  {
    hide ClaimBusy, ClaimFree, ReleaseFree, HandOver, Enqueue, SameFields, AltsSame, OthersSame;
    SemFields(k, x);
    FieldsAlts(k, n);
  }

  lemma SyncAlts(k: K, n: K, o: Outcome, x: int, later: Word)
    requires x in k.bar && x in k.waitq && SyncStep(k, n, o, x, later)
    ensures AltsSame(k, n)
  {
    hide RunsNext, SyncWait, Complete, SameFields, AltsSame, OthersSame;
    BarFields(k, x, k.bar[x].enrolled);
    if k.bar[x].count > 1 {
      FieldsAlts(k, SyncWait(k, x));
      ThenRunsAlts(k, SyncWait(k, x), n, o, later);
    } else {
      FieldsAlts(k, n);
    }
  }

  lemma EnrolAlts(k: K, n: K, o: Outcome, x: int, m: Word)
    requires Inv(k) && x in k.bar && x in k.waitq && (EnrolStep(k, n, o, x, m) || ResignStep(k, n, o, x, m))
    ensures AltsSame(k, n)
  {
    hide Inv, Enrol, Resign, Complete, SyncWait, AltsSame, OthersSame;
    WordFields(k, x, m);
    if m <= k.bar[x].enrolled { BarFields(k, x, k.bar[x].enrolled - m); }
    FieldsAlts(k, n);
  }

  lemma EndAlts(k: K, n: K, o: Outcome, w: int, later: Word)
    requires w in k.par && EndStep(k, n, o, w, later)
    ensures AltsSame(k, n)
  {
    hide RunsNext, Ended, Joined, SameFields, AltsSame, OthersSame;
    EndFields(k, w);
    if k.par[w].count == 1 {
      FieldsAlts(k, n);
    } else {
      FieldsAlts(k, Ended(k, w));
      ThenRunsAlts(k, Ended(k, w), n, o, later);
    }
  }

  // ---------------------------------------------------------------- steps of an ALT

  lemma StartOthers(k: K, timed: bool)
    ensures OthersSame(k, StartAlt(k, timed))
    ensures OthersSame(k, EndAlt(k))
  {}

  lemma EnableOthers(k: K, n: K, g: Guard)
    requires k.wptr in k.alt && EnableStep(k, n, g)
    ensures OthersSame(k, n)
  {
    hide After;
  }

  lemma DisableOthers(k: K, n: K, g: Guard, process: int)
    requires k.wptr in k.alt && DisableStep(k, n, g, process)
    ensures OthersSame(k, n)
  {
    hide After, CancelTimer;
    if g.TimerGuard? && k.wptr in k.timerq {
      var i: nat :| i < |k.timerq| && k.timerq[i] == k.wptr && n == CancelTimer(k, i, g.t);
      CancelOthers(k, i, g.t);
    }
  }

  lemma CancelOthers(k: K, i: nat, t: Word)
    requires i < |k.timerq| && k.wptr in k.alt
    ensures OthersSame(k, CancelTimer(k, i, t))
  {}

  /** The current process has come to the end of its enabling: no branch is selected, and all
      guards are still to disable. */
  ghost predicate Waited(k: K, n: K)
    requires k.wptr in k.alt
  {
    && k.wptr in n.alt && n.alt[k.wptr].left == k.alt[k.wptr].left && !n.alt[k.wptr].phase.Enabling?
    && Rd(n.temp, k.wptr) == NONE_SELECTED
  }

  lemma SleepWaits(k: K)
    requires k.wptr in k.alt
    ensures Waited(k, SleepAlt(k)) && OthersSame(k, SleepAlt(k))
    ensures Waited(k, SleepTimed(k)) && OthersSame(k, SleepTimed(k))
  {
    hide Slot, InsertAt, TimerLinkIn;
  }

  lemma ProceedWaits(k: K, time: Slots)
    requires k.wptr in k.alt
    ensures Waited(k, Proceed(k, time)) && OthersSame(k, Proceed(k, time))
  {}

  lemma StillWaited(k: K, m: K, n: K)
    requires k.wptr in k.alt && Waited(k, m) && AltsSame(m, n)
    ensures Waited(k, n)
  {
    assert AltSame(m, n, k.wptr);
  }

  lemma WaitAlts(k: K, n: K, o: Outcome, later: Word)
    requires k.wptr in k.alt && WaitStep(k, n, o, later)
    ensures OthersSame(k, n) && Waited(k, n)
  {
    hide RunsNext, SleepAlt, SleepTimed, Proceed, Waited, AltsSame, OthersSame;
    SleepWaits(k);
    ProceedWaits(k, k.time);
    if Rd(k.ptr, k.wptr) != READY {
      RunsNextAlts(SleepAlt(k), n, o, later);
      ThenRunsAlts(k, SleepAlt(k), n, o, later);
      StillWaited(k, SleepAlt(k), n);
    }
  }

  lemma TimedWaitAlts(k: K, n: K, o: Outcome, now: Word, later: Word)
    requires k.wptr in k.alt && TimedWaitStep(k, n, o, now, later)
    ensures OthersSame(k, n) && Waited(k, n)
  {
    hide RunsNext, SleepAlt, SleepTimed, Proceed, Waited, AltsSame, OthersSame, GoesOn;
    SleepWaits(k);
    ProceedWaits(k, k.time[k.wptr := now]);
    if !GoesOn(k, now) {
      var m := if Rd(k.tlink, k.wptr) != TIME_NOT_SET then SleepTimed(k) else SleepAlt(k);
      RunsNextAlts(m, n, o, later);
      ThenRunsAlts(k, m, n, o, later);
      StillWaited(k, m, n);
    }
  }

  predicate OwnAlt(i: Ins) { i.AltStart? || i.Enable? || i.AltWait? || i.TimedAltWait? || i.Disable? || i.AltEnd? }

  lemma OwnAlts(k: K, e: Event, n: K, o: Outcome)
    requires Allowed(k, e) && Step(k, e, n, o) && OwnAlt(e.ins)
    ensures OthersSame(k, n)
    ensures e.ins.AltWait? || e.ins.TimedAltWait? ==> k.wptr in k.alt && Waited(k, n)
  {
    hide EnableStep, DisableStep, WaitStep, TimedWaitStep, StartAlt, EndAlt, OnTime, SleepsOnTime, GoesOn, OnlyReader, InHand,
         AltStartAllowed, OthersSame, Waited;
    match e.ins
    case AltStart(timed) => StartOthers(k, timed);
    case Enable(g) => EnableOthers(k, n, g);
    case AltWait => WaitAlts(k, n, o, e.later);
    case TimedAltWait => TimedWaitAlts(k, n, o, e.now, e.later);
    case Disable(g, process) => DisableOthers(k, n, g, process);
    case AltEnd => AltEndOthers(k, n, o);
  }

  lemma AltEndOthers(k: K, n: K, o: Outcome)
    requires AltEndStep(k, n, o)
    ensures OthersSame(k, n)
  {
    hide EndAlt, AltSame;
    StartOthers(k, true);
    SelfAlts(k);
  }

  lemma ElseAlts(k: K, e: Event, n: K, o: Outcome)
    requires Inv(k) && Allowed(k, e) && Step(k, e, n, o) && !OwnAlt(e.ins)
    ensures AltsSame(k, n)
  {
    hide Inv, IoAllowed, TinAllowed, OnTime, YieldAllowed, StartAllowed, ExtendedInAllowed, ExtendedEndAllowed, IoStep, TinStep,
         ClaimStep, ReleaseStep, SyncStep, EnrolStep, ResignStep, NewSem, NewBar, ParStarted, Started, EndStep, RunsNext, Stopped,
         Requeue, ExtendedStep, ExtendedInStep, ExtendedEndStep, AltsSame, OthersSame, SameFields, Block, ExtendedWait, WaitTime;
    match e.ins
    case Io(c, out, buf, len) => IoAlts(k, n, o, c, out, buf, len, e.later);
    case SemInit(x) =>
      SetupFields(k, x, 0, 0, 0, map[]);
      FieldsAlts(k, n);
    case BarInit(x, m) =>
      SetupFields(k, x, m, 0, 0, map[]);
      FieldsAlts(k, n);
    case ParStart(w, m, resume) =>
      SetupFields(k, 0, m, w, resume, map[]);
      FieldsAlts(k, n);
    case StartP(w, entry) =>
      SetupFields(k, 0, 0, w, 0, k.iptr[w := entry]);
      FieldsAlts(k, n);
    case RunP(w) =>
      SetupFields(k, 0, 0, w, 0, k.iptr);
      FieldsAlts(k, n);
    case SemClaim(x) => ClaimAlts(k, n, o, x, e.later);
    case SemRelease(x) => ReleaseAlts(k, n, x);
    case BarSync(x) => SyncAlts(k, n, o, x, e.later);
    case BarEnroll(x, m) =>
      BarIn(k, x);
      EnrolAlts(k, n, o, x, m);
    case BarResign(x, m) => EnrolAlts(k, n, o, x, m);
    case EndP(w) => EndAlts(k, n, o, w, e.later);
    case XEnd(c) => XEndAlts(k, n, c);
    case Resume => RunsNextAlts(k, n, o, e.later);
    case Tin(t) => TinAlts(k, n, o, t, e.now, e.later);
    case XAble(c) => XAbleAlts(k, n, o, c, e.later);
    case XIn(c, buf, len) => XInAlts(k, n, o, c, buf, len, e.later);
    case StopP =>
      ParkFields(k, 0, false, 0, 0, 0, k.data);
      FieldsAlts(k, Stopped(k));
      ThenRunsAlts(k, Stopped(k), n, o, e.later);
    case Reschedule =>
      SameData(k);
      ParkFields(k, 0, false, 0, 0, 0, k.data);
      FieldsAlts(k, Requeue(k));
      ThenRunsAlts(k, Requeue(k), n, o, e.later);
  }

  lemma BarIn(k: K, x: int)
    requires Inv(k) && x in k.bar
    ensures x in k.waitq
  {
    hide Core, Hand;
    BarFacts(k, x);
  }

  lemma XEndAlts(k: K, n: K, c: int)
    requires ExtendedEndStep(k, n, c)
    ensures AltsSame(k, n)
  {
    hide Enqueue, Release, Load, Requeue, AltsSame, OthersSame;
    MeetFields(k, Rd(k.chan, c), c, k.data);
    FieldsAlts(k, n);
  }

  // ---------------------------------------------------------------- whole runs

  /** The ALT of p, whose guards are left, is waiting or past its wait, with nothing selected. */
  ghost predicate Undecided(k: K, p: int, left: multiset<Guard>) {
    p in k.alt && k.alt[p].left == left && !k.alt[p].phase.Enabling? && Rd(k.temp, p) == NONE_SELECTED
  }

  lemma UndecidedStep(k: K, e: Event, n: K, p: int, left: multiset<Guard>)
    requires Inv(k) && Follows(k, e, n) && Undecided(k, p, left) && !(k.wptr == p && OwnAlt(e.ins))
    ensures Undecided(n, p, left)
  {
    hide Inv, Allowed, Step, OwnAlt;
    var o :| Step(k, e, n, o);
    if OwnAlt(e.ins) { OwnAlts(k, e, n, o); } else { ElseAlts(k, e, n, o); }
    assert AltSame(k, n, p);
  }

  lemma UndecidedFrom(k: K, e: Event, n: K)
    requires Inv(k) && Follows(k, e, n) && (e.ins.AltWait? || e.ins.TimedAltWait?)
    ensures k.wptr in k.alt && Undecided(n, k.wptr, k.alt[k.wptr].left)
  {
    hide Inv, Allowed, Step;
    var o :| Step(k, e, n, o);
    OwnAlts(k, e, n, o);
  }

  /** Through every run a process that waits in an ALT keeps all its guards, with no branch
      selected, until it disables them itself. */
  lemma {:induction false} StaysUndecided(states: seq<K>, events: seq<Event>, i: nat, j: nat, p: int)
    requires Run(states, events) && Inv(states[0]) && i < j < |states| && p == states[i].wptr
    requires events[i].ins.AltWait? || events[i].ins.TimedAltWait?
    requires forall m: nat {:trigger events[m]} | i < m < j :: !(states[m].wptr == p && OwnAlt(events[m].ins))
    ensures p in states[i].alt && Undecided(states[j], p, states[i].alt[p].left)
    decreases j
  {
    hide Inv, Allowed, Step, Follows, Undecided, OwnAlt;
    RunKeeps(states, events, j - 1);
    assert Follows(states[j - 1], events[j - 1], states[j]);
    if j == i + 1 {
      UndecidedFrom(states[i], events[i], states[j]);
    } else {
      StaysUndecided(states, events, i, j - 1, p);
      UndecidedStep(states[j - 1], events[j - 1], states[j], p, states[i].alt[p].left);
    }
  }

  lemma RunningUndecided(k: K, left: multiset<Guard>)
    requires Inv(k) && k.wptr != 0 && Undecided(k, k.wptr, left)
    ensures InAlt(k, Disabling) && Rd(k.temp, k.wptr) == NONE_SELECTED && k.alt[k.wptr].left == left
  {
    hide Core;
    CurrentInHand(k);
    CoreParts(k);
    NotWaitingNow(k);
  }

  lemma NotWaitingNow(k: K)
    requires AltsOk(k) && InHand(k, k.wptr) && k.wptr in k.alt
    ensures !k.alt[k.wptr].phase.Waiting?
  {
    hide After, SomeReady, SomeFires, AllMarked, NoTimers;
    AltOf(k, k.wptr);
  }

  /** A whole ALT: the process waits at state i and next runs at state j; it disables its
      guards one by one, in some order, and reaches altend. It then goes on in the branch of
      the first of the guards, in that order, that fires when it comes back, at the address
      after its wait with the offset of the branch. */
  lemma TakesBranch(states: seq<K>, events: seq<Event>, i: nat, j: nat, ks: seq<K>, bs: seq<Branch>, m: K, o: Outcome)
    requires Run(states, events) && Inv(states[0]) && i < j < |states| && states[i].wptr != 0
    requires events[i].ins.AltWait? || events[i].ins.TimedAltWait?
    requires Away(states, events, i + 1, j, states[i].wptr) && states[j].wptr == states[i].wptr
    requires Disables(ks, bs) && ks[0] == states[j] && AltEndStep(ks[|bs|], m, o)
    requires states[i].wptr in states[i].alt ==> Guards(bs) == states[i].alt[states[i].wptr].left
    ensures var k, p, f := states[j], states[i].wptr, FirstReady(states[j], bs);
            && f < |bs| && Fires(k, p, bs[f].g) && (forall h | 0 <= h < f :: !Fires(k, p, bs[h].g))
            && o == Continue && m.wptr == p && m.ip == states[i].ip + bs[f].process && p !in m.alt
            && (forall c :: Rd(m.chan, c) != p + 1)
  {
    hide Inv, Allowed, Step, Follows, Undecided, AltEndStep, Fires;
    var p := states[i].wptr;
    forall l: nat | i < l < j ensures !(states[l].wptr == p && OwnAlt(events[l].ins)) { var e := events[l]; }
    StaysUndecided(states, events, i, j, p);
    RunKeeps(states, events, j);
    RunningUndecided(states[j], states[i].alt[p].left);
    GoesOnWhereItWas(states, events, i, j, p);
    PriAltEnds(ks, bs, m, o);
    FirstIs(states[j], bs);
  }
}
