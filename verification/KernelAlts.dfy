/** The ALT instructions (runtime/libtvm/ins_alt.c). */
module KernelAlts {
  import opened Words
  import opened KernelState
  import opened KernelFrames
  import opened KernelQueues
  import opened KernelTimers
  import opened KernelChannels

  /** The current process is enabling, or disabling, its guards. */
  ghost predicate InAlt(k: K, phase: Phase) {
    InHand(k, k.wptr) && k.wptr in k.alt && k.alt[k.wptr].phase == phase
  }

  /** Nobody but p has c among its remaining guards. */
  ghost predicate OnlyReader(alt: Alts, c: int, p: int) {
    forall x | x in alt && x != p :: ChanGuard(c) !in alt[x].left
  }

  function More(k: K, g: Guard): Alts
    requires k.wptr in k.alt
  {
    var a := k.alt[k.wptr];
    k.alt[k.wptr := a.(left := a.left + multiset{g})]
  }

  function Less(k: K, g: Guard): Alts
    requires k.wptr in k.alt
  {
    var a := k.alt[k.wptr];
    k.alt[k.wptr := a.(left := a.left - multiset{g})]
  }

  // ---------------------------------------------------------------- parts of the proof

  /** The current process changes its own ALT and slots, in place. */
  ghost predicate OwnStep(k: K, n: K) {
    && n.place == k.place && n.link == k.link && n.fptr == k.fptr && n.bptr == k.bptr && n.runq == k.runq
    && n.waitq == k.waitq && n.sem == k.sem && n.bar == k.bar && n.holder == k.holder
    && n.alt.Keys - {k.wptr} == k.alt.Keys - {k.wptr}
    && forall x | x != k.wptr ::
         && Rd(n.ptr, x) == Rd(k.ptr, x) && Rd(n.temp, x) == Rd(k.temp, x) && Rd(n.time, x) == Rd(k.time, x)
         && (x in n.alt && x in k.alt ==> n.alt[x] == k.alt[x])
  }

  lemma OwnCore(k: K, n: K)
    requires Core(k) && InHand(k, k.wptr) && OwnStep(k, n)
    requires ChanOk(n.chan, n.place, n.ptr, n.link, n.alt) && TimerOk(n)
    requires forall x | x in k.alt && x != k.wptr ::
               Steady(k.chan, n.chan, x, k.alt[x].left) && Alike(Rd(n.tlink, x), Rd(k.tlink, x)) && (x in n.timerq <==> x in k.timerq)
    requires k.wptr in n.alt ==> AltAt(n, k.wptr)
    ensures Core(n)
  {
    hide RunOk, WaitOk, ObjectsOk, ChanOk, AltAt, TimerOk, Ids, Steady, Alike;
    AltsPlaces(k);
    hide AltsOk;
    AltsFrameBut(k, n, k.wptr);
  }

  /** The timer queue, when the current process is not on it. */
  lemma OwnTimer(k: K, n: K)
    requires Core(k) && InHand(k, k.wptr) && OwnStep(k, n) && k.wptr !in k.timerq
    requires n.timerq == k.timerq && n.tptr == k.tptr && n.tnext == k.tnext && n.tq == k.tq
    requires forall x | x != k.wptr :: Rd(n.tlink, x) == Rd(k.tlink, x)
    ensures TimerOk(n)
  {
    hide RunOk, WaitOk, ObjectsOk, ChanOk, AltsOk, Ids, After, NoDup;
    TimerSlots(k, n);
    hide Sorted, TimerLinked;
    forall x | x in n.timerq ensures TimerMember(n.place, n.alt, x) {
      assert TimerMember(k.place, k.alt, x) && x != k.wptr;
      if x in k.alt { assert x in k.alt.Keys - {k.wptr}; }
    }
  }

  lemma TimerSlots(k: K, n: K)
    requires TimerOk(k) && n.timerq == k.timerq
    requires forall x | x in k.timerq :: Rd(n.tlink, x) == Rd(k.tlink, x) && Rd(n.time, x) == Rd(k.time, x)
    ensures Sorted(n.time, n.timerq) && TimerLinked(n.tlink, n.timerq)
    ensures n.timerq != [] ==> Rd(n.time, n.timerq[0]) == Rd(k.time, k.timerq[0])
  {
    hide After, TimerMember;
    var q := k.timerq;
    forall i: nat {:trigger TimerLinkAt(n.tlink, q, i)} | i < |q| ensures TimerLinkAt(n.tlink, q, i) {
      assert TimerLinkAt(k.tlink, q, i) && q[i] in q;
    }
    forall i: nat | i < |q| ensures Rd(n.time, q[i]) == Rd(k.time, q[i]) { assert q[i] in q; }
  }

  lemma EnablerOffQueue(k: K)
    requires Core(k) && InHand(k, k.wptr) && (k.wptr in k.alt ==> k.alt[k.wptr].phase.Enabling?)
    ensures k.wptr !in k.timerq
  {
    hide RunOk, WaitOk, ObjectsOk, ChanOk, AltsOk, Ids, After, NoDup, Sorted, TimerLinked;
  }

  /** Channels, when only p's remaining guards grow. */
  lemma OwnChan(k: K, n: K)
    requires ChanOk(k.chan, k.place, k.ptr, k.link, k.alt) && InHand(k, k.wptr) && OwnStep(k, n) && n.chan == k.chan
    requires k.wptr in k.alt ==> k.wptr in n.alt && forall c | ChanGuard(c) in k.alt[k.wptr].left :: ChanGuard(c) in n.alt[k.wptr].left
    ensures ChanOk(n.chan, n.place, n.ptr, n.link, n.alt)
  {
    forall c ensures ChanAt(n.chan, n.place, n.ptr, n.link, n.alt, c) {
      assert ChanAt(k.chan, k.place, k.ptr, k.link, k.alt, c);
      var x := Rd(k.chan, c) - 1;
      if x in k.alt && x != k.wptr { assert x in k.alt.Keys - {k.wptr}; }
    }
    forall x ensures HeldAt(n.chan, n.place, n.ptr, x) { assert HeldAt(k.chan, k.place, k.ptr, x); }
  }

  // ---------------------------------------------------------------- alt, talt

  function StartAlt(k: K, timed: bool): K {
    k.(ptr := k.ptr[k.wptr := ENABLING], tlink := if timed then k.tlink[k.wptr := TIME_NOT_SET] else k.tlink,
       alt := k.alt[k.wptr := Alt(timed, Enabling, multiset{})])
  }

  lemma StartAltCore(k: K, timed: bool)
    requires Core(k) && InHand(k, k.wptr) && k.wptr !in k.alt
    ensures Core(StartAlt(k, timed))
  {
    hide Core, OwnStep, ChanOk, TimerOk, AltAt;
    var n := StartAlt(k, timed);
    EnablerOffQueue(k);
    CoreParts(k);
    OwnStarted(k, timed);
    OwnChan(k, n);
    OwnTimer(k, n);
    StartedAlt(k, timed);
    OwnSteady(k, n);
    OwnCore(k, n);
  }

  lemma CoreParts(k: K)
    requires Core(k)
    ensures ChanOk(k.chan, k.place, k.ptr, k.link, k.alt) && TimerOk(k) && AltsOk(k) && Ids(k.place)
  {}

  lemma OwnStarted(k: K, timed: bool)
    ensures OwnStep(k, StartAlt(k, timed))
  {}

  lemma StartedAlt(k: K, timed: bool)
    requires InHand(k, k.wptr) && k.wptr !in k.timerq
    ensures AltAt(StartAlt(k, timed), k.wptr)
  {}

  /** The other ALTs see no difference. */
  lemma OwnSteady(k: K, n: K)
    requires n.chan == k.chan && n.timerq == k.timerq && forall x | x != k.wptr :: Rd(n.tlink, x) == Rd(k.tlink, x)
    ensures forall x | x in k.alt && x != k.wptr ::
              Steady(k.chan, n.chan, x, k.alt[x].left) && Alike(Rd(n.tlink, x), Rd(k.tlink, x)) && (x in n.timerq <==> x in k.timerq)
  {}

  // ---------------------------------------------------------------- enbc, enbs, enbt

  function EnableChan(k: K, c: int): K
    requires k.wptr in k.alt
  {
    var v, p := Rd(k.chan, c), k.wptr;
    k.(chan := if v == 0 then k.chan[c := p + 1] else k.chan,
       ptr := if v != 0 && v != p + 1 then k.ptr[p := READY] else k.ptr, alt := More(k, ChanGuard(c)))
  }

  lemma EnableChanCore(k: K, c: int)
    requires Core(k) && InAlt(k, Enabling)
    ensures Core(EnableChan(k, c))
  {
    hide Core, OwnStep, ChanOk, TimerOk, AltAt, Steady, Alike;
    var n := EnableChan(k, c);
    EnablerOffQueue(k);
    CoreParts(k);
    OwnEnabled(k, c);
    OwnTimer(k, n);
    EnabledChan(k, c);
    EnabledAlt(k, c);
    EnabledSteady(k, c);
    OwnCore(k, n);
  }

  lemma OwnEnabled(k: K, c: int)
    requires k.wptr in k.alt
    ensures OwnStep(k, EnableChan(k, c))
  {}

  lemma EnabledSteady(k: K, c: int)
    requires Core(k) && k.wptr in k.alt
    ensures var n := EnableChan(k, c);
            forall x | x in k.alt && x != k.wptr ::
              Steady(k.chan, n.chan, x, k.alt[x].left) && Alike(Rd(n.tlink, x), Rd(k.tlink, x)) && (x in n.timerq <==> x in k.timerq)
  {
    hide RunOk, WaitOk, ObjectsOk, ChanOk, TimerOk, AltsOk;
    AltsPlaces(k);
  }

  lemma EnabledChan(k: K, c: int)
    requires Core(k) && InAlt(k, Enabling)
    ensures var n := EnableChan(k, c); ChanOk(n.chan, n.place, n.ptr, n.link, n.alt)
  {
    hide RunOk, WaitOk, ObjectsOk, AltsOk, TimerOk;
    var n, p := EnableChan(k, c), k.wptr;
    forall d ensures ChanAt(n.chan, n.place, n.ptr, n.link, n.alt, d) {
      assert ChanAt(k.chan, k.place, k.ptr, k.link, k.alt, d);
    }
    forall x ensures HeldAt(n.chan, n.place, n.ptr, x) { assert HeldAt(k.chan, k.place, k.ptr, x); }
  }

  lemma EnabledAlt(k: K, c: int)
    requires Core(k) && InAlt(k, Enabling)
    ensures AltAt(EnableChan(k, c), k.wptr)
  {
    hide RunOk, WaitOk, ObjectsOk, ChanOk, TimerOk, Ids, After;
    var n, p := EnableChan(k, c), k.wptr;
    AltOf(k, p);
    hide AltsOk;
    var left := k.alt[p].left;
    var more := n.alt[p].left;
    assert forall g :: g in more <==> g == ChanGuard(c) || g in left;
    if Rd(n.ptr, p) == READY {
      if Rd(k.ptr, p) == READY {
        var g :| g in left && !g.TimerGuard? && Fires(k, p, g);
        assert g in more && Fires(n, p, g);
      } else {
        assert ChanGuard(c) in more && Fires(n, p, ChanGuard(c));
      }
    }
  }

  function EnableSkip(k: K): K
    requires k.wptr in k.alt
  {
    k.(ptr := k.ptr[k.wptr := READY], alt := More(k, SkipGuard))
  }

  lemma EnableSkipCore(k: K)
    requires Core(k) && InAlt(k, Enabling)
    ensures Core(EnableSkip(k))
  {
    hide Core, OwnStep, ChanOk, TimerOk, AltAt, Steady, Alike;
    var n := EnableSkip(k);
    EnablerOffQueue(k);
    CoreParts(k);
    OwnSkip(k);
    OwnChan(k, n);
    OwnTimer(k, n);
    SkipAlt(k);
    OwnSteady(k, n);
    OwnCore(k, n);
  }

  lemma OwnSkip(k: K)
    requires k.wptr in k.alt
    ensures OwnStep(k, EnableSkip(k))
  {}

  lemma SkipAlt(k: K)
    requires Core(k) && InAlt(k, Enabling)
    ensures AltAt(EnableSkip(k), k.wptr)
  {
    hide RunOk, WaitOk, ObjectsOk, ChanOk, TimerOk, Ids, After;
    var n, p := EnableSkip(k), k.wptr;
    AltOf(k, p);
    hide AltsOk;
    assert forall g :: g in n.alt[p].left <==> g == SkipGuard || g in k.alt[p].left;
    assert Fires(n, p, SkipGuard);
  }

  /** WS_TIME keeps the earliest timeout so far. */
  function EnableTimer(k: K, t: Word): K
    requires k.wptr in k.alt
  {
    var p := k.wptr;
    var unset := Rd(k.tlink, p) == TIME_NOT_SET;
    k.(tlink := if unset then k.tlink[p := TIME_SET] else k.tlink,
       time := if unset || After(Rd(k.time, p), t) then k.time[p := t] else k.time, alt := More(k, TimerGuard(t)))
  }

  lemma EnableTimerCore(k: K, t: Word)
    requires Core(k) && InAlt(k, Enabling) && k.alt[k.wptr].timed
    ensures Core(EnableTimer(k, t))
  {
    hide Core, OwnStep, ChanOk, TimerOk, AltAt, Steady, Alike, After;
    var n := EnableTimer(k, t);
    EnablerOffQueue(k);
    CoreParts(k);
    OwnTimed(k, t);
    OwnChan(k, n);
    OwnTimer(k, n);
    TimerAlt(k, t);
    OwnSteady(k, n);
    OwnCore(k, n);
  }

  lemma OwnTimed(k: K, t: Word)
    requires k.wptr in k.alt
    ensures OwnStep(k, EnableTimer(k, t))
  {
    hide After;
  }

  lemma TimerAlt(k: K, t: Word)
    requires Core(k) && InAlt(k, Enabling) && k.alt[k.wptr].timed
    ensures AltAt(EnableTimer(k, t), k.wptr)
  {
    hide RunOk, WaitOk, ObjectsOk, ChanOk, TimerOk, Ids, After;
    var n, p := EnableTimer(k, t), k.wptr;
    AltOf(k, p);
    hide AltsOk;
    var left := k.alt[p].left;
    assert forall g :: g in n.alt[p].left <==> g == TimerGuard(t) || g in left;
    if Rd(k.ptr, p) == READY {
      var g :| g in left && !g.TimerGuard? && Fires(k, p, g);
      assert g in n.alt[p].left && Fires(n, p, g);
    }
  }

  // ---------------------------------------------------------------- altwt, taltwt

  function NextPhase(k: K, phase: Phase): Alts
    requires k.wptr in k.alt
  {
    k.alt[k.wptr := k.alt[k.wptr].(phase := phase)]
  }

  /** A guard is ready: go on to disable. A timed ALT notes the time. */
  function Proceed(k: K, time: Slots): K
    requires k.wptr in k.alt
  {
    k.(temp := k.temp[k.wptr := NONE_SELECTED], time := time, ptr := k.ptr[k.wptr := READY],
       alt := NextPhase(k, Disabling))
  }

  lemma ProceedCore(k: K, time: Slots)
    requires Core(k) && InAlt(k, Enabling)
    requires forall x | x != k.wptr :: Rd(time, x) == Rd(k.time, x)
    requires Rd(k.ptr, k.wptr) == READY
             || (k.alt[k.wptr].timed && Rd(k.tlink, k.wptr) == TIME_SET
                 && After(Rd(time, k.wptr), Rd(k.time, k.wptr)))
    ensures Core(Proceed(k, time))
  {
    hide Core, OwnStep, ChanOk, TimerOk, AltAt, Steady, Alike, After;
    var n := Proceed(k, time);
    EnablerOffQueue(k);
    CoreParts(k);
    OwnProceed(k, time);
    OwnChan(k, n);
    OwnTimer(k, n);
    ProceedAlt(k, time);
    OwnSteady(k, n);
    OwnCore(k, n);
  }

  lemma OwnProceed(k: K, time: Slots)
    requires k.wptr in k.alt && forall x | x != k.wptr :: Rd(time, x) == Rd(k.time, x)
    ensures OwnStep(k, Proceed(k, time))
  {}

  /** When the ALT goes on, some guard will be found fired. */
  lemma ProceedAlt(k: K, time: Slots)
    requires Core(k) && InAlt(k, Enabling)
    requires Rd(k.ptr, k.wptr) == READY
             || (k.alt[k.wptr].timed && Rd(k.tlink, k.wptr) == TIME_SET
                 && After(Rd(time, k.wptr), Rd(k.time, k.wptr)))
    ensures AltAt(Proceed(k, time), k.wptr)
  {
    hide RunOk, WaitOk, ObjectsOk, ChanOk, TimerOk, Ids;
    var n, p := Proceed(k, time), k.wptr;
    AltOf(k, p);
    hide AltsOk;
    var left := k.alt[p].left;
    if Rd(k.ptr, p) == READY {
      hide After;
      var g :| g in left && !g.TimerGuard? && Fires(k, p, g);
      assert Fires(n, p, g);
    } else {
      AfterFlips(Rd(time, p), Rd(k.time, p));
      hide After;
      assert Fires(n, p, TimerGuard(Rd(k.time, p)));
    }
  }

  lemma AfterFlips(a: int, b: int)
    requires After(a, b)
    ensures !After(b, a)
  {
    Congruent(b - a, W - (a - b) % W, -((a - b) / W) - 1);
  }

  /** Nothing is ready: wait. */
  function SleepAlt(k: K): K
    requires k.wptr in k.alt
  {
    k.(temp := k.temp[k.wptr := NONE_SELECTED], ptr := k.ptr[k.wptr := WAITING], iptr := k.iptr[k.wptr := k.ip],
       place := k.place[k.wptr := AltWait], alt := NextPhase(k, Waiting))
  }

  lemma SleepAltCore(k: K)
    requires Core(k) && InAlt(k, Enabling) && Rd(k.ptr, k.wptr) != READY && NoTimers(k.alt[k.wptr].left)
    ensures Core(SleepAlt(k))
  {
    hide RunOk, WaitOk, ObjectsOk, ChanOk, AltsOk, TimerOk, Ids;
    var n, p := SleepAlt(k), k.wptr;
    RunFrame(k.link, n.link, k.place, n.place, k.fptr, k.bptr, k.runq);
    WaitFrame(k.link, n.link, k.place, n.place, k.waitq);
    ChanFrame(k.chan, k.place, n.place, k.ptr, n.ptr, k.link, n.link, k.alt, n.alt);
    MoveIds(k.place, p, AltWait);
    EnablerOffQueue(k);
    TimerFrame(k, n);
    SleepAlts(k);
  }

  lemma SleepAlts(k: K)
    requires Core(k) && InAlt(k, Enabling) && Rd(k.ptr, k.wptr) != READY && NoTimers(k.alt[k.wptr].left)
    ensures AltsOk(SleepAlt(k))
  {
    hide RunOk, WaitOk, ObjectsOk, ChanOk, TimerOk, Ids, AltAt, NoTimers;
    var n, p := SleepAlt(k), k.wptr;
    SleepingAlt(k);
    AltsPlaces(k);
    hide AltsOk;
    AltsFrameBut(k, n, p);
  }

  lemma SleepingAlt(k: K)
    requires Core(k) && InAlt(k, Enabling) && Rd(k.ptr, k.wptr) != READY && NoTimers(k.alt[k.wptr].left)
    ensures AltAt(SleepAlt(k), k.wptr)
  {
    hide RunOk, WaitOk, ObjectsOk, ChanOk, TimerOk, Ids, After;
    AltOf(k, k.wptr);
    hide AltsOk;
  }

  /** Wait, but not beyond the earliest timeout: the deadline is one past it. */
  function SleepTimed(k: K): K
    requires k.wptr in k.alt
  {
    var t := Add(Rd(k.time, k.wptr), 1);
    SleepAlt(TimerInsert(k.(time := k.time[k.wptr := t]), k.wptr, t))
  }

  /** A timed ALT in which a timeout has been enabled. */
  ghost predicate Timed(k: K) {
    k.wptr in k.alt && k.alt[k.wptr].timed && Rd(k.tlink, k.wptr) == TIME_SET
  }

  lemma SleepTimedCore(k: K)
    requires Core(k) && InAlt(k, Enabling) && Rd(k.ptr, k.wptr) != READY && Timed(k)
    requires Timely(k.time, k.timerq, Add(Rd(k.time, k.wptr), 1))
    ensures Core(SleepTimed(k))
  {
    hide RunOk, WaitOk, ObjectsOk, ChanOk, AltsOk, TimerOk, Ids, Timely, Timed, SleepTimed, Inserted;
    var n, p := SleepTimed(k), k.wptr;
    SleepTimedSlots(k);
    SleepTimedTimer(k);
    SleepTimedAlts(k);
    RunFrame(k.link, n.link, k.place, n.place, k.fptr, k.bptr, k.runq);
    WaitFrame(k.link, n.link, k.place, n.place, k.waitq);
    ChanFrame(k.chan, k.place, n.place, k.ptr, n.ptr, k.link, n.link, k.alt, n.alt);
    MoveIds(k.place, p, AltWait);
  }

  /** The parts of the state that going to sleep does not concern, and those it does. */
  lemma SleepTimedSlots(k: K)
    requires k.wptr in k.alt
    ensures var n, p, t := SleepTimed(k), k.wptr, Add(Rd(k.time, k.wptr), 1);
            && Inserted(k, n, p, t)
            && n.place == k.place[p := AltWait] && n.alt == NextPhase(k, Waiting) && n.ptr == k.ptr[p := WAITING]
            && n.temp == k.temp[p := NONE_SELECTED] && n.chan == k.chan && n.link == k.link
            && n.fptr == k.fptr && n.bptr == k.bptr && n.runq == k.runq && n.waitq == k.waitq
            && n.sem == k.sem && n.bar == k.bar && n.holder == k.holder
  {
    hide Slot, InsertAt, TimerLinkIn;
  }

  lemma SleepTimedTimer(k: K)
    requires Core(k) && InAlt(k, Enabling) && Timed(k)
    requires Timely(k.time, k.timerq, Add(Rd(k.time, k.wptr), 1))
    ensures TimerOk(SleepTimed(k)) && k.wptr !in k.timerq
    ensures forall x :: x in SleepTimed(k).timerq <==> x == k.wptr || x in k.timerq
  {
    hide RunOk, WaitOk, ObjectsOk, ChanOk, AltsOk, TimerOk, Ids, Timely, SleepTimed, Inserted;
    SleepTimedSlots(k);
    EnablerOffQueue(k);
    TimerWaits(k);
    InsertedTimer(k, SleepTimed(k), k.wptr, Add(Rd(k.time, k.wptr), 1));
  }

  lemma TimerWaits(k: K)
    requires Core(k) && InHand(k, k.wptr)
    ensures forall x | x in k.place && k.place[x].TimerWait? :: x != k.wptr
  {}

  lemma SleepTimedAlts(k: K)
    requires Core(k) && InAlt(k, Enabling) && Rd(k.ptr, k.wptr) != READY && Timed(k)
    requires Timely(k.time, k.timerq, Add(Rd(k.time, k.wptr), 1))
    ensures AltsOk(SleepTimed(k))
  {
    hide RunOk, WaitOk, ObjectsOk, ChanOk, TimerOk, Ids, AltAt, Timely, SleepTimed, Inserted, Alike, Steady;
    var n, p := SleepTimed(k), k.wptr;
    SleepTimedSlots(k);
    SleepTimedTimer(k);
    SleepTimedAlt(k);
    AltsPlaces(k);
    CoreParts(k);
    forall x | x in k.alt && x != p ensures SameSlots(k, n, x) && Steady(k.chan, n.chan, x, k.alt[x].left) {
      InsertedSlots(k, n, p, Add(Rd(k.time, p), 1), x);
      SteadySame(k.chan, x, k.alt[x].left);
    }
    hide AltsOk, SameSlots;
    AltsFrameBut(k, n, p);
  }

  lemma InsertedSlots(k: K, n: K, p: int, t: int, x: int)
    requires Ids(k.place) && TimerOk(k) && Inserted(k, n, p, t) && p in k.place && x != p
    ensures Alike(Rd(n.tlink, x), Rd(k.tlink, x)) && Rd(n.time, x) == Rd(k.time, x)
  {
    hide TimerOk, Alike, Slot, InsertAt, TimerLinkIn;
    InsertedLinks(k, n, p, t, x);
  }

  lemma SleepTimedAlt(k: K)
    requires Core(k) && InAlt(k, Enabling) && Rd(k.ptr, k.wptr) != READY && Timed(k)
    requires Timely(k.time, k.timerq, Add(Rd(k.time, k.wptr), 1))
    ensures AltAt(SleepTimed(k), k.wptr)
  {
    hide RunOk, WaitOk, ObjectsOk, ChanOk, TimerOk, Ids, After, SleepTimed, Timely, Slot, InsertAt, TimerLinkIn;
    SleepTimedSlots(k);
    SleepTimedTimer(k);
    OneBack(Rd(k.time, k.wptr));
    AltOf(k, k.wptr);
    hide AltsOk;
  }

  lemma OneBack(t: int)
    ensures 0 <= t < W ==> Sub(Add(t, 1), 1) == t
  {}

  // ---------------------------------------------------------------- disc, diss, dist

  /** The first guard found fired is selected. */
  function Select(k: K, fires: bool, process: int): Slots {
    if fires && Rd(k.temp, k.wptr) == NONE_SELECTED then k.temp[k.wptr := process] else k.temp
  }

  function DisableChan(k: K, c: int, process: int): K
    requires k.wptr in k.alt
  {
    var v, p := Rd(k.chan, c), k.wptr;
    k.(chan := if v == p + 1 then k.chan[c := 0] else k.chan, temp := Select(k, v != 0 && v != p + 1, process),
       alt := Less(k, ChanGuard(c)))
  }

  lemma DisableChanCore(k: K, c: int, process: int)
    requires Core(k) && InAlt(k, Disabling) && ChanGuard(c) in k.alt[k.wptr].left
    requires OnlyReader(k.alt, c, k.wptr) && process != NONE_SELECTED
    ensures Core(DisableChan(k, c, process))
  {
    hide Core, OwnStep, ChanOk, TimerOk, AltAt, Steady, Alike;
    var n := DisableChan(k, c, process);
    CoreParts(k);
    OwnDisabled(k, c, process);
    DisabledChan(k, c, process);
    LessTimer(k, n);
    DisabledAlt(k, c, process);
    DisabledSteady(k, c, process);
    OwnCore(k, n);
  }

  lemma OwnDisabled(k: K, c: int, process: int)
    requires k.wptr in k.alt
    ensures OwnStep(k, DisableChan(k, c, process))
  {}

  /** The timer queue, when only p's remaining guards change. */
  lemma LessTimer(k: K, n: K)
    requires Core(k) && InHand(k, k.wptr) && k.wptr in k.alt && k.wptr in n.alt && OwnStep(k, n)
    requires n.alt[k.wptr].timed == k.alt[k.wptr].timed && n.alt[k.wptr].phase == k.alt[k.wptr].phase
    requires n.timerq == k.timerq && n.tptr == k.tptr && n.tnext == k.tnext && n.tq == k.tq && n.tlink == k.tlink && n.time == k.time
    ensures TimerOk(n)
  {
    hide RunOk, WaitOk, ObjectsOk, ChanOk, AltsOk, Ids, After, NoDup, Sorted, TimerLinked;
    forall x | x in n.timerq ensures TimerMember(n.place, n.alt, x) {
      assert TimerMember(k.place, k.alt, x);
      if x in k.alt && x != k.wptr { assert x in k.alt.Keys - {k.wptr}; }
    }
  }

  lemma DisabledSteady(k: K, c: int, process: int)
    requires Core(k) && k.wptr in k.alt && OnlyReader(k.alt, c, k.wptr)
    ensures var n := DisableChan(k, c, process);
            forall x | x in k.alt && x != k.wptr ::
              Steady(k.chan, n.chan, x, k.alt[x].left) && Alike(Rd(n.tlink, x), Rd(k.tlink, x)) && (x in n.timerq <==> x in k.timerq)
  {
    hide RunOk, WaitOk, ObjectsOk, ChanOk, TimerOk, AltsOk;
  }

  lemma DisabledChan(k: K, c: int, process: int)
    requires Core(k) && InAlt(k, Disabling)
    ensures var n := DisableChan(k, c, process); ChanOk(n.chan, n.place, n.ptr, n.link, n.alt)
  {
    hide RunOk, WaitOk, ObjectsOk, AltsOk, TimerOk;
    var n, p := DisableChan(k, c, process), k.wptr;
    LessLeft(k.alt[p].left, ChanGuard(c));
    forall d ensures ChanAt(n.chan, n.place, n.ptr, n.link, n.alt, d) {
      assert ChanAt(k.chan, k.place, k.ptr, k.link, k.alt, d);
    }
    forall x ensures HeldAt(n.chan, n.place, n.ptr, x) { assert HeldAt(k.chan, k.place, k.ptr, x); }
  }

  lemma LessLeft(left: multiset<Guard>, g: Guard)
    ensures forall h | h != g :: h in left - multiset{g} <==> h in left
    ensures forall h | h in left - multiset{g} :: h in left
  {}

  /** While nothing is selected, a guard still to be disabled fires. */
  lemma DisabledAlt(k: K, c: int, process: int)
    requires Core(k) && InAlt(k, Disabling) && ChanGuard(c) in k.alt[k.wptr].left && process != NONE_SELECTED
    ensures AltAt(DisableChan(k, c, process), k.wptr)
  {
    hide RunOk, WaitOk, ObjectsOk, ChanOk, TimerOk, Ids, After;
    var n, p := DisableChan(k, c, process), k.wptr;
    var left := k.alt[p].left;
    AltOf(k, p);
    LessLeft(left, ChanGuard(c));
    hide AltsOk;
    if !NoTimers(left) {
      var g :| g in left && g.TimerGuard?;
      assert g in n.alt[p].left;
    }
    if Rd(n.temp, p) == NONE_SELECTED {
      var g :| g in left && Fires(k, p, g);
      assert g in n.alt[p].left && Fires(n, p, g);
    }
  }

  function DisableSkip(k: K, process: int): K
    requires k.wptr in k.alt
  {
    k.(temp := Select(k, true, process), alt := Less(k, SkipGuard))
  }

  lemma DisableSkipCore(k: K, process: int)
    requires Core(k) && InAlt(k, Disabling) && SkipGuard in k.alt[k.wptr].left && process != NONE_SELECTED
    ensures Core(DisableSkip(k, process))
  {
    hide Core, OwnStep, ChanOk, TimerOk, AltAt, Steady, Alike;
    var n := DisableSkip(k, process);
    CoreParts(k);
    OwnUnskipped(k, process);
    UnskippedChan(k, process);
    LessTimer(k, n);
    UnskippedAlt(k, process);
    OwnSteady(k, n);
    OwnCore(k, n);
  }

  lemma OwnUnskipped(k: K, process: int)
    requires k.wptr in k.alt
    ensures OwnStep(k, DisableSkip(k, process))
  {}

  lemma UnskippedChan(k: K, process: int)
    requires Core(k) && InAlt(k, Disabling)
    ensures var n := DisableSkip(k, process); ChanOk(n.chan, n.place, n.ptr, n.link, n.alt)
  {
    hide Core, OwnStep, ChanOk;
    CoreParts(k);
    OwnUnskipped(k, process);
    LessLeft(k.alt[k.wptr].left, SkipGuard);
    OwnChan(k, DisableSkip(k, process));
  }

  lemma UnskippedAlt(k: K, process: int)
    requires Core(k) && InAlt(k, Disabling) && SkipGuard in k.alt[k.wptr].left && process != NONE_SELECTED
    ensures AltAt(DisableSkip(k, process), k.wptr)
  {
    hide RunOk, WaitOk, ObjectsOk, ChanOk, TimerOk, Ids, After;
    var n, p := DisableSkip(k, process), k.wptr;
    var left := k.alt[p].left;
    AltOf(k, p);
    LessLeft(left, SkipGuard);
    hide AltsOk;
    if !NoTimers(left) {
      var g :| g in left && g.TimerGuard?;
      assert g in n.alt[p].left;
    }
  }

  /** dist when the process has left the timer queue, or was never on it. */
  function DisableTimer(k: K, t: Word, process: int): K
    requires k.wptr in k.alt
  {
    var p := k.wptr;
    k.(temp := Select(k, Rd(k.tlink, p) == TIME_SET && !After(t, Rd(k.time, p)), process), alt := Less(k, TimerGuard(t)))
  }

  lemma DisableTimerCore(k: K, t: Word, process: int)
    requires Core(k) && InAlt(k, Disabling) && TimerGuard(t) in k.alt[k.wptr].left && process != NONE_SELECTED
    requires k.wptr !in k.timerq
    ensures Core(DisableTimer(k, t, process))
  {
    hide Core, OwnStep, ChanOk, TimerOk, AltAt, Steady, Alike, After;
    var n := DisableTimer(k, t, process);
    CoreParts(k);
    OwnUntimed(k, t, process);
    LessLeft(k.alt[k.wptr].left, TimerGuard(t));
    OwnChan(k, n);
    OwnTimer(k, n);
    UntimedAlt(k, t, process);
    OwnSteady(k, n);
    OwnCore(k, n);
  }

  lemma OwnUntimed(k: K, t: Word, process: int)
    requires k.wptr in k.alt
    ensures OwnStep(k, DisableTimer(k, t, process))
  {
    hide After;
  }

  lemma UntimedAlt(k: K, t: Word, process: int)
    requires Core(k) && InAlt(k, Disabling) && TimerGuard(t) in k.alt[k.wptr].left && process != NONE_SELECTED
    requires k.wptr !in k.timerq
    ensures AltAt(DisableTimer(k, t, process), k.wptr)
  {
    hide RunOk, WaitOk, ObjectsOk, ChanOk, TimerOk, Ids, After;
    var n, p := DisableTimer(k, t, process), k.wptr;
    var left := k.alt[p].left;
    AltOf(k, p);
    LessLeft(left, TimerGuard(t));
    hide AltsOk;
    if Rd(n.temp, p) == NONE_SELECTED {
      var g :| g in left && Fires(k, p, g);
      assert g in n.alt[p].left && Fires(n, p, g);
    }
  }

  /** dist while the process is still on the timer queue, at position i. */
  function CancelTimer(k: K, i: nat, t: Word): K
    requires i < |k.timerq| && k.wptr in k.alt
  {
    TimerRemove(k, i).(alt := Less(k, TimerGuard(t)))
  }

  lemma CancelTimerCore(k: K, i: nat, t: Word)
    requires Core(k) && InAlt(k, Disabling) && TimerGuard(t) in k.alt[k.wptr].left
    requires i < |k.timerq| && k.timerq[i] == k.wptr
    ensures Core(CancelTimer(k, i, t)) && k.wptr !in CancelTimer(k, i, t).timerq
  {
    hide Core, OwnStep, ChanOk, TimerOk, AltAt, Steady, Alike, TimerRemove, CancelTimer;
    var n := CancelTimer(k, i, t);
    CoreParts(k);
    CancelSlots(k, i, t);
    LessLeft(k.alt[k.wptr].left, TimerGuard(t));
    OwnCancelled(k, i, t);
    OwnChan(k, n);
    CancelledTimer(k, i, t);
    CancelledAlt(k, i, t);
    CancelledSteady(k, i, t);
    OwnCore(k, n);
  }

  lemma CancelSlots(k: K, i: nat, t: Word)
    requires i < |k.timerq| && k.wptr in k.alt && k.timerq[i] == k.wptr
    ensures var n := CancelTimer(k, i, t);
            && n.chan == k.chan && n.place == k.place && n.ptr == k.ptr && n.temp == k.temp && n.time == k.time && n.link == k.link
            && n.timerq == RemoveAt(k.timerq, i) && n.tlink == TimerLinkOut(k.tlink, k.timerq, i) && n.alt == Less(k, TimerGuard(t))
            && n.tptr == (if i == 0 then Rd(k.tlink, k.wptr) else k.tptr)
            && n.tnext == (if i == 0 && Rd(k.tlink, k.wptr) != 0 then Rd(k.time, Rd(k.tlink, k.wptr)) else k.tnext)
            && (k.tq ==> n.tq)
  {}

  lemma OwnCancelled(k: K, i: nat, t: Word)
    requires i < |k.timerq| && k.wptr in k.alt
    ensures OwnStep(k, CancelTimer(k, i, t))
  {}

  lemma CancelledTimer(k: K, i: nat, t: Word)
    requires Core(k) && InAlt(k, Disabling) && i < |k.timerq| && k.timerq[i] == k.wptr
    ensures TimerOk(CancelTimer(k, i, t)) && k.wptr !in CancelTimer(k, i, t).timerq
    ensures forall x | x != k.wptr :: x in CancelTimer(k, i, t).timerq <==> x in k.timerq
  {
    hide RunOk, WaitOk, ObjectsOk, ChanOk, AltsOk, Ids, After, CancelTimer, NoDup, Sorted, TimerLinked, RemoveAt, TimerLinkOut;
    var n, q := CancelTimer(k, i, t), k.timerq;
    CancelSlots(k, i, t);
    RemoveLinks(k.tlink, k.time, q, i);
    RemoveHead(k, i);
    TimerWaits(k);
    forall x | x in n.timerq ensures TimerMember(n.place, n.alt, x) { assert TimerMember(k.place, k.alt, x); }
  }

  lemma RemoveHead(k: K, i: nat)
    requires TimerOk(k) && Ids(k.place) && i < |k.timerq|
    ensures var q := k.timerq; var r := RemoveAt(q, i);
            && Head(r) == (if i == 0 then Rd(k.tlink, q[0]) else q[0])
            && (r != [] ==> Head(r) != 0 && r[0] == Head(r))
            && (i != 0 ==> r != [])
  {
    hide After, Sorted, NoDup;
    var q := k.timerq;
    assert TimerLinkAt(k.tlink, q, 0);
    if |q| > 1 { assert q[1] in q && TimerMember(k.place, k.alt, q[1]); }
    assert q[0] in q && TimerMember(k.place, k.alt, q[0]);
  }

  lemma CancelledSteady(k: K, i: nat, t: Word)
    requires Core(k) && InAlt(k, Disabling) && i < |k.timerq| && k.timerq[i] == k.wptr
    ensures var n := CancelTimer(k, i, t);
            forall x | x in k.alt && x != k.wptr ::
              Steady(k.chan, n.chan, x, k.alt[x].left) && Alike(Rd(n.tlink, x), Rd(k.tlink, x)) && (x in n.timerq <==> x in k.timerq)
  {
    hide RunOk, WaitOk, ObjectsOk, ChanOk, AltsOk, TimerOk, After, CancelTimer, RemoveAt, Alike, TimerLinkOut;
    var n := CancelTimer(k, i, t);
    CancelSlots(k, i, t);
    CancelledTimer(k, i, t);
    forall x | x in k.alt && x != k.wptr ensures Steady(k.chan, n.chan, x, k.alt[x].left) && Alike(Rd(n.tlink, x), Rd(k.tlink, x)) {
      SteadySame(k.chan, x, k.alt[x].left);
      RemovedLinks(k, i, x);
    }
  }

  lemma RemovedLinks(k: K, i: nat, x: int)
    requires Ids(k.place) && TimerOk(k) && i < |k.timerq| && x != k.timerq[i]
    ensures Alike(Rd(TimerLinkOut(k.tlink, k.timerq, i), x), Rd(k.tlink, x))
  {
    hide After, NoDup, Sorted;
    var q := k.timerq;
    if i > 0 && x == q[i - 1] {
      assert TimerLinkAt(k.tlink, q, i - 1) && TimerLinkAt(k.tlink, q, i);
      assert q[i] in q && TimerMember(k.place, k.alt, q[i]);
      if i + 1 < |q| { assert q[i + 1] in q && TimerMember(k.place, k.alt, q[i + 1]); }
    }
  }

  lemma CancelledAlt(k: K, i: nat, t: Word)
    requires Core(k) && InAlt(k, Disabling) && TimerGuard(t) in k.alt[k.wptr].left
    requires i < |k.timerq| && k.timerq[i] == k.wptr
    ensures AltAt(CancelTimer(k, i, t), k.wptr)
  {
    hide RunOk, WaitOk, ObjectsOk, ChanOk, TimerOk, Ids, After, CancelTimer, RemoveAt;
    var n, p := CancelTimer(k, i, t), k.wptr;
    var left := k.alt[p].left;
    CancelSlots(k, i, t);
    CancelledTimer(k, i, t);
    MemberLink(k, i);
    AltOf(k, p);
    LessLeft(left, TimerGuard(t));
    hide AltsOk;
    if Rd(n.temp, p) == NONE_SELECTED {
      var g :| g in left && Fires(k, p, g);
      assert g in n.alt[p].left && Fires(n, p, g);
    }
  }

  lemma MemberLink(k: K, i: nat)
    requires Core(k) && i < |k.timerq|
    ensures Rd(k.tlink, k.timerq[i]) != TIME_SET && Rd(k.tlink, k.timerq[i]) != TIME_NOT_SET
    ensures k.timerq[i] in k.timerq
  {
    hide RunOk, WaitOk, ObjectsOk, ChanOk, AltsOk, After, NoDup, Sorted;
    var q := k.timerq;
    assert TimerLinkAt(k.tlink, q, i);
    if i + 1 < |q| { assert q[i + 1] in q && TimerMember(k.place, k.alt, q[i + 1]); }
  }

  // ---------------------------------------------------------------- altend

  function EndAlt(k: K): K {
    k.(ip := k.ip + Rd(k.temp, k.wptr), alt := k.alt - {k.wptr})
  }

  /** All guards disabled: something has been selected, no channel carries the mark of this
      process, and it is off the timer queue. */
  lemma AltEnds(k: K)
    requires Core(k) && InAlt(k, Disabling) && k.alt[k.wptr].left == multiset{}
    ensures Rd(k.temp, k.wptr) != NONE_SELECTED && k.wptr !in k.timerq
    ensures forall c :: Rd(k.chan, c) != k.wptr + 1
  {
    hide RunOk, WaitOk, ObjectsOk, TimerOk, After;
    AltOf(k, k.wptr);
    forall c ensures Rd(k.chan, c) != k.wptr + 1 { assert ChanAt(k.chan, k.place, k.ptr, k.link, k.alt, c); }
    hide AltsOk;
  }

  lemma EndAltCore(k: K)
    requires Core(k) && InAlt(k, Disabling) && k.alt[k.wptr].left == multiset{}
    ensures Core(EndAlt(k))
  {
    hide Core, OwnStep, ChanOk, TimerOk, AltAt, Steady, Alike;
    var n := EndAlt(k);
    CoreParts(k);
    AltEnds(k);
    OwnEnded(k);
    EndedChan(k);
    OwnTimer(k, n);
    OwnSteady(k, n);
    OwnCore(k, n);
  }

  lemma OwnEnded(k: K)
    ensures OwnStep(k, EndAlt(k))
  {}

  lemma EndedChan(k: K)
    requires Core(k) && InAlt(k, Disabling) && k.alt[k.wptr].left == multiset{}
    ensures var n := EndAlt(k); ChanOk(n.chan, n.place, n.ptr, n.link, n.alt)
  {
    hide RunOk, WaitOk, ObjectsOk, TimerOk, AltsOk;
    var n := EndAlt(k);
    AltEnds(k);
    forall c ensures ChanAt(n.chan, n.place, n.ptr, n.link, n.alt, c) {
      assert ChanAt(k.chan, k.place, k.ptr, k.link, k.alt, c);
    }
    forall x ensures HeldAt(n.chan, n.place, n.ptr, x) { assert HeldAt(k.chan, k.place, k.ptr, x); }
  }
}
