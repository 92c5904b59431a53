/** What the kernel's consistency means to occam programs: rendezvous, PRI ALT, timeouts. */
module KernelTheorems {
  import opened Words
  import opened KernelState
  import opened KernelFrames
  import opened KernelQueues
  import opened KernelTimers
  import opened KernelChannels
  import opened KernelAlts
  import opened KernelObjects
  import opened KernelProcs
  import opened KernelMachine
  import opened KernelRun
  import opened KernelPlaces

  // ---------------------------------------------------------------- rendezvous

  /** The second party to arrive completes the communication: the bytes have arrived, the
      channel is empty, the first party runs from where it stopped and the second is queued
      once, to go on where it is. */
  lemma Rendezvous(k: K, n: K, o: Outcome, c: int, out: bool, buf: int, len: nat, later: Word)
    requires Inv(k) && IoAllowed(k, c, out, buf, len, later) && IoStep(k, n, o, c, out, buf, len, later)
    requires Partner(k, Rd(k.chan, c), c, out, buf, len)
    ensures var q, p := Rd(k.chan, c), k.wptr;
            var src, dst := if out then buf else k.place[q].buf, if out then k.place[q].buf else buf;
            && o == Continue && n.wptr == q != p && n.ip == Rd(k.iptr, q)
            && Rd(n.chan, c) == 0 && n.runq == k.runq + [p] && p !in k.runq && Rd(n.iptr, p) == k.ip
            && (forall i | 0 <= i < len :: ByteAt(n.data, dst, i) == ByteAt(k.data, src, i))
            && (forall x | !(dst <= x < dst + len) :: Rd(n.data, x) == Rd(k.data, x))
  {
    hide Core, Hand, Inv, Copy, Partner, Alting, RunsNext, Load, Requeue, Release;
    CurrentInHand(k);
    var q := Rd(k.chan, c);
    PartnerBuffer(k, q, c, out, buf, len);
    PartnerId(k, q);
    PartnerFacts(k, q, c, out, buf, len);
    NotQueued(k);
    MeetShape(k, q, c, Moves(k, q, out, buf, len));
    if out { CopyIs(k.data, Rd(k.ptr, q), buf, len); } else { CopyIs(k.data, buf, Rd(k.ptr, q), len); }
  }

  lemma PartnerBuffer(k: K, q: int, c: int, out: bool, buf: int, len: nat)
    requires Partner(k, q, c, out, buf, len)
    ensures q in k.place && k.place[q].Blocked? && (k.place[q].buf + len <= buf || buf + len <= k.place[q].buf)
  {}

  lemma MeetShape(k: K, q: int, c: int, data: Slots)
    requires q != k.wptr
    ensures var n := Load(Requeue(Release(k, q, c, data)), q);
            && n.wptr == q && n.ip == Rd(k.iptr, q) && Rd(n.chan, c) == 0 && n.runq == k.runq + [k.wptr]
            && Rd(n.iptr, k.wptr) == k.ip && n.data == data
  {
    hide Behind;
  }

  lemma PartnerId(k: K, q: int)
    requires Inv(k) && q in k.place
    ensures q != 0 && q % 4 == 0
  {
    hide RunOk, WaitOk, ObjectsOk, ChanOk, AltsOk, TimerOk;
  }

  lemma NotQueued(k: K)
    requires Core(k) && InHand(k, k.wptr)
    ensures k.wptr !in k.runq
  {
    hide WaitOk, ObjectsOk, ChanOk, AltsOk, TimerOk;
  }

  /** xin copies the message of the outputter and leaves it where it is, parked in the channel
      word until xend lets it go; the process goes on at once. */
  lemma ExtendedDelivers(k: K, n: K, o: Outcome, c: int, buf: int, len: nat, later: Word)
    requires Inv(k) && ExtendedInAllowed(k, c, buf, len, later) && ExtendedInStep(k, n, o, c, buf, len, later)
    requires Rd(k.chan, c) != 1
    ensures var q := Rd(k.chan, c);
            && o == Continue && n.wptr == k.wptr && n.ip == k.ip && n.place == k.place && n.runq == k.runq
            && q in n.place && n.place[q] == Blocked(c, true, k.place[q].buf, len) && Rd(n.chan, c) == q
            && (forall i | 0 <= i < len :: ByteAt(n.data, buf, i) == ByteAt(k.data, k.place[q].buf, i))
            && (forall x | !(buf <= x < buf + len) :: Rd(n.data, x) == Rd(k.data, x))
  {
    hide Core, Hand, Inv, Copy, RunsNext, OnTime;
    CurrentInHand(k);
    var q := Rd(k.chan, c);
    PartnerId(k, q);
    PartnerFacts(k, q, c, false, buf, len);
    CopyIs(k.data, buf, Rd(k.ptr, q), len);
  }

  /** Input from a disconnected channel leaves zeros, output to one leaves memory alone; the
      process is put behind the run queue. */
  lemma DisconnectedIo(k: K, n: K, o: Outcome, c: int, out: bool, buf: int, len: nat, later: Word)
    requires Rd(k.chan, c) == 1 && IoStep(k, n, o, c, out, buf, len, later)
    ensures out ==> n.data == k.data
    ensures !out ==> (forall i | 0 <= i < len :: ByteAt(n.data, buf, i) == 0)
                     && (forall x | !(buf <= x < buf + len) :: Rd(n.data, x) == Rd(k.data, x))
  {
    hide RunsNext, Requeue, Zeroed;
    var data := if out then k.data else Zeroed(k.data, buf, len);
    RequeuedData(k, data);
    RunsNextData(Requeue(k.(data := data)), n, o, later);
    ZeroedIs(k.data, buf, len);
  }

  lemma {:induction false} ZeroedIs(data: Slots, dst: int, n: nat)
    ensures forall i | 0 <= i < n :: ByteAt(Zeroed(data, dst, n), dst, i) == 0
    ensures forall x | !(dst <= x < dst + n) :: Rd(Zeroed(data, dst, n), x) == Rd(data, x)
    decreases n
  {
    if n > 0 {
      var z := Zeroed(data[dst := 0], dst + 1, n - 1);
      ZeroedIs(data[dst := 0], dst + 1, n - 1);
      forall i | 0 <= i < n ensures ByteAt(z, dst, i) == 0 {
        if i > 0 { assert ByteAt(z, dst + 1, i - 1) == 0; }
      }
    }
  }

  lemma RequeuedData(k: K, data: Slots)
    ensures Requeue(k.(data := data)).data == data
  {
    hide Behind;
  }

  lemma RunsNextData(k: K, n: K, o: Outcome, now: Word)
    requires RunsNext(k, n, o, now)
    ensures n.data == k.data
  {
    hide Synced, TakeNext;
    SyncedData(k, now);
    if !k.intr && Synced(k, now).runq != [] { TakeData(Synced(k, now)); }
  }

  lemma SyncedData(k: K, now: Word)
    ensures Synced(k, now).data == k.data
  {
    hide Walk;
    WalkData(k, now);
  }

  lemma TakeData(k: K)
    requires k.runq != []
    ensures TakeNext(k).data == k.data
  {}

  lemma {:induction false} WalkData(k: K, now: Word)
    ensures Walk(k, now).data == k.data
    decreases |k.timerq|
  {
    hide Fire, After;
    if k.timerq != [] && !After(Rd(k.time, k.timerq[0]), now) {
      FireData(k, now);
      WalkData(Fire(k, now), now);
    }
  }

  lemma FireData(k: K, now: Word)
    requires k.timerq != []
    ensures Fire(k, now).data == k.data && |Fire(k, now).timerq| < |k.timerq|
  {
    hide Behind, Woken;
  }

  /** The first party to arrive is left in the channel word, with its buffer and length. */
  lemma ArrivesFirst(k: K, n: K, o: Outcome, c: int, out: bool, buf: int, len: nat, later: Word)
    requires Inv(k) && IoAllowed(k, c, out, buf, len, later) && IoStep(k, n, o, c, out, buf, len, later)
    requires Rd(k.chan, c) == 0
    ensures k.wptr in n.place && n.place[k.wptr] == Blocked(c, out, buf, len) && Rd(n.chan, c) == k.wptr
  {
    hide Core, Hand, Inv, Block, RunsNext, Timely, Partner, Alting;
    CurrentInHand(k);
    IoKeeps(k, n, o, c, out, buf, len, later);
    BlockCore(k, c, out, buf, len);
    BlockPlaces(k, c, out, buf, len);
    Parking(k, c, out, buf, len);
    RunsNextStays(Block(k, c, out, buf, len), n, o, later, k.wptr);
    HeldInWord(n, k.wptr);
  }

  lemma Parking(k: K, c: int, out: bool, buf: int, len: nat)
    ensures var m := Block(k, c, out, buf, len); k.wptr in m.place && m.place[k.wptr] == Blocked(c, out, buf, len)
  {}

  lemma HeldInWord(k: K, p: int)
    requires Inv(k) && p in k.place && k.place[p].Blocked?
    ensures Rd(k.chan, k.place[p].c) == p
  {
    hide RunOk, WaitOk, ObjectsOk, AltsOk, TimerOk;
    assert HeldAt(k.chan, k.place, k.ptr, p);
  }

  /** Through any run of other instructions the first party waits in the channel word. */
  lemma {:induction false} WaitsForPartner(states: seq<K>, events: seq<Event>, i: nat, j: nat, p: int)
    requires Run(states, events) && Inv(states[0]) && i <= j < |states|
    requires p in states[i].place && states[i].place[p].Blocked?
    requires forall m: nat {:trigger events[m]} | i <= m < j :: !OnChannel(events[m].ins, states[i].place[p].c)
    ensures p in states[j].place && states[j].place[p] == states[i].place[p]
    ensures Rd(states[j].chan, states[i].place[p].c) == p
    decreases j
  {
    hide Inv, Allowed, Step, Follows, MovedBy, StillBut, OnChannel;
    RunKeeps(states, events, j);
    if i < j {
      WaitsForPartner(states, events, i, j - 1, p);
      RunKeeps(states, events, j - 1);
      assert Follows(states[j - 1], events[j - 1], states[j]);
      OneMoreStep(states[j - 1], events[j - 1], states[j], p);
    }
    HeldInWord(states[j], p);
  }

  /** A communication, or the end of an extended input, on channel c. */
  predicate OnChannel(i: Ins, c: int) { (i.Io? || i.XEnd?) && i.c == c }

  lemma OneMoreStep(k: K, e: Event, n: K, p: int)
    requires Inv(k) && Follows(k, e, n) && p in k.place && k.place[p].Blocked? && !OnChannel(e.ins, k.place[p].c)
    ensures p in n.place && n.place[p] == k.place[p]
  {
    hide Inv, Allowed, Step;
    var o :| Step(k, e, n, o);
    if p !in n.place || n.place[p] != k.place[p] { MovedOnly(k, e, n, o, p); }
  }

  // ---------------------------------------------------------------- ALT: no wakeup is lost

  /** While p has found nothing ready, or waits, every channel it has enabled holds its mark. */
  lemma MarksHeld(k: K, p: int, c: int)
    requires Inv(k) && p in k.alt && ChanGuard(c) in k.alt[p].left
    requires Rd(k.ptr, p) == ENABLING || Rd(k.ptr, p) == WAITING
    ensures Rd(k.chan, c) == p + 1
  {
    hide RunOk, WaitOk, ObjectsOk, ChanOk, TimerOk, After, SomeReady, SomeFires;
    AltOf(k, p);
    assert ChanGuard(c) in k.alt[p].left;
  }

  /** A waiting process whose channel is output to runs at once, without being queued; an
      active one is told. The outputter is left in the channel either way. */
  lemma OutputWakes(k: K, n: K, o: Outcome, c: int, buf: int, len: nat, later: Word)
    requires Inv(k) && IoAllowed(k, c, true, buf, len, later) && IoStep(k, n, o, c, true, buf, len, later)
    requires Alting(k.place, k.alt, Rd(k.chan, c) - 1, c) && Rd(k.chan, c) != 1
    ensures var q := Rd(k.chan, c) - 1;
            && q in k.place
            && (k.place[q].AltWait? || k.place[q].ExtWait? ==>
                  o == Continue && n.wptr == q && n.ip == Rd(k.iptr, q) && n.runq == k.runq && q !in n.runq
                  && (q in k.alt ==> q in n.alt && n.alt[q].phase.Disabling?))
            && k.wptr in n.place && n.place[k.wptr] == Blocked(c, true, buf, len) && Rd(n.chan, c) == k.wptr
  {
    hide Core, Hand, Inv, RunsNext, Timely, Partner, Alting, Signal, Load;
    CurrentInHand(k);
    var q := Rd(k.chan, c) - 1;
    IoKeeps(k, n, o, c, true, buf, len, later);
    AlterState(k, q, c);
    AlterIsOdd(k, q + 1);
    CoreParts(k);
    AlterPlace(k, q, c);
    SignalCore(k, q, c, buf, len);
    SignalPlaces(k, q, c, buf, len);
    SignalShape(k, q, c, buf, len);
    if Rd(k.ptr, q) == WAITING {
      LoadShape(Signal(k, q, c, buf, len), q);
      NowRunning(n);
    } else {
      RunsNextStays(Signal(k, q, c, buf, len), n, o, later, k.wptr);
    }
    HeldInWord(n, k.wptr);
  }

  lemma NowRunning(k: K)
    requires Inv(k) && k.wptr != 0
    ensures k.wptr !in k.runq
  {
    hide Core;
    CurrentInHand(k);
    NotQueued(k);
  }

  lemma LoadShape(k: K, q: int)
    ensures var n := Load(k, q);
            n.wptr == q && n.ip == Rd(k.iptr, q) && n.runq == k.runq && n.alt == k.alt && n.place == k.place && n.chan == k.chan
  {}

  lemma SignalShape(k: K, q: int, c: int, buf: int, len: nat)
    requires q in k.place && q != k.wptr
    ensures var n := Signal(k, q, c, buf, len);
            && n.runq == k.runq && n.alt == Woken(k.alt, q) && Rd(n.iptr, q) == Rd(k.iptr, q)
            && k.wptr in n.place && n.place[k.wptr] == Blocked(c, true, buf, len)
    ensures q in k.alt && k.alt[q].phase.Waiting? ==> Woken(k.alt, q)[q].phase.Disabling?
  {}

  // ---------------------------------------------------------------- PRI ALT

  /** A disable instruction: its guard and the code offset of its branch. */
  datatype Branch = Branch(g: Guard, process: int)

  /** The current process disables guards one after the other; disable instructions do not
      let anybody else run. */
  ghost predicate Disables(ks: seq<K>, bs: seq<Branch>) {
    && |ks| == |bs| + 1
    && forall i: nat {:trigger bs[i]} | i < |bs| :: DisablesOne(ks[i], ks[i + 1], bs[i])
  }

  ghost predicate DisablesOne(k: K, n: K, b: Branch) {
    DisableAllowed(k, b.g, b.process) && DisableStep(k, n, b.g, b.process)
  }

  /** The first guard in disabling order that fires. */
  ghost function FirstReady(k: K, bs: seq<Branch>): (i: nat)
    ensures i <= |bs|
  {
    if bs == [] || Fires(k, k.wptr, bs[0].g) then 0 else 1 + FirstReady(k, bs[1..])
  }

  /** What disabling a guard leaves: the other guards fire as before, other processes' channel
      words are untouched, and the branch is taken if it fires and none has been. */
  ghost predicate DisabledTo(k: K, n: K, b: Branch) {
    && n.wptr == k.wptr && n.ip == k.ip
    && (forall g :: Fires(n, k.wptr, g) <==> Fires(k, k.wptr, g))
    && (forall c :: Rd(k.chan, c) != k.wptr + 1 ==> Rd(n.chan, c) == Rd(k.chan, c))
    && Rd(n.temp, k.wptr) == (if Fires(k, k.wptr, b.g) && Rd(k.temp, k.wptr) == NONE_SELECTED then b.process
                              else Rd(k.temp, k.wptr))
    && k.wptr in k.alt && k.wptr in n.alt && n.alt[k.wptr].left == k.alt[k.wptr].left - multiset{b.g}
    && n.alt[k.wptr].phase == k.alt[k.wptr].phase
  }

  lemma DisableEffect(k: K, n: K, b: Branch)
    requires Inv(k) && DisablesOne(k, n, b)
    ensures DisabledTo(k, n, b) && Inv(n)
  {
    hide Core, Inv, Hand, OnlyReader, CancelTimer, DisableTimer, DisableSkip, DisableChan, DisabledTo;
    CurrentInHand(k);
    CoreParts(k);
    HandId(k);
    DisableKeeps(k, n, b.g, b.process);
    match b.g
    case ChanGuard(c) => ChanEffect(k, c, b.process);
    case SkipGuard => SkipEffect(k, b.process);
    case TimerGuard(t) =>
      if k.wptr in k.timerq {
        var i: nat :| i < |k.timerq| && k.timerq[i] == k.wptr && n == CancelTimer(k, i, t);
        CancelEffect(k, i, t, b.process);
      } else {
        TimerEffect(k, t, b.process);
      }
  }

  lemma ChanEffect(k: K, c: int, process: int)
    requires k.wptr in k.alt && k.wptr != -1
    ensures DisabledTo(k, DisableChan(k, c, process), Branch(ChanGuard(c), process))
  {
    hide Fires;
    var n := DisableChan(k, c, process);
    ChanTaken(k, c);
    forall g ensures Fires(n, k.wptr, g) <==> Fires(k, k.wptr, g) { ChanFires(k, c, process, g); }
  }

  lemma SkipEffect(k: K, process: int)
    requires k.wptr in k.alt
    ensures DisabledTo(k, DisableSkip(k, process), Branch(SkipGuard, process))
  {
    hide Fires;
    var n := DisableSkip(k, process);
    SkipTaken(k);
    forall g ensures Fires(n, k.wptr, g) <==> Fires(k, k.wptr, g) { SlotFires(k, n, g); }
  }

  lemma TimerEffect(k: K, t: Word, process: int)
    requires k.wptr in k.alt
    ensures DisabledTo(k, DisableTimer(k, t, process), Branch(TimerGuard(t), process))
  {
    hide Fires, After;
    var n := DisableTimer(k, t, process);
    TimerTaken(k, t);
    forall g ensures Fires(n, k.wptr, g) <==> Fires(k, k.wptr, g) { SlotFires(k, n, g); }
  }

  lemma CancelEffect(k: K, i: nat, t: Word, process: int)
    requires Core(k) && k.wptr in k.alt && i < |k.timerq| && k.timerq[i] == k.wptr
    ensures DisabledTo(k, CancelTimer(k, i, t), Branch(TimerGuard(t), process))
  {
    hide Core, Fires, After, CancelTimer;
    var n := CancelTimer(k, i, t);
    CancelSlots(k, i, t);
    CancelCurrent(k, i, t);
    MemberLink(k, i);
    TimerTaken(k, t);
    forall g ensures Fires(n, k.wptr, g) <==> Fires(k, k.wptr, g) { CancelFires(k, i, t, g); }
  }

  lemma CancelCurrent(k: K, i: nat, t: Word)
    requires i < |k.timerq| && k.wptr in k.alt
    ensures CancelTimer(k, i, t).wptr == k.wptr && CancelTimer(k, i, t).ip == k.ip
  {}

  lemma ChanFires(k: K, c: int, process: int, g: Guard)
    requires k.wptr in k.alt && k.wptr != -1
    ensures Fires(DisableChan(k, c, process), k.wptr, g) <==> Fires(k, k.wptr, g)
  {
    hide After;
  }

  lemma ChanTaken(k: K, c: int)
    ensures Fires(k, k.wptr, ChanGuard(c)) <==> Rd(k.chan, c) != 0 && Rd(k.chan, c) != k.wptr + 1
  {}

  lemma SkipTaken(k: K)
    ensures Fires(k, k.wptr, SkipGuard)
  {}

  lemma TimerTaken(k: K, t: Word)
    ensures Fires(k, k.wptr, TimerGuard(t)) <==> Rd(k.tlink, k.wptr) == TIME_SET && !After(t, Rd(k.time, k.wptr))
  {}

  lemma SlotFires(k: K, n: K, g: Guard)
    requires n.chan == k.chan && n.tlink == k.tlink && n.time == k.time
    ensures Fires(n, k.wptr, g) <==> Fires(k, k.wptr, g)
  {}

  lemma CancelFires(k: K, i: nat, t: Word, g: Guard)
    requires i < |k.timerq| && k.timerq[i] == k.wptr && k.wptr in k.alt && Rd(k.tlink, k.wptr) != TIME_SET
    ensures Fires(CancelTimer(k, i, t), k.wptr, g) <==> Fires(k, k.wptr, g)
  {
    hide After, CancelTimer;
    CancelSlots(k, i, t);
  }

  /** PRI ALT: when all guards have been disabled in some order, the branch selected is that of
      the first guard in this order that fires, and there is one; no channel carries the mark
      of this process any more; the words of all other channels, and so the outputters blocked
      in them, are untouched; and the process is off the timer queue. */
  lemma PriAlt(ks: seq<K>, bs: seq<Branch>)
    requires Disables(ks, bs) && Inv(ks[0]) && InAlt(ks[0], Disabling) && Rd(ks[0].temp, ks[0].wptr) == NONE_SELECTED
    requires Guards(bs) == ks[0].alt[ks[0].wptr].left
    ensures var k, n, i := ks[0], ks[|bs|], FirstReady(ks[0], bs);
            && i < |bs| && Fires(k, k.wptr, bs[i].g) && (forall j | 0 <= j < i :: !Fires(k, k.wptr, bs[j].g))
            && n.wptr == k.wptr && n.ip == k.ip && Rd(n.temp, k.wptr) == bs[i].process
            && (forall c :: Rd(k.chan, c) != k.wptr + 1 ==> Rd(n.chan, c) == Rd(k.chan, c))
            && (forall c :: Rd(n.chan, c) != k.wptr + 1)
            && k.wptr !in n.timerq
  {
    hide Inv, Core, Fires, InAlt, Hand;
    var k, n := ks[0], ks[|bs|];
    Starting(k);
    DisableAll(ks, bs);
    FirstIs(k, bs);
    AllGone(bs, k.alt[k.wptr].left);
    CurrentInHand(n);
    NowDisabling(k, n, bs);
    AltEnds(n);
  }

  /** altend then goes on in the branch of the first guard, in disabling order, that fires,
      and the ALT is over. */
  lemma PriAltEnds(ks: seq<K>, bs: seq<Branch>, m: K, o: Outcome)
    requires Disables(ks, bs) && Inv(ks[0]) && InAlt(ks[0], Disabling) && Rd(ks[0].temp, ks[0].wptr) == NONE_SELECTED
    requires Guards(bs) == ks[0].alt[ks[0].wptr].left && AltEndStep(ks[|bs|], m, o)
    ensures var k, i := ks[0], FirstReady(ks[0], bs);
            && i < |bs| && o == Continue && m.wptr == k.wptr && m.ip == k.ip + bs[i].process && k.wptr !in m.alt
            && (forall c :: Rd(k.chan, c) != k.wptr + 1 ==> Rd(m.chan, c) == Rd(k.chan, c))
            && (forall c :: Rd(m.chan, c) != k.wptr + 1)
  {
    hide Inv, Core, InAlt, EndAlt, DisablesOne;
    var n, i := ks[|bs|], FirstReady(ks[0], bs);
    PriAlt(ks, bs);
    SelectedIsOne(ks, bs, i);
    EndedAlt(n);
  }

  lemma SelectedIsOne(ks: seq<K>, bs: seq<Branch>, i: nat)
    requires Disables(ks, bs) && i < |bs|
    ensures bs[i].process != NONE_SELECTED
  {
    hide DisableStep, OnlyReader, InAlt;
    assert DisablesOne(ks[i], ks[i + 1], bs[i]);
  }

  lemma EndedAlt(k: K)
    ensures var n := EndAlt(k);
            n.wptr == k.wptr && n.ip == k.ip + Rd(k.temp, k.wptr) && n.chan == k.chan && k.wptr !in n.alt
  {}

  lemma Starting(k: K)
    requires Inv(k) && InAlt(k, Disabling)
    ensures k.wptr != 0 && k.wptr in k.alt && k.alt[k.wptr].phase.Disabling?
  {
    hide Core;
  }

  lemma NowDisabling(k: K, n: K, bs: seq<Branch>)
    requires Selected(k, n, bs) && k.alt[k.wptr].phase.Disabling? && InHand(n, n.wptr)
    ensures InAlt(n, Disabling)
  {}

  ghost function Guards(bs: seq<Branch>): multiset<Guard> {
    if bs == [] then multiset{} else multiset{bs[0].g} + Guards(bs[1..])
  }

  /** What is left to disable after the branches bs. */
  ghost function LeftAfter(bs: seq<Branch>, left: multiset<Guard>): multiset<Guard> {
    if bs == [] then left else LeftAfter(bs[1..], left - multiset{bs[0].g})
  }

  lemma {:induction false} AllGone(bs: seq<Branch>, left: multiset<Guard>)
    requires Guards(bs) == left
    ensures LeftAfter(bs, left) == multiset{}
  {
    if bs != [] {
      assert Guards(bs[1..]) == left - multiset{bs[0].g};
      AllGone(bs[1..], left - multiset{bs[0].g});
    }
  }

  lemma {:induction false} DisableAll(ks: seq<K>, bs: seq<Branch>)
    requires Disables(ks, bs) && Inv(ks[0]) && ks[0].wptr in ks[0].alt && ks[0].wptr != 0
    ensures Selected(ks[0], ks[|bs|], bs) && Inv(ks[|bs|])
  {
    hide Inv, Fires, DisableAllowed, DisableStep, DisabledTo, FirstReady, LeftAfter, Selected;
    var k := ks[0];
    if bs == [] {
      SelectedNone(k);
    } else {
      assert DisablesOne(ks[0], ks[1], bs[0]);
      DisableEffect(k, ks[1], bs[0]);
      forall i: nat | i < |bs[1..]| ensures DisablesOne(ks[1..][i], ks[1..][i + 1], bs[1..][i]) {
        assert DisablesOne(ks[i + 1], ks[i + 2], bs[i + 1]);
      }
      StillInAlt(k, ks[1], bs[0]);
      DisableAll(ks[1..], bs[1..]);
      OffsetOk(k, bs[0]);
      SelectedMore(k, ks[1], ks[|bs|], bs);
    }
  }

  lemma OffsetOk(k: K, b: Branch)
    requires DisableAllowed(k, b.g, b.process)
    ensures b.process != NONE_SELECTED
  {}

  lemma StillInAlt(k: K, n: K, b: Branch)
    requires DisabledTo(k, n, b)
    ensures n.wptr == k.wptr && n.wptr in n.alt
  {}

  /** n results from k by disabling the branches bs. */
  ghost predicate Selected(k: K, n: K, bs: seq<Branch>) {
    var p, i := k.wptr, FirstReady(k, bs);
    && n.wptr == p && n.ip == k.ip && p in k.alt && p in n.alt && n.alt[p].phase == k.alt[p].phase
    && n.alt[p].left == LeftAfter(bs, k.alt[p].left)
    && Rd(n.temp, p) == (if i < |bs| && Rd(k.temp, p) == NONE_SELECTED then bs[i].process else Rd(k.temp, p))
    && (forall c :: Rd(k.chan, c) != p + 1 ==> Rd(n.chan, c) == Rd(k.chan, c))
  }

  lemma SelectedNone(k: K)
    requires k.wptr in k.alt
    ensures Selected(k, k, [])
  {}

  lemma SelectedMore(k: K, m: K, n: K, bs: seq<Branch>)
    requires bs != [] && DisabledTo(k, m, bs[0]) && Selected(m, n, bs[1..]) && bs[0].process != NONE_SELECTED
    ensures Selected(k, n, bs)
  {
    hide Fires;
    SameFirst(k, m, bs[1..]);
    forall c | Rd(k.chan, c) != k.wptr + 1 ensures Rd(n.chan, c) == Rd(k.chan, c) { assert Rd(m.chan, c) == Rd(k.chan, c); }
  }

  lemma {:induction false} SameFirst(k: K, m: K, bs: seq<Branch>)
    requires m.wptr == k.wptr && forall g :: Fires(m, k.wptr, g) <==> Fires(k, k.wptr, g)
    ensures FirstReady(m, bs) == FirstReady(k, bs)
  {
    hide Fires;
    if bs != [] { SameFirst(k, m, bs[1..]); }
  }

  lemma {:induction false} FirstIs(k: K, bs: seq<Branch>)
    ensures var i := FirstReady(k, bs);
            && (i < |bs| ==> Fires(k, k.wptr, bs[i].g))
            && (forall j | 0 <= j < i :: !Fires(k, k.wptr, bs[j].g))
  {
    hide Fires;
    if bs != [] && !Fires(k, k.wptr, bs[0].g) {
      FirstIs(k, bs[1..]);
      forall j | 0 <= j < FirstReady(k, bs) ensures !Fires(k, k.wptr, bs[j].g) {
        if j > 0 { assert bs[j] == bs[1..][j - 1]; }
      }
    }
  }

  // ---------------------------------------------------------------- timed ALT

  /** WS_TIME is one of the enabled timeouts, and none of them is before it. */
  ghost predicate Earliest(k: K) {
    && k.wptr in k.alt && TimerGuard(Rd(k.time, k.wptr) % W) in k.alt[k.wptr].left
    && forall t: Word | TimerGuard(t) in k.alt[k.wptr].left :: !After(Rd(k.time, k.wptr), t)
  }

  /** All timeouts of the ALT lie in the half range from base. */
  ghost predicate TimeoutsWithin(left: multiset<Guard>, base: int) {
    forall t: Word | TimerGuard(t) in left :: Within(base, t)
  }

  /** When the timer wakes an ALT, exactly the timeouts that are not after the clock will be
      found fired, the one it waited for among them, and the process is queued to run, once. */
  lemma TimerWakes(k: K, now: Word)
    requires Core(k) && k.timerq != [] && !After(Rd(k.time, k.timerq[0]), now) && Sub(Rd(k.time, k.timerq[0]), now) != MIN_INT
    requires k.timerq[0] in k.alt && k.alt[k.timerq[0]].phase.Waiting?
    ensures var p, n := k.timerq[0], Fire(k, now); var g := TimerGuard(Sub(Rd(k.time, p), 1));
            && p in n.alt && n.alt[p].phase.Disabling? && g in n.alt[p].left && Fires(n, p, g)
            && (forall t: Word :: Fires(n, p, TimerGuard(t)) <==> !After(t, now))
            && n.runq == k.runq + [p] && p !in k.runq && p !in n.timerq
  {
    hide RunOk, WaitOk, ObjectsOk, ChanOk, Ids, After, SomeReady, SomeFires, AllMarked, NoTimers, Behind, NoDup, Sorted, TimerLinked;
    var p := k.timerq[0];
    AltOf(k, p);
    assert p in k.timerq;
    HeadLeaves(k);
    NotInRunq(k, p);
    TimeoutPassed(Rd(k.time, p), now);
  }

  lemma HeadLeaves(k: K)
    requires TimerOk(k) && k.timerq != []
    ensures k.timerq[0] !in k.timerq[1..]
  {
    hide After, Sorted, TimerLinked, TimerMember;
  }

  lemma NotInRunq(k: K, p: int)
    requires Core(k) && p in k.place && !k.place[p].Queued?
    ensures p !in k.runq
  {
    hide WaitOk, ObjectsOk, ChanOk, AltsOk, TimerOk, Ids, Listed;
  }

  /** Enabling timeouts keeps the earliest in WS_TIME. */
  lemma EarliestKept(k: K, t: Word, base: int)
    requires Inv(k) && EnableAllowed(k, TimerGuard(t))
    requires Rd(k.tlink, k.wptr) == TIME_SET ==> Earliest(k)
    requires TimeoutsWithin(k.alt[k.wptr].left, base) && Within(base, t)
    ensures Earliest(EnableTimer(k, t)) && Rd(EnableTimer(k, t).tlink, k.wptr) == TIME_SET
  {
    hide RunOk, WaitOk, ObjectsOk, ChanOk, TimerOk, After, Within, SomeReady, AllMarked, Ids;
    var n, p := EnableTimer(k, t), k.wptr;
    var left := k.alt[p].left;
    AltOf(k, p);
    UntimedLeft(k);
    hide AltsOk;
    assert forall g :: g in n.alt[p].left <==> g == TimerGuard(t) || g in left;
    NotAfterItself(t);
    forall u: Word | TimerGuard(u) in n.alt[p].left ensures !After(Rd(n.time, p), u) {
      if TimerGuard(u) in left {
        assert Within(base, u) && Within(base, t);
        WindowOrder(base, t, u);
        if Rd(k.tlink, p) == TIME_SET {
          assert !After(Rd(k.time, p), u) && Within(base, Rd(k.time, p) % W);
          WindowOrder(base, Rd(k.time, p), u);
          WindowOrder(base, Rd(k.time, p), t);
        }
      }
    }
  }

  /** The current process enables guards one after the other; enable instructions do not let
      anybody else run. */
  ghost predicate Enables(ks: seq<K>, gs: seq<Guard>) {
    && |ks| == |gs| + 1
    && forall i: nat {:trigger gs[i]} | i < |gs| :: EnablesOne(ks[i], ks[i + 1], gs[i])
  }

  ghost predicate EnablesOne(k: K, n: K, g: Guard) { EnableAllowed(k, g) && EnableStep(k, n, g) }

  /** t is a timeout among the guards, and none of them is before it. */
  ghost predicate Soonest(gs: seq<Guard>, t: Word) {
    TimerGuard(t) in gs && forall u: Word | TimerGuard(u) in gs :: !After(t, u)
  }

  ghost predicate SomeTimeout(gs: seq<Guard>) { exists t: Word :: TimerGuard(t) in gs }

  /** A timed ALT, whatever guards it enables in whatever order: when it comes to wait, TLINK
      says whether there is a timeout, WS_TIME is the earliest of all, and a process that
      goes to sleep does so until one past the earliest, when the clock makes it due. */
  lemma EarliestTimeout(k: K, ks: seq<K>, gs: seq<Guard>, base: int)
    requires Inv(k) && AltStartAllowed(k) && Enables(ks, gs) && ks[0] == StartAlt(k, true)
    requires forall t: Word | TimerGuard(t) in gs :: Within(base, t)
    ensures var n, p := ks[|gs|], k.wptr;
            && Inv(n) && n.wptr == p && p in n.alt && n.alt[p].left == multiset(gs)
            && (Rd(n.tlink, p) == TIME_SET <==> SomeTimeout(gs)) && (Rd(n.tlink, p) == TIME_NOT_SET <==> !SomeTimeout(gs))
            && (SomeTimeout(gs) ==>
                  exists t: Word ::
                    && Soonest(gs, t) && Rd(n.time, p) == t
                    && p in SleepTimed(n).timerq && Rd(SleepTimed(n).time, p) == Add(t, 1)
                    && forall now: Word :: p in DueBy(SleepTimed(n), now) <==> !After(Add(t, 1), now))
  {
    hide Inv, Core, After, Within, StartAlt, SleepTimed, Earliest, EnablesOne, DueBy, Soonest;
    AltStartKeeps(k, ks[0], true);
    AltBegun(k);
    EnabledUpTo(ks, gs, base, |gs|);
    assert gs[..|gs|] == gs;
    var n := ks[|gs|];
    TimedState(n);
    TimeoutIn(n, gs);
    if Rd(n.tlink, n.wptr) == TIME_SET {
      var t := Rd(n.time, n.wptr);
      SoonestIs(n, gs, t);
      SleepsUntil(n, t);
    }
  }

  lemma AltBegun(k: K)
    ensures var n := StartAlt(k, true);
            && n.wptr == k.wptr && k.wptr in n.alt && n.alt[k.wptr] == Alt(true, Enabling, multiset{})
            && Rd(n.tlink, k.wptr) == TIME_NOT_SET
  {}

  /** What holds while a timed ALT enables its guards. */
  ghost predicate EnabledSo(k: K, left: multiset<Guard>, base: int) {
    && k.wptr in k.alt && k.alt[k.wptr].timed && k.alt[k.wptr].phase.Enabling? && k.alt[k.wptr].left == left
    && TimeoutsWithin(left, base) && (Rd(k.tlink, k.wptr) == TIME_SET ==> Earliest(k))
  }

  lemma {:induction false} EnabledUpTo(ks: seq<K>, gs: seq<Guard>, base: int, i: nat)
    requires Enables(ks, gs) && i <= |gs| && Inv(ks[0]) && EnabledSo(ks[0], multiset{}, base)
    requires forall t: Word | TimerGuard(t) in gs :: Within(base, t)
    ensures Inv(ks[i]) && ks[i].wptr == ks[0].wptr && EnabledSo(ks[i], multiset(gs[..i]), base)
  {
    hide Inv, EnabledSo, EnableAllowed, EnableStep, Within;
    if i == 0 {
      assert multiset(gs[..0]) == multiset{};
    } else {
      EnabledUpTo(ks, gs, base, i - 1);
      assert EnablesOne(ks[i - 1], ks[i], gs[i - 1]) && gs[i - 1] in gs;
      EnabledOne(ks[i - 1], ks[i], gs[i - 1], multiset(gs[..i - 1]), base);
      assert gs[..i] == gs[..i - 1] + [gs[i - 1]];
    }
  }

  lemma EnabledOne(k: K, n: K, g: Guard, left: multiset<Guard>, base: int)
    requires Inv(k) && EnablesOne(k, n, g) && EnabledSo(k, left, base) && (g.TimerGuard? ==> Within(base, g.t))
    ensures Inv(n) && n.wptr == k.wptr && EnabledSo(n, left + multiset{g}, base)
  {
    hide Inv, After, Within, EnableChan, EnableSkip, EnableTimer;
    EnableKeeps(k, n, g);
    match g
    case ChanGuard(c) => EnableSame(k, n, g);
    case SkipGuard => EnableSame(k, n, g);
    case TimerGuard(t) =>
      EarliestKept(k, t, base);
      EnableTimerIs(k, t);
  }

  lemma EnableTimerIs(k: K, t: Word)
    requires k.wptr in k.alt
    ensures var n := EnableTimer(k, t);
            n.wptr == k.wptr && n.alt == k.alt[k.wptr := k.alt[k.wptr].(left := k.alt[k.wptr].left + multiset{TimerGuard(t)})]
  {
    hide After;
  }

  /** Other guards do not touch the timeouts. */
  lemma EnableSame(k: K, n: K, g: Guard)
    requires k.wptr in k.alt && EnableStep(k, n, g) && !g.TimerGuard?
    ensures n.wptr == k.wptr && n.time == k.time && n.tlink == k.tlink
    ensures n.alt == k.alt[k.wptr := k.alt[k.wptr].(left := k.alt[k.wptr].left + multiset{g})]
  {}

  /** TLINK tells whether a timeout has been enabled. */
  lemma TimedState(k: K)
    requires Inv(k) && k.wptr in k.alt && k.alt[k.wptr].timed && k.alt[k.wptr].phase.Enabling?
    ensures Rd(k.tlink, k.wptr) == TIME_SET || Rd(k.tlink, k.wptr) == TIME_NOT_SET
    ensures Rd(k.tlink, k.wptr) == TIME_NOT_SET ==> NoTimers(k.alt[k.wptr].left)
    ensures Rd(k.tlink, k.wptr) == TIME_SET ==> 0 <= Rd(k.time, k.wptr) < W && TimerGuard(Rd(k.time, k.wptr)) in k.alt[k.wptr].left
  {
    hide RunOk, WaitOk, ObjectsOk, TimerOk, ChanOk, After, SomeReady, AllMarked, NoTimers;
    AltOf(k, k.wptr);
  }

  lemma TimeoutIn(k: K, gs: seq<Guard>)
    requires k.wptr in k.alt && k.alt[k.wptr].left == multiset(gs)
    requires Rd(k.tlink, k.wptr) == TIME_SET || (Rd(k.tlink, k.wptr) == TIME_NOT_SET && NoTimers(k.alt[k.wptr].left))
    requires Rd(k.tlink, k.wptr) == TIME_SET ==> 0 <= Rd(k.time, k.wptr) < W && TimerGuard(Rd(k.time, k.wptr)) in k.alt[k.wptr].left
    ensures Rd(k.tlink, k.wptr) == TIME_SET <==> SomeTimeout(gs)
  {
    assert forall g :: g in gs <==> g in k.alt[k.wptr].left;
  }

  lemma SoonestIs(k: K, gs: seq<Guard>, t: Word)
    requires k.wptr in k.alt && k.alt[k.wptr].left == multiset(gs) && Earliest(k) && Rd(k.time, k.wptr) == t
    ensures Soonest(gs, t)
  {
    hide After;
    assert t % W == t;
  }

  lemma SleepsUntil(k: K, t: Word)
    requires k.wptr in k.alt && Rd(k.time, k.wptr) == t
    ensures var n := SleepTimed(k);
            && k.wptr in n.timerq && Rd(n.time, k.wptr) == Add(t, 1)
            && forall now: Word :: k.wptr in DueBy(n, now) <==> !After(Add(t, 1), now)
  {
    hide SleepTimed, After, Slot, InsertAt, TimerLinkIn;
    SleepTimedSlots(k);
    InsertMembers(k.timerq, Slot(SleepTimed(k).time, k.timerq, Add(t, 1)), k.wptr);
  }

  /** A timed ALT with a guard ready, or its earliest timeout in the past, goes on at once, and
      will find fired exactly the timeouts that are not after the time it read, if it has any. */
  lemma TimedGoesOn(k: K, n: K, o: Outcome, now: Word, later: Word)
    requires k.wptr in k.alt && TimedWaitStep(k, n, o, now, later)
    requires Rd(k.ptr, k.wptr) == READY || (Rd(k.tlink, k.wptr) == TIME_SET && After(now, Rd(k.time, k.wptr)))
    ensures o == Continue && n.wptr == k.wptr
    ensures forall t: Word :: Fires(n, k.wptr, TimerGuard(t)) <==> Rd(k.tlink, k.wptr) == TIME_SET && !After(t, now)
  {
    hide After, RunsNext, NextPhase, SleepAlt, SleepTimed;
  }

  lemma NotAfterItself(t: int)
    ensures !After(t, t)
  {}
}
