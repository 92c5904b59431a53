/** Whole runs of the kernel: every state reached from a consistent one by instructions used
    as occam uses them is consistent, and processes only leave a place by the step meant to
    take them out of it. */
module KernelRun {
  import opened Words
  import opened KernelState
  import opened KernelFrames
  import opened KernelQueues
  import opened KernelTimers
  import opened KernelChannels
  import opened KernelAlts
  import opened KernelObjects
  import opened KernelProcs
  import opened KernelMachine

  datatype Ins =
    | Io(c: int, out: bool, buf: int, len: nat)
    | AltStart(timed: bool)
    | Enable(g: Guard)
    | AltWait
    | TimedAltWait
    | Disable(g: Guard, process: int)
    | AltEnd
    | Tin(t: Word)
    | SemInit(x: int)
    | SemClaim(x: int)
    | SemRelease(x: int)
    | BarInit(x: int, n: Word)
    | BarSync(x: int)
    | BarEnroll(x: int, n: Word)
    | BarResign(x: int, n: Word)
    | StartP(w: int, entry: int)
    | RunP(w: int)
    | ParStart(w: int, count: Word, resume: int)
    | EndP(w: int)
    | StopP
    | Reschedule
    | XAble(c: int)
    | XIn(c: int, buf: int, len: nat)
    | XEnd(c: int)
    | Resume

  /** An instruction, the time it reads and the time at which the scheduler walks the timers. */
  datatype Event = Event(ins: Ins, now: Word, later: Word)

  /** How occam programs use the instructions. */
  ghost predicate Allowed(k: K, e: Event) {
    match e.ins
    case Io(c, out, buf, len) => IoAllowed(k, c, out, buf, len, e.later)
    case AltStart(timed) => AltStartAllowed(k)
    case Enable(g) => EnableAllowed(k, g)
    case AltWait => WaitAllowed(k, e.later)
    case TimedAltWait => TimedWaitAllowed(k, e.now, e.later)
    case Disable(g, process) => DisableAllowed(k, g, process)
    case AltEnd => k.wptr != 0 && InAlt(k, Disabling) && k.alt[k.wptr].left == multiset{}
    case Tin(t) => TinAllowed(k, t, e.now, e.later)
    case SemInit(x) => InitAllowed(k, x)
    case SemClaim(x) => ClaimAllowed(k, x, e.later)
    case SemRelease(x) => ReleaseAllowed(k, x)
    case BarInit(x, n) => InitAllowed(k, x)
    case BarSync(x) => SyncAllowed(k, x, e.later)
    case BarEnroll(x, n) => k.wptr != 0 && x in k.bar
    case BarResign(x, n) => k.wptr != 0 && x in k.bar && x in k.waitq
    case StartP(w, entry) => StartAllowed(k, w)
    case RunP(w) => StartAllowed(k, w)
    case ParStart(w, count, resume) => k.wptr != 0
    case EndP(w) => EndAllowed(k, w, e.later)
    case StopP => YieldAllowed(k, e.later)
    case Reschedule => k.wptr != 0 && OnTime(k, e.later)
    case XAble(c) => YieldAllowed(k, e.later)
    case XIn(c, buf, len) => ExtendedInAllowed(k, c, buf, len, e.later)
    case XEnd(c) => ExtendedEndAllowed(k, c)
    case Resume => k.wptr == 0 && OnTime(k, e.later)
  }

  /** What an instruction makes of the kernel. */
  ghost predicate Step(k: K, e: Event, n: K, o: Outcome)
    requires Allowed(k, e)
  {
    match e.ins
    case Io(c, out, buf, len) => IoStep(k, n, o, c, out, buf, len, e.later)
    case AltStart(timed) => o == Continue && n == StartAlt(k, timed)
    case Enable(g) => o == Continue && EnableStep(k, n, g)
    case AltWait => WaitStep(k, n, o, e.later)
    case TimedAltWait => TimedWaitStep(k, n, o, e.now, e.later)
    case Disable(g, process) => o == Continue && DisableStep(k, n, g, process)
    case AltEnd => AltEndStep(k, n, o)
    case Tin(t) => TinStep(k, n, o, t, e.now, e.later)
    case SemInit(x) => o == Continue && n == NewSem(k, x)
    case SemClaim(x) => ClaimStep(k, n, o, x, e.later)
    case SemRelease(x) => o == Continue && ReleaseStep(k, n, x)
    case BarInit(x, m) => o == Continue && n == NewBar(k, x, m)
    case BarSync(x) => SyncStep(k, n, o, x, e.later)
    case BarEnroll(x, m) => EnrolStep(k, n, o, x, m)
    case BarResign(x, m) => ResignStep(k, n, o, x, m)
    case StartP(w, entry) => o == Continue && n == Started(k, w, k.iptr[w := entry])
    case RunP(w) => o == Continue && n == Started(k, w, k.iptr)
    case ParStart(w, count, resume) => o == Continue && n == ParStarted(k, w, count, resume)
    case EndP(w) => EndStep(k, n, o, w, e.later)
    case StopP => RunsNext(Stopped(k), n, o, e.later)
    case Reschedule => RunsNext(Requeue(k), n, o, e.later)
    case XAble(c) => ExtendedStep(k, n, o, c, e.later)
    case XIn(c, buf, len) => ExtendedInStep(k, n, o, c, buf, len, e.later)
    case XEnd(c) => o == Continue && ExtendedEndStep(k, n, c)
    case Resume => RunsNext(k, n, o, e.later)
  }

  /** Every step keeps the kernel consistent; only barrier misuse is reported as an error;
      the processor idles only when nothing can run. */
  lemma StepKeeps(k: K, e: Event, n: K, o: Outcome)
    requires Inv(k) && Allowed(k, e) && Step(k, e, n, o)
    ensures Inv(n) && Idle(n, o)
    ensures o == Error ==> (e.ins.BarEnroll? || e.ins.BarResign?) && n == k
  {
    hide Inv, IoAllowed, AltStartAllowed, EnableAllowed, WaitAllowed, TimedWaitAllowed, DisableAllowed, TinAllowed,
         InitAllowed, ClaimAllowed, ReleaseAllowed, SyncAllowed, StartAllowed, EndAllowed, YieldAllowed,
         ExtendedInAllowed, ExtendedEndAllowed, IoStep, EnableStep, WaitStep, TimedWaitStep, DisableStep, TinStep,
         ClaimStep, ReleaseStep, SyncStep, EndStep, RunsNext, ExtendedStep, ExtendedInStep, ExtendedEndStep, AltEndStep,
         NewSem, NewBar, StartAlt, Started, Stopped, Requeue, OnTime, Enrol, Resign, Complete, InAlt, ParStarted;
    match e.ins
    case Io(c, out, buf, len) => IoKeeps(k, n, o, c, out, buf, len, e.later);
    case AltStart(timed) => AltStartKeeps(k, n, timed);
    case Enable(g) => EnableKeeps(k, n, g);
    case AltWait => WaitKeeps(k, n, o, e.later);
    case TimedAltWait => TimedWaitKeeps(k, n, o, e.now, e.later);
    case Disable(g, process) => DisableKeeps(k, n, g, process);
    case AltEnd => AltEndKeeps(k, n, o);
    case Tin(t) => TinKeeps(k, n, o, t, e.now, e.later);
    case SemInit(x) => SemInitKeeps(k, n, x);
    case SemClaim(x) => ClaimKeeps(k, n, o, x, e.later);
    case SemRelease(x) => ReleaseKeeps(k, n, x);
    case BarInit(x, m) => BarInitKeeps(k, n, x, m);
    case BarSync(x) => SyncKeeps(k, n, o, x, e.later);
    case BarEnroll(x, m) => EnrolKeeps(k, n, o, x, m);
    case BarResign(x, m) => ResignKeeps(k, n, o, x, m);
    case StartP(w, entry) => StartKeeps(k, n, w, k.iptr[w := entry]);
    case RunP(w) => StartKeeps(k, n, w, k.iptr);
    case ParStart(w, count, resume) => ParKeeps(k, n, w, count, resume);
    case EndP(w) => EndKeeps(k, n, o, w, e.later);
    case StopP => StopKeeps(k, n, o, e.later);
    case Reschedule => RescheduleKeeps(k, n, o, e.later);
    case XAble(c) => ExtendedKeeps(k, n, o, c, e.later);
    case XIn(c, buf, len) => ExtendedInKeeps(k, n, o, c, buf, len, e.later);
    case XEnd(c) => ExtendedEndKeeps(k, n, c);
    case Resume => ResumeKeeps(k, n, o, e.later);
  }

  /** A run: each state follows from the one before by an allowed instruction. */
  ghost predicate Run(states: seq<K>, events: seq<Event>) {
    && |states| == |events| + 1
    && forall i: nat {:trigger events[i]} | i < |events| :: Follows(states[i], events[i], states[i + 1])
  }

  ghost predicate Follows(k: K, e: Event, n: K) { Allowed(k, e) && exists o :: Step(k, e, n, o) }

  /** Consistency holds in every state of every run. */
  lemma {:induction false} RunKeeps(states: seq<K>, events: seq<Event>, i: nat)
    requires Run(states, events) && i < |states| && Inv(states[0])
    ensures Inv(states[i])
  {
    hide Inv, Allowed, Step;
    if i > 0 {
      RunKeeps(states, events, i - 1);
      assert Follows(states[i - 1], events[i - 1], states[i]);
      var o :| Step(states[i - 1], events[i - 1], states[i], o);
      StepKeeps(states[i - 1], events[i - 1], states[i], o);
    }
  }

  // ---------------------------------------------------------------- the initial state

  /** One process runs, the others are dormant; every channel is empty. */
  function Boot(procs: set<int>, first: int, entry: int): K {
    K(map[], map[], map[], map[], map[], map[], map[], map[], map[], map[], map[],
      0, 0, 0, 0, first, entry, false, false,
      [], [], map p | p in procs :: if p == first then Running else Dormant, map[], map[], map[])
  }

  lemma BootInv(procs: set<int>, first: int, entry: int)
    requires first in procs && forall p | p in procs :: p > 0 && p % 4 == 0
    ensures Inv(Boot(procs, first, entry))
  {
    var k := Boot(procs, first, entry);
    assert Core(k) by {
      forall c ensures ChanAt(k.chan, k.place, k.ptr, k.link, k.alt, c) {}
      forall p ensures HeldAt(k.chan, k.place, k.ptr, p) {}
    }
  }
}
