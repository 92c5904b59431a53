/** The occam process kernel: workspace slots, channel words and scheduler registers, with
    what they represent and when they are consistent (runtime/libtvm/transputer.h,
    scheduler.c). Addresses of workspaces are non-zero multiples of four. */
module KernelState {
  import opened Words

  /** A slot or word that has not been written holds zero, the null process. */
  type Slots = Mem

  const ENABLING: int := MIN_INT + 1
  const WAITING: int := MIN_INT + 2
  const READY: int := MIN_INT + 3
  const TIME_SET: int := MIN_INT + 1
  const TIME_NOT_SET: int := MIN_INT + 2
  const NONE_SELECTED: int := -1

  /** TIME_AFTER: the modular time order. */
  predicate After(a: int, b: int) { Signed(Sub(a, b)) > 0 }

  datatype Guard = ChanGuard(c: int) | SkipGuard | TimerGuard(t: Word)
  datatype Phase = Enabling | Waiting | Disabling

  /** An ALT in progress: its guards enabled and not yet disabled. */
  datatype Alt = Alt(timed: bool, phase: Phase, left: multiset<Guard>)

  /** Where a process is. */
  datatype Place =
    | Running
    | Queued
    | Blocked(c: int, out: bool, buf: int, len: nat)
    | ExtWait(c: int)
    | AltWait
    | TimerWait
    | InQueue(x: int)
    | Dormant

  type Places = map<int, Place>
  type Alts = map<int, Alt>
  type Queues = map<int, seq<int>>

  datatype Semaphore = Semaphore(fptr: int, bptr: int)
  datatype Barrier = Barrier(enrolled: Word, count: Word, fptr: int, bptr: int)
  datatype Par = Par(resume: int, count: Word)

  /** The kernel state. Slot LINK is also PENDING, and slot ptr is the buffer address and STATE, as in
      the C workspace layout; the last six fields say what the words represent. */
  datatype K = K(
    temp: Slots, iptr: Slots, link: Slots, ptr: Slots, tlink: Slots, time: Slots,
    chan: Slots, data: Slots, sem: map<int, Semaphore>, bar: map<int, Barrier>, par: map<int, Par>,
    fptr: int, bptr: int, tptr: int, tnext: int, wptr: int, ip: int, tq: bool, intr: bool,
    runq: seq<int>, timerq: seq<int>, place: Places, alt: Alts, waitq: Queues, holder: map<int, int>)

  // ---------------------------------------------------------------- queues

  ghost predicate NoDup(q: seq<int>) { forall i: nat, j: nat | i < j < |q| :: q[i] != q[j] }

  ghost predicate Linked(link: Slots, q: seq<int>) {
    forall i: nat {:trigger LinkAt(link, q, i)} | i + 1 < |q| :: LinkAt(link, q, i)
  }

  ghost predicate LinkAt(link: Slots, q: seq<int>, i: nat)
    requires i + 1 < |q|
  {
    Rd(link, q[i]) == q[i + 1]
  }

  function Head(q: seq<int>): int { if q == [] then 0 else q[0] }

  /** fptr and bptr delimit the list q, linked through the LINK slots. */
  ghost predicate Listed(link: Slots, fptr: int, bptr: int, q: seq<int>) {
    NoDup(q) && Linked(link, q) && fptr == Head(q) && (q != [] ==> bptr == q[|q| - 1])
  }

  ghost predicate Members(place: Places, q: seq<int>, w: Place) {
    forall p {:trigger p in q} {:trigger place[p]} :: p in q <==> p in place && place[p] == w
  }

  ghost predicate Ids(place: Places) { forall p | p in place :: p > 0 && p % 4 == 0 }

  /** The run queue holds exactly the queued processes. */
  ghost predicate RunOk(link: Slots, place: Places, fptr: int, bptr: int, runq: seq<int>) {
    Listed(link, fptr, bptr, runq) && Members(place, runq, Queued)
  }

  /** Every semaphore and barrier queue holds exactly the processes waiting there, linked in
      order of arrival. */
  ghost predicate WaitOk(link: Slots, place: Places, waitq: Queues) {
    && (forall x | x in waitq :: NoDup(waitq[x]) && Linked(link, waitq[x]) && Members(place, waitq[x], InQueue(x)))
    && (forall p | p in place && place[p].InQueue? :: place[p].x in waitq)
  }

  // ---------------------------------------------------------------- channels

  /** p holds an ALTing mark in channel c. */
  ghost predicate Alting(place: Places, alt: Alts, p: int, c: int) {
    && p in place
    && ((p in alt && ChanGuard(c) in alt[p].left) || place[p] == ExtWait(c))
  }

  /** The PENDING word: negative for an outputter. */
  function Pending(b: Place): int
    requires b.Blocked?
  {
    if b.out then 0 - b.len else b.len
  }

  ghost predicate Parked(place: Places, ptr: Slots, link: Slots, p: int, c: int) {
    && p in place && place[p].Blocked? && place[p].c == c && Rd(ptr, p) == place[p].buf
    && Rd(link, p) == Pending(place[p])
  }

  /** A channel word is empty, disconnected, the process blocked on it, or an ALTing process. */
  ghost predicate ChanAt(chan: Slots, place: Places, ptr: Slots, link: Slots, alt: Alts, c: int) {
    var v := Rd(chan, c);
    v == 0 || v == 1 || Parked(place, ptr, link, v, c) || Alting(place, alt, v - 1, c)
  }

  /** A process parked on a channel is in that channel's word. */
  ghost predicate HeldAt(chan: Slots, place: Places, ptr: Slots, p: int) {
    && (p in place && place[p].Blocked? ==> Rd(chan, place[p].c) == p)
    && (p in place && place[p].ExtWait? ==> Rd(chan, place[p].c) == p + 1 && Rd(ptr, p) == WAITING)
  }

  ghost predicate ChanOk(chan: Slots, place: Places, ptr: Slots, link: Slots, alt: Alts) {
    && (forall c {:trigger ChanAt(chan, place, ptr, link, alt, c)} :: ChanAt(chan, place, ptr, link, alt, c))
    && (forall p {:trigger HeldAt(chan, place, ptr, p)} :: HeldAt(chan, place, ptr, p))
  }

  // ---------------------------------------------------------------- alternatives

  /** A guard whose disable instruction would find it fired. */
  ghost predicate Fires(k: K, p: int, g: Guard) {
    match g
    case ChanGuard(c) => Rd(k.chan, c) != 0 && Rd(k.chan, c) != p + 1
    case SkipGuard => true
    case TimerGuard(t) => Rd(k.tlink, p) == TIME_SET && !After(t, Rd(k.time, p))
  }

  /** A remaining guard other than a timeout fires. */
  ghost predicate SomeReady(k: K, p: int, left: multiset<Guard>) {
    exists g :: g in left && !g.TimerGuard? && Fires(k, p, g)
  }

  ghost predicate SomeFires(k: K, p: int, left: multiset<Guard>) { exists g :: g in left && Fires(k, p, g) }

  ghost predicate NoTimers(left: multiset<Guard>) { forall g | g in left :: !g.TimerGuard? }

  /** No remaining guard is ready: every channel holds the ALTing mark and there is no skip. */
  ghost predicate AllMarked(k: K, p: int, left: multiset<Guard>) {
    forall g | g in left :: !g.SkipGuard? && (g.ChanGuard? ==> Rd(k.chan, g.c) == p + 1)
  }

  ghost predicate EnablingOk(k: K, p: int, a: Alt)
    requires p in k.place
  {
    && (k.place[p].Running? || k.place[p].Queued?) && p !in k.timerq
    && ((Rd(k.ptr, p) == ENABLING && AllMarked(k, p, a.left)) || (Rd(k.ptr, p) == READY && SomeReady(k, p, a.left)))
    && (if a.timed
        then (Rd(k.tlink, p) == TIME_NOT_SET && NoTimers(a.left))
             || (Rd(k.tlink, p) == TIME_SET && 0 <= Rd(k.time, p) < W && TimerGuard(Rd(k.time, p)) in a.left)
        else NoTimers(a.left))
  }

  ghost predicate WaitingOk(k: K, p: int, a: Alt)
    requires p in k.place
  {
    && k.place[p].AltWait? && Rd(k.ptr, p) == WAITING && AllMarked(k, p, a.left)
    && (if p in k.timerq
        then a.timed && 0 <= Rd(k.time, p) < W && TimerGuard(Sub(Rd(k.time, p), 1)) in a.left
        else NoTimers(a.left) && (a.timed ==> Rd(k.tlink, p) == TIME_NOT_SET))
  }

  ghost predicate DisablingOk(k: K, p: int, a: Alt)
    requires p in k.place
  {
    && (k.place[p].Running? || k.place[p].Queued?) && Rd(k.ptr, p) == READY
    && (Rd(k.temp, p) == NONE_SELECTED ==> SomeFires(k, p, a.left))
    && (p in k.timerq ==> a.timed && !NoTimers(a.left))
    && (p !in k.timerq && a.timed ==> Rd(k.tlink, p) == TIME_SET || Rd(k.tlink, p) == TIME_NOT_SET)
    && (!a.timed ==> NoTimers(a.left))
  }

  /** The ALT of p, in whatever phase, has lost no wakeup; only its remaining channels carry
      its mark. */
  ghost predicate AltAt(k: K, p: int) {
    && p in k.place && p in k.alt
    && (match k.alt[p].phase
        case Enabling => EnablingOk(k, p, k.alt[p])
        case Waiting => WaitingOk(k, p, k.alt[p])
        case Disabling => DisablingOk(k, p, k.alt[p]))
  }

  ghost predicate AltsOk(k: K) {
    && (forall p | p in k.alt :: AltAt(k, p))
    && (forall p | p in k.place && k.place[p].AltWait? :: p in k.alt && k.alt[p].phase.Waiting?)
  }

  // ---------------------------------------------------------------- timers

  /** Earlier entries are not due after later ones. */
  ghost predicate Sorted(time: Slots, q: seq<int>) {
    forall i: nat, j: nat | i < j < |q| :: !After(Rd(time, q[i]), Rd(time, q[j]))
  }

  ghost predicate TimerMember(place: Places, alt: Alts, p: int) {
    && p in place
    && (place[p].TimerWait? || (p in alt && alt[p].timed && (alt[p].phase.Waiting? || alt[p].phase.Disabling?)))
  }

  /** The timer queue is linked through TLINK in due order; TNEXT is the head's deadline. */
  ghost predicate TimerOk(k: K) {
    var q := k.timerq;
    && NoDup(q) && k.tptr == Head(q) && Sorted(k.time, q) && TimerLinked(k.tlink, q)
    && (q != [] ==> k.tq && k.tnext == Rd(k.time, q[0]))
    && (forall p | p in q :: TimerMember(k.place, k.alt, p))
    && (forall p | p in k.place && k.place[p].TimerWait? :: p in q && Rd(k.ptr, p) == 0)
  }

  ghost predicate TimerLinked(tlink: Slots, q: seq<int>) {
    forall i: nat {:trigger TimerLinkAt(tlink, q, i)} | i < |q| :: TimerLinkAt(tlink, q, i)
  }

  ghost predicate TimerLinkAt(tlink: Slots, q: seq<int>, i: nat)
    requires i < |q|
  {
    Rd(tlink, q[i]) == if i + 1 < |q| then q[i + 1] else 0
  }

  // ---------------------------------------------------------------- semaphores and barriers

  /** Free: the front pointer is the not-process mark 1. Held: it heads the queue of waiters. */
  ghost predicate SemAt(link: Slots, s: Semaphore, q: seq<int>, h: int) {
    && (h == 0 ==> s.fptr == 1 && q == [])
    && (h != 0 ==> s.fptr == Head(q) && (q != [] ==> s.bptr == q[|q| - 1] && Rd(link, q[|q| - 1]) == 0))
  }

  /** count is the number still to come; the last waiter links back to the one before it. */
  ghost predicate BarAt(link: Slots, b: Barrier, q: seq<int>) {
    && b.enrolled == b.count + |q| && (q != [] ==> b.count >= 1)
    && b.fptr == Head(q) && (if q == [] then b.bptr == 0 else b.bptr == q[|q| - 1])
    && (q != [] ==> Rd(link, q[|q| - 1]) == if |q| == 1 then 0 else q[|q| - 2])
  }

  ghost predicate ObjectsOk(link: Slots, sem: map<int, Semaphore>, bar: map<int, Barrier>, waitq: Queues, holder: map<int, int>) {
    && sem.Keys !! bar.Keys && sem.Keys + bar.Keys == waitq.Keys && sem.Keys == holder.Keys
    && (forall x | x in sem :: x in waitq && x in holder && SemAt(link, sem[x], waitq[x], holder[x]))
    && (forall x | x in bar :: x in waitq && BarAt(link, bar[x], waitq[x]))
  }

  // ---------------------------------------------------------------- the whole state

  ghost predicate Core(k: K) {
    && Ids(k.place)
    && RunOk(k.link, k.place, k.fptr, k.bptr, k.runq)
    && WaitOk(k.link, k.place, k.waitq)
    && ObjectsOk(k.link, k.sem, k.bar, k.waitq, k.holder)
    && ChanOk(k.chan, k.place, k.ptr, k.link, k.alt)
    && AltsOk(k) && TimerOk(k)
  }

  /** The processes in the hands of the processor. */
  ghost predicate Hand(place: Places, s: set<int>) {
    forall p :: p in s <==> p in place && place[p].Running?
  }

  /** Between instructions only the current process is running. */
  ghost predicate Inv(k: K) { Core(k) && Hand(k.place, if k.wptr == 0 then {} else {k.wptr}) }
}
