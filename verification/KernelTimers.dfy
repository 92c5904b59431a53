/** The timer queue (runtime/libtvm/scheduler.c:175-342, tvm_time.h). */
module KernelTimers {
  import opened Words
  import opened KernelState
  import opened KernelFrames
  import opened KernelQueues

  // ---------------------------------------------------------------- the modular time order

  /** t lies in the half of the time range that begins at base. */
  predicate Within(base: int, t: int) { Sub(t, base) < MIN_INT }

  /** Inside a half-range window TIME_AFTER is the order of distances from its base. */
  lemma WindowOrder(base: int, a: int, b: int)
    requires Within(base, a) && Within(base, b)
    ensures After(a, b) <==> Sub(a, base) > Sub(b, base)
  {
    var x: int, y: int := Sub(a, base), Sub(b, base);
    assert (a - b - (x - y)) % W == 0 by { ModDifference(a, b, base); }
    ModIs(a - b, x - y);
  }

  lemma ModDifference(a: int, b: int, base: int)
    ensures (a - b - (Sub(a, base) - Sub(b, base))) % W == 0
  {
    var m, n := (a - base) / W, (b - base) / W;
    assert a - base == W * m + Sub(a, base) && b - base == W * n + Sub(b, base);
    assert a - b - (Sub(a, base) - Sub(b, base)) == W * (m - n);
  }

  lemma ModIs(d: int, e: int)
    requires (d - e) % W == 0 && -W < e < W
    ensures d % W == if e >= 0 then e else e + W
  {}

  /** The deadlines in the timer queue and the time now lie in one half-range window. */
  ghost predicate Timely(time: Slots, q: seq<int>, now: int) {
    exists base {:trigger Within(base, now)} :: Within(base, now) && AllWithin(time, q, base)
  }

  ghost predicate AllWithin(time: Slots, q: seq<int>, base: int) { forall p | p in q :: Within(base, Rd(time, p)) }

  // ---------------------------------------------------------------- firing the head

  /** An ALT woken from its wait disables its guards. */
  function Woken(alt: Alts, p: int): Alts {
    if p in alt && alt[p].phase.Waiting? then alt[p := alt[p].(phase := Disabling)] else alt
  }

  /** The head of the timer queue is taken off at time now; if it was waiting it is in hand. */
  function Rouse(k: K, now: Word): K
    requires k.timerq != []
  {
    var p := k.timerq[0];
    var next := Rd(k.tlink, p);
    k.(tlink := k.tlink[p := TIME_SET], time := k.time[p := now], ptr := k.ptr[p := READY],
       timerq := k.timerq[1..], tptr := next, tnext := if next == 0 then k.tnext else Rd(k.time, next),
       place := if Rd(k.ptr, p) == READY then k.place else k.place[p := Running], alt := Woken(k.alt, p))
  }

  lemma HeadFacts(k: K)
    requires Ids(k.place) && TimerOk(k) && AltsOk(k) && k.timerq != []
    ensures var p := k.timerq[0];
            && p in k.place && Rd(k.tlink, p) != TIME_SET && Rd(k.tlink, p) != TIME_NOT_SET
            && (Rd(k.ptr, p) == READY <==> p in k.alt && k.alt[p].phase.Disabling? && !k.place[p].TimerWait?)
            && (Rd(k.ptr, p) != READY ==> k.place[p].AltWait? || k.place[p].TimerWait?)
            && (Rd(k.ptr, p) == READY ==> k.place[p].Running? || k.place[p].Queued?)
            && (k.place[p].TimerWait? ==> p !in k.alt)
  {
    hide After, Sorted, NoDup, SomeReady, SomeFires, AllMarked, NoTimers;
    var q := k.timerq;
    var p := q[0];
    assert p in q;
    assert TimerMember(k.place, k.alt, p) && TimerLinkAt(k.tlink, q, 0);
    if |q| > 1 { assert q[1] in q && TimerMember(k.place, k.alt, q[1]); }
    if p in k.alt { assert AltAt(k, p); }
  }

  lemma RouseTimer(k: K, now: Word)
    requires Ids(k.place) && TimerOk(k) && AltsOk(k) && k.timerq != []
    ensures TimerOk(Rouse(k, now))
    ensures var p := k.timerq[0]; p !in k.timerq[1..] && forall x | x != p :: x in k.timerq[1..] <==> x in k.timerq
  {
    hide After, AltsOk, NoDup, Sorted, TimerLinked;
    var n, q, p := Rouse(k, now), k.timerq, k.timerq[0];
    HeadFacts(k);
    TailTimers(k.tlink, k.time, q, now);
    NextFacts(k);
    forall x | x in n.timerq ensures TimerMember(n.place, n.alt, x) { assert TimerMember(k.place, k.alt, x); }
  }

  lemma NextFacts(k: K)
    requires Ids(k.place) && TimerOk(k) && k.timerq != []
    ensures Rd(k.tlink, k.timerq[0]) == Head(k.timerq[1..])
    ensures k.timerq[1..] != [] ==> k.timerq[1] != 0
  {
    hide After, Sorted, NoDup;
    var q := k.timerq;
    assert TimerLinkAt(k.tlink, q, 0);
    if |q| > 1 { assert q[1] in q && TimerMember(k.place, k.alt, q[1]); }
  }

  lemma TailTimers(tlink: Slots, time: Slots, q: seq<int>, now: Word)
    requires q != [] && NoDup(q) && Sorted(time, q) && TimerLinked(tlink, q)
    ensures q[0] !in q[1..] && NoDup(q[1..])
    ensures Sorted(time[q[0] := now], q[1..]) && TimerLinked(tlink[q[0] := TIME_SET], q[1..])
    ensures forall x | x != q[0] :: x in q[1..] <==> x in q
  {
    hide After;
    var l, r := tlink[q[0] := TIME_SET], q[1..];
    forall i: nat {:trigger TimerLinkAt(l, r, i)} | i < |r| ensures TimerLinkAt(l, r, i) {
      assert TimerLinkAt(tlink, q, i + 1);
    }
    assert q == [q[0]] + r;
  }

  /** The deadline of a timed ALT woken by the timer is behind one of its timeouts. */
  lemma TimeoutPassed(t: int, now: int)
    requires 0 <= t < W && !After(t, now) && Sub(t, now) != MIN_INT
    ensures !After(Sub(t, 1), now)
  {
    ModStep(t - now);
    Congruent(t - 1 - now, Sub(t, 1) - now, (t - 1) / W);
  }

  lemma ModStep(d: int)
    ensures (d - 1) % W == if d % W == 0 then W - 1 else d % W - 1
  {}

  lemma Congruent(d: int, e: int, m: int)
    requires d == e + W * m
    ensures d % W == e % W
  {}

  lemma RouseAlts(k: K, now: Word)
    requires Ids(k.place) && TimerOk(k) && AltsOk(k) && k.timerq != []
    requires !After(Rd(k.time, k.timerq[0]), now) && Sub(Rd(k.time, k.timerq[0]), now) != MIN_INT
    ensures AltsOk(Rouse(k, now))
  {
    hide AltAt, After, TimerOk, Ids, Steady;
    var n, p := Rouse(k, now), k.timerq[0];
    HeadFacts(k);
    RouseTimer(k, now);
    AltsPlaces(k);
    forall x | x in n.alt ensures AltAt(n, x) {
      SteadySame(k.chan, x, k.alt[x].left);
      if x != p { AltFrame(k, n, x); } else { RouseAlt(k, now); }
    }
  }

  /** The ALT at the head of the timer queue has lost no wakeup when it fires. */
  lemma RouseAlt(k: K, now: Word)
    requires Ids(k.place) && TimerOk(k) && AltsOk(k) && k.timerq != [] && k.timerq[0] in k.alt
    requires !After(Rd(k.time, k.timerq[0]), now) && Sub(Rd(k.time, k.timerq[0]), now) != MIN_INT
    ensures AltAt(Rouse(k, now), k.timerq[0])
  {
    hide TimerOk, Ids;
    var n, p := Rouse(k, now), k.timerq[0];
    HeadFacts(k);
    RouseTimer(k, now);
    hide After;
    assert AltAt(k, p) && p in k.timerq;
    var left := k.alt[p].left;
    if k.alt[p].phase.Waiting? {
      TimeoutPassed(Rd(k.time, p), now);
      assert Fires(n, p, TimerGuard(Sub(Rd(k.time, p), 1)));
    } else if Rd(k.temp, p) == NONE_SELECTED {
      var g :| g in left && Fires(k, p, g);
      assert Fires(n, p, g);
    }
  }

  lemma RouseCore(k: K, now: Word)
    requires Core(k) && k.timerq != []
    requires !After(Rd(k.time, k.timerq[0]), now) && Sub(Rd(k.time, k.timerq[0]), now) != MIN_INT
    ensures Core(Rouse(k, now))
    ensures Rd(k.ptr, k.timerq[0]) != READY ==> InHand(Rouse(k, now), k.timerq[0])
  {
    hide RunOk, WaitOk, ObjectsOk, ChanOk, AltsOk, TimerOk, Ids, After;
    var n, p := Rouse(k, now), k.timerq[0];
    HeadFacts(k);
    RouseTimer(k, now);
    RouseAlts(k, now);
    RunFrame(k.link, n.link, k.place, n.place, k.fptr, k.bptr, k.runq);
    WaitFrame(k.link, n.link, k.place, n.place, k.waitq);
    ChanFrame(k.chan, k.place, n.place, k.ptr, n.ptr, k.link, n.link, k.alt, n.alt);
    if Rd(k.ptr, p) != READY { MoveIds(k.place, p, Running); }
  }

  // ---------------------------------------------------------------- walk_timer_queue

  /** The head is taken off, and queued to run unless it is ready already. */
  function Fire(k: K, now: Word): K
    requires k.timerq != []
  {
    EnqueueIf(Rouse(k, now), k.timerq[0], Rd(k.ptr, k.timerq[0]) != READY)
  }

  /** Enqueue p, when asked. */
  function EnqueueIf(k: K, p: int, wanted: bool): K {
    k.(link := if wanted then Behind(k.link, k.fptr, k.bptr, p) else k.link,
       fptr := if wanted && k.fptr == 0 then p else k.fptr, bptr := if wanted then p else k.bptr,
       runq := k.runq + (if wanted then [p] else []), place := if wanted then k.place[p := Queued] else k.place)
  }

  lemma EnqueueIfIs(k: K, p: int)
    ensures EnqueueIf(k, p, true) == Enqueue(k, p)
    ensures EnqueueIf(k, p, false) == k
  {
    assert k.runq + [] == k.runq;
  }

  function Walk(k: K, now: Word): K
    decreases |k.timerq|
  {
    if k.timerq == [] || After(Rd(k.time, k.timerq[0]), now) then k else Walk(Fire(k, now), now)
  }

  /** The processes of a queue that are not ready yet, in order. */
  function Sleepers(ptr: Slots, q: seq<int>): seq<int> {
    if q == [] then [] else (if Rd(ptr, q[0]) == READY then [] else [q[0]]) + Sleepers(ptr, q[1..])
  }

  lemma FireCore(k: K, now: Word, s: set<int>)
    requires Core(k) && k.timerq != [] && Hand(k.place, s)
    requires !After(Rd(k.time, k.timerq[0]), now) && Sub(Rd(k.time, k.timerq[0]), now) != MIN_INT
    ensures Core(Fire(k, now)) && Hand(Fire(k, now).place, s)
  {
    hide Core, Rouse, After, Enqueue, EnqueueIf;
    EnqueueIfIs(Rouse(k, now), k.timerq[0]);
    HeadIs(k);
    RouseCore(k, now);
    RousePlaces(k, now);
    if Rd(k.ptr, k.timerq[0]) != READY {
      EnqueueCore(Rouse(k, now), k.timerq[0]);
      EnqueuePlaces(Rouse(k, now), k.timerq[0]);
    }
  }

  lemma HeadIs(k: K)
    requires Core(k) && k.timerq != []
    ensures k.timerq[0] in k.place && (Rd(k.ptr, k.timerq[0]) != READY ==> !k.place[k.timerq[0]].Running?)
  {
    hide RunOk, WaitOk, ObjectsOk, ChanOk;
    HeadFacts(k);
  }

  lemma RousePlaces(k: K, now: Word)
    requires k.timerq != []
    ensures Rouse(k, now).place ==
              if Rd(k.ptr, k.timerq[0]) == READY then k.place else k.place[k.timerq[0] := Running]
  {}

  lemma EnqueuePlaces(k: K, p: int)
    ensures Enqueue(k, p).place == k.place[p := Queued]
  {}

  /** What firing the head does to the queues and to the slots of the others. */
  lemma FireQueues(k: K, now: Word)
    requires k.timerq != []
    ensures var n, p := Fire(k, now), k.timerq[0];
            && n.timerq == k.timerq[1..] && n.runq == k.runq + Sleepers(k.ptr, [p])
            && n.tlink == k.tlink[p := TIME_SET] && n.time == k.time[p := now] && n.ptr == k.ptr[p := READY]
  {
    hide Rouse, EnqueueIf, Sleepers;
    RouseQueues(k, now);
    EnqueueIfQueues(Rouse(k, now), k.timerq[0], Rd(k.ptr, k.timerq[0]) != READY);
    OneSleeper(k.ptr, k.timerq[0]);
  }

  lemma OneSleeper(ptr: Slots, p: int)
    ensures Sleepers(ptr, [p]) == if Rd(ptr, p) != READY then [p] else []
  {}

  lemma RouseQueues(k: K, now: Word)
    requires k.timerq != []
    ensures var n, p := Rouse(k, now), k.timerq[0];
            && n.timerq == k.timerq[1..] && n.runq == k.runq
            && n.tlink == k.tlink[p := TIME_SET] && n.time == k.time[p := now] && n.ptr == k.ptr[p := READY]
  {}

  lemma EnqueueIfQueues(k: K, p: int, wanted: bool)
    ensures var n := EnqueueIf(k, p, wanted);
            && n.timerq == k.timerq && n.runq == k.runq + (if wanted then [p] else [])
            && n.tlink == k.tlink && n.time == k.time && n.ptr == k.ptr
  {}

  lemma TimelyTail(k: K, now: Word)
    requires Core(k) && k.timerq != [] && Timely(k.time, k.timerq, now)
    ensures Timely(k.time[k.timerq[0] := now], k.timerq[1..], now)
    ensures Sub(Rd(k.time, k.timerq[0]), now) != MIN_INT
  {
    hide RunOk, WaitOk, ObjectsOk, ChanOk, AltsOk, Ids, After;
    var base :| Within(base, now) && AllWithin(k.time, k.timerq, base);
    var q, t := k.timerq, k.time[k.timerq[0] := now];
    TailTimers(k.tlink, k.time, q, now);
    assert q[0] in q && Within(base, Rd(k.time, q[0]));
    ModDifference(Rd(k.time, q[0]), now, base);
    assert AllWithin(t, q[1..], base) by {
      forall p | p in q[1..] ensures Within(base, Rd(t, p)) { assert p in q; }
    }
  }

  lemma {:induction false} WalkCore(k: K, now: Word, s: set<int>)
    requires Core(k) && Hand(k.place, s) && Timely(k.time, k.timerq, now)
    ensures Core(Walk(k, now)) && Hand(Walk(k, now).place, s)
    decreases |k.timerq|
  {
    hide Core, Fire, After, Hand, Timely;
    if k.timerq != [] && !After(Rd(k.time, k.timerq[0]), now) {
      TimelyTail(k, now);
      FireCore(k, now, s);
      FireQueues(k, now);
      WalkCore(Fire(k, now), now, s);
    }
  }

  /** The walk removes exactly the entries not after now, and queues those of them that are
      not ready already, once each and in order. */
  lemma {:induction false} WalkExact(k: K, now: Word) returns (m: nat)
    requires Core(k) && Timely(k.time, k.timerq, now)
    ensures WalksTo(k, Walk(k, now), now, m)
    decreases |k.timerq|
  {
    hide Core, Fire, After, Timely, WalksTo;
    if k.timerq == [] || After(Rd(k.time, k.timerq[0]), now) {
      m := 0;
      NoneDue(k, now);
    } else {
      WalkStep(k, now);
      var l := WalkExact(Fire(k, now), now);
      m := l + 1;
      WalksMore(k, Fire(k, now), Walk(k, now), now, l);
    }
  }

  /** Exactly the first m entries are due; n has queued those of them that were not ready. */
  ghost predicate WalksTo(k: K, n: K, now: Word, m: nat) {
    && m <= |k.timerq|
    && (forall i: nat | i < |k.timerq| :: i < m <==> !After(Rd(k.time, k.timerq[i]), now))
    && n.timerq == k.timerq[m..]
    && n.runq == k.runq + Sleepers(k.ptr, k.timerq[..m])
  }

  lemma WalksMore(k: K, f: K, n: K, now: Word, l: nat)
    requires k.timerq != [] && !After(Rd(k.time, k.timerq[0]), now) && k.timerq[0] !in k.timerq[1..]
    requires f.timerq == k.timerq[1..] && f.runq == k.runq + Sleepers(k.ptr, [k.timerq[0]])
    requires f.time == k.time[k.timerq[0] := now] && f.ptr == k.ptr[k.timerq[0] := READY]
    requires WalksTo(f, n, now, l)
    ensures WalksTo(k, n, now, l + 1)
  {
    hide After, Sleepers;
    var q := k.timerq;
    SleepersSplit(k, f, q[0], l);
    DueSplit(k.time, f.time, q, now, l);
    assert q[1..][l..] == q[l + 1..];
  }

  lemma WalkStep(k: K, now: Word)
    requires Core(k) && k.timerq != [] && Timely(k.time, k.timerq, now) && !After(Rd(k.time, k.timerq[0]), now)
    ensures var n, p := Fire(k, now), k.timerq[0];
            && Core(n) && n.timerq == k.timerq[1..] && Timely(n.time, n.timerq, now)
            && n.runq == k.runq + Sleepers(k.ptr, [p])
            && n.time == k.time[p := now] && n.ptr == k.ptr[p := READY] && p !in k.timerq[1..]
  {
    hide Core, Fire, After, Timely, Hand;
    TimelyTail(k, now);
    FireQueues(k, now);
    assert exists s :: Hand(k.place, s) by { SomeHand(k.place); }
    var s :| Hand(k.place, s);
    FireCore(k, now, s);
    HeadOnce(k);
  }

  lemma SomeHand(place: Places)
    ensures exists s :: Hand(place, s)
  {
    assert Hand(place, set p | p in place && place[p].Running?);
  }

  lemma HeadOnce(k: K)
    requires Core(k) && k.timerq != []
    ensures k.timerq[0] !in k.timerq[1..]
  {
    hide RunOk, WaitOk, ObjectsOk, ChanOk, AltsOk, Ids, After;
  }

  lemma NoneDue(k: K, now: Word)
    requires Core(k) && Timely(k.time, k.timerq, now)
    requires k.timerq == [] || After(Rd(k.time, k.timerq[0]), now)
    ensures WalksTo(k, k, now, 0)
  {
    hide RunOk, WaitOk, ObjectsOk, ChanOk, AltsOk, Ids, After, Within;
    var q := k.timerq;
    assert q[0..] == q && k.runq + [] == k.runq;
    var base :| Within(base, now) && AllWithin(k.time, q, base);
    forall i: nat | i < |q| ensures After(Rd(k.time, q[i]), now) {
      assert q[i] in q && q[0] in q;
      WindowOrder(base, Rd(k.time, q[0]), now);
      WindowOrder(base, Rd(k.time, q[i]), now);
      WindowOrder(base, Rd(k.time, q[0]), Rd(k.time, q[i]));
    }
  }

  lemma SleepersSplit(k: K, n: K, p: int, l: nat)
    requires k.timerq != [] && p == k.timerq[0] && n.timerq == k.timerq[1..] && l <= |n.timerq|
    requires n.ptr == k.ptr[p := READY] && p !in k.timerq[1..]
    ensures Sleepers(k.ptr, k.timerq[..l + 1]) == Sleepers(k.ptr, [p]) + Sleepers(n.ptr, n.timerq[..l])
  {
    var q := k.timerq[..l + 1];
    assert q[0] == p && q[1..] == n.timerq[..l];
    SleepersFrame(k.ptr, n.ptr, n.timerq[..l]);
    assert Sleepers(k.ptr, [p]) == if Rd(k.ptr, p) == READY then [] else [p];
  }

  lemma {:induction false} SleepersFrame(ptr: Slots, ptr2: Slots, q: seq<int>)
    requires forall p | p in q :: Rd(ptr2, p) == Rd(ptr, p)
    ensures Sleepers(ptr2, q) == Sleepers(ptr, q)
  {
    if q != [] {
      assert q[0] in q;
      SleepersFrame(ptr, ptr2, q[1..]);
    }
  }

  lemma DueSplit(time: Slots, time2: Slots, q: seq<int>, now: Word, l: nat)
    requires q != [] && !After(Rd(time, q[0]), now) && q[0] !in q[1..] && time2 == time[q[0] := now]
    requires forall i: nat | i < |q[1..]| :: i < l <==> !After(Rd(time2, q[1..][i]), now)
    ensures forall i: nat | i < |q| :: i < l + 1 <==> !After(Rd(time, q[i]), now)
  {
    hide After;
    forall i: nat | i < |q| ensures i < l + 1 <==> !After(Rd(time, q[i]), now) {
      if i > 0 { assert q[1..][i - 1] == q[i] && q[i] in q[1..]; }
    }
  }

  // ---------------------------------------------------------------- timer_queue_insert

  /** Where a deadline goes: in front of the first entry due after it. */
  function Slot(time: Slots, q: seq<int>, t: int): (i: nat)
    ensures i <= |q|
  {
    if q == [] || After(Rd(time, q[0]), t) then 0 else 1 + Slot(time, q[1..], t)
  }

  lemma {:induction false} SlotIs(time: Slots, q: seq<int>, t: int)
    ensures var i := Slot(time, q, t);
            && (forall j: nat | j < i :: !After(Rd(time, q[j]), t))
            && (i < |q| ==> After(Rd(time, q[i]), t))
  {
    hide After;
    if q != [] && !After(Rd(time, q[0]), t) {
      SlotIs(time, q[1..], t);
      forall j: nat | j < Slot(time, q, t) ensures !After(Rd(time, q[j]), t) {
        if j > 0 { assert q[j] == q[1..][j - 1]; }
      }
    }
  }

  function InsertAt(q: seq<int>, i: nat, p: int): seq<int>
    requires i <= |q|
  {
    q[..i] + [p] + q[i..]
  }

  function TimerLinkIn(tlink: Slots, q: seq<int>, i: nat, p: int): Slots
    requires i <= |q|
  {
    var l := tlink[p := if i < |q| then q[i] else 0];
    if i > 0 then l[q[i - 1] := p] else l
  }

  lemma InsertLinks(tlink: Slots, q: seq<int>, i: nat, p: int)
    requires NoDup(q) && TimerLinked(tlink, q) && p !in q && i <= |q|
    ensures NoDup(InsertAt(q, i, p)) && TimerLinked(TimerLinkIn(tlink, q, i, p), InsertAt(q, i, p))
  {
    var l, r := TimerLinkIn(tlink, q, i, p), InsertAt(q, i, p);
    forall j: nat {:trigger TimerLinkAt(l, r, j)} | j < |r| ensures TimerLinkAt(l, r, j) {
      if j < i { assert TimerLinkAt(tlink, q, j); }
      if j > i { assert TimerLinkAt(tlink, q, j - 1) && q[j - 1] in q; }
    }
  }

  /** The queue stays sorted, equal deadlines in order of arrival. */
  lemma InsertSorted(time: Slots, q: seq<int>, p: int)
    requires NoDup(q) && Sorted(time, q) && Timely(time, q, Rd(time, p))
    ensures Sorted(time, InsertAt(q, Slot(time, q, Rd(time, p)), p))
  {
    hide After, Within;
    var t := Rd(time, p);
    var i := Slot(time, q, t);
    SlotIs(time, q, t);
    var r := InsertAt(q, i, p);
    var base :| Within(base, t) && AllWithin(time, q, base);
    forall j: nat | i <= j < |q| ensures !After(t, Rd(time, q[j])) {
      assert q[i] in q && q[j] in q;
      WindowOrder(base, Rd(time, q[i]), t);
      WindowOrder(base, t, Rd(time, q[j]));
      WindowOrder(base, Rd(time, q[i]), Rd(time, q[j]));
    }
    forall a: nat, b: nat | a < b < |r| ensures !After(Rd(time, r[a]), Rd(time, r[b])) {
      if a != i && b != i {
        assert r[a] == q[if a < i then a else a - 1] && r[b] == q[if b < i then b else b - 1];
      } else if a == i {
        assert r[b] == q[b - 1];
      } else {
        assert r[a] == q[a];
      }
    }
  }

  function TimerInsert(k: K, p: int, t: int): K {
    var i := Slot(k.time, k.timerq, t);
    k.(tlink := TimerLinkIn(k.tlink, k.timerq, i, p), tptr := if i == 0 then p else k.tptr,
       tnext := if i == 0 then t else k.tnext, tq := i == 0 || k.tq,
       iptr := if k.timerq == [] then k.iptr[p := k.ip] else k.iptr, timerq := InsertAt(k.timerq, i, p))
  }

  // ---------------------------------------------------------------- timer_queue_remove

  function RemoveAt(q: seq<int>, i: nat): seq<int>
    requires i < |q|
  {
    q[..i] + q[i + 1..]
  }

  function TimerLinkOut(tlink: Slots, q: seq<int>, i: nat): Slots
    requires i < |q|
  {
    (if i > 0 then tlink[q[i - 1] := Rd(tlink, q[i])] else tlink)[q[i] := TIME_NOT_SET]
  }

  lemma RemoveLinks(tlink: Slots, time: Slots, q: seq<int>, i: nat)
    requires NoDup(q) && TimerLinked(tlink, q) && Sorted(time, q) && i < |q|
    ensures var r := RemoveAt(q, i);
            NoDup(r) && TimerLinked(TimerLinkOut(tlink, q, i), r) && Sorted(time, r) && q[i] !in r
    ensures forall x | x != q[i] :: x in RemoveAt(q, i) <==> x in q
  {
    hide After;
    var l, r := TimerLinkOut(tlink, q, i), RemoveAt(q, i);
    assert TimerLinkAt(tlink, q, i);
    forall j: nat {:trigger TimerLinkAt(l, r, j)} | j < |r| ensures TimerLinkAt(l, r, j) {
      assert TimerLinkAt(tlink, q, if j < i then j else j + 1);
      assert r[j] == q[if j < i then j else j + 1];
    }
    assert q == q[..i] + [q[i]] + q[i + 1..];
  }

  function TimerRemove(k: K, i: nat): K
    requires i < |k.timerq|
  {
    var p := k.timerq[i];
    var next := Rd(k.tlink, p);
    k.(tlink := TimerLinkOut(k.tlink, k.timerq, i), tptr := if i == 0 then next else k.tptr,
       tnext := if i == 0 && next != 0 then Rd(k.time, next) else k.tnext,
       tq := (i == 0 && next != 0) || k.tq, timerq := RemoveAt(k.timerq, i))
  }

  // ---------------------------------------------------------------- waiting for a time

  /** n is k with p put on the timer queue for time t. */
  ghost predicate Inserted(k: K, n: K, p: int, t: int) {
    var i := Slot(n.time, k.timerq, t);
    && n.time == k.time[p := t] && n.timerq == InsertAt(k.timerq, i, p) && n.tlink == TimerLinkIn(k.tlink, k.timerq, i, p)
    && n.tptr == (if i == 0 then p else k.tptr) && n.tnext == (if i == 0 then t else k.tnext) && n.tq == (i == 0 || k.tq)
  }

  lemma InsertedTimer(k: K, n: K, p: int, t: Word)
    requires TimerOk(k) && p !in k.timerq && Inserted(k, n, p, t) && Timely(k.time, k.timerq, t)
    requires TimerMember(n.place, n.alt, p)
    requires forall x | x in k.timerq && TimerMember(k.place, k.alt, x) :: TimerMember(n.place, n.alt, x)
    requires n.place[p].TimerWait? ==> Rd(n.ptr, p) == 0
    requires forall x {:trigger n.place[x]} | x != p && x in n.place && n.place[x].TimerWait? ::
               x in k.place && k.place[x].TimerWait? && Rd(n.ptr, x) == Rd(k.ptr, x)
    ensures TimerOk(n)
    ensures forall x :: x in n.timerq <==> x == p || x in k.timerq
  {
    hide After, TimerMember, Slot, Timely;
    var q := k.timerq;
    var i := Slot(n.time, q, t);
    InsertedList(k, n, p, t);
    hide NoDup, Sorted, TimerLinked, TimerLinkIn;
    InsertMembers(q, i, p);
    forall x | x in n.timerq ensures TimerMember(n.place, n.alt, x) { assert x == p || x in q; }
  }

  lemma InsertMembers(q: seq<int>, i: nat, p: int)
    requires i <= |q|
    ensures forall x :: x in InsertAt(q, i, p) <==> x == p || x in q
    ensures InsertAt(q, i, p)[0] == if i == 0 then p else q[0]
  {
    assert q == q[..i] + q[i..];
  }

  lemma InsertedList(k: K, n: K, p: int, t: Word)
    requires TimerOk(k) && p !in k.timerq && Inserted(k, n, p, t) && Timely(k.time, k.timerq, t)
    ensures NoDup(n.timerq) && TimerLinked(n.tlink, n.timerq) && Sorted(n.time, n.timerq)
    ensures k.timerq != [] ==> Rd(n.time, k.timerq[0]) == Rd(k.time, k.timerq[0])
  {
    hide After, TimerMember, Slot, InsertAt, TimerLinkIn, Within;
    var q := k.timerq;
    InsertLinks(k.tlink, q, Slot(n.time, q, t), p);
    var base :| Within(base, t) && AllWithin(k.time, q, base);
    assert AllWithin(n.time, q, base);
    InsertSorted(n.time, q, p);
  }

  /** The TLINK words of the other processes, as far as they matter to ALTs. */
  lemma InsertedLinks(k: K, n: K, p: int, t: int, x: int)
    requires Ids(k.place) && TimerOk(k) && Inserted(k, n, p, t) && p in k.place && x != p
    ensures Alike(Rd(n.tlink, x), Rd(k.tlink, x))
  {
    hide After, Slot, NoDup, Sorted;
    var q, i := k.timerq, Slot(n.time, k.timerq, t);
    if i > 0 && x == q[i - 1] {
      assert TimerLinkAt(k.tlink, q, i - 1);
      if i < |q| { assert q[i] in q && TimerMember(k.place, k.alt, q[i]); }
    }
  }

  /** tin: wait for time t. */
  function WaitTime(k: K, t: Word): K {
    var n := TimerInsert(k.(time := k.time[k.wptr := t], iptr := k.iptr[k.wptr := k.ip]), k.wptr, t);
    n.(ptr := n.ptr[k.wptr := 0], place := n.place[k.wptr := TimerWait])
  }

  lemma WaitTimeCore(k: K, t: Word)
    requires Core(k) && InHand(k, k.wptr) && k.wptr !in k.alt && Timely(k.time, k.timerq, t)
    ensures Core(WaitTime(k, t))
  {
    hide RunOk, WaitOk, ObjectsOk, ChanOk, AltsOk, TimerOk, Ids, Timely, Inserted;
    var n, p := WaitTime(k, t), k.wptr;
    WaitTimeInserted(k, t);
    WaitTimeTimer(k, t);
    WaitTimeAlts(k, t);
    RunFrame(k.link, n.link, k.place, n.place, k.fptr, k.bptr, k.runq);
    WaitFrame(k.link, n.link, k.place, n.place, k.waitq);
    ChanFrame(k.chan, k.place, n.place, k.ptr, n.ptr, k.link, n.link, k.alt, n.alt);
    MoveIds(k.place, p, TimerWait);
  }

  lemma WaitTimeInserted(k: K, t: Word)
    ensures Inserted(k, WaitTime(k, t), k.wptr, t)
  {
    hide Slot, InsertAt, TimerLinkIn;
  }

  lemma WaitTimeTimer(k: K, t: Word)
    requires Core(k) && InHand(k, k.wptr) && k.wptr !in k.alt && Timely(k.time, k.timerq, t)
    ensures TimerOk(WaitTime(k, t)) && k.wptr !in k.timerq
  {
    hide RunOk, WaitOk, ObjectsOk, ChanOk, AltsOk, Ids, After, Timely, Inserted, NoDup, Sorted, TimerLinked, Slot, InsertAt, TimerLinkIn;
    WaitTimeInserted(k, t);
    assert k.wptr !in k.timerq;
    InsertedTimer(k, WaitTime(k, t), k.wptr, t);
  }

  lemma WaitTimeAlts(k: K, t: Word)
    requires Core(k) && InHand(k, k.wptr) && k.wptr !in k.alt && Timely(k.time, k.timerq, t)
    ensures AltsOk(WaitTime(k, t))
  {
    hide RunOk, WaitOk, ObjectsOk, ChanOk, After, Timely, Inserted, AltAt, TimerOk, Ids, Slot, InsertAt, TimerLinkIn, Steady;
    var n := WaitTime(k, t);
    WaitTimeInserted(k, t);
    WaitTimeTimer(k, t);
    WaitTimeMembers(k, t);
    AltsPlaces(k);
    forall x | x in k.alt && x != k.wptr ensures SameSlots(k, n, x) && Steady(k.chan, n.chan, x, k.alt[x].left) {
      InsertedLinks(k, n, k.wptr, t, x);
      SteadySame(k.chan, x, k.alt[x].left);
    }
    AltsFrameBut(k, n, k.wptr);
  }

  lemma WaitTimeMembers(k: K, t: Word)
    ensures forall x :: x in WaitTime(k, t).timerq <==> x == k.wptr || x in k.timerq
  {
    hide Slot;
    InsertMembers(k.timerq, Slot(k.time[k.wptr := t], k.timerq, t), k.wptr);
    hide InsertAt;
  }
}
