/** The run queue and the queues of semaphores and barriers (runtime/libtvm/scheduler.c). */
module KernelQueues {
  import opened Words
  import opened KernelState
  import opened KernelFrames

  // ---------------------------------------------------------------- add_to_queue

  /** The LINK slots after p was put behind bptr. */
  function Behind(link: Slots, fptr: int, bptr: int, p: int): Slots {
    if fptr == 0 then link[p := 0] else link[p := 0][bptr := p]
  }

  function Enqueue(k: K, p: int): K {
    k.(link := Behind(k.link, k.fptr, k.bptr, p), fptr := if k.fptr == 0 then p else k.fptr, bptr := p,
       runq := k.runq + [p], place := k.place[p := Queued])
  }

  ghost predicate InHand(k: K, p: int) { p in k.place && k.place[p].Running? }

  lemma BehindList(link: Slots, fptr: int, bptr: int, p: int, q: seq<int>)
    requires Listed(link, fptr, bptr, q) && p !in q && forall x | x in q :: x != 0
    ensures Listed(Behind(link, fptr, bptr, p), if fptr == 0 then p else fptr, p, q + [p])
  {
    var l, r := Behind(link, fptr, bptr, p), q + [p];
    assert q != [] ==> q[0] in q;
    forall i: nat | i + 1 < |r| ensures LinkAt(l, r, i) {
      if i + 1 < |q| { assert LinkAt(link, q, i); }
    }
  }

  lemma EnqueueRun(k: K, p: int)
    requires Ids(k.place) && RunOk(k.link, k.place, k.fptr, k.bptr, k.runq) && InHand(k, p)
    ensures var n := Enqueue(k, p); RunOk(n.link, n.place, n.fptr, n.bptr, n.runq)
    ensures forall x | x in k.place && x != p && !k.place[x].Queued? ::
              Rd(Behind(k.link, k.fptr, k.bptr, p), x) == Rd(k.link, x)
  {
    hide Listed, Behind;
    assert p !in k.runq;
    BehindList(k.link, k.fptr, k.bptr, p, k.runq);
    BehindTouches(k.link, k.place, k.fptr, k.bptr, k.runq, p);
  }

  lemma BehindTouches(link: Slots, place: Places, fptr: int, bptr: int, runq: seq<int>, p: int)
    requires RunOk(link, place, fptr, bptr, runq)
    ensures forall x | x in place && x != p && !place[x].Queued? :: Rd(Behind(link, fptr, bptr, p), x) == Rd(link, x)
  {
    if fptr != 0 { assert bptr in runq; }
  }

  lemma EnqueueCore(k: K, p: int)
    requires Core(k) && InHand(k, p)
    ensures Core(Enqueue(k, p))
  {
    hide RunOk, WaitOk, ObjectsOk, ChanOk, AltsOk, TimerOk, Behind, Ids;
    var n := Enqueue(k, p);
    EnqueueRun(k, p);
    WaitFrame(k.link, n.link, k.place, n.place, k.waitq);
    ObjectsFrame(k.link, n.link, k.place, k.sem, k.bar, k.waitq, k.holder);
    ChanFrame(k.chan, k.place, n.place, k.ptr, n.ptr, k.link, n.link, k.alt, n.alt);
    MoveAlts(k, n, p);
    MoveTimer(k, n, p, Queued);
    MoveIds(k.place, p, Queued);
  }

  lemma MoveIds(place: Places, p: int, w: Place)
    requires Ids(place) && p in place
    ensures Ids(place[p := w])
  {}

  /** Moving p between running and queued is nothing to the ALTs and the timers. */
  lemma MoveAlts(k: K, n: K, p: int)
    requires AltsOk(k) && n.alt == k.alt && n.chan == k.chan && n.timerq == k.timerq
    requires n.ptr == k.ptr && n.temp == k.temp && n.tlink == k.tlink && n.time == k.time
    requires p in k.place && (k.place[p].Running? || k.place[p].Queued?)
    requires n.place == k.place[p := Running] || n.place == k.place[p := Queued]
    ensures AltsOk(n)
  {
    hide AltsOk;
    AltsPlaces(k);
    AltsFrame(k, n);
  }

  lemma AltsPlaces(k: K)
    requires AltsOk(k)
    ensures forall p | p in k.alt :: p in k.place
  {
    forall p | p in k.alt ensures p in k.place { assert AltAt(k, p); }
  }

  lemma MoveTimer(k: K, n: K, p: int, w: Place)
    requires TimerOk(k) && n.alt == k.alt && n.timerq == k.timerq && n.ptr == k.ptr && n.tlink == k.tlink && n.time == k.time
    requires n.tptr == k.tptr && n.tnext == k.tnext && n.tq == k.tq
    requires p in k.place && !k.place[p].TimerWait?
    requires n.place == k.place[p := w] && !w.TimerWait?
    ensures TimerOk(n)
  {
    hide NoDup, Sorted, TimerLinked, After;
    TimerFrame(k, n);
  }

  // ---------------------------------------------------------------- run_next_on_queue

  /** The head of the run queue becomes the current process. */
  function TakeNext(k: K): K
    requires k.runq != []
  {
    k.(wptr := k.fptr, ip := Rd(k.iptr, k.fptr), fptr := if k.fptr == k.bptr then 0 else Rd(k.link, k.fptr),
       bptr := if k.fptr == k.bptr then 0 else k.bptr, runq := k.runq[1..], place := k.place[k.fptr := Running])
  }

  lemma TailList(link: Slots, fptr: int, bptr: int, q: seq<int>)
    requires Listed(link, fptr, bptr, q) && q != []
    ensures Listed(link, if fptr == bptr then 0 else Rd(link, fptr), if fptr == bptr then 0 else bptr, q[1..])
    ensures q[0] !in q[1..]
  {
    if |q| > 1 { assert LinkAt(link, q, 0); }
    forall i: nat | i + 1 < |q[1..]| ensures LinkAt(link, q[1..], i) { assert LinkAt(link, q, i + 1); }
  }

  lemma TailMembers(place: Places, q: seq<int>, w: Place, w2: Place)
    requires Members(place, q, w) && q != [] && q[0] !in q[1..] && w != w2
    ensures Members(place[q[0] := w2], q[1..], w)
  {
    forall p ensures p in q <==> p == q[0] || p in q[1..] { assert q == [q[0]] + q[1..]; }
  }

  lemma TakeRun(k: K)
    requires RunOk(k.link, k.place, k.fptr, k.bptr, k.runq) && k.runq != []
    ensures var n := TakeNext(k); RunOk(n.link, n.place, n.fptr, n.bptr, n.runq)
    ensures k.fptr in k.place && k.place[k.fptr].Queued? && k.fptr == k.runq[0]
  {
    hide NoDup, Linked;
    TailList(k.link, k.fptr, k.bptr, k.runq);
    hide Listed;
    assert k.runq[0] in k.runq && k.fptr == k.runq[0];
    TailMembers(k.place, k.runq, Queued, Running);
  }

  lemma TakeCore(k: K)
    requires Core(k) && k.runq != []
    ensures Core(TakeNext(k)) && k.runq[0] in k.place && k.place[k.runq[0]].Queued? && k.fptr == k.runq[0]
  {
    hide RunOk, WaitOk, ObjectsOk, ChanOk, AltsOk, TimerOk, Ids;
    var n := TakeNext(k);
    TakeRun(k);
    WaitFrame(k.link, n.link, k.place, n.place, k.waitq);
    ChanFrame(k.chan, k.place, n.place, k.ptr, n.ptr, k.link, n.link, k.alt, n.alt);
    MoveAlts(k, n, k.fptr);
    MoveTimer(k, n, k.fptr, Running);
    MoveIds(k.place, k.fptr, Running);
  }
}
