/** Semaphores and barriers (runtime/libtvm/ins_pi.c:297-361, ins_barrier.c). */
module KernelObjects {
  import opened Words
  import opened KernelState
  import opened KernelFrames
  import opened KernelQueues

  // ---------------------------------------------------------------- joining and leaving a queue

  /** p has been linked behind the last process of the queue of x. */
  ghost predicate LinkedBehind(link: Slots, link2: Slots, q: seq<int>, p: int) {
    && (forall y | y != p && (q == [] || y != q[|q| - 1]) :: Rd(link2, y) == Rd(link, y))
    && (q != [] ==> Rd(link2, q[|q| - 1]) == p)
  }

  lemma WaitJoin(link: Slots, link2: Slots, place: Places, waitq: Queues, x: int, p: int)
    requires WaitOk(link, place, waitq) && x in waitq && p in place && place[p].Running?
    requires LinkedBehind(link, link2, waitq[x], p)
    ensures WaitOk(link2, place[p := InQueue(x)], waitq[x := waitq[x] + [p]])
  {
    hide NoDup, Linked, Members, LinkedBehind;
    var place2, waitq2 := place[p := InQueue(x)], waitq[x := waitq[x] + [p]];
    forall y | y in waitq2
      ensures NoDup(waitq2[y]) && Linked(link2, waitq2[y]) && Members(place2, waitq2[y], InQueue(y))
    {
      if y == x { JoinOwn(link, link2, place, waitq[x], x, p); } else { JoinOther(link, link2, place, waitq[x], waitq[y], x, y, p); }
    }
  }

  lemma JoinOwn(link: Slots, link2: Slots, place: Places, q: seq<int>, x: int, p: int)
    requires NoDup(q) && Linked(link, q) && Members(place, q, InQueue(x)) && p in place && place[p].Running?
    requires LinkedBehind(link, link2, q, p)
    ensures NoDup(q + [p]) && Linked(link2, q + [p]) && Members(place[p := InQueue(x)], q + [p], InQueue(x))
  {
    var r := q + [p];
    assert p !in q;
    forall i: nat | i + 1 < |r| ensures LinkAt(link2, r, i) {
      if i + 1 < |q| { assert LinkAt(link, q, i); }
    }
    forall y ensures y in r <==> y == p || y in q {}
  }

  lemma JoinOther(link: Slots, link2: Slots, place: Places, q: seq<int>, r: seq<int>, x: int, y: int, p: int)
    requires Members(place, q, InQueue(x)) && x != y && p in place && place[p].Running?
    requires Linked(link, r) && Members(place, r, InQueue(y)) && LinkedBehind(link, link2, q, p)
    ensures Linked(link2, r) && Members(place[p := InQueue(x)], r, InQueue(y))
  {
    if q != [] { assert q[|q| - 1] in q; }
    LinkedFrame(link, link2, r);
  }

  /** The last links of the other queues have not changed. */
  lemma LastKept(link: Slots, link2: Slots, place: Places, waitq: Queues, x: int, y: int, p: int)
    requires WaitOk(link, place, waitq) && x in waitq && y in waitq && x != y && p in place && place[p].Running?
    requires LinkedBehind(link, link2, waitq[x], p) && waitq[y] != []
    ensures Rd(link2, waitq[y][|waitq[y]| - 1]) == Rd(link, waitq[y][|waitq[y]| - 1])
  {
    assert waitq[y][|waitq[y]| - 1] in waitq[y];
    if waitq[x] != [] { assert waitq[x][|waitq[x]| - 1] in waitq[x]; }
  }

  lemma WaitLeave(link: Slots, place: Places, waitq: Queues, x: int)
    requires WaitOk(link, place, waitq) && x in waitq && waitq[x] != []
    ensures waitq[x][0] in place && place[waitq[x][0]] == InQueue(x)
    ensures WaitOk(link, place[waitq[x][0] := Running], waitq[x := waitq[x][1..]])
  {
    hide NoDup, Linked;
    var q := waitq[x];
    assert q[0] in q;
    LeaveOwn(link, place, q, x);
    var place2, waitq2 := place[q[0] := Running], waitq[x := q[1..]];
    forall y | y in waitq2 ensures NoDup(waitq2[y]) && Linked(link, waitq2[y]) && Members(place2, waitq2[y], InQueue(y)) {
      if y != x { MembersFrame(place, place2, waitq[y], InQueue(y)); }
    }
  }

  lemma LeaveOwn(link: Slots, place: Places, q: seq<int>, x: int)
    requires NoDup(q) && Linked(link, q) && Members(place, q, InQueue(x)) && q != []
    ensures NoDup(q[1..]) && Linked(link, q[1..]) && Members(place[q[0] := Running], q[1..], InQueue(x))
    ensures |q| > 1 ==> Rd(link, q[0]) == q[1]
  {
    if |q| > 1 { assert LinkAt(link, q, 0); }
    forall i: nat | i + 1 < |q[1..]| ensures LinkAt(link, q[1..], i) { assert LinkAt(link, q, i + 1); }
    TailMembers(place, q, InQueue(x), Running);
  }

  // ---------------------------------------------------------------- semaphores

  function ClaimFree(k: K, x: int): K
    requires x in k.sem
  {
    k.(sem := k.sem[x := k.sem[x].(fptr := 0)], holder := k.holder[x := k.wptr])
  }

  /** The current process joins the queue of a busy semaphore. */
  function ClaimBusy(k: K, x: int): K
    requires x in k.sem && x in k.waitq
  {
    var p, s := k.wptr, k.sem[x];
    k.(link := Behind(k.link, s.fptr, s.bptr, p), iptr := k.iptr[p := k.ip], place := k.place[p := InQueue(x)],
       sem := k.sem[x := Semaphore(if s.fptr == 0 then p else s.fptr, p)], waitq := k.waitq[x := k.waitq[x] + [p]])
  }

  function ReleaseFree(k: K, x: int): K
    requires x in k.sem
  {
    k.(sem := k.sem[x := k.sem[x].(fptr := 1)], holder := k.holder[x := 0])
  }

  /** The semaphore is handed to the first waiter. */
  function HandOver(k: K, x: int): K
    requires x in k.sem && x in k.waitq && k.waitq[x] != []
  {
    var h := k.sem[x].fptr;
    k.(sem := k.sem[x := k.sem[x].(fptr := Rd(k.link, h))], waitq := k.waitq[x := k.waitq[x][1..]],
       holder := k.holder[x := h], place := k.place[h := Running])
  }

  lemma ClaimFreeCore(k: K, x: int)
    requires Core(k) && InHand(k, k.wptr) && x in k.sem && k.sem[x].fptr == 1
    ensures Core(ClaimFree(k, x)) && x in k.holder && k.holder[x] == 0
  {
    hide RunOk, ChanOk, AltsOk, TimerOk, WaitOk, ObjectsOk, Ids;
    FreeIsFree(k, x);
    HandId(k);
    ChangeSem(k, k.link, x, k.sem[x].(fptr := 0), k.waitq[x], k.wptr);
    assert k.waitq[x := k.waitq[x]] == k.waitq;
    SameCore(k, ClaimFree(k, x));
  }

  lemma ReleaseFreeCore(k: K, x: int)
    requires Core(k) && x in k.sem && k.sem[x].fptr == 0
    ensures Core(ReleaseFree(k, x))
  {
    hide RunOk, ChanOk, AltsOk, TimerOk, WaitOk, ObjectsOk, Ids;
    FreeIsFree(k, x);
    ChangeSem(k, k.link, x, k.sem[x].(fptr := 1), k.waitq[x], 0);
    assert k.waitq[x := k.waitq[x]] == k.waitq;
    SameCore(k, ReleaseFree(k, x));
  }

  lemma ChangeSem(k: K, link2: Slots, x: int, s: Semaphore, q: seq<int>, h: int)
    requires ObjectsOk(k.link, k.sem, k.bar, k.waitq, k.holder) && x in k.sem && SemAt(link2, s, q, h)
    requires LastsKept(k.link, link2, k.waitq, x)
    ensures ObjectsOk(link2, k.sem[x := s], k.bar, k.waitq[x := q], k.holder[x := h])
  {}

  lemma ChangeBar(k: K, link2: Slots, x: int, b: Barrier, q: seq<int>)
    requires ObjectsOk(k.link, k.sem, k.bar, k.waitq, k.holder) && x in k.bar && BarAt(link2, b, q)
    requires LastsKept(k.link, link2, k.waitq, x)
    ensures ObjectsOk(link2, k.sem, k.bar[x := b], k.waitq[x := q], k.holder)
  {}

  /** The last process of every other queue keeps its link. */
  ghost predicate LastsKept(link: Slots, link2: Slots, waitq: Queues, x: int) {
    forall y | y in waitq && y != x && waitq[y] != [] ::
      Rd(link2, waitq[y][|waitq[y]| - 1]) == Rd(link, waitq[y][|waitq[y]| - 1])
  }

  lemma LastsJoin(link: Slots, link2: Slots, place: Places, waitq: Queues, x: int, p: int)
    requires WaitOk(link, place, waitq) && x in waitq && p in place && place[p].Running?
    requires LinkedBehind(link, link2, waitq[x], p)
    ensures LastsKept(link, link2, waitq, x)
  {
    hide WaitOk, LinkedBehind;
    forall y | y in waitq && y != x && waitq[y] != []
      ensures Rd(link2, waitq[y][|waitq[y]| - 1]) == Rd(link, waitq[y][|waitq[y]| - 1])
    {
      LastKept(link, link2, place, waitq, x, y, p);
    }
  }

  lemma HandId(k: K)
    requires Ids(k.place) && InHand(k, k.wptr)
    ensures k.wptr > 0
  {}

  /** The parts of the state that semaphores and barriers do not touch. */
  ghost predicate SameRest(k: K, n: K) {
    && n.temp == k.temp && n.ptr == k.ptr && n.tlink == k.tlink && n.time == k.time && n.chan == k.chan
    && n.tptr == k.tptr && n.tnext == k.tnext && n.tq == k.tq && n.timerq == k.timerq && n.alt == k.alt
  }

  lemma SameCore(k: K, n: K)
    requires AltsOk(k) && TimerOk(k) && SameRest(k, n) && n.place == k.place
    ensures AltsOk(n) && TimerOk(n)
  {
    hide AltAt, NoDup, Sorted, TimerLinked, After;
    AltsPlaces(k);
    AltsFrame(k, n);
  }

  lemma FreeIsFree(k: K, x: int)
    requires Core(k) && x in k.sem
    ensures x in k.waitq && x in k.holder && x !in k.bar
    ensures k.sem[x].fptr == 1 <==> k.holder[x] == 0
    ensures k.sem[x].fptr == 1 ==> k.waitq[x] == []
    ensures k.sem[x].fptr != 1 ==> k.sem[x].fptr == Head(k.waitq[x])
    ensures k.waitq[x] != [] ==> k.waitq[x][0] in k.place && k.waitq[x][0] != 0
  {
    hide RunOk, ChanOk, AltsOk, TimerOk;
    if k.waitq[x] != [] { assert k.waitq[x][0] in k.waitq[x]; }
  }

  lemma ClaimBusyCore(k: K, x: int)
    requires Core(k) && InHand(k, k.wptr) && k.wptr !in k.alt && x in k.sem && k.sem[x].fptr != 1
    ensures x in k.waitq && Core(ClaimBusy(k, x))
  {
    hide RunOk, ChanOk, AltsOk, TimerOk, WaitOk, ObjectsOk, Ids, LinkedBehind, Behind;
    FreeIsFree(k, x);
    var n, p, s := ClaimBusy(k, x), k.wptr, k.sem[x];
    ClaimLinks(k, x);
    WaitJoin(k.link, n.link, k.place, k.waitq, x, p);
    ClaimObjects(k, x);
    JoinRest(k, n, x, p);
  }

  lemma ClaimLinks(k: K, x: int)
    requires Core(k) && x in k.sem && x in k.waitq && k.sem[x].fptr != 1
    ensures LinkedBehind(k.link, Behind(k.link, k.sem[x].fptr, k.sem[x].bptr, k.wptr), k.waitq[x], k.wptr)
    ensures (k.sem[x].fptr == 0 <==> k.waitq[x] == []) && (k.waitq[x] != [] ==> k.sem[x].bptr == k.waitq[x][|k.waitq[x]| - 1])
  {
    hide RunOk, ChanOk, AltsOk, TimerOk;
    FreeIsFree(k, x);
  }

  lemma ClaimObjects(k: K, x: int)
    requires Core(k) && InHand(k, k.wptr) && x in k.sem && x in k.waitq && k.sem[x].fptr != 1
    ensures var n := ClaimBusy(k, x); ObjectsOk(n.link, n.sem, n.bar, n.waitq, n.holder)
  {
    hide RunOk, ChanOk, AltsOk, TimerOk, WaitOk, ObjectsOk, Ids, LinkedBehind, Behind, SemAt, LastsKept;
    var n, p := ClaimBusy(k, x), k.wptr;
    FreeIsFree(k, x);
    ClaimLinks(k, x);
    LastsJoin(k.link, n.link, k.place, k.waitq, x, p);
    ClaimedSem(k, x);
    ChangeSem(k, n.link, x, n.sem[x], n.waitq[x], k.holder[x]);
    assert k.holder[x := k.holder[x]] == k.holder;
  }

  lemma ClaimedSem(k: K, x: int)
    requires Core(k) && InHand(k, k.wptr) && x in k.sem && x in k.waitq && x in k.holder && k.sem[x].fptr != 1
    ensures var n := ClaimBusy(k, x); SemAt(n.link, n.sem[x], n.waitq[x], k.holder[x])
  {
    hide Core, SemAt, Behind, ClaimBusy;
    FreeIsFree(k, x);
    NotWaiting(k, x);
    ClaimBusyIs(k, x);
    SemJoin(k.link, k.sem[x], k.waitq[x], k.holder[x], k.wptr);
  }

  lemma ClaimBusyIs(k: K, x: int)
    requires x in k.sem && x in k.waitq
    ensures var n, p, s := ClaimBusy(k, x), k.wptr, k.sem[x];
            && x in n.sem && x in n.waitq && n.link == Behind(k.link, s.fptr, s.bptr, p)
            && n.sem[x] == Semaphore(if s.fptr == 0 then p else s.fptr, p) && n.waitq[x] == k.waitq[x] + [p]
  {
    hide Behind;
  }

  lemma NotWaiting(k: K, x: int)
    requires Core(k) && InHand(k, k.wptr) && x in k.waitq
    ensures k.wptr !in k.waitq[x] && k.wptr > 0
    ensures x in k.sem ==> x in k.holder && SemAt(k.link, k.sem[x], k.waitq[x], k.holder[x])
  {
    hide RunOk, ChanOk, AltsOk, TimerOk, NoDup, Linked, SemAt, BarAt;
  }

  lemma SemJoin(link: Slots, s: Semaphore, q: seq<int>, h: int, p: int)
    requires SemAt(link, s, q, h) && s.fptr != 1 && p > 0 && p !in q && (q != [] ==> q[0] != 0)
    ensures SemAt(Behind(link, s.fptr, s.bptr, p), Semaphore(if s.fptr == 0 then p else s.fptr, p), q + [p], h)
  {
    if q != [] { assert q[|q| - 1] in q; }
  }

  lemma SemLeave(link: Slots, s: Semaphore, q: seq<int>, h: int, h2: int)
    requires SemAt(link, s, q, h) && q != [] && Linked(link, q) && h2 != 0
    ensures SemAt(link, s.(fptr := Rd(link, q[0])), q[1..], h2)
  {
    if |q| > 1 { assert LinkAt(link, q, 0); }
  }

  /** What a process leaves unaffected when it joins a queue. */
  lemma JoinRest(k: K, n: K, x: int, p: int)
    requires Core(k) && InHand(k, p) && p !in k.alt && x in k.waitq && SameRest(k, n) && LinkedBehind(k.link, n.link, k.waitq[x], p)
    requires n.place == k.place[p := InQueue(x)] && n.fptr == k.fptr && n.bptr == k.bptr && n.runq == k.runq
    ensures Ids(n.place) && RunOk(n.link, n.place, n.fptr, n.bptr, n.runq) && ChanOk(n.chan, n.place, n.ptr, n.link, n.alt)
    ensures AltsOk(n) && TimerOk(n)
  {
    hide RunOk, ChanOk, AltsOk, TimerOk, ObjectsOk, Ids;
    OthersKept(k, n.link, x, p);
    RunFrame(k.link, n.link, k.place, n.place, k.fptr, k.bptr, k.runq);
    ChanFrame(k.chan, k.place, n.place, k.ptr, n.ptr, k.link, n.link, k.alt, n.alt);
    MoveIds(k.place, p, InQueue(x));
    AltsPlaces(k);
    AltsFrame(k, n);
    MoveTimer(k, n, p, InQueue(x));
  }

  lemma OthersKept(k: K, link2: Slots, x: int, p: int)
    requires WaitOk(k.link, k.place, k.waitq) && x in k.waitq && LinkedBehind(k.link, link2, k.waitq[x], p)
    ensures forall y | y in k.place && y != p && !k.place[y].InQueue? :: Rd(link2, y) == Rd(k.link, y)
  {
    if k.waitq[x] != [] { assert k.waitq[x][|k.waitq[x]| - 1] in k.waitq[x]; }
  }

  lemma HandOverCore(k: K, x: int)
    requires Core(k) && x in k.sem && x in k.waitq && k.sem[x].fptr != 0 && k.sem[x].fptr != 1
    ensures k.waitq[x] != [] && k.sem[x].fptr == k.waitq[x][0]
    ensures k.waitq[x][0] in k.place && k.place[k.waitq[x][0]].InQueue?
    ensures Core(HandOver(k, x)) && InHand(HandOver(k, x), k.waitq[x][0])
  {
    hide RunOk, ChanOk, AltsOk, TimerOk, WaitOk, ObjectsOk, Ids;
    FreeIsFree(k, x);
    var n, h := HandOver(k, x), k.waitq[x][0];
    WaitLeave(k.link, k.place, k.waitq, x);
    HandedObjects(k, x);
    RunFrame(k.link, n.link, k.place, n.place, k.fptr, k.bptr, k.runq);
    ChanFrame(k.chan, k.place, n.place, k.ptr, n.ptr, k.link, n.link, k.alt, n.alt);
    MoveIds(k.place, h, Running);
    WaiterNoAlt(k, h);
    AltsPlaces(k);
    AltsFrame(k, n);
    MoveTimer(k, n, h, Running);
  }

  lemma WaiterNoAlt(k: K, h: int)
    requires AltsOk(k) && h in k.place && k.place[h].InQueue?
    ensures h !in k.alt
  {
    hide After, SomeReady, SomeFires, AllMarked, NoTimers;
    if h in k.alt { WaiterAlt(k, h); }
  }

  lemma WaiterAlt(k: K, h: int)
    requires AltsOk(k) && h in k.alt
    ensures h in k.place && !k.place[h].InQueue?
  {
    hide After, SomeReady, SomeFires, AllMarked, NoTimers;
    assert AltAt(k, h);
  }

  lemma HandedObjects(k: K, x: int)
    requires Core(k) && x in k.sem && x in k.waitq && k.waitq[x] != [] && k.sem[x].fptr == k.waitq[x][0]
    ensures var n := HandOver(k, x); ObjectsOk(n.link, n.sem, n.bar, n.waitq, n.holder)
  {
    hide RunOk, ChanOk, AltsOk, TimerOk, Ids, NoDup, Linked, Members;
    FreeIsFree(k, x);
    SemLeave(k.link, k.sem[x], k.waitq[x], k.holder[x], k.waitq[x][0]);
    hide WaitOk, SemAt, BarAt;
    ChangeSem(k, k.link, x, k.sem[x].(fptr := Rd(k.link, k.waitq[x][0])), k.waitq[x][1..], k.waitq[x][0]);
  }

  function NewSem(k: K, x: int): K {
    k.(sem := k.sem[x := Semaphore(1, 0)], waitq := k.waitq[x := []], holder := k.holder[x := 0])
  }

  lemma NewSemCore(k: K, x: int)
    requires Core(k) && x !in k.waitq
    ensures Core(NewSem(k, x))
  {
    hide RunOk, ChanOk, AltsOk, TimerOk, Ids, WaitOk, ObjectsOk, Linked;
    SameCore(k, NewSem(k, x));
    NobodyThere(k, x);
    NewObject(k, x);
  }

  /** tvm_bar_init */
  function NewBar(k: K, x: int, n: Word): K {
    k.(bar := k.bar[x := Barrier(n, n, 0, 0)], waitq := k.waitq[x := []])
  }

  lemma NewBarCore(k: K, x: int, n: Word)
    requires Core(k) && x !in k.waitq
    ensures Core(NewBar(k, x, n))
  {
    hide RunOk, ChanOk, AltsOk, TimerOk, Ids, WaitOk, ObjectsOk, Linked;
    SameCore(k, NewBar(k, x, n));
    NobodyThere(k, x);
    NewObject(k, x);
  }

  lemma NewObject(k: K, x: int)
    requires ObjectsOk(k.link, k.sem, k.bar, k.waitq, k.holder) && x !in k.waitq
    ensures ObjectsOk(k.link, k.sem[x := Semaphore(1, 0)], k.bar, k.waitq[x := []], k.holder[x := 0])
    ensures forall n: Word :: ObjectsOk(k.link, k.sem, k.bar[x := Barrier(n, n, 0, 0)], k.waitq[x := []], k.holder)
  {}

  lemma NobodyThere(k: K, x: int)
    requires WaitOk(k.link, k.place, k.waitq) && x !in k.waitq
    ensures WaitOk(k.link, k.place, k.waitq[x := []])
  {
    forall p ensures p in [] <==> p in k.place && k.place[p] == InQueue(x) {}
  }

  // ---------------------------------------------------------------- barriers

  /** The last waiter of a barrier links back to the one before; that one links to it. */
  function BarBehind(link: Slots, bptr: int, p: int): Slots {
    if bptr == 0 then link[p := bptr] else link[p := bptr][bptr := p]
  }

  function SyncWait(k: K, x: int): K
    requires x in k.bar && x in k.waitq && k.bar[x].count > 0
  {
    var p, b := k.wptr, k.bar[x];
    k.(link := BarBehind(k.link, b.bptr, p), iptr := k.iptr[p := k.ip], place := k.place[p := InQueue(x)],
       bar := k.bar[x := Barrier(b.enrolled, b.count - 1, if b.bptr == 0 then p else b.fptr, p)],
       waitq := k.waitq[x := k.waitq[x] + [p]])
  }

  lemma BarFacts(k: K, x: int)
    requires Core(k) && x in k.bar
    ensures x in k.waitq && x !in k.sem && BarAt(k.link, k.bar[x], k.waitq[x])
    ensures k.bar[x].bptr == 0 <==> k.waitq[x] == []
    ensures k.waitq[x] != [] ==> k.bar[x].bptr == k.waitq[x][|k.waitq[x]| - 1] && k.waitq[x][0] > 0
  {
    hide RunOk, ChanOk, AltsOk, TimerOk, NoDup, Linked, SemAt;
    var q := k.waitq[x];
    if q != [] { assert q[|q| - 1] in q && q[0] in q; }
  }

  lemma SyncWaitCore(k: K, x: int)
    requires Core(k) && InHand(k, k.wptr) && k.wptr !in k.alt && x in k.bar && k.bar[x].count > 1
    ensures x in k.waitq && Core(SyncWait(k, x))
  {
    hide RunOk, ChanOk, AltsOk, TimerOk, WaitOk, ObjectsOk, Ids, LinkedBehind, BarBehind;
    BarFacts(k, x);
    var n, p := SyncWait(k, x), k.wptr;
    BarLinks(k.link, k.bar[x], k.waitq[x], p);
    WaitJoin(k.link, n.link, k.place, k.waitq, x, p);
    SyncObjects(k, x);
    JoinRest(k, n, x, p);
  }

  lemma BarLinks(link: Slots, b: Barrier, q: seq<int>, p: int)
    requires BarAt(link, b, q) && (b.bptr == 0 <==> q == [])
    ensures LinkedBehind(link, BarBehind(link, b.bptr, p), q, p)
  {}

  lemma SyncObjects(k: K, x: int)
    requires Core(k) && InHand(k, k.wptr) && x in k.bar && x in k.waitq && k.bar[x].count > 1
    ensures var n := SyncWait(k, x); ObjectsOk(n.link, n.sem, n.bar, n.waitq, n.holder)
  {
    hide RunOk, ChanOk, AltsOk, TimerOk, WaitOk, ObjectsOk, Ids, LinkedBehind, BarBehind, BarAt, LastsKept;
    var n, p := SyncWait(k, x), k.wptr;
    BarFacts(k, x);
    NotWaiting(k, x);
    BarLinks(k.link, k.bar[x], k.waitq[x], p);
    LastsJoin(k.link, n.link, k.place, k.waitq, x, p);
    BarJoin(k.link, k.bar[x], k.waitq[x], p);
    ChangeBar(k, n.link, x, n.bar[x], n.waitq[x]);
  }

  lemma BarJoin(link: Slots, b: Barrier, q: seq<int>, p: int)
    requires BarAt(link, b, q) && b.count > 1 && p > 0 && p !in q && (b.bptr == 0 <==> q == [])
    ensures BarAt(BarBehind(link, b.bptr, p), Barrier(b.enrolled, b.count - 1, if b.bptr == 0 then p else b.fptr, p), q + [p])
  {
    if q != [] { assert q[|q| - 1] in q; }
  }

  /** add_queue_to_queue: the links when a whole queue goes behind the run queue. */
  function AppendLink(link: Slots, fptr: int, bptr: int, front: int, back: int): Slots {
    if fptr == 0 then link[back := 0] else link[back := 0][bptr := front]
  }

  function SetQueued(place: Places, q: seq<int>): Places {
    map p | p in place :: if p in q then Queued else place[p]
  }

  /** tvm_bar_complete: the waiters join the run queue in order of arrival. */
  function Complete(k: K, x: int, e: Word): K
    requires x in k.bar && x in k.waitq
  {
    var b, q := k.bar[x], k.waitq[x];
    k.(bar := k.bar[x := Barrier(e, e, 0, 0)], waitq := k.waitq[x := []],
       link := if b.fptr == 0 then k.link else AppendLink(k.link, k.fptr, k.bptr, b.fptr, b.bptr),
       fptr := if b.fptr != 0 && k.fptr == 0 then b.fptr else k.fptr, bptr := if b.fptr != 0 then b.bptr else k.bptr,
       runq := k.runq + q, place := SetQueued(k.place, q))
  }

  lemma AppendList(link: Slots, fptr: int, bptr: int, runq: seq<int>, q: seq<int>)
    requires Listed(link, fptr, bptr, runq) && NoDup(q) && Linked(link, q) && q != []
    requires (forall p | p in q :: p !in runq) && (forall p | p in runq :: p != 0)
    ensures Listed(AppendLink(link, fptr, bptr, q[0], q[|q| - 1]), if fptr == 0 then q[0] else fptr, q[|q| - 1], runq + q)
  {
    var l, r := AppendLink(link, fptr, bptr, q[0], q[|q| - 1]), runq + q;
    assert runq != [] ==> runq[0] in runq && runq[|runq| - 1] in runq;
    assert q[|q| - 1] in q;
    forall i: nat | i + 1 < |r| ensures LinkAt(l, r, i) {
      if i + 1 < |runq| { assert LinkAt(link, runq, i) && runq[i] in runq; }
      if i >= |runq| { assert LinkAt(link, q, i - |runq|) && q[i - |runq|] in q; }
    }
    forall i: nat, j: nat | i < j < |r| ensures r[i] != r[j] {
      if i < |runq| <= j { assert q[j - |runq|] in q && runq[i] in runq; }
    }
  }

  lemma AppendMembers(place: Places, runq: seq<int>, q: seq<int>, x: int)
    requires Members(place, runq, Queued) && Members(place, q, InQueue(x))
    ensures Members(SetQueued(place, q), runq + q, Queued) && Members(SetQueued(place, q), [], InQueue(x))
  {
    forall p ensures p in runq + q <==> p in runq || p in q {}
  }

  lemma CompleteRun(k: K, x: int, e: Word)
    requires Core(k) && x in k.bar && x in k.waitq
    ensures var n := Complete(k, x, e); RunOk(n.link, n.place, n.fptr, n.bptr, n.runq)
  {
    hide Core, Complete, Listed, Members, SetQueued, AppendLink, NoDup, Linked;
    var q := k.waitq[x];
    CompleteIs(k, x, e);
    WaiterQueue(k, x);
    AppendMembers(k.place, k.runq, q, x);
    if q != [] {
      AppendList(k.link, k.fptr, k.bptr, k.runq, q);
    } else {
      assert k.runq + q == k.runq;
    }
  }

  /** The queue of x is a list of its own, apart from the run queue. */
  lemma WaiterQueue(k: K, x: int)
    requires Core(k) && x in k.waitq
    ensures var q := k.waitq[x];
            && NoDup(q) && Linked(k.link, q) && Members(k.place, q, InQueue(x))
            && (forall p | p in q :: p !in k.runq && p in k.place && k.place[p] == InQueue(x))
            && (forall p | p in k.runq :: p != 0 && p in k.place && k.place[p].Queued?)
    ensures Listed(k.link, k.fptr, k.bptr, k.runq) && Members(k.place, k.runq, Queued)
  {
    hide ChanOk, AltsOk, TimerOk, ObjectsOk, NoDup, Linked, Listed;
  }

  lemma CompleteIs(k: K, x: int, e: Word)
    requires Core(k) && x in k.bar && x in k.waitq
    ensures var n, q := Complete(k, x, e), k.waitq[x];
            && n.link == (if q == [] then k.link else AppendLink(k.link, k.fptr, k.bptr, q[0], q[|q| - 1]))
            && n.fptr == (if q != [] && k.fptr == 0 then q[0] else k.fptr)
            && n.bptr == (if q != [] then q[|q| - 1] else k.bptr)
            && n.runq == k.runq + q && n.place == SetQueued(k.place, q) && n.waitq == k.waitq[x := []]
  {
    hide Core, SetQueued, AppendLink;
    BarFacts(k, x);
    BarEnds(k, x);
  }

  lemma BarEnds(k: K, x: int)
    requires Core(k) && x in k.bar && x in k.waitq
    ensures k.bar[x].fptr == Head(k.waitq[x]) && (k.waitq[x] != [] ==> k.bar[x].fptr != 0)
    ensures k.bar[x].enrolled == k.bar[x].count + |k.waitq[x]|
  {
    hide ChanOk, AltsOk, TimerOk, NoDup, Linked, RunOk, WaitOk;
    BarFacts(k, x);
  }

  lemma CompleteWait(k: K, x: int, e: Word)
    requires Core(k) && x in k.bar && x in k.waitq
    ensures var n := Complete(k, x, e); WaitOk(n.link, n.place, n.waitq) && LastsKept(k.link, n.link, k.waitq, x)
  {
    hide Core, Complete, Members, SetQueued, AppendLink, NoDup, Linked;
    var n, q := Complete(k, x, e), k.waitq[x];
    CompleteIs(k, x, e);
    WaiterQueue(k, x);
    AppendMembers(k.place, k.runq, q, x);
    CompleteLinks(k, x, e);
    forall y | y in n.waitq ensures NoDup(n.waitq[y]) && Linked(n.link, n.waitq[y]) && Members(n.place, n.waitq[y], InQueue(y)) {
      if y != x {
        WaiterQueue(k, y);
        OtherQueue(k.link, n.link, k.place, k.waitq[y], q, x, y);
      } else {
        NoLinks(n.link);
      }
    }
    forall y | y in k.waitq && y != x && k.waitq[y] != []
      ensures Rd(n.link, k.waitq[y][|k.waitq[y]| - 1]) == Rd(k.link, k.waitq[y][|k.waitq[y]| - 1])
    {
      WaiterQueue(k, y);
      assert k.waitq[y][|k.waitq[y]| - 1] in k.waitq[y];
    }
    Registered(k);
    CompletePlaces(k.place, q, k.waitq, x);
  }

  lemma NoLinks(link: Slots)
    ensures NoDup([]) && Linked(link, [])
  {}

  lemma Registered(k: K)
    requires Core(k)
    ensures forall p | p in k.place && k.place[p].InQueue? :: k.place[p].x in k.waitq
  {}

  lemma CompletePlaces(place: Places, q: seq<int>, waitq: Queues, x: int)
    requires Members(place, q, InQueue(x)) && forall p | p in place && place[p].InQueue? :: place[p].x in waitq
    ensures forall p | p in SetQueued(place, q) && SetQueued(place, q)[p].InQueue? :: SetQueued(place, q)[p].x in waitq
  {}

  /** Only waiters of x and queued processes have new links. */
  lemma CompleteLinks(k: K, x: int, e: Word)
    requires Core(k) && x in k.bar && x in k.waitq
    ensures forall p | p in k.place && !k.place[p].Queued? && k.place[p] != InQueue(x) ::
              Rd(Complete(k, x, e).link, p) == Rd(k.link, p)
  {
    hide Core, Complete, Members, SetQueued, NoDup, Linked;
    var q := k.waitq[x];
    CompleteIs(k, x, e);
    WaiterQueue(k, x);
    if q != [] { assert q[|q| - 1] in q; }
    if k.runq != [] { assert k.runq[|k.runq| - 1] in k.runq; }
  }

  lemma OtherQueue(link: Slots, link2: Slots, place: Places, r: seq<int>, q: seq<int>, x: int, y: int)
    requires Members(place, r, InQueue(y)) && Linked(link, r) && Members(place, q, InQueue(x)) && x != y
    requires forall p | p in place && !place[p].Queued? && place[p] != InQueue(x) :: Rd(link2, p) == Rd(link, p)
    ensures Linked(link2, r) && Members(SetQueued(place, q), r, InQueue(y))
  {
    LinkedFrame(link, link2, r);
    MembersFrame(place, SetQueued(place, q), r, InQueue(y));
  }

  lemma CompleteCore(k: K, x: int, e: Word)
    requires Core(k) && x in k.bar && x in k.waitq
    ensures Core(Complete(k, x, e)) && forall s :: Hand(k.place, s) ==> Hand(Complete(k, x, e).place, s)
  {
    hide RunOk, ChanOk, AltsOk, TimerOk, WaitOk, ObjectsOk, Ids, AppendLink, LastsKept, BarAt, SameRest;
    var n := Complete(k, x, e);
    BarFacts(k, x);
    BarEnds(k, x);
    CompleteRun(k, x, e);
    CompleteWait(k, x, e);
    CompleteObjects(k, x, e);
    CompleteLinks(k, x, e);
    CompleteSame(k, x, e);
    ChanFrame(k.chan, k.place, n.place, k.ptr, n.ptr, k.link, n.link, k.alt, n.alt);
    CompleteRest(k, x, e);
  }

  lemma CompleteObjects(k: K, x: int, e: Word)
    requires Core(k) && x in k.bar && x in k.waitq
    ensures var n := Complete(k, x, e); ObjectsOk(n.link, n.sem, n.bar, n.waitq, n.holder)
  {
    hide RunOk, ChanOk, AltsOk, TimerOk, WaitOk, ObjectsOk, Ids, AppendLink, LastsKept, SetQueued;
    CompleteWait(k, x, e);
    ChangeBar(k, Complete(k, x, e).link, x, Barrier(e, e, 0, 0), []);
  }

  lemma CompleteSame(k: K, x: int, e: Word)
    requires Core(k) && x in k.bar && x in k.waitq
    ensures var n := Complete(k, x, e);
            && SameBlocked(k.place, n.place) && k.place.Keys == n.place.Keys && Ids(n.place)
            && (forall p | p in k.place && !n.place[p].Queued? :: n.place[p] == k.place[p])
            && (forall p | p in n.place && n.place[p].Queued? :: k.place[p].Queued? || k.place[p].InQueue?)
            && (forall s :: Hand(k.place, s) ==> Hand(n.place, s))
  {
    hide RunOk, ChanOk, AltsOk, TimerOk, ObjectsOk, AppendLink, NoDup, Linked;
  }

  lemma CompleteRest(k: K, x: int, e: Word)
    requires Core(k) && x in k.bar && x in k.waitq
    ensures AltsOk(Complete(k, x, e)) && TimerOk(Complete(k, x, e))
  {
    hide RunOk, ChanOk, ObjectsOk, WaitOk, Ids, AppendLink, SetQueued, NoDup, Sorted, TimerLinked, After, AltAt;
    var n := Complete(k, x, e);
    CompleteSame(k, x, e);
    AltsPlaces(k);
    forall p | p in k.alt ensures SimilarPlace(k.place, n.place, p) { WaiterAlt(k, p); }
    AltsFrame(k, n);
    forall p | p in k.timerq ensures TimerMember(n.place, n.alt, p) { assert TimerMember(k.place, k.alt, p); }
  }

  // ---------------------------------------------------------------- enrolling and resigning

  function Enrol(k: K, x: int, n: Word): K
    requires x in k.bar && k.bar[x].enrolled + n < W && k.bar[x].count + n < W
  {
    var b := k.bar[x];
    k.(bar := k.bar[x := b.(enrolled := b.enrolled + n, count := b.count + n)])
  }

  /** A barrier's words change, in step with its queue. */
  lemma BarWords(k: K, x: int, b: Barrier)
    requires Core(k) && x in k.bar && x in k.waitq && BarAt(k.link, b, k.waitq[x])
    ensures Core(k.(bar := k.bar[x := b]))
  {
    hide RunOk, ChanOk, AltsOk, TimerOk, WaitOk, ObjectsOk, Ids, BarAt;
    ChangeBar(k, k.link, x, b, k.waitq[x]);
    assert k.waitq[x := k.waitq[x]] == k.waitq;
    SameCore(k, k.(bar := k.bar[x := b]));
  }

  lemma EnrolCore(k: K, x: int, n: Word)
    requires Core(k) && x in k.bar && k.bar[x].enrolled + n < W
    ensures k.bar[x].count + n < W && Core(Enrol(k, x, n))
  {
    hide Core;
    BarFacts(k, x);
    var b := k.bar[x];
    BarWords(k, x, b.(enrolled := b.enrolled + n, count := b.count + n));
  }

  function Resign(k: K, x: int, n: Word): K
    requires x in k.bar && n <= k.bar[x].enrolled && n <= k.bar[x].count
  {
    var b := k.bar[x];
    k.(bar := k.bar[x := b.(enrolled := b.enrolled - n, count := b.count - n)])
  }

  lemma ResignCore(k: K, x: int, n: Word)
    requires Core(k) && x in k.bar && n < k.bar[x].count && n <= k.bar[x].enrolled
    ensures Core(Resign(k, x, n))
  {
    hide Core;
    BarFacts(k, x);
    var b := k.bar[x];
    BarWords(k, x, b.(enrolled := b.enrolled - n, count := b.count - n));
  }
}
