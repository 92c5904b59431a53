/** The kernel as the C code runs it: workspace slots, channel words and queue pointers
    updated in place (runtime/libtvm/scheduler.c, ins_chan.c, ins_alt.c, ins_timer.c,
    ins_barrier.c, ins_pi.c, ins_sec.c). */
module Kernel {
  import opened Words
  import opened KernelState
  import opened KernelFrames
  import opened KernelQueues
  import opened KernelTimers
  import opened KernelChannels
  import opened KernelAlts
  import opened KernelObjects
  import opened KernelProcs
  import opened KernelMachine
  import opened KernelRefine
  import R = KernelRun

  class Machine {
    // workspace slots, one map for each slot
    var temp: Slots
    var iptr: Slots
    var link: Slots
    var ptr: Slots
    var tlink: Slots
    var time: Slots
    // channel words, bytes, semaphores, barriers and PAR counts
    var chan: Slots
    var data: Slots
    var sem: map<int, Semaphore>
    var bar: map<int, Barrier>
    var par: map<int, Par>
    // registers
    var fptr: int
    var bptr: int
    var tptr: int
    var tnext: int
    var wptr: int
    var ip: int
    var tq: bool
    var intr: bool
    // what they represent
    ghost var runq: seq<int>
    ghost var timerq: seq<int>
    ghost var place: Places
    ghost var alt: Alts
    ghost var waitq: Queues
    ghost var holder: map<int, int>

    ghost function V(): K
      reads this
    {
      K(temp, iptr, link, ptr, tlink, time, chan, data, sem, bar, par, fptr, bptr, tptr, tnext, wptr, ip, tq, intr,
        runq, timerq, place, alt, waitq, holder)
    }

    /** One process runs, the others are dormant; every word is zero. */
    constructor (ghost procs: set<int>, first: int, entry: int)
      requires first in procs && forall p | p in procs :: p > 0 && p % 4 == 0
      ensures V() == R.Boot(procs, first, entry) && Inv(V())
    {
      hide Inv, Core, Hand;
      temp, iptr, link, ptr, tlink, time := map[], map[], map[], map[], map[], map[];
      chan, data, sem, bar, par := map[], map[], map[], map[], map[];
      fptr, bptr, tptr, tnext, wptr, ip, tq, intr := 0, 0, 0, 0, first, entry, false, false;
      runq, timerq, alt, waitq, holder := [], [], map[], map[], map[];
      place := map p | p in procs :: if p == first then Running else Dormant;
      new;
      R.BootInv(procs, first, entry);
    }

    /** The fields, as parts of the state. */
    lemma Fields()
      ensures var k := V();
              && k.temp == temp && k.iptr == iptr && k.link == link && k.ptr == ptr && k.tlink == tlink && k.time == time
              && k.chan == chan && k.data == data && k.sem == sem && k.bar == bar && k.par == par
              && k.fptr == fptr && k.bptr == bptr && k.tptr == tptr && k.tnext == tnext && k.wptr == wptr && k.ip == ip
              && k.tq == tq && k.intr == intr && k.runq == runq && k.timerq == timerq && k.place == place && k.alt == alt
              && k.waitq == waitq && k.holder == holder
    {}

    // ------------------------------------------------------------ WORKSPACE_SET and write_word

    method SetTemp(ws: int, v: int)
      modifies this`temp
      ensures V() == old(V()).(temp := old(V()).temp[ws := v])
    {
      temp := temp[ws := v];
    }

    method SetIptr(ws: int, v: int)
      modifies this`iptr
      ensures V() == old(V()).(iptr := old(V()).iptr[ws := v])
    {
      iptr := iptr[ws := v];
    }

    /** LINK and PENDING */
    method SetLink(ws: int, v: int)
      modifies this`link
      ensures V() == old(V()).(link := old(V()).link[ws := v])
    {
      link := link[ws := v];
    }

    /** STATE, which shares its slot with the buffer address */
    method SetPtr(ws: int, v: int)
      modifies this`ptr
      ensures V() == old(V()).(ptr := old(V()).ptr[ws := v])
    {
      ptr := ptr[ws := v];
    }

    method SetTlink(ws: int, v: int)
      modifies this`tlink
      ensures V() == old(V()).(tlink := old(V()).tlink[ws := v])
    {
      tlink := tlink[ws := v];
    }

    method SetTime(ws: int, v: int)
      modifies this`time
      ensures V() == old(V()).(time := old(V()).time[ws := v])
    {
      time := time[ws := v];
    }

    method SetChan(c: int, v: int)
      modifies this`chan
      ensures V() == old(V()).(chan := old(V()).chan[c := v])
    {
      chan := chan[c := v];
    }

    // ------------------------------------------------------------ registers

    method SetFptr(v: int)
      modifies this`fptr
      ensures V() == old(V()).(fptr := v)
    {
      fptr := v;
    }

    method SetBptr(v: int)
      modifies this`bptr
      ensures V() == old(V()).(bptr := v)
    {
      bptr := v;
    }

    method SetTptr(v: int)
      modifies this`tptr
      ensures V() == old(V()).(tptr := v)
    {
      tptr := v;
    }

    method SetTnext(v: int)
      modifies this`tnext
      ensures V() == old(V()).(tnext := v)
    {
      tnext := v;
    }

    method SetWptr(v: int)
      modifies this`wptr
      ensures V() == old(V()).(wptr := v)
    {
      wptr := v;
    }

    method SetIp(v: int)
      modifies this`ip
      ensures V() == old(V()).(ip := v)
    {
      ip := v;
    }

    method SetTq(v: bool)
      modifies this`tq
      ensures V() == old(V()).(tq := v)
    {
      tq := v;
    }

    // ------------------------------------------------------------ what the words represent

    ghost method SetPlace(p: int, w: Place)
      modifies this`place
      ensures V() == old(V()).(place := old(V()).place[p := w])
    {
      place := place[p := w];
    }

    ghost method SetPlaces(w: Places)
      modifies this`place
      ensures V() == old(V()).(place := w)
    {
      place := w;
    }

    ghost method SetAlt(a: Alts)
      modifies this`alt
      ensures V() == old(V()).(alt := a)
    {
      alt := a;
    }

    ghost method SetRunq(v: seq<int>)
      modifies this`runq
      ensures V() == old(V()).(runq := v)
    {
      runq := v;
    }

    ghost method SetTimerq(v: seq<int>)
      modifies this`timerq
      ensures V() == old(V()).(timerq := v)
    {
      timerq := v;
    }

    ghost method SetWaitq(v: Queues)
      modifies this`waitq
      ensures V() == old(V()).(waitq := v)
    {
      waitq := v;
    }

    ghost method SetHolder(v: map<int, int>)
      modifies this`holder
      ensures V() == old(V()).(holder := v)
    {
      holder := v;
    }

    // ------------------------------------------------------------ run queue

    /** add_to_queue */
    method AddToQueue(ws: int)
      modifies this`link, this`fptr, this`bptr, this`runq, this`place
      ensures V() == Enqueue(old(V()), ws)
    {
      hide V;
      SetLink(ws, 0);
      Fields();
      if fptr == 0 { SetFptr(ws); } else { SetLink(bptr, ws); }
      SetBptr(ws);
      Fields();
      SetRunq(runq + [ws]);
      SetPlace(ws, Queued);
    }

    /** DESCHEDULE_CURRENT, short of clearing WPTR */
    method DescheduleCurrent()
      modifies this`iptr, this`link, this`fptr, this`bptr, this`runq, this`place
      ensures V() == Requeue(old(V()))
    {
      hide V, Enqueue;
      Fields();
      SetIptr(wptr, ip);
      AddToQueue(wptr);
    }

    /** LOAD_PROCESS_RET */
    method LoadProcess(ws: int)
      modifies this`wptr, this`ip
      ensures V() == Load(old(V()), ws)
    {
      hide V;
      SetWptr(ws);
      Fields();
      SetIp(Rd(iptr, ws));
    }

    // ------------------------------------------------------------ timer queue

    /** One turn of walk_timer_queue: the head is taken off, and queued unless it is ready. */
    method Expire(t: int, now: Word)
      requires timerq != [] && t == timerq[0]
      modifies this`link, this`fptr, this`bptr, this`runq, this`place, this`ptr, this`tlink, this`time, this`timerq, this`alt
      ensures V() == Fire(old(V()), now).(tptr := old(V()).tptr, tnext := old(V()).tnext)
    {
      hide V, Woken, Fire, Enqueue, Expiring;
      ghost var k := V();
      Fields();
      TakeOff(t, now);
      Fields();
      if Rd(ptr, t) != READY {
        SetPtr(t, READY);
        SetPlace(t, Running);
        FireWakes(k, now);
        AddToQueue(t);
      } else {
        FirePasses(k, now);
      }
    }

    method TakeOff(t: int, now: Word)
      requires V().timerq != [] && t == V().timerq[0]
      modifies this`tlink, this`time, this`timerq, this`alt
      ensures V() == Expiring(old(V()), now)
    {
      hide V, Woken;
      ghost var k := V();
      Fields();
      SetTlink(t, TIME_SET);
      SetTime(t, now);
      SetTimerq(timerq[1..]);
      SetAlt(Woken(k.alt, t));
    }

    /** walk_timer_queue */
    method WalkTimerQueue(now: Word)
      requires Core(V()) && Timely(V().time, V().timerq, now)
      modifies this`link, this`fptr, this`bptr, this`runq, this`place, this`ptr, this`tlink, this`time, this`tptr, this`tnext,
               this`timerq, this`alt, this`tq
      ensures V() == Walked(old(V()), now)
    {
      hide V, Core, Walk, Timely, After, Fire;
      ghost var v := V();
      Fields();
      HeadWords(v);
      if tptr == 0 || After(tnext, now) {
        WalkNothing(v, now);
        assert Walked(v, now) == v;
        return;
      }
      WalkFrom(tptr, now);
    }

    /** The loop of walk_timer_queue, entered with a head t that is due. */
    method WalkFrom(t0: int, now: Word)
      requires Core(V()) && Timely(V().time, V().timerq, now)
      requires V().timerq != [] && !After(Rd(V().time, V().timerq[0]), now) && t0 == V().timerq[0]
      modifies this`link, this`fptr, this`bptr, this`runq, this`place, this`ptr, this`tlink, this`time, this`tptr, this`tnext,
               this`timerq, this`alt, this`tq
      ensures V() == Walked(old(V()), now)
    {
      hide V, Core, Walk, Timely, After, Fire, Walking, Walked;
      ghost var v, f := V(), V();
      var t := t0;
      WalkBegins(v, t, now);
      while true
        invariant Walking(v, f, V(), t, now)
        decreases |f.timerq|
      {
        WalkTurn(v, f, V(), t, now);
        Fields();
        var after := Rd(tlink, t);
        Expire(t, now);
        f := Fire(f, now);
        Fields();
        if after == 0 {
          SetTptr(0);
          break;
        }
        var next := Rd(time, after);
        if After(next, now) {
          SetTptr(after);
          SetTnext(next);
          SetTq(true);
          break;
        }
        t := after;
      }
    }

    // ------------------------------------------------------------ run_next_on_queue

    /** The head of the run queue becomes the current process. */
    method TakeHead()
      requires V().runq != []
      modifies this`wptr, this`ip, this`fptr, this`bptr, this`runq, this`place
      ensures V() == TakeNext(old(V()))
    {
      hide V;
      Fields();
      SetWptr(fptr);
      SetRunq(runq[1..]);
      SetPlace(fptr, Running);
      DropHead();
      Fields();
      SetIp(Rd(iptr, wptr));
    }

    method DropHead()
      modifies this`fptr, this`bptr
      ensures var k := old(V());
              V() == k.(fptr := if k.fptr == k.bptr then 0 else Rd(k.link, k.fptr), bptr := if k.fptr == k.bptr then 0 else k.bptr)
    {
      hide V;
      Fields();
      if fptr == bptr {
        SetFptr(0);
        SetBptr(0);
      } else {
        SetFptr(Rd(link, fptr));
      }
    }

    /** busy_wait_synchronise, when it has been asked to look at the timers */
    method Synchronise(now: Word)
      requires Core(V()) && Timely(V().time, V().timerq, now) && tq
      modifies this`link, this`fptr, this`bptr, this`runq, this`place, this`ptr, this`tlink, this`time, this`tptr, this`tnext,
               this`timerq, this`alt, this`tq
      ensures V() == Synced(old(V()), now)
    {
      hide V, Core, Walked, Timely;
      ghost var k := V();
      Fields();
      WalkTimerQueue(now);
      FlagStays(k, now);
      Fields();
      if tptr == 0 { SetTq(false); }
    }

    /** run_next_on_queue */
    method RunNextOnQueue(now: Word) returns (o: Outcome)
      requires Core(V()) && Hand(V().place, {}) && Timely(V().time, V().timerq, now)
      modifies this`link, this`fptr, this`bptr, this`runq, this`place, this`ptr, this`tlink, this`time, this`tptr, this`tnext,
               this`timerq, this`alt, this`tq, this`wptr, this`ip
      ensures RunsNext(old(V()), V(), o, now)
      ensures Inv(V()) && o != Error && Idle(V(), o)
    {
      hide V, Core, Inv, Synced, Timely, TakeNext, Hand, Idle;
      ghost var k := V();
      Fields();
      if intr {
        SetWptr(0);
        RunsNextInv(k, V(), Interrupted, now);
        return Interrupted;
      }
      if tq { Synchronise(now); } else { NoTimersSynced(k, now); }
      SyncedCore(k, now, {});
      FlagFacts(V());
      FrontFacts(V());
      Fields();
      if fptr != 0 {
        TakeHead();
        o := Continue;
      } else {
        o := if tptr != 0 then Sleep else Empty;
        SetWptr(0);
      }
      RunsNextInv(k, V(), o, now);
    }

    // ------------------------------------------------------------ timer_queue_insert, timer_queue_remove

    /** The search of timer_queue_insert: the entry to insert behind, and the one after it. */
    method FindSlot(t: Word) returns (entry: int, next: int, ghost i: nat)
      requires TimersReady(V()) && timerq != [] && !After(Rd(time, timerq[0]), t)
      ensures var slot := Slot(time, timerq, t);
              && i + 1 == slot && 0 < slot <= |timerq| && entry == timerq[slot - 1]
              && next == if slot < |timerq| then timerq[slot] else 0
    {
      hide V, After, Slot, TimersReady;
      Fields();
      QueueHead(V());
      entry, i := tptr, 0;
      next := Rd(tlink, entry);
      QueueLink(V(), 0);
      while next != 0 && !After(Rd(time, next), t)
        invariant i < |timerq| && entry == timerq[i] && next == if i + 1 < |timerq| then timerq[i + 1] else 0
        invariant forall j: nat | j <= i :: !After(Rd(time, timerq[j]), t)
        decreases |timerq| - i
      {
        entry, i := next, i + 1;
        next := Rd(tlink, entry);
        QueueLink(V(), i);
      }
      if i + 1 < |timerq| { QueueNonZero(V(), i + 1); }
      SlotFound(time, timerq, t, i + 1);
    }

    /** timer_queue_insert */
    method TimerQueueInsert(ws: int, t: Word)
      requires TimersReady(V()) && ws !in V().timerq
      modifies this`tlink, this`tptr, this`tnext, this`tq, this`iptr, this`timerq
      ensures V() == TimerInsert(old(V()), ws, t)
    {
      hide V, After, TimersReady, TimerInsert;
      Fields();
      QueueHead(V());
      if tptr == 0 {
        InsertOnly(ws, t);
      } else if After(tnext, t) {
        InsertInFront(ws, t);
      } else {
        InsertLater(ws, t);
      }
    }

    method InsertOnly(ws: int, t: Word)
      requires V().timerq == []
      modifies this`tlink, this`tptr, this`tnext, this`tq, this`iptr, this`timerq
      ensures V() == TimerInsert(old(V()), ws, t)
    {
      hide V, TimerInsert;
      InsertFirst(V(), ws, t);
      PutOnly(ws, t);
      SetTimerq([ws]);
    }

    method InsertInFront(ws: int, t: Word)
      requires V().timerq != [] && V().tptr == V().timerq[0] && After(Rd(V().time, V().timerq[0]), t)
      modifies this`tlink, this`tptr, this`tnext, this`tq, this`timerq
      ensures V() == TimerInsert(old(V()), ws, t)
    {
      hide V, After, TimerInsert;
      ghost var k := V();
      InsertFront(k, ws, t);
      PutFront(ws, t);
      SetTimerq([ws] + k.timerq);
    }

    method InsertLater(ws: int, t: Word)
      requires TimersReady(V()) && ws !in V().timerq && V().timerq != [] && !After(Rd(V().time, V().timerq[0]), t)
      modifies this`tlink, this`timerq
      ensures V() == TimerInsert(old(V()), ws, t)
    {
      hide V, After, Slot, TimersReady, TimerInsert;
      ghost var k := V();
      Fields();
      var entry, next;
      ghost var i;
      entry, next, i := FindSlot(t);
      InsertBehind(k, ws, t, i);
      SetTlink(ws, next);
      SetTlink(entry, ws);
      SetTimerq(InsertAt(k.timerq, i + 1, ws));
    }

    method PutOnly(ws: int, t: Word)
      modifies this`tlink, this`tptr, this`tnext, this`tq, this`iptr
      ensures var k := old(V());
              V() == k.(tptr := ws, tnext := t, iptr := k.iptr[ws := k.ip], tlink := k.tlink[ws := 0], tq := true)
    {
      hide V;
      SetTptr(ws);
      SetTnext(t);
      Fields();
      SetIptr(ws, ip);
      SetTlink(ws, 0);
      SetTq(true);
    }

    method PutFront(ws: int, t: Word)
      modifies this`tlink, this`tptr, this`tnext, this`tq
      ensures var k := old(V()); V() == k.(tlink := k.tlink[ws := k.tptr], tptr := ws, tnext := t, tq := true)
    {
      hide V;
      Fields();
      SetTlink(ws, tptr);
      SetTptr(ws);
      SetTnext(t);
      SetTq(true);
    }

    /** The search of timer_queue_remove: the entry before ws. */
    method FindBefore(ws: int, ghost i: nat) returns (previous: int)
      requires TimersReady(V()) && 0 < i < |timerq| && timerq[i] == ws
      ensures previous == timerq[i - 1]
    {
      hide V, TimersReady;
      Fields();
      QueueHead(V());
      previous := tptr;
      var current := Rd(tlink, previous);
      QueueLink(V(), 0);
      ghost var j := 0;
      while current != ws
        invariant j < i && previous == timerq[j] && current == timerq[j + 1]
        decreases i - j
      {
        OnlyOnce(V(), i, j + 1);
        previous := current;
        current := Rd(tlink, current);
        j := j + 1;
        QueueLink(V(), j);
      }
      OnlyOnce(V(), i, j + 1);
    }

    /** timer_queue_remove, of an entry of the queue */
    method TimerQueueRemove(ws: int, ghost i: nat)
      requires TimersReady(V()) && i < |V().timerq| && V().timerq[i] == ws
      modifies this`tlink, this`tptr, this`tnext, this`tq, this`timerq
      ensures i < |old(V()).timerq| && V() == TimerRemove(old(V()), i)
    {
      hide V, TimersReady, TimerRemove;
      ghost var k := V();
      Fields();
      QueueHead(k);
      if i > 0 { OnlyOnce(k, i, 0); }
      if tptr == ws {
        RemoveFirst(k);
        DropTimer(ws);
        SetTlink(ws, TIME_NOT_SET);
        SetTimerq(RemoveAt(k.timerq, i));
      } else {
        Unlink(ws, i);
      }
    }

    method Unlink(ws: int, ghost i: nat)
      requires TimersReady(V()) && 0 < i < |V().timerq| && V().timerq[i] == ws
      modifies this`tlink, this`timerq
      ensures i < |old(V()).timerq| && V() == TimerRemove(old(V()), i)
    {
      hide V, TimersReady, TimerRemove;
      ghost var k := V();
      Fields();
      RemoveLater(k, i);
      var previous := FindBefore(ws, i);
      SetTlink(previous, Rd(tlink, ws));
      SetTlink(ws, TIME_NOT_SET);
      SetTimerq(RemoveAt(k.timerq, i));
    }

    method DropTimer(ws: int)
      modifies this`tptr, this`tnext, this`tq
      ensures var k := old(V()); var next := Rd(k.tlink, ws);
              V() == k.(tptr := next, tnext := if next != 0 then Rd(k.time, next) else k.tnext, tq := next != 0 || k.tq)
    {
      hide V;
      Fields();
      var next := Rd(tlink, ws);
      SetTptr(next);
      if next != 0 {
        Fields();
        SetTnext(Rd(time, next));
        SetTq(true);
      }
    }

    // ------------------------------------------------------------ channels

    /** memcpy */
    method CopyBytes(dst: int, src: int, n: nat)
      requires dst + n <= src || src + n <= dst
      modifies this`data
      ensures V() == old(V()).(data := Copy(old(V()).data, dst, src, n))
    {
      hide V;
      ghost var k := V();
      var i := 0;
      while i < n
        invariant 0 <= i <= n && V() == k.(data := Copy(k.data, dst, src, i))
      {
        CopyIs(k.data, dst, src, i);
        Fields();
        SetByte(dst + i, Rd(data, src + i));
        i := i + 1;
      }
    }

    /** The zero bytes a disconnected channel delivers. */
    method ZeroBytes(dst: int, n: nat)
      modifies this`data
      ensures V() == old(V()).(data := Zeroed(old(V()).data, dst, n))
    {
      hide V;
      ghost var k := V();
      Fields();
      var a, len := dst, n;
      while len > 0
        invariant V() == k.(data := V().data) && Zeroed(V().data, a, len) == Zeroed(k.data, dst, n)
      {
        Fields();
        SetByte(a, 0);
        a, len := a + 1, len - 1;
      }
    }

    method SetByte(a: int, v: int)
      modifies this`data
      ensures V() == old(V()).(data := old(V()).data[a := v])
    {
      data := data[a := v];
    }

    /** chan_io stores its state and puts itself into the channel word. */
    method BlockOn(c: int, out: bool, buf: int, len: nat)
      modifies this`ptr, this`link, this`iptr, this`chan, this`place
      ensures V() == Block(old(V()), c, out, buf, len)
    {
      hide V;
      Fields();
      StoreState(buf, if out then 0 - len else len);
      SetChan(c, wptr);
      SetPlace(wptr, Blocked(c, out, buf, len));
    }

    method StoreState(pointer: int, pending: int)
      modifies this`ptr, this`link, this`iptr
      ensures var k := old(V());
              V() == k.(ptr := k.ptr[k.wptr := pointer], link := k.link[k.wptr := pending], iptr := k.iptr[k.wptr := k.ip])
    {
      hide V;
      Fields();
      SetPtr(wptr, pointer);
      SetLink(wptr, pending);
      SetIptr(wptr, ip);
    }

    /** The process in the channel word is ALTing: tell it, and say whether it was waiting. */
    method TellAlter(q: int) returns (waiting: bool, ok: bool)
      requires q in V().place && (Rd(V().ptr, q) == WAITING <==> V().place[q].AltWait? || V().place[q].ExtWait?)
      requires Rd(V().ptr, q) == WAITING || Rd(V().ptr, q) == ENABLING || Rd(V().ptr, q) == READY
      modifies this`ptr, this`place, this`alt
      ensures ok && waiting == (Rd(old(V()).ptr, q) == WAITING) && q in old(V()).place && V() == Mark(old(V()), q)
    {
      hide V, Woken;
      ghost var k := V();
      Fields();
      var state := Rd(ptr, q);
      waiting, ok := state == WAITING, true;
      MarkReady(k, q);
      if state == WAITING || state == ENABLING {
        SetPtr(q, READY);
      } else if state != READY {
        ok := false;
      }
      SetAlt(Woken(k.alt, q));
      if waiting { SetPlace(q, Running); }
    }

    /** chan_std_io */
    method ChannelIo(c: int, out: bool, buf: int, len: nat, later: Word) returns (o: Outcome)
      requires Inv(V()) && IoAllowed(V(), c, out, buf, len, later)
      modifies this`link, this`fptr, this`bptr, this`runq, this`place, this`ptr, this`tlink, this`time, this`tptr, this`tnext,
               this`timerq, this`alt, this`tq, this`wptr, this`ip, this`iptr, this`chan, this`data
      ensures IoStep(old(V()), V(), o, c, out, buf, len, later) && Inv(V()) && o != Error && Idle(V(), o)
    {
      hide V, Core, Inv, Hand, Block, Requeue, Load, Release, RunsNext, Alting, Partner, Moves, Zeroed, Timely, Mark, Idle, Unguarded;
      ghost var k := V();
      Fields();
      CurrentInHand(k);
      var v := Rd(chan, c);
      if v == 0 {
        BlockCore(k, c, out, buf, len);
        BlockPlaces(k, c, out, buf, len);
        BlockOn(c, out, buf, len);
        o := RunNextOnQueue(later);
      } else if v == 1 {
        o := Disconnected(out, buf, len, later);
      } else if v % 2 == 0 {
        EvenWord(k, c, out, buf, len, later);
        Normal(v, c, out, buf, len);
        o := Continue;
      } else {
        OddWord(k, c, out, buf, len, later);
        o := WithAlter(v - 1, c, buf, len, later);
      }
      IoKeeps(k, V(), o, c, out, buf, len, later);
    }

    /** A disconnected channel: zero bytes for an input, nothing for an output. */
    method Disconnected(out: bool, buf: int, len: nat, later: Word) returns (o: Outcome)
      requires Inv(V()) && V().wptr != 0 && OnTime(V(), later)
      modifies this`link, this`fptr, this`bptr, this`runq, this`place, this`ptr, this`tlink, this`time, this`tptr, this`tnext,
               this`timerq, this`alt, this`tq, this`wptr, this`ip, this`iptr, this`data
      ensures RunsNext(Requeue(old(V()).(data := if out then old(V()).data else Zeroed(old(V()).data, buf, len))), V(), o, later)
    {
      hide V, Core, Inv, Hand, Requeue, RunsNext, Zeroed, Timely, Idle;
      ghost var k := V();
      CurrentInHand(k);
      if !out { ZeroBytes(buf, len); }
      ghost var m := V();
      assert m == k.(data := if out then k.data else Zeroed(k.data, buf, len));
      DisconnectedReady(k, m.data);
      DescheduleCurrent();
      o := RunNextOnQueue(later);
    }

    /** The other end q is blocked: move the data, requeue this process, run the other. */
    method Normal(q: int, c: int, out: bool, buf: int, len: nat)
      requires q == Rd(V().chan, c) && Meeting(V(), q, out, buf, len)
      modifies this`link, this`fptr, this`bptr, this`runq, this`place, this`wptr, this`ip, this`iptr, this`chan, this`data
      ensures V() == Load(Requeue(Release(old(V()), q, c, Moves(old(V()), q, out, buf, len))), q)
    {
      hide V, Requeue, Load, Copy;
      ghost var k := V();
      Fields();
      SetChan(c, 0);
      if out { CopyBytes(Rd(ptr, q), buf, len); } else { CopyBytes(buf, Rd(ptr, q), len); }
      SetPlace(q, Running);
      assert V() == Release(k, q, c, Moves(k, q, out, buf, len));
      DescheduleCurrent();
      LoadProcess(q);
    }

    /** An output to an ALTing process. */
    method WithAlter(q: int, c: int, buf: int, len: nat, later: Word) returns (o: Outcome)
      requires Inv(V()) && V().wptr != 0 && V().wptr !in V().alt && OnTime(V(), later)
      requires Rd(V().chan, c) == q + 1 && Alting(V().place, V().alt, q, c)
      modifies this`link, this`fptr, this`bptr, this`runq, this`place, this`ptr, this`tlink, this`time, this`tptr, this`tnext,
               this`timerq, this`alt, this`tq, this`wptr, this`ip, this`iptr, this`chan
      ensures var k := old(V());
              && q in k.place
              && if Rd(k.ptr, q) == WAITING then o == Continue && V() == Load(Signal(k, q, c, buf, len), q)
                 else RunsNext(Signal(k, q, c, buf, len), V(), o, later)
    {
      hide V, Core, Inv, Hand, Block, Load, RunsNext, Alting, Timely, Mark, Idle;
      ghost var k := V();
      CurrentInHand(k);
      AlterState(k, q, c);
      SignalCore(k, q, c, buf, len);
      SignalPlaces(k, q, c, buf, len);
      var waiting, ok := TellAlter(q);
      BlockOn(c, true, buf, len);
      if waiting {
        LoadProcess(q);
        o := Continue;
      } else {
        o := RunNextOnQueue(later);
      }
    }

    // ------------------------------------------------------------ alternatives

    /** alt */
    method Alt()
      requires Inv(V()) && AltStartAllowed(V())
      modifies this
      ensures V() == StartAlt(old(V()), false) && Inv(V())
    {
      hide V, Inv, InHand;
      ghost var k := V();
      Fields();
      SetPtr(wptr, ENABLING);
      SetAlt(k.alt[k.wptr := KernelState.Alt(false, Enabling, multiset{})]);
      AltStartKeeps(k, V(), false);
    }

    /** talt */
    method TimedAlt()
      requires Inv(V()) && AltStartAllowed(V())
      modifies this
      ensures V() == StartAlt(old(V()), true) && Inv(V())
    {
      hide V, Inv, InHand;
      ghost var k := V();
      Fields();
      SetPtr(wptr, ENABLING);
      SetTlink(wptr, TIME_NOT_SET);
      SetAlt(k.alt[k.wptr := KernelState.Alt(true, Enabling, multiset{})]);
      AltStartKeeps(k, V(), true);
    }

    /** enbc */
    method EnableChannel(guard: bool, c: int)
      requires Inv(V()) && (guard ==> EnableAllowed(V(), ChanGuard(c)))
      modifies this
      ensures guard ==> V() == EnableChan(old(V()), c)
      ensures !guard ==> V() == old(V())
      ensures Inv(V())
    {
      hide V, Inv, InHand, More, EnableAllowed;
      if guard {
        ghost var k := V();
        ChannelGuard(c);
        EnableKeeps(k, V(), ChanGuard(c));
      }
    }

    method ChannelGuard(c: int)
      requires EnableAllowed(V(), ChanGuard(c))
      modifies this
      ensures V() == EnableChan(old(V()), c)
    {
      hide V, InHand, More;
      ghost var k := V();
      NoteGuard(c);
      SetAlt(More(k, ChanGuard(c)));
    }

    /** An empty channel takes the mark; somebody else there makes the ALT ready. */
    method NoteGuard(c: int)
      modifies this`chan, this`ptr
      ensures var k := old(V()); var v := Rd(k.chan, c);
              V() == k.(chan := if v == 0 then k.chan[c := k.wptr + 1] else k.chan,
                        ptr := if v != 0 && v != k.wptr + 1 then k.ptr[k.wptr := READY] else k.ptr)
    {
      hide V;
      Fields();
      var v := Rd(chan, c);
      if v == 0 {
        SetChan(c, wptr + 1);
      } else if v != wptr + 1 {
        SetPtr(wptr, READY);
      }
    }

    /** enbs */
    method EnableSkipGuard(guard: bool)
      requires Inv(V()) && (guard ==> EnableAllowed(V(), SkipGuard))
      modifies this
      ensures guard ==> V() == EnableSkip(old(V()))
      ensures !guard ==> V() == old(V())
      ensures Inv(V())
    {
      hide V, Inv, InHand, More;
      ghost var k := V();
      Fields();
      if guard {
        SetPtr(wptr, READY);
        SetAlt(More(k, SkipGuard));
        EnableKeeps(k, V(), SkipGuard);
      }
    }

    /** enbt */
    method EnableTimeout(guard: bool, t: Word)
      requires Inv(V()) && (guard ==> EnableAllowed(V(), TimerGuard(t)))
      modifies this
      ensures guard ==> V() == EnableTimer(old(V()), t)
      ensures !guard ==> V() == old(V())
      ensures Inv(V())
    {
      hide V, Inv, InHand, More, EnableAllowed;
      if guard {
        ghost var k := V();
        TimeoutGuard(t);
        EnableKeeps(k, V(), TimerGuard(t));
      }
    }

    method TimeoutGuard(t: Word)
      requires EnableAllowed(V(), TimerGuard(t))
      modifies this
      ensures V() == EnableTimer(old(V()), t)
    {
      hide V, InHand, More, After;
      ghost var k := V();
      NoteTimeout(t);
      SetAlt(More(k, TimerGuard(t)));
    }

    /** WS_TIME is the earliest timeout so far. */
    method NoteTimeout(t: Word)
      modifies this`tlink, this`time
      ensures var k := old(V()); var unset := Rd(k.tlink, k.wptr) == TIME_NOT_SET;
              V() == k.(tlink := if unset then k.tlink[k.wptr := TIME_SET] else k.tlink,
                        time := if unset || After(Rd(k.time, k.wptr), t) then k.time[k.wptr := t] else k.time)
    {
      hide V, After;
      Fields();
      if Rd(tlink, wptr) == TIME_NOT_SET {
        SetTlink(wptr, TIME_SET);
        SetTime(wptr, t);
      } else if After(Rd(time, wptr), t) {
        SetTime(wptr, t);
      }
    }

    /** altwt */
    method AltWait(later: Word) returns (o: Outcome)
      requires Inv(V()) && WaitAllowed(V(), later)
      modifies this
      ensures WaitStep(old(V()), V(), o, later) && Inv(V()) && o != Error && Idle(V(), o)
    {
      hide V, Inv, Core, InHand, Hand, Timely, RunsNext, Idle, NextPhase, SleepAlt, Proceed;
      ghost var k := V();
      CurrentInHand(k);
      Fields();
      SetTemp(wptr, NONE_SELECTED);
      Fields();
      if Rd(ptr, wptr) == READY {
        SetAlt(NextPhase(k, Disabling));
        ProceedIs(k, k.time);
        o := Continue;
      } else {
        UntimedLeft(k);
        SleepAltCore(k);
        SleepAltPlaces(k);
        ToSleep(k);
        o := RunNextOnQueue(later);
      }
      WaitKeeps(k, V(), o, later);
    }

    /** The process waits for one of its guards. */
    method ToSleep(ghost k: K)
      requires V().wptr == k.wptr && k.wptr in k.alt
      requires V() == k.(temp := V().temp) && V().temp == k.temp[k.wptr := NONE_SELECTED]
      modifies this
      ensures V() == SleepAlt(k)
    {
      hide V, NextPhase;
      Fields();
      SetPtr(wptr, WAITING);
      Fields();
      SetIptr(wptr, ip);
      SetPlace(wptr, Place.AltWait);
      SetAlt(NextPhase(k, Waiting));
    }

    /** taltwt */
    method TimedAltWait(now: Word, later: Word) returns (o: Outcome)
      requires Inv(V()) && TimedWaitAllowed(V(), now, later)
      modifies this
      ensures TimedWaitStep(old(V()), V(), o, now, later) && Inv(V()) && o != Error && Idle(V(), o)
    {
      hide V, Inv, Core, InHand, Hand, RunsNext, Idle, SleepAlt, SleepTimed, Proceed, After, TimedWaitStep, NoTimers, TimedWaitAllowed;
      ghost var k := V();
      TimedFacts(k, now, later);
      Fields();
      if Rd(ptr, wptr) == READY {
        GoOn(now);
        ReadyStep(k, V(), now, later);
        o := Continue;
      } else if Rd(tlink, wptr) != TIME_NOT_SET {
        if After(now, Rd(time, wptr)) {
          Overdue(now);
          OverdueStep(k, V(), now, later);
          o := Continue;
        } else {
          o := WaitTimed(now, later);
          UntilStep(k, V(), o, now, later);
        }
      } else {
        o := WaitUntimed(now, later);
        NoTimeoutStep(k, V(), o, now, later);
      }
      TimedWaitKeeps(k, V(), o, now, later);
    }

    /** The earliest timeout has passed already. */
    method Overdue(now: Word)
      requires V().wptr in V().alt
      modifies this
      ensures var k := old(V()).(ptr := old(V()).ptr[old(V()).wptr := READY]);
              k.wptr in k.alt && V() == Proceed(k, k.time[k.wptr := now])
    {
      hide V, Proceed;
      Fields();
      SetPtr(wptr, READY);
      GoOn(now);
    }

    method WaitTimed(now: Word, later: Word) returns (o: Outcome)
      requires Inv(V()) && TimedWaitAllowed(V(), now, later) && !GoesOn(V(), now) && Rd(V().tlink, V().wptr) != TIME_NOT_SET
      modifies this
      ensures old(V()).wptr in old(V()).alt && RunsNext(SleepTimed(old(V())), V(), o, later)
    {
      hide V, Inv, Core, InHand, Hand, Timely, RunsNext, Idle, SleepTimed, NoTimers;
      ghost var k := V();
      TimedFacts(k, now, later);
      SleepTimedCore(k);
      SleepTimedPlaces(k);
      Fields();
      SleepUntil(Add(Rd(time, wptr), 1));
      o := RunNextOnQueue(later);
    }

    method WaitUntimed(now: Word, later: Word) returns (o: Outcome)
      requires Inv(V()) && TimedWaitAllowed(V(), now, later) && !GoesOn(V(), now) && Rd(V().tlink, V().wptr) == TIME_NOT_SET
      modifies this
      ensures old(V()).wptr in old(V()).alt && RunsNext(SleepAlt(old(V())), V(), o, later)
    {
      hide V, Inv, Core, InHand, Hand, Timely, RunsNext, Idle, SleepAlt, NoTimers;
      ghost var k := V();
      TimedFacts(k, now, later);
      SleepAltCore(k);
      SleepAltPlaces(k);
      Fields();
      SetTemp(wptr, NONE_SELECTED);
      ToSleep(k);
      o := RunNextOnQueue(later);
    }

    /** A ready timed ALT notes the time and goes on to disable its guards. */
    method GoOn(now: Word)
      requires V().wptr in V().alt && Rd(V().ptr, V().wptr) == READY
      modifies this
      ensures var k := old(V()); k.wptr in k.alt && V() == Proceed(k, k.time[k.wptr := now])
    {
      hide V, NextPhase;
      ghost var k := V();
      Fields();
      ProceedIs(k, k.time[k.wptr := now]);
      SetTemp(wptr, NONE_SELECTED);
      Fields();
      SetTime(wptr, now);
      SetAlt(NextPhase(k, Disabling));
    }

    /** The process goes on the timer queue and waits for one of its guards. */
    method SleepUntil(timeout: Word)
      requires Core(V()) && InAlt(V(), Enabling) && timeout == Add(Rd(V().time, V().wptr), 1)
      modifies this
      ensures var k := old(V()); k.wptr in k.alt && V() == SleepTimed(k)
    {
      hide V, Core, InHand, NextPhase, SleepAlt, TimerInsert;
      ghost var k := V();
      Fields();
      SetTemp(wptr, NONE_SELECTED);
      Fields();
      SetTime(wptr, timeout);
      SleepQueue(k, timeout);
      Fields();
      TimerQueueInsert(wptr, timeout);
      ToSleep(TimerInsert(k.(time := k.time[k.wptr := timeout]), k.wptr, timeout));
    }

    /** disc */
    method DisableChannel(guard: bool, c: int, process: int) returns (fired: bool)
      requires Inv(V()) && (guard ==> DisableAllowed(V(), ChanGuard(c), process))
      modifies this
      ensures guard ==> V() == DisableChan(old(V()), c, process)
      ensures !guard ==> V() == old(V())
      ensures fired == (guard && Chooses(old(V()), ChanGuard(c))) && Inv(V())
    {
      hide V, Inv, InHand, Less, DisableAllowed;
      fired := false;
      if guard {
        ghost var k := V();
        fired := ChannelUnguard(c, process);
        DisableKeeps(k, V(), ChanGuard(c), process);
      }
    }

    method ChannelUnguard(c: int, process: int) returns (fired: bool)
      requires DisableAllowed(V(), ChanGuard(c), process)
      modifies this
      ensures V() == DisableChan(old(V()), c, process) && fired == Chooses(old(V()), ChanGuard(c))
    {
      hide V, InHand, Less, Select;
      ghost var k := V();
      fired := TakeMark(c, process);
      SetAlt(Less(k, ChanGuard(c)));
    }

    /** The mark is taken off the channel; somebody else there is a fired guard. */
    method TakeMark(c: int, process: int) returns (fired: bool)
      modifies this`chan, this`temp
      ensures var k := old(V()); var v := Rd(k.chan, c);
              && V() == k.(chan := if v == k.wptr + 1 then k.chan[c := 0] else k.chan,
                           temp := Select(k, v != 0 && v != k.wptr + 1, process))
              && fired == Chooses(k, ChanGuard(c))
    {
      hide V;
      Fields();
      fired := false;
      var v := Rd(chan, c);
      if v == wptr + 1 {
        SetChan(c, 0);
      } else if v != 0 {
        fired := TakeBranch(process);
      }
    }

    /** The first guard to be found fired is selected. */
    method TakeBranch(process: int) returns (fired: bool)
      modifies this`temp
      ensures var k := old(V()); V() == k.(temp := Select(k, true, process)) && fired == (Rd(k.temp, k.wptr) == NONE_SELECTED)
    {
      hide V;
      Fields();
      fired := Rd(temp, wptr) == NONE_SELECTED;
      if fired { SetTemp(wptr, process); }
    }

    /** diss */
    method DisableSkipGuard(guard: bool, process: int) returns (fired: bool)
      requires Inv(V()) && (guard ==> DisableAllowed(V(), SkipGuard, process))
      modifies this
      ensures guard ==> V() == DisableSkip(old(V()), process)
      ensures !guard ==> V() == old(V())
      ensures fired == (guard && Chooses(old(V()), SkipGuard)) && Inv(V())
    {
      hide V, Inv, InHand, Less, Select;
      fired := false;
      if guard {
        ghost var k := V();
        fired := TakeBranch(process);
        SetAlt(Less(k, SkipGuard));
        DisableKeeps(k, V(), SkipGuard, process);
      }
    }

    /** dist */
    method DisableTimeout(guard: bool, t: Word, process: int) returns (fired: bool)
      requires Inv(V()) && (guard ==> DisableAllowed(V(), TimerGuard(t), process))
      modifies this
      ensures guard ==> old(V()).wptr in old(V()).alt && DisableStep(old(V()), V(), TimerGuard(t), process)
      ensures !guard ==> V() == old(V())
      ensures fired == (guard && Chooses(old(V()), TimerGuard(t))) && Inv(V())
    {
      hide V, Inv, Core, Hand, InHand, Less, Fires, CancelTimer, DisableTimer;
      fired := false;
      if guard {
        ghost var k := V();
        CurrentInHand(k);
        TimeoutPlace(k, t, process);
        Fields();
        var link := Rd(tlink, wptr);
        if link == TIME_SET || link == TIME_NOT_SET {
          fired := TimeoutUnguard(t, process);
        } else {
          ghost var i: nat :| i < |k.timerq| && k.timerq[i] == k.wptr;
          LeaveTimers(t, i);
        }
        DisableKeeps(k, V(), TimerGuard(t), process);
      }
    }

    /** dist when the timer queue has been left, or never joined. */
    method TimeoutUnguard(t: Word, process: int) returns (fired: bool)
      requires V().wptr in V().alt
      modifies this
      ensures old(V()).wptr in old(V()).alt && V() == DisableTimer(old(V()), t, process) && fired == Chooses(old(V()), TimerGuard(t))
    {
      hide V, Less, After;
      ghost var k := V();
      Fields();
      fired := false;
      if Rd(tlink, wptr) == TIME_SET && !After(t, Rd(time, wptr)) {
        fired := TakeBranch(process);
      }
      SetAlt(Less(k, TimerGuard(t)));
    }

    /** dist when the process is still on the timer queue. */
    method LeaveTimers(t: Word, ghost i: nat)
      requires V().wptr in V().alt && TimersReady(V()) && i < |V().timerq| && V().timerq[i] == V().wptr
      modifies this
      ensures var k := old(V()); k.wptr in k.alt && i < |k.timerq| && V() == CancelTimer(k, i, t)
    {
      hide V, Less, TimersReady, TimerRemove;
      ghost var k := V();
      Fields();
      TimerQueueRemove(wptr, i);
      SetAlt(Less(k, TimerGuard(t)));
    }

    /** altend */
    method AltEnd() returns (o: Outcome)
      requires Inv(V()) && V().wptr != 0 && InAlt(V(), Disabling) && V().alt[V().wptr].left == multiset{}
      modifies this
      ensures AltEndStep(old(V()), V(), o) && o == Continue && Inv(V())
    {
      hide V, Inv, InHand;
      ghost var k := V();
      Fields();
      var selection := Rd(temp, wptr);
      if selection != NONE_SELECTED {
        SetIp(ip + selection);
        SetAlt(k.alt - {k.wptr});
        o := Continue;
      } else {
        o := Error;
      }
      AltEndKeeps(k, V(), o);
    }

    // ------------------------------------------------------------ tin

    /** tin */
    method TimerInput(t: Word, now: Word, later: Word) returns (o: Outcome)
      requires Inv(V()) && TinAllowed(V(), t, now, later)
      modifies this
      ensures TinStep(old(V()), V(), o, t, now, later) && Inv(V()) && o != Error && Idle(V(), o)
    {
      hide V, Inv, Core, Hand, InHand, Timely, RunsNext, Idle, WaitTime, After;
      ghost var k := V();
      CurrentInHand(k);
      if After(now, t) {
        o := Continue;
      } else {
        WaitTimeCore(k, t);
        WaitTimePlaces(k, t);
        WaitUntil(t);
        o := RunNextOnQueue(later);
      }
      TinKeeps(k, V(), o, t, now, later);
    }

    method WaitUntil(t: Word)
      requires Core(V()) && InHand(V(), V().wptr) && V().wptr !in V().alt
      modifies this
      ensures V() == WaitTime(old(V()), t)
    {
      hide V, Core, TimerInsert;
      ghost var k := V();
      Fields();
      SetTime(wptr, t);
      Fields();
      SetIptr(wptr, ip);
      TinQueue(k, t);
      Fields();
      TimerQueueInsert(wptr, t);
      Fields();
      InsertKeepsWptr(k.(time := k.time[k.wptr := t], iptr := k.iptr[k.wptr := k.ip]), k.wptr, t);
      SetPtr(wptr, 0);
      SetPlace(wptr, TimerWait);
    }

    // ------------------------------------------------------------ semaphores

    /** tvm_sem_init */
    method SemInit(x: int)
      requires Inv(V()) && InitAllowed(V(), x)
      modifies this
      ensures V() == NewSem(old(V()), x) && Inv(V())
    {
      hide V, Inv;
      ghost var k := V();
      Fields();
      SetSem(x, Semaphore(1, 0));
      SetWaitq(k.waitq[x := []]);
      SetHolder(k.holder[x := 0]);
      SemInitKeeps(k, V(), x);
    }

    method SetSem(x: int, s: Semaphore)
      modifies this`sem
      ensures V() == old(V()).(sem := old(V()).sem[x := s])
    {
      sem := sem[x := s];
    }

    /** tvm_sem_claim */
    method SemClaim(x: int, later: Word) returns (o: Outcome)
      requires Inv(V()) && ClaimAllowed(V(), x, later)
      modifies this
      ensures x in old(V()).sem && x in old(V()).waitq && ClaimStep(old(V()), V(), o, x, later)
      ensures Inv(V()) && o != Error && Idle(V(), o)
    {
      hide V, Inv, Core, Hand, InHand, Timely, RunsNext, Idle, ClaimBusy;
      ghost var k := V();
      CurrentInHand(k);
      Fields();
      if sem[x].fptr == 1 {
        SetSem(x, sem[x].(fptr := 0));
        SetHolder(k.holder[x := k.wptr]);
        o := Continue;
      } else {
        ClaimBusyCore(k, x);
        ClaimPlaces(k, x);
        JoinSemaphore(x);
        o := RunNextOnQueue(later);
      }
      ClaimKeeps(k, V(), o, x, later);
    }

    /** The current process goes behind the last one in the queue. */
    method JoinSemaphore(x: int)
      requires x in V().sem && x in V().waitq
      modifies this
      ensures x in old(V()).sem && x in old(V()).waitq && V() == ClaimBusy(old(V()), x)
    {
      hide V;
      ghost var k := V();
      Fields();
      SetIptr(wptr, ip);
      LinkSemaphore(x);
      SetPlace(k.wptr, InQueue(x));
      SetWaitq(k.waitq[x := k.waitq[x] + [k.wptr]]);
    }

    method LinkSemaphore(x: int)
      requires x in V().sem
      modifies this`link, this`sem
      ensures var k := old(V());
              && x in k.sem
              && V() == k.(link := Behind(k.link, k.sem[x].fptr, k.sem[x].bptr, k.wptr),
                           sem := k.sem[x := Semaphore(if k.sem[x].fptr == 0 then k.wptr else k.sem[x].fptr, k.wptr)])
    {
      hide V;
      Fields();
      SetLink(wptr, 0);
      Fields();
      var s := sem[x];
      if s.fptr == 0 {
        SetSem(x, Semaphore(wptr, wptr));
      } else {
        SetLink(s.bptr, wptr);
        SetSem(x, s.(bptr := wptr));
      }
    }

    /** tvm_sem_release */
    method SemRelease(x: int)
      requires Inv(V()) && ReleaseAllowed(V(), x)
      modifies this
      ensures x in old(V()).sem && x in old(V()).waitq && ReleaseStep(old(V()), V(), x) && Inv(V())
    {
      hide V, Inv, Core, Hand, InHand, Enqueue;
      ghost var k := V();
      CurrentInHand(k);
      FreeIsFree(k, x);
      Fields();
      if sem[x].fptr == 0 {
        SetSem(x, sem[x].(fptr := 1));
        SetHolder(k.holder[x := 0]);
      } else {
        var head := sem[x].fptr;
        PassOn(x, head);
        AddToQueue(head);
      }
      ReleaseKeeps(k, V(), x);
    }

    /** The next in the queue becomes its front, and the one at the front the holder. */
    method PassOn(x: int, head: int)
      requires x in V().sem && x in V().waitq && V().waitq[x] != [] && head == V().sem[x].fptr
      modifies this
      ensures var k := old(V()); x in k.sem && x in k.waitq && k.waitq[x] != [] && V() == HandOver(k, x)
    {
      hide V;
      ghost var k := V();
      Fields();
      SetSem(x, sem[x].(fptr := Rd(link, head)));
      SetWaitq(k.waitq[x := k.waitq[x][1..]]);
      SetHolder(k.holder[x := head]);
      SetPlace(head, Running);
    }

    // ------------------------------------------------------------ barriers

    method SetBar(x: int, b: Barrier)
      modifies this`bar
      ensures V() == old(V()).(bar := old(V()).bar[x := b])
    {
      bar := bar[x := b];
    }

    /** tvm_bar_init */
    method BarInit(x: int, n: Word)
      requires Inv(V()) && InitAllowed(V(), x)
      modifies this
      ensures V() == NewBar(old(V()), x, n) && Inv(V())
    {
      hide V, Inv;
      ghost var k := V();
      Fields();
      SetBar(x, Barrier(n, n, 0, 0));
      SetWaitq(k.waitq[x := []]);
      BarInitKeeps(k, V(), x, n);
    }

    /** tvm_bar_sync */
    method BarSync(x: int, later: Word) returns (o: Outcome)
      requires Inv(V()) && SyncAllowed(V(), x, later)
      modifies this
      ensures x in old(V()).bar && x in old(V()).waitq && SyncStep(old(V()), V(), o, x, later)
      ensures Inv(V()) && o != Error && Idle(V(), o)
    {
      hide V, Inv, Core, Hand, InHand, Timely, RunsNext, Idle, SyncWait, KernelObjects.Complete;
      ghost var k := V();
      CurrentInHand(k);
      Fields();
      if bar[x].count > 1 {
        SyncWaitCore(k, x);
        SyncPlaces(k, x);
        JoinBarrier(x);
        o := RunNextOnQueue(later);
      } else {
        BarComplete(x, bar[x].enrolled);
        o := Continue;
      }
      SyncKeeps(k, V(), o, x, later);
    }

    /** The current process is queued on the barrier, and linked back to the one before it. */
    method JoinBarrier(x: int)
      requires x in V().bar && x in V().waitq && V().bar[x].count > 1
      modifies this
      ensures var k := old(V()); x in k.bar && x in k.waitq && k.bar[x].count > 1 && V() == SyncWait(k, x)
    {
      hide V;
      ghost var k := V();
      Fields();
      SetIptr(wptr, ip);
      LinkBarrier(x);
      SetPlace(k.wptr, InQueue(x));
      SetWaitq(k.waitq[x := k.waitq[x] + [k.wptr]]);
    }

    method LinkBarrier(x: int)
      requires x in V().bar && V().bar[x].count > 1
      modifies this`link, this`bar
      ensures var k := old(V());
              && x in k.bar && k.bar[x].count > 1
              && V() == k.(link := BarBehind(k.link, k.bar[x].bptr, k.wptr),
                           bar := k.bar[x := Barrier(k.bar[x].enrolled, k.bar[x].count - 1,
                                                     if k.bar[x].bptr == 0 then k.wptr else k.bar[x].fptr, k.wptr)])
    {
      hide V;
      Fields();
      var b := bar[x];
      SetLink(wptr, b.bptr);
      if b.bptr == 0 {
        SetBar(x, Barrier(b.enrolled, b.count - 1, wptr, wptr));
      } else {
        SetLink(b.bptr, wptr);
        SetBar(x, Barrier(b.enrolled, b.count - 1, b.fptr, wptr));
      }
    }

    /** tvm_bar_complete, of a barrier with e processes enrolled */
    method BarComplete(x: int, e: Word)
      requires x in V().bar && x in V().waitq
      modifies this
      ensures var k := old(V()); x in k.bar && x in k.waitq && V() == KernelObjects.Complete(k, x, e)
    {
      hide V, AppendLink, SetQueued;
      ghost var k := V();
      Fields();
      var b := bar[x];
      SetBar(x, Barrier(e, e, 0, 0));
      AddQueueToQueue(b.fptr, b.bptr);
      SetWaitq(k.waitq[x := []]);
      SetRunq(k.runq + k.waitq[x]);
      SetPlaces(SetQueued(k.place, k.waitq[x]));
    }

    /** add_queue_to_queue, of a queue that may be empty */
    method AddQueueToQueue(front: int, back: int)
      modifies this`link, this`fptr, this`bptr
      ensures var k := old(V());
              V() == k.(link := if front == 0 then k.link else AppendLink(k.link, k.fptr, k.bptr, front, back),
                        fptr := if front != 0 && k.fptr == 0 then front else k.fptr, bptr := if front != 0 then back else k.bptr)
    {
      hide V, AppendLink;
      if front != 0 {
        LinkQueue(front, back);
        SetBptr(back);
      }
    }

    method LinkQueue(front: int, back: int)
      modifies this`link, this`fptr
      ensures var k := old(V());
              V() == k.(link := AppendLink(k.link, k.fptr, k.bptr, front, back), fptr := if k.fptr == 0 then front else k.fptr)
    {
      hide V;
      SetLink(back, 0);
      Fields();
      if fptr == 0 {
        SetFptr(front);
      } else {
        SetLink(bptr, front);
      }
    }

    /** tvm_bar_enroll */
    method BarEnroll(x: int, n: Word) returns (o: Outcome)
      requires Inv(V()) && V().wptr != 0 && x in V().bar
      modifies this
      ensures x in old(V()).bar && EnrolStep(old(V()), V(), o, x, n) && Inv(V())
    {
      hide V, Inv, Core, Hand, InHand;
      ghost var k := V();
      CurrentInHand(k);
      EnrolFits(k, x, n);
      Fields();
      var b := bar[x];
      if Add(b.enrolled, n) < b.enrolled {
        o := Error;
      } else {
        SetBar(x, b.(enrolled := Add(b.enrolled, n), count := Add(b.count, n)));
        o := Continue;
      }
      EnrolKeeps(k, V(), o, x, n);
    }

    /** tvm_bar_resign */
    method BarResign(x: int, n: Word) returns (o: Outcome)
      requires Inv(V()) && V().wptr != 0 && x in V().bar && x in V().waitq
      modifies this
      ensures x in old(V()).bar && x in old(V()).waitq && ResignStep(old(V()), V(), o, x, n) && Inv(V())
    {
      hide V, Inv, KernelObjects.Complete;
      ghost var k := V();
      Fields();
      var b := bar[x];
      if n > b.enrolled || n > b.count {
        o := Error;
      } else {
        var count := b.count - n;
        if count >= 1 {
          SetBar(x, b.(enrolled := b.enrolled - n, count := count));
        } else {
          BarComplete(x, b.enrolled - n);
        }
        o := Continue;
      }
      ResignKeeps(k, V(), o, x, n);
    }

    // ------------------------------------------------------------ processes

    /** startp */
    method StartProcess(ws: int, entry: int)
      requires Inv(V()) && StartAllowed(V(), ws)
      modifies this
      ensures V() == Started(old(V()), ws, old(V()).iptr[ws := entry]) && Inv(V())
    {
      hide V, Inv, Enqueue;
      ghost var k := V();
      SetIptr(ws, entry);
      SetPlace(ws, Running);
      AddToQueue(ws);
      StartKeeps(k, V(), ws, k.iptr[ws := entry]);
    }

    /** runp */
    method RunProcess(ws: int)
      requires Inv(V()) && StartAllowed(V(), ws)
      modifies this
      ensures V() == Started(old(V()), ws, old(V()).iptr) && Inv(V())
    {
      hide V, Inv, Enqueue;
      ghost var k := V();
      SetPlace(ws, Running);
      AddToQueue(ws);
      StartKeeps(k, V(), ws, k.iptr);
    }

    /** stopp */
    method StopProcess(later: Word) returns (o: Outcome)
      requires Inv(V()) && YieldAllowed(V(), later)
      modifies this
      ensures RunsNext(Stopped(old(V())), V(), o, later) && Inv(V()) && o != Error && Idle(V(), o)
    {
      hide V, Inv, Core, Hand, InHand, Timely, RunsNext, Idle;
      ghost var k := V();
      StoppedReady(k);
      Fields();
      SetIptr(wptr, ip);
      SetPlace(wptr, Dormant);
      o := RunNextOnQueue(later);
    }

    /** The words of a PAR, stored before its branches are started. */
    method StartPar(ws: int, count: Word, resume: int)
      requires Inv(V()) && V().wptr != 0
      modifies this
      ensures V() == ParStarted(old(V()), ws, count, resume) && Inv(V())
    {
      hide V, Inv;
      ghost var k := V();
      StorePar(ws, count, resume);
      ParKeeps(k, V(), ws, count, resume);
    }

    method StorePar(ws: int, count: Word, resume: int)
      modifies this`par
      ensures V() == ParStarted(old(V()), ws, count, resume)
    {
      par := par[ws := Par(resume, count)];
    }

    /** endp */
    method EndProcess(ws: int, later: Word) returns (o: Outcome)
      requires Inv(V()) && EndAllowed(V(), ws, later)
      modifies this
      ensures ws in old(V()).par && EndStep(old(V()), V(), o, ws, later) && Inv(V()) && o != Error && Idle(V(), o)
    {
      hide V, Inv, Core, Hand, InHand, Timely, RunsNext, Idle, Joined, Ended;
      ghost var k := V();
      Fields();
      if par[ws].count == 1 {
        GoOnAsParent(ws);
        o := Continue;
      } else {
        EndedReady(k, ws);
        CountDown(ws);
        o := RunNextOnQueue(later);
      }
      EndKeeps(k, V(), o, ws, later);
    }

    method SetPar(ws: int, count: Word)
      requires ws in V().par
      modifies this`par
      ensures ws in old(V()).par && V() == old(V()).(par := old(V()).par[ws := old(V()).par[ws].(count := count)])
    {
      par := par[ws := par[ws].(count := count)];
    }

    /** The last branch of a PAR goes on as the parent. */
    method GoOnAsParent(ws: int)
      requires ws in V().par
      modifies this
      ensures ws in old(V()).par && V() == Joined(old(V()), ws)
    {
      hide V;
      Fields();
      SetPlace(wptr, Dormant);
      SetPlace(ws, Running);
      SetPar(ws, 0);
      Fields();
      SetIp(par[ws].resume);
      SetWptr(ws);
    }

    /** Another branch still runs. */
    method CountDown(ws: int)
      requires ws in V().par
      modifies this
      ensures ws in old(V()).par && V() == Ended(old(V()), ws)
    {
      hide V;
      Fields();
      SetPar(ws, Sub(par[ws].count, 1));
      SetPlace(wptr, Dormant);
    }

    /** reschedule */
    method Reschedule(later: Word) returns (o: Outcome)
      requires Inv(V()) && V().wptr != 0 && OnTime(V(), later)
      modifies this
      ensures RunsNext(Requeue(old(V())), V(), o, later) && Inv(V()) && o != Error && Idle(V(), o)
    {
      hide V, Inv, Core, Hand, InHand, Timely, RunsNext, Idle, Requeue;
      ghost var k := V();
      RequeueReady(k);
      DescheduleCurrent();
      o := RunNextOnQueue(later);
    }

    // ------------------------------------------------------------ extended input

    /** xable */
    method ExtendedEnable(c: int, later: Word) returns (o: Outcome)
      requires Inv(V()) && YieldAllowed(V(), later)
      modifies this
      ensures ExtendedStep(old(V()), V(), o, c, later) && Inv(V()) && o != Error && Idle(V(), o)
    {
      hide V, Inv, Core, Hand, InHand, Timely, RunsNext, Idle, ExtendedWait;
      ghost var k := V();
      CurrentInHand(k);
      Fields();
      if Rd(chan, c) == 0 {
        ExtendedWaitCore(k, c);
        ExtendedPlaces(k, c);
        WaitExtended(c);
        o := RunNextOnQueue(later);
      } else {
        o := Continue;
      }
      ExtendedKeeps(k, V(), o, c, later);
    }

    method WaitExtended(c: int)
      modifies this
      ensures V() == ExtendedWait(old(V()), c)
    {
      hide V;
      Fields();
      StoreState(WAITING, c);
      SetChan(c, wptr + 1);
      SetPlace(wptr, ExtWait(c));
    }

    /** xin */
    method ExtendedInput(c: int, buf: int, len: nat, later: Word) returns (o: Outcome)
      requires Inv(V()) && ExtendedInAllowed(V(), c, buf, len, later)
      modifies this
      ensures ExtendedInStep(old(V()), V(), o, c, buf, len, later) && Inv(V()) && o != Error && Idle(V(), o)
    {
      hide V, Inv, Core, Hand, InHand, Timely, RunsNext, Idle, Requeue, Zeroed, Moves, Partner;
      ghost var k := V();
      CurrentInHand(k);
      Fields();
      var v := Rd(chan, c);
      if v == 1 {
        o := Disconnected(false, buf, len, later);
      } else {
        ExtendedMeeting(k, c, buf, len, later);
        SetChan(c, 0);
        Fields();
        CopyBytes(buf, Rd(ptr, v), len);
        SetChan(c, v);
        ExtendedMoves(k, c, buf, len);
        o := Continue;
      }
      ExtendedInKeeps(k, V(), o, c, buf, len, later);
    }

    /** xend */
    method ExtendedEnd(c: int)
      requires Inv(V()) && ExtendedEndAllowed(V(), c)
      modifies this
      ensures ExtendedEndStep(old(V()), V(), c) && Inv(V())
    {
      hide V, Inv, Enqueue, Unguarded;
      ghost var k := V();
      Fields();
      var v := Rd(chan, c);
      if v != 1 {
        SetChan(c, 0);
        SetPlace(v, Running);
        AddToQueue(v);
      }
      ExtendedEndKeeps(k, V(), c);
    }

    // ------------------------------------------------------------ one instruction

    /** Each instruction takes the step of the model that stands for it. */
    method Execute(e: R.Event) returns (o: Outcome)
      requires Inv(V()) && R.Allowed(V(), e)
      modifies this
      ensures R.Allowed(old(V()), e) && R.Step(old(V()), e, V(), o) && Inv(V()) && Idle(V(), o)
    {
      hide V, Inv, Idle, IoAllowed, AltStartAllowed, EnableAllowed, WaitAllowed, TimedWaitAllowed, DisableAllowed, TinAllowed,
           InitAllowed, ClaimAllowed, ReleaseAllowed, SyncAllowed, StartAllowed, EndAllowed, YieldAllowed, ExtendedInAllowed,
           ExtendedEndAllowed, IoStep, WaitStep, TimedWaitStep, TinStep, ClaimStep, ReleaseStep, SyncStep, EndStep,
           RunsNext, ExtendedStep, ExtendedInStep, ExtendedEndStep, NewSem, NewBar, StartAlt, Started, Stopped, Requeue, OnTime,
           InAlt, EnrolStep, ResignStep, EnableStep, DisableStep, AltEndStep;
      ghost var k := V();
      o := Continue;
      match e.ins {
        case Io(c, out, buf, len) => o := ChannelIo(c, out, buf, len, e.later);
        case AltStart(timed) => if timed { TimedAlt(); } else { Alt(); }
        case Enable(g) => EnableGuard(g);
        case AltWait => o := AltWait(e.later);
        case TimedAltWait => o := TimedAltWait(e.now, e.later);
        case Disable(g, process) => DisableGuard(g, process);
        case AltEnd => o := AltEnd();
        case Tin(t) => o := TimerInput(t, e.now, e.later);
        case SemInit(x) => SemInit(x);
        case SemClaim(x) => o := SemClaim(x, e.later);
        case SemRelease(x) => SemRelease(x);
        case BarInit(x, n) => BarInit(x, n);
        case BarSync(x) => o := BarSync(x, e.later);
        case BarEnroll(x, n) => o := BarEnroll(x, n);
        case BarResign(x, n) => o := BarResign(x, n);
        case StartP(w, entry) => StartProcess(w, entry);
        case RunP(w) => RunProcess(w);
        case ParStart(w, count, resume) => StartPar(w, count, resume);
        case EndP(w) => o := EndProcess(w, e.later);
        case StopP => o := StopProcess(e.later);
        case Reschedule => o := Reschedule(e.later);
        case XAble(c) => o := ExtendedEnable(c, e.later);
        case XIn(c, buf, len) => o := ExtendedInput(c, buf, len, e.later);
        case XEnd(c) => ExtendedEnd(c);
        case Resume => o := Resume(e.later);
      }
      R.StepKeeps(k, e, V(), o);
    }

    method EnableGuard(g: Guard)
      requires Inv(V()) && EnableAllowed(V(), g)
      modifies this
      ensures old(V()).wptr in old(V()).alt && EnableStep(old(V()), V(), g) && Inv(V())
    {
      hide V, Inv, InHand, EnableChan, EnableSkip, EnableTimer;
      match g
      case ChanGuard(c) => EnableChannel(true, c);
      case SkipGuard => EnableSkipGuard(true);
      case TimerGuard(t) => EnableTimeout(true, t);
    }

    method DisableGuard(g: Guard, process: int)
      requires Inv(V()) && DisableAllowed(V(), g, process)
      modifies this
      ensures old(V()).wptr in old(V()).alt && DisableStep(old(V()), V(), g, process) && Inv(V())
    {
      hide V, Inv, InHand, DisableChan, DisableSkip, DisableTimer, CancelTimer, Fires;
      match g
      case ChanGuard(c) => var fired := DisableChannel(true, c, process);
      case SkipGuard => var fired := DisableSkipGuard(true, process);
      case TimerGuard(t) => var fired := DisableTimeout(true, t, process);
    }

    /** The scheduler is entered from outside. */
    method Resume(later: Word) returns (o: Outcome)
      requires Inv(V()) && V().wptr == 0 && OnTime(V(), later)
      modifies this
      ensures RunsNext(old(V()), V(), o, later) && Inv(V()) && o != Error && Idle(V(), o)
    {
      hide V, Core, Hand, RunsNext, Idle, Timely;
      o := RunNextOnQueue(later);
    }
  }
}
