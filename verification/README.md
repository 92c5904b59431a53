# The Transterpreter runtime, verified

A model of the core of the Transterpreter's runtime library (`runtime/libtvm`), the portable
interpreter for transputer bytecode, with proofs of what its parts are for. The configuration
is a 32-bit machine without a double-word type, without type shadowing, without external
channel bundles, and with one execution context. `dafny verify dfyconfig.toml` checks the
whole project.

There are five parts.

**Double-word arithmetic and REAL32 packing** (`Words`, `LongArith`, `Rounding`, `Registers`).
`ldiv` divides 64 by 32 bits in 16-bit digits with wrap-around arithmetic and correction
loops; `lmul`, `norm`, `unpacksn`, `postnormsn` and `roundsn` go with it. The class `Registers`
holds the evaluation stack the instructions overwrite. Words are naturals below 2^32, and the
bitwise operators are defined bit by bit.

**The TLSF allocator** (`TlsfIndex`, `TlsfChain`, `TlsfLists`, `TlsfState`, `TlsfView`,
`TlsfSteps`, `TlsfPlan`, `TlsfOps`, `Tlsf`). The class `Pool` keeps what the C code keeps: the
words of the pool's memory, the head matrix, both levels of bitmaps and `used_size`. Memory is
one map from byte addresses to cells; a header or link word sits in the cell of its first byte.
Ghost fields say what the words represent: the chain of physical blocks and the 768 free lists.
`Pool.Valid` says that the blocks tile the pool up to the size-0 sentinel with truthful flags,
that no two neighbours are free, that the lists hold exactly the free blocks of their class,
that heads, links and bitmaps describe the lists, and that `used_size` and the free blocks
balance with the pool size. Every operation keeps `Valid`. Bit masks on aligned addresses and
sizes are written with `%`.

**The process kernel** (`KernelState`, `KernelFrames`, `KernelQueues`, `KernelTimers`,
`KernelChannels`, `KernelAlts`, `KernelObjects`, `KernelProcs`, `KernelMachine`, `KernelRun`,
`KernelPlaces`, `KernelAddress`, `KernelSchedule`, `KernelTheorems`, `KernelAlting`, `KernelSync`,
`KernelRefine`, `Kernel`). The class `Machine` keeps the
workspace slots, channel words, semaphores, barriers, PAR counts and scheduler registers, and
its methods write them in the order the C code does. Each slot number is one map from
workspaces to words, so LINK and PENDING share one map, and so do the buffer address and STATE:
that this sharing is safe is part of what is proved. The datatype `K` is the same state as a
value; instructions are relations between two such states, and `Machine.Execute` shows that
every method takes the step specified. `KernelState.Inv` says, for the run queue, the timer
queue, every channel word, every semaphore and barrier queue and every ALT, what its words
represent: in particular that each ALT, in each phase, has lost no wakeup. Every instruction
keeps it, hence every run does, under any interleaving.

**Mobile memory** (`MobileTypes`, `MobileState`, `MobileClone`, `MobileRelease`, `MobileRoots`,
`Mobile`, `MobileOnTlsf`). The class `Store` keeps memory; a `Shape` says which objects lie where, arrays and
data being owned, channel bundles shared and counted. `Denotes` is the value of an object. The
clone and release methods recurse over memory as the C code does; the shape is a ghost argument.

**TEncode** (`TEncode`, `TEncodeWalk`). The writer and reader of the tagged format of compiled
programs, with two-byte words, and the C walker over the same bytes. The statement that reading
what was written gives it back holds exactly for trees whose numbers and lengths fit a word,
and that is what is proved.

What the kernel asks of programs is what occam guarantees: one reader and one writer to a
channel, equal lengths at both ends, buffers that do not overlap, the guards disabled those that
were enabled, `xin` after `xable`, semaphores released by their holder. Workspaces, channel
words, semaphores, barriers and buffers are apart from each other. Whenever a
process joins the timer queue or the queue is walked, the deadlines pending, with the new one or
the current time, lie within half of the range of the clock; without that the modular order is no
order.

## Model

| member | source | states |
|---|---|---|
| LongArith.QuotientDigit | runtime/libtvm/ins_sec.c:312-323 | One 16-bit quotient digit: the trial from the top digit of the divisor, corrected at most twice under wrap-around arithmetic, is exactly the digit of the long division, and the correction loop stops |
| LongArith.DigitAndRemainder | runtime/libtvm/ins_sec.c:312-342 | The wrapped subtraction after a digit leaves the true partial remainder |
| LongArith.Nlz | runtime/libtvm/ins_sec.c:246-257 | The number of leading zeros: 32 for zero, otherwise shifting by it sets the top bit and loses nothing |
| LongArith.DivideLong | runtime/libtvm/ins_sec.c:263-348 | For every u1 < v, quotient and remainder of u1 * 2^32 + u0 by v |
| LongArith.CarryIsOverflow | runtime/libtvm/ins_sec.c:490-495 | The carry read off the top bits of the operands and the sum is the carry of the addition |
| LongArith.MultiplyLong | runtime/libtvm/ins_sec.c:469-489 | Four 16-bit products assemble to the exact 64-bit product |
| LongArith.MultiplyAdd | runtime/libtvm/ins_sec.c:455-499 | The double-word result is u * v + c exactly |
| LongArith.MultiplyThenDivide | runtime/libtvm/ins_sec.c:263-499 | q * v + r divided by v gives back q and r, whenever r < v |
| LongArith.Normalise | runtime/libtvm/ins_sec.c:220-243 | The shift loop ends with the top bit set, the value scaled by the power of two counted |
| Registers.Registers.Ldiv | runtime/libtvm/ins_sec.c:263-348 | Quotient to A and remainder to B; overflow is flagged exactly when C is not below A, and then the stack is as it was |
| Registers.Registers.Lmul | runtime/libtvm/ins_sec.c:455-499 | B:A becomes A * B + C, with no other register or flag touched |
| Registers.Registers.LmulThenLdiv | runtime/libtvm/ins_sec.c:263-499 | lmul followed by ldiv by the same divisor returns quotient and remainder, and raises no flag |
| Registers.Registers.Norm | runtime/libtvm/ins_sec.c:220-243 | 64 for zero; otherwise the unique shift below 64 that sets the top bit, with the value scaled by it |
| Registers.KindIs | runtime/libtvm/ins_float.c:77-101 | The kinds noted tell zero, finite numbers, infinity and what is not a number apart, by value |
| Registers.Registers.Unpacksn | runtime/libtvm/ins_float.c:63-105 | Fraction and exponent have the value of the number unpacked, denormals included; the class of the number is noted |
| Registers.Registers.UnpackThenPack | runtime/libtvm/ins_float.c:63-174 | Unpacking a normal number and packing it again gives it back without its sign |
| Registers.Registers.Postnormsn | runtime/libtvm/ins_float.c:120-142 | The exponent is the stored one less the shift; below the normal range the three branches of the C code |
| Registers.DenormalShift | runtime/libtvm/ins_float.c:131-137 | The denormal branch shifts the mantissa as its comment says if and only if the guard word's top bit is clear or the fraction is all ones; otherwise it shifts a mantissa whose fraction is lost to ones |
| Registers.Registers.Roundsn | runtime/libtvm/ins_float.c:153-174 | The REAL32 word packed from guard, fraction and exponent |
| Rounding.RoundDecision | runtime/libtvm/ins_float.c:153-174 | Round bit, sticky bits and last bit decide as the comparison with half a unit in the last place does |
| Rounding.ValueMono | runtime/libtvm/ins_float.c:153-174 | Encodings of non-negative REAL32 numbers are ordered like the numbers, across exponent boundaries |
| Rounding.NeighbourIsNearest | runtime/libtvm/ins_float.c:153-174 | The nearer of two neighbouring encodings, or the even one, is nearest among all encodings |
| Rounding.RoundIsNearest | runtime/libtvm/ins_float.c:153-174 | Rounding to nearest, ties to even, among all REAL32 encodings, at every positive exponent, to infinity when it is too big (section 4.3.1 of IEEE 754-2008) |
| Rounding.DenormalIsNearest | runtime/libtvm/ins_float.c:153-174 | With exponent 0, rounding to nearest, ties to even, among the denormal numbers and up to the smallest normal one |
| Registers.Registers.PackReal32 | runtime/libtvm/ins_float.c:120-174 | norm, postnormsn, roundsn on any non-zero 64-bit mantissa: the correctly rounded REAL32 when the adjusted exponent is positive, infinity included; the shifted mantissa correctly rounded when it is not and the denormal branch shifts as it means to; zero from -32 down |
| TlsfIndex.MsBit | runtime/libtvm/tlsf.c:168-174 | The position of the most significant set bit; -1 for zero |
| TlsfIndex.LsBit | runtime/libtvm/tlsf.c:160-166 | The position of the least significant set bit; -1 for zero |
| TlsfIndex.SetBitBits | runtime/libtvm/tlsf.c:176-178 | Setting a bit changes that bit alone |
| TlsfIndex.ClearBitBits | runtime/libtvm/tlsf.c:180-182 | Clearing a bit changes that bit alone |
| TlsfIndex.MappingRange | runtime/libtvm/tlsf.c:203-212 | Every size below 2^30 maps into the 24 by 32 matrix |
| TlsfIndex.ClassBounds | runtime/libtvm/tlsf.c:203-212 | A size lies between the floor of its class and the floor of the next |
| TlsfIndex.ClassMono | runtime/libtvm/tlsf.c:203-212 | Larger sizes are in the same class or a later one |
| TlsfIndex.SearchIsFloor | runtime/libtvm/tlsf.c:184-201 | The search rounds a request up to the floor of a class, by at most one part in 32 |
| TlsfIndex.SearchIsLeast | runtime/libtvm/tlsf.c:184-201 | The rounded size is the least floor of a class that is not below the request |
| TlsfIndex.SearchExact | runtime/libtvm/tlsf.c:184-201 | A free block is in the class searched or a later one if and only if it has the rounded size |
| TlsfChain.TiledSplit | runtime/libtvm/tlsf.c:429-444 | Cutting a block keeps the chain tiled, with truthful flags |
| TlsfChain.TiledMerge | runtime/libtvm/tlsf.c:467-483 | Joining a block with the next keeps the chain tiled, with truthful flags |
| TlsfChain.WalkTiles | runtime/libtvm/tlsf.c:690-702 | Walking from a block visits every later block once, each ending where the next begins, up to the sentinel |
| TlsfChain.TotalSplit | runtime/libtvm/tlsf.c:413-452 | What a cut does to the free bytes of the whole chain |
| TlsfChain.TotalMerge | runtime/libtvm/tlsf.c:455-487 | What a join does to the free bytes of the whole chain |
| TlsfState.SuitableIsFirst | runtime/libtvm/tlsf.c:215-231 | The two bitmap look-ups find the first non-empty list at or after the class searched, and none only when all are empty |
| TlsfLists.PushLists | runtime/libtvm/tlsf.c:263-276 | Inserting a block at the head of one list leaves all lists acyclic, doubly linked and disjoint |
| TlsfLists.UnlinkLists | runtime/libtvm/tlsf.c:234-262 | Extracting a block from anywhere in its list leaves all lists acyclic, doubly linked and disjoint |
| TlsfOps.LiveDisjoint | runtime/libtvm/tlsf.c:413-573 | In a consistent pool live payloads lie inside the pool and do not overlap |
| TlsfOps.IndexExact | runtime/libtvm/tlsf.c:203-270 | In a consistent pool a block is on list (fl, sl) iff it is free and its size maps there; heads, links and both bitmap levels say so |
| Tlsf.Request | runtime/libtvm/tlsf.c:420 | The block size of a request: 8 up to 8 bytes, otherwise the request rounded up by less than 8 to a multiple of 8 |
| Tlsf.RequestIsLeast | runtime/libtvm/tlsf.c:75-81 | No smaller multiple of 8 that is at least 8 holds the request |
| Tlsf.Pool.InitMemoryPool | runtime/libtvm/tlsf.c:281-326 | -1 exactly for unusable pools; otherwise a consistent pool with one free block and a sentinel, and balanced accounts; the sentinel's header lies inside the pool if and only if the pool size is at most 3 above a multiple of 8 |
| Tlsf.Pool.InsertBlock | runtime/libtvm/tlsf.c:263-276 | The block heads its list, its bits are set, the rest of the index is as it was |
| Tlsf.Pool.ExtractBlock | runtime/libtvm/tlsf.c:247-262 | The block leaves its list wherever it stands in it; bits are cleared exactly when lists run empty |
| Tlsf.Pool.ExtractBlockHdr | runtime/libtvm/tlsf.c:234-246 | The head leaves its list; bits are cleared exactly when lists run empty |
| Tlsf.Pool.FindSuitableBlock | runtime/libtvm/tlsf.c:215-231 | The head of the first non-empty list from the class searched; null only when all those lists are empty |
| Tlsf.Pool.MappingSearch | runtime/libtvm/tlsf.c:184-201 | The rounded size and the class at which the search starts |
| Tlsf.Pool.SplitOff | runtime/libtvm/tlsf.c:429-444 | The rest of a block becomes a listed free block of its own |
| Tlsf.Pool.Malloc | runtime/libtvm/tlsf.c:413-452 | Null exactly when no free block has the rounded size, and then nothing changes; otherwise a good fit of at most r + r/32 + 8 bytes, with every other live block and payload untouched and the accounts balanced |
| Tlsf.Pool.JoinAfter | runtime/libtvm/tlsf.c:467-472 | A free block behind is unlinked and joined |
| Tlsf.Pool.JoinBefore | runtime/libtvm/tlsf.c:473-479 | A free block before is unlinked and takes the bytes over |
| Tlsf.Pool.Free | runtime/libtvm/tlsf.c:455-487 | Null is ignored; otherwise the block joins its free neighbours on both sides, every other live block and payload is untouched, and the accounts balance |
| Tlsf.Pool.Shrink | runtime/libtvm/tlsf.c:514-539 | A block is cut in place; what is cut off joins a free block behind it; the bytes kept are kept |
| Tlsf.Pool.Grow | runtime/libtvm/tlsf.c:540-563 | A block grows in place into the free block behind it and keeps its bytes |
| Tlsf.Pool.ResizeInPlace | runtime/libtvm/tlsf.c:509-563 | Whether the block is resized in place depends exactly on its size and its neighbour; if not, nothing has changed |
| Tlsf.Pool.Relocate | runtime/libtvm/tlsf.c:565-572 | malloc, copy, free: the new block starts with the old bytes and the old block is free |
| Tlsf.Pool.Realloc | runtime/libtvm/tlsf.c:490-573 | Null with size 0, malloc, free and both ways of resizing: the result's first min(old, new) bytes are the old ones, no other live payload is touched, the accounts balance |
| KernelQueues.BehindList | runtime/libtvm/scheduler.c:25-45 | Putting a process behind the last keeps the queue linked from front to back without repeats |
| KernelQueues.EnqueueCore | runtime/libtvm/scheduler.c:25-45 | Queueing a process in hand keeps the whole kernel consistent |
| KernelQueues.TakeCore | runtime/libtvm/scheduler.c:113-164 | Taking the head of the run queue keeps the whole kernel consistent |
| KernelTimers.InsertSorted | runtime/libtvm/scheduler.c:175-259 | Inserting behind all entries not after the new deadline keeps the queue in due order, equal deadlines in order of arrival |
| KernelTimers.RemoveLinks | runtime/libtvm/scheduler.c:261-293 | Removing an entry leaves the others linked and in due order |
| KernelTimers.WalkExact | runtime/libtvm/scheduler.c:295-342 | A walk removes exactly the entries not after now, and queues those of them not ready yet, each once and in order |
| KernelTimers.WalkCore | runtime/libtvm/scheduler.c:295-342 | A walk keeps the whole kernel consistent |
| KernelTimers.WaitTimeCore | runtime/libtvm/ins_timer.c:87-119 | A process waiting for a time keeps the kernel consistent: its slots serve the timer queue and no other |
| KernelChannels.BlockCore | runtime/libtvm/ins_chan.c:190-199 | A process parked in a channel word keeps the kernel consistent, although its slots also serve queues and ALTs |
| KernelChannels.SignalCore | runtime/libtvm/ins_chan.c:164-199 | An output to an ALTing process keeps the kernel consistent and loses no wakeup, whatever the phase of the ALT |
| KernelChannels.CopyIs | runtime/libtvm/ins_chan.c:57-71 | The bytes at the destination are those of the source, and no other byte changes |
| KernelAlts.EnableChanCore | runtime/libtvm/ins_alt.c:179-199 | Enabling a channel keeps every ALT right: the channel carries the mark or the ALT is ready |
| KernelAlts.EnableSkipCore | runtime/libtvm/ins_alt.c:202-213 | Enabling a skip guard makes the ALT ready |
| KernelAlts.EnableTimerCore | runtime/libtvm/ins_alt.c:157-176 | Enabling a timeout keeps TLINK and WS_TIME telling which timeout to wait for |
| KernelAlts.ProceedAlt | runtime/libtvm/ins_alt.c:130-142 | When an ALT does not wait, one of its guards will be found fired |
| KernelAlts.SleepTimedCore | runtime/libtvm/ins_alt.c:246-260 | A timed ALT going to sleep is on the timer queue with a deadline one past its earliest timeout |
| KernelAlts.DisableChanCore | runtime/libtvm/ins_alt.c:64-90 | Disabling a channel takes the mark away; as long as nothing is selected a remaining guard fires |
| KernelAlts.CancelTimerCore | runtime/libtvm/ins_alt.c:32-61 | Disabling a timeout takes the process off the timer queue and keeps that in order |
| KernelAlts.AltEnds | runtime/libtvm/ins_alt.c:145-154 | With all guards disabled a branch is selected, no channel carries the process's mark, and it is off the timer queue |
| KernelObjects.ClaimBusyCore | runtime/libtvm/ins_pi.c:303-339 | Queueing on a semaphore keeps every queue linked in order of arrival |
| KernelObjects.HandOverCore | runtime/libtvm/ins_pi.c:341-361 | Handing over takes exactly the first waiter |
| KernelObjects.SyncWaitCore | runtime/libtvm/ins_barrier.c:60-100 | Waiting at a barrier keeps count = enrolled - waiting, with the waiters linked in order although the last links back |
| KernelObjects.CompleteCore | runtime/libtvm/ins_barrier.c:33-50 | Completion appends the waiters to the run queue in order and keeps the kernel consistent |
| KernelProcs.RunsNextInv | runtime/libtvm/scheduler.c:113-164 | Choosing what runs next keeps the kernel consistent, and the processor idles only with nothing to run |
| KernelProcs.FlagTells | runtime/libtvm/scheduler.c:83-106 | After the timers have been looked at, the flag that asks for it is set if and only if some process is on the timer queue |
| KernelProcs.SyncedCore | runtime/libtvm/scheduler.c:83-106 | Looking at the timers keeps the kernel consistent |
| KernelProcs.ExtendedWaitCore | runtime/libtvm/ins_pi.c:400-438 | Waiting for an extended input, as in an ALT with one guard, keeps the kernel consistent |
| KernelMachine.IoKeeps | runtime/libtvm/ins_chan.c:204-235 | Input and output keep the invariant, in each of the four states of the channel word |
| KernelMachine.EnableKeeps | runtime/libtvm/ins_alt.c:157-213 | Enabling any guard keeps the invariant |
| KernelMachine.DisableKeeps | runtime/libtvm/ins_alt.c:32-113 | Disabling any guard, in any order, keeps the invariant |
| KernelMachine.WaitKeeps | runtime/libtvm/ins_alt.c:130-142 | altwt keeps the invariant |
| KernelMachine.TimedWaitKeeps | runtime/libtvm/ins_alt.c:231-260 | taltwt keeps the invariant |
| KernelMachine.AltEndKeeps | runtime/libtvm/ins_alt.c:145-154 | altend keeps the invariant and never raises its error |
| KernelMachine.TinKeeps | runtime/libtvm/ins_timer.c:87-119 | tin keeps the invariant |
| KernelMachine.ClaimKeeps | runtime/libtvm/ins_pi.c:303-339 | Claiming keeps the invariant |
| KernelMachine.ReleaseKeeps | runtime/libtvm/ins_pi.c:341-361 | Releasing keeps the invariant |
| KernelMachine.SyncKeeps | runtime/libtvm/ins_barrier.c:60-100 | Synchronising keeps the invariant |
| KernelMachine.EnrolKeeps | runtime/libtvm/ins_barrier.c:102-117 | Enrolling keeps the invariant |
| KernelMachine.ResignKeeps | runtime/libtvm/ins_barrier.c:119-149 | Resigning keeps the invariant, whether it completes the barrier or not |
| KernelMachine.EndKeeps | runtime/libtvm/ins_sec.c:50-82 | Ending a branch of a PAR keeps the invariant, whether the process stops or goes on as the parent; the processor idles only with nothing to run |
| KernelMachine.ExtendedEndKeeps | runtime/libtvm/ins_pi.c:487-503 | Ending an extended input keeps the invariant |
| KernelRun.StepKeeps | runtime/libtvm/scheduler.c:25-342 | Every instruction keeps the invariant; only barrier misuse is reported as an error, and then nothing has changed |
| KernelRun.RunKeeps | runtime/libtvm/scheduler.c:25-342 | The invariant holds in every state of every run |
| KernelRun.BootInv | runtime/libtvm/interpreter.c:129-148 | The state after a reset, with one process running, satisfies the invariant |
| KernelAddress.RunsAt | runtime/libtvm/scheduler.c:113-164 | Whoever is chosen to run goes on at the address saved for it |
| KernelAddress.StepAddress | runtime/libtvm/scheduler.c:25-164 | Over all instructions, the address a process goes on at stays as it was, but for startp, which sets it to the entry address, the last endp, which makes it the resume address, and altend, which adds the offset of the branch selected |
| KernelAddress.AddressKept | runtime/libtvm/scheduler.c:25-164 | In every run nobody but the process itself, startp and the join of a PAR changes the address it goes on at |
| KernelAddress.GoesOnWhereItWas | runtime/libtvm/scheduler.c:25-164 | In every run a process that loses the processor goes on, when it next runs, at the address it had |
| KernelAddress.StartsAtEntry | runtime/libtvm/ins_sec.c:167-203 | In every run a process started first runs at its entry address |
| KernelPlaces.OnePlace | runtime/libtvm/transputer.h:50-59 | Which structures hold a process is decided by its place, both ways: current, on the run queue, in one channel word, on one semaphore or barrier queue; a process in extended input has its mark in its channel and no ALT; one waiting for a time is on the timer queue; a waiting ALT is in the waiting phase; marks are only those of remaining guards; no queue holds a process twice |
| KernelPlaces.OneChannel | runtime/libtvm/ins_chan.c:190-199 | A blocked process is in its own channel word and in no other |
| KernelPlaces.StepStill | runtime/libtvm/scheduler.c:25-342 | No step moves a process that is neither running nor queued, but for the one the instruction is there to move and those on the timer queue whose deadline has come |
| KernelPlaces.MovedOnly | runtime/libtvm/scheduler.c:25-342 | Place by place, what moves a parked process: an operation on its channel; an output to the channel of its extended input or to one its ALT waits for; the release that finds it first; the completion of its barrier; being started, or joined as a parent; the clock for those that wait for a time |
| KernelTheorems.Rendezvous | runtime/libtvm/ins_chan.c:124-235 | Whichever side comes second: the destination has the source bytes, the channel is empty, one party runs from where it stopped and the other is queued once |
| KernelTheorems.ArrivesFirst | runtime/libtvm/ins_chan.c:190-235 | The first party is left in the channel word with its buffer and length |
| KernelTheorems.WaitsForPartner | runtime/libtvm/ins_chan.c:124-235 | Through any run without another operation on its channel the first party stays in the channel word |
| KernelTheorems.ExtendedDelivers | runtime/libtvm/ins_pi.c:451-484 | xin delivers the outputter's bytes, changes no other byte, leaves the outputter parked in the channel word with its buffer and length, and lets the process go on |
| KernelTheorems.DisconnectedIo | runtime/libtvm/ins_chan.c:80-93 | Input from a disconnected channel leaves zeros and touches no other byte; output to one leaves memory alone |
| KernelTheorems.MarksHeld | runtime/libtvm/ins_alt.c:179-199 | While an ALT is enabling with nothing ready, or waits, every channel it has enabled holds its mark |
| KernelTheorems.OutputWakes | runtime/libtvm/ins_chan.c:164-199 | An output to a waiting ALT makes it run at once, and only once; the outputter is left in the channel |
| KernelTheorems.PriAlt | runtime/libtvm/ins_alt.c:32-154 | The branch selected is that of the first guard, in disabling order, that fires, and there is one; afterwards no channel holds the mark, other channel words and the outputters in them are untouched, and the process is off the timer queue |
| KernelTheorems.PriAltEnds | runtime/libtvm/ins_alt.c:32-154 | altend after disabling goes on in the branch of the first guard, in disabling order, that fires, and ends the ALT |
| KernelTheorems.TimerWakes | runtime/libtvm/scheduler.c:295-342 | When the timer wakes an ALT exactly the timeouts not after the clock will be found fired, the one it waited for among them, and the process is queued once |
| KernelTheorems.TimedGoesOn | runtime/libtvm/ins_alt.c:231-260 | A timed ALT that goes on at once will find fired exactly the timeouts not after the time it read |
| KernelTheorems.EarliestKept | runtime/libtvm/ins_alt.c:157-176 | One enbt keeps the earliest timeout in WS_TIME: the step of EarliestTimeout |
| KernelTheorems.EarliestTimeout | runtime/libtvm/ins_alt.c:157-260 | From talt through any guards enabled in any order, timeouts in one half range: the guards remaining are those enabled, TLINK is set if and only if there is a timeout among them, WS_TIME is then the earliest, and a process that sleeps is on the timer queue until one past the earliest, due exactly when that is not after the clock |
| KernelAlting.StaysUndecided | runtime/libtvm/ins_alt.c:130-260 | In every run a process that waits in an ALT keeps all its guards, with no branch selected, until it disables them itself |
| KernelAlting.TakesBranch | runtime/libtvm/ins_alt.c:32-260 | A whole ALT in any run: from its wait, whatever runs in between, through disabling its guards in any order, to altend, it takes the branch of the first guard in that order that fires, and there is one, at the address of the wait with the branch's offset |
| KernelSchedule.StepOutcome | runtime/libtvm/scheduler.c:25-164 | Over all instructions: which processes join the run queue and in what order, who runs next, and where the current process is then |
| KernelSchedule.ServedInOrder | runtime/libtvm/scheduler.c:25-164 | In every run the run queue is served in order: after d dispatches the first d have run and the rest waits in front of all queued since |
| KernelSchedule.RunsInTurn | runtime/libtvm/scheduler.c:113-164 | In every run the process at place d of the run queue is the one taken by dispatch d |
| KernelSchedule.TinWaits | runtime/libtvm/ins_timer.c:87-119 | A process that waits for a time that has not come is parked on the timer queue with that time |
| KernelSync.ElsewhereObject | runtime/libtvm/ins_pi.c:297-361 | An instruction changes words, queue and holder of a semaphore or barrier only if it is an instruction on that one |
| KernelSync.HandsOver | runtime/libtvm/ins_pi.c:341-361 | A release with waiters makes the first of them the holder, queued to run, and the semaphore is not free in between |
| KernelSync.ClaimsInTurn | runtime/libtvm/ins_pi.c:303-339 | A claim makes the process the holder of a free semaphore, and otherwise queues it behind earlier claimants |
| KernelSync.MadeFree | runtime/libtvm/ins_pi.c:297-301 | A new semaphore is held by nobody and has no waiters |
| KernelSync.SemaphoreStep | runtime/libtvm/ins_pi.c:297-361 | Over all instructions: the queue of a semaphore grows only at the back by a claim, shrinks only at the front by a release, and the holder changes only then |
| KernelSync.GrantedInOrder | runtime/libtvm/ins_pi.c:297-361 | First come, first served, in every run: after r releases the holder is the one at place r of holder and queue, and the rest of the queue still waits in order, in front of all later claims |
| KernelSync.EarlierFirst | runtime/libtvm/ins_pi.c:297-361 | In every run, of two waiters the earlier becomes the holder at an earlier state |
| KernelSync.HoldsUntilRelease | runtime/libtvm/ins_pi.c:297-361 | In every run the holder of a semaphore holds it until it is released: at most one holder at any time |
| KernelSync.BarrierSync | runtime/libtvm/ins_barrier.c:33-100 | A sync completes the barrier exactly when all others enrolled wait: all waiters join the run queue in order of arrival and the count starts afresh; otherwise the process waits behind them |
| KernelSync.BarrierResign | runtime/libtvm/ins_barrier.c:119-149 | A resignation is an error exactly when more resign than are still to come; it completes the barrier when all still to come resign, with all waiters queued in order and a fresh count; otherwise only the words change |
| KernelSync.BarrierEnroll | runtime/libtvm/ins_barrier.c:102-117 | Enrolling is an error exactly when the number enrolled would pass the word range; otherwise enrolled and to come both grow by it, and queue, places and run queue stay |
| KernelSync.EnrolledAccount | runtime/libtvm/ins_barrier.c:52-149 | In every run the number enrolled is that of the initialisation with all enrolments less all resignations since, and those to come are those enrolled who do not wait |
| KernelSync.BarrierStep | runtime/libtvm/ins_barrier.c:33-149 | Over all instructions: the queue of a barrier grows only at the back by a sync, and empties only at completion, into the run queue in order |
| KernelSync.WaitsForAll | runtime/libtvm/ins_barrier.c:33-149 | In every run nobody leaves a barrier, and the order of arrival stays, until a sync or a resignation uses up the number enrolled less those waiting |
| KernelSync.AllLeave | runtime/libtvm/ins_barrier.c:33-50 | In every run, at the instruction that uses it up all waiters are queued in order of arrival |
| KernelSync.ParCount | runtime/libtvm/ins_sec.c:50-82 | In every run the count word of a PAR is the number of branches less those that have ended, and the resume word stays |
| KernelSync.Joins | runtime/libtvm/ins_sec.c:50-82 | The join, in every run: exactly the end that makes up the number of branches goes on as the parent, at the resume address; every other end removes its process and leaves a parked parent parked |
| KernelSync.ParentParked | runtime/libtvm/ins_sec.c:50-82 | In every run a parked parent stays parked until the last branch counted ends |
| KernelSync.ParentReady | runtime/libtvm/ins_sec.c:50-82 | In every run a parent that has ended its own branch is parked when the last branch ends, as endp needs it to be |
| Kernel.Machine.constructor | runtime/libtvm/interpreter.c:129-148 | A machine starts as after a reset, with one process running, and is consistent |
| Kernel.Machine.AddToQueue | runtime/libtvm/scheduler.c:25-45 | LINK, FPTR and BPTR as after queueing behind the last |
| Kernel.Machine.AddQueueToQueue | runtime/libtvm/scheduler.c:62-76 | A whole queue is put behind the run queue |
| Kernel.Machine.DescheduleCurrent | runtime/libtvm/scheduler.h:54-58 | The current process is queued to go on where it is |
| Kernel.Machine.LoadProcess | runtime/libtvm/scheduler.h:76-92 | A process goes on where it stopped |
| Kernel.Machine.WalkTimerQueue | runtime/libtvm/scheduler.c:295-342 | The loop over the timer queue leaves the words as the walk says |
| Kernel.Machine.Expire | runtime/libtvm/scheduler.c:295-342 | One turn of the walk: the head is off the queue, and queued to run unless it is ready |
| Kernel.Machine.Synchronise | runtime/libtvm/scheduler.c:83-106 | The timers are walked and the flag is kept only while some are pending |
| Kernel.Machine.RunNextOnQueue | runtime/libtvm/scheduler.c:113-164 | The next process runs, or the processor sleeps, stops or is interrupted, and then only with nothing to run |
| Kernel.Machine.FindSlot | runtime/libtvm/scheduler.c:175-259 | The search stops behind the last entry not after the new deadline |
| Kernel.Machine.TimerQueueInsert | runtime/libtvm/scheduler.c:175-259 | All three ways of inserting put the process at its place in due order |
| Kernel.Machine.FindBefore | runtime/libtvm/scheduler.c:261-293 | The search finds the entry before the one to be removed |
| Kernel.Machine.TimerQueueRemove | runtime/libtvm/scheduler.c:261-293 | The entry is taken out, at the head or later, and its TLINK says so |
| Kernel.Machine.ChannelIo | runtime/libtvm/ins_chan.c:124-235 | Blocking, disconnection, communication and output to an ALT, each as specified, and the invariant kept |
| Kernel.Machine.CopyBytes | runtime/libtvm/ins_chan.c:57-71 | The byte loop copies exactly the message |
| Kernel.Machine.ZeroBytes | runtime/libtvm/ins_chan.c:80-88 | A disconnected channel delivers zero bytes |
| Kernel.Machine.TellAlter | runtime/libtvm/ins_chan.c:164-188 | The ALTing process is marked ready in any of its states, never with the channel error |
| Kernel.Machine.Alt | runtime/libtvm/ins_alt.c:121-127 | The ALT starts enabling with no guards |
| Kernel.Machine.TimedAlt | runtime/libtvm/ins_alt.c:216-223 | The timed ALT starts with no guards and no timeout |
| Kernel.Machine.EnableChannel | runtime/libtvm/ins_alt.c:179-199 | With a true guard the channel is marked or the ALT made ready; with a false one nothing changes |
| Kernel.Machine.EnableSkipGuard | runtime/libtvm/ins_alt.c:202-213 | With a true guard the ALT is ready; with a false one nothing changes |
| Kernel.Machine.EnableTimeout | runtime/libtvm/ins_alt.c:157-176 | With a true guard the timeout is noted if it is the first or earlier; with a false one nothing changes |
| Kernel.Machine.AltWait | runtime/libtvm/ins_alt.c:130-142 | altwt takes the step specified and keeps the invariant |
| Kernel.Machine.TimedAltWait | runtime/libtvm/ins_alt.c:231-260 | taltwt takes the step specified, in all four cases, and keeps the invariant |
| Kernel.Machine.DisableChannel | runtime/libtvm/ins_alt.c:64-90 | The mark is taken off; fired is returned exactly when nothing was selected and somebody is there |
| Kernel.Machine.DisableSkipGuard | runtime/libtvm/ins_alt.c:98-113 | fired is returned exactly when nothing was selected |
| Kernel.Machine.DisableTimeout | runtime/libtvm/ins_alt.c:32-61 | fired is returned exactly when nothing was selected and the timeout has passed; a process still on the timer queue is taken off |
| Kernel.Machine.AltEnd | runtime/libtvm/ins_alt.c:145-154 | The selected branch is taken; the error is never raised |
| Kernel.Machine.TimerInput | runtime/libtvm/ins_timer.c:87-119 | A past time continues at once, any other puts the process on the timer queue; the invariant is kept |
| Kernel.Machine.SemInit | runtime/libtvm/ins_pi.c:297-301 | A free semaphore without waiters |
| Kernel.Machine.SemClaim | runtime/libtvm/ins_pi.c:303-339 | Both branches as specified, and the invariant kept |
| Kernel.Machine.SemRelease | runtime/libtvm/ins_pi.c:341-361 | Both branches as specified, and the invariant kept |
| Kernel.Machine.BarInit | runtime/libtvm/ins_barrier.c:52-58 | A barrier nobody waits at |
| Kernel.Machine.BarSync | runtime/libtvm/ins_barrier.c:60-100 | Both branches as specified, and the invariant kept |
| Kernel.Machine.BarComplete | runtime/libtvm/ins_barrier.c:33-50 | The barrier is reset and its queue appended to the run queue |
| Kernel.Machine.BarEnroll | runtime/libtvm/ins_barrier.c:102-117 | The overflow test is exact, and the invariant kept |
| Kernel.Machine.BarResign | runtime/libtvm/ins_barrier.c:119-149 | All three branches as specified, and the invariant kept |
| Kernel.Machine.StartProcess | runtime/libtvm/ins_sec.c:167-171 | The new process is queued with its entry address |
| Kernel.Machine.RunProcess | runtime/libtvm/ins_sec.c:630-633 | A stopped process is queued |
| Kernel.Machine.StopProcess | runtime/libtvm/ins_sec.c:198-203 | The process stops where it is and another is chosen |
| Kernel.Machine.StartPar | runtime/libtvm/ins_pri.c:500-527 | The count and resume words of a PAR are stored |
| Kernel.Machine.EndProcess | runtime/libtvm/ins_sec.c:50-82 | The count goes down, or the last branch goes on as the parent |
| Kernel.Machine.Reschedule | runtime/libtvm/ins_pi.c:37-41 | The process goes behind all others that are queued |
| Kernel.Machine.ExtendedEnable | runtime/libtvm/ins_pi.c:400-438 | xable waits on an empty channel and otherwise goes on |
| Kernel.Machine.ExtendedInput | runtime/libtvm/ins_pi.c:451-484 | xin moves the data and puts the outputter back into the channel word |
| Kernel.Machine.ExtendedEnd | runtime/libtvm/ins_pi.c:487-503 | xend empties the channel and queues the outputter |
| Kernel.Machine.Execute | runtime/libtvm/scheduler.c:25-342 | Every instruction of the machine takes a step of the specification, keeps the invariant, and idles only with nothing to run |
| MobileTypes.ElementsInside | runtime/libtvm/ins_mobile.c:51-108 | The elements of a new array lie in its block, behind its header, and are aligned |
| MobileTypes.NumberArray | runtime/libtvm/mobile_types.h:92-170 | The type word of an array of numbers says: its dimensions, a header of three words more, and 1, 2, 4, 8, 4 or 8 bytes to a BYTE, INT16, INT32, INT64, REAL32 or REAL64, the eight-byte ones aligned to eight |
| MobileTypes.AlignedArray | runtime/libtvm/mobile_types.h:355-370 | With array options the same, with the alignment asked for and a word more for a hardware address |
| MobileTypes.ExtendedUnit | runtime/libtvm/mobile_types.h:112-132 | The same width when the number's code is in the next eight flag bits |
| MobileTypes.MobileArray | runtime/libtvm/mobile_types.h:144-170 | The type word of an array of mobiles says: a word to an element |
| MobileTypes.MadeBundle | runtime/libtvm/mobile_types.h:184-198 | The type word of a channel bundle says: two words in front of its channels, and four more when it is shared |
| MobileState.RepKept | runtime/libtvm/ins_mobile.c:194-403 | An object denotes the same as long as the cells it is made of are the same |
| MobileClone.GrownKept | runtime/libtvm/ins_mobile.c:295-403 | Making a clone of one object leaves what every other is made of alone |
| MobileClone.ClonedNumbers | runtime/libtvm/ins_mobile.c:295-344 | A cloned array of numbers has the type, size and dimensions of the original, and byte for byte its elements, at the width of its numbers |
| MobileClone.ItemReady | runtime/libtvm/ins_mobile.c:325-340 | In the middle of cloning an array its next element is still what it was and can be cloned |
| MobileClone.CloneStep | runtime/libtvm/ins_mobile.c:325-340 | One more element cloned and stored |
| MobileRelease.NextReleasable | runtime/libtvm/ins_mobile.c:211-223 | In the middle of releasing an array its next element is untouched and can be released |
| MobileRelease.ReleaseStep | runtime/libtvm/ins_mobile.c:211-223 | One more element released |
| MobileRelease.LastReleased | runtime/libtvm/ins_mobile.c:227-246 | The last reference frees a bundle, and nothing else |
| MobileRoots.CloneThenRelease | runtime/libtvm/ins_mobile.c:194-403 | Releasing a clone restores every reference count and frees exactly what cloning allocated |
| MobileRoots.CloneReleasable | runtime/libtvm/ins_mobile.c:194-403 | A clone can be released |
| MobileRoots.CloneAccounts | runtime/libtvm/ins_mobile.c:295-403 | After a clone the counts still are the numbers of references, no block is owned twice or by nobody, and every other object denotes what it did |
| MobileRoots.ReleaseAccounts | runtime/libtvm/ins_mobile.c:194-292 | After a release the same holds of what is left: nothing leaks and nothing in use is freed |
| MobileRoots.BundleAccounts | runtime/libtvm/ins_mobile.c:122-154 | A new bundle has one reference for each end |
| MobileRoots.NothingLeaks | runtime/libtvm/ins_mobile.c:194-292 | When nothing is held, no block is allocated |
| Mobile.Store.AllocArrayInt | runtime/libtvm/ins_mobile.c:51-108 | A block apart from all others with the header of an array, the address for the hardware included; its elements null when asked for |
| Mobile.Store.AllocData | runtime/libtvm/ins_mobile.c:179-191 | A block apart from all others with the header of mobile data |
| Mobile.Store.Clone | runtime/libtvm/ins_mobile.c:347-403 | The result denotes the same value, in new blocks only, shares the same bundles and counts each use |
| Mobile.Store.CloneArray | runtime/libtvm/ins_mobile.c:295-344 | The same for arrays, of numbers and of mobiles |
| Mobile.Store.CloneItems | runtime/libtvm/ins_mobile.c:325-340 | The loop that clones the elements |
| Mobile.Store.CloneElements | runtime/libtvm/ins_mobile.c:322-323 | The bytes of numeric elements are copied |
| Mobile.Store.CloneData | runtime/libtvm/ins_mobile.c:373-383 | Untyped data are copied |
| Mobile.Store.Release | runtime/libtvm/ins_mobile.c:194-292 | Exactly the blocks owned, and those of bundles losing their last reference, are freed; everything else is as it was but for the counts |
| Mobile.Store.ReleaseItems | runtime/libtvm/ins_mobile.c:211-223 | The loop that releases the elements |
| Mobile.Store.NewArray | runtime/libtvm/ins_mobile.c:111-119 | A new array, with null elements if they are mobiles, joins what is held |
| Mobile.Store.NewData | runtime/libtvm/ins_mobile.c:179-191 | New mobile data joins what is held |
| Mobile.Store.NewBundle | runtime/libtvm/ins_mobile.c:122-154 | A new bundle, not of the external form, with empty channels and free locks joins what is held, once for each end |
| Mobile.Store.CloneHeld | runtime/libtvm/ins_mobile.c:393-403 | A clone of something held denotes the same and joins it; everything held is unharmed |
| Mobile.Store.ReleaseHeld | runtime/libtvm/ins_mobile.c:283-292 | Something held is released; everything else held is unharmed |
| MobileOnTlsf.MallocIsFresh | runtime/libtvm/tvm_mem.h:126-130 | What TLSF hands out is a block as mobile memory asks for: apart from all others, whose cells it leaves alone |
| MobileOnTlsf.FreeIsFreed | runtime/libtvm/tvm_mem.h:132-136 | What TLSF takes back is gone for mobile memory, and every cell of other blocks is left alone |
| MobileOnTlsf.StoreIsBacked | runtime/libtvm/tvm_mem.h:118-136 | Writing inside its blocks mobile memory keeps the pool consistent |
| MobileOnTlsf.BackedApart | runtime/libtvm/tvm_mem.h:118-136 | Blocks of mobile memory in a consistent pool do not overlap |
| TEncode.IntToBytes | tools/tenctool/tenclib.py:55-61 | The loops produce the big-endian bytes, padded to two |
| TEncode.BytesToInt | tools/tenctool/tenclib.py:49-53 | The loop reads big-endian bytes |
| TEncode.IntegerRoundTrip | tools/tenctool/tenclib.py:49-61 | An integer is read back as written; two bytes suffice if and only if it fits a word |
| TEncode.BigEndian | tools/tenctool/tenclib.py:49-61 | A number that fits a word is written as two bytes, the high one first, and read as such |
| TEncode.ElementFails | tools/tenctool/tenclib.py:204-237 | Why reading an element fails: fewer than three bytes, exactly three, or a tag that names no type |
| TEncode.WriteAll | tools/tenctool/tenclib.py:72-100 | The loop of the writers concatenates the elements' bytes |
| TEncode.ReadAll | tools/tenctool/tenclib.py:181-249 | The loop of the readers reads element after element, and fails with the first that fails |
| TEncode.ElementRoundTrip | tools/tenctool/tenclib.py:204-273 | Reading an element's bytes gives it back and leaves exactly what follows |
| TEncode.AllRoundTrip | tools/tenctool/tenclib.py:239-249 | Reading the bytes of a list of elements gives the list back |
| TEncode.ConsumedElement | tools/tenctool/tenclib.py:204-273 | An element read takes no more bytes than writing it would, and at least half as many, on any input |
| TEncode.ElementFits | tools/tenctool/tenclib.py:204-273 | Only elements whose numbers and lengths fit a word are read back as they were |
| TEncode.RoundTrip | tools/tenctool/tenclib.py:67-273 | parse after dump_bytes returns the tree if and only if all its numbers and lengths, and the total length, fit a word |
| TEncodeWalk.Decode | runtime/libtvm/tencode.c:38-70 | The next position passes the end of the data, and the length wraps round, if and only if the contents have odd length and end with the data; otherwise the length left and the next position agree |
| TEncodeWalk.EvenInside | runtime/libtvm/tencode.c:81-98 | With an even number of bytes the walk never passes the end of the data |
| TEncodeWalk.Walker.DecodeElement | runtime/libtvm/tencode.c:38-70 | The element at a position, or -1 when it is cut short, for any number of bytes left; the subtraction from the length wraps as in C |
| TEncodeWalk.Walker.WalkToElement | runtime/libtvm/tencode.c:81-98 | The loop over elements finds the first with the identifier, or fails at the end or at a bad element; asked for is only that no element before it makes the length wrap |
| TEncodeWalk.DecodesElement | runtime/libtvm/tencode.c:38-70 | At an element the writer printed, the tag, size and contents are those of the element |
| TEncodeWalk.WalkFinds | runtime/libtvm/tencode.c:81-98 | Over printed elements the walk stops at the first with the identifier, describes it, and leaves exactly those behind it; it fails if and only if there is none |

## Left out

- Tlsf.Pool.Realloc: asks that the allocation in its copying path succeeds; the code copies to the null pointer otherwise.
- Tlsf.Pool.Malloc: asks that the rounded request is below 2^30, the sizes the matrix has classes for; larger requests index outside it.
- Tlsf.Pool.InitMemoryPool: the contents of the pool before formatting play no role; the signature word and the test for a pool formatted before are not part of the model.
- KernelTheorems.Rendezvous: the processes' execution contexts are all the same one, so the WS_ECTX slot and queueing on another context are not modelled.
- Kernel.Machine.ExtendedInput: asks that `xable` went before, so that an outputter is there or the channel is disconnected; the code raises a channel error otherwise.
- Kernel.Machine.TimerInput: no claim that the process wakes strictly after its deadline, since the queue wakes it at the deadline itself.
- Kernel.Machine.StartPar: the words lie in a map of their own, by workspace; `ajw`, by which a parent moves to the workspace of its own branch, is not modelled, so that branch goes by the parent's workspace.
- KernelTimers.WalkExact: asks that deadlines and the current time fit half of the clock's range.
- Kernel.Machine.Execute: the clock, and the interrupt flag set from outside, are parameters or fields nothing in the model sets; what a sleeping processor does until it is woken is not modelled.
- Mobile.Store.Malloc: stands for the allocator with its contract only, which MobileOnTlsf shows TLSF meets; it always succeeds, as the callers in the C code take for granted, and addresses are not bounded.
- Mobile.Store.Clone: objects of other types (barriers, processes, structured types) and the error they raise are not modelled.
- Mobile.Store.NewBundle: asks that the external flag is clear; the external form of channel bundles is not modelled.
- TEncode.RoundTrip: only the two-byte form; with four-byte words the writer's and the reader's padding agree only for even lengths. The position stored with an element is not part of its value, and elements of type I have no printer.
- TEncodeWalk.Walker.WalkToElement: asks that no element before the one sought makes the length wrap, since the walk would then read on behind the data; with an even number of bytes, as every printed list has, none does.
- Registers.Registers.PackReal32: for exponents from -31 to 0 rounding is that of the mantissa after the shift, which drops its last bits, and only where the denormal branch does what its comment says; when it does is stated exactly.
- Mobile barriers, processes, resizing, binding to physical addresses, and communication of mobiles over channels.
- Channel swapping, external channels, the foreign function interface, priorities and affinity, several execution contexts, type shadowing and profiling.
- The other long arithmetic (`lsum`, `ladd`, `lsub`, `ldiff`, the long shifts), the remaining integer and host floating-point instructions, which are single expressions.
- The decoder of whole bytecode files on top of the TEncode walker, and the tools other than the TEncode library.
