# A model of the Adaptoid driver core

The driver turns an N64 controller adapter into a programmable joystick. Four of its files
hold its logic apart from the operating system, and this project models those four:

- `src_drv/script.c`: an interpreter for user bytecode, with tagged pointers, one array for
  globals, locals and operand stack, and a token budget;
- `src_drv/sched.c`: the cooperative scheduler of script threads, with its wake-time queue,
  node pool, re-entrancy latch, rate limit, event list and post-mortem slot;
- `src_drv/core.c`: the force-feedback engine (a 96-entry ring over a delta-sigma
  modulator), the keyboard and mouse-button state, the Controller Pak checksum;
- `src_drv/ioctl.c`: the notification queue and the SDK command block.

Each layer has a pure specification, theorems about it over every input and every run, and
an imperative form, a class or methods over arrays and linked nodes, whose `ensures` clauses
tie the new state to that specification.

| files | what is in them |
|---|---|
| `Words.dfy` | fixed-width integers, C division, bit tests |
| `Script.dfy`, `ScriptTheorems.dfy`, `ScriptMachine.dfy` | the interpreter: specification, slicing and arithmetic, the loop over mutable storage |
| `ScriptLaws.dfy`, `ScriptMeaning.dfy` | what each instruction does and means, the calling convention; that compiled code computes what its expression means |
| `SchedState.dfy`, `SchedNative.dfy`, `SchedInvariant.dfy` | threads, blocks and lists; the builtin library; what every step keeps |
| `SchedBuiltins.dfy` | what forking, waking, killing and stopping do to the threads concerned |
| `SchedPass.dfy`, `SchedRun.dfy`, `SchedLoad.dfy` | dispatching and faulting; input, latch and outer loop; load and unload |
| `SchedTheorems.dfy`, `SchedRate.dfy`, `SchedInput.dfy` | properties of whole runs, the rate limit, input handlers |
| `SchedOrder.dfy`, `SchedBucket.dfy`, `SchedPacket.dfy`, `SchedLaws.dfy` | who runs in a sweep, the bucket as an account, what a packet starts, what builtins and a load do |
| `ThreadRing.dfy`, `ThreadLists.dfy` | one linked list; the ready list and the pool together, with every move of a node between them |
| `SchedEngine.dfy` | the scheduler object |
| `FaultSlot.dfy`, `FaultTiming.dfy`, `FaultSchedules.dfy` | the post-mortem slot under every interleaving; the variable count against it; two schedules |
| `Effect.dfy`, `EffectPulse.dfy`, `EffectSetup.dfy` | one tick; the modulator's conservation law; sets of constant effects |
| `EffectBounds.dfy`, `EffectRuns.dfy`, `EffectOverflow.dfy` | the 32-bit bounds of one tick and of whole runs, and a run that leaves them |
| `EffectRing.dfy`, `EffectAgreement.dfy`, `EffectInside.dfy` | the ring, its agreement with the plain recurrence, when a lookahead sends nothing |
| `EffectMeaning.dfy`, `EffectTuning.dfy` | what a calibration makes of an effect, over whole runs; springs, and what stick and buttons make of the calibration |
| `EffectDither.dfy`, `EffectResend.dfy`, `EffectEngine.dfy` | which ticks the dither generator decides, what that does to a lookahead, the engine object |
| `Keys.dfy`, `KeyReports.dfy`, `KeyEngine.dfy` | key and button state, and what the host sees |
| `Crc.dfy`, `CrcTheorems.dfy`, `PakRead.dfy`, `PakConstants.dfy` | the checksum and what it catches |
| `Notify.dfy`, `NotifyTheorems.dfy`, `NotifyEngine.dfy` | events and waiters |
| `CommandBlock.dfy`, `CommandTheorems.dfy`, `CommandAnswers.dfy`, `CommandEngine.dfy` | the command block and its channel, what a walk keeps, what a client is answered |

## How the model is set up

- The environment is a parameter. Which allocations succeed (`grants`), what fresh storage
  contains (`junk`), which callers arrive during a pass (`arrivals`), which claims succeed and
  what a transfer brings (`claims`, `answers`), and what a completion calls back with
  (`callbacks`) are arbitrary sequences, and every theorem is about all of them. The interpreter
  takes its natives as an arbitrary function; `SchedNative.Native` is the driver's own library.
- A block of memory is a number that is never reused, and releasing one demands that it is
  live. A double release or a release of a foreign block therefore cannot be written down, and
  the proofs of those demands are the memory-safety result.
- Fields called `log`, `executed`, `sweeps`, `signals`, `takes`, `handed`, `emptied`, `sizes`,
  `posts`, `fates`, `gone`, `wire` and `acted`, and the `answers` of a notification queue, are
  books kept for the theorems. The driver has no such fields and nothing in the model branches on
  them. (The `answers` of a command block's bus are what its transfers bring.)
- Two lemmas show that what others are about exists: `SchedTheorems.InitInv` gives a scheduler that
  meets the invariant every run theorem starts from, and `CommandTheorems.SomeBlockLosesItsRead` a
  block that loses its read.
- Re-entrant calls reach a pass through the event sink. None of them runs a thread or posts an
  event, so the model takes those of one turn together, before that turn's events are drained.

## Where the code differs from its comments or from expectation

- The comment at `src_drv/ioctl.h:493` gives the identify entry as command 0x01 with a reply of
  3. The code at `src_drv/ioctl.c:1702-1703` looks for 0x00 or 0xFF. The model follows the code.
- `src_drv/ioctl.c:1787-1790` says that every read runs its pass again. A structural error at
  offset 0x3E marks the go byte, and from then on no read runs anything: `CommandTheorems.GoByte`
  and `CommandTheorems.WriteThenReadServesEveryEntry` give the exact condition, and
  `CommandTheorems.AnErrorAtTheEndLosesTheRead` a family of blocks that lose a read they own.
- A ring entry does not hold the dither generator's state (`src_drv/core.h:502-510`). Where the
  stored entries from a tick on are steady, that is, the generator decides neither a pulse nor a
  burst's length, a lookahead sends nothing (`EffectInside.InsideRing`); entries of at most 100
  without a burst are (`EffectInside.StrictlyInsideNothingIsSent`). Otherwise it may:
  `EffectResend.ArmedDitherResendsUnchangedEffect` follows a device from its initial state to an
  unchanged effect that goes out again. The generator decides a tick's pulse exactly when
  `EffectDither.Swings` holds of the stored carry and intensity.
- The filters are sized for eight running slots and there are thirty-two. With eight, no run
  leaves 32 bits (`EffectRuns.EightSlotsNeverOverflow`); with nine, a run from the initial state
  does: nine constant effects for two windows, then nine the other way round
  (`EffectOverflow.NineSlotsOverflow`).
- `core_sched_unload` clears the variable count at `src_drv/sched.c:425` and takes the post-mortem
  slot at `src_drv/sched.c:433-439`. In between, and only then, a parked snapshot and the count
  disagree (`FaultTiming.ParkedSnapshotsFit`). A drain takes the snapshot at `src_drv/ioctl.c:456`
  and cuts its copy by the count it finds at `src_drv/ioctl.c:484`. The copy stays inside the
  snapshot exactly when the script loaded by then has no more globals than the snapshot has words
  (`FaultTiming.DrainsStayInside`); `FaultSchedules.LargerLoadOverruns` shows that any larger load
  in between breaks it.
- `core_notify_wait` answers by comparing queue lengths. What the answer means in general is
  `NotifyTheorems.WaitComparesDeliveriesWithPosts`. A request that was completed is reported as
  pending exactly when its completion posts an event of its own, if that completion does not wait
  again or if nobody posts: `NotifyTheorems.WaitIsDeniedExactlyWhenItsCompletionPosts`.
- The guard at `src_drv/ioctl.c:1548-1550` cannot be reached: no parsed entry has both lengths
  that large. That is part of `CommandTheorems.ParseInOrder`.

- Six opcodes without a name, 0x25A to 0x25F, pass the range test at `src_drv/script.c:346` and are
  carried out as a logical or, although `docs/script-bytecode.txt:347` lists a status for illegal
  opcodes. `ScriptLaws.Meaning` follows the code.
- The low-pass of an axis rounds toward zero, so it stays one short of an effect it rises to
  (`EffectMeaning.LowPassReaches`). With no duty a raised effect therefore never fades:
  `EffectMeaning.ARaisedEffectNeverFades`.
- The muting threshold at `src_drv/core.c:896-897` divides a negative excess as an unsigned number. A burst
  still armed when the intensity falls to 80 or below mutes each of its last six pulses unless the
  generator comes to a multiple of three: `EffectMeaning.WeakBurstsAreMuted`.
- A stick at its lowest position, -128, wraps when it is negated (`src_drv/core.c:1154-1157`) and
  sets the duty of the highest: `EffectTuning.DutyOf`.
- A sleep of more than 214748 milliseconds does not last that long: `SchedLaws.SleepLasts` gives the
  exact condition.

## Model

| member | source | states |
|---|---|---|
| Script.VarIndex | src_drv/script.c:12-36 | an operand resolves exactly when it is a global below the count or a local below 200, and then to an index inside the shared array |
| Script.Exec | src_drv/script.c:100-416 | one instruction of arbitrary bytecode, from any ready state, keeps the storage; if the machine goes on or yields, the stack pointer is in 0..200 and the program counter is not negative |
| Script.Loop | src_drv/script.c:79-105 | the run ends for every program; a budget of 1 or less runs nothing and loses exactly one token; otherwise the balance stays at or above zero and instructions run never exceed tokens spent |
| Script.Run | src_drv/script.c:68-98 | from any stack pointer in 0..200 a run stops with a status other than running, storage intact; if it yields it can be resumed, and instructions run never exceed tokens spent |
| ScriptTheorems.LargerBudget | src_drv/script.c:79-93 | a run that stopped by itself is the same run under any larger budget, with the surplus left over |
| ScriptTheorems.TwoSlices | src_drv/script.c:79-93 | stopping after b1 tokens and resuming with b2 is one run of b1 + b2 - 1 tokens: same status, registers, variables, environment and tokens left |
| ScriptTheorems.SlicingIsInvisible | src_drv/script.c:79-93 | the same for any number of slices, for every program with natives that do not fake the budget status |
| ScriptTheorems.LoopKeeps | src_drv/script.c:229-279 | whatever every native call keeps, every run of every program keeps |
| ScriptTheorems.QuotientAndRemainder | src_drv/script.c:342-398 | division and remainder fit together in 32 bits with C's signs, on every operand pair the guard lets through |
| ScriptLaws.OperatorMeans | src_drv/script.c:334-411 | on every pair of words the operators are those of signed numbers cut to 32 bits: shifts are powers of two, comparisons the signed order, and a divide is refused exactly when its quotient does not exist or does not fit |
| ScriptLaws.DoOperator | src_drv/script.c:334-411 | an operator takes the top word as its left operand and the accumulator as its right |
| ScriptLaws.DoVariable | src_drv/script.c:110-143 | the five variable instructions through a tagged name: old or new value answered, the variable moved by one in 32 bits, or a bad name refused |
| ScriptLaws.DoStore | src_drv/script.c:299-331 | both stores take a word off the stack and write through the name they are given, each from its own side |
| ScriptLaws.DoAdjust | src_drv/script.c:182-192 | a signed stack adjustment lands where it says and stops the thread exactly when that is outside 0..200 |
| ScriptLaws.DoBranch | src_drv/script.c:203-226 | a branch is taken on its own condition and lands its signed operand away from the next instruction, forward or backward |
| ScriptLaws.CallsReturn | src_drv/script.c:229-297 | a call goes to its target one word deeper, and any return met at that depth with the same word on top goes to the instruction after the call, with the caller's depth and nothing else changed |
| ScriptLaws.DoLocal | src_drv/script.c:194-196 | the local named by an offset is the slot that far from the top of the operand stack |
| ScriptLaws.ArgumentsMeet | src_drv/script.c:194-196 | what a caller names as local k, the function it calls names as local k - 1 |
| ScriptLaws.Refusals | src_drv/script.c:151-351 | how each instruction without room, without a word or without a name stops the thread, the zero divisor first |
| ScriptLaws.CallRefusals | src_drv/script.c:229-279 | how a call that cannot be made stops the thread; one to an untagged word is passed over |
| ScriptMeaning.Compiled | src_drv/script.c:100-416 | the code emitted for any expression, with variables, counting, operators, stores, choices, reserved stack and calls of linked functions, wherever it stands: it takes the instructions the expression counts, leaves its value in the accumulator and its variables in the storage, keeps the stack, and stops with the expression's fault |
| ScriptMeaning.ScriptsAnswer | src_drv/script.c:68-416 | a whole run of such code and a return ends terminated with the value, a token gone for every instruction, or with the fault |
| ScriptMeaning.NegatedCall | src_drv/script.c:229-297 | a called function that answers 5, negated by its caller: the run ends with 0xFFFFFFFB |
| ScriptMachine.Machine.ExecInPlace | src_drv/script.c:100-416 | the in-place step, on a mutable array and fields, is the specified step |
| ScriptMachine.Machine.Run | src_drv/script.c:68-416 | the loop leaves environment, registers, array, budget and status as the specified run does, for any code |
| SchedState.ThreadAlloc | src_drv/sched.c:231-283 | a node handed out has at least the clamped stack size, zero registers and the next id; nothing but heap, pool and id counter changes, and a refusal uses no id |
| SchedState.Position | src_drv/sched.c:299-307 | the place for a wake time: everything before is due no later, the next thread is due strictly later |
| SchedState.FindThread | src_drv/sched.c:783-793 | the first thread with an id, or none when no thread has it |
| SchedInvariant.NativeKeeps | src_drv/sched.c:851-1014 | every builtin call, with any arguments and any allocation result, keeps block ownership, queue order and count, and every thread's debt |
| SchedInvariant.QueueKeeps | src_drv/sched.c:292-309 | queueing a thread keeps the ready list sorted by wake time with ties in queueing order, the count, and ownership |
| SchedBuiltins.ForkAddsAChild | src_drv/sched.c:811-849 | a fork answers -1 and leaves the list alone, or adds exactly one thread: the parent's place, wake time and live stack, accumulator 0, a new id that is the answer |
| SchedBuiltins.WakeReschedules | src_drv/sched.c:951-972 | the woken thread changes only its wake time and accumulator, every other thread stays as and where it was |
| SchedBuiltins.KillRetires | src_drv/sched.c:974-990 | the killed thread leaves the list for the head of the pool, and no thread with its id waits any more |
| SchedBuiltins.JoystickStaysInRange | src_drv/sched.c:866-899 | no builtin, relative moves included, takes the joystick outside 1200 either way |
| SchedBuiltins.SleepingThreadWaits | src_drv/sched.c:621-659 | a sleeping thread waits with its registers and live stack saved, in its node or a bigger one, unless memory is refused; nobody else moves |
| SchedBuiltins.FaultedThreadIsParked | src_drv/sched.c:667-715 | any other stop parks the thread with its context, its status and a copy of the globals; nobody else moves |
| SchedInvariant.WakeKeeps | src_drv/sched.c:951-972 | waking another thread keeps order, count, ownership and every debt |
| SchedInvariant.KillKeeps | src_drv/sched.c:974-990 | so does killing one |
| SchedPass.ResumeKeeps | src_drv/sched.c:583-615 | interpreting a thread keeps the whole invariant whatever its script does, and leaves it on its own node |
| SchedPass.DropKeeps | src_drv/sched.c:72-77 | a block in the scheduler's hands is live when it is released |
| SchedPass.Regrow | src_drv/sched.c:629-650 | a thread that outgrew its node gets a bigger one with its id and wake time, or is gone with its node released |
| SchedPass.Fault | src_drv/sched.c:667-715 | the faulted thread is parked, what was parked before is released once, and the event is posted only if the slot was empty; the ready list is untouched |
| SchedPass.Settle | src_drv/sched.c:617-659 | disposing of a stopped thread keeps every invariant, and so leaves its block in exactly one place |
| SchedPass.DispatchAll | src_drv/sched.c:1240-1261 | the sweep ends for every script, by the pair of tokens left and ready threads, and then nothing is due |
| SchedPass.FaultTake | src_drv/sched.c:335-355 | a take empties the slot and adds both blocks to those the client holds |
| SchedInput.SpawnQueues | src_drv/sched.c:1089-1113 | a bound handler that gets a node is queued for now at the slot's address with its arguments on its stack; otherwise the list is as it was |
| SchedRun.Turn | src_drv/sched.c:1217-1263 | after one turn the events are drained, and nothing is due unless a caller arrived |
| SchedRun.Passes | src_drv/sched.c:1217-1277 | the outer loop ends when callers stop arriving; then the latch is clear, events are drained, nothing is due and the timer is armed for the first waiting thread |
| SchedRun.Run | src_drv/sched.c:1199-1278 | a call that finds a pass in flight only leaves its time; any other settles the scheduler |
| SchedRun.OnInput | src_drv/sched.c:1115-1195 | a packet that changes nothing, or finds no script, only advances the packed pair; any other, outside a pass, ends settled |
| SchedLoad.Unload | src_drv/sched.c:357-455 | every block is released once and only those in clients' hands stay allocated |
| SchedLoad.Allocate | src_drv/sched.c:500-515 | if either allocation of a load fails nothing stays allocated |
| SchedLoad.Load | src_drv/sched.c:485-557 | a load succeeds exactly when a script is loaded afterwards, and then ends settled; a failed one leaves only clients' blocks |
| SchedTheorems.EveryBlockHasOneHolder | src_drv/sched.c:231-455 | after any calls, a live block is in exactly one place and a released one in none |
| SchedTheorems.UnloadLeaksNothing | src_drv/sched.c:357-455 | after any calls an unload leaves allocated only what clients took and kept |
| SchedTheorems.FailedLoadLeaksNothing | src_drv/sched.c:485-552 | so does a failed load, whichever allocation failed |
| SchedTheorems.ThreadsResumeAsTheyStopped | src_drv/sched.c:583-659 | whenever a thread was dispatched the machine held the program counter, accumulator, stack pointer and stack words it was born or slept with, the accumulator cleared if it was woken since |
| SchedTheorems.WaitingThreadsAreTheOwedOnes | src_drv/sched.c:811-849 | no thread is lost and none invented: the ready list holds exactly the ids born or asleep and not since dispatched, killed or unloaded |
| SchedTheorems.ThreadCountIsTheLength | src_drv/sched.c:292-309 | after any calls the thread count is the length of the ready list |
| SchedTheorems.ReadyListIsAStableQueue | src_drv/sched.c:292-309 | after any calls the list is sorted by wake time, ties in queueing order, and ids are distinct |
| SchedTheorems.PassLeavesNothingDue | src_drv/sched.c:1199-1278 | after a pass every waiting thread is due later, and the timer is armed no later than any of them |
| SchedTheorems.FaultsAreSignalledOncePerTake | src_drv/sched.c:684-714 | fault signals since the last unload are takes that found a thread plus one if the slot is occupied; a parked snapshot has one word per global |
| SchedTheorems.ScriptsDoNotNoticeSlicing | src_drv/sched.c:600-617 | with the builtin library, a script handed its tokens in any slices does what one run does |
| SchedRate.SweepMetered | src_drv/sched.c:1217-1261 | one credit and sweep keep the bucket invariant, also when the balance is negative and the credit truncated |
| SchedRate.InstructionRateIsLimited | src_drv/sched.c:1217-1261 | for sweeps at non-decreasing times, all threads together run at most 100000 instructions plus one per ten microseconds, in every window since a load |
| SchedBucket.BookIsSound | src_drv/sched.c:1217-1261 | one sweep: what the bucket had, plus one token for every ten microseconds, less what was taken, is left if it was not full; after a second without debt it starts full; it takes a token for each instruction and at most one more for each dispatch, and starves nobody who keeps within it |
| SchedBucket.BucketIsAnAccount | src_drv/sched.c:1217-1261 | over any calls between two loads in which the bucket is never full, the tokens left are those at the start plus the sum of the gains from sweep to sweep less all tokens taken |
| SchedBucket.ModestThreadsNeverStarve | src_drv/sched.c:1217-1261 | over any calls between two loads with sweeps a second apart and less than a bucket's worth of work in each, every sweep starts full and no thread stops for want of tokens |
| SchedOrder.DispatchRunsTheNext | src_drv/sched.c:1240-1252 | a dispatch runs the earliest of the waiting threads, the first queued among equals, and no other |
| SchedOrder.SweepsRunDueThreadsInTurn | src_drv/sched.c:1240-1261 | a sweep runs threads one after the other, each the earliest of those waiting at that moment and none before its time, until every one left is later |
| SchedInput.PacketHandlersStandInOrder | src_drv/sched.c:1089-1195 | whichever handlers memory is refused to, those with a thread stand together, behind every thread due by now and before every one due later, in the order of the packet's list; the next rows say what that list is |
| SchedPacket.PacketCovers | src_drv/sched.c:1150-1191 | read from the bytes, that list has a handler exactly for each slot the packet calls for: 0x12 and 0x13 always, 0x11 when a stick byte changed, 0x10 when a button byte changed, slot n when raw button n changed; each with the signed new and old readings, or the new state, as its arguments |
| SchedPacket.PacketRanked | src_drv/sched.c:1150-1191 | and its slots stand in the order 0x12, 0x11, 0x10, 0 to 15, 0x13 |
| SchedPacket.PacketStartsItsHandlers | src_drv/sched.c:1115-1195 | with memory for them, a packet that differs from the last adds to the ready list exactly one stretch, behind every thread due by now: one thread for each bound slot the bytes call for, in that order, due now at the slot's address, with those arguments on its stack |
| SchedLaws.SleepLasts | src_drv/sched.c:939-949 | a sleep lasts ten thousand units of 100 ns for every millisecond, counted from the thread's own wake time, exactly when the product fits 32 bits |
| SchedLaws.SleepMovesTime | src_drv/sched.c:928-949 | after such a sleep the thread's time has moved on by exactly what it asked for |
| SchedLaws.ArgumentsReachBuiltins | src_drv/sched.c:761-769 | the slot a script names as local k before a call is the one a builtin reads as argument k |
| SchedLaws.ButtonBuiltin | src_drv/sched.c:866-881 | the button named from 1 is set or cleared and no other; other numbers are passed over |
| SchedLaws.StickBuiltins | src_drv/sched.c:883-898 | each axis goes to the nearest place to the one asked for, absolutely or from where it is |
| SchedLaws.TellingBuiltins | src_drv/sched.c:900-923 | the five builtins that tell the host something put one event of their kind, with their two arguments in order, behind those that wait; absolute positions are cut to 0..0xFFFF |
| SchedLaws.TheLatestEventsWait | src_drv/sched.c:81-100 | however many events are posted, the last hundred wait in order and the rest are counted |
| SchedLaws.LoadStartsMain | src_drv/sched.c:485-557 | a load that succeeds runs its first pass with a full bucket, globals at zero and one thread at the start of the code, due at once |
| SchedLaws.ALatchedTimeIsServed | src_drv/sched.c:1207-1269 | a pass that was asked to look again does so at the time the last caller gave |
| SchedInput.ChangedButtonsHandled | src_drv/sched.c:1175-1184 | a button has a handler exactly when it changed, with its new state |
| SchedInput.ChangedButtonsAscend | src_drv/sched.c:1175-1184 | the changed buttons' handlers ascend by slot |
| ThreadRing.InsertBefore | src_drv/sched.c:27-33 | relinking four pointers puts a node into the circle at the given place and keeps every link |
| ThreadRing.Unlink | src_drv/sched.c:35-41 | relinking two neighbours takes a node out and keeps every other link |
| ThreadRing.Ring.constructor | src_drv/sched.c:16-20 | a sentinel linked to itself is the empty list |
| ThreadRing.Ring.IsEmpty | src_drv/sched.c:22-25 | the sentinel points to itself exactly when the list is empty |
| ThreadRing.Ring.Enqueue | src_drv/sched.c:292-309 | walking the links and inserting is queueing on the sequence the list stands for |
| ThreadRing.Ring.Find | src_drv/sched.c:783-793 | walking the links finds the node of the first thread with an id, or null |
| ThreadRing.Ring.PushFront | src_drv/sched.c:285-290 | a retired node becomes the first of the pool |
| ThreadRing.Ring.FreeAll | src_drv/sched.c:313-321 | every node is unlinked once, head first, and the list ends empty |
| ThreadLists.Lists.constructor | src_drv/sched.c:16-20 | two empty circles apart, nothing running |
| ThreadLists.Lists.Queue | src_drv/sched.c:292-309 | linking a loose node into the ready circle is queueing it, the count included; the pool's circle is untouched |
| ThreadLists.Lists.NewThread | src_drv/sched.c:231-283 | taking the pool's first node, putting it back when it is too small, and allocating are the specified allocation; the node is on neither circle |
| ThreadLists.Lists.Release | src_drv/sched.c:285-290 | a node in hand becomes the first of the pool |
| ThreadLists.Lists.TakeFirst | src_drv/sched.c:1240-1249 | the dispatch loop's unlinking takes the first thread off the ready circle and counts it off |
| ThreadLists.Lists.Wake | src_drv/sched.c:951-972 | unlinking a waiting node, rewriting it and linking it in again is the specified wake |
| ThreadLists.Lists.Kill | src_drv/sched.c:974-990 | a waiting node moves from the ready circle to the head of the pool as specified |
| ThreadLists.Lists.Exit | src_drv/sched.c:1255-1256 | the running node moves to the head of the pool |
| ThreadLists.Lists.Fork | src_drv/sched.c:811-849 | a node from the pool or the allocator, filled from the shared stack and queued, is the specified fork, refusals included |
| ThreadLists.Lists.ThreadNative | src_drv/sched.c:936-993 | the four builtins that touch threads do on the nodes what the builtin library does on the host, killing oneself included |
| ThreadLists.Lists.FreeLists | src_drv/sched.c:313-321 | both circles end empty and every block on them is released once, waiting ones first, each live when it is; the heap is the specified one |
| SchedEngine.Scheduler.constructor | src_drv/sched.c:117-186 | the initial state |
| SchedEngine.Scheduler.Post | src_drv/sched.c:81-100 | an event is appended, the oldest dropped when a hundred wait |
| SchedEngine.Scheduler.DrainEvents | src_drv/sched.c:102-113 | the events are emitted in order and the list is empty |
| SchedEngine.Scheduler.Interpret | src_drv/sched.c:583-617 | unpacking a node over the shared region and running the in-place interpreter is the specified resumption |
| SchedEngine.Scheduler.Dispose | src_drv/sched.c:617-659 | saving into the node or a bigger one, and the disposition by status, are as specified |
| SchedEngine.Scheduler.ParkFaulted | src_drv/sched.c:667-715 | the exchange followed by the releases and the signal is the specified fault |
| SchedEngine.Scheduler.DispatchDue | src_drv/sched.c:1240-1261 | the dispatch loop is the specified sweep, and ends |
| SchedEngine.Scheduler.CreditBucket | src_drv/sched.c:1220-1232 | the bucket after the clamped credit, which `SchedBucket.BookIsSound` says the worth of |
| SchedEngine.Scheduler.TakeSlot | src_drv/sched.c:335-355 | both blocks are handed out and the slot is empty |
| SchedEngine.Scheduler.SpawnHandlers | src_drv/sched.c:1150-1191 | the handlers spawned one after another, with the loop over the button bits, are those of the packet |
| SchedEngine.Scheduler.OnInput | src_drv/sched.c:1115-1195 | the entry point for packets, also when it is called from inside a pass |
| SchedEngine.Scheduler.OuterLoop | src_drv/sched.c:1217-1277 | turn after turn while callers arrive, then the timer |
| SchedEngine.Scheduler.Run | src_drv/sched.c:1199-1278 | the pass with its latch; calls from inside it go through this same method and return at the latch |
| SchedEngine.Scheduler.UnloadScript | src_drv/sched.c:412-455 | the teardown, block by block, is the specified one |
| SchedEngine.Scheduler.LoadScript | src_drv/sched.c:485-557 | the load, with every failure path, is the specified one |
| FaultSlot.EveryBlockHasOneOwner | src_drv/sched.c:335-355 | under every interleaving of faults, collections and unloads an allocated block belongs to the slot or to one actor, and is released once |
| FaultSlot.SignalsMatchCollections | src_drv/sched.c:684-714 | once all actors are done there was one signal per thread collected and one more if a thread is parked |
| FaultTiming.ParkedSnapshotsFit | src_drv/sched.c:424-439 | under every interleaving of faults, drains, unloads and loads, a parked snapshot has one word per global except exactly while an unload is between clearing the count and its exchange, and the count is 0 then |
| FaultTiming.LoadsFindTheSlotEmpty | src_drv/sched.c:433-552 | under every interleaving nothing is parked between an unload's exchange and the load that follows |
| FaultTiming.DrainsStayInside | src_drv/ioctl.c:443-503 | whatever happens between a drain's take and its copy: the copy stays inside the snapshot for every buffer exactly when the script loaded by then has no more globals than the snapshot has words, so always when no script with more was loaded in between |
| FaultSchedules.LargerLoadOverruns | src_drv/ioctl.c:483-488 | for any two counts, loading the larger script in between makes the copy longer than the snapshot, by a schedule |
| FaultSchedules.LookingBeforehandLosesASignal | src_drv/sched.c:706-714 | reading the slot before the exchange would leave a parked thread that nobody is told about, by a concrete schedule |
| EffectBounds.TuneKeepsCalibration | src_drv/core.c:1120-1211 | whatever the buttons and the stick do, duty stays in 0..100, its complement is 100 less duty, and the period stays in 0..1000 |
| EffectBounds.EightSlotsFit | src_drv/core.c:775-845 | one tick with at most eight slots running, from filters within 6 * 1016: every intermediate value fits a signed 32-bit word and the filters stay within that bound |
| EffectRuns.EightSlotsNeverOverflow | src_drv/core.c:775-1067 | over every run of programming, tilting, calibrating, forgetting and evaluating with at most eight slots running at any tick looked at, no intermediate value of any tick leaves 32 bits, and the filters stay within 6 * 1016 in the carry and in every ring entry |
| EffectOverflow.WidestIsReachable | src_drv/core.c:1120-1211 | three packets bring any calibration to duty 0 and period 1000 |
| EffectOverflow.NineSlotsOverflow | src_drv/core.c:775-1067 | a device as it starts, widened, that plays nine constant effects at full scale for two windows or more and then nine the other way round, overflows in a tick it evaluates |
| EffectPulse.PulsesConserveIntensity | src_drv/core.c:859-929 | over any run of intensities in 0..100, a hundred times the pulses plus the final accumulator is the initial one plus all intensity fed |
| EffectPulse.PulseCount | src_drv/core.c:859-929 | so the pulse count depends only on the sum |
| EffectPulse.DitherOnlySuppresses | src_drv/core.c:859-929 | for any nonnegative intensities the accumulator stays in 0..100, the burst in 0..14 and the generator below 10000, and pulses never exceed what was asked for |
| EffectRing.Loop | src_drv/core.c:1011-1052 | the window loop ends; the ring stays within 96 entries and base plus offset stays the tick asked for, through growth, roll-over and truncation |
| EffectRing.VerifyingChangesNoPulse | src_drv/core.c:1035-1056 | while verification lasts no pulse, count, offset or base changes |
| EffectRing.EvaluateDeliversLiveTicks | src_drv/core.c:964-1067 | an answer of 1 leaves pulses, count, base and payload alone; an answer of 0 delivers the pulses of live entries for the 32 ticks asked for |
| EffectAgreement.SamplingIsIdempotent | src_drv/core.c:702-758 | sampling a fixed stick twice is sampling it once |
| EffectAgreement.TickIsPlain | src_drv/core.c:775-929 | with no burst armed a tick is the plain recurrence, whatever the generator holds |
| EffectAgreement.RingAgreesWithRecurrence | src_drv/core.c:964-1067 | after any compute, verify and extend calls every live entry equals the straight tick-by-tick evaluation, as long as no tick the calls look at asks for more than 100 |
| EffectInside.RunsKeepTheChain | src_drv/core.c:995-1052 | after any calls, however loud the effects, every live entry is what the engine computes from the carry of the one before it |
| EffectInside.InsideRing | src_drv/core.c:964-1056 | a lookahead strictly inside such a ring answers 1 and leaves the entries alone, if from there on the generator decides neither a pulse nor a burst's length |
| EffectInside.StrictlyInsideNothingIsSent | src_drv/core.c:964-1056 | so it does after any calls from an empty ring, if the entry before carries no burst and the entries from there on ask for at most 100, whatever was evaluated before or will be later |
| EffectDither.GeneratorDecidesExactlySwings | src_drv/core.c:872-907 | for every window, some generator state passes a tick's pulse and another mutes it exactly when the accumulator is full, one to six burst ticks are left and the threshold straddles them |
| EffectResend.SteadyIsNeverResent | src_drv/core.c:1011-1056 | where the stored entries are steady no generator state makes a lookahead answer 0 |
| EffectResend.ResendsExactlyWhenSwinging | src_drv/core.c:1011-1056 | a lookahead at a tick that swings is answered 0 for some generator state, and at the last tick of the ring only then |
| EffectResend.ArmedDitherResendsUnchangedEffect | src_drv/core.h:502-510 | a device in its initial state computes a window for one constant effect, and its next lookahead inside that window judges the effect changed |
| EffectMeaning.SoftOrFillsWhatIsOpen | src_drv/core.c:822-823 | two magnitudes up to 200 combine so that what each leaves open multiplies, to within one unit; the result is symmetric and between the larger one and their sum |
| EffectMeaning.BoostLifts | src_drv/core.c:838-843 | below 1 nothing is left, below 32 a value is moved a third of the way to 32, the rest stays; larger in, no smaller out |
| EffectMeaning.FullDutyHasNoMemory | src_drv/core.c:825-827 | with complement 0 the intensity does not depend on the filters |
| EffectMeaning.FullDutyFollowsTheAxis | src_drv/core.c:812-843 | at unit gain a full duty passes one axis on as it is, up to the low-end lift |
| EffectMeaning.NoDutyIgnoresWhatStands | src_drv/core.c:812-843 | with duty 0 and both axes at their low-pass the intensity is 0 |
| EffectMeaning.NoDutyFollowsTheChange | src_drv/core.c:815-843 | at unit gain no duty passes on how far one axis is from its low-pass |
| EffectMeaning.CalibratingIgnoresEffects | src_drv/core.c:829-836 | while calibrating neither effects nor filters count, only duty times period |
| EffectMeaning.LowPassReaches | src_drv/core.c:815-818 | down from above the low-pass reaches a constant input; up from below it stays one short for good |
| EffectMeaning.SteadyDriveBeats | src_drv/core.c:775-929 | a steady v of 32 to 100 on one axis, fully on the duty: over n ticks of the straight evaluation there are (acc + n * v) / 100 pulses |
| EffectMeaning.ARaisedEffectNeverFades | src_drv/core.c:775-845 | with no duty an axis raised to s starts at s and, from tick 6 * s on, is left at 11 for as long as it stands |
| EffectMeaning.ALoweredEffectFades | src_drv/core.c:775-845 | lowered to s it falls silent |
| EffectMeaning.BurstsCountDown | src_drv/core.c:877-898 | a burst begins only above 100, nine to fourteen pulses long, counts down by one and ends when the accumulator runs low |
| EffectMeaning.OnlyBurstsAreMuted | src_drv/core.c:881-907 | a pulse is lost exactly when a burst is on and its threshold mutes it |
| EffectMeaning.StrongBurstsMuteTheirEnd | src_drv/core.c:896-900 | above 80 only among the last six of a burst, and only if the excess over 100 is twenty times what is left of it |
| EffectMeaning.WeakBurstsAreMuted | src_drv/core.c:896-900 | at 80 or below each of the last six is muted unless the generator comes to a multiple of three |
| EffectTuning.SpringPushes | src_drv/core.c:719-757 | outside its dead band a spring pushes with its side's coefficient from the edge of the band on, cut at its side's saturation |
| EffectTuning.SpringIsOdd | src_drv/core.c:719-757 | the spring turned round, pushed from the other side, pushes the other way |
| EffectTuning.SpringsDriveTheirAxes | src_drv/core.c:702-758 | the x spring follows the stick's x into the x axis, and the y spring its y |
| EffectTuning.DelayOnlyDelays | src_drv/core.c:786-804 | effects begun later do the same later |
| EffectTuning.CalibrationBeats | src_drv/core.c:915-927 | the calibration's own beat: a cycle of twelve ticks, those up to the complement's share with a pulse |
| EffectTuning.CalibrationFollowsTheStick | src_drv/core.c:1142-1208 | while the mode is on, y alone sets the duty, x alone the period, the D-pad the strength, and the engine is kicked exactly when period or duty changed |
| EffectTuning.CalibrationBegins | src_drv/core.c:1130-1192 | the chord turns the mode on from a period of zero |
| EffectTuning.CalibrationEnds | src_drv/core.c:1194-1211 | any of its buttons pressed after a release turns it off with a kick |
| EffectEngine.Engine.SumIntensity | src_drv/core.c:775-845 | the loop over the slots gives the specified intensity, filters and idle count |
| EffectEngine.Engine.ModulatePulse | src_drv/core.c:859-929 | the modulator's field updates are the specified pulse |
| EffectEngine.Engine.UpdateTune | src_drv/core.c:1120-1211 | the calibration edit and the kick answer are as specified |
| EffectEngine.Engine.SampleConditions | src_drv/core.c:702-758 | the pre-pass over all slots is as specified |
| EffectEngine.Engine.Evaluate | src_drv/core.c:964-1067 | the evaluation over the circular array is the specified one; the bitmap holds exactly its pulses, or it and the ring's head are untouched |
| Keys.StateFollowsHistory | src_drv/core.c:1651-1738 | after any events the held list is the held keys in press order, without duplicates and at most 161 long, and the masks are what the history says |
| Keys.HeldKeysFit | src_drv/core.c:1676-1688 | by counting, the array bound never drops a press |
| Keys.EventReports | src_drv/core.c:1651-1738 | a report goes out exactly when the state changed, and shows the new state |
| Keys.HostSeesTheState | src_drv/core.c:1610-1636 | the host's last reports are always the current state: the ten oldest keys, or all ErrorRollOver (section 10 of the USB HID Usage Tables 1.12) |
| Keys.UnloadReleasesEverything | src_drv/sched.c:401-410 | after an unload's releases the host sees no key, modifier or mouse button held, whatever came before |
| KeyReports.HostReadsTheKeysHeld | src_drv/core.c:1610-1738 | from the history alone: the host's last report shows the keys held in the order they were pressed and then zeros, or ten ones when more than ten are held, and a bit for each modifier and button held |
| KeyEngine.KeyPad.KeyEvent | src_drv/core.c:1651-1706 | the search, append and gap-closing over the dense array are the specified event |
| KeyEngine.KeyPad.SendKeyReport | src_drv/core.c:1610-1636 | the payload built is the specified report |
| KeyEngine.KeyPad.MouseButton | src_drv/core.c:1714-1738 | the button mask and its report are as specified |
| Crc.DataCrc8 | src_drv/core.c:2285-2312 | the two loops compute the register over the data's bits |
| CrcTheorems.CrcIsTheRemainder | src_drv/core.c:2285-2312 | for every length, a byte is the result exactly when message * x^8 is a multiple of x^8 + x^7 + x^2 + 1 plus that byte |
| CrcTheorems.FeedAllIsLinear | src_drv/core.c:2285-2312 | the register is linear in its start and its data |
| CrcTheorems.SyndromeIsRemainder | src_drv/ioctl.c:273-275 | the checksum of the data combined with the checksum received is the remainder of the whole word |
| CrcTheorems.ErrorsLeaveASyndrome | src_drv/ioctl.c:273-275 | every nonzero burst of at most eight bits and every error of odd weight leaves a nonzero syndrome, for every length |
| PakRead.Read | src_drv/ioctl.c:252-286 | the answer is decided by lengths and syndrome, and the output is written only on success |
| PakRead.IntactBlockIsAccepted | src_drv/ioctl.c:273-280 | a block as the accessory seals it is accepted |
| PakRead.OneChecksumPasses | src_drv/ioctl.c:245-280 | of the 256 checksum bytes exactly one passes, and the one with the other top bit says that there is no accessory |
| PakRead.CorruptedBlockIsRefused | src_drv/ioctl.c:273-280 | a block hit by such an error is never answered with success |
| PakConstants.EmulatedCrcIsTheChecksum | src_drv/ioctl.c:1421-1430 | the four constants answered for emulated writes are the checksums of 32 equal bytes |
| Notify.Pump | src_drv/ioctl.c:867-888 | the pump ends, with the latch clear and one side empty |
| Notify.PumpKeeps | src_drv/ioctl.c:867-888 | a pump keeps the books whatever the completions call back with |
| Notify.CancelKeeps | src_drv/ioctl.c:935-943 | a cancellation keeps every waiter in exactly one place |
| Notify.Flush | src_drv/ioctl.c:945-962 | a flush ends with no waiter parked, also if completions park more while it is at work |
| Notify.FlushKeeps | src_drv/ioctl.c:945-962 | and keeps the books |
| NotifyTheorems.EveryPostIsAccountedFor | src_drv/ioctl.c:890-914 | over any run, events posted are those delivered, dropped or queued, the queued ones the newest, and outside a call one side is empty |
| NotifyTheorems.DeliveriesFollowThePosts | src_drv/ioctl.c:880-886 | deliveries are a subsequence of posts, in order, each post at most once |
| NotifyTheorems.EveryWaitIsAccountedFor | src_drv/ioctl.c:916-962 | every wait is completed once, parked, or somebody else's, and completions come in the order of the waits |
| NotifyTheorems.CancelledMeansNeverAnswered | src_drv/ioctl.c:935-943 | a cancelled wait is never completed by the queue, whatever is called later |
| NotifyTheorems.FailedClaimsConsumeNothing | src_drv/ioctl.c:876-878 | waiters that cannot be claimed are dropped and no event is consumed |
| NotifyTheorems.WaitComparesDeliveriesWithPosts | src_drv/ioctl.c:926-932 | for every queue and whatever completions call back with, the answer is true exactly when more events were delivered during the call than were posted and kept |
| NotifyTheorems.WaitAnswersHonestly | src_drv/ioctl.c:926-932 | if no completion posts, a wait answers true exactly when it was completed on the spot, whatever else completions call |
| NotifyTheorems.WaitIsDeniedExactlyWhenItsCompletionPosts | src_drv/ioctl.c:926-932 | if nobody posts or the wait's own completion does not wait, the answer is wrong exactly when there was an event, the claim succeeded and that completion posted |
| NotifyEngine.Notifier.PumpInPlace | src_drv/ioctl.c:867-888 | the loop over the circular array and the waiters is the specified pump |
| NotifyEngine.Notifier.PostEvent | src_drv/ioctl.c:890-914 | posting over the circular array, with its overflow, is as specified |
| NotifyEngine.Notifier.WaitEvent | src_drv/ioctl.c:916-933 | parking, pumping and the answer are as specified |
| NotifyEngine.Notifier.CancelWaiter | src_drv/ioctl.c:935-943 | the waiter leaves the list, and the answer says whether it was there |
| NotifyEngine.Notifier.FlushInPlace | src_drv/ioctl.c:945-962 | the loop is the specified flush |
| CommandTheorems.ParseInOrder | src_drv/ioctl.c:1641-1676 | a block parses into entries inside its first 63 bytes, in order, without overlap, for ever later adapters, none with a long command and a long reply |
| CommandTheorems.ActWithin | src_drv/ioctl.c:1680-1744 | acting on an entry changes nothing but its reply and the two top bits of its reply length |
| CommandTheorems.WalkKeeps | src_drv/ioctl.c:1629-1748 | from any offset, either pass keeps the parsed entries, writes only replies, marks and the error's byte, and acts on exactly its own entries in order |
| CommandTheorems.ProcessKeepsTheCommands | src_drv/ioctl.c:1629-1748 | the same for whole blocks, byte by byte |
| CommandTheorems.GoByte | src_drv/ioctl.c:1669-1676 | the last byte changes exactly for a structural error at offset 0x3E |
| CommandTheorems.WriteThenReadServesEveryEntry | src_drv/ioctl.c:1750-1851 | a block written to run and then read has every entry acted on once, by the write or by the read, unless that error took the go byte |
| CommandTheorems.AnErrorAtTheEndLosesTheRead | src_drv/ioctl.c:1669-1676 | blocks that end in such an error and own a cached read: write and read both answer success, and the read acts on nothing |
| CommandTheorems.ByteOrderIsTransparent | src_drv/ioctl.c:1832-1846 | a big-endian client sees exactly the byte-swapped answers of a little-endian one |
| CommandTheorems.SwapTwice | src_drv/ioctl.c:1376-1390 | swapping twice changes nothing |
| CommandTheorems.ReplyIsReversed | src_drv/ioctl.c:1562-1626 | a full reply arrives reversed, the command's last byte is back in place, and the mark is set exactly when the status was refused |
| CommandTheorems.MarkMeansRefused | src_drv/ioctl.c:1727-1742 | a written entry comes back marked exactly when its adapter is missing, its reply is of the maximum length, or the wire refused it |
| CommandTheorems.IdentifyRemembers | src_drv/ioctl.c:1702-1726 | an identify keeps bit 0 of its status as the accessory's presence, and keeps the keep-alive exactly when the two low bits are 01 |
| CommandTheorems.PakReadAnswersTheLastWrite | src_drv/ioctl.c:1481-1537 | an emulated read answers what the last emulated write and the accessory's presence call for, with a fitting or inverted check byte |
| CommandAnswers.EveryEntryIsAnsweredAlone | src_drv/ioctl.c:1629-1851 | over a write and a later read, whatever happened to the adapters in between: what a client finds from an entry's start to its end is what its own pass makes of it alone, whatever else is in the block |
| CommandAnswers.CachedReadsShowTheLastPacket | src_drv/ioctl.c:1680-1700 | wherever the block asks for the cached controller, the client finds bytes 4, 3, 0 and 1 of that adapter's packet as it is at the read, or the mark and nothing else where there is no adapter |
| CommandAnswers.SwappedClientsSeeTheLastPacket | src_drv/ioctl.c:1680-1846 | a big-endian client finds the same in its own byte order |
| CommandAnswers.FirstCommandIsParsed | src_drv/ioctl.c:1642-1726 | the first command from its bytes: which adapter it is for, whether its lengths are taken, and which kind it is |
| CommandAnswers.AControllerReadFromItsBytes | src_drv/ioctl.c:1680-1700 | the bytes 01 04 01 behind k padding bytes come back followed by the buttons and stick of adapter k |
| CommandAnswers.MissingAdaptersAreMarked | src_drv/ioctl.c:1692-1742 | a command to an adapter that is not there comes back as it was but for the mark |
| CommandAnswers.ShortCommandsTravelWhole | src_drv/ioctl.c:1574-1588 | a command of up to four bytes goes out whole in one setup packet that names its length |
| CommandAnswers.LongCommandsTravelWhole | src_drv/ioctl.c:1589-1612 | a longer one is sent whole, its reply length first, and its reply fetched by the fixed request |
| CommandAnswers.ReadsByLength | src_drv/ioctl.c:1750-1804 | one byte is the number of adapters, also when there is none; nothing else is answered then, lengths over 64 are refused, and no other length but 64 carries anything |
| CommandAnswers.OnlyTheMotorRegisterDrives | src_drv/ioctl.c:1481-1512 | an emulated write is remembered, and drives the motor exactly for the motor register with 0 or 1 and an accessory |
| CommandEngine.SwapInPlace | src_drv/ioctl.c:1376-1390 | the loop over the groups is the specified swap |
| CommandEngine.ReceiveInPlace | src_drv/ioctl.c:1562-1626 | receiving over the last command byte, restoring it and reversing in place are the specified reception |
| CommandEngine.Port.ExecInPlace | src_drv/ioctl.c:1448-1627 | the three paths of one entry, in place, are the specified execution |
| CommandEngine.Port.ProcessInPlace | src_drv/ioctl.c:1629-1748 | the walk over the array is the specified one, and ends |
| CommandEngine.Port.ReadBlock | src_drv/ioctl.c:1750-1804 | the answers by length are as specified, and the channel is unchanged |
| CommandEngine.Port.WriteBlock | src_drv/ioctl.c:1806-1851 | the swap, the copy and the pass are as specified |

## Left out

- The WDM layer, power, plug-and-play, the remove lock and the vendor slot: `wdm.c` is not part of this model.
- `src_drv/harness.c`, `src_drv/kstub.h` and the scripts under `tools/`: fakes, vectors and formatting.
- The other requests of `src_drv/ioctl.c`, string and attribute replies, counters and per-request length checks: one-branch facts.
- HID descriptors, joystick packing, mouse movement, virtual mode, the button map and the accessory probe: small, easy members.
- The send chain of the effect engine (`src_drv/core.c:1217-1600`): its order depends on completions of the WDM layer.
- Waveforms and envelopes (`src_drv/core.c:607-693`): a slot's shape is an arbitrary function, and only the final clamp of each axis value is fixed.
- `core_reset` and disabled report collections: reports are taken to reach the host.
- Null pointers and null callbacks: objects and callbacks exist, except the joystick state, the native function, an adapter's state, transport and enable callback, which are optional.
- Wrap-around of the thread id, the event-drop counter, the fault counter and the effect tick after 2^31 or 2^32 steps, and of `code_count * 4`: plain integers.
- The little-endian byte-stream load: the code of a load is a sequence of words.
- The byte layout of the post-mortem dump and of thread nodes: a node is a record, a snapshot a sequence of words.
- The order in which a device registers or leaves, and the notification posts it causes: the adapters of a command block are a fixed sequence.
- A waiter parked twice, which would corrupt the waiter list: a wait call is named by its number.
- ScriptLaws.OperatorMeans: the three bitwise operators are those of 32-bit vectors and are not described bit by bit.
- ScriptMeaning.Compiled: the tree has choices and calls but no loops; a backward branch is `ScriptLaws.DoBranch`. Builtins are not part of an expression: `SchedLaws` has what they do.
- SchedEngine.Scheduler: its host fields are one record with sequences, because the interpreter is handed them as a value; the same list operations on linked nodes are `ThreadLists.Lists`, the circular event array is in `NotifyEngine`, and the builtins that only post events or move the joystick come as the function `SchedNative.Native`.
- SchedRun.Passes: a caller arrives at the end of a sweep and not between two dispatches; nothing the driver calls during a dispatch re-enters it.
- SchedBucket.BucketIsAnAccount: loads and unloads start a new account (`SchedLaws.LoadStartsMain`), so it is about the calls in between.
- SchedRate.InstructionRateIsLimited: windows start and end at sweeps and do not cross a load, which refills the bucket.
- EffectAgreement.RingAgreesWithRecurrence: tuning off, stick, effects and calibration fixed between calls, as the cache itself assumes.
- FaultSlot.EveryBlockHasOneOwner: the status word and the words of a snapshot are in `SchedPass.Fault`, not in the interleaving model, which books only how many words there are. An unload begins while no pass is in flight, which its caller checks (`src_drv/ioctl.c:381`), and while no other unload is under way, which the code takes for granted.
- NotifyTheorems.WaitIsDeniedExactlyWhenItsCompletionPosts: a first completion that waits again while some completion posts is only covered by `NotifyTheorems.WaitComparesDeliveriesWithPosts`; which waits are served then depends on every later claim and callback.
- EffectResend.ResendsExactlyWhenSwinging: when the first tick looked at does not swing but a later one does, or a burst starts in between, whether some generator state reaches the draws that resend it depends on the generator's orbits, which are not characterised.
