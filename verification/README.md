# Yalnix kernel: a Dafny model and its proofs

Yalnix is a small non-preemptive kernel. A handler runs to completion except where it calls
`ScheduleNextProcess`, so every protocol in it is a step system whose steps are the code between two
scheduler calls, interleaved with clock and terminal traps. A waiting process sits in several linked
structures at once, and almost every property worth having is about all of them together, over whole
runs. This project models those steps and proves what every run keeps.

## How it is organised

| file | contents |
|---|---|
| `Types.dfy` | options, bytes, small sequence functions |
| `Kernel.dfy` | the step system: control blocks, locks, pipes, terminals, scheduler containers, one function per step, `Enabled` and `Apply` |
| `Placement.dfy`, `Protocols.dfy`, `Family.dfy` | the three parts of the invariant: where each process is, what each waits for, the process tree |
| `Invariant.dfy`, `Settling.dfy`, `Kinship.dfy`, `Exactness.dfy` | the whole invariant and which steps are safe; what each step does to placement and to the tree; the exact condition under which a step keeps the invariant |
| `Runs.dfy`, `Delays.dfy`, `Capacity.dfy`, `Terminals.dfy`, `PipeData.dfy`, `Readers.dfy`, `PipeWakes.dfy` | what follows over runs |
| `Manual.dfy`, `Outcomes.dfy`, `Completeness.dfy` | what each call, return from the scheduler and trap does, in full and without the step functions; that every step is as its page says; that the pages determine it |
| `WakeUps.dfy` | what a step does to the processes that do not take it: exactly who is woken |
| `Calls.dfy`, `WriteCalls.dfy`, `PipeCalls.dfy`, `ReadCalls.dfy`, `WaitCalls.dfy`, `Zombies.dfy` | system calls over runs, from the step that makes the call to the one after which it has returned; children that exit |
| `Departures.dfy`, `PipeDepartures.dfy` | concrete runs, on every machine that runs the code as it is, in which it leaves the invariant or forgets a reader |
| `Handlers.dfy`, `Dispatcher.dfy` | the handlers with their state updated in place and their loops, each proved equal to its step function; the machine they make, driven by events |
| `Containers.dfy`, `LinkedSet.dfy`, `ClockWalk.dfy` | the heap-allocated queue and set, and the clock's walk over a list it unlinks from |
| `Buffers.dfy` | the pipe buffer and the terminal buffer as arrays shifted in place |
| `Frames.dfy`, `Ownership.dfy`, `Losses.dfy`, `FrameRuns.dfy`, `Sharing.dfy`, `FrameWitnesses.dfy`, `Tables.dfy`, `FrameCode.dfy` | physical frames: counting uses, each step, how many frames each step loses, runs from boot, when exactly a frame has two uses, runs that lose frames, page tables entry by entry, the loops over them |
| `Joint.dfy` | processes and frames as one machine |
| `ForkCopy.dfy` | fork's page copies and the kernel-stack copy on a machine with a TLB |
| `ExecBlock.dfy` | exec's argument block, byte by byte |

A process that has to go on inside the kernel when it is next dispatched has that place recorded in the
`resume` field of its control block; in the program it is the return address on its kernel stack.

## The main results

- **Exact preservation.** `Exactness.StepIsExact`: from a state that satisfies the invariant, a step leads to
  one that satisfies it if and only if the step is `Safe`. `Safe` restricts two steps only: an exit whose
  parent's `waiting` flag is set must find that parent blocked somewhere a wake-up does no harm, and a read that
  takes bytes from a pipe must find every writer registered on that pipe blocked. Both can be evaluated before
  the step. All other steps keep the invariant unconditionally. `Departures` and `PipeDepartures` give runs from
  boot in which each of the two fails. `Dispatcher.Replay` carries out any safe run with the handlers
  themselves.
- **What calls mean.** `Completeness.StepIsItsPage`: under the invariant a state is the next one if and only if
  it is the one the manual's page for the event describes, with every control block, object and queue. A blocked
  process is made ready if and only if what it waits for happens and it is next in line, or a child of it exits
  while its flag is set (`WakeUps.WokenExactly`). Over any safe run, whatever happens between a call and its
  return: a terminal write transmits its own message, whole and once; a pipe write adds its message whole, a
  pipe read gets what it takes off the front; a terminal read gets its part of the first line that comes;
  Acquire returns 0 with the lock; Wait returns after a child has exited, and collects every child
  recorded as a zombie before it; fork returns the child's pid in the parent and 0 in the child.
- **Scheduling.** Every live process is in exactly one place, round robin serves index k of the ready queue
  after exactly k + 1 scheduler calls, delayed processes wake on exactly the n-th clock trap, and the live
  processes never exceed `MAX_PROCESSES`.
- **Protocols.** Locks are safe and first-in first-out in every safe run; terminal output is whole messages and
  then a prefix of the current writer's; no wake-up of a terminal writer is lost; the bytes written to a pipe
  are those read plus those unread, in every run, safe or not. A blocked pipe reader is found by the next write
  unless one step has happened, and that step is named exactly (`Readers.ReadersAreExact`): a woken reader that
  goes on to a pipe emptied meanwhile. No writer sleeps whose message would fit, and where bytes are unread
  while readers are registered, a reader is ready to take them (`PipeWakes.PipesNeverStall`). Between two lines
  for a terminal its reads return consecutive pieces of what the first one left.
- **Frames.** In every run from boot, failed forks, breaks and stack growth included, no frame has two uses if
  and only if some process is current (`Sharing.SharedExactlyBetween`). Nobody is current between an exit and
  the switch that follows it: region 0 then still maps the dead process's kernel stack, whose frames are free,
  and if the kernel heap grows there a page of the heap and a page of the stack in use are one frame
  (`FrameWitnesses.HeapAndStackShare`, on every machine with room in the heap). A process always resumes on the
  kernel-stack frames it last ran on, and while it does not run neither its pages nor its stack entries change
  (`Tables.MemoryIsPrivate`). How many frames a step loses is given for every step: a failed fork or exec loses
  every free frame of the system, a successful exec three for each page less the pages it maps and plus the old
  pages that fail the memory check, everything else none. A run keeps all frames accounted for if and only if
  none of its steps is one of those (`FrameRuns.NeverLost`).
- **One machine.** Run together, over any safe run, a process lives exactly while its address space does,
  whoever is current runs on its own tables, and a fork is refused exactly where the estimate or the free queue
  refuses it (`Joint.OneMachine`, `Joint.ForkMeetsFrames`).
- **Copies.** A forked child's memory and kernel stack equal the parent's whatever stale translations the TLB
  held; exec's argument block reads back as the argument list.
- **Containers and arrays.** The linked queue, the linked set, the pipe array and the terminal array refine a
  sequence, a map, a stream and a shrinking line over every sequence of calls.

## Assumptions

- Kernel memory allocation succeeds. Pids are fresh and never reused.
- Lengths passed to reads and writes are at least 0 and terminal ids are in range; the source's own range
  tests (`tty_id > NUM_TERMINALS`, and the chained comparison at `src/syscall_handlers/input_output.c:27`)
  would let some bad ids through.
- One transmit trap arrives for each `TtyTransmit`.
- The kernel break does not move while the free-frame queue is filled at boot, and the kernel heap stays below
  the copy window (the bound in `SetKernelBrk` compares a page number with an address).
- The idle process only pauses; the machine halts when init exits.
- Frames: kernel stacks have two pages, as fork and `pcbFree` have it. Processes are numbered in
  order of creation, init first.
- Machine constants (`PAGESIZE`, region bounds, `TERMINAL_MAX_LINE`, the frame sizes in the argument block)
  are parameters; words are four bytes, little-endian, and region 1 ends below 2^31. Address arithmetic is on
  unbounded integers: an argument list too large for region 1 gives a negative address here and is
  refused by the same test.
- User pointers pass the kernel's validity check, except in `free_page_frame`, where the check is a parameter
  that may say anything for each page.
- The `waiting` flag is never reset by the source. `Config.clears` chooses between the code as it is
  (false) and a kernel that resets the flag when it wakes the parent (true). The results above hold for
  both; `Runs.ClearedExitsAreSafe` shows that with the reset every exit is safe.

## Where the code and its documentation differ

The model follows the code.

- `TtyRead`, `TtyWrite`, `PipeRead` and `PipeWrite` are described as returning a number of bytes; they return 0.
- `Wait` is described as collecting one child and returning its pid; one call collects every zombie and returns 0.
- `waiting` is set by `Wait` and never cleared (`src/syscall_handlers/process_coordination.c:348`), so a later
  exit of a child can put a parent on the ready queue that is not waiting.
- `pipe_read` puts every registered writer on the ready queue, also one already made ready
  (`src/datastructures/ipc_wrapper.c:630-637`), and a reader woken to an empty pipe does not register again
  (`src/datastructures/ipc_wrapper.c:604-608`).
- Forks and execs that run out of frames are meant to fail; they also drop the frames they have taken, which by
  then are all there were (`src/syscall_handlers/process_coordination.c:105-108`, `src/kernel.c:812-815`).
- The estimate in fork is said to count the living processes; it exceeds their number by up to 2
  (`Capacity.EstimateOvercounts` says by how much when).
- Between an exit and the next switch the kernel runs on a stack whose frames are already in the free
  queue (`Ownership.ExitLeavesTheStackFree`, `Sharing.SharedExactlyBetween`).

## Model

| member | source | states |
|---|---|---|
| Handlers.Machine.EnqueueCurrentProcess | src/kernel.c:552-580 | files the current process by its state field: ready queue, dead, blocked or delayed set; nothing when there is none |
| Handlers.Machine.ScheduleNextProcess | src/kernel.c:582-616 | pops before it enqueues, re-pops when the queue was empty, falls back to idle; equals the dispatch the placement proofs are about |
| Placement.DispatchKeepsPlaced | src/kernel.c:582-616 | a scheduler call neither loses nor doubles a process, and the one it picks is ready |
| Placement.WakeKeepsPlaced | src/syscall_handlers/input_output.c:128-134 | moving blocked processes, each once, from the blocked set to the ready queue keeps everyone in one place |
| Placement.ForkSettles | src/syscall_handlers/process_coordination.c:167-180 | a child enters exactly one place; a refused fork changes no place |
| Placement.ExitSettles | src/syscall_handlers/process_coordination.c:231-294 | an exit keeps placement when a waiting parent is really blocked |
| Placement.ExitUnsettles | src/syscall_handlers/process_coordination.c:269-275 | and breaks it, always, when the flag is set but the parent is not blocked |
| Placement.ClockSettles | src/traps.c:134-164 | a clock trap, with any number of expiries, keeps placement |
| Exactness.InvAtBoot | src/kernel.c:284-432 | the state in which the kernel first returns to user mode satisfies the invariant |
| Exactness.StepIsExact | src/syscall_handlers/process_coordination.c:266-291 | a step keeps the invariant if and only if it is safe: the exact condition for exit and for reads that take bytes from a pipe, none for all other steps |
| Exactness.ExitIsExact | src/syscall_handlers/process_coordination.c:269-275 | every exit outside the condition leaves the invariant |
| Exactness.PipeReadIsExact | src/datastructures/ipc_wrapper.c:629-637 | every draining read outside the condition leaves the invariant |
| Exactness.NeverStuck | src/kernel.c:607-613 | whoever is dispatched inside the kernel can go on, and every live process but init and idle has a live parent to report to |
| Kinship.StepKeepsKin | src/datastructures/pcb.c:74-88 | no step but fork and exit changes who is alive, anybody's parent or children, or adds a zombie |
| Runs.InvThroughout | src/kernel.c:582-616 | every state of a safe run satisfies the invariant |
| Runs.ClearedExitsAreSafe | src/syscall_handlers/process_coordination.c:348 | with `waiting` cleared on wake-up every exit is safe |
| Runs.ClearedRunsKeepInv | src/syscall_handlers/process_coordination.c:266-291 | so in that kernel every run keeps the invariant as long as pipes are drained with their writers blocked |
| Departures.SecondExitDoublesParent | src/syscall_handlers/process_coordination.c:269-275 | on every machine running the code as it is, with any number of terminals, a run from boot, fork, fork, wait, exit, exit, that has the parent twice in the scheduler |
| PipeDepartures.SecondReadDoublesWriter | src/datastructures/ipc_wrapper.c:629-637 | for every pipe length of at least 2, a run from boot in which two reads put one writer on the ready queue twice |
| Dispatcher.Step | src/traps.c:12-131 | the code that runs for an event, from a state satisfying the invariant and a safe step, does what the manual's page for the event says and what the step function says, and keeps the invariant |
| Dispatcher.Replay | src/traps.c:12-131 | carried out from boot by the handlers, any safe run ends in the state the step functions give |
| Outcomes.ForkMeetsPage | src/syscall_handlers/process_coordination.c:67-195 | refused: an error and nothing else; accepted: the caller gets the child's pid and the child, the child has 0, is ready, in user mode, not waiting, without family but its parent, and last in the ready queue |
| Outcomes.ExitMeetsPage | src/syscall_handlers/process_coordination.c:231-294 | the caller is dead, its children and zombies are init's, its parent is ready if it was flagged and has one more zombie otherwise, and the front of the ready queue runs |
| Outcomes.WaitMeetsPage | src/syscall_handlers/process_coordination.c:296-362 | zombies: all collected, 0; no children: an error; otherwise flagged, blocked, and the next process runs |
| Outcomes.DelayMeetsPage | src/syscall_handlers/process_coordination.c:442-460 | the three cases; a sleeper goes to the head of the delayed list with 0 in its register |
| Outcomes.AcquireMeetsPage | src/syscall_handlers/synchronization.c:25-46 | an unknown lock or one's own is an error, a free one is taken with 0, a held one queues the caller last and blocks it |
| Outcomes.ReleaseMeetsPage | src/datastructures/ipc_wrapper.c:236-257 | the owner hands the lock to the first waiter, who is ready and last in the ready queue, or unlocks it; anybody else gets an error |
| Outcomes.PipeWriteMeetsPage | src/datastructures/ipc_wrapper.c:532-577 | a message that fits is appended whole and the first reader woken; otherwise the writer is registered once and blocked with its message |
| Outcomes.PipeReadMeetsPage | src/datastructures/ipc_wrapper.c:580-639 | the reader gets as many bytes as it asked for or all there are, the next reader is woken if bytes remain, and all writers are; on an empty pipe it is registered last and blocked with its length |
| Outcomes.WriteTopMeetsPage | src/syscall_handlers/input_output.c:87-119 | a free terminal: the first chunk of the message given goes out and the caller is blocked at its start; a held one: the caller is queued last with its message |
| Outcomes.SendMeetsPage | src/syscall_handlers/input_output.c:111-140 | each pass sends the next chunk of at most TERMINAL_MAX_LINE bytes, or frees the terminal, records the message, wakes the next writer and yields to the ready queue, returning 0 |
| Outcomes.TtyReadMeetsPage | src/syscall_handlers/input_output.c:26-49 | unread bytes: the front in the length asked for, at once; none: registered and blocked with its length |
| Outcomes.LineMeetsPage | src/syscall_handlers/input_output.c:50-55 | back from the scheduler the reader has exactly the bytes it was left |
| Outcomes.TransmitMeetsPage | src/traps.c:264-296 | the one process that is transmitting is ready, and nothing else has changed |
| Outcomes.ReceiveMeetsPage | src/datastructures/tty_state.c:65-134 | every waiting reader is ready with its prefix, in list order; what lies beyond the longest, which some reader asked for, stays |
| Outcomes.ClockMeetsPage | src/traps.c:134-164 | every sleeper loses a tick, those on their last line up in list order ahead of the interrupted process, the rest keep their order, and the front of the ready queue runs |
| Outcomes.ContinueMeetsPage | src/kernel.c:582-616 | whoever is dispatched inside the kernel goes on with the message, length and place it was blocked with |
| Completeness.StepIsItsPage | src/traps.c:12-131 | under the invariant the page of an event describes exactly one next state, and it is the step's |
| WakeUps.StepLeavesOthers | src/kernel.c:582-616 | a step leaves the result register, the bytes read and the place in the kernel of everybody but the process that takes it; traps leave everybody's |
| WakeUps.WokenExactly | src/datastructures/ipc_wrapper.c:193-257 | a step makes a blocked process ready if and only if it is what the process waits for and the process is next in line, or the exit of its child while its flag is set |
| Calls.RegistersStay | src/kernel.c:463-495 | over any safe run, as long as a process does not run its result, bytes and place stay |
| Calls.ForkReturnsTwice | src/syscall_handlers/process_coordination.c:167-195 | fork leaves the child's pid in the caller's register, and the child, whenever it first runs, is in user mode with 0 in its own |
| Calls.DelayReturnsZero | src/syscall_handlers/process_coordination.c:442-460 | a sleeper finds 0 in its register when it runs again |
| WriteCalls.WriteSendsItsMessage | src/syscall_handlers/input_output.c:84-140 | from call to return, whoever else writes, the chunks a process sends to the terminal put together are the message it passed, it is recorded once, and the call returns 0 |
| PipeCalls.PipeWriteAddsItsMessage | src/datastructures/ipc_wrapper.c:532-577 | from call to return, however often it waits, a pipe write adds exactly its message in one piece and returns 0, or is refused at once |
| PipeCalls.PipeReadGetsWhatItTakes | src/datastructures/ipc_wrapper.c:580-639 | from call to return a pipe read takes the front of the pipe once, in the length asked for or all there is, and that is what it gets; or it is refused at once |
| ReadCalls.ReadGetsItsLine | src/syscall_handlers/input_output.c:26-55 | a terminal read that waits gets as much as it asked for of the first line that comes; one that finds bytes gets the front of them at once |
| WaitCalls.AcquireGetsTheLock | src/syscall_handlers/synchronization.c:25-46 | Acquire fails at once for an unknown lock or one's own, and otherwise returns 0 when the caller owns the lock, however long it queued |
| WaitCalls.ReleaseHandsOver | src/syscall_handlers/synchronization.c:48-81 | all outcomes of Release: the owner returns 0 and the first waiter owns the lock, is ready, in the ready queue and out of the blocked set, or the lock is unlocked; for anybody else an error and nothing moves |
| WaitCalls.WaitReturnsAfterAnExit | src/syscall_handlers/process_coordination.c:296-362 | Wait collects all zombies and returns 0, fails without children, or returns 0 after a child of the caller has exited in the meantime |
| Zombies.ExitIsRecorded | src/syscall_handlers/process_coordination.c:265-290 | a child leaves its parent's children; a parent that is not flagged has it as a zombie and it is among the dead |
| Zombies.ZombiesStay | src/syscall_handlers/process_coordination.c:296-345 | no step but its own Wait or exit takes a zombie from a process |
| Zombies.NextWaitCollects | src/syscall_handlers/process_coordination.c:284-345 | so the parent's next Wait, however much later, returns 0 and the child is gone from its zombies and from the dead |
| Runs.StepServes | src/datastructures/queue.c:60-89 | any step pushes only at the back of the ready queue and each scheduler call takes its front |
| Runs.RoundRobin | src/kernel.c:582-613 | index k of the ready queue is current after exactly k + 1 scheduler calls, whatever else happens |
| Runs.EmptyReadyQueue | src/kernel.c:595-605 | with nothing queued the scheduler resumes a ready current process and otherwise picks idle |
| Delays.DelayFallsAsleep | src/syscall_handlers/process_coordination.c:442-460 | delay n > 0 sleeps for n ticks, 0 returns at once, a negative n is an error, and neither touches the queues |
| Delays.ClockWalk | src/traps.c:138-155 | every delayed process loses one tick, exactly the expired ones leave the list and join the ready queue, nobody else changes |
| Delays.TickCounts | src/traps.c:138-155 | one tick takes a sleeper from n to n - 1, or wakes it |
| Delays.AsleepBetweenTicks | src/syscall_handlers/process_coordination.c:456-458 | no safe step but a clock trap moves or changes a sleeper |
| Delays.WakesOnTheNthTick | src/traps.c:134-164 | over any safe run a sleeper of n ticks is made runnable by exactly the n-th clock trap |
| Handlers.Machine.WalkDelayed | src/traps.c:138-155 | the walk by loop, with the list shrinking under it, does one tick for each process that was on it |
| Handlers.Machine.TrapClockHandler | src/traps.c:134-158 | walk, then one scheduler call |
| ClockWalk.Walk | src/traps.c:138-155 | the walk over heap nodes that unlinks the ones it has passed: the list that remains, the expired in order, every counter decremented once |
| ClockWalk.WalkIsTick | src/traps.c:138-155 | what the heap walk leaves is what the step function of the clock trap leaves: both lists in order, all ticks and states |
| Capacity.WhereIsEveryone | src/kernel.c:552-580 | current, ready queue, blocked set, delayed list and reserve together are the live processes, each once |
| Capacity.EstimateOvercounts | src/syscall_handlers/process_coordination.c:68-75 | fork's estimate is the number of live processes plus 1 or 2 minus 1 if idle has not run: never below |
| Capacity.ForkRespectsCapacity | src/syscall_handlers/process_coordination.c:67-79 | a fork that is not refused stays within the maximum |
| Capacity.NeverTooMany | src/syscall_handlers/process_coordination.c:67-79 | no safe run ever has more than MAX_PROCESSES live processes |
| Family.ForkKeepsFamily | src/syscall_handlers/process_coordination.c:149-176 | the tree stays rooted at init with children sets complete below init |
| Family.ExitKeepsFamily | src/syscall_handlers/process_coordination.c:250-266 | orphans move to init, chains to init stay finite, the dead leave their parent's children |
| Handlers.Machine.ForkHandler | src/syscall_handlers/process_coordination.c:67-195 | the process part of fork is the step function's, whose two return values, new block, children set and place in the ready queue `Outcomes.ForkMeetsPage` gives |
| Handlers.Machine.OrphanChildren | src/datastructures/pcb.c:78-88 | each child and zombie points at init afterwards, nobody else changes |
| Handlers.Machine.ExitHandler | src/syscall_handlers/process_coordination.c:231-294 | orphaning, death, waking or zombie, no current process, then the scheduler |
| Handlers.Machine.WaitHandler | src/syscall_handlers/process_coordination.c:296-362 | collects all zombies, refuses without children, otherwise sets waiting and blocks |
| Handlers.Machine.DelayHandler | src/syscall_handlers/process_coordination.c:442-460 | the three cases of delay |
| Handlers.Machine.LockNew | src/datastructures/ipc_wrapper.c:125-170 | a fresh unlocked lock, or an error at the limit |
| Handlers.Machine.AcquireLockHandler | src/syscall_handlers/synchronization.c:25-46 | the four outcomes of acquire, queued processes blocked |
| Handlers.Machine.ReleaseLockHandler | src/syscall_handlers/synchronization.c:48-81 | release is the step function's, whose outcomes `WaitCalls.ReleaseHandsOver` gives: hand-over to the first waiter, unlocking, or an error |
| Protocols.AcquireKeepsProtocol | src/datastructures/ipc_wrapper.c:193-210 | acquire keeps: unlocked locks have no waiters, waiters are blocked and distinct and not the owner |
| Protocols.ReleaseKeepsProtocol | src/datastructures/ipc_wrapper.c:236-257 | release keeps it, so the waiter it pops is never missing from the blocked set |
| Runs.LockSafety | src/datastructures/ipc_wrapper.c:193-210 | in every such state: no waiters on an unlocked lock, the owner does not wait, each waiter is in the blocked set, and a dispatched waiter owns the lock |
| Runs.AcquireSucceedsForOwner | src/syscall_handlers/synchronization.c:32-45 | acquire returns 0 to nobody but the owner, at once or after blocking |
| Runs.StepMovesLock | src/datastructures/ipc_wrapper.c:246-257 | a lock changes only by growing its queue, by a free lock being taken, or by a release that hands over to the first waiter |
| Runs.LockFifo | src/datastructures/ipc_wrapper.c:246-257 | the waiter at position k owns the lock after exactly k + 1 successful releases |
| Handlers.Machine.PipeNew | src/datastructures/ipc_wrapper.c:459-514 | an empty pipe with a fresh id, or an error at the limit |
| Handlers.Machine.PipeWriteHandler | src/datastructures/ipc_wrapper.c:532-561 | unknown pipe and oversized message refused, registration as a writer, then the loop |
| Handlers.Machine.PipeWriteSegment | src/datastructures/ipc_wrapper.c:557-577 | one pass of the loop: block, or append all of the message and wake one reader |
| Handlers.Machine.PipeReadHandler | src/datastructures/ipc_wrapper.c:580-609 | unknown pipe refused, registration as a reader, then the loop |
| Handlers.Machine.PipeReadSegment | src/datastructures/ipc_wrapper.c:604-639 | one pass: block, or take a prefix, wake a reader if bytes remain, wake all writers in list order |
| PipeData.PipesAreStreams | src/datastructures/ipc_wrapper.c:550-618 | over every run, safe or not: bytes written so far equal bytes read so far followed by the unread ones, and these never exceed the buffer |
| PipeData.StepKeepsStreams | src/datastructures/ipc_wrapper.c:550-618 | the same for one step of any kind |
| PipeData.ReadsAndWritesMoveWholeMessages | src/datastructures/ipc_wrapper.c:564-616 | a read splits the unread bytes into what it gets and what stays; a write that fits adds its whole message |
| Readers.ReadersAreExact | src/datastructures/ipc_wrapper.c:598-609 | a step keeps every blocked reader among the readers of its pipe if and only if it is not a woken reader going on to an empty pipe |
| Readers.OversleepingForgets | src/datastructures/ipc_wrapper.c:604-608 | that step leaves the reader blocked and in nobody's list |
| Readers.RegisteredThroughout | src/datastructures/ipc_wrapper.c:598-609 | over every safe run without that step all blocked readers stay registered |
| Readers.WriteWakesAReader | src/datastructures/ipc_wrapper.c:570-576 | where they are, a write that fits finds a blocked reader of the pipe and makes ready the one registered longest |
| PipeWakes.StepLosesNone | src/datastructures/ipc_wrapper.c:557-637 | every step, safe or not, keeps: no blocked writer's message fits, and where a pipe holds bytes while readers are registered a reader of it is ready |
| PipeWakes.NoneLostThroughout | src/datastructures/ipc_wrapper.c:557-637 | so does every safe run |
| PipeWakes.PipesNeverStall | src/datastructures/ipc_wrapper.c:557-637 | in every safe run from boot a writer asleep has a message that does not fit and a pipe that is not empty, and if a reader of it is registered too, another reader is ready to free room |
| PipeDepartures.WokenReaderSleepsOn | src/datastructures/ipc_wrapper.c:598-609 | for every pipe length of at least 1, a run of safe steps from boot in which a second reader takes the byte, the woken one sleeps again, and a later write does not wake it |
| Protocols.PipeWriteKeepsProtocol | src/datastructures/ipc_wrapper.c:553-576 | reader and writer registrations stay consistent with who is blocked on the pipe |
| Protocols.PipeReadKeepsProtocol | src/datastructures/ipc_wrapper.c:598-637 | the same for reads |
| Buffers.LeftShift | src/datastructures/ipc_wrapper.c:519-530 | the array loses its first bytes, is zero-filled at the end and unchanged beyond its size |
| Buffers.PipeBuffer.Append | src/datastructures/ipc_wrapper.c:564-568 | the unread prefix of the array grows by the message |
| Buffers.PipeBuffer.Remove | src/datastructures/ipc_wrapper.c:612-618 | the reader gets a prefix and the array keeps exactly the rest |
| Buffers.ReplayPipe | src/datastructures/ipc_wrapper.c:519-618 | over every sequence of calls the array delivers what an unbounded stream would |
| Buffers.StreamConserved | src/datastructures/ipc_wrapper.c:550-618 | and in such a sequence accepted bytes equal delivered bytes followed by the unread ones |
| Handlers.Machine.TtyWriteTop | src/syscall_handlers/input_output.c:87-110 | the availability loop is the step function's, whose outcomes `Outcomes.WriteTopMeetsPage` gives: queue with the message, or take the terminal and send its first chunk |
| Handlers.Machine.TtySendFrom | src/syscall_handlers/input_output.c:111-140 | one chunk and block, or finish: free the terminal, pop and wake the next writer, yield to it |
| Handlers.Machine.TrapTTYTransmitHandler | src/traps.c:264-296 | the current writer is made ready, or an unheld terminal becomes available |
| Protocols.WriteTopKeepsProtocol | src/syscall_handlers/input_output.c:87-110 | taking or queueing for a terminal keeps one exclusive writer, distinct blocked waiters and no lost wake-up |
| Protocols.SendFromKeepsProtocol | src/syscall_handlers/input_output.c:111-140 | so does every chunk and the hand-over at the end |
| Protocols.TransmitKeepsProtocol | src/traps.c:281-290 | a transmit trap always finds its writer, blocked |
| Terminals.OutputIsWholeMessages | src/syscall_handlers/input_output.c:107-125 | over every safe run a terminal has been sent whole messages and then a prefix of the holder's, in chunks of 1 to TERMINAL_MAX_LINE bytes |
| Terminals.OneSender | src/syscall_handlers/input_output.c:107-125 | at most one process is in the transmit section, and it is the recorded writer |
| Terminals.FinishedMeansSent | src/syscall_handlers/input_output.c:111-125 | a message counts as finished only when all of it has gone out, and each pass adds exactly one chunk |
| Terminals.NoLostWakeUp | src/syscall_handlers/input_output.c:124-139 | while writers queue, the terminal is held or a popped writer is current or ready and will look again; nobody is queued twice |
| Handlers.Machine.TtyReadHandler | src/syscall_handlers/input_output.c:3-49 | consume at once what is unread, or register and block |
| Handlers.Machine.TtyReadFinish | src/syscall_handlers/input_output.c:50-55 | back from the scheduler: the line is handed over and the reader deregistered |
| Handlers.Machine.WalkReaders | src/datastructures/tty_state.c:86-125 | every waiting reader gets its prefix and is made ready, in list order |
| Handlers.Machine.TrapTTYReceiveHandler | src/traps.c:242-261 | an out-of-range line is ignored; otherwise fan-out and consumption of the longest prefix |
| Terminals.LineFansOut | src/datastructures/tty_state.c:66-134 | each reader gets the prefix it asked for and is ready; the terminal keeps exactly what lies beyond the longest; waiting readers imply there was nothing unread |
| Terminals.LongestCovers | src/datastructures/tty_state.c:86-113 | the amount consumed is the largest prefix handed out, reached by some reader |
| Terminals.StepHandsOver | src/syscall_handlers/input_output.c:32-36 | no step but a line for the terminal changes what is unread there, save that a read in range takes its front |
| Terminals.ReadsRebuildTheLine | src/syscall_handlers/input_output.c:32-36 | over any run without a line for the terminal, what its reads got, put together and followed by what is unread, is what was unread at the start |
| Protocols.ReceiveKeepsProtocol | src/datastructures/tty_state.c:66-134 | delivery keeps the registrations of readers consistent |
| Buffers.TtyBuffer.Consume | src/datastructures/tty_state.c:136-186 | on arrays: the receipt gets the prefix and zeros, the buffer keeps the rest; requests out of range change nothing |
| Buffers.TtyBuffer.Fill | src/datastructures/tty_state.c:107-113 | one reader's buffer holds exactly its prefix of the line |
| Buffers.TtyBuffer.HandleReceived | src/datastructures/tty_state.c:65-134 | all readers filled, the terminal buffer shifted past the longest prefix |
| Buffers.SlicesRebuild | src/datastructures/tty_state.c:136-186 | what successive requests take, none of it for requests out of range, is consecutive slices that rebuild the line with what is left |
| Buffers.ReadsTakeSlices | src/syscall_handlers/input_output.c:32-36 | in any sequence of lines and reads, the reads after a line get those slices of what it left |
| Buffers.ReceiveLine | src/datastructures/tty_state.c:65-134 | on arrays, a line for any list of waiting requests: every reader holds its prefix, the buffer the rest |
| Buffers.ReadOnce | src/datastructures/tty_state.c:136-186 | on arrays, one request gets its slice and leaves the rest |
| Buffers.ReplayTty | src/datastructures/tty_state.c:65-186 | over every sequence of lines and requests the terminal array delivers and keeps exactly that |
| Containers.Queue.Push | src/datastructures/queue.c:24-57 | front, rear, count and links stay those of the sequence with one more at the end |
| Containers.Queue.Pop | src/datastructures/queue.c:60-89 | the first element, or nothing from an empty queue; rear reset with the last |
| Containers.ReplayQueue | src/datastructures/queue.c:10-89 | over every sequence of calls a new linked queue answers as a first-in first-out sequence |
| Containers.PushesComeBackInOrder | src/datastructures/queue.c:24-89 | what is pushed is popped, complete and in order |
| LinkedSet.LinkedSet.Insert | src/datastructures/set.c:58-91 | a new key goes to the head; a negative or known key is refused and changes nothing |
| LinkedSet.LinkedSet.Find | src/datastructures/set.c:93-113 | the item of the key, or nothing |
| LinkedSet.LinkedSet.Pop | src/datastructures/set.c:115-164 | unlinks the node of the key at head, middle or end, and only that one |
| LinkedSet.RemoveFromMap | src/datastructures/set.c:133-159 | unlinking in the list is removal from the map |
| LinkedSet.ReplaySet | src/datastructures/set.c:45-164 | over every sequence of calls a new linked set answers as a finite map, its count being the map's size |
| FrameCode.FrameTables.InitPageTables | src/kernel.c:109-176 | region 0 at boot: text, data and heap, and stack mapped to frames of the same number; region 1: nothing mapped |
| FrameCode.FrameTables.InitFreeFrameQueue | src/kernel.c:182-217 | exactly the frames outside text, data, heap with its margin, and stack are queued, in order |
| FrameRuns.BootIsInv | src/kernel.c:109-217 | no frame is both mapped and free at boot, or mapped twice |
| FrameCode.FrameTables.GrowUp | src/kernel.c:84-103 | the ascending fill loop of the heap and of `BrkHandler`: table, queue and success as the fill function says |
| FrameCode.FrameTables.GrowDown | src/traps.c:208-229 | the descending fill loop of stack growth |
| Frames.FillUpConserves | src/syscall_handlers/process_coordination.c:393-408 | the frames that leave the queue are exactly those the table gains, also when it runs out half-way |
| Frames.FillUpFills | src/syscall_handlers/process_coordination.c:393-408 | on success every page of the range is valid, and valid pages and pages outside it are untouched |
| Frames.FillDownConserves | src/traps.c:208-229 | conservation for stack growth |
| Frames.FillDownFills | src/traps.c:208-229 | on success the stack reaches the page asked for, nothing else changes |
| Frames.CopyConserves | src/syscall_handlers/process_coordination.c:96-118 | fork's new table names exactly the frames fork took, at whatever page it stops |
| Frames.CopyTakes | src/syscall_handlers/process_coordination.c:96-118 | fork's loop succeeds exactly if there is a frame for each valid page; where it fails it has emptied the queue |
| Frames.LoadTakesThree | src/kernel.c:799-844 | exec's loop takes exactly three frames a page and maps exactly the planned pages; it fails exactly if there are fewer, having emptied the queue |
| Frames.ReleasedAll | src/datastructures/pcb.c:106-118 | the frames released from a table are the frames it maps, each as often |
| FrameCode.FrameTables.PcbExit | src/datastructures/pcb.c:166-231 | pushes the frames of region 1 and of the kernel stack and forgets both; nothing for null |
| FrameCode.FrameTables.PcbFree | src/datastructures/pcb.c:90-164 | pushes whatever is still there |
| FrameCode.FrameTables.TakeApart | src/syscall_handlers/process_coordination.c:269-291 | the waiting-parent path and the zombie path, with its later collection, push the same frames once |
| FrameCode.FrameTables.SwitchStacks | src/kernel.c:478-490 | the saved entries of the process that ran and the loaded ones of the next, also when they are the same process |
| FrameCode.FrameTables.LoadPages | src/kernel.c:793-844 | the page loop of exec, three pops a page |
| FrameCode.FrameTables.ReleaseOld | src/kernel.c:852-858 | the old pages that pass the memory check are unmapped and their frames queued in order, the others stay as they are |
| FrameCode.FrameTables.LoadProgram | src/kernel.c:793-943 | the table part of exec in one: fails exactly if there are not three frames a page, before anything is released; otherwise exactly the planned pages are valid, text readable and executable, the rest readable and writable, each in the frame taken for it |
| Ownership.StepKeepsInv | src/kernel.c:799-865 | every step from a state in which no frame has two owners leads to one, uses no frame that was not there, and moves nobody's kernel stack; whoever is current owns region 0's stack entries, and while nobody is they count as nobody's |
| Ownership.ForkAccounted | src/syscall_handlers/process_coordination.c:96-163 | a fork uses no frame twice, and a successful one keeps all accounted for |
| Ownership.ExecAccounted | src/kernel.c:799-865 | exec uses no frame twice and brings none in |
| Losses.ForkSucceeds | src/syscall_handlers/process_coordination.c:96-163 | fork succeeds if and only if the queue has a frame for each valid page and two more; otherwise all that changes is that the queue is empty |
| Losses.FailedForkLosesAll | src/syscall_handlers/process_coordination.c:105-108 | a failed fork loses every free frame and nothing else, so it loses none exactly if there was none |
| Losses.FailedExecLosesAll | src/kernel.c:809-815 | so does a failed exec |
| Losses.ExecCounts | src/kernel.c:799-865 | a successful exec loses three frames a page less the pages mapped, and the old pages that fail the memory check |
| Losses.StepLoses | src/kernel.c:799-865 | the number of frames each kind of step loses |
| Losses.LosesNothing | src/kernel.c:809-815 | the condition, readable before the step, under which that number is zero; a successful exec loses at least two frames a page |
| Losses.StepConserves | src/syscall_handlers/process_coordination.c:96-163 | all frames stay accounted for if and only if that condition holds, for every step |
| Ownership.ExitAccounted | src/datastructures/pcb.c:166-231 | exit is conserving although it releases the saved copy of the kernel-stack entries |
| Ownership.ExitLeavesTheStackFree | src/syscall_handlers/process_coordination.c:290-291 | until the next switch region 0's stack entries name frames that are free |
| Ownership.StepFormed | src/kernel.c:463-495 | after every step the saved stack entries of a running process other than init are region 0's, and nobody's kernel-stack frames have changed |
| FrameRuns.NeverShared | src/kernel.c:799-865 | no run from a state in which no frame has two owners reaches one in which some frame has, entries counting as in `Ownership.StepKeepsInv` |
| FrameRuns.SavedAfterSwitch | src/kernel.c:478-490 | once any switch has happened, the saved stack entries of whoever runs, init included, are region 0's |
| FrameRuns.NeverInvented | src/kernel.c:182-217 | no frame is ever in use that was not there at the start |
| FrameRuns.NeverLost | src/datastructures/pcb.c:90-231 | in a run all frames stay accounted for if and only if each of its steps keeps them |
| FrameRuns.LossesAddUp | src/kernel.c:799-865 | the frames at the start of any run are those at its end and the losses of its steps |
| FrameWitnesses.ForkLosesFrames | src/syscall_handlers/process_coordination.c:103-108 | on any machine and for any program of init, with fewer frames free than its pages and a kernel stack: a run from boot, idle, exec, fork, in which they are all gone |
| FrameWitnesses.ExecLosesFrames | src/kernel.c:799-844 | on any machine and for any program: a run from boot in which loading init leaves any given number of frames free and loses exactly three a page less the pages of the program |
| Sharing.EntriesDiffer | src/kernel.c:182-217 | two valid entries anywhere, in region 0, region 1 tables or kernel stacks, name different frames, region 0's stack entries only while a process is current |
| Sharing.FreeIsUnused | src/kernel.c:182-217 | no free frame is mapped, region 0's stack entries aside while nobody is current |
| Sharing.FreeIsDistinct | src/kernel.c:182-217 | the free queue has no duplicates |
| Sharing.SharedExactlyBetween | src/syscall_handlers/process_coordination.c:290-291 | in every state of every run from boot, counting region 0's stack entries always: no frame has two uses if and only if a process is current |
| Sharing.NobodyRunsAfterExit | src/syscall_handlers/process_coordination.c:290-291 | which nobody is exactly from an exit to the next switch |
| FrameWitnesses.HeapAndStackShare | src/syscall_handlers/process_coordination.c:290-291 | on any machine with room in the heap, and for any program of init: a run from boot in which a child exits, the heap grows before the next switch, and one frame is a page of both the heap and the stack in use |
| FrameRuns.HomesStay | src/kernel.c:463-495 | as long as a process lives its kernel-stack frames stay the same, over any run |
| FrameRuns.ResumesOnItsOwnStack | src/kernel.c:463-495 | whenever it runs, region 0 has the stack entries it had each time before |
| FrameRuns.ForkThenExit | src/syscall_handlers/process_coordination.c:269-291 | a successful fork, then any switches and any growth of the child, then its exit, restores the multiset of free frames and every other table and kernel stack |
| Tables.ExecMakesTable | src/kernel.c:793-943 | after an exec that finds its frames a page is valid exactly if the plan maps it, text from its first page up to data has protection 5 and every other valid page 3, each in the frame taken for it; nobody else's memory changes |
| Tables.ForkMakesTable | src/syscall_handlers/process_coordination.c:92-163 | a fork that fits gives the child a page where the parent has one, with its protection, and a writable kernel stack, on the front of the queue in order; nothing else changes |
| Tables.FailureEmptiesTheQueue | src/syscall_handlers/process_coordination.c:103-108 | a fork or exec short of frames changes nothing but the queue, which is empty then |
| Tables.HeapGrows | src/kernel.c:84-103 | the missing pages of the range, upwards, get the frames of the queue in order with protection 3 as long as there are any, and nothing else changes |
| Tables.BrkGrows | src/syscall_handlers/process_coordination.c:393-408 | the same for the user heap |
| Tables.StackGrows | src/traps.c:208-229 | the same for the user stack, downwards from the top page |
| Tables.IdleMakesTable | src/kernel.c:340-391 | idle has one writable page, the top one, and a writable kernel stack |
| Tables.ExitGivesBack | src/datastructures/pcb.c:166-231 | exit appends the frames of region 1 and of the kernel stack to the queue and changes nobody else's memory |
| Tables.SwitchSwaps | src/kernel.c:478-490 | a switch saves the stack entries of whoever ran, loads the next one's, and changes no table |
| Tables.ReleasedAre | src/kernel.c:852-858 | exec gives back the frame of a page exactly if the page is valid and passes the check |
| Tables.MemoryIsPrivate | src/kernel.c:463-495 | over any run, while a process does not run its region 1 table and saved stack entries do not change |
| Tables.FreeAtBoot | src/kernel.c:182-217 | queued at boot are exactly the frames from two above the kernel break on that are outside the kernel stack, in ascending order |
| Tables.MappedAtBoot | src/kernel.c:109-176 | at boot text has protection 5, data, heap and stack 3, each page in the frame of its number, and nothing else is mapped |
| Joint.ForkMeetsFrames | src/syscall_handlers/process_coordination.c:67-195 | processes and frames together: fork returns a live child with a space of its own exactly if the estimate allows one and the queue has its frames; otherwise an error and no process, the frames untouched where the estimate refused and all gone where they were short |
| Joint.StepKeepsInv | src/kernel.c:463-616 | every safe step of the kernel with its frame moves and its stack switch, exits with any heap growth inside them, and every memory step keep each process alive exactly while its space is, and the current process on its own stack |
| Joint.OneSpaceEach | src/kernel.c:463-616 | there are as many live address spaces as live processes |
| Joint.OneMachine | src/kernel.c:284-616 | the same over every run of such steps from boot, with at most MAX_PROCESSES live address spaces and no frame used twice |
| ForkCopy.Machine.CopyPage | src/syscall_handlers/process_coordination.c:119-139 | map, flush, copy, unmap: the new frame holds the page, whatever the TLB held before the flush |
| ForkCopy.Machine.CopyRegion1 | src/syscall_handlers/process_coordination.c:81-141 | the child's region 1 has the parent's validity, protection and contents; no frame outside the free queue changes; only the window entry of region 0 does |
| ForkCopy.Machine.CopyKernelStack | src/kernel.c:528-546 | the running kernel stack, page by page, in the new process's frames |
| ForkCopy.Machine.Fork | src/syscall_handlers/process_coordination.c:81-182 | fork's memory side: child image and kernel stack equal to the parent's, parent untouched, or failure with the frames taken so far gone from the queue |
| ForkCopy.ForkMayCopy | src/syscall_handlers/process_coordination.c:96-141 | in every run from boot what the copying relies on holds for whoever runs: free frames distinct, apart from its pages and kernel stack, and all in memory |
| ForkCopy.CopyReachesFrame | src/syscall_handlers/process_coordination.c:129-133 | without a flush the copy arrives exactly if no stale translation of the window points elsewhere |
| ExecBlock.CountBytes | src/kernel.c:711-716 | the size is that of all strings with their terminators |
| ExecBlock.BlockFits | src/kernel.c:728-755 | if the check passes, pointers lie below strings, both inside the mapped stack pages, the block aligned to 8 |
| ExecBlock.RefusalIsNeeded | src/kernel.c:751-755 | if it fails, the stack and the program would have no page between them |
| ExecBlock.PlaceIsTight | src/kernel.c:722-749 | strings at the top, the pointer block right below them but for alignment to 8, the stack pointer one frame below that, and the fewest stack pages that reach it |
| ExecBlock.SaveArguments | src/kernel.c:782-786 | the kernel buffer holds all strings in order |
| ExecBlock.BuildBlock | src/kernel.c:966-976 | argc, then pointer and string for each argument, then two NULL words |
| ExecBlock.BlockRoundTrips | src/kernel.c:964-976 | reading argc, pointers and strings back gives the original list, argv and envp end in NULL, no pointer leads into the block, nothing below it changed |
| ExecBlock.LoadArguments | src/kernel.c:706-786 | for every argument list: refused with memory untouched exactly if the stack would not fit, otherwise built inside the mapped pages and readable back |

## Left out

- Condition variables: wait neither blocks its caller nor takes the lock again, signal looks in the delayed set, and broadcast counts against a queue that shrinks; there is no protocol to state.
- The shrinking branch of `BrkHandler`: it assigns where it means to compare, edits region 0 and queues the address of a local variable.
- Reclaiming a lock, pipe or condition variable that still has waiters: it frees processes that are still in the blocked set.
- The second `pcbFree` of a zombie in one `WaitHandler` call: the model has one call.
- Handlers.Machine.ExitHandler: does not keep the exit status, nor the copy of it in the parent; no protocol depends on them.
- Handlers.Machine.WaitHandler: does not store a status for the caller; with several zombies it would be that of the latest.
- The validity checks on user pointers: abstract, as described above.
- `SetKernelBrk` itself, heap growth before virtual memory is enabled, and shrinking the kernel heap: they depend on linker symbols and on an allocator that calls back into them.
- Opening and reading the program file, registers other than the TLB flush, `TtyTransmit` and `TtyReceive` themselves, tracing, `Halt` and the `helper_` functions.
- Boot plumbing, system call dispatch, trap registration, `init.c`, user programs and tests.
- Handlers.Machine.OrphanChildren: visits children and zombies in no fixed order where the source follows its two lists; the result does not depend on it.
- Handlers.Machine: its containers are sequences and sets assigned in place; that the linked structures answer as these is proved separately, in `Containers`, `LinkedSet` and `ClockWalk`, and the pcb nodes are not shared between the two.
- Joint.OneMachine: the kernel heap grows between steps and inside an exit, not between the frames that one fork or exec takes, where an allocation could make it grow too.
- Liveness of pipes beyond `Readers` and `PipeWakes`: nothing is claimed of how long a reader or writer that keeps finding the pipe empty or full has to wait.
- FrameCode.FrameTables.GrowUp: the page range is a parameter; the arithmetic that computes it from addresses is not modelled.
