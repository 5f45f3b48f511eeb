# Verified model of a preemptive bare-metal thread kernel

A Dafny model of the kernel's hardest parts and proofs of what they are for. `dafny verify dfyconfig.toml`
checks everything.

| module | what it holds |
|---|---|
| `QueueMachine` | the lock-free ready queue as a small-step machine: many pushers, one popper, one atomic access per step, spurious compare-and-swap failures |
| `LinkedQueue` | the same queue as an object with nodes on the heap, for callers that take turns |
| `Scheduler`, `RunQueues` | the two schedulers: what they mean on sequences, and the objects with their scanning loops and counters |
| `Kernel`, `KernelObject` | the kernel state machine (init, spawn, start, yield, timer preemption, finish) and the object whose methods implement it |
| `SuspendedSpawns` | the kernel again, with spawns that the timer can suspend between any two of their accesses |
| `SpawnContexts` | the same, with the contexts and the IRQ pointers through which a suspended spawn is resumed |
| `BandQueues` | `pick_next` on the four linked queues of a CPU, each as suspended pushes have left it |
| `Fairness` | when a waiting thread gets its turn |
| `Stranding` | what becomes of threads that are placed on a CPU other than 0 |
| `LockDiscipline` | the `current_thread` lock, the interrupt mask and the IRQ context pointers, instruction by instruction |
| `Memory`, `IrqSwitch` | the IRQ entry and return code and `context_switch` as a register machine over memory |
| `Isolation` | kernel, entry code and threads together: every thread behaves as if it ran alone |
| `BumpAllocator`, `ArcLite`, `StackPool`, `Time` | the allocators, the reference count, tick conversion and time slices |
| `Numbers`, `Options` | bytes, words, division, and the option type |

The main results, strongest first:

- **Isolation.** In every run of spawns, the first start, thread instructions and interrupts, each thread's
  register trace is the trace of a solo run (`Isolation.EveryThreadRunsAsIfAlone`).
- **The queue is FIFO under every interleaving.** Pops are a prefix of the link order, and the rest is what a
  walk from head finds (`QueueMachine.PopsArePrefixOfLinks`); when a pop that is left alone returns is settled
  exactly (`QueueMachine.PopAloneReturnsIff`).
- **A switch finds a thread.** On any number of CPUs, however many spawns are suspended half way, the
  `pick_next(0)` of a timer interrupt or a yield finds, if it returns, a thread of CPU 0 itself, although the
  counters that placed the threads may lag behind (`SpawnContexts.SwitchFindsThread`, `SpawnContexts.CountersLag`).
  This holds until a run goes astray, which is when an interrupt is taken in a thread that the IRQ pointers do not
  name, or returns to one that had left by a call; and then it may fail (`SpawnContexts.AstrayCanLoseTheCpu`). It
  returns if and only if every band above the one it takes from has tail at head (`SpawnContexts.SwitchReturnsIff`).
- **Every thread is in one place** with the matching state, in every run of kernel operations
  (`Kernel.EveryThreadInOnePlace`), also while spawns are suspended (`SpawnContexts.EveryThreadInOnePlace`).
- **Cooperative and timer switches mixed.** Every thread gets its own registers back, in every mix of both, if
  and only if no interrupt found another thread's name in the IRQ pointers and did harm, no `context_switch` went to
  a thread that had left by an interrupt, and no timer switch to one that had left by a call
  (`LockDiscipline.SoundIffUnharmed`). The lock is never left behind by a thread that has been switched away
  (`LockDiscipline.LockNeverLeftBehind`).
- **Round robin is exact**: a thread with i threads in front of it runs at the switch after i switches, and not
  before (`Fairness.RunsExactlyAtItsTurn`).

## What the code does differently from what one would expect

Each of these is a theorem here, with the condition under which the expected behaviour does hold.

- The closing compare-and-swap of `push` reloads `tail` (src/sched/rr.rs:346-351), so one push suspended once
  can move `tail` back behind `head`, onto a freed node, and the next `try_pop` on the empty queue never returns
  (`QueueMachine.TailCanFallBehindHead`). A pop left alone returns if and only if a thread is waiting or tail is
  at head (`QueueMachine.PopAloneReturnsIff`); so `pick_next` may spin in an empty band, with interrupts masked,
  while threads wait in the bands below (`BandQueues.PickCanSpin`), and does exactly when an empty band above has
  its tail elsewhere (`BandQueues.PickReturnsIff`).
- The kernel only ever calls `pick_next(0)`, and work stealing looks only at Normal and Low queues. So a High or
  Idle thread on another CPU never runs, whatever happens (`Stranding.NeverRuns`); and while CPU 0 has nothing
  but its current thread, yields and preemptions give the CPU back to that thread for ever, also if there is
  something to steal (`Stranding.OnlyCurrentRuns`). A thread on another CPU is dispatched if and only if a finish
  or a start finds CPU 0 empty and that thread is the first to steal (`Stranding.DispatchedIff`).
- `spawn` pushes before it counts, with interrupts on (src/sched/rr.rs:166-168), so a pick can take a thread that
  has not been counted, and `thread_count` can wrap round to the largest word, even on one CPU
  (`SuspendedSpawns.CountCanWrap`). The `fetch_sub` of a pop does that exactly when as many spawns on that CPU have
  pushed and not counted as it has threads queued, and never in a switch that requeues
  (`SpawnContexts.UnderflowIff`).
- A spawn that is suspended by the timer and resumed through a stale context repeats its steps: it may count one
  push twice, after which an empty CPU 0 looks loaded, the current thread is requeued elsewhere and the kernel is
  left without one (`SpawnContexts.AstrayCanLoseTheCpu`).
- The two switch paths do not understand each other's contexts. `context_switch` resumes a preempted thread through
  x11, which that thread may have been using, and leaves it masked (`LockDiscipline.YieldToPreempted`); and it
  stores only the flags in the status word, so that an interrupt that returns to a thread that had yielded returns
  to EL0 (`LockDiscipline.PreemptToYielded`).
- `yield_now` and `finish_and_yield` leave the IRQ context pointers on whoever the last first start or timer
  switch gave the CPU to (`LockDiscipline.PointersAreLastGiven`), so an interrupt may save to another thread's
  context (`LockDiscipline.PointersCanBeStale`). It saves to the right one if and only if the running thread is
  that one (`LockDiscipline.PointerIsRightIff`). The register-level isolation theorem is therefore about
  timer-driven runs.
- A failed `try_lock` does not always resume the interrupted thread. `start_first_thread` and `finish_and_yield`
  enable interrupts while the guard is still alive when there is nothing to switch to, and an interrupt there
  returns through IRQ_LOAD_CTX: if no start has ever handed over, that is null and the processor
  stops with the lock held (`LockDiscipline.StartCanHang`); if it names another thread, that thread's context is
  overwritten (`LockDiscipline.FailedTryLockCanOverwrite`). Both conditions are exact
  (`LockDiscipline.FailedTryLock`).
- `setup_initial_context` writes 0x3c5 as status word; its comment says interrupts are enabled, but the I bit is
  set (`Isolation.InitialRegs`). The model follows the code.
- `context_switch` does not bring back x11 to x13 as they were, and of the status word it keeps only the flags
  (`IrqSwitch.CooperativeRoundTrip`). Its assembly declares these registers as clobbered.

## Model

| member | source | states |
|---|---|---|
| QueueMachine.PopsArePrefixOfLinks | src/sched/rr.rs:314-399 | in every interleaving of any pushers with one popper, with spurious failures, the popped threads are the oldest linked ones in link order, and a walk along `next` from head finds exactly the rest, in order |
| QueueMachine.EveryPushAccountedFor | src/sched/rr.rs:314-352 | each push ever begun is either still under way and not in the list, or in the list exactly once, carrying the thread it was given |
| QueueMachine.PopOutcomes | src/sched/rr.rs:354-399 | a pop that moves head returns a thread and conversely; a `None` means that every thread linked by the load of `next` had been handed out; no node is freed twice and a freed node is empty and not head |
| QueueMachine.PushAloneReturns | src/sched/rr.rs:314-352 | from every reachable state, a push left alone with f failed compare-and-swaps has returned after 4d + 8 + 4f of its steps, d being how far tail lags behind the last node; its node is then the last, and tail is at it unless the closing compare-and-swap failed |
| QueueMachine.PushTurns | src/sched/rr.rs:318-343 | each step in the loop of a push, helping included, brings its end nearer, and a failed compare-and-swap puts it off by at most four |
| QueueMachine.HistoryGrows | src/sched/rr.rs:314-399 | from any state, later steps only extend the link order and the hand-out order |
| QueueMachine.RunKeeps | src/sched/rr.rs:287-399 | every reachable state satisfies the queue invariant (the spine of `next` pointers, what each slot holds, what each suspended push and pop relies on) |
| QueueMachine.NextKeeps | src/sched/rr.rs:314-399 | the invariant is inductive: any one atomic step of any participant keeps it |
| QueueMachine.LinkKeeps | src/sched/rr.rs:325-336 | a successful link compare-and-swap extends the spine at its end, without disturbing any other suspended call |
| QueueMachine.PushMovesKeep | src/sched/rr.rs:318-351 | every other step of a push, including helping and the closing compare-and-swap, keeps the invariant |
| QueueMachine.TakeKeeps | src/sched/rr.rs:377-395 | taking the thread out before the head compare-and-swap, and putting it back after a failed one, keep the invariant |
| QueueMachine.HeadCasKeeps | src/sched/rr.rs:379-395 | the head compare-and-swap hands out exactly the oldest thread, or fails harmlessly |
| QueueMachine.WalkFollowsSpine | src/sched/rr.rs:314-399 | following `next` from any linked node visits exactly the nodes linked after it |
| QueueMachine.PopAloneReturnsIff | src/sched/rr.rs:354-399 | from every reachable state, a pop left alone with f failed compare-and-swaps has returned after 11 + 7f of its steps if and only if a thread is waiting or tail is at head, with the oldest waiting thread if there is one |
| QueueMachine.EmptyPopReturnsIffTailAtHead | src/sched/rr.rs:354-375 | on an empty list, whatever fails spuriously, a pop left alone returns if and only if tail is at head |
| QueueMachine.EmptyPopSteps | src/sched/rr.rs:354-375 | where that pop stands after any number of its own steps |
| QueueMachine.TailCanFallBehindHead | src/sched/rr.rs:346-351 | a concrete run, with one push suspended once, after which the queue is empty, tail is on a freed node, and no number of pop steps returns |
| LinkedQueue.LockFreeQueue.constructor | src/sched/rr.rs:287-297 | an empty queue with one dummy node |
| LinkedQueue.LockFreeQueue.Push | src/sched/rr.rs:314-352 | appends the thread, keeps tail within one node of the last, frees nothing, and takes at most f + 2 turns of its loop for f spurious failures |
| LinkedQueue.LockFreeQueue.LinkAfterLast | src/sched/rr.rs:325-336 | the successful link puts the node at the end and leaves tail one behind |
| LinkedQueue.LockFreeQueue.TryPop | src/sched/rr.rs:354-399 | returns and removes the oldest thread, `None` exactly when empty, frees exactly the old head, at most f + 2 turns for f spurious failures |
| LinkedQueue.LockFreeQueue.TakeFirst | src/sched/rr.rs:377-395 | the take either succeeds whole or, on a failed compare-and-swap, leaves the queue as it was |
| LinkedQueue.LockFreeQueue.AdvanceHead | src/sched/rr.rs:379-390 | swinging head drops the first node and makes the emptied one the dummy |
| LinkedQueue.LockFreeQueue.Peek | src/sched/rr.rs:401-410 | the oldest thread, `None` exactly when empty, changing nothing |
| LinkedQueue.LockFreeQueue.Drop | src/sched/rr.rs:413-424 | afterwards every node ever allocated has been freed, each exactly once |
| Scheduler.PriorityLevel | src/sched/rr.rs:103-110 | the band of every priority, with its boundaries |
| Scheduler.LeastLoaded | src/sched/rr.rs:112-125 | the lowest-numbered CPU among those with the fewest threads |
| Scheduler.Victim | src/sched/rr.rs:127-150 | the nearest CPU, going round, with something to steal; none before it has |
| Scheduler.VictimMeaning | src/sched/rr.rs:127-150 | a victim is found if and only if some other CPU holds a Normal or Low thread |
| Scheduler.StealVisitsEveryOtherCpuOnce | src/sched/rr.rs:127-150 | going round from c meets every other CPU exactly once |
| Scheduler.PickNextMeaning | src/sched/rr.rs:171-208 | `pick_next(c)` is the oldest thread of the highest non-empty local band, else the oldest Normal, else Low, thread of the nearest CPU; `None` exactly when c does not exist, or is empty and nobody else has a Normal or Low thread |
| Scheduler.EnqueueAdds | src/sched/rr.rs:154-169 | an enqueue adds exactly its thread to what is waiting and keeps bands and counters right |
| Scheduler.EnqueueMeaning | src/sched/rr.rs:154-169 | an enqueue puts the thread at the end of its band on the lowest-numbered least loaded CPU, counts it, and touches no other band or CPU |
| Scheduler.PickTakesHead | src/sched/rr.rs:171-208 | a pick takes the head off one band of one CPU, counts it, and touches nothing else |
| Scheduler.PickRemoves | src/sched/rr.rs:171-208 | a pick removes exactly the thread it returns, or changes nothing |
| Scheduler.RunStaysValid | src/sched/rr.rs:127-208 | any run of enqueues, picks and steals keeps bands and counters right |
| Scheduler.CountersAgree | src/sched/rr.rs:127-208 | after any run from `new`, each `thread_count` is the length of its four queues and `runnable_threads` is their sum, never negative, for operations that take turns |
| Scheduler.EnqueueThenPickIff | src/sched/rr.rs:154-208 | in any state, whatever its counters, `pick_next(0)` after an enqueue finds nothing if and only if CPU 0 was empty and yet another CPU was taken for less loaded, the thread is High or Idle, and nothing can be stolen |
| Scheduler.EnqueueThenPick | src/sched/rr.rs:154-200 | after any enqueue in a state whose counters agree, `pick_next(0)` finds a thread, on CPU 0 itself |
| SpawnContexts.SwitchFindsThread | src/kernel.rs:367-406 | on any number of CPUs, with any spawns suspended anywhere, in every run that has not gone astray, the `pick_next(0)` of a timer interrupt or a yield takes, if it returns, a thread of CPU 0 itself |
| SpawnContexts.SwitchReturnsIff | src/sched/rr.rs:171-200 | at such a switch, with the four queues of CPU 0 as any interleaving of pushes and pops has left them, `pick_next(0)` left alone returns if and only if every band above the highest non-empty one has tail at head, and then with that band's oldest thread |
| SpawnContexts.CountersLag | src/sched/rr.rs:154-169 | in every run that has not gone astray each `thread_count` plus the spawns pushed there and not counted is the length of its queues, and a load sees it modulo 2^64; the same lag for `runnable_threads` |
| SpawnContexts.UnderflowIff | src/sched/rr.rs:166-200 | in such a run the `fetch_sub` that goes with a pop wraps round if and only if as many spawns have pushed on that CPU and not counted as it has threads; only a finish or a start can |
| SpawnContexts.EveryThreadInOnePlace | src/kernel.rs:62-411 | in such a run each thread ever made is either on its way into a queue, queued, current or finished, exactly once, and nothing else is anywhere |
| SpawnContexts.RunFollows | src/kernel.rs:146-411 | a run with contexts and IRQ pointers that has not gone astray is a run in which every thread is resumed where it left |
| SpawnContexts.NextFollows | src/kernel.rs:146-411 | one step of that, for every call and for the timer |
| SpawnContexts.AstrayCanLoseTheCpu | src/kernel.rs:367-406 | a concrete two-CPU run: a timer interrupt through stale pointers makes a spawn count twice, and the next one leaves the kernel without a current thread |
| SpawnContexts.CountCanWrap | src/sched/rr.rs:166-168 | a concrete two-CPU run that has not gone astray after which `thread_count` is the largest word |
| BandQueues.PickReturnsIff | src/sched/rr.rs:171-200 | for any linked queues, as any interleavings have left them, popping them in turn, left alone and with any spurious failures, returns if and only if all those before the first non-empty one have tail at head, with its oldest thread |
| BandQueues.PickOnCpu | src/sched/rr.rs:171-200 | the same against the plain queues of a CPU: the thread is the oldest of the highest non-empty band |
| BandQueues.PickCanSpin | src/sched/rr.rs:346-351 | a High queue, one push of which was suspended once, with which no pick ever returns, whatever waits in the other bands |
| SuspendedSpawns.UnderflowIff | src/sched/rr.rs:166-200 | as above, where every thread is resumed where it left; and on CPU 0 the thread dispatched is then in the middle of its spawn, masked, and its next step puts the counter right |
| SuspendedSpawns.CountCanWrap | src/sched/rr.rs:166-168 | a concrete run on one CPU after which `thread_count` is the largest word |
| SuspendedSpawns.RunKeeps | src/sched/rr.rs:112-169 | the books and the balance behind these, over every run in which every thread is resumed where it left |
| SuspendedSpawns.SpawnAlone | src/sched/rr.rs:154-169 | a spawn left alone, after its n loads, its push and its two counts and no earlier, has put the thread at the end of its band on the least loaded CPU and raised both counters |
| SuspendedSpawns.SpawnAloneIsSpawn | src/kernel.rs:62-117 | and that is the spawn of the kernel model |
| SuspendedSpawns.IsKernel | src/kernel.rs:146-411 | yields, finishes, starts and timer interrupts do to the queues and the current thread what the kernel model says, as long as no counter has wrapped round |
| SuspendedSpawns.RotateBalanced | src/sched/rr.rs:112-125 | requeueing at the lowest counter and taking from CPU 0 keeps the balance: CPU 0's counter is the lowest again |
| Scheduler.EnqueueKeepsSpread | src/sched/rr.rs:112-125 | an enqueue raises the load spread to at most the larger of the old spread and one |
| Scheduler.EnqueuesAreDealtOut | src/sched/rr.rs:154-169 | k enqueues from empty over n CPUs give CPU i exactly floor((k + n - 1 - i) / n) threads |
| RunQueues.RoundRobinScheduler.constructor | src/sched/rr.rs:88-101 | empty queues on every CPU |
| RunQueues.RoundRobinScheduler.SelectCpu | src/sched/rr.rs:112-125 | the scanning loop finds the lowest-numbered least loaded CPU |
| RunQueues.RoundRobinScheduler.Enqueue | src/sched/rr.rs:154-169 | the object changes as `Scheduler.Enqueue` says |
| RunQueues.RoundRobinScheduler.TryStealWork | src/sched/rr.rs:127-150 | the modular loop steals from `Scheduler.Victim` and touches no other CPU |
| RunQueues.RoundRobinScheduler.PickNext | src/sched/rr.rs:171-208 | the result and the object's new state are those of `Scheduler.PickNext` |
| RunQueues.VictimIndex | src/sched/rr.rs:128-132 | the double modulo of the steal loop is one step round the CPUs per turn |
| RunQueues.FirstComeFirstServeScheduler.constructor | src/sched/rr.rs:77-83 | an empty queue |
| RunQueues.FirstComeFirstServeScheduler.Enqueue | src/sched/rr.rs:40-46 | on top of the linked queue, appends and counts |
| RunQueues.FirstComeFirstServeScheduler.PickNext | src/sched/rr.rs:48-55 | on top of the linked queue, takes the oldest and counts |
| Kernel.EveryThreadInOnePlace | src/kernel.rs:62-411 | in every run of kernel operations over either scheduler, each spawned thread is queued once and Ready, or current and Running, or nowhere and Finished, and nothing else is queued or current |
| Kernel.AtMostOneRunning | src/kernel.rs:62-411 | two Running threads are the same thread |
| Kernel.FinishedForever | src/kernel.rs:146-221 | a Finished thread stays Finished and is never queued or picked again, whatever follows |
| Kernel.FinishOutcome | src/kernel.rs:161-197 | a finish leaves the thread that made it Finished, in no queue and not current, and runs what `pick_next(0)` finds |
| Kernel.FinishedNeverRunsAgain | src/kernel.rs:161-197 | and no operations that follow ever queue or run it |
| Kernel.SwitchOutcome | src/kernel.rs:233-271 | a yield or a preemption leaves the thread Ready and queued once unless it is picked again, and what `pick_next(0)` finds after the enqueue Running |
| Kernel.StartOutcome | src/kernel.rs:307-348 | a start runs what `pick_next(0)` finds if nobody is current and does nothing otherwise; an uninitialized kernel does nothing at all |
| Kernel.SpawnOutcome | src/kernel.rs:62-117 | a spawn fails exactly when uninitialized or out of stacks, and then changes nothing; else the thread has a new id and the priority asked for, is Ready and waits |
| Kernel.SwitchKeepsCurrent | src/kernel.rs:224-297 | a yield or a timer preemption never leaves the kernel without a current thread |
| Kernel.FinishLeavesIdleIff | src/kernel.rs:146-221 | a finish leaves no current thread if and only if CPU 0 is empty and no other CPU has a Normal or Low thread |
| Stranding.HighAndIdleOnlyGrow | src/sched/rr.rs:127-208 | over any operations whatever, spawns included, the High and Idle queues of every CPU but 0 lose no thread and keep their order |
| Stranding.NeverRuns | src/kernel.rs:62-411 | a High or Idle thread queued on another CPU stays Ready and is never current, whatever operations follow |
| Stranding.OnlyCurrentRuns | src/kernel.rs:224-411 | while CPU 0 has nothing but its current thread, any yields, preemptions, starts and refused spawns leave the kernel as it is |
| Stranding.DispatchedIff | src/kernel.rs:146-411 | a thread queued on another CPU is what an operation dispatches if and only if the operation is a finish or start that dispatches, CPU 0 is empty, its CPU is the first victim, and it heads the band stolen from |
| Stranding.HighThreadIsStranded | src/kernel.rs:146-221 | a concrete two-CPU run after which the CPU is idle and no operations ever run a Ready High thread |
| Stranding.NormalThreadStarves | src/kernel.rs:224-297 | a concrete two-CPU run after which a stealable Normal thread does not run however often the other one yields or is preempted |
| Kernel.RunKeeps | src/kernel.rs:35-411 | every run keeps the kernel invariant |
| Kernel.StepKeeps | src/kernel.rs:35-411 | each operation keeps it |
| Kernel.RotateKeeps | src/kernel.rs:233-271 | putting the current thread back and dispatching another keeps it |
| Kernel.DispatchKeeps | src/thread/mod.rs:336-341 | picking and starting a thread turns a vacated CPU into a kept invariant |
| KernelObject.Kernel.constructor | src/kernel.rs:24-33 | nothing spawned, nothing current, lock free |
| KernelObject.Kernel.Init | src/kernel.rs:35-45 | succeeds the first time only |
| KernelObject.Kernel.Spawn | src/kernel.rs:62-143 | result and new state are those of `Kernel.Spawn` |
| KernelObject.Kernel.StartFirstThread | src/kernel.rs:307-348 | new state as `Kernel.StartFirstThread`; hands over exactly when it made a thread current; both IRQ pointers then name it; lock free, interrupts on unless it hands over |
| KernelObject.Kernel.YieldNow | src/kernel.rs:224-297 | new state as `Kernel.YieldNow`; lock free; IRQ pointers left alone |
| KernelObject.Kernel.FinishAndYield | src/kernel.rs:146-221 | new state as `Kernel.FinishAndYield`; lock free; IRQ pointers left alone |
| KernelObject.Kernel.HandleIrqPreemption | src/kernel.rs:362-411 | new state as `Kernel.HandleIrqPreemption`, unchanged if the lock was taken; both IRQ pointers name the new current thread; lock and mask as before |
| Fairness.RunsExactlyAtItsTurn | src/sched/rr.rs:154-200 | on one CPU, with nothing above its band ready, current or arriving, the i-th waiting thread gets the CPU at exactly the (i+1)-th switch and at no point before |
| Fairness.RunsAtItsTurn | src/sched/rr.rs:154-200 | under the same conditions it moves up one place per switch, runs at the switch after i of them, and lower bands lose nothing and keep their order |
| Fairness.StepInLine | src/kernel.rs:146-411 | what one operation does to the line |
| Fairness.FirstInLineIsNext | src/sched/rr.rs:171-200 | the first in line is run by the next switch, of whatever kind |
| LockDiscipline.LockNeverLeftBehind | src/kernel.rs:146-411 | in every interleaving of cooperative calls and interrupts only the thread on the CPU can hold the lock, `lock()` never finds it taken, and where an interrupt can be taken the current thread is the one on the CPU or none |
| LockDiscipline.NobodyIsLost | src/kernel.rs:146-411 | in every run each spawned thread is ready, current or finished, and only one of these |
| LockDiscipline.CallReturns | src/kernel.rs:146-348 | a call left alone that finds nobody to run returns with interrupts on and the lock free; a finish has then finished the current thread, and nothing else has changed |
| LockDiscipline.CallHandsOver | src/kernel.rs:146-348 | a call left alone that finds a thread hands the CPU over to it, masked, the lock free, the caller saved and ready or finished, the pointers moved only by a start |
| LockDiscipline.FailedTryLock | src/kernel.rs:362-371 | an interrupt that finds the lock taken interrupted the holder itself; it stops the processor if and only if no start has handed over; otherwise the holder resumes with nothing changed but one context, which is another thread's if and only if the holder is not the thread the last first start or timer switch gave the CPU to |
| LockDiscipline.HolderReleases | src/kernel.rs:307-348 | the holder's next step after such an interrupt releases the lock if and only if some start has handed over |
| LockDiscipline.SoundIffUnharmed | src/kernel.rs:146-411 | in every mix of calls, interrupts, spawns and starts, every thread has got back the registers it left with and every waiting thread's context holds them, if and only if no interrupt was taken in a thread other than the last one given the CPU by a first start or timer switch and either switched or overwrote a waiting thread, no `context_switch` went to a thread that had last left by an interrupt, and no timer switch to one that had last left by a call |
| LockDiscipline.PointerIsRightIff | src/arch/aarch64.rs:375-386 | in every run, where interrupts are on in a current thread, IRQ_SAVE_CTX names it if and only if it is the thread the last first start or timer switch gave the CPU to |
| LockDiscipline.PointersAreLastGiven | src/arch/aarch64.rs:375-386 | in every run both pointers name the thread that the actions say was last given the CPU by a first start or timer switch |
| LockDiscipline.GivenOnceStarted | src/kernel.rs:321-331 | the pointers are null exactly until some start hands over |
| LockDiscipline.RunKeeps | src/kernel.rs:146-411 | the invariant behind these, over every run |
| LockDiscipline.NextSound | src/kernel.rs:146-411 | a step keeps every thread's registers right exactly when it is neither a harmful interrupt nor a switch to a thread that left the other way, and nothing ever puts them right again |
| LockDiscipline.LeftIsLastLeft | src/arch/aarch64.rs:79-106 | how each thread last left the CPU, by a call or by an interrupt, is what the actions say |
| LockDiscipline.YieldToPreempted | src/arch/aarch64.rs:134-139 | a concrete run, in order up to its last step: a yield to a preempted thread loses its x11 |
| LockDiscipline.PreemptToYielded | src/arch/aarch64.rs:87-88 | a concrete run, in order up to its last step: a timer switch to a thread that had yielded returns to EL0 |
| LockDiscipline.StartCanHang | src/kernel.rs:345-347 | a concrete run: on a kernel with no threads, an interrupt during `start_first_thread` stops the processor with the lock held |
| LockDiscipline.FailedTryLockCanOverwrite | src/kernel.rs:316-319 | a concrete run: a failed `try_lock` after which a waiting thread's context holds another thread's registers |
| LockDiscipline.PointersCanBeStale | src/kernel.rs:224-297 | a concrete run with interrupts on and both IRQ pointers naming a thread that has left the CPU |
| LockDiscipline.PointersCanBeRightAgain | src/kernel.rs:224-297 | a concrete run in which a thread yields and is yielded back to, and the pointers name it again |
| IrqSwitch.Processor.SaveContext | src/arch/aarch64_vectors.rs:193-252 | the save sequence leaves memory as: a 64-byte frame below sp, then the interrupted registers in the context IRQ_SAVE_CTX names, if any |
| IrqSwitch.Processor.Spill | src/arch/aarch64_vectors.rs:198-204 | the frame holds x0-x3, x29, x30, ELR and SPSR |
| IrqSwitch.Processor.SwitchStack | src/arch/aarch64_vectors.rs:206-216 | sp moves to the IRQ stack and the thread's own sp is recovered |
| IrqSwitch.Processor.LoadContext | src/arch/aarch64_vectors.rs:257-290 | all 31 registers, sp, ELR and SPSR come from the context IRQ_LOAD_CTX names; null stops the processor |
| IrqSwitch.Processor.IrqWithoutSwitch | src/arch/aarch64_vectors.rs:193-290 | save then load is the identity on every register, whatever the handler leaves in registers and writes outside the context |
| IrqSwitch.SaveThenRead | src/arch/aarch64_vectors.rs:218-252 | a saved context reads back as the interrupted registers |
| IrqSwitch.SaveWritesOnly | src/arch/aarch64_vectors.rs:198-252 | the save writes nothing outside the 64 bytes below sp and the 272-byte context |
| IrqSwitch.SaveLeavesOtherContexts | src/arch/aarch64_vectors.rs:198-252 | contexts apart from both read the same afterwards |
| IrqSwitch.Processor.SwitchSave | src/arch/aarch64.rs:79-106 | what `context_switch` stores in `prev` |
| IrqSwitch.Processor.SwitchLoad | src/arch/aarch64.rs:109-139 | every register comes from `next` except x11, which carries the jump address; only the flags are loaded |
| IrqSwitch.Processor.ContextSwitch | src/arch/aarch64.rs:75-150 | the whole switch: what it stores in `prev`, and the registers it jumps with |
| IrqSwitch.CooperativeRoundTrip | src/arch/aarch64.rs:75-150 | a thread switched away and back, its context untouched, resumes after the jump with its sp, its flags and every register but x11-x13, which hold the resume address and the two context addresses |
| Isolation.StartIsSwitch | src/kernel.rs:333-341 | the registers a thread is first started with are those `context_switch` loads, with its flags over the processor's status |
| Isolation.EveryThreadRunsAsIfAlone | src/arch/aarch64_vectors.rs:191-299 | in every timer-driven run each thread's register trace, and where it stands now, are those of a solo run of as many instructions from the registers it started with |
| Isolation.FirstInstruction | src/thread/mod.rs:217-249 | in every timer-driven run a thread that has executed nothing, in the processor or in its context, is at its entry point, with its argument in x0, at its stack top, every other register zero and status word 0x3c5; the one that `start_first_thread` ran has its entry point in x11 too, and the processor's status but for the flags |
| Isolation.TraceIsExecuted | src/arch/aarch64_vectors.rs:191-299 | a thread's trace has one entry for each instruction executed while it had the CPU, and no others |
| Isolation.KernelFollows | src/kernel.rs:307-411 | the kernel of such a run is the kernel model's, on the spawns, starts and timer interrupts taken |
| Isolation.TimerPreempts | src/kernel.rs:362-411 | in every run a timer interrupt preempts exactly when a thread runs unmasked, whatever the handler writes to its own memory |
| Isolation.InterruptsAreInvisible | src/arch/aarch64_vectors.rs:191-299 | after every run, an interrupt, switching or not, changes no thread's registers |
| Isolation.PointersNameCurrent | src/arch/aarch64.rs:375-386 | in every such run, outside the handler both IRQ pointers name the current thread's context |
| Isolation.SaveIsRightIff | src/arch/aarch64_vectors.rs:218-252 | one save, in registers (over runs: LockDiscipline.PointerIsRightIff): an interrupt gives the running thread's context its registers if and only if IRQ_SAVE_CTX names it (or the context held them already), and otherwise overwrites the context that is named |
| Isolation.RunKeeps | src/kernel.rs:307-411 | the invariant behind these, over every run on either scheduler |
| Isolation.NextKeeps | src/kernel.rs:307-411 | spawn, start, instruction and interrupt each keep it |
| Isolation.InterruptKeeps | src/kernel.rs:362-411 | save, repoint and load leave every thread on its solo run |
| Isolation.InitialRegs | src/thread/mod.rs:217-249 | the initial status word masks interrupts |
| Isolation.ConditionsCanBeMet | src/thread/mod.rs:217-249 | the conditions asked of layout and threads have a model for any number of threads up to a million, in which every instruction reads and writes live memory |
| BumpAllocator.AlignUpRoundsUp | examples/rpi_kernel.rs:78 | for a power of two the bit mask is rounding up to the next multiple |
| BumpAllocator.BlocksAreDisjoint | examples/rpi_kernel.rs:72-94 | in every interleaving of `alloc` calls the blocks are inside the heap, aligned by offset, and pairwise disjoint |
| BumpAllocator.EndsWithBlockOrNoRoom | examples/rpi_kernel.rs:76-93 | in every interleaving a step that ends a call either hands out a block of the layout asked for at the first aligned place at or above `next`, or finds no room there; losing a race ends no call |
| BumpAllocator.AloneEnds | examples/rpi_kernel.rs:76-93 | a call left alone ends within three steps, with a block if and only if there is room |
| BumpAllocator.NoStepOverflows | examples/rpi_kernel.rs:77-79 | no sum in any turn of any call overflows 64 bits, `current + align` included |
| BumpAllocator.RunKeeps | examples/rpi_kernel.rs:72-94 | the invariant behind these |
| ArcLite.CountMatchesHandles | src/mem/arc_lite.rs:97-191 | in every interleaving the count is the live handles plus the counts taken by `try_inc` less those given back by `dec`; the data is destroyed or about to be, by exactly one releaser, if and only if that is zero; no `try_inc` is refused |
| ArcLite.DanglingIff | src/mem/arc_lite.rs:125-139 | a live handle is left with freed data if and only if `dec` has been called as many times more than `try_inc` has succeeded as there are live handles; never if not more were given back than taken |
| ArcLite.HandlesAreLive | src/mem/arc_lite.rs:178-191 | the live handles are the first one and every copy cloned, less those dropped, as the actions say |
| ArcLite.AllDroppedDestroysOnce | src/mem/arc_lite.rs:125-191 | when every handle has been dropped and every count taken given back, the data has been destroyed exactly once after the deallocation |
| ArcLite.TryIncAlone | src/mem/arc_lite.rs:97-116 | a `try_inc` left alone takes its count within two steps |
| ArcLite.LastReleaseDestroys | src/mem/arc_lite.rs:125-139 | destruction begins with exactly the step that releases the last count |
| ArcLite.RunKeeps | src/mem/arc_lite.rs:97-191 | the invariant behind these |
| StackPool.ForSize | src/mem/stack_pool.rs:56-64 | the smallest class that is large enough, none exactly when no class is |
| StackPool.StackBottomIsAligned | src/mem/stack_pool.rs:96-109 | the initial sp is 16-byte aligned, within the stack, losing fewer than 16 bytes |
| StackPool.Pool.constructor | src/mem/stack_pool.rs:195-211 | four empty lists, all counters zero |
| StackPool.Pool.Allocate | src/mem/stack_pool.rs:223-236 | reuses the last returned stack of the class if its list can be locked, else takes new memory, `None` exactly when there is neither; counters, lists and outstanding stacks stay in agreement |
| StackPool.Pool.AllocateNewStack | src/mem/stack_pool.rs:273-331 | new memory is outstanding and counted; failure changes nothing |
| StackPool.Pool.Deallocate | src/mem/stack_pool.rs:243-252 | the stack goes to its own class's list, or is lost and stays in use when the list is locked |
| StackPool.Pool.NothingShared | src/mem/stack_pool.rs:223-331 | in every valid state the memory ranges of any two stacks, outstanding or free, of whatever classes, do not overlap |
| StackPool.BumpBlocksAreApart | examples/rpi_kernel.rs:72-94 | what the bump allocator hands out is what the pool asks of its allocator: blocks of stack size do not overlap |
| Time.TicksRoundTrip | src/arch/aarch64.rs:319-333 | ticks to nanoseconds and back gives t or t - 1, and t if and only if the first division is exact |
| Time.NsRoundTrip | src/arch/aarch64.rs:319-333 | nanoseconds to ticks and back never gains and loses at most one tick length rounded up |
| Time.VruntimeIsExactUpToRounding | src/time/mod.rs:23-42 | over any calls, vruntime times the factor trails 1000 times the time passed at each update since the last start, read off the calls, by less than one factor per update |
| Time.Quantum | src/time/mod.rs:62-70 | half a millisecond for the lowest quarter of the priorities, doubled for each quarter above |
| Time.Factor | src/time/mod.rs:72-79 | 500 for the lowest quarter of the priorities, 500 more for each quarter above |
| Time.ExpiredIff | src/time/mod.rs:27-42 | an update reports expiry if and only if a slice has begun and its priority's quantum has passed since |
| Time.HigherPriorityAccruesLess | src/time/mod.rs:27-42 | on the same calls a higher priority never accrues more |
| Time.HigherPriorityRunsLonger | src/time/mod.rs:62-79 | on the same calls a higher priority is never told to stop first |
| Time.ExpiryStays | src/time/mod.rs:27-42 | within one slice, expiry once reported stays reported |
| Time.TimeSlice.constructor | src/time/mod.rs:13-21 | no time accrued, no slice running, the quantum of the priority |
| Time.TimeSlice.StartSlice | src/time/mod.rs:23-25 | the slice begins now, nothing else changes |
| Time.TimeSlice.UpdateVruntime | src/time/mod.rs:27-42 | accrues weighted time and reports expiry, as the functions the lemmas are about |

## Left out

Narrower than the code:

- QueueMachine.PopsArePrefixOfLinks: one popper at a time (every `pick_next` call holds the `current_thread` guard),
  one core, and nodes that are never reused, as with the shipped bump allocator; several poppers, weak memory orders
  and a reusing allocator are not modelled.
- Scheduler.CountersAgree: for operations that take turns; SpawnContexts.CountersLag and UnderflowIff are about
  interruptible ones.
- Scheduler.EnqueueThenPick: for states whose counters agree; EnqueueThenPickIff and SpawnContexts.SwitchFindsThread
  are about the others.
- Kernel.EveryThreadInOnePlace: a spawn is one step; SpawnContexts.EveryThreadInOnePlace is about interruptible ones.
- Kernel.SwitchKeepsCurrent: a spawn is one step; SpawnContexts.SwitchFindsThread is about interruptible ones.
- Stranding.DispatchedIff: a spawn is one step, here and in all of Stranding.
- Stranding.OnlyCurrentRuns: a spawn is one step, so none is suspended meanwhile.
- Fairness.RunsExactlyAtItsTurn: a spawn is one step, here and in all of Fairness.
- SpawnContexts.SwitchFindsThread: the push itself is one step; that a push suspended part way can keep `pick_next`
  from returning is SwitchReturnsIff. A call that resumes a preempted thread costs it x11
  (LockDiscipline.YieldToPreempted), and such runs are followed as if no spawn kept anything there. Fewer than 2^52
  threads are ever made, since each has a stack of at least 4096 bytes. For the first-come-first-serve scheduler the
  same is immediate, as it has one queue and chooses by no counter.
- SpawnContexts.AstrayCanLoseTheCpu: follows registers only, as far as a spawn keeps its place in them; what the
  repeated steps find on the stack is not modelled.
- RunQueues.RoundRobinScheduler.Enqueue: its four queues per CPU are sequences; that the linked queue behaves as one
  is shown in LinkedQueue and QueueMachine, and is used by object only in the first-come-first-serve scheduler.
- KernelObject.Kernel.FinishAndYield: does not write a join result, since the code does not either;
  `JoinHandle::join` is not part of this model.
- KernelObject.Kernel.Spawn: stack availability is a parameter, and the closure, trampoline and join handle are not
  modelled; spawn is one step here, while SuspendedSpawns and QueueMachine cover a spawn and a push suspended part
  way.
- LockDiscipline.LockNeverLeftBehind: once a thread has been given registers it did not leave with, the run is
  followed no further; SoundIffUnharmed says exactly when that can come about.
- Isolation.EveryThreadRunsAsIfAlone: runs without cooperative calls, which save contexts in another form; asks that
  threads keep to their own memory and do not rely on bytes below sp, that contexts and stacks are apart, and that
  the handler's own writes stay out of both; a spawn is an event of its own and takes no registers from the running
  thread.
- ArcLite.CountMatchesHandles: the form that deallocates, followed until a live handle is left with freed data, and
  without wrap-around at 2^64.
- StackPool.Pool.Allocate: the global allocator returns memory that is not in use; the absolute 4096-byte alignment
  it is asked for is not claimed, and guard pages and canaries are not modelled.
- Time.VruntimeIsExactUpToRounding: fixed priority and no overflow of the 64-bit product or sum; `set_priority` and
  `set_custom_duration` are not modelled.
- Time.TicksRoundTrip: for products below 2^64; beyond that the multiplication wraps, as the functions themselves
  model.

Not modelled:

- UART output, logging and `debug_list_threads`: no effect on state.
- GIC setup, boot code, linker scripts, vector installation and `platform_timer.rs`: device plumbing.
- Saving and restoring the FPU: neither switch path does it.
- `get_global_kernel`, `yield_current` and `finish_current`: casts of one global pointer; src/kernel.rs is malformed
  there.
- `on_tick`, `on_block`, `wake_up`, `prepare_preemption`, `last_cpu` and the totals of `stats()`: the kernel does
  not call the former, and `total_threads` is never maintained.
- `errors.rs`, `builder.rs` and the fuzz targets: thin wrappers, or written against an older interface.
- Dropping and cloning `Stack` outside the pool.
