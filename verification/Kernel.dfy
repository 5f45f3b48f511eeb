/**
 The kernel state machine of src/kernel.rs with the thread states of src/thread/mod.rs: spawn, start,
 yield, timer preemption and finish, over either scheduler, and what every run of them keeps.
 */
module Kernel {
  import opened Options
  import opened Numbers
  import opened Scheduler

  datatype ThreadState = Ready | Running | Blocked | Finished

  /** The shared part of a thread that outlives every reference to it. */
  datatype Entry = Entry(priority: Byte, state: ThreadState)

  datatype Kernel = Kernel(
    initialized: bool,
    nextThreadId: nat,
    current: Option<Thread>,
    sched: Scheduler,
    threads: map<nat, Entry>)

  datatype SpawnError = NotInitialized | OutOfMemory

  datatype SpawnResult = Spawned(thread: Thread) | Failed(error: SpawnError)

  datatype Op =
    | DoInit
    | DoSpawn(priority: Byte, stackAvailable: bool)
    | DoStart
    | DoYield
    | DoPreempt(lockFree: bool)
    | DoFinish

  predicate HasCpu(s: Scheduler) { s.RoundRobin? ==> s.cpus != [] }

  function New(sched: Scheduler): Kernel { Kernel(false, 1, None, sched, map[]) }

  function SetState(k: Kernel, t: Thread, state: ThreadState): Kernel {
    k.(threads := k.threads[t.id := Entry(t.priority, state)])
  }

  /** `pick_next(0)` and, if it found a thread, `start_running`. */
  function Dispatch(k: Kernel): Kernel {
    var (next, sched) := PickNext(k.sched, 0);
    match next
    case None => k.(sched := sched, current := None)
    case Some(t) => SetState(k.(sched := sched, current := Some(t)), t, Running)
  }

  /** The current thread goes back to the ready queues and another one is dispatched. */
  function Rotate(k: Kernel): Kernel
    requires k.current.Some? && HasCpu(k.sched)
  {
    var t := k.current.value;
    Dispatch(SetState(k.(sched := Enqueue(k.sched, t)), t, Ready))
  }

  function Spawn(k: Kernel, priority: Byte, stackAvailable: bool): (SpawnResult, Kernel)
    requires HasCpu(k.sched)
  {
    if !k.initialized then (Failed(NotInitialized), k)
    else if !stackAvailable then (Failed(OutOfMemory), k)
    else
      var t := Thread(k.nextThreadId, priority);
      (Spawned(t), SetState(k.(nextThreadId := k.nextThreadId + 1, sched := Enqueue(k.sched, t)), t, Ready))
  }

  function StartFirstThread(k: Kernel): Kernel {
    if !k.initialized || k.current.Some? then k else Dispatch(k)
  }

  function YieldNow(k: Kernel): Kernel
    requires HasCpu(k.sched)
  {
    if !k.initialized || k.current.None? then k else Rotate(k)
  }

  function HandleIrqPreemption(k: Kernel, lockFree: bool): Kernel
    requires HasCpu(k.sched)
  {
    if !k.initialized || !lockFree || k.current.None? then k else Rotate(k)
  }

  function FinishAndYield(k: Kernel): Kernel {
    if !k.initialized || k.current.None? then k
    else Dispatch(SetState(k, k.current.value, Finished))
  }

  function Step(k: Kernel, op: Op): (k': Kernel)
    requires HasCpu(k.sched)
    ensures HasCpu(k'.sched)
  {
    match op
    case DoInit => k.(initialized := true)
    case DoSpawn(priority, stackAvailable) => Spawn(k, priority, stackAvailable).1
    case DoStart => StartFirstThread(k)
    case DoYield => YieldNow(k)
    case DoPreempt(lockFree) => HandleIrqPreemption(k, lockFree)
    case DoFinish => FinishAndYield(k)
  }

  function Run(k: Kernel, ops: seq<Op>): (k': Kernel)
    requires HasCpu(k.sched)
    ensures HasCpu(k'.sched)
  {
    if ops == [] then k else Step(Run(k, ops[..|ops| - 1]), ops[|ops| - 1])
  }

  lemma RunSnoc(k: Kernel, ops: seq<Op>, op: Op)
    requires HasCpu(k.sched)
    ensures Run(k, ops + [op]) == Step(Run(k, ops), op)
  {
    assert (ops + [op])[..|ops|] == ops;
  }

  // ---------------------------------------------------------------------------------------------
  // What every step keeps
  // ---------------------------------------------------------------------------------------------

  predicate InState(threads: map<nat, Entry>, t: Thread, state: ThreadState) {
    t.id in threads && threads[t.id] == Entry(t.priority, state)
  }

  /** The ready queues hold each Ready thread once and nothing else. */
  ghost predicate ReadyOk(ready: multiset<Thread>, threads: map<nat, Entry>) {
    forall t :: ready[t] == if InState(threads, t, Ready) then 1 else 0
  }

  /** `current_thread` is the one Running thread, if any. */
  ghost predicate CurrentOk(current: Option<Thread>, threads: map<nat, Entry>) {
    forall t :: current == Some(t) <==> InState(threads, t, Running)
  }

  ghost predicate IdsOk(next: nat, threads: map<nat, Entry>) {
    && next > 0
    && (forall id :: id in threads <==> 1 <= id < next)
    && (forall id <- threads :: threads[id].state != Blocked)
  }

  ghost predicate Inv(k: Kernel) {
    && Valid(k.sched)
    && IdsOk(k.nextThreadId, k.threads)
    && ReadyOk(Waiting(k.sched), k.threads)
    && CurrentOk(k.current, k.threads)
  }

  /** As Inv, but the CPU has been taken from whoever had it. */
  ghost predicate Vacant(k: Kernel) {
    Inv(k.(current := None))
  }

  lemma DispatchKeeps(k: Kernel)
    requires Vacant(k)
    ensures Inv(Dispatch(k))
  {
    PickRemoves(k.sched, 0);
    var (next, sched) := PickNext(k.sched, 0);
    if next.Some? {
      var t := next.value;
      assert Waiting(k.sched)[t] > 0;
      TakeReady(Waiting(sched), Waiting(k.sched), k.threads, t);
    }
  }

  lemma TakeReady(less: multiset<Thread>, ready: multiset<Thread>, threads: map<nat, Entry>, t: Thread)
    requires ReadyOk(ready, threads) && less + multiset{t} == ready && CurrentOk(None, threads)
    ensures InState(threads, t, Ready)
    ensures ReadyOk(less, threads[t.id := Entry(t.priority, Running)])
    ensures CurrentOk(Some(t), threads[t.id := Entry(t.priority, Running)])
  {
    assert ready[t] == less[t] + 1;
    var threads' := threads[t.id := Entry(t.priority, Running)];
    forall u ensures less[u] == if InState(threads', u, Ready) then 1 else 0 {
      assert ready[u] == less[u] + multiset{t}[u];
    }
    forall u ensures Some(t) == Some(u) <==> InState(threads', u, Running) {
      assert !InState(threads, u, Running);
    }
  }

  lemma AddReady(ready: multiset<Thread>, threads: map<nat, Entry>, t: Thread, current: Option<Thread>)
    requires ReadyOk(ready, threads) && CurrentOk(current, threads)
    requires t.id !in threads || current == Some(t)
    ensures var threads' := threads[t.id := Entry(t.priority, Ready)];
      && ReadyOk(ready + multiset{t}, threads')
      && CurrentOk(if current == Some(t) then None else current, threads')
  {
    var threads' := threads[t.id := Entry(t.priority, Ready)];
    assert current == Some(t) ==> InState(threads, t, Running);
    forall u ensures (ready + multiset{t})[u] == if InState(threads', u, Ready) then 1 else 0 {
      assert (ready + multiset{t})[u] == ready[u] + multiset{t}[u];
      assert ready[u] == if InState(threads, u, Ready) then 1 else 0;
    }
    forall u ensures (if current == Some(t) then None else current) == Some(u) <==> InState(threads', u, Running) {
      assert current == Some(u) <==> InState(threads, u, Running);
    }
  }

  lemma RotateKeeps(k: Kernel)
    requires Inv(k) && k.current.Some?
    ensures Inv(Rotate(k))
  {
    var t := k.current.value;
    assert InState(k.threads, t, Running);
    EnqueueAdds(k.sched, t);
    AddReady(Waiting(k.sched), k.threads, t, k.current);
    DispatchKeeps(SetState(k.(sched := Enqueue(k.sched, t)), t, Ready));
  }

  lemma SpawnKeeps(k: Kernel, priority: Byte, stackAvailable: bool)
    requires Inv(k)
    ensures Inv(Spawn(k, priority, stackAvailable).1)
  {
    if k.initialized && stackAvailable {
      var t := Thread(k.nextThreadId, priority);
      EnqueueAdds(k.sched, t);
      AddReady(Waiting(k.sched), k.threads, t, k.current);
      assert k.current != Some(t) by {
        assert k.current == Some(t) <==> InState(k.threads, t, Running);
      }
    }
  }

  lemma FinishVacates(k: Kernel)
    requires Inv(k) && k.current.Some?
    ensures Vacant(SetState(k, k.current.value, Finished))
  {
    var t := k.current.value;
    var k1 := SetState(k, t, Finished);
    assert InState(k.threads, t, Running);
    forall u ensures Waiting(k.sched)[u] == if InState(k1.threads, u, Ready) then 1 else 0 {
      assert Waiting(k.sched)[u] == if InState(k.threads, u, Ready) then 1 else 0;
    }
    forall u ensures !InState(k1.threads, u, Running) {
      assert k.current == Some(u) <==> InState(k.threads, u, Running);
    }
  }

  lemma StepKeeps(k: Kernel, op: Op)
    requires Inv(k)
    ensures Inv(Step(k, op))
  {
    match op
    case DoInit =>
    case DoSpawn(priority, stackAvailable) => SpawnKeeps(k, priority, stackAvailable);
    case DoStart => if k.initialized && k.current.None? { DispatchKeeps(k); }
    case DoYield => if k.initialized && k.current.Some? { RotateKeeps(k); }
    case DoPreempt(lockFree) => if k.initialized && lockFree && k.current.Some? { RotateKeeps(k); }
    case DoFinish =>
      if k.initialized && k.current.Some? {
        FinishVacates(k);
        DispatchKeeps(SetState(k, k.current.value, Finished));
      }
  }

  lemma {:induction false} RunKeeps(k: Kernel, ops: seq<Op>)
    requires Inv(k)
    ensures Inv(Run(k, ops))
  {
    if ops != [] {
      RunKeeps(k, ops[..|ops| - 1]);
      StepKeeps(Run(k, ops[..|ops| - 1]), ops[|ops| - 1]);
    }
  }

  // ---------------------------------------------------------------------------------------------
  // Main results
  // ---------------------------------------------------------------------------------------------

  lemma NewKeeps(sched: Scheduler, numCpus: nat)
    requires sched == NewFcfs() || (numCpus > 0 && sched == NewRoundRobin(numCpus))
    ensures Inv(New(sched))
  {
    NewIsValid(numCpus);
  }

  /** A queued thread is Ready, and queued once. */
  lemma QueuedIsReady(k: Kernel, t: Thread)
    requires Inv(k) && Waiting(k.sched)[t] > 0
    ensures InState(k.threads, t, Ready) && k.current != Some(t) && Waiting(k.sched)[t] == 1
  {
    assert Waiting(k.sched)[t] == if InState(k.threads, t, Ready) then 1 else 0;
    assert k.current == Some(t) <==> InState(k.threads, t, Running);
  }

  /** Exactly one of: queued once and Ready, current and Running, or nowhere and Finished. */
  ghost predicate InOnePlace(k: Kernel, t: Thread) {
    var queued, current := Waiting(k.sched)[t], k.current == Some(t);
    || (InState(k.threads, t, Ready) && queued == 1 && !current)
    || (InState(k.threads, t, Running) && queued == 0 && current)
    || (InState(k.threads, t, Finished) && queued == 0 && !current)
  }

  /**
   In every run of kernel operations each spawned thread (ids 1, 2, ... in spawn order) is in exactly
   one place with the matching state, and nothing else is queued or current.
   */
  lemma EveryThreadInOnePlace(sched: Scheduler, numCpus: nat, ops: seq<Op>, t: Thread)
    requires sched == NewFcfs() || (numCpus > 0 && sched == NewRoundRobin(numCpus))
    ensures var k := Run(New(sched), ops);
      && (t.id in k.threads <==> 1 <= t.id < k.nextThreadId)
      && (if t.id in k.threads && k.threads[t.id].priority == t.priority then InOnePlace(k, t)
          else Waiting(k.sched)[t] == 0 && k.current != Some(t))
  {
    NewKeeps(sched, numCpus);
    RunKeeps(New(sched), ops);
    var k := Run(New(sched), ops);
    assert Waiting(k.sched)[t] == if InState(k.threads, t, Ready) then 1 else 0;
    assert k.current == Some(t) <==> InState(k.threads, t, Running);
  }

  lemma AtMostOneRunning(sched: Scheduler, numCpus: nat, ops: seq<Op>, a: nat, b: nat)
    requires sched == NewFcfs() || (numCpus > 0 && sched == NewRoundRobin(numCpus))
    requires var k := Run(New(sched), ops);
      a in k.threads && b in k.threads && k.threads[a].state == Running && k.threads[b].state == Running
    ensures a == b
  {
    var k := Run(New(sched), ops);
    EveryThreadInOnePlace(sched, numCpus, ops, Thread(a, k.threads[a].priority));
    EveryThreadInOnePlace(sched, numCpus, ops, Thread(b, k.threads[b].priority));
  }

  lemma DispatchPicksReady(k: Kernel)
    requires Vacant(k)
    ensures var k' := Dispatch(k);
      k'.current.Some? ==> InState(k.threads, k'.current.value, Ready)
    ensures forall id | id in k.threads && k.threads[id].state == Finished ::
      id in Dispatch(k).threads && Dispatch(k).threads[id] == k.threads[id]
  {
    PickRemoves(k.sched, 0);
    var (next, sched) := PickNext(k.sched, 0);
    if next.Some? {
      TakeReady(Waiting(sched), Waiting(k.sched), k.threads, next.value);
    }
  }

  lemma RotateKeepsFinished(k: Kernel, id: nat)
    requires Inv(k) && k.current.Some? && id in k.threads && k.threads[id].state == Finished
    ensures id in Rotate(k).threads && Rotate(k).threads[id] == k.threads[id]
  {
    var t := k.current.value;
    assert InState(k.threads, t, Running);
    EnqueueAdds(k.sched, t);
    AddReady(Waiting(k.sched), k.threads, t, k.current);
    DispatchPicksReady(SetState(k.(sched := Enqueue(k.sched, t)), t, Ready));
  }

  lemma FinishKeepsFinished(k: Kernel, id: nat)
    requires Inv(k) && k.current.Some? && id in k.threads && k.threads[id].state == Finished
    ensures var k' := Dispatch(SetState(k, k.current.value, Finished));
      id in k'.threads && k'.threads[id] == k.threads[id]
  {
    assert InState(k.threads, k.current.value, Running);
    FinishVacates(k);
    DispatchPicksReady(SetState(k, k.current.value, Finished));
  }

  lemma StepKeepsFinished(k: Kernel, op: Op, id: nat)
    requires Inv(k) && id in k.threads && k.threads[id].state == Finished
    ensures id in Step(k, op).threads && Step(k, op).threads[id] == k.threads[id]
  {
    match op
    case DoInit =>
    case DoSpawn(_, _) =>
    case DoStart => if k.current.None? { DispatchPicksReady(k); }
    case DoFinish => if k.current.Some? { FinishKeepsFinished(k, id); }
    case _ => if k.current.Some? { RotateKeepsFinished(k, id); }
  }

  /** A Finished thread stays Finished, and is never queued or picked again. */
  lemma {:induction false} FinishedForever(k: Kernel, ops: seq<Op>, t: Thread)
    requires Inv(k) && InState(k.threads, t, Finished)
    ensures var k' := Run(k, ops);
      InState(k'.threads, t, Finished) && Waiting(k'.sched)[t] == 0 && k'.current != Some(t)
  {
    RunKeeps(k, ops);
    var k' := Run(k, ops);
    if ops != [] {
      var before := ops[..|ops| - 1];
      FinishedForever(k, before, t);
      RunKeeps(k, before);
      StepKeepsFinished(Run(k, before), ops[|ops| - 1], t.id);
    }
    assert Waiting(k'.sched)[t] == if InState(k'.threads, t, Ready) then 1 else 0;
    assert k'.current == Some(t) <==> InState(k'.threads, t, Running);
  }

  /**
   A spawn fails exactly when the kernel is not initialized or no stack is available, and then changes
   nothing; otherwise its thread has an id no earlier thread had and waits in the ready queues.
   */
  lemma SpawnOutcome(k: Kernel, priority: Byte, stackAvailable: bool)
    requires Inv(k)
    ensures var (r, k') := Spawn(k, priority, stackAvailable);
      && (r.Failed? <==> !k.initialized || !stackAvailable)
      && (r.Failed? ==> k' == k)
      && (r.Spawned? ==>
            && r.thread.id !in k.threads && r.thread.id > 0 && r.thread.priority == priority
            && InState(k'.threads, r.thread, Ready)
            && Waiting(k'.sched) == Waiting(k.sched) + multiset{r.thread}
            && k'.current == k.current)
  {
    if k.initialized && stackAvailable {
      EnqueueAdds(k.sched, Thread(k.nextThreadId, priority));
    }
  }

  /** Yield and timer preemption never leave a kernel that had a current thread without one. */
  lemma SwitchKeepsCurrent(k: Kernel, op: Op)
    requires Inv(k) && k.current.Some? && (op.DoYield? || op.DoPreempt?)
    ensures Step(k, op).current.Some?
  {
    EnqueueThenPick(k.sched, k.current.value);
  }

  /**
   After `finish_and_yield` the CPU is left without a thread exactly when CPU 0 has none queued and no
   other CPU has a Normal or Low one. A High or Idle thread elsewhere does not count.
   */
  lemma FinishLeavesIdleIff(k: Kernel)
    requires k.initialized && k.current.Some? && k.sched.RoundRobin? && k.sched.cpus != []
    ensures FinishAndYield(k).current.None? <==>
      && k.sched.cpus[0].Length() == 0
      && !exists v | 0 <= v < |k.sched.cpus| && v != 0 :: Stealable(k.sched.cpus[v])
  {
    PickNextMeaning(k.sched, 0);
  }

  // ---------------------------------------------------------------------------------------------
  // What each operation does to the thread that makes it
  // ---------------------------------------------------------------------------------------------

  /** A queued thread is dispatched from the queues and Running; nobody else changes state. */
  lemma DispatchOutcome(k: Kernel)
    requires Vacant(k)
    ensures var k', next := Dispatch(k), PickNext(k.sched, 0).0;
      && k'.current == next && k'.initialized == k.initialized && k'.nextThreadId == k.nextThreadId
      && (next.Some? ==> InState(k.threads, next.value, Ready) && InState(k'.threads, next.value, Running))
      && (forall id | id in k.threads && (next.Some? ==> id != next.value.id) ::
            id in k'.threads && k'.threads[id] == k.threads[id])
  {
    PickRemoves(k.sched, 0);
    var (next, sched) := PickNext(k.sched, 0);
    if next.Some? {
      TakeReady(Waiting(sched), Waiting(k.sched), k.threads, next.value);
    }
  }

  /** `finish_and_yield` finishes the current thread: it is Finished, in no queue, and not current. */
  lemma FinishOutcome(k: Kernel)
    requires Inv(k) && k.initialized && k.current.Some?
    ensures var k', t := Step(k, DoFinish), k.current.value;
      && InState(k'.threads, t, Finished) && Waiting(k'.sched)[t] == 0 && k'.current != Some(t)
      && k'.current == PickNext(k.sched, 0).0
  {
    var t := k.current.value;
    var k1 := SetState(k, t, Finished);
    FinishVacates(k);
    DispatchOutcome(k1);
    StepKeeps(k, DoFinish);
    var k' := Step(k, DoFinish);
    assert InState(k1.threads, t, Finished);
    assert Waiting(k'.sched)[t] == if InState(k'.threads, t, Ready) then 1 else 0;
  }

  /** So once a thread has finished, no operations ever run it again. */
  lemma FinishedNeverRunsAgain(k: Kernel, ops: seq<Op>)
    requires Inv(k) && k.initialized && k.current.Some?
    ensures var k' := Run(Step(k, DoFinish), ops); var t := k.current.value;
      InState(k'.threads, t, Finished) && Waiting(k'.sched)[t] == 0 && k'.current != Some(t)
  {
    StepKeeps(k, DoFinish);
    FinishOutcome(k);
    FinishedForever(Step(k, DoFinish), ops, k.current.value);
  }

  /** A switch that requeues: the old thread is Ready and queued, unless it is picked again; the new one is Running. */
  lemma SwitchOutcome(k: Kernel, op: Op)
    requires Inv(k) && k.initialized && k.current.Some? && (op.DoYield? || op == DoPreempt(true))
    ensures var k', t := Step(k, op), k.current.value;
      && k'.current == PickNext(Enqueue(k.sched, t), 0).0 && k'.current.Some?
      && InState(k'.threads, k'.current.value, Running)
      && (k'.current != Some(t) ==> InState(k'.threads, t, Ready) && Waiting(k'.sched)[t] == 1)
      && (k'.current != Some(t) ==> InState(k.threads, k'.current.value, Ready))
  {
    var t := k.current.value;
    var k1 := SetState(k.(sched := Enqueue(k.sched, t)), t, Ready);
    assert InState(k.threads, t, Running);
    EnqueueAdds(k.sched, t);
    AddReady(Waiting(k.sched), k.threads, t, k.current);
    DispatchOutcome(k1);
    EnqueueThenPick(k.sched, t);
    StepKeeps(k, op);
    var k' := Step(k, op);
    assert Waiting(k'.sched)[t] == if InState(k'.threads, t, Ready) then 1 else 0;
  }

  /** A start runs what `pick_next(0)` finds, if nobody is current; and an uninitialized kernel does nothing. */
  lemma StartOutcome(k: Kernel, op: Op)
    requires Inv(k)
    ensures k.initialized && k.current.None? ==>
      var k', next := Step(k, DoStart), PickNext(k.sched, 0).0;
      k'.current == next && (next.Some? ==> InState(k'.threads, next.value, Running))
    ensures k.current.Some? ==> Step(k, DoStart) == k
    ensures !k.initialized && op != DoInit ==> Step(k, op) == k
    ensures Step(k, DoInit) == k.(initialized := true)
  {
    if k.initialized && k.current.None? {
      DispatchOutcome(k);
    }
  }
}
