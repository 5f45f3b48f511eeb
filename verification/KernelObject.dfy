/**
 `Kernel<A, RoundRobinScheduler>` (src/kernel.rs) as the object it is. Each method takes the steps of
 its source: interrupt mask, lock, thread states, scheduler calls, context pointers. Each is proved to
 change the kernel as the function of module Kernel says, and to leave the lock free.
 */
module KernelObject {
  import opened Options
  import opened Numbers
  import S = Scheduler
  import K = Kernel
  import RunQueues

  class Kernel {
    const scheduler: RunQueues.RoundRobinScheduler
    var initialized: bool
    var nextThreadId: nat
    var currentThread: Option<S.Thread>
    var threads: map<nat, K.Entry>
    var lockHeld: bool               // the `current_thread` mutex
    var interruptsEnabled: bool
    var irqSave: Option<nat>         // IRQ_SAVE_CTX, as the id of the thread whose context it names
    var irqLoad: Option<nat>         // IRQ_LOAD_CTX

    ghost predicate Valid() { scheduler.Valid() && scheduler.numCpus > 0 }

    ghost function View(): K.Kernel
      reads this, scheduler, scheduler.runQueues
    {
      K.Kernel(initialized, nextThreadId, currentThread, scheduler.View(), threads)
    }

    constructor (numCpus: nat)
      requires numCpus > 0
      ensures Valid() && fresh(scheduler) && fresh(scheduler.runQueues)
      ensures View() == K.New(S.NewRoundRobin(numCpus)) && !lockHeld && !interruptsEnabled
      ensures irqSave == irqLoad == None
    {
      scheduler := new RunQueues.RoundRobinScheduler(numCpus);
      initialized, nextThreadId, currentThread, threads := false, 1, None, map[];
      lockHeld, interruptsEnabled, irqSave, irqLoad := false, false, None, None;
    }

    /** Succeeds the first time only. */
    method Init() returns (ok: bool)
      requires Valid()
      modifies this`initialized
      ensures ok == !old(initialized)
      ensures View() == K.Step(old(View()), K.DoInit)
    {
      ok := !initialized;
      initialized := true;
    }

    method SetState(thread: S.Thread, state: K.ThreadState)
      modifies this`threads
      ensures threads == old(threads)[thread.id := K.Entry(thread.priority, state)]
    {
      threads := threads[thread.id := K.Entry(thread.priority, state)];
    }

    method Spawn(priority: Byte, stackAvailable: bool) returns (result: K.SpawnResult)
      requires Valid()
      modifies this`nextThreadId, this`threads, scheduler, scheduler.runQueues
      ensures (result, View()) == K.Spawn(old(View()), priority, stackAvailable)
    {
      if !initialized {
        return K.Failed(K.NotInitialized);
      }
      if !stackAvailable {
        return K.Failed(K.OutOfMemory);
      }
      var id := nextThreadId;
      nextThreadId := nextThreadId + 1;
      var thread := S.Thread(id, priority);
      SetState(thread, K.Ready);
      scheduler.Enqueue(thread);
      result := K.Spawned(thread);
    }

    /**
     `handover` is the thread that `context_switch` jumps to; the mask stays set across the jump and the
     resumed thread clears it.
     */
    method StartFirstThread() returns (handover: Option<S.Thread>)
      requires Valid() && !lockHeld
      modifies this, scheduler, scheduler.runQueues
      ensures View() == K.StartFirstThread(old(View())) && !lockHeld
      ensures handover == if initialized && old(currentThread).None? then currentThread else None
      ensures interruptsEnabled == if initialized then handover.None? else old(interruptsEnabled)
      ensures if handover.Some? then irqSave == irqLoad == Some(handover.value.id)
              else irqSave == old(irqSave) && irqLoad == old(irqLoad)
    {
      handover := None;
      if !initialized {
        return;
      }
      interruptsEnabled := false;
      lockHeld := true;
      if currentThread.Some? {
        interruptsEnabled := true;
        lockHeld := false;
        return;
      }
      var next := scheduler.PickNext(0);
      if next.Some? {
        SetState(next.value, K.Running);
        currentThread := next;
        lockHeld := false;
        irqSave, irqLoad := Some(next.value.id), Some(next.value.id);
        handover := next;
      } else {
        interruptsEnabled := true;
        lockHeld := false;
      }
    }

    method YieldNow() returns (handover: Option<S.Thread>)
      requires Valid() && !lockHeld
      modifies this, scheduler, scheduler.runQueues
      ensures View() == K.YieldNow(old(View())) && !lockHeld
      ensures handover == if initialized && old(currentThread).Some? then currentThread else None
      ensures interruptsEnabled == if initialized then handover.None? else old(interruptsEnabled)
      ensures irqSave == old(irqSave) && irqLoad == old(irqLoad)
    {
      handover := None;
      if !initialized {
        return;
      }
      interruptsEnabled := false;
      lockHeld := true;
      if currentThread.Some? {
        var current := currentThread.value;
        currentThread := None;
        SetState(current, K.Ready);
        scheduler.Enqueue(current);
        var next := scheduler.PickNext(0);
        if next.Some? {
          SetState(next.value, K.Running);
          currentThread := next;
          lockHeld := false;
          handover := next;
          return;
        }
        interruptsEnabled := true;
        lockHeld := false;
      } else {
        lockHeld := false;
        interruptsEnabled := true;
      }
    }

    method FinishAndYield() returns (handover: Option<S.Thread>)
      requires Valid() && !lockHeld
      modifies this, scheduler, scheduler.runQueues
      ensures View() == K.FinishAndYield(old(View())) && !lockHeld
      ensures handover == if initialized && old(currentThread).Some? then currentThread else None
      ensures interruptsEnabled == if initialized then handover.None? else old(interruptsEnabled)
      ensures irqSave == old(irqSave) && irqLoad == old(irqLoad)
    {
      handover := None;
      if !initialized {
        return;
      }
      interruptsEnabled := false;
      lockHeld := true;
      if currentThread.Some? {
        var current := currentThread.value;
        currentThread := None;
        SetState(current, K.Finished);
        var next := scheduler.PickNext(0);
        if next.Some? {
          SetState(next.value, K.Running);
          currentThread := next;
          lockHeld := false;
          handover := next;
          return;
        }
        interruptsEnabled := true;
        lockHeld := false;
      } else {
        lockHeld := false;
        interruptsEnabled := true;
      }
    }

    /** Called from the IRQ handler with interrupts masked; gives up if the lock is taken. */
    method HandleIrqPreemption()
      requires Valid()
      modifies this, scheduler, scheduler.runQueues
      ensures View() == K.HandleIrqPreemption(old(View()), !old(lockHeld))
      ensures lockHeld == old(lockHeld) && interruptsEnabled == old(interruptsEnabled)
      ensures if initialized && !lockHeld && old(currentThread).Some? && currentThread.Some?
              then irqSave == irqLoad == Some(currentThread.value.id)
              else irqSave == old(irqSave) && irqLoad == old(irqLoad)
    {
      if !initialized || lockHeld {
        return;
      }
      lockHeld := true;
      if currentThread.Some? {
        var current := currentThread.value;
        currentThread := None;
        SetState(current, K.Ready);
        scheduler.Enqueue(current);
        var next := scheduler.PickNext(0);
        if next.Some? {
          SetState(next.value, K.Running);
          currentThread := next;
          lockHeld := false;
          irqLoad := Some(next.value.id);
          irqSave, irqLoad := Some(next.value.id), Some(next.value.id);
        } else {
          lockHeld := false;
        }
      } else {
        lockHeld := false;
      }
    }
  }
}
