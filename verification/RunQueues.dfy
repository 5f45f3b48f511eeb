/**
 The scheduler objects of src/sched/rr.rs: scanning loops over the per-CPU queues, counters changed
 in place, and the first-come-first-serve scheduler on top of the linked queue. Each method is proved
 against the functions of module Scheduler.
 */
module RunQueues {
  import opened Options
  import opened Numbers
  import S = Scheduler
  import LinkedQueue

  class RoundRobinScheduler {
    const numCpus: nat
    const runQueues: array<S.CpuRunQueue>
    var runnableThreads: int

    ghost predicate Valid() { runQueues.Length == numCpus }

    ghost function View(): S.Scheduler
      reads this, runQueues
    {
      S.RoundRobin(runQueues[..], runnableThreads)
    }

    constructor (numCpus: nat)
      ensures Valid() && fresh(runQueues) && this.numCpus == numCpus
      ensures View() == S.NewRoundRobin(numCpus)
    {
      this.numCpus := numCpus;
      runQueues := new S.CpuRunQueue[numCpus](_ => S.EMPTY_CPU);
      runnableThreads := 0;
    }

    /** The lowest-numbered CPU with the fewest threads. */
    method SelectCpu() returns (best: nat)
      requires Valid() && numCpus > 0
      ensures S.IsLeastLoaded(runQueues[..], numCpus, best)
      ensures best == S.LeastLoaded(runQueues[..], numCpus)
    {
      best := 0;
      var minThreads := runQueues[0].threadCount;
      var cpu := 1;
      while cpu < numCpus
        invariant 1 <= cpu <= numCpus
        invariant S.IsLeastLoaded(runQueues[..], cpu, best)
        invariant minThreads == runQueues[best].threadCount
      {
        var count := runQueues[cpu].threadCount;
        if count < minThreads {
          minThreads, best := count, cpu;
        }
        cpu := cpu + 1;
      }
      LeastLoadedIsUnique(runQueues[..], numCpus, best, S.LeastLoaded(runQueues[..], numCpus));
    }

    method Enqueue(thread: S.Thread)
      requires Valid() && numCpus > 0
      modifies this, runQueues
      ensures View() == S.Enqueue(old(View()), thread)
    {
      var cpu := SelectCpu();
      var queue := runQueues[cpu];
      match S.PriorityLevel(thread.priority) {
        case High => queue := queue.(high := queue.high + [thread]);
        case Normal => queue := queue.(normal := queue.normal + [thread]);
        case Low => queue := queue.(low := queue.low + [thread]);
        case Idle => queue := queue.(idle := queue.idle + [thread]);
      }
      runQueues[cpu] := queue.(threadCount := queue.threadCount + 1);
      runnableThreads := runnableThreads + 1;
    }

    /** `try_pop` on one band, with the CPU's counter. */
    method PopBand(cpu: nat, level: S.Level) returns (thread: Option<S.Thread>)
      requires Valid() && cpu < numCpus
      modifies runQueues
      ensures var q := old(runQueues[cpu]);
        if q.Band(level) == [] then thread == None && runQueues[..] == old(runQueues[..])
        else thread == Some(q.Band(level)[0]) && runQueues[..] == old(runQueues[..])[cpu := q.Pop(level)]
    {
      var queue := runQueues[cpu];
      if queue.Band(level) == [] {
        return None;
      }
      thread := Some(queue.Band(level)[0]);
      runQueues[cpu] := queue.Pop(level);
    }

    /** Goes round the other CPUs once, taking a Normal or else a Low thread from the first that has one. */
    method TryStealWork(cpu: nat) returns (thread: Option<S.Thread>)
      requires Valid() && cpu < numCpus
      modifies runQueues
      ensures var was := old(runQueues[..]);
        match S.Victim(was, cpu, 1)
        case None => thread == None && runQueues[..] == was
        case Some(d) =>
          var v := S.Around(cpu, d, numCpus);
          var level := was[v].StealBand().value;
          thread == Some(was[v].Band(level)[0]) && runQueues[..] == was[v := was[v].Pop(level)]
    {
      ghost var was := runQueues[..];
      var start := (cpu + 1) % numCpus;
      var i := 0;
      while i < numCpus
        invariant 0 <= i <= numCpus
        invariant runQueues[..] == was
        invariant i < numCpus ==> S.Victim(was, cpu, 1) == S.Victim(was, cpu, i + 1)
        invariant i == numCpus ==> S.Victim(was, cpu, 1) == None
      {
        var victim := (start + i) % numCpus;
        VictimIndex(cpu, i, numCpus);
        if victim != cpu {
          thread := PopBand(victim, S.Normal);
          if thread.Some? {
            return;
          }
          thread := PopBand(victim, S.Low);
          if thread.Some? {
            return;
          }
        }
        i := i + 1;
      }
      thread := None;
    }

    method PickNext(cpu: nat) returns (thread: Option<S.Thread>)
      requires Valid()
      modifies this, runQueues
      ensures (thread, View()) == S.PickNext(old(View()), cpu)
    {
      if cpu >= numCpus {
        return None;
      }
      thread := PopBand(cpu, S.High);
      if thread.None? {
        thread := PopBand(cpu, S.Normal);
      }
      if thread.None? {
        thread := PopBand(cpu, S.Low);
      }
      if thread.None? {
        thread := PopBand(cpu, S.Idle);
      }
      if thread.None? {
        thread := TryStealWork(cpu);
      }
      if thread.Some? {
        runnableThreads := runnableThreads - 1;
      }
    }
  }

  lemma LeastLoadedIsUnique(cpus: seq<S.CpuRunQueue>, n: nat, a: nat, b: nat)
    requires S.IsLeastLoaded(cpus, n, a) && S.IsLeastLoaded(cpus, n, b)
    ensures a == b
  {
    assert cpus[a].threadCount <= cpus[b].threadCount <= cpus[a].threadCount;
  }

  /** The index arithmetic of the steal loop is a walk round the CPUs that ends at the requester. */
  lemma VictimIndex(cpu: nat, i: nat, n: nat)
    requires cpu < n && i < n
    ensures ((cpu + 1) % n + i) % n == S.Around(cpu, i + 1, n)
  {
    WrapOnce(cpu + 1, n);
    WrapOnce((cpu + 1) % n + i, n);
  }

  lemma WrapOnce(x: nat, n: nat)
    requires x < 2 * n
    ensures x % n == if x < n then x else x - n
  {
    DivModIs(x, n, if x < n then 0 else 1, if x < n then x else x - n);
  }

  /** `FirstComeFirstServeScheduler`: one linked queue and a counter. */
  class FirstComeFirstServeScheduler {
    const queue: LinkedQueue.LockFreeQueue<S.Thread>
    var runnableThreads: int

    ghost predicate Valid()
      reads this, queue, queue.spine
    {
      queue.Valid()
    }

    ghost function View(): S.Scheduler
      reads this, queue
    {
      S.FirstComeFirstServe(queue.contents, runnableThreads)
    }

    constructor ()
      ensures Valid() && View() == S.NewFcfs() && fresh(queue) && fresh(queue.created)
    {
      queue := new LinkedQueue.LockFreeQueue();
      runnableThreads := 0;
    }

    method Enqueue(thread: S.Thread, budget: nat)
      requires Valid()
      modifies this, queue, queue.created
      ensures Valid() && fresh(queue.created - old(queue.created))
      ensures View() == S.Enqueue(old(View()), thread)
    {
      var iterations, failures := queue.Push(thread, budget);
      runnableThreads := runnableThreads + 1;
    }

    method PickNext(cpu: nat, budget: nat) returns (thread: Option<S.Thread>)
      requires Valid()
      modifies this, queue, queue.created
      ensures Valid() && queue.created == old(queue.created)
      ensures (thread, View()) == S.PickNext(old(View()), cpu)
    {
      var iterations, failures;
      FcfsPick(queue.contents, runnableThreads, cpu);
      thread, iterations, failures := queue.TryPop(budget);
      if thread.Some? {
        runnableThreads := runnableThreads - 1;
      }
    }
  }

  lemma FcfsPick(queue: seq<S.Thread>, runnable: int, cpu: nat)
    ensures S.PickNext(S.FirstComeFirstServe(queue, runnable), cpu) ==
      if queue == [] then (None, S.FirstComeFirstServe(queue, runnable))
      else (Some(queue[0]), S.FirstComeFirstServe(queue[1..], runnable - 1))
  {
  }
}
