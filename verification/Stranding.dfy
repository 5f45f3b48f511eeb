/**
 Threads placed on a CPU other than 0. The kernel only ever calls `pick_next(0)` and work stealing looks only
 at Normal and Low queues (src/kernel.rs, src/sched/rr.rs), so what becomes of such a thread depends on its
 band and on what CPU 0 has to do.
 */
module Stranding {
  import opened Options
  import opened Numbers
  import opened Scheduler
  import opened Kernel

  // ---------------------------------------------------------------------------------------------
  // High and Idle threads elsewhere never leave their queue
  // ---------------------------------------------------------------------------------------------

  /** On every CPU but 0 the High and Idle queues have at most grown at their ends. */
  ghost predicate OnlyGrew(s: Scheduler, s': Scheduler) {
    && s.RoundRobin? && s'.RoundRobin? && |s'.cpus| == |s.cpus|
    && forall v | 0 < v < |s.cpus| :: s.cpus[v].high <= s'.cpus[v].high && s.cpus[v].idle <= s'.cpus[v].idle
  }

  lemma OnlyGrewTransitive(a: Scheduler, b: Scheduler, c: Scheduler)
    requires OnlyGrew(a, b) && OnlyGrew(b, c)
    ensures OnlyGrew(a, c)
  {
    forall v | 0 < v < |a.cpus| ensures a.cpus[v].high <= c.cpus[v].high && a.cpus[v].idle <= c.cpus[v].idle {
      assert a.cpus[v].high <= b.cpus[v].high <= c.cpus[v].high;
      assert a.cpus[v].idle <= b.cpus[v].idle <= c.cpus[v].idle;
    }
  }

  lemma EnqueueGrows(s: Scheduler, t: Thread)
    requires s.RoundRobin? && s.cpus != []
    ensures OnlyGrew(s, Enqueue(s, t))
  {
  }

  /** A pick for CPU 0 takes from CPU 0, or a Normal or Low thread. */
  lemma PickGrows(s: Scheduler)
    requires s.RoundRobin? && s.cpus != []
    ensures OnlyGrew(s, PickNext(s, 0).1)
  {
    var src := PickSource(s.cpus, 0);
    assert src.Some? && src.value.cpu != 0 ==> src.value.level == Normal || src.value.level == Low;
  }

  lemma StepGrows(k: Kernel, op: Op)
    requires k.sched.RoundRobin? && k.sched.cpus != []
    ensures OnlyGrew(k.sched, Step(k, op).sched)
  {
    PickGrows(k.sched);
    match op
    case DoSpawn(priority, _) => EnqueueGrows(k.sched, Thread(k.nextThreadId, priority));
    case DoYield =>
      if k.current.Some? {
        RotateGrows(k);
      }
    case DoPreempt(_) =>
      if k.current.Some? {
        RotateGrows(k);
      }
    case _ =>
  }

  lemma RotateGrows(k: Kernel)
    requires k.sched.RoundRobin? && k.sched.cpus != [] && k.current.Some?
    ensures OnlyGrew(k.sched, Rotate(k).sched)
  {
    var queued := Enqueue(k.sched, k.current.value);
    EnqueueGrows(k.sched, k.current.value);
    PickGrows(queued);
    OnlyGrewTransitive(k.sched, queued, PickNext(queued, 0).1);
  }

  /** Over any operations whatever, a High or Idle queue of another CPU loses no thread and keeps its order. */
  lemma {:induction false} HighAndIdleOnlyGrow(k: Kernel, ops: seq<Op>)
    requires k.sched.RoundRobin? && k.sched.cpus != []
    ensures OnlyGrew(k.sched, Run(k, ops).sched)
  {
    if ops != [] {
      var before := ops[..|ops| - 1];
      HighAndIdleOnlyGrow(k, before);
      StepGrows(Run(k, before), ops[|ops| - 1]);
      OnlyGrewTransitive(k.sched, Run(k, before).sched, Run(k, ops).sched);
    }
  }

  /** So a High or Idle thread that waits on another CPU waits forever. */
  lemma NeverRuns(k: Kernel, ops: seq<Op>, v: nat, t: Thread)
    requires Inv(k) && k.sched.RoundRobin? && 0 < v < |k.sched.cpus|
    requires t in k.sched.cpus[v].high || t in k.sched.cpus[v].idle
    ensures InState(Run(k, ops).threads, t, Ready) && Run(k, ops).current != Some(t)
  {
    var k' := Run(k, ops);
    RunKeeps(k, ops);
    HighAndIdleOnlyGrow(k, ops);
    var q, q' := k.sched.cpus[v], k'.sched.cpus[v];
    assert q.high <= q'.high && q.idle <= q'.idle;
    assert t in q'.high || t in q'.idle;
    QueuedIsWaiting(k'.sched.cpus, v, t);
    QueuedIsReady(k', t);
  }

  // ---------------------------------------------------------------------------------------------
  // While CPU 0 has only its current thread, nothing else runs
  // ---------------------------------------------------------------------------------------------

  /** No thread arrives and none finishes. */
  predicate KeepsGoing(op: Op) { !op.DoFinish? && (op.DoSpawn? ==> !op.stackAvailable) }

  lemma PushThenPop(q: CpuRunQueue, t: Thread)
    requires q.Length() == 0
    ensures var level := PriorityLevel(t.priority);
      q.Push(t).TopBand() == Some(level) && q.Push(t).Band(level) == [t] && q.Push(t).Pop(level) == q
  {
    var level := PriorityLevel(t.priority);
    assert [t][1..] == [];
    assert q.Band(level) + [t] == [t];
  }

  lemma RequeueAlone(s: Scheduler, t: Thread)
    requires s.RoundRobin? && CpusOk(s.cpus) && s.cpus[0].Length() == 0
    ensures PickNext(Enqueue(s, t), 0) == (Some(t), s)
  {
    var cpus := s.cpus;
    assert LeastLoaded(cpus, |cpus|) == 0 by {
      var c := LeastLoaded(cpus, |cpus|);
      assert IsLeastLoaded(cpus, |cpus|, c);
      assert CpuOk(cpus[0]) && CpuOk(cpus[c]);
    }
    PushThenPop(cpus[0], t);
    assert Enqueue(s, t) == RoundRobin(cpus[0 := cpus[0].Push(t)], s.runnable + 1);
    assert cpus[0 := cpus[0].Push(t)][0 := cpus[0]] == cpus;
  }

  lemma RotateAlone(k: Kernel)
    requires k.sched.RoundRobin? && CpusOk(k.sched.cpus) && k.sched.cpus[0].Length() == 0
    requires k.current.Some? && InState(k.threads, k.current.value, Running)
    ensures Rotate(k) == k
  {
    RequeueAlone(k.sched, k.current.value);
    var t := k.current.value;
    assert k.threads[t.id := Entry(t.priority, Ready)][t.id := Entry(t.priority, Running)] == k.threads;
  }

  /**
   While CPU 0 has nothing but its current thread, yields, preemptions, starts and refused spawns change
   nothing at all: that thread keeps the CPU, whoever waits elsewhere, stealable or not.
   */
  lemma {:induction false} OnlyCurrentRuns(k: Kernel, ops: seq<Op>)
    requires Inv(k) && k.initialized && k.sched.RoundRobin? && k.current.Some? && k.sched.cpus[0].Length() == 0
    requires forall i | 0 <= i < |ops| :: KeepsGoing(ops[i])
    ensures Run(k, ops) == k
  {
    if ops != [] {
      OnlyCurrentRuns(k, ops[..|ops| - 1]);
      assert InState(k.threads, k.current.value, Running);
      RotateAlone(k);
      assert KeepsGoing(ops[|ops| - 1]);
    }
  }

  // ---------------------------------------------------------------------------------------------
  // Exactly when a thread elsewhere is dispatched
  // ---------------------------------------------------------------------------------------------

  /** An operation that dispatches without enqueueing first. */
  predicate Vacates(k: Kernel, op: Op) {
    k.initialized && ((op.DoFinish? && k.current.Some?) || (op.DoStart? && k.current.None?))
  }

  lemma {:induction false} CountsTwice(s: seq<Thread>, i: nat, j: nat)
    requires i < j < |s| && s[i] == s[j]
    ensures multiset(s)[s[i]] >= 2
  {
    assert s == s[..j] + s[j..];
    assert s[..j][i] == s[i] && s[j..][0] == s[j];
    assert multiset(s) == multiset(s[..j]) + multiset(s[j..]);
    assert s[i] in multiset(s[..j]) && s[i] in multiset(s[j..]);
  }

  /** A waiting thread has one place: its CPU, its band and its position. */
  lemma OnePosition(k: Kernel, v: nat, level: Level, i: nat, u: nat, other: Level, j: nat)
    requires Inv(k) && k.sched.RoundRobin? && v < |k.sched.cpus| && u < |k.sched.cpus|
    requires i < |k.sched.cpus[v].Band(level)| && j < |k.sched.cpus[u].Band(other)|
    requires k.sched.cpus[v].Band(level)[i] == k.sched.cpus[u].Band(other)[j]
    ensures u == v && other == level && i == j
  {
    var cpus := k.sched.cpus;
    var t := cpus[v].Band(level)[i];
    assert CpuOk(cpus[v]) && CpuOk(cpus[u]);
    assert level == PriorityLevel(t.priority) == other;
    BandIsQueued(cpus[v], level, i);
    BandIsQueued(cpus[u], other, j);
    QueuedIsWaiting(cpus, v, t);
    QueuedIsReady(k, t);
    if u != v {
      UnionAtLeastBoth(Bags(cpus), if u < v then u else v, if u < v then v else u, t);
    } else if i != j {
      CountsTwice(cpus[v].Band(level), if i < j then i else j, if i < j then j else i);
    }
  }

  /** A dispatch without an enqueue runs a thread of another CPU exactly when it is what a steal would take. */
  lemma StolenIff(k: Kernel, v: nat, level: Level, i: nat)
    requires Inv(k) && k.sched.RoundRobin? && 0 < v < |k.sched.cpus| && i < |k.sched.cpus[v].Band(level)|
    ensures PickNext(k.sched, 0).0 == Some(k.sched.cpus[v].Band(level)[i]) <==>
      && k.sched.cpus[0].Length() == 0 && Victim(k.sched.cpus, 0, 1) == Some(v)
      && k.sched.cpus[v].StealBand() == Some(level) && i == 0
  {
    var src := PickSource(k.sched.cpus, 0);
    if PickNext(k.sched, 0).0 == Some(k.sched.cpus[v].Band(level)[i]) {
      OnePosition(k, v, level, i, src.value.cpu, src.value.level, 0);
    }
  }

  lemma PushHead(q: CpuRunQueue, t: Thread, level: Level)
    requires q.Push(t).Band(level) != []
    ensures q.Push(t).Band(level)[0] == t || (q.Band(level) != [] && q.Push(t).Band(level)[0] == q.Band(level)[0])
  {
  }

  /** After an enqueue, a pick for CPU 0 takes that thread or one CPU 0 had. */
  lemma PickStaysHome(s: Scheduler, t: Thread)
    requires Valid(s) && s.RoundRobin?
    ensures var next := PickNext(Enqueue(s, t), 0).0;
      next == Some(t) || exists level :: s.cpus[0].Band(level) != [] && next == Some(s.cpus[0].Band(level)[0])
  {
    EnqueueThenPick(s, t);
    var cpus' := Enqueue(s, t).cpus;
    assert cpus'[0] == s.cpus[0] || cpus'[0] == s.cpus[0].Push(t);
    var top := PickSource(cpus', 0).value.level;
    HeadOf(s.cpus[0], cpus'[0], t, top);
    assert PickNext(Enqueue(s, t), 0).0 == Some(cpus'[0].Band(top)[0]);
  }

  lemma HeadOf(q: CpuRunQueue, q': CpuRunQueue, t: Thread, level: Level)
    requires (q' == q || q' == q.Push(t)) && q'.Band(level) != []
    ensures q'.Band(level)[0] == t || (q.Band(level) != [] && q'.Band(level)[0] == q.Band(level)[0])
  {
    if q' == q.Push(t) {
      PushHead(q, t, level);
    }
  }

  lemma RotateStaysHome(k: Kernel, v: nat, level: Level, i: nat)
    requires Inv(k) && k.sched.RoundRobin? && 0 < v < |k.sched.cpus| && i < |k.sched.cpus[v].Band(level)|
    requires k.current.Some? && k.current != Some(k.sched.cpus[v].Band(level)[i])
    ensures Rotate(k).current != Some(k.sched.cpus[v].Band(level)[i])
  {
    var next := PickNext(Enqueue(k.sched, k.current.value), 0).0;
    PickStaysHome(k.sched, k.current.value);
    assert Rotate(k).current == next;
    if next == Some(k.sched.cpus[v].Band(level)[i]) {
      var top :| k.sched.cpus[0].Band(top) != [] && next == Some(k.sched.cpus[0].Band(top)[0]);
      OnePosition(k, v, level, i, 0, top, 0);
    }
  }

  /**
   A thread waiting on another CPU is what an operation dispatches if and only if the operation is a finish or
   a start that dispatches at all, CPU 0 is empty, its CPU is the first with anything to steal, and it heads
   the band that is stolen from.
   */
  lemma DispatchedIff(k: Kernel, op: Op, v: nat, level: Level, i: nat)
    requires Inv(k) && k.sched.RoundRobin? && 0 < v < |k.sched.cpus| && i < |k.sched.cpus[v].Band(level)|
    ensures Step(k, op).current == Some(k.sched.cpus[v].Band(level)[i]) <==>
      && Vacates(k, op)
      && k.sched.cpus[0].Length() == 0 && Victim(k.sched.cpus, 0, 1) == Some(v)
      && k.sched.cpus[v].StealBand() == Some(level) && i == 0
  {
    var t := k.sched.cpus[v].Band(level)[i];
    BandIsQueued(k.sched.cpus[v], level, i);
    QueuedIsWaiting(k.sched.cpus, v, t);
    QueuedIsReady(k, t);
    StolenIff(k, v, level, i);
    CurrentAfter(k, op);
    if k.current.Some? {
      RotateStaysHome(k, v, level, i);
    }
  }

  lemma CurrentAfter(k: Kernel, op: Op)
    requires k.sched.RoundRobin? && k.sched.cpus != []
    ensures Vacates(k, op) ==> Step(k, op).current == PickNext(k.sched, 0).0
    ensures !Vacates(k, op) ==>
      || Step(k, op).current == k.current
      || (k.current.Some? && Step(k, op).current == Rotate(k).current)
  {
  }

  // ---------------------------------------------------------------------------------------------
  // A concrete run
  // ---------------------------------------------------------------------------------------------

  /** Two threads of one priority, placed on CPU 0 and CPU 1, and the first one started. */
  lemma TwoStarted(priority: Byte) returns (ops: seq<Op>)
    ensures var k := Run(New(NewRoundRobin(2)), ops);
      && Inv(k) && k.initialized && k.current == Some(Thread(1, priority))
      && k.sched.RoundRobin? && k.sched.cpus == [EMPTY_CPU, EMPTY_CPU.Push(Thread(2, priority))]
  {
    var k0 := New(NewRoundRobin(2));
    ops := [DoInit] + [DoSpawn(priority, true)] + [DoSpawn(priority, true)] + [DoStart];
    RunSnoc(k0, [], DoInit);
    assert [] + [DoInit] == [DoInit];
    RunSnoc(k0, [DoInit], DoSpawn(priority, true));
    RunSnoc(k0, [DoInit] + [DoSpawn(priority, true)], DoSpawn(priority, true));
    RunSnoc(k0, [DoInit] + [DoSpawn(priority, true)] + [DoSpawn(priority, true)], DoStart);
    PlaceTwo(k0.sched, Thread(1, priority), Thread(2, priority));
    NewKeeps(NewRoundRobin(2), 2);
    RunKeeps(k0, ops);
  }

  lemma PlaceTwo(s: Scheduler, t: Thread, u: Thread)
    requires s == NewRoundRobin(2)
    ensures var s2 := Enqueue(Enqueue(s, t), u); var (next, s3) := PickNext(s2, 0);
      next == Some(t) && s3.RoundRobin? && s3.cpus == [EMPTY_CPU, EMPTY_CPU.Push(u)]
  {
    assert s.cpus == [EMPTY_CPU, EMPTY_CPU];
    assert LeastLoaded([EMPTY_CPU, EMPTY_CPU], 2) == 0;
    assert Enqueue(s, t).cpus == [EMPTY_CPU.Push(t), EMPTY_CPU];
    assert LeastLoaded([EMPTY_CPU.Push(t), EMPTY_CPU], 2) == 1;
    assert Enqueue(Enqueue(s, t), u).cpus == [EMPTY_CPU.Push(t), EMPTY_CPU.Push(u)];
    PushThenPop(EMPTY_CPU, t);
    assert [EMPTY_CPU.Push(t), EMPTY_CPU.Push(u)][0 := EMPTY_CPU] == [EMPTY_CPU, EMPTY_CPU.Push(u)];
  }

  /** The other thread of two High ones finishes. */
  lemma FinishStrands(k: Kernel, t: Thread)
    requires k.initialized && k.current.Some? && PriorityLevel(t.priority) == High
    requires k.sched.RoundRobin? && k.sched.cpus == [EMPTY_CPU, EMPTY_CPU.Push(t)]
    ensures var k' := Step(k, DoFinish);
      k'.current == None && k'.sched.RoundRobin? && |k'.sched.cpus| == 2 && t in k'.sched.cpus[1].high
  {
    FinishLeavesIdleIff(k);
    StepGrows(k, DoFinish);
    assert k.sched.cpus[1].high == [t];
    assert k.sched.cpus[1].high <= Step(k, DoFinish).sched.cpus[1].high;
    assert t == Step(k, DoFinish).sched.cpus[1].high[0];
  }

  /** A High thread on CPU 1: the CPU goes idle when the other one finishes, and no operations ever run it. */
  lemma HighThreadIsStranded() returns (ops: seq<Op>)
    ensures var k := Run(New(NewRoundRobin(2)), ops); var t := Thread(2, 255);
      && k.current == None
      && forall more: seq<Op> :: InState(Run(k, more).threads, t, Ready) && Run(k, more).current != Some(t)
  {
    var k0, t := New(NewRoundRobin(2)), Thread(2, 255);
    var started := TwoStarted(255);
    FinishStrands(Run(k0, started), t);
    StepKeeps(Run(k0, started), DoFinish);
    ops := started + [DoFinish];
    RunSnoc(k0, started, DoFinish);
    var k := Run(k0, ops);
    forall more: seq<Op> ensures InState(Run(k, more).threads, t, Ready) && Run(k, more).current != Some(t) {
      NeverRuns(k, more, 1, t);
    }
  }

  /**
   A Normal thread on CPU 1, which could be stolen: it never runs as long as the other one only yields or is
   preempted.
   */
  lemma NormalThreadStarves() returns (ops: seq<Op>)
    ensures var k := Run(New(NewRoundRobin(2)), ops);
      && k.sched.RoundRobin? && |k.sched.cpus| == 2 && Stealable(k.sched.cpus[1]) &&
        InState(k.threads, Thread(2, 100), Ready)
      && forall more: seq<Op> | forall i | 0 <= i < |more| :: KeepsGoing(more[i]) :: Run(k, more) == k
  {
    ops := TwoStarted(100);
    var k, t := Run(New(NewRoundRobin(2)), ops), Thread(2, 100);
    assert k.sched.cpus[1].normal == [t];
    BandIsQueued(k.sched.cpus[1], Normal, 0);
    QueuedIsWaiting(k.sched.cpus, 1, t);
    QueuedIsReady(k, t);
    forall more: seq<Op> | forall i | 0 <= i < |more| :: KeepsGoing(more[i]) ensures Run(k, more) == k {
      OnlyCurrentRuns(k, more);
    }
  }
}
