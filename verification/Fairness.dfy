/**
 Round-robin fairness on one CPU (src/sched/rr.rs with the switches of src/kernel.rs): a waiting
 thread runs after exactly as many switches as there are threads in front of it, plus one.
 */
module Fairness {
  import opened Options
  import opened Numbers
  import opened Scheduler
  import opened Kernel

  /** Whether an operation hands the CPU over. */
  predicate IsSwitch(op: Op) { op.DoYield? || op.DoFinish? || op == DoPreempt(true) }

  function Switches(ops: seq<Op>): nat {
    if ops == [] then 0
    else Switches(ops[..|ops| - 1]) + if IsSwitch(ops[|ops| - 1]) then 1 else 0
  }

  predicate AtMost(level: Level, band: Level) { Rank(level) <= Rank(band) }

  /** Nothing spawned in the run belongs above the band. */
  ghost predicate NoArrivalAbove(ops: seq<Op>, band: Level) {
    forall i | 0 <= i < |ops| && ops[i].DoSpawn? :: AtMost(PriorityLevel(ops[i].priority), band)
  }

  /** One CPU is running some thread, and nothing above the band is running or ready. */
  ghost predicate Quiet(k: Kernel, band: Level) {
    && k.initialized
    && k.current.Some? && AtMost(PriorityLevel(k.current.value.priority), band)
    && k.sched.RoundRobin? && |k.sched.cpus| == 1
    && CpuOk(k.sched.cpus[0])
    && NothingAbove(k.sched.cpus[0], band)
  }

  /** `t` is i-th in line in the band. */
  ghost predicate InLine(k: Kernel, band: Level, t: Thread, i: nat) {
    && Quiet(k, band)
    && var line := k.sched.cpus[0].Band(band);
       i < |line| && line[i] == t
  }

  /** Bands below kept all their threads, in order. */
  ghost predicate LowerKept(q: CpuRunQueue, q': CpuRunQueue, band: Level) {
    && (Rank(Normal) < Rank(band) ==> q.normal <= q'.normal)
    && (Rank(Low) < Rank(band) ==> q.low <= q'.low)
    && (Rank(Idle) < Rank(band) ==> q.idle <= q'.idle)
  }

  lemma PushOrder(q: CpuRunQueue, band: Level, u: Thread)
    requires NothingAbove(q, band) && AtMost(PriorityLevel(u.priority), band)
    ensures var q' := q.Push(u);
      NothingAbove(q', band) && q.Band(band) <= q'.Band(band) && LowerKept(q, q', band)
  {
  }

  lemma PopOrder(q: CpuRunQueue, band: Level)
    requires NothingAbove(q, band) && q.Band(band) != []
    ensures q.TopBand() == Some(band)
    ensures var q' := q.Pop(band);
      NothingAbove(q', band) && q'.Band(band) == q.Band(band)[1..] && LowerKept(q, q', band)
  {
  }

  lemma PushInLine(q: CpuRunQueue, band: Level, u: Thread)
    requires CpuOk(q) && NothingAbove(q, band) && AtMost(PriorityLevel(u.priority), band)
    ensures var q' := q.Push(u);
      CpuOk(q') && NothingAbove(q', band) && q.Band(band) <= q'.Band(band) && LowerKept(q, q', band)
  {
    PushKeepsCpu(q, u);
    PushOrder(q, band, u);
  }

  lemma PopInLine(q: CpuRunQueue, band: Level)
    requires CpuOk(q) && NothingAbove(q, band) && q.Band(band) != []
    ensures q.TopBand() == Some(band) && PriorityLevel(q.Band(band)[0].priority) == band
    ensures var q' := q.Pop(band);
      CpuOk(q') && NothingAbove(q', band) && q'.Band(band) == q.Band(band)[1..] && LowerKept(q, q', band)
  {
    PopKeepsCpu(q, band);
    PopOrder(q, band);
  }

  /** A switch on a quiet CPU takes the head of the band. */
  lemma DispatchInLine(k: Kernel, band: Level)
    requires k.sched.RoundRobin? && |k.sched.cpus| == 1
    requires CpuOk(k.sched.cpus[0]) && NothingAbove(k.sched.cpus[0], band) && k.sched.cpus[0].Band(band) != []
    ensures var k' := Dispatch(k); var line := k.sched.cpus[0].Band(band);
      && k'.current == Some(line[0])
      && k'.sched.RoundRobin? && k'.sched.cpus == [k.sched.cpus[0].Pop(band)]
      && k'.initialized == k.initialized
  {
    PopInLine(k.sched.cpus[0], band);
  }

  lemma EnqueueInLine(s: Scheduler, u: Thread)
    requires s.RoundRobin? && |s.cpus| == 1
    ensures Enqueue(s, u).cpus == [s.cpus[0].Push(u)]
  {
  }

  lemma LowerKeptTransitive(a: CpuRunQueue, b: CpuRunQueue, c: CpuRunQueue, band: Level)
    requires LowerKept(a, b, band) && LowerKept(b, c, band)
    ensures LowerKept(a, c, band)
  {
  }

  /** What one operation may do to the line: a switch moves it up by one, and runs `t` when `t` was first. */
  ghost predicate Advanced(q: CpuRunQueue, k': Kernel, band: Level, t: Thread, i: nat, switched: bool) {
    && Quiet(k', band) && LowerKept(q, k'.sched.cpus[0], band)
    && (if !switched then InLine(k', band, t, i)
        else if i == 0 then k'.current == Some(t)
        else InLine(k', band, t, i - 1))
  }

  lemma SwitchInLine(q: CpuRunQueue, q1: CpuRunQueue, k1: Kernel, band: Level, t: Thread, i: nat)
    requires NothingAbove(q1, band) && CpuOk(q1) && q.Band(band) <= q1.Band(band) && LowerKept(q, q1, band)
    requires i < |q.Band(band)| && q.Band(band)[i] == t
    requires k1.initialized && k1.sched.RoundRobin? && k1.sched.cpus == [q1]
    ensures Advanced(q, Dispatch(k1), band, t, i, true)
  {
    DispatchInLine(k1, band);
    PopInLine(q1, band);
    LowerKeptTransitive(q, q1, q1.Pop(band), band);
  }

  lemma FinishInLine(k: Kernel, band: Level, t: Thread, i: nat)
    requires InLine(k, band, t, i)
    ensures Advanced(k.sched.cpus[0], FinishAndYield(k), band, t, i, true)
  {
    var q := k.sched.cpus[0];
    SwitchInLine(q, q, SetState(k, k.current.value, Finished), band, t, i);
  }

  lemma RotateInLine(k: Kernel, band: Level, t: Thread, i: nat)
    requires InLine(k, band, t, i)
    ensures Advanced(k.sched.cpus[0], Rotate(k), band, t, i, true)
  {
    var q, u := k.sched.cpus[0], k.current.value;
    PushInLine(q, band, u);
    EnqueueInLine(k.sched, u);
    SwitchInLine(q, q.Push(u), SetState(k.(sched := Enqueue(k.sched, u)), u, Ready), band, t, i);
  }

  lemma SpawnInLine(k: Kernel, priority: Byte, stackAvailable: bool, band: Level, t: Thread, i: nat)
    requires InLine(k, band, t, i) && AtMost(PriorityLevel(priority), band)
    ensures Advanced(k.sched.cpus[0], Spawn(k, priority, stackAvailable).1, band, t, i, false)
  {
    if stackAvailable {
      var v := Thread(k.nextThreadId, priority);
      PushInLine(k.sched.cpus[0], band, v);
      EnqueueInLine(k.sched, v);
    }
  }

  /** With a thread running, an operation is a rotation, a finish, a spawn, or nothing. */
  lemma StepKinds(k: Kernel, op: Op)
    requires k.initialized && k.current.Some? && HasCpu(k.sched)
    ensures Step(k, op) ==
      if op.DoFinish? then FinishAndYield(k)
      else if IsSwitch(op) then Rotate(k)
      else if op.DoSpawn? then Spawn(k, op.priority, op.stackAvailable).1
      else k
  {
  }

  lemma StepInLine(k: Kernel, op: Op, band: Level, t: Thread, i: nat)
    requires InLine(k, band, t, i)
    requires op.DoSpawn? ==> AtMost(PriorityLevel(op.priority), band)
    ensures Advanced(k.sched.cpus[0], Step(k, op), band, t, i, IsSwitch(op))
  {
    StepKinds(k, op);
    if op.DoFinish? {
      FinishInLine(k, band, t, i);
    } else if IsSwitch(op) {
      RotateInLine(k, band, t, i);
    } else if op.DoSpawn? {
      SpawnInLine(k, op.priority, op.stackAvailable, band, t, i);
    }
  }

  lemma FirstInLineIsNext(k: Kernel, band: Level, t: Thread)
    requires InLine(k, band, t, 0)
    ensures forall op | IsSwitch(op) :: Step(k, op).current == Some(t)
  {
    forall op | IsSwitch(op) ensures Step(k, op).current == Some(t) {
      StepInLine(k, op, band, t, 0);
    }
  }

  /** Where the line stands after some operations. */
  ghost predicate Moved(q: CpuRunQueue, k': Kernel, band: Level, t: Thread, i: nat) {
    InLine(k', band, t, i) && LowerKept(q, k'.sched.cpus[0], band)
  }

  lemma MovesOn(q: CpuRunQueue, k1: Kernel, op: Op, band: Level, t: Thread, i: nat)
    requires Moved(q, k1, band, t, i) && (IsSwitch(op) ==> i > 0)
    requires op.DoSpawn? ==> AtMost(PriorityLevel(op.priority), band)
    ensures Moved(q, Step(k1, op), band, t, if IsSwitch(op) then i - 1 else i)
  {
    StepInLine(k1, op, band, t, i);
    LowerKeptTransitive(q, k1.sched.cpus[0], Step(k1, op).sched.cpus[0], band);
  }

  /** Each switch moves the line up by one place. */
  lemma {:induction false} MovesUp(k: Kernel, ops: seq<Op>, band: Level, t: Thread, i: nat)
    requires InLine(k, band, t, i) && NoArrivalAbove(ops, band) && Switches(ops) <= i
    ensures Moved(k.sched.cpus[0], Run(k, ops), band, t, i - Switches(ops))
  {
    if ops != [] {
      var before, op := ops[..|ops| - 1], ops[|ops| - 1];
      MovesUp(k, before, band, t, i);
      MovesOn(k.sched.cpus[0], Run(k, before), op, band, t, i - Switches(before));
    }
  }

  /**
   On one CPU, if `t` is i-th in line in its band and nothing above the band is ready, running or
   arriving, then after any operations with at most i switches it has moved up by that many places, and
   the next switch after i of them runs it. Bands below lose no thread and keep their order meanwhile.
   */
  lemma {:induction false} RunsAtItsTurn(k: Kernel, ops: seq<Op>, band: Level, t: Thread, i: nat)
    requires InLine(k, band, t, i) && NoArrivalAbove(ops, band)
    requires Switches(ops) <= i
    ensures Moved(k.sched.cpus[0], Run(k, ops), band, t, i - Switches(ops))
    ensures Switches(ops) == i ==> forall op | IsSwitch(op) :: Step(Run(k, ops), op).current == Some(t)
  {
    MovesUp(k, ops, band, t, i);
    if Switches(ops) == i {
      FirstInLineIsNext(Run(k, ops), band, t);
    }
  }

  lemma WaitsInLine(q: CpuRunQueue, k: Kernel, band: Level, t: Thread, i: nat)
    requires Inv(k) && Moved(q, k, band, t, i)
    ensures k.current != Some(t)
  {
    BandIsQueued(k.sched.cpus[0], band, i);
    QueuedIsWaiting(k.sched.cpus, 0, t);
    QueuedIsReady(k, t);
  }

  lemma {:induction false} SwitchesGrow(ops: seq<Op>, j: nat)
    requires j <= |ops|
    ensures Switches(ops[..j]) <= Switches(ops)
    decreases |ops|
  {
    if j < |ops| {
      var before := ops[..|ops| - 1];
      SwitchesGrow(before, j);
      assert before[..j] == ops[..j];
    } else {
      assert ops[..j] == ops;
    }
  }

  lemma {:induction false} NotBeforeItsTurn(k: Kernel, ops: seq<Op>, band: Level, t: Thread, i: nat)
    requires InLine(k, band, t, i) && NoArrivalAbove(ops, band) && Switches(ops) <= i && Inv(Run(k, ops))
    ensures Run(k, ops).current != Some(t)
  {
    MovesUp(k, ops, band, t, i);
    WaitsInLine(k.sched.cpus[0], Run(k, ops), band, t, i - Switches(ops));
  }

  lemma NoneAboveBefore(ops: seq<Op>, band: Level, j: nat)
    requires NoArrivalAbove(ops, band) && j <= |ops|
    ensures NoArrivalAbove(ops[..j], band)
  {
    forall i | 0 <= i < j && ops[..j][i].DoSpawn? ensures AtMost(PriorityLevel(ops[..j][i].priority), band) {
      assert ops[..j][i] == ops[i];
    }
  }

  /**
   On one CPU, with nothing above its band ready, running or arriving, the thread that is i-th in line runs at
   exactly the (i+1)-th switch: that switch gives it the CPU, and at no point before it has it.
   */
  lemma {:induction false} RunsExactlyAtItsTurn(k: Kernel, ops: seq<Op>, op: Op, band: Level, t: Thread, i: nat)
    requires Inv(k) && InLine(k, band, t, i) && NoArrivalAbove(ops, band)
    requires Switches(ops) == i && IsSwitch(op)
    ensures Step(Run(k, ops), op).current == Some(t)
    ensures forall j | 0 <= j <= |ops| :: Run(k, ops[..j]).current != Some(t)
  {
    RunsAtItsTurn(k, ops, band, t, i);
    forall j | 0 <= j <= |ops| ensures Run(k, ops[..j]).current != Some(t) {
      SwitchesGrow(ops, j);
      NoneAboveBefore(ops, band, j);
      RunKeeps(k, ops[..j]);
      NotBeforeItsTurn(k, ops[..j], band, t, i);
    }
  }
}
