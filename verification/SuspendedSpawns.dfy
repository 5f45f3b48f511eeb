/**
 Spawns that are interrupted half way. `spawn` takes no lock and runs with interrupts on, so its enqueue
 (src/sched/rr.rs) is a sequence of separate accesses: the loads of `select_cpu`, the push, and two counter
 increments. A timer interrupt may suspend the spawning thread between any two of them, and the spawned
 thread may run, and finish, before it is counted. Everything else the kernel does with the queues is done
 with interrupts masked, and so in one step.

 In this module every thread that leaves the CPU is resumed where it left. Module SpawnContexts follows the
 contexts through which that happens, says when it does, and states the results for the runs in which it does.

 Counters are kept as integers; a load sees them modulo 2^64.
 */
module SuspendedSpawns {
  import opened Options
  import opened Numbers
  import opened Scheduler
  import K = Kernel

  /** Where a thread stands in the enqueue of its `spawn`. */
  datatype SpawnPc =
    | Scan(thread: Thread, cpu: nat, best: nat, min: int)   // `select_cpu`, about to load the count of `cpu`
    | Chosen(thread: Thread, cpu: nat)                      // about to push
    | Pushed(cpu: nat)                                      // about to count it on its CPU
    | Counted                                               // about to count it as runnable
  {
    predicate Unpushed() { Scan? || Chosen? }
  }

  /** How a thread last left the CPU. */
  datatype Left = ByTimer | ByCall

  datatype State = State(
    exec: nat,                    // who has the CPU; 0 is the boot code
    current: Option<Thread>,
    cpus: seq<CpuRunQueue>,
    runnable: int,
    spawns: map<nat, SpawnPc>,    // the spawns under way, by spawning thread
    irqOn: bool,
    left: map<nat, Left>,
    nextId: nat,
    threads: map<nat, Byte>,      // every thread ever made, with its priority
    finished: set<Thread>)

  datatype Action = BeginSpawn(priority: Byte) | Advance | SetMask(on: bool) | Yield | Finish | Start | Timer

  /** Every thread has a stack of at least 4096 bytes, so a 64-bit address space has room for fewer than this. */
  const MAX_THREADS := 0x10_0000_0000_0000

  /** A counter as a load sees it: modulo 2^64, in the range that all counters stay in (see CountersLag). */
  function Usize(x: int): int { if x < 0 then x + WORD_LIMIT else x }

  function Init(numCpus: nat): State {
    State(0, None, seq(numCpus, _ => EMPTY_CPU), 0, map[], false, map[], 1, map[], {})
  }

  // ---- the atomic operations ----

  /** The queues as loads of their counters see them. */
  function Seen(cpus: seq<CpuRunQueue>): (seen: seq<CpuRunQueue>)
    ensures |seen| == |cpus|
  {
    seq(|cpus|, i requires 0 <= i < |cpus| => cpus[i].(threadCount := Usize(cpus[i].threadCount)))
  }

  function Select(cpus: seq<CpuRunQueue>): (c: nat)
    requires cpus != []
    ensures c < |cpus|
    ensures forall j | 0 <= j < |cpus| :: Usize(cpus[c].threadCount) <= Usize(cpus[j].threadCount)
    ensures c != 0 ==> Usize(cpus[c].threadCount) < Usize(cpus[0].threadCount)
  {
    var seen := Seen(cpus);
    var c := LeastLoaded(seen, |cpus|);
    assert IsLeastLoaded(seen, |cpus|, c);
    assert forall j | 0 <= j < |cpus| :: seen[j].threadCount == Usize(cpus[j].threadCount);
    assert forall j | 0 <= j < |cpus| :: seen[c].threadCount <= seen[j].threadCount;
    assert c != 0 ==> seen[c].threadCount < seen[0].threadCount;
    c
  }

  /** `stop_running` and `enqueue` of the current thread, under the guard. */
  function Requeue(s: State): State
    requires s.current.Some? && s.cpus != []
  {
    var c := Select(s.cpus);
    s.(cpus := s.cpus[c := s.cpus[c].Push(s.current.value)], runnable := s.runnable + 1, current := None)
  }

  /**
   `pick_next(0)` and the switch. After a call, the mask is cleared only by a thread that had itself left by a
   call; an interrupt return unmasks any thread that has run before.
   */
  function Dispatch(s: State, call: bool): State {
    match PickSource(s.cpus, 0)
    case None => s.(current := None, irqOn := call || s.irqOn)
    case Some(src) =>
      var t := s.cpus[src.cpu].Band(src.level)[0];
      Take(s, src, t.id in s.left && (call ==> s.left[t.id] == ByCall))
  }

  function Take(s: State, src: Source, irqOn: bool): State
    requires src.cpu < |s.cpus| && s.cpus[src.cpu].Band(src.level) != []
  {
    var t := s.cpus[src.cpu].Band(src.level)[0];
    s.(cpus := s.cpus[src.cpu := s.cpus[src.cpu].Pop(src.level)], runnable := s.runnable - 1,
       current := Some(t), exec := t.id, irqOn := irqOn)
  }

  /** A switch that puts the current thread back first. */
  function Switch(s: State, call: bool): State
    requires s.current.Some? && s.cpus != []
  {
    Dispatch(Requeue(s).(left := s.left[s.exec := if call then ByCall else ByTimer]), call)
  }

  /** A switch by a call that puts nobody back. */
  function Leave(s: State): State { Dispatch(s.(left := s.left[s.exec := ByCall]), true) }

  // ---- the steps of a spawn ----

  function Step(s: State, pc: SpawnPc): State
    requires s.cpus != []
  {
    match pc
    case Scan(_, _, _, _) => At(s, Scanned(Counts(s.cpus), pc))
    case Chosen(t, cpu) =>
      if cpu >= |s.cpus| then s else At(s.(cpus := s.cpus[cpu := Place(s.cpus[cpu], t)]), Pushed(cpu))
    case Pushed(cpu) =>
      if cpu >= |s.cpus| then s
      else At(s.(cpus := CountOne(s.cpus, cpu)), Counted)
    case Counted => s.(runnable := s.runnable + 1, spawns := s.spawns - {s.exec})
  }

  function Counts(cpus: seq<CpuRunQueue>): (counts: seq<int>)
    ensures |counts| == |cpus|
  {
    seq(|cpus|, i requires 0 <= i < |cpus| => cpus[i].threadCount)
  }

  /** One turn of the loop of `select_cpu`: keep the lowest count seen so far, the first one if there are several. */
  function Scanned(counts: seq<int>, pc: SpawnPc): SpawnPc
    requires pc.Scan?
  {
    var Scan(t, cpu, best, min) := pc;
    if cpu >= |counts| then Chosen(t, best)
    else if cpu == 0 || Usize(counts[cpu]) < min then Scan(t, cpu + 1, cpu, Usize(counts[cpu]))
    else Scan(t, cpu + 1, best, min)
  }

  function At(s: State, pc: SpawnPc): State { s.(spawns := s.spawns[s.exec := pc]) }

  /** A push that is not counted yet. */
  function Place(q: CpuRunQueue, t: Thread): CpuRunQueue { q.Push(t).(threadCount := q.threadCount) }

  /** The queues after one more thread is counted on `cpu`. */
  function CountOne(cpus: seq<CpuRunQueue>, cpu: nat): seq<CpuRunQueue>
    requires cpu < |cpus|
  {
    cpus[cpu := cpus[cpu].(threadCount := cpus[cpu].threadCount + 1)]
  }

  function Begin(s: State, priority: Byte): State {
    At(s, Scan(Thread(s.nextId, priority), 0, 0, 0)).(nextId := s.nextId + 1,
      threads := s.threads[s.nextId := priority])
  }

  /** Calls are made, and the mask is changed, outside a spawn; a timer interrupt comes wherever it is not masked. */
  function Next(s: State, a: Action): (s': State)
    requires s.cpus != []
    ensures |s'.cpus| == |s.cpus|
  {
    if a.Timer? then (if s.irqOn && s.current.Some? then Switch(s, false) else s)
    else if a.Advance? then (if s.exec in s.spawns then Step(s, s.spawns[s.exec]) else s)
    else if s.exec in s.spawns then s
    else
      match a
      case BeginSpawn(priority) => if s.nextId < MAX_THREADS then Begin(s, priority) else s
      case SetMask(on) => s.(irqOn := on)
      case Yield => if s.current.Some? then Switch(s, true) else s.(irqOn := true)
      case Finish =>
        if s.current.Some?
        then Leave(s.(current := None, finished := s.finished + {s.current.value}))
        else s.(irqOn := true)
      case Start => if s.current.None? then Leave(s) else s.(irqOn := true)
  }

  function Run(s: State, actions: seq<Action>): (s': State)
    requires s.cpus != []
    ensures |s'.cpus| == |s.cpus|
  {
    if actions == [] then s else Next(Run(s, actions[..|actions| - 1]), actions[|actions| - 1])
  }

  // ---------------------------------------------------------------------------------------------
  // Counting spawns
  // ---------------------------------------------------------------------------------------------

  ghost function Where(spawns: map<nat, SpawnPc>, f: SpawnPc -> bool): set<nat> {
    set p | p in spawns && f(spawns[p])
  }

  ghost function HowMany(spawns: map<nat, SpawnPc>, f: SpawnPc -> bool): nat { |Where(spawns, f)| }

  function PushedOn(c: nat): SpawnPc -> bool { (pc: SpawnPc) => pc == Pushed(c) }

  function Carrying(t: Thread): SpawnPc -> bool { (pc: SpawnPc) => pc.Unpushed() && pc.thread == t }

  const UNPUSHED: SpawnPc -> bool := (pc: SpawnPc) => pc.Unpushed()

  const OWING: SpawnPc -> bool := (pc: SpawnPc) => pc.Pushed? || pc.Counted?

  function One(b: bool): nat { if b then 1 else 0 }

  /** Spawns that have pushed their thread on CPU c and not counted it there. */
  ghost function Uncounted(spawns: map<nat, SpawnPc>, c: nat): nat { HowMany(spawns, PushedOn(c)) }

  lemma HowManyAt(spawns: map<nat, SpawnPc>, p: nat, pc: SpawnPc, f: SpawnPc -> bool)
    ensures HowMany(spawns[p := pc], f) + One(p in spawns && f(spawns[p])) == HowMany(spawns, f) + One(f(pc))
  {
    var rest := Where(spawns, f) - {p};
    assert Where(spawns, f) == if p in spawns && f(spawns[p]) then rest + {p} else rest;
    assert Where(spawns[p := pc], f) == if f(pc) then rest + {p} else rest;
  }

  lemma HowManyWithout(spawns: map<nat, SpawnPc>, p: nat, f: SpawnPc -> bool)
    ensures HowMany(spawns - {p}, f) + One(p in spawns && f(spawns[p])) == HowMany(spawns, f)
  {
    var rest := Where(spawns, f) - {p};
    assert Where(spawns, f) == if p in spawns && f(spawns[p]) then rest + {p} else rest;
    assert Where(spawns - {p}, f) == rest;
  }

  lemma SubsetCardinality(a: set<nat>, b: set<nat>)
    requires a <= b
    ensures |a| <= |b| && (|a| == |b| ==> a == b)
  {
    assert b == a + (b - a);
  }

  lemma {:induction false} BelowCardinality(a: set<nat>, n: nat)
    requires forall p <- a :: p < n
    ensures |a| <= n
  {
    if n > 0 {
      BelowCardinality(a - {n - 1}, n - 1);
      assert a <= (a - {n - 1}) + {n - 1};
      SubsetCardinality(a, (a - {n - 1}) + {n - 1});
    } else {
      assert a == {};
    }
  }

  // ---------------------------------------------------------------------------------------------
  // The books: counters lag behind queues by exactly the spawns under way, and no thread is lost
  // ---------------------------------------------------------------------------------------------

  ghost function Queued(cpus: seq<CpuRunQueue>): multiset<Thread> { Union(Bags(cpus)) }

  ghost predicate CountsOk(cpus: seq<CpuRunQueue>, spawns: map<nat, SpawnPc>) {
    forall c | 0 <= c < |cpus| :: cpus[c].threadCount + Uncounted(spawns, c) == cpus[c].Length()
  }

  /** Where a thread is: queued, current, still to be pushed, or finished. */
  ghost function Places(s: State, t: Thread): nat {
    Queued(s.cpus)[t] + One(s.current == Some(t)) + HowMany(s.spawns, Carrying(t)) + One(t in s.finished)
  }

  ghost predicate Conserved(s: State) {
    && (forall t :: Places(s, t) == One(t.id in s.threads && s.threads[t.id] == t.priority))
    && (forall id <- s.threads :: 0 < id < s.nextId)
  }

  ghost predicate Tallied(s: State) {
    && s.runnable + HowMany(s.spawns, OWING) == |Queued(s.cpus)|
    && |Queued(s.cpus)| + HowMany(s.spawns, UNPUSHED) + One(s.current.Some?) < s.nextId <= MAX_THREADS
    && s.exec < s.nextId
    && forall p <- s.spawns :: p < s.nextId
  }

  /** A thread that has not been pushed yet has not run. */
  ghost predicate Unborn(s: State) {
    forall p <- s.spawns :: s.spawns[p].Unpushed() ==>
      s.spawns[p].thread.id !in s.spawns && s.spawns[p].thread.id != s.exec && s.spawns[p].thread.id in s.threads
  }

  ghost predicate PcOk(pc: SpawnPc, n: nat) {
    match pc
    case Scan(_, cpu, best, min) => cpu <= n && best < n && (cpu > 0 ==> best < cpu && min <= MAX_THREADS)
    case Chosen(_, cpu) => cpu < n
    case Pushed(cpu) => cpu < n
    case Counted => true
  }

  ghost predicate Books(s: State) {
    && s.cpus != []
    && CountsOk(s.cpus, s.spawns)
    && Conserved(s)
    && Tallied(s)
    && Unborn(s)
    && (s.current.Some? ==> s.current.value.id == s.exec)
    && (forall p <- s.spawns :: PcOk(s.spawns[p], |s.cpus|))
  }

  lemma PlaceQueued(q: CpuRunQueue, t: Thread)
    ensures Place(q, t).Queued() == q.Queued() + multiset{t} && Place(q, t).Length() == q.Length() + 1
  {
    PushQueued(q, t);
  }

  /** Nothing changes place and nothing is made. */
  ghost predicate SamePlaces(s: State, s': State) {
    s'.threads == s.threads && s'.nextId == s.nextId && forall u :: Places(s', u) == Places(s, u)
  }

  lemma RequeuePlaces(s: State)
    requires s.cpus != [] && s.current.Some?
    ensures SamePlaces(s, Requeue(s)) && |Queued(Requeue(s).cpus)| == |Queued(s.cpus)| + 1
  {
    var c, t, s' := Select(s.cpus), s.current.value, Requeue(s);
    PushQueued(s.cpus[c], t);
    ReadyChanges(s.cpus, c, s.cpus[c].Push(t), t);
    assert Queued(s'.cpus) == Queued(s.cpus) + multiset{t};
    forall u ensures Places(s', u) == Places(s, u) {
      assert Queued(s'.cpus)[u] == Queued(s.cpus)[u] + multiset{t}[u];
    }
  }

  lemma RequeueBooks(s: State)
    requires Books(s) && s.current.Some?
    ensures Books(Requeue(s))
  {
    RequeuePlaces(s);
  }

  lemma HeadIsQueued(cpus: seq<CpuRunQueue>, src: Source)
    requires src.cpu < |cpus| && cpus[src.cpu].Band(src.level) != []
    ensures var q := cpus[src.cpu]; var t := q.Band(src.level)[0];
      Queued(cpus[src.cpu := q.Pop(src.level)]) + multiset{t} == Queued(cpus)
  {
    var q := cpus[src.cpu];
    PopQueued(q, src.level);
    ReadyChanges(cpus, src.cpu, q.Pop(src.level), q.Band(src.level)[0]);
  }

  lemma TakePlaces(s: State, src: Source, irqOn: bool)
    requires s.current.None? && src.cpu < |s.cpus| && s.cpus[src.cpu].Band(src.level) != []
    ensures var s' := Take(s, src, irqOn);
      SamePlaces(s, s') && |Queued(s'.cpus)| == |Queued(s.cpus)| - 1 && Queued(s.cpus)[s'.current.value] > 0
  {
    var t, s' := s.cpus[src.cpu].Band(src.level)[0], Take(s, src, irqOn);
    HeadIsQueued(s.cpus, src);
    forall u ensures Places(s', u) == Places(s, u) {
      assert Queued(s.cpus)[u] == Queued(s'.cpus)[u] + multiset{t}[u];
    }
    SizeAfterRemoval(Queued(s'.cpus), Queued(s.cpus), t);
    assert Queued(s.cpus)[t] == Queued(s'.cpus)[t] + multiset{t}[t];
  }

  lemma TakeCounts(s: State, src: Source, irqOn: bool)
    requires src.cpu < |s.cpus| && s.cpus[src.cpu].Band(src.level) != [] && CountsOk(s.cpus, s.spawns)
    ensures CountsOk(Take(s, src, irqOn).cpus, s.spawns)
  {
    var q := s.cpus[src.cpu];
    assert q.Pop(src.level).Length() == q.Length() - 1;
  }

  lemma TakeUnborn(s: State, t: Thread)
    requires Conserved(s) && Unborn(s) && Queued(s.cpus)[t] > 0
    ensures Unborn(s.(exec := t.id)) && t.id in s.threads
  {
    assert Places(s, t) == One(t.id in s.threads && s.threads[t.id] == t.priority);
    forall p | p in s.spawns && s.spawns[p].Unpushed() ensures s.spawns[p].thread.id != t.id {
      CarriedOnce(s, p, t);
    }
  }

  lemma TakeBooks(s: State, src: Source, irqOn: bool)
    requires Books(s) && s.current.None? && src.cpu < |s.cpus| && s.cpus[src.cpu].Band(src.level) != []
    ensures Books(Take(s, src, irqOn))
  {
    TakePlaces(s, src, irqOn);
    TakeCounts(s, src, irqOn);
    TakeUnborn(s, s.cpus[src.cpu].Band(src.level)[0]);
  }

  /** A queued thread is not also on its way into a queue. */
  lemma CarriedOnce(s: State, p: nat, t: Thread)
    requires Conserved(s) && Unborn(s) && p in s.spawns && s.spawns[p].Unpushed() && Queued(s.cpus)[t] > 0
    ensures s.spawns[p].thread.id != t.id
  {
    var u := s.spawns[p].thread;
    assert p in Where(s.spawns, Carrying(u));
    assert Places(s, u) == One(u.id in s.threads && s.threads[u.id] == u.priority);
    assert Places(s, t) == One(t.id in s.threads && s.threads[t.id] == t.priority);
    assert u.id == t.id ==> u == t;
    assert u == t ==> Places(s, t) >= 2;
  }

  lemma FinishBooks(s: State)
    requires Books(s) && s.current.Some?
    ensures Books(s.(current := None, finished := s.finished + {s.current.value}))
  {
    var t := s.current.value;
    var s' := s.(current := None, finished := s.finished + {t});
    assert Places(s, t) == One(t.id in s.threads && s.threads[t.id] == t.priority);
    forall u ensures Places(s', u) == Places(s, u) {
    }
  }

  lemma BeginPlaces(s: State, priority: Byte)
    requires Conserved(s) && s.exec !in s.spawns && s.nextId > 0
    ensures Conserved(Begin(s, priority))
  {
    var t, s' := Thread(s.nextId, priority), Begin(s, priority);
    forall u ensures Places(s', u) == One(u.id in s'.threads && s'.threads[u.id] == u.priority) {
      HowManyAt(s.spawns, s.exec, Scan(t, 0, 0, 0), Carrying(u));
      assert Places(s, u) == One(u.id in s.threads && s.threads[u.id] == u.priority);
    }
  }

  lemma BeginUnborn(s: State, priority: Byte)
    requires Unborn(s) && Tallied(s) && Conserved(s) && s.exec !in s.spawns
    ensures Unborn(Begin(s, priority))
  {
    var s' := Begin(s, priority);
    forall p | p in s'.spawns && s'.spawns[p].Unpushed()
      ensures s'.spawns[p].thread.id !in s'.spawns && s'.spawns[p].thread.id != s.exec &&
        s'.spawns[p].thread.id in s'.threads
    {
      if p != s.exec {
        assert p in s.spawns && s.spawns[p].thread.id in s.threads;
      }
    }
  }

  lemma BeginBooks(s: State, priority: Byte)
    requires Books(s) && s.exec !in s.spawns && s.nextId < MAX_THREADS
    ensures Books(Begin(s, priority))
  {
    var s', pc := Begin(s, priority), Scan(Thread(s.nextId, priority), 0, 0, 0);
    BeginPlaces(s, priority);
    BeginUnborn(s, priority);
    forall c | 0 <= c < |s.cpus| ensures Uncounted(s'.spawns, c) == Uncounted(s.spawns, c) {
      HowManyAt(s.spawns, s.exec, pc, PushedOn(c));
    }
    HowManyAt(s.spawns, s.exec, pc, UNPUSHED);
    HowManyAt(s.spawns, s.exec, pc, OWING);
  }

  /** What a step of exec's spawn makes of the numbers of spawns at each point. */
  lemma UncountedMoves(s: State, pc: SpawnPc, c: nat)
    requires s.exec in s.spawns
    ensures Uncounted(s.spawns[s.exec := pc], c) + One(s.spawns[s.exec] == Pushed(c)) ==
      Uncounted(s.spawns, c) + One(pc == Pushed(c))
  {
    HowManyAt(s.spawns, s.exec, pc, PushedOn(c));
  }

  lemma CarryMoves(s: State, pc: SpawnPc, u: Thread)
    requires s.exec in s.spawns
    ensures var was := s.spawns[s.exec];
      HowMany(s.spawns[s.exec := pc], Carrying(u)) + One(was.Unpushed() && was.thread == u) ==
      HowMany(s.spawns, Carrying(u)) + One(pc.Unpushed() && pc.thread == u)
  {
    HowManyAt(s.spawns, s.exec, pc, Carrying(u));
  }

  lemma TallyMoves(s: State, pc: SpawnPc)
    requires s.exec in s.spawns
    ensures var was := s.spawns[s.exec]; var spawns' := s.spawns[s.exec := pc];
      && HowMany(spawns', UNPUSHED) + One(was.Unpushed()) == HowMany(s.spawns, UNPUSHED) + One(pc.Unpushed())
      && HowMany(spawns', OWING) + One(!was.Unpushed()) == HowMany(s.spawns, OWING) + One(!pc.Unpushed())
  {
    HowManyAt(s.spawns, s.exec, pc, UNPUSHED);
    HowManyAt(s.spawns, s.exec, pc, OWING);
  }

  lemma UnbornMoves(s: State, pc: SpawnPc)
    requires Unborn(s) && s.exec in s.spawns
    requires pc.Unpushed() ==> s.spawns[s.exec].Unpushed() && pc.thread == s.spawns[s.exec].thread
    ensures Unborn(At(s, pc))
  {
  }

  /** A step of a spawn that does not end it. */
  lemma MoveBooks(s: State, cpus': seq<CpuRunQueue>, pc: SpawnPc)
    requires Books(s) && s.exec in s.spawns && PcOk(pc, |s.cpus|)
    requires pc.Unpushed() ==> s.spawns[s.exec].Unpushed() && pc.thread == s.spawns[s.exec].thread
    requires |cpus'| == |s.cpus| && CountsOk(cpus', s.spawns[s.exec := pc]) && SamePlaces(s, At(s.(cpus := cpus'), pc))
    requires |Queued(cpus')| == |Queued(s.cpus)| + One(s.spawns[s.exec].Unpushed()) - One(pc.Unpushed())
    ensures Books(At(s.(cpus := cpus'), pc))
  {
    TallyMoves(s, pc);
    UnbornMoves(s, pc);
  }

  /** A step of `select_cpu`. */
  lemma ScanBooks(s: State, pc: SpawnPc)
    requires Books(s) && s.exec in s.spawns && s.spawns[s.exec].Unpushed() && pc.Unpushed()
    requires pc.thread == s.spawns[s.exec].thread && PcOk(pc, |s.cpus|)
    ensures Books(At(s, pc))
  {
    forall c | 0 <= c < |s.cpus| ensures Uncounted(s.spawns[s.exec := pc], c) == Uncounted(s.spawns, c) {
      UncountedMoves(s, pc, c);
    }
    forall u ensures Places(At(s, pc), u) == Places(s, u) {
      CarryMoves(s, pc, u);
    }
    MoveBooks(s, s.cpus, pc);
  }

  lemma PlaceGrows(cpus: seq<CpuRunQueue>, cpu: nat, t: Thread)
    requires cpu < |cpus|
    ensures Queued(cpus[cpu := Place(cpus[cpu], t)]) == Queued(cpus) + multiset{t}
  {
    PlaceQueued(cpus[cpu], t);
    ReadyChanges(cpus, cpu, Place(cpus[cpu], t), t);
  }

  lemma PushPlaces(s: State, t: Thread, cpu: nat)
    requires s.exec in s.spawns && s.spawns[s.exec] == Chosen(t, cpu) && cpu < |s.cpus|
    ensures var cpus' := s.cpus[cpu := Place(s.cpus[cpu], t)];
      SamePlaces(s, At(s.(cpus := cpus'), Pushed(cpu))) && |Queued(cpus')| == |Queued(s.cpus)| + 1
  {
    var cpus' := s.cpus[cpu := Place(s.cpus[cpu], t)];
    PlaceGrows(s.cpus, cpu, t);
    forall u ensures Places(At(s.(cpus := cpus'), Pushed(cpu)), u) == Places(s, u) {
      CarryMoves(s, Pushed(cpu), u);
      assert Queued(cpus')[u] == Queued(s.cpus)[u] + multiset{t}[u];
    }
  }

  lemma PushCounts(s: State, t: Thread, cpu: nat)
    requires s.exec in s.spawns && s.spawns[s.exec] == Chosen(t, cpu) && cpu < |s.cpus| && CountsOk(s.cpus, s.spawns)
    ensures CountsOk(s.cpus[cpu := Place(s.cpus[cpu], t)], s.spawns[s.exec := Pushed(cpu)])
  {
    PlaceQueued(s.cpus[cpu], t);
    var cpus' := s.cpus[cpu := Place(s.cpus[cpu], t)];
    forall c | 0 <= c < |cpus'| ensures cpus'[c].threadCount + Uncounted(s.spawns[s.exec := Pushed(cpu)], c) ==
      cpus'[c].Length() {
      UncountedMoves(s, Pushed(cpu), c);
    }
  }

  lemma PushBooks(s: State, t: Thread, cpu: nat)
    requires Books(s) && s.exec in s.spawns && s.spawns[s.exec] == Chosen(t, cpu)
    ensures Books(Step(s, Chosen(t, cpu)))
  {
    PushPlaces(s, t, cpu);
    PushCounts(s, t, cpu);
    MoveBooks(s, s.cpus[cpu := Place(s.cpus[cpu], t)], Pushed(cpu));
  }

  lemma CountCounts(s: State, cpu: nat)
    requires s.exec in s.spawns && s.spawns[s.exec] == Pushed(cpu) && cpu < |s.cpus| && CountsOk(s.cpus, s.spawns)
    ensures CountsOk(CountOne(s.cpus, cpu), s.spawns[s.exec := Counted])
  {
    var cpus' := CountOne(s.cpus, cpu);
    forall c | 0 <= c < |cpus'| ensures cpus'[c].threadCount + Uncounted(s.spawns[s.exec := Counted], c) ==
      cpus'[c].Length() {
      UncountedMoves(s, Counted, c);
    }
  }

  lemma CountPlaces(s: State, cpu: nat)
    requires s.exec in s.spawns && s.spawns[s.exec] == Pushed(cpu) && cpu < |s.cpus|
    ensures var cpus' := CountOne(s.cpus, cpu);
      SamePlaces(s, At(s.(cpus := cpus'), Counted)) && Queued(cpus') == Queued(s.cpus)
  {
    var cpus' := CountOne(s.cpus, cpu);
    assert Bags(cpus') == Bags(s.cpus);
    forall u ensures Places(At(s.(cpus := cpus'), Counted), u) == Places(s, u) {
      CarryMoves(s, Counted, u);
    }
  }

  lemma CountBooks(s: State, cpu: nat)
    requires Books(s) && s.exec in s.spawns && s.spawns[s.exec] == Pushed(cpu)
    ensures Books(Step(s, Pushed(cpu)))
  {
    CountCounts(s, cpu);
    CountPlaces(s, cpu);
    MoveBooks(s, CountOne(s.cpus, cpu), Counted);
  }

  lemma DoneBooks(s: State)
    requires Books(s) && s.exec in s.spawns && s.spawns[s.exec] == Counted
    ensures Books(Step(s, Counted))
  {
    var s' := Step(s, Counted);
    forall c | 0 <= c < |s.cpus| ensures Uncounted(s'.spawns, c) == Uncounted(s.spawns, c) {
      HowManyWithout(s.spawns, s.exec, PushedOn(c));
    }
    HowManyWithout(s.spawns, s.exec, UNPUSHED);
    HowManyWithout(s.spawns, s.exec, OWING);
    forall u ensures Places(s', u) == Places(s, u) {
      HowManyWithout(s.spawns, s.exec, Carrying(u));
    }
  }

  // ---------------------------------------------------------------------------------------------
  // The balance: why CPU 0 never runs dry under a switch
  // ---------------------------------------------------------------------------------------------

  ghost function IdsOf(band: seq<Thread>): set<nat> { set i | 0 <= i < |band| :: band[i].id }

  ghost function Ids(q: CpuRunQueue): set<nat> { IdsOf(q.high) + IdsOf(q.normal) + IdsOf(q.low) + IdsOf(q.idle) }

  /** What the balance depends on: the counters, CPU 0's queue, and who is where in a spawn. */
  datatype View = View(
    counts: seq<int>,
    ids0: set<nat>,    // the threads queued on CPU 0
    len0: nat,         // how many they are
    exec: nat,
    spawns: map<nat, SpawnPc>,
    irqOn: bool,
    left: map<nat, Left>)

  ghost predicate Bounded(counts: seq<int>) {
    |counts| > 0 && forall c | 0 <= c < |counts| :: -MAX_THREADS <= counts[c] <= MAX_THREADS
  }

  /** No counter, as a load sees it, is below x. */
  ghost predicate Lowest(counts: seq<int>, x: int) { forall c | 0 <= c < |counts| :: x <= Usize(counts[c]) }

  /** The CPU a spawn is going to use, as far as it knows. */
  function Aim(pc: SpawnPc): Option<nat> {
    match pc
    case Scan(_, cpu, best, _) => if cpu == 0 then None else Some(best)
    case Chosen(_, cpu) => Some(cpu)
    case Pushed(cpu) => Some(cpu)
    case Counted => None
  }

  /** A spawn that aims at CPU 0 while it has the CPU has reason to: no counter is lower. */
  ghost predicate AimOk(counts: seq<int>, pc: SpawnPc)
    requires |counts| > 0
  {
    Aim(pc) == Some(0) ==>
      || Lowest(counts, counts[0])
      || (pc.Scan? && pc.min == counts[0] && forall c | 0 <= c < pc.cpu && c < |counts| ::
        counts[0] <= Usize(counts[c]))
  }

  /** A suspended spawn was suspended by the timer; if CPU 0 owes it a count, its thread waits on CPU 0. */
  ghost predicate Parked(v: View) {
    forall p <- v.spawns :: p != v.exec ==>
      && p in v.left && v.left[p] == ByTimer
      && (v.spawns[p] == Pushed(0) ==> p in v.ids0)
  }

  /**
   While another counter is below zero, nobody who is going to raise it waits on CPU 0, or is running with
   interrupts on or with anyone waiting on CPU 0.
   */
  ghost predicate Aside(v: View) {
    forall c | 0 < c < |v.counts| && v.counts[c] < 0 ::
      forall p <- v.spawns :: Aim(v.spawns[p]) == Some(c) ==>
        if p == v.exec then !v.irqOn && v.len0 == 0 else p !in v.ids0
  }

  ghost predicate Balanced(v: View) {
    && Bounded(v.counts)
    && v.counts[0] + Uncounted(v.spawns, 0) == v.len0 && |v.ids0| <= v.len0
    && (forall p <- v.spawns :: PcOk(v.spawns[p], |v.counts|))
    && Parked(v)
    && Lowest(v.counts, v.counts[0] - 1)
    && (v.exec in v.spawns ==> AimOk(v.counts, v.spawns[v.exec]))
    && (v.irqOn ==> v.counts[0] >= 0)
    && Aside(v)
  }

  /** CPU 0's counter can only be below zero, and by one, while the running thread owes it a count. */
  lemma Floor(v: View)
    requires Balanced(v)
    ensures v.counts[0] >= if v.exec in v.spawns && v.spawns[v.exec] == Pushed(0) then -1 else 0
  {
    var owed := Where(v.spawns, PushedOn(0));
    assert owed - {v.exec} <= v.ids0;
    SubsetCardinality(owed - {v.exec}, v.ids0);
    assert v.exec in owed ==> |owed - {v.exec}| == |owed| - 1;
    assert v.exec !in owed ==> owed - {v.exec} == owed;
  }

  lemma UsizeWraps(x: int)
    requires -MAX_THREADS <= x <= MAX_THREADS
    ensures Usize(x) == x % WORD_LIMIT
  {
  }

  // ---- steps of the running thread's spawn ----

  lemma ScanAimOk(counts: seq<int>, pc: SpawnPc)
    requires Bounded(counts) && counts[0] >= 0 && pc.Scan? && PcOk(pc, |counts|) && AimOk(counts, pc)
    ensures PcOk(Scanned(counts, pc), |counts|) && AimOk(counts, Scanned(counts, pc))
    ensures Aim(Scanned(counts, pc)).Some? &&
      (Aim(Scanned(counts, pc)) == Aim(pc) || counts[Aim(Scanned(counts, pc)).value] >= 0)
  {
  }

  lemma ScanOn(v: View, pc: SpawnPc)
    requires Balanced(v) && v.exec in v.spawns && v.spawns[v.exec] == pc && pc.Scan?
    ensures Balanced(v.(spawns := v.spawns[v.exec := Scanned(v.counts, pc)])) && PcOk(Scanned(v.counts, pc), |v.counts|)
  {
    Floor(v);
    ScanAimOk(v.counts, pc);
    HowManyAt(v.spawns, v.exec, Scanned(v.counts, pc), PushedOn(0));
  }

  lemma PushHome(v: View, t: Thread)
    requires Balanced(v) && v.exec in v.spawns && v.spawns[v.exec] == Chosen(t, 0) && t.id !in v.spawns
    ensures Balanced(v.(spawns := v.spawns[v.exec := Pushed(0)], ids0 := v.ids0 + {t.id}, len0 := v.len0 + 1))
  {
    HowManyAt(v.spawns, v.exec, Pushed(0), PushedOn(0));
  }

  lemma PushAway(v: View, t: Thread, cpu: nat)
    requires Balanced(v) && v.exec in v.spawns && v.spawns[v.exec] == Chosen(t, cpu) && cpu != 0
    ensures Balanced(v.(spawns := v.spawns[v.exec := Pushed(cpu)]))
  {
    HowManyAt(v.spawns, v.exec, Pushed(cpu), PushedOn(0));
  }

  lemma CountOn(v: View, cpu: nat)
    requires Balanced(v) && v.exec in v.spawns && v.spawns[v.exec] == Pushed(cpu)
    requires Bounded(v.counts[cpu := v.counts[cpu] + 1])
    ensures Balanced(v.(spawns := v.spawns[v.exec := Counted], counts := v.counts[cpu := v.counts[cpu] + 1]))
  {
    Floor(v);
    var counts' := v.counts[cpu := v.counts[cpu] + 1];
    HowManyAt(v.spawns, v.exec, Counted, PushedOn(0));
    forall c | 0 <= c < |counts'| ensures counts'[0] - 1 <= Usize(counts'[c]) {
    }
  }

  lemma DoneOn(v: View)
    requires Balanced(v) && v.exec in v.spawns && v.spawns[v.exec] == Counted
    ensures Balanced(v.(spawns := v.spawns - {v.exec}))
  {
    HowManyWithout(v.spawns, v.exec, PushedOn(0));
  }

  lemma MaskOn(v: View, irqOn: bool)
    requires Balanced(v) && v.exec !in v.spawns
    ensures Balanced(v.(irqOn := irqOn))
  {
    Floor(v);
  }

  lemma LeftOn(v: View, how: Left)
    requires Balanced(v) && v.exec !in v.spawns
    ensures Balanced(v.(left := v.left[v.exec := how]))
  {
  }

  lemma BeginOn(v: View, t: Thread)
    requires Balanced(v) && v.exec !in v.spawns
    ensures Balanced(v.(spawns := v.spawns[v.exec := Scan(t, 0, 0, 0)]))
  {
    HowManyAt(v.spawns, v.exec, Scan(t, 0, 0, 0), PushedOn(0));
  }

  // ---- switches ----

  /** CPU c is where an enqueue goes. */
  ghost predicate Selected(counts: seq<int>, c: nat) {
    c < |counts| && Lowest(counts, Usize(counts[c])) && (c != 0 ==> Usize(counts[c]) < Usize(counts[0]))
  }

  /** The running thread can be requeued: interrupts are on, or it is not in a spawn. */
  predicate CanRequeue(v: View) { v.irqOn || v.exec !in v.spawns }

  /** After the running thread has been requeued, CPU 0 has a thread. */
  lemma HomeHasThread(v: View, c: nat)
    requires Balanced(v) && CanRequeue(v) && Selected(v.counts, c)
    ensures v.counts[0] >= 0 && v.counts[c] >= 0
    ensures c != 0 ==> v.counts[0] >= 1 && v.len0 >= 1 && (v.exec in v.spawns ==> v.spawns[v.exec] != Pushed(0))
  {
    Floor(v);
  }

  /** The counters after a thread is added on CPU c and one taken on CPU 0. */
  function Rotated(counts: seq<int>, c: nat): seq<int>
    requires c < |counts|
  {
    if c == 0 then counts else counts[c := counts[c] + 1][0 := counts[0] - 1]
  }

  lemma RotatedLow(v: View, c: nat)
    requires Balanced(v) && CanRequeue(v) && Selected(v.counts, c) && Bounded(Rotated(v.counts, c))
    ensures var counts' := Rotated(v.counts, c); counts'[0] >= 0 && Lowest(counts', counts'[0])
  {
    HomeHasThread(v, c);
    var counts' := Rotated(v.counts, c);
    forall d | 0 <= d < |counts'| ensures counts'[0] <= Usize(counts'[d]) {
    }
  }

  /** The running thread is put back on CPU c, and a thread is taken from CPU 0. */
  ghost predicate Rotates(v: View, c: nat, v': View) {
    && c < |v.counts| && (c == 0 || v.len0 > 0)
    && v'.counts == Rotated(v.counts, c) && v'.len0 == (if c == 0 then v.len0 else v.len0 - 1) && v'.spawns == v.spawns
    && (v'.left == v.left[v.exec := ByTimer] || (v'.left == v.left[v.exec := ByCall] && v.exec !in v.spawns))
    && var queued := if c == 0 then v.ids0 + {v.exec} else v.ids0;
       v'.exec in queued && v'.ids0 <= queued <= v'.ids0 + {v'.exec} && |v'.ids0| <= v'.len0
  }

  lemma RotateBalanced(v: View, c: nat, v': View)
    requires Balanced(v) && CanRequeue(v) && Selected(v.counts, c) && Rotates(v, c, v') && Bounded(v'.counts)
    ensures Balanced(v')
  {
    HomeHasThread(v, c);
    RotatedLow(v, c);
    assert Aside(v') by {
      forall d, p | 0 < d < |v'.counts| && v'.counts[d] < 0 && p in v.spawns && Aim(v.spawns[p]) == Some(d)
        ensures p != v'.exec && p !in v'.ids0
      {
        assert v.counts[d] < 0;
      }
    }
  }

  /** A thread is taken from CPU 0 and nobody is put back. */
  ghost predicate TookHome(v: View, v': View) {
    && v.len0 > 0 && |v.counts| > 0
    && v' == View(v.counts[0 := v.counts[0] - 1], v'.ids0, v.len0 - 1, v'.exec, v.spawns, v'.irqOn,
      v.left[v.exec := ByCall])
    && v'.exec in v.ids0 && v'.ids0 <= v.ids0 <= v'.ids0 + {v'.exec} && |v'.ids0| <= v'.len0
  }

  lemma LeaveHome(v: View, v': View)
    requires Balanced(v) && v.exec !in v.spawns && TookHome(v, v') && Bounded(v'.counts)
    requires v'.exec in v.spawns ==> !v'.irqOn
    ensures Balanced(v')
  {
    Floor(v);
    assert Lowest(v'.counts, v'.counts[0]);
    var owed := Where(v.spawns, PushedOn(0));
    assert owed <= v.ids0;
    SubsetCardinality(owed, v.ids0);
    assert v.counts[0] == 0 ==> v'.exec in owed;
  }

  lemma LeaveStealing(v: View, c: nat, next: nat, irqOn: bool, how: Left)
    requires Balanced(v) && v.exec !in v.spawns && v.len0 == 0 && 0 < c < |v.counts| &&
      Bounded(v.counts[c := v.counts[c] - 1])
    requires next in v.spawns ==> !irqOn
    ensures Balanced(View(v.counts[c := v.counts[c] - 1], {}, 0, next, v.spawns, irqOn, v.left[v.exec := how]))
  {
    Floor(v);
    assert v.ids0 == {};
    var counts' := v.counts[c := v.counts[c] - 1];
    assert counts'[0] == 0;
    assert Lowest(counts', 0);
  }

  // ---------------------------------------------------------------------------------------------
  // What every step keeps
  // ---------------------------------------------------------------------------------------------

  ghost function ViewOf(s: State): View
    requires s.cpus != []
  {
    View(Counts(s.cpus), Ids(s.cpus[0]), s.cpus[0].Length(), s.exec, s.spawns, s.irqOn, s.left)
  }

  ghost predicate Inv(s: State) { Books(s) && Balanced(ViewOf(s)) }

  lemma {:induction false} IdsOfSize(band: seq<Thread>)
    ensures |IdsOf(band)| <= |band|
  {
    if band != [] {
      var n := |band| - 1;
      IdsOfSize(band[..n]);
      assert IdsOf(band) == IdsOf(band[..n]) + {band[n].id};
    }
  }

  lemma IdsSize(q: CpuRunQueue)
    ensures |Ids(q)| <= q.Length()
  {
    IdsOfSize(q.high);
    IdsOfSize(q.normal);
    IdsOfSize(q.low);
    IdsOfSize(q.idle);
  }

  lemma IdsPush(q: CpuRunQueue, t: Thread)
    ensures Ids(q.Push(t)) == Ids(q) + {t.id} && Ids(Place(q, t)) == Ids(q) + {t.id}
  {
    var level := PriorityLevel(t.priority);
    assert IdsOf(q.Band(level) + [t]) == IdsOf(q.Band(level)) + {t.id} by {
      assert (q.Band(level) + [t])[|q.Band(level)|] == t;
      forall i | 0 <= i < |q.Band(level)| ensures (q.Band(level) + [t])[i] == q.Band(level)[i] {
      }
    }
  }

  lemma IdsPop(q: CpuRunQueue, level: Level)
    requires q.Band(level) != []
    ensures var id := q.Band(level)[0].id; id in Ids(q) && Ids(q.Pop(level)) <= Ids(q) <= Ids(q.Pop(level)) + {id}
    ensures q.Pop(level).Length() == q.Length() - 1 && |Ids(q.Pop(level))| <= q.Length() - 1
  {
    var band := q.Band(level);
    assert IdsOf(band) == IdsOf(band[1..]) + {band[0].id} by {
      forall i | 0 < i < |band| ensures band[i] == band[1..][i - 1] {
      }
    }
    IdsSize(q.Pop(level));
  }

  lemma {:induction false} UnionSize(bags: seq<multiset<Thread>>, c: nat)
    requires c < |bags|
    ensures |bags[c]| <= |Union(bags)|
  {
    if c < |bags| - 1 {
      UnionSize(bags[..|bags| - 1], c);
    }
  }

  lemma BooksBound(s: State)
    requires Books(s)
    ensures Bounded(Counts(s.cpus))
  {
    forall c | 0 <= c < |s.cpus| ensures -MAX_THREADS <= s.cpus[c].threadCount <= MAX_THREADS {
      UnionSize(Bags(s.cpus), c);
      BelowCardinality(Where(s.spawns, PushedOn(c)), s.nextId);
    }
  }

  // ---- switches ----

  lemma SelectSelects(cpus: seq<CpuRunQueue>)
    requires cpus != []
    ensures Selected(Counts(cpus), Select(cpus))
  {
  }

  lemma HomePick(cpus: seq<CpuRunQueue>)
    requires cpus != [] && cpus[0].Length() > 0
    ensures cpus[0].TopBand().Some? && PickSource(cpus, 0) == Some(Source(0, cpus[0].TopBand().value))
  {
  }

  /** After any enqueue of the current thread CPU 0 has a thread of its own. */
  lemma RequeueFindsHome(s: State)
    requires s.cpus != [] && Balanced(ViewOf(s)) && s.current.Some? && CanRequeue(ViewOf(s))
    ensures Requeue(s).cpus[0].Length() > 0
  {
    SelectSelects(s.cpus);
    HomeHasThread(ViewOf(s), Select(s.cpus));
  }

  /** CPU 0's queue after a switch. */
  lemma HomeAfter(q: CpuRunQueue, q1: CpuRunQueue, t: Thread, level: Level, here: bool)
    requires q1 == (if here then q.Push(t) else q) && q1.Band(level) != []
    ensures var next := q1.Band(level)[0].id; var queued := if here then Ids(q) + {t.id} else Ids(q);
      && next in queued && Ids(q1.Pop(level)) <= queued <= Ids(q1.Pop(level)) + {next}
      && q1.Pop(level).Length() == (if here then q.Length() else q.Length() - 1)
      && |Ids(q1.Pop(level))| <= q1.Pop(level).Length()
  {
    IdsPush(q, t);
    IdsPop(q1, level);
  }

  lemma SwitchBooks(s: State, call: bool)
    requires Books(s) && s.current.Some?
    ensures Books(Switch(s, call))
  {
    RequeueBooks(s);
    LeftBooks(Requeue(s), s.exec, if call then ByCall else ByTimer);
    DispatchBooks(Requeue(s).(left := s.left[s.exec := if call then ByCall else ByTimer]), call);
  }

  /** How a thread left, and the mask, are not in the books. */
  lemma LeftBooks(s: State, p: nat, how: Left)
    requires Books(s)
    ensures Books(s.(left := s.left[p := how]))
  {
    assert SamePlaces(s, s.(left := s.left[p := how]));
  }

  lemma MaskBooks(s: State, irqOn: bool)
    requires Books(s)
    ensures Books(s.(irqOn := irqOn))
  {
    assert SamePlaces(s, s.(irqOn := irqOn));
  }

  lemma DispatchBooks(s: State, call: bool)
    requires Books(s) && s.current.None?
    ensures Books(Dispatch(s, call))
  {
    match PickSource(s.cpus, 0)
    case None => MaskBooks(s, call || s.irqOn);
    case Some(src) =>
      var t := s.cpus[src.cpu].Band(src.level)[0];
      TakeBooks(s, src, t.id in s.left && (call ==> s.left[t.id] == ByCall));
  }

  lemma SwitchCounts(cpus: seq<CpuRunQueue>, c: nat, t: Thread, level: Level)
    requires c < |cpus| && cpus[c := cpus[c].Push(t)][0].Band(level) != []
    ensures var cpus1 := cpus[c := cpus[c].Push(t)];
      Counts(cpus1[0 := cpus1[0].Pop(level)]) == Rotated(Counts(cpus), c)
  {
  }

  lemma SwitchTakes(s: State, call: bool)
    requires s.cpus != [] && s.current.Some? && Requeue(s).cpus[0].Length() > 0
    ensures var s', q := Switch(s, call), Requeue(s).cpus[0];
      && q.TopBand().Some? && q.Band(q.TopBand().value) != []
      && s' == s.(cpus := Requeue(s).cpus[0 := q.Pop(q.TopBand().value)], current := Some(q.Band(q.TopBand().value)[0]),
                  exec := q.Band(q.TopBand().value)[0].id, irqOn := s'.irqOn,
                    left := s.left[s.exec := if call then ByCall else ByTimer])
  {
    HomePick(Requeue(s).cpus);
  }

  /** What a switch makes of the balance's view. */
  lemma SwitchView(s: State, call: bool)
    requires s.cpus != [] && s.current.Some? && s.current.value.id == s.exec && (call ==> s.exec !in s.spawns)
    requires Requeue(s).cpus[0].Length() > 0 && (Select(s.cpus) != 0 ==> s.cpus[0].Length() > 0)
    ensures Switch(s, call).current.Some? && Rotates(ViewOf(s), Select(s.cpus), ViewOf(Switch(s, call)))
  {
    var s', c := Switch(s, call), Select(s.cpus);
    SwitchTakes(s, call);
    var level := Requeue(s).cpus[0].TopBand().value;
    SwitchCounts(s.cpus, c, s.current.value, level);
    HomeAfter(s.cpus[0], Requeue(s).cpus[0], s.current.value, level, c == 0);
    assert s'.left == s.left[s.exec := if call then ByCall else ByTimer];
  }

  lemma SwitchBalanced(s: State, call: bool)
    requires s.cpus != [] && Balanced(ViewOf(s)) && s.current.Some? && s.current.value.id == s.exec
    requires CanRequeue(ViewOf(s)) && (call ==> s.exec !in s.spawns) && Bounded(Counts(Switch(s, call).cpus))
    ensures Balanced(ViewOf(Switch(s, call))) && Switch(s, call).current.Some?
  {
    RequeueFindsHome(s);
    SelectSelects(s.cpus);
    HomeHasThread(ViewOf(s), Select(s.cpus));
    SwitchView(s, call);
    RotateBalanced(ViewOf(s), Select(s.cpus), ViewOf(Switch(s, call)));
  }

  lemma SwitchInv(s: State, call: bool)
    requires Inv(s) && s.current.Some? && CanRequeue(ViewOf(s)) && (call ==> s.exec !in s.spawns)
    ensures Inv(Switch(s, call)) && Switch(s, call).current.Some?
  {
    SwitchBooks(s, call);
    BooksBound(Switch(s, call));
    SwitchBalanced(s, call);
  }

  lemma LeaveTakes(s: State, src: Source)
    requires PickSource(s.cpus, 0) == Some(src)
    ensures var s', q := Leave(s), s.cpus[src.cpu];
      s'.cpus == s.cpus[src.cpu := q.Pop(src.level)] && s'.exec == q.Band(src.level)[0].id
      && s'.spawns == s.spawns && s'.left == s.left[s.exec := ByCall]
  {
  }

  lemma LeaveHomeView(s: State, src: Source)
    requires s.cpus != [] && PickSource(s.cpus, 0) == Some(src) && src.cpu == 0
    ensures TookHome(ViewOf(s), ViewOf(Leave(s)))
  {
    LeaveTakes(s, src);
    IdsPop(s.cpus[0], src.level);
    assert Counts(Leave(s).cpus) == Counts(s.cpus)[0 := Counts(s.cpus)[0] - 1];
  }

  lemma LeaveHomeBalanced(s: State, src: Source)
    requires s.cpus != [] && Balanced(ViewOf(s)) && s.exec !in s.spawns
    requires PickSource(s.cpus, 0) == Some(src) && src.cpu == 0 && Bounded(Counts(Leave(s).cpus))
    ensures Balanced(ViewOf(Leave(s)))
  {
    SpawnerStaysMasked(s);
    LeaveHomeView(s, src);
    LeaveHome(ViewOf(s), ViewOf(Leave(s)));
  }

  lemma LeaveStealingView(s: State, src: Source)
    requires s.cpus != [] && PickSource(s.cpus, 0) == Some(src) && src.cpu != 0
    ensures var s', counts := Leave(s), Counts(s.cpus);
      && s.cpus[0].Length() == 0 && src.cpu < |s.cpus|
      && ViewOf(s') == View(counts[src.cpu := counts[src.cpu] - 1], {}, 0, s'.exec, s.spawns, s'.irqOn,
        s.left[s.exec := ByCall])
  {
    assert Ids(s.cpus[0]) == {};
    assert Counts(Leave(s).cpus) == Counts(s.cpus)[src.cpu := Counts(s.cpus)[src.cpu] - 1];
  }

  lemma LeaveStealingBalanced(s: State, src: Source)
    requires s.cpus != [] && Balanced(ViewOf(s)) && s.exec !in s.spawns
    requires PickSource(s.cpus, 0) == Some(src) && src.cpu != 0 && Bounded(Counts(Leave(s).cpus))
    ensures Balanced(ViewOf(Leave(s)))
  {
    var s' := Leave(s);
    LeaveStealingView(s, src);
    SpawnerStaysMasked(s);
    LeaveStealing(ViewOf(s), src.cpu, s'.exec, s'.irqOn, ByCall);
  }

  /** A thread that is resumed by a call in the middle of its spawn runs masked. */
  lemma SpawnerStaysMasked(s: State)
    requires s.cpus != [] && Parked(ViewOf(s)) && s.exec !in s.spawns && PickSource(s.cpus, 0).Some?
    ensures Leave(s).exec in s.spawns ==> !Leave(s).irqOn
  {
  }

  lemma LeaveNobodyBalanced(s: State)
    requires s.cpus != [] && Balanced(ViewOf(s)) && s.exec !in s.spawns && PickSource(s.cpus, 0).None?
    ensures Balanced(ViewOf(Leave(s)))
  {
    MaskOn(ViewOf(s), true);
    LeftOn(ViewOf(s).(irqOn := true), ByCall);
    assert ViewOf(Leave(s)) == ViewOf(s).(irqOn := true, left := s.left[s.exec := ByCall]);
  }

  lemma LeaveInv(s: State)
    requires Inv(s) && s.current.None? && s.exec !in s.spawns
    ensures Inv(Leave(s))
  {
    LeftBooks(s, s.exec, ByCall);
    DispatchBooks(s.(left := s.left[s.exec := ByCall]), true);
    BooksBound(Leave(s));
    var src := PickSource(s.cpus, 0);
    if src.None? {
      LeaveNobodyBalanced(s);
    } else if src.value.cpu == 0 {
      LeaveHomeBalanced(s, src.value);
    } else {
      LeaveStealingBalanced(s, src.value);
    }
  }

  // ---- spawns ----

  lemma ScanInv(s: State, pc: SpawnPc)
    requires Inv(s) && s.exec in s.spawns && s.spawns[s.exec] == pc && pc.Scan?
    ensures Inv(Step(s, pc))
  {
    var pc' := Scanned(Counts(s.cpus), pc);
    ScanOn(ViewOf(s), pc);
    ScanBooks(s, pc');
    assert ViewOf(At(s, pc')) == ViewOf(s).(spawns := s.spawns[s.exec := pc']);
  }

  lemma PushView(s: State, t: Thread, cpu: nat)
    requires cpu < |s.cpus|
    ensures var v := ViewOf(s).(spawns := s.spawns[s.exec := Pushed(cpu)]);
      ViewOf(Step(s, Chosen(t, cpu))) == if cpu == 0 then v.(ids0 := v.ids0 + {t.id}, len0 := v.len0 + 1) else v
  {
    var s' := Step(s, Chosen(t, cpu));
    IdsPush(s.cpus[cpu], t);
    PlaceQueued(s.cpus[cpu], t);
    assert Counts(s'.cpus) == Counts(s.cpus);
  }

  lemma PushBalanced(s: State, t: Thread, cpu: nat)
    requires s.cpus != [] && Balanced(ViewOf(s)) && s.exec in s.spawns && s.spawns[s.exec] == Chosen(t, cpu)
    requires cpu < |s.cpus| && t.id !in s.spawns
    ensures Balanced(ViewOf(Step(s, Chosen(t, cpu))))
  {
    PushView(s, t, cpu);
    if cpu == 0 {
      PushHome(ViewOf(s), t);
    } else {
      PushAway(ViewOf(s), t, cpu);
    }
  }

  lemma PushInv(s: State, t: Thread, cpu: nat)
    requires Inv(s) && s.exec in s.spawns && s.spawns[s.exec] == Chosen(t, cpu)
    ensures Inv(Step(s, Chosen(t, cpu)))
  {
    PushBooks(s, t, cpu);
    PushBalanced(s, t, cpu);
  }

  lemma CountView(s: State, cpu: nat)
    requires cpu < |s.cpus|
    ensures var counts := Counts(s.cpus);
      ViewOf(Step(s, Pushed(cpu))) ==
        ViewOf(s).(spawns := s.spawns[s.exec := Counted], counts := counts[cpu := counts[cpu] + 1])
      && Counts(CountOne(s.cpus, cpu)) == counts[cpu := counts[cpu] + 1]
  {
  }

  lemma CountBalanced(s: State, cpu: nat)
    requires s.cpus != [] && Balanced(ViewOf(s)) && s.exec in s.spawns && s.spawns[s.exec] == Pushed(cpu)
    requires cpu < |s.cpus| && Bounded(Counts(CountOne(s.cpus, cpu)))
    ensures Balanced(ViewOf(Step(s, Pushed(cpu))))
  {
    CountView(s, cpu);
    CountOn(ViewOf(s), cpu);
  }

  lemma CountInv(s: State, cpu: nat)
    requires Inv(s) && s.exec in s.spawns && s.spawns[s.exec] == Pushed(cpu)
    ensures Inv(Step(s, Pushed(cpu)))
  {
    CountBooks(s, cpu);
    BooksBound(Step(s, Pushed(cpu)));
    CountBalanced(s, cpu);
  }

  lemma DoneInv(s: State)
    requires Inv(s) && s.exec in s.spawns && s.spawns[s.exec] == Counted
    ensures Inv(Step(s, Counted))
  {
    DoneBooks(s);
    DoneOn(ViewOf(s));
  }

  lemma StepInv(s: State)
    requires Inv(s) && s.exec in s.spawns
    ensures Inv(Step(s, s.spawns[s.exec]))
  {
    match s.spawns[s.exec]
    case Scan(_, _, _, _) => ScanInv(s, s.spawns[s.exec]);
    case Chosen(t, cpu) => PushInv(s, t, cpu);
    case Pushed(cpu) => CountInv(s, cpu);
    case Counted => DoneInv(s);
  }

  /** Calls made outside a spawn. */
  lemma CallInv(s: State, a: Action)
    requires Inv(s) && s.exec !in s.spawns && !a.Timer? && !a.Advance?
    ensures Inv(Next(s, a))
  {
    match a
    case BeginSpawn(priority) =>
      if s.nextId < MAX_THREADS {
        BeginBooks(s, priority);
        BeginOn(ViewOf(s), Thread(s.nextId, priority));
      }
    case SetMask(on) => MaskInv(s, on);
    case Yield => if s.current.Some? { SwitchInv(s, true); } else { MaskInv(s, true); }
    case Finish =>
      if s.current.Some? {
        FinishBooks(s);
        var s1 := s.(current := None, finished := s.finished + {s.current.value});
        assert ViewOf(s1) == ViewOf(s);
        LeaveInv(s1);
      } else {
        MaskInv(s, true);
      }
    case Start => if s.current.None? { LeaveInv(s); } else { MaskInv(s, true); }
  }

  lemma MaskInv(s: State, on: bool)
    requires Inv(s) && s.exec !in s.spawns
    ensures Inv(s.(irqOn := on))
  {
    MaskBooks(s, on);
    MaskOn(ViewOf(s), on);
  }

  lemma NextInv(s: State, a: Action)
    requires Inv(s)
    ensures Inv(Next(s, a))
  {
    if a.Timer? {
      if s.irqOn && s.current.Some? {
        SwitchInv(s, false);
      }
    } else if s.exec in s.spawns {
      if a.Advance? {
        StepInv(s);
      }
    } else if !a.Advance? {
      CallInv(s, a);
    }
  }

  lemma InitInv(numCpus: nat)
    requires numCpus > 0
    ensures Inv(Init(numCpus))
  {
    var s := Init(numCpus);
    NewIsValid(numCpus);
    assert s.cpus == NewRoundRobin(numCpus).cpus;
    EmptyUnion(Bags(s.cpus));
    forall f: SpawnPc -> bool ensures HowMany(s.spawns, f) == 0 {
      assert Where(s.spawns, f) == {};
    }
    forall t ensures Places(s, t) == 0 {
    }
    assert Ids(EMPTY_CPU) == {};
  }

  lemma {:induction false} RunKeeps(numCpus: nat, actions: seq<Action>)
    requires numCpus > 0
    ensures Inv(Run(Init(numCpus), actions))
  {
    if actions == [] {
      InitInv(numCpus);
    } else {
      RunKeeps(numCpus, actions[..|actions| - 1]);
      NextInv(Run(Init(numCpus), actions[..|actions| - 1]), actions[|actions| - 1]);
    }
  }

  // ---------------------------------------------------------------------------------------------
  // Main results
  // ---------------------------------------------------------------------------------------------

  /** So a switch takes a thread of CPU 0, without stealing. */
  lemma PicksAtHome(s: State)
    requires s.cpus != [] && Balanced(ViewOf(s)) && s.current.Some? && CanRequeue(ViewOf(s))
    ensures PickSource(Requeue(s).cpus, 0).Some? && PickSource(Requeue(s).cpus, 0).value.cpu == 0
  {
    RequeueFindsHome(s);
    HomePick(Requeue(s).cpus);
  }

  /**
   Each counter lags behind its queues by exactly the spawns that have pushed and not counted yet, and a load of
   it sees its value modulo 2^64.
   */
  lemma {:induction false} CountersLag(numCpus: nat, actions: seq<Action>)
    requires numCpus > 0
    ensures var s := Run(Init(numCpus), actions);
      && (forall c | 0 <= c < numCpus ::
            && s.cpus[c].threadCount + Uncounted(s.spawns, c) == s.cpus[c].Length()
            && Usize(s.cpus[c].threadCount) == s.cpus[c].threadCount % WORD_LIMIT)
      && s.runnable + HowMany(s.spawns, OWING) == |Queued(s.cpus)|
  {
    RunKeeps(numCpus, actions);
    var s := Run(Init(numCpus), actions);
    BooksBound(s);
    forall c | 0 <= c < numCpus ensures Usize(s.cpus[c].threadCount) == s.cpus[c].threadCount % WORD_LIMIT {
      assert Counts(s.cpus)[c] == s.cpus[c].threadCount;
      UsizeWraps(s.cpus[c].threadCount);
    }
  }

  /** The state in which `a` calls `pick_next(0)`, if it does. */
  function BeforePick(s: State, a: Action): Option<State>
    requires s.cpus != []
  {
    if (a.Timer? && s.irqOn && s.current.Some?) || (a.Yield? && s.exec !in s.spawns && s.current.Some?) then
      Some(Requeue(s))
    else if s.exec !in s.spawns && ((a.Finish? && s.current.Some?) || (a.Start? && s.current.None?)) then Some(s)
    else None
  }

  /** The `fetch_sub` that goes with a pop of CPU c wraps its counter round. */
  ghost predicate PopWraps(cpus: seq<CpuRunQueue>, c: nat)
    requires c < |cpus|
  {
    Usize(cpus[c].threadCount - 1) != Usize(cpus[c].threadCount) - 1
  }

  /**
   When a pick pops a thread from CPU c, its `fetch_sub` wraps round exactly when as many spawns have pushed on
   that CPU and not counted as it has threads. It never does in a switch that requeues; and on CPU 0 the thread
   that is dispatched is then such a spawn itself, resumed with interrupts masked, whose next step puts it right.
   */
  lemma {:induction false} UnderflowIff(numCpus: nat, actions: seq<Action>, a: Action, src: Source)
    requires numCpus > 0
    requires var before := BeforePick(Run(Init(numCpus), actions), a);
      before.Some? && PickSource(before.value.cpus, 0) == Some(src)
    ensures var s := Run(Init(numCpus), actions); var before, s' := BeforePick(s, a).value, Next(s, a);
      && src.cpu < numCpus && s'.cpus[src.cpu].threadCount == before.cpus[src.cpu].threadCount - 1
      && (PopWraps(before.cpus, src.cpu) <==> before.cpus[src.cpu].Length() == Uncounted(s.spawns, src.cpu))
      && (PopWraps(before.cpus, src.cpu) ==> a.Finish? || a.Start?)
      && (PopWraps(before.cpus, src.cpu) && src.cpu == 0 ==>
            && s'.exec in s'.spawns && s'.spawns[s'.exec] == Pushed(0) && !s'.irqOn
            && Next(s', Advance).cpus[0].threadCount == 0)
  {
    RunKeeps(numCpus, actions);
    var s := Run(Init(numCpus), actions);
    PopCounts(s, a, src);
    if a.Timer? || a.Yield? {
      RequeueBooks(s);
      UnderflowAt(Requeue(s), src.cpu);
      SwitchNeverWraps(s, src);
    } else {
      UnderflowAt(s, src.cpu);
      if src.cpu == 0 && PopWraps(s.cpus, 0) {
        NextInv(s, a);
        FloorAt(Next(s, a));
      }
    }
  }

  lemma PopCounts(s: State, a: Action, src: Source)
    requires s.cpus != [] && BeforePick(s, a).Some? && PickSource(BeforePick(s, a).value.cpus, 0) == Some(src)
    ensures Next(s, a).cpus[src.cpu].threadCount == BeforePick(s, a).value.cpus[src.cpu].threadCount - 1
  {
  }

  lemma SwitchNeverWraps(s: State, src: Source)
    requires s.cpus != [] && Balanced(ViewOf(s)) && s.current.Some? && CanRequeue(ViewOf(s))
    requires PickSource(Requeue(s).cpus, 0) == Some(src)
    ensures src.cpu == 0 && !PopWraps(Requeue(s).cpus, 0)
  {
    PicksAtHome(s);
    SelectSelects(s.cpus);
    HomeHasThread(ViewOf(s), Select(s.cpus));
  }

  lemma UnderflowAt(s: State, c: nat)
    requires Books(s) && c < |s.cpus|
    ensures PopWraps(s.cpus, c) <==> s.cpus[c].Length() == Uncounted(s.spawns, c)
  {
    BooksBound(s);
    assert Counts(s.cpus)[c] == s.cpus[c].threadCount;
    Wraps(s.cpus[c].threadCount);
  }

  lemma Wraps(x: int)
    requires -MAX_THREADS <= x <= MAX_THREADS
    ensures Usize(x - 1) != Usize(x) - 1 <==> x == 0
  {
  }

  lemma FloorAt(s: State)
    requires s.cpus != [] && Balanced(ViewOf(s)) && s.cpus[0].threadCount < 0
    ensures s.cpus[0].threadCount == -1 && s.exec in s.spawns && s.spawns[s.exec] == Pushed(0) && !s.irqOn
    ensures Next(s, Advance).cpus[0].threadCount == 0
  {
    Floor(ViewOf(s));
  }

  /**
   Every thread ever made is in exactly one place (still on its way into a queue, queued, current or
   finished) at every point of every run, and nothing else is anywhere.
   */
  lemma {:induction false} EveryThreadInOnePlace(numCpus: nat, actions: seq<Action>, t: Thread)
    requires numCpus > 0
    ensures var s := Run(Init(numCpus), actions);
      Queued(s.cpus)[t] + One(s.current == Some(t)) + HowMany(s.spawns, Carrying(t)) + One(t in s.finished) ==
      One(t.id in s.threads && s.threads[t.id] == t.priority)
  {
    RunKeeps(numCpus, actions);
    var s := Run(Init(numCpus), actions);
    assert Places(s, t) == One(t.id in s.threads && s.threads[t.id] == t.priority);
  }

  // ---------------------------------------------------------------------------------------------
  // Left alone, this is the kernel
  // ---------------------------------------------------------------------------------------------

  /** The running thread takes k steps of its spawn. */
  function Advances(s: State, k: nat): (s': State)
    requires s.cpus != []
    ensures |s'.cpus| == |s.cpus|
  {
    if k == 0 then s else Next(Advances(s, k - 1), Advance)
  }

  /** Where `select_cpu` is after i loads that nothing came between: it has the least loaded of the first i CPUs. */
  function ScanAt(cpus: seq<CpuRunQueue>, t: Thread, i: nat): SpawnPc
    requires i <= |cpus|
  {
    if i == 0 then Scan(t, 0, 0, 0)
    else
      var best := LeastLoaded(Seen(cpus), i);
      Scan(t, i, best, Usize(cpus[best].threadCount))
  }

  lemma ScanAtNext(cpus: seq<CpuRunQueue>, t: Thread, i: nat)
    requires i < |cpus|
    ensures Scanned(Counts(cpus), ScanAt(cpus, t, i)) == ScanAt(cpus, t, i + 1)
  {
    assert Counts(cpus)[i] == cpus[i].threadCount;
    assert Seen(cpus)[i].threadCount == Usize(cpus[i].threadCount);
    if i > 0 {
      var best := LeastLoaded(Seen(cpus), i);
      assert Seen(cpus)[best].threadCount == Usize(cpus[best].threadCount);
    }
  }

  lemma AdvancesScan(s: State, pc: SpawnPc)
    requires s.cpus != [] && pc.Scan?
    ensures Next(At(s, pc), Advance) == At(s, Scanned(Counts(s.cpus), pc))
  {
    assert s.spawns[s.exec := pc][s.exec := Scanned(Counts(s.cpus), pc)] ==
      s.spawns[s.exec := Scanned(Counts(s.cpus), pc)];
  }

  lemma {:induction false} ScansAlone(s: State, t: Thread, j: nat)
    requires s.cpus != [] && j <= |s.cpus|
    ensures Advances(At(s, Scan(t, 0, 0, 0)), j) == At(s, ScanAt(s.cpus, t, j))
  {
    if j > 0 {
      ScansAlone(s, t, j - 1);
      ScanAtNext(s.cpus, t, j - 1);
      OneMoreScan(s, At(s, Scan(t, 0, 0, 0)), j - 1, ScanAt(s.cpus, t, j - 1), ScanAt(s.cpus, t, j));
    }
  }

  lemma OneMoreScan(s: State, b: State, k: nat, pc: SpawnPc, pc': SpawnPc)
    requires s.cpus != [] && b.cpus != [] && pc.Scan? && Advances(b, k) == At(s, pc) &&
      Scanned(Counts(s.cpus), pc) == pc'
    ensures Advances(b, k + 1) == At(s, pc')
  {
    AdvancesScan(s, pc);
  }

  lemma OneMore(b: State, k: nat, s: State, s': State)
    requires b.cpus != [] && Advances(b, k) == s && Next(s, Advance) == s'
    ensures Advances(b, k + 1) == s'
  {
  }

  /** The last three steps, from the choice of a CPU. */
  lemma AdvancesPush(s: State, t: Thread, c: nat)
    requires c < |s.cpus|
    ensures Next(At(s, Chosen(t, c)), Advance) == At(s.(cpus := s.cpus[c := Place(s.cpus[c], t)]), Pushed(c))
  {
    assert s.spawns[s.exec := Chosen(t, c)][s.exec := Pushed(c)] == s.spawns[s.exec := Pushed(c)];
  }

  lemma AdvancesCount(s: State, c: nat)
    requires c < |s.cpus| && s.exec !in s.spawns
    ensures var counted := s.(cpus := CountOne(s.cpus, c));
      && Next(At(s, Pushed(c)), Advance) == At(counted, Counted)
      && Next(At(counted, Counted), Advance) == counted.(runnable := s.runnable + 1)
  {
    assert s.spawns[s.exec := Pushed(c)][s.exec := Counted] == s.spawns[s.exec := Counted];
    assert s.spawns[s.exec := Counted] - {s.exec} == s.spawns;
  }

  /**
   A spawn left alone enqueues: after its loads, its push and its two counts, and no earlier, the thread is at the
   end of its band on the least loaded CPU, and both counters have gone up by one.
   */
  lemma {:induction false} SpawnAlone(s: State, priority: Byte)
    requires s.cpus != [] && s.exec !in s.spawns && s.nextId < MAX_THREADS
    ensures var t, c, n := Thread(s.nextId, priority), Select(s.cpus), |s.cpus|;
      && Advances(Next(s, BeginSpawn(priority)), n + 4) ==
         s.(cpus := s.cpus[c := s.cpus[c].Push(t)], runnable := s.runnable + 1, nextId := s.nextId + 1,
            threads := s.threads[s.nextId := priority])
      && s.exec in Advances(Next(s, BeginSpawn(priority)), n + 3).spawns
  {
    var t, c, n := Thread(s.nextId, priority), Select(s.cpus), |s.cpus|;
    var made := s.(nextId := s.nextId + 1, threads := s.threads[s.nextId := priority]);
    var b := At(made, Scan(t, 0, 0, 0));
    BeginsAt(s, priority);
    ScansAlone(made, t, n);
    ScanEnds(s.cpus, t);
    OneMoreScan(made, b, n, ScanAt(s.cpus, t, n), Chosen(t, c));
    FromChoice(made, b, n + 1, t, c);
  }

  lemma BeginsAt(s: State, priority: Byte)
    requires s.cpus != [] && s.exec !in s.spawns && s.nextId < MAX_THREADS
    ensures Next(s, BeginSpawn(priority)) ==
      At(s.(nextId := s.nextId + 1, threads := s.threads[s.nextId := priority]),
        Scan(Thread(s.nextId, priority), 0, 0, 0))
  {
  }

  lemma ScanEnds(cpus: seq<CpuRunQueue>, t: Thread)
    requires cpus != []
    ensures Scanned(Counts(cpus), ScanAt(cpus, t, |cpus|)) == Chosen(t, Select(cpus))
  {
  }

  lemma FromChoice(s: State, b: State, k: nat, t: Thread, c: nat)
    requires b.cpus != [] && c < |s.cpus| && s.exec !in s.spawns && Advances(b, k) == At(s, Chosen(t, c))
    ensures Advances(b, k + 3) == s.(cpus := s.cpus[c := s.cpus[c].Push(t)], runnable := s.runnable + 1)
    ensures s.exec in Advances(b, k + 2).spawns
  {
    AdvancesPush(s, t, c);
    var pushed := s.(cpus := s.cpus[c := Place(s.cpus[c], t)]);
    OneMore(b, k, At(s, Chosen(t, c)), At(pushed, Pushed(c)));
    AdvancesCount(pushed, c);
    var counted := s.(cpus := s.cpus[c := s.cpus[c].Push(t)]);
    assert CountOne(pushed.cpus, c) == counted.cpus;
    OneMore(b, k + 1, At(pushed, Pushed(c)), At(counted, Counted));
    OneMore(b, k + 2, At(counted, Counted), counted.(runnable := s.runnable + 1));
  }

  function Sched(s: State): Scheduler { RoundRobin(s.cpus, s.runnable) }

  /** The kernel of module Kernel in this state; `threads` is what it knows of thread states. */
  function AsKernel(s: State, threads: map<nat, K.Entry>): K.Kernel {
    K.Kernel(true, s.nextId, s.current, Sched(s), threads)
  }

  /** No counter has wrapped round. */
  predicate Unwrapped(cpus: seq<CpuRunQueue>) { forall c | 0 <= c < |cpus| :: cpus[c].threadCount >= 0 }

  lemma SelectIsLeastLoaded(cpus: seq<CpuRunQueue>)
    requires cpus != [] && Unwrapped(cpus)
    ensures Select(cpus) == LeastLoaded(cpus, |cpus|)
  {
    assert Seen(cpus) == cpus;
  }

  /** The operation of the kernel that a call or a timer interrupt is. */
  function OpOf(a: Action): Option<K.Op> {
    match a
    case Yield => Some(K.DoYield)
    case Finish => Some(K.DoFinish)
    case Start => Some(K.DoStart)
    case Timer => Some(K.DoPreempt(true))
    case _ => None
  }

  lemma DispatchIsKernel(s: State, call: bool, threads: map<nat, K.Entry>)
    requires s.cpus != []
    ensures var k' := K.Dispatch(AsKernel(s, threads));
      k'.sched == Sched(Dispatch(s, call)) && k'.current == Dispatch(s, call).current
  {
  }

  lemma SwitchIsKernel(s: State, call: bool, threads: map<nat, K.Entry>)
    requires s.cpus != [] && Unwrapped(s.cpus) && s.current.Some?
    ensures var k' := K.Rotate(AsKernel(s, threads));
      k'.sched == Sched(Switch(s, call)) && k'.current == Switch(s, call).current
  {
    var t := s.current.value;
    SelectIsLeastLoaded(s.cpus);
    assert Enqueue(Sched(s), t) == Sched(Requeue(s));
    var s1 := Requeue(s).(left := s.left[s.exec := if call then ByCall else ByTimer]);
    DispatchIsKernel(s1, call, threads[t.id := K.Entry(t.priority, K.Ready)]);
    PicksOnly(K.SetState(AsKernel(s, threads).(sched := Enqueue(Sched(s), t)), t, K.Ready),
              AsKernel(s1, threads[t.id := K.Entry(t.priority, K.Ready)]));
  }

  /** What a dispatch picks depends on the queues alone. */
  lemma PicksOnly(k: K.Kernel, k': K.Kernel)
    requires k.sched == k'.sched
    ensures K.Dispatch(k).sched == K.Dispatch(k').sched && K.Dispatch(k).current == K.Dispatch(k').current
  {
  }

  lemma LeaveIsKernel(s: State, s1: State, threads: map<nat, K.Entry>, k: K.Kernel)
    requires s.cpus != [] && s1.cpus == s.cpus && s1.runnable == s.runnable && k.sched == Sched(s)
    ensures K.Dispatch(k).sched == Sched(Leave(s1)) && K.Dispatch(k).current == Leave(s1).current
  {
    var s2 := s1.(left := s1.left[s1.exec := ByCall]);
    DispatchIsKernel(s2, true, threads);
    PicksOnly(k, AsKernel(s2, threads));
  }

  /**
   Calls made outside a spawn, and timer interrupts, do to the queues and to the current thread what the kernel
   model says, as long as no counter has wrapped round; and so does a spawn left alone.
   */
  lemma IsKernel(s: State, a: Action, threads: map<nat, K.Entry>)
    requires s.cpus != [] && Unwrapped(s.cpus) && OpOf(a).Some?
    requires if a.Timer? then s.irqOn else s.exec !in s.spawns
    ensures var k' := K.Step(AsKernel(s, threads), OpOf(a).value);
      k'.sched == Sched(Next(s, a)) && k'.current == Next(s, a).current
  {
    if s.current.Some? && (a.Timer? || a.Yield?) {
      SwitchIsKernel(s, a.Yield?, threads);
    } else if s.current.Some? && a.Finish? {
      var t := s.current.value;
      LeaveIsKernel(s, s.(current := None, finished := s.finished + {t}), threads,
                    K.SetState(AsKernel(s, threads), t, K.Finished));
    } else if s.current.None? && a.Start? {
      LeaveIsKernel(s, s, threads, AsKernel(s, threads));
    }
  }

  lemma SpawnAloneIsSpawn(s: State, priority: Byte, threads: map<nat, K.Entry>)
    requires s.cpus != [] && Unwrapped(s.cpus) && s.exec !in s.spawns && s.nextId < MAX_THREADS
    ensures var k' := K.Step(AsKernel(s, threads), K.DoSpawn(priority, true));
      var s' := Advances(Next(s, BeginSpawn(priority)), |s.cpus| + 4);
      k'.sched == Sched(s') && k'.current == s'.current && k'.nextThreadId == s'.nextId
  {
    SelectIsLeastLoaded(s.cpus);
    SpawnAlone(s, priority);
  }

  // A run on one CPU in which `thread_count` wraps round. The first thread pushes the second and is preempted
  // before it counts it; the second runs, and finishes, and the first is taken from a queue whose count is zero.

  lemma {:induction false} Then(s: State, actions: seq<Action>, a: Action) returns (more: seq<Action>)
    requires s.cpus != []
    ensures more == actions + [a] && Run(s, more) == Next(Run(s, actions), a)
  {
    more := actions + [a];
    assert more[..|actions|] == actions;
  }

  /** An uninterrupted spawn on one CPU, up to the push. */
  function PushedAlone(s: State, priority: Byte): State
    requires |s.cpus| == 1
  {
    Begin(s, priority).(cpus := [Place(s.cpus[0], Thread(s.nextId, priority))], spawns := s.spawns[s.exec := Pushed(0)])
  }

  lemma PushesAlone(s: State, priority: Byte)
    requires |s.cpus| == 1 && s.exec !in s.spawns && s.nextId < MAX_THREADS
    ensures Next(Next(Next(Next(s, BeginSpawn(priority)), Advance), Advance), Advance) == PushedAlone(s, priority)
  {
    var t := Thread(s.nextId, priority);
    var s1 := Next(s, BeginSpawn(priority));
    var s2 := Next(s1, Advance);
    assert s2 == s1.(spawns := s.spawns[s.exec := Scan(t, 1, 0, Usize(s.cpus[0].threadCount))]);
    var s3 := Next(s2, Advance);
    assert s3 == s1.(spawns := s.spawns[s.exec := Chosen(t, 0)]);
    assert s.cpus[0 := Place(s.cpus[0], t)] == [Place(s.cpus[0], t)];
  }

  lemma {:induction false} PushAlone(s: State, actions: seq<Action>, priority: Byte) returns (more: seq<Action>)
    requires |s.cpus| == 1
    requires var s1 := Run(s, actions); s1.exec !in s1.spawns && s1.nextId < MAX_THREADS
    ensures Run(s, more) == PushedAlone(Run(s, actions), priority)
  {
    PushesAlone(Run(s, actions), priority);
    more := Then(s, actions, BeginSpawn(priority));
    more := Then(s, more, Advance);
    more := Then(s, more, Advance);
    more := Then(s, more, Advance);
  }

  const FIRST := Thread(1, 100)
  const SECOND := Thread(2, 100)

  function NormalQueue(band: seq<Thread>, count: int): seq<CpuRunQueue> { [CpuRunQueue([], band, [], [], count)] }

  lemma FirstStarts() returns (actions: seq<Action>)
    ensures Run(Init(1), actions) ==
      State(1, Some(FIRST), NormalQueue([], 0), 0, map[], true, map[0 := ByCall], 2, map[1 := 100], {})
  {
    var s := Init(1);
    assert s.cpus == NormalQueue([], 0);
    actions := PushAlone(s, [], 100);
    actions := Then(s, actions, Advance);
    actions := Then(s, actions, Advance);
    assert Place(EMPTY_CPU, FIRST) == CpuRunQueue([], [FIRST], [], [], 0) by { assert [] + [FIRST] == [FIRST]; }
    assert Run(s, actions) == State(0, None, NormalQueue([FIRST], 1), 1, map[], false, map[], 2, map[1 := 100], {});
    actions := Then(s, actions, Start);
    assert [FIRST][1..] == [];
    actions := Then(s, actions, SetMask(true));
  }

  lemma SecondRuns() returns (actions: seq<Action>)
    ensures Run(Init(1), actions) ==
      State(2, Some(SECOND), NormalQueue([FIRST], 0), 0, map[1 := Pushed(0)], false, map[0 := ByCall, 1 := ByTimer], 3,
            map[1 := 100, 2 := 100], {})
  {
    var s := Init(1);
    actions := FirstStarts();
    actions := PushAlone(s, actions, 100);
    assert Place(EMPTY_CPU, SECOND) == CpuRunQueue([], [SECOND], [], [], 0) by { assert [] + [SECOND] == [SECOND]; }
    var s1 := Run(s, actions);
    assert s1 == State(1, Some(FIRST), NormalQueue([SECOND], 0), 0, map[1 := Pushed(0)], true, map[0 := ByCall], 3,
                       map[1 := 100, 2 := 100], {});
    assert Requeue(s1).cpus == NormalQueue([SECOND, FIRST], 1) by { assert [SECOND] + [FIRST] == [SECOND, FIRST]; }
    assert [SECOND, FIRST][1..] == [FIRST];
    actions := Then(s, actions, Timer);
  }

  lemma SecondFinishes(s: State)
    requires s.cpus == NormalQueue([FIRST], 0) && s.current.Some? && s.exec == 2 && 2 !in s.spawns
    ensures Next(s, Finish).cpus == NormalQueue([], -1) && Next(s, Finish).exec == 1
  {
    assert [FIRST][1..] == [];
  }

  lemma CountCanWrap() returns (actions: seq<Action>)
    ensures var s := Run(Init(1), actions);
      s.cpus[0].threadCount % WORD_LIMIT == WORD_LIMIT - 1 && s.cpus[0].Length() == 0 && s.exec == 1
  {
    actions := SecondRuns();
    SecondFinishes(Run(Init(1), actions));
    actions := Then(Init(1), actions, Finish);
  }
}
