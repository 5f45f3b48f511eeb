/**
 The two schedulers of src/sched/rr.rs with their queues as plain sequences (LinkedQueue and
 QueueMachine show that the linked queue is one): priority bands, least-loaded placement, circular
 work stealing and the thread counters.
 */
module Scheduler {
  import opened Options
  import opened Numbers

  datatype Level = Idle | Low | Normal | High

  datatype Thread = Thread(id: nat, priority: Byte)

  datatype CpuRunQueue = CpuRunQueue(
    high: seq<Thread>, normal: seq<Thread>, low: seq<Thread>, idle: seq<Thread>, threadCount: int)
  {
    function Band(level: Level): seq<Thread> {
      match level case High => high case Normal => normal case Low => low case Idle => idle
    }

    function WithBand(level: Level, band: seq<Thread>): CpuRunQueue {
      match level
      case High => this.(high := band)
      case Normal => this.(normal := band)
      case Low => this.(low := band)
      case Idle => this.(idle := band)
    }

    /** The threads of all four bands together. */
    function Length(): nat { |high| + |normal| + |low| + |idle| }

    ghost function Queued(): multiset<Thread> {
      multiset(high) + multiset(normal) + multiset(low) + multiset(idle)
    }

    /** The highest band that holds a thread. */
    function TopBand(): Option<Level> {
      if high != [] then Some(High) else if normal != [] then Some(Normal)
      else if low != [] then Some(Low) else if idle != [] then Some(Idle) else None
    }

    /** The band another CPU may steal from; High and Idle threads are never stolen. */
    function StealBand(): Option<Level> {
      if normal != [] then Some(Normal) else if low != [] then Some(Low) else None
    }

    function Push(t: Thread): CpuRunQueue {
      var level := PriorityLevel(t.priority);
      WithBand(level, Band(level) + [t]).(threadCount := threadCount + 1)
    }

    function Pop(level: Level): CpuRunQueue
      requires Band(level) != []
    {
      WithBand(level, Band(level)[1..]).(threadCount := threadCount - 1)
    }
  }

  datatype Scheduler =
    | RoundRobin(cpus: seq<CpuRunQueue>, runnable: int)
    | FirstComeFirstServe(queue: seq<Thread>, runnable: int)

  function PriorityLevel(priority: Byte): (level: Level)
    ensures level == Idle <==> priority == 0
    ensures level == High <==> priority >= 192
    ensures level == Normal <==> 64 <= priority < 192
  {
    if priority == 0 then Idle else if priority <= 63 then Low else if priority <= 191 then Normal else High
  }

  function Rank(level: Level): nat {
    match level case Idle => 0 case Low => 1 case Normal => 2 case High => 3
  }

  const EMPTY_CPU := CpuRunQueue([], [], [], [], 0)

  function NewRoundRobin(numCpus: nat): Scheduler { RoundRobin(seq(numCpus, _ => EMPTY_CPU), 0) }

  function NewFcfs(): Scheduler { FirstComeFirstServe([], 0) }

  // ---------------------------------------------------------------------------------------------
  // Placement
  // ---------------------------------------------------------------------------------------------

  /** `c` is the lowest-numbered CPU among the first n with the fewest threads. */
  ghost predicate IsLeastLoaded(cpus: seq<CpuRunQueue>, n: nat, c: nat) {
    && c < n <= |cpus|
    && (forall j | 0 <= j < n :: cpus[c].threadCount <= cpus[j].threadCount)
    && (forall j | 0 <= j < c :: cpus[c].threadCount < cpus[j].threadCount)
  }

  function LeastLoaded(cpus: seq<CpuRunQueue>, n: nat): (c: nat)
    requires 0 < n <= |cpus|
    ensures IsLeastLoaded(cpus, n, c)
  {
    if n == 1 then 0
    else
      var best := LeastLoaded(cpus, n - 1);
      if cpus[n - 1].threadCount < cpus[best].threadCount then n - 1 else best
  }

  function Enqueue(s: Scheduler, t: Thread): Scheduler
    requires s.RoundRobin? ==> s.cpus != []
  {
    match s
    case RoundRobin(cpus, runnable) =>
      var c := LeastLoaded(cpus, |cpus|);
      RoundRobin(cpus[c := cpus[c].Push(t)], runnable + 1)
    case FirstComeFirstServe(queue, runnable) => FirstComeFirstServe(queue + [t], runnable + 1)
  }

  // ---------------------------------------------------------------------------------------------
  // Picking
  // ---------------------------------------------------------------------------------------------

  /** The CPU d places after c, going round. */
  function Around(c: nat, d: nat, n: nat): (v: nat)
    requires c < n && d <= n
    ensures v < n && (v == c <==> d == 0 || d == n)
  {
    if c + d < n then c + d else c + d - n
  }

  /** The nearest CPU after c, starting d places on, that has something to steal. */
  function Victim(cpus: seq<CpuRunQueue>, c: nat, d: nat): (r: Option<nat>)
    requires c < |cpus| && 1 <= d <= |cpus|
    ensures r.Some? ==>
      && d <= r.value < |cpus|
      && cpus[Around(c, r.value, |cpus|)].StealBand().Some?
    ensures forall e | d <= e < (if r.Some? then r.value else |cpus|) ::
      cpus[Around(c, e, |cpus|)].StealBand().None?
    decreases |cpus| - d
  {
    if d == |cpus| then None
    else if cpus[Around(c, d, |cpus|)].StealBand().Some? then Some(d)
    else Victim(cpus, c, d + 1)
  }

  /** Where `pick_next(c)` takes its thread from. */
  datatype Source = Source(cpu: nat, level: Level)

  function PickSource(cpus: seq<CpuRunQueue>, c: nat): (r: Option<Source>)
    ensures r.Some? ==> r.value.cpu < |cpus| && cpus[r.value.cpu].Band(r.value.level) != []
  {
    if c >= |cpus| then None
    else if cpus[c].TopBand().Some? then Some(Source(c, cpus[c].TopBand().value))
    else
      match Victim(cpus, c, 1)
      case None => None
      case Some(d) =>
        var v := Around(c, d, |cpus|);
        Some(Source(v, cpus[v].StealBand().value))
  }

  function PickNext(s: Scheduler, c: nat): (Option<Thread>, Scheduler) {
    match s
    case RoundRobin(cpus, runnable) => (
      match PickSource(cpus, c)
      case None => (None, s)
      case Some(src) =>
        (Some(cpus[src.cpu].Band(src.level)[0]),
         RoundRobin(cpus[src.cpu := cpus[src.cpu].Pop(src.level)], runnable - 1)))
    case FirstComeFirstServe(queue, runnable) =>
      if queue == [] then (None, s) else (Some(queue[0]), FirstComeFirstServe(queue[1..], runnable - 1))
  }

  // ---------------------------------------------------------------------------------------------
  // Conservation and counters
  // ---------------------------------------------------------------------------------------------

  ghost function Union(bags: seq<multiset<Thread>>): multiset<Thread> {
    if bags == [] then multiset{} else Union(bags[..|bags| - 1]) + bags[|bags| - 1]
  }

  ghost function Bags(cpus: seq<CpuRunQueue>): seq<multiset<Thread>> {
    seq(|cpus|, i requires 0 <= i < |cpus| => cpus[i].Queued())
  }

  /** Every thread waiting in some queue. */
  ghost function Waiting(s: Scheduler): multiset<Thread> {
    match s case RoundRobin(cpus, _) => Union(Bags(cpus)) case FirstComeFirstServe(queue, _) => multiset(queue)
  }

  /** Each band holds only its own threads, and every counter agrees with the queues. */
  ghost predicate CpuOk(q: CpuRunQueue) {
    && q.threadCount == q.Length()
    && forall level, i | 0 <= i < |q.Band(level)| :: PriorityLevel(q.Band(level)[i].priority) == level
  }

  ghost predicate CpusOk(cpus: seq<CpuRunQueue>) {
    cpus != [] && forall i | 0 <= i < |cpus| :: CpuOk(cpus[i])
  }

  ghost predicate Valid(s: Scheduler) {
    && s.runnable == |Waiting(s)|
    && (s.RoundRobin? ==> CpusOk(s.cpus))
  }

  lemma Regroup(a: multiset<Thread>, b: multiset<Thread>, x: multiset<Thread>, y: multiset<Thread>,
                last: multiset<Thread>)
    requires a + x == b + y
    ensures (a + last) + x == (b + last) + y
  {
    assert (a + last) + x == (a + x) + last;
    assert (b + last) + y == (b + y) + last;
  }

  lemma {:induction false} UnionUpdate(bags: seq<multiset<Thread>>, i: nat, bag: multiset<Thread>)
    requires i < |bags|
    ensures Union(bags[i := bag]) + bags[i] == Union(bags) + bag
  {
    var n := |bags| - 1;
    if i < n {
      UnionUpdate(bags[..n], i, bag);
      assert bags[i := bag][..n] == bags[..n][i := bag];
      Regroup(Union(bags[..n][i := bag]), Union(bags[..n]), bags[i], bag, bags[n]);
    } else {
      assert bags[i := bag][..n] == bags[..n];
    }
  }

  /** Changing one CPU's queues by one thread changes the whole by that thread. */
  lemma ReadyChanges(cpus: seq<CpuRunQueue>, i: nat, q: CpuRunQueue, t: Thread)
    requires i < |cpus|
    ensures q.Queued() == cpus[i].Queued() + multiset{t} ==>
      Union(Bags(cpus[i := q])) == Union(Bags(cpus)) + multiset{t}
    ensures q.Queued() + multiset{t} == cpus[i].Queued() ==>
      Union(Bags(cpus[i := q])) + multiset{t} == Union(Bags(cpus))
  {
    assert Bags(cpus[i := q]) == Bags(cpus)[i := q.Queued()];
    UnionUpdate(Bags(cpus), i, q.Queued());
    Cancel(Union(Bags(cpus[i := q])), Union(Bags(cpus)), cpus[i].Queued(), q.Queued(), multiset{t});
  }

  lemma Cancel(u': multiset<Thread>, u: multiset<Thread>, b: multiset<Thread>, b': multiset<Thread>,
               m: multiset<Thread>)
    requires u' + b == u + b'
    ensures b' == b + m ==> u' == u + m
    ensures b' + m == b ==> u' + m == u
  {
    if b' == b + m {
      forall t ensures u'[t] == (u + m)[t] {
        assert (u' + b)[t] == (u + b')[t];
      }
    }
    if b' + m == b {
      forall t ensures (u' + m)[t] == u[t] {
        assert (u' + b)[t] == (u + b')[t];
      }
    }
  }

  lemma PushQueued(q: CpuRunQueue, t: Thread)
    ensures q.Push(t).Queued() == q.Queued() + multiset{t}
  {
    var level := PriorityLevel(t.priority);
    assert multiset(q.Band(level) + [t]) == multiset(q.Band(level)) + multiset{t};
  }

  lemma PushKeepsCpu(q: CpuRunQueue, t: Thread)
    requires CpuOk(q)
    ensures CpuOk(q.Push(t))
  {
    var level := PriorityLevel(t.priority);
    var q' := q.Push(t);
    forall l, i | 0 <= i < |q'.Band(l)| ensures PriorityLevel(q'.Band(l)[i].priority) == l {
      if l != level {
        assert q'.Band(l) == q.Band(l);
      } else if i < |q.Band(l)| {
        assert q'.Band(l)[i] == q.Band(l)[i];
      }
    }
  }

  lemma PopQueued(q: CpuRunQueue, level: Level)
    requires q.Band(level) != []
    ensures q.Pop(level).Queued() + multiset{q.Band(level)[0]} == q.Queued()
  {
    assert multiset(q.Band(level)) == multiset{q.Band(level)[0]} + multiset(q.Band(level)[1..]) by {
      assert q.Band(level) == [q.Band(level)[0]] + q.Band(level)[1..];
    }
  }

  lemma PopKeepsCpu(q: CpuRunQueue, level: Level)
    requires CpuOk(q) && q.Band(level) != []
    ensures CpuOk(q.Pop(level))
  {
    var q' := q.Pop(level);
    forall l, i | 0 <= i < |q'.Band(l)| ensures PriorityLevel(q'.Band(l)[i].priority) == l {
      if l == level {
        assert q'.Band(l)[i] == q.Band(l)[i + 1];
      } else {
        assert q'.Band(l) == q.Band(l);
      }
    }
  }

  lemma EnqueueAddsRoundRobin(cpus: seq<CpuRunQueue>, t: Thread)
    requires CpusOk(cpus)
    ensures var c := LeastLoaded(cpus, |cpus|); var cpus' := cpus[c := cpus[c].Push(t)];
      CpusOk(cpus') && Union(Bags(cpus')) == Union(Bags(cpus)) + multiset{t}
  {
    var c := LeastLoaded(cpus, |cpus|);
    PushQueued(cpus[c], t);
    PushKeepsCpu(cpus[c], t);
    ReadyChanges(cpus, c, cpus[c].Push(t), t);
  }

  /** Enqueueing adds exactly the given thread, and the counters follow. */
  lemma EnqueueAdds(s: Scheduler, t: Thread)
    requires Valid(s)
    ensures Valid(Enqueue(s, t)) && Waiting(Enqueue(s, t)) == Waiting(s) + multiset{t}
  {
    if s.RoundRobin? {
      EnqueueAddsRoundRobin(s.cpus, t);
    }
  }

  lemma PickRemovesRoundRobin(cpus: seq<CpuRunQueue>, src: Source)
    requires CpusOk(cpus) && src.cpu < |cpus| && cpus[src.cpu].Band(src.level) != []
    ensures var q := cpus[src.cpu]; var cpus' := cpus[src.cpu := q.Pop(src.level)];
      CpusOk(cpus') && Union(Bags(cpus')) + multiset{q.Band(src.level)[0]} == Union(Bags(cpus))
  {
    var q := cpus[src.cpu];
    PopQueued(q, src.level);
    PopKeepsCpu(q, src.level);
    ReadyChanges(cpus, src.cpu, q.Pop(src.level), q.Band(src.level)[0]);
  }

  lemma SizeAfterRemoval(less: multiset<Thread>, all: multiset<Thread>, t: Thread)
    requires less + multiset{t} == all
    ensures |less| == |all| - 1
  {
  }

  /** Picking takes out exactly the thread it returns, or changes nothing; no counter goes below zero. */
  lemma PickRemoves(s: Scheduler, c: nat)
    requires Valid(s)
    ensures var (t, s') := PickNext(s, c);
      && Valid(s') && s'.runnable >= 0
      && (if t.Some? then Waiting(s') + multiset{t.value} == Waiting(s) else s' == s)
  {
    var (t, s') := PickNext(s, c);
    if t.Some? {
      if s.RoundRobin? {
        PickRemovesRoundRobin(s.cpus, PickSource(s.cpus, c).value);
      } else {
        assert s.queue == [s.queue[0]] + s.queue[1..];
      }
      SizeAfterRemoval(Waiting(s'), Waiting(s), t.value);
    }
  }

  // ---- from a place in a queue to the whole ----

  lemma BandIsQueued(q: CpuRunQueue, level: Level, i: nat)
    requires i < |q.Band(level)|
    ensures q.Queued()[q.Band(level)[i]] >= multiset(q.Band(level))[q.Band(level)[i]] > 0
  {
    assert q.Band(level)[i] in multiset(q.Band(level));
  }

  lemma QueuedIsWaiting(cpus: seq<CpuRunQueue>, v: nat, t: Thread)
    requires v < |cpus| && cpus[v].Queued()[t] > 0
    ensures Union(Bags(cpus))[t] >= cpus[v].Queued()[t]
  {
    UnionAtLeast(Bags(cpus), v, t);
  }

  lemma {:induction false} UnionAtLeast(bags: seq<multiset<Thread>>, i: nat, t: Thread)
    requires i < |bags|
    ensures Union(bags)[t] >= bags[i][t]
  {
    if i < |bags| - 1 {
      UnionAtLeast(bags[..|bags| - 1], i, t);
    }
  }

  lemma {:induction false} UnionAtLeastBoth(bags: seq<multiset<Thread>>, i: nat, j: nat, t: Thread)
    requires i < j < |bags|
    ensures Union(bags)[t] >= bags[i][t] + bags[j][t]
  {
    if j < |bags| - 1 {
      UnionAtLeastBoth(bags[..|bags| - 1], i, j, t);
    } else {
      UnionAtLeast(bags[..|bags| - 1], i, t);
    }
  }

  // ---------------------------------------------------------------------------------------------
  // Main results about the schedulers
  // ---------------------------------------------------------------------------------------------

  datatype SchedOp = DoEnqueue(thread: Thread) | DoPick(cpu: nat)

  function Apply(s: Scheduler, op: SchedOp): Scheduler
    requires s.RoundRobin? ==> s.cpus != []
  {
    match op case DoEnqueue(t) => Enqueue(s, t) case DoPick(c) => PickNext(s, c).1
  }

  function RunOps(s: Scheduler, ops: seq<SchedOp>): (s': Scheduler)
    requires s.RoundRobin? ==> s.cpus != []
    ensures s'.RoundRobin? == s.RoundRobin? && (s.RoundRobin? ==> |s'.cpus| == |s.cpus|)
  {
    if ops == [] then s else Apply(RunOps(s, ops[..|ops| - 1]), ops[|ops| - 1])
  }

  function TotalCount(cpus: seq<CpuRunQueue>): int {
    if cpus == [] then 0 else TotalCount(cpus[..|cpus| - 1]) + cpus[|cpus| - 1].threadCount
  }

  lemma {:induction false} TotalIsUnion(cpus: seq<CpuRunQueue>)
    requires forall i | 0 <= i < |cpus| :: CpuOk(cpus[i])
    ensures TotalCount(cpus) == |Union(Bags(cpus))|
  {
    if cpus != [] {
      var n := |cpus| - 1;
      TotalIsUnion(cpus[..n]);
      assert Bags(cpus)[..n] == Bags(cpus[..n]);
    }
  }

  lemma {:induction false} EmptyUnion(bags: seq<multiset<Thread>>)
    requires forall i | 0 <= i < |bags| :: bags[i] == multiset{}
    ensures Union(bags) == multiset{}
  {
    if bags != [] {
      EmptyUnion(bags[..|bags| - 1]);
    }
  }

  lemma NewIsValid(numCpus: nat)
    ensures numCpus > 0 ==> Valid(NewRoundRobin(numCpus))
    ensures Valid(NewFcfs())
  {
    var cpus := NewRoundRobin(numCpus).cpus;
    assert forall i | 0 <= i < numCpus :: cpus[i] == EMPTY_CPU;
    assert CpuOk(EMPTY_CPU) && EMPTY_CPU.Queued() == multiset{};
    EmptyUnion(Bags(cpus));
  }

  lemma {:induction false} RunStaysValid(s: Scheduler, ops: seq<SchedOp>)
    requires Valid(s)
    ensures Valid(RunOps(s, ops))
  {
    if ops != [] {
      var before := RunOps(s, ops[..|ops| - 1]);
      RunStaysValid(s, ops[..|ops| - 1]);
      match ops[|ops| - 1]
      case DoEnqueue(t) => EnqueueAdds(before, t);
      case DoPick(c) => PickRemoves(before, c);
    }
  }

  /**
   After every run of enqueues, picks and steals that take turns, each CPU's `thread_count` is the length of
   its four queues and `runnable_threads` is the sum of them all. Module SuspendedSpawns says how far the
   counters lag behind, and when they wrap round, while spawns are suspended half way.
   */
  lemma CountersAgree(numCpus: nat, ops: seq<SchedOp>)
    requires numCpus > 0
    ensures var s := RunOps(NewRoundRobin(numCpus), ops);
      && (forall i | 0 <= i < numCpus :: s.cpus[i].threadCount == s.cpus[i].Length())
      && s.runnable == TotalCount(s.cpus) >= 0
  {
    NewIsValid(numCpus);
    RunStaysValid(NewRoundRobin(numCpus), ops);
    var s := RunOps(NewRoundRobin(numCpus), ops);
    assert forall i | 0 <= i < numCpus :: CpuOk(s.cpus[i]);
    TotalIsUnion(s.cpus);
  }

  /** Going round from c meets every other CPU exactly once. */
  lemma StealVisitsEveryOtherCpuOnce(c: nat, v: nat, n: nat)
    requires c < n && v < n && v != c
    ensures exists d | 1 <= d < n :: Around(c, d, n) == v && forall e | 1 <= e < n && Around(c, e, n) == v :: e == d
  {
    var d := if v > c then v - c else v + n - c;
    assert Around(c, d, n) == v;
    assert forall e | 1 <= e < n && Around(c, e, n) == v :: e == d;
  }

  /** `q` has no thread in a band above `level`. */
  ghost predicate NothingAbove(q: CpuRunQueue, level: Level) {
    && (Rank(High) > Rank(level) ==> q.high == [])
    && (Rank(Normal) > Rank(level) ==> q.normal == [])
    && (Rank(Low) > Rank(level) ==> q.low == [])
  }

  predicate Stealable(q: CpuRunQueue) { q.normal != [] || q.low != [] }

  /** `t` is the oldest thread of the highest non-empty band of `q`. */
  ghost predicate IsLocalPick(q: CpuRunQueue, t: Thread) {
    exists l :: NothingAbove(q, l) && q.Band(l) != [] && t == q.Band(l)[0]
  }

  /** `t` is the oldest Normal, else Low, thread of the nearest CPU after c that has either. */
  ghost predicate IsStolenPick(cpus: seq<CpuRunQueue>, c: nat, t: Thread)
    requires c < |cpus|
  {
    exists d | 1 <= d < |cpus| ::
      var q := cpus[Around(c, d, |cpus|)];
      && Stealable(q)
      && t == (if q.normal != [] then q.normal[0] else q.low[0])
      && forall e | 1 <= e < d :: !Stealable(cpus[Around(c, e, |cpus|)])
  }

  /**
   `pick_next(c)`: the oldest thread of the highest band on CPU c; if c is empty, a thread stolen from
   the nearest CPU; `None` exactly when c does not exist, or is empty and no other CPU holds a Normal
   or Low thread.
   */
  lemma PickNextMeaning(s: Scheduler, c: nat)
    requires s.RoundRobin?
    ensures var t := PickNext(s, c).0;
      if c >= |s.cpus| then t == None
      else if s.cpus[c].Length() > 0 then t.Some? && IsLocalPick(s.cpus[c], t.value)
      else
        && (t.Some? ==> IsStolenPick(s.cpus, c, t.value))
        && (t.Some? <==> exists v | 0 <= v < |s.cpus| && v != c :: Stealable(s.cpus[v]))
  {
    if c < |s.cpus| {
      if s.cpus[c].Length() > 0 {
        assert NothingAbove(s.cpus[c], s.cpus[c].TopBand().value);
      } else {
        VictimMeaning(s.cpus, c);
      }
    }
  }

  lemma VictimMeaning(cpus: seq<CpuRunQueue>, c: nat)
    requires c < |cpus|
    ensures var r := Victim(cpus, c, 1);
      && (r.Some? <==> exists v | 0 <= v < |cpus| && v != c :: Stealable(cpus[v]))
      && (r.Some? ==>
            var q := cpus[Around(c, r.value, |cpus|)];
            && Stealable(q)
            && q.StealBand().Some?
            && IsStolenPick(cpus, c, q.Band(q.StealBand().value)[0]))
  {
    var r := Victim(cpus, c, 1);
    forall e | 1 <= e < (if r.Some? then r.value else |cpus|) ensures !Stealable(cpus[Around(c, e, |cpus|)]) {
      assert cpus[Around(c, e, |cpus|)].StealBand().None?;
    }
    if r.None? {
      forall v | 0 <= v < |cpus| && v != c ensures !Stealable(cpus[v]) {
        StealVisitsEveryOtherCpuOnce(c, v, |cpus|);
      }
    } else {
      var v := Around(c, r.value, |cpus|);
      assert v != c && Stealable(cpus[v]);
    }
  }

  /**
   Whatever the counters say: after an enqueue `pick_next(0)` finds nothing exactly when CPU 0 was empty and yet
   another CPU was taken for less loaded, the thread is High or Idle, and there is nothing to steal.
   */
  lemma EnqueueThenPickIff(s: Scheduler, t: Thread)
    requires s.RoundRobin? && s.cpus != []
    ensures PickNext(Enqueue(s, t), 0).0.None? <==>
      && s.cpus[0].Length() == 0 && LeastLoaded(s.cpus, |s.cpus|) != 0
      && (PriorityLevel(t.priority) == High || PriorityLevel(t.priority) == Idle)
      && forall v | 0 <= v < |s.cpus| :: !Stealable(s.cpus[v])
  {
    var c, s1 := LeastLoaded(s.cpus, |s.cpus|), Enqueue(s, t);
    PickNextMeaning(s1, 0);
    PushStealable(s.cpus[c], t);
    if s.cpus[0].Length() == 0 && c != 0 {
      assert s1.cpus[0] == s.cpus[0];
      if v :| 0 <= v < |s.cpus| && Stealable(s.cpus[v]) {
        assert v != 0 && Stealable(s1.cpus[v]);
      }
      assert Stealable(s1.cpus[c]) || PriorityLevel(t.priority) == High || PriorityLevel(t.priority) == Idle;
    }
  }

  lemma PushStealable(q: CpuRunQueue, t: Thread)
    ensures q.Push(t).Length() == q.Length() + 1
    ensures Stealable(q.Push(t)) <==>
      Stealable(q) || PriorityLevel(t.priority) == Normal || PriorityLevel(t.priority) == Low
  {
  }

  /** `q'` is `q` but for one band, which is `band`. */
  ghost predicate OnlyBand(q: CpuRunQueue, q': CpuRunQueue, level: Level, band: seq<Thread>) {
    q'.Band(level) == band && forall l | l != level :: q'.Band(l) == q.Band(l)
  }

  /** The CPUs but c are untouched. */
  ghost predicate OnlyCpu(cpus: seq<CpuRunQueue>, cpus': seq<CpuRunQueue>, c: nat) {
    |cpus'| == |cpus| && forall j | 0 <= j < |cpus| && j != c :: cpus'[j] == cpus[j]
  }

  /** An enqueue puts the thread at the end of its band on the lowest-numbered least loaded CPU, and nowhere else. */
  lemma EnqueueMeaning(s: Scheduler, t: Thread, c: nat)
    requires s.RoundRobin? && IsLeastLoaded(s.cpus, |s.cpus|, c)
    ensures var s', level := Enqueue(s, t), PriorityLevel(t.priority);
      && s'.RoundRobin? && OnlyCpu(s.cpus, s'.cpus, c)
      && OnlyBand(s.cpus[c], s'.cpus[c], level, s.cpus[c].Band(level) + [t])
      && s'.cpus[c].threadCount == s.cpus[c].threadCount + 1 && s'.runnable == s.runnable + 1
  {
    var d := LeastLoaded(s.cpus, |s.cpus|);
    assert s.cpus[c].threadCount <= s.cpus[d].threadCount <= s.cpus[c].threadCount;
  }

  /** A pick takes the head off one band of one CPU, and touches nothing else. */
  lemma PickTakesHead(s: Scheduler, c: nat)
    requires s.RoundRobin?
    ensures var (t, s') := PickNext(s, c);
      if t.None? then s' == s
      else
        && s'.RoundRobin? && s'.runnable == s.runnable - 1
        && exists v, level | 0 <= v < |s.cpus| ::
             && OnlyCpu(s.cpus, s'.cpus, v) && s.cpus[v].Band(level) == [t.value] + s'.cpus[v].Band(level)
             && OnlyBand(s.cpus[v], s'.cpus[v], level, s.cpus[v].Band(level)[1..])
             && s'.cpus[v].threadCount == s.cpus[v].threadCount - 1
  {
    var (t, s') := PickNext(s, c);
    if t.Some? {
      var src := PickSource(s.cpus, c).value;
      var q := s.cpus[src.cpu];
      assert q.Band(src.level) == [q.Band(src.level)[0]] + q.Band(src.level)[1..];
      assert OnlyBand(q, s'.cpus[src.cpu], src.level, q.Band(src.level)[1..]);
      assert OnlyCpu(s.cpus, s'.cpus, src.cpu);
    }
  }

  /** After any enqueue CPU 0 has a thread of its own, so `pick_next(0)` succeeds without stealing. */
  lemma EnqueueThenPick(s: Scheduler, t: Thread)
    requires Valid(s)
    ensures var s1 := Enqueue(s, t);
      && PickNext(s1, 0).0.Some?
      && (s.RoundRobin? ==>
            && s1.cpus[0].Length() > 0
            && PickSource(s1.cpus, 0) == Some(Source(0, s1.cpus[0].TopBand().value)))
  {
    if s.RoundRobin? {
      EnqueueFillsCpu0(s.cpus, t);
    }
  }

  lemma EnqueueFillsCpu0(cpus: seq<CpuRunQueue>, t: Thread)
    requires cpus != [] && forall i | 0 <= i < |cpus| :: CpuOk(cpus[i])
    ensures var c := LeastLoaded(cpus, |cpus|); cpus[c := cpus[c].Push(t)][0].Length() > 0
  {
    var c := LeastLoaded(cpus, |cpus|);
    assert IsLeastLoaded(cpus, |cpus|, c);
    assert CpuOk(cpus[0]) && CpuOk(cpus[c]);
  }

  /** No two CPUs differ by more than `d` threads. */
  ghost predicate SpreadAtMost(cpus: seq<CpuRunQueue>, d: int) {
    forall i, j | 0 <= i < |cpus| && 0 <= j < |cpus| :: cpus[i].threadCount - cpus[j].threadCount <= d
  }

  /** An enqueue never widens the load spread beyond one thread. */
  lemma EnqueueKeepsSpread(s: Scheduler, t: Thread, d: int)
    requires s.RoundRobin? && s.cpus != [] && SpreadAtMost(s.cpus, d)
    ensures SpreadAtMost(Enqueue(s, t).cpus, if d < 1 then 1 else d)
  {
    var c := LeastLoaded(s.cpus, |s.cpus|);
    assert IsLeastLoaded(s.cpus, |s.cpus|, c);
    var cpus' := Enqueue(s, t).cpus;
    forall i, j | 0 <= i < |cpus'| && 0 <= j < |cpus'|
      ensures cpus'[i].threadCount - cpus'[j].threadCount <= if d < 1 then 1 else d
    {
      assert s.cpus[i].threadCount - s.cpus[j].threadCount <= d;
      assert cpus'[i].threadCount <= s.cpus[i].threadCount + if i == c then 1 else 0;
    }
  }

  function EnqueueAll(s: Scheduler, threads: seq<Thread>): (s': Scheduler)
    requires s.RoundRobin? ==> s.cpus != []
    ensures s'.RoundRobin? == s.RoundRobin? && (s.RoundRobin? ==> |s'.cpus| == |s.cpus|)
  {
    if threads == [] then s else Enqueue(EnqueueAll(s, threads[..|threads| - 1]), threads[|threads| - 1])
  }

  /** How many of k threads dealt out one by one to n CPUs land on CPU i. */
  function Dealt(k: nat, n: nat, i: nat): nat
    requires i < n
  {
    (k + n - 1 - i) / n
  }

  lemma DealtStep(k: nat, n: nat, i: nat)
    requires i < n
    ensures Dealt(k + 1, n, i) == Dealt(k, n, i) + if i == k % n then 1 else 0
    ensures Dealt(k, n, i) == k / n + if i < k % n then 1 else 0
  {
    var q, r := k / n, k % n;
    assert k == q * n + r;
    DivModIs(k + n - 1 - i, n, if i < r then q + 1 else q, if i < r then r - 1 - i else r + n - 1 - i);
    DivModIs(k + n - i, n, if i <= r then q + 1 else q, if i <= r then r - i else r + n - i);
  }

  /** k enqueues from empty over n CPUs give CPU i exactly floor((k + n - 1 - i) / n) threads. */
  lemma {:induction false} EnqueuesAreDealtOut(n: nat, threads: seq<Thread>, i: nat)
    requires i < n
    ensures EnqueueAll(NewRoundRobin(n), threads).cpus[i].threadCount == Dealt(|threads|, n, i)
    decreases |threads|
  {
    if threads == [] {
      DivModIs(n - 1 - i, n, 0, n - 1 - i);
    } else {
      var k := |threads| - 1;
      var s := EnqueueAll(NewRoundRobin(n), threads[..k]);
      forall j | 0 <= j < n ensures s.cpus[j].threadCount == k / n + if j < k % n then 1 else 0 {
        EnqueuesAreDealtOut(n, threads[..k], j);
        DealtStep(k, n, j);
      }
      assert IsLeastLoaded(s.cpus, n, LeastLoaded(s.cpus, n));
      assert s.cpus[k % n].threadCount == k / n;
      assert LeastLoaded(s.cpus, n) == k % n;
      DealtStep(k, n, i);
    }
  }
}
