/**
 The runs of SuspendedSpawns with the contexts through which threads are saved and resumed. A context holds how
 far its owner was in a spawn. An interrupt saves the running thread to the context that IRQ_SAVE_CTX names;
 `context_switch` saves to the current thread's own. The pointer is set only by the first start and by timer
 switches (src/kernel.rs, src/arch/aarch64.rs), so after a cooperative switch it may name another thread.

 As long as that does no harm, the runs are those of SuspendedSpawns, and its results hold of them.
 */
module SpawnContexts {
  import opened Options
  import opened Numbers
  import opened Scheduler
  import opened SuspendedSpawns
  import B = BandQueues

  /** Whose registers a context holds, where they are in a spawn, and how they were saved. */
  datatype Saved = Saved(owner: nat, at: Option<SpawnPc>, how: Left)

  /**
   The kernel, the contexts, and the thread whose context both IRQ pointers name. `astray` is history: it is set
   when an interrupt is taken in a thread other than the one the pointers name, or when it returns to a thread
   that had left by a call, which takes it to EL0. From then on the contexts are followed, and nothing is claimed.
   */
  datatype Machine = Machine(k: State, contexts: map<nat, Saved>, irq: Option<nat>, astray: bool)

  function Boot(numCpus: nat): Machine { Machine(Init(numCpus), map[], None, false) }

  /** How far a thread is in a spawn. */
  function Progress(spawns: map<nat, SpawnPc>, p: nat): Option<SpawnPc> {
    if p in spawns then Some(spawns[p]) else None
  }

  function Resumed(spawns: map<nat, SpawnPc>, p: nat, at: Option<SpawnPc>): map<nat, SpawnPc> {
    if at.Some? then spawns[p := at.value] else spawns - {p}
  }

  function Save(m: Machine, slot: nat, how: Left): Machine {
    m.(contexts := m.contexts[slot := Saved(m.k.exec, Progress(m.k.spawns, m.k.exec), how)])
  }

  /** The CPU goes to whatever the context of `t` holds; a context not saved to yet is the initial one. */
  function Load(m: Machine, t: nat, call: bool): (m': Machine)
    ensures m'.k.cpus == m.k.cpus && (m.astray ==> m'.astray)
  {
    if t !in m.contexts then m.(k := m.k.(exec := t, irqOn := false))
    else
      var saved := m.contexts[t];
      m.(k := m.k.(exec := saved.owner, spawns := Resumed(m.k.spawns, saved.owner, saved.at),
                   irqOn := !call || saved.how == ByCall),
         astray := m.astray || (!call && saved.how == ByCall))
  }

  /** What a switch does: by whom, to which context it saves (the entry code has saved already), what it repoints. */
  datatype Kind = ByIrq | ByStart | BySwitch(slot: nat)

  /** `pick_next(0)` and the switch, by an interrupt or by a call. */
  function Pick(m: Machine, kind: Kind): (m': Machine)
    ensures |m'.k.cpus| == |m.k.cpus| && (m.astray ==> m'.astray)
  {
    match PickSource(m.k.cpus, 0)
    case None => m.(k := m.k.(current := None, irqOn := kind != ByIrq || m.k.irqOn))
    case Some(src) =>
      var t := m.k.cpus[src.cpu].Band(src.level)[0];
      var saved := if kind.BySwitch? then Save(m, kind.slot, ByCall) else m;
      Load(saved.(k := Popped(m.k, src), irq := if kind.BySwitch? then m.irq else Some(t.id)), t.id, kind != ByIrq)
  }

  /** The queues and the guard after a pop. */
  function Popped(k: State, src: Source): State
    requires src.cpu < |k.cpus| && k.cpus[src.cpu].Band(src.level) != []
  {
    k.(cpus := k.cpus[src.cpu := k.cpus[src.cpu].Pop(src.level)], runnable := k.runnable - 1,
       current := Some(k.cpus[src.cpu].Band(src.level)[0]))
  }

  /** History: how the running thread leaves. */
  function Noted(m: Machine, how: Left): Machine { m.(k := m.k.(left := m.k.left[m.k.exec := how])) }

  /** A timer interrupt: save through the pointer, switch if anybody is current, and load. */
  function OnTimer(m: Machine): (m': Machine)
    requires m.k.cpus != []
    ensures |m'.k.cpus| == |m.k.cpus| && (m.astray ==> m'.astray)
  {
    if m.irq.None? then m.(astray := true)
    else
      var saved := Save(m, m.irq.value, ByTimer).(astray := m.astray || m.irq != Some(m.k.exec));
      if m.k.current.None? then saved else Pick(Noted(saved.(k := Requeue(m.k)), ByTimer), ByIrq)
  }

  /** A call that gives the CPU away; `k` is the kernel when it picks. */
  function OnCall(m: Machine, k: State, kind: Kind): (m': Machine)
    ensures |m'.k.cpus| == |k.cpus| && (m.astray ==> m'.astray)
  {
    Pick(Noted(m.(k := k), ByCall), kind)
  }

  function Next(m: Machine, a: Action): (m': Machine)
    requires m.k.cpus != []
    ensures |m'.k.cpus| == |m.k.cpus| && (m.astray ==> m'.astray)
  {
    if a.Timer? then (if m.k.irqOn then OnTimer(m) else m)
    else if !GivesAway(m.k, a) then m.(k := SuspendedSpawns.Next(m.k, a))
    else if a.Start? then OnCall(m, m.k, ByStart)
    else OnCall(m, if a.Yield? then Requeue(m.k) else Retired(m.k), BySwitch(m.k.current.value.id))
  }

  /** A call that looks for another thread to run. */
  predicate GivesAway(k: State, a: Action) {
    k.exec !in k.spawns && (((a.Yield? || a.Finish?) && k.current.Some?) || (a.Start? && k.current.None?))
  }

  function Retired(k: State): State
    requires k.current.Some?
  {
    k.(current := None, finished := k.finished + {k.current.value})
  }

  function Run(m: Machine, actions: seq<Action>): (m': Machine)
    requires m.k.cpus != []
    ensures |m'.k.cpus| == |m.k.cpus|
  {
    if actions == [] then m else Next(Run(m, actions[..|actions| - 1]), actions[|actions| - 1])
  }

  // ---------------------------------------------------------------------------------------------
  // Until it goes astray, the machine does what SuspendedSpawns says
  // ---------------------------------------------------------------------------------------------

  /** The context of a thread that can be dispatched is where and how it left. */
  ghost predicate Agrees(m: Machine, id: nat) {
    && (id in m.contexts <==> id in m.k.left)
    && (id in m.contexts ==> m.contexts[id] == Saved(id, Progress(m.k.spawns, id), m.k.left[id]))
  }

  ghost predicate Intact(m: Machine) {
    && (forall t | Queued(m.k.cpus)[t] > 0 :: t.id != m.k.exec && Agrees(m, t.id))
    && (forall p <- m.k.spawns :: m.k.spawns[p].Unpushed() ==>
          m.k.spawns[p].thread.id !in m.contexts && m.k.spawns[p].thread.id !in m.k.left)
    && (forall id <- m.contexts :: id < m.k.nextId)
    && (forall id <- m.k.left :: id < m.k.nextId)
  }

  /** Loading a context that agrees resumes its thread where it left. */
  lemma LoadAgrees(m: Machine, t: nat, call: bool)
    requires Agrees(m, t) && (t in m.k.spawns ==> t in m.k.left) && !Load(m, t, call).astray
    ensures Load(m, t, call) == m.(k := m.k.(exec := t, irqOn := t in m.k.left && (call ==> m.k.left[t] == ByCall)))
  {
    if t in m.contexts {
      assert Resumed(m.k.spawns, t, Progress(m.k.spawns, t)) == m.k.spawns;
    }
  }

  /** So a pick dispatches as the kernel model says. */
  lemma PickFollows(m: Machine, kind: Kind)
    requires PickSource(m.k.cpus, 0).Some? ==>
      var src := PickSource(m.k.cpus, 0).value;
      var t := m.k.cpus[src.cpu].Band(src.level)[0].id;
      Agrees(if kind.BySwitch? then Save(m, kind.slot, ByCall) else m, t) && (t in m.k.spawns ==> t in m.k.left)
    requires !Pick(m, kind).astray
    ensures Pick(m, kind).k == Dispatch(m.k, kind != ByIrq)
  {
    match PickSource(m.k.cpus, 0)
    case None =>
    case Some(src) =>
      var t := m.k.cpus[src.cpu].Band(src.level)[0];
      var saved := if kind.BySwitch? then Save(m, kind.slot, ByCall) else m;
      var m1 := saved.(k := Popped(m.k, src), irq := if kind.BySwitch? then m.irq else Some(t.id));
      assert Agrees(m1, t.id);
      LoadAgrees(m1, t.id, kind != ByIrq);
  }

  /** Nobody who is current is queued. */
  lemma CurrentIsAway(k: State)
    requires Books(k) && k.current.Some?
    ensures forall t | Queued(k.cpus)[t] > 0 :: t.id != k.exec
  {
    var u := k.current.value;
    forall t | Queued(k.cpus)[t] > 0 ensures t.id != k.exec {
      assert Places(k, t) == One(t.id in k.threads && k.threads[t.id] == t.priority);
      assert Places(k, u) == One(u.id in k.threads && k.threads[u.id] == u.priority);
      assert t.id == u.id ==> t == u;
      assert t == u ==> Places(k, t) >= 2;
    }
  }

  // ---- steps that switch nobody ----

  /** The running thread goes on: only its own spawn moves, and only a thread that has never run is queued. */
  lemma SoloIntact(m: Machine, k': State)
    requires Intact(m) && k'.exec == m.k.exec && k'.left == m.k.left && k'.nextId >= m.k.nextId
    requires forall p | p != m.k.exec :: Progress(k'.spawns, p) == Progress(m.k.spawns, p)
    requires forall t | Queued(k'.cpus)[t] > 0 && Queued(m.k.cpus)[t] == 0 ::
      t.id != m.k.exec && t.id !in m.contexts && t.id !in m.k.left
    requires m.k.exec in k'.spawns && k'.spawns[m.k.exec].Unpushed() ==>
      var id := k'.spawns[m.k.exec].thread.id; id !in m.contexts && id !in m.k.left
    ensures Intact(m.(k := k'))
  {
    var m' := m.(k := k');
    forall p | p in k'.spawns && k'.spawns[p].Unpushed()
      ensures k'.spawns[p].thread.id !in m.contexts && k'.spawns[p].thread.id !in m.k.left
    {
      if p != m.k.exec {
        assert Progress(k'.spawns, p) == Progress(m.k.spawns, p);
        assert p in m.k.spawns && m.k.spawns[p] == k'.spawns[p];
      }
    }
    forall t | Queued(k'.cpus)[t] > 0 ensures t.id != m.k.exec && Agrees(m', t.id) {
      if Queued(m.k.cpus)[t] > 0 {
        assert Agrees(m, t.id) && t.id != m.k.exec;
        assert Progress(k'.spawns, t.id) == Progress(m.k.spawns, t.id);
      }
    }
  }

  /** A step of a spawn queues nobody but the thread that is being spawned. */
  lemma StepQueued(k: State, t: Thread)
    requires k.cpus != [] && k.exec in k.spawns
    ensures Queued(k.cpus)[t] == 0 && Queued(Step(k, k.spawns[k.exec]).cpus)[t] > 0 ==>
      k.spawns[k.exec].Chosen? && k.spawns[k.exec].thread == t
  {
    var pc := k.spawns[k.exec];
    if pc.Chosen? && pc.cpu < |k.cpus| {
      PlaceGrows(k.cpus, pc.cpu, pc.thread);
    } else if pc.Pushed? && pc.cpu < |k.cpus| {
      CountsOnly(k.cpus, pc.cpu);
    } else {
      assert Step(k, pc).cpus == k.cpus;
    }
  }

  lemma CountsOnly(cpus: seq<CpuRunQueue>, cpu: nat)
    requires cpu < |cpus|
    ensures Queued(CountOne(cpus, cpu)) == Queued(cpus)
  {
    assert Bags(CountOne(cpus, cpu)) == Bags(cpus);
  }

  lemma StepSolo(k: State, p: nat)
    requires k.cpus != [] && k.exec in k.spawns
    ensures var k', pc := Step(k, k.spawns[k.exec]), k.spawns[k.exec];
      && k'.exec == k.exec && k'.left == k.left && k'.nextId == k.nextId
      && (p != k.exec ==> Progress(k'.spawns, p) == Progress(k.spawns, p))
      && (k.exec in k'.spawns && k'.spawns[k.exec].Unpushed() ==>
            pc.Unpushed() && k'.spawns[k.exec].thread == pc.thread)
  {
  }

  lemma StepIntact(m: Machine)
    requires Intact(m) && Unborn(m.k) && m.k.cpus != [] && m.k.exec in m.k.spawns
    ensures Intact(m.(k := Step(m.k, m.k.spawns[m.k.exec])))
  {
    var k' := Step(m.k, m.k.spawns[m.k.exec]);
    forall p ensures p != m.k.exec ==> Progress(k'.spawns, p) == Progress(m.k.spawns, p) {
      StepSolo(m.k, p);
    }
    StepSolo(m.k, m.k.exec);
    forall t | Queued(k'.cpus)[t] > 0 && Queued(m.k.cpus)[t] == 0
      ensures t.id != m.k.exec && t.id !in m.contexts && t.id !in m.k.left
    {
      StepQueued(m.k, t);
    }
    SoloIntact(m, k');
  }

  lemma BeginIntact(m: Machine, priority: Byte)
    requires Intact(m) && m.k.exec !in m.k.spawns
    ensures Intact(m.(k := Begin(m.k, priority)))
  {
    SoloIntact(m, Begin(m.k, priority));
  }

  lemma MaskIntact(m: Machine, on: bool)
    requires Intact(m)
    ensures Intact(m.(k := m.k.(irqOn := on)))
  {
    forall t | Queued(m.k.cpus)[t] > 0 ensures Agrees(m.(k := m.k.(irqOn := on)), t.id) {
      assert Agrees(m, t.id);
    }
  }

  // ---- switches ----

  /** The state when a pick is made, and after it: the running thread has been saved and may have been requeued. */
  ghost predicate Left1(m: Machine, k1: State, contexts1: map<nat, Saved>) {
    && k1.exec == m.k.exec && k1.spawns == m.k.spawns && k1.nextId == m.k.nextId
    && (forall id | id != m.k.exec :: (id in contexts1 <==> id in m.contexts) && (id in k1.left <==> id in m.k.left))
    && (forall id | id != m.k.exec && id in m.contexts :: contexts1[id] == m.contexts[id])
    && (forall id | id != m.k.exec && id in m.k.left :: k1.left[id] == m.k.left[id])
    && (forall t | Queued(k1.cpus)[t] > 0 :: Queued(m.k.cpus)[t] > 0 || t.id == m.k.exec)
  }

  /** Whoever is queued then agrees; the running thread if it was saved as it left. */
  lemma LeftAgrees(m: Machine, m1: Machine, t: Thread)
    requires Intact(m) && Left1(m, m1.k, m1.contexts) && Queued(m1.k.cpus)[t] > 0
    requires t.id == m.k.exec ==> Agrees(m1, m.k.exec)
    ensures Agrees(m1, t.id)
  {
    if t.id != m.k.exec {
      assert Agrees(m, t.id);
    }
  }

  /** And goes on agreeing after the switch. */
  lemma SwitchedIntact(m: Machine, m1: Machine, m': Machine)
    requires Intact(m) && Unborn(m.k) && m.k.exec < m.k.nextId && Left1(m, m1.k, m1.contexts)
    requires m'.contexts == m1.contexts && m'.k.left == m1.k.left && m'.k.spawns == m.k.spawns &&
      m'.k.nextId == m.k.nextId
    requires forall t | Queued(m'.k.cpus)[t] > 0 :: Queued(m1.k.cpus)[t] > 0 && t.id != m'.k.exec
    requires forall t | Queued(m'.k.cpus)[t] > 0 && t.id == m.k.exec :: Agrees(m1, m.k.exec)
    ensures Intact(m')
  {
    forall t | Queued(m'.k.cpus)[t] > 0 ensures t.id != m'.k.exec && Agrees(m', t.id) {
      LeftAgrees(m, m1, t);
    }
  }

  /** `saved` is the machine at a pick, with the running thread saved as the pick will have it. */
  ghost predicate AtPick(m: Machine, m1: Machine, kind: Kind, saved: Machine) {
    && Left1(m, m1.k, saved.contexts) && m.k.exec in m1.k.left
    && saved == (if kind.BySwitch? then Save(m1, kind.slot, ByCall) else m1)
    && (forall p <- m.k.spawns :: p != m.k.exec ==> p in m.k.left)
    && (forall t | Queued(m1.k.cpus)[t] > 0 && t.id == m.k.exec :: Agrees(saved, m.k.exec))
  }

  lemma AtPickFollows(m: Machine, m1: Machine, kind: Kind, saved: Machine, src: Source)
    requires Intact(m) && AtPick(m, m1, kind, saved) && PickSource(m1.k.cpus, 0) == Some(src) && !Pick(m1, kind).astray
    ensures Pick(m1, kind).k == Dispatch(m1.k, kind != ByIrq) && Pick(m1, kind).contexts == saved.contexts
  {
    var t := m1.k.cpus[src.cpu].Band(src.level)[0];
    HeadIsQueued(m1.k.cpus, src);
    assert Queued(m1.k.cpus)[t] > 0;
    LeftAgrees(m, saved, t);
    assert t.id in m1.k.spawns ==> t.id in m1.k.left;
    PickFollows(m1, kind);
  }

  lemma AtPickIntact(m: Machine, m1: Machine, kind: Kind, saved: Machine, src: Source)
    requires Intact(m) && Unborn(m.k) && m.k.exec < m.k.nextId
    requires AtPick(m, m1, kind, saved) && PickSource(m1.k.cpus, 0) == Some(src) && !Pick(m1, kind).astray
    requires Books(Dispatch(m1.k, kind != ByIrq))
    ensures Intact(Pick(m1, kind))
  {
    var m' := Pick(m1, kind);
    AtPickFollows(m, m1, kind, saved, src);
    DispatchTakes(m1.k, kind != ByIrq, src);
    CurrentIsAway(m'.k);
    SwitchedIntact(m, saved, m');
  }

  lemma DispatchTakes(k: State, call: bool, src: Source)
    requires PickSource(k.cpus, 0) == Some(src)
    ensures var k' := Dispatch(k, call);
      && k'.current.Some? && k'.left == k.left && k'.spawns == k.spawns && k'.nextId == k.nextId
      && forall t | Queued(k'.cpus)[t] > 0 :: Queued(k.cpus)[t] > 0
  {
    HeadIsQueued(k.cpus, src);
    var k' := Dispatch(k, call);
    forall t | Queued(k'.cpus)[t] > 0 ensures Queued(k.cpus)[t] > 0 {
      assert Queued(k.cpus)[t] >= Queued(k'.cpus)[t];
    }
  }

  lemma RequeueQueued(k: State)
    requires k.cpus != [] && k.current.Some?
    ensures Queued(Requeue(k).cpus) == Queued(k.cpus) + multiset{k.current.value}
  {
    var c, t := Select(k.cpus), k.current.value;
    PushQueued(k.cpus[c], t);
    ReadyChanges(k.cpus, c, k.cpus[c].Push(t), t);
  }

  /** Suspended spawns have left. */
  ghost predicate SpawnersLeft(k: State) { forall p <- k.spawns :: p != k.exec ==> p in k.left }

  lemma ParkedHaveLeft(k: State)
    requires k.cpus != [] && Balanced(ViewOf(k))
    ensures SpawnersLeft(k)
  {
    assert Parked(ViewOf(k));
  }

  lemma RequeueLeft(m: Machine, k1: State, contexts1: map<nat, Saved>, how: Left)
    requires m.k.cpus != [] && m.k.current.Some? && m.k.current.value.id == m.k.exec
    requires k1 == Requeue(m.k).(left := m.k.left[m.k.exec := how])
    requires contexts1 == m.contexts[m.k.exec := Saved(m.k.exec, Progress(m.k.spawns, m.k.exec), how)]
    ensures Left1(m, k1, contexts1)
  {
    RequeueQueued(m.k);
    forall t | Queued(k1.cpus)[t] > 0 ensures Queued(m.k.cpus)[t] > 0 || t.id == m.k.exec {
      assert Queued(k1.cpus)[t] == Queued(m.k.cpus)[t] + multiset{m.k.current.value}[t];
    }
  }

  /** A timer interrupt with somebody current. */
  lemma TimerAtPick(m: Machine, m1: Machine)
    requires m.k.cpus != [] && m.k.current.Some? && m.k.current.value.id == m.k.exec && SpawnersLeft(m.k)
    requires m1.k == Requeue(m.k).(left := m.k.left[m.k.exec := ByTimer])
    requires m1.contexts == m.contexts[m.k.exec := Saved(m.k.exec, Progress(m.k.spawns, m.k.exec), ByTimer)]
    ensures AtPick(m, m1, ByIrq, m1)
  {
    RequeueLeft(m, m1.k, m1.contexts, ByTimer);
  }

  lemma YieldAtPick(m: Machine, m1: Machine, saved: Machine)
    requires m.k.cpus != [] && m.k.current.Some? && m.k.current.value.id == m.k.exec && SpawnersLeft(m.k)
    requires m1.k == Requeue(m.k).(left := m.k.left[m.k.exec := ByCall]) && m1.contexts == m.contexts
    requires saved == Save(m1, m.k.exec, ByCall)
    ensures AtPick(m, m1, BySwitch(m.k.exec), saved)
  {
    RequeueLeft(m, m1.k, saved.contexts, ByCall);
  }

  /** A finish, or a start: nobody is requeued. */
  lemma LeaveAtPick(m: Machine, m1: Machine, kind: Kind, saved: Machine)
    requires Intact(m) && SpawnersLeft(m.k) && m1.contexts == m.contexts && m1.k.cpus == m.k.cpus
    requires m1.k == m.k.(current := m1.k.current, finished := m1.k.finished, left := m.k.left[m.k.exec := ByCall])
    requires kind == ByStart || kind == BySwitch(m.k.exec)
    requires saved == if kind.BySwitch? then Save(m1, kind.slot, ByCall) else m1
    ensures AtPick(m, m1, kind, saved)
  {
  }

  lemma SavedIntact(m: Machine, astray: bool)
    requires Intact(m) && Unborn(m.k) && m.k.exec < m.k.nextId
    ensures Intact(Save(m, m.k.exec, ByTimer).(astray := astray))
  {
    var m' := Save(m, m.k.exec, ByTimer).(astray := astray);
    forall t | Queued(m.k.cpus)[t] > 0 ensures Agrees(m', t.id) {
      assert Agrees(m, t.id);
    }
  }

  lemma TimerFollows(m: Machine)
    requires Inv(m.k) && Intact(m) && m.k.irqOn && !OnTimer(m).astray
    ensures OnTimer(m).k == SuspendedSpawns.Next(m.k, Timer) && Intact(OnTimer(m))
  {
    if m.k.current.None? {
      SavedIntact(m, m.astray);
    } else {
      var m1 := Noted(Save(m, m.k.exec, ByTimer).(k := Requeue(m.k)), ByTimer);
      ParkedHaveLeft(m.k);
      TimerAtPick(m, m1);
      PicksAtHome(m.k);
      NextInv(m.k, Timer);
      var src := PickSource(m1.k.cpus, 0).value;
      AtPickFollows(m, m1, ByIrq, m1, src);
      AtPickIntact(m, m1, ByIrq, m1, src);
    }
  }

  /** Nobody to dispatch: the caller goes on. */
  lemma NobodyIntact(m: Machine, m': Machine)
    requires Intact(m) && m.k.exec < m.k.nextId && m'.contexts == m.contexts && m'.k.cpus == m.k.cpus
    requires m'.k.left == m.k.left[m.k.exec := ByCall] && m'.k.spawns == m.k.spawns && m'.k.nextId == m.k.nextId
    requires m'.k.exec == m.k.exec && forall p <- m.k.spawns ::
      m.k.spawns[p].Unpushed() ==> m.k.spawns[p].thread.id != m.k.exec
    ensures Intact(m')
  {
    forall t | Queued(m.k.cpus)[t] > 0 ensures Agrees(m', t.id) {
      assert Agrees(m, t.id);
    }
  }

  lemma YieldIs(m: Machine)
    requires m.k.cpus != [] && GivesAway(m.k, Yield) && m.k.current.value.id == m.k.exec
    ensures var m1 := Noted(m.(k := Requeue(m.k)), ByCall);
      Next(m, Yield) == Pick(m1, BySwitch(m.k.exec)) && SuspendedSpawns.Next(m.k, Yield) == Dispatch(m1.k, true)
  {
  }

  lemma YieldFollows(m: Machine)
    requires Inv(m.k) && Intact(m) && GivesAway(m.k, Yield) && !Next(m, Yield).astray
    ensures Next(m, Yield).k == SuspendedSpawns.Next(m.k, Yield) && Intact(Next(m, Yield))
  {
    var m1, kind := Noted(m.(k := Requeue(m.k)), ByCall), BySwitch(m.k.exec);
    YieldIs(m);
    ParkedHaveLeft(m.k);
    YieldAtPick(m, m1, Save(m1, m.k.exec, ByCall));
    PicksAtHome(m.k);
    NextInv(m.k, Yield);
    YieldLands(m, m1, PickSource(m1.k.cpus, 0).value);
  }

  lemma YieldLands(m: Machine, m1: Machine, src: Source)
    requires Intact(m) && Unborn(m.k) && m.k.exec < m.k.nextId && Books(Dispatch(m1.k, true))
    requires AtPick(m, m1, BySwitch(m.k.exec), Save(m1, m.k.exec, ByCall))
    requires PickSource(m1.k.cpus, 0) == Some(src) && !Pick(m1, BySwitch(m.k.exec)).astray
    ensures Pick(m1, BySwitch(m.k.exec)).k == Dispatch(m1.k, true) && Intact(Pick(m1, BySwitch(m.k.exec)))
  {
    AtPickFollows(m, m1, BySwitch(m.k.exec), Save(m1, m.k.exec, ByCall), src);
    AtPickIntact(m, m1, BySwitch(m.k.exec), Save(m1, m.k.exec, ByCall), src);
  }

  /** A finish or a start: the kernel when it picks, and how it switches. */
  function Leaving(m: Machine, a: Action): Machine
    requires GivesAway(m.k, a) && !a.Yield?
  {
    Noted(m.(k := if a.Start? then m.k else Retired(m.k)), ByCall)
  }

  function LeavingBy(k: State, a: Action): Kind { if a.Start? then ByStart else BySwitch(k.exec) }

  lemma LeaveIs(m: Machine, a: Action)
    requires m.k.cpus != [] && GivesAway(m.k, a) && !a.Yield? &&
      (m.k.current.Some? ==> m.k.current.value.id == m.k.exec)
    ensures Next(m, a) == Pick(Leaving(m, a), LeavingBy(m.k, a))
    ensures SuspendedSpawns.Next(m.k, a) == Dispatch(Leaving(m, a).k, true)
  {
  }

  lemma LeaveLands(m: Machine, m1: Machine, kind: Kind)
    requires Intact(m) && Unborn(m.k) && m.k.exec < m.k.nextId && SpawnersLeft(m.k) && Books(Dispatch(m1.k, true))
    requires kind == ByStart || kind == BySwitch(m.k.exec)
    requires m1.contexts == m.contexts && m1.k.cpus == m.k.cpus
    requires m1.k == m.k.(current := m1.k.current, finished := m1.k.finished, left := m.k.left[m.k.exec := ByCall])
    requires !Pick(m1, kind).astray
    ensures Pick(m1, kind).k == Dispatch(m1.k, true) && Intact(Pick(m1, kind))
  {
    var saved := if kind.BySwitch? then Save(m1, kind.slot, ByCall) else m1;
    LeaveAtPick(m, m1, kind, saved);
    var src := PickSource(m1.k.cpus, 0);
    if src.Some? {
      AtPickFollows(m, m1, kind, saved, src.value);
      AtPickIntact(m, m1, kind, saved, src.value);
    } else {
      NobodyIntact(m, Pick(m1, kind));
    }
  }

  lemma LeaveFollows(m: Machine, a: Action)
    requires Inv(m.k) && Intact(m) && GivesAway(m.k, a) && !a.Yield? && !Next(m, a).astray
    ensures Next(m, a).k == SuspendedSpawns.Next(m.k, a) && Intact(Next(m, a))
  {
    LeaveIs(m, a);
    ParkedHaveLeft(m.k);
    NextInv(m.k, a);
    LeaveLands(m, Leaving(m, a), LeavingBy(m.k, a));
  }

  /** Everything but a timer and a call that gives the CPU away is as in SuspendedSpawns by definition. */
  lemma OthersIntact(m: Machine, a: Action)
    requires Intact(m) && Unborn(m.k) && m.k.cpus != [] && !a.Timer? && !GivesAway(m.k, a)
    ensures Intact(m.(k := SuspendedSpawns.Next(m.k, a)))
  {
    if m.k.exec in m.k.spawns {
      if a.Advance? {
        StepIntact(m);
      }
    } else if a.BeginSpawn? && m.k.nextId < MAX_THREADS {
      BeginIntact(m, a.priority);
    } else {
      OnlyMasks(m.k, a);
      MaskIntact(m, SuspendedSpawns.Next(m.k, a).irqOn);
    }
  }

  lemma OnlyMasks(k: State, a: Action)
    requires k.cpus != [] && !a.Timer? && !GivesAway(k, a) && k.exec !in k.spawns
    requires a.BeginSpawn? ==> k.nextId >= MAX_THREADS
    ensures SuspendedSpawns.Next(k, a) == k.(irqOn := SuspendedSpawns.Next(k, a).irqOn)
  {
  }

  lemma NextFollows(m: Machine, a: Action)
    requires Inv(m.k) && Intact(m) && !Next(m, a).astray
    ensures Next(m, a).k == SuspendedSpawns.Next(m.k, a) && Intact(Next(m, a))
  {
    if a.Timer? {
      if m.k.irqOn {
        TimerFollows(m);
      }
    } else if !GivesAway(m.k, a) {
      OthersIntact(m, a);
    } else if a.Yield? {
      YieldFollows(m);
    } else {
      LeaveFollows(m, a);
    }
  }

  /** A run that has not gone astray is a run of SuspendedSpawns. */
  lemma {:induction false} RunFollows(numCpus: nat, actions: seq<Action>)
    requires numCpus > 0 && !Run(Boot(numCpus), actions).astray
    ensures Run(Boot(numCpus), actions).k == SuspendedSpawns.Run(Init(numCpus), actions)
    ensures Intact(Run(Boot(numCpus), actions))
  {
    if actions == [] {
      EmptyUnion(Bags(Init(numCpus).cpus));
    } else {
      var before := actions[..|actions| - 1];
      RunFollows(numCpus, before);
      RunKeeps(numCpus, before);
      NextFollows(Run(Boot(numCpus), before), actions[|actions| - 1]);
    }
  }

  // ---------------------------------------------------------------------------------------------
  // Main results
  // ---------------------------------------------------------------------------------------------

  /** A timer interrupt or a yield, of the current thread. */
  predicate IsSwitch(k: State, a: Action) {
    k.current.Some? && ((a.Timer? && k.irqOn) || (a.Yield? && k.exec !in k.spawns))
  }

  /**
   On any number of CPUs, whatever spawns are suspended wherever, as long as the run has not gone astray: the
   `pick_next(0)` of a timer interrupt or a yield finds, if it returns, a thread of CPU 0 itself.
   */
  lemma {:induction false} SwitchFindsThread(numCpus: nat, actions: seq<Action>, a: Action)
    requires numCpus > 0
    requires var m := Run(Boot(numCpus), actions); !m.astray && IsSwitch(m.k, a)
    ensures var m := Run(Boot(numCpus), actions);
      && PickSource(Requeue(m.k).cpus, 0).Some? && PickSource(Requeue(m.k).cpus, 0).value.cpu == 0
      && Next(m, a).k.current.Some?
  {
    RunFollows(numCpus, actions);
    RunKeeps(numCpus, actions);
    PicksAtHome(Run(Boot(numCpus), actions).k);
    MachineFinds(Run(Boot(numCpus), actions), a);
  }

  lemma MachineFinds(m: Machine, a: Action)
    requires m.k.cpus != [] && IsSwitch(m.k, a) && PickSource(Requeue(m.k).cpus, 0).Some?
    ensures Next(m, a).k.current.Some?
  {
  }

  /**
   And it returns exactly when the linked queue of every band of CPU 0 above the one it takes from has its tail at
   its head. `bands` are the four linked queues as any interleaving of pushes and pops has left them.
   */
  lemma {:induction false} SwitchReturnsIff(numCpus: nat, actions: seq<Action>, a: Action,
                                            bands: seq<seq<B.Q.Action>>, flags: seq<seq<bool>>)
    requires numCpus > 0
    requires var m := Run(Boot(numCpus), actions);
      !m.astray && IsSwitch(m.k, a) && B.Holds(bands, Requeue(m.k).cpus[0])
    requires |flags| == 4 && forall i | 0 <= i < 4 :: B.Ready(bands[i]) && B.Enough(flags[i])
    ensures var k := Run(Boot(numCpus), actions).k; var q := Requeue(k).cpus[0];
      && B.Top(bands) < 4 && q.TopBand() == Some(B.LEVELS[B.Top(bands)]) && q.Band(B.LEVELS[B.Top(bands)]) != []
      && (B.Pick(bands, flags).Returned? <==>
            forall i | 0 <= i < B.Top(bands) :: B.Queue(bands[i]).tail == B.Queue(bands[i]).head)
      && (B.Pick(bands, flags).Returned? ==>
            B.Pick(bands, flags).thread == Some(q.Band(B.LEVELS[B.Top(bands)])[0].id))
  {
    var k := Run(Boot(numCpus), actions).k;
    B.PickOnCpu(Requeue(k).cpus[0], bands, flags);
    RunFollows(numCpus, actions);
    RunKeeps(numCpus, actions);
    RequeueFindsHome(k);
    HomePick(Requeue(k).cpus);
  }

  /** Until it goes astray, each counter lags behind its queues by exactly the spawns pushed and not counted yet. */
  lemma {:induction false} CountersLag(numCpus: nat, actions: seq<Action>)
    requires numCpus > 0 && !Run(Boot(numCpus), actions).astray
    ensures var k := Run(Boot(numCpus), actions).k;
      && (forall c | 0 <= c < numCpus ::
            && k.cpus[c].threadCount + Uncounted(k.spawns, c) == k.cpus[c].Length()
            && Usize(k.cpus[c].threadCount) == k.cpus[c].threadCount % WORD_LIMIT)
      && k.runnable + HowMany(k.spawns, OWING) == |Queued(k.cpus)|
  {
    RunFollows(numCpus, actions);
    SuspendedSpawns.CountersLag(numCpus, actions);
  }

  /** Until it goes astray, a pop's `fetch_sub` wraps round as UnderflowIff of SuspendedSpawns says. */
  lemma {:induction false} UnderflowIff(numCpus: nat, actions: seq<Action>, a: Action, src: Source)
    requires numCpus > 0 && !Run(Boot(numCpus), actions).astray
    requires var before := BeforePick(Run(Boot(numCpus), actions).k, a);
      before.Some? && PickSource(before.value.cpus, 0) == Some(src)
    ensures var k := Run(Boot(numCpus), actions).k; var before := BeforePick(k, a).value;
      && (PopWraps(before.cpus, src.cpu) <==> before.cpus[src.cpu].Length() == Uncounted(k.spawns, src.cpu))
      && (PopWraps(before.cpus, src.cpu) ==> a.Finish? || a.Start?)
  {
    RunFollows(numCpus, actions);
    SuspendedSpawns.UnderflowIff(numCpus, actions, a, src);
  }

  /** Until it goes astray, every thread ever made is in exactly one place, and nothing else is anywhere. */
  lemma {:induction false} EveryThreadInOnePlace(numCpus: nat, actions: seq<Action>, t: Thread)
    requires numCpus > 0 && !Run(Boot(numCpus), actions).astray
    ensures var k := Run(Boot(numCpus), actions).k;
      Queued(k.cpus)[t] + One(k.current == Some(t)) + HowMany(k.spawns, Carrying(t)) + One(t in k.finished) ==
      One(t.id in k.threads && k.threads[t.id] == t.priority)
  {
    RunFollows(numCpus, actions);
    SuspendedSpawns.EveryThreadInOnePlace(numCpus, actions, t);
  }

  // ---------------------------------------------------------------------------------------------
  // A run that goes astray, and loses the CPU
  // ---------------------------------------------------------------------------------------------

  // Two CPUs and two High threads. The first spawns the second and is preempted before it counts it; the second
  // finishes, which resumes the first but leaves the pointers; and the next timer interrupt saves the first to the
  // second's context and resumes it from its own, where it has yet to count. So it counts twice, CPU 0 looks loaded
  // while it is empty, and the timer interrupt after that requeues the first thread where nobody looks for it.

  const FIRST := Thread(1, 255)
  const SECOND := Thread(2, 255)

  /** Two CPUs with High threads only. */
  function HighQueues(band0: seq<Thread>, count0: int, band1: seq<Thread>, count1: int): seq<CpuRunQueue> {
    [CpuRunQueue(band0, [], [], [], count0), CpuRunQueue(band1, [], [], [], count1)]
  }

  lemma {:induction false} Then(actions: seq<Action>, a: Action) returns (more: seq<Action>)
    ensures more == actions + [a] && Run(Boot(2), more) == Next(Run(Boot(2), actions), a)
  {
    more := actions + [a];
    assert more[..|actions|] == actions;
  }

  /** An uninterrupted spawn of a High thread, up to the push, when CPU 0 is empty and counted as such. */
  lemma PushesHigh(m: Machine, t: Thread)
    requires m.k.cpus == HighQueues([], 0, [], 0) && m.k.exec !in m.k.spawns && t == Thread(m.k.nextId, 255)
    requires m.k.nextId < MAX_THREADS
    ensures Next(Next(Next(Next(Next(m, BeginSpawn(255)), Advance), Advance), Advance), Advance) ==
      m.(k := Begin(m.k, 255).(cpus := HighQueues([t], 0, [], 0), spawns := m.k.spawns[m.k.exec := Pushed(0)]))
  {
    ScansHigh(m, t);
    assert [] + [t] == [t];
    assert m.k.cpus[0 := Place(m.k.cpus[0], t)] == HighQueues([t], 0, [], 0);
  }

  lemma ScansHigh(m: Machine, t: Thread)
    requires m.k.cpus == HighQueues([], 0, [], 0) && m.k.exec !in m.k.spawns && t == Thread(m.k.nextId, 255)
    requires m.k.nextId < MAX_THREADS
    ensures var m1 := Next(m, BeginSpawn(255));
      && m1 == m.(k := Begin(m.k, 255))
      && Next(Next(Next(m1, Advance), Advance), Advance) == m1.(k := At(m1.k, Chosen(t, 0)))
  {
    var m1 := Next(m, BeginSpawn(255));
    var m2 := Next(m1, Advance);
    assert m2 == m1.(k := At(m1.k, Scan(t, 1, 0, 0)));
    var m3 := Next(m2, Advance);
    assert m3 == m1.(k := At(m1.k, Scan(t, 2, 0, 0)));
  }

  lemma {:induction false} PushHigh(actions: seq<Action>, t: Thread) returns (more: seq<Action>)
    requires var m := Run(Boot(2), actions);
      && m.k.cpus == HighQueues([], 0, [], 0) && m.k.exec !in m.k.spawns
      && t == Thread(m.k.nextId, 255) && m.k.nextId < MAX_THREADS
    ensures var m := Run(Boot(2), actions);
      Run(Boot(2), more) ==
      m.(k := Begin(m.k, 255).(cpus := HighQueues([t], 0, [], 0), spawns := m.k.spawns[m.k.exec := Pushed(0)]))
  {
    PushesHigh(Run(Boot(2), actions), t);
    more := Then(actions, BeginSpawn(255));
    more := Then(more, Advance);
    more := Then(more, Advance);
    more := Then(more, Advance);
    more := Then(more, Advance);
  }

  /** And its two counts. */
  lemma CountsHigh(m: Machine, band: seq<Thread>, count: int)
    requires m.k.cpus == HighQueues(band, count, [], 0) && m.k.exec in m.k.spawns && m.k.spawns[m.k.exec] == Pushed(0)
    ensures Next(Next(m, Advance), Advance) ==
      m.(k := m.k.(cpus := HighQueues(band, count + 1, [], 0), runnable := m.k.runnable + 1,
        spawns := m.k.spawns - {m.k.exec}))
  {
    assert CountOne(m.k.cpus, 0) == HighQueues(band, count + 1, [], 0);
    var m1 := Next(m, Advance);
    assert m1 == m.(k := m.k.(cpus := HighQueues(band, count + 1, [], 0), spawns := m.k.spawns[m.k.exec := Counted]));
    assert m1.k.spawns - {m.k.exec} == m.k.spawns - {m.k.exec};
  }

  lemma {:induction false} CountHigh(actions: seq<Action>, band: seq<Thread>, count: int) returns (more: seq<Action>)
    requires var m := Run(Boot(2), actions);
      m.k.cpus == HighQueues(band, count, [], 0) && m.k.exec in m.k.spawns && m.k.spawns[m.k.exec] == Pushed(0)
    ensures var m := Run(Boot(2), actions);
      Run(Boot(2), more) == m.(k := m.k.(cpus := HighQueues(band, count + 1, [], 0), runnable := m.k.runnable + 1,
                                         spawns := m.k.spawns - {m.k.exec}))
  {
    CountsHigh(Run(Boot(2), actions), band, count);
    more := Then(actions, Advance);
    more := Then(more, Advance);
  }

  lemma FirstStarts() returns (actions: seq<Action>)
    ensures Run(Boot(2), actions) == Machine(
      State(1, Some(FIRST), HighQueues([], 0, [], 0), 0, map[], true, map[0 := ByCall], 2, map[1 := 255], {}),
      map[], Some(1), false)
  {
    assert Boot(2).k.cpus == HighQueues([], 0, [], 0);
    actions := PushHigh([], FIRST);
    actions := CountHigh(actions, [FIRST], 0);
    assert Run(Boot(2), actions) == Machine(
      State(0, None, HighQueues([FIRST], 1, [], 0), 1, map[], false, map[], 2, map[1 := 255], {}), map[], None, false);
    assert [FIRST][1..] == [];
    actions := Then(actions, Start);
    actions := Then(actions, SetMask(true));
  }

  lemma FirstPushes() returns (actions: seq<Action>)
    ensures Run(Boot(2), actions) == Machine(
      State(1, Some(FIRST), HighQueues([SECOND], 0, [], 0), 0, map[1 := Pushed(0)], true,
            map[0 := ByCall], 3, map[1 := 255, 2 := 255], {}), map[], Some(1), false)
  {
    actions := FirstStarts();
    actions := PushHigh(actions, SECOND);
  }

  /** The timer interrupt that suspends the first thread in its spawn. */
  lemma Preempts(m: Machine)
    requires m.k.exec == 1 && m.k.current == Some(FIRST) && m.k.cpus == HighQueues([SECOND], 0, [], 0)
    requires m.k.irqOn && m.irq == Some(1) && m.contexts == map[] && !m.astray
    ensures Next(m, Timer) == m.(
      k := m.k.(exec := 2, current := Some(SECOND), cpus := HighQueues([FIRST], 0, [], 0), irqOn := false,
                left := m.k.left[1 := ByTimer]),
      contexts := map[1 := Saved(1, Progress(m.k.spawns, 1), ByTimer)], irq := Some(2))
  {
    assert Requeue(m.k).cpus == HighQueues([SECOND, FIRST], 1, [], 0) by {
      assert Select(m.k.cpus) == 0;
      assert [SECOND] + [FIRST] == [SECOND, FIRST];
    }
    assert [SECOND, FIRST][1..] == [FIRST];
    assert PickSource(Requeue(m.k).cpus, 0) == Some(Source(0, High));
    assert Requeue(m.k).cpus[0 := Requeue(m.k).cpus[0].Pop(High)] == HighQueues([FIRST], 0, [], 0);
  }

  lemma FirstIsPreempted() returns (actions: seq<Action>)
    ensures Run(Boot(2), actions) == Machine(
      State(2, Some(SECOND), HighQueues([FIRST], 0, [], 0), 0, map[1 := Pushed(0)], false,
            map[0 := ByCall, 1 := ByTimer], 3, map[1 := 255, 2 := 255], {}),
      map[1 := Saved(1, Some(Pushed(0)), ByTimer)], Some(2), false)
  {
    actions := FirstPushes();
    Preempts(Run(Boot(2), actions));
    actions := Then(actions, Timer);
  }

  /** The finish that resumes it, and leaves the pointers where they are. */
  lemma Resumes(m: Machine)
    requires m.k.exec == 2 && m.k.current == Some(SECOND) && m.k.cpus == HighQueues([FIRST], 0, [], 0)
    requires m.k.spawns == map[1 := Pushed(0)] && m.contexts == map[1 := Saved(1, Some(Pushed(0)), ByTimer)] &&
      !m.astray
    ensures Next(m, Finish) == m.(
      k := m.k.(exec := 1, current := Some(FIRST), cpus := HighQueues([], -1, [], 0), runnable := m.k.runnable - 1,
                irqOn := false, left := m.k.left[2 := ByCall], finished := m.k.finished + {SECOND}),
      contexts := m.contexts[2 := Saved(2, None, ByCall)])
  {
    assert [FIRST][1..] == [];
    assert PickSource(m.k.cpus, 0) == Some(Source(0, High));
    assert m.k.cpus[0 := m.k.cpus[0].Pop(High)] == HighQueues([], -1, [], 0);
    assert Resumed(m.k.spawns, 1, Some(Pushed(0))) == m.k.spawns;
  }

  lemma SecondFinishes() returns (actions: seq<Action>)
    ensures Run(Boot(2), actions) == Machine(
      State(1, Some(FIRST), HighQueues([], -1, [], 0), -1, map[1 := Pushed(0)], false,
            map[0 := ByCall, 1 := ByTimer, 2 := ByCall], 3, map[1 := 255, 2 := 255], {SECOND}),
      map[1 := Saved(1, Some(Pushed(0)), ByTimer), 2 := Saved(2, None, ByCall)], Some(2), false)
  {
    actions := FirstIsPreempted();
    Resumes(Run(Boot(2), actions));
    actions := Then(actions, Finish);
  }

  /** Up to here nothing has gone astray, and yet CPU 0's counter has wrapped round. */
  lemma CountCanWrap() returns (actions: seq<Action>)
    ensures var m := Run(Boot(2), actions);
      !m.astray && m.k.cpus[0].threadCount % WORD_LIMIT == WORD_LIMIT - 1 && m.k.cpus[0].Length() == 0
  {
    actions := SecondFinishes();
  }

  lemma FirstCounts() returns (actions: seq<Action>)
    ensures Run(Boot(2), actions) == Machine(
      State(1, Some(FIRST), HighQueues([], 0, [], 0), 0, map[], true,
            map[0 := ByCall, 1 := ByTimer, 2 := ByCall], 3, map[1 := 255, 2 := 255], {SECOND}),
      map[1 := Saved(1, Some(Pushed(0)), ByTimer), 2 := Saved(2, None, ByCall)], Some(2), false)
  {
    actions := SecondFinishes();
    actions := CountHigh(actions, [], -1);
    actions := Then(actions, SetMask(true));
  }

  /** What a timer interrupt does that finds the first thread alone, and the pointers on the second. */
  lemma SendsBack(m: Machine)
    requires m.k.exec == 1 && m.k.current == Some(FIRST) && m.k.cpus == HighQueues([], 0, [], 0) && m.k.spawns == map[]
    requires m.k.irqOn && m.irq == Some(2) && 1 in m.contexts && m.contexts[1] == Saved(1, Some(Pushed(0)), ByTimer)
    ensures Next(m, Timer) == m.(
      k := m.k.(spawns := map[1 := Pushed(0)], left := m.k.left[1 := ByTimer]),
      contexts := m.contexts[2 := Saved(1, None, ByTimer)], irq := Some(1), astray := true)
  {
    assert Requeue(m.k).cpus == HighQueues([FIRST], 1, [], 0) by {
      assert Select(m.k.cpus) == 0;
      assert [] + [FIRST] == [FIRST];
    }
    assert [FIRST][1..] == [];
    assert PickSource(Requeue(m.k).cpus, 0) == Some(Source(0, High));
    assert Requeue(m.k).cpus[0 := Requeue(m.k).cpus[0].Pop(High)] == m.k.cpus;
    var spawns: map<nat, SpawnPc> := map[];
    assert Resumed(spawns, 1, Some(Pushed(0))) == map[1 := Pushed(0)];
  }

  /** The first thread alone on the CPU, the pointers right, CPU 0 empty with this count. */
  predicate Alone(m: Machine, count: int) {
    && m.k.exec == 1 && m.k.current == Some(FIRST) && m.k.cpus == HighQueues([], count, [], 0)
    && m.k.irqOn && m.irq == Some(1) && m.astray
  }

  lemma FirstIsSentBack() returns (actions: seq<Action>)
    ensures Alone(Run(Boot(2), actions), 0) && Run(Boot(2), actions).k.spawns == map[1 := Pushed(0)]
  {
    actions := FirstCounts();
    SendsBack(Run(Boot(2), actions));
    actions := Then(actions, Timer);
  }

  lemma CountsAgain(m: Machine)
    requires Alone(m, 0) && m.k.spawns == map[1 := Pushed(0)]
    ensures var m' := Next(Next(m, Advance), Advance); Alone(m', 1) && m'.k.spawns == map[]
  {
    CountsHigh(m, [], 0);
  }

  /** One push has been counted twice, and the next timer interrupt leaves the kernel without a current thread. */
  lemma AstrayCanLoseTheCpu() returns (actions: seq<Action>)
    ensures var m := Run(Boot(2), actions);
      && m.astray && m.k.spawns == map[] && m.k.cpus[0].threadCount == 1 && m.k.cpus[0].Length() == 0
      && IsSwitch(m.k, Timer) && m.irq == Some(m.k.exec) && Next(m, Timer).k.current.None?
  {
    actions := FirstIsSentBack();
    CountsAgain(Run(Boot(2), actions));
    actions := Then(actions, Advance);
    actions := Then(actions, Advance);
    LosesTheCpu(Run(Boot(2), actions));
  }

  lemma LosesTheCpu(m: Machine)
    requires m.k.cpus == HighQueues([], 1, [], 0) && m.k.current == Some(FIRST) && m.k.irqOn && m.irq.Some?
    ensures Next(m, Timer).k.current.None?
  {
    assert Requeue(m.k).cpus == HighQueues([], 1, [FIRST], 1) by {
      assert Select(m.k.cpus) == 1;
      assert [] + [FIRST] == [FIRST];
    }
    assert Victim(HighQueues([], 1, [FIRST], 1), 0, 1) == None;
    assert PickSource(Requeue(m.k).cpus, 0) == None;
  }
}
