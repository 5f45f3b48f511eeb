/**
 The `current_thread` lock, the interrupt mask and the IRQ context pointers of src/kernel.rs, instruction
 by instruction: one CPU, cooperative calls suspended and resumed at any point where an interrupt can be
 taken, and a timer handler that only tries the lock. The scheduler may pick any ready thread, or none,
 except that after an enqueue it always finds one (module SuspendedSpawns).

 Registers are not modelled here, but where they go is: every context records whose registers it holds and
 from when. An interrupt saves through IRQ_SAVE_CTX and loads through IRQ_LOAD_CTX, whatever they name.

 Id 0 is the boot context.
 */
module LockDiscipline {
  import opened Options

  datatype Call = Start | Yield | Finish

  /** Where a thread stands in the kernel. */
  datatype Pc =
    | User                              // outside the kernel, or inside `spawn`, which takes no lock
    | Mask(call: Call)                  // about to disable interrupts
    | Lock(call: Call)                  // about to call `lock()`
    | Body(call: Call)                  // holds the guard, about to look at the current thread
    | Handoff(next: nat, first: bool)   // guard updated, about to drop it
    | Jump(next: nat, first: bool)      // guard dropped, about to context_switch
    | Resume                            // returned from context_switch, about to enable interrupts
    | UnmaskHeld                        // nothing to run: about to enable interrupts, guard still alive
    | DropHeld                          // interrupts on, guard about to go out of scope
    | DropFirst                         // no current thread: about to drop the guard
    | UnmaskLast                        // guard dropped, about to enable interrupts

  /**
   How a context was written: by `setup_initial_context`, by `context_switch`, or by the interrupt entry code.
   The last two do not understand each other. `context_switch` jumps through x11, which an interrupted thread
   may be using, and leaves the mask set; and in the status word it stored only the flags, so that an exception
   return through it goes to EL0. Either may load an initial context: a function does not read x11 on entry.
   */
  datatype Form = Initial | ByCall | ByIrq

  /** The registers of `owner` as they were at `time`. */
  datatype Saved = Saved(owner: nat, time: nat, form: Form)

  /** Whether a context of this form can be loaded by an interrupt return, or by `context_switch`. */
  predicate Loads(form: Form, byIrq: bool) { if byIrq then form != ByCall else form != ByIrq }

  /**
   Stopped: an interrupt returned through a null IRQ_LOAD_CTX, into `b .`.
   Astray: a thread was not given back the registers it left with. Neither is followed any further.
   */
  datatype Cpu = Running | Stopped | Astray

  datatype State = State(
    exec: nat,                   // who has the CPU
    pcs: map<nat, Pc>,
    lock: Option<nat>,           // who holds the guard
    irqOn: bool,
    current: Option<nat>,        // what the guard protects
    ready: set<nat>,
    contexts: map<nat, Saved>,   // each thread's context
    irqSave: Option<nat>,        // whose context IRQ_SAVE_CTX names
    irqLoad: Option<nat>,        // whose context IRQ_LOAD_CTX names
    cpu: Cpu,
    // ---- history ----
    clock: nat,
    left: map<nat, Saved>,       // the registers a thread last left the CPU with, or was spawned with
    finished: set<nat>)

  datatype Action =
    | Enter(call: Call)
    | SetMask(on: bool)
    | Spawn(id: nat)
    | Advance(pick: nat)              // the running thread's next kernel step
    | Irq(timer: bool, pick: nat)

  /** Booting: interrupts masked, nobody current, no context registered. */
  function Boot(): State {
    State(0, map[0 := User], None, false, None, {}, map[], None, None, Running, 0, map[], {})
  }

  function At(s: State, pc: Pc): State { s.(pcs := s.pcs[s.exec := pc]) }

  /** The context of `t` holds the registers `t` left with. */
  predicate Right(s: State, t: nat) { t in s.contexts && t in s.left && s.contexts[t] == s.left[t] }

  /** Control goes to whatever the context of `t` holds, loaded the one way or the other. */
  function GiveTo(s: State, t: nat, byIrq: bool): State {
    if Right(s, t) && Loads(s.contexts[t].form, byIrq) then s.(exec := t) else s.(cpu := Astray)
  }

  /** `pick_next`, after which the guard names the picked thread. */
  function PickInto(s: State, pick: nat, first: bool): State {
    if pick in s.ready
    then At(s.(ready := s.ready - {pick}, current := Some(pick)), Handoff(pick, first))
    else At(s.(current := None), UnmaskHeld)
  }

  function StepBody(s: State, call: Call, pick: nat): State {
    match call
    case Start => if s.current.Some? then At(s, UnmaskHeld) else PickInto(s, pick, true)
    case Yield =>
      if s.current.None? then At(s, DropFirst)
      else
        var queued := s.(ready := s.ready + {s.current.value});
        if pick in queued.ready then PickInto(queued, pick, false) else s
    case Finish =>
      if s.current.None? then At(s, DropFirst)
      else PickInto(s.(finished := s.finished + {s.current.value}), pick, false)
  }

  /**
   `context_switch`. The first start saves to a throw-away context and sets both pointers.
   */
  function StepJump(s: State, next: nat, first: bool): State {
    var regs := Saved(s.exec, s.clock, ByCall);
    var away := At(s, Resume).(left := s.left[s.exec := regs]);
    GiveTo(if first then away.(irqSave := Some(next), irqLoad := Some(next))
           else away.(contexts := s.contexts[s.exec := regs]), next, false)
  }

  function StepKernel(s: State, pick: nat): State
    requires s.exec in s.pcs
  {
    match s.pcs[s.exec]
    case User => s
    case Mask(call) => At(s.(irqOn := false), Lock(call))
    case Lock(call) => if s.lock.None? then At(s.(lock := Some(s.exec)), Body(call)) else s
    case Body(call) => StepBody(s, call, pick)
    case Handoff(next, first) => At(s.(lock := None), Jump(next, first))
    case Jump(next, first) => StepJump(s, next, first)
    case Resume => At(s.(irqOn := true), User)
    case UnmaskHeld => At(s.(irqOn := true), DropHeld)
    case DropHeld => At(s.(lock := None), User)
    case DropFirst => At(s.(lock := None), UnmaskLast)
    case UnmaskLast => At(s.(irqOn := true), User)
  }

  /** The entry code saves the running thread wherever IRQ_SAVE_CTX points. */
  function Entry(s: State): State {
    if s.irqSave.None? then s
    else s.(contexts := s.contexts[s.irqSave.value := Saved(s.exec, s.clock, ByIrq)])
  }

  /** Whether an interrupt switches threads: a timer, the lock free, somebody current. */
  predicate Rotates(s: State, timer: bool) { timer && s.lock.None? && s.current.Some? }

  /** An interrupt that switches: save, requeue, pick, repoint both, load. */
  function StepSwitch(s: State, pick: nat): State
    requires s.current.Some?
  {
    var s1 := Entry(s).(
      ready := s.ready + {s.current.value} - {pick}, current := Some(pick),
      left := s.left[s.exec := Saved(s.exec, s.clock, ByIrq)], irqSave := Some(pick), irqLoad := Some(pick));
    GiveTo(s1, pick, true).(irqOn := pick in s1.contexts && s1.contexts[pick].form == ByIrq)
  }

  /** An interrupt that does not: save, and load through the other pointer. */
  function StepReturn(s: State): State {
    var s1 := Entry(s);
    if s.irqLoad.None? then s1.(cpu := Stopped)
    else if s.irqLoad.value in s1.contexts && s1.contexts[s.irqLoad.value] == Saved(s.exec, s.clock, ByIrq) then s1
    else s1.(cpu := Astray)
  }

  /** An interrupt, handled with interrupts masked and so in one step. */
  function StepIrq(s: State, timer: bool, pick: nat): State {
    if !s.irqOn then s
    else if !Rotates(s, timer) then StepReturn(s)
    else if pick in s.ready + {s.current.value} then StepSwitch(s, pick)
    else s
  }

  function Act(s: State, a: Action): State
    requires s.exec in s.pcs
  {
    match a
    case Enter(call) => if s.pcs[s.exec].User? then At(s, Mask(call)) else s
    case SetMask(on) => if s.pcs[s.exec].User? then s.(irqOn := on) else s
    case Spawn(id) => if s.pcs[s.exec].User? && id !in s.pcs then Spawned(s, id) else s
    case Advance(pick) => StepKernel(s, pick)
    case Irq(timer, pick) => StepIrq(s, timer, pick)
  }

  /** The initial status word masks interrupts. */
  function Spawned(s: State, id: nat): State {
    var regs := Saved(id, s.clock, Initial);
    s.(pcs := s.pcs[id := User], contexts := s.contexts[id := regs], left := s.left[id := regs],
      ready := s.ready + {id})
  }

  function Next(s: State, a: Action): State {
    if s.exec !in s.pcs || !s.cpu.Running? then s else Act(s, a).(clock := s.clock + 1)
  }

  function Run(s: State, actions: seq<Action>): State {
    if actions == [] then s else Next(Run(s, actions[..|actions| - 1]), actions[|actions| - 1])
  }

  // ---------------------------------------------------------------------------------------------
  // What every step keeps
  // ---------------------------------------------------------------------------------------------

  /** Program points at which the guard is alive. */
  predicate Holding(pc: Pc) { pc.Body? || pc.Handoff? || pc.UnmaskHeld? || pc.DropHeld? || pc.DropFirst? }

  /** Program points at which a thread can be off the CPU. */
  predicate Parked(pc: Pc) { pc.User? || pc.Mask? || pc.Resume? }

  /** The guard has been given to `next` but the CPU has not. */
  predicate Between(pc: Pc) { pc.Handoff? || pc.Jump? }

  ghost predicate Known(s: State) {
    && s.exec in s.pcs
    && (forall t <- s.ready :: t in s.pcs)
    && (s.current.Some? ==> s.current.value in s.pcs)
    && (forall t <- s.pcs :: t != s.exec ==> Parked(s.pcs[t]))
  }

  /** Contexts exist for every spawned thread, and nothing in them or in the history is from the future. */
  ghost predicate Stamped(s: State) {
    && (forall t <- s.contexts :: t in s.pcs && s.contexts[t].time < s.clock)
    && (forall t <- s.left :: s.left[t].owner == t)
    && (forall t <- s.ready :: t in s.contexts && t in s.left)
    && (s.irqSave.Some? ==> s.irqSave.value in s.contexts)
  }

  /** A thread with the CPU is not queued, except while it hands over. */
  ghost predicate Placed(s: State, pc: Pc) {
    if Between(pc)
    then s.current == Some(pc.next) && pc.next in s.contexts && pc.next in s.left && pc.next !in s.ready
         && (pc.first ==> s.exec !in s.ready && pc.next != s.exec)
    else (s.current == None || s.current == Some(s.exec)) && s.exec !in s.ready
  }

  ghost predicate Inv(s: State) {
    && Known(s)
    && var pc := s.pcs[s.exec];
       && s.lock == (if Holding(pc) then Some(s.exec) else None)
       && (s.irqOn ==> Parked(pc) || pc.DropHeld?)
       && s.irqSave == s.irqLoad
       && (!s.cpu.Astray? ==>
             && Stamped(s) && Placed(s, pc)
             && (s.current.Some? && !(Between(pc) && pc.first) ==>
                   s.irqLoad.Some? && s.exec in s.contexts && s.exec in s.left))
  }

  lemma StepBodyKeeps(s: State, call: Call, pick: nat)
    requires Inv(s) && s.cpu.Running? && s.pcs[s.exec] == Body(call)
    ensures Inv(StepBody(s, call, pick).(clock := s.clock + 1))
  {
    TickKeeps(s);
    if s.current.Some? && call.Start? {
      MoveKeeps(s, UnmaskHeld, s.lock, s.irqOn);
    } else if s.current.None? && !call.Start? {
      MoveKeeps(s, DropFirst, s.lock, s.irqOn);
    } else {
      PickIntoKeeps(s, call, pick);
    }
  }

  lemma PickIntoKeeps(s: State, call: Call, pick: nat)
    requires Inv(s) && s.cpu.Running? && s.pcs[s.exec] == Body(call) && s.current.None? == call.Start?
    ensures call == Start ==> Inv(PickInto(s, pick, true).(clock := s.clock + 1))
    ensures call == Finish ==> Inv(PickInto(s.(finished := s.finished + {s.exec}), pick, false).(clock := s.clock + 1))
    ensures call == Yield && pick in s.ready + {s.exec} ==>
      Inv(PickInto(s.(ready := s.ready + {s.exec}), pick, false).(clock := s.clock + 1))
  {
  }

  lemma FirstJumpKeeps(s: State, next: nat)
    requires Inv(s) && s.cpu.Running? && s.pcs[s.exec] == Jump(next, true)
    ensures Inv(StepJump(s, next, true).(clock := s.clock + 1))
  {
  }

  lemma JumpKeeps(s: State, next: nat)
    requires Inv(s) && s.cpu.Running? && s.pcs[s.exec] == Jump(next, false)
    ensures Inv(StepJump(s, next, false).(clock := s.clock + 1))
  {
  }

  /** A step that only moves the running thread on, with the lock and the mask. */
  lemma MoveKeeps(s: State, pc': Pc, lock': Option<nat>, irqOn': bool)
    requires Inv(s) && s.cpu.Running?
    requires var pc := s.pcs[s.exec];
      if Between(pc) then pc.Handoff? && pc' == Jump(pc.next, pc.first) else !Between(pc')
    requires lock' == (if Holding(pc') then Some(s.exec) else None)
    requires irqOn' ==> Parked(pc') || pc'.DropHeld?
    ensures Inv(At(s, pc').(lock := lock', irqOn := irqOn', clock := s.clock + 1))
  {
  }

  lemma HeldMovesKeep(s: State, pick: nat)
    requires Inv(s) && s.cpu.Running?
    requires var pc := s.pcs[s.exec]; pc.Handoff? || pc.UnmaskHeld? || pc.DropHeld? || pc.DropFirst?
    ensures Inv(StepKernel(s, pick).(clock := s.clock + 1))
  {
    match s.pcs[s.exec]
    case Handoff(next, first) => MoveKeeps(s, Jump(next, first), None, s.irqOn);
    case UnmaskHeld => MoveKeeps(s, DropHeld, Some(s.exec), true);
    case DropHeld => MoveKeeps(s, User, None, s.irqOn);
    case DropFirst => MoveKeeps(s, UnmaskLast, None, s.irqOn);
  }

  lemma FreeMovesKeep(s: State, pick: nat)
    requires Inv(s) && s.cpu.Running?
    requires var pc := s.pcs[s.exec]; pc.Mask? || pc.Lock? || pc.Resume? || pc.UnmaskLast?
    ensures Inv(StepKernel(s, pick).(clock := s.clock + 1))
  {
    match s.pcs[s.exec]
    case Mask(call) => MoveKeeps(s, Lock(call), None, false);
    case Lock(call) => MoveKeeps(s, Body(call), Some(s.exec), s.irqOn);
    case Resume => MoveKeeps(s, User, None, true);
    case UnmaskLast => MoveKeeps(s, User, None, true);
  }

  lemma StepKernelKeeps(s: State, pick: nat)
    requires Inv(s) && s.cpu.Running?
    ensures Inv(StepKernel(s, pick).(clock := s.clock + 1))
  {
    match s.pcs[s.exec]
    case User => TickKeeps(s);
    case Body(call) => StepBodyKeeps(s, call, pick);
    case Jump(next, first) => if first { FirstJumpKeeps(s, next); } else { JumpKeeps(s, next); }
    case Handoff(_, _) => HeldMovesKeep(s, pick);
    case UnmaskHeld => HeldMovesKeep(s, pick);
    case DropHeld => HeldMovesKeep(s, pick);
    case DropFirst => HeldMovesKeep(s, pick);
    case _ => FreeMovesKeep(s, pick);
  }

  lemma StepSwitchKeeps(s: State, pick: nat)
    requires Inv(s) && s.cpu.Running? && s.irqOn && s.lock.None? && s.current.Some?
    requires pick in s.ready + {s.current.value}
    ensures Inv(StepSwitch(s, pick).(clock := s.clock + 1))
  {
  }

  lemma StepReturnKeeps(s: State)
    requires Inv(s) && s.cpu.Running? && s.irqOn
    ensures Inv(StepReturn(s).(clock := s.clock + 1)) && !StepReturn(s).cpu.Astray?
  {
  }

  lemma SpawnedKeeps(s: State, id: nat)
    requires Inv(s) && s.cpu.Running? && s.pcs[s.exec].User? && id !in s.pcs
    ensures Inv(Spawned(s, id).(clock := s.clock + 1))
  {
  }

  lemma StepIrqKeeps(s: State, timer: bool, pick: nat)
    requires Inv(s) && s.cpu.Running?
    ensures Inv(StepIrq(s, timer, pick).(clock := s.clock + 1))
  {
    if s.irqOn && !Rotates(s, timer) {
      StepReturnKeeps(s);
    } else if s.irqOn && pick in s.ready + {s.current.value} {
      StepSwitchKeeps(s, pick);
    } else {
      TickKeeps(s);
    }
  }

  lemma TickKeeps(s: State)
    requires Inv(s)
    ensures Inv(s.(clock := s.clock + 1))
  {
  }

  lemma UserKeeps(s: State, a: Action)
    requires Inv(s) && s.cpu.Running? && !a.Advance? && !a.Irq?
    ensures Inv(Act(s, a).(clock := s.clock + 1))
  {
    TickKeeps(s);
    if s.pcs[s.exec].User? {
      assert At(s, User) == s;
      match a
      case Enter(call) => MoveKeeps(s, Mask(call), None, s.irqOn);
      case SetMask(on) => MoveKeeps(s, User, None, on);
      case Spawn(id) => if id !in s.pcs { SpawnedKeeps(s, id); }
    }
  }

  lemma NextKeeps(s: State, a: Action)
    requires Inv(s)
    ensures Inv(Next(s, a))
  {
    if s.cpu.Running? {
      match a
      case Advance(pick) => StepKernelKeeps(s, pick);
      case Irq(timer, pick) => StepIrqKeeps(s, timer, pick);
      case _ => UserKeeps(s, a);
    }
  }

  lemma {:induction false} RunKeeps(actions: seq<Action>)
    ensures Inv(Run(Boot(), actions))
  {
    if actions != [] {
      RunKeeps(actions[..|actions| - 1]);
      NextKeeps(Run(Boot(), actions[..|actions| - 1]), actions[|actions| - 1]);
    }
  }

  // ---------------------------------------------------------------------------------------------
  // The lock
  // ---------------------------------------------------------------------------------------------

  /**
   In every interleaving of cooperative calls and interrupts: only the thread on the CPU can hold the
   lock, `lock()` never finds it taken, every parked thread is outside the locked region, and, as long as
   the CPU has not gone astray, wherever an interrupt can be taken the kernel's current thread is the one on
   the CPU, or none.
   */
  lemma {:induction false} LockNeverLeftBehind(actions: seq<Action>)
    ensures var s := Run(Boot(), actions);
      && s.exec in s.pcs
      && (s.lock.Some? ==> s.lock.value == s.exec)
      && (s.pcs[s.exec].Lock? ==> s.lock.None?)
      && (forall t | t in s.pcs && t != s.exec :: !Holding(s.pcs[t]))
      && (s.irqOn && !s.cpu.Astray? ==> s.current == None || s.current == Some(s.exec))
  {
    RunKeeps(actions);
  }

  // ---------------------------------------------------------------------------------------------
  // Nobody is lost, and every call comes to an end
  // ---------------------------------------------------------------------------------------------

  /** A spawned thread is ready, current or finished, and only one of these. */
  predicate Placeable(s: State, t: nat) {
    || (t in s.ready && s.current != Some(t) && t !in s.finished)
    || (t !in s.ready && s.current == Some(t) && t !in s.finished)
    || (t !in s.ready && s.current != Some(t) && t in s.finished)
  }

  ghost predicate AllPlaced(s: State) {
    && (forall t <- s.pcs :: t != 0 ==> Placeable(s, t))
    && (forall t <- s.finished :: t in s.pcs)
  }

  /** Nothing changes place. */
  lemma PlacesStay(s: State, s': State)
    requires AllPlaced(s) && s'.pcs.Keys == s.pcs.Keys
    requires s'.ready == s.ready && s'.current == s.current && s'.finished == s.finished
    ensures AllPlaced(s')
  {
    forall t | t in s'.pcs && t != 0 ensures Placeable(s', t) {
      assert Placeable(s, t);
    }
  }

  /** The current thread, if any, is put back or finished, and `pick`, if it is ready, becomes current. */
  lemma PlacesMove(s: State, s': State, back: bool, done: bool, pick: nat)
    requires AllPlaced(s) && s'.pcs.Keys == s.pcs.Keys && back == (s.current.Some? && !done) &&
      (done ==> s.current.Some?)
    requires s.current.Some? ==> s.current.value in s.pcs && s.current.value != 0
    requires var ready := s.ready + (if back then {s.current.value} else {});
      if pick in ready then s'.ready == ready - {pick} && s'.current == Some(pick)
      else s'.ready == ready && s'.current == None
    requires s'.finished == s.finished + if done then {s.current.value} else {}
    ensures AllPlaced(s')
  {
    forall t | t in s'.pcs && t != 0 ensures Placeable(s', t) {
      assert Placeable(s, t);
      assert s.current.Some? ==> Placeable(s, s.current.value);
    }
  }

  lemma BodyPlaced(s: State, call: Call, pick: nat)
    requires AllPlaced(s) && Inv(s) && s.exec != 0 && s.cpu.Running? && s.pcs[s.exec] == Body(call)
    ensures AllPlaced(StepBody(s, call, pick))
  {
    var s' := StepBody(s, call, pick);
    assert s'.pcs.Keys == s.pcs.Keys;
    if (call.Start? && s.current.Some?) || (!call.Start? && s.current.None?) {
      PlacesStay(s, s');
    } else if call.Yield? && pick !in s.ready + {s.current.value} {
      PlacesStay(s, s');
    } else {
      PlacesMove(s, s', call.Yield?, call.Finish?, pick);
    }
  }

  lemma BootBodyPlaced(s: State, call: Call, pick: nat)
    requires AllPlaced(s) && Inv(s) && s.exec == 0 && s.current != Some(0) && s.cpu.Running? && s.pcs[0] == Body(call)
    ensures AllPlaced(StepBody(s, call, pick))
  {
    var s' := StepBody(s, call, pick);
    assert s'.pcs.Keys == s.pcs.Keys;
    if call.Start? {
      PlacesMove(s, s', false, false, pick);
    } else {
      PlacesStay(s, s');
    }
  }

  lemma KernelPlaced(s: State, pick: nat)
    requires AllPlaced(s) && Inv(s) && s.current != Some(0) && s.cpu.Running?
    ensures AllPlaced(StepKernel(s, pick))
  {
    var pc := s.pcs[s.exec];
    if pc.Body? {
      if s.exec == 0 {
        BootBodyPlaced(s, pc.call, pick);
      } else {
        BodyPlaced(s, pc.call, pick);
      }
    } else {
      KernelStays(s, pick);
      PlacesStay(s, StepKernel(s, pick));
    }
  }

  lemma KernelStays(s: State, pick: nat)
    requires s.exec in s.pcs && !s.pcs[s.exec].Body?
    ensures var s' := StepKernel(s, pick);
      s'.pcs.Keys == s.pcs.Keys && s'.ready == s.ready && s'.current == s.current && s'.finished == s.finished
  {
    if s.pcs[s.exec].Jump? {
      JumpStays(s, s.pcs[s.exec].next, s.pcs[s.exec].first);
    } else {
      assert StepKernel(s, pick).pcs.Keys == s.pcs.Keys;
    }
  }

  lemma JumpStays(s: State, next: nat, first: bool)
    requires s.exec in s.pcs
    ensures var s' := StepJump(s, next, first);
      s'.pcs.Keys == s.pcs.Keys && s'.ready == s.ready && s'.current == s.current && s'.finished == s.finished
  {
  }

  lemma NextPlaced(s: State, a: Action)
    requires AllPlaced(s) && Inv(s) && s.current != Some(0) && 0 !in s.ready && 0 in s.pcs
    ensures AllPlaced(Next(s, a))
  {
    if s.cpu.Running? {
      var s' := Act(s, a);
      match a
      case Advance(pick) => KernelPlaced(s, pick);
      case Irq(timer, pick) => IrqPlaced(s, timer, pick);
      case Spawn(id) =>
        if s.pcs[s.exec].User? && id !in s.pcs {
          SpawnPlaced(s, id);
        }
      case _ => PlacesStay(s, s');
      PlacesStay(s', s'.(clock := s.clock + 1));
    }
  }

  lemma IrqPlaced(s: State, timer: bool, pick: nat)
    requires AllPlaced(s) && Inv(s) && s.current != Some(0) && s.cpu.Running?
    ensures AllPlaced(StepIrq(s, timer, pick))
  {
    var s' := StepIrq(s, timer, pick);
    if Switches(s, Irq(timer, pick)) {
      PlacesMove(s, s', true, false, pick);
    } else {
      PlacesStay(s, s');
    }
  }

  lemma SpawnPlaced(s: State, id: nat)
    requires AllPlaced(s) && Known(s) && id !in s.pcs
    ensures AllPlaced(Spawned(s, id))
  {
    var s' := Spawned(s, id);
    forall t | t in s'.pcs && t != 0 ensures Placeable(s', t) {
      if t != id {
        assert Placeable(s, t);
      }
    }
  }

  /** The boot code is never queued or current. */
  ghost predicate BootApart(s: State) { s.current != Some(0) && 0 !in s.ready && 0 in s.pcs }

  lemma NextApart(s: State, a: Action)
    requires BootApart(s) && Inv(s)
    ensures BootApart(Next(s, a))
  {
    if s.cpu.Running? {
      match a
      case Advance(pick) =>
        if s.pcs[s.exec].Body? {
          BodyApart(s, s.pcs[s.exec].call, pick);
        } else {
          KernelStays(s, pick);
        }
      case _ =>
    }
  }

  lemma BodyApart(s: State, call: Call, pick: nat)
    requires BootApart(s)
    ensures BootApart(StepBody(s, call, pick))
  {
  }

  lemma {:induction false} RunPlaced(actions: seq<Action>)
    ensures AllPlaced(Run(Boot(), actions)) && BootApart(Run(Boot(), actions))
  {
    if actions != [] {
      var before := actions[..|actions| - 1];
      RunPlaced(before);
      RunKeeps(before);
      NextPlaced(Run(Boot(), before), actions[|actions| - 1]);
      NextApart(Run(Boot(), before), actions[|actions| - 1]);
    }
  }

  /** In every run each spawned thread is ready, current or finished, and only one of these. */
  lemma {:induction false} NobodyIsLost(actions: seq<Action>, t: nat)
    requires t in Run(Boot(), actions).pcs && t != 0
    ensures Placeable(Run(Boot(), actions), t)
  {
    RunPlaced(actions);
  }

  // ---------------------------------------------------------------------------------------------
  // Whose context the pointers name
  // ---------------------------------------------------------------------------------------------

  /** `a` is the jump of a `start_first_thread` that found a thread. */
  predicate HandsOver(s: State, a: Action) {
    s.cpu.Running? && a.Advance? && s.exec in s.pcs && s.pcs[s.exec].Jump? && s.pcs[s.exec].first
  }

  /** `a` is an interrupt that is taken and switches. */
  predicate Switches(s: State, a: Action) {
    s.cpu.Running? && s.exec in s.pcs && a.Irq? && s.irqOn && Rotates(s, a.timer) &&
      a.pick in s.ready + {s.current.value}
  }

  /** `a` is an interrupt that is taken and does not switch. */
  predicate Returns(s: State, a: Action) {
    s.cpu.Running? && s.exec in s.pcs && a.Irq? && s.irqOn && !Rotates(s, a.timer)
  }

  /** The thread that the last first start or timer switch gave the CPU to. */
  function LastGiven(actions: seq<Action>): Option<nat> {
    if actions == [] then None
    else
      var before, a := actions[..|actions| - 1], actions[|actions| - 1];
      var s := Run(Boot(), before);
      if HandsOver(s, a) then Some(s.pcs[s.exec].next)
      else if Switches(s, a) then Some(a.pick)
      else LastGiven(before)
  }

  lemma PointersMove(s: State, a: Action)
    requires Inv(s)
    ensures Next(s, a).irqSave ==
      if HandsOver(s, a) then Some(s.pcs[s.exec].next) else if Switches(s, a) then Some(a.pick) else s.irqSave
  {
    if s.cpu.Running? {
      match a
      case Advance(pick) => KernelPointers(s, pick);
      case Irq(timer, pick) =>
        assert StepIrq(s, timer, pick).irqSave == if Switches(s, a) then Some(pick) else s.irqSave;
      case _ =>
    }
  }

  lemma KernelPointers(s: State, pick: nat)
    requires s.exec in s.pcs && s.cpu.Running?
    ensures StepKernel(s, pick).irqSave ==
      if HandsOver(s, Advance(pick)) then Some(s.pcs[s.exec].next) else s.irqSave
  {
    match s.pcs[s.exec]
    case Body(call) => BodyLeavesAlone(s, call, pick);
    case _ =>
  }

  /** Picking a thread moves no pointer and saves no registers. */
  lemma BodyLeavesAlone(s: State, call: Call, pick: nat)
    ensures var s' := StepBody(s, call, pick); s'.irqSave == s.irqSave && s'.left == s.left
  {
    PickLeavesAlone(s, pick, call.Start?);
    if s.current.Some? {
      PickLeavesAlone(s.(finished := s.finished + {s.current.value}), pick, false);
      PickLeavesAlone(s.(ready := s.ready + {s.current.value}), pick, false);
    }
  }

  lemma PickLeavesAlone(s: State, pick: nat, first: bool)
    ensures var s' := PickInto(s, pick, first); s'.irqSave == s.irqSave && s'.left == s.left
  {
  }

  lemma {:induction false} PointersAreLastGiven(actions: seq<Action>)
    ensures var s := Run(Boot(), actions); s.irqSave == s.irqLoad == LastGiven(actions)
  {
    RunKeeps(actions);
    if actions != [] {
      var before := actions[..|actions| - 1];
      RunKeeps(before);
      PointersAreLastGiven(before);
      PointersMove(Run(Boot(), before), actions[|actions| - 1]);
    }
  }

  /**
   Wherever an interrupt can be taken in a thread, it will be saved to that thread's own context exactly when
   that thread is the one the last first start or timer switch gave the CPU to; however many cooperative
   switches have come since, so a thread that is yielded back to is right again.
   */
  lemma {:induction false} PointerIsRightIff(actions: seq<Action>)
    requires var s := Run(Boot(), actions); s.irqOn && s.current == Some(s.exec)
    ensures var s := Run(Boot(), actions);
      (s.irqSave == Some(s.exec) <==> LastGiven(actions) == Some(s.exec)) && s.irqLoad == s.irqSave
  {
    PointersAreLastGiven(actions);
  }

  /** The i-th action was a hand-over. */
  predicate StartedAt(actions: seq<Action>, i: nat)
    requires i < |actions|
  {
    HandsOver(Run(Boot(), actions[..i]), actions[i])
  }

  /** Some `start_first_thread` has handed over. */
  ghost predicate HasStarted(actions: seq<Action>) { exists i | 0 <= i < |actions| :: StartedAt(actions, i) }

  lemma {:induction false} HasStartedSnoc(actions: seq<Action>)
    requires actions != []
    ensures HasStarted(actions) <==> HasStarted(actions[..|actions| - 1]) || StartedAt(actions, |actions| - 1)
  {
    var n := |actions| - 1;
    var before := actions[..n];
    forall i | 0 <= i < n ensures StartedAt(before, i) <==> StartedAt(actions, i) {
      assert before[..i] == actions[..i];
    }
    assert HasStarted(actions) <==> StartedAt(actions, n) || exists i | 0 <= i < n :: StartedAt(actions, i);
  }

  /** The pointers are null until the first hand-over and never again. */
  lemma {:induction false} GivenOnceStarted(actions: seq<Action>)
    ensures LastGiven(actions).Some? <==> HasStarted(actions)
  {
    if actions != [] {
      var before := actions[..|actions| - 1];
      var s := Run(Boot(), before);
      GivenOnceStarted(before);
      HasStartedSnoc(actions);
      RunKeeps(before);
      PointersAreLastGiven(before);
    }
  }

  // ---------------------------------------------------------------------------------------------
  // An interrupt that finds the lock taken
  // ---------------------------------------------------------------------------------------------

  /**
   An interrupt that finds the lock taken has interrupted the holder itself, between enabling interrupts and
   dropping the guard. If some start has handed over before, the holder resumes, and nothing has changed but
   one context; otherwise, and only then, the processor stops for good, with the lock held. The context of
   another thread is overwritten exactly when the holder is not the thread that the last first start or timer
   switch gave the CPU to.
   */
  lemma {:induction false} FailedTryLock(actions: seq<Action>, timer: bool, pick: nat)
    requires var s := Run(Boot(), actions); s.cpu.Running? && s.irqOn && s.lock.Some?
    ensures var s := Run(Boot(), actions); var s' := Next(s, Irq(timer, pick)); var given := LastGiven(actions);
      && s.exec in s.pcs && s.pcs[s.exec] == DropHeld && s.lock == Some(s.exec)
      && (s'.cpu.Stopped? <==> !HasStarted(actions))
      && (given.Some? <==> HasStarted(actions))
      && (given.Some? ==>
            s' == s.(clock := s.clock + 1, contexts := s.contexts[given.value := Saved(s.exec, s.clock, ByIrq)]))
      && ((exists t | t in s.contexts && t != s.exec :: t !in s'.contexts || s'.contexts[t] != s.contexts[t]) <==>
            given.Some? && given != Some(s.exec))
  {
    RunKeeps(actions);
    PointersAreLastGiven(actions);
    GivenOnceStarted(actions);
    var s := Run(Boot(), actions);
    var s' := Next(s, Irq(timer, pick));
    var given := LastGiven(actions);
    if given.Some? {
      assert given.value in s.contexts && s.contexts[given.value].time < s.clock;
      assert given.value in s'.contexts && s'.contexts[given.value] != s.contexts[given.value];
    }
  }

  /** So the lock is released by the holder's next step if and only if some start has handed over. */
  lemma {:induction false} HolderReleases(actions: seq<Action>, timer: bool, pick: nat)
    requires var s := Run(Boot(), actions); s.cpu.Running? && s.irqOn && s.lock.Some?
    ensures Next(Next(Run(Boot(), actions), Irq(timer, pick)), Advance(pick)).lock == None <==> HasStarted(actions)
  {
    FailedTryLock(actions, timer, pick);
    var s := Run(Boot(), actions);
    var s' := Next(s, Irq(timer, pick));
    RunKeeps(actions);
    if s'.cpu.Stopped? {
      assert s'.lock == s.lock;
    } else {
      DropsLock(s', pick);
    }
  }

  lemma DropsLock(s: State, pick: nat)
    requires s.cpu.Running? && s.exec in s.pcs && s.pcs[s.exec] == DropHeld
    ensures Next(s, Advance(pick)).lock == None
  {
  }

  // ---------------------------------------------------------------------------------------------
  // When every thread gets its own registers back
  // ---------------------------------------------------------------------------------------------

  /** Every thread that can be switched to would get the registers it left with. */
  ghost predicate Intact(s: State) {
    && (forall t <- s.ready :: t != s.exec ==> Right(s, t))
    && (s.exec in s.pcs && Between(s.pcs[s.exec]) && s.pcs[s.exec].next != s.exec ==> Right(s, s.pcs[s.exec].next))
  }

  /** No thread has been given the wrong registers, and none would be. */
  ghost predicate Sound(s: State) { !s.cpu.Astray? && Intact(s) }

  /**
   An interrupt that finds another thread's name in the pointers: harmful if it switches, because the
   interrupted thread's registers go elsewhere, and otherwise if the thread it overwrites is still to run.
   */
  predicate Harmful(s: State, given: Option<nat>, a: Action) {
    given != Some(s.exec) && (Switches(s, a) || (Returns(s, a) && given.Some? && given.value in s.ready))
  }

  /** `a` is the jump of a `context_switch`. */
  predicate Jumps(s: State, a: Action) { s.cpu.Running? && a.Advance? && s.exec in s.pcs && s.pcs[s.exec].Jump? }

  /** The other thread, if any, that `a` gives the CPU to. */
  function Target(s: State, a: Action): Option<nat> {
    if Jumps(s, a) && s.pcs[s.exec].next != s.exec then Some(s.pcs[s.exec].next)
    else if Switches(s, a) && a.pick != s.exec then Some(a.pick)
    else None
  }

  /** `a` gives the CPU to a thread that last left it the other way: `from` is how. */
  predicate Crosses(s: State, from: Option<Form>, a: Action) {
    Target(s, a).Some? && from.Some? && !Loads(from.value, Switches(s, a))
  }

  /** How a thread last left the CPU, or was made. */
  function LastLeft(actions: seq<Action>, t: nat): Option<Form> {
    if actions == [] then None
    else
      var before, a := actions[..|actions| - 1], actions[|actions| - 1];
      var s := Run(Boot(), before);
      if Jumps(s, a) && s.exec == t then Some(ByCall)
      else if Switches(s, a) && s.exec == t then Some(ByIrq)
      else if Makes(s, a, t) then Some(Initial)
      else LastLeft(before, t)
  }

  predicate Makes(s: State, a: Action, t: nat) {
    s.cpu.Running? && s.exec in s.pcs && s.pcs[s.exec].User? && a == Spawn(t) && t !in s.pcs
  }

  function FormOf(s: State, t: nat): Option<Form> { if t in s.left then Some(s.left[t].form) else None }

  function TargetForm(s: State, a: Action): Option<Form> {
    if Target(s, a).Some? then FormOf(s, Target(s, a).value) else None
  }

  lemma LeftMoves(s: State, a: Action, t: nat)
    ensures FormOf(Next(s, a), t) ==
      if Jumps(s, a) && s.exec == t then Some(ByCall)
      else if Switches(s, a) && s.exec == t then Some(ByIrq)
      else if Makes(s, a, t) then Some(Initial)
      else FormOf(s, t)
  {
    if s.cpu.Running? && s.exec in s.pcs {
      match a
      case Advance(pick) =>
        if s.pcs[s.exec].Body? {
          BodyLeavesAlone(s, s.pcs[s.exec].call, pick);
        }
        assert StepKernel(s, pick).left ==
               if Jumps(s, a) then s.left[s.exec := Saved(s.exec, s.clock, ByCall)] else s.left;
      case Irq(timer, pick) =>
        assert StepIrq(s, timer, pick).left ==
               if Switches(s, a) then s.left[s.exec := Saved(s.exec, s.clock, ByIrq)] else s.left;
      case _ =>
    }
  }

  lemma {:induction false} LeftIsLastLeft(actions: seq<Action>, t: nat)
    ensures FormOf(Run(Boot(), actions), t) == LastLeft(actions, t)
  {
    if actions != [] {
      var before := actions[..|actions| - 1];
      LeftIsLastLeft(before, t);
      LeftMoves(Run(Boot(), before), actions[|actions| - 1], t);
    }
  }

  lemma SwitchSound(s: State, pick: nat)
    requires Inv(s) && Switches(s, Irq(true, pick))
    ensures Sound(StepSwitch(s, pick).(clock := s.clock + 1)) <==>
      Sound(s) && s.irqSave == Some(s.exec) && (pick != s.exec ==> s.left[pick].form != ByCall)
  {
    var s' := StepSwitch(s, pick).(clock := s.clock + 1);
    var regs := Saved(s.exec, s.clock, ByIrq);
    if s.irqSave != Some(s.exec) {
      assert s.exec in s.contexts && s.contexts[s.exec] != regs;
      assert !s'.cpu.Astray? ==> s.exec in s'.ready && !Right(s', s.exec);
    } else if !Intact(s) {
      var t :| t in s.ready && t != s.exec && !Right(s, t);
      assert t != pick ==> t in s'.ready && !Right(s', t);
    }
  }

  lemma ReturnSound(s: State)
    requires Inv(s) && s.cpu.Running? && s.irqOn
    ensures Sound(StepReturn(s).(clock := s.clock + 1)) <==>
      Sound(s) && !(s.irqSave.Some? && s.irqSave.value != s.exec && s.irqSave.value in s.ready)
  {
    var s' := StepReturn(s).(clock := s.clock + 1);
    StepReturnKeeps(s);
    if !Intact(s) {
      var t :| t in s.ready && t != s.exec && !Right(s, t);
      assert !Right(s', t);
    } else if s.irqSave.Some? && s.irqSave.value != s.exec && s.irqSave.value in s.ready {
      assert !Right(s', s.irqSave.value);
    }
  }

  lemma JumpSound(s: State)
    requires Inv(s) && s.cpu.Running? && s.pcs[s.exec].Jump?
    ensures var next := s.pcs[s.exec].next;
      && (next != s.exec ==> next in s.left)
      && (Sound(StepJump(s, next, s.pcs[s.exec].first).(clock := s.clock + 1)) <==>
            Sound(s) && (next != s.exec ==> s.left[next].form != ByIrq))
  {
    var next := s.pcs[s.exec].next;
    var s' := StepJump(s, next, s.pcs[s.exec].first).(clock := s.clock + 1);
    if !Intact(s) && (next == s.exec || Right(s, next)) && !s'.cpu.Astray? {
      var t :| t in s.ready && t != s.exec && !Right(s, t);
      assert !Right(s', t) && t in s'.ready;
    }
  }

  lemma BodySound(s: State, call: Call, pick: nat)
    requires Inv(s) && s.cpu.Running? && s.pcs[s.exec] == Body(call)
    ensures Sound(StepBody(s, call, pick).(clock := s.clock + 1)) <==> Sound(s)
  {
    var s' := StepBody(s, call, pick).(clock := s.clock + 1);
    assert forall t :: Right(s', t) <==> Right(s, t);
    if !Intact(s) {
      var t :| t in s.ready && t != s.exec && !Right(s, t);
      assert t in s'.ready || (Between(s'.pcs[s.exec]) && s'.pcs[s.exec].next == t);
    }
  }

  /** Steps that touch neither the queues nor the contexts. */
  lemma SameSound(s: State, s': State)
    requires s.exec in s.pcs && s'.exec == s.exec && s'.exec in s'.pcs && s'.cpu == s.cpu
    requires s'.ready == s.ready && s'.contexts == s.contexts && s'.left == s.left
    requires Between(s'.pcs[s.exec]) == Between(s.pcs[s.exec])
    requires Between(s.pcs[s.exec]) ==> s'.pcs[s.exec].next == s.pcs[s.exec].next
    ensures Sound(s') <==> Sound(s)
  {
    assert forall t :: Right(s', t) <==> Right(s, t);
  }

  lemma KernelSound(s: State, pick: nat)
    requires Inv(s) && s.cpu.Running?
    ensures Sound(StepKernel(s, pick).(clock := s.clock + 1)) <==>
      Sound(s) && !Crosses(s, TargetForm(s, Advance(pick)), Advance(pick))
  {
    match s.pcs[s.exec]
    case Body(call) => BodySound(s, call, pick);
    case Jump(next, first) => JumpSound(s);
    case _ => SameSound(s, StepKernel(s, pick).(clock := s.clock + 1));
  }

  lemma SpawnSound(s: State, id: nat)
    requires Inv(s) && s.cpu.Running? && s.pcs[s.exec].User? && id !in s.pcs
    ensures Sound(Spawned(s, id).(clock := s.clock + 1)) <==> Sound(s)
  {
    var s' := Spawned(s, id).(clock := s.clock + 1);
    assert Right(s', id);
    assert forall t | t != id :: Right(s', t) <==> Right(s, t);
    if !Intact(s) {
      var t :| t in s.ready && t != s.exec && !Right(s, t);
      assert t in s'.ready && !Right(s', t);
    }
  }

  lemma IrqSound(s: State, a: Action)
    requires Inv(s) && s.cpu.Running? && a.Irq?
    ensures Sound(Next(s, a)) <==> Sound(s) && !Harmful(s, s.irqSave, a) && !Crosses(s, TargetForm(s, a), a)
  {
    if Returns(s, a) {
      ReturnSound(s);
    } else if Switches(s, a) {
      SwitchSound(s, a.pick);
    } else {
      SameSound(s, Next(s, a));
    }
  }

  lemma UserSound(s: State, a: Action)
    requires Inv(s) && s.cpu.Running? && !a.Irq? && !a.Advance?
    ensures Sound(Next(s, a)) <==> Sound(s)
  {
    if a.Spawn? && s.pcs[s.exec].User? && a.id !in s.pcs {
      SpawnSound(s, a.id);
    } else {
      SameSound(s, Next(s, a));
    }
  }

  lemma NextSound(s: State, a: Action)
    requires Inv(s)
    ensures Sound(Next(s, a)) <==> Sound(s) && !Harmful(s, s.irqSave, a) && !Crosses(s, TargetForm(s, a), a)
  {
    if s.cpu.Running? {
      match a
      case Advance(pick) => KernelSound(s, pick);
      case Irq(_, _) => IrqSound(s, a);
      case _ => UserSound(s, a);
    }
  }

  /** The i-th action was a harmful interrupt, or crossed from one way of saving to the other. */
  predicate HarmedAt(actions: seq<Action>, i: nat)
    requires i < |actions|
  {
    var before, a := actions[..i], actions[i];
    var s := Run(Boot(), before);
    || Harmful(s, LastGiven(before), a)
    || (Target(s, a).Some? && Crosses(s, LastLeft(before, Target(s, a).value), a))
  }

  ghost predicate Unharmed(actions: seq<Action>) { forall i | 0 <= i < |actions| :: !HarmedAt(actions, i) }

  lemma {:induction false} UnharmedSnoc(actions: seq<Action>)
    requires actions != []
    ensures Unharmed(actions) <==> Unharmed(actions[..|actions| - 1]) && !HarmedAt(actions, |actions| - 1)
  {
    var n := |actions| - 1;
    var before := actions[..n];
    forall i | 0 <= i < n ensures HarmedAt(before, i) <==> HarmedAt(actions, i) {
      assert before[..i] == actions[..i];
    }
    if Unharmed(actions) {
      assert forall i | 0 <= i < n :: !HarmedAt(actions, i);
    }
  }

  lemma {:induction false} HarmedLast(actions: seq<Action>)
    requires actions != []
    ensures var before, a := actions[..|actions| - 1], actions[|actions| - 1]; var s := Run(Boot(), before);
      HarmedAt(actions, |actions| - 1) <==> Harmful(s, s.irqSave, a) || Crosses(s, TargetForm(s, a), a)
  {
    var before, a := actions[..|actions| - 1], actions[|actions| - 1];
    var s := Run(Boot(), before);
    PointersAreLastGiven(before);
    if Target(s, a).Some? {
      LeftIsLastLeft(before, Target(s, a).value);
    }
  }

  /**
   Over every mix of cooperative calls, interrupts, spawns and starts: every thread has always been given back
   the registers it left with, and every waiting thread's context holds them, if and only if
   - no interrupt was harmful, that is, taken in a thread that got the CPU by a cooperative switch while the
     pointers named another,
   - no `context_switch` went to another thread that had last left by an interrupt, and
   - no timer switch went to another thread that had last left by a call.
   */
  lemma {:induction false} SoundIffUnharmed(actions: seq<Action>)
    ensures Sound(Run(Boot(), actions)) <==> Unharmed(actions)
  {
    if actions != [] {
      var before := actions[..|actions| - 1];
      SoundIffUnharmed(before);
      UnharmedSnoc(actions);
      HarmedLast(actions);
      RunKeeps(before);
      NextSound(Run(Boot(), before), actions[|actions| - 1]);
    }
  }

  // ---------------------------------------------------------------------------------------------
  // Concrete runs
  // ---------------------------------------------------------------------------------------------

  lemma {:induction false} Then(actions: seq<Action>, a: Action) returns (more: seq<Action>)
    ensures more == actions + [a] && Run(Boot(), more) == Next(Run(Boot(), actions), a)
  {
    more := actions + [a];
    assert more[..|actions|] == actions;
  }

  function Locked(s: State, call: Call): State {
    s.(irqOn := false, lock := Some(s.exec), pcs := s.pcs[s.exec := Body(call)], clock := s.clock + 3)
  }

  /** From a call by the running thread to the point where it holds the guard. */
  lemma {:induction false} CallLocks(actions: seq<Action>, call: Call) returns (more: seq<Action>)
    requires var s := Run(Boot(), actions); s.cpu.Running? && s.exec in s.pcs && s.pcs[s.exec].User? && s.lock.None?
    ensures var s := Run(Boot(), actions);
      Run(Boot(), more) == Locked(s, call)
  {
    more := Then(actions, Enter(call));
    Masks(Run(Boot(), more), call);
    more := Then(more, Advance(0));
    Locks(Run(Boot(), more), call);
    more := Then(more, Advance(0));
  }

  lemma Masks(s: State, call: Call)
    requires s.cpu.Running? && s.exec in s.pcs && s.pcs[s.exec] == Mask(call)
    ensures Next(s, Advance(0)) == s.(irqOn := false, pcs := s.pcs[s.exec := Lock(call)], clock := s.clock + 1)
  {
  }

  lemma Locks(s: State, call: Call)
    requires s.cpu.Running? && s.exec in s.pcs && s.pcs[s.exec] == Lock(call) && s.lock.None?
    ensures Next(s, Advance(0)) == s.(lock := Some(s.exec), pcs := s.pcs[s.exec := Body(call)], clock := s.clock + 1)
  {
  }

  /** A `start_first_thread` that finds nothing to do, up to enabling interrupts with the guard alive. */
  lemma {:induction false} FruitlessStart(actions: seq<Action>) returns (more: seq<Action>)
    requires var s := Run(Boot(), actions);
      && s.cpu.Running? && s.exec in s.pcs && s.pcs[s.exec].User? && s.lock.None?
      && (s.current.None? ==> 0 !in s.ready)
    ensures var s := Run(Boot(), actions);
      Run(Boot(), more) == s.(irqOn := true, lock := Some(s.exec), pcs := s.pcs[s.exec := DropHeld],
        clock := s.clock + 5)
  {
    more := CallLocks(actions, Start);
    FindsNothing(Run(Boot(), actions));
    more := Then(more, Advance(0));
    more := Then(more, Advance(0));
  }

  lemma FindsNothing(s: State)
    requires s.cpu.Running? && s.exec in s.pcs && (s.current.None? ==> 0 !in s.ready)
    ensures Next(Next(Locked(s, Start), Advance(0)), Advance(0)) ==
      s.(irqOn := true, lock := Some(s.exec), pcs := s.pcs[s.exec := DropHeld], clock := s.clock + 5)
  {
    var s1 := Next(Locked(s, Start), Advance(0));
    assert s1 == s.(irqOn := false, lock := Some(s.exec), pcs := s.pcs[s.exec := UnmaskHeld], clock := s.clock + 4);
  }

  /**
   On a kernel with no threads, `start_first_thread` enables interrupts with the guard alive; an interrupt
   there stops the processor with the lock held.
   */
  lemma StartCanHang() returns (actions: seq<Action>)
    ensures var s := Run(Boot(), actions); s.cpu.Stopped? && s.lock == Some(s.exec)
  {
    actions := FruitlessStart([]);
    actions := Then(actions, Irq(true, 0));
  }

  /** What a hand-over to `next` leaves queued. */
  function Requeued(s: State, call: Call, next: nat): set<nat> {
    (if call.Yield? && s.current.Some? then s.ready + {s.current.value} else s.ready) - {next}
  }

  function Retired(s: State, call: Call): set<nat> {
    if call.Finish? && s.current.Some? then s.finished + {s.current.value} else s.finished
  }

  /** When the scheduler picks `next`: about to jump, and landed. */
  function AboutToJump(s: State, call: Call, next: nat): State {
    s.(irqOn := false, current := Some(next), ready := Requeued(s, call, next), clock := s.clock + 5,
       finished := Retired(s, call), pcs := s.pcs[s.exec := Jump(next, call.Start?)])
  }

  function HandedOver(s: State, call: Call, next: nat): State {
    var regs := Saved(s.exec, s.clock + 5, ByCall);
    s.(exec := next, irqOn := false, current := Some(next), clock := s.clock + 6,
       ready := Requeued(s, call, next), finished := Retired(s, call), pcs := s.pcs[s.exec := Resume],
       left := s.left[s.exec := regs],
       contexts := if call.Start? then s.contexts else s.contexts[s.exec := regs],
       irqSave := if call.Start? then Some(next) else s.irqSave,
       irqLoad := if call.Start? then Some(next) else s.irqLoad)
  }

  predicate CanHandOver(s: State, call: Call, next: nat) {
    && s.cpu.Running? && s.exec in s.pcs && s.pcs[s.exec].User? && s.lock.None?
    && next in s.ready && next != s.exec
    && call.Start? == s.current.None?
  }

  lemma {:induction false} ReachJump(actions: seq<Action>, call: Call, next: nat) returns (more: seq<Action>)
    requires CanHandOver(Run(Boot(), actions), call, next)
    ensures Run(Boot(), more) == AboutToJump(Run(Boot(), actions), call, next)
  {
    more := CallLocks(actions, call);
    PicksAndDrops(Run(Boot(), actions), call, next, 0);
    more := Then(more, Advance(next));
    more := Then(more, Advance(0));
  }

  lemma PicksAndDrops(s: State, call: Call, next: nat, ignored: nat)
    requires CanHandOver(s, call, next)
    ensures Next(Next(Locked(s, call), Advance(next)), Advance(ignored)) == AboutToJump(s, call, next)
  {
    BodyPicks(Locked(s, call), call, next);
  }

  lemma BodyPicks(s: State, call: Call, next: nat)
    requires s.cpu.Running? && s.exec in s.pcs && s.pcs[s.exec] == Body(call) && next in s.ready
    requires call.Start? == s.current.None?
    ensures Next(s, Advance(next)) == s.(current := Some(next), ready := Requeued(s, call, next), clock := s.clock + 1,
                                         finished := Retired(s, call),
                                           pcs := s.pcs[s.exec := Handoff(next, call.Start?)])
  {
  }

  lemma JumpLands(s: State, call: Call, next: nat, ignored: nat)
    requires CanHandOver(s, call, next) && Right(s, next)
    ensures Next(AboutToJump(s, call, next), Advance(ignored)) ==
      if Loads(s.contexts[next].form, false) then HandedOver(s, call, next)
      else HandedOver(s, call, next).(exec := s.exec, cpu := Astray)
  {
    var s1 := AboutToJump(s, call, next);
    assert s1.pcs[s1.exec := Resume] == s.pcs[s.exec := Resume];
  }

  /** From a call by the running thread to the hand-over. */
  lemma {:induction false} HandOver(actions: seq<Action>, call: Call, next: nat) returns (more: seq<Action>)
    requires var s := Run(Boot(), actions);
      CanHandOver(s, call, next) && Right(s, next) && Loads(s.contexts[next].form, false)
    ensures Run(Boot(), more) == HandedOver(Run(Boot(), actions), call, next)
  {
    more := ReachJump(actions, call, next);
    JumpLands(Run(Boot(), actions), call, next, 0);
    more := Then(more, Advance(0));
  }

  lemma FirstRuns() returns (actions: seq<Action>)
    ensures Run(Boot(), actions) == State(
      1, map[0 := Resume, 1 := User, 2 := User], None, false, Some(1), {2},
      map[1 := Saved(1, 0, Initial), 2 := Saved(2, 1, Initial)], Some(1), Some(1), Running, 8,
      map[0 := Saved(0, 7, ByCall), 1 := Saved(1, 0, Initial), 2 := Saved(2, 1, Initial)], {})
  {
    actions := Then([], Spawn(1));
    actions := Then(actions, Spawn(2));
    assert Run(Boot(), actions) == State(
      0, map[0 := User, 1 := User, 2 := User], None, false, None, {1, 2},
      map[1 := Saved(1, 0, Initial), 2 := Saved(2, 1, Initial)], None, None, Running, 2,
      map[1 := Saved(1, 0, Initial), 2 := Saved(2, 1, Initial)], {});
    actions := HandOver(actions, Start, 1);
  }

  /** Two threads; the first was started and has yielded to the second. */
  lemma SecondRuns() returns (actions: seq<Action>)
    ensures Run(Boot(), actions) == State(
      2, map[0 := Resume, 1 := Resume, 2 := User], None, false, Some(2), {1},
      map[1 := Saved(1, 13, ByCall), 2 := Saved(2, 1, Initial)], Some(1), Some(1), Running, 14,
      map[0 := Saved(0, 7, ByCall), 1 := Saved(1, 13, ByCall), 2 := Saved(2, 1, Initial)], {})
  {
    actions := FirstRuns();
    actions := HandOver(actions, Yield, 2);
  }

  /** After a cooperative hand-over interrupts can be on while both pointers name a thread that has left the CPU. */
  lemma PointersCanBeStale() returns (actions: seq<Action>)
    ensures var s := Run(Boot(), actions);
      s.irqOn && s.lock.None? && s.current == Some(s.exec) && s.irqSave.Some? && s.irqSave.value != s.exec
  {
    actions := SecondRuns();
    actions := Then(actions, SetMask(true));
  }

  /** The second has yielded back. */
  lemma FirstRunsAgain() returns (actions: seq<Action>)
    ensures Run(Boot(), actions) == State(
      1, map[0 := Resume, 1 := User, 2 := Resume], None, true, Some(1), {2},
      map[1 := Saved(1, 13, ByCall), 2 := Saved(2, 19, ByCall)], Some(1), Some(1), Running, 21,
      map[0 := Saved(0, 7, ByCall), 1 := Saved(1, 13, ByCall), 2 := Saved(2, 19, ByCall)], {})
  {
    actions := SecondRuns();
    actions := HandOver(actions, Yield, 1);
    assert Run(Boot(), actions) == State(
      1, map[0 := Resume, 1 := Resume, 2 := Resume], None, false, Some(1), {2},
      map[1 := Saved(1, 13, ByCall), 2 := Saved(2, 19, ByCall)], Some(1), Some(1), Running, 20,
      map[0 := Saved(0, 7, ByCall), 1 := Saved(1, 13, ByCall), 2 := Saved(2, 19, ByCall)], {});
    Resumes(Run(Boot(), actions));
    actions := Then(actions, Advance(0));
  }

  lemma Resumes(s: State)
    requires s.cpu.Running? && s.exec in s.pcs && s.pcs[s.exec] == Resume
    ensures Next(s, Advance(0)) == s.(irqOn := true, pcs := s.pcs[s.exec := User], clock := s.clock + 1)
  {
  }

  /** And a thread that is yielded back to finds them right again. */
  lemma PointersCanBeRightAgain() returns (actions: seq<Action>)
    ensures var s := Run(Boot(), actions);
      s.irqOn && s.current == Some(s.exec) && s.irqSave == Some(s.exec) && LastGiven(actions) == Some(1)
  {
    actions := FirstRunsAgain();
    PointersAreLastGiven(actions);
  }

  /**
   The second thread calls `start_first_thread`, which returns at once; an interrupt before the guard is
   dropped finds the lock taken and writes the second thread's registers over the first one's, who is waiting.
   */
  lemma FailedTryLockCanOverwrite() returns (actions: seq<Action>)
    ensures var s := Run(Boot(), actions);
      && s.cpu.Running? && s.irqOn && s.lock == Some(s.exec)
      && 1 in s.ready && s.exec == 2 && 1 in Next(s, Irq(true, 0)).contexts &&
        Next(s, Irq(true, 0)).contexts[1].owner == 2
  {
    actions := SecondRuns();
    actions := FruitlessStart(actions);
  }

  /** A preempted thread is yielded to. Everything is in order until `context_switch` jumps to it through x11. */
  lemma YieldToPreempted() returns (before: seq<Action>, jump: Action)
    ensures var s := Run(Boot(), before);
      Sound(s) && Jumps(s, jump) && s.irqSave == Some(s.exec) && Next(s, jump).cpu.Astray?
  {
    before := FirstRuns();
    before := Then(before, SetMask(true));
    before := Then(before, Irq(true, 2));
    var s := Run(Boot(), before);
    assert s == State(
      2, map[0 := Resume, 1 := User, 2 := User], None, false, Some(2), {1},
      map[1 := Saved(1, 9, ByIrq), 2 := Saved(2, 1, Initial)], Some(2), Some(2), Running, 10,
      map[0 := Saved(0, 7, ByCall), 1 := Saved(1, 9, ByIrq), 2 := Saved(2, 1, Initial)], {});
    before := ReachJump(before, Yield, 1);
    jump := Advance(0);
    JumpLands(s, Yield, 1, 0);
  }

  /** A thread that had yielded is preempted to. Everything is in order until the interrupt returns to EL0. */
  lemma PreemptToYielded() returns (before: seq<Action>, timer: Action)
    ensures var s := Run(Boot(), before);
      Sound(s) && Switches(s, timer) && s.irqSave == Some(s.exec) && Next(s, timer).cpu.Astray?
  {
    before := FirstRunsAgain();
    timer := Irq(true, 2);
  }

  // ---------------------------------------------------------------------------------------------
  // A call left alone
  // ---------------------------------------------------------------------------------------------

  /** A call and its five kernel steps, with nothing in between. */
  function Called(s: State, call: Call, pick: nat): State {
    var locked := Next(Next(Next(s, Enter(call)), Advance(pick)), Advance(pick));
    Next(Next(Next(locked, Advance(pick)), Advance(pick)), Advance(pick))
  }

  lemma CalledLocks(s: State, call: Call, pick: nat)
    requires s.cpu.Running? && s.exec in s.pcs && s.pcs[s.exec].User? && s.lock.None?
    ensures Next(Next(Next(s, Enter(call)), Advance(pick)), Advance(pick)) == Locked(s, call)
  {
    var s1 := Next(s, Enter(call));
    assert s1 == s.(pcs := s.pcs[s.exec := Mask(call)], clock := s.clock + 1);
    var s2 := Next(s1, Advance(pick));
    assert s2 == s.(irqOn := false, pcs := s.pcs[s.exec := Lock(call)], clock := s.clock + 2);
  }

  /** The call finds nobody to run, or has nobody to give the CPU for. */
  predicate FindsNobody(s: State, call: Call, pick: nat) {
    match call
    case Start => s.current.Some? || pick !in s.ready
    case Yield => s.current.None?
    case Finish => s.current.None? || pick !in s.ready
  }

  lemma LastSteps(s: State, pick: nat)
    requires s.cpu.Running? && s.exec in s.pcs && s.lock == Some(s.exec)
    requires s.pcs[s.exec].UnmaskHeld? || s.pcs[s.exec].DropFirst?
    ensures Next(Next(s, Advance(pick)), Advance(pick)) ==
      s.(irqOn := true, lock := None, pcs := s.pcs[s.exec := User], clock := s.clock + 2)
  {
    var s1 := Next(s, Advance(pick));
    if s.pcs[s.exec].UnmaskHeld? {
      assert s1 == s.(irqOn := true, pcs := s.pcs[s.exec := DropHeld], clock := s.clock + 1);
    } else {
      assert s1 == s.(lock := None, pcs := s.pcs[s.exec := UnmaskLast], clock := s.clock + 1);
    }
  }

  lemma FindsNobodyStep(s: State, call: Call, pick: nat)
    requires s.cpu.Running? && s.exec in s.pcs && s.pcs[s.exec] == Body(call) && FindsNobody(s, call, pick)
    ensures var s', stays := Next(s, Advance(pick)), call.Start? && s.current.Some?;
      s' == s.(current := if stays then s.current else None, finished := Retired(s, call), clock := s.clock + 1,
               pcs := s.pcs[s.exec := if s.current.None? && !call.Start? then DropFirst else UnmaskHeld])
  {
  }

  /**
   A call left alone that finds nobody to run returns to its caller with interrupts on and the lock free; a finish
   has then finished the current thread, and nothing else has changed.
   */
  lemma CallReturns(s: State, call: Call, pick: nat)
    requires s.cpu.Running? && s.exec in s.pcs && s.pcs[s.exec].User? && s.lock.None? && FindsNobody(s, call, pick)
    ensures Called(s, call, pick) ==
      s.(irqOn := true, current := if call.Start? then s.current else None, finished := Retired(s, call),
        clock := s.clock + 6)
  {
    CalledLocks(s, call, pick);
    var locked := Locked(s, call);
    FindsNobodyStep(locked, call, pick);
    LastSteps(Next(locked, Advance(pick)), pick);
    assert s.pcs[s.exec := Body(call)][s.exec := User] == s.pcs;
    assert Next(locked, Advance(pick)).pcs[s.exec := User] == s.pcs;
  }

  /**
   And one that finds a thread hands the CPU over to it, masked, with the lock free: the caller is saved and, after
   a yield, ready, after a finish, finished; and only the first start moves the pointers.
   */
  lemma CallHandsOver(s: State, call: Call, next: nat)
    requires CanHandOver(s, call, next) && Right(s, next) && Loads(s.contexts[next].form, false)
    ensures Called(s, call, next) == HandedOver(s, call, next)
  {
    CalledLocks(s, call, next);
    PicksAndDrops(s, call, next, next);
    JumpLands(s, call, next, next);
  }
}
