/**
 Preemption is invisible: the kernel, the IRQ entry code and the threads' own instructions run together
 on one processor, and every thread behaves as if it had run alone.

 A run is any sequence of spawns, starts, thread instructions and interrupts. Interrupts save and load
 contexts as IrqSwitch describes and preempt as Kernel describes. Cooperative calls are not part of these
 runs: they save contexts in another form.
 */
module Isolation {
  import opened Options
  import opened Numbers
  import opened Memory
  import opened IrqSwitch
  import Scheduler
  import K = Kernel

  /** Everything the kernel does not decide: where things are, and what the threads execute. */
  datatype World = World(
    capacity: nat,                              // ids below this have a stack to run on
    contextOf: nat -> Word,                     // where a thread's Aarch64Context is
    owns: (nat, int) -> bool,                   // memory that only this thread's instructions touch
    live: (nat, Regs, int) -> bool,             // what its future may depend on
    step: (nat, Regs, Mem) -> (Regs, Mem),      // one instruction
    entry: nat -> Word, stackTop: nat -> Word, arg: nat -> Word)

  /** `setup_initial_context`. The status word 0x3c5 masks interrupts, whatever the comment beside it says. */
  function InitialRegs(w: World, t: nat): (r: Regs)
    ensures r.Valid() && !Unmasked(r.pstate)
  {
    Regs([w.arg(t)] + seq(30, _ => 0), w.stackTop(t), w.entry(t), 0x3c5)
  }

  /** Interrupts are taken only when the I bit is clear. */
  predicate Unmasked(pstate: Word) { pstate / 0x80 % 2 == 0 }

  /**
   What `context_switch` makes of a saved context when it starts the first thread (see
   Processor.SwitchLoad): x11 ends up with the pc it jumped through, and of the status word only the
   flags are loaded over the processor's own.
   */
  function StartedRegs(r: Regs, pstate: Word): (r': Regs)
    requires r.Valid()
    ensures r'.Valid()
  {
    r.(x := r.x[11 := r.pc], pstate := pstate % 0x1000_0000 + r.pstate / 0x1000_0000 * 0x1000_0000)
  }

  /** These are the registers that `context_switch` leaves, with the flags it loads over the processor's status. */
  lemma StartIsSwitch(mem: Mem, ctx: Word, pstate: Word)
    ensures var r, switched := StartedRegs(ReadContext(mem, ctx), pstate), SwitchedTo(mem, ctx);
      && r.x == switched.x && r.sp == switched.sp && r.pc == switched.pc
      && r.pstate / 0x1000_0000 == switched.pstate / 0x1000_0000 && r.pstate % 0x1000_0000 == pstate % 0x1000_0000
  {
    var words := LoadWords(mem, ctx, 34);
    assert words[..31] == LoadWords(mem, ctx, 31);
  }

  // ---------------------------------------------------------------------------------------------
  // What is asked of the threads and the memory layout
  // ---------------------------------------------------------------------------------------------

  /** The stack pointer has room for the entry code's frame in the thread's own memory. */
  ghost predicate StackOk(w: World, t: nat, r: Regs) {
    && r.Valid()
    && FRAME_SIZE <= r.sp < WORD_LIMIT
    && forall a | Inside(a, r.sp - FRAME_SIZE, FRAME_SIZE) :: w.owns(t, a)
  }

  ghost predicate AgreeOnLive(w: World, t: nat, r: Regs, m: Mem, m': Mem) {
    forall a | w.live(t, r, a) :: Load(m, a) == Load(m', a)
  }

  /** Contexts are apart from each other and from all thread memory; thread memories are apart too. */
  ghost predicate LayoutOk(w: World) {
    && (forall t: nat | t < w.capacity :: w.contextOf(t) != 0 && StackOk(w, t, InitialRegs(w, t)))
    && (forall t: nat, u: nat | t < w.capacity && u < w.capacity && t != u ::
          Apart(w.contextOf(t), CONTEXT_SIZE, w.contextOf(u), CONTEXT_SIZE))
    && (forall t: nat, u: nat, a | u < w.capacity && w.owns(t, a) :: !Inside(a, w.contextOf(u), CONTEXT_SIZE))
    && (forall t, u, a | w.owns(t, a) && w.owns(u, a) :: t == u)
  }

  /** An instruction writes only the thread's own memory. */
  ghost predicate WritesOwn(w: World, t: nat, r: Regs, m: Mem) {
    forall a | !w.owns(t, a) :: Load(w.step(t, r, m).1, a) == Load(m, a)
  }

  /** An instruction depends only on the registers and on live memory. */
  ghost predicate ReadsLive(w: World, t: nat, r: Regs, m: Mem, m': Mem) {
    AgreeOnLive(w, t, r, m, m') ==>
      && w.step(t, r, m).0 == w.step(t, r, m').0
      && AgreeOnLive(w, t, w.step(t, r, m).0, w.step(t, r, m).1, w.step(t, r, m').1)
  }

  /** Live memory is the thread's own, and never the bytes just below sp. */
  ghost predicate LiveIsOwn(w: World, t: nat, r: Regs) {
    forall a | w.live(t, r, a) :: w.owns(t, a) && !Inside(a, r.sp - FRAME_SIZE, FRAME_SIZE)
  }

  ghost predicate ProgramOk(w: World) {
    && (forall t, r :: LiveIsOwn(w, t, r))
    && (forall t, r, m :: StackOk(w, t, r) ==> StackOk(w, t, w.step(t, r, m).0))
    && (forall t, r, m :: WritesOwn(w, t, r, m))
    && (forall t, r, m, m' :: ReadsLive(w, t, r, m, m'))
  }

  // ---------------------------------------------------------------------------------------------
  // The machine
  // ---------------------------------------------------------------------------------------------

  /** The processor and memory, with the history of each thread. */
  datatype Machine = Machine(
    regs: Regs,
    mem: Mem,
    irqSave: Word,
    irqLoad: Word,
    // ---- history ----
    base: map<nat, Regs>,         // the registers a thread started from
    trace: map<nat, seq<Regs>>)   // its registers after each instruction it executed

  datatype State = State(k: K.Kernel, m: Machine)

  datatype Event =
    | Spawn(priority: Byte, stackAvailable: bool)
    | Start(pstate: Word)
    | Instruction
    | Interrupt(timer: bool, junk: Mem)   // junk: what the handler writes to the kernel's own memory

  function Cur(k: K.Kernel): Option<nat> { if k.current.Some? then Some(k.current.value.id) else None }

  /** The handler's own writes stay out of thread memory and contexts. */
  ghost predicate Harmless(w: World, junk: Mem) {
    forall t: nat, a | a in junk :: !w.owns(t, a) && (t < w.capacity ==> !Inside(a, w.contextOf(t), CONTEXT_SIZE))
  }

  ghost function SpawnOn(w: World, m: Machine, t: nat): Machine {
    var r := InitialRegs(w, t);
    m.(mem := StoreWords(m.mem, w.contextOf(t), r.Words()), base := m.base[t := r], trace := m.trace[t := []])
  }

  ghost function StartOn(w: World, m: Machine, t: nat, pstate: Word): Machine {
    var r := StartedRegs(ReadContext(m.mem, w.contextOf(t)), pstate);
    m.(irqSave := w.contextOf(t), irqLoad := w.contextOf(t), regs := r, base := m.base[t := r])
  }

  ghost function InstructionOn(w: World, m: Machine, t: nat): Machine {
    var (r, mem) := w.step(t, m.regs, m.mem);
    m.(regs := r, mem := mem, trace := m.trace[t := (if t in m.trace then m.trace[t] else []) + [r]])
  }

  /** The entry code saves, the handler may repoint both contexts at `next`, the return sequence loads. */
  ghost function InterruptOn(w: World, m: Machine, next: Option<nat>, junk: Mem): Machine
    requires m.regs.Valid()
  {
    var mem := AfterSave(m.mem, m.regs, m.irqSave) + junk;
    var m1 := if next.Some?
              then m.(mem := mem, irqSave := w.contextOf(next.value), irqLoad := w.contextOf(next.value))
              else m.(mem := mem);
    m1.(regs := ReadContext(mem, m1.irqLoad))
  }

  ghost function Next(w: World, s: State, e: Event): (s': State)
    requires K.HasCpu(s.k.sched)
    ensures K.HasCpu(s'.k.sched)
  {
    match e
    case Spawn(priority, stackAvailable) => Spawned(w, s, priority, stackAvailable)
    case Start(pstate) => Started(w, s, pstate)
    case Instruction => if Cur(s.k).None? then s else State(s.k, InstructionOn(w, s.m, Cur(s.k).value))
    case Interrupt(timer, junk) => Interrupted(w, s, timer, junk)
  }

  ghost function Spawned(w: World, s: State, priority: Byte, stackAvailable: bool): (s': State)
    requires K.HasCpu(s.k.sched)
    ensures K.HasCpu(s'.k.sched)
  {
    var (result, k) := K.Spawn(s.k, priority, stackAvailable && s.k.nextThreadId < w.capacity);
    if result.Failed? then s else State(k, SpawnOn(w, s.m, result.thread.id))
  }

  ghost function Started(w: World, s: State, pstate: Word): (s': State)
    requires K.HasCpu(s.k.sched)
    ensures K.HasCpu(s'.k.sched)
  {
    var k := K.StartFirstThread(s.k);
    if Cur(s.k).Some? || Cur(k).None? then State(k, s.m) else State(k, StartOn(w, s.m, Cur(k).value, pstate))
  }

  /** Some thread is running with interrupts unmasked, and there is a context to return to. */
  ghost predicate CanInterrupt(w: World, s: State, junk: Mem) {
    Cur(s.k).Some? && s.m.regs.Valid() && Unmasked(s.m.regs.pstate) && s.m.irqLoad != 0 && Harmless(w, junk)
  }

  /** A timer interrupt preempts; any other interrupt is acknowledged and returns. */
  ghost function Interrupted(w: World, s: State, timer: bool, junk: Mem): (s': State)
    requires K.HasCpu(s.k.sched)
    ensures K.HasCpu(s'.k.sched)
  {
    if !CanInterrupt(w, s, junk) then
      s
    else if timer then
      var k := K.HandleIrqPreemption(s.k, true);
      State(k, InterruptOn(w, s.m, Cur(k), junk))
    else
      State(s.k, InterruptOn(w, s.m, None, junk))
  }

  /** An initialized kernel with no threads yet, on a machine in any state. */
  function Boot(sched: Scheduler.Scheduler, regs: Regs, mem: Mem): State {
    State(K.New(sched).(initialized := true), Machine(regs, mem, 0, 0, map[], map[]))
  }

  ghost function Run(w: World, s: State, events: seq<Event>): (s': State)
    requires K.HasCpu(s.k.sched)
    ensures K.HasCpu(s'.k.sched)
  {
    if events == [] then s else Next(w, Run(w, s, events[..|events| - 1]), events[|events| - 1])
  }

  // ---------------------------------------------------------------------------------------------
  // Running alone
  // ---------------------------------------------------------------------------------------------

  ghost function Solo(w: World, t: nat, base: Regs, mem: Mem, n: nat): (Regs, Mem) {
    if n == 0 then (base, mem)
    else
      var (r, m) := Solo(w, t, base, mem, n - 1);
      w.step(t, r, m)
  }

  ghost function SoloTrace(w: World, t: nat, base: Regs, mem: Mem, n: nat): seq<Regs> {
    if n == 0 then [] else SoloTrace(w, t, base, mem, n - 1) + [Solo(w, t, base, mem, n).0]
  }

  // ---------------------------------------------------------------------------------------------
  // What every event keeps
  // ---------------------------------------------------------------------------------------------

  /** A thread's registers: in the processor if it is current, else in its context. */
  function RegsOf(w: World, m: Machine, cur: Option<nat>, t: nat): Regs {
    if cur == Some(t) then m.regs else ReadContext(m.mem, w.contextOf(t))
  }

  /** Registers, live memory and trace are those of a solo run of |trace| instructions. */
  ghost predicate Tracks(w: World, t: nat, base: Regs, m0: Mem, trace: seq<Regs>, r: Regs, mem: Mem) {
    var (soloRegs, soloMem) := Solo(w, t, base, m0, |trace|);
    && StackOk(w, t, r)
    && trace == SoloTrace(w, t, base, m0, |trace|)
    && r == soloRegs
    && AgreeOnLive(w, t, r, mem, soloMem)
  }

  /**
   A thread starts from its initial context; the one that `start_first_thread` ran, from what the switch made of
   it.
   */
  ghost predicate BaseOk(w: World, t: nat, base: Regs) {
    base == InitialRegs(w, t) || exists p :: base == StartedRegs(InitialRegs(w, t), p)
  }

  ghost predicate ThreadOk(w: World, m0: Mem, m: Machine, cur: Option<nat>, t: nat) {
    && t < w.capacity && t in m.base && t in m.trace
    && Tracks(w, t, m.base[t], m0, m.trace[t], RegsOf(w, m, cur, t), m.mem)
    && BaseOk(w, t, m.base[t])
    && (cur.None? ==> m.trace[t] == [] && m.base[t] == InitialRegs(w, t))
  }

  /** Memory of threads not yet spawned is as it was; before the first start, all thread memory is. */
  ghost predicate Untouched(w: World, m0: Mem, mem: Mem, ids: set<nat>, cur: Option<nat>) {
    forall t, a | w.owns(t, a) && (t !in ids || cur.None?) :: Load(mem, a) == Load(m0, a)
  }

  ghost predicate MachineInv(w: World, m0: Mem, m: Machine, ids: set<nat>, cur: Option<nat>) {
    && (cur.Some? ==> cur.value in ids && m.irqSave == m.irqLoad == w.contextOf(cur.value))
    && (forall t <- ids :: ThreadOk(w, m0, m, cur, t))
    && Untouched(w, m0, m.mem, ids, cur)
  }

  lemma TracksFrame(w: World, t: nat, base: Regs, m0: Mem, trace: seq<Regs>, r: Regs, mem: Mem, mem': Mem)
    requires Tracks(w, t, base, m0, trace, r, mem)
    requires forall a | w.live(t, r, a) :: Load(mem', a) == Load(mem, a)
    ensures Tracks(w, t, base, m0, trace, r, mem')
  {
  }

  /** If neither a thread's registers nor its own memory changed, it is still on its solo run. */
  lemma ThreadFrame(w: World, m0: Mem, m: Machine, m': Machine, cur: Option<nat>, cur': Option<nat>, t: nat)
    requires ThreadOk(w, m0, m, cur, t) && LiveIsOwn(w, t, RegsOf(w, m, cur, t))
    requires t in m'.base && t in m'.trace && m'.base[t] == m.base[t] && m'.trace[t] == m.trace[t]
    requires RegsOf(w, m', cur', t) == RegsOf(w, m, cur, t) && (cur'.None? ==> cur.None?)
    requires forall a | w.owns(t, a) && !Inside(a, RegsOf(w, m, cur, t).sp - FRAME_SIZE, FRAME_SIZE) ::
      Load(m'.mem, a) == Load(m.mem, a)
    ensures ThreadOk(w, m0, m', cur', t)
  {
    TracksFrame(w, t, m.base[t], m0, m.trace[t], RegsOf(w, m, cur, t), m.mem, m'.mem);
  }

  // ---- spawn ----

  lemma SpawnMemory(w: World, mem: Mem, id: nat)
    requires LayoutOk(w) && id < w.capacity
    ensures var mem' := StoreWords(mem, w.contextOf(id), InitialRegs(w, id).Words());
      && ReadContext(mem', w.contextOf(id)) == InitialRegs(w, id)
      && (forall t: nat | t < w.capacity && t != id ::
        ReadContext(mem', w.contextOf(t)) == ReadContext(mem, w.contextOf(t)))
      && (forall t, a | w.owns(t, a) :: Load(mem', a) == Load(mem, a))
  {
    var words := InitialRegs(w, id).Words();
    WordsRoundTrip(InitialRegs(w, id));
    LoadBack(mem, w.contextOf(id), words);
    forall t: nat | t < w.capacity && t != id
      ensures ReadContext(StoreWords(mem, w.contextOf(id), words), w.contextOf(t)) == ReadContext(mem, w.contextOf(t))
    {
      LoadWordsOutside(mem, w.contextOf(id), words, w.contextOf(t), 34);
    }
    forall t, a | w.owns(t, a) ensures Load(StoreWords(mem, w.contextOf(id), words), a) == Load(mem, a) {
      LoadOutside(mem, w.contextOf(id), words, a);
    }
  }

  lemma SpawnKeeps(w: World, m0: Mem, m: Machine, ids: set<nat>, cur: Option<nat>, id: nat)
    requires LayoutOk(w) && ProgramOk(w) && MachineInv(w, m0, m, ids, cur) && id !in ids && id < w.capacity
    ensures MachineInv(w, m0, SpawnOn(w, m, id), ids + {id}, cur)
  {
    var m' := SpawnOn(w, m, id);
    SpawnMemory(w, m.mem, id);
    forall t <- ids + {id} ensures ThreadOk(w, m0, m', cur, t) {
      if t == id {
        assert LiveIsOwn(w, id, InitialRegs(w, id));
      } else {
        assert ThreadOk(w, m0, m, cur, t) && LiveIsOwn(w, t, RegsOf(w, m, cur, t));
        ThreadFrame(w, m0, m, m', cur, cur, t);
      }
    }
  }

  // ---- start ----

  lemma StartKeeps(w: World, m0: Mem, m: Machine, ids: set<nat>, id: nat, pstate: Word)
    requires LayoutOk(w) && ProgramOk(w) && MachineInv(w, m0, m, ids, None) && id in ids
    ensures MachineInv(w, m0, StartOn(w, m, id, pstate), ids, Some(id))
  {
    var m' := StartOn(w, m, id, pstate);
    forall t <- ids ensures ThreadOk(w, m0, m', Some(id), t) {
      assert ThreadOk(w, m0, m, None, t);
      if t == id {
        assert LiveIsOwn(w, id, m'.regs);
        assert m'.regs == StartedRegs(InitialRegs(w, id), pstate);
      }
    }
  }

  // ---- instructions ----

  lemma StepTracks(w: World, t: nat, base: Regs, m0: Mem, trace: seq<Regs>, r: Regs, m: Mem)
    requires ProgramOk(w) && Tracks(w, t, base, m0, trace, r, m)
    ensures var (r', m') := w.step(t, r, m);
      Tracks(w, t, base, m0, trace + [r'], r', m')
  {
    var (soloRegs, soloMem) := Solo(w, t, base, m0, |trace|);
    assert ReadsLive(w, t, r, m, soloMem);
    assert Solo(w, t, base, m0, |trace| + 1) == w.step(t, soloRegs, soloMem);
  }

  lemma StepMemory(w: World, t: nat, r: Regs, m: Mem)
    requires LayoutOk(w) && ProgramOk(w)
    ensures var m' := w.step(t, r, m).1;
      && (forall u: nat | u < w.capacity :: ReadContext(m', w.contextOf(u)) == ReadContext(m, w.contextOf(u)))
      && (forall u, a | u != t && w.owns(u, a) :: Load(m', a) == Load(m, a))
  {
    var m' := w.step(t, r, m).1;
    assert WritesOwn(w, t, r, m);
    forall u: nat | u < w.capacity ensures ReadContext(m', w.contextOf(u)) == ReadContext(m, w.contextOf(u)) {
      forall i | 0 <= i < 34 ensures Load(m', w.contextOf(u) + 8 * i) == Load(m, w.contextOf(u) + 8 * i) {
        assert Inside(w.contextOf(u) + 8 * i, w.contextOf(u), CONTEXT_SIZE);
      }
      assert LoadWords(m', w.contextOf(u), 34) == LoadWords(m, w.contextOf(u), 34);
    }
  }

  lemma InstructionKeeps(w: World, m0: Mem, m: Machine, ids: set<nat>, id: nat)
    requires LayoutOk(w) && ProgramOk(w) && MachineInv(w, m0, m, ids, Some(id))
    ensures MachineInv(w, m0, InstructionOn(w, m, id), ids, Some(id))
  {
    var m' := InstructionOn(w, m, id);
    StepMemory(w, id, m.regs, m.mem);
    forall t <- ids ensures ThreadOk(w, m0, m', Some(id), t) {
      assert ThreadOk(w, m0, m, Some(id), t);
      if t == id {
        StepTracks(w, t, m.base[t], m0, m.trace[t], m.regs, m.mem);
      } else {
        assert LiveIsOwn(w, t, RegsOf(w, m, Some(id), t));
        ThreadFrame(w, m0, m, m', Some(id), Some(id), t);
      }
    }
  }

  // ---- interrupts ----

  lemma JunkAside(w: World, mem: Mem, junk: Mem)
    requires Harmless(w, junk)
    ensures forall t: nat | t < w.capacity ::
      ReadContext(mem + junk, w.contextOf(t)) == ReadContext(mem, w.contextOf(t))
    ensures forall t, a | w.owns(t, a) :: Load(mem + junk, a) == Load(mem, a)
  {
    forall t: nat | t < w.capacity ensures ReadContext(mem + junk, w.contextOf(t)) == ReadContext(mem, w.contextOf(t)) {
      forall i | 0 <= i < 34 ensures Load(mem + junk, w.contextOf(t) + 8 * i) == Load(mem, w.contextOf(t) + 8 * i) {
        assert Inside(w.contextOf(t) + 8 * i, w.contextOf(t), CONTEXT_SIZE);
      }
      assert LoadWords(mem + junk, w.contextOf(t), 34) == LoadWords(mem, w.contextOf(t), 34);
    }
  }

  /** Saving the current thread puts its registers in its context and touches nothing else but its dead stack. */
  lemma SaveCurrent(w: World, mem: Mem, r: Regs, id: nat)
    requires LayoutOk(w) && StackOk(w, id, r) && id < w.capacity
    ensures var mem' := AfterSave(mem, r, w.contextOf(id));
      && ReadContext(mem', w.contextOf(id)) == r
      && (forall t: nat | t < w.capacity && t != id ::
        ReadContext(mem', w.contextOf(t)) == ReadContext(mem, w.contextOf(t)))
      && (forall t, a | w.owns(t, a) && !(t == id && Inside(a, r.sp - FRAME_SIZE, FRAME_SIZE)) ::
        Load(mem', a) == Load(mem, a))
  {
    SaveThenRead(mem, r, w.contextOf(id));
    forall t: nat | t < w.capacity && t != id
      ensures ReadContext(AfterSave(mem, r, w.contextOf(id)), w.contextOf(t)) == ReadContext(mem, w.contextOf(t))
    {
      FrameApart(w, id, r, t);
      SaveLeavesOtherContexts(mem, r, w.contextOf(id), w.contextOf(t));
    }
    forall t, a | w.owns(t, a) && !(t == id && Inside(a, r.sp - FRAME_SIZE, FRAME_SIZE))
      ensures Load(AfterSave(mem, r, w.contextOf(id)), a) == Load(mem, a)
    {
      assert Inside(a, r.sp - FRAME_SIZE, FRAME_SIZE) ==> w.owns(id, a);
      SaveWritesOnly(mem, r, w.contextOf(id), a);
    }
  }

  /** A frame made of owned bytes cannot overlap a context, which has none. */
  lemma FrameApart(w: World, id: nat, r: Regs, t: nat)
    requires LayoutOk(w) && StackOk(w, id, r) && t < w.capacity
    ensures Apart(w.contextOf(t), CONTEXT_SIZE, r.sp - FRAME_SIZE, FRAME_SIZE)
  {
    var c, f := w.contextOf(t), r.sp - FRAME_SIZE;
    assert w.owns(id, c) ==> !Inside(c, c, CONTEXT_SIZE);
    assert w.owns(id, f) ==> !Inside(f, c, CONTEXT_SIZE);
    assert Inside(c, f, FRAME_SIZE) ==> w.owns(id, c);
    assert Inside(f, f, FRAME_SIZE) ==> w.owns(id, f);
  }

  lemma InterruptKeeps(w: World, m0: Mem, m: Machine, ids: set<nat>, id: nat, next: Option<nat>, junk: Mem)
    requires LayoutOk(w) && ProgramOk(w) && MachineInv(w, m0, m, ids, Some(id)) && Harmless(w, junk)
    requires m.regs.Valid() && (next.Some? ==> next.value in ids)
    ensures MachineInv(w, m0, InterruptOn(w, m, next, junk), ids, if next.Some? then next else Some(id))
  {
    var m' := InterruptOn(w, m, next, junk);
    var cur' := if next.Some? then next else Some(id);
    assert ThreadOk(w, m0, m, Some(id), id);
    SaveCurrent(w, m.mem, m.regs, id);
    JunkAside(w, AfterSave(m.mem, m.regs, m.irqSave), junk);
    forall t <- ids ensures ThreadOk(w, m0, m', cur', t) {
      assert ThreadOk(w, m0, m, Some(id), t) && LiveIsOwn(w, t, RegsOf(w, m, Some(id), t));
      ThreadFrame(w, m0, m, m', Some(id), cur', t);
    }
  }

  // ---- the kernel's part ----

  lemma CurrentIsSpawned(k: K.Kernel)
    requires K.Inv(k)
    ensures Cur(k).Some? ==> Cur(k).value in k.threads.Keys
  {
    if k.current.Some? {
      assert K.InState(k.threads, k.current.value, K.Running);
    }
  }

  /** The kernel steps of these runs spawn nothing by surprise and never give the CPU to an unknown thread. */
  lemma KernelStep(k: K.Kernel, op: K.Op)
    requires K.Inv(k) && !op.DoSpawn?
    ensures var k' := K.Step(k, op);
      && K.Inv(k') && k'.threads.Keys == k.threads.Keys
      && (Cur(k').Some? ==> Cur(k').value in k.threads.Keys)
  {
    K.StepKeeps(k, op);
    CurrentIsSpawned(K.Step(k, op));
    NextIdStays(k, op);
    SameIds(k, K.Step(k, op));
  }

  lemma NextIdStays(k: K.Kernel, op: K.Op)
    requires K.HasCpu(k.sched) && !op.DoSpawn?
    ensures K.Step(k, op).nextThreadId == k.nextThreadId
  {
  }

  lemma SameIds(k: K.Kernel, k': K.Kernel)
    requires K.IdsOk(k.nextThreadId, k.threads) && K.IdsOk(k'.nextThreadId, k'.threads) &&
      k'.nextThreadId == k.nextThreadId
    ensures k'.threads.Keys == k.threads.Keys
  {
    forall id ensures id in k'.threads.Keys <==> id in k.threads.Keys {
      assert id in k'.threads <==> 1 <= id < k'.nextThreadId;
    }
  }

  lemma KernelStart(k: K.Kernel)
    requires K.Inv(k)
    ensures var k' := K.StartFirstThread(k);
      && K.Inv(k') && k'.threads.Keys == k.threads.Keys && k'.initialized == k.initialized
      && (Cur(k').Some? ==> Cur(k').value in k.threads.Keys)
      && (Cur(k).Some? ==> k' == k)
  {
    KernelStep(k, K.DoStart);
  }

  lemma KernelPreempt(k: K.Kernel)
    requires K.Inv(k) && k.initialized && Cur(k).Some?
    ensures var k' := K.HandleIrqPreemption(k, true);
      && K.Inv(k') && k'.threads.Keys == k.threads.Keys && k'.initialized
      && Cur(k').Some? && Cur(k').value in k.threads.Keys
  {
    KernelStep(k, K.DoPreempt(true));
    K.SwitchKeepsCurrent(k, K.DoPreempt(true));
  }

  lemma KernelSpawn(k: K.Kernel, priority: Byte)
    requires K.Inv(k) && k.initialized
    ensures var k' := K.Spawn(k, priority, true).1;
      && K.Inv(k') && k.nextThreadId !in k.threads
      && k'.threads.Keys == k.threads.Keys + {k.nextThreadId}
      && Cur(k') == Cur(k) && k'.initialized
  {
    K.SpawnKeeps(k, priority, true);
  }

  ghost predicate Inv(w: World, m0: Mem, s: State) {
    K.Inv(s.k) && s.k.initialized && MachineInv(w, m0, s.m, s.k.threads.Keys, Cur(s.k))
  }

  lemma SpawnStep(w: World, m0: Mem, s: State, priority: Byte, stackAvailable: bool)
    requires LayoutOk(w) && ProgramOk(w) && Inv(w, m0, s)
    ensures Inv(w, m0, Spawned(w, s, priority, stackAvailable))
  {
    if stackAvailable && s.k.nextThreadId < w.capacity {
      KernelSpawn(s.k, priority);
      SpawnKeeps(w, m0, s.m, s.k.threads.Keys, Cur(s.k), s.k.nextThreadId);
      assert Spawned(w, s, priority, true) ==
             State(K.Spawn(s.k, priority, true).1, SpawnOn(w, s.m, s.k.nextThreadId));
    }
  }

  lemma StartStep(w: World, m0: Mem, s: State, pstate: Word)
    requires LayoutOk(w) && ProgramOk(w) && Inv(w, m0, s)
    ensures Inv(w, m0, Started(w, s, pstate))
  {
    KernelStart(s.k);
    var k := K.StartFirstThread(s.k);
    if Cur(s.k).None? && Cur(k).Some? {
      StartKeeps(w, m0, s.m, s.k.threads.Keys, Cur(k).value, pstate);
    }
  }

  lemma InterruptStep(w: World, m0: Mem, s: State, timer: bool, junk: Mem)
    requires LayoutOk(w) && ProgramOk(w) && Inv(w, m0, s)
    ensures Inv(w, m0, Interrupted(w, s, timer, junk))
  {
    if CanInterrupt(w, s, junk) {
      var id := Cur(s.k).value;
      KernelPreempt(s.k);
      InterruptKeeps(w, m0, s.m, s.k.threads.Keys, id,
        if timer then Cur(K.HandleIrqPreemption(s.k, true)) else None, junk);
    }
  }

  lemma InstructionStep(w: World, m0: Mem, s: State)
    requires LayoutOk(w) && ProgramOk(w) && Inv(w, m0, s) && Cur(s.k).Some?
    ensures Inv(w, m0, State(s.k, InstructionOn(w, s.m, Cur(s.k).value)))
  {
    InstructionKeeps(w, m0, s.m, s.k.threads.Keys, Cur(s.k).value);
  }

  lemma NextKeeps(w: World, m0: Mem, s: State, e: Event)
    requires LayoutOk(w) && ProgramOk(w) && Inv(w, m0, s)
    ensures Inv(w, m0, Next(w, s, e))
  {
    match e
    case Spawn(priority, stackAvailable) => SpawnStep(w, m0, s, priority, stackAvailable);
    case Start(pstate) => StartStep(w, m0, s, pstate);
    case Instruction => if Cur(s.k).Some? { InstructionStep(w, m0, s); }
    case Interrupt(timer, junk) => InterruptStep(w, m0, s, timer, junk);
  }

  lemma {:induction false} RunKeeps(w: World, sched: Scheduler.Scheduler, numCpus: nat, regs: Regs, m0: Mem,
                                    events: seq<Event>)
    requires LayoutOk(w) && ProgramOk(w)
    requires sched == Scheduler.NewFcfs() || (numCpus > 0 && sched == Scheduler.NewRoundRobin(numCpus))
    ensures Inv(w, m0, Run(w, Boot(sched, regs, m0), events))
  {
    if events == [] {
      K.NewKeeps(sched, numCpus);
      K.StepKeeps(K.New(sched), K.DoInit);
    } else {
      RunKeeps(w, sched, numCpus, regs, m0, events[..|events| - 1]);
      NextKeeps(w, m0, Run(w, Boot(sched, regs, m0), events[..|events| - 1]), events[|events| - 1]);
    }
  }

  // ---------------------------------------------------------------------------------------------
  // Main results
  // ---------------------------------------------------------------------------------------------

  /**
   In every timer-driven run, every thread's register trace is the trace of a solo run from the registers
   it was started with: whatever the other threads, the handler and the scheduler do. Where it stands now,
   in the processor or in its context, is where the solo run stands after as many instructions.
   */
  lemma EveryThreadRunsAsIfAlone(w: World, sched: Scheduler.Scheduler, numCpus: nat, regs: Regs, m0: Mem,
                                 events: seq<Event>, t: nat)
    requires LayoutOk(w) && ProgramOk(w)
    requires sched == Scheduler.NewFcfs() || (numCpus > 0 && sched == Scheduler.NewRoundRobin(numCpus))
    requires t in Run(w, Boot(sched, regs, m0), events).k.threads
    ensures var s := Run(w, Boot(sched, regs, m0), events);
      && t in s.m.base && t in s.m.trace && BaseOk(w, t, s.m.base[t])
      && s.m.trace[t] == SoloTrace(w, t, s.m.base[t], m0, |s.m.trace[t]|)
      && RegsOf(w, s.m, Cur(s.k), t) == Solo(w, t, s.m.base[t], m0, |s.m.trace[t]|).0
  {
    RunKeeps(w, sched, numCpus, regs, m0, events);
    var s := Run(w, Boot(sched, regs, m0), events);
    assert ThreadOk(w, m0, s.m, Cur(s.k), t);
  }

  /** An interrupt, whether or not it switches threads, changes no thread's registers. */
  lemma InterruptsAreInvisible(w: World, sched: Scheduler.Scheduler, numCpus: nat, regs: Regs, m0: Mem,
                               events: seq<Event>,
                               timer: bool, junk: Mem, t: nat)
    requires LayoutOk(w) && ProgramOk(w)
    requires sched == Scheduler.NewFcfs() || (numCpus > 0 && sched == Scheduler.NewRoundRobin(numCpus))
    requires t in Run(w, Boot(sched, regs, m0), events).k.threads
    ensures var s := Run(w, Boot(sched, regs, m0), events); var s' := Next(w, s, Interrupt(timer, junk));
      t in s'.k.threads && RegsOf(w, s'.m, Cur(s'.k), t) == RegsOf(w, s.m, Cur(s.k), t)
  {
    RunKeeps(w, sched, numCpus, regs, m0, events);
    InvisibleAt(w, m0, Run(w, Boot(sched, regs, m0), events), timer, junk, t);
  }

  lemma InvisibleAt(w: World, m0: Mem, s: State, timer: bool, junk: Mem, t: nat)
    requires LayoutOk(w) && ProgramOk(w) && Inv(w, m0, s) && t in s.k.threads.Keys
    ensures var s' := Next(w, s, Interrupt(timer, junk));
      t in s'.k.threads.Keys && RegsOf(w, s'.m, Cur(s'.k), t) == RegsOf(w, s.m, Cur(s.k), t)
  {
    var s' := Next(w, s, Interrupt(timer, junk));
    NextKeeps(w, m0, s, Interrupt(timer, junk));
    InterruptKeepsHistory(w, s, timer, junk);
    SameRegs(w, m0, s.m, s'.m, Cur(s.k), Cur(s'.k), t);
  }

  lemma InterruptKeepsHistory(w: World, s: State, timer: bool, junk: Mem)
    requires K.Inv(s.k) && s.k.initialized
    ensures var s' := Next(w, s, Interrupt(timer, junk));
      s'.k.threads.Keys == s.k.threads.Keys && s'.m.base == s.m.base && s'.m.trace == s.m.trace
  {
    if CanInterrupt(w, s, junk) {
      KernelPreempt(s.k);
      InterruptOnly(w, s, timer, junk);
    }
  }

  lemma InterruptOnly(w: World, s: State, timer: bool, junk: Mem)
    requires K.HasCpu(s.k.sched) && CanInterrupt(w, s, junk)
    ensures var s' := Interrupted(w, s, timer, junk);
      && s'.m.base == s.m.base && s'.m.trace == s.m.trace
      && s'.k == if timer then K.HandleIrqPreemption(s.k, true) else s.k
  {
  }

  /** Two moments with the same history have the same registers: those of the solo run. */
  lemma SameRegs(w: World, m0: Mem, m: Machine, m': Machine, cur: Option<nat>, cur': Option<nat>, t: nat)
    requires ThreadOk(w, m0, m, cur, t) && ThreadOk(w, m0, m', cur', t)
    requires m'.base == m.base && m'.trace == m.trace
    ensures RegsOf(w, m', cur', t) == RegsOf(w, m, cur, t)
  {
  }

  // ---- what a thread starts from, how far it gets, and who gets the CPU ----

  /** The thread that a start gave the CPU to, and the status word that the processor had then. */
  ghost function StartedWith(w: World, s0: State, events: seq<Event>): Option<(nat, Word)>
    requires K.HasCpu(s0.k.sched)
  {
    if events == [] then None
    else
      var before, e := events[..|events| - 1], events[|events| - 1];
      var s := Run(w, s0, before);
      if e.Start? && Cur(s.k).None? && Cur(Next(w, s, e).k).Some?
      then Some((Cur(Next(w, s, e).k).value, e.pstate))
      else StartedWith(w, s0, before)
  }

  ghost function BaseOf(w: World, started: Option<(nat, Word)>, t: nat): Regs {
    if started.Some? && started.value.0 == t then StartedRegs(InitialRegs(w, t), started.value.1) else InitialRegs(w, t)
  }

  /** Every thread's base is what the start, or the spawn, made it; and nobody has been started if nobody runs. */
  ghost predicate BasesAre(w: World, s: State, started: Option<(nat, Word)>) {
    && (Cur(s.k).None? ==> started.None?)
    && BasesOk(w, s.k.threads.Keys, s.m.base, started)
  }

  ghost predicate BasesOk(w: World, ids: set<nat>, base: map<nat, Regs>, started: Option<(nat, Word)>) {
    && (started.Some? ==> started.value.0 in ids)
    && (forall t <- ids :: t in base && base[t] == BaseOf(w, started, t))
  }

  lemma BasesStart(w: World, ids: set<nat>, base: map<nat, Regs>, t: nat, pstate: Word)
    requires BasesOk(w, ids, base, None) && t in ids
    ensures BasesOk(w, ids, base[t := StartedRegs(InitialRegs(w, t), pstate)], Some((t, pstate)))
  {
  }

  lemma SpawnBases(w: World, s: State, priority: Byte, stackAvailable: bool, started: Option<(nat, Word)>)
    requires K.Inv(s.k) && s.k.initialized && BasesAre(w, s, started)
    ensures BasesAre(w, Spawned(w, s, priority, stackAvailable), started)
  {
    if stackAvailable && s.k.nextThreadId < w.capacity {
      KernelSpawn(s.k, priority);
      assert Spawned(w, s, priority, true) ==
             State(K.Spawn(s.k, priority, true).1, SpawnOn(w, s.m, s.k.nextThreadId));
    }
  }

  /** Before the first start every context is the initial one. */
  ghost predicate AllInitial(w: World, s: State) {
    forall t <- s.k.threads.Keys :: ReadContext(s.m.mem, w.contextOf(t)) == InitialRegs(w, t)
  }

  lemma InitialUntilStart(w: World, m0: Mem, s: State)
    requires MachineInv(w, m0, s.m, s.k.threads.Keys, Cur(s.k)) && Cur(s.k).None?
    ensures AllInitial(w, s)
  {
    forall t <- s.k.threads.Keys ensures ReadContext(s.m.mem, w.contextOf(t)) == InitialRegs(w, t) {
      assert ThreadOk(w, m0, s.m, Cur(s.k), t);
    }
  }

  lemma StartBases(w: World, s: State, pstate: Word, started: Option<(nat, Word)>)
    requires K.Inv(s.k) && BasesAre(w, s, started) && (Cur(s.k).None? ==> AllInitial(w, s))
    ensures var s' := Started(w, s, pstate);
      BasesAre(w, s', if Cur(s.k).None? && Cur(s'.k).Some? then Some((Cur(s'.k).value, pstate)) else started)
  {
    KernelStart(s.k);
    var k := K.StartFirstThread(s.k);
    if Cur(s.k).None? && Cur(k).Some? {
      BasesStart(w, s.k.threads.Keys, s.m.base, Cur(k).value, pstate);
      StartedIs(w, s, pstate);
    }
  }

  lemma StartedIs(w: World, s: State, pstate: Word)
    requires K.HasCpu(s.k.sched)
    ensures var k := K.StartFirstThread(s.k); var s' := Started(w, s, pstate);
      && s'.k == k
      && (Cur(s.k).None? && Cur(k).Some? ==>
            var t := Cur(k).value;
            s'.m.base == s.m.base[t := StartedRegs(ReadContext(s.m.mem, w.contextOf(t)), pstate)])
      && (Cur(s.k).Some? || Cur(k).None? ==> s'.m == s.m)
  {
  }

  lemma NextBases(w: World, m0: Mem, s: State, e: Event, started: Option<(nat, Word)>)
    requires Inv(w, m0, s) && BasesAre(w, s, started)
    ensures var s' := Next(w, s, e);
      BasesAre(w, s', if e.Start? && Cur(s.k).None? &&
        Cur(s'.k).Some? then Some((Cur(s'.k).value, e.pstate)) else started)
  {
    match e
    case Spawn(priority, stackAvailable) => SpawnBases(w, s, priority, stackAvailable, started);
    case Start(pstate) =>
      if Cur(s.k).None? {
        InitialUntilStart(w, m0, s);
      }
      StartBases(w, s, pstate, started);
    case Instruction =>
    case Interrupt(timer, junk) =>
      InterruptKeepsHistory(w, s, timer, junk);
      InterruptKeepsCurrent(w, s, timer, junk);
  }

  lemma InterruptKeepsCurrent(w: World, s: State, timer: bool, junk: Mem)
    requires K.Inv(s.k) && s.k.initialized
    ensures Cur(Next(w, s, Interrupt(timer, junk)).k).None? ==> Cur(s.k).None?
  {
    if CanInterrupt(w, s, junk) {
      KernelPreempt(s.k);
      InterruptOnly(w, s, timer, junk);
    }
  }

  lemma {:induction false} RunBases(w: World, sched: Scheduler.Scheduler, numCpus: nat, regs: Regs, m0: Mem,
                                    events: seq<Event>)
    requires LayoutOk(w) && ProgramOk(w)
    requires sched == Scheduler.NewFcfs() || (numCpus > 0 && sched == Scheduler.NewRoundRobin(numCpus))
    ensures BasesAre(w, Run(w, Boot(sched, regs, m0), events), StartedWith(w, Boot(sched, regs, m0), events))
  {
    if events != [] {
      var before := events[..|events| - 1];
      RunBases(w, sched, numCpus, regs, m0, before);
      RunKeeps(w, sched, numCpus, regs, m0, before);
      NextBases(w, m0, Run(w, Boot(sched, regs, m0), before), events[|events| - 1],
                StartedWith(w, Boot(sched, regs, m0), before));
    }
  }

  /**
   In every timer-driven run, a thread that has executed nothing yet, whether it has the CPU or only a context,
   is at its entry point, with its argument in x0, at the top of its stack, and with every other register zero and
   interrupts masked. Only the thread that `start_first_thread` ran differs: x11 is its entry point too, and of
   the status word it has the processor's but for the flags.
   */
  lemma FirstInstruction(w: World, sched: Scheduler.Scheduler, numCpus: nat, regs: Regs, m0: Mem,
                         events: seq<Event>, t: nat)
    requires LayoutOk(w) && ProgramOk(w)
    requires sched == Scheduler.NewFcfs() || (numCpus > 0 && sched == Scheduler.NewRoundRobin(numCpus))
    requires var s := Run(w, Boot(sched, regs, m0), events);
      t in s.k.threads && t in s.m.trace && s.m.trace[t] == []
    ensures var s := Run(w, Boot(sched, regs, m0), events); var r := RegsOf(w, s.m, Cur(s.k), t);
      var started := StartedWith(w, Boot(sched, regs, m0), events);
      var first := started.Some? && started.value.0 == t;
      && r.pc == w.entry(t) && r.sp == w.stackTop(t) && |r.x| == 31 && r.x[0] == w.arg(t)
      && (forall i | 1 <= i < 31 :: r.x[i] == if i == 11 && first then w.entry(t) else 0)
      && r.pstate == if first then started.value.1 % 0x1000_0000 else 0x3c5
  {
    RunKeeps(w, sched, numCpus, regs, m0, events);
    RunBases(w, sched, numCpus, regs, m0, events);
    var s := Run(w, Boot(sched, regs, m0), events);
    BaseFields(w, StartedWith(w, Boot(sched, regs, m0), events), t);
    NothingExecuted(w, m0, s, t);
  }

  lemma NothingExecuted(w: World, m0: Mem, s: State, t: nat)
    requires MachineInv(w, m0, s.m, s.k.threads.Keys, Cur(s.k)) && t in s.k.threads.Keys
    requires t in s.m.trace && s.m.trace[t] == []
    ensures t in s.m.base && RegsOf(w, s.m, Cur(s.k), t) == s.m.base[t]
  {
    assert ThreadOk(w, m0, s.m, Cur(s.k), t);
  }

  lemma BaseFields(w: World, started: Option<(nat, Word)>, t: nat)
    ensures var r := BaseOf(w, started, t); var first := started.Some? && started.value.0 == t;
      && r.pc == w.entry(t) && r.sp == w.stackTop(t) && |r.x| == 31 && r.x[0] == w.arg(t)
      && (forall i | 1 <= i < 31 :: r.x[i] == if i == 11 && first then w.entry(t) else 0)
      && r.pstate == if first then started.value.1 % 0x1000_0000 else 0x3c5
  {
  }

  /** How many instructions `t` has executed: one for each such event while it had the CPU. */
  ghost function Executed(w: World, s0: State, events: seq<Event>, t: nat): nat
    requires K.HasCpu(s0.k.sched)
  {
    if events == [] then 0
    else
      var before, e := events[..|events| - 1], events[|events| - 1];
      Executed(w, s0, before, t) + if e.Instruction? && Cur(Run(w, s0, before).k) == Some(t) then 1 else 0
  }

  /** The operation of the kernel that an event amounts to, if any. */
  ghost function OpOf(w: World, s: State, e: Event): Option<K.Op> {
    match e
    case Spawn(priority, stackAvailable) => Some(K.DoSpawn(priority, stackAvailable && s.k.nextThreadId < w.capacity))
    case Start(_) => Some(K.DoStart)
    case Instruction => None
    case Interrupt(timer, junk) => if timer && CanInterrupt(w, s, junk) then Some(K.DoPreempt(true)) else None
  }

  ghost function OpsOf(w: World, s0: State, events: seq<Event>): seq<K.Op>
    requires K.HasCpu(s0.k.sched)
  {
    if events == [] then []
    else
      var before, e := events[..|events| - 1], events[|events| - 1];
      var op := OpOf(w, Run(w, s0, before), e);
      OpsOf(w, s0, before) + if op.Some? then [op.value] else []
  }

  lemma NextKernel(w: World, s: State, e: Event)
    requires K.HasCpu(s.k.sched)
    ensures Next(w, s, e).k == match OpOf(w, s, e) case None => s.k case Some(op) => K.Step(s.k, op)
  {
  }

  /** The kernel of such a run is the kernel model's, on the spawns, starts and timer interrupts that were taken. */
  lemma {:induction false} KernelFollows(w: World, s0: State, events: seq<Event>)
    requires K.HasCpu(s0.k.sched)
    ensures Run(w, s0, events).k == K.Run(s0.k, OpsOf(w, s0, events))
  {
    if events != [] {
      var before, e := events[..|events| - 1], events[|events| - 1];
      var s := Run(w, s0, before);
      KernelFollows(w, s0, before);
      NextKernel(w, s, e);
      var op := OpOf(w, s, e);
      if op.Some? {
        K.RunSnoc(s0.k, OpsOf(w, s0, before), op.value);
      } else {
        assert OpsOf(w, s0, before) + [] == OpsOf(w, s0, before);
      }
    }
  }

  /**
   In every run, a timer interrupt that comes while a thread runs unmasked preempts it, whatever the handler writes
   outside thread memory and contexts; and one that comes while it runs masked does nothing.
   */
  lemma TimerPreempts(w: World, sched: Scheduler.Scheduler, numCpus: nat, regs: Regs, m0: Mem, events: seq<Event>,
                      junk: Mem)
    requires LayoutOk(w) && ProgramOk(w)
    requires sched == Scheduler.NewFcfs() || (numCpus > 0 && sched == Scheduler.NewRoundRobin(numCpus))
    requires forall t: nat, a | a in junk ::
      !w.owns(t, a) && (t < w.capacity ==> !(w.contextOf(t) <= a < w.contextOf(t) + 272))
    ensures var s := Run(w, Boot(sched, regs, m0), events); var s' := Next(w, s, Interrupt(true, junk));
      if s.k.current.Some? && s.m.regs.pstate / 0x80 % 2 == 0 then s'.k == K.Step(s.k, K.DoPreempt(true)) else s' == s
  {
    RunKeeps(w, sched, numCpus, regs, m0, events);
    var s := Run(w, Boot(sched, regs, m0), events);
    if s.k.current.Some? {
      ReturnsSomewhere(w, m0, s);
    }
    TakenWhenUnmasked(w, s, junk);
  }

  lemma TakenWhenUnmasked(w: World, s: State, junk: Mem)
    requires K.HasCpu(s.k.sched) && (s.k.current.Some? ==> s.m.regs.Valid() && s.m.irqLoad != 0)
    requires forall t: nat, a | a in junk ::
      !w.owns(t, a) && (t < w.capacity ==> !(w.contextOf(t) <= a < w.contextOf(t) + 272))
    ensures var s' := Next(w, s, Interrupt(true, junk));
      if s.k.current.Some? && s.m.regs.pstate / 0x80 % 2 == 0 then s'.k == K.Step(s.k, K.DoPreempt(true)) else s' == s
  {
    assert Harmless(w, junk);
    NextKernel(w, s, Interrupt(true, junk));
  }

  lemma ReturnsSomewhere(w: World, m0: Mem, s: State)
    requires LayoutOk(w) && Inv(w, m0, s) && Cur(s.k).Some?
    ensures s.m.regs.Valid() && s.m.irqLoad != 0
  {
    assert ThreadOk(w, m0, s.m, Cur(s.k), Cur(s.k).value);
  }

  /** What an event does to a thread's trace. */
  lemma NextTrace(w: World, m0: Mem, s: State, e: Event, t: nat)
    requires Inv(w, m0, s) && t in Next(w, s, e).k.threads
    ensures var s' := Next(w, s, e);
      && t in s'.m.trace
      && |s'.m.trace[t]| ==
           (if t in s.k.threads && t in s.m.trace then |s.m.trace[t]| else 0) +
           (if e.Instruction? && Cur(s.k) == Some(t) then 1 else 0)
  {
    if t in s.k.threads {
      assert ThreadOk(w, m0, s.m, Cur(s.k), t);
    }
    CurrentIsSpawned(s.k);
    match e
    case Spawn(priority, stackAvailable) => SpawnTrace(w, m0, s, priority, stackAvailable, t);
    case Start(_) => KernelStart(s.k);
    case Instruction =>
    case Interrupt(timer, junk) => InterruptKeepsHistory(w, s, timer, junk);
  }

  lemma SpawnTrace(w: World, m0: Mem, s: State, priority: Byte, stackAvailable: bool, t: nat)
    requires Inv(w, m0, s) && t in Spawned(w, s, priority, stackAvailable).k.threads
    requires t in s.k.threads ==> t in s.m.trace
    ensures var s' := Spawned(w, s, priority, stackAvailable);
      t in s'.m.trace && |s'.m.trace[t]| == if t in s.k.threads then |s.m.trace[t]| else 0
  {
    if stackAvailable && s.k.nextThreadId < w.capacity {
      KernelSpawn(s.k, priority);
      assert Spawned(w, s, priority, true) ==
             State(K.Spawn(s.k, priority, true).1, SpawnOn(w, s.m, s.k.nextThreadId));
      assert t in s.k.threads.Keys + {s.k.nextThreadId};
    }
  }

  /** A thread's trace has one entry for each instruction it executed, and no others. */
  lemma {:induction false} TraceIsExecuted(w: World, sched: Scheduler.Scheduler, numCpus: nat, regs: Regs, m0: Mem,
                                           events: seq<Event>, t: nat)
    requires LayoutOk(w) && ProgramOk(w)
    requires sched == Scheduler.NewFcfs() || (numCpus > 0 && sched == Scheduler.NewRoundRobin(numCpus))
    ensures var s := Run(w, Boot(sched, regs, m0), events);
      var n := Executed(w, Boot(sched, regs, m0), events, t);
      if t in s.k.threads then t in s.m.trace && |s.m.trace[t]| == n else n == 0
  {
    if events != [] {
      var before, e := events[..|events| - 1], events[|events| - 1];
      var s := Run(w, Boot(sched, regs, m0), before);
      TraceIsExecuted(w, sched, numCpus, regs, m0, before, t);
      RunKeeps(w, sched, numCpus, regs, m0, before);
      CurrentIsSpawned(s.k);
      if t in Next(w, s, e).k.threads {
        NextTrace(w, m0, s, e, t);
      } else {
        ThreadsStay(w, s, e);
      }
    }
  }

  lemma ThreadsStay(w: World, s: State, e: Event)
    requires K.Inv(s.k) && s.k.initialized
    ensures s.k.threads.Keys <= Next(w, s, e).k.threads.Keys
  {
    match e
    case Spawn(priority, stackAvailable) =>
      if stackAvailable && s.k.nextThreadId < w.capacity {
        KernelSpawn(s.k, priority);
      }
    case Start(_) => KernelStart(s.k);
    case Instruction =>
    case Interrupt(timer, junk) => InterruptKeepsHistory(w, s, timer, junk);
  }

  /** Outside the handler both IRQ pointers name the current thread's context. */
  lemma PointersNameCurrent(w: World, sched: Scheduler.Scheduler, numCpus: nat, regs: Regs, m0: Mem, events: seq<Event>)
    requires LayoutOk(w) && ProgramOk(w)
    requires sched == Scheduler.NewFcfs() || (numCpus > 0 && sched == Scheduler.NewRoundRobin(numCpus))
    ensures var s := Run(w, Boot(sched, regs, m0), events);
      Cur(s.k).Some? ==> s.m.irqSave == s.m.irqLoad == w.contextOf(Cur(s.k).value)
  {
    RunKeeps(w, sched, numCpus, regs, m0, events);
  }

  /**
   What the pointers are for. If an interrupt saves through the context of thread p while `cur` is running,
   every other thread's context survives and `cur`'s receives its registers exactly when p is `cur`, unless
   the contexts happened to hold `cur`'s registers already. A cooperative hand-over leaves p behind.
   */
  lemma SaveIsRightIff(w: World, mem: Mem, r: Regs, cur: nat, p: nat)
    requires LayoutOk(w) && StackOk(w, cur, r) && cur < w.capacity && p < w.capacity
    ensures var mem' := AfterSave(mem, r, w.contextOf(p));
      && (ReadContext(mem', w.contextOf(cur)) == r <==> p == cur || ReadContext(mem, w.contextOf(cur)) == r)
      && (ReadContext(mem', w.contextOf(p)) == ReadContext(mem, w.contextOf(p)) <==>
        ReadContext(mem, w.contextOf(p)) == r)
      && (forall t: nat | t < w.capacity && t != p ::
        ReadContext(mem', w.contextOf(t)) == ReadContext(mem, w.contextOf(t)))
  {
    SaveThenRead(mem, r, w.contextOf(p));
    forall t: nat | t < w.capacity && t != p
      ensures ReadContext(AfterSave(mem, r, w.contextOf(p)), w.contextOf(t)) == ReadContext(mem, w.contextOf(t))
    {
      FrameApart(w, cur, r, t);
      SaveLeavesOtherContexts(mem, r, w.contextOf(p), w.contextOf(t));
    }
  }

  /**
   The conditions on threads and layout can be met, for up to a million threads: contexts in one array,
   stacks in another, and programs that count in a word of their stack and read it back into x1.
   */
  function CountingWorld(n: nat): World {
    World(
      n,
      (t: nat) => 0x1000 + CONTEXT_SIZE * t,
      (t: nat, a) => t < n && Inside(a, Stack(t), 0x1000),
      (t: nat, r: Regs, a) => t < n && Counts(t, r) && a == Stack(t),
      (t: nat, r: Regs, m: Mem) =>
        if t < n && Counts(t, r)
        then (r.(x := r.x[1 := Load(m, Stack(t))]), m[Stack(t) := Load(m, Stack(t)) + 1])
        else (r, m),
      _ => 0x8_0000, (t: nat) => Stack(t) + 0x1000, _ => 0)
  }

  function Stack(t: nat): Word { 0x1_0000_0000 + 0x2000 * t }

  /** Its stack pointer is where it started. */
  predicate Counts(t: nat, r: Regs) { r.Valid() && r.sp == Stack(t) + 0x1000 }

  lemma CountingLayoutOk(n: nat)
    requires n <= 1_000_000
    ensures LayoutOk(CountingWorld(n))
  {
    var w := CountingWorld(n);
    forall t: nat | t < w.capacity ensures w.contextOf(t) != 0 && StackOk(w, t, InitialRegs(w, t)) {
      assert InitialRegs(w, t).sp == Stack(t) + 0x1000;
    }
  }

  lemma CountingReadsLive(n: nat, t: nat, r: Regs, m: Mem, m': Mem)
    ensures ReadsLive(CountingWorld(n), t, r, m, m')
  {
    var w := CountingWorld(n);
    if t < n && Counts(t, r) && AgreeOnLive(w, t, r, m, m') {
      assert w.live(t, r, Stack(t));
    }
  }

  /** Every thread of this world reads and writes live memory of its own at every instruction. */
  lemma ConditionsCanBeMet(n: nat)
    requires n <= 1_000_000
    ensures LayoutOk(CountingWorld(n)) && ProgramOk(CountingWorld(n)) && CountingWorld(n).capacity == n
    ensures forall t: nat, m: Mem | t < n ::
      var w := CountingWorld(n); var (r, m') := w.step(t, InitialRegs(w, t), m);
      && w.live(t, r, Stack(t)) && r.x[1] == Load(m, Stack(t)) && Load(m', Stack(t)) == Load(m, Stack(t)) + 1
  {
    var w := CountingWorld(n);
    CountingLayoutOk(n);
    forall t, r, m, m' ensures ReadsLive(w, t, r, m, m') {
      CountingReadsLive(n, t, r, m, m');
    }
    forall t, r, m ensures StackOk(w, t, r) ==> StackOk(w, t, w.step(t, r, m).0) {
    }
  }
}
