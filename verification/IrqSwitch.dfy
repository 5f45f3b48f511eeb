/**
 The IRQ entry `irq_el1h` (src/arch/aarch64_vectors.rs) as a register machine over memory: the save
 sequence up to the call of `irq_handler`, and the load sequence after it, one assignment per
 instruction. Both are proved against a one-line description of what a context switch should do.
 */
module IrqSwitch {
  import opened Numbers
  import opened Memory

  const CONTEXT_SIZE := 272
  const FRAME_SIZE := 64

  /** What a thread owns of the processor: x0-x30, sp, pc and pstate. */
  datatype Regs = Regs(x: seq<Word>, sp: Word, pc: Word, pstate: Word) {
    predicate Valid() { |x| == 31 }

    /** The words of an `Aarch64Context`, in field order. */
    function Words(): seq<Word> { x + [sp, pc, pstate] }
  }

  function RegsFrom(words: seq<Word>): (r: Regs)
    requires |words| == 34
    ensures r.Valid() && r.Words() == words
  {
    assert words == words[..31] + [words[31], words[32], words[33]];
    Regs(words[..31], words[31], words[32], words[33])
  }

  function ReadContext(mem: Mem, p: int): (r: Regs)
    ensures r.Valid()
  {
    RegsFrom(LoadWords(mem, p, 34))
  }

  /** What the entry code pushes on the interrupted thread's stack before it has a register to spare. */
  function FrameWords(r: Regs): seq<Word>
    requires r.Valid()
  {
    [r.x[0], r.x[1], r.x[2], r.x[3], r.x[29], r.x[30], r.pc, r.pstate]
  }

  /** Memory when `irq_handler` is called: the frame below sp, and the whole context if there is one. */
  function AfterSave(mem: Mem, r: Regs, ctx: Word): Mem
    requires r.Valid()
  {
    var framed := StoreWords(mem, r.sp - FRAME_SIZE, FrameWords(r));
    if ctx == 0 then framed else StoreWords(framed, ctx, r.Words())
  }

  /** The registers as `context_switch` stores them. */
  function ScratchTaken(x: seq<Word>, nzcv: Word, prev: Word, next: Word): (x': seq<Word>)
    requires |x| == 31
    ensures |x'| == 31 && forall i | 0 <= i < 31 && i != 11 && i != 12 && i != 13 :: x'[i] == x[i]
  {
    x[11 := nzcv][12 := prev][13 := next]
  }

  /** Memory when `context_switch` turns to its second half. */
  function AfterSwitchSave(mem: Mem, x: seq<Word>, sp: Word, nzcv: Word, prev: Word, next: Word, resumeAt: Word): Mem
    requires |x| == 31
  {
    StoreWords(StoreWords(mem, prev + 248, [sp, resumeAt, nzcv]), prev, ScratchTaken(x, nzcv, prev, next))
  }

  /**
   The registers with which `context_switch` resumes the thread whose context is at `next`: x11 carries the
   address that is jumped to, and of the status word only the flags count.
   */
  function SwitchedTo(mem: Mem, next: Word): (r: Regs)
    ensures r.Valid()
  {
    var pc := Load(mem, next + 256);
    Regs(LoadWords(mem, next, 31)[11 := pc], Load(mem, next + 248), pc, Load(mem, next + 264))
  }

  class Processor {
    var x: seq<Word>
    var sp: Word
    var elr: Word
    var spsr: Word
    var nzcv: Word
    var mem: Mem
    var irqSaveCtx: Word   // IRQ_SAVE_CTX, 0 for null
    var irqLoadCtx: Word   // IRQ_LOAD_CTX
    const irqStack: Word   // the address of IRQ_STACK
    const irqSaveSymbol: Word
    const irqLoadSymbol: Word

    /** The interrupted thread's registers, as the hardware leaves them on exception entry. */
    ghost function Interrupted(): Regs
      reads this
    {
      Regs(x, sp, elr, spsr)
    }

    /** Lines 198-204: spill to the thread's stack. */
    method Spill()
      requires |x| == 31 && FRAME_SIZE <= sp < WORD_LIMIT
      modifies this`x, this`sp, this`mem
      ensures |x| == 31 && sp == old(sp) - 64
      ensures mem == StoreWords(old(mem), sp, FrameWords(old(Interrupted())))
      ensures forall i | 2 <= i < 31 :: x[i] == old(x[i])
    {
      ghost var m0, words := mem, FrameWords(Interrupted());
      sp := Wrap(sp - 64);
      mem := mem[sp + 0 := x[0]][sp + 8 := x[1]];
      StorePair(m0, sp, words, 0);
      mem := mem[sp + 16 := x[2]][sp + 24 := x[3]];
      StorePair(m0, sp, words, 2);
      mem := mem[sp + 32 := x[29]][sp + 40 := x[30]];
      StorePair(m0, sp, words, 4);
      x := x[0 := elr];
      x := x[1 := spsr];
      mem := mem[sp + 48 := x[0]][sp + 56 := x[1]];
      StorePair(m0, sp, words, 6);
      assert words[..8] == words;
    }

    /** Lines 206-216: remember the thread's sp, move to the IRQ stack, fetch the save pointer. */
    method SwitchStack()
      requires |x| == 31 && 0 <= sp < WORD_LIMIT - 64
      modifies this`x, this`sp
      ensures |x| == 31 && sp == Wrap(irqStack + 4096)
      ensures x[0] == old(sp) + 64 && x[2] == old(sp) && x[29] == irqSaveCtx
      ensures forall i | 3 <= i < 29 :: x[i] == old(x[i])
    {
      x := x[0 := Wrap(sp + 64)];
      x := x[29 := irqStack];
      x := x[29 := Wrap(x[29] + 4096)];
      x := x[2 := sp];
      sp := x[29];
      x := x[29 := irqSaveSymbol];
      x := x[29 := irqSaveCtx];
    }

    // The stores of the save sequences, each filling the next words of the context block at xN.

    /** stp xA, xB, [xN, #offset] */
    method Stp(a: nat, b: nat, n: nat, offset: nat, ghost m0: Mem, ghost words: seq<Word>)
      requires |x| == 31 && b < 31 && n < 31 && b == a + 1 && offset == 8 * a && b < |words|
      requires mem == StoreWords(m0, x[n], words[..a]) && words[a] == x[a] && words[b] == x[b]
      modifies this`mem
      ensures mem == StoreWords(m0, x[n], words[..b + 1])
    {
      StorePair(m0, x[n], words, a);
      mem := mem[x[n] + offset := x[a]][x[n] + (offset + 8) := x[b]];
    }

    /** str xA, [xN, #offset] */
    method Str(a: nat, n: nat, offset: nat, ghost m0: Mem, ghost words: seq<Word>, ghost k: nat)
      requires |x| == 31 && a < 31 && n < 31 && offset == 8 * k && k < |words|
      requires mem == StoreWords(m0, x[n], words[..k]) && words[k] == x[a]
      modifies this`mem
      ensures mem == StoreWords(m0, x[n], words[..k + 1])
    {
      StoreNext(m0, x[n], words, k);
      mem := mem[x[n] + offset := x[a]];
    }

    /** ldr xA, [x2, #offset], of a word spilled to the frame */
    method LdrFrame(a: nat, offset: nat, ghost m0: Mem, ghost words: seq<Word>, ghost k: nat,
                    ghost spilled: seq<Word>, ghost i: nat)
      requires |x| == 31 && (a == 1 || a == 3) && offset == 8 * i && i < 8 && k <= |words| == 34
      requires mem == StoreWords(m0, x[29], words[..k])
      requires Apart(x[29], CONTEXT_SIZE, x[2], FRAME_SIZE) && Spilled(m0, x[2], spilled)
      modifies this`x
      ensures x == old(x)[a := spilled[i]]
    {
      SpilledWord(m0, x[29], words[..k], x[2], spilled, i);
      x := x[a := Load(mem, x[2] + offset)];
    }

    /** Lines 220-228: x0-x3, by way of the frame. */
    method StoreLow(ghost m0: Mem, ghost words: seq<Word>, ghost spilled: seq<Word>)
      requires |x| == 31 && |words| == 34 && mem == m0
      requires Apart(x[29], CONTEXT_SIZE, x[2], FRAME_SIZE) && Spilled(m0, x[2], spilled)
      requires words[..4] == spilled[..4]
      modifies this`x, this`mem
      ensures |x| == 31 && mem == StoreWords(m0, x[29], words[..4])
      ensures forall i | 0 <= i < 31 && i != 1 && i != 3 :: x[i] == old(x[i])
    {
      assert forall i | 0 <= i < 4 :: words[i] == words[..4][i] == spilled[..4][i] == spilled[i];
      LdrFrame(3, 0, m0, words, 0, spilled, 0);
      LdrFrame(1, 8, m0, words, 0, spilled, 1);
      LdrFrame(3, 0, m0, words, 0, spilled, 0);
      Str(3, 29, 0, m0, words, 0);
      LdrFrame(3, 8, m0, words, 1, spilled, 1);
      Str(3, 29, 8, m0, words, 1);
      LdrFrame(3, 16, m0, words, 2, spilled, 2);
      Str(3, 29, 16, m0, words, 2);
      LdrFrame(3, 24, m0, words, 3, spilled, 3);
      Str(3, 29, 24, m0, words, 3);
    }

    /** Lines 230-242: x4-x28. */
    method StoreGeneral(ghost m0: Mem, ghost words: seq<Word>)
      requires |x| == 31 && |words| == 34
      requires mem == StoreWords(m0, x[29], words[..4])
      requires forall i | 4 <= i < 29 :: words[i] == x[i]
      modifies this`mem
      ensures mem == StoreWords(m0, x[29], words[..29])
    {
      Stp(4, 5, 29, 32, m0, words);
      Stp(6, 7, 29, 48, m0, words);
      Stp(8, 9, 29, 64, m0, words);
      Stp(10, 11, 29, 80, m0, words);
      Stp(12, 13, 29, 96, m0, words);
      Stp(14, 15, 29, 112, m0, words);
      Stp(16, 17, 29, 128, m0, words);
      Stp(18, 19, 29, 144, m0, words);
      Stp(20, 21, 29, 160, m0, words);
      Stp(22, 23, 29, 176, m0, words);
      Stp(24, 25, 29, 192, m0, words);
      Stp(26, 27, 29, 208, m0, words);
      Str(28, 29, 224, m0, words, 28);
    }

    /** Lines 244-252: x29, x30, sp, pc and pstate. */
    method StoreSpecial(ghost m0: Mem, ghost words: seq<Word>, ghost spilled: seq<Word>)
      requires |x| == 31 && |words| == 34 && mem == StoreWords(m0, x[29], words[..29])
      requires Apart(x[29], CONTEXT_SIZE, x[2], FRAME_SIZE) && Spilled(m0, x[2], spilled)
      requires words[29] == spilled[4] && words[30] == spilled[5] && words[31] == x[0]
      requires words[32] == spilled[6] && words[33] == spilled[7]
      modifies this`x, this`mem
      ensures |x| == 31 && mem == StoreWords(m0, old(x[29]), words)
    {
      LdrFrame(3, 32, m0, words, 29, spilled, 4);
      LdrFrame(1, 40, m0, words, 29, spilled, 5);
      Str(3, 29, 232, m0, words, 29);
      Str(1, 29, 240, m0, words, 30);
      Str(0, 29, 248, m0, words, 31);
      LdrFrame(3, 48, m0, words, 32, spilled, 6);
      LdrFrame(1, 56, m0, words, 32, spilled, 7);
      Str(3, 29, 256, m0, words, 32);
      Str(1, 29, 264, m0, words, 33);
      assert words[..34] == words;
    }

    /**
     The whole save sequence: the frame goes on the thread's stack, and the context named by
     IRQ_SAVE_CTX, if any, receives the interrupted registers.
     */
    method SaveContext()
      requires |x| == 31 && FRAME_SIZE <= sp < WORD_LIMIT
      requires irqSaveCtx != 0 ==> Apart(irqSaveCtx, CONTEXT_SIZE, sp - FRAME_SIZE, FRAME_SIZE)
      modifies this`x, this`sp, this`mem
      ensures |x| == 31 && sp == Wrap(irqStack + 4096)
      ensures mem == AfterSave(old(mem), old(Interrupted()), irqSaveCtx)
    {
      ghost var r, m0, frame := Interrupted(), mem, sp - 64;
      ghost var words, spilled := r.Words(), FrameWords(r);
      Spill();
      SwitchStack();
      if x[29] != 0 {
        ghost var framed := mem;
        forall i | 0 <= i < 8 ensures Load(framed, frame + 8 * i) == spilled[i] {
          LoadStored(m0, frame, spilled, i);
        }
        assert words[..4] == spilled[..4];
        StoreLow(framed, words, spilled);
        StoreGeneral(framed, words);
        StoreSpecial(framed, words, spilled);
      }
    }
    // The loads of the return sequence, each restoring the next registers.

    /** ldp xA, xB, [x29, #offset] */
    method Ldp(a: nat, b: nat, offset: nat, ghost words: seq<Word>)
      requires |x| == 31 && b == a + 1 && b < 29 && offset == 8 * a
      requires words == LoadWords(mem, x[29], 34) && x[..a] == words[..a]
      modifies this`x
      ensures |x| == 31 && x[29] == old(x[29]) && x[..b + 1] == words[..b + 1]
    {
      x := x[a := Load(mem, x[29] + offset)][b := Load(mem, x[29] + (offset + 8))];
      assert words[..b + 1] == words[..a] + [words[a], words[b]];
    }

    /** Lines 271-288: all the general registers, x29 last because it is the base. */
    method LoadGeneral(ghost words: seq<Word>)
      requires |x| == 31 && words == LoadWords(mem, x[29], 34)
      modifies this`x
      ensures |x| == 31 && x == words[..31]
    {
      Ldp(0, 1, 0, words);
      Ldp(2, 3, 16, words);
      Ldp(4, 5, 32, words);
      Ldp(6, 7, 48, words);
      Ldp(8, 9, 64, words);
      Ldp(10, 11, 80, words);
      Ldp(12, 13, 96, words);
      Ldp(14, 15, 112, words);
      Ldp(16, 17, 128, words);
      Ldp(18, 19, 144, words);
      Ldp(20, 21, 160, words);
      Ldp(22, 23, 176, words);
      Ldp(24, 25, 192, words);
      Ldp(26, 27, 208, words);
      x := x[28 := Load(mem, x[29] + 224)];
      assert x[..29] == words[..29] by { assert words[..29] == words[..28] + [words[28]]; }
      x := x[30 := Load(mem, x[29] + 240)];
      x := x[29 := Load(mem, x[29] + 232)];
      assert words[..31] == words[..29] + [words[29], words[30]];
    }

    /**
     The return sequence: every register comes from the context named by IRQ_LOAD_CTX. With a null
     pointer the processor stops for good.
     */
    method LoadContext() returns (stopped: bool)
      requires |x| == 31
      modifies this`x, this`sp, this`elr, this`spsr
      ensures stopped == (irqLoadCtx == 0)
      ensures !stopped ==> Interrupted() == ReadContext(mem, irqLoadCtx)
    {
      x := x[29 := irqLoadSymbol];
      x := x[29 := irqLoadCtx];
      if x[29] == 0 {
        return true;
      }
      ghost var words := LoadWords(mem, irqLoadCtx, 34);
      x := x[0 := Load(mem, x[29] + 264)];
      spsr := x[0];
      x := x[0 := Load(mem, x[29] + 256)];
      elr := x[0];
      x := x[0 := Load(mem, x[29] + 248)];
      sp := x[0];
      LoadGeneral(words);
      stopped := false;
    }

    /**
     An interrupt that does not switch threads, whatever the handler leaves in the registers and wherever
     it writes outside the context, resumes with exactly the registers it interrupted.
     */
    method IrqWithoutSwitch(clobbered: seq<Word>, elr': Word, spsr': Word, sp': Word, mem': Mem)
      requires |x| == 31 && FRAME_SIZE <= sp < WORD_LIMIT && irqSaveCtx == irqLoadCtx != 0 && |clobbered| == 31
      requires Apart(irqSaveCtx, CONTEXT_SIZE, sp - FRAME_SIZE, FRAME_SIZE)
      requires LoadWords(mem', irqSaveCtx, 34) == LoadWords(AfterSave(mem, Interrupted(), irqSaveCtx), irqSaveCtx, 34)
      modifies this`x, this`sp, this`elr, this`spsr, this`mem
      ensures Interrupted() == old(Interrupted())
    {
      SaveThenRead(mem, Interrupted(), irqSaveCtx);
      SaveContext();
      x, elr, spsr, sp, mem := clobbered, elr', spsr', sp', mem';
      var stopped := LoadContext();
    }
    // ---- src/arch/aarch64.rs: context_switch ----

    /** Lines 79-106: everything goes to `prev`, after x11, x12 and x13 have been taken as scratch. */
    method SwitchSave(prev: Word, next: Word, resumeAt: Word)
      requires |x| == 31
      modifies this`x, this`mem
      ensures mem == AfterSwitchSave(old(mem), old(x), sp, nzcv, prev, next, resumeAt)
      ensures x == ScratchTaken(old(x), nzcv, prev, next)
    {
      ghost var m0 := mem;
      x := x[12 := prev];
      x := x[13 := next];
      x := x[11 := sp];
      mem := mem[x[12] + 248 := x[11]];
      x := x[11 := resumeAt];
      mem := mem[x[12] + 256 := x[11]];
      x := x[11 := nzcv];
      mem := mem[x[12] + 264 := x[11]];
      ghost var special := [sp, resumeAt, nzcv];
      StoreThree(m0, prev + 248, special);
      ghost var m1 := mem;
      assert x == ScratchTaken(old(x), nzcv, prev, next);
      StoreAll(m1, x);
    }

    /** Lines 90-106. */
    method StoreAll(ghost m1: Mem, ghost words: seq<Word>)
      requires |x| == 31 && words == x && mem == m1
      modifies this`mem
      ensures mem == StoreWords(m1, x[12], x)
    {
      assert words[..0] == [];
      Stp(0, 1, 12, 0, m1, words);
      Stp(2, 3, 12, 16, m1, words);
      Stp(4, 5, 12, 32, m1, words);
      Stp(6, 7, 12, 48, m1, words);
      Str(8, 12, 64, m1, words, 8);
      Str(9, 12, 72, m1, words, 9);
      Stp(10, 11, 12, 80, m1, words);
      Stp(12, 13, 12, 96, m1, words);
      Stp(14, 15, 12, 112, m1, words);
      Stp(16, 17, 12, 128, m1, words);
      Stp(18, 19, 12, 144, m1, words);
      Stp(20, 21, 12, 160, m1, words);
      Stp(22, 23, 12, 176, m1, words);
      Stp(24, 25, 12, 192, m1, words);
      Stp(26, 27, 12, 208, m1, words);
      Stp(28, 29, 12, 224, m1, words);
      Str(30, 12, 240, m1, words, 30);
      assert words[..31] == words;
    }

    /**
     Lines 109-139: everything comes from `next`, which x13 holds.
     */
    method SwitchLoad(ghost next: Word) returns (pc: Word)
      requires |x| == 31 && x[13] == next
      modifies this`x, this`sp, this`nzcv
      ensures Regs(x, sp, pc, nzcv) == SwitchedTo(mem, next)
    {
      x := x[11 := Load(mem, x[13] + 248)];
      sp := x[11];
      x := x[11 := Load(mem, x[13] + 264)];
      nzcv := x[11];
      ghost var words := LoadWords(mem, next, 31);
      LoadLow(words);
      LoadHigh(words);
      x := x[11 := Load(mem, x[13] + 256)];
      x := x[10 := Load(mem, x[13] + 80)][12 := Load(mem, x[13] + 88)];
      x := x[12 := Load(mem, x[13] + 96)][13 := Load(mem, x[13] + 104)];
      pc := x[11];
      assert x[..10] == words[..10] && x[14..] == words[14..];
      Reassemble(x, words);
    }

    /** The whole of `context_switch`, up to the jump. */
    method ContextSwitch(prev: Word, next: Word, resumeAt: Word) returns (pc: Word)
      requires |x| == 31
      modifies this`x, this`sp, this`nzcv, this`mem
      ensures mem == AfterSwitchSave(old(mem), old(x), old(sp), old(nzcv), prev, next, resumeAt)
      ensures Regs(x, sp, pc, nzcv) == SwitchedTo(mem, next)
    {
      SwitchSave(prev, next, resumeAt);
      pc := SwitchLoad(next);
    }

    /** Lines 115-120: x0-x9. */
    method LoadLow(ghost words: seq<Word>)
      requires |x| == 31 && words == LoadWords(mem, x[13], 31)
      modifies this`x
      ensures |x| == 31 && x[..10] == words[..10] && x[10..] == old(x)[10..]
    {
      x := x[0 := Load(mem, x[13] + 0)][1 := Load(mem, x[13] + 8)];
      x := x[2 := Load(mem, x[13] + 16)][3 := Load(mem, x[13] + 24)];
      x := x[4 := Load(mem, x[13] + 32)][5 := Load(mem, x[13] + 40)];
      x := x[6 := Load(mem, x[13] + 48)][7 := Load(mem, x[13] + 56)];
      x := x[8 := Load(mem, x[13] + 64)];
      x := x[9 := Load(mem, x[13] + 72)];
      assert x[..10] == words[..10];
    }

    /** Lines 123-131: x14-x30. */
    method LoadHigh(ghost words: seq<Word>)
      requires |x| == 31 && words == LoadWords(mem, x[13], 31)
      modifies this`x
      ensures |x| == 31 && x[14..] == words[14..] && x[..14] == old(x)[..14]
    {
      x := x[14 := Load(mem, x[13] + 112)][15 := Load(mem, x[13] + 120)];
      x := x[16 := Load(mem, x[13] + 128)][17 := Load(mem, x[13] + 136)];
      x := x[18 := Load(mem, x[13] + 144)][19 := Load(mem, x[13] + 152)];
      x := x[20 := Load(mem, x[13] + 160)][21 := Load(mem, x[13] + 168)];
      x := x[22 := Load(mem, x[13] + 176)][23 := Load(mem, x[13] + 184)];
      x := x[24 := Load(mem, x[13] + 192)][25 := Load(mem, x[13] + 200)];
      x := x[26 := Load(mem, x[13] + 208)][27 := Load(mem, x[13] + 216)];
      x := x[28 := Load(mem, x[13] + 224)][29 := Load(mem, x[13] + 232)];
      x := x[30 := Load(mem, x[13] + 240)];
      assert x[14..] == words[14..];
    }
  }

  /** The frame holds the spilled words. */
  ghost predicate Spilled(mem: Mem, frame: int, spilled: seq<Word>) {
    |spilled| == 8 && forall i | 0 <= i < 8 :: Load(mem, frame + 8 * i) == spilled[i]
  }

  /** A spilled word, read back while the context is partly written. */
  lemma SpilledWord(m0: Mem, ctx: int, written: seq<Word>, frame: int, spilled: seq<Word>, i: nat)
    requires i < 8 && |written| <= 34 && Apart(ctx, CONTEXT_SIZE, frame, FRAME_SIZE) && Spilled(m0, frame, spilled)
    ensures Load(StoreWords(m0, ctx, written), frame + 8 * i) == spilled[i]
  {
    LoadOutside(m0, ctx, written, frame + 8 * i);
  }

  // ---------------------------------------------------------------------------------------------
  // What the save sequence means
  // ---------------------------------------------------------------------------------------------

  lemma WordsRoundTrip(r: Regs)
    requires r.Valid()
    ensures |r.Words()| == 34 && RegsFrom(r.Words()) == r
  {
    assert r.Words()[..31] == r.x;
  }

  /** A saved context reads back as the registers that were interrupted. */
  lemma SaveThenRead(mem: Mem, r: Regs, ctx: Word)
    requires r.Valid() && ctx != 0
    ensures ReadContext(AfterSave(mem, r, ctx), ctx) == r
  {
    LoadBack(StoreWords(mem, r.sp - FRAME_SIZE, FrameWords(r)), ctx, r.Words());
    WordsRoundTrip(r);
  }

  /** The save sequence writes only the 64 bytes below sp and the 272 bytes of the context. */
  lemma SaveWritesOnly(mem: Mem, r: Regs, ctx: Word, a: int)
    requires r.Valid() && !Inside(a, r.sp - FRAME_SIZE, FRAME_SIZE)
    requires ctx != 0 ==> !Inside(a, ctx, CONTEXT_SIZE)
    ensures Load(AfterSave(mem, r, ctx), a) == Load(mem, a)
  {
    LoadOutside(mem, r.sp - FRAME_SIZE, FrameWords(r), a);
    if ctx != 0 {
      LoadOutside(StoreWords(mem, r.sp - FRAME_SIZE, FrameWords(r)), ctx, r.Words(), a);
    }
  }

  /** Any other context is left as it was. */
  lemma SaveLeavesOtherContexts(mem: Mem, r: Regs, ctx: Word, other: int)
    requires r.Valid() && Apart(other, CONTEXT_SIZE, r.sp - FRAME_SIZE, FRAME_SIZE)
    requires ctx != 0 ==> Apart(other, CONTEXT_SIZE, ctx, CONTEXT_SIZE)
    ensures ReadContext(AfterSave(mem, r, ctx), other) == ReadContext(mem, other)
  {
    LoadWordsOutside(mem, r.sp - FRAME_SIZE, FrameWords(r), other, 34);
    if ctx != 0 {
      LoadWordsOutside(StoreWords(mem, r.sp - FRAME_SIZE, FrameWords(r)), ctx, r.Words(), other, 34);
    }
  }

  // ---------------------------------------------------------------------------------------------
  // What the cooperative switch means
  // ---------------------------------------------------------------------------------------------

  lemma StoreThree(mem: Mem, p: int, words: seq<Word>)
    requires |words| == 3
    ensures mem[p + 0 := words[0]][p + 8 := words[1]][p + 16 := words[2]] == StoreWords(mem, p, words)
  {
    StoreNext(mem, p, words, 0);
    StoreNext(mem, p, words, 1);
    StoreNext(mem, p, words, 2);
    assert words[..3] == words;
  }

  lemma Reassemble(x: seq<Word>, words: seq<Word>)
    requires |x| == |words| == 31 && x[..10] == words[..10] && x[14..] == words[14..]
    requires x[10] == words[10] && x[12] == words[12] && x[13] == words[13]
    ensures x == words[11 := x[11]]
  {
    forall i | 0 <= i < 31 && i != 11 ensures x[i] == words[i] {
      if i < 10 {
        assert x[i] == x[..10][i];
      } else if i >= 14 {
        assert x[i] == x[14..][i - 14];
      }
    }
  }

  /**
   A thread that left through `context_switch` and is switched back to by another one resumes, if its context
   was not touched meanwhile, after the jump, with its stack pointer and flags and with every register as it
   left it, except the three the code declares as clobbered: x11 to x13.
   */
  lemma CooperativeRoundTrip(mem: Mem, x: seq<Word>, sp: Word, nzcv: Word, prev: Word, next: Word, resumeAt: Word,
                             later: Mem)
    requires |x| == 31
    requires LoadWords(later, prev, 34) == LoadWords(AfterSwitchSave(mem, x, sp, nzcv, prev, next, resumeAt), prev, 34)
    ensures var back := SwitchedTo(later, prev);
      && (forall i | 0 <= i < 31 && i != 11 && i != 12 && i != 13 :: back.x[i] == x[i])
      && back.x[11] == resumeAt && back.x[12] == prev && back.x[13] == next
      && back.sp == sp && back.pc == resumeAt && back.pstate == nzcv
  {
    var m1 := StoreWords(mem, prev + 248, [sp, resumeAt, nzcv]);
    var mem' := AfterSwitchSave(mem, x, sp, nzcv, prev, next, resumeAt);
    var stored := ScratchTaken(x, nzcv, prev, next);
    forall i | 0 <= i < 31 ensures LoadWords(later, prev, 31)[i] == stored[i] {
      LoadStored(m1, prev, stored, i);
      SameWord(later, mem', prev, i);
    }
    SpecialWord(mem, x, sp, nzcv, prev, next, resumeAt, 0);
    SameWord(later, mem', prev, 31);
    SpecialWord(mem, x, sp, nzcv, prev, next, resumeAt, 1);
    SameWord(later, mem', prev, 32);
    SpecialWord(mem, x, sp, nzcv, prev, next, resumeAt, 2);
    SameWord(later, mem', prev, 33);
  }

  lemma SameWord(later: Mem, mem: Mem, p: int, i: nat)
    requires i < 34 && LoadWords(later, p, 34) == LoadWords(mem, p, 34)
    ensures Load(later, p + 8 * i) == Load(mem, p + 8 * i)
  {
    assert LoadWords(later, p, 34)[i] == LoadWords(mem, p, 34)[i];
  }

  lemma SpecialWord(mem: Mem, x: seq<Word>, sp: Word, nzcv: Word, prev: Word, next: Word, resumeAt: Word, i: nat)
    requires |x| == 31 && i < 3
    ensures LoadWords(AfterSwitchSave(mem, x, sp, nzcv, prev, next, resumeAt), prev, 34)[31 + i] ==
      [sp, resumeAt, nzcv][i]
  {
    LoadStored(mem, prev + 248, [sp, resumeAt, nzcv], i);
    LoadOutside(StoreWords(mem, prev + 248, [sp, resumeAt, nzcv]), prev, ScratchTaken(x, nzcv, prev, next),
      prev + 248 + 8 * i);
  }
}
