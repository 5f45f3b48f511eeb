/**
 The bump allocator of examples/rpi_kernel.rs: any number of concurrent `alloc` calls, each a loop of
 one load and one compare-and-swap on the shared offset, with the alignment done by a bit mask.
 */
module BumpAllocator {
  import opened Numbers

  // ---------------------------------------------------------------------------------------------
  // Bits
  // ---------------------------------------------------------------------------------------------

  function Pow2(k: nat): (p: nat)
    ensures p > 0
  {
    if k == 0 then 1 else 2 * Pow2(k - 1)
  }

  /** Bitwise and. */
  function And(a: nat, b: nat): nat {
    if a == 0 || b == 0 then 0 else 2 * And(a / 2, b / 2) + (a % 2) * (b % 2)
  }

  /** Bitwise not of a 64-bit word. */
  function Not(a: nat): nat
    requires a < WORD_LIMIT
  {
    WORD_LIMIT - 1 - a
  }

  lemma {:induction false} AndOnes(x: nat, n: nat)
    requires x < Pow2(n)
    ensures And(x, Pow2(n) - 1) == x
  {
    if x > 0 {
      assert (Pow2(n) - 1) / 2 == Pow2(n - 1) - 1 && (Pow2(n) - 1) % 2 == 1;
      AndOnes(x / 2, n - 1);
    }
  }

  lemma ModDouble(x: nat, p: nat)
    requires p > 0
    ensures x % (2 * p) == 2 * ((x / 2) % p) + x % 2
  {
    var h := x / 2;
    var q, r := h / p, h % p;
    assert x == q * (2 * p) + (2 * r + x % 2) by {
      assert h == p * q + r;
      assert 2 * (p * q) == q * (2 * p);
    }
    DivModIs(x, 2 * p, q, 2 * r + x % 2);
  }

  /** Clearing the low k bits of an n-bit number rounds it down to a multiple of 2^k. */
  lemma {:induction false} ClearLowBits(x: nat, n: nat, k: nat)
    requires k <= n && x < Pow2(n)
    ensures Pow2(k) <= Pow2(n) && And(x, Pow2(n) - Pow2(k)) == x - x % Pow2(k)
  {
    if k == 0 {
      AndOnes(x, n);
    } else {
      ClearLowBits(x / 2, n - 1, k - 1);
      var mask := Pow2(n - 1) - Pow2(k - 1);
      assert Pow2(n) - Pow2(k) == 2 * mask;
      ModDouble(x, Pow2(k - 1));
      AndEven(x, mask);
    }
  }

  lemma AndEven(x: nat, mask: nat)
    ensures And(x, 2 * mask) == 2 * And(x / 2, mask)
  {
    assert (2 * mask) / 2 == mask && (2 * mask) % 2 == 0;
  }

  lemma Pow2Byte(k: nat)
    ensures Pow2(k + 8) == 256 * Pow2(k)
  {
    assert Pow2(k + 2) == 4 * Pow2(k);
    assert Pow2(k + 4) == 4 * Pow2(k + 2);
    assert Pow2(k + 6) == 4 * Pow2(k + 4);
    assert Pow2(k + 8) == 4 * Pow2(k + 6);
  }

  lemma Pow2Is64()
    ensures Pow2(64) == WORD_LIMIT
  {
    Pow2Byte(0);
    Pow2Byte(8);
    Pow2Byte(16);
    Pow2Byte(24);
    Pow2Byte(32);
    Pow2Byte(40);
    Pow2Byte(48);
    Pow2Byte(56);
  }

  /** `(current + align - 1) & !(align - 1)` on 64-bit words. */
  function AlignUp(current: nat, align: nat): nat
    requires 0 < align <= WORD_LIMIT && current + align - 1 < WORD_LIMIT
  {
    And(current + align - 1, Not(align - 1))
  }

  lemma RoundDown(x: nat, p: nat) returns (r: nat)
    requires p > 0
    ensures r == x - x % p && r % p == 0 && x - p < r <= x
  {
    r := x - x % p;
    assert r == (x / p) * p + 0;
    DivModIs(r, p, x / p, 0);
  }

  lemma {:induction false} MaskClears(x: nat, k: nat)
    requires k <= 64 && x < WORD_LIMIT
    ensures Pow2(k) <= WORD_LIMIT && And(x, Not(Pow2(k) - 1)) == x - x % Pow2(k)
  {
    Pow2Is64();
    ClearLowBits(x, 64, k);
  }

  /** For a power of two the mask is rounding up: the least multiple of `align` that is at least `current`. */
  lemma {:induction false} AlignUpRoundsUp(current: nat, k: nat)
    requires k <= 64 && current + Pow2(k) - 1 < WORD_LIMIT
    ensures Pow2(k) <= WORD_LIMIT
    ensures var aligned := AlignUp(current, Pow2(k));
      aligned % Pow2(k) == 0 && current <= aligned < current + Pow2(k)
  {
    var x := current + Pow2(k) - 1;
    MaskClears(x, k);
    var r := RoundDown(x, Pow2(k));
    assert AlignUp(current, Pow2(k)) == r;
  }

  // ---------------------------------------------------------------------------------------------
  // The allocator
  // ---------------------------------------------------------------------------------------------

  const HEAP_SIZE := 16 * 1024 * 1024

  /** A `Layout`: its alignment is 2^shift, and its size rounded up to it fits in an `isize`. */
  datatype Layout = Layout(size: nat, shift: nat) {
    function Align(): nat { Pow2(shift) }

    predicate Valid() { shift < 64 && size + Align() - 1 < 0x8000_0000_0000_0000 }
  }

  datatype Pc = LoadNext(layout: Layout) | Cas(layout: Layout, current: nat, aligned: nat, newNext: nat)

  /** A block handed out: its offset in the heap and the layout it was asked for. */
  datatype Block = Block(start: nat, layout: Layout) {
    function End(): nat { start + layout.size }
  }

  datatype State = State(next: nat, calls: map<nat, Pc>, blocks: seq<Block>)

  datatype Action = Begin(p: nat, layout: Layout) | Step(p: nat)

  function Init(): State { State(0, map[], []) }

  /** Whether every sum of one turn of the loop stays within 64 bits; `current + align` comes before the `- 1`. */
  predicate Fits(current: nat, layout: Layout) {
    && layout.Valid()
    && current + layout.Align() < WORD_LIMIT
    && layout.Align() <= WORD_LIMIT
    && AlignUp(current, layout.Align()) + layout.size < WORD_LIMIT
  }

  function Next(s: State, a: Action): State {
    match a
    case Begin(p, layout) =>
      if p in s.calls || !layout.Valid() then s else s.(calls := s.calls[p := LoadNext(layout)])
    case Step(p) => if p in s.calls then StepCall(s, p) else s
  }

  /** A call that finds no room returns null and is gone; the addresses would have to fit, and they do. */
  function StepCall(s: State, p: nat): State
    requires p in s.calls
  {
    match s.calls[p]
    case LoadNext(layout) =>
      if !Fits(s.next, layout) then s
      else
        var aligned := AlignUp(s.next, layout.Align());
        if aligned + layout.size > HEAP_SIZE then s.(calls := s.calls - {p})
        else s.(calls := s.calls[p := Cas(layout, s.next, aligned, aligned + layout.size)])
    case Cas(layout, current, aligned, newNext) =>
      if s.next == current
      then s.(next := newNext, calls := s.calls - {p}, blocks := s.blocks + [Block(aligned, layout)])
      else s.(calls := s.calls[p := LoadNext(layout)])
  }

  function Run(s: State, actions: seq<Action>): State {
    if actions == [] then s else Next(Run(s, actions[..|actions| - 1]), actions[|actions| - 1])
  }

  // ---------------------------------------------------------------------------------------------
  // What every step keeps
  // ---------------------------------------------------------------------------------------------

  ghost predicate CallOk(pc: Pc) {
    && pc.layout.Valid()
    && (pc.Cas? ==>
          && pc.aligned % pc.layout.Align() == 0
          && pc.current <= pc.aligned < pc.current + pc.layout.Align()
          && pc.newNext == pc.aligned + pc.layout.size <= HEAP_SIZE)
  }

  /** Blocks are aligned, lie below `next`, and each starts at or after the end of every earlier one. */
  ghost predicate BlocksOk(blocks: seq<Block>, next: nat) {
    && (forall i | 0 <= i < |blocks| ::
          blocks[i].layout.Valid() && blocks[i].start % blocks[i].layout.Align() == 0 && blocks[i].End() <= next)
    && (forall i, j | 0 <= i < j < |blocks| :: blocks[i].End() <= blocks[j].start)
  }

  ghost predicate Inv(s: State) {
    && s.next <= HEAP_SIZE
    && (forall p <- s.calls :: CallOk(s.calls[p]))
    && BlocksOk(s.blocks, s.next)
  }

  /** One turn of the loop, from an offset inside the heap: no addition overflows, and the result is rounded up. */
  lemma TurnIsSafe(current: nat, layout: Layout)
    requires layout.Valid() && current <= HEAP_SIZE
    ensures Fits(current, layout)
    ensures var aligned := AlignUp(current, layout.Align());
      aligned % layout.Align() == 0 && current <= aligned < current + layout.Align()
  {
    AlignUpRoundsUp(current, layout.shift);
  }

  lemma StepKeeps(s: State, p: nat)
    requires Inv(s) && p in s.calls
    ensures Inv(StepCall(s, p))
  {
    assert CallOk(s.calls[p]);
    if s.calls[p].LoadNext? {
      TurnIsSafe(s.next, s.calls[p].layout);
    }
  }

  lemma {:induction false} RunKeeps(actions: seq<Action>)
    ensures Inv(Run(Init(), actions))
  {
    if actions != [] {
      var before, last := actions[..|actions| - 1], actions[|actions| - 1];
      RunKeeps(before);
      if last.Step? && last.p in Run(Init(), before).calls {
        StepKeeps(Run(Init(), before), last.p);
      }
    }
  }

  /**
   For every interleaving of concurrent `alloc` calls, the blocks handed out lie inside the heap at
   multiples of their alignment and are pairwise disjoint.
   */
  lemma BlocksAreDisjoint(actions: seq<Action>)
    ensures var blocks := Run(Init(), actions).blocks;
      && (forall i | 0 <= i < |blocks| ::
        blocks[i].End() <= HEAP_SIZE && blocks[i].start % blocks[i].layout.Align() == 0)
      && (forall i, j | 0 <= i < |blocks| && 0 <= j < |blocks| && i != j ::
            blocks[i].End() <= blocks[j].start || blocks[j].End() <= blocks[i].start)
  {
    RunKeeps(actions);
  }

  /** A call is never stuck on its arithmetic: its load always leads to null or to the compare-and-swap. */
  lemma NoStepOverflows(actions: seq<Action>, p: nat)
    requires p in Run(Init(), actions).calls
    ensures var s := Run(Init(), actions);
      s.calls[p].LoadNext? ==> Fits(s.next, s.calls[p].layout)
  {
    RunKeeps(actions);
    var s := Run(Init(), actions);
    assert CallOk(s.calls[p]);
    if s.calls[p].LoadNext? {
      TurnIsSafe(s.next, s.calls[p].layout);
    }
  }

  // ---------------------------------------------------------------------------------------------
  // When a call ends, and with what
  // ---------------------------------------------------------------------------------------------

  /** The least multiple of `align` that is at least `n`. */
  ghost predicate IsRoundUp(m: nat, n: nat, align: nat)
    requires align > 0
  {
    m % align == 0 && n <= m < n + align
  }

  lemma RoundUpIsUnique(m: nat, m': nat, n: nat, align: nat)
    requires align > 0 && IsRoundUp(m, n, align) && IsRoundUp(m', n, align)
    ensures m == m'
  {
    var k := m / align - m' / align;
    assert k * align == m - m' by {
      assert m == m / align * align && m' == m' / align * align;
      assert k * align == m / align * align - m' / align * align;
    }
    SmallMultiple(k, align);
  }

  /** There is room for a block of this layout: it fits above `next`, at its alignment. */
  ghost predicate Room(next: nat, layout: Layout) {
    exists m: nat :: IsRoundUp(m, next, layout.Align()) && m + layout.size <= HEAP_SIZE
  }

  /** The call took the first aligned place at or above `next`. */
  ghost predicate Took(s: State, s': State, layout: Layout) {
    && |s'.blocks| == |s.blocks| + 1 && s'.blocks == s.blocks + [Block(s'.blocks[|s.blocks|].start, layout)]
    && var start := s'.blocks[|s.blocks|].start;
       IsRoundUp(start, s.next, layout.Align()) && s'.next == start + layout.size <= HEAP_SIZE
  }

  lemma TurnOutcome(current: nat, layout: Layout)
    requires layout.Valid() && current <= HEAP_SIZE
    ensures Fits(current, layout) && IsRoundUp(AlignUp(current, layout.Align()), current, layout.Align())
    ensures Room(current, layout) <==> AlignUp(current, layout.Align()) + layout.size <= HEAP_SIZE
  {
    TurnIsSafe(current, layout);
    RoomIff(AlignUp(current, layout.Align()), current, layout);
  }

  lemma RoomIff(aligned: nat, current: nat, layout: Layout)
    requires IsRoundUp(aligned, current, layout.Align())
    ensures Room(current, layout) <==> aligned + layout.size <= HEAP_SIZE
  {
    if Room(current, layout) {
      var m: nat :| IsRoundUp(m, current, layout.Align()) && m + layout.size <= HEAP_SIZE;
      RoundUpIsUnique(m, aligned, current, layout.Align());
    }
  }

  lemma StepOutcome(s: State, p: nat)
    requires Inv(s) && p in s.calls
    ensures var s', layout := StepCall(s, p), s.calls[p].layout;
      if p in s'.calls
      then s'.calls[p].layout == layout && s'.next == s.next && s'.blocks == s.blocks
      else Took(s, s', layout) || (!Room(s.next, layout) && s'.next == s.next && s'.blocks == s.blocks)
  {
    assert CallOk(s.calls[p]);
    TurnOutcome(s.next, s.calls[p].layout);
  }

  /**
   In every interleaving, a step that ends a call either hands out a block of the layout that was asked for, at the
   first aligned place at or above `next`, or returns null because there is no room; and losing a race ends no call.
   */
  lemma {:induction false} EndsWithBlockOrNoRoom(actions: seq<Action>, p: nat)
    requires p in Run(Init(), actions).calls && p !in Next(Run(Init(), actions), Step(p)).calls
    ensures var s := Run(Init(), actions); var s', layout := Next(s, Step(p)), s.calls[p].layout;
      Took(s, s', layout) || (!Room(s.next, layout) && s'.next == s.next && s'.blocks == s.blocks)
  {
    RunKeeps(actions);
    StepOutcome(Run(Init(), actions), p);
  }

  /** A load that finds room goes on to the compare-and-swap; one that does not ends the call. */
  lemma LoadAlone(s: State, p: nat)
    requires Inv(s) && p in s.calls && s.calls[p].LoadNext?
    ensures var s', layout := Next(s, Step(p)), s.calls[p].layout;
      && s'.next == s.next && s'.blocks == s.blocks
      && (if Room(s.next, layout)
          then p in s'.calls && s'.calls[p].Cas? && s'.calls[p].current == s'.next && s'.calls[p].layout == layout
          else p !in s'.calls)
  {
    assert CallOk(s.calls[p]);
    TurnOutcome(s.next, s.calls[p].layout);
  }

  lemma CasAlone(s: State, p: nat)
    requires Inv(s) && p in s.calls && s.calls[p].Cas?
    ensures var s', layout := Next(s, Step(p)), s.calls[p].layout;
      if s.calls[p].current == s.next then p !in s'.calls && Took(s, s', layout) && Room(s.next, layout)
      else p in s'.calls && s'.calls[p] == LoadNext(layout) && s'.next == s.next && s'.blocks == s.blocks
  {
    assert CallOk(s.calls[p]);
    if s.calls[p].current == s.next {
      assert IsRoundUp(s.calls[p].aligned, s.next, s.calls[p].layout.Align());
    }
  }

  /** What a call that is left alone comes to: gone, with a block exactly when there is room. */
  ghost predicate Ended(s: State, s': State, p: nat, layout: Layout) {
    && p !in s'.calls
    && if Room(s.next, layout) then Took(s, s', layout) else s'.blocks == s.blocks && s'.next == s.next
  }

  lemma FromLoad(s: State, p: nat)
    requires Inv(s) && p in s.calls && s.calls[p].LoadNext?
    ensures Ended(s, Next(Next(s, Step(p)), Step(p)), p, s.calls[p].layout)
  {
    var s1 := Next(s, Step(p));
    LoadAlone(s, p);
    StepKeeps(s, p);
    if p in s1.calls {
      CasAlone(s1, p);
    }
  }

  /** A call that is left alone ends within three steps, with a block if and only if there is room for one. */
  lemma {:induction false} AloneEnds(actions: seq<Action>, p: nat)
    requires p in Run(Init(), actions).calls
    ensures var s := Run(Init(), actions);
      Ended(s, Next(Next(Next(s, Step(p)), Step(p)), Step(p)), p, s.calls[p].layout)
  {
    RunKeeps(actions);
    var s := Run(Init(), actions);
    if s.calls[p].LoadNext? {
      FromLoad(s, p);
    } else {
      CasAlone(s, p);
      StepKeeps(s, p);
      if s.calls[p].current != s.next {
        FromLoad(Next(s, Step(p)), p);
      }
    }
  }
}
