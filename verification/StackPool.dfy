/**
 The stack pool of src/mem/stack_pool.rs: one free list per size class, each behind a lock that a caller
 only tries, and three counters. `Valid` is what every sequence of calls keeps, whichever locks fail.
 */
module StackPool {
  import opened Options
  import opened Numbers
  import Bits = BumpAllocator

  datatype SizeClass = Small | Medium | Large | ExtraLarge

  function Size(c: SizeClass): nat {
    match c case Small => 4096 case Medium => 16384 case Large => 65536 case ExtraLarge => 262144
  }

  function Index(c: SizeClass): nat {
    match c case Small => 0 case Medium => 1 case Large => 2 case ExtraLarge => 3
  }

  /** The smallest class that is large enough, or none exactly when no class is. */
  function ForSize(requested: nat): (c: Option<SizeClass>)
    ensures c.Some? ==> Size(c.value) >= requested && forall d | Size(d) >= requested :: Size(c.value) <= Size(d)
    ensures c.None? <==> forall d :: Size(d) < requested
  {
    if requested <= 4096 then Some(Small)
    else if requested <= 16384 then Some(Medium)
    else if requested <= 65536 then Some(Large)
    else if requested <= 262144 then Some(ExtraLarge)
    else assert Size(ExtraLarge) == 262144; None
  }

  datatype Stack = Stack(memory: nat, sizeClass: SizeClass)

  /** The initial stack pointer: the end of the memory, with the low four bits cleared. */
  function StackBottom(s: Stack): nat
    requires s.memory + Size(s.sizeClass) < WORD_LIMIT
  {
    Bits.And(s.memory + Size(s.sizeClass), Bits.Not(0xF))
  }

  lemma ClearedIsAligned(x: nat)
    requires x < WORD_LIMIT
    ensures var r := Bits.And(x, Bits.Not(0xF)); r % 16 == 0 && x - 16 < r <= x
  {
    Pow2Is16();
    Bits.MaskClears(x, 4);
    RoundDown16(x);
  }

  lemma Pow2Is16()
    ensures Bits.Pow2(4) == 16
  {
    assert Bits.Pow2(2) == 4;
  }

  lemma RoundDown16(x: nat)
    ensures var r := x - x % 16; r % 16 == 0 && x - 16 < r <= x
  {
  }

  /** It is 16-byte aligned, inside the stack's memory, and gives away fewer than 16 bytes. */
  lemma StackBottomIsAligned(s: Stack)
    requires s.memory + Size(s.sizeClass) < WORD_LIMIT
    ensures StackBottom(s) % 16 == 0
    ensures s.memory + Size(s.sizeClass) - 16 < StackBottom(s) <= s.memory + Size(s.sizeClass)
  {
    ClearedIsAligned(s.memory + Size(s.sizeClass));
  }

  /** The memory of two stacks does not overlap. */
  predicate Apart(s: Stack, t: Stack) {
    s.memory + Size(s.sizeClass) <= t.memory || t.memory + Size(t.sizeClass) <= s.memory
  }

  /** What the bump allocator hands out is what the pool asks for: any two of its blocks, as stacks, are apart. */
  lemma BumpBlocksAreApart(actions: seq<Bits.Action>, i: nat, j: nat, c: SizeClass, d: SizeClass)
    requires var blocks := Bits.Run(Bits.Init(), actions).blocks;
      i < |blocks| && j < |blocks| && i != j && blocks[i].layout.size == Size(c) && blocks[j].layout.size == Size(d)
    ensures var blocks := Bits.Run(Bits.Init(), actions).blocks;
      Apart(Stack(blocks[i].start, c), Stack(blocks[j].start, d))
  {
    Bits.BlocksAreDisjoint(actions);
  }

  /** A piece is outstanding or free, and if free, on the list of its own class, once. */
  ghost predicate FiledOk(free: seq<seq<Stack>>, outstanding: set<Stack>, pieces: set<Stack>) {
    && |free| == 4
    && outstanding <= pieces
    && (forall c, i | 0 <= i < |free[Index(c)]| ::
          free[Index(c)][i] in pieces && free[Index(c)][i] !in outstanding && free[Index(c)][i].sizeClass == c)
    && (forall c, i, j | 0 <= i < j < |free[Index(c)]| :: free[Index(c)][i] != free[Index(c)][j])
    && (forall s <- pieces :: s in outstanding || s in free[Index(s.sizeClass)])
  }

  lemma PopFiled(free: seq<seq<Stack>>, outstanding: set<Stack>, pieces: set<Stack>, c: SizeClass)
    requires FiledOk(free, outstanding, pieces) && free[Index(c)] != []
    ensures var list := free[Index(c)]; var n := |list| - 1;
      list[n] !in outstanding && list[n].sizeClass == c &&
        FiledOk(free[Index(c) := list[..n]], outstanding + {list[n]}, pieces)
  {
    var list := free[Index(c)];
    var n := |list| - 1;
    var free' := free[Index(c) := list[..n]];
    forall s | s in pieces && s !in outstanding && s != list[n] ensures s in free'[Index(s.sizeClass)] {
      var i :| 0 <= i < |free[Index(s.sizeClass)]| && free[Index(s.sizeClass)][i] == s;
      assert free'[Index(s.sizeClass)][i] == s;
    }
  }

  lemma PushFiled(free: seq<seq<Stack>>, outstanding: set<Stack>, pieces: set<Stack>, stack: Stack)
    requires FiledOk(free, outstanding, pieces) && stack in outstanding
    ensures var k := Index(stack.sizeClass); FiledOk(free[k := free[k] + [stack]], outstanding - {stack}, pieces)
  {
    var k := Index(stack.sizeClass);
    var free' := free[k := free[k] + [stack]];
    assert free'[k][|free[k]|] == stack;
    forall s | s in pieces && s !in outstanding ensures s in free'[Index(s.sizeClass)] {
      var i :| 0 <= i < |free[Index(s.sizeClass)]| && free[Index(s.sizeClass)][i] == s;
      assert free'[Index(s.sizeClass)][i] == s;
    }
  }

  class Pool {
    var free: seq<seq<Stack>>
    var allocatedCount: int
    var deallocatedCount: int
    var inUse: int

    ghost var outstanding: set<Stack>   // handed out and not yet returned
    ghost var pieces: set<Stack>        // all the memory the pool knows: outstanding or free
    ghost var dropped: nat              // returned while their list was locked, so lost to the pool
    ghost var returned: nat             // times a stack went back to its list

    ghost predicate Filed()
      reads this
    {
      FiledOk(free, outstanding, pieces)
    }

    /** No two pieces overlap. */
    ghost predicate Unshared()
      reads this
    {
      forall s <- pieces, t <- pieces :: s != t ==> Apart(s, t)
    }

    ghost predicate Counted()
      requires |free| == 4
      reads this
    {
      && allocatedCount == inUse + |free[0]| + |free[1]| + |free[2]| + |free[3]|
      && inUse == |outstanding| + dropped
      && deallocatedCount == returned
    }

    ghost predicate Valid()
      reads this
    {
      Filed() && Unshared() && Counted()
    }

    /** The global allocator returns memory that overlaps nothing it has handed out before and not got back. */
    ghost predicate Unused(memory: nat, c: SizeClass)
      reads this
    {
      forall s <- pieces :: Apart(s, Stack(memory, c))
    }

    /** No byte is handed out twice, free twice, or both, whatever the classes. */
    lemma NothingShared()
      requires Valid()
      ensures forall s <- outstanding, t <- outstanding :: s != t ==> Apart(s, t)
      ensures forall s <- outstanding, c, i | 0 <= i < |free[Index(c)]| :: Apart(s, free[Index(c)][i])
      ensures forall c, i, d, j | 0 <= i < |free[Index(c)]| && 0 <= j < |free[Index(d)]| && (c != d || i != j) ::
        Apart(free[Index(c)][i], free[Index(d)][j])
    {
      forall c, i, d, j | 0 <= i < |free[Index(c)]| && 0 <= j < |free[Index(d)]| && (c != d || i != j)
        ensures Apart(free[Index(c)][i], free[Index(d)][j])
      {
        assert free[Index(c)][i] in pieces && free[Index(d)][j] in pieces;
        assert free[Index(c)][i].sizeClass == c && free[Index(d)][j].sizeClass == d;
        assert c == d ==> free[Index(c)][i] != free[Index(c)][j];
      }
    }

    constructor ()
      ensures Valid() && free == [[], [], [], []] && outstanding == {}
      ensures allocatedCount == deallocatedCount == inUse == 0
    {
      free, allocatedCount, deallocatedCount, inUse := [[], [], [], []], 0, 0, 0;
      outstanding, pieces, dropped, returned := {}, {}, 0, 0;
    }

    /** `locked` is whether `try_lock` fails; `memory` is what the global allocator would return. */
    method Allocate(c: SizeClass, locked: bool, memory: Option<nat>) returns (stack: Option<Stack>)
      requires Valid() && (memory.Some? ==> Unused(memory.value, c))
      modifies this`free, this`allocatedCount, this`inUse, this`outstanding, this`pieces
      ensures Valid()
      ensures var list := old(free[Index(c)]);
        if locked || list == []
        then free == old(free) && stack == (if memory.Some? then Some(Stack(memory.value, c)) else None)
             && allocatedCount == old(allocatedCount) + if memory.Some? then 1 else 0
        else free == old(free)[Index(c) := list[..|list| - 1]] && stack == Some(list[|list| - 1])
             && allocatedCount == old(allocatedCount)
      ensures if stack.Some?
              then stack.value.sizeClass == c && stack.value !in old(outstanding)
                   && outstanding == old(outstanding) + {stack.value} && inUse == old(inUse) + 1
              else outstanding == old(outstanding) && inUse == old(inUse)
    {
      if !locked && free[Index(c)] != [] {
        var s := PopFree(c);
        return Some(s);
      }
      stack := AllocateNewStack(c, memory);
    }

    /** Reuses the stack that was returned last. */
    method PopFree(c: SizeClass) returns (s: Stack)
      requires Valid() && free[Index(c)] != []
      modifies this`free, this`inUse, this`outstanding
      ensures Valid() && s == old(free[Index(c)])[|old(free[Index(c)])| - 1]
      ensures free == old(free)[Index(c) := old(free[Index(c)])[..|old(free[Index(c)])| - 1]] && inUse == old(inUse) + 1
      ensures s.sizeClass == c && s !in old(outstanding) && outstanding == old(outstanding) + {s}
    {
      var k := Index(c);
      var n := |free[k]| - 1;
      s := free[k][n];
      PopFiled(free, outstanding, pieces, c);
      free := free[k := free[k][..n]];
      inUse := inUse + 1;
      outstanding := outstanding + {s};
    }

    method AllocateNewStack(c: SizeClass, memory: Option<nat>) returns (stack: Option<Stack>)
      requires Valid() && (memory.Some? ==> Unused(memory.value, c))
      modifies this`allocatedCount, this`inUse, this`outstanding, this`pieces
      ensures Valid()
      ensures if memory.Some?
              then stack == Some(Stack(memory.value, c)) && stack.value !in old(outstanding)
                   && outstanding == old(outstanding) + {stack.value}
                   && allocatedCount == old(allocatedCount) + 1 && inUse == old(inUse) + 1
              else stack == None && outstanding == old(outstanding)
                   && allocatedCount == old(allocatedCount) && inUse == old(inUse)
    {
      if memory.None? {
        return None;
      }
      var s := Stack(memory.value, c);
      allocatedCount := allocatedCount + 1;
      inUse := inUse + 1;
      outstanding, pieces := outstanding + {s}, pieces + {s};
      stack := Some(s);
    }

    /** A stack whose list is locked is dropped, and stays counted as in use. */
    method Deallocate(stack: Stack, locked: bool)
      requires Valid() && stack in outstanding
      modifies this
      ensures Valid() && outstanding == old(outstanding) - {stack} && allocatedCount == old(allocatedCount)
      ensures if locked then free == old(free) && inUse == old(inUse) && deallocatedCount == old(deallocatedCount)
              else inUse == old(inUse) - 1 && deallocatedCount == old(deallocatedCount) + 1
                   && free == old(free)[Index(stack.sizeClass) := old(free)[Index(stack.sizeClass)] + [stack]]
    {
      if locked {
        outstanding, pieces := outstanding - {stack}, pieces - {stack};
        dropped := dropped + 1;
      } else {
        PushFree(stack);
      }
    }

    method PushFree(stack: Stack)
      requires Valid() && stack in outstanding
      modifies this`free, this`inUse, this`deallocatedCount, this`outstanding, this`returned
      ensures Valid() && outstanding == old(outstanding) - {stack} && inUse == old(inUse) - 1
      ensures deallocatedCount == old(deallocatedCount) + 1
      ensures free == old(free)[Index(stack.sizeClass) := old(free)[Index(stack.sizeClass)] + [stack]]
    {
      var k := Index(stack.sizeClass);
      PushFiled(free, outstanding, pieces, stack);
      free := free[k := free[k] + [stack]];
      inUse := inUse - 1;
      deallocatedCount := deallocatedCount + 1;
      outstanding := outstanding - {stack};
      returned := returned + 1;
    }
  }
}
