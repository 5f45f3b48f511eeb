/**
 `LockFreeQueue` (src/sched/rr.rs) as the object it is, with its nodes on the heap, for callers that
 take turns. A weak compare-and-swap may still fail spuriously, up to a budget the caller picks;
 `failures` counts how often it did.
 */
module LinkedQueue {
  import opened Options

  class QueueNode<T> {
    var thread: Option<T>
    var next: QueueNode?<T>

    constructor (thread: Option<T>)
      ensures this.thread == thread && next == null
    {
      this.thread := thread;
      next := null;
    }
  }

  ghost predicate Distinct<T>(s: seq<T>) {
    forall i, j | 0 <= i < j < |s| :: s[i] != s[j]
  }

  class LockFreeQueue<T> {
    var head: QueueNode<T>
    var tail: QueueNode<T>

    ghost var contents: seq<T>
    ghost var spine: seq<QueueNode<T>>    // the nodes from head to the last one
    ghost var created: set<QueueNode<T>>  // every node ever allocated for this queue
    ghost var freed: seq<QueueNode<T>>    // the nodes freed so far, oldest first

    /** The nodes of the spine are linked in order and hold the contents behind a dummy. */
    ghost predicate Chain()
      reads this, spine
    {
      && |spine| == |contents| + 1
      && head == spine[0]
      && Distinct(spine)
      && (forall i | 0 <= i < |spine| - 1 :: spine[i].next == spine[i + 1])
      && spine[|spine| - 1].next == null
      && spine[0].thread == None
      && (forall i | 0 < i < |spine| :: spine[i].thread == Some(contents[i - 1]))
    }

    /** Tail is the last node or the one before it, so it is never before head. */
    ghost predicate TailNearEnd()
      reads this
    {
      |spine| > 0 && (tail == spine[|spine| - 1] || (|spine| > 1 && tail == spine[|spine| - 2]))
    }

    /** Every node ever allocated is either in the list or freed, and freed at most once. */
    ghost predicate Owned()
      reads this
    {
      && Distinct(freed)
      && (forall i | 0 <= i < |spine| :: spine[i] in created && spine[i] !in freed)
      && (forall i | 0 <= i < |freed| :: freed[i] in created)
      && (forall n <- created :: n in spine || n in freed)
    }

    ghost predicate Valid()
      reads this, spine
    {
      Chain() && TailNearEnd() && Owned()
    }

    constructor ()
      ensures Valid() && fresh(created) && contents == []
    {
      var dummy := new QueueNode<T>(None);
      head, tail := dummy, dummy;
      contents, spine, created, freed := [], [dummy], {dummy}, [];
    }

    /** Appends, in at most `failures + 2` turns of the loop. */
    method Push(thread: T, budget: nat) returns (iterations: nat, failures: nat)
      requires Valid()
      modifies this, created
      ensures Valid() && fresh(created - old(created))
      ensures contents == old(contents) + [thread]
      ensures freed == old(freed)
      ensures iterations <= failures + 2 && failures <= budget
    {
      var node := new QueueNode<T>(Some(thread));
      iterations, failures := 0, 0;
      var linked := false;
      while !linked
        invariant !linked ==> Valid() && spine == old(spine) && contents == old(contents) && created == old(created)
        invariant !linked ==> node.thread == Some(thread) && node.next == null && node !in created && fresh(node)
        invariant linked ==> Chain() && Owned() && TailNearEnd() && spine == old(spine) + [node]
        invariant linked ==> contents == old(contents) + [thread] && created == old(created) + {node} && fresh(node)
        invariant freed == old(freed)
        invariant failures <= budget
        invariant iterations <= failures + (if linked then 2 else if tail == spine[|spine| - 1] then 1 else 0)
        decreases !linked, budget - failures, tail != spine[|spine| - 1]
      {
        iterations := iterations + 1;
        var fails: bool := *;
        fails := fails && failures < budget;
        var last := tail;
        var next := last.next;
        if last == tail {
          if fails {
            failures := failures + 1;
          } else if next == null {
            LinkAfterLast(node, thread);
            linked := true;
          } else {
            tail := next;
          }
        }
      }
      var expected := tail;
      var fails: bool := *;
      fails := fails && failures < budget;
      if fails {
        failures := failures + 1;
      } else if tail == expected {
        tail := node;
      }
    }

    /** The successful compare-and-swap on the last node's `next`. */
    method LinkAfterLast(node: QueueNode<T>, thread: T)
      requires Valid() && tail == spine[|spine| - 1]
      requires node !in created && node.thread == Some(thread) && node.next == null
      modifies this`contents, this`spine, this`created, tail`next
      ensures spine == old(spine) + [node] && contents == old(contents) + [thread]
      ensures Valid() && tail == spine[|spine| - 2]
      ensures created == old(created) + {node}
    {
      tail.next := node;
      contents, spine, created := contents + [thread], spine + [node], created + {node};
    }

    /** Takes the oldest thread, or `None` exactly when there is none, in at most `failures + 2` turns. */
    method TryPop(budget: nat) returns (thread: Option<T>, iterations: nat, failures: nat)
      requires Valid()
      modifies this, created
      ensures Valid() && created == old(created)
      ensures thread == if old(contents) == [] then None else Some(old(contents)[0])
      ensures contents == if old(contents) == [] then [] else old(contents)[1..]
      ensures spine == if old(contents) == [] then old(spine) else old(spine)[1..]
      ensures freed == old(freed) + if old(contents) == [] then [] else [old(spine)[0]]
      ensures iterations <= failures + 2 && failures <= budget
    {
      iterations, failures := 0, 0;
      while true
        invariant Valid() && created == old(created) && freed == old(freed)
        invariant spine == old(spine) && contents == old(contents)
        invariant failures <= budget
        invariant iterations <= failures + if head == tail then 0 else 1
        decreases budget - failures, head == tail
      {
        iterations := iterations + 1;
        var fails: bool := *;
        fails := fails && failures < budget;
        var first := head;
        var last := tail;
        var next := first.next;
        if first == head {
          if first == last {
            if next == null {
              return None, iterations, failures;
            }
            if fails {
              failures := failures + 1;
            } else {
              tail := next;
            }
          } else {
            thread := TakeFirst(fails);
            if !fails {
              return thread, iterations, failures;
            }
            failures := failures + 1;
          }
        }
      }
    }

    /**
     Tail is past head, so the list goes on (the source's retry on a null `next` is dead here): take the
     thread out of the next node, then swing head, or put the thread back if that fails.
     */
    method TakeFirst(fails: bool) returns (thread: Option<T>)
      requires Valid() && tail != head
      modifies this`head, this`contents, this`spine, this`freed, spine
      ensures Valid() && created == old(created) && old(contents) != []
      ensures if fails
              then contents == old(contents) && spine == old(spine) && freed == old(freed) && head == old(head)
              else contents == old(contents)[1..] && spine == old(spine)[1..] && freed == old(freed) + [old(spine)[0]]
                   && thread == Some(old(contents)[0])
    {
      var next := head.next;
      assert next == spine[1] by { assert spine[0].next == spine[0 + 1]; }
      thread := next.thread;
      next.thread := None;
      if fails {
        if thread.Some? {
          next.thread := thread;
        }
      } else {
        AdvanceHead();
      }
    }

    /** The successful compare-and-swap on `head`, and the free of the node it leaves behind. */
    method AdvanceHead()
      requires |contents| > 0 && |spine| == |contents| + 1 && head == spine[0] && Distinct(spine)
      requires forall i | 0 <= i < |spine| - 1 :: spine[i].next == spine[i + 1]
      requires spine[|spine| - 1].next == null
      requires forall i | 0 < i < |spine| :: spine[i].thread == if i == 1 then None else Some(contents[i - 1])
      requires TailNearEnd() && tail != head && Owned()
      modifies this`head, this`contents, this`spine, this`freed
      ensures Valid()
      ensures contents == old(contents)[1..] && spine == old(spine)[1..] && freed == old(freed) + [old(spine)[0]]
    {
      assert head.next == spine[1] by { assert spine[0].next == spine[0 + 1]; }
      freed := freed + [head];
      head := head.next;
      contents, spine := contents[1..], spine[1..];
    }

    method Peek() returns (thread: Option<T>)
      requires Valid()
      ensures thread == if contents == [] then None else Some(contents[0])
    {
      var next := head.next;
      assert contents != [] ==> next == spine[1] by { assert contents != [] ==> spine[0].next == spine[0 + 1]; }
      if next == null {
        thread := None;
      } else {
        thread := next.thread;
      }
    }

    /** After `Drop` every node ever allocated has been freed exactly once. */
    method Drop(budget: nat)
      requires Valid()
      modifies this, created
      ensures created == old(created)
      ensures Distinct(freed)
      ensures forall n :: n in freed <==> n in created
    {
      var more := PopAndDiscard(budget);
      while more
        invariant Valid() && created == old(created)
        invariant !more ==> contents == []
        decreases |contents|, more
      {
        more := PopAndDiscard(budget);
      }
      FreeLast();
    }

    /** `try_pop().is_some()` */
    method PopAndDiscard(budget: nat) returns (some: bool)
      requires Valid()
      modifies this, created
      ensures Valid() && created == old(created)
      ensures some == (old(contents) != [])
      ensures |contents| == if some then |old(contents)| - 1 else 0
    {
      var thread, iterations, failures := TryPop(budget);
      some := thread.Some?;
    }

    /** `Box::from_raw(head)` on the one node left. */
    method FreeLast()
      requires Valid() && contents == []
      modifies this`freed
      ensures Distinct(freed)
      ensures forall n :: n in freed <==> n in created
    {
      freed := freed + [head];
      assert spine == [head];
      forall n ensures n in freed <==> n in created {
      }
    }
  }
}
