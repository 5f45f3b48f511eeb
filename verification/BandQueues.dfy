/**
 `pick_next` on the four linked queues of a CPU (src/sched/rr.rs): it pops the bands in turn, and each pop may
 find that a suspended push has left its queue's tail behind (see QueueMachine). Here is exactly when it returns,
 and with what.
 */
module BandQueues {
  import opened Options
  import opened Scheduler
  import Q = QueueMachine

  /** A queue as some interleaving of pushes and pops has left it. */
  function Queue(actions: seq<Q.Action>): Q.State { Q.Run(Q.Init(), actions) }

  /** The threads in the queue, oldest first. */
  function Waits(s: Q.State): seq<nat>
    requires |s.popped| <= |s.linked|
  {
    s.linked[|s.popped|..]
  }

  /** A pop of this queue is about to begin. */
  predicate Ready(actions: seq<Q.Action>) { Queue(actions).popper == Q.LoadHead }

  /** Enough steps for a pop with as many failures as `flags` says. */
  predicate Enough(flags: seq<bool>) { |flags| >= 11 + 7 * Q.Failures(flags) }

  /** What one pop of a pick comes to: it is still in its loop, or has returned something or nothing. */
  datatype Result = Spinning | Returned(thread: Option<nat>)

  function Pop(s: Q.State, flags: seq<bool>): Result {
    var s' := Q.Run(s, Q.PopOnly(flags));
    if |s'.outcomes| <= |s.outcomes| then Spinning else Returned(s'.outcomes[|s.outcomes|].value)
  }

  /** The pops of `pick_next`, band by band, until one returns a thread; nothing else runs meanwhile. */
  function Pick(bands: seq<seq<Q.Action>>, flags: seq<seq<bool>>): Result
    requires |flags| == |bands|
  {
    if bands == [] then Returned(None)
    else
      var first := Pop(Queue(bands[0]), flags[0]);
      if first == Returned(None) then Pick(bands[1..], flags[1..]) else first
  }

  /** The band that a pick takes from, or the number of bands if all are empty. */
  ghost function Top(bands: seq<seq<Q.Action>>): (k: nat)
    ensures k <= |bands|
    ensures forall i | 0 <= i < k :: Queue(bands[i]).popped == Queue(bands[i]).linked
    ensures k < |bands| ==> Queue(bands[k]).popped != Queue(bands[k]).linked
  {
    if bands == [] || Queue(bands[0]).popped != Queue(bands[0]).linked then 0 else 1 + Top(bands[1..])
  }

  lemma {:induction false} PopMeaning(actions: seq<Q.Action>, flags: seq<bool>)
    requires Ready(actions) && Enough(flags)
    ensures var s := Queue(actions);
      && s.popped <= s.linked
      && Pop(s, flags) ==
         if s.popped != s.linked then Returned(Some(s.linked[|s.popped|]))
         else if s.tail == s.head then Returned(None)
         else Spinning
  {
    Q.RunKeeps(actions);
    Q.PopAloneReturnsIff(actions, flags);
  }

  /**
   Left alone, `pick_next` gets past its local bands exactly when every band above the one it takes from has its
   tail at its head, and then with the oldest thread of that band, or with nothing if all are empty. Otherwise it
   never returns, and interrupts are masked.
   */
  lemma {:induction false} PickReturnsIff(bands: seq<seq<Q.Action>>, flags: seq<seq<bool>>)
    requires |flags| == |bands| && forall i | 0 <= i < |bands| :: Ready(bands[i]) && Enough(flags[i])
    ensures var k := Top(bands);
      && (Pick(bands, flags).Returned? <==> forall i | 0 <= i < k :: Queue(bands[i]).tail == Queue(bands[i]).head)
      && (k < |bands| ==> |Queue(bands[k]).popped| < |Queue(bands[k]).linked|)
      && (Pick(bands, flags).Returned? ==>
            Pick(bands, flags).thread ==
              if k < |bands| then Some(Queue(bands[k]).linked[|Queue(bands[k]).popped|]) else None)
  {
    if bands != [] {
      PopMeaning(bands[0], flags[0]);
      if Top(bands) > 0 {
        PickReturnsIff(bands[1..], flags[1..]);
        var k := Top(bands[1..]);
        assert forall i | 0 <= i < k :: bands[1..][i] == bands[i + 1];
        assert (forall i | 0 <= i < k + 1 :: Queue(bands[i]).tail == Queue(bands[i]).head) <==>
               Queue(bands[0]).tail == Queue(bands[0]).head &&
               forall i | 0 <= i < k :: Queue(bands[1..][i]).tail == Queue(bands[1..][i]).head;
      }
    }
  }

  /** The bands in the order in which they are popped. */
  const LEVELS := [High, Normal, Low, Idle]

  function IdsOf(band: seq<Thread>): (ids: seq<nat>)
    ensures |ids| == |band|
  {
    seq(|band|, i requires 0 <= i < |band| => band[i].id)
  }

  /** The four linked queues hold what the plain queues of `q` hold. */
  ghost predicate Holds(bands: seq<seq<Q.Action>>, q: CpuRunQueue) {
    && |bands| == 4
    && forall i | 0 <= i < 4 ::
         && |Queue(bands[i]).popped| <= |Queue(bands[i]).linked|
         && Waits(Queue(bands[i])) == IdsOf(q.Band(LEVELS[i]))
  }

  lemma TopIsTopBand(bands: seq<seq<Q.Action>>, q: CpuRunQueue)
    requires Holds(bands, q) && forall i | 0 <= i < 4 :: Queue(bands[i]).popped <= Queue(bands[i]).linked
    ensures q.TopBand() == if Top(bands) < 4 then Some(LEVELS[Top(bands)]) else None
  {
    forall i | 0 <= i < 4 ensures Queue(bands[i]).popped == Queue(bands[i]).linked <==> q.Band(LEVELS[i]) == [] {
      assert |Waits(Queue(bands[i]))| == |q.Band(LEVELS[i])|;
    }
    var k := Top(bands);
    assert forall i | 0 <= i < k :: q.Band(LEVELS[i]) == [];
    assert k < 4 ==> q.Band(LEVELS[k]) != [];
    assert q.Band(LEVELS[0]) == q.high && q.Band(LEVELS[1]) == q.normal;
    assert q.Band(LEVELS[2]) == q.low && q.Band(LEVELS[3]) == q.idle;
  }

  /**
   The same for a CPU whose plain queues are known: left alone, the pick returns exactly when the linked queue of
   every band above its highest non-empty one has tail at head, and then with the oldest thread of that band.
   */
  lemma PickOnCpu(q: CpuRunQueue, bands: seq<seq<Q.Action>>, flags: seq<seq<bool>>)
    requires Holds(bands, q) && |flags| == 4 && forall i | 0 <= i < 4 :: Ready(bands[i]) && Enough(flags[i])
    ensures Pick(bands, flags).Returned? <==>
      forall i | 0 <= i < Top(bands) :: Queue(bands[i]).tail == Queue(bands[i]).head
    ensures q.TopBand() == if Top(bands) < 4 then Some(LEVELS[Top(bands)]) else None
    ensures Pick(bands, flags).Returned? ==>
      Pick(bands, flags).thread == if q.TopBand().Some? then Some(q.Band(q.TopBand().value)[0].id) else None
  {
    PickReturnsIff(bands, flags);
    forall i | 0 <= i < 4 ensures Queue(bands[i]).popped <= Queue(bands[i]).linked {
      PopMeaning(bands[i], flags[i]);
    }
    TopIsTopBand(bands, q);
    var k := Top(bands);
    if k < 4 {
      assert Waits(Queue(bands[k]))[0] == IdsOf(q.Band(LEVELS[k]))[0];
    }
  }

  /**
   One push suspended once is enough: with such a High queue, no pick of any CPU ever returns, whoever waits
   below.
   */
  lemma PickCanSpin() returns (high: seq<Q.Action>)
    ensures Ready(high)
    ensures forall rest: seq<seq<Q.Action>>, flags: seq<seq<bool>> | |flags| == |rest| + 1 && Enough(flags[0]) ::
      Pick([high] + rest, flags) == Spinning
  {
    high := Q.TailCanFallBehindHead();
    forall rest: seq<seq<Q.Action>>, flags: seq<seq<bool>> | |flags| == |rest| + 1 && Enough(flags[0])
      ensures Pick([high] + rest, flags) == Spinning
    {
      PopMeaning(high, flags[0]);
    }
  }
}
