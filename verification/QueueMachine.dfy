/**
 `LockFreeQueue` (src/sched/rr.rs) as a small-step machine: any number of pushers, one popper,
 one atomic load or compare-and-swap per step, and a weak compare-and-swap that may fail
 spuriously whenever its action says so.

 A node is named by its index; nodes are allocated in order and never reused, which is
 what the shipped bump allocator gives. The fields after the divider are history: no step reads them.
 */
module QueueMachine {
  import opened Options

  type ThreadRef = nat

  /** Where a suspended `push` stands, with its local variables. */
  datatype PushPc =
    | LoadTail(node: nat)
    | LoadNext(node: nat, tail: nat)
    | RecheckTail(node: nat, tail: nat, next: Option<nat>)
    | LinkCas(node: nat, tail: nat)
    | HelpCas(node: nat, tail: nat, ahead: nat)
    | FinalLoad(node: nat)
    | FinalCas(node: nat, expected: nat)
  {
    predicate Linked() { FinalLoad? || FinalCas? }
  }

  /** Where `try_pop` stands; `seen` is how many nodes had been linked when `next` was loaded. */
  datatype PopPc =
    | Idle
    | LoadHead
    | LoadPopTail(head: nat)
    | LoadPopNext(head: nat, tail: nat)
    | RecheckHead(head: nat, tail: nat, next: Option<nat>, seen: nat)
    | AdvanceTail(head: nat, tail: nat, ahead: nat)
    | Take(head: nat, ahead: nat)
    | HeadCas(head: nat, ahead: nat, hand: Option<ThreadRef>)
    | PutBack(head: nat, ahead: nat, hand: Option<ThreadRef>)

  /**
   One finished `try_pop`: what it returned, whether it moved head, `seen` as above, and how many
   threads had been handed out before it.
   */
  datatype Outcome = Outcome(value: Option<ThreadRef>, advancedHead: bool, seen: nat, before: nat)

  datatype State = State(
    nexts: seq<Option<nat>>,           // the `next` field of each node
    threads: seq<Option<ThreadRef>>,   // the `thread` field of each node
    head: nat,
    tail: nat,
    pushers: map<nat, PushPc>,
    popper: PopPc,
    freed: seq<nat>,
    // ---- history ----
    given: seq<ThreadRef>,   // given[n - 1] is the thread passed to the push that allocated node n
    order: seq<nat>,         // every node ever linked, in link order, starting with the dummy
    linked: seq<ThreadRef>,  // the threads of order[1..]
    popped: seq<ThreadRef>,  // the threads handed out, oldest first
    outcomes: seq<Outcome>)

  datatype Action =
    | BeginPush(p: nat, thread: ThreadRef)
    | StepPush(p: nat, spurious: bool)
    | BeginPop
    | StepPop(spurious: bool)

  function Init(): State {
    State([None], [None], 0, 0, map[], Idle, [], [], [0], [], [], [])
  }

  /** One step. An action that is not enabled leaves the state alone. */
  function Next(s: State, a: Action): State {
    match a
    case BeginPush(p, t) => if p in s.pushers then s else PushAlloc(s, p, t)
    case StepPush(p, spurious) => if p in s.pushers then PushStep(s, p, spurious) else s
    case BeginPop => if s.popper.Idle? then s.(popper := LoadHead) else s
    case StepPop(spurious) => PopStep(s, spurious)
  }

  function Run(s: State, actions: seq<Action>): State {
    if actions == [] then s else Next(Run(s, actions[..|actions| - 1]), actions[|actions| - 1])
  }

  /** Memory accesses. The invariant below shows that no step ever leaves the allocated nodes. */
  function At<T>(cells: seq<Option<T>>, n: nat): Option<T> {
    if n < |cells| then cells[n] else None
  }

  function Put<T>(cells: seq<Option<T>>, n: nat, value: Option<T>): seq<Option<T>> {
    if n < |cells| then cells[n := value] else cells
  }

  function Held(slot: Option<ThreadRef>): seq<ThreadRef> {
    if slot.Some? then [slot.value] else []
  }

  function PushAlloc(s: State, p: nat, t: ThreadRef): State {
    s.(nexts := s.nexts + [None],
       threads := s.threads + [Some(t)],
       pushers := s.pushers[p := LoadTail(|s.nexts|)],
       given := s.given + [t])
  }

  function PushStep(s: State, p: nat, spurious: bool): State
    requires p in s.pushers
  {
    match s.pushers[p]
    case LoadTail(n) => s.(pushers := s.pushers[p := LoadNext(n, s.tail)])
    case LoadNext(n, tail) => s.(pushers := s.pushers[p := RecheckTail(n, tail, At(s.nexts, tail))])
    case RecheckTail(n, tail, next) =>
      s.(pushers := s.pushers[p :=
        if tail != s.tail then LoadTail(n)
        else if next.None? then LinkCas(n, tail)
        else HelpCas(n, tail, next.value)])
    case LinkCas(n, tail) =>
      if At(s.nexts, tail).None? && !spurious
      then Link(s, p, n, tail)
      else s.(pushers := s.pushers[p := LoadTail(n)])
    case HelpCas(n, tail, ahead) =>
      s.(tail := if s.tail == tail && !spurious then ahead else s.tail,
         pushers := s.pushers[p := LoadTail(n)])
    case FinalLoad(n) => s.(pushers := s.pushers[p := FinalCas(n, s.tail)])
    case FinalCas(n, expected) =>
      s.(tail := if s.tail == expected && !spurious then n else s.tail,
         pushers := s.pushers - {p})
  }

  /** The successful `next` compare-and-swap: the node joins the list behind `tail`. */
  function Link(s: State, p: nat, n: nat, tail: nat): State {
    s.(nexts := Put(s.nexts, tail, Some(n)),
       pushers := s.pushers[p := FinalLoad(n)],
       order := s.order + [n],
       linked := s.linked + Held(At(s.threads, n)))
  }

  function PopStep(s: State, spurious: bool): State {
    match s.popper
    case Idle => s
    case LoadHead => s.(popper := LoadPopTail(s.head))
    case LoadPopTail(head) => s.(popper := LoadPopNext(head, s.tail))
    case LoadPopNext(head, tail) =>
      s.(popper := RecheckHead(head, tail, At(s.nexts, head), |s.linked|))
    case RecheckHead(head, tail, next, seen) =>
      if head != s.head then s.(popper := LoadHead)
      else if head == tail then
        if next.None? then Finish(s, None, false, seen)
        else s.(popper := AdvanceTail(head, tail, next.value))
      else if next.None? then s.(popper := LoadHead)
      else s.(popper := Take(head, next.value))
    case AdvanceTail(head, tail, ahead) =>
      s.(tail := if s.tail == tail && !spurious then ahead else s.tail, popper := LoadHead)
    case Take(head, ahead) =>
      s.(threads := Put(s.threads, ahead, None),
         popper := HeadCas(head, ahead, At(s.threads, ahead)))
    case HeadCas(head, ahead, hand) =>
      if s.head == head && !spurious
      then Finish(s.(head := ahead, freed := s.freed + [head]), hand, true, |s.linked|)
      else s.(popper := PutBack(head, ahead, hand))
    case PutBack(head, ahead, hand) =>
      s.(threads := if hand.Some? then Put(s.threads, ahead, hand) else s.threads,
         popper := LoadHead)
  }

  function Finish(s: State, value: Option<ThreadRef>, advancedHead: bool, seen: nat): State {
    s.(popper := Idle,
       popped := s.popped + Held(value),
       outcomes := s.outcomes + [Outcome(value, advancedHead, seen, |s.popped|)])
  }

  // ---------------------------------------------------------------------------------------------
  // What every step keeps
  // ---------------------------------------------------------------------------------------------

  /** The `next` pointers spell out `order`. */
  ghost predicate Spine(nexts: seq<Option<nat>>, order: seq<nat>) {
    && |order| > 0
    && order[0] == 0
    && (forall i | 0 <= i < |order| :: order[i] < |nexts|)
    && (forall i, j | 0 <= i < j < |order| :: order[i] != order[j])
    && (forall i {:trigger nexts[order[i]]} | 0 <= i < |order| :: nexts[order[i]] == Successor(order, i))
  }

  function Successor(order: seq<nat>, i: nat): Option<nat>
    requires i < |order|
  {
    if i + 1 < |order| then Some(order[i + 1]) else None
  }

  /** Each linked node stands for the thread its push was given. */
  ghost predicate Carries(given: seq<ThreadRef>, order: seq<nat>, linked: seq<ThreadRef>) {
    && |order| == |linked| + 1
    && (forall i | 1 <= i < |order| :: 0 < order[i] <= |given| && linked[i - 1] == given[order[i] - 1])
  }

  /** Nodes up to head are empty, the rest hold their thread unless the popper has it in hand. */
  ghost predicate Slots(threads: seq<Option<ThreadRef>>, order: seq<nat>, linked: seq<ThreadRef>, done: nat,
                        inHand: bool) {
    && |order| == |linked| + 1
    && (forall i | 0 <= i < |order| ::
          && order[i] < |threads|
          && threads[order[i]] ==
             if i <= done || (i == done + 1 && inHand) then None else Some(linked[i - 1]))
  }

  ghost predicate PushOk(nexts: seq<Option<nat>>, threads: seq<Option<ThreadRef>>, given: seq<ThreadRef>,
                         order: seq<nat>, pc: PushPc)
  {
    && 0 < pc.node < |nexts| == |threads| == |given| + 1
    && (pc.Linked() <==> pc.node in order)
    && (!pc.Linked() ==> nexts[pc.node] == None && threads[pc.node] == Some(given[pc.node - 1]))
    && (!pc.LoadTail? && !pc.Linked() ==> pc.tail in order)
    && (pc.RecheckTail? && pc.next.Some? ==> At(nexts, pc.tail) == pc.next)
    && (pc.HelpCas? ==> At(nexts, pc.tail) == Some(pc.ahead))
  }

  ghost predicate PushersOk(nexts: seq<Option<nat>>, threads: seq<Option<ThreadRef>>, given: seq<ThreadRef>,
                            order: seq<nat>, pushers: map<nat, PushPc>)
  {
    forall p <- pushers :: PushOk(nexts, threads, given, order, pushers[p])
  }

  /** Each unlinked node is on its way in, by exactly one pusher. */
  ghost predicate Accounted(size: nat, order: seq<nat>, pushers: map<nat, PushPc>) {
    && (forall p <- pushers, q <- pushers :: p != q ==> pushers[p].node != pushers[q].node)
    && (forall n: nat | 0 < n < size && n !in order :: Pending(pushers, n))
  }

  ghost predicate Pending(pushers: map<nat, PushPc>, n: nat) {
    exists p :: p in pushers && pushers[p].node == n && !pushers[p].Linked()
  }

  predicate InHand(pc: PopPc) { pc.HeadCas? || pc.PutBack? }

  ghost predicate PopperOk(nexts: seq<Option<nat>>, linked: seq<ThreadRef>, done: nat, head: nat, pc: PopPc) {
    && (!pc.Idle? && !pc.LoadHead? ==> pc.head == head)
    && (pc.RecheckHead? ==> if pc.next.Some? then At(nexts, head) == pc.next else pc.seen == done)
    && (pc.AdvanceTail? || pc.Take? || InHand(pc) ==> At(nexts, head) == Some(pc.ahead))
    && (InHand(pc) ==> done < |linked| && pc.hand == Some(linked[done]))
  }

  /** A pop that moves head returns a thread; a `None` saw every linked thread already popped. */
  ghost predicate OutcomeOk(r: Outcome) {
    && r.advancedHead == r.value.Some?
    && (r.value.None? ==> r.seen == r.before)
  }

  /** How far head has moved along `order`. */
  function Done(s: State): nat { |s.popped| }

  ghost predicate Progress(s: State) {
    && s.popped <= s.linked
    && Done(s) < |s.order|
    && s.head == s.order[Done(s)]
    && s.tail in s.order
    && s.freed == s.order[..Done(s)]
    && (forall i | 0 <= i < |s.outcomes| :: OutcomeOk(s.outcomes[i]))
  }

  ghost predicate Inv(s: State) {
    && |s.nexts| == |s.threads| == |s.given| + 1
    && Spine(s.nexts, s.order)
    && Carries(s.given, s.order, s.linked)
    && Slots(s.threads, s.order, s.linked, Done(s), InHand(s.popper))
    && PushersOk(s.nexts, s.threads, s.given, s.order, s.pushers)
    && Accounted(|s.nexts|, s.order, s.pushers)
    && PopperOk(s.nexts, s.linked, Done(s), s.head, s.popper)
    && Progress(s)
  }

  /** In the list only the last node has no successor. */
  lemma OnSpine(nexts: seq<Option<nat>>, order: seq<nat>, n: nat) returns (i: nat)
    requires Spine(nexts, order) && n in order
    ensures i < |order| && order[i] == n && n < |nexts|
    ensures nexts[n] == Successor(order, i)
  {
    i :| 0 <= i < |order| && order[i] == n;
    assert nexts[order[i]] == Successor(order, i);
  }

  lemma SuccessorOnSpine(nexts: seq<Option<nat>>, order: seq<nat>, n: nat)
    requires Spine(nexts, order) && n in order && At(nexts, n).Some?
    ensures At(nexts, n).value in order
  {
    var i := OnSpine(nexts, order, n);
  }

  lemma SpineAlloc(nexts: seq<Option<nat>>, order: seq<nat>)
    requires Spine(nexts, order)
    ensures Spine(nexts + [None], order)
  {
    forall i | 0 <= i < |order| ensures (nexts + [None])[order[i]] == Successor(order, i) {
      assert nexts[order[i]] == Successor(order, i);
    }
  }

  lemma PushersAlloc(nexts: seq<Option<nat>>, threads: seq<Option<ThreadRef>>, given: seq<ThreadRef>,
                     order: seq<nat>, pushers: map<nat, PushPc>, p: nat, t: ThreadRef)
    requires PushersOk(nexts, threads, given, order, pushers) && |nexts| == |threads| == |given| + 1
    requires forall n | n in order :: n < |nexts|
    ensures PushersOk(nexts + [None], threads + [Some(t)], given + [t], order, pushers[p := LoadTail(|nexts|)])
  {
    var pushers' := pushers[p := LoadTail(|nexts|)];
    forall q <- pushers' ensures PushOk(nexts + [None], threads + [Some(t)], given + [t], order, pushers'[q]) {
      if q != p {
        assert PushOk(nexts, threads, given, order, pushers[q]);
      }
    }
  }

  lemma PushAllocKeeps(s: State, p: nat, t: ThreadRef)
    requires Inv(s) && p !in s.pushers
    ensures Inv(PushAlloc(s, p, t))
  {
    var s' := PushAlloc(s, p, t);
    SpineAlloc(s.nexts, s.order);
    PushersAlloc(s.nexts, s.threads, s.given, s.order, s.pushers, p, t);
    AccountedAfter(s, s', p);
  }

  /** A pusher's own step keeps every other push pending. */
  lemma AccountedAfter(s: State, s': State, p: nat)
    requires Accounted(|s.nexts|, s.order, s.pushers)
    requires s.order <= s'.order && (p in s'.pushers ==> s'.pushers == s.pushers[p := s'.pushers[p]])
    requires p !in s'.pushers ==> s'.pushers == s.pushers - {p}
    requires p in s.pushers && p in s'.pushers ==> s.pushers[p].node == s'.pushers[p].node
    requires p !in s.pushers ==>
      && |s'.nexts| == |s.nexts| + 1 && p in s'.pushers && s'.pushers[p] == LoadTail(|s.nexts|)
      && forall q <- s.pushers :: s.pushers[q].node < |s.nexts|
    requires p in s.pushers ==> |s'.nexts| == |s.nexts|
    requires p in s.pushers && !s.pushers[p].Linked() ==>
      p in s'.pushers && (s'.pushers[p].Linked() ==> s.pushers[p].node in s'.order)
    ensures Accounted(|s'.nexts|, s'.order, s'.pushers)
  {
    forall n: nat | 0 < n < |s'.nexts| && n !in s'.order ensures Pending(s'.pushers, n) {
      if n < |s.nexts| {
        assert Pending(s.pushers, n);
        var q :| q in s.pushers && s.pushers[q].node == n && !s.pushers[q].Linked();
        assert q in s'.pushers;
      } else {
        assert p in s'.pushers;
      }
    }
  }

  lemma SpineLink(nexts: seq<Option<nat>>, order: seq<nat>, n: nat, tail: nat)
    requires Spine(nexts, order) && tail in order && At(nexts, tail).None?
    requires n < |nexts| && n !in order && nexts[n].None?
    ensures Spine(nexts[tail := Some(n)], order + [n])
  {
    var last := OnSpine(nexts, order, tail);
    var nexts', order' := nexts[tail := Some(n)], order + [n];
    forall i | 0 <= i < |order'| ensures nexts'[order'[i]] == Successor(order', i) {
      if i < |order| {
        assert nexts[order[i]] == Successor(order, i);
      }
    }
  }

  lemma SlotsLink(threads: seq<Option<ThreadRef>>, order: seq<nat>, linked: seq<ThreadRef>, done: nat, inHand: bool,
                  n: nat, t: ThreadRef)
    requires Slots(threads, order, linked, done, inHand)
    requires done < |order| && (inHand ==> done < |linked|) && n < |threads| && threads[n] == Some(t)
    ensures Slots(threads, order + [n], linked + [t], done, inHand)
  {
  }

  lemma PushersLink(nexts: seq<Option<nat>>, threads: seq<Option<ThreadRef>>, given: seq<ThreadRef>,
                    order: seq<nat>, pushers: map<nat, PushPc>, p: nat)
    requires PushersOk(nexts, threads, given, order, pushers)
    requires p in pushers && pushers[p].LinkCas? && At(nexts, pushers[p].tail).None?
    requires forall q <- pushers :: q != p ==> pushers[q].node != pushers[p].node
    requires forall n | n in order :: n < |nexts| && n != pushers[p].node
    ensures PushersOk(nexts[pushers[p].tail := Some(pushers[p].node)], threads, given,
                      order + [pushers[p].node], pushers[p := FinalLoad(pushers[p].node)])
  {
    var n, tail := pushers[p].node, pushers[p].tail;
    assert PushOk(nexts, threads, given, order, pushers[p]);
    var nexts', order', pushers' := nexts[tail := Some(n)], order + [n], pushers[p := FinalLoad(n)];
    forall q <- pushers' ensures PushOk(nexts', threads, given, order', pushers'[q]) {
      assert PushOk(nexts, threads, given, order, pushers[q]);
    }
  }

  /** Linking at the end changes no `next` that the popper relies on. */
  lemma PopperLink(nexts: seq<Option<nat>>, linked: seq<ThreadRef>, done: nat, head: nat, pc: PopPc, tail: nat,
                   n: nat, t: ThreadRef)
    requires PopperOk(nexts, linked, done, head, pc) && At(nexts, tail).None? && tail < |nexts|
    ensures PopperOk(nexts[tail := Some(n)], linked + [t], done, head, pc)
  {
  }

  lemma CarriesLink(given: seq<ThreadRef>, order: seq<nat>, linked: seq<ThreadRef>, n: nat)
    requires Carries(given, order, linked) && 0 < n <= |given|
    ensures Carries(given, order + [n], linked + [given[n - 1]])
  {
  }

  lemma LinkKeeps(s: State, p: nat)
    requires Inv(s) && p in s.pushers && s.pushers[p].LinkCas? && At(s.nexts, s.pushers[p].tail).None?
    ensures Inv(Link(s, p, s.pushers[p].node, s.pushers[p].tail))
  {
    var n, tail := s.pushers[p].node, s.pushers[p].tail;
    var s' := Link(s, p, n, tail);
    assert PushOk(s.nexts, s.threads, s.given, s.order, s.pushers[p]);
    var t := s.given[n - 1];
    assert tail < |s.nexts| by {
      var last := OnSpine(s.nexts, s.order, tail);
    }
    assert s' == s.(nexts := s.nexts[tail := Some(n)], pushers := s.pushers[p := FinalLoad(n)],
                    order := s.order + [n], linked := s.linked + [t]);
    SpineLink(s.nexts, s.order, n, tail);
    CarriesLink(s.given, s.order, s.linked, n);
    SlotsLink(s.threads, s.order, s.linked, Done(s), InHand(s.popper), n, t);
    PushersLink(s.nexts, s.threads, s.given, s.order, s.pushers, p);
    PopperLink(s.nexts, s.linked, Done(s), s.head, s.popper, tail, n, t);
    AccountedAfter(s, s', p);
    ProgressLink(s, s', n, t);
  }

  lemma ProgressLink(s: State, s': State, n: nat, t: ThreadRef)
    requires Progress(s) && s'.order == s.order + [n] && s'.linked == s.linked + [t]
    requires s'.popped == s.popped && s'.head == s.head && s'.tail == s.tail && s'.freed == s.freed &&
      s'.outcomes == s.outcomes
    ensures Progress(s')
  {
    assert s'.order[..Done(s)] == s.order[..Done(s)];
  }

  /** Every other step of a push: only `tail` and the pusher's own locals change. */
  lemma PushLocals(s: State, p: nat, spurious: bool)
    requires Spine(s.nexts, s.order) && s.tail in s.order
    requires p in s.pushers && PushOk(s.nexts, s.threads, s.given, s.order, s.pushers[p])
    requires !(s.pushers[p].LinkCas? && At(s.nexts, s.pushers[p].tail).None? && !spurious)
    ensures var s' := PushStep(s, p, spurious);
      && s' == s.(tail := s'.tail, pushers := s'.pushers)
      && s'.tail in s.order
      && (if p in s'.pushers
          then s'.pushers == s.pushers[p := s'.pushers[p]]
               && s'.pushers[p].node == s.pushers[p].node
               && s'.pushers[p].Linked() == s.pushers[p].Linked()
               && PushOk(s.nexts, s.threads, s.given, s.order, s'.pushers[p])
          else s'.pushers == s.pushers - {p} && s.pushers[p].Linked())
  {
    var pc := s.pushers[p];
    if pc.HelpCas? {
      SuccessorOnSpine(s.nexts, s.order, pc.tail);
    }
  }

  lemma PushMovesKeep(s: State, p: nat, spurious: bool)
    requires Inv(s) && p in s.pushers
    requires !(s.pushers[p].LinkCas? && At(s.nexts, s.pushers[p].tail).None? && !spurious)
    ensures Inv(PushStep(s, p, spurious))
  {
    var s' := PushStep(s, p, spurious);
    assert PushOk(s.nexts, s.threads, s.given, s.order, s.pushers[p]);
    PushLocals(s, p, spurious);
    OthersStay(s, s'.pushers, p);
    AccountedAfter(s, s', p);
    PusherMoves(s, s'.tail, s'.pushers);
  }

  lemma OthersStay(s: State, pushers': map<nat, PushPc>, p: nat)
    requires PushersOk(s.nexts, s.threads, s.given, s.order, s.pushers)
    requires if p in pushers'
             then pushers' == s.pushers[p := pushers'[p]] && PushOk(s.nexts, s.threads, s.given, s.order, pushers'[p])
             else pushers' == s.pushers - {p}
    ensures PushersOk(s.nexts, s.threads, s.given, s.order, pushers')
  {
  }

  /** Changing only tail and where the pushers are. */
  lemma PusherMoves(s: State, tail: nat, pushers': map<nat, PushPc>)
    requires Inv(s) && tail in s.order
    requires PushersOk(s.nexts, s.threads, s.given, s.order, pushers') && Accounted(|s.nexts|, s.order, pushers')
    ensures Inv(s.(tail := tail, pushers := pushers'))
  {
  }

  lemma SlotsTake(threads: seq<Option<ThreadRef>>, order: seq<nat>, linked: seq<ThreadRef>, done: nat)
    requires Slots(threads, order, linked, done, false) && done < |linked|
    requires forall i, j | 0 <= i < j < |order| :: order[i] != order[j]
    ensures Slots(threads[order[done + 1] := None], order, linked, done, true)
    ensures threads[order[done + 1]] == Some(linked[done])
  {
  }

  lemma SlotsPutBack(threads: seq<Option<ThreadRef>>, order: seq<nat>, linked: seq<ThreadRef>, done: nat)
    requires Slots(threads, order, linked, done, true) && done < |linked|
    requires forall i, j | 0 <= i < j < |order| :: order[i] != order[j]
    ensures Slots(threads[order[done + 1] := Some(linked[done])], order, linked, done, false)
  {
  }

  lemma PushersThread(nexts: seq<Option<nat>>, threads: seq<Option<ThreadRef>>, given: seq<ThreadRef>,
                      order: seq<nat>, pushers: map<nat, PushPc>, n: nat, slot: Option<ThreadRef>)
    requires PushersOk(nexts, threads, given, order, pushers) && n < |threads| && n in order
    ensures PushersOk(nexts, threads[n := slot], given, order, pushers)
  {
    forall q <- pushers ensures PushOk(nexts, threads[n := slot], given, order, pushers[q]) {
      assert PushOk(nexts, threads, given, order, pushers[q]);
    }
  }

  /** The node after head, as the popper sees it. */
  lemma Ahead(s: State)
    requires Inv(s)
    ensures Done(s) + 1 < |s.order| <==> At(s.nexts, s.head).Some?
    ensures At(s.nexts, s.head).Some? ==> At(s.nexts, s.head).value == s.order[Done(s) + 1] < |s.threads|
  {
    assert s.nexts[s.order[Done(s)]] == Successor(s.order, Done(s));
  }

  lemma TakeKeeps(s: State, spurious: bool)
    requires Inv(s) && (s.popper.Take? || s.popper.PutBack?)
    ensures Inv(PopStep(s, spurious))
  {
    Ahead(s);
    var s' := PopStep(s, spurious);
    var n := s.order[Done(s) + 1];
    if s.popper.Take? {
      SlotsTake(s.threads, s.order, s.linked, Done(s));
    } else {
      SlotsPutBack(s.threads, s.order, s.linked, Done(s));
    }
    PushersThread(s.nexts, s.threads, s.given, s.order, s.pushers, n, s'.threads[n]);
  }

  lemma HeadCasKeeps(s: State, spurious: bool)
    requires Inv(s) && s.popper.HeadCas?
    ensures Inv(PopStep(s, spurious))
  {
    Ahead(s);
    var s' := PopStep(s, spurious);
    if !spurious {
      assert s'.popped == s.popped + [s.linked[Done(s)]];
      assert s'.freed == s'.order[..Done(s')];
    }
  }

  /** A pop that found nothing returns. */
  lemma ReturnNoneKeeps(s: State)
    requires Inv(s) && s.popper.RecheckHead? && s.popper.next.None?
    ensures Inv(Finish(s, None, false, s.popper.seen))
  {
    assert s.popped + [] == s.popped;
  }

  /** Changing only the popper's place, or only tail. */
  lemma PopperMoves(s: State, pc: PopPc, tail: nat)
    requires Inv(s) && InHand(s.popper) == InHand(pc) && tail in s.order
    requires PopperOk(s.nexts, s.linked, Done(s), s.head, pc)
    ensures Inv(s.(popper := pc, tail := tail))
  {
  }

  /** Where a load or a recheck takes the popper, when it does not return. */
  lemma PopperLoads(s: State, spurious: bool)
    requires Inv(s) && !s.popper.Take? && !s.popper.PutBack? && !s.popper.HeadCas?
    ensures var s' := PopStep(s, spurious);
      if s'.popper.Idle? && !s.popper.Idle?
      then s.popper.RecheckHead? && s.popper.next.None? && s' == Finish(s, None, false, s.popper.seen)
      else
        && s' == s.(popper := s'.popper, tail := s'.tail) && s'.tail in s.order
        && !InHand(s'.popper) && PopperOk(s.nexts, s.linked, Done(s), s.head, s'.popper)
  {
    Ahead(s);
    if s.popper.AdvanceTail? {
      SuccessorOnSpine(s.nexts, s.order, s.head);
    }
  }

  lemma PopLoadsKeep(s: State, spurious: bool)
    requires Inv(s) && !s.popper.Take? && !s.popper.PutBack? && !s.popper.HeadCas?
    ensures Inv(PopStep(s, spurious))
  {
    var s' := PopStep(s, spurious);
    PopperLoads(s, spurious);
    if s'.popper.Idle? && !s.popper.Idle? {
      ReturnNoneKeeps(s);
    } else {
      PopperMoves(s, s'.popper, s'.tail);
    }
  }

  lemma NextKeeps(s: State, a: Action)
    requires Inv(s)
    ensures Inv(Next(s, a))
  {
    match a
    case BeginPush(p, t) => if p !in s.pushers { PushAllocKeeps(s, p, t); }
    case StepPush(p, spurious) =>
      if p in s.pushers {
        var pc := s.pushers[p];
        if pc.LinkCas? && At(s.nexts, pc.tail).None? && !spurious {
          LinkKeeps(s, p);
        } else {
          PushMovesKeep(s, p, spurious);
        }
      }
    case BeginPop =>
    case StepPop(spurious) =>
      if s.popper.Take? || s.popper.PutBack? {
        TakeKeeps(s, spurious);
      } else if s.popper.HeadCas? {
        HeadCasKeeps(s, spurious);
      } else {
        PopLoadsKeep(s, spurious);
      }
  }

  lemma {:induction false} RunKeeps(actions: seq<Action>)
    ensures Inv(Run(Init(), actions))
  {
    if actions != [] {
      RunKeeps(actions[..|actions| - 1]);
      NextKeeps(Run(Init(), actions[..|actions| - 1]), actions[|actions| - 1]);
    }
  }

  // ---------------------------------------------------------------------------------------------
  // Main results
  // ---------------------------------------------------------------------------------------------

  /** The nodes reached by following at most `fuel` next pointers from node n. */
  function Walk(nexts: seq<Option<nat>>, n: nat, fuel: nat): seq<nat>
    decreases fuel
  {
    if fuel == 0 || At(nexts, n).None? then []
    else [At(nexts, n).value] + Walk(nexts, At(nexts, n).value, fuel - 1)
  }

  /** The thread a node stands for: its own slot, or the popper's hand while the popper holds it. */
  function ThreadAt(s: State, n: nat): Option<ThreadRef> {
    if InHand(s.popper) && s.popper.ahead == n then s.popper.hand else At(s.threads, n)
  }

  lemma {:induction false} WalkFollowsSpine(nexts: seq<Option<nat>>, order: seq<nat>, i: nat, fuel: nat)
    requires Spine(nexts, order) && i < |order| && fuel >= |order| - 1 - i
    ensures Walk(nexts, order[i], fuel) == order[i + 1..]
    decreases fuel
  {
    assert nexts[order[i]] == Successor(order, i);
    if i + 1 < |order| {
      WalkFollowsSpine(nexts, order, i + 1, fuel - 1);
      assert order[i + 1..] == [order[i + 1]] + order[i + 2..];
    }
  }

  /**
   In every interleaving, the threads handed out are the oldest linked ones in link order, and the
   rest are exactly what a walk from head finds, in order: none lost, duplicated or reordered.
   */
  lemma PopsArePrefixOfLinks(actions: seq<Action>, fuel: nat)
    requires fuel >= |Run(Init(), actions).linked|
    ensures var s := Run(Init(), actions); var waiting := Walk(s.nexts, s.head, fuel);
      && s.popped <= s.linked
      && |s.popped| + |waiting| == |s.linked|
      && forall i | 0 <= i < |waiting| :: ThreadAt(s, waiting[i]) == Some(s.linked[|s.popped| + i])
  {
    RunKeeps(actions);
    var s := Run(Init(), actions);
    WalkFollowsSpine(s.nexts, s.order, Done(s), fuel);
    var waiting := s.order[Done(s) + 1..];
    Ahead(s);
    forall i | 0 <= i < |waiting| ensures ThreadAt(s, waiting[i]) == Some(s.linked[Done(s) + i]) {
      assert waiting[i] == s.order[Done(s) + 1 + i];
    }
  }

  /** Each push ever begun is linked exactly once or still under way, and carries its own thread. */
  lemma EveryPushAccountedFor(actions: seq<Action>, n: nat)
    requires 0 < n <= |Run(Init(), actions).given|
    ensures var s := Run(Init(), actions);
      && |s.order| == |s.linked| + 1
      && if Pending(s.pushers, n) then n !in s.order
         else exists i | 0 < i < |s.order| ::
           && s.order[i] == n
           && s.linked[i - 1] == s.given[n - 1]
           && forall j | 0 <= j < |s.order| && j != i :: s.order[j] != n
  {
    RunKeeps(actions);
    var s := Run(Init(), actions);
    if Pending(s.pushers, n) {
      PendingIsUnlinked(s.nexts, s.threads, s.given, s.order, s.pushers, n);
    } else {
      LinkedOnce(s.nexts, s.given, s.order, s.linked, n);
    }
  }

  lemma PendingIsUnlinked(nexts: seq<Option<nat>>, threads: seq<Option<ThreadRef>>, given: seq<ThreadRef>,
                          order: seq<nat>, pushers: map<nat, PushPc>, n: nat)
    requires PushersOk(nexts, threads, given, order, pushers) && Pending(pushers, n)
    ensures n !in order
  {
    var p :| p in pushers && pushers[p].node == n && !pushers[p].Linked();
    assert PushOk(nexts, threads, given, order, pushers[p]);
  }

  lemma LinkedOnce(nexts: seq<Option<nat>>, given: seq<ThreadRef>, order: seq<nat>, linked: seq<ThreadRef>, n: nat)
    requires Spine(nexts, order) && Carries(given, order, linked) && n in order && 0 < n <= |given|
    ensures exists i | 0 < i < |order| ::
      && order[i] == n
      && linked[i - 1] == given[n - 1]
      && forall j | 0 <= j < |order| && j != i :: order[j] != n
  {
    var k := OnSpine(nexts, order, n);
    assert 0 < k && linked[k - 1] == given[order[k] - 1];
  }

  /**
   A `try_pop` that moves head returns a thread, and one that returns `None` found every thread
   linked by then already handed out. No node is freed twice, and a freed node holds no thread.
   */
  lemma PopOutcomes(actions: seq<Action>)
    ensures var s := Run(Init(), actions);
      && (forall i | 0 <= i < |s.outcomes| ::
            && (s.outcomes[i].advancedHead <==> s.outcomes[i].value.Some?)
            && (s.outcomes[i].value.None? ==> s.outcomes[i].seen == s.outcomes[i].before))
      && (forall i, j | 0 <= i < j < |s.freed| :: s.freed[i] != s.freed[j])
      && (forall i | 0 <= i < |s.freed| :: At(s.threads, s.freed[i]) == None && s.freed[i] != s.head)
  {
    RunKeeps(actions);
    var s := Run(Init(), actions);
    forall i | 0 <= i < |s.outcomes|
      ensures s.outcomes[i].advancedHead <==> s.outcomes[i].value.Some?
      ensures s.outcomes[i].value.None? ==> s.outcomes[i].seen == s.outcomes[i].before
    {
      assert OutcomeOk(s.outcomes[i]);
    }
  }

  lemma RunSnoc(s: State, actions: seq<Action>, a: Action)
    ensures Run(s, actions + [a]) == Next(Run(s, actions), a)
  {
    assert (actions + [a])[..|actions|] == actions;
  }

  ghost predicate Grew(s: State, s': State) {
    s.linked <= s'.linked && s.popped <= s'.popped && s.order <= s'.order
  }

  lemma NextGrows(s: State, a: Action)
    ensures Grew(s, Next(s, a))
  {
  }

  lemma GrewTransitive(a: State, b: State, c: State)
    requires Grew(a, b) && Grew(b, c)
    ensures Grew(a, c)
  {
  }

  /** Link order and hand-out order are final: later steps only extend them. */
  lemma {:induction false} HistoryGrows(s: State, actions: seq<Action>)
    ensures var s' := Run(s, actions); s.linked <= s'.linked && s.popped <= s'.popped && s.order <= s'.order
  {
    if actions != [] {
      var before := actions[..|actions| - 1];
      HistoryGrows(s, before);
      NextGrows(Run(s, before), actions[|actions| - 1]);
      GrewTransitive(s, Run(s, before), Run(s, actions));
    }
  }

  // ---- a push left alone ----

  /** Only pusher p moves. */
  function PushOnly(p: nat, flags: seq<bool>): seq<Action> {
    seq(|flags|, i requires 0 <= i < |flags| => StepPush(p, flags[i]))
  }

  function Failures(flags: seq<bool>): nat {
    if flags == [] then 0 else Failures(flags[..|flags| - 1]) + if flags[|flags| - 1] then 1 else 0
  }

  lemma {:induction false} PushSnoc(s: State, p: nat, flags: seq<bool>)
    requires flags != []
    ensures Run(s, PushOnly(p, flags)) ==
      Next(Run(s, PushOnly(p, flags[..|flags| - 1])), StepPush(p, flags[|flags| - 1]))
  {
    var k := |flags| - 1;
    assert PushOnly(p, flags) == PushOnly(p, flags[..k]) + [StepPush(p, flags[k])];
    RunSnoc(s, PushOnly(p, flags[..k]), StepPush(p, flags[k]));
  }

  /** How many nodes tail is behind the last one. */
  ghost function Lag(order: seq<nat>, tail: nat): nat {
    if order == [] || order[|order| - 1] == tail then 0 else 1 + Lag(order[..|order| - 1], tail)
  }

  lemma {:induction false} LagIs(order: seq<nat>, i: nat)
    requires i < |order| && forall j, k | 0 <= j < k < |order| :: order[j] != order[k]
    ensures Lag(order, order[i]) == |order| - 1 - i
  {
    if i < |order| - 1 {
      LagIs(order[..|order| - 1], i);
    }
  }

  /** How many more steps a push needs if no compare-and-swap fails from here on. */
  ghost function PushRemaining(nexts: seq<Option<nat>>, order: seq<nat>, tail: nat, pc: PushPc): nat {
    var again := 4 * Lag(order, tail) + 6;
    match pc
    case LoadTail(_) => again
    case LoadNext(_, t) => if t == tail then again - 1 else again + 2
    case RecheckTail(_, t, next) =>
      if t != tail then again + 1 else if next == At(nexts, t) then again - 2 else again + 2
    case LinkCas(_, t) => if t == tail && At(nexts, t).None? then 3 else again + 1
    case HelpCas(_, t, _) => if t == tail then again - 3 else again + 1
    case FinalLoad(_) => 2
    case FinalCas(_, _) => 1
  }

  /** A push that runs alone and began unlinked: what it has changed. */
  ghost predicate Pushing(s: State, s': State, p: nat)
    requires p in s.pushers
  {
    && p in s'.pushers && s'.pushers[p].node == s.pushers[p].node
    && if s'.pushers[p].Linked()
       then s'.order == s.order + [s.pushers[p].node] && (s'.pushers[p].FinalCas? ==> s'.pushers[p].expected == s'.tail)
       else s'.order == s.order && s'.nexts == s.nexts
  }

  /** It has returned: its node is the last, and tail is there unless the closing compare-and-swap failed. */
  ghost predicate PushReturned(s: State, s': State, p: nat, failed: bool)
    requires p in s.pushers
  {
    && p !in s'.pushers && s'.order == s.order + [s.pushers[p].node]
    && (!failed ==> s'.tail == s.pushers[p].node)
  }

  /** The node after tail is one nearer to the end. */
  lemma HelpGains(nexts: seq<Option<nat>>, order: seq<nat>, tail: nat)
    requires Spine(nexts, order) && tail in order
    ensures At(nexts, tail).Some? ==> Lag(order, tail) == Lag(order, At(nexts, tail).value) + 1
    ensures At(nexts, tail).None? ==> Lag(order, tail) == 0
  {
    var i := OnSpine(nexts, order, tail);
    LagIs(order, i);
    if i + 1 < |order| {
      LagIs(order, i + 1);
    }
  }

  /** The steps that stay in the loop. */
  lemma PushTurns(s: State, p: nat, spurious: bool)
    requires Spine(s.nexts, s.order) && s.tail in s.order && p in s.pushers
    requires PushOk(s.nexts, s.threads, s.given, s.order, s.pushers[p]) && !s.pushers[p].Linked()
    requires !(s.pushers[p].LinkCas? && At(s.nexts, s.pushers[p].tail).None? && !spurious)
    ensures var s' := PushStep(s, p, spurious);
      && p in s'.pushers && !s'.pushers[p].Linked() && s'.pushers[p].node == s.pushers[p].node
      && s'.order == s.order && s'.nexts == s.nexts
      && PushRemaining(s.nexts, s.order, s'.tail, s'.pushers[p]) + 1 <=
           PushRemaining(s.nexts, s.order, s.tail, s.pushers[p]) + if spurious then 4 else 0
  {
    HelpGains(s.nexts, s.order, s.tail);
  }

  lemma PushingStep(s: State, s': State, p: nat, spurious: bool)
    requires p in s.pushers && Inv(s') && Pushing(s, s', p)
    ensures var s2 := PushStep(s', p, spurious);
      || (s'.pushers[p].FinalCas? && PushReturned(s, s2, p, spurious))
      || (Pushing(s, s2, p) &&
          PushRemaining(s2.nexts, s2.order, s2.tail, s2.pushers[p]) + 1 <=
            PushRemaining(s'.nexts, s'.order, s'.tail, s'.pushers[p]) + if spurious then 4 else 0)
  {
    assert PushOk(s'.nexts, s'.threads, s'.given, s'.order, s'.pushers[p]);
    var pc := s'.pushers[p];
    if !pc.Linked() && !(pc.LinkCas? && At(s'.nexts, pc.tail).None? && !spurious) {
      PushTurns(s', p, spurious);
    }
  }

  /** The k-th step is the closing compare-and-swap. */
  ghost predicate ClosedAt(s: State, p: nat, flags: seq<bool>, k: nat)
    requires k < |flags|
  {
    var s' := Run(s, PushOnly(p, flags[..k]));
    p in s'.pushers && s'.pushers[p].FinalCas?
  }

  /** It has returned, by way of the k-th step. */
  ghost predicate ReturnedBy(s: State, p: nat, flags: seq<bool>, k: nat)
    requires p in s.pushers && k < |flags|
  {
    ClosedAt(s, p, flags, k) && PushReturned(s, Run(s, PushOnly(p, flags)), p, flags[k])
  }

  /** Or it is still in its loop, and nearer to the end. */
  ghost predicate StillPushing(s: State, p: nat, flags: seq<bool>)
    requires p in s.pushers
  {
    var s' := Run(s, PushOnly(p, flags));
    && Pushing(s, s', p)
    && PushRemaining(s'.nexts, s'.order, s'.tail, s'.pushers[p]) + |flags| <=
         PushRemaining(s.nexts, s.order, s.tail, s.pushers[p]) + 4 * Failures(flags)
  }

  lemma {:induction false} PushOnlyKeeps(s: State, p: nat, flags: seq<bool>)
    requires Inv(s)
    ensures Inv(Run(s, PushOnly(p, flags)))
  {
    if flags == [] {
      assert PushOnly(p, flags) == [];
    } else {
      PushOnlyKeeps(s, p, flags[..|flags| - 1]);
      PushSnoc(s, p, flags);
      NextKeeps(Run(s, PushOnly(p, flags[..|flags| - 1])), StepPush(p, flags[|flags| - 1]));
    }
  }

  lemma {:induction false} StaysReturned(s: State, p: nat, flags: seq<bool>, j: nat)
    requires p in s.pushers && j < |flags| - 1 && ReturnedBy(s, p, flags[..|flags| - 1], j)
    ensures ReturnedBy(s, p, flags, j)
  {
    PushSnoc(s, p, flags);
    assert flags[..|flags| - 1][..j] == flags[..j];
  }

  lemma {:induction false} OneMorePush(s: State, p: nat, flags: seq<bool>)
    requires p in s.pushers && flags != [] && StillPushing(s, p, flags[..|flags| - 1])
    requires Inv(Run(s, PushOnly(p, flags[..|flags| - 1])))
    ensures StillPushing(s, p, flags) || ReturnedBy(s, p, flags, |flags| - 1)
  {
    var k := |flags| - 1;
    PushSnoc(s, p, flags);
    PushingStep(s, Run(s, PushOnly(p, flags[..k])), p, flags[k]);
  }

  /** Where a push that is left alone stands after some of its steps. */
  lemma {:induction false} PushingSteps(s: State, p: nat, flags: seq<bool>)
    requires Inv(s) && p in s.pushers && !s.pushers[p].Linked()
    ensures StillPushing(s, p, flags) || exists k | 0 <= k < |flags| :: ReturnedBy(s, p, flags, k)
  {
    if flags == [] {
      assert PushOnly(p, flags) == [];
    } else {
      var before := flags[..|flags| - 1];
      PushingSteps(s, p, before);
      if StillPushing(s, p, before) {
        PushOnlyKeeps(s, p, before);
        OneMorePush(s, p, flags);
      } else {
        var j :| 0 <= j < |before| && ReturnedBy(s, p, before, j);
        StaysReturned(s, p, flags, j);
      }
    }
  }

  lemma RemainingBound(s: State, p: nat)
    requires p in s.pushers
    ensures 0 < PushRemaining(s.nexts, s.order, s.tail, s.pushers[p]) <= 4 * Lag(s.order, s.tail) + 8
  {
  }

  /**
   From every reachable state, wherever other pushes and the pop stand, a push left alone, f of whose
   compare-and-swaps fail, has returned after 4d + 8 + 4f of its steps, where d is how many nodes tail is behind
   the last one. Its node is then the last, and tail is at it unless the closing compare-and-swap failed.
   */
  lemma {:induction false} PushAloneReturns(actions: seq<Action>, p: nat, flags: seq<bool>)
    requires var s := Run(Init(), actions);
      p in s.pushers && !s.pushers[p].Linked() && |flags| >= 4 * Lag(s.order, s.tail) + 8 + 4 * Failures(flags)
    ensures var s := Run(Init(), actions); var s' := Run(s, PushOnly(p, flags));
      && p !in s'.pushers && s'.order == s.order + [s.pushers[p].node]
      && exists k | 0 <= k < |flags| :: ClosedAt(s, p, flags, k) && (!flags[k] ==> s'.tail == s.pushers[p].node)
  {
    RunKeeps(actions);
    var s := Run(Init(), actions);
    var s' := Run(s, PushOnly(p, flags));
    PushingSteps(s, p, flags);
    RemainingBound(s, p);
    if StillPushing(s, p, flags) {
      RemainingBound(s', p);
    } else {
      var k :| 0 <= k < |flags| && ReturnedBy(s, p, flags, k);
      assert ClosedAt(s, p, flags, k);
    }
  }

  // ---- a pop left alone ----

  /** Only the popper moves. */
  function PopOnly(flags: seq<bool>): seq<Action> {
    seq(|flags|, i requires 0 <= i < |flags| => StepPop(flags[i]))
  }

  /** The pop that finds nothing: after k of its own steps it is either back in its loop or done. */
  ghost predicate EmptyPopState(s: State, s': State, k: nat) {
    if s.tail == s.head && k >= 4 then
      s'.popper == Idle && |s'.outcomes| == |s.outcomes| + 1 && s'.outcomes[|s.outcomes|].value == None
    else
      && s' == s.(popper := s'.popper)
      && match k % 4
         case 0 => s'.popper == LoadHead
         case 1 => s'.popper == LoadPopTail(s.head)
         case 2 => s'.popper == LoadPopNext(s.head, s.tail)
         case _ => s'.popper == RecheckHead(s.head, s.tail, None, |s.linked|)
  }

  lemma EmptyPopStep(s: State, s': State, k: nat, spurious: bool)
    requires At(s.nexts, s.head).None? && EmptyPopState(s, s', k)
    ensures EmptyPopState(s, PopStep(s', spurious), k + 1)
  {
    if !(s.tail == s.head && k >= 4) {
      match k % 4
      case 0 => assert (k + 1) % 4 == 1;
      case 1 => assert (k + 1) % 4 == 2;
      case 2 => assert (k + 1) % 4 == 3;
      case _ => assert (k + 1) % 4 == 0;
    }
  }

  lemma {:induction false} EmptyPopSteps(s: State, flags: seq<bool>)
    requires s.popper == LoadHead && At(s.nexts, s.head).None?
    ensures EmptyPopState(s, Run(s, PopOnly(flags)), |flags|)
  {
    if flags == [] {
      assert PopOnly(flags) == [];
    } else {
      var k := |flags| - 1;
      EmptyPopSteps(s, flags[..k]);
      PopSnoc(s, flags);
      EmptyPopStep(s, Run(s, PopOnly(flags[..k])), k, flags[k]);
    }
  }

  /**
   When a pop finds the queue empty and is left alone, it returns (with `None`, after four steps)
   exactly when tail is at head; otherwise it goes round its loop forever.
   */
  lemma EmptyPopReturnsIffTailAtHead(s: State, flags: seq<bool>)
    requires s.popper == LoadHead && At(s.nexts, s.head).None? && |flags| >= 4
    ensures |Run(s, PopOnly(flags)).outcomes| > |s.outcomes| <==> s.tail == s.head
  {
    EmptyPopSteps(s, flags);
  }

  /** How many more steps the pop needs if no compare-and-swap fails from here on. */
  function Remaining(pc: PopPc, tailAtHead: bool): nat {
    match pc
    case Idle => 0
    case LoadHead => if tailAtHead then 11 else 6
    case LoadPopTail(_) => if tailAtHead then 10 else 5
    case LoadPopNext(_, _) => if tailAtHead then 9 else 4
    case RecheckHead(_, _, _, _) => if tailAtHead then 8 else 3
    case AdvanceTail(_, _, _) => 7
    case Take(_, _) => 2
    case HeadCas(_, _, _) => 1
    case PutBack(_, _, _) => 7
  }

  /** A pop that runs alone, with node n behind head: what it has changed, and where it is in its loop. */
  ghost predicate Popping(s: State, s': State, n: nat) {
    && s' == s.(tail := s'.tail, popper := s'.popper, threads := s'.threads)
    && (s'.tail == s.tail || (s.tail == s.head && s'.tail == n))
    && s'.threads == (if InHand(s'.popper) then Put(s.threads, n, None) else s.threads)
    && match s'.popper
       case Idle => false
       case LoadHead => true
       case LoadPopTail(head) => head == s.head
       case LoadPopNext(head, tail) => head == s.head && tail == s'.tail
       case RecheckHead(head, tail, next, _) => head == s.head && tail == s'.tail && next == Some(n)
       case AdvanceTail(head, tail, ahead) => head == s.head && tail == s'.tail == s.head && ahead == n
       case Take(head, ahead) => head == s.head && s'.tail != s.head && ahead == n
       case HeadCas(head, ahead, hand) => head == s.head && s'.tail != s.head && ahead == n && hand == At(s.threads, n)
       case PutBack(head, ahead, hand) => head == s.head && s'.tail != s.head && ahead == n && hand == At(s.threads, n)
  }

  /** It has returned node n's thread. */
  ghost predicate PoppedNext(s: State, s': State, n: nat) {
    s'.popper == Idle && s'.outcomes == s.outcomes + [Outcome(At(s.threads, n), true, |s.linked|, |s.popped|)]
  }

  /** Each step brings the end one step nearer; a failed compare-and-swap puts it off by at most seven. */
  lemma PoppingStep(s: State, s': State, n: nat, spurious: bool)
    requires At(s.nexts, s.head) == Some(n) && n != s.head && At(s.threads, n).Some? && Popping(s, s', n)
    ensures var s2 := PopStep(s', spurious);
      || PoppedNext(s, s2, n)
      || (Popping(s, s2, n) &&
          Remaining(s2.popper, s2.tail == s.head) + 1 <=
            Remaining(s'.popper, s'.tail == s.head) + if spurious then 7 else 0)
  {
    if s'.popper.Take? || s'.popper.PutBack? {
      PutTwice(s.threads, n, At(s.threads, n));
    }
  }

  lemma PutTwice(cells: seq<Option<ThreadRef>>, n: nat, value: Option<ThreadRef>)
    requires value == At(cells, n)
    ensures Put(Put(cells, n, None), n, value) == cells
  {
  }

  lemma {:induction false} PoppingSteps(s: State, n: nat, flags: seq<bool>)
    requires s.popper == LoadHead && At(s.nexts, s.head) == Some(n) && n != s.head && At(s.threads, n).Some?
    ensures var s' := Run(s, PopOnly(flags));
      || PoppedNext(s, s', n)
      || (Popping(s, s', n) && Remaining(s'.popper, s'.tail == s.head) + |flags| <= 11 + 7 * Failures(flags))
  {
    if flags == [] {
      assert PopOnly(flags) == [];
    } else {
      var k := |flags| - 1;
      PoppingSteps(s, n, flags[..k]);
      PopSnoc(s, flags);
      var s1 := Run(s, PopOnly(flags[..k]));
      if !PoppedNext(s, s1, n) {
        PoppingStep(s, s1, n, flags[k]);
      }
    }
  }

  lemma {:induction false} PopSnoc(s: State, flags: seq<bool>)
    requires flags != []
    ensures Run(s, PopOnly(flags)) == PopStep(Run(s, PopOnly(flags[..|flags| - 1])), flags[|flags| - 1])
  {
    var k := |flags| - 1;
    assert PopOnly(flags) == PopOnly(flags[..k]) + [StepPop(flags[k])];
    RunSnoc(s, PopOnly(flags[..k]), StepPop(flags[k]));
  }

  /** While a thread is waiting, the node behind head holds the oldest one. */
  lemma OldestIsNext(s: State)
    requires Inv(s) && !InHand(s.popper) && |s.popped| < |s.linked|
    ensures At(s.nexts, s.head).Some? && At(s.nexts, s.head).value != s.head
    ensures At(s.threads, At(s.nexts, s.head).value) == Some(s.linked[|s.popped|])
  {
    Ahead(s);
    assert s.order[Done(s)] != s.order[Done(s) + 1];
  }

  /**
   From every reachable state, a pop left alone, f of whose compare-and-swaps fail, has returned after 11 + 7f
   of its steps or never will: it returns exactly when a thread is waiting or tail is at head, and then with
   the oldest waiting thread, if there is one.
   */
  lemma {:induction false} PopAloneReturnsIff(actions: seq<Action>, flags: seq<bool>)
    requires Run(Init(), actions).popper == LoadHead && |flags| >= 11 + 7 * Failures(flags)
    ensures var s := Run(Init(), actions); var s' := Run(s, PopOnly(flags));
      && |s.popped| <= |s.linked|
      && (|s'.outcomes| > |s.outcomes| <==> |s.popped| < |s.linked| || s.tail == s.head)
      && (|s'.outcomes| > |s.outcomes| ==>
            s'.outcomes[|s.outcomes|].value == if |s.popped| < |s.linked| then Some(s.linked[|s.popped|]) else None)
  {
    RunKeeps(actions);
    var s := Run(Init(), actions);
    if |s.popped| < |s.linked| {
      OldestIsNext(s);
      PoppingSteps(s, At(s.nexts, s.head).value, flags);
      StillBusy(Run(s, PopOnly(flags)));
    } else {
      Ahead(s);
      EmptyPopSteps(s, flags);
    }
  }

  lemma StillBusy(s: State)
    ensures !s.popper.Idle? ==> Remaining(s.popper, true) > 0 && Remaining(s.popper, false) > 0
  {
  }

  // A reachable state in which tail has fallen behind head, onto a freed node, with one push suspended once.
  // Push 1 of thread 10 links its node and is suspended; the thread is popped, pushed again, and popped again;
  // a pop finds the queue empty; and push 1 resumes with its closing compare-and-swap.

  lemma Then(actions: seq<Action>, a: Action) returns (more: seq<Action>)
    ensures more == actions + [a] && Run(Init(), more) == Next(Run(Init(), actions), a)
  {
    more := actions + [a];
    RunSnoc(Init(), actions, a);
  }

  const FIRST_POP := Outcome(Some(10), true, 1, 0)
  const SECOND_POP := Outcome(Some(10), true, 2, 1)
  const THIRD_POP := Outcome(None, false, 2, 2)
  const SUSPENDED: map<nat, PushPc> := map[1 := FinalLoad(1)]

  lemma FirstPushLinks() returns (more: seq<Action>)
    ensures Run(Init(), more) ==
      State([Some(1), None], [None, Some(10)], 0, 0, SUSPENDED, Idle, [], [10], [0, 1], [10], [], [])
  {
    more := Then([], BeginPush(1, 10));
    more := Then(more, StepPush(1, false));
    more := Then(more, StepPush(1, false));
    more := Then(more, StepPush(1, false));
    more := Then(more, StepPush(1, false));
  }

  lemma FirstPopHelps() returns (more: seq<Action>)
    ensures Run(Init(), more) ==
      State([Some(1), None], [None, Some(10)], 0, 1, SUSPENDED, LoadHead, [], [10], [0, 1], [10], [], [])
  {
    more := FirstPushLinks();
    more := Then(more, BeginPop);
    more := Then(more, StepPop(false));
    more := Then(more, StepPop(false));
    more := Then(more, StepPop(false));
    assert Run(Init(), more) ==
      State([Some(1), None], [None, Some(10)], 0, 0, SUSPENDED, RecheckHead(0, 0, Some(1), 1), [], [10], [0, 1],
        [10], [], []);
    more := Then(more, StepPop(false));
    more := Then(more, StepPop(false));
  }

  /** A pop that nothing disturbs finds the next node, on a queue whose tail is not at head. */
  lemma UndisturbedLoads(actions: seq<Action>) returns (more: seq<Action>)
    requires var s := Run(Init(), actions);
      s.popper == LoadHead && s.head != s.tail && At(s.nexts, s.head).Some?
    ensures var s := Run(Init(), actions);
      Run(Init(), more) == s.(popper := Take(s.head, At(s.nexts, s.head).value))
  {
    more := Then(actions, StepPop(false));
    more := Then(more, StepPop(false));
    more := Then(more, StepPop(false));
    more := Then(more, StepPop(false));
  }

  /** And then hands its thread out. */
  lemma UndisturbedPop(actions: seq<Action>) returns (more: seq<Action>)
    requires var s := Run(Init(), actions);
      s.popper == LoadHead && s.head != s.tail && At(s.nexts, s.head).Some?
    ensures var s := Run(Init(), actions); var n := At(s.nexts, s.head).value;
      Run(Init(), more) == s.(
        popper := Idle,
        head := n,
        threads := Put(s.threads, n, None),
        freed := s.freed + [s.head],
        popped := s.popped + Held(At(s.threads, n)),
        outcomes := s.outcomes + [Outcome(At(s.threads, n), true, |s.linked|, |s.popped|)])
  {
    more := UndisturbedLoads(actions);
    more := Then(more, StepPop(false));
    more := Then(more, StepPop(false));
  }

  lemma FirstPopTakes() returns (more: seq<Action>)
    ensures Run(Init(), more) ==
      State([Some(1), None], [None, None], 1, 1, SUSPENDED, Idle, [0], [10], [0, 1], [10], [10], [FIRST_POP])
  {
    more := FirstPopHelps();
    more := UndisturbedPop(more);
  }

  lemma SecondPushLinks() returns (more: seq<Action>)
    ensures Run(Init(), more) ==
      State([Some(1), Some(2), None], [None, None, Some(10)], 1, 1, SUSPENDED[2 := FinalLoad(2)], Idle, [0], [10, 10],
            [0, 1, 2], [10, 10], [10], [FIRST_POP])
  {
    more := FirstPopTakes();
    more := Then(more, BeginPush(2, 10));
    more := Then(more, StepPush(2, false));
    more := Then(more, StepPush(2, false));
    assert Run(Init(), more) ==
      State([Some(1), None, None], [None, None, Some(10)], 1, 1, SUSPENDED[2 := RecheckTail(2, 1, None)], Idle, [0],
        [10, 10],
            [0, 1], [10], [10], [FIRST_POP]);
    more := Then(more, StepPush(2, false));
    more := Then(more, StepPush(2, false));
  }

  lemma SecondPopTakes() returns (more: seq<Action>)
    ensures Run(Init(), more) ==
      State([Some(1), Some(2), None], [None, None, None], 2, 2, SUSPENDED, Idle, [0, 1], [10, 10],
            [0, 1, 2], [10, 10], [10, 10], [FIRST_POP, SECOND_POP])
  {
    more := SecondPushLinks();
    more := Then(more, StepPush(2, false));
    more := Then(more, StepPush(2, false));
    assert Run(Init(), more) ==
      State([Some(1), Some(2), None], [None, None, Some(10)], 1, 2, SUSPENDED, Idle, [0], [10, 10],
            [0, 1, 2], [10, 10], [10], [FIRST_POP]);
    more := Then(more, BeginPop);
    more := UndisturbedPop(more);
  }

  lemma ThirdPopFindsNothing() returns (more: seq<Action>)
    ensures Run(Init(), more) ==
      State([Some(1), Some(2), None], [None, None, None], 2, 2, SUSPENDED, Idle, [0, 1], [10, 10],
            [0, 1, 2], [10, 10], [10, 10], [FIRST_POP, SECOND_POP, THIRD_POP])
  {
    more := SecondPopTakes();
    more := Then(more, BeginPop);
    more := Then(more, StepPop(false));
    more := Then(more, StepPop(false));
    more := Then(more, StepPop(false));
    more := Then(more, StepPop(false));
  }

  /** Tail can move backwards past head, so the next pop on the empty queue would never return. */
  lemma TailCanFallBehindHead() returns (actions: seq<Action>)
    ensures var s := Run(Init(), actions);
      && s.popper == LoadHead
      && s.popped == s.linked && At(s.nexts, s.head).None?
      && s.tail != s.head && s.tail in s.freed
      && forall flags: seq<bool> | |flags| >= 4 :: |Run(s, PopOnly(flags)).outcomes| == |s.outcomes|
  {
    actions := ThirdPopFindsNothing();
    actions := Then(actions, StepPush(1, false));
    actions := Then(actions, StepPush(1, false));
    actions := Then(actions, BeginPop);
    var s := Run(Init(), actions);
    assert s.freed[1] == 1 && s.tail == 1;
    forall flags: seq<bool> | |flags| >= 4 ensures |Run(s, PopOnly(flags)).outcomes| == |s.outcomes| {
      EmptyPopSteps(s, flags);
    }
  }
}
