/**
 `ArcLite` (src/mem/arc_lite.rs, the form that deallocates): the shared count under every interleaving of
 clone, try_inc, dec and drop, one atomic operation per step. A handle may be used only while it is live,
 and not dropped while a call borrows it. `dec` is public, and may be called without a `try_inc` before it.
 */
module ArcLite {
  /** A `try_inc` under way: the handle it borrows, and the count it last saw. */
  datatype Inc = Inc(handle: nat, current: int)

  datatype State = State(
    count: int,
    handles: set<nat>,    // live `ArcLite` values
    tokens: int,          // counts taken by `try_inc` less counts given back by `dec`
    incs: map<nat, Inc>,
    doomed: nat,          // releases that saw the count at one and are about to deallocate
    destroyed: nat,       // times the data was dropped and its memory freed
    refused: nat)         // `try_inc` calls that returned false

  datatype Action =
    | Clone(handle: nat, copy: nat)
    | BeginInc(p: nat, handle: nat)
    | StepInc(p: nat, spurious: bool)
    | Dec(handle: nat)
    | Drop(handle: nat)
    | Deallocate

  function New(): State { State(1, {0}, 0, map[], 0, 0, 0) }

  predicate Borrowed(s: State, h: nat) { exists p <- s.incs :: s.incs[p].handle == h }

  /** `fetch_sub(1)`; the releaser that saw one goes on to deallocate. */
  function Release(s: State): State {
    s.(count := s.count - 1, doomed := s.doomed + if s.count == 1 then 1 else 0)
  }

  /** A live handle to data that is freed or about to be. Nothing is followed from there. */
  predicate Dangling(s: State) { s.handles != {} && s.doomed + s.destroyed > 0 }

  function Next(s: State, a: Action): State {
    if Dangling(s) then s else Act(s, a)
  }

  function Act(s: State, a: Action): State {
    match a
    case Clone(h, copy) =>
      if h in s.handles && copy !in s.handles then s.(count := s.count + 1, handles := s.handles + {copy}) else s
    case BeginInc(p, h) =>
      if h in s.handles && p !in s.incs then s.(incs := s.incs[p := Inc(h, s.count)]) else s
    case StepInc(p, spurious) =>
      if p !in s.incs then s
      else if s.incs[p].current == 0 then s.(incs := s.incs - {p}, refused := s.refused + 1)
      else if s.count == s.incs[p].current && !spurious
      then s.(count := s.count + 1, tokens := s.tokens + 1, incs := s.incs - {p})
      else s.(incs := s.incs[p := s.incs[p].(current := s.count)])
    case Dec(h) =>
      if h in s.handles then Release(s.(tokens := s.tokens - 1)) else s
    case Drop(h) =>
      if h in s.handles && !Borrowed(s, h) then Release(s.(handles := s.handles - {h})) else s
    case Deallocate =>
      if s.doomed > 0 then s.(doomed := s.doomed - 1, destroyed := s.destroyed + 1) else s
  }

  function Run(s: State, actions: seq<Action>): State {
    if actions == [] then s else Next(Run(s, actions[..|actions| - 1]), actions[|actions| - 1])
  }

  ghost predicate Inv(s: State) {
    && s.count == |s.handles| + s.tokens >= 0
    && (forall p <- s.incs :: s.incs[p].handle in s.handles && s.incs[p].current > 0)
    && s.doomed + s.destroyed == (if s.count == 0 then 1 else 0)
    && s.refused == 0
  }

  lemma ReleaseKeeps(s: State, handles: set<nat>, tokens: int)
    requires Inv(s) && s.count > 0 && |handles| + tokens == s.count - 1
    requires forall p <- s.incs :: s.incs[p].handle in handles
    ensures Inv(Release(s.(handles := handles, tokens := tokens)))
  {
  }

  lemma StepIncKeeps(s: State, p: nat, spurious: bool)
    requires Inv(s) && !Dangling(s) && p in s.incs
    ensures Inv(Act(s, StepInc(p, spurious)))
  {
    HandleCounts(s.handles, s.incs[p].handle);
  }

  lemma NextKeeps(s: State, a: Action)
    requires Inv(s)
    ensures Inv(Next(s, a))
  {
    if !Dangling(s) {
      match a
      case Clone(h, copy) =>
      case BeginInc(p, h) => HandleCounts(s.handles, h);
      case StepInc(p, spurious) => if p in s.incs { StepIncKeeps(s, p, spurious); }
      case Dec(h) => if h in s.handles { ReleaseKeeps(s, s.handles, s.tokens - 1); }
      case Drop(h) =>
        HandleCounts(s.handles, h);
        if h in s.handles && !Borrowed(s, h) { ReleaseKeeps(s, s.handles - {h}, s.tokens); }
      case Deallocate =>
    }
  }

  lemma HandleCounts(handles: set<nat>, h: nat)
    ensures h in handles ==> |handles| == |handles - {h}| + 1
  {
    if h in handles {
      assert handles == (handles - {h}) + {h};
    }
  }

  lemma {:induction false} RunKeeps(actions: seq<Action>)
    ensures Inv(Run(New(), actions))
  {
    if actions != [] {
      RunKeeps(actions[..|actions| - 1]);
      NextKeeps(Run(New(), actions[..|actions| - 1]), actions[|actions| - 1]);
    }
  }

  /**
   In every interleaving the count is the number of live handles and of counts taken and not given back; while
   any is left the data is neither destroyed nor about to be; once none is, exactly one releaser has destroyed it
   or is about to; and no `try_inc` is ever refused, since its caller holds a handle.
   */
  lemma CountMatchesHandles(actions: seq<Action>)
    ensures var s := Run(New(), actions);
      && s.count == |s.handles| + s.tokens >= 0
      && s.doomed + s.destroyed == (if |s.handles| + s.tokens == 0 then 1 else 0)
      && s.refused == 0
  {
    RunKeeps(actions);
  }

  /** Successful `try_inc` calls less `dec` calls. */
  function Balance(actions: seq<Action>): int {
    if actions == [] then 0
    else
      var before, a := actions[..|actions| - 1], actions[|actions| - 1];
      var s := Run(New(), before);
      Balance(before) +
      if Dangling(s) then 0
      else if a.Dec? && a.handle in s.handles then -1
      else if Takes(s, a) then 1
      else 0
  }

  /** `a` is the compare-and-swap of a `try_inc` that succeeds. */
  predicate Takes(s: State, a: Action) {
    a.StepInc? && a.p in s.incs && s.incs[a.p].current != 0 && s.count == s.incs[a.p].current && !a.spurious
  }

  lemma {:induction false} TokensAreBalance(actions: seq<Action>)
    ensures Run(New(), actions).tokens == Balance(actions)
  {
    if actions != [] {
      TokensAreBalance(actions[..|actions| - 1]);
    }
  }

  /**
   A live handle is left with freed data exactly when `dec` has been called as many times more often than
   `try_inc` has succeeded as there are live handles. So never, if no more counts are given back than were taken.
   */
  lemma DanglingIff(actions: seq<Action>)
    ensures var s := Run(New(), actions); Dangling(s) <==> s.handles != {} && -Balance(actions) == |s.handles|
    ensures Balance(actions) >= 0 ==> !Dangling(Run(New(), actions))
  {
    RunKeeps(actions);
    TokensAreBalance(actions);
    var s := Run(New(), actions);
    if s.handles != {} {
      var h :| h in s.handles;
      HandleCounts(s.handles, h);
    }
  }

  lemma LastReleaseAt(s: State, a: Action)
    requires Inv(s)
    ensures Next(s, a).doomed > s.doomed <==> (a.Drop? || a.Dec?) && s.count == 1 && Next(s, a).count == 0
  {
  }

  /** Destruction is begun by exactly the step that releases the last count. */
  lemma LastReleaseDestroys(actions: seq<Action>, a: Action)
    ensures var s := Run(New(), actions);
      Next(s, a).doomed > s.doomed <==> (a.Drop? || a.Dec?) && s.count == 1 && Next(s, a).count == 0
  {
    RunKeeps(actions);
    LastReleaseAt(Run(New(), actions), a);
  }

  // ---------------------------------------------------------------------------------------------
  // What the calls amount to
  // ---------------------------------------------------------------------------------------------

  /** The first handle and every copy cloned, less those dropped. */
  function Live(actions: seq<Action>): set<nat> {
    if actions == [] then {0}
    else
      var before, a := actions[..|actions| - 1], actions[|actions| - 1];
      var live, s := Live(before), Run(New(), before);
      if Dangling(s) then live
      else if a.Clone? && a.handle in live then live + {a.copy}
      else if a.Drop? && !Borrowed(s, a.handle) then live - {a.handle}
      else live
  }

  lemma {:induction false} HandlesAreLive(actions: seq<Action>)
    ensures Run(New(), actions).handles == Live(actions)
  {
    if actions != [] {
      HandlesAreLive(actions[..|actions| - 1]);
      var s, a := Run(New(), actions[..|actions| - 1]), actions[|actions| - 1];
      HandleStep(s, a);
    }
  }

  lemma HandleStep(s: State, a: Action)
    ensures Next(s, a).handles ==
      if Dangling(s) then s.handles
      else if a.Clone? && a.handle in s.handles then s.handles + {a.copy}
      else if a.Drop? && !Borrowed(s, a.handle) then s.handles - {a.handle}
      else s.handles
  {
  }

  /** When every handle has been dropped and every count taken has been given back, the data is destroyed once. */
  lemma {:induction false} AllDroppedDestroysOnce(actions: seq<Action>)
    requires Live(actions) == {} && Balance(actions) == 0
    ensures Run(New(), actions + [Deallocate]).destroyed == 1
    ensures Run(New(), actions + [Deallocate]).doomed == 0
  {
    HandlesAreLive(actions);
    TokensAreBalance(actions);
    RunKeeps(actions);
    assert (actions + [Deallocate])[..|actions|] == actions;
  }

  /** A `try_inc` left alone, of whose compare-and-swaps none fails spuriously, takes its count within two steps. */
  lemma {:induction false} TryIncAlone(actions: seq<Action>, p: nat)
    requires var s := Run(New(), actions); p in s.incs && !Dangling(s)
    ensures var s := Run(New(), actions); var s' := Next(Next(s, StepInc(p, false)), StepInc(p, false));
      p !in s'.incs && s'.tokens == s.tokens + 1 && s'.count == s.count + 1
  {
    RunKeeps(actions);
    var s := Run(New(), actions);
    HandleCounts(s.handles, s.incs[p].handle);
  }
}
