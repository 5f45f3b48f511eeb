/**
 Time: the tick conversions of src/arch/aarch64.rs on 64-bit words, and the time-slice accounting of
 src/time/mod.rs.
 */
module Time {
  import opened Numbers

  const NS := 1_000_000_000

  // ---------------------------------------------------------------------------------------------
  // Ticks and nanoseconds
  // ---------------------------------------------------------------------------------------------

  function TicksToNs(freq: nat, ticks: nat): nat {
    if freq == 0 then 0 else (ticks * NS % WORD_LIMIT) / freq
  }

  function NsToTicks(freq: nat, ns: nat): nat {
    if freq == 0 then 0 else (ns * freq % WORD_LIMIT) / NS
  }

  lemma DivBounds(x: nat, d: nat)
    requires d > 0
    ensures x / d * d <= x < x / d * d + d
    ensures x % d == x - x / d * d
  {
    assert x == d * (x / d) + x % d;
  }

  /** Ticks to nanoseconds and back loses at most one tick, and none exactly when the first division is exact. */
  lemma TicksRoundTrip(freq: nat, t: nat)
    requires 0 < freq <= NS && t * NS < WORD_LIMIT
    ensures var back := NsToTicks(freq, TicksToNs(freq, t));
      && (back == t || back == t - 1)
      && (back == t <==> t * NS % freq == 0)
  {
    var x := t * NS;
    var ns := x / freq;
    DivBounds(x, freq);
    var rest := x % freq;
    assert TicksToNs(freq, t) == ns;
    NoWrap(freq, ns, x);
    BackAgain(ns * freq, rest, freq, t);
  }

  lemma NoWrap(freq: nat, ns: nat, x: nat)
    requires 0 < freq && ns * freq <= x < WORD_LIMIT
    ensures NsToTicks(freq, ns) == ns * freq / NS
  {
    var y := ns * freq;
    assert y % WORD_LIMIT == y;
  }

  lemma NoWrapTicks(freq: nat, ticks: nat, x: nat)
    requires 0 < freq && ticks * NS <= x < WORD_LIMIT
    ensures TicksToNs(freq, ticks) == ticks * NS / freq
  {
    var y := ticks * NS;
    assert y % WORD_LIMIT == y;
  }

  lemma BackAgain(y: nat, rest: nat, freq: nat, t: nat)
    requires rest < freq <= NS && y + rest == t * NS
    ensures y / NS == if rest == 0 then t else t - 1
  {
    DivModIs(y, NS, if rest == 0 then t else t - 1, if rest == 0 then 0 else NS - rest);
  }

  /** Nanoseconds to ticks and back never gains time, and loses at most one tick length, rounded up. */
  lemma NsRoundTrip(freq: nat, n: nat)
    requires 0 < freq && n * freq < WORD_LIMIT
    ensures var back := TicksToNs(freq, NsToTicks(freq, n));
      back <= n <= back + TickLength(freq)
  {
    var x := n * freq;
    var ticks := x / NS;
    NoWrap(freq, n, x);
    DivBounds(x, NS);
    NoWrapTicks(freq, ticks, x);
    DivBounds(ticks * NS, freq);
    LostTime(n, freq, ticks, ticks * NS / freq, TickLength(freq));
  }

  /** One tick in nanoseconds, rounded up. */
  function TickLength(freq: nat): (length: nat)
    requires freq > 0
    ensures NS <= length * freq
  {
    DivBounds(NS + freq - 1, freq);
    (NS + freq - 1) / freq
  }

  lemma LostTime(n: nat, freq: nat, ticks: nat, back: nat, lost: nat)
    requires 0 < freq && ticks * NS <= n * freq < ticks * NS + NS
    requires back * freq <= ticks * NS < back * freq + freq && NS <= lost * freq
    ensures back <= n <= back + lost
  {
    Cancel(back, n, freq);
    Distribute(back, lost, freq);
    CancelStrict(n, back + 1 + lost, freq);
  }

  lemma Distribute(back: nat, lost: nat, freq: nat)
    ensures (back + 1 + lost) * freq == back * freq + freq + lost * freq
  {
  }

  lemma Cancel(a: int, b: int, d: nat)
    requires d > 0 && a * d <= b * d
    ensures a <= b
  {
    assert (b - a) * d >= 0;
  }

  lemma CancelStrict(a: int, b: int, d: nat)
    requires d > 0 && a * d < b * d
    ensures a < b
  {
    assert (b - a) * d > 0;
  }

  // ---------------------------------------------------------------------------------------------
  // Time slices
  // ---------------------------------------------------------------------------------------------

  const DEFAULT_QUANTUM_NS := 1_000_000

  /** Half a millisecond for the lowest quarter of the priorities, and twice as long for each quarter above. */
  function Quantum(priority: Byte): (quantum: nat)
    ensures quantum == 500_000 * Doubled(priority / 64)
  {
    if priority <= 63 then DEFAULT_QUANTUM_NS / 2
    else if priority <= 127 then DEFAULT_QUANTUM_NS
    else if priority <= 191 then DEFAULT_QUANTUM_NS * 2
    else assert Doubled(3) == 2 * Doubled(2); DEFAULT_QUANTUM_NS * 4
  }

  function Doubled(k: nat): nat { if k == 0 then 1 else 2 * Doubled(k - 1) }

  /** A weight of 500 for the lowest quarter of the priorities, and 500 more for each quarter above. */
  function Factor(priority: Byte): (f: nat)
    ensures f == 500 * (priority / 64 + 1)
  {
    if priority <= 63 then 500 else if priority <= 127 then 1000 else if priority <= 191 then 1500 else 2000
  }

  datatype Slice = Slice(vruntime: nat, start: nat, quantum: nat, priority: Byte)

  datatype Event = Started(now: nat) | Updated(now: nat)

  function NewSlice(priority: Byte): Slice { Slice(0, 0, Quantum(priority), priority) }

  /** Time since the slice began; zero before any slice, or if the clock went back. */
  function Elapsed(s: Slice, now: nat): nat {
    if s.start == 0 || now < s.start then 0 else now - s.start
  }

  function After(s: Slice, e: Event): Slice {
    match e
    case Started(now) => s.(start := now)
    case Updated(now) =>
      if s.start == 0 then s else s.(vruntime := s.vruntime + Elapsed(s, now) * 1000 / Factor(s.priority))
  }

  /** What `update_vruntime` reports. */
  predicate Expired(s: Slice, now: nat) { s.start != 0 && Elapsed(s, now) >= s.quantum }

  function RunSlice(s: Slice, events: seq<Event>): Slice {
    if events == [] then s else After(RunSlice(s, events[..|events| - 1]), events[|events| - 1])
  }

  /** When the current slice began; 0 before any. */
  function LastStart(events: seq<Event>): nat {
    if events == [] then 0
    else if events[|events| - 1].Started? then events[|events| - 1].now
    else LastStart(events[..|events| - 1])
  }

  /** 1000 times the time that has passed at each update since the slice began, summed up. */
  function ExactSum(events: seq<Event>): nat {
    if events == [] then 0
    else
      var before, last := events[..|events| - 1], events[|events| - 1];
      var start := LastStart(before);
      ExactSum(before) + if last.Updated? && 0 < start < last.now then 1000 * (last.now - start) else 0
  }

  lemma {:induction false} StartIsLastStart(priority: Byte, events: seq<Event>)
    ensures RunSlice(NewSlice(priority), events).start == LastStart(events)
  {
    if events != [] {
      StartIsLastStart(priority, events[..|events| - 1]);
    }
  }

  /** An update reports expiry exactly when the slice has begun and the priority's quantum has passed since. */
  lemma ExpiredIff(priority: Byte, events: seq<Event>, now: nat)
    ensures Expired(RunSlice(NewSlice(priority), events), now) <==>
      LastStart(events) > 0 && now >= LastStart(events) + 500_000 * Doubled(priority / 64)
  {
    StartIsLastStart(priority, events);
    PriorityIsFixed(NewSlice(priority), events);
    QuantumIsPositive(priority);
  }

  lemma QuantumIsPositive(priority: Byte)
    ensures Quantum(priority) > 0
  {
  }

  function Updates(events: seq<Event>): nat {
    if events == [] then 0 else Updates(events[..|events| - 1]) + if events[|events| - 1].Updated? then 1 else 0
  }

  lemma {:induction false} PriorityIsFixed(s: Slice, events: seq<Event>)
    ensures RunSlice(s, events).priority == s.priority && RunSlice(s, events).quantum == s.quantum
  {
    if events != [] {
      PriorityIsFixed(s, events[..|events| - 1]);
    }
  }

  /** Virtual time times the factor trails the exact weighted time by less than one factor per update. */
  lemma {:induction false} VruntimeIsExactUpToRounding(priority: Byte, events: seq<Event>)
    ensures var s := NewSlice(priority); var f := Factor(priority);
      var lost := ExactSum(events) - f * RunSlice(s, events).vruntime;
      0 <= lost <= Updates(events) * (f - 1)
  {
    var s, f := NewSlice(priority), Factor(priority);
    if events != [] {
      var before, last := events[..|events| - 1], events[|events| - 1];
      VruntimeIsExactUpToRounding(priority, before);
      PriorityIsFixed(s, before);
      if last.Updated? {
        var exact := 1000 * Elapsed(RunSlice(s, before), last.now);
        StartIsLastStart(priority, before);
        DivBounds(exact, f);
        RoundingStep(ExactSum(before), RunSlice(s, before).vruntime, f, exact, Updates(before));
      }
    }
  }

  lemma RoundingStep(sum: int, v: int, f: nat, exact: nat, n: nat)
    requires f > 0 && 0 <= sum - f * v <= n * (f - 1)
    ensures 0 <= sum + exact - f * (v + exact / f) <= (n + 1) * (f - 1)
  {
    DivBounds(exact, f);
    assert f * (v + exact / f) == f * v + exact / f * f;
    assert (n + 1) * (f - 1) == n * (f - 1) + (f - 1);
  }

  /** Slices of different priority see the same start times on the same calls. */
  lemma {:induction false} SameStarts(s: Slice, s': Slice, events: seq<Event>)
    requires s.start == s'.start
    ensures RunSlice(s, events).start == RunSlice(s', events).start
  {
    if events != [] {
      SameStarts(s, s', events[..|events| - 1]);
    }
  }

  lemma DivAntitone(x: nat, d: nat, e: nat)
    requires 0 < d <= e
    ensures x / e <= x / d
  {
    DivBounds(x, d);
    DivBounds(x, e);
    Scale(x / e, d, e);
    Distribute(x / d, 0, d);
    CancelStrict(x / e, x / d + 1, d);
  }

  lemma Scale(q: nat, d: nat, e: nat)
    requires d <= e
    ensures q * d <= q * e
  {
    assert q * e == q * d + q * (e - d);
  }

  /** On the same calls a higher priority never accrues more virtual time than a lower one. */
  lemma {:induction false} HigherPriorityAccruesLess(low: Byte, high: Byte, events: seq<Event>)
    requires low <= high
    ensures RunSlice(NewSlice(high), events).vruntime <= RunSlice(NewSlice(low), events).vruntime
  {
    if events != [] {
      var before, last := events[..|events| - 1], events[|events| - 1];
      HigherPriorityAccruesLess(low, high, before);
      SameStarts(NewSlice(low), NewSlice(high), before);
      PriorityIsFixed(NewSlice(low), before);
      PriorityIsFixed(NewSlice(high), before);
      if last.Updated? {
        var s := RunSlice(NewSlice(low), before);
        DivAntitone(Elapsed(s, last.now) * 1000, Factor(low), Factor(high));
      }
    }
  }

  /** On the same calls a higher priority is never told to stop before a lower one. */
  lemma HigherPriorityRunsLonger(low: Byte, high: Byte, events: seq<Event>, now: nat)
    requires low <= high && Expired(RunSlice(NewSlice(high), events), now)
    ensures Expired(RunSlice(NewSlice(low), events), now)
  {
    SameStarts(NewSlice(low), NewSlice(high), events);
    PriorityIsFixed(NewSlice(low), events);
    PriorityIsFixed(NewSlice(high), events);
  }

  /** Within one slice, once an update reports expiry every later one does, whatever updates come between. */
  lemma {:induction false} ExpiryStays(s: Slice, now: nat, between: seq<Event>, later: nat)
    requires Expired(s, now) && now <= later
    requires forall i | 0 <= i < |between| :: between[i].Updated?
    ensures Expired(RunSlice(s, between), later)
  {
    if between != [] {
      ExpiryStays(s, now, between[..|between| - 1], later);
      PriorityIsFixed(s, between[..|between| - 1]);
    }
  }

  /** `TimeSlice`, with its fields changed in place. */
  class TimeSlice {
    var vruntime: nat
    var sliceStart: nat
    var quantum: nat
    var priority: Byte

    ghost function View(): Slice
      reads this
    {
      Slice(vruntime, sliceStart, quantum, priority)
    }

    constructor (priority: Byte)
      ensures View() == NewSlice(priority)
    {
      vruntime, sliceStart, quantum, this.priority := 0, 0, Quantum(priority), priority;
    }

    method StartSlice(now: nat)
      modifies this`sliceStart
      ensures View() == After(old(View()), Started(now))
    {
      sliceStart := now;
    }

    method UpdateVruntime(now: nat) returns (expired: bool)
      modifies this`vruntime
      ensures View() == After(old(View()), Updated(now))
      ensures expired == Expired(old(View()), now)
    {
      if sliceStart == 0 {
        return false;
      }
      var elapsed := if now < sliceStart then 0 else now - sliceStart;
      var virtualElapsed := (elapsed * 1000) / Factor(priority);
      vruntime := vruntime + virtualElapsed;
      expired := elapsed >= quantum;
    }
  }
}
