/**
The reconnect backoff (`apps/cli/src/daemon.rs`). Durations are seconds as reals; the two
random factors of a wait are inputs in their stated intervals.
*/
module Backoff {
  import opened Common

  const INITIAL: real := 1.0
  const FATAL_INITIAL: real := 5.0
  const MAX: real := 300.0
  const STABLE_SESSION: real := 30.0

  datatype End = Retry | Reconnectable(floor: Option<real>) | Fatal

  /** How far the attempt got; `since` is when it registered. */
  datatype Progress = NotRegistered | Registered(since: real)

  /** One attempt and the random factors of the wait after it. */
  datatype Attempt = Attempt(end: End, progress: Progress, now: real, jitter: real, floorJitter: real)

  predicate Possible(a: Attempt) {
    && 0.8 <= a.jitter <= 1.0 && 1.0 <= a.floorJitter <= 1.1
    && FloorOf(a) >= 0.0
  }

  predicate Stable(a: Attempt) {
    a.progress.Registered? && a.now - a.progress.since >= STABLE_SESSION
  }

  function MaxOf(x: real, y: real): real { if x >= y then x else y }
  function Capped(x: real): real { if x <= MAX then x else MAX }

  function GivenFloor(a: Attempt): Option<real> { if a.end.Reconnectable? then a.end.floor else None }

  function FloorValue(floor: Option<real>): real { if floor.Some? then floor.value else 0.0 }

  function FloorOf(a: Attempt): real { FloorValue(GivenFloor(a)) }

  datatype Delays = Delays(delay: real, fatal: real)

  const START := Delays(INITIAL, FATAL_INITIAL)

  function NextDelay(current: real): real { Capped(current * 2.0) }

  /** The longer of the jittered backoff and the jittered floor, when there is one. */
  function Wait(jittered: real, floor: Option<real>): real {
    if floor.Some? then MaxOf(jittered, floor.value) else jittered
  }

  function Times(x: real, factor: real): real { x * factor }

  function TimesFloor(floor: Option<real>, factor: real): Option<real> {
    if floor.Some? then Some(Times(floor.value, factor)) else None
  }

  function BeforeWait(d: Delays, a: Attempt): Delays { if Stable(a) then START else d }

  class ReconnectBackoff {
    var delay: real
    var fatalDelay: real

    constructor ()
      ensures Value() == START
    {
      delay, fatalDelay := INITIAL, FATAL_INITIAL;
    }

    function Value(): Delays
      reads this
    {
      Delays(delay, fatalDelay)
    }

    method NextWait(a: Attempt) returns (wait: real)
      requires Possible(a) && InRange(Value())
      modifies this
      ensures Value() == After(old(Value()), a) && InRange(Value())
      ensures wait == WaitAfter(old(Value()), a)
      ensures 0.8 * Used(old(Value()), a) <= wait <= MaxOf(Used(old(Value()), a), 1.1 * FloorOf(a))
      ensures wait >= FloorOf(a)
    {
      WaitBounds(Value(), a);
      if Stable(a) {
        delay, fatalDelay := INITIAL, FATAL_INITIAL;
      }
      match a.end {
        case Retry => wait := Wait(Times(delay, a.jitter), None);
        case Reconnectable(floor) =>
          wait := Wait(Times(delay, a.jitter), TimesFloor(floor, a.floorJitter));
          if floor.Some? {
            delay := Capped(MaxOf(delay, floor.value));
          }
        case Fatal =>
          wait := Wait(Times(fatalDelay, a.jitter), None);
          fatalDelay := NextDelay(fatalDelay);
      }
      delay := NextDelay(delay);
    }
  }

  lemma Jittered(x: real, factor: real)
    requires x >= 0.0 && 0.8 <= factor <= 1.0
    ensures 0.8 * x <= Times(x, factor) <= x
  { }

  lemma FloorJittered(x: real, factor: real)
    requires x >= 0.0 && 1.0 <= factor <= 1.1
    ensures x <= Times(x, factor) <= 1.1 * x
  { }

  /** At least 0.8 of the delay used and at least the floor; never above both the delay and 1.1 of the floor. */
  lemma WaitBounds(d: Delays, a: Attempt)
    requires Possible(a) && InRange(d)
    ensures var wait := WaitAfter(d, a);
            && 0.8 * Used(d, a) <= wait <= MaxOf(Used(d, a), 1.1 * FloorOf(a))
            && wait >= FloorOf(a)
  {
    Jittered(Used(d, a), a.jitter);
    FloorJittered(FloorOf(a), a.floorJitter);
    WaitRange(Used(d, a), Times(Used(d, a), a.jitter), GivenFloor(a), TimesFloor(GivenFloor(a), a.floorJitter));
  }

  lemma WaitRange(backoff: real, jittered: real, given: Option<real>, floor: Option<real>)
    requires 0.0 <= 0.8 * backoff <= jittered <= backoff && given.Some? == floor.Some?
    requires floor.Some? ==> given.value <= floor.value <= 1.1 * given.value
    ensures var wait := Wait(jittered, floor);
            && 0.8 * backoff <= wait <= MaxOf(backoff, 1.1 * FloorValue(given)) && wait >= FloorValue(given)
  { }

  function WaitAfter(d: Delays, a: Attempt): real {
    Wait(Times(Used(d, a), a.jitter), TimesFloor(GivenFloor(a), a.floorJitter))
  }

  /** The delay the wait is made from. */
  function Used(d: Delays, a: Attempt): real {
    var b := BeforeWait(d, a);
    if a.end.Fatal? then b.fatal else b.delay
  }

  function After(d: Delays, a: Attempt): Delays {
    var b := BeforeWait(d, a);
    Delays(NextDelay(Capped(MaxOf(b.delay, FloorOf(a)))), if a.end.Fatal? then NextDelay(b.fatal) else b.fatal)
  }

  predicate InRange(d: Delays) { INITIAL <= d.delay <= MAX && FATAL_INITIAL <= d.fatal <= MAX }

  // ------------------------------------------------------------ whole histories

  /** The delays after a history of attempts. */
  function AfterAll(history: seq<Attempt>): Delays {
    if history == [] then START else After(AfterAll(history[..|history| - 1]), history[|history| - 1])
  }

  /** The delay if it had no cap: doubled each time, from the server's floor when that is more. */
  function Uncapped(history: seq<Attempt>): real {
    if history == [] then INITIAL
    else
      var a := history[|history| - 1];
      2.0 * MaxOf(if Stable(a) then INITIAL else Uncapped(history[..|history| - 1]), FloorOf(a))
  }

  predicate AllPossible(history: seq<Attempt>) { forall k :: 0 <= k < |history| ==> Possible(history[k]) }

  /** Capping at every step is capping once at the end. */
  lemma {:induction false} CapsOnce(history: seq<Attempt>)
    requires AllPossible(history)
    ensures AfterAll(history).delay == Capped(Uncapped(history)) && Uncapped(history) >= INITIAL
    ensures InRange(AfterAll(history))
    decreases |history|
  {
    if history != [] {
      var a := history[|history| - 1];
      assert Possible(a);
      CapsOnce(history[..|history| - 1]);
    }
  }

  function Pow2(n: nat): real { if n == 0 then 1.0 else 2.0 * Pow2(n - 1) }

  /** The attempts since the last stable one, that one included. */
  function SinceStable(history: seq<Attempt>): (n: nat)
    ensures n <= |history|
  {
    if history == [] then 0
    else 1 + if Stable(history[|history| - 1]) then 0 else SinceStable(history[..|history| - 1])
  }

  /** The fatal ends since the last stable attempt, that one included. */
  function FatalSinceStable(history: seq<Attempt>): nat {
    if history == [] then 0
    else
      var a := history[|history| - 1];
      (if a.end.Fatal? then 1 else 0) + if Stable(a) then 0 else FatalSinceStable(history[..|history| - 1])
  }

  predicate FloorFree(history: seq<Attempt>) { forall k :: 0 <= k < |history| ==> FloorOf(history[k]) == 0.0 }

  lemma {:induction false} UncappedIsPower(history: seq<Attempt>)
    requires FloorFree(history[|history| - SinceStable(history)..])
    ensures Uncapped(history) == Pow2(SinceStable(history)) && Uncapped(history) >= INITIAL
    decreases |history|
  {
    if history != [] {
      var n := |history| - 1;
      var a, before := history[n], history[..n];
      var recent := history[|history| - SinceStable(history)..];
      assert recent[|recent| - 1] == a;
      if !Stable(a) {
        assert recent[..|recent| - 1] == before[n - SinceStable(before)..];
        assert FloorFree(recent[..|recent| - 1]);
        UncappedIsPower(before);
      } else {
        assert Pow2(1) == 2.0 * Pow2(0);
      }
    }
  }

  /** After any history: min(2^n, 300) seconds, where n counts the floor-free attempts since the last stable one. */
  lemma DelayIsPower(history: seq<Attempt>)
    requires AllPossible(history)
    requires FloorFree(history[|history| - SinceStable(history)..])
    ensures AfterAll(history).delay == Capped(Pow2(SinceStable(history)))
  {
    CapsOnce(history);
    UncappedIsPower(history);
  }

  /** Fatal failures have their own doubling: min(5 * 2^m, 300) seconds. */
  lemma {:induction false} FatalIsPower(history: seq<Attempt>)
    ensures AfterAll(history).fatal == Capped(FATAL_INITIAL * Pow2(FatalSinceStable(history)))
    ensures Pow2(FatalSinceStable(history)) >= 1.0
    decreases |history|
  {
    if history != [] {
      var a, before := history[|history| - 1], history[..|history| - 1];
      FatalIsPower(before);
      var m := if Stable(a) then 0 else FatalSinceStable(before);
      assert Pow2(m) >= 1.0;
      assert Pow2(m + 1) == 2.0 * Pow2(m);
    }
  }

  /** Nothing but a stable session makes either delay smaller. */
  lemma ShrinksOnlyWhenStable(d: Delays, a: Attempt)
    requires InRange(d) && (After(d, a).delay < d.delay || After(d, a).fatal < d.fatal)
    ensures Stable(a)
  { }

  /** The delay before jitter: from the start again after 30 seconds, else doubled for each attempt since, up to 300. */
  function Expected(history: seq<Attempt>, a: Attempt): real {
    var doubled := if a.end.Fatal? then 5.0 * Pow2(FatalSinceStable(history)) else Pow2(SinceStable(history));
    if a.progress.Registered? && a.now - a.progress.since >= 30.0 then if a.end.Fatal? then 5.0 else 1.0
    else if doubled <= 300.0 then doubled
    else 300.0
  }

  /** That delay times its factor, or the server's floor times its own when that is longer. */
  function Waited(delay: real, a: Attempt): real {
    if a.end.Reconnectable? && a.end.floor.Some? && a.end.floor.value * a.floorJitter > delay * a.jitter
    then a.end.floor.value * a.floorJitter
    else delay * a.jitter
  }

  lemma WaitFrom(d: Delays, a: Attempt, used: real)
    requires used == Used(d, a)
    ensures WaitAfter(d, a) == Waited(used, a)
  {
  }

  /** What each attempt waits after any history, in numbers. */
  lemma WaitInNumbers(history: seq<Attempt>, a: Attempt, expected: real)
    requires AllPossible(history) && expected == Expected(history, a)
    requires !a.end.Fatal? ==> FloorFree(history[|history| - SinceStable(history)..])
    ensures WaitAfter(AfterAll(history), a) == Waited(expected, a)
  {
    UsedIsExpected(history, a);
    WaitFrom(AfterAll(history), a, expected);
  }

  lemma UsedIsExpected(history: seq<Attempt>, a: Attempt)
    requires AllPossible(history) && (!a.end.Fatal? ==> FloorFree(history[|history| - SinceStable(history)..]))
    ensures Used(AfterAll(history), a) == Expected(history, a)
  {
    if a.end.Fatal? { FatalIsPower(history); } else { DelayIsPower(history); }
  }
}
