/**
  The keyboard rate limiter: lodash `throttle(handler, wait, { trailing: false })`, which
  both the calendar (wait 200 ms) and the text input (wait 300 ms) put in front of their
  key handlers. Only the leading edge fires: a call fires when nothing has fired yet or
  when at least `wait` milliseconds have passed since the last call that fired; every
  other call is dropped, never queued or fired later. The clock is a parameter.
*/
module RateLimit {
  import opened Wrappers

  predicate ShouldFire(wait: int, lastFired: Option<int>, now: int)
  {
    lastFired.None? || now - lastFired.value >= wait
  }

  /** The last-fired timestamp after a call at `now`. */
  function AfterCall(wait: int, lastFired: Option<int>, now: int): Option<int>
  {
    if ShouldFire(wait, lastFired, now) then Some(now) else lastFired
  }

  /** How many of the calls at `times`, made in this order, fire. */
  function FireCount(wait: int, lastFired: Option<int>, times: seq<int>): (count: nat)
    ensures count <= |times|
    decreases |times|
  {
    if times == [] then 0
    else
      (if ShouldFire(wait, lastFired, times[0]) then 1 else 0)
      + FireCount(wait, AfterCall(wait, lastFired, times[0]), times[1..])
  }

  /** Calls that all come within `wait` of a call that fired are all dropped. */
  lemma {:induction false} WithinWindowNoneFire(wait: int, start: int, times: seq<int>)
    requires forall i :: 0 <= i < |times| ==> start <= times[i] < start + wait
    ensures FireCount(wait, Some(start), times) == 0
    decreases |times|
  {
    if times != [] {
      assert !ShouldFire(wait, Some(start), times[0]);
      WithinWindowNoneFire(wait, start, times[1..]);
    }
  }

  /** A burst of calls inside one window, led by a call that fires, fires exactly once. */
  lemma {:induction false} BurstFiresOnce(wait: int, lastFired: Option<int>, times: seq<int>)
    requires |times| > 0 && ShouldFire(wait, lastFired, times[0])
    requires forall i :: 0 <= i < |times| ==> times[0] <= times[i] < times[0] + wait
    ensures FireCount(wait, lastFired, times) == 1
  {
    var rest := times[1..];
    forall i | 0 <= i < |rest| ensures times[0] <= rest[i] < times[0] + wait {
      assert rest[i] == times[i + 1];
    }
    WithinWindowNoneFire(wait, times[0], rest);
  }

  /** Calls spaced at least `wait` apart, the first of which may fire, all fire. */
  lemma {:induction false} SpacedCallsAllFire(wait: int, lastFired: Option<int>, times: seq<int>)
    requires |times| > 0 ==> ShouldFire(wait, lastFired, times[0])
    requires forall i :: 0 <= i < |times| - 1 ==> times[i + 1] - times[i] >= wait
    ensures FireCount(wait, lastFired, times) == |times|
    decreases |times|
  {
    if times != [] {
      var rest := times[1..];
      forall i | 0 <= i < |rest| - 1 ensures rest[i + 1] - rest[i] >= wait {
        assert rest[i] == times[i + 1] && rest[i + 1] == times[i + 2];
      }
      if rest != [] {
        assert rest[0] == times[1];
      }
      SpacedCallsAllFire(wait, Some(times[0]), rest);
    }
  }

  /** The throttled wrapper's hidden timing state. */
  class Throttle {
    const wait: int
    var lastFired: Option<int>

    constructor (wait: int)
      ensures this.wait == wait && lastFired == None
    {
      this.wait := wait;
      lastFired := None;
    }

    /** One call of the throttled function at time `now`: does it reach the handler? */
    method Call(now: int) returns (fire: bool)
      modifies this
      ensures fire == ShouldFire(wait, old(lastFired), now)
      ensures lastFired == AfterCall(wait, old(lastFired), now)
    {
      fire := lastFired.None? || now - lastFired.value >= wait;
      if fire {
        lastFired := Some(now);
      }
    }
  }
}
