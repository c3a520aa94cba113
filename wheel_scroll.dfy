/**
 * The wheel adapter: collapses a burst of wheel events into one intent, using the time of
 * the last accepted event and a busy flag that a timer clears `throttleMs` later.
 */
module WheelScroll {
  import opened Common

  const DefaultThrottleMs := 500

  /** Consecutive entries of `times` are at least `gap` apart. */
  ghost predicate Spaced(times: seq<int>, gap: int)
  {
    forall i :: 0 < i < |times| ==> times[i] - times[i - 1] >= gap
  }

  /** With a non-negative gap, consecutive spacing gives spacing between any two entries. */
  lemma {:induction false} SpacedPairwise(times: seq<int>, gap: int, i: int, j: int)
    requires Spaced(times, gap) && gap >= 0
    requires 0 <= i < j < |times|
    ensures times[j] - times[i] >= gap
    decreases j - i
  {
    if i < j - 1 {
      SpacedPairwise(times, gap, i, j - 1);
    }
  }

  /** The throttle test of `handleWheel`: an event at `now` gets through. */
  predicate WheelAdmits(now: int, lastScrollTime: int, isScrolling: bool, throttleMs: int)
  {
    !(now - lastScrollTime < throttleMs || isScrolling)
  }

  class WheelAdapter {
    const throttleMs: int
    var lastScrollTime: int
    var isScrolling: bool
    var direction: Option<Direction>
    /** The reset timer scheduled by the last accepted event has not fired yet. */
    var resetPending: bool
    /** Times of all accepted events, oldest first. */
    ghost var accepted: seq<int>

    ghost predicate Valid()
      reads this
    {
      && (resetPending <==> isScrolling)
      && (accepted == [] ==> lastScrollTime == 0)
      && (accepted != [] ==> accepted[|accepted| - 1] == lastScrollTime)
      && Spaced(accepted, throttleMs)
    }

    constructor (throttleMs: int)
      ensures Valid() && this.throttleMs == throttleMs
      ensures lastScrollTime == 0 && !isScrolling && direction == None && accepted == []
    {
      this.throttleMs := throttleMs;
      lastScrollTime := 0;
      isScrolling := false;
      direction := None;
      resetPending := false;
      accepted := [];
    }

    /** `handleWheel`: an event is dropped, or accepted and reported as exactly one intent. */
    method Wheel(now: int, deltaY: int) returns (intent: Option<Direction>)
      requires Valid()
      modifies this
      ensures Valid()
      ensures intent.Some? <==> WheelAdmits(now, old(lastScrollTime), old(isScrolling), throttleMs)
      ensures intent.None? ==> unchanged(this)
      ensures intent.Some? ==>
        && intent.value == DirectionOfDelta(deltaY) && direction == intent
        && lastScrollTime == now && isScrolling && resetPending
        && accepted == old(accepted) + [now]
    {
      if now - lastScrollTime < throttleMs || isScrolling {
        return None;
      }
      lastScrollTime := now;
      isScrolling := true;
      accepted := accepted + [now];
      var newDirection := DirectionOfDelta(deltaY);
      direction := Some(newDirection);
      intent := Some(newDirection);
      resetPending := true;
    }

    /** The reset timer: clears the busy flag and nothing else. */
    method ResetTimerFires()
      requires Valid() && resetPending
      modifies this
      ensures Valid()
      ensures !isScrolling && !resetPending
      ensures lastScrollTime == old(lastScrollTime) && direction == old(direction) && accepted == old(accepted)
    {
      isScrolling := false;
      resetPending := false;
    }
  }

  /** Two wheel events 100 ms apart produce one intent, even after the reset timer has fired. */
  method TwoQuickWheelEvents() returns (first: Option<Direction>, second: Option<Direction>)
    ensures first == Some(Down) && second == None
  {
    var wheel := new WheelAdapter(DefaultThrottleMs);
    first := wheel.Wheel(10000, 120);
    wheel.ResetTimerFires();
    second := wheel.Wheel(10100, 120);
  }
}
