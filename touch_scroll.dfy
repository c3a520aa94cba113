/**
 * The touch adapter: a swipe is measured from the recorded touch-start position and emits
 * one intent once it passes a threshold, after which the start reference is cleared.
 */
module TouchScroll {
  import opened Common
  import WheelScroll

  const DefaultThreshold := 20
  const DefaultThrottleMs := 500

  function Abs(x: int): (r: int)
    ensures r >= 0 && (r == x || r == -x)
  {
    if x < 0 then -x else x
  }

  /** The tests of `handleTouchMove` that let a move emit. */
  predicate TouchEmits(start: Option<int>, isScrolling: bool, touchY: int, now: int,
                       lastScrollTime: int, threshold: int, throttleMs: int)
  {
    && start.Some? && !isScrolling
    && Abs(start.value - touchY) >= threshold
    && now - lastScrollTime >= throttleMs
  }

  class TouchAdapter {
    const threshold: int
    const throttleMs: int
    var touchStartY: Option<int>
    var lastScrollTime: int
    var isScrolling: bool
    var direction: Option<Direction>
    var resetPending: bool
    /** Times of all emitted intents, oldest first. */
    ghost var emitted: seq<int>

    ghost predicate Valid()
      reads this
    {
      && (resetPending <==> isScrolling)
      && (emitted == [] ==> lastScrollTime == 0)
      && (emitted != [] ==> emitted[|emitted| - 1] == lastScrollTime)
      && WheelScroll.Spaced(emitted, throttleMs)
    }

    constructor (threshold: int, throttleMs: int)
      ensures Valid() && this.threshold == threshold && this.throttleMs == throttleMs
      ensures touchStartY == None && lastScrollTime == 0 && !isScrolling && direction == None
      ensures emitted == []
    {
      this.threshold := threshold;
      this.throttleMs := throttleMs;
      touchStartY := None;
      lastScrollTime := 0;
      isScrolling := false;
      direction := None;
      resetPending := false;
      emitted := [];
    }

    /** `handleTouchStart`: records the start position unconditionally, even while busy. */
    method TouchStart(clientY: int)
      requires Valid()
      modifies this
      ensures Valid()
      ensures touchStartY == Some(clientY)
      ensures lastScrollTime == old(lastScrollTime) && isScrolling == old(isScrolling)
      ensures direction == old(direction) && resetPending == old(resetPending) && emitted == old(emitted)
    {
      touchStartY := Some(clientY);
    }

    /**
     * `handleTouchMove`: emits one intent when a start is recorded, the adapter is idle, the
     * swipe reaches the threshold and the throttle window has passed; otherwise changes nothing.
     */
    method TouchMove(now: int, clientY: int) returns (intent: Option<Direction>)
      requires Valid()
      modifies this
      ensures Valid()
      ensures intent.Some? <==>
        TouchEmits(old(touchStartY), old(isScrolling), clientY, now, old(lastScrollTime), threshold, throttleMs)
      ensures intent.None? ==> unchanged(this)
      ensures intent.Some? ==>
        && intent.value == DirectionOfDelta(old(touchStartY).value - clientY) && direction == intent
        && touchStartY == None && lastScrollTime == now && isScrolling && resetPending
        && emitted == old(emitted) + [now]
    {
      if touchStartY.None? || isScrolling {
        return None;
      }
      var deltaY := touchStartY.value - clientY;
      if Abs(deltaY) < threshold {
        return None;
      }
      if now - lastScrollTime < throttleMs {
        return None;
      }
      lastScrollTime := now;
      isScrolling := true;
      emitted := emitted + [now];
      var newDirection := DirectionOfDelta(deltaY);
      direction := Some(newDirection);
      intent := Some(newDirection);
      touchStartY := None;
      resetPending := true;
    }

    /** The reset timer: clears the busy flag and nothing else. */
    method ResetTimerFires()
      requires Valid() && resetPending
      modifies this
      ensures Valid()
      ensures !isScrolling && !resetPending
      ensures touchStartY == old(touchStartY) && lastScrollTime == old(lastScrollTime)
      ensures direction == old(direction) && emitted == old(emitted)
    {
      isScrolling := false;
      resetPending := false;
    }
  }

  /** A 5 px move stays under the 20 px threshold: no intent, and the start is kept. */
  method ShortSwipe() returns (intent: Option<Direction>, start: Option<int>)
    ensures intent == None && start == Some(400)
  {
    var touch := new TouchAdapter(DefaultThreshold, DefaultThrottleMs);
    touch.TouchStart(400);
    intent := touch.TouchMove(10000, 395);
    start := touch.touchStartY;
  }

  /** One gesture emits once: after the emission later moves emit nothing until a new touchstart. */
  method OneIntentPerGesture() returns (first: Option<Direction>, second: Option<Direction>, third: Option<Direction>)
    ensures first == Some(Down) && second == None && third == Some(Up)
  {
    var touch := new TouchAdapter(DefaultThreshold, DefaultThrottleMs);
    touch.TouchStart(400);
    first := touch.TouchMove(10000, 300);
    touch.ResetTimerFires();
    second := touch.TouchMove(11000, 100);
    touch.TouchStart(100);
    third := touch.TouchMove(12000, 300);
  }
}
