/**
 * ScrollControls: one wheel adapter and one touch adapter with their default settings, plus
 * the arrow-key mapping, all feeding the same `onScroll` callback.
 */
module ScrollControls {
  import opened Common
  import WheelScroll
  import TouchScroll

  /** `handleKeyDown`: ArrowDown/ArrowRight mean "down", ArrowUp/ArrowLeft "up", anything else nothing. */
  function KeyIntent(key: string): (r: Option<Direction>)
    ensures r == Some(Down) <==> key == "ArrowDown" || key == "ArrowRight"
    ensures r == Some(Up) <==> key == "ArrowUp" || key == "ArrowLeft"
  {
    if key == "ArrowDown" || key == "ArrowRight" then Some(Down)
    else if key == "ArrowUp" || key == "ArrowLeft" then Some(Up)
    else None
  }

  /** A raw device event, or a reset timer of one of the adapters firing. */
  datatype InputEvent =
    | WheelEvent(now: int, deltaY: int)
    | TouchStartEvent(clientY: int)
    | TouchMoveEvent(now: int, clientY: int)
    | KeyEvent(key: string)
    | WheelResetTimer
    | TouchResetTimer

  class Controls {
    const wheel: WheelScroll.WheelAdapter
    const touch: TouchScroll.TouchAdapter

    /** Both adapters are valid and carry the defaults ScrollControls gives them. */
    ghost predicate Valid()
      reads wheel, touch
    {
      && wheel.Valid() && touch.Valid()
      && wheel.throttleMs == WheelScroll.DefaultThrottleMs
      && touch.threshold == TouchScroll.DefaultThreshold
      && touch.throttleMs == TouchScroll.DefaultThrottleMs
    }

    constructor ()
      ensures Valid() && fresh(wheel) && fresh(touch)
      ensures !wheel.isScrolling && !touch.isScrolling && touch.touchStartY == None
      ensures wheel.lastScrollTime == 0 && touch.lastScrollTime == 0
    {
      wheel := new WheelScroll.WheelAdapter(WheelScroll.DefaultThrottleMs);
      touch := new TouchScroll.TouchAdapter(TouchScroll.DefaultThreshold, TouchScroll.DefaultThrottleMs);
    }

    /** Routes one event to its adapter; every intent goes to the single callback, as `intent`. */
    method Dispatch(e: InputEvent) returns (intent: Option<Direction>)
      requires Valid()
      requires e.WheelResetTimer? ==> wheel.resetPending
      requires e.TouchResetTimer? ==> touch.resetPending
      modifies wheel, touch
      ensures Valid()
      ensures e.KeyEvent? ==> intent == KeyIntent(e.key) && unchanged(wheel) && unchanged(touch)
      ensures e.WheelEvent? ==>
        && (intent.Some? <==> WheelScroll.WheelAdmits(e.now, old(wheel.lastScrollTime), old(wheel.isScrolling), 500))
        && (intent.None? ==> unchanged(wheel))
        && (intent.Some? ==>
              && intent.value == DirectionOfDelta(e.deltaY) && wheel.direction == intent
              && wheel.lastScrollTime == e.now && wheel.isScrolling && wheel.resetPending
              && wheel.accepted == old(wheel.accepted) + [e.now])
        && unchanged(touch)
      ensures e.TouchMoveEvent? ==>
        && (intent.Some? <==> TouchScroll.TouchEmits(old(touch.touchStartY), old(touch.isScrolling), e.clientY,
                                                     e.now, old(touch.lastScrollTime), 20, 500))
        && (intent.None? ==> unchanged(touch))
        && (intent.Some? ==>
              && intent.value == DirectionOfDelta(old(touch.touchStartY).value - e.clientY) && touch.direction == intent
              && touch.touchStartY == None && touch.lastScrollTime == e.now && touch.isScrolling && touch.resetPending
              && touch.emitted == old(touch.emitted) + [e.now])
        && unchanged(wheel)
      ensures e.TouchStartEvent? ==>
        && intent == None && unchanged(wheel)
        && touch.touchStartY == Some(e.clientY) && touch.lastScrollTime == old(touch.lastScrollTime)
        && touch.isScrolling == old(touch.isScrolling) && touch.resetPending == old(touch.resetPending)
        && touch.direction == old(touch.direction) && touch.emitted == old(touch.emitted)
      ensures e.WheelResetTimer? ==>
        && intent == None && unchanged(touch)
        && !wheel.isScrolling && !wheel.resetPending && wheel.lastScrollTime == old(wheel.lastScrollTime)
        && wheel.direction == old(wheel.direction) && wheel.accepted == old(wheel.accepted)
      ensures e.TouchResetTimer? ==>
        && intent == None && unchanged(wheel)
        && !touch.isScrolling && !touch.resetPending && touch.touchStartY == old(touch.touchStartY)
        && touch.lastScrollTime == old(touch.lastScrollTime) && touch.direction == old(touch.direction)
        && touch.emitted == old(touch.emitted)
    {
      match e
      case WheelEvent(now, deltaY) =>
        intent := wheel.Wheel(now, deltaY);
      case TouchStartEvent(y) =>
        touch.TouchStart(y);
        intent := None;
      case TouchMoveEvent(now, y) =>
        intent := touch.TouchMove(now, y);
      case KeyEvent(key) =>
        intent := KeyIntent(key);
      case WheelResetTimer =>
        wheel.ResetTimerFires();
        intent := None;
      case TouchResetTimer =>
        touch.ResetTimerFires();
        intent := None;
    }
  }

  /**
   * The keyboard has no throttle: two arrow presses right after a wheel intent give two
   * intents, while a second wheel event 100 ms after the first is still dropped.
   */
  method KeysAreNotThrottled() returns (wheelIntent: Option<Direction>, key1: Option<Direction>,
                                        key2: Option<Direction>, wheelAgain: Option<Direction>)
    ensures wheelIntent == Some(Down) && key1 == Some(Down) && key2 == Some(Up) && wheelAgain == None
  {
    var controls := new Controls();
    wheelIntent := controls.Dispatch(WheelEvent(10000, 50));
    key1 := controls.Dispatch(KeyEvent("ArrowRight"));
    key2 := controls.Dispatch(KeyEvent("ArrowUp"));
    var _ := controls.Dispatch(WheelResetTimer);
    wheelAgain := controls.Dispatch(WheelEvent(10100, 50));
  }
}
