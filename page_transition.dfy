/**
 * The page transition: where an incoming page starts and where an outgoing page goes for
 * each direction, and the `isAnimating` flag that a change raises for 800 ms.
 */
module PageTransition {

  /** The `direction` prop; the component defaults it to "down". */
  datatype TransitionDirection = Up | Down | Left | Right
  datatype Axis = X | Y

  /** A motion state: an offset along one axis, and the opacity (0 or 1). */
  datatype Pose = Pose(axis: Axis, offset: int, opacity: int)

  /** The distance, in pixels, an entering or leaving page is offset from its resting place. */
  const Shift := 50

  /** `getInitialTransform`: the incoming page starts 50 px away, invisible. */
  function InitialTransform(d: TransitionDirection): (p: Pose)
    ensures p.opacity == 0
    ensures p.axis == Y <==> d == Up || d == Down
    ensures p.offset == Shift <==> d == Up || d == Left
    ensures p.offset == Shift || p.offset == -Shift
  {
    match d
    case Up => Pose(Y, Shift, 0)
    case Down => Pose(Y, -Shift, 0)
    case Left => Pose(X, Shift, 0)
    case Right => Pose(X, -Shift, 0)
  }

  /** `getExitTransform`: the outgoing page leaves along the same axis, the opposite way. */
  function ExitTransform(d: TransitionDirection): (p: Pose)
    ensures p.opacity == 0
    ensures p.axis == InitialTransform(d).axis
    ensures p.offset == -InitialTransform(d).offset
  {
    match d
    case Up => Pose(Y, -Shift, 0)
    case Down => Pose(Y, Shift, 0)
    case Left => Pose(X, -Shift, 0)
    case Right => Pose(X, Shift, 0)
  }

  /** "up" and "down" mirror each other, as do "left" and "right". */
  lemma OppositeDirectionsMirror()
    ensures InitialTransform(Up) == ExitTransform(Down) && ExitTransform(Up) == InitialTransform(Down)
    ensures InitialTransform(Left) == ExitTransform(Right) && ExitTransform(Left) == InitialTransform(Right)
  {
  }

  /** The `isAnimating` state and the 800 ms timer of the effect on `isChanging`. */
  class Presenter {
    var isChanging: bool
    var isAnimating: bool
    var resetPending: bool

    ghost predicate Valid()
      reads this
    {
      resetPending ==> isChanging && isAnimating
    }

    /** Mounting runs the effect once for the initial `isChanging`. */
    constructor (isChanging: bool)
      ensures Valid() && this.isChanging == isChanging
      ensures isAnimating == isChanging && resetPending == isChanging
    {
      this.isChanging := isChanging;
      isAnimating := isChanging;
      resetPending := isChanging;
    }

    /**
     * A new `isChanging` prop. When it differs, the effect's cleanup cancels a pending timer,
     * then `true` raises the flag and starts a new timer; `false` leaves the flag as it is.
     */
    method SetIsChanging(value: bool)
      requires Valid()
      modifies this
      ensures Valid() && isChanging == value
      ensures value == old(isChanging) ==> unchanged(this)
      ensures value != old(isChanging) && value ==> isAnimating && resetPending
      ensures value != old(isChanging) && !value ==> isAnimating == old(isAnimating) && !resetPending
    {
      if value == isChanging {
        return;
      }
      resetPending := false;
      isChanging := value;
      if value {
        isAnimating := true;
        resetPending := true;
      }
    }

    /** The 800 ms timer. */
    method ResetTimerFires()
      requires Valid() && resetPending
      modifies this
      ensures Valid() && !isAnimating && !resetPending && isChanging == old(isChanging)
    {
      isAnimating := false;
      resetPending := false;
    }
  }

  /** A change that ends before the 800 ms timer fires cancels it and leaves `isAnimating` raised. */
  method ShortChangeLeavesFlagRaised() returns (animating: bool, pending: bool)
    ensures animating && !pending
  {
    var presenter := new Presenter(false);
    presenter.SetIsChanging(true);
    presenter.SetIsChanging(false);
    animating := presenter.isAnimating;
    pending := presenter.resetPending;
  }
}
