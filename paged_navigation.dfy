/**
 * The paged ("snap") page: one section shown at a time, a busy flag that drops requests
 * while a change is in flight, and a change that completes in three timer-driven steps.
 */
module PagedNavigation {
  import opened Common
  import opened Registry

  /** The one timer a section change can have outstanding. */
  datatype Timer =
    | NoTimer
    | CommitTimer(section: string)   // fires 300 ms after the request: commit `section`
    | UnlockTimer                    // fires 500 ms after the commit: clear the busy flag

  class PagedNavigator {
    var activeSection: string
    var isChangingSection: bool
    var isMenuOpen: bool
    var scrollDirection: Direction
    var timer: Timer

    /** Busy exactly while a change has a timer outstanding. */
    ghost predicate Valid()
      reads this
    {
      isChangingSection <==> !timer.NoTimer?
    }

    /** The active section, and any section about to be committed, are registered. */
    ghost predicate OnRegistry()
      reads this
    {
      Registered(activeSection) && (timer.CommitTimer? ==> Registered(timer.section))
    }

    constructor ()
      ensures Valid() && OnRegistry()
      ensures activeSection == "home" && !isChangingSection && !isMenuOpen
      ensures scrollDirection == Down && timer == NoTimer
    {
      activeSection := "home";
      isChangingSection := false;
      isMenuOpen := false;
      scrollDirection := Down;
      timer := NoTimer;
      assert Sections[0].id == "home";
    }

    /** `handleSectionChange`: dropped when `section` is already active or a change is in flight. */
    method RequestSection(section: string) returns (accepted: bool)
      requires Valid()
      modifies this
      ensures Valid()
      ensures accepted == (section != old(activeSection) && !old(isChangingSection))
      ensures !accepted ==> unchanged(this)
      ensures accepted ==> isChangingSection && timer == CommitTimer(section)
      ensures activeSection == old(activeSection) && isMenuOpen == old(isMenuOpen)
      ensures scrollDirection == old(scrollDirection)
      ensures old(OnRegistry()) && Registered(section) ==> OnRegistry()
    {
      if section == activeSection || isChangingSection {
        return false;
      }
      isChangingSection := true;
      timer := CommitTimer(section);
      accepted := true;
    }

    /** The first timer: commit the requested section and close the menu; still busy. */
    method CommitTimerFires()
      requires Valid() && timer.CommitTimer?
      modifies this
      ensures Valid()
      ensures activeSection == old(timer.section) && !isMenuOpen
      ensures isChangingSection && timer == UnlockTimer
      ensures scrollDirection == old(scrollDirection)
      ensures old(OnRegistry()) ==> OnRegistry()
    {
      activeSection := timer.section;
      isMenuOpen := false;
      timer := UnlockTimer;
    }

    /** The nested timer: the only step that clears the busy flag. */
    method UnlockTimerFires()
      requires Valid() && timer == UnlockTimer
      modifies this
      ensures Valid()
      ensures !isChangingSection && timer == NoTimer
      ensures activeSection == old(activeSection) && isMenuOpen == old(isMenuOpen)
      ensures scrollDirection == old(scrollDirection)
      ensures old(OnRegistry()) ==> OnRegistry()
    {
      isChangingSection := false;
      timer := NoTimer;
    }

    /** `setIsMenuOpen`, as the navigation menu calls it. */
    method SetMenuOpen(open: bool)
      modifies this
      ensures isMenuOpen == open
      ensures activeSection == old(activeSection) && isChangingSection == old(isChangingSection)
      ensures scrollDirection == old(scrollDirection) && timer == old(timer)
    {
      isMenuOpen := open;
    }

    /**
     * `handleScroll`: ignored entirely while busy; otherwise records the direction and
     * requests the neighbouring section, if the step is not clamped. The request it makes
     * is always accepted.
     */
    method Scroll(direction: Direction) returns (requested: Option<string>)
      requires Valid()
      modifies this
      ensures Valid()
      ensures old(isChangingSection) ==> requested == None && unchanged(this)
      ensures !old(isChangingSection) ==>
        && scrollDirection == direction
        && requested == Neighbor(old(activeSection), direction)
        && activeSection == old(activeSection) && isMenuOpen == old(isMenuOpen)
        && (requested.Some? ==> isChangingSection && timer == CommitTimer(requested.value))
        && (requested.None? ==> isChangingSection == old(isChangingSection) && timer == old(timer))
      ensures old(OnRegistry()) ==> OnRegistry()
    {
      if isChangingSection {
        return None;
      }
      scrollDirection := direction;
      var currentIndex := FindIndex(Sections, activeSection);
      var nextIndex := StepIndex(currentIndex, |Sections|, direction);
      if nextIndex != currentIndex {
        requested := Some(Sections[nextIndex].id);
        var accepted := RequestSection(Sections[nextIndex].id);
      } else {
        requested := None;
      }
    }
  }

  /** One full directional change: request, commit, unlock. */
  method NavigateDownFromHome() returns (during: string, after: string, busyAfter: bool)
    ensures during == "home" && after == "services" && !busyAfter
  {
    var nav := new PagedNavigator();
    NeighborOfIndex(0);
    var requested := nav.Scroll(Down);
    during := nav.activeSection;
    nav.CommitTimerFires();
    nav.UnlockTimerFires();
    after := nav.activeSection;
    busyAfter := nav.isChangingSection;
  }

  /** "down" at the last section is a no-op: nothing is requested and nothing changes. */
  method DownAtLastSection() returns (requested: Option<string>, active: string, busy: bool)
    ensures requested == None && active == "contact" && !busy
  {
    var nav := new PagedNavigator();
    NeighborOfIndex(|Sections| - 1);
    var _ := nav.RequestSection("contact");
    nav.CommitTimerFires();
    nav.UnlockTimerFires();
    requested := nav.Scroll(Down);
    active := nav.activeSection;
    busy := nav.isChangingSection;
  }

  /** A second request while the first change is in flight is dropped. */
  method RequestWhileBusy() returns (first: bool, second: bool, committed: string)
    ensures first && !second && committed == "work"
  {
    var nav := new PagedNavigator();
    first := nav.RequestSection("work");
    second := nav.RequestSection("about");
    nav.CommitTimerFires();
    committed := nav.activeSection;
  }
}
