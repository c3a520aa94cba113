# Section navigation of the Surviant marketing site, in Dafny

This project models the part of the Surviant single-page site that has behaviour worth
stating: how the active section is chosen and changed, and the small pieces of bookkeeping
around that.

- **Section registry** (`registry.dfy`). The seven sections in display order. `findIndex`
  looks them up, and a one-step neighbour rule is shared by directional input and the
  arrow keys.
- **Paged navigation** (`paged_navigation.dfy`, `app/page-alternative.tsx`). A class that
  holds `activeSection`, the busy flag `isChangingSection`, `isMenuOpen` and the recorded
  scroll direction.
  - A change request is dropped when it names the active section or arrives while busy.
  - An accepted request goes through three steps: it sets busy, a 300 ms timer commits the
    section and closes the menu, and a nested 500 ms timer unlocks. Each timer is an
    explicit method.
- **Continuous navigation** (`continuous_navigation.dfy`, `app/page.tsx`).
  - A section change assigns the section unconditionally and yields the scroll offset it
    schedules.
  - The scroll listener picks the most visible section with a strict running maximum, so
    ties go to the first section. It falls back to `home` when nothing is visible.
  - The key handler steps with the arrows and jumps with Home and End.
- **Input adapters**.
  - Wheel (`wheel_scroll.dfy`): a throttle on the time of the last accepted event, plus a
    busy flag that a reset timer clears.
  - Touch (`touch_scroll.dfy`): a recorded start position, a threshold and a throttle. The
    start is cleared after each emission.
  - Scroll controls (`scroll_controls.dfy`): the arrow-key map, and one dispatcher that
    routes every device event to an adapter created with its default settings.
  - Both adapter classes keep a ghost history of accepted times. Their invariant states
    that consecutive accepted events are at least `throttleMs` apart. For a non-negative
    `throttleMs`, `SpacedPairwise` extends this to any two accepted events.
- **Presentation mappings**.
  - Section indicator (`section_indicator.dfy`): the active index, the progress
    percentage, the highlight and click dispatch.
  - Page transition (`page_transition.dfy`): the enter/exit offset tables, and the
    `isAnimating` flag with its 800 ms timer.
- **Project lists** (`list_ops.dfy`, `work_section.dfy`, `portfolio_section.dfy`). Category
  filtering as an order-preserving filter, the three-chip truncation with its "+k" chip,
  the category labels, the image fallback and the dialog selection state.
- **Loading bookkeeping** (`loading_screen.dfy`, `loading_experience.dfy`).
  - A typewriter whose text is always a prefix of "SURVIANT TECHNOLOGIES".
  - Progress that never decreases and is clamped at 100.
  - The status label, the six-segment lighting rule and the step-caption index.
  - Completion, which is scheduled only at 100.

Modelling conventions:

- Timer callbacks are methods whose precondition is that their timer is pending.
- DOM measurements, `window.innerHeight`, `Date.now()` and the `Math.random() * 3` step
  are parameters.
- Pixels and milliseconds are integers; progress is a real number.

Behaviour of the code worth noting:

- `handleSectionChange` in `app/page-alternative.tsx` accepts any id other than the active
  one, including an id outside the registry. `PagedNavigator.RequestSection` does the
  same, so registry membership is kept only when the requested ids are registered
  (`OnRegistry`).
- The paged page completes a change with two fixed timers. Nothing waits for the scroll or
  the animation to finish.
- In `app/page.tsx` neither the scroll listener nor `handleSectionChange` checks whether a
  change is in flight, and neither suppresses the other.
- The ScrollControls keyboard map has no Home/End. Only `app/page.tsx` handles those keys.
- In `app/page.tsx` the scroll listener is attached only by the effect that depends on
  `activeSection` (lines 87-131). That effect first runs while the loading screen is shown
  (lines 157-159), when the scroll container does not exist yet, so it attaches nothing.
  After loading ends, scrolling therefore does not select a section until the first
  explicit section change (key, menu or indicator) re-runs the effect.
  `ContinuousPage.OnScroll` models the listener once it is attached.

## Model

| member | source | states |
|---|---|---|
| `Registry.FindIndex` | components/ui/section-indicator.tsx:13 | the result is -1 exactly when no section has the id; otherwise it is the first position holding the id |
| `Registry.RegistryDistinct` | app/page-alternative.tsx:29-37 | the seven registered ids are pairwise distinct |
| `Registry.FindIndexOfMember` | app/page-alternative.tsx:80 | with distinct ids, looking up the id at position i gives i |
| `Registry.StepIndex` | app/page-alternative.tsx:83-88 | a step moves at most one position and stays inside [0, count) from a valid index; it stays put exactly at the clamped end ("down" at the last position, "up" at the first or at -1) and moves forward exactly for "down" below the last (the same arithmetic as app/page.tsx:137-144) |
| `Registry.Neighbor` | app/page-alternative.tsx:80-92 | a directional step requests a registered section different from the active one, or nothing |
| `Registry.NeighborOfIndex` | app/page-alternative.tsx:83-93 | from position i, "down" targets exactly i+1 and "up" exactly i-1; "down" at the last and "up" at the first request nothing |
| `Registry.NeighborOfUnregistered` | app/page-alternative.tsx:80-88 | for an unregistered active id (index -1), "down" targets the first section and "up" does nothing |
| `Registry.NeighborRoundTrip` | app/page-alternative.tsx:80-92 | a completed "down" followed by a completed "up" returns to the starting section, and vice versa |
| `PagedNavigation.PagedNavigator.constructor` | app/page-alternative.tsx:23-27 | starts idle on "home" with the menu closed and direction "down" |
| `PagedNavigation.PagedNavigator.RequestSection` | app/page-alternative.tsx:60-63 | accepted iff the section differs from the active one and nothing is in flight; a dropped request changes nothing; an accepted one sets busy and schedules the commit, leaving the active section unchanged |
| `PagedNavigation.PagedNavigator.CommitTimerFires` | app/page-alternative.tsx:64-66 | commits the requested section and closes the menu; busy stays set and the unlock timer is scheduled |
| `PagedNavigation.PagedNavigator.UnlockTimerFires` | app/page-alternative.tsx:67-69 | the only step that clears busy; the active section is untouched |
| `PagedNavigation.PagedNavigator.SetMenuOpen` | app/page-alternative.tsx:120-125 | sets only the menu flag |
| `PagedNavigation.PagedNavigator.Scroll` | app/page-alternative.tsx:74-94 | while busy it changes nothing, not even the direction; otherwise it records the direction and requests exactly the neighbour, and that request is accepted; the active section stays in the registry |
| `PagedNavigation.NavigateDownFromHome` | app/page-alternative.tsx:60-94 | "down" from home stays on home until the commit, then ends idle on services |
| `PagedNavigation.DownAtLastSection` | app/page-alternative.tsx:83-93 | "down" on contact requests nothing and leaves the page idle on contact |
| `PagedNavigation.RequestWhileBusy` | app/page-alternative.tsx:61 | a second request during a change is dropped and the first one is committed |
| `ContinuousNavigation.VisibleHeight` | app/page.tsx:100-107 | visible height is at least 0, at most the viewport height and at most the section height |
| `ContinuousNavigation.RowsCount` | app/page.tsx:105-107 | the interval [lo, hi) holds max(0, hi - lo) pixel rows |
| `ContinuousNavigation.VisibleHeightIsOverlap` | app/page.tsx:100-107 | visible height equals the number of pixel rows shared by the section and the viewport |
| `ContinuousNavigation.Visibility` | app/page.tsx:97-107 | a section without an element counts as 0 visible; no visibility is negative |
| `ContinuousNavigation.SelectionUnique` | app/page.tsx:109-113 | the first-maximum rule determines at most one section |
| `ContinuousNavigation.MostVisible` | app/page.tsx:91-114 | returns the first section of maximal positive visibility in ref insertion order, or "home" when every section has 0 |
| `ContinuousNavigation.Lookup` | app/page.tsx:72 | a registered id yields exactly the element stored under it (None when unmounted); an id with no ref yields nothing |
| `ContinuousNavigation.ScrollTargetFor` | app/page.tsx:72-80 | a scroll is scheduled iff both the element and the container exist, and its offset is offsetTop - 96 |
| `ContinuousNavigation.KeyTarget` | app/page.tsx:135-150 | Home always targets "home" and End always "contact"; any target is registered; other keys target nothing |
| `ContinuousNavigation.ArrowKeysStep` | app/page.tsx:136-145 | ArrowDown/ArrowRight move one section forward and ArrowUp/ArrowLeft one back, with no move at the respective end |
| `ContinuousNavigation.ContinuousPage.constructor` | app/page.tsx:20-21 | starts on "home" with the menu closed |
| `ContinuousNavigation.ContinuousPage.RequestSection` | app/page.tsx:65-84 | always assigns the requested id and closes the menu, with no guard; returns the scheduled scroll |
| `ContinuousNavigation.ContinuousPage.OnScroll` | app/page.tsx:88-118 | with a container, the active section becomes the selected most visible section; reports a write only when it differs; without a container nothing happens |
| `ContinuousNavigation.ContinuousPage.KeyDown` | app/page.tsx:135-150 | a key with a target changes the section to it as a section change does; other keys change nothing |
| `ContinuousNavigation.ContinuousPage.SetMenuOpen` | app/page.tsx:180-185 | sets only the menu flag |
| `WheelScroll.SpacedPairwise` | hooks/use-wheel-scroll.ts:23-29 | consecutive spacing of at least a non-negative gap gives spacing between any two accepted events |
| `Common.DirectionOfDelta` | hooks/use-wheel-scroll.ts:33 | "down" iff the delta is positive; the touch adapter applies the same rule to start - current (hooks/use-touch-scroll.ts:48) |
| `WheelScroll.WheelAdapter.constructor` | hooks/use-wheel-scroll.ts:11-14 | no accepted event, last time 0, not scrolling |
| `WheelScroll.WheelAdapter.Wheel` | hooks/use-wheel-scroll.ts:17-48 | an event within throttleMs of the last accepted one, or while scrolling, is dropped with state unchanged; otherwise exactly one intent with the delta's sign, and `now` becomes the last time; accepted events stay throttleMs apart |
| `WheelScroll.WheelAdapter.ResetTimerFires` | hooks/use-wheel-scroll.ts:44-47 | clears only the scrolling flag |
| `WheelScroll.TwoQuickWheelEvents` | hooks/use-wheel-scroll.ts:23-27 | two events 100 ms apart yield one intent |
| `TouchScroll.Abs` | hooks/use-touch-scroll.ts:38 | the magnitude of a swipe delta |
| `TouchScroll.TouchAdapter.constructor` | hooks/use-touch-scroll.ts:12-21 | no start recorded, last time 0, not scrolling |
| `TouchScroll.TouchAdapter.TouchStart` | hooks/use-touch-scroll.ts:24-27 | records the start position unconditionally, even while scrolling |
| `TouchScroll.TouchAdapter.TouchMove` | hooks/use-touch-scroll.ts:29-66 | emits iff a start is recorded, it is not scrolling, the swipe reaches the threshold and the throttle window has passed; a non-emitting move changes nothing and keeps the start; an emission clears the start |
| `TouchScroll.TouchAdapter.ResetTimerFires` | hooks/use-touch-scroll.ts:62-65 | clears only the scrolling flag |
| `TouchScroll.ShortSwipe` | hooks/use-touch-scroll.ts:38 | a 5 px move under the 20 px threshold emits nothing and keeps the start |
| `TouchScroll.OneIntentPerGesture` | hooks/use-touch-scroll.ts:30-59 | after an emission the same gesture emits nothing until a new touchstart |
| `ScrollControls.KeyIntent` | components/ui/scroll-controls.tsx:29-37 | ArrowDown/ArrowRight give exactly "down", ArrowUp/ArrowLeft exactly "up", every other key (Home and End included) nothing |
| `ScrollControls.Controls.constructor` | components/ui/scroll-controls.tsx:15-25 | both adapters are created with their defaults: 500 ms wheel throttle, 20 px touch threshold and 500 ms touch throttle |
| `ScrollControls.Controls.Dispatch` | components/ui/scroll-controls.tsx:15-37 | all adapters feed one intent stream; key presses are never throttled and touch no adapter state; each device or timer event updates only its own adapter, exactly as that adapter's method does (intent, last time, busy flag, timer, touch start) |
| `ScrollControls.KeysAreNotThrottled` | components/ui/scroll-controls.tsx:15-37 | arrow presses emit right after a wheel intent, while a second wheel event 100 ms later is still dropped |
| `SectionIndicator.ProgressPercent` | components/ui/section-indicator.tsx:47 | the denominator is never 0: with at most two sections the value is index*100, otherwise value*(n-1) = index*100 |
| `SectionIndicator.ProgressSpan` | components/ui/section-indicator.tsx:47 | with n >= 2: 0% at the first section, 100% at the last, strictly increasing in between |
| `SectionIndicator.ProgressOfActive` | components/ui/section-indicator.tsx:13-47 | a registered active section gives a progress within [0, 100] |
| `SectionIndicator.Highlights` | components/ui/section-indicator.tsx:19-29 | the dot at i is highlighted iff its id equals the active section |
| `SectionIndicator.HighlightAtActiveIndex` | components/ui/section-indicator.tsx:13-29 | with distinct ids, exactly the dot at `activeSectionIndex` is highlighted |
| `SectionIndicator.ClickTarget` | components/ui/section-indicator.tsx:18 | clicking dot i requests the id whose index is i, and that dot becomes the highlighted one |
| `PageTransition.InitialTransform` | components/ui/page-transition.tsx:28-41 | opacity 0 and a 50 px offset; the y axis for up/down, the x axis for left/right; positive for up and left |
| `PageTransition.ExitTransform` | components/ui/page-transition.tsx:43-56 | opacity 0, the same axis as the initial offset and its negation |
| `PageTransition.OppositeDirectionsMirror` | components/ui/page-transition.tsx:28-56 | "up" enters where "down" exits and vice versa, and likewise for left/right |
| `PageTransition.Presenter.constructor` | components/ui/page-transition.tsx:15-25 | on mount the effect raises `isAnimating` and starts the timer iff `isChanging` |
| `PageTransition.Presenter.SetIsChanging` | components/ui/page-transition.tsx:17-25 | an unchanged prop does nothing; a change cancels the pending timer; true raises the flag and restarts the timer; false leaves the flag as it is |
| `PageTransition.Presenter.ResetTimerFires` | components/ui/page-transition.tsx:20-22 | clears `isAnimating` |
| `PageTransition.ShortChangeLeavesFlagRaised` | components/ui/page-transition.tsx:17-25 | a change that ends before 800 ms cancels the timer and leaves `isAnimating` true |
| `ListOps.Filter` | components/sections/work-section.tsx:135 | the result holds exactly the elements of the input that pass the test, no more of them; nothing passing gives an empty list |
| `ListOps.FilterIsSubsequence` | components/sections/work-section.tsx:135 | filtering keeps the original order: the result is a subsequence of the input |
| `ListOps.FilterPartition` | components/portfolio-section.tsx:121-149 | two complementary filters split a list: their lengths add up to its length |
| `WorkSection.FilteredProjects` | components/sections/work-section.tsx:134-135 | "all" gives the list unchanged; another category gives exactly its projects, in order; an unmatched category gives an empty list |
| `WorkSection.AllIsSubsequence` | components/sections/work-section.tsx:134-135 | the unfiltered list is trivially in order |
| `WorkSection.ShownChips` | components/sections/work-section.tsx:257-261 | exactly min(3, n) chips, the first ones in order: three when there are more, all of them otherwise |
| `WorkSection.ExtraChip` | components/sections/work-section.tsx:262-266 | the "+k" chip appears iff there are more than three technologies, with k = n - 3, so shown chips plus k is the total |
| `WorkSection.CategoryLabel` | components/sections/work-section.tsx:223 | "WEB APPLICATION" iff the category is "web", otherwise "MOBILE APP" |
| `WorkSection.WorkSectionState.constructor` | components/sections/work-section.tsx:23-24 | nothing selected, "all" tab, every project visible |
| `WorkSection.WorkSectionState.SetCategory` | components/sections/work-section.tsx:192-200 | switches the tab; the visible projects are exactly those of the category |
| `WorkSection.WorkSectionState.SelectProject` | components/sections/work-section.tsx:215 | a card click opens the dialog on that project |
| `WorkSection.WorkSectionState.DialogOpenChange` | components/sections/work-section.tsx:292 | closing clears the selection, so the dialog is open iff a project is selected |
| `PortfolioSection.TabProjects` | components/portfolio-section.tsx:108-149 | the "all" tab lists every project in order; the web and mobile tabs list exactly their category's projects, in order |
| `PortfolioSection.CategoryTabsPartition` | components/portfolio-section.tsx:123-139 | every listed project is on exactly one of the web and mobile tabs, whose sizes add up to the total |
| `PortfolioSection.CategoryLabel` | components/portfolio-section.tsx:160 | "Web Application" iff the category is "web", otherwise "Mobile App" |
| `PortfolioSection.ImageSource` | components/portfolio-section.tsx:167 | a non-empty image is used as is; the empty string falls back to "/placeholder.svg" |
| `PortfolioSection.PortfolioState.constructor` | components/portfolio-section.tsx:11 | nothing selected, dialog closed |
| `PortfolioSection.PortfolioState.SelectProject` | components/portfolio-section.tsx:115 | a card click opens the dialog on that project |
| `PortfolioSection.PortfolioState.DialogOpenChange` | components/portfolio-section.tsx:153 | closing clears the selection |
| `LoadingScreen.NextProgress` | components/loading-screen.tsx:28-31 | with a step in [0, 3), progress never decreases and never exceeds 100; it is 100 exactly when the sum reaches 100 |
| `LoadingScreen.ProgressStaysFull` | components/loading-screen.tsx:30 | once at 100, progress stays 100 |
| `LoadingScreen.StatusLabel` | components/loading-screen.tsx:68 | "Initializing..." below 33, "Loading assets..." below 66, otherwise "Preparing experience..." |
| `LoadingScreen.SegmentLit` | components/loading-screen.tsx:78 | segment i is lit exactly when progress has passed (i + 1) sixths of 100, so only a positive progress lights anything (the same rule as components/loading-experience.tsx:127) |
| `LoadingScreen.LitSegmentsFormPrefix` | components/loading-experience.tsx:120-130 | lit segments form a prefix, and the sixth is never lit while progress is at most 100 |
| `LoadingScreen.LoadingScreenState.constructor` | components/loading-screen.tsx:7-8 | empty text, progress 0, typewriter running |
| `LoadingScreen.LoadingScreenState.TypeTick` | components/loading-screen.tsx:13-20 | the text grows to the next prefix of "SURVIANT TECHNOLOGIES"; the interval stops exactly when the full text is shown |
| `LoadingScreen.LoadingScreenState.ProgressTick` | components/loading-screen.tsx:27-32 | progress takes the clamped step and never decreases |
| `LoadingExperience.StepIndex` | components/loading-experience.tsx:65 | for non-negative progress the index lies in [0, 5]; it is 5 once progress reaches 500/6 |
| `LoadingExperience.StepIndexMonotone` | components/loading-experience.tsx:63-67 | the step index never goes back as progress rises |
| `LoadingExperience.LoadingExperienceState.constructor` | components/loading-experience.tsx:13-15 | empty text, progress 0, step 0, nothing scheduled |
| `LoadingExperience.LoadingExperienceState.Caption` | components/loading-experience.tsx:116 | the caption shown is always an entry of the step list |
| `LoadingExperience.LoadingExperienceState.TypeTick` | components/loading-experience.tsx:26-34 | the text grows to the next prefix and the interval stops exactly after the full text |
| `LoadingExperience.LoadingExperienceState.ProgressTick` | components/loading-experience.tsx:42-77 | progress takes the clamped step; the step index follows it and never decreases; completion is scheduled only at 100 |
| `LoadingExperience.LoadingExperienceState.CompletionFires` | components/loading-experience.tsx:72-74 | `onComplete` runs only with progress at 100 |

## Left out

- React rendering is not modelled: state updates are taken to be visible before the next
  event, and stale handler closures are not modelled.
- Cleanup on unmount is not modelled.
- The 50 ms delay before a smooth `scrollTo` is not modelled, and neither is the scroll
  itself. `RequestSection` of the continuous page returns the target offset, taken from
  the `offsetTop` at request time, where the browser reads it when the timer fires.
- JavaScript numbers are floating point. Pixels and milliseconds are integers here, and
  progress is an exact real number, so the float rounding of `100 / 6` is not modelled.
  `Date.now()` and the `Math.random() * 3` step are parameters.
- The `onScroll` callback is taken to be present. The adapters return the intent instead
  of calling it, and the `debug` logging is dropped.
- Browser plumbing is not modelled: WebGL detection, the 1800/2000 ms `isLoading` timer of
  both pages, `preventDefault`, and listener registration.
- Presentation is not modelled: the page-change overlay's `originY`, framer-motion
  variants, `AnimatePresence` remounting and the `Math.round` percentage display.
- The malformed debug hook at components/ui/scroll-controls.tsx:46 is not modelled.
- `setTheme("dark")` in the loading experience is not modelled.
- Descriptive copy is dropped from the project records: description, challenge,
  solution, results and link.
- The page transition's animate target (offset 0, opacity 1) is not modelled.
- `SectionIndicator.ProgressPercent`: for an unregistered active section the index is -1,
  so the computed height is negative. The model reproduces this and states no bound for
  that case.
