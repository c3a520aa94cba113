/**
 * The continuous-scroll page: all sections stacked in one scroll container. A section change
 * assigns unconditionally and scrolls to the section; scrolling picks the most visible
 * section; the keyboard steps through the registry or jumps to its ends.
 */
module ContinuousNavigation {
  import opened Common
  import opened Registry

  /** Height of the fixed header, subtracted from every section offset. */
  const HeaderHeight := 96
  /** Added to `scrollTop` so the next section is picked a little early. */
  const ScrollLead := 200

  /** A section element's measured `offsetTop` and `offsetHeight`, in pixels. */
  datatype Box = Box(offsetTop: int, offsetHeight: int)

  /** One entry of `sectionRefs.current`: the id and its element, if mounted. */
  datatype SectionRef = SectionRef(id: string, element: Option<Box>)

  /** How many pixels of a section spanning [top, top + height) lie inside [pos, pos + viewport). */
  function VisibleHeight(top: int, height: int, pos: int, viewport: int): (r: int)
    ensures r >= 0
    ensures viewport >= 0 ==> r <= viewport
    ensures height >= 0 ==> r <= height
  {
    Max(0, Min(top + height, pos + viewport) - Max(top, pos))
  }

  /** The pixel rows lo, lo+1, ..., hi-1. */
  ghost function Rows(lo: int, hi: int): (r: set<int>)
    ensures forall y :: y in r <==> lo <= y < hi
    decreases hi - lo
  {
    if hi <= lo then {} else Rows(lo, hi - 1) + {hi - 1}
  }

  lemma {:induction false} RowsCount(lo: int, hi: int)
    ensures |Rows(lo, hi)| == Max(0, hi - lo)
    decreases hi - lo
  {
    if hi > lo {
      RowsCount(lo, hi - 1);
    }
  }

  /** VisibleHeight counts exactly the rows shared by the section and the viewport. */
  lemma VisibleHeightIsOverlap(top: int, height: int, pos: int, viewport: int)
    ensures VisibleHeight(top, height, pos, viewport) == |Rows(top, top + height) * Rows(pos, pos + viewport)|
  {
    assert Rows(top, top + height) * Rows(pos, pos + viewport)
      == Rows(Max(top, pos), Min(top + height, pos + viewport));
    RowsCount(Max(top, pos), Min(top + height, pos + viewport));
  }

  /** A section's visible height at scroll position `pos`; an unmounted section counts as 0. */
  function Visibility(ref: SectionRef, pos: int, viewport: int): (r: int)
    ensures r >= 0
  {
    match ref.element
    case None => 0
    case Some(b) => VisibleHeight(b.offsetTop - HeaderHeight, b.offsetHeight, pos, viewport)
  }

  /** Position k is the first position of maximal, positive visibility. */
  ghost predicate IsFirstMax(layout: seq<SectionRef>, pos: int, viewport: int, k: int)
  {
    && 0 <= k < |layout|
    && Visibility(layout[k], pos, viewport) > 0
    && (forall j :: 0 <= j < |layout| ==> Visibility(layout[j], pos, viewport) <= Visibility(layout[k], pos, viewport))
    && (forall j :: 0 <= j < k ==> Visibility(layout[j], pos, viewport) < Visibility(layout[k], pos, viewport))
  }

  /** `id` is what the scroll handler selects: the first most visible section, or "home" when none shows. */
  ghost predicate Selects(layout: seq<SectionRef>, pos: int, viewport: int, id: string)
  {
    || (exists k :: IsFirstMax(layout, pos, viewport, k) && id == layout[k].id)
    || (id == "home" && forall j :: 0 <= j < |layout| ==> Visibility(layout[j], pos, viewport) == 0)
  }

  /** There is at most one first maximum, so the selection is a function of the layout. */
  lemma SelectionUnique(layout: seq<SectionRef>, pos: int, viewport: int, a: string, b: string)
    requires Selects(layout, pos, viewport, a) && Selects(layout, pos, viewport, b)
    ensures a == b
  {
  }

  /** The body of the scroll listener: a pass over the section refs keeping a strict maximum. */
  method MostVisible(layout: seq<SectionRef>, scrollTop: int, viewport: int) returns (current: string)
    ensures Selects(layout, scrollTop + ScrollLead, viewport, current)
  {
    var pos := scrollTop + ScrollLead;
    current := "home";
    var maxVisibility := 0;
    ghost var best := -1;
    for i := 0 to |layout|
      invariant -1 <= best < i || (best == -1 && i == 0)
      invariant best == -1 ==> current == "home" && maxVisibility == 0
      invariant best == -1 ==> forall j :: 0 <= j < i ==> Visibility(layout[j], pos, viewport) == 0
      invariant best >= 0 ==> current == layout[best].id && maxVisibility == Visibility(layout[best], pos, viewport) > 0
      invariant best >= 0 ==> forall j :: 0 <= j < i ==> Visibility(layout[j], pos, viewport) <= maxVisibility
      invariant best >= 0 ==> forall j :: 0 <= j < best ==> Visibility(layout[j], pos, viewport) < maxVisibility
    {
      var ref := layout[i];
      if ref.element.Some? {
        var b := ref.element.value;
        var visibleHeight := VisibleHeight(b.offsetTop - HeaderHeight, b.offsetHeight, pos, viewport);
        if visibleHeight > maxVisibility {
          maxVisibility := visibleHeight;
          current := ref.id;
          best := i;
        }
      }
    }
    if best >= 0 {
      assert IsFirstMax(layout, pos, viewport, best);
    }
  }

  /** `sectionRefs.current[id]`: the element registered under `id`, if mounted. */
  function Lookup(layout: seq<SectionRef>, id: string): (r: Option<Box>)
    ensures r.Some? ==> exists i :: 0 <= i < |layout| && layout[i].id == id && layout[i].element == r
    ensures (forall i :: 0 <= i < |layout| ==> layout[i].id != id) ==> r == None
    ensures forall i :: 0 <= i < |layout| && layout[i].id == id && (forall j :: 0 <= j < i ==> layout[j].id != id) ==>
      r == layout[i].element
  {
    if layout == [] then None
    else if layout[0].id == id then layout[0].element
    else Lookup(layout[1..], id)
  }

  /** The scroll a section change schedules: only with both the element and the container present. */
  function ScrollTargetFor(layout: seq<SectionRef>, section: string, hasContainer: bool): (r: Option<int>)
    ensures r.Some? <==> hasContainer && Lookup(layout, section).Some?
    ensures r.Some? ==> r.value + HeaderHeight == Lookup(layout, section).value.offsetTop
  {
    var element := Lookup(layout, section);
    if element.Some? && hasContainer then Some(element.value.offsetTop - HeaderHeight) else None
  }

  /** The section a key press asks for: arrows step through the registry, Home and End jump. */
  function KeyTarget(active: string, key: string): (r: Option<string>)
    ensures key == "Home" ==> r == Some("home")
    ensures key == "End" ==> r == Some("contact")
    ensures r.Some? ==> Registered(r.value)
    ensures key !in {"ArrowDown", "ArrowRight", "ArrowUp", "ArrowLeft", "Home", "End"} ==> r == None
  {
    if key == "ArrowDown" || key == "ArrowRight" then Neighbor(active, Down)
    else if key == "ArrowUp" || key == "ArrowLeft" then Neighbor(active, Up)
    else if key == "Home" then (assert Sections[0].id == "home"; Some("home"))
    else if key == "End" then (assert Sections[6].id == "contact"; Some("contact"))
    else None
  }

  /** The arrow keys move exactly one section from a registered one, and do nothing at the ends. */
  lemma ArrowKeysStep(i: int)
    requires 0 <= i < |Sections|
    ensures KeyTarget(Sections[i].id, "ArrowDown") == KeyTarget(Sections[i].id, "ArrowRight")
         == if i < |Sections| - 1 then Some(Sections[i + 1].id) else None
    ensures KeyTarget(Sections[i].id, "ArrowUp") == KeyTarget(Sections[i].id, "ArrowLeft")
         == if i > 0 then Some(Sections[i - 1].id) else None
  {
    NeighborOfIndex(i);
  }

  class ContinuousPage {
    var activeSection: string
    var isMenuOpen: bool

    constructor ()
      ensures activeSection == "home" && !isMenuOpen
    {
      activeSection := "home";
      isMenuOpen := false;
    }

    /** `handleSectionChange`: no guard at all; assigns, closes the menu and schedules the scroll 50 ms later. */
    method RequestSection(section: string, layout: seq<SectionRef>, hasContainer: bool) returns (scrollTo: Option<int>)
      modifies this
      ensures activeSection == section && !isMenuOpen
      ensures scrollTo == ScrollTargetFor(layout, section, hasContainer)
    {
      activeSection := section;
      var element := Lookup(layout, section);
      if element.Some? && hasContainer {
        scrollTo := Some(element.value.offsetTop - HeaderHeight);
      } else {
        scrollTo := None;
      }
      isMenuOpen := false;
    }

    /** The passive scroll listener: selects the most visible section, writing only on a difference. */
    method OnScroll(scrollTop: Option<int>, layout: seq<SectionRef>, viewport: int) returns (changed: bool)
      modifies this
      ensures isMenuOpen == old(isMenuOpen)
      ensures scrollTop.None? ==> !changed && activeSection == old(activeSection)
      ensures scrollTop.Some? ==> Selects(layout, scrollTop.value + ScrollLead, viewport, activeSection)
      ensures changed <==> activeSection != old(activeSection)
    {
      changed := false;
      if scrollTop.None? {
        return;
      }
      var currentSection := MostVisible(layout, scrollTop.value, viewport);
      if currentSection != activeSection {
        activeSection := currentSection;
        changed := true;
      }
    }

    /** `handleKeyDown` of the page. */
    method KeyDown(key: string, layout: seq<SectionRef>, hasContainer: bool) returns (scrollTo: Option<int>)
      modifies this
      ensures KeyTarget(old(activeSection), key).None? ==>
        scrollTo == None && activeSection == old(activeSection) && isMenuOpen == old(isMenuOpen)
      ensures KeyTarget(old(activeSection), key).Some? ==>
        && activeSection == KeyTarget(old(activeSection), key).value && !isMenuOpen
        && scrollTo == ScrollTargetFor(layout, activeSection, hasContainer)
    {
      var target := KeyTarget(activeSection, key);
      if target.Some? {
        scrollTo := RequestSection(target.value, layout, hasContainer);
      } else {
        scrollTo := None;
      }
    }

    method SetMenuOpen(open: bool)
      modifies this
      ensures isMenuOpen == open && activeSection == old(activeSection)
    {
      isMenuOpen := open;
    }
  }
}
