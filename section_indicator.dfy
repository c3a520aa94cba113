/** The section indicator: one dot per section, the active one highlighted, and a progress bar. */
module SectionIndicator {
  import opened Common
  import opened Registry

  /** The progress bar height in percent: `index / max(1, count - 1) * 100`. */
  function ProgressPercent(index: int, count: nat): (r: real)
    ensures count <= 2 ==> r == index as real * 100.0
    ensures count >= 2 ==> r * (count - 1) as real == index as real * 100.0
  {
    (index as real) / (Max(1, count - 1) as real) * 100.0
  }

  /** Scaling by a positive factor keeps the order. */
  lemma ScaleMono(x: real, y: real, d: real)
    requires d > 0.0 && x <= y
    ensures x * d <= y * d
  {
  }

  /** Values whose products with a positive factor are ordered are ordered the same way. */
  lemma Unscale(x: real, y: real, d: real)
    requires d > 0.0
    ensures x * d < y * d ==> x < y
    ensures x * d == y * d ==> x == y
  {
    if y <= x {
      ScaleMono(y, x, d);
    }
    if x <= y {
      ScaleMono(x, y, d);
    }
  }

  /** The arithmetic of ProgressSpan, over the products that ProgressPercent guarantees. */
  lemma SpanFromProducts(d: real, i: real, j: real, r0: real, ri: real, rj: real, rl: real)
    requires d > 0.0 && 0.0 <= i < j <= d
    requires r0 * d == 0.0 && ri * d == i * 100.0 && rj * d == j * 100.0 && rl * d == d * 100.0
    ensures r0 == 0.0 && rl == 100.0
    ensures 0.0 <= ri < rj <= 100.0
  {
    Unscale(r0, 0.0, d);
    Unscale(rl, 100.0, d);
    Unscale(0.0, ri, d);
    Unscale(ri, rj, d);
    Unscale(rj, 100.0, d);
  }

  /** For n >= 2 sections: 0% at the first, 100% at the last, strictly increasing in between. */
  lemma ProgressSpan(count: nat, i: int, j: int)
    requires count >= 2 && 0 <= i < j < count
    ensures ProgressPercent(0, count) == 0.0
    ensures ProgressPercent(count - 1, count) == 100.0
    ensures 0.0 <= ProgressPercent(i, count) < ProgressPercent(j, count) <= 100.0
  {
    SpanFromProducts((count - 1) as real, i as real, j as real, ProgressPercent(0, count),
      ProgressPercent(i, count), ProgressPercent(j, count), ProgressPercent(count - 1, count));
  }

  /** The progress of a registered active section lies in [0, 100]. */
  lemma ProgressOfActive(sections: seq<Section>, active: string)
    requires FindIndex(sections, active) >= 0
    ensures 0.0 <= ProgressPercent(FindIndex(sections, active), |sections|) <= 100.0
  {
    var i := FindIndex(sections, active);
    if |sections| >= 2 && i < |sections| - 1 {
      ProgressSpan(|sections|, i, |sections| - 1);
    } else if |sections| >= 2 {
      ProgressSpan(|sections|, 0, i);
    }
  }

  /** Which dots carry the highlight: those whose id equals the active section. */
  function Highlights(sections: seq<Section>, active: string): (r: seq<bool>)
    ensures |r| == |sections|
    ensures forall i :: 0 <= i < |sections| ==> (r[i] <==> sections[i].id == active)
  {
    seq(|sections|, i requires 0 <= i < |sections| => sections[i].id == active)
  }

  /** With distinct ids the highlighted dot is the one at `activeSectionIndex`, and only that one. */
  lemma {:induction false} HighlightAtActiveIndex(sections: seq<Section>, active: string)
    requires DistinctIds(sections)
    ensures forall i :: 0 <= i < |sections| ==> (Highlights(sections, active)[i] <==> i == FindIndex(sections, active))
  {
    forall i | 0 <= i < |sections|
      ensures Highlights(sections, active)[i] <==> i == FindIndex(sections, active)
    {
      if sections[i].id == active {
        FindIndexOfMember(sections, i);
      }
    }
  }

  /** Clicking dot i requests `sections[i].id`, whose index is i and whose dot becomes highlighted. */
  function ClickTarget(sections: seq<Section>, i: int): (r: string)
    requires DistinctIds(sections) && 0 <= i < |sections|
    ensures FindIndex(sections, r) == i
    ensures Highlights(sections, r)[i]
  {
    FindIndexOfMember(sections, i);
    sections[i].id
  }
}
