/**
 * The ordered section registry shared by both page variants and the section indicator:
 * seven sections, looked up by id with `findIndex`, and the one-step neighbour rule that
 * directional input and the arrow keys use.
 */
module Registry {
  import opened Common

  datatype Section = Section(id: string, caption: string)

  /** The `sections` array, in display order. */
  const Sections: seq<Section> := [
    Section("home", "HOME"),
    Section("services", "SERVICES"),
    Section("work", "WORK"),
    Section("clients", "CLIENTS"),
    Section("technologies", "TECHNOLOGIES"),
    Section("about", "ABOUT"),
    Section("contact", "CONTACT")
  ]

  ghost predicate DistinctIds(sections: seq<Section>) {
    forall i, j :: 0 <= i < j < |sections| ==> sections[i].id != sections[j].id
  }

  /** `id` names one of the registered sections. */
  ghost predicate Registered(id: string) {
    exists i :: 0 <= i < |Sections| && Sections[i].id == id
  }

  /** `sections.findIndex(s => s.id === id)`: the first position holding `id`, or -1. */
  function FindIndex(sections: seq<Section>, id: string): (r: int)
    ensures -1 <= r < |sections|
    ensures r >= 0 ==> sections[r].id == id && forall j :: 0 <= j < r ==> sections[j].id != id
    ensures r == -1 <==> forall j :: 0 <= j < |sections| ==> sections[j].id != id
  {
    if |sections| == 0 then -1
    else if sections[0].id == id then 0
    else
      var k := FindIndex(sections[1..], id);
      if k == -1 then -1 else k + 1
  }

  lemma RegistryDistinct()
    ensures DistinctIds(Sections)
  {
  }

  /** With distinct ids, looking up the id stored at position i gives back i. */
  lemma FindIndexOfMember(sections: seq<Section>, i: int)
    requires DistinctIds(sections) && 0 <= i < |sections|
    ensures FindIndex(sections, sections[i].id) == i
  {
  }

  /** The index arithmetic of a directional step: one position, clamped at both ends. */
  function StepIndex(current: int, count: int, d: Direction): (r: int)
    ensures current - 1 <= r <= current + 1
    ensures 0 <= current < count ==> 0 <= r < count
    ensures r == current <==> (d == Down && current >= count - 1) || (d == Up && current <= 0)
    ensures r > current <==> d == Down && current < count - 1
  {
    if d == Down && current < count - 1 then current + 1
    else if d == Up && current > 0 then current - 1
    else
      assert d.Up? || d.Down?;
      current
  }

  /**
   * The section a directional step from `active` requests, or None when the step is
   * clamped. An unregistered `active` has index -1, so "down" requests the first section.
   */
  function Neighbor(active: string, d: Direction): (r: Option<string>)
    ensures r.Some? ==> Registered(r.value) && r.value != active
  {
    var i := FindIndex(Sections, active);
    var j := StepIndex(i, |Sections|, d);
    if j != i then
      RegistryDistinct();
      Some(Sections[j].id)
    else None
  }

  /** From the section at position i, "down" names position i+1 and "up" position i-1, or nothing at the ends. */
  lemma NeighborOfIndex(i: int)
    requires 0 <= i < |Sections|
    ensures Neighbor(Sections[i].id, Down) == if i < |Sections| - 1 then Some(Sections[i + 1].id) else None
    ensures Neighbor(Sections[i].id, Up) == if i > 0 then Some(Sections[i - 1].id) else None
  {
    RegistryDistinct();
    FindIndexOfMember(Sections, i);
  }

  /** An unregistered active id: "down" goes to the first section, "up" does nothing. */
  lemma NeighborOfUnregistered(active: string)
    requires !Registered(active)
    ensures Neighbor(active, Down) == Some(Sections[0].id)
    ensures Neighbor(active, Up) == None
  {
    assert FindIndex(Sections, active) == -1;
  }

  /** A completed "down" followed by a completed "up" returns to where it started. */
  lemma NeighborRoundTrip(active: string)
    requires Registered(active)
    ensures Neighbor(active, Down).Some? ==> Neighbor(Neighbor(active, Down).value, Up) == Some(active)
    ensures Neighbor(active, Up).Some? ==> Neighbor(Neighbor(active, Up).value, Down) == Some(active)
  {
    var i :| 0 <= i < |Sections| && Sections[i].id == active;
    NeighborOfIndex(i);
    if i < |Sections| - 1 { NeighborOfIndex(i + 1); }
    if i > 0 { NeighborOfIndex(i - 1); }
  }
}
