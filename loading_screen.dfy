/**
 * The loading screen: a typewriter that reveals the brand name one character per tick, and a
 * progress value that grows by a random step per tick, clamped at 100.
 */
module LoadingScreen {
  import opened Common

  const FullText := "SURVIANT TECHNOLOGIES"
  const SegmentCount := 6

  /** One progress tick: add the random step, clamping at 100. */
  function NextProgress(prev: real, increment: real): (r: real)
    requires 0.0 <= increment < 3.0
    ensures prev <= 100.0 ==> prev <= r <= 100.0
    ensures r == 100.0 <==> prev + increment >= 100.0
    ensures r < 100.0 ==> r == prev + increment
  {
    var next := prev + increment;
    if next >= 100.0 then 100.0 else next
  }

  /** Once progress has reached 100 it stays there. */
  lemma ProgressStaysFull(increment: real)
    requires 0.0 <= increment < 3.0
    ensures NextProgress(100.0, increment) == 100.0
  {
  }

  /** The status line under the bar. */
  function StatusLabel(progress: real): (r: string)
    ensures r == "Initializing..." <==> progress < 33.0
    ensures r == "Loading assets..." <==> 33.0 <= progress < 66.0
    ensures r == "Preparing experience..." <==> progress >= 66.0
  {
    if progress < 33.0 then "Initializing..."
    else if progress < 66.0 then "Loading assets..."
    else "Preparing experience..."
  }

  /** Segment i (0-based) of six is lit when progress exceeds (i + 1) sixths of 100. */
  function SegmentLit(progress: real, i: nat): (lit: bool)
    ensures lit <==> progress * SegmentCount as real > (i + 1) as real * 100.0
    ensures lit ==> progress > 0.0
  {
    progress > (i + 1) as real * (100.0 / SegmentCount as real)
  }

  /** The lit segments form a prefix, and the sixth is never lit while progress is at most 100. */
  lemma LitSegmentsFormPrefix(progress: real, i: nat, j: nat)
    requires i <= j && SegmentLit(progress, j)
    ensures SegmentLit(progress, i)
    ensures progress <= 100.0 ==> j < SegmentCount - 1
  {
  }

  /** The typewriter and progress state of the loading screen. */
  class LoadingScreenState {
    var text: string
    /** The interval closure's `index`: the next prefix length to display. */
    var typedIndex: nat
    /** The typewriter interval is still registered. */
    var typing: bool
    var progress: real

    ghost predicate Valid()
      reads this
    {
      && typedIndex <= |FullText| + 1
      && (typing <==> typedIndex <= |FullText|)
      && text == FullText[..Max(0, typedIndex - 1)]
      && 0.0 <= progress <= 100.0
    }

    constructor ()
      ensures Valid() && text == "" && typedIndex == 0 && typing && progress == 0.0
    {
      text := "";
      typedIndex := 0;
      typing := true;
      progress := 0.0;
    }

    /** One typewriter tick (every 100 ms): show the next prefix; stop right after the whole text is shown. */
    method TypeTick()
      requires Valid() && typing
      modifies this
      ensures Valid()
      ensures text == FullText[..old(typedIndex)] && typedIndex == old(typedIndex) + 1
      ensures !typing <==> text == FullText
      ensures progress == old(progress)
    {
      text := FullText[..typedIndex];
      typedIndex := typedIndex + 1;
      if typedIndex > |FullText| {
        typing := false;
      }
    }

    /** One progress tick (every 50 ms) with the random step `increment` in [0, 3). */
    method ProgressTick(increment: real)
      requires Valid() && 0.0 <= increment < 3.0
      modifies this
      ensures Valid()
      ensures progress == NextProgress(old(progress), increment) && old(progress) <= progress
      ensures text == old(text) && typedIndex == old(typedIndex) && typing == old(typing)
    {
      progress := NextProgress(progress, increment);
    }
  }
}
