/**
 * The loading experience: the loading screen's typewriter and progress, plus a step caption
 * chosen from the progress and a completion callback scheduled once progress reaches 100.
 */
module LoadingExperience {
  import opened Common
  import opened LoadingScreen

  const LoadingSteps: seq<string> := [
    "Initializing 3D environment...",
    "Loading assets...",
    "Preparing shaders...",
    "Configuring physics...",
    "Optimizing performance...",
    "Finalizing setup..."
  ]

  /** `min(floor(progress / (100 / 6)), 5)`: the caption index for a progress value. */
  function StepIndex(progress: real): (r: int)
    ensures progress >= 0.0 ==> 0 <= r < |LoadingSteps|
    ensures progress >= 500.0 / 6.0 ==> r == |LoadingSteps| - 1
    ensures r <= |LoadingSteps| - 1
  {
    Min((progress / (100.0 / |LoadingSteps| as real)).Floor, |LoadingSteps| - 1)
  }

  /** The caption index never goes back as progress rises. */
  lemma StepIndexMonotone(p: real, q: real)
    requires p <= q
    ensures StepIndex(p) <= StepIndex(q)
  {
    assert p / (100.0 / 6.0) <= q / (100.0 / 6.0);
  }

  class LoadingExperienceState {
    var text: string
    var typedIndex: nat
    var typing: bool
    var progress: real
    var currentStep: int
    /** The 500 ms completion timeout is scheduled. */
    var completionPending: bool
    /** `onComplete` has been called. */
    var completed: bool

    ghost predicate Valid()
      reads this
    {
      && typedIndex <= |FullText| + 1
      && (typing <==> typedIndex <= |FullText|)
      && text == FullText[..Max(0, typedIndex - 1)]
      && 0.0 <= progress <= 100.0
      && currentStep == StepIndex(progress) && 0 <= currentStep < |LoadingSteps|
      && (completionPending || completed ==> progress >= 100.0)
    }

    constructor ()
      ensures Valid() && text == "" && typing && progress == 0.0 && currentStep == 0
      ensures !completionPending && !completed
    {
      text := "";
      typedIndex := 0;
      typing := true;
      progress := 0.0;
      currentStep := 0;
      completionPending := false;
      completed := false;
    }

    /** The caption on display; always an entry of the step list. */
    function Caption(): (r: string)
      requires Valid()
      reads this
      ensures r in LoadingSteps
    {
      LoadingSteps[currentStep]
    }

    /** One typewriter tick, as on the loading screen. */
    method TypeTick()
      requires Valid() && typing
      modifies this
      ensures Valid()
      ensures text == FullText[..old(typedIndex)] && typedIndex == old(typedIndex) + 1
      ensures !typing <==> text == FullText
      ensures progress == old(progress) && currentStep == old(currentStep)
      ensures completionPending == old(completionPending) && completed == old(completed)
    {
      text := FullText[..typedIndex];
      typedIndex := typedIndex + 1;
      if typedIndex > |FullText| {
        typing := false;
      }
    }

    /**
     * One progress tick. A changed value re-runs the two effects on `progress`: the step is
     * recomputed, and the completion timeout is cancelled and rescheduled only at 100.
     */
    method ProgressTick(increment: real)
      requires Valid() && 0.0 <= increment < 3.0
      modifies this
      ensures Valid()
      ensures progress == NextProgress(old(progress), increment) && old(progress) <= progress
      ensures old(currentStep) <= currentStep
      ensures progress != old(progress) ==> completionPending == (progress >= 100.0)
      ensures progress == old(progress) ==> completionPending == old(completionPending)
      ensures completed == old(completed) && text == old(text) && typing == old(typing)
      ensures typedIndex == old(typedIndex)
    {
      var next := NextProgress(progress, increment);
      StepIndexMonotone(progress, next);
      if next != progress {
        progress := next;
        currentStep := StepIndex(progress);
        completionPending := progress >= 100.0;
      }
    }

    /** The completion timeout: calls `onComplete`. */
    method CompletionFires()
      requires Valid() && completionPending
      modifies this
      ensures Valid() && completed && !completionPending && progress == 100.0
      ensures text == old(text) && currentStep == old(currentStep)
      ensures typedIndex == old(typedIndex) && typing == old(typing)
    {
      completed := true;
      completionPending := false;
    }
  }
}
