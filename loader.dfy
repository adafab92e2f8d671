/**
 * The loading screen shown before the portfolio (frontend/src/App.js and
 * App.tsx): an interval advances the loading step every 800 ms, a render
 * effect marks the progress segments and shows the step's text, and once
 * loading ends the loader is hidden and the page container marked loaded.
 *
 * The two files differ only in the interval's updater. App.js stops at the
 * last step; App.tsx returns `prev + 1` unconditionally, so its step ends
 * one past the last index. `capped` selects the App.js behaviour.
 */
module Loader {
  import opened Wrappers

  const JsLoadingSteps: seq<string> := [
    "Initializing Interface...",
    "Compiling Work Experience...",
    "Analyzing Skills & Expertise...",
    "Building Ventures & Education...",
    "Finalizing..."
  ]

  const TsxLoadingSteps: seq<string> := [
    "Booting up...",
    "Compiling Work Experience...",
    "Analyzing Skills & Expertise...",
    "Loading Ventures & Education...",
    "Finalizing Interface..."
  ]

  function Min(a: nat, b: nat): nat {
    if a < b then a else b
  }

  // ---------------------------------------------------------------------
  // The step counter
  // ---------------------------------------------------------------------

  /**
   * The loading step after one tick of a running interval, given the
   * number of steps `len`. App.js keeps the step once the next one would be
   * out of range; App.tsx always advances, and its interval only runs while
   * the step is in range.
   */
  function TickStep(capped: bool, len: nat, step: nat): (next: nat)
    ensures capped ==> next == if step + 1 < len then step + 1 else step
    ensures !capped ==> next == if step < len then step + 1 else step
  {
    if capped then (if step + 1 >= len then step else step + 1)
    else (if step < len then step + 1 else step)
  }

  /** The loading step after `k` ticks from the initial step 0. */
  function StepAfter(capped: bool, len: nat, k: nat): nat
    decreases k
  {
    if k == 0 then 0 else TickStep(capped, len, StepAfter(capped, len, k - 1))
  }

  /**
   * After `k` ticks App.js shows step `min(k, len - 1)`: never past the last
   * step. App.tsx reaches `min(k, len)`: one past the last index once every
   * step has been shown.
   */
  lemma {:induction false} StepAfterTicks(capped: bool, len: nat, k: nat)
    requires len >= 1
    ensures capped ==> StepAfter(capped, len, k) == Min(k, len - 1)
    ensures !capped ==> StepAfter(capped, len, k) == Min(k, len)
    decreases k
  {
    if k > 0 {
      StepAfterTicks(capped, len, k - 1);
    }
  }

  /** The step never decreases from one tick to the next. */
  lemma StepNeverDecreases(capped: bool, len: nat, k: nat)
    ensures StepAfter(capped, len, k) <= StepAfter(capped, len, k + 1)
  {
  }

  // ---------------------------------------------------------------------
  // The page
  // ---------------------------------------------------------------------

  class LoadingScreen {
    /** App.js (true) or App.tsx (false). */
    const capped: bool
    /** `loadingSteps`. */
    const steps: seq<string>
    /** The `.progress-segment` elements: whether each has the class `visible`. */
    const segments: array<bool>
    /** Whether the page has the `loader`, `app-container` and `loading-text` elements. */
    const hasLoader: bool
    const hasContainer: bool
    const hasTextElement: bool

    var loading: bool
    var loadingStep: nat
    /** The 800 ms interval is still running. */
    var intervalActive: bool
    /** The 500 ms timeout that ends loading has been scheduled and has not fired. */
    var hidePending: bool
    /** The text of `loading-text`; `None` until the page sets it. */
    var loadingText: Option<string>
    /** The loader is faded out and hidden. */
    var loaderHidden: bool
    /** The container carries the class `loaded`. */
    var containerLoaded: bool

    /**
     * The step stays in range: at most the last index for App.js, at most
     * one past it for App.tsx. The interval runs while loading and until
     * the last tick; once it stops, loading ends when the timeout fires.
     */
    predicate Valid()
      reads this
    {
      && steps == (if capped then JsLoadingSteps else TsxLoadingSteps)
      && (capped ==> loadingStep < |steps| && (!intervalActive ==> loadingStep == |steps| - 1))
      && (!capped ==> loadingStep <= |steps| && (intervalActive <==> loadingStep < |steps|))
      && (intervalActive ==> loading && !hidePending)
      && (!intervalActive ==> hidePending || !loading)
      && (hidePending ==> loading)
    }

    /** The first render: loading, at step 0, with the interval started. */
    constructor(capped: bool, segments: array<bool>, hasLoader: bool, hasContainer: bool, hasTextElement: bool)
      ensures Valid()
      ensures this.capped == capped && this.segments == segments
      ensures this.hasLoader == hasLoader && this.hasContainer == hasContainer && this.hasTextElement == hasTextElement
      ensures loading && loadingStep == 0 && intervalActive && !hidePending
      ensures loadingText.None? && !loaderHidden && !containerLoaded
    {
      this.capped := capped;
      steps := if capped then JsLoadingSteps else TsxLoadingSteps;
      this.segments := segments;
      this.hasLoader := hasLoader;
      this.hasContainer := hasContainer;
      this.hasTextElement := hasTextElement;
      loading := true;
      loadingStep := 0;
      intervalActive := true;
      hidePending := false;
      loadingText := None;
      loaderHidden := false;
      containerLoaded := false;
    }

    /**
     * One firing of the interval. The updater computes the next step; when
     * it is out of range the interval is cleared and the end of loading is
     * scheduled (App.js then keeps the old step, App.tsx stores it anyway).
     * A cleared interval no longer fires.
     */
    method Tick()
      requires Valid()
      modifies this
      ensures Valid()
      ensures loadingStep == TickStep(capped, |steps|, old(loadingStep))
      ensures old(loadingStep) <= loadingStep
      ensures intervalActive == (old(intervalActive) && old(loadingStep) + 1 < |steps|)
      ensures hidePending == (old(hidePending) || (old(intervalActive) && old(loadingStep) + 1 >= |steps|))
      ensures loading == old(loading) && loadingText == old(loadingText)
      ensures loaderHidden == old(loaderHidden) && containerLoaded == old(containerLoaded)
    {
      if !intervalActive {
        return;
      }
      var next := loadingStep + 1;
      if next >= |steps| {
        intervalActive := false;
        hidePending := true;
        if capped {
          return;
        }
      }
      loadingStep := next;
    }

    /** The 500 ms timeout: loading ends. */
    method HideTimeout()
      requires Valid()
      modifies this
      ensures Valid()
      ensures loading == (old(loading) && !old(hidePending)) && !hidePending
      ensures loadingStep == old(loadingStep) && intervalActive == old(intervalActive)
      ensures loadingText == old(loadingText)
      ensures loaderHidden == old(loaderHidden) && containerLoaded == old(containerLoaded)
    {
      if hidePending {
        loading := false;
        hidePending := false;
      }
    }

    /**
     * The effect run after each render. While loading, every segment before
     * the current step gets `visible` (none loses it), and the step's text is
     * shown when the step names one (the 300 ms fade is left out). Once
     * loading has ended the loader is hidden and the container marked loaded,
     * each when present.
     */
    method Render()
      requires Valid()
      modifies this, segments
      ensures Valid()
      ensures loading ==> forall i :: 0 <= i < segments.Length ==> segments[i] == (old(segments[i]) || i < loadingStep)
      ensures !loading ==> segments[..] == old(segments[..])
      ensures loading && hasTextElement && loadingStep < |steps| ==> loadingText == Some(steps[loadingStep])
      ensures !(loading && hasTextElement && loadingStep < |steps|) ==> loadingText == old(loadingText)
      ensures loaderHidden == (old(loaderHidden) || (!loading && hasLoader))
      ensures containerLoaded == (old(containerLoaded) || (!loading && hasContainer))
      ensures loading == old(loading) && loadingStep == old(loadingStep)
      ensures intervalActive == old(intervalActive) && hidePending == old(hidePending)
    {
      if loading {
        MarkSegments(segments, loadingStep);
        if hasTextElement && loadingStep < |steps| && steps[loadingStep] != "" {
          loadingText := Some(steps[loadingStep]);
        }
      } else {
        if hasLoader {
          loaderHidden := true;
        }
        if hasContainer {
          containerLoaded := true;
        }
      }
    }
  }

  /** `forEach((seg, index) => { if (index < loadingStep) seg.classList.add('visible') })`. */
  method MarkSegments(segments: array<bool>, loadingStep: nat)
    modifies segments
    ensures forall i :: 0 <= i < segments.Length ==> segments[i] == (old(segments[i]) || i < loadingStep)
  {
    for index := 0 to segments.Length
      invariant forall i :: 0 <= i < index ==> segments[i] == (old(segments[i]) || i < loadingStep)
      invariant forall i :: index <= i < segments.Length ==> segments[i] == old(segments[i])
    {
      if index < loadingStep {
        segments[index] := true;
      }
    }
  }

  /**
   * App.js never marks the segments from the last step's index on while
   * loading: its step stops at `len - 1`. App.tsx reaches `len` and so marks
   * every segment before it.
   */
  lemma CappedStepNeverReachesLast(k: nat)
    ensures StepAfter(true, |JsLoadingSteps|, k) < |JsLoadingSteps|
    ensures StepAfter(false, |TsxLoadingSteps|, k) <= |TsxLoadingSteps|
    ensures k >= |TsxLoadingSteps| ==> StepAfter(false, |TsxLoadingSteps|, k) == |TsxLoadingSteps|
  {
    StepAfterTicks(true, |JsLoadingSteps|, k);
    StepAfterTicks(false, |TsxLoadingSteps|, k);
  }
}
