/**
 * The onboarding tour (src/components/ui/onboarding.tsx): a step counter
 * over five fixed steps with Next, Back and Skip, and the progress bar and
 * button rules derived from the current step.
 */
module OnboardingTour {

  datatype Step = Step(id: nat, title: string)

  /** The five steps of the tour, in order. */
  const OnboardingSteps: seq<Step> := [
    Step(1, "Welcome to GiftBox Studio! \U{1F381}"),
    Step(2, "Choose Your Items \U{1F4E6}"),
    Step(3, "Customize Your Box \U{1F3A8}"),
    Step(4, "Preview in 3D \U{1F440}"),
    Step(5, "Ready to Build! \U{1F680}")
  ]

  const StepCount: nat := 5

  /** `StepCount` is the length of the step list, and the steps are numbered 1 to 5 in order. */
  lemma StepsNumbered(i: nat)
    requires i < StepCount
    ensures |OnboardingSteps| == StepCount && OnboardingSteps[i].id == i + 1
  {
  }

  /** The progress bar: one segment per step, filled up to and including the current one. */
  function ProgressBar(currentStep: nat): (bar: seq<bool>)
    ensures |bar| == StepCount
  {
    seq(StepCount, i => i <= currentStep)
  }

  /** Number of filled segments. */
  function CountFilled(bar: seq<bool>): nat
  {
    if bar == [] then 0 else (if bar[0] then 1 else 0) + CountFilled(bar[1..])
  }

  /** A bar whose first `m` segments are filled and the rest empty has `m` filled segments. */
  lemma {:induction false} CountFilledPrefix(bar: seq<bool>, m: nat)
    requires m <= |bar|
    requires forall i :: 0 <= i < |bar| ==> (bar[i] <==> i < m)
    ensures CountFilled(bar) == m
  {
    if bar != [] {
      CountFilledPrefix(bar[1..], if m == 0 then 0 else m - 1);
    }
  }

  /** Exactly `currentStep + 1` segments are filled. */
  lemma FilledSegments(currentStep: nat)
    requires currentStep < StepCount
    ensures CountFilled(ProgressBar(currentStep)) == currentStep + 1
  {
    CountFilledPrefix(ProgressBar(currentStep), currentStep + 1);
  }

  /** The Back button is rendered only after the first step, i.e. once more than one segment is filled. */
  function BackVisible(currentStep: nat): (visible: bool)
    ensures currentStep < StepCount ==> (visible <==> CountFilled(ProgressBar(currentStep)) > 1)
  {
    if currentStep < StepCount then FilledSegments(currentStep); currentStep > 0 else currentStep > 0
  }

  /** The primary button reads "Get Started!" on the last step and "Next" before it. */
  function PrimaryLabel(currentStep: nat): (caption: string)
    ensures caption == "Get Started!" <==> currentStep == StepCount - 1
    ensures caption == "Next" <==> currentStep != StepCount - 1
  {
    if currentStep == StepCount - 1 then "Get Started!" else "Next"
  }

  /** The tour's state; `completions` counts the calls of the `onComplete` callback. */
  class Onboarding {
    var currentStep: nat
    var showOnboarding: bool
    var completions: nat

    /** The step counter stays on a step of the tour. */
    ghost predicate Valid()
      reads this
    {
      currentStep < StepCount
    }

    constructor (isVisible: bool)
      ensures Valid() && currentStep == 0 && showOnboarding == isVisible && completions == 0
    {
      currentStep := 0;
      showOnboarding := isVisible;
      completions := 0;
    }

    /** The step on screen. */
    function CurrentStep(): (s: Step)
      reads this
      requires Valid()
      ensures s.id == currentStep + 1
    {
      OnboardingSteps[currentStep]
    }

    /** The effect that copies the `isVisible` prop into the state. */
    method SyncVisibility(isVisible: bool)
      modifies this`showOnboarding
      ensures showOnboarding == isVisible
    {
      showOnboarding := isVisible;
    }

    /** `completeOnboarding`: hide the tour and call `onComplete` once. */
    method CompleteOnboarding()
      requires Valid()
      modifies this`showOnboarding, this`completions
      ensures Valid() && !showOnboarding && completions == old(completions) + 1
    {
      showOnboarding := false;
      completions := completions + 1;
    }

    /** `nextStep`: advance by one, or complete on the last step (the step stays put). */
    method NextStep()
      requires Valid()
      modifies this
      ensures Valid()
      ensures old(currentStep) < StepCount - 1 ==>
        currentStep == old(currentStep) + 1 && showOnboarding == old(showOnboarding) && completions == old(completions)
      ensures old(currentStep) == StepCount - 1 ==>
        currentStep == old(currentStep) && !showOnboarding && completions == old(completions) + 1
    {
      if currentStep < StepCount - 1 {
        currentStep := currentStep + 1;
      } else {
        CompleteOnboarding();
      }
    }

    /** `prevStep`: go back one step; on the first step nothing happens. */
    method PrevStep()
      requires Valid()
      modifies this`currentStep
      ensures Valid()
      ensures currentStep == if old(currentStep) > 0 then old(currentStep) - 1 else old(currentStep)
    {
      if currentStep > 0 {
        currentStep := currentStep - 1;
      }
    }

    /** `skipOnboarding`: complete from any step. */
    method SkipOnboarding()
      requires Valid()
      modifies this`showOnboarding, this`completions
      ensures Valid() && !showOnboarding && completions == old(completions) + 1
    {
      CompleteOnboarding();
    }
  }

  /** Pressing the primary button five times walks the tour and completes it exactly once. */
  method WalkTour()
  {
    var tour := new Onboarding(true);
    tour.NextStep();
    tour.NextStep();
    tour.NextStep();
    tour.NextStep();
    assert tour.currentStep == 4 && tour.showOnboarding && tour.completions == 0;
    assert PrimaryLabel(tour.currentStep) == "Get Started!";
    tour.PrevStep();
    assert tour.currentStep == 3 && BackVisible(tour.currentStep);
    tour.NextStep();
    tour.NextStep();
    assert tour.currentStep == 4 && !tour.showOnboarding && tour.completions == 1;
  }
}
