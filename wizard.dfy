/** The step sequencer (components/Wizard.tsx): six steps in a fixed order,
    moved through one at a time with Next and Back. */
module Wizard {

  /** A step header. */
  datatype StepInfo = StepInfo(id: int, title: string, subtitle: string)

  const Steps: seq<StepInfo> := [
    StepInfo(1, "Profile", "Let's get to know you"),
    StepInfo(2, "Platforms", "Where do you want to be?"),
    StepInfo(3, "Features", "Power up your business"),
    StepInfo(4, "Support", "We've got your back"),
    StepInfo(5, "Balance", "Setup prepaid balance"),
    StepInfo(6, "Integrations", "Connect your stack")
  ]

  /** There are six steps and step `k` sits at position `k - 1`. */
  lemma StepsNumbered()
    ensures |Steps| == 6
    ensures forall i :: 0 <= i < |Steps| ==> Steps[i].id == i + 1
  {
  }

  /** The sequencer's state: the current step and the direction of the last
      move (1 forward, -1 back, 0 before any move). */
  class Navigator {
    var currentStep: int
    var direction: int

    /** The current step always names an existing step. */
    predicate Valid()
      reads this
    {
      1 <= currentStep <= |Steps|
    }

    constructor ()
      ensures Valid()
      ensures currentStep == 1 && direction == 0
    {
      currentStep := 1;
      direction := 0;
    }

    /** `STEPS[currentStep - 1]`: the header shown, always in bounds. */
    function Current(): (step: StepInfo)
      reads this
      requires Valid()
      ensures step in Steps && step.id == currentStep
    {
      Steps[currentStep - 1]
    }

    /** `next`: advance one step, or at the last step report completion
        (the caller's `onComplete`) and stay. The configuration is not
        consulted: no step guards the way forward. */
    method Next() returns (completed: bool)
      requires Valid()
      modifies this
      ensures Valid()
      ensures old(currentStep) < |Steps| ==>
        !completed && currentStep == old(currentStep) + 1 && direction == 1
      ensures old(currentStep) == |Steps| ==>
        completed && currentStep == old(currentStep) && direction == old(direction)
    {
      if currentStep < |Steps| {
        direction := 1;
        currentStep := currentStep + 1;
        completed := false;
      } else {
        completed := true;
      }
    }

    /** `back`: go back one step; on the first step nothing changes. */
    method Back()
      requires Valid()
      modifies this
      ensures Valid()
      ensures old(currentStep) > 1 ==> currentStep == old(currentStep) - 1 && direction == -1
      ensures old(currentStep) == 1 ==> currentStep == 1 && direction == old(direction)
    {
      if currentStep > 1 {
        direction := -1;
        currentStep := currentStep - 1;
      }
    }
  }
}
