/** The emergency page (src/pages/Emergency.tsx): a list of self-care
    resources, and two guided exercises that replace the list while one is
    selected: a three-step 4-7-8 breathing guide with Previous, Next and Repeat,
    and a grounding exercise. */
module Emergency {
  import opened Common

  datatype Exercise = Breathing | Grounding

  /** The "Start Now" actions of the three self-care resources. */
  datatype ResourceAction = BreathingAction | GroundingAction | SelfCareAction

  /** The buttons under the breathing guide. */
  datatype StepButton = Previous | Next | Repeat

  const FirstStep := 1
  const LastStep := 3

  /** Which of the step buttons the guide shows at `step`: Previous after the
      first step, Next before the last, Repeat in its place at the last. */
  function Offered(step: int, b: StepButton): (shown: bool)
    ensures b == Previous ==> (shown <==> step > FirstStep)
    ensures b == Next ==> (shown <==> step < LastStep)
    ensures b == Repeat ==> (shown <==> step >= LastStep)
  {
    match b
    case Previous => step > FirstStep
    case Next => step < LastStep
    case Repeat => !(step < LastStep)
  }

  /** The step after pressing an offered button. */
  function Press(step: int, b: StepButton): (next: int)
    requires Offered(step, b)
    ensures FirstStep <= step <= LastStep ==> FirstStep <= next <= LastStep
    ensures b == Previous ==> next == step - 1
    ensures b == Next ==> next == step + 1
    ensures b == Repeat ==> next == FirstStep
  {
    match b
    case Previous => step - 1
    case Next => step + 1
    case Repeat => FirstStep
  }

  /** From any step, some sequence of offered buttons reaches any other: the
      guide can be walked forwards, backwards and round again. */
  lemma {:induction false} EveryStepReachable(from: int, to: int)
    requires FirstStep <= from <= LastStep && FirstStep <= to <= LastStep
    ensures exists presses: seq<StepButton> :: Walk(from, presses) == Some(to)
    decreases if from <= to then to - from else (LastStep - from + 1) + (to - FirstStep)
  {
    if from == to {
      assert Walk(from, []) == Some(to);
    } else if from < to {
      EveryStepReachable(from + 1, to);
      var rest: seq<StepButton> :| Walk(from + 1, rest) == Some(to);
      assert Walk(from, [Next] + rest) == Walk(from + 1, rest);
    } else if from == LastStep {
      EveryStepReachable(FirstStep, to);
      var rest: seq<StepButton> :| Walk(FirstStep, rest) == Some(to);
      assert Walk(from, [Repeat] + rest) == Walk(FirstStep, rest);
    } else {
      EveryStepReachable(from + 1, to);
      var rest: seq<StepButton> :| Walk(from + 1, rest) == Some(to);
      assert Walk(from, [Next] + rest) == Walk(from + 1, rest);
    }
  }

  /** The step reached by pressing `presses` in turn, if each is offered when pressed. */
  function Walk(step: int, presses: seq<StepButton>): Option<int>
    decreases |presses|
  {
    if presses == [] then Some(step)
    else if Offered(step, presses[0]) then Walk(Press(step, presses[0]), presses[1..])
    else None
  }

  class EmergencyPage {
    var selectedExercise: Option<Exercise>
    var breathingStep: int

    /** The breathing guide is on one of its three steps while it is shown;
        at any other time the step is 0. */
    ghost predicate Valid()
      reads this
    {
      && (selectedExercise == Some(Breathing) ==> FirstStep <= breathingStep <= LastStep)
      && (selectedExercise != Some(Breathing) ==> breathingStep == 0)
    }

    constructor ()
      ensures Valid() && selectedExercise == None && breathingStep == 0
    {
      selectedExercise := None;
      breathingStep := 0;
    }

    /** `startBreathingExercise`: the breathing guide at its first step. */
    method StartBreathingExercise()
      requires Valid()
      modifies this
      ensures Valid()
      ensures selectedExercise == Some(Breathing) && breathingStep == FirstStep
    {
      selectedExercise := Some(Breathing);
      breathingStep := FirstStep;
    }

    /** "Start Now" on a resource card, shown only while no exercise is: the
        breathing card starts the guide, the grounding card shows the grounding
        exercise with the step left as it is, and the self-care card changes
        nothing. */
    method StartNow(action: ResourceAction)
      requires Valid() && selectedExercise == None
      modifies this
      ensures Valid()
      ensures action == BreathingAction ==> selectedExercise == Some(Breathing) && breathingStep == FirstStep
      ensures action == GroundingAction ==> selectedExercise == Some(Grounding) && breathingStep == old(breathingStep)
      ensures action == SelfCareAction ==> selectedExercise == old(selectedExercise) && breathingStep == old(breathingStep)
    {
      if action == BreathingAction {
        StartBreathingExercise();
      }
      if action == GroundingAction {
        selectedExercise := Some(Grounding);
      }
    }

    /** A step button of the breathing guide, which only shows the ones offered. */
    method PressStep(b: StepButton)
      requires Valid() && selectedExercise == Some(Breathing) && Offered(breathingStep, b)
      modifies this
      ensures Valid() && selectedExercise == Some(Breathing)
      ensures breathingStep == Press(old(breathingStep), b)
    {
      match b
      case Previous => breathingStep := breathingStep - 1;
      case Next => breathingStep := breathingStep + 1;
      case Repeat => breathingStep := FirstStep;
    }

    /** "I Feel Better Now": back to the resource list, step 0. */
    method FeelBetter()
      requires Valid() && selectedExercise == Some(Breathing)
      modifies this
      ensures Valid() && selectedExercise == None && breathingStep == 0
    {
      selectedExercise := None;
      breathingStep := 0;
    }

    /** "I Feel More Grounded": back to the resource list; the step is not touched. */
    method LeaveGrounding()
      requires Valid() && selectedExercise == Some(Grounding)
      modifies this
      ensures Valid() && selectedExercise == None && breathingStep == old(breathingStep)
    {
      selectedExercise := None;
    }
  }

  /** Pressing any sequence of buttons of the breathing guide, each when it is
      shown, walks the step as `Walk` says and never leaves 1..3. */
  method FollowGuide(presses: seq<StepButton>) returns (step: int, completed: bool)
    ensures completed <==> Walk(FirstStep, presses).Some?
    ensures completed ==> Walk(FirstStep, presses) == Some(step)
    ensures FirstStep <= step <= LastStep
  {
    var page := new EmergencyPage();
    page.StartNow(BreathingAction);
    completed := true;
    var k := 0;
    while k < |presses| && completed
      invariant 0 <= k <= |presses|
      invariant page.Valid() && page.selectedExercise == Some(Breathing)
      invariant completed ==> Walk(FirstStep, presses) == Walk(page.breathingStep, presses[k..])
      invariant !completed ==> Walk(FirstStep, presses).None?
      decreases |presses| - k, if completed then 1 else 0
    {
      assert presses[k..][1..] == presses[k + 1..];
      if Offered(page.breathingStep, presses[k]) {
        page.PressStep(presses[k]);
        k := k + 1;
      } else {
        completed := false;
      }
    }
    if completed {
      assert presses[k..] == [];
    }
    step := page.breathingStep;
  }
}
