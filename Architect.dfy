/**
 * The persona architect (src/components/architect.component.ts): a
 * five-step form whose step index stays within 0..4, a single-field
 * "magic fill" and the final prompt generation. The form is a map from
 * control name to value; model replies are inputs, `None` when the call
 * throws.
 */
module Architect {
  import opened Options

  /** The number of steps of the stepper. */
  const StepCount: nat := 5

  /** The form's controls, in the order the form declares them. */
  const Controls: seq<string> := [
    "name", "age", "relationship", "tags", "fusionDescription",
    "primaryLang", "proficiency", "tics", "styleDescription",
    "generalDemeanor", "towardsUser", "toneWords", "examples", "finalInstruction"
  ]

  /** The form as built: every control empty. */
  function EmptyForm(): (f: map<string, string>)
    ensures f.Keys == set c | c in Controls
    ensures forall c :: c in f ==> f[c] == ""
  {
    map c | c in Controls :: ""
  }

  /** `nextStep`: forward while there is a later step. */
  function Advance(step: int): (r: int)
    ensures 0 <= step < StepCount ==> 0 <= r < StepCount
    ensures step < StepCount - 1 ==> r == step + 1
    ensures step >= StepCount - 1 ==> r == step
  {
    if step < StepCount - 1 then step + 1 else step
  }

  /** `prevStep`: back while there is an earlier step. */
  function Retreat(step: int): (r: int)
    ensures 0 <= step < StepCount ==> 0 <= r < StepCount
    ensures step > 0 ==> r == step - 1
    ensures step <= 0 ==> r == step
  {
    if step > 0 then step - 1 else step
  }

  /** Going forward and back again returns to the same step, except at the ends. */
  lemma AdvanceRetreat(step: int)
    requires 0 <= step < StepCount
    ensures step < StepCount - 1 ==> Retreat(Advance(step)) == step
    ensures step > 0 ==> Advance(Retreat(step)) == step
  {
  }

  /** Any run of forward and back moves stays within the five steps. */
  lemma {:induction false} MovesStayInRange(step: int, moves: seq<bool>)
    requires 0 <= step < StepCount
    ensures 0 <= Moved(step, moves) < StepCount
    decreases |moves|
  {
    if moves != [] {
      MovesStayInRange(if moves[0] then Advance(step) else Retreat(step), moves[1..]);
    }
  }

  /** The step after a run of moves, `true` for forward. */
  function Moved(step: int, moves: seq<bool>): int
    decreases |moves|
  {
    if moves == [] then step
    else Moved(if moves[0] then Advance(step) else Retreat(step), moves[1..])
  }

  class ArchitectComponent {
    var currentStep: int
    var isGenerating: bool
    var generatedPrompt: string
    var form: map<string, string>

    /** The stepper is on one of the steps and the form has exactly its controls. */
    predicate Valid()
      reads this`currentStep, this`form
    {
      0 <= currentStep < StepCount && form.Keys == set c | c in Controls
    }

    constructor()
      ensures Valid() && currentStep == 0 && !isGenerating && generatedPrompt == "" && form == EmptyForm()
    {
      currentStep := 0;
      isGenerating := false;
      generatedPrompt := "";
      form := EmptyForm();
    }

    method NextStep()
      requires Valid()
      modifies this`currentStep
      ensures Valid() && currentStep == Advance(old(currentStep))
    {
      if currentStep < StepCount - 1 {
        currentStep := currentStep + 1;
      }
    }

    method PrevStep()
      requires Valid()
      modifies this`currentStep
      ensures Valid() && currentStep == Retreat(old(currentStep))
    {
      if currentStep > 0 {
        currentStep := currentStep - 1;
      }
    }

    /** A click on a step of the stepper, which only offers the five steps. */
    method SelectStep(index: int)
      requires Valid() && 0 <= index < StepCount
      modifies this`currentStep
      ensures Valid() && currentStep == index
    {
      currentStep := index;
    }

    /** "Start over". */
    method StartOver()
      requires Valid()
      modifies this`currentStep
      ensures Valid() && currentStep == 0
    {
      currentStep := 0;
    }

    /**
     * `magicFill(name)`: an unknown control is ignored; otherwise the
     * whole form is the model's context, the suggestion replaces that one
     * control's value, and a failed call leaves the form as it was.
     */
    method MagicFill(name: string, suggestion: Option<string>) returns (context: map<string, string>)
      requires Valid()
      modifies this`form, this`isGenerating
      ensures Valid()
      ensures context == old(form)
      ensures name in old(form) && suggestion.Some? ==> form == old(form)[name := suggestion.value]
      ensures name !in old(form) || suggestion.None? ==> form == old(form)
      ensures name in old(form) ==> !isGenerating
      ensures name !in old(form) ==> isGenerating == old(isGenerating)
    {
      context := form;
      if name in form {
        isGenerating := true;
        if suggestion.Some? {
          form := form[name := suggestion.value];
        }
        isGenerating := false;
      }
    }

    /** `generate`: the compiled prompt is shown on the last step; a failed call changes neither. */
    method Generate(result: Option<string>) returns (context: map<string, string>)
      requires Valid()
      modifies this`generatedPrompt, this`currentStep, this`isGenerating
      ensures Valid() && context == form && !isGenerating
      ensures result.Some? ==> generatedPrompt == result.value && currentStep == StepCount - 1
      ensures result.None? ==> generatedPrompt == old(generatedPrompt) && currentStep == old(currentStep)
    {
      isGenerating := true;
      context := form;
      if result.Some? {
        generatedPrompt := result.value;
        currentStep := StepCount - 1;
      }
      isGenerating := false;
    }

    /** `onRefineWithDirector`: the prompt handed to the director. */
    method OnRefineWithDirector() returns (prompt: string)
      ensures prompt == generatedPrompt
    {
      prompt := generatedPrompt;
    }
  }
}
