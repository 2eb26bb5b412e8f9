/**
 * A gate session: an ordered list of exercises, one step per exercise, each with its
 * own answer verdict and attempt counter. A correct answer moves to the next step;
 * a correct answer on the last step completes the session and signals completion.
 */
module Gate {
  import opened Wrappers
  import opened Text
  import opened ExerciseModel
  import LessonRepository

  datatype AnswerState = IDLE | CORRECT | INCORRECT

  datatype ExerciseStep = ExerciseStep(
    exercise: Exercise,
    multipleChoiceSelection: Option<string> := None,
    inputValue: string := "",
    answerState: AnswerState := IDLE,
    attempts: nat := 0)

  datatype GateUiState = GateUiState(
    appLabel: string,
    targetPackageName: string,
    steps: seq<ExerciseStep>,
    currentStepIndex: nat,
    completed: bool,
    showSuccess: bool := false)
  {
    /** `currentStep`: the step at the current index, or none when the index is out of range. */
    function CurrentStep(): (step: Option<ExerciseStep>)
      ensures step.Some? <==> currentStepIndex < |steps|
      ensures step.Some? ==> step.value == steps[currentStepIndex]
    {
      if currentStepIndex < |steps| then Some(steps[currentStepIndex]) else None
    }

    /** `progressLabel`: "<current step, counted from 1>/<number of steps>". */
    function ProgressLabel(): string {
      NatToString(currentStepIndex + 1) + "/" + NatToString(|steps|)
    }
  }

  const Empty: GateUiState := GateUiState("", "", [], 0, false)

  datatype GateEvent =
    | Completed(packageName: string)
    | ContinueToApp(packageName: string)
    | ContinueLearning

  /** A new ui state together with the events emitted on the way to it, in order. */
  datatype Outcome = Outcome(state: GateUiState, emitted: seq<GateEvent>)

  // ---------------------------------------------------------------------------
  // Grading
  // ---------------------------------------------------------------------------

  /** The typed-answer normalisation, `trim().lowercase()`. */
  function NormalizeAnswer(s: string): string {
    LowerString(Trim(s))
  }

  /** `acceptableAnswers.any { normalized == it.trim().lowercase() }`. */
  function AnyMatches(normalized: string, candidates: seq<string>): (b: bool)
    ensures b <==> exists k :: 0 <= k < |candidates| && normalized == NormalizeAnswer(candidates[k])
  {
    if candidates == [] then false
    else if normalized == NormalizeAnswer(candidates[0]) then true
    else
      var rest := AnyMatches(normalized, candidates[1..]);
      assert forall k :: 1 <= k < |candidates| ==> candidates[k] == candidates[1..][k - 1];
      rest
  }

  // ---------------------------------------------------------------------------
  // The transitions, one per handler
  // ---------------------------------------------------------------------------

  /** The state `loadExercises` publishes: one fresh step per exercise, at index 0. */
  function LoadedState(appLabel: string, targetPackageName: string, exercises: seq<Exercise>): (st: GateUiState)
    ensures |st.steps| == |exercises| && st.currentStepIndex == 0 && !st.completed && !st.showSuccess
    ensures forall k :: 0 <= k < |exercises| ==> st.steps[k] == ExerciseStep(exercises[k])
  {
    GateUiState(appLabel, targetPackageName,
                seq(|exercises|, k requires 0 <= k < |exercises| => ExerciseStep(exercises[k])),
                0, false)
  }

  /** `replaceStep`: overwrite the slot at the current index, when there is one. */
  function AfterReplaceStep(st: GateUiState, step: ExerciseStep): GateUiState {
    var index := st.currentStepIndex;
    if index >= |st.steps| then st else st.(steps := st.steps[index := step])
  }

  /** `advanceToNextStep`: complete at the last step, otherwise move one step on. */
  function AfterAdvanceToNextStep(st: GateUiState, targetPackageName: string): Outcome {
    var nextIndex := st.currentStepIndex + 1;
    if nextIndex >= |st.steps| then
      Outcome(st.(completed := true, showSuccess := true), [Completed(targetPackageName)])
    else
      Outcome(st.(currentStepIndex := nextIndex), [])
  }

  /** `updateStep`: replace the current step, then advance when asked to. */
  function AfterUpdateStep(st: GateUiState, step: ExerciseStep, advance: bool, targetPackageName: string): Outcome {
    var replaced := AfterReplaceStep(st, step);
    if advance then AfterAdvanceToNextStep(replaced, targetPackageName) else Outcome(replaced, [])
  }

  function AfterMultipleChoiceSelected(st: GateUiState, option: string, targetPackageName: string): Outcome {
    match st.CurrentStep()
    case None => Outcome(st, [])
    case Some(step) =>
      if !step.exercise.MultipleChoiceExercise? then Outcome(st, [])
      else
        var isCorrect := EqualsIgnoreCase(option, step.exercise.correctAnswer);
        var updatedStep := step.(multipleChoiceSelection := Some(option),
                                 answerState := if isCorrect then CORRECT else INCORRECT,
                                 attempts := step.attempts + 1);
        AfterUpdateStep(st, updatedStep, isCorrect, targetPackageName)
  }

  function AfterInputChanged(st: GateUiState, text: string): GateUiState {
    match st.CurrentStep()
    case None => st
    case Some(step) =>
      if !step.exercise.InputExercise? then st
      else AfterReplaceStep(st, step.(inputValue := text, answerState := IDLE))
  }

  function AfterInputSubmitted(st: GateUiState, targetPackageName: string): Outcome {
    match st.CurrentStep()
    case None => Outcome(st, [])
    case Some(step) =>
      if !step.exercise.InputExercise? then Outcome(st, [])
      else
        var matches := AnyMatches(NormalizeAnswer(step.inputValue), step.exercise.acceptableAnswers);
        var updatedStep := step.(answerState := if matches then CORRECT else INCORRECT,
                                 attempts := step.attempts + 1);
        AfterUpdateStep(st, updatedStep, matches, targetPackageName)
  }

  // ---------------------------------------------------------------------------
  // The session invariant
  // ---------------------------------------------------------------------------

  /**
   * The index is in range (or the session has no steps and the index is 0); every step
   * before the current one was answered correctly; the success screen shows exactly
   * when the session is completed, and a completed session sits at its last step.
   */
  ghost predicate SessionInvariant(st: GateUiState) {
    (if st.steps == [] then st.currentStepIndex == 0 && !st.completed else st.currentStepIndex < |st.steps|)
    && (forall k :: 0 <= k < st.currentStepIndex ==> st.steps[k].answerState == CORRECT)
    && st.showSuccess == st.completed
    && (st.completed ==> st.currentStepIndex == |st.steps| - 1)
  }

  lemma EmptyAndLoadedSatisfyInvariant(appLabel: string, targetPackageName: string, exercises: seq<Exercise>)
    ensures SessionInvariant(Empty)
    ensures SessionInvariant(LoadedState(appLabel, targetPackageName, exercises))
  {
  }

  /** Advancing after a correct answer keeps the invariant. */
  lemma {:induction false} UpdateStepPreservesInvariant(st: GateUiState, step: ExerciseStep, advance: bool, targetPackageName: string)
    requires SessionInvariant(st) && st.CurrentStep().Some?
    requires advance ==> step.answerState == CORRECT
    ensures SessionInvariant(AfterUpdateStep(st, step, advance, targetPackageName).state)
  {
    var replaced := AfterReplaceStep(st, step);
    assert replaced.steps == st.steps[st.currentStepIndex := step];
    if advance {
      var r := AfterAdvanceToNextStep(replaced, targetPackageName).state;
      forall k | 0 <= k < r.currentStepIndex
        ensures r.steps[k].answerState == CORRECT
      {
        if k < st.currentStepIndex {
          assert r.steps[k] == st.steps[k];
        }
      }
    }
  }

  /** Every handler keeps the invariant. */
  lemma {:induction false} HandlersPreserveInvariant(st: GateUiState, option: string, text: string, targetPackageName: string)
    requires SessionInvariant(st)
    ensures SessionInvariant(AfterMultipleChoiceSelected(st, option, targetPackageName).state)
    ensures SessionInvariant(AfterInputChanged(st, text))
    ensures SessionInvariant(AfterInputSubmitted(st, targetPackageName).state)
  {
    match st.CurrentStep()
    case None =>
    case Some(step) =>
      if step.exercise.MultipleChoiceExercise? {
        var isCorrect := EqualsIgnoreCase(option, step.exercise.correctAnswer);
        var updatedStep := step.(multipleChoiceSelection := Some(option),
                                 answerState := if isCorrect then CORRECT else INCORRECT,
                                 attempts := step.attempts + 1);
        UpdateStepPreservesInvariant(st, updatedStep, isCorrect, targetPackageName);
      } else {
        UpdateStepPreservesInvariant(st, step.(inputValue := text, answerState := IDLE), false, targetPackageName);
        var matches := AnyMatches(NormalizeAnswer(step.inputValue), step.exercise.acceptableAnswers);
        var updatedStep := step.(answerState := if matches then CORRECT else INCORRECT,
                                 attempts := step.attempts + 1);
        UpdateStepPreservesInvariant(st, updatedStep, matches, targetPackageName);
      }
  }

  /**
   * Whenever a handler signals completion, every step of the resulting state has been
   * answered correctly, and the signal names the target package.
   */
  lemma {:induction false} CompletionMeansAllCorrect(st: GateUiState, option: string, targetPackageName: string)
    requires SessionInvariant(st)
    ensures var o := AfterMultipleChoiceSelected(st, option, targetPackageName);
            o.emitted != [] ==> o.emitted == [Completed(targetPackageName)]
                                && o.state.completed
                                && forall k :: 0 <= k < |o.state.steps| ==> o.state.steps[k].answerState == CORRECT
    ensures var o := AfterInputSubmitted(st, targetPackageName);
            o.emitted != [] ==> o.emitted == [Completed(targetPackageName)]
                                && o.state.completed
                                && forall k :: 0 <= k < |o.state.steps| ==> o.state.steps[k].answerState == CORRECT
  {
    HandlersPreserveInvariant(st, option, "", targetPackageName);
  }

  // ---------------------------------------------------------------------------
  // Properties of the handlers
  // ---------------------------------------------------------------------------

  /** Without a current step of the right kind, every handler leaves the state alone and emits nothing. */
  lemma HandlersIgnoreWrongStep(st: GateUiState, option: string, text: string, targetPackageName: string)
    ensures (st.CurrentStep().None? || !st.CurrentStep().value.exercise.MultipleChoiceExercise?) ==>
              AfterMultipleChoiceSelected(st, option, targetPackageName) == Outcome(st, [])
    ensures (st.CurrentStep().None? || !st.CurrentStep().value.exercise.InputExercise?) ==>
              AfterInputChanged(st, text) == st
              && AfterInputSubmitted(st, targetPackageName) == Outcome(st, [])
  {
  }

  /** `replaceStep` rewrites only the current slot and keeps the length; out of range it is a no-op. */
  lemma ReplaceStepOnlyTouchesCurrent(st: GateUiState, step: ExerciseStep)
    ensures var r := AfterReplaceStep(st, step);
            |r.steps| == |st.steps|
            && r.currentStepIndex == st.currentStepIndex && r.completed == st.completed
            && r.showSuccess == st.showSuccess
            && (forall k :: 0 <= k < |st.steps| && k != st.currentStepIndex ==> r.steps[k] == st.steps[k])
            && (st.currentStepIndex < |st.steps| ==> r.steps[st.currentStepIndex] == step)
            && (st.currentStepIndex >= |st.steps| ==> r == st)
  {
  }

  /**
   * Advancing from the last step completes the session, keeps the index and emits
   * `Completed`; from any earlier step it moves the index by one and emits nothing.
   */
  lemma AdvanceCases(st: GateUiState, targetPackageName: string)
    ensures var o := AfterAdvanceToNextStep(st, targetPackageName);
            if st.currentStepIndex + 1 >= |st.steps| then
              o.state == st.(completed := true, showSuccess := true)
              && o.emitted == [Completed(targetPackageName)]
            else
              o.state.currentStepIndex == st.currentStepIndex + 1
              && o.state.steps == st.steps && o.emitted == []
  {
  }

  /**
   * A choice is graded CORRECT iff it equals the correct answer ignoring case; the choice
   * is stored, the attempt count grows by one, and the index moves on only when correct.
   */
  lemma {:induction false} ChoiceGrading(st: GateUiState, option: string, targetPackageName: string)
    requires st.CurrentStep().Some? && st.CurrentStep().value.exercise.MultipleChoiceExercise?
    ensures var step := st.CurrentStep().value;
            var o := AfterMultipleChoiceSelected(st, option, targetPackageName);
            var graded := o.state.steps[st.currentStepIndex];
            |o.state.steps| == |st.steps|
            && graded.multipleChoiceSelection == Some(option)
            && (graded.answerState == CORRECT <==> EqualsIgnoreCase(option, step.exercise.correctAnswer))
            && (graded.answerState != IDLE)
            && graded.attempts == step.attempts + 1
            && graded.exercise == step.exercise && graded.inputValue == step.inputValue
            && (graded.answerState == INCORRECT ==> o.state.currentStepIndex == st.currentStepIndex && o.emitted == [])
            && (graded.answerState == CORRECT && st.currentStepIndex + 1 < |st.steps| ==>
                  o.state.currentStepIndex == st.currentStepIndex + 1 && o.emitted == [])
            && (graded.answerState == CORRECT && st.currentStepIndex + 1 == |st.steps| ==>
                  o.state.completed && o.state.currentStepIndex == st.currentStepIndex
                  && o.emitted == [Completed(targetPackageName)])
  {
    var step := st.CurrentStep().value;
    var isCorrect := EqualsIgnoreCase(option, step.exercise.correctAnswer);
    var updatedStep := step.(multipleChoiceSelection := Some(option),
                             answerState := if isCorrect then CORRECT else INCORRECT,
                             attempts := step.attempts + 1);
    ReplaceStepOnlyTouchesCurrent(st, updatedStep);
    AdvanceCases(AfterReplaceStep(st, updatedStep), targetPackageName);
  }

  /** Typing stores the text, resets the verdict to IDLE, keeps the attempts and never moves on. */
  lemma {:induction false} InputChangedStoresText(st: GateUiState, text: string)
    requires st.CurrentStep().Some? && st.CurrentStep().value.exercise.InputExercise?
    ensures var step := st.CurrentStep().value;
            var r := AfterInputChanged(st, text);
            r.steps[st.currentStepIndex] == step.(inputValue := text, answerState := IDLE)
            && r.currentStepIndex == st.currentStepIndex && r.completed == st.completed
            && |r.steps| == |st.steps|
            && forall k :: 0 <= k < |st.steps| && k != st.currentStepIndex ==> r.steps[k] == st.steps[k]
  {
    var step := st.CurrentStep().value;
    ReplaceStepOnlyTouchesCurrent(st, step.(inputValue := text, answerState := IDLE));
  }

  /**
   * A typed answer is graded CORRECT iff, trimmed and lowercased, it equals some acceptable
   * answer trimmed and lowercased; the attempt count grows by one and the session moves on
   * (or completes) exactly when it is correct.
   */
  lemma {:induction false} InputGrading(st: GateUiState, targetPackageName: string)
    requires st.CurrentStep().Some? && st.CurrentStep().value.exercise.InputExercise?
    ensures var step := st.CurrentStep().value;
            var o := AfterInputSubmitted(st, targetPackageName);
            var graded := o.state.steps[st.currentStepIndex];
            var acceptable := step.exercise.acceptableAnswers;
            |o.state.steps| == |st.steps|
            && (graded.answerState == CORRECT <==>
                  exists k :: 0 <= k < |acceptable| && NormalizeAnswer(step.inputValue) == NormalizeAnswer(acceptable[k]))
            && (graded.answerState != IDLE)
            && graded.attempts == step.attempts + 1
            && graded.inputValue == step.inputValue
            && (graded.answerState == CORRECT <==>
                  (o.state.currentStepIndex == st.currentStepIndex + 1 || o.emitted == [Completed(targetPackageName)]))
  {
    var step := st.CurrentStep().value;
    var matches := AnyMatches(NormalizeAnswer(step.inputValue), step.exercise.acceptableAnswers);
    var updatedStep := step.(answerState := if matches then CORRECT else INCORRECT,
                             attempts := step.attempts + 1);
    ReplaceStepOnlyTouchesCurrent(st, updatedStep);
    AdvanceCases(AfterReplaceStep(st, updatedStep), targetPackageName);
  }

  /**
   * There is no completion guard: a completed session still has a current step, and a
   * second correct answer on it signals completion again.
   */
  lemma {:induction false} CompletionCanRepeat(st: GateUiState, text: string, targetPackageName: string)
    requires SessionInvariant(st) && st.completed
    requires st.CurrentStep().value.exercise.InputExercise?
    requires text in st.CurrentStep().value.exercise.acceptableAnswers
    ensures st.CurrentStep().Some?
    ensures AfterInputSubmitted(AfterInputChanged(st, text), targetPackageName).emitted == [Completed(targetPackageName)]
  {
    var step := st.CurrentStep().value;
    var changed := AfterInputChanged(st, text);
    InputChangedStoresText(st, text);
    var acceptable := step.exercise.acceptableAnswers;
    var k :| 0 <= k < |acceptable| && acceptable[k] == text;
    InputGrading(changed, targetPackageName);
    var o := AfterInputSubmitted(changed, targetPackageName);
    AdvanceCases(AfterReplaceStep(changed, o.state.steps[changed.currentStepIndex]), targetPackageName);
  }

  /** The progress label reads back as the 1-based step number and the step count, split at '/'. */
  lemma {:induction false} ProgressLabelReadsBack(st: GateUiState)
    ensures var progress := st.ProgressLabel();
            var k := |NatToString(st.currentStepIndex + 1)|;
            0 < k < |progress| && progress[k] == '/'
            && IsDigits(progress[..k]) && ParseNat(progress[..k]) == st.currentStepIndex + 1
            && IsDigits(progress[k + 1..]) && ParseNat(progress[k + 1..]) == |st.steps|
  {
    var progress := st.ProgressLabel();
    var left, right := NatToString(st.currentStepIndex + 1), NatToString(|st.steps|);
    NatToStringRoundTrip(st.currentStepIndex + 1);
    NatToStringRoundTrip(|st.steps|);
    assert progress == left + "/" + right;
    assert progress[..|left|] == left;
    assert progress[|left| + 1..] == right;
  }

  // ---------------------------------------------------------------------------
  // The view model
  // ---------------------------------------------------------------------------

  class GateViewModel {
    const targetPackageName: string
    const appLabel: string
    const language: LessonRepository.Language
    var uiState: GateUiState
    /** Every event emitted so far, oldest first. */
    var events: seq<GateEvent>

    /** The session starts empty; `loadExercises` publishes the exercises later. */
    constructor(targetPackageName: string, appLabel: string, language: LessonRepository.Language)
      ensures this.targetPackageName == targetPackageName && this.appLabel == appLabel
      ensures this.language == language
      ensures uiState == Empty && events == []
    {
      this.targetPackageName := targetPackageName;
      this.appLabel := appLabel;
      this.language := language;
      uiState := Empty;
      events := [];
    }

    /** `loadExercises`, with the repository's shuffle given as `perm`. */
    method LoadExercises(perm: seq<nat>)
      requires LessonRepository.IsPermutation(perm, |LessonRepository.Pool(language)|)
      modifies this
      ensures uiState == LoadedState(appLabel, targetPackageName,
                                     LessonRepository.GetQuickGateExercises(perm, language))
      ensures events == old(events)
    {
      var exercises := LessonRepository.GetQuickGateExercises(perm, language);
      var steps := seq(|exercises|, k requires 0 <= k < |exercises| => ExerciseStep(exercises[k]));
      uiState := GateUiState(appLabel, targetPackageName, steps, 0, false);
    }

    method ReplaceStep(step: ExerciseStep)
      modifies this
      ensures uiState == AfterReplaceStep(old(uiState), step) && events == old(events)
    {
      var currentState := uiState;
      var index := currentState.currentStepIndex;
      if index >= |currentState.steps| {
        return;
      }
      var newSteps := currentState.steps[index := step];
      uiState := currentState.(steps := newSteps);
    }

    method AdvanceToNextStep()
      modifies this
      ensures var o := AfterAdvanceToNextStep(old(uiState), targetPackageName);
              uiState == o.state && events == old(events) + o.emitted
    {
      var currentState := uiState;
      var nextIndex := currentState.currentStepIndex + 1;
      if nextIndex >= |currentState.steps| {
        uiState := currentState.(completed := true, showSuccess := true);
        events := events + [Completed(targetPackageName)];
      } else {
        uiState := currentState.(currentStepIndex := nextIndex);
      }
    }

    method UpdateStep(step: ExerciseStep, advance: bool)
      modifies this
      ensures var o := AfterUpdateStep(old(uiState), step, advance, targetPackageName);
              uiState == o.state && events == old(events) + o.emitted
    {
      ReplaceStep(step);
      if advance {
        AdvanceToNextStep();
      }
    }

    method OnMultipleChoiceSelected(option: string)
      modifies this
      ensures var o := AfterMultipleChoiceSelected(old(uiState), option, targetPackageName);
              uiState == o.state && events == old(events) + o.emitted
    {
      var currentState := uiState;
      var step := currentState.CurrentStep();
      if step.None? || !step.value.exercise.MultipleChoiceExercise? {
        return;
      }
      var exercise := step.value.exercise;
      var isCorrect := EqualsIgnoreCase(option, exercise.correctAnswer);
      var updatedStep := step.value.(multipleChoiceSelection := Some(option),
                                     answerState := if isCorrect then CORRECT else INCORRECT,
                                     attempts := step.value.attempts + 1);
      UpdateStep(updatedStep, isCorrect);
    }

    method OnInputChanged(text: string)
      modifies this
      ensures uiState == AfterInputChanged(old(uiState), text) && events == old(events)
    {
      var currentState := uiState;
      var step := currentState.CurrentStep();
      if step.None? || !step.value.exercise.InputExercise? {
        return;
      }
      ReplaceStep(step.value.(inputValue := text, answerState := IDLE));
    }

    method OnInputSubmitted()
      modifies this
      ensures var o := AfterInputSubmitted(old(uiState), targetPackageName);
              uiState == o.state && events == old(events) + o.emitted
    {
      var currentState := uiState;
      var step := currentState.CurrentStep();
      if step.None? || !step.value.exercise.InputExercise? {
        return;
      }
      var exercise := step.value.exercise;
      var normalizedAnswer := NormalizeAnswer(step.value.inputValue);
      var matches := AnyMatches(normalizedAnswer, exercise.acceptableAnswers);
      var updatedStep := step.value.(answerState := if matches then CORRECT else INCORRECT,
                                     attempts := step.value.attempts + 1);
      UpdateStep(updatedStep, matches);
    }

    method OnContinueToTargetApp()
      modifies this
      ensures uiState == old(uiState) && events == old(events) + [ContinueToApp(targetPackageName)]
    {
      events := events + [ContinueToApp(targetPackageName)];
    }

    method OnContinueLearning()
      modifies this
      ensures uiState == old(uiState) && events == old(events) + [ContinueLearning]
    {
      events := events + [ContinueLearning];
    }
  }
}
