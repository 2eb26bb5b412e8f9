/**
 * The two kinds of exercise a gate session can ask: pick one of several options, or
 * type the answer. Both kinds carry an id, a prompt and a correct answer.
 */
module ExerciseModel {
  import opened Wrappers

  datatype Exercise =
    | MultipleChoiceExercise(
        id: string,
        prompt: string,
        options: seq<string>,
        correctAnswer: string,
        explanation: Option<string> := None)
    | InputExercise(
        id: string,
        prompt: string,
        correctAnswer: string,
        acceptableAnswers: seq<string> := [correctAnswer],
        hint: Option<string> := None)

  /** An input exercise built without an explicit answer list accepts exactly its correct answer. */
  lemma InputExerciseDefaults(id: string, prompt: string, correctAnswer: string)
    ensures InputExercise(id, prompt, correctAnswer).acceptableAnswers == [correctAnswer]
    ensures InputExercise(id, prompt, correctAnswer).hint == None
  {
  }

  /** A choice exercise built without an explanation has none. */
  lemma MultipleChoiceExerciseDefaults(id: string, prompt: string, options: seq<string>, correctAnswer: string)
    ensures MultipleChoiceExercise(id, prompt, options, correctAnswer).explanation == None
  {
  }

  /**
   * An exercise whose correct answer is itself accepted: among the options of a choice
   * exercise, among the acceptable answers of an input exercise.
   */
  predicate AnswerIsOffered(e: Exercise) {
    match e
    case MultipleChoiceExercise(_, _, options, correctAnswer, _) => correctAnswer in options
    case InputExercise(_, _, correctAnswer, acceptableAnswers, _) => correctAnswer in acceptableAnswers
  }

  /** The default answer list makes every input exercise offer its own answer. */
  lemma DefaultInputOffersAnswer(id: string, prompt: string, correctAnswer: string)
    ensures AnswerIsOffered(InputExercise(id, prompt, correctAnswer))
  {
  }
}
