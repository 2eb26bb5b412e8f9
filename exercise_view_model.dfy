/**
 * The onboarding pronunciation tutorial: listen to the word, say it well enough, then
 * like it. Each tutorial step only accepts its own action, and the steps only move on.
 *
 * Delayed advances are scheduled here and run later as separate steps (`FireScheduled`),
 * in whatever order their delays let them run.
 */
module ExerciseTutorial {
  import opened Wrappers
  import PronunciationScorer

  datatype TutorialStep = LISTEN | PRONOUNCE | FAVORITE | COMPLETED
  {
    function Ordinal(): nat {
      match this
      case LISTEN => 0
      case PRONOUNCE => 1
      case FAVORITE => 2
      case COMPLETED => 3
    }
  }

  datatype ExerciseUiState = ExerciseUiState(
    targetWord: string := "Perd\U{F3}n",
    translation: string := "Sorry",
    languageCode: string := "es",
    recognitionLanguageCode: string := "es-ES",
    isTtsReady: bool := false,
    isSpeaking: bool := false,
    isListening: bool := false,
    isFavorited: bool := false,
    pronunciationScore: Option<PronunciationScorer.PronunciationScore> := None,
    spokenWord: Option<string> := None,
    errorMessage: Option<string> := None,
    showFeedback: bool := false,
    hasPlayedSound: bool := false,
    currentTutorialStep: TutorialStep := LISTEN)

  /** A delayed action: a plain advance (after listening or liking), or dismiss-then-advance after a pass. */
  datatype Scheduled = Advance | DismissThenAdvance

  /** A request to the speech engines. */
  datatype SpeechRequest = Speak(word: string, languageCode: string) | StartRecognition(languageCode: string) | StopRecognition

  /** A speech recognition outcome, as the recogniser's result flow carries it. */
  datatype RecognitionResult = Success(matches: seq<string>) | Error(message: string)

  /** The view model's state as a value. */
  datatype TutorialState = TutorialState(ui: ExerciseUiState, scheduled: seq<Scheduled>, requests: seq<SpeechRequest>)

  const InitialState: TutorialState := TutorialState(ExerciseUiState(), [], [])

  // ---------------------------------------------------------------------------
  // The transitions
  // ---------------------------------------------------------------------------

  /** `advanceToNextStep`'s `when`. */
  function NextStep(step: TutorialStep): TutorialStep {
    match step
    case LISTEN => PRONOUNCE
    case PRONOUNCE => FAVORITE
    case FAVORITE => COMPLETED
    case COMPLETED => COMPLETED
  }

  function AfterAdvance(s: TutorialState): TutorialState {
    s.(ui := s.ui.(currentTutorialStep := NextStep(s.ui.currentTutorialStep)))
  }

  function AfterDismissFeedback(s: TutorialState): TutorialState {
    s.(ui := s.ui.(showFeedback := false))
  }

  function AfterPlayWord(s: TutorialState, word: string, languageCode: string): TutorialState {
    if s.ui.currentTutorialStep != LISTEN then s
    else s.(requests := s.requests + [Speak(word, languageCode)], ui := s.ui.(hasPlayedSound := true))
  }

  function AfterStartListening(s: TutorialState, languageCode: string): TutorialState {
    if s.ui.currentTutorialStep != PRONOUNCE then s
    else s.(ui := s.ui.(errorMessage := None, pronunciationScore := None),
            requests := s.requests + [StartRecognition(languageCode)])
  }

  function AfterStopListening(s: TutorialState): TutorialState {
    s.(requests := s.requests + [StopRecognition])
  }

  /** `toggleFavorite`: in the liking step only, set the like (not a toggle) and schedule the advance. */
  function AfterToggleFavorite(s: TutorialState): TutorialState {
    if s.ui.currentTutorialStep != FAVORITE then s
    else s.(ui := s.ui.(isFavorited := true), scheduled := s.scheduled + [Advance])
  }

  /**
   * `handleRecognitionSuccess`, given the best match among the recogniser's candidates:
   * nothing without one; otherwise show its score as feedback and, on a pass, schedule
   * dismiss-then-advance.
   */
  function AfterRecognitionSuccess(s: TutorialState, best: Option<(string, PronunciationScorer.PronunciationScore)>): TutorialState {
    match best
    case None => s
    case Some((bestMatch, score)) =>
      s.(ui := s.ui.(pronunciationScore := Some(score), spokenWord := Some(bestMatch),
                     isListening := false, showFeedback := true),
         scheduled := if score.IsPass() then s.scheduled + [DismissThenAdvance] else s.scheduled)
  }

  function AfterRecognitionError(s: TutorialState, message: string): TutorialState {
    s.(ui := s.ui.(isListening := false, errorMessage := Some(message)))
  }

  function AfterListeningChanged(s: TutorialState, isListening: bool): TutorialState {
    s.(ui := s.ui.(isListening := isListening))
  }

  /** The speaking observer: when speech ends in the listening step after a play, schedule the advance. */
  function AfterSpeakingChanged(s: TutorialState, isSpeaking: bool): TutorialState {
    var updated := s.(ui := s.ui.(isSpeaking := isSpeaking));
    if !isSpeaking && updated.ui.currentTutorialStep == LISTEN && updated.ui.hasPlayedSound then
      updated.(scheduled := updated.scheduled + [Advance])
    else updated
  }

  function AfterTtsInitialized(s: TutorialState, success: bool): TutorialState {
    if success then s.(ui := s.ui.(isTtsReady := true)) else s
  }

  /** The scheduled action at position `k` runs (a position out of range runs nothing). */
  function AfterFireScheduled(s: TutorialState, k: nat): TutorialState {
    if k >= |s.scheduled| then s
    else
      var rest := s.scheduled[..k] + s.scheduled[k + 1..];
      var s' := s.(scheduled := rest);
      match s.scheduled[k]
      case Advance => AfterAdvance(s')
      case DismissThenAdvance => AfterAdvance(AfterDismissFeedback(s'))
  }

  /** `getInstructionText`. */
  function InstructionText(step: TutorialStep): string {
    match step
    case LISTEN => "Tap the sound button to hear the word"
    case PRONOUNCE => "Now try saying it! Tap the microphone"
    case FAVORITE => "Great job! Tap the heart to save this word"
    case COMPLETED => "Excellent! Moving on..."
  }

  // ---------------------------------------------------------------------------
  // Properties
  // ---------------------------------------------------------------------------

  /**
   * The steps go LISTEN, PRONOUNCE, FAVORITE, COMPLETED; COMPLETED stays; each advance
   * raises the ordinal by one until then.
   */
  lemma NextStepOrder(step: TutorialStep)
    ensures NextStep(step).Ordinal() == if step == COMPLETED then 3 else step.Ordinal() + 1
    ensures NextStep(COMPLETED) == COMPLETED
    ensures NextStep(step).Ordinal() >= step.Ordinal()
  {
  }

  /** Advancing three times from any step reaches COMPLETED. */
  lemma ThreeAdvancesComplete(step: TutorialStep)
    ensures NextStep(NextStep(NextStep(step))) == COMPLETED
  {
  }

  /** Playing the word does nothing outside LISTEN; in LISTEN it speaks and marks the sound played. */
  lemma PlayWordGuard(s: TutorialState, word: string, languageCode: string)
    ensures var r := AfterPlayWord(s, word, languageCode);
            if s.ui.currentTutorialStep == LISTEN then
              r.ui == s.ui.(hasPlayedSound := true) && r.requests == s.requests + [Speak(word, languageCode)]
              && r.scheduled == s.scheduled
            else r == s
  {
  }

  /** Listening does nothing outside PRONOUNCE; in PRONOUNCE it clears the old error and score first. */
  lemma StartListeningGuard(s: TutorialState, languageCode: string)
    ensures var r := AfterStartListening(s, languageCode);
            if s.ui.currentTutorialStep == PRONOUNCE then
              r.ui.errorMessage.None? && r.ui.pronunciationScore.None?
              && r.ui == s.ui.(errorMessage := None, pronunciationScore := None)
              && r.requests == s.requests + [StartRecognition(languageCode)]
            else r == s
  {
  }

  /** Liking does nothing outside FAVORITE; in FAVORITE it sets the like, and doing so twice keeps it set. */
  lemma ToggleFavoriteGuard(s: TutorialState)
    ensures var r := AfterToggleFavorite(s);
            if s.ui.currentTutorialStep == FAVORITE then
              r.ui == s.ui.(isFavorited := true) && r.scheduled == s.scheduled + [Advance]
              && AfterToggleFavorite(r).ui.isFavorited
            else r == s
  {
  }

  /** Speech ending schedules an advance exactly in LISTEN after the word was played. */
  lemma SpeakingEndAdvancesOnlyAfterPlay(s: TutorialState, isSpeaking: bool)
    ensures var r := AfterSpeakingChanged(s, isSpeaking);
            r.ui == s.ui.(isSpeaking := isSpeaking)
            && (r.scheduled == s.scheduled + [Advance]
                <==> !isSpeaking && s.ui.currentTutorialStep == LISTEN && s.ui.hasPlayedSound)
            && (r.scheduled == s.scheduled
                <==> !(!isSpeaking && s.ui.currentTutorialStep == LISTEN && s.ui.hasPlayedSound))
  {
  }

  /**
   * Recognition success with no candidates changes nothing; otherwise the best match's
   * word and score are shown, listening stops, and an advance is scheduled iff it passes.
   */
  lemma {:induction false} RecognitionSuccessOutcome(s: TutorialState, bestMatch: string, score: PronunciationScorer.PronunciationScore)
    ensures AfterRecognitionSuccess(s, None) == s
    ensures var r := AfterRecognitionSuccess(s, Some((bestMatch, score)));
            r.ui.pronunciationScore == Some(score) && r.ui.spokenWord == Some(bestMatch)
            && r.ui.showFeedback && !r.ui.isListening
            && r.ui.currentTutorialStep == s.ui.currentTutorialStep
            && (score.IsPass() <==> r.scheduled == s.scheduled + [DismissThenAdvance])
            && (!score.IsPass() <==> r.scheduled == s.scheduled)
  {
    var r := AfterRecognitionSuccess(s, Some((bestMatch, score)));
    if score.IsPass() {
      assert |r.scheduled| == |s.scheduled| + 1;
    }
  }

  /** Dismissing the feedback changes only `showFeedback`. */
  lemma DismissOnlyHidesFeedback(s: TutorialState)
    ensures AfterDismissFeedback(s).ui == s.ui.(showFeedback := false)
    ensures AfterDismissFeedback(s).scheduled == s.scheduled && AfterDismissFeedback(s).requests == s.requests
  {
  }

  /** No handler moves the tutorial step; only the scheduled actions do. */
  lemma HandlersKeepStep(s: TutorialState, word: string, languageCode: string, isSpeaking: bool,
                         best: Option<(string, PronunciationScorer.PronunciationScore)>)
    ensures AfterPlayWord(s, word, languageCode).ui.currentTutorialStep == s.ui.currentTutorialStep
    ensures AfterStartListening(s, languageCode).ui.currentTutorialStep == s.ui.currentTutorialStep
    ensures AfterToggleFavorite(s).ui.currentTutorialStep == s.ui.currentTutorialStep
    ensures AfterSpeakingChanged(s, isSpeaking).ui.currentTutorialStep == s.ui.currentTutorialStep
    ensures AfterRecognitionSuccess(s, best).ui.currentTutorialStep == s.ui.currentTutorialStep
  {
  }

  /** A scheduled action moves the tutorial at most one step on, never back. */
  lemma {:induction false} FireMovesForward(s: TutorialState, k: nat)
    ensures var r := AfterFireScheduled(s, k);
            r.ui.currentTutorialStep.Ordinal() >= s.ui.currentTutorialStep.Ordinal()
            && (k < |s.scheduled| ==> r.ui.currentTutorialStep == NextStep(s.ui.currentTutorialStep)
                                      && |r.scheduled| == |s.scheduled| - 1)
  {
    NextStepOrder(s.ui.currentTutorialStep);
  }

  /** Each step has its own instruction. */
  lemma InstructionsDistinct(a: TutorialStep, b: TutorialStep)
    ensures InstructionText(a) == InstructionText(b) <==> a == b
  {
    var listen, pronounce := InstructionText(LISTEN), InstructionText(PRONOUNCE);
    var favorite, completed := InstructionText(FAVORITE), InstructionText(COMPLETED);
    assert listen == "Tap the sound button to hear the word" && listen[0] == 'T';
    assert pronounce == "Now try saying it! Tap the microphone" && pronounce[0] == 'N';
    assert favorite == "Great job! Tap the heart to save this word" && favorite[0] == 'G';
    assert completed == "Excellent! Moving on..." && completed[0] == 'E';
  }

  /**
   * The happy path: play, hear it end, fire the advance, pass the pronunciation, fire the
   * dismiss-then-advance, like, fire the advance: the tutorial is COMPLETED.
   */
  lemma {:induction false} HappyPath(bestMatch: string, score: PronunciationScorer.PronunciationScore)
    requires score.IsPass()
    ensures var s1 := AfterSpeakingChanged(AfterPlayWord(InitialState, "Perd\U{F3}n", "es"), false);
            var s2 := AfterFireScheduled(s1, 0);
            var s3 := AfterFireScheduled(AfterRecognitionSuccess(AfterStartListening(s2, "es-ES"), Some((bestMatch, score))), 0);
            var s4 := AfterFireScheduled(AfterToggleFavorite(s3), 0);
            s2.ui.currentTutorialStep == PRONOUNCE
            && s3.ui.currentTutorialStep == FAVORITE && !s3.ui.showFeedback
            && s4.ui.currentTutorialStep == COMPLETED && s4.ui.isFavorited
            && s4.scheduled == []
  {
    var s1 := AfterSpeakingChanged(AfterPlayWord(InitialState, "Perd\U{F3}n", "es"), false);
    assert s1.scheduled == [Advance];
    var s2 := AfterFireScheduled(s1, 0);
    assert s2.scheduled == [];
    var heard := AfterRecognitionSuccess(AfterStartListening(s2, "es-ES"), Some((bestMatch, score)));
    assert heard.scheduled == [DismissThenAdvance];
    var s3 := AfterFireScheduled(heard, 0);
    assert s3.scheduled == [];
    var liked := AfterToggleFavorite(s3);
    assert liked.scheduled == [Advance];
  }

  // ---------------------------------------------------------------------------
  // The view model
  // ---------------------------------------------------------------------------

  class ExerciseViewModel {
    var uiState: ExerciseUiState
    var scheduled: seq<Scheduled>
    var requests: seq<SpeechRequest>

    function State(): TutorialState
      reads this
    {
      TutorialState(uiState, scheduled, requests)
    }

    constructor()
      ensures State() == InitialState
    {
      uiState := ExerciseUiState();
      scheduled := [];
      requests := [];
    }

    method PlayWord(word: string, languageCode: string := "es")
      modifies this
      ensures State() == AfterPlayWord(old(State()), word, languageCode)
    {
      if uiState.currentTutorialStep != LISTEN {
        return;
      }
      requests := requests + [Speak(word, languageCode)];
      uiState := uiState.(hasPlayedSound := true);
    }

    method StartListening(languageCode: string := "es-ES")
      modifies this
      ensures State() == AfterStartListening(old(State()), languageCode)
    {
      if uiState.currentTutorialStep != PRONOUNCE {
        return;
      }
      uiState := uiState.(errorMessage := None, pronunciationScore := None);
      requests := requests + [StartRecognition(languageCode)];
    }

    method StopListening()
      modifies this
      ensures State() == AfterStopListening(old(State()))
    {
      requests := requests + [StopRecognition];
    }

    /** `handleRecognitionSuccess`; `best` is the scorer's best match it acted on. */
    method HandleRecognitionSuccess(matches: seq<string>)
      returns (best: Option<(string, PronunciationScorer.PronunciationScore)>)
      modifies this
      ensures best.None? <==> matches == []
      ensures best.Some? ==>
                exists k: nat :: PronunciationScorer.IsFirstBest(old(uiState).targetWord, matches, k)
                         && best.value == (matches[k], PronunciationScorer.Score(old(uiState).targetWord, matches[k]))
      ensures State() == AfterRecognitionSuccess(old(State()), best)
    {
      var targetWord := uiState.targetWord;
      best := PronunciationScorer.FindBestMatch(targetWord, matches);
      if best.Some? {
        var (bestMatch, score) := best.value;
        uiState := uiState.(pronunciationScore := Some(score), spokenWord := Some(bestMatch),
                            isListening := false, showFeedback := true);
        if score.IsPass() {
          scheduled := scheduled + [DismissThenAdvance];
        }
      }
    }

    /** The recognition-result collector; a missing result does nothing. */
    method OnRecognitionResult(result: Option<RecognitionResult>)
      modifies this
      ensures result.None? ==> State() == old(State())
      ensures result.Some? && result.value.Error? ==> State() == AfterRecognitionError(old(State()), result.value.message)
      ensures result.Some? && result.value.Success? && result.value.matches == [] ==> State() == old(State())
      ensures result.Some? && result.value.Success? && result.value.matches != [] ==>
                uiState.showFeedback && !uiState.isListening
                && uiState.spokenWord.Some? && uiState.spokenWord.value in result.value.matches
      ensures result.Some? && result.value.Success? && result.value.matches != [] ==>
                exists k: nat :: PronunciationScorer.IsFirstBest(old(uiState).targetWord, result.value.matches, k)
                         && State() == AfterRecognitionSuccess(old(State()),
                              Some((result.value.matches[k], PronunciationScorer.Score(old(uiState).targetWord, result.value.matches[k]))))
      ensures result.Some? && result.value.Success? ==>
                uiState.currentTutorialStep == old(uiState).currentTutorialStep
    {
      match result
      case None =>
      case Some(Error(message)) =>
        uiState := uiState.(isListening := false, errorMessage := Some(message));
      case Some(Success(matches)) =>
        var best := HandleRecognitionSuccess(matches);
    }

    method OnListeningChanged(isListening: bool)
      modifies this
      ensures State() == AfterListeningChanged(old(State()), isListening)
    {
      uiState := uiState.(isListening := isListening);
    }

    method OnSpeakingChanged(isSpeaking: bool)
      modifies this
      ensures State() == AfterSpeakingChanged(old(State()), isSpeaking)
    {
      uiState := uiState.(isSpeaking := isSpeaking);
      if !isSpeaking && uiState.currentTutorialStep == LISTEN && uiState.hasPlayedSound {
        scheduled := scheduled + [Advance];
      }
    }

    method OnTtsInitialized(success: bool)
      modifies this
      ensures State() == AfterTtsInitialized(old(State()), success)
    {
      if success {
        uiState := uiState.(isTtsReady := true);
      }
    }

    method ToggleFavorite()
      modifies this
      ensures State() == AfterToggleFavorite(old(State()))
    {
      if uiState.currentTutorialStep != FAVORITE {
        return;
      }
      uiState := uiState.(isFavorited := true);
      scheduled := scheduled + [Advance];
    }

    method AdvanceToNextStep()
      modifies this
      ensures State() == AfterAdvance(old(State()))
    {
      var nextStep := NextStep(uiState.currentTutorialStep);
      uiState := uiState.(currentTutorialStep := nextStep);
    }

    method DismissFeedback()
      modifies this
      ensures State() == AfterDismissFeedback(old(State()))
    {
      uiState := uiState.(showFeedback := false);
    }

    /** The delayed action at position `k` runs now. */
    method FireScheduled(k: nat)
      modifies this
      ensures State() == AfterFireScheduled(old(State()), k)
    {
      if k >= |scheduled| {
        return;
      }
      var action := scheduled[k];
      scheduled := scheduled[..k] + scheduled[k + 1..];
      if action == DismissThenAdvance {
        DismissFeedback();
      }
      AdvanceToNextStep();
    }

    method GetInstructionText() returns (text: string)
      ensures text == InstructionText(uiState.currentTutorialStep)
    {
      text := InstructionText(uiState.currentTutorialStep);
    }
  }
}
