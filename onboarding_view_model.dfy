/**
 * The onboarding carousel: seven screens in a fixed order. Each screen's continue button
 * moves to the next screen (whatever screen is showing), back moves to the previous one,
 * and the last screen's continue asks for onboarding to be recorded as completed.
 */
module Onboarding {
  import opened Wrappers

  datatype OnboardingStep =
    | Welcome
    | Unlocks
    | Distraction
    | Outro
    | InstagramIntro
    | InstagramNotification
    | Exercise
  {
    /** The screen's place in the carousel, from 0. */
    function Position(): nat {
      match this
      case Welcome => 0
      case Unlocks => 1
      case Distraction => 2
      case Outro => 3
      case InstagramIntro => 4
      case InstagramNotification => 5
      case Exercise => 6
    }
  }

  const InitialStep: OnboardingStep := Welcome

  /**
   * The screen that screen `from`'s continue handler shows: the next one; none for the
   * exercise screen, whose continue only asks for completion.
   */
  function ContinueTarget(from: OnboardingStep): Option<OnboardingStep> {
    match from
    case Welcome => Some(Unlocks)
    case Unlocks => Some(Distraction)
    case Distraction => Some(Outro)
    case Outro => Some(InstagramIntro)
    case InstagramIntro => Some(InstagramNotification)
    case InstagramNotification => Some(Exercise)
    case Exercise => None
  }

  /** `goBack`'s `when`: the previous screen, and Welcome stays. */
  function GoBack(step: OnboardingStep): OnboardingStep {
    match step
    case Unlocks => Welcome
    case Distraction => Unlocks
    case Outro => Distraction
    case InstagramIntro => Outro
    case InstagramNotification => InstagramIntro
    case Exercise => InstagramNotification
    case Welcome => Welcome
  }

  /** The onboarding state: the screen shown and the completion writes requested so far. */
  datatype OnboardingState = OnboardingState(currentStep: OnboardingStep, completionRequests: nat)

  /** The continue handler of screen `from`, pressed while `s` is showing. */
  function AfterContinue(s: OnboardingState, from: OnboardingStep): OnboardingState {
    match ContinueTarget(from)
    case Some(next) => s.(currentStep := next)
    case None => s.(completionRequests := s.completionRequests + 1)
  }

  function AfterGoBack(s: OnboardingState): OnboardingState {
    s.(currentStep := GoBack(s.currentStep))
  }

  // ---------------------------------------------------------------------------
  // Properties
  // ---------------------------------------------------------------------------

  /**
   * A continue sets a fixed screen, the one after its own, whatever is showing; the
   * exercise screen's continue leaves the screen alone and requests completion once.
   */
  lemma ContinueIsFixedSuccessor(s: OnboardingState, from: OnboardingStep)
    ensures from != Exercise ==>
              AfterContinue(s, from).currentStep.Position() == from.Position() + 1
              && AfterContinue(s, from).completionRequests == s.completionRequests
    ensures from == Exercise ==>
              AfterContinue(s, from).currentStep == s.currentStep
              && AfterContinue(s, from).completionRequests == s.completionRequests + 1
  {
  }

  /** Back moves one screen towards Welcome and stops there. */
  lemma GoBackIsPredecessor(step: OnboardingStep)
    ensures step == Welcome ==> GoBack(step) == Welcome
    ensures step != Welcome ==> GoBack(step).Position() + 1 == step.Position()
  {
  }

  /** For every screen before the exercise, back after its continue returns to it. */
  lemma GoBackUndoesContinue(s: OnboardingState, from: OnboardingStep)
    requires from != Exercise
    ensures AfterGoBack(AfterContinue(s, from)).currentStep == from
  {
  }

  /** Positions identify screens, so the order above is a total order of the seven screens. */
  lemma PositionIsInjective(a: OnboardingStep, b: OnboardingStep)
    ensures a.Position() == b.Position() <==> a == b
    ensures a.Position() < 7
  {
  }

  /** The six continues in order lead from Welcome to the exercise screen. */
  lemma ContinuesReachExercise(s: OnboardingState)
    requires s.currentStep == InitialStep
    ensures var s1 := AfterContinue(AfterContinue(AfterContinue(s, Welcome), Unlocks), Distraction);
            var s2 := AfterContinue(AfterContinue(AfterContinue(s1, Outro), InstagramIntro), InstagramNotification);
            s2.currentStep == Exercise && s2.completionRequests == s.completionRequests
  {
  }

  // ---------------------------------------------------------------------------
  // The view model
  // ---------------------------------------------------------------------------

  class OnboardingViewModel {
    var currentStep: OnboardingStep
    /** The number of `setOnboardingCompleted(true)` writes launched. */
    var completionRequests: nat

    function State(): OnboardingState
      reads this
    {
      OnboardingState(currentStep, completionRequests)
    }

    constructor()
      ensures currentStep == InitialStep && completionRequests == 0
    {
      currentStep := InitialStep;
      completionRequests := 0;
    }

    method OnWelcomeContinue()
      modifies this
      ensures State() == AfterContinue(old(State()), Welcome)
    {
      currentStep := Unlocks;
    }

    method OnUnlocksContinue()
      modifies this
      ensures State() == AfterContinue(old(State()), Unlocks)
    {
      currentStep := Distraction;
    }

    method OnDistractionContinue()
      modifies this
      ensures State() == AfterContinue(old(State()), Distraction)
    {
      currentStep := Outro;
    }

    method OnOutroContinue()
      modifies this
      ensures State() == AfterContinue(old(State()), Outro)
    {
      currentStep := InstagramIntro;
    }

    method OnInstagramIntroContinue()
      modifies this
      ensures State() == AfterContinue(old(State()), InstagramIntro)
    {
      currentStep := InstagramNotification;
    }

    method OnInstagramNotificationContinue()
      modifies this
      ensures State() == AfterContinue(old(State()), InstagramNotification)
    {
      currentStep := Exercise;
    }

    method OnExerciseContinue()
      modifies this
      ensures State() == AfterContinue(old(State()), Exercise)
    {
      SetCompleted();
    }

    method GoBack()
      modifies this
      ensures State() == AfterGoBack(old(State()))
    {
      match currentStep
      case Unlocks => currentStep := Welcome;
      case Distraction => currentStep := Unlocks;
      case Outro => currentStep := Distraction;
      case InstagramIntro => currentStep := Outro;
      case InstagramNotification => currentStep := InstagramIntro;
      case Exercise => currentStep := InstagramNotification;
      case Welcome =>
    }

    method SetCompleted()
      modifies this
      ensures currentStep == old(currentStep) && completionRequests == old(completionRequests) + 1
    {
      completionRequests := completionRequests + 1;
    }
  }
}
