# Tokki core in Dafny

Tokki is an Android app that interrupts a blocked app with a short language exercise, the
"gate". This project models the decision logic behind it and proves properties of the model:

- **Session policy.** A gate is due for a package when it is not already showing and its
  cooldown has expired.
- **Accessibility service.** It filters window events, marks a gate active, queues the
  launch, and records the showing. A completed or dismissed broadcast re-enables gating.
- **Gate screen.** The view model grades multiple-choice and typed answers, advances through
  the exercises and emits the completion event.
- **Gate activity.** It sends exactly one ending broadcast, either completed or dismissed.
- **Pronunciation scorer.** It scores by Levenshtein distance, as a recursive specification
  and as an imperative dynamic-programming table proved equal to it. It maps the similarity
  to grades and picks the best recognition candidate.
- **Lesson repository.** It holds the authored exercise pools. The random shuffle is an
  arbitrary permutation parameter.
- **Onboarding.** There is a seven-screen carousel, and a pronunciation tutorial whose
  delayed advances are separate events.
- **Preference store.** It is a map from key names to typed values. Its flows are decoders
  over that map, and each edit is one update of the map.
- **Home screen.** `updateAppList` maps and sorts the app list, and `buildPermissionItems`
  builds the permission cards.

The app's Kotlin files are written in three styles, and the model follows each one.
- Classes that update their fields are Dafny classes. Each method's `ensures` gives the new
  state as a pure `After…` transition. The lemmas are stated over those transitions.
- The Levenshtein table, `findBestMatch` and `clearAllGateTimestamps` keep their loops.
- Pure code becomes functions.

Each event handler is one atomic step.

Where the intended design and the code differ, the model follows the code:
- a gate session can emit `Completed` again after completion (`Gate.CompletionCanRepeat`);
- an empty exercise list leaves index 0, not completed;
- the recorded showing time is the event-time clock reading, not the launch time;
- the EXCELLENT feedback message ends in the four characters the source file holds
  (U+00F0 U+0178 U+017D U+2030, an emoji's UTF-8 bytes read as Windows-1252), not the emoji.

The one exception is `onDestroy` (see "## Findings"). The activity class carries both
versions. `GateHost.GateActivity.OnDestroyAsWritten` is the code as written; its `requires`
is the `lateinit` read, which fails after an early exit. `GateHost.GateActivity.OnDestroy` is
the guarded version, and the rest of the model uses it.

Two names change because `label` is a reserved word in Dafny:
- the `label` of `AppInfo` and `AppListItem` is the field `appLabel`;
- the `label` local of the service is the parameter `appLabel`.

## Model

| member | source | states |
|---|---|---|
| Session.ActiveIsNeverGated | app/src/main/java/com/fouwaz/tokki_learn/session/SessionPolicy.kt:19-22 | an active package is never gated, for every clock reading and cooldown |
| Session.UnseenIsAlwaysGated | app/src/main/java/com/fouwaz/tokki_learn/session/SessionPolicy.kt:23-24 | an inactive package with no recorded showing is always gated |
| Session.ShownDecision | app/src/main/java/com/fouwaz/tokki_learn/session/SessionPolicy.kt:23-25 | after `markGateShown(p, t)`, the answer for inactive `p` is `now - t >= cooldown*60000` (both directions) |
| Session.CooldownBoundary | app/src/main/java/com/fouwaz/tokki_learn/session/SessionPolicy.kt:25 | one millisecond before the cooldown ends the answer is false; at its end it is true |
| Session.GateDueIsMonotone | app/src/main/java/com/fouwaz/tokki_learn/session/SessionPolicy.kt:19-26 | once a gate is due it stays due as time passes |
| Session.MarkIdempotent | app/src/main/java/com/fouwaz/tokki_learn/session/SessionPolicy.kt:28-34 | marking active twice, or inactive twice, equals doing it once |
| Session.MarkInactiveOfAbsentIsNoOp | app/src/main/java/com/fouwaz/tokki_learn/session/SessionPolicy.kt:32-34 | removing a package that is not active changes nothing |
| Session.ActiveThenInactiveRestores | app/src/main/java/com/fouwaz/tokki_learn/session/SessionPolicy.kt:28-34 | active then inactive restores every package's earlier answer |
| Session.UpdatesAreLocal | app/src/main/java/com/fouwaz/tokki_learn/session/SessionPolicy.kt:28-38 | each of the three marks leaves every other package's answer unchanged |
| Session.MarkShownOverwrites | app/src/main/java/com/fouwaz/tokki_learn/session/SessionPolicy.kt:36-38 | `markGateShown` stores the time for that package, keeps the other records and the active set |
| Session.RefreshReplaces | app/src/main/java/com/fouwaz/tokki_learn/session/SessionPolicy.kt:14-17 | a refresh replaces the records with the given map and keeps the active set |
| Session.ScenarioCooldownExpired | app/src/test/java/com/fouwaz/tokki_learn/session/SessionPolicyTest.kt:11-21 | gated at first, not 10 minutes after a showing, gated again 16 minutes after, with a 15-minute cooldown |
| Session.ScenarioActiveBlocksDuplicates | app/src/test/java/com/fouwaz/tokki_learn/session/SessionPolicyTest.kt:23-30 | an active package is not gated, and is gated once marked inactive |
| Session.SessionPolicy.ShouldShowGate | app/src/main/java/com/fouwaz/tokki_learn/session/SessionPolicy.kt:19-26 | the method's answer is the due-rule on the object's fields: false when active, true when never shown |
| Session.SessionPolicy.MarkGateShown | app/src/main/java/com/fouwaz/tokki_learn/session/SessionPolicy.kt:36-38 | the fields become the pure `MarkGateShown` of the old state |
| PronunciationScorer.EditDistanceIsMinimal | app/src/main/java/com/fouwaz/tokki_learn/speech/PronunciationScorer.kt:53-79 | no edit script turning one word into the other costs less than the distance |
| PronunciationScorer.OptimalScript | app/src/main/java/com/fouwaz/tokki_learn/speech/PronunciationScorer.kt:53-79 | an edit script exists whose cost is exactly the distance |
| PronunciationScorer.EditDistanceSymmetric | app/src/main/java/com/fouwaz/tokki_learn/speech/PronunciationScorer.kt:53-79 | the distance does not depend on argument order |
| PronunciationScorer.EditDistanceBounds | app/src/main/java/com/fouwaz/tokki_learn/speech/PronunciationScorer.kt:53-79 | the distance lies between the length difference and the longer length |
| PronunciationScorer.EditDistanceZeroIffEqual | app/src/main/java/com/fouwaz/tokki_learn/speech/PronunciationScorer.kt:53-79 | the distance is 0 exactly for equal words |
| PronunciationScorer.EditDistanceToEmpty | app/src/main/java/com/fouwaz/tokki_learn/speech/PronunciationScorer.kt:59-65 | the distance to the empty word is the length (the table's first row and column) |
| PronunciationScorer.TableEntryIsPrefixDistance | app/src/main/java/com/fouwaz/tokki_learn/speech/PronunciationScorer.kt:67-76 | every cell of the recurrence is the distance of the two prefixes |
| PronunciationScorer.FillRow | app/src/main/java/com/fouwaz/tokki_learn/speech/PronunciationScorer.kt:67-76 | filling row i makes rows 0..i correct and leaves the other rows alone |
| PronunciationScorer.LevenshteinDistance | app/src/main/java/com/fouwaz/tokki_learn/speech/PronunciationScorer.kt:53-79 | the array algorithm returns the edit distance |
| PronunciationScorer.Similarity | app/src/main/java/com/fouwaz/tokki_learn/speech/PronunciationScorer.kt:22-30 | similarity lies in 0..100 and is 100 exactly for equal words (two empty words included) |
| PronunciationScorer.GradeOf | app/src/main/java/com/fouwaz/tokki_learn/speech/PronunciationScorer.kt:33-38 | each grade holds exactly on its band: 90 and up, 75 to 90, 60 to 75, below 60 |
| PronunciationScorer.Score | app/src/main/java/com/fouwaz/tokki_learn/speech/PronunciationScorer.kt:17-46 | keeps both words, accuracy in 0..100 and 100 exactly when the normalized words agree; passing iff not NEEDS_PRACTICE |
| PronunciationScorer.AcceptableAtDefaultIsGoodOrBetter | app/src/main/java/com/fouwaz/tokki_learn/speech/PronunciationScorer.kt:88-91 | acceptable at the default threshold iff graded GOOD or EXCELLENT, and then passing |
| PronunciationScorer.ScoreSymmetric | app/src/main/java/com/fouwaz/tokki_learn/speech/PronunciationScorer.kt:17-46 | swapping target and spoken word keeps accuracy and grade |
| PronunciationScorer.ScoreOfSameWord | app/src/main/java/com/fouwaz/tokki_learn/speech/PronunciationScorer.kt:18-19 | words equal up to case and surrounding whitespace score 100 and EXCELLENT |
| PronunciationScorer.FeedbackMessagesDistinct | app/src/main/java/com/fouwaz/tokki_learn/speech/PronunciationScorer.kt:129-135 | two scores share a feedback message iff they share a grade |
| PronunciationScorer.FirstBestUnique | app/src/main/java/com/fouwaz/tokki_learn/speech/PronunciationScorer.kt:105-111 | at most one index is the first of the highest accuracy |
| PronunciationScorer.FindBestMatch | app/src/main/java/com/fouwaz/tokki_learn/speech/PronunciationScorer.kt:99-114 | none iff no candidates; otherwise the first candidate of highest accuracy with its score |
| ExerciseModel.InputExerciseDefaults | app/src/main/java/com/fouwaz/tokki_learn/lesson/model/Exercise.kt:18-22 | an input exercise's default accepted answers are its correct answer alone, and its hint is null |
| ExerciseModel.MultipleChoiceExerciseDefaults | app/src/main/java/com/fouwaz/tokki_learn/lesson/model/Exercise.kt:10-14 | a multiple-choice exercise's explanation defaults to null |
| ExerciseModel.DefaultInputOffersAnswer | app/src/main/java/com/fouwaz/tokki_learn/lesson/model/Exercise.kt:21 | with the default list, the correct answer is accepted |
| LessonRepository.Pool | app/src/main/java/com/fouwaz/tokki_learn/lesson/LessonRepository.kt:69-73 | Spanish and French choose their own authored pools |
| LessonRepository.Shuffled | app/src/main/java/com/fouwaz/tokki_learn/lesson/LessonRepository.kt:77-82 | the shuffle keeps the length and places pool element `perm[i]` at `i` |
| LessonRepository.ShuffledIsPermutation | app/src/main/java/com/fouwaz/tokki_learn/lesson/LessonRepository.kt:77-82 | the shuffle is a permutation of the pool (same multiset) |
| LessonRepository.Select | app/src/main/java/com/fouwaz/tokki_learn/lesson/LessonRepository.kt:75-82 | an empty pool gives nothing; otherwise the first min(2, size) shuffled exercises |
| LessonRepository.SelectionIsSubMultiset | app/src/main/java/com/fouwaz/tokki_learn/lesson/LessonRepository.kt:77-82 | the selection only holds pool exercises, none more often than in the pool |
| LessonRepository.SelectionHasUniqueIds | app/src/main/java/com/fouwaz/tokki_learn/lesson/LessonRepository.kt:77-82 | selecting from a pool with distinct ids gives distinct ids |
| LessonRepository.AuthoredPoolsWellFormed | app/src/main/java/com/fouwaz/tokki_learn/lesson/LessonRepository.kt:10-67 | each authored pool has 4 exercises with distinct ids, each accepting its own correct answer |
| LessonRepository.QuickGateAsksTwo | app/src/main/java/com/fouwaz/tokki_learn/lesson/LessonRepository.kt:69-86 | a quick gate asks exactly 2 distinct exercises from the language's pool |
| Gate.GateUiState.CurrentStep | app/src/main/java/com/fouwaz/tokki_learn/gate/GateViewModel.kt:161-162 | the current step exists iff the index is in range, and is the step at the index |
| Gate.ProgressLabelReadsBack | app/src/main/java/com/fouwaz/tokki_learn/gate/GateViewModel.kt:164-165 | the label parses back as "index+1/total" |
| Gate.AnyMatches | app/src/main/java/com/fouwaz/tokki_learn/gate/GateViewModel.kt:65-68 | true iff some accepted answer normalizes to the typed text's normal form |
| Gate.LoadedState | app/src/main/java/com/fouwaz/tokki_learn/gate/GateViewModel.kt:84-96 | one fresh step per exercise, at index 0, not completed |
| Gate.EmptyAndLoadedSatisfyInvariant | app/src/main/java/com/fouwaz/tokki_learn/gate/GateViewModel.kt:84-96 | the empty and the loaded state satisfy the session invariant |
| Gate.HandlersPreserveInvariant | app/src/main/java/com/fouwaz/tokki_learn/gate/GateViewModel.kt:37-74 | the three answer handlers keep the invariant: steps before the index correct, index in range unless completed |
| Gate.UpdateStepPreservesInvariant | app/src/main/java/com/fouwaz/tokki_learn/gate/GateViewModel.kt:98-103 | replacing the current step and advancing on a correct answer keep the invariant |
| Gate.CompletionMeansAllCorrect | app/src/main/java/com/fouwaz/tokki_learn/gate/GateViewModel.kt:115-129 | a handler emits only `Completed(target)`, and only once every step is answered correctly |
| Gate.HandlersIgnoreWrongStep | app/src/main/java/com/fouwaz/tokki_learn/gate/GateViewModel.kt:37-74 | a handler for the other exercise kind, or with no current step, changes nothing |
| Gate.ReplaceStepOnlyTouchesCurrent | app/src/main/java/com/fouwaz/tokki_learn/gate/GateViewModel.kt:105-113 | only the slot at the index is overwritten; an index out of range leaves the state unchanged |
| Gate.AdvanceCases | app/src/main/java/com/fouwaz/tokki_learn/gate/GateViewModel.kt:115-129 | on the last step, completed with success shown and `Completed` emitted; otherwise the index moves on by one |
| Gate.ChoiceGrading | app/src/main/java/com/fouwaz/tokki_learn/gate/GateViewModel.kt:37-48 | records the choice, grades it correct iff it equals the answer ignoring case, counts an attempt, and advances or completes only when correct |
| Gate.InputChangedStoresText | app/src/main/java/com/fouwaz/tokki_learn/gate/GateViewModel.kt:50-59 | typing stores the text and resets the grade to IDLE, touching no other step |
| Gate.InputGrading | app/src/main/java/com/fouwaz/tokki_learn/gate/GateViewModel.kt:61-74 | correct iff some accepted answer matches after trim and lowercase; counts an attempt; moves on iff correct |
| Gate.CompletionCanRepeat | app/src/main/java/com/fouwaz/tokki_learn/gate/GateViewModel.kt:61-74 | a completed session answering correctly again emits `Completed` again |
| Accessibility.FilteredEventsChangeNothing | app/src/main/java/com/fouwaz/tokki_learn/services/TokiAccessibilityService.kt:89-101 | a null event, another type, no package, this app, or an unblocked app change nothing |
| Accessibility.EventLaunchesIffDue | app/src/main/java/com/fouwaz/tokki_learn/services/TokiAccessibilityService.kt:103-109 | for a blocked foreign app, a launch is queued and the gate marked active iff the policy says due, with every other field kept; otherwise nothing changes |
| Accessibility.RepeatEventLaunchesNothing | app/src/main/java/com/fouwaz/tokki_learn/services/TokiAccessibilityService.kt:104-108 | a second event for a gated package queues nothing, before and after the launch runs |
| Accessibility.LaunchRecordsEventTime | app/src/main/java/com/fouwaz/tokki_learn/services/TokiAccessibilityService.kt:109-114 | the launch opens the gate and stores and caches the event's clock reading |
| Accessibility.PersistedShowingMatchesCache | app/src/main/java/com/fouwaz/tokki_learn/services/TokiAccessibilityService.kt:112-113 | the showing written to the store decodes to the same records the policy caches |
| Accessibility.ReceiverMarksInactive | app/src/main/java/com/fouwaz/tokki_learn/services/TokiAccessibilityService.kt:66-73 | a completed or dismissed intent with a package marks it inactive; any other intent changes nothing |
| Accessibility.EndBroadcastReenablesGating | app/src/main/java/com/fouwaz/tokki_learn/services/TokiAccessibilityService.kt:66-73 | after the ending broadcast, the package is inactive and its gate is due by the cooldown alone |
| Accessibility.NothingGatedInitially | app/src/main/java/com/fouwaz/tokki_learn/services/TokiAccessibilityService.kt:30-31 | with the starting values, no event opens a gate, and the cooldown is 15 |
| Accessibility.TimestampsReplaceCache | app/src/main/java/com/fouwaz/tokki_learn/services/TokiAccessibilityService.kt:57-61 | a timestamp emission replaces the policy's records and nothing else |
| GateHost.CreateEstablishesInvariant | app/src/main/java/com/fouwaz/tokki_learn/gate/GateActivity.kt:31-43 | `onCreate` leaves a state with no broadcast and a collector only when both extras are present |
| GateHost.EarlyExit | app/src/main/java/com/fouwaz/tokki_learn/gate/GateActivity.kt:37-40 | a missing or empty extra finishes the activity without assigning or collecting |
| GateHost.NotifySendsOnce | app/src/main/java/com/fouwaz/tokki_learn/gate/GateActivity.kt:100-109 | the first notification broadcasts completion; a second changes nothing |
| GateHost.EventPreservesInvariant | app/src/main/java/com/fouwaz/tokki_learn/gate/GateActivity.kt:54-72 | handling a gate event keeps at most one broadcast |
| GateHost.EventDispatch | app/src/main/java/com/fouwaz/tokki_learn/gate/GateActivity.kt:54-72 | `Completed` notifies; continue-to-app notifies, launches the target when it has a launch intent, and finishes; continue-learning opens the main screen and finishes |
| GateHost.BackIsSwallowed | app/src/main/java/com/fouwaz/tokki_learn/gate/GateActivity.kt:45-52 | back does nothing after a successful `onCreate` |
| GateHost.BroadcastCountAppend | app/src/main/java/com/fouwaz/tokki_learn/gate/GateActivity.kt:89-109 | broadcasts add up over concatenated effect logs |
| GateHost.DestroyAfterEarlyExitReadsUnassignedTarget | app/src/main/java/com/fouwaz/tokki_learn/gate/GateActivity.kt:89-98 | after an early exit, the as-written `onDestroy`'s precondition (target assigned or completion sent) fails |
| GateHost.DestroySendsDismissedIffNotCompleted | app/src/main/java/com/fouwaz/tokki_learn/gate/GateActivity.kt:89-98 | the guarded `onDestroy` broadcasts dismissal iff completion was not sent, keeping at most one broadcast |
| GateHost.DestroyAgreesWhereDefined | app/src/main/java/com/fouwaz/tokki_learn/gate/GateActivity.kt:89-98 | wherever the as-written `onDestroy` is defined, the guarded one does the same |
| GateHost.GateActivity.OnDestroyAsWritten | app/src/main/java/com/fouwaz/tokki_learn/gate/GateActivity.kt:89-98 | the as-written `onDestroy`: it needs the `lateinit` target unless completion was sent, then sends dismissed iff completion was not sent, and stops collecting |
| GateHost.GateActivity.OnDestroy | app/src/main/java/com/fouwaz/tokki_learn/gate/GateActivity.kt:89-98 | the guarded `onDestroy`: the new state is `AfterDestroy` of the old, with no read of an unassigned target |
| ExerciseTutorial.NextStepOrder | app/src/main/java/com/fouwaz/tokki_learn/onboarding/ExerciseViewModel.kt:171-182 | the step advances by one ordinal and stays at COMPLETED |
| ExerciseTutorial.ThreeAdvancesComplete | app/src/main/java/com/fouwaz/tokki_learn/onboarding/ExerciseViewModel.kt:171-182 | three advances from any step reach COMPLETED |
| ExerciseTutorial.PlayWordGuard | app/src/main/java/com/fouwaz/tokki_learn/onboarding/ExerciseViewModel.kt:96-101 | only in LISTEN does playing mark the sound played and request speech |
| ExerciseTutorial.StartListeningGuard | app/src/main/java/com/fouwaz/tokki_learn/onboarding/ExerciseViewModel.kt:106-114 | only in PRONOUNCE does listening clear error and score and request recognition |
| ExerciseTutorial.ToggleFavoriteGuard | app/src/main/java/com/fouwaz/tokki_learn/onboarding/ExerciseViewModel.kt:154-166 | only in FAVORITE does it set the favourite (a second press keeps it set) and schedule an advance |
| ExerciseTutorial.SpeakingEndAdvancesOnlyAfterPlay | app/src/main/java/com/fouwaz/tokki_learn/onboarding/ExerciseViewModel.kt:78-90 | an advance is scheduled iff speech ends in LISTEN after the word was played |
| ExerciseTutorial.RecognitionSuccessOutcome | app/src/main/java/com/fouwaz/tokki_learn/onboarding/ExerciseViewModel.kt:126-149 | the best match and score are shown; a dismiss-then-advance is scheduled iff the score passes |
| ExerciseTutorial.DismissOnlyHidesFeedback | app/src/main/java/com/fouwaz/tokki_learn/onboarding/ExerciseViewModel.kt:187-191 | dismissing only hides the feedback |
| ExerciseTutorial.HandlersKeepStep | app/src/main/java/com/fouwaz/tokki_learn/onboarding/ExerciseViewModel.kt:96-166 | no handler moves the step; only scheduled advances do |
| ExerciseTutorial.FireMovesForward | app/src/main/java/com/fouwaz/tokki_learn/onboarding/ExerciseViewModel.kt:141-146 | firing a scheduled advance moves one step forward and consumes it |
| ExerciseTutorial.InstructionsDistinct | app/src/main/java/com/fouwaz/tokki_learn/onboarding/ExerciseViewModel.kt:196-203 | each step has its own instruction text |
| ExerciseTutorial.HappyPath | app/src/main/java/com/fouwaz/tokki_learn/onboarding/ExerciseViewModel.kt:78-182 | play, listen, a passing pronunciation and a favourite lead from LISTEN to COMPLETED |
| ExerciseTutorial.ExerciseViewModel.HandleRecognitionSuccess | app/src/main/java/com/fouwaz/tokki_learn/onboarding/ExerciseViewModel.kt:126-149 | the match used is the scorer's first best candidate |
| ExerciseTutorial.ExerciseViewModel.OnRecognitionResult | app/src/main/java/com/fouwaz/tokki_learn/onboarding/ExerciseViewModel.kt:51-68 | no result or an empty list changes nothing; an error stops listening and shows the message; a non-empty list acts on the scorer's first best match: its score is stored and shown, and a dismiss-then-advance is scheduled iff it passes (the `AfterRecognitionSuccess` transition); the step stays |
| ExerciseTutorial.ExerciseViewModel.GetInstructionText | app/src/main/java/com/fouwaz/tokki_learn/onboarding/ExerciseViewModel.kt:196-203 | returns the current step's instruction |
| Onboarding.ContinueIsFixedSuccessor | app/src/main/java/com/fouwaz/tokki_learn/onboarding/OnboardingViewModel.kt:34-60 | each continue shows the screen after its own, whatever is showing; the exercise's continue only requests completion |
| Onboarding.GoBackIsPredecessor | app/src/main/java/com/fouwaz/tokki_learn/onboarding/OnboardingViewModel.kt:62-72 | back shows the previous screen, and Welcome stays |
| Onboarding.GoBackUndoesContinue | app/src/main/java/com/fouwaz/tokki_learn/onboarding/OnboardingViewModel.kt:34-72 | back after a screen's continue returns to that screen |
| Onboarding.PositionIsInjective | app/src/main/java/com/fouwaz/tokki_learn/onboarding/OnboardingViewModel.kt:15-23 | the seven screens have seven distinct positions |
| Onboarding.ContinuesReachExercise | app/src/main/java/com/fouwaz/tokki_learn/onboarding/OnboardingViewModel.kt:28-56 | the six continues in order lead from Welcome to the exercise screen |
| Onboarding.OnboardingViewModel.SetCompleted | app/src/main/java/com/fouwaz/tokki_learn/onboarding/OnboardingViewModel.kt:74-78 | one completion write is requested and the screen stays |
| Preferences.LastGateKey | app/src/main/java/com/fouwaz/tokki_learn/data/datastore/UserPreferencesDataSource.kt:100-101 | the key carries the prefix, and removing the prefix gives back the package |
| Preferences.LastGateKeyInjective | app/src/main/java/com/fouwaz/tokki_learn/data/datastore/UserPreferencesDataSource.kt:100-101 | different packages have different keys |
| Preferences.FixedKeysAreNotGateKeys | app/src/main/java/com/fouwaz/tokki_learn/data/datastore/UserPreferencesDataSource.kt:13-22 | none of the three fixed keys has the timestamp prefix |
| Preferences.AbsentKeysDecodeToDefaults | app/src/main/java/com/fouwaz/tokki_learn/data/datastore/UserPreferencesDataSource.kt:14-34 | an empty store decodes to no blocked apps, cooldown 15, onboarding not done, no timestamps |
| Preferences.TimestampsLookup | app/src/main/java/com/fouwaz/tokki_learn/data/datastore/UserPreferencesDataSource.kt:36-48 | a package is decoded iff its prefixed key holds a long, with that long as its time |
| Preferences.SetPackageBlockedUpdatesSet | app/src/main/java/com/fouwaz/tokki_learn/data/datastore/UserPreferencesDataSource.kt:50-59 | blocking adds, unblocking removes; other packages and other keys keep their values |
| Preferences.SetPackageBlockedIdempotent | app/src/main/java/com/fouwaz/tokki_learn/data/datastore/UserPreferencesDataSource.kt:50-59 | repeating the same block or unblock changes nothing more |
| Preferences.RecordGateShownRoundTrip | app/src/main/java/com/fouwaz/tokki_learn/data/datastore/UserPreferencesDataSource.kt:79-83 | after recording, the decoded timestamps are the old ones updated with `p ↦ t` |
| Preferences.ClearGateTimestampRemovesOnlyIt | app/src/main/java/com/fouwaz/tokki_learn/data/datastore/UserPreferencesDataSource.kt:85-89 | clearing one package removes exactly that package from the decoded map |
| Preferences.ClearAllEmptiesTimestamps | app/src/main/java/com/fouwaz/tokki_learn/data/datastore/UserPreferencesDataSource.kt:91-98 | afterwards no timestamp decodes, and every unprefixed key keeps its value |
| Preferences.TimestampEditsKeepSettings | app/src/main/java/com/fouwaz/tokki_learn/data/datastore/UserPreferencesDataSource.kt:79-98 | the timestamp edits keep the blocked set, cooldown and onboarding flag |
| Preferences.SetBlockedPackagesOverwritesOnlyItsKey | app/src/main/java/com/fouwaz/tokki_learn/data/datastore/UserPreferencesDataSource.kt:61-65 | the blocked set reads back as written; every other key and decoder is unchanged |
| Preferences.SetCooldownOverwritesOnlyItsKey | app/src/main/java/com/fouwaz/tokki_learn/data/datastore/UserPreferencesDataSource.kt:67-71 | the cooldown reads back as written; every other key and decoder is unchanged |
| Preferences.SetOnboardingOverwritesOnlyItsKey | app/src/main/java/com/fouwaz/tokki_learn/data/datastore/UserPreferencesDataSource.kt:73-77 | the onboarding flag reads back as written; every other key and decoder is unchanged |
| Preferences.FixedKeyEditKeepsTimestamps | app/src/main/java/com/fouwaz/tokki_learn/data/datastore/UserPreferencesDataSource.kt:36-48 | writing an unprefixed key does not change the decoded timestamps |
| Preferences.EditsPreserveWellTyped | app/src/main/java/com/fouwaz/tokki_learn/data/datastore/UserPreferencesDataSource.kt:20-22 | every edit keeps each key holding its declared type |
| Preferences.UserPreferencesDataSource.ClearAllGateTimestamps | app/src/main/java/com/fouwaz/tokki_learn/data/datastore/UserPreferencesDataSource.kt:91-98 | the loop leaves exactly the unprefixed entries of the old store |
| Home.NotAfterIsTotalPreorder | app/src/main/java/com/fouwaz/tokki_learn/home/MainViewModel.kt:98-100 | the comparator is reflexive, total and transitive |
| Home.SortAppsCorrect | app/src/main/java/com/fouwaz/tokki_learn/home/MainViewModel.kt:98-100 | the sort returns a sorted permutation of its input |
| Home.SortAppsStable | app/src/main/java/com/fouwaz/tokki_learn/home/MainViewModel.kt:98-100 | rows that tie keep their input order |
| Home.TiedMeansSameKey | app/src/main/java/com/fouwaz/tokki_learn/home/MainViewModel.kt:99 | rows tie exactly when they share the flag and the lower-cased label |
| Home.MappedApps | app/src/main/java/com/fouwaz/tokki_learn/home/MainViewModel.kt:91-97 | row i is cached app i, flagged iff its package is blocked |
| Home.AppListCorrect | app/src/main/java/com/fouwaz/tokki_learn/home/MainViewModel.kt:90-100 | one row per cached app and no others, flagged iff blocked, sorted, blocked rows first |
| Home.PermissionItemsFollowStatuses | app/src/main/java/com/fouwaz/tokki_learn/home/MainViewModel.kt:111-136 | one card per status in order, with its type, grant and that type's texts |
| Home.PermissionTitlesDistinct | app/src/main/java/com/fouwaz/tokki_learn/home/MainViewModel.kt:113-133 | the three permission types have distinct titles |
| Home.UpdateAppListPublishes | app/src/main/java/com/fouwaz/tokki_learn/home/MainViewModel.kt:102-108 | after an update, the list is the sorted mapping, loading is false and the count is the blocked set's size |
| Home.SelectedCountCanExceedBlockedRows | app/src/main/java/com/fouwaz/tokki_learn/home/MainViewModel.kt:106 | a blocked package with no cached app counts as selected but has no row |
| Home.ActionsPassArgumentsThrough | app/src/main/java/com/fouwaz/tokki_learn/home/MainViewModel.kt:53-63 | toggling and setting the cooldown hand their arguments unchanged to the repository |
| Home.ToggleShowsInList | app/src/main/java/com/fouwaz/tokki_learn/home/MainViewModel.kt:53-72 | once the store applies a toggle and the flow delivers it, that app's row shows the chosen flag and the others are unchanged |
| Text.TrimLowerCommute | app/src/main/java/com/fouwaz/tokki_learn/gate/GateViewModel.kt:65 | trimming and lower-casing commute, so `lowercase().trim()` and `trim().lowercase()` agree |
| Text.EqualsIgnoreCaseIsLowerEquality | app/src/main/java/com/fouwaz/tokki_learn/gate/GateViewModel.kt:41 | comparing ignoring case is comparing the lower-cased strings |
| Text.NatToStringRoundTrip | app/src/main/java/com/fouwaz/tokki_learn/gate/GateViewModel.kt:164-165 | the decimal rendering of a number parses back to it |
| Text.RemovePrefixOfConcat | app/src/main/java/com/fouwaz/tokki_learn/data/datastore/UserPreferencesDataSource.kt:39-40 | removing a prefix from prefix + rest gives rest |

## Left out

- Concurrency is not modelled: coroutines, `collectLatest`, `synchronizedSet` and `ConcurrentHashMap` are left out. Each handler, collector emission and launched coroutine is one atomic step.
- Postponed work runs as explicit later events: the queued launch (`Accessibility.AfterPendingLaunch`) and the tutorial's `delay` advances (`ExerciseTutorial.AfterFireScheduled`).
- Clocks, the app-label lookup, the recognizer and the text-to-speech engine are parameters or request logs, not calls.
- PackageManager, AppOps and Settings queries become parameters: the launch intent (`hasLaunchIntent`), the permission statuses and the launchable apps.
- `SharedFlow.tryEmit` buffering is not modelled: the gate's events and the activity's effects are plain logs, so a dropped emission is not possible in the model.
- Kotlin `Int` and `Long` are unbounded integers. The cooldown product `cooldownMinutes * 60000` and `now - lastShown` cannot overflow in the model.
- `Double` similarity is an exact `real`, so IEEE rounding at the grade boundaries is not modelled.
- `Text.LowerString`: `lowercase` and `trim` follow ASCII and Latin-1 letters and the JVM whitespace set. Other Unicode case mappings and locale rules are not modelled.
- UTF-16 lengths and code-unit order are sequence lengths and code-point order. `Home.LexLessOrEqual` compares code points, so a label with a character above U+FFFF can sort differently against one with a character in U+E000 to U+FFFF than `String.compareTo` would sort them.
- The random shuffle is an arbitrary permutation parameter.
- The source files declaring `PermissionType` and `PermissionStatus` are not part of this model. The model declares both, taking only their shape from their uses at MainViewModel.kt:113-133 and PermissionsManager.kt:52-58.
- App icons are left out.
- Compose screens, the activity's `setContent`, navigation and the DataStore delegate are left out: they are rendering and wiring.
- A stored value of another type under a fixed key would make the store's cast fail; the decoders treat it as absent. `Preferences.EditsPreserveWellTyped` shows that the data source's own edits never store one.
- The deferred `loadApps` state with `isLoadingApps = true`, before the query returns, is not observable in the model because the step is atomic.
- `Onboarding.OnboardingViewModel.SetCompleted` records the write request, not the store write.

## Findings

| source | as written | input that shows it | evidently intended | confidence | as-written member | corrected member |
|---|---|---|---|---|---|---|
| app/src/main/java/com/fouwaz/tokki_learn/gate/GateActivity.kt:89-98 | `onDestroy` reads the `lateinit` `targetPackageName` whenever completion was not sent | an intent without the package extra (or with an empty one), so `onCreate` finishes before assigning the field; `onDestroy` then throws `UninitializedPropertyAccessException` | send the dismissed broadcast only when a target was assigned | not executed | GateHost.DestroyAfterEarlyExitReadsUnassignedTarget | GateHost.DestroySendsDismissedIffNotCompleted |
