/**
 * The authored exercise pools, one per language, and the quick-gate selection: the
 * selected pool is shuffled and its first `GATE_EXERCISE_COUNT` exercises are asked.
 * The shuffle's random order is a parameter: a permutation of the pool's positions.
 */
module LessonRepository {
  import opened Wrappers
  import opened ExerciseModel

  datatype Language = SPANISH | FRENCH

  const GATE_EXERCISE_COUNT: nat := 2

  const SpanishExercises: seq<Exercise> := [
    MultipleChoiceExercise(
      id := "es_mc_1",
      prompt := "How do you say \"morning\" in Spanish?",
      options := ["tarde", "ma\U{F1}ana", "noche"],
      correctAnswer := "ma\U{F1}ana",
      explanation := Some("\U{201C}Ma\U{F1}ana\U{201D} is morning; \U{201C}tarde\U{201D} is afternoon; \U{201C}noche\U{201D} is night.")),
    MultipleChoiceExercise(
      id := "es_mc_2",
      prompt := "Select the correct translation for \U{201C}book\U{201D}.",
      options := ["libro", "mesa", "gato"],
      correctAnswer := "libro",
      explanation := Some("\U{201C}Libro\U{201D} means book.")),
    InputExercise(
      id := "es_in_1",
      prompt := "Type the Spanish word for \U{201C}thank you\U{201D}.",
      correctAnswer := "gracias",
      acceptableAnswers := ["gracias"]),
    InputExercise(
      id := "es_in_2",
      prompt := "Fill in the missing word: \U{201C}Buenos ____\U{201D} (good day).",
      correctAnswer := "d\U{ED}as",
      acceptableAnswers := ["dias", "d\U{ED}as"],
      hint := Some("It literally means \U{201C}good days\U{201D}."))
  ]

  const FrenchExercises: seq<Exercise> := [
    MultipleChoiceExercise(
      id := "fr_mc_1",
      prompt := "Choose the translation for \U{201C}apple\U{201D}.",
      options := ["pomme", "poire", "orange"],
      correctAnswer := "pomme",
      explanation := Some("\U{201C}Pomme\U{201D} means apple.")),
    MultipleChoiceExercise(
      id := "fr_mc_2",
      prompt := "Select the French word for \U{201C}water\U{201D}.",
      options := ["lait", "eau", "jus"],
      correctAnswer := "eau",
      explanation := Some("\U{201C}Eau\U{201D} is water.")),
    InputExercise(
      id := "fr_in_1",
      prompt := "Type the French word for \U{201C}thank you\U{201D}.",
      correctAnswer := "merci",
      acceptableAnswers := ["merci"]),
    InputExercise(
      id := "fr_in_2",
      prompt := "Fill in the blank: \U{201C}Bonne ____\U{201D} (good night).",
      correctAnswer := "nuit",
      acceptableAnswers := ["nuit"])
  ]

  /** The pool the language selects. */
  function Pool(language: Language): (pool: seq<Exercise>)
    ensures language == SPANISH ==> pool == SpanishExercises
    ensures language == FRENCH ==> pool == FrenchExercises
  {
    match language
    case SPANISH => SpanishExercises
    case FRENCH => FrenchExercises
  }

  /** `perm` lists each of the positions `0..n-1` exactly once. */
  ghost predicate IsPermutation(perm: seq<nat>, n: nat) {
    |perm| == n
    && (forall i :: 0 <= i < n ==> perm[i] < n)
    && (forall i, j :: 0 <= i < j < n ==> perm[i] != perm[j])
  }

  /** The pool in the order the permutation gives. */
  function Shuffled(pool: seq<Exercise>, perm: seq<nat>): (s: seq<Exercise>)
    requires IsPermutation(perm, |pool|)
    ensures |s| == |pool|
    ensures forall i :: 0 <= i < |s| ==> s[i] == pool[perm[i]]
  {
    seq(|perm|, i requires 0 <= i < |perm| => pool[perm[i]])
  }

  /** Reordering by a permutation keeps every exercise, each as often as before. */
  lemma {:induction false} ShuffledIsPermutation(pool: seq<Exercise>, perm: seq<nat>)
    requires IsPermutation(perm, |pool|)
    ensures multiset(Shuffled(pool, perm)) == multiset(pool)
  {
    PermutedMultiset(pool, Shuffled(pool, perm), perm);
  }

  /**
   * By induction on the length: the last element comes from position `m := perm[n-1]`;
   * dropping it from `s` and position `m` from `pool` leaves the same relation, with the
   * positions above `m` shifted down by one.
   */
  lemma {:induction false} PermutedMultiset<T>(pool: seq<T>, s: seq<T>, perm: seq<nat>)
    requires IsPermutation(perm, |pool|) && |s| == |pool|
    requires forall i :: 0 <= i < |s| ==> s[i] == pool[perm[i]]
    ensures multiset(s) == multiset(pool)
    decreases |pool|
  {
    var n := |pool|;
    if n > 0 {
      var m := perm[n - 1];
      var pool' := pool[..m] + pool[m + 1..];
      var perm' := seq(n - 1, i requires 0 <= i < n - 1 => if perm[i] < m then perm[i] else perm[i] - 1);
      var s' := s[..n - 1];
      forall i | 0 <= i < n - 1
        ensures s'[i] == pool'[perm'[i]]
      {
        assert perm[i] != m;
      }
      assert IsPermutation(perm', n - 1);
      PermutedMultiset(pool', s', perm');
      assert s == s' + [pool[m]];
      assert pool == pool[..m] + [pool[m]] + pool[m + 1..];
    }
  }

  /**
   * The selection from a pool: nothing from an empty pool, otherwise the shuffled pool,
   * cut to its first `GATE_EXERCISE_COUNT` entries when it is longer.
   */
  function Select(pool: seq<Exercise>, perm: seq<nat>): (r: seq<Exercise>)
    requires IsPermutation(perm, |pool|)
    ensures |r| <= GATE_EXERCISE_COUNT
    ensures |r| == if |pool| <= GATE_EXERCISE_COUNT then |pool| else GATE_EXERCISE_COUNT
    ensures r == Shuffled(pool, perm)[..|r|]
    ensures pool == [] ==> r == []
  {
    if pool == [] then []
    else
      var shuffled := Shuffled(pool, perm);
      if |shuffled| <= GATE_EXERCISE_COUNT then shuffled else shuffled[..GATE_EXERCISE_COUNT]
  }

  /** `getQuickGateExercises`: the selection from the language's pool (Spanish by default). */
  function GetQuickGateExercises(perm: seq<nat>, language: Language := SPANISH): (r: seq<Exercise>)
    requires IsPermutation(perm, |Pool(language)|)
    ensures r == Select(Pool(language), perm)
  {
    Select(Pool(language), perm)
  }

  /** Every selected exercise comes from the pool, and none more often than it occurs there. */
  lemma {:induction false} SelectionIsSubMultiset(pool: seq<Exercise>, perm: seq<nat>)
    requires IsPermutation(perm, |pool|)
    ensures multiset(Select(pool, perm)) <= multiset(pool)
  {
    var shuffled := Shuffled(pool, perm);
    var r := Select(pool, perm);
    ShuffledIsPermutation(pool, perm);
    assert shuffled == r + shuffled[|r|..];
  }

  /** The ids of a pool are pairwise distinct. */
  ghost predicate UniqueIds(exercises: seq<Exercise>) {
    forall i, j :: 0 <= i < j < |exercises| ==> exercises[i].id != exercises[j].id
  }

  /** The selection repeats no exercise: from a pool of distinct ids it draws distinct ids. */
  lemma {:induction false} SelectionHasUniqueIds(pool: seq<Exercise>, perm: seq<nat>)
    requires IsPermutation(perm, |pool|) && UniqueIds(pool)
    ensures UniqueIds(Select(pool, perm))
  {
    var r := Select(pool, perm);
    forall i, j | 0 <= i < j < |r|
      ensures r[i].id != r[j].id
    {
      assert r[i] == pool[perm[i]] && r[j] == pool[perm[j]];
      assert perm[i] != perm[j];
    }
  }

  /** Both authored pools have distinct ids, and every exercise in them offers its own answer. */
  lemma AuthoredPoolsWellFormed(language: Language)
    ensures |Pool(language)| == 4
    ensures UniqueIds(Pool(language))
    ensures forall e :: e in Pool(language) ==> AnswerIsOffered(e)
  {
  }

  /** Each language's quick gate asks exactly two distinct exercises from its own pool. */
  lemma {:induction false} QuickGateAsksTwo(perm: seq<nat>, language: Language)
    requires IsPermutation(perm, |Pool(language)|)
    ensures |GetQuickGateExercises(perm, language)| == GATE_EXERCISE_COUNT
    ensures UniqueIds(GetQuickGateExercises(perm, language))
    ensures forall e :: e in GetQuickGateExercises(perm, language) ==> e in Pool(language)
  {
    var r := GetQuickGateExercises(perm, language);
    AuthoredPoolsWellFormed(language);
    SelectionHasUniqueIds(Pool(language), perm);
    SelectionIsSubMultiset(Pool(language), perm);
    forall e | e in r
      ensures e in Pool(language)
    {
      assert e in multiset(r);
    }
  }
}
