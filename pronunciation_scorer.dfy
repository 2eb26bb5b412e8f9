/**
 * The pronunciation scorer: Levenshtein distance between the normalised target and
 * the normalised transcription, turned into a similarity percentage, a grade bucket,
 * a pass threshold, and a best-of-candidates search.
 */
module PronunciationScorer {
  import opened Wrappers
  import opened Text

  // ---------------------------------------------------------------------------
  // Edit distance: the specification
  // ---------------------------------------------------------------------------

  function Init(s: string): string
    requires s != []
  {
    s[..|s| - 1]
  }

  function Last(s: string): char
    requires s != []
  {
    s[|s| - 1]
  }

  function Min3(x: nat, y: nat, z: nat): (m: nat)
    ensures m <= x && m <= y && m <= z
    ensures m == x || m == y || m == z
  {
    if x <= y && x <= z then x else if y <= z then y else z
  }

  function SubstitutionCost(x: char, y: char): nat {
    if x == y then 0 else 1
  }

  /**
   * The Levenshtein distance, by the recurrence the dynamic-programming table fills:
   * row 0 and column 0 hold the other prefix's length, every other cell is the least of
   * a deletion, an insertion and a substitution (free when the last characters agree).
   */
  function EditDistance(a: string, b: string): nat
    decreases |a| + |b|
  {
    if |a| == 0 then |b|
    else if |b| == 0 then |a|
    else Min3(EditDistance(Init(a), b) + 1,
              EditDistance(a, Init(b)) + 1,
              EditDistance(Init(a), Init(b)) + SubstitutionCost(Last(a), Last(b)))
  }

  /**
   * One operation of an edit script. A script is read back to front: its last operation
   * accounts for the last character of the source, of the target, or of both.
   */
  datatype EditOp = Keep | Substitute | Insert | Delete

  /** `script` turns `a` into `b`; `Keep` needs the two characters it pairs to agree. */
  predicate Transforms(script: seq<EditOp>, a: string, b: string)
    decreases |script|
  {
    if script == [] then a == [] && b == []
    else
      var rest := script[..|script| - 1];
      match script[|script| - 1]
      case Keep => a != [] && b != [] && Last(a) == Last(b) && Transforms(rest, Init(a), Init(b))
      case Substitute => a != [] && b != [] && Transforms(rest, Init(a), Init(b))
      case Insert => b != [] && Transforms(rest, a, Init(b))
      case Delete => a != [] && Transforms(rest, Init(a), b)
  }

  /** The number of unit-cost operations (everything but `Keep`). */
  function Cost(script: seq<EditOp>): nat
    decreases |script|
  {
    if script == [] then 0
    else Cost(script[..|script| - 1]) + (if script[|script| - 1] == Keep then 0 else 1)
  }

  /** An edit script that achieves `EditDistance(a, b)`. */
  function OptimalScript(a: string, b: string): (script: seq<EditOp>)
    ensures Transforms(script, a, b)
    ensures Cost(script) == EditDistance(a, b)
    decreases |a| + |b|
  {
    if |a| == 0 && |b| == 0 then []
    else if |a| == 0 then
      var s := OptimalScript(a, Init(b)) + [Insert];
      assert s[..|s| - 1] == OptimalScript(a, Init(b));
      s
    else if |b| == 0 then
      var s := OptimalScript(Init(a), b) + [Delete];
      assert s[..|s| - 1] == OptimalScript(Init(a), b);
      s
    else
      var del := EditDistance(Init(a), b) + 1;
      var ins := EditDistance(a, Init(b)) + 1;
      var sub := EditDistance(Init(a), Init(b)) + SubstitutionCost(Last(a), Last(b));
      if EditDistance(a, b) == sub then
        var prefix := OptimalScript(Init(a), Init(b));
        var s := prefix + [if Last(a) == Last(b) then Keep else Substitute];
        assert s[..|s| - 1] == prefix;
        s
      else if EditDistance(a, b) == del then
        var s := OptimalScript(Init(a), b) + [Delete];
        assert s[..|s| - 1] == OptimalScript(Init(a), b);
        s
      else
        var s := OptimalScript(a, Init(b)) + [Insert];
        assert s[..|s| - 1] == OptimalScript(a, Init(b));
        s
  }

  /** No edit script is cheaper than `EditDistance`: it is the minimum. */
  lemma {:induction false} EditDistanceIsMinimal(script: seq<EditOp>, a: string, b: string)
    requires Transforms(script, a, b)
    ensures Cost(script) >= EditDistance(a, b)
    decreases |script|
  {
    if script != [] {
      var rest := script[..|script| - 1];
      match script[|script| - 1]
      case Keep => EditDistanceIsMinimal(rest, Init(a), Init(b));
      case Substitute => EditDistanceIsMinimal(rest, Init(a), Init(b));
      case Insert => EditDistanceIsMinimal(rest, a, Init(b));
      case Delete => EditDistanceIsMinimal(rest, Init(a), b);
    }
  }

  /** The distance is symmetric. */
  lemma {:induction false} EditDistanceSymmetric(a: string, b: string)
    ensures EditDistance(a, b) == EditDistance(b, a)
    decreases |a| + |b|
  {
    if |a| > 0 && |b| > 0 {
      EditDistanceSymmetric(Init(a), b);
      EditDistanceSymmetric(a, Init(b));
      EditDistanceSymmetric(Init(a), Init(b));
    }
  }

  /** The distance lies between the difference and the larger of the two lengths. */
  lemma {:induction false} EditDistanceBounds(a: string, b: string)
    ensures EditDistance(a, b) <= if |a| >= |b| then |a| else |b|
    ensures EditDistance(a, b) >= |a| - |b| && EditDistance(a, b) >= |b| - |a|
    decreases |a| + |b|
  {
    if |a| > 0 && |b| > 0 {
      EditDistanceBounds(Init(a), b);
      EditDistanceBounds(a, Init(b));
      EditDistanceBounds(Init(a), Init(b));
    }
  }

  /** The distance is zero exactly for equal strings. */
  lemma {:induction false} EditDistanceZeroIffEqual(a: string, b: string)
    ensures EditDistance(a, b) == 0 <==> a == b
    decreases |a| + |b|
  {
    if |a| > 0 && |b| > 0 {
      EditDistanceZeroIffEqual(Init(a), Init(b));
      if a == b {
        assert Init(a) == Init(b) && Last(a) == Last(b);
      }
      if EditDistance(a, b) == 0 {
        assert a == Init(a) + [Last(a)] && b == Init(b) + [Last(b)];
      }
    }
  }

  /** Against the empty string the distance is the other string's length. */
  lemma EditDistanceToEmpty(a: string)
    ensures EditDistance(a, "") == |a| && EditDistance("", a) == |a|
  {
  }

  // ---------------------------------------------------------------------------
  // Edit distance: the dynamic-programming table
  // ---------------------------------------------------------------------------

  /**
   * The recurrence the table obeys, cell by cell: `TableEntry(s1, s2, i, j)` is what
   * `dp[i][j]` holds once it is filled.
   */
  function TableEntry(s1: string, s2: string, i: nat, j: nat): nat
    requires i <= |s1| && j <= |s2|
    decreases i + j
  {
    if i == 0 then j
    else if j == 0 then i
    else Min3(TableEntry(s1, s2, i - 1, j) + 1,
              TableEntry(s1, s2, i, j - 1) + 1,
              TableEntry(s1, s2, i - 1, j - 1) + SubstitutionCost(s1[i - 1], s2[j - 1]))
  }

  /** Every table entry is the edit distance of the two prefixes it stands for. */
  lemma {:induction false} TableEntryIsPrefixDistance(s1: string, s2: string, i: nat, j: nat)
    requires i <= |s1| && j <= |s2|
    ensures TableEntry(s1, s2, i, j) == EditDistance(s1[..i], s2[..j])
    decreases i + j
  {
    if i > 0 && j > 0 {
      var up, left, diag := TableEntry(s1, s2, i - 1, j), TableEntry(s1, s2, i, j - 1), TableEntry(s1, s2, i - 1, j - 1);
      assert up == EditDistance(s1[..i - 1], s2[..j]) by {
        TableEntryIsPrefixDistance(s1, s2, i - 1, j);
      }
      assert left == EditDistance(s1[..i], s2[..j - 1]) by {
        TableEntryIsPrefixDistance(s1, s2, i, j - 1);
      }
      assert diag == EditDistance(s1[..i - 1], s2[..j - 1]) by {
        TableEntryIsPrefixDistance(s1, s2, i - 1, j - 1);
      }
      EditDistanceOfPrefixes(s1, s2, i, j);
    }
  }

  lemma EditDistanceOfPrefixes(s1: string, s2: string, i: nat, j: nat)
    requires 1 <= i <= |s1| && 1 <= j <= |s2|
    ensures EditDistance(s1[..i], s2[..j])
         == Min3(EditDistance(s1[..i - 1], s2[..j]) + 1,
                 EditDistance(s1[..i], s2[..j - 1]) + 1,
                 EditDistance(s1[..i - 1], s2[..j - 1]) + SubstitutionCost(s1[i - 1], s2[j - 1]))
  {
    var a, b := s1[..i], s2[..j];
    assert Init(a) == s1[..i - 1] && Last(a) == s1[i - 1];
    assert Init(b) == s2[..j - 1] && Last(b) == s2[j - 1];
  }

  /** Rows `0..rows-1` of `dp` are filled. */
  ghost predicate RowsFilled(dp: array2<nat>, s1: string, s2: string, rows: nat)
    requires dp.Length0 == |s1| + 1 && dp.Length1 == |s2| + 1 && rows <= |s1| + 1
    reads dp
  {
    forall i', j' {:trigger dp[i', j']} :: 0 <= i' < rows && 0 <= j' <= |s2| ==>
      dp[i', j'] == TableEntry(s1, s2, i', j')
  }

  /** The inner loop of `levenshteinDistance`: fills row `i` from column 1 on. */
  method FillRow(dp: array2<nat>, s1: string, s2: string, i: nat)
    requires dp.Length0 == |s1| + 1 && dp.Length1 == |s2| + 1 && 1 <= i <= |s1|
    requires RowsFilled(dp, s1, s2, i) && dp[i, 0] == i
    modifies dp
    ensures RowsFilled(dp, s1, s2, i + 1)
    ensures forall i', j' :: 0 <= i' < dp.Length0 && 0 <= j' < dp.Length1 && i' != i ==>
              dp[i', j'] == old(dp[i', j'])
  {
    for j := 1 to |s2| + 1
      invariant RowsFilled(dp, s1, s2, i)
      invariant forall j' {:trigger dp[i, j']} :: 0 <= j' < j ==> dp[i, j'] == TableEntry(s1, s2, i, j')
      invariant forall i', j' :: 0 <= i' < dp.Length0 && 0 <= j' < dp.Length1 && i' != i ==>
                  dp[i', j'] == old(dp[i', j'])
    {
      var cost := if s1[i - 1] == s2[j - 1] then 0 else 1;
      dp[i, j] := Min3(dp[i - 1, j] + 1, dp[i, j - 1] + 1, dp[i - 1, j - 1] + cost);
    }
  }

  /**
   * `levenshteinDistance`: fills the (len1+1) x (len2+1) table row by row and returns
   * its last entry, the edit distance of the two strings.
   */
  method LevenshteinDistance(s1: string, s2: string) returns (distance: nat)
    ensures distance == EditDistance(s1, s2)
  {
    var len1, len2 := |s1|, |s2|;
    var dp := new nat[len1 + 1, len2 + 1];
    for i := 0 to len1 + 1
      invariant forall i' :: 0 <= i' < i ==> dp[i', 0] == i'
    {
      dp[i, 0] := i;
    }
    for j := 0 to len2 + 1
      invariant forall i' :: 0 <= i' <= len1 ==> dp[i', 0] == i'
      invariant forall j' :: 0 <= j' < j ==> dp[0, j'] == j'
    {
      dp[0, j] := j;
    }
    for i := 1 to len1 + 1
      invariant RowsFilled(dp, s1, s2, i)
      invariant forall i' :: i <= i' <= len1 ==> dp[i', 0] == i'
    {
      FillRow(dp, s1, s2, i);
    }
    distance := dp[len1, len2];
    TableEntryIsPrefixDistance(s1, s2, len1, len2);
    assert s1[..len1] == s1 && s2[..len2] == s2;
  }

  // ---------------------------------------------------------------------------
  // Scores and grades
  // ---------------------------------------------------------------------------

  datatype PronunciationGrade = EXCELLENT | GOOD | FAIR | NEEDS_PRACTICE

  /** The percentage that `isPass` demands, and the default threshold of `isAcceptableMatch`. */
  const PASS_ACCURACY: real := 60.0
  const DEFAULT_ACCEPTABLE_THRESHOLD: real := 75.0

  datatype PronunciationScore = PronunciationScore(
    accuracy: real,
    grade: PronunciationGrade,
    target: string,
    spoken: string)
  {
    /** `isPass`. */
    predicate IsPass() {
      accuracy >= PASS_ACCURACY
    }

    /**
     * `feedbackMessage`: one message per grade. The EXCELLENT literal is kept as the source
     * file holds it: a party-popper emoji's UTF-8 bytes read back as Windows-1252 characters.
     */
    function FeedbackMessage(): string {
      match grade
      case EXCELLENT => "Perfect! Excellent pronunciation! \U{F0}\U{178}\U{17D}\U{2030}"
      case GOOD => "Great job! Good pronunciation!"
      case FAIR => "Not bad! Keep practicing!"
      case NEEDS_PRACTICE => "Keep trying! You'll get it!"
    }
  }

  /** The scorer's normalisation, `lowercase().trim()`. */
  function Normalize(s: string): string {
    Trim(LowerString(s))
  }

  function Max(x: nat, y: nat): nat {
    if x >= y then x else y
  }

  /**
   * The similarity percentage of two already-normalised strings: 100 when both are empty,
   * otherwise the share of the longer length that the edit distance leaves intact.
   */
  function Similarity(a: string, b: string): (r: real)
    ensures 0.0 <= r <= 100.0
    ensures r == 100.0 <==> a == b
  {
    EditDistanceBounds(a, b);
    EditDistanceZeroIffEqual(a, b);
    Percentage(Max(|a|, |b|), EditDistance(a, b))
  }

  /** `100 * (maxLength - distance) / maxLength`, or 100 for two empty strings. */
  function Percentage(maxLength: nat, distance: nat): (r: real)
    requires distance <= maxLength
    ensures 0.0 <= r <= 100.0
    ensures r == 100.0 <==> distance == 0
  {
    if maxLength == 0 then 100.0
    else
      var q := (maxLength - distance) as real / maxLength as real;
      assert q * maxLength as real == (maxLength - distance) as real;
      q * 100.0
  }

  /** The grade buckets, tried from the highest down. */
  function GradeOf(similarity: real): (g: PronunciationGrade)
    ensures g == EXCELLENT <==> similarity >= 90.0
    ensures g == GOOD <==> 75.0 <= similarity < 90.0
    ensures g == FAIR <==> 60.0 <= similarity < 75.0
    ensures g == NEEDS_PRACTICE <==> similarity < 60.0
  {
    if similarity >= 90.0 then EXCELLENT
    else if similarity >= 75.0 then GOOD
    else if similarity >= 60.0 then FAIR
    else NEEDS_PRACTICE
  }

  /**
   * `score`: compares the normalised forms, keeps the caller's original strings.
   * The accuracy is a percentage, it is 100 exactly when the normalised forms agree,
   * and a score passes exactly when its grade is not NEEDS_PRACTICE.
   */
  function Score(target: string, spoken: string): (r: PronunciationScore)
    ensures r.target == target && r.spoken == spoken
    ensures 0.0 <= r.accuracy <= 100.0
    ensures r.accuracy == 100.0 <==> Normalize(target) == Normalize(spoken)
    ensures r.grade == GradeOf(r.accuracy)
    ensures r.IsPass() <==> r.grade != NEEDS_PRACTICE
  {
    var similarity := Similarity(Normalize(target), Normalize(spoken));
    PronunciationScore(similarity, GradeOf(similarity), target, spoken)
  }

  /** `isAcceptableMatch` (threshold 75 unless the caller gives one). */
  predicate IsAcceptableMatch(target: string, spoken: string, threshold: real := DEFAULT_ACCEPTABLE_THRESHOLD) {
    Score(target, spoken).accuracy >= threshold
  }

  /** At the default threshold a match is acceptable exactly when it grades GOOD or better; it then passes. */
  lemma AcceptableAtDefaultIsGoodOrBetter(target: string, spoken: string)
    ensures IsAcceptableMatch(target, spoken) <==> Score(target, spoken).grade in {EXCELLENT, GOOD}
    ensures IsAcceptableMatch(target, spoken) ==> Score(target, spoken).IsPass()
  {
  }

  /** Scoring is symmetric in its two strings (apart from which string is reported as which). */
  lemma ScoreSymmetric(a: string, b: string)
    ensures Score(a, b).accuracy == Score(b, a).accuracy
    ensures Score(a, b).grade == Score(b, a).grade
  {
    EditDistanceSymmetric(Normalize(a), Normalize(b));
    assert Similarity(Normalize(a), Normalize(b)) == Similarity(Normalize(b), Normalize(a));
  }

  /** Strings that differ only in case and surrounding whitespace score 100, EXCELLENT. */
  lemma ScoreOfSameWord(target: string, spoken: string)
    requires LowerString(Trim(target)) == LowerString(Trim(spoken))
    ensures Score(target, spoken).accuracy == 100.0 && Score(target, spoken).grade == EXCELLENT
  {
    TrimLowerCommute(target);
    TrimLowerCommute(spoken);
  }

  /** Each grade has its own feedback message. */
  lemma FeedbackMessagesDistinct(x: PronunciationScore, y: PronunciationScore)
    ensures x.FeedbackMessage() == y.FeedbackMessage() <==> x.grade == y.grade
  {
  }

  // ---------------------------------------------------------------------------
  // Best of several recognition candidates
  // ---------------------------------------------------------------------------

  /**
   * Candidate `k` has the highest accuracy, and every earlier candidate a strictly lower
   * one: the first of the best.
   */
  ghost predicate IsFirstBest(target: string, candidates: seq<string>, k: nat) {
    k < |candidates|
    && (forall j :: 0 <= j < |candidates| ==>
          Score(target, candidates[j]).accuracy <= Score(target, candidates[k]).accuracy)
    && (forall j :: 0 <= j < k ==>
          Score(target, candidates[j]).accuracy < Score(target, candidates[k]).accuracy)
  }

  /** At most one index is the first of the best, so `findBestMatch`'s answer is determined. */
  lemma FirstBestUnique(target: string, candidates: seq<string>, k1: nat, k2: nat)
    requires IsFirstBest(target, candidates, k1) && IsFirstBest(target, candidates, k2)
    ensures k1 == k2
  {
    var a1, a2 := Score(target, candidates[k1]).accuracy, Score(target, candidates[k2]).accuracy;
    assert a1 == a2;
    if k1 < k2 {
      assert false;
    }
    if k2 < k1 {
      assert false;
    }
  }

  /** One step of a running maximum when the new value is strictly larger: it becomes the first best. */
  lemma RunningMaxRaised(xs: seq<real>, idx: nat, bestIndex: nat, best: real, current: real)
    requires bestIndex < idx < |xs| && xs[idx] == current && best < current
    requires forall j :: 0 <= j < idx ==> xs[j] <= best
    ensures forall j :: 0 <= j < idx + 1 ==> xs[j] <= current
    ensures forall j :: 0 <= j < idx ==> xs[j] < current
  {
  }

  /** One step of a running maximum when the new value is not larger: the best stays. */
  lemma RunningMaxKept(xs: seq<real>, idx: nat, bestIndex: nat, best: real)
    requires bestIndex < idx < |xs| && xs[idx] <= best
    requires forall j :: 0 <= j < idx ==> xs[j] <= best
    ensures forall j :: 0 <= j < idx + 1 ==> xs[j] <= best
  {
  }

  /**
   * `findBestMatch`: none for an empty list; otherwise the first candidate of maximal
   * accuracy, paired with its own score.
   */
  method FindBestMatch(target: string, candidates: seq<string>)
    returns (result: Option<(string, PronunciationScore)>)
    ensures result.None? <==> candidates == []
    ensures result.Some? ==>
              exists k: nat :: IsFirstBest(target, candidates, k)
                       && result.value == (candidates[k], Score(target, candidates[k]))
  {
    if candidates == [] {
      return None;
    }
    var bestMatch := candidates[0];
    var bestScore := Score(target, candidates[0]);
    ghost var accuracies := seq(|candidates|, j requires 0 <= j < |candidates| => Score(target, candidates[j]).accuracy);
    ghost var bestIndex := 0;
    for idx := 1 to |candidates|
      invariant bestIndex < idx
      invariant bestMatch == candidates[bestIndex] && bestScore == Score(target, bestMatch)
      invariant forall j :: 0 <= j < idx ==> accuracies[j] <= bestScore.accuracy
      invariant forall j :: 0 <= j < bestIndex ==> accuracies[j] < bestScore.accuracy
    {
      var currentScore := Score(target, candidates[idx]);
      assert currentScore.accuracy == accuracies[idx];
      if currentScore.accuracy > bestScore.accuracy {
        RunningMaxRaised(accuracies, idx, bestIndex, bestScore.accuracy, currentScore.accuracy);
        bestMatch := candidates[idx];
        bestScore := currentScore;
        bestIndex := idx;
      } else {
        RunningMaxKept(accuracies, idx, bestIndex, bestScore.accuracy);
      }
    }
    assert bestScore == Score(target, candidates[bestIndex]);
    forall j | 0 <= j < |candidates|
      ensures Score(target, candidates[j]).accuracy == accuracies[j]
    {
    }
    assert IsFirstBest(target, candidates, bestIndex);
    return Some((bestMatch, bestScore));
  }
}
