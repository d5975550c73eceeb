/** The quiz engine of `QuizScreen`: one answer per question, one point per exact match. */
module Quiz {
  import opened Wrappers
  import opened Types

  /** The stage banners; the screen reads `levels[currentIdx]`, so a quiz has at most this many questions. */
  const Levels: seq<string> := ["STAGE 01: ROOKIE", "STAGE 02: VETERAN", "STAGE 03: ELITE"]

  /**
   * The number of questions among the first `|answers|` whose chosen option
   * equals their `correctIndex`; each question adds at most one point.
   */
  function CorrectCount(quiz: seq<QuizQuestion>, answers: seq<int>): (n: nat)
    requires |answers| <= |quiz|
    ensures n <= |answers|
  {
    if answers == [] then 0
    else
      var k := |answers| - 1;
      CorrectCount(quiz, answers[..k]) + (if IsCorrect(quiz[k], answers[k]) then 1 else 0)
  }

  /** A perfect score is exactly every answer matching its question's `correctIndex`. */
  lemma {:induction false} PerfectScoreIff(quiz: seq<QuizQuestion>, answers: seq<int>)
    requires |answers| <= |quiz|
    ensures CorrectCount(quiz, answers) == |answers| <==>
      forall k :: 0 <= k < |answers| ==> IsCorrect(quiz[k], answers[k])
  {
    if answers != [] {
      var k := |answers| - 1;
      var prefix := answers[..k];
      PerfectScoreIff(quiz, prefix);
      assert forall j :: 0 <= j < k ==> prefix[j] == answers[j];
    }
  }

  /** The number of questions among the first `n` whose `correctIndex` lies among their options. */
  function WellFormedCount(quiz: seq<QuizQuestion>, n: nat): (m: nat)
    requires n <= |quiz|
    ensures m <= n
  {
    if n == 0 then 0 else WellFormedCount(quiz, n - 1) + (if WellFormed(quiz[n - 1]) then 1 else 0)
  }

  /**
   * Picking among the shown options, only questions whose `correctIndex` is
   * in range can score: the score is at most the number of such questions,
   * so a quiz of ill-formed questions always scores 0.
   */
  lemma {:induction false} ScoreAtMostWellFormed(quiz: seq<QuizQuestion>, answers: seq<int>)
    requires |answers| <= |quiz|
    requires forall k :: 0 <= k < |answers| ==> 0 <= answers[k] < |quiz[k].options|
    ensures CorrectCount(quiz, answers) <= WellFormedCount(quiz, |answers|)
  {
    if answers != [] {
      var k := |answers| - 1;
      ScoreAtMostWellFormed(quiz, answers[..k]);
      if !WellFormed(quiz[k]) {
        IllFormedNeverScores(quiz[k], answers[k]);
      }
    }
  }

  /** Recording one more answer adds one point exactly when it is correct. */
  lemma CorrectCountAppend(quiz: seq<QuizQuestion>, answers: seq<int>, i: int)
    requires |answers| < |quiz|
    ensures CorrectCount(quiz, answers + [i]) ==
      CorrectCount(quiz, answers) + (if IsCorrect(quiz[|answers|], i) then 1 else 0)
  {
    assert (answers + [i])[..|answers|] == answers;
  }

  /**
   * The state cells of one mounted `QuizScreen`. The explanation timer is
   * folded into the selection: the explanation shows as soon as an answer
   * is recorded.
   */
  class QuizScreen {
    const quiz: seq<QuizQuestion>
    var currentIdx: nat
    var selectedIdx: Option<int>
    var score: nat
    var showExplanation: bool
    /** The option picked for every question answered so far, in order. */
    ghost var answers: seq<int>

    ghost predicate Valid()
      reads this
    {
      1 <= |quiz| <= |Levels| &&
      currentIdx < |quiz| &&
      showExplanation == selectedIdx.Some? &&
      |answers| == currentIdx + (if selectedIdx.Some? then 1 else 0) &&
      (selectedIdx.Some? ==> answers[currentIdx] == selectedIdx.value) &&
      score == CorrectCount(quiz, answers)
    }

    /**
     * The progress bar's numerator: questions passed, plus the current one
     * once answered (the bar shows it divided by `|quiz|`).
     */
    function Progress(): (p: nat)
      reads this
      ensures Valid() ==> p == |answers| && p <= |quiz|
    {
      currentIdx + (if selectedIdx.Some? then 1 else 0)
    }

    /** The score never exceeds the progress, which never exceeds the number of questions. */
    lemma ScoreBounded()
      requires Valid()
      ensures score <= Progress() <= |quiz|
    {
    }

    /** The bar is full exactly when the last question has been answered. */
    lemma ProgressFullIff()
      requires Valid()
      ensures Progress() == |quiz| <==> currentIdx == |quiz| - 1 && selectedIdx.Some?
    {
    }

    constructor (quiz: seq<QuizQuestion>)
      requires 1 <= |quiz| <= |Levels|
      ensures Valid() && this.quiz == quiz
      ensures currentIdx == 0 && selectedIdx == None && score == 0 && !showExplanation
      ensures answers == []
    {
      this.quiz := quiz;
      currentIdx := 0;
      selectedIdx := None;
      score := 0;
      showExplanation := false;
      answers := [];
    }

    /**
     * `handleSelect(idx)`: a no-op once an answer is recorded; otherwise
     * records `idx`, adds one point iff it matches `correctIndex`, and shows
     * the explanation. Only the option buttons call it, with their own index.
     */
    method HandleSelect(idx: int)
      requires Valid()
      requires 0 <= idx < |quiz[currentIdx].options|
      modifies this
      ensures Valid()
      ensures old(selectedIdx).Some? ==>
        selectedIdx == old(selectedIdx) && score == old(score) && showExplanation == old(showExplanation) &&
        answers == old(answers)
      ensures old(selectedIdx).None? ==>
        selectedIdx == Some(idx) && showExplanation &&
        score == old(score) + (if IsCorrect(quiz[currentIdx], idx) then 1 else 0) &&
        answers == old(answers) + [idx]
      ensures currentIdx == old(currentIdx)
      ensures Progress() >= old(Progress())
    {
      if selectedIdx.Some? {
        return;
      }
      CorrectCountAppend(quiz, answers, idx);
      selectedIdx := Some(idx);
      answers := answers + [idx];
      if idx == quiz[currentIdx].correctIndex {
        score := score + 1;
      }
      showExplanation := true;
    }

    /**
     * `handleNext`, offered only while the explanation shows: on a question
     * before the last, moves to the next one with nothing selected and the
     * score unchanged; on the last, emits `onComplete(score)`, where the
     * score counts the correct answers among all of the quiz's answers.
     */
    method HandleNext() returns (completed: Option<nat>)
      requires Valid() && showExplanation
      modifies this
      ensures Valid()
      ensures score == old(score) && answers == old(answers)
      ensures completed.Some? <==> old(currentIdx) == |quiz| - 1
      ensures completed.None? ==>
        currentIdx == old(currentIdx) + 1 && selectedIdx == None && !showExplanation
      ensures completed.Some? ==>
        currentIdx == old(currentIdx) && selectedIdx == old(selectedIdx) &&
        |answers| == |quiz| && completed.value == CorrectCount(quiz, answers) == score
      ensures Progress() >= old(Progress())
    {
      if currentIdx < |quiz| - 1 {
        currentIdx := currentIdx + 1;
        selectedIdx := None;
        showExplanation := false;
        completed := None;
      } else {
        completed := Some(score);
      }
    }
  }
}
