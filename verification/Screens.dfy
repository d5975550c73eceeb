/**
 * The top-level `App` component: which screen is shown, the analysis it
 * carries, the loading flag, the error banner and the final score, and the
 * header's phase label.
 */
module Screens {
  import opened Wrappers
  import opened Types
  import opened StartScreen
  import opened GeminiService
  import opened Quiz
  import SummaryScreen

  /** The one message shown whatever made the analysis fail. */
  const OverloadMessage: string := "SYSTEM OVERLOAD: Bill complexity exceeded limits. Try a clearer scan."

  /** How the awaited `analyzeBillSource` call settled. */
  datatype AnalyzeOutcome = Resolved(result: BillAnalysis) | Rejected

  /** `getStepName`: the header label of each screen, and "" for anything else. */
  function StepName(s: AppState): (name: string)
    ensures name == "" <==> s == ANALYZING
  {
    match s
    case START => "PHASE 01: INTEL"
    case BREAKDOWN => "PHASE 02: DECODE"
    case QUIZ => "PHASE 03: SIMULATE"
    case SUMMARY => "PHASE 04: MASTERY"
    case ANALYZING => ""
  }

  /** The four screens have four different labels. */
  lemma StepNamesDistinct(a: AppState, b: AppState)
    ensures a != b && a != ANALYZING && b != ANALYZING ==> StepName(a) != StepName(b)
  {
  }

  class App {
    var state: AppState
    var analysis: Option<BillAnalysis>
    var loading: bool
    var error: Option<string>
    var finalScore: nat
    /** The mounted quiz screen, present exactly while the quiz is shown. */
    var quizScreen: QuizScreen?
    /** The answers given in the quiz that produced `finalScore`. */
    ghost var finalAnswers: seq<int>

    /**
     * The reachable states: an analysis is held exactly off the start
     * screen, loading only happens on the start screen, the error banner only
     * shows on an idle start screen, and the summary's score is the number of
     * correct answers of a complete run of the analysis's quiz.
     */
    ghost predicate Valid()
      reads this, quizScreen
    {
      state != ANALYZING &&
      (state == START <==> analysis.None?) &&
      (loading ==> state == START) &&
      (error.Some? ==> state == START && !loading && error.value == OverloadMessage) &&
      (state == QUIZ <==> quizScreen != null) &&
      (quizScreen != null ==> analysis.Some? && quizScreen.Valid() && quizScreen.quiz == analysis.value.quiz) &&
      (state == SUMMARY ==>
        analysis.Some? && |finalAnswers| == |analysis.value.quiz| &&
        finalScore == CorrectCount(analysis.value.quiz, finalAnswers)) &&
      (state != SUMMARY ==> finalScore == 0)
    }

    /** The header label of the current screen. */
    function CurrentStepName(): string
      reads this
    {
      StepName(state)
    }

    constructor ()
      ensures Valid()
      ensures state == START && analysis == None && !loading && error == None && finalScore == 0
      ensures quizScreen == null
    {
      state := START;
      analysis := None;
      loading := false;
      error := None;
      finalScore := 0;
      quizScreen := null;
      finalAnswers := [];
    }

    /**
     * The synchronous start of `handleAnalyze`, fired by the enabled submit
     * button: sets `loading`, clears the error, and issues the request whose
     * parts are returned. Because the button was enabled, the request is
     * never empty.
     */
    method BeginAnalyze(text: string, file: Option<FileData>) returns (parts: seq<Part>)
      requires Valid() && state == START && !SubmitDisabled(loading, text, file)
      modifies this
      ensures Valid()
      ensures loading && error == None
      ensures state == old(state) && analysis == old(analysis) && finalScore == old(finalScore)
      ensures quizScreen == old(quizScreen)
      ensures |parts| >= 1
      ensures |parts| == (if text != "" then 1 else 0) + (if file.Some? then 2 else 0)
      ensures text != "" ==> parts[0] == TextPart(TextPrefix + text)
      ensures file.Some? ==>
        parts[|parts| - 2] == InlineData(file.value.base64, file.value.mimeType) &&
        parts[|parts| - 1] == TextPart(DocumentInstruction)
    {
      EnabledHasInput(loading, text, file);
      assert HasText(Some(text)) == (text != "");
      parts := BuildParts(Some(text), file);
      assert |parts| >= 1;
      loading := true;
      error := None;
    }

    /**
     * The rest of `handleAnalyze`, once the call settles: a result is stored
     * and the breakdown shown; a failure sets the fixed message and leaves
     * screen and analysis alone. Either way loading ends.
     */
    method ResolveAnalyze(outcome: AnalyzeOutcome)
      requires Valid() && loading
      modifies this
      ensures Valid()
      ensures !loading && finalScore == old(finalScore) && quizScreen == old(quizScreen)
      ensures outcome.Resolved? ==>
        state == BREAKDOWN && analysis == Some(outcome.result) && error == old(error) &&
        CurrentStepName() == "PHASE 02: DECODE"
      ensures outcome.Rejected? ==>
        state == old(state) && analysis == old(analysis) && error == Some(OverloadMessage)
    {
      match outcome {
        case Resolved(result) =>
          analysis := Some(result);
          state := BREAKDOWN;
        case Rejected =>
          error := Some(OverloadMessage);
      }
      loading := false;
    }

    /**
     * The breakdown screen's `onNext`: shows the quiz with a fresh quiz
     * screen. The quiz screen reads `quiz[0]` and one stage banner per
     * question, so the quiz must have between one and three questions.
     */
    method HandleBreakdownNext()
      requires Valid() && state == BREAKDOWN
      requires 1 <= |analysis.value.quiz| <= |Levels|
      modifies this
      ensures Valid()
      ensures state == QUIZ && analysis == old(analysis) && loading == old(loading)
      ensures error == old(error) && finalScore == old(finalScore)
      ensures quizScreen != null && fresh(quizScreen)
      ensures quizScreen.currentIdx == 0 && quizScreen.selectedIdx == None && quizScreen.score == 0
    {
      quizScreen := new QuizScreen(analysis.value.quiz);
      state := QUIZ;
    }

    /** An option button of the mounted quiz screen. */
    method QuizSelect(idx: int)
      requires Valid() && state == QUIZ
      requires 0 <= idx < |quizScreen.quiz[quizScreen.currentIdx].options|
      modifies quizScreen
      ensures Valid()
      ensures quizScreen.currentIdx == old(quizScreen.currentIdx)
      ensures quizScreen.Progress() >= old(quizScreen.Progress())
      ensures old(quizScreen.selectedIdx).None? ==>
        quizScreen.selectedIdx == Some(idx) && quizScreen.showExplanation &&
        quizScreen.score == old(quizScreen.score) + (if IsCorrect(quizScreen.quiz[quizScreen.currentIdx], idx) then 1 else 0)
      ensures old(quizScreen.selectedIdx).Some? ==>
        quizScreen.selectedIdx == old(quizScreen.selectedIdx) &&
        quizScreen.showExplanation == old(quizScreen.showExplanation) &&
        quizScreen.score == old(quizScreen.score)
    {
      quizScreen.HandleSelect(idx);
    }

    /**
     * The quiz screen's next button. After the last question its
     * `onComplete(score)` stores the score and shows the summary, unmounting
     * the quiz; the stored score counts the correct answers of the run.
     */
    method QuizNext()
      requires Valid() && state == QUIZ && quizScreen.showExplanation
      modifies this, quizScreen
      ensures Valid()
      ensures analysis == old(analysis) && loading == old(loading) && error == old(error)
      ensures old(quizScreen.currentIdx) == |analysis.value.quiz| - 1 ==>
        state == SUMMARY && finalScore == old(quizScreen.score) && quizScreen == null
      ensures old(quizScreen.currentIdx) < |analysis.value.quiz| - 1 ==>
        state == QUIZ && quizScreen == old(quizScreen) && finalScore == old(finalScore) &&
        quizScreen.currentIdx == old(quizScreen.currentIdx) + 1 && quizScreen.score == old(quizScreen.score) &&
        quizScreen.selectedIdx == None && !quizScreen.showExplanation
    {
      var completed := quizScreen.HandleNext();
      if completed.Some? {
        finalAnswers := quizScreen.answers;
        finalScore := completed.value;
        state := SUMMARY;
        quizScreen := null;
      }
    }

    /**
     * `handleReset`, from the header on any screen or from the summary: back
     * to the start screen with no analysis, no error and a zero score. The
     * loading flag is not touched.
     */
    method HandleReset()
      requires Valid()
      modifies this
      ensures Valid()
      ensures state == START && analysis == None && error == None && finalScore == 0
      ensures quizScreen == null && loading == old(loading)
      ensures CurrentStepName() == "PHASE 01: INTEL"
    {
      state := START;
      analysis := None;
      error := None;
      finalScore := 0;
      quizScreen := null;
    }

    /** The summary's verdict: a pass exactly when at least three fifths of the questions were answered correctly. */
    lemma SummaryVerdict()
      requires Valid() && state == SUMMARY
      ensures finalScore <= |analysis.value.quiz|
      ensures SummaryScreen.IsWinner(finalScore, |analysis.value.quiz|) <==>
        |analysis.value.quiz| > 0 && 5 * finalScore >= 3 * |analysis.value.quiz|
    {
    }
  }
}
