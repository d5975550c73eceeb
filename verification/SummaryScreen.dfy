/** The pass verdict of the summary screen, `score / total >= 0.6`, on integers. */
module SummaryScreen {

  /**
   * `isWinner`. For `total > 0` the quotient is at least 0.6 exactly when
   * `5 * score >= 3 * total`. For `total == 0` the quotient is NaN (`0 / 0`,
   * not a pass) or an infinity whose sign is that of `score`.
   */
  function IsWinner(score: int, total: nat): (win: bool)
    ensures win ==> score > 0
    ensures score >= total && score > 0 ==> win
  {
    if total == 0 then score > 0 else 5 * score >= 3 * total
  }

  /** For a non-empty quiz the verdict is the exact ratio test against three fifths. */
  lemma IsWinnerIffRatio(score: int, total: nat)
    requires total > 0
    ensures IsWinner(score, total) <==> (score as real) / (total as real) >= 3.0 / 5.0
  {
  }

  /** Two out of three passes; one out of three does not; nothing out of nothing does not. */
  lemma ThresholdExamples()
    ensures IsWinner(2, 3) && !IsWinner(1, 3) && IsWinner(3, 3) && !IsWinner(0, 0)
  {
  }

  /** A higher score on the same quiz never turns a pass into a fail. */
  lemma IsWinnerMonotone(score: int, better: int, total: nat)
    requires IsWinner(score, total) && score <= better
    ensures IsWinner(better, total)
  {
  }
}
