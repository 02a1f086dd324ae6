/** The compliance gauge beside the thumbnail: a progress value and a
    colour that also covers "no analysis yet". */
module ThumbnailSection {
  import opened Types
  import ScoreCard

  /** `scoreProgress`: the compliance score when there is a result, and 0
      when there is none. */
  function ScoreProgress(result: Option<AnalysisResult>): (p: int)
    ensures result.None? ==> p == 0
    ensures result.Some? ==> p == result.value.scores.compliance.score
  {
    match result
    case Some(r) => r.scores.compliance.score
    case None => 0
  }

  /** `getScoreColorClass`: no score gives the neutral class; a score gets
      the same band as on a score card. */
  function GetScoreColorClass(s: Option<int>): (c: ScoreCard.TextClass)
    ensures s.None? <==> c == ScoreCard.TextSecondary
    ensures s.Some? && s.value >= 85 ==> c == ScoreCard.TextSuccess
    ensures s.Some? && 60 <= s.value < 85 ==> c == ScoreCard.TextWarning
    ensures s.Some? && s.value < 60 ==> c == ScoreCard.TextDanger
  {
    match s
    case None => ScoreCard.TextSecondary
    case Some(v) =>
      if v >= 85 then ScoreCard.TextSuccess
      else if v >= 60 then ScoreCard.TextWarning
      else ScoreCard.TextDanger
  }

  /** The gauge and the score cards agree band for band. */
  lemma AgreesWithScoreCard(s: int)
    ensures GetScoreColorClass(Some(s)) == ScoreCard.GetScoreColor(s)
  {
  }
}
