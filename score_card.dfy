/** The colour of one score: three bands split at 85 and 60. */
module ScoreCard {

  /** The text classes the score views use. */
  datatype TextClass = TextSuccess | TextWarning | TextDanger | TextSecondary

  function ClassName(c: TextClass): string
  {
    match c
    case TextSuccess => "text-brand-success"
    case TextWarning => "text-brand-warning"
    case TextDanger => "text-brand-danger"
    case TextSecondary => "text-brand-text-secondary"
  }

  /** `getScoreColor`: 85 and up is success, 60 up to 85 is warning, below
      60 is danger; a score always gets one of these three. */
  function GetScoreColor(s: int): (c: TextClass)
    ensures c == TextSuccess <==> s >= 85
    ensures c == TextWarning <==> 60 <= s < 85
    ensures c == TextDanger <==> s < 60
    ensures c != TextSecondary
  {
    if s >= 85 then TextSuccess
    else if s >= 60 then TextWarning
    else TextDanger
  }

  /** How good a band is: danger, warning, success. */
  function Rank(c: TextClass): nat
  {
    match c
    case TextDanger => 0
    case TextWarning => 1
    case TextSuccess => 2
    case TextSecondary => 0
  }

  /** A higher score never lands in a worse band. */
  lemma GetScoreColorMonotone(s: int, t: int)
    requires s <= t
    ensures Rank(GetScoreColor(s)) <= Rank(GetScoreColor(t))
  {
  }

  /** Different classes have different names, so the view can tell the
      bands apart. */
  lemma ClassNamesDistinct(c: TextClass, d: TextClass)
    requires c != d
    ensures ClassName(c) != ClassName(d)
  {
  }
}
