/** What the results panel computes from an analysis: the overall score,
    the "safe" verdict, and the recommendation items it lists. */
module ResultsSection {
  import opened Types

  /** JavaScript's `Math.round`: the nearest integer, halves rounded up. */
  function Round(x: real): (r: int)
    ensures x - 0.5 < r as real <= x + 0.5
  {
    (x + 0.5).Floor
  }

  function ScoreSum(s: Scores): int
  {
    s.compliance.score + s.thumbnail.score + s.title.score + s.description.score + s.seoOpportunity.score
  }

  /** Rounding a fifth of a whole number needs no fractions: a sum over five
      never ends in exactly one half, so it is `(sum + 2) / 5`. */
  lemma RoundFifth(sum: int)
    ensures Round(sum as real / 5.0) == (sum + 2) / 5
  {
    var k := (sum + 2) / 5;
    var m := (sum + 2) % 5;
    assert sum + 2 == 5 * k + m && 0 <= m < 5;
    var x := sum as real / 5.0 + 0.5;
    assert x == (k as real) + (2 * m + 1) as real / 10.0;
    assert (k as real) <= x < (k + 1) as real;
  }

  /** The rounded mean of the five scores: five times it is within two of
      their sum. */
  function OverallScore(s: Scores): (overall: int)
    ensures 5 * overall - 2 <= ScoreSum(s) <= 5 * overall + 2
  {
    RoundFifth(ScoreSum(s));
    Round(ScoreSum(s) as real / 5.0)
  }

  /** The overall score is the integer rounding of the mean. */
  lemma OverallScoreIsIntegerMean(s: Scores)
    ensures OverallScore(s) == (ScoreSum(s) + 2) / 5
  {
    RoundFifth(ScoreSum(s));
  }

  predicate Within(score: Score, lo: int, hi: int)
  {
    lo <= score.score <= hi
  }

  /** When every score lies in one range, so does the overall score. */
  lemma OverallScoreWithin(s: Scores, lo: int, hi: int)
    requires Within(s.compliance, lo, hi) && Within(s.thumbnail, lo, hi) && Within(s.title, lo, hi)
    requires Within(s.description, lo, hi) && Within(s.seoOpportunity, lo, hi)
    ensures lo <= OverallScore(s) <= hi
  {
    OverallScoreIsIntegerMean(s);
  }

  /** Scores between 0 and 100 give an overall score between 0 and 100. */
  lemma OverallScoreBounds(s: Scores)
    requires Within(s.compliance, 0, 100) && Within(s.thumbnail, 0, 100) && Within(s.title, 0, 100)
    requires Within(s.description, 0, 100) && Within(s.seoOpportunity, 0, 100)
    ensures 0 <= OverallScore(s) <= 100
  {
    OverallScoreWithin(s, 0, 100);
  }

  /** The green "safe" verdict is shown when the overall score is above 80. */
  predicate IsSafe(overall: int)
  {
    overall > 80
  }

  /** The scores of the sample analysis shipped with the application. */
  const SampleScores: Scores := Scores(
    Score(95, ""), Score(78, ""), Score(84, ""), Score(81, ""), Score(73, ""))

  /** The sample scores average 82.2, which rounds to 82: safe, while an
      overall score of exactly 80 is not. */
  lemma SampleIsSafe()
    ensures OverallScore(SampleScores) == 82
    ensures IsSafe(OverallScore(SampleScores)) && !IsSafe(80)
  {
    OverallScoreIsIntegerMean(SampleScores);
  }

  datatype RecommendationType = TitleRecommendation | DescriptionRecommendation | TagsRecommendation

  datatype RecommendationItem = RecommendationItem(kind: RecommendationType, content: string)

  /** One title item per suggested title, in order. */
  function TitleItems(titles: seq<string>): (items: seq<RecommendationItem>)
    ensures |items| == |titles|
    ensures forall i :: 0 <= i < |items| ==> items[i] == RecommendationItem(TitleRecommendation, titles[i])
  {
    if titles == [] then [] else [RecommendationItem(TitleRecommendation, titles[0])] + TitleItems(titles[1..])
  }

  /** The single description item carries the suggested description. */
  function DescriptionItems(r: Recommendations): (items: seq<RecommendationItem>)
    ensures items == [RecommendationItem(DescriptionRecommendation, r.description)]
  {
    [RecommendationItem(DescriptionRecommendation, r.description)]
  }

  /** `Array.prototype.join(", ")`. */
  function Join(parts: seq<string>): string
  {
    if |parts| == 0 then ""
    else if |parts| == 1 then parts[0]
    else parts[0] + ", " + Join(parts[1..])
  }

  function TotalLength(parts: seq<string>): nat
  {
    if parts == [] then 0 else |parts[0]| + TotalLength(parts[1..])
  }

  /** The joined text is the parts plus one separator between each pair. */
  lemma {:induction false} JoinLength(parts: seq<string>)
    requires parts != []
    ensures |Join(parts)| == TotalLength(parts) + 2 * (|parts| - 1)
  {
    if |parts| > 1 {
      JoinLength(parts[1..]);
    }
  }

  /** Joining one more part at the end appends a separator and that part. */
  lemma {:induction false} JoinSnoc(parts: seq<string>, last: string)
    requires parts != []
    ensures Join(parts + [last]) == Join(parts) + ", " + last
  {
    if |parts| == 1 {
      assert parts + [last] == [parts[0], last];
    } else {
      assert (parts + [last])[1..] == parts[1..] + [last];
      JoinSnoc(parts[1..], last);
    }
  }

  /** The single tags item: the hashtags joined with a comma and a space. */
  function TagItems(r: Recommendations): (items: seq<RecommendationItem>)
    ensures |items| == 1 && items[0].kind == TagsRecommendation
    ensures items[0].content == Join(r.hashtags)
  {
    [RecommendationItem(TagsRecommendation, Join(r.hashtags))]
  }
}
