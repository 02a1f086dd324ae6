/** The records the analysis pipeline passes around, and the small wrapper
    datatypes the services use for absent values, errors and stored entries. */
module Types {

  /** A value that may be absent: `T | null` or an optional key. */
  datatype Option<+T> = None | Some(value: T)

  /** The outcome of an operation that can throw. */
  datatype Result<+T, +E> = Success(value: T) | Failure(error: E)

  /** The outcome of an operation that returns nothing but can throw. */
  datatype Outcome<+E> = Pass | Fail(error: E)

  /** One entry of the browser's local storage, as `getItem` followed by
      `JSON.parse` sees it: nothing (null or the empty string, both falsy),
      text that does not parse, or a parsed value. */
  datatype Slot<+T> = Missing | Unparseable | Stored(value: T)

  /** The video metadata the user edits; tags are one comma-joined string. */
  datatype VideoData = VideoData(
    title: string,
    description: string,
    tags: string,
    transcript: string,
    youtubeLink: string)

  /** Scores are taken to be whole numbers (the response schema says NUMBER). */
  datatype Score = Score(score: int, explanation: string)

  datatype Scores = Scores(
    compliance: Score,
    thumbnail: Score,
    title: Score,
    description: Score,
    seoOpportunity: Score)

  /** Severity and difficulty are open strings in the response schema. */
  datatype Issue = Issue(ruleId: string, severity: string, evidence: string, fix: string)

  datatype Keyword = Keyword(phrase: string, intent: string, difficulty: string)

  datatype ThumbnailVariant = ThumbnailVariant(id: string, rationale: string, imageUrl: Option<string>)

  datatype Recommendations = Recommendations(
    titles: seq<string>,
    description: string,
    hashtags: seq<string>,
    keywords: seq<Keyword>,
    thumbnailVariants: seq<ThumbnailVariant>)

  /** The shape of the model's answer, as the response schema declares it. */
  datatype AnalysisResult = AnalysisResult(
    scores: Scores,
    issues: seq<Issue>,
    recommendations: Recommendations)

  /** The effective API configuration. The provider is the plain string the
      code compares against; the two names it knows are below. */
  datatype ApiConfig = ApiConfig(
    provider: string,
    model: string,
    geminiKey: string,
    openAIKey: string,
    youtubeKey: string,
    youtubeTranscriptKey: string)

  const GeminiProvider: string := "gemini"
  const OpenAIProvider: string := "openai"

  /** A saved analysis. `user_id` is absent for sessions kept in the browser. */
  datatype Session = Session(
    id: string,
    user_id: Option<string>,
    created_at: string,
    videoTitle: string,
    videoData: VideoData,
    analysisResult: AnalysisResult,
    thumbnailPreview: Option<string>)

  /** What a caller hands to `saveSession`: a session without id, owner and
      creation time. */
  datatype SessionData = SessionData(
    videoTitle: string,
    videoData: VideoData,
    analysisResult: AnalysisResult,
    thumbnailPreview: Option<string>)
}
