/** The analysis request: its guards, the instruction text, the ordered
    parts sent to the model and the handling of the model's answer. The
    model call and `JSON.parse` are outside code, so they are parameters. */
module GeminiService {
  import opened Types

  // ---------------------------------------------------------------------
  // Errors
  // ---------------------------------------------------------------------

  /** What an analysis can fail with. `ServiceError` carries the message of
      whatever the model call itself raised. */
  datatype AnalysisError =
    | ProviderNotImplemented
    | MissingGeminiKey
    | ServiceError(message: string)
    | InvalidJson

  function Message(e: AnalysisError): string
  {
    match e
    case ProviderNotImplemented => "OpenAI provider is not yet implemented."
    case MissingGeminiKey => "Gemini API Key is not provided. Please add it in the configuration section."
    case ServiceError(m) => m
    case InvalidJson => "Received invalid JSON format from the analysis service."
  }

  /** The checks made before anything is sent. The provider check comes
      first, so an OpenAI configuration fails the same way with or without
      a key; any other provider name takes the Gemini path. */
  function Guard(config: ApiConfig): (g: Option<AnalysisError>)
    ensures config.provider == OpenAIProvider ==> g == Some(ProviderNotImplemented)
    ensures config.provider != OpenAIProvider ==> (g == Some(MissingGeminiKey) <==> config.geminiKey == "")
    ensures g.None? <==> config.provider != OpenAIProvider && config.geminiKey != ""
  {
    if config.provider == OpenAIProvider then Some(ProviderNotImplemented)
    else if config.geminiKey == "" then Some(MissingGeminiKey)
    else None
  }

  // ---------------------------------------------------------------------
  // The instruction text
  // ---------------------------------------------------------------------

  /** `s` occurs somewhere in `text`. */
  predicate IsInfix(s: string, text: string)
  {
    exists i, j :: 0 <= i <= j <= |text| && text[i..j] == s
  }

  lemma InfixOfConcat(a: string, b: string, c: string)
    ensures IsInfix(b, a + b + c)
  {
    var t := a + b + c;
    assert t[|a|..|a| + |b|] == b;
  }

  /** A thumbnail is sent when it is present and not empty (the code tests
      its truthiness). */
  predicate HasThumbnail(thumbnail: Option<string>)
  {
    thumbnail.Some? && thumbnail.value != ""
  }

  const ImageProvided: string := "[An image is provided]"
  const NoImageProvided: string := "[No image provided]"

  function ThumbnailMarker(thumbnail: Option<string>): (m: string)
    ensures m == ImageProvided <==> HasThumbnail(thumbnail)
    ensures m == NoImageProvided <==> !HasThumbnail(thumbnail)
  {
    if HasThumbnail(thumbnail) then ImageProvided else NoImageProvided
  }

  /** The fixed text before the title. */
  const PromptHead: string := @"
    Act as an expert YouTube growth consultant and policy specialist. Your name is ClearCue.
    Analyze the following YouTube video content and provide a comprehensive report in JSON format.
    The user is from Vietnam, so all explanations, rationales, and fixes should be in Vietnamese.
    
    VIDEO DATA:
    - Title: "

  const DescriptionLabel: string := "\n    - Description: "
  const TagsLabel: string := "\n    - Tags: "
  const TranscriptLabel: string := "\n    - Transcript Snippet: "
  const ThumbnailLabel: string := "\n\n    THUMBNAIL:\n    "

  /** The fixed text after the thumbnail marker: what the model must score
      and recommend. */
  const Requirements: string := @"

    ANALYSIS REQUIREMENTS:

    1.  **Scoring (0-100):** Provide a score and a brief Vietnamese explanation for each category:
        -   `compliance`: How well it adheres to YouTube Community Guidelines and advertiser-friendly policies.
        -   `thumbnail`: CTR potential, clarity, legibility on mobile, and visual appeal.
        -   `title`: Clickability, clarity, and optimal length (~55-70 characters).
        -   `description`: SEO optimization, clarity, structure (chapters, CTAs), and use of hashtags.
        -   `seoOpportunity`: Potential to rank based on keywords, tags, and intent.

    2.  **Issues:** Identify specific violations or risks. For each issue:
        -   `ruleId`: A short identifier (e.g., 'ads-sensitive-violence').
        -   `severity`: 'low', 'medium', or 'high'.
        -   `evidence`: The exact text or element causing the issue.
        -   `fix`: A suggested Vietnamese replacement or solution.

    3.  **Recommendations:** Provide actionable suggestions to improve the video's performance.
        -   `titles`: Suggest 3 alternative, high-CTR titles.
        -   `description`: Rewrite the description to be more SEO-friendly, including a hook, timestamps (chapters), and a clear call-to-action.
        -   `hashtags`: Suggest up to 5 relevant, high-traffic hashtags.
        -   `keywords`: Suggest 3-5 keywords (seed and long-tail), identifying their search intent and difficulty.
        -   `thumbnailVariants`: Provide 2 rationales for A/B testing the thumbnail (e.g., 'Increase text contrast', 'Focus on a human face').

    Your entire output must be a single, valid JSON object that conforms to the provided schema.
  "

  /** The template with its fixed pieces and its interpolated values in
      order: heading, title, label, description, label, tags, label,
      transcript, label, thumbnail marker, requirements. */
  function Template(head: string, title: string, l1: string, description: string, l2: string, tags: string,
                    l3: string, transcript: string, l4: string, marker: string, tail: string): string
  {
    head + title + l1 + description + l2 + tags + l3 + transcript + l4 + marker + tail
  }

  /** Every interpolated value of the template occurs in its text. */
  lemma TemplateQuotes(head: string, title: string, l1: string, description: string, l2: string, tags: string,
                       l3: string, transcript: string, l4: string, marker: string, tail: string)
    ensures var t := Template(head, title, l1, description, l2, tags, l3, transcript, l4, marker, tail);
      IsInfix(title, t) && IsInfix(description, t) && IsInfix(tags, t) && IsInfix(transcript, t)
  {
    var t := Template(head, title, l1, description, l2, tags, l3, transcript, l4, marker, tail);
    var rest := l4 + marker + tail;
    var a1 := head;
    var c1 := l1 + description + l2 + tags + l3 + transcript + rest;
    assert t == a1 + title + c1;
    InfixOfConcat(a1, title, c1);
    var a2 := a1 + title + l1;
    var c2 := l2 + tags + l3 + transcript + rest;
    assert t == a2 + description + c2;
    InfixOfConcat(a2, description, c2);
    var a3 := a2 + description + l2;
    var c3 := l3 + transcript + rest;
    assert t == a3 + tags + c3;
    InfixOfConcat(a3, tags, c3);
    var a4 := a3 + tags + l3;
    assert t == a4 + transcript + rest;
    InfixOfConcat(a4, transcript, rest);
  }

  /** Two fillings of the template that differ only in the marker differ
      only at the marker's place. */
  lemma TemplateMarker(head: string, title: string, l1: string, description: string, l2: string, tags: string,
                       l3: string, transcript: string, l4: string, m1: string, m2: string, tail: string)
    ensures exists pre, post ::
      && Template(head, title, l1, description, l2, tags, l3, transcript, l4, m1, tail) == pre + m1 + post
      && Template(head, title, l1, description, l2, tags, l3, transcript, l4, m2, tail) == pre + m2 + post
  {
    var pre := head + title + l1 + description + l2 + tags + l3 + transcript + l4;
    assert Template(head, title, l1, description, l2, tags, l3, transcript, l4, m1, tail) == pre + m1 + tail;
    assert Template(head, title, l1, description, l2, tags, l3, transcript, l4, m2, tail) == pre + m2 + tail;
  }

  /** The instruction text: the video fields go in as they are, with no
      escaping. */
  function Prompt(v: VideoData, thumbnail: Option<string>): string
  {
    Template(PromptHead, v.title, DescriptionLabel, v.description, TagsLabel, v.tags,
             TranscriptLabel, v.transcript, ThumbnailLabel, ThumbnailMarker(thumbnail), Requirements)
  }

  /** Title, description, tags and transcript all appear verbatim. */
  lemma PromptQuotesVideoData(v: VideoData, thumbnail: Option<string>)
    ensures IsInfix(v.title, Prompt(v, thumbnail))
    ensures IsInfix(v.description, Prompt(v, thumbnail))
    ensures IsInfix(v.tags, Prompt(v, thumbnail))
    ensures IsInfix(v.transcript, Prompt(v, thumbnail))
  {
    TemplateQuotes(PromptHead, v.title, DescriptionLabel, v.description, TagsLabel, v.tags,
                   TranscriptLabel, v.transcript, ThumbnailLabel, ThumbnailMarker(thumbnail), Requirements);
  }

  /** Whether a thumbnail is sent changes the instruction text in one place
      only: the marker after the thumbnail heading. */
  lemma ThumbnailOnlyChangesMarker(v: VideoData, t1: Option<string>, t2: Option<string>)
    ensures exists pre, post ::
      && Prompt(v, t1) == pre + ThumbnailMarker(t1) + post
      && Prompt(v, t2) == pre + ThumbnailMarker(t2) + post
  {
    TemplateMarker(PromptHead, v.title, DescriptionLabel, v.description, TagsLabel, v.tags,
                   TranscriptLabel, v.transcript, ThumbnailLabel, ThumbnailMarker(t1), ThumbnailMarker(t2), Requirements);
  }

  // ---------------------------------------------------------------------
  // The request
  // ---------------------------------------------------------------------

  /** One part of a multi-part request: text, or an inline encoded image. */
  datatype Part = TextPart(text: string) | InlineData(mimeType: string, data: string)

  /** What is sent to the model; the response schema is the shape of
      `AnalysisResult`. */
  datatype Request = Request(model: string, parts: seq<Part>, responseMimeType: string)

  /** The parts in the order they are sent: the image, when there is one,
      before the single text part. */
  function PartsFor(prompt: string, thumbnail: Option<string>): (parts: seq<Part>)
    ensures |parts| == if HasThumbnail(thumbnail) then 2 else 1
    ensures parts[|parts| - 1] == TextPart(prompt)
    ensures HasThumbnail(thumbnail) ==> parts[0] == InlineData("image/jpeg", thumbnail.value)
  {
    if HasThumbnail(thumbnail) then [InlineData("image/jpeg", thumbnail.value), TextPart(prompt)]
    else [TextPart(prompt)]
  }

  /** The parts list as the code builds it: push the text, then unshift the
      image in front of it when there is one. */
  method BuildParts(prompt: string, thumbnail: Option<string>) returns (parts: seq<Part>)
    ensures parts == PartsFor(prompt, thumbnail)
    ensures !HasThumbnail(thumbnail) ==> parts == [TextPart(prompt)]
    ensures HasThumbnail(thumbnail) ==> parts == [InlineData("image/jpeg", thumbnail.value), TextPart(prompt)]
  {
    parts := [];
    parts := parts + [TextPart(prompt)];
    if thumbnail.Some? && thumbnail.value != "" {
      parts := [InlineData("image/jpeg", thumbnail.value)] + parts;
    }
  }

  /** The request for a video once the guards have passed; the configured
      model is used as it is. */
  function RequestFor(v: VideoData, thumbnail: Option<string>, config: ApiConfig): (r: Request)
    ensures r.model == config.model && r.responseMimeType == "application/json"
    ensures r.parts == PartsFor(Prompt(v, thumbnail), thumbnail)
  {
    Request(config.model, PartsFor(Prompt(v, thumbnail), thumbnail), "application/json")
  }

  // ---------------------------------------------------------------------
  // The answer
  // ---------------------------------------------------------------------

  /** The characters `String.prototype.trim` removes: ECMAScript white
      space and line terminators. */
  predicate IsTrimmed(c: char)
  {
    || c == '\t' || c == '\n' || c == '\U{000B}' || c == '\U{000C}' || c == '\r' || c == ' '
    || c == '\U{00A0}' || c == '\U{1680}' || ('\U{2000}' <= c <= '\U{200A}')
    || c == '\U{2028}' || c == '\U{2029}' || c == '\U{202F}' || c == '\U{205F}'
    || c == '\U{3000}' || c == '\U{FEFF}'
  }

  /** The text without its leading white space. */
  function TrimStart(s: string): string
  {
    if s != [] && IsTrimmed(s[0]) then TrimStart(s[1..]) else s
  }

  /** `TrimStart` leaves a suffix of the text, preceded only by white space,
      and not starting with any. */
  lemma {:induction false} TrimStartShape(s: string)
    ensures |TrimStart(s)| <= |s| && TrimStart(s) == s[|s| - |TrimStart(s)|..]
    ensures forall i :: 0 <= i < |s| - |TrimStart(s)| ==> IsTrimmed(s[i])
    ensures TrimStart(s) == [] || !IsTrimmed(TrimStart(s)[0])
  {
    if s != [] && IsTrimmed(s[0]) {
      TrimStartShape(s[1..]);
      assert s[1..][|s| - 1 - |TrimStart(s)|..] == s[|s| - |TrimStart(s)|..];
      forall i | 1 <= i < |s| - |TrimStart(s)| ensures IsTrimmed(s[i]) {
        assert s[i] == s[1..][i - 1];
      }
    }
  }

  /** The text without its trailing white space. */
  function TrimEnd(s: string): string
  {
    if s != [] && IsTrimmed(s[|s| - 1]) then TrimEnd(s[..|s| - 1]) else s
  }

  /** `TrimEnd` leaves a prefix of the text, followed only by white space,
      and not ending in any. */
  lemma {:induction false} TrimEndShape(s: string)
    ensures |TrimEnd(s)| <= |s| && TrimEnd(s) == s[..|TrimEnd(s)|]
    ensures forall i :: |TrimEnd(s)| <= i < |s| ==> IsTrimmed(s[i])
    ensures TrimEnd(s) == [] || !IsTrimmed(TrimEnd(s)[|TrimEnd(s)| - 1])
  {
    if s != [] && IsTrimmed(s[|s| - 1]) {
      TrimEndShape(s[..|s| - 1]);
      assert s[..|s| - 1][..|TrimEnd(s)|] == s[..|TrimEnd(s)|];
      forall i | |TrimEnd(s)| <= i < |s| - 1 ensures IsTrimmed(s[i]) {
        assert s[i] == s[..|s| - 1][i];
      }
    }
  }

  function Trim(s: string): string
  {
    TrimEnd(TrimStart(s))
  }

  /** Trimming cuts white space off both ends and nothing else. */
  lemma TrimShape(s: string)
    ensures exists i, j ::
      && 0 <= i <= j <= |s| && Trim(s) == s[i..j]
      && (forall k :: 0 <= k < i ==> IsTrimmed(s[k]))
      && (forall k :: j <= k < |s| ==> IsTrimmed(s[k]))
    ensures Trim(s) == [] || (!IsTrimmed(Trim(s)[0]) && !IsTrimmed(Trim(s)[|Trim(s)| - 1]))
  {
    var a := TrimStart(s);
    var b := TrimEnd(a);
    TrimStartShape(s);
    TrimEndShape(a);
    var i := |s| - |a|;
    var j := i + |b|;
    assert b == s[i..j];
    forall k | j <= k < |s| ensures IsTrimmed(s[k]) {
      assert s[k] == a[k - i];
    }
  }

  /** The answer's text after trimming is parsed; a parse failure becomes
      the invalid-JSON error and never a partial result. The parsed value
      is taken as the result without checking its shape. */
  function ParseResponse(text: string, parse: string -> Option<AnalysisResult>): (r: Result<AnalysisResult, AnalysisError>)
    ensures r.Success? <==> parse(Trim(text)).Some?
    ensures r.Success? ==> r.value == parse(Trim(text)).value
    ensures r.Failure? ==> r.error == InvalidJson
  {
    var parsed := parse(Trim(text));
    if parsed.Some? then Success(parsed.value) else Failure(InvalidJson)
  }

  /** The outcome of the call: a failure of the call itself propagates with
      its message, an answer is parsed. */
  function Answer(reply: Result<string, string>, parse: string -> Option<AnalysisResult>): (r: Result<AnalysisResult, AnalysisError>)
    ensures reply.Failure? ==> r == Failure(ServiceError(reply.error))
    ensures reply.Success? ==> r == ParseResponse(reply.value, parse)
  {
    if reply.Failure? then Failure(ServiceError(reply.error)) else ParseResponse(reply.value, parse)
  }

  /** `analyzeVideoContent`. `generate` stands for the model call and
      `parse` for `JSON.parse`; a guard failure is decided before either is
      used, so it does not depend on them. */
  method AnalyzeVideoContent(
    videoData: VideoData,
    thumbnail: Option<string>,
    config: ApiConfig,
    generate: Request -> Result<string, string>,
    parse: string -> Option<AnalysisResult>)
    returns (r: Result<AnalysisResult, AnalysisError>)
    ensures config.provider == OpenAIProvider ==> r == Failure(ProviderNotImplemented)
    ensures config.provider != OpenAIProvider && config.geminiKey == "" ==> r == Failure(MissingGeminiKey)
    ensures Guard(config).None? ==> r == Answer(generate(RequestFor(videoData, thumbnail, config)), parse)
  {
    if config.provider == OpenAIProvider {
      return Failure(ProviderNotImplemented);
    }
    if config.geminiKey == "" {
      return Failure(MissingGeminiKey);
    }
    var prompt := Prompt(videoData, thumbnail);
    var parts := BuildParts(prompt, thumbnail);
    var reply := generate(Request(config.model, parts, "application/json"));
    if reply.Failure? {
      return Failure(ServiceError(reply.error));
    }
    var jsonString := Trim(reply.value);
    var parsed := parse(jsonString);
    if parsed.Some? {
      r := Success(parsed.value);
    } else {
      r := Failure(InvalidJson);
    }
  }
}
