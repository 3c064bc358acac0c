/**
 * The text-generation service: three request kinds, each a prompt with the caller's input in it
 * and a fixed temperature, and each turning whatever the SDK does into a non-empty string.
 * The SDK call is not modelled; its outcome is a parameter.
 */
module GeminiService {
  import opened Options
  import opened Text

  /** What awaiting `generateContent` does: throw, or respond with a text that may be absent. */
  datatype SdkOutcome = Threw(error: string) | Responded(text: Option<string>)

  /** The arguments of `generateContent`: model, prompt, and the temperature of its config. */
  datatype GenerateRequest = GenerateRequest(model: string, contents: string, temperature: real)

  const ModelId := "gemini-3-flash-preview"

  /**
   * The shape all three functions share: `response.text || whenEmpty` inside a `try`, and
   * `whenFailed` from the `catch`. A thrown failure never escapes.
   */
  function Absorb(o: SdkOutcome, whenEmpty: string, whenFailed: string): (r: string)
    ensures o.Threw? ==> r == whenFailed
    ensures o.Responded? && Truthy(o.text) ==> r == o.text.value
    ensures o.Responded? && !Truthy(o.text) ==> r == whenEmpty
  {
    match o
    case Threw(_) => whenFailed
    case Responded(text) => if Truthy(text) then text.value else whenEmpty
  }

  const IdeasPrefix := "Generate 3 creative marketing campaign ideas for a luxury wedding and photography business focusing on: "
  const IdeasSuffix := ". Format the output as a clear list with titles and descriptions."
  const NoIdeas := "No ideas generated."
  const IdeasFailed := "Error generating AI marketing ideas."

  /** The request `getMarketingIdeas` sends for a topic. */
  function MarketingIdeasRequest(topic: string): (q: GenerateRequest)
    ensures q.model == ModelId && q.temperature == 0.7
    ensures q.contents == IdeasPrefix + topic + IdeasSuffix
  {
    GenerateRequest(ModelId, IdeasPrefix + topic + IdeasSuffix, 0.7)
  }

  /** `getMarketingIdeas` once the SDK has answered: never empty, and a text is passed on as is. */
  function MarketingIdeas(o: SdkOutcome): (r: string)
    ensures r != ""
    ensures o.Responded? && Truthy(o.text) ==> r == o.text.value
    ensures o.Responded? && !Truthy(o.text) ==> r == NoIdeas
    ensures o.Threw? ==> r == IdeasFailed
  {
    Absorb(o, NoIdeas, IdeasFailed)
  }

  const InsightsPrefix := "Analyze the following staff performance data and provide a summary of strengths and areas for improvement: "
  const NoInsights := "No insights available."
  const InsightsFailed := "Error generating performance insights."

  /** The request `getPerformanceInsights` sends; `staffJson` is `JSON.stringify(staffData)`. */
  function PerformanceInsightsRequest(staffJson: string): (q: GenerateRequest)
    ensures q.model == ModelId && q.temperature == 0.5
    ensures q.contents == InsightsPrefix + staffJson
  {
    GenerateRequest(ModelId, InsightsPrefix + staffJson, 0.5)
  }

  /** `getPerformanceInsights` once the SDK has answered. */
  function PerformanceInsights(o: SdkOutcome): (r: string)
    ensures r != ""
    ensures o.Responded? && Truthy(o.text) ==> r == o.text.value
    ensures o.Responded? && !Truthy(o.text) ==> r == NoInsights
    ensures o.Threw? ==> r == InsightsFailed
  {
    Absorb(o, NoInsights, InsightsFailed)
  }

  const HashtagsPrefix := "Generate a list of 20 trending and high-conversion hashtags for a luxury wedding/photography post about: "
  const HashtagsSuffix := ". Group them by category (Niche, Popular, Local)."
  const NoHashtags := "No hashtags generated."
  const HashtagsFailed := "Error generating hashtags."

  /** The request `getHashtags` sends for a post description. */
  function HashtagsRequest(description: string): (q: GenerateRequest)
    ensures q.model == ModelId && q.temperature == 0.6
    ensures q.contents == HashtagsPrefix + description + HashtagsSuffix
  {
    GenerateRequest(ModelId, HashtagsPrefix + description + HashtagsSuffix, 0.6)
  }

  /** `getHashtags` once the SDK has answered. */
  function Hashtags(o: SdkOutcome): (r: string)
    ensures r != ""
    ensures o.Responded? && Truthy(o.text) ==> r == o.text.value
    ensures o.Responded? && !Truthy(o.text) ==> r == NoHashtags
    ensures o.Threw? ==> r == HashtagsFailed
  {
    Absorb(o, NoHashtags, HashtagsFailed)
  }

  /** Each prompt contains the caller's input. */
  lemma PromptsEmbedInput(input: string)
    ensures Contains(MarketingIdeasRequest(input).contents, input)
    ensures Contains(PerformanceInsightsRequest(input).contents, input)
    ensures Contains(HashtagsRequest(input).contents, input)
  {
    ContainsInfix(IdeasPrefix, input, IdeasSuffix);
    ContainsInfix(InsightsPrefix, input, "");
    assert InsightsPrefix + input + "" == InsightsPrefix + input;
    ContainsInfix(HashtagsPrefix, input, HashtagsSuffix);
  }

  /** For each kind, the text shown for a missing answer differs from the one shown for a failure. */
  lemma FixedStringsDistinct()
    ensures NoIdeas != IdeasFailed && NoInsights != InsightsFailed && NoHashtags != HashtagsFailed
  {
    assert |NoIdeas| == 19 && |IdeasFailed| == 36;
    assert |NoInsights| == 22 && |InsightsFailed| == 38;
    assert |NoHashtags| == 22 && |HashtagsFailed| == 26;
  }
}
