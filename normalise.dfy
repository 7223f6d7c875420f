/**
 * The AI helpers of the structured server (server/openai.ts): what each one
 * sends to the text-generation service as the user message, and how it
 * normalises the parsed answer. The service itself is a parameter `ai`, a
 * function from the user message to the parsed answer; the fixed system
 * instructions are constant per helper and are not modelled.
 */
module Normalise {
  import opened Common

  // ---------------------------------------------------------------------
  // generateTherapistResponse
  // ---------------------------------------------------------------------

  datatype Insights = Insights(emotions: seq<string>, patterns: seq<string>, suggestions: seq<string>)

  /** The parsed answer; every field may be missing. */
  datatype RawTherapist = RawTherapist(
    response: Option<string>,
    followUpQuestions: Option<seq<string>>,
    insights: Option<Insights>,
    empathyScore: Option<int>)

  datatype TherapistResponse = TherapistResponse(
    response: string,
    followUpQuestions: seq<string>,
    insights: Insights,
    empathyScore: int)

  const FallbackReply: string := "I appreciate you sharing your thoughts with me."
  const TherapistError: string := "Failed to generate therapeutic response"
  const HistoryHeader: string := "\n\nUser's recent journal history for context:\n"
  const NoInsights: Insights := Insights([], [], [])

  /** `Math.max(1, Math.min(10, score || 5))`: 0 and a missing score both become 5. */
  function ClampEmpathy(score: Option<int>): (r: int)
    ensures 1 <= r <= 10
    ensures score.None? || score.value == 0 ==> r == 5
    ensures score.Some? && 1 <= score.value <= 10 ==> r == score.value
    ensures score.Some? && score.value > 10 ==> r == 10
    ensures score.Some? && score.value < 0 ==> r == 1
  {
    var s := if score.Some? && score.value != 0 then score.value else 5;
    Max(1, Min(10, s))
  }

  /** The object generateTherapistResponse builds from the parsed answer. */
  function NormaliseTherapist(raw: RawTherapist): (t: TherapistResponse)
    ensures t.response != ""
    ensures raw.response.Some? && raw.response.value != "" ==> t.response == raw.response.value
    ensures raw.response.None? || raw.response.value == "" ==> t.response == FallbackReply
    ensures raw.followUpQuestions.Some? ==> t.followUpQuestions == raw.followUpQuestions.value
    ensures raw.followUpQuestions.None? ==> t.followUpQuestions == []
    ensures raw.insights.Some? ==> t.insights == raw.insights.value
    ensures raw.insights.None? ==> t.insights == NoInsights
    ensures 1 <= t.empathyScore <= 10
  {
    TherapistResponse(
      OrString(raw.response, FallbackReply),
      OrSeq(raw.followUpQuestions, []),
      if raw.insights.Some? then raw.insights.value else NoInsights,
      ClampEmpathy(raw.empathyScore))
  }

  /**
   * The history suffix: absent history gives nothing, while any array, even
   * an empty one, gives the header followed by its last `n` items.
   */
  function HistoryContext(header: string, history: Option<seq<string>>, n: nat): (r: string)
    ensures history.None? ==> r == ""
  {
    if history.None? then "" else header + Join(TakeLast(history.value, n), "\n\n")
  }

  function TherapistMessage(journalContent: string, history: Option<seq<string>>): string {
    "Journal Entry: \"" + journalContent + "\"" + HistoryContext(HistoryHeader, history, 3)
  }

  /** A failed call or unparseable answer becomes the one fixed error. */
  function GenerateTherapistResponse(
    journalContent: string, history: Option<seq<string>>, ai: string -> AiReply<RawTherapist>)
    : (r: Result<TherapistResponse>)
    ensures r.Failure? <==> ai(TherapistMessage(journalContent, history)).Unavailable?
    ensures r.Failure? ==> r.error == TherapistError
    ensures r.Success? ==> r.value == NormaliseTherapist(ai(TherapistMessage(journalContent, history)).result)
  {
    match ai(TherapistMessage(journalContent, history))
    case Unavailable => Failure(TherapistError)
    case Parsed(raw) => Success(NormaliseTherapist(raw))
  }

  /** History older than the last three items does not change the message. */
  lemma TherapistUsesLastThree(content: string, older: seq<string>, recent: seq<string>)
    requires |recent| >= 3
    ensures TherapistMessage(content, Some(older + recent)) == TherapistMessage(content, Some(recent))
  {
    TakeLastIgnoresOlder(older, recent, 3);
  }

  /** Each of the last three history items reaches the message unbroken. */
  lemma TherapistMessageHoldsRecent(content: string, history: seq<string>, i: nat)
    requires |history| - 3 <= i < |history|
    ensures IsInfix(history[i], TherapistMessage(content, Some(history)))
  {
    var window := TakeLast(history, 3);
    var k := i - (|history| - |window|);
    assert window[k] == history[i];
    JoinContainsEach(window, "\n\n", k);
    var prefix := "Journal Entry: \"" + content + "\"" + HistoryHeader;
    InfixOfConcat(history[i], prefix, Join(window, "\n\n"));
    assert TherapistMessage(content, Some(history)) == prefix + Join(window, "\n\n");
  }

  // ---------------------------------------------------------------------
  // generateAdvice
  // ---------------------------------------------------------------------

  datatype Technique = Technique(name: string, description: string, steps: seq<string>, duration: string)

  datatype RawAdvice = RawAdvice(
    advice: Option<string>,
    techniques: Option<seq<Technique>>,
    personalizedPlan: Option<string>)

  datatype AdviceResponse = AdviceResponse(advice: string, techniques: seq<Technique>, personalizedPlan: string)

  const FallbackAdvice: string := "I understand you're seeking guidance on this matter."
  const FallbackPlan: string := "Consider taking small, manageable steps toward your goal."
  const AdviceError: string := "Failed to generate advice"
  const AdviceHeader: string := "\n\nUser's recent journal context:\n"

  function NormaliseAdvice(raw: RawAdvice): (a: AdviceResponse)
    ensures a.advice != "" && a.personalizedPlan != ""
    ensures raw.advice.Some? && raw.advice.value != "" ==> a.advice == raw.advice.value
    ensures raw.advice.None? || raw.advice.value == "" ==> a.advice == FallbackAdvice
    ensures raw.personalizedPlan.Some? && raw.personalizedPlan.value != "" ==> a.personalizedPlan == raw.personalizedPlan.value
    ensures raw.personalizedPlan.None? || raw.personalizedPlan.value == "" ==> a.personalizedPlan == FallbackPlan
    ensures raw.techniques.Some? ==> a.techniques == raw.techniques.value
    ensures raw.techniques.None? ==> a.techniques == []
  {
    AdviceResponse(
      OrString(raw.advice, FallbackAdvice),
      OrSeq(raw.techniques, []),
      OrString(raw.personalizedPlan, FallbackPlan))
  }

  function AdviceMessage(topic: string, userRequest: string, history: Option<seq<string>>): string {
    "Topic: " + topic + "\nRequest: " + userRequest + HistoryContext(AdviceHeader, history, 5)
  }

  function GenerateAdvice(
    topic: string, userRequest: string, history: Option<seq<string>>, ai: string -> AiReply<RawAdvice>)
    : (r: Result<AdviceResponse>)
    ensures r.Failure? <==> ai(AdviceMessage(topic, userRequest, history)).Unavailable?
    ensures r.Failure? ==> r.error == AdviceError
    ensures r.Success? ==> r.value == NormaliseAdvice(ai(AdviceMessage(topic, userRequest, history)).result)
  {
    match ai(AdviceMessage(topic, userRequest, history))
    case Unavailable => Failure(AdviceError)
    case Parsed(raw) => Success(NormaliseAdvice(raw))
  }

  /** History older than the last five items does not change the advice message. */
  lemma AdviceUsesLastFive(topic: string, userRequest: string, older: seq<string>, recent: seq<string>)
    requires |recent| >= 5
    ensures AdviceMessage(topic, userRequest, Some(older + recent)) == AdviceMessage(topic, userRequest, Some(recent))
  {
    TakeLastIgnoresOlder(older, recent, 5);
  }

  /** Each of the last five history items is sent whole with the advice request. */
  lemma AdviceMessageHoldsRecent(topic: string, userRequest: string, history: seq<string>, i: nat)
    requires |history| - 5 <= i < |history|
    ensures IsInfix(history[i], AdviceMessage(topic, userRequest, Some(history)))
  {
    var window := TakeLast(history, 5);
    var k := i - (|history| - |window|);
    assert window[k] == history[i];
    JoinContainsEach(window, "\n\n", k);
    var prefix := "Topic: " + topic + "\nRequest: " + userRequest + AdviceHeader;
    InfixOfConcat(history[i], prefix, Join(window, "\n\n"));
    assert AdviceMessage(topic, userRequest, Some(history)) == prefix + Join(window, "\n\n");
  }

  // ---------------------------------------------------------------------
  // analyzeUserInsights
  // ---------------------------------------------------------------------

  datatype Pattern = Pattern(kind: string, description: string, confidence: int)

  datatype RawAnalysis = RawAnalysis(
    patterns: Option<seq<Pattern>>,
    growthAreas: Option<seq<string>>,
    strengths: Option<seq<string>>,
    recommendations: Option<seq<string>>)

  datatype InsightAnalysis = InsightAnalysis(
    patterns: seq<Pattern>,
    growthAreas: seq<string>,
    strengths: seq<string>,
    recommendations: seq<string>)

  const AnalysisError: string := "Failed to analyze user insights"
  const EntrySeparator: string := "\n\n---\n\n"

  function NormaliseAnalysis(raw: RawAnalysis): (a: InsightAnalysis)
    ensures a.patterns == OrSeq(raw.patterns, [])
    ensures a.growthAreas == OrSeq(raw.growthAreas, [])
    ensures a.strengths == OrSeq(raw.strengths, [])
    ensures a.recommendations == OrSeq(raw.recommendations, [])
  {
    InsightAnalysis(
      OrSeq(raw.patterns, []),
      OrSeq(raw.growthAreas, []),
      OrSeq(raw.strengths, []),
      OrSeq(raw.recommendations, []))
  }

  /** The analysis message, for the default timeframe "recent". */
  function AnalysisMessage(journalEntries: seq<string>): string {
    "Analyze these recent journal entries for patterns, growth areas, and strengths:\n\n"
      + Join(TakeFirst(journalEntries, 10), EntrySeparator)
  }

  function AnalyzeUserInsights(journalEntries: seq<string>, ai: string -> AiReply<RawAnalysis>)
    : (r: Result<InsightAnalysis>)
    ensures r.Failure? <==> ai(AnalysisMessage(journalEntries)).Unavailable?
    ensures r.Failure? ==> r.error == AnalysisError
    ensures r.Success? ==> r.value == NormaliseAnalysis(ai(AnalysisMessage(journalEntries)).result)
  {
    match ai(AnalysisMessage(journalEntries))
    case Unavailable => Failure(AnalysisError)
    case Parsed(raw) => Success(NormaliseAnalysis(raw))
  }

  /** Entries after the first ten never reach the service. */
  lemma AnalysisUsesFirstTen(first: seq<string>, later: seq<string>, ai: string -> AiReply<RawAnalysis>)
    requires |first| >= 10
    ensures AnalyzeUserInsights(first + later, ai) == AnalyzeUserInsights(first, ai)
  {
    TakeFirstIgnoresLater(first, later, 10);
  }

  /** Each of the first ten entries reaches the analysis message unbroken. */
  lemma AnalysisMessageHoldsFirstTen(journalEntries: seq<string>, i: nat)
    requires i < |journalEntries| && i < 10
    ensures IsInfix(journalEntries[i], AnalysisMessage(journalEntries))
  {
    var window := TakeFirst(journalEntries, 10);
    assert window[i] == journalEntries[i];
    JoinContainsEach(window, EntrySeparator, i);
    InfixOfConcat(journalEntries[i],
      "Analyze these recent journal entries for patterns, growth areas, and strengths:\n\n",
      Join(window, EntrySeparator));
  }

  // ---------------------------------------------------------------------
  // generateMoodInsights
  // ---------------------------------------------------------------------

  datatype MoodDatum = MoodDatum(mood: string, date: string, content: Option<string>)

  datatype RawMood = RawMood(
    trend: Option<string>,
    predominantMood: Option<string>,
    insights: Option<seq<string>>,
    recommendations: Option<seq<string>>)

  /**
   * The trend is whatever non-empty string the service sends; only its
   * default is fixed.
   */
  datatype MoodInsights = MoodInsights(
    trend: string,
    predominantMood: string,
    insights: seq<string>,
    recommendations: seq<string>)

  const MoodError: string := "Failed to generate mood insights"
  const ContentPreview: nat := 100

  /** `content ? "- " + content.substring(0, 100) + "..." : ""`. */
  function ContentExcerpt(content: Option<string>): (r: string)
    ensures content.None? || content.value == "" ==> r == ""
    ensures content.Some? && content.value != "" ==>
      r == "- " + TakeFirst(content.value, ContentPreview) + "..."
  {
    if content.Some? && content.value != "" then "- " + TakeFirst(content.value, ContentPreview) + "..." else ""
  }

  function MoodLine(d: MoodDatum): string {
    d.date + ": " + d.mood + " " + ContentExcerpt(d.content)
  }

  function MoodLines(data: seq<MoodDatum>): (r: seq<string>)
    ensures |r| == |data|
    ensures forall i :: 0 <= i < |data| ==> r[i] == MoodLine(data[i])
  {
    seq(|data|, i requires 0 <= i < |data| => MoodLine(data[i]))
  }

  function MoodMessage(data: seq<MoodDatum>): string {
    "Analyze these mood entries:\n" + Join(MoodLines(data), "\n")
  }

  function NormaliseMood(raw: RawMood): (m: MoodInsights)
    ensures m.trend != "" && m.predominantMood != ""
    ensures raw.trend.None? || raw.trend.value == "" ==> m.trend == "stable"
    ensures raw.trend.Some? && raw.trend.value != "" ==> m.trend == raw.trend.value
    ensures raw.predominantMood.None? || raw.predominantMood.value == "" ==> m.predominantMood == "neutral"
    ensures raw.predominantMood.Some? && raw.predominantMood.value != "" ==> m.predominantMood == raw.predominantMood.value
    ensures m.insights == OrSeq(raw.insights, []) && m.recommendations == OrSeq(raw.recommendations, [])
  {
    MoodInsights(
      OrString(raw.trend, "stable"),
      OrString(raw.predominantMood, "neutral"),
      OrSeq(raw.insights, []),
      OrSeq(raw.recommendations, []))
  }

  function GenerateMoodInsights(data: seq<MoodDatum>, ai: string -> AiReply<RawMood>)
    : (r: Result<MoodInsights>)
    ensures r.Failure? <==> ai(MoodMessage(data)).Unavailable?
    ensures r.Failure? ==> r.error == MoodError
    ensures r.Success? ==> r.value == NormaliseMood(ai(MoodMessage(data)).result)
  {
    match ai(MoodMessage(data))
    case Unavailable => Failure(MoodError)
    case Parsed(raw) => Success(NormaliseMood(raw))
  }

  /** Content past its first hundred characters never reaches a mood line. */
  lemma MoodLineIgnoresLongTail(d: MoodDatum, head: string, tail1: string, tail2: string)
    requires |head| == ContentPreview
    ensures MoodLine(d.(content := Some(head + tail1))) == MoodLine(d.(content := Some(head + tail2)))
  {
    TakeFirstIgnoresLater(head, tail1, ContentPreview);
    TakeFirstIgnoresLater(head, tail2, ContentPreview);
  }

  /** A short content appears whole in its mood line, between "- " and "...". */
  lemma MoodLineKeepsShortContent(d: MoodDatum)
    requires d.content.Some? && 0 < |d.content.value| <= ContentPreview
    ensures MoodLine(d) == d.date + ": " + d.mood + " - " + d.content.value + "..."
  {
  }
}
