/**
 * The request handlers of the structured server (server/routes.ts) that
 * orchestrate the store and the AI helpers. The authenticated user id is a
 * parameter; the text-generation service is a parameter `ai` per helper.
 * The reply generated in the background after an entry is created is run
 * here as a second, sequential step after the HTTP answer is fixed.
 */
module Routes {
  import opened Common
  import opened Tables
  import opened Normalise
  import opened Storage

  const EntryNotFound: string := "Journal entry not found"
  const AccessDenied: string := "Access denied"
  const CreateEntryFailed: string := "Failed to create journal entry"
  const FollowUpFailed: string := "Failed to generate follow-up response"
  const InsightsFailed: string := "Failed to generate insights"
  const NeedMoreEntries: string := "Need more journal entries to generate insights"
  const MoodFailed: string := "Failed to generate mood analytics"
  const NoMoodData: string := "No mood data available"
  const AdviceFailed: string := "Failed to generate advice"

  /** Only the reply table, its id counter and the clock may have changed. */
  twostate predicate OnlyRepliesChanged(store: DatabaseStorage)
    reads store
  {
    && store.users == old(store.users) && store.journalEntries == old(store.journalEntries)
    && store.userInsights == old(store.userInsights) && store.adviceRequests == old(store.adviceRequests)
    && store.nextEntryId == old(store.nextEntryId) && store.nextInsightId == old(store.nextInsightId)
    && store.nextAdviceId == old(store.nextAdviceId)
  }

  /** Only the insight table, its id counter and the clock may have changed. */
  twostate predicate OnlyInsightsChanged(store: DatabaseStorage)
    reads store
  {
    && store.users == old(store.users) && store.journalEntries == old(store.journalEntries)
    && store.aiResponses == old(store.aiResponses) && store.adviceRequests == old(store.adviceRequests)
    && store.nextEntryId == old(store.nextEntryId) && store.nextResponseId == old(store.nextResponseId)
    && store.nextAdviceId == old(store.nextAdviceId)
  }

  /** `entries.map(e => e.content)`. */
  function Contents(entries: seq<JournalEntry>): (r: seq<string>)
    ensures |r| == |entries|
    ensures forall i :: 0 <= i < |entries| ==> r[i] == entries[i].content
  {
    seq(|entries|, i requires 0 <= i < |entries| => entries[i].content)
  }

  /** The reply row stored for a normalised therapist answer; the empathy score is not stored. */
  function ReplyInsert(entryId: int, t: TherapistResponse, kind: ResponseType): (a: InsertAiResponse)
    ensures a.entryId == entryId && a.responseType == kind
    ensures a.response == t.response && a.followUpQuestions == t.followUpQuestions && a.insights == t.insights
  {
    InsertAiResponse(entryId, t.response, t.followUpQuestions, t.insights, kind)
  }

  /** A stored reply never has empty text, whatever the service answered. */
  lemma StoredReplyNonEmpty(entryId: int, raw: RawTherapist, kind: ResponseType)
    ensures ReplyInsert(entryId, NormaliseTherapist(raw), kind).response != ""
  {
  }

  // ---------------------------------------------------------------------
  // POST /api/journal-entries
  // ---------------------------------------------------------------------

  /** The request body once the insert schema accepted it (the user id is added by the route). */
  datatype EntryBody = EntryBody(
    title: Option<string>, content: string, mood: Option<string>, moodScore: Option<int>, isPrivate: Option<bool>)

  function EntryInsert(userId: string, b: EntryBody): InsertJournalEntry {
    InsertJournalEntry(userId, b.title, b.content, b.mood, b.moodScore, b.isPrivate)
  }

  /**
   * The background step after an entry is created: one reply of kind
   * `Initial`, made from the entry's content with no history, or nothing
   * at all when the service fails (the error is only logged).
   */
  method InitialReply(store: DatabaseStorage, entry: JournalEntry, ai: string -> AiReply<RawTherapist>)
    requires store.Valid()
    modifies store
    ensures store.Valid() && OnlyRepliesChanged(store)
    ensures GenerateTherapistResponse(entry.content, None, ai).Failure? ==> unchanged(store)
    ensures GenerateTherapistResponse(entry.content, None, ai).Success? ==>
      && store.aiResponses == old(store.aiResponses)
           + [NewResponse(ReplyInsert(entry.id, GenerateTherapistResponse(entry.content, None, ai).value, Initial),
                          old(store.nextResponseId), old(store.clock))]
      && store.nextResponseId == old(store.nextResponseId) + 1 && store.clock == old(store.clock) + 1
  {
    var t := GenerateTherapistResponse(entry.content, None, ai);
    if t.Success? {
      var _ := store.CreateAiResponse(ReplyInsert(entry.id, t.value, Initial));
    }
  }

  /**
   * Creates the entry and answers with it before any AI work; a body the
   * schema rejects is a 500 and writes nothing. The answer does not depend
   * on `ai`; the background reply then adds at most one row.
   */
  method CreateJournalEntryRoute(
    store: DatabaseStorage, userId: string, body: Option<EntryBody>, ai: string -> AiReply<RawTherapist>)
    returns (r: HttpResult<JournalEntry>)
    requires store.Valid()
    modifies store
    ensures store.Valid()
    ensures body.None? ==> r == Err(500, CreateEntryFailed) && unchanged(store)
    ensures body.Some? ==>
      && r == Ok(NewEntry(EntryInsert(userId, body.value), old(store.nextEntryId), old(store.clock)))
      && store.journalEntries == old(store.journalEntries) + [r.body]
      && store.users == old(store.users) && store.userInsights == old(store.userInsights)
      && store.adviceRequests == old(store.adviceRequests)
      && |old(store.aiResponses)| <= |store.aiResponses| <= |old(store.aiResponses)| + 1
      && store.aiResponses[..|old(store.aiResponses)|] == old(store.aiResponses)
      && (|store.aiResponses| == |old(store.aiResponses)| + 1 <==>
            GenerateTherapistResponse(body.value.content, None, ai).Success?)
      && (|store.aiResponses| > |old(store.aiResponses)| ==>
            store.aiResponses[|old(store.aiResponses)|].entryId == r.body.id
            && store.aiResponses[|old(store.aiResponses)|].responseType == Initial)
  {
    if body.None? {
      return Err(500, CreateEntryFailed);
    }
    var entry := store.CreateJournalEntry(EntryInsert(userId, body.value));
    r := Ok(entry);
    InitialReply(store, entry, ai);
  }

  // ---------------------------------------------------------------------
  // GET /api/journal-entries and GET /api/journal-entries/:id
  // ---------------------------------------------------------------------

  datatype EntryWithReplies = EntryWithReplies(entry: JournalEntry, aiResponses: seq<AiResponse>)

  /** The user's entries, newest first, each with its replies, newest first. */
  function ListJournalEntriesRoute(store: DatabaseStorage, userId: string): (r: seq<EntryWithReplies>)
    reads store
    requires store.Valid()
    ensures |r| == |store.GetUserJournalEntries(userId)|
    ensures forall i :: 0 <= i < |r| ==>
      && r[i].entry == store.GetUserJournalEntries(userId)[i]
      && r[i].entry.userId == userId
      && r[i].aiResponses == store.GetAiResponsesForEntry(r[i].entry.id)
  {
    var entries := store.GetUserJournalEntries(userId);
    seq(|entries|, i requires 0 <= i < |entries| && store.Valid() reads store =>
      EntryWithReplies(entries[i], store.GetAiResponsesForEntry(entries[i].id)))
  }

  /** An absent entry is a 404; an entry of another user is a 403. */
  function GetJournalEntryRoute(store: DatabaseStorage, userId: string, entryId: int): (r: HttpResult<EntryWithReplies>)
    reads store
    requires store.Valid()
    ensures r == Err(404, EntryNotFound) <==> forall e :: e in store.journalEntries ==> e.id != entryId
    ensures r == Err(403, AccessDenied) <==>
      exists e :: e in store.journalEntries && e.id == entryId && e.userId != userId
    ensures r.Ok? ==>
      && r.body.entry in store.journalEntries && r.body.entry.id == entryId && r.body.entry.userId == userId
      && r.body.aiResponses == store.GetAiResponsesForEntry(entryId)
  {
    SerialDistinct(store.journalEntries, EntryId, store.nextEntryId);
    match store.GetJournalEntry(entryId)
    case None => Err(404, EntryNotFound)
    case Some(entry) =>
      if entry.userId != userId then Err(403, AccessDenied)
      else Ok(EntryWithReplies(entry, store.GetAiResponsesForEntry(entryId)))
  }

  // ---------------------------------------------------------------------
  // POST /api/journal-entries/:id/follow-up
  // ---------------------------------------------------------------------

  /** The entry text followed by the answer; a missing answer reads "undefined". */
  function FollowUpText(content: string, answer: Option<string>): string {
    content + "\n\nFollow-up response: " + (if answer.Some? then answer.value else "undefined")
  }

  /** The contents of the user's three newest entries, newest first. */
  function FollowUpHistory(userEntries: seq<JournalEntry>): (r: seq<string>)
    ensures |r| == Min(|userEntries|, 3)
    ensures forall i :: 0 <= i < |r| ==> r[i] == userEntries[i].content
  {
    Contents(TakeFirst(userEntries, 3))
  }

  /** The history sent with a follow-up holds nothing older than the user's three newest entries. */
  lemma FollowUpHistoryIsNewest(store: DatabaseStorage, userId: string)
    requires store.Valid()
    ensures var entries := store.GetUserJournalEntries(userId);
      && |FollowUpHistory(entries)| <= 3
      && forall i, j :: 0 <= i < |FollowUpHistory(entries)| <= j < |entries| ==>
           entries[i].createdAt > entries[j].createdAt
  {
    var entries := store.GetUserJournalEntries(userId);
    assert Descending(entries, EntryCreated);
    forall i, j | 0 <= i < |FollowUpHistory(entries)| <= j < |entries|
      ensures entries[i].createdAt > entries[j].createdAt
    {
      assert EntryCreated(entries[i]) > EntryCreated(entries[j]);
    }
  }

  /**
   * A missing entry and another user's entry both give 404 and write
   * nothing; otherwise one `FollowUp` reply is stored, or nothing when the
   * service fails (500).
   */
  method FollowUpRoute(
    store: DatabaseStorage, userId: string, entryId: int, answer: Option<string>,
    ai: string -> AiReply<RawTherapist>)
    returns (r: HttpResult<AiResponse>)
    requires store.Valid()
    modifies store
    ensures store.Valid() && OnlyRepliesChanged(store)
    ensures var found := old(store.GetJournalEntry(entryId));
      found.None? || found.value.userId != userId ==> r == Err(404, EntryNotFound) && unchanged(store)
    ensures var found := old(store.GetJournalEntry(entryId));
      found.Some? && found.value.userId == userId ==>
        var t := GenerateTherapistResponse(FollowUpText(found.value.content, answer),
                   Some(FollowUpHistory(old(store.GetUserJournalEntries(userId)))), ai);
        && (t.Failure? ==> r == Err(500, FollowUpFailed) && unchanged(store))
        && (t.Success? ==>
              && r == Ok(NewResponse(ReplyInsert(entryId, t.value, FollowUp), old(store.nextResponseId), old(store.clock)))
              && store.aiResponses == old(store.aiResponses) + [r.body])
  {
    var found := store.GetJournalEntry(entryId);
    if found.None? || found.value.userId != userId {
      return Err(404, EntryNotFound);
    }
    var history := FollowUpHistory(store.GetUserJournalEntries(userId));
    var t := GenerateTherapistResponse(FollowUpText(found.value.content, answer), Some(history), ai);
    if t.Failure? {
      return Err(500, FollowUpFailed);
    }
    var row := store.CreateAiResponse(ReplyInsert(entryId, t.value, FollowUp));
    r := Ok(row);
  }

  // ---------------------------------------------------------------------
  // POST /api/insights/generate
  // ---------------------------------------------------------------------

  const GrowthTitle: string := "Growth Opportunity"
  const StrengthTitle: string := "Personal Strength"
  const GrowthConfidence: int := 80
  const StrengthConfidence: int := 90

  function PatternRow(userId: string, p: Pattern): InsertUserInsight {
    InsertUserInsight(userId, PatternInsight, p.kind, p.description, p.confidence)
  }

  function GrowthRow(userId: string, area: string): InsertUserInsight {
    InsertUserInsight(userId, GrowthArea, GrowthTitle, area, GrowthConfidence)
  }

  function StrengthRow(userId: string, strength: string): InsertUserInsight {
    InsertUserInsight(userId, Strength, StrengthTitle, strength, StrengthConfidence)
  }

  /**
   * The rows the route inserts, in order: one per pattern, then one per
   * growth area, then one per strength, all for the caller. Recommendations
   * are not among them.
   */
  function InsightPlan(userId: string, a: InsightAnalysis): (r: seq<InsertUserInsight>)
    ensures |r| == |a.patterns| + |a.growthAreas| + |a.strengths|
    ensures forall k :: 0 <= k < |r| ==> r[k].userId == userId
    ensures forall k :: 0 <= k < |a.patterns| ==>
      r[k].insightType == PatternInsight && r[k].title == a.patterns[k].kind
      && r[k].description == a.patterns[k].description && r[k].confidence == a.patterns[k].confidence
    ensures forall k :: 0 <= k < |a.growthAreas| ==>
      r[|a.patterns| + k] == InsertUserInsight(userId, GrowthArea, GrowthTitle, a.growthAreas[k], 80)
    ensures forall k :: 0 <= k < |a.strengths| ==>
      r[|a.patterns| + |a.growthAreas| + k] == InsertUserInsight(userId, Strength, StrengthTitle, a.strengths[k], 90)
  {
    seq(|a.patterns|, i requires 0 <= i < |a.patterns| => PatternRow(userId, a.patterns[i]))
    + seq(|a.growthAreas|, i requires 0 <= i < |a.growthAreas| => GrowthRow(userId, a.growthAreas[i]))
    + seq(|a.strengths|, i requires 0 <= i < |a.strengths| => StrengthRow(userId, a.strengths[i]))
  }

  /**
   * Every planned confidence lies in 1..100 exactly when every pattern's
   * does: the route itself bounds nothing.
   */
  lemma PlanConfidenceBounded(userId: string, a: InsightAnalysis)
    ensures (forall k :: 0 <= k < |InsightPlan(userId, a)| ==> 1 <= InsightPlan(userId, a)[k].confidence <= 100)
        <==> (forall k :: 0 <= k < |a.patterns| ==> 1 <= a.patterns[k].confidence <= 100)
  {
    var plan := InsightPlan(userId, a);
    if forall k :: 0 <= k < |a.patterns| ==> 1 <= a.patterns[k].confidence <= 100 {
      forall k | 0 <= k < |plan| ensures 1 <= plan[k].confidence <= 100 {
        if k < |a.patterns| {
        } else if k < |a.patterns| + |a.growthAreas| {
          assert plan[|a.patterns| + (k - |a.patterns|)].confidence == 80;
        } else {
          assert plan[|a.patterns| + |a.growthAreas| + (k - |a.patterns| - |a.growthAreas|)].confidence == 90;
        }
      }
    }
  }

  /** `TooFewEntries` is answered with the body `{ message }`. */
  datatype InsightBatch = TooFewEntries(message: string) | Generated(insights: seq<UserInsight>, recommendations: seq<string>)

  /** Inserts the planned rows one by one, in order, returning them as stored. */
  method InsertInsights(store: DatabaseStorage, plan: seq<InsertUserInsight>) returns (created: seq<UserInsight>)
    requires store.Valid()
    modifies store
    ensures store.Valid() && OnlyInsightsChanged(store)
    ensures store.userInsights == old(store.userInsights) + created
    ensures |created| == |plan|
    ensures forall k :: 0 <= k < |plan| ==> InsightFields(created[k]) == plan[k]
  {
    created := [];
    for i := 0 to |plan|
      invariant store.Valid() && OnlyInsightsChanged(store)
      invariant store.userInsights == old(store.userInsights) + created
      invariant |created| == i
      invariant forall k :: 0 <= k < i ==> InsightFields(created[k]) == plan[k]
    {
      var row := store.CreateUserInsight(plan[i]);
      created := created + [row];
    }
  }

  /**
   * Fewer than three entries: a message, nothing written. A failed analysis:
   * 500, nothing written. Otherwise the planned rows are inserted, patterns
   * first, then growth areas, then strengths, and the recommendations are
   * only returned.
   */
  method GenerateInsightsRoute(store: DatabaseStorage, userId: string, ai: string -> AiReply<RawAnalysis>)
    returns (r: HttpResult<InsightBatch>)
    requires store.Valid()
    modifies store
    ensures store.Valid() && OnlyInsightsChanged(store)
    ensures var entries := old(store.GetUserJournalEntries(userId));
      |entries| < 3 ==> r == Ok(TooFewEntries(NeedMoreEntries)) && unchanged(store)
    ensures var entries := old(store.GetUserJournalEntries(userId));
      |entries| >= 3 ==>
        var analysis := AnalyzeUserInsights(Contents(entries), ai);
        && (analysis.Failure? ==> r == Err(500, InsightsFailed) && unchanged(store))
        && (analysis.Success? ==>
              var plan := InsightPlan(userId, analysis.value);
              && r.Ok? && r.body.Generated?
              && r.body.recommendations == analysis.value.recommendations
              && store.userInsights == old(store.userInsights) + r.body.insights
              && |r.body.insights| == |plan|
              && forall k :: 0 <= k < |plan| ==> InsightFields(r.body.insights[k]) == plan[k])
  {
    var entries := store.GetUserJournalEntries(userId);
    if |entries| < 3 {
      return Ok(TooFewEntries(NeedMoreEntries));
    }
    var analysis := AnalyzeUserInsights(Contents(entries), ai);
    if analysis.Failure? {
      return Err(500, InsightsFailed);
    }
    var a := analysis.value;
    var created := InsertInsights(store, InsightPlan(userId, a));
    r := Ok(Generated(created, a.recommendations));
  }

  // ---------------------------------------------------------------------
  // GET /api/mood-analytics
  // ---------------------------------------------------------------------

  /** `e.mood` is truthy: present and not empty. */
  predicate HasMood(e: JournalEntry) {
    e.mood.Some? && e.mood.value != ""
  }

  /** The datum sent for an entry that has a mood. */
  function Datum(e: JournalEntry, isoDate: int -> string): (d: MoodDatum)
    requires HasMood(e)
    ensures d.mood == e.mood.value && d.date == isoDate(e.createdAt) && d.content == Some(e.content)
  {
    MoodDatum(e.mood.value, isoDate(e.createdAt), Some(e.content))
  }

  /** `entries.filter(e => e.mood).map(...)`, with the timestamp rendered by `isoDate`. */
  function MoodData(entries: seq<JournalEntry>, isoDate: int -> string): (r: seq<MoodDatum>)
    ensures |r| <= |entries|
    ensures forall d :: d in r ==> d.mood != "" && d.content.Some?
  {
    if entries == [] then []
    else (if HasMood(entries[0]) then [Datum(entries[0], isoDate)] else []) + MoodData(entries[1..], isoDate)
  }

  /** Each datum is the datum of an entry with a mood, and every such entry contributes its datum. */
  lemma {:induction false} MoodDataFaithful(entries: seq<JournalEntry>, isoDate: int -> string)
    ensures forall d :: d in MoodData(entries, isoDate) ==>
      exists e :: e in entries && HasMood(e) && d == Datum(e, isoDate)
    ensures forall e :: e in entries && HasMood(e) ==> Datum(e, isoDate) in MoodData(entries, isoDate)
  {
    if entries != [] {
      MoodDataFaithful(entries[1..], isoDate);
      var head := if HasMood(entries[0]) then [Datum(entries[0], isoDate)] else [];
      assert MoodData(entries, isoDate) == head + MoodData(entries[1..], isoDate);
      forall d | d in MoodData(entries, isoDate)
        ensures exists e :: e in entries && HasMood(e) && d == Datum(e, isoDate)
      {
        if d in head {
          assert entries[0] in entries;
        } else {
          var e :| e in entries[1..] && HasMood(e) && d == Datum(e, isoDate);
          assert e in entries;
        }
      }
      forall e | e in entries && HasMood(e) ensures Datum(e, isoDate) in MoodData(entries, isoDate) {
        if e != entries[0] {
          assert e in entries[1..];
        }
      }
    }
  }

  /** The filtered list is empty exactly when no entry has a mood. */
  lemma {:induction false} MoodDataEmpty(entries: seq<JournalEntry>, isoDate: int -> string)
    ensures MoodData(entries, isoDate) == [] <==> forall e :: e in entries ==> !HasMood(e)
  {
    if entries != [] {
      MoodDataEmpty(entries[1..], isoDate);
      assert forall e :: e in entries <==> e == entries[0] || e in entries[1..];
    }
  }

  /** The filter keeps the entries' order. */
  lemma {:induction false} MoodDataConcat(a: seq<JournalEntry>, b: seq<JournalEntry>, isoDate: int -> string)
    ensures MoodData(a + b, isoDate) == MoodData(a, isoDate) + MoodData(b, isoDate)
  {
    if a == [] {
      assert a + b == b;
    } else {
      var head := if HasMood(a[0]) then [Datum(a[0], isoDate)] else [];
      assert (a + b)[0] == a[0];
      assert (a + b)[1..] == a[1..] + b;
      assert MoodData(a + b, isoDate) == head + MoodData(a[1..] + b, isoDate);
      MoodDataConcat(a[1..], b, isoDate);
      assert MoodData(a, isoDate) == head + MoodData(a[1..], isoDate);
    }
  }

  /** `NoMood` is answered with the body `{ message }`. */
  datatype MoodAnswer = NoMood(message: string) | Analysed(insights: MoodInsights)

  /**
   * Without any entry that has a mood the route answers with a message and
   * asks nothing of the service; otherwise it forwards the service's
   * normalised answer, or 500.
   */
  function MoodAnalyticsRoute(
    store: DatabaseStorage, userId: string, isoDate: int -> string, ai: string -> AiReply<RawMood>)
    : (r: HttpResult<MoodAnswer>)
    reads store
    requires store.Valid()
    ensures r == Ok(NoMood(NoMoodData)) <==> forall e :: e in store.journalEntries && e.userId == userId ==> !HasMood(e)
    ensures r.Err? ==> r == Err(500, MoodFailed)
    ensures var reply := ai(MoodMessage(MoodData(store.GetUserJournalEntries(userId), isoDate)));
      r.Ok? && r.body.Analysed? ==> reply.Parsed? && r.body.insights == NormaliseMood(reply.result)
    ensures var data := MoodData(store.GetUserJournalEntries(userId), isoDate);
      var reply := ai(MoodMessage(data));
      data != [] && reply.Parsed? ==> r == Ok(Analysed(NormaliseMood(reply.result)))
  {
    var data := MoodData(store.GetUserJournalEntries(userId), isoDate);
    MoodDataEmpty(store.GetUserJournalEntries(userId), isoDate);
    if data == [] then Ok(NoMood(NoMoodData))
    else match GenerateMoodInsights(data, ai)
      case Failure(_) => Err(500, MoodFailed)
      case Success(m) => Ok(Analysed(m))
  }

  // ---------------------------------------------------------------------
  // POST /api/advice
  // ---------------------------------------------------------------------

  datatype AdviceBody = AdviceBody(
    topic: Option<string>, request: string, response: Option<string>, techniques: Option<seq<Technique>>)

  datatype AdviceAnswer = AdviceAnswer(request: AdviceRequest, advice: AdviceResponse)

  /**
   * Stores the request first, then asks the service with the user's five
   * newest entries as history. A failed call is a 500 but leaves the stored
   * request in place, unanswered.
   */
  method PostAdviceRoute(
    store: DatabaseStorage, userId: string, body: Option<AdviceBody>, ai: string -> AiReply<RawAdvice>)
    returns (r: HttpResult<AdviceAnswer>)
    requires store.Valid()
    modifies store
    ensures store.Valid()
    ensures store.users == old(store.users) && store.journalEntries == old(store.journalEntries)
    ensures store.aiResponses == old(store.aiResponses) && store.userInsights == old(store.userInsights)
    ensures body.None? ==> r == Err(500, AdviceFailed) && unchanged(store)
    ensures body.Some? ==>
      var b := body.value;
      var row := NewAdvice(InsertAdviceRequest(userId, b.topic, b.request, b.response, b.techniques),
                           old(store.nextAdviceId), old(store.clock));
      var advice := GenerateAdvice(OrString(b.topic, "general"), b.request,
                      Some(TakeFirst(Contents(old(store.GetUserJournalEntries(userId))), 5)), ai);
      && (advice.Failure? ==> r == Err(500, AdviceFailed) && store.adviceRequests == old(store.adviceRequests) + [row])
      && (advice.Success? ==>
            var answered := ApplyAdviceAnswer(row, advice.value.advice, Some(advice.value.techniques));
            && r == Ok(AdviceAnswer(answered, advice.value))
            && store.adviceRequests == old(store.adviceRequests) + [answered])
  {
    if body.None? {
      return Err(500, AdviceFailed);
    }
    var b := body.value;
    ghost var before := store.adviceRequests;
    var row := store.CreateAdviceRequest(InsertAdviceRequest(userId, b.topic, b.request, b.response, b.techniques));
    var recent := TakeFirst(Contents(store.GetUserJournalEntries(userId)), 5);
    var advice := GenerateAdvice(OrString(b.topic, "general"), b.request, Some(recent), ai);
    if advice.Failure? {
      return Err(500, AdviceFailed);
    }
    var updated := store.UpdateAdviceRequest(row.id, advice.value.advice, Some(advice.value.techniques));
    assert store.adviceRequests[|before|] == ApplyAdviceAnswer(row, advice.value.advice, Some(advice.value.techniques));
    assert store.adviceRequests == before + [store.adviceRequests[|before|]];
    r := Ok(AdviceAnswer(updated.value, advice.value));
  }
}
