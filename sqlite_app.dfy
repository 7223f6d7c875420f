/**
 * The single-file SQLite server (app.js): its own four tables, the session
 * guard, registration, saving and listing journal notes, the background
 * reply of the therapist persona, and insight generation and listing.
 * It differs from the structured server in its defaults, its confidences
 * and in how it hands several replies back (one `'|||'`-joined column).
 */
module SqliteApp {
  import opened Common
  import opened Tables
  import Normalise

  // ---------------------------------------------------------------------
  // Rows
  // ---------------------------------------------------------------------

  datatype SqlUser = SqlUser(
    id: int, email: string, password: string, firstName: string, lastName: string, createdAt: int)

  /** A row of `journal_notes`; `isPrivate` is the stored integer flag. */
  datatype Note = Note(
    id: int, userId: int, content: string, mood: Option<string>, moodScore: Option<int>,
    isPrivate: int, createdAt: int)

  /** A row of `ai_replies`; the two JSON columns hold the service's values as text. */
  datatype Reply = Reply(
    id: int, journalId: int, responseText: string, followUpQuestions: string, insights: string, createdAt: int)

  /** A row of `user_insights`; a missing confidence is stored as NULL. */
  datatype SqlInsight = SqlInsight(
    id: int, userId: int, insightType: string, title: string, description: string,
    confidence: Option<int>, createdAt: int)

  function UserId(u: SqlUser): int { u.id }
  function UserEmail(u: SqlUser): string { u.email }
  function NoteId(n: Note): int { n.id }
  function NoteOwner(n: Note): int { n.userId }
  function NoteCreated(n: Note): int { n.createdAt }
  function ReplyId(a: Reply): int { a.id }
  function ReplyCreated(a: Reply): int { a.createdAt }
  function InsightId(i: SqlInsight): int { i.id }
  function InsightOwner(i: SqlInsight): int { i.userId }
  function InsightCreated(i: SqlInsight): int { i.createdAt }

  // ---------------------------------------------------------------------
  // Session guard
  // ---------------------------------------------------------------------

  const LoginRequired: string := "Please log in first"

  datatype Session = Session(userId: Option<int>)

  /** `req.session && req.session.userId`: a session whose user id is present and not 0. */
  function RequireLogin(session: Option<Session>): (r: HttpResult<int>)
    ensures r.Ok? <==> session.Some? && session.value.userId.Some? && session.value.userId.value != 0
    ensures r.Ok? ==> r.body == session.value.userId.value && r.body != 0
    ensures r.Err? ==> r == Err(401, LoginRequired)
  {
    match session
    case Some(Session(Some(id))) => if id != 0 then Ok(id) else Err(401, LoginRequired)
    case _ => Err(401, LoginRequired)
  }

  // ---------------------------------------------------------------------
  // Registration
  // ---------------------------------------------------------------------

  const CredentialsRequired: string := "Email and password required"
  const EmailExists: string := "Email already exists"

  datatype RegisterBody = RegisterBody(
    email: Option<string>, password: Option<string>, firstName: Option<string>, lastName: Option<string>)

  /** `email && password`: both present and not empty. */
  predicate HasCredentials(b: RegisterBody) {
    OrString(b.email, "") != "" && OrString(b.password, "") != ""
  }

  predicate EmailTaken(users: seq<SqlUser>, email: string) {
    exists i :: 0 <= i < |users| && users[i].email == email
  }

  /** The stored user: the password only as its hash, missing names as `''`. */
  function NewUser(id: int, b: RegisterBody, hash: string -> string, stamp: int): (u: SqlUser)
    requires HasCredentials(b)
    ensures u.id == id && u.email == b.email.value && u.password == hash(b.password.value)
    ensures u.firstName == OrString(b.firstName, "") && u.lastName == OrString(b.lastName, "")
  {
    SqlUser(id, b.email.value, hash(b.password.value), OrString(b.firstName, ""), OrString(b.lastName, ""), stamp)
  }

  // ---------------------------------------------------------------------
  // Saving a note
  // ---------------------------------------------------------------------

  const ContentRequired: string := "Journal content cannot be empty"

  datatype JournalBody = JournalBody(
    content: Option<string>, mood: Option<string>, moodScore: Option<int>, isPrivate: Option<bool>)

  /** `!content || content.trim().length === 0` is false. */
  predicate ContentAccepted(content: Option<string>) {
    content.Some? && content.value != "" && |Trim(content.value)| != 0
  }

  /** Content is accepted exactly when it is present and not all white space. */
  lemma ContentAcceptedIff(content: Option<string>)
    ensures ContentAccepted(content) <==> content.Some? && !AllWhitespace(content.value)
  {
    if content.Some? {
      TrimEmptyIff(content.value);
    }
  }

  /** The stored note: trimmed content, falsy mood and score as NULL, `isPrivate || 0` as 0 or 1. */
  function NewNote(id: int, userId: int, b: JournalBody, stamp: int): (n: Note)
    requires ContentAccepted(b.content)
    ensures n.id == id && n.userId == userId && n.createdAt == stamp
    ensures n.content == Trim(b.content.value) && n.content != ""
    ensures n.mood.Some? <==> b.mood.Some? && b.mood.value != ""
    ensures n.mood.Some? ==> n.mood == b.mood
    ensures n.moodScore.Some? <==> b.moodScore.Some? && b.moodScore.value != 0
    ensures n.moodScore.Some? ==> n.moodScore == b.moodScore
    ensures n.isPrivate == 1 <==> b.isPrivate == Some(true)
    ensures n.isPrivate == 0 || n.isPrivate == 1
  {
    Note(id, userId, Trim(b.content.value),
         if OrString(b.mood, "") != "" then b.mood else None,
         if b.moodScore.Some? && b.moodScore.value != 0 then b.moodScore else None,
         if b.isPrivate == Some(true) then 1 else 0,
         stamp)
  }

  // ---------------------------------------------------------------------
  // The background reply
  // ---------------------------------------------------------------------

  /** What `JSON.stringify(aiResponse.insights || {})` is applied to. */
  datatype StoredInsights = EmptyObject | InsightsObject(value: Normalise.Insights)

  const ContextSeparator: string := "\n\n"

  /** `entries.map(e => e.content)`. */
  function Contents(notes: seq<Note>): (r: seq<string>)
    ensures |r| == |notes|
    ensures forall i :: 0 <= i < |notes| ==> r[i] == notes[i].content
  {
    seq(|notes|, i requires 0 <= i < |notes| => notes[i].content)
  }

  /** `recentEntries.slice(1).map(e => e.content)` over the five newest notes. */
  function ContextEntries(newestFirst: seq<Note>): (r: seq<string>)
    ensures |r| <= 4
    ensures |r| == Max(0, Min(|newestFirst|, 5) - 1)
    ensures forall i :: 0 <= i < |r| ==> r[i] == newestFirst[i + 1].content
  {
    Contents(DropFirst(TakeFirst(newestFirst, 5)))
  }

  /** The text sent with a new note: the untrimmed content and the joined context. */
  function ReplyPrompt(content: string, context: string): string {
    "New journal entry: \"" + content + "\"\n\nPrevious entries for context: " + context
  }

  /** The reply row, or nothing when the answer has no `response` (NOT NULL). */
  function ReplyRow(
    raw: Normalise.RawTherapist, id: int, journalId: int, stamp: int,
    listJson: seq<string> -> string, objectJson: StoredInsights -> string): (r: Option<Reply>)
    ensures r.Some? <==> raw.response.Some?
    ensures r.Some? ==> r.value.id == id && r.value.journalId == journalId && r.value.responseText == raw.response.value
    ensures r.Some? ==> r.value.followUpQuestions == listJson(OrSeq(raw.followUpQuestions, []))
    ensures r.Some? && raw.insights.None? ==> r.value.insights == objectJson(EmptyObject)
    ensures r.Some? && raw.insights.Some? ==> r.value.insights == objectJson(InsightsObject(raw.insights.value))
    ensures r.Some? ==> r.value.createdAt == stamp
  {
    match raw.response
    case None => None
    case Some(text) =>
      var insights := if raw.insights.Some? then InsightsObject(raw.insights.value) else EmptyObject;
      Some(Reply(id, journalId, text, listJson(OrSeq(raw.followUpQuestions, [])), objectJson(insights), stamp))
  }

  // ---------------------------------------------------------------------
  // Listing notes: GROUP_CONCAT(col, '|||') and back
  // ---------------------------------------------------------------------

  const GroupSeparator: string := "|||"

  /**
   * What a listed note shows for one aggregated column: NULL (no reply) and
   * the empty string are `[]`, anything else is split on `'|||'` with the
   * empty pieces dropped.
   */
  function Aggregate(values: seq<string>): (r: seq<string>)
    ensures values == [] ==> r == []
    ensures forall x :: x in r ==> x != ""
  {
    if values == [] then []
    else
      var joined := Join(values, GroupSeparator);
      if joined == "" then [] else DropEmpty(Split(joined, GroupSeparator))
  }

  /** Values that are not empty and hold no `'|'` come back from the column unchanged. */
  lemma AggregateRoundTrip(values: seq<string>)
    requires forall i :: 0 <= i < |values| ==> values[i] != "" && FreeOf(values[i], '|')
    ensures Aggregate(values) == values
  {
    if values != [] {
      SplitJoin(values, GroupSeparator);
      DropEmptyKeepsNonEmpty(values);
      assert Split("", GroupSeparator) == [""];
    }
  }

  /**
   * Having no `'|||'` inside is not enough: a value ending in `'|'` loses it
   * to the next value.
   */
  lemma AggregateMovesTrailingBar()
    ensures Aggregate(["a|", "b"]) == ["a", "|b"]
  {
    var joined := Join(["a|", "b"], GroupSeparator);
    assert joined == "a||||b";
    assert SplitFrom("", GroupSeparator, "|b") == ["|b"];
    assert "|" + ['b'] == "|b" && "b"[1..] == "";
    assert SplitFrom("b", GroupSeparator, "|") == ["|b"];
    assert "" + ['|'] == "|" && "|b"[1..] == "b";
    assert SplitFrom("|b", GroupSeparator, "") == ["|b"];
    assert "||||b"[..3] == GroupSeparator && "||||b"[3..] == "|b";
    assert SplitFrom("||||b", GroupSeparator, "a") == ["a", "|b"];
    assert "a||||b"[..3][0] != GroupSeparator[0];
    assert "a||||b"[1..] == "||||b" && "" + ['a'] == "a";
    assert SplitFrom("a||||b", GroupSeparator, "") == ["a", "|b"];
    assert DropEmpty(["|b"]) == ["|b"];
  }

  /** The replies of one note in the order they were stored. */
  function RepliesFor(replies: seq<Reply>, journalId: int): (r: seq<Reply>)
    ensures forall a :: a in r <==> a in replies && a.journalId == journalId
    ensures |r| <= |replies|
  {
    if replies == [] then []
    else (if replies[0].journalId == journalId then [replies[0]] else []) + RepliesFor(replies[1..], journalId)
  }

  function ResponseTexts(rs: seq<Reply>): seq<string> {
    seq(|rs|, i requires 0 <= i < |rs| => rs[i].responseText)
  }

  function FollowUpTexts(rs: seq<Reply>): seq<string> {
    seq(|rs|, i requires 0 <= i < |rs| => rs[i].followUpQuestions)
  }

  function InsightTexts(rs: seq<Reply>): seq<string> {
    seq(|rs|, i requires 0 <= i < |rs| => rs[i].insights)
  }

  datatype ListedNote = ListedNote(note: Note, aiResponses: seq<string>, followUps: seq<string>, insights: seq<string>)

  function Listed(n: Note, replies: seq<Reply>): ListedNote {
    var rs := RepliesFor(replies, n.id);
    ListedNote(n, Aggregate(ResponseTexts(rs)), Aggregate(FollowUpTexts(rs)), Aggregate(InsightTexts(rs)))
  }

  /** A note without replies lists three empty arrays. */
  lemma ListedWithoutReplies(n: Note, replies: seq<Reply>)
    requires forall a :: a in replies ==> a.journalId != n.id
    ensures Listed(n, replies) == ListedNote(n, [], [], [])
  {
  }

  /** A note's reply texts come back in storage order when none is empty or holds a `'|'`. */
  lemma ListedShowsReplies(n: Note, replies: seq<Reply>)
    requires forall a :: a in replies && a.journalId == n.id ==> a.responseText != "" && FreeOf(a.responseText, '|')
    ensures Listed(n, replies).aiResponses == ResponseTexts(RepliesFor(replies, n.id))
  {
    var rs := RepliesFor(replies, n.id);
    var texts := ResponseTexts(rs);
    forall i | 0 <= i < |texts| ensures texts[i] != "" && FreeOf(texts[i], '|') {
      assert rs[i] in rs;
    }
    AggregateRoundTrip(texts);
  }

  // ---------------------------------------------------------------------
  // Insight generation
  // ---------------------------------------------------------------------

  const NeedAtLeastThree: string := "Need at least 3 journal entries to generate insights"
  const InsightsFailed: string := "Failed to generate insights"
  const StrengthTitle: string := "Personal Strength"
  const GrowthTitle: string := "Growth Opportunity"
  const StrengthConfidence: int := 90
  const GrowthConfidence: int := 85

  /** A pattern as the service sent it; any field may be missing. */
  datatype SqlPattern = SqlPattern(kind: Option<string>, description: Option<string>, confidence: Option<int>)

  datatype SqlAnalysis = SqlAnalysis(
    patterns: Option<seq<SqlPattern>>, strengths: Option<seq<string>>,
    growthAreas: Option<seq<string>>, recommendations: Option<seq<string>>)

  /** The values bound to one insight INSERT. */
  datatype InsightInsert = InsightInsert(
    userId: int, insightType: string, title: Option<string>, description: Option<string>, confidence: Option<int>)

  /** The message sent for the analysis: the notes joined with a rule between them. */
  function AnalysisPrompt(contents: seq<string>): string {
    "Please analyze these journal entries for patterns and insights:\n\n" + Join(contents, Normalise.EntrySeparator)
  }

  /**
   * The INSERTs in the order they run: the patterns, then the strengths at
   * 90, then the growth areas at 85; an absent list adds nothing.
   */
  function InsightPlan(userId: int, a: SqlAnalysis): (r: seq<InsightInsert>)
    ensures |r| == LengthOr0(a.patterns) + LengthOr0(a.strengths) + LengthOr0(a.growthAreas)
    ensures forall k :: 0 <= k < |r| ==> r[k].userId == userId
    ensures forall k :: 0 <= k < LengthOr0(a.patterns) ==>
      r[k] == InsightInsert(userId, "pattern", a.patterns.value[k].kind, a.patterns.value[k].description,
                            a.patterns.value[k].confidence)
    ensures forall k :: 0 <= k < LengthOr0(a.strengths) ==>
      r[LengthOr0(a.patterns) + k] == InsightInsert(userId, "strength", Some(StrengthTitle), Some(a.strengths.value[k]), Some(90))
    ensures forall k :: 0 <= k < LengthOr0(a.growthAreas) ==>
      r[LengthOr0(a.patterns) + LengthOr0(a.strengths) + k]
        == InsightInsert(userId, "growth_area", Some(GrowthTitle), Some(a.growthAreas.value[k]), Some(85))
  {
    var ps := OrSeq(a.patterns, []);
    var ss := OrSeq(a.strengths, []);
    var gs := OrSeq(a.growthAreas, []);
    seq(|ps|, i requires 0 <= i < |ps| => InsightInsert(userId, "pattern", ps[i].kind, ps[i].description, ps[i].confidence))
    + seq(|ss|, i requires 0 <= i < |ss| => InsightInsert(userId, "strength", Some(StrengthTitle), Some(ss[i]), Some(StrengthConfidence)))
    + seq(|gs|, i requires 0 <= i < |gs| => InsightInsert(userId, "growth_area", Some(GrowthTitle), Some(gs[i]), Some(GrowthConfidence)))
  }

  /** The NOT NULL columns `title` and `description` have values. */
  predicate Insertable(i: InsightInsert) {
    i.title.Some? && i.description.Some?
  }

  /** How many INSERTs succeed before the first one that violates NOT NULL. */
  function InsertedBeforeFailure(plan: seq<InsightInsert>): (k: nat)
    ensures k <= |plan|
    ensures forall j :: 0 <= j < k ==> Insertable(plan[j])
    ensures k < |plan| ==> !Insertable(plan[k])
  {
    if plan == [] || !Insertable(plan[0]) then 0 else 1 + InsertedBeforeFailure(plan[1..])
  }

  /** Every strength and growth area is inserted; only a pattern without a type or a description stops the batch. */
  lemma {:induction false} OnlyPatternsStopTheBatch(userId: int, a: SqlAnalysis)
    requires forall p :: p in OrSeq(a.patterns, []) ==> p.kind.Some? && p.description.Some?
    ensures InsertedBeforeFailure(InsightPlan(userId, a)) == |InsightPlan(userId, a)|
  {
    var plan := InsightPlan(userId, a);
    var ps := OrSeq(a.patterns, []);
    forall j | 0 <= j < |plan| ensures Insertable(plan[j]) {
      if j < |ps| {
        assert ps[j] in ps;
      }
    }
    AllInsertable(plan);
  }

  lemma {:induction false} AllInsertable(plan: seq<InsightInsert>)
    requires forall j :: 0 <= j < |plan| ==> Insertable(plan[j])
    ensures InsertedBeforeFailure(plan) == |plan|
  {
    if plan != [] {
      AllInsertable(plan[1..]);
    }
  }

  /** The stored row written by an INSERT that succeeded. */
  function NewSqlInsight(i: InsightInsert, id: int, stamp: int): (row: SqlInsight)
    requires Insertable(i)
    ensures row.userId == i.userId && row.insightType == i.insightType && row.confidence == i.confidence
    ensures Some(row.title) == i.title && Some(row.description) == i.description
  {
    SqlInsight(id, i.userId, i.insightType, i.title.value, i.description.value, i.confidence, stamp)
  }

  /** The bound values a stored row came from. */
  function InsertOf(row: SqlInsight): InsightInsert {
    InsightInsert(row.userId, row.insightType, Some(row.title), Some(row.description), row.confidence)
  }

  datatype InsightOutcome = TooFewEntries(message: string) | Generated(analysis: SqlAnalysis)

  // ---------------------------------------------------------------------
  // The database and the routes
  // ---------------------------------------------------------------------

  class SqliteDb {
    var users: seq<SqlUser>
    var notes: seq<Note>
    var replies: seq<Reply>
    var insights: seq<SqlInsight>
    var nextUserId: int
    var nextNoteId: int
    var nextReplyId: int
    var nextInsightId: int
    var clock: int

    /** AUTOINCREMENT ids, one clock for every `created_at`, and UNIQUE emails. */
    ghost predicate Valid()
      reads this
    {
      && Serial(users, UserId, nextUserId) && DistinctKeys(users, UserEmail)
      && Serial(notes, NoteId, nextNoteId) && Serial(notes, NoteCreated, clock)
      && Serial(replies, ReplyId, nextReplyId) && Serial(replies, ReplyCreated, clock)
      && Serial(insights, InsightId, nextInsightId) && Serial(insights, InsightCreated, clock)
    }

    constructor ()
      ensures Valid()
      ensures users == [] && notes == [] && replies == [] && insights == []
      ensures nextUserId == 1 && nextNoteId == 1 && nextReplyId == 1 && nextInsightId == 1 && clock == 0
    {
      users, notes, replies, insights := [], [], [], [];
      nextUserId, nextNoteId, nextReplyId, nextInsightId := 1, 1, 1, 1;
      clock := 0;
    }

    /** `SELECT ... WHERE user_id = ? ORDER BY created_at DESC`. */
    function NotesOf(userId: int): (r: seq<Note>)
      reads this
      requires Valid()
      ensures forall n :: n in r <==> n in notes && n.userId == userId
      ensures Descending(r, NoteCreated)
    {
      SelectNewestFirstDescending(notes, NoteOwner, userId, NoteCreated);
      SelectNewestFirst(notes, NoteOwner, userId)
    }

    /** One INSERT into `journal_notes` with the next id and the current time. */
    method AppendNote(n: Note)
      requires Valid() && n.id == nextNoteId && n.createdAt == clock
      modifies this
      ensures Valid()
      ensures notes == old(notes) + [n] && nextNoteId == old(nextNoteId) + 1 && clock == old(clock) + 1
      ensures users == old(users) && replies == old(replies) && insights == old(insights)
      ensures nextUserId == old(nextUserId) && nextReplyId == old(nextReplyId) && nextInsightId == old(nextInsightId)
    {
      SerialAppend(notes, NoteId, nextNoteId, n, nextNoteId + 1);
      SerialAppend(notes, NoteCreated, clock, n, clock + 1);
      notes := notes + [n];
      nextNoteId := nextNoteId + 1;
      clock := clock + 1;
    }

    /** One INSERT into `ai_replies` with the next id and the current time. */
    method AppendReply(a: Reply)
      requires Valid() && a.id == nextReplyId && a.createdAt == clock
      modifies this
      ensures Valid()
      ensures replies == old(replies) + [a] && nextReplyId == old(nextReplyId) + 1 && clock == old(clock) + 1
      ensures users == old(users) && notes == old(notes) && insights == old(insights)
      ensures nextUserId == old(nextUserId) && nextNoteId == old(nextNoteId) && nextInsightId == old(nextInsightId)
    {
      SerialAppend(replies, ReplyId, nextReplyId, a, nextReplyId + 1);
      SerialAppend(replies, ReplyCreated, clock, a, clock + 1);
      replies := replies + [a];
      nextReplyId := nextReplyId + 1;
      clock := clock + 1;
    }

    // --- POST /api/register ------------------------------------------------

    /**
     * A missing or empty email or password is a 400 before anything else; an
     * email already in use is a 400 and writes nothing; otherwise one user
     * row is added and its id returned.
     */
    method Register(body: RegisterBody, hash: string -> string) returns (r: HttpResult<int>)
      requires Valid()
      modifies this
      ensures Valid()
      ensures !HasCredentials(body) ==> r == Err(400, CredentialsRequired) && unchanged(this)
      ensures HasCredentials(body) && EmailTaken(old(users), body.email.value) ==>
        r == Err(400, EmailExists) && unchanged(this)
      ensures HasCredentials(body) && !EmailTaken(old(users), body.email.value) ==>
        && r == Ok(old(nextUserId))
        && users == old(users) + [NewUser(old(nextUserId), body, hash, old(clock))]
        && nextUserId == old(nextUserId) + 1 && clock == old(clock) + 1
      ensures notes == old(notes) && replies == old(replies) && insights == old(insights)
      ensures nextNoteId == old(nextNoteId) && nextReplyId == old(nextReplyId) && nextInsightId == old(nextInsightId)
    {
      if !HasCredentials(body) {
        return Err(400, CredentialsRequired);
      }
      if EmailTaken(users, body.email.value) {
        return Err(400, EmailExists);
      }
      var u := NewUser(nextUserId, body, hash, clock);
      SerialAppend(users, UserId, nextUserId, u, nextUserId + 1);
      DistinctAppend(users, UserEmail, u);
      users := users + [u];
      nextUserId := nextUserId + 1;
      clock := clock + 1;
      r := Ok(u.id);
    }

    // --- POST /api/journal -------------------------------------------------

    /** The synchronous part: the guard, the content check and the INSERT; answers with the new id. */
    method SaveNote(session: Option<Session>, body: JournalBody) returns (r: HttpResult<int>)
      requires Valid()
      modifies this
      ensures Valid()
      ensures RequireLogin(session).Err? ==> r == Err(401, LoginRequired) && unchanged(this)
      ensures RequireLogin(session).Ok? && !ContentAccepted(body.content) ==>
        r == Err(400, ContentRequired) && unchanged(this)
      ensures RequireLogin(session).Ok? && ContentAccepted(body.content) ==>
        && r == Ok(old(nextNoteId))
        && notes == old(notes) + [NewNote(old(nextNoteId), RequireLogin(session).body, body, old(clock))]
        && nextNoteId == old(nextNoteId) + 1 && clock == old(clock) + 1
      ensures users == old(users) && replies == old(replies) && insights == old(insights)
      ensures nextUserId == old(nextUserId) && nextReplyId == old(nextReplyId) && nextInsightId == old(nextInsightId)
    {
      var login := RequireLogin(session);
      if login.Err? {
        return Err(401, LoginRequired);
      }
      if !ContentAccepted(body.content) {
        return Err(400, ContentRequired);
      }
      var n := NewNote(nextNoteId, login.body, body, clock);
      AppendNote(n);
      r := Ok(n.id);
    }

    /**
     * `generateAIResponse`: asks the service about `content` with the
     * user's four notes after the newest as context, and stores one reply,
     * or nothing when the service fails or its answer has no text.
     */
    method GenerateAiReply(
      journalId: int, content: string, userId: int, ai: string -> AiReply<Normalise.RawTherapist>,
      listJson: seq<string> -> string, objectJson: StoredInsights -> string)
      requires Valid()
      modifies this
      ensures Valid()
      ensures var prompt := ReplyPrompt(content, Join(ContextEntries(old(NotesOf(userId))), ContextSeparator));
        && (ai(prompt).Unavailable? || ai(prompt).result.response.None? ==> unchanged(this))
        && (ai(prompt).Parsed? && ai(prompt).result.response.Some? ==>
              && replies == old(replies)
                   + [ReplyRow(ai(prompt).result, old(nextReplyId), journalId, old(clock), listJson, objectJson).value]
              && nextReplyId == old(nextReplyId) + 1 && clock == old(clock) + 1)
      ensures users == old(users) && notes == old(notes) && insights == old(insights)
      ensures nextUserId == old(nextUserId) && nextNoteId == old(nextNoteId) && nextInsightId == old(nextInsightId)
    {
      var context := Join(ContextEntries(NotesOf(userId)), ContextSeparator);
      var answer := ai(ReplyPrompt(content, context));
      if answer.Unavailable? {
        return;
      }
      var row := ReplyRow(answer.result, nextReplyId, journalId, clock, listJson, objectJson);
      if row.None? {
        return;
      }
      AppendReply(row.value);
    }

    /**
     * The whole POST: the answer is fixed by the synchronous part; the
     * background reply then runs, sees the new note as the user's newest,
     * and so takes its context from the four notes before it.
     */
    method PostJournalRoute(
      session: Option<Session>, body: JournalBody, ai: string -> AiReply<Normalise.RawTherapist>,
      listJson: seq<string> -> string, objectJson: StoredInsights -> string)
      returns (r: HttpResult<int>)
      requires Valid()
      modifies this
      ensures Valid()
      ensures r.Err? ==> unchanged(this)
      ensures r.Ok? <==> RequireLogin(session).Ok? && ContentAccepted(body.content)
      ensures r.Ok? ==>
        var userId := RequireLogin(session).body;
        var prompt := ReplyPrompt(body.content.value,
                        Join(Contents(TakeFirst(old(NotesOf(userId)), 4)), ContextSeparator));
        && r.body == old(nextNoteId)
        && notes == old(notes) + [NewNote(old(nextNoteId), userId, body, old(clock))]
        && (ai(prompt).Parsed? && ai(prompt).result.response.Some? ==>
              && |replies| == |old(replies)| + 1 && replies[..|old(replies)|] == old(replies)
              && replies[|old(replies)|].journalId == r.body)
        && (ai(prompt).Unavailable? || ai(prompt).result.response.None? ==> replies == old(replies))
    {
      ghost var beforeNotes, beforeReplies := notes, replies;
      r := SaveNote(session, body);
      if r.Err? {
        return;
      }
      var userId := RequireLogin(session).body;
      ContextAfterSave(beforeNotes, NewNote(r.body, userId, body, old(clock)));
      GenerateAiReply(r.body, body.content.value, userId, ai, listJson, objectJson);
      assert |replies| > |beforeReplies| ==> replies[..|beforeReplies|] == beforeReplies;
    }

    // --- GET /api/journal ----------------------------------------------------

    /** The caller's notes, newest first, each with its three aggregated columns. */
    function ListJournalRoute(session: Option<Session>): (r: HttpResult<seq<ListedNote>>)
      reads this
      requires Valid()
      ensures r.Err? <==> RequireLogin(session).Err?
      ensures r.Err? ==> r == Err(401, LoginRequired)
      ensures r.Ok? ==>
        var mine := NotesOf(RequireLogin(session).body);
        && |r.body| == |mine|
        && forall i :: 0 <= i < |r.body| ==>
             r.body[i].note == mine[i] && r.body[i] == Listed(mine[i], replies)
    {
      match RequireLogin(session)
      case Err(status, message) => Err(status, message)
      case Ok(userId) =>
        var mine := NotesOf(userId);
        var stored := replies;
        Ok(seq(|mine|, i requires 0 <= i < |mine| => Listed(mine[i], stored)))
    }

    // --- GET /api/insights ---------------------------------------------------

    /** At most the ten newest insights of the caller, newest first. */
    function ListInsightsRoute(session: Option<Session>): (r: HttpResult<seq<SqlInsight>>)
      reads this
      requires Valid()
      ensures r.Err? <==> RequireLogin(session).Err?
      ensures r.Err? ==> r == Err(401, LoginRequired)
      ensures r.Ok? ==> |r.body| <= 10
      ensures r.Ok? ==> |r.body| == Min(10, |SelectNewestFirst(insights, InsightOwner, RequireLogin(session).body)|)
      ensures r.Ok? ==> forall x :: x in r.body ==> x in insights && x.userId == RequireLogin(session).body
      ensures r.Ok? ==> Descending(r.body, InsightCreated)
      ensures r.Ok? ==> forall x, y ::
        (x in r.body && y in insights && y.userId == RequireLogin(session).body && y !in r.body) ==>
          x.createdAt > y.createdAt
    {
      match RequireLogin(session)
      case Err(status, message) => Err(status, message)
      case Ok(userId) =>
        SelectNewestFirstDescending(insights, InsightOwner, userId, InsightCreated);
        var mine := SelectNewestFirst(insights, InsightOwner, userId);
        NewestKeptAreNewest(mine, 10);
        Ok(TakeFirst(mine, 10))
    }

    // --- POST /api/insights/generate -------------------------------------------

    /** Runs the planned INSERTs in order, stopping at the first one that violates NOT NULL. */
    method InsertInsights(plan: seq<InsightInsert>) returns (inserted: nat)
      requires Valid()
      modifies this
      ensures Valid()
      ensures inserted == InsertedBeforeFailure(plan)
      ensures |insights| == |old(insights)| + inserted && insights[..|old(insights)|] == old(insights)
      ensures forall k :: 0 <= k < inserted ==> InsertOf(insights[|old(insights)| + k]) == plan[k]
      ensures nextInsightId == old(nextInsightId) + inserted && clock == old(clock) + inserted
      ensures users == old(users) && notes == old(notes) && replies == old(replies)
      ensures nextUserId == old(nextUserId) && nextNoteId == old(nextNoteId) && nextReplyId == old(nextReplyId)
    {
      inserted := 0;
      while inserted < |plan| && Insertable(plan[inserted])
        invariant Valid()
        invariant inserted <= InsertedBeforeFailure(plan)
        invariant |insights| == |old(insights)| + inserted && insights[..|old(insights)|] == old(insights)
        invariant forall k :: 0 <= k < inserted ==> InsertOf(insights[|old(insights)| + k]) == plan[k]
        invariant nextInsightId == old(nextInsightId) + inserted && clock == old(clock) + inserted
        invariant users == old(users) && notes == old(notes) && replies == old(replies)
        invariant nextUserId == old(nextUserId) && nextNoteId == old(nextNoteId) && nextReplyId == old(nextReplyId)
        decreases |plan| - inserted
      {
        var row := NewSqlInsight(plan[inserted], nextInsightId, clock);
        SerialAppend(insights, InsightId, nextInsightId, row, nextInsightId + 1);
        SerialAppend(insights, InsightCreated, clock, row, clock + 1);
        insights := insights + [row];
        nextInsightId := nextInsightId + 1;
        clock := clock + 1;
        inserted := inserted + 1;
      }
    }

    /**
     * Fewer than three notes among the caller's ten newest: a message and no
     * write. A failed call: 500 and no write. Otherwise the planned rows are
     * inserted in order; a row violating NOT NULL ends the batch with a 500
     * and keeps the rows inserted before it.
     */
    method GenerateInsightsRoute(session: Option<Session>, ai: string -> AiReply<SqlAnalysis>)
      returns (r: HttpResult<InsightOutcome>)
      requires Valid()
      modifies this
      ensures Valid()
      ensures RequireLogin(session).Err? ==> r == Err(401, LoginRequired) && unchanged(this)
      ensures RequireLogin(session).Ok? ==>
        var userId := RequireLogin(session).body;
        var recent := TakeFirst(Contents(old(NotesOf(userId))), 10);
        && (|recent| < 3 ==> r == Ok(TooFewEntries(NeedAtLeastThree)) && unchanged(this))
        && (|recent| >= 3 && ai(AnalysisPrompt(recent)).Unavailable? ==> r == Err(500, InsightsFailed) && unchanged(this))
        && (|recent| >= 3 && ai(AnalysisPrompt(recent)).Parsed? ==>
              var plan := InsightPlan(userId, ai(AnalysisPrompt(recent)).result);
              var k := InsertedBeforeFailure(plan);
              && (r == Ok(Generated(ai(AnalysisPrompt(recent)).result)) <==> k == |plan|)
              && (k < |plan| ==> r == Err(500, InsightsFailed))
              && |insights| == |old(insights)| + k && insights[..|old(insights)|] == old(insights)
              && forall j :: 0 <= j < k ==> InsertOf(insights[|old(insights)| + j]) == plan[j])
      ensures users == old(users) && notes == old(notes) && replies == old(replies)
    {
      var login := RequireLogin(session);
      if login.Err? {
        return Err(401, LoginRequired);
      }
      var recent := TakeFirst(Contents(NotesOf(login.body)), 10);
      if |recent| < 3 {
        return Ok(TooFewEntries(NeedAtLeastThree));
      }
      var answer := ai(AnalysisPrompt(recent));
      if answer.Unavailable? {
        return Err(500, InsightsFailed);
      }
      var plan := InsightPlan(login.body, answer.result);
      var inserted := InsertInsights(plan);
      if inserted < |plan| {
        return Err(500, InsightsFailed);
      }
      r := Ok(Generated(answer.result));
    }
  }

  /** Just after a note is saved it is the newest, so the context is built from the four notes before it. */
  lemma ContextSkipsNewNote(olderFirst: seq<Note>, n: Note)
    ensures ContextEntries([n] + olderFirst) == Contents(TakeFirst(olderFirst, 4))
  {
    var s := [n] + olderFirst;
    assert DropFirst(TakeFirst(s, 5)) == TakeFirst(olderFirst, 4);
  }

  /** After `n` is appended, its owner's reply context is the four of their notes that were newest before it. */
  lemma ContextAfterSave(before: seq<Note>, n: Note)
    ensures ContextEntries(SelectNewestFirst(before + [n], NoteOwner, n.userId))
         == Contents(TakeFirst(SelectNewestFirst(before, NoteOwner, n.userId), 4))
  {
    SelectAfterInsert(before, NoteOwner, n, n.userId);
    ContextSkipsNewNote(SelectNewestFirst(before, NoteOwner, n.userId), n);
  }

  /** Of a newest-first listing, the first `n` rows are newer than every row left out. */
  lemma NewestKeptAreNewest(rows: seq<SqlInsight>, n: nat)
    requires Descending(rows, InsightCreated)
    ensures forall x, y :: x in TakeFirst(rows, n) && y in rows && y !in TakeFirst(rows, n) ==> x.createdAt > y.createdAt
  {
    var kept := TakeFirst(rows, n);
    forall x, y | x in kept && y in rows && y !in kept ensures x.createdAt > y.createdAt {
      var i :| 0 <= i < |kept| && kept[i] == x;
      var j :| 0 <= j < |rows| && rows[j] == y;
      assert InsightCreated(rows[i]) > InsightCreated(rows[j]);
    }
  }
}
