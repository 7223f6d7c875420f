# MindMirror journal service: a Dafny model

MindMirror is a mental-wellness journal. A user writes entries and an
AI "therapist" persona answers each one. The persona can also produce advice,
pattern/strength/growth-area insights and mood analytics from the user's
history. The repository holds two servers:

- The structured server: `server/openai.ts` calls the text-generation
  service, `server/storage.ts` is the database store, and `server/routes.ts`
  has the HTTP handlers.
- The older single-file SQLite server (`app.js`).

This project models the bookkeeping around the AI calls in both servers:

- what each helper sends to the service;
- how the parsed answer is normalised;
- which rows each request writes;
- which rows each listing returns.

The two servers differ in small ways, so each is modelled separately:

| Module | File | Models |
|---|---|---|
| `Common` | `common.dfy` | Option/Result/HTTP outcomes and the JavaScript operations the servers rely on: `||` defaults, `slice`, `join`, `split`, `filter`, `trim` |
| `Tables` | `tables.dfy` | Generic table operations over rows kept in insertion order: serial ids and stamps, lookup by key, and "filter by owner, newest first" |
| `Normalise` | `normalise.dfy` | `server/openai.ts`, as pure functions |
| `Storage` | `storage.dfy` | `server/storage.ts`: a class `DatabaseStorage` whose five tables are sequence fields |
| `Routes` | `routes.dfy` | `server/routes.ts`: handlers as methods over `DatabaseStorage`, plus pure planning functions |
| `SqliteApp` | `sqlite_app.dfy` | `app.js`: a class `SqliteDb` with its own four tables and its routes |

## How the outside world is modelled

- **The text-generation service** is a function parameter
  `ai: string -> AiReply<Raw…>`. It maps the user message a helper builds
  to the parsed JSON answer. Every field of that answer is optional.
  `Unavailable` stands for all of these: a network error, an error status,
  and content that is not JSON. `JSON.parse(content || "{}")` on an empty
  answer is `Parsed` with every field missing.
- **Time.** `createdAt` and `updatedAt` come from one logical clock. It
  ticks on every successful insert and on every update of a table with an
  `updatedAt` column (users and journal entries); writing an advice
  answer does not tick it. It is shared by all tables. Ids come from one
  counter per table. The class invariant `Valid()` records both facts.
  Under it, `ORDER BY created_at DESC` is the same as the matching rows
  read from the end (`Tables.SelectNewestFirst`).
- **Authentication.**
  - Replit authentication is reduced to the caller's user id, a parameter.
  - The SQLite server's session is an `Option<Session>` checked by
    `RequireLogin`.
  - bcrypt hashing is a parameter `hash`.
- **JSON text.** The SQLite server stores JSON text. `JSON.stringify` of
  the follow-up list and of the insights object are the parameters
  `listJson` and `objectJson`.
- **Background replies.** Each server starts a reply in the background
  after saving an entry. That reply is modelled as a second sequential step
  that runs after the HTTP answer is fixed (`Routes.CreateJournalEntryRoute`,
  `SqliteApp.SqliteDb.PostJournalRoute`). Its failure writes nothing and
  does not change the answer.
- **JavaScript falsiness.**
  - `""` and a missing value are falsy for strings; `0` and a missing value
    are falsy for numbers. So an empathy score of `0` becomes `5`, and a
    mood score of `0` is stored as NULL.
  - Arrays and objects are always truthy. So an empty history array still
    adds the history header.

Differences between the two servers that the model keeps apart:

- **Growth-area confidence:** 80 in `Routes.InsightPlan`, 85 in
  `SqliteApp.InsightPlan`.
- **Insertion order:** growth areas before strengths in the structured
  server, strengths before growth areas in the SQLite server.
- **History window:** the structured server's follow-up sends the three
  newest entries. The SQLite server's reply sends the four entries after
  the newest one.
- **Missing reply text:** the structured server replaces it with a fallback
  sentence. The SQLite server then violates a NOT NULL column, so no reply
  is stored.
- **Stored content:** the SQLite server stores the trimmed content but
  sends the untrimmed content to the service.

## Model

| member | source | states |
|---|---|---|
| Common.TrimEmptyIff | app.js:218 | `s.trim()` is empty exactly when every character of `s` is ECMAScript white space or a line terminator |
| Common.Trim | app.js:227 | the trimmed text sits in the input with only white space before and after it, and it neither starts nor ends with white space, so exactly the leading and trailing white space is removed |
| Common.TrimPieces | app.js:227 | cutting white space off the front and then off the back leaves a part of the input surrounded only by white space |
| Common.SplitJoin | app.js:267 | splitting a join on the same separator gives back the items, when there is at least one item and none holds the separator's first character |
| Normalise.ClampEmpathy | server/openai.ts:88 | the score lies in 1..10; a missing score or 0 becomes 5; a score in range is kept; above 10 gives 10; below 0 gives 1 |
| Normalise.NormaliseTherapist | server/openai.ts:84-89 | the reply text is never empty: a missing or empty text becomes the fallback sentence, and any other text is kept; follow-ups and insights pass through when present and default to `[]` and to empty emotions/patterns/suggestions; the score lies in 1..10 |
| Normalise.HistoryContext | server/openai.ts:46-47 | no history array gives an empty suffix |
| Normalise.GenerateTherapistResponse | server/openai.ts:41-94 | fails, with the one fixed message, exactly when the service gives nothing usable for the message built from the entry and its history; otherwise it is the normalised answer |
| Normalise.TherapistUsesLastThree | server/openai.ts:46-47 | history items older than the last three do not change the message |
| Normalise.TherapistMessageHoldsRecent | server/openai.ts:46-47 | each of the last three history items appears unbroken in the message |
| Normalise.NormaliseAdvice | server/openai.ts:137-141 | advice and plan are never empty: missing or empty ones become the fixed sentences, and others are kept; techniques default to `[]` |
| Normalise.GenerateAdvice | server/openai.ts:96-146 | fails with the fixed advice error exactly when the service gives nothing usable; otherwise it is the normalised answer |
| Normalise.AdviceUsesLastFive | server/openai.ts:102-103 | history items older than the last five do not change the advice message |
| Normalise.AdviceMessageHoldsRecent | server/openai.ts:102-103 | each of the last five history items appears unbroken in the advice message |
| Normalise.NormaliseAnalysis | server/openai.ts:187-192 | each of the four lists is the one sent, or `[]` when it is missing |
| Normalise.AnalyzeUserInsights | server/openai.ts:148-197 | fails with the fixed analysis error exactly when the service gives nothing usable; otherwise it is the normalised analysis |
| Normalise.AnalysisUsesFirstTen | server/openai.ts:153 | entries after the first ten never change the analysis |
| Normalise.AnalysisMessageHoldsFirstTen | server/openai.ts:153 | each of the first ten entries appears unbroken in the analysis message |
| Normalise.ContentExcerpt | server/openai.ts:208 | no or empty content gives nothing; otherwise the line shows `- `, at most the first 100 characters (Unicode scalar values), then `...` |
| Normalise.MoodLines | server/openai.ts:208 | one summary line per mood datum, in order |
| Normalise.MoodLineIgnoresLongTail | server/openai.ts:208 | content beyond its first 100 characters never reaches the summary line |
| Normalise.MoodLineKeepsShortContent | server/openai.ts:208 | content of at most 100 characters (Unicode scalar values) appears whole, between `- ` and `...` |
| Normalise.NormaliseMood | server/openai.ts:234-239 | the trend and the main mood are never empty: they default to "stable" and "neutral", and any non-empty value sent is kept; both lists default to `[]` |
| Normalise.GenerateMoodInsights | server/openai.ts:199-244 | fails with the fixed mood error exactly when the service gives nothing usable; otherwise it is the normalised answer |
| Storage.DatabaseStorage.constructor | server/storage.ts:167 | the store starts with empty tables and satisfies its invariant |
| Storage.DatabaseStorage.GetUser | server/storage.ts:52-55 | returns the one row with that id, or nothing exactly when no row has it |
| Storage.UpsertedRow | server/storage.ts:57-68 | a new id makes a fresh row; a known id keeps the row's id and `createdAt` and overwrites exactly the given fields among email, first and last name and profile image, keeping the others; a fresh row takes the given fields and NULL for the rest; either way `updatedAt` is the current time |
| Storage.DatabaseStorage.UpsertUser | server/storage.ts:57-70 | inserts a new id, or replaces the row with that id in place; a non-null email held by another user writes nothing; the store keeps one row per id; reading the id back gives the written row |
| Storage.DatabaseStorage.CreateJournalEntry | server/storage.ts:73-79 | appends exactly one row with the next id and the current time, returns it, and leaves every other table unchanged |
| Storage.DatabaseStorage.GetUserJournalEntries | server/storage.ts:81-87 | exactly that user's entries, newest `createdAt` first |
| Storage.DatabaseStorage.GetJournalEntry | server/storage.ts:89-95 | the entry with that id, or nothing exactly when no entry has it |
| Storage.ApplyEntryPatch | server/storage.ts:97-104 | the patched row keeps its id and `createdAt`, takes each of the six patchable fields from the patch when supplied and keeps its old value otherwise, and gets the current time as `updatedAt` |
| Storage.DatabaseStorage.UpdateJournalEntry | server/storage.ts:97-104 | only the row with that id changes, by the patch; an unknown id changes nothing and returns nothing |
| Storage.DatabaseStorage.CreateAiResponse | server/storage.ts:107-113 | appends exactly one reply row and leaves every other table unchanged |
| Storage.DatabaseStorage.GetAiResponsesForEntry | server/storage.ts:115-121 | exactly the replies whose entry id matches, newest first |
| Storage.DatabaseStorage.CreateUserInsight | server/storage.ts:124-130 | appends exactly one insight row and leaves every other table unchanged |
| Storage.DatabaseStorage.GetUserInsights | server/storage.ts:132-138 | exactly that user's insights, newest first |
| Storage.DatabaseStorage.CreateAdviceRequest | server/storage.ts:141-147 | appends exactly one advice request and leaves every other table unchanged |
| Storage.DatabaseStorage.GetUserAdviceRequests | server/storage.ts:149-155 | exactly that user's advice requests, newest first |
| Storage.ApplyAdviceAnswer | server/storage.ts:157-164 | sets `response`; sets `techniques` only when given; every other field is unchanged |
| Storage.DatabaseStorage.UpdateAdviceRequest | server/storage.ts:157-164 | only the request with that id changes; nothing is returned exactly when no request has that id |
| Routes.StoredReplyNonEmpty | server/routes.ts:46-52 | a stored reply's text is never empty, whatever the service answered |
| Routes.InitialReply | server/routes.ts:44-56 | on success, stores one reply of kind `initial` for the entry, built from the entry's content with no history; on failure, writes nothing |
| Routes.CreateJournalEntryRoute | server/routes.ts:33-63 | a rejected body is a 500 and writes nothing; otherwise it answers with the created entry whatever the service does; afterwards the reply table has grown by one `initial` reply for that entry exactly when the service succeeded |
| Routes.ListJournalEntriesRoute | server/routes.ts:65-86 | the user's entries, newest first, each with exactly the store's listing of its replies, newest first |
| Routes.GetJournalEntryRoute | server/routes.ts:88-111 | 404 exactly when no entry has the id; 403 exactly when another user owns it; otherwise the caller's entry with the store's listing of its replies, newest first |
| Routes.FollowUpHistory | server/routes.ts:126-127 | the contents of at most the three newest entries, newest first |
| Routes.FollowUpHistoryIsNewest | server/routes.ts:126-127 | every entry sent with a follow-up is newer than every user entry left out |
| Routes.FollowUpRoute | server/routes.ts:114-147 | a missing or foreign entry is a 404 and writes nothing; a service failure is a 500 and writes nothing; otherwise it stores and returns exactly one `follow_up` reply |
| Routes.InsightPlan | server/routes.ts:224-255 | one row per pattern, then per growth area, then per strength, all for the caller; a pattern row keeps the pattern's type, description and confidence; growth areas get 'Growth Opportunity'/80; strengths get 'Personal Strength'/90 |
| Routes.PlanConfidenceBounded | server/routes.ts:224-233 | every inserted confidence lies in 1..100 exactly when every pattern's does, because the route bounds nothing |
| Routes.InsertInsights | server/routes.ts:222-255 | inserts the planned rows in order and returns them as stored; only the insight table changes |
| Routes.GenerateInsightsRoute | server/routes.ts:209-262 | fewer than three entries: a message, no write; a failed analysis: a 500, no write; otherwise exactly the planned rows are stored and the recommendations are only returned |
| Routes.MoodData | server/routes.ts:270-276 | keeps at most all the entries, and every datum has a non-empty mood and some content |
| Routes.MoodDataFaithful | server/routes.ts:270-276 | every datum is the mood, date and content of an entry that has a mood, and every entry with a mood contributes its datum |
| Routes.MoodDataEmpty | server/routes.ts:270-278 | no mood data exactly when no entry has a mood |
| Routes.MoodDataConcat | server/routes.ts:270-276 | the filter keeps the entries' order (it distributes over concatenation) |
| Routes.MoodAnalyticsRoute | server/routes.ts:265-288 | answers "no mood data" exactly when none of the user's entries has a mood; otherwise the normalised answer to the summary of the mood data when the service gives a usable answer, and a 500 only when it does not |
| Routes.PostAdviceRoute | server/routes.ts:150-184 | a rejected body is a 500 with no write; otherwise the request is stored first; a service failure is a 500 that leaves it unanswered; success writes the answer into that request and returns it with the advice |
| SqliteApp.RequireLogin | app.js:109-115 | passes exactly when a session exists and its user id is present and not 0; otherwise 401 |
| SqliteApp.NewUser | app.js:135-139 | stores the hash of the password, never the password, and `''` for a missing name |
| SqliteApp.SqliteDb.Register | app.js:125-154 | a missing or empty email or password is a 400; an email already in use is a 400 "Email already exists"; both write nothing; otherwise exactly one user is added and its id returned |
| SqliteApp.ContentAcceptedIff | app.js:218-220 | content is accepted exactly when it is present and not all white space |
| SqliteApp.NewNote | app.js:227 | stores the trimmed, non-empty content; a falsy mood or mood score becomes NULL, so a score of 0 is NULL; `isPrivate` is 1 exactly for `true` and 0 otherwise |
| SqliteApp.SqliteDb.SaveNote | app.js:213-243 | no login gives 401 and empty content gives 400, both without a write; otherwise exactly one note is added and its id returned |
| SqliteApp.ContextEntries | app.js:387-394 | at most four contents: those of the second to fifth newest notes |
| SqliteApp.ContextSkipsNewNote | app.js:387-394 | just after a save, the context is the four notes before the new one |
| SqliteApp.ContextAfterSave | app.js:387-394 | after a note is appended, its owner's reply context is the four of their notes that were newest before it |
| SqliteApp.ReplyRow | app.js:425-435 | a row exists exactly when the answer has a `response`; it carries the reply id, note, text and current time; follow-ups default to `[]`, and insights are the answer's insights when present and `{}` otherwise |
| SqliteApp.SqliteDb.GenerateAiReply | app.js:384-442 | stores exactly one reply when the service answers with a text; otherwise it writes nothing and raises nothing |
| SqliteApp.SqliteDb.PostJournalRoute | app.js:213-243 | the answer is the new note's id whatever the service does; the background reply is sent the untrimmed content with the four previous notes as context, and adds one reply exactly when the service answers with a text |
| SqliteApp.Aggregate | app.js:252-270 | a NULL column gives `[]`, and no listed piece is empty |
| SqliteApp.AggregateRoundTrip | app.js:265-270 | values that are not empty and hold no `'|'` come back from the column unchanged and in order |
| SqliteApp.AggregateMovesTrailingBar | app.js:265-270 | "no `'|||'` inside" is not enough: `["a|", "b"]` comes back as `["a", "|b"]` |
| SqliteApp.RepliesFor | app.js:252-258 | exactly the replies of one note |
| SqliteApp.ListedWithoutReplies | app.js:267-269 | a note without replies lists three empty arrays |
| SqliteApp.ListedShowsReplies | app.js:267 | a note's reply texts come back in storage order when none is empty or holds a `'|'` |
| SqliteApp.SqliteDb.NotesOf | app.js:387-392 | exactly the user's notes, newest first |
| SqliteApp.SqliteDb.ListJournalRoute | app.js:246-277 | no login gives 401; otherwise one listed note per note of the caller, newest first |
| SqliteApp.SqliteDb.ListInsightsRoute | app.js:280-295 | no login gives 401; otherwise exactly min(10, n) of the caller's n insights, newest first, each newer than every insight left out |
| SqliteApp.NewestKeptAreNewest | app.js:283-288 | the first `n` rows of a newest-first list are newer than every row left out |
| SqliteApp.InsightPlan | app.js:350-369 | the patterns as sent, then strengths at 90, then growth areas at 85; an absent list adds nothing, so the count is the sum of the present lists' lengths |
| SqliteApp.InsertedBeforeFailure | app.js:345-369 | the INSERTs before the first one with a missing title or description all have both |
| SqliteApp.OnlyPatternsStopTheBatch | app.js:350-369 | when every pattern has a type and a description, the whole plan is inserted |
| SqliteApp.NewSqlInsight | app.js:345-348 | the stored row carries the bound values; a missing confidence is stored as NULL |
| SqliteApp.SqliteDb.InsertInsights | app.js:350-369 | inserts in order up to the first NOT NULL violation, keeping the rows already inserted |
| SqliteApp.SqliteDb.GenerateInsightsRoute | app.js:298-381 | no login gives 401; fewer than three notes among the ten newest gives a message and no write; a failed call is a 500 with no write; otherwise the plan is inserted, and the answer is the analysis exactly when no INSERT failed |

## Left out

- The service calls themselves: model name, system prompts, temperature, response format. Only the user message and the parsed answer are modelled.
- JSON parsing and `JSON.stringify`. A parse failure is `Unavailable`. The SQLite server's stringified columns come from the parameters `listJson` and `objectJson`.
- bcrypt hashing and comparison, express-session and Replit authentication. These are foreign libraries. The SQLite server's login, logout and `/api/user` routes are left out with them.
- Concurrency. Background replies run as a sequential step after the answer. Interleavings with other requests are not modelled.
- Floating-point and NaN empathy scores. The score is an optional integer.
- Timestamps. The model uses a strictly increasing logical clock. SQLite's one-second `CURRENT_TIMESTAMP`, ties in `ORDER BY created_at` and wall-clock `new Date()` are not modelled.
- SqliteApp.Aggregate: `GROUP_CONCAT` is taken to join one note's replies in insertion order, which SQLite does not promise.
- Routes.GenerateInsightsRoute: takes it that each pattern has a type, a description and a confidence. A malformed pattern that the database rejects partway through the batch is not modelled. The SQLite model does model this.
- Request validation (the insert schemas) is reduced to "the body was accepted or not". Field types other than the ones modelled, and `parseInt` giving NaN, are out of scope.
- Normalise.ContentExcerpt: cuts the content after 100 Unicode scalar values, where `substring(0, 100)` counts 100 UTF-16 code units. Content with characters outside the Basic Multilingual Plane keeps more characters in the model than in the server, which can also split a surrogate pair.
- Normalise.MoodLineKeepsShortContent: describes the server only for content that lies wholly in the Basic Multilingual Plane, for the reason given on the line above.
- SqliteApp.NewNote: stores `isPrivate: true` as 1. How the SQLite driver binds a JavaScript boolean is not modelled.
- SqliteApp.SqliteDb.Register: the 500 "Registration failed" path (a hashing or other database error) is not modelled.
- SqliteApp.SqliteDb.SaveNote: the 500 "Failed to save journal entry" path (a database error) is not modelled.
- Database errors other than NOT NULL and UNIQUE violations (for example, connection failures) are not modelled.
- Thin read routes that only return one store read are not modelled as separate members: `GET /api/auth/user`, `GET /api/advice` and the structured server's `GET /api/insights`. The reads they return are modelled as `Storage.DatabaseStorage.GetUser`, `GetUserAdviceRequests` and `GetUserInsights`.
- Table creation, server start-up and shutdown, static files, the React client and `public/app.js`. These are infrastructure or display code.
