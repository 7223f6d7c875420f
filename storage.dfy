/**
 * The store of the structured server (server/storage.ts): five tables held
 * in memory, in insertion order. Serial ids come from one counter per table
 * and `created_at`/`updated_at` from one clock that ticks on every write.
 */
module Storage {
  import opened Common
  import opened Tables
  import Normalise

  // ---------------------------------------------------------------------
  // Rows
  // ---------------------------------------------------------------------

  datatype User = User(
    id: string, email: Option<string>, firstName: Option<string>, lastName: Option<string>,
    profileImageUrl: Option<string>, createdAt: int, updatedAt: int)

  /** A field of an insert or update object: left out (`undefined`), or given. */
  datatype Patch<+T> = Keep | Put(value: T)

  function Patched<T>(p: Patch<T>, current: T): (r: T)
    ensures p.Keep? ==> r == current
    ensures p.Put? ==> r == p.value
  {
    if p.Put? then p.value else current
  }

  datatype UpsertUser = UpsertUser(
    id: string, email: Patch<Option<string>>, firstName: Patch<Option<string>>,
    lastName: Patch<Option<string>>, profileImageUrl: Patch<Option<string>>)

  datatype JournalEntry = JournalEntry(
    id: int, userId: string, title: Option<string>, content: string, mood: Option<string>,
    moodScore: Option<int>, isPrivate: bool, createdAt: int, updatedAt: int)

  /** `isPrivate` left out takes the column default, false. */
  datatype InsertJournalEntry = InsertJournalEntry(
    userId: string, title: Option<string>, content: string, mood: Option<string>,
    moodScore: Option<int>, isPrivate: Option<bool>)

  /** `Partial<InsertJournalEntry>`. */
  datatype EntryPatch = EntryPatch(
    userId: Patch<string>, title: Patch<Option<string>>, content: Patch<string>,
    mood: Patch<Option<string>>, moodScore: Patch<Option<int>>, isPrivate: Patch<bool>)

  /** The reply kinds the `response_type` column holds. */
  datatype ResponseType = Initial | FollowUp | Advice

  datatype AiResponse = AiResponse(
    id: int, entryId: int, response: string, followUpQuestions: seq<string>,
    insights: Normalise.Insights, responseType: ResponseType, createdAt: int)

  datatype InsertAiResponse = InsertAiResponse(
    entryId: int, response: string, followUpQuestions: seq<string>,
    insights: Normalise.Insights, responseType: ResponseType)

  datatype InsightType = PatternInsight | GrowthArea | Strength

  datatype UserInsight = UserInsight(
    id: int, userId: string, insightType: InsightType, title: string, description: string,
    confidence: int, createdAt: int)

  datatype InsertUserInsight = InsertUserInsight(
    userId: string, insightType: InsightType, title: string, description: string, confidence: int)

  datatype AdviceRequest = AdviceRequest(
    id: int, userId: string, topic: Option<string>, request: string, response: Option<string>,
    techniques: Option<seq<Normalise.Technique>>, createdAt: int)

  datatype InsertAdviceRequest = InsertAdviceRequest(
    userId: string, topic: Option<string>, request: string, response: Option<string>,
    techniques: Option<seq<Normalise.Technique>>)

  const UniqueViolation: string := "duplicate key value violates unique constraint"

  // Column accessors, used as the keys and stamps of the generic table operations.
  function UserKey(u: User): string { u.id }
  function EntryId(e: JournalEntry): int { e.id }
  function EntryOwner(e: JournalEntry): string { e.userId }
  function EntryCreated(e: JournalEntry): int { e.createdAt }
  function ResponseId(a: AiResponse): int { a.id }
  function ResponseEntry(a: AiResponse): int { a.entryId }
  function ResponseCreated(a: AiResponse): int { a.createdAt }
  function InsightId(u: UserInsight): int { u.id }
  function InsightOwner(u: UserInsight): string { u.userId }
  function InsightCreated(u: UserInsight): int { u.createdAt }
  function AdviceId(a: AdviceRequest): int { a.id }
  function AdviceOwner(a: AdviceRequest): string { a.userId }
  function AdviceCreated(a: AdviceRequest): int { a.createdAt }

  // The rows an insert produces.
  function NewEntry(e: InsertJournalEntry, id: int, now: int): JournalEntry {
    JournalEntry(id, e.userId, e.title, e.content, e.mood, e.moodScore,
      if e.isPrivate.Some? then e.isPrivate.value else false, now, now)
  }

  function NewResponse(a: InsertAiResponse, id: int, now: int): AiResponse {
    AiResponse(id, a.entryId, a.response, a.followUpQuestions, a.insights, a.responseType, now)
  }

  function NewInsight(u: InsertUserInsight, id: int, now: int): UserInsight {
    UserInsight(id, u.userId, u.insightType, u.title, u.description, u.confidence, now)
  }

  /** The insert an insight row came from. */
  function InsightFields(u: UserInsight): (i: InsertUserInsight)
    ensures NewInsight(i, u.id, u.createdAt) == u
  {
    InsertUserInsight(u.userId, u.insightType, u.title, u.description, u.confidence)
  }

  function NewAdvice(a: InsertAdviceRequest, id: int, now: int): AdviceRequest {
    AdviceRequest(id, a.userId, a.topic, a.request, a.response, a.techniques, now)
  }

  /** `.set({ ...entry, updatedAt: new Date() })` applied to one row. */
  function ApplyEntryPatch(e: JournalEntry, p: EntryPatch, now: int): (r: JournalEntry)
    ensures r.id == e.id && r.createdAt == e.createdAt && r.updatedAt == now
    ensures r.content == Patched(p.content, e.content) && r.userId == Patched(p.userId, e.userId)
    ensures r.title == Patched(p.title, e.title) && r.mood == Patched(p.mood, e.mood)
    ensures r.moodScore == Patched(p.moodScore, e.moodScore) && r.isPrivate == Patched(p.isPrivate, e.isPrivate)
  {
    e.(userId := Patched(p.userId, e.userId), title := Patched(p.title, e.title),
       content := Patched(p.content, e.content), mood := Patched(p.mood, e.mood),
       moodScore := Patched(p.moodScore, e.moodScore), isPrivate := Patched(p.isPrivate, e.isPrivate),
       updatedAt := now)
  }

  /** `.set({ response, techniques })`: an undefined `techniques` is not written. */
  function ApplyAdviceAnswer(a: AdviceRequest, response: string, techniques: Option<seq<Normalise.Technique>>)
    : (r: AdviceRequest)
    ensures r.response == Some(response)
    ensures r.techniques == (if techniques.Some? then techniques else a.techniques)
    ensures r.(response := a.response, techniques := a.techniques) == a
  {
    a.(response := Some(response), techniques := if techniques.Some? then techniques else a.techniques)
  }

  /** The row an upsert leaves behind: a fresh row, or the existing one with the given fields overwritten. */
  function UpsertedRow(existing: Option<User>, data: UpsertUser, now: int): (u: User)
    ensures u.id == (if existing.Some? then existing.value.id else data.id) && u.updatedAt == now
    ensures existing.None? ==> u.createdAt == now && u.email == Patched(data.email, None)
    ensures existing.Some? ==> u.createdAt == existing.value.createdAt && u.email == Patched(data.email, existing.value.email)
    ensures existing.None? ==>
      && u.firstName == Patched(data.firstName, None) && u.lastName == Patched(data.lastName, None)
      && u.profileImageUrl == Patched(data.profileImageUrl, None)
    ensures existing.Some? ==>
      && u.firstName == Patched(data.firstName, existing.value.firstName)
      && u.lastName == Patched(data.lastName, existing.value.lastName)
      && u.profileImageUrl == Patched(data.profileImageUrl, existing.value.profileImageUrl)
  {
    match existing
    case None =>
      User(data.id, Patched(data.email, None), Patched(data.firstName, None),
           Patched(data.lastName, None), Patched(data.profileImageUrl, None), now, now)
    case Some(e) =>
      e.(email := Patched(data.email, e.email), firstName := Patched(data.firstName, e.firstName),
         lastName := Patched(data.lastName, e.lastName),
         profileImageUrl := Patched(data.profileImageUrl, e.profileImageUrl), updatedAt := now)
  }

  /** No user other than `id` holds the non-null `email` (NULLs never clash). */
  predicate EmailFree(users: seq<User>, email: Option<string>, id: string) {
    email.None? || forall u :: u in users && u.id != id ==> u.email != email
  }

  ghost predicate DistinctEmails(users: seq<User>) {
    forall i, j :: 0 <= i < j < |users| && users[i].email.Some? ==> users[i].email != users[j].email
  }

  /** The users table: one row per id, and no non-null email twice. */
  ghost predicate UsersValid(users: seq<User>) {
    DistinctKeys(users, UserKey) && DistinctEmails(users)
  }

  lemma UsersAppend(users: seq<User>, u: User)
    requires UsersValid(users) && EmailFree(users, u.email, u.id)
    requires forall x :: x in users ==> x.id != u.id
    ensures UsersValid(users + [u])
  {
    var users' := users + [u];
    forall i, j | 0 <= i < j < |users'| && users'[i].email.Some? ensures users'[i].email != users'[j].email {
      assert users'[i] == users[i] && users'[i] in users;
    }
    forall i, j | 0 <= i < j < |users'| ensures UserKey(users'[i]) != UserKey(users'[j]) {
      assert users'[i] == users[i] && users'[i] in users;
    }
  }

  lemma UsersReplace(users: seq<User>, k: nat, u: User)
    requires UsersValid(users) && k < |users| && users[k].id == u.id && EmailFree(users, u.email, u.id)
    ensures UsersValid(users[k := u])
  {
    var users' := users[k := u];
    forall i, j | 0 <= i < j < |users'| && users'[i].email.Some? ensures users'[i].email != users'[j].email {
      if i == k {
        assert users'[j] == users[j] && users[j] in users && users[j].id != u.id;
      } else if j == k {
        assert users'[i] == users[i] && users[i] in users && users[i].id != u.id;
      }
    }
  }

  // ---------------------------------------------------------------------
  // DatabaseStorage
  // ---------------------------------------------------------------------

  class DatabaseStorage {
    var users: seq<User>
    var journalEntries: seq<JournalEntry>
    var aiResponses: seq<AiResponse>
    var userInsights: seq<UserInsight>
    var adviceRequests: seq<AdviceRequest>
    var nextEntryId: int
    var nextResponseId: int
    var nextInsightId: int
    var nextAdviceId: int
    var clock: int

    ghost predicate Valid()
      reads this
    {
      && Serial(journalEntries, EntryId, nextEntryId) && Serial(journalEntries, EntryCreated, clock)
      && Serial(aiResponses, ResponseId, nextResponseId) && Serial(aiResponses, ResponseCreated, clock)
      && Serial(userInsights, InsightId, nextInsightId) && Serial(userInsights, InsightCreated, clock)
      && Serial(adviceRequests, AdviceId, nextAdviceId) && Serial(adviceRequests, AdviceCreated, clock)
      && UsersValid(users)
    }

    constructor ()
      ensures Valid()
      ensures users == [] && journalEntries == [] && aiResponses == [] && userInsights == [] && adviceRequests == []
      ensures nextEntryId == 1 && nextResponseId == 1 && nextInsightId == 1 && nextAdviceId == 1 && clock == 0
    {
      users, journalEntries, aiResponses, userInsights, adviceRequests := [], [], [], [], [];
      nextEntryId, nextResponseId, nextInsightId, nextAdviceId := 1, 1, 1, 1;
      clock := 0;
    }

    // --- users -----------------------------------------------------------

    function GetUser(id: string): (r: Option<User>)
      reads this
      requires Valid()
      ensures r.Some? ==> r.value in users && r.value.id == id
      ensures r.None? <==> forall u :: u in users ==> u.id != id
      ensures r.Some? ==> forall u :: u in users && u.id == id ==> u == r.value
    {
      FindByKey(users, UserKey, id)
    }

    /**
     * INSERT ... ON CONFLICT (id) DO UPDATE: a new id inserts a row, a known
     * id overwrites the given fields and refreshes `updatedAt`. Either way a
     * non-null email held by another user is a unique violation and nothing
     * is written.
     */
    method UpsertUser(data: UpsertUser) returns (r: Result<User>)
      requires Valid()
      modifies this
      ensures Valid()
      ensures r.Failure? <==> !EmailFree(old(users), UpsertedRow(old(GetUser(data.id)), data, old(clock)).email, data.id)
      ensures r.Failure? ==> r.error == UniqueViolation && users == old(users) && clock == old(clock)
      ensures r.Success? ==> r.value == UpsertedRow(old(GetUser(data.id)), data, old(clock)) && clock == old(clock) + 1
      ensures r.Success? ==> GetUser(data.id) == Some(r.value)
      ensures r.Success? && old(GetUser(data.id)).None? ==> users == old(users) + [r.value]
      ensures r.Success? && old(GetUser(data.id)).Some? ==>
        && |users| == |old(users)|
        && forall i :: 0 <= i < |users| ==> users[i] == if old(users)[i].id == data.id then r.value else old(users)[i]
      ensures journalEntries == old(journalEntries) && aiResponses == old(aiResponses)
      ensures userInsights == old(userInsights) && adviceRequests == old(adviceRequests)
      ensures nextEntryId == old(nextEntryId) && nextResponseId == old(nextResponseId)
      ensures nextInsightId == old(nextInsightId) && nextAdviceId == old(nextAdviceId)
    {
      var idx := IndexOfKey(users, UserKey, data.id);
      var u := UpsertedRow(if idx.Some? then Some(users[idx.value]) else None, data, clock);
      if !EmailFree(users, u.email, data.id) {
        return Failure(UniqueViolation);
      }
      match idx {
        case None =>
          UsersAppend(users, u);
          users := users + [u];
          assert users[|users| - 1] == u;
        case Some(i) =>
          UsersReplace(users, i, u);
          users := users[i := u];
          assert users[i] == u && u.id == data.id;
      }
      clock := clock + 1;
      r := Success(u);
    }

    // --- journal entries ---------------------------------------------------

    method CreateJournalEntry(entry: InsertJournalEntry) returns (row: JournalEntry)
      requires Valid()
      modifies this
      ensures Valid()
      ensures row == NewEntry(entry, old(nextEntryId), old(clock))
      ensures journalEntries == old(journalEntries) + [row]
      ensures nextEntryId == old(nextEntryId) + 1 && clock == old(clock) + 1
      ensures users == old(users) && aiResponses == old(aiResponses)
      ensures userInsights == old(userInsights) && adviceRequests == old(adviceRequests)
      ensures nextResponseId == old(nextResponseId) && nextInsightId == old(nextInsightId) && nextAdviceId == old(nextAdviceId)
    {
      row := NewEntry(entry, nextEntryId, clock);
      SerialAppend(journalEntries, EntryId, nextEntryId, row, nextEntryId + 1);
      SerialAppend(journalEntries, EntryCreated, clock, row, clock + 1);
      journalEntries := journalEntries + [row];
      nextEntryId := nextEntryId + 1;
      clock := clock + 1;
    }

    /** The user's entries, each exactly once, newest first. */
    function GetUserJournalEntries(userId: string): (r: seq<JournalEntry>)
      reads this
      requires Valid()
      ensures forall e :: e in r <==> e in journalEntries && e.userId == userId
      ensures Descending(r, EntryCreated)
    {
      SelectNewestFirstDescending(journalEntries, EntryOwner, userId, EntryCreated);
      SelectNewestFirst(journalEntries, EntryOwner, userId)
    }

    function GetJournalEntry(id: int): (r: Option<JournalEntry>)
      reads this
      requires Valid()
      ensures r.Some? ==> r.value in journalEntries && r.value.id == id
      ensures r.None? <==> forall e :: e in journalEntries ==> e.id != id
    {
      FindByKey(journalEntries, EntryId, id)
    }

    /**
     * UPDATE ... WHERE id: only the row with that id changes, only in the
     * supplied fields and `updatedAt`; no such row leaves the table as it was.
     */
    method UpdateJournalEntry(id: int, patch: EntryPatch) returns (r: Option<JournalEntry>)
      requires Valid()
      modifies this
      ensures Valid()
      ensures r.None? <==> old(GetJournalEntry(id)).None?
      ensures r.None? ==> journalEntries == old(journalEntries) && clock == old(clock)
      ensures r.Some? ==> r.value == ApplyEntryPatch(old(GetJournalEntry(id)).value, patch, old(clock)) && clock == old(clock) + 1
      ensures |journalEntries| == |old(journalEntries)|
      ensures forall i :: 0 <= i < |journalEntries| ==>
        journalEntries[i] == if old(journalEntries)[i].id == id then r.value else old(journalEntries)[i]
      ensures users == old(users) && aiResponses == old(aiResponses)
      ensures userInsights == old(userInsights) && adviceRequests == old(adviceRequests)
      ensures nextEntryId == old(nextEntryId) && nextResponseId == old(nextResponseId)
      ensures nextInsightId == old(nextInsightId) && nextAdviceId == old(nextAdviceId)
    {
      var idx := IndexOfKey(journalEntries, EntryId, id);
      SerialDistinct(journalEntries, EntryId, nextEntryId);
      match idx {
        case None =>
          r := None;
        case Some(i) =>
          var updated := ApplyEntryPatch(journalEntries[i], patch, clock);
          SerialReplace(journalEntries, EntryId, nextEntryId, i, updated, nextEntryId);
          SerialReplace(journalEntries, EntryCreated, clock, i, updated, clock + 1);
          journalEntries := journalEntries[i := updated];
          clock := clock + 1;
          r := Some(updated);
      }
    }

    // --- AI responses ------------------------------------------------------

    method CreateAiResponse(response: InsertAiResponse) returns (row: AiResponse)
      requires Valid()
      modifies this
      ensures Valid()
      ensures row == NewResponse(response, old(nextResponseId), old(clock))
      ensures aiResponses == old(aiResponses) + [row]
      ensures nextResponseId == old(nextResponseId) + 1 && clock == old(clock) + 1
      ensures users == old(users) && journalEntries == old(journalEntries)
      ensures userInsights == old(userInsights) && adviceRequests == old(adviceRequests)
      ensures nextEntryId == old(nextEntryId) && nextInsightId == old(nextInsightId) && nextAdviceId == old(nextAdviceId)
    {
      row := NewResponse(response, nextResponseId, clock);
      SerialAppend(aiResponses, ResponseId, nextResponseId, row, nextResponseId + 1);
      SerialAppend(aiResponses, ResponseCreated, clock, row, clock + 1);
      aiResponses := aiResponses + [row];
      nextResponseId := nextResponseId + 1;
      clock := clock + 1;
    }

    /** The replies to one entry, each exactly once, newest first. */
    function GetAiResponsesForEntry(entryId: int): (r: seq<AiResponse>)
      reads this
      requires Valid()
      ensures forall a :: a in r <==> a in aiResponses && a.entryId == entryId
      ensures Descending(r, ResponseCreated)
    {
      SelectNewestFirstDescending(aiResponses, ResponseEntry, entryId, ResponseCreated);
      SelectNewestFirst(aiResponses, ResponseEntry, entryId)
    }

    // --- user insights -----------------------------------------------------

    method CreateUserInsight(insight: InsertUserInsight) returns (row: UserInsight)
      requires Valid()
      modifies this
      ensures Valid()
      ensures row == NewInsight(insight, old(nextInsightId), old(clock))
      ensures userInsights == old(userInsights) + [row]
      ensures nextInsightId == old(nextInsightId) + 1 && clock == old(clock) + 1
      ensures users == old(users) && journalEntries == old(journalEntries)
      ensures aiResponses == old(aiResponses) && adviceRequests == old(adviceRequests)
      ensures nextEntryId == old(nextEntryId) && nextResponseId == old(nextResponseId) && nextAdviceId == old(nextAdviceId)
    {
      row := NewInsight(insight, nextInsightId, clock);
      SerialAppend(userInsights, InsightId, nextInsightId, row, nextInsightId + 1);
      SerialAppend(userInsights, InsightCreated, clock, row, clock + 1);
      userInsights := userInsights + [row];
      nextInsightId := nextInsightId + 1;
      clock := clock + 1;
    }

    function GetUserInsights(userId: string): (r: seq<UserInsight>)
      reads this
      requires Valid()
      ensures forall u :: u in r <==> u in userInsights && u.userId == userId
      ensures Descending(r, InsightCreated)
    {
      SelectNewestFirstDescending(userInsights, InsightOwner, userId, InsightCreated);
      SelectNewestFirst(userInsights, InsightOwner, userId)
    }

    // --- advice requests ---------------------------------------------------

    method CreateAdviceRequest(request: InsertAdviceRequest) returns (row: AdviceRequest)
      requires Valid()
      modifies this
      ensures Valid()
      ensures row == NewAdvice(request, old(nextAdviceId), old(clock))
      ensures adviceRequests == old(adviceRequests) + [row]
      ensures nextAdviceId == old(nextAdviceId) + 1 && clock == old(clock) + 1
      ensures users == old(users) && journalEntries == old(journalEntries)
      ensures aiResponses == old(aiResponses) && userInsights == old(userInsights)
      ensures nextEntryId == old(nextEntryId) && nextResponseId == old(nextResponseId) && nextInsightId == old(nextInsightId)
    {
      row := NewAdvice(request, nextAdviceId, clock);
      SerialAppend(adviceRequests, AdviceId, nextAdviceId, row, nextAdviceId + 1);
      SerialAppend(adviceRequests, AdviceCreated, clock, row, clock + 1);
      adviceRequests := adviceRequests + [row];
      nextAdviceId := nextAdviceId + 1;
      clock := clock + 1;
    }

    function GetUserAdviceRequests(userId: string): (r: seq<AdviceRequest>)
      reads this
      requires Valid()
      ensures forall a :: a in r <==> a in adviceRequests && a.userId == userId
      ensures Descending(r, AdviceCreated)
    {
      SelectNewestFirstDescending(adviceRequests, AdviceOwner, userId, AdviceCreated);
      SelectNewestFirst(adviceRequests, AdviceOwner, userId)
    }

    /**
     * Writes the answer into one advice request: `response` always, and
     * `techniques` only when given. No clock tick: the table has no
     * `updatedAt` column.
     */
    method UpdateAdviceRequest(id: int, response: string, techniques: Option<seq<Normalise.Technique>>)
      returns (r: Option<AdviceRequest>)
      requires Valid()
      modifies this
      ensures Valid()
      ensures r.None? <==> forall a :: a in old(adviceRequests) ==> a.id != id
      ensures |adviceRequests| == |old(adviceRequests)|
      ensures forall i :: 0 <= i < |adviceRequests| ==>
        adviceRequests[i] == if old(adviceRequests)[i].id == id
                             then ApplyAdviceAnswer(old(adviceRequests)[i], response, techniques)
                             else old(adviceRequests)[i]
      ensures r.Some? ==> r.value.id == id && r.value in adviceRequests
      ensures users == old(users) && journalEntries == old(journalEntries)
      ensures aiResponses == old(aiResponses) && userInsights == old(userInsights)
      ensures nextEntryId == old(nextEntryId) && nextResponseId == old(nextResponseId)
      ensures nextInsightId == old(nextInsightId) && nextAdviceId == old(nextAdviceId) && clock == old(clock)
    {
      var idx := IndexOfKey(adviceRequests, AdviceId, id);
      SerialDistinct(adviceRequests, AdviceId, nextAdviceId);
      match idx {
        case None =>
          r := None;
        case Some(i) =>
          var updated := ApplyAdviceAnswer(adviceRequests[i], response, techniques);
          SerialReplace(adviceRequests, AdviceId, nextAdviceId, i, updated, nextAdviceId);
          SerialReplace(adviceRequests, AdviceCreated, clock, i, updated, clock);
          adviceRequests := adviceRequests[i := updated];
          r := Some(updated);
      }
    }
  }
}
