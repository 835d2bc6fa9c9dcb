# Careerflow mock backend: tables, handlers and request context in Dafny

This project models the core of the tRPC backend of a job-search and
interview-preparation application. The modelled code has two parts.

- **The application router** (`server/routers.ts`). Its handlers work on
  process-wide in-memory tables seeded from mock data:
  - bookmarked questions;
  - preferences;
  - job recommendations;
  - interview history;
  - mock interview sessions, with their messages and assessment reports;
  - knowledge bases;
  - tracked job applications.

  Each table that a handler changes is a class with a `rows: seq<..>` field (a
  single object `prefs` for preferences), and each changing handler is a method
  on it. A new record gets id `length + 1`. A delete is a `findIndex` followed by
  a `splice`. An update mutates the first record found with `find`, in place.
  The read-only handlers (`getById`, `isBookmarked`, `listByCategory`,
  `categories`, `messages.list`, `assessmentReport.get`, `linkedin.scrapeJobs`)
  are functions of the table contents; `skillAnalysis.analyze` reads no table
  and is a function of its input. The `list`
  handlers of the bookmark, interview, session, assessment-report,
  knowledge-base and job-tracker tables and
  `preferences.get` return the table object itself; in the model that is the
  store's `rows` (or `prefs`) field, read as it is. The job table is never
  changed, so it has no store class: `jobs.list` is that table itself, and it
  is a parameter of `Jobs.GetById` and `Jobs.ScrapeJobs`. `resume.list` builds
  a fresh literal and reads no table.
- **The context factory** (`server/_core/context.ts`). It is a total function
  of the environment, the request and response handles, the outcome of the
  session resolver and the current time. In mock mode the caller is a fixed
  placeholder. Otherwise a resolved user becomes the caller, and a resolver
  failure becomes a `null` caller; it is never raised.

The module `Tables` states the JavaScript array operations the handlers are
built from, once: `find`, `findIndex`, `some`, `filter`, `splice` of the first
match, an in-place update of the first match, `[...new Set(..)]` and
`slice(0, n)`. Each store method's `ensures` gives the new table as a function of
the old one: an append is `old(rows) + [record]`; a delete or an update is one
of these functions (`preferences.save` is `Merge` of the old record). The lemmas then state what the handlers promise.

- A `remove`/`delete` deletes at most one record: the first one with that id.
- `practice` adds exactly one to the table's total practice count when a
  record has that id, and nothing otherwise.
- `categories` lists each category once, in order of first appearance.
- Updates are merges: saving the same input twice is saving it once, apart from
  the `updatedAt` timestamp.
- `getOrCreate` is idempotent on the table.

The module `Procedures` records, for every procedure of the router, its path,
whether it is a query or a mutation, and whether it is public or protected.

Ids are not unique. Because a new id is `length + 1`, an `add` that follows a
`remove` can reuse an id that an older record still holds. Until the older
record is deleted, every lookup, update and delete by that id reaches it, not
the new one (`Bookmarks.AddAfterRemoveReusesId` states the lookup). Nothing in the model assumes unique
ids. The lemmas that need them (`RemoveUndoesAdd`, `DeleteUndoesCreate`,
`CreateThenGetById`) say so in their `requires` or in an if-and-only-if.

Three details of the code are easy to misread; the model follows the code:

- Mock mode is `MOCK_MODE === 'true' || !DATABASE_URL`. An empty
  `DATABASE_URL` is falsy, so it also turns mock mode on.
- The owner of a new record is `ctx.user?.id || 1`. A caller whose id is 0 gets
  owner 1 too.
- `linkedin.scrapeJobs` answers `slice(0, rows || 10)`. A count of 0 means 10. A
  negative count drops that many jobs from the end, as `slice` does. It is not
  clamped to an empty answer.

## Model

| member | source | states |
|---|---|---|
| `Tables.FindIndex` | server/routers.ts:56 | the answer is the first index whose element matches, and it is absent exactly when no element matches |
| `Tables.Find` | server/routers.ts:66 | the answer is the element at the first matching index, and it is absent exactly when nothing matches |
| `Tables.Any` | server/routers.ts:80-82 | true exactly when some element matches |
| `Tables.Filter` | server/routers.ts:117 | every element kept matches and comes from the input; every matching element is kept |
| `Tables.RemoveFirst` | server/routers.ts:56-59 | with no match the sequence is unchanged; otherwise exactly the first match is cut out |
| `Tables.UpdateFirst` | server/routers.ts:66-70 | with no match nothing changes; otherwise only the first match is replaced by its updated value, and the length is kept |
| `Tables.UpdateFound` | server/routers.ts:66-71 | `find`, mutate in place, return: the new table is `UpdateFirst`; the answer is the updated first match, and absent exactly when nothing matches |
| `Tables.Distinct` | server/routers.ts:121 | `[...new Set(..)]` lists no more values than its input, all taken from it; the three `Distinct*` lemmas state the rest |
| `Tables.SliceTo` | server/routers.ts:533 | `slice(0, end)` answers a prefix whose length is `end` clamped to the length, or the length plus a negative `end`, floored at 0 |
| `Tables.FilterAppend` | server/routers.ts:117 | filtering distributes over concatenation, so the kept elements stay in their original order |
| `Tables.FilterCount` | server/routers.ts:117 | each matching element is kept as many times as it occurs, and no other element is kept |
| `Tables.RemoveFirstMultiset` | server/routers.ts:56-59 | a splice of the first match removes exactly one occurrence of that element and shortens the table by one |
| `Tables.RemoveFirstAfterAppend` | server/routers.ts:58 | appending the only matching element and then splicing the first match gives back the original table |
| `Tables.UpdateFirstTwice` | server/routers.ts:258-261 | two in-place updates of the first match are one update by their composition, when the first update keeps the record matching |
| `Tables.DistinctSameElements` | server/routers.ts:121 | the de-duplicated list holds exactly the values of the input |
| `Tables.DistinctNoDuplicates` | server/routers.ts:121 | the de-duplicated list holds each value once |
| `Tables.DistinctFirstAppearanceOrder` | server/routers.ts:121 | the de-duplicated list is ordered by each value's first appearance in the input |
| `Context.CreateContext` | server/_core/context.ts:11-46 | carries the given req and res; in mock mode the user is the placeholder; outside it, a resolved user is the user and a rejected resolution gives `null` |
| `Context.IsMockMode` | server/_core/context.ts:17 | `MOCK_MODE === 'true' \|\| !DATABASE_URL`: "true" or an unset or empty `DATABASE_URL` gives mock mode; a non-empty URL with any other `MOCK_MODE` does not |
| `Context.PlaceholderUser` | server/_core/context.ts:21-31 | the placeholder has id 1, open id "mock-user-001", name "Mock User", email "mock@example.com", login method "mock", role user, and all three timestamps at the moment given |
| `Context.MockModeDecision` | server/_core/context.ts:17 | `MOCK_MODE` equal to "true" or an unset `DATABASE_URL` forces mock mode; a non-empty `DATABASE_URL` with any other `MOCK_MODE` turns it off |
| `Context.MockModeUsesPlaceholder` | server/_core/context.ts:19-31 | in mock mode the context user is present, with id 1, open id "mock-user-001" and role user |
| `Context.MockModeIgnoresResolver` | server/_core/context.ts:19-34 | in mock mode any two resolvers give the same context, so the resolver is never consulted |
| `Context.NoUserOnlyOnResolverFailure` | server/_core/context.ts:33-38 | the user is `null` exactly when mock mode is off and the resolver failed; the failure never escapes |
| `Context.ResolverOutcomeDecides` | server/_core/context.ts:33-34 | two resolvers that agree on this request give the same context |
| `Context.OwnerId` | server/routers.ts:40 | the owner id is never 0; it is the caller's id when that is non-zero, and 1 when there is no caller or the caller's id is 0 (falsy) |
| `Context.MockModeOwnerIsOne` | server/routers.ts:40 | in mock mode every record a handler creates is owned by user 1 |
| `Context.Me` | server/routers.ts:127 | `auth.me` answers the context user when present and the fallback user otherwise |
| `Context.MeInMockMode` | server/routers.ts:127 | in mock mode `auth.me` answers the placeholder user |
| `Procedures.AppProceduresCount` | server/routers.ts:20-671 | the transcribed declaration table `AppProcedures` (per-namespace constants `BookmarksRouter`, `AuthRouter`, `LaterRouters`) holds all 55 procedures: 9 under `bookmarks`, 2 under `auth`, 44 after them |
| `Procedures.Lookup` | server/routers.ts:20-671 | a found declaration is registered under the path asked for; an absent answer means no procedure has that path |
| `Procedures.OnlyAuthIsPublic` | server/routers.ts:20-671 | every public procedure is `auth.me` or `auth.logout`; every other procedure is protected |
| `Procedures.AuthProceduresArePublic` | server/routers.ts:126-133 | `auth.me` is a public query and `auth.logout` a public mutation |
| `Procedures.BookmarksAddDeclaration` | server/routers.ts:29-37 | `bookmarks.add` is declared as a protected mutation |
| `Bookmarks.NewBookmark` | server/routers.ts:38-48 | the new bookmark has id length + 1, the caller's owner id and the input's fields; difficulty defaults to medium; category "General", practice count 0, never practised |
| `Bookmarks.BookmarkStore.Add` | server/routers.ts:37-51 | appends exactly that new bookmark at the end, returns it, and leaves earlier records untouched |
| `Bookmarks.BookmarkStore.Remove` | server/routers.ts:53-61 | deletes the first bookmark with the id, if any, and always answers success |
| `Bookmarks.Practiced` | server/routers.ts:68-69 | the practice count rises by one and the last-practised time is set; every other field is kept |
| `Bookmarks.WithNotes` | server/routers.ts:94-95 | the notes and `updatedAt` are overwritten; every other field is kept |
| `Bookmarks.WithCategory` | server/routers.ts:108-109 | the category and `updatedAt` are overwritten; every other field is kept |
| `Bookmarks.BookmarkStore.Practice` | server/routers.ts:63-72 | updates only the first bookmark with the id and returns it updated; with no match it returns nothing and changes nothing |
| `Bookmarks.BookmarkStore.UpdateNotes` | server/routers.ts:86-98 | overwrites the notes of the first bookmark with the id and returns it; with no match it changes nothing |
| `Bookmarks.BookmarkStore.UpdateCategory` | server/routers.ts:100-112 | overwrites the category of the first bookmark with the id and returns it; with no match it changes nothing |
| `Bookmarks.IsBookmarked` | server/routers.ts:74-84 | true exactly when some bookmark has both the topic and the question |
| `Bookmarks.ListByCategory` | server/routers.ts:114-118 | answers bookmarks of that category only, and every bookmark of that category |
| `Bookmarks.CategoryColumn` | server/routers.ts:121 | `map(b => b.category)`: one entry per bookmark, in table order, each its category |
| `Bookmarks.Categories` | server/routers.ts:120-123 | lists exactly the categories in use, each once, ordered by first appearance in the table |
| `Bookmarks.AddThenIsBookmarked` | server/routers.ts:49 | a question just added is reported as bookmarked |
| `Bookmarks.RemoveUndoesAdd` | server/routers.ts:39 | while the new id is unused, removing it right after `add` restores the table |
| `Bookmarks.AddAfterRemoveReusesId` | server/routers.ts:39 | after a remove, the next add can repeat an id still held by an older record, and lookups by that id then reach the older record |
| `Bookmarks.PracticeAddsOne` | server/routers.ts:66-70 | `practice` raises the table's total practice count by one when the id is present, by zero otherwise |
| `Bookmarks.PracticeOnlyTouchesFirstMatch` | server/routers.ts:66-70 | only the first match changes: its practice count goes up by exactly 1 and its last-practised time is set; every other field and record stays |
| `Bookmarks.ListByCategoryAppend` | server/routers.ts:117 | a bookmark added later is listed after the earlier bookmarks of its category |
| `Bookmarks.ListByCategoryCount` | server/routers.ts:117 | each bookmark of the category is listed as often as it is stored, and no other bookmark is listed |
| `Bookmarks.AddListsGeneral` | server/routers.ts:43 | after an add, "General" is among the categories |
| `Preferences.Merge` | server/routers.ts:148 | supplied fields overwrite, omitted fields keep their value, and `updatedAt` is stamped |
| `Preferences.PreferenceStore.Save` | server/routers.ts:141-150 | the stored preferences become the merge of the old ones with the input, and are returned |
| `Preferences.SaveTwiceSameRecord` | server/routers.ts:148 | saving the same input twice gives the same record as saving it once, apart from `updatedAt` |
| `Preferences.SavesAccumulate` | server/routers.ts:148 | two saves in a row equal one save of the combined input, so no earlier field is lost |
| `Preferences.EmptySaveOnlyStamps` | server/routers.ts:148 | an empty input changes only `updatedAt` |
| `Jobs.GetById` | server/routers.ts:167-171 | answers the first job with the id, or `null` exactly when no job has it |
| `Jobs.RowLimit` | server/routers.ts:533 | `rows \|\| 10`: an omitted count and a count of 0 mean 10, a non-zero count is used as given, and the limit is never 0 |
| `Jobs.ScrapeJobs` | server/routers.ts:524-535 | answers success and a prefix of the job table |
| `Jobs.ScrapeJobsPositive` | server/routers.ts:533 | a positive or omitted count answers the first `min(count, length)` jobs |
| `Jobs.ScrapeJobsZeroIsDefault` | server/routers.ts:533 | a count of 0 behaves exactly like an omitted count: at most 10 jobs |
| `Jobs.ScrapeJobsNegative` | server/routers.ts:533 | a negative count drops that many jobs from the end |
| `Jobs.ScrapeJobsIgnoresQuery` | server/routers.ts:524-535 | the answer does not depend on the search title or location |
| `SkillAnalysis.Analyze` | server/routers.ts:643-655 | the matched skills are the first three (or fewer) input skills; score, missing skills and recommendations are the fixed values |
| `SkillAnalysis.AnalyzeSeesOnlyFirstThree` | server/routers.ts:651 | the analysis ignores the target role and every skill after the third |
| `Interviews.NewInterview` | server/routers.ts:189-195 | the new interview has id length + 1, the caller's owner id and the input's fields |
| `Interviews.GetById` | server/routers.ts:200-204 | answers the first interview with the id, or `null` exactly when none has it |
| `Interviews.InterviewStore.Create` | server/routers.ts:180-198 | appends exactly the new interview and returns it |
| `Interviews.InterviewStore.Delete` | server/routers.ts:206-214 | deletes the first interview with the id, if any, and always answers success |
| `Interviews.CreateThenGetById` | server/routers.ts:190 | a lookup by the id just assigned reaches the new interview exactly when no older record holds that id |
| `Interviews.DeleteMissingIsNoop` | server/routers.ts:209-212 | deleting an id that is not present leaves the table unchanged |
| `Interviews.DeleteUndoesCreate` | server/routers.ts:190 | while the new id is unused, deleting it right after `create` restores the table |
| `MockInterview.NewSession` | server/routers.ts:230-239 | the new session has id length + 1, the input's fields, status "in_progress", and no score or feedback |
| `MockInterview.MergeSession` | server/routers.ts:260 | supplied status, score and feedback overwrite; omitted ones and all other fields stay; `updatedAt` is stamped |
| `MockInterview.GetSession` | server/routers.ts:244-248 | answers the first session with the id, or `null` exactly when none has it |
| `MockInterview.SessionStore.Create` | server/routers.ts:223-242 | appends exactly the new session and returns it |
| `MockInterview.SessionStore.Update` | server/routers.ts:250-263 | merges the patch into the first session with the id and returns it; with no match it returns nothing and changes nothing |
| `MockInterview.NewMessage` | server/routers.ts:279-283 | the new message has id length + 1 and the input's session, role and content |
| `MockInterview.ListMessages` | server/routers.ts:266-270 | answers the messages of that session only, and all of them |
| `MockInterview.MessageStore.Create` | server/routers.ts:272-286 | appends exactly the new message and returns it |
| `MockInterview.NewReport` | server/routers.ts:312-317 | the new report has id length + 1, the caller's owner id and every score and list of the input |
| `MockInterview.GetReport` | server/routers.ts:290-294 | answers the first report of the session, or `null` exactly when the session has none |
| `MockInterview.ReportStore.Create` | server/routers.ts:300-320 | appends exactly the new report and returns it |
| `MockInterview.UpdateTwiceIsUpdateOnce` | server/routers.ts:258-261 | the same update sent twice leaves the table as one update at the later time |
| `MockInterview.EmptyPatchOnlyStamps` | server/routers.ts:260 | an update with no fields supplied changes only `updatedAt` |
| `MockInterview.CreateMessageThenList` | server/routers.ts:269 | a new message is listed last for its own session and not listed for any other session |
| `MockInterview.CreateReportThenGet` | server/routers.ts:293 | `get` answers a new report exactly when its session had none before; otherwise the older report keeps answering |
| `KnowledgeBase.NewKnowledgeBase` | server/routers.ts:373-381 | the new knowledge base has id length + 1 and the given name; the description defaults to "" and the content is "" |
| `KnowledgeBase.GetOrCreateIn` | server/routers.ts:365-385 | with the name present, the table is unchanged and the first record of that name is returned; otherwise exactly one new record is appended and returned |
| `KnowledgeBase.GetById` | server/routers.ts:359-363 | answers the first knowledge base with the id, or `null` exactly when none has it |
| `KnowledgeBase.KnowledgeBaseStore.GetOrCreate` | server/routers.ts:365-385 | the table and the answer are those of `GetOrCreateIn` on the old table |
| `KnowledgeBase.GetOrCreateExisting` | server/routers.ts:371 | for a name already present, the answer is its first record and the table is unchanged |
| `KnowledgeBase.GetOrCreateIdempotent` | server/routers.ts:370-384 | a second call with the same name changes nothing and returns what the first call returned |
| `KnowledgeBase.GetOrCreateGrowth` | server/routers.ts:372-383 | the table grows by one exactly when the name was new, and otherwise not at all |
| `JobTracker.NewTrackedJob` | server/routers.ts:486-492 | the new item has id length + 1, the caller's owner id and the input's fields |
| `JobTracker.MergeTrackedJob` | server/routers.ts:506 | supplied status and notes overwrite; omitted ones and all other fields stay; `updatedAt` is stamped |
| `JobTracker.JobTrackerStore.Create` | server/routers.ts:477-495 | appends exactly the new item and returns it |
| `JobTracker.JobTrackerStore.Update` | server/routers.ts:497-509 | merges the patch into the first item with the id and returns it; with no match it returns nothing and changes nothing |
| `JobTracker.JobTrackerStore.Delete` | server/routers.ts:511-519 | deletes the first item with the id, if any, and always answers success |
| `JobTracker.UpdateTwiceIsUpdateOnce` | server/routers.ts:506 | the same update sent twice leaves the table as one update at the later time |
| `JobTracker.DeleteShrinksByOne` | server/routers.ts:514-517 | a delete shortens the table by one when the id is present, and by zero otherwise |

## Left out

- The tRPC machinery in `server/_core/trpc` is not part of this model. That covers `router`, `publicProcedure` and `protectedProcedure`, and the middleware that refuses a protected call without a user. Only each procedure's declared kind and access level are modelled (`Procedures`).
- The zod input schemas belong to a library. Handler inputs are already-validated datatypes, and an optional key is an `Option` field.
- The `system` sub-router (`server/_core/systemRouter`) is not part of this model.
- `sdk.authenticateRequest` is a foreign asynchronous call. It is a function parameter from the request to a `Resolution` (a user, or a rejection).
- `auth.logout`: clearing the session cookie is a call on the Express response, and its answer is a constant.
- Timestamps (`new Date()`) are a `now` parameter. The three `new Date()` calls in the placeholder user share one `now`, and the two `new Date()` calls of a new record (`createdAt` and `updatedAt` in `NewBookmark`, `NewInterview`, `NewSession`, `NewKnowledgeBase`, `NewTrackedJob`) share one `now` too, so the model has them equal where the source only makes them close.
- The mock data module (`./mockData`) is not part of this model. Each store's constructor takes the initial table as a parameter. The `auth.me` fallback user is a parameter too.
- Fields of the mock preferences and mock jobs that no handler touches are not represented. `Object.assign` leaves such fields as they were.
- Handlers return references to the stored objects, so a caller holding a returned record would see later in-place changes. The model returns values and does not capture this aliasing.
- JavaScript numbers (ids, scores, `rows`) are modelled as integers. Fractional and NaN values, and `slice`'s truncation of a fractional end, are not modelled.
- Handlers that change no table and build their answer from constants, the caller's id, the clock or the job table's length are not modelled. These are `onboarding.parseResume`, `resume.*`, `topicPractice.submitAnswer`, `aiToolbox.*`, `knowledgeBase.search`, `jobhProfile.get` and `jobhProfile.stats`, `linkedin.scrapeCompany` and `linkedin.getAccountInfo`, and `jobs.generateRecommendations` and `jobs.generateMock`.
- Handlers that echo their validated input beside constants (`onboarding.saveProfile`, `jobhProfile.update`, `skillAnalysis.getMarketTrends`, `topicPractice.generateQuestion`) have no state and no logic, and are not modelled.
- `Bookmarks.IsBookmarked`: answers a bare boolean; the source wraps it as a `{bookmarked}` object, and that wrapping is not modelled.
- `Bookmarks.Categories`: answers the category strings; the source wraps each one as a `{category}` object, and that wrapping is not modelled.
- Express wiring, body-size limits and the other HTTP routers (`api/index.ts`) are plumbing and are not modelled. So are the ORM table declarations (`drizzle/schema_postgres.ts`).
- Concurrency: the tables are shared process-wide without synchronisation. The model is sequential.
