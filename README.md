# ClawdBot task dashboard — a Dafny model

This project models the logic of the ClawdBot task dashboard: a small task
tracker whose tasks have a title, description, category, status
(`todo`, `in-progress`, `done`), creation and completion times and an agent
(`bot` or `manual`). It covers the following parts.

- **The file-backed API function** (`netlify/functions/tasks.js`, module
  `NetlifyTasks`). Routing on the HTTP method and the last path segment, the
  bearer-token check, POST validation and normalisation, the PATCH rules and
  DELETE. The data record is the class `FileStore`, whose handler changes
  the task list in place.
- **The serverless storage module** (`api/_db.js`, module `Db`). Its
  lower-case-only bearer check, the `toApi`/`toDb` row mapping, and the
  in-memory fallback store. The store is the class `MemoryStore`: the lazily
  seeded `_mem` list, prepended by create, merged by update and spliced by
  delete.
- **The collection endpoint** (`api/tasks/index.js`, module `TasksIndex`).
  Its dispatch is a function, `Decide`. `Serve` runs that decision against
  the in-memory store.
- **The dashboard client** (`public/script.js`).
  - `DashboardViews`: the stat counters, the kanban columns, the drop rule,
    the weekly history and the activity feed.
  - `IsoWeek`: `getISOWeek` over integer day numbers, proved to give the ISO
    8601 week date (section 4.1.4 of ISO 8601:2004).
  - `DashboardSession`: the session. Its pure transition functions are
    over a `Session` value. The class `Dashboard` holds the script's
    module-level state, and its handlers are proved to perform those
    transitions.
- **The caption transcript script**
  (`skills/youtube-full/scripts/transcript.mjs`, module `Transcript`).
  - Argument lookup, language normalisation and the track-selection chain.
  - Entity unescaping and tag stripping.
  - A hand-written scanner for the `<text …>…</text>` segments, proved
    to find the leftmost match the way `re.exec` does.
  - The extraction loop, proved against a specification function.
  - The script's exit codes and output.

Shared pieces:

- `Tasks`: the task entity and the creation rules both backends apply.
- `Bearer`: the token check both backends share.
- `JsStrings`: the string built-ins the sources use.
- `Seqs`: `find`, `filter`, a stable key sort and `slice`.

Nothing here performs I/O. These are parameters:

- the clock (`now`);
- the freshly generated ids;
- the secret from the environment;
- the HTTP replies the client receives;
- the two downloads of the transcript script.

Each request is one atomic step.

## Model

| member | source | states |
|---|---|---|
| Bearer.Token | netlify/functions/tasks.js:130 | a header starting with "Bearer " is that prefix followed by the token; any other header is its own token |
| Bearer.TokenMatches | netlify/functions/tasks.js:130-131 | the token equals the secret exactly when the header is "Bearer " + secret, or is the bare secret and the secret does not itself start with the prefix |
| Bearer.Authorised | netlify/functions/tasks.js:125-132 | with no secret, or an empty one, every request passes; otherwise a request passes exactly when its header carries the secret as above |
| NetlifyTasks.SeedTasksWellFormed | netlify/functions/tasks.js:41-92 | the seed list has five tasks with distinct ids, each with completedAt set exactly when it is done |
| NetlifyTasks.AuthorizationHeader | netlify/functions/tasks.js:129 | the lower-case header is used when it is non-empty, and otherwise the capitalised one (or '') |
| NetlifyTasks.CheckAuthCasings | netlify/functions/tasks.js:125-132 | the secret sent as a bearer token under either header casing passes, and a request without the header is refused |
| NetlifyTasks.StripTrailingSlash | netlify/functions/tasks.js:145 | exactly one trailing slash, if present, is removed |
| NetlifyTasks.AfterLastSlash | netlify/functions/tasks.js:145-146 | the last segment is a suffix with no '/', preceded by '/' or the start of the path |
| NetlifyTasks.TrailingSlashIgnored | netlify/functions/tasks.js:145-147 | adding one trailing slash does not change the route segment |
| NetlifyTasks.RouteOfCases | netlify/functions/tasks.js:136-217 | OPTIONS comes first, then the auth check; GET and POST go to the collection, PATCH and DELETE to an item named by the last segment; everything else is 404 |
| NetlifyTasks.PreflightBeforeAuth | netlify/functions/tasks.js:136-143 | an OPTIONS request is answered whatever the secret and headers are |
| NetlifyTasks.ParseCreate | netlify/functions/tasks.js:159-174 | an object body goes through the creation rules; a null or unparseable body throws |
| NetlifyTasks.PatchedText | netlify/functions/tasks.js:189-190 | an absent property keeps the field; any other value becomes String(value).trim() |
| NetlifyTasks.PatchedCategory | netlify/functions/tasks.js:191 | the category changes exactly when the body names one of the six categories |
| NetlifyTasks.PatchedStatus | netlify/functions/tasks.js:192-200 | a valid status replaces the old one; done keeps an existing completion time or stamps now; any other status clears it; an invalid status changes nothing |
| NetlifyTasks.ApplyPatch | netlify/functions/tasks.js:187-200 | id, createdAt and agent never change, each other field follows its rule, and a consistent task stays consistent |
| NetlifyTasks.RedundantDoneKeepsCompletion | netlify/functions/tasks.js:192-196 | patching a completed task to done again leaves it unchanged |
| NetlifyTasks.PatchMayBlankTitle | netlify/functions/tasks.js:189 | a blank title in a PATCH gives an empty title, since PATCH does not re-validate |
| NetlifyTasks.DeleteRemovesId | netlify/functions/tasks.js:209-212 | with distinct ids, no task with the deleted id remains |
| NetlifyTasks.AppendKeepsDistinct | netlify/functions/tasks.js:166-176 | appending a task whose id is unused keeps the ids distinct |
| NetlifyTasks.FileStore.Seeded | netlify/functions/tasks.js:98-102 | a missing or corrupt file gives the seed list, saved at the current time |
| NetlifyTasks.FileStore.Handle | netlify/functions/tasks.js:134-222 | every response carries the CORS headers; the exact response and new list for each route; the list stays consistent |
| NetlifyTasks.FileStore.Create | netlify/functions/tasks.js:158-179 | an accepted body is appended at the end with the fresh id (201); a bad title gives 400 and a throwing body 500, both with no change |
| NetlifyTasks.FileStore.Patch | netlify/functions/tasks.js:182-204 | an unknown id gives 404 with no change; otherwise only the first task with the id is patched and returned |
| NetlifyTasks.FileStore.Delete | netlify/functions/tasks.js:207-215 | an unknown id gives 404; otherwise the first task with the id is removed and returned, and the others keep their order |
| Tasks.ParseCategory | netlify/functions/tasks.js:39 | a string names a category exactly when it is one of the six, and the category's name is that string |
| Tasks.ParseStatus | netlify/functions/tasks.js:38 | a string names a status exactly when it is one of the three, and the status's name is that string |
| Tasks.NamesParseBack | netlify/functions/tasks.js:38-39 | every category and status name parses back to itself |
| Tasks.TitleValidMeans | netlify/functions/tasks.js:161 | a title is accepted exactly when it is a string with a character that is not white space |
| Tasks.NormCategory | netlify/functions/tasks.js:169 | a listed category is kept, and anything else becomes development |
| Tasks.NormStatus | netlify/functions/tasks.js:170 | a listed status is kept, and anything else becomes todo |
| Tasks.NormAgent | netlify/functions/tasks.js:173 | the agent is bot exactly for the string "bot" |
| Tasks.NormDescription | netlify/functions/tasks.js:168 | a falsy description becomes '', a string is trimmed, and any other truthy value throws |
| Tasks.NormaliseDraft | netlify/functions/tasks.js:161-174 | rejected for a bad title exactly when the title is invalid; throws exactly for a truthy non-string description; otherwise every field follows its rule and completedAt is now exactly when the status is done |
| Tasks.DoneTestsAgree | api/tasks/index.js:26-33 | testing the normalised status for done, as index.js does, agrees with testing the raw body status, as tasks.js does |
| Tasks.CreatedIsConsistent | netlify/functions/tasks.js:165-174 | a created task has completedAt set exactly when it is done |
| Tasks.TitleOnlyDefaults | netlify/functions/tasks.js:165-174 | a body with only a title gives a manual development task to do, with an empty description and no completion |
| Db.CheckAuthLowerCaseOnly | api/_db.js:21-27 | the lower-case header carrying the secret passes, and the capitalised header alone is refused |
| Db.ToApi | api/_db.js:37-48 | the fields are renamed; the description is always present ('' when falsy); completedAt is the row's value when truthy and null otherwise |
| Db.ToDb | api/_db.js:50-60 | each field is copied under its snake_case name, and no id is emitted |
| Db.EmptyUpdateEmptyRow | api/_db.js:50-60 | an update with no fields gives an empty row |
| Db.ApiDbRoundTrip | api/_db.js:37-60 | toApi(toDb(t)) equals t except for the id, for a task with every field set and completedAt null or non-empty |
| Db.DbApiRoundTrip | api/_db.js:37-60 | toDb(toApi(row)) equals the row except for the id, for a row with a description and completed_at null or non-empty |
| Db.DraftObj | api/tasks/index.js:27-35 | the object has no id, carries the draft's title, description and createdAt, a category and status that parse back to the draft's, agent "bot" exactly for a bot draft and "manual" otherwise, and completedAt exactly when the draft has one, with its value; for a draft whose completedAt is present exactly when it is done, the object keeps that invariant |
| Db.SeedTasksWellFormed | api/_db.js:64-75 | the in-memory seed list has five tasks with distinct ids, and completedAt is set exactly when done |
| Db.Spread | api/_db.js:104-107 | the new task gets the generated id unless it brings its own |
| Db.Assign | api/_db.js:129 | each field the update defines overwrites the task's, and the others are kept |
| Db.AssignLaws | api/_db.js:129 | merging an empty update changes nothing, and merging the same update twice is merging it once |
| Db.AssignKeepsConsistent | api/_db.js:129 | an update that sets completedAt together with the status keeps the id and the completedAt/status invariant |
| Db.MemoryStore.constructor | api/_db.js:63 | the store starts unseeded and reads as the seed list |
| Db.MemoryStore.Mem | api/_db.js:64-75 | the first use seeds the list; later uses return it unchanged |
| Db.MemoryStore.ListTasks | api/_db.js:78-89 | returns the current list and changes nothing but the lazy seeding |
| Db.MemoryStore.CreateTask | api/_db.js:104-109 | the new task goes in front, the list grows by one, and the others keep their order |
| Db.MemoryStore.UpdateTask | api/_db.js:126-130 | an unknown id gives null with no change; otherwise the first task with the id is merged, and the merged task is returned |
| Db.MemoryStore.DeleteTask | api/_db.js:146-149 | an unknown id gives null with no change; otherwise the first task with the id is removed and returned, and the rest keep their order |
| TasksIndex.BodyOf | api/tasks/index.js:21 | a null body reads as {}, and unparseable text throws |
| TasksIndex.Decide | api/tasks/index.js:9-45 | OPTIONS comes before auth, and auth before any storage call; GET lists; POST creates exactly when the title is valid, with 400 exactly for a bad title; other methods get 405 |
| TasksIndex.CreatedObjWellFormed | api/tasks/index.js:26-35 | a task passed to the store has no id, every field set, and completedAt set exactly when done |
| TasksIndex.TitleOnlyPost | api/tasks/index.js:20-37 | a POST with only a title hands the store a manual development task to do |
| TasksIndex.Serve | api/tasks/index.js:9-46 | every response carries the CORS headers; GET returns the store's list with the timestamp; only an accepted POST changes the store, prepending the created task (201) |
| DashboardViews.StatsOf | public/script.js:210-221 | the total is the list length, and the todo, in-progress and done counters are the numbers of tasks with exactly that status |
| DashboardViews.StatsSplit | public/script.js:210-221 | the three counters plus the tasks with no column status add up to the total |
| DashboardViews.StatsAddUp | public/script.js:210-221 | the counters sum to at most the total, and to exactly the total exactly when every status is one of the three |
| DashboardViews.Column | public/script.js:232-239 | a column is ordered newest createdAt first |
| DashboardViews.ColumnCount | public/script.js:233-239 | a column holds every copy of each task of its status and nothing else |
| DashboardViews.Kanban | public/script.js:223-239 | all three columns are ordered newest first |
| DashboardViews.KanbanPartition | public/script.js:233-239 | a task with a column status appears in exactly its column, as often as in the list; a task with any other status appears in none |
| DashboardViews.DropUpdate | public/script.js:321-330 | an update is issued exactly when a drag id is set, names a loaded task, and that task's status differs from the column's; it carries only the id and the new status |
| DashboardViews.DropSettles | public/script.js:324-329 | once the update is applied to the list, the same drop issues nothing |
| DashboardViews.WeekOf | public/script.js:339-341 | the week key of a task is the ISO 8601 week (from 1 to 53) of the local calendar day of its completedAt, or of its createdAt when it has none |
| DashboardViews.GroupByWeek | public/script.js:335-351 | each group is non-empty and holds exactly the tasks of its week, in list order; every task has a group; groups are strictly newest first; group sizes sum to the task count |
| DashboardViews.FileByWeek | public/script.js:336-351 | the same for any week key function: the forEach that fills the dictionary, then the sort |
| DashboardViews.GroupStep | public/script.js:338-345 | filing one more task keeps the dictionary's keys in insertion order, each group that week's tasks, and the sizes summing to the prefix length |
| DashboardViews.SortedLater | public/script.js:348-351 | sorting the distinct week keys by year, then week, orders them strictly newest first |
| DashboardViews.NoHistoryExactlyWhenEmpty | public/script.js:355-358 | there are no groups exactly when there are no tasks |
| DashboardViews.OneGroupPerTask | public/script.js:338-345 | a task is in a group exactly when the group's key is its week, so it is in exactly one group |
| DashboardViews.WeekRows | public/script.js:360-373 | one row per group with the group's year and week; the badge is the group's number of done tasks over its size, and only the first group starts expanded |
| DashboardViews.WeekBadgeCountsDone | public/script.js:363-364 | for groups filed by week, a badge's done count is the number of done tasks of the whole list in that week, and its total the number of tasks in that week |
| DashboardViews.Activity | public/script.js:400-404 | at most eight tasks, all done with a completion time and from the list, newest first |
| DashboardViews.ActivityIsNewest | public/script.js:400-404 | the feed shows all completions when there are at most eight and eight otherwise, and no completion left out is newer than one shown |
| IsoWeek.LocalDay | public/script.js:67-68 | the local calendar day of an instant is the day whose span holds it |
| IsoWeek.Weekday | public/script.js:69 | `(getDay() + 6) % 7` is a weekday from 0 (Monday) to 6 |
| IsoWeek.YearLength | public/script.js:70-72 | a Gregorian year has 366 days exactly when it is a leap year, and 365 otherwise |
| IsoWeek.YearOf | public/script.js:72 | getFullYear gives the year whose span holds the day |
| IsoWeek.YearOfUnique | public/script.js:72 | that year is the only one whose span holds the day |
| IsoWeek.Week1Monday | public/script.js:70-73 | week 1 starts on the Monday of the week holding January 4, within three days of January 1 |
| IsoWeek.IsoWeekCorrect | public/script.js:66-75 | getISOWeek gives the ISO 8601 week date of the day, the week is from 1 to 53, and Math.round receives a whole number |
| IsoWeek.IsoWeekUnique | public/script.js:66-75 | any week date satisfying the ISO 8601 description of the day is the one getISOWeek gives |
| IsoWeek.NewYear2027InWeek53 | public/script.js:66-75 | January 1, 2027 lies in week 53 of 2026 |
| IsoWeek.December29InNextYear | public/script.js:66-75 | December 29, 2025 lies in week 1 of 2026 |
| DashboardSession.AuthHeaders | public/script.js:94-98 | the JSON content type is always sent first |
| DashboardSession.AuthorizationCarriesKey | public/script.js:94-98 | the Authorization header is present exactly when the key is non-empty, and the server's token extraction recovers the key from it |
| DashboardSession.SignedRequestAccepted | netlify/functions/tasks.js:125-132 | a request signed with a non-empty key passes exactly when no secret is set or the key is the secret |
| DashboardSession.Classify | public/script.js:113-121 | the call throws 'Unauthorized' exactly on a 401, returns the body exactly on a 2xx status, and throws otherwise |
| DashboardSession.LoggedOut | public/script.js:188-196 | logout clears the key, the stored key, the list and the key input, hides the error and shows the auth screen |
| DashboardSession.UnauthorizedSignsOut | public/script.js:113-118 | a 401 from any call signs the session out, and a change then counts as failed |
| DashboardSession.LogoutIdempotent | public/script.js:188-196 | logging out twice is logging out once |
| DashboardSession.LoadChangesOnlyTasks | public/script.js:123-139 | a reload that is not refused changes only the list: data.tasks or [] on success, and [] on failure |
| DashboardSession.FailedSignInClearsKey | public/script.js:172-186 | a failed sign-in drops the key and the stored key and shows the error, and happens only when the probe was not 2xx |
| DashboardSession.SignInStoresKey | public/script.js:172-186 | a successful probe stores the key, shows the dashboard and loads the list, unless the reload is refused |
| DashboardSession.BlankKeyIgnored | public/script.js:441-443 | a blank key input does nothing |
| DashboardSession.TransitionsKeepCoherent | public/script.js:113-170 | any call, reload, change or drop keeps the stored key equal to the key in use, and keeps the dashboard shown only with a key |
| DashboardSession.SubmitKeepsCoherent | public/script.js:441-451 | the auth button, on the auth screen, keeps the session coherent |
| DashboardSession.AuthenticateKeepsCoherent | public/script.js:172-186 | signing in from the auth screen with a non-empty key keeps the session coherent |
| DashboardSession.StartCoherent | public/script.js:501-505 | the page starts coherent, on the dashboard exactly when a non-empty key was stored and the first load was not refused |
| DashboardSession.Dashboard.constructor | public/script.js:6-8 | the state starts with no tasks, the stored key in use and no drag |
| DashboardSession.Dashboard.Init | public/script.js:501-505 | the state becomes the start transition, and is coherent |
| DashboardSession.Dashboard.Logout | public/script.js:188-196 | the state becomes the logged-out state |
| DashboardSession.Dashboard.ApiFetch | public/script.js:113-121 | sends the headers for the current key, ends as the reply's classification, and a 401 logs out |
| DashboardSession.Dashboard.LoadTasks | public/script.js:123-139 | the state becomes the reload transition |
| DashboardSession.Dashboard.Authenticate | public/script.js:172-186 | the state and the thrown flag are the sign-in transition |
| DashboardSession.Dashboard.SubmitKey | public/script.js:441-451 | the state becomes the submit transition and stays coherent |
| DashboardSession.Dashboard.TypeKey | public/script.js:457-459 | typing sets the input and hides the error, and nothing else |
| DashboardSession.Dashboard.SendChange | public/script.js:141-170 | the state becomes the change transition (a reload after success) and stays coherent |
| DashboardSession.Dashboard.DragStart | public/script.js:293-298 | only the drag id changes, to the card's id |
| DashboardSession.Dashboard.DragEnd | public/script.js:299-303 | only the drag id changes, to none |
| DashboardSession.Dashboard.DropOn | public/script.js:321-330 | the update issued and the new state are the drop transition, which stays coherent |
| JsStrings.Trim | netlify/functions/tasks.js:161 | the result has no white space at either end, and is empty exactly when the string is all white space |
| JsStrings.TrimIsSlice | netlify/functions/tasks.js:161 | the result is the slice of the string between a run of leading and a run of trailing white space |
| JsStrings.TrimIdempotent | api/tasks/index.js:28 | trimming a trimmed string changes nothing |
| JsStrings.ToLower | skills/youtube-full/scripts/transcript.mjs:62 | the length is kept and each ASCII capital becomes its lower-case letter |
| JsStrings.ReplaceCharRemoves | skills/youtube-full/scripts/transcript.mjs:102 | replacing every newline by a space leaves no newline |
| JsStrings.SplitJoin | skills/youtube-full/scripts/transcript.mjs:113 | splitting the joined lines gives them back when none contains the separator |
| Transcript.ArgValue | skills/youtube-full/scripts/transcript.mjs:15-19 | the default when the flag is absent or last; otherwise the argument after its first occurrence |
| Transcript.ArgValueAppended | skills/youtube-full/scripts/transcript.mjs:15-19 | a flag appended with a value gives that value back |
| Transcript.NormalizeLang | skills/youtube-full/scripts/transcript.mjs:61-63 | a missing code gives ''; otherwise each character is the code's character at that position, lower-cased, so no capital letter is left |
| Transcript.NormalizeLangIdempotent | skills/youtube-full/scripts/transcript.mjs:61-63 | normalising twice is normalising once |
| Transcript.Preferred | skills/youtube-full/scripts/transcript.mjs:66-71 | the first track whose code matches; else the first whose vssId holds '.'+lang; else the first whose vssId holds lang; none exactly when no track matches any of these |
| Transcript.ChooseTrack | skills/youtube-full/scripts/transcript.mjs:65-75 | the chosen track is in the non-empty list: the preferred match when there is one, else the first English track, else the first track |
| Transcript.ChooseTrackByCode | skills/youtube-full/scripts/transcript.mjs:66-68 | a preference equal to some track's code, up to case, chooses the first such track |
| Transcript.ChooseTrackEnglishDefault | skills/youtube-full/scripts/transcript.mjs:72-75 | without a preference, an English track is chosen whenever there is one |
| Transcript.DoubleEscapedLessThan | skills/youtube-full/scripts/transcript.mjs:97-101 | because &amp; is replaced before &lt;, "&amp;lt;" decodes to "<" |
| Transcript.StripTagsChars | skills/youtube-full/scripts/transcript.mjs:104 | stripping tags only removes characters, and a text without '<' is unchanged |
| Transcript.CleanSegment | skills/youtube-full/scripts/transcript.mjs:96-104 | a cleaned segment has no newline |
| Transcript.MatchAtMeaning | skills/youtube-full/scripts/transcript.mjs:93 | a match is "<text" at its start, the first '>' after it just before the captured text, and the first "</text>" after that just after it |
| Transcript.MatchAtComplete | skills/youtube-full/scripts/transcript.mjs:93 | `<text` at p, a later `>` and a `</text>` after it give a match at p, so the pattern matches wherever its shape occurs |
| Transcript.NoOpenTagNoMatch | skills/youtube-full/scripts/transcript.mjs:93 | there is no match where "<text" does not start |
| Transcript.NextMatch | skills/youtube-full/scripts/transcript.mjs:95 | re.exec finds a match at or after lastIndex |
| Transcript.NextMatchLeftmost | skills/youtube-full/scripts/transcript.mjs:95 | the match found is the leftmost one from lastIndex, and none is found only when there is none |
| Transcript.NextMatchFinds | skills/youtube-full/scripts/transcript.mjs:93-96 | when a match exists at or after lastIndex, `re.exec` finds one, starting no later than it |
| Transcript.Keep | skills/youtube-full/scripts/transcript.mjs:105 | a segment adds a line exactly when it cleans to a non-empty text |
| Transcript.CleanedLines | skills/youtube-full/scripts/transcript.mjs:102-105 | every pushed line is non-empty and has no newline |
| Transcript.Capture | skills/youtube-full/scripts/transcript.mjs:95-96 | the captured text is the next segment, and lastIndex moves forward past the match |
| Transcript.PushCleaned | skills/youtube-full/scripts/transcript.mjs:96-105 | pushing the cleaned segment extends the lines of the segments seen by those of one more |
| Transcript.ExtractLines | skills/youtube-full/scripts/transcript.mjs:92-106 | the loop's lines are the cleaned, non-empty segments in order |
| Transcript.Selected | skills/youtube-full/scripts/transcript.mjs:23-81 | a page HTTP error, a missing player response and unparsable player JSON each give their own error; a missing or empty track list is the no-tracks error; otherwise the downloaded track is ChooseTrack's choice, and the no-base-URL error occurs exactly when that choice has no base URL |
| Transcript.Emit | skills/youtube-full/scripts/transcript.mjs:108-120 | no lines exits 1; otherwise the joined lines are written to --out with the path printed, or are printed |
| Transcript.Run | skills/youtube-full/scripts/transcript.mjs:8-120 | the run ends as the script's outcome for these arguments and downloads |
| Transcript.MissingUrlIsUsage | skills/youtube-full/scripts/transcript.mjs:10-13 | a missing URL is the usage error with exit code 2 |
| Transcript.ExitCodes | skills/youtube-full/scripts/transcript.mjs:23-110 | once a URL is given, a failed page or track selection exits 1 with that error, a caption HTTP error exits 1 with its status, and no failure past the usage check exits 2 |
| Transcript.TranscriptSplitsIntoLines | skills/youtube-full/scripts/transcript.mjs:102-113 | the written or printed transcript splits on newlines into exactly the kept lines |
| Transcript.EmptyCaptionsExitOne | skills/youtube-full/scripts/transcript.mjs:108-111 | captions that clean to no lines exit 1 with no transcript |

## Left out

- I/O is left out: the `/tmp` file read and written by `loadData`/`saveData`, `fetch` in the client and in the script, `localStorage` (the `storedKey` field), `process.env` (the `secret` parameter) and `process.exit`/stdout (the `Outcome` value). A failing file write, and the 500 it would cause, is not modelled.
- The hosted-database branches of `api/_db.js` (`sb()` and its query chains) are a foreign library. Only the row mapping and the in-memory fallback are modelled.
- `api/tasks/[id].js` is not part of this model. Its update shape appears only as the hypothesis of `Db.AssignKeepsConsistent`.
- `skills/youtube-full/scripts/meta.mjs` is not part of this model.
- Id generation from `Date.now` and `Math.random` is left out. A fresh id is a parameter. Freshness is a lemma hypothesis (`NetlifyTasks.AppendKeepsDistinct`), because the source does not guarantee it.
- Concurrency: each request and each UI handler runs to completion as one step. Async interleaving on the shared list, and a reply that arrives after a later click, are not modelled.
- Object identity and aliasing are left out. Tasks are values, so `listTasks` returning a copy and `updateTask` returning a snapshot hold by construction. The aliasing between the task `createTask` returns and the one it stores is not captured.
- DOM work is left out: HTML rendering, `escapeHtml`, toasts, the modal, event wiring, the auth button's disabled/spinner state, and the "This Week" label with `getWeekRange`/`isCurrentWeek`. The refresh button is `LoadTasks`. The task form's own trimming is not modelled separately: it builds a body that `SendChange` sends.
- `apiFetch`'s merge of caller headers (`options.headers`) is left out, since no caller passes any. `res.json()` failing on a 2xx reply is left out too: the reply carries its parsed `tasks`, or none.
- Dates are left out:
  - the client holds timestamps as integer milliseconds;
  - the local time zone is a fixed offset (daylight-saving changes are not modelled);
  - unparseable dates are not modelled;
  - server timestamps are the ISO strings the `now` parameter supplies, read once per request. The source calls `new Date()` separately for `createdAt`, `completedAt` and `lastUpdated` (netlify/functions/tasks.js:107, 171-172; api/tasks/index.js:32-33), so the model makes them equal where the program may differ by a few milliseconds.
- Ordering by `new Date(...)` is ordering by those integers.
- `DashboardViews.GroupByWeek`: a client task always has `createdAt`, as both backends always set it, so the skip of undated tasks is not modelled.
- `DashboardViews.WeekOf`: the dictionary key `${year}-W${week}` is modelled as the `WeekDate` pair, which it determines one-to-one.
- `DashboardViews.Kanban` and `DashboardViews.Activity`: the sort is an insertion sort that is stable with respect to the list order, like `Array.prototype.sort`. The column contents and order are stated up to ties in `createdAt`.
- `JsStrings.ToLower`: only ASCII letters are lower-cased. Unicode case mapping is not modelled.
- JavaScript values in request bodies: numbers, objects and arrays are `Other(shown, truthy)`, carrying what `String()` makes of them and whether they are truthy.
- `DashboardSession.SubmitKeepsCoherent` and `DashboardSession.Dashboard.SubmitKey` assume the auth screen is showing, because the auth button sits on it. The page markup that hides it is not part of this model. The auth screen is taken as the initial screen.
- `Transcript.Selected`: the regular-expression and `JSON.parse` extraction of `ytInitialPlayerResponse` from the watch page is left out. The page download is given as already reduced to its outcome: an HTTP error, no player response, unparseable JSON, or the caption track list.
- `Transcript.Track`: every property of a caption track is taken to be a string or absent. A non-string `languageCode` or `vssId`, which makes `normalizeLang` throw at `toLowerCase`, and a `null` entry in `captionTracks`, which throws at `t.languageCode`, are not modelled.
- `Transcript.CleanSegment` states only that a cleaned segment has no newline. The entity replacements and the tag stripping are modelled exactly, but their full character-level effect is not restated as a contract. `Transcript.DoubleEscapedLessThan` pins down the replacement order.
