# AI evolution town, modelled in Dafny

This project models the core of an educational web game. The player walks a tile map, talks to NPCs and submits assignments. An external AI service (Coze) judges each submission. A pass is recorded, rewarded with score and sometimes a random item, and levels unlock as their NPCs are completed.

The model covers four groups of behaviour. Each module that models a source file names that file in its header comment.

- **Client.**
  - The game store (`GameStore`): the player state, the debounced save timer and the `isSaving` flag.
  - The level configuration and completion rules (`Levels`).
  - The submit handler of the NPC dialog (`NpcDialog`).
  - The level picker (`LevelSelect`).
  - The key handler and decoration map of the map view (`GameMap`).
  - The totals and avatar-upload guard of the player panel (`PlayerPanel`).
- **Server.**
  - The user routes, with the per-user save throttle and the one-entry leaderboard cache (`UserRoutes`).
  - The validation route (`ValidateRoute`).
  - The persistence layer over in-memory tables (`Database`).
  - The validator and assistant client (`Coze`).
- **Scripts.**
  - The reset tool (`DbReset`).
  - The health check and migrations (`HealthCheck`).
  - The schema initialiser. Its comment stripping is `SqlComments`, its `CREATE EXTENSION` removal is `SqlExtensions`, and its error tolerance and retry is `InitDatabase`.
- **Shared.**
  - `Common`: options, positions, the spawn point (7, 6), and the JavaScript string operations the code uses.
  - `Json`: JavaScript values, truthiness and property access.

Where the code changes state step by step, the model is imperative:
- the store, the panel's upload flag, the throttle map and the leaderboard cache are classes whose methods carry `modifies` clauses;
- the database tables are fields of the `Database.Db` class;
- loops stay loops, with invariants. Examples are the workflow scan, the stream accumulation, the schema check, the migrations and the decoration map.

Expression code becomes functions and lemmas: the level rules, verdicts, guards and SQL text transforms.

Everything outside the program becomes an input:
- **Clock:** `now`.
- **Randomness:** samples in [0, 1).
- **Timers:** a pending flag plus a separate `FireTimer` step.
- **HTTP responses:** the response body, or `None` when the request throws.
- **Database query outcomes:** `queryOk` flags, plus fresh ids that are required to be unused.
- **`JSON.parse`:** a `Parser` function that answers `None` where the real one throws. The workflow scan relies on one property of it, `Coze.StrictJson`: once a text parses, appending a line that is not white space makes it fail whatever follows, because a JSON text holds exactly one value; appending a white-space line changes nothing.

Predicates that only define a notion have no contract of their own and no row below. Examples are `Levels.IsLevelCompleted`, `GameStore.Store.IsNPCCompleted`, `Database.Db.IsNPCCompleted` and `InitDatabase.Tolerated`. The lemmas and methods that use them state what they mean.

## Model

| member | source | states |
|---|---|---|
| Common.ContainsMeans | backend/init-database.js:87-90 | `includes` holds iff the substring occurs at some index |
| Common.IndexOf | backend/init-database.js:69 | the result is an occurrence of the substring, no earlier index starts one, and `None` iff there is no occurrence |
| Common.Utf16Length | backend/src/routes/user.js:23 | `length` counts UTF-16 code units: between one and two per character |
| Common.Utf16LengthAppend | backend/src/routes/user.js:23 | code-unit lengths add over concatenation |
| Common.Utf16ShorterThanTwo | backend/src/routes/user.js:23 | `length < 2` holds iff the text is empty or one character of the Basic Multilingual Plane, so one character above U+FFFF passes the name check |
| Common.Trim | backend/src/routes/user.js:23 | `trim` leaves no white space at either end, and leaves a string that has none unchanged |
| Common.TrimAllSpace | frontend/src/components/NPCDialog.jsx:25 | a text trims to the empty string iff every character is white space |
| Common.TrimPadded | backend/db-reset.js:55 | surrounding white space around a word without white space at its ends is exactly what `trim` removes |
| Common.Split | backend/init-database.js:67 | `split` gives at least one piece and no piece contains the separator |
| Common.JoinSplit | backend/init-database.js:67-75 | joining the pieces of `split` on the same separator gives the text back |
| Json.Get | backend/src/routes/validate.js:40 | a property read is defined iff the value is an object holding that key |
| Json.Or | backend/src/services/cozeService.js:142 | `a \|\| b` is `a` when `a` is truthy and `b` otherwise |
| Levels.LevelConfig | frontend/src/config/levels.js:43-45 | `LEVELS[i]` for an index in range, null otherwise |
| Levels.MapSize | frontend/src/config/levels.js:52-58 | defaults for a missing level or map; otherwise the first row's length and the row count, each replaced by its default when zero; both positive |
| Levels.RequiredNPCIds | frontend/src/config/levels.js:65-71 | a missing level or NPC list requires nothing |
| Levels.RequiredOfMembers | frontend/src/config/levels.js:67-70 | an id is required iff it belongs to a non-assistant NPC of the level |
| Levels.RequiredOfLength | frontend/src/config/levels.js:68-70 | one required id per non-assistant NPC, and none for a level of assistants only |
| Levels.EveryMeans | frontend/src/config/levels.js:81 | `every(includes)` holds iff each id is in the completed list |
| Levels.CompletedIff | frontend/src/config/levels.js:79-82 | a level is completed iff every non-assistant NPC's id is in the completed list |
| Levels.VacuouslyCompleted | frontend/src/config/levels.js:79-82 | a level requiring nothing is completed whatever has been completed |
| Levels.CompletionMonotone | frontend/src/config/levels.js:79-82 | completing more NPCs never turns a completed level back into an incomplete one |
| GameStore.OrString | frontend/src/store/gameStore.js:82 | `a \|\| b` on optional strings: the empty string falls through |
| GameStore.LoginSnapshot | frontend/src/store/gameStore.js:75-84 | every missing field of the login answer falls back to its default: spawn point, 0, empty lists, the first non-empty of `avatar_url` and `avatar`, else null; the avatar is never the empty string |
| GameStore.Store.constructor | frontend/src/store/gameStore.js:9-35 | the initial store is logged out at the spawn point, with no timer and nothing in flight |
| GameStore.Store.Login | frontend/src/store/gameStore.js:63-113 | a successful answer logs in and installs the player from `LoginSnapshot` facing down; a failure leaves the player and the login state as they were; either way loading ends and the result says which |
| GameStore.Store.UpdatePosition | frontend/src/store/gameStore.js:176-180 | only the position changes, and no save is scheduled |
| GameStore.Store.UpdateDirection | frontend/src/store/gameStore.js:182-186 | only the direction changes |
| GameStore.Store.ScheduleSaveProgress | frontend/src/store/gameStore.js:315-322 | afterwards a save is pending, and a pending one is left as it was: at most one debounced save |
| GameStore.Store.StartSave | frontend/src/store/gameStore.js:324-348 | logged out or without an id nothing changes, the timer included; otherwise the timer is cleared, and the snapshot is sent iff forced or no save is in flight |
| GameStore.Store.FinishSave | frontend/src/store/gameStore.js:349-353 | success or failure, `isSaving` is false again and nothing else changes |
| GameStore.Store.SaveProgressNow | frontend/src/store/gameStore.js:324-354 | an awaited save: what `StartSave` sends, sent exactly once, and `isSaving` false afterwards |
| GameStore.Store.FireTimer | frontend/src/store/gameStore.js:318-320 | the timer runs a non-forced save; it sends iff logged in and nothing is in flight, and the timer stays set iff logged out |
| GameStore.Store.AddScore | frontend/src/store/gameStore.js:191-197 | the score grows by the points; when logged in, a forced save then sends the new snapshot and clears the timer, and otherwise no save state changes |
| GameStore.Store.AddInventory | frontend/src/store/gameStore.js:202-212 | the item is appended only when absent, a duplicate-free inventory stays duplicate-free, and a save is scheduled either way |
| GameStore.Store.UploadAvatar | frontend/src/store/gameStore.js:217-222 | the avatar is set and a save is scheduled |
| GameStore.Store.MarkNPCCompleted | frontend/src/store/gameStore.js:231-258 | the attempt is always reported; the id is appended only on a pass when absent, the list only grows and stays duplicate-free, and a save is scheduled only when it grew |
| GameStore.Store.Logout | frontend/src/store/gameStore.js:116-135 | when logged in, a forced save of the old player is sent first; then logged out at the spawn point with score 0, empty lists and no avatar |
| GameStore.Store.SetActiveNPC | frontend/src/store/gameStore.js:263-265 | the active NPC becomes the argument |
| GameStore.Store.SetChatInput | frontend/src/store/gameStore.js:267-269 | the input becomes the argument |
| GameStore.CanMoveTo | frontend/src/store/gameStore.js:306-310 | true only inside the first row's width and the row count, on a tile that is not a wall; on a rectangular map, iff in bounds and not a wall |
| GameStore.FindNpc | frontend/src/store/gameStore.js:297 | the first NPC with the id, or none iff no NPC has it |
| GameStore.CanInteractWithNPC | frontend/src/store/gameStore.js:295-304 | true iff `find` returns an NPC, the first with the id, and it stands at Manhattan distance at most 1; false for an unknown id |
| GameStore.DebouncedBurst | frontend/src/store/gameStore.js:315-322 | any burst of inventory additions while logged in ends in exactly one save when the timer fires, carrying the latest snapshot |
| NpcDialog.PrizeIndex | frontend/src/components/NPCDialog.jsx:56 | `floor(r * length)` is always inside the prize pool |
| NpcDialog.RewardFirstPass | frontend/src/components/NPCDialog.jsx:50-65 | +100 score with a forced save; an item is dropped iff the sample is below the drop rate |
| NpcDialog.SubmitPass | frontend/src/components/NPCDialog.jsx:40-76 | a pass is recorded as passed; score and drops only when the NPC was not yet completed; the dialog closes and its input clears |
| NpcDialog.HandleSubmit | frontend/src/components/NPCDialog.jsx:24-94 | blank input only warns; a thrown validator shows the error and records nothing; every verdict is recorded with its result; only a first pass changes score, list or inventory; a fail leaves the dialog open |
| LevelSelect.Badges | frontend/src/components/LevelSelect.jsx:105-106 | a badge shows done iff its NPC's id is in the completed list |
| LevelSelect.CardOf | frontend/src/components/LevelSelect.jsx:37-142 | unlocked iff first or the previous level is at 100; completed iff at 100; current iff the current index; progress bar iff unlocked |
| LevelSelect.Click | frontend/src/components/LevelSelect.jsx:57-61 | a click loads exactly that level iff it is unlocked, and does nothing otherwise |
| LevelSelect.UnlockChain | frontend/src/components/LevelSelect.jsx:39-41 | level 0 always loads; level k+1 loads iff level k shows as completed |
| LevelSelect.PrefixUnlocked | frontend/src/components/LevelSelect.jsx:39 | when every earlier level is complete, the whole prefix is unlocked |
| PlayerPanel.TaskTotalAppend | frontend/src/components/PlayerPanel.jsx:25 | the task count of two runs of levels is the sum of their counts |
| PlayerPanel.TotalCountsTasks | frontend/src/components/PlayerPanel.jsx:25 | the `reduce` total is the number of non-assistant NPCs over all levels |
| PlayerPanel.TotalAdditive | frontend/src/components/PlayerPanel.jsx:25 | adding levels adds exactly their own required NPCs to the total |
| PlayerPanel.CompletedCount | frontend/src/components/PlayerPanel.jsx:26 | the list's length, or 0 when absent |
| PlayerPanel.TotalPercent | frontend/src/components/PlayerPanel.jsx:27 | 0 for a zero total, with no division; otherwise the integer nearest to 100·completed/total, a half rounding up |
| PlayerPanel.PercentAtMost100 | frontend/src/components/PlayerPanel.jsx:27 | at most 100 when no more are completed than required |
| PlayerPanel.PercentAllDone | frontend/src/components/PlayerPanel.jsx:27 | exactly 100 when all are completed |
| PlayerPanel.PercentNoneDone | frontend/src/components/PlayerPanel.jsx:27 | 0 when none are completed |
| PlayerPanel.PercentMonotone | frontend/src/components/PlayerPanel.jsx:27 | completing more never lowers the percentage |
| PlayerPanel.RoundsToFull | frontend/src/components/PlayerPanel.jsx:27 | with at least one task, the figure is 100 iff at least 99.5% are completed |
| PlayerPanel.FullBeforeDone | frontend/src/components/PlayerPanel.jsx:27 | so 199 of 200 completed already shows 100 |
| PlayerPanel.AvatarPanel.constructor | frontend/src/components/PlayerPanel.jsx:19 | not uploading initially |
| PlayerPanel.AvatarPanel.HandleAvatarUpload | frontend/src/components/PlayerPanel.jsx:29-49 | no file does nothing; over 2 MiB only warns; otherwise the avatar changes, and a save is scheduled, only on a successful upload, and `isUploading` is false afterwards |
| GameMap.Delta | frontend/src/components/GameMap.jsx:82-93 | each facing moves exactly one tile |
| GameMap.KeyToStep | frontend/src/components/GameMap.jsx:82-94 | each of the four key groups maps to its unit step and facing, and every other key to nothing |
| GameMap.EveryDirectionBound | frontend/src/components/GameMap.jsx:82-94 | every facing has a key |
| GameMap.HandleKeyDown | frontend/src/components/GameMap.jsx:74-103 | nothing while a dialog, the helper or the level list is open or for an unbound key; otherwise the facing always turns, and the player moves one unit step exactly when the target is walkable |
| GameMap.Seed | frontend/src/components/GameMap.jsx:36 | the seed is below 100 |
| GameMap.DecoOfSeed | frontend/src/components/GameMap.jsx:37-39 | flower iff seed < 5, grass iff 5 ≤ seed < 15, stone iff seed > 98 |
| GameMap.DecoAt | frontend/src/components/GameMap.jsx:35-39 | only an existing grass tile can carry a decoration |
| GameMap.Decorations | frontend/src/components/GameMap.jsx:31-44 | the map holds exactly the tiles whose decoration is defined, each with that decoration |
| GameMap.DecorationsOnGrass | frontend/src/components/GameMap.jsx:33-40 | every decorated tile is a grass tile inside the grid |
| GameMap.ViewSize | frontend/src/components/GameMap.jsx:23-28 | the view's size fallback agrees with `getMapSize` of the configuration |
| Database.DefaultProgress | backend/src/services/databaseService.js:366-374 | score 0, empty lists, the spawn point, no avatar |
| Database.RowToProgress | backend/src/services/databaseService.js:165-174 | every null column except the avatar reads back as its default |
| Database.SavedRow | backend/src/services/databaseService.js:218-237 | the five columns take the sent values or their defaults, an empty avatar becomes null, and `level_index` is kept, or 0 on insert |
| Database.SaveReadBack | backend/src/services/databaseService.js:218-237 | every field that was sent reads back as sent, and a save of nothing reads back the defaults |
| Database.AppendCompleted | backend/src/services/databaseService.js:256-267 | the id is appended only when absent; a null list stays null |
| Database.AppendCompletedIdempotent | backend/src/services/databaseService.js:256-267 | adding twice is adding once, and the list stays duplicate-free |
| Database.FindUser | backend/src/services/databaseService.js:95-99 | a stored row with the name, or none iff no row has it |
| Database.Positive | backend/src/services/databaseService.js:342-346 | the joined lines all have a positive score, and there are no more of them than users |
| Database.PositiveMembers | backend/src/services/databaseService.js:342-346 | every user with a positive stored score has a line |
| Database.InsertDesc | backend/src/services/databaseService.js:347 | inserting into a score-descending list keeps it sorted and adds exactly that line |
| Database.SortDesc | backend/src/services/databaseService.js:347 | `ORDER BY score DESC` gives a sorted permutation |
| Database.Take | backend/src/services/databaseService.js:348 | `LIMIT n` keeps the first `min(n, length)` lines |
| Database.PrefixIsTop | backend/src/services/databaseService.js:347-348 | nothing left out of a sorted prefix scores above anything in it |
| Database.Db.UserByUsername | backend/src/services/databaseService.js:89-104 | null iff disconnected, failed, or no row has the name; otherwise a stored row with that name |
| Database.Db.CreateUser | backend/src/services/databaseService.js:109-138 | throws when disconnected; otherwise inserts the user under the fresh id, then its starting progress row; a failing insert is rethrown and leaves only the inserts before it |
| Database.Db.ReadProgress | backend/src/services/databaseService.js:147-179 | never null: the defaults when disconnected, failed or absent, else the stored row with defaults for nulls |
| Database.Db.SaveUserProgress | backend/src/services/databaseService.js:211-246 | skipped when disconnected; a failed write is rethrown and changes nothing; otherwise only the user's row becomes `SavedRow` |
| Database.Db.AddCompletedNPC | backend/src/services/databaseService.js:251-273 | with a connection and an existing row, only that user's completed list changes, by `AppendCompleted`, and a non-null list then holds the NPC; otherwise nothing changes |
| Database.Db.SaveTaskCompletion | backend/src/services/databaseService.js:301-327 | exactly one record is appended under the fresh id and no existing record changes; nothing when disconnected or failed |
| Database.Db.Leaderboard | backend/src/services/databaseService.js:336-357 | empty when disconnected, failed or for a negative limit; never longer than the user list |
| Database.TopOfSorted | backend/src/services/databaseService.js:342-348 | the first n lines of the sorted list are sorted, drawn from the lines, and nothing left out scores above them |
| Database.LeaderboardIsTop | backend/src/services/databaseService.js:336-357 | the leaderboard is the top `min(limit, lines)` positive lines, highest first, drawn from the joined lines |
| Database.EveryPositiveUserListed | backend/src/services/databaseService.js:342-348 | with a limit covering all users, every user with a positive score is listed |
| UserRoutes.Login | backend/src/routes/user.js:19-70 | 400 iff the name is missing or its trimmed form is shorter than 2 UTF-16 code units; lookup and creation use the trimmed name; an existing user comes back with stored progress and nothing changes, a new one with the defaults and exactly one user and progress row; a failed creation answers 500 and keeps a user row iff its insert succeeded, with no progress row |
| UserRoutes.LastSave | backend/src/routes/user.js:121 | the last accepted save time, or 0 |
| UserRoutes.ThrottleWindow | backend/src/routes/user.js:120-127 | after an accepted save, a non-forced save of the same user is skipped iff less than 2000 ms later; a forced one never is; other users are unaffected |
| UserRoutes.SaveThrottle.constructor | backend/src/routes/user.js:6 | the throttle map starts empty |
| UserRoutes.SaveThrottle.Save | backend/src/routes/user.js:112-135 | 400 iff id or data is missing; a throttled save changes nothing; an accepted one records `now` before writing, and the write then succeeds, is skipped, or fails with 500 |
| UserRoutes.LimitOf | backend/src/routes/user.js:78 | the parsed limit, or 10 when it is unparsable or 0 |
| UserRoutes.LeaderboardCache.constructor | backend/src/routes/user.js:9-13 | the cache starts empty, at time 0, with limit 0 |
| UserRoutes.LeaderboardCache.Top | backend/src/routes/user.js:76-99 | a hit (non-empty, same limit, under 5000 ms) answers the cached list and changes nothing; a miss queries and replaces data, timestamp and limit |
| UserRoutes.RepeatWithinTtl | backend/src/routes/user.js:81-92 | on a cold cache, a request less than 5000 ms after one that fetched a non-empty list answers that same list |
| UserRoutes.CompleteNpc | backend/src/routes/user.js:137-163 | 400 iff user or NPC id is missing; otherwise the attempt is always logged, and the NPC is added to the completed list only on a pass |
| Coze.Payload | backend/src/services/cozeService.js:96-98 | the trimmed candidate line is `data: ` followed by the payload |
| Coze.JoinLines | backend/src/services/cozeService.js:104-118 | the multi-line retry leaves `messageData` as it was, or as the parse of the payload joined on newlines with the following lines up to one at most ten lines on |
| Coze.ScanLine | backend/src/services/cozeService.js:96-119 | the scan breaks on a line iff `messageData.content` is truthy; a line that parses alone with content breaks with that parse, one without content does not break |
| Coze.ScanWorkflow | backend/src/services/cozeService.js:89-121 | no candidate line leaves `messageData` null; the first line that parses with content, after earlier candidates that parsed without it, gives the result |
| Coze.ContentOf | backend/src/services/cozeService.js:123-137 | `content` is set only when `messageData.content` is truthy, and a string content is parsed |
| Coze.WorkflowVerdict | backend/src/services/cozeService.js:139-157 | passed iff `pass` or `passed` is the boolean true; feedback is `reason`, `feedback`, `message` or the default, in that order; without an object, failed with the fixed message |
| Coze.WorkflowVerdictFacts | backend/src/services/cozeService.js:141-142 | the feedback is never empty, and a merely truthy `pass` such as `"true"` does not pass |
| Coze.CallWorkflow | backend/src/services/cozeService.js:86-157 | always a verdict with non-empty feedback; a response without a candidate line gives the fixed failure; when the first content-bearing line parses on its own and earlier candidates parsed without content, the verdict is `WorkflowVerdict` of that line's content |
| Coze.BotReply | backend/src/services/cozeService.js:188-189 | the content of the first assistant message, at whatever index (empty when it has none), and empty when no message is the assistant's |
| Coze.BotVerdict | backend/src/services/cozeService.js:193-199 | passed iff the reply contains 通过, 正确 or 完美; feedback is the reply, or the default when empty |
| Coze.BotVerdictMonotone | backend/src/services/cozeService.js:194 | text around a passing reply keeps it passing, and an empty reply fails |
| Coze.ValidateWithCoze | backend/src/services/cozeService.js:28-55 | without a key it throws before any request; a workflow id wins over a bot id, and its answer is read as `CallWorkflow` reads it; a bot id alone gives the bot verdict of its reply; with neither it throws; a failed request throws |
| Coze.EventPayload | backend/src/services/cozeService.js:260-263 | lines without `data:`, empty payloads and `[DONE]` are skipped |
| Coze.EventOf | backend/src/services/cozeService.js:260-284 | an event is read only from a line that is not skipped, and never as null |
| Coze.StreamId | backend/src/services/cozeService.js:268-271 | the last conversation id seen is always truthy |
| Coze.StreamTextAppend | backend/src/services/cozeService.js:273-281 | the answer of a stream is the answers of its parts, concatenated in order |
| Coze.StreamIdAppend | backend/src/services/cozeService.js:268-271 | the conversation id is the last one seen in the later part, else the earlier part's |
| Coze.SkippedLine | backend/src/services/cozeService.js:260 | a line without `data:` changes neither answer nor id |
| Coze.AccumulateStream | backend/src/services/cozeService.js:255-285 | the loop yields the in-order concatenation of the answer texts and the last conversation id, else the one passed in |
| Coze.ChatWithAssistant | backend/src/services/cozeService.js:214-302 | throws when unconfigured or when the request fails; otherwise the accumulated answer (the apology when empty) and its conversation id; an answer is never empty |
| ValidateRoute.Rejection | backend/src/routes/validate.js:25-45 | content is checked first, then the configuration, then its ids, each rejection iff its condition holds |
| ValidateRoute.Respond | backend/src/routes/validate.js:20-62 | 400 iff a guard rejects; the verdict is passed on unchanged; a thrown validator gives 500 with the generic feedback |
| ValidateRoute.RejectionIgnoresValidator | backend/src/routes/validate.js:25-52 | a rejected request's answer does not depend on the validator |
| ValidateRoute.PassOnlyFromValidator | backend/src/routes/validate.js:50-61 | every passing answer is the validator's own passing verdict |
| ValidateRoute.Validate | backend/src/routes/validate.js:20-62 | the validator runs iff no guard rejects; a missing key or a failed request answers 500 with the generic feedback; a workflow id answers the workflow verdict as `CallWorkflow` reads it; a bot id alone answers the bot verdict |
| DbReset.ConfirmReset | backend/db-reset.js:41-58 | force mode confirms; otherwise confirmed iff the trimmed answer is `RESET` |
| DbReset.ConfirmIgnoresPadding | backend/db-reset.js:55 | white space around `RESET` still confirms |
| DbReset.ResetRow | backend/db-reset.js:107-116 | the row reads back as the defaults with its own avatar, at level 0 |
| DbReset.FullReset | backend/db-reset.js:76-94 | all three tables become empty, and each count is the number of rows deleted |
| DbReset.ProgressReset | backend/db-reset.js:99-124 | completions are emptied, every progress row is reset in place and the rows are kept, and no user is counted |
| DbReset.ProgressResetReadsDefault | backend/db-reset.js:107-116 | after a progress reset every player reads back the starting progress |
| DbReset.Run | backend/db-reset.js:129-199 | stops without credentials or a connection; on empty tables or without confirmation nothing changes; otherwise the chosen reset runs |
| HealthCheck.CheckTables | backend/db-health-check.js:127-150 | true iff users, user_progress and task_completions all exist |
| HealthCheck.CheckSchema | backend/db-health-check.js:163-196 | the loops collect exactly `SchemaIssues` of the expected schema, in declaration order |
| HealthCheck.MissingRequiredMeans | backend/db-health-check.js:174-182 | a table's issues are exactly its missing required columns, tagged `missing` |
| HealthCheck.SchemaIssuesMeans | backend/db-health-check.js:168-183 | the issues are exactly the required columns missing from some expected table |
| HealthCheck.OptionalNeverIssues | backend/db-health-check.js:185-192 | a missing optional column never raises an issue |
| HealthCheck.Applied | backend/db-health-check.js:201-222 | no more migrations are counted than there are |
| HealthCheck.RunMigrations | backend/db-health-check.js:198-223 | a change is attempted iff its check reports it not applied; only successful changes are counted, and a failure does not stop the rest |
| HealthCheck.HealthReport | backend/db-health-check.js:266-318 | stops without a connection or with a missing table; otherwise healthy iff no issue was found, else the issues are reported |
| SqlComments.StripBlockComments | backend/init-database.js:65 | removing block comments never lengthens the text |
| SqlComments.NoBlockCommentUnchanged | backend/init-database.js:65 | a text without an opener is unchanged |
| SqlComments.FirstCloser | backend/init-database.js:65 | the lazy match ends at the first closer |
| SqlComments.CommentAtStart | backend/init-database.js:65 | a leading comment is removed up to its first closer |
| SqlComments.PrefixKept | backend/init-database.js:65 | text before the first opener is kept |
| SqlComments.FirstCommentRemoved | backend/init-database.js:65 | the first comment goes, the text before it stays, and the rest is processed alone |
| SqlComments.TruncateLine | backend/init-database.js:68-74 | the line is cut before its first `--`, so the result has none, is a prefix of the line, and is the line itself when it has none |
| SqlComments.TruncateLines | backend/init-database.js:67-75 | each line is truncated on its own |
| SqlComments.JoinNoDash | backend/init-database.js:75 | joining lines without `--` on newlines creates none |
| SqlComments.SplitNoDash | backend/init-database.js:67-75 | a text without `--` has its lines unchanged by the truncation |
| SqlComments.CleanHasNoLineComment | backend/init-database.js:63-76 | the cleaned script contains no `--` |
| SqlComments.NoCommentsOnlyTrimmed | backend/init-database.js:63-76 | a script without `/*` and `--` is only trimmed |
| SqlExtensions.SpaceRun | backend/init-database.js:96 | `\s+` takes the whole leading white-space run |
| SqlExtensions.ExtensionMatch | backend/init-database.js:96 | a match ends with its `;` |
| SqlExtensions.StripExtensions | backend/init-database.js:96 | removing statements never lengthens the text |
| InitDatabase.NoExtensionUnchanged | backend/init-database.js:96 | a script without any `CREATE EXTENSION` statement is unchanged |
| InitDatabase.MatchAt | backend/init-database.js:96 | a `CREATE EXTENSION` statement in any case, with any white space between the words, is matched up to its first `;` |
| InitDatabase.ExtensionRemoved | backend/init-database.js:96 | such a statement is removed whole, and the rest is processed alone |
| InitDatabase.ExecuteSchema | backend/init-database.js:81-111 | tolerated errors are swallowed and others rethrown; a retry happens iff the tolerated message mentions `extension`, sends the script without its extensions, and tolerates only `already exists` and `duplicate` |
| InitDatabase.RetrySameWithoutExtensions | backend/init-database.js:93-105 | a script without extension statements is retried unchanged |

## Left out

- **Connection and network plumbing.** The pg pool, its timing logs and `closeDatabase` are not part of this model, nor are the database connection in the initialiser and `initDatabase`. The same goes for the axios requests, the Feishu, OSS, Supabase and assistant routes, and the server wiring. Their results are inputs.
- **Interleaved asynchronous requests.** Each handler runs as one atomic step.
  - `saveProgressNow` is split at its `await` (`StartSave` and `FinishSave`), but awaiting callers see both halves together. A save started inside `addScore` therefore looks settled to the rest of the NPC dialog's handler.
  - The dialog's `isLoading` flag is not modelled.
- **Toasts, logs, `localStorage` and the leaderboard refresh.** These are not modelled: `showToast`, `console`, the saved login in `localStorage`, and `fetchLeaderboard` after login and `addScore`. The dialog and the panel return the toasts they show as values.
- **`getLevelProgress`, `loadLevel`, `currentLevelIndex` and `confirmNextLevel`.** They have no body in the store. The level picker takes the per-level percentages and the current index as inputs. A click answers the level to load.
- **levels.json and the game configuration.** Their contents are not part of this model.
  - `MapWidth` and `MapHeight` are the fallbacks 24 and 16, which assumes levels.json sets neither.
  - The drop rate and prize pool are parameters.
  - `canMoveTo`'s `INITIAL_MAP` is the `grid` argument.
- NpcDialog.RewardFirstPass requires a non-empty prize pool. The default pool has six prizes. An empty configured pool would make `PRIZE_POOL[...]` undefined, and that case is not modelled.
- **Floating point.**
  - `Math.round` of the percentage is exact integer rounding of 100·completed/total, halves up.
  - The NPC distance test `<= 1.5` is `<= 1` on whole-tile coordinates.
  - JSON numbers are reals.
- **`JSON.parse`, and `String()` of non-string values.** These are function parameters.
  - Coze.ScanWorkflow: its result is pinned down only when the first content-bearing line parses on its own. When an earlier candidate needed the multi-line retry, the result is only known to be a parse of some text.
  - Coze.CallWorkflow: in that retry case it states only that a verdict with non-empty feedback results.
  - Coze.JoinLines: it states which texts the retry can parse, and the ten-line bound. It does not state at which of those texts the retry stops.
- **The configuration error's message.** It omits the NPC `type` that the source writes into it. No caller reads the text, and the route answers every thrown error with the same 500.
- **Response text conversion.** `String(response.data)` of a non-text body is not modelled. The workflow body is taken as text.
- **Routes and helpers outside the core.** Not modelled:
  - the `GET /:userId` route;
  - `createUserProgress`;
  - `askCozeAssistant`;
  - the store's chat history, helper toggle and `tryAutoLogin`.
- **Database constraints.** The constraints (unique names, foreign keys) fold into the `queryOk` and insert flags. `updated_at` and `user_id` columns are not modelled. Leaderboard lines carry name and score only.
- Database.SortDesc: the order among equal scores is insertion sort's. The database leaves ties unordered, and no contract depends on the order among ties.
- **Decoration keys.** They are positions rather than the `"x-y"` strings, which name positions one to one.
- PlayerPanel.AvatarPanel.HandleAvatarUpload: an upload answer without a `url` is not modelled; the input is the url or a thrown upload. `isUploading` is only observed before and after the upload, not during it.
- **Reset queries failing part-way.** In the reset tool this ends in `process.exit(1)` and is not modelled. A reset runs to completion.
- **Index and row-count checks of the health check.** `checkIndexes` and `getTableStats` only log. A migration's `check` that throws, which aborts the script, is not modelled.
- InitDatabase.ExecuteSchema: the database is one `query` function from script text to error. It states which scripts are sent and how the run ends. A tolerated error's effect on the statements after it in the same script belongs to the database and is not modelled.
- InitDatabase.MatchAt: only statements whose keywords are followed by the first `;` are characterised. A `CREATE` without `EXTENSION` is left as it is by `StripExtensions`, but no lemma states so.
