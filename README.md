# RandyAI personal assistant — a verified model of its core

RandyAI is a personal assistant built around a small SQLite-backed store. It keeps a
key/value memory, a log of learning events and a task list. A scheduler decides when to spawn
self-improvement, adaptive-learning and analysis jobs, and asks context-dependent questions.
An integration layer keeps a registry of three AI vendors (Perplexity, Abacus.AI, DeepAgent)
and their API keys. It fans a query out to the vendors that have a key, merges their answers
into one text, and builds the packages saved for a new AI space or for a handoff to DeepAgent.

This project models that core in Dafny and proves what it promises. There is one module per
file:

- `prelude.dfy` (`Prelude`): optional values, results, instants in microseconds, the wall
  clock and its text renderings, and ASCII versions of the string behaviour the code relies on.
  That behaviour is `str(n)`, `str.lower`, `str.title`, `str.split` and the `in` substring test.
- `dicts.dfy` (`Dicts`): Python's insertion-ordered `dict` with string keys. An overwritten
  key keeps its place; `list(d.items())[-n:]` is a function on it.
- `pyvalues.dfy` (`PyValues`): the JSON-shaped Python values kept in memory, and how
  `save_memory` encodes them and `load_memory` decodes them. The JSON library is a given
  codec with a stated round-trip law.
- `store.dfy` (`Store`): the database file as a value (memory, learning and task tables), and
  `RandyAI` as a class over it, with the in-process `memory` dict and `learning_data` list.
- `scheduler.dfy` (`Scheduler`): the decision rules of `AutonomousScheduler`, the jobs that
  write tasks and reports into the store, the custom-job registry and `QuestionGenerator`.
- `integrations.dfy` (`Integrations`): `MultiPlatformIntegrator` and `EnhancedRandyAI`.
  Vendor replies are inputs of type `Result<string, string>`.

Some modelling choices need stating:

- **Memory table order.** SQLite returns rows in an unspecified order. The model fixes rowid
  order. `INSERT OR REPLACE` deletes the old row and appends a new one, so a fresh
  `load_memory` puts an overwritten key last. The running instance's dict keeps the key in its
  old place.
- **Task ids.** They are rowids; since nothing is deleted, an id is the last id plus one.
- **Pending order.** Tasks come by priority descending, then due date ascending with no due
  date first (SQLite's NULL order). The source leaves ties open; the model breaks them by id
  ascending, which is creation order.
- **Time.** Every operation reads the clock once. The instant and its `isoformat`/`strftime`
  renderings are fields of a `Clock` parameter.

## Model

| member | source | states |
|---|---|---|
| Prelude.DaysBetween | core/randy_ai.py:234-235 | `timedelta.days` is the floor of the difference in whole days |
| Prelude.NatToString | autonomous/scheduler.py:328 | `str(n)` of a natural number is a non-empty string of decimal digits |
| Prelude.ParseRendered | autonomous/scheduler.py:328 | reading back the decimal rendering of `n` gives `n` |
| Prelude.NatToStringInjective | autonomous/scheduler.py:328 | distinct numbers render as distinct strings |
| Prelude.PrefixedNumbersDistinct | autonomous/scheduler.py:328 | `prefix + str(m)` and `prefix + str(n)` differ when `m != n`, so custom job ids never collide |
| Prelude.Lower | autonomous/scheduler.py:94 | `str.lower` keeps the length, lowers each upper-case letter and keeps every other character |
| Prelude.LowerConcat | autonomous/scheduler.py:397 | lowering distributes over concatenation |
| Prelude.Title | integrations/multi_platform.py:313 | `str.title` keeps the length and every non-letter; a letter at the start or after a non-letter is upper-cased, a letter after a letter is lower-cased |
| Prelude.TitleAfterShape | integrations/multi_platform.py:313 | the same per-character rule for the rest of a string, given whether the character before it is a letter |
| Prelude.ContainsAcrossBoundary | autonomous/scheduler.py:397-402 | an all-letter word occurs in `a + b` iff it occurs in `a` or in `b`, when a non-letter sits at the seam |
| Prelude.NoLetterNoMatch | autonomous/scheduler.py:397-402 | a word that starts with a letter occurs in no text made only of non-letters |
| Prelude.Split | autonomous/scheduler.py:336 | `str.split(sep)` yields at least one piece, and no piece holds the separator |
| Prelude.SplitJoin | autonomous/scheduler.py:336 | joining the pieces with the separator gives the string back |
| Prelude.SplitNoSep | autonomous/scheduler.py:336 | a string without the separator is a single piece |
| Prelude.SplitAround | autonomous/scheduler.py:336 | splitting `a + sep + b` gives the pieces of `a` followed by the pieces of `b` |
| Dicts.Last | autonomous/scheduler.py:394 | `s[-n:]` has `min(n, len(s))` elements and is a suffix of `s` |
| Dicts.Dict.Put | core/randy_ai.py:131 | `d[k] = v`: `k` maps to `v` and every other key is unchanged; a present key keeps its place and the size, a new key is appended |
| Dicts.Dict.LastEntries | integrations/multi_platform.py:164 | `dict(list(d.items())[-n:])` holds exactly the last `n` keys in insertion order, with their values |
| Dicts.Empty | integrations/multi_platform.py:201 | `{}` has no entries |
| PyValues.Encode | core/randy_ai.py:122 | a dict or list is written as JSON text that parses back to it; a string is written as itself |
| PyValues.Decode | core/randy_ai.py:108-113 | the parsed value when the text is JSON, the text itself when `json.loads` raises |
| PyValues.Reloaded | core/randy_ai.py:103-122 | a dict or list the JSON library can write survives save-then-load unchanged, and every dict or list without a float inside is such a value; a string survives only when it is not itself valid JSON, otherwise it comes back as the value it spells |
| Store.WithoutKey | core/randy_ai.py:124-126 | the replace half of `INSERT OR REPLACE` removes exactly the rows with that key |
| Store.WithoutKeyUnique | core/randy_ai.py:55-63 | removing a key keeps the `UNIQUE` key column unique |
| Store.SaveRow | core/randy_ai.py:124-126 | the new row is last, the rows before it are the old rows without that key, and the key set gains the key |
| Store.SaveRowUnique | core/randy_ai.py:55-63 | `INSERT OR REPLACE` keeps the key column unique |
| Store.LoadRows | core/randy_ai.py:103-113 | loading rows into a dict yields a well-formed dict |
| Store.LoadRowsKeys | core/randy_ai.py:103-113 | the loaded dict holds exactly the old keys plus the row keys |
| Store.LoadInto | core/randy_ai.py:108-113 | the loop leaves the dict equal to loading every row, in row order, over the dict it started from |
| Store.LoadRowsGet | core/randy_ai.py:108-113 | each loaded key holds the decoded text of its row, or the raw text when it is not JSON; other keys are untouched |
| Store.LoadRowsOrder | core/randy_ai.py:108-113 | a fresh load lists the keys in row order |
| Store.SaveThenReload | core/randy_ai.py:103-131 | after a save, a fresh instance reads the reloaded value under the key, and the key comes last in its memory |
| Store.FlagAndStampSurviveReload | tests/test_randy_ai.py:414-429 | a dict of a boolean and a timestamp string, saved by one instance, is exactly what a fresh instance reads under its key |
| Store.RowsOf | core/randy_ai.py:138-140 | the learning table rows are the log's input, output and score, one per record in order |
| Store.Recent | core/randy_ai.py:234-235 | the records younger than `days` whole days are kept, and no others |
| Store.NextId | core/randy_ai.py:189-193 | the next rowid is positive and larger than every existing id |
| Store.AddTask | core/randy_ai.py:189-197 | exactly one row is appended: the next id, status pending, the given fields; earlier rows are unchanged and ids stay increasing |
| Store.AddTasksShape | core/randy_ai.py:189-193 | inserting several tasks appends one row each, keeps the old rows, and advances the next id by their number |
| Store.AddTasksIds | core/randy_ai.py:189-193 | inserting several tasks keeps the ids increasing |
| Store.AddTasksRows | core/randy_ai.py:189-193 | the `i`-th inserted task gets id `next + i`, status pending and its own fields |
| Store.PendingRows | core/randy_ai.py:204-206 | the pending filter keeps exactly the rows with status pending |
| Store.PendingRowsIds | core/randy_ai.py:204-206 | the pending rows keep their ids increasing |
| Store.PendingRowsAppend | core/randy_ai.py:189-206 | a new pending task joins the pending rows at the end |
| Store.Insert | core/randy_ai.py:206 | inserting into the queue adds exactly that task |
| Store.QueueSort | core/randy_ai.py:206 | sorting is a permutation |
| Store.InsertOrdered | core/randy_ai.py:206 | inserting into an ordered queue keeps it ordered |
| Store.QueueSortOrdered | core/randy_ai.py:206 | the sort yields priority descending, then due ascending with none first, then id |
| Store.QueueOrderUnique | core/randy_ai.py:206 | two ordered arrangements of the same tasks are equal, so the order is total |
| Store.PendingTasks | core/randy_ai.py:204-207 | the query's result is a permutation of the pending rows |
| Store.PendingTasksSpec | core/randy_ai.py:199-221 | `get_pending_tasks` is ordered, holds exactly the pending tasks, and is the only ordered arrangement of them |
| Store.CreatedTaskIsListed | core/randy_ai.py:183-221 | a created task is listed as pending with its title and priority, and the pending count grows by one |
| Store.HighPriority | core/randy_ai.py:242 | the high-priority filter keeps exactly the tasks of priority at least 8 |
| Store.Titles | core/randy_ai.py:245-246 | one title per task, in order |
| Store.Take | core/randy_ai.py:245 | `s[:n]` is the prefix of length `min(n, len(s))` |
| Store.HighPriorityTitles | core/randy_ai.py:242-247 | at most three titles, the first high-priority ones in pending order, and none exactly when no pending task has priority 8 or more |
| Store.RandyAI.Open | core/randy_ai.py:39-47 | a new instance on a file has the default profile, the memory loaded from the file and an empty learning list |
| Store.RandyAI.LoadMemory | core/randy_ai.py:103-115 | the loop leaves `memory` equal to loading every row in order over the old dict |
| Store.RandyAI.SaveMemory | core/randy_ai.py:117-131 | the table gets the encoded row under the key (category "general" unless given), the dict gets `memory[key] = value`, and nothing else changes |
| Store.RandyAI.LearnFromInteraction | core/randy_ai.py:133-150 | exactly one row and one record are appended with the given fields, the success defaulting to 1.0; earlier ones are unchanged |
| Store.RandyAI.CreateTask | core/randy_ai.py:183-197 | the returned id is the new row's, larger than every existing id, and the table gains exactly that row; the description defaults to "" and the priority to 5 |
| Store.RandyAI.GetPendingTasks | core/randy_ai.py:199-221 | the result is ordered and holds exactly the pending tasks |
| Store.DailyReport | core/randy_ai.py:223-249 | the report starts with the header of the date and the three counts, and is nothing more exactly when no pending task has priority 8 or more |
| Store.RandyAI.DailyUpdate | core/randy_ai.py:223-249 | the report states the pending count, the day's learning count and the memory size, then the high-priority titles |
| Store.RandyAI.GetStatus | core/randy_ai.py:289-297 | the counts are the memory size, the learning list length and the number of pending rows; the preferences are the profile |
| Scheduler.LearningRecommendations | autonomous/scheduler.py:155-174 | never empty: three items led by the simpler-tasks advice below 0.6, three items including more complex challenges above 0.8, and exactly the maintain-pace item iff the rate is in [0.6, 0.8] |
| Scheduler.DueAgain | autonomous/scheduler.py:263-295 | not due exactly when the stored value is a non-empty string that parses and less than the period in whole days has passed |
| Scheduler.ShouldOptimizeCode | autonomous/scheduler.py:263-274 | not due exactly when "last_code_optimization" holds a parsable instant less than 7 whole days old |
| Scheduler.ShouldExpandIntegrations | autonomous/scheduler.py:284-295 | not due exactly when "last_integration_expansion" holds a parsable instant less than 30 whole days old |
| Scheduler.ShouldEnhanceLearning | autonomous/scheduler.py:276-282 | due exactly when fewer than five records are less than three whole days old; so in particular when the log has fewer than five records or none is that recent |
| Scheduler.FiveFreshRecordsSuffice | autonomous/scheduler.py:276-282 | five records less than three days old, appended to any log, turn learning enhancement off |
| Store.RecentAppend | autonomous/scheduler.py:278-279 | the recent filter distributes over appending to the log |
| Store.RecentCount | autonomous/scheduler.py:278-279 | the filter keeps exactly one record per position whose record is younger than the given number of days |
| Scheduler.ImprovementAreas | autonomous/scheduler.py:230-261 | each fixed area is listed iff its heuristic says so, in the fixed order, at most three |
| Scheduler.ImprovementTasks | autonomous/scheduler.py:205-211 | one task per area: "Improve: " + title, its description and priority, due `due_hours` after now |
| Scheduler.ImprovementReport | autonomous/scheduler.py:213-217 | the report counts the areas and carries the timestamp |
| Scheduler.AdaptiveTasks | autonomous/scheduler.py:89-109 | at most two tasks: the GitHub review iff the lowered insights contain "github", the learning session iff they contain "learning", in that order |
| Scheduler.SumSuccessBounds | autonomous/scheduler.py:135 | for scores taken as exact reals, their sum lies between count × lowest and count × highest |
| Scheduler.MeanSuccessBounds | autonomous/scheduler.py:135 | the exact mean of the scores lies between the lowest and the highest score |
| Scheduler.LearningReport | autonomous/scheduler.py:137-142 | the report counts the analysed interactions, carries the exact mean of their scores and the recommendations for that mean |
| Scheduler.InterestQuestion | autonomous/scheduler.py:404-405 | the interest question ends with '?' |
| Scheduler.ListRepr | autonomous/scheduler.py:394-397 | `str(keys)` is bracketed, and is "[]" exactly for the empty list |
| Scheduler.ContextualQuestion | autonomous/scheduler.py:388-405 | every question ends with '?' |
| Scheduler.LowerReprItems | autonomous/scheduler.py:397 | lowering the list's text is the text of the lowered keys |
| Scheduler.QuoteContains | autonomous/scheduler.py:397 | quoting a key neither adds nor removes occurrences of a word |
| Scheduler.ReprItemsContains | autonomous/scheduler.py:397-402 | a word occurs in the joined list text iff it occurs in one of the keys |
| Scheduler.ReprMentions | autonomous/scheduler.py:397-402 | the substring test on `str(list).lower()` is the same as asking whether some lowered key contains the word |
| Scheduler.QuestionByKeys | autonomous/scheduler.py:388-405 | the question is picked by the first of "car", "ai", "gig"/"uber" that one of the last five keys contains, else by interest |
| Scheduler.DailyUpdateMentionsAi | autonomous/scheduler.py:399 | every "daily_update_…" key contains "ai" |
| Scheduler.DailyUpdateKeyAsksAboutAi | autonomous/scheduler.py:394-400 | a daily-update key among the last five, with no "car" key, makes the question the AI one |
| Scheduler.WeeklySpecParts | autonomous/scheduler.py:335-337 | a day and a time without spaces, joined by one space, split into exactly that day and that time; a spec without a space is one word, which the weekly branch refuses |
| Scheduler.NextCustomId | autonomous/scheduler.py:328-345 | "custom_" + count is a new key, and adding it keeps the jobs numbered in order |
| Scheduler.AutonomousScheduler.constructor | autonomous/scheduler.py:18-40 | not running, no custom jobs, and the five default jobs registered |
| Scheduler.AutonomousScheduler.CreateImprovementTasks | autonomous/scheduler.py:204-211 | the loop inserts exactly the improvement tasks, in order, and changes nothing else |
| Scheduler.AutonomousScheduler.SelfImprovementCheck | autonomous/scheduler.py:199-223 | one task per identified area, then the report saved under the minute stamp |
| Scheduler.AutonomousScheduler.CreateAdaptiveTasks | autonomous/scheduler.py:89-109 | the task table gains exactly the adaptive tasks for the insights |
| Scheduler.AutonomousScheduler.PerformLearningAnalysis | autonomous/scheduler.py:128-148 | with no interactions nothing is written; otherwise the report on the last ten is saved under the minute stamp |
| Scheduler.AutonomousScheduler.AddCustomSchedule | autonomous/scheduler.py:326-347 | fails, changing nothing, exactly when the library or the weekly split raises; otherwise returns "custom_" + the old count, adds exactly that entry, and registers a job only for daily, hourly or weekly |
| Scheduler.QuestionGenerator.constructor | autonomous/scheduler.py:378-386 | the generator reads the given assistant |
| Scheduler.QuestionGenerator.GenerateContextualQuestion | autonomous/scheduler.py:388-405 | the question for the current memory keys and the chosen interest, ending with '?' |
| Integrations.IntegrationStatus | integrations/multi_platform.py:270-279 | one entry per registered platform in order; configured iff the key is non-empty, with the active flag and endpoint |
| Integrations.QueryPerplexity | integrations/multi_platform.py:85-117 | no request and the not-configured error iff the key is empty; otherwise the request carries the key and the prompt, and the result is the answer or the prefixed error |
| Integrations.SendToAbacus | integrations/multi_platform.py:119-153 | no request and the not-configured error iff the key is empty; otherwise the request carries the key and the JSON data, and the result is the processed text stamped now, or the prefixed error |
| Integrations.Respond | integrations/multi_platform.py:204-208 | an issued call yields an error result iff the vendor's reply failed |
| Integrations.IssuedAt | integrations/multi_platform.py:204-208 | a call goes out for a requested position iff its name is perplexity or abacus with a key, in request order |
| Integrations.Responses | integrations/multi_platform.py:204-211 | `gather` returns at most one response per requested name |
| Integrations.ResponsesFollowCalls | integrations/multi_platform.py:210-211 | the gathered responses correspond one to one, in order, to the calls issued |
| Integrations.Labelled | integrations/multi_platform.py:213-218 | results are stored only under requested names |
| Integrations.LabelledSlots | integrations/multi_platform.py:213-218 | with distinct names, slot `i` holds response `i` and names past the last response hold nothing |
| Integrations.LabelledSize | integrations/multi_platform.py:213-218 | there are no more result slots than responses |
| Integrations.Orchestrated | integrations/multi_platform.py:196-225 | the result echoes the query and the platform list, which defaults to perplexity and abacus |
| Integrations.SlotsAtMostCalls | integrations/multi_platform.py:201-218 | no more results than calls issued, and no results when no key is set |
| Integrations.AllIssued | integrations/multi_platform.py:204-208 | when every name gets a call, the calls are at every position |
| Integrations.AllIssuedLabelsMatch | integrations/multi_platform.py:204-218 | when every distinct name gets a call, each result sits under its own platform |
| Integrations.SkippedPlatformShiftsLabels | integrations/multi_platform.py:198-218 | with no Perplexity key and an Abacus key, the Abacus answer is filed under "perplexity" and nothing under "abacus" |
| Integrations.FiledSlots | integrations/multi_platform.py:204-218 | with distinct names, each of the first `n` names holds its own call's outcome and every later name holds nothing |
| Integrations.IntendedLabelsMatch | integrations/multi_platform.py:204-218 | with distinct names, each called platform holds its own answer and every other name holds nothing |
| Integrations.SkippedPlatformIntended | integrations/multi_platform.py:198-218 | in the misfiling scenario, the intended labelling files the answer under "abacus" |
| Integrations.IssueCalls | integrations/multi_platform.py:203-211 | the loop gathers exactly the responses of the calls issued, in request order |
| Integrations.LabelResponses | integrations/multi_platform.py:213-218 | the loop stores response `i` under the `i`-th requested name |
| Integrations.JoinedPrefix | integrations/multi_platform.py:310-313 | adding a new platform does not change what the earlier ones contribute |
| Integrations.JoinedPut | integrations/multi_platform.py:310-313 | adding a new platform appends what it contributes at the end |
| Integrations.Merged | integrations/multi_platform.py:306-315 | the merged text starts with the "Multi-Platform AI Response:" header, and is only the header for an empty results dict |
| Integrations.MergedPut | integrations/multi_platform.py:310-313 | a new platform's result adds what it contributes at the end of the merged text: its titled section, or nothing when it is an error |
| Integrations.ErrorAddsNothing | integrations/multi_platform.py:311 | an error result leaves the merged text unchanged |
| Integrations.AnswerAppendsSection | integrations/multi_platform.py:311-313 | a successful result appends its title-cased platform name, " Response:", its text and a blank line |
| Integrations.SectionsStep | integrations/multi_platform.py:310-313 | one more entry of the dict leaves the text unchanged for an error and appends that entry's section otherwise |
| Integrations.AppendSections | integrations/multi_platform.py:310-313 | the loop appends one section per non-error result, in dict order, to the text it starts from |
| Integrations.GetOr | integrations/multi_platform.py:158-161 | `d.get(k, default)` is the stored value when present and the default otherwise |
| Integrations.HandoffPackage | integrations/multi_platform.py:157-167 | each of name, description, code and requirements is the project value under that key when present, else "RandyAI_Project", "", "" and []; the profile, the clock's timestamp, the instructions and the type are carried over; the memory context is the last ten entries in insertion order with their values |
| Integrations.RewrittenOldKeyNotInContext | integrations/multi_platform.py:164 | a key rewritten just now but first inserted more than ten keys ago is not in the memory context |
| Integrations.HandoffFile | integrations/multi_platform.py:170 | the handoff file name starts with "handoff_" and ends with ".json" |
| Integrations.MultiPlatformIntegrator.constructor | integrations/multi_platform.py:26-30 | the registry holds exactly perplexity, abacus and deepagent, in that order |
| Integrations.MultiPlatformIntegrator.SetupApis | integrations/multi_platform.py:32-65 | the three vendors are registered with their endpoints, empty keys and active; other entries are untouched |
| Integrations.MultiPlatformIntegrator.ConfigureApi | integrations/multi_platform.py:77-83 | true iff the service is registered; then its key is set in place and saved as "api_key_" + service; otherwise nothing changes |
| Integrations.MultiPlatformIntegrator.GetIntegrationStatus | integrations/multi_platform.py:270-279 | the loop builds exactly the integration status of the registry |
| Integrations.MultiPlatformIntegrator.OrchestrateMultiQuery | integrations/multi_platform.py:196-225 | the result of the fan-out, with no more results than calls issued |
| Integrations.MultiPlatformIntegrator.CreateSpaceConfig | integrations/multi_platform.py:227-245 | the config echoes name, personality and purpose, has owner "Randy Jordan", the profile's preferences and both flags set, and is saved under "space_config_" + name |
| Integrations.MultiPlatformIntegrator.HandoffToDeepAgent | integrations/multi_platform.py:155-185 | when the write fails, the prefixed error and nothing changes; otherwise the package is saved under "handoff_" + file name and the outcome reports the file, the package size and the message |
| Integrations.EnhancedRandyAI.constructor | integrations/multi_platform.py:285-287 | a fresh integrator over the same assistant, with the three vendors registered |
| Integrations.EnhancedRandyAI.ProcessMultiPlatformResults | integrations/multi_platform.py:306-315 | the loop builds exactly the merged text: the header, then one section per non-error result in dict order |

## Findings

| source | as written | input that shows it | evidently intended | confidence | as-written member | corrected member |
|---|---|---|---|---|---|---|
| integrations/multi_platform.py:213-218 | result `i` of the gathered calls is stored under `platforms[i]`, the `i`-th requested name, and not under the name whose call produced it | default platforms, Perplexity key empty, Abacus key set: the one result (Abacus's) is stored under "perplexity" and nothing under "abacus" | each result is stored under the platform that answered it | high; not executed | Integrations.SkippedPlatformShiftsLabels | Integrations.IntendedLabelsMatch |

The method `OrchestrateMultiQuery` keeps the behaviour as written, because that is what
callers such as `ProcessMultiPlatformResults` receive. `IntendedResults` is the corrected
labelling, and `SkippedPlatformIntended` replays the same input against it.

## Left out

- HTTP and response parsing (`aiohttp`, `requests`), `init_session` and `close_session`: each
  vendor reply is an input. The `tokens_used` usage field of Perplexity's answer is not modelled.
- The `isinstance(response, Exception)` branch of `orchestrate_multi_query`: both vendor
  functions call `init_session` before their `try`, so it is taken only when creating the HTTP
  session raises, and session creation is not modelled.
- The `platform_{i}` fallback label: there are never more responses than requested names, so it
  is never used.
- asyncio concurrency: `gather` is modelled as the sequential list of results in request order.
- The async loops and sleeps: `autonomous_operation`, `start_autonomous_scheduler`,
  `autonomous_question_cycle`, `start_autonomous_mode`. Their point is timers, not state.
- The `schedule` library's timing (`every().day.at`, `run_pending`, `next_run`). Only the
  registry bookkeeping is kept: whether the library accepts a day and time is a parameter.
  The library's registry is global in the source; here it is the `jobs` field of the scheduler.
- The jobs outside the modelled core: `generate_daily_update`, `generate_autonomous_insights`,
  `check_github_repos`, `cleanup_memory`, `get_completed_tasks_last_week`,
  `analyze_memory_growth`, `get_schedule_status`, `create_reminder`, `stop_scheduler`.
- `enhanced_query`, `sync_with_github`, `autonomous_platform_check`, `platform_health_check`,
  `perplexity_query`, `abacus_integration`, `process_urgent_task`, `pattern_analysis`: these are
  vendor calls, stubs, or compositions of modelled operations.
- The `except` branches that save "improvement_check_error" and "learning_analysis_error": they
  run only when the storage or the JSON library raises, and the model has no storage failure.
- The `integrations` table is created but never used by the code, so it is not modelled.
- Store.RandyAI.SaveMemory: the row's `timestamp` column is not modelled.
- Store.LearningRow: the learning table's `timestamp DATETIME DEFAULT CURRENT_TIMESTAMP` column
  (core/randy_ai.py:66-72) is not modelled; a row holds the input, the output and the score.
  The instant of each interaction is kept in the in-memory `LearningRecord` instead.
- Store.Task: the `created_at` text is not modelled; a task records the instant `now` instead.
  `due_date` is kept as an optional instant rather than SQLite's text rendering. Ids
  are unbounded naturals, so the 2^63 rowid limit is not modelled.
- Store.RandyAI.GetStatus: `last_update` is the clock's `isoformat` text, taken as given.
- Scheduler.AutonomousScheduler.SelfImprovementCheck: the source reads `datetime.now()`
  separately for each task, the report and its key. The model reads one instant, so all of them
  share it.
- Scheduler.AutonomousScheduler.AddCustomSchedule: two source behaviours are not promised.
  First, `function.__name__` is read at autonomous/scheduler.py:342, after `.do(function)` has
  registered the job; a callable without `__name__` raises there with the job registered and
  `self.tasks` unchanged, whereas the model's job function is a name, so this failure never
  happens. Second, `getattr(schedule.every(), day.lower())` at :337 also accepts the library's
  unit names, so "day 10:00" registers a daily job; the model records it as a weekly job on
  `OnWeekday("day")`, and whether the library accepts the word is the `accepted` input.
- Scheduler.SumSuccessBounds: success scores are exact reals. The rounding of Python's float
  sum is not modelled, so the bound describes the exact sum: in floats, three scores of 0.1
  sum to 0.30000000000000004, above 3 × 0.1.
- Scheduler.MeanSuccessBounds: describes the exact mean. Python's float mean of three scores of
  0.1 is 0.10000000000000002, above the highest score.
- Scheduler.LearningReport: `average_success` is the exact mean, not the float sum divided by
  the count (autonomous/scheduler.py:135). For three interactions scored 0.8, Python computes
  0.8000000000000002, which passes the `> 0.8` test at autonomous/scheduler.py:165 and yields
  the three stretch recommendations; the model's mean is exactly 0.8 and yields MaintainPace.
- Scheduler.AutonomousScheduler.PerformLearningAnalysis: saves LearningReport, so the saved
  average and recommendations carry the same exact-mean gap as the line above.
- Prelude.Lower and Prelude.Title: ASCII only. Python's Unicode case mapping is not modelled.
- Scheduler.ContextualQuestion: the list text is modelled as `['k1', 'k2']`, with every key in
  single quotes and its characters as they are. That is Python's `str(list)` only for keys of
  printable characters without quotes or backslashes. Python escapes a non-printable character
  (`chr(0x8a) + "i"` becomes `'\x8ai'`), and the escape can put a keyword such as "ai" or "car"
  into the text. The three members below therefore describe Python only when the last five
  keys are of that kind.
- Scheduler.ListRepr: `str(list)` without Python's escapes, as stated in the line above.
- Scheduler.QuestionByKeys: keyword matches are stated for keys without escapes only.
- Scheduler.ReprMentions: the per-key reading of the substring test holds for keys without
  escapes only.
- Integrations.Responses: its own contract bounds only the count. Integrations.ResponsesFollowCalls
  pairs each response with the call that produced it.
- Scheduler.ContextualQuestion: `random.choice(interests)` is the index `pick` of the chosen
  interest. The source raises on an empty interest list; here a valid `pick` is required.
- PyValues.JsonCodec: `json.dumps`, `json.loads` and `str()` are a given codec. What is assumed
  about it: the round trip for the values it can write, that every value without a float is
  such a value, and that `str` of a string is that string.
- PyValues.Reloaded: a dict or list holding a float is promised to come back only when the codec
  can write it, because float formatting is not modelled. The law for values without floats
  does not exclude integers beyond the digit limit of Python's integer-to-text conversion.
- Integrations.MultiPlatformIntegrator.HandoffToDeepAgent: the file write (`json.dump` with
  indentation) is not modelled; whether it raises is the `writeError` input.
- main.py (the interactive shell) and setup.py (packaging) are not part of this model.
