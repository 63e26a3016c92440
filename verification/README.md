# Daily plans, reminders and project sync of the Telegram project bot

This project is a Dafny model of the sequential core shared by the two
versions of the project-monitoring Telegram bot, `bot.py` and its optimised
copy `bot3.py`. Telegram, the Google Sheets client, SQLite, the JSON file
and the clock are abstracted away; what remains is modelled and proved:

- **The daily plan store `DailyPlans`.** It is a nested, insertion-ordered
  dictionary: date key → owner → list of plans.
  - `assoc.dfy` gives the dictionary semantics.
  - `plan_store.dfy` gives one specification function per operation, with
    its lemmas.
  - `plan_queries.dfy` holds the whole-store queries.
  - `daily_plans.dfy` holds the class whose methods mutate `data` and are
    proved to compute those functions.
  - The invariant all operations keep: keys are unique at both levels, no
    date is empty, and the ids of every owner's list are 1..n.
- **The due-date reminder sweep** (`reminders.dfy`), in both variants: the
  one-by-one loop of `bot.py` and the collect-then-gather of `bot3.py`.
  Sending is an oracle. A plan is marked `notified` only after a delivered
  send.
- **The report schedulers** (`scheduler.dfy`):
  - `bot.py`'s if/elif dispatch;
  - `bot3.py`'s slot table deduplicated by `last_check_time`, which also
    clears the cache on ":00" and ":30".
- **`bot3.py`'s connection pool `DatabaseManager`** (`pool.dfy`) and its
  result cache `cache_decorator` over the shared `TTLCache` (`memo.dfy`).
- **The spreadsheet-to-SQLite sync** (`sync.dfy`) of both bots:
  - `bot.py` writes all rows or none.
  - `bot3.py` skips unreadable rows, caps every text, keeps the table when
    nothing survives, and is itself memoised.
- **Pure helpers:**
  - `safe_text` (`safe_text.dfy`);
  - `pager` and `get_size_type_simple` (`helpers.dfy`);
  - `parse_date` as an ordered list of `strptime` formats (`dates.dfy`, on
    `decimal.dfy` and `text.dfy`);
  - the "text | date" plan entry (`plan_input.dfy`);
  - the HTML escape (`escape.dfy`);
  - list sorting (`sorting.dfy`).

Owners are the integer user ids. `str(user_id)` is injective, and every
owner key is written by `add_plan`. Whether a viewer is an admin is
`IsAdmin(viewer, admins)`: a viewer id that is present and non-zero, in the
admin set. A plan returned by a query is named by its position
`Loc(date, owner, plan)` wherever the source later mutates the returned
dict.

## Model

| member | source | states |
|---|---|---|
| Assoc.GetPut | bot.py:85-102 | reading a dictionary after an assignment gives the assigned value at that key and the old value elsewhere |
| Assoc.PutPut | bot.py:85-102 | a second assignment to a key overrides the first |
| Assoc.SetDefault | bot.py:85-89 | creating a missing key with its default changes neither what the key reads nor what a later assignment leaves |
| Assoc.PutNoDup | bot.py:85-102 | assigning to a dictionary never creates a second entry for a key |
| Assoc.RemoveNoDup | bot.py:286-288 | deleting a key never creates a duplicate key |
| Assoc.GetRemove | bot.py:286-288 | after `del d[k]` the key is gone and every other key reads and exists as before |
| Text.Strip | bot.py:1690 | `str.strip()` never lengthens the text and leaves no whitespace at either end |
| Text.StripTrims | bot.py:1690 | the stripped text is the input with a run of whitespace cut off each end and nothing else taken out; with `Text.Strip`'s ends this is exactly the input without its leading and trailing whitespace |
| Text.StripIdempotent | bot.py:1706-1707 | stripping twice is stripping once |
| Text.Lower | bot.py:346 | `str.lower()` keeps the length, leaves no capital of the modelled blocks, changes every such capital and keeps every other character |
| Text.LowerUzbek | bot.py:346-350 | the Uzbek Cyrillic capitals Қ, Ғ, Ҳ and Ў fold to қ, ғ, ҳ and ў, so a capitalised size cell still matches its keyword |
| Text.Find | bot.py:1703-1704 | the index reported is the first occurrence; there is none exactly when the character is absent |
| Text.SplitJoin | bot.py:381 | `strptime`'s fields are separated by the format's separator: splitting fields joined at a separator that no field contains gives the fields back |
| Text.Split | bot.py:381 | cutting a date text into `strptime` fields at the format's separator gives at least one field, and no field holds the separator |
| Text.FindAt | bot.py:1703-1704 | the first occurrence of the character is where `Find` reports it |
| Text.StripNoop | bot.py:1706-1707 | a text with no whitespace at either end is left as it is |
| Text.LowerIdempotent | bot.py:346 | lower-casing twice is lower-casing once |
| Text.Replace | bot.py:3803 | `str.replace` removes every occurrence of a character its replacement does not contain |
| Text.ReplaceNoop | bot.py:3803 | replacing a character that does not occur changes nothing |
| Text.ReplaceKeepsOut | bot.py:3803 | replacing never introduces a character that neither the text nor the replacement holds |
| Decimal.ValuePad | bot.py:466 | a zero-padded number reads back as the number when it fits the width |
| Decimal.Pad | bot.py:466 | a zero-padded rendering has exactly the width and only digits |
| Dates.ParseWith | bot.py:381 | a single `strptime` format parses only valid calendar dates |
| Dates.FirstMatch | bot.py:379-385 | a date read by any format is a valid calendar date |
| Dates.FirstMatchSpec | bot.py:379-385 | the first match is the parse of some format, and every earlier format fails; there is none exactly when every format fails |
| Dates.FirstMatchAt | bot.py:379-383 | the result is the parse of the first format that succeeds |
| Dates.ParseDate | bot.py:365-385 | the loop of `parse_date` returns None for missing or empty input, otherwise the first successful parse |
| Dates.RenderParse | bot.py:466 | a date written with a four-digit-year pattern reads back as the same date |
| Dates.BotParsesIso | bot.py:373-377 | `bot.py`'s `parse_date` reads its own `%Y-%m-%d` form back as the same date |
| Dates.IsoHasNoDotOrSlash | bot.py:466 | a `%Y-%m-%d` rendering holds neither '.' nor '/' and has no surrounding whitespace |
| Dates.BotReadsSlashedDayFirst | bot.py:373-374 | a `%d/%m/%Y` string is read day first by `bot.py` |
| Dates.BotReadsDayFirst | bot.py:373-376 | "01/02/2024" is read as 1 February 2024 |
| Dates.Bot3RejectsIso | bot3.py:575-578 | `bot3.py`'s formats reject every ISO `YYYY-MM-DD` string |
| Dates.Bot3ParsesDotted | bot3.py:575-611 | `bot3.py` reads its own `%d.%m.%Y` form back as the same date |
| Dates.Bot3NeedsDotOrSlash | bot3.py:575-578 | a string with neither '.' nor '/' never parses in `bot3.py` |
| Dates.RepeatedFormatIrrelevant | bot3.py:576 | a format repeating an earlier one never changes the first match |
| Dates.DropFailing | bot3.py:580-584 | a format that fails on the input can be dropped from the list |
| Dates.Bot3DuplicateHarmless | bot3.py:576 | `bot3.py`'s list behaves as the list without its duplicate `%d.%m.%Y` |
| Dates.IsValidDateSpec | bot.py:387-393 | `is_valid_date` accepts every `yyyy-mm-dd` rendering and rejects the `dd.mm.yyyy` one |
| Helpers.Pager | bot.py:554-561 | at most one row; "previous" exactly when page > 0; "next" exactly when (page+1)·PAGE_SIZE < total; previous before next |
| Helpers.PagerNextUntilLastPage | bot.py:559-560 | "next" is offered exactly on the pages before the last one |
| Helpers.SizeTypeSimple | bot.py:341-353 | None for a missing cell; "kichik" exactly when the lower-cased text mentions кичик; otherwise "orta" exactly when it mentions ўрта or орта; otherwise "yirik" exactly when it mentions йирик; None when no keyword occurs |
| Helpers.SizeTypeIgnoresCase | bot.py:346 | the class does not depend on letter case |
| Helpers.SizeTypeSmallFirst | bot.py:347-352 | keyword precedence: a text mentioning йирик is large only when it mentions neither кичик nor a medium keyword |
| Helpers.SizeTypeCapitalised | bot.py:346-350 | capitalised Cyrillic "Ўрта" is medium |
| Truncation.KeptLongest | bot3.py:524-530 | the kept prefix is the longest prefix whose costs (length + 1) fit the budget |
| Truncation.Kept | bot3.py:524-530 | the number of lines kept never exceeds the number of lines |
| Truncation.Terminated | bot.py:338 | the text of newline-terminated lines is exactly as long as their cost |
| Truncation.BotSafeText | bot.py:331-339 | `bot.py`'s loop keeps the longest prefix fitting `MAX_TEXT + 1` and appends its marker exactly when a line was dropped |
| Truncation.Bot3SafeText | bot3.py:516-532 | `bot3.py`'s loop returns "" for no lines, else the longest prefix fitting `MAX_TEXT` joined by newlines, plus the marker as a further line exactly when a line was dropped |
| Truncation.BotNoCutWhenFits | bot.py:334-338 | when every line fits, all are kept, newline-terminated, with no marker |
| Truncation.BotSafeTextBound | bot.py:335-338 | `bot.py`'s text is at most `MAX_TEXT + 1` plus the marker long |
| Truncation.Bot3SafeTextBound | bot3.py:524-532 | `bot3.py`'s text is at most `MAX_TEXT` plus the marker long |
| Truncation.Bot3MarkerIffCut | bot3.py:526-528 | the marker is added exactly when the lines' total cost exceeds `MAX_TEXT` |
| PlanInput.PlanEntrySpec | bot.py:1689-1736 | the message is refused exactly when its stripped text is shorter than 3; without a bar the whole stripped text is the plan, with no due date; with a bar the decision is the one `PlanInput.BarEntry` states for the first bar; a plan text never holds the bar |
| PlanInput.BarEntry | bot.py:1703-1727 | for a message split at its first bar: the date is refused exactly when every due-date format fails on the stripped text after the bar; otherwise the plan is the stripped text before the bar, and the due date is the `%Y-%m-%d` rendering of the first format that reads it, every earlier format failing |
| PlanInput.ReadPlanInput | bot.py:1689-1739 | the handler's split and date loop compute the decision |
| PlanInput.EntryOfBar | bot.py:1703-1723 | with a bar and a readable date, the plan is the stripped text before the first bar and the due date is its `%Y-%m-%d` form |
| PlanInput.IsoEntryRoundTrip | bot.py:1712-1723 | "text|yyyy-mm-dd" is stored with that text and that date |
| PlanInput.DottedEntryStoredIso | bot.py:1712-1723 | "text|dd.mm.yyyy" is stored with the same date in `%Y-%m-%d` form |
| PlanInput.EmptyTextAccepted | bot.py:1692-1706 | the length check applies to the whole message: "|yyyy-mm-dd" adds a plan with empty text |
| PlanInput.SplitsAtBar | bot.py:1703-1707 | text without a bar, then a bar, then a tail, is split at that bar into exactly the text and the tail |
| PlanInput.IsoDueFirst | bot.py:1712-1720 | the first due-date format reads a `%Y-%m-%d` date back as the same date |
| PlanInput.DottedDue | bot.py:1712-1720 | a `%d.%m.%Y` date fails the first format and is read as the same date by the second |
| PlanInput.TypedStripped | bot.py:1690-1692 | a message of non-blank text, a bar and a rendered date has nothing to strip and passes the length check |
| PlanInput.TypedDate | bot.py:1707 | the part after the bar of such a message is exactly the rendered date |
| Markup.EscapeAsWritten | bot.py:3803-3811 | the replacement chain as written leaves no '<' or '>' |
| Markup.EscapeAsWrittenDoubleEscapes | bot.py:3803 | as written, "<" becomes "&amp;lt;", which a reader sees as "&lt;" |
| Markup.LessThanEscaped | bot.py:3803 | the first replacement turns "<" into "&lt;" |
| Markup.AmpersandEscapedAgain | bot.py:3803 | the last replacement turns "&lt;" into "&amp;lt;" |
| Markup.UnescapeDoubled | bot.py:3803 | a reader of "&amp;lt;" sees "&lt;" |
| Markup.Escape | bot.py:3803-3811 | the corrected chain leaves no '<' or '>' |
| Markup.EscapeRoundTrip | bot.py:3803-3811 | the corrected chain loses nothing: unescaping gives the original text back |
| Markup.EscapeAppend | bot.py:3803-3811 | the corrected escape works character by character: escaping a concatenation concatenates the escapes |
| Sorting.SortByCorrect | bot.py:179 | `list.sort(key=...)` returns a sorted permutation, stable among equal keys |
| Sorting.LexTotal | bot.py:179 | any two sort keys are comparable |
| Sorting.LexTrans | bot.py:179 | the key order is transitive |
| Sorting.LexAntisym | bot.py:179 | keys ordered both ways are equal |
| Sorting.CodesInjective | bot.py:179 | strings with the same code sequence are the same string, so comparing codes compares strings |
| Sorting.SortedSame | bot3.py:478 | two sorted arrangements of the same elements are equal when the key tells elements apart |
| PlanStore.AddEffect | bot.py:80-104 | the id is the old list length + 1; an incomplete, unnotified plan is appended to the owner's list; every other list is unchanged |
| PlanStore.FindId | bot.py:234-235 | the index found is the first plan with the id; none is found exactly when no plan has it |
| PlanStore.FirstOwnerWith | bot.py:221-223 | the owner and index found are the first, in dictionary order, holding a plan with the id; none exactly when no owner holds one |
| PlanStore.FindIdDense | bot.py:266-267 | in a list numbered 1..n, the id is found exactly when 1 ≤ id ≤ n, at index id-1 |
| PlanStore.Renumber | bot.py:270-271 | renumbering keeps the length and numbers the list 1..n |
| PlanStore.CountCompleted | bot.py:312 | no more plans are completed than there are plans |
| PlanStore.TagPlansCount | bot.py:146 | tagging a list does not change how many plans are completed |
| PlanStore.AddPreservesWellFormed | bot.py:85-102 | adding keeps keys unique, dates non-empty and ids 1..n |
| PlanStore.ToggleTwice | bot.py:224-226 | toggling twice restores `completed`; `completed_at` is None again for a plan that started incomplete and the second time stamp for one that started complete |
| PlanStore.ToggleOwnerEffect | bot.py:230-242 | for an ordinary viewer: success exactly when the owner has that id; only that plan is flipped; a failure changes nothing; other lists are unchanged |
| PlanStore.ToggleAdminIgnoresOwner | bot.py:219-228 | for an admin, the result does not depend on `user_id`; the answer is true, the first plan with the id among the date's owners in dictionary order is flipped recording the viewer, every other plan of that list is unchanged, and every other (date, owner) list is unchanged |
| PlanStore.TogglePreservesWellFormed | bot.py:213-242 | toggling keeps the invariant |
| PlanStore.DeleteOwnerEffect | bot.py:261-275 | for an ordinary viewer: success exactly when 1 ≤ id ≤ n; the plan at id-1 is removed and the rest renumbered 1..n-1; failure changes nothing; other lists are unchanged |
| PlanStore.RenumberRemoveAt | bot.py:268-271 | after deletion the remaining plans keep their order, each numbered by its new position |
| PlanStore.DeleteVersionsAgree | bot3.py:397-430 | `bot3.py`'s exclusive admin branch has the same effect as `bot.py`'s fall-through |
| PlanStore.AdminMissImpliesOwnerMiss | bot.py:250-263 | when the admin search finds no plan with the id, neither does the owner search |
| PlanStore.DeletePreservesWellFormed | bot.py:256-271 | deleting keeps the invariant |
| PlanStore.ClearEffect | bot.py:277-300 | success exactly when the date and the owner exist; the owner's list is removed; the date remains exactly when it held another owner; other lists are unchanged; failure changes nothing |
| PlanStore.ClearAdminSameAsOwner | bot.py:283-298 | the admin branch has exactly the effect of the ordinary one |
| PlanStore.ClearPreservesWellFormed | bot.py:286-288 | clearing keeps the invariant |
| PlanStore.AdminSeesOwnerPlans | bot.py:115-120 | an admin's `get_plans` contains every owner's plans |
| PlanStore.TagEffect | bot.py:135-149 | `get_all_plans_for_admin` writes `owner_user_id` into that date's plans and changes nothing else |
| PlanStore.TagKeepsCompletion | bot.py:302-313 | tagging changes neither the number of plans nor the number completed |
| PlanStore.StatsMatchGetPlans | bot.py:302-313 | the counts are those of the plans `get_plans` shows the same viewer, with completed ≤ total |
| PlanQueries.DueTodaySound | bot.py:182-197 | every entry is an incomplete plan due today, reported with its owner and date, and no plan is listed twice |
| PlanQueries.DueTodayComplete | bot.py:187-195 | every incomplete plan due today, under any date and owner, is listed |
| PlanQueries.UpcomingOrdered | bot.py:178-180 | the upcoming list is a stable permutation of the collected entries, sorted by the due-date string |
| PlanQueries.UpcomingSound | bot.py:151-176 | every upcoming entry is a pending plan of its owner under its date, and the viewer's own unless the viewer is an admin |
| PlanQueries.UpcomingComplete | bot.py:156-176 | every pending plan the viewer may see is listed |
| PlanQueries.Upcoming3Sound | bot3.py:316-340 | `bot3.py` lists only the user's pending plans whose due date parses as `%d.%m.%Y`, each with that date, in calendar order |
| PlanQueries.Upcoming3Complete | bot3.py:322-336 | every pending plan of the user whose due text reads as `%d.%m.%Y` is listed, with that date, under the date key it was filed under |
| PlanQueries.Upcoming3DropsIso | bot3.py:327-336 | a due date in `bot.py`'s ISO form is dropped by `bot3.py` |
| PlanQueries.AllPlansTodayIgnoresViewer | bot.py:199-211 | every viewer receives today's whole bucket, every owner's plans included |
| PlanQueries.Bot3TodayKeyAsWritten | bot3.py:361 | the key as written holds no '.' |
| PlanQueries.Bot3TodayKey | bot3.py:267 | the key plans are stored under holds a '.' |
| PlanQueries.Bot3AllPlansTodayMissesToday | bot3.py:359-369 | right after a plan is added for today, the lookup as written finds nothing, while the intended lookup finds the plan's owner |
| Plans.RenumberPlans | bot.py:270-271 | the renumbering loop computes `Renumber` |
| Plans.CountDone | bot.py:312 | the count is the number of completed plans |
| Plans.DueOfDate | bot.py:188-195 | the two inner loops collect `DueInOwners` for one date |
| Plans.PendingOf | bot.py:170-176 | the inner loop collects the pending plans of one list |
| Plans.DatedPendingOf | bot3.py:325-336 | the inner loop collects the pending plans of one list whose due date reads as `%d.%m.%Y` |
| Plans.DailyPlans.constructor | bot.py:55-73 | the store is the loaded data, or empty when there is none |
| Plans.DailyPlans.AddPlan | bot.py:80-104 | new store and id as `AddSpec`; well-formedness is kept |
| Plans.DailyPlans.GetUserPlans | bot.py:125-133 | returns the owner's list for the date, or [] |
| Plans.DailyPlans.GetPlans | bot.py:106-123 | the owner's list for an ordinary viewer, all owners' lists concatenated for an admin |
| Plans.DailyPlans.GetAllPlansForAdmin | bot.py:135-149 | new store and result as `TagSpec`; well-formedness is kept |
| Plans.DailyPlans.GetUpcomingPlans | bot.py:151-180 | the loops and the sort compute `UpcomingSpec` |
| Plans.DailyPlans.GetUpcomingPlans3 | bot3.py:316-340 | the loops and the sort compute `Upcoming3Spec` |
| Plans.DailyPlans.GetTodayPlansWithDueDate | bot.py:182-197 | the triple loop computes `DueToday` |
| Plans.DailyPlans.GetAllPlansToday | bot.py:199-211 | returns `AllPlansTodaySpec` |
| Plans.DailyPlans.TogglePlan | bot.py:213-242 | new store and answer as `ToggleSpec`; well-formedness is kept |
| PlanStore.DeleteAdminEffect | bot.py:250-259 | for an admin viewer the answer does not depend on the `user_id` given; the first plan with the id, in owner order, is removed from its owner's list, which is renumbered, and every other list is unchanged |
| Plans.DailyPlans.DeletePlan | bot.py:244-275 | new store and answer as `DeleteSpec`; well-formedness is kept |
| Plans.DailyPlans.ClearPlans | bot.py:277-300 | new store and answer as `ClearSpec`; well-formedness is kept |
| Plans.DailyPlans.GetStats | bot.py:302-313 | store and counts as `StatsSpec`; well-formedness is kept |
| Reminders.CheckDueDates | bot.py:1788-1832 | the sends attempted are the unnotified due plans in list order; the store ends as `SweepSpec`, marking exactly the delivered ones |
| Reminders.SweepEntry | bot.py:1803-1832 | one loop step: an unnotified plan is attempted and marked only when delivered |
| Reminders.DeliveredAttempted | bot.py:1815-1828 | only attempted plans are ever marked as delivered |
| Reminders.CheckDueDatesGathered | bot3.py:2192-2242 | `bot3.py`'s collect-then-gather variant ends in the same store and attempts the same sends |
| Reminders.Unsent | bot3.py:2231-2238 | the task list is the due entries whose plan is not yet notified |
| Reminders.Gather | bot3.py:2202-2241 | each delivered task marks its plan; nothing else changes |
| Reminders.AttemptsExactly | bot.py:1797-1803 | a plan is attempted exactly when it is incomplete, due today and not yet notified |
| Reminders.SweepEffect | bot.py:1826-1828 | afterwards a plan is notified exactly when it was before or its send was delivered; nothing else changes |
| Reminders.NotifyOnce | bot.py:1803-1828 | the next sweep attempts exactly the plans the first attempted without delivering, so a delivered reminder never repeats |
| Reminders.SweepPreservesWellFormed | bot.py:1828 | the sweep keeps the store invariant |
| Scheduler.ClockInjective | bot.py:3999 | two `%H:%M` readings are equal only for the same hour and minute |
| Scheduler.ClockOnTheHour | bot.py:4012 | a reading ends in ":00" exactly on the hour |
| Scheduler.ClockDispatch | bot.py:3995-4018 | one job per tick: at 17:00 the problem report, at 19:00 the daily report, at any other HH:00 the due-date sweep, otherwise nothing |
| Scheduler.RunBotSchedule | bot.py:3997-4018 | the loop runs exactly the dispatched job on each tick |
| Scheduler.SlotTable | bot3.py:3385-3389 | 19:16, 19:17 and 19:18 name the problem, works and daily reports, and no other reading names one |
| Scheduler.SlotIn | bot3.py:3391 | the report found is the one paired with the reading; none exactly when no entry has that reading |
| Scheduler.TickFiresIff | bot3.py:3391-3392 | a report fires exactly when the reading is its slot and differs from `last_check_time` |
| Scheduler.SuccessDedupes | bot3.py:3395-3397 | after a report returns, further ticks in that minute fire nothing |
| Scheduler.FailureRetries | bot3.py:3396-3399 | after a report raises, the next tick in that minute fires it again |
| Scheduler.RunWithinMinute | bot3.py:3374-3401 | ticks within one slot minute fire the report until the first success; `last_check_time` becomes that minute exactly when one succeeded |
| Scheduler.RunLength | bot3.py:3374-3401 | the loop reports one outcome per tick |
| Scheduler.ReportScheduler.Tick | bot3.py:3376-3401 | one pass fires and updates as `TickSpec`, and clears the cache exactly on ":00" and ":30" |
| Scheduler.RunBot3Schedule | bot3.py:3374-3401 | the loop's fired reports and final `last_check_time` are `Run` |
| Pool.AcquireValid | bot3.py:83-91 | a handle taken is created and no longer idle; the idle list stays valid |
| Pool.ReleaseValid | bot3.py:93-99 | returning a handle keeps the idle list within `DATABASE_POOL_SIZE` and free of repeats |
| Pool.ReturnedIsReused | bot3.py:86-97 | the connection returned last is handed out next |
| Pool.FullPoolCloses | bot3.py:98-99 | a connection returned to a full pool is closed and nothing else changes |
| Pool.ExecuteReturnsConnection | bot3.py:101-137 | on success and on failure the connection goes back: the idle list is as before, or holds the one connection opened; one commit or rollback is recorded |
| Pool.DatabaseManager.constructor | bot3.py:77-81 | `__init__` runs `init_db` through the pool: afterwards one connection has been created, it is idle, one commit is recorded, the next `get_connection` reuses it, and the pool invariant holds |
| Pool.DatabaseManager.GetConnection | bot3.py:83-91 | new state and handle as `Acquire`; the pool invariant (within the cap, only created handles, no repeats) is kept, and the handle was created and is no longer idle |
| Pool.DatabaseManager.ReturnConnection | bot3.py:93-99 | new state as `Release`; for a handle taken and not yet given back, the pool invariant is kept |
| Pool.DatabaseManager.Execute | bot3.py:101-122 | new state and outcome as `ExecuteSpec`, and the pool invariant is kept |
| Pool.DatabaseManager.ExecuteQuery | bot3.py:101-122 | new state and outcome as `ExecuteSpec`, and the pool invariant is kept |
| Pool.DatabaseManager.ExecuteMany | bot3.py:124-137 | new state and outcome as `ExecuteSpec`, and the pool invariant is kept |
| Memo.KeyIgnoresKwargOrder | bot3.py:478 | calls whose keyword arguments differ only in order share a key |
| Memo.KeyStartsWithName | bot3.py:478 | the key starts with the function name, followed by '|' when anything follows |
| Memo.KeySeparatesFunctions | bot3.py:478-479 | differently named functions never share a key |
| Memo.LookupStored | bot3.py:220 | a stored value is readable for `CACHE_TTL` seconds and not after; other keys are unaffected |
| Memo.SecondCallHits | bot3.py:482-491 | within `CACHE_TTL` of a miss, a second call does not run the function and returns the first result |
| Memo.ExpiredCallRuns | bot3.py:220 | a call `CACHE_TTL` seconds or more after a miss runs the function again |
| Memo.TtlCache.constructor | bot3.py:220 | the cache starts empty |
| Memo.TtlCache.Clear | bot3.py:648 | `cache.clear()` empties the cache |
| Memo.TtlCache.Put | bot3.py:489 | the value is stored for `CACHE_TTL` seconds |
| Memo.TtlCache.Get | bot3.py:482-483 | answers `Lookup` |
| Memo.CachedCall | bot3.py:472-493 | result, whether the function ran and the new cache as `CallSpec`; the decorator's `ttl` plays no part |
| Sync.CappedIsPlainCut | bot3.py:614-627 | `bot3.py`'s text is `bot.py`'s cut to the column cap, never longer than the cap |
| Sync.Take | bot3.py:614-627 | slicing `[:n]` gives the prefix of length min(len, n) |
| Sync.Bot3RecordCutsBotRecord | bot3.py:613-628 | both bots fail on the same rows; otherwise `bot3.py` stores `bot.py`'s record with texts cut to the caps |
| Sync.MissingCellsGetSentinels | bot3.py:613-628 | in every one of the eleven text columns, by both bots, a missing cell is stored as "Nomalum" ("Yuq" for the problem column); a missing deadline as None |
| Sync.PresentCellsStripped | bot3.py:613-628 | in every one of the eleven text columns a present cell is stored stripped by `bot.py`, and stripped and cut to the column's cap (500, 200, 200, 100, 100, 200, 100, 500, 1000, 200, 200) by `bot3.py` |
| Sync.BotDueRoundTrip | bot.py:461-466 | a stored deadline reads back with `bot.py`'s formats as the cell did |
| Sync.Bot3DueRoundTrip | bot3.py:606-611 | a stored deadline reads back with `bot3.py`'s formats as the cell did |
| Sync.SurvivorsSound | bot3.py:604-632 | every surviving record is the record of a readable row and within the caps |
| Sync.SurvivorsComplete | bot3.py:604-632 | the record of every readable row survives |
| Sync.SurvivorsEmpty | bot3.py:630-634 | no record survives exactly when no row is readable |
| Sync.Bot3Normalise | bot3.py:603-632 | the loop skips raising rows and keeps the others' records in sheet order |
| Sync.Bot3SyncReplacesIffSurvivors | bot3.py:597-659 | with a readable row and both statements succeeding, the table becomes exactly the survivors and the cache is cleared; with none, table and cache are untouched |
| Sync.Bot3InsertFailureEmptiesTable | bot3.py:636-645 | a failed INSERT after the committed DELETE leaves the table empty and the cache as it was |
| Sync.Bot3SyncBody | bot3.py:597-662 | new table as `Bot3SyncSpec`; the cache is cleared exactly when it says so |
| Sync.SyncKeyIsName | bot3.py:478 | a call without arguments is keyed by the bare function name |
| Sync.SyncMemoisedWithinTtl | bot3.py:592-593 | after a sync ran, a further call within `CACHE_TTL` seconds changes nothing; after a replacing sync the cache holds only the sync's own entry |
| Sync.SyncSheetsToDb | bot3.py:592-662 | table, cache and whether the body ran as `MemoisedSyncSpec` |
| Sync.BotRecordsIffReadable | bot.py:458-484 | `bot.py` has records exactly when every row is readable |
| Sync.BotRecordsInOrder | bot.py:458-484 | one record per row, in sheet order |
| Sync.EmptySheet | bot.py:454-495 | an empty sheet empties `bot.py`'s table, while `bot3.py` keeps it |
| Sync.BotRowFailureAborts | bot.py:449-510 | one unreadable row leaves `bot.py`'s table unchanged |
| Sync.BotSync | bot.py:449-510 | new table as `BotSyncSpec` |
| Sync.BotPrefixFails | bot.py:459-484 | once a prefix of the sheet fails, the whole cycle fails |

## Left out

- Telegram, the Google Sheets client, SQLite and the JSON file are not modelled.
  - A send's success is an oracle.
  - A sheet is a list of rows of cells.
  - The table is a list of records.
  - Saving is not modelled.
- Threads, locks and background saves are not modelled; every operation runs alone. `asyncio.gather` runs its tasks one after the other. Each task marks only its own plan, so the order does not change the result.
- `datetime.now` and the time zone are parameters: `today`, `now` and the `%H:%M` reading.
- `USERS` and its roles become the `admins` set.
- md5 in the cache key is not modelled; the key is the joined text. `TTLCache`'s `maxsize` eviction is not modelled either.
- Reading a missing key while the live entry has just expired is not separated from ordinary expiry.
- Floating point is not modelled: `fmt`, `convert_to_float`, and `total_value`/`yearly_value`, which are kept as raw cells.
- The SQL reports and statistics queries are not modelled, nor the row counts logged after a sync.
- Sync.Bot3SyncBody: the DELETE and INSERT of `bot3.py`'s sync are not routed through the `Pool` model. Their success is given by `deleteOk`/`insertOk`.
- Handlers, keyboards, message texts, the PDF and pandas reports, and `sync_daily_works_to_db` are not modelled.
- `bot.py`'s duplicate later handler definitions are not modelled.
- Only ASCII digits are modelled. `strptime`'s `\d` also accepts other Unicode digits, which the model does not cover.
- Text.Lower: folds only ASCII A–Z, Latin-1 U+00C0–U+00DE except U+00D7, Cyrillic U+0400–U+042F, and the capital/small pairs of Cyrillic Supplement U+0460–U+052F (Қ, Ғ, Ҳ, Ў among them; U+04C0 folds to U+04CF). Greek, Latin Extended, Armenian and every other script are left as they are; the bots only look for Cyrillic keywords.
- Pool.DatabaseManager.ReturnConnection: requires a handle that this manager handed out and that is not idle. `return_connection` itself does not check this, so a caller that returns a connection twice (which the code never does) is outside the model.
- Pool.DatabaseManager.constructor: an `init_db` that raises (no rollback, the error propagates out of `__init__`) is not modelled; the constructor assumes the table creation commits.
- Sync.Readable: a row on which any cell conversion raises is modelled as a row too short to hold the due-date column `muammo_muddati`, the highest index read. Every row of a sheet has the same width, so this stands for "some row raises" and not for one particular failure.
- `strftime`'s padding of years below 1000 is not modelled; those years are rendered with four digits.
- The urgent reminder block of `check_due_dates` (bot.py:1834-1880), which re-reads `get_upcoming_plans` for plans 1 to 3 days from their due date and only sends messages, is not modelled.
- The daily report and statistics texts built on the dict returned by `get_all_plans_today` (bot.py:651, bot.py:3890, bot3.py:3254) are not modelled; the dict itself is (`PlanQueries.AllPlansTodaySpec`).
- Dates.ParseDate: a non-string cell (`str()` of a number or timestamp) is not modelled; the value is the cell's text.
- Plans.DailyPlans.GetUpcomingPlans3: the sort key `datetime.max.date()` of entries without a parsed date never applies, because such entries are dropped.

Behaviour modelled as the code does it:

- `bot3.py`'s scheduler sets `last_check_time` only after a report returns (bot3.py:3395-3396). A report that raises is therefore retried on the next tick of the same minute; it is not skipped for the day (`Scheduler.FailureRetries`).
- `bot3.py`'s sync commits the DELETE on its own before the INSERT runs (bot3.py:636-645). It is not atomic: a failed INSERT leaves the table empty (`Sync.Bot3InsertFailureEmptiesTable`).

## Findings

| source | as written | input that shows it | evidently intended | confidence | as-written member | corrected member |
|---|---|---|---|---|---|---|
| bot.py:3803-3811 | `&` is escaped after `<` and `>`, so the `&` of a fresh `&lt;` is escaped again | a project name "<" is sent as "&amp;lt;" and shown as "&lt;" | escape `&` first, so the reader sees the original text | high; not executed | Markup.EscapeAsWrittenDoubleEscapes | Markup.EscapeRoundTrip |
| bot3.py:361 | today's key is formatted `'%d-%m-%d'`, while plans are stored under `'%d.%m.%Y'` (bot3.py:267) | add a plan for today, then call `get_all_plans_today`: it returns {} | look up `'%d.%m.%Y'`, the key plans are stored under | high; not executed | PlanQueries.Bot3AllPlansTodayMissesToday | PlanQueries.Bot3AllPlansToday |
