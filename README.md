# Storefront bot core, modelled in Dafny

This project models the core of a Telegram storefront bot written in Python
with aiogram. The bot takes a user's handle, checks that it is well formed and
exists, and returns a pseudo-random valuation report. Reports are cached per
handle. The bot records what every user does as events and reminds users who
left a checkout unfinished. Through an admin panel, operators broadcast
messages, read statistics and configure reminder timing and notifications.

The model follows the source file by file. Each file is one Dafny module:

| module | file | what it holds |
|---|---|---|
| `Wrappers` | `wrappers.dfy` | `Option` and `Result` |
| `PyText` | `py_text.dfy` | the Python string and integer behaviour the core relies on: truthiness, `strip`, `lstrip('@')`, `str(n)`, `{n:,}`, `int(s)` |
| `Models` | `models.dfy` | the event kinds with their names, emoji and labels, and the table defaults |
| `Logic` | `logic.dfy` | the valuation generator, with the random draws passed in as parameters |
| `Db` | `database.dfy` | the users table, plus the state that the unseen store methods write (events, settings, the valuation cache, reminder and block marks) |
| `Telegram` | `telegram.dfy` | a bot whose sends are logged and whose outcomes are inputs |
| `AdminGate` | `admin_check.dfy` | the admin middleware |
| `EventLog` | `event_logger.dfy` | the event logger |
| `Reminders` | `reminder_service.dfy` | the reminder service |
| `Broadcast` | `broadcast_service.dfy` | the broadcast service |
| `Notifications` | `notifications.dfy` | the admin notification service |
| `Analytics` | `analytics.dfy` | the analytics service |
| `ConfigSync` | `config_sync.dfy` | synchronisation of the settings between the environment and the store |
| `Valuation` | `valuation_handler.dfy` | the username check and the valuation conversation |
| `AdminKeyboards` | `admin_keyboards.dfy` | the admin keyboards |
| `Formatters` | `formatters.dfy` | the admin statistics texts |

The services are modelled as classes whose methods modify the store and the
bot. A loop over users is a `while` loop whose invariant ties the send log and
the store to a function of the prefix done so far. Text built with
`text += ...` is a sequence of segments whose concatenation is the text. The
formatter loops share two generic loop methods, and each formatter's contract
is instantiated from theirs.

The model follows the code where it differs from its comments:
- `is_valid_username` accepts 4 to 32 characters after the optional '@'. Its comment says 5 to 32.
- `$` in that pattern also accepts one final newline. The handler strips its input first, so the newline never reaches the pattern there.
- The handler looks a handle up by the stripped text as typed, with or without a leading '@'. It saves the report under the report's own `username`, which has exactly one leading '@' (services/logic.py:37). The store code for the cache is not shown. The model assumes the store keys a report by the handle with its leading '@'s removed and ASCII lower-cased (`Db.CacheKey`). Under that assumption `Valuation.SavedUnderLookupKey` proves that the lookup and the save use the same key.
- The notification texts are stored mis-encoded in the repository (UTF-8 read as Mac Roman). The model uses the Russian text that the bytes decode to.

## Model

| member | source | states |
|---|---|---|
| AdminGate.IsAdminActionAsWritten | middleware/admin_check.py:25-30 | a callback is judged as intended; a message whose text is None makes the written test raise (None) |
| AdminGate.NoTextRaises | middleware/admin_check.py:26 | a message without text makes the written test raise although it is no admin action |
| AdminGate.AsWrittenAgreesWithText | middleware/admin_check.py:25-30 | on every update except a text-less message the written test gives the intended answer |
| AdminGate.DenialFor | middleware/admin_check.py:34-37 | the denial goes to the sender; a callback answer is shown as an alert, a message reply is not |
| AdminGate.Decide | middleware/admin_check.py:23-41 | rejected iff an admin action from a user outside the admin ids, with that kind's denial; otherwise passed with `is_admin` equal to membership |
| AdminGate.AdminsAlwaysPass | middleware/admin_check.py:33-41 | an admin is never rejected and is flagged `is_admin` |
| AdminGate.OrdinaryUpdatesPass | middleware/admin_check.py:33-41 | an update that is no admin action always passes, flagged by membership |
| AdminGate.AdminCommandsFromOthersRejected | middleware/admin_check.py:25-38 | `/admin…` and `/stats…` messages and `admin_…` callbacks from a non-admin are rejected, the callback with the alert denial |
| AdminGate.AdminCheckMiddleware.Call | middleware/admin_check.py:13-43 | the handler runs iff the verdict passes; a rejection only records the denial and leaves `data` alone; a pass sets `data['is_admin']` and calls the handler once |
| Db.InsertIfAbsent | database/db.py:29-34 | `add_user` adds the id with language 'en' and the clock's join date when absent, and changes nothing else |
| Db.UpdateLanguage | database/db.py:36-41 | `set_language` changes only the known user's language; the key set is unchanged |
| Db.LanguageOf | database/db.py:43-49 | the stored language when truthy, else 'en' (also for an unknown user); never empty |
| Db.AddUserIdempotent | database/db.py:29-34 | a second `add_user` is a no-op whatever the clock |
| Db.AddUserKeepsLanguage | database/db.py:29-34 | `add_user` never changes the language an existing user reads back |
| Db.NewUserSpeaksDefault | database/db.py:24 | a newly inserted user reads back as 'en' |
| Db.SetThenGet | database/db.py:36-49 | after `set_language` a known user reads the new language ('en' when it is empty), and every other user reads as before |
| Db.SetUnknownNoop | database/db.py:36-41 | `set_language` on an unknown user changes nothing |
| Db.EventCountAppend | services/event_logger.py:35 | one appended event adds one exactly to the counts whose type and window it matches |
| Db.EventCountZero | services/analytics.py:91-93 | a count is zero iff no event of that type lies in the window |
| Db.JoinedBetween | services/analytics.py:83 | the users counted as new are exactly those whose join date lies in the window |
| Db.CacheKey | handlers/valuation.py:58-68 | the key is the handle with its leading '@'s removed and each ASCII capital lower-cased, character by character, so it never starts with '@' |
| Db.CacheKeyIgnoresLeadingAt | handlers/valuation.py:58-68 | a handle with or without a leading '@' has the same key |
| Db.CacheKeyIgnoresCase | handlers/valuation.py:58-68 | two handles that differ only in the case of ASCII letters have the same key |
| Db.Database.AddUser | database/db.py:29-34 | the table becomes `InsertIfAbsent` of the old one |
| Db.Database.SetLanguage | database/db.py:36-41 | the update succeeds unless a known user gets a value wider than the VARCHAR(5) column; on success the table is `UpdateLanguage` of the old one, otherwise unchanged (also database/db.py:24) |
| Db.Database.GetValuation | handlers/valuation.py:58 | a cached report is found iff its key is in the cache |
| Db.EventCount | services/analytics.py:91-93 | a windowed count of one event kind never exceeds the number of events |
| Db.SettingsFor | services/notifications.py:53 | an admin's stored settings, or the empty dictionary when the admin has none |
| Db.Database.GetLanguage | database/db.py:43-49 | `get_language` never returns an empty language |
| Db.Database.GetSystemSetting | services/reminder_service.py:23 | a setting is found iff its key is stored (also services/config_sync.py:62) |
| Db.Database.SetSystemSetting | services/config_sync.py:69 | only that one setting is written |
| Db.Database.SaveValuation | handlers/valuation.py:68 | the report is cached under its own handle's key, write-once: a key already cached keeps its first report |
| Db.Database.MarkReminderSent | services/reminder_service.py:64 | the reminder mark for the user is recorded, after every earlier one |
| Db.Database.MarkUserBlocked | services/reminder_service.py:70 | the block mark for the user is recorded, after every earlier one (also services/broadcast_service.py:54) |
| Db.Database.AddEvent | services/event_logger.py:35 | one event is appended with the next id, the user, the kind, the time and the metadata |
| Db.Database.UpdateUserInfo | services/event_logger.py:38 | only that user's username is written |
| Models.EventFromRow | database/models.py:16-25 | every column of the row is copied into the field of the same name |
| Models.EventRowRoundTrip | database/models.py:16-25 | reading a row into an event and writing it back loses nothing, in both directions |
| Models.DefaultNotificationSettings | database/models.py:56-64 | a record built from an admin id alone has all three toggles on, threshold 10 and no update time |
| Models.SettingsToDict | database/models.py:56-64 | the dictionary form of a record reads back every field through the `dict.get` accessors |
| Models.DefaultsAgree | database/models.py:56-64 | an admin without settings is treated exactly like one holding the record defaults: on, on, on, 10 |
| Models.CatalogueComplete | database/models.py:68-78 | every event kind is in the catalogue |
| Models.NameInjective | database/models.py:68-78 | distinct kinds have distinct strings |
| Models.AllTypes | database/models.py:80-93 | `all_types` is nine pairwise distinct names in the fixed order, and every kind's name is among them |
| Models.ParseEventType | database/models.py:68-78 | a string parses only to the kind whose name it is |
| Models.ParseName | database/models.py:68-78 | parsing a kind's name gives back that kind |
| Models.ParseUnknown | database/models.py:80-93 | a string that parses to no kind is not in `all_types` |
| Models.GetEmoji | database/models.py:95-109 | total over strings: a kind's name gets that kind's glyph, any other string the pin |
| Models.EmojiDistinct | database/models.py:98-108 | the nine glyphs are pairwise distinct and none is the pin |
| Models.EmojiFallbackIff | database/models.py:95-109 | a string gets the pin iff it is not in `all_types` |
| Logic.RoundTens | services/logic.py:30 | `round(n, -1)` gives a multiple of ten within 5 of `n`, a tie going to the even tens digit |
| Logic.RoundTensInRange | services/logic.py:30 | rounding a draw from [1100, 3500] stays inside [1100, 3500] |
| Logic.CleanIdempotent | services/logic.py:26 | stripping leading '@' twice is stripping it once |
| Logic.GetValuationData | services/logic.py:4-46 | `username` is '@' plus the input without leading '@'; `structure` is its length plus " characters"; `price_low` is `round(low_draw, -1)`, a multiple of ten in [1100, 3500]; `price_high` is `price_low` plus the offset draw, replaced by 4200 when above 4500, so `price_low + 500 <= price_high <= 4500`; each label is the entry of its fixed list at the drawn index; the score is the drawn one |
| Logic.ReportIgnoresLeadingAt | services/logic.py:26 | a leading '@' makes no difference to the report, so "@@x" and "x" give the same one (also services/logic.py:37) |
| Telegram.Bot.Send | services/reminder_service.py:57-61 | one send is recorded as one attempt, and the outcome is the one the server gives |
| Telegram.OutcomeMembers | services/reminder_service.py:57-80 | a recipient is in the delivered group iff its send was delivered, and in the blocked group iff it was forbidden |
| Telegram.OutcomesPartition | services/reminder_service.py:115-118 | every recipient lands in exactly one of delivered, blocked and other failure (also services/broadcast_service.py:99-104) |
| Telegram.OutcomesAppend | services/reminder_service.py:100-118 | one more recipient extends each group by at most that recipient |
| Reminders.DelayMinutes | services/reminder_service.py:23-27 | the delay is `int()` of the setting, '15' when absent, and 15 when `int()` raises |
| Reminders.DelayDefault | services/reminder_service.py:23-25 | an absent setting gives a delay of 15 |
| Reminders.DelayRoundTrip | services/reminder_service.py:23-25 | a setting written as `str(n)` gives back n |
| Reminders.DelayFallback | services/reminder_service.py:24-27 | a setting with no digit falls back to 15 |
| Reminders.ReminderLanguage | services/reminder_service.py:104 | the language is the stored one, 'en' when the stored one is falsy or the user is unknown |
| Reminders.ReminderMessagesAt | services/reminder_service.py:100-113 | the i-th message goes to the i-th pending user, with the reminder text of that user's language |
| Reminders.ReminderMessagesAppend | services/reminder_service.py:100-113 | one more pending user adds exactly that user's message at the end |
| Reminders.RemindStep | services/reminder_service.py:100-118 | one loop turn extends the sent log, the reminder marks and the block marks by that user's records |
| Reminders.ExpectedStats | services/reminder_service.py:91-124 | `sent + failed == total == len(pending)`, and an empty list gives all zeros |
| Reminders.NoPendingNoMessages | services/reminder_service.py:91-93 | an empty list gives zero stats, no message and no mark |
| Reminders.FailedSplit | services/reminder_service.py:68-80 | the failures are the blocked users plus the other errors |
| Reminders.ReminderService.CheckPendingReminders | services/reminder_service.py:20-30 | the store is queried with the parsed delay, falling back to 15 |
| Reminders.ReminderService.SendReminder | services/reminder_service.py:32-80 | as intended, with an importable manager keyboard: true iff delivered; one attempt with the locale's reminder text ('' when missing); the reminder is marked sent only on delivery, the user marked blocked only on a block, and nothing else changes on other errors |
| Reminders.ReminderService.ProcessReminders | services/reminder_service.py:82-127 | as intended, over `SendReminder`: the stats are `ExpectedStats` of the queried list; one attempt per pending user in list order; exactly the delivered users are marked sent and exactly the blocked ones marked blocked |
| Reminders.AsWrittenLosesDeliveries | services/reminder_service.py:52 | the stats as written equal the intended stats iff no send would have been delivered |
| Reminders.AsWrittenCounterexample | services/reminder_service.py:52 | one pending user whose reminder would be delivered: as written 0 sent and 1 failed, as intended 1 sent and 0 failed |
| Reminders.ReminderService.SendReminderAsWritten | services/reminder_service.py:51-80 | as written, every call returns False, and the bot and the store are left unchanged |
| Reminders.ReminderService.ProcessRemindersAsWritten | services/reminder_service.py:82-127 | as written, nobody is reminded: `sent` is 0 and `failed` equals `total`, the number of pending users |
| Reminders.ReminderService.RemindAllAsWritten | services/reminder_service.py:91-124 | the loop over `SendReminderAsWritten` ends with `sent` 0 and `failed` equal to the number of pending users |
| Reminders.ReminderService.RemindAll | services/reminder_service.py:91-124 | the loop over the pending list keeps the attempts, marks and counters equal to those of the users seen so far |
| Broadcast.BroadcastMessage | services/broadcast_service.py:39-49 | with a truthy photo the message is a photo with the text as caption, otherwise a plain text message |
| Broadcast.ResultOf | services/broadcast_service.py:50-64 | success iff delivered, and then with no error; the error is exactly "blocked" iff the user blocked the bot; other errors read "bad_request: …" or "error: …" |
| Broadcast.ClassifyOutcome | services/broadcast_service.py:99-104 | a send counts as success iff delivered, as blocked iff forbidden, as failed iff any other error |
| Broadcast.BroadcastMessagesAt | services/broadcast_service.py:93-97 | the i-th message goes to the i-th user of the list |
| Broadcast.ExpectedStats | services/broadcast_service.py:86-114 | `total` is the list length and `success + blocked + failed == total` |
| Broadcast.BroadcastStep | services/broadcast_service.py:93-97 | one loop turn adds exactly that user's message to the sent log |
| Broadcast.BroadcastService.SendBroadcastMessage | services/broadcast_service.py:25-64 | one attempt with the photo-or-text message; the result is `ResultOf` the outcome; only a block marks the user |
| Broadcast.BroadcastService.ExecuteBroadcast | services/broadcast_service.py:66-117 | over the list fetched once before the loop: one attempt per user in list order, exactly the blocked users marked, and the counters equal `ExpectedStats` |
| Analytics.WholeDay | services/analytics.py:80-81 | the window from `min.time()` to `max.time()` of a date holds exactly the timestamps on that date |
| Analytics.DaysAdjacent | services/analytics.py:80-81 | the next day starts one microsecond after this one ends, so consecutive windows leave no gap |
| Analytics.TodayStart | services/analytics.py:31-41 | midnight of today is at most `now` and less than a day before it |
| Analytics.EventCountMonotone | services/analytics.py:157-164 | a wider window never counts fewer events |
| Analytics.EventCountSplit | services/analytics.py:99-113 | a window cut in two counts the events of both halves |
| Analytics.PeriodIsSumOfDays | services/analytics.py:97-115 | the count of a period equals the sum of the per-date counts of its days |
| Analytics.ReversedPeriodEmpty | services/analytics.py:99-100 | a period whose end date is before its start date counts nothing |
| Analytics.FixedKeysAreNoTypes | services/analytics.py:85-108 | none of 'date', 'new_users', 'start_date', 'end_date' is an event type, so no count overwrites them |
| Analytics.FloorDivIsFloor | services/analytics.py:138 | `//` on integers is the floor of the quotient, for a positive and a negative divisor |
| Analytics.PageCountIsCeiling | services/analytics.py:138 | for a positive page size the page count is the ceiling of total / page_size: it is 0 iff there are no users, and the pages hold every user with a non-empty last page |
| Analytics.AlertCount | services/analytics.py:166-168 | the count is returned iff it is strictly above the threshold, else None |
| Analytics.StatKeysComplete | services/analytics.py:64-74 | the stats dictionary's key set lists all nine keys |
| Analytics.StatOr0 | utils/formatters.py:19-31 | a missing stats key reads as 0, a present one as its value |
| Analytics.AnalyticsService.AddTypeCounts | services/analytics.py:91-93 | the loop over `all_types` adds one count per event type over the window and keeps every other key (also services/analytics.py:111-113) |
| Analytics.AnalyticsService.GetStatsByDate | services/analytics.py:78-95 | exactly the keys 'date', 'new_users' and the nine types; the date, the users joined that day, and each type's count over the whole day |
| Analytics.AnalyticsService.GetStatsForPeriod | services/analytics.py:97-115 | exactly 'start_date', 'end_date', 'new_users' and the nine types; counts over [start 00:00, end 23:59:59.999999] |
| Analytics.AnalyticsService.GetUsersList | services/analytics.py:128-146 | raises iff the page size is 0; otherwise the store is asked for `page_size` users at offset `(page - 1) * page_size`, the page and size are echoed, `total_count` is the number of users; a positive size gives the ceiling page count, and a negative size the floor of `(total_count + page_size - 1) / page_size` that `//` computes |
| Analytics.AnalyticsService.CheckAbandonedCheckoutsAlert | services/analytics.py:150-168 | the count of abandoned checkouts in the last hour is returned iff it is strictly above the threshold |
| Analytics.AnalyticsService.GetMainStats | services/analytics.py:43-74 | all nine keys are present, each with its count: total users, new in 24 hours, and today's events of the key's type |
| Analytics.AnalyticsService.MainStatsNeedNoDefault | services/analytics.py:64-74 | reading the main stats with `get(key, 0)` never falls back on the 0 |
| ConfigSync.SyncMapDistinct | services/config_sync.py:20-24 | the three variables are distinct, and so are the three setting keys |
| ConfigSync.DistinctAt | services/config_sync.py:20-24 | two pairs at different positions of a distinct list differ in both parts |
| ConfigSync.DistinctPrefix | services/config_sync.py:20-24 | a prefix of a distinct list is distinct |
| ConfigSync.ForwardEntries | services/config_sync.py:20-24 | the dictionary of distinct pairs holds each pair and has exactly their first parts as keys |
| ConfigSync.ReverseEntries | services/config_sync.py:27 | the comprehension `{v: k …}` holds each pair turned round and has exactly their second parts as keys |
| ConfigSync.ThreeKeys | services/config_sync.py:20-27 | the key sets of three pairs are their three parts |
| ConfigSync.ThreeInvert | services/config_sync.py:20-27 | three distinct pairs make the forward and the reversed dictionary inverse bijections of size 3 |
| ConfigSync.ReverseMapInverts | services/config_sync.py:20-27 | `reverse_map` is the exact inverse of `sync_map`, a bijection over three keys |
| ConfigSync.SyncStep | services/config_sync.py:58-71 | the loop over i + 1 pairs is the loop over i pairs followed by pair i, for both the settings and the `changes` list |
| ConfigSync.SyncLeavesOthers | services/config_sync.py:58-71 | a setting no pair names is left as it was |
| ConfigSync.PairAgrees | services/config_sync.py:58-71 | after its iteration, a pair's setting matches its set variable once both are stripped, and is untouched when the variable is unset |
| ConfigSync.OtherPairKeeps | services/config_sync.py:58-71 | an iteration over another key keeps that agreement |
| ConfigSync.LastKeyUntouched | services/config_sync.py:58-71 | the pairs before the last one never touch the last one's setting |
| ConfigSync.LastPairAgrees | services/config_sync.py:58-71 | the last pair's setting agrees with its variable after the loop |
| ConfigSync.SyncAgrees | services/config_sync.py:58-71 | after the loop every mapped setting with a set variable equals it up to stripping, and the others are untouched |
| ConfigSync.NothingToWrite | services/config_sync.py:68 | when no pair needs a write, the loop changes nothing and `changes` stays empty |
| ConfigSync.SecondPassWritesNothing | services/config_sync.py:58-77 | a second pass with the same environment writes nothing when no set variable is blank |
| ConfigSync.LastPairWrites | services/config_sync.py:66-69 | a set variable whose stored value is falsy is always written, stripped |
| ConfigSync.BlankValueRewritten | services/config_sync.py:66-69 | a blank variable is written again on every pass, because the empty string it leaves compares as None |
| ConfigSync.ConfigSyncService.CheckAndSync | services/config_sync.py:29-77 | no file: False and no write; the first look only records the time; an unchanged time does nothing; a new time is recorded, the loop runs, and the result is True iff it wrote a setting |
| ConfigSync.ConfigSyncService.SyncSettings | services/config_sync.py:57-71 | the loop leaves the settings as `Synced` and `changes` as the keys written, in order |
| ConfigSync.ConfigSyncService.SyncToEnv | services/config_sync.py:83-112 | True iff the key is mapped and the file exists; then the variable is written and `last_modified` becomes the file's new time, else nothing changes |
| Valuation.WordRun | handlers/valuation.py:31 | the run of `[a-zA-Z0-9_]` starting at i is maximal: every character in it is a word character and the one after it is not |
| Valuation.IsValidUsernameMatchesPattern | handlers/valuation.py:28-32 | the matcher accepts exactly the texts `^@?[a-zA-Z][a-zA-Z0-9_]{3,31}$` describes, including the single final newline that `$` lets through |
| Valuation.DigitOrUnderscoreStartRejected | handlers/valuation.py:31 | a text whose first character after any '@' is a digit or '_' is refused |
| Valuation.DoubleAtRejected | handlers/valuation.py:31 | two leading '@' are refused |
| Valuation.AcceptedLengths | handlers/valuation.py:30-31 | an accepted body has 4 to 32 characters, not the 5 to 32 the comment says |
| Valuation.Examples | handlers/valuation.py:31 | "abcd", "@abcd" and "abcd\n" are accepted; "abc", "@@abcd" and "1abcd" are not |
| Valuation.StrippedInput | handlers/valuation.py:41-43 | on stripped input the final-newline alternative of `$` never applies |
| Valuation.SavedUnderLookupKey | handlers/valuation.py:58-68 | a generated report is saved under the same key that its handle is looked up by |
| Valuation.Process | handlers/valuation.py:36-89 | invalid text gets only the format error; a handle that does not exist gets the "evaluating" message edited into "not found", with no cache access; an existing one gets the cached or new report and is remembered as `last_username` |
| Valuation.ProcessOnlyAddsItsKey | handlers/valuation.py:58-68 | a call never removes or overwrites a cached report |
| Valuation.ProcessNewKey | handlers/valuation.py:51-68 | the only key a call may add is the handle's own, and only for an existing valid handle |
| Valuation.CacheHitIgnoresDraws | handlers/valuation.py:58-61 | on a cache hit the reply does not depend on the draws and nothing is saved |
| Valuation.RepeatIsCacheHit | handlers/valuation.py:58-68 | asking twice for an existing handle sends the same replies the second time and saves nothing more |
| Valuation.SecondLookupHits | handlers/valuation.py:58-68 | after a report is saved, the next lookup of the same handle finds that report |
| Valuation.ValuationHandler.ProcessUsername | handlers/valuation.py:35-89 | a message without text raises at `message.text.strip()` before any reply or cache access; otherwise the replies, `last_username` and the cache end as `Process` of the stripped text says, in the user's language |
| Valuation.ValuationHandler.Respond | handlers/valuation.py:43-89 | the same for an already stripped text |
| Valuation.ValuationHandler.CachedOrGenerated | handlers/valuation.py:57-68 | a hit returns the cached report and saves nothing; a miss generates from the draws and saves once |
| Valuation.ValuationHandler.SellUsername | handlers/valuation.py:103-116 | the sell text names `last_username`, or "your handle" when none is stored |
| AdminKeyboards.UsersListCallback | keyboards/admin_keyboards.py:104-110 | a page callback starts with `admin_users_list:` |
| AdminKeyboards.PageOf | keyboards/admin_keyboards.py:105 | a page is read back only from a callback with the `admin_users_list:` prefix |
| AdminKeyboards.PageCallbackRoundTrip | keyboards/admin_keyboards.py:104-110 | a page callback names the page it was built for |
| AdminKeyboards.UsersPagination | keyboards/admin_keyboards.py:88-119 | a navigation row and the back-to-menu row; a previous button (first, to page − 1) iff page > 1; the indicator always, right after it; a next button (last, to page + 1) iff page < total |
| AdminKeyboards.ArrowsStayInRange | keyboards/admin_keyboards.py:104-110 | from a page inside 1..total the arrows lead to pages inside 1..total |
| AdminKeyboards.MenuOf | keyboards/admin_keyboards.py:53-85 | one row per entry with callback `admin_event_` + its kind's name, then the back row |
| AdminKeyboards.EventsMenu | keyboards/admin_keyboards.py:53-85 | the events menu has nine rows: eight event buttons in order, then the back row |
| AdminKeyboards.EventsMenuCovers | keyboards/admin_keyboards.py:57-80 | every kind but `exit_without_action` has a button, and that one has none |
| AdminKeyboards.EventCallbackNamesKind | keyboards/admin_keyboards.py:57-80 | each event callback is `admin_event_` followed by its kind's own name |
| AdminKeyboards.StatusMark | keyboards/admin_keyboards.py:149 | the mark is one character, ✅ or ❌ |
| AdminKeyboards.NotificationsKeyboard | keyboards/admin_keyboards.py:136-188 | five single-button rows: three toggles whose mark reads the setting with default True, the threshold with default 10, and the back row |
| AdminKeyboards.KeyboardShowsNotifierSettings | keyboards/admin_keyboards.py:149-179 | a toggle is ticked exactly when the admin receives that notice, and the threshold shown is the one an alert count must exceed (also services/notifications.py:52-60, services/notifications.py:88-101) |
| AdminKeyboards.EmptySettingsKeyboard | keyboards/admin_keyboards.py:149-176 | with no stored setting every toggle is ticked and the threshold reads 10 |
| AdminKeyboards.PrefixedStarts | middleware/admin_check.py:29 | a callback built on `admin_` starts with it |
| AdminKeyboards.MenuGated | keyboards/admin_keyboards.py:57-83 | every button of an events menu carries an `admin_` callback, so the admin gate stands in front of it (also middleware/admin_check.py:28-38) |
| AdminKeyboards.EventsMenuGated | keyboards/admin_keyboards.py:53-85 | every button of the events menu is gated |
| AdminKeyboards.NotificationsKeyboardGated | keyboards/admin_keyboards.py:136-188 | every button of the settings keyboard is gated |
| AdminKeyboards.UsersPaginationGated | keyboards/admin_keyboards.py:88-119 | every button of a pagination keyboard is gated |
| AdminKeyboards.PageCallbackGated | keyboards/admin_keyboards.py:104-110 | a page callback starts with `admin_` |
| Notifications.NotStartsWith | services/notifications.py:76-82 | a line whose first character differs from a head's does not start with that head |
| Notifications.OrderFixedLines | services/notifications.py:76-77 | the title and user lines of the order alert start with neither optional head |
| Notifications.OrderNickLine | services/notifications.py:79-80 | the order alert has a nickname line iff the nickname is truthy |
| Notifications.OrderPriceLine | services/notifications.py:81-82 | the order alert has a price line iff the price is truthy, so 0 has none; when present it is the last line and shows the price with thousands separators |
| Notifications.OrderZeroPriceOmitted | services/notifications.py:81-82 | a price of 0 gives the same alert as no price |
| Notifications.ReportMissingKeysAreZero | services/notifications.py:105-116 | in the daily report a missing counter reads as 0, like a zero one |
| Notifications.AlertNoticeText | services/notifications.py:93-99 | the alert an admin receives quotes that admin's own threshold |
| Notifications.RecipientsMembers | services/notifications.py:52-55 | an admin is a recipient iff listed in `ADMIN_IDS` and their settings ask for that notice (also services/notifications.py:70-73, services/notifications.py:88-95) |
| Notifications.RecipientsStep | services/notifications.py:52-55 | one more admin joins the recipients iff they want the notice |
| Notifications.NoticeMessagesAppend | services/notifications.py:60 | one more recipient adds exactly their message at the end (also services/notifications.py:84, services/notifications.py:101) |
| Notifications.NotifiedAppend | services/notifications.py:52-60 | one more admin adds their message iff they want the notice |
| Notifications.LogAssoc | services/notifications.py:43-45 | appending to the send log in two steps equals appending the concatenation |
| Notifications.NotifiedStep | services/notifications.py:52-60 | one turn of a notify loop extends the send log by that admin's message, if any |
| Notifications.SameTextTo | services/notifications.py:43-45 | one attempt per admin |
| Notifications.SameTextStep | services/notifications.py:43-45 | one turn of `_send_to_admins` adds one attempt with the same text |
| Notifications.AlertStrictlyAboveThreshold | services/notifications.py:88-101 | an admin is alerted iff listed, their toggle is on and the count is strictly above their own threshold; without settings, a count of 10 or less alerts nobody |
| Notifications.NewUserDefaultOn | services/notifications.py:54 | an absent `notify_new_users` key counts as on |
| Notifications.AlertAgreesWithAdminFilter | services/analytics.py:166-168 | with the default threshold the analytics check fires exactly when an admin without settings would be alerted (also services/notifications.py:93-95) |
| Notifications.NotificationService.SendToAdmin | services/notifications.py:21-33 | never raises: one attempt, true iff delivered |
| Notifications.NotificationService.SendToAdmins | services/notifications.py:35-46 | every admin is attempted once with the same text, `check_settings` is not read, and the result is the number of deliveries, at most `len(ADMIN_IDS)` |
| Notifications.NotificationService.NotifyNewUser | services/notifications.py:50-60 | exactly the admins who want new-user alerts are sent the new-user text, in `ADMIN_IDS` order |
| Notifications.NotificationService.NotifySuccessfulOrder | services/notifications.py:62-84 | exactly the admins who want order alerts are sent the order text, in order |
| Notifications.NotificationService.NotifyAbandonedCheckoutsAlert | services/notifications.py:86-101 | exactly the admins whose toggle is on and whose threshold the count strictly exceeds are sent the alert, with their own threshold |
| Notifications.NotificationService.SendDailyReport | services/notifications.py:103-118 | every admin is attempted with the same report, whatever their settings |
| Formatters.Display | utils/formatters.py:106 | "@username" when the username is truthy, else the id head and the id: "ID <id>" here and at utils/formatters.py:191-194, "ID: <id>" at services/notifications.py:57 and services/notifications.py:75 |
| Formatters.DisplayTag | utils/formatters.py:106 | for either id head, the display starts with '@' iff there is a username to show |
| Formatters.FormatMainStats | utils/formatters.py:8-33 | the `+=` steps build the main stats text, every counter read with default 0 |
| Formatters.MainStatsMissingIsZero | utils/formatters.py:19-31 | a missing counter is shown exactly as a stored 0 |
| Formatters.ContextLineKinds | utils/formatters.py:222-227 | the context line is there for successful orders, abandoned checkouts and nickname checks, and only for them |
| Formatters.FormatEventTypeStats | utils/formatters.py:204-229 | the `+=` steps build the emoji, kind, count and context line |
| Formatters.EventTypeMissingIsZero | utils/formatters.py:216 | a kind missing from the dictionary is shown with a count of 0 |
| Formatters.LinesAt | utils/formatters.py:117-119 | segment i of a per-item loop is item i's line (also utils/formatters.py:139-156) |
| Formatters.LinesAtOffset | utils/formatters.py:117-119 | after a prefix, item i's line sits right after the prefix and i earlier lines |
| Formatters.TakeLinesAt | utils/formatters.py:139 | over the first k items, item i's line is still at position i |
| Formatters.AppendLine | utils/formatters.py:117-119 | one more loop turn appends the next item's line to the text (also utils/formatters.py:139-156) |
| Formatters.LoopStart | utils/formatters.py:116 | before the first turn the text is the prefix alone (also utils/formatters.py:137) |
| Formatters.AppendAll | utils/formatters.py:117-119 | the loop `for x in xs: text += f(x)` leaves the prefix's text followed by one line per item, in order (also utils/formatters.py:139-156) |
| Formatters.LinePairsAt | utils/formatters.py:185-199 | item i owns segments 2i and 2i + 1 |
| Formatters.LinePairsAtOffset | utils/formatters.py:185-199 | after a prefix, item i owns the two segments after the prefix and 2i earlier ones |
| Formatters.AppendPairs | utils/formatters.py:185-199 | the loop appending two lines per item leaves the prefix's text followed by both lines of each item, in order |
| Formatters.UpperAscii | utils/formatters.py:112 | `.upper()` keeps the length, turns each ASCII lower-case letter to upper case and keeps every other character |
| Formatters.FormatUserCard | utils/formatters.py:90-121 | the `+=` steps build the five fixed lines, then the section header and one line per count when there are counts |
| Formatters.CardSection | utils/formatters.py:114-119 | the action-statistics section is there iff `event_counts` is non-empty, with its header and one line per item |
| Formatters.CardCountLine | utils/formatters.py:117-119 | item i of `event_counts` gets line i of the section, with its emoji, kind and count |
| Formatters.Shown | utils/formatters.py:139 | the history shows min(n, 20) events |
| Formatters.FormatUserHistory | utils/formatters.py:124-161 | the `+=` steps build the empty sentence, or the header, one line per shown event and the "and N more" line |
| Formatters.HistoryShape | utils/formatters.py:137-159 | a non-empty history is the header, one line for each of the first min(n, 20) events, and "… и ещё N событий" iff n > 20 with N = n − 20; every event is shown or counted |
| Formatters.HistoryLineAt | utils/formatters.py:139-156 | event i among the first 20 has line i of the history |
| Formatters.HistoryEmpty | utils/formatters.py:134-135 | an empty history is exactly "История действий пуста" |
| Formatters.ExtraOnlyForTwoKinds | utils/formatters.py:146-154 | only nickname checks and orders get extra information |
| Formatters.LoggedCheckShowsNickname | utils/formatters.py:148-149 | a nickname check as the logger records it shows its nickname in brackets (also services/event_logger.py:70-76) |
| Formatters.LoggedOrderShowsNicknameAndPrice | utils/formatters.py:150-154 | an order as the logger records it shows the nickname iff it was truthy and the price, with thousands separators, iff it was truthy (also services/event_logger.py:96-108) |
| Formatters.FormatUsersList | utils/formatters.py:164-201 | the `+=` steps build the header with defaults 1, 1 and 0, then "no users" or two lines per user |
| Formatters.UsersListEmpty | utils/formatters.py:182-183 | an empty list is the header followed by "Пользователей не найдено" |
| Formatters.UsersListShape | utils/formatters.py:179-199 | a non-empty list is the header and two lines per user |
| Formatters.UserLinesAt | utils/formatters.py:185-199 | user i, in order, has lines 2i + 1 and 2i + 2: its display line, then its activity line |
| Formatters.UserDisplayAt | utils/formatters.py:186-198 | user i's display line shows "@username", or "ID <id>" (id default 0) when there is no username |
| EventLog.Logged | services/event_logger.py:34-35 | a stored event is appended with the next id, the user, the kind, the time and the metadata, and everything before it is kept; when the store raises, the error is swallowed and nothing is appended (also services/event_logger.py:40-41) |
| EventLog.Renamed | services/event_logger.py:36-38 | the username is updated only when a non-empty username was passed and the store did not raise |
| EventLog.OptionalText | services/event_logger.py:45-50 | the optional key is recorded iff its value is truthy, and then with that value (also services/event_logger.py:56-68, services/event_logger.py:82-94) |
| EventLog.CheckNicknameMetadata | services/event_logger.py:72-75 | a nickname check always records the nickname and records both price bounds iff a range was given |
| EventLog.SuccessfulOrderMetadata | services/event_logger.py:103-107 | an order records the nickname iff it is truthy and the price iff it is truthy, and no other key |
| EventLog.ZeroPriceNotRecorded | services/event_logger.py:106-107 | a price of 0 is recorded exactly as a missing price |
| EventLog.EventLogger.LogEvent | services/event_logger.py:18-41 | the events and usernames after a call are those Logged and Renamed give, with `metadata or {}` for a missing dictionary |
| EventLog.EventLogger.LogFirstStart | services/event_logger.py:45-50 | logs a first start with the username in the metadata iff it is truthy; no username update |
| EventLog.EventLogger.LogBotRestart | services/event_logger.py:52-54 | logs a bot restart with empty metadata |
| EventLog.EventLogger.LogGoToGroup | services/event_logger.py:56-61 | logs a group visit with the group URL iff it is truthy |
| EventLog.EventLogger.LogContactManager | services/event_logger.py:63-68 | logs a manager contact with the manager's username iff it is truthy |
| EventLog.EventLogger.LogCheckNickname | services/event_logger.py:70-76 | logs a nickname check with the nickname and, when given, both price bounds |
| EventLog.EventLogger.LogExitWithoutAction | services/event_logger.py:78-80 | logs an exit without action with empty metadata |
| EventLog.EventLogger.LogStartCheckout | services/event_logger.py:82-87 | logs a checkout start with the nickname iff it is truthy |
| EventLog.EventLogger.LogAbandonedCheckout | services/event_logger.py:89-94 | logs an abandoned checkout with the nickname iff it is truthy |
| EventLog.EventLogger.LogSuccessfulOrder | services/event_logger.py:96-108 | logs an order with the nickname and the price each iff truthy |
| EventLog.LoggedEventCounted | services/event_logger.py:34-35 | a logged event adds exactly one to the count of its own kind over a window that holds its time, and nothing to any other count (also services/analytics.py:91-93) |
| PyText.ConcatAppend | utils/formatters.py:117-119 | one more `text += seg` appends that segment to the text built so far |
| PyText.LStrip | handlers/valuation.py:41 | `lstrip()` drops exactly the leading whitespace: the result is a suffix that starts with no whitespace, and everything dropped was whitespace |
| PyText.RStrip | handlers/valuation.py:41 | `rstrip()` drops exactly the trailing whitespace |
| PyText.Strip | handlers/valuation.py:41 | `strip()` gives a string that neither starts nor ends with whitespace (also services/config_sync.py:65-66) |
| PyText.StripNoop | handlers/valuation.py:41 | a string without whitespace at either end is its own strip |
| PyText.StripIdempotent | handlers/valuation.py:41 | stripping twice is stripping once (also services/config_sync.py:65-66) |
| PyText.LStripChar | services/logic.py:26 | `lstrip("@")` drops exactly the leading '@' characters: the result does not start with '@' |
| PyText.LowerAsciiIdempotent | handlers/valuation.py:58 | lower-casing twice is lower-casing once |
| PyText.LStripCharLower | services/logic.py:26 | removing leading '@'s and lower-casing can be done in either order |
| PyText.LStripCharPrefix | services/logic.py:26 | a handle with one more leading '@' cleans to the same handle |
| PyText.NatToString | utils/formatters.py:117 | `str(n)` of a natural number is a non-empty run of digits with no leading zero |
| PyText.IntToString | utils/formatters.py:117 | `str(n)` is non-empty, starts with no whitespace, ends in a digit and holds no newline (also services/config_sync.py:65) |
| PyText.DigitsValueOfNatToString | utils/formatters.py:117 | the digits `str` writes denote the number again |
| PyText.GroupDigitsDropCommas | utils/formatters.py:154 | the grouping commas are the only thing `{n:,}` adds to the digits (also services/notifications.py:82) |
| PyText.ThousandsDropCommas | utils/formatters.py:154 | removing the commas of `{n:,}` gives back `str(n)` (also services/notifications.py:82) |
| PyText.RemoveUnderscoresDigits | services/reminder_service.py:25 | a plain run of digits has no underscore to remove |
| PyText.UnsignedValue | services/reminder_service.py:25 | an unsigned literal is read iff it is digit groups separated by single underscores |
| PyText.PyInt | services/reminder_service.py:25-27 | `int()` succeeds only on a string with something other than whitespace in it; None stands for the ValueError |
| PyText.SignedValue | services/reminder_service.py:25 | a sign alone or an empty string is not an integer |
| PyText.UnsignedValueOfNatToString | services/reminder_service.py:25 | the digits `str` writes read back as the number |
| PyText.PyIntUnpadded | services/reminder_service.py:25 | without surrounding whitespace `int()` reads the sign and the digit groups directly |
| PyText.SignedValueOfIntToString | services/reminder_service.py:25 | the sign and digits `str` writes read back as the number |
| PyText.PyIntOfIntToString | services/reminder_service.py:25 | `int(str(n)) == n` for every integer (also services/config_sync.py:65) |
| PyText.PyIntNeedsDigit | services/reminder_service.py:25-27 | a string without a digit is never an integer, so the delay falls back to 15 |

## Left out

- Telegram itself: every send, edit and callback answer becomes an attempt in `Telegram.Bot`, and its outcome (delivered, forbidden, bad request, other error) is an input given per recipient. Exception types and their messages are not modelled beyond these four outcomes.
- `check_username_exists` is not part of this model; whether a handle exists is an input to `Valuation.Process`.
- Store methods outside the users table (`add_event`, `get_event_count`, `mark_reminder_sent`, `mark_user_blocked`, the settings, notification-settings and valuation-cache calls) are not part of this model. Their effects are logs and maps in `Db.Database`. The query results (`get_users_for_reminder`, `get_active_users_for_broadcast`, `get_users_list`) are parameters.
- A store call raising inside the reminder and broadcast `try` blocks is not modelled; there only the Telegram outcome can fail. The event logger does model a raising store, as `StoreOutcome`.
- asyncio, the `asyncio.sleep` delays between sends and the analysis delay: the model is sequential and has no time passing.
- Random draws are parameters of `Logic.GetValuationData`. The floating-point aesthetic score is carried as an already rendered string.
- Clocks: `datetime.now` is an integer `now` parameter in microseconds. Dates are day numbers, and `strftime` output is an opaque string given with them.
- `format_date_stats` and `format_period_stats` are not modelled: they only lay out a dictionary whose keys `Analytics.AnalyticsService.GetStatsByDate` and `GetStatsForPeriod` already fix.
- `get_user_history` and `get_user_summary` in analytics.py pass a store query through unchanged and are not modelled.
- `callback_eval_again` only resets the conversation state and is not modelled.
- The locale JSON files are not part of this model. A valuation reply is the kind of text it is looked up as, with its arguments and the user's language.
- Formatters.UpperAscii: `.upper()` is modelled on ASCII letters only; other letters are kept unchanged.
- Formatters.Extra: requires the price of a logged order to be a number; a non-numeric price, for which `{price:,}` raises, is not modelled.
- PyText.PyInt: `int()` reads ASCII digits only; the other Unicode decimal digits that Python also accepts are not modelled.
- Db.CacheKey: lower-cases ASCII letters only. The store code that normalises cache keys is not part of this model, so the key is an assumption about it.
- Reminders.ReminderService.SendReminder: assumes a `get_manager_keyboard` that keyboards/builders.py (lines 11-93) does not define. As written, the import at services/reminder_service.py:52 raises and every call returns False; `SendReminderAsWritten` models that, and the Findings table records it. The reply keyboard itself is not modelled.
- Reminders.ReminderService.ProcessReminders: states the run with a working `send_reminder`. As written, it always reports `sent` 0 and marks nobody (`ProcessRemindersAsWritten`).
- Valuation.ValuationHandler.ProcessUsername: a message without text raises AttributeError at handlers/valuation.py:41. The model reports it as `raised` and changes nothing; what aiogram does with the error afterwards is not modelled.
- ConfigSync.ConfigSyncService.CheckAndSync: the file modification time is an integer; a raising store or file write is not modelled; the `changes` list is kept as the changed keys, not as formatted strings.
- ConfigSync.ConfigSyncService.SyncToEnv: the rewrite of the .env file by `set_key` is recorded as a key/value map, not as file text.
- The admin handlers (handlers/admin.py), handlers/basic.py, keyboards/builders.py, main.py, config.py and states.py are not part of this model. They are chat glue, keyboard builders, startup code and declarations; keyboards/builders.py also lacks the `get_manager_keyboard` the reminder service imports. `ADMIN_IDS` and the other configuration values are parameters.
- Logging calls have no effect in the model.

## Findings

| source | as written | input that shows it | evidently intended | confidence | as-written member | corrected member |
|---|---|---|---|---|---|---|
| middleware/admin_check.py:26 | `event.text and event.text.startswith('/admin') or event.text.startswith('/stats')` groups as `(a and b) or c`, so `.startswith('/stats')` is called on `None` | any message whose `text` is None (a photo or a sticker) | a message without text is no admin action and passes to its handler | not executed | AdminGate.IsAdminActionAsWritten, AdminGate.NoTextRaises | AdminGate.Decide |
| services/reminder_service.py:52 | `from keyboards.builders import get_manager_keyboard` inside the `try`, but keyboards/builders.py defines no such function, so the import raises ImportError, which `except Exception` turns into False before the send | any pending user whose reminder would be delivered | the reminder is sent, the user is marked reminded, and `process_reminders` counts it as sent | not executed | Reminders.ReminderService.ProcessRemindersAsWritten, Reminders.AsWrittenCounterexample | Reminders.ReminderService.ProcessReminders |
