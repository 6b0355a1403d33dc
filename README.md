# ETHIOpulseBOT, modelled in Dafny

ETHIOpulseBOT is a Telegram bot. It serves Ethiopian news, memes, videos, weather, sports and
social-media trends on demand, in English or Amharic. Users subscribe to daily or weekly
notifications, and node-cron delivers them. This project models the bot's core and proves
properties of the model.

**What the core covers**
- The scheduler registry and the cron task callback (`lib/scheduler.ts`).
- The update and command handlers (`lib/telegram.ts`).
- The store's table semantics (`lib/database.ts`).
- The text work around the language model (`lib/ai.ts`).
- The content adapters and their demonstration data (`lib/content.ts`).
- The two stand-alone webhook routes (`app/api/webhook/route.ts`, `app/api/telegram/route.ts`).

**How the outside world enters.** Everything outside the core is a parameter:

| Outside call | Parameter |
|---|---|
| Telegram | `Messaging.Api`: whether a token is set, and Telegram's answer to each request |
| Content APIs | `Content.Sources`: the API keys and each API's answer |
| Language model | `Ai.Model`: a request maps to a reply or an error |
| Any SQL statement that throws | a `fails` flag, or a `failAt` statement number |
| `cron.schedule` | a `cronOk` flag |
| The fire-time clock | `now` |

**Modules**

| Module | Source | Contents |
|---|---|---|
| `Text` | — | JavaScript's `trim` (ECMAScript white space and line terminators), lower-casing, `split`/`join`, `slice`, `filter`, `map` and decimal rendering |
| `Domain` | — | categories, frequencies and languages |
| `Content` | `lib/content.ts` | the adapters |
| `Ai` | `lib/ai.ts` | the language-model helpers |
| `Store` | `lib/database.ts` | the tables, with class `Database` performing each SQL statement |
| `Messaging` | `lib/telegram.ts` | `sendMessage`, with class `Bot` holding the delivered messages |
| `Digest` | — | the shared digest entries and the `+=` loop that joins them |
| `Cron` | `lib/scheduler.ts` | the key, the expression and when it fires |
| `Scheduler` | `lib/scheduler.ts` | the registry; class `Registry` holds the `schedulers` dictionary and node-cron's task table |
| `Commands` | `lib/telegram.ts` | the handlers |
| `Updates` | — | the update shape |
| `Routes`, `WebhookRoute`, `TelegramRoute` | `app/api/webhook/route.ts`, `app/api/telegram/route.ts` | the two routes |

**How the imperative parts are proved.** Each imperative part is a method proved against a
specification function, and the properties are lemmas about that function:
- `Registry.ScheduleNotification` performs `Scheduler.Scheduled`.
- `Registry.InitializeSchedulers` performs `Scheduler.Initialized`.
- `Commands.ProcessUpdate` performs `Commands.UpdateOutcome`, `UsersAfter`, `UpdateLog` and
  `UpdateApplied`.

**Three behaviours of the code worth knowing.**
- **The registry key includes the frequency.** The key is `${userId}_${category}_${frequency}`
  (lib/scheduler.ts:25), while the store upserts on user and category (lib/database.ts:117-124).
  - After `/subscribe news daily` then `/subscribe news weekly`, two tasks therefore run:
    `Scheduler.BothFrequenciesLive`.
  - The store lists the user only under the second frequency: `Store.SavedSubscriptionIsListed`.
- **`last_sent_at` is stamped whether or not the sending succeeded.** The task callback calls
  `updateLastNotified` right after `sendScheduledContent` (lib/scheduler.ts:38-39), and
  `sendScheduledContent` catches its own errors (lib/scheduler.ts:207-209): `Scheduler.Fire`.
- **Stopping keeps the keys.** `stopAllSchedulers` stops every task but deletes no key
  (lib/scheduler.ts:243-248), so the reported status does not change: `Scheduler.StopKeepsStatus`.

## Model

| member | source | states |
|---|---|---|
| Text.Trim | lib/ai.ts:19 | the result is a contiguous slice of the input that neither starts nor ends with JavaScript white space |
| Text.TrimRemovesSpaces | lib/ai.ts:19 | what `trim` cuts off on either side is white space only |
| Text.TrimIdempotent | lib/ai.ts:68 | trimming a trimmed string changes nothing |
| Text.TrimEmptyIffAllSpace | lib/ai.ts:67 | `line.trim().length > 0` exactly when the line is not all white space |
| Text.TrimAround | lib/telegram.ts:393 | white space around a word is removed and the word kept |
| Text.ToLowerAt | lib/telegram.ts:36 | lower-casing maps every character on its own and keeps the length |
| Text.ToLowerIdempotent | lib/telegram.ts:348-349 | lower-casing twice is lower-casing once |
| Text.Split | lib/telegram.ts:36 | `split` gives at least one piece and no piece contains the separator |
| Text.JoinSplit | lib/telegram.ts:37 | joining the pieces of a split with the separator gives the text back |
| Text.SplitJoin | lib/scheduler.ts:25 | splitting a join of separator-free pieces gives the pieces back |
| Text.SplitHasTwoPiecesIff | lib/telegram.ts:338-339 | a split has at least two parts exactly when the separator occurs |
| Text.SplitFirstPiece | lib/telegram.ts:36 | the first piece is a prefix, followed by the separator when it is shorter than the text |
| Text.Take | lib/telegram.ts:149 | `slice(0, n)` is the prefix of length min(n, length) |
| Text.Filter | lib/ai.ts:67 | `filter` keeps exactly the elements satisfying the predicate, and is no longer than its input |
| Text.FilterCounts | lib/ai.ts:67 | each element satisfying the predicate is kept as often as it occurs in the input; every other element is dropped |
| Text.Map | lib/ai.ts:68 | `map` keeps the length and applies the function at every index |
| Text.IntToString | lib/scheduler.ts:25 | the decimal rendering of an integer starts with '-' exactly for negatives and is otherwise digits |
| Text.IntToStringInjective | lib/scheduler.ts:25 | different user ids render differently |
| Text.NatToStringRoundTrip | lib/scheduler.ts:25 | reading back the decimal digits of n gives n |
| Text.ParseNatOfNatToString | lib/scheduler.ts:25 | a rendered number parses back to itself |
| Domain.ParseFrequency | lib/telegram.ts:364 | a word parses to a frequency exactly when it is "daily" or "weekly", and to the one it names |
| Domain.ParseFrequencyName | lib/telegram.ts:353 | every frequency's word parses back to it |
| Domain.WordsHaveNoUnderscore | lib/telegram.ts:352-353 | no category word and no frequency word contains '_' |
| Cron.KeyIsJoin | lib/scheduler.ts:25 | the key is user id, category and frequency joined by '_' |
| Cron.SplitKey | lib/scheduler.ts:25 | for a category without '_', splitting the key at '_' recovers its three parts |
| Cron.KeyInjective | lib/scheduler.ts:25 | for categories without '_', equal keys mean equal user, category and frequency |
| Cron.SplitExpression | lib/scheduler.ts:16-22 | the expressions are "0 9 * * *" and "0 9 * * 1", field by field |
| Cron.DailyFiresAtNine | lib/scheduler.ts:17-18 | the daily expression fires exactly at 09:00 every day |
| Cron.WeeklyFiresMondayAtNine | lib/scheduler.ts:20-21 | the weekly expression fires exactly at 09:00 on Mondays |
| Content.DemonstrationSizes | lib/content.ts:25-61 | the fixed data has five articles, memes, videos and sports items, and ten trends |
| Content.NewsFallback | lib/content.ts:2-25 | without a news key, or after an API failure, the news is the fixed list |
| Content.NewsFromApi | lib/content.ts:11-18 | on the API path every article is kept in order with its title and URL, and a missing list gives none |
| Content.NewsDescriptionsNonEmpty | lib/content.ts:14 | every article has a non-empty description, an absent or empty one becoming "No description available" |
| Content.VideoQueryShape | lib/content.ts:96 | the video query starts with "Ethiopia" and is just "Ethiopia" for a blank category |
| Content.VideoLinkNamesId | lib/content.ts:103-108 | an API video links to the watch URL of its id and keeps its title and thumbnail |
| Content.VideosFallback | lib/content.ts:92-116 | without a video key, or after an API failure, the videos are the fixed list |
| Content.VideosFromApi | lib/content.ts:102-109 | on the API path every item becomes one video in order, and a missing list gives none |
| Content.WeatherFallback | lib/content.ts:153-202 | without a key or an API answer, the lower-cased city is looked up among the four fixed entries ("dire dawa" gives {28, "Sunny", 45, 12}); "constructor" and "__proto__" find the member every object inherits (`Inherited`), which has none of the four readings; any other city, the empty one included, gets Addis Ababa's {22, "Partly cloudy", 65, 8} |
| Content.WeatherLookupIgnoresCase | lib/content.ts:201-202 | "Mekelle" and "MEKELLE" get the same fixed entry |
| Content.FixedListsIgnoreArguments | lib/content.ts:206-240 | memes and sports are always the fixed lists, and the sports category is ignored |
| Content.SocialFallback | lib/content.ts:243-280 | without a token or after a failure the trends are the fixed ten; on the API path every trend keeps its topic and a missing count is 0 |
| Ai.TranslateText | lib/ai.ts:5-24 | input under 3 characters is returned without a model call; otherwise the trimmed reply, or the input when the model fails |
| Ai.TranslateShortIgnoresModel | lib/ai.ts:8-10 | a short input comes back unchanged whatever the model does |
| Ai.TranslateResult | lib/ai.ts:19-23 | the result is the input or a trimmed reply |
| Ai.Substring | lib/ai.ts:48 | `substring(0, end)` is the prefix clamped to [0, length] |
| Ai.SummarizeContent | lib/ai.ts:27-41 | empty content or content within `maxLength` is returned unchanged; otherwise the trimmed reply |
| Ai.SummaryFallbackLength | lib/ai.ts:45-48 | on a model error a prefix followed by "..." is returned, exactly `maxLength` long when `maxLength` ≥ 3 |
| Ai.LeadingDigits | lib/ai.ts:68 | counts the leading digits, stopping at the first non-digit |
| Ai.StripNumber | lib/ai.ts:68 | removing the numbering leaves a suffix of the line |
| Ai.StripNumberOf | lib/ai.ts:68 | "digits." and the white space after it are removed, and the item kept |
| Ai.CleanNumbered | lib/ai.ts:68 | a numbered line with trailing white space becomes just its item |
| Ai.CleanUnnumbered | lib/ai.ts:68 | a line not starting with a digit is only trimmed |
| Ai.ParsedRecommendationsWellFormed | lib/ai.ts:65-71 | at most 5 items, each non-empty, trimmed and on one line |
| Ai.GenerateRecommendations | lib/ai.ts:73-80 | a model error gives the fixed five recommendations |
| Ai.RecommendationsBounded | lib/ai.ts:53-81 | whatever the model answers, at most 5 non-empty trimmed recommendations |
| Ai.DetectContentCategory | lib/ai.ts:85-101 | always one of the six categories or "general": the trimmed, lower-cased reply when whitelisted, otherwise or on error "general" |
| Ai.DetectRecognisesCategory | lib/ai.ts:94-97 | the reply " Weather\n" is detected as "weather" |
| Store.NullIfEmpty | lib/database.ts:22 | `x \|\| null` stores a missing or empty string as NULL and keeps any other |
| Store.IndexOfName | lib/database.ts:106-108 | finds a category row of that name, or reports that there is none |
| Store.EnsureCategory | lib/database.ts:99-103 | the category table grows by one row, named and described, only when the name is new; names stay unique |
| Store.Upsert | lib/database.ts:117-124 | afterwards exactly the (user, category) row carries the new frequency, inserted with no last-sent time if it was new; every other row is unchanged |
| Store.RowsToMapKeys | lib/database.ts:77-80 | the subscription map has a key for exactly the category names of the joined rows |
| Store.RowsToMapLastWins | lib/database.ts:77-80 | a later row for the same name overwrites an earlier one |
| Store.RowsToMapUniform | lib/database.ts:77-80 | when all rows of a name agree on the frequency, the map holds it |
| Store.Touched | lib/database.ts:160-167 | only `last_sent_at` of the user's rows in the named category changes |
| Store.ListingExactly | lib/database.ts:139-150 | a user is listed exactly when one of their rows matches both category name and frequency, with the stored language or "en" |
| Store.SavedRows | lib/database.ts:96-124 | after saving, the pair is listed under the new frequency and every row for it carries that frequency |
| Store.SavedSubscriptionIsListed | lib/database.ts:139-145 | after saving, the user is listed under the saved frequency and not under the other one |
| Store.SavedSubscriptionIsRead | lib/database.ts:70-80 | after saving, a user with a language sees the category at the saved frequency |
| Store.PreferenceDefault | lib/database.ts:55-92 | with no preference row or a failing query the answer is "en" with no subscriptions; otherwise the stored language |
| Store.Database.constructor | lib/database.ts:4 | the tables start empty |
| Store.Database.SaveUser | lib/database.ts:18-34 | upserts the user's names, empty ones as NULL, and raises when the statement fails; nothing else changes |
| Store.Database.SaveUserPreference | lib/database.ts:37-52 | the user's language becomes the saved one; nothing else changes |
| Store.Database.GetUserPreference | lib/database.ts:55-93 | never raises; answers `ReadPreference` and changes nothing |
| Store.Database.SaveUserSubscription | lib/database.ts:96-131 | inserts the category if absent, then upserts the (user, category) row, as far as the statements get; reports success exactly when none fails |
| Store.Database.UsersWithSubscription | lib/database.ts:134-155 | the listing, or an error when the query fails |
| Store.Database.UpdateLastNotified | lib/database.ts:158-173 | stamps the matching rows with `now`, or raises and changes nothing |
| Store.Database.LogUserInteraction | lib/database.ts:176-188 | appends the interaction with its category or NULL; never raises and reports false on failure |
| Messaging.SendError | lib/telegram.ts:461-493 | `sendMessage` throws "Bot token not configured" without a token, the API's description when Telegram answers `ok: false`, and nothing exactly when it accepts |
| Messaging.SendAll | lib/telegram.ts:184-196 | a loop of awaited sends delivers a prefix of the messages and stops only at one that fails |
| Messaging.SendAllDelivers | lib/telegram.ts:184-196 | every message reported delivered was accepted, and all are delivered exactly when each is accepted |
| Messaging.Guarded | lib/telegram.ts:136-168 | `try { sends } catch { apology }`: all replies when they go through, otherwise those delivered and the apology; it raises exactly when a send and the apology both fail |
| Messaging.GuardedReply | lib/telegram.ts:391-408 | one reply in a `try`: the reply, else the apology, else nothing and a raise |
| Messaging.Caught | lib/telegram.ts:384-387 | a `catch` entered before any send delivers just the apology |
| Messaging.Unguarded | lib/telegram.ts:110-132 | sends outside a `try` deliver a prefix and raise exactly when one fails |
| Messaging.UnguardedReply | lib/telegram.ts:131 | one send outside a `try` raises exactly when Telegram does not accept it |
| Messaging.Bot.constructor | lib/telegram.ts:9 | the bot starts with nothing sent |
| Messaging.Bot.SendMessage | lib/telegram.ts:461-493 | returns `SendError`, and records the message exactly when it was accepted |
| Messaging.Bot.SendEach | lib/telegram.ts:184-196 | records `SendAll` and reports whether every send went through |
| Messaging.Bot.SendGuarded | lib/telegram.ts:136-168 | performs `Guarded` |
| Messaging.Bot.SendGuardedReply | lib/telegram.ts:391-408 | performs `GuardedReply` |
| Messaging.Bot.SendUnguarded | lib/telegram.ts:110-132 | performs `Unguarded` |
| Messaging.Bot.SendUnguardedReply | lib/telegram.ts:457 | performs `UnguardedReply` |
| Messaging.Bot.Apologize | lib/telegram.ts:384-387 | performs `Caught` |
| Digest.WeatherLinesEnglish | lib/telegram.ts:252 | the English weather lines contain "{temperature}°C", the condition, "{humidity}%" and "{windSpeed} km/h", each reading rendered in decimal; an inherited report reads "undefined°C" |
| Digest.Compose | lib/telegram.ts:147-159 | the `+=` loop yields the header followed by one entry per item, in order |
| Digest.DigestContainsEach | lib/telegram.ts:149-159 | every item's entry occurs in the digest |
| Digest.EnglishDigestIgnoresModel | lib/telegram.ts:153-156 | in English no translation happens: the digests do not depend on the model |
| Digest.OrElse | lib/telegram.ts:161 | `text \|\| fallback` |
| Digest.HeaderedDigestNeverFallsBack | lib/telegram.ts:147-161 | a digest with a non-empty header never uses its fallback |
| Updates.TextOf | lib/telegram.ts:17 | `message.text \|\| ""` |
| Commands.CommandSplit | lib/telegram.ts:36-37 | the command is the lower-cased first space-free token; the arguments are everything after the first space, and empty without one |
| Commands.TopicCategory | lib/telegram.ts:140 | each content handler logs one of the six categories |
| Commands.TopicCommand | lib/telegram.ts:46-62 | each content command is "/" and its category |
| Commands.ParseCommand | lib/telegram.ts:42-79 | a recognised command is named by exactly the word it came from |
| Commands.ParseCommandName | lib/telegram.ts:42-72 | every command's own word selects it |
| Commands.KelvinSignSubscribesWeekly | lib/telegram.ts:349-364 | "news WEE\u212ALY", spelt with the KELVIN SIGN, is accepted as a weekly news subscription, because `toLowerCase` turns that sign into k |
| Commands.CheckSubscription | lib/telegram.ts:348-371 | the accepted category is one of the six and contains no '_' |
| Commands.CheckSubscriptionCases | lib/telegram.ts:338-371 | fewer than two parts gives the usage; then the category is checked before the frequency, both lower-cased; it is accepted exactly when both are valid |
| Commands.SubscribeIgnoresCaseAndExtraWords | lib/telegram.ts:338-353 | "NEWS Daily now" subscribes to daily news |
| Commands.DoubleSpaceIsUnknownFrequency | lib/telegram.ts:338-371 | "news  daily" splits into an empty second part, an invalid frequency |
| Commands.SubscriptionOutcome | lib/telegram.ts:333-388 | a failing save leaves at most the apology; a rejected request gets its reply; all to the chat |
| Commands.SubscriptionConfirmed | lib/telegram.ts:374-383 | the confirmation is delivered exactly when the save succeeds and Telegram accepts it |
| Commands.MissingArgumentsChangeNothing | lib/telegram.ts:338-346 | arguments without a space neither save nor schedule |
| Commands.SubscriptionListedAndArmed | lib/telegram.ts:374-377 | after a saved `/subscribe` the user is listed for the pair and, when cron accepts, has a running task under its key; otherwise none |
| Commands.ParseLanguage | lib/telegram.ts:393-398 | the argument is accepted exactly when, trimmed and lower-cased, it is "en" or "am" |
| Commands.ParseLanguageTolerant | lib/telegram.ts:393 | surrounding white space and case do not matter |
| Commands.LanguageOutcome | lib/telegram.ts:391-409 | an invalid argument gets the usage; a failing save at most the apology |
| Commands.LanguageConfirmed | lib/telegram.ts:400-404 | the confirmation is delivered exactly when the save succeeds and Telegram accepts it |
| Commands.PreferencesAfter | lib/telegram.ts:393-400 | only the sender's language changes, to the normalised value, and only for a valid argument that is saved |
| Commands.Route | lib/telegram.ts:91-106 | news, then weather, then meme, then sport keywords in either language; the first match wins; videos and social are never chosen |
| Commands.RouteIgnoresCase | lib/telegram.ts:91-97 | routing looks at the lower-cased text |
| Commands.NewsOutranksSports | lib/telegram.ts:91-98 | any text containing "news" goes to news |
| Commands.ContentBody | lib/telegram.ts:144-325 | memes send one message per meme, up to 3; every other handler one digest; all to the chat |
| Commands.ContentReplies | lib/telegram.ts:142-325 | "Fetching …" first, then the body |
| Commands.ContentOutcome | lib/telegram.ts:136-168 | all replies are delivered when Telegram accepts them; without a token nothing and a raise |
| Commands.FallbacksNeverUsed | lib/telegram.ts:147-294 | the "No news found" and "No sports updates found" fallbacks are never chosen |
| Commands.NewsReplyShows | lib/telegram.ts:147-159 | each of the first 5 articles appears in the news digest |
| Commands.VideosReplyShows | lib/telegram.ts:215-226 | each of the first 3 videos appears |
| Commands.SportsReplyShows | lib/telegram.ts:274-286 | each of the first 5 sports items appears |
| Commands.SocialReplyShows | lib/telegram.ts:313-323 | each of the first 10 trends appears |
| Commands.WeatherReplyNamesCity | lib/telegram.ts:252 | the English reply names the city, Addis Ababa for an empty one |
| Commands.WeatherReplyReadings | lib/telegram.ts:252 | the English reply contains the temperature, condition, humidity and wind readings, or "undefined" where the report lacks them |
| Commands.InheritedCityIsUndefined | lib/telegram.ts:244-252 | without a weather key, a city whose lower case is "constructor" or "__proto__" gets a reply naming it with "undefined°C" and "undefined%" |
| Commands.EnglishContentIgnoresModel | lib/telegram.ts:153-156 | in English the replies do not depend on the model |
| Commands.PlainReply | lib/telegram.ts:110-132 | `/start` gets the welcome in Markdown, to the chat |
| Commands.CommandOutcome | lib/telegram.ts:42-79 | an unrecognised command gets at most "Command not recognized"; all to the chat |
| Commands.NaturalOutcome | lib/telegram.ts:91-106 | no keyword means at most the prompt to ask for content |
| Commands.UpdateOutcome | lib/telegram.ts:12-32 | no message is ignored; no sender or a failing `saveUser` raises before any send; all replies go to the update's chat |
| Commands.Logged | lib/database.ts:176-187 | one interaction, or none when logging fails |
| Commands.CommandLogEntries | lib/telegram.ts:40 | a content command is logged twice, first bare and then with its category; every other command once; each of the two inserts can fail on its own and then leaves no entry |
| Commands.UsersAfter | lib/telegram.ts:18-23 | only the sender of a message can be added to the users |
| Commands.NewsBody | lib/telegram.ts:147-159 | the `+=` loop builds the news reply |
| Commands.VideosBody | lib/telegram.ts:215-226 | the loop builds the videos reply |
| Commands.SportsBody | lib/telegram.ts:274-286 | the loop builds the sports reply |
| Commands.SocialBody | lib/telegram.ts:313-323 | the loop builds the trends reply |
| Commands.TopicBody | lib/telegram.ts:144-325 | each handler's loop builds `ContentBody` |
| Commands.SendContent | lib/telegram.ts:135-169 | a content handler sends `ContentOutcome` in the stored language, logs its entry, and changes no other table |
| Commands.HandleSubscription | lib/telegram.ts:333-388 | sends `SubscriptionOutcome`; saves and only then schedules, as `SubscriptionApplied` states |
| Commands.SetLanguage | lib/telegram.ts:391-409 | sends `LanguageOutcome` and leaves the preferences as `PreferencesAfter` |
| Commands.HandleCommand | lib/telegram.ts:35-80 | logs the command word, then runs its case; sends `CommandOutcome`; only `/subscribe` and `/language` change state |
| Commands.RunCommand | lib/telegram.ts:42-79 | dispatches to the handler of the parsed command |
| Commands.HandleNaturalLanguage | lib/telegram.ts:83-107 | logs "natural_language", then sends the routed handler's replies or the prompt |
| Commands.AnswerRoute | lib/telegram.ts:91-106 | the routed content handler's outcome and log entry, or the prompt in the reader's language |
| Commands.ProcessUpdate | lib/telegram.ts:12-32 | saves the sender, then handles a text starting with "/" as a command and anything else as natural language; the sends, user table, interaction log and subscription state are exactly those described |
| Scheduler.Remove | lib/scheduler.ts:30 | `delete` takes the key out of the key order and keeps the others |
| Scheduler.ScheduledConsistent | lib/scheduler.ts:25-49 | scheduling keeps one task per key and a duplicate-free key order |
| Scheduler.ScheduledKeepsIds | lib/scheduler.ts:25-49 | after scheduling every key still names a task of its own, and every task id is below the next id |
| Scheduler.ScheduledKeepsOrder | lib/scheduler.ts:25-49 | after scheduling the key order lists exactly the registered keys, each once |
| Scheduler.ScheduledRegisters | lib/scheduler.ts:16-49 | the key maps to a fresh running task with the frequency's expression and "Africa/Addis_Ababa", last in key order; a previous task under it was stopped |
| Scheduler.ScheduleFailureUnregisters | lib/scheduler.ts:28-56 | when `cron.schedule` throws, the old task is stopped and the key is left without a task |
| Scheduler.ScheduledLeavesOthers | lib/scheduler.ts:25-49 | every other key keeps its task unchanged |
| Scheduler.ScheduledKeys | lib/scheduler.ts:25-34 | the key set gains the key, or loses it when scheduling fails |
| Scheduler.ScheduleTwice | lib/scheduler.ts:25-49 | scheduling twice gives the same keys and order as once |
| Scheduler.BothFrequenciesLive | lib/scheduler.ts:25 | daily then weekly for the same user and category leaves two running tasks |
| Scheduler.StatusCountsKeys | lib/scheduler.ts:251-256 | `active` is the number of keys, and the list holds exactly the keys |
| Scheduler.Stopped | lib/scheduler.ts:243-248 | every registered task is stopped; keys, order and all other tasks are unchanged |
| Scheduler.StopKeepsStatus | lib/scheduler.ts:243-256 | stopping leaves the status as it was and no registered task running |
| Scheduler.CategoryCallsMembers | lib/scheduler.ts:220-227 | the nested loops schedule exactly the listed users of every category and frequency bucket |
| Scheduler.CategoryCallsAreArmedCalls | lib/scheduler.ts:217-227 | over the six categories these are all the buckets |
| Scheduler.ScheduledRuns | lib/scheduler.ts:34-49 | scheduling keeps every running key running and adds its own |
| Scheduler.ArmUsersConsistent | lib/scheduler.ts:225-227 | the users loop keeps the registry consistent |
| Scheduler.ArmUsersKeys | lib/scheduler.ts:225-227 | the users loop adds exactly the users' keys |
| Scheduler.ArmUsersRunning | lib/scheduler.ts:225-227 | after the users loop each of those keys is running |
| Scheduler.ArmFrequenciesConsistent | lib/scheduler.ts:221-232 | the frequencies loop keeps the registry consistent, with a failing bucket skipped |
| Scheduler.ArmFrequenciesKeys | lib/scheduler.ts:221-232 | it adds exactly the keys of the buckets that list |
| Scheduler.ArmFrequenciesRunning | lib/scheduler.ts:221-232 | those keys are running |
| Scheduler.ArmCategoriesConsistent | lib/scheduler.ts:220-234 | the categories loop keeps the registry consistent |
| Scheduler.ArmCategoriesKeys | lib/scheduler.ts:220-234 | it adds exactly the keys of every listed subscriber |
| Scheduler.ArmCategoriesRunning | lib/scheduler.ts:220-234 | those keys are running |
| Scheduler.InitializedArmsListings | lib/scheduler.ts:213-240 | initialisation removes no key and adds exactly the listed subscriptions' keys, all running |
| Scheduler.InitializeTwiceSameKeys | lib/scheduler.ts:213-240 | a second run against an unchanged store gives the same key set |
| Scheduler.ListedSubscriberArmed | lib/scheduler.ts:220-227 | every subscriber a bucket lists ends up with a running task |
| Scheduler.MemeMessages | lib/scheduler.ts:111-122 | one message per meme, at most 2, to the user |
| Scheduler.ScheduledMessages | lib/scheduler.ts:79-206 | memes are a header and at most 2 memes, every other category one message, an unknown one the "not available" text; all to the user |
| Scheduler.MemesNotificationSize | lib/scheduler.ts:102-123 | with the bot's own memes, three messages |
| Scheduler.NewsNotificationCap | lib/scheduler.ts:80-100 | the news notification holds the first 3 articles, each of them |
| Scheduler.VideosNotificationCap | lib/scheduler.ts:125-143 | the video notification is the banner and the entries of the first 3 videos, each of them shown |
| Scheduler.SportsNotificationCap | lib/scheduler.ts:158-178 | the sports notification is the banner and the entries of the first 3 results, each of them shown |
| Scheduler.SocialNotificationCap | lib/scheduler.ts:180-198 | the social notification holds the first 5 trends, each of them |
| Scheduler.WeatherNotificationEnglish | lib/scheduler.ts:145-156 | the English weather notification contains all four readings of Addis Ababa |
| Scheduler.EnglishMemesIgnoreModel | lib/scheduler.ts:111-116 | English captions are not translated |
| Scheduler.EnglishNotificationIgnoresModel | lib/scheduler.ts:79-206 | an English notification does not depend on the model |
| Scheduler.Registry.constructor | lib/scheduler.ts:8 | the registry starts empty |
| Scheduler.Registry.ScheduleNotification | lib/scheduler.ts:11-57 | performs `Scheduled` and answers true, or false when registration throws |
| Scheduler.Registry.GetSchedulerStatus | lib/scheduler.ts:251-257 | `active` is the number of keys; the list holds exactly the keys |
| Scheduler.Registry.StopAllSchedulers | lib/scheduler.ts:243-248 | performs `Stopped` |
| Scheduler.Registry.ScheduleUsers | lib/scheduler.ts:225-227 | the innermost loop performs `ArmUsers` |
| Scheduler.Registry.ScheduleCategory | lib/scheduler.ts:221-233 | the frequencies loop performs `ArmFrequencies` on the store's listings, a failing one skipped |
| Scheduler.Registry.InitializeSchedulers | lib/scheduler.ts:213-240 | performs `Initialized` on the store's listings |
| Scheduler.SendScheduledContent | lib/scheduler.ts:60-210 | reads the language at fire time and sends the category's messages in order until one fails, swallowing the error |
| Scheduler.SendNotification | lib/scheduler.ts:79-206 | each digest's loop builds `ScheduledMessages`, which are sent in order |
| Scheduler.Fire | lib/scheduler.ts:36-44 | a running task sends its notification and then stamps `last_sent_at` whatever the sending did; a failing stamp changes nothing else, and the registry is untouched |
| Routes.EchoCarriesText | app/api/webhook/route.ts:48 | the echo is the opening, the text itself and the closing |
| Routes.EchoInjective | app/api/telegram/route.ts:40 | different texts are echoed differently |
| Routes.EchoStartsWithI | app/api/webhook/route.ts:48 | an echo starts with 'I', unlike every fixed reply |
| WebhookRoute.WordingDistinguishable | app/api/webhook/route.ts:33-46 | the five fixed replies start with different characters, none of them 'I' |
| WebhookRoute.ReplyChoice | app/api/webhook/route.ts:33-49 | the first of /start, /help, /news, /weather, /test that prefixes the text picks the reply, and only then; otherwise the echo |
| WebhookRoute.StartxGetsStartReply | app/api/webhook/route.ts:33-38 | "/startx" gets the start reply and "/help me" the help reply |
| WebhookRoute.Handle | app/api/webhook/route.ts:3-82 | no message gives `{ok: true}`; no token gives 500 before any send; otherwise one reply to the chat and message, and 200 with Telegram's result unless the request fails |
| WebhookRoute.PostsAnswerTheMessage | app/api/webhook/route.ts:56-66 | any reply is sent to the incoming chat as a reply to the incoming message |
| WebhookRoute.RejectionStillSucceeds | app/api/webhook/route.ts:68-77 | an `ok: false` answer still gives status 200 |
| WebhookRoute.MissingTextEchoed | app/api/webhook/route.ts:18-48 | a message without text is echoed as empty |
| TelegramRoute.WordingDistinguishable | app/api/telegram/route.ts:33-38 | the three fixed replies start with different characters, none of them 'I' |
| TelegramRoute.ReplyChoice | app/api/telegram/route.ts:33-41 | each fixed reply is chosen exactly for its command, compared whole; anything else is echoed |
| TelegramRoute.StartNowIsEchoed | app/api/telegram/route.ts:33-40 | "/start now" is echoed |
| TelegramRoute.Handle | app/api/telegram/route.ts:3-69 | no message or text gives success without a send; a missing sender or token gives 500; otherwise one reply to the chat, 200 on `ok: true`, 500 with the description on `ok: false` |
| TelegramRoute.SucceedsExactly | app/api/telegram/route.ts:58-64 | status 200 exactly when there is nothing to answer or Telegram accepts the reply |
| TelegramRoute.PostsAnswerTheMessage | app/api/telegram/route.ts:44-53 | any reply goes to the incoming chat and replies to no message |

## Left out

- **Network I/O.** None of the network calls is modelled: the Telegram request, newsapi, YouTube, OpenWeather, Twitter and `generateText`. Each is an oracle parameter, with whatever it answers or throws.
- **Message text is an oracle too.** A Telegram answer whose body is not JSON, or a `fetch` that throws, is one outcome, `Answer.Unreachable`.
- **SQL.** The Neon client and SQL are not modelled; only the table semantics are kept. The `updated_at` timestamps are not kept either.
- **Failures.** A failing statement is a parameter, not a cause.
- **Timers.** node-cron's timers and the wall clock are not modelled. A fire is an explicit call (`Scheduler.Fire`). The fire times are the predicate `Cron.FiresAt` over local minutes, hours and weekdays.
- **Floating point.** `Math.round(data.main.temp)` and `Math.round(speed * 3.6)` are floating point. The weather API's answer is taken already converted.
- **Concurrency.** Concurrent webhook requests and overlapping fires interleave in the source. Everything is modelled sequentially.
- **Logging.** `console.*` calls are left out.
- **Request bodies.** JSON parsing of request bodies is left out, so `request.json()` cannot throw in the model.
- **Chat field.** The updates carry `message.chat.id` as a field, so a message without `chat` is not modelled.
- **`setWebhook`, the routes' `GET` handlers, the UI pages and the setup and test routes.** None is modelled. Each only forwards to Telegram, reports the time or renders markup.
- **Long fixed texts.** These are the welcome, the help and the two routes' replies. They are parameters (`Commands.Texts`, `WebhookRoute.Replies`, `TelegramRoute.Replies`), so proofs do not depend on their wording. The bot's own wording is in `Wording`, which each route's `WordingDistinguishable` checks against the replies' distinguishability requirement.
- **JSON of the preferences.** `generateRecommendations` receives the preferences' JSON text as a string. `JSON.stringify` is not modelled.
- **Missing category.** The "Category … not found" error of `saveUserSubscription` (lib/database.ts:110-112) cannot occur in the table model, because the insert before it always makes the category present.
- **Subscription map order.** The key order of the object `getUserPreference` builds is not kept. It is a map.
- Text.ToLower: lowers A–Z and the KELVIN SIGN (U+212A, whose lower case is the letter k), but no other non-ASCII letter. JavaScript's `toLowerCase` folds those too; for example U+0130 becomes two characters. No other letter lowers to ASCII, so every comparison with the bot's ASCII words and with Amharic, which has no case, comes out as in the source. Only a logged command word keeps such letters in upper case here.
- Text.Trim: a string is a sequence of Unicode scalar values. JavaScript's `length` counts UTF-16 code units, so a character outside the Basic Multilingual Plane counts once here and twice there.
- Ai.TranslateText: because of the same lengths, the under-3 bypass and the 3-character boundary do not match the source for text holding emoji or other characters beyond U+FFFF.
- Ai.SummarizeContent: the `maxLength` comparisons and the `substring` cut count characters in the same way, not UTF-16 code units.
- Scheduler.InitializedArmsListings: stated only when every `cron.schedule` call succeeds. A failing call leaves its key unregistered (`Scheduler.ScheduleFailureUnregisters`).
- Scheduler.InitializeTwiceSameKeys: stated only when every `cron.schedule` call succeeds.
- Scheduler.ListedSubscriberArmed: stated only when every `cron.schedule` call succeeds.
- WebhookRoute.Handle: a failed request carries one fixed error text (`NetworkError`), the exception's own `message` being an oracle detail.
- TelegramRoute.Handle: a failed request carries one fixed error text (`NetworkError`), as above.
- Scheduler.MemesNotificationSize: stated for the bot's own demonstration data, whose five memes the meme cap of 2 cuts.
