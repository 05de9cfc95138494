# eqanun-notifier, modelled in Dafny

eqanun-notifier watches the e-qanun.az register of Azerbaijani legal acts. It tells Telegram subscribers when an act appears or changes. This project models the core of that pipeline and proves properties of the model:

- **Ingestion** (`Ingest`, `Sorting`, `Mapper`). The ingestion job pages through the search API, newest first, from offset 0 in steps of 100. It keeps the items above the stored watermark; on the initial load, when no watermark is stored, it keeps every item. It maps each item to a raw act, sorts the batch by id and hands it to the upsert.
- **Upsert** (`Acts`). The upsert creates unknown acts and overwrites changed ones. Each create or update appends an event and, outside the initial load, an `ACT_CHANGE_DETECTED` outbox record. The largest id handled becomes the new watermark.
- **Planner** (`Planning`). It claims up to 200 waiting change records, oldest first. For each one it writes a `USER_NOTIFICATION` per active subscription that matches the act, then marks the record SENT. A record whose act is missing is marked FAILED instead.
- **Sender** (`Sending`). It claims up to 100 waiting notifications and composes each message. When a message is over Telegram's 4096-unit limit, it shortens the title. It marks a delivered notification SENT. A failed one counts an attempt and is given up (FAILED) at the fifth.
- **Chat adapter** (`Bot`). Its subscription rules: a request is normalised and deduplicated before it is inserted. `/start` deep links are routed. A per-chat flag turns the next text into a keyword. `/sync` is guarded by the admin chat id.
- **Message catalogue** (`I18n`). A locale is selected, an unknown key falls back to itself, and `{name}` placeholders are substituted. The two dictionaries are `I18n.AzDict` and `I18n.EnDict`, entry for entry as in `src/telegram/i18n.ts:6-107`. `I18n.TranslateAsWritten` is `t` as the code computes it: `String.prototype.replace` expands `$` patterns in a value. `I18n.Translate` is the literal substitution the messages evidently intend. The two agree whenever no value holds a `$`. `I18n.T` and every reply of `Bot` use the first.

Supporting modules:

- `Js` restates the JavaScript built-ins the code relies on over Dafny strings. These are `slice`, `startsWith`, `includes`, `replace`, case mapping, `trim`, `split`/`join`, `String(n)`/`Number(s)` and the UTF-16 length.
- `TextUtil` holds the MarkdownV2 escaping and truncation.
- `Store` holds the records and a `Database` class whose fields are the tables.

The form of each part follows the code:

- Services that update rows in loops are classes over the `Database`, with methods proved against specification functions. These are `Acts.ActsService`, `Ingest.EqanunIngestJob`, `Planning.NotifPlannerService`, `Sending.NotifSenderService` and `Bot.TelegramUpdate`.
- `I18n.T` is a loop over the variables that computes `I18n.TranslateAsWritten`.
- The in-place sort of the collected batch is an insertion sort on an `array`.
- The string utilities and the mapper are functions.

External inputs are parameters:

- The search API is a function `fetch` from an offset to a page or a failure.
- Telegram's delivery outcome for the `k`-th claimed notification is `delivered(k)`.
- `normalizeForMatch` and `decodeURIComponent` are opaque functions.

Where the code and its declared types disagree, the model follows the code:

- `OutboxKind` at `src/notifications/entities/outbox.entity.ts:3` lists two kinds. The upsert writes a third, `ACT_CHANGE_DETECTED`, and the planner reads it. `Store.OutboxKind` has all three.
- `SubFilterType` lists three types, but the column is free text. `matches` has a branch for any other value, so `Store.SubFilterType` has an `OtherFilter` case.

Strings are sequences of Dafny characters. Text that comes from data is assumed to lie in the Basic Multilingual Plane, where one character is one UTF-16 code unit. The sender's emoji headers are counted in UTF-16 units with `Js.Utf16Length`, which is what `text.length` measures.

## Model

| member | source | states |
|---|---|---|
| TextUtil.EscapeMarkdown | src/common/utils/text.util.ts:1-5 | the escaped text is longer than the input by exactly the number of MarkdownV2 reserved characters in it |
| TextUtil.EscapeAppend | src/common/utils/text.util.ts:3-5 | the global replace works character by character: escaping a concatenation concatenates the escapes |
| TextUtil.UnescapeEscape | src/common/utils/text.util.ts:1-5 | removing each inserted backslash gives back the input, so only backslashes are added |
| TextUtil.EscapeWithoutReserved | src/common/utils/text.util.ts:1-5 | a text with no reserved character is left unchanged |
| TextUtil.BackslashFreeEscape | src/common/utils/text.util.ts:1-5 | an escaped text with no backslash came from a text with no reserved character, and equals it |
| TextUtil.TruncateWithEllipsis | src/common/utils/text.util.ts:7-11 | not truncated iff the length is at most `max`, and then the text itself; for `max >= 2` a longer text becomes its first `max-1` units plus `…`, exactly `max` long; for `0 <= max <= 1` its first `max` units; never longer than a non-negative `max` |
| TextUtil.BuildSafeTitleForTelegram | src/common/utils/text.util.ts:17-20 | the title is the escape of the text truncated at the cap; `truncated` iff the raw length exceeds the cap; `originalLength` is the raw length; an untruncated title unescapes to the raw one; the title is at most twice the cap |
| Mapper.NormalizeCategory | src/eqanun/eqanun.mapper.ts:3-9 | the result is one of LAW, DECREE, DECISION, OTHER; LAW iff the lower-cased name contains `qanunu`; DECREE iff it does not but contains `fərman`/`ferman`; DECISION iff neither holds and it contains `sərəncam`/`serencam` |
| Mapper.NormalizeCategoryIgnoresCase | src/eqanun/eqanun.mapper.ts:4 | lower- or upper-casing the type name does not change its category |
| Mapper.EmptyTypeNameIsOther | src/eqanun/eqanun.mapper.ts:4-8 | an empty type name is OTHER |
| Mapper.DottedDateBecomesIso | src/eqanun/eqanun.mapper.ts:16 | splitting on `.`, reversing and joining with `-` turns `dd.mm.yyyy` into `yyyy-mm-dd` |
| Mapper.ApiItemToRawActFields | src/eqanun/eqanun.mapper.ts:11-26 | the raw act keeps id and title, its URL is the framework prefix plus the id, its category is one of the four, it has no content hash, a non-empty class code is its date, and with neither date it has none |
| Mapper.AcceptDateBecomesPublishedDate | src/eqanun/eqanun.mapper.ts:14-16 | without a class code, an accept date `dd.mm.yyyy` is published as `yyyy-mm-dd` |
| Mapper.ApiItemCategory | src/eqanun/eqanun.mapper.ts:21 | the category classifies `typeName \|\| ''`, so a missing type name is OTHER |
| Store.WatermarkRoundTrip | src/acts/services/acts.service.ts:87-88 | writing a positive `maxId` as a decimal string and reading it back with `Number` gives `maxId`; a non-positive one leaves the watermark as it was |
| Store.ClaimFrom | src/notifications/services/notif-planner.service.ts:19-26 | the claim query: at most `limit` indices, increasing (oldest first), each of a NEW record of the consumer's kinds, and any such record left out lies after all of them with the limit reached |
| Acts.CapTitle | src/acts/services/acts.service.ts:38-43 | the stored title is a prefix of the raw one, at most 12000 units, and equal to it iff the raw title is at most 12000 units |
| Acts.UpsertOneWellFormed | src/acts/services/acts.service.ts:36-84 | one pass keeps every act under its own id and appends only well-formed outbox records |
| Acts.UpsertCounts | src/acts/services/acts.service.ts:31-85 | `created + updated` grows by at most the batch length; one event is appended per create or update; the initial load leaves the outbox alone, otherwise one NEW `ACT_CHANGE_DETECTED` record with no attempts is appended per create or update, about an id of the batch |
| Acts.UpsertOneKeys | src/acts/services/acts.service.ts:36-84 | one pass stores the act under its id, keeps the table keyed, and touches no other id |
| Acts.UpsertKeys | src/acts/services/acts.service.ts:31-85 | the stored ids grow by exactly the batch's ids, at most one act per id, and acts outside the batch are untouched |
| Acts.UpsertMaxId | src/acts/services/acts.service.ts:55-83 | `maxId` is at least its start value and every id of the batch, and is its start value or one of the ids, changed acts or not |
| Acts.UpsertStores | src/acts/services/acts.service.ts:36-84 | after a batch with distinct ids, every raw act is stored so that it no longer counts as changed |
| Acts.UpsertUnchanged | src/acts/services/acts.service.ts:63-84 | a batch of acts all stored unchanged writes no act, no event, no outbox record, and counts nothing |
| Acts.UpsertIdempotent | src/acts/services/acts.service.ts:24-93 | upserting the same batch (distinct ids) again creates and updates nothing, adds no event or outbox record, and reports the same `maxId` |
| Acts.ActsService.GetLastSeenId | src/acts/services/acts.service.ts:19-22 | returns the stored watermark read as a number (non-negative), or none before the first write |
| Acts.ActsService.UpsertRawAct | src/acts/services/acts.service.ts:35-84 | one pass of the loop: the new tables and counters are those of `UpsertOne`, other tables unchanged, the store stays valid |
| Acts.ActsService.IngestRawActs | src/acts/services/acts.service.ts:24-93 | the tables and counters are those of the upsert loop over the batch, the watermark is written when `maxId > 0`, users and subscriptions unchanged |
| Sorting.SortByIdCorrect | src/eqanun/eqanun.ingest.job.ts:103 | the sorted batch is ascending by id, a permutation of the input, and keeps input order among equal ids (the sort is stable) |
| Sorting.InsertLast | src/eqanun/eqanun.ingest.job.ts:103 | one insertion step places the next element into the sorted prefix as `InsertById` does and leaves the rest of the array alone |
| Sorting.SortByEqanunId | src/eqanun/eqanun.ingest.job.ts:103 | the in-place sort leaves the array equal to `SortById` of its old contents |
| Ingest.FreshMembers | src/eqanun/eqanun.ingest.job.ts:59-62 | every kept item is an item of the page and is not at or below a non-zero watermark |
| Ingest.FreshKeeps | src/eqanun/eqanun.ingest.job.ts:59-62 | every item not skipped by the watermark test is kept |
| Ingest.FreshKeepsAll | src/eqanun/eqanun.ingest.job.ts:60 | with no watermark or a watermark of 0, every item is kept |
| Ingest.MaxOverBounds | src/eqanun/eqanun.ingest.job.ts:34-63 | the running maximum is at least its start value and every collected id, and is the start value or one of them |
| Ingest.PaginateOffsets | src/eqanun/eqanun.ingest.job.ts:38-96 | from any loop state, the offsets fetched are `start, start+100, …`; the loop goes on after each of them but the last, and stops at the last |
| Ingest.PaginateItems | src/eqanun/eqanun.ingest.job.ts:38-96 | what the loop collects is exactly the kept items of the pages it fetched, in fetch order |
| Ingest.PaginateAllItems | src/eqanun/eqanun.ingest.job.ts:38-64 | a run collects exactly the kept items of the pages it fetched, in order: every item on the initial load or with a watermark of 0, otherwise every item above the watermark and no other |
| Ingest.PaginateAllOffsets | src/eqanun/eqanun.ingest.job.ts:33-96 | a run fetches offsets 0, 100, … while `Continues` holds and stops at the first page that fails, is empty, has nothing new (incremental), reaches the total or is short (initial load), or would pass offset 5000 (incremental, so at most 51 pages) |
| Ingest.TakeNewItems | src/eqanun/eqanun.ingest.job.ts:58-64 | the page's kept items, mapped, are appended in order; `maxId` is their running maximum; `newOnPage` counts them |
| Ingest.NextPage | src/eqanun/eqanun.ingest.job.ts:40-95 | one pass: takes the kept items of the page at `start`; stops iff `Continues` fails, otherwise moves to `start + 100` with the total of the first non-empty page |
| Ingest.CollectPages | src/eqanun/eqanun.ingest.job.ts:33-96 | the loop collects the mapped items of `PaginateAll` and their running maximum from `lastSeen ?? 0` |
| Ingest.BatchIds | src/eqanun/eqanun.ingest.job.ts:103-108 | the sorted batch holds exactly the ids of the collected items |
| Ingest.MaxIdAgrees | src/eqanun/eqanun.ingest.job.ts:108-110 | the `maxId` the job reports is the one the upsert computes from the batch, and so the one it stores |
| Ingest.IngestWatermark | src/eqanun/eqanun.ingest.job.ts:98-110 | a run that collects nothing changes nothing and reports `lastSeen ?? 0`; otherwise a positive `maxId` is stored; the watermark never goes down, and a positive one goes up whenever something was collected |
| Ingest.IngestCounts | src/eqanun/eqanun.ingest.job.ts:98-110 | `created + updated <= scanned`; `scanned` is the number collected; `initialLoad` iff no watermark; the initial load adds no outbox record, otherwise one per create or update; one event per create or update |
| Ingest.EqanunIngestJob.PerformIngest | src/eqanun/eqanun.ingest.job.ts:28-111 | the result and the new acts, events, outbox and state tables are those of `IngestRun`; users and subscriptions unchanged |
| Ingest.EqanunIngestJob.Manual | src/eqanun/eqanun.ingest.job.ts:24-26 | the same run as `PerformIngest` |
| Planning.EmptyKeywordMatchesAll | src/notifications/services/notif-planner.service.ts:68-70 | a KEYWORD subscription with a null or empty query matches every act |
| Planning.KeywordInTitleMatches | src/notifications/services/notif-planner.service.ts:68-71 | a KEYWORD whose query occurs in the title, in any letter case, matches |
| Planning.MatchesIgnoresQueryCase | src/notifications/services/notif-planner.service.ts:63-73 | a query stored upper-cased matches exactly as the original with every `ı` turned into `i` (`ı` upper-cases to `I`); a query without `ı` matches exactly as the original |
| Planning.CategoryMatch | src/notifications/services/notif-planner.service.ts:65-67 | a CATEGORY subscription stored upper-cased matches iff the lower-cased query, with every `ı` turned into `i`, equals the lower-cased category; without `ı` in the query, iff the two agree after lower-casing |
| Planning.ActiveMembers | src/notifications/services/notif-planner.service.ts:37 | a subscription is listed iff it is stored and active |
| Planning.FanOutMembers | src/notifications/services/notif-planner.service.ts:38-55 | every matching subscription gets its notification, and every notification is that of a matching subscription |
| Planning.MatchingCounts | src/notifications/services/notif-planner.service.ts:38-39 | the matching rows are listed as often as they are stored, and no other row is listed |
| Planning.FanOutExact | src/notifications/services/notif-planner.service.ts:38-55 | the fan-out writes exactly one notification per matching row, in table order: the `k`-th notification is that of the `k`-th matching row |
| Planning.FanOutWellFormed | src/notifications/services/notif-planner.service.ts:38-55 | every notification is a NEW `USER_NOTIFICATION` with no attempts, addressed to one of the subscribers, about the record's act |
| Planning.PlanAllClosedForm | src/notifications/services/notif-planner.service.ts:32-59 | over distinct claimed records, the loop leaves the records in place with the claimed ones marked, followed by their notifications, record by record |
| Planning.MarkedWellFormed | src/notifications/services/notif-planner.service.ts:35-58 | marking claimed records SENT or FAILED keeps the outbox well formed |
| Planning.AllNotificationsWellFormed | src/notifications/services/notif-planner.service.ts:38-55 | all notifications written by a run are NEW user notifications with no attempts |
| Planning.PlanFacts | src/notifications/services/notif-planner.service.ts:16-61 | a run claims at most 200 records; each claimed record ends SENT if its act exists and FAILED if not; other records are unchanged; the notifications are appended; the outbox stays well formed |
| Planning.NotifiedSubscribers | src/notifications/services/notif-planner.service.ts:37-54 | for a record whose act exists, every active matching subscription is notified, and every notification belongs to an active matching subscription |
| Planning.OnePerSubscription | src/notifications/services/notif-planner.service.ts:36-55 | for a record whose act exists, the `k`-th notification belongs to the `k`-th active matching row, and each active matching row is counted as often as it is stored, so a chat with two matching subscriptions is notified twice |
| Planning.NotifPlannerService.Plan | src/notifications/services/notif-planner.service.ts:16-61 | the outbox becomes `PlanRun` of the old one; no other table changes |
| Planning.NotifPlannerService.PlanRecord | src/notifications/services/notif-planner.service.ts:33-58 | one pass: the outbox becomes `PlanOne` for that record |
| Sending.ComposeLength | src/notifications/services/notif-sender.service.ts:36 | a message's length is its title's plus that of the rest |
| Sending.EscapeBmp | src/notifications/services/notif-sender.service.ts:27-35 | escaping keeps a title within the Basic Multilingual Plane |
| Sending.PlannedTitleKept | src/notifications/services/notif-sender.service.ts:27-35 | the fallback escape leaves a planner-built title as it is, so no title is escaped twice |
| Sending.MessageFits | src/notifications/services/notif-sender.service.ts:36-43 | if the text around the title is at most 4066 units, the message fits in 4096; one over the limit is cut to exactly 4087 units, keeping the title's beginning plus `…` |
| Sending.DeliverWellFormed | src/notifications/services/notif-sender.service.ts:44-51 | a delivery ends SENT iff it succeeded; a failure adds one attempt; kind and payload are kept; attempts stay within 5 |
| Sending.GivenUpAtFifthFailure | src/notifications/services/notif-sender.service.ts:47-49 | a new notification that fails `n <= 5` times in a row has `n` attempts, is claimed again iff `n < 5`, and is FAILED at the fifth |
| Sending.SendAllClosedForm | src/notifications/services/notif-sender.service.ts:23-53 | over distinct claimed records, each ends with its own delivery outcome and every other record is unchanged |
| Sending.SendFacts | src/notifications/services/notif-sender.service.ts:15-55 | a run claims at most 100 waiting notifications, each ends with its delivery outcome, every other record is unchanged, and the outbox stays well formed |
| Sending.NotifSenderService.Send | src/notifications/services/notif-sender.service.ts:15-55 | the outbox becomes `SendRun` of the old one; the messages handed to Telegram are those of the claimed notifications, in order |
| Sending.NotifSenderService.SendJob | src/notifications/services/notif-sender.service.ts:23-53 | one pass: the message is `MessageFor` of the payload, sent to its chat; the record becomes its delivery outcome |
| Sending.MessageForFacts | src/notifications/services/notif-sender.service.ts:24-43 | a message within 4096 units is sent as composed; a BMP title with room for 30 units around it gives a message within 4096 units |
| Sending.ComposeMessage | src/notifications/services/notif-sender.service.ts:24-43 | the text built for a payload is `MessageFor` it: untrimmed when the composed text is within 4096 units, and within 4096 units when the title is in the BMP and the rest leaves room for 30 |
| I18n.SelectLocale | src/telegram/i18n.ts:111 | English iff the locale is exactly `en` |
| I18n.BothLocalesHaveEveryKey | src/telegram/i18n.ts:5-108 | the two dictionaries define the same keys |
| I18n.ReplaceAllAbsent | src/telegram/i18n.ts:115 | a text without the placeholder is left unchanged |
| I18n.ReplaceAllAround | src/telegram/i18n.ts:115 | replacing in `a + {name} + b` replaces in `a`, puts the value in, and replaces in `b` |
| I18n.TranslateWithoutVars | src/telegram/i18n.ts:110-113 | without variables, the result is the dictionary entry, or the key itself when the dictionary lacks it |
| I18n.UnknownPlaceholdersKept | src/telegram/i18n.ts:113-117 | variables whose placeholders do not occur leave the text unchanged, so placeholders without a variable stay as they are |
| I18n.PlaceholderFilled | src/telegram/i18n.ts:114-116 | a placeholder `{name}` is replaced by the variable's value, and the text around it is kept |
| I18n.LaterVariablesSeeEarlierValues | src/telegram/i18n.ts:114-115 | variables are substituted one after another, each on the previous result: a value that is another placeholder is filled by a later variable |
| I18n.ExpandPlain | src/telegram/i18n.ts:115 | a replacement string without `$` is inserted literally |
| I18n.AsWrittenAgreesWithoutDollar | src/telegram/i18n.ts:115 | for values without `$`, the regular-expression replace as written equals the literal replacement |
| I18n.DollarPatternExpanded | src/telegram/i18n.ts:115 | a value `$&` is expanded by the replace as written into the matched `{term}`, where the literal substitution gives `$&` |
| I18n.SubstituteAgreesWithoutDollar | src/telegram/i18n.ts:113-117 | when no value holds a `$`, the substitution as written equals the literal one |
| I18n.TranslateAgreesWithoutDollar | src/telegram/i18n.ts:110-119 | when no value holds a `$`, `t` as written gives the corrected text `Translate` |
| I18n.PlaceholderFilledAsWritten | src/telegram/i18n.ts:113-117 | as written, a one-placeholder template gets a value without `$` verbatim in its place |
| I18n.KeywordReplyShowsTerm | src/telegram/i18n.ts:83 | the English reply to a new keyword subscription shows a keyword without `$` verbatim between the quotes |
| I18n.T | src/telegram/i18n.ts:110-119 | the loop over the variables computes `TranslateAsWritten`, `$` patterns in values expanded as the code does |
| Bot.UpsertUserSpec | src/telegram/telegram.update.ts:37-44 | the chat has a user afterwards, created with locale `az` if missing; existing users are unchanged; users stay keyed by chat id |
| Bot.NormalizeQueryIdempotent | src/telegram/telegram.update.ts:277-279 | normalising a stored query again changes nothing (ALL stays null, CATEGORY stays upper-cased) |
| Bot.AddSubscriptionOutcome | src/telegram/telegram.update.ts:276-313 | a row is inserted iff no keyword of the chat clashes under `normalizeForMatch` and no row has the same user, type and (non-null) query; the inserted row is the normalised request, active; a refused request changes nothing and returns a row of that chat |
| Bot.AddKeepsUnique | src/telegram/telegram.update.ts:276-313 | adding never breaks the unique index on (user, type, query) |
| Bot.AddTwice | src/telegram/telegram.update.ts:276-313 | a second identical request is refused and changes nothing |
| Bot.StartRouteCases | src/telegram/telegram.update.ts:74-92 | `cat_X` subscribes to category `X` upper-cased, `kw_T` to the keyword decoded from `T`, any other payload greets |
| Bot.DeepLinkCategoryStored | src/telegram/telegram.update.ts:76-78 | a category upper-cased before `addSubscription` is stored as it is, not upper-cased twice |
| Bot.TelegramUpdate.UpsertUser | src/telegram/telegram.update.ts:37-44 | the users table becomes `UpsertUserSpec`, the returned user is the chat's, other tables unchanged |
| Bot.TelegramUpdate.AddSubscription | src/telegram/telegram.update.ts:276-313 | the outcome and the new subscriptions table are those of `AddSubscriptionSpec`; the store stays valid |
| Bot.TelegramUpdate.OnStart | src/telegram/telegram.update.ts:68-93 | registers the chat; a category or keyword deep link adds that subscription and replies added or exists in the user's locale; otherwise replies with the welcome and the type menu; every reply is `t` as written |
| Bot.TelegramUpdate.SubAll | src/telegram/telegram.update.ts:112-119 | registers the chat, adds an ALL subscription, replies added or exists |
| Bot.TelegramUpdate.SubCategory | src/telegram/telegram.update.ts:121-128 | registers the chat, adds the upper-cased category, replies added or exists with it |
| Bot.TelegramUpdate.AskKeyword | src/telegram/telegram.update.ts:130-137 | sets the chat's waiting flag and prompts in the user's locale, or `az` without a user |
| Bot.TelegramUpdate.OnAnyText | src/telegram/telegram.update.ts:254-274 | an unknown chat is told to `/start`; a command or a text with no waiting flag changes nothing (the flag stays); a waiting chat's trimmed text clears the flag and is added as a KEYWORD, with the added or exists reply computed by `t` as written |
| Bot.TelegramUpdate.Sync | src/telegram/telegram.update.ts:240-251 | a chat other than the admin's is refused and nothing changes; the admin's starts the ingestion run and gets the starting and done replies with `created`, `updated`, `maxId` |

## Left out

- I/O is not modelled: the HTTP client, Telegram's API, logging, cron schedules and time zones. The search API and the delivery outcome are inputs to the model.
- Concurrency is not modelled: transactions are taken as atomic, and the leader lock is left out. Each service method runs alone over the store.
- `createdAt` ordering is not modelled. Outbox records are kept in creation order, and "oldest first" is the order of the sequence.
- Row order is storage order: subscriptions (`find`) and the keyword clash (`Array.find`) are read in table order.
- The duplicate-key `catch` of `addSubscription` cannot fire when requests run one at a time. `Bot.AddKeepsUnique` proves that an insert never breaks the unique index instead.
- `ensureUser` is modelled as `upsertUser`. Its guard `!chatId` never holds, because `String(ctx.chat?.id)` is never empty.
- The `manual` flag of `performIngest` only changes log lines.
- The chat UI is not modelled: keyboards, `editMessageText` versus `reply`, `/help`, `/subscribe`, `/topics`, `/manage`, `/list`, `/lang` and unsubscribing. `updateChatCommands` is not part of this model.
- `normalizeForMatch` and `decodeURIComponent` are opaque function parameters. A `decodeURIComponent` that throws on a malformed payload is not modelled.
- The lazy `require` of `escapeMarkdown` in the sender is assumed to succeed.
- `Js.Lower` and `Js.Upper` cover ASCII and the Azerbaijani Latin letters only, `ı` upper-casing to `I`. Other Unicode case mappings are not modelled. Lower-casing an upper-cased text therefore dots its `ı` (`Js.LowerOfUpper`).
- `new Date(publishedDate)` is not modelled: the stored date is kept as the raw string.
- Sending.MessageFits: assumes the title is in the Basic Multilingual Plane and that the text around the title leaves room for 30 units; beyond that, the code can still send an over-long message.
- I18n.Translate: in `I18n.Translate` and `I18n.TranslateAsWritten`, variable names are taken as literal text, not as regular expressions. Every caller passes plain names made of letters.

## Findings

| source | as written | input that shows it | evidently intended | confidence | as-written member | corrected member |
|---|---|---|---|---|---|---|
| src/telegram/i18n.ts:115 | the variable's value is passed to `String.prototype.replace` as a replacement string, so `$&`, `` $` ``, `$'` and `$$` in it are expanded | a user subscribes to the keyword `$&`: `t('en','sub_added_keyword',{term:'$&'})` puts `{term}` in the reply instead of `$&` | the value is inserted literally | not executed | I18n.DollarPatternExpanded | I18n.PlaceholderFilled |
