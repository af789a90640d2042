# WhisperTrend core, modelled in Dafny

WhisperTrend collects social-media posts and sales data for a company's
products, and correlates hashtag trends with sales. This project models the
deterministic core of that system and proves properties of the model:

- **Browser task scheduler** (`scraper/core.go`, module `Scheduler`). This is
  a pool of browser sessions ("slots") fed by a task channel, with an
  in-flight counter and a `Close` that waits for it. The goroutines become a
  sequential state machine, the class `Scheduler.Scraper`: every step a
  goroutine can take is one method, and a concurrent run is a sequence of calls.
- **Request inspector** (`scraper/resources.go`, module `Inspector`). It
  decides whether to block or forward a paused request, and builds the
  header map and payload of the record.
- **The `#[database(...)]` macro** (`macros/src/lib.rs`, module `DbMacro`).
  This covers the attribute parser, the table-name extraction and the names
  of the generated methods.
- **Server text processing.** `Flow` models hashtag collection, parsing of
  the language-model answer and the analytics request. `Notices` models the
  news query dates and keyword post-processing.
- **Web forms and pages.**
  - `EditarDatos`: the 12-month editor.
  - `LaunchEmpresa`: the company form and its size mapping.
  - `NewResource`: the keyword list.
  - `Registro`: the sign-up validator and password criteria.
  - `MenuComponentes`: the selections, rate ids and series merge.
  - `TasaGrafica`: the dynamic rate chart.
- **Calculations.**
  - `CorrelacionUtils`: the correlation percentage, icons, month order and colours.
  - `CorrelationCalculator`: the case split and the Pearson buckets.
  - `VentasCalc`: the sales chart rows and statistics.
  - `DescargaDatos` and `AgruparPosts`: the download summary, month keys and grouping.
- **Authentication.**
  - `AuthMfa`: the one-time-code check against the code cache.
  - `MagicLink` and `Tokens`: the magic-link claims and tokens.
  - `VerifiedUsers`: the global map of verified e-mail addresses.

Shared modules:

- `Wrappers`: `Option` and `Result`.
- `Text`: split, join, trim, find and character classes.
- `StableSort`: a stable insertion sort on an array, used wherever the
  source calls JavaScript's `Array.prototype.sort` with a comparator or
  Rust's `sort_by`. The comparator-less `.sort()` on the month keys of
  `DescargaDatos.ts` compares strings and is modelled separately, by
  `DescargaDatos.SortLex`.
- `Months`: month abbreviations and days per month.

Inputs the source takes from the clock, from randomness, from the browser or
from the network are parameters here:

- the current time `now`;
- the outcome of a task;
- Go's choice between two ready `select` cases;
- the metrics a chart draws.

## Model

| member | source | states |
|---|---|---|
| Scheduler.EffectiveWorkers | core/zbrowser/zbrowser-core/src-go/scraper/core.go:46-49 | at least one worker; a positive request is kept and a non-positive one becomes 1 |
| Scheduler.BlockSet | core/zbrowser/zbrowser-core/src-go/scraper/core.go:58-66 | the blocked set exists exactly when the list is non-empty, and then holds exactly the listed types |
| Scheduler.BlockedIffListed | core/zbrowser/zbrowser-core/src-go/scraper/core.go:58-66 | a resource type is blocked iff it is listed, so an empty list blocks nothing |
| Scheduler.UserOpts | core/zbrowser/zbrowser-core/src-go/scraper/core.go:78-79 | the user's options are appended one for one, in order |
| Scheduler.AllocatorFor | core/zbrowser/zbrowser-core/src-go/scraper/core.go:68-92 | exactly one allocator: remote at the configured URL iff a URL is set, else a local launch with chromedp's defaults, then the fixed flags, then the user's options |
| Scheduler.SelectAsWritten | core/zbrowser/zbrowser-core/src-go/scraper/core.go:121-156 | the worker's `select` as written: it takes a task only from a non-empty buffer, receives the zero task exactly when the buffer is empty and the `tasks` channel closed (unless the coin picks shutdown), and waits only when nothing is ready |
| Scheduler.ZeroTaskAfterClose | core/zbrowser/zbrowser-core/src-go/scraper/core.go:191-196 | after `Close`, a worker's `select` can receive the zero task from the closed task channel (see Findings) |
| Scheduler.SelectCorrected | core/zbrowser/zbrowser-core/src-go/scraper/core.go:121-156 | the corrected `select` never yields the zero task; a closed task channel means shut down |
| Scheduler.CorrectedAgreesWhenOpen | core/zbrowser/zbrowser-core/src-go/scraper/core.go:121-156 | while the `tasks` channel is open, the corrected `select` behaves exactly as written |
| Scheduler.TypedResult | core/zbrowser/zbrowser-core/src-go/scraper/core.go:174-187 | the generic `Execute` passes the error through and returns the zero value on error, else the value it carries |
| Scheduler.SubmitKeepsInv | core/zbrowser/zbrowser-core/src-go/scraper/core.go:164-167 | counting a task in and sending it (into the buffer, or blocked behind earlier senders) keeps the scheduler invariant |
| Scheduler.TakeKeepsInv | core/zbrowser/zbrowser-core/src-go/scraper/core.go:122-125 | a slot taking the head task (and the first blocked sender moving into the buffer) keeps the invariant |
| Scheduler.ShutdownKeepsInv | core/zbrowser/zbrowser-core/src-go/scraper/core.go:152-155 | a slot exiting on the shutdown signal keeps the invariant |
| Scheduler.FinishKeepsInv | core/zbrowser/zbrowser-core/src-go/scraper/core.go:125-151 | finishing a task delivers the only result of that task, which was pending and had none yet; the counter was positive and drops by one; the invariant holds |
| Scheduler.ReceiveKeepsInv | core/zbrowser/zbrowser-core/src-go/scraper/core.go:168-169 | a caller taking its result keeps the invariant |
| Scheduler.CloseKeepsInv | core/zbrowser/zbrowser-core/src-go/scraper/core.go:191-196 | with a zero counter no task is queued or blocked, and closing keeps the invariant |
| Scheduler.QueueAdvance | core/zbrowser/zbrowser-core/src-go/scraper/core.go:123 | taking the head of the buffer and admitting the first blocked sender advance the queue (buffer then blocked senders) by exactly one (also line 167) |
| Scheduler.Scraper.constructor | core/zbrowser/zbrowser-core/src-go/scraper/core.go:45-116 | `New` and `startWorkers`: the coerced worker count, the blocked set, the allocator, one idle slot with an empty session per worker, empty channels and a zero counter |
| Scheduler.Scraper.Submit | core/zbrowser/zbrowser-core/src-go/scraper/core.go:164-167 | the counter grows by one before a task joins the end of the queue, in the buffer if there is room and else behind the blocked senders; a send on the closed channel panics and changes nothing |
| Scheduler.Scraper.BufferStep | core/zbrowser/zbrowser-core/src-go/scraper/core.go:166-167 | a send with room in the buffer appends a task to the buffer |
| Scheduler.Scraper.BlockStep | core/zbrowser/zbrowser-core/src-go/scraper/core.go:166-167 | a send on a full buffer blocks behind the earlier blocked senders |
| Scheduler.Scraper.WorkerSelect | core/zbrowser/zbrowser-core/src-go/scraper/core.go:121-156 | one pass of a worker's corrected `select`: it starts the oldest queued task, or exits on shutdown, or waits, and nothing else changes |
| Scheduler.Scraper.TakeStep | core/zbrowser/zbrowser-core/src-go/scraper/core.go:123-125 | an idle slot starts the oldest queued task; a slot never holds two tasks |
| Scheduler.Scraper.ShutdownStep | core/zbrowser/zbrowser-core/src-go/scraper/core.go:152-155 | an idle slot cancels its session and exits |
| Scheduler.Scraper.WorkerFinish | core/zbrowser/zbrowser-core/src-go/scraper/core.go:125-151 | a finished task's one result, carrying its own value and error, goes to its caller; cookies and cache are cleared only when the error is nil; the counter drops by one and the slot waits again |
| Scheduler.Scraper.Receive | core/zbrowser/zbrowser-core/src-go/scraper/core.go:168-169 | a caller gets its task's result exactly when it has been delivered, and it is removed |
| Scheduler.Scraper.Close | core/zbrowser/zbrowser-core/src-go/scraper/core.go:191-196 | `Close` waits while the counter is positive; at zero it closes the shutdown channel, then the `tasks` channel, then cancels the allocator; a second `Close` panics |
| Inspector.HeadersOfKeys | core/zbrowser/zbrowser-core/src-go/scraper/resources.go:53-59 | a name is a key of the header map iff some non-nil header carries it |
| Inspector.HeadersOfLastWins | core/zbrowser/zbrowser-core/src-go/scraper/resources.go:53-59 | the value under a name is that of the last non-nil header with that name |
| Inspector.BuildHeaders | core/zbrowser/zbrowser-core/src-go/scraper/resources.go:53-59 | the header loop builds exactly the specified map |
| Inspector.ConcatAppend | core/zbrowser/zbrowser-core/src-go/scraper/resources.go:62-66 | the payload of two chunk lists is the concatenation of their payloads |
| Inspector.ConcatLength | core/zbrowser/zbrowser-core/src-go/scraper/resources.go:62-66 | the payload is as long as all chunks together and begins with the first chunk |
| Inspector.BuildPayload | core/zbrowser/zbrowser-core/src-go/scraper/resources.go:62-66 | the payload loop concatenates the chunks in order, giving "" when there are none |
| Inspector.RecordOf | core/zbrowser/zbrowser-core/src-go/scraper/resources.go:69-75 | the record copies URL, method and status unchanged; its header keys are the names of the non-nil headers; no post data gives payload "" |
| Inspector.Decide | core/zbrowser/zbrowser-core/src-go/scraper/resources.go:47-79 | a request is failed with BlockedByClient iff its type is blocked; otherwise it yields its record and is continued; the request id is kept |
| Inspector.Handle | core/zbrowser/zbrowser-core/src-go/scraper/resources.go:40-80 | the handler with its two loops makes exactly that decision |
| Inspector.FullChannelStaysStuck | core/zbrowser/zbrowser-core/src-go/scraper/resources.go:69-78 | as written, once the never-read channel is full no later request is continued, and every non-blocked one parks |
| Inspector.SecondRequestStuck | core/zbrowser/zbrowser-core/src-go/scraper/resources.go:69-78 | as written, the second request a slot forwards is never continued (see Findings) |
| Inspector.DrainedForwardsEach | core/zbrowser/zbrowser-core/src-go/scraper/resources.go:47-79 | with the channel drained, each non-blocked request yields exactly one record, in order, and is continued; each blocked one is failed and yields none |
| Inspector.DrainedDelivers | core/zbrowser/zbrowser-core/src-go/scraper/resources.go:69-75 | the records delivered are those of the forwarded requests, in order |
| Inspector.DrainedContinues | core/zbrowser/zbrowser-core/src-go/scraper/resources.go:77-78 | the requests continued are the forwarded ones, in order |
| Inspector.DrainedFails | core/zbrowser/zbrowser-core/src-go/scraper/resources.go:48-50 | the requests failed are the blocked ones, in order |
| DbMacro.RemoveSpaces | core/server/macros/src/lib.rs:168 | the cleaned attribute has no space and keeps every other character present |
| DbMacro.RemoveSpacesNoop | core/server/macros/src/lib.rs:168 | removing spaces from a text without spaces changes nothing |
| DbMacro.FindCloserLoop | core/server/macros/src/lib.rs:179-194 | the scan for the closer of `update(` counts `(`/`{` up and `)`/`}` down and stops at the first closer at depth 0, else at the start, which leaves an unclosed `update(` with empty content |
| DbMacro.SplitTopLoop | core/server/macros/src/lib.rs:199-216 | the split of the update content is exactly the specified split on commas at brace depth 0, with a non-empty tail part |
| DbMacro.UpdatePart | core/server/macros/src/lib.rs:219-239 | a part without `{` is an operation filtered by the whole part with no fields; with `{`, the filter is the text before the first `{` |
| DbMacro.UpdateOpsLoop | core/server/macros/src/lib.rs:219-239 | the loop over the parts yields their operations in order, or the first part's failure |
| DbMacro.GroupEnd | core/server/macros/src/lib.rs:246-248 | the end of a `get(`/`delete(` group is the first `)` after the start, else the end of the text |
| DbMacro.Step | core/server/macros/src/lib.rs:171-273 | each turn of the parse loop moves strictly forward |
| DbMacro.StepLoop | core/server/macros/src/lib.rs:171-273 | the loop body, with its two inner loops, makes exactly the specified turn |
| DbMacro.ParseDatabaseOperations | core/server/macros/src/lib.rs:158-277 | the parser's loop computes exactly the specified parse of the cleaned attribute |
| DbMacro.ParseIgnoresSpaces | core/server/macros/src/lib.rs:168 | spaces in the attribute never change the result |
| DbMacro.SkipsUnrecognised | core/server/macros/src/lib.rs:271-272 | a character that starts no keyword is skipped on its own |
| DbMacro.ParseKeepsCollected | core/server/macros/src/lib.rs:171-276 | once set, the create and get_all flags stay set, and collected updates are only ever extended |
| DbMacro.NoCreateKeepsFlag | core/server/macros/src/lib.rs:159-176 | without "create" in the text the create flag keeps its initial value (false) |
| DbMacro.NoGetAllKeepsFlag | core/server/macros/src/lib.rs:159-165 | without "get_all" in the text the get_all flag keeps its initial value (false) (also lines 268-270) |
| DbMacro.CreateSetsFlag | core/server/macros/src/lib.rs:173-176 | "create" at the current position sets the create flag in every successful parse |
| DbMacro.GetGroupReplaces | core/server/macros/src/lib.rs:256-265 | `get(a,b)` replaces the getters collected so far by the comma split of its content and moves past the `)` |
| DbMacro.DeleteGroupReplaces | core/server/macros/src/lib.rs:244-253 | `delete(a,b)` replaces the deleters collected so far by the comma split of its content and moves past the `)` |
| DbMacro.PlainUpdateContent | core/server/macros/src/lib.rs:232-237 | the content `f` of `update(f)` is one operation filtered by f with no fields |
| DbMacro.UpdateWithoutFields | core/server/macros/src/lib.rs:178-241 | `update(f)` appends the operation (f, []) and moves past the `)` |
| DbMacro.BracedContentIsOnePart | core/server/macros/src/lib.rs:203-216 | commas inside braces do not split: `f{a,b}` is a single part |
| DbMacro.BracedPart | core/server/macros/src/lib.rs:220-231 | the part `f{a,b}` is the operation filtered by f that sets a and b |
| DbMacro.BracedUpdateContent | core/server/macros/src/lib.rs:199-239 | the content `f{a,b}` of `update(...)` yields the one operation (f, [a, b]) |
| DbMacro.UpdateWithFields | core/server/macros/src/lib.rs:178-241 | `update(f{a,b})` appends the operation (f, [a, b]) and moves past the `)` |
| DbMacro.UpdateStep | core/server/macros/src/lib.rs:178-241 | an `update(...)` group appends the operations of its content and moves past its closer |
| DbMacro.UpdateMethodName | core/server/macros/src/lib.rs:353-434 | an update method's name starts with "update_" and ends with "_by_" and the filter |
| DbMacro.UpdateMethodNameFields | core/server/macros/src/lib.rs:396-398 | with fields the name is "update_", the fields joined by "_and_", "_by_" and the filter (also lines 431-434) |
| DbMacro.MethodNames | core/server/macros/src/lib.rs:281-520 | one generated method per flag that is set and per get, update and delete entry |
| DbMacro.MethodNamesCover | core/server/macros/src/lib.rs:309-311 | the names include get_all when requested, get_by_f for each getter, delete_by_f for each deleter and each update's name (also lines 323-324, 353-434, 497-498) |
| DbMacro.CreateOnlyWhenRequested | core/server/macros/src/lib.rs:293-295 | a `create` method is generated iff the create flag is set |
| DbMacro.GenerateMethods | core/server/macros/src/lib.rs:281-536 | the generated names are returned exactly when every getter, deleter, update filter and update field is an identifier, and then each name is an identifier; any other field makes `format_ident!` panic (lines 324-325, 355, 399, 449, 498, 514) |
| DbMacro.UpdateNameIsIdent | core/server/macros/src/lib.rs:353-434 | an update whose filter and fields are identifiers gets a method name that is an identifier |
| DbMacro.NumericGetterPanics | core/server/macros/src/lib.rs:323-325 | `get(1)` makes the macro panic, since "1" is not an identifier |
| DbMacro.TrimQuotes | core/server/macros/src/lib.rs:116 | trimming quotes leaves no quote at either end and never lengthens the text |
| DbMacro.ExtractTableName | core/server/macros/src/lib.rs:98-154 | the quoted form from the first pass wins, else the loose form from the second pass, else a panic "Not found table name" |
| DbMacro.NoDieselAttributePanics | core/server/macros/src/lib.rs:100-103 | a struct without a Diesel attribute makes the macro panic (also lines 127-128, 153) |
| DbMacro.OtherAttributesIgnored | core/server/macros/src/lib.rs:100-103 | non-Diesel attributes before the Diesel ones change nothing (also lines 127-128) |
| DbMacro.QuotedForm | core/server/macros/src/lib.rs:110-118 | `table_name = "t"` gives t |
| DbMacro.LooseForm | core/server/macros/src/lib.rs:134-144 | `table_name = v` with no comma gives v trimmed |
| Flow.KeepFirstMembers | core/server/app/src/controllers/flow.rs:147-169 | keeping first occurrences loses and adds no keyword |
| Flow.KeepFirstDistinct | core/server/app/src/controllers/flow.rs:147-169 | the kept keywords contain no duplicate |
| Flow.KeepFirstOfDistinct | core/server/app/src/controllers/flow.rs:147-169 | a list without duplicates is kept as it is |
| Flow.KeepFirstPrefix | core/server/app/src/controllers/flow.rs:147-169 | keywords met later never disturb the ones kept before, so the order of first occurrence is kept |
| Flow.AppendNew | core/server/app/src/controllers/flow.rs:150-154 | one platform's loop appends each keyword not yet collected, continuing the first-occurrence list |
| Flow.ExtractAllHashtags | core/server/app/src/controllers/flow.rs:147-169 | the three loops give the first occurrences of the instagram, then reddit, then twitter keywords |
| Flow.ExtractAllHashtagsMeaning | core/server/app/src/controllers/flow.rs:147-169 | the collected hashtags have no duplicates, are exactly the keywords of the three platforms, and begin with instagram's |
| Flow.SplitOnHead | core/server/app/src/controllers/flow.rs:447 | the first piece of a split is the text before the first separator |
| Flow.AfterThinkNoTag | core/server/app/src/controllers/flow.rs:446-447 | without "</think>" the whole trimmed response is used |
| Flow.AfterThinkTag | core/server/app/src/controllers/flow.rs:446-447 | with "</think>", the text after the first one, up to the next one, trimmed, is used |
| Flow.TrimmedNonEmpty | core/server/app/src/controllers/flow.rs:451-455 | the pieces kept are trimmed and non-empty, and none is invented |
| Flow.Words | core/server/app/src/controllers/flow.rs:448-457 | at most 5 words, each trimmed and non-empty |
| Flow.WordsOfJoin | core/server/app/src/controllers/flow.rs:448-457 | up to 5 well-formed words joined by ", " are read back unchanged |
| Flow.RemoveDashes | core/server/app/src/controllers/flow.rs:461 | removing '-' drops exactly the dashes |
| Flow.Sentence | core/server/app/src/controllers/flow.rs:459-462 | the sentence is parenthesised and has no '-' |
| Flow.SentenceAlternatives | core/server/app/src/controllers/flow.rs:459-462 | inside the parentheses the alternatives, split on " OR ", are the words with '-' removed |
| Flow.RunLength | core/server/app/src/controllers/flow.rs:466-468 | the match of `\w+` takes the longest run of word characters |
| Flow.Hashtags | core/server/app/src/controllers/flow.rs:464-475 | every hashtag found is a non-empty run of word characters |
| Flow.HashtagsOfTagged | core/server/app/src/controllers/flow.rs:464-475 | hashtags written as "#a #b" are read back in order with '#' stripped |
| Flow.HashtagsSkip | core/server/app/src/controllers/flow.rs:466-468 | a character other than '#' is skipped by the search |
| Flow.HashtagsStep | core/server/app/src/controllers/flow.rs:466-472 | "#t" followed by a non-word character yields t, then the matches in the rest |
| Flow.ParseResponse | core/server/app/src/controllers/flow.rs:446-475 | the query sentence starts with '(' and has no '-', and every hashtag is a run of word characters |
| Flow.ParseResponseOf | core/server/app/src/controllers/flow.rs:446-475 | a response without "</think>" split on '@' into words and block gives the sentence of its words and the hashtags of its block |
| Flow.ParseResponseRoundTrip | core/server/app/src/controllers/flow.rs:446-475 | the answer "w1, ..., wn@#t1 #t2" with 1 to 5 words parses to the sentence of those words and the tags in order |
| Flow.ItemData | core/server/app/src/controllers/flow.rs:336-345 | an item is kept iff it has a string keyword and an array of posts |
| Flow.CollectedMembers | core/server/app/src/controllers/flow.rs:336-345 | the collected data are exactly those of the well-formed items |
| Flow.CollectedAllWellFormed | core/server/app/src/controllers/flow.rs:336-345 | when every item is well formed, each yields its data, in order |
| Flow.CollectPlatform | core/server/app/src/controllers/flow.rs:331-347 | one platform's loop collects the data of its well-formed items, none when the platform array is missing |
| Flow.ConvertTrendsToAnalyticsRequest | core/server/app/src/controllers/flow.rs:323-394 | the request carries the given hashtags, each platform's collected data and no sales |
| Flow.PlatformDataMissing | core/server/app/src/controllers/flow.rs:331-335 | a missing "data" or platform array gives no data for that platform |
| Notices.FormatYear | core/server/app/src/scraping/notices.rs:85-86 | `%Y` of a year 0..9999 is four digits that read back as the year |
| Notices.TwoDigits | core/server/app/src/scraping/notices.rs:85-86 | `%m` and `%d` are two digits that read back as the number |
| Notices.NewParams | core/server/app/src/scraping/notices.rs:79-97 | the parameters carry the query and language, mode "artlist" and format "JSON", the start date as YYYYMMDD + "000000" and the end date as YYYYMMDD + "235959" |
| Notices.BoundDecodes | core/server/app/src/scraping/notices.rs:85-86 | a bound is 14 digits whose year, month and day fields read back as the date, followed by the time of day |
| Notices.BoundsOfOneDay | core/server/app/src/scraping/notices.rs:85-86 | for a one-day query both bounds share the date and cover it from 000000 to 235959 |
| Notices.TrimAll | core/server/app/src/scraping/notices.rs:176-178 | each keyword is trimmed, one for one |
| Notices.MetaKeywords | core/server/app/src/scraping/notices.rs:176-178 | the meta keywords are the comma-separated pieces, each trimmed and free of commas |
| Notices.MetaKeywordsOfJoin | core/server/app/src/scraping/notices.rs:176-178 | trimmed keywords joined by "," are read back unchanged |
| Notices.WordCount | core/server/app/src/scraping/notices.rs:204 | `split(" ").count()` is at least one |
| Notices.Capitalize | core/server/app/src/scraping/notices.rs:210-215 | only the first character is uppercased and the length is kept |
| Notices.NonEmpty | core/server/app/src/scraping/notices.rs:209 | empty words are dropped and no word is invented |
| Notices.PascalCaseHasNoSpace | core/server/app/src/scraping/notices.rs:207-218 | a hashtag never contains a space |
| Notices.ToLowerJoin | core/server/app/src/scraping/notices.rs:208 | lowercasing a sentence lowercases each word |
| Notices.PascalCaseOfWords | core/server/app/src/scraping/notices.rs:207-218 | the hashtag of "w1 w2 ..." is the lowercased words, each capitalised, concatenated |
| Notices.ShapeKeepsFewestWords | core/server/app/src/scraping/notices.rs:203-218 | a detail keeps exactly one keyword, the first with the fewest words, as a hashtag; nothing else changes |
| Notices.ShapeWithoutKeywords | core/server/app/src/scraping/notices.rs:203-218 | a detail without keywords is unchanged |
| Notices.PostProcessKeepsMostKeywords | core/server/app/src/scraping/notices.rs:198-221 | at most three details survive, in descending keyword count, each the shaped form of a scraped one; no dropped detail has more keywords than a kept one; the sort only permutes |
| Notices.ShapeDetail | core/server/app/src/scraping/notices.rs:203-218 | one turn of the loop sorts the keywords in place by word count, keeps one and shapes it, as specified |
| Notices.PostProcessDetails | core/server/app/src/scraping/notices.rs:198-221 | the in-place sort, cut and loop compute exactly the specified details |
| EditarDatos.MesAt | core/web/src/pages/EditarDatos.tsx:66-72 | a month entry carries the year and numeroMes = month index + 1 |
| EditarDatos.Prev | core/web/src/pages/EditarDatos.tsx:74-79 | one step back is exactly one month earlier, and January steps back to December of the previous year |
| EditarDatos.BackCount | core/web/src/pages/EditarDatos.tsx:65-80 | after k steps back the month is exactly k months earlier |
| EditarDatos.MonthsEndingAt | core/web/src/pages/EditarDatos.tsx:65-80 | the j-th of n months prepended one by one is the month n-1-j steps back |
| EditarDatos.MonthsBack | core/web/src/pages/EditarDatos.tsx:54-83 | the generator returns 12 months |
| EditarDatos.MonthsBackEndsNow | core/web/src/pages/EditarDatos.tsx:61-72 | the last month is the current one |
| EditarDatos.MonthsBackStartsYearAgo | core/web/src/pages/EditarDatos.tsx:54-83 | the first month is the one after the current month a year earlier |
| EditarDatos.PrevNext | core/web/src/pages/EditarDatos.tsx:74-79 | the month one step back is immediately followed by the month it came from |
| EditarDatos.MonthsBackAscending | core/web/src/pages/EditarDatos.tsx:54-83 | the 12 months are consecutive and in ascending order |
| EditarDatos.MonthIdDecodes | core/web/src/pages/EditarDatos.tsx:66 | the id "YYYY-MM" has a zero-padded two-digit month and reads back as year and month |
| EditarDatos.MonthIdInjective | core/web/src/pages/EditarDatos.tsx:66 | different months have different ids |
| EditarDatos.GenerarMesesAtras | core/web/src/pages/EditarDatos.tsx:54-83 | the loop with unshift and the wrapping month/year counters computes exactly the 12 months ending now |
| EditarDatos.Mantissa | core/web/src/pages/EditarDatos.tsx:128 | the part of the value before an exponent |
| EditarDatos.NegativeExamples | core/web/src/pages/EditarDatos.tsx:128 | "-5", "-0.5" and "-2e3" are refused as negative |
| EditarDatos.NonNegativeExamples | core/web/src/pages/EditarDatos.tsx:128 | "", "7", "-0" and "-0.00" are not negative |
| EditarDatos.Keyed | core/web/src/pages/EditarDatos.tsx:226-229 | each stored sale is keyed by its "YYYY-MM" id, in order |
| EditarDatos.GroupKeys | core/web/src/pages/EditarDatos.tsx:225-229 | an id is a key of the grouping iff some sale has it |
| EditarDatos.GroupLast | core/web/src/pages/EditarDatos.tsx:225-229 | the value under an id is that of the last sale with that id |
| EditarDatos.GroupedKeys | core/web/src/pages/EditarDatos.tsx:225-229 | the grouped ids are exactly those of the stored sales |
| EditarDatos.GroupedLast | core/web/src/pages/EditarDatos.tsx:225-229 | a later sale of the same month overwrites an earlier one |
| EditarDatos.GroupSales | core/web/src/pages/EditarDatos.tsx:225-229 | the loop builds exactly the specified grouping |
| EditarDatos.Filled | core/web/src/pages/EditarDatos.tsx:231-237 | the refilled table has exactly the months' ids, each the grouped units as text or "" |
| EditarDatos.SaleRequests | core/web/src/pages/EditarDatos.tsx:164-172 | one request per month with data, carrying the user, the product and that month's number, year and units; every request comes from a month with data |
| EditarDatos.SaleRequestsInOrder | core/web/src/pages/EditarDatos.tsx:164-172 | the requests follow the table order: two runs of months give the first run's requests, then the second's |
| EditarDatos.NoDataNoRequests | core/web/src/pages/EditarDatos.tsx:141-147 | with no month holding data nothing is sent (also line 164) |
| EditarDatos.EditarDatosPage.constructor | core/web/src/pages/EditarDatos.tsx:109-116 | the page starts with the 12 months, every month empty, and no error |
| EditarDatos.EditarDatosPage.HandleChange | core/web/src/pages/EditarDatos.tsx:127-134 | a negative value sets the error and leaves the table unchanged; any other value changes only that month and clears the error |
| EditarDatos.EditarDatosPage.HandleGuardar | core/web/src/pages/EditarDatos.tsx:140-172 | without data: an error and nothing sent; without a user: nothing sent; without a product: an error; otherwise the requests of the months with data; the table never changes |
| EditarDatos.EditarDatosPage.CargarVentas | core/web/src/pages/EditarDatos.tsx:210-237 | loading refills every month from the grouped sales, "" where there is none |
| EditarDatos.FilledMeaning | core/web/src/pages/EditarDatos.tsx:225-236 | after loading, each month has an entry, which is "" iff no stored sale has that month |
| LaunchEmpresa.MapSizeToOption | core/web/src/pages/LaunchEmpresa.tsx:47-60 | each of the four stored sizes maps to one of the four options; anything else maps to "" |
| LaunchEmpresa.OptionToSize | core/web/src/pages/LaunchEmpresa.tsx:136-140 | each of the four options maps back to a stored size; anything else gives "" |
| LaunchEmpresa.SizeOptionPairs | core/web/src/pages/LaunchEmpresa.tsx:47-60 | the k-th size and the k-th option map to each other (also lines 136-140) |
| LaunchEmpresa.RoundTrips | core/web/src/pages/LaunchEmpresa.tsx:47-60 | option to size to option, and size to option to size, are the identity on the four values (also lines 136-140) |
| LaunchEmpresa.InitialForm | core/web/src/pages/LaunchEmpresa.tsx:65-70 | the employee field starts empty exactly when the stored size is not one of the four |
| LaunchEmpresa.KeyCount | core/web/src/pages/LaunchEmpresa.tsx:98 | the errors object has no key exactly when no error was recorded |
| LaunchEmpresa.ValidarFormulario | core/web/src/pages/LaunchEmpresa.tsx:81-99 | the six fields are required, the text fields after trimming; a non-blank branch count must match `^\d+$`; the form is valid iff no error was recorded, iff all six checks pass |
| LaunchEmpresa.NumeralNotBlank | core/web/src/pages/LaunchEmpresa.tsx:90-94 | a numeric branch count is never blank |
| NewResource.NewResourcePage.constructor | core/web/src/pages/NewResource.tsx:33-37 | the form opens with the stored resource's fields, an empty input and no words |
| NewResource.NewResourcePage.SetPalabra | core/web/src/pages/NewResource.tsx:36 | typing sets the word input |
| NewResource.NewResourcePage.HandleAgregar | core/web/src/pages/NewResource.tsx:70-76 | the trimmed word is appended and the input cleared only when it is non-blank, new and fewer than 10 words exist; otherwise nothing changes; the list stays trimmed, non-empty, distinct and at most 10 long |
| NewResource.NewResourcePage.EliminarPalabra | core/web/src/pages/NewResource.tsx:83-85 | every entry equal to the word is removed, the rest keep their order, and the list stays well formed |
| NewResource.ValidarFormulario | core/web/src/pages/NewResource.tsx:47-58 | type, name and description must be non-blank and a word must be listed; valid iff no error was recorded |
| Registro.PatternHasAt | core/web/src/pages/Registro.tsx:104-113 | an address matching the pattern is non-empty and contains '@', so the three e-mail checks are consistent |
| Registro.SimpleAddress | core/web/src/pages/Registro.tsx:110 | local@host.tld with a letter-only tld of two or more letters matches the pattern |
| Registro.PatternOneAt | core/web/src/pages/Registro.tsx:110 | an address matching the pattern has exactly one '@' |
| Registro.PasswordCriteria | core/web/src/pages/Registro.tsx:155-164 | length at least 8, and an uppercase letter, a lowercase letter, a digit and one of @$!%*?& each occur |
| Registro.StrongPassword | core/web/src/pages/Registro.tsx:155-164 | a password of 8 or more with an uppercase, a lowercase, a digit and a special character meets all five criteria |
| Registro.ShortPasswordFails | core/web/src/pages/Registro.tsx:158-159 | a password shorter than 8 never meets the criteria |
| Registro.NameError | core/web/src/pages/Registro.tsx:88-102 | a blank name is "required"; a non-blank name with a character other than a letter, an accented vowel, ñ or a space is "letters only"; otherwise no error (also lines 123-129) |
| Registro.EmailError | core/web/src/pages/Registro.tsx:104-113 | the e-mail is checked in order: present, then contains '@', then matches the pattern; no error iff it matches |
| Registro.PhoneError | core/web/src/pages/Registro.tsx:115-121 | the phone must be non-empty and all digits |
| Registro.PasswordError | core/web/src/pages/Registro.tsx:131-137 | the password is required and must meet all five criteria |
| Registro.ConfirmError | core/web/src/pages/Registro.tsx:139-145 | the confirmation is required and must equal the password |
| Registro.ValidateForm | core/web/src/pages/Registro.tsx:76-149 | the errors are those of each field check, and the form is valid iff no error was set, iff every field passes |
| CorrelacionUtils.Round | core/web/src/components/correlacionUtils.tsx:34 | `Math.round` gives the integer within half of its argument, halves rounding up |
| CorrelacionUtils.Clamp | core/web/src/components/correlacionUtils.tsx:36 | `Math.min(Math.max(x, lo), hi)` lies in [lo, hi], leaves values already in range alone, and keeps `NaN` as `NaN` (a comparison with `NaN` is false) |
| CorrelacionUtils.Rates | core/web/src/components/correlacionUtils.tsx:24 | one rate per record, the record's `tasa` or 0 when it is missing |
| CorrelacionUtils.Rises | core/web/src/components/correlacionUtils.tsx:27-30 | the number of rises of a sequence of n rates is at most n - 1, and 0 for fewer than two rates |
| CorrelacionUtils.RisesExtremes | core/web/src/components/correlacionUtils.tsx:27-30 | a sequence that never rises counts 0 rises; a strictly rising one counts n - 1 |
| CorrelacionUtils.CountRises | core/web/src/components/correlacionUtils.tsx:27-30 | the loop counts exactly the rises of the rates |
| CorrelacionUtils.Score | core/web/src/components/correlacionUtils.tsx:32-36 | the weighted score is `NaN` exactly when the trend factor is, and otherwise a whole number in [45, 95] |
| CorrelacionUtils.CalcularCorrelacion | core/web/src/components/correlacionUtils.tsx:21-37 | no data or an empty list gives 0; exactly one record gives `NaN` (the trend divides 0 by 0); two or more give the score of 60% of the share of rises among the steps plus 40% of ten times the average (capped at 100), rounded and clamped, a whole number in [45, 95] |
| CorrelacionUtils.CalcularCorrelacionCorregida | core/web/src/components/correlacionUtils.tsx:21-37 | a single record scores as no trend with its own rate as the average; two or more score as the as-written version; every non-empty list gives a whole number in [45, 95] |
| CorrelacionUtils.ScoreExtremes | core/web/src/components/correlacionUtils.tsx:27-36 | rates rising at every step with an average of at least 10 score 95; rates never rising with an average of at most 0 score 45 |
| CorrelacionUtils.IconoHashtag | core/web/src/components/correlacionUtils.tsx:45-65 | the default icon is returned exactly when the lower-cased name contains none of the twelve keywords; otherwise the first matching group, in the order 🌱, ♻️, 🧪, 👗, 🌿, decides the icon |
| CorrelacionUtils.ToLowerIdempotent | core/web/src/components/correlacionUtils.tsx:46 | lower-casing twice is lower-casing once |
| CorrelacionUtils.IconoIgnoresCase | core/web/src/components/correlacionUtils.tsx:46 | the icon does not depend on letter case |
| CorrelacionUtils.OrdenarPorMes | core/web/src/components/correlacionUtils.tsx:73-84 | the array is sorted in place, stably, by the month named at the head of `fecha` (unknown months count 0) |
| CorrelacionUtils.OrdenarPorMesOrder | core/web/src/components/correlacionUtils.tsx:73-84 | the sorted rows are a permutation of the input, ordered by month, and rows of equal month keep their input order |
| CorrelacionUtils.ColorFrom | core/web/src/components/correlacionUtils.tsx:92-106 | a palette entry is found exactly when the index is non-negative or a multiple of the palette length (where JavaScript's remainder is `-0`), and it is the entry at index modulo the palette length |
| CorrelacionUtils.ColoursCycle | core/web/src/components/correlacionUtils.tsx:92-106 | the main palette repeats every five indices and the news palette every three, and every non-negative index has a colour |
| CorrelacionUtils.NegativeIndices | core/web/src/components/correlacionUtils.tsx:92-106 | a negative multiple of 5 (of 3 for the news palette) gets the first colour; any other negative index gets none |
| CorrelationCalculator.Direccion | core/web/src/components/correlationCalculator.tsx:45 | the direction is "positiva" exactly when r >= 0 (never for `NaN`) |
| CorrelationCalculator.InterpretarPearson | core/web/src/components/correlationCalculator.tsx:38-83 | at \|r\| >= 0.3 the category ends with the direction; below it (and for `NaN`) the result is the "Muy débil/Nula" entry |
| CorrelationCalculator.InterpretarPearsonFuerza | core/web/src/components/correlationCalculator.tsx:47-82 | the strength of the interpretation is the tier of \|r\| with thresholds 0.9, 0.7, 0.5 and 0.3 |
| CorrelationCalculator.InterpretarPearsonNaN | core/web/src/components/correlationCalculator.tsx:44-82 | `NaN` falls through every threshold to the weakest tier |
| CorrelationCalculator.InterpretarPearsonMonotona | core/web/src/components/correlationCalculator.tsx:47-82 | a larger \|r\| never gives a weaker interpretation |
| CorrelationCalculator.InterpretarPearsonEspejo | core/web/src/components/correlationCalculator.tsx:47-82 | r and -r share the description but differ in colour and direction |
| CorrelationCalculator.ToFixed3 | core/web/src/components/correlationCalculator.tsx:175-181 | the printed coefficient is "NaN" exactly for `NaN` |
| CorrelationCalculator.ConfianzaMonotona | core/web/src/components/correlationCalculator.tsx:173-185 | confidence never decreases with more months, and is insufficient exactly below three months |
| CorrelationCalculator.Units | core/web/src/components/correlationCalculator.tsx:147 | the units sold of each record, in order |
| CorrelationCalculator.ResultadoReal | core/web/src/components/correlationCalculator.tsx:145-199 | with at least three sales and metrics, the result is real, carries the coefficient clamped to [-1, 1], its interpretation and the confidence and message for the count |
| CorrelationCalculator.CalcularCorrelacionTransparente | core/web/src/components/correlationCalculator.tsx:94-200 | the result is that of the specification for the original sales; the sales array is sorted in place by (year, month) only on the path that computes a coefficient, and left alone otherwise |
| CorrelationCalculator.Confiabilidad | core/web/src/components/correlationCalculator.tsx:169-185 | the tier and message for n months: high from 12, medium from 6, low from 3 |
| CorrelationCalculator.ResultadoCasos | core/web/src/components/correlationCalculator.tsx:94-200 | every result is coherent: real iff at least three sales and metrics, an estimate iff one or two sales, insufficient confidence iff not real, 0 and no interpretation when not real, a clamped coefficient when real, "N/A" for no sales |
| CorrelationCalculator.UnitsOrdenadasCronologicas | core/web/src/components/correlationCalculator.tsx:145-147 | the units fed to the coefficient are those of the sales reordered chronologically: a permutation, never going down in (year, month), ties in input order |
| MenuComponentes.HashtagId | core/web/src/components/MenuComponentes.tsx:347 | a hashtag's id is no longer than the name, holds only lower-case letters and digits, and a character occurs in it exactly when it is the lower-cased form of a letter or digit of the name |
| MenuComponentes.HashtagIdCons | core/web/src/components/MenuComponentes.tsx:347 | the id keeps the name's letters and digits in their order: a leading letter or digit is kept lower-cased, anything else dropped |
| MenuComponentes.HashtagIdOfClean | core/web/src/components/MenuComponentes.tsx:347 | a name of lower-case letters and digits is its own id |
| MenuComponentes.FilterKeepsAll | core/web/src/components/MenuComponentes.tsx:347 | dropping characters that are all kept changes nothing |
| MenuComponentes.HashtagIdIdempotent | core/web/src/components/MenuComponentes.tsx:347 | normalising an id again changes nothing |
| MenuComponentes.Consolidacion.constructor | core/web/src/components/MenuComponentes.tsx:38 | the consolidated chart starts with "insta" selected |
| MenuComponentes.Consolidacion.ToggleSeleccion | core/web/src/components/MenuComponentes.tsx:74-78 | a selected hashtag is removed; another is appended and the last three kept, so with three selected the oldest drops out; the toggled hashtag is selected afterwards iff it was not before; at most three distinct hashtags stay selected |
| MenuComponentes.ToggleTwice | core/web/src/components/MenuComponentes.tsx:74-78 | with fewer than three selected, selecting and then deselecting a hashtag restores the selection |
| MenuComponentes.Menu.constructor | core/web/src/components/MenuComponentes.tsx:385 | the breakdown view starts with "int_insta_eco" selected |
| MenuComponentes.Menu.HandleTasaToggle | core/web/src/components/MenuComponentes.tsx:434-452 | an unselected rate is appended; a selected one is removed unless that would empty the selection, which is then left as it was; a non-empty selection never becomes empty |
| MenuComponentes.OnlyRateRefused | core/web/src/components/MenuComponentes.tsx:437-441 | removing a selected rate empties the selection exactly when every entry is that rate |
| MenuComponentes.FindByNombre | core/web/src/components/MenuComponentes.tsx:305 | the hashtag found is the first one of that name, and none is found iff the platform has no list or no hashtag of that name |
| MenuComponentes.RatePairPaired | core/web/src/components/MenuComponentes.tsx:307 | the two ids pushed for a hashtag are its interaction and virality ids on the same platform |
| MenuComponentes.PairedAppend | core/web/src/components/MenuComponentes.tsx:305-318 | pushing a pair of ids keeps the list a sequence of interaction/virality pairs |
| MenuComponentes.ObtenerTasasPorHashtag | core/web/src/components/MenuComponentes.tsx:298-321 | no system data gives no ids; otherwise the interaction and virality ids of the Instagram, then the Reddit, then the X hashtag of that name, each pair only where the hashtag exists |
| Text.FindFirst | core/web/src/components/MenuComponentes.tsx:87 | `.find` with a key projection: the first element with that key, none iff no element has it |
| MenuComponentes.FindSeries | core/web/src/components/MenuComponentes.tsx:87 | the first series with that id, or none iff no series has it |
| MenuComponentes.FindPoint | core/web/src/components/MenuComponentes.tsx:98 | the first point of that date, or none iff the series has no such date |
| MenuComponentes.AllDates | core/web/src/components/MenuComponentes.tsx:83-92 | a date is listed iff it belongs to one of the selected series |
| MenuComponentes.MergedRows | core/web/src/components/MenuComponentes.tsx:94-102 | one row per distinct date, in first-seen order, each carrying the selected series' values at that date |
| MenuComponentes.CombinarDatosInteraccion | core/web/src/components/MenuComponentes.tsx:80-105 | without system data no rows; otherwise the merged rows sorted by month |
| MenuComponentes.CombinedRows | core/web/src/components/MenuComponentes.tsx:83-104 | the rows are one per distinct date of the selected series, ordered by month, each date of the selection appears, and each row holds exactly the selected ids with the series' rate at that date |
| MenuComponentes.MissingIsZero | core/web/src/components/MenuComponentes.tsx:97-99 | a missing series or a date the series lacks contributes 0 |
| TasaGrafica.Orden | core/web/src/components/dashboard/TasaGraficaDinamica.tsx:33-43 | a known month abbreviation gets its position 1 to 12 in the calendar; anything else gets 999 |
| TasaGrafica.OrdenarFechas | core/web/src/components/dashboard/TasaGraficaDinamica.tsx:32-45 | the dates are sorted in place, stably, by their month position |
| TasaGrafica.OrdenarFechasOrden | core/web/src/components/dashboard/TasaGraficaDinamica.tsx:32-45 | the sorted dates are a permutation of the input, never going down in month position, with unknown months last and ties in input order |
| TasaGrafica.TodasFechasStep | core/web/src/components/dashboard/TasaGraficaDinamica.tsx:60-67 | each selected rate adds its own dates after those of the earlier ones |
| TasaGrafica.TodasFechasIff | core/web/src/components/dashboard/TasaGraficaDinamica.tsx:59-67 | a date is collected iff some selected rate with data has a point at that date |
| TasaGrafica.Combinar | core/web/src/components/dashboard/TasaGraficaDinamica.tsx:72-80 | one chart point per date |
| TasaGrafica.AgregarFechas | core/web/src/components/dashboard/TasaGraficaDinamica.tsx:63-65 | adding each point's date to the set gives the distinct dates seen so far, in first-seen order |
| TasaGrafica.DatosParaGrafica | core/web/src/components/dashboard/TasaGraficaDinamica.tsx:53-83 | the chart data are those of the specification: the distinct collected dates, sorted by month, each mapped to a point |
| TasaGrafica.CombinarPuntos | core/web/src/components/dashboard/TasaGraficaDinamica.tsx:72-80 | the point at index i carries the i-th date, `orden` i, and one value per selected id |
| TasaGrafica.FechasOrdenadas | core/web/src/components/dashboard/TasaGraficaDinamica.tsx:59-69 | the chart's dates are distinct, are exactly the dates of the selection, and go up in month position |
| TasaGrafica.GraficaFechas | core/web/src/components/dashboard/TasaGraficaDinamica.tsx:53-83 | no selected rate gives no data; otherwise the points' dates are distinct, cover every date of the selection, come from the selection and go up in month position |
| TasaGrafica.GraficaValores | core/web/src/components/dashboard/TasaGraficaDinamica.tsx:72-80 | each point holds its index, exactly the selected ids, and each rate's value at its date |
| TasaGrafica.ValorAusente | core/web/src/components/dashboard/TasaGraficaDinamica.tsx:75-77 | an unknown rate, a rate without data or a date it lacks gives 0; otherwise the value is the rate of a point at that date |
| TasaGrafica.OrElse | core/web/src/components/dashboard/TasaGraficaDinamica.tsx:102 | a missing or empty value falls back to the default (also line 120) |
| TasaGrafica.CortarEn | core/web/src/components/dashboard/TasaGraficaDinamica.tsx:104-110 | the cut name ends with a space and the platform mark |
| TasaGrafica.SkipWord | core/web/src/components/dashboard/TasaGraficaDinamica.tsx:113 | the rest after a word is a suffix that does not start with a word character |
| TasaGrafica.SkipSpaces | core/web/src/components/dashboard/TasaGraficaDinamica.tsx:113-114 | the rest after the spaces is a suffix that does not start with a space |
| TasaGrafica.QuitarHashtags | core/web/src/components/dashboard/TasaGraficaDinamica.tsx:113 | removing hashtags never lengthens the name |
| TasaGrafica.ColapsarEspacios | core/web/src/components/dashboard/TasaGraficaDinamica.tsx:114 | collapsing spaces never lengthens the name |
| TasaGrafica.Simplificar | core/web/src/components/dashboard/TasaGraficaDinamica.tsx:112-115 | the cleaned name has no leading or trailing space and no two spaces in a row |
| TasaGrafica.LineaDe | core/web/src/components/dashboard/TasaGraficaDinamica.tsx:92-121 | an unknown rate shows its id as its name in grey `#94a3b8`; a known one takes its colour or `#3b82f6` |
| TasaGrafica.LineasInfo | core/web/src/components/dashboard/TasaGraficaDinamica.tsx:91-123 | one line per selected rate, in order |
| TasaGrafica.SkipSpacesEmpties | core/web/src/components/dashboard/TasaGraficaDinamica.tsx:114-115 | skipping spaces empties a string iff it is blank |
| TasaGrafica.ColapsarEspaciosSimples | core/web/src/components/dashboard/TasaGraficaDinamica.tsx:114 | after collapsing, every whitespace character is a single space not followed by another |
| TasaGrafica.TrimEspaciosSimples | core/web/src/components/dashboard/TasaGraficaDinamica.tsx:115 | trimming keeps spaces single |
| TasaGrafica.SimplificarConservaMarca | core/web/src/components/dashboard/TasaGraficaDinamica.tsx:104-115 | a name holding a platform mark still ends with the first of 📸, 🔴, 🐦 it holds after cleaning |
| TasaGrafica.LineasInfoContenido | core/web/src/components/dashboard/TasaGraficaDinamica.tsx:92-121 | each line's name and colour follow the rate's data: unknown rates fall back to id and grey, known ones keep their mark and take their colour or the default |
| VentasCalc.NombreMes | core/web/src/mathCalculus/VentasCalc.tsx:80-85 | months 1 to 12 get their Spanish abbreviation; any other month number reads "Mes n" |
| VentasCalc.GrowthPercent | core/web/src/mathCalculus/VentasCalc.tsx:95 | the rounded growth percentage is positive, negative or zero as sales rose, fell or stayed, and never below -100 for non-negative sales |
| VentasCalc.PercentSign | core/web/src/mathCalculus/VentasCalc.tsx:95 | the unrounded percentage has the sign of the change and is at least -100 for non-negative sales |
| VentasCalc.Growth | core/web/src/mathCalculus/VentasCalc.tsx:91-97 | growth is 0 when the previous month sold nothing or less |
| VentasCalc.Filas | core/web/src/mathCalculus/VentasCalc.tsx:79-110 | one row per sale |
| VentasCalc.DatosGrafica | core/web/src/mathCalculus/VentasCalc.tsx:49-111 | no sales give the twelve demonstration rows; otherwise the rows of the sales sorted by (year, month) |
| VentasCalc.FilasDeOrdenados | core/web/src/mathCalculus/VentasCalc.tsx:78-110 | the loop with its running total builds exactly the rows of the sorted sales |
| VentasCalc.FilasRunningTotal | core/web/src/mathCalculus/VentasCalc.tsx:91-99 | each row's total is the previous total plus its sales; the first row and rows after a month without sales show 0 growth |
| VentasCalc.FilasAcumulado | core/web/src/mathCalculus/VentasCalc.tsx:99 | each row's running total adds its own sales to the previous one |
| VentasCalc.FilasCrecimiento | core/web/src/mathCalculus/VentasCalc.tsx:91-97 | each row's growth is the month-over-month growth of the sorted sales |
| VentasCalc.FilaAt | core/web/src/mathCalculus/VentasCalc.tsx:101-109 | row i carries the period, sales, growth, running total, month, year and id of sale i |
| VentasCalc.UnitsSumRemove | core/web/src/mathCalculus/VentasCalc.tsx:99 | removing one sale from a sum takes away exactly its units |
| VentasCalc.UnitsSumPermutation | core/web/src/mathCalculus/VentasCalc.tsx:73-99 | reordering the sales does not change their total |
| VentasCalc.DatosGraficaOrderAndTotal | core/web/src/mathCalculus/VentasCalc.tsx:73-110 | the rows go up in (year, month) and the last running total is the total of all sales given |
| VentasCalc.DemoGrowth | core/web/src/mathCalculus/VentasCalc.tsx:55-66 | the growth figures of the demonstration rows are those the formula gives for their sales |
| VentasCalc.DemoConsistent | core/web/src/mathCalculus/VentasCalc.tsx:55-66 | the demonstration rows are consistent: sales, growth and running totals agree with the formulas |
| VentasCalc.DemoPrefix | core/web/src/mathCalculus/VentasCalc.tsx:55-66 | each demonstration running total is the sum of the sales up to that month |
| VentasCalc.Validas | core/web/src/mathCalculus/VentasCalc.tsx:130 | the valid rows are exactly those with positive sales |
| VentasCalc.MejorVenta | core/web/src/mathCalculus/VentasCalc.tsx:134-136 | the best row is one of the rows and sold at least as much as every other |
| VentasCalc.PeorVenta | core/web/src/mathCalculus/VentasCalc.tsx:138-140 | the worst row is one of the rows and sold no more than any other |
| VentasCalc.Tendencia | core/web/src/mathCalculus/VentasCalc.tsx:142-159 | without positive first and last sales the trend is "Estable" with 0; otherwise growing iff the last exceeds the first by more than 10%, falling iff it is below 90% of it, stable otherwise |
| VentasCalc.CalcularEstadisticas | core/web/src/mathCalculus/VentasCalc.tsx:116-171 | no rows or all-zero sales give the "Sin datos" figures; the figures fail (a `reduce` of an empty array) iff some sales are non-zero but none is positive; otherwise the minimum and maximum bound every positive sale and name the periods that reached them |
| VentasCalc.EstadisticasNeverFailWithoutReturns | core/web/src/mathCalculus/VentasCalc.tsx:116-171 | with no negative sales the figures always exist, and any sale makes the maximum positive |
| VentasCalc.NegativeOnlyThrows | core/web/src/mathCalculus/VentasCalc.tsx:130-140 | a single period with negative sales makes the figures fail |
| DescargaDatos.IdPrefix | core/web/src/calculus/DescargaDatos.ts:431-434 | the id prefix is the first twelve characters of the hashtag id, or all of it when shorter |
| DescargaDatos.GenerarIdAutomatico | core/web/src/calculus/DescargaDatos.ts:430-436 | the id splits at its underscore into the cleaned prefix and the decimal index |
| DescargaDatos.IdIndexRoundTrip | core/web/src/calculus/DescargaDatos.ts:430-436 | the index can be read back from the id |
| DescargaDatos.IdsDistinct | core/web/src/calculus/DescargaDatos.ts:430-436 | ids of different indices differ, whatever the hashtags |
| DescargaDatos.MonthText | core/web/src/calculus/DescargaDatos.ts:440 | the month, padded with a leading zero, is a numeral that reads back as the month |
| DescargaDatos.YearText | core/web/src/calculus/DescargaDatos.ts:441 | the year is written as its last two digits, reading back as the year modulo 100 |
| DescargaDatos.ExtraerMes | core/web/src/calculus/DescargaDatos.ts:438-443 | a readable date gives "MM/YY", splitting at the slash into month and two-digit year; an unreadable one gives "NaN/aN" |
| DescargaDatos.ParseMesKey | core/web/src/calculus/DescargaDatos.ts:446-447 | a key that parses splits into two numerals whose values are the result |
| DescargaDatos.MesKeyRoundTrip | core/web/src/calculus/DescargaDatos.ts:438-447 | the month key of a date parses back to its month and two-digit year |
| DescargaDatos.SameKeySameMonth | core/web/src/calculus/DescargaDatos.ts:438-443 | two dates share a key only when they share month and two-digit year |
| DescargaDatos.DigitsValueConcat | core/web/src/calculus/DescargaDatos.ts:448 | the value of concatenated digit strings shifts the first by the length of the second |
| DescargaDatos.FormatearRangoFecha | core/web/src/calculus/DescargaDatos.ts:445-451 | the invalid key "NaN/aN" gives the label "1/NaN/aN - NaN/NaN/aN" |
| DescargaDatos.KeyLabelled | core/web/src/calculus/DescargaDatos.ts:438-451 | every key the month extraction produces gets a label |
| DescargaDatos.RangoDeMes | core/web/src/calculus/DescargaDatos.ts:445-451 | a month's label runs from day 1 to the month's last day in 20YY, between 28 and 31, and 29 exactly for February of a leap year |
| DescargaDatos.CenturyYear | core/web/src/calculus/DescargaDatos.ts:448 | prefixing "20" to the two-digit year gives 2000 plus the year modulo 100 |
| DescargaDatos.CrearHashtagVacio | core/web/src/calculus/DescargaDatos.ts:389-428 | the placeholder keeps the hashtag, takes the generated id, the two default labels, and two zeros for each field of the platform |
| DescargaDatos.TransformarParaX | core/web/src/calculus/DescargaDatos.ts:287-293 | X gets a placeholder per hashtag, indexed by position |
| DescargaDatos.PlaceholderIdsDistinct | core/web/src/calculus/DescargaDatos.ts:287-293 | the placeholders' ids are pairwise distinct |
| DescargaDatos.TotalGrupos | core/web/src/calculus/DescargaDatos.ts:324-325 | a platform's total is the number of posts over all its groups, 0 when it has no groups |
| DescargaDatos.TotalIsPostCount | core/web/src/calculus/DescargaDatos.ts:324-325 | summing the group sizes counts every post once |
| DescargaDatos.TotalPostsDe | core/web/src/calculus/DescargaDatos.ts:323-327 | the totals count Instagram and Reddit posts over their groups and X posts directly, 0 for a missing platform |
| DescargaDatos.LexTotal | core/web/src/calculus/DescargaDatos.ts:374 | the string order is total |
| DescargaDatos.InsertLex | core/web/src/calculus/DescargaDatos.ts:374 | insertion adds exactly one element and keeps a sorted list sorted |
| DescargaDatos.SortLex | core/web/src/calculus/DescargaDatos.ts:374 | `sort()` with no comparator returns a permutation of the keys in string order |
| DescargaDatos.MesesCronologicos | core/web/src/calculus/DescargaDatos.ts:374 | the intended order: a permutation of the keys sorted by (year, month) |
| DescargaDatos.CronologicoOrdenaFechas | core/web/src/calculus/DescargaDatos.ts:374 | in that order an earlier month's key never follows a later one's |
| DescargaDatos.StringOrderExample | core/web/src/calculus/DescargaDatos.ts:374 | the string order puts "01/25" before "12/24" |
| DescargaDatos.KeysOfExample | core/web/src/calculus/DescargaDatos.ts:438-443 | December 2024 has key "12/24" and January 2025 has key "01/25" |
| DescargaDatos.StringOrderIsNotChronological | core/web/src/calculus/DescargaDatos.ts:374 | the string order lists January 2025 before December 2024 |
| AgruparPosts.SharesOf | core/web/src/calculus/DescargaDatos.ts:365 | the shares are the floor of 5% of the likes |
| AgruparPosts.Push | core/web/src/calculus/DescargaDatos.ts:358-371 | a post adds to its month's Instagram or Reddit lists, and an X post adds nothing |
| AgruparPosts.Keys | core/web/src/calculus/DescargaDatos.ts:349 | one month key per post |
| AgruparPosts.KeysLabelled | core/web/src/calculus/DescargaDatos.ts:349 | every month key gets a label (also line 377) |
| AgruparPosts.Claves | core/web/src/calculus/DescargaDatos.ts:374 | the distinct keys, each with a label |
| AgruparPosts.Group | core/web/src/calculus/DescargaDatos.ts:346-372 | the map has an entry exactly for the keys of the posts |
| AgruparPosts.GroupStep | core/web/src/calculus/DescargaDatos.ts:348-372 | each post creates its month's entry if missing and pushes onto it |
| AgruparPosts.DedupStep | core/web/src/calculus/DescargaDatos.ts:351-356 | a key joins the list of months when its entry is created |
| AgruparPosts.Max | core/web/src/calculus/DescargaDatos.ts:463 | `Math.max` of a non-empty list is one of its values and bounds them all |
| AgruparPosts.SumarPorMes | core/web/src/calculus/DescargaDatos.ts:453-458 | one sum per month, of that month's values of the field |
| AgruparPosts.MaxPorMes | core/web/src/calculus/DescargaDatos.ts:460-465 | one maximum per month, 0 for a month without values |
| AgruparPosts.Resumen | core/web/src/calculus/DescargaDatos.ts:376-386 | all series have one entry per month and each label is that month's range |
| AgruparPosts.AgruparPostsPorMes | core/web/src/calculus/DescargaDatos.ts:345-387 | the loop builds the grouping of the specification: posts by month key, keys in string order, labels, sums and subscriber maxima |
| AgruparPosts.GroupMeaning | core/web/src/calculus/DescargaDatos.ts:346-372 | a month has an entry iff some post falls in it, and the entry is what that month's posts push, in order |
| AgruparPosts.MonthValues | core/web/src/calculus/DescargaDatos.ts:453-458 | a month's likes and hours are those its posts pushed |
| AgruparPosts.LikesDe | core/web/src/calculus/DescargaDatos.ts:361 | each post contributes its likes, 0 when missing |
| AgruparPosts.PushAllInstagram | core/web/src/calculus/DescargaDatos.ts:361-365 | Instagram posts push their likes and eight times as many views |
| AgruparPosts.MonthlyLikes | core/web/src/calculus/DescargaDatos.ts:361 | the Instagram likes of the i-th month are the sum of the likes of that month's posts (also line 378) |
| AgruparPosts.PushAllRedditHours | core/web/src/calculus/DescargaDatos.ts:370 | each Reddit post pushes 24 hours |
| AgruparPosts.AgruparLabels | core/web/src/calculus/DescargaDatos.ts:374-377 | posts give at least one month and one label per distinct month, in string order |
| AgruparPosts.MonthlyHours | core/web/src/calculus/DescargaDatos.ts:370 | the Reddit hours of a month are 24 times its number of posts (also line 385) |
| AgruparPosts.SumOfConstant | core/web/src/calculus/DescargaDatos.ts:370 | a sum of 24s is 24 times their count (also line 385) |
| AgruparPosts.AgruparCronologico | core/web/src/calculus/DescargaDatos.ts:374-386 | the corrected grouping labels the months in (year, month) order |
| AgruparPosts.AgruparCronologicoMeses | core/web/src/calculus/DescargaDatos.ts:374-386 | it lists the same months as the string order, at least one for non-empty posts, sorted by time |
| AgruparPosts.FindGrupo | core/web/src/calculus/DescargaDatos.ts:226-228 | the first group of that keyword, or none iff no group has it (also lines 261-263) |
| AgruparPosts.PostsDe | core/web/src/calculus/DescargaDatos.ts:226-230 | the posts of the hashtag's group, and none unless the group exists with posts (also lines 261-265) |
| AgruparPosts.SeriesDe | core/web/src/calculus/DescargaDatos.ts:238-247 | Instagram inputs carry likes, comments, views, followers and shares; Reddit inputs upvotes, comments, subscribers and hours; each series as long as the labels (also lines 273-281) |
| AgruparPosts.HashtagDe | core/web/src/calculus/DescargaDatos.ts:224-285 | a hashtag without posts gets the placeholder; otherwise its id, one label per month with the month keys in string order, and the platform's series |
| AgruparPosts.TransformarPara | core/web/src/calculus/DescargaDatos.ts:224-285 | one input per hashtag, in order, each with its months in string order |
| AgruparPosts.HashtagDeCronologico | core/web/src/calculus/DescargaDatos.ts:224-285 | the intended input: as `HashtagDe`, with one label per month in (year, month) order |
| AgruparPosts.TransformarParaCronologico | core/web/src/calculus/DescargaDatos.ts:224-285 | the intended transformation: one time-ordered input per hashtag, in order |
| AgruparPosts.OrdenSoloCambiaFechas | core/web/src/calculus/DescargaDatos.ts:224-285 | the two month orders give a hashtag the same id, fields and number of labels |
| AgruparPosts.TransformarParaShape | core/web/src/calculus/DescargaDatos.ts:224-285 | every input carries its hashtag, the platform's fields with series as long as its labels, and an id no other input shares |
| AuthMfa.NewClaims | core/server/app/src/config.rs:14-20 | a session token's claims name the user and expire the configured 1296000 seconds (15 days) after now |
| AuthMfa.Verify | core/server/app/src/controllers/auth_mfa.rs:25-72 | a call only ever removes the claimant's own entry from the OTP cache and changes no other; a session token is issued only for a request with a live intermediate token; a request without one is refused with "No autorizado" and leaves the cache alone |
| AuthMfa.OtpCache.constructor | core/server/app/src/controllers/auth_mfa.rs:28 | the OTP cache starts empty |
| AuthMfa.OtpCache.VerifyMfa | core/server/app/src/controllers/auth_mfa.rs:25-72 | the handler's response and new cache are those of the specification |
| AuthMfa.VerifyOutcomes | core/server/app/src/controllers/auth_mfa.rs:39-68 | for a live intermediate token: past its own expiry it is refused; no stored code is refused; an expired code is dropped and refused; the right code is dropped and yields a session token that decodes to the user with the configured expiry; a wrong code is refused and kept |
| AuthMfa.NoReplay | core/server/app/src/controllers/auth_mfa.rs:54-55 | a code works once for calls that do not overlap: repeating a successful request afterwards finds no stored code |
| Tokens.Create | core/server/auth/src/lib.rs:40-46 | creating a token always succeeds in signing it |
| Tokens.Decode | core/server/auth/src/lib.rs:49-56 | a token decodes iff it was signed with the same key and its expiry has not passed by more than the 60-second leeway, and then it gives back its claims |
| Tokens.CreateDecode | core/server/auth/src/lib.rs:40-56 | a created token decodes with the same key to its claims until the leeway has passed, then fails as expired; another key fails on the signature |
| MagicLink.ClaimsFor | core/server/auth/src/lib.rs:69-78 | the claims carry the user, email and purpose, are issued now and expire the time-to-live later (also lines 89-98) |
| MagicLink.CreateEmailVerificationToken | core/server/auth/src/lib.rs:64-81 | an email-verification token is signed with the key and expires 900 seconds after it is issued |
| MagicLink.CreatePasswordResetToken | core/server/auth/src/lib.rs:84-101 | a password-reset token is signed with the key and expires 1800 seconds after it is issued |
| MagicLink.VerifyMagicLink | core/server/auth/src/lib.rs:104-123 | a token verifies iff it was signed with the key, has the expected purpose and has not expired (without leeway), and then it gives back its claims; a decodable token of another purpose fails on the purpose |
| MagicLink.CreateMagicToken | core/server/auth/src/lib.rs:127-143 | the two known purposes make their tokens and any other purpose is an "Invalid purpose" error |
| MagicLink.TtlIgnored | core/server/auth/src/lib.rs:132 | the time-to-live argument never changes the result |
| MagicLink.MagicLinkRoundTrip | core/server/auth/src/lib.rs:64-143 | a token made for a purpose verifies for that purpose exactly until its window has passed, giving back the user and email, and never verifies for another purpose |
| VerifiedUsers.IsVerified | core/server/app/src/models/user.rs:140-143 | a user reads as verified only when the registry holds a flag for them |
| VerifiedUsers.Registry.constructor | core/server/app/src/models/user.rs:137 | the registry starts empty |
| VerifiedUsers.Registry.UpdateEmailVerifiedById | core/server/app/src/models/user.rs:136-139 | the user's flag is stored, replacing any earlier one, and no other entry changes |
| VerifiedUsers.Registry.IsEmailVerified | core/server/app/src/models/user.rs:140-143 | the stored flag, or false for a user never updated |
| VerifiedUsers.UpdateThenQuery | core/server/app/src/models/user.rs:136-143 | after an update the user reads the new flag, every other user reads as before, and repeating the update changes nothing |
| VerifiedUsers.LastUpdateWins | core/server/app/src/models/user.rs:136-143 | from an empty registry a user's status is the flag of their last update, false when no update names them |
| StableSort.SortInPlace | core/web/src/components/correlationCalculator.tsx:145-146 | the in-place sort leaves the array holding the stable sort of its old contents by the comparator's key |
| StableSort.SortByPermutes | core/web/src/components/correlacionUtils.tsx:79-83 | sorting permutes the elements |
| StableSort.SortBySorted | core/web/src/components/correlacionUtils.tsx:79-83 | the sorted sequence never goes down in key |
| StableSort.SortByStable | core/web/src/components/correlacionUtils.tsx:79-83 | elements of equal key keep their relative order (`Array.prototype.sort` is stable) |
| Months.MonthNumber | core/web/src/components/correlacionUtils.tsx:74-77 | a month abbreviation maps to its calendar position 1 to 12, and anything else to 0 (the fallback to 0) |
| Months.DaysInMonth | core/web/src/calculus/DescargaDatos.ts:449 | day 0 of the next month is the month's last day: 28 to 31, and 29 exactly for February of a leap year |
| DbMacro.FindCloser | core/server/macros/src/lib.rs:179-194 | a closer found for `update(` lies inside the text at or after the start and is `)` or `}` |
| DbMacro.UpdateEnd | core/server/macros/src/lib.rs:179-194 | the end of an `update(...)` group lies between its start and the end of the text |
| DbMacro.FirstFound | core/server/macros/src/lib.rs:98-154 | the first attribute that yields a table name decides it, and none is found iff no attribute yields one |
| EditarDatos.MonthsEnding | core/web/src/pages/EditarDatos.tsx:54-83 | n months are listed, ending at the given month |
| Flow.Collected | core/server/app/src/controllers/flow.rs:336-345 | collecting never yields more entries than items |

## Left out

- Goroutines, channels and the `sync.WaitGroup` of `scraper/core.go` and `scraper/resources.go` become a sequential state machine. Each step is a method; memory ordering and real parallelism are not modelled.
- Scheduler.Scraper.WorkerSelect: uses the corrected `select` (see Findings), so the model's workers never run the zero task a closed channel delivers; `SelectAsWritten` keeps the behaviour as written.
- Chrome itself (chromedp contexts, cookie and cache clearing, `fetch.ContinueRequest`/`FailRequest` calls) is not modelled beyond which request is continued or failed and whether cleanup runs. What a task returns is a parameter.
- The FFI entry points and handle registries (`exports.go`, the Rust wrappers) are not part of this model.
- The Diesel code that `#[database(...)]` generates is reduced to the names of the generated methods. The token stream is modelled as the attribute's text.
- I/O and external services are not modelled: DynamoDB, the HTTP scrapers, the language-model call, Resend e-mail and the actix request plumbing. Their results enter as values.
- Flow.ConvertTrendsToAnalyticsRequest: the JSON value is a small datatype (null, bool, integer, string, array, object). Floating-point JSON numbers are not modelled.
- Regular expressions `\w`, `\s` and `\d`, `trim`, `toLowerCase` and `to_lowercase` are modelled on ASCII. Rust's Unicode `\w` and JavaScript's Unicode white space and case mapping are not.
- JavaScript strings are modelled as sequences of characters, so an emoji counts as one character rather than two UTF-16 code units.
- CorrelationCalculator.CalcularCorrelacionTransparente: the coefficient is a parameter `pearson`. The synthetic metrics built from `Math.sin` and `Math.random` and the floating-point Pearson formula are not modelled; the clamping and every case around them are.
- CorrelationCalculator.ToFixed3: uses exact rational arithmetic with halves rounded up. Binary floating-point rounding of `toFixed` is not modelled, and its contract states only when the text is "NaN".
- CorrelacionUtils.CalcularCorrelacion: rates are exact reals. Floating-point rounding and `Infinity` are not modelled; `NaN` is.
- VentasCalc.MejorVenta: the contract does not say which of several rows with equal sales is picked (the first one, as `reduce` keeps the earlier on ties).
- VentasCalc.PeorVenta: same as `MejorVenta` for the row with the fewest sales.
- VentasCalc.Tendencia: the growth percentage is computed on exact rationals rather than doubles.
- JavaScript objects used as maps (`punto[tasaId]`, `item[id]`) are Dafny maps. Keys that collide with `fecha` or `orden`, or with prototype properties, are not modelled.
- `new Date(...)` parsing of post timestamps is replaced by an already-parsed date (year and month, or invalid). Time zones are not modelled.
- jsonwebtoken's HS256 signing and argon2 hashing are a datatype token carrying its key and claims. Cryptographic unforgeability is not modelled, and `PasswordHasher` is left out.
- The clock (`Utc::now`, `new Date()`) and `Math.random` are parameters. AuthMfa.Verify reads the clock once, where `verify_mfa` reads it twice.
- React rendering, routing, `console.log` and the API calls of the pages are not modelled. Page state is a class whose methods are the handlers.
- DbMacro.GenerateMethods: an identifier is an ASCII letter or `_` followed by ASCII letters, digits and `_`. Rust also accepts other Unicode letters; a field written with them makes the model fail where the macro succeeds.
- DbMacro.FindCloserLoop: the attribute text is a sequence of characters and every position is a character index. The macro adds a `chars().enumerate()` character count to a byte offset and slices bytes, so with non-ASCII attribute text its slice can be wrong or panic; that is not modelled.
- Scheduler.Scraper.Submit: a send on the closed channel is a Failure that leaves the state unchanged. In Go, `taskWg.Add(1)` has already run when the send panics, so the counter is one higher at the panic; the panic ends the caller, and that counter is not modelled.
- EditarDatos.EditarDatosPage.HandleChange: a value is negative when a '-' precedes a mantissa with a non-zero digit, on exact decimals. A text such as "-1e-400" underflows to `-0` as a double, so the source accepts it while the model refuses it.
- AuthMfa.OtpCache.VerifyMfa: each call runs atomically. The handler releases the cache entry (`drop(entry)`) before it compares and removes the code, and the cache is shared by every worker thread, so two overlapping requests with the right code can both be accepted; that race is not modelled.
- EditarDatos.SaleRequests: a request carries the entered text of the units; the source sends `Number(text)`, and that conversion to a double is not modelled.
- The floating-point formulas of the analytics calculators (`Calculos*.ts`, `analytics.rs`) and the copies of modelled pages and scrapers are outside this model.

## Findings

| source | as written | input that shows it | evidently intended | confidence | as-written member | corrected member |
|---|---|---|---|---|---|---|
| core/zbrowser/zbrowser-core/src-go/scraper/core.go:121-125 | `Close` closes `s.close` and `s.tasks` (lines 193-194), and the worker's `select` may pick the closed task channel, receive the zero `Task` and call its nil `Func` | a worker that finishes a task and reaches `select` only after `Close` has closed both channels, with Go choosing the receive-a-task case | an idle worker only ever exits after `Close` | not executed | Scheduler.ZeroTaskAfterClose | Scheduler.SelectCorrected |
| core/zbrowser/zbrowser-core/src-go/scraper/resources.go:69-78 | every forwarded request is sent on the slot's `requests` channel, which has capacity 1 (core.go:111) and is never read, so the second send blocks and that request is never continued | two non-blocked requests on the same slot | every forwarded request is recorded and continued | not executed | Inspector.SecondRequestStuck | Inspector.DrainedForwardsEach |
| core/web/src/components/correlacionUtils.tsx:24-36 | the trend factor divides by `tasas.length - 1`, which is 0 for a single record, so the result is `NaN` | `[{ tasa: 5 }]` | a value between 45 and 95, as the documentation says | not executed | CorrelacionUtils.CalcularCorrelacion | CorrelacionUtils.CalcularCorrelacionCorregida |
| core/web/src/calculus/DescargaDatos.ts:374 | the "MM/YY" month keys are sorted as strings, which compares months before years | posts from December 2024 and January 2025 give `["01/25", "12/24"]` | months in time order | not executed | DescargaDatos.StringOrderIsNotChronological | AgruparPosts.AgruparCronologico |
