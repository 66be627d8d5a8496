# goSpendingBot core, modelled in Dafny

goSpendingBot is a Telegram bot that records a user's spendings by category and
reports them per week, month and year, in an active currency of the user's
choice. The model covers the five pieces of sequential logic behind the chat
commands:

- **cache_lru.dfy**: the bounded LRU cache (`LRUCache`).
  - A class `CacheLru.LruCache<V>` with a recency queue (`seq<Item<V>>`, front = most recent) and a key map.
  - Its methods are proved against the value-level specifications `AddSpec`, `GetSpec` and `DeleteSpec`.
  - Lemmas give the representation invariant, eviction of the least recent entry, move-to-front and read-after-write.
- **messages.dfy**: the cache policy of the message model and the command handlers. This is a class `Messages.Model`.
  - The currency read-through lookup.
  - The report lookup with its `MinDate` check and hand-off to the report service.
  - Write-time invalidation of the yearly, monthly and weekly reports.
  - `ProceedCommandReport` and the `handleCommand…` handlers.
  - The dispatch in `proceedCommand`, and `IncomingMessage`.
- **commands.dfy**: the pure part of `incoming_msg.go`.
  - Command recognition and normalisation to `/unknown`.
  - Token parsing for `/addexp`, `/newcat`, `/curset` and `/limitset`.
  - Report windows and the reply texts.
- **memory_storage.dfy**: the in-memory repository, a class `MemoryStore.MemoryStorage` over id-keyed maps and two id counters.
  - Category find-or-create.
  - The per-category report over an open date window.
  - The "RUB" default currency.
- **cbr_currency.dfy**: the in-memory currency rate table, a class `CbrCurrency.CbrCurrencyStorage`.
  - Seeding RUB = 1.
  - Importing decoded feed entries (comma to point, skip unparsable values, divide by the nominal).
  - The sorted listing and the lookup.
- **strings.dfy**: the few Go `strings`/`strconv` operations the core uses, with the round trips the parsers rely on.
- **repository.dfy** and **wrappers.dfy**: shared records, error values, the abstract parsers and renderers, and Option/Result.
- **\*_test.dfy**: scenarios.
  - They mirror `cache_lru_test.go` and `incoming_msg_test.go`.
  - They add the quirks of the in-memory store and the currency cache.

Collaborators whose code is not modelled appear as parameters:
- the Postgres store, the report producer and the Telegram sender, as an `Outcomes` record of their answers;
- decimal parsing and division, `StringFixed`/`String` rendering and `time.Parse`, as the functions of an `Env`;
- the clock, as a `Clock` that holds now and the three boundaries now−7d, now−1m and now−1y.

Every call the message model makes to a collaborator is appended to a ghost log `Model.calls`. Contracts state which calls happened, and in what order.

Decimals are `real`. `Add` and `Mul` are exact in the source and here. Timestamps are integers.

## Model

| member | source | states |
|---|---|---|
| CacheLru.LruCache.constructor | internal/cache/cache_lru/cache_lru.go:23-30 | a new cache has its name and capacity, an empty queue and an empty map |
| CacheLru.LruCache.Add | internal/cache/cache_lru/cache_lru.go:36-54 | the new queue and eviction flag are `AddSpec` of the old queue; the map gains the key and, on eviction, loses exactly the old back key; the invariant is kept |
| CacheLru.LruCache.Get | internal/cache/cache_lru/cache_lru.go:56-67 | result and new queue are `GetSpec` of the old queue; the map is unchanged |
| CacheLru.LruCache.Len | internal/cache/cache_lru/cache_lru.go:69-74 | the length is the queue length and never exceeds a positive capacity |
| CacheLru.LruCache.Delete | internal/cache/cache_lru/cache_lru.go:76-87 | result and new queue are `DeleteSpec` of the old queue; the map loses exactly the key |
| CacheLru.RepresentationInvariant | internal/cache/cache_lru/cache_lru.go:10-21 | with unique queue keys, the map holds exactly the queue's keys; each entry carries its own key and the queue's value; no key repeats; sizes agree |
| CacheLru.AddKeepsInvariant | internal/cache/cache_lru/cache_lru.go:36-54 | Add keeps keys unique and, for capacity ≥ 1, the length within capacity |
| CacheLru.AddLookup | internal/cache/cache_lru/cache_lru.go:40-50 | eviction happens iff the key is new and the cache is full; afterwards the key maps to the new value; other keys keep their value except the evicted back key |
| CacheLru.AddOrder | internal/cache/cache_lru/cache_lru.go:40-50 | the added item is at the front. For a present key, the others keep their order. A new key in a non-full cache is pushed in front of the old queue. A new key in a full cache is pushed in front of the old queue without its back entry |
| CacheLru.GetMovesToFront | internal/cache/cache_lru/cache_lru.go:56-66 | a hit returns the stored value and moves that entry to the front, keeping the others' order; a miss returns ErrElementNotInCache and changes nothing |
| CacheLru.DeleteRemoves | internal/cache/cache_lru/cache_lru.go:76-87 | a hit removes the key and shrinks the length by one; a miss returns ErrElementNotInCache; other keys keep their values and order |
| CacheLru.GetAfterAdd | internal/cache/cache_lru/cache_lru.go:36-62 | Get right after Add(k, v) returns v |
| CacheLru.PromoteFront | internal/cache/cache_lru/cache_lru.go:40-43 | moving the front entry to the front again, with its own value, leaves the queue unchanged |
| CacheLru.FillWithoutEviction | internal/cache/cache_lru/cache_lru.go:44-50 | adding distinct new keys that fit never evicts and stacks them newest first |
| CacheLru.OverfillEvictsFirst | internal/cache/cache_lru/cache_lru.go:44-50 | adding capacity + 1 distinct keys to an empty cache evicts only on the last add, and the evicted key is the first one |
| CacheLru.FindWithout | internal/cache/cache_lru/cache_lru.go:80-83 | removing a key hides exactly that key |
| CacheLru.WithoutIdempotent | internal/cache/cache_lru/cache_lru.go:76-87 | deleting twice is deleting once |
| CacheLru.WithoutCommute | internal/cache/cache_lru/cache_lru.go:76-87 | deletes of two keys commute |
| CacheLru.MapOfWithout | internal/cache/cache_lru/cache_lru.go:80-82 | removing a key from the queue removes exactly that key from the map |
| CacheLru.FindMapOf | internal/cache/cache_lru/cache_lru.go:10-21 | a key is in the map iff the queue has it, with the same value |
| Messages.Model.GetActiveCurrencyFromCacheAndDB | internal/model/messages/cache_logic.go:14-37 | a hit returns the cached code, moves it to the front and makes no store call; a miss asks the store once; on success the code is cached under the user's key; on failure the error is returned and the cache is unchanged (together: the new cache is `AfterLookup` of the old one) |
| Messages.LookupAfterAdd | internal/model/messages/cache_logic.go:14-37 | right after the user's code is added, a lookup makes no store call, returns that code and leaves the cache as it is |
| Messages.AfterLookupAgain | internal/model/messages/cache_logic.go:14-37 | after a successful lookup, a second lookup makes no store call, returns the same code and leaves the cache as it is |
| Messages.Model.GetReportPeriodFromCacheAndDB | internal/model/messages/cache_logic.go:40-77 | fresh hit: the report, no error, entry moved to front, nothing dispatched; stale hit: the entry is deleted, one request is dispatched, and the stale report is returned with the dispatcher's error; miss: no report, the dispatcher's error, cache unchanged |
| Messages.ReportKeyInjective | internal/model/messages/cache_logic.go:43 | different (user, period) pairs never share a report key |
| Messages.Model.InvalidateReportPeriodInCache | internal/model/messages/cache_logic.go:84-102 | the report cache becomes `Invalidated` of the old one; the currency cache is untouched |
| Messages.InvalidatedLookup | internal/model/messages/cache_logic.go:84-102 | invalidation removes `_Y`, `_M`, `_W` exactly when the date is strictly after now−1y, now−1m, now−7d, and keeps every other entry |
| Messages.InvalidationBands | internal/model/messages/cache_logic.go:79-101 | with ordered boundaries, a date in the last week stales all three reports, the last month Y and M, the last year only Y, older none |
| Messages.Model.ProceedCommandReport | internal/model/messages/incoming_msg.go:300-325 | the reply is `ReportReply` of the currency lookup on the cache as it was (lookup error, unknown code, or the report at the code's rate); one store call on a miss; the currency cache becomes `AfterLookup` of the old one |
| Messages.Model.HandleReport | internal/model/messages/incoming_msg.go:328-340 | `ReportAnswered` for the window (period, first, last): the exact calls made, both new caches (stale entry removed, fresh hit moved to the front, currency cache changed only when a report is rendered) and the reply (producer error, "Report proceeed" on a miss, any cached report, even a stale one, rendered) |
| Messages.ReportDispatchedIff | internal/model/messages/cache_logic.go:40-77 | under `ReportAnswered`, a request reaches the report producer exactly when the entry is missing or older than the window start, and nothing is sent to Telegram |
| Messages.Model.CreateParsedSpending | internal/model/messages/incoming_msg.go:229-251 | `SpendingAnswered`: the exact calls (the lookup, then one store call with the amount converted at the active code's rate, none when the lookup fails or the code is unknown), the new currency cache, and the reply: success gives "Exspense added" and invalidates the reports; ErrLimitExceeded gives "Limit exceeded" with no error and no invalidation; other errors give the service or currency error |
| Messages.SpendingStoredOnce | internal/model/messages/incoming_msg.go:229-251 | under `SpendingAnswered`, at most one spending is stored, one is stored exactly when the active code has a rate, and nothing is sent |
| Messages.Model.HandleCreateSpending | internal/model/messages/incoming_msg.go:204-252 | the index never goes out of range; "Unknown amount" with ErrInvalidDecimal and "Unknown category" with ErrCategoryIsEmpty make no call and change no cache; a parsed spending is answered as `SpendingAnswered` of its category, amount and date (reply, calls and both caches) |
| Messages.Model.HandleCurrencyActive | internal/model/messages/incoming_msg.go:365-383 | the reply is `ActiveReply` of the lookup; the calls are the lookup's (one store call on a miss); the new currency cache is `AfterLookup` of the old one: a hit moves to the front, a successful miss is added, a failed one changes nothing; the report cache is untouched |
| Messages.Model.HandleCurrencySet | internal/model/messages/incoming_msg.go:386-406 | no argument: "Active currency not set", no call, cache unchanged. An unknown upper-cased code: "Unknown currency" with ErrCurrencyNotSupported, no call, cache unchanged. A store error: the service error, cache unchanged. Otherwise one store call, the cache becomes `AddSpec` of the old one with the user's key and the code (the /curget lookup that follows is a hit and changes nothing), and the reply is the active-currency text of that code |
| Messages.Model.HandleCreateCategory | internal/model/messages/incoming_msg.go:255-277 | empty name: refusal without a store call; otherwise one store call and "added", "already exists" (no error) or the service error |
| Messages.Model.HandleGetAllCategories | internal/model/messages/incoming_msg.go:280-298 | the store error gives the service error, otherwise the category listing |
| Messages.Model.HandleCurrencyAll | internal/model/messages/incoming_msg.go:343-362 | the reply is the listing text of the table's unique ascending listing |
| Messages.Model.HandleLimitGet | internal/model/messages/incoming_msg.go:409-432 | the reply is `LimitReply`; the calls are `LimitGetCalls`: the limit is read once and the currency is looked up only when a limit exists; the new currency cache is `AfterLimitGet`: unchanged when reading the limit fails, `AfterLookup` otherwise |
| Messages.Model.StoreConvertedLimit | internal/model/messages/incoming_msg.go:449-461 | a failed lookup or an unknown code stops with the service or currency error; the calls are exactly `SetLimitCalls`: the lookup's, then one store of the amount converted at the code's rate exactly when the code has a rate; the handler goes on exactly when the store succeeds; the new currency cache is `AfterLookup` of the old one |
| Messages.Model.HandleLimitSet | internal/model/messages/incoming_msg.go:435-465 | an unparsable amount: "Unknown amount", no call, cache unchanged. One word: one drop call, then, when it succeeds, /limitget's calls, cache and reply. An amount: exactly `SetLimitCalls` then, when the store succeeds, one limit read (the second lookup is a hit), the cache is `AfterLookup` of the old one, and the reply is the lookup error, the currency error, the store error or `LimitReply`; nothing is sent |
| Messages.ToRoubles | internal/model/messages/incoming_msg.go:237 | a rate of 1 keeps the amount, a zero amount stays zero |
| Messages.Model.ProceedCommand | internal/model/messages/incoming_msg.go:90-148 | /start answers the greeting and help; /unknown answers "Я не знаю эту команду"; /repw, /repm, /repa are answered as `ReportAnswered` over `ReportWindow`'s window (now−7d, now−1m, now−1y up to now); a parsed /addexp as `SpendingAnswered`; every other command leaves the caches `CachesAfterCommand` gives; every reply is non-empty and no handler sends a message |
| Messages.Model.IncomingMessage | internal/model/messages/incoming_msg.go:150-201 | exactly one message is sent, as the last call, to the user, non-empty; the error returned is the sender's; /start and unknown text get their fixed replies; for a report command and a parsed /addexp the sent text, the calls before it and both new caches are `ReportAnswered` / `SpendingAnswered`, with the handler's error, which the source drops, returned as the ghost out-parameter `handled`; every other command leaves the caches `CachesAfterCommand` gives |
| Commands.CommandOf | internal/model/messages/incoming_msg.go:153-170 | the command is the first space-separated token when that is one of the twelve, otherwise "/unknown" |
| Commands.CommandOfKnown | internal/model/messages/incoming_msg.go:153-170 | a known command alone or followed by arguments is recognised |
| Commands.CommandOfSomeText | internal/model/messages/incoming_msg_test.go:26-38 | "some text" is unknown |
| Commands.ReportWindowsNest | internal/model/messages/incoming_msg.go:113-126 | the windows `ReportWindow` gives /repw, /repm, /repa end now and, with ordered boundaries, the weekly lies inside the monthly, which lies inside the yearly; the three period codes differ |
| Commands.AmountIndex | internal/model/messages/incoming_msg.go:207-215 | the amount is the last token, or the one before when the last parses as a date |
| Commands.ParseSpending | internal/model/messages/incoming_msg.go:204-225 | every outcome by case: out-of-range index, unknown amount, unknown (blank) category, or the trimmed join of tokens 1..amount−1 with the amount and the parsed date or now |
| Commands.ParseSpendingInRange | internal/model/messages/incoming_msg.go:207-216 | when the parsers reject the command word itself, the index never goes below 0 |
| Commands.ParseSpendingDated | internal/model/messages/incoming_msg.go:204-225 | "/addexp words amount date" parses to the words, amount and date |
| Commands.ParseSpendingUndated | internal/model/messages/incoming_msg.go:204-225 | "/addexp words amount" parses to the words, amount and now |
| Commands.MessageWords | internal/model/messages/incoming_msg.go:206 | splitting a message built of space-free words gives the words back |
| Commands.CategoryArgument | internal/model/messages/incoming_msg.go:258-260 | the name is trimmed |
| Commands.CategoryArgumentRoundTrip | internal/model/messages/incoming_msg.go:258-260 | "/newcat name" gives back a trimmed name exactly |
| Commands.CurrencyArgument | internal/model/messages/incoming_msg.go:387-393 | none iff the message has no space, otherwise the upper-cased second token |
| Commands.CurrencyArgumentRoundTrip | internal/model/messages/incoming_msg.go:387-393 | "/curset code [rest]" gives the upper-cased code |
| Commands.LimitArgument | internal/model/messages/incoming_msg.go:436-447 | drop iff one word; otherwise the parsed second token, or unknown amount when it does not parse |
| Commands.Listing | internal/model/messages/incoming_msg.go:286-297 | the text starts with the header and is longer than it |
| Commands.CategoriesText | internal/model/messages/incoming_msg.go:286-297 | no categories give "*Categories:* empty" |
| Commands.CategoriesTextLines | internal/model/messages/incoming_msg.go:286-297 | split at newlines, a non-empty listing is the header followed by each category name in order |
| Commands.ListingLines | internal/model/messages/incoming_msg.go:286-297 | split at newlines, a non-empty listing is the header followed by the items in order |
| Commands.ReportText | internal/model/messages/incoming_msg.go:312-324 | an empty report is "*Report:* empty" |
| Commands.ReportLine | internal/model/messages/incoming_msg.go:317-319 | a report line starts with the category name and ": " and ends with a space and the currency code |
| Commands.ReportTextLines | internal/model/messages/incoming_msg.go:312-324 | a non-empty report has one line per category, in input order, after the header |
| Commands.CurrencyListText | internal/model/messages/incoming_msg.go:355-361 | an empty listing is "*Currency List:* empty" |
| Commands.NameSuffix | internal/model/messages/incoming_msg.go:349-351 | no suffix iff the code has no display name; otherwise the name reads back from between " _" and "_" |
| Commands.CurrencyLine | internal/model/messages/incoming_msg.go:348-351 | a currency line starts with the code and a space and ends with its display name suffix |
| Commands.ActiveCurrencyTextLines | internal/model/messages/incoming_msg.go:375-381 | the /curget reply is exactly two lines: the header and the active currency's line |
| Commands.LimitText | internal/model/messages/incoming_msg.go:410-431 | no limit is "*Month limit:* not set" |
| MemoryStore.MemoryStorage.constructor | internal/repository/memory/storage.go:21-29 | empty maps and both counters at 0 |
| MemoryStore.MemoryStorage.GetCategory | internal/repository/memory/storage.go:61-71 | found iff a stored category has that user and name, and then it is that stored category; otherwise the empty category |
| MemoryStore.MemoryStorage.CreateSpending | internal/repository/memory/storage.go:32-59 | always nil. An existing (user, name) category is reused and the categories are untouched. Otherwise one is created under the old category counter, which grows by one. The spending is stored under the old spending counter, which grows by one. The invariant is kept |
| MemoryStore.MemoryStorage.CreateCategory | internal/repository/memory/storage.go:74-90 | ErrCategoryExists iff the pair exists; otherwise exactly one category is added under the old counter, which grows by one |
| MemoryStore.MemoryStorage.GetAllCategories | internal/repository/memory/storage.go:93-110 | as many entries as the user owns, entry i being `categories[i]` (by position, not by the user's ids) |
| MemoryStore.AllCategoriesAsWritten | internal/repository/memory/storage.go:97-109 | the positional listing, as a function of the tables |
| MemoryStore.OwnedCount | internal/repository/memory/storage.go:97-102 | the number of the user's categories is at most the number of ids |
| MemoryStore.MemoryStorage.ReportPeriod | internal/repository/memory/storage.go:113-140 | the report is `ReportOf` the positional listing: per category the sum of the user's spendings strictly inside the window, zero sums omitted |
| MemoryStore.ReportOfLines | internal/repository/memory/storage.go:129-137 | every listed category with a non-zero sum has its line, every line comes from a listed category, and there are no more lines than categories |
| MemoryStore.CategorySumFrame | internal/repository/memory/storage.go:117-121 | a spending stored at an id not yet counted does not change a sum |
| MemoryStore.CategorySumAppend | internal/repository/memory/storage.go:117-121 | counting one more spending adds its amount exactly when it is the user's, in the category and strictly inside the window |
| MemoryStore.MemoryStorage.GetActiveCurrency | internal/repository/memory/storage.go:143-152 | a known user's currency, or "RUB" recorded for an unknown one; nothing else changes |
| MemoryStore.MemoryStorage.SetActiveCurrency | internal/repository/memory/storage.go:155-160 | nil, and the user's currency becomes the given one |
| CbrCurrency.CbrCurrencyStorage.constructor | internal/currency/cbrcurrency/currency.go:77-112 | the table is RUB = 1 plus the imported feed, or RUB = 1 alone when the fetch failed; RUB is always present |
| CbrCurrency.CbrCurrencyStorage.ValCursToCbrCurrencyStorage | internal/currency/cbrcurrency/currency.go:114-133 | the table becomes `Import` of the old table and the feed |
| CbrCurrency.EntryRate | internal/currency/cbrcurrency/currency.go:119-130 | no rate iff the value with commas turned to points does not parse; an empty nominal leaves it undivided, otherwise it is divided by the nominal |
| CbrCurrency.NominalOf | internal/currency/cbrcurrency/currency.go:125-128 | an unparsable nominal counts as 1 |
| CbrCurrency.ImportKeepsCodes | internal/currency/cbrcurrency/currency.go:118-132 | importing never removes a code |
| CbrCurrency.ImportUntouched | internal/currency/cbrcurrency/currency.go:118-132 | a code without a usable entry keeps its presence and rate |
| CbrCurrency.ImportLastWins | internal/currency/cbrcurrency/currency.go:118-132 | the last usable entry of a code decides its rate |
| CbrCurrency.CbrCurrencyStorage.GetAllCurrencies | internal/currency/cbrcurrency/currency.go:135-155 | each stored code exactly once, in ascending byte order, with its stored rate |
| CbrCurrency.Insert | internal/currency/cbrcurrency/currency.go:141-145 | inserting a new code into an ascending sequence keeps it ascending and adds exactly that code |
| CbrCurrency.AscendingUnique | internal/currency/cbrcurrency/currency.go:141-145 | two ascending sequences with the same members are equal, so the listing is determined by the table |
| CbrCurrency.ListingUnique | internal/currency/cbrcurrency/currency.go:135-155 | a table has exactly one listing |
| CbrCurrency.CbrCurrencyStorage.GetCurrencyValue | internal/currency/cbrcurrency/currency.go:157-165 | ErrCurrencyNotSupported iff the code is absent, otherwise its stored rate |
| Strings.JoinSplit | internal/model/messages/incoming_msg.go:258-259 | joining the pieces of a split gives the text back |
| Strings.SplitJoin | internal/model/messages/incoming_msg.go:206-221 | splitting a join of separator-free pieces gives the pieces back |
| Strings.Split | internal/model/messages/incoming_msg.go:155 | at least one piece, none containing the separator |
| Strings.SplitSingle | internal/model/messages/incoming_msg.go:389 | a split has one piece iff the separator does not occur |
| Strings.TrimSpace | internal/model/messages/incoming_msg.go:222 | the result is trimmed, empty iff the text is all white space, and a trimmed text is unchanged |
| Strings.TrimSpaceMiddle | internal/model/messages/incoming_msg.go:222 | the result is the slice of the text between a leading and a trailing run of white space |
| Strings.ToUpper | internal/model/messages/incoming_msg.go:393 | same length; each lower-case ASCII letter becomes its upper-case letter (code point − 32), every other character is kept |
| Strings.ReplaceAll | internal/currency/cbrcurrency/currency.go:119 | every occurrence replaced, everything else kept |
| Strings.FormatInt | internal/model/messages/cache_logic.go:17 | a non-empty string of digits with a sign exactly for negatives |
| Strings.ParseFormatInt | internal/model/messages/cache_logic.go:17 | the decimal text of an id reads back as the id |
| Strings.FormatIntInjective | internal/model/messages/cache_logic.go:17 | different ids have different currency cache keys |
| Strings.LessTotal | internal/currency/cbrcurrency/currency.go:145 | byte order is total on different strings |
| Strings.LessTransitive | internal/currency/cbrcurrency/currency.go:145 | byte order is transitive |
| Strings.LessIrreflexive | internal/currency/cbrcurrency/currency.go:145 | no string sorts before itself |
| Strings.LessAsymmetric | internal/currency/cbrcurrency/currency.go:145 | two strings never sort before each other |

Some functions are definitions that the rows above state properties of, and have no row of their own:
- `Strings.Join` (strings.Join) is covered by `JoinSplit` and `SplitJoin`.
- `Strings.Less` (the order of sort.Strings) is covered by the four `Less…` lemmas.
- `Commands.ReportWindow` is covered by `ProceedCommand` and `ReportWindowsNest`.
- `Messages.ReportKey` is covered by `ReportKeyInjective` and `InvalidatedLookup`.
- `Messages.CurrencyLookup`, `AfterLookup`, `LookupCalls`, `LimitGetCalls`, `AfterLimitGet`, `SetLimitCalls`, `ReportReply`, `ActiveReply`, `LimitReply` and `CachesAfterCommand` are covered by the handler rows that use them.
- `Commands.ActiveCurrencyText` is covered by `ActiveCurrencyTextLines`.

## Left out

- Locks: every mutex is dropped and each operation runs alone. `LRUCache.Get` reorders the queue while holding only the read lock, which is a data race that a sequential model cannot express.
- CacheLru.LruCache.Add requires a non-zero capacity. With capacity 0 the source removes the back of an empty list on the first `Add` and fails. The message model uses positive capacities.
- CacheLru.LruCache.Name is a plain accessor with no contract.
- The cache is generic in its value type rather than holding `interface{}`. Each cache instance stores one type, so the source's type assertions always succeed.
- Metrics and tracing calls are left out. They change nothing the model observes.
- HTTP/XML fetch of the central bank feed, charset decoding and the hourly refresh goroutine are left out. The constructor takes the already-decoded feed, or None when fetching failed.
- Decimal `Div`, `StringFixed(2)` and `String()` are abstract functions of `Env`, as are `decimal.NewFromString` and `time.Parse("02/01/06")`. Rounding and text formats are not modelled, and neither is a zero nominal or rate.
- Calendar arithmetic (`AddDate`) is left out. The three boundaries come with the `Clock`. One clock serves a whole message, whereas the source reads `time.Now()` separately in the handler and in invalidation.
- Strings.ToUpper upper-cases ASCII letters only; Unicode case mapping is not modelled.
- Postgres/GORM stores, Kafka, gRPC and the Telegram client are not part of this model. Their answers are the `Outcomes` parameter. Here "limit exceeded" is just one possible store answer. The Postgres limit check (internal/repository/postgres_sql/storage.go:144-149) never produces it as the handler expects:
  - When the rollback succeeds, it returns the earlier `err`, which is nil at that point.
  - When the rollback fails, it returns `errors.Wrap(ErrLimitExceeded, …)`. The handler compares with `==` at internal/model/messages/incoming_msg.go:243, so that wrapped error never matches and becomes the service error.
- Messages.Model.HandleCreateSpending requires that the date and decimal parsers reject the word "/addexp". The real parsers do. Under that condition the out-of-range index of internal/model/messages/incoming_msg.go:207-216 cannot happen. `Commands.ParseSpending` still has an explicit `IndexOutOfRange` outcome for parsers that would accept it.
- Messages.Model.ProceedCommand and Messages.Model.IncomingMessage state the replies of /start, unknown text, the reports and a parsed /addexp, and the caches every command leaves. For the other commands they promise only a non-empty reply and no message sent before the reply; each handler's own contract states that reply.
- Messages.Model.HandleCreateCategory compares the store error with `==` where internal/model/messages/incoming_msg.go:267 uses `errors.Is`. The `Error` values of the model carry no wrapped cause, so the two agree here; wrapped store errors are not modelled.
- Messages.Model.HandleCreateSpending and Messages.Model.HandleLimitSet return `ErrInvalidDecimal` with "Unknown amount". The source returns the error of `decimal.NewFromString` itself (internal/model/messages/incoming_msg.go:216-218 and :444-446), whose text is not modelled.
- Messages.Model.HandleCurrencyAll states the reply through the table's unique ascending listing, not through the listing the call computed.
- Go map iteration order is unspecified. `MemoryStorage.GetCategory` and `ReportPeriod` walk the ids in ascending order. Category names are unique per user and sums are exact, so the result is the same in any order.
- `MemoryStorage.GetAllCategories` sorts the user's ids with `sort.Ints` but only their count is used afterwards. The model counts and does not sort.
- The invalidation boundaries are strict, as in the code. A spending dated exactly at a boundary does not stale that report.
