# Openlist-Ani core, modelled in Dafny

Openlist-Ani finds new anime releases in RSS feeds and downloads them. It also runs a Telegram chat
assistant that can search the feeds for a title. This project models four pieces of it:

- **The downloader contract** (`downloader_base.dfy`).
  - `StateTransition` is the value a download-state handler returns.
  - It has four semantic constructors: `ok`, `transition`, `poll` and `fail`.
  - Each downloader backend implements one handler per non-terminal `DownloadState`.
  - The proofs cover which field combinations those constructors can build.
  - They also cover what each transition means for the task's next state, and which handler a state dispatches to.
- **The RSS ingestion pass** (`rss.dfy`).
  - `RSSManager.check_update` builds one fetch per subscribed URL that has a website handler.
  - It gathers the fetch outcomes and keeps only the entries that are genuinely new.
  - An entry is new when it has a download URL, is not already downloaded and is not being downloaded.
  - The loops are methods proved equal to recursive specification functions.
  - Lemmas prove the filter sound and complete, order-preserving and idempotent.
- **The `search_anime` assistant tool** (`search_anime.dfy`, with `url_quote.dfy`).
  - It builds a per-site search URL with `quote_plus`.
  - It converts feed entries to search results and splits them into downloaded and new.
  - It formats the report text.
  - `quote_plus` is modelled as UTF-8 encoding followed by percent-encoding, with a decoder as its partner. This gives the round trip and the injectivity of search URLs.
  - The report is built as a sequence of typed lines and then rendered. The imperative formatters are proved to produce exactly the rendered text.
  - Lemmas about the line structure state:
    - at most ten numbered items per section;
    - qualities only where present;
    - download URLs only in the new section;
    - the "...and N more" line exactly when more than ten results exist;
    - which headings appear.
- **The Telegram assistant** (`telegram_assistant.dfy`). It is a class whose fields are the bot's mutable state:
  - the polling offset;
  - per-user chat histories;
  - per-chat status-message ids;
  - a log (`outbox`) of the Bot API calls made.

  Each method's new state is stated through specification functions. Lemmas about those functions cover:
  - the offset passes every handled update;
  - a history stays bounded and ends with the latest exchange;
  - a chat's status message is edited in place, never duplicated;
  - other chats and users are untouched.

`wrappers.dfy` holds `Option`. `seqs.dfy` holds the subsequence relation and its lemmas. `website.dfy` holds the feed entry record (`AnimeResourceInfo`).

## Model

| member | source | states |
|---|---|---|
| DownloaderBase.Ok | src/openlist_ani/core/download/downloader/base.py:27-37 | a successful transition carrying the given optional next state, no delay and no error |
| DownloaderBase.Transition | src/openlist_ani/core/download/downloader/base.py:39-45 | `transition(s)` is exactly `ok(next_state=s)`: success, next state `s`, no delay, no error |
| DownloaderBase.Poll | src/openlist_ani/core/download/downloader/base.py:47-54 | a successful transition that stays in the given state, with the given delay and no error |
| DownloaderBase.Fail | src/openlist_ani/core/download/downloader/base.py:56-62 | an unsuccessful transition carrying the error message, with no next state and no delay |
| DownloaderBase.Build | src/openlist_ani/core/download/downloader/base.py:8-62 | every constructor call yields a well-formed transition; it has an error message iff it failed, it failed iff it came from `fail`, and only `poll` sets a non-zero delay |
| DownloaderBase.ClassifyBuilds | src/openlist_ani/core/download/downloader/base.py:8-62 | every well-formed transition is rebuilt exactly by the constructor call it is classified as |
| DownloaderBase.ConstructibleIffWellFormed | src/openlist_ani/core/download/downloader/base.py:19-62 | a transition is well formed iff some semantic constructor builds it |
| DownloaderBase.NextStateAfter | src/openlist_ani/core/download/downloader/base.py:12-17 | an unsuccessful transition sends the task to `Failed`; a successful one moves to `next_state` when given and otherwise stays |
| DownloaderBase.FailureIgnoresOtherFields | src/openlist_ani/core/download/downloader/base.py:13-14 | any two failed transitions lead to `Failed`, whatever their other fields |
| DownloaderBase.ConstructorOutcomes | src/openlist_ani/core/download/downloader/base.py:27-62 | `fail` leads to `Failed`, `transition(s)` to `s`, `poll(s, d)` stays in `s`, `ok()` stays in the current state |
| DownloaderBase.HandlerFor | src/openlist_ani/core/download/downloader/base.py:74-92 | each non-terminal state has exactly its own handler and the terminal states have none |
| DownloaderBase.Dispatch | src/openlist_ani/core/download/downloader/base.py:74-92 | a downloader answers a non-terminal state with that state's handler result, and a terminal state with nothing |
| Rss.GetWebsiteHandler | src/openlist_ani/core/rss.py:54-60 | a handler is returned iff the factory created one; a factory exception or no handler gives none |
| Rss.FetchPlanConcat | src/openlist_ani/core/rss.py:62-70 | the fetch plan of concatenated URL lists is the concatenation of their plans |
| Rss.FetchPlanMembers | src/openlist_ani/core/rss.py:62-70 | a fetch is planned iff its URL is subscribed and the factory created its handler for that URL; there are never more fetches than URLs |
| Rss.BuildFetchTasks | src/openlist_ani/core/rss.py:62-70 | the loop builds exactly the fetch plan, in URL order, skipping URLs without a handler |
| Rss.ValidEntries | src/openlist_ani/core/rss.py:85-95 | an exception or a non-list fetch outcome contributes no entries |
| Rss.SkipReasonOf | src/openlist_ani/core/rss.py:97-110 | the checks run in source order: a missing download URL is reported first, then an already downloaded title, and a queued entry is reported only when there is a download manager |
| Rss.IsValidFeedResult | src/openlist_ani/core/rss.py:85-95 | an outcome is accepted exactly when it is a list of entries; an exception or any other value is rejected |
| Rss.KeepIffNew | src/openlist_ani/core/rss.py:97-110 | an entry is kept iff it has a download URL, is not downloaded and is not queued by the download manager (when there is one) |
| Rss.AppendNewEntries | src/openlist_ani/core/rss.py:79-82 | the inner loop appends exactly the filtered entries of one feed, in order |
| Rss.CollectNewEntries | src/openlist_ani/core/rss.py:72-83 | the nested loop returns exactly the new entries of the valid outcomes, in order |
| Rss.Gathered | src/openlist_ani/core/rss.py:44 | gathering gives one outcome per fetch, in fetch order |
| Rss.CheckUpdate | src/openlist_ani/core/rss.py:29-52 | no URLs gives nothing; otherwise the fetches are the plan and the result is the new entries of their gathered outcomes |
| Rss.AdmittedSubsequence | src/openlist_ani/core/rss.py:79-82 | filtering one feed keeps a subsequence of its entries (order preserved) |
| Rss.CollectedSubsequence | src/openlist_ani/core/rss.py:72-83 | the collected entries are a subsequence of all entries of the valid outcomes |
| Rss.AdmittedMembers | src/openlist_ani/core/rss.py:79-82 | an entry survives one feed's filter iff it is in the feed and is new |
| Rss.CollectedMembers | src/openlist_ani/core/rss.py:72-110 | an entry is collected iff some valid outcome lists it and it is new: nothing new is lost and nothing old gets through |
| Rss.ValidOutcomeEntries | src/openlist_ani/core/rss.py:74-79 | every entry of a valid outcome is among the entries considered |
| Rss.InvalidOutcomeIgnored | src/openlist_ani/core/rss.py:75-77 | a failed or malformed fetch outcome changes neither the considered entries nor the result |
| Rss.AdmittedOfAllNew | src/openlist_ani/core/rss.py:97-110 | a feed whose every entry is new passes the filter unchanged |
| Rss.FilterIdempotent | src/openlist_ani/core/rss.py:72-110 | filtering the collected entries again removes nothing |
| Rss.AdmittedConcat | src/openlist_ani/core/rss.py:79-82 | filtering a concatenation is filtering each part and concatenating |
| Rss.CollectedIsFilterOfAll | src/openlist_ani/core/rss.py:72-83 | the output is one filter over all entries of the valid outcomes, in order, with every copy of a repeated entry |
| Rss.AdmittedCount | src/openlist_ani/core/rss.py:79-82 | one feed's filter keeps every copy of a new entry and no copy of any other |
| Rss.CollectedCount | src/openlist_ani/core/rss.py:72-110 | a new entry appears in the output exactly as many times as the valid outcomes list it; any other entry never appears |
| Rss.CollectedKeepsDuplicates | src/openlist_ani/core/rss.py:79-82 | a new entry listed twice by one feed is returned twice |
| UrlQuote.EncodeChar | src/openlist_ani/assistant/tools/search_anime.py:80 | a scalar value encodes to one to four UTF-8 bytes |
| UrlQuote.Utf8RoundTrip | src/openlist_ani/assistant/tools/search_anime.py:80 | decoding the UTF-8 encoding of any string gives the string back |
| UrlQuote.PercentRoundTrip | src/openlist_ani/assistant/tools/search_anime.py:80 | percent-decoding undoes percent-encoding (space as `+`, unreserved bytes kept, other bytes as `%XX`) |
| UrlQuote.QuotePlusRoundTrip | src/openlist_ani/assistant/tools/search_anime.py:80 | `quote_plus` is inverted by its decoder |
| UrlQuote.QuotePlusInjective | src/openlist_ani/assistant/tools/search_anime.py:80 | distinct names quote to distinct strings |
| UrlQuote.QuotePlusConcat | src/openlist_ani/assistant/tools/search_anime.py:80 | quoting distributes over concatenation |
| UrlQuote.QuotePlusOneChar | src/openlist_ani/assistant/tools/search_anime.py:80 | an unreserved ASCII character quotes to itself and a space quotes to `+` |
| UrlQuote.QuotePlusIsQueryValue | src/openlist_ani/assistant/tools/search_anime.py:80 | the quoted text contains only unreserved characters, `+` and `%`, so it cannot end or split the query parameter |
| SearchAnime.BuildSearchUrl | src/openlist_ani/assistant/tools/search_anime.py:78-86 | a URL exists iff the site is mikan, dmhy or acgrip, and it is that site's search prefix followed by the quoted name |
| SearchAnime.SearchTermRecoverable | src/openlist_ani/assistant/tools/search_anime.py:78-86 | the anime name can be recovered from the search URL by unquoting the part after the prefix |
| SearchAnime.SearchUrlInjective | src/openlist_ani/assistant/tools/search_anime.py:78-86 | different names give different search URLs on the same site |
| SearchAnime.ToSearchResult | src/openlist_ani/assistant/tools/search_anime.py:100-109 | a result keeps the entry's title, name, episode and quality and records the downloaded flag; its URL is empty iff the entry had none |
| SearchAnime.BuildSearchResults | src/openlist_ani/assistant/tools/search_anime.py:96-111 | the loop gives one result per entry, in order, each the converted entry |
| SearchAnime.Select | src/openlist_ani/assistant/tools/search_anime.py:117-118 | a comprehension keeps only input results whose download flag is the wanted one, and never more of them than the input has |
| SearchAnime.SelectSizes | src/openlist_ani/assistant/tools/search_anime.py:117-118 | the two comprehensions together keep as many results as there are |
| SearchAnime.SelectMultiset | src/openlist_ani/assistant/tools/search_anime.py:117-118 | the two comprehensions together keep every result exactly once (a permutation split) |
| SearchAnime.SelectSubsequence | src/openlist_ani/assistant/tools/search_anime.py:117-118 | each comprehension keeps its results in their original order |
| SearchAnime.SelectComplete | src/openlist_ani/assistant/tools/search_anime.py:117-118 | a result is selected iff it is in the input and its download flag is the wanted one |
| SearchAnime.SplitResults | src/openlist_ani/assistant/tools/search_anime.py:113-119 | the downloaded part holds exactly the downloaded results and the new part exactly the others; both keep order and together they are a permutation of the input |
| SearchAnime.Listed | src/openlist_ani/assistant/tools/search_anime.py:142 | at most the first ten results are listed |
| SearchAnime.FormatDownloadedResources | src/openlist_ani/assistant/tools/search_anime.py:139-154 | the text built by the loop is exactly the rendered downloaded section |
| SearchAnime.FormatNewResources | src/openlist_ani/assistant/tools/search_anime.py:156-168 | the text built by the loop is exactly the rendered new-resources section |
| SearchAnime.RenderReport | src/openlist_ani/assistant/tools/search_anime.py:125-137 | rendering the report is the heading text followed by each present section's text |
| SearchAnime.FormatSearchResults | src/openlist_ani/assistant/tools/search_anime.py:121-137 | the message is exactly the rendered report for the split results |
| SearchAnime.ItemBlocksKinds | src/openlist_ani/assistant/tools/search_anime.py:142-145 | the lines of one kind in the item blocks are the per-item lines of that kind, in item order |
| SearchAnime.SectionItems | src/openlist_ani/assistant/tools/search_anime.py:142-143 | both sections list at most ten items, numbered from 1, each with its result's title |
| SearchAnime.SectionQualities | src/openlist_ani/assistant/tools/search_anime.py:144-145 | both sections show a quality line exactly for the listed results that have a quality, in order |
| SearchAnime.SectionUrls | src/openlist_ani/assistant/tools/search_anime.py:163 | the new section shows one download URL per listed result and the downloaded section shows none |
| SearchAnime.SectionMore | src/openlist_ani/assistant/tools/search_anime.py:147-148 | a section ends with one "...and N more" line iff it has more than ten results, with N the number left out |
| SearchAnime.ReportDownloadedHeading | src/openlist_ani/assistant/tools/search_anime.py:129-130 | the downloaded heading appears once, with the count, iff some result is downloaded |
| SearchAnime.ReportNewHeading | src/openlist_ani/assistant/tools/search_anime.py:132-133 | the new-resources heading appears once, with the count, iff some result is new |
| SearchAnime.ReportNoNew | src/openlist_ani/assistant/tools/search_anime.py:132-135 | the "no new resources" notice appears once iff no result is new |
| SearchAnime.SearchResultsOf | src/openlist_ani/assistant/tools/search_anime.py:96-111 | one search result per fetched entry |
| SearchAnime.Execute | src/openlist_ani/assistant/tools/search_anime.py:44-76 | requests the built URL; replies "unsupported", "failed to create handler", "error searching", "no resources" or the formatted report, exactly as the site, handler and fetch outcome dictate |
| Telegram.NextOffset | src/openlist_ani/assistant/telegram_assistant.py:249-253 | the offset never decreases; a truthy update id raises it past that id; a missing or zero id leaves it alone |
| Telegram.OffsetAfterPassesAll | src/openlist_ani/assistant/telegram_assistant.py:249-253 | after a batch of updates the offset exceeds every truthy update id seen, so no update is fetched twice |
| Telegram.ExtractMessageContext | src/openlist_ani/assistant/telegram_assistant.py:255-271 | a context exists iff the update has a message with a truthy chat id and truthy text, and then it carries those and the sender id |
| Telegram.Authorized | src/openlist_ani/assistant/telegram_assistant.py:275-276 | the allow-list test: an empty list admits every sender, otherwise only a sender whose id is listed |
| Telegram.AuthorizedCases | src/openlist_ani/assistant/telegram_assistant.py:273-276 | an empty allow-list admits everyone; otherwise exactly the listed senders, never an unknown sender |
| Telegram.CommandReply | src/openlist_ani/assistant/telegram_assistant.py:290-298 | `/start` answers with the welcome text and `/clear` with the history-cleared text |
| Telegram.StatusToText | src/openlist_ani/assistant/telegram_assistant.py:119-140 | every status maps to a non-empty text |
| Telegram.StatusTextCases | src/openlist_ani/assistant/telegram_assistant.py:119-140 | thinking, finalizing and any other status get their own fixed texts; a download shows its title when it has one; search, RSS parsing and SQL query get their fixed texts; any other tool, and a download without a title, is named in the text |
| Telegram.UpsertCases | src/openlist_ani/assistant/telegram_assistant.py:349-358 | a tracked status message is edited and kept; otherwise a new one is sent and stored only when its id is non-zero; stored ids stay non-zero |
| Telegram.EventsKeepOtherChats | src/openlist_ani/assistant/telegram_assistant.py:338-358 | status events for one chat leave every other chat's status message alone and keep ids non-zero |
| Telegram.EventsKeepTrackedMessage | src/openlist_ani/assistant/telegram_assistant.py:349-354 | once a chat has a status message, further events keep the same message |
| Telegram.EventsEditTrackedMessage | src/openlist_ani/assistant/telegram_assistant.py:338-354 | once a chat has a status message, every further event edits that one message and none sends a new one |
| Telegram.TrimHistoryCases | src/openlist_ani/assistant/telegram_assistant.py:334-336 | `history[-m:]` keeps a suffix: the last m turns for positive m, everything for 0, and all but the first -m for negative m |
| Telegram.AppendedEndsWithExchange | src/openlist_ani/assistant/telegram_assistant.py:327-336 | with a limit of at least two, the new history is a bounded suffix ending with the user's text and then the assistant's reply |
| Telegram.AppendedWithoutLimit | src/openlist_ani/assistant/telegram_assistant.py:334-336 | with a limit of zero nothing is trimmed and the exchange is appended |
| Telegram.RunKeepsOtherChats | src/openlist_ani/assistant/telegram_assistant.py:302-319 | processing a message touches only its own chat's status entry, removes it after a reply and keeps ids non-zero |
| Telegram.RunKeepsOtherHistories | src/openlist_ani/assistant/telegram_assistant.py:302-325 | processing a message changes no other user's history |
| Telegram.RunKeepsHistoryBound | src/openlist_ani/assistant/telegram_assistant.py:327-336 | if every history is within the limit before processing, every history is within it afterwards |
| Telegram.TelegramAssistant.constructor | src/openlist_ani/assistant/telegram_assistant.py:37-63 | starts with offset 0, no histories, no status messages and nothing sent |
| Telegram.TelegramAssistant.UpdatePollingOffset | src/openlist_ani/assistant/telegram_assistant.py:249-253 | the offset becomes the next offset for the update id and nothing else changes |
| Telegram.TelegramAssistant.AuthorizeUser | src/openlist_ani/assistant/telegram_assistant.py:273-280 | grants exactly the authorized senders and sends the refusal message to the others |
| Telegram.TelegramAssistant.HandleCommand | src/openlist_ani/assistant/telegram_assistant.py:282-300 | handles exactly `/start` and `/clear` with their replies; `/clear` forgets the sender's history |
| Telegram.TelegramAssistant.GetOrCreateHistory | src/openlist_ani/assistant/telegram_assistant.py:321-325 | returns the sender's stored history (empty if none) and records an empty one for a new sender |
| Telegram.TelegramAssistant.AppendHistory | src/openlist_ani/assistant/telegram_assistant.py:327-336 | the history gains the user turn and the assistant turn and is cut to the last twice-the-limit turns |
| Telegram.TelegramAssistant.UpsertStatusMessage | src/openlist_ani/assistant/telegram_assistant.py:349-358 | edits the chat's tracked status message or sends a new one, and tracks it when its id is non-zero |
| Telegram.TelegramAssistant.ClearStatusMessage | src/openlist_ani/assistant/telegram_assistant.py:360-364 | deletes the chat's tracked status message if there is one and stops tracking it |
| Telegram.TelegramAssistant.RelayStatusEvents | src/openlist_ani/assistant/telegram_assistant.py:338-347 | each status event becomes its text and is upserted in turn |
| Telegram.TelegramAssistant.DeliverReply | src/openlist_ani/assistant/telegram_assistant.py:314-316 | clears the status message, records the exchange in the sender's history and sends the reply |
| Telegram.TelegramAssistant.ProcessUserMessage | src/openlist_ani/assistant/telegram_assistant.py:302-319 | relays the status events; on a reply, clears the status message, stores the trimmed history and sends the reply; on an exception, keeps the status message tracked, only creates a missing history, and sends the error reply |
| Telegram.TelegramAssistant.ProcessUpdate | src/openlist_ani/assistant/telegram_assistant.py:95-117 | always advances the offset; an update without a usable message changes nothing else; an unauthorized sender gets the refusal, a command its reply, and any other text is processed |

## Left out

- Network I/O is not modelled: Telegram Bot API calls (`getUpdates`, `sendMessage`, `editMessageText`, `deleteMessage`, `getMe`), the polling loop, its sleeps and the bot-info logging. Sent and edited messages are recorded in the `outbox` log, and the message id returned by a send is a parameter.
- Logging is left out everywhere; it has no effect on results.
- Concurrency is not modelled. `asyncio.gather(..., return_exceptions=True)` is a function from fetches to outcomes, in order (`Rss.Gathered`). The status callback's calls during `process_message` are a sequence of status events replayed in order before the run's outcome.
- External code is passed in as parameters: the config's RSS URL list, `WebsiteFactory.create`, `fetch_feed`, `db.is_downloaded`, the download manager's `is_downloading` and `AniAssistant.process_message`. Each lookup is modelled as a stable pure function, so the database cannot change during a pass.
- Rss.CheckUpdate: an exception raised by `db.is_downloaded` while filtering propagates out of `check_update` in the source; the model treats the lookup as total.
- SearchAnime.Execute: an exception from the database lookup while building results is folded into the fetch-raised outcome. Both lead to the same "error searching" reply.
- The download lifecycle manager (retries, backoff, the task registry, history commit) and the concrete downloader backends are not part of this model. `DownloaderBase.NextStateAfter` states only the field semantics documented on `StateTransition`.
- `delay_seconds` is a `real`, not an IEEE float. `downloader_type` is a plain field of the downloader value.
- The feed entry parser (`parser.py`) and the website handlers are not part of this model. Quality is kept as its string value rather than the enum.
- Python truthiness is modelled only for the values the source can meet: ids are integers (0 is falsy) and texts are strings ("" is falsy). An empty `message` dict is treated as an absent message, with the same outcome. A payload `tool_name` of `None` and non-integer ids are not modelled.
- Telegram.TelegramAssistant.AppendHistory: the source mutates the history list in place. The model returns the new list, and `ProcessUserMessage` writes it back under the sender's id, so the stored state is the same. `process_message` is assumed not to modify the history list it is given.
- Exceptions raised by the Bot API calls themselves are not modelled. Only an exception from `process_message` is (the `Raised` outcome): the status message stays tracked, the history is only created, and the error reply carries the exception text as a parameter.
