# fire-fly word counter, modelled in Dafny

fire-fly reads a list of article URLs (at most 1000) and a word bank. It
fetches every article and takes the `articleBody` text out of the page's
JSON-LD script. It splits that text on whitespace, counts each token that
the bank holds, and reports the ten most frequent words.

The repository has two counters. `WordsCounter` is the one the application
runs at start-up: it requests each article once, and a throttled page ends
the run. `WordsCounterService` retries a throttled page (one containing
"999 Unable to process request at this time"). It uses exponential backoff
and logs a warning every tenth retry.

The model has one module per concern:

- `JavaText` (`text.dfy`): `String.trim`, `toLowerCase`,
  `Character.isAlphabetic`, `contains` and `split("\\s+")`, over ASCII.
- `Articles` (`articles_cache.dfy`): class `ArticlesCache`, the URL queue.
  `LoadFromFile`, `GetNext` and `GetBatch` update the `articles` sequence
  in place; `HasNext` and `GetSize` only read it.
- `Bank` (`word_bank_cache.dfy`): class `WordBankCache`, the word set, with
  its admission rule and the exact-match `IsValid`.
- `Extract` (`extraction.dfy`): `processHtml`. It decides between "no
  tokens", "tokens of the article text" and "rate limited".
- `Counting` (`counting.dfy`): the `compute` increment, and counting a
  token stream against the bank.
- `Ranking` (`ranking.dfy`): the entry stream, the sort by count with the
  highest first, and `limit(10)`.
- `Retry` (`retry.dfy`): `retryWhen` with the service's retry spec, and the
  warnings it logs.
- `Service` (`words_counter_service.dfy`): class `WordsCounterService`.
- `Counter` (`words_counter.dfy`): class `WordsCounter`, and how its runs
  compare with the service's.
- `LiteralMatch` (`literal_match.dfy`): a worked example. With the bank
  {ocean, forest, breeze} and the single-spaced text "the Ocean and the
  forest and the breeze near forest", forest counts 2, breeze counts 1 and
  "Ocean" is not counted.

Reading files, HTTP, HTML and JSON parsing are inputs to the model:

- The loaders take the file's lines.
- Each counter class holds its web client as a function. For the counter
  it maps a URL to one response. For the service it maps a URL to the
  responses of successive requests.
- Jsoup and Jackson are the two functions of `Parsers`.

A run of a counter is the fold `ServiceTally` or `CounterTally` over the
queued URLs in queue order. It ends in one of three ways:

- `Drained`: the queue emptied, and the top words were reported.
- `StalledAt(url)`: the service was still being throttled when the
  responses given for the URL ran out.
- `AbortedAt(url)`: an error escaped `blockLast`. This happens on a
  transport error. For `WordsCounter` it also happens on a throttled page.
  For the service it also happens when the `Long.MAX_VALUE` retry cap is
  reached. That raises `RetryExhaustedException`, which is not an
  `Error999Exception`, so `onErrorResume` does not catch it.

`WordsCounterService` imports `ArticlesCache` and `WordBankCache` from a
`cache` package that is not part of this model. They are taken to be the
classes of the same name in `com.example.firefly`.

## Model

| member | source | states |
|---|---|---|
| JavaText.TrimShape | src/main/java/com/example/firefly/ArticlesCache.java:36 | after `trim`, neither end of the string is a character at or below U+0020 |
| JavaText.NormalizeIsNormalized | src/main/java/com/example/firefly/ArticlesCache.java:36 | `trim().toLowerCase()` yields a string with trimmed ends and no upper-case letter; on such a string it is the identity |
| JavaText.SplitOnWhitespace | src/main/java/com/example/firefly/WordsCounterService.java:109 | tokens of `split("\\s+")` hold no whitespace; only the first may be empty; the last of a non-empty text is not empty |
| JavaText.SplitKeepsText | src/main/java/com/example/firefly/WordsCounterService.java:109 | the tokens, concatenated, are exactly the text's non-whitespace characters in order |
| JavaText.SplitOfBlank | src/main/java/com/example/firefly/WordsCounterService.java:109 | the empty text splits into one empty token; non-empty all-whitespace text splits into no tokens |
| JavaText.SplitFirstToken | src/main/java/com/example/firefly/WordsCounterService.java:109 | a text with some word has an empty first token exactly when it starts with whitespace |
| JavaText.SplitOfSpaced | src/main/java/com/example/firefly/WordsCounterService.java:109 | words laid out with optional leading and trailing whitespace and a non-empty whitespace run between neighbours split back into exactly those words, behind one empty token when the text starts with whitespace |
| Articles.LoadedUrlsAre | src/main/java/com/example/firefly/ArticlesCache.java:32-39 | the loader queues at most 1000 URLs; the i-th is the i-th line trimmed and lower-cased, and is in that normal form |
| Articles.ArticlesCache.constructor | src/main/java/com/example/firefly/ArticlesCache.java:24-26 | the queue starts empty, and so every queued URL is in normal form |
| Articles.ArticlesCache.LoadFromFile | src/main/java/com/example/firefly/ArticlesCache.java:29-45 | the queue becomes the old queue followed by the first 1000 normalized lines, in file order |
| Articles.ArticlesCache.GetNext | src/main/java/com/example/firefly/ArticlesCache.java:47-49 | `poll`: nothing exactly when the queue is empty; otherwise the head, removed, which is in normal form |
| Articles.ArticlesCache.GetBatch | src/main/java/com/example/firefly/ArticlesCache.java:51-57 | the batch is the first min(max(size, 0), queue length) URLs in FIFO order, and the queue keeps the rest; every URL of the batch is in normal form |
| Articles.ArticlesCache.HasNext | src/main/java/com/example/firefly/ArticlesCache.java:59-65 | true exactly when `getSize()` is positive |
| Articles.ArticlesCache.GetSize | src/main/java/com/example/firefly/ArticlesCache.java:63-65 | the size is zero exactly when the queue is empty |
| Bank.IsAdmissible | src/main/java/com/example/firefly/WordBankCache.java:45-47 | an admissible word is non-empty, holds no whitespace, and has nothing `trim` would remove at either end |
| Bank.BankOfMembers | src/main/java/com/example/firefly/WordBankCache.java:27-47 | a word is in the bank exactly when it has at least 3 letters, all alphabetic, and some line trims and lower-cases to it |
| Bank.BankWordsAreLowerLetters | src/main/java/com/example/firefly/WordBankCache.java:32-47 | every bank word has at least three characters, all of them a-z, and is in normal form |
| Bank.NeverInBank | src/main/java/com/example/firefly/WordBankCache.java:45-51 | a token shorter than three characters or holding a capital letter is never in the bank, whatever the file says |
| Bank.DuplicateLine | src/main/java/com/example/firefly/WordBankCache.java:32-37 | repeating a line of the file does not change the bank |
| Bank.WordBankCache.constructor | src/main/java/com/example/firefly/WordBankCache.java:22-24 | the bank starts empty, and so every stored word is admissible and normalized |
| Bank.WordBankCache.LoadFromFile | src/main/java/com/example/firefly/WordBankCache.java:27-43 | the bank grows by exactly the admissible normalized lines and keeps its invariant |
| Bank.WordBankCache.IsValid | src/main/java/com/example/firefly/WordBankCache.java:49-51 | exact membership, with no trimming or case folding; a valid word is admissible and normalized |
| Extract.ProcessHtml | src/main/java/com/example/firefly/WordsCounterService.java:87-116 | rate limited exactly when there is a body that contains the marker; otherwise the tokens are exactly `split("\\s+")` of the article text, so they hold no whitespace and concatenate to its non-whitespace characters; there are no tokens without a body or article text |
| Extract.MarkerComesFirst | src/main/java/com/example/firefly/WordsCounterService.java:91-96 | the marker gives the rate-limit signal even when the page has no JSON-LD script |
| Counting.Increment | src/main/java/com/example/firefly/WordsCounterService.java:52 | the word's count grows by one (from absent to 1); every other count and key stays |
| Counting.CountTokensAt | src/main/java/com/example/firefly/WordsCounterService.java:51-52 | after counting, a bank word's count has grown by its occurrences among the tokens, and any other word's count is unchanged |
| Counting.CountTokensKeys | src/main/java/com/example/firefly/WordsCounterService.java:51-52 | counting adds as keys exactly the bank words that occur among the tokens |
| Counting.CountTokensPermutation | src/main/java/com/example/firefly/WordsCounterService.java:49-53 | any reordering of the tokens gives the same map |
| Counting.CountTokensAppend | src/main/java/com/example/firefly/WordsCounterService.java:49-53 | counting two token runs in turn is counting their concatenation |
| Counting.RejectedTokensIgnored | src/main/java/com/example/firefly/WordsCounterService.java:51 | tokens outside the bank leave the map unchanged |
| Ranking.InsertSorted | src/main/java/com/example/firefly/WordsCounterService.java:122 | inserting into a list sorted by descending count keeps it sorted |
| Ranking.SortSorted | src/main/java/com/example/firefly/WordsCounterService.java:122 | the sort gives counts in descending order and a permutation of its input |
| Ranking.SortKeys | src/main/java/com/example/firefly/WordsCounterService.java:122 | the sort keeps the set of words, and a stream without repeated words stays so |
| Ranking.Top10Shape | src/main/java/com/example/firefly/WordsCounterService.java:120-124 | `limit(10)` keeps min(10, n) entries, sorted by descending count, drawn from the input, with no word repeated |
| Ranking.Top10Bound | src/main/java/com/example/firefly/WordsCounterService.java:122-123 | every entry left out counts no more than any entry kept |
| Ranking.EntriesOf | src/main/java/com/example/firefly/WordsCounterService.java:120-121 | the entry stream lists each word of the map once, with its count |
| Ranking.TopOfEntries | src/main/java/com/example/firefly/WordsCounterService.java:120-124 | the report holds min(10, number of words) words of the map with their counts, highest first; no word left out counts more than a word kept |
| Retry.ResolveDecidedBy | src/main/java/com/example/firefly/WordsCounterService.java:61-85 | only the rate-limit signal is retried. The retries counted are the throttled responses before the deciding one, and tokens come from the first response that is not throttled. The cap ends fetching only when the response after `Long.MAX_VALUE` throttled retries is throttled too. Responses run out only when all were throttled |
| Retry.RetriesThenSuccess | src/main/java/com/example/firefly/WordsCounterService.java:70-78 | k throttled responses and then a readable page give that page's tokens after k retries |
| Retry.WarningsUpToMembers | src/main/java/com/example/firefly/WordsCounterService.java:79-84 | a warning is logged before a retry exactly when the retry's ordinal is a positive multiple of ten |
| Retry.WarningsUpToCount | src/main/java/com/example/firefly/WordsCounterService.java:79-84 | n retries log n / 10 warnings |
| Service.TallyOfBatches | src/main/java/com/example/firefly/WordsCounterService.java:46-54 | counting the queue batch by batch is counting it in one pass; the rest is counted only if the batch drains |
| Service.TallyCountsTokens | src/main/java/com/example/firefly/WordsCounterService.java:46-54 | the final map is the start map with every token fetched before the halt counted |
| Service.TallyCountsOccurrences | src/main/java/com/example/firefly/WordsCounterService.java:49-53 | each word's final count is its start count plus, if the bank holds it, its occurrences among the fetched tokens |
| Service.AnyArrivalOrderCountsTheSame | src/main/java/com/example/firefly/WordsCounterService.java:49-53 | tokens merged by `flatMap` in any arrival order give the same map |
| Service.TallyHaltsAtFirstUnresolved | src/main/java/com/example/firefly/WordsCounterService.java:46-73 | the run drains exactly when every article resolves. Otherwise it halts at the first article that does not, and stalls exactly when that article ran out of responses while throttled |
| Service.WordsCounterService.constructor | src/main/java/com/example/firefly/WordsCounterService.java:35-41 | the caches and web client are the ones given; the map starts empty |
| Service.WordsCounterService.ExtractWords | src/main/java/com/example/firefly/WordsCounterService.java:61-85 | the outcome is that of retrying under `getRetrySpec`, and the warnings are those for the retries made |
| Service.WordsCounterService.CountWords | src/main/java/com/example/firefly/WordsCounterService.java:51-52 | the map becomes the old map with the bank's tokens counted |
| Service.WordsCounterService.TopWords | src/main/java/com/example/firefly/WordsCounterService.java:119-124 | the result is the map's top words as `TopOfEntries` states them |
| Service.WordsCounterService.CountBatch | src/main/java/com/example/firefly/WordsCounterService.java:47-53 | the map and halt are those of counting the batch's articles in order |
| Service.BatchStep | src/main/java/com/example/firefly/WordsCounterService.java:45-53 | one turn of the loop: the URLs counted so far end on a multiple of fifty or the queue is empty; counting the next batch extends the tally of the prefix, and a batch that halts halts the whole run, leaving the URLs after it queued |
| Service.WordsCounterService.CountTop10Words | src/main/java/com/example/firefly/WordsCounterService.java:43-56 | the map is the tally over the whole queue. A drained run empties the queue and reports its top words; a stalled or aborted run names the URL. After a halt, `getBatch(50)` has removed whole batches up to and including the one holding the halting URL: the batches before it drain, counting up to its end halts as the whole run does, and every later URL stays queued |
| Counter.Fetch | src/main/java/com/example/firefly/WordsCounter.java:63-100 | an error escapes exactly on a transport error or a throttled page; otherwise the result is the page's tokens |
| Counter.CounterTallyOfBatches | src/main/java/com/example/firefly/WordsCounter.java:48-56 | counting batch by batch is counting in one pass |
| Counter.CounterAbortsAtFirstError | src/main/java/com/example/firefly/WordsCounter.java:71-79 | this counter never stalls. It drains exactly when every fetch yields tokens; otherwise it aborts at the first throttled or failed article |
| Counter.CountersAgreeWithoutThrottling | src/main/java/com/example/firefly/WordsCounter.java:63-100 | with no throttled article, this counter and the service end the same way with the same map |
| Counter.ThrottledArticleDiffers | src/main/java/com/example/firefly/WordsCounter.java:77-79 | a throttled article aborts this counter, while the service, given k >= 1 throttled responses and then a readable page, retries k times and counts that page |
| Counter.WordsCounter.constructor | src/main/java/com/example/firefly/WordsCounter.java:35-41 | the caches and web client are the ones given; the map starts empty |
| Counter.WordsCounter.CountWords | src/main/java/com/example/firefly/WordsCounter.java:53-54 | the map becomes the old map with the bank's tokens counted |
| Counter.WordsCounter.TopWords | src/main/java/com/example/firefly/WordsCounter.java:103-108 | the result is the map's top words as `TopOfEntries` states them |
| Counter.WordsCounter.CountBatch | src/main/java/com/example/firefly/WordsCounter.java:49-55 | the map and halt are those of counting the batch's articles in order |
| Counter.CounterBatchStep | src/main/java/com/example/firefly/WordsCounter.java:48-56 | one turn of the loop: the URLs counted so far end on a multiple of fifty or the queue is empty; counting the next batch extends the tally of the prefix, and a batch that aborts aborts the whole run, leaving the URLs after it queued |
| Counter.WordsCounter.CountTop10Words | src/main/java/com/example/firefly/WordsCounter.java:43-61 | the map is the tally over the whole queue; a drained run empties the queue and reports its top words; an aborted run names the URL. After an abort, `getBatch(50)` has removed whole batches up to and including the one holding the failing URL: the batches before it drain, counting up to its end aborts as the whole run does, and every later URL stays queued |
| LiteralMatch.ArticleSplitsIntoWords | src/main/java/com/example/firefly/WordsCounterService.java:109 | the single-spaced text "the Ocean and the forest and the breeze near forest" splits into exactly its ten words |
| LiteralMatch.ArticleLineSplitsIntoWords | src/main/java/com/example/firefly/WordsCounterService.java:109 | the same text followed by a newline splits into the same ten words, with no trailing empty token |
| LiteralMatch.CapitalisedWordIsNotCounted | src/main/java/com/example/firefly/WordBankCache.java:49-51 | bank {ocean, forest, breeze} and the single-spaced text "the Ocean and the forest and the breeze near forest": forest 2, breeze 1, no entry for ocean |

## Left out

- Reading `articles.txt` and `bank.txt`: the loaders take the lines. An `IOException` part-way would keep the lines read so far; this is not modelled.
- HTTP requests: a request's answer is an input. Timing, headers and the user-agent generator are not modelled, and neither are `AppConfig` and the Spring wiring.
- Jsoup and Jackson: the first `script[type=application/ld+json]` element and the JSON `articleBody` field are abstract functions. `asText()` is taken to be the field's text.
- Reactor concurrency: `flatMap` and `Schedulers.parallel()` are modelled as a sequential fold in queue order. `Counting.CountTokensPermutation` and `Service.AnyArrivalOrderCountsTheSame` show that the interleaving does not change a drained run's map. The model halts at the first URL in queue order that does not resolve and counts exactly the articles before it. The source differs in the two ways a run can halt:
  - Abort: the failing URL is the first to fail in time, not in queue order. `flatMap` then cancels the articles still in flight, so articles of the same batch, before or after the failing URL in the queue, may have been counted in full, in part or not at all.
  - Stall: nothing fails and nothing is cancelled. The source keeps retrying the throttled URL, every other article of the batch is fetched and counted in full, and the run never reports. If a later article of the same batch fails in transport meanwhile, the source aborts, where the model reports `StalledAt` for the throttled URL.
- Repeated requests: the web client is a function of the URL, so a URL queued twice gets the same responses both times. The source sends a new request each time and may get a different answer.
- Backoff timing (1 s doubling, 10 s ceiling): time is not modelled, only the number of retries.
- Endless retries: the service retries a throttled article until `Long.MAX_VALUE` retries. The model takes a finite list of responses per URL. When that list ends while the article is still throttled, the run is `Stalled`, where the source would go on retrying.
- Logging and printing: the JSON report, the log lines and the elapsed time are not modelled. The warnings are returned as the retry ordinals at which they are logged.
- Unicode: trimming, lower-casing, `isAlphabetic` and `\s` are modelled over ASCII. `toLowerCase` is taken to be locale-independent.
- Ranking ties: the order among entries with equal counts is not fixed, since the map's entry order is unspecified. `Ranking.EntriesOf` picks keys in an arbitrary order, and no stability is claimed.
- `Ranking.Top10Shape`: `LinkedHashMap` with merge function `(e1, e2) -> e1` is modelled as the list of entries, because the entries' keys are already distinct.
- Integer overflow of the counts: counts are unbounded naturals. At most 1000 articles are fetched, so no count comes near `Integer.MAX_VALUE` for bodies of ordinary size.
- The `retryCount` arithmetic is `long`: the model uses unbounded integers, and the cap keeps the count at or below `Long.MAX_VALUE`.
