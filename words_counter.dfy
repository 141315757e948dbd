/**
 * `WordsCounter`, the counter the application runs at start-up: the same
 * batch loop as `WordsCounterService`, but each article is requested once,
 * and a throttled page throws an error that ends the run.
 */
module Counter {
  import opened Wrappers
  import opened Extract
  import opened Counting
  import opened Ranking
  import opened Retry
  import opened Articles
  import opened Bank
  import opened Service

  /** `flatMapMany` over one response: the page's tokens, or None when an error escapes. */
  function Fetch(response: Response, parsers: Parsers): (r: Option<seq<string>>)
    ensures r.None? <==> response.TransportError? || Throttled(response, parsers)
    ensures r.Some? ==> r.value == ProcessHtml(response.html, parsers).tokens
  {
    match response
    case TransportError => None
    case Body(html) =>
      match ProcessHtml(html, parsers)
      case Words(tokens) => Some(tokens)
      case RateLimited => None
  }

  /** The counting loop over the queued URLs in order; the first error ends the run. */
  function CounterTally(m: Counts, bank: set<string>, urls: seq<string>,
                        webClient: string -> Response, parsers: Parsers): Tally
    decreases |urls|
  {
    if urls == [] then Tally(m, Drained)
    else
      match Fetch(webClient(urls[0]), parsers)
      case Some(tokens) => CounterTally(CountTokens(m, bank, tokens), bank, urls[1..], webClient, parsers)
      case None => Tally(m, AbortedAt(urls[0]))
  }

  /** Counting the queue a batch at a time is counting it in one pass: the rest is counted only if the batch drains. */
  lemma {:induction false} CounterTallyOfBatches(m: Counts, bank: set<string>, batch: seq<string>, rest: seq<string>,
                                                 webClient: string -> Response, parsers: Parsers)
    ensures var first := CounterTally(m, bank, batch, webClient, parsers);
      CounterTally(m, bank, batch + rest, webClient, parsers)
        == if first.halt.Drained? then CounterTally(first.counts, bank, rest, webClient, parsers) else first
    decreases |batch|
  {
    if batch == [] {
      assert batch + rest == rest;
    } else {
      assert (batch + rest)[0] == batch[0] && (batch + rest)[1..] == batch[1..] + rest;
      match Fetch(webClient(batch[0]), parsers)
      case Some(tokens) =>
        CounterTallyOfBatches(CountTokens(m, bank, tokens), bank, batch[1..], rest, webClient, parsers);
      case None =>
    }
  }

  /** The run drains exactly when every article's page is read, and it never stalls. */
  lemma {:induction false} CounterDrainsIff(m: Counts, bank: set<string>, urls: seq<string>,
                                            webClient: string -> Response, parsers: Parsers)
    ensures var halt := CounterTally(m, bank, urls, webClient, parsers).halt;
      && !halt.StalledAt?
      && (halt.Drained? <==> forall i :: 0 <= i < |urls| ==> Fetch(webClient(urls[i]), parsers).Some?)
    decreases |urls|
  {
    if urls != [] {
      var rest := urls[1..];
      match Fetch(webClient(urls[0]), parsers)
      case Some(tokens) =>
        CounterDrainsIff(CountTokens(m, bank, tokens), bank, rest, webClient, parsers);
        assert forall i :: 0 < i < |urls| ==> urls[i] == rest[i - 1];
      case None =>
    }
  }

  /** An aborted run names the first article whose request failed or whose page was throttled. */
  lemma {:induction false} CounterAbortsAt(m: Counts, bank: set<string>, urls: seq<string>,
                                           webClient: string -> Response, parsers: Parsers)
    ensures var halt := CounterTally(m, bank, urls, webClient, parsers).halt;
      halt.AbortedAt? ==>
        exists i :: 0 <= i < |urls| && urls[i] == halt.url
          && (forall j :: 0 <= j < i ==> Fetch(webClient(urls[j]), parsers).Some?)
          && Fetch(webClient(urls[i]), parsers).None?
    decreases |urls|
  {
    if urls != [] {
      var rest := urls[1..];
      var halt := CounterTally(m, bank, urls, webClient, parsers).halt;
      match Fetch(webClient(urls[0]), parsers)
      case Some(tokens) =>
        var m' := CountTokens(m, bank, tokens);
        CounterAbortsAt(m', bank, rest, webClient, parsers);
        assert halt == CounterTally(m', bank, rest, webClient, parsers).halt;
        if halt.AbortedAt? {
          var i :| 0 <= i < |rest| && rest[i] == halt.url
              && (forall j :: 0 <= j < i ==> Fetch(webClient(rest[j]), parsers).Some?)
              && Fetch(webClient(rest[i]), parsers).None?;
          assert forall j :: 0 < j < |urls| ==> urls[j] == rest[j - 1];
          assert urls[i + 1] == rest[i];
        }
      case None =>
        assert urls[0] == halt.url;
    }
  }

  /** This counter never stalls: it drains the queue, or aborts at the first throttled or failed article. */
  lemma CounterAbortsAtFirstError(m: Counts, bank: set<string>, urls: seq<string>,
                                  webClient: string -> Response, parsers: Parsers)
    ensures var halt := CounterTally(m, bank, urls, webClient, parsers).halt;
      && !halt.StalledAt?
      && (halt.Drained? <==> forall i :: 0 <= i < |urls| ==> Fetch(webClient(urls[i]), parsers).Some?)
      && (halt.AbortedAt? ==>
            exists i :: 0 <= i < |urls| && urls[i] == halt.url
              && (forall j :: 0 <= j < i ==> Fetch(webClient(urls[j]), parsers).Some?)
              && (webClient(urls[i]).TransportError? || Throttled(webClient(urls[i]), parsers)))
  {
    CounterDrainsIff(m, bank, urls, webClient, parsers);
    CounterAbortsAt(m, bank, urls, webClient, parsers);
  }

  /**
   * When no article is throttled, the two counters agree: the service's
   * first request for each URL is all it needs, and it ends the way this
   * counter does with the same map.
   */
  lemma {:induction false} CountersAgreeWithoutThrottling(m: Counts, bank: set<string>, urls: seq<string>,
                                                          counterClient: string -> Response,
                                                          serviceClient: string -> seq<Response>, parsers: Parsers)
    requires forall i :: 0 <= i < |urls| ==>
      serviceClient(urls[i]) != [] && serviceClient(urls[i])[0] == counterClient(urls[i])
    requires forall i :: 0 <= i < |urls| ==> !Throttled(counterClient(urls[i]), parsers)
    ensures CounterTally(m, bank, urls, counterClient, parsers) == ServiceTally(m, bank, urls, serviceClient, parsers)
    decreases |urls|
  {
    if urls != [] {
      var rest := urls[1..];
      assert forall i :: 0 <= i < |rest| ==> rest[i] == urls[i + 1];
      match Fetch(counterClient(urls[0]), parsers)
      case Some(tokens) =>
        CountersAgreeWithoutThrottling(CountTokens(m, bank, tokens), bank, rest, counterClient, serviceClient, parsers);
      case None =>
    }
  }

  /**
   * A throttled article stops this counter, while the service, given `k`
   * throttled responses and then a readable page for the same URL, retries
   * `k` times and counts that page.
   */
  lemma ThrottledArticleDiffers(m: Counts, bank: set<string>, url: string, k: nat,
                                counterClient: string -> Response,
                                serviceClient: string -> seq<Response>, parsers: Parsers, tokens: seq<string>)
    requires 1 <= k <= MaxRetries && k < |serviceClient(url)|
    requires serviceClient(url)[0] == counterClient(url)
    requires forall i :: 0 <= i < k ==> Throttled(serviceClient(url)[i], parsers)
    requires serviceClient(url)[k].Body? && ProcessHtml(serviceClient(url)[k].html, parsers) == Extract.Words(tokens)
    ensures CounterTally(m, bank, [url], counterClient, parsers) == Tally(m, AbortedAt(url))
    ensures ServiceTally(m, bank, [url], serviceClient, parsers) == Tally(CountTokens(m, bank, tokens), Drained)
  {
    assert Throttled(serviceClient(url)[0], parsers);
    RetriesThenSuccess(serviceClient(url), parsers, 0, k, tokens);
  }

  /**
   * What is left of the queue when the run aborts: as for the service,
   * `getBatch(50)` has taken whole batches up to and including the one that
   * holds the failing URL, and every URL after that batch is still queued.
   */
  ghost predicate CounterLeftAfterHalt(m: Counts, bank: set<string>, queued: seq<string>, left: seq<string>,
                                       webClient: string -> Response, parsers: Parsers)
  {
    exists k :: 0 < k <= |queued| && (k % BatchSize == 0 || k == |queued|)
      && left == queued[k..]
      && CounterTally(m, bank, queued[..k], webClient, parsers) == CounterTally(m, bank, queued, webClient, parsers)
      && CounterTally(m, bank, queued[..(k - 1) / BatchSize * BatchSize], webClient, parsers).halt.Drained?
  }

  /**
   * One batch of the loop over the queue `q0`: after the URLs `done` drained
   * from `m0` to `m`, the next batch takes the run to `Tally(m', halt)`; when
   * it aborts, the whole run has aborted in it and only `rest` is left.
   */
  lemma CounterBatchStep(m0: Counts, bank: set<string>, q0: seq<string>, done: seq<string>, batch: seq<string>,
                         rest: seq<string>, m: Counts, m': Counts, halt: Halt,
                         webClient: string -> Response, parsers: Parsers)
    requires q0 == done + (batch + rest) && |done| % BatchSize == 0
    requires batch != [] && |batch| == Min(BatchSize, |batch + rest|)
    requires CounterTally(m0, bank, done, webClient, parsers) == Tally(m, Drained)
    requires CounterTally(m, bank, batch, webClient, parsers) == Tally(m', halt)
    ensures q0 == (done + batch) + rest && (|done + batch| % BatchSize == 0 || rest == [])
    ensures CounterTally(m0, bank, done + batch, webClient, parsers) == Tally(m', halt)
    ensures !halt.Drained? ==>
      CounterTally(m0, bank, q0, webClient, parsers) == Tally(m', halt)
      && CounterLeftAfterHalt(m0, bank, q0, rest, webClient, parsers)
  {
    QueueSplit(q0, |done|, batch, rest);
    assert q0[..|done|] == done && q0[|done|..] == batch + rest;
    CounterTallyOfBatches(m0, bank, done, batch, webClient, parsers);
    if !halt.Drained? {
      CounterTallyOfBatches(m0, bank, done + batch, rest, webClient, parsers);
    }
  }

  class WordsCounter {
    const articlesCache: ArticlesCache
    const wordBankCache: WordBankCache
    /** The response the web client gets for a URL. */
    const webClient: string -> Response
    var wordCountMap: Counts

    constructor(articlesCache: ArticlesCache, wordBankCache: WordBankCache, webClient: string -> Response)
      ensures this.articlesCache == articlesCache && this.wordBankCache == wordBankCache
      ensures this.webClient == webClient
      ensures wordCountMap == map[]
    {
      this.articlesCache := articlesCache;
      this.wordBankCache := wordBankCache;
      this.webClient := webClient;
      wordCountMap := map[];
    }

    /** The `filter(wordBankCache::isValid)` and `doOnNext(compute …)` stages over one article's tokens. */
    method CountWords(tokens: seq<string>)
      modifies this
      ensures wordCountMap == CountTokens(old(wordCountMap), wordBankCache.wordBank, tokens)
    {
      var i := 0;
      while i < |tokens|
        invariant 0 <= i <= |tokens|
        invariant CountTokens(wordCountMap, wordBankCache.wordBank, tokens[i..])
               == CountTokens(old(wordCountMap), wordBankCache.wordBank, tokens)
      {
        assert tokens[i..][0] == tokens[i] && tokens[i..][1..] == tokens[i + 1..];
        if wordBankCache.IsValid(tokens[i]) {
          wordCountMap := Increment(wordCountMap, tokens[i]);
        }
        i := i + 1;
      }
    }

    /** `printTop10Words`: the map's ten most frequent words, highest count first. */
    method TopWords() returns (top: seq<Entry>)
      ensures IsTopWords(top, wordCountMap)
    {
      var entries := EntriesOf(wordCountMap);
      top := Top10(entries);
      TopOfEntries(entries, wordCountMap);
    }

    /**
     * The `Flux.fromIterable(batch)` pipeline up to `blockLast()`: every
     * article of the batch fetched once and counted, until one fails.
     */
    method CountBatch(batch: seq<string>, parsers: Parsers) returns (halt: Halt)
      modifies this
      ensures var tally := CounterTally(old(wordCountMap), wordBankCache.wordBank, batch, webClient, parsers);
        wordCountMap == tally.counts && halt == tally.halt
    {
      ghost var goal := CounterTally(wordCountMap, wordBankCache.wordBank, batch, webClient, parsers);
      var j := 0;
      while j < |batch|
        invariant 0 <= j <= |batch|
        invariant CounterTally(wordCountMap, wordBankCache.wordBank, batch[j..], webClient, parsers) == goal
      {
        assert batch[j..][0] == batch[j] && batch[j..][1..] == batch[j + 1..];
        var tokens := Fetch(webClient(batch[j]), parsers);
        if tokens.None? {
          return AbortedAt(batch[j]);
        }
        CountWords(tokens.value);
        j := j + 1;
      }
      halt := Drained;
    }

    /**
     * `countTop10Words`: batches of fifty until the queue is empty, then the
     * report; the first throttled page or failed request ends the run.
     */
    method CountTop10Words(parsers: Parsers) returns (run: Run)
      requires articlesCache.Valid()
      modifies this, articlesCache
      ensures var tally := CounterTally(old(wordCountMap), wordBankCache.wordBank, old(articlesCache.articles), webClient, parsers);
        && wordCountMap == tally.counts
        && (tally.halt.Drained? ==> run.Reported? && IsTopWords(run.top, wordCountMap) && articlesCache.articles == [])
        && (tally.halt.AbortedAt? ==> run == Aborted(tally.halt.url))
        && (!tally.halt.Drained? ==>
              CounterLeftAfterHalt(old(wordCountMap), wordBankCache.wordBank, old(articlesCache.articles), articlesCache.articles, webClient, parsers))
    {
      ghost var m0 := wordCountMap;
      ghost var q0 := articlesCache.articles;
      ghost var bank := wordBankCache.wordBank;
      ghost var done: seq<string> := [];
      while articlesCache.GetSize() > 0
        invariant articlesCache.Valid()
        invariant q0 == done + articlesCache.articles && (|done| % BatchSize == 0 || articlesCache.articles == [])
        invariant CounterTally(m0, bank, done, webClient, parsers) == Tally(wordCountMap, Drained)
        decreases |articlesCache.articles|
      {
        ghost var m := wordCountMap;
        var batch := articlesCache.GetBatch(BatchSize);
        var halt := CountBatch(batch, parsers);
        CounterBatchStep(m0, bank, q0, done, batch, articlesCache.articles, m, wordCountMap, halt, webClient, parsers);
        if !halt.Drained? {
          return Aborted(halt.url);
        }
        done := done + batch;
      }
      assert q0 == done;
      var top := TopWords();
      run := Reported(top);
    }
  }
}
