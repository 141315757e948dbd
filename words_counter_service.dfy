/**
 * `WordsCounterService`: drains the article queue fifty URLs at a time,
 * fetches each article (retrying while it is throttled), counts the tokens
 * the word bank accepts, and reports the ten most frequent words.
 */
module Service {
  import opened Wrappers
  import opened Extract
  import opened Counting
  import opened Ranking
  import opened Retry
  import opened Articles
  import opened Bank

  /** `getBatch(50)`. */
  const BatchSize: nat := 50

  /** How `countTop10Words` ends. */
  datatype Run =
    | Reported(top: seq<Entry>)  // `printTopWords` ran
    | Stalled(url: string)       // the URL stayed throttled for as long as it was fetched
    | Aborted(url: string)       // an error escaped `blockLast` for the URL

  /**
   * The counting loop over the queued URLs in order: a resolved article adds
   * its tokens; the first article that does not resolve ends the run.
   * `RetryExhaustedException` is not an `Error999Exception`, so
   * `onErrorResume` lets it through, and so does a transport error.
   */
  function ServiceTally(m: Counts, bank: set<string>, urls: seq<string>,
                        webClient: string -> seq<Response>, parsers: Parsers): Tally
    decreases |urls|
  {
    if urls == [] then Tally(m, Drained)
    else
      match Resolve(webClient(urls[0]), parsers, 0)
      case Resolved(tokens, _) => ServiceTally(CountTokens(m, bank, tokens), bank, urls[1..], webClient, parsers)
      case Unresolved(_) => Tally(m, StalledAt(urls[0]))
      case Exhausted(_) => Tally(m, AbortedAt(urls[0]))
      case Failed(_) => Tally(m, AbortedAt(urls[0]))
  }

  /** One step of the counting loop, whatever the article's outcome. */
  lemma TallyStep(m: Counts, bank: set<string>, urls: seq<string>,
                  webClient: string -> seq<Response>, parsers: Parsers)
    requires urls != []
    ensures var outcome := Resolve(webClient(urls[0]), parsers, 0);
      ServiceTally(m, bank, urls, webClient, parsers)
        == if outcome.Resolved? then ServiceTally(CountTokens(m, bank, outcome.tokens), bank, urls[1..], webClient, parsers)
           else Tally(m, if outcome.Unresolved? then StalledAt(urls[0]) else AbortedAt(urls[0]))
  {
  }

  /** Counting the queue a batch at a time is counting it in one pass: the rest is counted only if the batch drains. */
  lemma {:induction false} TallyOfBatches(m: Counts, bank: set<string>, batch: seq<string>, rest: seq<string>,
                                          webClient: string -> seq<Response>, parsers: Parsers)
    ensures var first := ServiceTally(m, bank, batch, webClient, parsers);
      ServiceTally(m, bank, batch + rest, webClient, parsers)
        == if first.halt.Drained? then ServiceTally(first.counts, bank, rest, webClient, parsers) else first
    decreases |batch|
  {
    if batch == [] {
      assert batch + rest == rest;
    } else {
      assert (batch + rest)[0] == batch[0] && (batch + rest)[1..] == batch[1..] + rest;
      match Resolve(webClient(batch[0]), parsers, 0)
      case Resolved(tokens, _) =>
        TallyOfBatches(CountTokens(m, bank, tokens), bank, batch[1..], rest, webClient, parsers);
      case _ =>
    }
  }

  /** The tokens of the articles that resolve before the first that does not. */
  function TokensBeforeHalt(urls: seq<string>, webClient: string -> seq<Response>, parsers: Parsers): seq<string>
    decreases |urls|
  {
    if urls == [] then []
    else
      match Resolve(webClient(urls[0]), parsers, 0)
      case Resolved(tokens, _) => tokens + TokensBeforeHalt(urls[1..], webClient, parsers)
      case _ => []
  }

  /** The map a run leaves is the start map with every token fetched before the halt counted. */
  lemma {:induction false} TallyCountsTokens(m: Counts, bank: set<string>, urls: seq<string>,
                                             webClient: string -> seq<Response>, parsers: Parsers)
    ensures ServiceTally(m, bank, urls, webClient, parsers).counts
         == CountTokens(m, bank, TokensBeforeHalt(urls, webClient, parsers))
    decreases |urls|
  {
    if urls != [] {
      match Resolve(webClient(urls[0]), parsers, 0)
      case Resolved(tokens, _) =>
        TallyCountsTokens(CountTokens(m, bank, tokens), bank, urls[1..], webClient, parsers);
        CountTokensAppend(m, bank, tokens, TokensBeforeHalt(urls[1..], webClient, parsers));
      case _ =>
    }
  }

  /** Each word's final count: its start count plus its occurrences among the fetched tokens, if the bank holds it. */
  lemma TallyCountsOccurrences(m: Counts, bank: set<string>, urls: seq<string>,
                               webClient: string -> seq<Response>, parsers: Parsers, w: string)
    ensures Get(ServiceTally(m, bank, urls, webClient, parsers).counts, w)
         == Get(m, w) + (if w in bank then Occurrences(w, TokensBeforeHalt(urls, webClient, parsers)) else 0)
  {
    TallyCountsTokens(m, bank, urls, webClient, parsers);
    CountTokensAt(m, bank, TokensBeforeHalt(urls, webClient, parsers), w);
  }

  /**
   * `flatMap` merges the articles' tokens in whatever order they arrive: any
   * arrival order that is a rearrangement of the fetched tokens leaves the
   * same map.
   */
  lemma AnyArrivalOrderCountsTheSame(m: Counts, bank: set<string>, urls: seq<string>,
                                     webClient: string -> seq<Response>, parsers: Parsers, arrival: seq<string>)
    requires multiset(arrival) == multiset(TokensBeforeHalt(urls, webClient, parsers))
    ensures CountTokens(m, bank, arrival) == ServiceTally(m, bank, urls, webClient, parsers).counts
  {
    TallyCountsTokens(m, bank, urls, webClient, parsers);
    CountTokensPermutation(m, bank, arrival, TokensBeforeHalt(urls, webClient, parsers));
  }

  /**
   * The run drains the queue exactly when every article resolves; otherwise
   * it halts at the first article that does not, stalling when that
   * article's responses ran out while throttled and aborting otherwise.
   */
  lemma {:induction false} TallyHaltsAtFirstUnresolved(m: Counts, bank: set<string>, urls: seq<string>,
                                                       webClient: string -> seq<Response>, parsers: Parsers)
    ensures var halt := ServiceTally(m, bank, urls, webClient, parsers).halt;
      && (halt.Drained? <==> forall i :: 0 <= i < |urls| ==> Resolve(webClient(urls[i]), parsers, 0).Resolved?)
      && (!halt.Drained? ==>
            exists i :: 0 <= i < |urls| && urls[i] == halt.url
              && (forall j :: 0 <= j < i ==> Resolve(webClient(urls[j]), parsers, 0).Resolved?)
              && !Resolve(webClient(urls[i]), parsers, 0).Resolved?
              && (halt.StalledAt? <==> Resolve(webClient(urls[i]), parsers, 0).Unresolved?))
    decreases |urls|
  {
    if urls != [] {
      var rest := urls[1..];
      var halt := ServiceTally(m, bank, urls, webClient, parsers).halt;
      match Resolve(webClient(urls[0]), parsers, 0)
      case Resolved(tokens, _) =>
        var m' := CountTokens(m, bank, tokens);
        TallyHaltsAtFirstUnresolved(m', bank, rest, webClient, parsers);
        assert halt == ServiceTally(m', bank, rest, webClient, parsers).halt;
        assert forall i :: 0 < i < |urls| ==> urls[i] == rest[i - 1];
        if !halt.Drained? {
          var i :| 0 <= i < |rest| && rest[i] == halt.url
              && (forall j :: 0 <= j < i ==> Resolve(webClient(rest[j]), parsers, 0).Resolved?)
              && !Resolve(webClient(rest[i]), parsers, 0).Resolved?
              && (halt.StalledAt? <==> Resolve(webClient(rest[i]), parsers, 0).Unresolved?);
          assert urls[i + 1] == rest[i];
        }
      case _ =>
        assert urls[0] == halt.url;
    }
  }

  /** A batch that starts on a multiple of the batch size and holds `n` URLs starts where its last URL's batch starts. */
  lemma BatchStart(consumed: nat, n: nat)
    requires consumed % BatchSize == 0 && 0 < n <= BatchSize
    ensures (consumed + n - 1) / BatchSize * BatchSize == consumed
  {
    var q := consumed / BatchSize;
    assert consumed == q * BatchSize;
    assert consumed + n - 1 == q * BatchSize + (n - 1);
  }

  /**
   * What is left of the queue when a run halts: `getBatch(50)` has taken
   * whole batches up to and including the one that holds the halting URL,
   * and every URL after that batch is still queued. `k` is the end of that
   * batch: counting the first `k` URLs halts as counting all of them does,
   * and counting the URLs before the batch drains.
   */
  ghost predicate LeftAfterHalt(m: Counts, bank: set<string>, queued: seq<string>, left: seq<string>,
                                webClient: string -> seq<Response>, parsers: Parsers)
  {
    exists k :: 0 < k <= |queued| && (k % BatchSize == 0 || k == |queued|)
      && left == queued[k..]
      && ServiceTally(m, bank, queued[..k], webClient, parsers) == ServiceTally(m, bank, queued, webClient, parsers)
      && ServiceTally(m, bank, queued[..(k - 1) / BatchSize * BatchSize], webClient, parsers).halt.Drained?
  }

  /** Where a batch taken at `consumed` sits in the queue `q0`. */
  lemma QueueSplit(q0: seq<string>, consumed: nat, batch: seq<string>, rest: seq<string>)
    requires consumed < |q0| && consumed % BatchSize == 0
    requires batch + rest == q0[consumed..] && |batch| == Min(BatchSize, |q0| - consumed)
    ensures var k := consumed + |batch|;
      && 0 < k <= |q0| && (k % BatchSize == 0 || k == |q0|) && (k - 1) / BatchSize * BatchSize == consumed
      && rest == q0[k..] && q0[..consumed] + batch == q0[..k] && q0 == q0[..k] + rest
  {
    var k := consumed + |batch|;
    assert q0[consumed..] == q0[consumed..k] + q0[k..];
    assert batch == q0[consumed..k];
    assert q0[..consumed] + q0[consumed..k] == q0[..k];
    assert q0 == q0[..k] + q0[k..];
    BatchStart(consumed, |batch|);
  }

  /**
   * One batch of the loop over the queue `q0`: after the URLs `done` drained
   * from `m0` to `m`, the next batch takes the run to `Tally(m', halt)`; the
   * URLs counted so far end on a multiple of the batch size or the queue is
   * empty, and when the batch halts, the whole run has halted in it and only
   * `rest` is left.
   */
  lemma BatchStep(m0: Counts, bank: set<string>, q0: seq<string>, done: seq<string>, batch: seq<string>,
                  rest: seq<string>, m: Counts, m': Counts, halt: Halt,
                  webClient: string -> seq<Response>, parsers: Parsers)
    requires q0 == done + (batch + rest) && |done| % BatchSize == 0
    requires batch != [] && |batch| == Min(BatchSize, |batch + rest|)
    requires ServiceTally(m0, bank, done, webClient, parsers) == Tally(m, Drained)
    requires ServiceTally(m, bank, batch, webClient, parsers) == Tally(m', halt)
    ensures q0 == (done + batch) + rest && (|done + batch| % BatchSize == 0 || rest == [])
    ensures ServiceTally(m0, bank, done + batch, webClient, parsers) == Tally(m', halt)
    ensures !halt.Drained? ==>
      ServiceTally(m0, bank, q0, webClient, parsers) == Tally(m', halt)
      && LeftAfterHalt(m0, bank, q0, rest, webClient, parsers)
  {
    QueueSplit(q0, |done|, batch, rest);
    assert q0[..|done|] == done && q0[|done|..] == batch + rest;
    TallyOfBatches(m0, bank, done, batch, webClient, parsers);
    if !halt.Drained? {
      TallyOfBatches(m0, bank, done + batch, rest, webClient, parsers);
    }
  }

  class WordsCounterService {
    const articlesCache: ArticlesCache
    const wordBankCache: WordBankCache
    /** The responses the web client gets for a URL, request after request. */
    const webClient: string -> seq<Response>
    var wordCountMap: Counts

    constructor(articlesCache: ArticlesCache, wordBankCache: WordBankCache, webClient: string -> seq<Response>)
      ensures this.articlesCache == articlesCache && this.wordBankCache == wordBankCache
      ensures this.webClient == webClient
      ensures wordCountMap == map[]
    {
      this.articlesCache := articlesCache;
      this.wordBankCache := wordBankCache;
      this.webClient := webClient;
      wordCountMap := map[];
    }

    /**
     * `extractWords`: requests the article until a response is not throttled
     * or the retries allowed are used up, logging a warning before every
     * tenth retry.
     */
    method ExtractWords(articleUrl: string, parsers: Parsers) returns (outcome: UrlOutcome, warnings: seq<nat>)
      ensures outcome == Resolve(webClient(articleUrl), parsers, 0)
      ensures warnings == WarningsUpTo(outcome.retries)
    {
      var responses := webClient(articleUrl);
      var retries: nat := 0;
      warnings := [];
      while retries < |responses|
        invariant retries <= |responses| && retries <= MaxRetries
        invariant Resolve(responses, parsers, 0) == Resolve(responses[retries..], parsers, retries)
        invariant warnings == WarningsUpTo(retries)
      {
        assert responses[retries..][0] == responses[retries];
        assert responses[retries..][1..] == responses[retries + 1..];
        match responses[retries]
        case TransportError =>
          return Failed(retries), warnings;
        case Body(html) =>
          var extraction := ProcessHtml(html, parsers);
          if extraction.Words? {
            return Resolved(extraction.tokens, retries), warnings;
          }
          if retries >= MaxRetries {
            return Exhausted(retries), warnings;
          }
          if (retries + 1) % WarnEvery == 0 {
            warnings := warnings + [retries + 1];
          }
          retries := retries + 1;
      }
      outcome := Unresolved(retries);
    }

    /** The `filter(wordBankCache::isValid)` and `doOnNext(compute …)` stages over one article's tokens. */
    method CountWords(tokens: seq<string>)
      modifies this
      ensures wordCountMap == CountTokens(old(wordCountMap), wordBankCache.wordBank, tokens)
    {
      var i := 0;
      while i < |tokens|
        invariant 0 <= i <= |tokens|
        invariant CountTokens(wordCountMap, wordBankCache.wordBank, tokens[i..])
               == CountTokens(old(wordCountMap), wordBankCache.wordBank, tokens)
      {
        assert tokens[i..][0] == tokens[i] && tokens[i..][1..] == tokens[i + 1..];
        if wordBankCache.IsValid(tokens[i]) {
          wordCountMap := Increment(wordCountMap, tokens[i]);
        }
        i := i + 1;
      }
    }

    /** `printTopWords`: the map's ten most frequent words, highest count first. */
    method TopWords() returns (top: seq<Entry>)
      ensures IsTopWords(top, wordCountMap)
    {
      var entries := EntriesOf(wordCountMap);
      top := Top10(entries);
      TopOfEntries(entries, wordCountMap);
    }

    /**
     * The `Flux.fromIterable(batch)` pipeline up to `blockLast()`: every
     * article of the batch fetched and counted, until one does not resolve.
     */
    method CountBatch(batch: seq<string>, parsers: Parsers) returns (halt: Halt)
      modifies this
      ensures var tally := ServiceTally(old(wordCountMap), wordBankCache.wordBank, batch, webClient, parsers);
        wordCountMap == tally.counts && halt == tally.halt
    {
      ghost var goal := ServiceTally(wordCountMap, wordBankCache.wordBank, batch, webClient, parsers);
      var j := 0;
      while j < |batch|
        invariant 0 <= j <= |batch|
        invariant ServiceTally(wordCountMap, wordBankCache.wordBank, batch[j..], webClient, parsers) == goal
      {
        TallyStep(wordCountMap, wordBankCache.wordBank, batch[j..], webClient, parsers);
        assert batch[j..][0] == batch[j] && batch[j..][1..] == batch[j + 1..];
        var outcome, warnings := ExtractWords(batch[j], parsers);
        match outcome {
          case Resolved(tokens, _) =>
            CountWords(tokens);
          case Unresolved(_) =>
            return StalledAt(batch[j]);
          case Exhausted(_) =>
            return AbortedAt(batch[j]);
          case Failed(_) =>
            return AbortedAt(batch[j]);
        }
        j := j + 1;
      }
      halt := Drained;
    }

    /**
     * `countTop10Words`: batches of fifty until the queue is empty, then the
     * report; the run ends early at the first article that stays throttled
     * or fails.
     */
    method CountTop10Words(parsers: Parsers) returns (run: Run)
      requires articlesCache.Valid()
      modifies this, articlesCache
      ensures var tally := ServiceTally(old(wordCountMap), wordBankCache.wordBank, old(articlesCache.articles), webClient, parsers);
        && wordCountMap == tally.counts
        && (tally.halt.Drained? ==> run.Reported? && IsTopWords(run.top, wordCountMap) && articlesCache.articles == [])
        && (tally.halt.StalledAt? ==> run == Stalled(tally.halt.url))
        && (tally.halt.AbortedAt? ==> run == Aborted(tally.halt.url))
        && (!tally.halt.Drained? ==>
              LeftAfterHalt(old(wordCountMap), wordBankCache.wordBank, old(articlesCache.articles), articlesCache.articles, webClient, parsers))
    {
      ghost var m0 := wordCountMap;
      ghost var q0 := articlesCache.articles;
      ghost var bank := wordBankCache.wordBank;
      ghost var done: seq<string> := [];
      while articlesCache.GetSize() > 0
        invariant articlesCache.Valid()
        invariant q0 == done + articlesCache.articles && (|done| % BatchSize == 0 || articlesCache.articles == [])
        invariant ServiceTally(m0, bank, done, webClient, parsers) == Tally(wordCountMap, Drained)
        decreases |articlesCache.articles|
      {
        ghost var m := wordCountMap;
        var batch := articlesCache.GetBatch(BatchSize);
        var halt := CountBatch(batch, parsers);
        BatchStep(m0, bank, q0, done, batch, articlesCache.articles, m, wordCountMap, halt, webClient, parsers);
        if !halt.Drained? {
          return if halt.StalledAt? then Stalled(halt.url) else Aborted(halt.url);
        }
        done := done + batch;
      }
      assert q0 == done;
      var top := TopWords();
      run := Reported(top);
    }
  }
}
