/**
 * Fetching one article in `WordsCounterService`: each request is answered by
 * a body, possibly empty, or fails in transport; a throttled
 * body is fetched again, and every tenth retry logs a warning.
 */
module Retry {
  import opened Wrappers
  import opened Extract

  /** `Retry.backoff(Long.MAX_VALUE, …)`: the number of retries allowed. */
  const MaxRetries: nat := 0x7FFF_FFFF_FFFF_FFFF

  /** A warning is logged before every retry whose ordinal is a multiple of this. */
  const WarnEvery: nat := 10

  /** What one request brings back. */
  datatype Response =
    | Body(html: Option<string>)  // `bodyToMono(String.class)`: None when no body was decoded
    | TransportError              // the request itself failed

  /** How fetching an article ended, and after how many retries. */
  datatype UrlOutcome =
    | Resolved(tokens: seq<string>, retries: nat)  // a body that was not throttled
    | Unresolved(retries: nat)   // every response seen was throttled, and no more came
    | Exhausted(retries: nat)    // still throttled after the last allowed retry
    | Failed(retries: nat)       // a transport error, which is not retried

  predicate Throttled(response: Response, parsers: Parsers)
  {
    response.Body? && ProcessHtml(response.html, parsers).RateLimited?
  }

  /**
   * `retryWhen(getRetrySpec(url))` around one request, given the responses of
   * the successive requests and the retries made so far: only the rate-limit
   * signal is retried, and only while fewer than `MaxRetries` retries were made.
   */
  function Resolve(responses: seq<Response>, parsers: Parsers, retries: nat): UrlOutcome
    decreases |responses|
  {
    if responses == [] then Unresolved(retries)
    else
      match responses[0]
      case TransportError => Failed(retries)
      case Body(html) =>
        match ProcessHtml(html, parsers)
        case Words(tokens) => Resolved(tokens, retries)
        case RateLimited =>
          if retries >= MaxRetries then Exhausted(retries)
          else Resolve(responses[1..], parsers, retries + 1)
  }

  /** The ordinals of the retries up to the `n`-th that log a warning, in order. */
  function WarningsUpTo(n: nat): seq<nat>
  {
    if n == 0 then [] else WarningsUpTo(n - 1) + (if n % WarnEvery == 0 then [n] else [])
  }

  /** A retry logs a warning exactly when its ordinal is a multiple of ten. */
  lemma {:induction false} WarningsUpToMembers(n: nat, j: int)
    ensures j in WarningsUpTo(n) <==> 1 <= j <= n && j % WarnEvery == 0
  {
    if n > 0 {
      WarningsUpToMembers(n - 1, j);
    }
  }

  /** One warning per ten retries. */
  lemma {:induction false} WarningsUpToCount(n: nat)
    ensures |WarningsUpTo(n)| == n / WarnEvery
  {
    if n > 0 {
      WarningsUpToCount(n - 1);
    }
  }

  /**
   * Every outcome is decided by the responses in order: the retries counted
   * are the throttled responses before the deciding one, tokens come from the
   * first response that is not throttled, the cap ends only a run of
   * throttled responses as long as the cap, and the supply runs out only
   * when every response was throttled.
   */
  lemma {:induction false} ResolveDecidedBy(responses: seq<Response>, parsers: Parsers, retries: nat)
    requires retries <= MaxRetries
    ensures var outcome := Resolve(responses, parsers, retries);
      var n := outcome.retries - retries;
      && retries <= outcome.retries <= MaxRetries
      && (forall i :: 0 <= i < n ==> i < |responses| && Throttled(responses[i], parsers))
      && (outcome.Unresolved? <==> n == |responses|)
      && (outcome.Resolved? ==>
            n < |responses| && responses[n].Body? && ProcessHtml(responses[n].html, parsers) == Extract.Words(outcome.tokens))
      && (outcome.Failed? ==> n < |responses| && responses[n] == TransportError)
      && (outcome.Exhausted? ==> outcome.retries == MaxRetries && n < |responses| && Throttled(responses[n], parsers))
    decreases |responses|
  {
    if responses != [] && Throttled(responses[0], parsers) && retries < MaxRetries {
      ResolveDecidedBy(responses[1..], parsers, retries + 1);
      var outcome := Resolve(responses, parsers, retries);
      var n := outcome.retries - retries;
      forall i | 0 <= i < n ensures i < |responses| && Throttled(responses[i], parsers) {
        if i > 0 {
          assert responses[1..][i - 1] == responses[i];
        }
      }
      if outcome.Resolved? || outcome.Failed? || outcome.Exhausted? {
        assert responses[1..][n - 1] == responses[n];
      }
    }
  }

  /** `k` throttled responses and then a readable page: the page's tokens, after `k` retries. */
  lemma {:induction false} RetriesThenSuccess(responses: seq<Response>, parsers: Parsers, retries: nat, k: nat, tokens: seq<string>)
    requires retries + k <= MaxRetries
    requires k < |responses|
    requires forall i :: 0 <= i < k ==> Throttled(responses[i], parsers)
    requires responses[k].Body? && ProcessHtml(responses[k].html, parsers) == Extract.Words(tokens)
    ensures Resolve(responses, parsers, retries) == Resolved(tokens, retries + k)
    decreases k
  {
    if k > 0 {
      RetriesThenSuccess(responses[1..], parsers, retries + 1, k - 1, tokens);
    }
  }
}
