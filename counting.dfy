/**
 * The word-frequency map and what the counting loop does to it: each token
 * the bank accepts adds one to its own count.
 */
module Counting {

  type Counts = map<string, nat>

  /** A word's count, zero when absent. */
  function Get(m: Counts, w: string): nat
  {
    if w in m then m[w] else 0
  }

  /** `compute(word, (k, v) -> v == null ? 1 : v + 1)`. */
  function Increment(m: Counts, w: string): (r: Counts)
    ensures r.Keys == m.Keys + {w}
    ensures Get(r, w) == Get(m, w) + 1
    ensures forall k :: k != w ==> Get(r, k) == Get(m, k)
  {
    m[w := if w in m then m[w] + 1 else 1]
  }

  /** The tokens, filtered by the bank, each recorded in turn. */
  function CountTokens(m: Counts, bank: set<string>, tokens: seq<string>): Counts
    decreases |tokens|
  {
    if tokens == [] then m
    else CountTokens(if tokens[0] in bank then Increment(m, tokens[0]) else m, bank, tokens[1..])
  }

  function Occurrences(w: string, tokens: seq<string>): nat
  {
    if tokens == [] then 0 else (if tokens[0] == w then 1 else 0) + Occurrences(w, tokens[1..])
  }

  /** After counting, each word's count has grown by its occurrences if the bank holds it, and not at all otherwise. */
  lemma {:induction false} CountTokensAt(m: Counts, bank: set<string>, tokens: seq<string>, w: string)
    ensures Get(CountTokens(m, bank, tokens), w) == Get(m, w) + (if w in bank then Occurrences(w, tokens) else 0)
    decreases |tokens|
  {
    if tokens != [] {
      var m' := if tokens[0] in bank then Increment(m, tokens[0]) else m;
      CountTokensAt(m', bank, tokens[1..], w);
    }
  }

  /** Counting adds exactly the bank's words that occur among the tokens as keys. */
  lemma {:induction false} CountTokensKeys(m: Counts, bank: set<string>, tokens: seq<string>)
    ensures CountTokens(m, bank, tokens).Keys == m.Keys + (bank * set t | t in tokens)
    decreases |tokens|
  {
    if tokens != [] {
      var m' := if tokens[0] in bank then Increment(m, tokens[0]) else m;
      CountTokensKeys(m', bank, tokens[1..]);
      assert (set t | t in tokens) == {tokens[0]} + (set t | t in tokens[1..]) by {
        assert tokens == [tokens[0]] + tokens[1..];
      }
    }
  }

  lemma {:induction false} OccurrencesIsMultiplicity(w: string, tokens: seq<string>)
    ensures Occurrences(w, tokens) == multiset(tokens)[w]
    decreases |tokens|
  {
    if tokens != [] {
      OccurrencesIsMultiplicity(w, tokens[1..]);
      assert tokens == [tokens[0]] + tokens[1..];
    }
  }

  /** Increments commute: any reordering of the tokens gives the same map. */
  lemma CountTokensPermutation(m: Counts, bank: set<string>, a: seq<string>, b: seq<string>)
    requires multiset(a) == multiset(b)
    ensures CountTokens(m, bank, a) == CountTokens(m, bank, b)
  {
    var ca, cb := CountTokens(m, bank, a), CountTokens(m, bank, b);
    CountTokensKeys(m, bank, a);
    CountTokensKeys(m, bank, b);
    assert (set t | t in a) == (set t | t in b) by {
      forall x ensures x in a <==> x in b {
        assert x in a <==> x in multiset(a);
        assert x in b <==> x in multiset(b);
      }
    }
    forall w | w in ca.Keys
      ensures ca[w] == cb[w]
    {
      CountTokensAt(m, bank, a, w);
      CountTokensAt(m, bank, b, w);
      OccurrencesIsMultiplicity(w, a);
      OccurrencesIsMultiplicity(w, b);
    }
  }

  /** Counting two token runs one after the other is counting their concatenation. */
  lemma {:induction false} CountTokensAppend(m: Counts, bank: set<string>, a: seq<string>, b: seq<string>)
    ensures CountTokens(m, bank, a + b) == CountTokens(CountTokens(m, bank, a), bank, b)
    decreases |a|
  {
    if a == [] {
      assert a + b == b;
    } else {
      assert (a + b)[0] == a[0] && (a + b)[1..] == a[1..] + b;
      CountTokensAppend(if a[0] in bank then Increment(m, a[0]) else m, bank, a[1..], b);
    }
  }

  /** Tokens the bank rejects change nothing. */
  lemma {:induction false} RejectedTokensIgnored(m: Counts, bank: set<string>, tokens: seq<string>)
    requires forall i :: 0 <= i < |tokens| ==> tokens[i] !in bank
    ensures CountTokens(m, bank, tokens) == m
    decreases |tokens|
  {
    if tokens != [] {
      RejectedTokensIgnored(m, bank, tokens[1..]);
    }
  }

  /** How a run of the counting loop ended. */
  datatype Halt =
    | Drained              // the queue ran dry and the top words were reported
    | StalledAt(url: string)  // the URL was still rate-limited when its attempts ran out
    | AbortedAt(url: string)  // an uncaught error for the URL ended the run

  datatype Tally = Tally(counts: Counts, halt: Halt)
}
