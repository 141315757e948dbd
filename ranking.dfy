/**
 * The report: the map's entries sorted by count, highest first, and the
 * first ten of them.
 */
module Ranking {
  import opened Wrappers
  import opened Counting

  const TopLimit: nat := 10

  type Entry = (string, nat)

  predicate Descending(s: seq<Entry>)
  {
    forall i, j :: 0 <= i < j < |s| ==> s[i].1 >= s[j].1
  }

  function KeysOf(s: seq<Entry>): set<string>
  {
    set i | 0 <= i < |s| :: s[i].0
  }

  predicate DistinctKeys(s: seq<Entry>)
  {
    forall i, j :: 0 <= i < j < |s| ==> s[i].0 != s[j].0
  }

  lemma KeysOfCons(x: Entry, s: seq<Entry>)
    ensures KeysOf([x] + s) == {x.0} + KeysOf(s)
  {
    var xs := [x] + s;
    forall k | k in KeysOf(xs) ensures k in {x.0} + KeysOf(s) {
      var i :| 0 <= i < |xs| && xs[i].0 == k;
      if i > 0 {
        assert s[i - 1].0 == k;
      }
    }
    forall k | k in KeysOf(s) ensures k in KeysOf(xs) {
      var i :| 0 <= i < |s| && s[i].0 == k;
      assert xs[i + 1].0 == k;
    }
    assert xs[0].0 == x.0;
  }

  /** Places `e` before the first entry whose count does not exceed its own. */
  function Insert(e: Entry, s: seq<Entry>): seq<Entry>
  {
    if s == [] || s[0].1 <= e.1 then [e] + s
    else [s[0]] + Insert(e, s[1..])
  }

  lemma {:induction false} InsertPermutes(e: Entry, s: seq<Entry>)
    ensures |Insert(e, s)| == |s| + 1
    ensures multiset(Insert(e, s)) == multiset(s) + multiset{e}
  {
    if s != [] && s[0].1 > e.1 {
      InsertPermutes(e, s[1..]);
      assert s == [s[0]] + s[1..];
    }
  }

  lemma {:induction false} InsertSorted(e: Entry, s: seq<Entry>)
    requires Descending(s)
    ensures Descending(Insert(e, s))
  {
    if s != [] && s[0].1 > e.1 {
      var r' := Insert(e, s[1..]);
      InsertSorted(e, s[1..]);
      InsertPermutes(e, s[1..]);
      assert s == [s[0]] + s[1..];
      forall j | 0 <= j < |r'| ensures r'[j].1 <= s[0].1 {
        assert r'[j] in multiset(r');
        if r'[j] != e {
          assert r'[j] in multiset(s[1..]);
          var i :| 0 <= i < |s[1..]| && s[1..][i] == r'[j];
          assert s[i + 1] == r'[j];
        }
      }
      var r := [s[0]] + r';
      forall i, j | 0 <= i < j < |r| ensures r[i].1 >= r[j].1 {
        assert r[j] == r'[j - 1];
        if i > 0 {
          assert r[i] == r'[i - 1];
        }
      }
    }
  }

  lemma {:induction false} InsertKeys(e: Entry, s: seq<Entry>)
    ensures KeysOf(Insert(e, s)) == KeysOf(s) + {e.0}
    ensures DistinctKeys(s) && e.0 !in KeysOf(s) ==> DistinctKeys(Insert(e, s))
  {
    if s == [] || s[0].1 <= e.1 {
      KeysOfCons(e, s);
    } else {
      var r' := Insert(e, s[1..]);
      InsertKeys(e, s[1..]);
      assert s == [s[0]] + s[1..];
      KeysOfCons(s[0], s[1..]);
      KeysOfCons(s[0], r');
    }
  }

  /** `sorted(comparingByValue().reversed())`: by count, highest first. */
  function SortByCount(s: seq<Entry>): seq<Entry>
  {
    if s == [] then [] else Insert(s[0], SortByCount(s[1..]))
  }

  /** The sort is a permutation of its input into descending count order. */
  lemma {:induction false} SortSorted(s: seq<Entry>)
    ensures Descending(SortByCount(s))
    ensures |SortByCount(s)| == |s|
    ensures multiset(SortByCount(s)) == multiset(s)
  {
    if s != [] {
      SortSorted(s[1..]);
      InsertSorted(s[0], SortByCount(s[1..]));
      InsertPermutes(s[0], SortByCount(s[1..]));
      assert s == [s[0]] + s[1..];
    }
  }

  /** The sort keeps the set of words, and a stream listing each word once stays so. */
  lemma {:induction false} SortKeys(s: seq<Entry>)
    ensures KeysOf(SortByCount(s)) == KeysOf(s)
    ensures DistinctKeys(s) ==> DistinctKeys(SortByCount(s))
  {
    if s != [] {
      SortKeys(s[1..]);
      InsertKeys(s[0], SortByCount(s[1..]));
      assert s == [s[0]] + s[1..];
      KeysOfCons(s[0], s[1..]);
    }
  }

  /** `limit(10)` after the sort. */
  function Top10(entries: seq<Entry>): seq<Entry>
  {
    var sorted := SortByCount(entries);
    sorted[..Min(TopLimit, |sorted|)]
  }

  /** At most ten entries, highest count first, drawn from the input, no word twice when the input has none twice. */
  lemma Top10Shape(entries: seq<Entry>)
    ensures |Top10(entries)| == Min(TopLimit, |entries|)
    ensures Descending(Top10(entries))
    ensures multiset(Top10(entries)) <= multiset(entries)
    ensures DistinctKeys(entries) ==> DistinctKeys(Top10(entries))
  {
    var sorted := SortByCount(entries);
    SortSorted(entries);
    SortKeys(entries);
    var k := Min(TopLimit, |sorted|);
    assert sorted == sorted[..k] + sorted[k..];
    assert multiset(sorted) == multiset(sorted[..k]) + multiset(sorted[k..]);
  }

  /** In a descending sequence, nothing dropped after the first `k` counts more than anything kept. */
  lemma DescendingTail(sorted: seq<Entry>, k: nat)
    requires Descending(sorted) && k <= |sorted|
    ensures forall e :: e in multiset(sorted) - multiset(sorted[..k]) ==>
      forall i :: 0 <= i < k ==> e.1 <= sorted[..k][i].1
  {
    assert sorted == sorted[..k] + sorted[k..];
    assert multiset(sorted) - multiset(sorted[..k]) == multiset(sorted[k..]) by {
      assert multiset(sorted) == multiset(sorted[..k]) + multiset(sorted[k..]);
    }
    forall e | e in multiset(sorted[k..])
      ensures forall i :: 0 <= i < k ==> e.1 <= sorted[..k][i].1
    {
      assert e in sorted[k..];
      var j :| 0 <= j < |sorted| - k && sorted[k..][j] == e;
      forall i | 0 <= i < k
        ensures e.1 <= sorted[..k][i].1
      {
        assert sorted[..k][i] == sorted[i] && sorted[k + j] == e;
      }
    }
  }

  /** Every entry the report leaves out counts no more than any entry it keeps. */
  lemma Top10Bound(entries: seq<Entry>)
    ensures forall e :: e in multiset(entries) - multiset(Top10(entries)) ==>
      forall i :: 0 <= i < |Top10(entries)| ==> e.1 <= Top10(entries)[i].1
  {
    var sorted := SortByCount(entries);
    SortSorted(entries);
    DescendingTail(sorted, Min(TopLimit, |sorted|));
  }

  /** The entry stream of a map: each key once, with its count. */
  ghost predicate Enumerates(entries: seq<Entry>, m: Counts)
  {
    && DistinctKeys(entries)
    && KeysOf(entries) == m.Keys
    && forall i :: 0 <= i < |entries| ==> entries[i].0 in m && m[entries[i].0] == entries[i].1
  }

  /** What the report promises about a map: at most ten of its words, with their counts, highest first, and no word left out counts more than a word kept. */
  ghost predicate IsTopWords(top: seq<Entry>, m: Counts)
  {
    && |top| == Min(TopLimit, |m|)
    && Descending(top)
    && DistinctKeys(top)
    && (forall i :: 0 <= i < |top| ==> top[i].0 in m && m[top[i].0] == top[i].1)
    && (forall w :: w in m && w !in KeysOf(top) ==> forall i :: 0 <= i < |top| ==> m[w] <= top[i].1)
  }

  lemma {:induction false} DistinctKeysCount(s: seq<Entry>)
    requires DistinctKeys(s)
    ensures |KeysOf(s)| == |s|
    decreases |s|
  {
    if s != [] {
      var init := s[..|s| - 1];
      DistinctKeysCount(init);
      assert KeysOf(s) == KeysOf(init) + {s[|s| - 1].0} by {
        assert forall i :: 0 <= i < |init| ==> init[i] == s[i];
      }
      assert s[|s| - 1].0 !in KeysOf(init);
    }
  }

  /** An entry kept in the report is an entry of the map. */
  lemma KeptEntriesAreCounts(entries: seq<Entry>, m: Counts)
    requires Enumerates(entries, m)
    ensures var top := Top10(entries);
      forall i :: 0 <= i < |top| ==> top[i].0 in m && m[top[i].0] == top[i].1
  {
    Top10Shape(entries);
    var top := Top10(entries);
    forall i | 0 <= i < |top|
      ensures top[i].0 in m && m[top[i].0] == top[i].1
    {
      assert top[i] in multiset(top);
      assert top[i] in multiset(entries);
      var j :| 0 <= j < |entries| && entries[j] == top[i];
    }
  }

  /** A word of the map that the report leaves out counts no more than any word it keeps. */
  lemma OmittedCountsNoMore(entries: seq<Entry>, m: Counts, w: string)
    requires Enumerates(entries, m)
    requires w in m && w !in KeysOf(Top10(entries))
    ensures forall i :: 0 <= i < |Top10(entries)| ==> m[w] <= Top10(entries)[i].1
  {
    Top10Bound(entries);
    var top := Top10(entries);
    var j :| 0 <= j < |entries| && entries[j].0 == w;
    var e := entries[j];
    assert e in multiset(entries);
    assert e in multiset(entries) - multiset(top);
  }

  /** The first ten entries of the sorted entry stream are the map's top words. */
  lemma TopOfEntries(entries: seq<Entry>, m: Counts)
    requires Enumerates(entries, m)
    ensures IsTopWords(Top10(entries), m)
  {
    Top10Shape(entries);
    DistinctKeysCount(entries);
    assert |m| == |m.Keys|;
    KeptEntriesAreCounts(entries, m);
    forall w | w in m && w !in KeysOf(Top10(entries))
      ensures forall i :: 0 <= i < |Top10(entries)| ==> m[w] <= Top10(entries)[i].1
    {
      OmittedCountsNoMore(entries, m, w);
    }
  }

  /** `entrySet().stream()`: the map's entries in an order the map does not fix. */
  method EntriesOf(m: Counts) returns (entries: seq<Entry>)
    ensures Enumerates(entries, m)
  {
    entries := [];
    var pending := m.Keys;
    while pending != {}
      invariant pending <= m.Keys
      invariant KeysOf(entries) + pending == m.Keys
      invariant KeysOf(entries) !! pending
      invariant DistinctKeys(entries)
      invariant forall i :: 0 <= i < |entries| ==> entries[i].0 in m && m[entries[i].0] == entries[i].1
      decreases pending
    {
      var k :| k in pending;
      assert KeysOf(entries + [(k, m[k])]) == KeysOf(entries) + {k} by {
        var next := entries + [(k, m[k])];
        assert forall i :: 0 <= i < |entries| ==> next[i] == entries[i];
        assert next[|entries|].0 == k;
        forall x | x in KeysOf(next) ensures x in KeysOf(entries) + {k} {
          var i :| 0 <= i < |next| && next[i].0 == x;
          if i < |entries| { assert entries[i].0 == x; }
        }
      }
      entries := entries + [(k, m[k])];
      pending := pending - {k};
    }
  }
}
