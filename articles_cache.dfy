/**
 * The FIFO queue of article URLs: filled once from the lines of a file,
 * then drained one URL or one batch at a time.
 */
module Articles {
  import opened Wrappers
  import opened JavaText

  /** The loader stops after this many lines. */
  const MaxArticles: nat := 1000

  /** Every line normalized, in order. */
  function NormalizeAll(lines: seq<string>): (urls: seq<string>)
    ensures |urls| == |lines|
  {
    if lines == [] then [] else NormalizeAll(lines[..|lines| - 1]) + [Normalize(lines[|lines| - 1])]
  }

  /** What the loader queues for a file: its first 1000 lines, trimmed and lower-cased. */
  function LoadedUrls(lines: seq<string>): (urls: seq<string>)
    ensures |urls| == Min(|lines|, MaxArticles)
  {
    NormalizeAll(lines[..Min(|lines|, MaxArticles)])
  }

  lemma {:induction false} NormalizeAllAt(lines: seq<string>, i: nat)
    requires i < |lines|
    ensures NormalizeAll(lines)[i] == Normalize(lines[i])
    decreases |lines|
  {
    var init := lines[..|lines| - 1];
    if i < |init| {
      NormalizeAllAt(init, i);
    }
  }

  /** The loader keeps at most 1000 URLs, each the trimmed, lower-cased line at the same position of the file, so normalized. */
  lemma LoadedUrlsAre(lines: seq<string>)
    ensures |LoadedUrls(lines)| <= MaxArticles
    ensures forall i :: 0 <= i < |LoadedUrls(lines)| ==>
      LoadedUrls(lines)[i] == Normalize(lines[i]) && IsNormalized(LoadedUrls(lines)[i])
  {
    var kept := lines[..Min(|lines|, MaxArticles)];
    forall i | 0 <= i < |kept|
      ensures LoadedUrls(lines)[i] == Normalize(lines[i]) && IsNormalized(LoadedUrls(lines)[i])
    {
      NormalizeAllAt(kept, i);
      NormalizeIsNormalized(lines[i]);
    }
  }

  /** Appending a normalized URL keeps every queued URL normalized. */
  lemma AppendNormalized(urls: seq<string>, url: string)
    requires forall i :: 0 <= i < |urls| ==> IsNormalized(urls[i])
    requires IsNormalized(url)
    ensures forall i :: 0 <= i < |urls| + 1 ==> IsNormalized((urls + [url])[i])
  {
    forall i | 0 <= i < |urls| + 1
      ensures IsNormalized((urls + [url])[i])
    {
      if i < |urls| {
        assert (urls + [url])[i] == urls[i];
      }
    }
  }

  /** Queueing line `count` extends what the first `count` lines queued. */
  lemma LoadStep(queued: seq<string>, before: seq<string>, lines: seq<string>, count: nat)
    requires count < |lines|
    requires queued == before + NormalizeAll(lines[..count])
    ensures queued + [Normalize(lines[count])] == before + NormalizeAll(lines[..count + 1])
  {
    assert lines[..count + 1][..count] == lines[..count];
  }

  class ArticlesCache {
    var articles: seq<string>

    /** Every queued URL is in normal form. */
    ghost predicate Valid()
      reads this
    {
      forall i :: 0 <= i < |articles| ==> IsNormalized(articles[i])
    }

    constructor()
      ensures Valid() && articles == []
    {
      articles := [];
    }

    /** Reading the file is left out: `lines` are its lines. */
    method LoadFromFile(lines: seq<string>)
      requires Valid()
      modifies this
      ensures Valid()
      ensures articles == old(articles) + LoadedUrls(lines)
    {
      var count := 0;
      while count < |lines| && count < MaxArticles
        invariant 0 <= count <= |lines| && count <= MaxArticles
        invariant Valid()
        invariant articles == old(articles) + NormalizeAll(lines[..count])
      {
        var articleUrl := Normalize(lines[count]);
        NormalizeIsNormalized(lines[count]);
        AppendNormalized(articles, articleUrl);
        LoadStep(articles, old(articles), lines, count);
        articles := articles + [articleUrl];
        count := count + 1;
      }
    }

    /** `poll`: the head of the queue, removed, or nothing when the queue is empty. */
    method GetNext() returns (url: Option<string>)
      requires Valid()
      modifies this
      ensures Valid()
      ensures url.None? <==> old(articles) == []
      ensures url.Some? ==> IsNormalized(url.value)
      ensures url.None? ==> articles == old(articles)
      ensures url.Some? ==> [url.value] + articles == old(articles)
    {
      if articles == [] {
        url := None;
      } else {
        url := Some(articles[0]);
        articles := articles[1..];
      }
    }

    /** The first `batchSize` URLs (all of them if fewer, none if `batchSize` is not positive), removed from the queue in FIFO order. */
    method GetBatch(batchSize: int) returns (batch: seq<string>)
      requires Valid()
      modifies this
      ensures Valid()
      ensures |batch| == Min(Max(batchSize, 0), |old(articles)|)
      ensures batch + articles == old(articles)
      ensures forall i :: 0 <= i < |batch| ==> IsNormalized(batch[i])
    {
      batch := [];
      while HasNext() && |batch| < batchSize
        invariant Valid()
        invariant batch + articles == old(articles)
        invariant |batch| <= Max(batchSize, 0)
        invariant forall i :: 0 <= i < |batch| ==> IsNormalized(batch[i])
        decreases |articles|
      {
        var next := GetNext();
        batch := batch + [next.value];
      }
    }

    /** `!articles.isEmpty()`. */
    predicate HasNext()
      reads this
      ensures HasNext() <==> GetSize() > 0
    {
      articles != []
    }

    /** `articles.size()`: the number of queued URLs, zero exactly when the queue is empty. */
    function GetSize(): (n: nat)
      reads this
      ensures n == 0 <==> articles == []
    {
      |articles|
    }
  }
}
