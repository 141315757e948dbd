/**
 * The bank test is exact membership: a token is neither trimmed nor
 * lower-cased before it is looked up, so a capitalised word never counts.
 * Worked on the article "the Ocean and the forest and the breeze near forest",
 * single-spaced, against the bank {ocean, forest, breeze}.
 */
module LiteralMatch {
  import opened JavaText
  import opened Counting

  const FixtureBank: set<string> := {"ocean", "forest", "breeze"}
  const Words: seq<string> := ["the", "Ocean", "and", "the", "forest", "and", "the", "breeze", "near", "forest"]
  const Spaces: seq<string> := [" ", " ", " ", " ", " ", " ", " ", " ", " "]

  /** The article text: the words joined by single spaces. */
  function Article(): string
  {
    Layout(Words, Spaces, "")
  }

  lemma WordsAreWords()
    ensures AllWords(Words)
  {
    forall i | 0 <= i < |Words| ensures IsWord(Words[i]) {
      assert NoSpace(Words[i]);
    }
  }

  lemma SpacesAreGaps()
    ensures AllGaps(Spaces) && AllSpace("\n")
  {
    forall i | 0 <= i < |Spaces| ensures IsGap(Spaces[i]) {
      assert Spaces[i] == " ";
    }
  }

  /** Any layout without leading whitespace splits back into its words. */
  lemma SplitOfUnindented(ws: seq<string>, seps: seq<string>, trail: string)
    requires AllSpace(trail)
    requires ws != [] && |seps| == |ws| - 1 && AllWords(ws) && AllGaps(seps)
    ensures SplitOnWhitespace(Layout(ws, seps, trail)) == ws
  {
    SplitOfSpaced([], ws, seps, trail);
    assert [] + Layout(ws, seps, trail) == Layout(ws, seps, trail);
  }

  /** The article splits back into its words. */
  lemma ArticleSplitsIntoWords()
    ensures SplitOnWhitespace(Article()) == Words
  {
    WordsAreWords();
    SpacesAreGaps();
    SplitOfUnindented(Words, Spaces, "");
  }

  /** A trailing string of a layout is appended after its last word. */
  lemma {:induction false} LayoutTrail(ws: seq<string>, seps: seq<string>, trail: string)
    requires ws != [] && |seps| == |ws| - 1
    ensures Layout(ws, seps, trail) == Layout(ws, seps, "") + trail
    decreases |ws|
  {
    if |ws| == 1 {
      assert ws[0] + "" == ws[0];
    } else {
      LayoutTrail(ws[1..], seps[1..], trail);
      assert ws[0] + seps[0] + Layout(ws[1..], seps[1..], "") + trail
          == ws[0] + seps[0] + (Layout(ws[1..], seps[1..], "") + trail);
    }
  }

  /** The same article ending in a newline gives the same words: the trailing empty field is dropped. */
  lemma ArticleLineSplitsIntoWords()
    ensures SplitOnWhitespace(Article() + "\n") == Words
  {
    WordsAreWords();
    SpacesAreGaps();
    SplitOfUnindented(Words, Spaces, "\n");
    LayoutTrail(Words, Spaces, "\n");
  }

  lemma ForestOccursTwice()
    ensures Occurrences("forest", Words) == 2
  {
  }

  lemma BreezeOccursOnce()
    ensures Occurrences("breeze", Words) == 1
  {
  }

  /** The article has "Ocean", never "ocean". */
  lemma OceanNeverOccurs()
    ensures "ocean" !in Words
  {
  }

  /** Any token list with those occurrences gives those counts. */
  lemma CountsOfTokens(tokens: seq<string>)
    requires Occurrences("forest", tokens) == 2 && Occurrences("breeze", tokens) == 1 && "ocean" !in tokens
    ensures var counts := CountTokens(map[], FixtureBank, tokens);
      Get(counts, "forest") == 2 && Get(counts, "breeze") == 1 && "ocean" !in counts
  {
    CountTokensAt(map[], FixtureBank, tokens, "forest");
    CountTokensAt(map[], FixtureBank, tokens, "breeze");
    CountTokensKeys(map[], FixtureBank, tokens);
  }

  /** Counting the article from an empty map: forest 2, breeze 1, and no entry for ocean. */
  lemma CapitalisedWordIsNotCounted()
    ensures var counts := CountTokens(map[], FixtureBank, SplitOnWhitespace(Article()));
      Get(counts, "forest") == 2 && Get(counts, "breeze") == 1 && "ocean" !in counts
  {
    ArticleSplitsIntoWords();
    ForestOccursTwice();
    BreezeOccursOnce();
    OceanNeverOccurs();
    CountsOfTokens(Words);
  }
}
