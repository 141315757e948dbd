/**
 * The dictionary of countable words: built once from the lines of a file,
 * then only queried.
 */
module Bank {
  import opened JavaText

  /**
   * `_isValid`: at least three characters, all of them letters. Such a word
   * holds no whitespace and has nothing `trim` would remove at either end.
   */
  predicate IsAdmissible(word: string)
    ensures IsAdmissible(word) ==>
      IsWord(word) && !IsTrimmable(word[0]) && !IsTrimmable(word[|word| - 1])
  {
    |word| >= 3 && forall i :: 0 <= i < |word| ==> IsAlphabetic(word[i])
  }

  /** The words the loader keeps from `lines`. */
  function BankOf(lines: seq<string>): set<string>
  {
    if lines == [] then {}
    else
      var word := Normalize(lines[|lines| - 1]);
      BankOf(lines[..|lines| - 1]) + (if IsAdmissible(word) then {word} else {})
  }

  /** A word is in the bank exactly when some line normalizes to it and it is admissible. */
  lemma {:induction false} BankOfMembers(lines: seq<string>, w: string)
    ensures w in BankOf(lines) <==>
      IsAdmissible(w) && exists i :: 0 <= i < |lines| && Normalize(lines[i]) == w
    decreases |lines|
  {
    if lines != [] {
      var init := lines[..|lines| - 1];
      BankOfMembers(init, w);
      if w in BankOf(init) {
        var i :| 0 <= i < |init| && Normalize(init[i]) == w;
        assert lines[i] == init[i];
      }
      if IsAdmissible(w) && exists i :: 0 <= i < |lines| && Normalize(lines[i]) == w {
        var i :| 0 <= i < |lines| && Normalize(lines[i]) == w;
        if i < |init| {
          assert init[i] == lines[i];
        }
      }
    }
  }

  /** Every stored word is a normalized line of at least three letters, none of them upper case. */
  lemma BankWordsAreLowerLetters(lines: seq<string>, w: string)
    requires w in BankOf(lines)
    ensures |w| >= 3 && IsNormalized(w)
    ensures forall i :: 0 <= i < |w| ==> 'a' <= w[i] <= 'z'
  {
    BankOfMembers(lines, w);
    var i :| 0 <= i < |lines| && Normalize(lines[i]) == w;
    NormalizeIsNormalized(lines[i]);
    forall k | 0 <= k < |w|
      ensures 'a' <= w[k] <= 'z'
    {
      NoUpperAt(w, k);
    }
  }

  /** Membership is literal: a token with an upper-case letter, or shorter than three characters, is never in the bank. */
  lemma NeverInBank(lines: seq<string>, token: string)
    requires |token| < 3 || exists i :: 0 <= i < |token| && IsUpper(token[i])
    ensures token !in BankOf(lines)
  {
    if token in BankOf(lines) {
      BankWordsAreLowerLetters(lines, token);
      assert false;
    }
  }

  /** A repeated line leaves the bank unchanged. */
  lemma DuplicateLine(lines: seq<string>, k: nat)
    requires k < |lines|
    ensures BankOf(lines + [lines[k]]) == BankOf(lines)
  {
    assert (lines + [lines[k]])[..|lines|] == lines;
    BankOfMembers(lines, Normalize(lines[k]));
  }

  class WordBankCache {
    var wordBank: set<string>

    /** Every stored word is admissible and normalized. */
    ghost predicate Valid()
      reads this
    {
      forall w :: w in wordBank ==> IsAdmissible(w) && IsNormalized(w)
    }

    constructor()
      ensures Valid() && wordBank == {}
    {
      wordBank := {};
    }

    /** Reading the file is left out: `lines` are its lines. */
    method LoadFromFile(lines: seq<string>)
      requires Valid()
      modifies this
      ensures Valid()
      ensures wordBank == old(wordBank) + BankOf(lines)
    {
      var i := 0;
      while i < |lines|
        invariant 0 <= i <= |lines|
        invariant Valid()
        invariant wordBank == old(wordBank) + BankOf(lines[..i])
      {
        var word := Normalize(lines[i]);
        if IsAdmissible(word) {
          NormalizeIsNormalized(lines[i]);
          wordBank := wordBank + {word};
        }
        assert lines[..i + 1][..i] == lines[..i];
        i := i + 1;
      }
      assert lines[..i] == lines;
    }

    /** `isValid`: exact membership, with no trimming or case folding of the candidate. */
    predicate IsValid(word: string)
      reads this
      ensures IsValid(word) <==> word in wordBank
      ensures Valid() && IsValid(word) ==> IsAdmissible(word) && IsNormalized(word)
    {
      word in wordBank
    }
  }
}
