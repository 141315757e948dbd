/**
 * The parts of `java.lang.String` the pipeline relies on, over ASCII:
 * `trim`, `toLowerCase`, `Character.isAlphabetic`, `contains` and
 * `split("\\s+")`.
 */
module JavaText {

  /** The regular-expression class `\s`: space, tab, newline, vertical tab, form feed, carriage return. */
  predicate IsSpace(c: char)
  {
    c == ' ' || c == '\t' || c == '\n' || c == '\r' || c as int == 0x0B || c as int == 0x0C
  }

  predicate NoSpace(s: string)
  {
    forall i :: 0 <= i < |s| ==> !IsSpace(s[i])
  }

  predicate AllSpace(s: string)
  {
    forall i :: 0 <= i < |s| ==> IsSpace(s[i])
  }

  /** `String.trim` removes every leading and trailing character at or below U+0020. */
  predicate IsTrimmable(c: char)
  {
    c <= ' '
  }

  predicate IsUpper(c: char)
  {
    'A' <= c <= 'Z'
  }

  /** `Character.isAlphabetic`, restricted to ASCII letters. */
  predicate IsAlphabetic(c: char)
  {
    'a' <= c <= 'z' || 'A' <= c <= 'Z'
  }

  function LowerChar(c: char): char
  {
    if IsUpper(c) then (c as int + 32) as char else c
  }

  function TrimStart(s: string): string
  {
    if s != [] && IsTrimmable(s[0]) then TrimStart(s[1..]) else s
  }

  function TrimEnd(s: string): string
  {
    if s != [] && IsTrimmable(s[|s| - 1]) then TrimEnd(s[..|s| - 1]) else s
  }

  /** `TrimStart` drops a prefix of characters at or below U+0020 and stops at the first other character. */
  lemma {:induction false} TrimStartShape(s: string)
    ensures |TrimStart(s)| <= |s| && TrimStart(s) == s[|s| - |TrimStart(s)|..]
    ensures TrimStart(s) == [] || !IsTrimmable(TrimStart(s)[0])
    ensures forall i :: 0 <= i < |s| - |TrimStart(s)| ==> IsTrimmable(s[i])
    decreases |s|
  {
    if s != [] && IsTrimmable(s[0]) {
      TrimStartShape(s[1..]);
    }
  }

  /** `TrimEnd` drops a suffix of characters at or below U+0020 and stops at the last other character. */
  lemma {:induction false} TrimEndShape(s: string)
    ensures |TrimEnd(s)| <= |s| && TrimEnd(s) == s[..|TrimEnd(s)|]
    ensures TrimEnd(s) == [] || !IsTrimmable(TrimEnd(s)[|TrimEnd(s)| - 1])
    ensures forall i :: |TrimEnd(s)| <= i < |s| ==> IsTrimmable(s[i])
    decreases |s|
  {
    if s != [] && IsTrimmable(s[|s| - 1]) {
      TrimEndShape(s[..|s| - 1]);
    }
  }

  /** `trim` leaves nothing to trim at either end. */
  lemma TrimShape(s: string)
    ensures Trim(s) == [] || (!IsTrimmable(Trim(s)[0]) && !IsTrimmable(Trim(s)[|Trim(s)| - 1]))
  {
    var t := TrimStart(s);
    TrimStartShape(s);
    TrimEndShape(t);
    var r := TrimEnd(t);
    if r != [] {
      assert r[0] == t[0];
    }
  }

  /** `String.trim`. */
  function Trim(s: string): string
  {
    TrimEnd(TrimStart(s))
  }

  /** `String.toLowerCase`, restricted to ASCII letters. */
  function ToLower(s: string): (r: string)
    ensures |r| == |s|
  {
    if s == [] then [] else [LowerChar(s[0])] + ToLower(s[1..])
  }

  lemma {:induction false} ToLowerAt(s: string, i: nat)
    requires i < |s|
    ensures ToLower(s)[i] == LowerChar(s[i])
    decreases |s|
  {
    if i > 0 {
      ToLowerAt(s[1..], i - 1);
    }
  }

  /** No upper-case letter anywhere in `s`. */
  predicate NoUpper(s: string)
  {
    s == [] || (!IsUpper(s[0]) && NoUpper(s[1..]))
  }

  lemma {:induction false} NoUpperAt(s: string, i: nat)
    requires NoUpper(s) && i < |s|
    ensures !IsUpper(s[i])
    decreases i
  {
    if i > 0 {
      NoUpperAt(s[1..], i - 1);
    }
  }

  lemma {:induction false} ToLowerHasNoUpper(s: string)
    ensures NoUpper(ToLower(s))
    decreases |s|
  {
    if s != [] {
      ToLowerHasNoUpper(s[1..]);
      assert ToLower(s)[1..] == ToLower(s[1..]);
    }
  }

  lemma {:induction false} ToLowerOfLower(s: string)
    requires NoUpper(s)
    ensures ToLower(s) == s
    decreases |s|
  {
    if s != [] {
      ToLowerOfLower(s[1..]);
    }
  }

  /** A line as both loaders store it: `line.trim().toLowerCase()`. */
  function Normalize(line: string): string
  {
    ToLower(Trim(line))
  }

  /** Nothing left to trim at either end, and no upper-case letter. */
  predicate IsNormalized(s: string)
  {
    (s == [] || (!IsTrimmable(s[0]) && !IsTrimmable(s[|s| - 1]))) && NoUpper(s)
  }

  lemma TrimOfTrimmed(s: string)
    requires s == [] || (!IsTrimmable(s[0]) && !IsTrimmable(s[|s| - 1]))
    ensures Trim(s) == s
  {
  }

  /** Normalizing gives a normalized string, and a normalized string is its own normal form. */
  lemma NormalizeIsNormalized(line: string)
    ensures IsNormalized(Normalize(line))
    ensures IsNormalized(line) ==> Normalize(line) == line
  {
    var t := Trim(line);
    TrimShape(line);
    ToLowerHasNoUpper(t);
    if t != [] {
      ToLowerAt(t, 0);
      ToLowerAt(t, |t| - 1);
    }
    if IsNormalized(line) {
      TrimOfTrimmed(line);
      ToLowerOfLower(line);
    }
  }

  /** `String.contains`. */
  predicate Contains(s: string, part: string)
  {
    (|part| <= |s| && s[..|part|] == part) || (s != [] && Contains(s[1..], part))
  }

  /** The characters of `s` that are not whitespace, in order. */
  function NonSpace(s: string): string
  {
    if s == [] then [] else (if IsSpace(s[0]) then [] else [s[0]]) + NonSpace(s[1..])
  }

  function Concat(ts: seq<string>): string
  {
    if ts == [] then [] else ts[0] + Concat(ts[1..])
  }

  /** Length of the longest prefix without whitespace. */
  function WordLength(s: string): (k: nat)
    ensures k <= |s| && NoSpace(s[..k])
    ensures k < |s| ==> IsSpace(s[k])
  {
    if s == [] || IsSpace(s[0]) then 0 else 1 + WordLength(s[1..])
  }

  /** Length of the longest prefix made of whitespace. */
  function SpaceLength(s: string): (k: nat)
    ensures k <= |s| && AllSpace(s[..k])
    ensures k < |s| ==> !IsSpace(s[k])
  {
    if s == [] || !IsSpace(s[0]) then 0 else 1 + SpaceLength(s[1..])
  }

  /**
   * The pieces of `s` between maximal runs of whitespace, empty pieces kept:
   * one more piece than there are runs.
   */
  function Fields(s: string): (r: seq<string>)
    ensures |r| >= 1
    ensures forall i :: 0 <= i < |r| ==> NoSpace(r[i])
    ensures r[0] == [] <==> s == [] || IsSpace(s[0])
    ensures forall i :: 1 <= i < |r| - 1 ==> r[i] != []
    decreases |s|
  {
    var k := WordLength(s);
    if k == |s| then [s]
    else
      var rest := s[k..];
      var j := SpaceLength(rest);
      [s[..k]] + Fields(rest[j..])
  }

  function StripTrailingEmpty(r: seq<string>): (q: seq<string>)
    ensures |q| <= |r| && q == r[..|q|]
    ensures q == [] || q[|q| - 1] != []
    ensures forall i :: |q| <= i < |r| ==> r[i] == []
  {
    if r != [] && r[|r| - 1] == [] then StripTrailingEmpty(r[..|r| - 1]) else r
  }

  /**
   * `s.split("\\s+")`: with no whitespace at all the string itself (so `""`
   * gives `[""]`); otherwise the fields between whitespace runs with the
   * trailing empty ones removed, so leading whitespace leaves an empty first
   * token.
   */
  function SplitOnWhitespace(s: string): (r: seq<string>)
    ensures forall i :: 0 <= i < |r| ==> NoSpace(r[i])
    ensures forall i :: 1 <= i < |r| ==> r[i] != []
    ensures s != [] && r != [] ==> r[|r| - 1] != []
  {
    if WordLength(s) == |s| then [s] else StripTrailingEmpty(Fields(s))
  }

  lemma {:induction false} NonSpaceAppend(a: string, b: string)
    ensures NonSpace(a + b) == NonSpace(a) + NonSpace(b)
    decreases |a|
  {
    if a == [] {
      assert a + b == b;
    } else {
      assert (a + b)[0] == a[0] && (a + b)[1..] == a[1..] + b;
      NonSpaceAppend(a[1..], b);
    }
  }

  lemma {:induction false} NonSpaceOfWord(s: string)
    requires NoSpace(s)
    ensures NonSpace(s) == s
    decreases |s|
  {
    if s != [] {
      NonSpaceOfWord(s[1..]);
    }
  }

  lemma {:induction false} NonSpaceOfBlank(s: string)
    requires AllSpace(s)
    ensures NonSpace(s) == []
    decreases |s|
  {
    if s != [] {
      NonSpaceOfBlank(s[1..]);
    }
  }

  lemma {:induction false} ConcatAppend(a: seq<string>, b: seq<string>)
    ensures Concat(a + b) == Concat(a) + Concat(b)
    decreases |a|
  {
    if a == [] {
      assert a + b == b;
    } else {
      assert (a + b)[0] == a[0] && (a + b)[1..] == a[1..] + b;
      ConcatAppend(a[1..], b);
    }
  }

  /** Splitting loses only whitespace: the tokens, glued back together, are the text without its whitespace, in order. */
  lemma NonSpaceOfWordThenBlank(word: string, blank: string, tail: string)
    requires NoSpace(word) && AllSpace(blank)
    ensures NonSpace(word + (blank + tail)) == word + NonSpace(tail)
  {
    calc {
      NonSpace(word + (blank + tail));
    == { NonSpaceAppend(word, blank + tail); }
      NonSpace(word) + NonSpace(blank + tail);
    == { NonSpaceOfWord(word); NonSpaceAppend(blank, tail); }
      word + (NonSpace(blank) + NonSpace(tail));
    == { NonSpaceOfBlank(blank); assert [] + NonSpace(tail) == NonSpace(tail); }
      word + NonSpace(tail);
    }
  }

  lemma {:induction false} FieldsKeepText(s: string)
    ensures Concat(Fields(s)) == NonSpace(s)
    decreases |s|
  {
    var k := WordLength(s);
    if k == |s| {
      assert s[..k] == s;
      NonSpaceOfWord(s);
      assert Concat([s]) == s + Concat([]);
    } else {
      var word, rest := s[..k], s[k..];
      var j := SpaceLength(rest);
      var blank, tail := rest[..j], rest[j..];
      calc {
        Concat(Fields(s));
      == { var fs := Fields(tail);
           assert Fields(s) == [word] + fs;
           assert ([word] + fs)[0] == word && ([word] + fs)[1..] == fs; }
        word + Concat(Fields(tail));
      == { FieldsKeepText(tail); }
        word + NonSpace(tail);
      == { NonSpaceOfWordThenBlank(word, blank, tail); }
        NonSpace(word + (blank + tail));
      == { assert s == word + (blank + tail); }
        NonSpace(s);
      }
    }
  }

  lemma {:induction false} StripKeepsText(r: seq<string>)
    ensures Concat(StripTrailingEmpty(r)) == Concat(r)
  {
    var q := StripTrailingEmpty(r);
    assert r == q + r[|q|..];
    ConcatAppend(q, r[|q|..]);
    ConcatOfEmpties(r[|q|..]);
  }

  lemma {:induction false} ConcatOfEmpties(r: seq<string>)
    requires forall i :: 0 <= i < |r| ==> r[i] == []
    ensures Concat(r) == []
    decreases |r|
  {
    if r != [] {
      ConcatOfEmpties(r[1..]);
    }
  }

  /** The tokens of `split("\\s+")`, glued back together, are the non-whitespace characters of the text, in order. */
  lemma SplitKeepsText(s: string)
    ensures Concat(SplitOnWhitespace(s)) == NonSpace(s)
  {
    if WordLength(s) == |s| {
      assert s[..|s|] == s;
      NonSpaceOfWord(s);
      assert Concat([s]) == s + Concat([]);
    } else {
      FieldsKeepText(s);
      StripKeepsText(Fields(s));
    }
  }

  lemma {:induction false} ConcatCoversParts(r: seq<string>, i: nat)
    requires i < |r|
    ensures |r[i]| <= |Concat(r)|
    decreases i
  {
    if i > 0 {
      ConcatCoversParts(r[1..], i - 1);
    }
  }

  /** Only whitespace: `""` splits into `[""]`, any other blank text into no token at all. */
  lemma SplitOfBlank(s: string)
    requires AllSpace(s)
    ensures s == [] ==> SplitOnWhitespace(s) == [""]
    ensures s != [] ==> SplitOnWhitespace(s) == []
  {
    if s != [] {
      var f := Fields(s);
      FieldsKeepText(s);
      NonSpaceOfBlank(s);
      forall i | 0 <= i < |f|
        ensures f[i] == []
      {
        ConcatCoversParts(f, i);
      }
    }
  }

  /**
   * Text holding at least one word splits into at least one token, and the
   * first token is empty exactly when the text starts with whitespace.
   */
  lemma SplitFirstToken(s: string)
    requires NonSpace(s) != []
    ensures SplitOnWhitespace(s) != []
    ensures SplitOnWhitespace(s)[0] == [] <==> IsSpace(s[0])
  {
    if WordLength(s) < |s| {
      var f := Fields(s);
      FieldsKeepText(s);
      if forall i :: 0 <= i < |f| ==> f[i] == [] {
        ConcatOfEmpties(f);
        assert false;
      }
      var m :| 0 <= m < |f| && f[m] != [];
      var q := StripTrailingEmpty(f);
      assert m < |q|;
    }
  }

  predicate IsWord(w: string)
  {
    w != [] && NoSpace(w)
  }

  lemma {:induction false} WordLengthOfWordThen(word: string, rest: string)
    requires NoSpace(word)
    requires rest == [] || IsSpace(rest[0])
    ensures WordLength(word + rest) == |word|
    decreases |word|
  {
    if word == [] {
      assert word + rest == rest;
    } else {
      assert (word + rest)[0] == word[0] && (word + rest)[1..] == word[1..] + rest;
      WordLengthOfWordThen(word[1..], rest);
    }
  }

  /**
   * Words separated by the given runs and followed by `trail`:
   * `ws[0] + seps[0] + ws[1] + … + seps[n - 1] + ws[n] + trail`.
   */
  function Layout(ws: seq<string>, seps: seq<string>, trail: string): string
    requires ws != [] && |seps| == |ws| - 1
    decreases |ws|
  {
    if |ws| == 1 then ws[0] + trail else ws[0] + seps[0] + Layout(ws[1..], seps[1..], trail)
  }

  /** A separator between two words: a non-empty run of whitespace. */
  predicate IsGap(sep: string)
  {
    sep != [] && AllSpace(sep)
  }

  /** All of `ws` are words. */
  predicate AllWords(ws: seq<string>)
  {
    forall i :: 0 <= i < |ws| ==> IsWord(ws[i])
  }

  /** All of `seps` are gaps. */
  predicate AllGaps(seps: seq<string>)
  {
    forall i :: 0 <= i < |seps| ==> IsGap(seps[i])
  }

  lemma {:induction false} LayoutStartsWithWord(ws: seq<string>, seps: seq<string>, trail: string)
    requires ws != [] && |seps| == |ws| - 1 && IsWord(ws[0])
    ensures Layout(ws, seps, trail) != [] && Layout(ws, seps, trail)[0] == ws[0][0]
  {
  }

  lemma {:induction false} SpaceLengthOfBlankThen(blank: string, rest: string)
    requires AllSpace(blank)
    requires rest == [] || !IsSpace(rest[0])
    ensures SpaceLength(blank + rest) == |blank|
    decreases |blank|
  {
    if blank == [] {
      assert blank + rest == rest;
    } else {
      assert (blank + rest)[0] == blank[0] && (blank + rest)[1..] == blank[1..] + rest;
      SpaceLengthOfBlankThen(blank[1..], rest);
    }
  }

  /** Dropping trailing empty tokens after a non-empty last token leaves exactly the tokens up to it. */
  lemma StripAfterWord(r: seq<string>, extra: seq<string>)
    requires r != [] && r[|r| - 1] != []
    requires extra == [] || extra == [[]]
    ensures StripTrailingEmpty(r + extra) == r
  {
    if extra == [[]] {
      assert (r + extra)[..|r|] == r;
    } else {
      assert r + extra == r;
    }
  }

  /** A word, a gap and text whose fields are `rest`, starting with a word: the word, then `rest`. */
  lemma FieldsOfWordThenGap(word: string, sep: string, t: string, rest: seq<string>)
    requires IsWord(word) && IsGap(sep)
    requires t != [] && !IsSpace(t[0])
    requires Fields(t) == rest
    ensures Fields(word + sep + t) == [word] + rest
  {
    var s := word + sep + t;
    var tail := sep + t;
    assert s == word + tail;
    assert tail[0] == sep[0];
    WordLengthOfWordThen(word, tail);
    assert s[..|word|] == word && s[|word|..] == tail;
    SpaceLengthOfBlankThen(sep, t);
    assert tail[|sep|..] == t;
  }

  /** A word and a whitespace tail: the word, and one empty field more when the tail is not empty. */
  lemma FieldsOfWordThenBlank(word: string, trail: string)
    requires IsWord(word) && AllSpace(trail)
    ensures Fields(word + trail) == [word] + (if trail == [] then [] else [[]])
  {
    var s := word + trail;
    WordLengthOfWordThen(word, trail);
    if trail == [] {
      assert s == word;
    } else {
      assert s[..|word|] == word && s[|word|..] == trail + [];
      SpaceLengthOfBlankThen(trail, []);
      assert trail[|trail|..] == [];
      assert Fields([]) == [[]];
    }
  }

  /** Whitespace before text that starts with a word: an empty first field. */
  lemma FieldsOfBlankThen(lead: string, body: string)
    requires IsGap(lead)
    requires body != [] && !IsSpace(body[0])
    ensures Fields(lead + body) == [[]] + Fields(body)
  {
    var s := lead + body;
    assert s[0] == lead[0];
    SpaceLengthOfBlankThen(lead, body);
    assert s[..0] == [] && s[0..] == s && s[|lead|..] == body;
  }

  lemma ConsOfTail(ws: seq<string>, extra: seq<string>)
    requires ws != []
    ensures [ws[0]] + (ws[1..] + extra) == ws + extra
  {
    assert ws == [ws[0]] + ws[1..];
  }

  /** Peeling the first word and gap off a layout of two or more words whose remainder has fields `ws[1..] + extra`. */
  lemma LayoutStep(ws: seq<string>, seps: seq<string>, trail: string, extra: seq<string>)
    requires |ws| >= 2 && |seps| == |ws| - 1
    requires IsWord(ws[0]) && IsWord(ws[1]) && IsGap(seps[0])
    requires Fields(Layout(ws[1..], seps[1..], trail)) == ws[1..] + extra
    ensures Fields(Layout(ws, seps, trail)) == ws + extra
  {
    LayoutStartsWithWord(ws[1..], seps[1..], trail);
    ConsOfTail(ws, extra);
    FieldsOfWordThenGap(ws[0], seps[0], Layout(ws[1..], seps[1..], trail), ws[1..] + extra);
  }

  /**
   * The fields of words laid out with the given separators and then a
   * whitespace tail: the words, and one empty field more when the tail is
   * not empty.
   */
  lemma {:induction false} FieldsOfLayout(ws: seq<string>, seps: seq<string>, trail: string)
    requires ws != [] && |seps| == |ws| - 1 && AllWords(ws) && AllGaps(seps)
    requires AllSpace(trail)
    ensures Fields(Layout(ws, seps, trail)) == ws + (if trail == [] then [] else [[]])
    decreases |ws|
  {
    assert IsWord(ws[0]);
    if |ws| == 1 {
      FieldsOfWordThenBlank(ws[0], trail);
    } else {
      assert IsWord(ws[1]) && IsGap(seps[0]);
      assert AllWords(ws[1..]) && AllGaps(seps[1..]);
      FieldsOfLayout(ws[1..], seps[1..], trail);
      LayoutStep(ws, seps, trail, if trail == [] then [] else [[]]);
    }
  }

  /** Whitespace in front of a layout whose fields are `ws + extra`: one empty field more, in front. */
  lemma FieldsOfLeadAndLayout(lead: string, ws: seq<string>, seps: seq<string>, trail: string, extra: seq<string>)
    requires IsGap(lead)
    requires ws != [] && |seps| == |ws| - 1 && IsWord(ws[0])
    requires Fields(Layout(ws, seps, trail)) == ws + extra
    ensures Fields(lead + Layout(ws, seps, trail)) == [[]] + ws + extra
  {
    var body := Layout(ws, seps, trail);
    LayoutStartsWithWord(ws, seps, trail);
    FieldsOfBlankThen(lead, body);
    assert [[]] + (ws + extra) == [[]] + ws + extra;
  }

  /**
   * Splitting words laid out with any whitespace (leading, trailing, and a
   * non-empty run between neighbours) gives the words back, behind one empty
   * token when the text starts with whitespace.
   */
  lemma {:induction false} SplitOfSpaced(lead: string, ws: seq<string>, seps: seq<string>, trail: string)
    requires AllSpace(lead) && AllSpace(trail)
    requires ws != [] && |seps| == |ws| - 1 && AllWords(ws) && AllGaps(seps)
    ensures SplitOnWhitespace(lead + Layout(ws, seps, trail)) == (if lead == [] then [] else [[]]) + ws
  {
    var s := lead + Layout(ws, seps, trail);
    var front: seq<string> := (if lead == [] then [] else [[]]) + ws;
    var extra: seq<string> := if trail == [] then [] else [[]];
    FieldsOfLayout(ws, seps, trail);
    assert IsWord(ws[0]) && IsWord(ws[|ws| - 1]);
    if lead == [] {
      assert s == Layout(ws, seps, trail) && front == ws;
    } else {
      FieldsOfLeadAndLayout(lead, ws, seps, trail, extra);
    }
    assert Fields(s) == front + extra;
    if WordLength(s) < |s| {
      assert front[|front| - 1] == ws[|ws| - 1];
      StripAfterWord(front, extra);
    }
  }
}
