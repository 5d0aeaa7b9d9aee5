/**
 * The text normaliser `clean_text` (app.py:52-58): lower-case, replace every
 * character outside `a-z`, `0-9` and whitespace by a space, collapse runs of
 * whitespace, trim, split into tokens and drop the fixed stop words.
 */
module TextClean {
  import opened Wrappers

  /** Python's whitespace class (`str.isspace`, regex `\s` on str): ASCII and Unicode spaces. */
  predicate IsSpace(c: char) {
    || c == ' '
    || ('\U{9}' <= c <= '\U{D}')
    || ('\U{1C}' <= c <= '\U{1F}')
    || c == '\U{85}' || c == '\U{A0}' || c == '\U{1680}'
    || ('\U{2000}' <= c <= '\U{200A}')
    || c == '\U{2028}' || c == '\U{2029}' || c == '\U{202F}' || c == '\U{205F}' || c == '\U{3000}'
  }

  /** The characters the scrub step keeps as they are: `[a-z0-9]`. */
  predicate IsWordChar(c: char) {
    ('a' <= c <= 'z') || ('0' <= c <= '9')
  }

  predicate AllSpace(s: string) {
    forall i :: 0 <= i < |s| ==> IsSpace(s[i])
  }

  /** A token of the output: non-empty and made only of `[a-z0-9]`. */
  predicate IsToken(w: string) {
    w != [] && forall i :: 0 <= i < |w| ==> IsWordChar(w[i])
  }

  /** Lower-case letters, digits and single inner spaces, nothing at either end. */
  predicate Normalized(s: string) {
    && (forall i :: 0 <= i < |s| ==> IsWordChar(s[i]) || s[i] == ' ')
    && (s != [] ==> s[0] != ' ' && s[|s| - 1] != ' ')
    && (forall i :: 0 <= i < |s| - 1 ==> s[i] != ' ' || s[i + 1] != ' ')
  }

  /** The fixed stop words of app.py:57 (55 of them). */
  const StopWords: seq<string> := [
    "a", "an", "the", "and", "or", "is", "are", "was", "were", "in", "on", "at", "to", "for",
    "with", "of", "this", "that", "these", "those", "i", "you", "he", "she", "it", "we", "they",
    "my", "your", "his", "her", "its", "our", "their", "from", "as", "by", "be", "been", "am",
    "will", "can", "do", "does", "did", "have", "has", "had", "not", "but", "if", "then", "so",
    "no", "yes"
  ]

  predicate IsStopWord(w: string) {
    w in StopWords
  }

  /** `str.lower` on one character, restricted to ASCII letters. */
  function LowerChar(c: char): char {
    if 'A' <= c <= 'Z' then (c as int + 32) as char else c
  }

  function Lower(s: string): (r: string)
    ensures |r| == |s| && forall i :: 0 <= i < |s| ==> r[i] == LowerChar(s[i])
  {
    seq(|s|, i requires 0 <= i < |s| => LowerChar(s[i]))
  }

  /** `re.sub(r"[^a-z0-9\s]", " ", t)`: every other character becomes a space. */
  function Scrub(s: string): (r: string)
    ensures |r| == |s|
    ensures forall i :: 0 <= i < |s| ==> IsWordChar(r[i]) || IsSpace(r[i])
    ensures forall i :: 0 <= i < |s| ==> (r[i] == s[i] <==> IsWordChar(s[i]) || IsSpace(s[i]))
    ensures forall i :: 0 <= i < |s| && !IsWordChar(s[i]) && !IsSpace(s[i]) ==> r[i] == ' '
  {
    seq(|s|, i requires 0 <= i < |s| => if IsWordChar(s[i]) || IsSpace(s[i]) then s[i] else ' ')
  }

  /** `re.sub(r"\s+", " ", t)`: each maximal run of whitespace becomes one space. */
  function CollapseSpace(s: string): string
    decreases |s|
  {
    if s == [] then []
    else if IsSpace(s[0]) then
      if |s| > 1 && IsSpace(s[1]) then CollapseSpace(s[1..]) else " " + CollapseSpace(s[1..])
    else [s[0]] + CollapseSpace(s[1..])
  }

  /** `str.lstrip()`: drops the leading whitespace, keeps the rest as it is. */
  function StripStart(s: string): (r: string)
    ensures |r| <= |s| && r == s[|s| - |r|..] && AllSpace(s[..|s| - |r|])
    ensures r != [] ==> !IsSpace(r[0])
    decreases |s|
  {
    if s != [] && IsSpace(s[0]) then
      var r := StripStart(s[1..]);
      SpaceThenSuffix(s, r);
      r
    else s
  }

  /** Dropping one more leading whitespace character keeps the dropped part whitespace. */
  lemma SpaceThenSuffix(s: string, r: string)
    requires s != [] && IsSpace(s[0])
    requires |r| <= |s| - 1 && r == s[1..][|s| - 1 - |r|..] && AllSpace(s[1..][..|s| - 1 - |r|])
    ensures r == s[|s| - |r|..] && AllSpace(s[..|s| - |r|])
  {
    assert s[..|s| - |r|] == [s[0]] + s[1..][..|s| - 1 - |r|];
  }

  /** `str.rstrip()`: drops the trailing whitespace, keeps the rest as it is. */
  function StripEnd(s: string): (r: string)
    ensures |r| <= |s| && r == s[..|r|] && AllSpace(s[|r|..])
    ensures r != [] ==> !IsSpace(r[|r| - 1])
    decreases |s|
  {
    if s != [] && IsSpace(s[|s| - 1]) then
      var r := StripEnd(s[..|s| - 1]);
      PrefixThenSpace(s, r);
      r
    else s
  }

  /** Dropping one more trailing whitespace character keeps the dropped part whitespace. */
  lemma PrefixThenSpace(s: string, r: string)
    requires s != [] && IsSpace(s[|s| - 1])
    requires |r| <= |s| - 1 && r == s[..|s| - 1][..|r|] && AllSpace(s[..|s| - 1][|r|..])
    ensures r == s[..|r|] && AllSpace(s[|r|..])
  {
    assert s[|r|..] == s[..|s| - 1][|r|..] + [s[|s| - 1]];
  }

  /** `str.strip()`: the slice of `s` between its leading and its trailing whitespace. */
  function Strip(s: string): (r: string)
    ensures |r| <= |s|
    ensures r != [] ==> !IsSpace(r[0]) && !IsSpace(r[|r| - 1])
    ensures r == [] <==> AllSpace(s)
  {
    SliceBetweenSpaces(s, StripStart(s), StripEnd(StripStart(s)));
    StripEmpty(s, StripStart(s), StripEnd(StripStart(s)));
    StripEnd(StripStart(s))
  }

  /**
   * `r` is what is left of `s` once the whitespace is cut off both ends: the
   * slice of `s` from `k` on, with only whitespace before and after it.
   */
  predicate IsStripped(s: string, k: nat, r: string) {
    && k + |r| <= |s|
    && r == s[k..k + |r|]
    && AllSpace(s[..k])
    && AllSpace(s[k + |r|..])
  }

  /** `Strip` keeps the slice of `s` that starts where `StripStart` starts. */
  lemma StripIsSlice(s: string)
    ensures IsStripped(s, |s| - |StripStart(s)|, Strip(s))
  {
    SliceBetweenSpaces(s, StripStart(s), StripEnd(StripStart(s)));
  }

  /**
   * A prefix `r` of a suffix `t` of `s`, where only whitespace was cut off on
   * either side, is what is left of `s` once its whitespace is cut off.
   */
  lemma SliceBetweenSpaces(s: string, t: string, r: string)
    requires |t| <= |s| && t == s[|s| - |t|..] && AllSpace(s[..|s| - |t|])
    requires |r| <= |t| && r == t[..|r|] && AllSpace(t[|r|..])
    ensures IsStripped(s, |s| - |t|, r)
    ensures r != [] ==> r[0] == t[0]
  {
    var i := |s| - |t|;
    assert s[i + |r|..] == t[|r|..];
    assert s[i..i + |r|] == r;
  }

  /** Nothing is left exactly when `s` is all whitespace. */
  lemma StripEmpty(s: string, t: string, r: string)
    requires t == StripStart(s) && r == StripEnd(t)
    ensures r == [] <==> AllSpace(s)
  {
    if r == [] {
      StripEndEmpty(t);
      StripStartEmpty(s);
    }
    if AllSpace(s) {
      StripStartAllSpace(s);
    }
  }

  lemma {:induction false} StripStartAllSpace(s: string)
    requires AllSpace(s)
    ensures StripStart(s) == []
    decreases |s|
  {
    if s != [] {
      assert AllSpace(s[1..]) by {
        forall i | 0 <= i < |s| - 1 ensures IsSpace(s[1..][i]) {
          assert s[1..][i] == s[i + 1];
        }
      }
      StripStartAllSpace(s[1..]);
    }
  }

  lemma StripEndEmpty(t: string)
    requires StripEnd(t) == []
    ensures AllSpace(t)
  {
    assert t[0..] == t;
  }

  lemma StripStartEmpty(s: string)
    requires StripStart(s) == []
    ensures AllSpace(s)
  {
    assert s[..|s|] == s;
  }

  function Flush(cur: string): seq<string> {
    if cur == [] then [] else [cur]
  }

  /** `str.split()` with the token being built in `cur`. */
  function SplitAcc(s: string, cur: string): seq<string>
    decreases |s|
  {
    if s == [] then Flush(cur)
    else if IsSpace(s[0]) then Flush(cur) + SplitAcc(s[1..], [])
    else SplitAcc(s[1..], cur + [s[0]])
  }

  /** `str.split()`: the maximal runs of non-whitespace characters, in order. */
  function Split(s: string): seq<string> {
    SplitAcc(s, [])
  }

  /** `" ".join(ws)`. */
  function Join(ws: seq<string>): string
    decreases |ws|
  {
    if ws == [] then "" else if |ws| == 1 then ws[0] else ws[0] + " " + Join(ws[1..])
  }

  /** The generator `w for w in ... if w not in stop_words`. */
  function DropStopWords(ws: seq<string>): (r: seq<string>)
    ensures |r| <= |ws|
    ensures forall w :: w in r <==> w in ws && !IsStopWord(w)
    decreases |ws|
  {
    if ws == [] then []
    else (if IsStopWord(ws[0]) then [] else [ws[0]]) + DropStopWords(ws[1..])
  }

  /**
   * `clean_text(t)`: `None` stands for a missing or NaN input. The result is
   * normalised, its tokens are exactly the non-stop tokens of the scrubbed
   * text in their original order, and none of them is a stop word.
   */
  function CleanText(t: Option<string>): (r: string)
    ensures t.None? ==> r == ""
    ensures Normalized(r)
    ensures t.Some? ==> Split(r) == DropStopWords(Split(Scrub(Lower(t.value))))
    ensures forall w :: w in Split(r) ==> !IsStopWord(w)
  {
    match t
    case None => ""
    case Some(s) =>
      var spaced := Scrub(Lower(s));
      var kept := DropStopWords(Split(Strip(CollapseSpace(spaced))));
      SqueezeKeepsSplit(spaced);
      KeptAreTokens(spaced);
      JoinNormalized(kept);
      SplitJoin(kept);
      Join(kept)
  }

  // ---------------------------------------------------------------------------
  // Lemmas about splitting and joining

  /** Collapsing whitespace runs does not change the tokens. */
  lemma {:induction false} CollapseKeepsSplit(s: string, cur: string)
    ensures SplitAcc(CollapseSpace(s), cur) == SplitAcc(s, cur)
    decreases |s|
  {
    if s == [] {
    } else if IsSpace(s[0]) {
      if |s| > 1 && IsSpace(s[1]) {
        CollapseKeepsSplit(s[1..], cur);
        assert s[1..][0] == s[1] && s[1..][1..] == s[2..];
      } else {
        CollapseKeepsSplit(s[1..], []);
        var r := " " + CollapseSpace(s[1..]);
        assert r[0] == ' ' && r[1..] == CollapseSpace(s[1..]);
      }
    } else {
      CollapseKeepsSplit(s[1..], cur + [s[0]]);
      var r := [s[0]] + CollapseSpace(s[1..]);
      assert r[0] == s[0] && r[1..] == CollapseSpace(s[1..]);
    }
  }

  /** Leading whitespace does not change the tokens. */
  lemma {:induction false} StripStartKeepsSplit(s: string)
    ensures Split(StripStart(s)) == Split(s)
    decreases |s|
  {
    if s != [] && IsSpace(s[0]) {
      StripStartKeepsSplit(s[1..]);
    }
  }

  /** A whitespace character at the end does not change the tokens. */
  lemma {:induction false} SplitAccTrailingSpace(s: string, c: char, cur: string)
    requires IsSpace(c)
    ensures SplitAcc(s + [c], cur) == SplitAcc(s, cur)
    decreases |s|
  {
    if s == [] {
      assert (s + [c])[1..] == [];
    } else {
      assert (s + [c])[0] == s[0] && (s + [c])[1..] == s[1..] + [c];
      if IsSpace(s[0]) {
        SplitAccTrailingSpace(s[1..], c, []);
      } else {
        SplitAccTrailingSpace(s[1..], c, cur + [s[0]]);
      }
    }
  }

  /** Trailing whitespace does not change the tokens. */
  lemma {:induction false} StripEndKeepsSplit(s: string)
    ensures Split(StripEnd(s)) == Split(s)
    decreases |s|
  {
    if s != [] && IsSpace(s[|s| - 1]) {
      StripEndKeepsSplit(s[..|s| - 1]);
      SplitAccTrailingSpace(s[..|s| - 1], s[|s| - 1], []);
      assert s[..|s| - 1] + [s[|s| - 1]] == s;
    }
  }

  /** The collapse-and-strip of app.py:56 leaves the tokens of `str.split()` unchanged. */
  lemma SqueezeKeepsSplit(s: string)
    ensures Split(Strip(CollapseSpace(s))) == Split(s)
  {
    var c := CollapseSpace(s);
    CollapseKeepsSplit(s, []);
    StripStartKeepsSplit(c);
    StripEndKeepsSplit(StripStart(c));
  }

  /** Every word clean_text keeps from a scrubbed text is a token. */
  lemma KeptAreTokens(spaced: string)
    requires forall i :: 0 <= i < |spaced| ==> IsWordChar(spaced[i]) || IsSpace(spaced[i])
    ensures forall w :: w in DropStopWords(Split(spaced)) ==> IsToken(w)
  {
    SplitAccTokens(spaced, []);
    DroppedAreTokens(Split(spaced));
  }

  lemma DroppedAreTokens(ws: seq<string>)
    requires forall w :: w in ws ==> IsToken(w)
    ensures forall w :: w in DropStopWords(ws) ==> IsToken(w)
  {
  }

  /** Splitting a text of word characters and whitespace yields tokens only. */
  lemma {:induction false} SplitAccTokens(s: string, cur: string)
    requires forall i :: 0 <= i < |s| ==> IsWordChar(s[i]) || IsSpace(s[i])
    requires forall i :: 0 <= i < |cur| ==> IsWordChar(cur[i])
    ensures forall w :: w in SplitAcc(s, cur) ==> IsToken(w)
    decreases |s|
  {
    if s == [] {
    } else if IsSpace(s[0]) {
      SplitAccTokens(s[1..], []);
    } else {
      SplitAccTokens(s[1..], cur + [s[0]]);
    }
  }

  /** Reading a run of non-whitespace characters only extends the current token. */
  lemma {:induction false} SplitAccRun(w: string, rest: string, cur: string)
    requires forall i :: 0 <= i < |w| ==> !IsSpace(w[i])
    ensures SplitAcc(w + rest, cur) == SplitAcc(rest, cur + w)
    decreases |w|
  {
    if w == [] {
      assert w + rest == rest && cur + w == cur;
    } else {
      assert (w + rest)[0] == w[0] && (w + rest)[1..] == w[1..] + rest;
      SplitAccRun(w[1..], rest, cur + [w[0]]);
      assert cur + [w[0]] + w[1..] == cur + w;
    }
  }

  /** Round trip: `" ".join(ws).split() == ws` for a list of tokens. */
  lemma {:induction false} SplitJoin(ws: seq<string>)
    requires forall w :: w in ws ==> IsToken(w)
    ensures Split(Join(ws)) == ws
    decreases |ws|
  {
    if ws == [] {
    } else if |ws| == 1 {
      assert ws[0] in ws;
      SplitAccRun(ws[0], [], []);
      assert ws[0] + [] == ws[0] && [] + ws[0] == ws[0];
    } else {
      var w, j := ws[0], Join(ws[1..]);
      assert w in ws;
      SplitAccRun(w, " " + j, []);
      assert w + " " + j == w + (" " + j);
      assert (" " + j)[0] == ' ' && (" " + j)[1..] == j;
      assert [] + w == w;
      SplitJoin(ws[1..]);
    }
  }

  /** Joining tokens with single spaces gives a normalised text. */
  lemma {:induction false} JoinNormalized(ws: seq<string>)
    requires forall w :: w in ws ==> IsToken(w)
    ensures Normalized(Join(ws))
    ensures ws != [] ==> Join(ws) != []
    decreases |ws|
  {
    if |ws| > 1 {
      JoinNormalized(ws[1..]);
      var w, j := ws[0], Join(ws[1..]);
      var s := w + " " + j;
      assert IsToken(w);
      forall i | 0 <= i < |s| ensures IsWordChar(s[i]) || s[i] == ' ' {
        if i < |w| { assert s[i] == w[i]; }
        else if i > |w| { assert s[i] == j[i - |w| - 1]; }
      }
      forall i | 0 <= i < |s| - 1 ensures s[i] != ' ' || s[i + 1] != ' ' {
        if i < |w| { assert s[i] == w[i]; }
        else if i == |w| { assert s[i + 1] == j[0]; }
        else { assert s[i] == j[i - |w| - 1]; }
      }
      assert s[0] == w[0] && s[|s| - 1] == j[|j| - 1];
    } else if |ws| == 1 {
      assert IsToken(ws[0]);
    }
  }

  /** Dropping stop words preserves order: it distributes over concatenation. */
  lemma {:induction false} DropStopWordsAppend(a: seq<string>, b: seq<string>)
    ensures DropStopWords(a + b) == DropStopWords(a) + DropStopWords(b)
    decreases |a|
  {
    if a == [] {
      assert a + b == b;
    } else {
      assert (a + b)[0] == a[0] && (a + b)[1..] == a[1..] + b;
      DropStopWordsAppend(a[1..], b);
    }
  }

  /** A list without stop words is left as it is. */
  lemma {:induction false} DropStopWordsNone(ws: seq<string>)
    requires forall w :: w in ws ==> !IsStopWord(w)
    ensures DropStopWords(ws) == ws
    decreases |ws|
  {
    if ws != [] {
      assert ws[0] in ws;
      DropStopWordsNone(ws[1..]);
    }
  }

  // ---------------------------------------------------------------------------
  // Properties of clean_text

  /** Normalising a normalised text changes nothing. */
  lemma CleanTextIdempotent(t: Option<string>)
    ensures CleanText(Some(CleanText(t))) == CleanText(t)
  {
    var kept: seq<string>;
    if t.None? {
      kept := [];
    } else {
      var spaced := Scrub(Lower(t.value));
      kept := DropStopWords(Split(Strip(CollapseSpace(spaced))));
      SqueezeKeepsSplit(spaced);
      KeptAreTokens(spaced);
    }
    assert CleanText(t) == Join(kept);
    JoinedTokensAreClean(kept);
  }

  /** Tokens that are not stop words, joined by spaces, are already clean. */
  lemma JoinedTokensAreClean(kept: seq<string>)
    requires forall w :: w in kept ==> IsToken(w) && !IsStopWord(w)
    ensures CleanText(Some(Join(kept))) == Join(kept)
  {
    var o := Join(kept);
    JoinNormalized(kept);
    NormalizedIsScrubbed(o);
    SqueezeKeepsSplit(o);
    SplitJoin(kept);
    DropStopWordsNone(kept);
  }

  /** Lower-casing and scrubbing leave a normalised text as it is. */
  lemma NormalizedIsScrubbed(o: string)
    requires Normalized(o)
    ensures Scrub(Lower(o)) == o
  {
    assert Lower(o) == o;
  }

  /** Upper and lower case give the same normalised text. */
  lemma CleanTextIgnoresCase(s: string)
    ensures CleanText(Some(Lower(s))) == CleanText(Some(s))
  {
    assert Lower(Lower(s)) == Lower(s);
  }
}

/**
 * A worked example of clean_text on a contraction. The text comes in as a
 * parameter pinned by `requires` so that the verifier does not unfold the
 * functions on the literal itself, which keeps the proofs cheap.
 */
module CleanTextExamples {
  import opened Wrappers
  import opened TextClean

  /**
   * An apostrophe splits a word: "Can't Login!" is read as the tokens "can",
   * "t" and "login", and "can" is a stop word, so the result keeps the stray
   * token "t" and never the token "cant" that "cant login" yields.
   */
  lemma ContractionLosesWord(contraction: string)
    requires contraction == "Can't Login!"
    ensures Split(CleanText(Some(contraction))) == DropStopWords(["t", "login"])
    ensures "cant" !in Split(CleanText(Some(contraction)))
  {
    ApostropheTokens(contraction);
    LeadingStopWordDropped();
    CantIsNotKept();
  }

  /** The apostrophe and the "!" become spaces, leaving three tokens. */
  lemma ApostropheTokens(contraction: string)
    requires contraction == "Can't Login!"
    ensures Split(Scrub(Lower(contraction))) == ["can", "t", "login"]
  {
    ApostropheScrubbed(contraction);
    ScrubbedTokens();
  }

  lemma ApostropheScrubbed(contraction: string)
    requires contraction == "Can't Login!"
    ensures Scrub(Lower(contraction)) == "can t login "
  {
    assert Lower(contraction) == "can't login!";
  }

  lemma ScrubbedTokens()
    ensures Split("can t login ") == ["can", "t", "login"]
  {
    var ws := ["can", "t", "login"];
    assert IsToken("can") && IsToken("t") && IsToken("login");
    SplitJoin(ws);
    assert Join(ws) == "can t login";
    SplitAccTrailingSpace("can t login", ' ', []);
    assert "can t login" + [' '] == "can t login ";
  }

  /** "can" is a stop word, so only "t" and "login" can survive. */
  lemma LeadingStopWordDropped()
    ensures DropStopWords(["can", "t", "login"]) == DropStopWords(["t", "login"])
  {
    assert IsStopWord("can");
    assert ["can", "t", "login"] == ["can"] + ["t", "login"];
    DropStopWordsAppend(["can"], ["t", "login"]);
  }

  /** The merged word "cant" is not among the surviving tokens. */
  lemma CantIsNotKept()
    ensures "cant" !in DropStopWords(["t", "login"])
  {
    assert |"cant"| != |"t"| && |"cant"| != |"login"|;
  }
}
