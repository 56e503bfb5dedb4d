/** The per-page text cleanup of the n-gram corpus (parse_articles in
    collect_corpus.py): header removal (an opaque pre-pass here), deletion of
    punctuation, lower-casing and splitting on whitespace. */
module Cleanup {
  import opened Common

  /** The characters Python's str.split() (with no argument) treats as whitespace. */
  predicate IsSpace(c: char)
  {
    c == ' ' || ('\t' <= c <= '\r') || ('\U{1C}' <= c <= '\U{1F}') || c == '\U{85}' ||
    c == '\U{A0}' || c == '\U{1680}' || ('\U{2000}' <= c <= '\U{200A}') ||
    c == '\U{2028}' || c == '\U{2029}' || c == '\U{202F}' || c == '\U{205F}' || c == '\U{3000}'
  }

  /** The character class deleted by the punctuation pass:
      . , ( ) ! ? [ ] : ; " EN DASH - LEFT/RIGHT GUILLEMET = */
  predicate IsPunctuation(c: char)
  {
    c in ".,()!?[]:;\"\U{2013}-\U{AB}\U{BB}="
  }

  predicate IsUpperAscii(c: char) { 'A' <= c <= 'Z' }

  /** What every token of a cleaned page is: non-empty, with no whitespace, none of the
      deleted punctuation and no ASCII capital. */
  predicate IsCleanToken(t: string)
  {
    t != [] && forall c :: c in t ==> !IsSpace(c) && !IsPunctuation(c) && !IsUpperAscii(c)
  }

  /** re.sub over the punctuation class with "": keep every other character, in order. */
  function RemovePunctuation(s: string): string
    decreases |s|
  {
    if s == [] then []
    else (if IsPunctuation(s[0]) then [] else [s[0]]) + RemovePunctuation(s[1..])
  }

  /** str.lower restricted to ASCII. */
  function LowerChar(c: char): char
  {
    if IsUpperAscii(c) then (c as int + 32) as char else c
  }

  function Lower(s: string): string
    decreases |s|
  {
    if s == [] then [] else [LowerChar(s[0])] + Lower(s[1..])
  }

  /** The characters of s that are not whitespace, in order. */
  function NonSpace(s: string): string
    decreases |s|
  {
    if s == [] then [] else (if IsSpace(s[0]) then [] else [s[0]]) + NonSpace(s[1..])
  }

  function Emit(word: string): seq<string>
  {
    if word == [] then [] else [word]
  }

  /** str.split(): `word` holds the characters read since the last whitespace. */
  function SplitWords(s: string, word: string): seq<string>
    decreases |s|
  {
    if s == [] then Emit(word)
    else if IsSpace(s[0]) then Emit(word) + SplitWords(s[1..], [])
    else SplitWords(s[1..], word + [s[0]])
  }

  function Split(s: string): seq<string>
  {
    SplitWords(s, [])
  }

  /** The token sequence parse_articles produces for one page; `stripHeaders` stands for
      the header-deleting regular expression. */
  function CleanPage(raw: string, stripHeaders: string -> string): seq<string>
  {
    Split(Lower(RemovePunctuation(stripHeaders(raw))))
  }

  /** Tokens joined by single spaces (' '.join). */
  function Join(ts: seq<string>): string
    decreases |ts|
  {
    if ts == [] then []
    else if |ts| == 1 then ts[0]
    else ts[0] + " " + Join(ts[1..])
  }

  // ---------------------------------------------------------------------------
  // Lemmas
  // ---------------------------------------------------------------------------

  /** Punctuation removal keeps exactly the non-punctuation characters of the input. */
  lemma {:induction false} RemovePunctuationChars(s: string)
    ensures forall c :: c in RemovePunctuation(s) <==> c in s && !IsPunctuation(c)
    decreases |s|
  {
    if s != [] {
      RemovePunctuationChars(s[1..]);
      assert s == [s[0]] + s[1..];
    }
  }

  /** Lower-casing keeps the length, leaves no ASCII capital, changes only ASCII
      capitals, and never turns a non-punctuation character into punctuation. */
  lemma {:induction false} LowerChars(s: string)
    ensures |Lower(s)| == |s|
    ensures forall i :: 0 <= i < |s| ==> Lower(s)[i] == LowerChar(s[i])
    ensures forall c :: c in Lower(s) ==> !IsUpperAscii(c)
    ensures (forall c :: c in s ==> !IsPunctuation(c)) ==> forall c :: c in Lower(s) ==> !IsPunctuation(c)
    decreases |s|
  {
    if s != [] {
      LowerChars(s[1..]);
      var l := Lower(s);
      assert l == [LowerChar(s[0])] + Lower(s[1..]);
      forall i | 0 <= i < |s| ensures l[i] == LowerChar(s[i]) {
        if i > 0 { assert l[i] == Lower(s[1..])[i - 1]; }
      }
      forall c | c in l ensures !IsUpperAscii(c) && ((forall d :: d in s ==> !IsPunctuation(d)) ==> !IsPunctuation(c)) {
        var i :| 0 <= i < |l| && l[i] == c;
        assert s[i] in s;
      }
    }
  }

  lemma FlattenEmitCons(word: string, rest: seq<string>)
    ensures Flatten(Emit(word) + rest) == word + Flatten(rest)
  {
    if word == [] {
      assert Emit(word) + rest == rest;
    } else {
      FlattenCons(word, rest);
    }
  }

  /** Splitting loses only whitespace: every token is a non-empty run of non-whitespace
      characters of the input, and the tokens read together are the input without its
      whitespace. */
  lemma {:induction false} SplitWordsSpec(s: string, word: string)
    requires forall c :: c in word ==> !IsSpace(c)
    ensures forall t :: t in SplitWords(s, word) ==>
              t != [] && (forall c :: c in t ==> !IsSpace(c) && (c in word || c in s))
    ensures Flatten(SplitWords(s, word)) == word + NonSpace(s)
    decreases |s|
  {
    var r := SplitWords(s, word);
    if s == [] {
      assert Flatten(Emit(word)) == word by { FlattenEmitCons(word, []); }
    } else if IsSpace(s[0]) {
      SplitWordsSpec(s[1..], []);
      FlattenEmitCons(word, SplitWords(s[1..], []));
      forall t | t in r ensures t != [] && forall c :: c in t ==> !IsSpace(c) && (c in word || c in s) {
        if t !in Emit(word) {
          assert t in SplitWords(s[1..], []);
          forall c | c in t ensures c in s { assert c in s[1..]; }
        }
      }
    } else {
      var w := word + [s[0]];
      SplitWordsSpec(s[1..], w);
      forall t | t in r ensures forall c :: c in t ==> (c in word || c in s) {
        forall c | c in t ensures c in word || c in s {
          if c in w && c !in word { assert c == s[0]; }
          if c in s[1..] { assert c in s; }
        }
      }
      assert NonSpace(s) == [s[0]] + NonSpace(s[1..]);
    }
  }

  /** t occurs in s at i, with whitespace or an end of s on either side. */
  ghost predicate IsRunAt(t: string, s: string, i: int)
  {
    0 <= i && i + |t| <= |s| && s[i..i + |t|] == t
    && (i == 0 || IsSpace(s[i - 1])) && (i + |t| == |s| || IsSpace(s[i + |t|]))
  }

  /** The word read so far, followed by whitespace, is a run at the start. */
  lemma WordRunBeforeSpace(word: string, s: string)
    requires s != [] && IsSpace(s[0])
    ensures IsRunAt(word, word + s, 0)
  {
    var x := word + s;
    assert x[..|word|] == word;
    assert x[|word|] == s[0];
  }

  /** A run of the text after a whitespace character is a run of the whole text, shifted. */
  lemma RunAfterSpace(t: string, word: string, s: string, i: int)
    requires s != [] && IsSpace(s[0]) && IsRunAt(t, s[1..], i)
    ensures IsRunAt(t, word + s, |word| + 1 + i)
  {
    var x := word + s;
    var j := |word| + 1 + i;
    assert x[j..j + |t|] == s[1..][i..i + |t|];
    assert x[j - 1] == if i == 0 then s[0] else s[1..][i - 1];
    if j + |t| < |x| {
      assert x[j + |t|] == s[1..][i + |t|];
    }
  }

  /** The positions, in `word + s`, at which SplitWords(s, word) finds its tokens. */
  ghost function RunStarts(s: string, word: string): seq<int>
    decreases |s|
  {
    if s == [] then (if word == [] then [] else [0])
    else if IsSpace(s[0]) then StartsAfterSpace(RunStarts(s[1..], []), word)
    else RunStarts(s[1..], word + [s[0]])
  }

  ghost function Shifted(ps: seq<int>, d: int): seq<int>
  {
    seq(|ps|, i requires 0 <= i < |ps| => ps[i] + d)
  }

  /** Token k of `ts` is a maximal run of `x` at position ps[k], and the positions strictly increase. */
  ghost predicate RunsAt(ts: seq<string>, x: string, ps: seq<int>)
  {
    |ps| == |ts|
    && (forall k :: 0 <= k < |ts| ==> IsRunAt(ts[k], x, ps[k]))
    && (forall k, l :: 0 <= k < l < |ps| ==> ps[k] < ps[l])
  }

  /** Positions of the word closed by a space, followed by those of the runs after it. */
  ghost function StartsAfterSpace(ps: seq<int>, word: string): seq<int>
  {
    (if word == [] then [] else [0]) + Shifted(ps, |word| + 1)
  }

  /** A word closed by a space comes before the runs found after that space. */
  lemma RunsAfterSpace(ts: seq<string>, ps: seq<int>, word: string, s: string)
    requires s != [] && IsSpace(s[0]) && RunsAt(ts, s[1..], ps)
    ensures RunsAt(Emit(word) + ts, word + s, StartsAfterSpace(ps, word))
  {
    var ts2 := Emit(word) + ts;
    var ps2 := StartsAfterSpace(ps, word);
    var n := |Emit(word)|;
    forall k | 0 <= k < |ts2| ensures IsRunAt(ts2[k], word + s, ps2[k]) {
      if k < n {
        WordRunBeforeSpace(word, s);
      } else {
        assert ts2[k] == ts[k - n] && ps2[k] == ps[k - n] + |word| + 1;
        RunAfterSpace(ts[k - n], word, s, ps[k - n]);
      }
    }
    StartsAfterSpaceIncrease(ts, ps, word, s);
  }

  /** Shifting increasing run positions past the closed word keeps them increasing and after it. */
  lemma StartsAfterSpaceIncrease(ts: seq<string>, ps: seq<int>, word: string, s: string)
    requires s != [] && RunsAt(ts, s[1..], ps)
    ensures var ps2 := StartsAfterSpace(ps, word);
            forall k, l :: 0 <= k < l < |ps2| ==> ps2[k] < ps2[l]
  {
    var ps2 := StartsAfterSpace(ps, word);
    var n := |ps2| - |ps|;
    forall k, l | 0 <= k < l < |ps2| ensures ps2[k] < ps2[l] {
      assert ps2[l] == ps[l - n] + |word| + 1;
      assert IsRunAt(ts[l - n], s[1..], ps[l - n]);
      if k >= n {
        assert ps2[k] == ps[k - n] + |word| + 1;
      }
    }
  }

  /** Every token is a maximal run of the text read so far: token k occurs at position
      RunStarts[k] with whitespace, or an end of the text, on both sides, and the
      positions strictly increase. So the tokens are distinct occurrences in the text,
      in the order they occur; with SplitWordsSpec they cover all of its non-whitespace. */
  lemma {:induction false} SplitWordsRuns(s: string, word: string)
    requires forall c :: c in word ==> !IsSpace(c)
    ensures RunsAt(SplitWords(s, word), word + s, RunStarts(s, word))
    decreases |s|
  {
    if s == [] {
      if word != [] {
        assert IsRunAt(word, word + s, 0);
      }
    } else if IsSpace(s[0]) {
      SplitWordsRuns(s[1..], []);
      assert [] + s[1..] == s[1..];
      RunsAfterSpace(SplitWords(s[1..], []), RunStarts(s[1..], []), word, s);
    } else {
      SplitWordsRuns(s[1..], word + [s[0]]);
      assert word + [s[0]] + s[1..] == word + s;
    }
  }

  /** A page's tokens are non-empty, free of whitespace and of the deleted punctuation,
      and lower case (ASCII). */
  lemma CleanPageTokens(raw: string, stripHeaders: string -> string)
    ensures forall t :: t in CleanPage(raw, stripHeaders) ==> IsCleanToken(t)
  {
    var p := RemovePunctuation(stripHeaders(raw));
    RemovePunctuationChars(stripHeaders(raw));
    LowerChars(p);
    SplitWordsSpec(Lower(p), []);
  }

  /** Reading a word followed by more input continues the current word. */
  lemma {:induction false} SplitWordsWord(w: string, rest: string, word: string)
    requires forall c :: c in w ==> !IsSpace(c)
    ensures SplitWords(w + rest, word) == SplitWords(rest, word + w)
    decreases |w|
  {
    if w == [] {
      assert w + rest == rest;
      assert word + w == word;
    } else {
      assert (w + rest)[0] == w[0];
      assert (w + rest)[1..] == w[1..] + rest;
      SplitWordsWord(w[1..], rest, word + [w[0]]);
      assert word + [w[0]] + w[1..] == word + w;
    }
  }

  /** A space after the current word ends it. */
  lemma SplitWordsSpace(tail: string, word: string)
    ensures SplitWords(" " + tail, word) == Emit(word) + SplitWords(tail, [])
  {
    assert (" " + tail)[1..] == tail;
    assert (" " + tail)[0] == ' ';
  }

  /** Joining tokens by single spaces and splitting again gives the tokens back, when
      the tokens are non-empty and hold no whitespace. */
  lemma {:induction false} SplitJoin(ts: seq<string>)
    requires forall t :: t in ts ==> t != [] && (forall c :: c in t ==> !IsSpace(c))
    ensures Split(Join(ts)) == ts
    decreases |ts|
  {
    if ts != [] {
      assert ts[0] in ts;
    }
    if |ts| == 1 {
      SplitWordsWord(ts[0], [], []);
      assert ts[0] + [] == ts[0];
    } else if |ts| > 1 {
      var tail := Join(ts[1..]);
      assert Join(ts) == ts[0] + (" " + tail);
      SplitWordsWord(ts[0], " " + tail, []);
      assert [] + ts[0] == ts[0];
      SplitWordsSpace(tail, ts[0]);
      forall t | t in ts[1..] ensures t in ts { }
      SplitJoin(ts[1..]);
      assert ts == [ts[0]] + ts[1..];
    }
  }
}
