/** What normalising a text for the lexicon makes of it: its words in lower case, with single spaces. */
module Normalization {
  import opened Values
  import opened ListLaws
  import opened Lexicon

  /** The runs of characters between blanks: a letter begins a word, or joins the one right behind it. */
  function Words(s: string): (words: seq<string>)
    ensures s != "" && !IsBlank(s[0]) ==> words != []
    ensures s == "" ==> words == []
  {
    if s == "" then []
    else if IsBlank(s[0]) then Words(s[1..])
    else
      var rest := Words(s[1..]);
      if |s| == 1 || IsBlank(s[1]) then [[s[0]]] + rest else [[s[0]] + rest[0]] + rest[1..]
  }

  function Spaced(words: seq<string>): string {
    if words == [] then ""
    else if |words| == 1 then words[0]
    else words[0] + (" " + Spaced(words[1..]))
  }

  function LowerAll(words: seq<string>): seq<string> {
    seq(|words|, i requires 0 <= i < |words| => Lower(words[i]))
  }

  lemma SpacedStep(w: string, rest: seq<string>)
    ensures Spaced([w] + rest) == w + Behind(rest)
  {
    assert ([w] + rest)[1..] == rest;
    assert w + "" == w;
  }

  /** What follows a word. */
  function Behind(rest: seq<string>): string {
    if rest == [] then "" else " " + Spaced(rest)
  }

  lemma SpacedFromLetter(c: char, words: seq<string>)
    ensures Spaced([[c]] + words) == [c] + Behind(words)
    ensures words != [] ==> Spaced([[c] + words[0]] + words[1..]) == [c] + Spaced(words)
  {
    hide Spaced, Behind;
    SpacedStep([c], words);
    if words != [] {
      var more := Behind(words[1..]);
      SpacedStep(words[0], words[1..]);
      SpacedStep([c] + words[0], words[1..]);
      assert words == [words[0]] + words[1..];
      assert ([c] + words[0]) + more == [c] + (words[0] + more);
    }
  }

  lemma {:induction false} WordsAreNotBlank(s: string)
    ensures Words(s) != [] ==> Words(s)[0] != "" && !IsBlank(Words(s)[0][0])
  {
    if s != "" && IsBlank(s[0]) { WordsAreNotBlank(s[1..]); }
  }

  lemma SpacedStarts(s: string)
    ensures Words(s) != [] ==> Spaced(Words(s)) != "" && !IsBlank(Spaced(Words(s))[0])
  {
    WordsAreNotBlank(s);
  }

  /** Squeezing keeps the words, each after one space, with a leading one if there was a leading blank. */
  lemma {:induction false} SqueezeMeans(s: string)
    ensures Squeeze(s) == (if s != "" && IsBlank(s[0]) && Words(s) != [] then " " else "") + Spaced(Words(s))
  {
    hide Spaced, Words;
    if s == "" {
      NothingToSqueeze();
    } else {
      SqueezeMeans(s[1..]);
      if IsBlank(s[0]) { SqueezeFromBlank(s); } else { SqueezeFromLetter(s); }
    }
  }

  ghost predicate Squeezed(s: string) {
    Squeeze(s) == (if s != "" && IsBlank(s[0]) && Words(s) != [] then " " else "") + Spaced(Words(s))
  }

  lemma SqueezeFromBlank(s: string)
    requires s != "" && IsBlank(s[0]) && Squeezed(s[1..])
    ensures Squeezed(s)
  {
    hide Spaced;
    SpacedStarts(s[1..]);
    NothingToSqueeze();
  }

  lemma SqueezeFromLetter(s: string)
    requires s != "" && !IsBlank(s[0]) && Squeezed(s[1..])
    ensures Squeezed(s)
  {
    hide Spaced, IsBlank;
    NothingToSqueeze();
    SpacedFromLetter(s[0], Words(s[1..]));
  }

  lemma NothingToSqueeze()
    ensures Spaced([]) == "" && Squeeze("") == "" && Words("") == []
  {
  }

  lemma LowerKeepsBlanks(c: char)
    ensures IsBlank(LowerChar(c)) <==> IsBlank(c)
  {
  }

  lemma LowerOfCons(c: char, s: string)
    ensures Lower([c] + s) == [LowerChar(c)] + Lower(s)
  {
  }

  lemma LowerAllOfCons(w: string, rest: seq<string>)
    ensures LowerAll([w] + rest) == [Lower(w)] + LowerAll(rest)
  {
    hide Lower;
  }

  lemma {:induction false} WordsOfLower(s: string)
    ensures Words(Lower(s)) == LowerAll(Words(s))
  {
    hide Lower, LowerAll, IsBlank, LowerChar;
    if s == "" {
      NothingToLower();
    } else {
      var tail := s[1..];
      var rest := Words(tail);
      assert s == [s[0]] + tail;
      LowerOfCons(s[0], tail);
      LowerKeepsBlanks(s[0]);
      WordsOfLower(tail);
      assert Lower(s)[1..] == Lower(tail);
      if !IsBlank(s[0]) {
        if |s| > 1 && !IsBlank(s[1]) {
          LowerSecond(s);
          assert rest == [rest[0]] + rest[1..];
          LowerAllOfCons(rest[0], rest[1..]);
          LowerAllOfCons([s[0]] + rest[0], rest[1..]);
          LowerOfCons(s[0], rest[0]);
        } else {
          LowerSecond(s);
          LowerAllOfCons([s[0]], rest);
          LowerOne(s[0]);
        }
      }
    }
  }

  lemma LowerSecond(s: string)
    ensures |Lower(s)| == |s|
    ensures |s| > 1 ==> (IsBlank(Lower(s)[1]) <==> IsBlank(s[1]))
  {
  }

  lemma LowerOne(c: char)
    ensures Lower([c]) == [LowerChar(c)]
  {
  }

  lemma NothingToLower()
    ensures Lower("") == "" && LowerAll([]) == []
  {
  }

  lemma {:induction false} WordsWithBlank(s: string, c: char)
    requires IsBlank(c)
    ensures Words(s + [c]) == Words(s)
  {
    if s == "" {
      assert s + [c] == [c] && [c][1..] == "";
    } else {
      assert (s + [c])[1..] == s[1..] + [c];
      WordsWithBlank(s[1..], c);
    }
  }

  lemma {:induction false} WordsOfTrimLeft(s: string)
    ensures Words(TrimLeft(s)) == Words(s)
  {
    if s != "" && IsBlank(s[0]) { WordsOfTrimLeft(s[1..]); }
  }

  lemma {:induction false} WordsOfTrimRight(s: string)
    ensures Words(TrimRight(s)) == Words(s)
  {
    if s != "" && IsBlank(s[|s| - 1]) {
      var init := s[..|s| - 1];
      WordsOfTrimRight(init);
      WordsWithBlank(init, s[|s| - 1]);
      assert s == init + [s[|s| - 1]];
    }
  }

  /** Normalising a text gives its words, in lower case, with single spaces between them. */
  lemma NormalizeMeans(s: string)
    ensures Normalize(s) == Spaced(LowerAll(Words(s)))
  {
    var t := Trim(s);
    TrimLeftEnds(s);
    TrimRightEnds(TrimLeft(s));
    WordsOfTrimLeft(s);
    WordsOfTrimRight(TrimLeft(s));
    WordsOfLower(t);
    SqueezeMeans(Lower(t));
    if t != "" { LowerKeepsBlanks(t[0]); }
  }

  // ----- Normalised texts are normal -----

  lemma {:induction false} WordsOfSpaced(words: seq<string>)
    requires forall w :: w in words ==> w != "" && forall i :: 0 <= i < |w| ==> !IsBlank(w[i])
    ensures Words(Spaced(words)) == words
  {
    if words != [] {
      var rest := Behind(words[1..]);
      SpacedStep(words[0], words[1..]);
      assert words == [words[0]] + words[1..];
      WordThenRest(words[0], rest);
      if |words| > 1 {
        WordsOfSpaced(words[1..]);
        assert rest[1..] == Spaced(words[1..]);
      }
    }
  }

  lemma {:induction false} WordThenRest(w: string, rest: string)
    requires w != "" && (forall i :: 0 <= i < |w| ==> !IsBlank(w[i])) && (rest == "" || IsBlank(rest[0]))
    ensures Words(w + rest) == [w] + Words(rest)
  {
    var s := w + rest;
    assert s[1..] == w[1..] + rest;
    if |w| > 1 {
      assert s[1] == w[1];
      WordThenRest(w[1..], rest);
      assert [w[0]] + w[1..] == w;
    } else {
      assert w[1..] + rest == rest && [w[0]] == w;
    }
  }

  lemma {:induction false} WordsHaveNoBlanks(s: string, w: string)
    requires w in Words(s)
    ensures w != "" && forall i :: 0 <= i < |w| ==> !IsBlank(w[i])
  {
    var rest := Words(s[1..]);
    if w in rest {
      WordsHaveNoBlanks(s[1..], w);
    } else if |s| > 1 && !IsBlank(s[1]) {
      WordsHaveNoBlanks(s[1..], rest[0]);
    }
  }

  /** So normalising twice is normalising once, and two texts are the same to the matcher exactly if they
      have the same words but for case. */
  lemma SameNormalIff(a: string, b: string)
    ensures Normalize(Normalize(a)) == Normalize(a)
    ensures Normalize(a) == Normalize(b) <==> LowerAll(Words(a)) == LowerAll(Words(b))
  {
    hide Normalize, Words, Spaced;
    NormalizeMeans(a);
    NormalizeMeans(b);
    NormalizeMeans(Normalize(a));
    WordsOfNormal(a);
    WordsOfNormal(b);
    forall w | w in LowerAll(Words(a)) ensures Lower(w) == w {
      var i :| 0 <= i < |Words(a)| && w == Lower(Words(a)[i]);
      assert forall k :: 0 <= k < |w| ==> LowerChar(w[k]) == w[k];
    }
    assert LowerAll(LowerAll(Words(a))) == LowerAll(Words(a));
  }

  lemma WordsOfNormal(s: string)
    ensures Words(Normalize(s)) == LowerAll(Words(s))
  {
    hide Normalize, Words;
    NormalizeMeans(s);
    var words := LowerAll(Words(s));
    forall w | w in words ensures w != "" && forall i :: 0 <= i < |w| ==> !IsBlank(w[i]) {
      var k :| 0 <= k < |Words(s)| && w == Lower(Words(s)[k]);
      WordsHaveNoBlanks(s, Words(s)[k]);
      forall i | 0 <= i < |w| ensures !IsBlank(w[i]) { LowerKeepsBlanks(Words(s)[k][i]); }
    }
    WordsOfSpaced(words);
  }
}
