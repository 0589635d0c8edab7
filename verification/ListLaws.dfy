/** Laws of adding fresh items to a list, and of cleaning lists of texts. */
module ListLaws {
  import opened Values

  lemma {:induction false} FreshMembers<T>(known: seq<T>, incoming: seq<T>, x: T)
    ensures x in known + Fresh(known, incoming) <==> x in known || x in incoming
    decreases |incoming|
  {
    if incoming != [] {
      var next := if incoming[0] in known then known else known + [incoming[0]];
      FreshMembers(next, incoming[1..], x);
      assert incoming == [incoming[0]] + incoming[1..];
    }
  }

  /** Merging adds each new item once. */
  lemma {:induction false} FreshIsDistinct<T>(known: seq<T>, incoming: seq<T>)
    ensures Distinct(Fresh(known, incoming))
    ensures forall x :: x in Fresh(known, incoming) ==> x !in known && x in incoming
    decreases |incoming|
  {
    if incoming != [] {
      var next := if incoming[0] in known then known else known + [incoming[0]];
      FreshIsDistinct(next, incoming[1..]);
      assert incoming == [incoming[0]] + incoming[1..];
      if next != known {
        assert Fresh(known, incoming) == [incoming[0]] + Fresh(next, incoming[1..]);
        assert incoming[0] in next;
      }
    }
  }

  lemma {:induction false} NothingFresh<T>(known: seq<T>, incoming: seq<T>)
    requires forall x :: x in incoming ==> x in known
    ensures Fresh(known, incoming) == []
    decreases |incoming|
  {
    if incoming != [] { NothingFresh(known, incoming[1..]); }
  }

  lemma {:induction false} FreshOfSum<T>(known: seq<T>, a: seq<T>, b: seq<T>)
    ensures Fresh(known, a + b) == Fresh(known, a) + Fresh(known + Fresh(known, a), b)
    decreases |a|
  {
    if a == [] {
      assert a + b == b && known + [] == known;
    } else {
      assert (a + b)[1..] == a[1..] + b;
      if a[0] in known {
        FreshOfSum(known, a[1..], b);
      } else {
        var first := [a[0]];
        var x := Fresh(known + first, a[1..]);
        var y := Fresh(known + first + x, b);
        FreshOfSum(known + first, a[1..], b);
        calc {
          Fresh(known, a + b);
          first + Fresh(known + first, (a + b)[1..]);
          first + (x + y);
          (first + x) + y;
          { assert known + (first + x) == known + first + x; }
          Fresh(known, a) + Fresh(known + Fresh(known, a), b);
        }
      }
    }
  }

  lemma {:induction false} FreshOfFresh<T>(known: seq<T>, b: seq<T>, c: seq<T>)
    requires forall x :: x in b ==> x in known
    ensures Fresh(known, Fresh(b, c)) == Fresh(known, c)
    decreases |c|
  {
    if c != [] {
      if c[0] in b {
        FreshOfFresh(known, b, c[1..]);
      } else {
        var rest := Fresh(b + [c[0]], c[1..]);
        assert ([c[0]] + rest)[1..] == rest;
        FreshOfFresh(if c[0] in known then known else known + [c[0]], b + [c[0]], c[1..]);
      }
    }
  }

  lemma {:induction false} DistinctIsFresh<T>(known: seq<T>, incoming: seq<T>)
    requires Distinct(incoming) && forall x :: x in incoming ==> x !in known
    ensures Fresh(known, incoming) == incoming
    decreases |incoming|
  {
    if incoming != [] {
      forall x | x in incoming[1..] ensures x !in known + [incoming[0]] {}
      DistinctIsFresh(known + [incoming[0]], incoming[1..]);
    }
  }

  lemma FreshIsItself<T>(known: seq<T>, incoming: seq<T>)
    ensures Fresh(known, incoming) == incoming <==>
            Distinct(incoming) && forall x :: x in incoming ==> x !in known
  {
    FreshIsDistinct(known, incoming);
    if Distinct(incoming) && forall x :: x in incoming ==> x !in known { DistinctIsFresh(known, incoming); }
  }

  // ----- Texts -----

  lemma {:induction false} TrimLeftEnds(s: string)
    ensures TrimLeft(s) == "" || !IsBlank(TrimLeft(s)[0])
  {
    if s != "" && IsBlank(s[0]) { TrimLeftEnds(s[1..]); }
  }

  lemma {:induction false} TrimRightEnds(s: string)
    ensures TrimRight(s) <= s
    ensures TrimRight(s) == "" || !IsBlank(TrimRight(s)[|TrimRight(s)| - 1])
  {
    if s != "" && IsBlank(s[|s| - 1]) { TrimRightEnds(s[..|s| - 1]); }
  }

  /** Lower case: each character by itself, and only the capitals change. */
  lemma LowerMeans(s: string, i: nat)
    requires i < |s|
    ensures |Lower(s)| == |s|
    ensures 'A' <= s[i] <= 'Z' ==> 'a' <= Lower(s)[i] <= 'z' && (Lower(s)[i] as int) - ('a' as int) == (s[i] as int) - ('A' as int)
    ensures !('A' <= s[i] <= 'Z') ==> Lower(s)[i] == s[i]
  {
  }

  predicate AllBlank(s: string) {
    forall i :: 0 <= i < |s| ==> IsBlank(s[i])
  }

  predicate NoOuterBlanks(s: string) {
    s != "" ==> !IsBlank(s[0]) && !IsBlank(s[|s| - 1])
  }

  lemma {:induction false} TrimLeftSplits(s: string) returns (left: string)
    ensures s == left + TrimLeft(s) && AllBlank(left)
  {
    left := "";
    if s != "" && IsBlank(s[0]) {
      left := TrimLeftSplits(s[1..]);
      assert s == [s[0]] + (left + TrimLeft(s[1..]));
      left := [s[0]] + left;
    }
  }

  lemma {:induction false} TrimRightSplits(s: string) returns (right: string)
    ensures s == TrimRight(s) + right && AllBlank(right)
  {
    right := "";
    if s != "" && IsBlank(s[|s| - 1]) {
      right := TrimRightSplits(s[..|s| - 1]);
      right := right + [s[|s| - 1]];
    }
  }

  /** Stripping takes the blanks off both ends and nothing else. */
  lemma TrimSplits(s: string) returns (left: string, right: string)
    ensures s == left + Trim(s) + right && AllBlank(left) && AllBlank(right) && NoOuterBlanks(Trim(s))
  {
    left := TrimLeftSplits(s);
    right := TrimRightSplits(TrimLeft(s));
    TrimLeftEnds(s);
    TrimRightEnds(TrimLeft(s));
  }

  /** Some character is not blank. */
  ghost predicate HasLetter(s: string) {
    exists i :: 0 <= i < |s| && !IsBlank(s[i])
  }

  lemma TrimmedHasLetters(s: string)
    ensures Trim(s) != "" <==> HasLetter(s)
  {
    hide Trim;
    var left, right := TrimSplits(s);
    if Trim(s) != "" {
      assert s[|left|] == Trim(s)[0];
    } else {
      assert forall i :: 0 <= i < |s| ==> s[i] == (left + right)[i];
    }
  }

  lemma TrimTwice(s: string)
    ensures Trim(Trim(s)) == Trim(s)
  {
    TrimLeftEnds(s);
    TrimRightEnds(TrimLeft(s));
    assert TrimLeft(Trim(s)) == Trim(s);
  }

  lemma {:induction false} CleanTextsMean(texts: seq<string>, x: string)
    ensures x in CleanTexts(texts) <==> x != "" && exists t :: t in texts && Trim(t) == x
  {
    hide Trim;
    if texts != [] {
      CleanTextsMean(texts[1..], x);
      assert texts == [texts[0]] + texts[1..];
    }
  }

  lemma {:induction false} CleanTextsAreClean(texts: seq<string>, x: string)
    requires x in CleanTexts(texts)
    ensures x != "" && Trim(x) == x
  {
    hide Trim;
    if texts != [] {
      TrimTwice(texts[0]);
      if x in CleanTexts(texts[1..]) { CleanTextsAreClean(texts[1..], x); }
    }
  }

  lemma {:induction false} CleanTextsOfClean(texts: seq<string>)
    requires forall x :: x in texts ==> x != "" && Trim(x) == x
    ensures CleanTexts(texts) == texts
  {
    hide Trim;
    if texts != [] {
      assert forall x :: x in texts[1..] ==> x in texts;
      assert texts[0] in texts;
      CleanTextsOfClean(texts[1..]);
    }
  }

  lemma {:induction false} CleanTextsOfSum(a: seq<string>, b: seq<string>)
    ensures CleanTexts(a + b) == CleanTexts(a) + CleanTexts(b)
  {
    hide Trim;
    if a == [] {
      assert a + b == b;
    } else {
      assert (a + b)[1..] == a[1..] + b;
      CleanTextsOfSum(a[1..], b);
    }
  }

  /** The cleaned texts without repeats, each where it first appears. */
  function UniqueStrings(texts: seq<string>): seq<string> {
    Dedup(CleanTexts(texts))
  }

  lemma UniqueStringsMeans(texts: seq<string>, x: string)
    ensures Distinct(UniqueStrings(texts))
    ensures x in UniqueStrings(texts) <==> x in CleanTexts(texts)
  {
    FreshIsDistinct([], CleanTexts(texts));
    FreshMembers([], CleanTexts(texts), x);
    assert [] + UniqueStrings(texts) == UniqueStrings(texts);
  }

  /** Cleaning as one goes along is cleaning once at the end. */
  lemma UniqueStringsOfSum(a: seq<string>, b: seq<string>)
    ensures UniqueStrings(UniqueStrings(a) + b) == UniqueStrings(a + b)
  {
    hide CleanTexts, Fresh;
    var clean := CleanTexts(a);
    var known := UniqueStrings(a);
    forall x | x in known ensures x != "" && Trim(x) == x {
      UniqueStringsMeans(a, x);
      CleanTextsAreClean(a, x);
    }
    CleanTextsOfClean(known);
    CleanTextsOfSum(known, b);
    CleanTextsOfSum(a, b);
    FreshOfSum([], known, CleanTexts(b));
    FreshOfSum([], clean, CleanTexts(b));
    DedupTwice(clean);
  }

  lemma DedupTwice<T>(xs: seq<T>)
    ensures Dedup(Dedup(xs)) == Dedup(xs)
  {
    FreshIsDistinct([], xs);
    DistinctIsFresh([], Dedup(xs));
  }
}
