/** The matcher's greedy acceptance refines the leftmost-longest scan, and what that means for the
    matches it returns. */
module LexiconLaws {
  import opened Values
  import opened Sorting
  import opened Lexicon

  ghost predicate Proper(ms: seq<Match>) {
    forall i :: 0 <= i < |ms| ==> ms[i].start < ms[i].end
  }

  // ----- The raw matches are exactly the occurrences -----

  lemma {:induction false} EndingAtIsAll(text: string, entries: seq<Entry>, end: nat, m: Match)
    ensures m in MatchesEndingAt(text, entries, end) <==>
            m.end == end && m.entry in entries && OccursAt(text, m.entry.surface, end)
            && m.start == end - |m.entry.surface|
  {
    if entries != [] {
      EndingAtIsAll(text, entries[1..], end, m);
      assert entries == [entries[0]] + entries[1..];
    }
  }

  lemma {:induction false} UpToIsAll(text: string, entries: seq<Entry>, end: nat, m: Match)
    ensures m in MatchesUpTo(text, entries, end) <==>
            m.end <= end && m.entry in entries && OccursAt(text, m.entry.surface, m.end)
            && m.start == m.end - |m.entry.surface|
  {
    EndingAtIsAll(text, entries, end, m);
    if end > 0 { UpToIsAll(text, entries, end - 1, m); }
  }

  /** An occurrence of an entry in a text. */
  ghost predicate Occurrence(text: string, entries: seq<Entry>, m: Match) {
    m.entry in entries && OccursAt(text, m.entry.surface, m.end) && m.start == m.end - |m.entry.surface|
  }

  /** An occurrence splits the text into what comes before it, the surface, and what comes after it. */
  lemma OccurrenceMeans(text: string, entries: seq<Entry>, m: Match)
    ensures Occurrence(text, entries, m) <==>
            && m.entry in entries && m.entry.surface != ""
            && m.start <= m.end <= |text| && text == text[..m.start] + m.entry.surface + text[m.end..]
            && m.end == m.start + |m.entry.surface|
  {
    if m.start <= m.end <= |text| {
      assert text == text[..m.start] + text[m.start..m.end] + text[m.end..];
      if text == text[..m.start] + m.entry.surface + text[m.end..] && m.end == m.start + |m.entry.surface| {
        assert text[m.start..m.end] == (text[..m.start] + m.entry.surface + text[m.end..])[m.start..m.end] == m.entry.surface;
      }
    }
  }

  lemma RawIsAllOccurrences(text: string, entries: seq<Entry>)
    ensures forall m :: m in RawMatches(text, entries) <==> Occurrence(text, entries, m)
    ensures Sorted(Before, RawMatches(text, entries)) && Proper(RawMatches(text, entries))
  {
    var all := MatchesUpTo(text, entries, |text|);
    BeforeIsAnOrder();
    SortSorts(Before, all);
    forall m ensures m in RawMatches(text, entries) <==> Occurrence(text, entries, m) {
      UpToIsAll(text, entries, |text|, m);
      assert m in RawMatches(text, entries) <==> m in multiset(RawMatches(text, entries));
    }
    forall i | 0 <= i < |RawMatches(text, entries)| ensures RawMatches(text, entries)[i].start < RawMatches(text, entries)[i].end {
      assert RawMatches(text, entries)[i] in RawMatches(text, entries);
    }
  }

  // ----- Comparing with the last accepted match is enough -----

  /** Accepted spans in order: each ends before the next begins, or is the same span. */
  ghost predicate Chain(ms: seq<Match>) {
    Proper(ms) && forall i, j :: 0 <= i < j < |ms| ==> SameSpan(ms[i], ms[j]) || ms[i].end <= ms[j].start
  }

  /** The scan so far: a chain, and everything still to come is no earlier than its last match. */
  ghost predicate Midway(raw: seq<Match>, accepted: seq<Match>) {
    && Sorted(Before, raw) && Proper(raw) && Chain(accepted)
    && (accepted != [] ==> forall i :: 0 <= i < |raw| ==> Before(accepted[|accepted| - 1], raw[i]))
  }

  lemma LastDecides(raw: seq<Match>, accepted: seq<Match>)
    requires Midway(raw, accepted) && raw != []
    ensures ClashesWithAny(raw[0], accepted) <==> accepted != [] && Clashes(raw[0], accepted[|accepted| - 1])
    ensures !ClashesWithAny(raw[0], accepted) ==> Midway(raw[1..], accepted + [raw[0]])
    ensures Midway(raw[1..], accepted)
  {
    var m, last := raw[0], |accepted| - 1;
    if accepted != [] && !Clashes(m, accepted[last]) {
      forall i | 0 <= i < |accepted| ensures SameSpan(accepted[i], m) || accepted[i].end <= m.start {
        assert i < last ==> SameSpan(accepted[i], accepted[last]) || accepted[i].end <= accepted[last].start;
      }
    }
    if accepted != [] && Clashes(m, accepted[last]) {
      assert ClashesWithAny(m, accepted);
    }
  }

  lemma {:induction false} GreedyIsAgainstLast(raw: seq<Match>, accepted: seq<Match>)
    requires Midway(raw, accepted)
    ensures Greedy(raw, accepted) == AgainstLast(raw, accepted)
    ensures Chain(Greedy(raw, accepted))
    decreases |raw|
  {
    if raw != [] {
      LastDecides(raw, accepted);
      GreedyIsAgainstLast(raw[1..], if ClashesWithAny(raw[0], accepted) then accepted else accepted + [raw[0]]);
    }
  }

  // ----- ... and that is the leftmost-longest scan -----

  lemma {:induction false} NoSpanBefore(m: Match, raw: seq<Match>)
    requires forall i :: 0 <= i < |raw| ==> !SameSpan(raw[i], m)
    ensures WithSpanOf(m, raw) == []
  {
    if raw != [] { NoSpanBefore(m, raw[1..]); }
  }

  /** How the scan goes on from its first match. */
  lemma ScanUnfolds(raw: seq<Match>, last: Match, cursor: nat)
    requires raw != []
    ensures var m, rest := raw[0], raw[1..];
            && WithSpanOf(last, raw) == (if SameSpan(m, last) then [m] else []) + WithSpanOf(last, rest)
            && Scan(raw, cursor) ==
                 (if m.start < cursor then Scan(rest, cursor) else [m] + WithSpanOf(m, rest) + Scan(rest, m.end))
  {
  }

  lemma PastTheSpan(raw: seq<Match>, last: Match)
    requires raw != [] && Sorted(Before, raw) && last.start < last.end <= raw[0].start
    ensures WithSpanOf(last, raw) == []
  {
    forall i | 0 <= i < |raw| ensures !SameSpan(raw[i], last) {
      assert i > 0 ==> Before(raw[0], raw[i]);
    }
    NoSpanBefore(last, raw);
  }

  /** What the scan past an accepted match makes of the next one: skip it, or take it. */
  lemma ScanStep(raw: seq<Match>, last: Match)
    requires raw != [] && Sorted(Before, raw) && raw[0].start < raw[0].end
    requires last.start < last.end && Before(last, raw[0])
    ensures var m, rest := raw[0], raw[1..];
            WithSpanOf(last, raw) + Scan(raw, last.end) ==
              if Clashes(m, last) then WithSpanOf(last, rest) + Scan(rest, last.end)
              else [m] + (WithSpanOf(m, rest) + Scan(rest, m.end))
  {
    hide WithSpanOf, Scan, Sorted;
    var m, rest := raw[0], raw[1..];
    ScanUnfolds(raw, last, last.end);
    if Clashes(m, last) {
      assert [] + WithSpanOf(last, rest) == WithSpanOf(last, rest);
    } else if SameSpan(m, last) {
      SameSpanSamePicks(m, last, rest);
      assert ([m] + WithSpanOf(m, rest)) + Scan(rest, m.end) == [m] + (WithSpanOf(m, rest) + Scan(rest, m.end));
    } else {
      PastTheSpan(raw, last);
      assert [m] + WithSpanOf(m, rest) + Scan(rest, m.end) == [m] + (WithSpanOf(m, rest) + Scan(rest, m.end));
      assert [] + Scan(raw, last.end) == Scan(raw, last.end);
    }
  }

  lemma {:induction false} AgainstLastScans(raw: seq<Match>, accepted: seq<Match>)
    requires Midway(raw, accepted) && accepted != []
    ensures var last := accepted[|accepted| - 1];
            AgainstLast(raw, accepted) == accepted + (WithSpanOf(last, raw) + Scan(raw, last.end))
    decreases |raw|
  {
    hide Sorted, Chain, WithSpanOf, Scan, Clashes;
    var last := accepted[|accepted| - 1];
    if raw == [] {
      NothingToScan(last);
      assert accepted + ([] + []) == accepted;
    } else {
      var m := raw[0];
      LastDecides(raw, accepted);
      ChainIsProper(accepted);
      ScanStep(raw, last);
      if Clashes(m, last) {
        AgainstLastScans(raw[1..], accepted);
      } else {
        AgainstLastScans(raw[1..], accepted + [m]);
        var more := WithSpanOf(m, raw[1..]) + Scan(raw[1..], m.end);
        assert (accepted + [m]) + more == accepted + ([m] + more);
      }
    }
  }

  lemma NothingToScan(last: Match)
    ensures WithSpanOf(last, []) == [] && Scan([], last.end) == []
  {
  }

  lemma ChainIsProper(ms: seq<Match>)
    requires Chain(ms) && ms != []
    ensures ms[|ms| - 1].start < ms[|ms| - 1].end
  {
  }

  lemma {:induction false} SameSpanSamePicks(a: Match, b: Match, raw: seq<Match>)
    requires SameSpan(a, b)
    ensures WithSpanOf(a, raw) == WithSpanOf(b, raw)
  {
    if raw != [] { SameSpanSamePicks(a, b, raw[1..]); }
  }

  lemma EmptyChain()
    ensures Chain([]) && Scan([], 0) == AgainstLast([], []) == []
  {
  }

  lemma ScanFromStart(raw: seq<Match>)
    requires raw != []
    ensures Scan(raw, 0) == [raw[0]] + (WithSpanOf(raw[0], raw[1..]) + Scan(raw[1..], raw[0].end))
    ensures AgainstLast(raw, []) == AgainstLast(raw[1..], [raw[0]])
  {
    hide WithSpanOf, Scan;
    var m, rest := raw[0], raw[1..];
    ScanUnfolds(raw, m, 0);
    assert [m] + WithSpanOf(m, rest) + Scan(rest, m.end) == [m] + (WithSpanOf(m, rest) + Scan(rest, m.end));
    assert [] + [m] == [m];
  }

  /** The matcher is the leftmost-longest scan of the sorted occurrences. */
  lemma MatcherScans(text: string, entries: seq<Entry>)
    ensures var raw := RawMatches(Normalize(text), entries);
            && MatchText(text, entries) == Scan(raw, 0)
            && MatchText(text, entries) == AgainstLast(raw, [])
            && Chain(MatchText(text, entries))
  {
    hide Sorted, Proper, Chain, Scan, WithSpanOf, AgainstLast, RawMatches, Normalize, ClashesWithAny, Greedy;
    var raw := RawMatches(Normalize(text), entries);
    RawIsAllOccurrences(Normalize(text), entries);
    EmptyChain();
    GreedyIsAgainstLast(raw, []);
    if raw != [] {
      LastDecides(raw, []);
      assert [] + [raw[0]] == [raw[0]];
      AgainstLastScans(raw[1..], [raw[0]]);
      ScanFromStart(raw);
    }
  }

  // ----- What the matches are -----

  /** Every occurrence is accepted, or clashes with an accepted one that comes first. */
  lemma {:induction false} RejectedClashes(raw: seq<Match>, accepted: seq<Match>, m: Match)
    requires Sorted(Before, raw) && Proper(raw)
    requires forall i, j :: 0 <= i < |accepted| && 0 <= j < |raw| ==> Before(accepted[i], raw[j])
    requires m in raw
    ensures m in Greedy(raw, accepted) || exists a :: a in Greedy(raw, accepted) && Clashes(m, a) && Before(a, m)
    decreases |raw|
  {
    var next := if ClashesWithAny(raw[0], accepted) then accepted else accepted + [raw[0]];
    GreedyKeepsAccepted(raw[1..], next);
    if m == raw[0] {
      if ClashesWithAny(m, accepted) {
        var i :| 0 <= i < |accepted| && Clashes(m, accepted[i]);
        assert accepted[i] in next;
      } else {
        assert m in next;
      }
    } else {
      assert m in raw[1..];
      RejectedClashes(raw[1..], next, m);
    }
  }

  lemma {:induction false} GreedyKeepsAccepted(raw: seq<Match>, accepted: seq<Match>)
    ensures forall a :: a in accepted ==> a in Greedy(raw, accepted)
    ensures forall a :: a in Greedy(raw, accepted) ==> a in accepted || a in raw
    decreases |raw|
  {
    if raw != [] {
      GreedyKeepsAccepted(raw[1..], if ClashesWithAny(raw[0], accepted) then accepted else accepted + [raw[0]]);
    }
  }

  lemma ChainMembers(ms: seq<Match>, a: Match, b: Match)
    requires Chain(ms) && a in ms && b in ms
    ensures !Clashes(a, b)
  {
    var i :| 0 <= i < |ms| && ms[i] == a;
    var j :| 0 <= j < |ms| && ms[j] == b;
    if i < j { assert SameSpan(ms[i], ms[j]) || ms[i].end <= ms[j].start; }
    if j < i { assert SameSpan(ms[j], ms[i]) || ms[j].end <= ms[i].start; }
  }

  /** For every text and lexicon: only occurrences are returned; two returned spans are identical or
      disjoint; an occurrence that is not returned overlaps a returned span that starts no later (and
      is longer if it starts at the same place); and all entries of a returned span are returned. */
  lemma MatchesAreLeftmostLongest(text: string, entries: seq<Entry>)
    ensures var found, all := MatchText(text, entries), Normalize(text);
            && (forall m :: m in found ==> Occurrence(all, entries, m))
            && (forall a, b :: a in found && b in found ==> SameSpan(a, b) || !Overlaps(a, b))
            && (forall m :: Occurrence(all, entries, m) && m !in found ==>
                  exists a :: a in found && Overlaps(m, a) && (a.start < m.start || (a.start == m.start && a.end > m.end)))
            && (forall m, a :: Occurrence(all, entries, m) && a in found && SameSpan(m, a) ==> m in found)
  {
    var found, all := MatchText(text, entries), Normalize(text);
    var raw := RawMatches(all, entries);
    RawIsAllOccurrences(all, entries);
    MatcherScans(text, entries);
    GreedyKeepsAccepted(raw, []);
    forall a, b | a in found && b in found ensures SameSpan(a, b) || !Overlaps(a, b) {
      ChainMembers(found, a, b);
    }
    forall m | Occurrence(all, entries, m) && m !in found
      ensures exists a :: a in found && Overlaps(m, a) && (a.start < m.start || (a.start == m.start && a.end > m.end))
    {
      RejectedClashes(raw, [], m);
    }
    forall m, a | Occurrence(all, entries, m) && a in found && SameSpan(m, a) ensures m in found {
      forall b | b in found ensures !Clashes(m, b) { ChainMembers(found, a, b); }
      RejectedClashes(raw, [], m);
    }
  }

  // ----- In which order -----

  /** The categories in the order in which they are preferred. */
  const CATEGORIES: seq<Category> := [Entity, Temporal, Causal, Document, Dataset, Dynamic]

  predicate ComesBefore(a: Category, b: Category) {
    exists i, j :: 0 <= i < j < |CATEGORIES| && CATEGORIES[i] == a && CATEGORIES[j] == b
  }

  lemma PriorityMeans(a: Category, b: Category)
    ensures Priority(a) < Priority(b) <==> ComesBefore(a, b)
    ensures Priority(a) == Priority(b) <==> a == b
  {
    PriorityIsPosition(a);
    PriorityIsPosition(b);
    if Priority(a) < Priority(b) { assert CATEGORIES[Priority(a)] == a && CATEGORIES[Priority(b)] == b; }
    if i, j :| 0 <= i < j < |CATEGORIES| && CATEGORIES[i] == a && CATEGORIES[j] == b {
      PriorityAt(i);
      PriorityAt(j);
    }
  }

  lemma PriorityIsPosition(a: Category)
    ensures Priority(a) < 6 && CATEGORIES[Priority(a)] == a
  {
  }

  lemma PriorityAt(i: nat)
    requires i < 6
    ensures Priority(CATEGORIES[i]) == i
  {
  }

  /** The matches are returned by their starts; those of one span by category, in that order. */
  lemma MatchesAreInOrder(text: string, entries: seq<Entry>, i: nat, j: nat)
    requires i < j < |MatchText(text, entries)|
    ensures var a, b := MatchText(text, entries)[i], MatchText(text, entries)[j];
            a.end <= b.start || (SameSpan(a, b) && !ComesBefore(b.entry.category, a.entry.category))
  {
    hide Normalize, RawMatches, Greedy, ComesBefore;
    var raw := RawMatches(Normalize(text), entries);
    RawIsAllOccurrences(Normalize(text), entries);
    MatcherScans(text, entries);
    BeforeIsAnOrder();
    GreedyIsSorted(raw, []);
    var a, b := MatchText(text, entries)[i], MatchText(text, entries)[j];
    assert Before(a, b);
    PriorityMeans(b.entry.category, a.entry.category);
  }

  lemma {:induction false} GreedyIsSorted(raw: seq<Match>, accepted: seq<Match>)
    requires Sorted(Before, accepted + raw)
    ensures Sorted(Before, Greedy(raw, accepted))
    decreases |raw|
  {
    hide ClashesWithAny, Before;
    if raw == [] {
      assert accepted + [] == accepted;
    } else {
      assert (accepted + [raw[0]]) + raw[1..] == accepted + raw;
      if ClashesWithAny(raw[0], accepted) {
        WithoutOne(accepted, raw);
        GreedyIsSorted(raw[1..], accepted);
      } else {
        GreedyIsSorted(raw[1..], accepted + [raw[0]]);
      }
    }
  }

  lemma WithoutOne(accepted: seq<Match>, raw: seq<Match>)
    requires raw != [] && Sorted(Before, accepted + raw)
    ensures Sorted(Before, accepted + raw[1..])
  {
    hide Before;
    var all, less, n := accepted + raw, accepted + raw[1..], |accepted|;
    forall i, j | 0 <= i < j < |less| ensures Before(less[i], less[j]) {
      assert less[i] == all[if i < n then i else i + 1] && less[j] == all[if j < n then j else j + 1];
    }
  }
}
