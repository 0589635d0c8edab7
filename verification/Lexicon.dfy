/** The lexicon matcher: all occurrences of all surfaces, sorted, then accepted greedily against
    everything accepted so far.  It is a leftmost-longest scan. */
module Lexicon {
  import opened Values
  import opened Sorting

  datatype Category = Entity | Temporal | Causal | Document | Dataset | Dynamic

  datatype Entry = Entry(surface: string, canonical: string, category: Category, source: string)

  /** An occurrence of an entry's normalized surface in a normalized text. */
  datatype Match = Match(start: nat, end: nat, entry: Entry)

  function Priority(c: Category): nat {
    match c
    case Entity => 0 case Temporal => 1 case Causal => 2
    case Document => 3 case Dataset => 4 case Dynamic => 5
  }

  /** The sort key's order: by start, then longest first, then by category. */
  predicate Before(a: Match, b: Match) {
    a.start < b.start ||
    (a.start == b.start &&
     (a.end > b.end || (a.end == b.end && Priority(a.entry.category) <= Priority(b.entry.category))))
  }

  lemma BeforeIsAnOrder()
    ensures TotalPreorder(Before)
  {
  }

  /** Blanks of any kind between words become single spaces. */
  function Squeeze(s: string): string {
    if s == "" then ""
    else if IsBlank(s[0]) then (if Squeeze(s[1..]) == "" || Squeeze(s[1..])[0] == ' ' then "" else " ") + Squeeze(s[1..])
    else [s[0]] + Squeeze(s[1..])
  }

  function Normalize(s: string): string {
    Squeeze(Lower(Trim(s)))
  }

  // ----- All occurrences -----

  predicate OccursAt(text: string, surface: string, end: nat) {
    surface != "" && |surface| <= end <= |text| && text[end - |surface|..end] == surface
  }

  function MatchesEndingAt(text: string, entries: seq<Entry>, end: nat): seq<Match> {
    if entries == [] then [] else MatchOf(text, entries[0], end) + MatchesEndingAt(text, entries[1..], end)
  }

  function MatchOf(text: string, entry: Entry, end: nat): seq<Match> {
    if OccursAt(text, entry.surface, end) then [Match(end - |entry.surface|, end, entry)] else []
  }

  /** What iterating the automaton over the text yields, up to and with an end position. */
  function MatchesUpTo(text: string, entries: seq<Entry>, end: nat): seq<Match> {
    (if end == 0 then [] else MatchesUpTo(text, entries, end - 1)) + MatchesEndingAt(text, entries, end)
  }

  function RawMatches(text: string, entries: seq<Entry>): seq<Match> {
    StableSort(Before, MatchesUpTo(text, entries, |text|))
  }

  // ----- Greedy acceptance -----

  predicate SameSpan(a: Match, b: Match) {
    a.start == b.start && a.end == b.end
  }

  predicate Overlaps(a: Match, b: Match) {
    !(a.end <= b.start || a.start >= b.end)
  }

  predicate Clashes(a: Match, b: Match) {
    Overlaps(a, b) && !SameSpan(a, b)
  }

  predicate ClashesWithAny(m: Match, accepted: seq<Match>) {
    exists i :: 0 <= i < |accepted| && Clashes(m, accepted[i])
  }

  function Greedy(raw: seq<Match>, accepted: seq<Match>): seq<Match>
    decreases |raw|
  {
    if raw == [] then accepted
    else Greedy(raw[1..], if ClashesWithAny(raw[0], accepted) then accepted else accepted + [raw[0]])
  }

  function MatchText(text: string, entries: seq<Entry>): seq<Match> {
    Greedy(RawMatches(Normalize(text), entries), [])
  }

  /** Iterate the automaton: append a match for every entry of every surface that ends somewhere. */
  method CollectMatches(text: string, entries: seq<Entry>) returns (raw: seq<Match>)
    ensures raw == MatchesUpTo(text, entries, |text|)
  {
    hide MatchesEndingAt;
    raw := [];
    var end := 0;
    while end <= |text|
      invariant 0 <= end <= |text| + 1
      invariant raw == if end == 0 then [] else MatchesUpTo(text, entries, end - 1)
    {
      var here := CollectMatchesEndingAt(text, entries, end);
      raw := raw + here;
      end := end + 1;
    }
  }

  method CollectMatchesEndingAt(text: string, entries: seq<Entry>, end: nat) returns (here: seq<Match>)
    requires end <= |text|
    ensures here == MatchesEndingAt(text, entries, end)
  {
    hide MatchOf;
    here := [];
    var k := 0;
    while k < |entries|
      invariant 0 <= k <= |entries|
      invariant here + MatchesEndingAt(text, entries[k..], end) == MatchesEndingAt(text, entries, end)
    {
      assert entries[k..][1..] == entries[k + 1..];
      here := here + MatchOf(text, entries[k], end);
      k := k + 1;
    }
  }

  /** The matcher as it runs: collect, sort, accept. */
  method RunMatchText(text: string, entries: seq<Entry>) returns (accepted: seq<Match>)
    ensures accepted == MatchText(text, entries)
  {
    hide MatchesUpTo, StableSort, Normalize;
    var normalized := Normalize(text);
    var raw := CollectMatches(normalized, entries);
    raw := StableSort(Before, raw);
    accepted := [];
    var i := 0;
    while i < |raw|
      invariant 0 <= i <= |raw|
      invariant Greedy(raw, []) == Greedy(raw[i..], accepted)
    {
      assert raw[i..][1..] == raw[i + 1..];
      var clash, j := false, 0;
      while j < |accepted| && !clash
        invariant 0 <= j <= |accepted|
        invariant clash <==> exists k :: 0 <= k < j && Clashes(raw[i], accepted[k])
      {
        clash := Clashes(raw[i], accepted[j]);
        j := j + 1;
      }
      assert clash <==> ClashesWithAny(raw[i], accepted);
      if !clash { accepted := accepted + [raw[i]]; }
      i := i + 1;
    }
  }

  // ----- The simple forms -----

  /** Accept against the last accepted match only. */
  function AgainstLast(raw: seq<Match>, accepted: seq<Match>): seq<Match>
    decreases |raw|
  {
    if raw == [] then accepted
    else
      var skip := accepted != [] && Clashes(raw[0], accepted[|accepted| - 1]);
      AgainstLast(raw[1..], if skip then accepted else accepted + [raw[0]])
  }

  function WithSpanOf(m: Match, raw: seq<Match>): seq<Match> {
    if raw == [] then []
    else (if SameSpan(raw[0], m) then [raw[0]] else []) + WithSpanOf(m, raw[1..])
  }

  /** The leftmost-longest scan over sorted matches: from the cursor on, take the first match and
      all that share its span, and move the cursor to its end. */
  function Scan(raw: seq<Match>, cursor: nat): seq<Match> {
    if raw == [] then []
    else if raw[0].start < cursor then Scan(raw[1..], cursor)
    else WithSpanOf(raw[0], raw) + Scan(raw[1..], raw[0].end)
  }
}
