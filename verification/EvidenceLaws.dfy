/** What evidence compilation promises about its rows, hits and references. */
module EvidenceLaws {
  import opened Evidence
  import opened ListLaws
  import opened Values

  // ----- Rows -----

  /** A row says what was measured, of whom and when, in which unit, and where that was read. */
  predicate WellFormed(row: Row) {
    && row.entity != "" && row.metric != "" && row.period != "" && row.source != ""
    && (row.unit != "" || row.currency != "")
    && |row.sourceQuote| <= QUOTE_LIMIT
  }

  lemma TruncateFits(text: string, limit: int)
    ensures |Truncate(text, limit)| <= if limit > 3 then limit else 3
  {
  }

  /** A text that is too long is cut so that it has the length of the limit with its three dots; a limit of
      three or less leaves the dots alone. */
  lemma TruncateMeans(text: string, limit: nat)
    ensures var cut, whole := Truncate(text, limit), Trim(text);
            if |whole| <= limit then cut == whole
            else if limit <= 3 then cut == "..."
            else |cut| == limit && cut == whole[..limit - 3] + "..."
  {
    hide Trim;
  }

  lemma BuiltRowsAreWellFormed(c: Candidate, meta: Meta)
    ensures BuildRow(c, meta).Some? ==> WellFormed(BuildRow(c, meta).value)
  {
    hide Trim;
    TruncateFits(Trim(Or(c.sourceQuote, meta.text)), QUOTE_LIMIT);
  }

  ghost predicate RowsSound(t: Intake, cap: nat) {
    Distinct(t.rows) && (forall row :: row in t.rows ==> WellFormed(row)) && (t.truncated <==> |t.rows| >= cap)
  }

  /** One payload: rows stay sound and are only added to, and the cap is overshot by one at most. */
  lemma {:induction false} TakeCandidatesIsSound(t: Intake, candidates: seq<Candidate>, meta: Meta, cap: nat)
    requires RowsSound(t, cap)
    ensures var next := TakeCandidates(t, candidates, meta, cap);
            && RowsSound(next, cap) && t.rows <= next.rows
            && (|t.rows| >= cap ==> |next.rows| <= |t.rows| + 1)
            && (|t.rows| < cap ==> |next.rows| <= cap)
    decreases |candidates|
  {
    hide BuildRow, WellFormed;
    if candidates != [] {
      var row := BuildRow(candidates[0], meta);
      BuiltRowsAreWellFormed(candidates[0], meta);
      if row.None? {
        TakeCandidatesIsSound(t.(skipped := t.skipped + 1), candidates[1..], meta, cap);
      } else if row.value in t.rows {
        TakeCandidatesIsSound(t, candidates[1..], meta, cap);
      } else if |t.rows| + 1 < cap {
        TakeCandidatesIsSound(t.(rows := t.rows + [row.value]), candidates[1..], meta, cap);
      }
    }
  }

  lemma {:induction false} TakePayloadsIsSound(t: Intake, payloads: seq<Payload>, meta: Meta, cap: nat)
    requires RowsSound(t, cap)
    ensures var next := TakePayloads(t, payloads, meta, cap);
            && RowsSound(next, cap) && t.rows <= next.rows
            && (|t.rows| >= cap ==> |next.rows| <= |t.rows| + 1)
            && (|t.rows| < cap ==> |next.rows| <= cap)
    decreases |payloads|
  {
    hide TakeCandidates, RowsSound, Candidates;
    if payloads != [] {
      TakeCandidatesIsSound(t, Candidates(payloads[0]), meta, cap);
      var next := TakeCandidates(t, Candidates(payloads[0]), meta, cap);
      if |next.rows| < cap { TakePayloadsIsSound(next, payloads[1..], meta, cap); }
    }
  }

  /** Sources after the first add at most one row each once the cap is reached. */
  lemma {:induction false} SourcesAreSound(c: Compilation, sources: seq<Source>, cap: nat)
    requires RowsSound(c.intake, cap)
    ensures var end := HandleSources(c, sources, cap);
            && RowsSound(end.intake, cap) && c.intake.rows <= end.intake.rows
            && (|c.intake.rows| < cap ==>
                  |end.intake.rows| <= cap + if |sources| > 1 then |sources| - 1 else 0)
            && (|c.intake.rows| >= cap ==> |end.intake.rows| <= |c.intake.rows| + |sources|)
    decreases |sources|
  {
    hide TakePayloads, RowsSound, AddRef;
    if sources != [] {
      TakePayloadsIsSound(c.intake, sources[0].payloads, sources[0].meta, cap);
      SourcesAreSound(HandleSource(c, sources[0], cap), sources[1..], cap);
    }
  }

  /** Accepted rows are distinct and well formed; they number at most max(1, max_rows) and one for each
      source after the first; and the patch says "truncated" exactly when the cap was reached. */
  lemma RowsAreSound(artifactRefs: seq<string>, sources: seq<Source>, maxRows: int)
    ensures var patch := Compile(artifactRefs, sources, maxRows);
            && Distinct(patch.rows)
            && (forall row :: row in patch.rows ==> WellFormed(row))
            && |patch.rows| <= Cap(maxRows) + (if |sources| > 1 then |sources| - 1 else 0)
            && (patch.truncated <==> |patch.rows| >= Cap(maxRows))
  {
    hide HandleSources, WellFormed;
    SourcesAreSound(Start(artifactRefs), sources, Cap(maxRows));
  }

  /** A candidate that becomes a row, a different one for each number. */
  function Numbered(k: nat): Candidate {
    Candidate("e", "m", "p", Int(k), "u", "", "s", "", "", "", "")
  }

  const NAMED := Meta("r", "", "", "", "", "h")

  lemma NumberedBuilds(k: nat)
    ensures BuildRow(Numbered(k), NAMED).Some? && BuildRow(Numbered(k), NAMED).value.value == Whole(k)
  {
  }

  function NumberedRow(k: nat): Row {
    NumberedBuilds(k);
    BuildRow(Numbered(k), NAMED).value
  }

  function FirstRows(n: nat): (rows: seq<Row>)
    ensures |rows| == n
  {
    seq(n, k requires 0 <= k < n => NumberedRow(k))
  }

  /** From the number `lo` up to `hi`. */
  function NumberedList(lo: nat, hi: nat): seq<Candidate>
    requires lo <= hi
  {
    seq(hi - lo, k requires 0 <= k < hi - lo => Numbered(lo + k))
  }

  lemma FirstRowsGrow(n: nat)
    ensures NumberedRow(n) !in FirstRows(n)
    ensures FirstRows(n) + [NumberedRow(n)] == FirstRows(n + 1)
    ensures BuildRow(Numbered(n), NAMED) == Some(NumberedRow(n))
  {
    hide BuildRow;
    NumberedBuilds(n);
    forall k | 0 <= k < n ensures NumberedRow(k) != NumberedRow(n) { NumberedBuilds(k); }
  }

  lemma {:induction false} FillsUp(n: nat, cap: nat)
    requires n < cap
    ensures TakeCandidates(Intake(FirstRows(n), 0, false), NumberedList(n, cap), NAMED, cap) == Intake(FirstRows(cap), 0, true)
    decreases cap - n
  {
    hide BuildRow, FirstRows, NumberedRow, Numbered;
    assert NumberedList(n, cap)[0] == Numbered(n);
    assert NumberedList(n, cap)[1..] == NumberedList(n + 1, cap);
    FirstRowsGrow(n);
    if n + 1 < cap { FillsUp(n + 1, cap); }
  }

  function OneEach(lo: nat, hi: nat): seq<Source>
    requires lo <= hi
    decreases hi - lo
  {
    if lo == hi then [] else [Source(NAMED, [Single(Numbered(lo))])] + OneEach(lo + 1, hi)
  }

  lemma {:induction false} LaterSourcesAddOne(c: Compilation, n: nat, hi: nat, cap: nat)
    requires cap <= n <= hi && c.intake == Intake(FirstRows(n), 0, true)
    ensures HandleSources(c, OneEach(n, hi), cap).intake == Intake(FirstRows(hi), 0, true)
    decreases hi - n
  {
    hide BuildRow, FirstRows, NumberedRow, Numbered, AddRef, HitOf, Trim;
    if n < hi {
      FirstRowsGrow(n);
      assert Candidates(Single(Numbered(n))) == [Numbered(n)];
      var next := HandleSource(c, OneEach(n, hi)[0], cap);
      assert next.intake == Intake(FirstRows(n + 1), 0, true);
      LaterSourcesAddOne(next, n + 1, hi, cap);
    }
  }

  /** The bound is exact: for every cap and number of sources some input reaches it. */
  lemma BoundIsReached(maxRows: int, later: nat) returns (sources: seq<Source>)
    ensures |sources| == later + 1
    ensures |Compile([], sources, maxRows).rows| == Cap(maxRows) + later
  {
    hide BuildRow, FirstRows, NumberedRow, Numbered, AddRef, HitOf, Trim, OneEach, NumberedList, Cap;
    var cap := Cap(maxRows);
    assert cap > 0 by { CapIsPositive(maxRows); }
    var first := Source(NAMED, [ListOf(NumberedList(0, cap))]);
    sources := [first] + OneEach(cap, cap + later);
    OneEachCounts(cap, cap + later);
    assert FirstRows(0) == [];
    FillsUp(0, cap);
    var c := HandleSource(Start([]), first, cap);
    assert Candidates(first.payloads[0]) == NumberedList(0, cap);
    assert c.intake == Intake(FirstRows(cap), 0, true);
    assert sources[1..] == OneEach(cap, cap + later);
    LaterSourcesAddOne(c, cap, cap + later, cap);
  }

  lemma CapIsPositive(maxRows: int)
    ensures Cap(maxRows) > 0
  {
  }

  lemma {:induction false} OneEachCounts(lo: nat, hi: nat)
    requires lo <= hi
    ensures |OneEach(lo, hi)| == hi - lo
    decreases hi - lo
  {
    if lo < hi { OneEachCounts(lo + 1, hi); }
  }

  // ----- Hits -----

  /** Each source with text gives either new rows or one hit, never both; one without gives no hit. */
  lemma SourceGivesRowsOrHit(c: Compilation, source: Source, cap: nat)
    requires RowsSound(c.intake, cap)
    ensures var next := HandleSource(c, source, cap);
            && c.intake.rows <= next.intake.rows
            && (if next.intake.rows != c.intake.rows || Trim(source.meta.text) == "" then next.hits == c.hits
                else next.hits == c.hits + [HitOf(source.meta)])
  {
    hide TakePayloads, RowsSound, AddRef, Trim;
    TakePayloadsIsSound(c.intake, source.payloads, source.meta, cap);
  }

  function WithText(sources: seq<Source>): nat {
    if sources == [] then 0 else (if Trim(sources[0].meta.text) != "" then 1 else 0) + WithText(sources[1..])
  }

  /** How many sources with text brought rows. */
  function Contributors(c: Compilation, sources: seq<Source>, cap: nat): nat
    decreases |sources|
  {
    if sources == [] then 0
    else
      var next := HandleSource(c, sources[0], cap);
      (if Trim(sources[0].meta.text) != "" && next.intake.rows != c.intake.rows then 1 else 0)
      + Contributors(next, sources[1..], cap)
  }

  lemma {:induction false} HitsAndContributors(c: Compilation, sources: seq<Source>, cap: nat)
    requires RowsSound(c.intake, cap)
    ensures |HandleSources(c, sources, cap).hits| + Contributors(c, sources, cap) == |c.hits| + WithText(sources)
    decreases |sources|
  {
    hide HandleSource, RowsSound, Trim;
    if sources != [] {
      SourceGivesRowsOrHit(c, sources[0], cap);
      SourcesAreSound(c, sources[..1], cap);
      OneSource(c, sources, cap);
      HitsAndContributors(HandleSource(c, sources[0], cap), sources[1..], cap);
    }
  }

  lemma OneSource(c: Compilation, sources: seq<Source>, cap: nat)
    requires sources != []
    ensures HandleSources(c, sources[..1], cap) == HandleSource(c, sources[0], cap)
  {
    assert sources[..1][1..] == [];
  }

  /** Every source with text is accounted for once: by its rows or by its hit. */
  lemma TextIsConserved(artifactRefs: seq<string>, sources: seq<Source>, maxRows: int)
    ensures |Compile(artifactRefs, sources, maxRows).hits| + Contributors(Start(artifactRefs), sources, Cap(maxRows))
         == WithText(sources)
  {
    HitsAndContributors(Start(artifactRefs), sources, Cap(maxRows));
  }

  lemma {:induction false} NoRowsNoContributors(c: Compilation, sources: seq<Source>, cap: nat)
    requires RowsSound(c.intake, cap) && HandleSources(c, sources, cap).intake.rows == c.intake.rows
    ensures Contributors(c, sources, cap) == 0
    decreases |sources|
  {
    hide HandleSource, RowsSound, Trim;
    if sources != [] {
      var next := HandleSource(c, sources[0], cap);
      SourcesAreSound(c, sources[..1], cap);
      OneSource(c, sources, cap);
      SourcesAreSound(next, sources[1..], cap);
      assert next.intake.rows == c.intake.rows;
      NoRowsNoContributors(next, sources[1..], cap);
    }
  }

  /** Refreshing is asked for exactly when there is something to refresh with: inspecting the data after
      new rows, rebuilding the context when there is text but no row. */
  lemma RefreshMeans(artifactRefs: seq<string>, sources: seq<Source>, maxRows: int)
    ensures var patch := Compile(artifactRefs, sources, maxRows);
            && (InspectData in patch.refresh <==> patch.rows != [])
            && (BuildContext in patch.refresh <==> patch.rows == [] && WithText(sources) > 0)
  {
    TextIsConserved(artifactRefs, sources, maxRows);
    var patch := Compile(artifactRefs, sources, maxRows);
    if patch.rows == [] {
      NoRowsNoContributors(Start(artifactRefs), sources, Cap(maxRows));
    }
  }

  // ----- References -----

  function SourceRefs(sources: seq<Source>): seq<string> {
    if sources == [] then [] else [sources[0].meta.ref] + SourceRefs(sources[1..])
  }

  lemma AddRefIsUnique(all: seq<string>, ref: string)
    ensures AddRef(UniqueStrings(all), ref) == UniqueStrings(all + [ref])
  {
    hide UniqueStrings;
    UniqueStringsOfSum(all, [ref]);
    if Trim(ref) == "" {
      BlankAddsNothing(all, ref);
    } else {
      UniqueStringsOfSum(all, [Trim(ref)]);
      SameWhenTrimmed(all, ref);
    }
  }

  lemma BlankAddsNothing(all: seq<string>, ref: string)
    requires Trim(ref) == ""
    ensures UniqueStrings(all + [ref]) == UniqueStrings(all)
  {
    CleanTextsOfSum(all, [ref]);
    assert CleanTexts([ref]) == [] + CleanTexts([]);
    assert CleanTexts(all) + [] == CleanTexts(all);
  }

  lemma SameWhenTrimmed(all: seq<string>, ref: string)
    ensures UniqueStrings(all + [Trim(ref)]) == UniqueStrings(all + [ref])
  {
    hide Trim;
    TrimTwice(ref);
    CleanTextsOfSum(all, [ref]);
    CleanTextsOfSum(all, [Trim(ref)]);
  }

  lemma {:induction false} RefsGrow(all: seq<string>, c: Compilation, sources: seq<Source>, cap: nat)
    requires c.refs == UniqueStrings(all)
    ensures HandleSources(c, sources, cap).refs == UniqueStrings(all + SourceRefs(sources))
    decreases |sources|
  {
    hide UniqueStrings, TakePayloads, AddRef, Trim;
    if sources == [] {
      assert all + [] == all;
    } else {
      var ref := sources[0].meta.ref;
      AddRefIsUnique(all, ref);
      RefsGrow(all + [ref], HandleSource(c, sources[0], cap), sources[1..], cap);
      assert (all + [ref]) + SourceRefs(sources[1..]) == all + SourceRefs(sources);
    }
  }

  /** The references are those of the artifacts and then of the sources, stripped, blanks dropped, each
      once and in the order of first mention, although they are cleaned again at every source. */
  lemma RefsAreUniqueAndOrdered(artifactRefs: seq<string>, sources: seq<Source>, maxRows: int)
    ensures var refs := Compile(artifactRefs, sources, maxRows).refs;
            && refs == UniqueStrings(artifactRefs + SourceRefs(sources))
            && Distinct(refs)
  {
    hide UniqueStrings, HandleSources;
    var all := artifactRefs + SourceRefs(sources);
    RefsGrow(artifactRefs, Start(artifactRefs), sources, Cap(maxRows));
    UniqueStringsOfSum(all, []);
    assert all + [] == all && UniqueStrings(all) + [] == UniqueStrings(all);
    UniqueStringsMeans(all, "");
  }
}
