/** Which rows evidence compilation makes of its candidates, and which of them it keeps. */
module EvidenceRows {
  import opened Evidence
  import opened EvidenceLaws
  import opened ListLaws
  import opened Values

  // ----- One candidate -----

  /** The first text that is given, be it blank. */
  function FirstGiven(texts: seq<string>): string {
    if texts == [] then "" else if texts[0] != "" then texts[0] else FirstGiven(texts[1..])
  }

  /** A number, or a text that reads as one. */
  predicate IsNumber(raw: Raw) {
    raw.Int? || raw.Float? || (raw.Text? && raw.parsed.Some?)
  }

  function RealOf(raw: Raw): real
    requires IsNumber(raw)
  {
    match raw
    case Int(n) => n as real
    case Float(x) => x
    case Text(Some(x)) => x
  }

  function RealOfAmount(amount: Amount): real {
    match amount
    case Whole(n) => n as real
    case Fractional(x) => x
  }

  predicate Integral(x: real) {
    x - x.Floor as real == 0.0
  }

  /** An amount is the number it was made of; it is whole if that was an integer, or a text of one. */
  lemma AmountMeans(raw: Raw)
    ensures NormalizeNumber(raw).Some? <==> IsNumber(raw)
    ensures IsNumber(raw) ==> RealOfAmount(NormalizeNumber(raw).value) == RealOf(raw)
    ensures IsNumber(raw) ==>
              (NormalizeNumber(raw).value.Whole? <==> raw.Int? || (raw.Text? && Integral(RealOf(raw))))
  {
  }

  lemma GivenMeans(a: string, b: string, c: string)
    ensures Or(Or(a, b), c) == FirstGiven([a, b, c]) && Or(a, b) == FirstGiven([a, b])
  {
    assert [a, b, c][1..] == [b, c] && [b, c][1..] == [c] && [c][1..] == [] && [a, b][1..] == [b] && [b][1..] == [];
    assert FirstGiven([c]) == c && FirstGiven([b]) == b;
    assert FirstGiven([b, c]) == if b != "" then b else c;
  }

  /** A candidate becomes a row exactly if it says what was measured, of whom and when, gives a number and a
      unit or a currency, and the first source that is given is not blank: a blank one is not passed over. */
  lemma RowIff(c: Candidate, meta: Meta)
    ensures BuildRow(c, meta).Some? <==>
              && HasLetter(c.entity) && HasLetter(c.metric) && HasLetter(c.period) && IsNumber(c.value)
              && (HasLetter(c.unit) || HasLetter(c.currency))
              && HasLetter(FirstGiven([c.source, c.sourceUrl, meta.ref]))
  {
    hide Trim, HasLetter, NormalizeNumber, FirstGiven, Or, Truncate;
    TrimmedHasLetters(c.entity);
    TrimmedHasLetters(c.metric);
    TrimmedHasLetters(c.period);
    TrimmedHasLetters(c.unit);
    TrimmedHasLetters(c.currency);
    TrimmedHasLetters(FirstGiven([c.source, c.sourceUrl, meta.ref]));
    GivenMeans(c.source, c.sourceUrl, meta.ref);
    AmountMeans(c.value);
  }

  /** The row keeps the candidate's texts, stripped; what the candidate does not give comes from its source. */
  lemma RowKeeps(c: Candidate, meta: Meta)
    requires BuildRow(c, meta).Some?
    ensures var row := BuildRow(c, meta).value;
            && row.entity == Trim(c.entity) && row.metric == Trim(c.metric) && row.period == Trim(c.period)
            && row.unit == Trim(c.unit) && row.currency == Trim(c.currency)
            && RealOfAmount(row.value) == RealOf(c.value)
            && row.source == Trim(FirstGiven([c.source, c.sourceUrl, meta.ref]))
            && row.sourceUrl == Trim(FirstGiven([c.sourceUrl, meta.url]))
            && row.sourceType == Trim(FirstGiven([c.sourceType, meta.sourceType]))
            && row.sourceSha == Trim(FirstGiven([c.sourceSha, meta.sha]))
            && Quoted(row.sourceQuote, Trim(FirstGiven([c.sourceQuote, meta.text])))
  {
    hide Trim, NormalizeNumber, FirstGiven, Or, Truncate;
    GivenMeans(c.source, c.sourceUrl, meta.ref);
    GivenMeans(c.sourceUrl, meta.url, "");
    GivenMeans(c.sourceType, meta.sourceType, "");
    GivenMeans(c.sourceSha, meta.sha, "");
    GivenMeans(c.sourceQuote, meta.text, "");
    AmountMeans(c.value);
    TrimTwice(FirstGiven([c.sourceQuote, meta.text]));
    QuoteMeans(Trim(FirstGiven([c.sourceQuote, meta.text])));
  }

  /** A quote of at most 280 characters: the text itself, or its beginning and three dots. */
  predicate Quoted(quote: string, text: string) {
    if |text| <= 280 then quote == text else |quote| == 280 && quote == text[..277] + "..."
  }

  lemma QuoteMeans(text: string)
    requires Trim(text) == text
    ensures Quoted(Truncate(text, QUOTE_LIMIT), text)
  {
    hide Trim;
  }

  // ----- All candidates of a source -----

  /** The rows of the candidates that can be built, in order. */
  function Built(candidates: seq<Candidate>, meta: Meta): seq<Row> {
    if candidates == [] then []
    else (if BuildRow(candidates[0], meta).Some? then [BuildRow(candidates[0], meta).value] else []) + Built(candidates[1..], meta)
  }

  function AllCandidates(payloads: seq<Payload>): seq<Candidate> {
    if payloads == [] then [] else Candidates(payloads[0]) + AllCandidates(payloads[1..])
  }

  function AllBuilt(sources: seq<Source>): seq<Row> {
    if sources == [] then [] else Built(AllCandidates(sources[0].payloads), sources[0].meta) + AllBuilt(sources[1..])
  }

  function CandidateCount(sources: seq<Source>): nat {
    if sources == [] then 0 else |AllCandidates(sources[0].payloads)| + CandidateCount(sources[1..])
  }

  lemma {:induction false} BuiltOfSum(a: seq<Candidate>, b: seq<Candidate>, meta: Meta)
    ensures Built(a + b, meta) == Built(a, meta) + Built(b, meta)
  {
    hide BuildRow;
    if a == [] {
      assert a + b == b;
    } else {
      assert (a + b)[1..] == a[1..] + b;
      BuiltOfSum(a[1..], b, meta);
    }
  }

  lemma FreshOne(known: seq<Row>, row: Row, rest: seq<Row>)
    ensures known + Fresh(known, [row] + rest) ==
            if row in known then known + Fresh(known, rest) else (known + [row]) + Fresh(known + [row], rest)
  {
    assert ([row] + rest)[1..] == rest;
    assert known + ([row] + Fresh(known + [row], rest)) == (known + [row]) + Fresh(known + [row], rest);
  }

  /** A payload that stays below the cap adds its rows that are not there yet, in order, and the others that
      cannot be built are counted. */
  lemma {:induction false} TakesAll(t: Intake, candidates: seq<Candidate>, meta: Meta, cap: nat)
    requires |t.rows + Fresh(t.rows, Built(candidates, meta))| < cap
    ensures |Built(candidates, meta)| <= |candidates|
    ensures TakeCandidates(t, candidates, meta, cap) ==
            Intake(t.rows + Fresh(t.rows, Built(candidates, meta)), t.skipped + |candidates| - |Built(candidates, meta)|, t.truncated)
    decreases |candidates|
  {
    hide BuildRow, Fresh;
    if candidates == [] {
      NothingFresh<Row>(t.rows, []);
      assert t.rows + [] == t.rows;
    } else {
      var row, rest := BuildRow(candidates[0], meta), Built(candidates[1..], meta);
      if row.None? {
        assert [] + rest == rest;
        TakesAll(t.(skipped := t.skipped + 1), candidates[1..], meta, cap);
      } else {
        FreshOne(t.rows, row.value, rest);
        if row.value in t.rows {
          TakesAll(t, candidates[1..], meta, cap);
        } else {
          TakesAll(t.(rows := t.rows + [row.value]), candidates[1..], meta, cap);
        }
      }
    }
  }

  lemma FreshInTwo(known: seq<Row>, a: seq<Row>, b: seq<Row>)
    ensures (known + Fresh(known, a)) + Fresh(known + Fresh(known, a), b) == known + Fresh(known, a + b)
    ensures |known + Fresh(known, a)| <= |known + Fresh(known, a + b)|
  {
    FreshOfSum(known, a, b);
  }

  lemma {:induction false} TakesAllPayloads(t: Intake, payloads: seq<Payload>, meta: Meta, cap: nat)
    requires var all := AllCandidates(payloads); |t.rows + Fresh(t.rows, Built(all, meta))| < cap
    ensures var all := AllCandidates(payloads);
            && |Built(all, meta)| <= |all|
            && TakePayloads(t, payloads, meta, cap) ==
               Intake(t.rows + Fresh(t.rows, Built(all, meta)), t.skipped + |all| - |Built(all, meta)|, t.truncated)
    decreases |payloads|
  {
    hide Candidates, Fresh, TakeCandidates;
    if payloads == [] {
      NothingFresh<Row>(t.rows, []);
      assert t.rows + [] == t.rows;
    } else {
      var here, rest := Candidates(payloads[0]), AllCandidates(payloads[1..]);
      BuiltOfSum(here, rest, meta);
      FreshInTwo(t.rows, Built(here, meta), Built(rest, meta));
      TakesAll(t, here, meta, cap);
      TakesAllPayloads(TakeCandidates(t, here, meta, cap), payloads[1..], meta, cap);
    }
  }

  lemma {:induction false} TakesAllSources(c: Compilation, sources: seq<Source>, cap: nat)
    requires |c.intake.rows + Fresh(c.intake.rows, AllBuilt(sources))| < cap
    ensures |AllBuilt(sources)| <= CandidateCount(sources)
    ensures HandleSources(c, sources, cap).intake ==
            Intake(c.intake.rows + Fresh(c.intake.rows, AllBuilt(sources)),
                   c.intake.skipped + CandidateCount(sources) - |AllBuilt(sources)|, c.intake.truncated)
    decreases |sources|
  {
    hide Fresh, TakePayloads, AllCandidates, Built, AddRef, HitOf, Trim;
    var t := c.intake;
    if sources == [] {
      NothingFresh<Row>(t.rows, []);
      assert t.rows + [] == t.rows;
    } else {
      var here := Built(AllCandidates(sources[0].payloads), sources[0].meta);
      FreshInTwo(t.rows, here, AllBuilt(sources[1..]));
      TakesAllPayloads(t, sources[0].payloads, sources[0].meta, cap);
      TakesAllSources(HandleSource(c, sources[0], cap), sources[1..], cap);
    }
  }

  /** If all the different rows together stay below the cap, they are all kept, each once and in the order of
      the candidates, and every candidate that is not built is counted as skipped. */
  lemma RowsAreAll(artifactRefs: seq<string>, sources: seq<Source>, maxRows: int)
    requires |Dedup(AllBuilt(sources))| < Cap(maxRows)
    ensures var patch := Compile(artifactRefs, sources, maxRows);
            && patch.rows == Dedup(AllBuilt(sources))
            && patch.skipped == CandidateCount(sources) - |AllBuilt(sources)|
            && !patch.truncated
  {
    hide HandleSources, Cap, UniqueStrings;
    assert [] + Dedup(AllBuilt(sources)) == Dedup(AllBuilt(sources));
    TakesAllSources(Start(artifactRefs), sources, Cap(maxRows));
  }

  // ----- At the cap -----

  /** Whatever the cap cuts off, a payload only adds rows built from its candidates, in their order: a prefix of
      those that are not there yet. */
  lemma {:induction false} TakesFirst(t: Intake, candidates: seq<Candidate>, meta: Meta, cap: nat)
    ensures TakeCandidates(t, candidates, meta, cap).rows <= t.rows + Fresh(t.rows, Built(candidates, meta))
    decreases |candidates|
  {
    hide BuildRow, Fresh;
    if candidates != [] {
      var row, rest := BuildRow(candidates[0], meta), Built(candidates[1..], meta);
      if row.None? {
        assert [] + rest == rest;
        TakesFirst(t.(skipped := t.skipped + 1), candidates[1..], meta, cap);
      } else {
        FreshOne(t.rows, row.value, rest);
        if row.value in t.rows {
          TakesFirst(t, candidates[1..], meta, cap);
        } else {
          TakesFirst(t.(rows := t.rows + [row.value]), candidates[1..], meta, cap);
        }
      }
    }
  }

  // ----- Hits -----

  /** A hit says, stripped, what its source says. */
  predicate HitFrom(hit: Hit, meta: Meta) {
    && hit.text == Trim(meta.text) && hit.title == Trim(meta.title) && hit.source == Trim(meta.ref)
    && hit.sourceType == Trim(meta.sourceType) && hit.url == Trim(meta.url) && hit.sha == Trim(meta.sha)
  }

  lemma {:induction false} NewHits(c: Compilation, sources: seq<Source>, cap: nat, hit: Hit)
    requires hit in HandleSources(c, sources, cap).hits && hit !in c.hits
    ensures exists source :: source in sources && HitFrom(hit, source.meta) && HasLetter(source.meta.text)
    decreases |sources|
  {
    hide TakePayloads, AddRef, Trim, HasLetter;
    var next := HandleSource(c, sources[0], cap);
    if hit in next.hits {
      TrimmedHasLetters(sources[0].meta.text);
      assert HitFrom(hit, sources[0].meta);
    } else {
      NewHits(next, sources[1..], cap, hit);
    }
  }

  /** Every hit is that of a source with text. */
  lemma HitsAreOfSources(artifactRefs: seq<string>, sources: seq<Source>, maxRows: int, hit: Hit)
    requires hit in Compile(artifactRefs, sources, maxRows).hits
    ensures exists source :: source in sources && HitFrom(hit, source.meta) && HasLetter(source.meta.text)
  {
    hide HandleSources, HitFrom;
    NewHits(Start(artifactRefs), sources, Cap(maxRows), hit);
  }
}
