/** Compiling evidence: each source's candidates become dataset rows, up to a cap, and a source that
    contributes no row becomes a knowledge hit. */
module Evidence {
  import opened ListLaws
  import opened Values

  /** A raw number: a bool is not one, and a text counts as the float that it reads as. */
  datatype Raw = Absent | Flag(b: bool) | Int(n: int) | Float(x: real) | Text(parsed: Option<real>)

  datatype Amount = Whole(n: int) | Fractional(x: real)

  datatype Candidate = Candidate(
    entity: string, metric: string, period: string, value: Raw, unit: string, currency: string,
    source: string, sourceUrl: string, sourceType: string, sourceQuote: string, sourceSha: string)

  datatype Payload = ListOf(rows: seq<Candidate>) | Items(items: seq<Candidate>) | Single(row: Candidate) | NoRows

  datatype Meta = Meta(ref: string, title: string, text: string, url: string, sourceType: string, sha: string)

  datatype Source = Source(meta: Meta, payloads: seq<Payload>)

  datatype Row = Row(
    entity: string, metric: string, period: string, value: Amount, unit: string, currency: string,
    source: string, sourceUrl: string, sourceType: string, sourceQuote: string, sourceSha: string)

  datatype Hit = Hit(text: string, title: string, source: string, sourceType: string, url: string, sha: string)

  const QUOTE_LIMIT := 280

  function Or(a: string, b: string): string {
    if a != "" then a else b
  }

  function Truncate(text: string, limit: int): string {
    var normalized := Trim(text);
    if |normalized| <= limit then normalized
    else normalized[..if limit - 3 > 0 then limit - 3 else 0] + "..."
  }

  function NormalizeNumber(raw: Raw): Option<Amount> {
    match raw
    case Absent | Flag(_) => None
    case Int(n) => Some(Whole(n))
    case Float(x) => Some(Fractional(x))
    case Text(None) => None
    case Text(Some(x)) => Some(if x.Floor as real == x then Whole(x.Floor) else Fractional(x))
  }

  function Candidates(payload: Payload): seq<Candidate> {
    match payload
    case ListOf(rows) => rows
    case Items(items) => items
    case Single(row) => [row]
    case NoRows => []
  }

  function BuildRow(c: Candidate, meta: Meta): Option<Row> {
    var entity, metric, period, value := Trim(c.entity), Trim(c.metric), Trim(c.period), NormalizeNumber(c.value);
    var unit, currency := Trim(c.unit), Trim(c.currency);
    var source := Trim(Or(Or(c.source, c.sourceUrl), meta.ref));
    if entity == "" || metric == "" || period == "" || value.None? then None
    else if unit == "" && currency == "" then None
    else if source == "" then None
    else
      Some(Row(entity, metric, period, value.value, unit, currency, source,
               Trim(Or(c.sourceUrl, meta.url)), Trim(Or(c.sourceType, meta.sourceType)),
               Truncate(Trim(Or(c.sourceQuote, meta.text)), QUOTE_LIMIT), Trim(Or(c.sourceSha, meta.sha))))
  }

  // ----- One source -----

  datatype Intake = Intake(rows: seq<Row>, skipped: nat, truncated: bool)

  function Cap(maxRows: int): nat {
    if maxRows > 1 then maxRows else 1
  }

  /** The inner loop: it stops right after the row that reaches the cap. */
  function TakeCandidates(t: Intake, candidates: seq<Candidate>, meta: Meta, cap: nat): Intake
    decreases |candidates|
  {
    if candidates == [] then t
    else
      var row := BuildRow(candidates[0], meta);
      if row.None? then TakeCandidates(t.(skipped := t.skipped + 1), candidates[1..], meta, cap)
      else if row.value in t.rows then TakeCandidates(t, candidates[1..], meta, cap)
      else if |t.rows| + 1 >= cap then t.(rows := t.rows + [row.value], truncated := true)
      else TakeCandidates(t.(rows := t.rows + [row.value]), candidates[1..], meta, cap)
  }

  /** The outer loop: it looks at the cap only after a payload, so the first payload is always read. */
  function TakePayloads(t: Intake, payloads: seq<Payload>, meta: Meta, cap: nat): Intake
    decreases |payloads|
  {
    if payloads == [] then t
    else
      var next := TakeCandidates(t, Candidates(payloads[0]), meta, cap);
      if |next.rows| >= cap then next else TakePayloads(next, payloads[1..], meta, cap)
  }

  function HitOf(meta: Meta): Hit {
    Hit(Trim(meta.text), Trim(meta.title), Trim(meta.ref), Trim(meta.sourceType), Trim(meta.url), Trim(meta.sha))
  }

  datatype Compilation = Compilation(refs: seq<string>, hits: seq<Hit>, intake: Intake)

  function AddRef(refs: seq<string>, ref: string): seq<string> {
    if Trim(ref) == "" then refs else UniqueStrings(refs + [Trim(ref)])
  }

  function HandleSource(c: Compilation, source: Source, cap: nat): Compilation {
    var intake := TakePayloads(c.intake, source.payloads, source.meta, cap);
    var accepted := |intake.rows| > |c.intake.rows|;
    Compilation(AddRef(c.refs, source.meta.ref),
                if accepted || Trim(source.meta.text) == "" then c.hits else c.hits + [HitOf(source.meta)],
                intake)
  }

  function HandleSources(c: Compilation, sources: seq<Source>, cap: nat): Compilation
    decreases |sources|
  {
    if sources == [] then c else HandleSources(HandleSource(c, sources[0], cap), sources[1..], cap)
  }

  datatype Refresh = InspectData | BuildContext

  datatype Patch = Patch(rows: seq<Row>, hits: seq<Hit>, refs: seq<string>, refresh: seq<Refresh>, skipped: nat, truncated: bool)

  function Start(artifactRefs: seq<string>): Compilation {
    Compilation(UniqueStrings(artifactRefs), [], Intake([], 0, false))
  }

  function Compile(artifactRefs: seq<string>, sources: seq<Source>, maxRows: int): Patch {
    var c := HandleSources(Start(artifactRefs), sources, Cap(maxRows));
    Patch(c.intake.rows, c.hits, UniqueStrings(c.refs),
          if c.intake.rows != [] then [InspectData] else if c.hits != [] then [BuildContext] else [],
          c.intake.skipped, c.intake.truncated)
  }

  /** The state that the compiler updates source by source. */
  class Compiler {
    var refs: seq<string>
    var hits: seq<Hit>
    var rows: seq<Row>
    var skipped: nat
    var truncated: bool
    const cap: nat

    constructor (artifactRefs: seq<string>, maxRows: int)
      ensures State() == Start(artifactRefs) && cap == Cap(maxRows)
    {
      refs, hits, rows, skipped, truncated := UniqueStrings(artifactRefs), [], [], 0, false;
      cap := Cap(maxRows);
    }

    ghost function State(): Compilation
      reads this
    {
      Compilation(refs, hits, Intake(rows, skipped, truncated))
    }

    method Take(payload: Payload, meta: Meta) returns (accepted: bool)
      modifies this`rows, this`skipped, this`truncated
      ensures Intake(rows, skipped, truncated) ==
              TakeCandidates(old(Intake(rows, skipped, truncated)), Candidates(payload), meta, cap)
      ensures accepted <==> |rows| > |old(rows)|
      ensures |rows| >= |old(rows)|
    {
      hide BuildRow;
      accepted := false;
      var candidates := Candidates(payload);
      ghost var goal := TakeCandidates(Intake(rows, skipped, truncated), candidates, meta, cap);
      var i := 0;
      while i < |candidates|
        invariant 0 <= i <= |candidates|
        invariant TakeCandidates(Intake(rows, skipped, truncated), candidates[i..], meta, cap) == goal
        invariant |rows| >= |old(rows)| && (accepted <==> |rows| > |old(rows)|)
      {
        var row := BuildRow(candidates[i], meta);
        assert candidates[i..][1..] == candidates[i + 1..];
        i := i + 1;
        if row.None? {
          skipped := skipped + 1;
        } else if row.value !in rows {
          rows := rows + [row.value];
          accepted := true;
          if |rows| >= cap {
            truncated := true;
            return;
          }
        }
      }
    }

    method Handle(source: Source)
      modifies this
      ensures State() == HandleSource(old(State()), source, cap)
    {
      hide TakeCandidates, UniqueStrings, Candidates, Trim;
      if Trim(source.meta.ref) != "" { refs := UniqueStrings(refs + [Trim(source.meta.ref)]); }
      var acceptedHere := false;
      ghost var goal := TakePayloads(Intake(rows, skipped, truncated), source.payloads, source.meta, cap);
      var i := 0;
      while i < |source.payloads|
        invariant 0 <= i <= |source.payloads|
        invariant TakePayloads(Intake(rows, skipped, truncated), source.payloads[i..], source.meta, cap) == goal
        invariant |rows| >= |old(rows)| && (acceptedHere <==> |rows| > |old(rows)|)
        invariant hits == old(hits) && refs == AddRef(old(refs), source.meta.ref)
      {
        assert source.payloads[i..][1..] == source.payloads[i + 1..];
        var accepted := Take(source.payloads[i], source.meta);
        acceptedHere := acceptedHere || accepted;
        if |rows| >= cap { break; }
        i := i + 1;
      }
      assert Intake(rows, skipped, truncated) == goal;
      if acceptedHere { return; }
      if Trim(source.meta.text) == "" { return; }
      hits := hits + [HitOf(source.meta)];
    }
  }

  method CompileExternalEvidence(artifactRefs: seq<string>, sources: seq<Source>, maxRows: int) returns (patch: Patch)
    ensures patch == Compile(artifactRefs, sources, maxRows)
  {
    hide HandleSource, UniqueStrings, Cap;
    var compiler := new Compiler(artifactRefs, maxRows);
    var i := 0;
    while i < |sources|
      invariant 0 <= i <= |sources| && compiler.cap == Cap(maxRows)
      invariant HandleSources(compiler.State(), sources[i..], Cap(maxRows)) ==
                HandleSources(Start(artifactRefs), sources, Cap(maxRows))
    {
      assert sources[i..][1..] == sources[i + 1..];
      compiler.Handle(sources[i]);
      i := i + 1;
    }
    var refresh := [];
    if compiler.rows != [] {
      refresh := [InspectData];
    } else if compiler.hits != [] {
      refresh := [BuildContext];
    }
    patch := Patch(compiler.rows, compiler.hits, UniqueStrings(compiler.refs), refresh, compiler.skipped, compiler.truncated);
  }
}
