/** JSON-like values as the task state, node patches and checkpoints hold them, and the
    small text and list helpers that several components share. */
module Values {

  datatype Option<+T> = None | Some(value: T)

  /** The keys that the engine reads or writes, each named after its text, and any other key. */
  datatype Key =
    | TaskId | LeaseOwnerId | RoundIndex | NextActions | Blocked | BlockReason
    | CompiledEvidenceSources | EvidenceCompilerSource | EvidenceMaterialCompiled
    | MaterialRefreshActions | MaterialRefreshDone | ForceAnalyst
    | DynamicResumeOverlay | Continuation | NextStaticSteps | SkipStaticSteps
    | DynamicContinuation | DynamicStatus | DynamicSummary
    | RoundOutput | TerminationReason | AdditionalRounds | RequiresDynamic
    | ExecutionRecord | Success | ErrorText | FinalResponse | Details | ExecutionStrategy
    | StrategyFamily | Outputs | ArtifactKey | Name
    | TerminalStatus | TerminalSubStatus | FailureType | ErrorMessage
    | Other(text: string)

  datatype Value =
    | Null
    | Bool(b: bool)
    | Num(n: int)
    | Str(s: string)
    | List(items: seq<Value>)
    | Dict(fields: map<Key, Value>)

  /** A task state, and equally a patch that a node returns. */
  type Record = map<Key, Value>

  function Get(r: Record, key: Key): Value {
    if key in r then r[key] else Null
  }

  /** Python truth of a value. */
  predicate Truthy(v: Value) {
    match v
    case Null => false
    case Bool(b) => b
    case Num(n) => n != 0
    case Str(s) => s != ""
    case List(items) => items != []
    case Dict(fields) => fields != map[]
  }

  /** `dict(x or {})` for a value that is a mapping or absent. */
  function AsDict(v: Value): Record {
    if v.Dict? then v.fields else map[]
  }

  /** The text items of a list value; other values hold no texts. */
  function Texts(v: Value): seq<string> {
    if v.List? then TextItems(v.items) else []
  }

  function TextItems(items: seq<Value>): seq<string> {
    if items == [] then []
    else (if items[0].Str? then [items[0].s] else []) + TextItems(items[1..])
  }

  function FromTexts(texts: seq<string>): Value {
    List(seq(|texts|, i requires 0 <= i < |texts| => Str(texts[i])))
  }

  predicate IsBlank(c: char) {
    c == ' ' || c == '\t' || c == '\n' || c == '\r'
  }

  function TrimLeft(s: string): string {
    if s != "" && IsBlank(s[0]) then TrimLeft(s[1..]) else s
  }

  function TrimRight(s: string): string {
    if s != "" && IsBlank(s[|s| - 1]) then TrimRight(s[..|s| - 1]) else s
  }

  /** `str.strip` */
  function Trim(s: string): string {
    TrimRight(TrimLeft(s))
  }

  function LowerChar(c: char): char {
    if 'A' <= c <= 'Z' then c - 'A' + 'a' else c
  }

  function Lower(s: string): string {
    seq(|s|, i requires 0 <= i < |s| => LowerChar(s[i]))
  }

  /** Stripped texts of a list, blanks dropped: `[str(x).strip() for x in xs if str(x).strip()]`. */
  function CleanTexts(texts: seq<string>): seq<string> {
    if texts == [] then []
    else (if Trim(texts[0]) != "" then [Trim(texts[0])] else []) + CleanTexts(texts[1..])
  }

  ghost predicate Distinct<T>(xs: seq<T>) {
    forall i, j :: 0 <= i < j < |xs| ==> xs[i] != xs[j]
  }

  /** The items of `incoming`, each the first time it appears and only if `known` lacks it. */
  function Fresh<T(==)>(known: seq<T>, incoming: seq<T>): seq<T>
    decreases |incoming|
  {
    if incoming == [] then []
    else if incoming[0] in known then Fresh(known, incoming[1..])
    else [incoming[0]] + Fresh(known + [incoming[0]], incoming[1..])
  }

  /** `list(dict.fromkeys(xs))` */
  function Dedup<T(==)>(xs: seq<T>): seq<T> {
    Fresh([], xs)
  }
}
