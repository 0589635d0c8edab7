/** The task orchestrator's round loop, as functions from world to world.  Each says what it may
    add to the run's log: how often the judging nodes are called, how long the log gets, and
    that its phase never becomes `Violation`. */
module RoundEngine {
  import opened Values
  import opened Checkpoints

  // ----- Words of the values the engine compares or writes -----

  function Waiting(): (v: Value)
    ensures v.Str?
  {
    Str("waiting_for_human")
  }
  function TaskFailed(): Value { Str("failed") }
  function TaskSucceeded(): Value { Str("success") }
  function LeaseLostFailure(): Value { Str("lease_lost") }
  function ResumeStatic(): Value { Str("resume_static") }
  function VerificationFailed(): Value { Str("verification_failed") }
  function DebuggerOnly(): Value { List([Str("debugger")]) }
  function MaterialBlocked(block: Block): string {
    match block
    case InspectionBlocked => "data inspection blocked"
    case IngestionBlocked => "knowledge ingestion blocked"
    case EvidenceBlocked => "static evidence blocked"
  }
  function BlockFailure(block: Block): Value {
    match block
    case InspectionBlocked => Str("data_inspection")
    case IngestionBlocked => Str("knowledge_ingestion")
    case EvidenceBlocked => Str("static_evidence")
  }
  function BlockSubStatus(block: Block): string {
    match block
    case InspectionBlocked => "结构化数据探查失败，等待人工介入"
    case IngestionBlocked => "知识构建失败，等待人工介入"
    case EvidenceBlocked => "静态取证失败，等待人工介入"
  }

  function Verdict(status: Value, subStatus: string, failure: Value, message: string): (verdict: Record)
    ensures verdict.Keys == {TerminalStatus, TerminalSubStatus, FailureType, ErrorMessage}
    ensures Get(verdict, TerminalStatus) == status && Get(verdict, FailureType) == failure
    ensures Get(verdict, ErrorMessage) == Str(message)
  {
    map[TerminalStatus := status, TerminalSubStatus := Str(subStatus), FailureType := failure,
        ErrorMessage := Str(message)]
  }

  // ----- What every piece of the flow guarantees -----

  function PhaseOf(w: World): Phase {
    Summary(w.trace).phase
  }

  /** The world of a run that may go on. */
  ghost predicate Ready(w: World) {
    Faithful(w.origin, w.trace, w.tables) && PhaseOf(w).Active?
  }

  /** `w'` continues `w`: the same start and at most `cost` entries beyond those
      the planned actions pay for. */
  ghost predicate Continues(w: World, w': World, cost: int) {
    && Faithful(w'.origin, w'.trace, w'.tables) && w'.origin == w.origin
    && Summary(w'.trace).slack >= Summary(w.trace).slack - cost
  }

  /** A piece without judging nodes that goes on, leaving the phase as it was, or stops for good. */
  ghost predicate Runs<T>(w: World, x: Step<T>, cost: int) {
    && Continues(w, x.w, cost)
    && PhaseOf(x.w) == if x.Ok? then PhaseOf(w) else Stopped(x.halt)
  }

  /** Such a piece that may also end the task: it then returns the terminal result. */
  ghost predicate MayEnd(w: World, x: Step<Option<Record>>, cost: int) {
    && Continues(w, x.w, cost)
    && PhaseOf(x.w) == (if x.Stop? then Stopped(x.halt) else if x.value.None? then PhaseOf(w) else Ended)
    && (x.Ok? && x.value.Some? ==> Get(x.value.value, TerminalStatus) == Waiting())
  }

  /** Such a piece in a task that a block check has halted. */
  ghost predicate ClosesTask<T>(w: World, x: Step<T>) {
    Continues(w, x.w, 2) && PhaseOf(x.w) == if x.Ok? then Ended else Stopped(x.halt)
  }

  ghost predicate AtRound(w: World, r: nat) {
    Ready(w) && PhaseOf(w).rounds == r < MAX_STATIC_ROUNDS
  }

  /** The auditor has spoken last. */
  ghost predicate JustAudited(w: World) {
    Ready(w) && (PhaseOf(w).progress.Audited? || PhaseOf(w).progress.Reaudited?)
  }

  /** Whether the coder ran in this round, and whether the dynamic node was asked for. */
  ghost predicate Flagged(w: World, coder: bool, dynamic: bool) {
    Ready(w) && PhaseOf(w).coded == coder && PhaseOf(w).dynamic == dynamic
  }

  /** Call a node and fold its patch into the state. */
  function Apply(env: Env, w: World, name: CallName, node: Node): (x: Step<Record>)
    requires Ready(w) && Answer(PhaseOf(w), node).Active?
    ensures Continues(w, x.w, 1)
    ensures PhaseOf(x.w) == if x.Ok? then Answer(PhaseOf(w), node) else Stopped(x.halt)
  {
    hide World.Log, RunNode, NodeEvent, Faithful, Summary, Answer, Waiting;
    var (w1, patch) :- RunNode(env, w, name, node, w.state);
    Ok(w1.Update(patch), patch)
  }

  predicate IsBlocked(w: World) {
    Truthy(Get(w.state, Blocked))
  }

  /** A block check fired. */
  function HaltAt(w: World, block: Block): (w': World)
    requires Ready(w)
    ensures Continues(w, w', 1) && PhaseOf(w') == Closing && w'.state == w.state && w'.tables == w.tables
  {
    hide World.Log, Faithful, Summary;
    w.Log(Halted(block))
  }

  /** Then the summarizer is called. */
  function SummarizeBlocked(env: Env, w: World, block: Block): (x: Step<Record>)
    requires Ready(w)
    ensures ClosesTask(w, x)
  {
    hide HaltAt, RunNode, NodeEvent, Faithful, Summary, Waiting, Note;
    var w0 := HaltAt(w, block);
    RunNode(env, w0, Once(Summarizer), Summarizer, w0.state)
  }

  /** ... and the task waits for a human. */
  function EndBlocked(env: Env, w: World, block: Block): (x: Step<Option<Record>>)
    requires Ready(w)
    ensures MayEnd(w, x, 2)
    ensures x.Ok? ==> x.value.Some? && Get(x.value.value, FailureType) == BlockFailure(block)
  {
    hide SummarizeBlocked, Faithful, Summary, Verdict, Waiting, BlockFailure, BlockSubStatus, MaterialBlocked, Text;
    var (w1, summary) :- SummarizeBlocked(env, w, block);
    var message := Text(env, Get(w1.state, BlockReason), MaterialBlocked(block));
    var verdict := Verdict(Waiting(), BlockSubStatus(block), BlockFailure(block), message);
    Ok(w1, Some(w1.state + summary + verdict))
  }

  /** End the task if the state is blocked; otherwise go on. */
  function CheckBlocked(env: Env, w: World, block: Block): (x: Step<Option<Record>>)
    requires Ready(w)
    ensures MayEnd(w, x, 2)
    ensures x.Ok? && x.value.None? ==> x.w == w
  {
    hide World.Log, EndBlocked, Faithful, Summary, Waiting;
    if IsBlocked(w) then EndBlocked(env, w, block) else Ok(w, None)
  }

  // ----- Evidence compilation and material refresh -----

  /** Compile the evidence of a source once. */
  function CompileEvidence(env: Env, w: World, source: Source): (x: Step<()>)
    requires Ready(w)
    ensures Runs(w, x, 1)
  {
    hide World.Log, RunNode, NodeEvent, Faithful, Summary, CleanTexts, Texts, FromTexts, SourceText, Waiting;
    var compiled := CleanTexts(Texts(Get(w.state, CompiledEvidenceSources)));
    if SourceText(source) in compiled || !env.hasEvidenceCompiler then Ok(w, ())
    else
      var input := w.state[EvidenceCompilerSource := Str(SourceText(source))];
      var (w1, patch) :- RunNode(env, w, CompiledFrom(source), EvidenceCompiler, input);
      Ok(w1.Update(patch)
           .Set(CompiledEvidenceSources, FromTexts(compiled + [SourceText(source)]))
           .Set(EvidenceMaterialCompiled, Bool(true))
           .Set(MaterialRefreshDone, Bool(false)), ())
  }

  function RefreshStep(env: Env, w: World, action: Action): (x: Step<Option<Record>>)
    requires Ready(w)
    ensures MayEnd(w, x, 3)
  {
    hide World.Log, Apply, CheckBlocked, EndBlocked, IsBlocked, Faithful, Summary, Waiting;
    match action
    case InspectData =>
      var (w1, _) :- Apply(env, w, Refreshed(DataInspector), DataInspector);
      CheckBlocked(env, w1, InspectionBlocked)
    case RetrieveKag =>
      var (w1, _) :- Apply(env, w, Refreshed(KagRetriever), KagRetriever);
      if IsBlocked(w1) then EndBlocked(env, w1, IngestionBlocked)
      else
        var (w2, _) :- Apply(env, w1, Refreshed(ContextBuilder), ContextBuilder);
        Ok(w2, None)
    case BuildContext =>
      var (w1, _) :- Apply(env, w, Refreshed(ContextBuilder), ContextBuilder);
      Ok(w1, None)
    case _ => Ok(w, None)
  }

  function RefreshAll(env: Env, w: World, actions: seq<Action>): (x: Step<Option<Record>>)
    requires Ready(w)
    ensures MayEnd(w, x, 3 * |actions|)
    decreases |actions|
  {
    hide World.Log, RefreshStep, Faithful, Summary, Waiting;
    if actions == [] then Ok(w, None)
    else
      var (w1, ended) :- RefreshStep(env, w, actions[0]);
      if ended.Some? then Ok(w1, ended) else RefreshAll(env, w1, actions[1..])
  }

  /** The clean action texts under a key, each once. */
  function RefreshActions(state: Record): seq<Action> {
    ActionsOf(Dedup(CleanTexts(Texts(Get(state, MaterialRefreshActions)))))
  }

  /** Send freshly compiled material through its canonical owners, once. */
  function RefreshMaterial(env: Env, w: World): (x: Step<Option<Record>>)
    requires Ready(w)
    ensures MayEnd(w, x, 2)
  {
    hide World.Log, RefreshAll, Faithful, Summary, RefreshActions, Waiting;
    var actions := RefreshActions(w.state);
    if Truthy(Get(w.state, MaterialRefreshDone)) || actions == [] then Ok(w, None)
    else
      var w0 := w.Set(MaterialRefreshDone, Bool(true)).Log(Planned(Refresh, actions));
      var (w1, ended) :- RefreshAll(env, w0, actions);
      if ended.Some? then Ok(w1, ended) else Ok(w1.Set(ForceAnalyst, Bool(true)), None)
  }

  // ----- Phase 0: the dynamic resume overlay -----

  /** What the overlay asks for; empty lists unless it resumes the static chain. */
  datatype Overlay = Overlay(resuming: bool, next: seq<Action>, skip: seq<Action>)

  /** The steps a resume may name: `analyst` and `coder`. */
  function ResumeSteps(actions: seq<Action>): seq<Action> {
    if actions == [] then []
    else (if actions[0].Analyze? || actions[0].WriteCode? then [actions[0]] else []) + ResumeSteps(actions[1..])
  }

  function StepsUnder(fields: Record, key: Key): seq<Action> {
    ResumeSteps(ActionsOf(CleanTexts(Texts(Get(fields, key)))))
  }

  function OverlayOf(v: Value): Overlay {
    var fields := AsDict(v);
    if Get(fields, Continuation) == ResumeStatic()
    then Overlay(true, StepsUnder(fields, NextStaticSteps), StepsUnder(fields, SkipStaticSteps))
    else Overlay(false, [], [])
  }

  /** On a resume, compile the dynamic evidence and refresh the material. */
  function ResumeMaterial(env: Env, w: World, overlay: Overlay): (x: Step<Option<Record>>)
    requires Ready(w)
    ensures MayEnd(w, x, 3)
  {
    hide World.Log, CompileEvidence, RefreshMaterial, Faithful, Summary, Waiting;
    if !overlay.resuming then Ok(w, None)
    else
      var (w1, _) :- CompileEvidence(env, w, FromDynamicResume);
      RefreshMaterial(env, w1)
  }

  // ----- Phase 1: data preparation -----

  function PrepStep(env: Env, w: World, action: Action, skip: seq<Action>): (x: Step<Option<Record>>)
    requires Ready(w)
    ensures MayEnd(w, x, 3)
  {
    hide World.Log, Apply, CheckBlocked, EndBlocked, IsBlocked, Faithful, Summary, Waiting;
    if action.InspectData? && action !in skip then
      var (w1, _) :- Apply(env, w, Once(DataInspector), DataInspector);
      CheckBlocked(env, w1, InspectionBlocked)
    else if action.RetrieveKag? && action !in skip then
      var (w1, _) :- Apply(env, w, Once(KagRetriever), KagRetriever);
      if IsBlocked(w1) then EndBlocked(env, w1, IngestionBlocked)
      else
        var (w2, _) :- Apply(env, w1, Once(ContextBuilder), ContextBuilder);
        Ok(w2, None)
    else Ok(w, None)
  }

  function PrepAll(env: Env, w: World, actions: seq<Action>, skip: seq<Action>): (x: Step<Option<Record>>)
    requires Ready(w)
    ensures MayEnd(w, x, 3 * |actions|)
    decreases |actions|
  {
    hide World.Log, PrepStep, Faithful, Summary, Waiting;
    if actions == [] then Ok(w, None)
    else
      var (w1, ended) :- PrepStep(env, w, actions[0], skip);
      if ended.Some? then Ok(w1, ended) else PrepAll(env, w1, actions[1..], skip)
  }

  function NextActionsOf(record: Record): seq<Action> {
    ActionsOf(Texts(Get(record, NextActions)))
  }

  /** Phases 0 and 1. */
  function Prepare(env: Env, w: World, overlay: Overlay): (x: Step<Option<Record>>)
    requires Ready(w)
    ensures MayEnd(w, x, 5)
  {
    hide World.Log, ResumeMaterial, PrepAll, Faithful, Summary, NextActionsOf, Waiting;
    var (w1, ended) :- ResumeMaterial(env, w, overlay);
    if ended.Some? then Ok(w1, ended)
    else
      var actions := NextActionsOf(w1.state);
      PrepAll(env, w1.Log(Planned(Prep, actions)), actions, overlay.skip)
  }

  // ----- Phase 2: the analyst routes the round -----

  predicate AnalystRuns(state: Record, overlay: Overlay) {
    && (!overlay.resuming || Analyze in overlay.next || Truthy(Get(state, ForceAnalyst)))
    && Analyze !in overlay.skip
  }

  function Without(actions: seq<Action>, dropped: Action): seq<Action> {
    if actions == [] then []
    else (if actions[0] != dropped then [actions[0]] else []) + Without(actions[1..], dropped)
  }

  function ActionText(action: Action): string {
    match action
    case InspectData => "data_inspector" case RetrieveKag => "kag_retriever"
    case BuildContext => "context_builder" case CollectEvidence => "static_evidence"
    case Analyze => "analyst" case WriteCode => "coder" case DynamicAction => "dynamic"
    case OtherAction(text) => text
  }

  function FromActions(actions: seq<Action>): Value {
    List(seq(|actions|, i requires 0 <= i < |actions| => Str(ActionText(actions[i]))))
  }

  /** The round's actions: the analyst's, or on a resume that skips it the overlay's. */
  function Route(env: Env, w: World, r: nat, overlay: Overlay): (x: Step<seq<Action>>)
    requires Ready(w)
    ensures Continues(w, x.w, 2)
    ensures PhaseOf(x.w) == if x.Ok? then PhaseOf(w).(dynamic := DynamicAction in x.value) else Stopped(x.halt)
    ensures x.Ok? ==> Summary(x.w.trace).slack >= Summary(w.trace).slack + 8 * |x.value| - 2
  {
    hide World.Log, Apply, Faithful, Summary, AnalystRuns, Without, FromActions, NextActionsOf, Waiting;
    if AnalystRuns(w.state, overlay) then
      var (w1, patch) :- Apply(env, w, InRound(Analyst, r, Plain), Analyst);
      var actions := NextActionsOf(patch);
      Ok(w1.Set(NextActions, FromActions(actions)).Log(Planned(Act, actions)), actions)
    else
      var actions := Without(overlay.next, Analyze);
      Ok(w.Set(NextActions, FromActions(actions)).Log(Planned(Act, actions)), actions)
  }

  // ----- Phase 3: the analyst's actions -----

  datatype Acted = Ends(result: Record) | Flags(coder: bool, dynamic: bool)

  ghost predicate Acts(w: World, x: Step<Acted>, cost: int) {
    && Continues(w, x.w, cost) && PhaseOf(w).Active?
    && PhaseOf(x.w) ==
       (if x.Stop? then Stopped(x.halt)
        else if x.value.Ends? then Ended
        else PhaseOf(w).(coded := PhaseOf(w).coded || x.value.coder))
    && (x.Ok? && x.value.Ends? ==> Get(x.value.result, TerminalStatus) == Waiting())
  }

  /** The world of a round before its audit. */
  ghost predicate Unaudited(w: World) {
    Ready(w) && PhaseOf(w).progress == Building
  }

  /** The static evidence node, if there is one; then the block check. */
  function GatherEvidence(env: Env, w: World, r: nat): (x: Step<Option<Record>>)
    requires Ready(w)
    ensures MayEnd(w, x, 3)
  {
    hide World.Log, Apply, CheckBlocked, Faithful, Summary, Waiting;
    if env.hasStaticEvidence then
      var (w1, _) :- Apply(env, w, InRound(StaticEvidence, r, Plain), StaticEvidence);
      CheckBlocked(env, w1, EvidenceBlocked)
    else CheckBlocked(env, w, EvidenceBlocked)
  }

  /** Compile static evidence and refresh the material. */
  function GatherMaterial(env: Env, w: World, r: nat): (x: Step<Option<Record>>)
    requires Ready(w)
    ensures MayEnd(w, x, 6)
  {
    hide World.Log, GatherEvidence, CompileEvidence, RefreshMaterial, Faithful, Summary, Waiting;
    var (w1, blocked) :- GatherEvidence(env, w, r);
    if blocked.Some? then Ok(w1, blocked)
    else
      var (w2, _) :- CompileEvidence(env, w1, FromStaticEvidence);
      RefreshMaterial(env, w2)
  }

  /** The flag for the dynamic node is this, unless the task ended. */
  ghost predicate SetsDynamic(x: Step<Acted>, dynamic: bool) {
    x.Ok? && x.value.Flags? ==> x.value.dynamic == dynamic
  }

  /** If the material was refreshed: the analyst again, and then the coder unless told to skip. */
  function RerouteIfRefreshed(env: Env, w: World, r: nat, skip: seq<Action>): (x: Step<Acted>)
    requires Unaudited(w)
    ensures Acts(w, x, 2)
    ensures SetsDynamic(x, false)
  {
    hide Apply, Faithful, Summary, Waiting, Truthy;
    if !Truthy(Get(w.state, ForceAnalyst)) then Ok(w, Flags(false, false))
    else
      var (w1, _) :- Apply(env, w, InRound(Analyst, r, AfterRefresh), Analyst);
      if WriteCode in skip then Ok(w1, Flags(false, false))
      else
        var (w2, _) :- Apply(env, w1, InRound(Coder, r, Plain), Coder);
        Ok(w2, Flags(true, false))
  }

  /** Collect static evidence; if its material was refreshed, re-run the analyst and the coder. */
  function EvidenceStep(env: Env, w: World, r: nat, skip: seq<Action>): (x: Step<Acted>)
    requires Unaudited(w)
    ensures Acts(w, x, 8)
    ensures SetsDynamic(x, false)
  {
    hide GatherMaterial, RerouteIfRefreshed, Faithful, Summary, Waiting;
    var (w1, ended) :- GatherMaterial(env, w, r);
    if ended.Some? then Ok(w1, Ends(ended.value)) else RerouteIfRefreshed(env, w1, r, skip)
  }

  function ActStep(env: Env, w: World, r: nat, action: Action, overlay: Overlay): (x: Step<Acted>)
    requires Unaudited(w)
    ensures Acts(w, x, 8)
    ensures SetsDynamic(x, action.DynamicAction?)
  {
    hide World.Log, EvidenceStep, Apply, Faithful, Summary, Waiting;
    if action.CollectEvidence? && action !in overlay.skip && !overlay.resuming then
      EvidenceStep(env, w, r, overlay.skip)
    else if action.WriteCode? && action !in overlay.skip then
      var (w1, _) :- Apply(env, w, InRound(Coder, r, Plain), Coder);
      Ok(w1, Flags(true, false))
    else Ok(w, Flags(false, action.DynamicAction?))
  }

  function ActAll(env: Env, w: World, r: nat, actions: seq<Action>, overlay: Overlay): (x: Step<Acted>)
    requires Unaudited(w)
    ensures Acts(w, x, 8 * |actions|)
    ensures SetsDynamic(x, DynamicAction in actions)
    decreases |actions|
  {
    hide World.Log, ActStep, Faithful, Summary, Waiting;
    if actions == [] then Ok(w, Flags(false, false))
    else
      var (w1, first) :- ActStep(env, w, r, actions[0], overlay);
      if first.Ends? then Ok(w1, first)
      else
        var (w2, rest) :- ActAll(env, w1, r, actions[1..], overlay);
        if rest.Ends? then Ok(w2, rest)
        else Ok(w2, Flags(first.coder || rest.coder, first.dynamic || rest.dynamic))
  }

  /** The plan is carried out, and the log says whether the coder ran and the dynamic node is asked for. */
  ghost predicate Routes(w: World, x: Step<Acted>) {
    && Continues(w, x.w, 3)
    && Ready(w)
    && PhaseOf(x.w) == (
         if x.Stop? then Stopped(x.halt)
         else if x.value.Ends? then Ended
         else PhaseOf(w).(coded := PhaseOf(w).coded || x.value.coder, dynamic := x.value.dynamic))
    && (x.Ok? && x.value.Ends? ==> Get(x.value.result, TerminalStatus) == Waiting())
  }

  /** Phases 2 and 3; a resume that did not run the coder runs it now, unless told to skip. */
  function RouteAndAct(env: Env, w: World, r: nat, overlay: Overlay): (x: Step<Acted>)
    requires Unaudited(w)
    ensures Routes(w, x)
  {
    hide World.Log, Route, ActAll, Apply, Faithful, Summary, Waiting;
    var (w1, actions) :- Route(env, w, r, overlay);
    var (w2, acted) :- ActAll(env, w1, r, actions, overlay);
    if acted.Flags? && overlay.resuming && Analyze !in overlay.skip && !acted.coder && WriteCode !in overlay.skip then
      var (w3, _) :- Apply(env, w2, InRound(Coder, r, Plain), Coder);
      Ok(w3, Flags(true, acted.dynamic))
    else Ok(w2, acted)
  }

  // ----- Phases 4 to 6: audit, execute, harvest -----

  ghost predicate Debuggable(w: World) {
    Ready(w) && (PhaseOf(w).progress.Audited? || PhaseOf(w).progress.Executed?)
  }

  ghost predicate Debugs<T>(w: World, x: Step<T>) {
    && Debuggable(w)
    && PhaseOf(x.w) ==
         if x.Ok? then PhaseOf(w).(progress := if PhaseOf(w).progress.Audited? then Reaudited else Rechecked)
         else Stopped(x.halt)
  }

  /** The round progressed to one of two points. */
  ghost predicate Reaches<T>(w: World, x: Step<T>, one: Progress, other: Progress) {
    && Ready(w)
    && if x.Ok? then PhaseOf(x.w) == PhaseOf(w).(progress := one) || PhaseOf(x.w) == PhaseOf(w).(progress := other)
       else PhaseOf(x.w) == Stopped(x.halt)
  }

  /** A debugger call and the audit of what it did. */
  function DebugAndAudit(env: Env, w: World, r: nat, debug: Use, audit: Use): (x: Step<()>)
    requires Debuggable(w)
    ensures Continues(w, x.w, 2) && Debugs(w, x)
  {
    hide Apply, Faithful, Summary, Waiting;
    var (w1, _) :- Apply(env, w, InRound(Debugger, r, debug), Debugger);
    var (w2, _) :- Apply(env, w1, InRound(Auditor, r, audit), Auditor);
    Ok(w2, ())
  }

  /** Audit what was built, and again after a debugging pass if the auditor asks for one. */
  function Audit(env: Env, w: World, r: nat): (x: Step<()>)
    requires Unaudited(w)
    ensures Continues(w, x.w, 3) && Reaches(w, x, Audited, Reaudited)
  {
    hide Apply, DebugAndAudit, Faithful, Summary, DebuggerOnly, Waiting;
    var (w1, audit) :- Apply(env, w, InRound(Auditor, r, Plain), Auditor);
    if Get(audit, NextActions) == DebuggerOnly() then DebugAndAudit(env, w1, r, Plain, PostDebug)
    else Ok(w1, ())
  }

  /** `executor_state.get("round_output", {})` */
  function OutputOf(patch: Record): Value {
    if RoundOutput in patch then patch[RoundOutput] else Dict(map[])
  }

  /** Execute, and once more after a debugging pass if verification failed. The value is the last
      executor's round output. */
  function Execute(env: Env, w: World, r: nat): (x: Step<Value>)
    requires JustAudited(w) && Flagged(w, true, false)
    ensures Continues(w, x.w, 4) && Reaches(w, x, Executed, Retried)
  {
    hide Apply, DebugAndAudit, Faithful, Summary, VerificationFailed, Waiting;
    var (w1, patch) :- Apply(env, w, InRound(Executor, r, Plain), Executor);
    var output := OutputOf(patch);
    if Get(AsDict(output), TerminationReason) == VerificationFailed() then
      var (w2, _) :- DebugAndAudit(env, w1, r, PostExec, PostExec);
      var (w3, second) :- Apply(env, w2, InRound(Executor, r, Retry), Executor);
      Ok(w3, OutputOf(second))
    else Ok(w1, output)
  }

  function OutputWithoutExecution(r: nat, dynamic: bool): Value {
    Dict(map[RoundIndex := Num(r), AdditionalRounds := Num(0), RequiresDynamic := Bool(dynamic)])
  }

  /** The run stopped, or is active in the same round. */
  ghost predicate GoesOn<T>(w: World, x: Step<T>) {
    && PhaseOf(w).Active?
    && if x.Ok? then PhaseOf(x.w).Active? && PhaseOf(x.w).rounds == PhaseOf(w).rounds else PhaseOf(x.w) == Stopped(x.halt)
  }

  /** Phase 5: execute only what the coder wrote in this round, and not when `dynamic` is asked for. */
  function ExecuteIfDue(env: Env, w: World, r: nat, coder: bool, dynamic: bool): (x: Step<Value>)
    requires JustAudited(w) && Flagged(w, coder, dynamic)
    ensures Continues(w, x.w, 4) && GoesOn(w, x)
  {
    hide Execute, Faithful, Summary, OutputWithoutExecution, Waiting;
    if coder && !dynamic then Execute(env, w, r) else Ok(w, OutputWithoutExecution(r, dynamic))
  }

  /** Phase 6. */
  function Harvest(env: Env, w: World, r: nat): (x: Step<()>)
    requires Ready(w)
    ensures Runs(w, x, 1)
  {
    hide Apply, Faithful, Summary, Waiting;
    var (w1, _) :- Apply(env, w, InRound(SkillHarvester, r, Plain), SkillHarvester);
    Ok(w1, ())
  }

  /** Phases 4 to 6; the value is the round output. */
  function Conclude(env: Env, w: World, r: nat, coder: bool, dynamic: bool): (x: Step<Value>)
    requires Unaudited(w) && Flagged(w, coder, dynamic)
    ensures Continues(w, x.w, 8) && GoesOn(w, x)
  {
    hide Audit, ExecuteIfDue, Harvest, Faithful, Summary, Waiting;
    var (w1, _) :- Audit(env, w, r);
    var (w2, output) :- ExecuteIfDue(env, w1, r, coder, dynamic);
    var (w3, _) :- Harvest(env, w2, r);
    Ok(w3, output)
  }

  // ----- A round, the rounds, a whole run -----

  datatype RoundEnd = Terminal(result: Record) | Output(output: Value)

  function BeginRound(w: World, r: nat): (w': World)
    requires AtRound(w, r)
    ensures Continues(w, w', 1) && PhaseOf(w') == Active(r + 1, Building, false, false)
  {
    hide World.Log, Faithful, Summary, Waiting;
    w.Set(RoundIndex, Num(r)).Log(RoundBegan(r))
  }

  ghost predicate Uncoded(w: World) {
    Ready(w) && !PhaseOf(w).coded
  }

  ghost function RoundsBegun(w: World): nat {
    if PhaseOf(w).Active? then PhaseOf(w).rounds else 0
  }

  /** Phases 2 to 6. */
  function ActAndConclude(env: Env, w: World, r: nat, overlay: Overlay): (x: Step<RoundEnd>)
    requires Unaudited(w) && Uncoded(w)
    ensures Continues(w, x.w, 11) && EndsRound(RoundsBegun(w), x)
  {
    hide RouteAndAct, Conclude, Faithful, Summary, Waiting;
    var (w1, acted) :- RouteAndAct(env, w, r, overlay);
    if acted.Ends? then Ok(w1, Terminal(acted.result))
    else
      var (w2, output) :- Conclude(env, w1, r, acted.coder, acted.dynamic);
      Ok(w2, Output(output))
  }

  /** How the round that makes `rounds` rounds leaves the log. */
  ghost predicate EndsRound(rounds: nat, x: Step<RoundEnd>) {
    if x.Stop? then PhaseOf(x.w) == Stopped(x.halt)
    else if x.value.Terminal? then PhaseOf(x.w) == Ended && Get(x.value.result, TerminalStatus) == Waiting()
    else PhaseOf(x.w).Active? && PhaseOf(x.w).rounds == rounds
  }

  function Round(env: Env, w: World, r: nat): (x: Step<RoundEnd>)
    requires AtRound(w, r)
    ensures Continues(w, x.w, 17) && EndsRound(r + 1, x)
  {
    hide BeginRound, Prepare, ActAndConclude, Faithful, Summary, OverlayOf, Waiting;
    var w0 := BeginRound(w, r);
    var overlay := OverlayOf(Get(w0.state, DynamicResumeOverlay));
    var (w1, ended) :- Prepare(env, w0, overlay);
    if ended.Some? then Ok(w1, Terminal(ended.value))
    else ActAndConclude(env, w1, r, overlay)
  }

  function NumberOf(v: Value): int {
    if v.Num? then v.n else 0
  }

  /** What follows a round that produced an output. */
  datatype Next = Return(result: Record) | Again | Finish

  /** Return, go round again, or finish; the dynamic node runs if the output asks for it. */
  function AfterRound(env: Env, w: World, output: Value): (x: Step<Next>)
    requires Ready(w)
    ensures Runs(w, x, 1)
  {
    hide Apply, Faithful, Summary, ResumeStatic, Waiting;
    var w1 := w.Set(RoundOutput, output);
    var fields := AsDict(output);
    if Truthy(Get(w1.state, TerminalStatus)) then Ok(w1, Return(w1.state))
    else if NumberOf(Get(fields, AdditionalRounds)) > 0 then Ok(w1, Again)
    else if Truthy(Get(fields, RequiresDynamic)) then
      var (w2, _) :- Apply(env, w1, Once(Dynamic), Dynamic);
      Ok(w2, if Get(w2.state, DynamicContinuation) == ResumeStatic() then Again else Finish)
    else Ok(w1, Finish)
  }

  /** How a round and what follows it leave the log. */
  ghost predicate LeavesRound(rounds: nat, x: Step<Next>) {
    if x.Stop? then PhaseOf(x.w) == Stopped(x.halt)
    else if PhaseOf(x.w).Ended? then x.value.Return? && Get(x.value.result, TerminalStatus) == Waiting()
    else PhaseOf(x.w).Active? && PhaseOf(x.w).rounds == rounds
  }

  /** What follows a round: a terminal result is folded and returned, an output decides. */
  function FollowRound(env: Env, w: World, ghost rounds: nat, end: RoundEnd): (x: Step<Next>)
    requires Faithful(w.origin, w.trace, w.tables) && EndsRound(rounds, Ok(w, end))
    ensures Continues(w, x.w, 1) && LeavesRound(rounds, x)
  {
    hide AfterRound, Faithful, Summary, Waiting;
    match end
    case Terminal(result) => Ok(w.Update(result), Return(w.state + result))
    case Output(output) => AfterRound(env, w, output)
  }

  /** One round and what follows it. */
  function RoundAndNext(env: Env, w: World, r: nat): (x: Step<Next>)
    requires AtRound(w, r)
    ensures Continues(w, x.w, 18) && LeavesRound(r + 1, x)
  {
    hide Round, FollowRound, Faithful, Summary, Waiting;
    var (w1, end) :- Round(env, w, r);
    FollowRound(env, w1, r + 1, end)
  }

  ghost predicate LeavesRounds(x: Step<Option<Record>>) {
    if x.Stop? then PhaseOf(x.w) == Stopped(x.halt)
    else if PhaseOf(x.w).Ended? then x.value.Some? && Get(x.value.value, TerminalStatus) == Waiting()
    else PhaseOf(x.w).Active? && PhaseOf(x.w).rounds <= MAX_STATIC_ROUNDS
  }

  /** The rounds from `r` on. The value is the result that ends the task, if there is one. */
  function RoundsFrom(env: Env, w: World, r: nat): (x: Step<Option<Record>>)
    requires Ready(w) && RoundsBegun(w) == r <= MAX_STATIC_ROUNDS
    ensures Continues(w, x.w, 54 - 18 * r) && LeavesRounds(x)
    decreases MAX_STATIC_ROUNDS - r
  {
    hide RoundAndNext, Faithful, Summary, Waiting;
    if r == MAX_STATIC_ROUNDS then Ok(w, None)
    else
      var (w1, next) :- RoundAndNext(env, w, r);
      match next
      case Return(result) => Ok(w1, Some(result))
      case Again => RoundsFrom(env, w1, r + 1)
      case Finish => Ok(w1, None)
  }

  /** Some output of the final response is a report of missing inputs. */
  predicate AsksForInputs(response: Value) {
    var fields := AsDict(response);
    var strategy := AsDict(Get(AsDict(Get(fields, Details)), ExecutionStrategy));
    || TrimmedText(Get(strategy, StrategyFamily)) == "input_gap_report"
    || var outputs := Get(fields, Outputs);
       outputs.List? && exists i :: 0 <= i < |outputs.items| && IsInputGap(outputs.items[i])
  }

  predicate IsInputGap(output: Value) {
    output.Dict? &&
    (|| TrimmedText(Get(output.fields, ArtifactKey)) in {"input_gap_report", "requested_inputs_json"}
     || Lower(TrimmedText(Get(output.fields, Name))) in {"input_gap_report.md", "requested_inputs.json"})
  }

  function TrimmedText(v: Value): string {
    if v.Str? then Trim(v.s) else ""
  }

  /** How a run that went through its rounds ended, and what is to be said of it. */
  datatype Ending =
    | DynamicDenied(message: string)
    | DynamicUnavailable(message: string)
    | InputsMissing
    | TaskDone
    | ExecutionFailed(message: string)

  function EndingOf(env: Env, state: Record): Ending {
    var dynamicStatus := Text(env, Get(state, DynamicStatus), "");
    var record := Get(state, ExecutionRecord);
    var succeeded := Truthy(record) && Truthy(Get(AsDict(record), Success));
    if dynamicStatus == "denied" then
      DynamicDenied(Text(env, Get(state, DynamicSummary), "dynamic swarm denied by governance policy"))
    else if dynamicStatus == "unavailable" then
      DynamicUnavailable(Text(env, Get(state, DynamicSummary), "dynamic swarm unavailable"))
    else if succeeded && AsksForInputs(Get(state, FinalResponse)) then InputsMissing
    else if succeeded then TaskDone
    else ExecutionFailed(ExecutionError(env, record))
  }

  function VerdictOn(ending: Ending): Record {
    match ending
    case DynamicDenied(message) =>
      Verdict(Waiting(), "动态任务被治理策略阻断，等待人工介入", Str("dynamic_governance"), message)
    case DynamicUnavailable(message) =>
      Verdict(TaskFailed(), "动态任务链路未能完成", Str("dynamic_runtime"), message)
    case InputsMissing =>
      Verdict(Waiting(), "已生成输入缺口报告，等待人工补充资料", Str("need_more_inputs"), "input gap report generated")
    case TaskDone => Verdict(TaskSucceeded(), "任务执行完成", Null, "")
    case ExecutionFailed(message) => Verdict(TaskFailed(), "任务执行失败", Str("executing"), message)
  }

  /** The verdict of a run that went through its rounds. */
  function FinalVerdict(env: Env, state: Record): Record {
    VerdictOn(EndingOf(env, state))
  }

  /** What an execution record says of its failure. */
  function ExecutionError(env: Env, record: Value): string {
    if !Truthy(record) then "sandbox execution result missing"
    else if ErrorText !in AsDict(record) then "sandbox execution failed"
    else if Get(AsDict(record), ErrorText).Str? then Get(AsDict(record), ErrorText).s
    else env.render(Get(AsDict(record), ErrorText))
  }

  /** How a run ends: with a result, or with an exception or crash that leaves none. */
  datatype Outcome = Concluded(result: Record) | Escaped(halt: Halt)

  datatype Run = Run(w: World, outcome: Outcome)

  function LeaseLostResult(state: Record, reason: string): Record {
    state + Verdict(TaskFailed(), "任务租约已丢失，本地执行已停止", LeaseLostFailure(), reason)
  }

  function StopOutcome(state: Record, halt: Halt): Outcome {
    if halt.LeaseLost? then Concluded(LeaseLostResult(state, halt.reason)) else Escaped(halt)
  }

  function StopRun(w: World, halt: Halt): Run {
    Run(w, StopOutcome(w.state, halt))
  }

  function StartOf(initial: Record, tables: Tables): World {
    World(initial, tables, [], tables)
  }

  lemma Begins(initial: Record, tables: Tables)
    ensures Ready(StartOf(initial, tables)) && Summary([]) == START
  {
  }

  /** The summarizer's call that closes a run which no round ended. */
  function Close(env: Env, w: World): (x: Step<Record>)
    requires Ready(w)
    ensures Runs(w, x, 1)
  {
    hide Apply, Faithful, Summary, FinalVerdict, Waiting;
    var (w1, _) :- Apply(env, w, Once(Summarizer), Summarizer);
    Ok(w1, w1.state + FinalVerdict(env, w1.state))
  }

  /** All rounds, then the closing call if no round ended the task. */
  function Proceed(env: Env, w: World): (x: Step<Record>)
    requires Ready(w) && PhaseOf(w).rounds == 0
    ensures Continues(w, x.w, 55)
    ensures if x.Stop? then PhaseOf(x.w) == Stopped(x.halt)
            else if PhaseOf(x.w).Ended? then Get(x.value, TerminalStatus) == Waiting()
            else PhaseOf(x.w).Active? && PhaseOf(x.w).rounds <= MAX_STATIC_ROUNDS
  {
    hide RoundsFrom, Close, Faithful, Summary, Waiting;
    var (w1, ended) :- RoundsFrom(env, w, 0);
    if ended.Some? then Ok(w1, ended.value) else Close(env, w1)
  }

  function FlowFrom(env: Env, w: World): Run
    requires Ready(w) && PhaseOf(w).rounds == 0
  {
    match Proceed(env, w)
    case Stop(w', halt) => StopRun(w', halt)
    case Ok(w', result) => Run(w', Concluded(result))
  }

  /** A whole run from an initial state and the tables it finds. */
  function TaskFlow(env: Env, initial: Record, tables: Tables): Run {
    Begins(initial, tables);
    FlowFrom(env, StartOf(initial, tables))
  }

  /** Every run: the log is legal and breaks no ordering rule; at most three rounds and 9, 6 and 6
      calls of auditor, debugger and executor; the log is at most eight times the planned actions
      plus 55 entries long; and its phase tells how the run ended. */
  lemma TaskFlowIsBounded(env: Env, initial: Record, tables: Tables)
    ensures var run := TaskFlow(env, initial, tables);
            && Faithful(tables, run.w.trace, run.w.tables)
            && run.w.origin == tables
            && Summary(run.w.trace).slack >= -55
            && match PhaseOf(run.w)
               case Active(rounds, _, _, _) => run.outcome.Concluded? && rounds <= MAX_STATIC_ROUNDS
               case Ended => run.outcome.Concluded? && Get(run.outcome.result, TerminalStatus) == Waiting()
               case Stopped(halt) => run == StopRun(run.w, halt)
               case _ => false
  {
    hide Proceed, Faithful, Summary, Waiting;
    Begins(initial, tables);
  }
}
