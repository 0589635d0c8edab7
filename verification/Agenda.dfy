/** The task flow as a list of things to do: each step takes the first item, makes at most one call and
    puts what follows from its answer in front of the rest.  Every run of the round loop is a run of it. */
module Agenda {
  import opened Values
  import opened Checkpoints
  import opened RoundEngine

  /** What an answer is read for. */
  datatype Reading = Nothing | TakePlan(r: nat, overlay: Overlay) | DebugRequest(r: nat) | TakeOutput

  datatype Item =
    | Ask(name: CallName, node: Node, use: Reading)
    | EndIfBlocked(block: Block)
    | Compile(source: Source)
    | RefreshIfDue
    | RefreshWith(action: Action)
    | Reanalyze
    | PlanPreparation(skip: seq<Action>)
    | Prepare(action: Action, skip: seq<Action>)
    | Route(r: nat, overlay: Overlay)
    | ActOn(action: Action, r: nat, overlay: Overlay)
    | Reroute(r: nat, skip: seq<Action>)
    | Coded
    | CodeOnResume(r: nat, overlay: Overlay)
    | Execute(r: nat)
    | RepairIfFailed(r: nat)
    | FollowUp(r: nat)
    | ContinueIfResumed(r: nat)
    | Begin(r: nat)
    | Judge

  /** The world, what is left to do, and what the round has done so far. */
  datatype Config =
    | Config(w: World, todo: seq<Item>, coder: bool, dynamic: bool, output: Value)
    | Done(run: Run)

  function RefreshWithAll(actions: seq<Action>): seq<Item> {
    seq(|actions|, i requires 0 <= i < |actions| => RefreshWith(actions[i]))
  }

  function PrepareAll(actions: seq<Action>, skip: seq<Action>): seq<Item> {
    seq(|actions|, i requires 0 <= i < |actions| => Prepare(actions[i], skip))
  }

  function ActOnAll(actions: seq<Action>, r: nat, overlay: Overlay): seq<Item> {
    seq(|actions|, i requires 0 <= i < |actions| => ActOn(actions[i], r, overlay))
  }

  /** Nothing is left of earlier rounds. */
  function Between(w: World, todo: seq<Item>): Config {
    Config(w, todo, false, false, Null)
  }

  // ----- What an item leads to -----

  function RefreshItems(action: Action): seq<Item> {
    match action
    case InspectData => [Ask(CallName.Refreshed(DataInspector), DataInspector, Nothing), EndIfBlocked(InspectionBlocked)]
    case RetrieveKag =>
      [Ask(CallName.Refreshed(KagRetriever), KagRetriever, Nothing), EndIfBlocked(IngestionBlocked),
       Ask(CallName.Refreshed(ContextBuilder), ContextBuilder, Nothing)]
    case BuildContext => [Ask(CallName.Refreshed(ContextBuilder), ContextBuilder, Nothing)]
    case _ => []
  }

  function PrepareItems(action: Action): seq<Item> {
    match action
    case InspectData => [Ask(Once(DataInspector), DataInspector, Nothing), EndIfBlocked(InspectionBlocked)]
    case RetrieveKag =>
      [Ask(Once(KagRetriever), KagRetriever, Nothing), EndIfBlocked(IngestionBlocked),
       Ask(Once(ContextBuilder), ContextBuilder, Nothing)]
    case _ => []
  }

  function CodeItems(r: nat): seq<Item> {
    [Ask(InRound(Coder, r, Plain), Coder, Nothing), Coded]
  }

  function GatherItems(hasNode: bool, r: nat): seq<Item> {
    (if hasNode then [Ask(InRound(StaticEvidence, r, Plain), StaticEvidence, Nothing)] else [])
    + [EndIfBlocked(EvidenceBlocked), Compile(FromStaticEvidence), RefreshIfDue]
  }

  function EvidenceItems(hasNode: bool, r: nat, skip: seq<Action>): seq<Item> {
    GatherItems(hasNode, r) + [Reroute(r, skip)]
  }

  function ResumeItems(overlay: Overlay): seq<Item> {
    if overlay.resuming then [Compile(FromDynamicResume), RefreshIfDue] else []
  }

  /** What follows the preparation of a round, in order. */
  function RoundItems(r: nat, overlay: Overlay): seq<Item> {
    [Route(r, overlay), CodeOnResume(r, overlay), Ask(InRound(Auditor, r, Plain), Auditor, DebugRequest(r)),
     Execute(r), Ask(InRound(SkillHarvester, r, Plain), SkillHarvester, Nothing), FollowUp(r)]
  }

  function CloseItems(): seq<Item> {
    [Ask(Once(Summarizer), Summarizer, Nothing), Judge]
  }

  function NextRound(r: nat): seq<Item> {
    if r + 1 < 3 then [Begin(r + 1)] else CloseItems()
  }

  function Follow(c: Config, actions: seq<Action>, r: nat, overlay: Overlay, rest: seq<Item>): Config
    requires c.Config?
  {
    c.(w := c.w.Set(NextActions, FromActions(actions)).Log(Planned(Stage.Act, actions)),
       todo := ActOnAll(actions, r, overlay) + rest)
  }

  /** An answer was folded into the state; now it is read. */
  function Read(c: Config, use: Reading, patch: Record, rest: seq<Item>): (next: Config)
    requires c.Config?
    ensures next.Config?
  {
    match use
    case Nothing => c.(todo := rest)
    case TakePlan(r, overlay) => Follow(c, ActionsOf(Texts(Get(patch, NextActions))), r, overlay, rest)
    case DebugRequest(r) =>
      c.(todo := (if Get(patch, NextActions) == List([Str("debugger")]) then
                    [Ask(InRound(Debugger, r, Plain), Debugger, Nothing), Ask(InRound(Auditor, r, PostDebug), Auditor, Nothing)]
                  else []) + rest)
    case TakeOutput => c.(output := if RoundOutput in patch then patch[RoundOutput] else Dict(map[]), todo := rest)
  }

  function StepCall(env: Env, c: Config, name: CallName, node: Node, use: Reading, rest: seq<Item>): Config
    requires c.Config?
  {
    match RunNode(env, c.w, name, node, c.w.state)
    case Stop(w, halt) => Done(StopRun(w, halt))
    case Ok(w, patch) => Read(c.(w := w.Update(patch)), use, patch, rest)
  }

  /** A blocked task is summarized and waits for a human. */
  function StepBlocked(env: Env, c: Config, block: Block, rest: seq<Item>): Config
    requires c.Config?
  {
    if !Truthy(Get(c.w.state, Blocked)) then c.(todo := rest)
    else
      match RunNode(env, c.w.Log(Halted(block)), Once(Summarizer), Summarizer, c.w.state)
      case Stop(w, halt) => Done(StopRun(w, halt))
      case Ok(w, summary) =>
        var message := Text(env, Get(w.state, BlockReason), MaterialBlocked(block));
        var result := w.state + summary + Verdict(Waiting(), BlockSubStatus(block), BlockFailure(block), message);
        Done(Run(w.Update(result), Concluded(w.state + result)))
  }

  /** Evidence of a source is compiled once, if there is a compiler. */
  function StepCompile(env: Env, c: Config, source: Source, rest: seq<Item>): Config
    requires c.Config?
  {
    var compiled := CleanTexts(Texts(Get(c.w.state, CompiledEvidenceSources)));
    if SourceText(source) in compiled || !env.hasEvidenceCompiler then c.(todo := rest)
    else
      match RunNode(env, c.w, CompiledFrom(source), EvidenceCompiler, c.w.state[EvidenceCompilerSource := Str(SourceText(source))])
      case Stop(w, halt) => Done(StopRun(w, halt))
      case Ok(w, patch) =>
        c.(w := w.Update(patch).Set(CompiledEvidenceSources, FromTexts(compiled + [SourceText(source)]))
                 .Set(EvidenceMaterialCompiled, Bool(true)).Set(MaterialRefreshDone, Bool(false)),
           todo := rest)
  }

  function StepRefresh(c: Config, rest: seq<Item>): Config
    requires c.Config?
  {
    var actions := ActionsOf(Dedup(CleanTexts(Texts(Get(c.w.state, MaterialRefreshActions)))));
    if Truthy(Get(c.w.state, MaterialRefreshDone)) || actions == [] then c.(todo := rest)
    else
      c.(w := c.w.Set(MaterialRefreshDone, Bool(true)).Log(Planned(Stage.Refresh, actions)),
         todo := RefreshWithAll(actions) + ([Reanalyze] + rest))
  }

  function StepPlanPreparation(c: Config, skip: seq<Action>, rest: seq<Item>): Config
    requires c.Config?
  {
    var actions := ActionsOf(Texts(Get(c.w.state, NextActions)));
    c.(w := c.w.Log(Planned(Prep, actions)), todo := PrepareAll(actions, skip) + rest)
  }

  /** The analyst routes a round, unless a resume says otherwise. */
  function StepRoute(c: Config, r: nat, overlay: Overlay, rest: seq<Item>): Config
    requires c.Config?
  {
    if Analyze !in overlay.skip && (overlay.resuming ==> Analyze in overlay.next || Truthy(Get(c.w.state, ForceAnalyst))) then
      c.(todo := [Ask(InRound(Analyst, r, Plain), Analyst, TakePlan(r, overlay))] + rest)
    else Follow(c, Without(overlay.next, Analyze), r, overlay, rest)
  }

  function StepAct(env: Env, c: Config, action: Action, r: nat, overlay: Overlay, rest: seq<Item>): Config
    requires c.Config?
  {
    if action == CollectEvidence && !overlay.resuming && action !in overlay.skip then
      c.(todo := EvidenceItems(env.hasStaticEvidence, r, overlay.skip) + rest)
    else if action == WriteCode && action !in overlay.skip then c.(todo := CodeItems(r) + rest)
    else if action == DynamicAction then c.(dynamic := true, todo := rest)
    else c.(todo := rest)
  }

  /** Reanalyze material goes to the analyst once more, and then to the coder. */
  function StepReroute(c: Config, r: nat, skip: seq<Action>, rest: seq<Item>): Config
    requires c.Config?
  {
    if !Truthy(Get(c.w.state, ForceAnalyst)) then c.(todo := rest)
    else
      c.(todo := [Ask(InRound(Analyst, r, AfterRefresh), Analyst, Nothing)]
                 + ((if WriteCode in skip then [] else CodeItems(r)) + rest))
  }

  function StepCodeOnResume(c: Config, r: nat, overlay: Overlay, rest: seq<Item>): Config
    requires c.Config?
  {
    if overlay.resuming && Analyze !in overlay.skip && WriteCode !in overlay.skip && !c.coder then
      c.(todo := CodeItems(r) + rest)
    else c.(todo := rest)
  }

  /** New code is executed, unless the dynamic node is asked for. */
  function StepExecute(c: Config, r: nat, rest: seq<Item>): Config
    requires c.Config?
  {
    if c.coder && !c.dynamic then
      c.(todo := [Ask(InRound(Executor, r, Plain), Executor, TakeOutput), RepairIfFailed(r)] + rest)
    else
      c.(output := Dict(map[RoundIndex := Num(r), AdditionalRounds := Num(0), RequiresDynamic := Bool(c.dynamic)]), todo := rest)
  }

  /** A failed verification is debugged, audited and executed once more. */
  function StepRepair(c: Config, r: nat, rest: seq<Item>): Config
    requires c.Config?
  {
    if Get(AsDict(c.output), TerminationReason) != Str("verification_failed") then c.(todo := rest)
    else
      c.(todo := [Ask(InRound(Debugger, r, PostExec), Debugger, Nothing), Ask(InRound(Auditor, r, PostExec), Auditor, Nothing),
                  Ask(InRound(Executor, r, Retry), Executor, TakeOutput)] + rest)
  }

  /** After a round: return, go round again, hand over to the dynamic node, or close. */
  function StepFollowUp(c: Config, r: nat): Config
    requires c.Config?
  {
    var w, fields := c.w.Set(RoundOutput, c.output), AsDict(c.output);
    var more := Get(fields, AdditionalRounds);
    if Truthy(Get(w.state, TerminalStatus)) then Done(Run(w, Concluded(w.state)))
    else if more.Num? && more.n > 0 then Between(w, NextRound(r))
    else if Truthy(Get(fields, RequiresDynamic)) then
      Between(w, [Ask(Once(Dynamic), Dynamic, Nothing), ContinueIfResumed(r)])
    else Between(w, CloseItems())
  }

  /** A round begins, with the material of a resume if there is one. */
  function StepBegin(c: Config, r: nat): Config
    requires c.Config?
  {
    var w := c.w.Set(RoundIndex, Num(r)).Log(RoundBegan(r));
    var overlay := OverlayOf(Get(w.state, DynamicResumeOverlay));
    Between(w, ResumeItems(overlay) + ([PlanPreparation(overlay.skip)] + RoundItems(r, overlay)))
  }

  /** One step. */
  function Advance(env: Env, c: Config): Config
    requires c.Config? && c.todo != []
  {
    var rest := c.todo[1..];
    match c.todo[0]
    case Ask(name, node, use) => StepCall(env, c, name, node, use, rest)
    case EndIfBlocked(block) => StepBlocked(env, c, block, rest)
    case Compile(source) => StepCompile(env, c, source, rest)
    case RefreshIfDue => StepRefresh(c, rest)
    case RefreshWith(action) => c.(todo := RefreshItems(action) + rest)
    case Reanalyze => c.(w := c.w.Set(ForceAnalyst, Bool(true)), todo := rest)
    case PlanPreparation(skip) => StepPlanPreparation(c, skip, rest)
    case Prepare(action, skip) => c.(todo := (if action in skip then [] else PrepareItems(action)) + rest)
    case Route(r, overlay) => StepRoute(c, r, overlay, rest)
    case ActOn(action, r, overlay) => StepAct(env, c, action, r, overlay, rest)
    case Reroute(r, skip) => StepReroute(c, r, skip, rest)
    case Coded => c.(coder := true, todo := rest)
    case CodeOnResume(r, overlay) => StepCodeOnResume(c, r, overlay, rest)
    case Execute(r) => StepExecute(c, r, rest)
    case RepairIfFailed(r) => StepRepair(c, r, rest)
    case FollowUp(r) => StepFollowUp(c, r)
    case ContinueIfResumed(r) =>
      c.(todo := if Get(c.w.state, DynamicContinuation) == Str("resume_static") then NextRound(r) else CloseItems())
    case Begin(r) => StepBegin(c, r)
    case Judge => Done(Run(c.w, Concluded(c.w.state + FinalVerdict(env, c.w.state))))
  }

  /** As many steps, or until there is nothing left to do. */
  function Steps(env: Env, c: Config, n: nat): Config
    decreases n
  {
    if n == 0 || c.Done? || c.todo == [] then c else Steps(env, Advance(env, c), n - 1)
  }

  ghost predicate Leads(env: Env, c: Config, end: Config) {
    exists n: nat :: Steps(env, c, n) == end
  }

  /** The agenda of a task. */
  function Start(initial: Record, tables: Tables): Config {
    Between(World(initial, tables, [], tables), [Begin(0)])
  }
}
