/** The orchestrator as it runs: one state that the nodes' patches are folded into in place, a
    checkpoint table in memory, and the store it is saved to.  Every method does exactly what the
    functions of `RoundEngine` say, so what is proved about those holds of the running engine. */
module TaskEngine {
  import opened Values
  import opened Checkpoints
  import opened CheckpointLaws
  import opened RoundEngine

  /** A method's answer: a value, or why the run stopped. */
  datatype Reply<+T> = Fine(value: T) | Stops(halt: Halt) {
    predicate IsFailure() { Stops? }
    function PropagateFailure<U>(): Reply<U> requires Stops? { Stops(halt) }
    function Extract(): T requires Fine? { value }
  }

  function ReplyOf<T>(x: Step<T>): Reply<T> {
    match x
    case Ok(_, value) => Fine(value)
    case Stop(_, halt) => Stops(halt)
  }

  class Engine {
    const env: Env
    var state: Record
    var mem: Option<Table>
    var store: Option<Table>
    var clock: nat
    ghost var trace: seq<Event>
    ghost var origin: Tables

    ghost function Now(): World
      reads this
    {
      World(state, Tables(mem, store), trace, origin)
    }

    /** The run may go on. */
    ghost predicate Going()
      reads this
    {
      clock == |trace| && Ready(Now())
    }

    /** A process that starts on a task: the initial state, and the tables it finds. */
    constructor (env: Env, initial: Record, mem: Option<Table>, store: Option<Table>)
      ensures this.env == env && Now() == StartOf(initial, Tables(mem, store)) && Going()
    {
      this.env, this.state, this.mem, this.store, this.clock := env, initial, mem, store, 0;
      this.trace, this.origin := [], Tables(mem, store);
      new;
      Begins(initial, Tables(mem, store));
    }

    /** Append to the run's log; ghost but for the ordinal. */
    method Append(ghost e: Event)
      modifies this`trace, this`clock
      ensures trace == old(trace) + [e] && clock == old(clock) + 1
      ensures !e.Call? ==> Now() == old(Now()).Log(e)
    {
      trace := trace + [e];
      clock := clock + 1;
    }

    method RunCheckpointedNode(name: CallName, node: Node, input: Record) returns (r: Reply<Record>)
      requires clock == |trace|
      modifies this
      ensures clock == |trace|
      ensures var x := RunNode(env, old(Now()), name, node, input); Now() == x.w && r == ReplyOf(x)
    {
      hide RunNode, LeaseProblem, Begin, Fail, Complete;
      ghost var e := NodeEvent(env, clock, mem, name, node, input, state);
      CallMeans(env, Now(), name, node, input);
      var startSaved, endSaved, cut := env.startSaved(clock), env.endSaved(clock), env.cut(clock);
      var problem := LeaseProblem(env, clock, input);
      if problem.Some? {
        Append(e);
        return Stops(problem.value);
      }
      if cut.BeforeStart? {
        Append(e);
        return Stops(Crashed);
      }
      if mem.Some? && name in mem.value {
        var checkpoint := mem.value[name];
        if checkpoint.status.Completed? && checkpoint.patch != map[] {
          Append(e);
          return Fine(checkpoint.patch);
        }
      }
      RecordStart(name, !cut.BeforeStartSave? && startSaved);
      if cut.BeforeStartSave? || cut.BeforeInvoke? {
        Append(e);
        return Stops(Crashed);
      }
      var outcome := env.node(clock, node, input);
      Append(e);
      if cut.BeforeEnd? {
        return Stops(Crashed);
      }
      match outcome
      case Threw(error) =>
        RecordFailure(name, error, endSaved);
        return Stops(Raised(error));
      case LostLease(reason) =>
        RecordFailure(name, reason, endSaved);
        return Stops(LeaseLost(reason));
      case Returned(patch) =>
        var refused := RecordCompletion(name, patch, endSaved);
        if refused.Some? { return Stops(Raised(refused.value)); }
        return Fine(patch);
    }

    /** Record that a call runs, and save it. */
    method RecordStart(name: CallName, saved: bool)
      modifies this`mem, this`store
      ensures old(mem).None? ==> mem == old(mem) && store == old(store)
      ensures old(mem).Some? ==> mem == Some(Begin(old(mem).value, name)) && store == if saved then mem else old(store)
    {
      if mem.Some? {
        var previous := Previous(mem.value, name);
        mem := Some(mem.value[name := previous.(status := Running, attempts := previous.attempts + 1)]);
        if saved { store := mem; }
      }
    }

    /** Record that a call's node threw, and save it. */
    method RecordFailure(name: CallName, error: string, saved: bool)
      modifies this`mem, this`store
      ensures old(mem).None? ==> mem == old(mem) && store == old(store)
      ensures old(mem).Some? ==> mem == Some(Fail(old(mem).value, name, error)) && store == if saved then mem else old(store)
    {
      if mem.Some? {
        var previous := Previous(mem.value, name);
        mem := Some(mem.value[name := previous.(status := Failed, error := Some(error))]);
        if saved { store := mem; }
      }
    }

    /** Record that a call completed and what its patch is kept as, and save it, unless the typed record
        refuses the patch: then the assignment raises and the tables stay as they are. */
    method RecordCompletion(name: CallName, patch: Record, saved: bool) returns (refused: Option<string>)
      modifies this`mem, this`store
      ensures old(mem).None? ==> refused == None && mem == old(mem) && store == old(store)
      ensures old(mem).Some? ==> refused == env.refusal(patch)
      ensures refused.Some? ==> mem == old(mem) && store == old(store)
      ensures old(mem).Some? && refused.None? ==>
                mem == Some(Complete(old(mem).value, name, env.stored(patch))) && store == if saved then mem else old(store)
    {
      refused := None;
      if mem.Some? {
        refused := env.refusal(patch);
        if refused.Some? { return; }
        var previous := Previous(mem.value, name);
        mem := Some(mem.value[name := previous.(status := Completed, error := None, patch := env.stored(patch))]);
        if saved { store := mem; }
      }
    }

    /** `current_state.update(_run_checkpointed_node(...))` */
    method Call(name: CallName, node: Node) returns (r: Reply<Record>)
      requires Going() && Answer(PhaseOf(Now()), node).Active?
      modifies this
      ensures clock == |trace|
      ensures var x := Apply(env, old(Now()), name, node); Now() == x.w && r == ReplyOf(x)
      ensures r.Fine? ==> Going()
    {
      hide RunNode, Faithful, Summary, Answer;
      var patch :- RunCheckpointedNode(name, node, state);
      state := state + patch;
      return Fine(patch);
    }

    method CheckBlock(block: Block) returns (r: Reply<Option<Record>>)
      requires Going()
      modifies this
      ensures clock == |trace|
      ensures var x := CheckBlocked(env, old(Now()), block); Now() == x.w && r == ReplyOf(x)
      ensures r.Fine? && r.value.None? ==> Going()
    {
      hide RunNode, Faithful, Summary, Truthy, Waiting, Verdict, BlockFailure, BlockSubStatus, MaterialBlocked, Text;
      if !Truthy(Get(state, Blocked)) {
        return Fine(None);
      }
      Append(Halted(block));
      var summary :- RunCheckpointedNode(Once(Summarizer), Summarizer, state);
      var message := Text(env, Get(state, BlockReason), MaterialBlocked(block));
      return Fine(Some(state + summary + Verdict(Waiting(), BlockSubStatus(block), BlockFailure(block), message)));
    }

    method RunEvidenceCompilerIfNeeded(source: Source) returns (r: Reply<()>)
      requires Going()
      modifies this
      ensures clock == |trace|
      ensures var x := CompileEvidence(env, old(Now()), source); Now() == x.w && r == ReplyOf(x)
      ensures r.Fine? ==> Going()
    {
      hide RunNode, Faithful, Summary, CleanTexts, Texts, FromTexts, SourceText;
      var compiled := CleanTexts(Texts(Get(state, CompiledEvidenceSources)));
      if SourceText(source) in compiled || !env.hasEvidenceCompiler {
        return Fine(());
      }
      var patch :- RunCheckpointedNode(CompiledFrom(source), EvidenceCompiler,
                                       state[EvidenceCompilerSource := Str(SourceText(source))]);
      state := state + patch;
      state := state[CompiledEvidenceSources := FromTexts(compiled + [SourceText(source)])];
      state := state[EvidenceMaterialCompiled := Bool(true)];
      state := state[MaterialRefreshDone := Bool(false)];
      return Fine(());
    }

    /** The body of the refresh loop for one action. */
    method RefreshOne(action: Action) returns (r: Reply<Option<Record>>)
      requires Going()
      modifies this
      ensures clock == |trace|
      ensures var x := RefreshStep(env, old(Now()), action); Now() == x.w && r == ReplyOf(x)
      ensures r.Fine? && r.value.None? ==> Going()
    {
      hide Apply, EndBlocked, Faithful, Summary, Truthy, Waiting;
      match action
      case InspectData =>
        var _ :- Call(Refreshed(DataInspector), DataInspector);
        r := CheckBlock(InspectionBlocked);
      case RetrieveKag =>
        var _ :- Call(Refreshed(KagRetriever), KagRetriever);
        var ended :- CheckBlock(IngestionBlocked);
        if ended.Some? { return Fine(ended); }
        var _ :- Call(Refreshed(ContextBuilder), ContextBuilder);
        return Fine(None);
      case BuildContext =>
        var _ :- Call(Refreshed(ContextBuilder), ContextBuilder);
        return Fine(None);
      case _ =>
        return Fine(None);
    }

    method RunMaterialRefreshActions() returns (r: Reply<Option<Record>>)
      requires Going()
      modifies this
      ensures clock == |trace|
      ensures var x := RefreshMaterial(env, old(Now())); Now() == x.w && r == ReplyOf(x)
      ensures r.Fine? && r.value.None? ==> Going()
    {
      hide RefreshStep, Faithful, Summary, Truthy, Waiting, RefreshActions;
      var actions := RefreshActions(state);
      if Truthy(Get(state, MaterialRefreshDone)) || actions == [] {
        return Fine(None);
      }
      state := state[MaterialRefreshDone := Bool(true)];
      Append(Planned(Refresh, actions));
      ghost var start := Now();
      var i := 0;
      while i < |actions|
        invariant 0 <= i <= |actions| && Going()
        invariant RefreshAll(env, start, actions) == RefreshAll(env, Now(), actions[i..])
      {
        var ended :- RefreshOne(actions[i]);
        if ended.Some? { return Fine(ended); }
        assert actions[i..][1..] == actions[i + 1..];
        i := i + 1;
      }
      state := state[ForceAnalyst := Bool(true)];
      return Fine(None);
    }

    /** Phases 0 and 1 of a round: resume material, then data preparation. */
    method PrepareRound(overlay: Overlay) returns (r: Reply<Option<Record>>)
      requires Going()
      modifies this
      ensures clock == |trace|
      ensures var x := Prepare(env, old(Now()), overlay); Now() == x.w && r == ReplyOf(x)
      ensures r.Fine? && r.value.None? ==> Going()
    {
      hide CompileEvidence, RefreshMaterial, PrepStep, Faithful, Summary, Waiting, NextActionsOf;
      if overlay.resuming {
        var _ :- RunEvidenceCompilerIfNeeded(FromDynamicResume);
        var ended :- RunMaterialRefreshActions();
        if ended.Some? { return Fine(ended); }
      }
      var actions := NextActionsOf(state);
      Append(Planned(Prep, actions));
      ghost var start := Now();
      var i := 0;
      while i < |actions|
        invariant 0 <= i <= |actions| && Going()
        invariant PrepAll(env, start, actions, overlay.skip) == PrepAll(env, Now(), actions[i..], overlay.skip)
      {
        var ended :- PrepareOne(actions[i], overlay.skip);
        if ended.Some? { return Fine(ended); }
        assert actions[i..][1..] == actions[i + 1..];
        i := i + 1;
      }
      return Fine(None);
    }

    /** The body of the preparation loop for one action. */
    method PrepareOne(action: Action, skip: seq<Action>) returns (r: Reply<Option<Record>>)
      requires Going()
      modifies this
      ensures clock == |trace|
      ensures var x := PrepStep(env, old(Now()), action, skip); Now() == x.w && r == ReplyOf(x)
      ensures r.Fine? && r.value.None? ==> Going()
    {
      hide Apply, EndBlocked, Faithful, Summary, Truthy, Waiting;
      if action.InspectData? && action !in skip {
        var _ :- Call(Once(DataInspector), DataInspector);
        r := CheckBlock(InspectionBlocked);
      } else if action.RetrieveKag? && action !in skip {
        var _ :- Call(Once(KagRetriever), KagRetriever);
        var ended :- CheckBlock(IngestionBlocked);
        if ended.Some? { return Fine(ended); }
        var _ :- Call(Once(ContextBuilder), ContextBuilder);
        return Fine(None);
      } else {
        return Fine(None);
      }
    }

    /** Phase 2: the round's actions. */
    method RouteRound(round: nat, overlay: Overlay) returns (r: Reply<seq<Action>>)
      requires Going()
      modifies this
      ensures clock == |trace|
      ensures var x := Route(env, old(Now()), round, overlay); Now() == x.w && r == ReplyOf(x)
      ensures r.Fine? ==> Going()
    {
      hide Apply, Faithful, Summary, AnalystRuns, Without, FromActions, NextActionsOf, Waiting;
      var actions := Without(overlay.next, Analyze);
      if AnalystRuns(state, overlay) {
        var result :- Call(InRound(Analyst, round, Plain), Analyst);
        actions := NextActionsOf(result);
      }
      state := state[NextActions := FromActions(actions)];
      Append(Planned(Act, actions));
      return Fine(actions);
    }

    /** The static evidence branch of the action loop. The value's `coder` says whether coder ran. */
    method CollectEvidence(round: nat, skip: seq<Action>) returns (r: Reply<Acted>)
      requires Going() && Unaudited(Now())
      modifies this
      ensures clock == |trace|
      ensures var x := EvidenceStep(env, old(Now()), round, skip); Now() == x.w && r == ReplyOf(x)
      ensures r.Fine? && r.value.Flags? ==> Going()
    {
      hide Apply, CheckBlocked, CompileEvidence, RefreshMaterial, Faithful, Summary, Truthy, Waiting;
      if env.hasStaticEvidence {
        var _ :- Call(InRound(StaticEvidence, round, Plain), StaticEvidence);
      }
      var blocked :- CheckBlock(EvidenceBlocked);
      if blocked.Some? { return Fine(Ends(blocked.value)); }
      var _ :- RunEvidenceCompilerIfNeeded(FromStaticEvidence);
      var ended :- RunMaterialRefreshActions();
      if ended.Some? { return Fine(Ends(ended.value)); }
      if !Truthy(Get(state, ForceAnalyst)) { return Fine(Flags(false, false)); }
      var _ :- Call(InRound(Analyst, round, AfterRefresh), Analyst);
      if WriteCode in skip { return Fine(Flags(false, false)); }
      var _ :- Call(InRound(Coder, round, Plain), Coder);
      return Fine(Flags(true, false));
    }

    /** The body of the action loop for one action. */
    method ActOne(round: nat, action: Action, overlay: Overlay) returns (r: Reply<Acted>)
      requires Going() && Unaudited(Now())
      modifies this
      ensures clock == |trace|
      ensures var x := ActStep(env, old(Now()), round, action, overlay); Now() == x.w && r == ReplyOf(x)
      ensures r.Fine? && r.value.Flags? ==> Going()
    {
      hide Apply, EvidenceStep, Faithful, Summary, Waiting;
      if action.CollectEvidence? && action !in overlay.skip && !overlay.resuming {
        r := CollectEvidence(round, overlay.skip);
      } else if action.WriteCode? && action !in overlay.skip {
        var _ :- Call(InRound(Coder, round, Plain), Coder);
        return Fine(Flags(true, false));
      } else {
        return Fine(Flags(false, action.DynamicAction?));
      }
    }

    /** Phase 3: the action loop, with its `has_coder` and `has_dynamic` flags. */
    method ActRound(round: nat, actions: seq<Action>, overlay: Overlay) returns (r: Reply<Acted>)
      requires Going() && Unaudited(Now())
      modifies this
      ensures clock == |trace|
      ensures var x := ActAll(env, old(Now()), round, actions, overlay); Now() == x.w && r == ReplyOf(x)
      ensures r.Fine? && r.value.Flags? ==> Going()
    {
      hide ActStep, Faithful, Summary, Waiting;
      var hasCoder, hasDynamic := false, false;
      ghost var start := Now();
      var i := 0;
      while i < |actions|
        invariant 0 <= i <= |actions| && Going() && Unaudited(Now())
        invariant ActAll(env, start, round, actions, overlay) ==
                  WithFlags(hasCoder, hasDynamic, ActAll(env, Now(), round, actions[i..], overlay))
      {
        var acted :- ActOne(round, actions[i], overlay);
        if acted.Ends? { return Fine(acted); }
        assert actions[i..][1..] == actions[i + 1..];
        hasCoder := hasCoder || acted.coder;
        hasDynamic := hasDynamic || acted.dynamic;
        i := i + 1;
      }
      return Fine(Flags(hasCoder, hasDynamic));
    }

    /** Phase 4. */
    method AuditRound(round: nat) returns (r: Reply<()>)
      requires Going() && Unaudited(Now())
      modifies this
      ensures clock == |trace|
      ensures var x := Audit(env, old(Now()), round); Now() == x.w && r == ReplyOf(x)
      ensures r.Fine? ==> Going()
    {
      hide Apply, Faithful, Summary, DebuggerOnly, Waiting;
      var audit :- Call(InRound(Auditor, round, Plain), Auditor);
      if Get(audit, NextActions) == DebuggerOnly() {
        var _ :- Call(InRound(Debugger, round, Plain), Debugger);
        var _ :- Call(InRound(Auditor, round, PostDebug), Auditor);
      }
      return Fine(());
    }

    /** Phase 5, when there is something to execute. */
    method ExecuteRoundCode(round: nat) returns (r: Reply<Value>)
      requires Going() && (PhaseOf(Now()).progress.Audited? || PhaseOf(Now()).progress.Reaudited?)
      requires PhaseOf(Now()).coded && !PhaseOf(Now()).dynamic
      modifies this
      ensures clock == |trace|
      ensures var x := Execute(env, old(Now()), round); Now() == x.w && r == ReplyOf(x)
      ensures r.Fine? ==> Going()
    {
      hide Apply, Faithful, Summary, VerificationFailed, Waiting;
      var executed :- Call(InRound(Executor, round, Plain), Executor);
      var output := OutputOf(executed);
      if Get(AsDict(output), TerminationReason) == VerificationFailed() {
        var _ :- Call(InRound(Debugger, round, PostExec), Debugger);
        var _ :- Call(InRound(Auditor, round, PostExec), Auditor);
        executed :- Call(InRound(Executor, round, Retry), Executor);
        output := OutputOf(executed);
      }
      return Fine(output);
    }

    /** Phases 2 and 3; on a resume the coder is run even if no action asked for it. */
    method RouteAndActRound(round: nat, overlay: Overlay) returns (r: Reply<Acted>)
      requires Going() && Unaudited(Now())
      modifies this
      ensures clock == |trace|
      ensures var x := RouteAndAct(env, old(Now()), round, overlay); Now() == x.w && r == ReplyOf(x)
      ensures r.Fine? && r.value.Flags? ==> Going()
    {
      hide Route, ActAll, Apply, Faithful, Summary, Waiting;
      var actions :- RouteRound(round, overlay);
      var acted :- ActRound(round, actions, overlay);
      if acted.Flags? && overlay.resuming && Analyze !in overlay.skip && !acted.coder && WriteCode !in overlay.skip {
        var _ :- Call(InRound(Coder, round, Plain), Coder);
        return Fine(Flags(true, acted.dynamic));
      }
      return Fine(acted);
    }

    /** Phases 4 to 6; the value is the round output. */
    method ConcludeRound(round: nat, hasCoder: bool, hasDynamic: bool) returns (r: Reply<Value>)
      requires Going() && Unaudited(Now())
      requires PhaseOf(Now()).dynamic == hasDynamic && PhaseOf(Now()).coded == hasCoder
      modifies this
      ensures clock == |trace|
      ensures var x := Conclude(env, old(Now()), round, hasCoder, hasDynamic); Now() == x.w && r == ReplyOf(x)
      ensures r.Fine? ==> Going()
    {
      hide Audit, Execute, Apply, Faithful, Summary, OutputWithoutExecution, Waiting;
      var _ :- AuditRound(round);
      var output := OutputWithoutExecution(round, hasDynamic);
      if hasCoder && !hasDynamic {
        output :- ExecuteRoundCode(round);
      }
      var _ :- Call(InRound(SkillHarvester, round, Plain), SkillHarvester);
      return Fine(output);
    }

    /** One round of the unified loop. */
    method ExecuteRound(round: nat) returns (r: Reply<RoundEnd>)
      requires Going() && PhaseOf(Now()).rounds == round < MAX_STATIC_ROUNDS
      modifies this
      ensures clock == |trace|
      ensures var x := Round(env, old(Now()), round); Now() == x.w && r == ReplyOf(x)
      ensures r.Fine? && r.value.Output? ==> Going()
    {
      hide Prepare, RouteAndAct, Conclude, Faithful, Summary, OverlayOf, Waiting;
      state := state[RoundIndex := Num(round)];
      Append(RoundBegan(round));
      var overlay := OverlayOf(Get(state, DynamicResumeOverlay));
      var ended :- PrepareRound(overlay);
      if ended.Some? { return Fine(Terminal(ended.value)); }
      var acted :- RouteAndActRound(round, overlay);
      if acted.Ends? { return Fine(Terminal(acted.result)); }
      var output :- ConcludeRound(round, acted.coder, acted.dynamic);
      return Fine(Output(output));
    }

    /** A round's output goes into the state; then the task returns, goes round again (perhaps
        after the dynamic node), or finishes. */
    method FollowUp(output: Value) returns (r: Reply<Next>)
      requires Going()
      modifies this
      ensures clock == |trace|
      ensures var x := AfterRound(env, old(Now()), output); Now() == x.w && r == ReplyOf(x)
      ensures r.Fine? ==> Going()
    {
      hide Apply, Faithful, Summary, ResumeStatic, Truthy, Waiting;
      state := state[RoundOutput := output];
      var fields := AsDict(output);
      if Truthy(Get(state, TerminalStatus)) { return Fine(Return(state)); }
      if NumberOf(Get(fields, AdditionalRounds)) > 0 { return Fine(Again); }
      if Truthy(Get(fields, RequiresDynamic)) {
        var _ :- Call(Once(Dynamic), Dynamic);
        if Get(state, DynamicContinuation) == ResumeStatic() { return Fine(Again); }
      }
      return Fine(Finish);
    }

    /** The unified round loop, then the summarizer and the verdict. */
    method ExecuteTaskFlow() returns (outcome: Outcome)
      requires Going() && PhaseOf(Now()).rounds == 0
      modifies this
      ensures var run := FlowFrom(env, old(Now())); Now() == run.w && outcome == run.outcome
    {
      hide Round, AfterRound, Apply, Faithful, Summary, FinalVerdict, StopOutcome, Waiting;
      ghost var start := Now();
      var round := 0;
      var again := true;
      while again && round < MAX_STATIC_ROUNDS
        invariant round <= MAX_STATIC_ROUNDS && Going()
        invariant again ==> PhaseOf(Now()).rounds == round
        invariant RoundsFrom(env, start, 0) == if again then RoundsFrom(env, Now(), round) else Ok(Now(), None)
        decreases MAX_STATIC_ROUNDS - round, again
      {
        var end := ExecuteRound(round);
        if end.Stops? { return StopOutcome(state, end.halt); }
        if end.value.Terminal? {
          state := state + end.value.result;
          return Concluded(state);
        }
        var next := FollowUp(end.value.output);
        if next.Stops? { return StopOutcome(state, next.halt); }
        if next.value.Return? { return Concluded(next.value.result); }
        again := next.value.Again?;
        round := round + 1;
      }
      var called := Call(Once(Summarizer), Summarizer);
      if called.Stops? { return StopOutcome(state, called.halt); }
      return Concluded(state + FinalVerdict(env, state));
    }
  }

  /** An action loop's flags so far, joined with what the rest of the loop makes of them. */
  function WithFlags(coder: bool, dynamic: bool, x: Step<Acted>): Step<Acted> {
    if x.Ok? && x.value.Flags? then Ok(x.w, Flags(coder || x.value.coder, dynamic || x.value.dynamic)) else x
  }
}
