/** How a run that no block check and no lost call ended was judged, in terms of the state it leaves. */
module RunVerdict {
  import opened Values
  import opened Checkpoints
  import opened CheckpointLaws
  import opened RoundEngine
  import Agenda
  import AgendaLaws

  // ----- What the judgement depends on -----

  /** `str(v or "") == word`, for a word that is not empty. */
  predicate Says(env: Env, v: Value, word: string) {
    Truthy(v) && if v.Str? then v.s == word else env.render(v) == word
  }

  /** The text of a value, or what is said without one. */
  predicate Quotes(env: Env, message: Value, v: Value, default: string) {
    message == Str(if !Truthy(v) then default else if v.Str? then v.s else env.render(v))
  }

  /** The execution record is there and reports success. */
  predicate Executed(state: Record) {
    var record := Get(state, ExecutionRecord);
    Truthy(record) && record.Dict? && Success in record.fields && Truthy(record.fields[Success])
  }

  /** A text under a key that is one of the words when stripped. */
  predicate Names(fields: Record, key: Key, words: set<string>) {
    key in fields && fields[key].Str? && Trim(fields[key].s) in words
  }

  /** A listed output reports that inputs are missing, by its artifact key or by its file name. */
  predicate ReportsGap(output: Value) {
    output.Dict? &&
    (|| Names(output.fields, ArtifactKey, {"input_gap_report", "requested_inputs_json"})
     || (Name in output.fields && output.fields[Name].Str?
         && Lower(Trim(output.fields[Name].s)) in {"input_gap_report.md", "requested_inputs.json"}))
  }

  /** The value under a path of keys. */
  function At(v: Value, path: seq<Key>): Value {
    if path == [] then v
    else if v.Dict? && path[0] in v.fields then At(v.fields[path[0]], path[1..])
    else Null
  }

  /** The final response follows the strategy of reporting missing inputs, or an output of it does. */
  ghost predicate InputsAreMissing(state: Record) {
    var response := Dict(state);
    var strategy, outputs := At(response, [FinalResponse, Details, ExecutionStrategy, StrategyFamily]), At(response, [FinalResponse, Outputs]);
    || (strategy.Str? && Trim(strategy.s) == "input_gap_report")
    || (outputs.List? && exists i :: 0 <= i < |outputs.items| && ReportsGap(outputs.items[i]))
  }

  lemma AtTwo(v: Value, one: Key, two: Key)
    ensures At(v, [one, two]) == Get(AsDict(Get(AsDict(v), one)), two)
  {
    AtOne(Get(AsDict(v), one), two);
    assert [one, two][1..] == [two];
    NothingUnderNull([two]);
  }

  lemma AtOne(v: Value, key: Key)
    ensures At(v, [key]) == Get(AsDict(v), key)
  {
    assert [key][1..] == [];
  }

  lemma NothingUnderNull(path: seq<Key>)
    ensures At(Null, path) == Null
  {
  }

  lemma AtFour(v: Value, a: Key, b: Key, c: Key, d: Key)
    ensures At(v, [a, b, c, d]) == Get(AsDict(Get(AsDict(Get(AsDict(Get(AsDict(v), a)), b)), c)), d)
  {
    var one := Get(AsDict(v), a);
    var two := Get(AsDict(one), b);
    assert [a, b, c, d][1..] == [b, c, d] && [b, c, d][1..] == [c, d];
    AtTwo(two, c, d);
    NothingUnderNull([c, d]);
    NothingUnderNull([b, c, d]);
    AtTwo(Null, c, d);
  }

  lemma AsksMeans(state: Record)
    ensures AsksForInputs(Get(state, FinalResponse)) <==> InputsAreMissing(state)
  {
    hide At;
    AtFour(Dict(state), FinalResponse, Details, ExecutionStrategy, StrategyFamily);
    AtTwo(Dict(state), FinalResponse, Outputs);
    var outputs := Get(AsDict(Get(state, FinalResponse)), Outputs);
    if outputs.List? {
      forall i | 0 <= i < |outputs.items| ensures IsInputGap(outputs.items[i]) <==> ReportsGap(outputs.items[i]) {
        GapMeans(outputs.items[i]);
      }
    }
  }

  lemma GapMeans(output: Value)
    ensures IsInputGap(output) <==> ReportsGap(output)
  {
    hide Trim;
    if output.Dict? {
      NamesMean(output.fields, ArtifactKey, {"input_gap_report", "requested_inputs_json"});
      BlankIsNoName();
    }
  }

  lemma NamesMean(fields: Record, key: Key, words: set<string>)
    requires "" !in words
    ensures TrimmedText(Get(fields, key)) in words <==> Names(fields, key, words)
  {
    hide Trim;
  }

  lemma BlankIsNoName()
    ensures Lower("") !in {"input_gap_report.md", "requested_inputs.json"}
  {
  }

  /** What the verdict on a state is. */
  ghost predicate Judged(env: Env, state: Record, verdict: Record) {
    var denied := Says(env, Get(state, DynamicStatus), "denied");
    var unavailable := !denied && Says(env, Get(state, DynamicStatus), "unavailable");
    var done := !denied && !unavailable && Executed(state);
    var missing := done && InputsAreMissing(state);
    var status, failure, message := Get(verdict, TerminalStatus), Get(verdict, FailureType), Get(verdict, ErrorMessage);
    && verdict.Keys == {TerminalStatus, TerminalSubStatus, FailureType, ErrorMessage}
    && (status == Str("success") <==> done && !missing)
    && (status == Str("waiting_for_human") <==> denied || missing)
    && (status == Str("failed") <==> !denied && !done)
    && (denied ==> failure == Str("dynamic_governance"))
    && (denied ==> Quotes(env, message, Get(state, DynamicSummary), "dynamic swarm denied by governance policy"))
    && (unavailable ==> failure == Str("dynamic_runtime"))
    && (unavailable ==> Quotes(env, message, Get(state, DynamicSummary), "dynamic swarm unavailable"))
    && (missing ==> failure == Str("need_more_inputs") && message == Str("input gap report generated"))
    && (done && !missing ==> failure == Null && message == Str(""))
    && (!denied && !unavailable && !done ==> failure == Str("executing") && SaysWhyNotExecuted(env, message, state))
    && Get(verdict, TerminalSubStatus) == Str(
         if denied then "动态任务被治理策略阻断，等待人工介入"
         else if unavailable then "动态任务链路未能完成"
         else if missing then "已生成输入缺口报告，等待人工补充资料"
         else if done then "任务执行完成"
         else "任务执行失败")
  }

  /** The error text of a record that reports no success, or that there is none. */
  predicate SaysWhyNotExecuted(env: Env, message: Value, state: Record) {
    var record := Get(state, ExecutionRecord);
    if !Truthy(record) then message == Str("sandbox execution result missing")
    else if !record.Dict? || ErrorText !in record.fields then message == Str("sandbox execution failed")
    else message == (if record.fields[ErrorText].Str? then record.fields[ErrorText] else Str(env.render(record.fields[ErrorText])))
  }

  lemma WordsDiffer()
    ensures Str("success") != Str("waiting_for_human") && Str("waiting_for_human") != Str("failed") && Str("failed") != Str("success")
    ensures "denied" != "unavailable" && "denied" != "" && "unavailable" != ""
  {
    assert "success"[0] == 's' && "waiting_for_human"[0] == 'w' && "failed"[0] == 'f';
    assert "denied"[0] != "unavailable"[0];
  }

  lemma TextSays(env: Env, v: Value, word: string)
    requires word != ""
    ensures Text(env, v, "") == word <==> Says(env, v, word)
  {
  }

  lemma TextQuotes(env: Env, v: Value, default: string)
    ensures Quotes(env, Str(Text(env, v, default)), v, default)
  {
  }

  lemma ErrorSaysWhy(env: Env, state: Record)
    ensures SaysWhyNotExecuted(env, Str(ExecutionError(env, Get(state, ExecutionRecord))), state)
  {
  }

  lemma VerdictIsJudged(env: Env, state: Record)
    ensures Judged(env, state, FinalVerdict(env, state))
  {
    hide Text, AsksForInputs, InputsAreMissing, SaysWhyNotExecuted, ExecutionError, Says, Quotes, Truthy;
    WordsDiffer();
    TextSays(env, Get(state, DynamicStatus), "denied");
    TextSays(env, Get(state, DynamicStatus), "unavailable");
    TextQuotes(env, Get(state, DynamicSummary), "dynamic swarm denied by governance policy");
    TextQuotes(env, Get(state, DynamicSummary), "dynamic swarm unavailable");
    AsksMeans(state);
    ErrorSaysWhy(env, state);
    ExecutedMeans(state);
  }

  lemma ExecutedMeans(state: Record)
    ensures Executed(state) <==> Truthy(Get(state, ExecutionRecord)) && Truthy(Get(AsDict(Get(state, ExecutionRecord)), Success))
  {
  }

  // ----- Where a run is judged -----

  /** The last entry is an answered call of this name. */
  predicate EndsWith(w: World, name: CallName) {
    w.trace != [] && Answered(w.trace[|w.trace| - 1]) && w.trace[|w.trace| - 1].name == name
  }

  lemma ApplyEnds(env: Env, w: World, name: CallName, node: Node)
    requires Ready(w) && Answer(PhaseOf(w), node).Active?
    ensures var x := Apply(env, w, name, node); x.Ok? ==> EndsWith(x.w, name)
  {
    hide RunNode, NodeEvent, Faithful, Summary, Answer;
    CallMeans(env, w, name, node, w.state);
  }

  lemma ConcludeEnds(env: Env, w: World, r: nat, coder: bool, dynamic: bool)
    requires Unaudited(w) && Flagged(w, coder, dynamic)
    ensures var x := Conclude(env, w, r, coder, dynamic); x.Ok? ==> EndsWith(x.w, InRound(SkillHarvester, r, Plain))
  {
    hide Audit, ExecuteIfDue, Apply, Faithful, Summary, EndsWith;
    var x := Audit(env, w, r);
    if x.Ok? {
      var y := ExecuteIfDue(env, x.w, r, coder, dynamic);
      if y.Ok? { ApplyEnds(env, y.w, InRound(SkillHarvester, r, Plain), SkillHarvester); }
    }
  }

  lemma RoundEndsWithHarvest(env: Env, w: World, r: nat)
    requires AtRound(w, r)
    ensures var x := Round(env, w, r); x.Ok? && x.value.Output? ==> EndsWith(x.w, InRound(SkillHarvester, r, Plain))
  {
    hide BeginRound, Prepare, RouteAndAct, Conclude, Faithful, Summary, OverlayOf, EndsWith;
    var w0 := BeginRound(w, r);
    var overlay := OverlayOf(Get(w0.state, DynamicResumeOverlay));
    var x := Prepare(env, w0, overlay);
    if x.Ok? && x.value.None? {
      var y := RouteAndAct(env, x.w, r, overlay);
      if y.Ok? && y.value.Flags? { ConcludeEnds(env, y.w, r, y.value.coder, y.value.dynamic); }
    }
  }

  /** A node set a terminal status: the run returns the state as it is, after the round's last call. */
  ghost predicate EndedEarly(w: World, result: Record) {
    && result == w.state && Truthy(Get(result, TerminalStatus))
    && exists r: nat :: EndsWith(w, InRound(SkillHarvester, r, Plain))
  }

  lemma ReturnIsEarly(env: Env, w: World, r: nat)
    requires AtRound(w, r)
    ensures var x := RoundAndNext(env, w, r);
            x.Ok? && x.value.Return? && PhaseOf(x.w).Active? ==> EndedEarly(x.w, x.value.result)
  {
    hide Round, Apply, Faithful, Summary, Truthy, ResumeStatic;
    RoundEndsWithHarvest(env, w, r);
  }

  lemma {:induction false} RoundsEndEarly(env: Env, w: World, r: nat)
    requires Ready(w) && RoundsBegun(w) == r <= MAX_STATIC_ROUNDS
    ensures var x := RoundsFrom(env, w, r);
            x.Ok? && x.value.Some? && PhaseOf(x.w).Active? ==> EndedEarly(x.w, x.value.value)
    decreases MAX_STATIC_ROUNDS - r
  {
    hide RoundAndNext, Faithful, Summary, EndedEarly;
    if r < MAX_STATIC_ROUNDS {
      ReturnIsEarly(env, w, r);
      var x := RoundAndNext(env, w, r);
      if x.Ok? && x.value.Again? { RoundsEndEarly(env, x.w, r + 1); }
    }
  }

  /** The run went through its rounds and its summarizer, and is judged by the state these leave. */
  ghost predicate EndedJudged(env: Env, w: World, result: Record) {
    EndsWith(w, Once(Summarizer)) && exists verdict: Record :: Judged(env, w.state, verdict) && result == w.state + verdict
  }

  lemma ProceedIsJudged(env: Env, w: World)
    requires Ready(w) && PhaseOf(w).rounds == 0
    ensures var x := Proceed(env, w);
            x.Ok? && PhaseOf(x.w).Active? ==> EndedEarly(x.w, x.value) || EndedJudged(env, x.w, x.value)
  {
    hide RoundsFrom, Apply, Faithful, Summary, EndedEarly, FinalVerdict, Judged;
    RoundsEndEarly(env, w, 0);
    var x := RoundsFrom(env, w, 0);
    if x.Ok? && x.value.None? {
      ApplyEnds(env, x.w, Once(Summarizer), Summarizer);
      VerdictIsJudged(env, Close(env, x.w).w.state);
    }
  }

  /** Every run that no block check ended and no call stopped: either a node set a terminal status, and the
      run returns the state of the round's end; or its last call is the summarizer's, and its result is
      the state with the verdict that this state deserves. */
  lemma RunIsJudged(env: Env, initial: Record, tables: Tables)
    requires PhaseOf(TaskFlow(env, initial, tables).w).Active?
    ensures var run := TaskFlow(env, initial, tables);
            && run.outcome.Concluded?
            && (EndedEarly(run.w, run.outcome.result) || EndedJudged(env, run.w, run.outcome.result))
  {
    hide Proceed, Faithful, Summary, EndedEarly, EndedJudged;
    Begins(initial, tables);
    ProceedIsJudged(env, StartOf(initial, tables));
  }

  // ----- Runs that end otherwise -----

  /** The verdict of a task that a block check ended: the word for what was blocked, and the reason that the
      state gives or, without one, a text that says as much. */
  predicate JudgedBlocked(env: Env, block: Block, reason: Value, verdict: Record) {
    && verdict.Keys == {TerminalStatus, TerminalSubStatus, FailureType, ErrorMessage}
    && verdict[TerminalStatus] == Str("waiting_for_human")
    && verdict[FailureType] == (match block
         case InspectionBlocked => Str("data_inspection")
         case IngestionBlocked => Str("knowledge_ingestion")
         case EvidenceBlocked => Str("static_evidence"))
    && verdict[TerminalSubStatus] == (match block
         case InspectionBlocked => Str("结构化数据探查失败，等待人工介入")
         case IngestionBlocked => Str("知识构建失败，等待人工介入")
         case EvidenceBlocked => Str("静态取证失败，等待人工介入"))
    && Quotes(env, verdict[ErrorMessage], reason, match block
         case InspectionBlocked => "data inspection blocked"
         case IngestionBlocked => "knowledge ingestion blocked"
         case EvidenceBlocked => "static evidence blocked")
  }

  /** A block check fired in a blocked state, the summarizer answered, and its answer and the verdict are
      folded into that state. */
  ghost predicate EndedBlocked(env: Env, run: Run) {
    exists block: Block, state: Record, summary: Record, verdict: Record ::
      && |run.w.trace| >= 2 && run.w.trace[|run.w.trace| - 2] == Halted(block) && EndsWith(run.w, Once(Summarizer))
      && Truthy(Get(state, Blocked)) && JudgedBlocked(env, block, Get(state, BlockReason), verdict)
      && run.outcome == Concluded(run.w.state) && run.w.state == state + summary + verdict
  }

  /** The last call was left without an answer. */
  ghost predicate EndedStopped(run: Run) {
    run.w.trace != [] && Stops(run.w.trace[|run.w.trace| - 1]) && run == StopRun(run.w, HaltOf(run.w.trace[|run.w.trace| - 1]))
  }

  /** The closing of the agenda: a terminal status that was there, or the verdict on the state. */
  ghost predicate EndedClosed(env: Env, run: Run) {
    || (run.outcome == Concluded(run.w.state) && Truthy(Get(run.w.state, TerminalStatus)))
    || exists verdict: Record :: Judged(env, run.w.state, verdict) && run.outcome == Concluded(run.w.state + verdict)
  }

  lemma UnansweredStops(env: Env, w: World, name: CallName, node: Node, input: Record)
    ensures var x := RunNode(env, w, name, node, input); x.Stop? ==> EndedStopped(StopRun(x.w, x.halt))
  {
    hide RunNode, NodeEvent, LeaseProblem, After;
    CallMeans(env, w, name, node, input);
  }

  lemma BlockWords(block: Block, env: Env, reason: Value)
    ensures JudgedBlocked(env, block, reason,
                          Verdict(Waiting(), BlockSubStatus(block), BlockFailure(block), Text(env, reason, MaterialBlocked(block))))
  {
    hide Text, Truthy;
    TextQuotes(env, reason, MaterialBlocked(block));
  }

  lemma BlockedStepEnds(env: Env, c: Agenda.Config, block: Block, rest: seq<Agenda.Item>)
    requires c.Config?
    ensures var end := Agenda.StepBlocked(env, c, block, rest);
            end.Done? ==> EndedStopped(end.run) || EndedBlocked(env, end.run)
  {
    hide RunNode, NodeEvent, LeaseProblem, After, EndedStopped, JudgedBlocked, Verdict, Waiting, BlockFailure, BlockSubStatus, MaterialBlocked, Text, Truthy;
    if Truthy(Get(c.w.state, Blocked)) {
      var w0 := c.w.Log(Halted(block));
      UnansweredStops(env, w0, Once(Summarizer), Summarizer, c.w.state);
      CallMeans(env, w0, Once(Summarizer), Summarizer, c.w.state);
      var x := RunNode(env, w0, Once(Summarizer), Summarizer, c.w.state);
      if x.Ok? {
        BlockWords(block, env, Get(c.w.state, BlockReason));
        var verdict := Verdict(Waiting(), BlockSubStatus(block), BlockFailure(block), Text(env, Get(c.w.state, BlockReason), MaterialBlocked(block)));
        var result := c.w.state + x.value + verdict;
        assert c.w.state + result == result;
        assert x.w.Update(result).trace[|c.w.trace|] == Halted(block);
      }
    }
  }

  /** Any step that ends a run ends it in one of these ways. */
  lemma StepEnds(env: Env, c: Agenda.Config)
    requires c.Config? && c.todo != []
    ensures var end := Agenda.Advance(env, c);
            end.Done? ==> EndedStopped(end.run) || EndedBlocked(env, end.run) || EndedClosed(env, end.run)
  {
    hide RunNode, World.Log, EndedStopped, EndedBlocked, Agenda.StepBlocked, FinalVerdict, Judged, Truthy, Agenda.Read, OverlayOf;
    var rest := c.todo[1..];
    match c.todo[0]
    case Ask(name, node, use) => UnansweredStops(env, c.w, name, node, c.w.state);
    case EndIfBlocked(block) => BlockedStepEnds(env, c, block, rest);
    case Compile(source) =>
      UnansweredStops(env, c.w, CompiledFrom(source), EvidenceCompiler, c.w.state[EvidenceCompilerSource := Str(SourceText(source))]);
    case Judge => VerdictIsJudged(env, c.w.state);
    case _ =>
  }

  lemma {:induction false} StepsEnd(env: Env, c: Agenda.Config, n: nat)
    requires c.Config? && Agenda.Steps(env, c, n).Done?
    ensures var run := Agenda.Steps(env, c, n).run; EndedStopped(run) || EndedBlocked(env, run) || EndedClosed(env, run)
    decreases n
  {
    hide Agenda.Advance, EndedStopped, EndedBlocked, EndedClosed;
    StepEnds(env, c);
    if Agenda.Advance(env, c).Config? { StepsEnd(env, Agenda.Advance(env, c), n - 1); }
  }

  /** Every run ends in one of three ways: its last call has no answer; a block check ended it; or it is closed,
      with the terminal status that a node set or with the verdict on its state. */
  lemma RunEndings(env: Env, initial: Record, tables: Tables)
    ensures var run := TaskFlow(env, initial, tables);
            EndedStopped(run) || EndedBlocked(env, run) || EndedClosed(env, run)
  {
    hide TaskFlow, Agenda.Steps, EndedStopped, EndedBlocked, EndedClosed;
    AgendaLaws.RunFollowsAgenda(env, initial, tables);
    var start := Agenda.Start(initial, tables);
    var n: nat :| Agenda.Steps(env, start, n) == Agenda.Done(TaskFlow(env, initial, tables));
    StepsEnd(env, start, n);
  }

  /** A run whose lease was lost fails with that word and the reason of the loss. */
  lemma LostLeaseIsJudged(state: Record, reason: string)
    ensures var result := LeaseLostResult(state, reason);
            && StopOutcome(state, LeaseLost(reason)) == Concluded(result)
            && Get(result, TerminalStatus) == Str("failed") && Get(result, FailureType) == Str("lease_lost")
            && Get(result, ErrorMessage) == Str(reason) && Get(result, TerminalSubStatus) == Str("任务租约已丢失，本地执行已停止")
            && forall key :: key !in {TerminalStatus, TerminalSubStatus, FailureType, ErrorMessage} ==> Get(result, key) == Get(state, key)
  {
    assert TaskFailed() == Str("failed") && LeaseLostFailure() == Str("lease_lost");
  }
}
