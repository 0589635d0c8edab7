/** The round loop does what the agenda says: each function of the flow takes its item to what follows, so
    a whole run is the run of the agenda that begins with the first round. */
module AgendaLaws {
  import opened Values
  import opened Checkpoints
  import opened RoundEngine
  import opened Agenda

  // ----- Steps -----

  lemma {:induction false} StepsSum(env: Env, c: Config, m: nat, n: nat)
    ensures Steps(env, Steps(env, c, m), n) == Steps(env, c, m + n)
    decreases m
  {
    hide Advance;
    if m > 0 && c.Config? && c.todo != [] {
      StepsSum(env, Advance(env, c), m - 1, n);
    } else if m > 0 {
      assert Steps(env, c, m) == c && Steps(env, c, n) == c && Steps(env, c, m + n) == c;
    }
  }

  lemma LeadsOn(env: Env, a: Config, b: Config, c: Config)
    requires Leads(env, a, b) && Leads(env, b, c)
    ensures Leads(env, a, c)
  {
    hide Steps;
    var m: nat :| Steps(env, a, m) == b;
    var n: nat :| Steps(env, b, n) == c;
    StepsSum(env, a, m, n);
  }

  lemma StandsStill(env: Env, c: Config)
    ensures Leads(env, c, c)
  {
    assert Steps(env, c, 0) == c;
  }

  /** One step more. */
  lemma StepOn(env: Env, start: Config, c: Config)
    requires Leads(env, start, c) && c.Config? && c.todo != []
    ensures Leads(env, start, Advance(env, c))
  {
    hide Advance;
    assert Steps(env, Advance(env, c), 0) == Advance(env, c);
    assert Steps(env, c, 1) == Advance(env, c);
    LeadsOn(env, start, c, Advance(env, c));
  }

  function At(c: Config, w: World, todo: seq<Item>): Config
    requires c.Config?
  {
    c.(w := w, todo := todo)
  }

  /** A piece of the flow is over: the run stops, or what is left is to be done in its world. */
  function Goes<T>(c: Config, x: Step<T>, rest: seq<Item>): Config
    requires c.Config?
  {
    match x
    case Stop(w, halt) => Done(StopRun(w, halt))
    case Ok(w, _) => At(c, w, rest)
  }

  /** ... or the task has ended. */
  function Closes(c: Config, x: Step<Option<Record>>, rest: seq<Item>): Config
    requires c.Config?
  {
    if x.Ok? && x.value.Some? then Done(Run(x.w.Update(x.value.value), Concluded(x.w.state + x.value.value)))
    else Goes(c, x, rest)
  }

  // ----- Calls and checks -----

  lemma AskOn(env: Env, start: Config, c: Config, name: CallName, node: Node, use: Reading, rest: seq<Item>)
    requires Leads(env, start, c) && c.Config? && c.todo == [Ask(name, node, use)] + rest
    requires Ready(c.w) && Answer(PhaseOf(c.w), node).Active?
    ensures var x := Apply(env, c.w, name, node);
            Leads(env, start, if x.Stop? then Done(StopRun(x.w, x.halt)) else Read(c.(w := x.w), use, x.value, rest))
  {
    hide RunNode, Read, Faithful, Summary, Answer, Leads, StopRun;
    StepOn(env, start, c);
    assert c.todo[1..] == rest;
  }

  lemma CallOn(env: Env, start: Config, c: Config, name: CallName, node: Node, rest: seq<Item>)
    requires Leads(env, start, c) && c.Config? && c.todo == [Ask(name, node, Nothing)] + rest
    requires Ready(c.w) && Answer(PhaseOf(c.w), node).Active?
    ensures Leads(env, start, Goes(c, Apply(env, c.w, name, node), rest))
  {
    hide Apply, Faithful, Summary, Answer, Leads, StopRun;
    AskOn(env, start, c, name, node, Nothing, rest);
  }

  lemma BlockOn(env: Env, start: Config, c: Config, block: Block, rest: seq<Item>)
    requires Leads(env, start, c) && c.Config? && c.todo == [EndIfBlocked(block)] + rest && Ready(c.w)
    ensures Leads(env, start, Closes(c, CheckBlocked(env, c.w, block), rest))
  {
    hide RunNode, Faithful, Summary, Leads, StopRun, Verdict, Waiting, BlockFailure, BlockSubStatus, MaterialBlocked, Text, Truthy;
    StepOn(env, start, c);
    assert c.todo[1..] == rest;
  }

  lemma CompileOn(env: Env, start: Config, c: Config, source: Source, rest: seq<Item>)
    requires Leads(env, start, c) && c.Config? && c.todo == [Compile(source)] + rest && Ready(c.w)
    ensures Leads(env, start, Goes(c, CompileEvidence(env, c.w, source), rest))
  {
    hide RunNode, Faithful, Summary, Leads, StopRun, CleanTexts, Texts, FromTexts, SourceText;
    StepOn(env, start, c);
    assert c.todo[1..] == rest;
  }

  // ----- Refreshing material -----

  lemma RefreshStepOn(env: Env, start: Config, c: Config, action: Action, rest: seq<Item>)
    requires Leads(env, start, c) && c.Config? && c.todo == [RefreshWith(action)] + rest && Ready(c.w)
    ensures Leads(env, start, Closes(c, RefreshStep(env, c.w, action), rest))
  {
    hide Apply, CheckBlocked, EndBlocked, Faithful, Summary, Leads, StopRun, Truthy, World.Update;
    StepOn(env, start, c);
    assert c.todo[1..] == rest;
    var c1 := At(c, c.w, RefreshItems(action) + rest);
    match action
    case InspectData =>
      var check := [EndIfBlocked(InspectionBlocked)] + rest;
      assert c1.todo == [Ask(CallName.Refreshed(DataInspector), DataInspector, Nothing)] + check;
      CallOn(env, start, c1, CallName.Refreshed(DataInspector), DataInspector, check);
      var x := Apply(env, c.w, CallName.Refreshed(DataInspector), DataInspector);
      if x.Ok? { BlockOn(env, start, At(c, x.w, check), InspectionBlocked, rest); }
    case RetrieveKag =>
      KagOn(env, start, c1, CallName.Refreshed(KagRetriever), CallName.Refreshed(ContextBuilder), rest);
    case BuildContext =>
      CallOn(env, start, c1, CallName.Refreshed(ContextBuilder), ContextBuilder, rest);
    case _ =>
      assert [] + rest == rest;
  }

  /** Retrieval, its block check and the context builder. */
  function Retrieve(env: Env, w: World, retriever: CallName, builder: CallName): Step<Option<Record>>
    requires Ready(w)
  {
    hide Apply, EndBlocked, Faithful, Summary, IsBlocked;
    var (w1, _) :- Apply(env, w, retriever, KagRetriever);
    if IsBlocked(w1) then EndBlocked(env, w1, IngestionBlocked)
    else
      var (w2, _) :- Apply(env, w1, builder, ContextBuilder);
      Ok(w2, None)
  }

  lemma KagOn(env: Env, start: Config, c: Config, retriever: CallName, builder: CallName, rest: seq<Item>)
    requires Leads(env, start, c) && c.Config? && Ready(c.w)
    requires c.todo == [Ask(retriever, KagRetriever, Nothing), EndIfBlocked(IngestionBlocked), Ask(builder, ContextBuilder, Nothing)] + rest
    ensures Leads(env, start, Closes(c, Retrieve(env, c.w, retriever, builder), rest))
  {
    hide Apply, EndBlocked, Faithful, Summary, Leads, StopRun, Truthy, World.Update;
    var build := [Ask(builder, ContextBuilder, Nothing)] + rest;
    var check := [EndIfBlocked(IngestionBlocked)] + build;
    assert c.todo == [Ask(retriever, KagRetriever, Nothing)] + check;
    CallOn(env, start, c, retriever, KagRetriever, check);
    var x := Apply(env, c.w, retriever, KagRetriever);
    if x.Ok? {
      BlockOn(env, start, At(c, x.w, check), IngestionBlocked, build);
      if !IsBlocked(x.w) { CallOn(env, start, At(c, x.w, build), builder, ContextBuilder, rest); }
    }
  }

  lemma RefreshWithMore(actions: seq<Action>)
    requires actions != []
    ensures RefreshWithAll(actions) == [RefreshWith(actions[0])] + RefreshWithAll(actions[1..])
  {
  }

  lemma {:induction false} RefreshAllOn(env: Env, start: Config, c: Config, actions: seq<Action>, rest: seq<Item>)
    requires Leads(env, start, c) && c.Config? && c.todo == RefreshWithAll(actions) + rest && Ready(c.w)
    ensures Leads(env, start, Closes(c, RefreshAll(env, c.w, actions), rest))
    decreases |actions|
  {
    hide RefreshStep, Faithful, Summary, Leads, StopRun, World.Update, RefreshWithAll;
    if actions == [] {
      NoItems();
      assert [] + rest == rest;
    } else {
      var more := RefreshWithAll(actions[1..]) + rest;
      RefreshWithMore(actions);
      assert c.todo == [RefreshWith(actions[0])] + more;
      RefreshStepOn(env, start, c, actions[0], more);
      var x := RefreshStep(env, c.w, actions[0]);
      if x.Ok? && x.value.None? { RefreshAllOn(env, start, At(c, x.w, more), actions[1..], rest); }
    }
  }

  lemma NoItems()
    ensures RefreshWithAll([]) == [] && forall skip :: PrepareAll([], skip) == []
    ensures forall r, overlay :: ActOnAll([], r, overlay) == []
  {
  }

  lemma RefreshOn(env: Env, start: Config, c: Config, rest: seq<Item>)
    requires Leads(env, start, c) && c.Config? && c.todo == [RefreshIfDue] + rest && Ready(c.w)
    ensures Leads(env, start, Closes(c, RefreshMaterial(env, c.w), rest))
  {
    hide RefreshAll, Faithful, Summary, Leads, StopRun, World.Update, World.Log, RefreshWithAll, ActionsOf, Dedup, CleanTexts, Texts, Truthy;
    StepOn(env, start, c);
    assert c.todo[1..] == rest;
    var actions := RefreshActions(c.w.state);
    if !Truthy(Get(c.w.state, MaterialRefreshDone)) && actions != [] {
      var w0 := c.w.Set(MaterialRefreshDone, Bool(true)).Log(Planned(Stage.Refresh, actions));
      var last := [Reanalyze] + rest;
      RefreshAllOn(env, start, At(c, w0, RefreshWithAll(actions) + last), actions, last);
      var x := RefreshAll(env, w0, actions);
      if x.Ok? && x.value.None? {
        StepOn(env, start, At(c, x.w, last));
        assert last[1..] == rest;
      }
    }
  }

  // ----- Preparing a round -----

  lemma ResumeOn(env: Env, start: Config, c: Config, overlay: Overlay, rest: seq<Item>)
    requires Leads(env, start, c) && c.Config? && c.todo == ResumeItems(overlay) + rest && Ready(c.w)
    ensures Leads(env, start, Closes(c, ResumeMaterial(env, c.w, overlay), rest))
  {
    hide CompileEvidence, RefreshMaterial, Faithful, Summary, Leads, StopRun, World.Update;
    if overlay.resuming {
      var refresh := [RefreshIfDue] + rest;
      assert c.todo == [Compile(FromDynamicResume)] + refresh;
      CompileOn(env, start, c, FromDynamicResume, refresh);
      var x := CompileEvidence(env, c.w, FromDynamicResume);
      if x.Ok? { RefreshOn(env, start, At(c, x.w, refresh), rest); }
    } else {
      assert [] + rest == rest;
    }
  }

  lemma PrepStepOn(env: Env, start: Config, c: Config, action: Action, skip: seq<Action>, rest: seq<Item>)
    requires Leads(env, start, c) && c.Config? && c.todo == [Prepare(action, skip)] + rest && Ready(c.w)
    ensures Leads(env, start, Closes(c, PrepStep(env, c.w, action, skip), rest))
  {
    hide Apply, CheckBlocked, EndBlocked, Faithful, Summary, Leads, StopRun, Truthy, World.Update;
    StepOn(env, start, c);
    assert c.todo[1..] == rest;
    var c1 := At(c, c.w, (if action in skip then [] else PrepareItems(action)) + rest);
    if action in skip || !(action.InspectData? || action.RetrieveKag?) {
      assert [] + rest == rest;
    } else if action.InspectData? {
      var check := [EndIfBlocked(InspectionBlocked)] + rest;
      assert c1.todo == [Ask(Once(DataInspector), DataInspector, Nothing)] + check;
      CallOn(env, start, c1, Once(DataInspector), DataInspector, check);
      var x := Apply(env, c.w, Once(DataInspector), DataInspector);
      if x.Ok? { BlockOn(env, start, At(c, x.w, check), InspectionBlocked, rest); }
    } else {
      KagOn(env, start, c1, Once(KagRetriever), Once(ContextBuilder), rest);
    }
  }

  lemma PrepareMore(actions: seq<Action>, skip: seq<Action>)
    requires actions != []
    ensures PrepareAll(actions, skip) == [Prepare(actions[0], skip)] + PrepareAll(actions[1..], skip)
  {
  }

  lemma {:induction false} PrepAllOn(env: Env, start: Config, c: Config, actions: seq<Action>, skip: seq<Action>, rest: seq<Item>)
    requires Leads(env, start, c) && c.Config? && c.todo == PrepareAll(actions, skip) + rest && Ready(c.w)
    ensures Leads(env, start, Closes(c, PrepAll(env, c.w, actions, skip), rest))
    decreases |actions|
  {
    hide PrepStep, Faithful, Summary, Leads, StopRun, World.Update, PrepareAll;
    if actions == [] {
      NoItems();
      assert [] + rest == rest;
    } else {
      var more := PrepareAll(actions[1..], skip) + rest;
      PrepareMore(actions, skip);
      assert c.todo == [Prepare(actions[0], skip)] + more;
      PrepStepOn(env, start, c, actions[0], skip, more);
      var x := PrepStep(env, c.w, actions[0], skip);
      if x.Ok? && x.value.None? { PrepAllOn(env, start, At(c, x.w, more), actions[1..], skip, rest); }
    }
  }

  lemma PrepareOn(env: Env, start: Config, c: Config, overlay: Overlay, rest: seq<Item>)
    requires Leads(env, start, c) && c.Config? && Ready(c.w)
    requires c.todo == ResumeItems(overlay) + ([PlanPreparation(overlay.skip)] + rest)
    ensures Leads(env, start, Closes(c, RoundEngine.Prepare(env, c.w, overlay), rest))
  {
    hide ResumeMaterial, PrepAll, Faithful, Summary, Leads, StopRun, World.Update, World.Log, PrepareAll, ResumeItems, ActionsOf, Texts;
    var planned := [PlanPreparation(overlay.skip)] + rest;
    ResumeOn(env, start, c, overlay, planned);
    var x := ResumeMaterial(env, c.w, overlay);
    if x.Ok? && x.value.None? {
      var c1 := At(c, x.w, planned);
      StepOn(env, start, c1);
      assert planned[1..] == rest;
      var actions := NextActionsOf(x.w.state);
      var w := x.w.Log(Planned(Prep, actions));
      PrepAllOn(env, start, At(c, w, PrepareAll(actions, overlay.skip) + rest), actions, overlay.skip, rest);
    }
  }

  // ----- Routing and acting -----

  /** A piece of acting is over: the task has ended, or the round's flags are joined. */
  function Flagging(c: Config, x: Step<Acted>, rest: seq<Item>): Config
    requires c.Config?
  {
    match x
    case Stop(w, halt) => Done(StopRun(w, halt))
    case Ok(w, Ends(result)) => Done(Run(w.Update(result), Concluded(w.state + result)))
    case Ok(w, Flags(coder, dynamic)) => Config(w, rest, c.coder || coder, c.dynamic || dynamic, c.output)
  }

  lemma CodeOn(env: Env, start: Config, c: Config, r: nat, rest: seq<Item>)
    requires Leads(env, start, c) && c.Config? && c.todo == CodeItems(r) + rest && Unaudited(c.w)
    ensures var x := Apply(env, c.w, InRound(Coder, r, Plain), Coder);
            Leads(env, start, if x.Stop? then Done(StopRun(x.w, x.halt)) else Config(x.w, rest, true, c.dynamic, c.output))
  {
    hide Apply, Faithful, Summary, Leads, StopRun;
    var coded := [Coded] + rest;
    assert c.todo == [Ask(InRound(Coder, r, Plain), Coder, Nothing)] + coded;
    CallOn(env, start, c, InRound(Coder, r, Plain), Coder, coded);
    var x := Apply(env, c.w, InRound(Coder, r, Plain), Coder);
    if x.Ok? {
      StepOn(env, start, At(c, x.w, coded));
      assert coded[1..] == rest;
    }
  }

  lemma GatherOn(env: Env, start: Config, c: Config, r: nat, rest: seq<Item>)
    requires Leads(env, start, c) && c.Config? && Ready(c.w)
    requires c.todo == GatherItems(env.hasStaticEvidence, r) + rest
    ensures Leads(env, start, Closes(c, GatherMaterial(env, c.w, r), rest))
  {
    hide Apply, CheckBlocked, CompileEvidence, RefreshMaterial, Faithful, Summary, Leads, StopRun, World.Update;
    var refresh := [RefreshIfDue] + rest;
    var compile := [Compile(FromStaticEvidence)] + refresh;
    var check := [EndIfBlocked(EvidenceBlocked)] + compile;
    var c1 := c;
    if env.hasStaticEvidence {
      assert c.todo == [Ask(InRound(StaticEvidence, r, Plain), StaticEvidence, Nothing)] + check;
      CallOn(env, start, c, InRound(StaticEvidence, r, Plain), StaticEvidence, check);
      var x := Apply(env, c.w, InRound(StaticEvidence, r, Plain), StaticEvidence);
      if x.Stop? { return; }
      c1 := At(c, x.w, check);
    } else {
      assert c.todo == check;
    }
    BlockOn(env, start, c1, EvidenceBlocked, compile);
    var y := CheckBlocked(env, c1.w, EvidenceBlocked);
    assert GatherEvidence(env, c.w, r) == y;
    if y.Ok? && y.value.None? {
      CompileOn(env, start, At(c, y.w, compile), FromStaticEvidence, refresh);
      var z := CompileEvidence(env, y.w, FromStaticEvidence);
      if z.Ok? { RefreshOn(env, start, At(c, z.w, refresh), rest); }
    }
  }

  lemma RerouteOn(env: Env, start: Config, c: Config, r: nat, skip: seq<Action>, rest: seq<Item>)
    requires Leads(env, start, c) && c.Config? && c.todo == [Reroute(r, skip)] + rest && Unaudited(c.w)
    ensures Leads(env, start, Flagging(c, RerouteIfRefreshed(env, c.w, r, skip), rest))
  {
    hide Apply, Faithful, Summary, Leads, StopRun, World.Update, CodeItems, Truthy;
    StepOn(env, start, c);
    assert c.todo[1..] == rest;
    if Truthy(Get(c.w.state, ForceAnalyst)) {
      var more := (if WriteCode in skip then [] else CodeItems(r)) + rest;
      var c1 := At(c, c.w, [Ask(InRound(Analyst, r, AfterRefresh), Analyst, Nothing)] + more);
      CallOn(env, start, c1, InRound(Analyst, r, AfterRefresh), Analyst, more);
      var x := Apply(env, c.w, InRound(Analyst, r, AfterRefresh), Analyst);
      if x.Ok? {
        if WriteCode in skip { assert [] + rest == rest; } else { CodeOn(env, start, At(c, x.w, more), r, rest); }
      }
    }
  }

  lemma EvidenceOn(env: Env, start: Config, c: Config, r: nat, skip: seq<Action>, rest: seq<Item>)
    requires Leads(env, start, c) && c.Config? && Unaudited(c.w)
    requires c.todo == EvidenceItems(env.hasStaticEvidence, r, skip) + rest
    ensures Leads(env, start, Flagging(c, EvidenceStep(env, c.w, r, skip), rest))
  {
    hide GatherMaterial, RerouteIfRefreshed, Faithful, Summary, Leads, StopRun, World.Update, GatherItems;
    var reroute := [Reroute(r, skip)] + rest;
    assert c.todo == GatherItems(env.hasStaticEvidence, r) + reroute;
    GatherOn(env, start, c, r, reroute);
    var x := GatherMaterial(env, c.w, r);
    if x.Ok? && x.value.None? { RerouteOn(env, start, At(c, x.w, reroute), r, skip, rest); }
  }

  lemma ActStepOn(env: Env, start: Config, c: Config, action: Action, r: nat, overlay: Overlay, rest: seq<Item>)
    requires Leads(env, start, c) && c.Config? && c.todo == [ActOn(action, r, overlay)] + rest && Unaudited(c.w)
    ensures Leads(env, start, Flagging(c, ActStep(env, c.w, r, action, overlay), rest))
  {
    hide EvidenceStep, Apply, Faithful, Summary, Leads, StopRun, World.Update, EvidenceItems, CodeItems;
    StepOn(env, start, c);
    assert c.todo[1..] == rest;
    if action.CollectEvidence? && action !in overlay.skip && !overlay.resuming {
      EvidenceOn(env, start, At(c, c.w, EvidenceItems(env.hasStaticEvidence, r, overlay.skip) + rest), r, overlay.skip, rest);
    } else if action.WriteCode? && action !in overlay.skip {
      CodeOn(env, start, At(c, c.w, CodeItems(r) + rest), r, rest);
    }
  }

  lemma ActOnMore(actions: seq<Action>, r: nat, overlay: Overlay)
    requires actions != []
    ensures ActOnAll(actions, r, overlay) == [ActOn(actions[0], r, overlay)] + ActOnAll(actions[1..], r, overlay)
  {
  }

  lemma {:induction false} ActAllOn(env: Env, start: Config, c: Config, actions: seq<Action>, r: nat, overlay: Overlay, rest: seq<Item>)
    requires Leads(env, start, c) && c.Config? && c.todo == ActOnAll(actions, r, overlay) + rest && Unaudited(c.w)
    ensures Leads(env, start, Flagging(c, ActAll(env, c.w, r, actions, overlay), rest))
    decreases |actions|
  {
    hide ActStep, Faithful, Summary, Leads, StopRun, World.Update, ActOnAll;
    if actions == [] {
      NoItems();
      assert [] + rest == rest;
    } else {
      var more := ActOnAll(actions[1..], r, overlay) + rest;
      ActOnMore(actions, r, overlay);
      assert c.todo == [ActOn(actions[0], r, overlay)] + more;
      ActStepOn(env, start, c, actions[0], r, overlay, more);
      var x := ActStep(env, c.w, r, actions[0], overlay);
      if x.Ok? && x.value.Flags? {
        ActAllOn(env, start, Flagging(c, x, more), actions[1..], r, overlay, rest);
      }
    }
  }

  /** The plan of a round is followed. */
  function Follows(c: Config, x: Step<seq<Action>>, r: nat, overlay: Overlay, rest: seq<Item>): Config
    requires c.Config?
  {
    match x
    case Stop(w, halt) => Done(StopRun(w, halt))
    case Ok(w, actions) => At(c, w, ActOnAll(actions, r, overlay) + rest)
  }

  lemma RouteOn(env: Env, start: Config, c: Config, r: nat, overlay: Overlay, rest: seq<Item>)
    requires Leads(env, start, c) && c.Config? && c.todo == [Item.Route(r, overlay)] + rest && Ready(c.w)
    ensures Leads(env, start, Follows(c, RoundEngine.Route(env, c.w, r, overlay), r, overlay, rest))
  {
    hide Apply, Faithful, Summary, Leads, StopRun, World.Update, World.Log, ActOnAll, ActionsOf, Texts, Without, FromActions, Truthy;
    StepOn(env, start, c);
    assert c.todo[1..] == rest;
    if AnalystRuns(c.w.state, overlay) {
      var c1 := At(c, c.w, [Ask(InRound(Analyst, r, Plain), Analyst, TakePlan(r, overlay))] + rest);
      AskOn(env, start, c1, InRound(Analyst, r, Plain), Analyst, TakePlan(r, overlay), rest);
    }
  }

  /** The coder's call on a resume that did not run it. */
  lemma LateCodeOn(env: Env, start: Config, c: Config, r: nat, overlay: Overlay, rest: seq<Item>)
    requires Leads(env, start, c) && c.Config? && c.todo == [CodeOnResume(r, overlay)] + rest && Unaudited(c.w)
    ensures var late := overlay.resuming && Analyze !in overlay.skip && !c.coder && WriteCode !in overlay.skip;
            Leads(env, start,
                  if !late then At(c, c.w, rest)
                  else match Apply(env, c.w, InRound(Coder, r, Plain), Coder)
                    case Stop(w, halt) => Done(StopRun(w, halt))
                    case Ok(w, _) => Config(w, rest, true, c.dynamic, c.output))
  {
    hide Apply, Faithful, Summary, Leads, StopRun, CodeItems;
    StepOn(env, start, c);
    assert c.todo[1..] == rest;
    if overlay.resuming && Analyze !in overlay.skip && !c.coder && WriteCode !in overlay.skip {
      CodeOn(env, start, At(c, c.w, CodeItems(r) + rest), r, rest);
    }
  }

  lemma RouteAndActOn(env: Env, start: Config, c: Config, r: nat, overlay: Overlay, rest: seq<Item>)
    requires Leads(env, start, c) && c.Config? && !c.coder && !c.dynamic && Unaudited(c.w)
    requires c.todo == [Item.Route(r, overlay), CodeOnResume(r, overlay)] + rest
    ensures Leads(env, start, Flagging(c, RouteAndAct(env, c.w, r, overlay), rest))
  {
    hide RoundEngine.Route, ActAll, Apply, Faithful, Summary, Leads, StopRun, World.Update, ActOnAll;
    var late := [CodeOnResume(r, overlay)] + rest;
    assert c.todo == [Item.Route(r, overlay)] + late;
    RouteOn(env, start, c, r, overlay, late);
    var x := RoundEngine.Route(env, c.w, r, overlay);
    if x.Ok? {
      ActAllOn(env, start, Follows(c, x, r, overlay, late), x.value, r, overlay, late);
      var y := ActAll(env, x.w, r, x.value, overlay);
      if y.Ok? && y.value.Flags? {
        LateCodeOn(env, start, Config(y.w, late, y.value.coder, y.value.dynamic, c.output), r, overlay, rest);
      }
    }
  }

  // ----- Audit, execution and harvest -----

  lemma DebugOn(env: Env, start: Config, c: Config, r: nat, debug: Use, audit: Use, rest: seq<Item>)
    requires Leads(env, start, c) && c.Config? && Debuggable(c.w)
    requires c.todo == [Ask(InRound(Debugger, r, debug), Debugger, Nothing), Ask(InRound(Auditor, r, audit), Auditor, Nothing)] + rest
    ensures Leads(env, start, Goes(c, DebugAndAudit(env, c.w, r, debug, audit), rest))
  {
    hide Apply, Faithful, Summary, Leads, StopRun;
    var again := [Ask(InRound(Auditor, r, audit), Auditor, Nothing)] + rest;
    assert c.todo == [Ask(InRound(Debugger, r, debug), Debugger, Nothing)] + again;
    CallOn(env, start, c, InRound(Debugger, r, debug), Debugger, again);
    var x := Apply(env, c.w, InRound(Debugger, r, debug), Debugger);
    if x.Ok? { CallOn(env, start, At(c, x.w, again), InRound(Auditor, r, audit), Auditor, rest); }
  }

  lemma AuditOn(env: Env, start: Config, c: Config, r: nat, rest: seq<Item>)
    requires Leads(env, start, c) && c.Config? && Unaudited(c.w)
    requires c.todo == [Ask(InRound(Auditor, r, Plain), Auditor, DebugRequest(r))] + rest
    ensures Leads(env, start, Goes(c, Audit(env, c.w, r), rest))
  {
    hide Apply, DebugAndAudit, Faithful, Summary, Leads, StopRun;
    AskOn(env, start, c, InRound(Auditor, r, Plain), Auditor, DebugRequest(r), rest);
    var x := Apply(env, c.w, InRound(Auditor, r, Plain), Auditor);
    if x.Ok? {
      if Get(x.value, NextActions) == DebuggerOnly() {
        var debug := [Ask(InRound(Debugger, r, Plain), Debugger, Nothing), Ask(InRound(Auditor, r, PostDebug), Auditor, Nothing)];
        DebugOn(env, start, At(c, x.w, debug + rest), r, Plain, PostDebug, rest);
      } else {
        assert [] + rest == rest;
      }
    }
  }

  /** A piece that yields a round output is over. */
  function Yields(c: Config, x: Step<Value>, rest: seq<Item>): Config
    requires c.Config?
  {
    match x
    case Stop(w, halt) => Done(StopRun(w, halt))
    case Ok(w, output) => Config(w, rest, c.coder, c.dynamic, output)
  }

  /** An executor call and the reading of its output. */
  lemma ExecutorOn(env: Env, start: Config, c: Config, name: CallName, rest: seq<Item>)
    requires Leads(env, start, c) && c.Config? && c.todo == [Ask(name, Executor, TakeOutput)] + rest
    requires Ready(c.w) && Answer(PhaseOf(c.w), Executor).Active?
    ensures var x := Apply(env, c.w, name, Executor);
            Leads(env, start, if x.Stop? then Done(StopRun(x.w, x.halt)) else Config(x.w, rest, c.coder, c.dynamic, OutputOf(x.value)))
  {
    hide Apply, Faithful, Summary, Leads, StopRun, Answer;
    AskOn(env, start, c, name, Executor, TakeOutput, rest);
  }

  lemma RepairOn(env: Env, start: Config, c: Config, r: nat, rest: seq<Item>)
    requires Leads(env, start, c) && c.Config? && c.todo == [RepairIfFailed(r)] + rest
    requires Flagged(c.w, true, false) && PhaseOf(c.w).progress.Executed?
    ensures Leads(env, start, Yields(c, Repair(env, c.w, r, c.output), rest))
  {
    hide Apply, DebugAndAudit, Faithful, Summary, Leads, StopRun, VerificationFailed;
    StepOn(env, start, c);
    assert c.todo[1..] == rest;
    FailedWord();
    if Get(AsDict(c.output), TerminationReason) == VerificationFailed() {
      var retry := InRound(Executor, r, Retry);
      var again := [Ask(retry, Executor, TakeOutput)] + rest;
      var debug := [Ask(InRound(Debugger, r, PostExec), Debugger, Nothing), Ask(InRound(Auditor, r, PostExec), Auditor, Nothing)];
      var c1 := At(c, c.w, debug + again);
      assert c1.todo == [Ask(InRound(Debugger, r, PostExec), Debugger, Nothing), Ask(InRound(Auditor, r, PostExec), Auditor, Nothing),
                         Ask(retry, Executor, TakeOutput)] + rest;
      DebugOn(env, start, c1, r, PostExec, PostExec, again);
      var y := DebugAndAudit(env, c.w, r, PostExec, PostExec);
      if y.Ok? { ExecutorOn(env, start, At(c1, y.w, again), retry, rest); }
    }
  }

  lemma FailedWord()
    ensures VerificationFailed() == Str("verification_failed")
  {
  }

  /** The second half of execution. */
  function Repair(env: Env, w: World, r: nat, output: Value): Step<Value>
    requires Flagged(w, true, false) && PhaseOf(w).progress.Executed?
  {
    hide Apply, DebugAndAudit, Faithful, Summary, VerificationFailed;
    if Get(AsDict(output), TerminationReason) == VerificationFailed() then
      var (w1, _) :- DebugAndAudit(env, w, r, PostExec, PostExec);
      var (w2, second) :- Apply(env, w1, InRound(Executor, r, Retry), Executor);
      Ok(w2, OutputOf(second))
    else Ok(w, output)
  }

  lemma ExecuteOn(env: Env, start: Config, c: Config, r: nat, rest: seq<Item>)
    requires Leads(env, start, c) && c.Config? && c.todo == [Item.Execute(r)] + rest
    requires JustAudited(c.w) && Flagged(c.w, c.coder, c.dynamic)
    ensures Leads(env, start, Yields(c, ExecuteIfDue(env, c.w, r, c.coder, c.dynamic), rest))
  {
    hide Apply, DebugAndAudit, Faithful, Summary, Leads, StopRun, VerificationFailed;
    StepOn(env, start, c);
    assert c.todo[1..] == rest;
    if c.coder && !c.dynamic {
      var name := InRound(Executor, r, Plain);
      var repair := [RepairIfFailed(r)] + rest;
      var c1 := At(c, c.w, [Ask(name, Executor, TakeOutput), RepairIfFailed(r)] + rest);
      assert c1.todo == [Ask(name, Executor, TakeOutput)] + repair;
      ExecutorOn(env, start, c1, name, repair);
      var x := Apply(env, c.w, name, Executor);
      if x.Ok? { RepairOn(env, start, Config(x.w, repair, c.coder, c.dynamic, OutputOf(x.value)), r, rest); }
    }
  }

  lemma ConcludeOn(env: Env, start: Config, c: Config, r: nat, rest: seq<Item>)
    requires Leads(env, start, c) && c.Config? && Unaudited(c.w) && Flagged(c.w, c.coder, c.dynamic)
    requires c.todo == [Ask(InRound(Auditor, r, Plain), Auditor, DebugRequest(r)), Item.Execute(r),
                        Ask(InRound(SkillHarvester, r, Plain), SkillHarvester, Nothing)] + rest
    ensures Leads(env, start, Yields(c, Conclude(env, c.w, r, c.coder, c.dynamic), rest))
  {
    hide Audit, ExecuteIfDue, Apply, Faithful, Summary, Leads, StopRun;
    var harvest := [Ask(InRound(SkillHarvester, r, Plain), SkillHarvester, Nothing)] + rest;
    var execute := [Item.Execute(r)] + harvest;
    assert c.todo == [Ask(InRound(Auditor, r, Plain), Auditor, DebugRequest(r))] + execute;
    AuditOn(env, start, c, r, execute);
    var x := Audit(env, c.w, r);
    if x.Ok? {
      ExecuteOn(env, start, At(c, x.w, execute), r, harvest);
      var y := ExecuteIfDue(env, x.w, r, c.coder, c.dynamic);
      if y.Ok? {
        CallOn(env, start, Config(y.w, harvest, c.coder, c.dynamic, y.value), InRound(SkillHarvester, r, Plain), SkillHarvester, rest);
      }
    }
  }

  // ----- Rounds and runs -----

  /** What a round that produced an output leads to. */
  function AfterOutput(x: Step<Next>, r: nat): Config {
    match x
    case Stop(w, halt) => Done(StopRun(w, halt))
    case Ok(w, Return(result)) => Done(Run(w, Concluded(result)))
    case Ok(w, Again) => Between(w, NextRound(r))
    case Ok(w, Finish) => Between(w, CloseItems())
  }

  lemma FollowUpOn(env: Env, start: Config, c: Config, r: nat)
    requires Leads(env, start, c) && c.Config? && c.todo == [Item.FollowUp(r)] && Ready(c.w)
    ensures Leads(env, start, AfterOutput(AfterRound(env, c.w, c.output), r))
  {
    hide Apply, Faithful, Summary, Leads, StopRun, Truthy, NextRound, CloseItems;
    StepOn(env, start, c);
    var w := c.w.Set(RoundOutput, c.output);
    var fields := AsDict(c.output);
    if !Truthy(Get(w.state, TerminalStatus)) && NumberOf(Get(fields, AdditionalRounds)) <= 0 && Truthy(Get(fields, RequiresDynamic)) {
      var continue' := [ContinueIfResumed(r)];
      var c1 := Between(w, [Ask(Once(Dynamic), Dynamic, Nothing), ContinueIfResumed(r)]);
      assert c1.todo == [Ask(Once(Dynamic), Dynamic, Nothing)] + continue';
      CallOn(env, start, c1, Once(Dynamic), Dynamic, continue');
      var x := Apply(env, w, Once(Dynamic), Dynamic);
      if x.Ok? { StepOn(env, start, At(c1, x.w, continue')); }
    }
  }

  lemma RoundOn(env: Env, start: Config, c: Config, r: nat)
    requires Leads(env, start, c) && c.Config? && c == Between(c.w, [Begin(r)]) && AtRound(c.w, r)
    ensures Leads(env, start, AfterOutput(RoundAndNext(env, c.w, r), r))
  {
    hide RoundEngine.Prepare, RouteAndAct, Conclude, AfterRound, Faithful, Summary, Leads, StopRun, World.Update, World.Log, OverlayOf;
    StepOn(env, start, c);
    var w0 := BeginRound(c.w, r);
    var overlay := OverlayOf(Get(w0.state, DynamicResumeOverlay));
    var items := RoundItems(r, overlay);
    var follow := [Item.FollowUp(r)];
    var conclude := [Ask(InRound(Auditor, r, Plain), Auditor, DebugRequest(r)), Item.Execute(r),
                     Ask(InRound(SkillHarvester, r, Plain), SkillHarvester, Nothing)] + follow;
    assert items == [Item.Route(r, overlay), CodeOnResume(r, overlay)] + conclude;
    PrepareOn(env, start, Between(w0, ResumeItems(overlay) + ([PlanPreparation(overlay.skip)] + items)), overlay, items);
    var x := RoundEngine.Prepare(env, w0, overlay);
    if x.Ok? && x.value.None? {
      RouteAndActOn(env, start, Between(x.w, items), r, overlay, conclude);
      var y := RouteAndAct(env, x.w, r, overlay);
      if y.Ok? && y.value.Flags? {
        var c1 := Config(y.w, conclude, y.value.coder, y.value.dynamic, Null);
        ConcludeOn(env, start, c1, r, follow);
        var z := Conclude(env, y.w, r, y.value.coder, y.value.dynamic);
        if z.Ok? { FollowUpOn(env, start, Config(z.w, follow, y.value.coder, y.value.dynamic, z.value), r); }
      }
    }
  }

  /** All rounds are over: the task has ended, or is to be closed. */
  function AfterRounds(x: Step<Option<Record>>): Config {
    match x
    case Stop(w, halt) => Done(StopRun(w, halt))
    case Ok(w, Some(result)) => Done(Run(w, Concluded(result)))
    case Ok(w, None) => Between(w, CloseItems())
  }

  lemma {:induction false} RoundsOn(env: Env, start: Config, w: World, r: nat)
    requires Ready(w) && RoundsBegun(w) == r <= MAX_STATIC_ROUNDS
    requires Leads(env, start, Between(w, if r < 3 then [Begin(r)] else CloseItems()))
    ensures Leads(env, start, AfterRounds(RoundsFrom(env, w, r)))
    decreases MAX_STATIC_ROUNDS - r
  {
    hide RoundAndNext, Faithful, Summary, Leads, StopRun, CloseItems;
    if r < MAX_STATIC_ROUNDS {
      RoundOn(env, start, Between(w, [Begin(r)]), r);
      var x := RoundAndNext(env, w, r);
      if x.Ok? && x.value.Again? { RoundsOn(env, start, x.w, r + 1); }
    }
  }

  lemma CloseOn(env: Env, start: Config, w: World)
    requires Leads(env, start, Between(w, CloseItems())) && Ready(w)
    ensures var x := Close(env, w);
            Leads(env, start, Done(if x.Stop? then StopRun(x.w, x.halt) else Run(x.w, Concluded(x.value))))
  {
    hide Apply, Faithful, Summary, Leads, StopRun, FinalVerdict;
    assert CloseItems() == [Ask(Once(Summarizer), Summarizer, Nothing)] + [Judge];
    CallOn(env, start, Between(w, CloseItems()), Once(Summarizer), Summarizer, [Judge]);
    var x := Apply(env, w, Once(Summarizer), Summarizer);
    if x.Ok? { StepOn(env, start, Between(x.w, [Judge])); }
  }

  /** Every run of the task flow is what its agenda leads to. */
  lemma RunFollowsAgenda(env: Env, initial: Record, tables: Tables)
    ensures Leads(env, Agenda.Start(initial, tables), Done(TaskFlow(env, initial, tables)))
  {
    hide RoundsFrom, Close, Faithful, Summary, Leads, StopRun;
    Begins(initial, tables);
    var w, start := StartOf(initial, tables), Agenda.Start(initial, tables);
    StandsStill(env, start);
    RoundsOn(env, start, w, 0);
    var x := RoundsFrom(env, w, 0);
    if x.Ok? && x.value.None? { CloseOn(env, start, x.w); }
  }

  /** ... and nothing else: an agenda is done in one way only. */
  lemma {:induction false} AgendaEndsOnce(env: Env, c: Config, one: Run, other: Run)
    requires Leads(env, c, Done(one)) && Leads(env, c, Done(other))
    ensures one == other
  {
    hide Advance;
    var m: nat :| Steps(env, c, m) == Done(one);
    var n: nat :| Steps(env, c, n) == Done(other);
    StepsSum(env, c, m, n);
    StepsSum(env, c, n, m);
  }
}
