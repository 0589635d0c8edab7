/** A restart is invisible.  Compare an uncut run with an attempt at the same task that starts
    from what earlier attempts saved: as long as the attempt is not stopped itself, it gets the
    same answer from every call, keeps the same state and concludes with the same result. */
module RestartTransparency {
  import opened Values
  import opened Checkpoints
  import opened CheckpointLaws
  import opened RoundEngine

  /** The decisions that the engine takes on a node's own patch come out alike. */
  ghost predicate DecideAlike(node: Node, p: Record, q: Record) {
    match node
    case Analyst => NextActionsOf(p) == NextActionsOf(q)
    case Auditor => Get(p, NextActions) == DebuggerOnly() <==> Get(q, NextActions) == DebuggerOnly()
    case Executor => OutputOf(p) == OutputOf(q)
    case _ => true
  }

  /** Folding either patch into this state gives the same state, and the same decisions follow. */
  ghost predicate SameEffect(node: Node, state: Record, p: Record, q: Record) {
    state + p == state + q && DecideAlike(node, p, q)
  }

  /** The store serves a run: each patch of its log is kept in a form that can be replayed, and that has the
      effect, on the state the patch was folded into, of the patch itself. */
  ghost predicate StoreServes(log: seq<Event>) {
    forall e :: e in log && e.Call? && e.fate.Finished? ==>
      e.fate.kept != map[] && SameEffect(e.node, e.fate.into, e.fate.output, e.fate.kept)
  }

  /** An uncut run, an attempt, the node functions both use, and the table the uncut run ends with. */
  datatype Pair = Pair(uncut: Env, attempt: Env, node: (Node, Record) -> NodeOutcome, final: Option<Table>) {

    /** The nodes are functions of the state (in the attempt they may also fail), and both runs keep patches
        in the same form. */
    ghost predicate SameTask() {
      && uncut.hasEvidenceCompiler == attempt.hasEvidenceCompiler
      && uncut.hasStaticEvidence == attempt.hasStaticEvidence
      && uncut.render == attempt.render
      && (forall clock, n, s :: uncut.node(clock, n, s) == node(n, s))
      && (forall clock, n, s :: attempt.node(clock, n, s) == node(n, s) || !attempt.node(clock, n, s).Returned?)
      && (forall patch :: uncut.stored(patch) == attempt.stored(patch))
    }

    /** What the uncut run completed so far, it still has when it ends, and the store serves it. */
    ghost predicate Agrees(t: Tables, log: seq<Event>) {
      Keeps(t.mem, final) && (t.mem.Some? ==> StoreServes(log))
    }

    /** The attempt holds only answers that the uncut run ends with. */
    ghost predicate Within(t: Tables) {
      Keeps(t.mem, final) && Keeps(t.store, final)
    }

    ghost predicate TablesLinked(u: Tables, a: Tables) {
      Within(a) && Keeps(u.mem, a.mem) && (u.mem.Some? <==> a.mem.Some?)
    }

    /** Both runs have the same state, and the attempt's table is ahead of the uncut run's. */
    ghost predicate Linked(u: World, a: World) {
      u.state == a.state && TablesLinked(u.tables, a.tables)
    }

    /** The same piece of the flow, run by both: it can only add to what the uncut run completed;
        and from linked worlds, if the uncut run gets through it, the attempt keeps to the uncut
        run's answers and, unless it is stopped, gets through it with the same value. */
    ghost predicate Matches<T>(u: World, a: World, x: Step<T>, y: Step<T>) {
      && (Agrees(x.w.tables, x.w.trace) ==> Agrees(u.tables, u.trace))
      && (Linked(u, a) && Agrees(x.w.tables, x.w.trace) && x.Ok? ==>
            Within(y.w.tables) && (y.Ok? ==> x.value == y.value && Linked(x.w, y.w)))
    }

    /** The same for one call, whose answers need only have the same effect. */
    ghost predicate CallMatches(u: World, a: World, node: Node, x: Step<Record>, y: Step<Record>) {
      && (Agrees(x.w.tables, x.w.trace) ==> Agrees(u.tables, u.trace))
      && (Linked(u, a) && Agrees(x.w.tables, x.w.trace) && x.Ok? ==>
            Within(y.w.tables) && (y.Ok? ==> SameEffect(node, u.state, x.value, y.value) && Linked(x.w, y.w)))
    }
  }

  /** The same call in both logs: if both ran the node, they ran it to the same patch, kept alike. */
  ghost predicate SameCall(e: Event, f: Event) {
    && Answered(e) && f.Call? && f.name == e.name
    && (e.fate.Finished? && f.fate.Finished? ==> e.fate.output == f.fate.output && e.fate.kept == f.fate.kept)
  }

  /** The store serves this call. */
  ghost predicate Served(e: Event) {
    e.Call? && e.fate.Finished? ==> e.fate.kept != map[] && SameEffect(e.node, e.fate.into, e.fate.output, e.fate.kept)
  }

  lemma AttemptStaysWithin(p: Pair, u: Tables, a: Tables, e: Event, f: Event)
    requires p.TablesLinked(u, a) && Allowed(u, e) && Allowed(a, f) && SameCall(e, f) && (u.mem.Some? ==> Served(e))
    requires Keeps(After(u, e).mem, p.final)
    ensures p.Within(After(a, f))
  {
    hide SameEffect;
    assert f.fate.Finished? && u.mem.Some? && e.fate.Finished? ==> Replay(p.final, e.name) == Some(e.fate.kept);
  }

  lemma SameAnswer(p: Pair, u: Tables, a: Tables, e: Event, f: Event, state: Record)
    requires p.TablesLinked(u, a) && Allowed(u, e) && Allowed(a, f) && SameCall(e, f) && (u.mem.Some? ==> Served(e))
    requires Keeps(After(u, e).mem, p.final) && Answered(f)
    requires e.fate.Finished? ==> e.fate.into == state
    ensures SameEffect(e.node, state, PatchOf(e), PatchOf(f))
    ensures Keeps(After(u, e).mem, After(a, f).mem)
    ensures After(u, e).mem.Some? <==> After(a, f).mem.Some?
  {
    hide SameEffect;
    EffectIsReflexive(e.node, state, PatchOf(e));
    if u.mem.Some? {
      var kept := if e.fate.Replayed? then e.fate.replay else e.fate.kept;
      assert Replay(After(u, e).mem, e.name) == Some(kept);
      assert Replay(a.mem, e.name).Some? ==> Replay(a.mem, e.name) == Replay(p.final, e.name);
      assert Replay(After(a, f).mem, e.name) == Some(kept);
    }
  }

  lemma EffectIsReflexive(node: Node, state: Record, p: Record)
    ensures SameEffect(node, state, p, p)
  {
  }

  lemma SameCalls(p: Pair, u: World, a: World, name: CallName, node: Node, input: Record)
    requires p.SameTask()
    requires Answered(EventOf(p.uncut, u, name, node, input)) && EventOf(p.attempt, a, name, node, input).Call?
    ensures SameCall(EventOf(p.uncut, u, name, node, input), EventOf(p.attempt, a, name, node, input))
    ensures var e := EventOf(p.uncut, u, name, node, input); e.node == node && (e.fate.Finished? ==> e.fate.into == u.state)
  {
    hide LeaseProblem, Replay;
  }

  ghost function EventOf(env: Env, w: World, name: CallName, node: Node, input: Record): Event {
    NodeEvent(env, |w.trace|, w.tables.mem, name, node, input, w.state)
  }

  /** What the store serves of a longer log it serves of a shorter one. */
  lemma ServesLess(log: seq<Event>, e: Event)
    requires StoreServes(log + [e])
    ensures StoreServes(log) && Served(e)
  {
    hide SameEffect;
    assert e in log + [e];
    assert forall f :: f in log ==> f in log + [e];
  }

  lemma CallOnlyAdds(p: Pair, w: World, e: Event, next: World)
    requires Allowed(w.tables, e) && next.trace == w.trace + [e] && next.tables == After(w.tables, e)
    requires p.Agrees(next.tables, next.trace)
    ensures p.Agrees(w.tables, w.trace) && (w.tables.mem.Some? ==> Served(e)) && Keeps(next.tables.mem, p.final)
  {
    hide Keeps, Served, StoreServes, Replay;
    AfterKeeps(w.tables, e);
    KeepsIsTransitive(w.tables.mem, next.tables.mem, p.final);
    MemStays(w.tables, e);
    if w.tables.mem.Some? { ServesLess(w.trace, e); }
  }

  lemma MemStays(t: Tables, e: Event)
    ensures After(t, e).mem.Some? <==> t.mem.Some?
  {
  }

  lemma NodeMatches(p: Pair, u: World, a: World, name: CallName, node: Node, iu: Record, ia: Record)
    requires p.SameTask()
    requires u.state == a.state ==> iu == ia
    ensures p.CallMatches(u, a, node, RunNode(p.uncut, u, name, node, iu), RunNode(p.attempt, a, name, node, ia))
  {
    hide RunNode, NodeEvent, After, Keeps, Replay, Allowed, Pair.SameTask, SameCall, Pair.Within, Pair.Agrees, PatchOf, Served, SameEffect;
    var x, y := RunNode(p.uncut, u, name, node, iu), RunNode(p.attempt, a, name, node, ia);
    var e, f := EventOf(p.uncut, u, name, node, iu), EventOf(p.attempt, a, name, node, ia);
    CallMeans(p.uncut, u, name, node, iu);
    CallMeans(p.attempt, a, name, node, ia);
    if p.Agrees(x.w.tables, x.w.trace) {
      CallOnlyAdds(p, u, e, x.w);
      if p.Linked(u, a) && x.Ok? {
        if f.Call? {
          SameCalls(p, u, a, name, node, iu);
          AttemptStaysWithin(p, u.tables, a.tables, e, f);
          if y.Ok? { SameAnswer(p, u.tables, a.tables, e, f, u.state); }
        } else {
          AfterDenied(a.tables, f);
        }
      }
    }
  }

  lemma LogAgrees(p: Pair, w: World, e: Event)
    requires !e.Call? && p.Agrees(w.Log(e).tables, w.Log(e).trace)
    ensures p.Agrees(w.tables, w.trace)
  {
    hide SameEffect, Keeps;
    if w.tables.mem.Some? { ServesLess(w.trace, e); }
  }

  lemma AfterDenied(t: Tables, e: Event)
    requires !e.Call?
    ensures After(t, e) == t
  {
  }

  lemma KeepsIsTransitive(a: Option<Table>, b: Option<Table>, c: Option<Table>)
    ensures Keeps(a, b) && Keeps(b, c) ==> Keeps(a, c)
  {
  }

  /** What the two environments share beyond their nodes. */
  lemma SameText(p: Pair)
    requires p.SameTask()
    ensures p.uncut.hasEvidenceCompiler == p.attempt.hasEvidenceCompiler
    ensures p.uncut.hasStaticEvidence == p.attempt.hasStaticEvidence
    ensures forall v, default :: Text(p.uncut, v, default) == Text(p.attempt, v, default)
  {
  }

  lemma SameVerdict(p: Pair)
    requires p.SameTask()
    ensures forall state :: FinalVerdict(p.uncut, state) == FinalVerdict(p.attempt, state)
  {
    hide EndingOf, VerdictOn;
    forall state ensures EndingOf(p.uncut, state) == EndingOf(p.attempt, state) { SameEnding(p, state); }
  }

  lemma SameEnding(p: Pair, state: Record)
    requires p.SameTask()
    ensures EndingOf(p.uncut, state) == EndingOf(p.attempt, state)
  {
    hide AsksForInputs, Text, Pair.SameTask, Truthy, ExecutionError;
    SameText(p);
    SameExecutionError(p);
  }

  lemma SameExecutionError(p: Pair)
    requires p.SameTask()
    ensures forall record :: ExecutionError(p.uncut, record) == ExecutionError(p.attempt, record)
  {
  }

  lemma BeginRoundKeeps(w: World, r: nat)
    requires AtRound(w, r)
    ensures BeginRound(w, r).state == w.state[RoundIndex := Num(r)] && BeginRound(w, r).tables == w.tables
    ensures BeginRound(w, r).trace == w.trace + [RoundBegan(r)]
  {
    hide Faithful, Summary;
  }

  // ----- Piece by piece through the flow -----

  lemma {:induction false} ApplyMatches(p: Pair, u: World, a: World, name: CallName, node: Node)
    requires p.SameTask() && Ready(u) && Answer(PhaseOf(u), node).Active? && Ready(a) && Answer(PhaseOf(a), node).Active?
    ensures var x, y := Apply(p.uncut, u, name, node), Apply(p.attempt, a, name, node);
            && p.CallMatches(u, a, node, x, y)
            && (p.Linked(u, a) && p.Agrees(x.w.tables, x.w.trace) && x.Ok? && y.Ok? ==> DecideAlike(node, x.value, y.value))
  {
    hide RunNode, Answer, Pair.SameTask, Pair.Agrees, Pair.Within, Keeps, Faithful, Summary, Waiting, DecideAlike;
    NodeMatches(p, u, a, name, node, u.state, a.state);
  }

  lemma {:induction false} SummarizeBlockedMatches(p: Pair, u: World, a: World, block: Block)
    requires p.SameTask() && Ready(u) && Ready(a)
    ensures p.CallMatches(u, a, Summarizer, SummarizeBlocked(p.uncut, u, block), SummarizeBlocked(p.attempt, a, block))
    ensures SummarizeBlocked(p.uncut, u, block).w.state == u.state && SummarizeBlocked(p.attempt, a, block).w.state == a.state
  {
    hide RunNode, Pair.SameTask, Pair.Agrees, Pair.Within, Keeps, Faithful, Summary, Waiting, SameEffect;
    var haltedU, haltedA := HaltAt(u, block), HaltAt(a, block);
    NodeMatches(p, haltedU, haltedA, Once(Summarizer), Summarizer, haltedU.state, haltedA.state);
    if p.Agrees(haltedU.tables, haltedU.trace) { LogAgrees(p, u, Halted(block)); }
  }

  lemma {:induction false} EndBlockedMatches(p: Pair, u: World, a: World, block: Block)
    requires p.SameTask() && Ready(u) && Ready(a)
    ensures p.Matches(u, a, EndBlocked(p.uncut, u, block), EndBlocked(p.attempt, a, block))
  {
    hide SummarizeBlocked, Verdict, BlockFailure, BlockSubStatus, MaterialBlocked, Text, Pair.SameTask, Pair.Agrees, Pair.Within, Keeps, Faithful, Summary, Waiting;
    SummarizeBlockedMatches(p, u, a, block);
    SameText(p);
  }

  lemma {:induction false} CheckBlockedMatches(p: Pair, u: World, a: World, block: Block)
    requires p.SameTask() && Ready(u) && Ready(a)
    ensures p.Matches(u, a, CheckBlocked(p.uncut, u, block), CheckBlocked(p.attempt, a, block))
  {
    hide EndBlocked, Truthy, Pair.SameTask, Pair.Agrees, Pair.Within, Keeps, Faithful, Summary, Waiting;
    EndBlockedMatches(p, u, a, block);
  }

  lemma {:induction false} CompileEvidenceMatches(p: Pair, u: World, a: World, source: Source)
    requires p.SameTask() && Ready(u) && Ready(a)
    ensures p.Matches(u, a, CompileEvidence(p.uncut, u, source), CompileEvidence(p.attempt, a, source))
  {
    hide RunNode, CleanTexts, Texts, FromTexts, SourceText, Pair.SameTask, Pair.Agrees, Pair.Within, Keeps, Faithful, Summary, Waiting;
    SameText(p);
    NodeMatches(p, u, a, CompiledFrom(source), EvidenceCompiler,
                u.state[EvidenceCompilerSource := Str(SourceText(source))],
                a.state[EvidenceCompilerSource := Str(SourceText(source))]);
  }

  lemma {:induction false} RefreshStepMatches(p: Pair, u: World, a: World, action: Action)
    requires p.SameTask() && Ready(u) && Ready(a)
    ensures p.Matches(u, a, RefreshStep(p.uncut, u, action), RefreshStep(p.attempt, a, action))
  {
    hide Apply, CheckBlocked, EndBlocked, Truthy, Pair.SameTask, Pair.Agrees, Pair.Within, Keeps, Faithful, Summary, Waiting;
    match action
    case InspectData =>
      var x, y := Apply(p.uncut, u, Refreshed(DataInspector), DataInspector), Apply(p.attempt, a, Refreshed(DataInspector), DataInspector);
      ApplyMatches(p, u, a, Refreshed(DataInspector), DataInspector);
      if x.Ok? { CheckBlockedMatches(p, x.w, if y.Ok? then y.w else x.w, InspectionBlocked); }
    case RetrieveKag =>
      var x, y := Apply(p.uncut, u, Refreshed(KagRetriever), KagRetriever), Apply(p.attempt, a, Refreshed(KagRetriever), KagRetriever);
      ApplyMatches(p, u, a, Refreshed(KagRetriever), KagRetriever);
      if x.Ok? {
        var a1 := if y.Ok? then y.w else x.w;
        EndBlockedMatches(p, x.w, a1, IngestionBlocked);
        ApplyMatches(p, x.w, a1, Refreshed(ContextBuilder), ContextBuilder);
      }
    case BuildContext => ApplyMatches(p, u, a, Refreshed(ContextBuilder), ContextBuilder);
    case _ =>
  }

  lemma {:induction false} RefreshAllMatches(p: Pair, u: World, a: World, actions: seq<Action>)
    requires p.SameTask() && Ready(u) && Ready(a)
    ensures p.Matches(u, a, RefreshAll(p.uncut, u, actions), RefreshAll(p.attempt, a, actions))
    decreases |actions|
  {
    hide RefreshStep, Pair.SameTask, Pair.Agrees, Pair.Within, Keeps, Faithful, Summary, Waiting;
    if actions != [] {
      var x, y := RefreshStep(p.uncut, u, actions[0]), RefreshStep(p.attempt, a, actions[0]);
      RefreshStepMatches(p, u, a, actions[0]);
      if x.Ok? && x.value.None? {
        RefreshAllMatches(p, x.w, if y.Ok? && y.value.None? then y.w else x.w, actions[1..]);
      }
    }
  }

  lemma {:induction false} RefreshMaterialMatches(p: Pair, u: World, a: World)
    requires p.SameTask() && Ready(u) && Ready(a)
    ensures p.Matches(u, a, RefreshMaterial(p.uncut, u), RefreshMaterial(p.attempt, a))
  {
    hide World.Log, RefreshAll, RefreshActions, Truthy, Pair.SameTask, Pair.Agrees, Pair.Within, Keeps, Faithful, Summary, Waiting;
    var u', a' := u.Set(MaterialRefreshDone, Bool(true)), a.Set(MaterialRefreshDone, Bool(true));
    if !Truthy(Get(u.state, MaterialRefreshDone)) && RefreshActions(u.state) != [] {
      var acts := RefreshActions(u.state);
      var u1, a1 := u'.Log(Planned(Refresh, acts)), a'.Log(Planned(Refresh, acts));
      RefreshAllMatches(p, u1, a1, acts);
      if p.Agrees(u1.tables, u1.trace) { LogAgrees(p, u', Planned(Refresh, acts)); }
    }
  }

  lemma {:induction false} ResumeMaterialMatches(p: Pair, u: World, a: World, overlay: Overlay)
    requires p.SameTask() && Ready(u) && Ready(a)
    ensures p.Matches(u, a, ResumeMaterial(p.uncut, u, overlay), ResumeMaterial(p.attempt, a, overlay))
  {
    hide CompileEvidence, RefreshMaterial, Pair.SameTask, Pair.Agrees, Pair.Within, Keeps, Faithful, Summary, Waiting;
    var x, y := CompileEvidence(p.uncut, u, FromDynamicResume), CompileEvidence(p.attempt, a, FromDynamicResume);
    CompileEvidenceMatches(p, u, a, FromDynamicResume);
    if x.Ok? { RefreshMaterialMatches(p, x.w, if y.Ok? then y.w else x.w); }
  }

  lemma {:induction false} PrepStepMatches(p: Pair, u: World, a: World, action: Action, skip: seq<Action>)
    requires p.SameTask() && Ready(u) && Ready(a)
    ensures p.Matches(u, a, PrepStep(p.uncut, u, action, skip), PrepStep(p.attempt, a, action, skip))
  {
    hide Apply, CheckBlocked, EndBlocked, Truthy, Pair.SameTask, Pair.Agrees, Pair.Within, Keeps, Faithful, Summary, Waiting;
    if action.InspectData? && action !in skip {
      var x, y := Apply(p.uncut, u, Once(DataInspector), DataInspector), Apply(p.attempt, a, Once(DataInspector), DataInspector);
      ApplyMatches(p, u, a, Once(DataInspector), DataInspector);
      if x.Ok? { CheckBlockedMatches(p, x.w, if y.Ok? then y.w else x.w, InspectionBlocked); }
    } else if action.RetrieveKag? && action !in skip {
      var x, y := Apply(p.uncut, u, Once(KagRetriever), KagRetriever), Apply(p.attempt, a, Once(KagRetriever), KagRetriever);
      ApplyMatches(p, u, a, Once(KagRetriever), KagRetriever);
      if x.Ok? {
        var a1 := if y.Ok? then y.w else x.w;
        EndBlockedMatches(p, x.w, a1, IngestionBlocked);
        ApplyMatches(p, x.w, a1, Once(ContextBuilder), ContextBuilder);
      }
    }
  }

  lemma {:induction false} PrepAllMatches(p: Pair, u: World, a: World, actions: seq<Action>, skip: seq<Action>)
    requires p.SameTask() && Ready(u) && Ready(a)
    ensures p.Matches(u, a, PrepAll(p.uncut, u, actions, skip), PrepAll(p.attempt, a, actions, skip))
    decreases |actions|
  {
    hide PrepStep, Pair.SameTask, Pair.Agrees, Pair.Within, Keeps, Faithful, Summary, Waiting;
    if actions != [] {
      var x, y := PrepStep(p.uncut, u, actions[0], skip), PrepStep(p.attempt, a, actions[0], skip);
      PrepStepMatches(p, u, a, actions[0], skip);
      if x.Ok? && x.value.None? {
        PrepAllMatches(p, x.w, if y.Ok? && y.value.None? then y.w else x.w, actions[1..], skip);
      }
    }
  }

  lemma {:induction false} PrepareMatches(p: Pair, u: World, a: World, overlay: Overlay)
    requires p.SameTask() && Ready(u) && Ready(a)
    ensures p.Matches(u, a, Prepare(p.uncut, u, overlay), Prepare(p.attempt, a, overlay))
  {
    hide World.Log, ResumeMaterial, PrepAll, NextActionsOf, Pair.SameTask, Pair.Agrees, Pair.Within, Keeps, Faithful, Summary, Waiting;
    var x, y := ResumeMaterial(p.uncut, u, overlay), ResumeMaterial(p.attempt, a, overlay);
    ResumeMaterialMatches(p, u, a, overlay);
    if x.Ok? && x.value.None? {
      var a1 := if y.Ok? && y.value.None? && y.w.state == x.w.state then y.w else x.w;
      var acts := NextActionsOf(x.w.state);
      var u2, a2 := x.w.Log(Planned(Prep, acts)), a1.Log(Planned(Prep, acts));
      PrepAllMatches(p, u2, a2, acts, overlay.skip);
      if p.Agrees(u2.tables, u2.trace) { LogAgrees(p, x.w, Planned(Prep, acts)); }
    }
  }

  lemma {:induction false} RouteMatches(p: Pair, u: World, a: World, r: nat, overlay: Overlay)
    requires p.SameTask() && Ready(u) && Ready(a)
    ensures p.Matches(u, a, Route(p.uncut, u, r, overlay), Route(p.attempt, a, r, overlay))
  {
    hide Apply, AnalystRuns, Without, FromActions, NextActionsOf, Pair.SameTask, Pair.Agrees, Pair.Within, Keeps, Faithful, Summary, Waiting;
    ApplyMatches(p, u, a, InRound(Analyst, r, Plain), Analyst);
    var x := Route(p.uncut, u, r, overlay);
    if p.Agrees(x.w.tables, x.w.trace) && x.Ok? {
      var before := if AnalystRuns(u.state, overlay) then Apply(p.uncut, u, InRound(Analyst, r, Plain), Analyst).w else u;
      LogAgrees(p, before, Planned(Act, x.value));
    }
  }

  lemma {:induction false} GatherEvidenceMatches(p: Pair, u: World, a: World, r: nat)
    requires p.SameTask() && Ready(u) && Ready(a)
    ensures p.Matches(u, a, GatherEvidence(p.uncut, u, r), GatherEvidence(p.attempt, a, r))
  {
    hide Apply, CheckBlocked, Pair.SameTask, Pair.Agrees, Pair.Within, Keeps, Faithful, Summary, Waiting;
    SameText(p);
    var x, y := Apply(p.uncut, u, InRound(StaticEvidence, r, Plain), StaticEvidence), Apply(p.attempt, a, InRound(StaticEvidence, r, Plain), StaticEvidence);
    ApplyMatches(p, u, a, InRound(StaticEvidence, r, Plain), StaticEvidence);
    CheckBlockedMatches(p, u, a, EvidenceBlocked);
    if x.Ok? { CheckBlockedMatches(p, x.w, if y.Ok? then y.w else x.w, EvidenceBlocked); }
  }

  lemma {:induction false} GatherMaterialMatches(p: Pair, u: World, a: World, r: nat)
    requires p.SameTask() && Ready(u) && Ready(a)
    ensures p.Matches(u, a, GatherMaterial(p.uncut, u, r), GatherMaterial(p.attempt, a, r))
  {
    hide GatherEvidence, CompileEvidence, RefreshMaterial, Pair.SameTask, Pair.Agrees, Pair.Within, Keeps, Faithful, Summary, Waiting;
    var x, y := GatherEvidence(p.uncut, u, r), GatherEvidence(p.attempt, a, r);
    GatherEvidenceMatches(p, u, a, r);
    if x.Ok? && x.value.None? {
      var a1 := if y.Ok? && y.value.None? then y.w else x.w;
      var x2, y2 := CompileEvidence(p.uncut, x.w, FromStaticEvidence), CompileEvidence(p.attempt, a1, FromStaticEvidence);
      CompileEvidenceMatches(p, x.w, a1, FromStaticEvidence);
      if x2.Ok? { RefreshMaterialMatches(p, x2.w, if y2.Ok? then y2.w else x2.w); }
    }
  }

  lemma {:induction false} RerouteIfRefreshedMatches(p: Pair, u: World, a: World, r: nat, skip: seq<Action>)
    requires p.SameTask() && Unaudited(u) && Unaudited(a)
    ensures p.Matches(u, a, RerouteIfRefreshed(p.uncut, u, r, skip), RerouteIfRefreshed(p.attempt, a, r, skip))
  {
    hide Apply, Truthy, Pair.SameTask, Pair.Agrees, Pair.Within, Keeps, Faithful, Summary, Waiting;
    if Truthy(Get(u.state, ForceAnalyst)) {
      var x, y := Apply(p.uncut, u, InRound(Analyst, r, AfterRefresh), Analyst), Apply(p.attempt, a, InRound(Analyst, r, AfterRefresh), Analyst);
      ApplyMatches(p, u, a, InRound(Analyst, r, AfterRefresh), Analyst);
      if x.Ok? { ApplyMatches(p, x.w, if y.Ok? then y.w else x.w, InRound(Coder, r, Plain), Coder); }
    }
  }

  lemma {:induction false} EvidenceStepMatches(p: Pair, u: World, a: World, r: nat, skip: seq<Action>)
    requires p.SameTask() && Unaudited(u) && Unaudited(a)
    ensures p.Matches(u, a, EvidenceStep(p.uncut, u, r, skip), EvidenceStep(p.attempt, a, r, skip))
  {
    hide GatherMaterial, RerouteIfRefreshed, Pair.SameTask, Pair.Agrees, Pair.Within, Keeps, Faithful, Summary, Waiting;
    var x, y := GatherMaterial(p.uncut, u, r), GatherMaterial(p.attempt, a, r);
    GatherMaterialMatches(p, u, a, r);
    if x.Ok? && x.value.None? {
      RerouteIfRefreshedMatches(p, x.w, if y.Ok? && y.value.None? then y.w else x.w, r, skip);
    }
  }

  lemma {:induction false} ActStepMatches(p: Pair, u: World, a: World, r: nat, action: Action, overlay: Overlay)
    requires p.SameTask() && Unaudited(u) && Unaudited(a)
    ensures p.Matches(u, a, ActStep(p.uncut, u, r, action, overlay), ActStep(p.attempt, a, r, action, overlay))
  {
    hide EvidenceStep, Apply, Pair.SameTask, Pair.Agrees, Pair.Within, Keeps, Faithful, Summary, Waiting;
    if action.CollectEvidence? { EvidenceStepMatches(p, u, a, r, overlay.skip); }
    ApplyMatches(p, u, a, InRound(Coder, r, Plain), Coder);
  }

  lemma {:induction false} ActAllMatches(p: Pair, u: World, a: World, r: nat, actions: seq<Action>, overlay: Overlay)
    requires p.SameTask() && Unaudited(u) && Unaudited(a)
    ensures p.Matches(u, a, ActAll(p.uncut, u, r, actions, overlay), ActAll(p.attempt, a, r, actions, overlay))
    decreases |actions|
  {
    hide ActStep, Pair.SameTask, Pair.Agrees, Pair.Within, Keeps, Faithful, Summary, Waiting;
    if actions != [] {
      var x, y := ActStep(p.uncut, u, r, actions[0], overlay), ActStep(p.attempt, a, r, actions[0], overlay);
      ActStepMatches(p, u, a, r, actions[0], overlay);
      if x.Ok? && x.value.Flags? {
        ActAllMatches(p, x.w, if y.Ok? && y.value.Flags? then y.w else x.w, r, actions[1..], overlay);
      }
    }
  }

  lemma {:induction false} RouteAndActMatches(p: Pair, u: World, a: World, r: nat, overlay: Overlay)
    requires p.SameTask() && Unaudited(u) && Unaudited(a)
    ensures p.Matches(u, a, RouteAndAct(p.uncut, u, r, overlay), RouteAndAct(p.attempt, a, r, overlay))
  {
    hide Route, ActAll, Apply, Pair.SameTask, Pair.Agrees, Pair.Within, Keeps, Faithful, Summary, Waiting;
    var x, y := Route(p.uncut, u, r, overlay), Route(p.attempt, a, r, overlay);
    RouteMatches(p, u, a, r, overlay);
    if x.Ok? {
      var a1 := if y.Ok? then y.w else x.w;
      var x2, y2 := ActAll(p.uncut, x.w, r, x.value, overlay), ActAll(p.attempt, a1, r, x.value, overlay);
      ActAllMatches(p, x.w, a1, r, x.value, overlay);
      if x2.Ok? && x2.value.Flags? {
        ApplyMatches(p, x2.w, if y2.Ok? && y2.value.Flags? then y2.w else x2.w, InRound(Coder, r, Plain), Coder);
      }
    }
  }

  lemma {:induction false} DebugAndAuditMatches(p: Pair, u: World, a: World, r: nat, debug: Use, audit: Use)
    requires p.SameTask() && Debuggable(u) && Debuggable(a)
    ensures p.Matches(u, a, DebugAndAudit(p.uncut, u, r, debug, audit), DebugAndAudit(p.attempt, a, r, debug, audit))
  {
    hide Apply, Pair.SameTask, Pair.Agrees, Pair.Within, Keeps, Faithful, Summary, Waiting;
    var x, y := Apply(p.uncut, u, InRound(Debugger, r, debug), Debugger), Apply(p.attempt, a, InRound(Debugger, r, debug), Debugger);
    ApplyMatches(p, u, a, InRound(Debugger, r, debug), Debugger);
    if x.Ok? { ApplyMatches(p, x.w, if y.Ok? then y.w else x.w, InRound(Auditor, r, audit), Auditor); }
  }

  lemma {:induction false} AuditMatches(p: Pair, u: World, a: World, r: nat)
    requires p.SameTask() && Unaudited(u) && Unaudited(a)
    ensures p.Matches(u, a, Audit(p.uncut, u, r), Audit(p.attempt, a, r))
  {
    hide Apply, DebugAndAudit, DebuggerOnly, Pair.SameTask, Pair.Agrees, Pair.Within, Keeps, Faithful, Summary, Waiting;
    var x, y := Apply(p.uncut, u, InRound(Auditor, r, Plain), Auditor), Apply(p.attempt, a, InRound(Auditor, r, Plain), Auditor);
    ApplyMatches(p, u, a, InRound(Auditor, r, Plain), Auditor);
    if x.Ok? { DebugAndAuditMatches(p, x.w, if y.Ok? then y.w else x.w, r, Plain, PostDebug); }
  }

  lemma {:induction false} ExecuteMatches(p: Pair, u: World, a: World, r: nat)
    requires p.SameTask() && JustAudited(u) && Flagged(u, true, false) && JustAudited(a) && Flagged(a, true, false)
    ensures p.Matches(u, a, Execute(p.uncut, u, r), Execute(p.attempt, a, r))
  {
    hide Apply, DebugAndAudit, VerificationFailed, Pair.SameTask, Pair.Agrees, Pair.Within, Keeps, Faithful, Summary, Waiting;
    var x, y := Apply(p.uncut, u, InRound(Executor, r, Plain), Executor), Apply(p.attempt, a, InRound(Executor, r, Plain), Executor);
    ApplyMatches(p, u, a, InRound(Executor, r, Plain), Executor);
    if x.Ok? {
      var a1 := if y.Ok? then y.w else x.w;
      var x2, y2 := DebugAndAudit(p.uncut, x.w, r, PostExec, PostExec), DebugAndAudit(p.attempt, a1, r, PostExec, PostExec);
      DebugAndAuditMatches(p, x.w, a1, r, PostExec, PostExec);
      if x2.Ok? { ApplyMatches(p, x2.w, if y2.Ok? then y2.w else x2.w, InRound(Executor, r, Retry), Executor); }
    }
  }

  lemma {:induction false} ExecuteIfDueMatches(p: Pair, u: World, a: World, r: nat, coder: bool, dynamic: bool)
    requires p.SameTask() && JustAudited(u) && Flagged(u, coder, dynamic) && JustAudited(a) && Flagged(a, coder, dynamic)
    ensures p.Matches(u, a, ExecuteIfDue(p.uncut, u, r, coder, dynamic), ExecuteIfDue(p.attempt, a, r, coder, dynamic))
  {
    hide Execute, OutputWithoutExecution, Pair.SameTask, Pair.Agrees, Pair.Within, Keeps, Faithful, Summary, Waiting;
    if coder && !dynamic { ExecuteMatches(p, u, a, r); }
  }

  lemma {:induction false} HarvestMatches(p: Pair, u: World, a: World, r: nat)
    requires p.SameTask() && Ready(u) && Ready(a)
    ensures p.Matches(u, a, Harvest(p.uncut, u, r), Harvest(p.attempt, a, r))
  {
    hide Apply, Pair.SameTask, Pair.Agrees, Pair.Within, Keeps, Faithful, Summary, Waiting;
    ApplyMatches(p, u, a, InRound(SkillHarvester, r, Plain), SkillHarvester);
  }

  lemma {:induction false} ConcludeMatches(p: Pair, u: World, a: World, r: nat, coder: bool, dynamic: bool)
    requires p.SameTask() && Unaudited(u) && Flagged(u, coder, dynamic) && Unaudited(a) && Flagged(a, coder, dynamic)
    ensures p.Matches(u, a, Conclude(p.uncut, u, r, coder, dynamic), Conclude(p.attempt, a, r, coder, dynamic))
  {
    hide Audit, ExecuteIfDue, Harvest, Pair.SameTask, Pair.Agrees, Pair.Within, Keeps, Faithful, Summary, Waiting;
    var x, y := Audit(p.uncut, u, r), Audit(p.attempt, a, r);
    AuditMatches(p, u, a, r);
    if x.Ok? {
      var a1 := if y.Ok? then y.w else x.w;
      var x2, y2 := ExecuteIfDue(p.uncut, x.w, r, coder, dynamic), ExecuteIfDue(p.attempt, a1, r, coder, dynamic);
      ExecuteIfDueMatches(p, x.w, a1, r, coder, dynamic);
      if x2.Ok? { HarvestMatches(p, x2.w, if y2.Ok? then y2.w else x2.w, r); }
    }
  }

  lemma {:induction false} ActAndConcludeMatches(p: Pair, u: World, a: World, r: nat, overlay: Overlay)
    requires p.SameTask() && Unaudited(u) && Uncoded(u) && Unaudited(a) && Uncoded(a)
    ensures p.Matches(u, a, ActAndConclude(p.uncut, u, r, overlay), ActAndConclude(p.attempt, a, r, overlay))
  {
    hide RouteAndAct, Conclude, Pair.SameTask, Pair.Agrees, Pair.Within, Keeps, Faithful, Summary, Waiting;
    var x, y := RouteAndAct(p.uncut, u, r, overlay), RouteAndAct(p.attempt, a, r, overlay);
    RouteAndActMatches(p, u, a, r, overlay);
    if x.Ok? && x.value.Flags? {
      ConcludeMatches(p, x.w, if y.Ok? && y.value == x.value then y.w else x.w, r, x.value.coder, x.value.dynamic);
    }
  }

  lemma {:induction false} RoundMatches(p: Pair, u: World, a: World, r: nat)
    requires p.SameTask() && AtRound(u, r) && AtRound(a, r)
    ensures p.Matches(u, a, Round(p.uncut, u, r), Round(p.attempt, a, r))
  {
    hide BeginRound, Prepare, ActAndConclude, OverlayOf, Pair.SameTask, Pair.Agrees, Pair.Within, Keeps, Faithful, Summary, Waiting;
    var u', a' := BeginRound(u, r), BeginRound(a, r);
    BeginRoundKeeps(u, r);
    BeginRoundKeeps(a, r);
    var overlay := OverlayOf(Get(u'.state, DynamicResumeOverlay));
    var x, y := Prepare(p.uncut, u', overlay), Prepare(p.attempt, a', overlay);
    PrepareMatches(p, u', a', overlay);
    if x.Ok? && x.value.None? {
      ActAndConcludeMatches(p, x.w, if y.Ok? && y.value.None? then y.w else x.w, r, overlay);
    }
    if p.Agrees(u'.tables, u'.trace) { LogAgrees(p, u, RoundBegan(r)); }
  }

  lemma {:induction false} AfterRoundMatches(p: Pair, u: World, a: World, output: Value)
    requires p.SameTask() && Ready(u) && Ready(a)
    ensures p.Matches(u, a, AfterRound(p.uncut, u, output), AfterRound(p.attempt, a, output))
  {
    hide Apply, ResumeStatic, Truthy, Pair.SameTask, Pair.Agrees, Pair.Within, Keeps, Faithful, Summary, Waiting;
    ApplyMatches(p, u.Set(RoundOutput, output), a.Set(RoundOutput, output), Once(Dynamic), Dynamic);
  }

  lemma {:induction false} RoundAndNextMatches(p: Pair, u: World, a: World, r: nat)
    requires p.SameTask() && AtRound(u, r) && AtRound(a, r)
    ensures p.Matches(u, a, RoundAndNext(p.uncut, u, r), RoundAndNext(p.attempt, a, r))
  {
    hide Round, AfterRound, Pair.SameTask, Pair.Agrees, Pair.Within, Keeps, Faithful, Summary, Waiting;
    var x, y := Round(p.uncut, u, r), Round(p.attempt, a, r);
    RoundMatches(p, u, a, r);
    if x.Ok? && x.value.Output? {
      AfterRoundMatches(p, x.w, if y.Ok? && y.value.Output? then y.w else x.w, x.value.output);
    }
  }

  lemma {:induction false} RoundsFromMatches(p: Pair, u: World, a: World, r: nat)
    requires p.SameTask() && Ready(u) && RoundsBegun(u) == r <= MAX_STATIC_ROUNDS && Ready(a) && RoundsBegun(a) == r
    ensures p.Matches(u, a, RoundsFrom(p.uncut, u, r), RoundsFrom(p.attempt, a, r))
    decreases MAX_STATIC_ROUNDS - r
  {
    hide RoundAndNext, Pair.SameTask, Pair.Agrees, Pair.Within, Keeps, Faithful, Summary, Waiting;
    if r < MAX_STATIC_ROUNDS {
      var x, y := RoundAndNext(p.uncut, u, r), RoundAndNext(p.attempt, a, r);
      RoundAndNextMatches(p, u, a, r);
      if x.Ok? && x.value.Again? {
        RoundsFromMatches(p, x.w, if y.Ok? && y.value.Again? then y.w else x.w, r + 1);
      }
    }
  }

  lemma {:induction false} CloseMatches(p: Pair, u: World, a: World)
    requires p.SameTask() && Ready(u) && Ready(a)
    ensures p.Matches(u, a, Close(p.uncut, u), Close(p.attempt, a))
  {
    hide Apply, FinalVerdict, Pair.SameTask, Pair.Agrees, Pair.Within, Keeps, Faithful, Summary, Waiting;
    ApplyMatches(p, u, a, Once(Summarizer), Summarizer);
    SameVerdict(p);
  }

  lemma {:induction false} ProceedMatches(p: Pair, u: World, a: World)
    requires p.SameTask() && Ready(u) && PhaseOf(u).rounds == 0 && Ready(a) && PhaseOf(a).rounds == 0
    ensures p.Matches(u, a, Proceed(p.uncut, u), Proceed(p.attempt, a))
  {
    hide RoundsFrom, Close, Pair.SameTask, Pair.Agrees, Pair.Within, Keeps, Faithful, Summary, Waiting;
    var x, y := RoundsFrom(p.uncut, u, 0), RoundsFrom(p.attempt, a, 0);
    RoundsFromMatches(p, u, a, 0);
    if x.Ok? && x.value.None? { CloseMatches(p, x.w, if y.Ok? && y.value.None? then y.w else x.w); }
  }

  // ----- Whole runs -----

  /** What a restarted process finds: the stored table, in memory and in the store. */
  function Reopen(store: Option<Table>): Tables {
    Tables(store, store)
  }

  /** The run got to a result of its own: it was not cut, thrown out or refused its lease. */
  predicate Uncut(run: Run) {
    !PhaseOf(run.w).Stopped?
  }

  /** What earlier attempts left in the store is between what they started from and what the uncut
      run ends with; a further attempt keeps it there, and follows the uncut run if not stopped. */
  lemma AttemptFollows(p: Pair, initial: Record, store0: Option<Table>, store: Option<Table>)
    requires p.SameTask()
    requires var run := TaskFlow(p.uncut, initial, Reopen(store0));
             Uncut(run) && p.final == run.w.tables.mem && (store0.Some? ==> StoreServes(run.w.trace))
    requires Keeps(store0, store) && Keeps(store, p.final) && (store.Some? <==> store0.Some?)
    ensures var run, attempt := TaskFlow(p.uncut, initial, Reopen(store0)), TaskFlow(p.attempt, initial, Reopen(store));
            && Keeps(store0, attempt.w.tables.store) && Keeps(attempt.w.tables.store, p.final)
            && (attempt.w.tables.store.Some? <==> store0.Some?)
            && (Uncut(attempt) ==> attempt.outcome == run.outcome && attempt.w.state == run.w.state)
  {
    hide Proceed, Faithful, Summary, Keeps, Pair.SameTask, Waiting, StoreServes;
    var u, a := StartOf(initial, Reopen(store0)), StartOf(initial, Reopen(store));
    Begins(initial, Reopen(store0));
    Begins(initial, Reopen(store));
    var x, y := Proceed(p.uncut, u), Proceed(p.attempt, a);
    TaskFlowIsBounded(p.uncut, initial, Reopen(store0));
    TaskFlowIsBounded(p.attempt, initial, Reopen(store));
    ProceedMatches(p, u, a);
    SameTables(p.final);
    StoreOnlyGrows(Reopen(store0), x.w);
    StoreOnlyGrows(Reopen(store), y.w);
    KeepsIsTransitive(store0, store, y.w.tables.store);
  }

  lemma SameTables(t: Option<Table>)
    ensures Keeps(t, t)
  {
  }

  lemma StoreOnlyGrows(t: Tables, w: World)
    requires Faithful(t, w.trace, w.tables) && t.mem == t.store
    ensures Keeps(t.store, w.tables.store)
    ensures w.tables.store.Some? == t.store.Some? == w.tables.mem.Some?
  {
    CompletedIsAbsorbing(t, w.trace);
    MemoryStays(t, w.trace);
    StoreStays(t, w.trace);
  }

  lemma {:induction false} StoreStays(t: Tables, log: seq<Event>)
    requires t.store.Some? <==> t.mem.Some?
    ensures Fold(t, log).store.Some? <==> t.store.Some?
  {
    if log != [] {
      StoreStays(t, log[..|log| - 1]);
      MemoryStays(t, log[..|log| - 1]);
    }
  }

  /** The store after a number of attempts at the same task, each from the initial state. */
  function StoreAfter(store: Option<Table>, initial: Record, attempts: seq<Env>): Option<Table> {
    if attempts == [] then store
    else
      var found := StoreAfter(store, initial, attempts[..|attempts| - 1]);
      TaskFlow(attempts[|attempts| - 1], initial, Reopen(found)).w.tables.store
  }

  lemma {:induction false} StoreStaysBetween(uncut: Env, node: (Node, Record) -> NodeOutcome, initial: Record,
                                             store: Option<Table>, attempts: seq<Env>, final: Option<Table>)
    requires var run := TaskFlow(uncut, initial, Reopen(store));
             Uncut(run) && final == run.w.tables.mem && (store.Some? ==> StoreServes(run.w.trace))
    requires forall env | env in attempts :: Pair(uncut, env, node, final).SameTask()
    ensures var found := StoreAfter(store, initial, attempts);
            Keeps(store, found) && Keeps(found, final) && (found.Some? <==> store.Some?)
  {
    hide TaskFlow, Pair.SameTask;
    if attempts == [] {
      TaskFlowIsBounded(uncut, initial, Reopen(store));
      CompletedIsAbsorbing(Reopen(store), TaskFlow(uncut, initial, Reopen(store)).w.trace);
    } else {
      var init, last := attempts[..|attempts| - 1], attempts[|attempts| - 1];
      StoreStaysBetween(uncut, node, initial, store, init, final);
      AttemptFollows(Pair(uncut, last, node, final), initial, store, StoreAfter(store, initial, init));
    }
  }

  /** Restarts are invisible: after any number of attempts, cut anywhere (by a crash between any
      two steps, a lost lease, a failing save or a failing node), an attempt that is not itself
      stopped concludes exactly as the uncut run does. */
  lemma RestartIsInvisible(uncut: Env, node: (Node, Record) -> NodeOutcome, initial: Record,
                           store: Option<Table>, attempts: seq<Env>, last: Env)
    requires var run := TaskFlow(uncut, initial, Reopen(store)); Uncut(run) && (store.Some? ==> StoreServes(run.w.trace))
    requires forall env | env in attempts + [last] :: Pair(uncut, env, node, None).SameTask()
    ensures var run := TaskFlow(uncut, initial, Reopen(store));
            var restarted := TaskFlow(last, initial, Reopen(StoreAfter(store, initial, attempts)));
            Uncut(restarted) ==> restarted.outcome == run.outcome && restarted.w.state == run.w.state
  {
    hide TaskFlow;
    var final := TaskFlow(uncut, initial, Reopen(store)).w.tables.mem;
    forall env | env in attempts + [last] ensures Pair(uncut, env, node, final).SameTask() {
      assert Pair(uncut, env, node, None).SameTask();
    }
    assert forall env | env in attempts :: env in attempts + [last];
    StoreStaysBetween(uncut, node, initial, store, attempts, final);
    AttemptFollows(Pair(uncut, last, node, final), initial, store, StoreAfter(store, initial, attempts));
  }

  // ----- A store that completes patches with defaults -----

  /** Each field the patch lacks has its default in the state. */
  ghost predicate HoldsDefaults(state: Record, patch: Record, defaults: Record) {
    forall key :: key in defaults && key !in patch ==> key in state && state[key] == defaults[key]
  }

  /** What the typed checkpoint record does: every field the patch lacks is kept with its default. Folding
      the kept form is folding the patch exactly if each of these fields already holds its default. */
  lemma DefaultsServeIff(state: Record, patch: Record, defaults: Record)
    ensures state + (defaults + patch) == state + patch <==> HoldsDefaults(state, patch, defaults)
  {
    var kept, own := state + (defaults + patch), state + patch;
    if kept == own {
      forall key | key in defaults && key !in patch ensures key in state && state[key] == defaults[key] {
        assert key in kept && kept[key] == defaults[key];
      }
    }
    assert own.Keys <= kept.Keys;
  }

  /** So such a store serves a run exactly if at every completion of its log each field the patch lacks
      already holds its default, and the completed patch leads to the decisions of the patch. */
  lemma DefaultsServeRunIff(log: seq<Event>, defaults: Record)
    requires defaults != map[]
    requires forall e :: e in log && e.Call? && e.fate.Finished? ==> e.fate.kept == defaults + e.fate.output
    ensures StoreServes(log) <==>
            forall e :: e in log && e.Call? && e.fate.Finished? ==>
              && HoldsDefaults(e.fate.into, e.fate.output, defaults)
              && DecideAlike(e.node, e.fate.output, e.fate.kept)
  {
    hide DecideAlike, HoldsDefaults;
    forall e | e in log && e.Call? && e.fate.Finished?
      ensures e.fate.kept != map[]
      ensures e.fate.into + e.fate.output == e.fate.into + e.fate.kept <==> HoldsDefaults(e.fate.into, e.fate.output, defaults)
    {
      var key :| key in defaults;
      assert key in e.fate.kept;
      DefaultsServeIff(e.fate.into, e.fate.output, defaults);
    }
  }

  /** A call that completes and is then asked for again, of a store that completes patches with defaults:
      the answer is folded to the same state exactly if the fields it lacks already hold their defaults. */
  lemma ReplayWithDefaultsIff(env: Env, w: World, name: CallName, node: Node, input: Record, again: Record, defaults: Record)
    requires w.tables.mem.Some? && Replay(w.tables.mem, name).None?
    requires var x := RunNode(env, w, name, node, input);
             && x.Ok? && env.stored(x.value) == defaults + x.value != map[]
             && LeaseProblem(env, |w.trace| + 1, again).None? && !env.cut(|w.trace| + 1).BeforeStart?
    ensures var x := RunNode(env, w, name, node, input);
            var y := RunNode(env, x.w, name, node, again);
            && y.Ok? && y.value == env.stored(x.value)
            && (w.state + y.value == w.state + x.value <==> HoldsDefaults(w.state, x.value, defaults))
  {
    hide RunNode, LeaseProblem;
    var x := RunNode(env, w, name, node, input);
    ReplayIsTheStoredPatch(env, w, name, node, input, again);
    DefaultsServeIff(w.state, x.value, defaults);
  }

  /** A call that completes and is then asked for again is answered with the stored form of its patch. */
  lemma ReplayIsTheStoredPatch(env: Env, w: World, name: CallName, node: Node, input: Record, again: Record)
    requires w.tables.mem.Some? && Replay(w.tables.mem, name).None?
    requires var x := RunNode(env, w, name, node, input);
             && x.Ok? && env.stored(x.value) != map[]
             && LeaseProblem(env, |w.trace| + 1, again).None? && !env.cut(|w.trace| + 1).BeforeStart?
    ensures var x := RunNode(env, w, name, node, input);
            var y := RunNode(env, x.w, name, node, again);
            y.Ok? && y.value == env.stored(x.value)
  {
    hide LeaseProblem, Faithful, Summary;
  }
}
