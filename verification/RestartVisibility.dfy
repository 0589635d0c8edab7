/** A restart that shows: a task that is blocked at data inspection, cut before its summarizer and run
    again. The replayed inspection is folded in its stored form, so the two runs end in the same state
    exactly if the stored form leads there. */
module RestartVisibility {
  import opened Values
  import opened Checkpoints
  import opened CheckpointLaws
  import opened RoundEngine
  import opened RestartTransparency

  /** Leases hold and saves succeed; the inspector returns `found` and every other node `said`; the process
      dies before the node of call `cutAt` runs, if that is given. */
  function Calm(found: Record, said: Record, stored: Record -> Record, cutAt: Option<nat>): Env {
    Env((clock, node: Node, s) => Returned(if node.DataInspector? then found else said),
        clock => None, clock => Owned, clock => if cutAt == Some(clock) then BeforeInvoke else NoCut,
        clock => true, clock => true, stored, patch => None, v => "", false, false)
  }

  /** The initial state once its first round has begun. */
  function Begun(initial: Record): Record {
    initial[RoundIndex := Num(0)]
  }

  /** The task starts with data inspection, and is blocked whether `found` or its stored form is folded. */
  predicate BlockedAtInspection(initial: Record, found: Record, kept: Record) {
    && OverlayOf(Get(Begun(initial), DynamicResumeOverlay)) == Overlay(false, [], [])
    && NextActionsOf(Begun(initial)) == [InspectData]
    && Truthy(Get(Begun(initial) + found, Blocked)) && Truthy(Get(Begun(initial) + kept, Blocked))
  }

  /** Where a blocked task ends. */
  function BlockedEnd(env: Env, state: Record, said: Record): Record {
    var verdict := Verdict(Waiting(), BlockSubStatus(InspectionBlocked), BlockFailure(InspectionBlocked),
                           Text(env, Get(state, BlockReason), MaterialBlocked(InspectionBlocked)));
    state + (state + said + verdict)
  }

  /** The world in which data inspection is called. */
  function BeforeInspection(initial: Record, tables: Tables): World {
    World(Begun(initial), tables, [RoundBegan(0), Planned(Prep, [InspectData])], tables)
  }

  lemma InspectionIsNext(initial: Record, tables: Tables)
    ensures var w := StartOf(initial, tables);
            AtRound(w, 0) && BeginRound(w, 0) == World(Begun(initial), tables, [RoundBegan(0)], tables)
    ensures Ready(BeforeInspection(initial, tables))
    ensures BeginRound(StartOf(initial, tables), 0).Log(Planned(Prep, [InspectData])) == BeforeInspection(initial, tables)
  {
    Begins(initial, tables);
    assert [] + [RoundBegan(0)] == [RoundBegan(0)];
    var w := World(Begun(initial), tables, [RoundBegan(0)], tables);
    assert w == StartOf(initial, tables).Set(RoundIndex, Num(0)).Log(RoundBegan(0));
    assert [RoundBegan(0)] + [Planned(Prep, [InspectData])] == [RoundBegan(0), Planned(Prep, [InspectData])];
    assert BeforeInspection(initial, tables) == w.Log(Planned(Prep, [InspectData]));
  }

  /** The run of such a task, in terms of its two calls. */
  lemma BlockedRun(env: Env, initial: Record, tables: Tables)
    requires OverlayOf(Get(Begun(initial), DynamicResumeOverlay)) == Overlay(false, [], [])
    requires NextActionsOf(Begun(initial)) == [InspectData]
    requires Ready(BeforeInspection(initial, tables))
    requires var x := Apply(env, BeforeInspection(initial, tables), Once(DataInspector), DataInspector);
             x.Ok? && Truthy(Get(x.w.state, Blocked))
    ensures var x := Apply(env, BeforeInspection(initial, tables), Once(DataInspector), DataInspector);
            var y := EndBlocked(env, x.w, InspectionBlocked);
            TaskFlow(env, initial, tables) ==
              if y.Stop? then StopRun(y.w, y.halt)
              else Run(y.w.Update(y.value.value), Concluded(y.w.state + y.value.value))
  {
    hide Apply, EndBlocked, OverlayOf, NextActionsOf, Truthy, World.Log, Faithful, Summary, Waiting, BeginRound, StopOutcome;
    var start, w := StartOf(initial, tables), BeforeInspection(initial, tables);
    InspectionIsNext(initial, tables);
    var x := Apply(env, w, Once(DataInspector), DataInspector);
    var y := EndBlocked(env, x.w, InspectionBlocked);
    assert PrepStep(env, w, InspectData, []) == y;
    assert PrepAll(env, w, [InspectData], []) == y by { assert [InspectData][0] == InspectData; }
    assert Prepare(env, BeginRound(start, 0), Overlay(false, [], [])) == y;
    assert Round(env, start, 0) == if y.Stop? then Stop(y.w, y.halt) else Ok(y.w, Terminal(y.value.value));
    Begins(initial, tables);
  }

  function AnswerOf(found: Record, said: Record, node: Node): Record {
    if node.DataInspector? then found else said
  }

  /** A call in a calm environment: replayed, cut, or run to the node's patch. */
  lemma CalmCall(found: Record, said: Record, stored: Record -> Record, cutAt: Option<nat>, w: World, name: CallName, node: Node)
    requires w.tables.mem.Some?
    ensures var x := RunNode(Calm(found, said, stored, cutAt), w, name, node, w.state);
            var table, own := w.tables.mem.value, AnswerOf(found, said, node);
            && x.w.state == w.state && |x.w.trace| == |w.trace| + 1
            && if Replay(w.tables.mem, name).Some? then
                 x.Ok? && x.value == Replay(w.tables.mem, name).value && x.w.tables == w.tables
               else if cutAt == Some(|w.trace|) then
                 x.Stop? && x.w.tables == Tables(Some(Begin(table, name)), Some(Begin(table, name)))
               else
                 var done := Some(Complete(Begin(table, name), name, stored(own)));
                 x.Ok? && x.value == own && x.w.tables == Tables(done, done)
  {
    hide Begin, Complete, Replay, Faithful, Summary, Trim, Text;
    CallMeans(Calm(found, said, stored, cutAt), w, name, node, w.state);
  }

  lemma ReplayOfComplete(table: Table, name: CallName, kept: Record, other: CallName)
    requires kept != map[]
    ensures Replay(Some(Complete(Begin(table, name), name, kept)), name) == Some(kept)
    ensures other != name ==> Replay(Some(Complete(Begin(table, name), name, kept)), other) == Replay(Some(table), other)
  {
  }

  lemma ReplayOfBegun(table: Table, name: CallName, other: CallName)
    requires other != name
    ensures Replay(Some(Begin(table, name)), other) == Replay(Some(table), other)
    ensures Replay(Some(table), name).None? ==> Replay(Some(Begin(table, name)), name).None?
  {
  }

  /** The call that closes a blocked task. */
  lemma ClosingCall(found: Record, said: Record, stored: Record -> Record, cut: bool, w: World)
    requires Ready(w) && w.tables.mem.Some? && |w.trace| == 3 && Replay(w.tables.mem, Once(Summarizer)).None?
    ensures var env := Calm(found, said, stored, CutBeforeSummary(cut));
            var y := EndBlocked(env, w, InspectionBlocked);
            if cut then
              y.Stop? && y.w.tables.store == Some(Begin(w.tables.mem.value, Once(Summarizer)))
            else
              y.Ok? && y.w.state == w.state && w.state + y.value.value == BlockedEnd(env, w.state, said)
  {
    hide Begin, Complete, Replay, Faithful, Summary, Truthy, Verdict, Waiting, BlockSubStatus, BlockFailure, MaterialBlocked, Text;
    var halted := HaltAt(w, InspectionBlocked);
    assert halted.trace == w.trace + [Halted(InspectionBlocked)];
    CalmCall(found, said, stored, CutBeforeSummary(cut), halted, Once(Summarizer), Summarizer);
  }

  /** The summarizer is the fifth entry of such a run. */
  function CutBeforeSummary(cut: bool): Option<nat> {
    if cut then Some(4) else None
  }

  /** How the two runs of one task read: what the inspector's call gives is folded, and the summarizer
      closes the task unless its call is cut. */
  lemma CalmRun(found: Record, said: Record, stored: Record -> Record, cut: bool, initial: Record, table: Table)
    requires stored(found) != map[] && BlockedAtInspection(initial, found, stored(found))
    requires Replay(Some(table), Once(Summarizer)).None?
    requires Replay(Some(table), Once(DataInspector)) in {None, Some(stored(found))}
    ensures var env := Calm(found, said, stored, CutBeforeSummary(cut));
            var run := TaskFlow(env, initial, Reopen(Some(table)));
            var seen := Begun(initial) + (if Replay(Some(table), Once(DataInspector)).Some? then stored(found) else found);
            if cut then
              && run.w.tables.store.Some?
              && Replay(run.w.tables.store, Once(DataInspector)) == Some(stored(found))
              && Replay(run.w.tables.store, Once(Summarizer)).None?
            else Uncut(run) && run.w.state == BlockedEnd(env, seen, said) && run.outcome == Concluded(run.w.state)
  {
    hide Begin, Complete, Replay, Faithful, Summary, OverlayOf, NextActionsOf, Truthy, Verdict, Waiting, TaskFlow,
         BlockSubStatus, BlockFailure, MaterialBlocked, Text;
    var env := Calm(found, said, stored, CutBeforeSummary(cut));
    var w := BeforeInspection(initial, Reopen(Some(table)));
    InspectionIsNext(initial, Reopen(Some(table)));
    var x := Apply(env, w, Once(DataInspector), DataInspector);
    CalmCall(found, said, stored, CutBeforeSummary(cut), w, Once(DataInspector), DataInspector);
    BlockedRun(env, initial, Reopen(Some(table)));
    ReplayOfComplete(table, Once(DataInspector), stored(found), Once(Summarizer));
    ClosingCall(found, said, stored, cut, x.w);
    ReplayOfBegun(x.w.tables.mem.value, Once(Summarizer), Once(DataInspector));
  }

  /** For every such task: cut before its summarizer and run again, it ends in the state of the uncut run if
      and only if the two forms of the inspector's patch lead to the same end. */
  lemma RestartShowsIff(found: Record, said: Record, stored: Record -> Record, initial: Record)
    requires stored(found) != map[] && BlockedAtInspection(initial, found, stored(found))
    ensures var uncut, cut := Calm(found, said, stored, CutBeforeSummary(false)), Calm(found, said, stored, CutBeforeSummary(true));
            var run := TaskFlow(uncut, initial, Reopen(Some(map[])));
            var again := TaskFlow(uncut, initial, Reopen(StoreAfter(Some(map[]), initial, [cut])));
            && Uncut(run) && Uncut(again)
            && (again.w.state == run.w.state <==>
                BlockedEnd(uncut, Begun(initial) + stored(found), said) == BlockedEnd(uncut, Begun(initial) + found, said))
  {
    hide BlockedAtInspection, BlockedEnd, Uncut, TaskFlow;
    var cut := Calm(found, said, stored, CutBeforeSummary(true));
    CalmRun(found, said, stored, false, initial, map[]);
    CalmRun(found, said, stored, true, initial, map[]);
    var store := TaskFlow(cut, initial, Reopen(Some(map[]))).w.tables.store;
    assert StoreAfter(Some(map[]), initial, [cut]) == store by {
      assert [cut][..0] == [] && StoreAfter(Some(map[]), initial, [cut][..0]) == Some(map[]);
    }
    CalmRun(found, said, stored, false, initial, store.value);
  }

  const GENERATED_CODE := Other("generated_code")

  /** A record that keeps a patch completed with the defaults of its fields. */
  function Completing(defaults: Record): Record -> Record {
    patch => defaults + patch
  }

  /** What the inspector returns for data that it cannot read: the task is blocked; nothing of the code. */
  predicate BlocksOnly(found: Record) {
    Truthy(Get(found, Blocked)) && GENERATED_CODE !in found
  }

  /** A task that starts with data inspection and holds some code. */
  function TaskWithCode(code: string): Record {
    map[NextActions := List([Str("data_inspector")]), GENERATED_CODE := Str(code)]
  }

  lemma InspectionIsAsked()
    ensures ActionsOf(TextItems([Str("data_inspector")])) == [InspectData]
  {
    var items, texts := [Str("data_inspector")], ["data_inspector"];
    assert items[1..] == [] && TextItems(items[1..]) == [];
    assert TextItems(items) == texts;
    assert texts[1..] == [] && ActionsOf(texts[1..]) == [];
  }

  lemma NoOverlay()
    ensures OverlayOf(Null) == Overlay(false, [], [])
  {
    hide StepsUnder;
  }

  lemma UnreadableBlocks(code: string, found: Record, defaults: Record)
    requires BlocksOnly(found)
    ensures BlockedAtInspection(TaskWithCode(code), found, Completing(defaults)(found))
  {
    hide OverlayOf, ActionsOf, Truthy;
    var w := Begun(TaskWithCode(code));
    NoOverlay();
    InspectionIsAsked();
    assert Get(w, DynamicResumeOverlay) == Null && Get(w, NextActions) == List([Str("data_inspector")]);
    BlockedIsRead(w, found, defaults);
  }

  lemma BlockedIsRead(state: Record, found: Record, defaults: Record)
    requires BlocksOnly(found)
    ensures Truthy(Get(state + found, Blocked)) && Truthy(Get(state + (defaults + found), Blocked))
  {
    assert Blocked in found;
  }

  /** The closing verdict leaves the code as it is. */
  lemma EndKeepsTheCode(env: Env, state: Record)
    requires GENERATED_CODE in state
    ensures Get(BlockedEnd(env, state, map[]), GENERATED_CODE) == state[GENERATED_CODE]
  {
    hide Waiting, BlockSubStatus, BlockFailure, MaterialBlocked, Text;
  }

  lemma CodeDecides(env: Env, one: Record, other: Record)
    requires GENERATED_CODE in one && GENERATED_CODE in other && one[GENERATED_CODE] != other[GENERATED_CODE]
    ensures BlockedEnd(env, one, map[]) != BlockedEnd(env, other, map[])
  {
    hide BlockedEnd;
    EndKeepsTheCode(env, one);
    EndKeepsTheCode(env, other);
  }

  lemma ReadsCode(code: string, found: Record, defaults: Record)
    requires BlocksOnly(found) && Get(defaults, GENERATED_CODE) == Str("")
    ensures var w := Begun(TaskWithCode(code));
            && GENERATED_CODE in w + found && (w + found)[GENERATED_CODE] == Str(code)
            && GENERATED_CODE in w + (defaults + found) && (w + (defaults + found))[GENERATED_CODE] == Str("")
  {
  }

  /** A restart that shows, whatever the other defaults are and whatever else the inspector returns: it
      says nothing of the code, but its replayed patch has the code field empty and wipes it. */
  lemma RestartIsVisible(code: string, found: Record, defaults: Record)
    requires code != "" && BlocksOnly(found) && Get(defaults, GENERATED_CODE) == Str("")
    ensures var stored := Completing(defaults);
            var uncut, cut := Calm(found, map[], stored, None), Calm(found, map[], stored, Some(4));
            var run := TaskFlow(uncut, TaskWithCode(code), Reopen(Some(map[])));
            var again := TaskFlow(uncut, TaskWithCode(code), Reopen(StoreAfter(Some(map[]), TaskWithCode(code), [cut])));
            Uncut(run) && Uncut(again) && run.w.state != again.w.state
  {
    hide TaskFlow, Uncut, BlockedAtInspection, BlockedEnd, StoreAfter, BlocksOnly;
    var initial, env := TaskWithCode(code), Calm(found, map[], Completing(defaults), None);
    UnreadableBlocks(code, found, defaults);
    assert Completing(defaults)(found) != map[] by { assert GENERATED_CODE in defaults + found; }
    RestartShowsIff(found, map[], Completing(defaults), initial);
    ReadsCode(code, found, defaults);
    CodeDecides(env, Begun(initial) + found, Begun(initial) + (defaults + found));
  }
}
