/** The durable memo table under the task engine: how one checkpointed node call reads and
    writes it, and what that means over whole histories of runs, crashes and restarts. */
module Checkpoints {
  import opened Values
  import opened DecimalText

  datatype Node =
    | Analyst | Coder | Auditor | Debugger | Executor | Dynamic | Summarizer
    | DataInspector | KagRetriever | ContextBuilder | StaticEvidence | EvidenceCompiler | SkillHarvester

  /** What a call is for, beside its plain use: part of its checkpoint name. */
  datatype Use = Plain | PostDebug | PostExec | Retry | AfterRefresh

  /** Where evidence to compile comes from. */
  datatype Source = FromStaticEvidence | FromDynamicResume

  function SourceText(source: Source): string {
    if source.FromStaticEvidence? then "static_evidence" else "dynamic_resume"
  }

  /** The name a call's checkpoint is kept under; `Spell` gives its text. */
  datatype CallName =
    | Once(node: Node)                         // one per task, e.g. summarizer, dynamic
    | Refreshed(node: Node)                    // <node>:material_refresh
    | CompiledFrom(source: Source)             // evidence_compiler:<source>
    | InRound(node: Node, round: nat, use: Use)

  function Label(node: Node): string {
    match node
    case Analyst => "analyst" case Coder => "coder" case Auditor => "auditor"
    case Debugger => "debugger" case Executor => "executor" case Dynamic => "dynamic"
    case Summarizer => "summarizer" case DataInspector => "data_inspector"
    case KagRetriever => "kag_retriever" case ContextBuilder => "context_builder"
    case StaticEvidence => "static_evidence" case EvidenceCompiler => "evidence_compiler"
    case SkillHarvester => "skill_harvester"
  }

  function Suffix(use: Use): string {
    match use
    case Plain => "" case PostDebug => ":post_debug" case PostExec => ":post_exec"
    case Retry => ":retry" case AfterRefresh => ":material_refresh"
  }

  function Spell(name: CallName): string {
    match name
    case Once(node) => Label(node)
    case Refreshed(node) => Label(node) + ":material_refresh"
    case CompiledFrom(source) => "evidence_compiler:" + SourceText(source)
    case InRound(node, round, use) => Label(node) + ":r" + Digits(round) + Suffix(use)
  }

  datatype Status = Running | Completed | Failed

  datatype Checkpoint = Checkpoint(status: Status, attempts: nat, patch: Record, error: Option<string>)

  const NO_CHECKPOINT := Checkpoint(Running, 0, map[], None)

  type Table = map<CallName, Checkpoint>

  /** The checkpoint table in memory and in the store; None when there is no execution record. */
  datatype Tables = Tables(mem: Option<Table>, store: Option<Table>)

  /** A node returns a patch, raises, or finds on its own that the lease is lost. */
  datatype NodeOutcome = Returned(patch: Record) | Threw(error: string) | LostLease(reason: string)

  datatype LeaseReport = Owned | NotOwned(reason: string) | LookupFailed(error: string)

  /** Where the process dies during a call, if it does: before the start is recorded, before that
      is saved, before the node is invoked, or before its end is saved. */
  datatype Cut = NoCut | BeforeStart | BeforeStartSave | BeforeInvoke | BeforeEnd

  /** Everything a run does not decide itself. A `nat` argument is the ordinal of the call, so
      nodes, leases, saves and crashes may behave differently every time. */
  datatype Env = Env(
    node: (nat, Node, Record) -> NodeOutcome,
    leaseMark: nat -> Option<string>,
    leaseStatus: nat -> LeaseReport,
    cut: nat -> Cut,
    startSaved: nat -> bool,
    endSaved: nat -> bool,
    stored: Record -> Record,               // a patch as the typed checkpoint record keeps it
    refusal: Record -> Option<string>,      // why that record does not take the patch at all
    render: Value -> string,                // str() of a value that is not a text
    hasEvidenceCompiler: bool,
    hasStaticEvidence: bool)

  /** Why a run stopped. */
  datatype Halt = LeaseLost(reason: string) | Raised(error: string) | Crashed

  /** What became of one call that passed its lease check. `Unrecorded`: the node returned, but recording
      its patch raised. A finished call says what its patch is kept as and which state it is folded into. */
  datatype Fate =
    | Replayed(replay: Record)
    | Interrupted(at: Cut)
    | Broke(cause: Halt)
    | Unrecorded(error: string)
    | Finished(output: Record, kept: Record, into: Record)

  /** The words that the engine's action lists are read for. */
  datatype Action =
    | InspectData | RetrieveKag | BuildContext | CollectEvidence | Analyze | WriteCode | DynamicAction
    | OtherAction(text: string)

  function ActionOf(text: string): Action {
    if text == "data_inspector" then InspectData
    else if text == "kag_retriever" then RetrieveKag
    else if text == "context_builder" then BuildContext
    else if text == "static_evidence" then CollectEvidence
    else if text == "analyst" then Analyze
    else if text == "coder" then WriteCode
    else if text == "dynamic" then DynamicAction
    else OtherAction(text)
  }

  function ActionsOf(texts: seq<string>): seq<Action> {
    if texts == [] then [] else [ActionOf(texts[0])] + ActionsOf(texts[1..])
  }

  /** Which block check ended the task. */
  datatype Block = InspectionBlocked | IngestionBlocked | EvidenceBlocked

  datatype Stage = Prep | Refresh | Act

  /** The log of a run: calls, refused lease checks, block checks that fired, the action lists
      the run took a snapshot of, and the starts of rounds. */
  datatype Event =
    | RoundBegan(index: nat)
    | Planned(stage: Stage, actions: seq<Action>)
    | Denied(name: CallName, halt: Halt)
    | Halted(block: Block)
    | Call(name: CallName, node: Node, fate: Fate, startSaved: bool, endSaved: bool)

  /** The node function ran at least in part. */
  predicate Invokes(e: Event, name: CallName) {
    e.Call? && e.name == name && !e.fate.Replayed? &&
    !(e.fate.Interrupted? && e.fate.at in {BeforeStart, BeforeStartSave, BeforeInvoke})
  }

  /** A start was recorded: the attempt counter went up. */
  predicate Starts(e: Event, name: CallName) {
    e.Call? && e.name == name && !e.fate.Replayed? && e.fate != Interrupted(BeforeStart)
  }

  /** The call completed and its checkpoint reached the store in a form that can be replayed. */
  predicate Durable(e: Event, name: CallName) {
    e.Call? && e.name == name && e.fate.Finished? && e.fate.kept != map[] && e.endSaved
  }

  function Previous(t: Table, name: CallName): Checkpoint {
    if name in t then t[name] else NO_CHECKPOINT
  }

  function Begin(t: Table, name: CallName): Table {
    var previous := Previous(t, name);
    t[name := previous.(status := Running, attempts := previous.attempts + 1)]
  }

  function Fail(t: Table, name: CallName, error: string): Table {
    t[name := Previous(t, name).(status := Failed, error := Some(error))]
  }

  /** `str(exc)` */
  function ErrorOf(halt: Halt): string {
    match halt
    case LeaseLost(reason) => reason
    case Raised(error) => error
    case Crashed => ""
  }

  function Complete(t: Table, name: CallName, kept: Record): Table {
    t[name := Previous(t, name).(status := Completed, error := None, patch := kept)]
  }

  /** The patch a call of this name would be answered with instead of running the node. */
  function Replay(t: Option<Table>, name: CallName): Option<Record> {
    if t.Some? && name in t.value && t.value[name].status.Completed? && t.value[name].patch != map[]
    then Some(t.value[name].patch)
    else None
  }

  /** The tables after one event. */
  function After(t: Tables, e: Event): Tables {
    if !e.Call? || t.mem.None? || e.fate.Replayed? || e.fate == Interrupted(BeforeStart) then t
    else
      var begun := Begin(t.mem.value, e.name);
      var saved := if e.startSaved && e.fate != Interrupted(BeforeStartSave) then Some(begun) else t.store;
      match e.fate
      case Broke(cause) =>
        var done := Some(Fail(begun, e.name, ErrorOf(cause)));
        Tables(done, if e.endSaved then done else saved)
      case Finished(_, kept, _) =>
        var done := Some(Complete(begun, e.name, kept));
        Tables(done, if e.endSaved then done else saved)
      case _ => Tables(Some(begun), saved)
  }

  /** The event respects the table: a completed name is replayed, any other is not. */
  predicate Allowed(t: Tables, e: Event) {
    e.Call? ==>
      match e.fate
      case Replayed(p) => Replay(t.mem, e.name) == Some(p)
      case Interrupted(BeforeStart) => true
      case _ => Replay(t.mem, e.name) == None
  }

  function Fold(t: Tables, log: seq<Event>): Tables {
    if log == [] then t else After(Fold(t, log[..|log| - 1]), log[|log| - 1])
  }

  ghost predicate Legal(t: Tables, log: seq<Event>) {
    log == [] ||
    (Legal(t, log[..|log| - 1]) && Allowed(Fold(t, log[..|log| - 1]), log[|log| - 1]))
  }

  // ----- One checkpointed call -----

  /** The log respects the memo table all along, and the tables are what it made of them. */
  ghost predicate Faithful(origin: Tables, log: seq<Event>, tables: Tables) {
    Legal(origin, log) && tables == Fold(origin, log)
  }

  datatype World = World(state: Record, tables: Tables, trace: seq<Event>, origin: Tables) {

    function Log(e: Event): (w: World)
      ensures w.state == state && w.origin == origin && (!e.Call? ==> w.tables == tables)
      ensures Faithful(origin, trace, tables) && Allowed(tables, e) ==> Faithful(origin, w.trace, w.tables)
      ensures Summary(w.trace) == Note(Summary(trace), e)
    {
      assert (trace + [e])[..|trace|] == trace;
      World(state, After(tables, e), trace + [e], origin)
    }

    /** `current_state.update(patch)` */
    function Update(patch: Record): World {
      this.(state := state + patch)
    }

    function Set(key: Key, v: Value): World {
      this.(state := state[key := v])
    }
  }

  /** A run continues with a value or stops; either way the world says how far it came. */
  datatype Step<+T> = Ok(w: World, value: T) | Stop(w: World, halt: Halt) {
    predicate IsFailure() { Stop? }
    function PropagateFailure<U>(): Step<U> requires Stop? { Stop(w, halt) }
    function Extract(): (World, T) requires Ok? { (w, value) }
  }

  /** None when the lease allows the call; otherwise why it does not. */
  function LeaseProblem(env: Env, clock: nat, state: Record): Option<Halt> {
    var task := Trim(Text(env, Get(state, TaskId), ""));
    var owner := Trim(Text(env, Get(state, LeaseOwnerId), ""));
    if task == "" || owner == "" then None
    else if env.leaseMark(clock).Some? && env.leaseMark(clock).value != "" then
      Some(LeaseLost(env.leaseMark(clock).value))
    else
      match env.leaseStatus(clock)
      case Owned => None
      case NotOwned(reason) => Some(LeaseLost(if reason != "" then reason else "task lease not owned for " + task))
      case LookupFailed(error) => Some(Raised(error))
  }

  /** `str(v or default)` */
  function Text(env: Env, v: Value, default: string): string {
    if !Truthy(v) then default else if v.Str? then v.s else env.render(v)
  }

  /** What happens to a call that passed its lease check. */
  function FateOf(env: Env, clock: nat, mem: Option<Table>, name: CallName, node: Node, input: Record, state: Record): Fate {
    var cut := env.cut(clock);
    if cut.BeforeStart? then Interrupted(BeforeStart)
    else if Replay(mem, name).Some? then Replayed(Replay(mem, name).value)
    else if cut.NoCut? then
      match env.node(clock, node, input)
      case Threw(error) => Broke(Raised(error))
      case LostLease(reason) => Broke(LeaseLost(reason))
      case Returned(p) =>
        if mem.Some? && env.refusal(p).Some? then Unrecorded(env.refusal(p).value) else Finished(p, env.stored(p), state)
    else Interrupted(cut)
  }

  /** The node answered, from the table or by running. */
  predicate Answered(e: Event) {
    e.Call? && (e.fate.Replayed? || e.fate.Finished?)
  }

  /** Why a call that was not answered stopped the run. */
  function HaltOf(e: Event): Halt {
    match e
    case Denied(_, halt) => halt
    case Call(_, _, Broke(cause), _, _) => cause
    case Call(_, _, Unrecorded(error), _, _) => Raised(error)
    case _ => Crashed
  }

  /** The entry one call leaves in the log. */
  function NodeEvent(env: Env, clock: nat, mem: Option<Table>, name: CallName, node: Node, input: Record, state: Record): (e: Event)
    ensures e.Denied? || (e.Call? && e.name == name && e.node == node)
    ensures forall store :: Allowed(Tables(mem, store), e)
  {
    var problem := LeaseProblem(env, clock, input);
    if problem.Some? then Denied(name, problem.value)
    else Call(name, node, FateOf(env, clock, mem, name, node, input, state), env.startSaved(clock), env.endSaved(clock))
  }

  /** One call through the memo table: the stored patch if the name is completed, else the node. */
  function RunNode(env: Env, w: World, name: CallName, node: Node, input: Record): (x: Step<Record>)
    ensures x.w.state == w.state && x.w.origin == w.origin
    ensures Faithful(w.origin, w.trace, w.tables) ==> Faithful(x.w.origin, x.w.trace, x.w.tables)
    ensures |x.w.trace| == |w.trace| + 1
    ensures Summary(x.w.trace).slack == Summary(w.trace).slack - 1
    ensures var answer := Answer(Summary(w.trace).phase, node);
            Summary(x.w.trace).phase == answer || (x.Stop? && Summary(x.w.trace).phase == Stopped(x.halt))
    ensures x.Stop? && !Answer(Summary(w.trace).phase, node).Violation? ==> Summary(x.w.trace).phase == Stopped(x.halt)
  {
    var clock := |w.trace|;
    var e := NodeEvent(env, clock, w.tables.mem, name, node, input, w.state);
    var w' := w.Log(e);
    match e
    case Call(_, _, Replayed(p), _, _) => Ok(w', p)
    case Call(_, _, Finished(p, _, _), _, _) => Ok(w', p)
    case Denied(_, halt) => Stop(w', halt)
    case _ => Stop(w', HaltOf(e))
  }

  // ----- Monitors over a run's log -----

  /** How far a round has come with its judging nodes: they can only answer in this order, where
      auditing may be followed by executing at once. */
  datatype Progress = Building | Audited | Debugged | Reaudited | Executed | Repaired | Rechecked | Retried

  /** What a run may still do. `rounds` have begun; `coded`: coder answered in this one;
      `dynamic`: this one's actions ask for `dynamic`. */
  datatype Phase =
    | Active(rounds: nat, progress: Progress, coded: bool, dynamic: bool)
    | Closing               // a block check fired: only the summarizer is left
    | Ended                 // ... and it answered
    | Stopped(halt: Halt)
    | Violation

  const MAX_STATIC_ROUNDS := 3

  /** What a log amounts to: the phase it leaves the run in and `slack`, eight entries for every
      planned action less the entries there are. */
  datatype Tally = Tally(phase: Phase, slack: int)

  const START := Tally(Active(0, Building, false, false), 0)

  /** The phase after a node answered. */
  function Answer(phase: Phase, node: Node): Phase {
    match phase
    case Active(_, progress, coded, dynamic) =>
      (match node
       case Coder => if progress.Building? then phase.(coded := true) else Violation
       case Auditor =>
         if progress.Building? then phase.(progress := Audited)
         else if progress.Debugged? then phase.(progress := Reaudited)
         else if progress.Repaired? then phase.(progress := Rechecked)
         else Violation
       case Debugger =>
         if progress.Audited? then phase.(progress := Debugged)
         else if progress.Executed? then phase.(progress := Repaired)
         else Violation
       case Executor =>
         if !coded || dynamic then Violation
         else if progress.Audited? || progress.Reaudited? then phase.(progress := Executed)
         else if progress.Rechecked? then phase.(progress := Retried)
         else Violation
       case _ => phase)
    case Closing => if node.Summarizer? then Ended else Violation
    case _ => Violation
  }

  function Note(t: Tally, e: Event): Tally {
    match e
    case RoundBegan(r) =>
      Tally(if t.phase.Active? && t.phase.rounds == r < MAX_STATIC_ROUNDS then Active(r + 1, Building, false, false) else Violation,
            t.slack - 1)
    case Planned(stage, actions) =>
      Tally(if !t.phase.Active? then Violation
            else if stage.Act? then t.phase.(dynamic := DynamicAction in actions) else t.phase,
            t.slack + 8 * |actions| - 1)
    case Halted(_) => Tally(if t.phase.Active? then Closing else Violation, t.slack - 1)
    case Denied(_, halt) =>
      Tally(if t.phase.Active? || t.phase.Closing? then Stopped(halt) else Violation, t.slack - 1)
    case Call(_, node, _, _, _) =>
      var answer := Answer(t.phase, node);
      Tally(if Answered(e) || answer.Violation? then answer
            else Stopped(HaltOf(e)), t.slack - 1)
  }

  function Summary(log: seq<Event>): Tally {
    if log == [] then START else Note(Summary(log[..|log| - 1]), log[|log| - 1])
  }

  /** The number of actions in all the lists a log took a snapshot of. */
  function PlannedActions(log: seq<Event>): nat {
    if log == [] then 0
    else PlannedActions(log[..|log| - 1]) + (if log[|log| - 1].Planned? then |log[|log| - 1].actions| else 0)
  }
}
