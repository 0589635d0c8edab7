/** One checkpointed call, told by what its surroundings do and not by how it is computed: when it is
    denied, what it answers, and which checkpoint it leaves. */
module CallLaws {
  import opened Values
  import opened ListLaws
  import opened Checkpoints
  import opened CheckpointLaws

  // ----- Texts -----

  /** `str(v or "")` */
  function Written(env: Env, v: Value): string {
    if !Truthy(v) then "" else if v.Str? then v.s else env.render(v)
  }

  // ----- When a call is denied -----

  /** A call is checked if the task and the owner of its lease are named. */
  ghost predicate Checked(env: Env, input: Record) {
    HasLetter(Written(env, Get(input, TaskId))) && HasLetter(Written(env, Get(input, LeaseOwnerId)))
  }

  /** The lease was marked as lost by this process, or the store does not say that it is owned. */
  predicate Lost(env: Env, clock: nat) {
    (env.leaseMark(clock).Some? && env.leaseMark(clock).value != "") || !env.leaseStatus(clock).Owned?
  }

  /** Why: the mark comes first, then what the store says. */
  predicate LossIs(env: Env, clock: nat, task: string, halt: Halt) {
    var mark, status := env.leaseMark(clock), env.leaseStatus(clock);
    if mark.Some? && mark.value != "" then halt == LeaseLost(mark.value)
    else if status.LookupFailed? then halt == Raised(status.error)
    else
      status.NotOwned? && halt == LeaseLost(if status.reason != "" then status.reason else "task lease not owned for " + task)
  }

  lemma ProblemMeans(env: Env, clock: nat, input: Record)
    ensures LeaseProblem(env, clock, input).Some? <==> Checked(env, input) && Lost(env, clock)
    ensures LeaseProblem(env, clock, input).Some? ==>
              LossIs(env, clock, Trim(Written(env, Get(input, TaskId))), LeaseProblem(env, clock, input).value)
  {
    hide Trim, HasLetter;
    TrimmedHasLetters(Written(env, Get(input, TaskId)));
    TrimmedHasLetters(Written(env, Get(input, LeaseOwnerId)));
  }

  /** In every world, a call is denied if and only if its lease is checked and lost: it then leaves the
      tables alone, and the run stops for the reason of the loss. */
  lemma DeniedIff(env: Env, w: World, name: CallName, node: Node, input: Record)
    ensures var x, clock := RunNode(env, w, name, node, input), |w.trace|;
            && |x.w.trace| == clock + 1
            && (x.w.trace[clock].Denied? <==> Checked(env, input) && Lost(env, clock))
            && (x.w.trace[clock].Denied? ==>
                  x.Stop? && x.w == w.(trace := w.trace + [Denied(name, x.halt)]) &&
                  LossIs(env, clock, Trim(Written(env, Get(input, TaskId))), x.halt))
            && (!x.w.trace[clock].Denied? ==>
                  x.w.trace[clock].Call? && x.w.trace[clock].name == name && x.w.trace[clock].node == node)
  {
    hide Trim, HasLetter, LeaseProblem, Checked, Lost, LossIs, Faithful, Summary;
    ProblemMeans(env, |w.trace|, input);
    CallMeans(env, w, name, node, input);
  }

  // ----- What a call answers -----

  /** The table has a finished checkpoint with a patch. */
  predicate Held(t: Option<Table>, name: CallName) {
    t.Some? && name in t.value && t.value[name].status == Completed && t.value[name].patch != map[]
  }

  /** A call that is not denied, by what the table holds and what the node does. */
  lemma CallAnswers(env: Env, w: World, name: CallName, node: Node, input: Record)
    requires !(Checked(env, input) && Lost(env, |w.trace|))
    ensures var x, clock, t := RunNode(env, w, name, node, input), |w.trace|, w.tables.mem;
            var outcome := env.node(clock, node, input);
            if env.cut(clock).BeforeStart? then x.Stop? && x.halt == Crashed
            else if Held(t, name) then x.Ok? && x.value == t.value[name].patch
            else if !env.cut(clock).NoCut? then x.Stop? && x.halt == Crashed
            else if outcome.Threw? then x.Stop? && x.halt == Raised(outcome.error)
            else if outcome.LostLease? then x.Stop? && x.halt == LeaseLost(outcome.reason)
            else if t.Some? && env.refusal(outcome.patch).Some? then
              x.Stop? && x.halt == Raised(env.refusal(outcome.patch).value)
            else x.Ok? && x.value == outcome.patch
  {
    hide RunNode, LeaseProblem, Checked, Lost, Faithful, Summary, After;
    ProblemMeans(env, |w.trace|, input);
    CallMeans(env, w, name, node, input);
  }

  // ----- Which checkpoint it leaves -----

  /** The table and what of it is on disk. */
  predicate Leaves(tables: Tables, table: Table, saved: bool, onDisk: Option<Table>) {
    tables == Tables(Some(table), if saved then Some(table) else onDisk)
  }

  function Earlier(t: Table, name: CallName): Checkpoint {
    if name in t then t[name] else Checkpoint(Running, 0, map[], None)
  }

  /** The tables after such a call: untouched if it was answered from them or did not start; otherwise the
      call's checkpoint and no other has changed, it counts one more attempt, and it says how the call ended. */
  lemma CallLeaves(env: Env, w: World, name: CallName, node: Node, input: Record)
    requires !(Checked(env, input) && Lost(env, |w.trace|))
    ensures var after, clock, t := RunNode(env, w, name, node, input).w.tables, |w.trace|, w.tables.mem;
            if t.None? || env.cut(clock).BeforeStart? || Held(t, name) then after == w.tables
            else
              var b, cut, outcome := Earlier(t.value, name), env.cut(clock), env.node(clock, node, input);
              var begun := t.value[name := Checkpoint(Running, b.attempts + 1, b.patch, b.error)];
              var onDisk := if env.startSaved(clock) && !cut.BeforeStartSave? then Some(begun) else w.tables.store;
              if !cut.NoCut? || (outcome.Returned? && env.refusal(outcome.patch).Some?) then Leaves(after, begun, false, onDisk)
              else
                var ended := match outcome
                  case Returned(patch) => Checkpoint(Completed, b.attempts + 1, env.stored(patch), None)
                  case Threw(error) => Checkpoint(Failed, b.attempts + 1, b.patch, Some(error))
                  case LostLease(reason) => Checkpoint(Failed, b.attempts + 1, b.patch, Some(reason));
                Leaves(after, t.value[name := ended], env.endSaved(clock), onDisk)
  {
    hide RunNode, LeaseProblem, Checked, Lost, Faithful, Summary, After, Begin, Fail, Complete;
    ProblemMeans(env, |w.trace|, input);
    CallMeans(env, w, name, node, input);
    var e := NodeEvent(env, |w.trace|, w.tables.mem, name, node, input, w.state);
    if w.tables.mem.Some? {
      CheckpointsMean(w.tables.mem.value, name, match e case Call(_, _, Finished(_, kept, _), _, _) => kept case _ => map[],
                      match e case Call(_, _, Broke(cause), _, _) => ErrorOf(cause) case _ => "");
    }
    AfterMeans(w.tables, e);
  }

  /** What the three table updates write. */
  lemma CheckpointsMean(t: Table, name: CallName, kept: Record, error: string)
    ensures var b := Earlier(t, name);
            && Begin(t, name) == t[name := Checkpoint(Running, b.attempts + 1, b.patch, b.error)]
            && Complete(Begin(t, name), name, kept) == t[name := Checkpoint(Completed, b.attempts + 1, kept, None)]
            && Fail(Begin(t, name), name, error) == t[name := Checkpoint(Failed, b.attempts + 1, b.patch, Some(error))]
  {
  }

  lemma AfterMeans(t: Tables, e: Event)
    ensures !e.Call? || t.mem.None? || e.fate.Replayed? || e.fate == Interrupted(BeforeStart) ==> After(t, e) == t
    ensures e.Call? && t.mem.Some? && !e.fate.Replayed? && e.fate != Interrupted(BeforeStart) ==>
              var begun := Begin(t.mem.value, e.name);
              var onDisk := if e.startSaved && e.fate != Interrupted(BeforeStartSave) then Some(begun) else t.store;
              match e.fate
              case Broke(cause) => Leaves(After(t, e), Fail(begun, e.name, ErrorOf(cause)), e.endSaved, onDisk)
              case Finished(_, kept, _) => Leaves(After(t, e), Complete(begun, e.name, kept), e.endSaved, onDisk)
              case _ => Leaves(After(t, e), begun, false, onDisk)
  {
    hide Begin, Fail, Complete;
  }
}
