/** What holds of every run of the task flow, and of a task over any sequence of runs. */
module TaskHistory {
  import opened Values
  import opened Checkpoints
  import opened CheckpointLaws
  import opened RoundEngine
  import opened RestartTransparency

  // ----- Every single run, with arbitrary nodes, leases, saves and crashes -----

  /** The log of a run respects the memo table and the ordering rules, and is linear in the action
      lists the run read. */
  lemma RunIsOrderly(env: Env, initial: Record, tables: Tables)
    ensures var log := TaskFlow(env, initial, tables).w.trace;
            Legal(tables, log) && Orderly(log) && |log| <= 8 * PlannedActions(log) + 55
  {
    hide TaskFlow;
    TaskFlowIsBounded(env, initial, tables);
    SlackMeans(TaskFlow(env, initial, tables).w.trace);
  }

  /** Audit comes before execution, in every run. */
  lemma RunAuditsBeforeExecuting(env: Env, initial: Record, tables: Tables, i: nat)
    requires var log := TaskFlow(env, initial, tables).w.trace;
             i < |log| && log[i].Call? && log[i].node.Executor?
    ensures var log := TaskFlow(env, initial, tables).w.trace;
            && (exists a :: AuditStands(log[..i], a))
            && (exists c: nat :: c < i && CoderOfRound(log[..i], c))
            && forall d: nat | d < i && AsksForDynamic(log[d]) :: Superseded(log[..i], d)
  {
    hide TaskFlow;
    RunIsOrderly(env, initial, tables);
    AuditBeforeExecute(TaskFlow(env, initial, tables).w.trace, i);
    ExecutorNeedsCode(TaskFlow(env, initial, tables).w.trace, i);
  }

  /** At most three rounds, with at most three auditor, two debugger and two executor calls each. */
  lemma RunIsBounded(env: Env, initial: Record, tables: Tables, i: nat)
    requires i <= |TaskFlow(env, initial, tables).w.trace|
    ensures var log := TaskFlow(env, initial, tables).w.trace[..i];
            && RoundsOf(log) <= MAX_STATIC_ROUNDS
            && CallsThisRound(log, Auditor) <= 3 && CallsThisRound(log, Debugger) <= 2
            && CallsThisRound(log, Executor) <= 2
  {
    hide TaskFlow;
    RunIsOrderly(env, initial, tables);
    OrderlyPrefix(TaskFlow(env, initial, tables).w.trace, i);
    JudgesAreBounded(TaskFlow(env, initial, tables).w.trace[..i]);
  }

  /** Cut-off: nothing follows a call without an answer. If the lease was lost, at the check before the call
      or inside the node, the run fails with `lease_lost`; for any other reason it leaves no result. */
  lemma LostLeaseCutsOff(env: Env, initial: Record, tables: Tables, i: nat)
    requires var log := TaskFlow(env, initial, tables).w.trace; i < |log| && Stops(log[i])
    ensures var run := TaskFlow(env, initial, tables);
            var halt := HaltOf(run.w.trace[i]);
            && i == |run.w.trace| - 1
            && (halt.LeaseLost? ==>
                  && run.outcome.Concluded?
                  && Get(run.outcome.result, TerminalStatus) == TaskFailed()
                  && Get(run.outcome.result, FailureType) == LeaseLostFailure()
                  && Get(run.outcome.result, ErrorMessage) == Str(halt.reason))
            && (!halt.LeaseLost? ==> run.outcome == Escaped(halt))
  {
    hide TaskFlow, Verdict, TaskFailed, LeaseLostFailure;
    var run := TaskFlow(env, initial, tables);
    RunIsOrderly(env, initial, tables);
    TaskFlowIsBounded(env, initial, tables);
    StopIsLast(run.w.trace, i);
    StoppedMeans(run.w.trace);
  }

  /** A run leaves no result exactly if its last call had no answer for another reason than a lost lease. */
  lemma EscapesIff(env: Env, initial: Record, tables: Tables)
    ensures var run := TaskFlow(env, initial, tables);
            var last := |run.w.trace| - 1;
            run.outcome.Escaped? <==> last >= 0 && Stops(run.w.trace[last]) && !HaltOf(run.w.trace[last]).LeaseLost?
  {
    hide TaskFlow;
    RunIsOrderly(env, initial, tables);
    TaskFlowIsBounded(env, initial, tables);
    StoppedMeans(TaskFlow(env, initial, tables).w.trace);
  }

  /** The tables a run leaves if its last entry is the i-th. */
  lemma TablesAtTheEnd(env: Env, initial: Record, tables: Tables, i: nat)
    requires var log := TaskFlow(env, initial, tables).w.trace; i == |log| - 1
    ensures var run := TaskFlow(env, initial, tables);
            var before := Fold(tables, run.w.trace[..i]);
            && run.w.tables == After(before, run.w.trace[i])
            && (before.mem.Some? <==> tables.mem.Some?)
  {
    hide TaskFlow;
    TaskFlowIsBounded(env, initial, tables);
    MemoryStays(tables, TaskFlow(env, initial, tables).w.trace[..i]);
  }

  /** The checkpoint of a broken call, and what of it was saved. */
  predicate LeavesFailure(before: Tables, e: Event, after: Tables, error: string)
    requires e.Call? && before.mem.Some?
  {
    var begun := Begin(before.mem.value, e.name);
    && after.mem == Some(Fail(begun, e.name, error))
    && after.store == if e.endSaved then after.mem else if e.startSaved then Some(begun) else before.store
  }

  /** A lease lost inside a node: after the recorded start there is exactly one more table write, the failed
      checkpoint, and the run fails with `lease_lost`. */
  lemma NodeLosesLease(env: Env, initial: Record, tables: Tables, i: nat)
    requires tables.mem.Some?
    requires var log := TaskFlow(env, initial, tables).w.trace;
             i < |log| && log[i].Call? && log[i].fate.Broke? && log[i].fate.cause.LeaseLost?
    ensures var run := TaskFlow(env, initial, tables);
            var before, e := Fold(tables, run.w.trace[..i]), run.w.trace[i];
            && i == |run.w.trace| - 1 && before.mem.Some?
            && LeavesFailure(before, e, run.w.tables, e.fate.cause.reason)
            && run.outcome == Concluded(LeaseLostResult(run.w.state, e.fate.cause.reason))
  {
    hide TaskFlow, LeaseLostResult;
    var run := TaskFlow(env, initial, tables);
    RunIsOrderly(env, initial, tables);
    TaskFlowIsBounded(env, initial, tables);
    StopIsLast(run.w.trace, i);
    StoppedMeans(run.w.trace);
    TablesAtTheEnd(env, initial, tables, i);
  }

  /** The call looks begun, and what of it was saved. */
  predicate LeavesRunning(before: Tables, e: Event, after: Tables)
    requires e.Call? && before.mem.Some?
  {
    var begun := Begin(before.mem.value, e.name);
    && after.mem == Some(begun) && begun[e.name].status == Running
    && begun[e.name].attempts == Attempts(before.mem, e.name) + 1
    && after.store == if e.startSaved then Some(begun) else before.store
  }

  /** A patch that the typed record does not take: the node has run, but its checkpoint still says that it
      is running, and the run escapes with the record's error. */
  lemma RefusedPatchEscapes(env: Env, initial: Record, tables: Tables, i: nat)
    requires tables.mem.Some?
    requires var log := TaskFlow(env, initial, tables).w.trace;
             i < |log| && log[i].Call? && log[i].fate.Unrecorded?
    ensures var run := TaskFlow(env, initial, tables);
            var before, e := Fold(tables, run.w.trace[..i]), run.w.trace[i];
            && i == |run.w.trace| - 1 && before.mem.Some?
            && Invokes(e, e.name) && Starts(e, e.name)
            && LeavesRunning(before, e, run.w.tables)
            && run.outcome == Escaped(Raised(e.fate.error))
  {
    hide TaskFlow;
    var run := TaskFlow(env, initial, tables);
    RunIsOrderly(env, initial, tables);
    LostLeaseCutsOff(env, initial, tables, i);
    TablesAtTheEnd(env, initial, tables, i);
  }

  /** Once a block check fires, only the summarizer is left; unless that call stops the run, the
      task waits for a human. */
  lemma BlockEndsTheRun(env: Env, initial: Record, tables: Tables, i: nat)
    requires var log := TaskFlow(env, initial, tables).w.trace; i < |log| && log[i].Halted?
    ensures var run := TaskFlow(env, initial, tables);
            var log := run.w.trace;
            && |log| == i + 2 && (log[i + 1].Denied? || (log[i + 1].Call? && log[i + 1].node.Summarizer?))
            && (Uncut(run) ==> run.outcome.Concluded? && Get(run.outcome.result, TerminalStatus) == Waiting())
            && (!Uncut(run) ==> !Answered(log[i + 1]))
  {
    hide TaskFlow, Waiting;
    var log := TaskFlow(env, initial, tables).w.trace;
    RunIsOrderly(env, initial, tables);
    TaskFlowIsBounded(env, initial, tables);
    BlockedThenSummarizerOnly(log, i);
    OrderlyStep(log, i);
    assert log[..|log|] == log;
    OrderlyStep(log, i + 1);
  }

  /** The attempt counter of a name rises by the number of starts of that name. */
  lemma RunCountsAttempts(env: Env, initial: Record, tables: Tables, name: CallName)
    requires tables.mem.Some?
    ensures var w := TaskFlow(env, initial, tables).w;
            Attempts(w.tables.mem, name) == Attempts(tables.mem, name) + StartsOf(w.trace, name)
  {
    hide TaskFlow;
    TaskFlowIsBounded(env, initial, tables);
    AttemptsCountStarts(tables, TaskFlow(env, initial, tables).w.trace, name);
  }

  // ----- A task's whole life: any number of runs, each with its own environment and state -----

  datatype Attempt = Attempt(env: Env, initial: Record)

  /** What a task leaves behind: the store and the concatenated logs of its runs. */
  datatype Life = Life(store: Option<Table>, log: seq<Event>)

  function Live(store: Option<Table>, attempts: seq<Attempt>): Life {
    if attempts == [] then Life(store, [])
    else
      var before := Live(store, attempts[..|attempts| - 1]);
      var next := attempts[|attempts| - 1];
      var run := TaskFlow(next.env, next.initial, Reopen(before.store));
      Life(run.w.tables.store, before.log + run.w.trace)
  }

  /** One run from the store: what it finds completed stays completed and is not run. */
  lemma RunLeavesCompletedAlone(store: Option<Table>, a: Attempt, name: CallName)
    requires Replay(store, name).Some?
    ensures var run := TaskFlow(a.env, a.initial, Reopen(store));
            && Replay(run.w.tables.store, name) == Replay(store, name)
            && forall j :: 0 <= j < |run.w.trace| ==> !Invokes(run.w.trace[j], name)
  {
    hide TaskFlow;
    var run := TaskFlow(a.env, a.initial, Reopen(store));
    TaskFlowIsBounded(a.env, a.initial, Reopen(store));
    CompletedIsAbsorbing(Reopen(store), run.w.trace);
    forall j | 0 <= j < |run.w.trace| ensures !Invokes(run.w.trace[j], name) {
      CompletedIsNeverRun(Reopen(store), run.w.trace, name, j);
    }
  }

  /** Completed is absorbing over a task's life: a name completed in the store keeps its patch and
      its node is never invoked again, over any runs, rounds and crashes. */
  lemma {:induction false} CompletedForLife(store: Option<Table>, attempts: seq<Attempt>, name: CallName)
    requires Replay(store, name).Some?
    ensures var life := Live(store, attempts);
            && Replay(life.store, name) == Replay(store, name)
            && forall j :: 0 <= j < |life.log| ==> !Invokes(life.log[j], name)
  {
    hide TaskFlow;
    if attempts != [] {
      CompletedForLife(store, attempts[..|attempts| - 1], name);
      RunLeavesCompletedAlone(Live(store, attempts[..|attempts| - 1]).store, attempts[|attempts| - 1], name);
    }
  }

  lemma {:induction false} LifeKeepsTheRecord(store: Option<Table>, attempts: seq<Attempt>)
    requires store.Some?
    ensures Live(store, attempts).store.Some?
  {
    hide TaskFlow;
    if attempts != [] {
      var init, next := attempts[..|attempts| - 1], attempts[|attempts| - 1];
      LifeKeepsTheRecord(store, init);
      TaskFlowIsBounded(next.env, next.initial, Reopen(Live(store, init).store));
      StoreOnlyGrows(Reopen(Live(store, init).store), TaskFlow(next.env, next.initial, Reopen(Live(store, init).store)).w);
    }
  }

  /** A saved completion survives to the end of the task's life. */
  lemma {:induction false} SavedWorkSurvives(store: Option<Table>, attempts: seq<Attempt>, name: CallName, i: nat)
    requires store.Some?
    requires i < |Live(store, attempts).log| && Durable(Live(store, attempts).log[i], name)
    ensures Replay(Live(store, attempts).store, name) == Some(Live(store, attempts).log[i].fate.kept)
  {
    hide TaskFlow;
    var init, next := attempts[..|attempts| - 1], attempts[|attempts| - 1];
    var before := Live(store, init);
    var run := TaskFlow(next.env, next.initial, Reopen(before.store));
    LifeKeepsTheRecord(store, init);
    if i < |before.log| {
      SavedWorkSurvives(store, init, name, i);
      RunLeavesCompletedAlone(before.store, next, name);
    } else {
      TaskFlowIsBounded(next.env, next.initial, Reopen(before.store));
      DurableReachesTheEnd(Reopen(before.store), run.w.trace, name, i - |before.log|);
    }
  }

  /** Work is done at most once: after a completion of a name was saved, no later run invokes its
      node again. In particular `dynamic` and each `evidence_compiler:<source>` complete at most
      once per task, however often a round asks for them. */
  lemma {:induction false} WorkIsDoneOnce(store: Option<Table>, attempts: seq<Attempt>, name: CallName, i: nat, j: nat)
    requires store.Some?
    requires i < j < |Live(store, attempts).log| && Durable(Live(store, attempts).log[i], name)
    ensures !Invokes(Live(store, attempts).log[j], name)
  {
    hide TaskFlow;
    var init, next := attempts[..|attempts| - 1], attempts[|attempts| - 1];
    var before := Live(store, init);
    var run := TaskFlow(next.env, next.initial, Reopen(before.store));
    if j < |before.log| {
      WorkIsDoneOnce(store, init, name, i, j);
    } else if i < |before.log| {
      LifeKeepsTheRecord(store, init);
      SavedWorkSurvives(store, init, name, i);
      RunLeavesCompletedAlone(before.store, next, name);
    } else {
      LifeKeepsTheRecord(store, init);
      TaskFlowIsBounded(next.env, next.initial, Reopen(before.store));
      DurableIsNeverRerun(Reopen(before.store), run.w.trace, name, i - |before.log|, j - |before.log|);
    }
  }
}
