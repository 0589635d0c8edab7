/** What a log that respects the memo table implies: completed work is absorbing, is never run
    again, and the attempt counter counts the starts. */
module CheckpointLaws {
  import opened Values
  import opened Checkpoints

  /** The patch an answered call returns. */
  function PatchOf(e: Event): Record
    requires Answered(e)
  {
    if e.fate.Replayed? then e.fate.replay else e.fate.output
  }

  /** What a call does, read off its log entry. */
  lemma CallMeans(env: Env, w: World, name: CallName, node: Node, input: Record)
    ensures var x, e := RunNode(env, w, name, node, input), NodeEvent(env, |w.trace|, w.tables.mem, name, node, input, w.state);
            && x.w.state == w.state && x.w.origin == w.origin && x.w.trace == w.trace + [e]
            && x.w.tables == After(w.tables, e) && Allowed(w.tables, e)
            && (x.Ok? <==> Answered(e)) && (x.Ok? ==> x.value == PatchOf(e)) && (x.Stop? ==> x.halt == HaltOf(e))
  {
    hide Summary, Faithful, LeaseProblem, Replay, After;
    assert w.tables == Tables(w.tables.mem, w.tables.store);
  }

  /** Whatever the store would replay, memory would replay too. */
  ghost predicate StoreBehind(t: Tables) {
    && (t.store.Some? ==> t.mem.Some?)
    && forall name :: Replay(t.store, name).Some? ==> Replay(t.mem, name) == Replay(t.store, name)
  }

  /** What `earlier` would replay, `later` would replay as well, with the same patch. */
  ghost predicate Keeps(earlier: Option<Table>, later: Option<Table>) {
    forall name :: Replay(earlier, name).Some? ==> Replay(later, name) == Replay(earlier, name)
  }

  lemma AfterKeeps(t: Tables, e: Event)
    requires Allowed(t, e)
    ensures Keeps(t.mem, After(t, e).mem)
    ensures StoreBehind(t) ==> StoreBehind(After(t, e)) && Keeps(t.store, After(t, e).store)
  {
  }

  /** Completed is absorbing: no legal log takes a replayable checkpoint away or changes its
      patch, neither in memory nor in the store. */
  lemma {:induction false} CompletedIsAbsorbing(t: Tables, log: seq<Event>)
    requires Legal(t, log)
    ensures Keeps(t.mem, Fold(t, log).mem)
    ensures StoreBehind(t) ==> StoreBehind(Fold(t, log)) && Keeps(t.store, Fold(t, log).store)
  {
    if log != [] {
      CompletedIsAbsorbing(t, log[..|log| - 1]);
      AfterKeeps(Fold(t, log[..|log| - 1]), log[|log| - 1]);
    }
  }

  lemma {:induction false} LegalPrefix(t: Tables, log: seq<Event>, k: nat)
    requires Legal(t, log) && k <= |log|
    ensures Legal(t, log[..k])
    ensures Legal(Fold(t, log[..k]), log[k..])
    ensures Fold(Fold(t, log[..k]), log[k..]) == Fold(t, log)
    decreases |log|
  {
    if k == |log| {
      assert log[..k] == log;
    } else {
      var init := log[..|log| - 1];
      LegalPrefix(t, init, k);
      assert init[..k] == log[..k];
      assert log[k..][..|log| - k - 1] == init[k..];
    }
  }

  /** A name that is already completed is never run by a legal log. */
  lemma {:induction false} CompletedIsNeverRun(t: Tables, log: seq<Event>, name: CallName, i: nat)
    requires Legal(t, log) && i < |log|
    requires Replay(t.mem, name).Some?
    ensures !Invokes(log[i], name)
  {
    LegalPrefix(t, log, i + 1);
    assert log[..i + 1][..i] == log[..i];
    CompletedIsAbsorbing(t, log[..i]);
  }

  lemma DurableIsKept(t: Tables, e: Event, name: CallName)
    requires Allowed(t, e) && StoreBehind(t) && t.mem.Some? && Durable(e, name)
    ensures Replay(After(t, e).store, name) == Some(e.fate.kept)
    ensures Replay(After(t, e).mem, name) == Some(e.fate.kept)
  {
  }

  /** Work whose completion was saved is done at most once in a run. */
  lemma DurableIsNeverRerun(t: Tables, log: seq<Event>, name: CallName, i: nat, j: nat)
    requires Legal(t, log) && StoreBehind(t) && t.mem.Some?
    requires i < j < |log| && Durable(log[i], name)
    ensures !Invokes(log[j], name)
  {
    LegalPrefix(t, log, j);
    DurableReachesTheEnd(t, log[..j], name, i);
    CompletedIsNeverRun(Fold(t, log[..j]), log[j..], name, 0);
  }

  /** ... and is still in the store, with the patch it was saved with, when the log ends. */
  lemma DurableReachesTheEnd(t: Tables, log: seq<Event>, name: CallName, i: nat)
    requires Legal(t, log) && StoreBehind(t) && t.mem.Some?
    requires i < |log| && Durable(log[i], name)
    ensures Replay(Fold(t, log).store, name) == Some(log[i].fate.kept)
    ensures Replay(Fold(t, log).mem, name) == Some(log[i].fate.kept)
  {
    LegalPrefix(t, log, i);
    LegalPrefix(t, log, i + 1);
    var init := log[..i + 1];
    assert init[..i] == log[..i] && init[i] == log[i];
    CompletedIsAbsorbing(t, log[..i]);
    MemoryStays(t, log[..i]);
    DurableIsKept(Fold(t, log[..i]), log[i], name);
    CompletedIsAbsorbing(t, init);
    CompletedIsAbsorbing(Fold(t, init), log[i + 1..]);
  }

  lemma {:induction false} MemoryStays(t: Tables, log: seq<Event>)
    ensures Fold(t, log).mem.Some? <==> t.mem.Some?
  {
    if log != [] { MemoryStays(t, log[..|log| - 1]); }
  }

  function Attempts(t: Option<Table>, name: CallName): nat {
    if t.Some? then Previous(t.value, name).attempts else 0
  }

  function StartsOf(log: seq<Event>, name: CallName): nat {
    if log == [] then 0
    else StartsOf(log[..|log| - 1], name) + (if Starts(log[|log| - 1], name) then 1 else 0)
  }

  /** `attempt_count` counts the starts: it rises by exactly the number of calls of that name
      that got past the replay test. */
  lemma {:induction false} AttemptsCountStarts(t: Tables, log: seq<Event>, name: CallName)
    requires t.mem.Some?
    ensures Attempts(Fold(t, log).mem, name) == Attempts(t.mem, name) + StartsOf(log, name)
  {
    if log != [] {
      AttemptsCountStarts(t, log[..|log| - 1], name);
      MemoryStays(t, log[..|log| - 1]);
    }
  }

  // ----- What the monitor means -----

  /** No ordering rule was broken. */
  predicate Orderly(log: seq<Event>) {
    !Summary(log).phase.Violation?
  }

  lemma {:induction false} OrderlyPrefix(log: seq<Event>, k: nat)
    requires Orderly(log) && k <= |log|
    ensures Orderly(log[..k])
    ensures k < |log| ==> !Summary(log[..k]).phase.Stopped? && !Summary(log[..k]).phase.Ended?
    decreases |log|
  {
    if k < |log| {
      var init := log[..|log| - 1];
      OrderlyPrefix(init, k);
      assert init[..k] == log[..k];
    } else {
      assert log[..k] == log;
    }
  }

  /** The summary of a log up to and with its i-th entry, and that both ends are orderly. */
  lemma OrderlyStep(log: seq<Event>, i: nat)
    requires Orderly(log) && i < |log|
    ensures Orderly(log[..i]) && Orderly(log[..i + 1])
    ensures Summary(log[..i + 1]) == Note(Summary(log[..i]), log[i])
    ensures i + 1 < |log| ==> !Summary(log[..i + 1]).phase.Stopped? && !Summary(log[..i + 1]).phase.Ended?
  {
    OrderlyPrefix(log, i);
    OrderlyPrefix(log, i + 1);
    assert log[..i + 1][..i] == log[..i];
  }

  /** A refused lease check is the last thing in the log: no call and no checkpoint write follows. */
  lemma {:induction false} DeniedIsLast(log: seq<Event>, i: nat)
    requires Orderly(log) && i < |log| && log[i].Denied?
    ensures i == |log| - 1
  {
    OrderlyStep(log, i);
  }

  /** A call without an answer: refused at its lease check, broken off, or not recorded. */
  predicate Stops(e: Event) {
    e.Denied? || (e.Call? && !Answered(e))
  }

  /** The run stopped exactly if its last call was left without an answer, and for that call's reason. */
  lemma StoppedMeans(log: seq<Event>)
    requires Orderly(log)
    ensures Summary(log).phase.Stopped? <==> log != [] && Stops(log[|log| - 1])
    ensures Summary(log).phase.Stopped? ==> Summary(log).phase == Stopped(HaltOf(log[|log| - 1]))
  {
    if log != [] { OrderlyPrefix(log, |log| - 1); }
  }

  /** Nothing follows a call without an answer. */
  lemma {:induction false} StopIsLast(log: seq<Event>, i: nat)
    requires Orderly(log) && i < |log| && Stops(log[i])
    ensures i == |log| - 1
  {
    OrderlyStep(log, i);
  }

  /** After a block check fires, the only thing left is one call of the summarizer (or its own
      refused lease check). */
  lemma {:induction false} BlockedThenSummarizerOnly(log: seq<Event>, i: nat)
    requires Orderly(log) && i < |log| && log[i].Halted?
    ensures |log| <= i + 2
    ensures |log| == i + 2 ==> log[i + 1].Denied? || (log[i + 1].Call? && log[i + 1].node.Summarizer?)
  {
    OrderlyStep(log, i);
    if i + 1 < |log| {
      OrderlyStep(log, i + 1);
    }
  }

  /** One of these nodes answered. */
  predicate Answers(e: Event, nodes: set<Node>) {
    Answered(e) && e.node in nodes
  }

  /** Entry `a` is an auditor's answer and no coder or debugger answered after it. */
  ghost predicate AuditStands(log: seq<Event>, a: nat) {
    && a < |log| && Answers(log[a], {Auditor})
    && forall k :: a < k < |log| ==> !Answers(log[k], {Coder, Debugger})
  }

  lemma {:induction false} AuditedMeans(log: seq<Event>) returns (a: nat)
    requires var phase := Summary(log).phase;
             phase.Active? && (phase.progress.Audited? || phase.progress.Reaudited? || phase.progress.Rechecked?)
    ensures AuditStands(log, a)
  {
    var last := |log| - 1;
    OrderlyPrefix(log, last);
    if Answers(log[last], {Auditor}) {
      a := last;
    } else {
      a := AuditedMeans(log[..last]);
      assert log[..last][a] == log[a];
      forall k | a < k < |log| ensures !Answers(log[k], {Coder, Debugger}) {
        if k < last { assert log[..last][k] == log[k]; }
      }
    }
  }

  /** No executor call without an auditor's answer after the latest coder's or debugger's. */
  lemma AuditBeforeExecute(log: seq<Event>, i: nat)
    requires Orderly(log) && i < |log|
    requires log[i].Call? && log[i].node.Executor?
    ensures exists a :: AuditStands(log[..i], a)
  {
    OrderlyStep(log, i);
    var a := AuditedMeans(log[..i]);
  }

  /** Calls of a node since the latest round began. */
  function CallsThisRound(log: seq<Event>, node: Node): nat {
    if log == [] || log[|log| - 1].RoundBegan? then 0
    else CallsThisRound(log[..|log| - 1], node) +
         (if log[|log| - 1].Call? && log[|log| - 1].node == node then 1 else 0)
  }

  function RoundsOf(log: seq<Event>): nat {
    if log == [] then 0 else RoundsOf(log[..|log| - 1]) + (if log[|log| - 1].RoundBegan? then 1 else 0)
  }

  /** Auditor, debugger and executor calls that a round can have made by a stage of its progress. */
  function Budget(progress: Progress): (nat, nat, nat) {
    match progress
    case Building => (0, 0, 0) case Audited => (1, 0, 0) case Debugged => (1, 1, 0) case Reaudited => (2, 1, 0)
    case Executed => (2, 1, 1) case Repaired => (2, 2, 1) case Rechecked => (3, 2, 1) case Retried => (3, 2, 2)
  }

  /** At every point of an orderly log: at most three rounds, and in the current one at most three
      auditor, two debugger and two executor calls. */
  lemma {:induction false} JudgesAreBounded(log: seq<Event>)
    requires Orderly(log)
    ensures RoundsOf(log) <= MAX_STATIC_ROUNDS
    ensures CallsThisRound(log, Auditor) <= 3 && CallsThisRound(log, Debugger) <= 2 && CallsThisRound(log, Executor) <= 2
    ensures var phase := Summary(log).phase;
            phase.Active? ==>
              && phase.rounds == RoundsOf(log)
              && CallsThisRound(log, Auditor) <= Budget(phase.progress).0
              && CallsThisRound(log, Debugger) <= Budget(phase.progress).1
              && CallsThisRound(log, Executor) <= Budget(phase.progress).2
  {
    if log != [] {
      OrderlyPrefix(log, |log| - 1);
      JudgesAreBounded(log[..|log| - 1]);
    }
  }

  /** The executor is only called in a round whose coder answered and whose actions do not ask
      for `dynamic`. */
  lemma {:induction false} ExecutorNeedsCode(log: seq<Event>, i: nat)
    requires Orderly(log) && i < |log|
    requires log[i].Call? && log[i].node.Executor?
    ensures exists c: nat :: c < i && CoderOfRound(log[..i], c)
    ensures forall d: nat | d < i && AsksForDynamic(log[d]) :: Superseded(log[..i], d)
  {
    OrderlyStep(log, i);
    var c := CodedMeans(log[..i]);
    forall d: nat | d < i && AsksForDynamic(log[d]) ensures Superseded(log[..i], d) {
      var later := NotDynamicMeans(log[..i], d);
    }
  }

  /** The analyst's actions for a round, with `dynamic` among them. */
  predicate AsksForDynamic(e: Event) {
    e.Planned? && e.stage.Act? && DynamicAction in e.actions
  }

  /** A later round or action list replaced the one at `d`. */
  ghost predicate Superseded(log: seq<Event>, d: nat) {
    exists later :: d < later < |log| && Supersedes(log[later])
  }

  predicate Supersedes(e: Event) {
    e.RoundBegan? || (e.Planned? && e.stage.Act?)
  }

  /** Entry `c` is a coder's answer in the current round. */
  ghost predicate CoderOfRound(log: seq<Event>, c: nat) {
    && c < |log| && Answers(log[c], {Coder})
    && forall k :: c < k < |log| ==> !log[k].RoundBegan?
  }

  lemma {:induction false} CodedMeans(log: seq<Event>) returns (c: nat)
    requires Summary(log).phase.Active? && Summary(log).phase.coded
    ensures CoderOfRound(log, c)
  {
    var last := |log| - 1;
    OrderlyPrefix(log, last);
    if Answers(log[last], {Coder}) {
      c := last;
    } else {
      c := CodedMeans(log[..last]);
      assert log[..last][c] == log[c];
      forall k | c < k < |log| ensures !log[k].RoundBegan? {
        if k < last { assert log[..last][k] == log[k]; }
      }
    }
  }

  lemma {:induction false} NotDynamicMeans(log: seq<Event>, d: nat) returns (later: nat)
    requires Summary(log).phase.Active? && !Summary(log).phase.dynamic
    requires d < |log| && AsksForDynamic(log[d])
    ensures d < later < |log| && Supersedes(log[later])
  {
    var last := |log| - 1;
    OrderlyPrefix(log, last);
    later := last;
    if !Supersedes(log[last]) {
      later := NotDynamicMeans(log[..last], d);
    }
  }

  /** The length of a log in terms of the action lists it took. */
  lemma {:induction false} SlackMeans(log: seq<Event>)
    ensures Summary(log).slack == 8 * PlannedActions(log) - |log|
  {
    if log != [] { SlackMeans(log[..|log| - 1]); }
  }
}
