/** What every transcript of the exploration loop looks like. */
module ExplorationProtocol {
  import opened Values
  import opened Exploration

  // ----- The protocol -----

  /** Each assistant message with tool calls is followed at once by one tool reply for each of its
      calls, with that call's id, in order; and there is nothing else. */
  ghost predicate Exchange(ms: seq<Message>)
    decreases |ms|
  {
    ms == [] ||
    (&& ms[0].Assistant? && ms[0].calls != [] && 1 + |ms[0].calls| <= |ms|
     && RepliesTo(ms[0].calls, ms[1..1 + |ms[0].calls|])
     && Exchange(ms[1 + |ms[0].calls|..]))
  }

  ghost predicate RepliesTo(calls: seq<ToolCall>, ms: seq<Message>) {
    |ms| == |calls| && forall k :: 0 <= k < |ms| ==> ms[k].ToolReply? && ms[k].id == calls[k].id
  }

  /** A transcript that can be sent to the model: system prompt, task, complete exchanges. */
  ghost predicate Sendable(ms: seq<Message>) {
    |ms| >= 2 && ms[0].System? && ms[1].User? && Exchange(ms[2..])
  }

  function ToolReplies(ms: seq<Message>): seq<Message> {
    if ms == [] then []
    else ToolReplies(ms[..|ms| - 1]) + (if ms[|ms| - 1].ToolReply? then [ms[|ms| - 1]] else [])
  }

  function ToolResults(es: seq<TraceEvent>): seq<TraceEvent> {
    if es == [] then []
    else ToolResults(es[..|es| - 1]) + (if es[|es| - 1].ToolResult? then [es[|es| - 1]] else [])
  }

  /** A step, a reply and an event that record the same tool call. */
  ghost predicate SameCall(step: TraceStep, reply: Message, event: TraceEvent) {
    && reply.ToolReply? && event.ToolResult?
    && event.tool == step.tool && event.step == step.index && event.success == step.success
    && (step.success <==> step.error.None?)
    && reply.body.structured == step.structured
    && (if HasText(step.error) then reply.body.error == event.error == step.error
        else reply.body.error == event.error == None && reply.body.summary == step.summary)
  }

  /** Steps, tool replies and `tool_result` events correspond one to one, in order. */
  ghost predicate Aligned(s: Loop) {
    var replies, results := ToolReplies(s.messages), ToolResults(s.events);
    && |replies| == |s.steps| && |results| == |s.steps|
    && forall i :: 0 <= i < |s.steps| ==> SameCall(s.steps[i], replies[i], results[i])
  }

  /** The number of steps at the end of the list whose failure had a message. */
  function FailureRun(steps: seq<TraceStep>): nat {
    if steps == [] || !HasText(steps[|steps| - 1].error) then 0 else FailureRun(steps[..|steps| - 1]) + 1
  }

  /** The length of the all-failing suffix of the steps. */
  function FailedSuffix(steps: seq<TraceStep>): nat {
    if steps == [] || steps[|steps| - 1].success then 0 else FailedSuffix(steps[..|steps| - 1]) + 1
  }

  ghost predicate Counted(s: Loop) {
    Aligned(s) && s.failures == FailureRun(s.steps)
  }

  // ----- One message's tool calls -----

  lemma HandleCallKeeps(env: Env, s: Loop, index: int, call: ToolCall)
    requires Counted(s)
    ensures Counted(HandleCall(env, s, index, call))
  {
    var s' := HandleCall(env, s, index, call);
    var n := |s.steps|;
    assert s'.messages[..|s.messages|] == s.messages && s'.events[..|s.events|] == s.events;
    assert s'.steps[..n] == s.steps;
    forall i | 0 <= i < |s'.steps|
      ensures SameCall(s'.steps[i], ToolReplies(s'.messages)[i], ToolResults(s'.events)[i])
    {
      if i < n { assert s'.steps[i] == s.steps[i]; }
    }
  }

  /** One call adds one message, its reply. */
  lemma HandleCallReplies(env: Env, s: Loop, index: int, call: ToolCall)
    ensures var s' := HandleCall(env, s, index, call);
            && s'.requests == s.requests && |s'.messages| == |s.messages| + 1 && s'.messages[..|s.messages|] == s.messages
            && s'.messages[|s.messages|].ToolReply? && s'.messages[|s.messages|].id == call.id
  {
  }

  lemma {:induction false} HandleCallsKeep(env: Env, s: Loop, index: int, calls: seq<ToolCall>)
    requires Counted(s)
    ensures var s' := HandleCalls(env, s, index, calls);
            && Counted(s') && s'.requests == s.requests
            && |s'.messages| == |s.messages| + |calls| && s'.messages[..|s.messages|] == s.messages
            && RepliesTo(calls, s'.messages[|s.messages|..])
    decreases |calls|
  {
    hide Counted, HandleCall, RepliesTo;
    if calls == [] {
      assert RepliesTo([], []) by { NoReplies(); }
      assert s.messages[|s.messages|..] == [];
    } else {
      var s1 := HandleCall(env, s, index, calls[0]);
      HandleCallKeeps(env, s, index, calls[0]);
      HandleCallReplies(env, s, index, calls[0]);
      HandleCallsKeep(env, s1, index, calls[1..]);
      RepliesJoin(calls, |s.messages|, s1.messages, HandleCalls(env, s, index, calls).messages);
    }
  }

  lemma NoReplies()
    ensures RepliesTo([], [])
  {
  }

  /** The first call's reply, and then the replies to the others. */
  lemma RepliesJoin(calls: seq<ToolCall>, n: nat, one: seq<Message>, all: seq<Message>)
    requires calls != [] && |one| == n + 1 && one[n].ToolReply? && one[n].id == calls[0].id
    requires |all| == n + |calls| && all[..n + 1] == one && RepliesTo(calls[1..], all[n + 1..])
    ensures all[..n] == one[..n] && RepliesTo(calls, all[n..])
  {
    assert all[n] == all[..n + 1][n];
    forall k | 0 <= k < |calls| ensures all[n..][k].ToolReply? && all[n..][k].id == calls[k].id {
      if k > 0 { assert all[n + 1..][k - 1] == all[n + k] && calls[1..][k - 1] == calls[k]; }
    }
  }

  lemma {:induction false} ExchangeGrows(ms: seq<Message>, said: Message, replies: seq<Message>)
    requires Exchange(ms) && said.Assistant? && said.calls != [] && RepliesTo(said.calls, replies)
    ensures Exchange(ms + [said] + replies)
    decreases |ms|
  {
    var all := ms + [said] + replies;
    if ms == [] {
      assert all[1..1 + |said.calls|] == replies && all[1 + |said.calls|..] == [];
    } else {
      var n := 1 + |ms[0].calls|;
      ExchangeGrows(ms[n..], said, replies);
      assert all[n..] == ms[n..] + [said] + replies;
      assert all[1..n] == ms[1..n];
    }
  }

  /** A message that is no tool reply, and an event that is no tool result, disturb nothing. */
  lemma OtherEntriesKeep(s: Loop, m: Message, e: TraceEvent)
    requires Counted(s)
    ensures !m.ToolReply? ==> Counted(s.Say(m))
    ensures !e.ToolResult? ==> Counted(s.Emit(e))
    ensures Counted(s.Ask())
  {
    assert (s.messages + [m])[..|s.messages|] == s.messages;
    assert (s.events + [e])[..|s.events|] == s.events;
  }

  // ----- Every run -----

  /** What a request to the model shows it: in a round, a sendable transcript with the counter
      below the limit; in the last request, the same and the demand for a summary. */
  ghost predicate GoodRequest(r: Request) {
    && r.failures < MAX_CONSECUTIVE_FAILURES
    && (Sendable(r.messages) ||
        (r.messages != [] && r.messages[|r.messages| - 1].User? && Sendable(r.messages[..|r.messages| - 1])))
  }

  ghost predicate GoodRequests(s: Loop) {
    forall i :: 0 <= i < |s.requests| ==> GoodRequest(s.requests[i])
  }

  /** A loop state at the start of a round. */
  ghost predicate AtRound(s: Loop) {
    Counted(s) && GoodRequests(s) && Sendable(s.messages) && s.failures < MAX_CONSECUTIVE_FAILURES
  }

  lemma AskKeeps(s: Loop)
    requires GoodRequests(s) && s.failures < MAX_CONSECUTIVE_FAILURES
    requires Sendable(s.messages) ||
             (s.messages != [] && s.messages[|s.messages| - 1].User? && Sendable(s.messages[..|s.messages| - 1]))
    ensures GoodRequests(s.Ask()) && |s.Ask().requests| == |s.requests| + 1
  {
    hide Sendable;
  }

  lemma RoundKeeps(env: Env, s: Loop, index: int, content: string, calls: seq<ToolCall>)
    requires AtRound(s) && calls != []
    ensures var s' := HandleCalls(env, s.Ask().Say(Assistant(content, calls)), index, calls);
            && Counted(s') && GoodRequests(s') && Sendable(s'.messages) && |s'.requests| == |s.requests| + 1
  {
    hide Counted, Exchange, RepliesTo, GoodRequest, HandleCalls;
    var said := Assistant(content, calls);
    var s1 := s.Ask().Say(said);
    AskKeeps(s);
    OtherEntriesKeep(s, said, LlmError(""));
    OtherEntriesKeep(s.Ask(), said, LlmError(""));
    HandleCallsKeep(env, s1, index, calls);
    var s' := HandleCalls(env, s1, index, calls);
    var replies := s'.messages[|s1.messages|..];
    ExchangeGrows(s.messages[2..], said, replies);
    assert s'.messages == s1.messages + replies;
    assert s'.messages[2..] == s.messages[2..] + [said] + replies;
    assert s'.messages[0] == s1.messages[0] == s.messages[0] && s'.messages[1] == s1.messages[1] == s.messages[1];
  }

  lemma SummarizeKeeps(env: Env, s: Loop, maxSteps: int)
    requires AtRound(s)
    ensures var o := Summarize(env, s, maxSteps);
            Counted(o.end) && GoodRequests(o.end) && |o.end.requests| == |s.requests| + 1
  {
    hide Counted, Sendable, GoodRequest;
    var demand, e := User("You have reached the step limit."), Finished(maxSteps, true);
    OtherEntriesKeep(s, demand, e);
    OtherEntriesKeep(s.Say(demand), demand, e);
    OtherEntriesKeep(s.Say(demand).Ask(), demand, e);
    assert (s.messages + [demand])[..|s.messages|] == s.messages;
    AskKeeps(s.Say(demand));
  }

  lemma {:induction false} ExploreKeeps(env: Env, s: Loop, index: int, maxSteps: int)
    requires AtRound(s)
    ensures var o := Explore(env, s, index, maxSteps);
            && Counted(o.end) && GoodRequests(o.end)
            && |o.end.requests| <= |s.requests| + (if index < maxSteps then maxSteps - index else 0) + 1
    decreases maxSteps - index
  {
    hide Counted, Sendable, GoodRequest, HandleCalls;
    if index >= maxSteps {
      SummarizeKeeps(env, s, maxSteps);
    } else {
      AskKeeps(s);
      var reply := env.llm(|s.requests|);
      OtherEntriesKeep(s, User(""), LlmError(""));
      OtherEntriesKeep(s.Ask(), User(""), Finished(index, false));
      if reply.Unavailable? { OtherEntriesKeep(s.Ask(), User(""), LlmError(reply.reason)); }
      if reply.Said? && reply.calls != [] {
        RoundKeeps(env, s, index, reply.content, reply.calls);
        var handled := HandleCalls(env, s.Ask().Say(Assistant(reply.content, reply.calls)), index, reply.calls);
        if handled.failures < MAX_CONSECUTIVE_FAILURES { ExploreKeeps(env, handled, index + 1, maxSteps); }
      }
    }
  }

  /** The transcript protocol: in every run, whatever the model and the tools do, each request shows
      the model only answered tool calls with the counter below three; steps, tool replies and
      `tool_result` events correspond; and there are at most max(0, maxSteps) + 1 requests. */
  lemma TranscriptProtocol(env: Env, available: seq<string>, allowed: seq<string>, system: string, task: string,
                           maxSteps: int)
    ensures var end := Run(env, available, allowed, system, task, maxSteps).end;
            && GoodRequests(end) && Aligned(end) && end.failures == FailureRun(end.steps)
            && |end.requests| <= (if maxSteps > 0 then maxSteps else 0) + 1
  {
    var s := Opening(system, task);
    assert s.messages[..1] == [System(system)] && s.messages[..1][..0] == [];
    assert ToolReplies(s.messages[..1]) == ToolReplies(s.messages[..1][..0]);
    assert Exchange(s.messages[2..]);
    ExploreKeeps(env, s, 0, maxSteps);
  }

  /** The structured results in a list of tool replies, in order. */
  function ShownKnowledge(replies: seq<Message>): seq<string> {
    if replies == [] then []
    else (if replies[0].ToolReply? && replies[0].body.structured.Some? then [replies[0].body.structured.value] else [])
         + ShownKnowledge(replies[1..])
  }

  lemma {:induction false} SameKnowledge(steps: seq<TraceStep>, replies: seq<Message>)
    requires |steps| == |replies|
    requires forall i :: 0 <= i < |steps| ==> replies[i].ToolReply? && replies[i].body.structured == steps[i].structured
    ensures ExternalKnowledge(steps) == ShownKnowledge(replies)
  {
    if steps != [] {
      assert replies[0].body.structured == steps[0].structured;
      SameKnowledge(steps[1..], replies[1..]);
    }
  }

  /** What a run hands on as external knowledge is what its tool replies showed the model, in that order. */
  lemma KnowledgeWasShown(env: Env, available: seq<string>, allowed: seq<string>, system: string, task: string,
                          maxSteps: int)
    ensures var end := Run(env, available, allowed, system, task, maxSteps).end;
            ExternalKnowledge(end.steps) == ShownKnowledge(ToolReplies(end.messages))
  {
    hide Run;
    var end := Run(env, available, allowed, system, task, maxSteps).end;
    TranscriptProtocol(env, available, allowed, system, task, maxSteps);
    forall i | 0 <= i < |end.steps|
      ensures ToolReplies(end.messages)[i].ToolReply? && ToolReplies(end.messages)[i].body.structured == end.steps[i].structured
    {
      assert SameCall(end.steps[i], ToolReplies(end.messages)[i], ToolResults(end.events)[i]);
    }
    SameKnowledge(end.steps, ToolReplies(end.messages));
  }

  /** The assistant message at `i`, if there is one, is followed at once by its calls' replies. */
  ghost predicate AnsweredAt(ms: seq<Message>, i: nat)
    requires i < |ms|
  {
    ms[i].Assistant? ==>
      i + |ms[i].calls| < |ms| && RepliesTo(ms[i].calls, ms[i + 1..i + 1 + |ms[i].calls|])
  }

  /** The message at `i` is a reply to a call of the assistant message at `a`. */
  ghost predicate ReplyAt(ms: seq<Message>, i: nat, a: nat) {
    && a < i < |ms| && ms[i].ToolReply? && ms[a].Assistant? && i - a <= |ms[a].calls|
    && ms[a].calls[i - a - 1].id == ms[i].id
  }

  lemma SliceOfTail(ms: seq<Message>, n: nat, k: nat, c: nat)
    requires n + k + c <= |ms|
    ensures ms[n..][k..k + c] == ms[n + k..n + k + c]
  {
  }

  /** Positions instead of recursion: every assistant message's calls are answered one by one right
      after it, and every other message is one of these answers. */
  lemma {:induction false} ExchangeMeans(ms: seq<Message>, i: nat)
    requires Exchange(ms) && i < |ms|
    ensures AnsweredAt(ms, i)
    ensures !ms[i].Assistant? ==> exists a :: ReplyAt(ms, i, a)
    decreases |ms|
  {
    var n := 1 + |ms[0].calls|;
    if i == 0 {
    } else if i < n {
      assert ms[1..n][i - 1] == ms[i];
      assert ReplyAt(ms, i, 0);
    } else {
      var rest, j := ms[n..], i - n;
      ExchangeMeans(rest, j);
      assert rest[j] == ms[i];
      if ms[i].Assistant? {
        SliceOfTail(ms, n, j + 1, |ms[i].calls|);
      } else {
        var a: nat :| ReplyAt(rest, j, a);
        assert rest[a] == ms[n + a];
        assert ReplyAt(ms, i, n + a);
      }
    }
  }

  // ----- The failure counter and the failing steps -----

  /** The counter is not always the length of the all-failing suffix: it is exactly when no failing
      step in that suffix has an empty error message. */
  lemma {:induction false} CounterIsFailedSuffix(steps: seq<TraceStep>)
    requires forall i :: 0 <= i < |steps| ==> (steps[i].success <==> steps[i].error.None?)
    ensures FailureRun(steps) <= FailedSuffix(steps) <= |steps|
    ensures FailureRun(steps) == FailedSuffix(steps) <==>
            forall i :: |steps| - FailedSuffix(steps) <= i < |steps| ==> steps[i].error != Some("")
  {
    if steps != [] && !steps[|steps| - 1].success {
      var init := steps[..|steps| - 1];
      CounterIsFailedSuffix(init);
      assert forall i :: 0 <= i < |init| ==> init[i] == steps[i];
    }
  }

  /** A tool that fails with an empty message: the step failed, yet the counter was reset. */
  lemma EmptyErrorResetsTheCounter(env: Env, s: Loop, index: int, call: ToolCall)
    requires env.tool(|s.steps|, call) == Raised("")
    ensures var s' := HandleCall(env, s, index, call);
            s'.failures == 0 && FailedSuffix(s'.steps) == FailedSuffix(s.steps) + 1
  {
    var s' := HandleCall(env, s, index, call);
    assert s'.steps[..|s.steps|] == s.steps;
  }
}
