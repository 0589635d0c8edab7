/** What every run of the exploration loop records and how it ends, told by what the model said and the
    tools gave. */
module ExplorationRuns {
  import opened Values
  import opened Exploration
  import opened ExplorationProtocol

  // ----- What a transcript asks for -----

  /** A tool call with the ordinal of the message that asks for it. */
  datatype Asked = Asked(round: nat, call: ToolCall)

  function Assistants(ms: seq<Message>): seq<Message> {
    if ms == [] then []
    else Assistants(ms[..|ms| - 1]) + (if ms[|ms| - 1].Assistant? then [ms[|ms| - 1]] else [])
  }

  function CallsOf(m: Message, round: nat): seq<Asked> {
    if m.Assistant? then seq(|m.calls|, k requires 0 <= k < |m.calls| => Asked(round, m.calls[k])) else []
  }

  /** All tool calls that the messages ask for, in order. */
  function AskedIn(ms: seq<Message>): seq<Asked> {
    if ms == [] then []
    else AskedIn(ms[..|ms| - 1]) + CallsOf(ms[|ms| - 1], |Assistants(ms[..|ms| - 1])|)
  }

  /** The events that are not about a tool. */
  function Closings(es: seq<TraceEvent>): seq<TraceEvent> {
    if es == [] then []
    else Closings(es[..|es| - 1]) + (if es[|es| - 1].ToolResult? then [] else [es[|es| - 1]])
  }

  // ----- What a step records -----

  predicate IsWeb(name: string) {
    name == "web_search" || name == "web_fetch"
  }

  /** The `i`-th step records what the tool gave when it was called as asked: a result makes it a success and
      is kept, an exception a failure with its text; only results of the web tools are structured. */
  predicate Records(env: Env, i: nat, asked: Asked, step: TraceStep) {
    && step.tool == asked.call.name && step.index == asked.round
    && match env.tool(i, asked.call)
       case Gave(result) =>
         && step.success && step.error == None && step.raw == result
         && step.structured == (if result.Some? && IsWeb(asked.call.name) then env.structure(i) else None)
         && step.summary == if step.structured.Some? then env.digest(step.structured.value) else env.describe(result)
       case Raised(error) =>
         !step.success && step.error == Some(error) && step.raw == None && step.structured == None && step.summary == env.describe(None)
  }

  /** The steps record the first of the calls asked for; these are left. */
  ghost predicate Owes(env: Env, s: Loop, rest: seq<Asked>) {
    var asked := AskedIn(s.messages);
    && |asked| == |s.steps| + |rest| && asked[|s.steps|..] == rest
    && forall i :: 0 <= i < |s.steps| ==> Records(env, i, asked[i], s.steps[i])
  }

  lemma OneCall(env: Env, s: Loop, index: nat, call: ToolCall, rest: seq<Asked>)
    requires Owes(env, s, [Asked(index, call)] + rest)
    ensures var s' := HandleCall(env, s, index, call);
            && Owes(env, s', rest) && s'.requests == s.requests
            && Assistants(s'.messages) == Assistants(s.messages) && Closings(s'.events) == Closings(s.events)
  {
    var s' := HandleCall(env, s, index, call);
    assert s'.messages[..|s.messages|] == s.messages && s'.events[..|s.events|] == s.events;
    var asked, n := AskedIn(s.messages), |s.steps|;
    assert asked[n] == asked[n..][0] == Asked(index, call);
    assert asked[n + 1..] == asked[n..][1..] == rest;
    assert AskedIn(s'.messages) == asked;
    forall i | 0 <= i < n + 1 ensures Records(env, i, asked[i], s'.steps[i]) {
      if i < n { assert s'.steps[i] == s.steps[i]; }
    }
  }

  lemma {:induction false} AllCalls(env: Env, s: Loop, index: nat, calls: seq<ToolCall>)
    requires Owes(env, s, CallsOf(Assistant("", calls), index))
    ensures var s' := HandleCalls(env, s, index, calls);
            && Owes(env, s', []) && s'.requests == s.requests
            && Assistants(s'.messages) == Assistants(s.messages) && Closings(s'.events) == Closings(s.events)
    decreases |calls|
  {
    hide Owes, HandleCall, Assistants, Closings;
    if calls != [] {
      var rest := CallsOf(Assistant("", calls[1..]), index);
      assert CallsOf(Assistant("", calls), index) == [Asked(index, calls[0])] + rest;
      OneCall(env, s, index, calls[0], rest);
      AllCalls(env, HandleCall(env, s, index, calls[0]), index, calls[1..]);
    }
  }

  // ----- Round by round -----

  /** The model asked for tools in each of the first `n` requests, and the transcript has these messages. */
  ghost predicate ModelAsked(env: Env, said: seq<Message>, n: nat) {
    |said| == n && forall i: nat | i < n :: AsksFor(env.llm(i), said[i])
  }

  predicate AsksFor(reply: LlmReply, m: Message) {
    reply.Said? && reply.calls != [] && m == Assistant(reply.content, reply.calls)
  }

  /** A loop state at the start of a round, with every step accounted for. */
  ghost predicate Settled(env: Env, s: Loop, index: nat) {
    Owes(env, s, []) && ModelAsked(env, Assistants(s.messages), index) && |s.requests| == index && Closings(s.events) == []
  }

  lemma SayAsks(env: Env, s: Loop, index: nat, content: string, calls: seq<ToolCall>)
    requires Settled(env, s, index)
    ensures var said := s.Ask().Say(Assistant(content, calls));
            && Owes(env, said, CallsOf(Assistant("", calls), index))
            && Assistants(said.messages) == Assistants(s.messages) + [Assistant(content, calls)]
            && Closings(said.events) == [] && |said.requests| == index + 1
  {
    var said := s.Ask().Say(Assistant(content, calls));
    assert said.messages[..|s.messages|] == s.messages;
    var asked, more := AskedIn(s.messages), CallsOf(Assistant("", calls), index);
    assert CallsOf(Assistant(content, calls), index) == more;
    assert AskedIn(said.messages) == asked + more;
    assert (asked + more)[|s.steps|..] == more;
  }

  lemma RoundSettles(env: Env, s: Loop, index: nat)
    requires Settled(env, s, index) && env.llm(index).Said? && env.llm(index).calls != []
    ensures var reply := env.llm(index);
            Settled(env, HandleCalls(env, s.Ask().Say(Assistant(reply.content, reply.calls)), index, reply.calls), index + 1)
  {
    hide Owes, HandleCalls, Assistants, Closings, CallsOf;
    var reply := env.llm(index);
    SayAsks(env, s, index, reply.content, reply.calls);
    AllCalls(env, s.Ask().Say(Assistant(reply.content, reply.calls)), index, reply.calls);
  }

  /** How a run ends, by the model's last reply: `n` requests came before it. */
  ghost predicate EndsBy(env: Env, o: Outcome, n: nat, maxSteps: int) {
    var reply, closings := env.llm(n), Closings(o.end.events);
    && |o.end.requests| == n + 1
    && (n < maxSteps && AskedTools(reply) ==>
          o.exit == TooManyFailures && closings == [] && ModelAsked(env, Assistants(o.end.messages), n + 1))
    && (!(n < maxSteps && AskedTools(reply)) ==> ModelAsked(env, Assistants(o.end.messages), n))
    && (reply.Broken? ==> o.exit == Escaped(reply.error) && closings == [])
    && (n < maxSteps && reply.Unavailable? ==> o.exit == LlmUnavailable(n) && closings == [LlmError(reply.reason)])
    && (n < maxSteps && reply.Said? && reply.calls == [] ==>
          o.exit == Concluded(Trim(reply.content)) && closings == [Finished(n, false)])
    && (n >= maxSteps && !reply.Broken? ==>
          && n == (if maxSteps > 0 then maxSteps else 0) && closings == [Finished(maxSteps, true)]
          && o.exit == BudgetSpent(if reply.Said? then Some(Trim(reply.content)) else None))
  }

  predicate AskedTools(reply: LlmReply) {
    reply.Said? && reply.calls != []
  }

  /** What a message without calls and an event that is not about a tool add. */
  lemma Extend(ms: seq<Message>, m: Message, es: seq<TraceEvent>, e: TraceEvent)
    ensures !m.Assistant? ==> AskedIn(ms + [m]) == AskedIn(ms) && Assistants(ms + [m]) == Assistants(ms)
    ensures !e.ToolResult? ==> Closings(es + [e]) == Closings(es) + [e]
  {
    assert (ms + [m])[..|ms|] == ms && (es + [e])[..|es|] == es;
    if !m.Assistant? { assert AskedIn(ms + [m]) == AskedIn(ms) + []; }
  }

  lemma SummaryEnds(env: Env, s: Loop, maxSteps: int)
    requires Settled(env, s, if maxSteps > 0 then maxSteps else 0)
    ensures var o := Summarize(env, s, maxSteps);
            EndsBy(env, o, |s.requests|, maxSteps) && Owes(env, o.end, []) && o.end.failures == s.failures
            && |o.end.requests| == |s.requests| + 1 && !o.exit.TooManyFailures?
  {
    hide Trim, Records, AskedIn, Assistants, Closings, ModelAsked;
    var demand, e := User("You have reached the step limit."), Finished(maxSteps, true);
    Extend(s.messages, demand, s.events, e);
    assert [] + [e] == [e];
  }

  /** `n` requests came before the last one, and the failures they left decide whether the run went on. */
  ghost predicate EndsWell(env: Env, o: Outcome, maxSteps: int) {
    && Owes(env, o.end, []) && o.end.requests != []
    && EndsBy(env, o, |o.end.requests| - 1, maxSteps)
    && (o.exit.TooManyFailures? <==> o.end.failures >= MAX_CONSECUTIVE_FAILURES)
  }

  lemma {:induction false} ExploreEnds(env: Env, s: Loop, index: nat, maxSteps: int)
    requires Settled(env, s, index) && s.failures < MAX_CONSECUTIVE_FAILURES
    requires index <= if maxSteps > 0 then maxSteps else 0
    ensures EndsWell(env, Explore(env, s, index, maxSteps), maxSteps)
    decreases maxSteps - index
  {
    hide Owes, HandleCalls, Trim, Summarize, EndsBy, ModelAsked, Closings, Assistants, Loop.Say, Loop.Emit;
    if index >= maxSteps {
      SummaryEnds(env, s, maxSteps);
    } else {
      var reply := env.llm(index);
      if AskedTools(reply) {
        RoundSettles(env, s, index);
        var handled := HandleCalls(env, s.Ask().Say(Assistant(reply.content, reply.calls)), index, reply.calls);
        TooManyEnds(env, handled, index, maxSteps);
        if handled.failures < MAX_CONSECUTIVE_FAILURES { ExploreEnds(env, handled, index + 1, maxSteps); }
      } else {
        ReplyEnds(env, s, index, maxSteps);
      }
    }
  }

  lemma TooManyEnds(env: Env, handled: Loop, index: nat, maxSteps: int)
    requires Settled(env, handled, index + 1) && index < maxSteps && AskedTools(env.llm(index))
    ensures EndsBy(env, Outcome(handled, TooManyFailures), index, maxSteps)
  {
    hide Owes, ModelAsked, Closings, Assistants;
  }

  /** A reply that asks for no tool ends the run. */
  lemma ReplyEnds(env: Env, s: Loop, index: nat, maxSteps: int)
    requires Settled(env, s, index) && index < maxSteps && !AskedTools(env.llm(index))
    ensures var o := Explore(env, s, index, maxSteps);
            && EndsBy(env, o, index, maxSteps) && Owes(env, o.end, []) && o.end.failures == s.failures
            && |o.end.requests| == index + 1 && !o.exit.TooManyFailures?
  {
    hide Owes, HandleCalls, Trim, ModelAsked, Closings, Assistants;
    var reply := env.llm(index);
    EmitEnds(env, s, LlmError(if reply.Unavailable? then reply.reason else ""));
    EmitEnds(env, s, Finished(index, false));
  }

  lemma EmitEnds(env: Env, s: Loop, e: TraceEvent)
    requires Owes(env, s, []) && Closings(s.events) == [] && !e.ToolResult?
    ensures Owes(env, s.Ask(), []) && Owes(env, s.Ask().Emit(e), []) && Closings(s.Ask().Emit(e).events) == [e]
  {
    hide Records, AskedIn;
    Extend([], System(""), s.events, e);
    assert [] + [e] == [e];
  }

  // ----- Every run -----

  lemma {:induction false} ExposedMeans(available: seq<string>, allowed: seq<string>, tool: string)
    ensures tool in ExposedTools(available, allowed) <==>
            tool in available && tool !in EXCLUDED_TOOLS && (allowed == [] || tool in allowed)
  {
    if available != [] { ExposedMeans(available[1..], allowed, tool); }
  }

  /** A tool that the model may be shown. */
  ghost predicate Usable(available: seq<string>, allowed: seq<string>, tool: string) {
    tool in available && tool !in EXCLUDED_TOOLS && (allowed == [] || tool in allowed)
  }

  /** Without a usable tool nothing is asked. Otherwise the steps are, one for one and in order, the calls
      that the transcript asks for, each recording what the tool gave; the transcript's assistant messages
      are the model's replies that asked for tools; and the run ends as the last reply says, or because
      three failures with a message came in a row. */
  lemma RunFollowsReplies(env: Env, available: seq<string>, allowed: seq<string>, system: string, task: string, maxSteps: int)
    ensures var o := Run(env, available, allowed, system, task, maxSteps);
            && (o.exit.NoTools? <==> forall tool :: !Usable(available, allowed, tool))
            && (o.exit.NoTools? ==> o.end == Loop([], [], [], 0, []))
            && (!o.exit.NoTools? ==>
                  && EndsWell(env, o, maxSteps)
                  && (o.exit.TooManyFailures? <==> FailureRun(o.end.steps) >= MAX_CONSECUTIVE_FAILURES))
  {
    hide Owes, EndsBy, Explore;
    var o := Run(env, available, allowed, system, task, maxSteps);
    forall tool ensures tool in ExposedTools(available, allowed) <==> Usable(available, allowed, tool) {
      ExposedMeans(available, allowed, tool);
    }
    var exposed := ExposedTools(available, allowed);
    if exposed != [] {
      assert exposed[0] in exposed;
      OpeningSettles(env, system, task);
      ExploreEnds(env, Opening(system, task), 0, maxSteps);
      TranscriptProtocol(env, available, allowed, system, task, maxSteps);
      ExitIsNotNoTools(env, o, maxSteps);
    }
  }

  lemma ExitIsNotNoTools(env: Env, o: Outcome, maxSteps: int)
    requires EndsWell(env, o, maxSteps)
    ensures !o.exit.NoTools?
  {
  }

  lemma OpeningSettles(env: Env, system: string, task: string)
    ensures Settled(env, Opening(system, task), 0)
  {
    hide Records;
    var e := LlmError("");
    Extend([], System(system), [], e);
    Extend([System(system)], User(task), [], e);
    assert [] + [System(system)] == [System(system)];
    assert [System(system)] + [User(task)] == Opening(system, task).messages;
  }
}
