/** The bounded tool-calling exploration loop, against an arbitrary language model and arbitrary
    tools, and the protocol its transcript follows. */
module Exploration {
  import opened Values

  datatype ToolCall = ToolCall(id: string, name: string, arguments: string)

  /** What the model is told about a tool call: its error, if that has a text, else a summary. */
  datatype ToolContent = ToolContent(error: Option<string>, summary: string, structured: Option<string>)

  datatype Message =
    | System(text: string)
    | User(text: string)
    | Assistant(content: string, calls: seq<ToolCall>)
    | ToolReply(id: string, body: ToolContent)

  /** The model's answer to a request; `Broken` stands for an exception the loop does not handle. */
  datatype LlmReply = Said(content: string, calls: seq<ToolCall>) | Unavailable(reason: string) | Broken(error: string)

  datatype ToolOutcome = Gave(result: Option<string>) | Raised(error: string)

  datatype TraceStep = TraceStep(index: int, tool: string, summary: string, success: bool, error: Option<string>,
                                 structured: Option<string>, raw: Option<string>)

  datatype TraceEvent =
    | ToolResult(tool: string, success: bool, step: int, error: Option<string>)
    | LlmError(message: string)
    | Finished(step: int, budgetExhausted: bool)

  /** The model by the ordinal of the request, the tools by the ordinal of the call, and the
      functions that describe, structure and parse texts. */
  datatype Env = Env(
    llm: nat -> LlmReply,
    tool: (nat, ToolCall) -> ToolOutcome,
    structure: nat -> Option<string>,
    describe: Option<string> -> string,
    digest: string -> string)

  /** What one request to the model showed it, and the failure counter at that time. */
  datatype Request = Request(messages: seq<Message>, failures: nat)

  datatype Loop = Loop(messages: seq<Message>, steps: seq<TraceStep>, events: seq<TraceEvent>, failures: nat,
                       requests: seq<Request>) {
    function Ask(): Loop {
      this.(requests := requests + [Request(messages, failures)])
    }
    function Say(m: Message): Loop {
      this.(messages := messages + [m])
    }
    function Emit(e: TraceEvent): Loop {
      this.(events := events + [e])
    }
  }

  datatype Exit =
    | NoTools
    | LlmUnavailable(step: int)
    | Concluded(answer: string)
    | TooManyFailures
    | BudgetSpent(summary: Option<string>)   // None: the model was unavailable for the summary
    | Escaped(error: string)

  datatype Outcome = Outcome(end: Loop, exit: Exit)

  const MAX_CONSECUTIVE_FAILURES := 3

  predicate HasText(error: Option<string>) {
    error.Some? && error.value != ""
  }

  /** Handle one tool call: reply to the model, record the step, emit the event, count failures.
      A failure whose message is empty does not count: it resets the counter. */
  function HandleCall(env: Env, s: Loop, index: int, call: ToolCall): Loop {
    var n := |s.steps|;
    var outcome := env.tool(n, call);
    var error := if outcome.Raised? then Some(outcome.error) else None;
    var result := if outcome.Gave? then outcome.result else None;
    var structured :=
      if result.Some? && (call.name == "web_search" || call.name == "web_fetch") then env.structure(n) else None;
    var summary := if structured.Some? then env.digest(structured.value) else env.describe(result);
    var shown := if HasText(error) then error else None;
    Loop(s.messages + [ToolReply(call.id, ToolContent(shown, if shown.Some? then "" else summary, structured))],
         s.steps + [TraceStep(index, call.name, summary, error.None?, error, structured, result)],
         s.events + [ToolResult(call.name, error.None?, index, shown)],
         if HasText(error) then s.failures + 1 else 0,
         s.requests)
  }

  function HandleCalls(env: Env, s: Loop, index: int, calls: seq<ToolCall>): Loop
    decreases |calls|
  {
    if calls == [] then s else HandleCalls(env, HandleCall(env, s, index, calls[0]), index, calls[1..])
  }

  /** The step budget is spent: ask once more, for a summary. */
  function Summarize(env: Env, s: Loop, maxSteps: int): Outcome {
    var asked := s.Say(User("You have reached the step limit.")).Ask();
    match env.llm(|s.requests|)
    case Said(content, _) => Outcome(asked.Emit(Finished(maxSteps, true)), BudgetSpent(Some(Trim(content))))
    case Unavailable(_) => Outcome(asked.Emit(Finished(maxSteps, true)), BudgetSpent(None))
    case Broken(error) => Outcome(asked, Escaped(error))
  }

  /** The rounds from `index` on. */
  function Explore(env: Env, s: Loop, index: int, maxSteps: int): Outcome
    decreases maxSteps - index
  {
    if index >= maxSteps then Summarize(env, s, maxSteps)
    else
      var asked := s.Ask();
      match env.llm(|s.requests|)
      case Unavailable(reason) => Outcome(asked.Emit(LlmError(reason)), LlmUnavailable(index))
      case Broken(error) => Outcome(asked, Escaped(error))
      case Said(content, calls) =>
        if calls == [] then Outcome(asked.Emit(Finished(index, false)), Concluded(Trim(content)))
        else
          var handled := HandleCalls(env, asked.Say(Assistant(content, calls)), index, calls);
          if handled.failures >= MAX_CONSECUTIVE_FAILURES then Outcome(handled, TooManyFailures)
          else Explore(env, handled, index + 1, maxSteps)
  }

  function Opening(system: string, task: string): Loop {
    Loop([System(system), User(task)], [], [], 0, [])
  }

  const EXCLUDED_TOOLS := {"dynamic_trace", "memory_sync", "skill_auth"}

  /** The tools the model may see. */
  function ExposedTools(available: seq<string>, allowed: seq<string>): seq<string> {
    if available == [] then []
    else
      var rest := ExposedTools(available[1..], allowed);
      if available[0] in EXCLUDED_TOOLS || (allowed != [] && available[0] !in allowed) then rest
      else [available[0]] + rest
  }

  function Run(env: Env, available: seq<string>, allowed: seq<string>, system: string, task: string, maxSteps: int): Outcome {
    if ExposedTools(available, allowed) == [] then Outcome(Loop([], [], [], 0, []), NoTools)
    else Explore(env, Opening(system, task), 0, maxSteps)
  }

  /** The structured results of the steps, in order: the loop's external knowledge. */
  function ExternalKnowledge(steps: seq<TraceStep>): seq<string> {
    if steps == [] then []
    else (if steps[0].structured.Some? then [steps[0].structured.value] else []) + ExternalKnowledge(steps[1..])
  }

  /** The inner loop: the tool calls of one message, one at a time. */
  method RunToolCalls(env: Env, messages: seq<Message>, steps: seq<TraceStep>, events: seq<TraceEvent>, failures: nat,
                      ghost requests: seq<Request>, index: int, calls: seq<ToolCall>)
    returns (messages': seq<Message>, steps': seq<TraceStep>, events': seq<TraceEvent>, failures': nat)
    ensures Loop(messages', steps', events', failures', requests)
            == HandleCalls(env, Loop(messages, steps, events, failures, requests), index, calls)
  {
    messages', steps', events', failures' := messages, steps, events, failures;
    ghost var start := Loop(messages, steps, events, failures, requests);
    var k := 0;
    assert calls[0..] == calls;
    while k < |calls|
      invariant 0 <= k <= |calls|
      invariant HandleCalls(env, start, index, calls)
                == HandleCalls(env, Loop(messages', steps', events', failures', requests), index, calls[k..])
    {
      assert calls[k..][1..] == calls[k + 1..];
      var n, call := |steps'|, calls[k];
      var result: Option<string>, error: Option<string> := None, None;
      match env.tool(n, call) {
        case Gave(given) => result := given;
        case Raised(why) => error := Some(why);
      }
      var structured: Option<string> := None;
      var summary := env.describe(result);
      if result.Some? && (call.name == "web_search" || call.name == "web_fetch") {
        structured := env.structure(n);
        if structured.Some? { summary := env.digest(structured.value); }
      }
      var shown := if HasText(error) then error else None;
      messages' := messages' + [ToolReply(call.id, ToolContent(shown, if shown.Some? then "" else summary, structured))];
      steps' := steps' + [TraceStep(index, call.name, summary, error.None?, error, structured, result)];
      events' := events' + [ToolResult(call.name, error.None?, index, shown)];
      failures' := if HasText(error) then failures' + 1 else 0;
      k := k + 1;
    }
    assert calls[k..] == [];
  }

  /** The loop as it runs, over its local lists and its counter. */
  method RunExplorationLoop(env: Env, available: seq<string>, allowed: seq<string>, system: string, task: string,
                            maxSteps: int)
    returns (messages: seq<Message>, steps: seq<TraceStep>, events: seq<TraceEvent>, exit: Exit)
    ensures var o := Run(env, available, allowed, system, task, maxSteps);
            messages == o.end.messages && steps == o.end.steps && events == o.end.events && exit == o.exit
  {
    hide Trim, HandleCalls;
    messages, steps, events, exit := [], [], [], NoTools;
    if ExposedTools(available, allowed) == [] {
      return;
    }
    messages := [System(system), User(task)];
    var failures: nat, asked: nat, index := 0, 0, 0;
    ghost var requests: seq<Request> := [];
    while index < maxSteps
      invariant asked == |requests| && 0 <= index
      invariant Run(env, available, allowed, system, task, maxSteps)
                == Explore(env, Loop(messages, steps, events, failures, requests), index, maxSteps)
      decreases maxSteps - index
    {
      var reply := env.llm(asked);
      requests, asked := requests + [Request(messages, failures)], asked + 1;
      match reply {
        case Unavailable(reason) =>
          events := events + [LlmError(reason)];
          return messages, steps, events, LlmUnavailable(index);
        case Broken(error) =>
          return messages, steps, events, Escaped(error);
        case Said(content, calls) =>
          if calls == [] {
            events := events + [Finished(index, false)];
            return messages, steps, events, Concluded(Trim(content));
          }
          messages := messages + [Assistant(content, calls)];
          messages, steps, events, failures := RunToolCalls(env, messages, steps, events, failures, requests, index, calls);
          if failures >= MAX_CONSECUTIVE_FAILURES {
            return messages, steps, events, TooManyFailures;
          }
      }
      index := index + 1;
    }
    messages := messages + [User("You have reached the step limit.")];
    var reply := env.llm(asked);
    match reply {
      case Said(content, _) =>
        return messages, steps, events + [Finished(maxSteps, true)], BudgetSpent(Some(Trim(content)));
      case Unavailable(_) =>
        return messages, steps, events + [Finished(maxSteps, true)], BudgetSpent(None);
      case Broken(error) =>
        return messages, steps, events, Escaped(error);
    }
  }
}
