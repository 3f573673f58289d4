/**
 * The agent loop (`Agent.run`): the conversation starts with the system
 * prompt and the task; each turn asks the language model once, appends its
 * raw message, and either ends with the reply's text (no tool calls) or
 * dispatches every requested tool call in order, appending one tool message
 * per call. After `max_iterations` turns it gives up with a fixed sentence.
 * The language model and the tools are parameters: a client function over
 * the conversation so far, and a dispatcher over an abstract world state.
 */
module AgentLoop {
  import opened Wrappers
  import opened PyModel
  import Toolbox
  import opened Paths

  const SYSTEM_PROMPT: string :=
    "You are a coding agent. You have tools to read files, write files, and run shell commands.\n\n"
    + "All files you create and shell commands you run operate inside the workspace: agent/created_files/\n"
    + "Use relative paths (e.g. \"solution.py\") and they will be placed there automatically.\n\n"
    + "Work step by step. Use tools to explore and gather information before making changes.\n"
    + "When the task is complete, give a clear summary of what you did without calling any more tools."

  const NO_RESPONSE: string := "(no response)"
  const MAX_ITERATIONS_REACHED: string := "Reached maximum iterations without completing the task."
  const DEFAULT_MAX_ITERATIONS: int := 20

  datatype ToolCall = ToolCall(id: string, name: string, args: Args)

  /** One reply of the model: its text, the tool calls it requests, and the raw message to append. */
  datatype Response = Response(content: Option<string>, toolCalls: seq<ToolCall>, rawMessage: PyValue)

  datatype Message =
    | System(content: string)
    | User(content: string)
    | Assistant(raw: PyValue)
    | Tool(toolCallId: string, content: string)

  datatype ChatOutcome = Answered(response: Response) | ChatRaised(message: string)

  /** `client.chat(messages, tools=...)`. */
  type Client = (seq<Message>, seq<PyValue>) -> ChatOutcome

  /** `dispatch_fn(name, args)` acting on the world the tools see. */
  type Dispatcher<!S> = (S, string, Args) -> (S, CallOutcome)

  /** How a run ends: with the final reply's text, with the give-up sentence, or with an exception. */
  datatype RunOutcome = Finished(text: string) | Exhausted | RunRaised(message: string)
  {
    /** The string `run` returns when it returns at all. */
    function Text(): string
      requires !RunRaised?
    {
      if Finished? then text else MAX_ITERATIONS_REACHED
    }
  }

  /**
   * Where a run stands: the conversation and world, and for the proofs the
   * number of model calls, the replies received and the calls dispatched with
   * the text each returned.
   */
  datatype Trace<S> = Trace(
    messages: seq<Message>, world: S, chats: nat, replies: seq<Response>, dispatched: seq<(ToolCall, string)>)

  datatype Ending<S> = Ending(outcome: RunOutcome, trace: Trace<S>)

  /** `response.content or "(no response)"`. */
  function ContentOr(content: Option<string>): (text: string)
    ensures content.Some? && content.value != [] ==> text == content.value
    ensures content.None? || content.value == [] ==> text == NO_RESPONSE
  {
    if content.Some? && content.value != [] then content.value else NO_RESPONSE
  }

  datatype Agent<!S> = Agent(client: Client, maxIterations: int, verbose: bool, tools: seq<PyValue>, dispatch: Dispatcher<S>)
  {
    /** `range(max_iterations)` has this many turns; none when the bound is negative. */
    function Turns(): nat {
      if maxIterations < 0 then 0 else maxIterations
    }

    /** The run from the start of turn `i`. */
    function Loop(i: nat, t: Trace<S>): Ending<S>
      requires i <= Turns()
      decreases Turns() - i, 1, 0
    {
      if i == Turns() then Ending(Exhausted, t)
      else match client(t.messages, tools)
        case ChatRaised(m) => Ending(RunRaised(m), t.(chats := t.chats + 1))
        case Answered(response) =>
          var t' := Trace(t.messages + [Assistant(response.rawMessage)], t.world, t.chats + 1,
                          t.replies + [response], t.dispatched);
          if response.toolCalls == [] then Ending(Finished(ContentOr(response.content)), t')
          else Calls(i, response.toolCalls, 0, t')
    }

    /** The run from the `j`-th tool call of turn `i`. */
    function Calls(i: nat, calls: seq<ToolCall>, j: nat, t: Trace<S>): Ending<S>
      requires i < Turns() && j <= |calls|
      decreases Turns() - i, 0, |calls| - j
    {
      if j == |calls| then Loop(i + 1, t)
      else
        var (world, result) := dispatch(t.world, calls[j].name, calls[j].args);
        match result
        case CallRaised(m) => Ending(RunRaised(m), t.(world := world))
        case Returned(text) =>
          Calls(i, calls, j + 1, Trace(t.messages + [Tool(calls[j].id, text)], world, t.chats,
                                      t.replies, t.dispatched + [(calls[j], text)]))
    }

    function Start(task: string, s0: S): Trace<S> {
      Trace([System(SYSTEM_PROMPT), User(task)], s0, 0, [], [])
    }

    function RunSpec(task: string, s0: S): Ending<S> {
      Loop(0, Start(task, s0))
    }

    /** `Agent.run(task)`: the bounded loop, with a nested loop over each reply's tool calls. */
    method Run(task: string, s0: S) returns (outcome: RunOutcome, world: S, messages: seq<Message>)
      ensures outcome == RunSpec(task, s0).outcome
      ensures world == RunSpec(task, s0).trace.world
      ensures messages == RunSpec(task, s0).trace.messages
    {
      messages := [System(SYSTEM_PROMPT), User(task)];
      world := s0;
      ghost var t := Start(task, s0);
      for i := 0 to Turns()
        invariant t.messages == messages && t.world == world
        invariant Loop(i, t) == RunSpec(task, s0)
      {
        var reply := client(messages, tools);
        if reply.ChatRaised? {
          t := t.(chats := t.chats + 1);
          return RunRaised(reply.message), world, messages;
        }
        var response := reply.response;
        messages := messages + [Assistant(response.rawMessage)];
        t := Trace(messages, world, t.chats + 1, t.replies + [response], t.dispatched);
        if response.toolCalls == [] {
          return Finished(ContentOr(response.content)), world, messages;
        }
        var calls := response.toolCalls;
        for j := 0 to |calls|
          invariant t.messages == messages && t.world == world
          invariant Calls(i, calls, j, t) == RunSpec(task, s0)
        {
          var tc := calls[j];
          var (w, result) := dispatch(world, tc.name, tc.args);
          world := w;
          if result.CallRaised? {
            t := t.(world := world);
            return RunRaised(result.message), world, messages;
          }
          messages := messages + [Tool(tc.id, result.text)];
          t := Trace(messages, world, t.chats, t.replies, t.dispatched + [(tc, result.text)]);
        }
      }
      outcome := Exhausted;
    }
  }

  /**
   * `Agent(client, max_iterations=20, verbose=True, tools=None, dispatch_fn=None)`:
   * absent tools mean the three built-in schemas (an empty list is kept), and
   * an absent dispatcher means the built-in one.
   */
  function NewAgent<S>(client: Client, builtin: Dispatcher<S>, maxIterations: int := DEFAULT_MAX_ITERATIONS,
                       verbose: bool := true, tools: Option<seq<PyValue>> := None,
                       dispatchFn: Option<Dispatcher<S>> := None): (a: Agent<S>)
    ensures a.client == client && a.maxIterations == maxIterations && a.verbose == verbose
    ensures tools.None? ==> a.tools == Toolbox.TOOL_SCHEMAS
    ensures tools.Some? ==> a.tools == tools.value
    ensures dispatchFn.None? ==> a.dispatch == builtin
    ensures dispatchFn.Some? ==> a.dispatch == dispatchFn.value
  {
    Agent(client, maxIterations, verbose, tools.GetOr(Toolbox.TOOL_SCHEMAS), dispatchFn.GetOr(builtin))
  }

  /** The built-in dispatcher: the package's `dispatch` over one workspace's files. */
  function BuiltinDispatch(tb: Toolbox.Toolbox): Dispatcher<Files> {
    (fs: Files, name: string, args: Args) => tb.Dispatch(fs, name, args)
  }

  // ---- What a run's conversation looks like ----

  /** The raw assistant messages of a conversation, in order. */
  function Raws(ms: seq<Message>): seq<PyValue> {
    if ms == [] then []
    else Raws(ms[..|ms| - 1]) + (if ms[|ms| - 1].Assistant? then [ms[|ms| - 1].raw] else [])
  }

  /** The tool messages of a conversation as (tool call id, content) pairs, in order. */
  function ToolReplies(ms: seq<Message>): seq<(string, string)> {
    if ms == [] then []
    else ToolReplies(ms[..|ms| - 1])
         + (if ms[|ms| - 1].Tool? then [(ms[|ms| - 1].toolCallId, ms[|ms| - 1].content)] else [])
  }

  function RawsOf(rs: seq<Response>): seq<PyValue> {
    seq(|rs|, k requires 0 <= k < |rs| => rs[k].rawMessage)
  }

  /** What each dispatched call should have produced as a tool message. */
  function Answers(ds: seq<(ToolCall, string)>): seq<(string, string)> {
    seq(|ds|, k requires 0 <= k < |ds| => (ds[k].0.id, ds[k].1))
  }

  function CallsOf(ds: seq<(ToolCall, string)>): seq<ToolCall> {
    seq(|ds|, k requires 0 <= k < |ds| => ds[k].0)
  }

  /** All tool calls the replies requested, reply by reply. */
  function Flatten(rs: seq<Response>): seq<ToolCall> {
    if rs == [] then [] else Flatten(rs[..|rs| - 1]) + rs[|rs| - 1].toolCalls
  }

  predicate AllRequestTools(rs: seq<Response>) {
    forall k :: 0 <= k < |rs| ==> rs[k].toolCalls != []
  }

  /**
   * The shape every conversation keeps: system prompt then task, one
   * assistant message per reply in order, one tool message per dispatched call
   * carrying that call's id and result, and nothing else.
   */
  predicate Shaped(task: string, t: Trace) {
    |t.messages| >= 2 && t.messages[..2] == [System(SYSTEM_PROMPT), User(task)]
    && Raws(t.messages) == RawsOf(t.replies)
    && ToolReplies(t.messages) == Answers(t.dispatched)
    && |t.messages| == 2 + |t.replies| + |t.dispatched|
  }

  /** At the start of turn `i`: `i` replies so far, each requested tools, and all of those calls ran. */
  predicate TurnStart(task: string, t: Trace, i: nat) {
    Shaped(task, t) && t.chats == |t.replies| == i
    && AllRequestTools(t.replies) && CallsOf(t.dispatched) == Flatten(t.replies)
  }

  /** Before the `j`-th call of turn `i`: the last reply requested `calls`, of which the first `j` ran. */
  predicate MidTurn(task: string, t: Trace, i: nat, calls: seq<ToolCall>, j: nat) {
    Shaped(task, t) && t.chats == |t.replies| == i + 1
    && AllRequestTools(t.replies) && t.replies[|t.replies| - 1].toolCalls == calls && j <= |calls|
    && CallsOf(t.dispatched) == Flatten(t.replies[..|t.replies| - 1]) + calls[..j]
  }

  /** What holds of every ending, by how the run ended. */
  predicate WellEnded<S>(a: Agent<S>, task: string, e: Ending<S>) {
    var t := e.trace;
    Shaped(task, t) && t.chats <= a.Turns()
    && (e.outcome.Finished? ==>
          t.replies != [] && t.chats == |t.replies|
          && t.replies[|t.replies| - 1].toolCalls == []
          && e.outcome.text == ContentOr(t.replies[|t.replies| - 1].content)
          && AllRequestTools(t.replies[..|t.replies| - 1])
          && CallsOf(t.dispatched) == Flatten(t.replies))
    && (e.outcome.Exhausted? ==>
          t.chats == |t.replies| == a.Turns()
          && AllRequestTools(t.replies) && CallsOf(t.dispatched) == Flatten(t.replies))
  }

  /** The model always asks for at least one tool. */
  ghost predicate AlwaysWantsTools(client: Client) {
    forall ms, ts :: client(ms, ts).Answered? && client(ms, ts).response.toolCalls != []
  }

  /** No tool call ever raises. */
  ghost predicate NeverRaises<S(!new)>(dispatch: Dispatcher<S>) {
    forall s, n, args :: dispatch(s, n, args).1.Returned?
  }

  lemma {:induction false} AppendAssistant(ms: seq<Message>, raw: PyValue)
    ensures Raws(ms + [Assistant(raw)]) == Raws(ms) + [raw]
    ensures ToolReplies(ms + [Assistant(raw)]) == ToolReplies(ms)
  {
    assert (ms + [Assistant(raw)])[..|ms|] == ms;
  }

  lemma {:induction false} AppendTool(ms: seq<Message>, id: string, text: string)
    ensures Raws(ms + [Tool(id, text)]) == Raws(ms)
    ensures ToolReplies(ms + [Tool(id, text)]) == ToolReplies(ms) + [(id, text)]
  {
    assert (ms + [Tool(id, text)])[..|ms|] == ms;
  }

  lemma {:induction false} FlattenAppend(rs: seq<Response>, r: Response)
    ensures Flatten(rs + [r]) == Flatten(rs) + r.toolCalls
  {
    assert (rs + [r])[..|rs|] == rs;
  }

  lemma {:induction false} PrefixOfLonger(ms: seq<Message>, m: Message)
    requires |ms| >= 2
    ensures (ms + [m])[..2] == ms[..2]
  {
  }

  lemma {:induction false} StartShaped<S>(a: Agent<S>, task: string, s0: S)
    ensures TurnStart(task, a.Start(task, s0), 0)
  {
    var ms := [System(SYSTEM_PROMPT), User(task)];
    var one := [System(SYSTEM_PROMPT)];
    assert one[..0] == [];
    assert Raws(one) == [] && ToolReplies(one) == [];
    assert ms[..1] == one;
  }

  /** Every run from a turn start ends well. */
  lemma {:induction false} LoopEndsWell<S(!new)>(a: Agent<S>, task: string, i: nat, t: Trace<S>)
    requires i <= a.Turns() && TurnStart(task, t, i)
    ensures WellEnded(a, task, a.Loop(i, t))
    ensures AlwaysWantsTools(a.client) && NeverRaises(a.dispatch) ==> a.Loop(i, t).outcome.Exhausted?
    decreases a.Turns() - i, 1, 0
  {
    if i < a.Turns() {
      match a.client(t.messages, a.tools)
      case ChatRaised(m) =>
      case Answered(response) =>
        var t' := Trace(t.messages + [Assistant(response.rawMessage)], t.world, t.chats + 1,
                        t.replies + [response], t.dispatched);
        AppendAssistant(t.messages, response.rawMessage);
        PrefixOfLonger(t.messages, Assistant(response.rawMessage));
        assert RawsOf(t'.replies) == RawsOf(t.replies) + [response.rawMessage];
        assert t'.replies[..|t'.replies| - 1] == t.replies;
        FlattenAppend(t.replies, response);
        if response.toolCalls == [] {
          assert Flatten(t'.replies) == Flatten(t.replies);
        } else {
          assert response.toolCalls[..0] == [];
          CallsEndWell(a, task, i, response.toolCalls, 0, t');
        }
    }
  }

  /** Every run from the middle of a turn ends well. */
  lemma {:induction false} CallsEndWell<S(!new)>(a: Agent<S>, task: string, i: nat, calls: seq<ToolCall>, j: nat, t: Trace<S>)
    requires i < a.Turns() && j <= |calls| && MidTurn(task, t, i, calls, j)
    ensures WellEnded(a, task, a.Calls(i, calls, j, t))
    ensures AlwaysWantsTools(a.client) && NeverRaises(a.dispatch) ==> a.Calls(i, calls, j, t).outcome.Exhausted?
    decreases a.Turns() - i, 0, |calls| - j
  {
    if j == |calls| {
      TurnDone(task, t, i, calls);
      LoopEndsWell(a, task, i + 1, t);
    } else {
      var (world, result) := a.dispatch(t.world, calls[j].name, calls[j].args);
      match result
      case CallRaised(m) =>
      case Returned(text) =>
        var t' := Trace(t.messages + [Tool(calls[j].id, text)], world, t.chats,
                        t.replies, t.dispatched + [(calls[j], text)]);
        CallDone(task, t, i, calls, j, text, world);
        CallsEndWell(a, task, i, calls, j + 1, t');
    }
  }

  /** Once every call of turn `i` ran, turn `i + 1` starts. */
  lemma {:induction false} TurnDone<S>(task: string, t: Trace<S>, i: nat, calls: seq<ToolCall>)
    requires MidTurn(task, t, i, calls, |calls|)
    ensures TurnStart(task, t, i + 1)
  {
    assert calls[..|calls|] == calls;
    assert t.replies == t.replies[..|t.replies| - 1] + [t.replies[|t.replies| - 1]];
    FlattenAppend(t.replies[..|t.replies| - 1], t.replies[|t.replies| - 1]);
  }

  /** A call that returned `text` adds its tool message and moves on to the next call. */
  lemma {:induction false} CallDone<S>(task: string, t: Trace<S>, i: nat, calls: seq<ToolCall>, j: nat, text: string, world: S)
    requires j < |calls| && MidTurn(task, t, i, calls, j)
    ensures MidTurn(task, Trace(t.messages + [Tool(calls[j].id, text)], world, t.chats,
                                t.replies, t.dispatched + [(calls[j], text)]), i, calls, j + 1)
  {
    var t' := Trace(t.messages + [Tool(calls[j].id, text)], world, t.chats,
                    t.replies, t.dispatched + [(calls[j], text)]);
    AppendTool(t.messages, calls[j].id, text);
    PrefixOfLonger(t.messages, Tool(calls[j].id, text));
    assert Answers(t'.dispatched) == Answers(t.dispatched) + [(calls[j].id, text)];
    assert CallsOf(t'.dispatched) == CallsOf(t.dispatched) + [calls[j]];
    assert calls[..j + 1] == calls[..j] + [calls[j]];
  }

  /**
   * Every run's conversation starts with the system prompt and the task, holds
   * one assistant message per reply and one tool message per completed call
   * (with that call's id), and the model was asked at most `max_iterations` times.
   */
  lemma {:induction false} RunWellShaped<S(!new)>(a: Agent<S>, task: string, s0: S)
    ensures var e := a.RunSpec(task, s0);
      |e.trace.messages| >= 2 && e.trace.messages[..2] == [System(SYSTEM_PROMPT), User(task)]
      && Raws(e.trace.messages) == RawsOf(e.trace.replies)
      && ToolReplies(e.trace.messages) == Answers(e.trace.dispatched)
      && |e.trace.messages| == 2 + |e.trace.replies| + |e.trace.dispatched|
      && e.trace.chats <= a.Turns()
  {
    StartShaped(a, task, s0);
    LoopEndsWell(a, task, 0, a.Start(task, s0));
  }

  /**
   * A run that returns a reply's text returns it for the first reply without
   * tool calls (or "(no response)" when that reply has no text), after every
   * tool call requested before it was dispatched, in order.
   */
  lemma {:induction false} FinishedOnFirstPlainReply<S(!new)>(a: Agent<S>, task: string, s0: S)
    requires a.RunSpec(task, s0).outcome.Finished?
    ensures var t := a.RunSpec(task, s0).trace;
      t.replies != [] && t.replies[|t.replies| - 1].toolCalls == []
      && a.RunSpec(task, s0).outcome.text == ContentOr(t.replies[|t.replies| - 1].content)
      && AllRequestTools(t.replies[..|t.replies| - 1])
      && CallsOf(t.dispatched) == Flatten(t.replies)
  {
    StartShaped(a, task, s0);
    LoopEndsWell(a, task, 0, a.Start(task, s0));
  }

  /** Giving up happens only after exactly `max_iterations` replies, each of which requested tools. */
  lemma {:induction false} ExhaustedAfterAllTurns<S(!new)>(a: Agent<S>, task: string, s0: S)
    requires a.RunSpec(task, s0).outcome.Exhausted?
    ensures var t := a.RunSpec(task, s0).trace;
      t.chats == |t.replies| == a.Turns()
      && AllRequestTools(t.replies) && CallsOf(t.dispatched) == Flatten(t.replies)
      && a.RunSpec(task, s0).outcome.Text() == MAX_ITERATIONS_REACHED
  {
    StartShaped(a, task, s0);
    LoopEndsWell(a, task, 0, a.Start(task, s0));
  }

  /** A model that always asks for tools, with tools that never raise, runs out of iterations. */
  lemma {:induction false} AlwaysToolsExhausts<S(!new)>(a: Agent<S>, task: string, s0: S)
    requires AlwaysWantsTools(a.client) && NeverRaises(a.dispatch)
    ensures a.RunSpec(task, s0).outcome == Exhausted
  {
    StartShaped(a, task, s0);
    LoopEndsWell(a, task, 0, a.Start(task, s0));
  }

  /** With no turns allowed the model is never asked and the run gives up at once. */
  lemma {:induction false} NoTurnsGivesUp<S>(a: Agent<S>, task: string, s0: S)
    requires a.maxIterations <= 0
    ensures a.RunSpec(task, s0).outcome == Exhausted && a.RunSpec(task, s0).trace.chats == 0
    ensures a.RunSpec(task, s0).trace.messages == [System(SYSTEM_PROMPT), User(task)]
  {
  }
}
