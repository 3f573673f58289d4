/**
 * The evaluation harness: per task, a fresh workspace is set up, the agent
 * runs with the base toolbox (and optionally extra tools that take
 * precedence), every dispatched call is journalled, the task's hidden check
 * runs whatever the agent did, and a `TaskResult` is produced.
 */
module Harness {
  import opened Wrappers
  import opened Strings
  import opened PyModel
  import opened Paths
  import opened Records
  import Toolbox
  import opened AgentLoop

  /**
   * A library tool's function, called with the call's keyword arguments. It
   * may read and change the workspace; what it changed before raising stays.
   */
  type Handler = (Files, Args) -> (Files, CallOutcome)

  /** `extra_tools = (schemas, handlers)`. */
  datatype ExtraTools = ExtraTools(schemas: seq<PyValue>, handlers: map<string, Handler>)

  /** What the recording dispatcher works on: the file system and the journal of calls so far. */
  datatype Session = Session(files: Files, trajectory: seq<ToolCallRecord>)

  /** `str(handler(**args))`, or `"Error: <e>"` when the handler raises. */
  function HandlerText(o: CallOutcome): (text: string)
    ensures o.Returned? ==> text == o.text
    ensures o.CallRaised? ==> StartsWith(text, "Error: ")
  {
    match o
    case Returned(t) => t
    case CallRaised(m) => StartsWithConcat("Error: ", m); "Error: " + m
  }

  /** `merged_dispatch`: an extra handler wins over a base tool of the same name. */
  function Merged(handlers: map<string, Handler>, base: Dispatcher<Files>): Dispatcher<Files> {
    (fs: Files, name: string, args: Args) =>
      if name in handlers then
        var (fs', o) := handlers[name](fs, args);
        (fs', Returned(HandlerText(o)))
      else base(fs, name, args)
  }

  /**
   * `recording_dispatch`: one record per call that returns, carrying the
   * string it returns. Durations are not modelled and recorded as 0.
   */
  function Recording(d: Dispatcher<Files>): Dispatcher<Session> {
    (st: Session, name: string, args: Args) =>
      var (fs, r) := d(st.files, name, args);
      (Session(fs, st.trajectory + (if r.Returned? then [ToolCallRecord(name, args, r.text, 0.0)] else [])), r)
  }

  /** The journal a run should leave: one record per completed call, in call order. */
  function Journal(ds: seq<(ToolCall, string)>): seq<ToolCallRecord> {
    seq(|ds|, k requires 0 <= k < |ds| => ToolCallRecord(ds[k].0.name, ds[k].0.args, ds[k].1, 0.0))
  }

  /** `(final_response, error)` once `agent.run` has returned or raised. */
  function AgentReply(o: RunOutcome): (r: (string, Option<string>))
    ensures o.RunRaised? ==> r == ("", Some(o.message))
    ensures !o.RunRaised? ==> r == (o.Text(), None)
  {
    if o.RunRaised? then ("", Some(o.message)) else (o.Text(), None)
  }

  datatype Harness = Harness(
    client: Client,
    verbose: bool,
    modelName: string,
    extraTools: Option<ExtraTools>,
    systemPrompt: Option<string>,
    shell: Toolbox.ShellRunner,
    writeError: (string, Files) -> Option<string>,
    workspaceOf: string -> string)
  {
    /** The schemas offered and the dispatcher used in one workspace. */
    function Tools(workspace: string): (seq<PyValue>, Dispatcher<Files>) {
      var base := BuiltinDispatch(Toolbox.Toolbox(workspace, shell, writeError));
      match extraTools
      case None => (Toolbox.TOOL_SCHEMAS, base)
      case Some(x) => (Toolbox.TOOL_SCHEMAS + x.schemas, Merged(x.handlers, base))
    }

    /** The agent of one task: default iteration bound, the offered schemas, the recording dispatcher. */
    function TaskAgent(workspace: string): (a: Agent<Session>)
      ensures a.maxIterations == DEFAULT_MAX_ITERATIONS && a.tools == Tools(workspace).0
      ensures a.dispatch == Recording(Tools(workspace).1)
    {
      NewAgent(client, Recording(Tools(workspace).1), DEFAULT_MAX_ITERATIONS, verbose,
               Some(Tools(workspace).0), Some(Recording(Tools(workspace).1)))
    }

    /** The run of the agent on a set-up workspace. */
    function AgentRun(task: EvalTask, fs: Files): Ending<Session> {
      var ws := workspaceOf(task.id);
      TaskAgent(ws).RunSpec(task.prompt, Session(task.setup(ws, fs), []))
    }

    /** What `run_task` reports for one task. */
    function TaskRun(task: EvalTask, fs: Files): TaskResult {
      var e := AgentRun(task, fs);
      var reply := AgentReply(e.outcome);
      var v := task.verify(workspaceOf(task.id), e.trace.world.files);
      TaskResult(task.id, v.passed, v.message, e.trace.world.trajectory, reply.0, 0.0, reply.1)
    }

    /** `run_task`: set up, run the agent (catching its exception), verify, report. */
    method RunTask(task: EvalTask, fs: Files) returns (result: TaskResult)
      ensures result == TaskRun(task, fs)
      ensures result.taskId == task.id
      ensures result.error.Some? <==> AgentRun(task, fs).outcome.RunRaised?
    {
      var workspace := workspaceOf(task.id);
      var files := task.setup(workspace, fs);
      var agent := TaskAgent(workspace);
      var outcome, session, _ := agent.Run(task.prompt, Session(files, []));
      var finalResponse, error := "", None;
      if outcome.RunRaised? {
        error := Some(outcome.message);
      } else {
        finalResponse := outcome.Text();
      }
      var verdict := task.verify(workspace, session.files);
      result := TaskResult(task.id, verdict.passed, verdict.message, session.trajectory, finalResponse, 0.0, error);
    }

    /** `run_all`: one result per task, in the order given; each task starts from `fs`. */
    method RunAll(tasks: seq<EvalTask>, fs: Files) returns (results: seq<TaskResult>)
      ensures |results| == |tasks|
      ensures forall k :: 0 <= k < |tasks| ==> results[k] == TaskRun(tasks[k], fs)
      ensures forall k :: 0 <= k < |tasks| ==> results[k].taskId == tasks[k].id
    {
      results := [];
      for i := 0 to |tasks|
        invariant |results| == i
        invariant forall k :: 0 <= k < i ==> results[k] == TaskRun(tasks[k], fs)
      {
        var r := RunTask(tasks[i], fs);
        results := results + [r];
      }
    }
  }

  /**
   * Extra handlers take precedence and never raise: the files are what the
   * handler left, raising or not; other names go to the base toolbox.
   */
  lemma {:induction false} MergedPrecedence(handlers: map<string, Handler>, base: Dispatcher<Files>, fs: Files, name: string, args: Args)
    ensures name in handlers ==>
      Merged(handlers, base)(fs, name, args)
        == (handlers[name](fs, args).0, Returned(HandlerText(handlers[name](fs, args).1)))
    ensures name in handlers && handlers[name](fs, args).1.CallRaised? ==>
      StartsWith(Merged(handlers, base)(fs, name, args).1.text, "Error: ")
    ensures name !in handlers ==> Merged(handlers, base)(fs, name, args) == base(fs, name, args)
  {
  }

  /** The recording dispatcher returns what the inner one returns and journals exactly that call. */
  lemma {:induction false} RecordingJournalsCall(d: Dispatcher<Files>, st: Session, name: string, args: Args)
    ensures Recording(d)(st, name, args).1 == d(st.files, name, args).1
    ensures Recording(d)(st, name, args).0.files == d(st.files, name, args).0
    ensures d(st.files, name, args).1.Returned? ==>
      Recording(d)(st, name, args).0.trajectory
        == st.trajectory + [ToolCallRecord(name, args, d(st.files, name, args).1.text, 0.0)]
    ensures d(st.files, name, args).1.CallRaised? ==> Recording(d)(st, name, args).0.trajectory == st.trajectory
  {
  }

  lemma {:induction false} LoopJournal(a: Agent<Session>, d: Dispatcher<Files>, i: nat, t: Trace<Session>, before: seq<ToolCallRecord>)
    requires a.dispatch == Recording(d) && i <= a.Turns()
    requires t.world.trajectory == before + Journal(t.dispatched)
    ensures a.Loop(i, t).trace.world.trajectory == before + Journal(a.Loop(i, t).trace.dispatched)
    decreases a.Turns() - i, 1, 0
  {
    if i < a.Turns() {
      match a.client(t.messages, a.tools)
      case ChatRaised(m) =>
      case Answered(response) =>
        if response.toolCalls != [] {
          CallsJournal(a, d, i, response.toolCalls, 0,
            Trace(t.messages + [Assistant(response.rawMessage)], t.world, t.chats + 1, t.replies + [response], t.dispatched),
            before);
        }
    }
  }

  lemma {:induction false} CallsJournal(a: Agent<Session>, d: Dispatcher<Files>, i: nat, calls: seq<ToolCall>, j: nat,
                                        t: Trace<Session>, before: seq<ToolCallRecord>)
    requires a.dispatch == Recording(d) && i < a.Turns() && j <= |calls|
    requires t.world.trajectory == before + Journal(t.dispatched)
    ensures a.Calls(i, calls, j, t).trace.world.trajectory == before + Journal(a.Calls(i, calls, j, t).trace.dispatched)
    decreases a.Turns() - i, 0, |calls| - j
  {
    if j == |calls| {
      LoopJournal(a, d, i + 1, t, before);
    } else {
      RecordingJournalsCall(d, t.world, calls[j].name, calls[j].args);
      var (world, result) := a.dispatch(t.world, calls[j].name, calls[j].args);
      match result
      case CallRaised(m) =>
      case Returned(text) =>
        var ds := t.dispatched + [(calls[j], text)];
        assert Journal(ds) == Journal(t.dispatched) + [ToolCallRecord(calls[j].name, calls[j].args, text, 0.0)];
        CallsJournal(a, d, i, calls, j + 1,
          Trace(t.messages + [Tool(calls[j].id, text)], world, t.chats, t.replies, ds), before);
    }
  }

  /**
   * A task's result carries the verdict of its check on the files the agent
   * left, records the agent's exception (with an empty final response) or its
   * answer, and journals exactly the completed tool calls, in order, each
   * with the string returned to the model.
   */
  lemma {:induction false} TaskRunReports(h: Harness, task: EvalTask, fs: Files)
    ensures var e := h.AgentRun(task, fs);
      var r := h.TaskRun(task, fs);
      r.passed == task.verify(h.workspaceOf(task.id), e.trace.world.files).passed
      && r.verifyMessage == task.verify(h.workspaceOf(task.id), e.trace.world.files).message
      && (e.outcome.RunRaised? ==> r.finalResponse == "" && r.error == Some(e.outcome.message))
      && (!e.outcome.RunRaised? ==> r.finalResponse == e.outcome.Text() && r.error == None)
      && r.trajectory == Journal(e.trace.dispatched)
      && r.NumToolCalls() == |ToolReplies(e.trace.messages)|
  {
    var ws := h.workspaceOf(task.id);
    var a := h.TaskAgent(ws);
    var t0 := a.Start(task.prompt, Session(task.setup(ws, fs), []));
    assert t0.world.trajectory == [] + Journal(t0.dispatched);
    LoopJournal(a, h.Tools(ws).1, 0, t0, []);
    assert [] + Journal(h.AgentRun(task, fs).trace.dispatched) == Journal(h.AgentRun(task, fs).trace.dispatched);
    RunWellShaped(a, task.prompt, Session(task.setup(ws, fs), []));
  }

  // ---- The harness as written ----

  /** The keyword parameters `Agent.__init__` accepts. */
  const AGENT_PARAMETERS: seq<string> := ["client", "max_iterations", "verbose", "tools", "dispatch_fn"]

  /** The keywords `run_task` passes when it builds the agent. */
  const HARNESS_KEYWORDS: seq<string> := ["client", "tools", "dispatch_fn", "verbose", "system_prompt"]

  /** The `TypeError` text for a keyword a function does not accept. */
  function UnexpectedKeyword(k: string): string {
    "Agent.__init__() got an unexpected keyword argument '" + k + "'"
  }

  /** Calling `Agent(**kwargs)`: the `TypeError` for the first keyword it does not accept, if any. */
  function Construct(keywords: seq<string>): (err: Option<string>)
    ensures err.None? <==> forall k :: 0 <= k < |keywords| ==> keywords[k] in AGENT_PARAMETERS
  {
    if keywords == [] then None
    else if keywords[0] !in AGENT_PARAMETERS then
      Some(UnexpectedKeyword(keywords[0]))
    else
      var rest := Construct(keywords[1..]);
      assert forall k :: 1 <= k < |keywords| ==> keywords[k] == keywords[1..][k - 1];
      rest
  }

  /**
   * As written, building the agent in `run_task` raises a `TypeError`, which
   * nothing catches: no task ever reaches the agent. Without the
   * `system_prompt` keyword the call is accepted.
   */
  lemma {:induction false} HarnessCallRejected()
    ensures Construct(HARNESS_KEYWORDS) == Some(UnexpectedKeyword("system_prompt"))
    ensures Construct(HARNESS_KEYWORDS[..4]) == None
  {
    var last := ["system_prompt"];
    assert "system_prompt" !in AGENT_PARAMETERS;
    assert Construct(last) == Some(UnexpectedKeyword("system_prompt"));
    assert ["verbose"] + last == ["verbose", "system_prompt"];
    assert Construct(["verbose", "system_prompt"]) == Construct(last) by {
      assert ["verbose", "system_prompt"][1..] == last;
    }
    assert Construct(["dispatch_fn", "verbose", "system_prompt"]) == Construct(["verbose", "system_prompt"]) by {
      assert ["dispatch_fn", "verbose", "system_prompt"][1..] == ["verbose", "system_prompt"];
    }
    assert Construct(["tools", "dispatch_fn", "verbose", "system_prompt"])
        == Construct(["dispatch_fn", "verbose", "system_prompt"]) by {
      assert ["tools", "dispatch_fn", "verbose", "system_prompt"][1..] == ["dispatch_fn", "verbose", "system_prompt"];
    }
    assert HARNESS_KEYWORDS[1..] == ["tools", "dispatch_fn", "verbose", "system_prompt"];
    assert HARNESS_KEYWORDS[..4] == ["client", "tools", "dispatch_fn", "verbose"];
  }

  const STR_HAS_NO_CONTENT: string := "'str' object has no attribute 'content'"

  /**
   * As written, `run_task` reads `.content` (and token counts) off what
   * `agent.run` returns; `agent.run` returns a plain string, so the read
   * raises inside the `try` and is caught as an agent error.
   */
  function AgentReplyAsWritten(o: RunOutcome): (r: (string, Option<string>))
    ensures r.0 == ""
    ensures o.RunRaised? ==> r.1 == Some(o.message)
  {
    if o.RunRaised? then ("", Some(o.message)) else ("", Some(STR_HAS_NO_CONTENT))
  }

  /** A run that completes is reported as written as a failure with no response, unlike the intended reply. */
  lemma {:induction false} CompletedRunRecordedAsError(o: RunOutcome)
    requires !o.RunRaised?
    ensures AgentReplyAsWritten(o) == ("", Some(STR_HAS_NO_CONTENT))
    ensures AgentReply(o) == (o.Text(), None) && AgentReply(o) != AgentReplyAsWritten(o)
  {
  }
}
