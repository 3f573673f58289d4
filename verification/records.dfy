/**
 * The records an evaluation run produces: a task with its setup and hidden
 * check, the check's verdict, one record per tool call, and the result of
 * running a task.
 */
module Records {
  import opened Wrappers
  import opened PyModel
  import opened Paths

  /**
   * An evaluation task. `setup` fills a fresh workspace; `verify` inspects it
   * after the agent has finished. Both receive the workspace directory and the
   * files visible at that moment. `tags` defaults to the empty list.
   */
  datatype EvalTask = EvalTask(
    id: string,
    prompt: string,
    setup: (string, Files) -> Files,
    verify: (string, Files) -> VerifyResult,
    tags: seq<string> := [])

  /** A check's verdict: exactly a pass flag and a message. */
  datatype VerifyResult = VerifyResult(passed: bool, message: string)

  /** One dispatched tool call: its name, arguments, the string it returned and its duration. */
  datatype ToolCallRecord = ToolCallRecord(name: string, args: Args, result: string, durationMs: real)

  /** The outcome of one task run; `error` defaults to `None`. */
  datatype TaskResult = TaskResult(
    taskId: string,
    passed: bool,
    verifyMessage: string,
    trajectory: seq<ToolCallRecord>,
    finalResponse: string,
    totalDurationMs: real,
    error: Option<string> := None)
  {
    /** The number of tool calls the run made: one per trajectory record. */
    function NumToolCalls(): (n: nat)
      ensures n == |trajectory|
      ensures n == 0 <==> trajectory == []
    {
      |trajectory|
    }
  }

  /** The names of the calls in a trajectory, in call order. */
  function Names(trajectory: seq<ToolCallRecord>): (names: seq<string>)
    ensures |names| == |trajectory|
    ensures forall k :: 0 <= k < |trajectory| ==> names[k] == trajectory[k].name
  {
    if trajectory == [] then [] else [trajectory[0].name] + Names(trajectory[1..])
  }
}
