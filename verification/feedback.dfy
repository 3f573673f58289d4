/**
 * Prompt material shared by the tool-generation pipeline and the
 * self-improving evaluation: the usage-examples section of the augmented
 * system prompt, the failure signals the agent itself could observe in its
 * shell output, and the feedback given to the tool generator, which hides the
 * hidden verifier's message unless it is explicitly allowed.
 */
module Feedback {
  import opened Wrappers
  import opened Strings
  import opened PyModel
  import opened Records

  const EXAMPLES_HEADING: string := "\n## Specialized Tool Usage Examples\n"

  /** Three lines per tool: its heading, its stripped example, a blank line. */
  function ExampleLines(examples: seq<(string, string)>): (lines: seq<string>)
    ensures |lines| == 3 * |examples|
  {
    if examples == [] then []
    else
      var last := examples[|examples| - 1];
      ExampleLines(examples[..|examples| - 1]) + ExampleEntryLines(last.0, last.1)
  }

  function ExamplesSectionText(examples: seq<(string, string)>): string {
    if examples == [] then [] else Join("\n", [EXAMPLES_HEADING] + ExampleLines(examples))
  }

  /** `_build_tool_examples_section`: empty without examples, else the heading and one entry per tool in order. */
  method BuildToolExamplesSection(examples: seq<(string, string)>) returns (text: string)
    ensures text == ExamplesSectionText(examples)
  {
    if examples == [] {
      return [];
    }
    var lines := [EXAMPLES_HEADING];
    for i := 0 to |examples|
      invariant lines == [EXAMPLES_HEADING] + ExampleLines(examples[..i])
    {
      var entry := ExampleEntryLines(examples[i].0, examples[i].1);
      ExampleLinesStep(examples, i);
      ConcatAssoc([EXAMPLES_HEADING], ExampleLines(examples[..i]), entry);
      lines := lines + entry;
    }
    assert examples[..|examples|] == examples;
    text := Join("\n", lines);
  }

  /** One tool's heading, its stripped example and a blank line. */
  function ExampleEntryLines(name: string, example: string): seq<string> {
    ["### " + name, Strip(example), ""]
  }

  lemma {:induction false} ExampleLinesStep(examples: seq<(string, string)>, i: nat)
    requires i < |examples|
    ensures ExampleLines(examples[..i + 1]) == ExampleLines(examples[..i]) + ExampleEntryLines(examples[i].0, examples[i].1)
  {
    assert examples[..i + 1][..i] == examples[..i];
  }

  /** The section is empty exactly when there are no examples; otherwise it opens with its heading. */
  lemma {:induction false} ExamplesSectionShape(examples: seq<(string, string)>)
    ensures examples == [] <==> ExamplesSectionText(examples) == []
    ensures examples != [] ==> StartsWith(ExamplesSectionText(examples), EXAMPLES_HEADING)
  {
    if examples != [] {
      var text := ExamplesSectionText(examples);
      assert StartsWith(text, EXAMPLES_HEADING);
      assert |text| >= |EXAMPLES_HEADING| > 0;
    }
  }

  /** The `k`-th tool's entry is its heading followed by its stripped example. */
  lemma {:induction false} ExampleEntry(examples: seq<(string, string)>, k: nat)
    requires k < |examples|
    ensures ExampleLines(examples)[3 * k] == "### " + examples[k].0
    ensures ExampleLines(examples)[3 * k + 1] == Strip(examples[k].1)
    ensures ExampleLines(examples)[3 * k + 2] == ""
  {
    var p := examples[..|examples| - 1];
    var lines := ExampleLines(examples);
    assert lines == ExampleLines(p) + ExampleEntryLines(examples[|examples| - 1].0, examples[|examples| - 1].1);
    if k < |examples| - 1 {
      ExampleEntry(p, k);
      assert p[k] == examples[k];
      assert lines[3 * k] == ExampleLines(p)[3 * k];
      assert lines[3 * k + 1] == ExampleLines(p)[3 * k + 1];
      assert lines[3 * k + 2] == ExampleLines(p)[3 * k + 2];
    }
  }

  /** The augmented system prompt of `tool_gen/pipeline.py`, before its examples section. */
  const PIPELINE_PROMPT_HEAD: string :=
    "You are a coding agent. You have tools to read files, write files, and run shell commands.\n"
    + "You also have specialized code-generation tools. Check your full tool list \U{2014} if a specialized "
    + "tool matches the task, USE IT instead of writing code from scratch. The specialized tools "
    + "generate correct, well-tested code.\n\n"
    + PROMPT_BODY

  /** The same prompt as `evals/run.py` spells it: its dash is stored mis-encoded. */
  const RUN_PROMPT_HEAD: string :=
    "You are a coding agent. You have tools to read files, write files, and run shell commands.\n"
    + "You also have specialized code-generation tools. Check your full tool list \U{00E2}\U{20AC}\U{201D} if a specialized "
    + "tool matches the task, USE IT instead of writing code from scratch. The specialized tools "
    + "generate correct, well-tested code.\n\n"
    + PROMPT_BODY

  const PROMPT_BODY: string :=
    "All files you create and shell commands you run operate inside the workspace: agent/created_files/\n"
    + "Use relative paths (e.g. \"solution.py\") and they will be placed there automatically.\n\n"
    + "Work step by step:\n"
    + "1. Read any existing files to understand the codebase\n"
    + "2. Check if any of your specialized tools can generate the code you need\n"
    + "3. If so, call the tool, then write the result to a file\n"
    + "4. If not, write the code yourself\n"
    + "When the task is complete, give a clear summary of what you did without calling any more tools.\n"

  /** `AUGMENTED_SYSTEM_PROMPT.format(tool_examples=...)`: the examples section is the prompt's tail. */
  function AugmentedSystemPrompt(head: string, examples: seq<(string, string)>): (prompt: string)
    ensures StartsWith(prompt, head)
    ensures examples == [] ==> prompt == head
  {
    StartsWithConcat(head, ExamplesSectionText(examples));
    head + ExamplesSectionText(examples)
  }

  const SHELL_TOOL: string := "run_shell"
  const OUTPUT_LIMIT: nat := 800
  const KEPT_SIGNALS: nat := 4
  const DEFAULT_MAX_CHARS: nat := 3000
  const NO_SIGNALS: string := "No " + "explicit self-test failure logs were observed in run_shell outputs."

  /** The output shows a failure: one of the five marker texts occurs in it. */
  predicate ShowsFailure(output: string) {
    Contains(output, "Traceback") || Contains(output, "AssertionError") || Contains(output, "FAILED")
    || Contains(output, "Error:") || Contains(output, "Exit code:")
  }

  /** A record that counts as a signal: a shell call whose output shows a failure. */
  predicate IsSignal(tc: ToolCallRecord) {
    tc.name == SHELL_TOOL && ShowsFailure(tc.result)
  }

  /** The command (empty when absent) and the first 800 characters of its output. */
  function SignalLine(tc: ToolCallRecord): string {
    "$ " + (if "command" in tc.args then tc.args["command"] else "") + "\n" + Take(tc.result, OUTPUT_LIMIT)
  }

  function SignalLines(trajectory: seq<ToolCallRecord>): seq<string> {
    if trajectory == [] then []
    else
      var tc := trajectory[|trajectory| - 1];
      SignalLines(trajectory[..|trajectory| - 1]) + (if IsSignal(tc) then [SignalLine(tc)] else [])
  }

  function SignalsText(trajectory: seq<ToolCallRecord>, maxChars: nat): string {
    var lines := SignalLines(trajectory);
    if lines == [] then NO_SIGNALS else Take(Join("\n\n", TakeLast(lines, KEPT_SIGNALS)), maxChars)
  }

  /** `_extract_agent_observable_signals`: collects the failing shell outputs, keeps the last four, caps the total. */
  method ExtractSignals(trajectory: seq<ToolCallRecord>, maxChars: nat := DEFAULT_MAX_CHARS) returns (text: string)
    ensures text == SignalsText(trajectory, maxChars)
  {
    var lines: seq<string> := [];
    for i := 0 to |trajectory|
      invariant lines == SignalLines(trajectory[..i])
    {
      var tc := trajectory[i];
      assert trajectory[..i + 1][..i] == trajectory[..i];
      if tc.name != SHELL_TOOL {
        continue;
      }
      var output := tc.result;
      if ShowsFailure(output) {
        var cmd := if "command" in tc.args then tc.args["command"] else "";
        lines := lines + ["$ " + cmd + "\n" + Take(output, OUTPUT_LIMIT)];
      }
    }
    assert trajectory[..|trajectory|] == trajectory;
    if lines == [] {
      return NO_SIGNALS;
    }
    var content := Join("\n\n", TakeLast(lines, KEPT_SIGNALS));
    text := Take(content, maxChars);
  }

  lemma {:induction false} SignalLinesConcat(a: seq<ToolCallRecord>, b: seq<ToolCallRecord>)
    ensures SignalLines(a + b) == SignalLines(a) + SignalLines(b)
  {
    if b == [] {
      assert a + b == a;
    } else {
      var b' := b[..|b| - 1];
      assert (a + b)[..|a + b| - 1] == a + b';
      SignalLinesConcat(a, b');
    }
  }

  /** Calls of any tool but `run_shell` never change the signals. */
  lemma {:induction false} OnlyShellCallsMatter(a: seq<ToolCallRecord>, tc: ToolCallRecord, b: seq<ToolCallRecord>, maxChars: nat)
    requires tc.name != SHELL_TOOL
    ensures SignalsText(a + [tc] + b, maxChars) == SignalsText(a + b, maxChars)
  {
    SignalLinesConcat(a + [tc], b);
    SignalLinesConcat(a, [tc]);
    SignalLinesConcat(a, b);
    assert SignalLines([tc]) == [] by {
      assert [tc][..0] == [];
    }
    assert SignalLines(a) + [] == SignalLines(a);
    assert SignalLines(a + [tc] + b) == SignalLines(a + b);
  }

  /** There are signals exactly when some record is a failing shell call. */
  lemma {:induction false} NoSignalsIff(trajectory: seq<ToolCallRecord>)
    ensures SignalLines(trajectory) == [] <==> forall k :: 0 <= k < |trajectory| ==> !IsSignal(trajectory[k])
  {
    if trajectory != [] {
      var p := trajectory[..|trajectory| - 1];
      NoSignalsIff(p);
      assert forall k :: 0 <= k < |p| ==> p[k] == trajectory[k];
    }
  }

  /** A non-empty signals text keeps within `maxChars` characters, and the placeholder stands exactly when no call failed. */
  lemma {:induction false} SignalsBounded(trajectory: seq<ToolCallRecord>, maxChars: nat)
    ensures SignalLines(trajectory) != [] ==> |SignalsText(trajectory, maxChars)| <= maxChars
    ensures SignalLines(trajectory) == [] <==> SignalsText(trajectory, maxChars) == NO_SIGNALS
  {
    var lines := SignalLines(trajectory);
    if lines != [] {
      SignalLinesShape(trajectory);
      KeptSignalsNotPlaceholder(lines, maxChars);
    }
  }

  lemma {:induction false} KeptSignalsNotPlaceholder(lines: seq<string>, maxChars: nat)
    requires lines != [] && forall k :: 0 <= k < |lines| ==> StartsWith(lines[k], "$ ")
    ensures Take(Join("\n\n", TakeLast(lines, KEPT_SIGNALS)), maxChars) != NO_SIGNALS
  {
    var kept := TakeLast(lines, KEPT_SIGNALS);
    assert kept[0] == lines[|lines| - |kept|];
    var joined := Join("\n\n", kept);
    assert joined[0] == kept[0][0] == '$';
    assert NO_SIGNALS[0] == 'N';
    if maxChars > 0 {
      assert Take(joined, maxChars)[0] == '$';
    }
  }

  /** Every line of `SignalLines` starts with the shell prompt `$ `. */
  lemma {:induction false} SignalLinesShape(trajectory: seq<ToolCallRecord>)
    ensures forall k :: 0 <= k < |SignalLines(trajectory)| ==> StartsWith(SignalLines(trajectory)[k], "$ ")
  {
    if trajectory != [] {
      var tc := trajectory[|trajectory| - 1];
      SignalLinesShape(trajectory[..|trajectory| - 1]);
      var cmd := if "command" in tc.args then tc.args["command"] else "";
      StartsWithConcat("$ ", cmd + "\n" + Take(tc.result, OUTPUT_LIMIT));
      assert SignalLine(tc) == "$ " + (cmd + "\n" + Take(tc.result, OUTPUT_LIMIT));
    }
  }

  const FEEDBACK_HEAD: string :=
    "Hidden verifier result: FAIL.\nDo not assume access to hidden tests. Infer likely failure modes from the agent's own actions.\n"
  const RUNTIME_ERROR_PREFIX: string := "\nAgent runtime error: "
  const SIGNALS_HEADING: string := "\n\nAgent-observable signals:\n"

  /** Python truthiness of `task_result.error`: set and non-empty. */
  predicate HasError(r: TaskResult) {
    r.error.Some? && r.error.value != []
  }

  /** `_generation_feedback`: the verifier's message when allowed, else only what the agent could see. */
  function GenerationFeedback(r: TaskResult, allowVerifierFeedback: bool): (fb: string)
    ensures allowVerifierFeedback ==> fb == r.verifyMessage
    ensures !allowVerifierFeedback ==> StartsWith(fb, FEEDBACK_HEAD)
  {
    if allowVerifierFeedback then r.verifyMessage
    else
      var tail := RuntimeErrorLine(r) + (SIGNALS_HEADING + SignalsText(r.trajectory, DEFAULT_MAX_CHARS));
      StartsWithConcat(FEEDBACK_HEAD, tail);
      FEEDBACK_HEAD + tail
  }

  /** The runtime-error line: present only when the run recorded an error. */
  function RuntimeErrorLine(r: TaskResult): string {
    if HasError(r) then RUNTIME_ERROR_PREFIX + r.error.value else []
  }

  /** Without permission, the hidden verifier's message cannot leak: two results that differ only there get the same feedback. */
  lemma {:induction false} FeedbackHidesVerdict(r1: TaskResult, r2: TaskResult)
    requires r1.error == r2.error && r1.trajectory == r2.trajectory
    ensures GenerationFeedback(r1, false) == GenerationFeedback(r2, false)
  {
  }

  /** The runtime-error line follows the fixed head exactly when the run recorded an error. */
  lemma {:induction false} RuntimeLineIffError(r: TaskResult)
    ensures StartsWith(GenerationFeedback(r, false), FEEDBACK_HEAD + RUNTIME_ERROR_PREFIX) <==> HasError(r)
    ensures HasError(r) ==> StartsWith(GenerationFeedback(r, false), FEEDBACK_HEAD + RUNTIME_ERROR_PREFIX + r.error.value)
  {
    var fb := GenerationFeedback(r, false);
    var rest := SIGNALS_HEADING + SignalsText(r.trajectory, DEFAULT_MAX_CHARS);
    var tail := RuntimeErrorLine(r) + rest;
    assert fb == FEEDBACK_HEAD + tail;
    var n := |FEEDBACK_HEAD|;
    if HasError(r) {
      var p := FEEDBACK_HEAD + RUNTIME_ERROR_PREFIX + r.error.value;
      assert FEEDBACK_HEAD + tail == p + rest;
      StartsWithConcat(p, rest);
      StartsWithTrans(fb, p, FEEDBACK_HEAD + RUNTIME_ERROR_PREFIX);
    } else {
      assert tail == rest;
      assert fb[n + 1] == rest[1] == '\n';
      assert (FEEDBACK_HEAD + RUNTIME_ERROR_PREFIX)[n + 1] == 'A';
    }
  }
}
