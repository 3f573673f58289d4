/**
 * The tool generator: it renders a failed run's trajectory for the prompt,
 * adds the retry context when a previous tool still failed, asks the model
 * once, and cleans the answer into Python source by stripping whitespace and
 * one surrounding Markdown code fence.
 */
module Generator {
  import opened Wrappers
  import opened Strings
  import opened PyModel
  import opened Records

  /** `json.dumps(args, indent=2)`; JSON encoding is outside the model. */
  type Dumps = Args -> string

  const NO_TOOL_CALLS: string := "(no tool calls recorded)"
  const PREVIEW_LIMIT: nat := 500

  /** A tool result shortened to 500 characters, marked with `...` when cut. */
  function Preview(result: string): (r: string)
    ensures |result| <= PREVIEW_LIMIT ==> r == result
    ensures |result| > PREVIEW_LIMIT ==> |r| == PREVIEW_LIMIT + 3 && StartsWith(r, result[..PREVIEW_LIMIT])
  {
    if |result| > PREVIEW_LIMIT then
      StartsWithConcat(result[..PREVIEW_LIMIT], "...");
      result[..PREVIEW_LIMIT] + "..."
    else result
  }

  /** The entry for the `i`-th call (counting from 1). */
  function Step(i: nat, tc: ToolCallRecord, dumps: Dumps): string {
    "Step " + NatToString(i) + ": " + tc.name + "(" + dumps(tc.args) + ")\n  -> " + Preview(tc.result)
  }

  function Steps(trajectory: seq<ToolCallRecord>, dumps: Dumps): (steps: seq<string>)
    ensures |steps| == |trajectory|
  {
    seq(|trajectory|, k requires 0 <= k < |trajectory| => Step(k + 1, trajectory[k], dumps))
  }

  /** The trajectory as the prompt shows it. */
  function TrajectoryText(trajectory: seq<ToolCallRecord>, dumps: Dumps): string {
    if trajectory == [] then NO_TOOL_CALLS else Join("\n\n", Steps(trajectory, dumps))
  }

  /** `format_trajectory`: one entry per call, numbered from 1, separated by blank lines. */
  method FormatTrajectory(trajectory: seq<ToolCallRecord>, dumps: Dumps) returns (text: string)
    ensures text == TrajectoryText(trajectory, dumps)
  {
    var lines: seq<string> := [];
    for i := 0 to |trajectory|
      invariant lines == Steps(trajectory, dumps)[..i]
    {
      lines := lines + [Step(i + 1, trajectory[i], dumps)];
    }
    assert lines == Steps(trajectory, dumps);
    if lines != [] {
      text := Join("\n\n", lines);
    } else {
      text := NO_TOOL_CALLS;
    }
  }

  /**
   * The placeholder stands exactly for an empty trajectory; a single call is
   * its own entry; otherwise the text opens with the first call's name.
   */
  lemma {:induction false} TrajectoryTextShape(trajectory: seq<ToolCallRecord>, dumps: Dumps)
    ensures trajectory == [] <==> TrajectoryText(trajectory, dumps) == NO_TOOL_CALLS
    ensures |trajectory| == 1 ==> TrajectoryText(trajectory, dumps) == Step(1, trajectory[0], dumps)
    ensures trajectory != [] ==> StartsWith(TrajectoryText(trajectory, dumps), "Step 1: " + trajectory[0].name + "(")
  {
    if trajectory != [] {
      FirstStepLeads(trajectory, dumps);
    }
  }

  lemma {:induction false} FirstStepLeads(trajectory: seq<ToolCallRecord>, dumps: Dumps)
    requires trajectory != []
    ensures StartsWith(TrajectoryText(trajectory, dumps), "Step 1: " + trajectory[0].name + "(")
    ensures TrajectoryText(trajectory, dumps) != NO_TOOL_CALLS
  {
    var tc := trajectory[0];
    var head := "Step 1: " + tc.name + "(";
    assert head[0] == 'S';
    TextOpensWithFirstStep(trajectory, dumps);
    StepOpensWithName(tc, dumps);
    StartsWithTrans(TrajectoryText(trajectory, dumps), Step(1, tc, dumps), head);
    NotPlaceholder(TrajectoryText(trajectory, dumps), head);
  }

  lemma {:induction false} TextOpensWithFirstStep(trajectory: seq<ToolCallRecord>, dumps: Dumps)
    requires trajectory != []
    ensures StartsWith(TrajectoryText(trajectory, dumps), Step(1, trajectory[0], dumps))
  {
    assert Steps(trajectory, dumps)[0] == Step(1, trajectory[0], dumps);
  }

  lemma {:induction false} StepOpensWithName(tc: ToolCallRecord, dumps: Dumps)
    ensures StartsWith(Step(1, tc, dumps), "Step 1: " + tc.name + "(")
  {
    var head := "Step 1: " + tc.name + "(";
    var rest := dumps(tc.args) + ")\n  -> " + Preview(tc.result);
    assert Step(1, tc, dumps) == head + rest;
    StartsWithConcat(head, rest);
  }

  lemma {:induction false} NotPlaceholder(text: string, head: string)
    requires StartsWith(text, head) && head != [] && head[0] == 'S'
    ensures text != NO_TOOL_CALLS
  {
    assert text[0] == head[0];
  }

  /** What the caller knows about the previous, still failing, generated tool. */
  datatype RetryInfo = RetryInfo(toolName: string, verifyMessage: string)

  const RETRY_CONTEXT_HEAD: string :=
    "\n## Previous Attempt Failed\nThe previously generated tool was called by the agent but STILL produced wrong code.\nTool name: "
  const RETRY_CONTEXT_MIDDLE: string := "\nAgent's output with the tool still failed verification: "
  const RETRY_CONTEXT_TAIL: string :=
    "\nFix the tool so the generated code passes. Think carefully about what edge case is still broken.\n"

  /** The retry paragraph: empty on a first attempt, else names the tool and quotes at most 500 characters of the verdict. */
  function RetryContext(retry: Option<RetryInfo>): (text: string)
    ensures retry.None? ==> text == []
    ensures retry.Some? ==> StartsWith(text, RETRY_CONTEXT_HEAD + retry.value.toolName)
  {
    match retry
    case None => []
    case Some(info) =>
      var quoted := Take(info.verifyMessage, PREVIEW_LIMIT);
      StartsWithConcat(RETRY_CONTEXT_HEAD + info.toolName, RETRY_CONTEXT_MIDDLE + quoted + RETRY_CONTEXT_TAIL);
      assert RETRY_CONTEXT_HEAD + info.toolName + RETRY_CONTEXT_MIDDLE + quoted + RETRY_CONTEXT_TAIL
          == (RETRY_CONTEXT_HEAD + info.toolName) + (RETRY_CONTEXT_MIDDLE + quoted + RETRY_CONTEXT_TAIL);
      RETRY_CONTEXT_HEAD + info.toolName + RETRY_CONTEXT_MIDDLE + quoted + RETRY_CONTEXT_TAIL
  }

  /** The retry paragraph never quotes more than 500 characters of the failed verdict. */
  lemma {:induction false} RetryContextBounded(info: RetryInfo)
    ensures |RetryContext(Some(info))|
            <= |RETRY_CONTEXT_HEAD| + |info.toolName| + |RETRY_CONTEXT_MIDDLE| + PREVIEW_LIMIT + |RETRY_CONTEXT_TAIL|
    ensures |info.verifyMessage| <= PREVIEW_LIMIT ==> Contains(RetryContext(Some(info)), info.verifyMessage)
  {
    var pre := RETRY_CONTEXT_HEAD + info.toolName + RETRY_CONTEXT_MIDDLE;
    if |info.verifyMessage| <= PREVIEW_LIMIT {
      assert RetryContext(Some(info)) == pre + info.verifyMessage + RETRY_CONTEXT_TAIL;
      ContainsInfix(pre, info.verifyMessage, RETRY_CONTEXT_TAIL);
    }
  }

  /**
   * The values `GENERATION_PROMPT` is filled with; the prompt's fixed wording
   * is not part of this model.
   */
  datatype GenerationRequest = GenerationRequest(
    model: string, taskPrompt: string, trajectory: string, verifyMessage: string, retryContext: string)

  /** The model's answer: its text (possibly absent) and token counts, or the exception the client raised. */
  datatype ChatReply = Replied(content: Option<string>, inputTokens: nat, outputTokens: nat) | ChatRaised(message: string)

  type GeneratorChat = GenerationRequest -> ChatReply

  datatype Generation = Generated(code: string, inputTokens: nat, outputTokens: nat) | GenerationRaised(message: string)

  const FENCE: string := "```"

  /** Python's `\w` restricted to ASCII: letters, digits and underscore. */
  predicate IsWordChar(c: char) {
    'a' <= c <= 'z' || 'A' <= c <= 'Z' || '0' <= c <= '9' || c == '_'
  }

  predicate AllWord(s: string) {
    forall i :: 0 <= i < |s| ==> IsWordChar(s[i])
  }

  /** The length of the longest run of word characters starting at `i`. */
  function WordRun(s: string, i: nat): (n: nat)
    requires i <= |s|
    ensures i + n <= |s| && AllWord(s[i..i + n])
    ensures i + n == |s| || !IsWordChar(s[i + n])
    decreases |s| - i
  {
    if i == |s| || !IsWordChar(s[i]) then 0
    else
      var n := WordRun(s, i + 1);
      assert s[i..i + 1 + n] == [s[i]] + s[i + 1..i + 1 + n];
      1 + n
  }

  /** `re.sub(r'^```\w*\n', '', s)`: drops an opening fence line with an optional language tag. */
  function DropOpeningFence(s: string): (r: string)
    ensures |r| <= |s| && r == s[|s| - |r|..]
    ensures r != s ==> StartsWith(s, FENCE) && s[|s| - |r| - 1] == '\n'
  {
    if StartsWith(s, FENCE) then
      var n := WordRun(s, 3);
      if 3 + n < |s| && s[3 + n] == '\n' then s[3 + n + 1..] else s
    else s
  }

  /** `re.sub(r'\n```\s*$', '', s)`: cuts at the leftmost closing fence followed only by whitespace. */
  function DropClosingFence(s: string): (r: string)
    ensures |r| <= |s| && r == s[..|r|]
    ensures r != s ==> ClosingFenceAt(s, |r|) && forall j :: 0 <= j < |r| ==> !ClosingFenceAt(s, j)
    ensures r == s ==> forall j :: 0 <= j ==> !ClosingFenceAt(s, j)
  {
    DropClosingFenceFrom(s, 0)
  }

  predicate ClosingFenceAt(s: string, i: nat) {
    i + 4 <= |s| && s[i..i + 4] == "\n" + FENCE && AllSpace(s[i + 4..])
  }

  function DropClosingFenceFrom(s: string, i: nat): (r: string)
    requires i <= |s|
    ensures |r| <= |s| && r == s[..|r|]
    ensures r != s ==> ClosingFenceAt(s, |r|) && i <= |r|
    ensures r != s ==> forall j :: i <= j < |r| ==> !ClosingFenceAt(s, j)
    ensures r == s ==> forall j :: i <= j ==> !ClosingFenceAt(s, j)
    decreases |s| - i
  {
    if i + 4 > |s| then s
    else if ClosingFenceAt(s, i) then s[..i]
    else DropClosingFenceFrom(s, i + 1)
  }

  /** The cleaning `generate_tool` applies to the model's answer. */
  function CleanCode(content: string): (code: string)
    ensures !StartsWith(Strip(content), FENCE) ==> code == Strip(content)
  {
    var code := Strip(content);
    if StartsWith(code, FENCE) then DropClosingFence(DropOpeningFence(code)) else code
  }

  /** A fenced answer `` ```lang\n<body>\n``` `` yields exactly the body, whatever the body holds. */
  lemma {:induction false} FenceRoundTrip(lang: string, body: string)
    requires AllWord(lang)
    ensures CleanCode(FENCE + lang + "\n" + body + "\n" + FENCE) == body
  {
    var u := body + "\n" + FENCE;
    var s := FENCE + (lang + ("\n" + u));
    assert FENCE + lang + "\n" + body + "\n" + FENCE == s;
    assert s[0] == '`';
    assert s[|s| - 1] == u[|u| - 1] == '`';
    StripUnchanged(s);
    StartsWithConcat(FENCE, lang + ("\n" + u));
    OpeningFenceLine(lang, u);
    ClosingFenceOnlyAtEnd(body, u);
  }

  lemma {:induction false} OpeningFenceLine(lang: string, u: string)
    requires AllWord(lang)
    ensures DropOpeningFence(FENCE + (lang + ("\n" + u))) == u
  {
    var s := FENCE + (lang + ("\n" + u));
    StartsWithConcat(FENCE, lang + ("\n" + u));
    assert s[3..3 + |lang|] == lang;
    assert s[3 + |lang|] == '\n';
    WordRunExact(s, 3, lang);
    assert s[3 + |lang| + 1..] == u;
  }

  lemma {:induction false} WordRunExact(s: string, i: nat, w: string)
    requires i + |w| < |s| && s[i..i + |w|] == w && AllWord(w) && !IsWordChar(s[i + |w|])
    ensures WordRun(s, i) == |w|
    decreases |w|
  {
    if w != [] {
      assert s[i] == w[0];
      assert s[i + 1..i + 1 + |w[1..]|] == w[1..];
      WordRunExact(s, i + 1, w[1..]);
    }
  }

  /** In `body + "\n```"` the only closing fence followed by nothing but whitespace is the last one. */
  lemma {:induction false} ClosingFenceOnlyAtEnd(body: string, u: string)
    requires u == body + "\n" + FENCE
    ensures DropClosingFence(u) == body
  {
    assert ClosingFenceAt(u, |body|) by {
      assert u[|body|..|body| + 4] == "\n" + FENCE;
      assert u[|body| + 4..] == [];
    }
    assert u[|u| - 1] == '`';
  }

  /**
   * `generate_tool`: asks the model once and cleans its answer. Token counts are
   * the reply's own; an absent reply text fails like `None.strip()`.
   */
  function GenerateTool(chat: GeneratorChat, model: string, taskPrompt: string, trajectoryText: string,
                        verifyMessage: string, retry: Option<RetryInfo>): (g: Generation)
    ensures var reply := chat(GenerationRequest(model, taskPrompt, trajectoryText, verifyMessage, RetryContext(retry)));
      match reply
      case ChatRaised(m) => g == GenerationRaised(m)
      case Replied(None, _, _) => g == GenerationRaised(NONE_HAS_NO_STRIP)
      case Replied(Some(c), i, o) => g == Generated(CleanCode(c), i, o)
  {
    var reply := chat(GenerationRequest(model, taskPrompt, trajectoryText, verifyMessage, RetryContext(retry)));
    match reply
    case ChatRaised(m) => GenerationRaised(m)
    case Replied(None, _, _) => GenerationRaised(NONE_HAS_NO_STRIP)
    case Replied(Some(c), i, o) => Generated(CleanCode(c), i, o)
  }

  const NONE_HAS_NO_STRIP: string := "'NoneType' object has no attribute 'strip'"

  /** A fenced answer yields exactly its body, with the reply's token counts. */
  lemma {:induction false} GenerateToolFenced(chat: GeneratorChat, model: string, taskPrompt: string, trajectoryText: string,
                                              verifyMessage: string, retry: Option<RetryInfo>,
                                              lang: string, body: string, i: nat, o: nat)
    requires AllWord(lang)
    requires chat(GenerationRequest(model, taskPrompt, trajectoryText, verifyMessage, RetryContext(retry)))
               == Replied(Some(FENCE + lang + "\n" + body + "\n" + FENCE), i, o)
    ensures GenerateTool(chat, model, taskPrompt, trajectoryText, verifyMessage, retry) == Generated(body, i, o)
  {
    FenceRoundTrip(lang, body);
  }

  /**
   * `generate_tool` as the repository writes it: the client's reply object
   * carries only its content, tool calls and raw message, so reading its
   * `input_tokens` after cleaning the code raises. No reply ever yields code.
   */
  function GenerateToolAsWritten(chat: GeneratorChat, model: string, taskPrompt: string, trajectoryText: string,
                                 verifyMessage: string, retry: Option<RetryInfo>): (g: Generation)
    ensures g.GenerationRaised?
    ensures var reply := chat(GenerationRequest(model, taskPrompt, trajectoryText, verifyMessage, RetryContext(retry)));
      (reply.ChatRaised? ==> g.message == reply.message)
      && (reply.Replied? && reply.content.Some? ==> g.message == NO_INPUT_TOKENS)
  {
    var reply := chat(GenerationRequest(model, taskPrompt, trajectoryText, verifyMessage, RetryContext(retry)));
    match reply
    case ChatRaised(m) => GenerationRaised(m)
    case Replied(None, _, _) => GenerationRaised(NONE_HAS_NO_STRIP)
    case Replied(Some(_), _, _) => GenerationRaised(NO_INPUT_TOKENS)
  }

  const NO_INPUT_TOKENS: string := "'AgentResponse' object has no attribute 'input_tokens'"

  /** Where the two differ: a reply with content raises as written, and gives its cleaned code once corrected. */
  lemma {:induction false} ContentReplyRaisesAsWritten(chat: GeneratorChat, model: string, taskPrompt: string,
                                                       trajectoryText: string, verifyMessage: string,
                                                       retry: Option<RetryInfo>, c: string, i: nat, o: nat)
    requires chat(GenerationRequest(model, taskPrompt, trajectoryText, verifyMessage, RetryContext(retry))) == Replied(Some(c), i, o)
    ensures GenerateToolAsWritten(chat, model, taskPrompt, trajectoryText, verifyMessage, retry)
              == GenerationRaised(NO_INPUT_TOKENS)
    ensures GenerateTool(chat, model, taskPrompt, trajectoryText, verifyMessage, retry) == Generated(CleanCode(c), i, o)
  {
  }
}
