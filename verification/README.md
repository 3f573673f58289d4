# coding-agent, modelled in Dafny

A model of the core of the `coding-agent` repository. The repository holds a tool-using coding agent, an evaluation harness that runs it on tasks, and a self-improving pipeline. When a task fails, the pipeline asks a stronger model to write a new tool, validates it and installs it in a tool library. It then re-runs the task with the tool and keeps the tool only if the task now passes.

The modules follow the repository's structure:

- `AgentLoop` (agentloop.dfy): the agent's chat/tool-call loop (`Agent.run`).
- `Toolbox`, `Paths` and `Shell` (toolbox.dfy, paths.dfy, shell.dfy): the built-in `read_file`, `write_file` and `run_shell` tools, their schemas and the workspace path rule.
- `Records` (records.dfy): the task and result records.
- `Verifier` (verifier.dfy): the post-run checks of a task.
- `Harness` (harness.dfy): the evaluation harness that runs one agent per task and records its trajectory.
- `Library` (library.dfy): the tool registry, a class whose `registry.json` and source files are fields updated in place.
- `Validation`, `Generator` and `Feedback` (validation.dfy, generator.dfy, feedback.dfy): checking generated tool code, prompting for it and cleaning the reply, and building the prompts and feedback.
- `Pipeline` (pipeline.dfy): the `run_pipeline` generate/validate/install/re-run loop.
- `EvalRun` (evalrun.dfy): the self-improving benchmark run, with its reuse accounting and result serialisation.
- `WorkflowFsm` (workflowfsm.dfy): the generated `build_workflow_state_machine` library tool.
- `OpenAiKey` (openaikey.dfy): the start-up key check.
- `Strings`, `Wrappers` and `PyModel`: the few Python string builtins and runtime values the core relies on.

Collaborators the model cannot see are parameters:

- the LLM chat client;
- `exec` of tool source;
- the subprocess shell and the verifier command runner;
- the clock;
- `json.dumps`;
- the generation cost.

Where the source keeps state and updates it step by step, the model uses methods: the agent loop, the harness, the library, the pipeline loops and the source builders. Each method is proved equal to a recursive specification function, and lemmas about those functions state what the source promises.

## Model

| member | source | states |
|---|---|---|
| AgentLoop.ContentOr | agent_loop/agent.py:108-109 | the final answer is the reply's content when non-empty, otherwise "(no response)" |
| AgentLoop.NewAgent | agent_loop/agent.py:83-96 | an agent keeps its client, iteration bound and verbosity; tools default to the three built-in schemas and dispatch to the built-in dispatcher when not given |
| AgentLoop.Agent.Run | agent_loop/agent.py:98-127 | the loop's answer, the final workspace and the message list are those of the turn-by-turn specification `RunSpec` |
| AgentLoop.LoopEndsWell | agent_loop/agent.py:104-127 | from any turn start, the remaining loop ends well-shaped; with a client that always asks for tools and a dispatcher that never raises, it ends exhausted |
| AgentLoop.CallsEndWell | agent_loop/agent.py:111-125 | the same as LoopEndsWell, from the middle of a turn's tool calls |
| AgentLoop.RunWellShaped | agent_loop/agent.py:98-125 | the messages open with the system prompt and the task; there is one assistant message per reply and one tool message, with the call's id and result, per dispatched call, in order; at most max_iterations chats happen |
| AgentLoop.FinishedOnFirstPlainReply | agent_loop/agent.py:104-109 | a finished run ends on the first reply without tool calls; its answer is that reply's content (or the placeholder); every call of every reply was dispatched, in order |
| AgentLoop.ExhaustedAfterAllTurns | agent_loop/agent.py:104-127 | a run that gives up used exactly max_iterations chats, every one of them asked for tools, and the answer is the "Reached maximum iterations" text |
| AgentLoop.AlwaysToolsExhausts | agent_loop/agent.py:104-127 | a client that always requests tools drives the run to the iteration limit |
| AgentLoop.NoTurnsGivesUp | agent_loop/agent.py:104 | with max_iterations <= 0 the model is never called, and the run gives up with only the two opening messages |
| Paths.Resolve | agent_loop/tools/_workspace.py:7-11 | an absolute path is kept; a relative path is placed under the workspace and ends with "/" + path (also evals/harness.py:18-20, 01_agent_loop/tools.py:9-13) |
| Paths.ResolveAbsolute | agent_loop/tools/_workspace.py:7-11 | with an absolute workspace, resolving gives an absolute path, and resolving twice equals resolving once |
| Paths.ResolveInjective | agent_loop/tools/_workspace.py:7-11 | two non-empty relative paths resolve to the same file exactly when they are equal |
| Shell.FormatOutput | agent_loop/tools/run_shell.py:33-38 | builds the stripped stdout, the STDERR section and the exit-code line exactly as `Formatted` defines them (also evals/harness.py:47-52) |
| Shell.ShellResult | agent_loop/tools/run_shell.py:23-42 | a timeout gives the timeout message, an exception gives "Error: " + message, a completed command gives its formatted output |
| Shell.FormattedExitCode | agent_loop/tools/run_shell.py:36-37 | a non-zero exit code ends the output with "Exit code: N", so the output is never the "(no output)" placeholder |
| Shell.FormattedStderr | agent_loop/tools/run_shell.py:35 | non-empty stderr always shows up under the "STDERR:" label |
| Shell.FormattedCleanExit | agent_loop/tools/run_shell.py:33-38 | a clean exit without stderr gives the stripped stdout, or the placeholder when stdout is blank |
| Shell.FormattedPlaceholder | agent_loop/tools/run_shell.py:38 | unless stdout itself strips to the placeholder text, the placeholder appears if and only if there is no stdout, no stderr and exit code 0 |
| Shell.PlaceholderHasNoLabel | agent_loop/tools/run_shell.py:38 | the placeholder cannot be mistaken for output with a STDERR section |
| Records.TaskResult.NumToolCalls | evals/task.py:39-41 | the number of tool calls is the trajectory's length, and it is zero exactly when the trajectory is empty |
| Toolbox.Toolbox.ReadFile | evals/harness.py:22-27 | an existing file's content is returned as text-mode reading gives it, with "\r\n" and "\r" turned into "\n"; anything else gives an "Error: " message (also 01_agent_loop/tools.py:74-79) |
| Toolbox.Toolbox.WriteFile | evals/harness.py:29-38 | a successful write stores the content at the resolved path and reports "Wrote N characters to path"; a failing write leaves the files as they were and reports "Error: " (also 01_agent_loop/tools.py:82-90) |
| Toolbox.Toolbox.RunShell | evals/harness.py:40-56 | the shell runs in the workspace, and its outcome is reported as `ShellResult` formats it |
| Toolbox.Toolbox.Dispatch | evals/harness.py:58-64 | an unknown name gives "Unknown tool: name"; each known name with its keyword arguments runs its handler; only a known tool with bad arguments raises, and then the files are unchanged (also 01_agent_loop/tools.py:115-123, agent_loop/tools/__init__.py:14-17) |
| Toolbox.SchemasMatchHandlers | agent_loop/tools/__init__.py:5-11 | there are three schemas and three handlers, and the i-th schema is named after the i-th handler |
| Toolbox.WriteThenRead | evals/harness.py:22-38 | reading a path after a successful write returns what was written with its line endings translated to "\n" (exactly what was written when it holds no carriage return), and every other file is untouched |
| Toolbox.ReadTranslatesNewlines | evals/harness.py:22-27 | "x\r\ny" written to a file is read back as "x\ny" |
| Toolbox.WriteStaysInWorkspace | evals/harness.py:18-38 | writing to a relative path adds only a file whose path text begins with the workspace text |
| Verifier.RunnerSetting.SetCommandRunner | evals/verifier.py:8-13 | the module's command runner becomes the one given |
| Verifier.CheckAll | evals/verifier.py:86-95 | all_of passes if and only if every verifier passes, and then its message is "All checks passed" |
| Verifier.FileExistsIff | evals/verifier.py:22-29 | file_exists passes if and only if the resolved path is a file or a directory holding a file |
| Verifier.WrittenParentExists | evals/verifier.py:27-29 | once a file is written inside a directory, file_exists passes for that directory |
| Verifier.FileContainsIff | evals/verifier.py:32-44 | a missing file fails with "path not found"; otherwise file_contains passes if and only if the content, read in text mode with its line endings translated to "\n", contains the pattern |
| Verifier.ReturnPatternNeverFound | evals/verifier.py:38-44 | a pattern holding a carriage return never passes file_contains, because text-mode reading has translated every one |
| Verifier.ShellOutputDecision | evals/verifier.py:47-67 | a timeout or a runner error fails, the exit code is ignored, and the verdict is exact equality or containment of the stripped stdout |
| Verifier.TestsPassesIff | evals/verifier.py:70-83 | tests_pass passes if and only if the command neither timed out nor errored and exited with 0 |
| Verifier.AllOfFirstFailure | evals/verifier.py:90-93 | all_of reports the first failing verifier's result |
| Verifier.AllOfIgnoresRest | evals/verifier.py:90-93 | verifiers after the first failure play no part in the result |
| Verifier.FirstFailureFrom | evals/verifier.py:90-93 | checking from position i stops at the first failure at or after i |
| Verifier.AllOfAllPass | evals/verifier.py:90-95 | when every remaining verifier passes, the result is the all-passed verdict |
| Harness.HandlerText | evals/harness.py:93-96 | an extra tool's return value is passed on as its text; an exception becomes an "Error: " message |
| Harness.AgentReply | evals/harness.py:128-136 | a raising run records an empty response with the exception as error; any other run records its answer and no error |
| Harness.Harness.TaskAgent | evals/harness.py:113-119 | the task's agent uses the default iteration bound, the harness's schemas, and a dispatcher that journals every call |
| Harness.Harness.RunTask | evals/harness.py:78-166 | the result is the task's specified run `TaskRun`, carries the task's id, and has an error exactly when the agent raised |
| Harness.Harness.RunAll | evals/harness.py:168-175 | one result per task, in order, each the task's own run under its own id |
| Harness.MergedPrecedence | evals/harness.py:87-100 | an extra tool handler takes precedence over a built-in with the same name, the files afterwards are what the handler left (also when it raised), its exceptions become "Error: " text, and other names go to the built-in dispatcher |
| Harness.RecordingJournalsCall | evals/harness.py:102-111 | the recording dispatcher returns what the underlying dispatch returns, and appends one trajectory record exactly when the call returns |
| Harness.LoopJournal | evals/harness.py:102-111 | over the whole loop, the recorded trajectory is the journal of the dispatched calls |
| Harness.CallsJournal | evals/harness.py:102-111 | the same as LoopJournal, from the middle of a turn |
| Harness.TaskRunReports | evals/harness.py:128-153 | the result's verdict and message come from the task's verifier on the final files; the response and error come from the agent's outcome; the trajectory is the journal; the tool-call count equals the number of tool messages |
| Harness.Construct | agent_loop/agent.py:84-91 | constructing an Agent succeeds if and only if every keyword is one of Agent's parameters |
| Harness.HarnessCallRejected | evals/harness.py:113-119 | the harness's Agent construction is rejected for the `system_prompt` keyword, and the same call without it is accepted |
| Harness.AgentReplyAsWritten | evals/harness.py:128-136 | as written, the recorded response is always empty, and a raising run records its exception |
| Harness.CompletedRunRecordedAsError | evals/harness.py:129-133 | as written, every non-raising run is recorded as an error about `str` having no `content`; the corrected reply records the answer |
| Library.Without | tool_library/__init__.py:53 | removing a name keeps exactly the entries with other names |
| Library.Named | tool_library/__init__.py:51-63 | selects exactly the entries with the given name |
| Library.FirstIndex | tool_library/__init__.py:68-72 | the index of the first entry with the name, or none when no entry has it |
| Library.Library.ListTools | tool_library/__init__.py:85-86 | the registry's entries, or nothing when there is no registry |
| Library.Library.Register | tool_library/__init__.py:51-63 | the registry becomes the old entries without that name, followed by the new entry; source files are unchanged |
| Library.Library.MarkVerified | tool_library/__init__.py:66-73 | the registry becomes `MarkFirst` of the old entries; files are unchanged |
| Library.Library.Remove | tool_library/__init__.py:76-82 | every entry with the name and its source file are removed |
| Library.Library.LoadTools | tool_library/__init__.py:28-48 | returns the schemas and handlers that `Loaded` specifies for the registry and files |
| Library.RegisterLastWriteWins | tool_library/__init__.py:51-63 | after registering, exactly one entry carries the name, it is last, and entries for other names are unchanged |
| Library.RemoveIdempotent | tool_library/__init__.py:76-82 | removing a tool twice is the same as removing it once |
| Library.MarkFirstOnlyFirst | tool_library/__init__.py:66-73 | only the first entry with the name is marked verified with the model; everything else is unchanged, and an absent name changes nothing |
| Library.SkippedEntryIrrelevant | tool_library/__init__.py:34-46 | an unverified, missing or unloadable entry has no effect on what is loaded |
| Library.LoadBounds | tool_library/__init__.py:28-48 | there are no more handlers than schemas, and no more schemas than verified entries |
| Library.HandlersHaveSchemas | tool_library/__init__.py:42-44 | every loaded handler has a loaded schema with its name |
| Library.SchemasFromVerified | tool_library/__init__.py:35-43 | every loaded schema is the SCHEMA of a verified entry whose file exists and executes |
| Library.ValidatedToolLoads | tool_library/__init__.py:28-48 | a verified entry whose code passes validation is loaded: its handler is the named callable and its SCHEMA comes last |
| Validation.FunctionNameValue | tool_gen/pipeline.py:87 | looking up the name succeeds exactly when SCHEMA is a dict whose "function" entry (default `{}`) is a dict |
| Validation.CheckNamespace | tool_gen/pipeline.py:83-100 | the code is valid exactly when SCHEMA exists and its non-empty string name is a callable of the namespace; a missing SCHEMA and a falsy name give their own reasons |
| Validation.ReasonsDistinct | tool_gen/pipeline.py:81-95 | the failure reasons can be told apart |
| Validation.ValidateToolCode | tool_gen/pipeline.py:76-100 | an exec error gives "Code execution error: " and its message; otherwise the namespace check decides, and a valid result names a callable in the executed namespace |
| Validation.ExecErrorFirst | tool_gen/pipeline.py:78-81 | a reason starts with the exec-error prefix exactly when exec raised |
| Validation.UsageExampleIrrelevant | tool_gen/pipeline.py:97-98 | the optional USAGE_EXAMPLE does not change the verdict |
| Validation.ValidNameIsSchemaName | tool_gen/pipeline.py:86-100 | a valid tool's name is its SCHEMA's function name, which the library later looks up |
| Generator.Preview | tool_gen/generator.py:142 | results of at most 500 characters are kept whole; longer ones are cut to their first 500 characters plus "..." |
| Generator.Steps | tool_gen/generator.py:139-143 | one step line per trajectory record |
| Generator.FormatTrajectory | tool_gen/generator.py:138-144 | the text is the trajectory's specified rendering `TrajectoryText` |
| Generator.TrajectoryTextShape | tool_gen/generator.py:138-144 | an empty trajectory gives the "(no tool calls)" text and nothing else does; a non-empty one starts with "Step 1: name(" |
| Generator.RetryContext | tool_gen/generator.py:151-156 | no retry gives no text; a retry names the failed tool at the head of the retry section |
| Generator.RetryContextBounded | tool_gen/generator.py:155 | the retry section is bounded by the template plus the 500-character preview, and a short verifier message appears whole |
| Generator.WordRun | tool_gen/generator.py:172 | the longest run of word characters from a position (the `\w*` of the fence pattern) |
| Generator.DropOpeningFence | tool_gen/generator.py:172 | the result is a suffix of the text, and it differs only when an opening fence line was removed |
| Generator.DropClosingFence | tool_gen/generator.py:173 | the result is a prefix cut at the first closing fence, or the whole text when there is none |
| Generator.DropClosingFenceFrom | tool_gen/generator.py:173 | the same as DropClosingFence, searching from a given position |
| Generator.CleanCode | tool_gen/generator.py:170-173 | a reply that does not start with a fence is only stripped |
| Generator.FenceRoundTrip | tool_gen/generator.py:170-173 | cleaning a fenced block with any word language tag gives back exactly the body |
| Generator.GenerateTool | tool_gen/generator.py:147-175 | a chat error propagates; a reply without content raises; otherwise the cleaned code is returned with the reply's token counts (the corrected reading of :175; see Findings) |
| Generator.GenerateToolFenced | tool_gen/generator.py:170-175 | an answer fenced as "```lang\n" + body + "\n```" yields exactly the body, with the reply's token counts |
| Generator.GenerateToolAsWritten | tool_gen/generator.py:147-175 | as written, no reply ever yields code: a chat error propagates, and a reply with content raises when its token counts are read |
| Generator.ContentReplyRaisesAsWritten | tool_gen/generator.py:170-175 | for the same reply with content, the as-written generator raises AttributeError while the corrected one returns the cleaned code |
| Feedback.ExampleLines | tool_gen/pipeline.py:36-44 | three lines per usage example (also evals/run.py:46-54) |
| Feedback.BuildToolExamplesSection | tool_gen/pipeline.py:36-44 | the section is the specified `ExamplesSectionText` |
| Feedback.ExamplesSectionShape | tool_gen/pipeline.py:36-44 | the section is empty exactly when there are no examples, and otherwise starts with its heading |
| Feedback.ExampleEntry | tool_gen/pipeline.py:40-43 | example k is a "### name" line, its stripped usage, and a blank line |
| Feedback.AugmentedSystemPrompt | tool_gen/pipeline.py:17-33 | the prompt starts with the fixed text, and is exactly that text when there are no examples (also evals/run.py:23-39) |
| Feedback.ExtractSignals | tool_gen/pipeline.py:47-59 | the signals text is the specified `SignalsText` (also evals/run.py:68-80) |
| Feedback.SignalLinesConcat | tool_gen/pipeline.py:50-57 | signal lines of a concatenation are the concatenated signal lines |
| Feedback.OnlyShellCallsMatter | tool_gen/pipeline.py:50-51 | calls to tools other than run_shell do not affect the signals |
| Feedback.NoSignalsIff | tool_gen/pipeline.py:53-57 | there are no signal lines exactly when no call is a failing shell call |
| Feedback.SignalsBounded | tool_gen/pipeline.py:58-59 | the kept signals are at most max_chars long, and the placeholder appears exactly when there is no signal |
| Feedback.KeptSignalsNotPlaceholder | tool_gen/pipeline.py:58-59 | real signals can never read as the placeholder |
| Feedback.SignalLinesShape | tool_gen/pipeline.py:55 | every signal line starts with "$ " |
| Feedback.GenerationFeedback | tool_gen/pipeline.py:62-73 | with verifier feedback allowed, the feedback is the verify message; otherwise it is the observable-signals text (also evals/run.py:83-94) |
| Feedback.FeedbackHidesVerdict | tool_gen/pipeline.py:62-73 | without verifier feedback, two results with the same error and trajectory give the same feedback, whatever their verdicts |
| Feedback.RuntimeLineIffError | tool_gen/pipeline.py:65 | the feedback has a runtime-error line exactly when the run recorded an error, and the line carries it |
| Pipeline.ConnectGenerates | tool_gen/pipeline.py:224-233 | the pipeline's generator is generate_tool on the SOTA model with the formatted trajectory |
| Pipeline.ConnectValidates | tool_gen/pipeline.py:240 | the pipeline's validator rejects code whose exec raises, with the exec error |
| Pipeline.ConnectFeedback | tool_gen/pipeline.py:229 | the pipeline's feedback follows allow_verifier_feedback as `GenerationFeedback` does |
| Pipeline.LibraryRunTools | tool_gen/pipeline.py:103-145 | a re-run offers the built-in schemas followed by the library's; library handlers answer their own names, working on the workspace files, and the rest go to the built-ins |
| Pipeline.Attempt | tool_gen/pipeline.py:220-291 | one generation attempt ends, with the library's new state, as `AttemptStep` specifies |
| Pipeline.Validate | tool_gen/pipeline.py:240-261 | a generated tool is validated, installed or given up on as `Validated` specifies |
| Pipeline.RerunWithTool | tool_gen/pipeline.py:266-291 | the re-run keeps the tool on success and removes it on failure, as `Rerun` specifies |
| Pipeline.Install | tool_gen/pipeline.py:250-261 | writes the source, registers the tool and marks it verified, as `Installed` specifies |
| Pipeline.GenerateTools | tool_gen/pipeline.py:217-303 | the attempt loop's result and the library's new state are those of `AttemptsFrom` from attempt 1 |
| Pipeline.RunPipeline | tool_gen/pipeline.py:186-304 | the pipeline's result and the library's new state are those of `PipelineSpec` on the initial run |
| Pipeline.InstallRemoveLeavesNothing | tool_gen/pipeline.py:250-291 | installing a tool and then removing it leaves no newer entry or file than before |
| Pipeline.AttemptsOutcome | tool_gen/pipeline.py:220-304 | a generated tool passed its re-run, validated under its own name, and is installed once with its code; a failure used every attempt and left nothing new; attempts never report "already passing" |
| Pipeline.StepOutcome | tool_gen/pipeline.py:220-291 | one attempt either finishes with an installed, validated tool whose re-run passed, or goes on having left nothing new |
| Pipeline.InstalledHolds | tool_gen/pipeline.py:250-261 | after installation the source file holds the code and exactly one registry entry has the name |
| Pipeline.PassingTaskNeedsNoTool | tool_gen/pipeline.py:204-212 | a task that already passes is reported as already passing, with no generation and no library change |
| Pipeline.PipelineOutcome | tool_gen/pipeline.py:186-304 | "already passing" exactly when the first run passed; a generated tool is validated, installed and made the task pass within max_attempts; a failure used every attempt and left nothing new |
| Pipeline.NoAttemptsFails | tool_gen/pipeline.py:220 | with max_attempts below 1, a failing task fails at once and leaves the library alone |
| EvalRun.ParseConfig | evals/run.py:57-60 | a "+tools" suffix is split off and switches tools on; otherwise the whole spec is the model |
| EvalRun.ParseConfigRoundTrip | evals/run.py:57-60 | parsing "model+tools" gives the model back with tools on |
| EvalRun.CurrentTools | evals/run.py:117-124 | extra tools are offered exactly when the library loads some schema, with the augmented prompt and the loaded handler names |
| EvalRun.RunPrompt | evals/run.py:23-39 | the run's system prompt starts with the fixed augmented text |
| EvalRun.NothingVerifiedOffersNothing | evals/run.py:118-120 | a library without verified tools offers no tools and no prompt |
| EvalRun.OfferedNamesHaveSchemas | evals/run.py:124 | every offered tool name has a loaded schema |
| EvalRun.LoadCurrentTools | evals/run.py:117-124 | reads the library and returns `CurrentTools` of its state |
| EvalRun.FormatRunPrompt | evals/run.py:121-123 | builds the prompt that `RunPrompt` specifies |
| EvalRun.ToolsUsed | evals/run.py:170 | the used library tools are at most one per call, and all are offered names |
| EvalRun.ToolsUsedAppend | evals/run.py:170 | the used tools of a concatenation are the concatenated used tools |
| EvalRun.ToolsUsedExactly | evals/run.py:170 | a name is listed as used exactly when it is offered and some call used it |
| EvalRun.ReuseEvents | evals/run.py:188-196 | at most one reuse event per used tool |
| EvalRun.ReuseEventsSound | evals/run.py:188-196 | each event is a tool this task used that was generated for another task, with this task's verdict |
| EvalRun.ReuseEventsComplete | evals/run.py:188-196 | every used tool that came from a different task gives an event |
| EvalRun.ReuseEventsSnoc | evals/run.py:188-196 | events accumulate one used tool at a time |
| EvalRun.Observe | evals/run.py:165-170 | a plain run has no extra cost, and lists only offered tools as used |
| EvalRun.RunWithLibrary | evals/run.py:165-170 | runs the task with the library's current tools, as `Observe` specifies |
| EvalRun.Attempt | evals/run.py:212-307 | one generation attempt ends, with the library's new state, as `GenAttempt` specifies |
| EvalRun.Validate | evals/run.py:237-264 | a generated tool is validated and installed, or the attempt fails, as `Validated` specifies |
| EvalRun.Rerun | evals/run.py:266-307 | the re-run keeps a tool that made the task pass and removes it otherwise, as `AfterInstall` specifies |
| EvalRun.InstallTool | evals/run.py:258-264 | writes the source and registers the entry, as `Installed` specifies |
| EvalRun.GenerateForTask | evals/run.py:202-311 | the attempts' outcome and the library's new state are those of `AttemptsFrom` from attempt 1 |
| EvalRun.RunOneTask | evals/run.py:161-313 | one task's run, generation and bookkeeping are those of `TaskStep` |
| EvalRun.RecordReuse | evals/run.py:188-196 | appends the task's reuse events to the run metadata |
| EvalRun.RunSelfImproving | evals/run.py:138-328 | the run over all tasks completes with the specified results and metadata, or stops with the exception, leaving the library in the specified state |
| EvalRun.StoppedStays | evals/run.py:138-328 | once a task raises, the run's outcome no longer changes |
| EvalRun.InstallThenRemove | evals/run.py:258-307 | installing a tool and then removing it leaves nothing newer than before |
| EvalRun.InstalledHolds | evals/run.py:258-264 | after installation the file holds the code and exactly one entry has the name |
| EvalRun.AttemptOutcome | evals/run.py:212-307 | a generation error fails the attempt; a success made the task pass with the newly installed tool; a failure left nothing new; an exception leaves the library unchanged |
| EvalRun.InstallRerunOutcome | evals/run.py:258-307 | after installing, the attempt either keeps that very entry with a passing run or leaves nothing newer than before |
| EvalRun.AfterInstallOutcome | evals/run.py:276-307 | a passing re-run keeps the library as it is; a failing one removes the tool |
| EvalRun.AttemptsOutcome | evals/run.py:206-311 | the task reports either the initial result with the accumulated cost and nothing new, or a passing result with a tool installed by one of the attempts |
| EvalRun.TaskStepOutcome | evals/run.py:161-313 | one result is appended; reuse events are appended; a passing task is kept as is; otherwise either nothing is generated or the task's new tool is recorded and its result passes; only a failing task can raise |
| EvalRun.RunOutcome | evals/run.py:161-313 | after n tasks there are n results, each under its own task id, tools are recorded only for tasks that passed, and no reuse event is self-reuse |
| EvalRun.RunResults | evals/run.py:161-313 | after n tasks there are n results, each under its own task id |
| EvalRun.RunGenerated | evals/run.py:198-199 | a task appears among the tool generators only if its result passed |
| EvalRun.RunReuse | evals/run.py:188-196 | no reuse event has a task reusing its own tool |
| EvalRun.ReportedUnderOwnId | evals/run.py:169 | each task's reported result carries that task's id |
| EvalRun.ReportedAttempts | evals/run.py:299-311 | every outcome of the generation attempts is reported under the task's id |
| EvalRun.TaskDataOf | evals/run.py:374-386 | a task's entry copies id, verdict and tool-call count; tools_used only when non-empty; generation_cost only when positive |
| EvalRun.CountPassed | evals/run.py:388-389 | at most as many passes as results |
| EvalRun.SerializeConfig | evals/run.py:365-403 | a configuration's entry has its parsed model and tools flag, one task entry per result of every run, and the pass and run totals |
| EvalRun.SerializeRun | evals/run.py:371-391 | one task entry per result, in order, and the run's pass count |
| EvalRun.PassRateAtMostOne | evals/run.py:393-402 | the total passes never exceed the total task runs, so the pass rate is at most 1 |
| EvalRun.PassesBounded | evals/run.py:393-402 | passes are bounded by runs times tasks per run |
| WorkflowFsm.Dedup | tool_library/generated/build_workflow_state_machine.py:37-38 | keeps exactly the items of the input, each once, in order of first appearance |
| WorkflowFsm.Methods | tool_library/generated/build_workflow_state_machine.py:45 | the method name of each transition, in order |
| WorkflowFsm.GroupByMethod | tool_library/generated/build_workflow_state_machine.py:33-38 | one key per method name in order of first appearance, each mapped to its transitions in order, never to an empty list |
| WorkflowFsm.BranchesOfExact | tool_library/generated/build_workflow_state_machine.py:37-38 | every transition of a method becomes one of its branches, and every branch comes from such a transition |
| WorkflowFsm.BranchesShape | tool_library/generated/build_workflow_state_machine.py:60-63 | the branch section has two lines per transition: the if/elif test on its from-states and the assignment of its to-state |
| WorkflowFsm.BranchesInOrder | tool_library/generated/build_workflow_state_machine.py:59-65 | a method with several transitions tests them in order, with "if" first and "elif" after, then an else that raises |
| WorkflowFsm.BranchesIndented | tool_library/generated/build_workflow_state_machine.py:60-63 | every branch line is indented inside the method |
| WorkflowFsm.EachMethodDefinedOnce | tool_library/generated/build_workflow_state_machine.py:45-53 | every transition's method is defined in the transition blocks, and no transition method is defined twice |
| WorkflowFsm.SourceDefinesEachOnce | tool_library/generated/build_workflow_state_machine.py:32-69 | the whole generated class, header included, defines each method at most once exactly when no transition's method is named `__init__`, `state` or `history`, the names the header defines |
| WorkflowFsm.DefsOnce | tool_library/generated/build_workflow_state_machine.py:45-53 | for distinct keys, each key has a definition line and none repeats |
| WorkflowFsm.DefLinesOfBlocks | tool_library/generated/build_workflow_state_machine.py:45-53 | the definition lines of the method blocks are one "def m(self):" per key, in key order |
| WorkflowFsm.DefLineInjective | tool_library/generated/build_workflow_state_machine.py:53 | different method names give different definition lines |
| WorkflowFsm.DefLinesOfBlock | tool_library/generated/build_workflow_state_machine.py:53-67 | a method's block has exactly one definition line, its own |
| WorkflowFsm.BodyIndented | tool_library/generated/build_workflow_state_machine.py:54-65 | every line of a method body is indented inside the method |
| WorkflowFsm.EmitBlock | tool_library/generated/build_workflow_state_machine.py:45-67 | the lines appended for one method are its specified `Block` |
| WorkflowFsm.AppendBlocks | tool_library/generated/build_workflow_state_machine.py:45-67 | the lines so far are followed by the blocks of all keys, in order |
| WorkflowFsm.BuildWorkflowStateMachine | tool_library/generated/build_workflow_state_machine.py:32-69 | the generated source is the header followed by one block per method, joined with newlines |
| OpenAiKey.CheckKey | evals/check_openai_key.py:10-18 | the key is accepted exactly when it is set and starts with "sk-"; unset, empty and blank keys are refused |
| OpenAiKey.MainExitCode | evals/check_openai_key.py:21-26 | the exit status is 0 exactly when the key check passes, and 1 otherwise |

## Left out

- Printing and logging are not modelled: verbose traces, `_print_pipeline_insights`, `_append_jsonl` benchmark logs, `_serialize_trajectory`, and the `main` entry points with their argparse and docker options (evals/run.py:331-360 and 426-588). They do not affect results, except for the two summary prints that divide by the number of results (see the `Harness.Harness.RunAll` and `EvalRun.RunSelfImproving` lines below).
- The LLM client, `exec`, subprocesses, the command runner, the clock and `json.dumps` are function parameters, or fields of an environment value, and are not modelled.
- Floating-point costs are kept as `real` without rounding. `_generation_cost` is a parameter of the run. Durations and `duration_ms` are recorded as 0.
- `clear_all`, `load_tool_usage_examples` and `load_tool_summaries` are called but not defined in the repository, so they are not part of this model. The call sites are evals/run.py:121, 151 and 220 and tool_gen/pipeline.py:106 and 224; the last is outside any `try`, so `run_pipeline` as written raises at its first generation attempt. `RunSelfImproving` starts from the library as it stands. `Pipeline.Connect` and `EvalRun.Connect` take the usage examples as a parameter and skip the summaries call. `generate_tool` has no `existing_tools` argument.
- `TaskResult` in evals/task.py lacks the `model`, token, `estimated_cost`, `tools_used` and `extra_cost` fields that harness.py and run.py pass or read. The model records results without token fields. It keeps `tools_used` and `extra_cost` in a separate `Scored` value.
- `_make_harness` passes `command_runner`, and tool_gen/pipeline.py passes `system_prompt`, to constructors that do not accept them. The model drops these keywords. The harness keeps its system prompt, and the agent ignores it.
- The wording of the generation prompt template is not modelled; its parts are fields of a `GenerationRequest`. `RUN_PROMPT_HEAD` and the pipeline's prompt heads are fixed strings, but only their role as a prefix is stated.
- Three behaviours of the code are modelled as written:
  - `register_tool` rewrites only the registry and never deletes the previous source file of the name (tool_library/__init__.py:51-63);
  - the registry is rewritten in place by `write_text`, with no atomic replacement (tool_library/__init__.py:17-18);
  - a dispatch that raises leaves no trajectory record, because the record is appended only after the call returns (evals/harness.py:102-111).
- WorkflowFsm.BuildWorkflowStateMachine: the single-transition guard lists `list(set(all_from))`, whose order depends on Python's string hashing. The model lists the distinct from-states in order of first appearance instead.
- Paths.Resolve: `pathlib` normalisation is not modelled. It would collapse repeated `/`, drop `.` components and drop a trailing `/`. The model joins the workspace, `/` and the path as text.
- Strings.Repr: the quote choice and the escapes for backslash, quote, newline, carriage return and tab are modelled; the `\x..` and `\u....` escapes of other non-printable characters are not.
- Toolbox.WriteStaysInWorkspace: the promise is about path text only. A relative path with `..` components resolves outside the workspace, and `Files` keys are not canonical paths, so the lemma does not say the file lands inside the workspace directory.
- Paths.ResolveInjective: holds for the path text the model joins. Under `pathlib`, "a", "a/" and "./a" name the same file, so the real resolution is not injective on such spellings.
- Verifier.FileExistsIff: `Files` holds files only, so an empty directory is not represented. The model's directories are the path prefixes of stored files. For such a directory, `Toolbox.Toolbox.ReadFile` answers with the "No such file or directory" error, where `open` reports "Is a directory"; both are "Error: " texts.
- Verifier.FileContainsIff: `read_text` raises on a directory or on a file that does not decode, and the exception escapes `run_task` (evals/harness.py:140). The model cannot hold undecodable content, and for a directory it reports "not found" instead of raising.
- PyModel.Args: tool arguments are string-valued. List or dict arguments, such as the state and transition lists of `build_workflow_state_machine`, and the `json.dumps` of such values, cannot be expressed; `WorkflowFsm` takes them as typed parameters instead.
- Generator.WordRun: word characters are ASCII letters, digits and `_`. Python's `\w` also matches Unicode letters and digits, so a fence tag holding them is cut short in the model.
- Generator.DropOpeningFence: inherits the ASCII word characters of `Generator.WordRun`.
- Toolbox.Toolbox.Dispatch: the text of the `TypeError` raised for bad keyword arguments is Python's own and is not modelled; `ArgumentError` stands in for it with a fixed wording.
- evals/harness.py:9 imports `AgentResult`, which agent_loop/agent.py does not define, so importing the harness (and evals/run.py and tool_gen/pipeline.py, which import it) fails. The model assumes that import is repaired.
- evals/run.py:15 imports `COST_PER_1K` from evals/task.py, which does not define it, so evals/run.py fails to import even once the `AgentResult` import is repaired, and `_generation_cost` (evals/run.py:63-65) reads a rate table that does not exist. The model assumes this import is repaired too: the rate table is not modelled, and the `genCost` parameter of `EvalRun.Connect` stands in for `_generation_cost`.
- Harness.Harness.RunAll: `_print_summary` (evals/harness.py:178-186) runs unconditionally and computes `100*passed/total`, so `run_all([])` raises ZeroDivisionError after running nothing. The model leaves printing out and returns `[]` for an empty task list.
- EvalRun.RunSelfImproving: the closing summary (evals/run.py:315-318) computes `100*passed/len(results)`, so a run over an empty task list raises ZeroDivisionError. The model returns the completed run with no results and the initial metadata instead.

## Findings

| source | as written | input that shows it | evidently intended | confidence | as-written member | corrected member |
|---|---|---|---|---|---|---|
| evals/harness.py:113-119 | `Agent(...)` is passed `system_prompt=`, which `Agent.__init__` (agent_loop/agent.py:84-91) does not accept, so every task run raises TypeError before the agent starts | any task | the agent is built from the accepted keywords only | not executed | Harness.HarnessCallRejected | Harness.Harness.RunTask |
| evals/harness.py:128-133 | `agent.run` returns a `str`, but the harness reads `.content` from it, so a completed run is caught as an `AttributeError` and recorded as an error with an empty response | any run that returns an answer | the answer string is recorded as the final response, with no error | not executed | Harness.CompletedRunRecordedAsError | Harness.AgentReply |
| tool_gen/pipeline.py:148-157 | `_run_with_library_tools` repeats the harness's reading of `.content` from the `str` that `agent.run` returns, so every completed re-run with library tools is recorded as an error with an empty response | any re-run that returns an answer | the answer string is recorded as the final response, with no error; `Pipeline.LibraryRun` reuses the corrected harness run | not executed | Harness.CompletedRunRecordedAsError | Harness.AgentReply |
| tool_gen/generator.py:175 | `generate_tool` returns `response.input_tokens` and `response.output_tokens`, but the client's `AgentResponse` (agent_loop/agent.py:28-32) has no such fields, so every reply with content raises AttributeError after its code is cleaned; the call at tool_gen/pipeline.py:226 is outside any `try`, and evals/run.py:212-233 counts it as a generation error, so no tool is ever installed | any reply with content | the cleaned code is returned with the reply's token counts | not executed | Generator.GenerateToolAsWritten | Generator.GenerateTool |

All rows apply once the failing imports are repaired: `AgentResult` at evals/harness.py:9 and `COST_PER_1K` at evals/run.py:15. Before that, the harness module, and with it the pipeline and the benchmark run, does not load at all.
