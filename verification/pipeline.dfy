/**
 * The tool-generation pipeline for one task: run the task with the cheap
 * model; if it fails, ask the strong model for a tool up to `max_attempts`
 * times. A valid tool is written to `generated/<name>.py`, registered as
 * verified, and the task is re-run with the library's tools; a tool that does
 * not make the task pass is removed again and its failure fed to the next
 * attempt.
 */
module Pipeline {
  import opened Wrappers
  import opened PyModel
  import opened Paths
  import opened Records
  import opened Generator
  import opened Library
  import opened Validation
  import Feedback
  import Harness
  import Toolbox
  import AgentLoop

  /** Token totals of the generation calls (`gen_costs`). */
  datatype GenCost = GenCost(inputTokens: nat, outputTokens: nat)

  /** The dictionary `run_pipeline` returns, by status; a propagated exception is `PipelineRaised`. */
  datatype PipelineResult =
    | AlreadyPassing(taskId: string, initial: TaskResult)
    | ToolGenerated(taskId: string, initial: TaskResult, retry: TaskResult, toolName: string, toolCode: string,
                    cost: GenCost, attempts: int)
    | GenerationFailed(taskId: string, initial: TaskResult, cost: GenCost, attempts: int)
    | PipelineRaised(message: string)
  {
    /** The `"status"` entry. */
    function Status(): string
      requires !PipelineRaised?
    {
      if AlreadyPassing? then "already_passing" else if ToolGenerated? then "tool_generated" else "generation_failed"
    }

    /** The `"tool_generated"` entry. */
    predicate ToolWasGenerated()
      requires !PipelineRaised?
    {
      ToolGenerated?
    }
  }

  /** The keyword arguments of `run_pipeline`, with their defaults. */
  datatype Config = Config(
    cheapModel: string := "gpt-4o-mini",
    sotaModel: string := "gpt-4o",
    maxAttempts: int := 3,
    verbose: bool := true,
    allowVerifierFeedback: bool := false)

  /**
   * What the pipeline calls, as functions: the cheap-model harness (no extra
   * tools) and the files a task starts from; `generate_tool` with the strong
   * model, given the task prompt, the failed trajectory, the feedback and the
   * retry information; `_validate_tool_code`; `_generation_feedback`; the run
   * of a task with a loaded library (`_run_with_library_tools`); the Python
   * interpreter the library loads with; and the clock giving each attempt's
   * `created_at`. `Connect` wires them to the functions of this model.
   */
  datatype Env = Env(
    harness: Harness.Harness,
    fs: Files,
    generate: (string, seq<ToolCallRecord>, string, Option<RetryInfo>) -> Generation,
    validate: string -> Validation,
    feedback: TaskResult -> string,
    rerun: (EvalTask, LoadResult) -> TaskResult,
    exec: Interpreter,
    clock: nat -> string)

  /** The pipeline's collaborators as this model defines them. */
  function Connect(harness: Harness.Harness, fs: Files, chat: GeneratorChat, exec: Interpreter, dumps: Dumps,
                   call: (PyValue, Files, Args) -> (Files, CallOutcome), usageExamples: seq<(string, string)>,
                   clock: nat -> string, cfg: Config): Env {
    Env(harness, fs,
        (prompt: string, trajectory: seq<ToolCallRecord>, feedback: string, retry: Option<RetryInfo>) =>
          GenerateTool(chat, cfg.sotaModel, prompt, TrajectoryText(trajectory, dumps), feedback, retry),
        (code: string) => ValidateToolCode(exec, code),
        (r: TaskResult) => Feedback.GenerationFeedback(r, cfg.allowVerifierFeedback),
        LibraryRun(harness, cfg.cheapModel, usageExamples, call, fs),
        exec, clock)
  }

  /** In a connected pipeline an attempt asks the strong model about the failed run's trajectory. */
  lemma {:induction false} ConnectGenerates(harness: Harness.Harness, fs: Files, chat: GeneratorChat, exec: Interpreter, dumps: Dumps,
                     call: (PyValue, Files, Args) -> (Files, CallOutcome), usageExamples: seq<(string, string)>,
                     clock: nat -> string, cfg: Config, prompt: string, trajectory: seq<ToolCallRecord>,
                     fb: string, retry: Option<RetryInfo>)
    ensures Connect(harness, fs, chat, exec, dumps, call, usageExamples, clock, cfg).generate(prompt, trajectory, fb, retry)
        == GenerateTool(chat, cfg.sotaModel, prompt, TrajectoryText(trajectory, dumps), fb, retry)
  {
  }

  /** Code whose execution raises is invalid, with the exception's message after the error prefix. */
  lemma {:induction false} ConnectValidates(harness: Harness.Harness, fs: Files, chat: GeneratorChat, exec: Interpreter, dumps: Dumps,
                     call: (PyValue, Files, Args) -> (Files, CallOutcome), usageExamples: seq<(string, string)>,
                     clock: nat -> string, cfg: Config, code: string)
    requires exec(code).ExecRaised?
    ensures Connect(harness, fs, chat, exec, dumps, call, usageExamples, clock, cfg).validate(code)
        == Invalid(EXEC_ERROR_PREFIX + exec(code).message)
  {
  }

  /** The feedback is the verifier's message only when allowed; otherwise it is built from what the agent saw. */
  lemma {:induction false} ConnectFeedback(harness: Harness.Harness, fs: Files, chat: GeneratorChat, exec: Interpreter, dumps: Dumps,
                     call: (PyValue, Files, Args) -> (Files, CallOutcome), usageExamples: seq<(string, string)>,
                     clock: nat -> string, cfg: Config, r: TaskResult)
    ensures var fb := Connect(harness, fs, chat, exec, dumps, call, usageExamples, clock, cfg).feedback(r);
      (cfg.allowVerifierFeedback ==> fb == r.verifyMessage)
      && (!cfg.allowVerifierFeedback ==> Strings.StartsWith(fb, Feedback.FEEDBACK_HEAD))
  {
  }

  /** The registry and files of the library, as values. */
  datatype Store = Store(registry: Option<seq<Entry>>, files: map<string, string>)
  {
    function Tools(): seq<Entry> {
      registry.GetOr([])
    }
  }

  /** The loaded library as extra tools of the harness; `call` runs a loaded tool function. */
  function Extras(loaded: LoadResult, call: (PyValue, Files, Args) -> (Files, CallOutcome)): Harness.ExtraTools {
    Harness.ExtraTools(loaded.schemas,
      map n | n in loaded.handlers :: var h := loaded.handlers[n]; (fs: Files, args: Args) => call(h, fs, args))
  }

  /**
   * `_run_with_library_tools(task, cheap_model, verbose)`: the harness run of
   * the task with the loaded library's schemas after the base ones and its
   * functions as extra handlers. The augmented system prompt is built only
   * when the library has schemas.
   */
  function LibraryRun(h: Harness.Harness, cheapModel: string, usageExamples: seq<(string, string)>,
                      call: (PyValue, Files, Args) -> (Files, CallOutcome), fs: Files): (EvalTask, LoadResult) -> TaskResult {
    (task: EvalTask, loaded: LoadResult) =>
      var prompt := if loaded.schemas != [] then Some(Feedback.AugmentedSystemPrompt(Feedback.PIPELINE_PROMPT_HEAD, usageExamples))
                    else None;
      h.(modelName := cheapModel, extraTools := Some(Extras(loaded, call)), systemPrompt := prompt).TaskRun(task, fs)
  }

  /**
   * The re-run offers the base schemas followed by the library's, sends every
   * name the library loaded a function for to that function (its exceptions
   * becoming `"Error: ..."` results), and every other name to the base toolbox.
   */
  lemma {:induction false} LibraryRunTools(h: Harness.Harness, cheapModel: string, usageExamples: seq<(string, string)>,
                        call: (PyValue, Files, Args) -> (Files, CallOutcome), loaded: LoadResult, ws: string,
                        fs: Files, name: string, args: Args)
    ensures var h' := h.(modelName := cheapModel, extraTools := Some(Extras(loaded, call)));
      h'.Tools(ws).0 == Toolbox.TOOL_SCHEMAS + loaded.schemas
      && (name in loaded.handlers ==>
            h'.Tools(ws).1(fs, name, args)
              == (call(loaded.handlers[name], fs, args).0, Returned(Harness.HandlerText(call(loaded.handlers[name], fs, args).1))))
      && (name !in loaded.handlers ==>
            h'.Tools(ws).1(fs, name, args) == AgentLoop.BuiltinDispatch(Toolbox.Toolbox(ws, h.shell, h.writeError))(fs, name, args))
  {
  }

  /** `_run_with_library_tools` on the library state `st`. */
  function RetryRun(env: Env, task: EvalTask, st: Store): TaskResult {
    env.rerun(task, Loaded(st.Tools(), st.files, env.exec))
  }

  /** The registry entry of a tool generated for `task` in attempt `attempt`. */
  function NewEntry(env: Env, cfg: Config, task: EvalTask, name: string, attempt: nat): Entry {
    Entry(name, SourcePath(name), task.id, cfg.sotaModel, true, cfg.cheapModel, env.clock(attempt))
  }

  /** The store after writing and registering a valid tool. */
  function Installed(env: Env, cfg: Config, task: EvalTask, st: Store, name: string, code: string, attempt: nat): Store {
    Store(Some(Without(st.Tools(), name) + [NewEntry(env, cfg, task, name, attempt)]), st.files[SourcePath(name) := code])
  }

  /** The store after `remove_tool(name)`. */
  function Removed(st: Store, name: string): Store {
    Store(Some(Without(st.Tools(), name)), st.files - {SourcePath(name)})
  }

  /** How one attempt ends: with the pipeline's result, or by handing on to the next attempt. */
  datatype StepResult =
    | Done(result: PipelineResult, store: Store)
    | Next(retry: Option<RetryInfo>, cost: GenCost, store: Store)

  /** One attempt: generate, validate, install, re-run, and on failure remove the tool again. */
  function AttemptStep(env: Env, cfg: Config, task: EvalTask, initial: TaskResult, attempt: nat,
                       retry: Option<RetryInfo>, cost: GenCost, st: Store): StepResult
  {
    match env.generate(task.prompt, initial.trajectory, env.feedback(initial), retry)
    case GenerationRaised(m) => Done(PipelineRaised(m), st)
    case Generated(code, i, o) =>
      Validated(env, cfg, task, initial, attempt, retry, GenCost(cost.inputTokens + i, cost.outputTokens + o), code, st)
  }

  /** The attempt after the generator returned `code`; `cost` already counts this generation. */
  function Validated(env: Env, cfg: Config, task: EvalTask, initial: TaskResult, attempt: nat,
                     retry: Option<RetryInfo>, cost: GenCost, code: string, st: Store): StepResult
  {
    match env.validate(code)
    case ValidationRaised(m) => Done(PipelineRaised(m), st)
    case Invalid(_) => Next(retry, cost, st)
    case Valid(name) => Rerun(env, task, initial, attempt, cost, name, code, Installed(env, cfg, task, st, name, code, attempt))
  }

  /** The re-run with the tool `name` installed in `st`; a failing re-run removes the tool again. */
  function Rerun(env: Env, task: EvalTask, initial: TaskResult, attempt: nat, cost: GenCost,
                 name: string, code: string, st: Store): StepResult
  {
    var again := RetryRun(env, task, st);
    if again.passed then Done(ToolGenerated(task.id, initial, again, name, code, cost, attempt), st)
    else Next(Some(RetryInfo(name, env.feedback(again))), cost, Removed(st, name))
  }

  /** The attempts from `attempt` on, with the retry information and costs so far. */
  function AttemptsFrom(env: Env, cfg: Config, task: EvalTask, initial: TaskResult, attempt: nat,
                        retry: Option<RetryInfo>, cost: GenCost, st: Store): (PipelineResult, Store)
    decreases cfg.maxAttempts + 1 - attempt
  {
    if attempt > cfg.maxAttempts then (GenerationFailed(task.id, initial, cost, cfg.maxAttempts), st)
    else match AttemptStep(env, cfg, task, initial, attempt, retry, cost, st)
      case Done(r, st') => (r, st')
      case Next(retry', cost', st') => AttemptsFrom(env, cfg, task, initial, attempt + 1, retry', cost', st')
  }

  /** `run_pipeline` once the cheap model's run gave `initial`, on the library's state as values. */
  function PipelineSpec(env: Env, cfg: Config, task: EvalTask, initial: TaskResult, st: Store): (PipelineResult, Store) {
    if initial.passed then (AlreadyPassing(task.id, initial), st)
    else AttemptsFrom(env, cfg, task, initial, 1, None, GenCost(0, 0), st)
  }

  /**
   * One generation attempt (`attempt` counts from 1): generate, validate,
   * install, re-run, and on failure remove the tool again. `done` holds the
   * pipeline's result when the attempt ends it.
   */
  method Attempt(lib: Library, env: Env, cfg: Config, task: EvalTask, initial: TaskResult,
                 attempt: nat, retry: Option<RetryInfo>, cost: GenCost)
    returns (done: Option<PipelineResult>, retry': Option<RetryInfo>, cost': GenCost)
    modifies lib
    ensures AttemptStep(env, cfg, task, initial, attempt, retry, cost, Store(old(lib.registry), old(lib.files)))
      == if done.Some? then Done(done.value, Store(lib.registry, lib.files))
         else Next(retry', cost', Store(lib.registry, lib.files))
  {
    var generation := env.generate(task.prompt, initial.trajectory, env.feedback(initial), retry);
    if generation.GenerationRaised? {
      return Some(PipelineRaised(generation.message)), retry, cost;
    }
    cost' := GenCost(cost.inputTokens + generation.inputTokens, cost.outputTokens + generation.outputTokens);
    done, retry' := Validate(lib, env, cfg, task, initial, attempt, retry, cost', generation.code);
  }

  /** Validates the generated code and, when valid, installs the tool and re-runs the task. */
  method Validate(lib: Library, env: Env, cfg: Config, task: EvalTask, initial: TaskResult, attempt: nat,
                  retry: Option<RetryInfo>, cost: GenCost, code: string)
    returns (done: Option<PipelineResult>, retry': Option<RetryInfo>)
    modifies lib
    ensures Validated(env, cfg, task, initial, attempt, retry, cost, code, Store(old(lib.registry), old(lib.files)))
      == if done.Some? then Done(done.value, Store(lib.registry, lib.files))
         else Next(retry', cost, Store(lib.registry, lib.files))
  {
    var verdict := env.validate(code);
    if verdict.ValidationRaised? {
      return Some(PipelineRaised(verdict.message)), retry;
    }
    if verdict.Invalid? {
      return None, retry;
    }
    var name := verdict.name;
    Install(lib, env, cfg, task, name, code, attempt);
    done, retry' := RerunWithTool(lib, env, task, initial, attempt, cost, name, code);
  }

  /** Re-runs the task with the library's tools, removing the tool `name` again when the re-run fails. */
  method RerunWithTool(lib: Library, env: Env, task: EvalTask, initial: TaskResult, attempt: nat, cost: GenCost,
                       name: string, code: string)
    returns (done: Option<PipelineResult>, retry': Option<RetryInfo>)
    modifies lib
    ensures Rerun(env, task, initial, attempt, cost, name, code, Store(old(lib.registry), old(lib.files)))
      == if done.Some? then Done(done.value, Store(lib.registry, lib.files))
         else Next(retry', cost, Store(lib.registry, lib.files))
  {
    var loaded := lib.LoadTools(env.exec);
    var again := env.rerun(task, loaded);
    if again.passed {
      return Some(ToolGenerated(task.id, initial, again, name, code, cost, attempt)), None;
    }
    retry' := Some(RetryInfo(name, env.feedback(again)));
    lib.Remove(name);
    done := None;
  }

  /** Writes `generated/<name>.py` and registers it as verified with the cheap model. */
  method Install(lib: Library, env: Env, cfg: Config, task: EvalTask, name: string, code: string, attempt: nat)
    modifies lib
    ensures Store(lib.registry, lib.files) == Installed(env, cfg, task, Store(old(lib.registry), old(lib.files)), name, code, attempt)
  {
    lib.files := lib.files[SourcePath(name) := code];
    lib.Register(name, SourcePath(name), task.id, cfg.sotaModel, env.clock(attempt), true, cfg.cheapModel);
  }

  /** The generation attempts of `run_pipeline`, after the cheap model failed. */
  method GenerateTools(lib: Library, env: Env, cfg: Config, task: EvalTask, initial: TaskResult) returns (r: PipelineResult)
    modifies lib
    ensures (r, Store(lib.registry, lib.files))
      == AttemptsFrom(env, cfg, task, initial, 1, None, GenCost(0, 0), Store(old(lib.registry), old(lib.files)))
  {
    ghost var spec := AttemptsFrom(env, cfg, task, initial, 1, None, GenCost(0, 0), Store(lib.registry, lib.files));
    var cost := GenCost(0, 0);
    var retry: Option<RetryInfo> := None;
    var attempt: nat := 1;
    while attempt <= cfg.maxAttempts
      invariant AttemptsFrom(env, cfg, task, initial, attempt, retry, cost, Store(lib.registry, lib.files)) == spec
      decreases cfg.maxAttempts + 1 - attempt
    {
      var done;
      ghost var before := Store(lib.registry, lib.files);
      ghost var (r0, c0) := (retry, cost);
      done, retry, cost := Attempt(lib, env, cfg, task, initial, attempt, retry, cost);
      assert AttemptsFrom(env, cfg, task, initial, attempt, r0, c0, before)
        == match AttemptStep(env, cfg, task, initial, attempt, r0, c0, before)
           case Done(r, st') => (r, st')
           case Next(retry', cost', st') => AttemptsFrom(env, cfg, task, initial, attempt + 1, retry', cost', st');
      if done.Some? {
        return done.value;
      }
      attempt := attempt + 1;
    }
    r := GenerationFailed(task.id, initial, cost, cfg.maxAttempts);
  }

  /** `run_pipeline(task, ...)` against the library `lib`. */
  method RunPipeline(lib: Library, env: Env, task: EvalTask, cfg: Config := Config()) returns (r: PipelineResult)
    modifies lib
    ensures (r, Store(lib.registry, lib.files))
      == PipelineSpec(env, cfg, task, env.harness.TaskRun(task, env.fs), Store(old(lib.registry), old(lib.files)))
  {
    var initial := env.harness.RunTask(task, env.fs);
    if initial.passed {
      return AlreadyPassing(task.id, initial);
    }
    r := GenerateTools(lib, env, cfg, task, initial);
  }

  /** A library state `st'` holds nothing `st` did not: same or fewer entries, and unchanged files. */
  predicate NoNewerThan(st': Store, st: Store) {
    (forall e :: e in st'.Tools() ==> e in st.Tools())
    && (forall p :: p in st'.files ==> p in st.files && st'.files[p] == st.files[p])
  }

  /** Installing then removing a tool leaves nothing new behind. */
  lemma {:induction false} InstallRemoveLeavesNothing(env: Env, cfg: Config, task: EvalTask, st: Store, name: string, code: string, attempt: nat)
    ensures NoNewerThan(Removed(Installed(env, cfg, task, st, name, code, attempt), name), st)
  {
  }

  lemma {:induction false} NoNewerThanTrans(a: Store, b: Store, c: Store)
    requires NoNewerThan(a, b) && NoNewerThan(b, c)
    ensures NoNewerThan(a, c)
  {
  }

  /**
   * What the attempts from `attempt` on can end with. A generated tool is one
   * that validated under its schema's name, is stored as `generated/<name>.py`
   * and registered once, verified with the cheap model, and made the re-run
   * pass, in an attempt within the bound. Giving up reports `max_attempts` and
   * leaves no tool or file that was not there before.
   */
  lemma {:induction false} AttemptsOutcome(env: Env, cfg: Config, task: EvalTask, initial: TaskResult, attempt: nat,
                                           retry: Option<RetryInfo>, cost: GenCost, st: Store)
    requires attempt >= 1
    ensures var (r, st') := AttemptsFrom(env, cfg, task, initial, attempt, retry, cost, st);
      (r.ToolGenerated? ==>
        attempt <= r.attempts <= cfg.maxAttempts && r.retry.passed && r.taskId == task.id && r.initial == initial
        && env.validate(r.toolCode) == Valid(r.toolName)
        && SourcePath(r.toolName) in st'.files && st'.files[SourcePath(r.toolName)] == r.toolCode
        && Named(st'.Tools(), r.toolName) == [NewEntry(env, cfg, task, r.toolName, r.attempts)]
        && r.retry == RetryRun(env, task, st'))
      && (r.GenerationFailed? ==> r.attempts == cfg.maxAttempts && r.taskId == task.id && r.initial == initial
                                   && NoNewerThan(st', st))
      && !r.AlreadyPassing?
    decreases cfg.maxAttempts + 1 - attempt
  {
    if attempt <= cfg.maxAttempts {
      StepOutcome(env, cfg, task, initial, attempt, retry, cost, st);
      match AttemptStep(env, cfg, task, initial, attempt, retry, cost, st)
      case Done(r, st') =>
      case Next(retry', cost', st') =>
        AttemptsOutcome(env, cfg, task, initial, attempt + 1, retry', cost', st');
        var (r, fin) := AttemptsFrom(env, cfg, task, initial, attempt + 1, retry', cost', st');
        if r.GenerationFailed? {
          NoNewerThanTrans(fin, st', st);
        }
    }
  }

  /** What a single attempt can end with; handing on never leaves anything new in the library. */
  lemma {:induction false} StepOutcome(env: Env, cfg: Config, task: EvalTask, initial: TaskResult, attempt: nat,
                    retry: Option<RetryInfo>, cost: GenCost, st: Store)
    ensures match AttemptStep(env, cfg, task, initial, attempt, retry, cost, st)
      case Done(r, st') =>
        !r.AlreadyPassing? && !r.GenerationFailed?
        && (r.ToolGenerated? ==>
          r.attempts == attempt && r.retry.passed && r.taskId == task.id && r.initial == initial
          && env.validate(r.toolCode) == Valid(r.toolName)
          && SourcePath(r.toolName) in st'.files && st'.files[SourcePath(r.toolName)] == r.toolCode
          && Named(st'.Tools(), r.toolName) == [NewEntry(env, cfg, task, r.toolName, r.attempts)]
          && r.retry == RetryRun(env, task, st'))
      case Next(_, _, st') => NoNewerThan(st', st)
  {
    match env.generate(task.prompt, initial.trajectory, env.feedback(initial), retry)
    case GenerationRaised(m) =>
    case Generated(code, i, o) =>
      match env.validate(code)
      case ValidationRaised(m) =>
      case Invalid(_) =>
      case Valid(name) =>
        InstalledHolds(env, cfg, task, st, name, code, attempt);
        InstallRemoveLeavesNothing(env, cfg, task, st, name, code, attempt);
  }

  /** After installing, the tool's file holds the code and the registry names it exactly once, with the new entry. */
  lemma {:induction false} InstalledHolds(env: Env, cfg: Config, task: EvalTask, st: Store, name: string, code: string, attempt: nat)
    ensures var st' := Installed(env, cfg, task, st, name, code, attempt);
      SourcePath(name) in st'.files && st'.files[SourcePath(name)] == code
      && Named(st'.Tools(), name) == [NewEntry(env, cfg, task, name, attempt)]
  {
    RegisterLastWriteWins(st.Tools(), NewEntry(env, cfg, task, name, attempt));
  }

  /** A task the cheap model already passes gets no tool and leaves the library as it was. */
  lemma {:induction false} PassingTaskNeedsNoTool(env: Env, cfg: Config, task: EvalTask, initial: TaskResult, st: Store)
    requires initial.passed
    ensures PipelineSpec(env, cfg, task, initial, st) == (AlreadyPassing(task.id, initial), st)
    ensures PipelineSpec(env, cfg, task, initial, st).0.Status() == "already_passing"
    ensures !PipelineSpec(env, cfg, task, initial, st).0.ToolWasGenerated()
  {
  }

  /**
   * The outcomes of a whole pipeline run: `tool_generated` only after the
   * initial run failed and the re-run with the new tool passed, within
   * `max_attempts` attempts; `generation_failed` reports `max_attempts` and
   * leaves the library with nothing new.
   */
  lemma {:induction false} PipelineOutcome(env: Env, cfg: Config, task: EvalTask, initial: TaskResult, st: Store)
    ensures var (r, st') := PipelineSpec(env, cfg, task, initial, st);
      (r.AlreadyPassing? <==> initial.passed)
      && (r.ToolGenerated? ==>
            !r.initial.passed && r.retry.passed && 1 <= r.attempts <= cfg.maxAttempts
            && env.validate(r.toolCode) == Valid(r.toolName)
            && SourcePath(r.toolName) in st'.files && st'.files[SourcePath(r.toolName)] == r.toolCode
            && Named(st'.Tools(), r.toolName) == [NewEntry(env, cfg, task, r.toolName, r.attempts)])
      && (r.GenerationFailed? ==>
            !r.initial.passed && r.attempts == cfg.maxAttempts && NoNewerThan(st', st))
  {
    if !initial.passed {
      AttemptsOutcome(env, cfg, task, initial, 1, None, GenCost(0, 0), st);
    }
  }

  /** With no attempts allowed, a failing task ends as `generation_failed` with zero cost. */
  lemma {:induction false} NoAttemptsFails(env: Env, cfg: Config, task: EvalTask, initial: TaskResult, st: Store)
    requires cfg.maxAttempts < 1 && !initial.passed
    ensures PipelineSpec(env, cfg, task, initial, st) == (GenerationFailed(task.id, initial, GenCost(0, 0), cfg.maxAttempts), st)
  {
  }
}
