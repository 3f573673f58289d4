/**
 * The self-improving evaluation run: every task is first run by the cheap
 * model with the tools the library currently holds; a failing task asks the
 * strong model for a tool up to `max_gen_attempts` times, installs each valid
 * tool and re-runs the task, keeping the tool only when the re-run passes.
 * Tools stay in the library for the later tasks of the run, and every use of
 * a tool generated for another task is logged as cross-task reuse. Also the
 * configuration-name parsing and the counters of the results summary.
 */
module EvalRun {
  import opened Wrappers
  import opened Strings
  import opened PyModel
  import opened Paths
  import opened Records
  import opened Generator
  import opened Library
  import opened Validation
  import Feedback
  import Harness
  import Pipeline

  // ---------------------------------------------------------------------
  // Configuration names

  const TOOLS_SUFFIX: string := "+tools"

  /** `_parse_config(spec)`: a trailing `+tools` asks for the tool library and is cut off the model name. */
  function ParseConfig(spec: string): (r: (string, bool))
    ensures r.1 <==> EndsWith(spec, TOOLS_SUFFIX)
    ensures r.1 ==> r.0 + TOOLS_SUFFIX == spec
    ensures !r.1 ==> r.0 == spec
  {
    if EndsWith(spec, TOOLS_SUFFIX) then
      var model := spec[..|spec| - |TOOLS_SUFFIX|];
      assert model + spec[|spec| - |TOOLS_SUFFIX|..] == spec;
      (model, true)
    else (spec, false)
  }

  /** Appending `+tools` to a model name and parsing it back gives the model name with tools on. */
  lemma {:induction false} ParseConfigRoundTrip(model: string)
    ensures ParseConfig(model + TOOLS_SUFFIX) == (model, true)
  {
    var spec := model + TOOLS_SUFFIX;
    assert spec[|spec| - |TOOLS_SUFFIX|..] == TOOLS_SUFFIX;
    assert spec[..|spec| - |TOOLS_SUFFIX|] == model;
  }

  // ---------------------------------------------------------------------
  // The tools offered to a run

  /** What `_load_current_tools` returns: the extra tools, the system prompt, and the names of the loaded functions. */
  datatype Available = Available(extra: Option<LoadResult>, prompt: Option<string>, names: set<string>)

  /**
   * The library's current tools. With no loadable schema the run gets no
   * extra tools, the default system prompt and no tool names; otherwise the
   * loaded tools, the augmented system prompt `prompt` and the names of the
   * loaded functions.
   */
  function CurrentTools(st: Pipeline.Store, exec: Interpreter, prompt: string): (a: Available)
    ensures a.extra.Some? ==> a.extra.value == Loaded(st.Tools(), st.files, exec)
                              && a.extra.value.schemas != [] && a.prompt == Some(prompt)
                              && a.names == a.extra.value.handlers.Keys
    ensures a.extra.None? ==> Loaded(st.Tools(), st.files, exec).schemas == [] && a.prompt.None? && a.names == {}
  {
    var loaded := Loaded(st.Tools(), st.files, exec);
    if loaded.schemas == [] then Available(None, None, {})
    else Available(Some(loaded), Some(prompt), loaded.handlers.Keys)
  }

  /** `AUGMENTED_SYSTEM_PROMPT.format(tool_examples=...)` with the library's usage examples. */
  function RunPrompt(examples: seq<(string, string)>): (prompt: string)
    ensures StartsWith(prompt, Feedback.RUN_PROMPT_HEAD)
  {
    Feedback.AugmentedSystemPrompt(Feedback.RUN_PROMPT_HEAD, examples)
  }

  /** A library with no verified entry offers nothing. */
  lemma {:induction false} NothingVerifiedOffersNothing(st: Pipeline.Store, exec: Interpreter, prompt: string)
    requires CountVerified(st.Tools()) == 0
    ensures CurrentTools(st, exec, prompt) == Available(None, None, {})
  {
    LoadBounds(st.Tools(), st.files, exec);
  }

  /** Every tool name offered to a run is the function name of one of the offered schemas. */
  lemma {:induction false} OfferedNamesHaveSchemas(st: Pipeline.Store, exec: Interpreter, prompt: string)
    ensures var a := CurrentTools(st, exec, prompt);
      forall n :: n in a.names ==> a.extra.Some? && exists s :: s in a.extra.value.schemas && SubscriptName(s) == Some(Str(n))
  {
    HandlersHaveSchemas(st.Tools(), st.files, exec);
  }

  /** `_load_current_tools()` against the library `lib`, given the prompt its examples make. */
  method LoadCurrentTools(lib: Library, exec: Interpreter, prompt: string) returns (a: Available)
    ensures a == CurrentTools(Pipeline.Store(lib.registry, lib.files), exec, prompt)
  {
    var loaded := lib.LoadTools(exec);
    if loaded.schemas == [] {
      return Available(None, None, {});
    }
    a := Available(Some(loaded), Some(prompt), loaded.handlers.Keys);
  }

  /** The augmented prompt, as `_load_current_tools` formats it. */
  method FormatRunPrompt(examples: seq<(string, string)>) returns (prompt: string)
    ensures prompt == RunPrompt(examples)
  {
    var section := Feedback.BuildToolExamplesSection(examples);
    prompt := Feedback.RUN_PROMPT_HEAD + section;
  }

  // ---------------------------------------------------------------------
  // Tool use and cross-task reuse

  /** `[tc.name for tc in trajectory if tc.name in names]`. */
  function ToolsUsed(trajectory: seq<ToolCallRecord>, names: set<string>): (used: seq<string>)
    ensures |used| <= |trajectory|
    ensures forall n :: n in used ==> n in names
  {
    if trajectory == [] then []
    else
      var last := trajectory[|trajectory| - 1];
      ToolsUsed(trajectory[..|trajectory| - 1], names) + (if last.name in names then [last.name] else [])
  }

  /** Filtering a trajectory in two pieces gives the two filtered pieces in order. */
  lemma {:induction false} ToolsUsedAppend(a: seq<ToolCallRecord>, b: seq<ToolCallRecord>, names: set<string>)
    ensures ToolsUsed(a + b, names) == ToolsUsed(a, names) + ToolsUsed(b, names)
    decreases |b|
  {
    if b == [] {
      assert a + b == a;
    } else {
      var b' := b[..|b| - 1];
      assert (a + b)[..|a + b| - 1] == a + b';
      ToolsUsedAppend(a, b', names);
    }
  }

  /** Every call of an offered tool shows up in `tools_used`, and nothing else does. */
  lemma {:induction false} ToolsUsedExactly(trajectory: seq<ToolCallRecord>, names: set<string>, n: string)
    ensures n in ToolsUsed(trajectory, names) <==> n in names && n in Names(trajectory)
  {
    if trajectory != [] {
      var p := trajectory[..|trajectory| - 1];
      ToolsUsedExactly(p, names, n);
      NamesSnoc(p, trajectory[|trajectory| - 1]);
      assert p + [trajectory[|trajectory| - 1]] == trajectory;
    }
  }

  lemma {:induction false} NamesSnoc(p: seq<ToolCallRecord>, tc: ToolCallRecord)
    ensures Names(p + [tc]) == Names(p) + [tc.name]
  {
    var l := Names(p + [tc]);
    assert |l| == |Names(p) + [tc.name]|;
    forall k | 0 <= k < |l| ensures l[k] == (Names(p) + [tc.name])[k] {
      if k < |p| {
        assert (p + [tc])[k] == p[k];
      }
    }
  }

  /** One `meta["cross_task_reuse"]` entry. */
  datatype ReuseEvent = ReuseEvent(taskId: string, toolName: string, sourceTask: string, passed: bool)

  /**
   * The event for using `tool` in task `taskId`: only when the tool's recorded
   * source is a non-empty task id (an empty one is falsy) other than `taskId`.
   */
  function ReuseOf(taskId: string, tool: string, sources: map<string, string>, passed: bool): seq<ReuseEvent> {
    if tool in sources && sources[tool] != "" && sources[tool] != taskId
    then [ReuseEvent(taskId, tool, sources[tool], passed)]
    else []
  }

  /** The reuse events of one task run, one per qualifying use, in the order of `tools_used`. */
  function ReuseEvents(taskId: string, used: seq<string>, sources: map<string, string>, passed: bool): (evs: seq<ReuseEvent>)
    ensures |evs| <= |used|
  {
    if used == [] then []
    else ReuseEvents(taskId, used[..|used| - 1], sources, passed) + ReuseOf(taskId, used[|used| - 1], sources, passed)
  }

  /** Every reuse event is for this task, names a used tool with a recorded source, and that source is another task. */
  lemma {:induction false} ReuseEventsSound(taskId: string, used: seq<string>, sources: map<string, string>, passed: bool)
    ensures forall e :: e in ReuseEvents(taskId, used, sources, passed) ==>
      e.taskId == taskId && e.passed == passed && e.toolName in used && e.toolName in sources
      && e.sourceTask == sources[e.toolName] && e.sourceTask != taskId
  {
    if used != [] {
      var p := used[..|used| - 1];
      ReuseEventsSound(taskId, p, sources, passed);
      assert forall x :: x in p ==> x in used;
    }
  }

  /** Every use of a tool whose recorded source is another, non-empty task id gives a reuse event. */
  lemma {:induction false} ReuseEventsComplete(taskId: string, used: seq<string>, sources: map<string, string>, passed: bool, k: nat)
    requires k < |used| && used[k] in sources && sources[used[k]] != "" && sources[used[k]] != taskId
    ensures ReuseEvent(taskId, used[k], sources[used[k]], passed) in ReuseEvents(taskId, used, sources, passed)
  {
    var p := used[..|used| - 1];
    if k < |p| {
      ReuseEventsComplete(taskId, p, sources, passed, k);
    }
  }

  /** Handling one more used tool appends its event, if any. */
  lemma {:induction false} ReuseEventsSnoc(taskId: string, used: seq<string>, k: nat, sources: map<string, string>, passed: bool)
    requires k < |used|
    ensures ReuseEvents(taskId, used[..k + 1], sources, passed)
            == ReuseEvents(taskId, used[..k], sources, passed) + ReuseOf(taskId, used[k], sources, passed)
  {
    assert used[..k + 1][..k] == used[..k];
  }

  // ---------------------------------------------------------------------
  // The run's records and collaborators

  /** A task result with the two fields the run attaches to it: `tools_used` and `extra_cost`. */
  datatype Scored = Scored(result: TaskResult, toolsUsed: seq<string>, extraCost: real)

  /** The `meta` dictionary of a run. */
  datatype Meta = Meta(
    toolsGenerated: map<string, string>,
    toolSources: map<string, string>,
    crossTaskReuse: seq<ReuseEvent>,
    totalGenCost: real)

  const NO_META: Meta := Meta(map[], map[], [], 0.0)

  /** The models and the attempt bound of `_run_self_improving`. */
  datatype Config = Config(cheapModel: string, sotaModel: string, maxGenAttempts: int := 3)

  /**
   * What the run calls: the cheap-model harness run of a task with the given
   * extra tools and system prompt; `generate_tool` with the strong model,
   * given the task prompt, the failed trajectory, the feedback and the retry
   * information; `_validate_tool_code`; `_generation_feedback`; the cost of a
   * generation from its token counts; the interpreter the library loads
   * with; the augmented system prompt made from the usage examples of the
   * library's tools; and the clock giving the `created_at` of the tool
   * generated for the i-th task in an attempt.
   */
  datatype Env = Env(
    run: (EvalTask, Option<LoadResult>, Option<string>) -> TaskResult,
    generate: (string, seq<ToolCallRecord>, string, Option<RetryInfo>) -> Generation,
    validate: string -> Validation,
    feedback: TaskResult -> string,
    genCost: (nat, nat) -> real,
    exec: Interpreter,
    prompt: string,
    clock: (nat, nat) -> string)

  /** The run's collaborators as this model defines them (`_make_harness` for the runs). */
  function Connect(h: Harness.Harness, fs: Files, chat: GeneratorChat, exec: Interpreter, dumps: Dumps,
                   call: (PyValue, Files, Args) -> (Files, CallOutcome), examples: seq<(string, string)>,
                   genCost: (nat, nat) -> real, clock: (nat, nat) -> string, cfg: Config,
                   allowVerifierFeedback: bool): Env {
    Env(CheapRun(h, fs, call, cfg),
        (p: string, trajectory: seq<ToolCallRecord>, fb: string, retry: Option<RetryInfo>) =>
          GenerateTool(chat, cfg.sotaModel, p, TrajectoryText(trajectory, dumps), fb, retry),
        (code: string) => ValidateToolCode(exec, code),
        (r: TaskResult) => Feedback.GenerationFeedback(r, allowVerifierFeedback),
        genCost, exec, RunPrompt(examples), clock)
  }

  /** `_make_harness(cheap_model, extra_tools, system_prompt).run_task(task)`. */
  function CheapRun(h: Harness.Harness, fs: Files, call: (PyValue, Files, Args) -> (Files, CallOutcome), cfg: Config)
    : (EvalTask, Option<LoadResult>, Option<string>) -> TaskResult
  {
    (task: EvalTask, extra: Option<LoadResult>, prompt: Option<string>) =>
      var extraTools := if extra.Some? then Some(Pipeline.Extras(extra.value, call)) else None;
      h.(modelName := cfg.cheapModel, extraTools := extraTools, systemPrompt := prompt).TaskRun(task, fs)
  }

  /** The run of `task` with the library's current tools, and the offered tools it called. */
  function Observe(env: Env, task: EvalTask, st: Pipeline.Store): (s: Scored)
    ensures s.extraCost == 0.0
    ensures forall n :: n in s.toolsUsed ==> n in CurrentTools(st, env.exec, env.prompt).names
  {
    var a := CurrentTools(st, env.exec, env.prompt);
    var r := env.run(task, a.extra, a.prompt);
    Scored(r, ToolsUsed(r.trajectory, a.names), 0.0)
  }

  /** Loads the current tools, builds the harness with them and runs the task. */
  method RunWithLibrary(lib: Library, env: Env, task: EvalTask) returns (s: Scored)
    ensures s == Observe(env, task, Pipeline.Store(lib.registry, lib.files))
  {
    var a := LoadCurrentTools(lib, env.exec, env.prompt);
    var r := env.run(task, a.extra, a.prompt);
    s := Scored(r, ToolsUsed(r.trajectory, a.names), 0.0);
  }

  // ---------------------------------------------------------------------
  // One task's generation attempts, as values

  /** The registry entry of the tool generated for the `index`-th task in attempt `attempt`. */
  function ToolEntry(env: Env, cfg: Config, task: EvalTask, index: nat, attempt: nat, name: string): Entry {
    Entry(name, SourcePath(name), task.id, cfg.sotaModel, true, cfg.cheapModel, env.clock(index, attempt))
  }

  /** The store after writing the tool's source and registering `e`. */
  function Installed(st: Pipeline.Store, e: Entry, code: string): Pipeline.Store {
    Pipeline.Store(Some(Without(st.Tools(), e.name) + [e]), st.files[e.file := code])
  }

  /** How one attempt ends. */
  datatype AttemptEnd =
    | Succeeded(retry: Scored, toolName: string, cost: real, store: Pipeline.Store)
    | Failed(retryInfo: Option<RetryInfo>, cost: real, store: Pipeline.Store)
    | AttemptRaised(message: string, store: Pipeline.Store)

  /**
   * One attempt: an exception from the generator uses up the attempt; an
   * invalid tool adds its cost and keeps the retry information; validation
   * runs outside the `try`, so its exception ends the whole run; a valid tool
   * is written, registered and the task re-run, and is removed again when
   * the re-run fails.
   */
  function GenAttempt(env: Env, cfg: Config, task: EvalTask, index: nat, initial: TaskResult, attempt: nat,
                      retry: Option<RetryInfo>, cost: real, st: Pipeline.Store): AttemptEnd
  {
    match env.generate(task.prompt, initial.trajectory, env.feedback(initial), retry)
    case GenerationRaised(_) => Failed(retry, cost, st)
    case Generated(code, i, o) => Validated(env, cfg, task, index, attempt, retry, cost + env.genCost(i, o), code, st)
  }

  /** The attempt after the generator returned `code`, the cost already including this generation. */
  function Validated(env: Env, cfg: Config, task: EvalTask, index: nat, attempt: nat,
                     retry: Option<RetryInfo>, cost: real, code: string, st: Pipeline.Store): AttemptEnd
  {
    match env.validate(code)
    case ValidationRaised(m) => AttemptRaised(m, st)
    case Invalid(_) => Failed(retry, cost, st)
    case Valid(name) => AfterInstall(env, task, name, cost, Installed(st, ToolEntry(env, cfg, task, index, attempt, name), code))
  }

  /** The re-run with the newly installed tool `name`, and what follows from it. */
  function AfterInstall(env: Env, task: EvalTask, name: string, cost: real, st: Pipeline.Store): AttemptEnd {
    var again := Observe(env, task, st);
    if again.result.passed then Succeeded(again.(extraCost := cost), name, cost, st)
    else Failed(Some(RetryInfo(name, env.feedback(again.result))), cost, Pipeline.Removed(st, name))
  }

  /** How a failing task ends: the result reported for it, the tool generated for it if any, and the generation cost. */
  datatype TaskEnd =
    | Reported(scored: Scored, generated: Option<string>, cost: real, store: Pipeline.Store)
    | TaskRaised(message: string, store: Pipeline.Store)

  /** The attempts from `attempt` on; when all fail, the initial result is reported with the generation cost. */
  function AttemptsFrom(env: Env, cfg: Config, task: EvalTask, index: nat, initial: Scored, attempt: nat,
                        retry: Option<RetryInfo>, cost: real, st: Pipeline.Store): TaskEnd
    decreases cfg.maxGenAttempts + 1 - attempt
  {
    if attempt > cfg.maxGenAttempts then Reported(initial.(extraCost := cost), None, cost, st)
    else match GenAttempt(env, cfg, task, index, initial.result, attempt, retry, cost, st)
      case Succeeded(s, name, c, st') => Reported(s, Some(name), c, st')
      case AttemptRaised(m, st') => TaskRaised(m, st')
      case Failed(r, c, st') => AttemptsFrom(env, cfg, task, index, initial, attempt + 1, r, c, st')
  }

  // ---------------------------------------------------------------------
  // The whole run, as values

  /** The run after some tasks: still going with its results, meta and library, or stopped by an exception. */
  datatype Progress =
    | Running(results: seq<Scored>, meta: Meta, store: Pipeline.Store)
    | Stopped(message: string, store: Pipeline.Store)

  /** The meta after the initial run of `task`: its reuse events are appended. */
  function WithReuse(meta: Meta, task: EvalTask, initial: Scored): Meta {
    meta.(crossTaskReuse := meta.crossTaskReuse
      + ReuseEvents(task.id, initial.toolsUsed, meta.toolSources, initial.result.passed))
  }

  /** The meta after a task whose attempts generated `generated` at cost `cost`. */
  function WithGeneration(meta: Meta, task: EvalTask, generated: Option<string>, cost: real): Meta {
    var m := if generated.Some?
      then meta.(toolsGenerated := meta.toolsGenerated[task.id := generated.value],
                 toolSources := meta.toolSources[generated.value := task.id])
      else meta;
    m.(totalGenCost := m.totalGenCost + cost)
  }

  /** One task of the run (`index` counts from 1). */
  function TaskStep(env: Env, cfg: Config, task: EvalTask, index: nat,
                    results: seq<Scored>, meta: Meta, st: Pipeline.Store): Progress {
    var initial := Observe(env, task, st);
    var meta' := WithReuse(meta, task, initial);
    if initial.result.passed then Running(results + [initial], meta', st)
    else match AttemptsFrom(env, cfg, task, index, initial, 1, None, 0.0, st)
      case TaskRaised(m, st') => Stopped(m, st')
      case Reported(s, generated, cost, st') =>
        Running(results + [s], WithGeneration(meta', task, generated, cost), st')
  }

  /** The run over the first `n` tasks, starting from the library `st`. */
  function RunUpTo(env: Env, cfg: Config, tasks: seq<EvalTask>, n: nat, st: Pipeline.Store): Progress
    requires n <= |tasks|
  {
    if n == 0 then Running([], NO_META, st)
    else match RunUpTo(env, cfg, tasks, n - 1, st)
      case Stopped(m, st') => Stopped(m, st')
      case Running(rs, meta, st') => TaskStep(env, cfg, tasks[n - 1], n, rs, meta, st')
  }

  // ---------------------------------------------------------------------
  // The run against the library

  /** What `_run_self_improving` returns, or the exception that ended it. */
  datatype Outcome = Completed(results: seq<Scored>, meta: Meta) | Raised(message: string)

  /** One attempt against the library; `e.store` is the library afterwards. */
  method Attempt(lib: Library, env: Env, cfg: Config, task: EvalTask, index: nat, initial: TaskResult,
                 attempt: nat, retry: Option<RetryInfo>, cost: real) returns (e: AttemptEnd)
    modifies lib
    ensures e == GenAttempt(env, cfg, task, index, initial, attempt, retry, cost, Pipeline.Store(old(lib.registry), old(lib.files)))
    ensures e.store == Pipeline.Store(lib.registry, lib.files)
  {
    var currentFeedback := env.feedback(initial);
    var generation := env.generate(task.prompt, initial.trajectory, currentFeedback, retry);
    if generation.GenerationRaised? {
      return Failed(retry, cost, Pipeline.Store(lib.registry, lib.files));
    }
    var cost' := cost + env.genCost(generation.inputTokens, generation.outputTokens);
    e := Validate(lib, env, cfg, task, index, attempt, retry, cost', generation.code);
  }

  /** Validates the generated code and, when valid, installs the tool and re-runs the task. */
  method Validate(lib: Library, env: Env, cfg: Config, task: EvalTask, index: nat, attempt: nat,
                  retry: Option<RetryInfo>, cost: real, code: string) returns (e: AttemptEnd)
    modifies lib
    ensures e == Validated(env, cfg, task, index, attempt, retry, cost, code, Pipeline.Store(old(lib.registry), old(lib.files)))
    ensures e.store == Pipeline.Store(lib.registry, lib.files)
  {
    var verdict := env.validate(code);
    if verdict.ValidationRaised? {
      return AttemptRaised(verdict.message, Pipeline.Store(lib.registry, lib.files));
    }
    if verdict.Invalid? {
      return Failed(retry, cost, Pipeline.Store(lib.registry, lib.files));
    }
    InstallTool(lib, ToolEntry(env, cfg, task, index, attempt, verdict.name), code);
    e := Rerun(lib, env, task, verdict.name, cost);
  }

  /** The re-run of the task with the tool `name` just installed, removing the tool when it fails. */
  method Rerun(lib: Library, env: Env, task: EvalTask, name: string, cost: real) returns (e: AttemptEnd)
    modifies lib
    ensures e == AfterInstall(env, task, name, cost, Pipeline.Store(old(lib.registry), old(lib.files)))
    ensures e.store == Pipeline.Store(lib.registry, lib.files)
  {
    ghost var installed := Pipeline.Store(lib.registry, lib.files);
    var again := RunWithLibrary(lib, env, task);
    if again.result.passed {
      return Succeeded(again.(extraCost := cost), name, cost, Pipeline.Store(lib.registry, lib.files));
    }
    var retry' := Some(RetryInfo(name, env.feedback(again.result)));
    lib.Remove(name);
    e := Failed(retry', cost, Pipeline.Store(lib.registry, lib.files));
    assert e == AfterInstall(env, task, name, cost, installed);
  }

  /** Writes the tool's source to `e.file` and registers `e`. */
  method InstallTool(lib: Library, e: Entry, code: string)
    modifies lib
    ensures Pipeline.Store(lib.registry, lib.files) == Installed(Pipeline.Store(old(lib.registry), old(lib.files)), e, code)
  {
    lib.files := lib.files[e.file := code];
    lib.Register(e.name, e.file, e.generatedFromTask, e.generatedByModel, e.createdAt, e.verified, e.verifiedWithModel);
  }

  /** The attempt loop for a task whose initial run failed. */
  method GenerateForTask(lib: Library, env: Env, cfg: Config, task: EvalTask, index: nat, initial: Scored)
    returns (end: TaskEnd)
    modifies lib
    ensures end == AttemptsFrom(env, cfg, task, index, initial, 1, None, 0.0, Pipeline.Store(old(lib.registry), old(lib.files)))
    ensures end.store == Pipeline.Store(lib.registry, lib.files)
  {
    ghost var spec := AttemptsFrom(env, cfg, task, index, initial, 1, None, 0.0, Pipeline.Store(lib.registry, lib.files));
    var retry: Option<RetryInfo> := None;
    var cost: real := 0.0;
    var attempt: nat := 1;
    while attempt <= cfg.maxGenAttempts
      invariant AttemptsFrom(env, cfg, task, index, initial, attempt, retry, cost, Pipeline.Store(lib.registry, lib.files)) == spec
      decreases cfg.maxGenAttempts + 1 - attempt
    {
      var e := Attempt(lib, env, cfg, task, index, initial.result, attempt, retry, cost);
      match e
      case Succeeded(s, name, c, st') =>
        return Reported(s, Some(name), c, st');
      case AttemptRaised(m, st') =>
        return TaskRaised(m, st');
      case Failed(r, c, _) =>
        retry, cost := r, c;
      attempt := attempt + 1;
    }
    end := Reported(initial.(extraCost := cost), None, cost, Pipeline.Store(lib.registry, lib.files));
  }

  /** One iteration of the task loop of `_run_self_improving`. */
  method RunOneTask(lib: Library, env: Env, cfg: Config, task: EvalTask, index: nat,
                    results: seq<Scored>, meta: Meta) returns (p: Progress)
    modifies lib
    ensures p == TaskStep(env, cfg, task, index, results, meta, Pipeline.Store(old(lib.registry), old(lib.files)))
    ensures p.store == Pipeline.Store(lib.registry, lib.files)
  {
    var initial := RunWithLibrary(lib, env, task);
    var meta' := RecordReuse(meta, task, initial);
    if initial.result.passed {
      return Running(results + [initial], meta', Pipeline.Store(lib.registry, lib.files));
    }
    var end := GenerateForTask(lib, env, cfg, task, index, initial);
    if end.TaskRaised? {
      return Stopped(end.message, end.store);
    }
    var m := meta';
    if end.generated.Some? {
      m := m.(toolsGenerated := m.toolsGenerated[task.id := end.generated.value],
              toolSources := m.toolSources[end.generated.value := task.id]);
    }
    m := m.(totalGenCost := m.totalGenCost + end.cost);
    p := Running(results + [end.scored], m, end.store);
  }

  /** The loop over `tools_used` that appends the cross-task reuse events. */
  method RecordReuse(meta: Meta, task: EvalTask, initial: Scored) returns (meta': Meta)
    ensures meta' == WithReuse(meta, task, initial)
  {
    var reuse := meta.crossTaskReuse;
    var used := initial.toolsUsed;
    for k := 0 to |used|
      invariant reuse == meta.crossTaskReuse + ReuseEvents(task.id, used[..k], meta.toolSources, initial.result.passed)
    {
      ReuseEventsSnoc(task.id, used, k, meta.toolSources, initial.result.passed);
      var src := if used[k] in meta.toolSources then meta.toolSources[used[k]] else "";
      if src != "" && src != task.id {
        reuse := reuse + [ReuseEvent(task.id, used[k], src, initial.result.passed)];
      }
    }
    assert used[..|used|] == used;
    meta' := meta.(crossTaskReuse := reuse);
  }

  /**
   * `_run_self_improving(tasks, ...)` against the library `lib`, which is
   * used as it stands on entry (see README).
   */
  method RunSelfImproving(lib: Library, env: Env, cfg: Config, tasks: seq<EvalTask>) returns (outcome: Outcome)
    modifies lib
    ensures match RunUpTo(env, cfg, tasks, |tasks|, Pipeline.Store(old(lib.registry), old(lib.files)))
      case Running(rs, meta, st) => outcome == Completed(rs, meta) && st == Pipeline.Store(lib.registry, lib.files)
      case Stopped(m, st) => outcome == Raised(m) && st == Pipeline.Store(lib.registry, lib.files)
  {
    ghost var st0 := Pipeline.Store(lib.registry, lib.files);
    var results: seq<Scored> := [];
    var meta := NO_META;
    for i := 0 to |tasks|
      invariant RunUpTo(env, cfg, tasks, i, st0) == Running(results, meta, Pipeline.Store(lib.registry, lib.files))
    {
      var p := RunOneTask(lib, env, cfg, tasks[i], i + 1, results, meta);
      if p.Stopped? {
        StoppedStays(env, cfg, tasks, i + 1, |tasks|, st0);
        return Raised(p.message);
      }
      results, meta := p.results, p.meta;
    }
    outcome := Completed(results, meta);
  }

  /** Once an exception has ended the run, later tasks change nothing. */
  lemma {:induction false} StoppedStays(env: Env, cfg: Config, tasks: seq<EvalTask>, n: nat, m: nat, st: Pipeline.Store)
    requires n <= m <= |tasks| && RunUpTo(env, cfg, tasks, n, st).Stopped?
    ensures RunUpTo(env, cfg, tasks, m, st) == RunUpTo(env, cfg, tasks, n, st)
    decreases m - n
  {
    if n < m {
      StoppedStays(env, cfg, tasks, n, m - 1, st);
    }
  }

  // ---------------------------------------------------------------------
  // Properties of the run

  /** A library state `st'` holds nothing `st` did not. */
  lemma {:induction false} InstallThenRemove(st: Pipeline.Store, e: Entry, code: string)
    requires e.file == SourcePath(e.name)
    ensures Pipeline.NoNewerThan(Pipeline.Removed(Installed(st, e, code), e.name), st)
  {
  }

  /** After installing, the tool's source is stored and the registry names it exactly once. */
  lemma {:induction false} InstalledHolds(st: Pipeline.Store, e: Entry, code: string)
    ensures var st' := Installed(st, e, code);
      e.file in st'.files && st'.files[e.file] == code && Named(st'.Tools(), e.name) == [e]
  {
    RegisterLastWriteWins(st.Tools(), e);
  }

  /**
   * What one attempt can end with. A generator exception uses up the attempt
   * and changes nothing else; success means the re-run with the new tool
   * passed, carries the generation cost so far, and leaves the tool stored and
   * registered once; a failed attempt leaves nothing new in the library.
   */
  lemma {:induction false} AttemptOutcome(env: Env, cfg: Config, task: EvalTask, index: nat, initial: TaskResult, attempt: nat,
                       retry: Option<RetryInfo>, cost: real, st: Pipeline.Store)
    ensures env.generate(task.prompt, initial.trajectory, env.feedback(initial), retry).GenerationRaised? ==>
      GenAttempt(env, cfg, task, index, initial, attempt, retry, cost, st) == Failed(retry, cost, st)
    ensures match GenAttempt(env, cfg, task, index, initial, attempt, retry, cost, st)
      case Succeeded(s, name, c, st') =>
        s.result.passed && s.extraCost == c
        && SourcePath(name) in st'.files
        && Named(st'.Tools(), name) == [ToolEntry(env, cfg, task, index, attempt, name)]
        && s == Observe(env, task, st').(extraCost := c)
      case Failed(_, _, st') => Pipeline.NoNewerThan(st', st)
      case AttemptRaised(_, st') => st' == st
  {
    match env.generate(task.prompt, initial.trajectory, env.feedback(initial), retry)
    case GenerationRaised(_) =>
    case Generated(code, i, o) =>
      match env.validate(code)
      case ValidationRaised(_) =>
      case Invalid(_) =>
      case Valid(name) =>
        InstallRerunOutcome(env, task, name, cost + env.genCost(i, o), st, ToolEntry(env, cfg, task, index, attempt, name), code);
  }

  /** Installing a tool and re-running: success leaves it stored and registered once; failure leaves nothing new. */
  lemma {:induction false} InstallRerunOutcome(env: Env, task: EvalTask, name: string, cost: real, st: Pipeline.Store, e: Entry, code: string)
    requires e.name == name && e.file == SourcePath(name)
    ensures match AfterInstall(env, task, name, cost, Installed(st, e, code))
      case Succeeded(s, n, c, st') =>
        n == name && s.result.passed && s.extraCost == c && SourcePath(name) in st'.files
        && Named(st'.Tools(), name) == [e] && s == Observe(env, task, st').(extraCost := c)
      case Failed(_, _, st') => Pipeline.NoNewerThan(st', st)
      case AttemptRaised(_, _) => false
  {
    InstalledHolds(st, e, code);
    InstallThenRemove(st, e, code);
    AfterInstallOutcome(env, task, name, cost, Installed(st, e, code));
  }

  /** After the re-run: success keeps the library; failure removes the tool. */
  lemma {:induction false} AfterInstallOutcome(env: Env, task: EvalTask, name: string, cost: real, st: Pipeline.Store)
    ensures match AfterInstall(env, task, name, cost, st)
      case Succeeded(s, n, c, st') =>
        n == name && c == cost && st' == st && s.result.passed && s.extraCost == c && s == Observe(env, task, st).(extraCost := c)
      case Failed(_, c, st') => c == cost && st' == Pipeline.Removed(st, name)
      case AttemptRaised(_, _) => false
  {
  }

  /**
   * How a failing task ends. A generated tool made the re-run pass and is in
   * the library; without one, the initial failing result is the one reported,
   * with the generation cost attached, and the library holds nothing new.
   */
  lemma {:induction false} AttemptsOutcome(env: Env, cfg: Config, task: EvalTask, index: nat, initial: Scored,
                                           attempt: nat, retry: Option<RetryInfo>, cost: real, st: Pipeline.Store)
    ensures match AttemptsFrom(env, cfg, task, index, initial, attempt, retry, cost, st)
      case Reported(s, None, c, st') => s == initial.(extraCost := c) && Pipeline.NoNewerThan(st', st)
      case Reported(s, Some(name), c, st') =>
        s.result.passed && s.extraCost == c && SourcePath(name) in st'.files
        && exists k :: attempt <= k <= cfg.maxGenAttempts && Named(st'.Tools(), name) == [ToolEntry(env, cfg, task, index, k, name)]
      case TaskRaised(_, _) => true
    decreases cfg.maxGenAttempts + 1 - attempt
  {
    if attempt <= cfg.maxGenAttempts {
      AttemptOutcome(env, cfg, task, index, initial.result, attempt, retry, cost, st);
      match GenAttempt(env, cfg, task, index, initial.result, attempt, retry, cost, st)
      case Succeeded(s, name, c, st') =>
      case AttemptRaised(_, _) =>
      case Failed(r, c, st') =>
        AttemptsOutcome(env, cfg, task, index, initial, attempt + 1, r, c, st');
        match AttemptsFrom(env, cfg, task, index, initial, attempt + 1, r, c, st')
        case Reported(_, None, _, fin) => Pipeline.NoNewerThanTrans(fin, st', st);
        case Reported(_, Some(_), _, _) =>
        case TaskRaised(_, _) =>
    } else {
      assert Pipeline.NoNewerThan(st, st);
    }
  }

  /** The harness reports each task under its own id. */
  ghost predicate ReportsOwnTask(env: Env) {
    forall task: EvalTask, extra: Option<LoadResult>, prompt: Option<string> {:trigger env.run(task, extra, prompt)} ::
      env.run(task, extra, prompt).taskId == task.id
  }

  /**
   * One task appends exactly one result and the reuse events of its initial
   * run. A task passing at once is reported as run; a generated tool is
   * recorded for the task, with the task as the tool's source, only when the
   * reported result passed; without one the reported result is the failing
   * initial run.
   */
  lemma {:induction false} TaskStepOutcome(env: Env, cfg: Config, task: EvalTask, index: nat, results: seq<Scored>, meta: Meta, st: Pipeline.Store)
    ensures var initial := Observe(env, task, st);
      match TaskStep(env, cfg, task, index, results, meta, st)
      case Running(rs, m, _) =>
        |rs| == |results| + 1 && rs[..|results|] == results
        && m.crossTaskReuse[..|meta.crossTaskReuse|] == meta.crossTaskReuse
        && m.crossTaskReuse[|meta.crossTaskReuse|..]
             == ReuseEvents(task.id, initial.toolsUsed, meta.toolSources, initial.result.passed)
        && (initial.result.passed ==> rs[|results|] == initial && m == WithReuse(meta, task, initial))
        && ((m.toolsGenerated == meta.toolsGenerated && m.toolSources == meta.toolSources
             && rs[|results|].result == initial.result)
            || (task.id in m.toolsGenerated
                && m.toolsGenerated == meta.toolsGenerated[task.id := m.toolsGenerated[task.id]]
                && m.toolSources == meta.toolSources[m.toolsGenerated[task.id] := task.id]
                && rs[|results|].result.passed))
      case Stopped(_, _) => !initial.result.passed
  {
    var initial := Observe(env, task, st);
    if !initial.result.passed {
      AttemptsOutcome(env, cfg, task, index, initial, 1, None, 0.0, st);
    }
  }

  /**
   * The run over the first `n` tasks: one result per task, in task order;
   * every task with a generated tool has a passing result; and every reuse
   * event names a source task other than the one using the tool.
   */
  lemma {:induction false} RunOutcome(env: Env, cfg: Config, tasks: seq<EvalTask>, n: nat, st: Pipeline.Store)
    requires n <= |tasks|
    ensures match RunUpTo(env, cfg, tasks, n, st)
      case Running(rs, m, _) =>
        |rs| == n
        && (ReportsOwnTask(env) ==> forall k :: 0 <= k < n ==> rs[k].result.taskId == tasks[k].id)
        && (forall t :: t in m.toolsGenerated ==> exists k :: 0 <= k < n && tasks[k].id == t && rs[k].result.passed)
        && (forall e :: e in m.crossTaskReuse ==> e.sourceTask != e.taskId)
      case Stopped(_, _) => true
  {
    RunResults(env, cfg, tasks, n, st);
    RunGenerated(env, cfg, tasks, n, st);
    RunReuse(env, cfg, tasks, n, st);
  }

  /** One result per task so far, and, with a harness that reports under the task's id, in task order. */
  lemma {:induction false} RunResults(env: Env, cfg: Config, tasks: seq<EvalTask>, n: nat, st: Pipeline.Store)
    requires n <= |tasks|
    ensures match RunUpTo(env, cfg, tasks, n, st)
      case Running(rs, _, _) =>
        |rs| == n && (ReportsOwnTask(env) ==> forall k :: 0 <= k < n ==> rs[k].result.taskId == tasks[k].id)
      case Stopped(_, _) => true
  {
    if n > 0 {
      RunResults(env, cfg, tasks, n - 1, st);
      match RunUpTo(env, cfg, tasks, n - 1, st)
      case Stopped(_, _) =>
      case Running(rs, meta, st') =>
        TaskStepAppends(env, cfg, tasks[n - 1], n, rs, meta, st');
        if ReportsOwnTask(env) {
          ReportedUnderOwnId(env, cfg, tasks[n - 1], n, rs, meta, st');
        }
    }
  }

  /** A task step appends one result and keeps the earlier ones. */
  lemma {:induction false} TaskStepAppends(env: Env, cfg: Config, task: EvalTask, index: nat, results: seq<Scored>, meta: Meta, st: Pipeline.Store)
    ensures match TaskStep(env, cfg, task, index, results, meta, st)
      case Running(rs, _, _) => |rs| == |results| + 1 && rs[..|results|] == results
      case Stopped(_, _) => true
  {
  }

  /** Every task with a generated tool has a passing result. */
  lemma {:induction false} RunGenerated(env: Env, cfg: Config, tasks: seq<EvalTask>, n: nat, st: Pipeline.Store)
    requires n <= |tasks|
    ensures match RunUpTo(env, cfg, tasks, n, st)
      case Running(rs, m, _) =>
        |rs| == n && forall t :: t in m.toolsGenerated ==> exists k :: 0 <= k < n && tasks[k].id == t && rs[k].result.passed
      case Stopped(_, _) => true
  {
    if n > 0 {
      RunGenerated(env, cfg, tasks, n - 1, st);
      match RunUpTo(env, cfg, tasks, n - 1, st)
      case Stopped(_, _) =>
      case Running(rs, meta, st') =>
        var task := tasks[n - 1];
        TaskStepOutcome(env, cfg, task, n, rs, meta, st');
        match TaskStep(env, cfg, task, n, rs, meta, st')
        case Stopped(_, _) =>
        case Running(rs', m, _) =>
          assert forall k :: 0 <= k < n - 1 ==> rs'[k] == rs[k];
          forall t | t in m.toolsGenerated ensures exists k :: 0 <= k < n && tasks[k].id == t && rs'[k].result.passed {
            if t == task.id && m.toolsGenerated != meta.toolsGenerated {
              assert tasks[n - 1].id == t;
            } else {
              var k :| 0 <= k < n - 1 && tasks[k].id == t && rs[k].result.passed;
              assert rs'[k] == rs[k];
            }
          }
    }
  }

  /** Every reuse event names a source task other than the one using the tool. */
  lemma {:induction false} RunReuse(env: Env, cfg: Config, tasks: seq<EvalTask>, n: nat, st: Pipeline.Store)
    requires n <= |tasks|
    ensures match RunUpTo(env, cfg, tasks, n, st)
      case Running(_, m, _) => forall e :: e in m.crossTaskReuse ==> e.sourceTask != e.taskId
      case Stopped(_, _) => true
  {
    if n > 0 {
      RunReuse(env, cfg, tasks, n - 1, st);
      match RunUpTo(env, cfg, tasks, n - 1, st)
      case Stopped(_, _) =>
      case Running(rs, meta, st') =>
        var task := tasks[n - 1];
        var initial := Observe(env, task, st');
        TaskStepReuse(env, cfg, task, n, rs, meta, st');
        ReuseEventsSound(task.id, initial.toolsUsed, meta.toolSources, initial.result.passed);
    }
  }

  /** A task step appends the reuse events of the task's initial run and no others. */
  lemma {:induction false} TaskStepReuse(env: Env, cfg: Config, task: EvalTask, index: nat, results: seq<Scored>, meta: Meta, st: Pipeline.Store)
    ensures var initial := Observe(env, task, st);
      match TaskStep(env, cfg, task, index, results, meta, st)
      case Running(_, m, _) =>
        m.crossTaskReuse == meta.crossTaskReuse + ReuseEvents(task.id, initial.toolsUsed, meta.toolSources, initial.result.passed)
      case Stopped(_, _) => true
  {
  }

  /** With a harness that reports each task under its id, the result a task appends carries the task's id. */
  lemma {:induction false} ReportedUnderOwnId(env: Env, cfg: Config, task: EvalTask, index: nat, results: seq<Scored>, meta: Meta, st: Pipeline.Store)
    requires ReportsOwnTask(env)
    ensures match TaskStep(env, cfg, task, index, results, meta, st)
      case Running(rs, _, _) => rs[|rs| - 1].result.taskId == task.id
      case Stopped(_, _) => true
  {
    var initial := Observe(env, task, st);
    if !initial.result.passed {
      ReportedAttempts(env, cfg, task, index, initial, 1, None, 0.0, st);
    }
  }

  lemma {:induction false} ReportedAttempts(env: Env, cfg: Config, task: EvalTask, index: nat, initial: Scored,
                                            attempt: nat, retry: Option<RetryInfo>, cost: real, st: Pipeline.Store)
    requires ReportsOwnTask(env) && initial.result.taskId == task.id
    ensures match AttemptsFrom(env, cfg, task, index, initial, attempt, retry, cost, st)
      case Reported(s, _, _, _) => s.result.taskId == task.id
      case TaskRaised(_, _) => true
    decreases cfg.maxGenAttempts + 1 - attempt
  {
    if attempt <= cfg.maxGenAttempts {
      match GenAttempt(env, cfg, task, index, initial.result, attempt, retry, cost, st)
      case Succeeded(s, name, c, st') =>
      case AttemptRaised(_, _) =>
      case Failed(r, c, st') =>
        ReportedAttempts(env, cfg, task, index, initial, attempt + 1, r, c, st');
    }
  }

  // ---------------------------------------------------------------------
  // The results summary

  /** The per-task entry of the results file; `tools_used` and `generation_cost` appear only when non-empty or positive. */
  datatype TaskData = TaskData(
    taskId: string,
    passed: bool,
    toolCalls: nat,
    toolsUsed: Option<seq<string>>,
    generationCost: Option<real>)

  function TaskDataOf(s: Scored): (d: TaskData)
    ensures d.taskId == s.result.taskId && d.passed == s.result.passed && d.toolCalls == |s.result.trajectory|
    ensures d.toolsUsed.Some? <==> s.toolsUsed != []
    ensures d.toolsUsed.Some? ==> d.toolsUsed.value == s.toolsUsed
    ensures d.generationCost.Some? <==> s.extraCost > 0.0
    ensures d.generationCost.Some? ==> d.generationCost.value == s.extraCost
  {
    TaskData(s.result.taskId, s.result.passed, s.result.NumToolCalls(),
             if s.toolsUsed != [] then Some(s.toolsUsed) else None,
             if s.extraCost > 0.0 then Some(s.extraCost) else None)
  }

  /** The number of passed results in one run. */
  function CountPassed(rs: seq<Scored>): (n: nat)
    ensures n <= |rs|
  {
    if rs == [] then 0 else CountPassed(rs[..|rs| - 1]) + (if rs[|rs| - 1].result.passed then 1 else 0)
  }

  /** The number of passed results over all runs. */
  function PassesIn(runs: seq<seq<Scored>>): nat {
    if runs == [] then 0 else PassesIn(runs[..|runs| - 1]) + CountPassed(runs[|runs| - 1])
  }

  /** `len(run_list) * len(run_list[0]) if run_list else 0`. */
  function TaskRuns(runs: seq<seq<Scored>>): nat {
    if runs == [] then 0 else |runs| * |runs[0]|
  }

  /** The counters and per-task data `_serialize_results` writes for one configuration. */
  datatype ConfigData = ConfigData(model: string, withTools: bool, runs: seq<seq<TaskData>>,
                                   totalPasses: nat, totalTaskRuns: nat)

  /** The per-task data of every run, entry by entry. */
  ghost predicate DataOfRuns(data: seq<seq<TaskData>>, runs: seq<seq<Scored>>) {
    |data| == |runs|
    && forall i :: 0 <= i < |runs| ==>
         |data[i]| == |runs[i]| && forall j :: 0 <= j < |runs[i]| ==> data[i][j] == TaskDataOf(runs[i][j])
  }

  /** The loops of `_serialize_results` for the configuration named `name`. */
  method SerializeConfig(name: string, runList: seq<seq<Scored>>) returns (c: ConfigData)
    ensures (c.model, c.withTools) == ParseConfig(name)
    ensures DataOfRuns(c.runs, runList)
    ensures c.totalPasses == PassesIn(runList)
    ensures c.totalTaskRuns == TaskRuns(runList)
  {
    var (model, withTools) := ParseConfig(name);
    var runsData: seq<seq<TaskData>> := [];
    var totalPasses: nat := 0;
    for i := 0 to |runList|
      invariant DataOfRuns(runsData, runList[..i])
      invariant totalPasses == PassesIn(runList[..i])
    {
      var runTasks, passes := SerializeRun(runList[i]);
      SerializeStep(runsData, runList, i, runTasks);
      totalPasses := totalPasses + passes;
      runsData := runsData + [runTasks];
    }
    assert runList[..|runList|] == runList;
    var totalTaskRuns := if runList != [] then |runList| * |runList[0]| else 0;
    c := ConfigData(model, withTools, runsData, totalPasses, totalTaskRuns);
  }

  /** One more run's entries and passes extend the counters over the runs before it. */
  lemma {:induction false} SerializeStep(data: seq<seq<TaskData>>, runs: seq<seq<Scored>>, i: nat, entries: seq<TaskData>)
    requires i < |runs| && DataOfRuns(data, runs[..i])
    requires |entries| == |runs[i]| && forall k :: 0 <= k < |runs[i]| ==> entries[k] == TaskDataOf(runs[i][k])
    ensures DataOfRuns(data + [entries], runs[..i + 1])
    ensures PassesIn(runs[..i + 1]) == PassesIn(runs[..i]) + CountPassed(runs[i])
  {
    assert runs[..i + 1][..i] == runs[..i];
  }

  /** The inner loop of `_serialize_results`: one entry per result, counting the passes. */
  method SerializeRun(runResults: seq<Scored>) returns (runTasks: seq<TaskData>, passes: nat)
    ensures |runTasks| == |runResults| && forall k :: 0 <= k < |runResults| ==> runTasks[k] == TaskDataOf(runResults[k])
    ensures passes == CountPassed(runResults)
  {
    runTasks := [];
    passes := 0;
    for j := 0 to |runResults|
      invariant |runTasks| == j && forall k :: 0 <= k < j ==> runTasks[k] == TaskDataOf(runResults[k])
      invariant passes == CountPassed(runResults[..j])
    {
      assert runResults[..j + 1][..j] == runResults[..j];
      runTasks := runTasks + [TaskDataOf(runResults[j])];
      if runResults[j].result.passed {
        passes := passes + 1;
      }
    }
    assert runResults[..|runResults|] == runResults;
  }

  /** When every run has as many results as the first, the passes never exceed the task runs. */
  lemma {:induction false} PassRateAtMostOne(runs: seq<seq<Scored>>)
    requires forall i :: 0 <= i < |runs| ==> |runs[i]| == |runs[0]|
    ensures PassesIn(runs) <= TaskRuns(runs)
  {
    if runs != [] {
      PassesBounded(runs, |runs[0]|);
    }
  }

  lemma {:induction false} PassesBounded(runs: seq<seq<Scored>>, width: nat)
    requires forall i :: 0 <= i < |runs| ==> |runs[i]| == width
    ensures PassesIn(runs) <= |runs| * width
  {
    if runs != [] {
      var p := runs[..|runs| - 1];
      PassesBounded(p, width);
      assert |runs| * width == |p| * width + width;
    }
  }
}
