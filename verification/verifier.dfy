/**
 * The hidden checks a task runs on its workspace once the agent is done:
 * a file exists, a file contains a pattern, a command prints the expected
 * text, a test command exits cleanly, and all of a list of checks pass.
 */
module Verifier {
  import opened Strings
  import opened Paths
  import opened Records

  /** What a command runner reports; `error` is empty unless the command could not be started. */
  datatype CommandResult = CommandResult(returncode: int, stdout: string, stderr: string, timedOut: bool := false, error: string := "")

  /** Running a command in a directory with a timeout in seconds, against the files present. */
  type CommandRunner = (string, string, nat, Files) -> CommandResult

  /**
   * The module's runner setting (`_COMMAND_RUNNER` and `set_command_runner`).
   * It stands alone: `Check` takes the runner in force as its `run` argument.
   */
  class RunnerSetting {
    var runner: CommandRunner

    constructor (initial: CommandRunner)
      ensures runner == initial
    {
      runner := initial;
    }

    method SetCommandRunner(r: CommandRunner)
      modifies this
      ensures runner == r
    {
      runner := r;
    }
  }

  datatype Verifier =
    | FileExists(path: string)
    | FileContains(path: string, pattern: string)
    | ShellOutput(command: string, expected: string, exact: bool := false)
    | TestsPasses(command: string)
    | AllOf(verifiers: seq<Verifier>)

  const ALL_PASSED: string := "All checks passed"

  /** `check(workspace)` of each kind of verifier. */
  function Check(v: Verifier, workspace: string, fs: Files, run: CommandRunner): VerifyResult
    decreases v, 1, 0
  {
    match v
    case FileExists(path) =>
      if ExistsIn(fs, Resolve(workspace, path)) then VerifyResult(true, path + " exists")
      else VerifyResult(false, path + " not found")
    case FileContains(path, pattern) =>
      var full := Resolve(workspace, path);
      if full !in fs then VerifyResult(false, path + " not found")
      else if Contains(Newlines(fs[full]), pattern) then VerifyResult(true, path + " contains expected pattern")
      else VerifyResult(false, path + " missing pattern: " + Repr(pattern))
    case ShellOutput(command, expected, exact) =>
      ShellOutputVerdict(expected, exact, run(command, workspace, 30, fs))
    case TestsPasses(command) =>
      TestsVerdict(run(command, workspace, 60, fs))
    case AllOf(vs) =>
      CheckFrom(vs, 0, workspace, fs, run)
  }

  /** `AllOf.check` from the `i`-th sub-check on: the first failure, or a pass. */
  function CheckFrom(vs: seq<Verifier>, i: nat, workspace: string, fs: Files, run: CommandRunner): VerifyResult
    requires i <= |vs|
    decreases AllOf(vs), 0, |vs| - i
  {
    if i == |vs| then VerifyResult(true, ALL_PASSED)
    else
      var r := Check(vs[i], workspace, fs, run);
      if !r.passed then r else CheckFrom(vs, i + 1, workspace, fs, run)
  }

  function ShellOutputVerdict(expected: string, exact: bool, result: CommandResult): VerifyResult {
    if result.timedOut then VerifyResult(false, "Verification command timed out")
    else if result.error != [] then VerifyResult(false, "Verification command error: " + result.error)
    else
      var output := Strip(result.stdout);
      var passed := if exact then output == expected else Contains(output, expected);
      if passed then VerifyResult(true, "Output matched: " + Repr(output))
      else
        var err := Strip(result.stderr);
        VerifyResult(false, "Expected " + Repr(expected) + " in output, got: " + Repr(output)
          + (if err != [] then "\nSTDERR: " + err else []))
  }

  function TestsVerdict(result: CommandResult): VerifyResult {
    if result.timedOut then VerifyResult(false, "Test command timed out")
    else if result.error != [] then VerifyResult(false, "Test command error: " + result.error)
    else if result.returncode == 0 then VerifyResult(true, "Tests passed\n" + Strip(result.stdout))
    else VerifyResult(false, "Tests failed (exit " + IntToString(result.returncode) + ")\n" + Strip(result.stdout + result.stderr))
  }

  /** `AllOf.check` as the source runs it: an early-return loop over the sub-checks. */
  method CheckAll(vs: seq<Verifier>, workspace: string, fs: Files, run: CommandRunner) returns (r: VerifyResult)
    ensures r == Check(AllOf(vs), workspace, fs, run)
    ensures r.passed <==> forall k :: 0 <= k < |vs| ==> Check(vs[k], workspace, fs, run).passed
    ensures r.passed ==> r.message == ALL_PASSED
  {
    var i := 0;
    while i < |vs|
      invariant i <= |vs|
      invariant CheckFrom(vs, i, workspace, fs, run) == CheckFrom(vs, 0, workspace, fs, run)
      invariant forall k :: 0 <= k < i ==> Check(vs[k], workspace, fs, run).passed
    {
      var result := Check(vs[i], workspace, fs, run);
      if !result.passed {
        AllOfFirstFailure(vs, i, workspace, fs, run);
        return result;
      }
      i := i + 1;
    }
    r := VerifyResult(true, ALL_PASSED);
  }

  /** `FileExists` passes exactly when the path resolves to a file, or to a directory holding a file. */
  lemma {:induction false} FileExistsIff(path: string, workspace: string, fs: Files, run: CommandRunner)
    ensures Check(FileExists(path), workspace, fs, run).passed
            <==> Resolve(workspace, path) in fs || exists k :: k in fs && StartsWith(k, Resolve(workspace, path) + "/")
  {
  }

  /** Once a file is written beneath a directory, `FileExists` on that directory passes. */
  lemma {:induction false} WrittenParentExists(dir: string, name: string, content: string, workspace: string,
                                               fs: Files, run: CommandRunner)
    ensures Check(FileExists(dir), workspace, fs[Resolve(workspace, dir) + "/" + name := content], run).passed
  {
    var d := Resolve(workspace, dir);
    var k := d + "/" + name;
    assert k[..|d + "/"|] == d + "/";
    assert k in fs[k := content] && StartsWith(k, d + "/");
  }

  /**
   * `FileContains` fails with "not found" on a missing file and otherwise passes
   * exactly when the text, as `read_text` returns it, holds the pattern.
   */
  lemma {:induction false} FileContainsIff(path: string, pattern: string, workspace: string, fs: Files, run: CommandRunner)
    ensures Resolve(workspace, path) !in fs ==> Check(FileContains(path, pattern), workspace, fs, run) == VerifyResult(false, path + " not found")
    ensures Resolve(workspace, path) in fs ==>
      (Check(FileContains(path, pattern), workspace, fs, run).passed <==> Contains(Newlines(fs[Resolve(workspace, path)]), pattern))
  {
  }

  /** A pattern holding a carriage return never matches: `read_text` has translated them all. */
  lemma {:induction false} ReturnPatternNeverFound(path: string, pattern: string, workspace: string, fs: Files, run: CommandRunner)
    requires '\r' in pattern
    ensures !Check(FileContains(path, pattern), workspace, fs, run).passed
  {
    var full := Resolve(workspace, path);
    if full in fs {
      var text := Newlines(fs[full]);
      forall i | 0 <= i <= |text| - |pattern|
        ensures !OccursAt(text, pattern, i)
      {
        var j :| 0 <= j < |pattern| && pattern[j] == '\r';
        assert i + j < |text| && text[i + j] != '\r';
      }
    }
  }

  /** A timeout is reported before an error, and both fail; the exit code never decides `ShellOutput`. */
  lemma {:induction false} ShellOutputDecision(expected: string, exact: bool, result: CommandResult, rc: int)
    ensures result.timedOut ==> ShellOutputVerdict(expected, exact, result) == VerifyResult(false, "Verification command timed out")
    ensures !result.timedOut && result.error != [] ==> !ShellOutputVerdict(expected, exact, result).passed
    ensures ShellOutputVerdict(expected, exact, result.(returncode := rc)) == ShellOutputVerdict(expected, exact, result)
    ensures !result.timedOut && result.error == [] ==>
      (ShellOutputVerdict(expected, exact, result).passed <==>
        if exact then Strip(result.stdout) == expected else Contains(Strip(result.stdout), expected))
  {
  }

  /** `TestsPasses` passes exactly on a clean exit: no timeout, no error, return code 0. */
  lemma {:induction false} TestsPassesIff(result: CommandResult)
    ensures TestsVerdict(result).passed <==> !result.timedOut && result.error == [] && result.returncode == 0
    ensures result.timedOut ==> TestsVerdict(result) == VerifyResult(false, "Test command timed out")
  {
  }

  /** `AllOf` returns the first failing sub-result unchanged. */
  lemma {:induction false} AllOfFirstFailure(vs: seq<Verifier>, k: nat, workspace: string, fs: Files, run: CommandRunner)
    requires k < |vs|
    requires forall j :: 0 <= j < k ==> Check(vs[j], workspace, fs, run).passed
    requires !Check(vs[k], workspace, fs, run).passed
    ensures Check(AllOf(vs), workspace, fs, run) == Check(vs[k], workspace, fs, run)
  {
    FirstFailureFrom(vs, 0, k, workspace, fs, run);
  }

  /** The checks after the first failure are never consulted: replacing them changes nothing. */
  lemma {:induction false} AllOfIgnoresRest(vs: seq<Verifier>, k: nat, rest: seq<Verifier>, workspace: string, fs: Files, run: CommandRunner)
    requires k < |vs|
    requires forall j :: 0 <= j < k ==> Check(vs[j], workspace, fs, run).passed
    requires !Check(vs[k], workspace, fs, run).passed
    ensures Check(AllOf(vs[..k + 1] + rest), workspace, fs, run) == Check(AllOf(vs), workspace, fs, run)
  {
    var ws := vs[..k + 1] + rest;
    assert forall j :: 0 <= j <= k ==> ws[j] == vs[j];
    FirstFailureFrom(ws, 0, k, workspace, fs, run);
    FirstFailureFrom(vs, 0, k, workspace, fs, run);
  }

  lemma {:induction false} FirstFailureFrom(vs: seq<Verifier>, i: nat, k: nat, workspace: string, fs: Files, run: CommandRunner)
    requires i <= k < |vs|
    requires forall j :: i <= j < k ==> Check(vs[j], workspace, fs, run).passed
    requires !Check(vs[k], workspace, fs, run).passed
    ensures CheckFrom(vs, i, workspace, fs, run) == Check(vs[k], workspace, fs, run)
    decreases k - i
  {
    if i < k {
      FirstFailureFrom(vs, i + 1, k, workspace, fs, run);
    }
  }

  /** With every sub-check passing, or with none at all, `AllOf` passes with the fixed message. */
  lemma {:induction false} AllOfAllPass(vs: seq<Verifier>, i: nat, workspace: string, fs: Files, run: CommandRunner)
    requires i <= |vs|
    requires forall j :: i <= j < |vs| ==> Check(vs[j], workspace, fs, run).passed
    ensures CheckFrom(vs, i, workspace, fs, run) == VerifyResult(true, ALL_PASSED)
    decreases |vs| - i
  {
    if i < |vs| {
      AllOfAllPass(vs, i + 1, workspace, fs, run);
    }
  }
}
