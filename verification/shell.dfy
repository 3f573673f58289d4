/**
 * The text a `run_shell` tool hands back to the agent. The three toolboxes
 * (the evaluation harness, the packaged agent tools and the first agent
 * loop) format a finished command identically: its stdout, then a STDERR
 * section when stderr is non-empty, then the exit code when it is not zero,
 * all stripped, with a placeholder for an empty result.
 */
module Shell {
  import opened Strings

  /** How the subprocess ended; running it is outside the model. */
  datatype ShellOutcome =
    | Completed(stdout: string, stderr: string, returncode: int)
    | TimedOut
    | Failed(message: string)

  const TIMEOUT_SECONDS: nat := 30
  const NO_OUTPUT: string := "(no output)"
  const TIMEOUT_MESSAGE: string := "Error: command timed out after 30 seconds"

  /** The text before stripping. */
  function Combined(stdout: string, stderr: string, returncode: int): string {
    stdout
    + (if stderr != [] then "\nSTDERR: " + stderr else [])
    + (if returncode != 0 then "\nExit code: " + IntToString(returncode) else [])
  }

  /** `output.strip() or "(no output)"`. */
  function Formatted(stdout: string, stderr: string, returncode: int): string {
    var s := Strip(Combined(stdout, stderr, returncode));
    if s == [] then NO_OUTPUT else s
  }

  /** The formatting step by step, as the source builds `output` with `+=`. */
  method FormatOutput(stdout: string, stderr: string, returncode: int) returns (r: string)
    ensures r == Formatted(stdout, stderr, returncode)
  {
    var output := stdout;
    if stderr != [] {
      output := output + ("\nSTDERR: " + stderr);
    } else {
      assert output + [] == output;
    }
    if returncode != 0 {
      output := output + ("\nExit code: " + IntToString(returncode));
    } else {
      assert output + [] == output;
    }
    var stripped := Strip(output);
    r := if stripped == [] then NO_OUTPUT else stripped;
  }

  /** The tool's reply for every way the command can end; it never raises. */
  function ShellResult(o: ShellOutcome): (r: string)
    ensures o.TimedOut? ==> r == TIMEOUT_MESSAGE
    ensures o.Failed? ==> r == "Error: " + o.message
    ensures o.Completed? ==> r == Formatted(o.stdout, o.stderr, o.returncode)
  {
    match o
    case Completed(out, err, rc) => Formatted(out, err, rc)
    case TimedOut => TIMEOUT_MESSAGE
    case Failed(m) => "Error: " + m
  }

  /** A nonzero exit code always shows as the final line of the reply. */
  lemma {:induction false} FormattedExitCode(stdout: string, stderr: string, returncode: int)
    requires returncode != 0
    ensures EndsWith(Formatted(stdout, stderr, returncode), "Exit code: " + IntToString(returncode))
    ensures Formatted(stdout, stderr, returncode) != NO_OUTPUT
  {
    var t := "Exit code: " + IntToString(returncode);
    var a := stdout + (if stderr != [] then "\nSTDERR: " + stderr else []) + "\n";
    assert Combined(stdout, stderr, returncode) == a + t;
    assert t[0] == 'E' && t[|t| - 1] == IntToString(returncode)[|IntToString(returncode)| - 1];
    StripEndsWith(a, t);
    assert NO_OUTPUT[|NO_OUTPUT| - 1] == ')';
  }

  /** Non-empty stderr always shows up in the reply under a STDERR label. */
  lemma {:induction false} FormattedStderr(stdout: string, stderr: string, returncode: int)
    requires stderr != []
    ensures Contains(Formatted(stdout, stderr, returncode), "STDERR:")
  {
    var t := "STDERR:";
    var b := " " + stderr + (if returncode != 0 then "\nExit code: " + IntToString(returncode) else []);
    assert Combined(stdout, stderr, returncode) == (stdout + "\n") + t + b;
    StripKeepsInfix(stdout + "\n", t, b);
  }

  /** A clean exit with no stderr adds nothing: the reply is stdout stripped, or the placeholder. */
  lemma {:induction false} FormattedCleanExit(stdout: string)
    ensures Formatted(stdout, [], 0) == if AllSpace(stdout) then NO_OUTPUT else Strip(stdout)
  {
    assert Combined(stdout, [], 0) == stdout;
  }

  /** The placeholder appears only when there was nothing to report. */
  lemma {:induction false} FormattedPlaceholder(stdout: string, stderr: string, returncode: int)
    requires Strip(stdout) != NO_OUTPUT
    ensures Formatted(stdout, stderr, returncode) == NO_OUTPUT <==> stderr == [] && returncode == 0 && AllSpace(stdout)
  {
    if stderr != [] {
      FormattedStderr(stdout, stderr, returncode);
      PlaceholderHasNoLabel();
    } else if returncode != 0 {
      FormattedExitCode(stdout, stderr, returncode);
    } else {
      FormattedCleanExit(stdout);
    }
  }

  lemma {:induction false} PlaceholderHasNoLabel()
    ensures !Contains(NO_OUTPUT, "STDERR:")
  {
    forall i | 0 <= i <= |NO_OUTPUT| - 7
      ensures !OccursAt(NO_OUTPUT, "STDERR:", i)
    {
      assert NO_OUTPUT[i] != 'S';
      assert "STDERR:"[0] == 'S';
    }
  }
}
