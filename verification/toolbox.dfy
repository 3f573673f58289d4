/**
 * The base toolbox an agent works with: `read_file`, `write_file` and
 * `run_shell` over one workspace, their schemas, and the name-based
 * dispatcher. The evaluation harness builds one per task workspace; the
 * packaged agent tools and the first agent loop use a fixed workspace
 * directory. All three behave the same once the workspace is fixed.
 */
module Toolbox {
  import opened Wrappers
  import opened Strings
  import opened PyModel
  import opened Paths
  import opened Shell

  /** Running a command in a directory; the command may change the files it can see. */
  type ShellRunner = (string, string, Files) -> (Files, ShellOutcome)

  const TOOL_NAMES: seq<string> := ["read_file", "write_file", "run_shell"]

  const READ_FILE_SCHEMA: PyValue := FunctionSchema(
    "read_file", "Read the contents of a file at the given path.",
    map["path" := StringParam("Absolute or relative path to the file.")], ["path"])

  const WRITE_FILE_SCHEMA: PyValue := FunctionSchema(
    "write_file", "Write content to a file, creating it and any missing parent directories if needed.",
    map["path" := StringParam("Absolute or relative path to the file."),
        "content" := StringParam("Content to write to the file.")], ["path", "content"])

  const RUN_SHELL_SCHEMA: PyValue := FunctionSchema(
    "run_shell", "Run a shell command and return its stdout and stderr. Use for running tests, installing packages, listing directories, etc.",
    map["command" := StringParam("Shell command to execute.")], ["command"])

  /** `TOOL_SCHEMAS`: the three schemas, in the order read, write, shell. */
  const TOOL_SCHEMAS: seq<PyValue> := [READ_FILE_SCHEMA, WRITE_FILE_SCHEMA, RUN_SHELL_SCHEMA]

  /** The `TypeError` a handler raises when `**args` does not bind to its parameters. */
  function ArgumentError(name: string): string {
    name + "() got arguments that do not match its parameters"
  }

  /**
   * One workspace's toolbox. `writeError` says whether creating the parent
   * directories or opening the resolved path for writing fails, and with which
   * message.
   */
  datatype Toolbox = Toolbox(workspace: string, shell: ShellRunner, writeError: (string, Files) -> Option<string>)
  {
    /** `read_file`: the file's text as a text-mode read returns it, or the error text of a missing file. */
    function ReadFile(fs: Files, path: string): (r: string)
      ensures Resolve(workspace, path) in fs ==> r == Newlines(fs[Resolve(workspace, path)])
      ensures Resolve(workspace, path) !in fs ==> StartsWith(r, "Error: ")
    {
      var resolved := Resolve(workspace, path);
      if resolved in fs then Newlines(fs[resolved])
      else
        var detail := "[Errno 2] No such file or directory: " + Repr(resolved);
        StartsWithConcat("Error: ", detail);
        "Error: " + detail
    }

    /** `write_file`: the new files and the report, or the unchanged files and the error text. */
    function WriteFile(fs: Files, path: string, content: string): (r: (Files, string))
      ensures writeError(Resolve(workspace, path), fs).Some? ==> r.0 == fs && StartsWith(r.1, "Error: ")
      ensures writeError(Resolve(workspace, path), fs).None? ==>
        r.0 == fs[Resolve(workspace, path) := content]
        && r.1 == "Wrote " + NatToString(|content|) + " characters to " + Resolve(workspace, path)
    {
      var resolved := Resolve(workspace, path);
      match writeError(resolved, fs)
      case Some(e) => (fs, "Error: " + e)
      case None => (fs[resolved := content], "Wrote " + NatToString(|content|) + " characters to " + resolved)
    }

    /** `run_shell`: the command runs in the workspace; its outcome is formatted, never raised. */
    function RunShell(fs: Files, command: string): (r: (Files, string))
      ensures r.0 == shell(command, workspace, fs).0
      ensures r.1 == ShellResult(shell(command, workspace, fs).1)
    {
      var (fs', outcome) := shell(command, workspace, fs);
      (fs', ShellResult(outcome))
    }

    /**
     * `dispatch(name, args)`: an unknown name is answered, not raised; a known
     * name calls its handler with the arguments as keywords.
     */
    function Dispatch(fs: Files, name: string, args: Args): (r: (Files, CallOutcome))
      ensures name !in TOOL_NAMES ==> r == (fs, Returned("Unknown tool: " + name))
      ensures name == "read_file" && args.Keys == {"path"} ==> r == (fs, Returned(ReadFile(fs, args["path"])))
      ensures name == "write_file" && args.Keys == {"path", "content"} ==>
        r == (WriteFile(fs, args["path"], args["content"]).0, Returned(WriteFile(fs, args["path"], args["content"]).1))
      ensures name == "run_shell" && args.Keys == {"command"} ==>
        r == (RunShell(fs, args["command"]).0, Returned(RunShell(fs, args["command"]).1))
      ensures r.1.CallRaised? ==> name in TOOL_NAMES && r.0 == fs
    {
      if name == "read_file" then
        if args.Keys == {"path"} then (fs, Returned(ReadFile(fs, args["path"])))
        else (fs, CallRaised(ArgumentError(name)))
      else if name == "write_file" then
        if args.Keys == {"path", "content"} then
          var (fs', text) := WriteFile(fs, args["path"], args["content"]);
          (fs', Returned(text))
        else (fs, CallRaised(ArgumentError(name)))
      else if name == "run_shell" then
        if args.Keys == {"command"} then
          var (fs', text) := RunShell(fs, args["command"]);
          (fs', Returned(text))
        else (fs, CallRaised(ArgumentError(name)))
      else (fs, Returned("Unknown tool: " + name))
    }
  }

  /** The schemas name the handlers, in the same order as the handler table. */
  lemma {:induction false} SchemasMatchHandlers()
    ensures |TOOL_SCHEMAS| == |TOOL_NAMES| == 3
    ensures forall i :: 0 <= i < 3 ==> SchemaName(TOOL_SCHEMAS[i]) == Some(TOOL_NAMES[i])
  {
    assert SchemaName(READ_FILE_SCHEMA) == Some("read_file");
    assert SchemaName(WRITE_FILE_SCHEMA) == Some("write_file");
    assert SchemaName(RUN_SHELL_SCHEMA) == Some("run_shell");
  }

  /**
   * What `write_file` writes, `read_file` reads back at the same path, with
   * its line endings translated; text without carriage returns comes back as
   * it was written.
   */
  lemma {:induction false} WriteThenRead(tb: Toolbox, fs: Files, path: string, content: string)
    requires tb.writeError(Resolve(tb.workspace, path), fs).None?
    ensures tb.ReadFile(tb.WriteFile(fs, path, content).0, path) == Newlines(content)
    ensures '\r' !in content ==> tb.ReadFile(tb.WriteFile(fs, path, content).0, path) == content
    ensures forall q :: q != Resolve(tb.workspace, path) && q in fs ==> tb.WriteFile(fs, path, content).0[q] == fs[q]
  {
    if '\r' !in content {
      NewlinesNoReturn(content);
    }
  }

  /** "x\r\ny" written is read back as "x\ny". */
  lemma {:induction false} ReadTranslatesNewlines(tb: Toolbox, fs: Files, path: string)
    requires tb.writeError(Resolve(tb.workspace, path), fs).None?
    ensures tb.ReadFile(tb.WriteFile(fs, path, "x\r\ny").0, path) == "x\ny"
  {
    var s := "x\r\ny";
    assert s[1..][2..] == "y";
    assert Newlines("y") == "y" by { assert "y"[1..] == []; }
    assert Newlines(s[1..]) == "\ny";
  }

  /** A relative path written through one toolbox lands under that toolbox's workspace. */
  lemma {:induction false} WriteStaysInWorkspace(tb: Toolbox, fs: Files, path: string, content: string)
    requires tb.writeError(Resolve(tb.workspace, path), fs).None?
    requires !IsAbsolute(path)
    ensures forall q :: q in tb.WriteFile(fs, path, content).0 && q !in fs ==> StartsWith(q, tb.workspace)
  {
  }
}
