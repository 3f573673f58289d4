/**
 * The tool library: a registry of generated tools persisted as
 * `registry.json`, plus the generated source files under `generated/`.
 * Registering is last-write-wins per name, marking verified edits the first
 * matching entry in place, removing drops every entry of a name and its
 * source file, and loading keeps the verified tools whose module loads,
 * skipping any that fail.
 */
module Library {
  import opened Wrappers
  import opened PyModel
  import Validation

  /** One registry entry (`registry["tools"][i]`). */
  datatype Entry = Entry(
    name: string,
    file: string,
    generatedFromTask: string,
    generatedByModel: string,
    verified: bool,
    verifiedWithModel: string,
    createdAt: string)

  /** The source file of a generated tool, relative to the library directory. */
  function SourcePath(name: string): string {
    "generated/" + name + ".py"
  }

  /** `[t for t in tools if t["name"] != name]`. */
  function Without(tools: seq<Entry>, name: string): (r: seq<Entry>)
    ensures |r| <= |tools|
    ensures forall e :: e in r <==> e in tools && e.name != name
  {
    if tools == [] then []
    else (if tools[0].name != name then [tools[0]] else []) + Without(tools[1..], name)
  }

  /** The entries named `name`, in registry order. */
  function Named(tools: seq<Entry>, name: string): (r: seq<Entry>)
    ensures forall e :: e in r <==> e in tools && e.name == name
  {
    if tools == [] then []
    else (if tools[0].name == name then [tools[0]] else []) + Named(tools[1..], name)
  }

  /** Where `mark_verified` stops: the first entry named `name`. */
  function FirstIndex(tools: seq<Entry>, name: string): (r: Option<nat>)
    ensures r.Some? ==> r.value < |tools| && tools[r.value].name == name
                        && forall k :: 0 <= k < r.value ==> tools[k].name != name
    ensures r.None? ==> forall k :: 0 <= k < |tools| ==> tools[k].name != name
  {
    if tools == [] then None
    else if tools[0].name == name then Some(0)
    else match FirstIndex(tools[1..], name)
      case None => None
      case Some(i) => Some(i + 1)
  }

  /** The registry after `mark_verified`: the first entry named `name` becomes verified with `model`. */
  function MarkFirst(tools: seq<Entry>, name: string, model: string): seq<Entry> {
    if tools == [] then []
    else if tools[0].name == name then [tools[0].(verified := true, verifiedWithModel := model)] + tools[1..]
    else [tools[0]] + MarkFirst(tools[1..], name, model)
  }

  /** What loading one entry contributes. */
  datatype Step =
    | Skipped
    | SchemaOnly(schema: PyValue)
    | Both(schema: PyValue, name: string, handler: PyValue)

  /** The loaded library: schemas in registry order, handlers keyed by function name. */
  datatype LoadResult = LoadResult(schemas: seq<PyValue>, handlers: map<string, PyValue>)

  /** `module.SCHEMA["function"]["name"]`, when every subscript succeeds. */
  function SubscriptName(schema: PyValue): Option<PyValue> {
    if schema.Dict? && "function" in schema.entries && schema.entries["function"].Dict?
       && "name" in schema.entries["function"].entries
    then Some(schema.entries["function"].entries["name"])
    else None
  }

  /**
   * One iteration of `load_tools`: unverified entries and missing files are
   * skipped; a module that fails to load or whose schema cannot be indexed
   * is skipped; the schema is kept before `getattr`, so a name that is not a
   * string or not defined keeps the schema without a handler.
   */
  function LoadStep(e: Entry, files: map<string, string>, exec: Interpreter): Step {
    if !e.verified || e.file !in files then Skipped
    else match exec(files[e.file])
      case ExecRaised(_) => Skipped
      case Executed(ns) =>
        if "SCHEMA" !in ns then Skipped
        else match SubscriptName(ns["SCHEMA"])
          case None => Skipped
          case Some(v) =>
            if v.Str? && v.s in ns then Both(ns["SCHEMA"], v.s, ns[v.s]) else SchemaOnly(ns["SCHEMA"])
  }

  function Apply(acc: LoadResult, step: Step): LoadResult {
    match step
    case Skipped => acc
    case SchemaOnly(s) => acc.(schemas := acc.schemas + [s])
    case Both(s, n, h) => LoadResult(acc.schemas + [s], acc.handlers[n := h])
  }

  const EMPTY: LoadResult := LoadResult([], map[])

  /** Loading `tools` after an accumulator: one step per entry, in registry order. */
  function LoadFrom(acc: LoadResult, tools: seq<Entry>, files: map<string, string>, exec: Interpreter): LoadResult {
    if tools == [] then acc
    else Apply(LoadFrom(acc, tools[..|tools| - 1], files, exec), LoadStep(tools[|tools| - 1], files, exec))
  }

  function Loaded(tools: seq<Entry>, files: map<string, string>, exec: Interpreter): LoadResult {
    LoadFrom(EMPTY, tools, files, exec)
  }

  /** The number of entries marked verified. */
  function CountVerified(tools: seq<Entry>): (n: nat)
    ensures n <= |tools|
  {
    if tools == [] then 0 else CountVerified(tools[..|tools| - 1]) + (if tools[|tools| - 1].verified then 1 else 0)
  }

  /**
   * The library as it is stored: the registry (`None` while no `registry.json`
   * exists) and the source files, keyed by path relative to the library directory.
   */
  class Library {
    var registry: Option<seq<Entry>>
    var files: map<string, string>

    constructor(registry: Option<seq<Entry>>, files: map<string, string>)
      ensures this.registry == registry && this.files == files
    {
      this.registry := registry;
      this.files := files;
    }

    /** `_load_registry()["tools"]`: a missing registry reads as no tools. */
    function Tools(): seq<Entry>
      reads this
    {
      registry.GetOr([])
    }

    /** `list_tools`. */
    method ListTools() returns (tools: seq<Entry>)
      ensures registry.None? ==> tools == []
      ensures registry.Some? ==> tools == registry.value
    {
      tools := Tools();
    }

    /** `register_tool`: drops every entry with the name and appends the new one; no file is touched. */
    method Register(name: string, file: string, taskId: string, generatorModel: string, createdAt: string,
                    verified: bool := false, verifiedWith: string := "")
      modifies this
      ensures registry == Some(Without(old(Tools()), name)
                               + [Entry(name, file, taskId, generatorModel, verified, verifiedWith, createdAt)])
      ensures files == old(files)
    {
      var tools := Without(Tools(), name);
      tools := tools + [Entry(name, file, taskId, generatorModel, verified, verifiedWith, createdAt)];
      registry := Some(tools);
    }

    /** `mark_verified`: edits the first entry with the name and stops; the registry is saved even when none matches. */
    method MarkVerified(name: string, verifiedWithModel: string)
      modifies this
      ensures registry == Some(MarkFirst(old(Tools()), name, verifiedWithModel))
      ensures files == old(files)
    {
      var tools := Tools();
      var i := 0;
      while i < |tools|
        invariant 0 <= i <= |tools|
        invariant forall k :: 0 <= k < i ==> tools[k].name != name
        invariant tools == old(Tools())
      {
        if tools[i].name == name {
          MarkFirstAt(tools, name, verifiedWithModel, i);
          tools := tools[i := tools[i].(verified := true, verifiedWithModel := verifiedWithModel)];
          break;
        }
        i := i + 1;
      }
      if i == |tools| {
        MarkFirstAbsent(tools, name, verifiedWithModel);
      }
      registry := Some(tools);
    }

    /** `remove_tool`: drops every entry with the name, then deletes `generated/<name>.py` if present. */
    method Remove(name: string)
      modifies this
      ensures registry == Some(Without(old(Tools()), name))
      ensures files == old(files) - {SourcePath(name)}
    {
      registry := Some(Without(Tools(), name));
      var path := SourcePath(name);
      if path in files {
        files := files - {path};
      }
    }

    /** `load_tools`: one pass over the registry accumulating schemas and handlers. */
    method LoadTools(exec: Interpreter) returns (r: LoadResult)
      ensures r == Loaded(Tools(), files, exec)
    {
      var tools := Tools();
      var schemas: seq<PyValue> := [];
      var handlers: map<string, PyValue> := map[];
      for i := 0 to |tools|
        invariant LoadResult(schemas, handlers) == LoadFrom(EMPTY, tools[..i], files, exec)
      {
        assert tools[..i + 1][..i] == tools[..i];
        var entry := tools[i];
        if !entry.verified {
          continue;
        }
        if entry.file !in files {
          continue;
        }
        var loaded := exec(files[entry.file]);
        if loaded.ExecRaised? || "SCHEMA" !in loaded.namespace {
          continue;
        }
        var schema := loaded.namespace["SCHEMA"];
        var name := SubscriptName(schema);
        if name.None? {
          continue;
        }
        schemas := schemas + [schema];
        if name.value.Str? && name.value.s in loaded.namespace {
          handlers := handlers[name.value.s := loaded.namespace[name.value.s]];
        }
      }
      assert tools[..|tools|] == tools;
      r := LoadResult(schemas, handlers);
    }
  }

  lemma {:induction false} MarkFirstAt(tools: seq<Entry>, name: string, model: string, i: nat)
    requires i < |tools| && tools[i].name == name
    requires forall k :: 0 <= k < i ==> tools[k].name != name
    ensures MarkFirst(tools, name, model) == tools[i := tools[i].(verified := true, verifiedWithModel := model)]
  {
    if i > 0 {
      MarkFirstAt(tools[1..], name, model, i - 1);
      assert tools[1..][i - 1 := tools[i].(verified := true, verifiedWithModel := model)]
          == tools[i := tools[i].(verified := true, verifiedWithModel := model)][1..];
    }
  }

  lemma {:induction false} MarkFirstAbsent(tools: seq<Entry>, name: string, model: string)
    requires forall k :: 0 <= k < |tools| ==> tools[k].name != name
    ensures MarkFirst(tools, name, model) == tools
  {
    if tools != [] {
      MarkFirstAbsent(tools[1..], name, model);
    }
  }

  lemma {:induction false} NamedConcat(a: seq<Entry>, b: seq<Entry>, name: string)
    ensures Named(a + b, name) == Named(a, name) + Named(b, name)
  {
    if a != [] {
      assert (a + b)[1..] == a[1..] + b;
      NamedConcat(a[1..], b, name);
    } else {
      assert a + b == b;
    }
  }

  lemma {:induction false} WithoutConcat(a: seq<Entry>, b: seq<Entry>, name: string)
    ensures Without(a + b, name) == Without(a, name) + Without(b, name)
  {
    if a != [] {
      assert (a + b)[1..] == a[1..] + b;
      WithoutConcat(a[1..], b, name);
    } else {
      assert a + b == b;
    }
  }

  /** Without the entries of a name, none of that name remain; the others keep their order. */
  lemma {:induction false} NamedWithout(tools: seq<Entry>, name: string, other: string)
    ensures Named(Without(tools, name), other) == if other == name then [] else Named(tools, other)
  {
    if tools != [] {
      NamedWithout(tools[1..], name, other);
      NamedConcat(if tools[0].name != name then [tools[0]] else [], Without(tools[1..], name), other);
    }
  }

  lemma {:induction false} WithoutTwice(tools: seq<Entry>, name: string)
    ensures Without(Without(tools, name), name) == Without(tools, name)
  {
    if tools != [] {
      WithoutTwice(tools[1..], name);
      WithoutConcat(if tools[0].name != name then [tools[0]] else [], Without(tools[1..], name), name);
    }
  }

  /**
   * After registering `e`, exactly one entry carries its name and it is the
   * last one; the entries of every other name are the same, in the same order.
   */
  lemma {:induction false} RegisterLastWriteWins(tools: seq<Entry>, e: Entry)
    ensures var r := Without(tools, e.name) + [e];
      Named(r, e.name) == [e] && r[|r| - 1] == e
      && Without(r, e.name) == Without(tools, e.name)
      && forall m :: m != e.name ==> Named(r, m) == Named(tools, m)
  {
    var r := Without(tools, e.name) + [e];
    NamedConcat(Without(tools, e.name), [e], e.name);
    NamedWithout(tools, e.name, e.name);
    WithoutConcat(Without(tools, e.name), [e], e.name);
    WithoutTwice(tools, e.name);
    forall m | m != e.name ensures Named(r, m) == Named(tools, m) {
      NamedConcat(Without(tools, e.name), [e], m);
      NamedWithout(tools, e.name, m);
    }
  }

  /** Removing a tool twice changes nothing the second time, entries or files. */
  lemma {:induction false} RemoveIdempotent(tools: seq<Entry>, files: map<string, string>, name: string)
    ensures Without(Without(tools, name), name) == Without(tools, name)
    ensures (files - {SourcePath(name)}) - {SourcePath(name)} == files - {SourcePath(name)}
  {
    WithoutTwice(tools, name);
  }

  /** `mark_verified` edits only the first entry with the name, and nothing when the name is absent. */
  lemma {:induction false} MarkFirstOnlyFirst(tools: seq<Entry>, name: string, model: string)
    ensures var r := MarkFirst(tools, name, model);
      |r| == |tools|
      && (FirstIndex(tools, name).None? ==> r == tools)
      && (FirstIndex(tools, name).Some? ==>
            var i := FirstIndex(tools, name).value;
            r[i] == tools[i].(verified := true, verifiedWithModel := model)
            && forall k :: 0 <= k < |tools| && k != i ==> r[k] == tools[k])
  {
    match FirstIndex(tools, name)
    case None => MarkFirstAbsent(tools, name, model);
    case Some(i) => MarkFirstAt(tools, name, model, i);
  }

  lemma {:induction false} LoadFromConcat(acc: LoadResult, a: seq<Entry>, b: seq<Entry>,
                                          files: map<string, string>, exec: Interpreter)
    ensures LoadFrom(acc, a + b, files, exec) == LoadFrom(LoadFrom(acc, a, files, exec), b, files, exec)
  {
    if b == [] {
      assert a + b == a;
    } else {
      var b' := b[..|b| - 1];
      assert (a + b)[..|a + b| - 1] == a + b';
      assert (a + b)[|a + b| - 1] == b[|b| - 1];
      LoadFromConcat(acc, a, b', files, exec);
    }
  }

  /** Loading is fail-open: an entry that is skipped has no effect on what the others load. */
  lemma {:induction false} SkippedEntryIrrelevant(a: seq<Entry>, e: Entry, b: seq<Entry>, files: map<string, string>, exec: Interpreter)
    requires LoadStep(e, files, exec).Skipped?
    ensures Loaded(a + [e] + b, files, exec) == Loaded(a + b, files, exec)
  {
    LoadFromConcat(EMPTY, a + [e], b, files, exec);
    LoadFromConcat(EMPTY, a, [e], files, exec);
    LoadFromConcat(EMPTY, a, b, files, exec);
    assert [e][..0] == [];
  }

  /** No more handlers than schemas, and no more schemas than verified entries. */
  lemma {:induction false} LoadBounds(tools: seq<Entry>, files: map<string, string>, exec: Interpreter)
    ensures var r := Loaded(tools, files, exec);
      |r.handlers| <= |r.schemas| <= CountVerified(tools)
  {
    if tools != [] {
      var p := tools[..|tools| - 1];
      LoadBounds(p, files, exec);
      var acc := Loaded(p, files, exec);
      match LoadStep(tools[|tools| - 1], files, exec)
      case Skipped =>
      case SchemaOnly(_) =>
      case Both(_, n, h) =>
        assert |acc.handlers[n := h]| <= |acc.handlers| + 1;
    }
  }

  /** Every handler is keyed by the function name of a loaded schema. */
  lemma {:induction false} HandlersHaveSchemas(tools: seq<Entry>, files: map<string, string>, exec: Interpreter)
    ensures var r := Loaded(tools, files, exec);
      forall n :: n in r.handlers ==> exists s :: s in r.schemas && SubscriptName(s) == Some(Str(n))
  {
    if tools != [] {
      var p := tools[..|tools| - 1];
      HandlersHaveSchemas(p, files, exec);
      var acc := Loaded(p, files, exec);
      var r := Loaded(tools, files, exec);
      forall n | n in r.handlers ensures exists s :: s in r.schemas && SubscriptName(s) == Some(Str(n)) {
        match LoadStep(tools[|tools| - 1], files, exec)
        case Skipped =>
        case SchemaOnly(sc) =>
          var s :| s in acc.schemas && SubscriptName(s) == Some(Str(n));
          assert s in r.schemas;
        case Both(sc, m, h) =>
          if n == m {
            assert sc in r.schemas;
          } else {
            var s :| s in acc.schemas && SubscriptName(s) == Some(Str(n));
            assert s in r.schemas;
          }
      }
    }
  }

  /** Every loaded schema is the `SCHEMA` of a verified entry whose file exists and loads. */
  lemma {:induction false} SchemasFromVerified(tools: seq<Entry>, files: map<string, string>, exec: Interpreter)
    ensures forall s :: s in Loaded(tools, files, exec).schemas ==>
      exists e :: e in tools && e.verified && e.file in files && exec(files[e.file]).Executed?
                  && "SCHEMA" in exec(files[e.file]).namespace && exec(files[e.file]).namespace["SCHEMA"] == s
  {
    if tools != [] {
      var p := tools[..|tools| - 1];
      var last := tools[|tools| - 1];
      SchemasFromVerified(p, files, exec);
      var acc := Loaded(p, files, exec);
      forall s | s in Loaded(tools, files, exec).schemas
        ensures exists e :: e in tools && e.verified && e.file in files && exec(files[e.file]).Executed?
                  && "SCHEMA" in exec(files[e.file]).namespace && exec(files[e.file]).namespace["SCHEMA"] == s
      {
        if s in acc.schemas {
          var e :| e in p && e.verified && e.file in files && exec(files[e.file]).Executed?
                  && "SCHEMA" in exec(files[e.file]).namespace && exec(files[e.file]).namespace["SCHEMA"] == s;
          assert e in tools;
        } else {
          assert last in tools;
        }
      }
    }
  }

  /**
   * A tool whose code passed validation, once registered verified as the last
   * entry with its source saved, loads: its schema comes last and its handler
   * is the validated function.
   */
  lemma {:induction false} ValidatedToolLoads(tools: seq<Entry>, e: Entry, files: map<string, string>, exec: Interpreter)
    requires e.verified && e.file in files && exec(files[e.file]).Executed?
    requires Validation.CheckNamespace(exec(files[e.file]).namespace).Valid?
    ensures var ns := exec(files[e.file]).namespace;
      var n := Validation.CheckNamespace(ns).name;
      var r := Loaded(tools + [e], files, exec);
      n in r.handlers && r.handlers[n] == ns[n] && ns[n].Callable()
      && r.schemas != [] && r.schemas[|r.schemas| - 1] == ns["SCHEMA"]
  {
    var ns := exec(files[e.file]).namespace;
    LoadFromConcat(EMPTY, tools, [e], files, exec);
    assert [e][..0] == [];
    var v := Validation.FunctionNameValue(ns["SCHEMA"]).value;
    assert SubscriptName(ns["SCHEMA"]) == Some(v);
  }
}
