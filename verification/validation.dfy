/**
 * `_validate_tool_code`: the structural check a generated tool must pass
 * before it is registered. The code is executed into a fresh namespace, which
 * must define `SCHEMA` whose `function.name` names a callable in the same
 * namespace. The checks run in a fixed order and the first failure is
 * reported; a malformed `SCHEMA` or an unhashable name raises instead.
 */
module Validation {
  import opened Strings
  import opened PyModel

  datatype Validation =
    | Valid(name: string)
    | Invalid(reason: string)
    | ValidationRaised(message: string)

  const MISSING_SCHEMA: string := "Missing SCHEMA definition"
  const MISSING_NAME: string := "SCHEMA missing function.name"

  /** The error Python raises on `v.get(...)` when `v` is not a dict. */
  function NoGet(v: PyValue): string {
    "'" + v.TypeName() + "' object has no attribute 'get'"
  }

  /** `SCHEMA.get("function", {}).get("name")`: the name value, or the exception a non-dict raises. */
  function FunctionNameValue(schema: PyValue): (r: Result)
    ensures r.Found? <==> schema.Dict? && Get(schema.entries, "function", Dict(map[])).Dict?
  {
    if !schema.Dict? then GetRaised(NoGet(schema))
    else
      var fn := Get(schema.entries, "function", Dict(map[]));
      if !fn.Dict? then GetRaised(NoGet(fn))
      else Found(Get(fn.entries, "name", NONE))
  }

  datatype Result = Found(value: PyValue) | GetRaised(message: string)

  /** The checks that follow a successful `exec`. */
  function CheckNamespace(ns: map<string, PyValue>): (r: Validation)
    ensures r == Invalid(MISSING_SCHEMA) <==> "SCHEMA" !in ns
    ensures r.ValidationRaised? ==> "SCHEMA" in ns
    ensures r.Valid? <==>
      "SCHEMA" in ns && FunctionNameValue(ns["SCHEMA"]).Found?
      && FunctionNameValue(ns["SCHEMA"]).value.Str?
      && FunctionNameValue(ns["SCHEMA"]).value.s != []
      && FunctionNameValue(ns["SCHEMA"]).value.s in ns
      && ns[FunctionNameValue(ns["SCHEMA"]).value.s].Callable()
    ensures r.Valid? ==> r.name == FunctionNameValue(ns["SCHEMA"]).value.s
    ensures r == Invalid(MISSING_NAME) <==>
      "SCHEMA" in ns && FunctionNameValue(ns["SCHEMA"]).Found? && !FunctionNameValue(ns["SCHEMA"]).value.Truthy()
  {
    ReasonsDistinct();
    if "SCHEMA" !in ns then Invalid(MISSING_SCHEMA)
    else
      match FunctionNameValue(ns["SCHEMA"])
      case GetRaised(m) => ValidationRaised(m)
      case Found(name) =>
        if !name.Truthy() then Invalid(MISSING_NAME)
        else if !name.Hashable() then ValidationRaised("unhashable type: '" + name.TypeName() + "'")
        else if !name.Str? || name.s !in ns then Invalid(NotDefined(name.Text()))
        else if !ns[name.s].Callable() then Invalid(NotCallable(name.s))
        else Valid(name.s)
  }

  const EXEC_ERROR_PREFIX: string := "Code execution error: "

  function NotDefined(text: string): string {
    "Function '" + text + "' not defined"
  }

  function NotCallable(name: string): string {
    "'" + name + "' is not callable"
  }

  /** The failure reasons are told apart by their first character. */
  lemma {:induction false} ReasonsDistinct()
    ensures MISSING_SCHEMA != MISSING_NAME
    ensures forall t :: NotDefined(t) != MISSING_SCHEMA && NotDefined(t) != MISSING_NAME
    ensures forall t :: NotCallable(t) != MISSING_SCHEMA && NotCallable(t) != MISSING_NAME
  {
    assert MISSING_SCHEMA[0] == 'M' && MISSING_NAME[0] == 'S';
    forall t ensures NotDefined(t)[0] == 'F' && NotCallable(t)[0] == '\'' {
    }
  }

  /** `_validate_tool_code(code)`: execution errors come first, then the namespace checks. */
  function ValidateToolCode(exec: Interpreter, code: string): (r: Validation)
    ensures exec(code).ExecRaised? ==> r == Invalid(EXEC_ERROR_PREFIX + exec(code).message)
    ensures exec(code).Executed? ==> r == CheckNamespace(exec(code).namespace)
    ensures r.Valid? ==> exec(code).Executed? && r.name in exec(code).namespace
                         && exec(code).namespace[r.name].Callable()
                         && "SCHEMA" in exec(code).namespace
  {
    match exec(code)
    case ExecRaised(m) => Invalid(EXEC_ERROR_PREFIX + m)
    case Executed(ns) => CheckNamespace(ns)
  }

  /** An execution-error verdict is reported exactly when `exec` raised: no later check produces one. */
  lemma {:induction false} ExecErrorFirst(exec: Interpreter, code: string)
    ensures var r := ValidateToolCode(exec, code);
      (r.Invalid? && StartsWith(r.reason, EXEC_ERROR_PREFIX)) <==> exec(code).ExecRaised?
  {
    var r := ValidateToolCode(exec, code);
    match exec(code)
    case ExecRaised(m) =>
      StartsWithConcat(EXEC_ERROR_PREFIX, m);
    case Executed(ns) =>
      if r.Invalid? && StartsWith(r.reason, EXEC_ERROR_PREFIX) {
        assert r.reason[0] == 'C';
        assert r.reason == MISSING_SCHEMA || r.reason == MISSING_NAME
            || (exists t :: r.reason == NotDefined(t)) || (exists t :: r.reason == NotCallable(t));
        assert MISSING_SCHEMA[0] == 'M' && MISSING_NAME[0] == 'S';
        forall t ensures NotDefined(t)[0] == 'F' && NotCallable(t)[0] == '\'' {
        }
        assert false;
      }
  }

  /** A missing `USAGE_EXAMPLE` never changes the verdict (it only prints a warning). */
  lemma {:induction false} UsageExampleIrrelevant(ns: map<string, PyValue>)
    requires "SCHEMA" in ns ==> match FunctionNameValue(ns["SCHEMA"])
      case Found(v) => v != Str("USAGE_EXAMPLE")
      case GetRaised(_) => true
    ensures CheckNamespace(ns - {"USAGE_EXAMPLE"}) == CheckNamespace(ns)
  {
    var ns' := ns - {"USAGE_EXAMPLE"};
    assert "SCHEMA" in ns' <==> "SCHEMA" in ns;
    if "SCHEMA" in ns {
      assert ns'["SCHEMA"] == ns["SCHEMA"];
    }
  }

  /** The name a valid tool is registered under is the schema's function name. */
  lemma {:induction false} ValidNameIsSchemaName(ns: map<string, PyValue>)
    requires CheckNamespace(ns).Valid?
    ensures SchemaName(ns["SCHEMA"]) == Wrappers.Some(CheckNamespace(ns).name)
  {
  }
}
