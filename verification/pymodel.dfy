/**
 * The handful of Python runtime notions the core inspects: a value loaded
 * from generated code (a `SCHEMA` dict, a function, anything else), the
 * namespace an `exec` leaves behind, and the outcome of calling a function
 * that may raise.
 */
module PyModel {
  import opened Wrappers

  /**
   * A Python value as far as the core looks at it. Strings, dicts with string
   * keys and lists are spelled out; every other object keeps only what the
   * core asks of it: its type name, truthiness, whether `callable()` holds,
   * whether it can be hashed, and its `str()` text.
   */
  datatype PyValue =
    | Str(s: string)
    | Dict(entries: map<string, PyValue>)
    | List(items: seq<PyValue>)
    | Other(typeName: string, truthy: bool, isCallable: bool, hashable: bool, text: string)
  {
    /** Python truthiness (`bool(v)`). */
    predicate Truthy() {
      match this
      case Str(s) => s != []
      case Dict(m) => m != map[]
      case List(xs) => xs != []
      case Other(_, t, _, _, _) => t
    }

    predicate Callable() {
      Other? && isCallable
    }

    predicate Hashable() {
      match this
      case Str(_) => true
      case Dict(_) => false
      case List(_) => false
      case Other(_, _, _, h, _) => h
    }

    /** `type(v).__name__`. */
    function TypeName(): string {
      match this
      case Str(_) => "str"
      case Dict(_) => "dict"
      case List(_) => "list"
      case Other(n, _, _, _, _) => n
    }

    /** `str(v)` for the values whose text the core formats into a message. */
    function Text(): string {
      match this
      case Str(s) => s
      case Dict(_) => "{...}"
      case List(_) => "[...]"
      case Other(_, _, _, _, t) => t
    }
  }

  /** Python's `None`: a falsy, hashable, non-callable object. */
  const NONE: PyValue := Other("NoneType", false, false, true, "None")

  /** `d.get(key, default)` on a value already known to be a dict. */
  function Get(entries: map<string, PyValue>, key: string, default: PyValue): (v: PyValue)
    ensures key in entries ==> v == entries[key]
    ensures key !in entries ==> v == default
  {
    if key in entries then entries[key] else default
  }

  /** What `exec(code, namespace)` leaves: the filled namespace, or the exception it raised. */
  datatype ExecResult = Executed(namespace: map<string, PyValue>) | ExecRaised(message: string)

  /** Running Python source text; the interpreter itself is outside the model. */
  type Interpreter = string -> ExecResult

  /** The result of calling a Python callable: a value rendered with `str()`, or an exception. */
  datatype CallOutcome = Returned(text: string) | CallRaised(message: string)

  /** Keyword arguments of a tool call, as decoded from the model's JSON arguments. */
  type Args = map<string, string>

  /**
   * The OpenAI function-tool schema every tool module publishes:
   * `{"type": "function", "function": {"name": …, "description": …, "parameters": …}}`.
   */
  function FunctionSchema(name: string, description: string, properties: map<string, PyValue>, required: seq<string>): (v: PyValue)
    ensures SchemaName(v) == Some(name)
  {
    Dict(map[
      "type" := Str("function"),
      "function" := Dict(map[
        "name" := Str(name),
        "description" := Str(description),
        "parameters" := Dict(map[
          "type" := Str("object"),
          "properties" := Dict(properties),
          "required" := List(seq(|required|, i requires 0 <= i < |required| => Str(required[i])))
        ])
      ])
    ])
  }

  /** `SCHEMA["function"]["name"]` when it is a string. */
  function SchemaName(schema: PyValue): Option<string> {
    if schema.Dict? && "function" in schema.entries
       && schema.entries["function"].Dict? && "name" in schema.entries["function"].entries
       && schema.entries["function"].entries["name"].Str?
    then Some(schema.entries["function"].entries["name"].s)
    else None
  }

  /** A string-typed parameter of a tool schema. */
  function StringParam(description: string): PyValue {
    Dict(map["type" := Str("string"), "description" := Str(description)])
  }
}
