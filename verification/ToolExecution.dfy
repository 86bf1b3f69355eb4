/** The tool registry and the executor that runs a registered tool on decoded
    JSON arguments (backend/app/agents/domain/tool_execution.py). */
module ToolExecution {
  import opened Wrappers
  import opened Text

  /** What `json.loads` can return.  Arguments are usually an object, but a
      provider may send any JSON value. */
  datatype Json =
    | Null
    | Bool(b: bool)
    | Number(n: real)
    | String(s: string)
    | Array(items: seq<Json>)
    | Object(fields: map<string, Json>)

  /** How a tool function ends. */
  datatype ToolOutcome = Returned(text: string) | TimedOut(message: string) | Threw(message: string)

  /** A tool function; the first argument tells executions apart, so that a tool
      may answer the same arguments differently each time. */
  type ToolFunction = (nat, map<string, Json>) -> ToolOutcome

  datatype ToolDefinition = ToolDefinition(name: string, description: string, required: seq<string>)

  datatype ToolExecutionResult = ToolExecutionResult(
    toolName: string, text: string, isError: bool, error: Option<string>)
  {
    predicate IsSuccess() {
      !isError && error.None?
    }
  }

  // ----- Python's `in` and iteration on a decoded value -----

  const NOT_ITERABLE := "argument is not iterable"
  const UNHASHABLE := "unhashable type"

  /** `name in args`, which only containers and strings support. */
  function Holds(args: Json, name: string): Result<bool> {
    match args
    case Object(fields) => Ok(name in fields)
    case Array(items) => Ok(String(name) in items)
    case String(s) => Ok(Contains(s, name))
    case _ => Raise(NOT_ITERABLE)
  }

  predicate Hashable(j: Json) {
    !j.Array? && !j.Object?
  }

  /** Looking every key of `args` up in the schema's properties: raises on a
      value that cannot be iterated and on an item that cannot be hashed. */
  function ScanKeys(args: Json): Result<()> {
    match args
    case Object(_) => Ok(())
    case String(_) => Ok(())
    case Array(items) => if forall j :: j in items ==> Hashable(j) then Ok(()) else Raise(UNHASHABLE)
    case _ => Raise(NOT_ITERABLE)
  }

  /** The first required name the arguments lack. */
  function FirstMissing(required: seq<string>, args: Json): Result<Option<string>> {
    if required == [] then Ok(None)
    else
      match Holds(args, required[0])
      case Raise(m) => Raise(m)
      case Ok(held) => if held then FirstMissing(required[1..], args) else Ok(Some(required[0]))
  }

  /** `validate_tool_args`: an error message, or None when the arguments pass. */
  function Validate(tools: map<string, ToolDefinition>, name: string, args: Json): Result<Option<string>> {
    if name !in tools then Ok(Some("Unknown tool: " + name))
    else
      match FirstMissing(tools[name].required, args)
      case Raise(m) => Raise(m)
      case Ok(Some(field)) => Ok(Some("Missing required argument: " + field))
      case Ok(None) =>
        match ScanKeys(args)
        case Raise(m) => Raise(m)
        case Ok(_) => Ok(None)
  }

  function Failed(name: string, error: string): ToolExecutionResult {
    ToolExecutionResult(name, "", true, Some(error))
  }

  const NOT_A_MAPPING := "argument after ** must be a mapping"

  /** `SafeToolExecutor.execute`.  Only validation runs outside its `try`. */
  function ExecuteTool(tools: map<string, ToolDefinition>, functions: map<string, ToolFunction>,
                       n: nat, name: string, args: Json): Result<ToolExecutionResult>
  {
    match Validate(tools, name, args)
    case Raise(m) => Raise(m)
    case Ok(Some(error)) => Ok(Failed(name, error))
    case Ok(None) =>
      if name !in functions then Ok(Failed(name, "Tool function not found: " + name))
      else if !args.Object? then Ok(Failed(name, "Tool execution failed: " + NOT_A_MAPPING))
      else
        match functions[name](n, args.fields)
        case Returned(text) => Ok(ToolExecutionResult(name, text, false, None))
        case TimedOut(m) => Ok(Failed(name, "Tool execution timed out: " + m))
        case Threw(m) => Ok(Failed(name, "Tool execution failed: " + m))
  }

  // ----- What the boundary promises -----

  predicate IsScalar(args: Json) {
    args.Null? || args.Bool? || args.Number?
  }

  lemma {:induction false} FirstMissingMeaning(required: seq<string>, args: Json)
    ensures FirstMissing(required, args).Raise? <==> required != [] && IsScalar(args)
    ensures args.Object? ==>
              (FirstMissing(required, args) == Ok(None) <==> forall f :: f in required ==> f in args.fields)
  {
    if required == [] {
    } else {
      FirstMissingMeaning(required[1..], args);
      assert required == [required[0]] + required[1..];
    }
  }

  /** A known tool gets a scalar, or an array that passes the required-name check
      and holds an array or an object, which cannot be hashed. */
  predicate ValidationRaises(tools: map<string, ToolDefinition>, name: string, args: Json) {
    && name in tools
    && (|| IsScalar(args)
        || (&& args.Array? && (exists j :: j in args.items && (j.Array? || j.Object?))
            && forall f :: f in tools[name].required ==> String(f) in args.items))
  }

  lemma {:induction false} FirstMissingInArray(required: seq<string>, items: seq<Json>)
    ensures FirstMissing(required, Array(items)) == Ok(None) <==> forall f :: f in required ==> String(f) in items
  {
    if required == [] {
    } else {
      FirstMissingInArray(required[1..], items);
      assert required == [required[0]] + required[1..];
    }
  }

  /** The executor is not quite safe: it raises exactly when validation does, which
      is never on an object. */
  lemma ExecuteRaisesExactly(tools: map<string, ToolDefinition>, functions: map<string, ToolFunction>,
                             n: nat, name: string, args: Json)
    ensures ExecuteTool(tools, functions, n, name, args).Raise? <==> ValidationRaises(tools, name, args)
  {
    if name in tools {
      FirstMissingMeaning(tools[name].required, args);
      if args.Array? { FirstMissingInArray(tools[name].required, args.items); }
    }
  }

  /** A result is a success exactly when a known tool with an implementation got
      an object with every required field and returned; its text is then the
      tool's own, and otherwise empty with the error filled in. */
  lemma ExecuteSucceedsExactly(tools: map<string, ToolDefinition>, functions: map<string, ToolFunction>,
                               n: nat, name: string, args: Json)
    requires ExecuteTool(tools, functions, n, name, args).Ok?
    ensures var r := ExecuteTool(tools, functions, n, name, args).value;
            && r.toolName == name
            && r.isError == r.error.Some? == !r.IsSuccess()
            && (r.isError ==> r.text == "")
            && (r.IsSuccess() <==>
                  && name in tools && name in functions && args.Object?
                  && (forall f :: f in tools[name].required ==> f in args.fields)
                  && functions[name](n, args.fields) == Returned(r.text))
  {
    if name in tools {
      FirstMissingMeaning(tools[name].required, args);
    }
  }

  // ----- What an execution comes to, written out -----

  /** The arguments lack a name: an object the key, an array the item, a string the
      substring. */
  predicate Lacks(args: Json, name: string) {
    match args
    case Object(fields) => name !in fields
    case Array(items) => String(name) !in items
    case String(s) => !Contains(s, name)
    case _ => false
  }

  /** The first required name that the arguments lack is the `k`-th. */
  ghost predicate FirstLacked(required: seq<string>, args: Json, k: int) {
    0 <= k < |required| && Lacks(args, required[k]) && forall j :: 0 <= j < k ==> !Lacks(args, required[j])
  }

  /** A known tool with an implementation gets an object with every required key. */
  ghost predicate Runs(tools: map<string, ToolDefinition>, functions: map<string, ToolFunction>,
                       name: string, args: Json)
  {
    && name in tools && name in functions && args.Object?
    && forall f :: f in tools[name].required ==> f in args.fields
  }

  /** What goes wrong behind validation. */
  ghost predicate RunError(functions: map<string, ToolFunction>, n: nat, name: string, args: Json, error: string) {
    if name !in functions then error == "Tool function not found: " + name
    else if !args.Object? then error == "Tool execution failed: " + "argument after ** must be a mapping"
    else
      match functions[name](n, args.fields)
      case Returned(_) => false
      case TimedOut(m) => error == "Tool execution timed out: " + m
      case Threw(m) => error == "Tool execution failed: " + m
  }

  /** The executor's error, case by case. */
  ghost predicate FailsWith(tools: map<string, ToolDefinition>, functions: map<string, ToolFunction>,
                            n: nat, name: string, args: Json, error: string)
  {
    if name !in tools then error == "Unknown tool: " + name
    else if exists k :: FirstLacked(tools[name].required, args, k) then
      exists k :: FirstLacked(tools[name].required, args, k)
                  && error == "Missing required argument: " + tools[name].required[k]
    else RunError(functions, n, name, args, error)
  }

  lemma {:induction false} FirstMissingIs(required: seq<string>, args: Json, f: string)
    requires FirstMissing(required, args) == Ok(Some(f))
    ensures exists k :: FirstLacked(required, args, k) && required[k] == f
  {
    if Lacks(args, required[0]) {
      assert FirstLacked(required, args, 0);
    } else {
      FirstMissingIs(required[1..], args, f);
      var k :| FirstLacked(required[1..], args, k) && required[1..][k] == f;
      assert FirstLacked(required, args, k + 1);
    }
  }

  lemma {:induction false} NoneMissing(required: seq<string>, args: Json)
    requires FirstMissing(required, args) == Ok(None)
    ensures forall k :: 0 <= k < |required| ==> !Lacks(args, required[k])
  {
    if required == [] {
    } else {
      NoneMissing(required[1..], args);
      assert required == [required[0]] + required[1..];
    }
  }

  lemma ValidationFails(tools: map<string, ToolDefinition>, functions: map<string, ToolFunction>,
                        n: nat, name: string, args: Json, error: string)
    requires Validate(tools, name, args) == Ok(Some(error))
    ensures FailsWith(tools, functions, n, name, args, error)
  {
    if name in tools {
      var f := FirstMissing(tools[name].required, args).value.value;
      FirstMissingIs(tools[name].required, args, f);
    }
  }

  lemma NothingLacked(tools: map<string, ToolDefinition>, name: string, args: Json)
    requires Validate(tools, name, args) == Ok(None)
    ensures name in tools && !exists k :: FirstLacked(tools[name].required, args, k)
  {
    NoneMissing(tools[name].required, args);
  }

  lemma RunErrs(tools: map<string, ToolDefinition>, functions: map<string, ToolFunction>,
                n: nat, name: string, args: Json)
    requires Validate(tools, name, args) == Ok(None) && !ExecuteTool(tools, functions, n, name, args).value.IsSuccess()
    ensures var r := ExecuteTool(tools, functions, n, name, args).value;
            r.error.Some? && RunError(functions, n, name, args, r.error.value)
  {
  }

  lemma RunFails(tools: map<string, ToolDefinition>, functions: map<string, ToolFunction>,
                 n: nat, name: string, args: Json)
    requires Validate(tools, name, args) == Ok(None) && !ExecuteTool(tools, functions, n, name, args).value.IsSuccess()
    ensures var r := ExecuteTool(tools, functions, n, name, args).value;
            r.error.Some? && FailsWith(tools, functions, n, name, args, r.error.value)
  {
    NothingLacked(tools, name, args);
    RunErrs(tools, functions, n, name, args);
  }

  /** What an execution that does not raise comes to: the tool's own text when it runs
      and returns, and otherwise the error of the first thing that went wrong. */
  lemma ExecuteExactly(tools: map<string, ToolDefinition>, functions: map<string, ToolFunction>,
                       n: nat, name: string, args: Json)
    requires ExecuteTool(tools, functions, n, name, args).Ok?
    ensures var r := ExecuteTool(tools, functions, n, name, args).value;
            && (r.IsSuccess() <==>
                  Runs(tools, functions, name, args) && functions[name](n, args.fields) == Returned(r.text))
            && (!r.IsSuccess() ==> r.error.Some? && FailsWith(tools, functions, n, name, args, r.error.value))
  {
    ExecuteSucceedsExactly(tools, functions, n, name, args);
    var r, validation := ExecuteTool(tools, functions, n, name, args).value, Validate(tools, name, args).value;
    if validation.Some? {
      ValidationFails(tools, functions, n, name, args, validation.value);
    } else if !r.IsSuccess() {
      RunFails(tools, functions, n, name, args);
    }
  }

  // ----- The registry and the executor as objects -----

  class ToolRegistry {
    var tools: map<string, ToolDefinition>
    var functions: map<string, ToolFunction>

    /** The two dictionaries have the same keys, so a tool that validates also
        has an implementation. */
    ghost predicate Valid()
      reads this
    {
      tools.Keys == functions.Keys && forall name :: name in tools ==> tools[name].name == name
    }

    constructor ()
      ensures Valid() && tools == map[]
    {
      tools, functions := map[], map[];
    }

    /** What is not callable comes as None. */
    method Register(definition: ToolDefinition, func: Option<ToolFunction>) returns (r: Result<()>)
      requires Valid()
      modifies this
      ensures Valid()
      ensures r.Raise? <==> definition.name in old(tools) || func.None?
      ensures r.Raise? ==> tools == old(tools) && functions == old(functions)
      ensures r.Ok? ==> tools == old(tools)[definition.name := definition]
      ensures r.Ok? ==> functions == old(functions)[definition.name := func.value]
    {
      if definition.name in tools {
        return Raise("Tool '" + definition.name + "' is already registered");
      }
      if func.None? {
        return Raise("Tool function for '" + definition.name + "' must be callable");
      }
      tools := tools[definition.name := definition];
      functions := functions[definition.name := func.value];
      r := Ok(());
    }

    method Unregister(name: string)
      requires Valid()
      modifies this
      ensures Valid()
      ensures tools == old(tools) - {name} && functions == old(functions) - {name}
    {
      tools := tools - {name};
      functions := functions - {name};
    }

    method ValidateToolArgs(name: string, args: Json) returns (r: Result<Option<string>>)
      ensures r == Validate(tools, name, args)
    {
      if name !in tools {
        return Ok(Some("Unknown tool: " + name));
      }
      var required := tools[name].required;
      var i := 0;
      while i < |required|
        invariant 0 <= i <= |required|
        invariant FirstMissing(required, args) == FirstMissing(required[i..], args)
      {
        var held := Holds(args, required[i]);
        if held.Raise? {
          return Raise(held.message);
        }
        if !held.value {
          return Ok(Some("Missing required argument: " + required[i]));
        }
        i := i + 1;
      }
      var scan := ScanKeys(args);
      return if scan.Raise? then Raise(scan.message) else Ok(None);
    }

    method Execute(n: nat, name: string, args: Json) returns (r: Result<ToolExecutionResult>)
      ensures r == ExecuteTool(tools, functions, n, name, args)
    {
      var validation := ValidateToolArgs(name, args);
      if validation.Raise? {
        return Raise(validation.message);
      }
      if validation.value.Some? {
        return Ok(Failed(name, validation.value.value));
      }
      if name !in functions {
        return Ok(Failed(name, "Tool function not found: " + name));
      }
      if !args.Object? {
        return Ok(Failed(name, "Tool execution failed: " + NOT_A_MAPPING));
      }
      var outcome := functions[name](n, args.fields);
      match outcome
      case Returned(text) => r := Ok(ToolExecutionResult(name, text, false, None));
      case TimedOut(m) => r := Ok(Failed(name, "Tool execution timed out: " + m));
      case Threw(m) => r := Ok(Failed(name, "Tool execution failed: " + m));
    }
  }
}
