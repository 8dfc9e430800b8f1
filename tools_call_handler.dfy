/**
 * The handler for the `tools/call` and `tools/execute` methods: it validates
 * `params.name`, looks the tool up in the repository, defaults `arguments`,
 * runs the tool once and shapes its outcome. The two aliases treat a tool
 * failure differently: `tools/call` reports it in-band with `isError: true`,
 * every other method turns it into an INTERNAL_ERROR.
 */
module ToolsCallHandler {
  import opened Wrappers
  import opened Json
  import opened PhpText
  import opened JsonRpc

  const CALL: string := "tools/call"
  const EXECUTE: string := "tools/execute"

  /** How one run of a tool ends: with a value, or by throwing. */
  datatype ToolOutcome = Returned(value: Json) | Raised(thrown: Throwable)

  /** A tool, known only through its `execute($arguments)`. */
  datatype Tool = Tool(execute: Json -> ToolOutcome)

  /**
   * `ToolRepository::getTool($name)`: the tool, null when none has that
   * name, or what the call throws (a `TypeError` for a name its declared
   * parameter type refuses, say).
   */
  type Repository = Json -> Result<Option<Tool>, Throwable>

  /** `json_encode($value)`: the JSON text, or None where PHP returns false. */
  type Encoder = Json -> Option<string>

  /** The array `execute` returns, by its two shapes. */
  datatype CallResult =
      /** `['content' => [['type' => 'text', 'text' => text]], 'isError' => isError]` */
    | ToolContent(text: Json, isError: bool)
      /** `['result' => result]` */
    | Wrapped(result: Json)
  {
    /** The PHP array itself. */
    function ToJson(): (r: Json)
      ensures r.JObject?
      ensures ToolContent? ==> r.members.Keys == {"content", "isError"} && r.members["isError"] == JBool(isError)
      ensures ToolContent? ==> r.members["content"] == JArray([JObject(map["type" := JString("text"), "text" := text])])
      ensures Wrapped? ==> r.members == map["result" := result]
    {
      match this
      case ToolContent(text, isError) =>
        JObject(map[
          "content" := JArray([JObject(map["type" := JString("text"), "text" := text])]),
          "isError" := JBool(isError)])
      case Wrapped(result) => JObject(map["result" := result])
    }
  }

  /** Reads a returned array back into its shape; the inverse of `ToJson`. */
  function FromJson(v: Json): (r: Option<CallResult>)
    ensures r.Some? ==> v.JObject?
  {
    if v.JObject? && v.members.Keys == {"result"} then Some(Wrapped(v.members["result"]))
    else if v.JObject? && v.members.Keys == {"content", "isError"} && v.members["isError"].JBool?
      && v.members["content"].JArray? && |v.members["content"].items| == 1
      && v.members["content"].items[0].JObject?
      && v.members["content"].items[0].members.Keys == {"type", "text"}
      && v.members["content"].items[0].members["type"] == JString("text")
    then Some(ToolContent(v.members["content"].items[0].members["text"], v.members["isError"].b))
    else None
  }

  lemma ResultShapeRoundTrip(c: CallResult)
    ensures FromJson(c.ToJson()) == Some(c)
  {
  }

  /** The method names this handler serves: exactly the two aliases. */
  predicate IsHandle(rpcMethod: string)
    ensures IsHandle(rpcMethod) <==> rpcMethod in {CALL, EXECUTE}
    ensures IsHandle(rpcMethod) ==> StartsWith(rpcMethod, "tools/")
  {
    rpcMethod == CALL || rpcMethod == EXECUTE
  }

  /** `$params['arguments'] ?? []`: the arguments handed to the tool. */
  function Arguments(params: Json): (args: Json)
    ensures Get(params, "arguments").None? ==> args == EmptyArray
    ensures Get(params, "arguments").Some? ==> args == params.members["arguments"]
  {
    GetOr(params, "arguments", EmptyArray)
  }

  /** `is_string($result) ? $result : json_encode($result)`. */
  function ResultText(result: Json, encode: Encoder): (text: Json)
    ensures text.JString? || text == JBool(false)
    ensures result.JString? ==> text == result
    ensures !result.JString? ==> (text.JString? <==> encode(result).Some?)
    ensures !result.JString? && encode(result).Some? ==> text.s == encode(result).value
  {
    if result.JString? then result
    else match encode(result)
      case Some(json) => JString(json)
      case None => JBool(false)
  }

  function NotFoundMessage(name: Json): string
  {
    "Tool '" + PhpString(name) + "' not found"
  }

  /** The in-band text `tools/call` reports for a failed tool. */
  function CallFailureText(name: Json, message: string): string
  {
    "Error executing tool '" + PhpString(name) + "': " + message
  }

  /** The INTERNAL_ERROR message any other method raises for a failed tool. */
  function ExecuteFailureMessage(name: Json, rpcMethod: string, message: string): string
  {
    "Error executing tool '" + PhpString(name) + "' for method '" + rpcMethod + "': " + message
  }

  /**
   * Runs the tool found under `name` once on `arguments` and shapes its
   * outcome for `rpcMethod`. Only an `\Exception` is caught; an `\Error`
   * thrown by the tool leaves unchanged.
   */
  function RunTool(tool: Tool, name: Json, rpcMethod: string, arguments: Json, encode: Encoder)
    : (outcome: Result<CallResult, Throwable>)
    // an `\Error` is never caught, whatever the method
    ensures tool.execute(arguments).Raised? && !tool.execute(arguments).thrown.IsException()
      ==> outcome == Err(tool.execute(arguments).thrown)
    // tools/call isolates tool failures: it raises nothing an `\Exception` could be
    ensures rpcMethod == CALL ==> outcome.Ok? || outcome.error.PhpError?
    ensures rpcMethod == CALL && outcome.Ok? ==>
      outcome.value.ToolContent? && (outcome.value.isError <==> tool.execute(arguments).Raised?)
    ensures rpcMethod == CALL && tool.execute(arguments).Returned? ==>
      outcome == Ok(ToolContent(ResultText(tool.execute(arguments).value, encode), false))
    ensures rpcMethod == CALL && tool.execute(arguments).Raised? && tool.execute(arguments).thrown.IsException() ==>
      outcome == Ok(ToolContent(JString(CallFailureText(name, tool.execute(arguments).thrown.message)), true))
    // every other method hands the value back wrapped, or fails with INTERNAL_ERROR
    ensures rpcMethod != CALL ==> (outcome.Ok? <==> tool.execute(arguments).Returned?)
    ensures rpcMethod != CALL && outcome.Ok? ==> outcome.value == Wrapped(tool.execute(arguments).value)
    ensures rpcMethod != CALL && tool.execute(arguments).Raised? && tool.execute(arguments).thrown.IsException() ==>
      outcome == Err(RpcError(INTERNAL_ERROR,
        ExecuteFailureMessage(name, rpcMethod, tool.execute(arguments).thrown.message)))
  {
    var ran := tool.execute(arguments);
    if rpcMethod == CALL then
      match ran
      case Returned(result) => Ok(ToolContent(ResultText(result, encode), false))
      case Raised(e) =>
        if e.IsException() then Ok(ToolContent(JString(CallFailureText(name, e.message)), true))
        else Err(e)
    else
      match ran
      case Returned(result) => Ok(Wrapped(result))
      case Raised(e) =>
        if e.IsException() then Err(RpcError(INTERNAL_ERROR, ExecuteFailureMessage(name, rpcMethod, e.message)))
        else Err(e)
  }

  /**
   * One call of `execute`, with what it asked of its collaborators: the
   * names it looked up in the repository and the arguments of each tool run.
   */
  datatype Execution = Execution(outcome: Result<CallResult, Throwable>, lookups: seq<Json>, runs: seq<Json>)

  /**
   * `ToolsCallHandler::execute($method, $params)`. `$params` is declared
   * `?array`, so callers pass an array or null.
   */
  function Execute(repo: Repository, encode: Encoder, rpcMethod: string, params: Json): (e: Execution)
    requires IsArrayOrNull(params)
    // the repository is consulted at most once, the tool run at most once
    ensures |e.lookups| <= 1 && |e.runs| <= 1
    // a missing (or null) name is the first failure, before any lookup
    ensures Get(params, "name").None? ==>
      e == Execution(Err(RpcError(INVALID_REQUEST, "Tool name is required")), [], [])
    ensures Get(params, "name").Some? ==> e.lookups == [Get(params, "name").value]
    // a throwing lookup propagates unchanged, and nothing runs
    ensures Get(params, "name").Some? && repo(Get(params, "name").value).Err? ==>
      e.outcome == Err(repo(Get(params, "name").value).error) && e.runs == []
    // an unknown tool is the next failure, and nothing runs
    ensures Get(params, "name").Some? && repo(Get(params, "name").value) == Ok(None) ==>
      e.outcome == Err(RpcError(METHOD_NOT_FOUND, NotFoundMessage(Get(params, "name").value))) && e.runs == []
    // a tool runs only once found, and exactly on the defaulted arguments
    ensures e.runs != [] <==>
      Get(params, "name").Some? && repo(Get(params, "name").value).Ok? && repo(Get(params, "name").value).value.Some?
    ensures e.runs != [] ==> e.runs == [Arguments(params)]
    ensures e.runs != [] ==>
      e.outcome == RunTool(repo(Get(params, "name").value).value.value, Get(params, "name").value,
        rpcMethod, Arguments(params), encode)
  {
    match Get(params, "name")
    case None => Execution(Err(RpcError(INVALID_REQUEST, "Tool name is required")), [], [])
    case Some(name) =>
      match repo(name)
      case Err(thrown) => Execution(Err(thrown), [name], [])
      case Ok(None) => Execution(Err(RpcError(METHOD_NOT_FOUND, NotFoundMessage(name))), [name], [])
      case Ok(Some(tool)) =>
        var arguments := Arguments(params);
        Execution(RunTool(tool, name, rpcMethod, arguments, encode), [name], [arguments])
  }

  /** An unknown tool is reported as METHOD_NOT_FOUND naming the tool. */
  lemma UnknownToolIsNamed(repo: Repository, encode: Encoder, rpcMethod: string, params: Json)
    requires IsArrayOrNull(params)
    requires Get(params, "name").Some? && repo(Get(params, "name").value) == Ok(None)
    ensures var e := Execute(repo, encode, rpcMethod, params);
      e.outcome.Err? && e.outcome.error == RpcError(METHOD_NOT_FOUND, e.outcome.error.message)
      && Contains(e.outcome.error.message, PhpString(Get(params, "name").value))
  {
    ContainsInMiddle("Tool '", PhpString(Get(params, "name").value), "' not found");
  }

  /**
   * The same failing tool under the two aliases: `tools/call` succeeds with
   * an in-band error whose text carries the tool's message, `tools/execute`
   * fails with INTERNAL_ERROR whose message carries it too.
   */
  lemma AliasesDivergeOnToolFailure(repo: Repository, encode: Encoder, params: Json)
    requires IsArrayOrNull(params)
    requires Get(params, "name").Some?
    requires repo(Get(params, "name").value).Ok? && repo(Get(params, "name").value).value.Some?
    requires var tool := repo(Get(params, "name").value).value.value;
      tool.execute(Arguments(params)).Raised? && tool.execute(Arguments(params)).thrown.IsException()
    ensures var message := repo(Get(params, "name").value).value.value.execute(Arguments(params)).thrown.message;
      var called := Execute(repo, encode, CALL, params).outcome;
      var executed := Execute(repo, encode, EXECUTE, params).outcome;
      && called.Ok? && called.value.ToolContent? && called.value.isError
      && called.value.text.JString? && Contains(called.value.text.s, message)
      && executed.Err? && executed.error.RpcError? && executed.error.code == INTERNAL_ERROR
      && Contains(executed.error.message, message)
  {
    var name := Get(params, "name").value;
    var message := repo(name).value.value.execute(Arguments(params)).thrown.message;
    ContainsInMiddle("Error executing tool '" + PhpString(name) + "': ", message, "");
    assert CallFailureText(name, message) == "Error executing tool '" + PhpString(name) + "': " + message + "";
    ContainsInMiddle("Error executing tool '" + PhpString(name) + "' for method '" + EXECUTE + "': ", message, "");
    assert ExecuteFailureMessage(name, EXECUTE, message)
      == "Error executing tool '" + PhpString(name) + "' for method '" + EXECUTE + "': " + message + "";
  }
}
