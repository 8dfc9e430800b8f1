/**
 * `SseController::resolveSseRequest`: the single MCP endpoint. A POST body
 * is validated as a JSON-RPC 2.0 request in a fixed order, only `initialize`
 * is served, and every failure becomes a JSON-RPC error envelope with an
 * HTTP status; a GET opens the event stream; any other verb gets 405.
 */
module SseController {
  import opened Wrappers
  import opened Json
  import opened PhpText
  import opened JsonRpc
  import ToolsCallHandler

  const INITIALIZE: string := "initialize"

  /** The parts of the HTTP request the controller reads. */
  datatype Request = Request(verb: string, content: string)

  /**
   * The controller's collaborators: `json_decode($content, true, 512,
   * JSON_THROW_ON_ERROR)`, whose failure carries the parser's diagnostic,
   * and `InitializeHandler::execute('initialize', $params)`.
   */
  datatype Server = Server(
    decode: string -> Result<Json, string>,
    initialize: Json -> Result<Json, Throwable>)

  /** A JSON-RPC 2.0 response envelope: a result or an error, never both. */
  datatype Envelope =
    | ResultEnvelope(id: Json, result: Json)
    | ErrorEnvelope(id: Json, code: int, message: string)

  /** What the controller hands back to the framework. */
  datatype Response =
      /** `response()->json(...)`; `logged` when the failure went to the error log. */
    | JsonResponse(status: int, body: Envelope, logged: bool)
      /** A `StreamedResponse` running the server's push loop, with these headers. */
    | EventStream(headers: seq<(string, string)>)
    | TextResponse(status: int, text: string)

  const STREAM_HEADERS: seq<(string, string)> := [
    ("Content-Type", "text/event-stream"),
    ("Cache-Control", "no-cache"),
    ("X-Accel-Buffering", "no")]

  const PARSE_ERROR_PREFIX: string := "Parse error: Invalid JSON. "

  /** `isset($m['jsonrpc'], $m['method'], $m['id'])`. */
  predicate HasEnvelopeMembers(decoded: Json)
  {
    Get(decoded, "jsonrpc").Some? && Get(decoded, "method").Some? && Get(decoded, "id").Some?
  }

  /** `$messageJson['id'] ?? null`: the id a response echoes. */
  function RequestId(decoded: Json): (id: Json)
    ensures id == JNull || (decoded.JObject? && "id" in decoded.members && id == decoded.members["id"])
    ensures Get(decoded, "id").Some? ==> id == decoded.members["id"]
  {
    GetOr(decoded, "id", JNull)
  }

  function UnsupportedMethodMessage(rpcMethod: Json): string
  {
    "Method '" + PhpString(rpcMethod) + "' not supported via POST on SSE endpoint"
  }

  /**
   * How the `try` block of a POST ends: the value `$messageJson` holds when
   * it ends (null until decoding succeeds) and the handshake payload or
   * what was thrown.
   */
  datatype Attempt = Attempt(decoded: Json, outcome: Result<Json, Throwable>)

  /**
   * The `try` block: the validation chain and the `initialize` route.
   * Nothing is decoded before the body is known to be non-empty, and the
   * handshake is reached only by a complete, version-2.0 `initialize`.
   */
  function ValidateAndRoute(content: string, server: Server): (a: Attempt)
    // the decoded value is the one `json_decode` produced, or null if it never ran or failed
    ensures IsEmptyString(content) || server.decode(content).Err? ==> a.decoded == JNull
    ensures !IsEmptyString(content) && server.decode(content).Ok? ==> a.decoded == server.decode(content).value
    // a decoding failure is a JSON exception carrying the decoder's diagnostic
    ensures !IsEmptyString(content) && server.decode(content).Err? ==>
      a.outcome == Err(JsonError(server.decode(content).error))
    // the checks in order: empty body, structure, version, then the route
    ensures IsEmptyString(content) ==> a.outcome == Err(RpcError(INVALID_REQUEST, "Request body is empty"))
    ensures !IsEmptyString(content) && server.decode(content).Ok? ==>
      var m := server.decode(content).value;
      && (!HasEnvelopeMembers(m) ==>
            a.outcome == Err(RpcError(INVALID_REQUEST, "Invalid JSON-RPC request structure")))
      && (HasEnvelopeMembers(m) && m.members["jsonrpc"] != JString("2.0") ==>
            a.outcome == Err(RpcError(INVALID_REQUEST, "Invalid JSON-RPC version")))
      && (HasEnvelopeMembers(m) && m.members["jsonrpc"] == JString("2.0") && m.members["method"] == JString(INITIALIZE) ==>
            a.outcome == server.initialize(GetOr(m, "params", EmptyArray)))
      && (HasEnvelopeMembers(m) && m.members["jsonrpc"] == JString("2.0") && m.members["method"] != JString(INITIALIZE) ==>
            a.outcome == Err(RpcError(METHOD_NOT_FOUND, UnsupportedMethodMessage(m.members["method"]))))
    // success means a well-formed version-2.0 initialize whose handshake returned
    ensures a.outcome.Ok? ==>
      && !IsEmptyString(content) && server.decode(content).Ok?
      && HasEnvelopeMembers(a.decoded)
      && a.decoded.members["jsonrpc"] == JString("2.0")
      && a.decoded.members["method"] == JString(INITIALIZE)
      && server.initialize(GetOr(a.decoded, "params", EmptyArray)) == Ok(a.outcome.value)
  {
    if IsEmptyString(content) then
      Attempt(JNull, Err(RpcError(INVALID_REQUEST, "Request body is empty")))
    else
      match server.decode(content)
      case Err(diagnostic) => Attempt(JNull, Err(JsonError(diagnostic)))
      case Ok(m) =>
        if !HasEnvelopeMembers(m) then
          Attempt(m, Err(RpcError(INVALID_REQUEST, "Invalid JSON-RPC request structure")))
        else if m.members["jsonrpc"] != JString("2.0") then
          Attempt(m, Err(RpcError(INVALID_REQUEST, "Invalid JSON-RPC version")))
        else if m.members["method"] == JString(INITIALIZE) then
          Attempt(m, server.initialize(GetOr(m, "params", EmptyArray)))
        else
          Attempt(m, Err(RpcError(METHOD_NOT_FOUND, UnsupportedMethodMessage(m.members["method"]))))
  }

  /**
   * The HTTP status for a `JsonRpcErrorException`: 404 for METHOD_NOT_FOUND
   * and 400 for every other code, INTERNAL_ERROR included.
   */
  function StatusFor(code: int): (status: int)
    ensures status == 404 <==> code == METHOD_NOT_FOUND
    ensures status != 404 ==> status == 400
    ensures code == PARSE_ERROR || code == INVALID_REQUEST || code == INTERNAL_ERROR ==> status == 400
  {
    match code
    case -32700 => 400
    case -32600 => 400
    case -32601 => 404
    case _ => 400
  }

  /**
   * The `catch` clauses, in their order, and the success response. The
   * envelope always carries `$messageJson['id'] ?? null`; only a throwable
   * that is neither a JSON exception nor a JSON-RPC error is logged, and it
   * alone gives 500.
   */
  function Respond(a: Attempt): (r: Response)
    ensures r.JsonResponse?
    ensures r.body.id == RequestId(a.decoded)
    ensures r.body.ResultEnvelope? <==> a.outcome.Ok?
    ensures r.status == 200 <==> a.outcome.Ok?
    ensures r.body.ResultEnvelope? ==> r.body.result == a.outcome.value
    ensures r.status == 500 <==> r.logged
    ensures r.logged <==> a.outcome.Err? && !a.outcome.error.JsonError? && !a.outcome.error.RpcError?
    ensures a.outcome.Err? && a.outcome.error.JsonError? ==>
      r.status == 400 && r.body.code == PARSE_ERROR
      && r.body.message == PARSE_ERROR_PREFIX + a.outcome.error.message
    ensures a.outcome.Err? && a.outcome.error.RpcError? ==>
      r.status == StatusFor(a.outcome.error.code)
      && r.body.code == a.outcome.error.code && r.body.message == a.outcome.error.message
    ensures r.logged ==>
      r.body.code == INTERNAL_ERROR && r.body.message == "Internal server error: " + a.outcome.error.message
  {
    var id := RequestId(a.decoded);
    match a.outcome
    case Ok(payload) => JsonResponse(200, ResultEnvelope(id, payload), false)
    case Err(JsonError(diagnostic)) =>
      JsonResponse(400, ErrorEnvelope(id, PARSE_ERROR, PARSE_ERROR_PREFIX + diagnostic), false)
    case Err(RpcError(code, message)) =>
      JsonResponse(StatusFor(code), ErrorEnvelope(id, code, message), false)
    case Err(other) =>
      JsonResponse(500, ErrorEnvelope(id, INTERNAL_ERROR, "Internal server error: " + other.message), true)
  }

  /** `resolveSseRequest($request, $mcpServer)`. */
  function ResolveSseRequest(request: Request, server: Server): (r: Response)
    // verbs
    ensures request.verb == "GET" ==> r == EventStream(STREAM_HEADERS)
    ensures request.verb != "GET" && request.verb != "POST" ==>
      r == TextResponse(405, "Method not supported on this endpoint")
    ensures request.verb == "POST" ==> r.JsonResponse? && r.status in {200, 400, 404, 500}
    // an empty body ("" or "0")
    ensures request.verb == "POST" && IsEmptyString(request.content) ==>
      r == JsonResponse(400, ErrorEnvelope(JNull, INVALID_REQUEST, "Request body is empty"), false)
    // a body that does not decode
    ensures request.verb == "POST" && !IsEmptyString(request.content) && server.decode(request.content).Err? ==>
      r == JsonResponse(400, ErrorEnvelope(JNull, PARSE_ERROR,
        PARSE_ERROR_PREFIX + server.decode(request.content).error), false)
    // a decoded value: structure, then version, then route
    ensures request.verb == "POST" && !IsEmptyString(request.content) && server.decode(request.content).Ok? ==>
      var m := server.decode(request.content).value;
      && (!HasEnvelopeMembers(m) ==>
            r == JsonResponse(400, ErrorEnvelope(RequestId(m), INVALID_REQUEST, "Invalid JSON-RPC request structure"), false))
      && (HasEnvelopeMembers(m) && m.members["jsonrpc"] != JString("2.0") ==>
            r == JsonResponse(400, ErrorEnvelope(m.members["id"], INVALID_REQUEST, "Invalid JSON-RPC version"), false))
      && (HasEnvelopeMembers(m) && m.members["jsonrpc"] == JString("2.0") && m.members["method"] != JString(INITIALIZE) ==>
            r == JsonResponse(404, ErrorEnvelope(m.members["id"], METHOD_NOT_FOUND,
              UnsupportedMethodMessage(m.members["method"])), false))
      && (HasEnvelopeMembers(m) && m.members["jsonrpc"] == JString("2.0") && m.members["method"] == JString(INITIALIZE)
          && server.initialize(GetOr(m, "params", EmptyArray)).Ok? ==>
            r == JsonResponse(200, ResultEnvelope(m.members["id"],
              server.initialize(GetOr(m, "params", EmptyArray)).value), false))
      // a handshake that throws reaches the catch clauses, with the request id
      && (HasEnvelopeMembers(m) && m.members["jsonrpc"] == JString("2.0") && m.members["method"] == JString(INITIALIZE)
          && server.initialize(GetOr(m, "params", EmptyArray)).Err? ==>
            var thrown := server.initialize(GetOr(m, "params", EmptyArray)).error;
            var id := m.members["id"];
            && (thrown.RpcError? ==>
                  r == JsonResponse(StatusFor(thrown.code), ErrorEnvelope(id, thrown.code, thrown.message), false))
            && (thrown.JsonError? ==>
                  r == JsonResponse(400, ErrorEnvelope(id, PARSE_ERROR, PARSE_ERROR_PREFIX + thrown.message), false))
            && (thrown.OtherException? || thrown.PhpError? ==>
                  r == JsonResponse(500, ErrorEnvelope(id, INTERNAL_ERROR, "Internal server error: " + thrown.message), true)))
  {
    if request.verb == "POST" then Respond(ValidateAndRoute(request.content, server))
    else if request.verb == "GET" then EventStream(STREAM_HEADERS)
    else TextResponse(405, "Method not supported on this endpoint")
  }

  /**
   * Every POST failure can be traced to its request: the error envelope
   * carries the decoded id whenever one was decoded, and null otherwise.
   */
  lemma ErrorsEchoRequestId(request: Request, server: Server)
    requires request.verb == "POST"
    ensures var r := ResolveSseRequest(request, server);
      var decoded := if IsEmptyString(request.content) || server.decode(request.content).Err? then JNull
                     else server.decode(request.content).value;
      && r.JsonResponse?
      && (Get(decoded, "id").Some? ==> r.body.id == Get(decoded, "id").value)
      && (Get(decoded, "id").None? ==> r.body.id == JNull)
  {
  }

  /** The 404 for a method other than `initialize` names that method. */
  lemma UnsupportedMethodIsNamed(request: Request, server: Server)
    requires request.verb == "POST" && !IsEmptyString(request.content) && server.decode(request.content).Ok?
    requires var m := server.decode(request.content).value;
      HasEnvelopeMembers(m) && m.members["jsonrpc"] == JString("2.0") && m.members["method"] != JString(INITIALIZE)
    ensures var r := ResolveSseRequest(request, server);
      r.status == 404 && r.body.ErrorEnvelope? && r.body.code == METHOD_NOT_FOUND
      && Contains(r.body.message, PhpString(server.decode(request.content).value.members["method"]))
  {
    var m := server.decode(request.content).value;
    ContainsInMiddle("Method '", PhpString(m.members["method"]), "' not supported via POST on SSE endpoint");
  }

  /** `initialize` is not one of the method names the tool handler accepts. */
  lemma InitializeIsNotAToolMethod()
    ensures !ToolsCallHandler.IsHandle(INITIALIZE)
  {
  }
}
