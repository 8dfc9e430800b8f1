# laravel-mcp-server request handling, modelled in Dafny

This project models the protocol core of a Laravel MCP (Model Context Protocol) server:

- the single HTTP endpoint `SseController::resolveSseRequest`. It validates a POST body as a JSON-RPC 2.0 request, serves `initialize`, and maps every failure to a JSON-RPC error envelope and an HTTP status. A GET opens the event stream. Any other verb gets 405.
- the `ToolsCallHandler`, which serves `tools/call` and `tools/execute`. It checks `params.name`, looks the tool up, defaults `arguments`, runs the tool once and shapes the outcome. The two aliases handle a failing tool differently.

Both are pure decision procedures, so both are modelled as functions.

- A decoded body is a `Json.Json` value: the PHP value `json_decode($text, true)` yields.
- PHP exceptions are `JsonRpc.Throwable` values returned in a `Result`.
- Collaborators whose code is not part of this model are function-valued parameters:
  - the JSON decoder and encoder
  - the `initialize` handler
  - the tool repository and the tools

Modules: `Wrappers` (Option, Result), `PhpText` (PHP `empty()` on a string, integer-to-decimal text, substring predicates), `Json`, `JsonRpc` (error codes -32700, -32600, -32601 and -32603 of section 5.1 of the JSON-RPC 2.0 specification; the throwable kinds), `ToolsCallHandler`, `SseController`.

Three behaviours of the code are easy to miss, and the model keeps them as the code has them:

- POST does not scan a handler registry. The controller serves `initialize` itself and answers every other method with METHOD_NOT_FOUND and 404.
- A `JsonRpcErrorException` whose code is INTERNAL_ERROR gets HTTP 400, not 500, because the `match` default covers it. HTTP 500 is given only to throwables that are neither a `\JsonException` nor a `JsonRpcErrorException`.
- PHP's `empty()` is also true for the body `"0"`, so that body is reported as "Request body is empty", not as a structure error.

## Model

| member | source | states |
|---|---|---|
| `Json.Get` | src/Http/Controllers/SseController.php:30 | `isset`: a member is present only on an associative array, under that key, with a non-null value; a present member is never null |
| `Json.GetOr` | src/Http/Controllers/SseController.php:39 | `$v[k] ?? d`: the default exactly when the member is absent or null, otherwise the member itself |
| `Json.PhpString` | src/Server/Request/ToolsCallHandler.php:33 | interpolation text: a string verbatim; an integer as canonical signed decimal text (minus sign exactly for negatives, no leading zero) that reads back as the same integer; booleans as "1"/""; null as ""; a float as its PHP text; arrays as "Array" |
| `ToolsCallHandler.IsHandle` | src/Server/Request/ToolsCallHandler.php:19-22 | true exactly for `tools/call` and `tools/execute`, both in the `tools/` namespace |
| `ToolsCallHandler.Arguments` | src/Server/Request/ToolsCallHandler.php:36 | the tool gets `[]` when `arguments` is absent or null, otherwise `arguments` unchanged |
| `ToolsCallHandler.ResultText` | src/Server/Request/ToolsCallHandler.php:46 | text is the result when it is a string, otherwise its JSON encoding, or `false` when encoding fails |
| `ToolsCallHandler.CallResult.ToJson` | src/Server/Request/ToolsCallHandler.php:42-50 | the content shape has exactly the keys `content` and `isError`, one content item typed `text`; the other shape is exactly `{result}` |
| `ToolsCallHandler.ResultShapeRoundTrip` | src/Server/Request/ToolsCallHandler.php:42-70 | both returned shapes read back to the outcome that produced them |
| `ToolsCallHandler.RunTool` | src/Server/Request/ToolsCallHandler.php:38-77 | `tools/call` never raises an `\Exception`: success gives `isError: false` with the result text, and an exception gives `isError: true` with "Error executing tool '<name>': <msg>"; any other method wraps the value as `{result}` or raises INTERNAL_ERROR "Error executing tool '<name>' for method '<method>': <msg>"; an `\Error` propagates unchanged |
| `ToolsCallHandler.Execute` | src/Server/Request/ToolsCallHandler.php:24-78 | failure order: a missing name is INVALID_REQUEST before any lookup; then a throwing lookup propagates unchanged, and an unknown tool is METHOD_NOT_FOUND, both with nothing run; at most one lookup and one run, the run exactly when the tool is found, on the defaulted arguments |
| `ToolsCallHandler.UnknownToolIsNamed` | src/Server/Request/ToolsCallHandler.php:31-34 | the METHOD_NOT_FOUND message for an unknown tool contains the tool's name |
| `ToolsCallHandler.AliasesDivergeOnToolFailure` | src/Server/Request/ToolsCallHandler.php:51-76 | for one failing tool, `tools/call` succeeds with `isError: true` and text containing the tool's message, while `tools/execute` fails with INTERNAL_ERROR whose message contains it |
| `SseController.RequestId` | src/Http/Controllers/SseController.php:52 | the echoed id is the decoded `id` member when present and non-null, else null |
| `SseController.ValidateAndRoute` | src/Http/Controllers/SseController.php:23-46 | nothing is decoded for an empty body; `$messageJson` is the decoder's value or null; a decoding failure becomes a JSON exception carrying the diagnostic; the outcome of each check in order (empty, structure, version, unsupported method), and for `initialize` exactly the handshake's own outcome, returned or thrown; success only for a complete, version-"2.0" `initialize` whose handshake returned, with that payload |
| `SseController.StatusFor` | src/Http/Controllers/SseController.php:54-58 | 404 exactly for METHOD_NOT_FOUND; 400 for every other code, INTERNAL_ERROR included |
| `SseController.Respond` | src/Http/Controllers/SseController.php:47-65 | the catch order: a JSON exception gives PARSE_ERROR "Parse error: Invalid JSON. <diag>" and 400; a JSON-RPC error keeps its code and message with the mapped status; anything else is logged and gives INTERNAL_ERROR "Internal server error: <msg>" and 500; a result envelope and status 200 exactly on success; the id always echoed |
| `SseController.ResolveSseRequest` | src/Http/Controllers/SseController.php:18-82 | GET gives the three stream headers; other verbs 405; POST: empty body (`""`/`"0"`) 400 with null id, undecodable 400 PARSE_ERROR with null id, missing/null member 400 structure error, version not identical to "2.0" 400, a method other than `initialize` 404 naming it, `initialize` 200 with the handshake on `params ?? []` and the request id; a throwing handshake reaches the catch clauses with the request id (a JSON-RPC error with its mapped status, a JSON exception as 400 PARSE_ERROR, anything else logged as 500 INTERNAL_ERROR) |
| `SseController.ErrorsEchoRequestId` | src/Http/Controllers/SseController.php:47-64 | every POST response carries the decoded id when there is one and null otherwise |
| `SseController.UnsupportedMethodIsNamed` | src/Http/Controllers/SseController.php:44-45 | the 404 for another method has code METHOD_NOT_FOUND and a message containing the method |
| `SseController.InitializeIsNotAToolMethod` | src/Server/Request/ToolsCallHandler.php:21 | `isHandle('initialize')` is false |

## Left out

- `json_decode` and `json_encode` internals are parameters: decoding is `string -> Result<Json, diagnostic>` (depth limit included), encoding is `Json -> Option<string>`.
- `InitializeHandler` is not part of this model. Its `execute` is a parameter `Json -> Result<Json, Throwable>`, so its payload is opaque. A type error it raises for a non-array `params` is one of its possible throwables.
- `ToolRepository` and concrete tools are not part of this model. `getTool` is a function from the name value to an optional tool or a throwable. Coercion of a non-string name belongs to that function, and so does a `TypeError` it raises, which `execute` lets through unchanged.
- Tool results are `Json` values. PHP objects that a tool might return are not modelled.
- `JsonRpcErrorCode`, `JsonRpcErrorException`, `JsonRpcResultResource` and `JsonRpcErrorResource` are not part of this model. The code values are the standard ones, and an envelope is kept as a descriptor (id plus result, or id plus code and message) rather than rendered JSON.
- `MCPServer::connect()` and the `StreamedResponse` lifetime are streaming I/O. GET is modelled only as the header set of the stream.
- `Log::error` is reduced to the `logged` flag on the 500 path. The log text and stack trace are not modelled.
- The Laravel request is reduced to its upper-case verb and raw body. HTTP method override is not modelled.
- `Json.PhpString` follows PHP's own conversion for arrays ("Array" plus a warning). A host that promotes that warning to an `ErrorException`, as Laravel does, would turn the 404 for an array-valued `method` into a 500.
- PHP floats are carried as their string form. PHP's 64-bit integer width is left to the decoder.
- Key order of PHP arrays is not modelled. `{}` and `[]` are different `Json` values, although PHP's associative decoding yields `[]` for both.
- There is no handler registry and no shared mutable state in this code, so neither is modelled.
