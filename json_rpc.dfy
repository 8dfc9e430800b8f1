/**
 * JSON-RPC 2.0 error codes (section 5.1 of the JSON-RPC 2.0 specification)
 * and the PHP throwables the request-handling code raises and catches.
 */
module JsonRpc {

  const PARSE_ERROR: int := -32700
  const INVALID_REQUEST: int := -32600
  const METHOD_NOT_FOUND: int := -32601
  const INTERNAL_ERROR: int := -32603

  /**
   * What a PHP `throw` carries, by the classes the code distinguishes in
   * its `catch` clauses. Every kind but `PhpError` is an `\Exception`;
   * `PhpError` stands for an `\Error` (a `TypeError`, say), which is a
   * `\Throwable` but not an `\Exception`.
   */
  datatype Throwable =
    | RpcError(code: int, message: string)   // JsonRpcErrorException
    | JsonError(message: string)             // \JsonException from json_decode
    | OtherException(message: string)        // any other \Exception
    | PhpError(message: string)              // \Error
  {
    /** Whether `catch (\Exception $e)` catches it. */
    predicate IsException()
    {
      !PhpError?
    }
  }
}
