/**
 * The request and answer shapes shared by the gateway REQUEST interceptors: the
 * `event["mcp"]["gatewayRequest"]` lookups and the `interceptorOutputVersion` "1.0" answers.
 */
module Interceptors {
  import opened Wrappers
  import opened PyDict
  import opened Json

  /** The gateway request of an interceptor event and its JSON-RPC body. */
  datatype Request = Request(gateway: Value, body: Value)

  /**
   * `mcp_data = event.get('mcp', {})`, `gateway_request = mcp_data.get('gatewayRequest', {})`,
   * `request_body = gateway_request.get('body', {})`: each lookup raises when the value it is
   * applied to is not a dictionary.
   */
  function ReadRequest(event: Value): (r: Result<Request>)
    ensures r.Ok? ==> r.value.gateway.Obj?
  {
    var mcp :- MemberOr(event, "mcp", Obj([]));
    var gateway :- MemberOr(mcp, "gatewayRequest", Obj([]));
    var body :- MemberOr(gateway, "body", Obj([]));
    Ok(Request(gateway, body))
  }

  /** The answer that lets the request continue to the target with these headers and body. */
  function PassRequest(headers: Value, body: Value): Value {
    Obj([("interceptorOutputVersion", Str("1.0")),
         ("mcp", Obj([("transformedGatewayRequest", Obj([("headers", headers), ("body", body)]))]))])
  }

  /** The headers of a blocked answer. */
  const BlockedHeaders: Value := Obj([("Content-Type", Str("application/json")), ("X-Security-Status", Str("BLOCKED"))])

  /** A JSON-RPC 2.0 error body with the server error code -32000. */
  function RpcError(id: Value, message: string, data: Value): Value {
    Obj([("jsonrpc", Str("2.0")), ("id", id),
         ("error", Obj([("code", Int(-32000)), ("message", Str(message)), ("data", data)]))])
  }

  /** The message of the UnboundLocalError an `except` block raises when it reads `request_body` before it was bound. */
  const UnboundBody := "cannot access local variable 'request_body' where it is not associated with a value"
}
