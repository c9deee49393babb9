/**
 * The JSON-RPC 2.0 message structs of the `internal/jsonrpc` package and their
 * constructors. Params and results are carried as raw JSON text; turning a Go
 * value into that text is `json.Marshal`, passed in as `marshal`.
 */
module JsonRpcMessage {
  import opened Wrappers
  import opened Bytes
  import opened Protocol

  /** Every message carries this protocol version. */
  const JsonRpcVersion: string := "2.0"

  /** Error codes of section 5.1 of the JSON-RPC 2.0 specification. */
  const ParseError: int := -32700
  const InvalidRequest: int := -32600
  const MethodNotFound: int := -32601
  const InvalidParams: int := -32602
  const InternalError: int := -32603

  /** `json.RawMessage`: encoded JSON text; `None` is the nil message that `omitempty` drops. */
  type RawMessage = seq<byte>

  datatype Request = Request(jsonrpc: string, id: Option<Id>, methodName: string, params: Option<RawMessage>)

  datatype ResponseError = ResponseError(code: int, message: string, data: Option<RawMessage>)

  datatype Response = Response(jsonrpc: string, id: Option<Id>, result: Option<RawMessage>, error: Option<ResponseError>)

  /** A notification has no id field at all. */
  datatype Notification = Notification(jsonrpc: string, methodName: string, params: Option<RawMessage>)

  /** The five error codes are distinct and all lie in the range reserved for pre-defined errors. */
  lemma ErrorCodesReserved()
    ensures forall c | c in [ParseError, InvalidRequest, MethodNotFound, InvalidParams, InternalError] ::
      -32768 <= c <= -32000
    ensures |{ParseError, InvalidRequest, MethodNotFound, InvalidParams, InternalError}| == 5
  {
  }

  /**
   * NewRequest: a nil `params` gives no params; otherwise the params are the
   * marshalled value, and a marshalling error is returned instead of a request.
   */
  function NewRequest<V>(id: Option<Id>, methodName: string, params: Option<V>,
                         marshal: V -> Result<RawMessage, string>): (r: Result<Request, string>)
    ensures r.Success? <==> (params.None? || marshal(params.value).Success?)
    ensures r.Failure? ==> params.Some? && marshal(params.value) == Failure(r.error)
    ensures r.Success? ==> r.value.jsonrpc == JsonRpcVersion && r.value.id == id && r.value.methodName == methodName
    ensures r.Success? ==> (r.value.params.Some? <==> params.Some?)
    ensures r.Success? && params.Some? ==> r.value.params == Some(marshal(params.value).value)
  {
    if params.None? then Success(Request(JsonRpcVersion, id, methodName, None))
    else match marshal(params.value)
      case Failure(e) => Failure(e)
      case Success(data) => Success(Request(JsonRpcVersion, id, methodName, Some(data)))
  }

  /** NewResponse: a success response; it never carries an error. */
  function NewResponse<V>(id: Option<Id>, result: Option<V>,
                          marshal: V -> Result<RawMessage, string>): (r: Result<Response, string>)
    ensures r.Success? <==> (result.None? || marshal(result.value).Success?)
    ensures r.Failure? ==> result.Some? && marshal(result.value) == Failure(r.error)
    ensures r.Success? ==> r.value.jsonrpc == JsonRpcVersion && r.value.id == id && r.value.error.None?
    ensures r.Success? ==> (r.value.result.Some? <==> result.Some?)
    ensures r.Success? && result.Some? ==> r.value.result == Some(marshal(result.value).value)
  {
    if result.None? then Success(Response(JsonRpcVersion, id, None, None))
    else match marshal(result.value)
      case Failure(e) => Failure(e)
      case Success(data) => Success(Response(JsonRpcVersion, id, Some(data), None))
  }

  /** NewErrorResponse: an error response with the given code and message and no result. */
  function NewErrorResponse(id: Option<Id>, code: int, message: string): (r: Response)
    ensures r.jsonrpc == JsonRpcVersion && r.id == id && r.result.None?
    ensures r.error.Some? && r.error.value.code == code && r.error.value.message == message
    ensures r.error.value.data.None?
  {
    Response(JsonRpcVersion, id, None, Some(ResponseError(code, message, None)))
  }

  /** NewNotification: like NewRequest, without an id. */
  function NewNotification<V>(methodName: string, params: Option<V>,
                              marshal: V -> Result<RawMessage, string>): (r: Result<Notification, string>)
    ensures r.Success? <==> (params.None? || marshal(params.value).Success?)
    ensures r.Failure? ==> params.Some? && marshal(params.value) == Failure(r.error)
    ensures r.Success? ==> r.value.jsonrpc == JsonRpcVersion && r.value.methodName == methodName
    ensures r.Success? ==> (r.value.params.Some? <==> params.Some?)
    ensures r.Success? && params.Some? ==> r.value.params == Some(marshal(params.value).value)
  {
    if params.None? then Success(Notification(JsonRpcVersion, methodName, None))
    else match marshal(params.value)
      case Failure(e) => Failure(e)
      case Success(data) => Success(Notification(JsonRpcVersion, methodName, Some(data)))
  }

  /** A response carries at most one of a result and an error. */
  predicate AtMostOneOutcome(r: Response) {
    !(r.result.Some? && r.error.Some?)
  }

  /**
   * No constructed response has both a result and an error, and every
   * constructed message carries version "2.0".
   */
  lemma ConstructedResponsesAtMostOneOutcome<V>(id: Option<Id>, result: Option<V>,
                                                marshal: V -> Result<RawMessage, string>,
                                                code: int, message: string)
    ensures var r := NewResponse(id, result, marshal);
      r.Success? ==> AtMostOneOutcome(r.value) && r.value.jsonrpc == JsonRpcVersion
    ensures AtMostOneOutcome(NewErrorResponse(id, code, message))
  {
  }
}
