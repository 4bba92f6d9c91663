/** The HTTP vocabulary shared by the forwarding providers: status codes,
    header maps, byte bodies, the outbound request a provider issues, the
    reply it reads back, and the gateway's RPC error type. */
module Http {
  import opened Wrappers

  /** Raw bytes of a request or response body; the gateway never looks inside
      them except through an abstract JSON-RPC parse. */
  type Bytes = seq<bv8>

  /** An HTTP status code as `http::StatusCode` admits it (three digits). */
  type StatusCode = s: int | 100 <= s <= 999 witness 200

  const TooManyRequests: StatusCode := 429
  const InternalServerError: StatusCode := 500

  /** `StatusCode::is_success`: the 2xx range. */
  predicate IsSuccess(s: StatusCode) {
    200 <= s <= 299
  }

  /** Header names are case-insensitive in `http::HeaderMap`, which stores
      them lower-cased; so `insert("Content-Type", ..)` replaces the entry
      stored under "content-type". */
  type Headers = map<string, string>

  const ContentType: string := "content-type"
  const ApplicationJson: string := "application/json"
  const OctetStream: string := "application/octet-stream"

  /** A response handed back to the caller. */
  datatype Response = Response(status: StatusCode, headers: Headers, body: Bytes)

  /** `(status, bytes).into_response()`: the web framework (axum) gives a
      byte body the content type `application/octet-stream` and the
      tuple's status. */
  function BytesResponse(status: StatusCode, body: Bytes): (r: Response)
    ensures r.status == status && r.body == body
    ensures ContentType in r.headers && r.headers[ContentType] == OctetStream
  {
    Response(status, map[ContentType := OctetStream], body)
  }

  datatype HttpMethod = Post

  /** The request a provider sends upstream. */
  datatype OutboundRequest = OutboundRequest(verb: HttpMethod, uri: string, headers: Headers, body: Bytes)

  /** What the upstream sent back: its status and its full body. */
  datatype UpstreamReply = UpstreamReply(status: StatusCode, body: Bytes)

  /** A failure to build the request, reach the upstream or read its body. */
  datatype TransportError = TransportError(reason: string)

  /** A failure to open the outbound WebSocket. */
  datatype WsConnectError = WsConnectError(reason: string)

  /** The errors of the RPC layer that this model produces. */
  datatype RpcError =
    | ChainNotFound
    | Transport(transport: TransportError)
    | AxumTungstenite(connect: WsConnectError)

  type RpcResult<T> = Result<T, RpcError>
}
