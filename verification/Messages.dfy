/** The messages of the tunnel (internal/pkg/tunnel): what a record carries. */
module Messages {

  datatype WireStep = REQUEST | RESPONSE | POST_RESPONSE

  datatype Request = Request(line: string, header: string, body: string)

  datatype Response = Response(header: string, code: int, body: string)

  /** What the handler answers when it stops waiting. */
  const GATEWAY_TIMEOUT: Response := Response("", 504, "Gateway Timeout")
}
