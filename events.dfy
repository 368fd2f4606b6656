/** The messages the proxy broadcasts to dashboard observers over socket.io,
    and that the dashboard listens for. */
module Events {

  /** Payload of a `request` message: one captured exchange as first seen.
      `verb` is the payload's `method` property (a reserved word in Dafny). */
  datatype RequestData = RequestData(
    id: string,
    verb: string,
    url: string,
    headers: map<string, string>,
    timestamp: int,
    protocol: string)

  /** Payload of a `response` message (part of the schema; see InterceptionProxy
      for the fact that nothing emits it). */
  datatype ResponseData = ResponseData(id: string, statusCode: int, duration: int)

  datatype Event =
    | Request(request: RequestData)
    | Response(response: ResponseData)
    | Error(id: string, error: string)

  /** The exchange id every message carries. */
  function EventId(e: Event): string {
    match e
    case Request(d) => d.id
    case Response(d) => d.id
    case Error(id, _) => id
  }
}
