/** Shared vocabulary of the clients: what a remote call gives back and how
    the clients report failure. Every remote operation of the model is a
    parameter `call: Request -> Reply<Body>`, the service's answer to the
    request the client sends; the channel and stub themselves are not modelled. */
module Rpc {

  /** The status code a service puts in its response envelope on success. */
  const OK: int := 200

  newtype byte = x: int | 0 <= x < 256

  datatype Option<T> = None | Some(value: T)

  /** The outcome of one remote call: the response, made of its envelope
      (status code and message) and its payload, or the RPC-level error the
      call raised instead. */
  datatype Reply<R> =
    | Returned(code: int, message: string, body: R)
    | RpcError(detail: string)

  /** A call that returned with status 200. */
  predicate Succeeded<R>(reply: Reply<R>)
  {
    reply.Returned? && reply.code == OK
  }

  /** The exceptions the clients raise to their callers. */
  datatype Error =
    | StatusError(context: string, ip: string, port: string, message: string)  // a response whose status is not 200
    | Transport(detail: string)                                                // an RPC error passed on unchanged
    | UnknownLabelId(labelId: int)                                             // no label under this id
    | UnknownLabel(name: string)                                              // no id carries this label

  /** A value, or the exception raised instead of returning it. */
  datatype Result<T> = Success(value: T) | Failure(error: Error)

  /** The exception a raising client method throws for a reply that is not a
      success: the RPC error itself, or a StatusError carrying the response's
      message and the endpoint. */
  function Raised<R>(context: string, ip: string, port: string, reply: Reply<R>): (e: Error)
    requires !Succeeded(reply)
    ensures reply.RpcError? ==> e == Transport(reply.detail)
    ensures reply.Returned? ==> e.StatusError? && e.message == reply.message && e.ip == ip && e.port == port
  {
    match reply
    case RpcError(detail) => Transport(detail)
    case Returned(_, message, _) => StatusError(context, ip, port, message)
  }
}
