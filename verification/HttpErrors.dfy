/**
  The errors of the HTTP transport, and the contexts whose end changes them: the
  request's own, the operation's, which `RoundTrip` derives from it, and the
  transport's lifetime.
 */
module HttpErrors {
  import opened HttpCall

  /** A Go error. `Custom` stands for a cause that the owner of a context chose. */
  datatype GoError =
    | EOF
    | ErrBodyClosed
    | ErrTransportClosed
    | ErrClientClosed
    | ContextError
    | Native(kind: Kind)
    | Invalid                                // a request or a response the transport refuses
    | Custom(id: nat)

  /** A context that can end, with the cause it then reports. */
  datatype Context = Context(ended: bool, cause: GoError)

  /** `operation` is the context RoundTrip derives from the request's. */
  datatype Surroundings = Surroundings(request: Context, operation: Context, lifetimeEnded: bool, clientLive: bool)

  /** The operation's context after its finisher has run, or after it has ended otherwise. */
  function Finished(around: Surroundings): Surroundings {
    around.(operation := around.operation.(ended := true))
  }

  /** `Client.requestError`: an ended context or a closed client take the place of the native error. */
  function RequestError(around: Surroundings, err: GoError): GoError {
    if around.operation.ended then ContextError
    else if !around.clientLive then ErrClientClosed
    else err
  }

  /** `transportError`: the request, then the transport, then the operation, then the error itself. */
  function TransportError(around: Surroundings, err: GoError): GoError {
    if around.request.ended then around.request.cause
    else if around.lifetimeEnded then ErrTransportClosed
    else if around.operation.ended then around.operation.cause
    else err
  }
}
