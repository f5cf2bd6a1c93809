/**
  One `Transport.RoundTrip`: the calling goroutine, the goroutine that
  `context.AfterFunc` starts to close the upload when the context ends, and the
  later users of the response body that call the context finisher.

  Both `closeUpload` and `finish` are `sync.OnceFunc`s: the first caller runs the
  function, callers that arrive meanwhile wait for it, later callers do nothing.
 */
module RoundTrip {
  import opened Bytes
  import opened HttpErrors
  import opened OnceFunc

  /**
    `refusal` is what the checks of the request's fields return; `upload` is its body,
    and `stalls` says that reading it blocks until it is closed.
   */
  datatype Request = Request(
    refusal: Option<GoError>, upload: Option<seq<byte>>, stalls: bool, contentLength: int, chunked: bool)

  datatype Outcome = Responded | Failed(err: GoError)

  datatype Main =
    | Validating
    | Opening                                          // Transport.state and the contexts
    | Checking                                         // has the context ended already?
    | Registering                                      // context.AfterFunc(ctx, closeUpload)
    | Uploading                                        // io.ReadAll
    | Stopping(body: seq<byte>, err: Option<GoError>)  // stop()
    | ClosingUpload(body: seq<byte>, err: Option<GoError>)
    | Mapping(body: seq<byte>, err: Option<GoError>)
    | Sizing(body: seq<byte>)                          // the declared length is compared
    | Sending(body: seq<byte>)                         // Client.Do
    | Waiting                                          // for Client.Do
    | Received
    | Discarding                                       // an unsupported protocol: close the response
    | Finishing(outcome: Outcome)                      // deferred: finish, if there is no response
    | Leaving(outcome: Outcome)                        // deferred: closeUpload
    | Returned(outcome: Outcome)

  /** The goroutine of `context.AfterFunc`. */
  datatype Closer = Absent | Registered | Stopped | Launched | Ended

  datatype Caller = ByMain | ByCloser | ByUser(t: TaskId)

  /** A Read that met a terminal error, or a Close, of the returned body. */
  datatype User = Calling | Gone

  type TaskId = nat

  /** `made` says that the contexts exist and `finish` is deferred. */
  datatype Gates = Gates(upload: Gate<Caller>, finish: Gate<Caller>, made: bool)

  /** What Client.Do was given, and whether a response it returned is open. */
  datatype Exchange = Exchange(sent: Option<seq<byte>>, open: bool)

  datatype State = State(
    request: Request, main: Main, closer: Closer, gates: Gates, exchange: Exchange,
    transportClosed: bool, around: Surroundings, users: map<TaskId, User>)

  const NEW_GATE: Gate<Caller> := Gate(Fresh, 0, 0)

  function Init(request: Request, requestCause: GoError, operationCause: GoError): State {
    State(request, Validating, Absent, Gates(NEW_GATE, NEW_GATE, false), Exchange(None, false),
          false, Surroundings(Context(false, requestCause), Context(false, operationCause), false, true), map[])
  }

  function UploadBytes(request: Request): seq<byte> {
    if request.upload.Some? then request.upload.value else []
  }

  /** `mapError`: an ended context turns success into failure too. */
  function MapError(around: Surroundings, err: Option<GoError>): Option<GoError> {
    if around.request.ended || around.lifetimeEnded || around.operation.ended
    then Some(TransportError(around, ContextError)) else err
  }

  function Weight(request: Request): nat {
    if request.upload.Some? then 1 else 0
  }

  // ------------------------------------------------------------- main goroutine

  datatype Choice = Proceed | Fail(reason: GoError) | Read(body: seq<byte>, err: Option<GoError>)

  /**
    What can happen next. A body that nobody has closed yields all its bytes or an
    error, or blocks; one that is being closed may also end early without an error.
   */
  predicate MainCan(main: Main, request: Request, gates: Gates, c: Choice) {
    match main
    case Uploading =>
      && c.Read? && c.body <= UploadBytes(request)
      && (request.stalls || (c.err.None? && c.body != UploadBytes(request)) ==> !gates.upload.once.Fresh?)
    case Opening | Waiting | Received => !c.Read?
    case ClosingUpload(_, _) => c == Proceed && MayCall(gates.upload, ByMain)
    case Leaving(_) => c == Proceed && MayCall(gates.upload, ByMain)
    case Finishing(_) => c == Proceed && MayCall(gates.finish, ByMain)
    case Returned(_) => false
    case _ => c == Proceed
  }

  function Fails(err: GoError): Main {
    Finishing(Failed(err))
  }

  function Unless(err: Option<GoError>, next: Main): Main {
    if err.Some? then Fails(err.value) else next
  }

  predicate LengthMismatch(request: Request, body: seq<byte>) {
    !request.chunked && 0 < request.contentLength && |body| != request.contentLength
  }

  /** The deferred call of `finish` exists once there is a context, and acts when there is no response. */
  predicate MustFinish(outcome: Outcome, gates: Gates) {
    outcome.Failed? && gates.made
  }

  /** Where the main goroutine goes. */
  function NextMain(main: Main, request: Request, gates: Gates, transportClosed: bool, around: Surroundings, c: Choice): Main
    requires MainCan(main, request, gates, c)
  {
    match main
    case Validating => Unless(request.refusal, Opening)
    case Opening =>
      if transportClosed then Fails(ErrTransportClosed) else if c.Fail? then Fails(c.reason) else Checking
    case Checking => Unless(MapError(around, None), if request.upload.Some? then Registering else Sizing([]))
    case Registering => Uploading
    case Uploading => Stopping(c.body, c.err)
    case Stopping(body, err) => ClosingUpload(body, err)
    case ClosingUpload(body, err) => if Through(gates.upload) then Mapping(body, err) else main
    case Mapping(body, err) => Unless(MapError(around, err), Sizing(body))
    case Sizing(body) => if LengthMismatch(request, body) then Fails(Invalid) else Sending(body)
    case Sending(body) => Waiting
    case Waiting => if c.Fail? then Fails(TransportError(around, c.reason)) else Received
    case Received => if c.Fail? then Discarding else Finishing(Responded)
    case Discarding => Fails(Invalid)
    case Finishing(outcome) => if MustFinish(outcome, gates) && !Through(gates.finish) then main else Leaving(outcome)
    case Leaving(outcome) => if Through(gates.upload) then Main.Returned(outcome) else main
  }

  function NextCloser(main: Main, closer: Closer): Closer {
    if main.Registering? then Registered
    else if main.Stopping? && closer.Registered? then Stopped
    else closer
  }

  function NextGates(main: Main, request: Request, gates: Gates, transportClosed: bool, c: Choice): Gates
    requires MainCan(main, request, gates, c)
  {
    match main
    case Opening => gates.(made := !transportClosed && !c.Fail?)
    case ClosingUpload(_, _) => gates.(upload := Call(gates.upload, ByMain, Weight(request)))
    case Leaving(_) => gates.(upload := Call(gates.upload, ByMain, Weight(request)))
    case Finishing(outcome) =>
      if MustFinish(outcome, gates) then gates.(finish := Call(gates.finish, ByMain, 1)) else gates
    case _ => gates
  }

  function NextExchange(main: Main, exchange: Exchange, c: Choice): Exchange {
    match main
    case Sending(body) => exchange.(sent := Some(body))
    case Waiting => exchange.(open := !c.Fail?)
    case Discarding => exchange.(open := false)
    case _ => exchange
  }

  /** A context derived from one that has ended has ended; `finish` cancels it. */
  function NextAround(main: Main, gates: Gates, around: Surroundings): Surroundings {
    if main.Opening? && around.request.ended then Finished(around)
    else if main.Finishing? && MustFinish(main.outcome, gates) then Finished(around)
    else around
  }

  function RunMain(s: State, c: Choice): State
    requires MainCan(s.main, s.request, s.gates, c)
  {
    State(s.request, NextMain(s.main, s.request, s.gates, s.transportClosed, s.around, c),
          NextCloser(s.main, s.closer), NextGates(s.main, s.request, s.gates, s.transportClosed, c),
          NextExchange(s.main, s.exchange, c), s.transportClosed, NextAround(s.main, s.gates, s.around), s.users)
  }

  // -------------------------------------------------------------------- runs

  datatype Label =
    | MainStep(choice: Choice)
    | Launch                   // the context has ended: AfterFunc starts its goroutine
    | CloserStep
    | Use(t: TaskId)
    | UserStep(t: TaskId)
    | EndRequest
    | EndOperation             // the timeout, the legacy Cancel channel, or an ended parent
    | CloseTransport
    | EndLifetime

  predicate Enabled(s: State, l: Label) {
    match l
    case MainStep(c) => MainCan(s.main, s.request, s.gates, c)
    case Launch => s.closer.Registered? && s.around.operation.ended
    case CloserStep => s.closer.Launched? && MayCall(s.gates.upload, ByCloser)
    case Use(t) => t !in s.users && s.main == Main.Returned(Responded)
    case UserStep(t) => t in s.users && s.users[t].Calling? && MayCall(s.gates.finish, ByUser(t))
    case EndOperation => s.gates.made
    case EndLifetime => s.transportClosed
    case _ => true
  }

  function Apply(s: State, l: Label): State
    requires Enabled(s, l)
  {
    match l
    case MainStep(c) => RunMain(s, c)
    case Launch => s.(closer := Launched)
    case CloserStep =>
      s.(gates := s.gates.(upload := Call(s.gates.upload, ByCloser, Weight(s.request))),
         closer := if Through(s.gates.upload) then Ended else s.closer)
    case Use(t) => s.(users := s.users[t := User.Calling])
    case UserStep(t) =>
      s.(gates := s.gates.(finish := Call(s.gates.finish, ByUser(t), 1)), around := Finished(s.around),
         users := if Through(s.gates.finish) then s.users[t := Gone] else s.users)
    case EndRequest => s.(around := s.around.(request := s.around.request.(ended := true)))
    case EndOperation => s.(around := Finished(s.around))
    case CloseTransport => s.(transportClosed := true)
    case EndLifetime => s.(around := s.around.(lifetimeEnded := true))
  }

  predicate Runs(s: State, ls: seq<Label>)
    decreases |ls|
  {
    ls == [] || (Enabled(s, ls[0]) && Runs(Apply(s, ls[0]), ls[1..]))
  }

  function After(s: State, ls: seq<Label>): State
    requires Runs(s, ls)
    decreases |ls|
  {
    if ls == [] then s else After(Apply(s, ls[0]), ls[1..])
  }
}
