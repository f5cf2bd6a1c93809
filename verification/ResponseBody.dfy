/**
  A response body as the caller of `Transport.RoundTrip` sees it: `transportBody`
  over `responseBody` over the native call, with any number of concurrent reads and
  closes, the end of contexts, and the closing of the client and the transport.

  A call moves from one program counter to the next in steps between which any other
  goroutine or native task can run. `readMu` is held by one read from its first check
  to its return; `mu` guards the flag and the error of `responseBody`, is taken and
  released in steps of its own, and is what a close waits for.
 */
module ResponseBody {
  import opened Bytes
  import opened HttpCall
  import opened HttpErrors
  import opened OnceFunc

  type TaskId = nat

  /** What `Read` returns: the bytes put into the buffer, and the error. */
  datatype Result = Result(data: seq<byte>, err: Option<GoError>)

  datatype Pc =
    | Entered                                // wants transportBody.readMu
    | Locked                                 // holds it, checks its flag and its terminal error
    | Inner                                  // in responseBody.Read, wants mu
    | Peeking                                // holds mu, looks at the flag and the error
    | Calling                                // enters the native read
    | Reading                                // holds the native call, runs its loop
    | Got(output: Output)                    // the native read has returned; an error wants mu
    | Recording(output: Output)              // holds mu, stores the error
    | Stored(err: GoError)                   // responseBody.err is set, the request is closed next
    | Back(result: Result)                   // responseBody.Read has returned
    | Terminating(result: Result)            // transportBody.terminal is set, finish is called next
    | Returned(result: Result)
    | Marking                                // Close: the flag is stored next
    | ClosingInner                           // in responseBody.Close, wants mu
    | Shutting                               // holds mu, looks at the flag and sets it
    | Releasing                              // holds mu, closes the native request
    | Finishing                              // finish is called next
    | Closed

  /** `late` records that a read started after the body was marked closed. */
  datatype Task = Task(pc: Pc, size: nat, late: bool)

  predicate HoldsLock(pc: Pc) {
    || pc.Locked? || pc.Inner? || pc.Peeking? || pc.Calling? || pc.Reading? || pc.Got? || pc.Recording?
    || pc.Stored? || pc.Back? || pc.Terminating?
  }

  predicate HoldsMu(pc: Pc) {
    pc.Peeking? || pc.Recording? || pc.Shutting? || pc.Releasing?
  }

  predicate WantsMu(pc: Pc) {
    pc.Inner? || pc.ClosingInner? || (pc.Got? && !pc.output.Data?)
  }

  predicate CallsFinish(pc: Pc) {
    pc.Terminating? || pc.Finishing?
  }

  /** The closed flag and the stable terminal error of one layer. */
  datatype Layer = Layer(closed: bool, terminal: Option<GoError>)

  /** `finish` is the context finisher that `RoundTrip` hands over. */
  datatype Locks = Locks(readMu: Option<TaskId>, mu: Option<TaskId>, finish: Gate<TaskId>)

  /** `inner` is the responseBody, `outer` the transportBody; `log` holds what its reads returned, in order. */
  datatype Layers = Layers(inner: Layer, outer: Layer, log: seq<Result>)

  /** `endedCleanly` records that the stream has really ended with None. */
  datatype NativeCall = NativeCall(phase: Phase, registered: bool, cancelled: bool, endedCleanly: bool)

  datatype State = State(tasks: map<TaskId, Task>, locks: Locks, layers: Layers, call: NativeCall, around: Surroundings)

  const FREE: Locks := Locks(None, None, Gate(Fresh, 0, 0))
  const OPEN: Layers := Layers(Layer(false, None), Layer(false, None), [])

  function Init(stream: seq<Item>, requestCause: GoError, operationCause: GoError): State {
    State(map[], FREE, OPEN,
          NativeCall(Streaming(stream, []), true, false, false),
          Surroundings(Context(false, requestCause), Context(false, operationCause), false, true))
  }

  // ------------------------------------------------------------ error mapping

  function NativeError(output: Output): GoError
    requires !output.Data?
  {
    if output.Eof? then EOF else Native(output.kind)
  }

  function Failed(err: GoError): Result {
    Result([], Some(err))
  }

  // ----------------------------------------- where a call goes, and what it does

  /** The native read: an unregistered request is not found, and each turn of the loop may go on or return. */
  function AfterTurn(call: NativeCall, size: nat): Pc {
    match TakeTurn(call.phase, Min(size, MAX_READ))
    case Continues(_) => Reading
    case Returns(output, _) => Got(output)
  }

  /** `copy` puts into the buffer what fits. */
  function Copied(data: seq<byte>, size: nat): seq<byte> {
    data[..Min(size, |data|)]
  }

  function Recorded(output: Output, inner: Layer, around: Surroundings): GoError
    requires !output.Data?
  {
    if inner.closed then ErrBodyClosed else RequestError(around, NativeError(output))
  }

  function Mapped(err: GoError, outer: Layer, around: Surroundings): GoError {
    if outer.closed then ErrBodyClosed else TransportError(around, err)
  }

  predicate CanStep(t: TaskId, pc: Pc, locks: Locks) {
    && !pc.Returned? && !pc.Closed?
    && (pc.Entered? ==> locks.readMu == None)
    && (WantsMu(pc) ==> locks.mu == None)
    && (CallsFinish(pc) ==> MayCall(locks.finish, t))
    && (pc.Recording? ==> !pc.output.Data?)
  }

  function NextPc(pc: Pc, size: nat, locks: Locks, layers: Layers, call: NativeCall, around: Surroundings): Pc
    requires pc.Recording? ==> !pc.output.Data?
  {
    match pc
    case Entered => Locked
    case Locked =>
      if layers.outer.closed then Returned(Failed(ErrBodyClosed))
      else if layers.outer.terminal.Some? then Returned(Failed(layers.outer.terminal.value))
      else Inner
    case Inner => Peeking
    case Peeking =>
      if layers.inner.closed then Back(Failed(ErrBodyClosed))
      else if layers.inner.terminal.Some? then Back(Failed(layers.inner.terminal.value))
      else if size == 0 then Back(Result([], None))
      else Calling
    case Calling => if call.registered then Reading else Got(Error(Kind.Closed))
    case Reading => AfterTurn(call, size)
    case Got(output) => if output.Data? then Back(Result(Copied(output.data, size), None)) else Recording(output)
    case Recording(output) => Stored(Recorded(output, layers.inner, around))
    case Stored(err) => Back(Failed(err))
    case Back(result) =>
      if result.err.None? then Returned(result)
      else Terminating(Result(result.data, Some(Mapped(result.err.value, layers.outer, around))))
    case Terminating(result) => if Through(locks.finish) then Returned(result) else pc
    case Marking => ClosingInner
    case ClosingInner => Shutting
    case Shutting => if layers.inner.closed then Finishing else Releasing
    case Releasing => Finishing
    case Finishing => if Through(locks.finish) then Pc.Closed else pc
    case _ => pc
  }

  /** Locks are taken and released as the program counter moves; `finish` is entered and left. */
  function NextLocks(t: TaskId, pc: Pc, pc': Pc, locks: Locks): Locks
    requires CallsFinish(pc) ==> MayCall(locks.finish, t)
  {
    Locks(if HoldsLock(pc) == HoldsLock(pc') then locks.readMu else if HoldsLock(pc') then Some(t) else None,
          if HoldsMu(pc') then Some(t) else if HoldsMu(pc) then None else locks.mu,
          if CallsFinish(pc) then OnceFunc.Call(locks.finish, t, 1) else locks.finish)
  }

  function NextLayers(pc: Pc, pc': Pc, layers: Layers): Layers {
    match pc
    case Recording(_) => if pc'.Stored? then layers.(inner := layers.inner.(terminal := Some(pc'.err))) else layers
    case Back(_) =>
      if pc'.Terminating? then layers.(outer := layers.outer.(terminal := pc'.result.err))
      else if pc'.Returned? then layers.(log := layers.log + [pc'.result]) else layers
    case Locked => if pc'.Returned? then layers.(log := layers.log + [pc'.result]) else layers
    case Terminating(_) => if pc'.Returned? then layers.(log := layers.log + [pc'.result]) else layers
    case Marking => layers.(outer := layers.outer.(closed := true))
    case Shutting => layers.(inner := layers.inner.(closed := true))
    case _ => layers
  }

  function CloseRequest(call: NativeCall): NativeCall {
    call.(registered := false, cancelled := call.cancelled || call.registered)
  }

  function NextCall(pc: Pc, size: nat, call: NativeCall): NativeCall {
    match pc
    case Reading =>
      var turn := TakeTurn(call.phase, Min(size, MAX_READ));
      call.(phase := turn.phase,
            endedCleanly := call.endedCleanly || (call.phase.Streaming? && turn.Returns? && turn.output.Eof?))
    case Stored(_) => CloseRequest(call)
    case Releasing => CloseRequest(call)
    case _ => call
  }

  function NextAround(pc: Pc, around: Surroundings): Surroundings {
    if CallsFinish(pc) then HttpErrors.Finished(around) else around
  }

  // ------------------------------------------------------------------ events

  /** The operation's context ends with the request's or the lifetime, at its timeout, or a little later. */
  datatype Event = EndRequest | EndOperation | AfterOperation | EndLifetime | CloseClient

  function EventCall(call: NativeCall, e: Event): NativeCall {
    match e
    case AfterOperation => CloseRequest(call)
    case CloseClient => call.(registered := false, cancelled := true)
    case _ => call
  }

  function EventAround(around: Surroundings, e: Event): Surroundings {
    match e
    case EndRequest => around.(request := around.request.(ended := true))
    case EndOperation => HttpErrors.Finished(around)
    case EndLifetime => around.(lifetimeEnded := true)
    case CloseClient => around.(clientLive := false)
    case AfterOperation => around
  }

  // -------------------------------------------------------------------- runs

  datatype Label =
    | Read(t: TaskId, size: nat)
    | Close(t: TaskId)
    | Step(t: TaskId)
    | SeeCancel(t: TaskId)   // a poll of the native read finds its token cancelled
    | Happen(event: Event)

  predicate Enabled(s: State, l: Label) {
    match l
    case Read(t, _) => t !in s.tasks
    case Close(t) => t !in s.tasks
    case Step(t) => t in s.tasks && CanStep(t, s.tasks[t].pc, s.locks)
    case SeeCancel(t) => t in s.tasks && s.tasks[t].pc.Reading? && s.call.cancelled
    case Happen(e) => e == AfterOperation ==> s.around.operation.ended
  }

  function Stepped(s: State, t: TaskId): State
    requires Enabled(s, Step(t))
  {
    var task := s.tasks[t];
    var pc' := NextPc(task.pc, task.size, s.locks, s.layers, s.call, s.around);
    State(s.tasks[t := task.(pc := pc')],
          NextLocks(t, task.pc, pc', s.locks),
          NextLayers(task.pc, pc', s.layers),
          NextCall(task.pc, task.size, s.call),
          NextAround(task.pc, s.around))
  }

  function Apply(s: State, l: Label): State
    requires Enabled(s, l)
  {
    match l
    case Read(t, size) => s.(tasks := s.tasks[t := Task(Entered, size, s.layers.outer.closed)])
    case Close(t) => s.(tasks := s.tasks[t := Task(Marking, 0, false)])
    case Step(t) => Stepped(s, t)
    case SeeCancel(t) => s.(tasks := s.tasks[t := s.tasks[t].(pc := Got(Error(Cancelled)))])
    case Happen(e) => s.(call := EventCall(s.call, e), around := EventAround(s.around, e))
  }

  predicate Runs(s: State, ls: seq<Label>)
    decreases |ls|
  {
    ls == [] || (Enabled(s, ls[0]) && Runs(Apply(s, ls[0]), ls[1..]))
  }

  function After(s: State, ls: seq<Label>): State
    requires Runs(s, ls)
    decreases |ls|
  {
    if ls == [] then s else After(Apply(s, ls[0]), ls[1..])
  }

  lemma {:induction false} RunsConcat(s: State, xs: seq<Label>, ys: seq<Label>)
    requires Runs(s, xs) && Runs(After(s, xs), ys)
    ensures Runs(s, xs + ys) && After(s, xs + ys) == After(After(s, xs), ys)
    decreases |xs|
  {
    if xs == [] {
      assert xs + ys == ys;
    } else {
      RunsConcat(Apply(s, xs[0]), xs[1..], ys);
      assert (xs + ys)[1..] == xs[1..] + ys;
    }
  }

  lemma RunsOne(s: State, l: Label)
    requires Enabled(s, l)
    ensures Runs(s, [l]) && After(s, [l]) == Apply(s, l)
  {
    assert Runs(Apply(s, l), []);
  }
}
