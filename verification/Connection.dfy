/**
  One WebSocket connection as a transition system.

  A state holds the four locks of the native connection, the frame sink and what
  it has put on the wire, the release progress of the two handles above it, and
  one program counter for every `ReadMessage`, `WriteMessage` or `WriteControl`
  call, of which there may be any number. A `Section` is a piece of the native
  source between two points where another task can run; the other labels are the
  Go side of a call, polls by the scheduler, and the environment. `Enabled` says
  when a label can happen and `Apply` what it does. Every choice made elsewhere
  (the network, the sink, the scheduler, the callers) is part of the label.

  What is taken from the libraries: the sink appends whole frames or fails, a
  failed sink keeps failing, a sink that has started closing refuses frames with
  `SendAfterClosing`, queued automatic replies may be emitted at any time, the
  control gate is granted in arrival order, and a biased `select` looks at the
  cancellation token once at the start of each poll.
 */
module Connection {
  import opened Bytes
  import opened Fragmentation

  type TaskId = nat

  // ----------------------------------------------------------------- errors

  datatype IoKind = BrokenPipe | ConnectionReset | ConnectionAborted | NotConnected | OtherIo

  datatype WsError =
    | HandshakeIncomplete
    | SendAfterClosing
    | ConnectionClosed
    | Io(io: IoKind)
    | OtherError

  datatype Kind = InvalidInput | Closing | Closed | UnexpectedEof | WebSocket

  function FromWsError(e: WsError): Kind {
    match e
    case HandshakeIncomplete => UnexpectedEof
    case SendAfterClosing => Closing
    case _ => WebSocket
  }

  function WriteError(peerClose: bool, e: WsError): Kind {
    if peerClose then Closing
    else if e.Io? && e.io in {BrokenPipe, ConnectionReset, ConnectionAborted, NotConnected} then Closing
    else FromWsError(e)
  }

  // ------------------------------------------------------------------ tasks

  datatype Control = Ping(payload: seq<byte>) | Pong(payload: seq<byte>) | Close(payload: seq<byte>)

  datatype Op =
    | WriteData(kind: DataKind, data: seq<byte>)
    | WriteControl(control: Control)
    | Read

  /** A message as the native `read` encodes it: the frame type and its payload. */
  datatype Received = Received(kind: nat, payload: seq<byte>)

  const TEXT := 1
  const BINARY := 2
  const CLOSE := 8
  const PING := 9
  const PONG := 10

  datatype Native = Sent | Got(received: Received) | Eof | Failed(kind: Kind)

  datatype Outcome =
    | Written
    | GotMessage(received: Received)
    | EndOfStream
    | ContextError
    | ClientClosedError
    | ConnClosedError
    | NativeError(kind: Kind)

  datatype Pc =
    | Called                     // Go has loaded the handle, the native lookup is next
    | NeedData                   // awaiting data_write
    | NeedReader                 // awaiting reader
    | Receiving                  // holds reader, awaiting the next message
    | Storing                    // holds a received Close, the flag is stored next
    | NeedGate                   // about to ask for control_gate
    | Queued                     // in the queue of control_gate
    | NeedWriter                 // holds control_gate, awaiting writer
    | Sending                    // holds control_gate and writer, awaiting the sink
    | Returned(native: Native)   // the native call has returned to Go
    | Finished(outcome: Outcome) // the Go method has returned

  /**
    `offset` is the local of `write`, `taken` the message `read` is about to
    return. `emitted` records the data frames this task has put on the wire.
   */
  datatype Task = Task(
    op: Op,
    pc: Pc,
    polling: bool,
    offset: nat,
    taken: Received,
    contextEnded: bool,
    emitted: seq<Frame>)

  predicate Running(task: Task) {
    !task.pc.Called? && !task.pc.Returned? && !task.pc.Finished?
  }

  /** A data writer takes `control_gate` shared, everyone else exclusively. */
  predicate Shared(task: Task) {
    task.op.WriteData?
  }

  predicate HoldsData(task: Task) {
    task.op.WriteData? && task.pc in {NeedGate, Queued, NeedWriter, Sending}
  }

  predicate HoldsReader(task: Task) {
    task.op.Read? && task.pc in {Receiving, Storing, NeedGate, Queued, NeedWriter, Sending}
  }

  predicate HoldsGate(task: Task) {
    task.pc in {NeedWriter, Sending}
  }

  predicate HoldsWriter(task: Task) {
    task.pc == Sending
  }

  // ------------------------------------------------------------------ state

  /** `queue` holds the waiting tasks in arrival order. */
  datatype Gate = Gate(exclusive: Option<TaskId>, shared: set<TaskId>, queue: seq<TaskId>)

  /** The locks of a connection; `order` records who got `dataWrite`, in that order. */
  datatype Locks = Locks(
    reader: Option<TaskId>,
    dataWrite: Option<TaskId>,
    gate: Gate,
    writer: Option<TaskId>,
    order: seq<TaskId>)

  datatype Sink = Sink(closing: bool, failed: bool, replies: seq<Frame>)

  datatype OnWire = OnWire(owner: Option<TaskId>, frame: Frame)

  datatype Link = Link(
    frameSize: nat,
    hasWriter: bool,
    hasReader: bool,
    peerClose: bool,
    sink: Sink,
    wire: seq<OnWire>)

  /** How far the owner of a handle has got with closing it. */
  datatype Release =
    | Live
    | Swapped    // the Go handle is zero
    | Removed    // this close took the native entry out of the registry
    | Cancelled  // ... and has cancelled its token
    | Absent     // the registry entry was already gone

  datatype State = State(
    tasks: map<TaskId, Task>,
    locks: Locks,
    link: Link,
    conn: Release,
    client: Release)

  function Init(frameSize: nat): State {
    State(map[],
          Locks(None, None, Gate(None, {}, []), None, []),
          Link(frameSize, false, false, false, Sink(false, false, []), []),
          Live, Live)
  }

  predicate TokenCancelled(s: State) {
    s.conn == Cancelled || s.client == Cancelled
  }

  predicate Registered(s: State) {
    s.conn in {Live, Swapped} && s.client in {Live, Swapped}
  }

  function Frames(wire: seq<OnWire>): (fs: seq<Frame>)
    ensures |fs| == |wire|
    ensures forall i | 0 <= i < |wire| :: fs[i] == wire[i].frame
  {
    seq(|wire|, i requires 0 <= i < |wire| => wire[i].frame)
  }

  // --------------------------------------------------------------- sections

  datatype Incoming =
    | InText(data: seq<byte>)
    | InBinary(data: seq<byte>)
    | InPong(data: seq<byte>)
    | InPing(data: seq<byte>)
    | InClose(data: seq<byte>)
    | InFrame
    | InEnd
    | InError(error: WsError)

  datatype SinkResult = Accepted | Refused(error: WsError)

  datatype Section =
    | TakeData
    | TakeReader
    | Receive(incoming: Incoming)
    | Store
    | QueueGate
    | EnterGate
    | TakeWriter
    | Send(result: SinkResult)
    | Flush(result: SinkResult)

  predicate SinkMay(sink: Sink, result: SinkResult) {
    match result
    case Accepted => !sink.closing && !sink.failed
    case Refused(e) => sink.failed || (sink.closing <==> e == SendAfterClosing)
  }

  predicate GateFree(gate: Gate, shared: bool) {
    gate.exclusive == None && (shared || gate.shared == {})
  }

  /** Whether a task that is being polled can run this section. */
  predicate CanRun(t: TaskId, task: Task, locks: Locks, link: Link, section: Section) {
    match section
    case TakeData => task.pc.NeedData? && locks.dataWrite == None
    case TakeReader => task.pc.NeedReader? && locks.reader == None
    case Receive(_) => task.pc.Receiving?
    case Store => task.pc.Storing?
    case QueueGate => task.pc.NeedGate?
    case EnterGate =>
      task.pc.Queued? && |locks.gate.queue| > 0 && locks.gate.queue[0] == t && GateFree(locks.gate, Shared(task))
    case TakeWriter => task.pc.NeedWriter? && locks.writer == None
    case Send(result) =>
      task.pc.Sending? && !task.op.Read? && SinkMay(link.sink, result)
      && (task.op.WriteData? ==> task.offset <= |task.op.data|)
    case Flush(result) => task.pc.Sending? && task.op.Read? && (result.Accepted? ==> !link.sink.failed)
  }

  /** What a section leaves behind: its own task, the locks, and the link. */
  datatype Effect = Effect(task: Task, locks: Locks, link: Link)

  function Without(holder: Option<TaskId>, t: TaskId): Option<TaskId> {
    if holder == Some(t) then None else holder
  }

  function Remove(queue: seq<TaskId>, t: TaskId): seq<TaskId> {
    if queue == [] then []
    else if queue[0] == t then Remove(queue[1..], t)
    else [queue[0]] + Remove(queue[1..], t)
  }

  /** Dropping a native task's locals releases every lock and queue place it has. */
  function Released(locks: Locks, t: TaskId): Locks {
    Locks(Without(locks.reader, t),
          Without(locks.dataWrite, t),
          Gate(Without(locks.gate.exclusive, t), locks.gate.shared - {t}, Remove(locks.gate.queue, t)),
          Without(locks.writer, t),
          locks.order)
  }

  function Back(task: Task, native: Native): Task {
    task.(pc := Returned(native), polling := false)
  }

  /** The native call returns: every lock goes, the link stays as given. */
  function Returning(t: TaskId, task: Task, locks: Locks, link: Link, native: Native): Effect {
    Effect(Back(task, native), Released(locks, t), link)
  }

  /** `reader.lock()`, then the check that there is a reader, then the check of the flag. */
  function TakingReader(t: TaskId, task: Task, locks: Locks, link: Link): Effect {
    if !link.hasReader then Returning(t, task, locks, link, Failed(InvalidInput))
    else if link.peerClose then Returning(t, task, locks, link, Eof)
    else Effect(task.(pc := Receiving), locks.(reader := Some(t)), link)
  }

  function ReplyFrame(opcode: OpCode, data: seq<byte>): Frame {
    Frame(opcode, data, true)
  }

  function HandleIncoming(t: TaskId, task: Task, locks: Locks, link: Link, incoming: Incoming): Effect {
    match incoming
    case InText(data) => Returning(t, task, locks, link, Got(Received(TEXT, data)))
    case InBinary(data) => Returning(t, task, locks, link, Got(Received(BINARY, data)))
    case InPong(data) => Returning(t, task, locks, link, Got(Received(PONG, data)))
    case InPing(data) =>
      Effect(task.(pc := NeedGate, taken := Received(PING, data)), locks,
             if link.sink.closing then link
             else link.(sink := link.sink.(replies := [ReplyFrame(OpPong, data)])))
    case InClose(data) =>
      Effect(task.(pc := Storing, taken := Received(CLOSE, data)), locks,
             if link.sink.closing then link
             else link.(sink := link.sink.(closing := true, replies := [ReplyFrame(OpClose, data)])))
    case InFrame => Effect(task, locks, link)
    case InEnd => Returning(t, task, locks, link, Eof)
    case InError(e) =>
      Returning(t, task, locks, link, if e == ConnectionClosed then Eof else Failed(FromWsError(e)))
  }

  function EnteringGate(t: TaskId, task: Task, locks: Locks, link: Link): Effect
    requires |locks.gate.queue| > 0
  {
    var rest := locks.gate.queue[1..];
    Effect(task.(pc := NeedWriter),
           locks.(gate := if Shared(task)
                          then Gate(locks.gate.exclusive, locks.gate.shared + {t}, rest)
                          else Gate(Some(t), locks.gate.shared, rest)),
           link)
  }

  /** A reader flushes only if there is a writer; there always is once there is a reader. */
  function TakingWriter(t: TaskId, task: Task, locks: Locks, link: Link): Effect {
    if link.hasWriter || task.op.Read?
    then Effect(task.(pc := Sending), locks.(writer := Some(t)), link)
    else Returning(t, task, locks, link, Failed(InvalidInput))
  }

  function ControlFrame(control: Control): Frame {
    match control
    case Ping(p) => Frame(OpPing, p, true)
    case Pong(p) => Frame(OpPong, p, true)
    case Close(p) => Frame(OpClose, p, true)
  }

  function NextFrame(task: Task, link: Link): Frame
    requires task.op.WriteData? && task.offset <= |task.op.data|
  {
    FrameAt(task.op.kind, task.op.data, link.frameSize, task.offset)
  }

  /** One turn of the fragment loop. Unless it was the last, the task yields without the gate and the writer. */
  function SendingData(t: TaskId, task: Task, locks: Locks, link: Link): Effect
    requires task.op.WriteData? && task.offset <= |task.op.data|
  {
    var end := FragmentEnd(|task.op.data|, link.frameSize, task.offset);
    var frame := NextFrame(task, link);
    var link' := link.(wire := link.wire + [OnWire(Some(t), frame)]);
    var task' := task.(emitted := task.emitted + [frame]);
    if end == |task.op.data| then Returning(t, task', locks, link', Sent)
    else Effect(task'.(pc := NeedGate, polling := false, offset := end),
                locks.(writer := Without(locks.writer, t),
                       gate := locks.gate.(shared := locks.gate.shared - {t})),
                link')
  }

  function SendingControl(t: TaskId, task: Task, locks: Locks, link: Link): Effect
    requires task.op.WriteControl?
  {
    var control := task.op.control;
    Returning(t, task, locks,
              link.(wire := link.wire + [OnWire(Some(t), ControlFrame(control))],
                    sink := link.sink.(closing := link.sink.closing || control.Close?)),
              Sent)
  }

  function SendRefused(t: TaskId, task: Task, locks: Locks, link: Link, e: WsError): Effect {
    Returning(t, task, locks,
              link.(sink := link.sink.(failed := link.sink.failed || e != SendAfterClosing)),
              Failed(WriteError(link.peerClose, e)))
  }

  function RepliesOnWire(replies: seq<Frame>): (w: seq<OnWire>)
    ensures |w| == |replies| && forall i | 0 <= i < |w| :: w[i] == OnWire(None, replies[i])
  {
    seq(|replies|, i requires 0 <= i < |replies| => OnWire(None, replies[i]))
  }

  function Flushed(t: TaskId, task: Task, locks: Locks, link: Link): Effect {
    Returning(t, task, locks,
              link.(wire := link.wire + RepliesOnWire(link.sink.replies), sink := link.sink.(replies := [])),
              Got(task.taken))
  }

  /** A failed acknowledgement replaces a received Ping, never a received Close. */
  function FlushRefused(t: TaskId, task: Task, locks: Locks, link: Link, e: WsError): Effect {
    Returning(t, task, locks,
              link.(sink := link.sink.(failed := link.sink.failed || e != ConnectionClosed)),
              if e == ConnectionClosed || task.taken.kind == CLOSE then Got(task.taken)
              else Failed(FromWsError(e)))
  }

  function RunSection(t: TaskId, task: Task, locks: Locks, link: Link, section: Section): Effect
    requires CanRun(t, task, locks, link, section)
  {
    match section
    case TakeData => Effect(task.(pc := NeedGate), locks.(dataWrite := Some(t), order := locks.order + [t]), link)
    case TakeReader => TakingReader(t, task, locks, link)
    case Receive(incoming) => HandleIncoming(t, task, locks, link, incoming)
    case Store => Effect(task.(pc := NeedGate), locks, link.(peerClose := true))
    case QueueGate => Effect(task.(pc := Queued), locks.(gate := locks.gate.(queue := locks.gate.queue + [t])), link)
    case EnterGate => EnteringGate(t, task, locks, link)
    case TakeWriter => TakingWriter(t, task, locks, link)
    case Send(Refused(e)) => SendRefused(t, task, locks, link, e)
    case Send(Accepted) =>
      if task.op.WriteData? then SendingData(t, task, locks, link) else SendingControl(t, task, locks, link)
    case Flush(Accepted) => Flushed(t, task, locks, link)
    case Flush(Refused(e)) => FlushRefused(t, task, locks, link, e)
  }

  // ------------------------------------------------- the Go side of a call

  /** `operationError`: what the Go method reports in place of the native result. */
  function OperationResult(task: Task, conn: Release, client: Release): Outcome
    requires task.pc.Returned?
  {
    if task.contextEnded then ContextError
    else if client != Live then ClientClosedError
    else if conn != Live then ConnClosedError
    else match task.pc.native
         case Sent => Written
         case Got(received) => GotMessage(received)
         case Eof => EndOfStream
         case Failed(kind) => NativeError(kind)
  }

  /** Whether a method that ends with this outcome also closes the connection. */
  predicate Disposes(op: Op, outcome: Outcome) {
    match outcome
    case Written => false
    case GotMessage(_) => false
    case NativeError(kind) => op.Read? || kind !in {InvalidInput, Closing}
    case _ => true
  }

  function Swap(release: Release): Release {
    if release == Live then Swapped else release
  }

  function FirstPc(op: Op): Pc {
    match op
    case WriteData(_, _) => NeedData
    case WriteControl(_) => NeedGate
    case Read => NeedReader
  }

  /** The size rule of control frames; text and close codes are validated by `Reject`. */
  predicate Admissible(op: Op) {
    op.WriteControl? ==> |op.control.payload| <= 125
  }

  /** Events that change nothing but their own task. */
  datatype Event = Enter | Miss | Reject | Poll | Suspend | EndContext

  predicate MayHappen(s: State, task: Task, event: Event) {
    match event
    case Enter => task.pc.Called? && Registered(s) && Admissible(task.op)
    case Miss => task.pc.Called? && !Registered(s)
    case Reject => task.pc.Called? && Registered(s) && !task.op.Read?
    case Poll => Running(task) && !task.polling && !TokenCancelled(s)
    case Suspend => Running(task) && task.polling && !task.pc.Storing?
    case EndContext => !task.pc.Finished?
  }

  function Happened(task: Task, event: Event): Task {
    match event
    case Enter => task.(pc := FirstPc(task.op))
    case Miss => Back(task, Failed(Closed))
    case Reject => Back(task, Failed(InvalidInput))
    case Poll => task.(polling := true)
    case Suspend => task.(polling := false)
    case EndContext => task.(contextEnded := true)
  }

  // -------------------------------------------- closing and the environment

  datatype Env =
    | Watch(t: TaskId)  // the context of call t has ended and its watcher closes the connection
    | CloseConn
    | CloseClient
    | RemoveConn
    | CancelConn
    | RemoveClient
    | CancelClient
    | SetWriter
    | SetReader
    | EmitReply

  predicate EnvMay(s: State, e: Env) {
    match e
    case Watch(t) => t in s.tasks && !s.tasks[t].pc.Finished? && s.tasks[t].contextEnded
    case CloseConn => true
    case CloseClient => true
    case RemoveConn => s.conn == Swapped
    case CancelConn => s.conn == Removed
    case RemoveClient => s.client == Swapped
    case CancelClient => s.client == Removed
    case SetWriter => !s.link.hasWriter && s.locks.writer == None
    case SetReader => s.link.hasWriter && !s.link.hasReader && s.locks.reader == None
    case EmitReply => |s.link.sink.replies| > 0 && !s.link.sink.failed
  }

  function EnvConn(s: State, e: Env): Release {
    match e
    case Watch(_) => Swap(s.conn)
    case CloseConn => Swap(s.conn)
    case RemoveConn => if Registered(s) then Removed else Absent
    case CancelConn => Cancelled
    case _ => s.conn
  }

  function EnvClient(s: State, e: Env): Release {
    match e
    case CloseClient => Swap(s.client)
    case RemoveClient => Removed
    case CancelClient => Cancelled
    case _ => s.client
  }

  function EnvLink(link: Link, e: Env): Link {
    match e
    case SetWriter => link.(hasWriter := true)
    case SetReader => link.(hasReader := true)
    case EmitReply =>
      if link.sink.replies == [] then link
      else link.(wire := link.wire + [OnWire(None, link.sink.replies[0])],
                 sink := link.sink.(replies := link.sink.replies[1..]))
    case _ => link
  }

  // ----------------------------------------------------------------- labels

  datatype Label =
    | Call(t: TaskId, op: Op)             // a Go method starts and loads the handle
    | Happen(t: TaskId, event: Event)
    | Drop(t: TaskId)                     // a poll finds the token cancelled
    | Run(t: TaskId, section: Section)
    | Finish(t: TaskId)                   // a Go method ends
    | Around(env: Env)

  predicate Enabled(s: State, l: Label) {
    match l
    case Call(t, _) => t !in s.tasks
    case Happen(t, event) => t in s.tasks && MayHappen(s, s.tasks[t], event)
    case Drop(t) => t in s.tasks && Running(s.tasks[t]) && !s.tasks[t].polling && TokenCancelled(s)
    case Run(t, section) =>
      t in s.tasks && s.tasks[t].polling && CanRun(t, s.tasks[t], s.locks, s.link, section)
    case Finish(t) => t in s.tasks && s.tasks[t].pc.Returned?
    case Around(e) => EnvMay(s, e)
  }

  /** A call on a closed handle returns at once. */
  function NewTask(op: Op, conn: Release): Task {
    Task(op, if conn == Live then Called else Finished(ConnClosedError), false, 0, Received(0, []), false, [])
  }

  function Put(s: State, t: TaskId, effect: Effect): State {
    s.(tasks := s.tasks[t := effect.task], locks := effect.locks, link := effect.link)
  }

  function FinishCall(s: State, t: TaskId): State
    requires t in s.tasks && s.tasks[t].pc.Returned?
  {
    var task := s.tasks[t];
    var outcome := OperationResult(task, s.conn, s.client);
    s.(tasks := s.tasks[t := task.(pc := Finished(outcome))],
       conn := if Disposes(task.op, outcome) then Swap(s.conn) else s.conn)
  }

  function Apply(s: State, l: Label): State
    requires Enabled(s, l)
  {
    match l
    case Call(t, op) => s.(tasks := s.tasks[t := NewTask(op, s.conn)])
    case Happen(t, event) => s.(tasks := s.tasks[t := Happened(s.tasks[t], event)])
    case Drop(t) => Put(s, t, Returning(t, s.tasks[t], s.locks, s.link, Failed(Closed)))
    case Run(t, section) => Put(s, t, RunSection(t, s.tasks[t], s.locks, s.link, section))
    case Finish(t) => FinishCall(s, t)
    case Around(e) => s.(conn := EnvConn(s, e), client := EnvClient(s, e), link := EnvLink(s.link, e))
  }

  // ------------------------------------------------------------------- runs

  /** Every label of `ls` is enabled when its turn comes. */
  predicate Runs(s: State, ls: seq<Label>)
    decreases |ls|
  {
    ls == [] || (Enabled(s, ls[0]) && Runs(Apply(s, ls[0]), ls[1..]))
  }

  function After(s: State, ls: seq<Label>): State
    requires Runs(s, ls)
    decreases |ls|
  {
    if ls == [] then s else After(Apply(s, ls[0]), ls[1..])
  }

  lemma {:induction false} RunsConcat(s: State, xs: seq<Label>, ys: seq<Label>)
    requires Runs(s, xs) && Runs(After(s, xs), ys)
    ensures Runs(s, xs + ys) && After(s, xs + ys) == After(After(s, xs), ys)
    decreases |xs|
  {
    if xs == [] {
      assert xs + ys == ys;
    } else {
      RunsConcat(Apply(s, xs[0]), xs[1..], ys);
      assert (xs + ys)[1..] == xs[1..] + ys;
    }
  }

  lemma RunsOne(s: State, l: Label)
    requires Enabled(s, l)
    ensures Runs(s, [l]) && After(s, [l]) == Apply(s, l)
  {
    assert Runs(Apply(s, l), []);
  }

  lemma Extend(s: State, ls: seq<Label>, l: Label)
    requires Runs(s, ls) && Enabled(After(s, ls), l)
    ensures Runs(s, ls + [l]) && After(s, ls + [l]) == Apply(After(s, ls), l)
  {
    RunsOne(After(s, ls), l);
    RunsConcat(s, ls, [l]);
  }
}
