/** What every run of reads, closes and endings keeps, and what callers can rely on. */
module ResponseBodyContract {
  import opened Bytes
  import opened HttpCall
  import opened HttpErrors
  import opened OnceFunc
  import opened ResponseBody
  import opened ResponseBodyLocks

  /** Where the holder of `readMu` stands; there is at most one. */
  function Active(tasks: map<TaskId, Task>, locks: Locks): Option<Pc> {
    if locks.readMu.Some? && locks.readMu.value in tasks then Some(tasks[locks.readMu.value].pc) else None
  }

  /** The active read's program counter after a task has moved from `pc` to `pc'`. */
  function Moved(active: Option<Pc>, pc: Pc, pc': Pc): Option<Pc> {
    if HoldsLock(pc') then Some(pc') else if HoldsLock(pc) then None else active
  }

  /** Every invariant about the active read is checked on one step of one task. */
  ghost predicate Acts(active: Option<Pc>, t: TaskId, pc: Pc, locks: Locks) {
    && CanStep(t, pc, locks)
    && (HoldsLock(pc) ==> active == Some(pc))
    && (pc.Entered? ==> active == None)
  }

  lemma ActiveAfterStep(s: State, t: TaskId)
    requires LocksOk(s.tasks, s.locks) && Enabled(s, Step(t))
    ensures var s' := Stepped(s, t);
            && Active(s'.tasks, s'.locks) == Moved(Active(s.tasks, s.locks), s.tasks[t].pc, s'.tasks[t].pc)
            && Acts(Active(s.tasks, s.locks), t, s.tasks[t].pc, s.locks)
  {
    hide NextPc, NextLayers, NextCall, NextAround;
    var task := s.tasks[t];
    var pc' := NextPc(task.pc, task.size, s.locks, s.layers, s.call, s.around);
    StepOwns(t, task.pc, task.size, s.locks, s.layers, s.call, s.around);
    assert Owns(t, task.pc, s.locks) && Owns(t, pc', Stepped(s, t).locks);
  }

  lemma ActiveAfterOther(s: State, l: Label)
    requires LocksOk(s.tasks, s.locks) && Enabled(s, l) && !l.Step?
    ensures var s' := Apply(s, l);
            && s'.locks == s.locks && s'.layers == s.layers
            && (if l.SeeCancel? then Active(s'.tasks, s'.locks) == Some(Got(Error(Cancelled)))
                else Active(s'.tasks, s'.locks) == Active(s.tasks, s.locks))
            && (l.SeeCancel? ==> Active(s.tasks, s.locks) == Some(Reading))
  {
    if l.SeeCancel? {
      assert Owns(l.t, s.tasks[l.t].pc, s.locks);
    }
  }

  // ------------------------------------------------------ closing, layer by layer

  /** A reader past the first check, which found the outer body open and without a terminal error. */
  predicate Admitted(pc: Pc) {
    HoldsLock(pc) && !pc.Locked?
  }

  predicate PastMark(pc: Pc) {
    ClosesBody(pc) && !pc.Marking?
  }

  predicate LateOk(task: Task, outerClosed: bool) {
    task.late ==>
      && outerClosed && (task.pc.Entered? || task.pc.Locked? || task.pc.Returned?)
      && (task.pc.Returned? ==> task.pc.result == Failed(ErrBodyClosed))
  }

  predicate CloseTask(task: Task, outerClosed: bool) {
    LateOk(task, outerClosed) && (PastMark(task.pc) ==> outerClosed)
  }

  ghost predicate CloseOk(s: State) {
    && (s.layers.inner.closed ==> s.layers.outer.closed)
    && (forall t | t in s.tasks :: CloseTask(s.tasks[t], s.layers.outer.closed))
  }

  lemma StepTaskClose(task: Task, locks: Locks, layers: Layers, call: NativeCall, around: Surroundings)
    requires task.pc.Recording? ==> !task.pc.output.Data?
    requires CloseTask(task, layers.outer.closed) && (layers.inner.closed ==> layers.outer.closed)
    ensures var pc' := NextPc(task.pc, task.size, locks, layers, call, around);
            var layers' := NextLayers(task.pc, pc', layers);
            && (layers.outer.closed ==> layers'.outer.closed)
            && (layers'.inner.closed ==> layers'.outer.closed)
            && CloseTask(task.(pc := pc'), layers'.outer.closed)
  {
    hide RequestError, TransportError, TakeTurn, Min;
  }

  lemma StepClose(s: State, l: Label)
    requires CloseOk(s) && Enabled(s, l)
    ensures CloseOk(Apply(s, l))
  {
    hide NextPc, NextLocks, NextLayers, NextCall, NextAround;
    match l
    case Step(t) => StepTaskClose(s.tasks[t], s.locks, s.layers, s.call, s.around);
    case SeeCancel(t) => assert CloseTask(s.tasks[t], s.layers.outer.closed);
    case _ =>
  }

  // -------------------------------------------------------- sizes of results

  /** A read with an empty buffer returns nothing; one that succeeds otherwise fills between 1 byte and what fits. */
  predicate Fits(size: nat, result: Result) {
    if result.err.Some? || size == 0 then result.data == []
    else 1 <= |result.data| <= Min(size, MAX_READ)
  }

  predicate SizeOk(pc: Pc, size: nat) {
    match pc
    case Calling => 0 < size
    case Reading => 0 < size
    case Got(output) => 0 < size && (output.Data? ==> 1 <= |output.data| <= Min(size, MAX_READ))
    case Back(result) => Fits(size, result)
    case Terminating(result) => Fits(size, result) && result.err.Some?
    case Returned(result) => Fits(size, result)
    case _ => true
  }

  ghost predicate SizesOk(s: State) {
    forall t | t in s.tasks :: SizeOk(s.tasks[t].pc, s.tasks[t].size)
  }

  lemma StepTaskSize(pc: Pc, size: nat, locks: Locks, layers: Layers, call: NativeCall, around: Surroundings)
    requires SizeOk(pc, size) && (pc.Recording? ==> !pc.output.Data?)
    ensures SizeOk(NextPc(pc, size, locks, layers, call, around), size)
  {
    hide RequestError, TransportError, TakeTurn;
    if pc.Reading? {
      TurnConserves(call.phase, Min(size, MAX_READ));
    }
  }

  lemma StepSizes(s: State, l: Label)
    requires SizesOk(s) && Enabled(s, l)
    ensures SizesOk(Apply(s, l))
  {
    hide NextPc, NextLocks, NextLayers, NextCall, NextAround;
    match l
    case Step(t) => StepTaskSize(s.tasks[t].pc, s.tasks[t].size, s.locks, s.layers, s.call, s.around);
    case SeeCancel(t) => assert SizeOk(s.tasks[t].pc, s.tasks[t].size);
    case _ =>
  }

  // --------------------------------------------------------------------- log

  /** An error comes without data, and is the body's terminal one unless the body is closed. */
  predicate ErrOk(r: Result, outer: Layer) {
    r.err.Some? ==> r.data == [] && (r.err == outer.terminal || (r.err == Some(ErrBodyClosed) && outer.closed))
  }

  /** After an error only errors, after ErrBodyClosed only that. */
  ghost predicate Sticky(log: seq<Result>) {
    forall i, j | 0 <= i < j < |log| && log[i].err.Some? ::
      log[j].err.Some? && (log[i].err == Some(ErrBodyClosed) ==> log[j].err == Some(ErrBodyClosed))
  }

  ghost predicate NoErrors(log: seq<Result>) {
    forall r | r in log :: r.err.None?
  }

  ghost predicate LogOk(active: Option<Pc>, layers: Layers) {
    && (forall r | r in layers.log :: ErrOk(r, layers.outer))
    && Sticky(layers.log)
    && (active.Some? && Admitted(active.value) ==> NoErrors(layers.log))
    && (active.Some? && Admitted(active.value) && !active.value.Terminating? ==> layers.outer.terminal == None)
    && (active.Some? && active.value.Terminating? ==>
          active.value.result.err == layers.outer.terminal && active.value.result.err.Some? && active.value.result.data == [])
    && (active.Some? && active.value.Back? && active.value.result.err.Some? ==> active.value.result.data == [])
  }

  lemma LogGrows(log: seq<Result>, outer: Layer, r: Result)
    requires (forall x | x in log :: ErrOk(x, outer)) && Sticky(log) && ErrOk(r, outer)
    requires NoErrors(log) || (r.err.Some? && (outer.closed ==> r.err == Some(ErrBodyClosed)))
    ensures (forall x | x in log + [r] :: ErrOk(x, outer)) && Sticky(log + [r])
  {
    forall i | 0 <= i < |log| && log[i].err.Some?
      ensures r.err.Some? && (log[i].err == Some(ErrBodyClosed) ==> r.err == Some(ErrBodyClosed))
    {
      assert log[i] in log && ErrOk(log[i], outer);
    }
  }

  lemma StepTaskLog(active: Option<Pc>, t: TaskId, pc: Pc, size: nat, locks: Locks, layers: Layers, call: NativeCall, around: Surroundings)
    requires Acts(active, t, pc, locks) && LogOk(active, layers)
    ensures var pc' := NextPc(pc, size, locks, layers, call, around);
            LogOk(Moved(active, pc, pc'), NextLayers(pc, pc', layers))
  {
    hide RequestError, TransportError, TakeTurn, Min, Sticky;
    var pc' := NextPc(pc, size, locks, layers, call, around);
    if pc'.Returned? {
      LogGrows(layers.log, layers.outer, pc'.result);
    }
  }

  lemma StepLog(s: State, l: Label)
    requires LocksOk(s.tasks, s.locks) && LogOk(Active(s.tasks, s.locks), s.layers) && Enabled(s, l)
    ensures LogOk(Active(Apply(s, l).tasks, Apply(s, l).locks), Apply(s, l).layers)
  {
    hide NextPc, NextLocks, NextLayers, NextCall, NextAround, LocksOk, Sticky;
    match l
    case Step(t) =>
      ActiveAfterStep(s, t);
      StepTaskLog(Active(s.tasks, s.locks), t, s.tasks[t].pc, s.tasks[t].size, s.locks, s.layers, s.call, s.around);
    case _ => ActiveAfterOther(s, l);
  }

  // ------------------------------------------------------------- end of file

  /** The caller's context has ended with a cause that is itself `io.EOF`. */
  predicate CauseIsEof(around: Surroundings) {
    around.request.ended && around.request.cause == EOF
  }

  /** The inner error the active reader carries, if it carries one. */
  function Carried(active: Option<Pc>): Option<GoError> {
    match active
    case Some(Got(output)) => if output.Eof? then Some(EOF) else None
    case Some(Recording(output)) => if output.Eof? then Some(EOF) else None
    case Some(Stored(err)) => Some(err)
    case Some(Back(result)) => result.err
    case _ => None
  }

  /** The active reader has learned how the stream ended and not stored it yet. */
  predicate Knows(active: Option<Pc>) {
    active.Some? && ((active.value.Got? && !active.value.output.Data?) || active.value.Recording?)
  }

  /** Within the inner layer, end of file means that the stream has ended with None. */
  predicate EofOk(active: Option<Pc>, layers: Layers, call: NativeCall, around: Surroundings) {
    && around.operation.cause != EOF
    && (layers.inner.terminal == Some(EOF) ==> call.endedCleanly)
    && (Carried(active) == Some(EOF) ==> call.endedCleanly)
    && (active.Some? && (active.value.Calling? || active.value.Reading?) ==> call.phase.Streaming?)
    && (!call.phase.Streaming? ==> layers.inner.terminal.Some? || Knows(active))
    && (layers.outer.terminal == Some(EOF) ==> call.endedCleanly || CauseIsEof(around))
  }

  lemma TurnEof(size: nat, layers: Layers, call: NativeCall, around: Surroundings)
    requires EofOk(Some(Reading), layers, call, around)
    ensures EofOk(Some(AfterTurn(call, size)), layers, NextCall(Reading, size, call), around)
  {
    hide Min;
  }

  lemma StepTaskEof(active: Option<Pc>, t: TaskId, pc: Pc, size: nat, locks: Locks, layers: Layers, call: NativeCall, around: Surroundings)
    requires Acts(active, t, pc, locks) && EofOk(active, layers, call, around)
    ensures var pc' := NextPc(pc, size, locks, layers, call, around);
            EofOk(Moved(active, pc, pc'), NextLayers(pc, pc', layers), NextCall(pc, size, call), NextAround(pc, around))
  {
    hide Min, Owns, TakeTurn;
    if pc.Reading? {
      TurnEof(size, layers, call, around);
    }
  }

  lemma StepEof(s: State, l: Label)
    requires LocksOk(s.tasks, s.locks) && EofOk(Active(s.tasks, s.locks), s.layers, s.call, s.around) && Enabled(s, l)
    ensures var s' := Apply(s, l); EofOk(Active(s'.tasks, s'.locks), s'.layers, s'.call, s'.around)
  {
    hide NextPc, NextLocks, NextLayers, NextCall, NextAround, LocksOk;
    match l
    case Step(t) =>
      ActiveAfterStep(s, t);
      StepTaskEof(Active(s.tasks, s.locks), t, s.tasks[t].pc, s.tasks[t].size, s.locks, s.layers, s.call, s.around);
    case _ => ActiveAfterOther(s, l);
  }

  // ------------------------------------------------------------------- bytes

  function Delivered(log: seq<Result>): seq<byte> {
    if log == [] then [] else Delivered(log[..|log| - 1]) + log[|log| - 1].data
  }

  lemma DeliveredSnoc(log: seq<Result>, r: Result)
    ensures Delivered(log + [r]) == Delivered(log) + r.data
  {
    assert (log + [r])[..|log|] == log;
  }

  /** The data the active reader carries from the native call to its caller. */
  function InFlight(active: Option<Pc>): seq<byte> {
    match active
    case Some(Got(Data(data))) => data
    case Some(Back(result)) => result.data
    case Some(Terminating(result)) => result.data
    case _ => []
  }

  /** The bytes of the original stream are delivered, on their way, or still to come. */
  ghost predicate BytesOk(active: Option<Pc>, log: seq<Result>, call: NativeCall, stream: seq<Item>) {
    && Delivered(log) + InFlight(active) + Remaining(call.phase) == StreamBytes(stream)
    && !call.phase.Ready?
    && (call.phase.Streaming? ==> Ending(call.phase) == StreamEnd(stream))
    && (call.endedCleanly ==> StreamEnd(stream) == Eof && call.phase == Phase.Done)
  }

  lemma Regroup<T>(d: seq<T>, data: seq<T>, rest: seq<T>)
    ensures d + [] + (data + rest) == d + data + rest
    ensures d + data + [] + rest == d + data + rest
  {
  }

  lemma TurnBytes(size: nat, log: seq<Result>, call: NativeCall, stream: seq<Item>)
    requires 0 < size && BytesOk(Some(Reading), log, call, stream) && call.phase.Streaming?
    ensures BytesOk(Some(AfterTurn(call, size)), log, NextCall(Reading, size, call), stream)
  {
    hide Delivered, StreamBytes, StreamEnd, Remaining, Ending;
    TurnConserves(call.phase, Min(size, MAX_READ));
    var call' := NextCall(Reading, size, call);
    var pc' := AfterTurn(call, size);
    if pc'.Got? && pc'.output.Data? {
      Regroup(Delivered(log), pc'.output.data, Remaining(call'.phase));
    }
  }

  lemma ReturnBytes(log: seq<Result>, result: Result, call: NativeCall, stream: seq<Item>)
    requires BytesOk(Some(Back(result)), log, call, stream)
    ensures BytesOk(None, log + [result], call, stream)
  {
    hide Delivered, StreamBytes, StreamEnd, Remaining, Ending;
    DeliveredSnoc(log, result);
    Regroup(Delivered(log), result.data, Remaining(call.phase));
  }

  /** Nothing else changes what is in flight or still to come: what was read is what is copied and handed on. */
  lemma CarryBytes(active: Option<Pc>, t: TaskId, pc: Pc, size: nat, locks: Locks, layers: Layers, call: NativeCall, around: Surroundings)
    requires Acts(active, t, pc, locks) && SizeOk(pc, size) && !pc.Reading?
    ensures var pc' := NextPc(pc, size, locks, layers, call, around);
            && NextCall(pc, size, call).phase == call.phase && NextCall(pc, size, call).endedCleanly == call.endedCleanly
            && (if pc'.Returned? then
                  && NextLayers(pc, pc', layers).log == layers.log + [pc'.result] && HoldsLock(pc)
                  && (if active.value.Locked? then pc'.result.data == [] else pc'.result.data == InFlight(active))
                else
                  NextLayers(pc, pc', layers).log == layers.log && InFlight(Moved(active, pc, pc')) == InFlight(active))
  {
    hide RequestError, TransportError, TakeTurn;
  }

  lemma ReadsSomething(pc: Pc, size: nat)
    requires SizeOk(pc, size) && pc.Reading?
    ensures 0 < size
  {
  }

  lemma StepTaskBytes(active: Option<Pc>, t: TaskId, pc: Pc, size: nat, locks: Locks, layers: Layers, call: NativeCall, around: Surroundings, stream: seq<Item>)
    requires Acts(active, t, pc, locks) && SizeOk(pc, size) && BytesOk(active, layers.log, call, stream)
    requires pc.Reading? ==> call.phase.Streaming?
    ensures var pc' := NextPc(pc, size, locks, layers, call, around);
            BytesOk(Moved(active, pc, pc'), NextLayers(pc, pc', layers).log, NextCall(pc, size, call), stream)
  {
    hide Delivered, StreamBytes, StreamEnd, Remaining, Ending, TakeTurn, RequestError, TransportError, SizeOk, Owns;
    if pc.Reading? {
      assert 0 < size by {
        ReadsSomething(pc, size);
      }
      TurnBytes(size, layers.log, call, stream);
    } else {
      CarryBytes(active, t, pc, size, locks, layers, call, around);
      var pc' := NextPc(pc, size, locks, layers, call, around);
      if pc'.Returned? {
        ReturnBytes(layers.log, pc'.result, call, stream);
      }
    }
  }

  ghost predicate Valid(s: State, stream: seq<Item>) {
    && LocksOk(s.tasks, s.locks)
    && CloseOk(s)
    && SizesOk(s)
    && LogOk(Active(s.tasks, s.locks), s.layers)
    && EofOk(Active(s.tasks, s.locks), s.layers, s.call, s.around)
    && BytesOk(Active(s.tasks, s.locks), s.layers.log, s.call, stream)
  }

  lemma StepBytes(s: State, stream: seq<Item>, l: Label)
    requires Valid(s, stream) && Enabled(s, l)
    ensures BytesOk(Active(Apply(s, l).tasks, Apply(s, l).locks), Apply(s, l).layers.log, Apply(s, l).call, stream)
  {
    hide NextPc, NextLocks, NextLayers, NextCall, NextAround, LocksOk, LogOk, CloseOk, Delivered, StreamBytes, StreamEnd, Remaining, Ending;
    match l
    case Step(t) =>
      ActiveAfterStep(s, t);
      StepTaskBytes(Active(s.tasks, s.locks), t, s.tasks[t].pc, s.tasks[t].size, s.locks, s.layers, s.call, s.around, stream);
    case _ => ActiveAfterOther(s, l);
  }

  // ------------------------------------------------------------- the whole state

  lemma StepValid(s: State, stream: seq<Item>, l: Label)
    requires Valid(s, stream) && Enabled(s, l)
    ensures Valid(Apply(s, l), stream)
  {
    hide LocksOk, CloseOk, SizesOk, LogOk, EofOk, BytesOk, Apply, Enabled;
    StepLocks(s, l);
    StepClose(s, l);
    StepSizes(s, l);
    StepLog(s, l);
    StepEof(s, l);
    StepBytes(s, stream, l);
  }

  lemma {:induction false} AlwaysValid(s: State, stream: seq<Item>, ls: seq<Label>)
    requires Valid(s, stream) && Runs(s, ls)
    ensures Valid(After(s, ls), stream)
    decreases |ls|
  {
    hide Valid, Apply;
    if ls != [] {
      StepValid(s, stream, ls[0]);
      AlwaysValid(Apply(s, ls[0]), stream, ls[1..]);
    }
  }

  lemma InitValid(stream: seq<Item>, requestCause: GoError, operationCause: GoError)
    requires operationCause != EOF
    ensures Valid(Init(stream, requestCause, operationCause), stream)
  {
    hide StreamBytes, StreamEnd;
    assert [] + [] + ([] + StreamBytes(stream)) == StreamBytes(stream);
  }

  lemma ReachedValid(stream: seq<Item>, requestCause: GoError, operationCause: GoError, ls: seq<Label>)
    requires operationCause != EOF && Runs(Init(stream, requestCause, operationCause), ls)
    ensures Valid(After(Init(stream, requestCause, operationCause), ls), stream)
  {
    InitValid(stream, requestCause, operationCause);
    AlwaysValid(Init(stream, requestCause, operationCause), stream, ls);
  }

  // -------------------------------------------------------------------- results

  /** The stream has really ended with None and every byte of it has been delivered, in order. */
  ghost predicate Whole(s: State, stream: seq<Item>) {
    StreamEnd(stream) == Eof && Delivered(s.layers.log) == StreamBytes(stream)
  }

  lemma EofInLog(active: Option<Pc>, s: State, stream: seq<Item>)
    requires LogOk(active, s.layers) && EofOk(active, s.layers, s.call, s.around) && BytesOk(active, s.layers.log, s.call, stream)
    requires Failed(EOF) in s.layers.log
    ensures CauseIsEof(s.around) || Whole(s, stream)
  {
    hide Delivered, StreamBytes, StreamEnd, Sticky;
    assert ErrOk(Failed(EOF), s.layers.outer);
    if !CauseIsEof(s.around) {
      assert InFlight(active) == [] && Remaining(s.call.phase) == [];
      assert Delivered(s.layers.log) + [] + [] == Delivered(s.layers.log);
    }
  }

  /**
    Over every run of any number of reads and closes, with contexts, client and
    transport ending at any time: if a read has returned `io.EOF`, the body is whole,
    or the caller ended its own context with `io.EOF` as the cause.
   */
  lemma EofMeansCleanEnd(stream: seq<Item>, requestCause: GoError, operationCause: GoError, ls: seq<Label>)
    requires operationCause != EOF && Runs(Init(stream, requestCause, operationCause), ls)
    requires Failed(EOF) in After(Init(stream, requestCause, operationCause), ls).layers.log
    ensures var s := After(Init(stream, requestCause, operationCause), ls);
            CauseIsEof(s.around) || Whole(s, stream)
  {
    ReachedValid(stream, requestCause, operationCause, ls);
    var s := After(Init(stream, requestCause, operationCause), ls);
    EofInLog(Active(s.tasks, s.locks), s, stream);
  }

  /** When one mapping turns an error into `io.EOF`. */
  lemma WhenMappedToEof(around: Surroundings, err: GoError)
    requires around.operation.cause != EOF
    ensures TransportError(around, err) == EOF
       <==> CauseIsEof(around)
            || (err == EOF && !around.request.ended && !around.lifetimeEnded && !around.operation.ended)
  {
  }

  /**
    Byte conservation through both layers: what reads have returned, what the active
    read carries, and what the native call still holds is the original stream.
   */
  lemma BytesConserved(stream: seq<Item>, requestCause: GoError, operationCause: GoError, ls: seq<Label>)
    requires operationCause != EOF && Runs(Init(stream, requestCause, operationCause), ls)
    ensures var s := After(Init(stream, requestCause, operationCause), ls);
            Delivered(s.layers.log) + InFlight(Active(s.tasks, s.locks)) + Remaining(s.call.phase) == StreamBytes(stream)
  {
    ReachedValid(stream, requestCause, operationCause, ls);
  }

  /**
    What one read returns: an error and no bytes, nothing for an empty buffer, and
    otherwise at least one byte and no more than the buffer or 64 KiB holds.
   */
  lemma ReadFills(stream: seq<Item>, requestCause: GoError, operationCause: GoError, ls: seq<Label>, t: TaskId)
    requires operationCause != EOF && Runs(Init(stream, requestCause, operationCause), ls)
    requires var s := After(Init(stream, requestCause, operationCause), ls); t in s.tasks && s.tasks[t].pc.Returned?
    ensures var task := After(Init(stream, requestCause, operationCause), ls).tasks[t];
            if task.pc.result.err.Some? || task.size == 0 then task.pc.result.data == []
            else 1 <= |task.pc.result.data| <= Min(task.size, 65536)
  {
    ReachedValid(stream, requestCause, operationCause, ls);
    var s := After(Init(stream, requestCause, operationCause), ls);
    assert SizeOk(s.tasks[t].pc, s.tasks[t].size);
  }

  /**
    Results are data followed by one constant terminal error, which can only turn
    into ErrBodyClosed, for good, once the body is closed.
   */
  lemma OneTerminalError(stream: seq<Item>, requestCause: GoError, operationCause: GoError, ls: seq<Label>, i: nat, j: nat)
    requires operationCause != EOF && Runs(Init(stream, requestCause, operationCause), ls)
    requires var log := After(Init(stream, requestCause, operationCause), ls).layers.log;
             i < j < |log| && log[i].err.Some?
    ensures var s := After(Init(stream, requestCause, operationCause), ls);
            var log := s.layers.log;
            && log[j].data == []
            && (log[j].err == log[i].err || (log[j].err == Some(ErrBodyClosed) && s.layers.outer.closed))
            && (log[i].err == Some(ErrBodyClosed) ==> log[j].err == Some(ErrBodyClosed))
  {
    ReachedValid(stream, requestCause, operationCause, ls);
    var s := After(Init(stream, requestCause, operationCause), ls);
    var log := s.layers.log;
    assert ErrOk(log[i], s.layers.outer) && ErrOk(log[j], s.layers.outer) by {
      assert log[i] in log && log[j] in log;
    }
  }

  lemma LateStep(s: State, l: Label, t: TaskId)
    requires Enabled(s, l) && t in s.tasks
    ensures t in Apply(s, l).tasks && Apply(s, l).tasks[t].late == s.tasks[t].late
  {
    hide NextPc, NextLocks, NextLayers, NextCall, NextAround;
  }

  lemma {:induction false} LateStays(s: State, ls: seq<Label>, t: TaskId)
    requires Runs(s, ls) && t in s.tasks
    ensures t in After(s, ls).tasks && After(s, ls).tasks[t].late == s.tasks[t].late
    decreases |ls|
  {
    hide Apply;
    if ls != [] {
      LateStep(s, ls[0], t);
      LateStays(Apply(s, ls[0]), ls[1..], t);
    }
  }

  /** A read that starts after a close has marked the body gets ErrBodyClosed and nothing else. */
  lemma ReadAfterCloseFails(stream: seq<Item>, requestCause: GoError, operationCause: GoError, before: seq<Label>, t: TaskId, size: nat, ls: seq<Label>)
    requires operationCause != EOF && Runs(Init(stream, requestCause, operationCause), before)
    requires var s := After(Init(stream, requestCause, operationCause), before);
             s.layers.outer.closed && Enabled(s, Read(t, size)) && Runs(Apply(s, Read(t, size)), ls)
    ensures var s := After(Apply(After(Init(stream, requestCause, operationCause), before), Read(t, size)), ls);
            && t in s.tasks && !Admitted(s.tasks[t].pc)
            && (s.tasks[t].pc.Returned? ==> s.tasks[t].pc.result == Failed(ErrBodyClosed))
  {
    hide NextPc, NextLocks, NextLayers, NextCall, NextAround;
    ReachedValid(stream, requestCause, operationCause, before);
    var s := After(Init(stream, requestCause, operationCause), before);
    StepValid(s, stream, Read(t, size));
    var s1 := Apply(s, Read(t, size));
    AlwaysValid(s1, stream, ls);
    LateStays(s1, ls, t);
    assert CloseTask(After(s1, ls).tasks[t], After(s1, ls).layers.outer.closed);
  }
}
