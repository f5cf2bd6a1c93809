/** For which streams and callers a body can end in `io.EOF` without being whole: an exact condition. */
module ResponseBodyEof {
  import opened Bytes
  import opened HttpCall
  import opened HttpErrors
  import opened OnceFunc
  import opened ResponseBody
  import opened ResponseBodyContract

  // ------------------------------------------------------- causes are fixed

  lemma StepCause(s: State, l: Label)
    requires Enabled(s, l)
    ensures Apply(s, l).around.request.cause == s.around.request.cause
    ensures Apply(s, l).around.operation.cause == s.around.operation.cause
  {
    hide NextPc, NextLocks, NextLayers, NextCall;
  }

  lemma {:induction false} CauseKept(s: State, ls: seq<Label>)
    requires Runs(s, ls)
    ensures After(s, ls).around.request.cause == s.around.request.cause
    ensures After(s, ls).around.operation.cause == s.around.operation.cause
    decreases |ls|
  {
    hide Apply;
    if ls != [] {
      StepCause(s, ls[0]);
      CauseKept(Apply(s, ls[0]), ls[1..]);
    }
  }

  // ------------------------------------------- a read that ends in io.EOF anyway

  const HELD: Locks := FREE.(readMu := Some(0))

  /** One read, with a one-byte buffer, and nothing else. */
  function Alone(pc: Pc, locks: Locks, layers: Layers, call: NativeCall, around: Surroundings): State {
    State(map[0 := Task(pc, 1, false)], locks, layers, call, around)
  }

  /** The request has left the registry with its client, and the caller's context has ended. */
  function Abandoned(around: Surroundings): Surroundings {
    around.(clientLive := false, request := around.request.(ended := true))
  }

  lemma Extend(s: State, ls: seq<Label>, l: Label)
    requires Runs(s, ls) && Enabled(After(s, ls), l)
    ensures Runs(s, ls + [l]) && After(s, ls + [l]) == Apply(After(s, ls), l)
  {
    RunsOne(After(s, ls), l);
    RunsConcat(s, ls, [l]);
  }

  lemma Begin(s: State)
    ensures Runs(s, []) && After(s, []) == s
  {
  }

  /** A run that has come to a lone read goes on with its next step. */
  lemma AloneSteps(s: State, ls: seq<Label>, pc: Pc, locks: Locks, layers: Layers, call: NativeCall, around: Surroundings)
    requires Runs(s, ls) && After(s, ls) == Alone(pc, locks, layers, call, around) && CanStep(0, pc, locks)
    ensures Runs(s, ls + [Step(0)])
    ensures var pc' := NextPc(pc, 1, locks, layers, call, around);
            After(s, ls + [Step(0)]) ==
            Alone(pc', NextLocks(0, pc, pc', locks), NextLayers(pc, pc', layers), NextCall(pc, 1, call), NextAround(pc, around))
  {
    hide NextPc, NextLocks, NextLayers, NextCall, NextAround;
    Extend(s, ls, Step(0));
    assert map[0 := Task(pc, 1, false)][0 := Task(pc, 1, false)] == map[0 := Task(pc, 1, false)];
  }

  /** From the first lock to the door of the native read. */
  lemma EnterRead(call: NativeCall, around: Surroundings) returns (ls: seq<Label>)
    ensures Runs(Alone(Entered, FREE, OPEN, call, around), ls)
    ensures After(Alone(Entered, FREE, OPEN, call, around), ls) == Alone(Calling, HELD, OPEN, call, around)
  {
    hide Runs, After, Apply, Enabled, TransportError;
    var s := Alone(Entered, FREE, OPEN, call, around);
    Begin(s);
    ls := [];
    AloneSteps(s, ls, Entered, FREE, OPEN, call, around); ls := ls + [Step(0)];
    AloneSteps(s, ls, Locked, HELD, OPEN, call, around); ls := ls + [Step(0)];
    AloneSteps(s, ls, Inner, HELD, OPEN, call, around); ls := ls + [Step(0)];
    AloneSteps(s, ls, Peeking, HELD.(mu := Some(0)), OPEN, call, around); ls := ls + [Step(0)];
  }

  /** The client is closed, the read does not find its request, and the caller's context ends. */
  lemma LoseRequest(call: NativeCall, around: Surroundings) returns (ls: seq<Label>)
    ensures var gone := call.(registered := false, cancelled := true);
            && Runs(Alone(Calling, HELD, OPEN, call, around), ls)
            && After(Alone(Calling, HELD, OPEN, call, around), ls)
               == Alone(Got(Error(Kind.Closed)), HELD, OPEN, gone, Abandoned(around))
  {
    var s := Alone(Calling, HELD, OPEN, call, around);
    var gone := call.(registered := false, cancelled := true);
    ls := [];
    Extend(s, ls, Happen(CloseClient)); ls := ls + [Happen(CloseClient)];
    AloneSteps(s, ls, Calling, HELD, OPEN, gone, around.(clientLive := false)); ls := ls + [Step(0)];
    Extend(s, ls, Happen(EndRequest)); ls := ls + [Happen(EndRequest)];
  }

  /** The error is recorded, and mapped to the cause. */
  lemma MapToCause(call: NativeCall, around: Surroundings) returns (ls: seq<Label>)
    requires around.request == Context(true, EOF) && !around.operation.ended && !around.clientLive
    ensures var s := Alone(Got(Error(Kind.Closed)), HELD, OPEN, call, around);
            && Runs(s, ls)
            && After(s, ls) == Alone(Terminating(Failed(EOF)), HELD, OPEN.(outer := Layer(false, Some(EOF)),
                                       inner := Layer(false, Some(ErrClientClosed))), CloseRequest(call), around)
  {
    hide Runs, After, Apply, Enabled;
    var s := Alone(Got(Error(Kind.Closed)), HELD, OPEN, call, around);
    var stored := OPEN.(inner := Layer(false, Some(ErrClientClosed)));
    Begin(s);
    ls := [];
    AloneSteps(s, ls, Got(Error(Kind.Closed)), HELD, OPEN, call, around); ls := ls + [Step(0)];
    AloneSteps(s, ls, Recording(Error(Kind.Closed)), HELD.(mu := Some(0)), OPEN, call, around); ls := ls + [Step(0)];
    AloneSteps(s, ls, Stored(ErrClientClosed), HELD, stored, call, around); ls := ls + [Step(0)];
    AloneSteps(s, ls, Back(Failed(ErrClientClosed)), HELD, stored, CloseRequest(call), around); ls := ls + [Step(0)];
  }

  const FINISHING: Locks := HELD.(finish := Gate(Running(0), 1, 0))

  /** The finisher is entered by the holder of `readMu`, and left with the lock. */
  lemma FinishLocks(t: TaskId, pc: Pc, pc': Pc, locks: Locks)
    requires pc.Terminating? && pc'.Returned? && locks.readMu == Some(t)
    ensures locks.finish.once.Fresh? ==>
              NextLocks(t, pc, pc, locks)
              == locks.(finish := Gate(Running(t), locks.finish.started + 1, locks.finish.finished))
    ensures locks.finish.once == Running(t) ==>
              NextLocks(t, pc, pc', locks)
              == locks.(readMu := None, finish := Gate(Once.Done, locks.finish.started, locks.finish.finished + 1))
  {
  }

  /** The finisher is entered. */
  lemma FinishEntered(layers: Layers, call: NativeCall, around: Surroundings)
    ensures var pc := Terminating(Failed(EOF));
            && NextPc(pc, 1, HELD, layers, call, around) == pc
            && NextLayers(pc, pc, layers) == layers && NextCall(pc, 1, call) == call
  {
  }

  /** The finisher is left, and the read returns. */
  lemma FinishLeft(layers: Layers, call: NativeCall, around: Surroundings)
    ensures var pc := Terminating(Failed(EOF));
            && NextPc(pc, 1, FINISHING, layers, call, around) == Returned(Failed(EOF))
            && NextLayers(pc, Returned(Failed(EOF)), layers).log == layers.log + [Failed(EOF)]
  {
  }

  lemma ReturnCause(layers: Layers, call: NativeCall, around: Surroundings) returns (ls: seq<Label>)
    requires layers.log == []
    ensures var s := Alone(Terminating(Failed(EOF)), HELD, layers, call, around);
            Runs(s, ls) && After(s, ls).layers.log == [Failed(EOF)]
  {
    hide Runs, After, Apply, Enabled, NextPc, NextLocks, NextLayers, NextCall, NextAround;
    var pc := Terminating(Failed(EOF));
    var s := Alone(pc, HELD, layers, call, around);
    var around1 := NextAround(pc, around);
    FinishLocks(0, pc, Returned(Failed(EOF)), HELD);
    FinishLocks(0, pc, Returned(Failed(EOF)), FINISHING);
    FinishEntered(layers, call, around);
    FinishLeft(layers, call, around1);
    assert layers.log + [Failed(EOF)] == [Failed(EOF)];
    Begin(s);
    ls := [];
    AloneSteps(s, ls, pc, HELD, layers, call, around); ls := ls + [Step(0)];
    AloneSteps(s, ls, pc, FINISHING, layers, call, around1); ls := ls + [Step(0)];
  }

  /**
    Whatever the response is: if the caller ends its context with `io.EOF` as the
    cause, the first read can return `io.EOF` and not a byte be delivered.
   */
  lemma CauseEndsAnyStream(stream: seq<Item>, operationCause: GoError) returns (ls: seq<Label>)
    ensures Runs(Init(stream, EOF, operationCause), ls)
    ensures After(Init(stream, EOF, operationCause), ls).layers.log == [Failed(EOF)]
  {
    var s := Init(stream, EOF, operationCause);
    var call, around := s.call, s.around;
    var gone := call.(registered := false, cancelled := true);
    var s1 := Alone(Entered, FREE, OPEN, call, around);
    RunsOne(s, Read(0, 1));
    assert Apply(s, Read(0, 1)) == s1 by {
      assert map[][0 := Task(Entered, 1, false)] == map[0 := Task(Entered, 1, false)];
    }
    var enter := EnterRead(call, around);
    RunsConcat(s, [Read(0, 1)], enter);
    ls := [Read(0, 1)] + enter;
    var lose := LoseRequest(call, around);
    RunsConcat(s, ls, lose);
    ls := ls + lose;
    var fail := MapToCause(gone, Abandoned(around));
    RunsConcat(s, ls, fail);
    ls := ls + fail;
    var last := ReturnCause(After(s, ls).layers, CloseRequest(gone), Abandoned(around));
    RunsConcat(s, ls, last);
    ls := ls + last;
  }

  // ---------------------------------------------------------------- exactly when

  /** A run in which a read returns `io.EOF` for a body that is not whole. */
  ghost predicate FalseEnd(stream: seq<Item>, requestCause: GoError, operationCause: GoError, ls: seq<Label>) {
    && Runs(Init(stream, requestCause, operationCause), ls)
    && Failed(EOF) in After(Init(stream, requestCause, operationCause), ls).layers.log
    && !Whole(After(Init(stream, requestCause, operationCause), ls), stream)
  }

  /**
    A read can return `io.EOF` for a body that is not whole if and only if the
    caller's context carries `io.EOF` as its cause and the response is not one that
    is empty and ends cleanly, for which there is nothing to miss.
   */
  lemma FalseEndExactly(stream: seq<Item>, requestCause: GoError, operationCause: GoError)
    requires operationCause != EOF
    ensures (exists ls :: FalseEnd(stream, requestCause, operationCause, ls))
       <==> requestCause == EOF && (StreamEnd(stream) != Eof || StreamBytes(stream) != [])
  {
    if ls :| FalseEnd(stream, requestCause, operationCause, ls) {
      EofMeansCleanEnd(stream, requestCause, operationCause, ls);
      CauseKept(Init(stream, requestCause, operationCause), ls);
      if StreamEnd(stream) == Eof && StreamBytes(stream) == [] {
        BytesConserved(stream, requestCause, operationCause, ls);
      }
    }
    if requestCause == EOF && (StreamEnd(stream) != Eof || StreamBytes(stream) != []) {
      var ls := CauseEndsAnyStream(stream, operationCause);
      assert Delivered([Failed(EOF)]) == [] by {
        DeliveredSnoc([], Failed(EOF));
        assert [] + [Failed(EOF)] == [Failed(EOF)];
      }
      assert FalseEnd(stream, requestCause, operationCause, ls);
    }
  }
}
