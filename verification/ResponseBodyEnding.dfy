/** How reads end: what interrupts a blocked one, which error its caller gets, and what is released by then. */
module ResponseBodyEnding {
  import opened Bytes
  import opened HttpCall
  import opened HttpErrors
  import opened OnceFunc
  import opened ResponseBody
  import opened ResponseBodyLocks
  import opened ResponseBodyContract
  import opened ResponseBodyEof

  // ------------------------------------------------- the error a caller gets

  /** What ends a body besides the stream, in the order in which it is reported. */
  function Ended(closed: bool, around: Surroundings): Option<GoError> {
    if closed then Some(ErrBodyClosed)
    else if around.request.ended then Some(around.request.cause)
    else if around.lifetimeEnded then Some(ErrTransportClosed)
    else if around.operation.ended then Some(around.operation.cause)
    else if !around.clientLive then Some(ErrClientClosed)
    else None
  }

  /** What the caller of a read gets when the native read has come back with `output`. */
  function Reported(output: Output, closed: bool, around: Surroundings): GoError
    requires !output.Data?
  {
    if Ended(closed, around).Some? then Ended(closed, around).value
    else if output.Eof? then EOF
    else Native(output.kind)
  }

  /** On its way to the caller the error of a read is either still inside or already the final one. */
  predicate Reports(pc: Pc, err: GoError, layers: Layers, around: Surroundings) {
    match pc
    case Got(output) => !output.Data? && err == Reported(output, layers.outer.closed, around)
    case Recording(output) => !output.Data? && err == Reported(output, layers.outer.closed, around)
    case Stored(inner) => err == Mapped(inner, layers.outer, around)
    case Back(result) => result.data == [] && result.err.Some? && err == Mapped(result.err.value, layers.outer, around)
    case Terminating(result) => result == Failed(err)
    case Returned(result) => result == Failed(err)
    case _ => false
  }

  lemma StepReports(pc: Pc, err: GoError, size: nat, locks: Locks, layers: Layers, call: NativeCall, around: Surroundings)
    requires Reports(pc, err, layers, around) && !pc.Returned? && (layers.inner.closed ==> layers.outer.closed)
    ensures Reports(NextPc(pc, size, locks, layers, call, around), err, layers, around)
    ensures NextLayers(pc, NextPc(pc, size, locks, layers, call, around), layers).outer.closed == layers.outer.closed
    ensures !pc.Terminating? ==> NextAround(pc, around) == around
  {
    hide TakeTurn, Min;
  }

  /** The outer flag and the surroundings decide alone how an error on its way is reported. */
  lemma SameReports(pc: Pc, err: GoError, layers: Layers, layers': Layers, around: Surroundings)
    requires Reports(pc, err, layers, around) && layers'.outer.closed == layers.outer.closed
    ensures Reports(pc, err, layers', around)
  {
  }

  lemma FinalReports(pc: Pc, err: GoError, layers: Layers, layers': Layers, around: Surroundings, around': Surroundings)
    requires Reports(pc, err, layers, around) && (pc.Terminating? || pc.Returned?)
    ensures Reports(pc, err, layers', around')
  {
  }

  /** The environment leaves the contexts and the client alone. */
  predicate Quiet(ls: seq<Label>) {
    forall l | l in ls :: l.Happen? ==> l.event == AfterOperation
  }

  /** A read on its way back with an error, in a state that keeps its locks. */
  ghost predicate OnTheWay(s: State, u: TaskId, err: GoError) {
    && LocksOk(s.tasks, s.locks) && CloseOk(s)
    && u in s.tasks && Reports(s.tasks[u].pc, err, s.layers, s.around)
  }

  lemma NotReading(s: State, t: TaskId, u: TaskId, err: GoError)
    requires u in s.tasks && Reports(s.tasks[u].pc, err, s.layers, s.around) && t in s.tasks && s.tasks[t].pc.Reading?
    ensures t != u
  {
  }

  predicate NextAroundSame(pc: Pc, around: Surroundings) {
    NextAround(pc, around) == around
  }

  lemma InnerImpliesOuter(s: State)
    requires CloseOk(s)
    ensures s.layers.inner.closed ==> s.layers.outer.closed
  {
  }

  lemma StaysFinal(pc: Pc, size: nat, locks: Locks, layers: Layers, call: NativeCall, around: Surroundings)
    requires pc.Terminating?
    ensures var pc' := NextPc(pc, size, locks, layers, call, around); pc'.Terminating? || pc'.Returned?
  {
  }

  /** While a read is on its way, the finisher is run by nobody but a close. */
  lemma OnlyOneEnds(s: State, t: TaskId, u: TaskId, err: GoError)
    requires OnTheWay(s, u, err) && t in s.tasks && t != u && !s.tasks[u].pc.Returned?
    ensures CallsFinish(s.tasks[t].pc) ==> s.layers.outer.closed
  {
    assert Owns(u, s.tasks[u].pc, s.locks) && Owns(t, s.tasks[t].pc, s.locks);
    assert CloseTask(s.tasks[t], s.layers.outer.closed);
  }

  /** Once the body is closed the surroundings play no part. */
  lemma ClosedReports(pc: Pc, err: GoError, layers: Layers, layers': Layers, around: Surroundings, around': Surroundings)
    requires Reports(pc, err, layers, around) && layers.outer.closed && layers'.outer.closed
    ensures Reports(pc, err, layers', around')
  {
  }

  lemma OtherSteps(s: State, t: TaskId, u: TaskId, err: GoError)
    requires OnTheWay(s, u, err) && Enabled(s, Step(t))
    requires Stepped(s, t).layers.outer.closed == s.layers.outer.closed
    ensures Reports(Stepped(s, t).tasks[u].pc, err, Stepped(s, t).layers, Stepped(s, t).around)
  {
    hide NextPc, NextLocks, NextLayers, NextCall, LocksOk, CloseOk, Reports;
    var s', pc := Stepped(s, t), s.tasks[t].pc;
    if s.tasks[u].pc.Terminating? || s.tasks[u].pc.Returned? {
      if t == u {
        InnerImpliesOuter(s);
        StepReports(pc, err, s.tasks[t].size, s.locks, s.layers, s.call, s.around);
        StaysFinal(pc, s.tasks[t].size, s.locks, s.layers, s.call, s.around);
        FinalReports(s'.tasks[u].pc, err, s.layers, s'.layers, s.around, s'.around);
      } else {
        FinalReports(s.tasks[u].pc, err, s.layers, s'.layers, s.around, s'.around);
      }
    } else if t == u {
      InnerImpliesOuter(s);
      StepReports(pc, err, s.tasks[t].size, s.locks, s.layers, s.call, s.around);
      SameReports(s'.tasks[u].pc, err, s.layers, s'.layers, s.around);
    } else {
      OnlyOneEnds(s, t, u, err);
      if s.layers.outer.closed && !NextAroundSame(pc, s.around) {
        ClosedReports(s.tasks[u].pc, err, s.layers, s'.layers, s.around, s'.around);
      } else {
        SameReports(s.tasks[u].pc, err, s.layers, s'.layers, s.around);
      }
    }
  }

  lemma OnTheWayStep(s: State, l: Label, u: TaskId, err: GoError)
    requires OnTheWay(s, u, err) && Enabled(s, l) && (l.Happen? ==> l.event == AfterOperation)
    requires Apply(s, l).layers.outer.closed == s.layers.outer.closed
    ensures OnTheWay(Apply(s, l), u, err)
  {
    hide NextPc, NextLocks, NextLayers, NextCall, NextAround, LocksOk, CloseOk, Reports;
    StepLocks(s, l);
    StepClose(s, l);
    match l
    case Step(t) => OtherSteps(s, t, u, err);
    case SeeCancel(t) => NotReading(s, t, u, err);
    case _ =>
      SameReports(s.tasks[u].pc, err, s.layers, Apply(s, l).layers, s.around);
  }

  lemma ClosedStays(s: State, l: Label)
    requires Enabled(s, l)
    ensures s.layers.outer.closed ==> Apply(s, l).layers.outer.closed
  {
    hide NextPc, NextLocks, NextCall, NextAround;
  }

  lemma {:induction false} ClosedKept(s: State, ls: seq<Label>)
    requires Runs(s, ls)
    ensures s.layers.outer.closed ==> After(s, ls).layers.outer.closed
    decreases |ls|
  {
    hide Apply;
    if ls != [] {
      ClosedStays(s, ls[0]);
      ClosedKept(Apply(s, ls[0]), ls[1..]);
    }
  }

  lemma {:induction false} ReportsToTheEnd(s: State, ls: seq<Label>, u: TaskId, err: GoError)
    requires OnTheWay(s, u, err) && Runs(s, ls) && Quiet(ls)
    requires After(s, ls).layers.outer.closed == s.layers.outer.closed
    ensures OnTheWay(After(s, ls), u, err)
    decreases |ls|
  {
    hide OnTheWay, Apply;
    if ls != [] {
      var s' := Apply(s, ls[0]);
      ClosedStays(s, ls[0]);
      ClosedKept(s', ls[1..]);
      assert ls[0] in ls && forall l | l in ls[1..] :: l in ls;
      OnTheWayStep(s, ls[0], u, err);
      ReportsToTheEnd(s', ls[1..], u, err);
    }
  }

  /**
    Which error a read returns, over every run in which nothing more ends on its way:
    ErrBodyClosed for a closed body, then the cause of the caller's context, then
    ErrTransportClosed, then the cause of the operation's context, then
    ErrClientClosed, and only then what the native read has said.
   */
  lemma ReadErrorExplained(stream: seq<Item>, requestCause: GoError, operationCause: GoError, before: seq<Label>, ls: seq<Label>, u: TaskId)
    requires operationCause != EOF && Runs(Init(stream, requestCause, operationCause), before)
    requires var s := After(Init(stream, requestCause, operationCause), before);
             && u in s.tasks && s.tasks[u].pc.Got? && !s.tasks[u].pc.output.Data?
             && Runs(s, ls) && Quiet(ls) && After(s, ls).layers.outer.closed == s.layers.outer.closed
             && u in After(s, ls).tasks && After(s, ls).tasks[u].pc.Returned?
    ensures var s := After(Init(stream, requestCause, operationCause), before);
            After(s, ls).tasks[u].pc.result == Failed(
              if s.layers.outer.closed then ErrBodyClosed
              else if s.around.request.ended then requestCause
              else if s.around.lifetimeEnded then ErrTransportClosed
              else if s.around.operation.ended then operationCause
              else if !s.around.clientLive then ErrClientClosed
              else if s.tasks[u].pc.output.Eof? then EOF
              else Native(s.tasks[u].pc.output.kind))
  {
    ReachedValid(stream, requestCause, operationCause, before);
    CauseKept(Init(stream, requestCause, operationCause), before);
    var s := After(Init(stream, requestCause, operationCause), before);
    ReportsToTheEnd(s, ls, u, Reported(s.tasks[u].pc.output, s.layers.outer.closed, s.around));
  }

  // ------------------------------------------ the same for the native client alone

  /** What `responseBody.Read` gives whoever called it when the native read has come back with `output`. */
  function ClientReported(output: Output, closed: bool, around: Surroundings): GoError
    requires !output.Data?
  {
    if closed then ErrBodyClosed
    else if around.operation.ended then ContextError
    else if !around.clientLive then ErrClientClosed
    else if output.Eof? then EOF
    else Native(output.kind)
  }

  predicate ClientReports(pc: Pc, err: GoError, layers: Layers, around: Surroundings) {
    match pc
    case Got(output) => !output.Data? && err == ClientReported(output, layers.inner.closed, around)
    case Recording(output) => !output.Data? && err == ClientReported(output, layers.inner.closed, around)
    case Stored(inner) => err == inner
    case Back(result) => result == Failed(err)
    case Terminating(_) => true
    case Returned(_) => true
    case _ => false
  }

  /** Nothing ends during the run, and the inner body is not closed in it. */
  predicate Steady(s: State, ls: seq<Label>)
    requires Runs(s, ls)
    decreases |ls|
  {
    ls == [] || (Apply(s, ls[0]).layers.inner.closed == s.layers.inner.closed
                 && Apply(s, ls[0]).around == s.around && Steady(Apply(s, ls[0]), ls[1..]))
  }

  lemma NextClientReports(pc: Pc, err: GoError, size: nat, locks: Locks, layers: Layers, call: NativeCall, around: Surroundings)
    requires ClientReports(pc, err, layers, around)
    ensures ClientReports(NextPc(pc, size, locks, layers, call, around), err, layers, around)
  {
    hide TakeTurn, Min, TransportError;
  }

  lemma StepClientReports(s: State, l: Label, u: TaskId, err: GoError)
    requires Enabled(s, l) && u in s.tasks && ClientReports(s.tasks[u].pc, err, s.layers, s.around)
    requires Apply(s, l).layers.inner.closed == s.layers.inner.closed && Apply(s, l).around == s.around
    ensures u in Apply(s, l).tasks && ClientReports(Apply(s, l).tasks[u].pc, err, Apply(s, l).layers, Apply(s, l).around)
  {
    hide NextPc, NextLocks, NextLayers, NextCall, NextAround, RequestError, TransportError;
    if l == Step(u) {
      var task := s.tasks[u];
      NextClientReports(task.pc, err, task.size, s.locks, s.layers, s.call, s.around);
    }
  }

  lemma {:induction false} ClientReportsToTheEnd(s: State, ls: seq<Label>, u: TaskId, err: GoError)
    requires Runs(s, ls) && Steady(s, ls) && u in s.tasks && ClientReports(s.tasks[u].pc, err, s.layers, s.around)
    ensures u in After(s, ls).tasks && ClientReports(After(s, ls).tasks[u].pc, err, After(s, ls).layers, After(s, ls).around)
    decreases |ls|
  {
    hide Apply, ClientReports;
    if ls != [] {
      StepClientReports(s, ls[0], u, err);
      ClientReportsToTheEnd(Apply(s, ls[0]), ls[1..], u, err);
    }
  }

  /**
    Which error the native client's own read comes back with, in every state and over
    every run: ErrBodyClosed for a closed body, then the error of the operation's
    context, then ErrClientClosed, and only then what the native read has said.
   */
  lemma ClientErrorExplained(s: State, ls: seq<Label>, u: TaskId)
    requires u in s.tasks && s.tasks[u].pc.Got? && !s.tasks[u].pc.output.Data?
    requires Runs(s, ls) && Steady(s, ls) && u in After(s, ls).tasks && After(s, ls).tasks[u].pc.Back?
    ensures After(s, ls).tasks[u].pc.result == Failed(
              if s.layers.inner.closed then ErrBodyClosed
              else if s.around.operation.ended then ContextError
              else if !s.around.clientLive then ErrClientClosed
              else if s.tasks[u].pc.output.Eof? then EOF
              else Native(s.tasks[u].pc.output.kind))
  {
    ClientReportsToTheEnd(s, ls, u, ClientReported(s.tasks[u].pc.output, s.layers.inner.closed, s.around));
  }

  // ------------------------------------------------------ interrupting a read

  /** On the way back with an error. */
  predicate Unwinding(pc: Pc) {
    || ((pc.Got? || pc.Recording?) && !pc.output.Data?) || pc.Stored?
    || ((pc.Back? || pc.Terminating? || pc.Returned?) && pc.result.err.Some?)
  }

  function ReadRank(tasks: map<TaskId, Task>, locks: Locks, u: TaskId): nat
    requires u in tasks
  {
    match tasks[u].pc
    case Got(_) => 7 + MuRank(tasks, locks.mu)
    case Recording(_) => 6
    case Stored(_) => 5
    case Back(_) => 4
    case Terminating(_) => 1 + OnceRank(locks.finish.once)
    case _ => 0
  }

  lemma ReadMoves(s: State, u: TaskId)
    requires LocksOk(s.tasks, s.locks) && u in s.tasks && Unwinding(s.tasks[u].pc) && !s.tasks[u].pc.Returned?
    ensures var b := Blocker(u, s.tasks[u].pc, s.locks);
            && b in s.tasks && !InNativeRead(s.tasks[b].pc) && !s.tasks[b].pc.Marking? && Enabled(s, Step(b))
  {
    var b := Blocker(u, s.tasks[u].pc, s.locks);
    assert Owns(u, s.tasks[u].pc, s.locks);
    assert Owns(b, s.tasks[b].pc, s.locks);
  }

  lemma ReadMovesOn(s: State, u: TaskId)
    requires LocksOk(s.tasks, s.locks) && u in s.tasks && Unwinding(s.tasks[u].pc) && !s.tasks[u].pc.Returned?
    requires var b := Blocker(u, s.tasks[u].pc, s.locks);
             b in s.tasks && Enabled(s, Step(b)) && !s.tasks[b].pc.Marking?
    ensures var s' := Stepped(s, Blocker(u, s.tasks[u].pc, s.locks));
            && u in s'.tasks && Unwinding(s'.tasks[u].pc) && s'.layers.outer.closed == s.layers.outer.closed
            && ReadRank(s'.tasks, s'.locks, u) < ReadRank(s.tasks, s.locks, u)
  {
    var b := Blocker(u, s.tasks[u].pc, s.locks);
    assert Owns(u, s.tasks[u].pc, s.locks) && Owns(b, s.tasks[b].pc, s.locks);
    hide TakeTurn, RequestError, TransportError, Min, NextCall, NextAround;
  }

  lemma AppliesStep(s: State, b: TaskId)
    requires Enabled(s, Step(b))
    ensures Apply(s, Step(b)) == Stepped(s, b)
  {
  }

  lemma {:induction false} Unwind(s: State, u: TaskId) returns (ls: seq<Label>)
    requires LocksOk(s.tasks, s.locks) && u in s.tasks && Unwinding(s.tasks[u].pc)
    ensures Runs(s, ls) && AvoidsNativeRead(s, ls) && Quiet(ls) && |ls| <= ReadRank(s.tasks, s.locks, u)
    ensures u in After(s, ls).tasks && After(s, ls).tasks[u].pc.Returned?
    ensures After(s, ls).layers.outer.closed == s.layers.outer.closed
    decreases ReadRank(s.tasks, s.locks, u)
  {
    hide LocksOk, Apply, Enabled;
    if s.tasks[u].pc.Returned? {
      ls := [];
    } else {
      var b := Blocker(u, s.tasks[u].pc, s.locks);
      ReadMoves(s, u);
      ReadMovesOn(s, u);
      StepLocks(s, Step(b));
      AppliesStep(s, b);
      var rest := Unwind(Apply(s, Step(b)), u);
      ls := [Step(b)] + rest;
      assert ls[1..] == rest;
    }
  }

  lemma Interrupt(s: State, u: TaskId) returns (ls: seq<Label>)
    requires LocksOk(s.tasks, s.locks) && u in s.tasks && Enabled(s, SeeCancel(u))
    ensures var s1 := Apply(s, SeeCancel(u));
            && s1.layers == s.layers && s1.around == s.around
            && u in s1.tasks && s1.tasks[u].pc == Got(Error(Cancelled))
            && Runs(s1, ls) && AvoidsNativeRead(s1, ls) && Quiet(ls) && |ls| <= 9
            && u in After(s1, ls).tasks && After(s1, ls).tasks[u].pc.Returned?
            && After(s1, ls).layers.outer.closed == s1.layers.outer.closed
  {
    StepLocks(s, SeeCancel(u));
    ls := Unwind(Apply(s, SeeCancel(u)), u);
  }

  lemma Appended(s: State, ls: seq<Label>, l: Label)
    requires Runs(s, ls) && Enabled(After(s, ls), l)
    ensures Runs(s, ls + [l]) && After(s, ls + [l]) == Apply(After(s, ls), l)
  {
    RunsOne(After(s, ls), l);
    RunsConcat(s, ls, [l]);
  }

  /** What an interrupted read returns, by the state it was interrupted in. */
  lemma Interrupted(stream: seq<Item>, requestCause: GoError, operationCause: GoError, before: seq<Label>, l: Label, ls: seq<Label>, u: TaskId)
    requires operationCause != EOF && Runs(Init(stream, requestCause, operationCause), before)
    requires var s := After(Init(stream, requestCause, operationCause), before);
             Enabled(s, l) && var s1 := Apply(s, l);
             && u in s1.tasks && s1.tasks[u].pc == Got(Error(Cancelled))
             && Runs(s1, ls) && Quiet(ls) && u in After(s1, ls).tasks && After(s1, ls).tasks[u].pc.Returned?
             && After(s1, ls).layers.outer.closed == s1.layers.outer.closed
    ensures var s1 := Apply(After(Init(stream, requestCause, operationCause), before), l);
            After(s1, ls).tasks[u].pc.result == Failed(
              if s1.layers.outer.closed then ErrBodyClosed
              else if s1.around.request.ended then requestCause
              else if s1.around.lifetimeEnded then ErrTransportClosed
              else if s1.around.operation.ended then operationCause
              else if !s1.around.clientLive then ErrClientClosed
              else Native(Cancelled))
  {
    var s0 := Init(stream, requestCause, operationCause);
    Appended(s0, before, l);
    ReadErrorExplained(stream, requestCause, operationCause, before + [l], ls, u);
  }

  /**
    A close interrupts a blocked read: once any close has returned, a read that is in
    the native code can be brought to its return without one turn of the native read,
    and returns ErrBodyClosed.
   */
  lemma CloseInterruptsRead(stream: seq<Item>, requestCause: GoError, operationCause: GoError, before: seq<Label>, t: TaskId, u: TaskId)
    returns (ls: seq<Label>)
    requires operationCause != EOF && Runs(Init(stream, requestCause, operationCause), before)
    requires var s := After(Init(stream, requestCause, operationCause), before);
             && t in s.tasks && s.tasks[t].pc.Closed? && u in s.tasks && s.tasks[u].pc.Reading?
    ensures var s := After(Init(stream, requestCause, operationCause), before);
            && Enabled(s, SeeCancel(u))
            && var s1 := Apply(s, SeeCancel(u));
               && Runs(s1, ls) && AvoidsNativeRead(s1, ls) && |ls| <= 9
               && u in After(s1, ls).tasks && After(s1, ls).tasks[u].pc == Returned(Failed(ErrBodyClosed))
  {
    CloseReleases(stream, requestCause, operationCause, before, t);
    ReachedValid(stream, requestCause, operationCause, before);
    var s := After(Init(stream, requestCause, operationCause), before);
    InnerImpliesOuter(s);
    ls := Interrupt(s, u);
    Interrupted(stream, requestCause, operationCause, before, SeeCancel(u), ls, u);
  }

  /**
    The end of a context interrupts a blocked read as well: its callback closes the
    request, and then the read can be brought to its return without one turn of the
    native read, with the error that ended it.
   */
  lemma EndInterruptsRead(stream: seq<Item>, requestCause: GoError, operationCause: GoError, before: seq<Label>, u: TaskId)
    returns (ls: seq<Label>)
    requires operationCause != EOF && Runs(Init(stream, requestCause, operationCause), before)
    requires var s := After(Init(stream, requestCause, operationCause), before);
             s.around.operation.ended && u in s.tasks && s.tasks[u].pc.Reading?
    ensures var s := After(Init(stream, requestCause, operationCause), before);
            && Enabled(s, Happen(AfterOperation))
            && var s1 := Apply(s, Happen(AfterOperation));
               && Enabled(s1, SeeCancel(u))
               && var s2 := Apply(s1, SeeCancel(u));
                  && Runs(s2, ls) && AvoidsNativeRead(s2, ls) && |ls| <= 9
                  && u in After(s2, ls).tasks
                  && After(s2, ls).tasks[u].pc == Returned(Failed(
                       if s.layers.outer.closed then ErrBodyClosed
                       else if s.around.request.ended then requestCause
                       else if s.around.lifetimeEnded then ErrTransportClosed
                       else operationCause))
  {
    AlwaysShut(Init(stream, requestCause, operationCause), before);
    var s := After(Init(stream, requestCause, operationCause), before);
    var s1 := Apply(s, Happen(AfterOperation));
    StepLocks(s, Happen(AfterOperation));
    ls := Interrupt(s1, u);
    Appended(Init(stream, requestCause, operationCause), before, Happen(AfterOperation));
    Interrupted(stream, requestCause, operationCause, before + [Happen(AfterOperation)], SeeCancel(u), ls, u);
  }

  // ------------------------------------------------------ what an error releases

  /** The error of a read is recorded before it is reported, and reported before the finisher has run. */
  predicate ReleaseOk(active: Option<Pc>, locks: Locks, layers: Layers, call: NativeCall) {
    && (layers.inner.terminal.Some? ==> !call.registered || (active.Some? && active.value.Stored?))
    && (active.Some? && active.value.Stored? ==> layers.inner.terminal.Some?)
    && (active.Some? && active.value.Back? && active.value.result.err.Some? ==>
          layers.inner.terminal.Some? || (layers.inner.closed && active.value.result.err == Some(ErrBodyClosed)))
    && (layers.outer.terminal.Some? && layers.outer.terminal != Some(ErrBodyClosed) ==>
          layers.inner.terminal.Some? && !(active.Some? && active.value.Stored?))
    && (layers.outer.terminal.Some? ==> locks.finish.once.Done? || (active.Some? && active.value.Terminating?))
  }

  lemma StepTaskRelease(active: Option<Pc>, t: TaskId, pc: Pc, size: nat, locks: Locks, layers: Layers, call: NativeCall, around: Surroundings)
    requires Acts(active, t, pc, locks) && ReleaseOk(active, locks, layers, call) && LogOk(active, layers)
    requires layers.inner.closed ==> layers.outer.closed
    ensures var pc' := NextPc(pc, size, locks, layers, call, around);
            ReleaseOk(Moved(active, pc, pc'), NextLocks(t, pc, pc', locks), NextLayers(pc, pc', layers), NextCall(pc, size, call))
  {
    hide TakeTurn, Min, Owns, Sticky, ErrOk, RequestError, TransportError;
  }

  lemma StepRelease(s: State, stream: seq<Item>, l: Label)
    requires Valid(s, stream) && Enabled(s, l) && ReleaseOk(Active(s.tasks, s.locks), s.locks, s.layers, s.call)
    ensures var s' := Apply(s, l); ReleaseOk(Active(s'.tasks, s'.locks), s'.locks, s'.layers, s'.call)
  {
    hide NextPc, NextLocks, NextLayers, NextCall, NextAround, LocksOk, LogOk, EofOk, BytesOk, SizesOk;
    match l
    case Step(t) =>
      ActiveAfterStep(s, t);
      StepTaskRelease(Active(s.tasks, s.locks), t, s.tasks[t].pc, s.tasks[t].size, s.locks, s.layers, s.call, s.around);
    case _ => ActiveAfterOther(s, l);
  }

  lemma {:induction false} AlwaysRelease(s: State, stream: seq<Item>, ls: seq<Label>)
    requires Valid(s, stream) && Runs(s, ls) && ReleaseOk(Active(s.tasks, s.locks), s.locks, s.layers, s.call)
    ensures var s' := After(s, ls); ReleaseOk(Active(s'.tasks, s'.locks), s'.locks, s'.layers, s'.call)
    decreases |ls|
  {
    hide Valid, Apply, ReleaseOk;
    if ls != [] {
      StepValid(s, stream, ls[0]);
      StepRelease(s, stream, ls[0]);
      AlwaysRelease(Apply(s, ls[0]), stream, ls[1..]);
    }
  }

  lemma ReleasedBy(active: Option<Pc>, s: State, r: Result)
    requires LogOk(active, s.layers) && ReleaseOk(active, s.locks, s.layers, s.call) && GateOk(s.locks.finish, 1)
    requires r in s.layers.log && r.err.Some? && r.err != Some(ErrBodyClosed)
    ensures !s.call.registered && s.locks.finish.once.Done?
  {
    hide Sticky;
    assert ErrOk(r, s.layers.outer);
  }

  /**
    Once a read has returned an error other than ErrBodyClosed, `io.EOF` included,
    everything is released without any close: the native request is closed and
    cancelled, and the finisher has run exactly once and ended the operation's context.
   */
  lemma ErrorReleases(stream: seq<Item>, requestCause: GoError, operationCause: GoError, ls: seq<Label>, r: Result)
    requires operationCause != EOF && Runs(Init(stream, requestCause, operationCause), ls)
    requires r in After(Init(stream, requestCause, operationCause), ls).layers.log
    requires r.err.Some? && r.err != Some(ErrBodyClosed)
    ensures var s := After(Init(stream, requestCause, operationCause), ls);
            && !s.call.registered && s.call.cancelled
            && s.locks.finish.started == 1 && s.locks.finish.finished == 1 && s.around.operation.ended
  {
    InitValid(stream, requestCause, operationCause);
    ReachedValid(stream, requestCause, operationCause, ls);
    AlwaysShut(Init(stream, requestCause, operationCause), ls);
    AlwaysRelease(Init(stream, requestCause, operationCause), stream, ls);
    var s := After(Init(stream, requestCause, operationCause), ls);
    ReleasedBy(Active(s.tasks, s.locks), s, r);
  }
}
