/** The two mutexes and the finisher of a response body, and why a close never waits for a blocked read. */
module ResponseBodyLocks {
  import opened Bytes
  import opened HttpCall
  import opened HttpErrors
  import opened OnceFunc
  import opened ResponseBody

  // ------------------------------------------------------------- the locks

  /** What a task holds is decided by its program counter. */
  predicate Owns(t: TaskId, pc: Pc, locks: Locks) {
    && (HoldsLock(pc) <==> locks.readMu == Some(t))
    && (HoldsMu(pc) <==> locks.mu == Some(t))
    && (locks.finish.once == Running(t) ==> CallsFinish(pc))
    && (pc.Closed? ==> locks.finish.once.Done?)
    && (pc.Recording? ==> !pc.output.Data?)
  }

  ghost predicate LocksOk(tasks: map<TaskId, Task>, locks: Locks) {
    && (forall t | t in tasks :: Owns(t, tasks[t].pc, locks))
    && (locks.readMu.Some? ==> locks.readMu.value in tasks)
    && (locks.mu.Some? ==> locks.mu.value in tasks)
    && (locks.finish.once.Running? ==> locks.finish.once.caller in tasks)
    && GateOk(locks.finish, 1)
  }

  /** A step changes what its own task holds, takes only what is free, and never reopens the finisher. */
  ghost predicate Fair(t: TaskId, locks: Locks, locks': Locks) {
    && (locks'.readMu != locks.readMu ==> locks.readMu in {None, Some(t)} && locks'.readMu in {None, Some(t)})
    && (locks'.mu != locks.mu ==> locks.mu in {None, Some(t)} && locks'.mu in {None, Some(t)})
    && (locks'.finish.once.Running? ==> locks'.finish.once.caller == t || locks'.finish == locks.finish)
    && (locks.finish.once.Done? ==> locks'.finish == locks.finish)
    && GateOk(locks'.finish, 1)
  }

  lemma StepOwns(t: TaskId, pc: Pc, size: nat, locks: Locks, layers: Layers, call: NativeCall, around: Surroundings)
    requires CanStep(t, pc, locks) && Owns(t, pc, locks) && GateOk(locks.finish, 1)
    ensures var pc' := NextPc(pc, size, locks, layers, call, around);
            Owns(t, pc', NextLocks(t, pc, pc', locks)) && Fair(t, locks, NextLocks(t, pc, pc', locks))
  {
    hide TakeTurn, RequestError, TransportError, Min;
  }

  lemma OthersOwn(t: TaskId, u: TaskId, pc: Pc, locks: Locks, locks': Locks)
    requires u != t && Owns(u, pc, locks) && Fair(t, locks, locks')
    ensures Owns(u, pc, locks')
  {
  }

  lemma StepLocks(s: State, l: Label)
    requires LocksOk(s.tasks, s.locks) && Enabled(s, l)
    ensures LocksOk(Apply(s, l).tasks, Apply(s, l).locks)
  {
    hide NextPc, NextLocks, NextLayers, NextCall, NextAround;
    match l
    case Step(t) =>
      var task := s.tasks[t];
      StepOwns(t, task.pc, task.size, s.locks, s.layers, s.call, s.around);
      var s' := Apply(s, l);
      forall u | u in s'.tasks
        ensures Owns(u, s'.tasks[u].pc, s'.locks)
      {
        if u != t {
          OthersOwn(t, u, s.tasks[u].pc, s.locks, s'.locks);
        }
      }
    case SeeCancel(t) => assert Owns(t, s.tasks[t].pc, s.locks);
    case _ =>
  }

  lemma {:induction false} AlwaysLocks(s: State, ls: seq<Label>)
    requires LocksOk(s.tasks, s.locks) && Runs(s, ls)
    ensures LocksOk(After(s, ls).tasks, After(s, ls).locks)
    decreases |ls|
  {
    if ls != [] {
      StepLocks(s, ls[0]);
      AlwaysLocks(Apply(s, ls[0]), ls[1..]);
    }
  }

  // -------------------------------------------------- a close does not wait

  predicate ClosesBody(pc: Pc) {
    pc.Marking? || pc.ClosingInner? || pc.Shutting? || pc.Releasing? || pc.Finishing? || pc.Closed?
  }

  /** In or about to enter the native read, where a read can be blocked for any time. */
  predicate InNativeRead(pc: Pc) {
    pc.Calling? || pc.Reading?
  }

  /** The task a close waits for: the holder of mu, or the one that runs the finisher. */
  function Blocker(t: TaskId, pc: Pc, locks: Locks): TaskId {
    if WantsMu(pc) && locks.mu.Some? then locks.mu.value
    else if CallsFinish(pc) && locks.finish.once.Running? then locks.finish.once.caller
    else t
  }

  /**
    In every reachable state, whoever holds `mu` or runs the finisher is outside the
    native read and can take its next step; so can a close, or whoever it waits for.
   */
  lemma BlockersMove(s: State, t: TaskId)
    requires LocksOk(s.tasks, s.locks) && t in s.tasks
    requires || s.locks.mu == Some(t) || s.locks.finish.once == Running(t)
             || (ClosesBody(s.tasks[t].pc) && !s.tasks[t].pc.Closed?)
    ensures var u := Blocker(t, s.tasks[t].pc, s.locks);
            u in s.tasks && !InNativeRead(s.tasks[u].pc) && Enabled(s, Step(u))
  {
    var u := Blocker(t, s.tasks[t].pc, s.locks);
    assert Owns(t, s.tasks[t].pc, s.locks);
    assert Owns(u, s.tasks[u].pc, s.locks);
  }

  /** How far a holder of mu is from releasing it. */
  function MuRank(tasks: map<TaskId, Task>, mu: Option<TaskId>): nat {
    if mu.None? || mu.value !in tasks then 0
    else if tasks[mu.value].pc.Shutting? then 2 else 1
  }

  function CloseRank(tasks: map<TaskId, Task>, locks: Locks, t: TaskId): nat
    requires t in tasks
  {
    match tasks[t].pc
    case Marking => 9
    case ClosingInner => 6 + MuRank(tasks, locks.mu)
    case Shutting => 5
    case Releasing => 4
    case Finishing => 1 + OnceRank(locks.finish.once)
    case _ => 0
  }

  lemma CloseMoves(s: State, t: TaskId)
    requires LocksOk(s.tasks, s.locks) && t in s.tasks && ClosesBody(s.tasks[t].pc) && !s.tasks[t].pc.Closed?
    requires Enabled(s, Step(Blocker(t, s.tasks[t].pc, s.locks)))
    ensures var u := Blocker(t, s.tasks[t].pc, s.locks);
            var s' := Stepped(s, u);
            && t in s'.tasks && ClosesBody(s'.tasks[t].pc)
            && CloseRank(s'.tasks, s'.locks, t) < CloseRank(s.tasks, s.locks, t)
  {
    var u := Blocker(t, s.tasks[t].pc, s.locks);
    assert Owns(t, s.tasks[t].pc, s.locks) && Owns(u, s.tasks[u].pc, s.locks);
    hide TakeTurn, RequestError, TransportError, Min, NextLayers, NextCall, NextAround;
  }

  /** Every label is a step of a task that is not in the native read. */
  predicate AvoidsNativeRead(s: State, ls: seq<Label>)
    requires Runs(s, ls)
    decreases |ls|
  {
    ls == [] || (ls[0].Step? && !InNativeRead(s.tasks[ls[0].t].pc) && AvoidsNativeRead(Apply(s, ls[0]), ls[1..]))
  }

  lemma {:induction false} CloseCanEnd(s: State, t: TaskId) returns (ls: seq<Label>)
    requires LocksOk(s.tasks, s.locks) && t in s.tasks && ClosesBody(s.tasks[t].pc)
    ensures Runs(s, ls) && AvoidsNativeRead(s, ls) && |ls| <= CloseRank(s.tasks, s.locks, t)
    ensures t in After(s, ls).tasks && After(s, ls).tasks[t].pc.Closed?
    decreases CloseRank(s.tasks, s.locks, t)
  {
    if s.tasks[t].pc.Closed? {
      ls := [];
    } else {
      BlockersMove(s, t);
      CloseMoves(s, t);
      var u := Blocker(t, s.tasks[t].pc, s.locks);
      StepLocks(s, Step(u));
      var rest := CloseCanEnd(Apply(s, Step(u)), t);
      ls := [Step(u)] + rest;
      assert ls[1..] == rest;
    }
  }

  lemma HolderMoves(s: State, u: TaskId)
    requires LocksOk(s.tasks, s.locks) && u in s.tasks && (s.locks.mu == Some(u) || s.locks.finish.once == Running(u))
    ensures !InNativeRead(s.tasks[u].pc) && Enabled(s, Step(u))
  {
    assert Owns(u, s.tasks[u].pc, s.locks);
  }

  /**
    A close never waits for a blocked read. In every reachable state, whatever reads
    are blocked on, a close can be brought to its end in at most nine steps, none of
    them a step of the native read; what it waits for on the way is a critical section
    of `mu` or the finisher, and these never wait for anything.
   */
  lemma CloseNeverWaits(stream: seq<Item>, requestCause: GoError, operationCause: GoError, ls: seq<Label>, t: TaskId)
    returns (rest: seq<Label>)
    requires Runs(Init(stream, requestCause, operationCause), ls)
    requires var s := After(Init(stream, requestCause, operationCause), ls); t in s.tasks && ClosesBody(s.tasks[t].pc)
    ensures var s := After(Init(stream, requestCause, operationCause), ls);
            && Runs(s, rest) && AvoidsNativeRead(s, rest) && |rest| <= 9
            && t in After(s, rest).tasks && After(s, rest).tasks[t].pc.Closed?
    ensures var s := After(Init(stream, requestCause, operationCause), ls);
            forall u | u in s.tasks && (s.locks.mu == Some(u) || s.locks.finish.once == Running(u)) ::
              !InNativeRead(s.tasks[u].pc) && Enabled(s, Step(u))
  {
    AlwaysLocks(Init(stream, requestCause, operationCause), ls);
    var s := After(Init(stream, requestCause, operationCause), ls);
    rest := CloseCanEnd(s, t);
    forall u | u in s.tasks && (s.locks.mu == Some(u) || s.locks.finish.once == Running(u))
      ensures !InNativeRead(s.tasks[u].pc) && Enabled(s, Step(u))
    {
      HolderMoves(s, u);
    }
  }

  // -------------------------------------------------------- what a close leaves

  /** A closed responseBody has given its request up, or is about to while it holds mu. */
  ghost predicate ShutOk(tasks: map<TaskId, Task>, layers: Layers, call: NativeCall) {
    && (!call.registered ==> call.cancelled)
    && (layers.inner.closed ==> !call.registered || exists u :: u in tasks && tasks[u].pc.Releasing?)
    && (forall u | u in tasks && tasks[u].pc.Releasing? :: layers.inner.closed)
    && (forall u | u in tasks && (tasks[u].pc.Finishing? || tasks[u].pc.Closed?) :: layers.inner.closed && !call.registered)
  }

  ghost predicate FinishedOk(locks: Locks, around: Surroundings) {
    !locks.finish.once.Fresh? ==> around.operation.ended
  }

  lemma StepShutTask(pc: Pc, size: nat, locks: Locks, layers: Layers, call: NativeCall, around: Surroundings)
    requires pc.Recording? ==> !pc.output.Data?
    ensures var pc' := NextPc(pc, size, locks, layers, call, around);
            var layers', call' := NextLayers(pc, pc', layers), NextCall(pc, size, call);
            && (layers.inner.closed ==> layers'.inner.closed)
            && (call'.registered ==> call.registered)
            && ((!call.registered ==> call.cancelled) ==> (!call'.registered ==> call'.cancelled))
            && (layers'.inner.closed && !layers.inner.closed ==> pc.Shutting? && pc'.Releasing?)
            && (pc'.Releasing? && !pc.Releasing? ==> pc.Shutting? && layers'.inner.closed)
            && (pc.Releasing? ==> !call'.registered && pc'.Finishing?)
            && (pc'.Finishing? || pc'.Closed? ==>
                  pc.Finishing? || pc.Closed? || pc.Releasing? || (pc.Shutting? && layers.inner.closed))
            && (pc.Finishing? ==> pc'.Finishing? || pc'.Closed?)
  {
    hide RequestError, TransportError, Min, TakeTurn;
  }

  lemma KeepsShut(tasks: map<TaskId, Task>, t: TaskId, task: Task, layers: Layers, call: NativeCall)
    requires ShutOk(tasks, layers, call) && (t in tasks ==> !tasks[t].pc.Releasing?)
    requires !task.pc.Releasing? && !task.pc.Finishing? && !task.pc.Closed?
    ensures ShutOk(tasks[t := task], layers, call)
  {
    if u :| u in tasks && tasks[u].pc.Releasing? {
      assert tasks[t := task][u].pc.Releasing?;
    }
  }

  lemma StepShut(s: State, l: Label)
    requires LocksOk(s.tasks, s.locks) && ShutOk(s.tasks, s.layers, s.call) && Enabled(s, l)
    ensures ShutOk(Apply(s, l).tasks, Apply(s, l).layers, Apply(s, l).call)
  {
    hide NextPc, NextLocks, NextLayers, NextCall, NextAround;
    match l
    case Step(t) =>
      var pc := s.tasks[t].pc;
      StepShutTask(pc, s.tasks[t].size, s.locks, s.layers, s.call, s.around);
      var s' := Apply(s, l);
      assert forall u | u in s.tasks && u != t :: s'.tasks[u] == s.tasks[u];
      assert Owns(t, pc, s.locks);
      if u :| u in s.tasks && s.tasks[u].pc.Releasing? {
        assert Owns(u, s.tasks[u].pc, s.locks);
        assert u != t ==> s'.tasks[u].pc.Releasing? && !pc.Shutting?;
      }
      if s'.layers.inner.closed && !s.layers.inner.closed {
        assert s'.tasks[t].pc.Releasing?;
      }
    case SeeCancel(t) => KeepsShut(s.tasks, t, s.tasks[t].(pc := Got(Error(Cancelled))), s.layers, s.call);
    case Read(t, size) => KeepsShut(s.tasks, t, Task(Entered, size, s.layers.outer.closed), s.layers, s.call);
    case Close(t) => KeepsShut(s.tasks, t, Task(Marking, 0, false), s.layers, s.call);
    case Happen(e) =>
  }

  lemma StepFinished(s: State, l: Label)
    requires LocksOk(s.tasks, s.locks) && FinishedOk(s.locks, s.around) && Enabled(s, l)
    ensures FinishedOk(Apply(s, l).locks, Apply(s, l).around)
  {
    hide NextPc, NextLayers, NextCall;
  }

  lemma {:induction false} AlwaysShut(s: State, ls: seq<Label>)
    requires LocksOk(s.tasks, s.locks) && ShutOk(s.tasks, s.layers, s.call) && FinishedOk(s.locks, s.around) && Runs(s, ls)
    ensures var s' := After(s, ls);
            LocksOk(s'.tasks, s'.locks) && ShutOk(s'.tasks, s'.layers, s'.call) && FinishedOk(s'.locks, s'.around)
    decreases |ls|
  {
    if ls != [] {
      StepLocks(s, ls[0]);
      StepShut(s, ls[0]);
      StepFinished(s, ls[0]);
      AlwaysShut(Apply(s, ls[0]), ls[1..]);
    }
  }

  /**
    Once any close has returned, also one that found the body closed already, the
    native request is closed and cancelled, so that a blocked native read can be
    interrupted, and the finisher has run exactly once and ended the operation's
    context.
   */
  lemma CloseReleases(stream: seq<Item>, requestCause: GoError, operationCause: GoError, ls: seq<Label>, t: TaskId)
    requires Runs(Init(stream, requestCause, operationCause), ls)
    requires var s := After(Init(stream, requestCause, operationCause), ls); t in s.tasks && s.tasks[t].pc.Closed?
    ensures var s := After(Init(stream, requestCause, operationCause), ls);
            && s.layers.inner.closed && !s.call.registered && s.call.cancelled
            && (forall u | u in s.tasks && s.tasks[u].pc.Reading? :: Enabled(s, SeeCancel(u)))
            && s.locks.finish.started == 1 && s.locks.finish.finished == 1
            && s.around.operation.ended
  {
    AlwaysShut(Init(stream, requestCause, operationCause), ls);
    var s := After(Init(stream, requestCause, operationCause), ls);
    assert Owns(t, s.tasks[t].pc, s.locks);
  }
}
