/** What a call reports to its caller, told from what happened in the run, and which returns close the connection. */
module ConnectionOutcomes {
  import opened Bytes
  import opened Fragmentation
  import opened Connection

  /** The handles are open and the context of call `a` has not ended. */
  predicate Alive(s: State, a: TaskId) {
    s.conn == Live && s.client == Live && a in s.tasks && !s.tasks[a].contextEnded
  }

  // ------------------------------------------------------------- what stays

  lemma OwnSectionKeeps(t: TaskId, task: Task, locks: Locks, link: Link, section: Section)
    requires CanRun(t, task, locks, link, section)
    ensures var e := RunSection(t, task, locks, link, section);
            && e.task.op == task.op && e.task.contextEnded == task.contextEnded
            && !e.task.pc.Finished? && (link.peerClose ==> e.link.peerClose)
  {
    hide Released, ControlFrame, RepliesOnWire, NextFrame, FromWsError, WriteError;
  }

  lemma TaskKept(s: State, l: Label, a: TaskId)
    requires Enabled(s, l) && a in s.tasks
    ensures a in Apply(s, l).tasks
  {
    hide RunSection, OperationResult;
  }

  lemma FinishEnds(s: State, a: TaskId)
    requires Enabled(s, Finish(a))
    ensures a in Apply(s, Finish(a)).tasks && Apply(s, Finish(a)).tasks[a].pc.Finished?
  {
    hide OperationResult;
  }

  lemma StepFinished(s: State, l: Label, a: TaskId)
    requires Enabled(s, l) && a in s.tasks && s.tasks[a].pc.Finished?
    ensures a in Apply(s, l).tasks && Apply(s, l).tasks[a].pc.Finished?
  {
    hide RunSection, OperationResult;
  }

  lemma {:induction false} FinishedStays(s: State, ls: seq<Label>, a: TaskId)
    requires Runs(s, ls) && a in s.tasks && s.tasks[a].pc.Finished?
    ensures a in After(s, ls).tasks && After(s, ls).tasks[a].pc.Finished?
    decreases |ls|
  {
    hide Apply;
    if ls != [] {
      StepFinished(s, ls[0], a);
      FinishedStays(Apply(s, ls[0]), ls[1..], a);
    }
  }

  lemma ReturnedWaits(s: State, l: Label, t: TaskId)
    requires Enabled(s, l) && l != Finish(t) && t in s.tasks && s.tasks[t].pc.Returned?
    ensures t in Apply(s, l).tasks
    ensures Apply(s, l).tasks[t].pc == s.tasks[t].pc && Apply(s, l).tasks[t].op == s.tasks[t].op
  {
    hide RunSection, OperationResult;
  }

  /** From its native return to the end of the Go method a call carries what it was given. */
  lemma {:induction false} NativeCarried(s: State, ls: seq<Label>, t: TaskId)
    requires Runs(s, ls) && t in s.tasks && s.tasks[t].pc.Returned?
    requires Enabled(After(s, ls), Finish(t))
    ensures var task := After(s, ls).tasks[t]; task.pc == s.tasks[t].pc && task.op == s.tasks[t].op
    decreases |ls|
  {
    hide Apply;
    if ls != [] {
      if ls[0] == Finish(t) {
        FinishEnds(s, t);
        FinishedStays(Apply(s, ls[0]), ls[1..], t);
      } else {
        ReturnedWaits(s, ls[0], t);
        NativeCarried(Apply(s, ls[0]), ls[1..], t);
      }
    }
  }

  // -------------------------------------------------------------- the history

  lemma StepHistory(s: State, l: Label, t: TaskId)
    requires Enabled(s, l) && t in Apply(s, l).tasks
    ensures Apply(s, l).tasks[t].contextEnded <==> (t in s.tasks && s.tasks[t].contextEnded) || l == Happen(t, EndContext)
    ensures Apply(s, l).client != Live <==> s.client != Live || l == Around(CloseClient)
  {
    hide RunSection, OperationResult;
    if l.Run? {
      OwnSectionKeeps(l.t, s.tasks[l.t], s.locks, s.link, l.section);
    }
  }

  lemma StepClient(s: State, l: Label)
    requires Enabled(s, l)
    ensures Apply(s, l).client != Live <==> s.client != Live || l == Around(CloseClient)
  {
    hide RunSection, OperationResult;
  }

  lemma LaterCall(s: State, l: Label, t: TaskId)
    requires Enabled(s, l) && t !in Apply(s, l).tasks
    ensures t !in s.tasks && l != Happen(t, EndContext)
  {
    hide RunSection, OperationResult;
  }

  /** The flags of a state say what the run to it contained. */
  lemma {:induction false} History(s: State, ls: seq<Label>, t: TaskId)
    requires Runs(s, ls) && t in After(s, ls).tasks
    ensures After(s, ls).tasks[t].contextEnded <==> (t in s.tasks && s.tasks[t].contextEnded) || Happen(t, EndContext) in ls
    ensures After(s, ls).client != Live <==> s.client != Live || Around(CloseClient) in ls
    decreases |ls|
  {
    hide Apply, Enabled;
    if ls != [] {
      var s' := Apply(s, ls[0]);
      assert forall l :: l in ls <==> l == ls[0] || l in ls[1..];
      History(s', ls[1..], t);
      StepClient(s, ls[0]);
      if t in s'.tasks {
        StepHistory(s, ls[0], t);
      } else {
        LaterCall(s, ls[0], t);
      }
    }
  }

  // ------------------------------------------------------------- what is reported

  /** A return that leaves the connection to others: success, or a write the native side refused before or because of closing. */
  predicate LeavesOpen(op: Op, outcome: Outcome) {
    || outcome.Written? || outcome.GotMessage?
    || (!op.Read? && outcome in {NativeError(InvalidInput), NativeError(Closing)})
  }

  lemma FinishExplained(s: State, t: TaskId)
    requires Enabled(s, Finish(t))
    ensures var s' := Apply(s, Finish(t));
            && s'.tasks[t].pc == Finished(
                 if s.tasks[t].contextEnded then ContextError
                 else if s.client != Live then ClientClosedError
                 else if s.conn != Live then ConnClosedError
                 else match s.tasks[t].pc.native
                      case Sent => Written
                      case Got(message) => GotMessage(message)
                      case Eof => EndOfStream
                      case Failed(kind) => NativeError(kind))
            && (s'.conn == Live <==> s.conn == Live && LeavesOpen(s.tasks[t].op, s'.tasks[t].pc.outcome))
  {
  }

  /**
    What every call reports, over every run. Its own context comes first, whatever
    the native side returned and whatever else is closed, then a closed client, then
    a closed connection; only otherwise the native result stands. And the connection
    survives the return exactly if it was open and the outcome leaves it open.
   */
  lemma OutcomeExplained(frameSize: nat, ls: seq<Label>, t: TaskId)
    requires Runs(Init(frameSize), ls) && Enabled(After(Init(frameSize), ls), Finish(t))
    ensures var s := After(Init(frameSize), ls);
            var s' := Apply(s, Finish(t));
            && s'.tasks[t].pc == Finished(
                 if Happen(t, EndContext) in ls then ContextError
                 else if Around(CloseClient) in ls then ClientClosedError
                 else if s.conn != Live then ConnClosedError
                 else match s.tasks[t].pc.native
                      case Sent => Written
                      case Got(message) => GotMessage(message)
                      case Eof => EndOfStream
                      case Failed(kind) => NativeError(kind))
            && (s'.conn == Live <==> s.conn == Live && LeavesOpen(s.tasks[t].op, s'.tasks[t].pc.outcome))
  {
    History(Init(frameSize), ls, t);
    FinishExplained(After(Init(frameSize), ls), t);
  }

  lemma StepLive(s: State, l: Label)
    requires Enabled(s, l)
    ensures s.conn != Live ==> Apply(s, l).conn != Live
  {
    hide RunSection, OperationResult;
  }

  lemma {:induction false} NeverLiveAgain(s: State, ls: seq<Label>)
    requires Runs(s, ls)
    ensures s.conn != Live ==> After(s, ls).conn != Live
    decreases |ls|
  {
    hide Apply;
    if ls != [] {
      StepLive(s, ls[0]);
      NeverLiveAgain(Apply(s, ls[0]), ls[1..]);
    }
  }

  /** A close by a caller, the watcher of an ended context, or a return that does not leave the connection open. */
  predicate ClosesHandle(s: State, l: Label)
    requires Enabled(s, l)
  {
    match l
    case Around(CloseConn) => true
    case Around(Watch(_)) => true
    case Finish(t) => !LeavesOpen(s.tasks[t].op, Apply(s, l).tasks[t].pc.outcome)
    case _ => false
  }

  /** Only these labels close the handle, and from then on every call is refused at once as closed. */
  lemma ClosedForEver(s: State, l: Label, ls: seq<Label>, u: TaskId, op: Op)
    requires Enabled(s, l) && Runs(Apply(s, l), ls) && Enabled(After(Apply(s, l), ls), Call(u, op))
    ensures s.conn == Live ==> (Apply(s, l).conn != Live <==> ClosesHandle(s, l))
    ensures ClosesHandle(s, l) ==>
              Apply(After(Apply(s, l), ls), Call(u, op)).tasks[u].pc == Finished(ConnClosedError)
  {
    hide RunSection, OperationResult;
    if l.Finish? {
      FinishExplained(s, l.t);
    }
    NeverLiveAgain(Apply(s, l), ls);
  }

  // --------------------------------------------- native failures and their reports

  /**
    A write refused by the sink, whatever happens until it returns to its caller with
    the handles and its context alive. It reports `closing`, and leaves the connection
    open so that a pending Close can be read, if and only if the peer's Close had been
    received at the refusal, or the error is SendAfterClosing or one of the four
    socket errors that leave the read direction usable.
   */
  lemma RefusedWriteReported(s: State, t: TaskId, e: WsError, ls: seq<Label>)
    requires Enabled(s, Run(t, Send(Refused(e)))) && Runs(Apply(s, Run(t, Send(Refused(e)))), ls)
    requires var s1 := After(Apply(s, Run(t, Send(Refused(e)))), ls); Enabled(s1, Finish(t)) && Alive(s1, t)
    ensures var s2 := Apply(After(Apply(s, Run(t, Send(Refused(e)))), ls), Finish(t));
            var closing := || s.link.peerClose || e == SendAfterClosing
                           || e in {Io(BrokenPipe), Io(ConnectionReset), Io(ConnectionAborted), Io(NotConnected)};
            && s2.tasks[t].pc == Finished(NativeError(
                 if closing then Closing else if e == HandshakeIncomplete then UnexpectedEof else WebSocket))
            && (s2.conn == Live <==> closing)
  {
    NativeCarried(Apply(s, Run(t, Send(Refused(e)))), ls, t);
    FinishExplained(After(Apply(s, Run(t, Send(Refused(e)))), ls), t);
  }

  /** A call that finds the connection not established yet reports invalid input. */
  lemma NotConnectedYet(s: State, t: TaskId, section: Section, ls: seq<Label>)
    requires Enabled(s, Run(t, section))
    requires (section == TakeReader && !s.link.hasReader) || (section == TakeWriter && !s.tasks[t].op.Read? && !s.link.hasWriter)
    requires Runs(Apply(s, Run(t, section)), ls)
    requires var s1 := After(Apply(s, Run(t, section)), ls); Enabled(s1, Finish(t)) && Alive(s1, t)
    ensures Apply(After(Apply(s, Run(t, section)), ls), Finish(t)).tasks[t].pc == Finished(NativeError(InvalidInput))
  {
    NativeCarried(Apply(s, Run(t, section)), ls, t);
    FinishExplained(After(Apply(s, Run(t, section)), ls), t);
  }

  /** So does a write that the native side does not admit. */
  lemma NotAdmitted(s: State, t: TaskId, ls: seq<Label>)
    requires Enabled(s, Happen(t, Reject)) && Runs(Apply(s, Happen(t, Reject)), ls)
    requires var s1 := After(Apply(s, Happen(t, Reject)), ls); Enabled(s1, Finish(t)) && Alive(s1, t)
    ensures var s2 := Apply(After(Apply(s, Happen(t, Reject)), ls), Finish(t));
            s2.tasks[t].pc == Finished(NativeError(InvalidInput)) && s2.conn == Live
  {
    NativeCarried(Apply(s, Happen(t, Reject)), ls, t);
    FinishExplained(After(Apply(s, Happen(t, Reject)), ls), t);
  }
}
