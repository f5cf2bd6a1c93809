/** What tasks can still do once the connection's token is cancelled. */
module ConnectionCancellation {
  import opened Bytes
  import opened Fragmentation
  import opened Connection
  import opened ConnectionLocks
  import opened ConnectionOutcomes
  import opened ConnectionWire

  /** A poll that is already past the check of the token may send one frame. */
  function Credit(tasks: map<TaskId, Task>, t: TaskId): nat {
    if t in tasks && tasks[t].polling then 1 else 0
  }

  lemma SendEndsPoll(t: TaskId, task: Task, locks: Locks, link: Link, section: Section)
    requires CanRun(t, task, locks, link, section)
    ensures |SentBy(task, link, section)| <= 1
    ensures SentBy(task, link, section) != [] ==> !RunSection(t, task, locks, link, section).task.polling
  {
    hide Released, FromWsError, WriteError, NextFrame, ControlFrame, RepliesOnWire;
  }

  /** Each frame ends the poll that sent it: after a fragment the task yields, otherwise it returns. */
  lemma SectionCredit(tasks: map<TaskId, Task>, locks: Locks, link: Link, t: TaskId, section: Section, u: TaskId)
    requires t in tasks && tasks[t].polling && CanRun(t, tasks[t], locks, link, section)
    ensures var e := RunSection(t, tasks[t], locks, link, section);
            |Own(e.link.wire, u)| + Credit(tasks[t := e.task], u) <= |Own(link.wire, u)| + Credit(tasks, u)
  {
    hide Own;
    OwnAdded(t, tasks[t], locks, link, section, u);
    SendEndsPoll(t, tasks[t], locks, link, section);
  }

  lemma StepCredit(s: State, l: Label, t: TaskId)
    requires Enabled(s, l) && TokenCancelled(s)
    ensures var s' := Apply(s, l);
            && TokenCancelled(s')
            && |Own(s'.link.wire, t)| + Credit(s'.tasks, t) <= |Own(s.link.wire, t)| + Credit(s.tasks, t)
  {
    match l
    case Run(u, section) => SectionCredit(s.tasks, s.locks, s.link, u, section, t);
    case Around(e) =>
      if e == EmitReply {
        OwnSnoc(s.link.wire, OnWire(None, s.link.sink.replies[0]), t);
      }
    case _ =>
  }

  /**
    After the token is cancelled a call puts at most one more frame on the wire, and
    none unless a poll of it was past the check at that moment; in particular none
    if it starts afterwards.
   */
  lemma {:induction false} AtMostOneMore(s: State, ls: seq<Label>, t: TaskId)
    requires Runs(s, ls) && TokenCancelled(s)
    ensures |Own(After(s, ls).link.wire, t)|
         <= |Own(s.link.wire, t)| + (if t in s.tasks && s.tasks[t].polling then 1 else 0)
    decreases |ls|
  {
    if ls != [] {
      StepCredit(s, ls[0], t);
      AtMostOneMore(Apply(s, ls[0]), ls[1..], t);
    }
  }

  /** ... and a native task that is not being polled can then do nothing but return `closed`. */
  lemma OnlyReturnsClosed(s: State, l: Label, t: TaskId)
    requires Enabled(s, l) && TokenCancelled(s)
    requires t in s.tasks && Running(s.tasks[t]) && !s.tasks[t].polling
    ensures Enabled(s, Drop(t))
    ensures var task' := Apply(s, l).tasks[t];
            if l == Drop(t) then task'.pc == Returned(Failed(Closed))
            else task' == s.tasks[t].(contextEnded := task'.contextEnded)
  {
  }

  // ------------------------------------------------------- interrupting a call

  /** An entry that was gone when the connection was to be removed went with its client. */
  predicate ReleaseOk(s: State) {
    s.client != Absent && (s.conn == Absent ==> s.client in {Removed, Cancelled})
  }

  lemma StepRelease(s: State, l: Label)
    requires ReleaseOk(s) && Enabled(s, l)
    ensures ReleaseOk(Apply(s, l))
  {
    hide RunSection, OperationResult;
  }

  lemma {:induction false} AlwaysRelease(s: State, ls: seq<Label>)
    requires ReleaseOk(s) && Runs(s, ls)
    ensures ReleaseOk(After(s, ls))
    decreases |ls|
  {
    hide Apply;
    if ls != [] {
      StepRelease(s, ls[0]);
      AlwaysRelease(Apply(s, ls[0]), ls[1..]);
    }
  }

  /** What the Go side, the registry and the scheduler do by themselves for a call that is to end: nothing comes from the network. */
  predicate Unwinds(l: Label, t: TaskId) {
    match l
    case Around(e) => e in {Watch(t), RemoveConn, CancelConn, RemoveClient, CancelClient}
    case Happen(u, event) => u == t && event in {Miss, Suspend}
    case Run(u, section) => u == t && section == Store
    case Drop(u) => u == t
    case Finish(u) => u == t
    case Call(_, _) => false
  }

  ghost predicate AllUnwind(ls: seq<Label>, t: TaskId) {
    forall l | l in ls :: Unwinds(l, t)
  }

  /** The call's own context has ended, or somebody has closed the connection or the client. */
  predicate ToBeEnded(s: State, t: TaskId) {
    t in s.tasks && !s.tasks[t].pc.Finished? && (s.tasks[t].contextEnded || s.conn != Live || s.client != Live)
  }

  lemma CancelToken(s: State, t: TaskId) returns (ls: seq<Label>)
    requires ReleaseOk(s) && ToBeEnded(s, t)
    ensures Runs(s, ls) && AllUnwind(ls, t)
    ensures After(s, ls).tasks == s.tasks && TokenCancelled(After(s, ls))
    ensures After(s, ls).locks == s.locks && After(s, ls).link == s.link
  {
    ls := [];
    if TokenCancelled(s) {
    } else if s.client == Removed {
      Extend(s, ls, Around(CancelClient)); ls := ls + [Around(CancelClient)];
    } else if s.client == Swapped {
      Extend(s, ls, Around(RemoveClient)); ls := ls + [Around(RemoveClient)];
      Extend(s, ls, Around(CancelClient)); ls := ls + [Around(CancelClient)];
    } else {
      if s.conn == Live {
        Extend(s, ls, Around(Watch(t))); ls := ls + [Around(Watch(t))];
      }
      if After(s, ls).conn == Swapped {
        Extend(s, ls, Around(RemoveConn)); ls := ls + [Around(RemoveConn)];
      }
      Extend(s, ls, Around(CancelConn)); ls := ls + [Around(CancelConn)];
    }
  }

  /** From its place in the native code or on the way there a call comes back to Go. */
  lemma ComeBack(s: State, t: TaskId) returns (ls: seq<Label>)
    requires t in s.tasks && !s.tasks[t].pc.Finished? && TokenCancelled(s)
    ensures Runs(s, ls) && AllUnwind(ls, t)
    ensures var s' := After(s, ls);
            && t in s'.tasks && s'.tasks[t].pc.Returned? && s'.tasks[t].contextEnded == s.tasks[t].contextEnded
            && s'.conn == s.conn && s'.client == s.client
  {
    ls := [];
    if s.tasks[t].pc.Called? {
      Extend(s, ls, Happen(t, Miss)); ls := ls + [Happen(t, Miss)];
    } else if !s.tasks[t].pc.Returned? {
      if s.tasks[t].polling && s.tasks[t].pc.Storing? {
        Extend(s, ls, Run(t, Store)); ls := ls + [Run(t, Store)];
      }
      if After(s, ls).tasks[t].polling {
        Extend(s, ls, Happen(t, Suspend)); ls := ls + [Happen(t, Suspend)];
      }
      Extend(s, ls, Drop(t)); ls := ls + [Drop(t)];
    }
  }

  /** Nothing that unwinds a call closes a client that is open. */
  lemma {:induction false} ClientKept(s: State, ls: seq<Label>, t: TaskId)
    requires Runs(s, ls) && AllUnwind(ls, t) && t in s.tasks && t in After(s, ls).tasks
    ensures After(s, ls).client != Live <==> s.client != Live
  {
    History(s, ls, t);
    assert Around(CloseClient) !in ls;
  }

  lemma UnwindAll(s: State, t: TaskId) returns (ls: seq<Label>)
    requires ReleaseOk(s) && ToBeEnded(s, t)
    ensures Runs(s, ls) && AllUnwind(ls, t) && t in After(s, ls).tasks
    ensures After(s, ls).tasks[t].pc == Finished(
              if s.tasks[t].contextEnded then ContextError else if s.client != Live then ClientClosedError else ConnClosedError)
  {
    var cancel := CancelToken(s, t);
    var s1 := After(s, cancel);
    ClientKept(s, cancel, t);
    var back := ComeBack(s1, t);
    RunsConcat(s, cancel, back);
    ls := cancel + back;
    FinishExplained(After(s, ls), t);
    Extend(s, ls, Finish(t));
    ls := ls + [Finish(t)];
  }

  /**
    Ending a call's context, or closing the connection or the client, interrupts the
    call wherever it is, blocked reads and writes included: from every reachable
    state it can be brought to its end without anything from the network or the
    other calls, and then reports what ended it.
   */
  lemma InterruptedCallEnds(frameSize: nat, before: seq<Label>, t: TaskId) returns (ls: seq<Label>)
    requires Runs(Init(frameSize), before) && ToBeEnded(After(Init(frameSize), before), t)
    ensures var s := After(Init(frameSize), before);
            && Runs(s, ls) && AllUnwind(ls, t)
            && t in After(s, ls).tasks
            && After(s, ls).tasks[t].pc == Finished(
                 if Happen(t, EndContext) in before then ContextError
                 else if Around(CloseClient) in before then ClientClosedError
                 else ConnClosedError)
  {
    AlwaysRelease(Init(frameSize), before);
    History(Init(frameSize), before, t);
    var s := After(Init(frameSize), before);
    ls := UnwindAll(s, t);
  }
}
