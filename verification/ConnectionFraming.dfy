/**
  What is on the wire: in every interleaving, and until the connection's token is
  cancelled, the data frames are the complete fragmentations of the messages in
  the order their writers got `data_write`, plus at most one partial one.
 */
module ConnectionFraming {
  import opened Bytes
  import opened Fragmentation
  import opened Connection
  import opened ConnectionLocks

  // -------------------------------------------------------------- one writer

  function AllFrames(task: Task, size: nat): seq<Frame>
    requires task.op.WriteData? && 0 < size
  {
    Fragments(task.op.kind, task.op.data, size, 0)
  }

  predicate Complete(task: Task, size: nat)
    requires 0 < size
  {
    task.op.WriteData? && task.emitted == AllFrames(task, size)
  }

  predicate Partial(task: Task, size: nat)
    requires 0 < size
  {
    task.op.WriteData? && task.emitted != [] && !Complete(task, size)
  }

  predicate Stopped(task: Task) {
    task.pc.Returned? || task.pc.Finished?
  }

  predicate Succeeded(task: Task) {
    task.pc == Returned(Sent) || task.pc == Finished(Written)
  }

  /** A running writer has sent everything before its offset; a stopped one some prefix, all of it on success. */
  predicate WriterOk(task: Task, size: nat)
    requires 0 < size
  {
    if !task.op.WriteData? then task.emitted == []
    else if Stopped(task) then
      task.emitted <= AllFrames(task, size) && (Succeeded(task) ==> Complete(task, size))
    else
      && task.offset <= |task.op.data|
      && task.emitted + Fragments(task.op.kind, task.op.data, size, task.offset) == AllFrames(task, size)
      && (task.pc.Called? || task.pc.NeedData? ==> task.offset == 0 && task.emitted == [])
  }

  // ---------------------------------------------------------------- the wire

  function OnOrder(tasks: map<TaskId, Task>, order: seq<TaskId>): seq<Frame>
    requires forall t | t in order :: t in tasks
  {
    if order == [] then []
    else OnOrder(tasks, order[..|order| - 1]) + tasks[order[|order| - 1]].emitted
  }

  lemma {:induction false} OnOrderSame(tasks: map<TaskId, Task>, tasks': map<TaskId, Task>, order: seq<TaskId>)
    requires forall t | t in order :: t in tasks && t in tasks' && tasks'[t].emitted == tasks[t].emitted
    ensures OnOrder(tasks', order) == OnOrder(tasks, order)
  {
    if order != [] {
      OnOrderSame(tasks, tasks', order[..|order| - 1]);
    }
  }

  lemma FramesSnoc(wire: seq<OnWire>, w: OnWire)
    ensures Frames(wire + [w]) == Frames(wire) + [w.frame]
  {
  }

  lemma WireSnoc(wire: seq<OnWire>, w: OnWire)
    ensures DataFrames(Frames(wire + [w])) == DataFrames(Frames(wire)) + (if IsData(w.frame) then [w.frame] else [])
  {
    FramesSnoc(wire, w);
    DataFramesSnoc(Frames(wire), w.frame);
  }

  ghost predicate WholeControls(frames: seq<Frame>) {
    forall i | 0 <= i < |frames| :: !IsData(frames[i]) && frames[i].fin
  }

  ghost predicate WireOk(link: Link) {
    ControlsWhole(Frames(link.wire)) && WholeControls(link.sink.replies)
  }

  lemma {:induction false} RepliesInvisible(wire: seq<OnWire>, replies: seq<Frame>)
    requires WholeControls(replies) && ControlsWhole(Frames(wire))
    decreases |replies|
    ensures DataFrames(Frames(wire + RepliesOnWire(replies))) == DataFrames(Frames(wire))
    ensures ControlsWhole(Frames(wire + RepliesOnWire(replies)))
  {
    if replies == [] {
      assert wire + RepliesOnWire(replies) == wire;
    } else {
      var w := OnWire(None, replies[0]);
      WireSnoc(wire, w);
      RepliesInvisible(wire + [w], replies[1..]);
      assert wire + RepliesOnWire(replies) == (wire + [w]) + RepliesOnWire(replies[1..]);
    }
  }

  // ---------------------------------------------------------------- sections

  predicate SendsFragment(task: Task, section: Section) {
    section == Send(Accepted) && task.op.WriteData?
  }

  /** A section sends the task's next fragment, or leaves the data on the wire alone. */
  ghost predicate FrameEffect(t: TaskId, task: Task, link: Link, section: Section, e: Effect)
    requires 0 < link.frameSize
  {
    && e.task.op == task.op
    && e.link.frameSize == link.frameSize
    && WriterOk(e.task, link.frameSize)
    && WireOk(e.link)
    && (if SendsFragment(task, section)
        then exists f ::
               && e.task.emitted == task.emitted + [f]
               && DataFrames(Frames(e.link.wire)) == DataFrames(Frames(link.wire)) + [f]
        else && e.task.emitted == task.emitted
             && DataFrames(Frames(e.link.wire)) == DataFrames(Frames(link.wire)))
  }

  lemma BackOk(task: Task, size: nat, native: Native)
    requires 0 < size && WriterOk(task, size)
    requires native == Sent ==> !task.op.WriteData? || Complete(task, size)
    ensures WriterOk(Back(task, native), size)
  {
    if task.op.WriteData? && !Stopped(task) {
      assert task.emitted <= AllFrames(task, size);
    }
  }

  /** The fragment at the offset is the next one of the plan. */
  lemma NextOfPlan(task: Task, link: Link)
    requires 0 < link.frameSize && WriterOk(task, link.frameSize) && !Stopped(task)
    requires task.op.WriteData? && task.offset <= |task.op.data|
    ensures var frame := NextFrame(task, link);
            var end := FragmentEnd(|task.op.data|, link.frameSize, task.offset);
            var all := AllFrames(task, link.frameSize);
            if end == |task.op.data| then task.emitted + [frame] == all
            else all == (task.emitted + [frame]) + Fragments(task.op.kind, task.op.data, link.frameSize, end)
  {
    var end := FragmentEnd(|task.op.data|, link.frameSize, task.offset);
    var later := if end == |task.op.data| then [] else Fragments(task.op.kind, task.op.data, link.frameSize, end);
    TakeFragment(AllFrames(task, link.frameSize), task.emitted, NextFrame(task, link), later);
  }

  lemma WireFragment(wire: seq<OnWire>, w: OnWire)
    requires IsData(w.frame) && ControlsWhole(Frames(wire))
    ensures DataFrames(Frames(wire + [w])) == DataFrames(Frames(wire)) + [w.frame]
    ensures ControlsWhole(Frames(wire + [w]))
  {
    WireSnoc(wire, w);
    FramesSnoc(wire, w);
  }

  lemma SendingDataFrames(t: TaskId, task: Task, locks: Locks, link: Link)
    requires 0 < link.frameSize && WriterOk(task, link.frameSize) && WireOk(link)
    requires task.pc.Sending? && task.op.WriteData? && task.offset <= |task.op.data|
    ensures FrameEffect(t, task, link, Send(Accepted), SendingData(t, task, locks, link))
  {
    var frame := NextFrame(task, link);
    WireFragment(link.wire, OnWire(Some(t), frame));
    NextOfPlan(task, link);
  }

  lemma SendingControlFrames(t: TaskId, task: Task, locks: Locks, link: Link)
    requires 0 < link.frameSize && WriterOk(task, link.frameSize) && WireOk(link)
    requires task.pc.Sending? && task.op.WriteControl?
    ensures FrameEffect(t, task, link, Send(Accepted), SendingControl(t, task, locks, link))
  {
    WireSnoc(link.wire, OnWire(Some(t), ControlFrame(task.op.control)));
    FramesSnoc(link.wire, OnWire(Some(t), ControlFrame(task.op.control)));
    BackOk(task, link.frameSize, Sent);
  }

  lemma ReceivedFrames(t: TaskId, task: Task, locks: Locks, link: Link, incoming: Incoming)
    requires 0 < link.frameSize && WriterOk(task, link.frameSize) && WireOk(link)
    requires task.pc.Receiving? && task.op.Read?
    ensures FrameEffect(t, task, link, Receive(incoming), HandleIncoming(t, task, locks, link, incoming))
  {
  }

  lemma FlushFrames(t: TaskId, task: Task, locks: Locks, link: Link, result: SinkResult)
    requires 0 < link.frameSize && WriterOk(task, link.frameSize) && WireOk(link)
    requires CanRun(t, task, locks, link, Flush(result))
    ensures FrameEffect(t, task, link, Flush(result), RunSection(t, task, locks, link, Flush(result)))
  {
    RepliesInvisible(link.wire, link.sink.replies);
  }

  lemma GivingUpFrames(t: TaskId, task: Task, locks: Locks, link: Link, section: Section)
    requires 0 < link.frameSize && WriterOk(task, link.frameSize) && WireOk(link)
    requires CanRun(t, task, locks, link, section)
    requires section.TakeWriter? || (section.Send? && section.result.Refused?)
    ensures FrameEffect(t, task, link, section, RunSection(t, task, locks, link, section))
  {
    BackOk(task, link.frameSize, Failed(InvalidInput));
    if section.Send? {
      BackOk(task, link.frameSize, Failed(WriteError(link.peerClose, section.result.error)));
    }
  }

  lemma MovingFrames(t: TaskId, task: Task, locks: Locks, link: Link, section: Section)
    requires 0 < link.frameSize && WriterOk(task, link.frameSize) && WireOk(link)
    requires Holds(t, task, locks) && CanRun(t, task, locks, link, section)
    requires section in {TakeData, TakeReader, Store, QueueGate, EnterGate}
    ensures FrameEffect(t, task, link, section, RunSection(t, task, locks, link, section))
  {
  }

  lemma SectionFrames(t: TaskId, task: Task, locks: Locks, link: Link, section: Section)
    requires 0 < link.frameSize && WriterOk(task, link.frameSize) && WireOk(link)
    requires Holds(t, task, locks) && CanRun(t, task, locks, link, section)
    ensures FrameEffect(t, task, link, section, RunSection(t, task, locks, link, section))
  {
    match section
    case Send(Accepted) =>
      if task.op.WriteData? {
        SendingDataFrames(t, task, locks, link);
      } else {
        SendingControlFrames(t, task, locks, link);
      }
    case Send(Refused(e)) => GivingUpFrames(t, task, locks, link, section);
    case TakeWriter => GivingUpFrames(t, task, locks, link, section);
    case Flush(result) => FlushFrames(t, task, locks, link, result);
    case Receive(incoming) => ReceivedFrames(t, task, locks, link, incoming);
    case _ => MovingFrames(t, task, locks, link, section);
  }

  // ------------------------------------------------------------- the invariant

  ghost predicate Writers(tasks: map<TaskId, Task>, size: nat)
    requires 0 < size
  {
    forall t | t in tasks :: WriterOk(tasks[t], size)
  }

  predicate Ordered(task: Task) {
    task.op.WriteData? && !task.pc.Called? && !task.pc.NeedData?
  }

  /** Writers enter `order` when they get `data_write`, and the holder is the last one in it. */
  ghost predicate OrderOk(tasks: map<TaskId, Task>, locks: Locks) {
    && NoDuplicates(locks.order)
    && (forall t | t in locks.order :: t in tasks && Ordered(tasks[t]))
    && (forall t | t in tasks && tasks[t].emitted != [] :: t in locks.order)
    && (locks.dataWrite.Some? ==> |locks.order| > 0 && locks.order[|locks.order| - 1] == locks.dataWrite.value)
  }

  predicate RefusesData(link: Link) {
    link.sink.closing || link.sink.failed
  }

  /** No writer stops in the middle of a message unless the sink takes no more data. */
  ghost predicate StoppedByRefusal(tasks: map<TaskId, Task>, link: Link)
    requires 0 < link.frameSize
  {
    forall t | t in tasks && Stopped(tasks[t]) && Partial(tasks[t], link.frameSize) :: RefusesData(link)
  }

  /** Nobody sends after a message that was left in the middle. */
  ghost predicate OnlyLastPartial(tasks: map<TaskId, Task>, order: seq<TaskId>, size: nat)
    requires 0 < size && forall t | t in order :: t in tasks
  {
    forall i, j | 0 <= i < j < |order| && tasks[order[j]].emitted != [] :: !Partial(tasks[order[i]], size)
  }

  /** A writer that has sent, or is about to, found the sink in place. */
  ghost predicate Linked(tasks: map<TaskId, Task>, link: Link) {
    forall t | t in tasks && (tasks[t].emitted != [] || (tasks[t].pc.Sending? && !tasks[t].op.Read?)) :: link.hasWriter
  }

  ghost predicate Uninterrupted(tasks: map<TaskId, Task>, order: seq<TaskId>, link: Link)
    requires 0 < link.frameSize && forall t | t in order :: t in tasks
  {
    StoppedByRefusal(tasks, link) && OnlyLastPartial(tasks, order, link.frameSize)
  }

  ghost predicate Framed(s: State) {
    && 0 < s.link.frameSize
    && Writers(s.tasks, s.link.frameSize)
    && WireOk(s.link)
    && Linked(s.tasks, s.link)
    && OrderOk(s.tasks, s.locks)
    && DataFrames(Frames(s.link.wire)) == OnOrder(s.tasks, s.locks.order)
    && (TokenCancelled(s) || Uninterrupted(s.tasks, s.locks.order, s.link))
  }

  // ------------------------------------------------------- quiet transitions

  /** The task as it was before a label; a new call counts as one that has done nothing. */
  predicate QuietTask(tasks: map<TaskId, Task>, t: TaskId, task': Task) {
    if t in tasks then task'.emitted == tasks[t].emitted && task'.op == tasks[t].op
    else task'.emitted == []
  }

  lemma OrderQuiet(tasks: map<TaskId, Task>, locks: Locks, t: TaskId, task': Task, locks': Locks)
    requires OrderOk(tasks, locks) && QuietTask(tasks, t, task')
    requires locks'.order == locks.order && locks'.dataWrite in {locks.dataWrite, None}
    requires t in tasks && Ordered(tasks[t]) ==> Ordered(task')
    ensures OrderOk(tasks[t := task'], locks')
  {
  }

  lemma UninterruptedQuiet(tasks: map<TaskId, Task>, order: seq<TaskId>, link: Link, t: TaskId, task': Task, link': Link)
    requires 0 < link.frameSize && (forall u | u in order :: u in tasks)
    requires Uninterrupted(tasks, order, link) && QuietTask(tasks, t, task')
    requires link'.frameSize == link.frameSize && (RefusesData(link) ==> RefusesData(link'))
    requires Stopped(task') && Partial(task', link.frameSize) ==>
               RefusesData(link') || (t in tasks && Stopped(tasks[t]))
    ensures Uninterrupted(tasks[t := task'], order, link')
  {
    var tasks' := tasks[t := task'];
    forall u | u in tasks
      ensures Partial(tasks'[u], link.frameSize) == Partial(tasks[u], link.frameSize)
    {
    }
  }

  ghost predicate QuietLink(link: Link, link': Link) {
    && link'.frameSize == link.frameSize
    && (link.hasWriter ==> link'.hasWriter)
    && WireOk(link')
    && DataFrames(Frames(link'.wire)) == DataFrames(Frames(link.wire))
    && (RefusesData(link) ==> RefusesData(link'))
  }

  /** A label that sends no fragment and does not hand out `data_write` keeps the invariant. */
  lemma QuietStep(s: State, t: TaskId, task': Task, locks': Locks, link': Link, conn': Release, client': Release)
    requires Framed(s) && QuietTask(s.tasks, t, task') && QuietLink(s.link, link')
    requires WriterOk(task', s.link.frameSize)
    requires task'.emitted != [] || (task'.pc.Sending? && !task'.op.Read?) ==> link'.hasWriter
    requires locks'.order == s.locks.order && locks'.dataWrite in {s.locks.dataWrite, None}
    requires t in s.tasks && Ordered(s.tasks[t]) ==> Ordered(task')
    requires TokenCancelled(s) ==> conn' == Cancelled || client' == Cancelled
    requires Stopped(task') && Partial(task', s.link.frameSize) ==>
               TokenCancelled(s) || RefusesData(link') || (t in s.tasks && Stopped(s.tasks[t]))
    ensures Framed(State(s.tasks[t := task'], locks', link', conn', client'))
  {
    OrderQuiet(s.tasks, s.locks, t, task', locks');
    OnOrderSame(s.tasks, s.tasks[t := task'], s.locks.order);
    if !TokenCancelled(s) {
      UninterruptedQuiet(s.tasks, s.locks.order, s.link, t, task', link');
    }
  }

  // ------------------------------------------------------------ the two others

  lemma TakeDataOrder(tasks: map<TaskId, Task>, locks: Locks, t: TaskId, task': Task, locks': Locks)
    requires OrderOk(tasks, locks) && t in tasks && t !in locks.order && task'.emitted == [] && Ordered(task')
    requires locks'.order == locks.order + [t] && locks'.dataWrite == Some(t)
    ensures OrderOk(tasks[t := task'], locks')
  {
  }

  lemma UninterruptedSnoc(tasks: map<TaskId, Task>, order: seq<TaskId>, link: Link, t: TaskId)
    requires 0 < link.frameSize && (forall u | u in order :: u in tasks) && t in tasks
    requires Uninterrupted(tasks, order, link) && tasks[t].emitted == []
    ensures Uninterrupted(tasks, order + [t], link)
  {
  }

  lemma TakeDataFramed(s: State, t: TaskId, task': Task, locks': Locks)
    requires Framed(s) && t in s.tasks && s.tasks[t].pc.NeedData? && s.tasks[t].op.WriteData?
    requires task' == s.tasks[t].(pc := NeedGate)
    requires locks'.order == s.locks.order + [t] && locks'.dataWrite == Some(t)
    ensures Framed(s.(tasks := s.tasks[t := task'], locks := locks'))
  {
    var order, tasks' := s.locks.order, s.tasks[t := task'];
    assert WriterOk(s.tasks[t], s.link.frameSize);
    assert t !in order;
    TakeDataOrder(s.tasks, s.locks, t, task', locks');
    assert locks'.order[..|order|] == order;
    OnOrderSame(s.tasks, tasks', order);
    assert OnOrder(tasks', locks'.order) == OnOrder(s.tasks, order) + [];
    if !TokenCancelled(s) {
      UninterruptedQuiet(s.tasks, order, s.link, t, task', s.link);
      UninterruptedSnoc(tasks', order, s.link, t);
    }
  }

  /** When the holder of `data_write` may still send, every earlier message is whole. */
  lemma EarlierWhole(s: State, t: TaskId, i: nat)
    requires Disciplined(s) && Framed(s) && !TokenCancelled(s) && !RefusesData(s.link)
    requires s.locks.dataWrite == Some(t) && i < |s.locks.order| - 1
    ensures !Partial(s.tasks[s.locks.order[i]], s.link.frameSize)
  {
    var u := s.locks.order[i];
    assert u in s.locks.order && u != t;
    assert Holds(u, s.tasks[u], s.locks);
    assert Stopped(s.tasks[u]);
  }

  lemma FragmentOnOrder(tasks: map<TaskId, Task>, locks: Locks, t: TaskId, task': Task)
    requires OrderOk(tasks, locks) && t in tasks && locks.dataWrite == Some(t)
    requires tasks[t].emitted <= task'.emitted
    ensures OnOrder(tasks[t := task'], locks.order)
         == OnOrder(tasks, locks.order) + task'.emitted[|tasks[t].emitted|..]
  {
    var order := locks.order;
    var front := order[..|order| - 1];
    assert t !in front;
    OnOrderSame(tasks, tasks[t := task'], front);
    assert task'.emitted == tasks[t].emitted + task'.emitted[|tasks[t].emitted|..];
  }

  lemma OrderFragment(tasks: map<TaskId, Task>, locks: Locks, t: TaskId, task': Task, locks': Locks)
    requires OrderOk(tasks, locks) && t in tasks && locks.dataWrite == Some(t) && Ordered(task')
    requires locks'.order == locks.order && locks'.dataWrite in {locks.dataWrite, None}
    ensures OrderOk(tasks[t := task'], locks')
  {
    assert t in locks.order;
  }

  lemma FragmentUninterrupted(tasks: map<TaskId, Task>, order: seq<TaskId>, link: Link, t: TaskId, task': Task, link': Link)
    requires 0 < link.frameSize && (forall u | u in order :: u in tasks) && NoDuplicates(order)
    requires |order| > 0 && order[|order| - 1] == t && t in tasks
    requires Uninterrupted(tasks, order, link) && !RefusesData(link) && link'.frameSize == link.frameSize
    requires forall i | 0 <= i < |order| - 1 :: !Partial(tasks[order[i]], link.frameSize)
    requires Stopped(task') ==> !Partial(task', link.frameSize)
    ensures Uninterrupted(tasks[t := task'], order, link')
  {
  }

  lemma FragmentFramed(s: State, t: TaskId, e: Effect)
    requires Disciplined(s) && Framed(s) && t in s.tasks
    requires s.tasks[t].pc.Sending? && SendsFragment(s.tasks[t], Send(Accepted))
    requires s.tasks[t].offset <= |s.tasks[t].op.data| && !RefusesData(s.link)
    requires e == SendingData(t, s.tasks[t], s.locks, s.link)
    ensures Framed(Put(s, t, e))
  {
    var task, size, order := s.tasks[t], s.link.frameSize, s.locks.order;
    assert Holds(t, task, s.locks);
    SendingDataFrames(t, task, s.locks, s.link);
    FragmentOnOrder(s.tasks, s.locks, t, e.task);
    OrderFragment(s.tasks, s.locks, t, e.task, e.locks);
    if !TokenCancelled(s) {
      forall i | 0 <= i < |order| - 1
        ensures !Partial(s.tasks[order[i]], size)
      {
        EarlierWhole(s, t, i);
      }
      FragmentUninterrupted(s.tasks, order, s.link, t, e.task, e.link);
    }
  }

  // -------------------------------------------------------------------- steps

  /** Only `TakeData` hands out `data_write`; a section that gives up in mid-message was refused by the sink. */
  lemma SectionQuiet(t: TaskId, task: Task, locks: Locks, link: Link, section: Section)
    requires Holds(t, task, locks) && CanRun(t, task, locks, link, section)
    requires section != TakeData && !SendsFragment(task, section)
    ensures var e := RunSection(t, task, locks, link, section);
            && e.locks.order == locks.order
            && e.locks.dataWrite in {locks.dataWrite, None}
            && !e.task.pc.Called? && !e.task.pc.NeedData?
  {
  }

  lemma SectionRefused(t: TaskId, task: Task, locks: Locks, link: Link, section: Section)
    requires Holds(t, task, locks) && CanRun(t, task, locks, link, section)
    requires section != TakeData && !SendsFragment(task, section)
    requires task.emitted != [] ==> link.hasWriter
    ensures var e := RunSection(t, task, locks, link, section);
            && e.link.hasWriter == link.hasWriter
            && (e.task.pc.Sending? && !task.op.Read? ==> e.link.hasWriter)
            && (RefusesData(link) ==> RefusesData(e.link))
            && (Stopped(e.task) && e.task.op.WriteData? && e.task.emitted != [] ==> RefusesData(e.link))
  {
    hide Released, RepliesOnWire, ControlFrame, NextFrame;
  }

  lemma SectionFramed(s: State, t: TaskId, section: Section)
    requires Disciplined(s) && Framed(s) && t in s.tasks
    requires CanRun(t, s.tasks[t], s.locks, s.link, section) && s.tasks[t].polling
    requires section != TakeData && !SendsFragment(s.tasks[t], section)
    ensures Framed(Put(s, t, RunSection(t, s.tasks[t], s.locks, s.link, section)))
  {
    var task := s.tasks[t];
    assert Holds(t, task, s.locks) && WriterOk(task, s.link.frameSize);
    SectionFrames(t, task, s.locks, s.link, section);
    SectionQuiet(t, task, s.locks, s.link, section);
    SectionRefused(t, task, s.locks, s.link, section);
    var e := RunSection(t, task, s.locks, s.link, section);
    QuietStep(s, t, e.task, e.locks, e.link, s.conn, s.client);
  }

  lemma HappenFramed(s: State, t: TaskId, event: Event)
    requires Framed(s) && t in s.tasks && MayHappen(s, s.tasks[t], event)
    ensures Framed(s.(tasks := s.tasks[t := Happened(s.tasks[t], event)]))
  {
    var task := s.tasks[t];
    assert WriterOk(task, s.link.frameSize);
    BackOk(task, s.link.frameSize, Failed(Closed));
    BackOk(task, s.link.frameSize, Failed(InvalidInput));
    QuietStep(s, t, Happened(task, event), s.locks, s.link, s.conn, s.client);
  }

  lemma DropFramed(s: State, t: TaskId)
    requires Framed(s) && t in s.tasks && Running(s.tasks[t]) && TokenCancelled(s)
    ensures Framed(Put(s, t, Returning(t, s.tasks[t], s.locks, s.link, Failed(Closed))))
  {
    var task := s.tasks[t];
    assert WriterOk(task, s.link.frameSize);
    BackOk(task, s.link.frameSize, Failed(Closed));
    QuietStep(s, t, Back(task, Failed(Closed)), Released(s.locks, t), s.link, s.conn, s.client);
  }

  lemma FinishFramed(s: State, t: TaskId)
    requires Framed(s) && t in s.tasks && s.tasks[t].pc.Returned?
    ensures Framed(FinishCall(s, t))
  {
    var s' := FinishCall(s, t);
    assert WriterOk(s.tasks[t], s.link.frameSize);
    QuietStep(s, t, s'.tasks[t], s.locks, s.link, s'.conn, s'.client);
  }

  lemma CallFramed(s: State, t: TaskId, op: Op)
    requires Framed(s) && t !in s.tasks
    ensures Framed(s.(tasks := s.tasks[t := NewTask(op, s.conn)]))
  {
    QuietStep(s, t, NewTask(op, s.conn), s.locks, s.link, s.conn, s.client);
  }

  lemma LinkQuiet(link: Link, e: Env)
    requires WireOk(link) && (e == EmitReply ==> link.sink.replies != [])
    ensures QuietLink(link, EnvLink(link, e))
  {
    if e == EmitReply {
      WireSnoc(link.wire, OnWire(None, link.sink.replies[0]));
      FramesSnoc(link.wire, OnWire(None, link.sink.replies[0]));
    }
  }

  lemma AroundFramed(s: State, e: Env)
    requires Framed(s) && EnvMay(s, e)
    ensures Framed(s.(conn := EnvConn(s, e), client := EnvClient(s, e), link := EnvLink(s.link, e)))
  {
    LinkQuiet(s.link, e);
  }

  lemma StepFramed(s: State, l: Label)
    requires Disciplined(s) && Framed(s) && Enabled(s, l)
    ensures Framed(Apply(s, l))
  {
    match l
    case Call(t, op) => CallFramed(s, t, op);
    case Happen(t, event) => HappenFramed(s, t, event);
    case Drop(t) => DropFramed(s, t);
    case Finish(t) => FinishFramed(s, t);
    case Around(e) => AroundFramed(s, e);
    case Run(t, section) =>
      assert Holds(t, s.tasks[t], s.locks);
      if section == TakeData {
        var e := RunSection(t, s.tasks[t], s.locks, s.link, TakeData);
        TakeDataFramed(s, t, e.task, e.locks);
      } else if SendsFragment(s.tasks[t], section) {
        FragmentFramed(s, t, SendingData(t, s.tasks[t], s.locks, s.link));
      } else {
        SectionFramed(s, t, section);
      }
  }

  lemma {:induction false} AlwaysFramed(s: State, ls: seq<Label>)
    requires Disciplined(s) && Framed(s) && Runs(s, ls)
    ensures Disciplined(After(s, ls)) && Framed(After(s, ls))
    decreases |ls|
  {
    if ls != [] {
      StepDisciplined(s, ls[0]);
      StepFramed(s, ls[0]);
      AlwaysFramed(Apply(s, ls[0]), ls[1..]);
    }
  }

  // ----------------------------------------------------------------- results

  /** The messages whose writers have sent every fragment, in `data_write` order. */
  function Delivered(tasks: map<TaskId, Task>, order: seq<TaskId>, size: nat): seq<Message>
    requires 0 < size && forall t | t in order :: t in tasks
  {
    if order == [] then []
    else
      var task := tasks[order[|order| - 1]];
      Delivered(tasks, order[..|order| - 1], size) +
      (if Complete(task, size) then [Message(task.op.kind, task.op.data)] else [])
  }

  /** The message that has been started and not finished, as far as it has been sent. */
  function InProgress(tasks: map<TaskId, Task>, order: seq<TaskId>, size: nat): Option<Message>
    requires 0 < size && forall t | t in order :: t in tasks
  {
    if order == [] then None
    else
      var task := tasks[order[|order| - 1]];
      if Partial(task, size) then Some(Message(task.op.kind, Payload(task.emitted)))
      else if Complete(task, size) then None
      else InProgress(tasks, order[..|order| - 1], size)
  }

  lemma EmittedPrefix(task: Task, size: nat)
    requires 0 < size && WriterOk(task, size) && task.op.WriteData?
    ensures task.emitted <= AllFrames(task, size)
  {
  }

  lemma {:induction false} NothingOpen(tasks: map<TaskId, Task>, order: seq<TaskId>, size: nat)
    requires 0 < size && forall t | t in order :: t in tasks && !Partial(tasks[t], size)
    ensures InProgress(tasks, order, size) == None
  {
    if order != [] {
      NothingOpen(tasks, order[..|order| - 1], size);
    }
  }

  lemma LastReassembles(done: seq<Message>, before: seq<Frame>, task: Task, size: nat)
    requires 0 < size && task.op.WriteData? && WriterOk(task, size) && task.emitted != []
    requires Reassemble(before) == Assembly(done, None)
    ensures Reassemble(before + task.emitted) ==
            if Complete(task, size) then Assembly(done + [Message(task.op.kind, task.op.data)], None)
            else Assembly(done, Some(Message(task.op.kind, Payload(task.emitted))))
  {
    EmittedPrefix(task, size);
    var k := |task.emitted|;
    assert task.emitted == AllFrames(task, size)[..k];
    FeedAllConcat(Assembly([], None), before, task.emitted);
    FeedPrefix(done, task.op.kind, task.op.data, size, k);
  }

  lemma {:induction false} OrderReassembles(tasks: map<TaskId, Task>, order: seq<TaskId>, size: nat)
    requires 0 < size && Writers(tasks, size)
    requires forall t | t in order :: t in tasks && tasks[t].op.WriteData?
    requires OnlyLastPartial(tasks, order, size)
    ensures Reassemble(OnOrder(tasks, order)) == Assembly(Delivered(tasks, order, size), InProgress(tasks, order, size))
  {
    if order != [] {
      var front, task := order[..|order| - 1], tasks[order[|order| - 1]];
      OrderReassembles(tasks, front, size);
      if task.emitted == [] {
        assert OnOrder(tasks, order) == OnOrder(tasks, front);
        assert |AllFrames(task, size)| > 0;
      } else {
        assert forall t | t in front :: !Partial(tasks[t], size);
        NothingOpen(tasks, front, size);
        LastReassembles(Delivered(tasks, front, size), OnOrder(tasks, front), task, size);
      }
    }
  }

  lemma FramedReassembles(s: State)
    requires Disciplined(s) && Framed(s)
    ensures var size := s.link.frameSize;
            && (forall t | t in s.locks.order ::
                  t in s.tasks && s.tasks[t].op.WriteData? && s.tasks[t].emitted <= AllFrames(s.tasks[t], size))
            && (!TokenCancelled(s) ==>
                  && (forall t | t in s.tasks && Partial(s.tasks[t], size) ::
                        s.locks.dataWrite == Some(t) || RefusesData(s.link))
                  && Reassemble(Frames(s.link.wire))
                     == Assembly(Delivered(s.tasks, s.locks.order, size), InProgress(s.tasks, s.locks.order, size)))
  {
    var size := s.link.frameSize;
    forall t | t in s.locks.order
      ensures s.tasks[t].emitted <= AllFrames(s.tasks[t], size)
    {
      EmittedPrefix(s.tasks[t], size);
    }
    if !TokenCancelled(s) {
      ControlsTransparent(Frames(s.link.wire));
      OrderReassembles(s.tasks, s.locks.order, size);
      forall t | t in s.tasks && Partial(s.tasks[t], size)
        ensures s.locks.dataWrite == Some(t) || RefusesData(s.link)
      {
        assert Holds(t, s.tasks[t], s.locks) && WriterOk(s.tasks[t], size);
      }
    }
  }

  /**
    For every interleaving of any number of calls: the data frames on the wire are
    what each writer sent, in `data_write` order, and each writer has sent a prefix
    of its fragmentation. Until the token is cancelled only the last of them can be
    partial, it belongs to the holder of `data_write` or was cut off by a sink that
    takes no more data, and a receiver that accepts controls at any boundary ends
    up with exactly the completed messages, byte for byte.
   */
  lemma WireFraming(frameSize: nat, ls: seq<Label>)
    requires 0 < frameSize && Runs(Init(frameSize), ls)
    ensures var s := After(Init(frameSize), ls);
            && s.link.frameSize == frameSize
            && NoDuplicates(s.locks.order)
            && (forall t | t in s.locks.order ::
                  t in s.tasks && s.tasks[t].op.WriteData? && s.tasks[t].emitted <= AllFrames(s.tasks[t], frameSize))
            && DataFrames(Frames(s.link.wire)) == OnOrder(s.tasks, s.locks.order)
            && (!TokenCancelled(s) ==>
                  && OnlyLastPartial(s.tasks, s.locks.order, frameSize)
                  && (forall t | t in s.tasks && Partial(s.tasks[t], frameSize) ::
                        s.locks.dataWrite == Some(t) || RefusesData(s.link))
                  && Reassemble(Frames(s.link.wire))
                     == Assembly(Delivered(s.tasks, s.locks.order, frameSize), InProgress(s.tasks, s.locks.order, frameSize)))
  {
    AlwaysFramed(Init(frameSize), ls);
    SizeKept(Init(frameSize), ls);
    var s := After(Init(frameSize), ls);
    FramedReassembles(s);
  }

  lemma {:induction false} CompleteDelivered(tasks: map<TaskId, Task>, order: seq<TaskId>, size: nat, t: TaskId)
    requires 0 < size && (forall u | u in order :: u in tasks) && t in order && Complete(tasks[t], size)
    ensures Message(tasks[t].op.kind, tasks[t].op.data) in Delivered(tasks, order, size)
  {
    if order[|order| - 1] != t {
      CompleteDelivered(tasks, order[..|order| - 1], size, t);
    }
  }

  /** A data write that reports success has been delivered whole, if nothing was cancelled. */
  lemma SuccessMeansDelivered(frameSize: nat, ls: seq<Label>, t: TaskId)
    requires 0 < frameSize && Runs(Init(frameSize), ls)
    requires var s := After(Init(frameSize), ls);
             !TokenCancelled(s) && t in s.tasks && s.tasks[t].op.WriteData? && Succeeded(s.tasks[t])
    ensures var s := After(Init(frameSize), ls);
            var a := Reassemble(Frames(s.link.wire));
            a.Assembly? && Message(s.tasks[t].op.kind, s.tasks[t].op.data) in a.complete
  {
    AlwaysFramed(Init(frameSize), ls);
    var s := After(Init(frameSize), ls);
    SizeKept(Init(frameSize), ls);
    FramedReassembles(s);
    assert WriterOk(s.tasks[t], frameSize) && |AllFrames(s.tasks[t], frameSize)| > 0;
    CompleteDelivered(s.tasks, s.locks.order, frameSize, t);
  }
}
