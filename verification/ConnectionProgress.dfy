/** Lock order, absence of deadlock, and the bound on every call's sections. */
module ConnectionProgress {
  import opened Bytes
  import opened Fragmentation
  import opened Connection
  import opened ConnectionLocks

  datatype Lock = ReaderLock | DataLock | GateLock | WriterLock

  function Rank(lock: Lock): nat {
    match lock
    case ReaderLock => 0
    case DataLock => 0
    case GateLock => 1
    case WriterLock => 2
  }

  predicate Owns(locks: Locks, t: TaskId, lock: Lock) {
    match lock
    case ReaderLock => locks.reader == Some(t)
    case DataLock => locks.dataWrite == Some(t)
    case GateLock => locks.gate.exclusive == Some(t) || t in locks.gate.shared
    case WriterLock => locks.writer == Some(t)
  }

  predicate Awaits(task: Task, lock: Lock) {
    match lock
    case ReaderLock => task.pc.NeedReader?
    case DataLock => task.pc.NeedData?
    case GateLock => task.pc.NeedGate? || task.pc.Queued?
    case WriterLock => task.pc.NeedWriter?
  }

  predicate Before(queue: seq<TaskId>, u: TaskId, t: TaskId) {
    exists i, j | 0 <= i < j < |queue| :: queue[i] == u && queue[j] == t
  }

  /** `t` cannot run its next section before `u` has moved. */
  predicate WaitsFor(t: TaskId, task: Task, locks: Locks, u: TaskId) {
    || (task.pc.NeedReader? && Owns(locks, u, ReaderLock))
    || (task.pc.NeedData? && Owns(locks, u, DataLock))
    || (task.pc.NeedWriter? && Owns(locks, u, WriterLock))
    || (task.pc.Queued? && (Owns(locks, u, GateLock) || Before(locks.gate.queue, u, t)))
  }

  /** Locks are requested in the order {reader, data_write}, control_gate, writer on every path. */
  lemma LockOrder(frameSize: nat, ls: seq<Label>, t: TaskId, owned: Lock, awaited: Lock)
    requires Runs(Init(frameSize), ls)
    requires var s := After(Init(frameSize), ls);
             t in s.tasks && Owns(s.locks, t, owned) && Awaits(s.tasks[t], awaited)
    ensures Rank(owned) < Rank(awaited)
  {
    AlwaysDisciplined(Init(frameSize), ls);
    var s := After(Init(frameSize), ls);
    assert Holds(t, s.tasks[t], s.locks);
  }

  function Position(queue: seq<TaskId>, t: TaskId): (i: nat)
    ensures i <= |queue|
    ensures t in queue ==> i < |queue| && queue[i] == t
  {
    if queue == [] || queue[0] == t then 0 else 1 + Position(queue[1..], t)
  }

  /** How far along the lock order a task stands; later in line means lower. */
  function Level(t: TaskId, task: Task, queue: seq<TaskId>): nat {
    match task.pc
    case Queued => 2 + |queue| - Position(queue, t)
    case NeedWriter => |queue| + 3
    case Sending => |queue| + 4
    case NeedReader => 0
    case NeedData => 0
    case _ => 1
  }

  /** The wait-for relation only climbs, so it has no cycle. */
  lemma WaitForClimbs(s: State, t: TaskId, u: TaskId)
    requires Disciplined(s) && t in s.tasks && WaitsFor(t, s.tasks[t], s.locks, u)
    ensures u in s.tasks && Running(s.tasks[u])
    ensures Level(t, s.tasks[t], s.locks.gate.queue) < Level(u, s.tasks[u], s.locks.gate.queue)
  {
    assert Holds(t, s.tasks[t], s.locks);
    assert Holds(u, s.tasks[u], s.locks);
    var q := s.locks.gate.queue;
    if s.tasks[t].pc.Queued? && s.tasks[u].pc.Queued? {
      var i, j :| 0 <= i < j < |q| && q[i] == u && q[j] == t;
      assert Position(q, u) == i && Position(q, t) == j;
    }
  }

  /** What the network answers when it answers with an error. */
  function Answer(sink: Sink): SinkResult {
    Refused(if sink.closing then SendAfterClosing else Io(BrokenPipe))
  }

  function NextSection(task: Task, link: Link): Section
    requires Running(task)
  {
    match task.pc
    case NeedData => TakeData
    case NeedReader => TakeReader
    case Receiving => Receive(InEnd)
    case Storing => Store
    case NeedGate => QueueGate
    case Queued => EnterGate
    case NeedWriter => TakeWriter
    case _ => if task.op.Read? then Flush(Answer(link.sink)) else Send(Answer(link.sink))
  }

  predicate OffsetOk(task: Task) {
    task.op.WriteData? && Running(task) ==> task.offset <= |task.op.data|
  }

  lemma FrontOrBehind(queue: seq<TaskId>, t: TaskId)
    requires t in queue
    ensures queue[0] == t || Before(queue, queue[0], t)
  {
    var j := Position(queue, t);
    if j > 0 {
      assert queue[0] == queue[0] && queue[j] == t;
    }
  }

  /** Who stands in front of a task, lock by lock. */
  lemma WhoStandsInFront(t: TaskId, task: Task, locks: Locks)
    requires Holds(t, task, locks)
    ensures task.pc.NeedReader? && locks.reader.Some? ==> WaitsFor(t, task, locks, locks.reader.value)
    ensures task.pc.NeedData? && locks.dataWrite.Some? ==> WaitsFor(t, task, locks, locks.dataWrite.value)
    ensures task.pc.NeedWriter? && locks.writer.Some? ==> WaitsFor(t, task, locks, locks.writer.value)
    ensures task.pc.Queued? ==>
              && (forall u | Owns(locks, u, GateLock) :: WaitsFor(t, task, locks, u))
              && (locks.gate.queue[0] == t || WaitsFor(t, task, locks, locks.gate.queue[0]))
  {
    if task.pc.Queued? {
      FrontOrBehind(locks.gate.queue, t);
    }
  }

  lemma QueueKnown(s: State, t: TaskId)
    requires Disciplined(s) && t in s.tasks
    ensures s.tasks[t].pc.Queued? ==> |s.locks.gate.queue| > 0 && s.locks.gate.queue[0] in s.tasks
    ensures forall u | Owns(s.locks, u, GateLock) :: u in s.tasks
  {
    assert Holds(t, s.tasks[t], s.locks);
    if s.tasks[t].pc.Queued? {
      assert s.locks.gate.queue[0] in s.locks.gate.queue;
    }
  }

  /** A task nothing stands in front of can run its next section. */
  lemma UnblockedRuns(s: State, t: TaskId)
    requires Disciplined(s) && t in s.tasks && Running(s.tasks[t]) && OffsetOk(s.tasks[t])
    requires forall u | u in s.tasks :: !WaitsFor(t, s.tasks[t], s.locks, u)
    ensures CanRun(t, s.tasks[t], s.locks, s.link, NextSection(s.tasks[t], s.link))
  {
    hide WaitsFor;
    assert Holds(t, s.tasks[t], s.locks);
    WhoStandsInFront(t, s.tasks[t], s.locks);
    QueueKnown(s, t);
  }

  /** From any running task the wait-for chain leads to one that can run. */
  lemma {:induction false} ChainEnds(s: State, t: TaskId) returns (u: TaskId)
    requires Disciplined(s) && t in s.tasks && Running(s.tasks[t])
    requires forall v | v in s.tasks :: OffsetOk(s.tasks[v])
    ensures u in s.tasks && Running(s.tasks[u])
    ensures CanRun(u, s.tasks[u], s.locks, s.link, NextSection(s.tasks[u], s.link))
    decreases |s.locks.gate.queue| + 5 - Level(t, s.tasks[t], s.locks.gate.queue)
  {
    if v :| v in s.tasks && WaitsFor(t, s.tasks[t], s.locks, v) {
      WaitForClimbs(s, t, v);
      u := ChainEnds(s, v);
    } else {
      UnblockedRuns(s, t);
      u := t;
    }
  }

  predicate OffsetsOk(s: State) {
    forall t | t in s.tasks :: OffsetOk(s.tasks[t]) && (s.tasks[t].pc.Called? ==> s.tasks[t].offset == 0)
  }

  lemma SectionOffset(t: TaskId, task: Task, locks: Locks, link: Link, section: Section)
    requires CanRun(t, task, locks, link, section) && OffsetOk(task)
    ensures var task' := RunSection(t, task, locks, link, section).task;
            OffsetOk(task') && task'.op == task.op && !task'.pc.Called?
  {
  }

  lemma StepOffsets(s: State, l: Label)
    requires OffsetsOk(s) && Enabled(s, l)
    ensures OffsetsOk(Apply(s, l))
  {
    match l
    case Run(t, section) => SectionOffset(t, s.tasks[t], s.locks, s.link, section);
    case _ =>
  }

  lemma {:induction false} AlwaysOffsets(s: State, ls: seq<Label>)
    requires OffsetsOk(s) && Runs(s, ls)
    ensures OffsetsOk(After(s, ls))
    decreases |ls|
  {
    if ls != [] {
      StepOffsets(s, ls[0]);
      AlwaysOffsets(Apply(s, ls[0]), ls[1..]);
    }
  }

  /** A poll of `t` is under way or can start, or is the one that drops the task. */
  predicate CanBePolled(s: State, t: TaskId) {
    t in s.tasks && (s.tasks[t].polling || Enabled(s, Happen(t, Poll)) || Enabled(s, Drop(t)))
  }

  /** A call that can move now: a lookup, a return to Go, or a section of a native task that can be polled. */
  predicate CanMove(s: State, t: TaskId) {
    && t in s.tasks
    && (|| Enabled(s, Happen(t, Enter))
        || Enabled(s, Happen(t, Miss))
        || Enabled(s, Happen(t, Reject))
        || Enabled(s, Finish(t))
        || (Running(s.tasks[t]) && CanBePolled(s, t)
            && CanRun(t, s.tasks[t], s.locks, s.link, NextSection(s.tasks[t], s.link))))
  }

  /** No reachable state is deadlocked: while any call is unfinished, some call can move. */
  lemma NoDeadlock(frameSize: nat, ls: seq<Label>, t: TaskId)
    requires Runs(Init(frameSize), ls)
    requires var s := After(Init(frameSize), ls); t in s.tasks && !s.tasks[t].pc.Finished?
    ensures var s := After(Init(frameSize), ls); exists u :: CanMove(s, u)
  {
    AlwaysDisciplined(Init(frameSize), ls);
    AlwaysOffsets(Init(frameSize), ls);
    var s := After(Init(frameSize), ls);
    if Running(s.tasks[t]) {
      var u := ChainEnds(s, t);
      assert CanMove(s, u);
    } else {
      assert CanMove(s, t);
    }
  }

  // ------------------------------------------------------------ termination

  /** The sections from a program counter to the return of the native call, if no fragment follows. */
  function Stage(pc: Pc): nat {
    match pc
    case NeedData => 5
    case NeedReader => 7
    case Receiving => 6
    case Storing => 5
    case NeedGate => 4
    case Queued => 3
    case NeedWriter => 2
    case Sending => 1
    case _ => 0
  }

  /** Four more sections for every fragment behind the next one. */
  function Later(op: Op, offset: nat, size: nat): nat
    requires 0 < size
  {
    if op.WriteData? && offset <= |op.data| then 4 * (|Fragments(op.kind, op.data, size, offset)| - 1) else 0
  }

  /** The sections a native task can still run, whatever the others do. */
  function Work(task: Task, size: nat): nat
    requires 0 < size
  {
    if Running(task) then Stage(task.pc) + Later(task.op, task.offset, size) else 0
  }

  lemma NextFragmentLess(kind: DataKind, data: seq<byte>, size: nat, offset: nat)
    requires 0 < size && offset <= |data| && FragmentEnd(|data|, size, offset) != |data|
    ensures |Fragments(kind, data, size, offset)| == 1 + |Fragments(kind, data, size, FragmentEnd(|data|, size, offset))|
  {
    FirstFragment(kind, data, size, offset);
  }

  /** Whether a label is a section of `t` that takes it further. */
  function Counts(l: Label, t: TaskId): nat {
    match l
    case Run(u, section) => if u == t && section != Receive(InFrame) then 1 else 0
    case _ => 0
  }

  /**
    Every section of a call uses up its own work; only raw frames, which `read`
    skips, are free.
   */
  lemma WorkDecreases(t: TaskId, task: Task, locks: Locks, link: Link, section: Section)
    requires CanRun(t, task, locks, link, section) && OffsetOk(task) && 0 < link.frameSize
    ensures var work' := Work(RunSection(t, task, locks, link, section).task, link.frameSize);
            Counts(Run(t, section), t) + work' <= Work(task, link.frameSize)
  {
    hide Released, ControlFrame, RepliesOnWire, Fragments, NextFrame;
    if section == Send(Accepted) && task.op.WriteData? {
      var end := FragmentEnd(|task.op.data|, link.frameSize, task.offset);
      if end != |task.op.data| {
        NextFragmentLess(task.op.kind, task.op.data, link.frameSize, task.offset);
      }
    }
  }

  /** The sections a call can run at all: seven to read, four to write a control frame, and one and four for every fragment. */
  function WorkOf(op: Op, size: nat): nat
    requires 0 < size
  {
    match op
    case Read => 7
    case WriteControl(_) => 4
    case WriteData(_, data) => 1 + 4 * if data == [] then 1 else (|data| + size - 1) / size
  }

  lemma FirstWork(op: Op, size: nat)
    requires 0 < size
    ensures Stage(FirstPc(op)) + Later(op, 0, size) == WorkOf(op, size)
  {
    if op.WriteData? {
      FragmentCount(op.kind, op.data, size);
    }
  }

  /** What is left of the work of call `t`, all of it before the native task has started. */
  function Budget(tasks: map<TaskId, Task>, t: TaskId, op: Op, size: nat): nat
    requires 0 < size
  {
    if t !in tasks || tasks[t].pc.Called? then WorkOf(op, size) else Work(tasks[t], size)
  }

  function Sections(ls: seq<Label>, t: TaskId): nat {
    if ls == [] then 0 else Counts(ls[0], t) + Sections(ls[1..], t)
  }

  lemma OthersAddNoWork(s: State, l: Label, t: TaskId)
    requires Enabled(s, l) && t in s.tasks && !s.tasks[t].pc.Called? && 0 < s.link.frameSize
    requires forall section :: l != Run(t, section)
    ensures Work(Apply(s, l).tasks[t], s.link.frameSize) <= Work(s.tasks[t], s.link.frameSize)
    ensures Apply(s, l).tasks[t].op == s.tasks[t].op && !Apply(s, l).tasks[t].pc.Called?
  {
    hide RunSection, OperationResult, Fragments;
  }

  /** A call that has not started its native task brings its whole budget. */
  lemma StartBudget(s: State, l: Label, t: TaskId)
    requires OffsetsOk(s) && Enabled(s, l) && 0 < s.link.frameSize
    requires (t in s.tasks ==> s.tasks[t].pc.Called?) && t in Apply(s, l).tasks
    ensures var op := Apply(s, l).tasks[t].op;
            && (t in s.tasks ==> s.tasks[t].op == op)
            && Counts(l, t) == 0 && Budget(Apply(s, l).tasks, t, op, s.link.frameSize) <= WorkOf(op, s.link.frameSize)
  {
    hide RunSection, OperationResult, Fragments, WorkOf;
    FirstWork(Apply(s, l).tasks[t].op, s.link.frameSize);
  }

  lemma SectionBudget(s: State, t: TaskId, section: Section)
    requires OffsetsOk(s) && Enabled(s, Run(t, section)) && 0 < s.link.frameSize && !s.tasks[t].pc.Called?
    ensures var task' := Apply(s, Run(t, section)).tasks[t];
            && task'.op == s.tasks[t].op && !task'.pc.Called?
            && Counts(Run(t, section), t) + Work(task', s.link.frameSize) <= Work(s.tasks[t], s.link.frameSize)
  {
    hide RunSection, Work;
    WorkDecreases(t, s.tasks[t], s.locks, s.link, section);
    SectionOffset(t, s.tasks[t], s.locks, s.link, section);
  }

  lemma StepBudget(s: State, l: Label, t: TaskId)
    requires OffsetsOk(s) && Enabled(s, l) && 0 < s.link.frameSize && t in Apply(s, l).tasks
    ensures var op, size := Apply(s, l).tasks[t].op, s.link.frameSize;
            && (t in s.tasks ==> s.tasks[t].op == op)
            && Counts(l, t) + Budget(Apply(s, l).tasks, t, op, size) <= Budget(s.tasks, t, op, size)
  {
    hide RunSection, Work, OperationResult, CanRun, WorkOf;
    if t !in s.tasks || s.tasks[t].pc.Called? {
      StartBudget(s, l, t);
    } else if l.Run? && l.t == t {
      SectionBudget(s, t, l.section);
    } else {
      OthersAddNoWork(s, l, t);
    }
  }

  lemma NotYetCalled(s: State, l: Label, t: TaskId)
    requires Enabled(s, l) && t !in Apply(s, l).tasks
    ensures t !in s.tasks && Counts(l, t) == 0
  {
    hide RunSection, OperationResult;
  }

  lemma {:induction false} RunBudget(s: State, ls: seq<Label>, t: TaskId)
    requires OffsetsOk(s) && 0 < s.link.frameSize && Runs(s, ls) && t in After(s, ls).tasks
    ensures var op, size := After(s, ls).tasks[t].op, s.link.frameSize;
            && (t in s.tasks ==> s.tasks[t].op == op)
            && Sections(ls, t) <= Budget(s.tasks, t, op, size)
    decreases |ls|
  {
    hide Apply, OffsetsOk, Work, WorkOf;
    if ls != [] {
      var s' := Apply(s, ls[0]);
      StepOffsets(s, ls[0]);
      StepSize(s, ls[0]);
      RunBudget(s', ls[1..], t);
      if t in s'.tasks {
        StepBudget(s, ls[0], t);
      } else {
        NotYetCalled(s, ls[0], t);
      }
    }
  }

  /**
    In every run, whatever the others do, a read runs at most seven sections, a
    control write four, and a data write one and four for every fragment of its
    message; raw frames that a read skips come on top.
   */
  lemma SectionsBounded(frameSize: nat, ls: seq<Label>, t: TaskId)
    requires 0 < frameSize && Runs(Init(frameSize), ls) && t in After(Init(frameSize), ls).tasks
    ensures Sections(ls, t) <= WorkOf(After(Init(frameSize), ls).tasks[t].op, frameSize)
  {
    RunBudget(Init(frameSize), ls, t);
  }
}
