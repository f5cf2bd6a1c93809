/** The lock discipline that every run keeps. */
module ConnectionLocks {
  import opened Bytes
  import opened Fragmentation
  import opened Connection

  ghost predicate NoDuplicates(queue: seq<TaskId>) {
    forall i, j | 0 <= i < j < |queue| :: queue[i] != queue[j]
  }

  /** Which locks a task holds is decided by its program counter, and the other way round. */
  predicate Holds(t: TaskId, task: Task, locks: Locks) {
    && (HoldsReader(task) <==> locks.reader == Some(t))
    && (HoldsData(task) <==> locks.dataWrite == Some(t))
    && (HoldsWriter(task) <==> locks.writer == Some(t))
    && (HoldsGate(task) && Shared(task) <==> t in locks.gate.shared)
    && (HoldsGate(task) && !Shared(task) <==> locks.gate.exclusive == Some(t))
    && (task.pc.Queued? <==> t in locks.gate.queue)
    && (task.polling ==> Running(task))
    && (task.pc.NeedData? ==> task.op.WriteData?)
    && (task.pc.NeedReader? || task.pc.Receiving? || task.pc.Storing? ==> task.op.Read?)
    && (task.pc.Storing? ==> task.taken.kind == CLOSE)
  }

  ghost predicate GateShape(gate: Gate) {
    && NoDuplicates(gate.queue)
    && (gate.exclusive.Some? ==> gate.shared == {})
  }

  /** Every lock and every place in the queue belongs to a task. */
  predicate Owned(tasks: map<TaskId, Task>, locks: Locks) {
    && (locks.reader.Some? ==> locks.reader.value in tasks)
    && (locks.dataWrite.Some? ==> locks.dataWrite.value in tasks)
    && (locks.writer.Some? ==> locks.writer.value in tasks)
    && (locks.gate.exclusive.Some? ==> locks.gate.exclusive.value in tasks)
    && (forall u | u in locks.gate.shared :: u in tasks)
    && (forall u | u in locks.gate.queue :: u in tasks)
  }

  ghost predicate Disciplined(s: State) {
    && (forall t | t in s.tasks :: Holds(t, s.tasks[t], s.locks))
    && Owned(s.tasks, s.locks)
    && GateShape(s.locks.gate)
    && (s.link.hasReader ==> s.link.hasWriter)
  }

  /** Nothing changes for any task but `t`. */
  ghost predicate OthersKept(locks: Locks, locks': Locks, t: TaskId) {
    forall u | u != t ::
      && (locks'.reader == Some(u) <==> locks.reader == Some(u))
      && (locks'.dataWrite == Some(u) <==> locks.dataWrite == Some(u))
      && (locks'.writer == Some(u) <==> locks.writer == Some(u))
      && (locks'.gate.exclusive == Some(u) <==> locks.gate.exclusive == Some(u))
      && (u in locks'.gate.shared <==> u in locks.gate.shared)
      && (u in locks'.gate.queue <==> u in locks.gate.queue)
  }

  lemma {:induction false} RemoveContents(queue: seq<TaskId>, t: TaskId)
    ensures forall u :: u in Remove(queue, t) <==> u in queue && u != t
    ensures NoDuplicates(queue) ==> NoDuplicates(Remove(queue, t))
  {
    if queue != [] {
      RemoveContents(queue[1..], t);
      var rest := Remove(queue[1..], t);
      assert forall u :: u in queue <==> u == queue[0] || u in queue[1..];
      if NoDuplicates(queue) {
        assert NoDuplicates(queue[1..]);
        assert queue[0] !in queue[1..];
      }
    }
  }

  lemma ReleaseKeeps(locks: Locks, t: TaskId)
    requires GateShape(locks.gate)
    ensures OthersKept(locks, Released(locks, t), t) && GateShape(Released(locks, t).gate)
    ensures var r := Released(locks, t);
            && r.reader != Some(t) && r.dataWrite != Some(t) && r.writer != Some(t)
            && r.gate.exclusive != Some(t) && t !in r.gate.shared && t !in r.gate.queue
  {
    RemoveContents(locks.gate.queue, t);
  }

  ghost predicate GoodEffect(t: TaskId, locks: Locks, e: Effect) {
    Holds(t, e.task, e.locks) && OthersKept(locks, e.locks, t) && GateShape(e.locks.gate)
  }

  lemma ReturningGood(t: TaskId, task: Task, locks: Locks, link: Link, native: Native)
    requires GateShape(locks.gate)
    ensures GoodEffect(t, locks, Returning(t, task, locks, link, native))
  {
    ReleaseKeeps(locks, t);
  }

  lemma QueueingGood(t: TaskId, task: Task, locks: Locks, link: Link)
    requires Holds(t, task, locks) && GateShape(locks.gate) && task.polling
    requires CanRun(t, task, locks, link, QueueGate)
    ensures GoodEffect(t, locks, RunSection(t, task, locks, link, QueueGate))
  {
  }

  lemma EnteringGood(t: TaskId, task: Task, locks: Locks, link: Link)
    requires Holds(t, task, locks) && GateShape(locks.gate) && task.polling
    requires CanRun(t, task, locks, link, EnterGate)
    ensures GoodEffect(t, locks, EnteringGate(t, task, locks, link))
  {
    var q := locks.gate.queue;
    assert t !in q[1..];
    assert forall u :: u in q <==> u == t || u in q[1..];
  }

  lemma SendingDataGood(t: TaskId, task: Task, locks: Locks, link: Link)
    requires Holds(t, task, locks) && GateShape(locks.gate) && task.polling
    requires task.pc.Sending? && task.op.WriteData? && task.offset <= |task.op.data|
    ensures GoodEffect(t, locks, SendingData(t, task, locks, link))
  {
    ReleaseKeeps(locks, t);
  }

  lemma ReceivedGood(t: TaskId, task: Task, locks: Locks, link: Link, incoming: Incoming)
    requires Holds(t, task, locks) && GateShape(locks.gate) && task.polling && task.pc.Receiving?
    ensures GoodEffect(t, locks, HandleIncoming(t, task, locks, link, incoming))
  {
    ReleaseKeeps(locks, t);
  }

  lemma SectionGood(t: TaskId, task: Task, locks: Locks, link: Link, section: Section)
    requires Holds(t, task, locks) && GateShape(locks.gate) && task.polling
    requires CanRun(t, task, locks, link, section)
    ensures GoodEffect(t, locks, RunSection(t, task, locks, link, section))
  {
    hide Released, NoDuplicates;
    match section
    case QueueGate => QueueingGood(t, task, locks, link);
    case EnterGate => EnteringGood(t, task, locks, link);
    case Receive(incoming) => ReceivedGood(t, task, locks, link, incoming);
    case TakeReader => ReleaseKeeps(locks, t);
    case TakeWriter => ReleaseKeeps(locks, t);
    case Send(Accepted) =>
      if task.op.WriteData? {
        SendingDataGood(t, task, locks, link);
      } else {
        ReleaseKeeps(locks, t);
      }
    case Send(Refused(e)) => ReleaseKeeps(locks, t);
    case Flush(_) => ReleaseKeeps(locks, t);
    case _ =>
  }

  lemma PutDisciplined(s: State, t: TaskId, e: Effect)
    requires Disciplined(s) && t in s.tasks && GoodEffect(t, s.locks, e)
    requires e.link.hasReader == s.link.hasReader && e.link.hasWriter == s.link.hasWriter
    ensures Disciplined(Put(s, t, e))
  {
    var s' := Put(s, t, e);
    forall u | u in s'.tasks
      ensures Holds(u, s'.tasks[u], s'.locks)
    {
      if u != t {
        assert Holds(u, s.tasks[u], s.locks);
      }
    }
    forall u | u in e.locks.gate.shared || u in e.locks.gate.queue
      ensures u in s.tasks
    {
    }
  }

  lemma SectionLink(t: TaskId, task: Task, locks: Locks, link: Link, section: Section)
    requires CanRun(t, task, locks, link, section)
    ensures var e := RunSection(t, task, locks, link, section);
            && e.link.hasReader == link.hasReader && e.link.hasWriter == link.hasWriter
            && e.link.frameSize == link.frameSize
  {
  }

  lemma StepSize(s: State, l: Label)
    requires Enabled(s, l)
    ensures Apply(s, l).link.frameSize == s.link.frameSize
  {
    hide OperationResult, Released;
    if l.Run? {
      SectionLink(l.t, s.tasks[l.t], s.locks, s.link, l.section);
    }
  }

  lemma {:induction false} SizeKept(s: State, ls: seq<Label>)
    requires Runs(s, ls)
    ensures After(s, ls).link.frameSize == s.link.frameSize
    decreases |ls|
  {
    hide Apply;
    if ls != [] {
      StepSize(s, ls[0]);
      SizeKept(Apply(s, ls[0]), ls[1..]);
    }
  }

  lemma HappenDisciplined(s: State, t: TaskId, event: Event)
    requires Disciplined(s) && t in s.tasks && MayHappen(s, s.tasks[t], event)
    ensures Disciplined(s.(tasks := s.tasks[t := Happened(s.tasks[t], event)]))
  {
    assert Holds(t, s.tasks[t], s.locks);
    PutDisciplined(s, t, Effect(Happened(s.tasks[t], event), s.locks, s.link));
  }

  lemma FinishDisciplined(s: State, t: TaskId)
    requires Disciplined(s) && t in s.tasks && s.tasks[t].pc.Returned?
    ensures Disciplined(FinishCall(s, t))
  {
    assert Holds(t, s.tasks[t], s.locks);
    PutDisciplined(s, t, Effect(FinishCall(s, t).tasks[t], s.locks, s.link));
  }

  lemma CallDisciplined(s: State, t: TaskId, op: Op)
    requires Disciplined(s) && t !in s.tasks
    ensures Disciplined(s.(tasks := s.tasks[t := NewTask(op, s.conn)]))
  {
  }

  lemma AroundDisciplined(s: State, e: Env)
    requires Disciplined(s) && EnvMay(s, e)
    ensures Disciplined(s.(conn := EnvConn(s, e), client := EnvClient(s, e), link := EnvLink(s.link, e)))
  {
  }

  lemma StepDisciplined(s: State, l: Label)
    requires Disciplined(s) && Enabled(s, l)
    ensures Disciplined(Apply(s, l))
  {
    match l
    case Run(t, section) =>
      SectionGood(t, s.tasks[t], s.locks, s.link, section);
      SectionLink(t, s.tasks[t], s.locks, s.link, section);
      PutDisciplined(s, t, RunSection(t, s.tasks[t], s.locks, s.link, section));
    case Drop(t) =>
      ReturningGood(t, s.tasks[t], s.locks, s.link, Failed(Closed));
      PutDisciplined(s, t, Returning(t, s.tasks[t], s.locks, s.link, Failed(Closed)));
    case Happen(t, event) => HappenDisciplined(s, t, event);
    case Finish(t) => FinishDisciplined(s, t);
    case Call(t, op) => CallDisciplined(s, t, op);
    case Around(e) => AroundDisciplined(s, e);
  }

  /** Every reachable state keeps the lock discipline. */
  lemma {:induction false} AlwaysDisciplined(s: State, ls: seq<Label>)
    requires Disciplined(s) && Runs(s, ls)
    ensures Disciplined(After(s, ls))
    decreases |ls|
  {
    if ls != [] {
      StepDisciplined(s, ls[0]);
      AlwaysDisciplined(Apply(s, ls[0]), ls[1..]);
    }
  }
}
