/** A waiting control write or acknowledgement is overtaken by at most one data fragment. */
module ConnectionOvertaking {
  import opened Bytes
  import opened Fragmentation
  import opened Connection
  import opened ConnectionLocks
  import opened ConnectionFraming

  /** `h` stands in the queue before the first `w`. */
  predicate IsAhead(queue: seq<TaskId>, h: TaskId, w: TaskId) {
    queue != [] && queue[0] != w && (queue[0] == h || IsAhead(queue[1..], h, w))
  }

  lemma {:induction false} AheadAfterAppend(queue: seq<TaskId>, x: TaskId, h: TaskId, w: TaskId)
    requires w in queue
    ensures IsAhead(queue + [x], h, w) ==> IsAhead(queue, h, w)
  {
    if queue[0] != w && queue[0] != h {
      AheadAfterAppend(queue[1..], x, h, w);
      assert (queue + [x])[1..] == queue[1..] + [x];
    }
  }

  lemma {:induction false} AheadAfterRemove(queue: seq<TaskId>, x: TaskId, h: TaskId, w: TaskId)
    requires x != w
    ensures IsAhead(Remove(queue, x), h, w) ==> IsAhead(queue, h, w)
  {
    if queue != [] {
      AheadAfterRemove(queue[1..], x, h, w);
      if queue[0] != x {
        assert Remove(queue, x)[1..] == Remove(queue[1..], x);
      }
    }
  }

  lemma {:induction false} AheadInQueue(queue: seq<TaskId>, h: TaskId, w: TaskId)
    requires IsAhead(queue, h, w)
    ensures h in queue
  {
    if queue[0] != h {
      AheadInQueue(queue[1..], h, w);
    }
  }

  /** A control write, or a reader about to flush, that has asked for the gate and not finished with it. */
  predicate Waiting(tasks: map<TaskId, Task>, w: TaskId) {
    w in tasks && !tasks[w].op.WriteData? && tasks[w].pc in {Queued, NeedWriter, Sending}
  }

  /** The fragments that can still be sent before `w` is served: at most the one the gate has already admitted. */
  function Threat(tasks: map<TaskId, Task>, locks: Locks, w: TaskId): nat {
    if w in tasks && tasks[w].pc.Queued? && locks.dataWrite.Some? && locks.dataWrite.value in tasks then
      var h := locks.dataWrite.value;
      if HoldsGate(tasks[h]) || (tasks[h].pc.Queued? && IsAhead(locks.gate.queue, h, w)) then 1 else 0
    else 0
  }

  function DataCount(link: Link): nat {
    |DataFrames(Frames(link.wire))|
  }

  /** Releasing the locks of a task other than `w` does not put anyone in front of `w`. */
  lemma ThreatReleased(tasks: map<TaskId, Task>, locks: Locks, t: TaskId, task': Task, w: TaskId)
    requires t in tasks && t != w && !HoldsGate(task') && !task'.pc.Queued?
    ensures Threat(tasks[t := task'], Released(locks, t), w) <= Threat(tasks, locks, w)
  {
    if locks.dataWrite.Some? {
      AheadAfterRemove(locks.gate.queue, t, locks.dataWrite.value, w);
    }
  }

  /** A task that neither holds the gate nor queues for it, before or after, is no threat. */
  lemma ThreatBystander(tasks: map<TaskId, Task>, locks: Locks, t: TaskId, task': Task, w: TaskId)
    requires w in tasks && Owned(tasks, locks)
    requires t in tasks ==> task'.pc.Queued? == tasks[t].pc.Queued? && HoldsGate(task') == HoldsGate(tasks[t])
    requires t !in tasks ==> !task'.pc.Queued? && !HoldsGate(task')
    ensures Threat(tasks[t := task'], locks, w) <= Threat(tasks, locks, w)
  {
  }

  lemma ThreatQueue(tasks: map<TaskId, Task>, locks: Locks, link: Link, t: TaskId, w: TaskId)
    requires t in tasks && Waiting(tasks, w) && t != w && Holds(w, tasks[w], locks) && Holds(t, tasks[t], locks)
    requires CanRun(t, tasks[t], locks, link, QueueGate)
    ensures var e := RunSection(t, tasks[t], locks, link, QueueGate);
            Threat(tasks[t := e.task], e.locks, w) <= Threat(tasks, locks, w)
  {
    if locks.dataWrite.Some? && tasks[w].pc.Queued? {
      var h := locks.dataWrite.value;
      AheadAfterAppend(locks.gate.queue, t, h, w);
      if IsAhead(locks.gate.queue, h, w) {
        AheadInQueue(locks.gate.queue, h, w);
      }
    }
  }

  lemma ThreatEnter(tasks: map<TaskId, Task>, locks: Locks, link: Link, t: TaskId, w: TaskId)
    requires t in tasks && Waiting(tasks, w) && Holds(w, tasks[w], locks) && Holds(t, tasks[t], locks)
    requires CanRun(t, tasks[t], locks, link, EnterGate)
    ensures var e := RunSection(t, tasks[t], locks, link, EnterGate);
            Threat(tasks[t := e.task], e.locks, w) <= Threat(tasks, locks, w)
  {
  }

  /** A fragment is sent by the holder of the gate, and that uses the threat up. */
  lemma ThreatFragment(tasks: map<TaskId, Task>, locks: Locks, link: Link, t: TaskId, w: TaskId)
    requires t in tasks && Waiting(tasks, w) && Holds(w, tasks[w], locks) && Holds(t, tasks[t], locks)
    requires GateShape(locks.gate) && tasks[t].pc.Sending? && tasks[t].op.WriteData?
    requires tasks[t].offset <= |tasks[t].op.data|
    ensures var e := SendingData(t, tasks[t], locks, link);
            && Threat(tasks, locks, w) == 1
            && Threat(tasks[t := e.task], e.locks, w) == 0
  {
  }

  lemma ThreatOther(tasks: map<TaskId, Task>, locks: Locks, link: Link, t: TaskId, section: Section, w: TaskId)
    requires t in tasks && t != w && Waiting(tasks, w) && Holds(w, tasks[w], locks) && Holds(t, tasks[t], locks)
    requires CanRun(t, tasks[t], locks, link, section)
    requires section != QueueGate && section != EnterGate && !SendsFragment(tasks[t], section)
    ensures var e := RunSection(t, tasks[t], locks, link, section);
            Threat(tasks[t := e.task], e.locks, w) <= Threat(tasks, locks, w)
  {
    var e := RunSection(t, tasks[t], locks, link, section);
    if e.task.pc.Returned? {
      ThreatReleased(tasks, locks, t, e.task, w);
    }
  }

  lemma WaiterMoves(tasks: map<TaskId, Task>, locks: Locks, link: Link, w: TaskId, section: Section)
    requires Waiting(tasks, w) && CanRun(w, tasks[w], locks, link, section) && section != EnterGate
    ensures var e := RunSection(w, tasks[w], locks, link, section);
            Waiting(tasks[w := e.task], w) ==> Threat(tasks[w := e.task], e.locks, w) == 0
  {
  }

  lemma SectionThreat(s: State, t: TaskId, section: Section, w: TaskId)
    requires Disciplined(s) && Framed(s) && t in s.tasks && Waiting(s.tasks, w)
    requires CanRun(t, s.tasks[t], s.locks, s.link, section) && s.tasks[t].polling
    ensures var e := RunSection(t, s.tasks[t], s.locks, s.link, section);
            Waiting(s.tasks[t := e.task], w) ==>
              DataCount(e.link) + Threat(s.tasks[t := e.task], e.locks, w) <= DataCount(s.link) + Threat(s.tasks, s.locks, w)
  {
    assert Holds(t, s.tasks[t], s.locks) && Holds(w, s.tasks[w], s.locks);
    assert WriterOk(s.tasks[t], s.link.frameSize);
    SectionFrames(t, s.tasks[t], s.locks, s.link, section);
    if SendsFragment(s.tasks[t], section) {
      ThreatFragment(s.tasks, s.locks, s.link, t, w);
    } else if section == EnterGate {
      ThreatEnter(s.tasks, s.locks, s.link, t, w);
    } else if t == w {
      WaiterMoves(s.tasks, s.locks, s.link, w, section);
    } else if section == QueueGate {
      ThreatQueue(s.tasks, s.locks, s.link, t, w);
    } else {
      ThreatOther(s.tasks, s.locks, s.link, t, section, w);
    }
  }

  lemma DropThreat(tasks: map<TaskId, Task>, locks: Locks, t: TaskId, w: TaskId)
    requires t in tasks
    ensures var task' := Back(tasks[t], Failed(Closed));
            Waiting(tasks[t := task'], w) ==>
              Threat(tasks[t := task'], Released(locks, t), w) <= Threat(tasks, locks, w)
  {
    if t != w {
      ThreatReleased(tasks, locks, t, Back(tasks[t], Failed(Closed)), w);
    }
  }

  lemma AroundThreat(s: State, e: Env, w: TaskId)
    requires Framed(s) && EnvMay(s, e)
    ensures DataCount(EnvLink(s.link, e)) == DataCount(s.link)
  {
    LinkQuiet(s.link, e);
  }

  lemma StepThreat(s: State, l: Label, w: TaskId)
    requires Disciplined(s) && Framed(s) && Enabled(s, l) && Waiting(s.tasks, w)
    ensures var s' := Apply(s, l);
            Waiting(s'.tasks, w) ==>
              DataCount(s'.link) + Threat(s'.tasks, s'.locks, w) <= DataCount(s.link) + Threat(s.tasks, s.locks, w)
  {
    hide RunSection, Threat, DataCount, CanRun, Framed, OperationResult;
    match l
    case Run(t, section) => SectionThreat(s, t, section, w);
    case Drop(t) => DropThreat(s.tasks, s.locks, t, w);
    case Around(e) => AroundThreat(s, e, w);
    case Happen(t, event) =>
      assert Holds(t, s.tasks[t], s.locks);
      ThreatBystander(s.tasks, s.locks, t, Happened(s.tasks[t], event), w);
    case Finish(t) => ThreatBystander(s.tasks, s.locks, t, FinishCall(s, t).tasks[t], w);
    case Call(t, op) => ThreatBystander(s.tasks, s.locks, t, Apply(s, l).tasks[t], w);
  }

  /** `w` has not finished with the gate in any state of the run. */
  predicate WaitsThroughout(s: State, ls: seq<Label>, w: TaskId)
    requires Runs(s, ls)
    decreases |ls|
  {
    Waiting(s.tasks, w) && (ls == [] || WaitsThroughout(Apply(s, ls[0]), ls[1..], w))
  }

  lemma {:induction false} ThreatBounds(s: State, ls: seq<Label>, w: TaskId)
    requires Disciplined(s) && Framed(s) && Runs(s, ls) && WaitsThroughout(s, ls, w)
    ensures DataCount(After(s, ls).link) <= DataCount(s.link) + Threat(s.tasks, s.locks, w)
    decreases |ls|
  {
    if ls != [] {
      StepDisciplined(s, ls[0]);
      StepFramed(s, ls[0]);
      StepThreat(s, ls[0], w);
      ThreatBounds(Apply(s, ls[0]), ls[1..], w);
    }
  }

  /**
    From any reachable state, for as long as a control write or a reader's flush is
    in the queue of the gate or holds it, at most one more data fragment reaches the
    wire, however long the messages are and however many writers there are; once it
    holds the gate there is none.
   */
  lemma BoundedOvertaking(frameSize: nat, before: seq<Label>, ls: seq<Label>, w: TaskId)
    requires 0 < frameSize && Runs(Init(frameSize), before)
    requires Runs(After(Init(frameSize), before), ls) && WaitsThroughout(After(Init(frameSize), before), ls, w)
    ensures var s := After(Init(frameSize), before);
            && DataCount(After(s, ls).link) <= DataCount(s.link) + 1
            && (!s.tasks[w].pc.Queued? ==> DataCount(After(s, ls).link) <= DataCount(s.link))
  {
    AlwaysFramed(Init(frameSize), before);
    ThreatBounds(After(Init(frameSize), before), ls, w);
  }
}
