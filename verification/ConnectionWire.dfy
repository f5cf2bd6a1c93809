/** Whose frames are on the wire: what each call has put there itself, and what the automatic replies answer. */
module ConnectionWire {
  import opened Bytes
  import opened Fragmentation
  import opened Connection
  import opened ConnectionLocks
  import opened ConnectionFraming

  // ----------------------------------------------------------- a call's own frames

  /** The frames call `t` has put on the wire, in order. */
  function Own(wire: seq<OnWire>, t: TaskId): seq<Frame> {
    if wire == [] then []
    else Own(wire[..|wire| - 1], t) + (if wire[|wire| - 1].owner == Some(t) then [wire[|wire| - 1].frame] else [])
  }

  lemma OwnSnoc(wire: seq<OnWire>, w: OnWire, t: TaskId)
    ensures Own(wire + [w], t) == Own(wire, t) + (if w.owner == Some(t) then [w.frame] else [])
  {
    assert (wire + [w])[..|wire|] == wire;
  }

  lemma {:induction false} OwnReplies(wire: seq<OnWire>, replies: seq<Frame>, t: TaskId)
    ensures Own(wire + RepliesOnWire(replies), t) == Own(wire, t)
    decreases |replies|
  {
    if replies == [] {
      assert wire + RepliesOnWire(replies) == wire;
    } else {
      OwnSnoc(wire, OnWire(None, replies[0]), t);
      OwnReplies(wire + [OnWire(None, replies[0])], replies[1..], t);
      assert wire + RepliesOnWire(replies) == (wire + [OnWire(None, replies[0])]) + RepliesOnWire(replies[1..]);
    }
  }

  /** A control frame as section 5.5 of RFC 6455 has it: never fragmented, and short. */
  function Wanted(control: Control): Frame {
    match control
    case Ping(payload) => Frame(OpPing, payload, true)
    case Pong(payload) => Frame(OpPong, payload, true)
    case Close(payload) => Frame(OpClose, payload, true)
  }

  /** A read sends nothing, a data write what it has recorded, a control write nothing or its one frame. */
  predicate OwnOk(task: Task, own: seq<Frame>) {
    match task.op
    case Read => own == []
    case WriteData(_, _) => own == task.emitted
    case WriteControl(control) =>
      && (own == [] || (own == [Wanted(control)] && |control.payload| <= 125))
      && (Succeeded(task) ==> own != [])
      && (!Stopped(task) ==> own == [])
      && (Running(task) ==> |control.payload| <= 125)
  }

  ghost predicate OwnedOk(tasks: map<TaskId, Task>, wire: seq<OnWire>) {
    && (forall t | t in tasks :: OwnOk(tasks[t], Own(wire, t)))
    && (forall t | t !in tasks :: Own(wire, t) == [])
  }

  /** The frames a section sends for its own call. */
  function SentBy(task: Task, link: Link, section: Section): seq<Frame> {
    if section != Send(Accepted) then []
    else match task.op
         case Read => []
         case WriteControl(control) => [ControlFrame(control)]
         case WriteData(_, data) => if task.offset <= |data| then [NextFrame(task, link)] else []
  }

  /** What a section puts on the wire. */
  function Added(t: TaskId, task: Task, link: Link, section: Section): seq<OnWire> {
    if section == Flush(Accepted) then RepliesOnWire(link.sink.replies)
    else if SentBy(task, link, section) == [] then []
    else [OnWire(Some(t), SentBy(task, link, section)[0])]
  }

  lemma SectionWire(t: TaskId, task: Task, locks: Locks, link: Link, section: Section)
    requires CanRun(t, task, locks, link, section)
    ensures RunSection(t, task, locks, link, section).link.wire == link.wire + Added(t, task, link, section)
  {
    hide Released, FromWsError, WriteError, NextFrame, ControlFrame, RepliesOnWire;
  }

  lemma OwnAdded(t: TaskId, task: Task, locks: Locks, link: Link, section: Section, u: TaskId)
    requires CanRun(t, task, locks, link, section)
    ensures var wire' := RunSection(t, task, locks, link, section).link.wire;
            Own(wire', u) == if u == t then Own(link.wire, u) + SentBy(task, link, section) else Own(link.wire, u)
  {
    hide RunSection, NextFrame, ControlFrame, Own;
    SectionWire(t, task, locks, link, section);
    if section == Flush(Accepted) {
      OwnReplies(link.wire, link.sink.replies, u);
      assert Own(link.wire, u) + [] == Own(link.wire, u);
    } else if SentBy(task, link, section) == [] {
      assert link.wire + [] == link.wire && Own(link.wire, u) + [] == Own(link.wire, u);
    } else {
      OwnSnoc(link.wire, Added(t, task, link, section)[0], u);
      assert Own(link.wire, u) + [] == Own(link.wire, u);
    }
  }

  /** A section records what it sends, and reports success only when it has sent. */
  lemma SectionRecords(t: TaskId, task: Task, locks: Locks, link: Link, section: Section, own: seq<Frame>)
    requires CanRun(t, task, locks, link, section) && OwnOk(task, own) && Running(task)
    requires task.pc.NeedReader? || task.pc.Receiving? || task.pc.Storing? ==> task.op.Read?
    ensures OwnOk(RunSection(t, task, locks, link, section).task, own + SentBy(task, link, section))
  {
    hide Released, FromWsError, WriteError, NextFrame, RepliesOnWire;
    assert own + [] == own;
  }

  lemma RunOwn(s: State, t: TaskId, section: Section)
    requires OwnedOk(s.tasks, s.link.wire) && t in s.tasks && CanRun(t, s.tasks[t], s.locks, s.link, section)
    requires Holds(t, s.tasks[t], s.locks) && s.tasks[t].polling
    ensures var e := RunSection(t, s.tasks[t], s.locks, s.link, section);
            OwnedOk(s.tasks[t := e.task], e.link.wire)
  {
    hide RunSection, CanRun, Own, OwnOk, SentBy;
    SectionRecords(t, s.tasks[t], s.locks, s.link, section, Own(s.link.wire, t));
    forall u
      ensures var wire' := RunSection(t, s.tasks[t], s.locks, s.link, section).link.wire;
              Own(wire', u) == if u == t then Own(s.link.wire, u) + SentBy(s.tasks[t], s.link, section) else Own(s.link.wire, u)
    {
      OwnAdded(t, s.tasks[t], s.locks, s.link, section, u);
    }
  }

  lemma HappenOwn(s: State, t: TaskId, event: Event)
    requires OwnedOk(s.tasks, s.link.wire) && t in s.tasks && MayHappen(s, s.tasks[t], event)
    ensures OwnedOk(s.tasks[t := Happened(s.tasks[t], event)], s.link.wire)
  {
    hide Own;
    assert OwnOk(s.tasks[t], Own(s.link.wire, t));
  }

  lemma HoldsAt(s: State, t: TaskId)
    requires Disciplined(s) && t in s.tasks
    ensures Holds(t, s.tasks[t], s.locks)
  {
  }

  lemma FinishOwn(s: State, t: TaskId)
    requires Enabled(s, Finish(t)) && OwnOk(s.tasks[t], Own(s.link.wire, t))
    ensures OwnOk(FinishCall(s, t).tasks[t], Own(s.link.wire, t))
  {
    hide Own;
  }

  lemma StepOwn(s: State, l: Label)
    requires Disciplined(s) && OwnedOk(s.tasks, s.link.wire) && Enabled(s, l)
    ensures OwnedOk(Apply(s, l).tasks, Apply(s, l).link.wire)
  {
    hide RunSection, CanRun, Own, OperationResult, Happened, Disciplined;
    match l
    case Run(t, section) =>
      HoldsAt(s, t);
      RunOwn(s, t, section);
    case Around(e) =>
      forall u
        ensures Own(EnvLink(s.link, e).wire, u) == Own(s.link.wire, u)
      {
        if e == EmitReply {
          OwnSnoc(s.link.wire, OnWire(None, s.link.sink.replies[0]), u);
        }
      }
    case Happen(t, event) => HappenOwn(s, t, event);
    case Finish(t) => FinishOwn(s, t);
    case _ =>
  }

  lemma {:induction false} AlwaysOwn(s: State, ls: seq<Label>)
    requires Disciplined(s) && OwnedOk(s.tasks, s.link.wire) && Runs(s, ls)
    ensures OwnedOk(After(s, ls).tasks, After(s, ls).link.wire)
    decreases |ls|
  {
    hide Apply, Disciplined, OwnedOk;
    if ls != [] {
      StepDisciplined(s, ls[0]);
      StepOwn(s, ls[0]);
      AlwaysOwn(Apply(s, ls[0]), ls[1..]);
    }
  }

  /**
    What a call has put on the wire, in every run: a read nothing; a control write
    nothing, or exactly its frame, whole, with its own opcode and payload of at most
    125 bytes, and that frame if it reports success; a data write a prefix of its
    fragmentation, and all of it if it reports success.
   */
  lemma OwnFramesExact(frameSize: nat, ls: seq<Label>, t: TaskId)
    requires 0 < frameSize && Runs(Init(frameSize), ls) && t in After(Init(frameSize), ls).tasks
    ensures var s := After(Init(frameSize), ls);
            var task, own := s.tasks[t], Own(s.link.wire, t);
            match task.op
            case Read => own == []
            case WriteControl(control) =>
              && (own == [] || (own == [Wanted(control)] && |control.payload| <= 125))
              && (task.pc == Finished(Written) ==> own == [Wanted(control)])
            case WriteData(kind, data) =>
              && own <= Fragments(kind, data, frameSize, 0)
              && (task.pc == Finished(Written) ==> own == Fragments(kind, data, frameSize, 0))
  {
    AlwaysOwn(Init(frameSize), ls);
    AlwaysFramed(Init(frameSize), ls);
    SizeKept(Init(frameSize), ls);
    var s := After(Init(frameSize), ls);
    assert OwnOk(s.tasks[t], Own(s.link.wire, t)) && WriterOk(s.tasks[t], frameSize);
  }

  // ------------------------------------------------------------ automatic replies

  /** A frame that was received, and the automatic reply to it. */
  predicate Answers(l: Label, reply: Frame) {
    && l.Run? && l.section.Receive?
    && match l.section.incoming
       case InPing(payload) => reply == Frame(OpPong, payload, true)
       case InClose(payload) => reply == Frame(OpClose, payload, true)
       case _ => false
  }

  ghost predicate Answered(ls: seq<Label>, reply: Frame) {
    exists l :: l in ls && Answers(l, reply)
  }

  ghost predicate RepliesOk(link: Link, seen: seq<Label>) {
    && (forall i | 0 <= i < |link.wire| && link.wire[i].owner.None? :: Answered(seen, link.wire[i].frame))
    && (forall i | 0 <= i < |link.sink.replies| :: Answered(seen, link.sink.replies[i]))
  }

  lemma SeenMore(link: Link, seen: seq<Label>, l: Label)
    requires RepliesOk(link, seen)
    ensures RepliesOk(link, seen + [l])
  {
    forall f | Answered(seen, f)
      ensures Answered(seen + [l], f)
    {
      var x :| x in seen && Answers(x, f);
      assert x in seen + [l];
    }
  }

  lemma SectionReplies(t: TaskId, task: Task, locks: Locks, link: Link, section: Section, seen: seq<Label>)
    requires CanRun(t, task, locks, link, section) && RepliesOk(link, seen) && Run(t, section) in seen
    ensures RepliesOk(RunSection(t, task, locks, link, section).link, seen)
  {
    hide Released, FromWsError, WriteError, NextFrame, ControlFrame;
    match section
    case Receive(InPing(payload)) => assert Answers(Run(t, section), Frame(OpPong, payload, true));
    case Receive(InClose(payload)) => assert Answers(Run(t, section), Frame(OpClose, payload, true));
    case _ =>
  }

  lemma EmitReplies(link: Link, e: Env, seen: seq<Label>)
    requires RepliesOk(link, seen)
    ensures RepliesOk(EnvLink(link, e), seen)
  {
  }

  lemma StepReplies(s: State, l: Label, seen: seq<Label>)
    requires Enabled(s, l) && RepliesOk(s.link, seen)
    ensures RepliesOk(Apply(s, l).link, seen + [l])
  {
    hide RunSection, CanRun, OperationResult, RepliesOk;
    SeenMore(s.link, seen, l);
    match l
    case Run(t, section) => SectionReplies(t, s.tasks[t], s.locks, s.link, section, seen + [l]);
    case Around(e) => EmitReplies(s.link, e, seen + [l]);
    case _ =>
  }

  lemma {:induction false} AlwaysReplies(s: State, seen: seq<Label>, ls: seq<Label>)
    requires Runs(s, ls) && RepliesOk(s.link, seen)
    ensures RepliesOk(After(s, ls).link, seen + ls)
    decreases |ls|
  {
    hide Apply, RepliesOk;
    if ls == [] {
      assert seen + ls == seen;
    } else {
      StepReplies(s, ls[0], seen);
      AlwaysReplies(Apply(s, ls[0]), seen + [ls[0]], ls[1..]);
      assert seen + [ls[0]] + ls[1..] == seen + ls;
    }
  }

  /** Every frame on the wire that no call has sent is the reply to a Ping or a Close that was received, with its payload. */
  lemma RepliesAnswer(frameSize: nat, ls: seq<Label>, i: nat)
    requires Runs(Init(frameSize), ls)
    requires var wire := After(Init(frameSize), ls).link.wire; i < |wire| && wire[i].owner.None?
    ensures Answered(ls, After(Init(frameSize), ls).link.wire[i].frame)
  {
    AlwaysReplies(Init(frameSize), [], ls);
    assert [] + ls == ls;
  }
}
