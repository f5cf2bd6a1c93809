/** Close frames: at most one, nothing but controls after it, and what the interrupted writer sees. */
module ConnectionClosing {
  import opened Bytes
  import opened Fragmentation
  import opened Connection
  import opened ConnectionLocks
  import opened ConnectionFraming

  function Closes(frames: seq<Frame>): nat {
    if frames == [] then 0
    else Closes(frames[..|frames| - 1]) + (if frames[|frames| - 1].opcode == OpClose then 1 else 0)
  }

  lemma ClosesSnoc(frames: seq<Frame>, f: Frame)
    ensures Closes(frames + [f]) == Closes(frames) + (if f.opcode == OpClose then 1 else 0)
  {
    assert (frames + [f])[..|frames|] == frames;
  }

  lemma ClosesOne(f: Frame)
    ensures Closes([f]) == if f.opcode == OpClose then 1 else 0
  {
    assert [f][..0] == [];
  }

  lemma {:induction false} ClosesConcat(xs: seq<Frame>, ys: seq<Frame>)
    ensures Closes(xs + ys) == Closes(xs) + Closes(ys)
  {
    if ys == [] {
      assert xs + ys == xs;
    } else {
      ClosesConcat(xs, ys[..|ys| - 1]);
      assert (xs + ys)[..|xs + ys| - 1] == xs + ys[..|ys| - 1];
    }
  }

  lemma {:induction false} ClosesFound(frames: seq<Frame>, i: nat)
    requires i < |frames| && frames[i].opcode == OpClose
    ensures Closes(frames) > 0
  {
    if i < |frames| - 1 {
      ClosesFound(frames[..|frames| - 1], i);
    }
  }

  ghost predicate DataFirst(frames: seq<Frame>) {
    forall i, j | 0 <= i < j < |frames| && frames[i].opcode == OpClose :: !IsData(frames[j])
  }

  /** A Close that is sent or waiting to be sent has made the sink refuse data, and there is only one. */
  ghost predicate ClosingOk(link: Link) {
    && DataFirst(Frames(link.wire))
    && WholeControls(link.sink.replies)
    && Closes(Frames(link.wire)) + Closes(link.sink.replies) <= (if link.sink.closing then 1 else 0)
    && (link.peerClose ==> link.sink.closing)
  }

  lemma DataFirstControl(frames: seq<Frame>, f: Frame)
    requires DataFirst(frames) && !IsData(f)
    ensures DataFirst(frames + [f])
  {
  }

  lemma DataFirstData(frames: seq<Frame>, f: Frame)
    requires Closes(frames) == 0
    ensures DataFirst(frames + [f])
  {
    forall i | 0 <= i < |frames|
      ensures frames[i].opcode != OpClose
    {
      if frames[i].opcode == OpClose {
        ClosesFound(frames, i);
      }
    }
  }

  lemma RepliesKeep(wire: seq<OnWire>, replies: seq<Frame>)
    requires WholeControls(replies) && DataFirst(Frames(wire))
    ensures DataFirst(Frames(wire + RepliesOnWire(replies)))
    ensures Closes(Frames(wire + RepliesOnWire(replies))) == Closes(Frames(wire)) + Closes(replies)
  {
    assert Frames(wire + RepliesOnWire(replies)) == Frames(wire) + replies;
    ClosesConcat(Frames(wire), replies);
  }

  /** Only a sink that is not closing takes frames, so there is no Close in front of them. */
  lemma AcceptedFrame(link: Link, link': Link, w: OnWire)
    requires ClosingOk(link) && !link.sink.closing
    requires link'.wire == link.wire + [w] && link'.sink.replies == link.sink.replies
    requires link'.peerClose == link.peerClose && link'.sink.closing == (w.frame.opcode == OpClose)
    ensures ClosingOk(link')
  {
    FramesSnoc(link.wire, w);
    ClosesSnoc(Frames(link.wire), w.frame);
    DataFirstData(Frames(link.wire), w.frame);
  }

  lemma SendClosing(t: TaskId, task: Task, locks: Locks, link: Link)
    requires ClosingOk(link) && CanRun(t, task, locks, link, Send(Accepted))
    ensures ClosingOk(RunSection(t, task, locks, link, Send(Accepted)).link)
  {
    var link' := RunSection(t, task, locks, link, Send(Accepted)).link;
    var frame := if task.op.WriteData? then NextFrame(task, link) else ControlFrame(task.op.control);
    AcceptedFrame(link, link', OnWire(Some(t), frame));
  }

  lemma QueuedReply(link: Link, link': Link, reply: Frame)
    requires ClosingOk(link) && !link.sink.closing && !IsData(reply) && reply.fin
    requires link'.wire == link.wire && link'.sink.replies == [reply] && link'.peerClose == link.peerClose
    requires link'.sink.closing == (reply.opcode == OpClose)
    ensures ClosingOk(link')
  {
    ClosesOne(reply);
  }

  lemma ReceiveClosing(t: TaskId, task: Task, locks: Locks, link: Link, incoming: Incoming)
    requires ClosingOk(link)
    ensures ClosingOk(HandleIncoming(t, task, locks, link, incoming).link)
    ensures HandleIncoming(t, task, locks, link, incoming).task.pc.Storing? ==>
              task.pc.Storing? || HandleIncoming(t, task, locks, link, incoming).link.sink.closing
  {
    var link' := HandleIncoming(t, task, locks, link, incoming).link;
    if !link.sink.closing && (incoming.InPing? || incoming.InClose?) {
      QueuedReply(link, link', link'.sink.replies[0]);
    }
  }

  lemma SectionClosing(t: TaskId, task: Task, locks: Locks, link: Link, section: Section)
    requires ClosingOk(link) && CanRun(t, task, locks, link, section)
    requires task.pc.Storing? ==> link.sink.closing
    ensures var e := RunSection(t, task, locks, link, section);
            && ClosingOk(e.link)
            && (link.sink.closing ==> e.link.sink.closing)
            && (e.task.pc.Storing? ==> e.link.sink.closing)
  {
    match section
    case Send(Accepted) => SendClosing(t, task, locks, link);
    case Receive(incoming) => ReceiveClosing(t, task, locks, link, incoming);
    case Flush(Accepted) => RepliesKeep(link.wire, link.sink.replies);
    case _ =>
  }

  ghost predicate ClosingValid(s: State) {
    ClosingOk(s.link) && forall t | t in s.tasks && s.tasks[t].pc.Storing? :: s.link.sink.closing
  }

  lemma EnvClosing(link: Link, e: Env)
    requires ClosingOk(link)
    ensures ClosingOk(EnvLink(link, e)) && EnvLink(link, e).sink.closing == link.sink.closing
  {
    if e == EmitReply && link.sink.replies != [] {
      var replies := link.sink.replies;
      FramesSnoc(link.wire, OnWire(None, replies[0]));
      DataFirstControl(Frames(link.wire), replies[0]);
      ClosesSnoc(Frames(link.wire), replies[0]);
      ClosesConcat([replies[0]], replies[1..]);
      ClosesOne(replies[0]);
      assert replies == [replies[0]] + replies[1..];
    }
  }

  lemma StepClosing(s: State, l: Label)
    requires ClosingValid(s) && Enabled(s, l)
    ensures ClosingValid(Apply(s, l))
    ensures s.link.sink.closing ==> Apply(s, l).link.sink.closing
  {
    match l
    case Run(t, section) => SectionClosing(t, s.tasks[t], s.locks, s.link, section);
    case Around(e) => EnvClosing(s.link, e);
    case _ =>
  }

  lemma {:induction false} AlwaysClosing(s: State, ls: seq<Label>)
    requires ClosingValid(s) && Runs(s, ls)
    ensures ClosingValid(After(s, ls))
    decreases |ls|
  {
    if ls != [] {
      StepClosing(s, ls[0]);
      AlwaysClosing(Apply(s, ls[0]), ls[1..]);
    }
  }

  lemma {:induction false} NoDataAfter(frames: seq<Frame>, i: nat)
    requires i <= |frames| && forall j | i <= j < |frames| :: !IsData(frames[j])
    ensures DataFrames(frames) == DataFrames(frames[..i])
    decreases |frames| - i
  {
    if i == |frames| {
      assert frames[..i] == frames;
    } else {
      NoDataAfter(frames, i + 1);
      assert frames[..i + 1] == frames[..i] + [frames[i]];
      DataFramesSnoc(frames[..i], frames[i]);
    }
  }

  lemma WholeControlsPrefix(frames: seq<Frame>, i: nat)
    requires i <= |frames| && ControlsWhole(frames)
    ensures ControlsWhole(frames[..i])
  {
  }

  lemma NothingBehindClose(link: Link, i: nat)
    requires ClosingOk(link) && WireOk(link) && i < |link.wire| && link.wire[i].frame.opcode == OpClose
    ensures Closes(Frames(link.wire)) == 1 && link.sink.closing
    ensures DataFrames(Frames(link.wire)) == DataFrames(Frames(link.wire)[..i])
    ensures Reassemble(Frames(link.wire)[..i]) == Reassemble(Frames(link.wire))
  {
    var frames := Frames(link.wire);
    ClosesFound(frames, i);
    NoDataAfter(frames, i);
    ControlsTransparent(frames);
    WholeControlsPrefix(frames, i);
    ControlsTransparent(frames[..i]);
  }

  /**
    In every reachable state there is at most one Close frame on the wire. If there
    is one, no data follows it: what the receiver has reassembled before the Close
    is all it will ever reassemble, and a message the Close fell into stays a prefix.
   */
  lemma CloseEndsData(frameSize: nat, ls: seq<Label>, i: nat)
    requires 0 < frameSize && Runs(Init(frameSize), ls)
    requires var wire := After(Init(frameSize), ls).link.wire; i < |wire| && wire[i].frame.opcode == OpClose
    ensures var s := After(Init(frameSize), ls);
            && Closes(Frames(s.link.wire)) == 1
            && s.link.sink.closing
            && DataFrames(Frames(s.link.wire)) == DataFrames(Frames(s.link.wire)[..i])
            && Reassemble(Frames(s.link.wire)[..i]) == Reassemble(Frames(s.link.wire))
  {
    AlwaysFramed(Init(frameSize), ls);
    AlwaysClosing(Init(frameSize), ls);
    NothingBehindClose(After(Init(frameSize), ls).link, i);
  }

  /**
    A data writer whose next fragment meets a sink that is closing: nothing more goes
    on the wire, the native call fails with `closing`, and when the Go method ends
    with its context and handles alive it reports that error and leaves the
    connection open, so that the peer's Close can still be read.
   */
  lemma InterruptedWriterKeepsConnection(s: State, t: TaskId, result: SinkResult)
    requires Enabled(s, Run(t, Send(result))) && s.tasks[t].op.WriteData?
    requires s.link.sink.closing && !s.link.sink.failed
    ensures var s1 := Apply(s, Run(t, Send(result)));
            && s1.link == s.link
            && s1.tasks[t].pc == Returned(Failed(Closing))
            && s1.tasks[t].emitted == s.tasks[t].emitted
            && (s.conn == Live && s.client == Live && !s.tasks[t].contextEnded ==>
                  && Enabled(s1, Finish(t))
                  && var s2 := Apply(s1, Finish(t));
                     && s2.tasks[t].pc == Finished(NativeError(Closing))
                     && s2.conn == Live
                     && (forall r | r !in s2.tasks :: Enabled(s2, Call(r, Read)) && Apply(s2, Call(r, Read)).tasks[r].pc.Called?))
  {
    assert result == Refused(SendAfterClosing);
  }
}
