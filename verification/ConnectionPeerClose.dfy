/** The peer's Close is authoritative, exactly as far as nothing on the Go side closes the connection first. */
module ConnectionPeerClose {
  import opened Bytes
  import opened Fragmentation
  import opened Connection
  import opened ConnectionLocks
  import opened ConnectionOutcomes

  // -------------------------------------------------- one call against the rest

  /** What a received frame means to the caller: its type and its payload. */
  function Meaning(incoming: Incoming): Option<Received> {
    match incoming
    case InText(data) => Some(Received(1, data))
    case InBinary(data) => Some(Received(2, data))
    case InClose(data) => Some(Received(8, data))
    case InPing(data) => Some(Received(9, data))
    case InPong(data) => Some(Received(10, data))
    case _ => None
  }

  /** `a` is returning the message `m`: in the native code or already on its way through Go. */
  predicate Carries(s: State, a: TaskId, m: Received) {
    && a in s.tasks && s.tasks[a].op.Read?
    && (s.tasks[a].pc == Returned(Got(m))
        || (s.tasks[a].taken == m && s.tasks[a].pc in {Storing, NeedGate, Queued, NeedWriter, Sending}))
  }

  /** The labels with which the Go side closes the connection, or ends the context, before `a` returns. */
  predicate Disrupts(s: State, l: Label, a: TaskId)
    requires Enabled(s, l)
  {
    l == Happen(a, EndContext) || l == Around(CloseClient) || (l != Finish(a) && ClosesHandle(s, l))
  }

  predicate Undisrupted(s: State, ls: seq<Label>, a: TaskId)
    requires Runs(s, ls)
    decreases |ls|
  {
    ls == [] || (!Disrupts(s, ls[0], a) && Undisrupted(Apply(s, ls[0]), ls[1..], a))
  }

  /** The acknowledgement by `a` fails, for another reason than a connection that is already closed. */
  predicate BreaksAck(l: Label, a: TaskId) {
    l.Run? && l.t == a && l.section.Flush? && l.section.result.Refused? && l.section.result.error != ConnectionClosed
  }

  predicate AckUnbroken(ls: seq<Label>, a: TaskId) {
    forall l | l in ls :: !BreaksAck(l, a)
  }

  /** A Close survives a broken acknowledgement, a Ping does not. */
  predicate Harms(l: Label, a: TaskId, m: Received) {
    m.kind != CLOSE && BreaksAck(l, a)
  }

  lemma CarriesThroughSection(task: Task, a: TaskId, locks: Locks, link: Link, section: Section, m: Received)
    requires task.op.Read? && task.taken == m && task.pc in {Storing, NeedGate, Queued, NeedWriter, Sending}
    requires CanRun(a, task, locks, link, section)
    ensures var task' := RunSection(a, task, locks, link, section).task;
            && task'.op == task.op && task'.contextEnded == task.contextEnded
            && (if Harms(Run(a, section), a, m) then task'.pc.Returned? && task'.pc.native.Failed?
                else task'.pc == Returned(Got(m))
                     || (task'.taken == m && task'.pc in {Storing, NeedGate, Queued, NeedWriter, Sending}))
  {
    hide Released, RepliesOnWire, FromWsError;
  }

  /** The read has come back with a failure instead. */
  predicate Lost(s: State, a: TaskId) {
    a in s.tasks && s.tasks[a].pc.Returned? && s.tasks[a].pc.native.Failed?
  }

  lemma StepCarries(s: State, l: Label, a: TaskId, m: Received)
    requires Enabled(s, l) && l != Finish(a) && Carries(s, a, m) && Alive(s, a)
    ensures if Disrupts(s, l, a) then a in Apply(s, l).tasks && !Alive(Apply(s, l), a)
            else if Harms(l, a, m) then Lost(Apply(s, l), a)
            else Carries(Apply(s, l), a, m) && Alive(Apply(s, l), a)
  {
    hide RunSection, OperationResult;
    match l
    case Run(t, section) =>
      if t == a {
        CarriesThroughSection(s.tasks[a], a, s.locks, s.link, section, m);
      }
    case Finish(t) => FinishExplained(s, t);
    case _ =>
  }

  lemma StepNotAlive(s: State, l: Label, a: TaskId)
    requires Enabled(s, l) && a in s.tasks && !Alive(s, a)
    ensures a in Apply(s, l).tasks && !Alive(Apply(s, l), a)
  {
    TaskKept(s, l, a);
    StepHistory(s, l, a);
    StepLive(s, l);
  }

  lemma {:induction false} NeverAliveAgain(s: State, ls: seq<Label>, a: TaskId)
    requires Runs(s, ls) && a in s.tasks && !Alive(s, a)
    ensures !Alive(After(s, ls), a)
    decreases |ls|
  {
    hide Apply;
    if ls != [] {
      StepNotAlive(s, ls[0], a);
      NeverAliveAgain(Apply(s, ls[0]), ls[1..], a);
    }
  }

  lemma {:induction false} CarriesToTheEnd(s: State, ls: seq<Label>, a: TaskId, m: Received)
    requires Runs(s, ls) && Carries(s, a, m) && Alive(s, a) && Enabled(After(s, ls), Finish(a))
    ensures if Undisrupted(s, ls, a) && (m.kind == CLOSE || AckUnbroken(ls, a))
            then After(s, ls).tasks[a].pc == Returned(Got(m)) && Alive(After(s, ls), a)
            else !Alive(After(s, ls), a) || Lost(After(s, ls), a)
    decreases |ls|
  {
    hide Apply, Disrupts;
    if ls != [] {
      var s' := Apply(s, ls[0]);
      assert forall l :: l in ls <==> l == ls[0] || l in ls[1..];
      if ls[0] == Finish(a) {
        FinishEnds(s, a);
        FinishedStays(s', ls[1..], a);
      } else {
        StepCarries(s, ls[0], a, m);
        if Disrupts(s, ls[0], a) {
          NeverAliveAgain(s', ls[1..], a);
        } else if Harms(ls[0], a, m) {
          NativeCarried(s', ls[1..], a);
        } else {
          CarriesToTheEnd(s', ls[1..], a, m);
        }
      }
    }
  }

  /** A raw frame that a read skips leaves no trace: the run is the same without it. */
  lemma {:induction false} RawFrameSkipped(s: State, before: seq<Label>, a: TaskId, later: seq<Label>)
    requires Runs(s, before + [Run(a, Receive(InFrame))] + later)
    ensures Runs(s, before + later)
    ensures After(s, before + later) == After(s, before + [Run(a, Receive(InFrame))] + later)
    decreases |before|
  {
    var raw := Run(a, Receive(InFrame));
    var all := before + [raw] + later;
    if before == [] {
      assert all[0] == raw && all[1..] == later && before + later == later;
      assert Apply(s, raw) == s;
    } else {
      assert all[0] == before[0] && all[1..] == before[1..] + [raw] + later;
      assert (before + later)[1..] == before[1..] + later;
      RawFrameSkipped(Apply(s, before[0]), before[1..], a, later);
    }
  }

  lemma TakesMessage(s: State, a: TaskId, incoming: Incoming)
    requires Disciplined(s) && Enabled(s, Run(a, Receive(incoming))) && Meaning(incoming).Some?
    ensures Carries(Apply(s, Run(a, Receive(incoming))), a, Meaning(incoming).value)
  {
    assert Holds(a, s.tasks[a], s.locks);
  }

  /** The same for any message a read carries. */
  lemma ReturnsCarried(s: State, ls: seq<Label>, a: TaskId, m: Received)
    requires Carries(s, a, m) && Runs(s, ls) && Enabled(After(s, ls), Finish(a))
    ensures Apply(After(s, ls), Finish(a)).tasks[a].pc == Finished(GotMessage(m))
            <==> Alive(s, a) && Undisrupted(s, ls, a) && (m.kind == CLOSE || AckUnbroken(ls, a))
  {
    hide Undisrupted, AckUnbroken;
    FinishExplained(After(s, ls), a);
    if Alive(s, a) {
      CarriesToTheEnd(s, ls, a, m);
    } else {
      NeverAliveAgain(s, ls, a);
    }
  }

  lemma ReturnedAtOnce(s: State, a: TaskId, incoming: Incoming)
    requires Enabled(s, Run(a, Receive(incoming))) && (incoming.InText? || incoming.InBinary? || incoming.InPong?)
    ensures var s' := Apply(s, Run(a, Receive(incoming))); a in s'.tasks && s'.tasks[a].pc.Returned?
  {
  }

  /** A read that has returned natively sends no acknowledgement. */
  lemma {:induction false} NoMoreAck(s: State, ls: seq<Label>, a: TaskId)
    requires Runs(s, ls) && a in s.tasks && s.tasks[a].pc.Returned? && Enabled(After(s, ls), Finish(a))
    ensures AckUnbroken(ls, a)
    decreases |ls|
  {
    if ls != [] {
      assert forall l :: l in ls <==> l == ls[0] || l in ls[1..];
      if ls[0] == Finish(a) {
        FinishEnds(s, a);
        FinishedStays(Apply(s, ls[0]), ls[1..], a);
      } else {
        ReturnedWaits(s, ls[0], a);
        NoMoreAck(Apply(s, ls[0]), ls[1..], a);
      }
    }
  }

  /**
    Whatever frame a read takes, its caller gets exactly that frame, with its type and
    its whole payload, if and only if the handles and the context are alive then,
    nothing on the Go side closes the connection before the return, and, for a Ping,
    its acknowledgement does not fail.
   */
  lemma ReceivedIsReturned(frameSize: nat, before: seq<Label>, incoming: Incoming, ls: seq<Label>, a: TaskId)
    requires Meaning(incoming).Some?
    requires Runs(Init(frameSize), before) && Enabled(After(Init(frameSize), before), Run(a, Receive(incoming)))
    requires var s := Apply(After(Init(frameSize), before), Run(a, Receive(incoming)));
             Runs(s, ls) && Enabled(After(s, ls), Finish(a))
    ensures var s := Apply(After(Init(frameSize), before), Run(a, Receive(incoming)));
            Apply(After(s, ls), Finish(a)).tasks[a].pc == Finished(GotMessage(Meaning(incoming).value))
            <==> Alive(s, a) && Undisrupted(s, ls, a)
                 && (incoming.InText? || incoming.InBinary? || incoming.InPong? || incoming.InClose? || AckUnbroken(ls, a))
  {
    AlwaysDisciplined(Init(frameSize), before);
    var s0 := After(Init(frameSize), before);
    TakesMessage(s0, a, incoming);
    var s := Apply(s0, Run(a, Receive(incoming)));
    ReturnsCarried(s, ls, a, Meaning(incoming).value);
    if incoming.InText? || incoming.InBinary? || incoming.InPong? {
      ReturnedAtOnce(s0, a, incoming);
      NoMoreAck(s, ls, a);
    }
  }

  /**
    The end of the stream is reported as such, and an error as itself, never as an
    end; by a read whose handles and context are alive when it returns.
   */
  lemma StreamEndReported(s: State, incoming: Incoming, ls: seq<Label>, a: TaskId)
    requires Enabled(s, Run(a, Receive(incoming))) && (incoming.InEnd? || incoming.InError?)
    requires var s1 := Apply(s, Run(a, Receive(incoming)));
             Runs(s1, ls) && Enabled(After(s1, ls), Finish(a)) && Alive(After(s1, ls), a)
    ensures var s1 := Apply(s, Run(a, Receive(incoming)));
            Apply(After(s1, ls), Finish(a)).tasks[a].pc == Finished(
              if incoming.InEnd? || incoming.error == ConnectionClosed then EndOfStream
              else NativeError(if incoming.error == HandshakeIncomplete then UnexpectedEof
                               else if incoming.error == SendAfterClosing then Closing
                               else WebSocket))
  {
    var s1 := Apply(s, Run(a, Receive(incoming)));
    NativeCarried(s1, ls, a);
    FinishExplained(After(s1, ls), a);
  }

  /**
    A reader that takes the peer's Close returns that Close to its caller, code,
    reason and all, if and only if the handles and its context are alive then and no
    label of the run up to its return closes the connection on the Go side. Neither a
    failed acknowledgement nor any sink error matters.
   */
  lemma PeerCloseAuthoritative(frameSize: nat, before: seq<Label>, payload: seq<byte>, ls: seq<Label>, a: TaskId)
    requires Runs(Init(frameSize), before) && Enabled(After(Init(frameSize), before), Run(a, Receive(InClose(payload))))
    requires var s := Apply(After(Init(frameSize), before), Run(a, Receive(InClose(payload))));
             Runs(s, ls) && Enabled(After(s, ls), Finish(a))
    ensures var s := Apply(After(Init(frameSize), before), Run(a, Receive(InClose(payload))));
            Apply(After(s, ls), Finish(a)).tasks[a].pc == Finished(GotMessage(Received(8, payload)))
            <==> Alive(s, a) && Undisrupted(s, ls, a)
  {
    ReceivedIsReturned(frameSize, before, InClose(payload), ls, a);
  }

  // -------------------------------------------- conditions a caller can meet

  /**
    What callers and the sink do: nobody closes the connection or the client, no
    context ends, a read starts only when every earlier one has returned, and a write
    the sink refuses is classified `closing`, which any refusal is once the peer's
    Close has been received.
   */
  predicate Polite(s: State, l: Label) {
    match l
    case Around(CloseConn) => false
    case Around(CloseClient) => false
    case Happen(_, EndContext) => false
    case Call(_, Read) => forall t | t in s.tasks && s.tasks[t].op.Read? :: s.tasks[t].pc.Finished?
    case Run(_, Send(Refused(e))) => WriteError(s.link.peerClose, e) == Closing
    case _ => true
  }

  predicate PoliteRun(s: State, ls: seq<Label>)
    requires Runs(s, ls)
    decreases |ls|
  {
    ls == [] || (Polite(s, ls[0]) && PoliteRun(Apply(s, ls[0]), ls[1..]))
  }

  /** A call that cannot close the connection when it returns. */
  predicate Harmless(task: Task) {
    || task.pc.Finished?
    || (!task.op.Read? && (task.pc.Returned? ==> task.pc.native in {Sent, Failed(InvalidInput), Failed(Closing)}))
  }

  /** A read that has not returned to its caller. */
  predicate ReadsOn(task: Task) {
    task.op.Read? && !task.pc.Finished?
  }

  /** With a read in flight the connection is live, that read is the only one, and no write can close the connection. */
  ghost predicate Tidy(s: State) {
    && s.client == Live
    && (forall t | t in s.tasks :: !s.tasks[t].contextEnded)
    && (forall t | t in s.tasks && ReadsOn(s.tasks[t]) :: s.conn == Live)
    && (forall t, u | t in s.tasks && u in s.tasks && ReadsOn(s.tasks[t]) && ReadsOn(s.tasks[u]) :: t == u)
    && (s.conn == Live ==> forall t | t in s.tasks && !ReadsOn(s.tasks[t]) :: Harmless(s.tasks[t]))
  }

  lemma WriterSection(t: TaskId, task: Task, locks: Locks, link: Link, section: Section)
    requires CanRun(t, task, locks, link, section) && !task.op.Read? && Harmless(task)
    requires task.pc.NeedReader? || task.pc.Receiving? || task.pc.Storing? ==> task.op.Read?
    requires section.Send? && section.result.Refused? ==> WriteError(link.peerClose, section.result.error) == Closing
    ensures Harmless(RunSection(t, task, locks, link, section).task)
  {
  }

  lemma SectionTidy(s: State, t: TaskId, section: Section)
    requires Disciplined(s) && Tidy(s) && Enabled(s, Run(t, section)) && Polite(s, Run(t, section))
    ensures Tidy(Apply(s, Run(t, section)))
  {
    hide RunSection, CanRun, OperationResult;
    var task := s.tasks[t];
    assert Holds(t, task, s.locks);
    OwnSectionKeeps(t, task, s.locks, s.link, section);
    if s.conn == Live && !task.op.Read? {
      WriterSection(t, task, s.locks, s.link, section);
    }
  }

  lemma FinishTidy(s: State, t: TaskId)
    requires Tidy(s) && Enabled(s, Finish(t))
    ensures Tidy(FinishCall(s, t))
  {
    assert !s.tasks[t].op.Read? && s.conn == Live ==> Harmless(s.tasks[t]);
  }

  lemma StepTidy(s: State, l: Label)
    requires Disciplined(s) && Tidy(s) && Enabled(s, l) && Polite(s, l)
    ensures Tidy(Apply(s, l))
  {
    hide RunSection, CanRun, OperationResult, Disciplined;
    match l
    case Run(t, section) => SectionTidy(s, t, section);
    case Finish(t) => FinishTidy(s, t);
    case _ =>
  }

  lemma {:induction false} AlwaysTidy(s: State, ls: seq<Label>)
    requires Disciplined(s) && Tidy(s) && Runs(s, ls) && PoliteRun(s, ls)
    ensures Tidy(After(s, ls))
    decreases |ls|
  {
    hide Disciplined, Tidy, Apply;
    if ls != [] {
      StepDisciplined(s, ls[0]);
      StepTidy(s, ls[0]);
      AlwaysTidy(Apply(s, ls[0]), ls[1..]);
    }
  }

  /** No label before the return of a lone read closes the connection. */
  lemma TidyUndisrupted(s: State, l: Label, a: TaskId)
    requires Tidy(s) && Enabled(s, l) && Polite(s, l) && l != Finish(a)
    requires a in s.tasks && ReadsOn(s.tasks[a])
    ensures !Disrupts(s, l, a)
    ensures a in Apply(s, l).tasks && ReadsOn(Apply(s, l).tasks[a])
  {
    match l
    case Run(t, section) => OwnSectionKeeps(t, s.tasks[t], s.locks, s.link, section);
    case Finish(u) => assert Harmless(s.tasks[u]);
    case _ =>
  }

  lemma {:induction false} TidyRunUndisrupted(s: State, ls: seq<Label>, a: TaskId)
    requires Disciplined(s) && Tidy(s) && Runs(s, ls) && PoliteRun(s, ls)
    requires a in s.tasks && ReadsOn(s.tasks[a]) && Enabled(After(s, ls), Finish(a))
    ensures Undisrupted(s, ls, a)
    decreases |ls|
  {
    hide Disciplined, Tidy, Apply, Disrupts;
    if ls != [] {
      if ls[0] == Finish(a) {
        FinishEnds(s, a);
        FinishedStays(Apply(s, ls[0]), ls[1..], a);
      } else {
        StepDisciplined(s, ls[0]);
        StepTidy(s, ls[0]);
        TidyUndisrupted(s, ls[0], a);
        TidyRunUndisrupted(Apply(s, ls[0]), ls[1..], a);
      }
    }
  }

  lemma TakesClose(s: State, a: TaskId, payload: seq<byte>)
    requires Disciplined(s) && Tidy(s) && Enabled(s, Run(a, Receive(InClose(payload))))
    ensures var s' := Apply(s, Run(a, Receive(InClose(payload))));
            Disciplined(s') && Tidy(s') && Alive(s', a) && ReadsOn(s'.tasks[a])
  {
    assert Holds(a, s.tasks[a], s.locks) && ReadsOn(s.tasks[a]);
    StepDisciplined(s, Run(a, Receive(InClose(payload))));
    StepTidy(s, Run(a, Receive(InClose(payload))));
  }

  /**
    The promise to callers, over whole runs: if nobody closes anything, no context
    ends, reads are not made concurrently, and every write that is refused is
    classified `closing`, then the reader that takes the peer's Close returns it,
    payload and all, whatever the sink does to the acknowledgement.
   */
  lemma SingleReaderGetsPeerClose(frameSize: nat, before: seq<Label>, payload: seq<byte>, ls: seq<Label>, a: TaskId)
    requires Runs(Init(frameSize), before) && PoliteRun(Init(frameSize), before)
    requires Enabled(After(Init(frameSize), before), Run(a, Receive(InClose(payload))))
    requires var s := Apply(After(Init(frameSize), before), Run(a, Receive(InClose(payload))));
             Runs(s, ls) && PoliteRun(s, ls) && Enabled(After(s, ls), Finish(a))
    ensures var s := Apply(After(Init(frameSize), before), Run(a, Receive(InClose(payload))));
            Apply(After(s, ls), Finish(a)).tasks[a].pc == Finished(GotMessage(Received(8, payload)))
  {
    AlwaysDisciplined(Init(frameSize), before);
    AlwaysTidy(Init(frameSize), before);
    var s0 := After(Init(frameSize), before);
    TakesClose(s0, a, payload);
    TidyRunUndisrupted(Apply(s0, Run(a, Receive(InClose(payload)))), ls, a);
    PeerCloseAuthoritative(frameSize, before, payload, ls, a);
  }

  // ------------------------------------------------------------ later reads

  /** Once the flag is stored nobody waits for another message from the peer. */
  ghost predicate Ended(s: State) {
    && (forall t | t in s.tasks && HoldsReader(s.tasks[t]) :: s.link.hasReader)
    && (s.link.peerClose ==> s.link.hasReader && forall t | t in s.tasks :: !s.tasks[t].pc.Receiving?)
  }

  lemma EndedSection(t: TaskId, task: Task, locks: Locks, link: Link, section: Section)
    requires CanRun(t, task, locks, link, section) && Holds(t, task, locks)
    requires HoldsReader(task) ==> link.hasReader
    ensures var e := RunSection(t, task, locks, link, section);
            && e.link.hasReader == link.hasReader
            && (HoldsReader(e.task) ==> link.hasReader)
            && (e.link.peerClose != link.peerClose ==> section == Store && HoldsReader(task))
            && (link.peerClose && !task.pc.Receiving? ==> !e.task.pc.Receiving?)
            && (section == Store ==> !e.task.pc.Receiving?)
  {
  }

  lemma StepEnded(s: State, l: Label)
    requires Disciplined(s) && Ended(s) && Enabled(s, l)
    ensures Ended(Apply(s, l))
  {
    hide RunSection, CanRun, OperationResult;
    match l
    case Run(t, section) =>
      assert Holds(t, s.tasks[t], s.locks);
      assert forall u | u in s.tasks :: Holds(u, s.tasks[u], s.locks);
      EndedSection(t, s.tasks[t], s.locks, s.link, section);
    case _ =>
  }

  lemma {:induction false} AlwaysEnded(s: State, ls: seq<Label>)
    requires Disciplined(s) && Ended(s) && Runs(s, ls)
    ensures Ended(After(s, ls))
    decreases |ls|
  {
    if ls != [] {
      StepDisciplined(s, ls[0]);
      StepEnded(s, ls[0]);
      AlwaysEnded(Apply(s, ls[0]), ls[1..]);
    }
  }

  /**
    After the peer's Close every read that gets the reader ends at once: natively
    with end of stream, and in Go with `io.EOF` if its context and the handles are
    alive. No message is ever taken from the peer again.
   */
  lemma ReadsAfterPeerClose(frameSize: nat, ls: seq<Label>, b: TaskId)
    requires Runs(Init(frameSize), ls) && After(Init(frameSize), ls).link.peerClose
    ensures var s := After(Init(frameSize), ls);
            && (forall t, incoming :: !Enabled(s, Run(t, Receive(incoming))))
            && (Enabled(s, Run(b, TakeReader)) ==>
                  var s1 := Apply(s, Run(b, TakeReader));
                  && s1.tasks[b].pc == Returned(Eof)
                  && (Alive(s1, b) ==> Apply(s1, Finish(b)).tasks[b].pc == Finished(EndOfStream)))
  {
    AlwaysEnded(Init(frameSize), ls);
  }
}
