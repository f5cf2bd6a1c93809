/**
  Why the peer's Close needs a single reader: a second `ReadMessage` that gets the
  reader lock after the flag was stored ends with `io.EOF` and closes the
  connection, and a first one that has not yet checked the handle then reports a
  closed connection in place of the Close frame it holds.
 */
module ConnectionTwoReaders {
  import opened Bytes
  import opened Fragmentation
  import opened Connection
  import opened ConnectionOutcomes

  /** Whenever the second reader comes in between, the first one loses the Close. */
  lemma SecondReaderTakesOver(s: State, a: TaskId, b: TaskId, close: Received)
    requires a in s.tasks && s.tasks[a].op.Read? && s.tasks[a].pc == Returned(Got(close)) && Alive(s, a)
    requires a != b && Enabled(s, Run(b, TakeReader)) && s.tasks[b].op.Read? && Alive(s, b)
    requires s.link.peerClose && s.link.hasReader
    ensures var s1 := Apply(s, Run(b, TakeReader));
            Enabled(s1, Finish(b)) &&
            var s2 := Apply(s1, Finish(b));
            s2.tasks[b].pc == Finished(EndOfStream) && Enabled(s2, Finish(a)) &&
            Apply(s2, Finish(a)).tasks[a].pc == Finished(ConnClosedError)
  {
  }

  function Reading(pc: Pc, polling: bool, taken: Received): Task {
    Task(Read, pc, polling, 0, taken, false, [])
  }

  const NOTHING := Received(0, [])
  const CLOSED := Received(CLOSE, [])
  const FREE := Locks(None, None, Gate(None, {}, []), None, [])

  function Linked(peerClose: bool, sink: Sink): Link {
    Link(1, true, true, peerClose, sink, [])
  }

  const REPLY := ReplyFrame(OpClose, [])

  /** Two reads in flight on an established connection. */
  function TwoReads(): State {
    State(map[0 := Reading(NeedReader, false, NOTHING), 1 := Reading(NeedReader, false, NOTHING)],
          FREE, Linked(false, Sink(false, false, [])), Live, Live)
  }

  /** The first has the peer's Close and is about to store the flag. */
  function CloseTaken(): State {
    State(map[0 := Reading(Storing, true, CLOSED), 1 := Reading(NeedReader, false, NOTHING)],
          FREE.(reader := Some(0)), Linked(false, Sink(true, false, [REPLY])), Live, Live)
  }

  function HoldingGate(): State {
    State(map[0 := Reading(NeedWriter, true, CLOSED), 1 := Reading(NeedReader, false, NOTHING)],
          FREE.(reader := Some(0), gate := Gate(Some(0), {}, [])),
          Linked(true, Sink(true, false, [REPLY])), Live, Live)
  }

  /** The acknowledgement is on the wire and the native read has returned. */
  function Acknowledged(): State {
    State(map[0 := Reading(Returned(Got(CLOSED)), false, CLOSED), 1 := Reading(NeedReader, true, NOTHING)],
          FREE, Linked(true, Sink(true, false, [])).(wire := [OnWire(None, REPLY)]), Live, Live)
  }

  /** Nothing fails, no context ends, and no caller closes anything. */
  predicate Peaceful(l: Label) {
    match l
    case Run(_, Send(Refused(_))) => false
    case Run(_, Flush(Refused(_))) => false
    case Run(_, Receive(InError(_))) => false
    case Happen(_, EndContext) => false
    case Around(CloseConn) => false
    case Around(CloseClient) => false
    case _ => true
  }

  predicate EndsWith(s: State, t: TaskId, outcome: Outcome) {
    t in s.tasks && s.tasks[t].pc == Finished(outcome)
  }

  lemma StartTwoReads() returns (ls: seq<Label>)
    ensures Runs(Init(1), ls) && After(Init(1), ls) == TwoReads()
    ensures forall l | l in ls :: Peaceful(l)
  {
    ls := [];
    Extend(Init(1), ls, Around(SetWriter)); ls := ls + [Around(SetWriter)];
    Extend(Init(1), ls, Around(SetReader)); ls := ls + [Around(SetReader)];
    Extend(Init(1), ls, Call(0, Read)); ls := ls + [Call(0, Read)];
    Extend(Init(1), ls, Call(1, Read)); ls := ls + [Call(1, Read)];
    Extend(Init(1), ls, Happen(0, Enter)); ls := ls + [Happen(0, Enter)];
    Extend(Init(1), ls, Happen(1, Enter)); ls := ls + [Happen(1, Enter)];
    assert After(Init(1), ls).tasks == TwoReads().tasks;
  }

  lemma TakeClose() returns (ls: seq<Label>)
    ensures Runs(TwoReads(), ls) && After(TwoReads(), ls) == CloseTaken()
    ensures forall l | l in ls :: Peaceful(l)
  {
    var s := TwoReads();
    ls := [];
    Extend(s, ls, Happen(0, Poll)); ls := ls + [Happen(0, Poll)];
    Extend(s, ls, Run(0, TakeReader)); ls := ls + [Run(0, TakeReader)];
    Extend(s, ls, Run(0, Receive(InClose([])))); ls := ls + [Run(0, Receive(InClose([])))];
    assert After(s, ls).tasks == CloseTaken().tasks;
  }

  lemma PassGate() returns (ls: seq<Label>)
    ensures Enabled(CloseTaken(), Run(0, Store))
    ensures Runs(Apply(CloseTaken(), Run(0, Store)), ls)
    ensures After(Apply(CloseTaken(), Run(0, Store)), ls) == HoldingGate()
    ensures forall l | l in ls :: Peaceful(l)
  {
    var s := Apply(CloseTaken(), Run(0, Store));
    ls := [];
    Extend(s, ls, Run(0, QueueGate)); ls := ls + [Run(0, QueueGate)];
    Extend(s, ls, Run(0, EnterGate)); ls := ls + [Run(0, EnterGate)];
    assert After(s, ls).tasks == HoldingGate().tasks;
    assert After(s, ls).locks.gate.queue == [];
  }

  lemma Acknowledge() returns (ls: seq<Label>)
    ensures Runs(HoldingGate(), ls) && After(HoldingGate(), ls) == Acknowledged()
    ensures forall l | l in ls :: Peaceful(l)
  {
    var s := HoldingGate();
    ls := [];
    Extend(s, ls, Run(0, TakeWriter)); ls := ls + [Run(0, TakeWriter)];
    Extend(s, ls, Run(0, Flush(Accepted))); ls := ls + [Run(0, Flush(Accepted))];
    Extend(s, ls, Happen(1, Poll)); ls := ls + [Happen(1, Poll)];
    assert After(s, ls).tasks == Acknowledged().tasks;
    assert RepliesOnWire([REPLY]) == [OnWire(None, REPLY)];
    assert Remove([], 0) == [];
    assert After(s, ls).link.wire == Acknowledged().link.wire;
  }

  /** From there on the second reader takes over and closes the connection. */
  lemma LoseClose() returns (ls: seq<Label>)
    ensures Enabled(CloseTaken(), Run(0, Store)) && (forall l | l in ls :: Peaceful(l))
    ensures var s := Apply(CloseTaken(), Run(0, Store));
            && Runs(s, ls)
            && EndsWith(After(s, ls), 1, EndOfStream)
            && Enabled(After(s, ls), Finish(0))
            && EndsWith(Apply(After(s, ls), Finish(0)), 0, ConnClosedError)
  {
    var s := Apply(CloseTaken(), Run(0, Store));
    var pass := PassGate();
    var acknowledge := Acknowledge();
    RunsConcat(s, pass, acknowledge);
    ls := pass + acknowledge;
    SecondReaderTakesOver(Acknowledged(), 0, 1, CLOSED);
    Extend(s, ls, Run(1, TakeReader)); ls := ls + [Run(1, TakeReader)];
    Extend(s, ls, Finish(1)); ls := ls + [Finish(1)];
  }

  lemma TakeTheClose() returns (before: seq<Label>)
    ensures Runs(Init(1), before) && After(Init(1), before) == CloseTaken()
    ensures forall l | l in before :: Peaceful(l)
  {
    var start := StartTwoReads();
    var take := TakeClose();
    RunsConcat(Init(1), start, take);
    before := start + take;
  }

  /**
    A run with no error, no end of a context and no close by any caller in which the
    peer's Close has been taken and acknowledged and no `ReadMessage` reports it.
   */
  lemma TwoReadersLoseClose() returns (before: seq<Label>, ls: seq<Label>)
    ensures Runs(Init(1), before) && Enabled(After(Init(1), before), Run(0, Store))
    ensures forall l | l in before + ls :: Peaceful(l)
    ensures var s := Apply(After(Init(1), before), Run(0, Store));
            && s.tasks[0].taken == Received(CLOSE, [])
            && Alive(s, 0)
            && Runs(s, ls)
            && EndsWith(After(s, ls), 1, EndOfStream)
            && Enabled(After(s, ls), Finish(0))
            && EndsWith(Apply(After(s, ls), Finish(0)), 0, ConnClosedError)
  {
    before := TakeTheClose();
    ls := LoseClose();
  }
}
