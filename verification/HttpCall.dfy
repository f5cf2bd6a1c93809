/**
  The native half of one HTTP call: Ready until sent, Streaming until the response
  stream ends or fails, Done afterwards. `read` hands out at most 64 KiB at a time
  and keeps the rest of a chunk in `pending`.
 */
module HttpCall {
  import opened Bytes

  datatype Kind = InvalidInput | Closed | Cancelled | Network(code: nat)

  /** One item of the response stream. */
  datatype Item = Chunk(data: seq<byte>) | Failure(kind: Kind)

  /** `stream` holds the items still to come; after the last one it ends with None. */
  datatype Phase =
    | Ready
    | Streaming(stream: seq<Item>, pending: seq<byte>)
    | Done

  /** What the network makes of a request. */
  datatype Answer = Response(stream: seq<Item>) | Refusal(kind: Kind)

  datatype Output = Data(data: seq<byte>) | Eof | Error(kind: Kind)

  const MAX_READ: nat := 64 * 1024

  /** One turn of the loop in `read`: it returns, or has taken an item and goes on. */
  datatype Turn = Returns(output: Output, phase: Phase) | Continues(phase: Phase)

  function TakeTurn(phase: Phase, limit: nat): Turn {
    match phase
    case Ready => Returns(Error(InvalidInput), phase)
    case Done => Returns(Eof, phase)
    case Streaming(stream, pending) =>
      if pending != [] then
        var len := Min(limit, |pending|);
        Returns(Data(pending[..len]), Streaming(stream, pending[len..]))
      else if stream == [] then Returns(Eof, Done)
      else match stream[0]
           case Chunk(data) => Continues(Streaming(stream[1..], data))
           case Failure(kind) => Returns(Error(kind), Done)
  }

  // ------------------------------------------------------- what the stream holds

  /** The bytes before the first failure, or all of them. */
  function StreamBytes(stream: seq<Item>): seq<byte> {
    if stream == [] || stream[0].Failure? then []
    else stream[0].data + StreamBytes(stream[1..])
  }

  /** How the stream ends: cleanly, or with its first failure. */
  function StreamEnd(stream: seq<Item>): Output {
    if stream == [] then Eof
    else if stream[0].Failure? then Error(stream[0].kind)
    else StreamEnd(stream[1..])
  }

  /** The bytes that have not been handed out. */
  function Remaining(phase: Phase): seq<byte> {
    if phase.Streaming? then phase.pending + StreamBytes(phase.stream) else []
  }

  /** The chunk the next bytes come from. */
  function Front(phase: Phase): seq<byte>
    decreases if phase.Streaming? then |phase.stream| else 0
  {
    if !phase.Streaming? then []
    else if phase.pending != [] then phase.pending
    else if phase.stream == [] || phase.stream[0].Failure? then []
    else Front(Streaming(phase.stream[1..], phase.stream[0].data))
  }

  /** What the reads end with once nothing remains. */
  function Ending(phase: Phase): Output {
    match phase
    case Ready => Error(InvalidInput)
    case Done => Eof
    case Streaming(stream, _) => StreamEnd(stream)
  }

  /** Items and chunks left to look at; the loop that skips empty chunks uses them up. */
  function Size(phase: Phase): nat {
    if phase.Streaming? then 2 * |phase.stream| + (if phase.pending == [] then 0 else 1) else 0
  }

  /** A turn hands out bytes from the front, or nothing at all, and never loses the ending. */
  lemma TurnConserves(phase: Phase, limit: nat)
    requires 0 < limit
    ensures match TakeTurn(phase, limit)
            case Continues(phase') =>
              Remaining(phase') == Remaining(phase) && Ending(phase') == Ending(phase) && Size(phase') < Size(phase)
              && Front(phase') == Front(phase)
            case Returns(Data(data), phase') =>
              && 1 <= |data| <= limit
              && data == Front(phase)[..Min(limit, |Front(phase)|)]
              && Remaining(phase) == data + Remaining(phase')
              && Ending(phase') == Ending(phase)
            case Returns(output, phase') =>
              Remaining(phase) == [] && Remaining(phase') == [] && output == Ending(phase)
              && (!phase.Ready? ==> phase' == Done)
  {
    if phase.Streaming? && phase.pending != [] {
      var len := Min(limit, |phase.pending|);
      assert phase.pending == phase.pending[..len] + phase.pending[len..];
      assert phase.pending[..len] + (phase.pending[len..] + StreamBytes(phase.stream)) == Remaining(phase);
    }
  }

  class Call {
    var phase: Phase

    constructor ()
      ensures phase == Ready
    {
      phase := Ready;
    }

    /** `send`: the request is used up before the outcome is known, and only the first send can succeed. */
    method Send(answer: Answer) returns (error: Option<Kind>)
      modifies this
      ensures error == if old(phase) != Ready then Some(InvalidInput) else if answer.Refusal? then Some(answer.kind) else None
      ensures phase == if old(phase) != Ready then old(phase)
                       else if answer.Response? then Streaming(answer.stream, []) else Done
    {
      if phase != Ready {
        return Some(InvalidInput);
      }
      phase := Done;
      if answer.Refusal? {
        return Some(answer.kind);
      }
      phase := Streaming(answer.stream, []);
      return None;
    }

    /**
      `read`: hands out the next bytes of the stream, as many of the next chunk as
      `maxLen` and 64 KiB allow, or, once none are left, what the stream ended with.
     */
    method Read(maxLen: nat) returns (output: Output)
      modifies this
      ensures maxLen == 0 ==> output == Error(InvalidInput) && phase == old(phase)
      ensures 0 < maxLen && Remaining(old(phase)) != [] ==>
                && output.Data?
                && 1 <= |output.data| == Min(Min(maxLen, 65536), |Front(old(phase))|)
                && Remaining(old(phase)) == output.data + Remaining(phase)
                && Ending(phase) == Ending(old(phase))
      ensures 0 < maxLen && Remaining(old(phase)) == [] ==>
                output == Ending(old(phase)) && phase == if old(phase) == Ready then Ready else Done
      ensures 0 < maxLen && old(phase) == Ready ==> output == Error(InvalidInput)
      ensures 0 < maxLen && old(phase) == Done ==> output == Eof
    {
      if maxLen == 0 {
        return Error(InvalidInput);
      }
      var limit := Min(maxLen, MAX_READ);
      while true
        invariant Remaining(phase) == Remaining(old(phase)) && Ending(phase) == Ending(old(phase))
        invariant Front(phase) == Front(old(phase))
        invariant phase.Ready? == old(phase).Ready?
        decreases Size(phase)
      {
        TurnConserves(phase, limit);
        var turn := TakeTurn(phase, limit);
        phase := turn.phase;
        if turn.Returns? {
          return turn.output;
        }
      }
    }
  }

  // --------------------------------------------------------------------- runs

  /** What `Read` returns and leaves behind, as a function. */
  function ReadOnce(phase: Phase, maxLen: nat): (Output, Phase)
    requires 0 < maxLen
    decreases Size(phase)
  {
    TurnConserves(phase, Min(maxLen, MAX_READ));
    match TakeTurn(phase, Min(maxLen, MAX_READ))
    case Returns(output, phase') => (output, phase')
    case Continues(phase') => ReadOnce(phase', maxLen)
  }

  lemma {:induction false} EndingNotData(phase: Phase)
    ensures !Ending(phase).Data?
    decreases Size(phase)
  {
    if phase.Streaming? && phase.stream != [] && phase.stream[0].Chunk? {
      EndingNotData(Streaming(phase.stream[1..], []));
    }
  }

  lemma {:induction false} ReadOnceConserves(phase: Phase, maxLen: nat)
    requires 0 < maxLen
    ensures var (output, phase') := ReadOnce(phase, maxLen);
            if Remaining(phase) == []
            then output == Ending(phase) && !output.Data? && phase' == if phase.Ready? then Ready else Done
            else output.Data? && 1 <= |output.data| <= Min(maxLen, MAX_READ)
                 && Remaining(phase) == output.data + Remaining(phase') && Ending(phase') == Ending(phase)
    decreases Size(phase)
  {
    TurnConserves(phase, Min(maxLen, MAX_READ));
    match TakeTurn(phase, Min(maxLen, MAX_READ))
    case Continues(phase') => ReadOnceConserves(phase', maxLen);
    case Returns(_, _) => EndingNotData(phase);
  }

  /** The outputs of reads with the given buffer sizes, stopping at the first that is not data. */
  function Reads(phase: Phase, sizes: seq<nat>): (seq<byte>, Option<Output>, Phase)
    requires forall i | 0 <= i < |sizes| :: 0 < sizes[i]
    decreases |sizes|
  {
    if sizes == [] then ([], None, phase)
    else
      var (output, phase') := ReadOnce(phase, sizes[0]);
      if output.Data? then
        var (data, end, phase'') := Reads(phase', sizes[1..]);
        (output.data + data, end, phase'')
      else ([], Some(output), phase')
  }

  /**
    For every stream, empty chunks included, and every sequence of buffer sizes: what
    has been delivered and what remains is the original, in order; and enough reads
    deliver all of it and then report how the stream really ended.
   */
  lemma {:induction false} ReadsConserve(phase: Phase, sizes: seq<nat>)
    requires forall i | 0 <= i < |sizes| :: 0 < sizes[i]
    ensures var (data, end, phase') := Reads(phase, sizes);
            && Remaining(phase) == data + Remaining(phase')
            && (end.Some? ==> data == Remaining(phase) && end.value == Ending(phase))
            && (|sizes| > |Remaining(phase)| ==> end.Some?)
    decreases |sizes|
  {
    hide ReadOnce, Ending;
    if sizes != [] {
      ReadOnceConserves(phase, sizes[0]);
      var (output, phase') := ReadOnce(phase, sizes[0]);
      if output.Data? {
        ReadsConserve(phase', sizes[1..]);
        var (data, end, phase'') := Reads(phase', sizes[1..]);
        assert output.data + (data + Remaining(phase'')) == (output.data + data) + Remaining(phase'');
      }
    }
  }

  /** The native machine alone forgets a failure, of the stream or of the send: the next read reports a clean end. */
  lemma FailureForgotten(phase: Phase, maxLen: nat, again: nat)
    requires 0 < maxLen && 0 < again && !phase.Ready? && ReadOnce(phase, maxLen).0.Error?
    ensures ReadOnce(ReadOnce(phase, maxLen).1, again).0 == Eof
    ensures ReadOnce(Done, again).0 == Eof
  {
    ReadOnceConserves(phase, maxLen);
  }
}
