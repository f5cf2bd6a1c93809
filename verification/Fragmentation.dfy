/**
  The fragment loop of `write` and the reassembly rule of section 5.4 of RFC 6455.

  `Fragments` says which frames one data message becomes, `WriteData` is the
  loop that sends them through a sink, and `Reassemble` is the receiver.
 */
module Fragmentation {
  import opened Bytes

  const DEFAULT_FRAME_SIZE: nat := 32 * 1024
  const MAX_FRAME_SIZE: nat := 1024 * 1024

  datatype DataKind = Text | Binary

  datatype OpCode = OpText | OpBinary | OpContinue | OpClose | OpPing | OpPong

  datatype Frame = Frame(opcode: OpCode, payload: seq<byte>, fin: bool)

  datatype Message = Message(kind: DataKind, data: seq<byte>)

  predicate IsData(f: Frame) {
    f.opcode in {OpText, OpBinary, OpContinue}
  }

  function StartCode(kind: DataKind): OpCode {
    if kind == Text then OpText else OpBinary
  }

  /** The frame size a client uses: zero means the default, more than 1 MiB is refused. */
  function FrameSize(configured: nat): Option<nat> {
    var size := if configured == 0 then DEFAULT_FRAME_SIZE else configured;
    if size > MAX_FRAME_SIZE then None else Some(size)
  }

  // ---------------------------------------------------------------- sending

  function FragmentEnd(len: nat, size: nat, offset: nat): (end: nat)
    requires offset <= len
  {
    Min(offset + size, len)
  }

  function FrameAt(kind: DataKind, data: seq<byte>, size: nat, offset: nat): Frame
    requires offset <= |data|
  {
    var end := FragmentEnd(|data|, size, offset);
    Frame(if offset > 0 then OpContinue else StartCode(kind), data[offset..end], end == |data|)
  }

  /** The frames still to be sent once everything before `offset` has been sent. */
  function Fragments(kind: DataKind, data: seq<byte>, size: nat, offset: nat): seq<Frame>
    requires 0 < size && offset <= |data|
    decreases |data| - offset
  {
    var end := FragmentEnd(|data|, size, offset);
    if end == |data|
    then [FrameAt(kind, data, size, offset)]
    else [FrameAt(kind, data, size, offset)] + Fragments(kind, data, size, end)
  }

  /** A sink that accepts whole frames until it fails, and then keeps failing. */
  class FrameSink {
    var wire: seq<Frame>
    var accepts: nat

    constructor (accepts: nat)
      ensures wire == [] && this.accepts == accepts
    {
      wire, this.accepts := [], accepts;
    }

    method Send(frame: Frame) returns (ok: bool)
      modifies this
      ensures ok == (old(accepts) > 0)
      ensures wire == if ok then old(wire) + [frame] else old(wire)
      ensures accepts == if ok then old(accepts) - 1 else 0
    {
      ok := accepts > 0;
      if ok {
        wire := wire + [frame];
        accepts := accepts - 1;
      }
    }
  }

  lemma FirstFragment(kind: DataKind, data: seq<byte>, size: nat, offset: nat)
    requires 0 < size && offset <= |data|
    ensures var end := FragmentEnd(|data|, size, offset);
            Fragments(kind, data, size, offset) ==
              [FrameAt(kind, data, size, offset)] + (if end == |data| then [] else Fragments(kind, data, size, end))
  {
  }

  lemma TakeFragment<T>(all: seq<T>, sent: seq<T>, frame: T, rest: seq<T>)
    requires all == sent + ([frame] + rest)
    ensures all == (sent + [frame]) + rest
    ensures |sent| < |all| && all[..|sent|] == sent
    ensures rest == [] ==> |all| == |sent| + 1 && all[..|all|] == sent + [frame]
  {
  }

  /** The loop of `write` for a data message, run without competing tasks. */
  method WriteData(sink: FrameSink, kind: DataKind, data: seq<byte>, size: nat) returns (ok: bool)
    requires 0 < size <= MAX_FRAME_SIZE && |data| < WORD / 2
    modifies sink
    ensures var fs := Fragments(kind, data, size, 0);
            && ok == (|fs| <= old(sink.accepts))
            && sink.wire == old(sink.wire) + fs[..Min(|fs|, old(sink.accepts))]
  {
    hide FrameAt, Fragments;
    var offset := 0;
    ghost var all, sent := Fragments(kind, data, size, 0), [];
    while true
      invariant offset <= |data|
      invariant all == sent + Fragments(kind, data, size, offset)
      invariant sink.wire == old(sink.wire) + sent
      invariant |sent| + sink.accepts == old(sink.accepts)
      decreases |data| - offset
    {
      assert offset + size < WORD;
      var end := Min(offset + size, |data|);
      var frame := FrameAt(kind, data, size, offset);
      ghost var rest := if end == |data| then [] else Fragments(kind, data, size, end);
      FirstFragment(kind, data, size, offset);
      TakeFragment(all, sent, frame, rest);
      ok := sink.Send(frame);
      if !ok {
        assert sent == all[..Min(|all|, old(sink.accepts))];
        return;
      }
      sent := sent + [frame];
      if end == |data| {
        assert sent == all[..Min(|all|, old(sink.accepts))];
        return;
      }
      offset := end;
    }
  }

  // ------------------------------------------------------- what is sent

  function Payload(fs: seq<Frame>): seq<byte> {
    if fs == [] then [] else fs[0].payload + Payload(fs[1..])
  }

  lemma {:induction false} PayloadSnoc(fs: seq<Frame>, f: Frame)
    ensures Payload(fs + [f]) == Payload(fs) + f.payload
  {
    if fs == [] {
      assert fs + [f] == [f] && Payload([f]) == f.payload + Payload([]);
    } else {
      PayloadSnoc(fs[1..], f);
      assert (fs + [f])[1..] == fs[1..] + [f];
    }
  }

  /** Every fragment but the last is full, FIN is on the last only, and nothing is lost. */
  lemma {:induction false} FragmentsShape(kind: DataKind, data: seq<byte>, size: nat, offset: nat)
    requires 0 < size && offset <= |data|
    ensures var fs := Fragments(kind, data, size, offset);
            && Payload(fs) == data[offset..]
            && (forall i | 0 <= i < |fs| ::
                  && fs[i].fin == (i == |fs| - 1)
                  && fs[i].opcode == (if offset == 0 && i == 0 then StartCode(kind) else OpContinue)
                  && (if i < |fs| - 1 then |fs[i].payload| == size else |fs[i].payload| <= size))
    decreases |data| - offset
  {
    var end := FragmentEnd(|data|, size, offset);
    var first := FrameAt(kind, data, size, offset);
    if end == |data| {
      assert Payload([first]) == first.payload + Payload([]);
    } else {
      var rest := Fragments(kind, data, size, end);
      FragmentsShape(kind, data, size, end);
      assert ([first] + rest)[1..] == rest;
      assert data[offset..] == data[offset..end] + data[end..];
    }
  }

  lemma MulMonotone(a: int, b: int, size: nat)
    ensures a <= b ==> a * size <= b * size
  {
  }

  lemma CeilingUnique(len: nat, size: nat, n: nat)
    requires 0 < size && 0 < n && (n - 1) * size < len <= n * size
    ensures (len + size - 1) / size == n
  {
    var m := len + size - 1;
    var q := m / size;
    assert q * size <= m < (q + 1) * size;
    assert n * size <= m < (n + 1) * size;
    MulMonotone(q + 1, n, size);
    MulMonotone(n + 1, q, size);
  }

  lemma {:induction false} FragmentBounds(kind: DataKind, data: seq<byte>, size: nat, offset: nat)
    requires 0 < size && offset < |data|
    ensures var n := |Fragments(kind, data, size, offset)|;
            0 < n && (n - 1) * size < |data| - offset <= n * size
    decreases |data| - offset
  {
    var end := FragmentEnd(|data|, size, offset);
    if end < |data| {
      FragmentBounds(kind, data, size, end);
      var m := |Fragments(kind, data, size, end)|;
      assert (m + 1) * size == m * size + size && m * size == (m - 1) * size + size;
    }
  }

  /** The loop makes max(1, ceil(len / size)) frames, for every length and size. */
  lemma FragmentCount(kind: DataKind, data: seq<byte>, size: nat)
    requires 0 < size
    ensures |Fragments(kind, data, size, 0)| == if data == [] then 1 else (|data| + size - 1) / size
  {
    if data != [] {
      FragmentBounds(kind, data, size, 0);
      CeilingUnique(|data|, size, |Fragments(kind, data, size, 0)|);
    }
  }

  /** Every configuration `create` accepts gives the loop a size it terminates with. */
  lemma ConfiguredSizeUsable(configured: nat, kind: DataKind, data: seq<byte>)
    requires |data| < WORD / 2
    ensures FrameSize(configured) ==
              if configured == 0 then Some(32768) else if configured <= 1048576 then Some(configured) else None
    ensures FrameSize(configured).Some? ==>
              var size := FrameSize(configured).value;
              && 1 <= size <= 1048576
              && |data| + size < WORD
              && |Fragments(kind, data, size, 0)| == (if data == [] then 1 else (|data| + size - 1) / size)
  {
    if FrameSize(configured).Some? {
      FragmentCount(kind, data, FrameSize(configured).value);
    }
  }

  // -------------------------------------------------------------- receiving

  /** A receiver's state: finished messages and the fragmented one in progress. */
  datatype Assembly =
    | Assembly(complete: seq<Message>, open: Option<Message>)
    | ProtocolError

  function Extended(complete: seq<Message>, m: Message, fin: bool): Assembly {
    if fin then Assembly(complete + [m], None) else Assembly(complete, Some(m))
  }

  /** Section 5.4 of RFC 6455: controls anywhere, data messages never interleaved. */
  function Feed(a: Assembly, f: Frame): Assembly {
    if a.ProtocolError? then ProtocolError
    else if !IsData(f) then
      if f.fin then a else ProtocolError
    else if f.opcode == OpContinue then
      match a.open
      case None => ProtocolError
      case Some(m) => Extended(a.complete, Message(m.kind, m.data + f.payload), f.fin)
    else if a.open.Some? then ProtocolError
    else Extended(a.complete, Message(if f.opcode == OpText then Text else Binary, f.payload), f.fin)
  }

  function FeedAll(a: Assembly, fs: seq<Frame>): Assembly {
    if fs == [] then a else Feed(FeedAll(a, fs[..|fs| - 1]), fs[|fs| - 1])
  }

  function Reassemble(fs: seq<Frame>): Assembly {
    FeedAll(Assembly([], None), fs)
  }

  lemma {:induction false} FeedAllConcat(a: Assembly, xs: seq<Frame>, ys: seq<Frame>)
    ensures FeedAll(a, xs + ys) == FeedAll(FeedAll(a, xs), ys)
  {
    if ys == [] {
      assert xs + ys == xs;
    } else {
      var front := ys[..|ys| - 1];
      FeedAllConcat(a, xs, front);
      assert (xs + ys)[..|xs + ys| - 1] == xs + front;
    }
  }

  function DataFrames(fs: seq<Frame>): seq<Frame> {
    if fs == [] then []
    else DataFrames(fs[..|fs| - 1]) + (if IsData(fs[|fs| - 1]) then [fs[|fs| - 1]] else [])
  }

  lemma DataFramesSnoc(fs: seq<Frame>, f: Frame)
    ensures DataFrames(fs + [f]) == DataFrames(fs) + (if IsData(f) then [f] else [])
  {
    assert (fs + [f])[..|fs|] == fs;
  }

  ghost predicate ControlsWhole(fs: seq<Frame>) {
    forall i | 0 <= i < |fs| :: !IsData(fs[i]) ==> fs[i].fin
  }

  /** Control frames at any boundary are invisible to the reassembly of data. */
  lemma {:induction false} ControlsTransparent(fs: seq<Frame>)
    requires ControlsWhole(fs)
    ensures Reassemble(fs) == Reassemble(DataFrames(fs))
  {
    if fs != [] {
      var front := fs[..|fs| - 1];
      var last := fs[|fs| - 1];
      ControlsTransparent(front);
      FeedAllConcat(Assembly([], None), DataFrames(front), [last]);
      assert FeedAll(Reassemble(DataFrames(front)), [last]) == Feed(Reassemble(DataFrames(front)), last) by {
        assert [last][..0] == [];
      }
      if !IsData(last) {
        assert DataFrames(fs) == DataFrames(front);
      }
    }
  }

  ghost function AfterPrefix(done: seq<Message>, kind: DataKind, data: seq<byte>, size: nat, k: nat): Assembly
    requires 0 < size && k <= |Fragments(kind, data, size, 0)|
  {
    var fs := Fragments(kind, data, size, 0);
    if k == |fs| then Assembly(done + [Message(kind, data)], None)
    else Assembly(done, if k == 0 then None else Some(Message(kind, Payload(fs[..k]))))
  }

  lemma FeedNone(a: Assembly, fs: seq<Frame>)
    ensures FeedAll(a, fs[..0]) == a
  {
  }

  /** One more fragment of a message of which the receiver already has `before`. */
  lemma FeedNext(done: seq<Message>, kind: DataKind, before: seq<Frame>, f: Frame, payload: seq<byte>)
    requires f.opcode == if before == [] then StartCode(kind) else OpContinue
    requires payload == Payload(before) + f.payload
    requires FeedAll(Assembly(done, None), before)
          == Assembly(done, if before == [] then None else Some(Message(kind, Payload(before))))
    ensures FeedAll(Assembly(done, None), before + [f]) == Extended(done, Message(kind, payload), f.fin)
  {
    assert (before + [f])[..|before|] == before;
    if before == [] {
      assert payload == f.payload;
    }
  }

  /** A receiver between messages that is fed the first `k` fragments of one message. */
  lemma {:induction false} FeedPrefix(done: seq<Message>, kind: DataKind, data: seq<byte>, size: nat, k: nat)
    requires 0 < size && k <= |Fragments(kind, data, size, 0)|
    ensures FeedAll(Assembly(done, None), Fragments(kind, data, size, 0)[..k]) == AfterPrefix(done, kind, data, size, k)
  {
    hide Fragments, FeedAll, Payload;
    FirstFragment(kind, data, size, 0);
    if k == 0 {
      FeedNone(Assembly(done, None), Fragments(kind, data, size, 0));
    } else {
      var fs := Fragments(kind, data, size, 0);
      var before, f := fs[..k - 1], fs[k - 1];
      FeedPrefix(done, kind, data, size, k - 1);
      FragmentsShape(kind, data, size, 0);
      assert fs[..k] == before + [f];
      PayloadSnoc(before, f);
      assert fs[..|fs|] == fs && data[0..] == data;
      FeedNext(done, kind, before, f, if k == |fs| then data else Payload(fs[..k]));
    }
  }

  // ------------------------------------------------ what a receiver can end up with

  function Total(messages: seq<Message>): seq<byte> {
    if messages == [] then [] else Total(messages[..|messages| - 1]) + messages[|messages| - 1].data
  }

  function OpenData(open: Option<Message>): seq<byte> {
    if open.Some? then open.value.data else []
  }

  function Finals(fs: seq<Frame>): nat {
    if fs == [] then 0
    else Finals(fs[..|fs| - 1]) + (if IsData(fs[|fs| - 1]) && fs[|fs| - 1].fin then 1 else 0)
  }

  lemma FeedConserves(a: Assembly, f: Frame)
    requires IsData(f) && Feed(a, f).Assembly?
    ensures a.Assembly?
    ensures Total(Feed(a, f).complete) + OpenData(Feed(a, f).open) == Total(a.complete) + OpenData(a.open) + f.payload
    ensures |Feed(a, f).complete| == |a.complete| + if f.fin then 1 else 0
  {
    var total, open := Total(a.complete), OpenData(a.open);
    var a' := Feed(a, f);
    assert total + (open + f.payload) == total + open + f.payload;
    assert total + ([] + f.payload) == total + [] + f.payload;
    if f.fin {
      var m := a'.complete[|a.complete|];
      assert a'.complete[..|a'.complete| - 1] == a.complete;
      assert m.data == open + f.payload;
      assert Total(a'.complete) + [] == Total(a'.complete);
    } else {
      assert a'.open.value.data == open + f.payload;
    }
  }

  /** A receiver that reports no protocol error has lost, added and reordered nothing, and finished a message with every FIN. */
  lemma {:induction false} ReassemblyConserves(fs: seq<Frame>)
    requires Reassemble(fs).Assembly?
    ensures Total(Reassemble(fs).complete) + OpenData(Reassemble(fs).open) == Payload(DataFrames(fs))
    ensures |Reassemble(fs).complete| == Finals(fs)
  {
    if fs != [] {
      var front, f := fs[..|fs| - 1], fs[|fs| - 1];
      var a := Reassemble(front);
      ReassemblyConserves(front);
      if IsData(f) {
        PayloadSnoc(DataFrames(front), f);
        FeedConserves(a, f);
      } else {
        assert DataFrames(fs) == DataFrames(front);
      }
    }
  }

  /** What section 5.4 of RFC 6455 forbids is an error, whatever came before: a message inside another, a continuation of none, a cut control frame. */
  lemma InterleavingRejected(fs: seq<Frame>, f: Frame)
    requires Reassemble(fs).Assembly?
    ensures Reassemble(fs + [f]).ProtocolError? <==>
              if f.opcode in {OpText, OpBinary} then Reassemble(fs).open.Some?
              else if f.opcode == OpContinue then Reassemble(fs).open.None?
              else !f.fin
  {
    FeedAllConcat(Assembly([], None), fs, [f]);
    assert [f][..0] == [];
  }
}
