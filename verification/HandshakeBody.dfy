/**
  The body of a rejected upgrade: `handshake_body` takes what was captured behind
  the response headers, removes chunked framing (section 7.1 of RFC 9112), keeps at
  most `limit` bytes, and says whether anything may be missing.
 */
module HandshakeBody {
  import opened Bytes
  import opened ChunkLine
  import opened Unicode

  datatype Decoded = Decoded(body: seq<byte>, truncated: bool)

  /** What the function reads of a response; the two headers are already parsed. */
  datatype Response = Response(status: nat, chunked: bool, contentLength: Option<nat>, captured: seq<byte>)

  const CRLF: seq<byte> := [CR, LF]

  // ----------------------------------------------------------- line searching

  predicate CrlfAt(s: seq<byte>, i: nat) {
    i + 2 <= |s| && s[i] == CR && s[i + 1] == LF
  }

  predicate CrlfFree(s: seq<byte>) {
    forall i | 0 <= i < |s| :: !CrlfAt(s, i)
  }

  function FirstCrlf(s: seq<byte>): (p: Option<nat>)
    ensures p.Some? ==> CrlfAt(s, p.value)
  {
    if |s| < 2 then None
    else if CrlfAt(s, 0) then Some(0)
    else match FirstCrlf(s[1..])
         case None => None
         case Some(p) => Some(p + 1)
  }

  /** It is the first one, and none is missed. */
  lemma {:induction false} FirstCrlfIsFirst(s: seq<byte>)
    ensures FirstCrlf(s).None? ==> CrlfFree(s)
    ensures FirstCrlf(s).Some? ==> forall i | 0 <= i < FirstCrlf(s).value :: !CrlfAt(s, i)
  {
    if |s| >= 2 && !CrlfAt(s, 0) {
      FirstCrlfIsFirst(s[1..]);
      assert forall i | 0 < i < |s| :: CrlfAt(s, i) == CrlfAt(s[1..], i - 1);
    }
  }

  /** An occurrence with none in front of it is what the search finds. */
  lemma FirstCrlfFound(s: seq<byte>, p: nat)
    requires CrlfAt(s, p) && forall i | 0 <= i < p :: !CrlfAt(s, i)
    ensures FirstCrlf(s) == Some(p)
  {
    FirstCrlfIsFirst(s);
    assert p < |s|;
  }

  predicate BlankAt(s: seq<byte>, i: nat) {
    CrlfAt(s, i) && CrlfAt(s, i + 2)
  }

  /** The trailer section is over: an empty line first, or one anywhere later. */
  ghost predicate TrailerDone(s: seq<byte>) {
    CrlfAt(s, 0) || exists i :: BlankAt(s, i)
  }

  // ------------------------------------------------------------ specification

  function Take(size: nat, s: seq<byte>, room: nat): (n: nat)
    ensures n <= size && n <= |s| && n <= room
  {
    Min(size, Min(|s|, room))
  }

  datatype Line = NoLine | Line(size: nat, after: seq<byte>)

  /** The chunk-size line at the front: what it announces and what follows it. */
  function ReadLine(rest: seq<byte>): (l: Line)
    ensures l.Line? ==> |l.after| < |rest|
  {
    match FirstCrlf(rest)
    case None => NoLine
    case Some(p) =>
      match ChunkSize(rest[..p])
      case None => NoLine
      case Some(size) => Line(size, rest[p + 2..])
  }

  function Behind(data: seq<byte>, later: Decoded): Decoded {
    Decoded(data + later.body, later.truncated)
  }

  /** Decoding what remains when `room` more bytes may be kept. */
  ghost function Decode(rest: seq<byte>, room: nat): Decoded
    decreases |rest|
  {
    match ReadLine(rest)
    case NoLine => Decoded([], true)
    case Line(size, after) =>
      if size == 0 then Decoded([], !TrailerDone(after))
      else
        var take := Take(size, after, room);
        if take < size || !CrlfAt(after, size) then Decoded(after[..take], true)
        else Behind(after[..take], Decode(after[size + 2..], room - take))
  }

  /** The decoder without a limit: it stops only where the framing does. */
  ghost function DecodeAll(rest: seq<byte>): Decoded
    decreases |rest|
  {
    match ReadLine(rest)
    case NoLine => Decoded([], true)
    case Line(size, after) =>
      if size == 0 then Decoded([], !TrailerDone(after))
      else if !CrlfAt(after, size) then Decoded(after[..Min(size, |after|)], true)
      else Behind(after[..size], DecodeAll(after[size + 2..]))
  }

  predicate Bodiless(status: nat) {
    100 <= status <= 199 || status == 204 || status == 304
  }

  /** A body delimited by Content-Length, or by nothing. */
  function Delimited(contentLength: Option<nat>, captured: seq<byte>, limit: nat): Decoded {
    var length := if contentLength.Some? then contentLength.value else |captured|;
    var take := Min(|captured|, Min(length, limit));
    Decoded(captured[..take], contentLength.None? || take < length)
  }

  ghost function Body(response: Response, limit: nat): Decoded {
    if Bodiless(response.status) then Decoded([], false)
    else if response.chunked then Decode(response.captured, limit)
    else Delimited(response.contentLength, response.captured, limit)
  }

  /** `remaining.windows(4).any(..)` */
  method HasBlankLine(s: seq<byte>) returns (found: bool)
    ensures found == exists i :: BlankAt(s, i)
  {
    found := false;
    var i := 0;
    while i + 4 <= |s|
      invariant 0 <= i <= |s|
      invariant !found
      invariant forall j | 0 <= j < i :: !BlankAt(s, j)
    {
      if s[i] == CR && s[i + 1] == LF && s[i + 2] == CR && s[i + 3] == LF {
        assert BlankAt(s, i);
        return true;
      }
      i := i + 1;
    }
  }

  /** The loop's cases, one unfolding of the specification at a time. */
  lemma DecodeCases(rest: seq<byte>, room: nat)
    ensures var d, line := Decode(rest, room), ReadLine(rest);
            if line.NoLine? then d == Decoded([], true)
            else if line.size == 0 then d == Decoded([], !TrailerDone(line.after))
            else var take := Take(line.size, line.after, room);
                 if take < line.size || !CrlfAt(line.after, line.size) then d == Decoded(line.after[..take], true)
                 else d == Behind(line.after[..take], Decode(line.after[line.size + 2..], room - take))
  {
  }

  lemma BehindTwice(a: seq<byte>, b: seq<byte>, later: Decoded)
    ensures Behind(a, Behind(b, later)) == Behind(a + b, later)
  {
    assert a + (b + later.body) == (a + b) + later.body;
  }

  // ------------------------------------------ limited against unlimited decoding

  /** Cutting a sequence at `n`, or not at all if it is shorter. */
  function Cut(s: seq<byte>, n: nat): seq<byte> {
    s[..Min(|s|, n)]
  }

  function Limited(all: Decoded, room: nat): Decoded {
    Decoded(Cut(all.body, room), all.truncated || |all.body| > room)
  }

  /** A chunk whose end has not been captured, or is not marked, is the last one either way. */
  lemma LimitLast(after: seq<byte>, size: nat, room: nat)
    ensures Limited(Decoded(after[..Min(size, |after|)], true), room) == Decoded(after[..Take(size, after, room)], true)
  {
    assert Cut(after[..Min(size, |after|)], room) == after[..Take(size, after, room)];
  }

  lemma LimitBehind(after: seq<byte>, size: nat, later: Decoded, room: nat)
    requires size <= |after|
    ensures size <= room ==> Limited(Behind(after[..size], later), room) == Behind(after[..size], Limited(later, room - size))
    ensures size > room ==> Limited(Behind(after[..size], later), room) == Decoded(after[..room], true)
  {
    if size <= room {
      assert Cut(after[..size] + later.body, room) == after[..size] + Cut(later.body, room - size);
    } else {
      assert Cut(after[..size] + later.body, room) == after[..room];
    }
  }

  /**
    For arbitrary bytes, well formed or not: the limit does nothing but cut the
    unlimited result, and is reported exactly when it cuts something off.
   */
  lemma {:induction false} LimitRefines(rest: seq<byte>, room: nat)
    ensures Decode(rest, room) == Limited(DecodeAll(rest), room)
    decreases |rest|
  {
    hide ReadLine;
    var line := ReadLine(rest);
    if line.Line? && line.size > 0 {
      var size, after := line.size, line.after;
      if CrlfAt(after, size) {
        if size <= room {
          LimitRefines(after[size + 2..], room - size);
        }
        LimitBehind(after, size, DecodeAll(after[size + 2..]), room);
      } else {
        LimitLast(after, size, room);
      }
    }
  }

  // ------------------------------------------------------- more captured bytes

  lemma FirstCrlfStable(s: seq<byte>, more: seq<byte>)
    requires FirstCrlf(s).Some?
    ensures FirstCrlf(s + more) == FirstCrlf(s)
  {
    var p := FirstCrlf(s).value;
    FirstCrlfIsFirst(s);
    assert CrlfAt(s + more, p);
    assert forall i | 0 <= i < p :: CrlfAt(s + more, i) == CrlfAt(s, i);
    FirstCrlfFound(s + more, p);
  }

  lemma TrailerStable(s: seq<byte>, more: seq<byte>)
    requires TrailerDone(s)
    ensures TrailerDone(s + more)
  {
    if !CrlfAt(s, 0) {
      var i :| BlankAt(s, i);
      assert BlankAt(s + more, i);
    }
  }

  lemma ReadLineStable(rest: seq<byte>, more: seq<byte>)
    requires ReadLine(rest).Line?
    ensures ReadLine(rest + more) == Line(ReadLine(rest).size, ReadLine(rest).after + more)
  {
    hide ChunkSize;
    FirstCrlfStable(rest, more);
    var p := FirstCrlf(rest).value;
    assert (rest + more)[..p] == rest[..p];
    assert (rest + more)[p + 2..] == rest[p + 2..] + more;
  }

  predicate Extends(a: Decoded, b: Decoded) {
    a.body <= b.body && (!a.truncated ==> a == b)
  }

  lemma MoreExtendsChunk(after: seq<byte>, more: seq<byte>, size: nat, room: nat)
    ensures after[..Take(size, after, room)] <= (after + more)[..Take(size, after + more, room)]
    ensures CrlfAt(after, size) ==>
              && CrlfAt(after + more, size)
              && (after + more)[size + 2..] == after[size + 2..] + more
              && Take(size, after + more, room) == Take(size, after, room)
              && (after + more)[..Take(size, after, room)] == after[..Take(size, after, room)]
  {
  }

  /** Capturing more can only extend the bytes, and a complete body stays what it is. */
  lemma {:induction false} MoreExtends(rest: seq<byte>, more: seq<byte>, room: nat)
    ensures Extends(Decode(rest, room), Decode(rest + more, room))
    decreases |rest|
  {
    hide ReadLine;
    var line := ReadLine(rest);
    if line.Line? {
      ReadLineStable(rest, more);
      var size, after := line.size, line.after;
      if size == 0 {
        if TrailerDone(after) {
          TrailerStable(after, more);
        }
      } else {
        MoreExtendsChunk(after, more, size, room);
        if CrlfAt(after, size) && size <= room {
          MoreExtends(after[size + 2..], more, room - size);
        }
      }
    }
  }

  // ------------------------------------------------------------------ encoding

  /** One chunk as a server writes it; the numeral may have any case and leading zeros. */
  datatype Chunk = Chunk(numeral: seq<byte>, extension: seq<byte>, data: seq<byte>)

  /** The last chunk and the trailer lines behind it. */
  datatype End = End(numeral: seq<byte>, extension: seq<byte>, trailers: seq<seq<byte>>)

  predicate GoodLine(numeral: seq<byte>, extension: seq<byte>, size: nat) {
    && IsNumeral(numeral) && NumeralValue(numeral, 0) == size && size < WORD
    && IsExtension(extension) && CrlfFree(extension)
  }

  predicate GoodChunk(c: Chunk) {
    GoodLine(c.numeral, c.extension, |c.data|) && 0 < |c.data|
  }

  ghost predicate GoodTrailers(trailers: seq<seq<byte>>) {
    forall i | 0 <= i < |trailers| :: trailers[i] != [] && CrlfFree(trailers[i])
  }

  ghost predicate GoodEnd(end: End) {
    GoodLine(end.numeral, end.extension, 0) && GoodTrailers(end.trailers)
  }

  ghost predicate Good(chunks: seq<Chunk>, end: End) {
    (forall c | c in chunks :: GoodChunk(c)) && GoodEnd(end)
  }

  function TrailerSection(trailers: seq<seq<byte>>): seq<byte> {
    if trailers == [] then CRLF else trailers[0] + CRLF + TrailerSection(trailers[1..])
  }

  function Encode(chunks: seq<Chunk>, end: End): seq<byte> {
    if chunks == [] then end.numeral + end.extension + CRLF + TrailerSection(end.trailers)
    else chunks[0].numeral + chunks[0].extension + CRLF + (chunks[0].data + CRLF + Encode(chunks[1..], end))
  }

  function Content(chunks: seq<Chunk>): seq<byte> {
    if chunks == [] then [] else chunks[0].data + Content(chunks[1..])
  }

  /** The first CRLF behind a CRLF-free line is the one that ends it, once that has been captured. */
  lemma LineEnds(line: seq<byte>, rest: seq<byte>, k: nat)
    requires CrlfFree(line) && k <= |line| + 2 + |rest|
    ensures FirstCrlf((line + CRLF + rest)[..k]) == if k < |line| + 2 then None else Some(|line|)
  {
    var all := line + CRLF + rest;
    assert forall i | 0 <= i < |line| :: !CrlfAt(all, i) by {
      forall i | 0 <= i < |line|
        ensures !CrlfAt(all, i)
      {
        assert !CrlfAt(line, i);
      }
    }
    assert forall i :: 0 <= i && CrlfAt(all[..k], i) ==> CrlfAt(all, i);
    if k >= |line| + 2 {
      FirstCrlfFound(all[..k], |line|);
    } else {
      FirstCrlfIsFirst(all[..k]);
    }
  }

  lemma NumeralCrlfFree(numeral: seq<byte>, extension: seq<byte>)
    requires IsNumeral(numeral) && IsExtension(extension) && CrlfFree(extension)
    ensures CrlfFree(numeral + extension)
  {
    var line := numeral + extension;
    forall i | 0 <= i < |line|
      ensures !CrlfAt(line, i)
    {
      if i < |numeral| {
        assert Digit(numeral[i]).Some? && line[i] == numeral[i];
      } else {
        assert !CrlfAt(extension, i - |numeral|);
      }
    }
  }

  lemma SliceLine(line: seq<byte>, rest: seq<byte>, k: nat)
    requires |line| + 2 <= k <= |line| + 2 + |rest|
    ensures (line + CRLF + rest)[..k][..|line|] == line
    ensures (line + CRLF + rest)[..k][|line| + 2..] == rest[..k - |line| - 2]
  {
  }

  /** Reading a line of which `k` bytes were captured, together with what follows it. */
  lemma ReadsAnyLine(line: seq<byte>, rest: seq<byte>, k: nat)
    requires CrlfFree(line) && k <= |line| + 2 + |rest|
    ensures ReadLine((line + CRLF + rest)[..k]) ==
            if k < |line| + 2 || ChunkSize(line).None? then NoLine
            else Line(ChunkSize(line).value, rest[..k - |line| - 2])
  {
    hide ChunkSize, FirstCrlf, CrlfFree;
    LineEnds(line, rest, k);
    if k >= |line| + 2 {
      SliceLine(line, rest, k);
    }
  }

  /** Reading the size line of an encoded chunk of which `k` bytes were captured. */
  lemma ReadsLine(numeral: seq<byte>, extension: seq<byte>, size: nat, rest: seq<byte>, k: nat)
    requires GoodLine(numeral, extension, size)
    requires k <= |numeral| + |extension| + 2 + |rest|
    ensures ReadLine((numeral + extension + CRLF + rest)[..k]) ==
            if k < |numeral| + |extension| + 2 || !Utf8(extension) then NoLine
            else Line(size, rest[..k - |numeral| - |extension| - 2])
  {
    hide ChunkSize, ReadLine, Utf8, CrlfFree, NumeralValue, IsExtension, IsNumeral;
    var line := numeral + extension;
    NumeralCrlfFree(numeral, extension);
    NumeralLine(numeral, extension);
    ReadsAnyLine(line, rest, k);
  }

  // -------------------------------------------------------------------- trailers

  lemma TrailerStarts(trailers: seq<seq<byte>>)
    requires GoodTrailers(trailers)
    ensures CrlfAt(TrailerSection(trailers), 0) <==> trailers == []
  {
    if trailers != [] {
      var all := trailers[0] + CRLF + TrailerSection(trailers[1..]);
      LineEnds(trailers[0], TrailerSection(trailers[1..]), |all|);
      assert all[..|all|] == all;
    }
  }

  /** The only empty line of a trailer section is its end. */
  lemma {:induction false} BlankOnlyAtEnd(trailers: seq<seq<byte>>, i: nat)
    requires GoodTrailers(trailers) && BlankAt(TrailerSection(trailers), i)
    ensures i + 4 == |TrailerSection(trailers)|
  {
    if trailers != [] {
      var line, rest := trailers[0], TrailerSection(trailers[1..]);
      var all := line + CRLF + rest;
      assert all == TrailerSection(trailers);
      LineEnds(line, rest, |all|);
      FirstCrlfIsFirst(all);
      assert all[..|all|] == all;
      assert i >= |line|;
      if i == |line| {
        assert CrlfAt(rest, 0);
        TrailerStarts(trailers[1..]);
      } else {
        assert i >= |line| + 2;
        assert BlankAt(rest, i - |line| - 2);
        BlankOnlyAtEnd(trailers[1..], i - |line| - 2);
      }
    }
  }

  lemma {:induction false} TrailerEnds(trailers: seq<seq<byte>>)
    ensures var s := TrailerSection(trailers); |s| >= 2 && CrlfAt(s, |s| - 2)
    ensures var s := TrailerSection(trailers); trailers != [] ==> |s| >= 4 && BlankAt(s, |s| - 4)
  {
    if trailers != [] {
      TrailerEnds(trailers[1..]);
    }
  }

  /** Of a trailer section, exactly the whole is recognised as done. */
  lemma TrailerPrefix(trailers: seq<seq<byte>>, k: nat)
    requires GoodTrailers(trailers) && k <= |TrailerSection(trailers)|
    ensures TrailerDone(TrailerSection(trailers)[..k]) <==> k == |TrailerSection(trailers)|
  {
    var s := TrailerSection(trailers);
    TrailerStarts(trailers);
    TrailerEnds(trailers);
    assert s[..|s|] == s;
    if k < |s| && TrailerDone(s[..k]) {
      if CrlfAt(s[..k], 0) {
        assert CrlfAt(s, 0);
      } else {
        var i :| BlankAt(s[..k], i);
        assert BlankAt(s, i);
        BlankOnlyAtEnd(trailers, i);
      }
    }
    if k == |s| && trailers != [] {
      assert BlankAt(s[..k], |s| - 4);
    }
  }

  // ----------------------------------------------------------------- round trip

  lemma AfterData(data: seq<byte>, rest: seq<byte>, got: nat, room: nat)
    requires got <= |data| + 2 + |rest|
    ensures var after := (data + CRLF + rest)[..got];
            && (CrlfAt(after, |data|) <==> |data| + 2 <= got)
            && after[..Take(|data|, after, room)] == data[..Min(|data|, Min(got, room))]
            && (|data| + 2 <= got ==> after[|data| + 2..] == rest[..got - |data| - 2])
            && (Take(|data|, after, room) == |data| <==> |data| <= room && |data| <= got)
  {
    var after := (data + CRLF + rest)[..got];
    if |data| + 2 <= got {
      assert after[|data|] == CR && after[|data| + 1] == LF;
    }
  }

  /** How the decoder gets through a captured chunk whose size line it can read. */
  lemma ChunkStep(c: Chunk, rest: seq<byte>, k: nat, room: nat)
    requires GoodChunk(c) && Utf8(c.extension)
    requires var start := |c.numeral| + |c.extension| + 2; start <= k <= start + |c.data| + 2 + |rest|
    ensures var start := |c.numeral| + |c.extension| + 2;
            var got := k - start;
            var d := Decode((c.numeral + c.extension + CRLF + (c.data + CRLF + rest))[..k], room);
            if |c.data| <= room && |c.data| + 2 <= got
            then d == Behind(c.data, Decode(rest[..got - |c.data| - 2], room - |c.data|))
            else d == Decoded(c.data[..Min(|c.data|, Min(got, room))], true)
  {
    hide ReadLine;
    var tail := c.data + CRLF + rest;
    var got := k - (|c.numeral| + |c.extension| + 2);
    var after := tail[..got];
    ReadsLine(c.numeral, c.extension, |c.data|, tail, k);
    AfterData(c.data, rest, got, room);
  }

  /**
    Every size line the decoder comes to before the limit is reached is UTF-8.
    The chunk grammar does not promise it: quoted extension values may hold any byte
    above 0x7F.
   */
  predicate Readable(chunks: seq<Chunk>, end: End, room: nat) {
    if chunks == [] then Utf8(end.extension)
    else
      || room == 0
      || (&& Utf8(chunks[0].extension)
          && (|chunks[0].data| > room || Readable(chunks[1..], end, room - |chunks[0].data|)))
  }

  /** What the limit leaves of the whole body, and whether that is all of it. */
  function Wanted(chunks: seq<Chunk>, room: nat): Decoded {
    Decoded(Cut(Content(chunks), room), |Content(chunks)| > room)
  }

  lemma WantedStep(chunks: seq<Chunk>, room: nat)
    requires chunks != []
    ensures |chunks[0].data| <= room ==> Wanted(chunks, room) == Behind(chunks[0].data, Wanted(chunks[1..], room - |chunks[0].data|))
    ensures |chunks[0].data| > room ==> Wanted(chunks, room) == Decoded(chunks[0].data[..room], true)
  {
    var data, later := chunks[0].data, Content(chunks[1..]);
    if |data| <= room {
      assert Cut(data + later, room) == data + Cut(later, room - |data|);
    } else {
      assert Cut(data + later, room) == data[..room];
    }
  }

  lemma BehindSame(p: seq<byte>, a: Decoded, b: Decoded)
    ensures Behind(p, a) == Behind(p, b) <==> a == b
  {
    if Behind(p, a) == Behind(p, b) {
      assert a.body == (p + a.body)[|p|..];
      assert b.body == (p + b.body)[|p|..];
    }
  }

  lemma EndWhole(end: End, room: nat)
    requires GoodEnd(end)
    ensures Decode(Encode([], end), room) == Decoded([], !Utf8(end.extension))
  {
    var rest := TrailerSection(end.trailers);
    var all := end.numeral + end.extension + CRLF + rest;
    ReadsLine(end.numeral, end.extension, 0, rest, |all|);
    TrailerPrefix(end.trailers, |rest|);
    assert all[..|all|] == all && rest[..|rest|] == rest;
  }

  lemma ChunkWhole(c: Chunk, rest: seq<byte>, room: nat)
    requires GoodChunk(c)
    ensures Decode(c.numeral + c.extension + CRLF + (c.data + CRLF + rest), room) ==
            if !Utf8(c.extension) then Decoded([], true)
            else if |c.data| > room then Decoded(c.data[..room], true)
            else Behind(c.data, Decode(rest, room - |c.data|))
  {
    var tail := c.data + CRLF + rest;
    var all := c.numeral + c.extension + CRLF + tail;
    assert all[..|all|] == all && rest[..|rest|] == rest;
    if Utf8(c.extension) {
      ChunkStep(c, rest, |all|, room);
    } else {
      ReadsLine(c.numeral, c.extension, |c.data|, tail, |all|);
    }
  }

  /**
    For every body, every split into chunks, every numeral, every CRLF-free extension,
    every trailer and every limit: decoding the encoding gives the body cut at the
    limit, marked truncated exactly if it is longer, if and only if the size lines
    that are reached are UTF-8.
   */
  lemma {:induction false} RoundTrip(chunks: seq<Chunk>, end: End, room: nat)
    requires Good(chunks, end)
    ensures Decode(Encode(chunks, end), room) == Wanted(chunks, room) <==> Readable(chunks, end, room)
    decreases |chunks|
  {
    if chunks == [] {
      EndWhole(end, room);
    } else {
      var c := chunks[0];
      assert GoodChunk(c) && Good(chunks[1..], end);
      ChunkWhole(c, Encode(chunks[1..], end), room);
      WantedStep(chunks, room);
      if |c.data| <= room {
        RoundTrip(chunks[1..], end, room - |c.data|);
        BehindSame(c.data, Decode(Encode(chunks[1..], end), room - |c.data|), Wanted(chunks[1..], room - |c.data|));
      }
    }
  }

  /** If every extension is UTF-8 the round trip holds for every limit. */
  lemma {:induction false} Utf8Readable(chunks: seq<Chunk>, end: End, room: nat)
    requires Utf8(end.extension) && forall c | c in chunks :: Utf8(c.extension)
    ensures Readable(chunks, end, room)
    decreases |chunks|
  {
    if chunks != [] && |chunks[0].data| <= room {
      Utf8Readable(chunks[1..], end, room - |chunks[0].data|);
    }
  }

  /** A body split into the given pieces, with plain sizes and no trailer. */
  function Chunked(pieces: seq<seq<byte>>): (chunks: seq<Chunk>)
    ensures |chunks| == |pieces|
    ensures forall i | 0 <= i < |pieces| :: chunks[i] == Chunk(PrintHex(|pieces[i]|), [], pieces[i])
  {
    seq(|pieces|, i requires 0 <= i < |pieces| => Chunk(PrintHex(|pieces[i]|), [], pieces[i]))
  }

  function Flatten(pieces: seq<seq<byte>>): seq<byte> {
    if pieces == [] then [] else pieces[0] + Flatten(pieces[1..])
  }

  lemma {:induction false} ChunkedContent(pieces: seq<seq<byte>>)
    ensures Content(Chunked(pieces)) == Flatten(pieces)
  {
    if pieces != [] {
      ChunkedContent(pieces[1..]);
      assert Chunked(pieces)[1..] == Chunked(pieces[1..]);
    }
  }

  /** Every split of a body into non-empty pieces, printed plainly, comes back cut at the limit. */
  lemma PlainRoundTrip(pieces: seq<seq<byte>>, limit: nat)
    requires forall i | 0 <= i < |pieces| :: 0 < |pieces[i]| < WORD
    ensures Decode(Encode(Chunked(pieces), PLAIN_END), limit)
         == Decoded(Cut(Flatten(pieces), limit), |Flatten(pieces)| > limit)
  {
    var chunks, end := Chunked(pieces), PLAIN_END;
    forall c | c in chunks
      ensures GoodChunk(c)
    {
      PrintedValue(|c.data|);
    }
    assert NumeralValue([48], 0) == 0;
    ChunkedContent(pieces);
    Utf8Readable(chunks, end, limit);
    RoundTrip(chunks, end, limit);
  }

  const OBS_CHUNK: Chunk := Chunk([50], [59, 120, 61, 34, 0xFF, 34], [97, 98])
  const PLAIN_END: End := End([48], [], [])

  lemma ObsTextNotUtf8()
    ensures !Utf8(OBS_CHUNK.extension)
  {
    assert CharLength([0xFF, 34]) == 0 && !Utf8([0xFF, 34]);
    AsciiPrefixUtf8([59, 120, 61, 34], [0xFF, 34]);
    assert [59, 120, 61, 34] + [0xFF, 34] == OBS_CHUNK.extension;
  }

  lemma ObsTextGood()
    ensures Good([OBS_CHUNK], PLAIN_END)
  {
    assert NumeralValue([50], 0) == 2 && NumeralValue([48], 0) == 0;
    assert CrlfFree(OBS_CHUNK.extension) && GoodChunk(OBS_CHUNK);
  }

  /** A legal body whose only chunk carries the extension `;x="<0xFF>"` decodes to nothing at all. */
  lemma ObsTextLosesBody()
    ensures Good([OBS_CHUNK], PLAIN_END)
    ensures Decode(Encode([OBS_CHUNK], PLAIN_END), 8) == Decoded([], true)
    ensures Wanted([OBS_CHUNK], 8) == Decoded([97, 98], false)
  {
    hide Decode, Utf8, GoodLine;
    ObsTextGood();
    ObsTextNotUtf8();
    assert Content([OBS_CHUNK]) == [97, 98] + [];
    ChunkWhole(OBS_CHUNK, Encode([], PLAIN_END), 8);
  }

  lemma EndPrefix(end: End, k: nat, room: nat)
    requires GoodEnd(end) && k < |Encode([], end)|
    ensures Decode(Encode([], end)[..k], room) == Decoded([], true)
  {
    hide ReadLine, TrailerDone;
    var rest := TrailerSection(end.trailers);
    ReadsLine(end.numeral, end.extension, 0, rest, k);
    if k >= |end.numeral| + |end.extension| + 2 {
      TrailerPrefix(end.trailers, k - |end.numeral| - |end.extension| - 2);
    }
  }

  lemma LinePrefix(c: Chunk, rest: seq<byte>, k: nat, room: nat)
    requires GoodChunk(c) && k <= |c.numeral| + |c.extension| + 2 + |rest|
    requires k < |c.numeral| + |c.extension| + 2 || !Utf8(c.extension)
    ensures Decode((c.numeral + c.extension + CRLF + rest)[..k], room) == Decoded([], true)
  {
    hide ReadLine;
    ReadsLine(c.numeral, c.extension, |c.data|, rest, k);
  }

  /** Anything short of the whole encoding gives a prefix of the body and is marked truncated. */
  lemma {:induction false} PrefixTruncated(chunks: seq<Chunk>, end: End, k: nat, room: nat)
    requires Good(chunks, end) && k < |Encode(chunks, end)|
    ensures var d := Decode(Encode(chunks, end)[..k], room);
            d.truncated && d.body <= Content(chunks) && |d.body| <= room
    decreases |chunks|
  {
    hide Decode, Utf8, GoodEnd;
    if chunks == [] {
      EndPrefix(end, k, room);
    } else {
      var c, rest := chunks[0], Encode(chunks[1..], end);
      var start := |c.numeral| + |c.extension| + 2;
      assert GoodChunk(c) && Good(chunks[1..], end);
      if start <= k && Utf8(c.extension) {
        ChunkStep(c, rest, k, room);
        if |c.data| <= room && start + |c.data| + 2 <= k {
          PrefixTruncated(chunks[1..], end, k - start - |c.data| - 2, room - |c.data|);
        }
      } else {
        LinePrefix(c, c.data + CRLF + rest, k, room);
      }
    }
  }

  // ------------------------------------------------------- the whole function

  /** A body that is not marked truncated is stable under more captured bytes, and bytes are only ever added. */
  lemma BodyStable(response: Response, more: seq<byte>, limit: nat)
    ensures var longer := response.(captured := response.captured + more);
            Extends(Body(response, limit), Body(longer, limit))
  {
    MoreExtends(response.captured, more, limit);
  }

  /** Without chunked framing, `complete` means: a length was announced and exactly that much is returned. */
  lemma DelimitedComplete(contentLength: Option<nat>, captured: seq<byte>, limit: nat)
    ensures var d := Delimited(contentLength, captured, limit);
            && d.body <= captured && |d.body| <= limit
            && (!d.truncated <==> contentLength.Some? && contentLength.value <= |captured| && contentLength.value <= limit)
            && (!d.truncated ==> |d.body| == contentLength.value)
  {
  }

  // ----------------------------------------------------------------- the code

  /** The least of the captured length, the announced length if there is one, and the limit. */
  function Least(announced: Option<nat>, captured: nat, limit: nat): (n: nat)
    ensures n <= captured && n <= limit && (announced.Some? ==> n <= announced.value)
    ensures n == captured || n == limit || announced == Some(n)
  {
    Min(Min(captured, limit), if announced.Some? then announced.value else captured)
  }

  /** What is computed for a chunked response, said about its encoder and the unlimited decoder. */
  lemma ChunkedMeaning(captured: seq<byte>, limit: nat)
    ensures Decode(captured, limit) == Limited(DecodeAll(captured), limit)
    ensures forall chunks, end | Good(chunks, end) && captured == Encode(chunks, end) ::
              Decode(captured, limit) == Wanted(chunks, limit) <==> Readable(chunks, end, limit)
  {
    hide Decode, DecodeAll, Encode, Good, Readable, Wanted;
    LimitRefines(captured, limit);
    forall chunks, end | Good(chunks, end) && captured == Encode(chunks, end)
      ensures Decode(captured, limit) == Wanted(chunks, limit) <==> Readable(chunks, end, limit)
    {
      RoundTrip(chunks, end, limit);
    }
  }

  /** The loop over the chunks. */
  method DecodeChunks(captured: seq<byte>, limit: nat) returns (body: seq<byte>, truncated: bool)
    requires |captured| < WORD / 2
    ensures Decoded(body, truncated) == Decode(captured, limit) && |body| <= limit
  {
    hide ReadLine, Decode;
    var remaining, decoded := captured, [];
    while true
      invariant |remaining| <= |captured| && |decoded| <= limit
      invariant Decode(captured, limit) == Behind(decoded, Decode(remaining, limit - |decoded|))
      decreases |remaining|
    {
      var line := ReadLine(remaining);
      DecodeCases(remaining, limit - |decoded|);
      if line.NoLine? {
        return decoded, true;
      }
      var size := line.size;
      ghost var before := decoded;
      remaining := line.after;
      if size == 0 {
        var blank := HasBlankLine(remaining);
        return decoded, !(CrlfAt(remaining, 0) || blank);
      }
      var take := Take(size, remaining, limit - |decoded|);
      decoded := decoded + remaining[..take];
      var end := Min(size + 2, WORD - 1);
      if take < size || end > |remaining| || remaining[size..end] != CRLF {
        return decoded, true;
      }
      ghost var later := Decode(remaining[size + 2..], limit - |decoded|);
      BehindTwice(before, remaining[..take], later);
      remaining := remaining[size + 2..];
    }
  }

  /** The body of a rejected upgrade, and whether it is marked truncated, for every response and every limit. */
  method HandshakeBody(response: Response, limit: nat) returns (body: seq<byte>, truncated: bool)
    requires |response.captured| < WORD / 2
    ensures Decoded(body, truncated) == Body(response, limit)
    ensures |body| <= limit
    ensures var bodiless := 100 <= response.status <= 199 || response.status == 204 || response.status == 304;
            && (bodiless ==> body == [] && !truncated)
            && (!bodiless && response.chunked ==> Decoded(body, truncated) == Limited(DecodeAll(response.captured), limit))
            && (!bodiless && response.chunked ==>
                  forall chunks, end | Good(chunks, end) && response.captured == Encode(chunks, end) ::
                    body == Cut(Content(chunks), limit) && truncated == (|Content(chunks)| > limit)
                    <==> Readable(chunks, end, limit))
            && (!bodiless && !response.chunked ==>
                  && body == response.captured[..Least(response.contentLength, |response.captured|, limit)]
                  && (!truncated <==> response.contentLength.Some? && response.contentLength.value == |body|))
  {
    hide Decode, DecodeAll, Encode, Good, Readable, Content;
    if Bodiless(response.status) {
      return [], false;
    }
    if !response.chunked {
      var result := Delimited(response.contentLength, response.captured, limit);
      return result.body, result.truncated;
    }
    ChunkedMeaning(response.captured, limit);
    body, truncated := DecodeChunks(response.captured, limit);
  }

  lemma PlainExample(extension: seq<byte>)
    requires IsExtension(extension) && CrlfFree(extension) && Ascii(extension)
    ensures Decode(Encode([Chunk([50], extension, [104, 105])], PLAIN_END), 65536) == Decoded([104, 105], false)
  {
    var c := Chunk([50], extension, [104, 105]);
    assert NumeralValue([50], 0) == 2 && NumeralValue([48], 0) == 0;
    AsciiPrefixUtf8(extension, []);
    assert extension + [] == extension;
    assert Content([c]) == [104, 105] + [];
    assert GoodChunk(c) && Good([c], PLAIN_END);
    RoundTrip([c], PLAIN_END, 65536);
    assert Readable([c], PLAIN_END, 65536) by {
      assert Readable([], PLAIN_END, 65534);
      assert [c][1..] == [];
    }
  }

  /** Byte by byte: "2", "hi", "0", each ended by 13 and 10, and an empty line; and the same with an extension behind a blank. */
  lemma WorkedExample()
    ensures Decode([50, 13, 10, 104, 105, 13, 10, 48, 13, 10, 13, 10], 65536) == Decoded([104, 105], false)
    ensures Decode([50, 32, 59, 97, 13, 10, 104, 105, 13, 10, 48, 13, 10, 13, 10], 65536) == Decoded([104, 105], false)
  {
    hide Decode;
    PlainExample([]);
    PlainExample([32, 59, 97]);
    var c, d := Chunk([50], [], [104, 105]), Chunk([50], [32, 59, 97], [104, 105]);
    assert Encode([c], PLAIN_END) == [50, 13, 10, 104, 105, 13, 10, 48, 13, 10, 13, 10];
    assert Encode([d], PLAIN_END) == [50, 32, 59, 97, 13, 10, 104, 105, 13, 10, 48, 13, 10, 13, 10];
  }
}
