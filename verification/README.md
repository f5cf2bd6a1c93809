# A verified model of the gocodex transports

gocodex is a Go front end and a native Rust bridge for two transports, WebSocket
and HTTP. This project models the parts of it whose correctness depends on state,
interleaving or byte arithmetic, and proves what the code keeps over every run:

* **One WebSocket connection** (`Connection.dfy` and the modules named
  `Connection…`): any number of concurrent `ReadMessage`, `WriteMessage`,
  `WriteControl` and `Close` calls over the locks `reader`, `data_write`,
  `control_gate` and `writer`, the cancellation token, the flag
  `peer_close_received` and one frame sink. A label is one section of native code
  between two points where another task can run, a step of the Go side, or something
  the environment does; `Enabled` and `Apply` are the transition relation and `Runs`
  and `After` its finite runs.
* **The fragment loop** (`Fragmentation.dfy`) with a receiver that follows section 5.4
  of RFC 6455.
* **The body of a rejected upgrade** (`Unicode.dfy`, `ChunkLine.dfy`, `HandshakeBody.dfy`): the
  incremental, size-limited decoder of chunked framing (section 7.1 of RFC 9112).
* **The handle registry** (`Registry.dfy`): its critical sections as a class, and the
  races between them with a tree of cancellation tokens.
* **One HTTP call and its response body** (`HttpCall.dfy`, `HttpErrors.dfy`, and the
  modules named `ResponseBody…`): the native phase machine under `responseBody` under
  `transportBody`, with concurrent reads and closes, both mutexes and the finisher.
* **`Transport.RoundTrip`** (`OnceFunc.dfy` and the modules named `RoundTrip…`):
  who closes the upload, who runs the context finisher, and what is sent.
* **Error chains** (`ErrorChain.dfy`): the walks that classify a failed request.

`dafny verify dfyconfig.toml` checks everything.

## How the code maps to transitions

Everything a step of a transition system does is written once, in these functions:

* `Connection.TakingReader`, `HandleIncoming`, `Flushed`, `FlushRefused`: `read`, rust/src/websocket_client.rs:399-453.
* `Connection.SendingData`, `SendingControl`, `SendRefused`: `write`, rust/src/websocket_client.rs:465-532; `Connection.WriteError`: rust/src/websocket_client.rs:131-151.
* `Connection.EnteringGate`, `TakingWriter`, `Released`: lock acquisition and the drop of the guards, rust/src/websocket_client.rs:472-482, 524-526, 434-435.
* `Connection.OperationResult`, `Disposes`, `FinishCall`: websocket/client.go:271-334; `EnvConn`, `EnvClient`: websocket/client.go:112-120, 261-269, 349-357 with rust/src/websocket_client.rs:264-284, 534-540.
* `Registry.WithClient`, `WithChild`, `WithoutClient`, `WithoutChild`: rust/src/http_client.rs:299-302, 420-427, 329-350, 518-524, and the same shapes at rust/src/websocket_client.rs:264-331, 534-540.
* `HttpCall.TakeTurn`: one turn of the loop at rust/src/http_client.rs:490-512.
* `ResponseBody.NextPc`, `NextLocks`, `NextLayers`, `NextCall`, `NextAround`: `Read` at httpclient/transport.go:352-372 (from `Entered` to `Locked`, and from `Back` on) around httpclient/client.go:302-332 (from `Inner` to `Stored`); `Close` at httpclient/transport.go:374-379 around httpclient/client.go:334-343 (from `ClosingInner` to `Releasing`).
* `OnceFunc.Call`: `sync.OnceFunc`, httpclient/transport.go:134-138, 175-181.
* `HttpErrors.TransportError`, `RequestError`: httpclient/transport.go:301-312, httpclient/client.go:254-260.
* `RoundTrip.NextMain`, `NextGates`, `NextCloser`, `NextExchange`, `NextAround`: httpclient/transport.go:128-238, 272-299.

## What is assumed of libraries

* The frame sink appends one whole frame or fails; a failed sink keeps failing; a sink
  that has started closing refuses frames with `SendAfterClosing`; it may emit a queued
  automatic reply at any send or flush. A frame sent is one step.
* `control_gate` is granted in arrival order; `data_write`, `reader` and `writer` are
  granted to waiting tasks in any order.
* A biased `select` looks at the token once at the start of each poll. A poll that has
  passed the check can run on after the token is cancelled.
* The checks of `operationError`, and those of `transportError`, are one step each.
* `sync.OnceFunc` runs its function once, in the first caller, and later callers wait
  for it; a stopped `context.AfterFunc` never starts.
* A request body that nobody has closed yields all its bytes or an error, or blocks, and
  closing it unblocks its read.
* When only the operation's context of a round trip has ended, its cause is one of the
  standard library's or `ErrTransportClosed`, so not `io.EOF`.

## Three promises that hold only under a condition

* **The peer's Close is authoritative** (websocket/client.go:284-288). A second
  `ReadMessage` that gets the reader lock after the first has stored the flag ends with
  `io.EOF`, closes the connection, and the first then reports `ErrConnClosed` in place
  of the Close frame it holds. `ConnectionTwoReaders.TwoReadersLoseClose` is such a run
  without any error, context end or close by a caller; `PeerCloseAuthoritative` says
  exactly which runs deliver the Close; `SingleReaderGetsPeerClose` says what callers
  can do about it.
* **A chunked body captured whole is decoded whole.** The size line must be UTF-8 as a
  whole, extension included, while quoted extension values may hold any byte above
  0x7F. `HandshakeBody.ObsTextLosesBody` loses a two-byte body this way, reported as
  truncated; `RoundTrip` holds if and only if the lines that are reached are UTF-8.
* **`io.EOF` means that the whole response has been read.** If the caller ends its own
  context with `io.EOF` as the cause, `transportError` returns just that, for a response
  that broke off and also for an intact one of which nothing has been read.
  `ResponseBodyEof.FalseEndExactly`: some read can return `io.EOF` for a body that is not
  whole if and only if that is the cause of the caller's context, whatever the response
  is, the empty one excepted.

## Model

| member | source | states |
|---|---|---|
| `ConnectionFraming.WireFraming` | rust/src/websocket_client.rs:465-491 | in every interleaving, until the token is cancelled, the data frames on the wire are the complete fragmentations of messages in `data_write` order plus at most one partial one, which belongs to the lock's holder or was cut off by the sink, and a receiver gets exactly the completed messages |
| `ConnectionFraming.SuccessMeansDelivered` | rust/src/websocket_client.rs:468-491 | a data write that reports success has been delivered whole, if nothing was cancelled |
| `ConnectionFraming.NextOfPlan` | rust/src/websocket_client.rs:476-489 | the frame cut at a writer's offset is the next one of its message's fragmentation |
| `ConnectionFraming.OrderReassembles` | rust/src/websocket_client.rs:77-80 | messages sent one after another under one lock reassemble to themselves, whatever the last one has got to |
| `ConnectionFraming.AlwaysFramed` | rust/src/websocket_client.rs:465-491 | the framing invariant holds after every run |
| `ConnectionOvertaking.BoundedOvertaking` | rust/src/websocket_client.rs:77-80 | while a control write or a reader's flush waits for `control_gate`, at most one more data fragment reaches the wire, and none once it holds the gate, for any message length and number of writers |
| `ConnectionOvertaking.ThreatFragment` | rust/src/websocket_client.rs:480-482 | a fragment that passes a waiting control uses up the only admission there was |
| `ConnectionLocks.AlwaysDisciplined` | rust/src/websocket_client.rs:472-490 | which locks a call holds is decided by where it is, after every run, returns and dropped polls included |
| `ConnectionProgress.LockOrder` | rust/src/websocket_client.rs:432-435 | locks are requested in the order reader or data_write, control_gate, writer on every path |
| `ConnectionProgress.WaitForClimbs` | rust/src/websocket_client.rs:472-482 | the wait-for relation strictly climbs, so it has no cycle |
| `ConnectionProgress.NoDeadlock` | rust/src/websocket_client.rs:399-532 | in every reachable state, while any call is unfinished, some call can move if the network answers |
| `ConnectionProgress.SectionsBounded` | rust/src/websocket_client.rs:399-532 | in every run, whatever the others do, a read runs at most 7 sections, a control write 4, and a data write 1 + 4 · max(1, ceil(len / size)); raw frames a read skips come on top |
| `ConnectionProgress.WorkDecreases` | rust/src/websocket_client.rs:475-490 | every section that is not the skipping of a raw frame uses up one unit of what the call can still run |
| `ConnectionProgress.OthersAddNoWork` | rust/src/websocket_client.rs:475-490 | nothing other calls do makes that bound larger |
| `ConnectionPeerClose.ReceivedIsReturned` | rust/src/websocket_client.rs:411-448 | whatever frame a read takes, its caller gets exactly that frame, type and whole payload, if and only if handles and context are alive, nothing on the Go side closes the connection before, and a Ping's acknowledgement does not fail |
| `ConnectionPeerClose.RawFrameSkipped` | rust/src/websocket_client.rs:411-431 | a raw frame a read skips leaves no trace: every run is the same without it |
| `ConnectionPeerClose.StreamEndReported` | rust/src/websocket_client.rs:412-415 | the end of the stream is reported as such, and an error as itself with its kind, never as an end |
| `ConnectionPeerClose.PeerCloseAuthoritative` | rust/src/websocket_client.rs:421-444 | a reader that takes a Close with a payload returns that Close with that payload, if and only if handles and context are alive then and nothing on the Go side closes the connection before it returns; sink errors never matter |
| `ConnectionPeerClose.SingleReaderGetsPeerClose` | websocket/client.go:289-334 | over whole runs: if nobody closes anything, no context ends, reads are not concurrent and every refused write is classified `closing`, the reader that takes a Close returns it, payload and all, whatever the sink does |
| `ConnectionOutcomes.RefusedWriteReported` | rust/src/websocket_client.rs:131-151 | a refused write, whatever happens until it returns with handles and context alive, reports `closing` and leaves the connection open if and only if the peer's Close had been received, or the error is SendAfterClosing or one of four socket errors; otherwise its own kind |
| `ConnectionOutcomes.OutcomeExplained` | websocket/client.go:271-334 | over every run: a call whose context has ended reports that, else a closed client, else a closed connection, and only else the native result; and which outcomes leave the connection open |
| `ConnectionOutcomes.ClosedForEver` | websocket/client.go:289-321 | the connection's handle is closed exactly by a close, the watcher of an ended context or such an outcome, and then every later call is refused as closed |
| `ConnectionOutcomes.NotConnectedYet` | rust/src/websocket_client.rs:407 | a call that finds the connection not established reports invalid input |
| `ConnectionOutcomes.NotAdmitted` | rust/src/websocket_client.rs:457-464 | so does a write that is not admitted, and the connection stays open |
| `ConnectionPeerClose.ReadsAfterPeerClose` | rust/src/websocket_client.rs:406-410 | after the peer's Close no message is taken any more, and every read that gets the reader ends with end of stream |
| `ConnectionTwoReaders.SecondReaderTakesOver` | websocket/client.go:271-307 | whenever a second reader gets the lock before the first has checked its handle, the first loses the Close |
| `ConnectionTwoReaders.TwoReadersLoseClose` | websocket/client.go:284-307 | a run without errors in which the Close has been taken and acknowledged and no read reports it |
| `ConnectionCancellation.AtMostOneMore` | rust/src/websocket_client.rs:468-490 | after the token is cancelled a call puts at most one more frame on the wire, and none if no poll of it was under way |
| `ConnectionCancellation.OnlyReturnsClosed` | rust/src/websocket_client.rs:468-470 | a native task that is not being polled can then only return `closed` |
| `ConnectionCancellation.InterruptedCallEnds` | websocket/client.go:261-282 | ending a call's context, or closing the connection or client, interrupts it wherever it is: without anything from the network it can be brought to its end, and reports what ended it |
| `ConnectionWire.OwnFramesExact` | rust/src/websocket_client.rs:455-530 | what a call has put on the wire: a read nothing, a control write at most its one whole frame with its opcode and payload of at most 125 bytes, a data write a prefix of its fragmentation; all of it on success |
| `ConnectionWire.RepliesAnswer` | rust/src/websocket_client.rs:432-444 | every other frame on the wire is the reply to a Ping or Close that was received, with its payload |
| `ConnectionClosing.CloseEndsData` | rust/src/websocket_client.rs:119-126 | at most one Close is ever on the wire, no data follows it, and what a receiver has before it is all it gets |
| `ConnectionClosing.InterruptedWriterKeepsConnection` | websocket/client.go:323-333 | a writer stopped by a Close fails with `closing` and leaves the handle open for the read of the peer's Close |
| `Fragmentation.WriteData` | rust/src/websocket_client.rs:472-491 | the loop sends exactly the fragmentation, or its longest prefix the sink takes, and reports which; offsets never overflow |
| `Fragmentation.FragmentsShape` | rust/src/websocket_client.rs:476-479 | payloads join to the message, all but the last are full, opcode and FIN are right on every frame |
| `Fragmentation.FragmentCount` | rust/src/websocket_client.rs:475-490 | the loop makes max(1, ceil(len / size)) frames |
| `Fragmentation.ConfiguredSizeUsable` | rust/src/websocket_client.rs:229-239 | 0 means 32768, exactly the other configurations up to 1048576 are taken as they are, and each gives a size with which the loop ends |
| `Fragmentation.ControlsTransparent` | rust/src/websocket_client.rs:77-80 | control frames at any boundary are invisible to reassembly |
| `Fragmentation.FeedPrefix` | rust/src/websocket_client.rs:475-490 | a receiver fed any prefix of a fragmentation holds the matching prefix of the message, and the message when it is whole |
| `Fragmentation.ReassemblyConserves` | rust/src/websocket_client.rs:77-80 | a receiver that reports no error has lost, added and reordered nothing, and finished one message with every FIN |
| `Fragmentation.InterleavingRejected` | rust/src/websocket_client.rs:77-80 | a message inside another, a continuation of none and a cut control frame are errors, and nothing else is |
| `HandshakeBody.HandshakeBody` | rust/src/websocket_client.rs:160-211 | statuses without a body give none, complete; an encoded chunked body gives its content cut at the limit with the right flag if and only if its lines are readable, and any other captured bytes the unlimited decoder's result cut at the limit; without chunked framing the least of captured, announced and limit, complete exactly if that was announced |
| `HandshakeBody.DecodeChunks` | rust/src/websocket_client.rs:175-201 | the loop over the chunks computes the recursive decoder that the laws below are about, and never keeps more than the limit |
| `HandshakeBody.WorkedExample` | rust/src/websocket_client.rs:175-201 | the decoder on given bytes, with and without an extension behind a blank |
| `HandshakeBody.HasBlankLine` | rust/src/websocket_client.rs:189-190 | the window search finds an empty line exactly if there is one |
| `HandshakeBody.FirstCrlfIsFirst` | rust/src/websocket_client.rs:178 | the search finds the first CRLF and misses none |
| `HandshakeBody.LimitRefines` | rust/src/websocket_client.rs:193-199 | for arbitrary bytes, the limited decoder is the unlimited one cut at the limit, and reports truncation exactly if that one does or something is cut off |
| `HandshakeBody.MoreExtends` | rust/src/websocket_client.rs:175-201 | capturing more bytes only extends the result, and a complete result is final |
| `HandshakeBody.BodyStable` | rust/src/websocket_client.rs:160-211 | the same for the whole function, bodies without chunked framing included |
| `HandshakeBody.RoundTrip` | rust/src/websocket_client.rs:175-201 | for every body, split, numeral, extension with blanks before it, trailer and limit, decoding the encoding gives the body cut at the limit with the right flag, if and only if the size lines reached are UTF-8 |
| `HandshakeBody.PlainRoundTrip` | rust/src/websocket_client.rs:175-201 | without extensions and trailers the round trip holds for every split and limit |
| `HandshakeBody.Utf8Readable` | rust/src/websocket_client.rs:181-183 | UTF-8 extensions make every size line readable |
| `HandshakeBody.PrefixTruncated` | rust/src/websocket_client.rs:175-201 | every strict prefix of an encoding gives a prefix of the body, marked truncated |
| `HandshakeBody.ObsTextLosesBody` | rust/src/websocket_client.rs:181-186 | a well-formed body with a byte above 0x7F in an extension decodes to nothing |
| `HandshakeBody.DelimitedComplete` | rust/src/websocket_client.rs:203-210 | without chunked framing, complete means that an announced length was captured and fits the limit |
| `ChunkLine.ParsesNumerals` | rust/src/websocket_client.rs:181-183 | parsing succeeds exactly on hexadecimal numerals below 2^64, with their value |
| `ChunkLine.PrintedValue` | rust/src/websocket_client.rs:181-183 | what is printed in hexadecimal reads back as the same number |
| `ChunkLine.NumeralLine` | rust/src/websocket_client.rs:181-183 | a numeral followed by blanks and an extension announces its value if and only if the rest of the line is UTF-8 |
| `ChunkLine.NumeralTrimmed` | rust/src/websocket_client.rs:183 | trimming takes away the blanks behind a numeral and nothing of the numeral |
| `ChunkLine.DigitExactly` | rust/src/websocket_client.rs:183 | the hexadecimal digits are the sixteen of either case |
| `ChunkLine.ParseHexExactly` | rust/src/websocket_client.rs:183 | what parses as n is a numeral of value n below 2^64, after a plus sign or not, and nothing else |
| `ChunkLine.BeforeSemicolonExactly` | rust/src/websocket_client.rs:183 | the line is cut at its first semicolon, or not at all |
| `Unicode.Utf8Exactly` | rust/src/websocket_client.rs:181-182 | bytes are accepted as text exactly if they are encodings of Unicode scalar values (section 3 of RFC 3629) |
| `Unicode.TrimExactly` | rust/src/websocket_client.rs:183 | trimming takes white space characters away from both ends, all of them, and nothing else |
| `Unicode.WhiteSpaceExactly` | rust/src/websocket_client.rs:183 | white space is what has the White_Space property |
| `Registry.Registry.Next` | rust/src/http_client.rs:204-211 | the following handle, in use for nothing, or none and no change at the end of the range |
| `Registry.Registry.AddClient` | rust/src/http_client.rs:299-302 | the client is entered under a handle that is not 0 and in use for nothing, or, at the end of the range only, nothing changes |
| `Registry.Registry.AddChild` | rust/src/http_client.rs:420-427 | the call is entered under a handle that is in use for nothing if its client is still there, otherwise nothing changes |
| `Registry.Registry.CreateRequest` | rust/src/http_client.rs:352-427 | without competition a request is created exactly if its client is there and a handle is left, under a handle in use for nothing, hanging from its client's token, and nothing else changes |
| `Registry.Registry.RemoveClient` | rust/src/http_client.rs:329-343 | the client and exactly its own calls are removed, so that no call is left without its client |
| `Registry.Registry.RemoveChild` | rust/src/http_client.rs:518-519 | one call is removed and nothing else |
| `Registry.ClientsExactly` | rust/src/http_client.rs:299-343 | over every run, a client is there exactly if its handle was returned and no close of it has come since |
| `Registry.FoundExactly` | rust/src/http_client.rs:430-436 | over every run, a lookup finds exactly the calls whose handle was returned and that neither a close of their own nor one of their client has taken since |
| `Registry.RegistryInvariant` | rust/src/http_client.rs:329-427 | in every reachable state, races included, a call names a live client and hangs from its token, handles are disjoint and not 0, and no call that can be looked up is cancelled |
| `Registry.NeverReissued` | rust/src/http_client.rs:204-211 | a handle that is returned is not 0 and was never returned before |
| `Registry.CloseCovers` | rust/src/http_client.rs:329-350 | what `close` or `close_request` removes is cancelled, directly or through its parent, and never found again, whatever happens in between |
| `Registry.CancelIsolated` | rust/src/http_client.rs:344-349 | a cancellation reaches no call of another client, no sibling, and no call being built for a live client |
| `Registry.GoneForGood` | rust/src/http_client.rs:430-436 | a call that has left the registry is never found under its handle again |
| `Registry.LostRaceInsertsNothing` | rust/src/http_client.rs:420-424 | a creation that loses the race against `close` enters nothing and returns no handle, and its call's parent token is cancelled or about to be by that `close` |
| `HttpCall.Call.Send` | rust/src/http_client.rs:442-476 | only the first send can succeed, a later one is invalid input; the call streams on success and is done on failure, which is reported |
| `HttpCall.Call.Read` | rust/src/http_client.rs:478-516 | the next bytes in order while any are left, min(len, 65536) of them or the rest of the chunk they are in, then how the stream ended; empty chunks are skipped and the loop ends |
| `HttpCall.TurnConserves` | rust/src/http_client.rs:490-512 | each turn of the loop hands out bytes from the front or none, and keeps how the stream ends |
| `HttpCall.ReadsConserve` | rust/src/http_client.rs:478-516 | for every stream and sequence of buffer sizes, what was delivered and what remains is the original, and enough reads deliver all of it and then its real ending |
| `HttpCall.FailureForgotten` | rust/src/http_client.rs:493-504 | after a failure the native machine alone reports a clean end |
| `ResponseBodyContract.EofMeansCleanEnd` | httpclient/transport.go:352-372 | over all runs of reads, closes and endings, `io.EOF` means that the stream ended with None and all its bytes were delivered in order, or that the caller's context ended with cause `io.EOF` |
| `ResponseBodyEof.FalseEndExactly` | httpclient/transport.go:301-312 | for every response and all causes: some run returns `io.EOF` for a body that is not whole if and only if the caller's cause is `io.EOF` and the response is not empty and clean |
| `ResponseBodyContract.WhenMappedToEof` | httpclient/transport.go:301-312 | exactly when an error comes out as `io.EOF` |
| `ResponseBodyEof.CauseEndsAnyStream` | httpclient/transport.go:301-304 | under that cause any response at all can end in `io.EOF` at its first read |
| `ResponseBodyContract.BytesConserved` | httpclient/client.go:302-332 | delivered bytes, the active read's bytes and what the native call holds are the original stream, so the copy into the buffer drops nothing |
| `ResponseBodyContract.ReadFills` | httpclient/client.go:314-331 | a successful read with a non-empty buffer returns 1 to min(len, 65536) bytes, with an empty one none, and an error comes without bytes |
| `ResponseBodyContract.OneTerminalError` | httpclient/transport.go:352-372 | after the first error no bytes come, and the error stays the same until the body is closed, and ErrBodyClosed for good then |
| `ResponseBodyContract.ReadAfterCloseFails` | httpclient/transport.go:352-379 | a read that starts after a close has marked the body gets ErrBodyClosed and never reaches the native call |
| `ResponseBodyLocks.CloseNeverWaits` | httpclient/client.go:296-343 | in every reachable state a close can be brought to its end in at most nine steps, none of them of a native read, and whoever holds `mu` or runs the finisher is outside the native read and can go on |
| `ResponseBodyLocks.CloseReleases` | httpclient/transport.go:374-379 | once any close has returned, a second one included, the native request is closed and cancelled, a blocked native read can see that, and the finisher has run exactly once |
| `ResponseBodyEnding.CloseInterruptsRead` | httpclient/client.go:334-343 | then a blocked read can be brought to its return without a turn of the native read, and returns ErrBodyClosed |
| `ResponseBodyEnding.EndInterruptsRead` | httpclient/client.go:220-221 | the end of the operation's context interrupts a blocked read in the same way, with the error that ended it |
| `ResponseBodyEnding.ReadErrorExplained` | httpclient/transport.go:361-371 | over every run in which nothing more ends: a read reports a closed body, else the caller's cause, else the closed transport, else the operation's cause, else the closed client, and only else what the native read said |
| `ResponseBodyEnding.ClientErrorExplained` | httpclient/client.go:314-331 | a read of the native client alone comes back with ErrBodyClosed for a closed body, else the context's error, else ErrClientClosed, else what the native read said |
| `ResponseBodyEnding.ErrorReleases` | httpclient/client.go:318-330 | once a read has returned another error, `io.EOF` included, the request is closed and the finisher has run without any close |
| `RoundTripContract.UploadClosedOnce` | httpclient/transport.go:133-139 | on every path and for every timing the upload is closed exactly once and that close is over when RoundTrip returns, after which no goroutine is started to close it |
| `RoundTripContract.FinisherRunsOnce` | httpclient/transport.go:173-186 | the context finisher runs at most once and ends the context; it has run after a failure with a context, a terminal read or a close of the body, and not while a response is out untouched |
| `RoundTripContract.OnlyWholeUploadsSent` | httpclient/transport.go:192-204 | only the whole upload, of the declared length, is ever sent, although a cancellation closes it while it is being read; a response stays open exactly if it is returned |
| `RoundTripContract.CancelledSendsNothing` | httpclient/transport.go:187-201 | once a context has ended, a request that has not passed the check after its upload is never sent and fails |
| `RoundTripContract.CallersCauseWins` | httpclient/transport.go:188-201 | once the caller's context has ended before the last check, its cause is what RoundTrip reports, whatever else ended |
| `RoundTripOutcomes.OutcomeExplained` | httpclient/transport.go:128-239 | what RoundTrip returns over every run, by where it leaves: the request's fault, the closed transport, at the checks and after a failed Client.Do the first of what has ended, else the error at hand |
| `RoundTripOutcomes.SendFailureMapped` | httpclient/transport.go:231-234 | a failed Client.Do is reported as the caller's cause, else the closed transport, else the operation's cause, else itself |
| `RoundTripOutcomes.SucceedsUnlessPrevented` | httpclient/transport.go:128-270 | if nothing ends, closes or fails, RoundTrip returns the response and has sent exactly the upload |
| `RoundTripContract.ClosedTransportRefuses` | httpclient/transport.go:81-100 | a closed transport refuses, makes no context and sends nothing; the request's own fault is reported first |
| `RoundTripContract.NeverStuck` | httpclient/transport.go:192-201 | until it has returned, RoundTrip or the goroutine it waits for can go on; only while a blocking upload is read does it wait, and then for nothing but the end of the context |
| `RoundTripContract.CancelUnblocksUpload` | httpclient/transport.go:194-197 | once the context has ended, a blocked upload gets closed exactly once without any step of RoundTrip, and then the read can return |
| `RoundTripContract.RoundTripEnds` | httpclient/transport.go:128-270 | RoundTrip takes a bounded number of steps of its own |
| `ErrorChain.HasHandshakeFailureSource` | rust/src/lib.rs:108-147 | the walk answers true exactly if some node is a peer alert or a SOCKS connect failure and no node anywhere is a failed certificate check |
| `ErrorChain.ScanStack` | rust/src/lib.rs:123-136 | the loop over one OpenSSL stack, with its early return |
| `ErrorChain.IsUnexpectedEof` | rust/src/lib.rs:151-167 | true exactly if some node is an unexpected end |
| `ErrorChain.IsDnsError` | rust/src/lib.rs:86-106 | true exactly if a connection failed and some cause, not the error itself, is a labelled resolver phase with a source |
| `ErrorChain.Classify` | rust/src/lib.rs:65-84 | every error gets the first kind in priority order whose own condition holds, and the joined texts without the outer URL |
| `ErrorChain.FromSource` | rust/src/lib.rs:53-62 | the message is the texts of the chain from the outside in |
| `ErrorChain.OrderPlaysNoPart` | rust/src/lib.rs:108-147 | chains that show the same evidence in any order, stacks in any order, labelled phases included, are judged alike |
| `ErrorChain.RearrangedAlike` | rust/src/lib.rs:108-167 | the nodes above the innermost cause can stand in any order |
| `ErrorChain.InnermostMatters` | rust/src/lib.rs:137-141 | the innermost cause cannot move, because the SOCKS phase counts only on a node that has a source |
| `ErrorChain.WrappingChangesNothing` | rust/src/lib.rs:108-167 | wrapping an error in a node of no concern changes neither judgement |
| `ErrorChain.WrappingExposesDns` | rust/src/lib.rs:95-105 | for the resolver's phase, wrapping brings exactly the former outermost node into view |

## Left out

- ConnectionFraming.WireFraming: says how frames can be cut off only up to the moment the token is cancelled, because a poll already under way may be dropped with its frame half written
- ConnectionProgress.NoDeadlock: promises that some call can move, not that a given one is served in the end, because nothing is assumed about the fairness of the scheduler and of the three mutexes
- Fragmentation.WriteData: runs the loop without competing tasks; the competition is in the `Connection` modules, where the loop is one section per turn
- HttpCall.Call.Read: is one read that nobody cancels; cancellation in the middle of a read is the label `SeeCancel` of `ResponseBody`
- ResponseBodyLocks.CloseNeverWaits: promises that a close can always be brought to its end without the native read, not that a scheduler which starves it does so; closing the native request while holding `mu` is one step, with the registry mutex inside it
- Registry.CloseCovers: speaks of registry entries and tokens; that a cancelled token stops a call is in `ConnectionCancellation` and `ResponseBody`
- TLS, sockets, proxies, DNS, the Tokio scheduler, tungstenite and reqwest: foreign code behind the assumptions above
- redirects and cookie scoping: their rules are in route_aware_redirect.rs, which is not part of this model
- cgo pointers, buffer ownership, signal masks and panic capture: memory and operating system, not state
- JSON, base64, URL and option parsing, UTF-8 and close-code checks of a write: library calls; a write they refuse is the event `Reject`
- recognition of the chunked token and of Content-Length in the headers: given to `HandshakeBody` as parsed values
- `connect` except for the order in which it stores writer and reader, and the handshake timeout
- response metadata assembled by RoundTrip (status text, lengths, connection persistence) and header copying
- a context that has ended before a WebSocket call, or a nil one: the call returns without touching the connection
- the inside of Client.Do up to the response, and the wrapping of `dns` and `connect` errors in net.OpError
- the default and the bound of the captured handshake body: the limit is a parameter
- garbage-collected cleanup, keep-alives, and panics inside `sync.OnceFunc`
- wall-clock time: a timeout is an event that can happen whenever its context exists
- build, packaging, examples and smoke tests
