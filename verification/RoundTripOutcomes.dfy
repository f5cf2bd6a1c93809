/** What RoundTrip returns, told from what happened in the run. */
module RoundTripOutcomes {
  import opened Bytes
  import opened HttpErrors
  import opened OnceFunc
  import opened RoundTrip
  import opened RoundTripContract

  // -------------------------------------------------------------- the history

  /** The flags of a state say what the run to it contained, as long as RoundTrip is not leaving. */
  predicate Records(s: State, seen: seq<Label>, requestCause: GoError, operationCause: GoError) {
    && (s.around.request.ended <==> EndRequest in seen) && s.around.request.cause == requestCause
    && (s.around.lifetimeEnded <==> EndLifetime in seen)
    && (s.transportClosed <==> CloseTransport in seen)
    && (EndOperation in seen ==> s.around.operation.ended) && s.around.operation.cause == operationCause
    && (OutcomeOf(s.main).None? && s.around.operation.ended ==> EndOperation in seen || EndRequest in seen)
  }

  lemma NextRecords(main: Main, request: Request, gates: Gates, closed: bool, around: Surroundings, c: Choice)
    requires MainCan(main, request, gates, c)
    ensures var around' := NextAround(main, gates, around);
            && around'.request == around.request && around'.lifetimeEnded == around.lifetimeEnded
            && around'.operation.cause == around.operation.cause
            && (around.operation.ended ==> around'.operation.ended)
            && (OutcomeOf(NextMain(main, request, gates, closed, around, c)).None? ==>
                  OutcomeOf(main).None? && (around'.operation.ended ==> around.operation.ended || around.request.ended))
  {
    hide MapError, LengthMismatch, TransportError;
  }

  lemma UsersAfterResponse(s: State, t: TaskId)
    requires Valid(s) && t in s.users
    ensures OutcomeOf(s.main).Some?
  {
  }

  lemma StepRecords(s: State, l: Label, seen: seq<Label>, requestCause: GoError, operationCause: GoError)
    requires Valid(s) && Enabled(s, l) && Records(s, seen, requestCause, operationCause)
    ensures Records(Apply(s, l), seen + [l], requestCause, operationCause)
  {
    hide NextMain, NextGates, NextExchange, NextCloser, NextAround, MainCan, UploadOk, CutOk, SentOk;
    assert forall x :: x in seen + [l] <==> x in seen || x == l;
    match l
    case MainStep(c) => NextRecords(s.main, s.request, s.gates, s.transportClosed, s.around, c);
    case UserStep(t) => UsersAfterResponse(s, t);
    case _ =>
  }

  lemma {:induction false} AlwaysRecords(s: State, seen: seq<Label>, ls: seq<Label>, requestCause: GoError, operationCause: GoError)
    requires Valid(s) && Runs(s, ls) && Records(s, seen, requestCause, operationCause)
    ensures Records(After(s, ls), seen + ls, requestCause, operationCause)
    decreases |ls|
  {
    hide Valid, Apply, Records;
    if ls == [] {
      assert seen + ls == seen;
    } else {
      StepValid(s, ls[0]);
      StepRecords(s, ls[0], seen, requestCause, operationCause);
      AlwaysRecords(Apply(s, ls[0]), seen + [ls[0]], ls[1..], requestCause, operationCause);
      assert seen + [ls[0]] + ls[1..] == seen + ls;
    }
  }

  // ------------------------------------------------------------ the outcome stays

  lemma StepOutcome(s: State, l: Label)
    requires Enabled(s, l) && OutcomeOf(s.main).Some?
    ensures OutcomeOf(Apply(s, l).main) == OutcomeOf(s.main)
  {
    hide MapError, LengthMismatch, TransportError;
  }

  lemma {:induction false} OutcomeStays(s: State, ls: seq<Label>)
    requires Runs(s, ls) && OutcomeOf(s.main).Some?
    ensures OutcomeOf(After(s, ls).main) == OutcomeOf(s.main)
    decreases |ls|
  {
    hide Apply;
    if ls != [] {
      StepOutcome(s, ls[0]);
      OutcomeStays(Apply(s, ls[0]), ls[1..]);
    }
  }

  // ------------------------------------------------------------ what is returned

  /** What has ended so far, in the order in which it is reported. */
  function EndedBy(seen: seq<Label>, requestCause: GoError, operationCause: GoError): Option<GoError> {
    if EndRequest in seen then Some(requestCause)
    else if EndLifetime in seen then Some(ErrTransportClosed)
    else if EndOperation in seen then Some(operationCause)
    else None
  }

  function Either(ended: Option<GoError>, other: GoError): Outcome {
    Failed(if ended.Some? then ended.value else other)
  }

  /** The outcome that leaving at a point of RoundTrip has. */
  predicate Explains(main: Main, request: Request, c: Choice, ended: Option<GoError>, closed: bool, outcome: Outcome) {
    match main
    case Validating => request.refusal.Some? && outcome == Failed(request.refusal.value)
    case Opening => if closed then outcome == Failed(ErrTransportClosed) else c.Fail? && outcome == Failed(c.reason)
    case Checking => ended.Some? && outcome == Failed(ended.value)
    case Mapping(_, err) => (ended.Some? || err.Some?) && outcome == Either(ended, if err.Some? then err.value else Invalid)
    case Sizing(body) =>
      !request.chunked && 0 < request.contentLength && |body| != request.contentLength && outcome == Failed(Invalid)
    case Waiting => c.Fail? && outcome == Either(ended, c.reason)
    case Received => !c.Fail? && outcome == Responded
    case Discarding => outcome == Failed(Invalid)
    case _ => false
  }

  lemma LeavingExplained(s: State, c: Choice, seen: seq<Label>, requestCause: GoError, operationCause: GoError)
    requires Enabled(s, MainStep(c)) && Records(s, seen, requestCause, operationCause)
    requires OutcomeOf(s.main).None? && OutcomeOf(RunMain(s, c).main).Some?
    ensures Explains(s.main, s.request, c, EndedBy(seen, requestCause, operationCause), CloseTransport in seen,
                     OutcomeOf(RunMain(s, c).main).value)
  {
  }

  /**
    What RoundTrip returns, over every run, is decided where it leaves: a refused
    request by its fault; a closed transport by ErrTransportClosed; at the two checks
    of the contexts, and when Client.Do fails, by the cause of the caller's context if
    it has ended, else by ErrTransportClosed if the transport has, else by the cause
    of the operation's context, and only else by the error at hand.
   */
  lemma OutcomeExplained(request: Request, requestCause: GoError, operationCause: GoError, before: seq<Label>, c: Choice, ls: seq<Label>)
    requires Runs(Init(request, requestCause, operationCause), before)
    requires var s := After(Init(request, requestCause, operationCause), before);
             && OutcomeOf(s.main).None? && Enabled(s, MainStep(c)) && OutcomeOf(Apply(s, MainStep(c)).main).Some?
             && Runs(Apply(s, MainStep(c)), ls) && After(Apply(s, MainStep(c)), ls).main.Returned?
    ensures var s := After(Init(request, requestCause, operationCause), before);
            Explains(s.main, request, c, EndedBy(before, requestCause, operationCause), CloseTransport in before,
                     After(Apply(s, MainStep(c)), ls).main.outcome)
  {
    var s0 := Init(request, requestCause, operationCause);
    AlwaysValid(s0, before);
    AlwaysRecords(s0, [], before, requestCause, operationCause);
    assert [] + before == before;
    LeavingExplained(After(s0, before), c, before, requestCause, operationCause);
    OutcomeStays(Apply(After(s0, before), MainStep(c)), ls);
  }

  /**
    In particular, when Client.Do fails, RoundTrip reports the cause of the caller's
    context, the closed transport, or the end of the operation, in that order, and
    Do's own error only if none of them has ended.
   */
  lemma SendFailureMapped(request: Request, requestCause: GoError, operationCause: GoError, before: seq<Label>, reason: GoError, ls: seq<Label>)
    requires Runs(Init(request, requestCause, operationCause), before)
    requires var s := After(Init(request, requestCause, operationCause), before);
             && s.main.Waiting? && Runs(Apply(s, MainStep(Fail(reason))), ls)
             && After(Apply(s, MainStep(Fail(reason))), ls).main.Returned?
    ensures var s := After(Init(request, requestCause, operationCause), before);
            After(Apply(s, MainStep(Fail(reason))), ls).main.outcome == Failed(
              if EndRequest in before then requestCause
              else if EndLifetime in before then ErrTransportClosed
              else if EndOperation in before then operationCause
              else reason)
  {
    OutcomeExplained(request, requestCause, operationCause, before, Fail(reason), ls);
  }

  // ---------------------------------------------------------------- and success

  /** Nothing ends, nothing is closed, and neither the upload nor the native side fails. */
  predicate Smooth(l: Label, request: Request) {
    match l
    case EndRequest => false
    case EndOperation => false
    case EndLifetime => false
    case CloseTransport => false
    case MainStep(Fail(_)) => false
    case MainStep(Read(body, err)) => err.None? && body == UploadBytes(request)
    case _ => true
  }

  predicate AllSmooth(ls: seq<Label>, request: Request) {
    forall l | l in ls :: Smooth(l, request)
  }

  /** A request without a fault, of the length it declares. */
  predicate Faultless(request: Request) {
    && request.refusal.None?
    && (request.chunked || request.contentLength <= 0 || |UploadBytes(request)| == request.contentLength)
  }

  predicate GoesWell(s: State) {
    && !s.transportClosed && !s.around.request.ended && !s.around.lifetimeEnded
    && (OutcomeOf(s.main).None? ==> !s.around.operation.ended)
    && (OutcomeOf(s.main).Some? ==> OutcomeOf(s.main).value == Responded)
    && !s.main.Discarding?
    && (s.main.Stopping? || s.main.ClosingUpload? || s.main.Mapping? ==> s.main.err.None? && s.main.body == UploadBytes(s.request))
    && (s.main.Sizing? || s.main.Sending? ==> s.main.body == UploadBytes(s.request))
  }

  lemma MainGoesWell(s: State, c: Choice)
    requires Valid(s) && Faultless(s.request) && GoesWell(s) && MainCan(s.main, s.request, s.gates, c) && Smooth(MainStep(c), s.request)
    ensures GoesWell(RunMain(s, c))
  {
    hide UploadOk, FinishOk, UsersOk;
  }

  lemma StepGoesWell(s: State, l: Label)
    requires Valid(s) && Faultless(s.request) && GoesWell(s) && Enabled(s, l) && Smooth(l, s.request)
    ensures GoesWell(Apply(s, l))
  {
    hide RunMain, MainCan;
    match l
    case MainStep(c) => MainGoesWell(s, c);
    case UserStep(t) => UsersAfterResponse(s, t);
    case _ =>
  }

  lemma {:induction false} AlwaysGoesWell(s: State, ls: seq<Label>)
    requires Valid(s) && Faultless(s.request) && GoesWell(s) && Runs(s, ls) && AllSmooth(ls, s.request)
    ensures GoesWell(After(s, ls))
    decreases |ls|
  {
    hide Valid, Apply, GoesWell, Faultless, Smooth;
    if ls != [] {
      assert ls[0] in ls && forall l | l in ls[1..] :: l in ls;
      StepValid(s, ls[0]);
      StepGoesWell(s, ls[0]);
      AlwaysGoesWell(Apply(s, ls[0]), ls[1..]);
    }
  }

  /** If nothing goes wrong RoundTrip returns the response, and the request has carried exactly the upload. */
  lemma SucceedsUnlessPrevented(request: Request, requestCause: GoError, operationCause: GoError, ls: seq<Label>)
    requires Faultless(request) && Runs(Init(request, requestCause, operationCause), ls) && AllSmooth(ls, request)
    requires After(Init(request, requestCause, operationCause), ls).main.Returned?
    ensures var s := After(Init(request, requestCause, operationCause), ls);
            s.main.outcome == Responded && s.exchange.sent == Some(UploadBytes(request)) && s.exchange.open
  {
    AlwaysGoesWell(Init(request, requestCause, operationCause), ls);
    OnlyWholeUploadsSent(request, requestCause, operationCause, ls);
  }
}
