/** What every run of a round trip keeps: the upload, the finisher, and the body sent. */
module RoundTripContract {
  import opened Bytes
  import opened HttpErrors
  import opened OnceFunc
  import opened RoundTrip

  // --------------------------------------------------------------- the upload

  /** The main goroutine has been through its first call of `closeUpload`, or its only one. */
  predicate UploadClosed(main: Main) {
    main.Returned? || main.Mapping?
  }

  predicate BeforeContext(main: Main) {
    main.Validating? || main.Opening?
  }

  predicate BeforeUpload(main: Main) {
    BeforeContext(main) || main.Checking? || main.Registering?
  }

  predicate UploadOk(request: Request, main: Main, closer: Closer, upload: Gate<Caller>) {
    && GateOk(upload, Weight(request))
    && (upload.once.Running? ==>
          || (upload.once.caller == ByMain && (main.ClosingUpload? || main.Leaving?))
          || (upload.once.caller == ByCloser && closer.Launched?))
    && (UploadClosed(main) ==> upload.once.Done?)
    && (closer.Ended? ==> upload.once.Done?)
    && (BeforeUpload(main) ==> closer.Absent? && upload.once.Fresh?)
    && (main.Uploading? ==> !closer.Absent? && !closer.Stopped?)
    && (closer.Registered? ==> main.Uploading? || main.Stopping?)
  }

  lemma MainUpload(main: Main, request: Request, closer: Closer, gates: Gates, closed: bool, around: Surroundings, c: Choice)
    requires UploadOk(request, main, closer, gates.upload) && MainCan(main, request, gates, c)
    ensures UploadOk(request, NextMain(main, request, gates, closed, around, c), NextCloser(main, closer),
                     NextGates(main, request, gates, closed, c).upload)
  {
    match main
    case ClosingUpload(body, err) =>
    case Leaving(outcome) =>
    case Finishing(outcome) =>
    case Registering =>
    case Stopping(body, err) =>
    case _ =>
  }

  lemma StepUpload(s: State, l: Label)
    requires UploadOk(s.request, s.main, s.closer, s.gates.upload) && Enabled(s, l)
    ensures var s' := Apply(s, l); s'.request == s.request && UploadOk(s.request, s'.main, s'.closer, s'.gates.upload)
  {
    match l
    case MainStep(c) => MainUpload(s.main, s.request, s.closer, s.gates, s.transportClosed, s.around, c);
    case _ =>
  }

  // ------------------------------------------------------------- the finisher

  function OutcomeOf(main: Main): Option<Outcome> {
    if main.Finishing? || main.Leaving? || main.Returned? then Some(main.outcome) else None
  }

  predicate FailingFinish(gates: Gates) {
    gates.finish.once.Fresh? || (gates.made && gates.finish.once == Running(ByMain))
  }

  predicate FailedFinish(gates: Gates) {
    if gates.made then gates.finish.once.Done? else gates.finish.once.Fresh?
  }

  predicate AnsweredFinish(finish: Gate<Caller>, used: bool) {
    finish.once.Fresh? || (used && (finish.once.Running? ==> finish.once.caller.ByUser?))
  }

  /** What the finisher's own state says about where the main goroutine is; `used`: the returned body has had users. */
  predicate FinishOk(main: Main, gates: Gates, used: bool) {
    && GateOk(gates.finish, 1)
    && (used ==> main.Returned? && main.outcome.Responded?)
    && match main
       case Validating => !gates.made && gates.finish.once.Fresh?
       case Opening => !gates.made && gates.finish.once.Fresh?
       case Finishing(Failed(_)) => FailingFinish(gates)
       case Leaving(Failed(_)) => FailedFinish(gates)
       case Returned(Failed(_)) => FailedFinish(gates)
       case Returned(Responded) => gates.made && AnsweredFinish(gates.finish, used)
       case _ => gates.made && gates.finish.once.Fresh?
  }

  ghost predicate UsersOk(finish: Gate<Caller>, users: map<TaskId, User>) {
    && (forall t | finish.once == Running(ByUser(t)) :: t in users && users[t].Calling?)
    && (forall t | t in users && users[t].Gone? :: finish.once.Done?)
  }

  lemma MainFinish(main: Main, request: Request, gates: Gates, closed: bool, around: Surroundings, used: bool, c: Choice)
    requires FinishOk(main, gates, used) && MainCan(main, request, gates, c)
    ensures FinishOk(NextMain(main, request, gates, closed, around, c), NextGates(main, request, gates, closed, c), used)
    ensures !used
    ensures NextGates(main, request, gates, closed, c).finish.once.Running? ==>
              NextGates(main, request, gates, closed, c).finish.once.caller == ByMain
  {
    hide MapError, LengthMismatch, UploadBytes, Weight;
  }

  lemma StepFinish(s: State, l: Label)
    requires FinishOk(s.main, s.gates, s.users != map[]) && UsersOk(s.gates.finish, s.users) && Enabled(s, l)
    ensures var s' := Apply(s, l); FinishOk(s'.main, s'.gates, s'.users != map[]) && UsersOk(s'.gates.finish, s'.users)
  {
    match l
    case MainStep(c) => MainFinish(s.main, s.request, s.gates, s.transportClosed, s.around, s.users != map[], c);
    case Use(t) => assert t in Apply(s, l).users;
    case UserStep(t) => assert t in Apply(s, l).users;
    case _ =>
  }

  // ------------------------------------------------------------- what is sent

  function BodyInHand(main: Main): Option<seq<byte>> {
    match main
    case Stopping(body, None) => Some(body)
    case ClosingUpload(body, None) => Some(body)
    case Mapping(body, None) => Some(body)
    case _ => None
  }

  /** An upload that was cut short has a context that has ended. */
  predicate CutOk(request: Request, main: Main, closer: Closer, upload: Gate<Caller>, ended: bool) {
    && (closer.Launched? || closer.Ended? ==> ended)
    && (main.Uploading? && !upload.once.Fresh? ==> closer.Launched? || closer.Ended?)
    && (request.upload.None? ==> !main.Registering? && !main.Uploading?)
    && (BodyInHand(main).Some? && BodyInHand(main).value != UploadBytes(request) ==> ended)
  }

  /** Only the whole upload, of the declared length, is ever sent. */
  predicate SentOk(request: Request, main: Main, exchange: Exchange) {
    && (main.Sizing? || main.Sending? ==> main.body == UploadBytes(request))
    && (main.Sending? ==> !LengthMismatch(request, main.body))
    && (exchange.sent.Some? ==> exchange.sent.value == UploadBytes(request) && !LengthMismatch(request, exchange.sent.value))
    && (exchange.open || main.Waiting? ==> exchange.sent.Some?)
    && (exchange.open <==> main.Received? || main.Discarding? || OutcomeOf(main) == Some(Responded))
  }

  lemma MainCut(main: Main, request: Request, closer: Closer, gates: Gates, closed: bool, around: Surroundings, c: Choice)
    requires CutOk(request, main, closer, gates.upload, around.operation.ended)
    requires UploadOk(request, main, closer, gates.upload) && MainCan(main, request, gates, c)
    ensures CutOk(request, NextMain(main, request, gates, closed, around, c), NextCloser(main, closer),
                  NextGates(main, request, gates, closed, c).upload, NextAround(main, gates, around).operation.ended)
  {
  }

  lemma StepCut(s: State, l: Label)
    requires CutOk(s.request, s.main, s.closer, s.gates.upload, s.around.operation.ended)
    requires UploadOk(s.request, s.main, s.closer, s.gates.upload) && Enabled(s, l)
    ensures var s' := Apply(s, l); CutOk(s.request, s'.main, s'.closer, s'.gates.upload, s'.around.operation.ended)
  {
    match l
    case MainStep(c) => MainCut(s.main, s.request, s.closer, s.gates, s.transportClosed, s.around, c);
    case _ =>
  }

  lemma MainSent(main: Main, request: Request, closer: Closer, gates: Gates, exchange: Exchange, closed: bool, around: Surroundings, c: Choice)
    requires CutOk(request, main, closer, gates.upload, around.operation.ended)
    requires SentOk(request, main, exchange) && MainCan(main, request, gates, c)
    ensures SentOk(request, NextMain(main, request, gates, closed, around, c), NextExchange(main, exchange, c))
  {
  }

  lemma StepSent(s: State, l: Label)
    requires CutOk(s.request, s.main, s.closer, s.gates.upload, s.around.operation.ended)
    requires SentOk(s.request, s.main, s.exchange) && Enabled(s, l)
    ensures var s' := Apply(s, l); SentOk(s.request, s'.main, s'.exchange)
  {
    match l
    case MainStep(c) => MainSent(s.main, s.request, s.closer, s.gates, s.exchange, s.transportClosed, s.around, c);
    case _ =>
  }

  /** The finisher ends the operation's context. */
  predicate EndOk(gates: Gates, around: Surroundings) {
    0 < gates.finish.started ==> around.operation.ended
  }

  lemma StepEnd(s: State, l: Label)
    requires EndOk(s.gates, s.around) && Enabled(s, l)
    ensures EndOk(Apply(s, l).gates, Apply(s, l).around)
  {
    hide NextMain, NextCloser, NextExchange;
  }

  // ----------------------------------------------------------------- every run

  ghost predicate Valid(s: State) {
    && UploadOk(s.request, s.main, s.closer, s.gates.upload)
    && FinishOk(s.main, s.gates, s.users != map[])
    && UsersOk(s.gates.finish, s.users)
    && CutOk(s.request, s.main, s.closer, s.gates.upload, s.around.operation.ended)
    && SentOk(s.request, s.main, s.exchange)
    && EndOk(s.gates, s.around)
  }

  lemma StepValid(s: State, l: Label)
    requires Valid(s) && Enabled(s, l)
    ensures Valid(Apply(s, l)) && Apply(s, l).request == s.request
  {
    StepUpload(s, l);
    StepFinish(s, l);
    StepCut(s, l);
    StepSent(s, l);
    StepEnd(s, l);
  }

  lemma {:induction false} AlwaysValid(s: State, ls: seq<Label>)
    requires Valid(s) && Runs(s, ls)
    ensures Valid(After(s, ls)) && After(s, ls).request == s.request
    decreases |ls|
  {
    if ls != [] {
      StepValid(s, ls[0]);
      AlwaysValid(Apply(s, ls[0]), ls[1..]);
    }
  }

  /** A request body is closed exactly once, and that close is over when RoundTrip returns, on every path; no goroutine is started for it later. */
  lemma UploadClosedOnce(request: Request, requestCause: GoError, operationCause: GoError, ls: seq<Label>)
    requires Runs(Init(request, requestCause, operationCause), ls)
    ensures var s := After(Init(request, requestCause, operationCause), ls);
            var closes := if request.upload.Some? then 1 else 0;
            && s.gates.upload.finished <= s.gates.upload.started <= closes
            && (s.main.Returned? ==> s.gates.upload.finished == closes && !Enabled(s, Launch))
  {
    AlwaysValid(Init(request, requestCause, operationCause), ls);
  }

  /**
    The context finisher runs at most once, and ends the context. It has run when RoundTrip has failed
    with a context made, and when a terminal read or a close of the body is over;
    it has not when a response is out and nobody has ended its body.
   */
  lemma FinisherRunsOnce(request: Request, requestCause: GoError, operationCause: GoError, ls: seq<Label>)
    requires Runs(Init(request, requestCause, operationCause), ls)
    ensures var s := After(Init(request, requestCause, operationCause), ls);
            var finish := s.gates.finish;
            && finish.finished <= finish.started <= 1
            && (finish.started == 1 ==> s.around.operation.ended)
            && (s.main.Returned? && s.main.outcome.Failed? ==> finish.finished == if s.gates.made then 1 else 0)
            && ((exists t :: t in s.users && s.users[t].Gone?) ==> finish.finished == 1)
            && (s.main == Main.Returned(Responded) && s.users == map[] ==> finish.started == 0)
  {
    AlwaysValid(Init(request, requestCause, operationCause), ls);
  }

  /**
    Nothing but the whole upload, of the declared length, is ever sent, although
    the end of the context closes the upload while it is being read; and a response
    stays open exactly if RoundTrip returns it.
   */
  lemma OnlyWholeUploadsSent(request: Request, requestCause: GoError, operationCause: GoError, ls: seq<Label>)
    requires Runs(Init(request, requestCause, operationCause), ls)
    ensures var s := After(Init(request, requestCause, operationCause), ls);
            && (s.exchange.sent.Some? ==>
                  && s.exchange.sent.value == UploadBytes(request)
                  && (request.contentLength <= 0 || request.chunked || |s.exchange.sent.value| == request.contentLength))
            && (s.main.Returned? ==> (s.exchange.open <==> s.main.outcome == Responded))
            && (s.main == Main.Returned(Responded) ==> s.exchange.sent.Some?)
  {
    AlwaysValid(Init(request, requestCause, operationCause), ls);
  }

  // ------------------------------------------------------------- cancellation

  predicate SomeEnded(around: Surroundings) {
    around.request.ended || around.lifetimeEnded || around.operation.ended
  }

  /** Not past the last check of the contexts before the request is sent. */
  predicate BeforeLastCheck(request: Request, main: Main) {
    || BeforeUpload(main) || main.Uploading? || main.Stopping? || main.ClosingUpload? || main.Mapping?
    || (OutcomeOf(main).Some? && OutcomeOf(main).value.Failed?)
  }

  lemma CancelledMain(main: Main, request: Request, gates: Gates, closed: bool, around: Surroundings, exchange: Exchange, c: Choice)
    requires SomeEnded(around) && BeforeLastCheck(request, main) && MainCan(main, request, gates, c)
    ensures BeforeLastCheck(request, NextMain(main, request, gates, closed, around, c))
    ensures NextExchange(main, exchange, c) == exchange && SomeEnded(NextAround(main, gates, around))
  {
  }

  lemma CancelledStep(s: State, l: Label)
    requires SomeEnded(s.around) && BeforeLastCheck(s.request, s.main) && Enabled(s, l)
    ensures var s' := Apply(s, l);
            SomeEnded(s'.around) && BeforeLastCheck(s'.request, s'.main) && s'.exchange == s.exchange
  {
    match l
    case MainStep(c) => CancelledMain(s.main, s.request, s.gates, s.transportClosed, s.around, s.exchange, c);
    case _ =>
  }

  /**
    Once the request's context, the transport or the operation has ended, a request
    that has not passed the check after its upload is never sent, and fails.
   */
  lemma {:induction false} CancelledSendsNothing(s: State, ls: seq<Label>)
    requires SomeEnded(s.around) && BeforeLastCheck(s.request, s.main) && Runs(s, ls)
    ensures After(s, ls).exchange == s.exchange
    ensures After(s, ls).main.Returned? ==> After(s, ls).main.outcome.Failed?
    decreases |ls|
  {
    if ls != [] {
      CancelledStep(s, ls[0]);
      CancelledSendsNothing(Apply(s, ls[0]), ls[1..]);
    }
  }

  /** Between the making of the contexts and their last check, or failed with the given error. */
  predicate CheckedLater(main: Main, err: GoError) {
    || main.Checking? || main.Registering? || main.Uploading? || main.Stopping? || main.ClosingUpload? || main.Mapping?
    || OutcomeOf(main) == Some(Failed(err))
  }

  lemma CauseMain(main: Main, request: Request, gates: Gates, closed: bool, around: Surroundings, c: Choice)
    requires around.request.ended && CheckedLater(main, around.request.cause) && MainCan(main, request, gates, c)
    ensures CheckedLater(NextMain(main, request, gates, closed, around, c), around.request.cause)
    ensures NextAround(main, gates, around).request == around.request
  {
  }

  lemma CauseStep(s: State, l: Label)
    requires s.around.request.ended && CheckedLater(s.main, s.around.request.cause) && Enabled(s, l)
    ensures Apply(s, l).around.request == s.around.request && CheckedLater(Apply(s, l).main, s.around.request.cause)
  {
    match l
    case MainStep(c) => CauseMain(s.main, s.request, s.gates, s.transportClosed, s.around, c);
    case _ =>
  }

  /**
    The cause of the caller's own context is what RoundTrip reports, whatever the
    upload's reader returned and whether the transport was closed or a timeout ran
    out as well.
   */
  lemma {:induction false} CallersCauseWins(s: State, ls: seq<Label>)
    requires s.around.request.ended && CheckedLater(s.main, s.around.request.cause) && Runs(s, ls)
    ensures After(s, ls).main.Returned? ==> After(s, ls).main.outcome == Failed(s.around.request.cause)
    decreases |ls|
  {
    if ls != [] {
      CauseStep(s, ls[0]);
      CallersCauseWins(Apply(s, ls[0]), ls[1..]);
    }
  }

  /** What a request gets that meets a closed transport: its own fault first. */
  function Refusal(request: Request): GoError {
    if request.refusal.Some? then request.refusal.value else ErrTransportClosed
  }

  predicate Refused(request: Request, main: Main, gates: Gates) {
    && !gates.made
    && (main.Opening? ==> request.refusal.None?)
    && (BeforeContext(main) || OutcomeOf(main) == Some(Failed(Refusal(request))))
  }

  lemma RefusedMain(main: Main, request: Request, gates: Gates, around: Surroundings, exchange: Exchange, c: Choice)
    requires Refused(request, main, gates) && MainCan(main, request, gates, c)
    ensures Refused(request, NextMain(main, request, gates, true, around, c), NextGates(main, request, gates, true, c))
    ensures NextExchange(main, exchange, c) == exchange
    ensures NextGates(main, request, gates, true, c).finish == gates.finish
  {
  }

  lemma RefusedStep(s: State, l: Label)
    requires s.transportClosed && s.users == map[] && Refused(s.request, s.main, s.gates) && Enabled(s, l)
    ensures var s' := Apply(s, l);
            && s'.transportClosed && s'.users == map[] && s'.request == s.request && Refused(s'.request, s'.main, s'.gates)
            && s'.exchange == s.exchange && s'.gates.finish == s.gates.finish
  {
    match l
    case MainStep(c) => RefusedMain(s.main, s.request, s.gates, s.around, s.exchange, c);
    case _ =>
  }

  /** A transport that is closed before RoundTrip asks for its state refuses the request, makes no context and sends nothing. */
  lemma {:induction false} ClosedTransportRefuses(s: State, ls: seq<Label>)
    requires s.transportClosed && s.users == map[] && Refused(s.request, s.main, s.gates) && Runs(s, ls)
    ensures var s' := After(s, ls);
            && s'.exchange == s.exchange && s'.gates.finish == s.gates.finish && !s'.gates.made
            && (s'.main.Returned? ==> s'.main.outcome == Failed(Refusal(s.request)))
    decreases |ls|
  {
    if ls != [] {
      RefusedStep(s, ls[0]);
      ClosedTransportRefuses(Apply(s, ls[0]), ls[1..]);
    }
  }

  // ----------------------------------------------------------------- progress

  /** Reading an upload that blocks until it is closed, and nobody has reason to close it yet. */
  predicate WaitsForUpload(s: State) {
    s.main.Uploading? && s.request.stalls && s.gates.upload.once.Fresh? && !s.around.operation.ended
  }

  lemma NextStep(s: State) returns (l: Label)
    requires Valid(s) && !s.main.Returned?
    ensures Enabled(s, l)
    ensures if WaitsForUpload(s) then l == EndOperation else l.MainStep? || l.Launch? || l.CloserStep?
  {
    if WaitsForUpload(s) {
      l := EndOperation;
    } else if !MayCall(s.gates.upload, ByMain) && (s.main.ClosingUpload? || s.main.Leaving?) {
      l := CloserStep;
    } else if s.main.Uploading? && s.request.stalls && s.gates.upload.once.Fresh? {
      l := if s.closer.Registered? then Launch else CloserStep;
    } else {
      l := MainStep(if s.main.Uploading? then Read(UploadBytes(s.request), None) else Proceed);
    }
  }

  /**
    Until RoundTrip has returned it can go on itself, or the goroutine that closes the
    upload can start or go on; except while a blocking upload is being read and the
    context is alive, and then nothing but the end of the context is missing.
   */
  lemma NeverStuck(request: Request, requestCause: GoError, operationCause: GoError, ls: seq<Label>) returns (l: Label)
    requires Runs(Init(request, requestCause, operationCause), ls)
    requires !After(Init(request, requestCause, operationCause), ls).main.Returned?
    ensures var s := After(Init(request, requestCause, operationCause), ls);
            && Enabled(s, l)
            && (if WaitsForUpload(s) then l == EndOperation else l.MainStep? || l.Launch? || l.CloserStep?)
  {
    AlwaysValid(Init(request, requestCause, operationCause), ls);
    var s := After(Init(request, requestCause, operationCause), ls);
    l := NextStep(s);
  }

  function MainRank(main: Main): nat {
    match main
    case Validating => 15
    case Opening => 14
    case Checking => 13
    case Registering => 12
    case Uploading => 11
    case Stopping(_, _) => 10
    case ClosingUpload(_, _) => 9
    case Mapping(_, _) => 8
    case Sizing(_) => 7
    case Sending(_) => 6
    case Waiting => 5
    case Received => 4
    case Discarding => 3
    case Finishing(_) => 2
    case Leaving(_) => 1
    case Returned(_) => 0
  }

  function CloserRank(closer: Closer): nat {
    match closer
    case Absent => 3
    case Registered => 2
    case Launched => 1
    case _ => 0
  }

  /** The steps of the goroutine that closes the upload. */
  predicate ClosersOnly(ls: seq<Label>) {
    forall l | l in ls :: l.Launch? || l.CloserStep?
  }

  /** Reading the upload while the context has ended, with what is missing until it is closed. */
  predicate Cancelling(s: State) {
    s.main.Uploading? && s.around.operation.ended
  }

  function NextOfCloser(s: State): Label {
    if s.closer.Registered? then Launch else CloserStep
  }

  lemma CloserMoves(s: State)
    requires UploadOk(s.request, s.main, s.closer, s.gates.upload) && Cancelling(s) && !s.gates.upload.once.Done?
    ensures Enabled(s, NextOfCloser(s))
    ensures var s' := Apply(s, NextOfCloser(s));
            && Cancelling(s') && s'.request == s.request
            && CloserRank(s'.closer) + OnceRank(s'.gates.upload.once) < CloserRank(s.closer) + OnceRank(s.gates.upload.once)
  {
    hide MainCan, RunMain, Call;
    CallRank(s.gates.upload, ByCloser, Weight(s.request));
  }

  lemma ValidUpload(s: State)
    requires Valid(s)
    ensures UploadOk(s.request, s.main, s.closer, s.gates.upload)
  {
  }

  lemma {:induction false} CloserFinishes(s: State) returns (ls: seq<Label>)
    requires Valid(s) && Cancelling(s)
    ensures Runs(s, ls) && ClosersOnly(ls)
    ensures Valid(After(s, ls)) && Cancelling(After(s, ls)) && After(s, ls).request == s.request
    ensures After(s, ls).gates.upload.once.Done?
    decreases CloserRank(s.closer) + OnceRank(s.gates.upload.once)
  {
    hide Valid, Apply, Enabled;
    if s.gates.upload.once.Done? {
      ls := [];
    } else {
      var l := NextOfCloser(s);
      ValidUpload(s);
      CloserMoves(s);
      StepValid(s, l);
      var rest := CloserFinishes(Apply(s, l));
      ls := [l] + rest;
      assert ls[1..] == rest;
    }
  }

  lemma UploadingHasUpload(s: State)
    requires Valid(s) && s.main.Uploading?
    ensures s.request.upload.Some? && GateOk(s.gates.upload, 1)
  {
  }

  /**
    A blocked upload does not hold RoundTrip up once the context has ended: without
    any step of RoundTrip itself the upload gets closed, exactly once, that close is
    over, and then the read can return.
   */
  lemma CancelUnblocksUpload(request: Request, requestCause: GoError, operationCause: GoError, ls: seq<Label>)
    returns (closing: seq<Label>)
    requires Runs(Init(request, requestCause, operationCause), ls)
    requires Cancelling(After(Init(request, requestCause, operationCause), ls))
    ensures var s := After(Init(request, requestCause, operationCause), ls);
            && Runs(s, closing) && ClosersOnly(closing)
            && var s' := After(s, closing);
               && s'.main == s.main && s'.gates.upload.once.Done? && s'.gates.upload.finished == 1
               && (forall err :: Enabled(s', MainStep(Read(UploadBytes(request), err))))
  {
    AlwaysValid(Init(request, requestCause, operationCause), ls);
    var s := After(Init(request, requestCause, operationCause), ls);
    closing := CloserFinishes(s);
    UploadingHasUpload(After(s, closing));
  }

  function Rank(main: Main, closer: Closer, gates: Gates): nat {
    MainRank(main) + CloserRank(closer) + OnceRank(gates.upload.once) + OnceRank(gates.finish.once)
  }

  lemma MainRankFalls(main: Main, request: Request, closer: Closer, gates: Gates, closed: bool, around: Surroundings, c: Choice)
    requires UploadOk(request, main, closer, gates.upload) && MainCan(main, request, gates, c)
    ensures Rank(NextMain(main, request, gates, closed, around, c), NextCloser(main, closer),
                 NextGates(main, request, gates, closed, c)) < Rank(main, closer, gates)
  {
  }

  /** A step of the round trip itself, as opposed to its surroundings and the users of its body. */
  function Own(l: Label): nat {
    if l.MainStep? || l.CloserStep? then 1 else 0
  }

  function OwnSteps(ls: seq<Label>): nat {
    if ls == [] then 0 else Own(ls[0]) + OwnSteps(ls[1..])
  }

  lemma RankFalls(s: State, l: Label)
    requires UploadOk(s.request, s.main, s.closer, s.gates.upload) && Enabled(s, l)
    ensures var s' := Apply(s, l);
            Own(l) + Rank(s'.main, s'.closer, s'.gates) <= Rank(s.main, s.closer, s.gates)
  {
    hide MainRank;
    match l
    case MainStep(c) => MainRankFalls(s.main, s.request, s.closer, s.gates, s.transportClosed, s.around, c);
    case CloserStep =>
      CallRank(s.gates.upload, ByCloser, Weight(s.request));
    case UserStep(t) =>
      CallRank(s.gates.finish, ByUser(t), 1);
    case _ =>
  }

  lemma {:induction false} BoundedSteps(s: State, ls: seq<Label>)
    requires Valid(s) && Runs(s, ls)
    ensures OwnSteps(ls) + Rank(After(s, ls).main, After(s, ls).closer, After(s, ls).gates) <= Rank(s.main, s.closer, s.gates)
    decreases |ls|
  {
    if ls != [] {
      StepValid(s, ls[0]);
      RankFalls(s, ls[0]);
      BoundedSteps(Apply(s, ls[0]), ls[1..]);
    }
  }

  /** RoundTrip ends: whatever else happens, it takes at most 22 steps of its own. */
  lemma RoundTripEnds(request: Request, requestCause: GoError, operationCause: GoError, ls: seq<Label>)
    requires Runs(Init(request, requestCause, operationCause), ls)
    ensures OwnSteps(ls) <= 22
  {
    BoundedSteps(Init(request, requestCause, operationCause), ls);
  }
}
