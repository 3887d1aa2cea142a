/**
 * The race between the pullers of one file (racePullFile).
 *
 * The goroutines of one call are a transition system: n pullers, the collector
 * that counts their reports, and the caller.  They share two unbuffered
 * channels (a send and its receive are one joint step), a mutex, a closed flag
 * and a cancellable context.  A goroutine that is not yet started is the same
 * as one that is not yet scheduled, so every goroutine exists in the initial
 * state.  A step that the Go runtime answers with a panic is a step here too:
 * it sets `panicked`.
 */
module PullRace {
  import opened Wrappers
  import opened Sums

  type Bytes = seq<bv8>

  datatype Error = PullFailed(code: int) | ContextCancelled

  /** How one puller's pull ended. */
  datatype Pulled = Unfinished | Succeeded(shouldCache: bool) | Failed(error: Error)

  /** What a puller has sent on errc. */
  datatype Report = NotYet | NilReport | ErrReport(error: Error)

  datatype PullerPc =
    | Pulling(writesLeft: nat)
    | CheckingContext
    | Reporting(error: Error)
    | WantingLock
    | TestingFlag
    | Delivering
    | ReportingNil
    | Unlocking
    | Finished

  datatype Puller = Puller(pc: PullerPc, pulled: Pulled, file: Bytes, report: Report)

  datatype CallerPc =
    | AwaitingPull
    | CancellingPulls
    | JudgingResponse
    | CopyingFile
    | AwaitingLock
    | ClosingChannel
    | ReleasingLock
    | Returned

  datatype CollectorPc =
    | AwaitingReport
    | Tallying(report: Report)
    | CheckingAllFailed
    | SendingNil
    | CheckingPending
    | Stopped

  /** What the caller received from pullSuccess. */
  datatype Response = NoResponse | AllFailed | FileOf(winner: nat)

  datatype Outcome =
    | Undecided
    | PullError(error: Option<Error>)
    | Copied(winner: nat, bytes: Bytes)
    | CopyFailed(winner: nat)

  datatype Holder = Free | HeldByPuller(puller: nat) | HeldByCaller

  datatype State = State(
    pullers: seq<Puller>,
    caller: CallerPc,
    response: Response,
    outcome: Outcome,
    collector: CollectorPc,
    pendingFns: int,
    erroredFns: int,
    pullErr: Option<Error>,
    holder: Holder,
    closedFlag: bool,
    pullSuccessClosed: bool,
    errcClosed: bool,
    cancelled: bool,
    panicked: bool)

  datatype Action =
    | Write(i: nat, chunk: Bytes)
    | EndPull(i: nat, result: Pulled)
    | CheckContext(i: nat)
    | PullerLock(i: nat)
    | TestFlag(i: nat)
    | Deliver(i: nat)
    | DeliverOnClosed(i: nat)
    | Report(i: nat)
    | ReportOnClosed(i: nat)
    | PullerUnlock(i: nat)
    | CancelPulls
    | JudgeResponse
    | CopyFile(ok: bool)
    | CallerLock
    | CloseChannel
    | CallerUnlock
    | Tally
    | CheckAllFailed
    | SendNil
    | SendNilOnClosed
    | CheckPending
    | ParentCancels

  // ---------------------------------------------------------------------
  // Steps
  // ---------------------------------------------------------------------

  /** The initial state of a call; writesLeft is how often each pull writes at most. */
  predicate Init(s: State) {
    && |s.pullers| > 0
    && (forall i :: 0 <= i < |s.pullers| ==>
          && s.pullers[i].pc.Pulling?
          && s.pullers[i].pulled == Unfinished
          && s.pullers[i].file == []
          && s.pullers[i].report == NotYet)
    && s == State(s.pullers, AwaitingPull, NoResponse, Undecided, AwaitingReport,
                  |s.pullers|, 0, None, Free, false, false, false, s.cancelled, false)
  }

  predicate PullerAt(s: State, i: nat, pc: PullerPc) {
    i < |s.pullers| && s.pullers[i].pc == pc
  }

  predicate Enabled(s: State, a: Action) {
    match a
    case Write(i, _) => i < |s.pullers| && s.pullers[i].pc.Pulling? && s.pullers[i].pc.writesLeft > 0
    case EndPull(i, result) => i < |s.pullers| && s.pullers[i].pc.Pulling? && result != Unfinished
    case CheckContext(i) => PullerAt(s, i, CheckingContext)
    case PullerLock(i) => PullerAt(s, i, WantingLock) && s.holder == Free
    case TestFlag(i) => PullerAt(s, i, TestingFlag)
    case Deliver(i) => PullerAt(s, i, Delivering) && s.caller == AwaitingPull && !s.pullSuccessClosed
    case DeliverOnClosed(i) => PullerAt(s, i, Delivering) && s.pullSuccessClosed
    case Report(i) => AtReport(s, i) && s.collector == AwaitingReport && !s.errcClosed
    case ReportOnClosed(i) => AtReport(s, i) && s.errcClosed
    case PullerUnlock(i) => PullerAt(s, i, Unlocking)
    case CancelPulls => s.caller == CancellingPulls
    case JudgeResponse => s.caller == JudgingResponse
    case CopyFile(_) => s.caller == CopyingFile
    case CallerLock => s.caller == AwaitingLock && s.holder == Free
    case CloseChannel => s.caller == ClosingChannel
    case CallerUnlock => s.caller == ReleasingLock
    case Tally => s.collector.Tallying?
    case CheckAllFailed => s.collector == CheckingAllFailed
    case SendNil => s.collector == SendingNil && s.caller == AwaitingPull && !s.pullSuccessClosed
    case SendNilOnClosed => s.collector == SendingNil && s.pullSuccessClosed
    case CheckPending => s.collector == CheckingPending
    case ParentCancels => !s.cancelled
  }

  predicate AtReport(s: State, i: nat) {
    i < |s.pullers| && (s.pullers[i].pc.Reporting? || s.pullers[i].pc == ReportingNil)
  }

  function SetPc(s: State, i: nat, pc: PullerPc): State
    requires i < |s.pullers|
  {
    s.(pullers := s.pullers[i := s.pullers[i].(pc := pc)])
  }

  /** The state after an enabled action. */
  function Apply(s: State, a: Action): State
    requires Enabled(s, a)
  {
    match a
    case Write(i, chunk) =>
      var p := s.pullers[i];
      s.(pullers := s.pullers[i := p.(pc := Pulling(p.pc.writesLeft - 1), file := p.file + chunk)])
    case EndPull(i, result) =>
      var pc := if result.Failed? then Reporting(result.error) else CheckingContext;
      s.(pullers := s.pullers[i := s.pullers[i].(pc := pc, pulled := result)])
    case CheckContext(i) => SetPc(s, i, if s.cancelled then Reporting(ContextCancelled) else WantingLock)
    case PullerLock(i) => SetPc(s, i, TestingFlag).(holder := HeldByPuller(i))
    case TestFlag(i) => SetPc(s, i, if s.closedFlag then ReportingNil else Delivering)
    case Deliver(i) => SetPc(s, i, ReportingNil).(caller := CancellingPulls, response := FileOf(i))
    case DeliverOnClosed(_) => s.(panicked := true)
    case Report(i) =>
      var p := s.pullers[i];
      var p' := if p.pc.Reporting? then p.(pc := Finished, report := ErrReport(p.pc.error))
                else p.(pc := Unlocking, report := NilReport);
      s.(pullers := s.pullers[i := p'], collector := Tallying(p'.report))
    case ReportOnClosed(_) => s.(panicked := true)
    case PullerUnlock(i) => SetPc(s, i, Finished).(holder := Free)
    case CancelPulls => s.(caller := JudgingResponse, cancelled := true)
    case JudgeResponse =>
      if s.erroredFns >= |s.pullers| || !s.response.FileOf? then
        s.(caller := AwaitingLock, outcome := PullError(s.pullErr))
      else
        s.(caller := CopyingFile)
    case CopyFile(ok) =>
      var w := if s.response.FileOf? then s.response.winner else 0;
      s.(caller := AwaitingLock,
         outcome := if ok && w < |s.pullers| then Copied(w, s.pullers[w].file) else CopyFailed(w))
    case CallerLock => s.(caller := ClosingChannel, holder := HeldByCaller)
    case CloseChannel =>
      s.(caller := ReleasingLock, closedFlag := true, pullSuccessClosed := true,
         panicked := s.panicked || s.pullSuccessClosed)
    case CallerUnlock => s.(caller := Returned, holder := Free)
    case Tally =>
      var s1 := s.(collector := CheckingAllFailed, pendingFns := s.pendingFns - 1);
      if s.collector.report.ErrReport? then
        s1.(erroredFns := s.erroredFns + 1, pullErr := Some(s.collector.report.error))
      else s1
    case CheckAllFailed =>
      s.(collector := if s.pendingFns <= 0 && s.erroredFns >= |s.pullers| then SendingNil else CheckingPending)
    case SendNil => s.(collector := CheckingPending, caller := CancellingPulls, response := AllFailed)
    case SendNilOnClosed => s.(panicked := true)
    case CheckPending =>
      if s.pendingFns <= 0 then
        s.(collector := Stopped, errcClosed := true, panicked := s.panicked || s.errcClosed)
      else s.(collector := AwaitingReport)
    case ParentCancels => s.(cancelled := true)
  }

  // ---------------------------------------------------------------------
  // The invariant
  // ---------------------------------------------------------------------

  predicate HoldsLock(pc: PullerPc) {
    pc == TestingFlag || pc == Delivering || pc == ReportingNil || pc == Unlocking
  }

  predicate PullerOk(p: Puller) {
    && (p.pc.Pulling? <==> p.pulled == Unfinished)
    && (p.pc == CheckingContext || p.pc == WantingLock || HoldsLock(p.pc) ==> p.pulled.Succeeded?)
    && (p.report == NotYet <==> p.pc != Unlocking && p.pc != Finished)
    && (p.pc == Unlocking ==> p.report == NilReport)
    && (p.report == NilReport ==> p.pulled.Succeeded?)
  }

  /** A puller whose pull succeeded and whose context check found no cancellation. */
  predicate PassedCheck(p: Puller) {
    p.pc == WantingLock || HoldsLock(p.pc) || p.report == NilReport
  }

  function Unreported(p: Puller): nat { if p.report == NotYet then 1 else 0 }

  function Errored(p: Puller): nat { if p.report.ErrReport? then 1 else 0 }

  ghost predicate SomeoneReported(pullers: seq<Puller>, e: Error) {
    exists i :: 0 <= i < |pullers| && pullers[i].report == ErrReport(e)
  }

  /** What holds of puller i, given the lock holder, the closed flag and the response. */
  predicate PullerInv(p: Puller, i: nat, holder: Holder, closedFlag: bool, response: Response) {
    && PullerOk(p)
    && (holder == HeldByPuller(i) <==> HoldsLock(p.pc))
    && (p.pc == Delivering ==> !closedFlag)
    && (p.pc == ReportingNil || p.report == NilReport ==> response.FileOf?)
  }

  ghost predicate PullersInv(s: State) {
    && |s.pullers| > 0
    && (s.holder.HeldByPuller? ==> s.holder.puller < |s.pullers|)
    && forall i :: 0 <= i < |s.pullers| ==> PullerInv(s.pullers[i], i, s.holder, s.closedFlag, s.response)
  }

  ghost predicate CallerInv(s: State) {
    && !s.panicked
    && (s.response == NoResponse <==> s.caller == AwaitingPull)
    && (s.response.FileOf? ==>
          && s.response.winner < |s.pullers|
          && (s.pullers[s.response.winner].pc == ReportingNil || s.pullers[s.response.winner].report == NilReport))
    && (s.response == AllFailed ==> s.erroredFns == |s.pullers| && s.pendingFns == 0)
    && (s.holder == HeldByCaller <==> s.caller == ClosingChannel || s.caller == ReleasingLock)
    && s.closedFlag == s.pullSuccessClosed == (s.caller == ReleasingLock || s.caller == Returned)
    && (s.caller != AwaitingPull && s.caller != CancellingPulls ==> s.cancelled)
    && (s.caller == CopyingFile ==> s.response.FileOf?)
    && (s.outcome == Undecided <==>
          s.caller in {AwaitingPull, CancellingPulls, JudgingResponse, CopyingFile})
    && (s.outcome.PullError? ==> s.response == AllFailed && s.outcome.error == s.pullErr)
    && (s.outcome.Copied? ==>
          && s.response == FileOf(s.outcome.winner)
          && s.outcome.bytes == s.pullers[s.outcome.winner].file)
    && (s.outcome.CopyFailed? ==> s.response == FileOf(s.outcome.winner))
  }

  ghost predicate CollectorInv(s: State) {
    && s.pendingFns == Total(s.pullers, Unreported) + (if s.collector.Tallying? then 1 else 0)
    && s.erroredFns ==
         Total(s.pullers, Errored) - (if s.collector.Tallying? && s.collector.report.ErrReport? then 1 else 0)
    && (s.collector == AwaitingReport ==> s.pendingFns > 0)
    && (s.collector.Tallying? ==> s.collector.report != NotYet)
    && (s.collector.Tallying? && s.collector.report.ErrReport? ==> SomeoneReported(s.pullers, s.collector.report.error))
    && (s.collector == SendingNil ==>
          s.pendingFns == 0 && s.erroredFns == |s.pullers| && s.response == NoResponse)
    && (s.collector == CheckingPending ==>
          (s.pendingFns <= 0 && s.erroredFns == |s.pullers| ==> s.response == AllFailed))
    && (s.collector == Stopped ==> s.pendingFns == 0)
    && (s.collector == Stopped && s.erroredFns == |s.pullers| ==> s.response == AllFailed)
    && (s.response == AllFailed ==> s.collector == CheckingPending || s.collector == Stopped)
    && (s.errcClosed <==> s.collector == Stopped)
    && (s.erroredFns > 0 ==> s.pullErr.Some?)
    && (s.pullErr.Some? ==> SomeoneReported(s.pullers, s.pullErr.value))
  }

  ghost predicate Inv(s: State) {
    PullersInv(s) && CallerInv(s) && CollectorInv(s)
  }

  lemma InitInv(s: State)
    requires Init(s)
    ensures Inv(s)
  {
    TotalFull(s.pullers, Unreported);
    TotalZero(s.pullers, Errored);
  }

  /** When every puller counts as errored, every puller has reported an error, and conversely. */
  lemma AllErrored(s: State)
    requires CollectorInv(s)
    ensures Total(s.pullers, Errored) <= |s.pullers|
    ensures Total(s.pullers, Errored) == |s.pullers| <==>
              forall i :: 0 <= i < |s.pullers| ==> s.pullers[i].report.ErrReport?
    ensures Total(s.pullers, Errored) == |s.pullers| ==> Total(s.pullers, Unreported) == 0
  {
    TotalFull(s.pullers, Errored);
    assert forall i {:trigger s.pullers[i]} :: 0 <= i < |s.pullers| ==>
      (Errored(s.pullers[i]) == 1 <==> s.pullers[i].report.ErrReport?);
    if forall i :: 0 <= i < |s.pullers| ==> s.pullers[i].report.ErrReport? {
      TotalZero(s.pullers, Unreported);
    }
  }

  lemma UnreportedPositive(s: State, i: nat)
    requires i < |s.pullers| && s.pullers[i].report == NotYet
    ensures Total(s.pullers, Unreported) > 0
  {
    TotalAtLeast(s.pullers, i, Unreported);
  }

  /** Steps of one puller that no other goroutine takes part in. */
  predicate IsPullerStep(a: Action) {
    a.Write? || a.EndPull? || a.CheckContext? || a.PullerLock? || a.TestFlag? || a.PullerUnlock?
  }

  /** Joint steps over a channel. */
  predicate IsExchange(a: Action) {
    a.Deliver? || a.Report? || a.SendNil?
  }

  predicate IsPanic(a: Action) {
    a.DeliverOnClosed? || a.ReportOnClosed? || a.SendNilOnClosed?
  }

  predicate IsCallerStep(a: Action) {
    a.CancelPulls? || a.JudgeResponse? || a.CopyFile? || a.CallerLock? || a.CloseChannel? || a.CallerUnlock?
    || a.ParentCancels?
  }

  /** Steps that change one puller change the two counts by what that puller contributes. */
  lemma CountsAfter(s: State, i: nat, p: Puller)
    requires i < |s.pullers|
    ensures Total(s.pullers[i := p], Unreported) ==
              Total(s.pullers, Unreported) - Unreported(s.pullers[i]) + Unreported(p)
    ensures Total(s.pullers[i := p], Errored) ==
              Total(s.pullers, Errored) - Errored(s.pullers[i]) + Errored(p)
  {
    TotalUpdate(s.pullers, i, p, Unreported);
    TotalUpdate(s.pullers, i, p, Errored);
  }

  /** What a puller has reported stays reported, and what a successful pull wrote stays written. */
  predicate Settled(p: Puller, p': Puller) {
    && (p.report != NotYet ==> p'.report == p.report)
    && (p.pulled != Unfinished ==> p'.pulled == p.pulled && p'.file == p.file)
  }

  lemma PullSettles(s: State, a: Action, i: nat)
    requires Enabled(s, a) && (a.Write? || a.EndPull?)
    requires i < |s.pullers| && PullerOk(s.pullers[i])
    ensures |Apply(s, a).pullers| == |s.pullers|
    ensures Settled(s.pullers[i], Apply(s, a).pullers[i])
  {
  }

  lemma LockSettles(s: State, a: Action, i: nat)
    requires Enabled(s, a) && (a.CheckContext? || a.PullerLock? || a.TestFlag? || a.PullerUnlock?)
    requires i < |s.pullers| && PullerOk(s.pullers[i])
    ensures |Apply(s, a).pullers| == |s.pullers|
    ensures Settled(s.pullers[i], Apply(s, a).pullers[i])
  {
  }

  lemma ExchangeSettles(s: State, a: Action, i: nat)
    requires Enabled(s, a) && (a.Deliver? || a.Report?)
    requires i < |s.pullers| && PullerOk(s.pullers[i])
    ensures |Apply(s, a).pullers| == |s.pullers|
    ensures Settled(s.pullers[i], Apply(s, a).pullers[i])
  {
  }

  lemma StepSettles(s: State, a: Action, i: nat)
    requires PullersInv(s) && Enabled(s, a) && i < |s.pullers|
    ensures |Apply(s, a).pullers| == |s.pullers|
    ensures Settled(s.pullers[i], Apply(s, a).pullers[i])
  {
    if a.Write? || a.EndPull? {
      PullSettles(s, a, i);
    } else if IsPullerStep(a) {
      LockSettles(s, a, i);
    } else if a.Deliver? || a.Report? {
      ExchangeSettles(s, a, i);
    } else if IsCallerStep(a) {
      CallerFrame(s, a);
    }
  }

  /** A pull succeeds only by ending, and ending it leaves the file as it was written. */
  lemma SucceedsByEnding(s: State, a: Action, i: nat)
    requires Enabled(s, a) && i < |s.pullers| && !s.pullers[i].pulled.Succeeded?
    requires i < |Apply(s, a).pullers| && Apply(s, a).pullers[i].pulled.Succeeded?
    ensures a == EndPull(i, Apply(s, a).pullers[i].pulled)
    ensures Apply(s, a).pullers[i].file == s.pullers[i].file
  {
    match a
    case Write(_, _) =>
    case EndPull(_, _) =>
    case Report(_) =>
    case _ =>
  }

  lemma KeepsReports(s: State, a: Action)
    requires PullersInv(s) && Enabled(s, a)
    ensures forall e :: SomeoneReported(s.pullers, e) ==> SomeoneReported(Apply(s, a).pullers, e)
  {
    var ps := Apply(s, a).pullers;
    forall i | 0 <= i < |s.pullers| ensures |ps| == |s.pullers| && Settled(s.pullers[i], ps[i]) {
      StepSettles(s, a, i);
    }
  }

  lemma PullStepPullers(s: State, a: Action)
    requires PullersInv(s) && Enabled(s, a) && (a.Write? || a.EndPull?)
    ensures PullersInv(Apply(s, a))
  {
  }

  lemma CheckContextPullers(s: State, a: Action)
    requires PullersInv(s) && Enabled(s, a) && a.CheckContext?
    ensures PullersInv(Apply(s, a))
  {
  }

  lemma LockStepPullers(s: State, a: Action)
    requires PullersInv(s) && Enabled(s, a) && (a.PullerLock? || a.PullerUnlock?)
    ensures PullersInv(Apply(s, a))
  {
  }

  /** A puller that finds the flag set knows that another puller was heard. */
  lemma ClosedMeansDelivered(s: State, i: nat)
    requires Inv(s) && PullerAt(s, i, TestingFlag) && s.closedFlag
    ensures s.response.FileOf?
  {
    AllErrored(s);
    assert s.pullers[i].report == NotYet;
  }

  lemma TestFlagPullers(s: State, a: Action)
    requires PullersInv(s) && Enabled(s, a) && a.TestFlag?
    requires s.closedFlag ==> s.response.FileOf?
    ensures PullersInv(Apply(s, a))
  {
  }

  lemma PullerStepCaller(s: State, a: Action)
    requires Inv(s) && Enabled(s, a) && IsPullerStep(a)
    ensures CallerInv(Apply(s, a))
  {
  }

  lemma PullerStepCollector(s: State, a: Action)
    requires Inv(s) && Enabled(s, a) && IsPullerStep(a)
    ensures CollectorInv(Apply(s, a))
  {
    CountsAfter(s, a.i, Apply(s, a).pullers[a.i]);
    KeepsReports(s, a);
  }

  lemma DeliverInv(s: State, a: Action)
    requires Inv(s) && Enabled(s, a) && a.Deliver?
    ensures Inv(Apply(s, a))
  {
    var s' := Apply(s, a);
    AllErrored(s);
    UnreportedPositive(s, a.i);
    assert PullersInv(s');
    assert CallerInv(s');
    assert CollectorInv(s') by {
      CountsAfter(s, a.i, s'.pullers[a.i]);
      KeepsReports(s, a);
    }
  }

  lemma ReportPullers(s: State, a: Action)
    requires PullersInv(s) && Enabled(s, a) && a.Report?
    ensures PullersInv(Apply(s, a))
  {
  }

  lemma ReportCaller(s: State, a: Action)
    requires Inv(s) && Enabled(s, a) && a.Report?
    ensures CallerInv(Apply(s, a))
  {
  }

  lemma ReportCollector(s: State, a: Action)
    requires Inv(s) && Enabled(s, a) && a.Report?
    ensures CollectorInv(Apply(s, a))
  {
    var s' := Apply(s, a);
    CountsAfter(s, a.i, s'.pullers[a.i]);
    KeepsReports(s, a);
    assert s'.pullers[a.i].report == s'.collector.report;
  }

  lemma SendNilInv(s: State, a: Action)
    requires Inv(s) && Enabled(s, a) && a.SendNil?
    ensures Inv(Apply(s, a))
  {
    AllErrored(s);
    KeepsReports(s, a);
  }

  /** No step that panics is ever possible. */
  lemma NoPanicStep(s: State, a: Action)
    requires Inv(s) && IsPanic(a)
    ensures !Enabled(s, a)
  {
    if a.ReportOnClosed? && a.i < |s.pullers| && s.pullers[a.i].report == NotYet {
      UnreportedPositive(s, a.i);
    }
  }

  lemma CallerStepPullers(s: State, a: Action)
    requires PullersInv(s) && CallerInv(s) && Enabled(s, a) && IsCallerStep(a)
    ensures PullersInv(Apply(s, a))
  {
    var s' := Apply(s, a);
    assert s'.pullers == s.pullers && s'.response == s.response;
  }

  /** The caller touches neither the counts nor anything the collector owns. */
  lemma CallerFrame(s: State, a: Action)
    requires Enabled(s, a) && IsCallerStep(a)
    ensures var s' := Apply(s, a);
      && s'.pullers == s.pullers && s'.collector == s.collector && s'.response == s.response
      && s'.pendingFns == s.pendingFns && s'.erroredFns == s.erroredFns
      && s'.pullErr == s.pullErr && s'.errcClosed == s.errcClosed
  {
    match a
    case CancelPulls =>
    case JudgeResponse =>
    case CopyFile(_) =>
    case _ =>
  }

  /** The collector's invariant only speaks of the fields named here. */
  lemma SameCountsSameInv(s: State, s': State)
    requires CollectorInv(s)
    requires s'.pullers == s.pullers && s'.collector == s.collector && s'.response == s.response
    requires s'.pendingFns == s.pendingFns && s'.erroredFns == s.erroredFns
    requires s'.pullErr == s.pullErr && s'.errcClosed == s.errcClosed
    ensures CollectorInv(s')
  {
    assert s' == s.(caller := s'.caller, outcome := s'.outcome, holder := s'.holder, closedFlag := s'.closedFlag,
                    pullSuccessClosed := s'.pullSuccessClosed, cancelled := s'.cancelled, panicked := s'.panicked);
  }

  lemma CallerStepCaller(s: State, a: Action)
    requires Inv(s) && Enabled(s, a) && IsCallerStep(a)
    ensures CallerInv(Apply(s, a))
  {
    if a.CallerLock? || a.CloseChannel? || a.CallerUnlock? || a.ParentCancels? {
      CallerClosesCaller(s, a);
    } else {
      CallerDecidesCaller(s, a);
    }
  }

  lemma CallerClosesCaller(s: State, a: Action)
    requires Inv(s) && Enabled(s, a) && (a.CallerLock? || a.CloseChannel? || a.CallerUnlock? || a.ParentCancels?)
    ensures CallerInv(Apply(s, a))
  {
  }

  lemma CallerDecidesCaller(s: State, a: Action)
    requires Inv(s) && Enabled(s, a) && (a.CancelPulls? || a.JudgeResponse? || a.CopyFile?)
    ensures CallerInv(Apply(s, a))
  {
    AllErrored(s);
  }

  lemma TallyInv(s: State, a: Action)
    requires Inv(s) && Enabled(s, a) && a.Tally?
    ensures Inv(Apply(s, a))
  {
    AllErrored(s);
    var s' := Apply(s, a);
    assert s'.pullers == s.pullers;
  }

  lemma CollectorCheckInv(s: State, a: Action)
    requires Inv(s) && Enabled(s, a) && (a.CheckAllFailed? || a.CheckPending?)
    ensures Inv(Apply(s, a))
  {
    AllErrored(s);
    var s' := Apply(s, a);
    assert s'.pullers == s.pullers;
  }

  lemma StepInv(s: State, a: Action)
    requires Inv(s) && Enabled(s, a)
    ensures Inv(Apply(s, a))
  {
    if IsPullerStep(a) {
      if a.TestFlag? {
        if s.closedFlag { ClosedMeansDelivered(s, a.i); }
        TestFlagPullers(s, a);
      } else if a.CheckContext? {
        CheckContextPullers(s, a);
      } else if a.PullerLock? || a.PullerUnlock? {
        LockStepPullers(s, a);
      } else {
        PullStepPullers(s, a);
      }
      PullerStepCaller(s, a);
      PullerStepCollector(s, a);
    } else if IsExchange(a) {
      if a.Deliver? {
        DeliverInv(s, a);
      } else if a.Report? {
        ReportPullers(s, a);
        ReportCaller(s, a);
        ReportCollector(s, a);
      } else {
        SendNilInv(s, a);
      }
    } else if IsPanic(a) {
      NoPanicStep(s, a);
    } else if IsCallerStep(a) {
      CallerStepPullers(s, a);
      CallerStepCaller(s, a);
      CallerFrame(s, a);
      SameCountsSameInv(s, Apply(s, a));
    } else if a.Tally? {
      TallyInv(s, a);
    } else {
      CollectorCheckInv(s, a);
    }
  }

  // ---------------------------------------------------------------------
  // Every step decreases a measure
  // ---------------------------------------------------------------------

  function PullerRank(p: Puller): nat {
    match p.pc
    case Pulling(k) => 10 + k
    case CheckingContext => 8
    case WantingLock => 7
    case TestingFlag => 6
    case Delivering => 5
    case ReportingNil => 4
    case Reporting(_) => 4
    case Unlocking => 3
    case Finished => 0
  }

  function CallerRank(pc: CallerPc): nat {
    match pc
    case AwaitingPull => 7
    case CancellingPulls => 6
    case JudgingResponse => 5
    case CopyingFile => 4
    case AwaitingLock => 3
    case ClosingChannel => 2
    case ReleasingLock => 1
    case Returned => 0
  }

  function CollectorRank(pc: CollectorPc, pending: int): int {
    match pc
    case CheckingAllFailed => 5 * pending + 3
    case SendingNil => 5 * pending + 2
    case CheckingPending => 5 * pending + 1
    case AwaitingReport => 5 * pending
    case Tallying(_) => 5 * pending - 1
    case Stopped => 0
  }

  function Measure(s: State): int {
    Total(s.pullers, PullerRank) + CallerRank(s.caller) + CollectorRank(s.collector, s.pendingFns)
    + (if s.cancelled then 0 else 1)
  }

  lemma MeasureNonNegative(s: State)
    requires Inv(s)
    ensures Measure(s) >= 0
  {
  }

  lemma PullerRankDecreases(s: State, a: Action)
    requires Enabled(s, a) && IsPullerStep(a)
    ensures var s' := Apply(s, a);
      && s'.pullers == s.pullers[a.i := s'.pullers[a.i]]
      && PullerRank(s'.pullers[a.i]) < PullerRank(s.pullers[a.i])
      && s'.caller == s.caller && s'.collector == s.collector && s'.pendingFns == s.pendingFns
      && s'.cancelled == s.cancelled
  {
    match a
    case Write(_, _) =>
    case EndPull(_, _) =>
    case TestFlag(_) =>
    case _ =>
  }

  lemma PullerStepDecreases(s: State, a: Action)
    requires Enabled(s, a) && IsPullerStep(a)
    ensures Measure(Apply(s, a)) < Measure(s)
  {
    PullerRankDecreases(s, a);
    TotalUpdate(s.pullers, a.i, Apply(s, a).pullers[a.i], PullerRank);
  }

  lemma ExchangeDecreases(s: State, a: Action)
    requires Enabled(s, a) && IsExchange(a)
    ensures Measure(Apply(s, a)) < Measure(s)
  {
    if !a.SendNil? {
      TotalUpdate(s.pullers, a.i, Apply(s, a).pullers[a.i], PullerRank);
    }
  }

  lemma OtherStepDecreases(s: State, a: Action)
    requires CollectorInv(s) && CallerInv(s) && Enabled(s, a) && !IsPullerStep(a) && !IsExchange(a) && !IsPanic(a)
    ensures Measure(Apply(s, a)) < Measure(s)
  {
    if IsCallerStep(a) {
      CallerFrame(s, a);
    } else {
      assert Apply(s, a).pullers == s.pullers;
    }
  }

  lemma StepDecreases(s: State, a: Action)
    requires Inv(s) && Enabled(s, a)
    ensures Measure(Apply(s, a)) < Measure(s)
  {
    if IsPanic(a) {
      NoPanicStep(s, a);
    } else if IsPullerStep(a) {
      PullerStepDecreases(s, a);
    } else if IsExchange(a) {
      ExchangeDecreases(s, a);
    } else {
      OtherStepDecreases(s, a);
    }
  }

  // ---------------------------------------------------------------------
  // Runs
  // ---------------------------------------------------------------------

  ghost predicate IsRun(run: seq<State>, acts: seq<Action>) {
    && |run| == |acts| + 1
    && Init(run[0])
    && forall k :: 0 <= k < |acts| ==> Enabled(run[k], acts[k]) && run[k + 1] == Apply(run[k], acts[k])
  }

  lemma {:induction false} RunInv(run: seq<State>, acts: seq<Action>, k: nat)
    requires IsRun(run, acts) && k < |run|
    ensures Inv(run[k])
  {
    if k == 0 {
      InitInv(run[0]);
    } else {
      RunInv(run, acts, k - 1);
      StepInv(run[k - 1], acts[k - 1]);
    }
  }

  /**
   * In no interleaving does any goroutine send on a closed pullSuccess or errc,
   * or close either of them twice.
   */
  lemma NeverPanics(run: seq<State>, acts: seq<Action>)
    requires IsRun(run, acts)
    ensures forall k :: 0 <= k < |run| ==> !run[k].panicked
    ensures forall k :: 0 <= k < |acts| ==> !IsPanic(acts[k])
  {
    forall k | 0 <= k < |run| ensures !run[k].panicked {
      RunInv(run, acts, k);
    }
    forall k | 0 <= k < |acts| ensures !IsPanic(acts[k]) {
      RunInv(run, acts, k);
      if IsPanic(acts[k]) { NoPanicStep(run[k], acts[k]); }
    }
  }

  /** Whenever a goroutine closes a channel, the channel is open: neither of the two is closed twice. */
  lemma ClosesOnce(run: seq<State>, acts: seq<Action>, k: nat)
    requires IsRun(run, acts) && k < |acts|
    ensures acts[k] == CloseChannel ==> !run[k].pullSuccessClosed && run[k + 1].pullSuccessClosed
    ensures acts[k] == CheckPending && run[k + 1].errcClosed ==> !run[k].errcClosed && run[k].pendingFns <= 0
  {
    RunInv(run, acts, k);
  }

  lemma {:induction false} RunDecreases(run: seq<State>, acts: seq<Action>, k: nat)
    requires IsRun(run, acts) && k < |run|
    ensures Measure(run[k]) + k <= Measure(run[0])
  {
    if k > 0 {
      RunDecreases(run, acts, k - 1);
      RunInv(run, acts, k - 1);
      StepDecreases(run[k - 1], acts[k - 1]);
    }
  }

  /** No run is longer than the measure of its first state: nothing livelocks. */
  lemma RunsAreBounded(run: seq<State>, acts: seq<Action>)
    requires IsRun(run, acts)
    ensures |acts| <= Measure(run[0])
  {
    RunDecreases(run, acts, |acts|);
    RunInv(run, acts, |acts|);
    MeasureNonNegative(run[|acts|]);
  }

  // ---------------------------------------------------------------------
  // What the call returns
  // ---------------------------------------------------------------------

  /**
   * Once the caller has decided: it returns a pull error if and only if every
   * puller reported an error, and then one that was reported; otherwise the
   * file it uses is that of one puller whose pull succeeded.
   */
  lemma DecidedOutcome(run: seq<State>, acts: seq<Action>, k: nat)
    requires IsRun(run, acts) && k < |run| && run[k].outcome != Undecided
    ensures var s := run[k];
      && (s.outcome.PullError? <==> forall i :: 0 <= i < |s.pullers| ==> s.pullers[i].report.ErrReport?)
      && (s.outcome.PullError? ==> s.outcome.error.Some? && SomeoneReported(s.pullers, s.outcome.error.value))
      && (!s.outcome.PullError? ==>
            && s.outcome.winner < |s.pullers|
            && s.pullers[s.outcome.winner].pulled.Succeeded?)
      && (s.outcome.Copied? ==> s.outcome.bytes == s.pullers[s.outcome.winner].file)
  {
    RunInv(run, acts, k);
    AllErrored(run[k]);
  }

  predicate SettledAt(run: seq<State>, k: nat, i: nat)
    requires k + 1 < |run|
  {
    && |run[k + 1].pullers| == |run[k].pullers|
    && (i < |run[k].pullers| ==> Settled(run[k].pullers[i], run[k + 1].pullers[i]))
  }

  lemma {:induction false} SettledMeansFrozen(run: seq<State>, k: nat, m: nat, i: nat)
    requires k <= m < |run| && i < |run[k].pullers| && run[k].pullers[i].pulled.Succeeded?
    requires forall j {:trigger SettledAt(run, j, i)} :: k <= j < m ==> SettledAt(run, j, i)
    ensures i < |run[m].pullers|
    ensures run[m].pullers[i].pulled == run[k].pullers[i].pulled
    ensures run[m].pullers[i].file == run[k].pullers[i].file
  {
    if k < m {
      SettledMeansFrozen(run, k, m - 1, i);
      assert SettledAt(run, m - 1, i);
    }
  }

  lemma RunSettles(run: seq<State>, acts: seq<Action>, k: nat, i: nat)
    requires IsRun(run, acts) && k < |acts|
    ensures SettledAt(run, k, i) && |run[k].pullers| > 0
  {
    RunInv(run, acts, k);
    StepSettles(run[k], acts[k], if i < |run[k].pullers| then i else 0);
  }

  lemma {:induction false} PullersStay(run: seq<State>, acts: seq<Action>, k: nat)
    requires IsRun(run, acts) && k < |run|
    ensures |run[k].pullers| == |run[0].pullers|
  {
    if k > 0 {
      PullersStay(run, acts, k - 1);
      RunSettles(run, acts, k - 1, 0);
    }
  }

  /** The file of a puller that succeeded is never written again. */
  lemma FileFrozen(run: seq<State>, acts: seq<Action>, k: nat, m: nat, i: nat)
    requires IsRun(run, acts) && k <= m < |run| && i < |run[k].pullers| && run[k].pullers[i].pulled.Succeeded?
    ensures i < |run[m].pullers|
    ensures run[m].pullers[i].pulled == run[k].pullers[i].pulled
    ensures run[m].pullers[i].file == run[k].pullers[i].file
  {
    forall j | k <= j < m ensures SettledAt(run, j, i) {
      RunSettles(run, acts, j, i);
    }
    SettledMeansFrozen(run, k, m, i);
  }
}
