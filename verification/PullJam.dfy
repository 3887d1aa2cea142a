/**
 * Where a call of the pull race can stop: it has finished completely, or it
 * stands in a jam, and exactly when that happens.
 */
module PullJam {
  import opened Wrappers
  import opened Sums
  import opened PullRace

  ghost predicate Stuck(s: State) {
    forall a: Action :: !Enabled(s, a)
  }

  /** The caller has returned and every goroutine of the call has ended. */
  predicate Final(s: State) {
    && s.caller == Returned
    && s.collector == Stopped
    && forall i :: 0 <= i < |s.pullers| ==> s.pullers[i].pc == Finished
  }

  /** A second successful puller holds the mutex at its send while the caller waits for that mutex. */
  predicate Jam(s: State) {
    && s.caller == AwaitingLock
    && s.response.FileOf?
    && s.holder.HeldByPuller?
    && s.holder.puller != s.response.winner
    && PullerAt(s, s.holder.puller, Delivering)
  }

  /** The step a puller that is not at a blocking operation can take at once. */
  lemma PullerCanMove(s: State, i: nat) returns (a: Action)
    requires Inv(s) && i < |s.pullers|
    requires s.pullers[i].pc.Pulling? || s.pullers[i].pc in {CheckingContext, TestingFlag, Unlocking}
    ensures Enabled(s, a) && a != ParentCancels
  {
    match s.pullers[i].pc
    case Pulling(_) => a := EndPull(i, Succeeded(true));
    case CheckingContext => a := CheckContext(i);
    case TestingFlag => a := TestFlag(i);
    case Unlocking => a := PullerUnlock(i);
  }

  /** A puller at a report is heard as soon as the collector comes round. */
  lemma ReportCanMove(s: State, i: nat) returns (a: Action)
    requires Inv(s) && AtReport(s, i)
    ensures Enabled(s, a) && a != ParentCancels
  {
    UnreportedPositive(s, i);
    AllErrored(s);
    match s.collector
    case AwaitingReport => a := Report(i);
    case Tallying(_) => a := Tally;
    case CheckingAllFailed => a := CheckAllFailed;
    case CheckingPending => a := CheckPending;
    case _ => assert false;
  }

  /** With every puller finished, the collector still comes to its end. */
  lemma CollectorCanMove(s: State) returns (a: Action)
    requires Inv(s) && s.collector != Stopped
    requires forall i :: 0 <= i < |s.pullers| ==> s.pullers[i].pc == Finished
    ensures Enabled(s, a) && a != ParentCancels
  {
    TotalZero(s.pullers, Unreported);
    match s.collector
    case Tallying(_) => a := Tally;
    case CheckingAllFailed => a := CheckAllFailed;
    case SendingNil => a := SendNil;
    case CheckingPending => a := CheckPending;
    case AwaitingReport => assert false;
  }

  /** While the mutex is with a puller, that puller can move, or it is at its send. */
  lemma HolderCanMove(s: State) returns (a: Action)
    requires Inv(s) && s.holder.HeldByPuller?
    requires !PullerAt(s, s.holder.puller, Delivering)
    ensures Enabled(s, a) && a != ParentCancels
  {
    var h := s.holder.puller;
    assert HoldsLock(s.pullers[h].pc);
    if s.pullers[h].pc == ReportingNil {
      a := ReportCanMove(s, h);
    } else {
      a := PullerCanMove(s, h);
    }
  }

  /** Some puller that has not finished can move, unless the mutex holder is at its send. */
  lemma UnfinishedCanMove(s: State, i: nat) returns (a: Action)
    requires Inv(s) && i < |s.pullers| && s.pullers[i].pc != Finished
    requires s.holder != HeldByCaller
    requires s.holder.HeldByPuller? ==> !PullerAt(s, s.holder.puller, Delivering)
    ensures Enabled(s, a) && a != ParentCancels
  {
    if s.holder.HeldByPuller? {
      a := HolderCanMove(s);
    } else if AtReport(s, i) {
      a := ReportCanMove(s, i);
    } else if s.pullers[i].pc == WantingLock {
      a := PullerLock(i);
    } else {
      a := PullerCanMove(s, i);
    }
  }

  /** While the caller waits for the mutex something can move, unless that is the jam. */
  lemma LockCanMove(s: State) returns (a: Action)
    requires Inv(s) && s.caller == AwaitingLock && !Jam(s)
    ensures Enabled(s, a) && a != ParentCancels
  {
    if s.holder == Free {
      a := CallerLock;
    } else if PullerAt(s, s.holder.puller, Delivering) {
      AllErrored(s);
      assert false;
    } else {
      a := HolderCanMove(s);
    }
  }

  /** While the caller waits for a first answer something can move. */
  lemma AwaitedCanMove(s: State) returns (a: Action)
    requires Inv(s) && s.caller == AwaitingPull
    ensures Enabled(s, a) && a != ParentCancels
  {
    if i: nat :| i < |s.pullers| && s.pullers[i].pc == Delivering {
      a := Deliver(i);
    } else if i: nat :| i < |s.pullers| && s.pullers[i].pc != Finished {
      a := UnfinishedCanMove(s, i);
    } else {
      AllErrored(s);
      a := CollectorCanMove(s);
    }
  }

  /** A reachable state that is neither final nor the jam has an enabled step of the call itself. */
  lemma Progress(s: State) returns (a: Action)
    requires Inv(s) && !Final(s) && !Jam(s)
    ensures Enabled(s, a) && a != ParentCancels
  {
    match s.caller
    case CancellingPulls => a := CancelPulls;
    case JudgingResponse => a := JudgeResponse;
    case CopyingFile => a := CopyFile(true);
    case ClosingChannel => a := CloseChannel;
    case ReleasingLock => a := CallerUnlock;
    case AwaitingLock => a := LockCanMove(s);
    case AwaitingPull => a := AwaitedCanMove(s);
    case Returned =>
      if i: nat :| i < |s.pullers| && s.pullers[i].pc != Finished {
        a := UnfinishedCanMove(s, i);
      } else {
        a := CollectorCanMove(s);
      }
  }

  /** A run that cannot go on has either finished or is in exactly the jam. */
  lemma StuckIsFinalOrJam(run: seq<State>, acts: seq<Action>)
    requires IsRun(run, acts) && Stuck(run[|acts|])
    ensures Final(run[|acts|]) <==> !Jam(run[|acts|])
  {
    var s := run[|acts|];
    RunInv(run, acts, |acts|);
    if !Final(s) && !Jam(s) {
      var a := Progress(s);
    }
  }

  // ---------------------------------------------------------------------
  // Exactly when the call jams
  // ---------------------------------------------------------------------

  /** A puller takes the mutex after the caller was answered and before the caller has closed the channel. */
  predicate LateLock(s: State, a: Action) {
    a.PullerLock? && s.response != NoResponse && !s.closedFlag
  }

  /** The mutex is with a puller that will block at its send for ever. */
  predicate Doomed(s: State) {
    && s.response != NoResponse
    && !s.closedFlag
    && s.holder.HeldByPuller?
    && (PullerAt(s, s.holder.puller, TestingFlag) || PullerAt(s, s.holder.puller, Delivering))
  }

  lemma DoomedStep(run: seq<State>, acts: seq<Action>, k: nat)
    requires IsRun(run, acts) && k < |acts|
    ensures Doomed(run[k + 1]) <==> Doomed(run[k]) || LateLock(run[k], acts[k])
  {
    var s, a := run[k], acts[k];
    RunInv(run, acts, k);
    if IsPullerStep(a) {
      PullerDoom(s, a);
    } else if IsPanic(a) {
      NoPanicStep(s, a);
    } else if a.Deliver? || a.Report? {
      ExchangeDoom(s, a);
    } else {
      OtherDoom(s, a);
    }
  }

  lemma PullerDoom(s: State, a: Action)
    requires PullersInv(s) && Enabled(s, a) && IsPullerStep(a)
    ensures Doomed(Apply(s, a)) <==> Doomed(s) || LateLock(s, a)
  {
  }

  lemma ExchangeDoom(s: State, a: Action)
    requires PullersInv(s) && CallerInv(s) && Enabled(s, a) && (a.Deliver? || a.Report?)
    ensures Doomed(Apply(s, a)) <==> Doomed(s)
  {
  }

  lemma OtherDoom(s: State, a: Action)
    requires Inv(s) && Enabled(s, a) && !IsPullerStep(a) && !IsPanic(a) && !a.Deliver? && !a.Report?
    ensures Doomed(Apply(s, a)) <==> Doomed(s)
  {
    if IsCallerStep(a) {
      CallerDoom(s, a);
    } else {
      CollectorDoom(s, a);
    }
  }

  lemma CallerDoom(s: State, a: Action)
    requires PullersInv(s) && CallerInv(s) && Enabled(s, a) && IsCallerStep(a)
    ensures Doomed(Apply(s, a)) <==> Doomed(s)
  {
  }

  lemma CollectorDoom(s: State, a: Action)
    requires Inv(s) && Enabled(s, a) && (a.Tally? || a.CheckAllFailed? || a.SendNil? || a.CheckPending?)
    ensures Doomed(Apply(s, a)) <==> Doomed(s)
  {
    AllErrored(s);
  }

  ghost predicate LateLockBefore(run: seq<State>, acts: seq<Action>, k: nat)
    requires k <= |acts| <= |run|
  {
    exists j :: 0 <= j < k && LateLock(run[j], acts[j])
  }

  lemma {:induction false} DoomedIffLateLock(run: seq<State>, acts: seq<Action>, k: nat)
    requires IsRun(run, acts) && k < |run|
    ensures Doomed(run[k]) <==> LateLockBefore(run, acts, k)
  {
    if k > 0 {
      DoomedIffLateLock(run, acts, k - 1);
      DoomedStep(run, acts, k - 1);
      if LateLockBefore(run, acts, k) {
        var j :| 0 <= j < k && LateLock(run[j], acts[j]);
        assert j == k - 1 || LateLockBefore(run, acts, k - 1);
      }
    }
  }

  /**
   * A run that goes on as long as it can finishes if and only if no puller
   * takes the mutex between the answer to the caller and the caller's close.
   */
  lemma FinishesIffNoLateLock(run: seq<State>, acts: seq<Action>)
    requires IsRun(run, acts) && Stuck(run[|acts|])
    ensures Final(run[|acts|]) <==> forall j :: 0 <= j < |acts| ==> !LateLock(run[j], acts[j])
  {
    var s := run[|acts|];
    RunInv(run, acts, |acts|);
    StuckIsFinalOrJam(run, acts);
    DoomedIffLateLock(run, acts, |acts|);
    if Jam(s) {
      assert Doomed(s);
    }
    if Final(s) && s.holder.HeldByPuller? {
      assert s.pullers[s.holder.puller].pc == Finished;
    }
  }

  /** When at most one puller passes the context check, the call always finishes. */
  lemma OnePasserFinishes(run: seq<State>, acts: seq<Action>)
    requires IsRun(run, acts) && Stuck(run[|acts|])
    requires var ps := run[|acts|].pullers;
      forall i, j :: 0 <= i < |ps| && 0 <= j < |ps| && PassedCheck(ps[i]) && PassedCheck(ps[j]) ==> i == j
    ensures Final(run[|acts|])
  {
    var s := run[|acts|];
    RunInv(run, acts, |acts|);
    StuckIsFinalOrJam(run, acts);
    if Jam(s) {
      assert PassedCheck(s.pullers[s.response.winner]) && PassedCheck(s.pullers[s.holder.puller]);
    }
  }

  // ---------------------------------------------------------------------
  // The jam is reachable
  // ---------------------------------------------------------------------

  /** The run goes on with the action, and is then in state s. */
  lemma Extend(run: seq<State>, acts: seq<Action>, a: Action, s: State)
    returns (run': seq<State>, acts': seq<Action>)
    requires IsRun(run, acts) && Enabled(run[|acts|], a) && s == Apply(run[|acts|], a)
    ensures IsRun(run', acts') && run'[0] == run[0] && run'[|acts'|] == s
  {
    run', acts' := run + [s], acts + [a];
  }

  /** The state of a call with the three pullers of the code, of which the cache lookup fails. */
  function ThreePullers(pc1: PullerPc, report1: Report, pc2: PullerPc, caller: CallerPc, response: Response,
                        outcome: Outcome, collector: CollectorPc, pending: int, holder: Holder): State
  {
    State([Puller(Finished, Failed(PullFailed(0)), [], ErrReport(PullFailed(0))),
           Puller(pc1, Succeeded(false), [], report1),
           Puller(pc2, Succeeded(true), [], NotYet)],
          caller, response, outcome, collector, pending, 1, Some(PullFailed(0)), holder, false, false, false,
          caller != AwaitingPull && caller != CancellingPulls, false)
  }

  const FAILING := Failed(PullFailed(0))
  const GOOD_1 := Puller(CheckingContext, Succeeded(false), [], NotYet)
  const GOOD_2 := Puller(CheckingContext, Succeeded(true), [], NotYet)

  /** The first pull fails, the other two succeed. */
  lemma TwoPullsSucceed() returns (run: seq<State>, acts: seq<Action>)
    ensures IsRun(run, acts) && |run[0].pullers| == 3
    ensures run[|acts|] == State([Puller(Reporting(PullFailed(0)), FAILING, [], NotYet), GOOD_1, GOOD_2],
                                 AwaitingPull, NoResponse, Undecided, AwaitingReport, 3, 0, None,
                                 Free, false, false, false, false, false)
  {
    var p := Puller(Pulling(0), Unfinished, [], NotYet);
    var q := Puller(Reporting(PullFailed(0)), FAILING, [], NotYet);
    var s := State([p, p, p], AwaitingPull, NoResponse, Undecided, AwaitingReport, 3, 0, None,
                   Free, false, false, false, false, false);
    run, acts := [s], [];
    run, acts := Extend(run, acts, EndPull(0, FAILING), s.(pullers := [q, p, p]));
    run, acts := Extend(run, acts, EndPull(1, Succeeded(false)), s.(pullers := [q, GOOD_1, p]));
    run, acts := Extend(run, acts, EndPull(2, Succeeded(true)), s.(pullers := [q, GOOD_1, GOOD_2]));
  }

  /** The failure is tallied before either of the others goes on. */
  lemma TwoSucceed() returns (run: seq<State>, acts: seq<Action>)
    ensures IsRun(run, acts) && |run[0].pullers| == 3
    ensures run[|acts|] == ThreePullers(CheckingContext, NotYet, CheckingContext, AwaitingPull, NoResponse,
                                        Undecided, AwaitingReport, 2, Free)
  {
    run, acts := TwoPullsSucceed();
    var q := Puller(Finished, FAILING, [], ErrReport(PullFailed(0)));
    var s := run[|acts|].(pullers := [q, GOOD_1, GOOD_2]);
    run, acts := Extend(run, acts, Report(0), s.(collector := Tallying(q.report)));
    s := s.(collector := CheckingAllFailed, pendingFns := 2, erroredFns := 1, pullErr := Some(PullFailed(0)));
    run, acts := Extend(run, acts, Tally, s);
    run, acts := Extend(run, acts, CheckAllFailed, s.(collector := CheckingPending));
    run, acts := Extend(run, acts, CheckPending, s.(collector := AwaitingReport));
  }

  /** Both pass the context check; puller 1 is heard and lets go of the mutex, and puller 2 takes it. */
  lemma SecondTakesTheLock() returns (run: seq<State>, acts: seq<Action>)
    ensures IsRun(run, acts) && |run[0].pullers| == 3
    ensures run[|acts|] == ThreePullers(Finished, NilReport, Delivering, CancellingPulls, FileOf(1), Undecided,
                                        Tallying(NilReport), 2, HeldByPuller(2))
  {
    run, acts := TwoSucceed();
    var s := run[|acts|];
    s := s.(pullers := s.pullers[1 := s.pullers[1].(pc := WantingLock)]);
    run, acts := Extend(run, acts, CheckContext(1), s);
    s := s.(pullers := s.pullers[2 := s.pullers[2].(pc := WantingLock)]);
    run, acts := Extend(run, acts, CheckContext(2), s);
    s := s.(pullers := s.pullers[1 := s.pullers[1].(pc := TestingFlag)], holder := HeldByPuller(1));
    run, acts := Extend(run, acts, PullerLock(1), s);
    s := s.(pullers := s.pullers[1 := s.pullers[1].(pc := Delivering)]);
    run, acts := Extend(run, acts, TestFlag(1), s);
    s := ThreePullers(ReportingNil, NotYet, WantingLock, CancellingPulls, FileOf(1), Undecided,
                      AwaitingReport, 2, HeldByPuller(1));
    run, acts := Extend(run, acts, Deliver(1), s);
    s := ThreePullers(Unlocking, NilReport, WantingLock, CancellingPulls, FileOf(1), Undecided,
                      Tallying(NilReport), 2, HeldByPuller(1));
    run, acts := Extend(run, acts, Report(1), s);
    s := ThreePullers(Finished, NilReport, WantingLock, CancellingPulls, FileOf(1), Undecided,
                      Tallying(NilReport), 2, Free);
    run, acts := Extend(run, acts, PullerUnlock(1), s);
    s := ThreePullers(Finished, NilReport, TestingFlag, CancellingPulls, FileOf(1), Undecided,
                      Tallying(NilReport), 2, HeldByPuller(2));
    run, acts := Extend(run, acts, PullerLock(2), s);
    s := ThreePullers(Finished, NilReport, Delivering, CancellingPulls, FileOf(1), Undecided,
                      Tallying(NilReport), 2, HeldByPuller(2));
    run, acts := Extend(run, acts, TestFlag(2), s);
  }

  /** The caller answers and copies the file, and finds the mutex taken. */
  lemma CallerFindsItTaken() returns (run: seq<State>, acts: seq<Action>)
    ensures IsRun(run, acts) && |run[0].pullers| == 3
    ensures run[|acts|] == ThreePullers(Finished, NilReport, Delivering, AwaitingLock, FileOf(1), Copied(1, []),
                                        Tallying(NilReport), 2, HeldByPuller(2))
  {
    run, acts := SecondTakesTheLock();
    var s := ThreePullers(Finished, NilReport, Delivering, JudgingResponse, FileOf(1), Undecided,
                          Tallying(NilReport), 2, HeldByPuller(2));
    run, acts := Extend(run, acts, CancelPulls, s);
    run, acts := Extend(run, acts, JudgeResponse, s.(caller := CopyingFile));
    run, acts := Extend(run, acts, CopyFile(true), s.(caller := AwaitingLock, outcome := Copied(1, [])));
  }

  /** With the three pullers of the code there is a run that ends in the jam, after a good copy. */
  lemma JamIsReachable() returns (run: seq<State>, acts: seq<Action>)
    ensures IsRun(run, acts) && |run[0].pullers| == 3
    ensures Jam(run[|acts|]) && Stuck(run[|acts|]) && run[|acts|].outcome.Copied?
  {
    run, acts := CallerFindsItTaken();
    var s := ThreePullers(Finished, NilReport, Delivering, AwaitingLock, FileOf(1), Copied(1, []),
                          CheckingAllFailed, 1, HeldByPuller(2));
    run, acts := Extend(run, acts, Tally, s);
    run, acts := Extend(run, acts, CheckAllFailed, s.(collector := CheckingPending));
    run, acts := Extend(run, acts, CheckPending, s.(collector := AwaitingReport));
    JammedState();
  }

  lemma JammedState()
    ensures var s := ThreePullers(Finished, NilReport, Delivering, AwaitingLock, FileOf(1), Copied(1, []),
                                  AwaitingReport, 1, HeldByPuller(2));
      Jam(s) && Stuck(s)
  {
  }
}
