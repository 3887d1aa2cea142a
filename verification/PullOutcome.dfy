/**
 * What a call of the pull race returns, against the steps of its run: which
 * error, which bytes, and whether the copy counts as made.
 */
module PullOutcome {
  import opened Wrappers
  import opened PullRace

  // ---------------------------------------------------------------------
  // Every error that is reported has a cause
  // ---------------------------------------------------------------------

  /** The pull itself ended with the error, or it succeeded and was told off because the call was cancelled. */
  predicate Causes(p: Puller, e: Error, cancelled: bool) {
    p.pulled == Failed(e) || (p.pulled.Succeeded? && e == ContextCancelled && cancelled)
  }

  predicate TellsTruth(p: Puller, cancelled: bool) {
    && (p.pc.Reporting? ==> Causes(p, p.pc.error, cancelled))
    && (p.report.ErrReport? ==> Causes(p, p.report.error, cancelled))
    && (p.report == NilReport || p.pc == ReportingNil ==> p.pulled.Succeeded?)
  }

  /** The pulls and their reports. */
  lemma PullTellsTruth(s: State, a: Action, i: nat)
    requires Enabled(s, a) && (a.Write? || a.EndPull? || a.Report?)
    requires i < |s.pullers| && PullerOk(s.pullers[i]) && TellsTruth(s.pullers[i], s.cancelled)
    ensures |Apply(s, a).pullers| == |s.pullers|
    ensures TellsTruth(Apply(s, a).pullers[i], Apply(s, a).cancelled)
  {
  }

  lemma LockTellsTruth(s: State, a: Action, i: nat)
    requires Enabled(s, a) && !a.Write? && !a.EndPull? && !a.Report?
    requires i < |s.pullers| && PullerOk(s.pullers[i]) && TellsTruth(s.pullers[i], s.cancelled)
    ensures |Apply(s, a).pullers| == |s.pullers|
    ensures TellsTruth(Apply(s, a).pullers[i], Apply(s, a).cancelled)
  {
    if IsCallerStep(a) {
      CallerFrame(s, a);
    }
  }

  /** In every run, whatever error a puller reports is its pull's own, or tells of a cancellation after a success. */
  lemma {:induction false} ReportsHaveCauses(run: seq<State>, acts: seq<Action>, k: nat, i: nat)
    requires IsRun(run, acts) && k < |run| && i < |run[k].pullers|
    ensures TellsTruth(run[k].pullers[i], run[k].cancelled)
  {
    if k > 0 {
      PullersStay(run, acts, k);
      PullersStay(run, acts, k - 1);
      ReportsHaveCauses(run, acts, k - 1, i);
      RunInv(run, acts, k - 1);
      var s, a := run[k - 1], acts[k - 1];
      assert PullerInv(s.pullers[i], i, s.holder, s.closedFlag, s.response);
      if a.Write? || a.EndPull? || a.Report? {
        PullTellsTruth(s, a, i);
      } else {
        LockTellsTruth(s, a, i);
      }
    }
  }

  // ---------------------------------------------------------------------
  // The error that is returned
  // ---------------------------------------------------------------------

  /** The error that step j puts on errc, if it does. */
  function Sent(run: seq<State>, acts: seq<Action>, j: nat): Option<Error>
    requires j < |run| && j < |acts|
  {
    if acts[j].Report? && acts[j].i < |run[j].pullers| && run[j].pullers[acts[j].i].pc.Reporting? then
      Some(run[j].pullers[acts[j].i].pc.error)
    else None
  }

  /** The last error sent on errc during the first k steps. */
  function LastSent(run: seq<State>, acts: seq<Action>, k: nat): Option<Error>
    requires k < |run| && k <= |acts|
  {
    if k == 0 then None
    else if Sent(run, acts, k - 1).Some? then Sent(run, acts, k - 1)
    else LastSent(run, acts, k - 1)
  }

  /** The error the collector knows or is about to note. */
  function Noted(s: State): Option<Error> {
    if s.collector.Tallying? && s.collector.report.ErrReport? then Some(s.collector.report.error) else s.pullErr
  }

  lemma StepNotes(s: State, a: Action)
    requires Inv(s) && Enabled(s, a)
    ensures Noted(Apply(s, a)) ==
      if a.Report? && s.pullers[a.i].pc.Reporting? then Some(s.pullers[a.i].pc.error) else Noted(s)
  {
    if IsCallerStep(a) {
      CallerFrame(s, a);
    }
  }

  lemma {:induction false} NotesTheLast(run: seq<State>, acts: seq<Action>, k: nat)
    requires IsRun(run, acts) && k < |run|
    ensures Noted(run[k]) == LastSent(run, acts, k)
  {
    if k > 0 {
      NotesTheLast(run, acts, k - 1);
      RunInv(run, acts, k - 1);
      StepNotes(run[k - 1], acts[k - 1]);
    }
  }

  /**
   * A pull error that the call returns is the last one sent on errc, and it is
   * the error that some puller's pull ended with, or the cancellation of a
   * call in which that puller's pull had succeeded.
   */
  lemma ReturnsACause(run: seq<State>, acts: seq<Action>, k: nat) returns (i: nat)
    requires IsRun(run, acts) && k < |run| && run[k].outcome.PullError?
    ensures run[k].outcome.error.Some? && run[k].outcome.error == LastSent(run, acts, k)
    ensures i < |run[k].pullers| && Causes(run[k].pullers[i], run[k].outcome.error.value, run[k].cancelled)
  {
    var s := run[k];
    RunInv(run, acts, k);
    AllErrored(s);
    NotesTheLast(run, acts, k);
    DecidedOutcome(run, acts, k);
    i :| 0 <= i < |s.pullers| && s.pullers[i].report == ErrReport(s.outcome.error.value);
    ReportsHaveCauses(run, acts, k, i);
  }

  // ---------------------------------------------------------------------
  // The copy
  // ---------------------------------------------------------------------

  predicate Took(acts: seq<Action>, k: nat, a: Action)
    requires k <= |acts|
  {
    a in acts[..k]
  }

  lemma TookNext(acts: seq<Action>, k: nat, a: Action)
    requires k < |acts|
    ensures Took(acts, k + 1, a) <==> Took(acts, k, a) || acts[k] == a
  {
    assert acts[..k + 1] == acts[..k] + [acts[k]];
  }

  /** The file is copied exactly by a copy step that succeeds, and the copy fails exactly by one that fails. */
  lemma {:induction false} CopiedIff(run: seq<State>, acts: seq<Action>, k: nat)
    requires IsRun(run, acts) && k < |run|
    ensures run[k].outcome.Copied? <==> Took(acts, k, CopyFile(true))
    ensures run[k].outcome.CopyFailed? <==> Took(acts, k, CopyFile(false))
  {
    if k > 0 {
      CopiedIff(run, acts, k - 1);
      TookNext(acts, k - 1, CopyFile(true));
      TookNext(acts, k - 1, CopyFile(false));
      RunCopies(run, acts, k - 1);
    }
  }

  lemma RunCopies(run: seq<State>, acts: seq<Action>, k: nat)
    requires IsRun(run, acts) && k < |acts|
    ensures run[k + 1].outcome.Copied? <==> run[k].outcome.Copied? || acts[k] == CopyFile(true)
    ensures run[k + 1].outcome.CopyFailed? <==> run[k].outcome.CopyFailed? || acts[k] == CopyFile(false)
  {
    RunInv(run, acts, k);
    StepCopies(run[k], acts[k]);
  }

  lemma StepCopies(s: State, a: Action)
    requires Inv(s) && Enabled(s, a)
    ensures Apply(s, a).outcome.Copied? <==> s.outcome.Copied? || a == CopyFile(true)
    ensures Apply(s, a).outcome.CopyFailed? <==> s.outcome.CopyFailed? || a == CopyFile(false)
  {
    if !IsCallerStep(a) {
      OutcomeStays(s, a);
    }
  }

  lemma OutcomeStays(s: State, a: Action)
    requires Enabled(s, a) && !IsCallerStep(a)
    ensures Apply(s, a).outcome == s.outcome
  {
    if IsPullerStep(a) {
      PullerLeavesOutcome(s, a);
    }
  }

  lemma PullerLeavesOutcome(s: State, a: Action)
    requires Enabled(s, a) && IsPullerStep(a)
    ensures Apply(s, a).outcome == s.outcome
  {
  }

  // ---------------------------------------------------------------------
  // The file
  // ---------------------------------------------------------------------

  /** The chunks that puller i writes during the first k steps, one after the other. */
  function Written(acts: seq<Action>, k: nat, i: nat): Bytes
    requires k <= |acts|
  {
    if k == 0 then []
    else Written(acts, k - 1, i) + if acts[k - 1].Write? && acts[k - 1].i == i then acts[k - 1].chunk else []
  }

  lemma StepWrites(s: State, a: Action, i: nat)
    requires Enabled(s, a) && i < |s.pullers| && i < |Apply(s, a).pullers|
    ensures Apply(s, a).pullers[i].file == s.pullers[i].file + if a.Write? && a.i == i then a.chunk else []
  {
    if !IsPullerStep(a) && !IsExchange(a) {
      OthersWriteNothing(s, a, i);
    }
  }

  lemma OthersWriteNothing(s: State, a: Action, i: nat)
    requires Enabled(s, a) && i < |s.pullers| && !IsPullerStep(a) && !IsExchange(a)
    ensures Apply(s, a).pullers == s.pullers
  {
    if IsCallerStep(a) {
      CallerFrame(s, a);
    }
  }

  lemma {:induction false} FileIsWritten(run: seq<State>, acts: seq<Action>, k: nat, i: nat)
    requires IsRun(run, acts) && k < |run| && i < |run[k].pullers|
    ensures run[k].pullers[i].file == Written(acts, k, i)
  {
    if k > 0 {
      PullersStay(run, acts, k);
      PullersStay(run, acts, k - 1);
      FileIsWritten(run, acts, k - 1, i);
      StepWrites(run[k - 1], acts[k - 1], i);
    }
  }

  /** What is copied out is all that the puller the caller heard has written, in order. */
  lemma CopiesWhatWasWritten(run: seq<State>, acts: seq<Action>, k: nat)
    requires IsRun(run, acts) && k < |run| && run[k].outcome.Copied?
    ensures run[k].outcome.bytes == Written(acts, k, run[k].outcome.winner)
    ensures Took(acts, k, Deliver(run[k].outcome.winner))
  {
    DecidedOutcome(run, acts, k);
    FileIsWritten(run, acts, k, run[k].outcome.winner);
    RunInv(run, acts, k);
    HeardIff(run, acts, k, run[k].outcome.winner);
  }

  /** The caller has heard a puller exactly when that puller's delivery was taken. */
  lemma {:induction false} HeardIff(run: seq<State>, acts: seq<Action>, k: nat, i: nat)
    requires IsRun(run, acts) && k < |run|
    ensures run[k].response == FileOf(i) <==> Took(acts, k, Deliver(i))
  {
    if k > 0 {
      HeardIff(run, acts, k - 1, i);
      RunInv(run, acts, k - 1);
      TookNext(acts, k - 1, Deliver(i));
      StepHears(run[k - 1], acts[k - 1], i);
    }
  }

  lemma StepHears(s: State, a: Action, i: nat)
    requires Inv(s) && Enabled(s, a)
    ensures Apply(s, a).response == FileOf(i) <==> s.response == FileOf(i) || a == Deliver(i)
  {
    if IsCallerStep(a) {
      CallerFrame(s, a);
    }
  }
}
