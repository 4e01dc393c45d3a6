/** What a worker may still do after the context is canceled, after a permanent transfer
    error, and over a whole run: bounds that hold at any point of any run. */
module WorkerCancel {
  import opened Types
  import opened Worker
  import opened WorkerSafety

  /** The things a worker does that a cancellation should put an end to.  `Reports` are the
      events that report failure: FileError (also counted alone, as Errors, and as Refusals if the
      failure is a connect's) and the events that skip files, Unreachable and GivenUp (Skips). */
  datatype Deed = Connects | Starts | Deletes | Uploads | Verifies | Errors | Refusals | Skips | Reports | Successes

  function Cost(d: Deed, a: Action): nat {
    var hit := match d
      case Connects => a.Connect?
      case Starts => a.Send? && a.event.FileStart?
      case Deletes => a.Delete?
      case Uploads => a.UploadBegin?
      case Verifies => a.Verify?
      case Errors => a.Send? && a.event.FileError?
      case Refusals => a.Send? && a.event.FileError? && a.event.cause.ConnectCause?
      case Skips => a.Send? && (a.event.Unreachable? || a.event.GivenUp?)
      case Reports => a.Send? && (a.event.FileError? || a.event.Unreachable? || a.event.GivenUp?)
      case Successes => a.Send? && a.event.FileSuccess?;
    if hit then 1 else 0
  }

  /** How often a log does `d`. */
  function Total(d: Deed, log: seq<Action>): nat {
    if log == [] then 0 else Total(d, log[..|log| - 1]) + Cost(d, log[|log| - 1])
  }

  /** How far a worker at `pc` is into an attempt: the larger, the less is left to do. */
  function Stage(pc: Pc): nat {
    match pc
    case Dialing => 1
    case Starting => 2
    case Deleting => 3
    case UploadReady => 4
    case Uploading => 5
    case Verifying => 6
    case Reporting(_) => 7
    case Dropping(_) => 8
    case Succeeding(_) => 9
    case _ => 10
  }

  /** How often a worker at `pc`, its context canceled, may still do `d`. */
  function Left(d: Deed, pc: Pc): nat {
    var last := match d
      case Connects => 1
      case Starts => 2
      case Deletes => 3
      case Uploads => 4
      case Verifies => 6
      case Errors => 7
      case Refusals => 0
      case Skips => 8
      case Reports => 8
      case Successes => if pc.Reporting? || pc.Dropping? then 0 else 9;
    if Stage(pc) <= last then (if d.Reports? && Stage(pc) < 8 then 2 else 1)
    else if pc.DialReport? then if d.Refusals? then 1 else if d.Errors? || d.Reports? then 2 else 0
    else if pc.TripReport? then if d.Errors? || d.Reports? then 1 else 0
    else if pc.Skipping? || pc.GivingUp? then if d.Skips? || d.Reports? then 1 else 0
    else 0
  }

  predicate Pays(d: Deed, s: State, a: Action, t: State) {
    t.canceled && t.failures <= s.failures && Cost(d, a) + Left(d, t.pc) <= Left(d, s.pc)
  }

  /** What is reported of a failed transfer is not a failed connect. */
  predicate TransferCauses(pc: Pc) {
    pc.Reporting? || pc.Dropping? ==> !pc.cause.ConnectCause?
  }

  lemma CanceledStep(d: Deed, b: Batch, s: State, a: Action, t: State)
    requires Inv(b, s) && s.canceled && TransferCauses(s.pc) && Step(b, s, a) == Some(t)
    ensures Pays(d, s, a, t)
  {
    hide Step, StepInFile, StepDial, StepTransfer, StepAtEnd, TallyInv, Cost, Left, Pays;
    if a.Cancel? {
      CancelIsFree(d, s);
      CancelOnly(b, s, t);
    } else {
      StepKinds(b, s, a, t);
      if AtEnd(s.pc) {
        CanceledAtEnd(d, b, s, a, t);
      } else if !InAttempt(s.pc) {
        CanceledOutside(d, b, s, a, t);
      } else if s.pc.AttemptPoll? || s.pc.Napping? {
        CanceledLooking(d, b, s, a, t);
      } else if Online(s.pc) {
        CanceledTransfer(d, b, s, a, t);
      } else {
        CanceledDial(d, b, s, a, t);
      }
    }
  }

  lemma CancelIsFree(d: Deed, s: State)
    ensures Pays(d, s, Cancel, s.(canceled := true))
  {
    hide Left;
  }

  lemma CanceledLooking(d: Deed, b: Batch, s: State, a: Action, t: State)
    requires s.canceled && s.i < |b.files| && StepInFile(b, s, b.files[s.i], a) == Some(t) && !a.Cancel?
    requires s.permanent.None? && (s.pc.AttemptPoll? || s.pc.Napping?)
    ensures Pays(d, s, a, t)
  {
    hide EndFile, EnterAttempt, Left;
    EndFileCost(d, b, s, false);
    EnterAttemptCost(d, b, s.(attempt := s.attempt + 1));
  }

  lemma CanceledOutside(d: Deed, b: Batch, s: State, a: Action, t: State)
    requires s.canceled && s.i < |b.files| && StepInFile(b, s, b.files[s.i], a) == Some(t)
    requires !InAttempt(s.pc) && !AtEnd(s.pc)
    ensures Pays(d, s, a, t)
  {
    hide EndFile, EnterAttempt, StepDial, StepTransfer, StepAtEnd, Stage;
    StageOutside(s.pc);
    StageOutside(t.pc);
  }

  lemma CanceledAtEnd(d: Deed, b: Batch, s: State, a: Action, t: State)
    requires s.canceled && AtEnd(s.pc) && StepAtEnd(b, s, a) == Some(t)
    ensures Pays(d, s, a, t)
  {
    hide Stage;
    StageOutside(s.pc);
    StageOutside(t.pc);
  }

  lemma StageOutside(pc: Pc)
    requires !InAttempt(pc)
    ensures Stage(pc) == 10
  {
  }

  lemma EndFileCost(d: Deed, b: Batch, s: State, ok: bool)
    ensures var t := EndFile(b, s, ok);
            t.canceled == s.canceled && t.failures == s.failures
            && Left(d, t.pc) == if t.pc.GivingUp? && (d.Skips? || d.Reports?) then 1 else 0
    ensures s.permanent.None? ==> !EndFile(b, s, ok).pc.GivingUp?
  {
  }

  lemma EnterAttemptCost(d: Deed, b: Batch, s: State)
    requires s.permanent.None?
    ensures var t := EnterAttempt(b, s);
            t.canceled == s.canceled && t.failures == s.failures && Left(d, t.pc) == 0
  {
    EndFileCost(d, b, s, false);
  }

  lemma RetryCost(d: Deed, b: Batch, s: State)
    requires s.permanent.None?
    ensures var t := Retry(b, s);
            t.canceled == s.canceled && t.failures == s.failures && Left(d, t.pc) == 0
  {
    EndFileCost(d, b, s.(attempt := s.attempt + 1), false);
  }

  lemma CanceledDial(d: Deed, b: Batch, s: State, a: Action, t: State)
    requires s.i < |b.files| && s.canceled && s.permanent.None? && 0 <= s.failures && !a.Cancel?
    requires StepDial(b, s, b.files[s.i], a) == Some(t)
    ensures Pays(d, s, a, t)
  {
    hide EndFile, Retry;
    EndFileCost(d, b, s, false);
    RetryCost(d, b, s);
  }

  lemma CanceledTransfer(d: Deed, b: Batch, s: State, a: Action, t: State)
    requires s.i < |b.files| && s.canceled && s.permanent.None? && s.connected && !a.Cancel? && TransferCauses(s.pc)
    requires StepTransfer(b, s, b.files[s.i], a) == Some(t)
    ensures Pays(d, s, a, t)
  {
    hide EndFile, Retry;
    var u := s.(connected := false);
    if s.pc.Dropping? {
      EndFileCost(d, b, u.(permanent := Some(s.pc.cause)), false);
      RetryCost(d, b, u);
    } else {
      hide Dropped;
      EndFileCost(d, b, s, true);
    }
  }

  lemma {:induction false} CanceledRun(d: Deed, b: Batch, s: State, post: seq<Action>, t: State)
    requires Inv(b, s) && s.canceled && TransferCauses(s.pc) && Run(b, s, post) == Some(t)
    ensures Inv(b, t) && t.canceled && t.failures <= s.failures && TransferCauses(t.pc)
    ensures Total(d, post) + Left(d, t.pc) <= Left(d, s.pc)
  {
    hide Inv, Step, Left, Cost, TransferCauses;
    if post != [] {
      var m := |post| - 1;
      var u := Run(b, s, post[..m]).value;
      CanceledRun(d, b, s, post[..m], u);
      InvStep(b, u, post[m], t);
      CausesStep(b, u, post[m], t);
      CanceledStep(d, b, u, post[m], t);
    }
  }

  lemma CausesStep(b: Batch, s: State, a: Action, t: State)
    requires Inv(b, s) && TransferCauses(s.pc) && Step(b, s, a) == Some(t)
    ensures TransferCauses(t.pc)
  {
    hide Step, StepInFile, StepDial, StepTransfer, StepAtEnd, BreakerInv, TallyInv, TransferCauses;
    if a.Cancel? {
      CancelOnly(b, s, t);
    } else {
      StepKinds(b, s, a, t);
      if AtEnd(s.pc) {
        CausesAtEnd(b, s, a, t);
      } else if InDial(s.pc) {
        CausesDial(b, s, a, t);
      } else if Online(s.pc) {
        CausesTransfer(b, s, a, t);
      } else {
        CausesBetween(b, s, a, t);
      }
    }
  }

  lemma CausesAtEnd(b: Batch, s: State, a: Action, t: State)
    requires AtEnd(s.pc) && StepAtEnd(b, s, a) == Some(t)
    ensures TransferCauses(t.pc)
  {
  }

  lemma CausesDial(b: Batch, s: State, a: Action, t: State)
    requires s.i < |b.files| && InDial(s.pc) && StepDial(b, s, b.files[s.i], a) == Some(t)
    ensures TransferCauses(t.pc)
  {
    hide EndFile, Retry;
    EndFileFrame(b, s, false);
    RetryFrame(b, s);
  }

  lemma CausesTransfer(b: Batch, s: State, a: Action, t: State)
    requires s.i < |b.files| && TransferCauses(s.pc) && StepTransfer(b, s, b.files[s.i], a) == Some(t)
    ensures TransferCauses(t.pc)
  {
    hide EndFile, Dropped;
    if s.pc.Reporting? || s.pc.Dropping? {
      DroppedFrame(b, s, s.pc.cause);
    }
    EndFileFrame(b, s, true);
  }

  lemma CausesBetween(b: Batch, s: State, a: Action, t: State)
    requires s.i < |b.files| && StepInFile(b, s, b.files[s.i], a) == Some(t)
    requires !AtEnd(s.pc) && !InDial(s.pc) && !Online(s.pc)
    ensures TransferCauses(t.pc)
  {
    hide EndFile, EnterAttempt, StepTransfer, StepDial, StepAtEnd;
    EndFileFrame(b, s, false);
    EnterAttemptFrame(b, s.(attempt := 1));
    EnterAttemptFrame(b, s.(attempt := s.attempt + 1));
  }

  lemma {:induction false} CausesHold(b: Batch, log: seq<Action>, s: State)
    requires Reaches(b, log, s)
    ensures Inv(b, s) && TransferCauses(s.pc)
  {
    hide Inv, Step, Init, TransferCauses;
    if log == [] {
      InvInit(b);
      CausesInit(b);
    } else {
      var m := |log| - 1;
      var t := Run(b, Init(b), log[..m]).value;
      CausesHold(b, log[..m], t);
      InvStep(b, t, log[m], s);
      CausesStep(b, t, log[m], s);
    }
  }

  lemma CausesInit(b: Batch)
    ensures TransferCauses(Init(b).pc)
  {
  }

  /** Cancellation at any point of any run: what follows starts at most one more attempt, makes
      at most one more connect, delete, upload and verify, reports at most one more success, sends
      at most one event that skips files and at most two reports of failure of any kind.  No failed
      connect is counted any more; and none is reported, but for the one that the worker had found
      to be genuine, and was about to report, when the cancellation came.  A worker that has returned
      accounts for every file. */
  lemma AfterCancellation(b: Batch, pre: seq<Action>, post: seq<Action>, s: State, t: State)
    requires Reaches(b, pre + [Cancel], s) && Reaches(b, pre + [Cancel] + post, t)
    ensures forall d :: Total(d, post) <= if d.Errors? || d.Reports? then 2 else 1
    ensures Total(Refusals, post) <= if s.pc.DialReport? then 1 else 0
    ensures t.failures <= s.failures
    ensures t.pc.Halted? ==> t.succeeded + t.failed == |b.files|
  {
    hide Run, Step, Init, Cost, PlaceInv, BreakerInv, Total, Stage, Left;
    CausesHold(b, pre + [Cancel], s);
    RunOne(b, Init(b), pre, Cancel);
    assert s.canceled by { CancelSets(b, Run(b, Init(b), pre).value, s); }
    RunSplit(b, Init(b), pre + [Cancel], post);
    forall d: Deed ensures Total(d, post) <= if d.Errors? || d.Reports? then 2 else 1 {
      CanceledRun(d, b, s, post, t);
      LeftIsLittle(d, s.pc);
    }
    CanceledRun(Refusals, b, s, post, t);
    LeftIsLittle(Refusals, s.pc);
    InvHolds(b, pre + [Cancel] + post, t);
  }

  lemma LeftIsLittle(d: Deed, pc: Pc)
    ensures Left(d, pc) <= if d.Errors? || d.Reports? then 2 else 1
    ensures d.Refusals? ==> Left(d, pc) <= if pc.DialReport? then 1 else 0
  {
  }

  lemma CancelSets(b: Batch, s: State, t: State)
    requires Step(b, s, Cancel) == Some(t)
    ensures t.canceled
  {
  }

  // ---------------------------------------------------------------- permanent errors

  /** A delete, upload or verify call that failed for lack of permission. */
  predicate FailsPermanently(a: Action) {
    || (a.Delete? && a.failure.Some? && a.failure.value.permission)
    || (a.UploadEnd? && a.failure.Some? && a.failure.value.permission)
    || (a.Verify? && a.outcome.Err? && a.outcome.error.permission)
  }

  /** The worker has hit a permanent error and is giving up. */
  predicate Doomed(s: State) {
    || s.permanent.Some?
    || ((s.pc.Reporting? || s.pc.Dropping?) && Permanent(s.pc.cause))
  }

  predicate Hangup(s: State) {
    s.pc.Reporting? || s.pc.Dropping?
  }

  predicate DoomedNext(s: State, a: Action, t: State) {
    && Doomed(t) && !(a.Send? && a.event.FileSuccess?) && t.succeeded == s.succeeded
    && if Hangup(s) && !Hangup(t) then a.Disconnect? else !IsCall(a) && Hangup(s) == Hangup(t)
  }

  lemma PermanentStep(b: Batch, s: State, a: Action, t: State)
    requires Inv(b, s) && Step(b, s, a) == Some(t)
    ensures FailsPermanently(a) ==> Doomed(t) && Hangup(t)
    ensures Doomed(s) ==> DoomedNext(s, a, t)
  {
    hide EndFile, EnterAttempt, Retry, TallyInv, BreakerInv;
    if s.pc.Dropping? {
      var u := s.(connected := false, permanent := Some(s.pc.cause));
      assert EndFile(b, u, false).permanent == u.permanent by { EndFileFrame(b, u, false); }
      assert EndFile(b, u, false).succeeded == s.succeeded && !Hangup(EndFile(b, u, false)) by {
        FailedFileTally(b, u);
      }
    }
  }

  lemma FailedFileTally(b: Batch, s: State)
    ensures EndFile(b, s, false).succeeded == s.succeeded && !Hangup(EndFile(b, s, false))
  {
  }

  lemma {:induction false} DoomedRun(b: Batch, s: State, post: seq<Action>, t: State)
    requires Inv(b, s) && Doomed(s) && Run(b, s, post) == Some(t)
    ensures Inv(b, t) && Doomed(t) && t.succeeded == s.succeeded
    ensures forall k :: 0 <= k < |post| && IsCall(post[k]) ==> post[k].Disconnect?
    ensures Count(IsCall, post) + (if Hangup(t) then 1 else 0) == if Hangup(s) then 1 else 0
  {
    hide Inv, Step, Doomed;
    if post != [] {
      var m := |post| - 1;
      var u := Run(b, s, post[..m]).value;
      DoomedRun(b, s, post[..m], u);
      InvStep(b, u, post[m], t);
      PermanentStep(b, u, post[m], t);
    }
  }

  /** After a delete, upload or verify call fails for lack of permission, the only call the
      worker makes is one Disconnect; no further file succeeds and every other file fails. */
  lemma AfterPermanentError(b: Batch, pre: seq<Action>, a: Action, post: seq<Action>, s: State, t: State)
    requires FailsPermanently(a) && Reaches(b, pre, s) && Reaches(b, pre + [a] + post, t)
    ensures forall k :: 0 <= k < |post| && IsCall(post[k]) ==> post[k].Disconnect?
    ensures Count(IsCall, post) <= 1
    ensures t.pc.Halted? ==> Count(IsCall, post) == 1
    ensures t.succeeded == s.succeeded
    ensures t.pc.Halted? ==> t.failed == |b.files| - s.succeeded
  {
    hide Run, Step, Init, FailsPermanently, PlaceInv, BreakerInv, Doomed;
    InvHolds(b, pre, s);
    RunOne(b, Init(b), pre, a);
    RunSplit(b, Init(b), pre + [a], post);
    var u := Step(b, s, a).value;
    InvStep(b, s, a, u);
    PermanentStep(b, s, a, u);
    assert u.succeeded == s.succeeded by { FailureKeepsTally(b, s, a, u); }
    DoomedRun(b, u, post, t);
  }

  lemma FailureKeepsTally(b: Batch, s: State, a: Action, t: State)
    requires FailsPermanently(a) && Step(b, s, a) == Some(t)
    ensures t.succeeded == s.succeeded
  {
  }
}
