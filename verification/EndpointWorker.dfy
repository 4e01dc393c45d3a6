/** The worker as dispatch.go writes it: an object whose fields the methods update, a loop over
    files and inside it a loop over attempts.  Every method is proved against the step machine:
    the log it leaves is a run of Worker.Step, and its fields are those of the machine's state. */
module EndpointWorkers {
  import opened Types
  import opened Paths
  import opened Worker
  import opened WorkerSafety
  import opened WorkerGrammar
  import opened WorkerLength
  import WorkerParse

  /** What the outside world does at one interaction: whether the context is canceled just
      before it, and what a call answers. */
  datatype Answer = Answer(cancels: bool, failure: Option<Error>, verifyMethod: string, ticks: seq<Callback>)

  datatype ConnectResult = ConnectOK | ConnectFailed | ConnectCanceled

  /** What a pass of the attempt loop does next: leave the file, go on to the next attempt, or
      carry on with this one. */
  datatype Pass = Return(ok: bool) | Continue | Proceed

  lemma DialSteps(b: Batch, s: State, e: Error)
    requires s.pc.Dialing? && s.i < |b.files|
    ensures Step(b, s, Connect(None)) == Some(s.(pc := Starting, failures := 0, connected := true))
    ensures Step(b, s, Connect(Some(e))) == Some(s.(pc := DialPoll(e)))
  {
  }

  lemma DialPolls(b: Batch, s: State, e: Error)
    requires s.pc == DialPoll(e) && s.i < |b.files|
    ensures Step(b, s.(canceled := true), Poll(true)) == Some(EndFile(b, s.(canceled := true), false))
    ensures !s.canceled ==> Step(b, s, Poll(false)) == Some(s.(pc := DialReport(e), failures := s.failures + 1))
  {
    hide EndFile;
  }

  class EndpointWorker {
    const batch: Batch
    /** The outside world, by the number of interactions so far. */
    const world: nat -> Answer

    var connected: bool
    var consecutiveConnectFailures: int
    var permanentErr: Option<Cause>
    var ctxDone: bool
    /** Everything sent on the events channel. */
    var events: seq<Event>
    var clock: nat

    ghost var log: seq<Action>
    ghost var at: State

    /** The log is a run of the machine, and the fields agree with where it stands. */
    ghost predicate Valid()
      reads this
    {
      && Traced()
      && at.connected == connected
      && at.failures == consecutiveConnectFailures
      && at.permanent == permanentErr
    }

    ghost predicate Traced()
      reads this
    {
      Reaches(batch, log, at) && Inv(batch, at) && at.canceled == ctxDone && events == Events(log)
    }

    constructor (batch: Batch, world: nat -> Answer)
      ensures this.batch == batch && this.world == world
      ensures Valid() && at == Init(batch) && events == []
    {
      this.batch, this.world := batch, world;
      connected, consecutiveConnectFailures, permanentErr, ctxDone := false, 0, None, false;
      events, clock := [], 0;
      log, at := [], Init(batch);
      new;
      InvInit(batch);
    }

    // -------------------------------------------------------------- interactions

    ghost method Record(a: Action, next: State)
      requires Traced() && Step(batch, at, a) == Some(next) && !a.Send? && !a.Cancel?
      requires next.canceled == at.canceled
      modifies this`log, this`at
      ensures Traced() && at == next && log == old(log) + [a]
    {
      hide Step, Inv, Run, Init, Events;
      RunOne(batch, Init(batch), log, a);
      EventsOne(log, a);
      InvStep(batch, at, a, next);
      log, at := log + [a], next;
    }

    /** Takes the next answer of the outside world; the context may be canceled first. */
    method Ask() returns (answer: Answer)
      requires Traced()
      modifies this`ctxDone, this`clock, this`log, this`at
      ensures Traced() && at == old(at).(canceled := ctxDone) && (old(ctxDone) ==> ctxDone)
      ensures answer == world(old(clock)) && (log == old(log) || log == old(log) + [Cancel])
    {
      answer := world(clock);
      clock := clock + 1;
      if answer.cancels {
        ctxDone := true;
        RunOne(batch, Init(batch), log, Cancel);
        EventsOne(log, Cancel);
        InvStep(batch, at, Cancel, at.(canceled := true));
        log, at := log + [Cancel], at.(canceled := true);
      }
    }

    /** ctx.Err() != nil */
    method CtxErr(ghost stop: State, ghost go: State) returns (canceled: bool)
      requires Traced() && stop.canceled && !go.canceled
      requires Step(batch, at.(canceled := true), Poll(true)) == Some(stop)
      requires !at.canceled ==> Step(batch, at, Poll(false)) == Some(go)
      modifies this`ctxDone, this`clock, this`log, this`at
      ensures Traced() && at == (if canceled then stop else go)
      ensures canceled == ctxDone && (old(ctxDone) ==> ctxDone)
    {
      hide Step, Inv, Run, Init, Events;
      var _ := Ask();
      canceled := ctxDone;
      Record(Poll(canceled), if canceled then stop else go);
    }

    /** events <- e */
    method Send(e: Event, ghost next: State)
      requires Traced() && Step(batch, at, Action.Send(e)) == Some(next) && next.canceled == at.canceled
      modifies this`events, this`log, this`at
      ensures Traced() && at == next && events == old(events) + [e]
    {
      hide Step, Inv, Run, Init, Events;
      RunOne(batch, Init(batch), log, Action.Send(e));
      EventsOne(log, Action.Send(e));
      InvStep(batch, at, Action.Send(e), next);
      events := events + [e];
      log, at := log + [Action.Send(e)], next;
    }

    predicate CircuitOpen()
      reads this
    {
      consecutiveConnectFailures >= batch.ep.policy.maxConnectFailures
    }

    // -------------------------------------------------------------- dispatch.go's methods

    /** dispatch.go:283-288, after a failed transfer or deferred to the end of run. */
    method Disconnect()
      requires Traced() && at.connected == connected && at.failures == consecutiveConnectFailures
      requires (at.pc.Dropping? && at.i < |batch.files|) || at.pc.Closing? || at.pc.Halted?
      modifies this`connected, this`log, this`at
      ensures Traced() && !connected && at.connected == connected && at.failures == consecutiveConnectFailures
      ensures at == match old(at).pc
        case Dropping(cause) => Dropped(batch, old(at), cause)
        case _ => old(at).(pc := Halted, connected := false)
    {
      hide EndFile, Retry;
      if connected {
        ghost var s := at;
        ghost var next := match s.pc
          case Dropping(cause) => Dropped(batch, s, cause)
          case _ => s.(pc := Halted, connected := false);
        if s.pc.Dropping? { DroppedFrame(batch, s, s.pc.cause); }
        Record(Action.Disconnect, next);
        connected := false;
      }
    }

    /** dispatch.go:292-296 */
    method SleepBeforeRetry(attempt: int, ghost base: State)
      requires Valid() && base.i < |batch.files| && base.attempt == attempt && base.canceled == ctxDone
      requires at == Retry(batch, base)
      modifies this`ctxDone, this`clock, this`log, this`at
      ensures Valid() && at == EnterAttempt(batch, base.(attempt := attempt + 1, canceled := ctxDone))
      ensures old(ctxDone) ==> ctxDone
      ensures if attempt < batch.ep.policy.attempts
              then log == old(log) + [Sleep] || log == old(log) + [Cancel] + [Sleep]
              else log == old(log)
    {
      hide EndFile, Inv, Run, Init, Events, StepTransfer, StepDial;
      EnterAttemptFrame(batch, base.(attempt := attempt + 1));
      if attempt < batch.ep.policy.attempts {
        var _ := Ask();
        Record(Sleep, EnterAttempt(batch, at.(attempt := attempt + 1)));
      }
    }

    /** dispatch.go:228-233: a refused connect has just been counted. */
    method ReportRefusal(file: string, attempt: int, err: Error)
      requires Valid() && at.pc == DialReport(err) && at.i < |batch.files|
      requires file == batch.files[at.i] && attempt == at.attempt
      modifies this`events, this`log, this`at
      ensures Valid()
      ensures if CircuitOpen() then at == old(at).(pc := TripReport(err))
              else at == Retry(batch, old(at).(pc := Dialing))
    {
      hide EndFile, Retry, Inv, Run, Init, Events, StepTransfer;
      RetryFrame(batch, at);
      ForgetsPc(batch, at, Dialing, false);
      Send(FileError(batch.ep.name, file, attempt, ConnectCause(err)),
           if CircuitOpen() then at.(pc := TripReport(err)) else Retry(batch, at));
    }

    /** dispatch.go:220-238 */
    method Connect(file: string, attempt: int) returns (r: ConnectResult)
      requires Valid() && at.pc.Dialing? && at.i < |batch.files|
      requires file == batch.files[at.i] && attempt == at.attempt
      modifies this
      ensures Valid() && (old(ctxDone) ==> ctxDone)
      ensures r.ConnectOK? ==>
        at == old(at).(pc := Starting, failures := 0, connected := true, canceled := ctxDone)
      ensures r.ConnectCanceled? ==> at == EndFile(batch, old(at).(canceled := ctxDone), false)
      ensures r.ConnectFailed? ==>
        var s := old(at).(failures := old(at).failures + 1, canceled := ctxDone);
        if CircuitOpen() then at.pc.TripReport? && at == s.(pc := at.pc) else at == Retry(batch, s)
    {
      hide EndFile, Retry, Inv, Run, Init, Events, Step;
      var answer := Ask();
      ghost var s := at;
      if answer.failure.Some? {
        var err := answer.failure.value;
        DialSteps(batch, s, err);
        Record(Action.Connect(answer.failure), s.(pc := DialPoll(err)));
        DialPolls(batch, at, err);
        ForgetsPc(batch, s.(canceled := true), DialPoll(err), false);
        EndFileFrame(batch, s.(canceled := true), false);
        var canceled := CtxErr(EndFile(batch, at.(canceled := true), false),
                               s.(pc := DialReport(err), failures := s.failures + 1, canceled := false));
        if canceled {
          return ConnectCanceled;
        }
        consecutiveConnectFailures := consecutiveConnectFailures + 1;
        ReportRefusal(file, attempt, err);
        return ConnectFailed;
      }
      DialSteps(batch, s, Error("", false));
      Record(Action.Connect(None), s.(pc := Starting, failures := 0, connected := true));
      consecutiveConnectFailures := 0;
      connected := true;
      return ConnectOK;
    }

    /** dispatch.go:243-251 */
    method ReportGivingUp(file: string, attempt: int)
      requires Valid() && at.pc.TripReport? && at.i < |batch.files|
      requires file == batch.files[at.i] && attempt == at.attempt
      modifies this`events, this`log, this`at
      ensures Valid() && at == EndFile(batch, old(at), false)
    {
      hide EndFile, Retry, Inv, Run, Init, Events, StepTransfer;
      EndFileFrame(batch, at, false);
      Send(FileError(batch.ep.name, file, attempt, BreakerCause(consecutiveConnectFailures)),
           EndFile(batch, at, false));
    }

    /** The callback handed to Upload (dispatch.go:263-267), once per progress tick. */
    method ReportProgress(file: string, ticks: seq<Callback>)
      requires Valid() && at.pc.Uploading? && at.i < |batch.files| && file == batch.files[at.i]
      modifies this`events, this`log, this`at
      ensures Valid() && at == old(at)
      ensures events == old(events) + seq(|ticks|, k requires 0 <= k < |ticks| =>
        Progress(batch.ep.name, file, ticks[k].sent, ticks[k].total))
    {
      hide Inv, Run, Init, Events, StepDial, EndFile, Dropped;
      var k := 0;
      while k < |ticks|
        invariant 0 <= k <= |ticks|
        invariant Valid() && at == old(at)
        invariant events == old(events) + seq(k, j requires 0 <= j < k =>
          Progress(batch.ep.name, file, ticks[j].sent, ticks[j].total))
      {
        Send(Progress(batch.ep.name, file, ticks[k].sent, ticks[k].total), at);
        k := k + 1;
      }
    }

    // The uploader's transfer calls, as the outside world answers them.

    method CallDelete(remoteName: string) returns (err: Option<Error>)
      requires Valid() && at.i < |batch.files| && at.pc.Deleting? && remoteName == Base(batch.files[at.i])
      modifies this`ctxDone, this`clock, this`log, this`at
      ensures Valid() && (old(ctxDone) ==> ctxDone)
      ensures at == old(at).(canceled := ctxDone,
                             pc := if err.Some? then Reporting(DeleteCause(err.value)) else UploadReady)
    {
      hide Inv, Run, Init, Events, StepDial, EndFile, Dropped, Base;
      var answer := Ask();
      err := answer.failure;
      Record(Delete(remoteName, err), at.(pc := if err.Some? then Reporting(DeleteCause(err.value)) else UploadReady));
    }

    method CallUpload(file: string, remoteName: string) returns (err: Option<Error>)
      requires Valid() && at.i < |batch.files| && at.pc.UploadReady?
      requires file == batch.files[at.i] && remoteName == Base(file)
      modifies this`ctxDone, this`clock, this`events, this`log, this`at
      ensures Valid() && (old(ctxDone) ==> ctxDone)
      ensures at == if err.Some? then old(at).(canceled := ctxDone, pc := Reporting(UploadCause(err.value)))
                    else AfterUpload(batch, old(at).(canceled := ctxDone))
    {
      hide Inv, Run, Init, Events, StepDial, EndFile, Dropped, Base;
      var answer := Ask();
      err := answer.failure;
      ghost var s := at;
      Record(UploadBegin(file, remoteName), s.(pc := Uploading));
      ReportProgress(file, answer.ticks);
      Record(UploadEnd(err), if err.Some? then s.(pc := Reporting(UploadCause(err.value))) else AfterUpload(batch, s));
    }

    method CallVerify(file: string, remoteName: string) returns (outcome: Result<string, Error>)
      requires Valid() && at.i < |batch.files| && at.pc.Verifying?
      requires file == batch.files[at.i] && remoteName == Base(file)
      modifies this`ctxDone, this`clock, this`log, this`at
      ensures Valid() && (old(ctxDone) ==> ctxDone)
      ensures at == old(at).(canceled := ctxDone, pc := match outcome
                case Ok(verifyMethod) => Succeeding(verifyMethod)
                case Err(err) => Reporting(VerifyCause(err)))
    {
      hide Inv, Run, Init, Events, StepDial, EndFile, Dropped, Base;
      var answer := Ask();
      outcome := if answer.failure.Some? then Err(answer.failure.value) else Ok(answer.verifyMethod);
      Record(Verify(file, remoteName, outcome), at.(pc := match outcome
        case Ok(verifyMethod) => Succeeding(verifyMethod)
        case Err(err) => Reporting(VerifyCause(err))));
    }

    /** dispatch.go:256-279 */
    method Transfer(file: string, remoteName: string) returns (r: Result<string, Cause>)
      requires Valid() && at.i < |batch.files| && file == batch.files[at.i] && remoteName == Base(file)
      requires at == AfterStart(batch, at)
      modifies this`ctxDone, this`clock, this`events, this`log, this`at
      ensures Valid() && (old(ctxDone) ==> ctxDone)
      ensures at == old(at).(canceled := ctxDone, pc := match r
                case Ok(verifyMethod) => Succeeding(verifyMethod)
                case Err(cause) => Reporting(cause))
    {
      hide Valid, Base;
      if batch.ep.overwrite == DeleteFirst {
        var err := CallDelete(remoteName);
        if err.Some? {
          return Err(DeleteCause(err.value));
        }
      }
      var err := CallUpload(file, remoteName);
      if err.Some? {
        return Err(UploadCause(err.value));
      }
      if batch.noVerify {
        return Ok("");
      }
      var outcome := CallVerify(file, remoteName);
      match outcome
      case Err(verifyErr) => return Err(VerifyCause(verifyErr));
      case Ok(verifyMethod) => return Ok(verifyMethod);
    }

    /** What one pass of the attempt loop leads to. */
    ghost predicate Led(step: Pass, cur: State, next: State)
      reads this
    {
      && Valid()
      && next == cur.(connected := connected, failures := consecutiveConnectFailures,
                      permanent := permanentErr, canceled := ctxDone)
      && match step
         case Return(ok) => at == EndFile(batch, next, ok)
         case Continue =>
           permanentErr.None? && at == EnterAttempt(batch, next.(attempt := next.attempt + 1))
         case Proceed => permanentErr.None? && connected && at == next.(pc := Starting)
    }

    /** dispatch.go:159-171: connect if need be. */
    method Dial(file: string, attempt: int, ghost cur: State) returns (step: Pass, ghost next: State)
      requires Valid() && permanentErr.None? && cur.i < |batch.files| && file == batch.files[cur.i]
      requires cur == at.(pc := cur.pc) && cur.attempt == attempt && cur.canceled == ctxDone
      requires at.pc == if connected then Starting else Dialing
      modifies this
      ensures Led(step, cur, next) && (old(ctxDone) ==> ctxDone) && step != Return(true)
    {
      hide Inv, Run, Init, Events, EndFile, StepDial, StepTransfer, Retry;
      next := cur;
      if !connected {
        ghost var before := at;
        var r := Connect(file, attempt);
        ghost var e := before.(canceled := ctxDone);
        EndFileFrame(batch, e, false);
        RetryFrame(batch, e.(failures := e.failures + 1));
        next := cur.(connected := connected, failures := consecutiveConnectFailures, canceled := ctxDone);
        ForgetsPc(batch, next, Dialing, false);
        if r.ConnectCanceled? {
          return Return(false), next;
        }
        if r.ConnectFailed? {
          if CircuitOpen() {
            ForgetsPc(batch, next, at.pc, false);
            EndFileFrame(batch, next, false);
            ReportGivingUp(file, attempt);
            return Return(false), next;
          }
          SleepBeforeRetry(attempt, next);
          EnterAttemptFrame(batch, next.(attempt := attempt + 1, canceled := ctxDone));
          next := next.(canceled := ctxDone);
          return Continue, next;
        }
      }
      step := Proceed;
    }

    /** dispatch.go:176-187: report a failed transfer and drop its connection. */
    method AfterFailure(file: string, attempt: int, cause: Cause, ghost cur: State)
      returns (step: Pass, ghost next: State)
      requires Valid() && permanentErr.None? && cur.i < |batch.files| && file == batch.files[cur.i]
      requires at == cur.(pc := Reporting(cause)) && cur.attempt == attempt && cur.canceled == ctxDone && connected
      modifies this
      ensures Led(step, cur, next) && (old(ctxDone) ==> ctxDone) && !step.Proceed? && step != Return(true)
    {
      hide Inv, Run, Init, Events, EndFile, StepDial, Retry, Base;
      Send(FileError(batch.ep.name, file, attempt, cause), at.(pc := Dropping(cause)));
      hide Step;
      Disconnect();
      next := cur.(connected := false);
      if Permanent(cause) {
        permanentErr := Some(cause);
        next := next.(permanent := permanentErr);
        ForgetsPc(batch, next, Dropping(cause), false);
        EndFileFrame(batch, next, false);
        return Return(false), next;
      }
      ForgetsPc(batch, next, Dropping(cause), false);
      RetryFrame(batch, next);
      SleepBeforeRetry(attempt, next);
      EnterAttemptFrame(batch, next.(attempt := attempt + 1, canceled := ctxDone));
      next := next.(canceled := ctxDone);
      step := Continue;
    }

    /** dispatch.go:173-192: the attempt itself, on the open connection. */
    method TryTransfer(file: string, remoteName: string, attempt: int, ghost cur: State)
      returns (step: Pass, ghost next: State)
      requires Valid() && permanentErr.None? && cur.i < |batch.files|
      requires file == batch.files[cur.i] && remoteName == Base(file)
      requires at == cur.(pc := Starting) && cur.attempt == attempt && cur.canceled == ctxDone && connected
      modifies this
      ensures Led(step, cur, next) && (old(ctxDone) ==> ctxDone) && !step.Proceed?
    {
      hide Inv, Run, Init, Events, EndFile, StepDial, Retry, Base;
      Send(FileStart(batch.ep.name, file, attempt), AfterStart(batch, at));
      var r := Transfer(file, remoteName);
      next := cur.(canceled := ctxDone);
      if r.Err? {
        step, next := AfterFailure(file, attempt, r.error, next);
        return;
      }
      ForgetsPc(batch, next, at.pc, true);
      EndFileFrame(batch, next, true);
      Send(FileSuccess(batch.ep.name, file, r.value), EndFile(batch, next, true));
      return Return(true), next;
    }

    /** dispatch.go:152-195.  `s` is the machine's state with the first attempt not yet entered;
        `end` is its state when the file is left. */
    method UploadFile(file: string, ghost s: State) returns (ok: bool, ghost end: State)
      requires Valid() && s.i < |batch.files| && file == batch.files[s.i]
      requires s.attempt == 1 && at == EnterAttempt(batch, s) && s.canceled == ctxDone && s.permanent.None?
      modifies this
      ensures Valid() && at == EndFile(batch, end, ok) && (old(ctxDone) ==> ctxDone)
      ensures end.i == s.i && end.succeeded == s.succeeded && end.failed == s.failed
      ensures end.permanent == permanentErr && end.canceled == ctxDone
    {
      hide Inv, Run, Init, Events, Base, EndFile, StepDial, StepTransfer, Retry;
      var remoteName := Base(file);
      var attempt := 1;
      ghost var cur := s;
      EnterAttemptFrame(batch, s);
      while attempt <= batch.ep.policy.attempts
        invariant 1 <= attempt
        invariant Valid() && at == EnterAttempt(batch, cur) && permanentErr == None && (old(ctxDone) ==> ctxDone)
        invariant cur == s.(attempt := attempt, connected := connected, failures := consecutiveConnectFailures,
                            canceled := ctxDone)
        decreases batch.ep.policy.attempts - attempt
      {
        ForgetsPc(batch, cur.(canceled := true), AttemptPoll, false);
        EndFileFrame(batch, cur.(canceled := true), false);
        var canceled := CtxErr(EndFile(batch, cur.(canceled := true), false),
                               cur.(pc := if connected then Starting else Dialing, canceled := false));
        cur := cur.(canceled := ctxDone);
        if canceled {
          return false, cur;
        }
        var step;
        step, cur := Dial(file, attempt, cur);
        if step.Proceed? {
          step, cur := TryTransfer(file, remoteName, attempt, cur);
        }
        if step.Return? {
          return step.ok, cur;
        }
        attempt := attempt + 1;
        cur := cur.(attempt := attempt);
      }
      ok := false;
      end := cur;
    }

    /** dispatch.go:126-136 */
    method SkipRemaining(files: seq<string>) returns (skipped: int)
      requires Valid() && at.pc.Skipping? && at.i < |batch.files| && files == batch.files[at.i..]
      modifies this`events, this`log, this`at
      ensures Valid() && skipped == |files|
      ensures at == old(at).(pc := Finishing, failed := old(at).failed + |batch.files| - old(at).i)
    {
      hide Inv, Run, Init, Events, StepDial, StepTransfer, EndFile, EnterAttempt;
      Send(Unreachable(batch.ep.name, consecutiveConnectFailures, files),
           at.(pc := Finishing, failed := at.failed + |batch.files| - at.i));
      skipped := |files|;
    }

    /** dispatch.go:138-148 */
    method SkipGivenUp(files: seq<string>) returns (skipped: int)
      requires Valid() && at.pc.GivingUp? && at.i < |batch.files| && permanentErr.Some?
      requires files == batch.files[at.i + 1..]
      modifies this`events, this`log, this`at
      ensures Valid() && skipped == |files|
      ensures at == old(at).(pc := Finishing, failed := old(at).failed + |batch.files| - old(at).i - 1)
    {
      hide Inv, Run, Init, Events, StepDial, StepTransfer, EndFile, EnterAttempt;
      Send(GivenUp(batch.ep.name, permanentErr.value, files),
           at.(pc := Finishing, failed := at.failed + |batch.files| - at.i - 1));
      skipped := |files|;
    }

    /** dispatch.go:114-116, then the deferred disconnect of line 88: the connection is still open
        when Done is sent. */
    method Finish(succeeded: int, failed: int)
      requires Valid() && at.pc.Finishing? && at.succeeded == succeeded && at.failed == failed
      modifies this
      ensures Valid() && at.pc.Halted? && !connected
      ensures events == old(events) + [Done(batch.ep.name, succeeded, failed)]
    {
      hide Inv, Run, Init, Events, EndFile, EnterAttempt, StepDial, StepTransfer;
      Send(Done(batch.ep.name, succeeded, failed), at.(pc := if at.connected then Closing else Halted));
      Disconnect();
    }

    /** run: dispatch.go:87-117.  Nothing is left open, the log it leaves is a complete run of the
        machine, so every theorem about complete runs applies, and its calls and events read as a
        well-formed tree.  The last event counts what the others reported. */
    method RunBatch()
      requires Valid() && at == Init(batch)
      modifies this
      ensures Valid() && at.pc.Halted? && !connected
      ensures Reaches(batch, log, at) && events == Events(log)
      ensures IsReading(batch, ctxDone, Visible(log))
      ensures events != [] &&
              events[|events| - 1] == Done(batch.ep.name, SuccessCount(events), |batch.files| - SuccessCount(events))
    {
      hide Run, Inv, IsReading, Visible, Init, Events, SuccessCount;
      RunFiles();
      WorkerParse.CompleteRunReadsAsTree(batch, log, at);
      DoneAddsUp(batch, log, at);
    }

    method RunFiles()
      requires Valid() && at == Init(batch)
      modifies this
      ensures Valid() && at.pc.Halted? && !connected
    {
      hide Inv, Run, Events, EndFile, EnterAttempt, StepDial, StepTransfer;
      var files := batch.files;
      var succeeded, failed := 0, 0;
      var i := 0;
      while i < |files|
        invariant 0 <= i <= |files| && files == batch.files
        invariant Valid() && permanentErr.None? && at.i == i && at.succeeded == succeeded && at.failed == failed
        invariant at.pc == if i < |files| then FilePoll else Finishing
        decreases |files| - i
      {
        ghost var s := at;
        EnterAttemptFrame(batch, s.(attempt := 1, canceled := false));
        var canceled := CtxErr(s.(pc := Finishing, failed := failed + |files| - i, canceled := true),
          if CircuitOpen() then s.(pc := Skipping, canceled := false)
          else EnterAttempt(batch, s.(attempt := 1, canceled := false)));
        if canceled {
          failed := failed + |files| - i;
          break;
        }
        if CircuitOpen() {
          var skipped := SkipRemaining(files[i..]);
          failed := failed + skipped;
          break;
        }
        var ok, end := UploadFile(files[i], s.(attempt := 1, canceled := false));
        EndFileTally(batch, end, ok);
        if ok {
          succeeded := succeeded + 1;
        } else {
          failed := failed + 1;
        }
        if permanentErr.Some? {
          var rest := files[i + 1..];
          if |rest| > 0 {
            var skipped := SkipGivenUp(rest);
            failed := failed + skipped;
          }
          break;
        }
        i := i + 1;
      }
      Finish(succeeded, failed);
    }
  }
}
