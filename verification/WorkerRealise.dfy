/** The converse of WorkerParse: every well-formed tree is what some run of the worker reads as. */
module WorkerRealise {
  import opened Types
  import opened Paths
  import opened Worker
  import opened WorkerSafety
  import opened WorkerGrammar
  import opened WorkerParse

  // ---------------------------------------------------------------- putting runs together

  /** From `s`, `log` leads to `t` and reads as `text`. */
  predicate Shows(b: Batch, s: State, log: seq<Action>, t: State, text: seq<Action>) {
    Run(b, s, log) == Some(t) && Visible(log) == text
  }

  lemma ShowNothing(b: Batch, s: State)
    ensures Shows(b, s, [], s, [])
  {
  }

  lemma {:induction false} VisiblePlus(xs: seq<Action>, ys: seq<Action>)
    ensures Visible(xs + ys) == Visible(xs) + Visible(ys)
  {
    if ys == [] {
      assert xs + ys == xs;
    } else {
      var m := |ys| - 1;
      assert (xs + ys)[..|xs| + m] == xs + ys[..m];
      VisiblePlus(xs, ys[..m]);
      assert Visible(xs) + (Visible(ys[..m]) + Seen(ys[m])) == Visible(xs) + Visible(ys[..m]) + Seen(ys[m]);
    }
  }

  lemma Then(b: Batch, s: State, xs: seq<Action>, t: State, v: seq<Action>, a: Action, u: State, w: seq<Action>)
    returns (log: seq<Action>)
    requires Shows(b, s, xs, t, v) && Step(b, t, a) == Some(u) && w == v + Seen(a)
    ensures Shows(b, s, log, u, w)
  {
    hide Step, Seen;
    log := xs + [a];
    RunOne(b, s, xs, a);
    assert log[..|xs|] == xs;
  }

  lemma Join(b: Batch, s: State, xs: seq<Action>, t: State, v: seq<Action>, ys: seq<Action>, u: State,
             vs: seq<Action>, w: seq<Action>)
    returns (log: seq<Action>)
    requires Shows(b, s, xs, t, v) && Shows(b, t, ys, u, vs) && w == v + vs
    ensures Shows(b, s, log, u, w)
  {
    hide Run, Visible;
    log := xs + ys;
    RunSplit(b, s, xs, ys);
    VisiblePlus(xs, ys);
  }

  // ---------------------------------------------------------------- one attempt

  lemma {:induction false} ShowTicks(b: Batch, s: State, ticks: seq<Callback>) returns (log: seq<Action>)
    requires s.i < |b.files| && s.pc.Uploading?
    ensures Shows(b, s, log, s, RenderTicks(b, b.files[s.i], ticks))
  {
    hide Shows;
    if ticks == [] {
      log := [];
      ShowNothing(b, s);
    } else {
      var m := |ticks| - 1;
      var a := Send(Progress(b.ep.name, b.files[s.i], ticks[m].sent, ticks[m].total));
      log := ShowTicks(b, s, ticks[..m]);
      log := Then(b, s, log, s, RenderTicks(b, b.files[s.i], ticks[..m]), a, s,
                  RenderTicks(b, b.files[s.i], ticks));
    }
  }

  /** From an announced attempt to a cleared destination. */
  lemma ShowCleared(b: Batch, s: State) returns (log: seq<Action>)
    requires s.i < |b.files| && s.pc.Starting?
    ensures Shows(b, s, log, s.(pc := UploadReady), RenderCleared(b, b.files[s.i], s.attempt, false))
  {
    hide Shows, Base;
    var file := b.files[s.i];
    var start := [Send(FileStart(b.ep.name, file, s.attempt))];
    ShowNothing(b, s);
    log := Then(b, s, [], s, [], start[0], AfterStart(b, s), start);
    if b.ep.overwrite == DeleteFirst {
      log := Then(b, s, log, AfterStart(b, s), start, Delete(Base(file), None), s.(pc := UploadReady),
                  RenderCleared(b, file, s.attempt, false));
    } else {
      assert RenderCleared(b, file, s.attempt, false) == start;
    }
  }

  lemma ShowUploading(b: Batch, s: State, ticks: seq<Callback>) returns (log: seq<Action>)
    requires s.i < |b.files| && s.pc.Starting?
    ensures Shows(b, s, log, s.(pc := Uploading), RenderUploading(b, b.files[s.i], s.attempt, false, ticks))
  {
    hide Shows, Base, RenderCleared, RenderTicks;
    var file := b.files[s.i];
    log := ShowCleared(b, s);
    var cleared := RenderCleared(b, file, s.attempt, false);
    log := Then(b, s, log, s.(pc := UploadReady), cleared, UploadBegin(file, Base(file)), s.(pc := Uploading),
                cleared + [UploadBegin(file, Base(file))]);
    var more := ShowTicks(b, s.(pc := Uploading), ticks);
    log := Join(b, s, log, s.(pc := Uploading), cleared + [UploadBegin(file, Base(file))], more, s.(pc := Uploading),
                RenderTicks(b, file, ticks), RenderUploading(b, file, s.attempt, false, ticks));
  }

  function TransferPc(t: Transfer): Pc {
    if t.Delivered? then Succeeding(t.verifyMethod) else Reporting(CauseOf(t))
  }

  lemma ShowTransfer(b: Batch, s: State, t: Transfer) returns (log: seq<Action>)
    requires s.i < |b.files| && s.pc.Starting? && GoodTransfer(b, t)
    ensures Shows(b, s, log, s.(pc := TransferPc(t)), RenderTransfer(b, b.files[s.i], s.attempt, false, t))
  {
    hide Shows, Base, RenderUploading, Run;
    var file, k := b.files[s.i], s.attempt;
    var done, text := s.(pc := TransferPc(t)), RenderTransfer(b, file, k, false, t);
    if t.DeleteFailed? {
      var start := [Send(FileStart(b.ep.name, file, k))];
      ShowNothing(b, s);
      log := Then(b, s, [], s, [], start[0], s.(pc := Deleting), start);
      log := Then(b, s, log, s.(pc := Deleting), start, Delete(Base(file), Some(t.error)), done, text);
    } else {
      var up := RenderUploading(b, file, k, false, t.ticks);
      log := ShowUploading(b, s, t.ticks);
      if t.UploadFailed? {
        log := Then(b, s, log, s.(pc := Uploading), up, UploadEnd(Some(t.error)), done, text);
      } else {
        var over := AfterUpload(b, s.(pc := Uploading));
        log := Then(b, s, log, s.(pc := Uploading), up, UploadEnd(None), over, up + [UploadEnd(None)]);
        if !b.noVerify {
          var outcome := if t.Delivered? then Ok(t.verifyMethod) else Err(t.error);
          log := Then(b, s, log, over, up + [UploadEnd(None)], Verify(file, Base(file), outcome), done, text);
        } else {
          assert text == up + [UploadEnd(None)];
        }
      }
    }
  }

  lemma DialedTransfer(b: Batch, file: string, k: int, t: Transfer)
    ensures RenderTransfer(b, file, k, true, t) == [Connect(None)] + RenderTransfer(b, file, k, false, t)
  {
    hide RenderTicks, Base;
  }

  /** Where an attempt begun in `s` leaves the worker. */
  function AfterAttempt(b: Batch, s: State, att: Attempt): State {
    match att
    case DialRefused(_) => Retry(b, s.(failures := s.failures + 1))
    case BreakerTripped(_) => EndFile(b, s.(failures := s.failures + 1), false)
    case DialAborted(_) => EndFile(b, s.(canceled := true), false)
    case Transferred(dialed, t) =>
      var u := s.(connected := true, failures := if dialed then 0 else s.failures);
      if t.Delivered? then EndFile(b, u, true) else Dropped(b, u, CauseOf(t))
  }

  lemma ShowAttempt(b: Batch, s: State, att: Attempt) returns (log: seq<Action>)
    requires s.i < |b.files| && s.pc.AttemptPoll? && !s.canceled && 0 <= s.failures < Limit(b)
    requires GoodAttempt(b, s.connected, s.failures, att)
    ensures Shows(b, s, log, AfterAttempt(b, s, att), RenderAttempt(b, b.files[s.i], s.attempt, att))
  {
    if att.Transferred? {
      log := ShowTransferred(b, s, att);
    } else {
      log := ShowRefused(b, s, att);
    }
  }

  lemma ShowRefused(b: Batch, s: State, att: Attempt) returns (log: seq<Action>)
    requires s.i < |b.files| && s.pc.AttemptPoll? && !s.canceled && 0 <= s.failures < Limit(b) && !att.Transferred?
    requires GoodAttempt(b, s.connected, s.failures, att)
    ensures Shows(b, s, log, AfterAttempt(b, s, att), RenderAttempt(b, b.files[s.i], s.attempt, att))
  {
    hide Shows, Run;
    var file, k, e := b.files[s.i], s.attempt, att.error;
    var dial := [Connect(Some(e))];
    var polled, done := s.(pc := DialPoll(e)), AfterAttempt(b, s, att);
    var text := RenderAttempt(b, file, k, att);
    ShowNothing(b, s);
    log := Then(b, s, [], s, [], Poll(false), s.(pc := Dialing), []);
    log := Then(b, s, log, s.(pc := Dialing), [], dial[0], polled, dial);
    if att.DialAborted? {
      log := Then(b, s, log, polled, dial, Cancel, polled.(canceled := true), dial);
      SamePlace(b, polled.(canceled := true), s.(canceled := true), BreakerCause(0));
      log := Then(b, s, log, polled.(canceled := true), dial, Poll(true), done, text);
    } else {
      var counted := s.(pc := DialReport(e), failures := s.failures + 1);
      var report := Send(FileError(b.ep.name, file, k, ConnectCause(e)));
      log := Then(b, s, log, polled, dial, Poll(false), counted, dial);
      SamePlace(b, counted, s.(failures := s.failures + 1), BreakerCause(0));
      if att.DialRefused? {
        log := Then(b, s, log, counted, dial, report, done, text);
      } else {
        var tripped := counted.(pc := TripReport(e));
        log := Then(b, s, log, counted, dial, report, tripped, dial + [report]);
        SamePlace(b, tripped, s.(failures := s.failures + 1), BreakerCause(0));
        log := Then(b, s, log, tripped, dial + [report],
                    Send(FileError(b.ep.name, file, k, BreakerCause(counted.failures))), done, text);
      }
    }
  }

  lemma ShowTransferred(b: Batch, s: State, att: Attempt) returns (log: seq<Action>)
    requires s.i < |b.files| && s.pc.AttemptPoll? && !s.canceled && att.Transferred? && 0 <= s.failures
    requires GoodAttempt(b, s.connected, s.failures, att)
    ensures Shows(b, s, log, AfterAttempt(b, s, att), RenderAttempt(b, b.files[s.i], s.attempt, att))
  {
    hide Shows, Run, RenderTransfer, EndFile, Dropped;
    var file, k, t := b.files[s.i], s.attempt, att.transfer;
    var dial := if att.dialed then [Connect(None)] else [];
    var body, text := RenderTransfer(b, file, k, false, t), RenderTransfer(b, file, k, att.dialed, t);
    DialedTransfer(b, file, k, t);
    ShowNothing(b, s);
    log := Then(b, s, [], s, [], Poll(false), s.(pc := if s.connected then Starting else Dialing), []);
    var u := s.(pc := Starting, connected := true, failures := if att.dialed then 0 else s.failures);
    if att.dialed {
      log := Then(b, s, log, s.(pc := Dialing), [], dial[0], u, dial);
    }
    var more := ShowTransfer(b, u, t);
    var v := u.(pc := TransferPc(t));
    log := Join(b, s, log, u, dial, more, v, body, text);
    log := ShowOutcome(b, s, att, log, v, text);
  }

  lemma ShowOutcome(b: Batch, s: State, att: Attempt, before: seq<Action>, v: State, text: seq<Action>)
    returns (log: seq<Action>)
    requires s.i < |b.files| && att.Transferred?
    requires v == s.(pc := TransferPc(att.transfer), connected := true,
                     failures := if att.dialed then 0 else s.failures)
    requires text == RenderTransfer(b, b.files[s.i], s.attempt, att.dialed, att.transfer)
    requires Shows(b, s, before, v, text)
    ensures Shows(b, s, log, AfterAttempt(b, s, att), RenderAttempt(b, b.files[s.i], s.attempt, att))
  {
    hide Shows, Run, RenderTransfer, EndFile, Dropped;
    var file, k, t := b.files[s.i], s.attempt, att.transfer;
    var u := v.(pc := s.pc);
    var done, all := AfterAttempt(b, s, att), RenderAttempt(b, file, k, att);
    if t.Delivered? {
      SamePlace(b, v, u, BreakerCause(0));
      log := Then(b, s, before, v, text, Send(FileSuccess(b.ep.name, file, t.verifyMethod)), done, all);
    } else {
      var cause := CauseOf(t);
      var w, report := v.(pc := Dropping(cause)), Send(FileError(b.ep.name, file, k, cause));
      SamePlace(b, w, u, cause);
      log := Then(b, s, before, v, text, report, w, text + [report]);
      log := Then(b, s, log, w, text + [report], Disconnect, done, all);
    }
  }

  /** Leaving an attempt forgets where in it the worker was. */
  lemma SamePlace(b: Batch, s: State, t: State, cause: Cause)
    requires t == s.(pc := t.pc)
    ensures EndFile(b, s, true) == EndFile(b, t, true) && EndFile(b, s, false) == EndFile(b, t, false)
    ensures Dropped(b, s, cause) == Dropped(b, t, cause) && Retry(b, s) == Retry(b, t)
  {
    ForgetsPc(b, s, t.pc, true);
    ForgetsPc(b, s, t.pc, false);
    var u := s.(connected := false);
    ForgetsPc(b, u, t.pc, false);
    ForgetsPc(b, u.(permanent := Some(cause)), t.pc, false);
    hide EndFile, Retry;
  }

  // ---------------------------------------------------------------- one file

  /** Between two files, ready for the next one. */
  predicate Ready(b: Batch, s: State) {
    && s.i < |b.files| && !s.canceled && s.permanent.None? && 0 <= s.failures < Limit(b)
    && (s.connected ==> s.failures == 0)
  }

  /** About to make the next attempt after these, all of which could be retried. */
  function Trying(s: State, attempts: seq<Attempt>): State
    requires 0 <= s.failures
  {
    s.(pc := AttemptPoll, attempt := |attempts| + 1, connected := s.connected && attempts == [],
       failures := BlockStreak(s.failures, attempts))
  }

  lemma RetriableLeadsOn(b: Batch, s: State, att: Attempt)
    requires s.i < |b.files| && Retriable(att) && s.permanent.None? && 0 <= s.failures < Limit(b)
    requires GoodAttempt(b, s.connected, s.failures, att) && (s.connected ==> s.failures == 0)
    ensures AfterAttempt(b, s, att) == Retry(b, s.(connected := false, failures := StreakAfter(s.failures, att)))
    ensures StreakAfter(s.failures, att) < Limit(b)
  {
    hide EndFile, Retry;
  }

  lemma {:induction false} ShowRetries(b: Batch, s: State, attempts: seq<Attempt>) returns (log: seq<Action>)
    requires Ready(b, s) && |attempts| < Tries(b) && AllRetriable(attempts)
    requires GoodBlock(b, s.connected, s.failures, attempts)
    ensures Shows(b, EnterAttempt(b, s.(attempt := 1)), log, Trying(s, attempts),
                  RenderBlock(b, b.files[s.i], attempts))
    ensures BlockStreak(s.failures, attempts) < Limit(b)
  {
    hide Shows, AfterAttempt, RenderAttempt, EndFile, GoodAttempt, StreakAfter;
    var file, start := b.files[s.i], EnterAttempt(b, s.(attempt := 1));
    if attempts == [] {
      log := [];
      ShowNothing(b, start);
    } else {
      var m := |attempts| - 1;
      var before, last := attempts[..m], attempts[m];
      log := ShowRetries(b, s, before);
      var t := Trying(s, before);
      var more := ShowAttempt(b, t, last);
      RetriableLeadsOn(b, t, last);
      var napping := Trying(s, attempts).(pc := Napping, attempt := m + 1);
      assert AfterAttempt(b, t, last) == napping;
      var text := RenderBlock(b, file, attempts);
      PausedBlock(b, file, attempts);
      log := Join(b, start, log, t, RenderBlock(b, file, before), more, napping, RenderAttempt(b, file, m + 1, last),
                  Unpaused(b, file, attempts));
      log := Then(b, start, log, napping, Unpaused(b, file, attempts), Sleep, Trying(s, attempts), text);
    }
  }

  /** The worker stopped at this file because it was canceled. */
  predicate Stopped(b: Batch, attempts: seq<Attempt>) {
    !Passes(b, attempts)
    && (attempts == [] || (!attempts[|attempts| - 1].BreakerTripped? && !IsPermanent(attempts[|attempts| - 1])))
  }

  predicate Succeeds(attempts: seq<Attempt>) {
    attempts != [] && IsDelivery(attempts[|attempts| - 1])
  }

  function PermanentOf(attempts: seq<Attempt>): Option<Cause> {
    if attempts != [] && IsPermanent(attempts[|attempts| - 1])
    then Some(CauseOf(attempts[|attempts| - 1].transfer)) else None
  }

  /** Where these attempts at a file leave a worker that was in `s` before it. */
  function Behind(b: Batch, s: State, attempts: seq<Attempt>, attempt: int): State
    requires 0 <= s.failures
  {
    var u := s.(attempt := attempt,
                connected := if attempts == [] then s.connected else Succeeds(attempts),
                failures := BlockStreak(s.failures, attempts),
                canceled := Stopped(b, attempts),
                permanent := PermanentOf(attempts));
    EndFile(b, u, Succeeds(attempts))
  }

  lemma ShowBlock(b: Batch, s: State, attempts: seq<Attempt>) returns (log: seq<Action>, t: State)
    requires Ready(b, s) && |attempts| <= Tries(b) && GoodBlock(b, s.connected, s.failures, attempts)
    ensures Shows(b, EnterAttempt(b, s.(attempt := 1)), log, t, RenderBlock(b, b.files[s.i], attempts))
    ensures t == Behind(b, s, attempts, t.attempt)
  {
    hide Shows;
    if AllRetriable(attempts) && |attempts| < Tries(b) {
      log, t := ShowCut(b, s, attempts);
    } else if attempts == [] {
      log, t := [], EnterAttempt(b, s.(attempt := 1));
      ShowNothing(b, t);
      SamePlace(b, s.(attempt := 1), s.(attempt := 1, pc := s.pc), BreakerCause(0));
    } else {
      log, t := ShowTried(b, s, attempts);
    }
  }

  /** Canceled before the next attempt. */
  lemma ShowCut(b: Batch, s: State, attempts: seq<Attempt>) returns (log: seq<Action>, t: State)
    requires Ready(b, s) && |attempts| < Tries(b) && AllRetriable(attempts)
    requires GoodBlock(b, s.connected, s.failures, attempts)
    ensures Shows(b, EnterAttempt(b, s.(attempt := 1)), log, t, RenderBlock(b, b.files[s.i], attempts))
    ensures t == Behind(b, s, attempts, t.attempt)
  {
    hide Shows, EndFile, RenderBlock, GoodBlock, EnterAttempt, BlockStreak;
    var start, text := EnterAttempt(b, s.(attempt := 1)), RenderBlock(b, b.files[s.i], attempts);
    log := ShowRetries(b, s, attempts);
    var u := Trying(s, attempts).(canceled := true);
    log := Then(b, start, log, Trying(s, attempts), text, Cancel, u, text);
    t := EndFile(b, u, false);
    log := Then(b, start, log, u, text, Poll(true), t, text);
    EndFileKeepsAttempt(b, u, false);
    SamePlace(b, u, u.(pc := s.pc), BreakerCause(0));
    assert attempts != [] ==> Retriable(attempts[|attempts| - 1]);
  }

  lemma EndFileKeepsAttempt(b: Batch, s: State, ok: bool)
    ensures EndFile(b, s, ok).attempt == s.attempt
  {
  }

  /** The last attempt settled the file, or there are none left. */
  lemma ShowTried(b: Batch, s: State, attempts: seq<Attempt>) returns (log: seq<Action>, t: State)
    requires Ready(b, s) && attempts != [] && |attempts| <= Tries(b)
    requires !AllRetriable(attempts) || |attempts| == Tries(b)
    requires GoodBlock(b, s.connected, s.failures, attempts)
    ensures Shows(b, EnterAttempt(b, s.(attempt := 1)), log, t, RenderBlock(b, b.files[s.i], attempts))
    ensures t == Behind(b, s, attempts, t.attempt)
  {
    hide Shows, EndFile, EnterAttempt, AfterAttempt, RenderAttempt;
    var m := |attempts| - 1;
    var before, last := attempts[..m], attempts[m];
    var start, text := EnterAttempt(b, s.(attempt := 1)), RenderBlock(b, b.files[s.i], attempts);
    log := ShowRetries(b, s, before);
    var u := Trying(s, before);
    var more := ShowAttempt(b, u, last);
    t := AfterAttempt(b, u, last);
    LastAttemptHasNoPause(b, s, attempts);
    PausedBlock(b, b.files[s.i], attempts);
    log := Join(b, start, log, u, RenderBlock(b, b.files[s.i], before), more, t,
                RenderAttempt(b, b.files[s.i], m + 1, last), text);
    TriedBehind(b, s, attempts);
  }

  lemma LastAttemptHasNoPause(b: Batch, s: State, attempts: seq<Attempt>)
    requires 0 <= s.failures && attempts != [] && |attempts| <= Tries(b)
    requires !AllRetriable(attempts) || |attempts| == Tries(b)
    requires GoodBlock(b, s.connected, s.failures, attempts)
    ensures Pause(b, |attempts|, attempts[|attempts| - 1]) == []
  {
    hide GoodAttempt, BlockStreak;
    assert AllRetriable(attempts[..|attempts| - 1]);
  }

  lemma TriedBehind(b: Batch, s: State, attempts: seq<Attempt>)
    requires Ready(b, s) && attempts != [] && |attempts| <= Tries(b)
    requires !AllRetriable(attempts) || |attempts| == Tries(b)
    requires GoodBlock(b, s.connected, s.failures, attempts)
    requires BlockStreak(s.failures, attempts[..|attempts| - 1]) < Limit(b)
    ensures var t := AfterAttempt(b, Trying(s, attempts[..|attempts| - 1]), attempts[|attempts| - 1]);
            t == Behind(b, s, attempts, t.attempt)
  {
    var m := |attempts| - 1;
    var u, last := Trying(s, attempts[..m]), attempts[m];
    assert GoodAttempt(b, u.connected, u.failures, last) && AllRetriable(attempts[..m]);
    hide EndFile, GoodBlock;
    if Retriable(last) {
      RetriableLeadsOn(b, u, last);
      var v := u.(connected := false, failures := StreakAfter(u.failures, last), attempt := m + 2);
      assert AllRetriable(attempts);
      EndFileKeepsAttempt(b, v, false);
      SamePlace(b, v, v.(pc := s.pc), BreakerCause(0));
    } else {
      SettledBehind(b, s, attempts);
    }
  }

  lemma SettledBehind(b: Batch, s: State, attempts: seq<Attempt>)
    requires Ready(b, s) && attempts != [] && !Retriable(attempts[|attempts| - 1])
    requires var u := Trying(s, attempts[..|attempts| - 1]);
             GoodAttempt(b, u.connected, u.failures, attempts[|attempts| - 1])
    ensures var t := AfterAttempt(b, Trying(s, attempts[..|attempts| - 1]), attempts[|attempts| - 1]);
            t == Behind(b, s, attempts, t.attempt)
  {
    var m := |attempts| - 1;
    var u, last := Trying(s, attempts[..m]), attempts[m];
    hide EndFile;
    var v := s.(attempt := m + 1, connected := Succeeds(attempts), failures := BlockStreak(s.failures, attempts),
                canceled := Stopped(b, attempts), permanent := PermanentOf(attempts));
    EndFileKeepsAttempt(b, v, Succeeds(attempts));
    SamePlace(b, v, v.(pc := AttemptPoll), BreakerCause(0));
  }

  // ---------------------------------------------------------------- all files

  /** Where the worker stands after these files. */
  predicate Stands(b: Batch, blocks: seq<seq<Attempt>>, t: State) {
    && t.connected == Up(blocks) && t.failures == Streak(blocks) && (t.connected ==> t.failures == 0)
    && t.succeeded == Successes(blocks) && t.failed == |blocks| - Successes(blocks)
    && t.canceled == (blocks != [] && Stopped(b, blocks[|blocks| - 1]))
    && (if EndsPermanent(blocks) then
          t.permanent == Some(PermanentCause(blocks)) && t.i == |blocks| - 1
          && t.pc == if |blocks| < |b.files| then GivingUp else Finishing
        else
          t.permanent == None && t.i == |blocks|
          && t.pc == if |blocks| < |b.files| then FilePoll else Finishing)
  }

  lemma {:induction false} RetriesStayBelow(b: Batch, up: bool, n: nat, attempts: seq<Attempt>)
    requires n < Limit(b) && GoodBlock(b, up, n, attempts)
    requires attempts == [] || !attempts[|attempts| - 1].BreakerTripped?
    ensures BlockStreak(n, attempts) < Limit(b)
  {
    if attempts != [] {
      var m := |attempts| - 1;
      if m > 0 {
        assert Retriable(attempts[..m][m - 1]);
      }
      RetriesStayBelow(b, up, n, attempts[..m]);
    }
  }

  lemma {:induction false} PassedStaysBelow(b: Batch, blocks: seq<seq<Attempt>>)
    requires GoodBlocks(b, blocks) && LastPasses(b, blocks) && 0 < Limit(b)
    ensures Streak(blocks) < Limit(b)
  {
    hide GoodBlock, BlockStreak;
    if blocks != [] {
      var m := |blocks| - 1;
      var last := blocks[m];
      PassedStaysBelow(b, blocks[..m]);
      if last != [] && AllRetriable(last) {
        assert Retriable(last[|last| - 1]);
      }
      RetriesStayBelow(b, Up(blocks[..m]), Streak(blocks[..m]), last);
    }
  }

  lemma StandsAfter(b: Batch, blocks: seq<seq<Attempt>>, s: State, t: State)
    requires blocks != [] && |blocks| <= |b.files| && GoodBlocks(b, blocks)
    requires Stands(b, blocks[..|blocks| - 1], s) && Ready(b, s)
    requires t == Behind(b, s, blocks[|blocks| - 1], t.attempt)
    ensures Stands(b, blocks, t)
  {
    var last := blocks[|blocks| - 1];
    assert Succeeds(last) ==> BlockStreak(s.failures, last) == 0;
    assert last == [] ==> BlockStreak(s.failures, last) == s.failures;
    hide GoodBlocks, Passes, BlockStreak;
    var u := s.(attempt := t.attempt,
                connected := if last == [] then s.connected else Succeeds(last),
                failures := BlockStreak(s.failures, last), canceled := Stopped(b, last),
                permanent := PermanentOf(last));
    EndFileTally(b, u, Succeeds(last));
    EndFileFrame(b, u, Succeeds(last));
    hide EndFile;
  }

  lemma {:induction false} ShowBlocks(b: Batch, blocks: seq<seq<Attempt>>) returns (log: seq<Action>, t: State)
    requires GoodBlocks(b, blocks) && |blocks| <= |b.files|
    ensures Shows(b, Init(b), log, t, RenderBlocks(b, blocks)) && Stands(b, blocks, t)
  {
    hide Shows, GoodBlock, Behind, EnterAttempt, Stopped, Stands, RenderBlock, Streak, Init;
    if blocks == [] {
      log, t := [], Init(b);
      ShowNothing(b, t);
      StandsInit(b);
    } else {
      var m := |blocks| - 1;
      var before := blocks[..m];
      var s;
      log, s := ShowBlocks(b, before);
      ReadyAfter(b, before, s);
      var start := EnterAttempt(b, s.(attempt := 1));
      log := Then(b, Init(b), log, s, RenderBlocks(b, before), Poll(false), start, RenderBlocks(b, before));
      var more;
      more, t := ShowBlock(b, s, blocks[m]);
      log := Join(b, Init(b), log, start, RenderBlocks(b, before), more, t, RenderBlock(b, b.files[m], blocks[m]),
                  RenderBlocks(b, blocks));
      StandsAfter(b, blocks, s, t);
    }
  }

  lemma StandsInit(b: Batch)
    ensures Stands(b, [], Init(b))
  {
  }

  lemma ReadyAfter(b: Batch, blocks: seq<seq<Attempt>>, s: State)
    requires GoodBlocks(b, blocks) && LastPasses(b, blocks) && 0 < Limit(b) && |blocks| < |b.files|
    requires Stands(b, blocks, s)
    ensures Ready(b, s) && s.pc.FilePoll? && !CircuitOpen(b, s) && s.i == |blocks|
    ensures s.connected == Up(blocks) && s.failures == Streak(blocks)
  {
    PassedStaysBelow(b, blocks);
    hide GoodBlocks, Streak, Up;
    if blocks != [] {
      var last := blocks[|blocks| - 1];
      if last != [] && AllRetriable(last) {
        assert Retriable(last[|last| - 1]);
      }
    }
  }

  // ---------------------------------------------------------------- the end of the batch

  /** About to send Done, with every file accounted for. */
  predicate Ended(b: Batch, blocks: seq<seq<Attempt>>, t: State) {
    && t.pc.Finishing? && t.connected == Up(blocks) && t.i <= |b.files|
    && t.succeeded == Successes(blocks) && t.failed == |b.files| - Successes(blocks)
  }

  lemma TrippedIsOpen(b: Batch, blocks: seq<seq<Attempt>>)
    requires GoodBlocks(b, blocks) && DidTrip(b, blocks)
    ensures Streak(blocks) == Limit(b) && !EndsPermanent(blocks) && (blocks != [] ==> !Stopped(b, blocks[|blocks| - 1]))
  {
  }

  lemma ShowEnding(b: Batch, canceled: bool, blocks: seq<seq<Attempt>>, ending: Ending, before: seq<Action>, s: State)
    returns (log: seq<Action>, t: State)
    requires GoodBlocks(b, blocks) && GoodEnding(b, canceled, blocks, ending) && Stands(b, blocks, s)
    requires Shows(b, Init(b), before, s, RenderBlocks(b, blocks))
    ensures Shows(b, Init(b), log, t, RenderBlocks(b, blocks) + RenderEnding(b, blocks, ending))
    ensures Ended(b, blocks, t) && (t.canceled ==> canceled)
  {
    hide Shows, GoodBlocks, Stopped, RenderBlocks, Streak, Successes, Up, Init, DidTrip, EndsPermanent,
         PermanentCause, LastPasses;
    var text := RenderBlocks(b, blocks);
    StoppedMeansCanceled(b, canceled, blocks, ending);
    if ending.AllTried? {
      log, t := before, s;
      assert text + RenderEnding(b, blocks, ending) == text;
    } else if ending.WasCanceled? {
      log, t := ShowCanceled(b, blocks, before, s);
    } else if ending.WasUnreachable? {
      TrippedIsOpen(b, blocks);
      log, t := ShowUnreachable(b, blocks, before, s);
    } else {
      t := s.(pc := Finishing, failed := s.failed + |b.files| - s.i - 1);
      log := Then(b, Init(b), before, s, text, Send(GivenUp(b.ep.name, s.permanent.value, b.files[s.i + 1..])), t,
                  text + RenderEnding(b, blocks, ending));
    }
  }

  lemma ShowCanceled(b: Batch, blocks: seq<seq<Attempt>>, before: seq<Action>, s: State)
    returns (log: seq<Action>, t: State)
    requires |blocks| < |b.files| && Stands(b, blocks, s) && !EndsPermanent(blocks)
    requires Shows(b, Init(b), before, s, RenderBlocks(b, blocks))
    ensures Shows(b, Init(b), log, t, RenderBlocks(b, blocks) + RenderEnding(b, blocks, WasCanceled))
    ensures Ended(b, blocks, t)
  {
    hide Shows, Stopped, RenderBlocks, Streak, Successes, Up, Init, EndsPermanent;
    var text, u := RenderBlocks(b, blocks), s.(canceled := true);
    log := Then(b, Init(b), before, s, text, Cancel, u, text);
    t := u.(pc := Finishing, failed := u.failed + |b.files| - u.i);
    log := Then(b, Init(b), log, u, text, Poll(true), t, text);
    assert text + RenderEnding(b, blocks, WasCanceled) == text;
  }

  lemma ShowUnreachable(b: Batch, blocks: seq<seq<Attempt>>, before: seq<Action>, s: State)
    returns (log: seq<Action>, t: State)
    requires |blocks| < |b.files| && Stands(b, blocks, s) && !EndsPermanent(blocks) && !s.canceled &&
             s.failures == Limit(b)
    requires Shows(b, Init(b), before, s, RenderBlocks(b, blocks))
    ensures Shows(b, Init(b), log, t, RenderBlocks(b, blocks) + RenderEnding(b, blocks, WasUnreachable))
    ensures Ended(b, blocks, t) && !t.canceled
  {
    hide Shows, Stopped, RenderBlocks, Streak, Successes, Up, Init, EndsPermanent;
    var text, u := RenderBlocks(b, blocks), s.(pc := Skipping);
    log := Then(b, Init(b), before, s, text, Poll(false), u, text);
    t := u.(pc := Finishing, failed := u.failed + |b.files| - u.i);
    log := Then(b, Init(b), log, u, text, Send(Unreachable(b.ep.name, u.failures, b.files[u.i..])), t,
                text + RenderEnding(b, blocks, WasUnreachable));
  }

  lemma StoppedMeansCanceled(b: Batch, canceled: bool, blocks: seq<seq<Attempt>>, ending: Ending)
    requires GoodBlocks(b, blocks) && GoodEnding(b, canceled, blocks, ending)
    ensures blocks != [] && Stopped(b, blocks[|blocks| - 1]) ==> canceled
  {
  }

  lemma ShowDone(b: Batch, tree: Tree, before: seq<Action>, s: State) returns (log: seq<Action>, t: State)
    requires |tree.blocks| <= |b.files| && Ended(b, tree.blocks, s)
    requires Shows(b, Init(b), before, s, RenderBlocks(b, tree.blocks) + RenderEnding(b, tree.blocks, tree.ending))
    ensures Shows(b, Init(b), log, t, Render(b, tree)) && t.pc.Halted? && t.canceled == s.canceled
  {
    hide Shows, RenderBlocks, RenderEnding, Successes, Up, Init;
    var text := RenderBlocks(b, tree.blocks) + RenderEnding(b, tree.blocks, tree.ending);
    var u := s.(pc := if s.connected then Closing else Halted);
    var done := text + RenderDone(b, tree.blocks);
    log := Then(b, Init(b), before, s, text, Send(Done(b.ep.name, s.succeeded, s.failed)), u, done);
    if s.connected {
      t := u.(pc := Halted, connected := false);
      log := Then(b, Init(b), log, u, done, Disconnect, t, Render(b, tree));
    } else {
      t := u;
      assert Render(b, tree) == done;
    }
  }

  lemma ShowsIs(b: Batch, log: seq<Action>, s: State, text: seq<Action>)
    requires Shows(b, Init(b), log, s, text)
    ensures Reaches(b, log, s) && Visible(log) == text
  {
  }

  /** Every well-formed tree, with or without a cancellation that it shows, happens. */
  lemma EveryTreeHappens(b: Batch, canceled: bool, tree: Tree) returns (log: seq<Action>, s: State)
    requires GoodTree(b, canceled, tree)
    ensures Reaches(b, log, s) && s.pc.Halted? && s.canceled == canceled && Visible(log) == Render(b, tree)
  {
    assert |tree.blocks| <= |b.files|;
    hide Shows, GoodBlocks, GoodEnding, Render, Init, Stands, Ended;
    log, s := ShowBlocks(b, tree.blocks);
    log, s := ShowEnding(b, canceled, tree.blocks, tree.ending, log, s);
    log, s := ShowDone(b, tree, log, s);
    if canceled && !s.canceled {
      var u := s.(canceled := true);
      log := Then(b, Init(b), log, s, Render(b, tree), Cancel, u, Render(b, tree));
      s := u;
    }
    ShowsIs(b, log, s, Render(b, tree));
  }

  /** A worker can return having shown exactly this, canceled or not. */
  ghost predicate CanShow(b: Batch, canceled: bool, text: seq<Action>) {
    exists log, s :: Reaches(b, log, s) && s.pc.Halted? && s.canceled == canceled && Visible(log) == text
  }

  /** The grammar is exact: the calls and events of complete runs are the readings of well-formed
      trees, no fewer and no more. */
  lemma GrammarIsExact(b: Batch, canceled: bool, text: seq<Action>)
    ensures CanShow(b, canceled, text) <==> IsReading(b, canceled, text)
  {
    hide GoodBlocks, Render, Reaches, Visible;
    if CanShow(b, canceled, text) {
      var log, s :| Reaches(b, log, s) && s.pc.Halted? && s.canceled == canceled && Visible(log) == text;
      CompleteRunReadsAsTree(b, log, s);
    }
    if IsReading(b, canceled, text) {
      var tree :| GoodTree(b, canceled, tree) && text == Render(b, tree);
      var log, s := EveryTreeHappens(b, canceled, tree);
    }
  }
}
