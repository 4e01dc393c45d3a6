/** When a worker abandons its batch, and which of the events that skip files can still follow a
    cancellation (dispatch.go:92-117, 176-184, 205-207). */
module WorkerGiveUp {
  import opened Types
  import opened Worker
  import opened WorkerSafety
  import opened WorkerCancel
  import WorkerGrammar
  import WorkerRealise

  predicate GivesUp(a: Action) { a.Send? && a.event.GivenUp? }
  predicate Skips(a: Action) { a.Send? && a.event.Unreachable? }

  predicate SomeGivesUp(log: seq<Action>) {
    exists k :: 0 <= k < |log| && GivesUp(log[k])
  }

  predicate SomeSkips(log: seq<Action>) {
    exists k :: 0 <= k < |log| && Skips(log[k])
  }

  predicate SomeFails(log: seq<Action>) {
    exists k :: 0 <= k < |log| && FailsPermanently(log[k])
  }

  /** A call has failed for good and the worker is still reporting it and hanging up. */
  predicate Failing(s: State) {
    Hangup(s) && Permanent(s.pc.cause)
  }

  /** A GivenUp event is on its way. */
  predicate Pending(b: Batch, s: State) {
    s.i + 1 < |b.files| && (s.pc.GivingUp? || Failing(s))
  }

  /** The worker is at a file, and not between two or past the last. */
  predicate AtFile(s: State) {
    InAttempt(s.pc) || s.pc.GivingUp?
  }

  /** What a step does to the prospects of giving up. */
  predicate Bodes(b: Batch, s: State, a: Action, t: State) {
    && (Doomed(t) <==> Doomed(s) || FailsPermanently(a))
    && (GivesUp(a) || Pending(b, t) <==> Pending(b, s) || (FailsPermanently(a) && s.i + 1 < |b.files|))
    && (FailsPermanently(a) ==> Online(s.pc))
    && (Doomed(t) ==> t.i == s.i)
    && (t.pc.GivingUp? ==> t.permanent.Some?)
    && (s.canceled ==> t.canceled && (AtFile(t) ==> AtFile(s) && t.i == s.i))
    && (s.canceled ==> (Skips(a) || t.pc.Skipping? <==> s.pc.Skipping?))
  }

  lemma BodesStep(b: Batch, s: State, a: Action, t: State)
    requires Inv(b, s) && Step(b, s, a) == Some(t)
    ensures Bodes(b, s, a, t)
  {
    hide Step, StepInFile, StepDial, StepTransfer, StepAtEnd, BreakerInv, TallyInv, Bodes;
    if a.Cancel? {
      CancelOnly(b, s, t);
      BodesNothing(b, s);
    } else {
      StepKinds(b, s, a, t);
      if AtEnd(s.pc) {
        BodesAtEnd(b, s, a, t);
      } else if InDial(s.pc) {
        BodesDial(b, s, a, t);
      } else if Online(s.pc) {
        BodesTransfer(b, s, a, t);
      } else {
        BodesBetween(b, s, a, t);
      }
    }
  }

  lemma BodesNothing(b: Batch, s: State)
    requires PlaceInv(b, s)
    ensures Bodes(b, s, Cancel, s.(canceled := true))
  {
  }

  lemma BodesAtEnd(b: Batch, s: State, a: Action, t: State)
    requires AtEnd(s.pc) && StepAtEnd(b, s, a) == Some(t)
    ensures Bodes(b, s, a, t)
  {
  }

  lemma BodesDial(b: Batch, s: State, a: Action, t: State)
    requires s.i < |b.files| && InDial(s.pc) && s.permanent.None? && StepDial(b, s, b.files[s.i], a) == Some(t)
    ensures Bodes(b, s, a, t)
  {
    hide EndFile, Retry;
    EndFileTally(b, s, false);
    EndFileFrame(b, s, false);
    RetryPlace(b, s);
  }

  lemma BodesTransfer(b: Batch, s: State, a: Action, t: State)
    requires s.i < |b.files| && Online(s.pc) && s.connected && s.permanent.None?
    requires StepTransfer(b, s, b.files[s.i], a) == Some(t)
    ensures Bodes(b, s, a, t)
  {
    hide EndFile, Retry;
    if s.pc.Dropping? {
      var u := s.(connected := false);
      EndFileTally(b, u.(permanent := Some(s.pc.cause)), false);
      EndFileFrame(b, u.(permanent := Some(s.pc.cause)), false);
      RetryPlace(b, u);
    } else {
      hide Dropped;
      EndFileTally(b, s, true);
      EndFileFrame(b, s, true);
    }
  }

  lemma BodesBetween(b: Batch, s: State, a: Action, t: State)
    requires s.i < |b.files| && StepInFile(b, s, b.files[s.i], a) == Some(t) && PlaceInv(b, s)
    requires !AtEnd(s.pc) && !InDial(s.pc) && !Online(s.pc)
    ensures Bodes(b, s, a, t)
  {
    hide EndFile, EnterAttempt, StepDial, StepTransfer, StepAtEnd;
    EndFileTally(b, s, false);
    EndFileFrame(b, s, false);
    if s.permanent.None? {
      EnterPlace(b, s.(attempt := 1));
      EnterPlace(b, s.(attempt := s.attempt + 1));
    }
  }

  lemma EnterPlace(b: Batch, s: State)
    requires s.permanent.None?
    ensures var t := EnterAttempt(b, s);
            t.permanent.None? && t.canceled == s.canceled
            && (if t.pc.AttemptPoll? then t.i == s.i else t.pc.FilePoll? || t.pc.Finishing?)
  {
    EndFileTally(b, s, false);
    EndFileFrame(b, s, false);
    hide EndFile;
  }

  lemma RetryPlace(b: Batch, s: State)
    requires s.permanent.None?
    ensures var t := Retry(b, s);
            t.permanent.None? && t.canceled == s.canceled
            && (if t.pc.AttemptPoll? || t.pc.Napping? then t.i == s.i else t.pc.FilePoll? || t.pc.Finishing?)
  {
    EnterPlace(b, s.(attempt := s.attempt + 1));
    hide EnterAttempt;
  }

  // ---------------------------------------------------------------- logs

  lemma SomeOne(log: seq<Action>)
    requires log != []
    ensures var before, a := log[..|log| - 1], log[|log| - 1];
            && (SomeGivesUp(log) <==> SomeGivesUp(before) || GivesUp(a))
            && (SomeSkips(log) <==> SomeSkips(before) || Skips(a))
            && (SomeFails(log) <==> SomeFails(before) || FailsPermanently(a))
  {
    hide GivesUp, Skips, FailsPermanently;
    var m := |log| - 1;
    assert log == log[..m] + [log[m]];
    assert forall k :: 0 <= k < m ==> log[k] == log[..m][k];
  }

  /** From a canceled state: a GivenUp event was sent or is on its way exactly if one was on its way at
      the start, or the file then under way has failed for good and was not the last. */
  lemma {:induction false} CanceledGiveUp(b: Batch, s: State, post: seq<Action>, t: State)
    requires Inv(b, s) && s.canceled && Run(b, s, post) == Some(t)
    ensures Inv(b, t) && t.canceled && (AtFile(t) ==> AtFile(s) && t.i == s.i)
    ensures SomeGivesUp(post) || Pending(b, t) <==> Pending(b, s) || (SomeFails(post) && s.i + 1 < |b.files|)
    ensures SomeSkips(post) || t.pc.Skipping? <==> s.pc.Skipping?
  {
    hide Inv, Step, Pending, SomeGivesUp, SomeSkips, SomeFails, FailsPermanently, Skips, GivesUp, Doomed;
    if post == [] {
      NothingHappened();
    } else {
      var m := |post| - 1;
      var u := Run(b, s, post[..m]).value;
      CanceledGiveUp(b, s, post[..m], u);
      InvStep(b, u, post[m], t);
      BodesStep(b, u, post[m], t);
      SomeOne(post);
    }
  }

  lemma NothingHappened()
    ensures !SomeGivesUp([]) && !SomeSkips([]) && !SomeFails([])
  {
  }

  /** Which files a worker still reports as skipped after a cancellation, over a complete run: it sends
      GivenUp exactly if the file under way at the cancellation was not the last and had failed for
      good by then or fails for good afterwards; and it sends Unreachable exactly if it was about to. */
  lemma SkipsAfterCancellation(b: Batch, pre: seq<Action>, post: seq<Action>, s: State, t: State)
    requires Reaches(b, pre + [Cancel], s) && Reaches(b, pre + [Cancel] + post, t) && t.pc.Halted?
    ensures SomeGivesUp(post) <==>
            s.i + 1 < |b.files| && (s.pc.GivingUp? || Failing(s) || SomeFails(post))
    ensures SomeSkips(post) <==> s.pc.Skipping?
  {
    hide Step, Init, SomeGivesUp, SomeSkips, SomeFails, PlaceInv, BreakerInv, TallyInv;
    InvHolds(b, pre + [Cancel], s);
    RunOne(b, Init(b), pre, Cancel);
    CancelSets(b, Run(b, Init(b), pre).value, s);
    RunSplit(b, Init(b), pre + [Cancel], post);
    hide Run;
    CanceledGiveUp(b, s, post, t);
  }

  lemma {:induction false} Abandonment(b: Batch, log: seq<Action>, s: State)
    requires Reaches(b, log, s)
    ensures Inv(b, s) && (Doomed(s) <==> SomeFails(log))
    ensures SomeGivesUp(log) || Pending(b, s) <==> Doomed(s) && s.i + 1 < |b.files|
    ensures SomeFails(log) ==> 0 < Tries(b) && 0 < Limit(b)
  {
    hide Inv, Step, Init, Pending, SomeGivesUp, SomeSkips, SomeFails, FailsPermanently, Skips, GivesUp, Doomed;
    if log == [] {
      InvInit(b);
      NothingHappened();
      NothingDoomed(b);
    } else {
      var m := |log| - 1;
      var u := Run(b, Init(b), log[..m]).value;
      Abandonment(b, log[..m], u);
      InvStep(b, u, log[m], s);
      BodesStep(b, u, log[m], s);
      SomeOne(log);
      AttemptsAllowed(b, u);
    }
  }

  lemma NothingDoomed(b: Batch)
    ensures !Doomed(Init(b)) && !Pending(b, Init(b))
  {
  }

  lemma AttemptsAllowed(b: Batch, s: State)
    requires Inv(b, s)
    ensures Online(s.pc) ==> 0 < Tries(b) && 0 < Limit(b)
  {
  }

  /** A worker that has returned abandoned its batch exactly if a delete, upload or verify call failed
      for lack of permission; and it said so, in a GivenUp event, exactly if files were then left. */
  lemma AbandonsExactly(b: Batch, log: seq<Action>, s: State)
    requires Reaches(b, log, s) && s.pc.Halted?
    ensures s.permanent.Some? <==> SomeFails(log)
    ensures SomeGivesUp(log) <==> SomeFails(log) && s.i + 1 < |b.files|
  {
    hide Run, SomeGivesUp, SomeFails, PlaceInv, BreakerInv, TallyInv;
    Abandonment(b, log, s);
  }

  // ---------------------------------------------------------------- it happens

  /** A complete run in which a GivenUp event follows a cancellation. */
  ghost predicate GivesUpLate(b: Batch, pre: seq<Action>, post: seq<Action>, t: State) {
    Reaches(b, pre + [Cancel] + post, t) && t.pc.Halted? && SomeGivesUp(post)
  }

  ghost predicate CanGiveUpLate(b: Batch) {
    exists pre, post, t :: GivesUpLate(b, pre, post, t)
  }

  const DENIED := Error("permission denied", true)

  const REFUSAL := WorkerGrammar.UploadFailed([], DENIED)

  /** The upload of the first file has just been refused. */
  function Refused(b: Batch): State {
    State(Reporting(UploadCause(DENIED)), 0, 1, true, 0, None, 0, 0, false)
  }

  lemma ReachesRefused(b: Batch) returns (pre: seq<Action>)
    requires b.files != [] && 0 < Tries(b) && 0 < Limit(b)
    ensures Reaches(b, pre, Refused(b))
    ensures WorkerGrammar.Visible(pre) ==
            [Connect(None)] + WorkerGrammar.RenderTransfer(b, b.files[0], 1, false, REFUSAL)
  {
    hide WorkerRealise.Shows;
    var start := Refused(b).(pc := Starting);
    var looked := start.(pc := AttemptPoll, connected := false);
    WorkerRealise.ShowNothing(b, Init(b));
    pre := WorkerRealise.Then(b, Init(b), [], Init(b), [], Poll(false), looked, []);
    pre := WorkerRealise.Then(b, Init(b), pre, looked, [], Poll(false), looked.(pc := Dialing), []);
    pre := WorkerRealise.Then(b, Init(b), pre, looked.(pc := Dialing), [], Connect(None), start, [Connect(None)]);
    var more := WorkerRealise.ShowTransfer(b, start, REFUSAL);
    var text := WorkerGrammar.RenderTransfer(b, b.files[0], 1, false, REFUSAL);
    pre := WorkerRealise.Join(b, Init(b), pre, start, [Connect(None)], more, Refused(b), text, [Connect(None)] + text);
    WorkerRealise.ShowsIs(b, pre, Refused(b), [Connect(None)] + text);
  }

  lemma RefusedGivesUp(b: Batch, s: State) returns (post: seq<Action>, t: State)
    requires 1 < |b.files| && (s == Refused(b) || s == Refused(b).(canceled := true))
    ensures Run(b, s, post) == Some(t) && t.pc.Halted? && SomeGivesUp(post)
    ensures forall k :: 0 <= k < |post| ==> post[k].Send? || post[k].Disconnect?
  {
    var file, cause := b.files[0], UploadCause(DENIED);
    var s1 := s.(pc := Dropping(cause));
    var s2 := s.(pc := GivingUp, connected := false, permanent := Some(cause), failed := 1);
    var s3 := s2.(pc := Finishing, failed := |b.files|);
    t := s3.(pc := Halted);
    var report, skip := Send(FileError(b.ep.name, file, 1, cause)), Send(GivenUp(b.ep.name, cause, b.files[1..]));
    RunOne(b, s, [], report);
    RunOne(b, s, [report], Disconnect);
    RunOne(b, s, [report] + [Disconnect], skip);
    RunOne(b, s, [report] + [Disconnect] + [skip], Send(Done(b.ep.name, 0, |b.files|)));
    assert [] + [report] == [report];
    post := [report] + [Disconnect] + [skip] + [Send(Done(b.ep.name, 0, |b.files|))];
    assert GivesUp(post[2]);
  }

  lemma GivesUpLateNeedsFiles(b: Batch, pre: seq<Action>, post: seq<Action>, t: State)
    requires GivesUpLate(b, pre, post, t)
    ensures 1 < |b.files| && 0 < Tries(b) && 0 < Limit(b)
  {
    hide Run, Init, SomeFails;
    var log := pre + [Cancel] + post;
    var k :| 0 <= k < |post| && GivesUp(post[k]);
    assert log[|pre| + 1 + k] == post[k];
    AbandonsExactly(b, log, t);
    Abandonment(b, log, t);
  }

  /** A GivenUp event can follow a cancellation exactly in a batch of at least two files, of an endpoint
      that is allowed an attempt: dispatch.go:106 comes before the next look at the context. */
  lemma CanGiveUpLateExactly(b: Batch)
    ensures CanGiveUpLate(b) <==> 1 < |b.files| && 0 < Tries(b) && 0 < Limit(b)
  {
    hide GivesUpLate;
    if CanGiveUpLate(b) {
      var pre, post, t :| GivesUpLate(b, pre, post, t);
      GivesUpLateNeedsFiles(b, pre, post, t);
    }
    if 1 < |b.files| && 0 < Tries(b) && 0 < Limit(b) {
      var pre := ReachesRefused(b);
      var s := Refused(b).(canceled := true);
      var post, t := RefusedGivesUp(b, s);
      CancelThen(b, pre, Refused(b), post, t);
    }
  }

  lemma CancelThen(b: Batch, pre: seq<Action>, s: State, post: seq<Action>, t: State)
    requires Reaches(b, pre, s) && Run(b, s.(canceled := true), post) == Some(t) && t.pc.Halted? && SomeGivesUp(post)
    ensures GivesUpLate(b, pre, post, t)
  {
    hide Init, SomeGivesUp;
    RunOne(b, Init(b), pre, Cancel);
    RunSplit(b, Init(b), pre + [Cancel], post);
  }
}
