/** The circuit breaker and the connection discipline over whole runs, read off the log
    alone: which dials were answered, refused, or abandoned because of a cancellation. */
module WorkerBreaker {
  import opened Types
  import opened Worker
  import opened WorkerSafety

  /** What became of a Connect call.  A failed one is undecided until the worker has asked
      whether the context was canceled. */
  datatype Dial = Answered | Undecided | Refused | Abandoned

  /** The dials of a log, oldest first. */
  function Dials(log: seq<Action>): seq<Dial> {
    if log == [] then []
    else
      var before := Dials(log[..|log| - 1]);
      match log[|log| - 1]
      case Connect(failure) => before + [if failure.None? then Answered else Undecided]
      case Poll(canceled) =>
        if before != [] && before[|before| - 1] == Undecided
        then before[..|before| - 1] + [if canceled then Abandoned else Refused] else before
      case _ => before
  }

  /** How many dials were refused since the last answered one. */
  function Trailing(dials: seq<Dial>): nat {
    if dials == [] then 0
    else
      var before := dials[..|dials| - 1];
      match dials[|dials| - 1]
      case Answered => 0
      case Refused => Trailing(before) + 1
      case _ => Trailing(before)
  }

  function Number(d: Dial, dials: seq<Dial>): nat {
    if dials == [] then 0
    else Number(d, dials[..|dials| - 1]) + if dials[|dials| - 1] == d then 1 else 0
  }

  predicate IsUndecided(dials: seq<Dial>) {
    dials != [] && dials[|dials| - 1] == Undecided
  }

  /** What the counter and the connection flag mean. */
  predicate BreakerHistory(b: Batch, s: State, dials: seq<Dial>, disconnects: nat) {
    && s.failures == Trailing(dials)
    && (s.pc.DialPoll? <==> IsUndecided(dials))
    && Number(Answered, dials) == disconnects + (if s.connected then 1 else 0)
    && Number(Refused, dials) <= Budget(b, Number(Answered, dials)) + s.failures
  }

  /** (M - 1) refusals may precede each answered dial. */
  function Budget(b: Batch, answered: nat): int {
    (Limit(b) - 1) * answered
  }

  predicate IsDisconnect(a: Action) { a.Disconnect? }

  lemma BudgetOne(b: Batch, answered: nat)
    ensures Budget(b, answered + 1) == Budget(b, answered) + Limit(b) - 1
  {
  }

  lemma DialOne(dials: seq<Dial>, d: Dial)
    ensures Number(Answered, dials + [d]) == Number(Answered, dials) + (if d == Answered then 1 else 0)
    ensures Number(Refused, dials + [d]) == Number(Refused, dials) + (if d == Refused then 1 else 0)
    ensures Trailing(dials + [d]) ==
            if d == Answered then 0 else if d == Refused then Trailing(dials) + 1 else Trailing(dials)
    ensures IsUndecided(dials + [d]) <==> d == Undecided
  {
    assert (dials + [d])[..|dials|] == dials;
  }

  lemma ConnectStep(b: Batch, s: State, a: Action, t: State, dials: seq<Dial>, disconnects: nat)
    requires Inv(b, s) && Moves(s, a, t) && BreakerHistory(b, s, dials, disconnects) && a.Connect?
    ensures BreakerHistory(b, t, dials + [if a.failure.None? then Answered else Undecided], disconnects)
  {
    hide Budget, Number, Trailing, IsUndecided;
    BudgetOne(b, Number(Answered, dials));
    DialOne(dials, if a.failure.None? then Answered else Undecided);
  }

  lemma VerdictStep(b: Batch, s: State, a: Action, t: State, dials: seq<Dial>, disconnects: nat)
    requires Moves(s, a, t) && BreakerHistory(b, s, dials, disconnects) && a.Poll? && IsUndecided(dials)
    ensures BreakerHistory(b, t, dials[..|dials| - 1] + [if a.canceled then Abandoned else Refused], disconnects)
  {
    var before := dials[..|dials| - 1];
    assert dials == before + [Undecided];
    DialOne(before, Undecided);
    DialOne(before, if a.canceled then Abandoned else Refused);
    hide Budget, Number, Trailing;
  }

  lemma OtherStep(b: Batch, s: State, a: Action, t: State, dials: seq<Dial>, disconnects: nat)
    requires Moves(s, a, t) && BreakerHistory(b, s, dials, disconnects)
    requires !a.Connect? && !(a.Poll? && IsUndecided(dials))
    ensures BreakerHistory(b, t, dials, disconnects + if a.Disconnect? then 1 else 0)
  {
    hide Budget, Number, Trailing;
  }

  lemma {:induction false} BreakerHolds(b: Batch, log: seq<Action>, s: State)
    requires Reaches(b, log, s)
    ensures BreakerHistory(b, s, Dials(log), Count(IsDisconnect, log))
    ensures Inv(b, s)
  {
    hide Inv, Step, Init, Moves, BreakerHistory;
    if log == [] {
      InvInit(b);
      InitHistory(b);
    } else {
      var m := |log| - 1;
      var t := Run(b, Init(b), log[..m]).value;
      BreakerHolds(b, log[..m], t);
      InvStep(b, t, log[m], s);
      Footprint(b, t, log[m], s);
      var dials, disconnects := Dials(log[..m]), Count(IsDisconnect, log[..m]);
      if log[m].Connect? {
        ConnectStep(b, t, log[m], s, dials, disconnects);
      } else if log[m].Poll? && IsUndecided(dials) {
        VerdictStep(b, t, log[m], s, dials, disconnects);
      } else {
        OtherStep(b, t, log[m], s, dials, disconnects);
      }
    }
  }

  lemma InitHistory(b: Batch)
    ensures BreakerHistory(b, Init(b), [], 0)
  {
  }

  // ---------------------------------------------------------------- main results

  /** The counter is the trailing run of refused dials (a dial that failed because of a
      cancellation neither extends nor ends it); it never passes the limit; and over the whole
      batch at most M - 1 dials are refused for each one answered, plus M. */
  lemma BreakerCountsTrailingRefusals(b: Batch, log: seq<Action>, s: State)
    requires Reaches(b, log, s)
    ensures s.failures == Trailing(Dials(log)) <= Limit(b)
    ensures s.connected ==> s.failures == 0
    ensures Number(Refused, Dials(log)) <= (Limit(b) - 1) * Number(Answered, Dials(log)) + Limit(b)
  {
    hide PlaceInv, TallyInv, Run, Init, Dials, Trailing, Number;
    BreakerHolds(b, log, s);
    assert BreakerInv(b, s);
  }

  /** Connects that succeed and Disconnects alternate: on every prefix of every run their
      numbers differ by one while the connection is up and not at all otherwise.  Nothing is
      left open when the worker returns, and nothing is transferred while it is down. */
  lemma ConnectionsAlternate(b: Batch, log: seq<Action>, s: State)
    requires Reaches(b, log, s)
    ensures Number(Answered, Dials(log)) == Count(IsDisconnect, log) + if s.connected then 1 else 0
    ensures s.pc.Halted? ==> !s.connected
    ensures forall k :: 0 <= k < |log| && TransferCall(log[k]) ==>
      Number(Answered, Dials(log[..k])) == Count(IsDisconnect, log[..k]) + 1
    ensures forall k :: 0 <= k < |log| && log[k].Connect? ==>
      Number(Answered, Dials(log[..k])) == Count(IsDisconnect, log[..k])
  {
    BreakerHolds(b, log, s);
    forall k | 0 <= k < |log| && (TransferCall(log[k]) || log[k].Connect?)
      ensures Number(Answered, Dials(log[..k])) ==
              Count(IsDisconnect, log[..k]) + if log[k].Connect? then 0 else 1
    {
      var t, u := StateBefore(b, log, s, k);
      BreakerHolds(b, log[..k], t);
      Footprint(b, t, log[k], u);
    }
  }

  /** Every prefix of a run is a run. */
  lemma StateBefore(b: Batch, log: seq<Action>, s: State, k: nat) returns (t: State, u: State)
    requires Reaches(b, log, s) && k < |log|
    ensures Reaches(b, log[..k], t) && Step(b, t, log[k]) == Some(u)
  {
    hide Step, Init;
    assert log == log[..k + 1] + log[k + 1..];
    RunSplit(b, Init(b), log[..k + 1], log[k + 1..]);
    assert log[..k + 1] == log[..k] + [log[k]];
    RunOne(b, Init(b), log[..k], log[k]);
    t := Run(b, Init(b), log[..k]).value;
    u := Run(b, Init(b), log[..k + 1]).value;
  }

  /** An open breaker is final: from a state whose counter is at the limit no uploader call
      follows.  With a limit of zero or less that is so from the start. */
  lemma {:induction false} OpenBreakerIsFinal(b: Batch, s: State, post: seq<Action>, t: State)
    requires Inv(b, s) && CircuitOpen(b, s) && Run(b, s, post) == Some(t)
    ensures Inv(b, t) && CircuitOpen(b, t)
    ensures forall k :: 0 <= k < |post| ==> !IsCall(post[k])
  {
    hide Inv, Step, Moves;
    if post != [] {
      var m := |post| - 1;
      var u := Run(b, s, post[..m]).value;
      OpenBreakerIsFinal(b, s, post[..m], u);
      InvStep(b, u, post[m], t);
      Footprint(b, u, post[m], t);
      OpenStep(b, u, post[m], t);
    }
  }

  lemma OpenStep(b: Batch, s: State, a: Action, t: State)
    requires Inv(b, s) && Inv(b, t) && Moves(s, a, t) && CircuitOpen(b, s)
    ensures CircuitOpen(b, t) && !IsCall(a)
  {
  }

  // ---------------------------------------------------------------- what reconnecting costs

  /** A delete, upload or verify call that failed. */
  predicate FailsTransfer(a: Action) {
    (a.Delete? && a.failure.Some?) || (a.UploadEnd? && a.failure.Some?) || (a.Verify? && a.outcome.Err?)
  }

  /** A transfer has failed and its connection is still to be dropped. */
  predicate Dooms(pc: Pc) {
    pc.Reporting? || pc.Dropping?
  }

  predicate Drops(s: State, a: Action, t: State) {
    && (FailsTransfer(a) ==> !Dooms(s.pc) && Dooms(t.pc))
    && (a.Disconnect? ==> !Dooms(t.pc) && (Dooms(s.pc) || (!s.pc.Halted? && t.pc.Halted?)))
    && (!FailsTransfer(a) && !a.Disconnect? ==> (Dooms(t.pc) ==> Dooms(s.pc)) && (s.pc.Halted? ==> t.pc.Halted?))
    && (s.pc.Halted? ==> a.Cancel?)
  }

  lemma DropStep(b: Batch, s: State, a: Action, t: State)
    requires Inv(b, s) && Step(b, s, a) == Some(t)
    ensures Drops(s, a, t)
  {
    hide Step, StepInFile, StepDial, StepTransfer, StepAtEnd, Inv, Drops;
    InvMeansPlace(b, s);
    if a.Cancel? {
      CancelOnly(b, s, t);
      DropNothing(s);
    } else {
      StepKinds(b, s, a, t);
      if AtEnd(s.pc) {
        DropAtEnd(b, s, a, t);
      } else if InDial(s.pc) {
        DropDial(b, s, a, t);
      } else if Online(s.pc) {
        OnlineFacts(b, s, t);
        DropTransfer(b, s, a, t);
      } else {
        DropBetween(b, s, a, t);
      }
    }
  }

  lemma DropNothing(s: State)
    ensures Drops(s, Cancel, s.(canceled := true))
  {
  }

  lemma DropAtEnd(b: Batch, s: State, a: Action, t: State)
    requires AtEnd(s.pc) && StepAtEnd(b, s, a) == Some(t)
    ensures Drops(s, a, t)
  {
  }

  lemma DropTransfer(b: Batch, s: State, a: Action, t: State)
    requires s.i < |b.files| && Online(s.pc) && s.connected && StepTransfer(b, s, b.files[s.i], a) == Some(t) &&
             !a.Cancel?
    ensures Drops(s, a, t)
  {
    hide EndFile, Dropped;
    if s.pc.Dropping? {
      DroppedFrame(b, s, s.pc.cause);
    }
    EndFileFrame(b, s, true);
  }

  lemma DropDial(b: Batch, s: State, a: Action, t: State)
    requires s.i < |b.files| && InDial(s.pc) && StepDial(b, s, b.files[s.i], a) == Some(t)
    ensures Drops(s, a, t)
  {
    hide EndFile, Retry;
    EndFileFrame(b, s, false);
    RetryFrame(b, s);
  }

  lemma DropBetween(b: Batch, s: State, a: Action, t: State)
    requires s.i < |b.files| && StepInFile(b, s, b.files[s.i], a) == Some(t)
    requires !AtEnd(s.pc) && !InDial(s.pc) && !Online(s.pc)
    ensures Drops(s, a, t)
  {
    hide EndFile, EnterAttempt, StepTransfer, StepDial, StepAtEnd;
    EndFileFrame(b, s, false);
    EnterAttemptFrame(b, s.(attempt := 1));
    EnterAttemptFrame(b, s.(attempt := s.attempt + 1));
  }

  lemma InitIsQuiet(b: Batch)
    ensures !Dooms(Init(b).pc)
  {
  }

  lemma {:induction false} DropsHold(b: Batch, log: seq<Action>, s: State)
    requires Reaches(b, log, s)
    ensures Inv(b, s)
    ensures Count(IsDisconnect, log) + (if Dooms(s.pc) then 1 else 0) <=
            Count(FailsTransfer, log) + if s.pc.Halted? then 1 else 0
  {
    hide Inv, Step, Init;
    if log == [] {
      InvInit(b);
      InitIsQuiet(b);
    } else {
      var m := |log| - 1;
      var t := Run(b, Init(b), log[..m]).value;
      DropsHold(b, log[..m], t);
      InvStep(b, t, log[m], s);
      DropStep(b, t, log[m], s);
    }
  }

  /** A connection is reused until a transfer on it fails: over the whole batch, at most one more
      connect succeeds than delete, upload and verify calls fail. */
  lemma ConnectionsAreReused(b: Batch, log: seq<Action>, s: State)
    requires Reaches(b, log, s)
    ensures Number(Answered, Dials(log)) <= Count(FailsTransfer, log) + 1
  {
    hide Run, Init, Dials, Number, Count;
    DropsHold(b, log, s);
    ConnectionsAlternate(b, log, s);
  }

  // ---------------------------------------------------------------- when Done is sent

  /** Is the latest FileSuccess or FileError among these events a success? */
  predicate LastSucceeded(events: seq<Event>) {
    events != [] && (
      var last := events[|events| - 1];
      if last.FileSuccess? || last.FileError? then last.FileSuccess? else LastSucceeded(events[..|events| - 1]))
  }

  /** Except on the way through a transfer, and after the deferred disconnect, a connection is open
      exactly if the last file or attempt reported on was a success. */
  predicate OpenAfterSuccess(s: State, succeeded: bool) {
    && (!Online(s.pc) && !s.pc.Halted? ==> (s.connected <==> succeeded))
    && (s.pc.Dropping? ==> !succeeded)
  }

  function Verdict(a: Action, succeeded: bool): bool {
    if a.Send? && (a.event.FileSuccess? || a.event.FileError?) then a.event.FileSuccess? else succeeded
  }

  lemma OpenHolds(b: Batch, s: State, a: Action, t: State, succeeded: bool)
    requires Inv(b, s) && Step(b, s, a) == Some(t) && OpenAfterSuccess(s, succeeded)
    ensures OpenAfterSuccess(t, Verdict(a, succeeded))
  {
    hide Step, StepInFile, StepDial, StepTransfer, StepAtEnd, Inv, OpenAfterSuccess, Verdict;
    InvMeansPlace(b, s);
    if a.Cancel? {
      CancelOnly(b, s, t);
      OpenIfCanceled(s, succeeded);
    } else {
      StepKinds(b, s, a, t);
      if AtEnd(s.pc) {
        OpenAtEnd(b, s, a, t, succeeded);
      } else if InDial(s.pc) {
        OpenDial(b, s, a, t, succeeded);
      } else if Online(s.pc) {
        OnlineFacts(b, s, t);
        OpenTransfer(b, s, a, t, succeeded);
      } else {
        OpenBetween(b, s, a, t, succeeded);
      }
    }
  }

  lemma OpenIfCanceled(s: State, succeeded: bool)
    requires OpenAfterSuccess(s, succeeded)
    ensures OpenAfterSuccess(s.(canceled := true), Verdict(Cancel, succeeded))
  {
  }

  lemma OpenAtEnd(b: Batch, s: State, a: Action, t: State, succeeded: bool)
    requires AtEnd(s.pc) && StepAtEnd(b, s, a) == Some(t) && OpenAfterSuccess(s, succeeded)
    ensures OpenAfterSuccess(t, Verdict(a, succeeded))
  {
  }

  lemma OpenDial(b: Batch, s: State, a: Action, t: State, succeeded: bool)
    requires s.i < |b.files| && InDial(s.pc) && !s.connected && StepDial(b, s, b.files[s.i], a) == Some(t)
    requires OpenAfterSuccess(s, succeeded)
    ensures OpenAfterSuccess(t, Verdict(a, succeeded))
  {
    hide EndFile, Retry;
    EndFileFrame(b, s, false);
    RetryFrame(b, s);
  }

  lemma OpenTransfer(b: Batch, s: State, a: Action, t: State, succeeded: bool)
    requires s.i < |b.files| && Online(s.pc) && s.connected && StepTransfer(b, s, b.files[s.i], a) == Some(t)
    requires OpenAfterSuccess(s, succeeded)
    ensures OpenAfterSuccess(t, Verdict(a, succeeded))
  {
    hide EndFile, Dropped;
    if s.pc.Dropping? {
      DroppedFrame(b, s, s.pc.cause);
    }
    EndFileFrame(b, s, true);
  }

  lemma OpenBetween(b: Batch, s: State, a: Action, t: State, succeeded: bool)
    requires s.i < |b.files| && StepInFile(b, s, b.files[s.i], a) == Some(t) && OpenAfterSuccess(s, succeeded)
    requires !AtEnd(s.pc) && !InDial(s.pc) && !Online(s.pc)
    ensures OpenAfterSuccess(t, Verdict(a, succeeded))
  {
    hide EndFile, EnterAttempt, StepTransfer, StepDial, StepAtEnd;
    EndFileFrame(b, s, false);
    EnterAttemptFrame(b, s.(attempt := 1));
    EnterAttemptFrame(b, s.(attempt := s.attempt + 1));
  }

  lemma VerdictOne(log: seq<Action>, a: Action)
    ensures LastSucceeded(Events(log + [a])) == Verdict(a, LastSucceeded(Events(log)))
  {
    EventsOne(log, a);
    if a.Send? {
      assert (Events(log) + [a.event])[..|Events(log)|] == Events(log);
    }
  }

  lemma {:induction false} OpenAfterSuccessHolds(b: Batch, log: seq<Action>, s: State)
    requires Reaches(b, log, s)
    ensures Inv(b, s) && OpenAfterSuccess(s, LastSucceeded(Events(log)))
  {
    hide Inv, Step, Init, OpenAfterSuccess, Events, LastSucceeded;
    if log == [] {
      InvInit(b);
      OpenInit(b);
    } else {
      var m := |log| - 1;
      var t := Run(b, Init(b), log[..m]).value;
      OpenAfterSuccessHolds(b, log[..m], t);
      InvStep(b, t, log[m], s);
      OpenHolds(b, t, log[m], s, LastSucceeded(Events(log[..m])));
      VerdictOne(log[..m], log[m]);
      assert log[..m] + [log[m]] == log;
    }
  }

  lemma OpenInit(b: Batch)
    ensures OpenAfterSuccess(Init(b), LastSucceeded(Events([])))
  {
  }

  /** Done is sent with the connection still open exactly if the last file or attempt the worker
      reported on was a success; the worker then has its deferred disconnect left to do, and
      otherwise nothing. */
  lemma DoneBeforeDisconnect(b: Batch, log: seq<Action>, e: Event, t: State)
    requires e.Done? && Reaches(b, log + [Send(e)], t)
    ensures t.connected <==> LastSucceeded(Events(log))
    ensures t.pc == if LastSucceeded(Events(log)) then Closing else Halted
  {
    hide Init, OpenAfterSuccess, Events, LastSucceeded;
    RunOne(b, Init(b), log, Send(e));
    var s := Run(b, Init(b), log).value;
    OpenAfterSuccessHolds(b, log, s);
    hide Run, BreakerInv, TallyInv;
    StepKinds(b, s, Send(e), t);
    assert s.pc.Finishing? by { OnlyFinishingSendsDone(b, s, e, t); }
    FinishingIsOpen(s, LastSucceeded(Events(log)));
  }

  lemma OnlyFinishingSendsDone(b: Batch, s: State, e: Event, t: State)
    requires PlaceInv(b, s) && Step(b, s, Send(e)) == Some(t) && e.Done?
    ensures s.pc.Finishing?
  {
    hide EndFile, EnterAttempt, Retry, Dropped;
  }

  lemma FinishingIsOpen(s: State, succeeded: bool)
    requires OpenAfterSuccess(s, succeeded) && s.pc.Finishing?
    ensures s.connected <==> succeeded
  {
  }
}
