/** How long a worker can run and how much it can say, what its events add up to, and that it
    is never stuck. */
module WorkerLength {
  import opened Types
  import opened Paths
  import opened Worker
  import opened WorkerSafety

  // ---------------------------------------------------------------- fuel

  /** What is metered: every step the worker takes of its own accord, or the events it sends,
      progress aside. */
  datatype Meter = OwnSteps | OwnEvents

  predicate IsProgress(a: Action) {
    a.Send? && a.event.Progress?
  }

  function Charge(m: Meter, a: Action): nat {
    if a.Cancel? || IsProgress(a) || (m.OwnEvents? && !a.Send?) then 0 else 1
  }

  function PerAttempt(m: Meter): nat { if m.OwnSteps? then 16 else 2 }

  function PerFile(m: Meter, b: Batch): nat {
    PerAttempt(m) * Tries(b) + if m.OwnSteps? then 1 else 0
  }

  function PerBatch(m: Meter): nat { if m.OwnSteps? then 3 else 2 }

  /** Steps left in the current attempt, or at the end of the batch. */
  function StepsHere(pc: Pc): nat {
    match pc
    case AttemptPoll => 15
    case Dialing => 14
    case DialPoll(_) => 13
    case DialReport(_) => 12
    case TripReport(_) => 11
    case Starting => 10
    case Deleting => 9
    case UploadReady => 8
    case Uploading => 7
    case Verifying => 6
    case Reporting(_) => 5
    case Dropping(_) => 4
    case Succeeding(_) => 4
    case Napping => 3
    case Skipping => 3
    case GivingUp => 3
    case Finishing => 2
    case Closing => 1
    case _ => 0
  }

  /** Events left in the current attempt, or at the end of the batch. */
  function EventsHere(pc: Pc): nat {
    if pc.AttemptPoll? || pc.Dialing? || pc.DialPoll? || pc.DialReport? || pc.Starting? then 2
    else if pc.Skipping? || pc.GivingUp? then 2
    else if pc.Dropping? || pc.Napping? || pc.FilePoll? || pc.Closing? || pc.Halted? then 0
    else 1
  }

  function Here(m: Meter, pc: Pc): nat {
    if m.OwnSteps? then StepsHere(pc) else EventsHere(pc)
  }

  function Fuel(m: Meter, b: Batch, s: State): int {
    if InAttempt(s.pc) then
      Files(m, b, |b.files| - s.i - 1) + PerAttempt(m) * (b.ep.policy.attempts - s.attempt) + Here(m, s.pc)
    else if s.pc.FilePoll? then Files(m, b, |b.files| - s.i)
    else Here(m, s.pc)
  }

  /** Enough for `k` files and the end of the batch. */
  function Files(m: Meter, b: Batch, k: int): int {
    PerFile(m, b) * k + PerBatch(m)
  }

  lemma OneFileLess(m: Meter, b: Batch, k: int)
    ensures Files(m, b, k) == Files(m, b, k - 1) + PerFile(m, b)
    ensures 1 <= k ==> Files(m, b, k) >= PerFile(m, b) + PerBatch(m)
    ensures 0 <= k ==> Files(m, b, k) >= PerBatch(m)
  {
    assert PerFile(m, b) * k == PerFile(m, b) * (k - 1) + PerFile(m, b);
    if 1 <= k {
      assert PerFile(m, b) * (k - 1) >= 0;
    }
  }

  /** Leaving a file costs no more than what is set aside for the files after it. */
  lemma FuelEndFile(m: Meter, b: Batch, s: State, ok: bool)
    requires s.i < |b.files|
    ensures Fuel(m, b, EndFile(b, s, ok)) <= Files(m, b, |b.files| - s.i - 1)
  {
    OneFileLess(m, b, |b.files| - s.i - 1);
  }

  lemma FuelEnterAttempt(m: Meter, b: Batch, s: State)
    requires s.i < |b.files| && 1 <= s.attempt <= b.ep.policy.attempts + 1
    ensures var rest := PerAttempt(m) * (b.ep.policy.attempts - s.attempt + 1);
            Fuel(m, b, EnterAttempt(b, s)) <=
            Files(m, b, |b.files| - s.i - 1) + rest
            - (if m.OwnSteps? && s.attempt <= b.ep.policy.attempts then 1 else 0)
  {
    FuelEndFile(m, b, s, false);
  }

  lemma FuelRetry(m: Meter, b: Batch, s: State)
    requires s.i < |b.files| && 1 <= s.attempt <= b.ep.policy.attempts
    ensures Fuel(m, b, Retry(b, s)) <=
            Files(m, b, |b.files| - s.i - 1) + PerAttempt(m) * (b.ep.policy.attempts - s.attempt)
            + if m.OwnSteps? then 3 else 0
  {
    FuelEnterAttempt(m, b, s.(attempt := s.attempt + 1));
  }

  predicate Burns(m: Meter, b: Batch, s: State, a: Action, t: State) {
    Charge(m, a) + Fuel(m, b, t) <= Fuel(m, b, s)
  }

  lemma BurnDial(m: Meter, b: Batch, s: State, a: Action, t: State)
    requires Inv(b, s) && s.i < |b.files| && InDial(s.pc) && StepDial(b, s, b.files[s.i], a) == Some(t)
    ensures Burns(m, b, s, a, t)
  {
    hide EndFile, Retry, Files, BreakerInv, TallyInv;
    FuelEndFile(m, b, s, false);
    FuelRetry(m, b, s);
  }

  lemma BurnTransfer(m: Meter, b: Batch, s: State, a: Action, t: State)
    requires s.i < |b.files| && Online(s.pc) && s.connected && !a.Cancel?
    requires 1 <= s.attempt <= b.ep.policy.attempts
    requires StepTransfer(b, s, b.files[s.i], a) == Some(t)
    ensures Burns(m, b, s, a, t)
  {
    hide Burns, StepTransfer;
    if s.pc.Dropping? || s.pc.Succeeding? {
      BurnOutcome(m, b, s, a, t);
    } else {
      BurnCall(m, b, s, a, t);
    }
  }

  lemma BurnCall(m: Meter, b: Batch, s: State, a: Action, t: State)
    requires s.i < |b.files| && Online(s.pc) && s.connected && !a.Cancel?
    requires !s.pc.Dropping? && !s.pc.Succeeding?
    requires StepTransfer(b, s, b.files[s.i], a) == Some(t)
    ensures Burns(m, b, s, a, t)
  {
    hide Files, EndFile, Dropped, Base;
  }

  lemma BurnOutcome(m: Meter, b: Batch, s: State, a: Action, t: State)
    requires s.i < |b.files| && (s.pc.Dropping? || s.pc.Succeeding?) && !a.Cancel?
    requires 1 <= s.attempt <= b.ep.policy.attempts
    requires StepTransfer(b, s, b.files[s.i], a) == Some(t)
    ensures Burns(m, b, s, a, t)
  {
    hide EndFile, Retry, Files;
    if s.pc.Dropping? {
      var u := s.(connected := false);
      FuelEndFile(m, b, u.(permanent := Some(s.pc.cause)), false);
      FuelRetry(m, b, u);
    } else {
      FuelEndFile(m, b, s, true);
    }
  }

  lemma BurnBetween(m: Meter, b: Batch, s: State, a: Action, t: State)
    requires PlaceInv(b, s) && s.i < |b.files| && StepInFile(b, s, b.files[s.i], a) == Some(t)
    requires !AtEnd(s.pc) && !InDial(s.pc) && !Online(s.pc)
    ensures Burns(m, b, s, a, t)
  {
    hide Burns, StepInFile;
    if s.pc.AttemptPoll? || s.pc.Napping? {
      BurnLooking(m, b, s, a, t);
    } else if s.pc.FilePoll? {
      BurnPoll(m, b, s, a, t);
    } else {
      BurnSkip(m, b, s, a, t);
    }
  }

  lemma BurnSkip(m: Meter, b: Batch, s: State, a: Action, t: State)
    requires s.i < |b.files| && StepInFile(b, s, b.files[s.i], a) == Some(t) && (s.pc.Skipping? || s.pc.GivingUp?)
    ensures Burns(m, b, s, a, t)
  {
    hide EndFile, EnterAttempt, Files, StepDial, StepTransfer, StepAtEnd;
  }

  lemma BurnEnd(m: Meter, b: Batch, s: State, a: Action, t: State)
    requires AtEnd(s.pc) && StepAtEnd(b, s, a) == Some(t)
    ensures Burns(m, b, s, a, t)
  {
    hide Files;
  }

  lemma BurnLooking(m: Meter, b: Batch, s: State, a: Action, t: State)
    requires PlaceInv(b, s) && s.i < |b.files| && StepInFile(b, s, b.files[s.i], a) == Some(t)
    requires s.pc.AttemptPoll? || s.pc.Napping?
    ensures Burns(m, b, s, a, t)
  {
    hide EndFile, EnterAttempt, Files, StepDial, StepTransfer;
    if s.pc.AttemptPoll? {
      FuelEndFile(m, b, s, false);
    } else {
      FuelEnterAttempt(m, b, s.(attempt := s.attempt + 1));
    }
  }

  lemma BurnPoll(m: Meter, b: Batch, s: State, a: Action, t: State)
    requires PlaceInv(b, s) && s.i < |b.files| && StepInFile(b, s, b.files[s.i], a) == Some(t) && s.pc.FilePoll?
    ensures Burns(m, b, s, a, t)
  {
    hide EndFile, EnterAttempt, Files, StepDial, StepTransfer;
    OneFileLess(m, b, |b.files| - s.i);
    FuelFirstAttempt(m, b, s);
  }

  lemma FuelFirstAttempt(m: Meter, b: Batch, s: State)
    requires s.i < |b.files|
    ensures Fuel(m, b, EnterAttempt(b, s.(attempt := 1))) <=
            Files(m, b, |b.files| - s.i) - if m.OwnSteps? then 1 else 0
  {
    hide EndFile, Files;
    OneFileLess(m, b, |b.files| - s.i);
    if 0 <= b.ep.policy.attempts {
      FuelEnterAttempt(m, b, s.(attempt := 1));
    } else {
      FuelEndFile(m, b, s.(attempt := 1), false);
    }
  }

  lemma BurnStep(m: Meter, b: Batch, s: State, a: Action, t: State)
    requires Inv(b, s) && Step(b, s, a) == Some(t)
    ensures Burns(m, b, s, a, t)
  {
    hide Step, StepInFile, StepDial, StepTransfer, StepAtEnd, BreakerInv, TallyInv, Burns;
    if a.Cancel? {
      CancelOnly(b, s, t);
      BurnNothing(m, b, s);
    } else {
      StepKinds(b, s, a, t);
      if AtEnd(s.pc) {
        BurnEnd(m, b, s, a, t);
      } else if InDial(s.pc) {
        BurnDial(m, b, s, a, t);
      } else if Online(s.pc) {
        BurnTransfer(m, b, s, a, t);
      } else {
        BurnBetween(m, b, s, a, t);
      }
    }
  }

  lemma BurnNothing(m: Meter, b: Batch, s: State)
    ensures Burns(m, b, s, Cancel, s.(canceled := true))
  {
    hide Files;
  }

  function Charges(m: Meter, log: seq<Action>): nat {
    if log == [] then 0 else Charges(m, log[..|log| - 1]) + Charge(m, log[|log| - 1])
  }

  lemma FuelFloor(m: Meter, b: Batch, s: State)
    requires Inv(b, s)
    ensures 0 <= Fuel(m, b, s)
  {
    OneFileLess(m, b, |b.files| - s.i);
    OneFileLess(m, b, |b.files| - s.i - 1);
  }

  lemma {:induction false} BurnRun(m: Meter, b: Batch, s: State, log: seq<Action>, t: State)
    requires Inv(b, s) && Run(b, s, log) == Some(t)
    ensures Inv(b, t) && Charges(m, log) + Fuel(m, b, t) <= Fuel(m, b, s)
  {
    hide Inv, Step, Fuel, Charge;
    if log != [] {
      var k := |log| - 1;
      var u := Run(b, s, log[..k]).value;
      BurnRun(m, b, s, log[..k], u);
      InvStep(b, u, log[k], t);
      BurnStep(m, b, u, log[k], t);
      assert Burns(m, b, u, log[k], t);
    }
  }

  /** In every run a worker sends at most two events per attempt, beyond progress, plus two for
      the batch; and it takes at most sixteen steps of its own per attempt, one per file and
      three for the batch.  So it runs forever only if some upload calls back forever. */
  lemma RunsAreBounded(b: Batch, log: seq<Action>, s: State)
    requires Reaches(b, log, s)
    ensures Charges(OwnEvents, log) <= 2 * Tries(b) * |b.files| + 2
    ensures Charges(OwnSteps, log) <= (16 * Tries(b) + 1) * |b.files| + 3
  {
    hide Inv, Run, Charges;
    InvInit(b);
    BurnRun(OwnEvents, b, Init(b), log, s);
    BurnRun(OwnSteps, b, Init(b), log, s);
    FuelFloor(OwnEvents, b, s);
    FuelFloor(OwnSteps, b, s);
  }

  // ---------------------------------------------------------------- never stuck

  /** What the worker waits to do next; `failure`, `m` and the like are the outside world's choice. */
  function Next(b: Batch, s: State, failure: Option<Error>): Action
    requires Inv(b, s) && !s.pc.Halted?
  {
    match s.pc
    case FilePoll => Poll(s.canceled)
    case Skipping => Send(Unreachable(b.ep.name, s.failures, b.files[s.i..]))
    case AttemptPoll => Poll(s.canceled)
    case Dialing => Connect(failure)
    case DialPoll(_) => Poll(s.canceled)
    case DialReport(e) => Send(FileError(b.ep.name, b.files[s.i], s.attempt, ConnectCause(e)))
    case TripReport(_) => Send(FileError(b.ep.name, b.files[s.i], s.attempt, BreakerCause(s.failures)))
    case Napping => Sleep
    case Starting => Send(FileStart(b.ep.name, b.files[s.i], s.attempt))
    case Deleting => Delete(Base(b.files[s.i]), failure)
    case UploadReady => UploadBegin(b.files[s.i], Base(b.files[s.i]))
    case Uploading => UploadEnd(failure)
    case Verifying =>
      Verify(b.files[s.i], Base(b.files[s.i]), if failure.Some? then Err(failure.value) else Ok("size"))
    case Reporting(cause) => Send(FileError(b.ep.name, b.files[s.i], s.attempt, cause))
    case Dropping(_) => Disconnect
    case Succeeding(m) => Send(FileSuccess(b.ep.name, b.files[s.i], m))
    case GivingUp => Send(GivenUp(b.ep.name, s.permanent.value, b.files[s.i + 1..]))
    case Finishing => Send(Done(b.ep.name, s.succeeded, s.failed))
    case Closing => Disconnect
    case Halted => Sleep
  }

  lemma NextIsReady(b: Batch, s: State, failure: Option<Error>)
    requires Inv(b, s) && !s.pc.Halted?
    ensures Step(b, s, Next(b, s, failure)).Some? && !Next(b, s, failure).Cancel?
  {
    hide Base, EndFile, EnterAttempt, Retry, Dropped, BreakerInv, TallyInv;
  }

  /** Until it has returned a worker always has a step to take, whatever the outside world
      answers to it. */
  lemma NeverStuck(b: Batch, log: seq<Action>, s: State, failure: Option<Error>)
    requires Reaches(b, log, s) && !s.pc.Halted?
    ensures Inv(b, s) && Step(b, s, Next(b, s, failure)).Some?
  {
    hide Run, Inv, Step;
    InvHolds(b, log, s);
    NextIsReady(b, s, failure);
  }

  // ---------------------------------------------------------------- what the events add up to

  function SuccessCount(events: seq<Event>): nat {
    if events == [] then 0
    else SuccessCount(events[..|events| - 1]) + if events[|events| - 1].FileSuccess? then 1 else 0
  }

  lemma SuccessOne(events: seq<Event>, e: Event)
    ensures SuccessCount(events + [e]) == SuccessCount(events) + if e.FileSuccess? then 1 else 0
  {
    assert (events + [e])[..|events|] == events;
  }

  predicate EventsInv(b: Batch, s: State, events: seq<Event>) {
    && (forall k :: 0 <= k < |events| ==> events[k].endpoint == b.ep.name && !events[k].DryRun?)
    && SuccessCount(events) == s.succeeded
    && (if s.pc.Closing? || s.pc.Halted?
        then events != [] && events[|events| - 1] == Done(b.ep.name, s.succeeded, s.failed)
             && forall k :: 0 <= k < |events| - 1 ==> !events[k].Done?
        else forall k :: 0 <= k < |events| ==> !events[k].Done?)
  }

  lemma {:induction false} EventsHold(b: Batch, log: seq<Action>, s: State)
    requires Reaches(b, log, s)
    ensures Inv(b, s) && EventsInv(b, s, Events(log))
  {
    hide Inv, Step, Init;
    if log == [] {
      InvInit(b);
      assert EventsInv(b, Init(b), []) by { EventsInit(b); }
    } else {
      var m := |log| - 1;
      var t := Run(b, Init(b), log[..m]).value;
      hide EventsInv;
      EventsHold(b, log[..m], t);
      InvStep(b, t, log[m], s);
      EventsStep(b, t, log[m], s, Events(log[..m]));
    }
  }

  lemma EventsInit(b: Batch)
    ensures EventsInv(b, Init(b), [])
  {
  }

  predicate Reported(pc: Pc) {
    pc.Closing? || pc.Halted?
  }

  /** How a step changes what the events must add up to. */
  predicate Sends(b: Batch, s: State, a: Action, t: State) {
    && (a.Send? ==> a.event.endpoint == b.ep.name && !a.event.DryRun?)
    && t.succeeded == s.succeeded + (if a.Send? && a.event.FileSuccess? then 1 else 0)
    && (Reported(t.pc) <==> Reported(s.pc) || (a.Send? && a.event.Done?))
    && (Reported(s.pc) ==> !a.Send? && t.failed == s.failed)
    && (a.Send? && a.event.Done? ==> a.event == Done(b.ep.name, t.succeeded, t.failed))
  }

  lemma SendStep(b: Batch, s: State, a: Action, t: State)
    requires Inv(b, s) && Step(b, s, a) == Some(t)
    ensures Sends(b, s, a, t)
  {
    hide Step, StepInFile, StepDial, StepTransfer, StepAtEnd, BreakerInv, TallyInv, Sends;
    if a.Cancel? {
      CancelOnly(b, s, t);
      SendNothing(b, s);
    } else {
      StepKinds(b, s, a, t);
      if AtEnd(s.pc) {
        SendAtEnd(b, s, a, t);
      } else if InDial(s.pc) {
        SendDial(b, s, a, t);
      } else if Online(s.pc) {
        SendTransfer(b, s, a, t);
      } else {
        SendBetween(b, s, a, t);
      }
    }
  }

  lemma SendNothing(b: Batch, s: State)
    ensures Sends(b, s, Cancel, s.(canceled := true))
  {
  }

  lemma SendAtEnd(b: Batch, s: State, a: Action, t: State)
    requires AtEnd(s.pc) && StepAtEnd(b, s, a) == Some(t)
    ensures Sends(b, s, a, t)
  {
  }

  lemma SendBetween(b: Batch, s: State, a: Action, t: State)
    requires s.i < |b.files| && StepInFile(b, s, b.files[s.i], a) == Some(t)
    requires !AtEnd(s.pc) && !InDial(s.pc) && !Online(s.pc)
    ensures Sends(b, s, a, t)
  {
    hide StepTransfer, StepDial, StepAtEnd, EndFile, EnterAttempt;
    FileTally(b, s);
    EnterTally(b, s.(attempt := 1));
    EnterTally(b, s.(attempt := s.attempt + 1));
  }

  lemma FileTally(b: Batch, s: State)
    ensures EndFile(b, s, false).succeeded == s.succeeded && !Reported(EndFile(b, s, false).pc)
    ensures EndFile(b, s, true).succeeded == s.succeeded + 1 && !Reported(EndFile(b, s, true).pc)
  {
  }

  lemma EnterTally(b: Batch, s: State)
    ensures EnterAttempt(b, s).succeeded == s.succeeded && !Reported(EnterAttempt(b, s).pc)
  {
    FileTally(b, s);
  }

  lemma SendDial(b: Batch, s: State, a: Action, t: State)
    requires s.i < |b.files| && InDial(s.pc) && StepDial(b, s, b.files[s.i], a) == Some(t)
    ensures Sends(b, s, a, t)
  {
    hide EndFile, EnterAttempt;
    FileTally(b, s);
    EnterTally(b, s.(attempt := s.attempt + 1));
  }

  lemma SendTransfer(b: Batch, s: State, a: Action, t: State)
    requires s.i < |b.files| && Online(s.pc) && s.connected && StepTransfer(b, s, b.files[s.i], a) == Some(t)
    ensures Sends(b, s, a, t)
  {
    hide EndFile, EnterAttempt;
    if s.pc.Dropping? {
      var u := s.(connected := false);
      FileTally(b, u.(permanent := Some(s.pc.cause)));
      EnterTally(b, u.(attempt := u.attempt + 1));
    } else {
      hide Dropped;
      FileTally(b, s);
    }
  }

  lemma EventsStep(b: Batch, s: State, a: Action, t: State, events: seq<Event>)
    requires Inv(b, s) && Step(b, s, a) == Some(t) && EventsInv(b, s, events)
    ensures EventsInv(b, t, if a.Send? then events + [a.event] else events)
  {
    hide Inv, Step;
    SendStep(b, s, a, t);
    if a.Send? {
      assert (events + [a.event])[..|events|] == events;
    }
  }

  /** A worker that has returned has sent exactly one Done, last, and its counts are exact:
      Succeeded is the number of FileSuccess events, Failed is every other file. */
  lemma DoneAddsUp(b: Batch, log: seq<Action>, s: State)
    requires Reaches(b, log, s) && s.pc.Halted?
    ensures var events := Events(log);
            events != []
            && events[|events| - 1] == Done(b.ep.name, SuccessCount(events), |b.files| - SuccessCount(events))
            && (forall k :: 0 <= k < |events| - 1 ==> !events[k].Done?)
            && (forall k :: 0 <= k < |events| ==> events[k].endpoint == b.ep.name)
            && SuccessCount(events) <= |b.files|
  {
    hide Run, PlaceInv, BreakerInv, Events;
    EventsHold(b, log, s);
  }
}
