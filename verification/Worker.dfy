/** The endpoint worker of dispatch.go as a step machine.

    One action is one interaction of the worker with the outside world: a call on the
    uploader together with its outcome, an event sent, a look at the context, or a retry
    sleep.  `Cancel` is the outside world cancelling the context; it may come between any
    two actions.  Outcomes and progress callbacks are free: the uploader is adversarial. */
module Worker {
  import opened Types
  import opened Paths

  /** What one worker is given: its endpoint, the option it reads, and the files. */
  datatype Batch = Batch(ep: Endpoint, noVerify: bool, files: seq<string>)

  datatype Action =
    | Cancel
    | Poll(canceled: bool)
    | Connect(failure: Option<Error>)
    | Delete(name: string, failure: Option<Error>)
    | UploadBegin(local: string, name: string)
    | UploadEnd(failure: Option<Error>)
    | Verify(local: string, name: string, outcome: Result<string, Error>)
    | Disconnect
    | Send(event: Event)
    | Sleep
    | ProbeFile(failure: Option<Error>) // a dry run writes its local probe file

  /** Where the worker is.  Decisions that touch nothing outside are folded into the step
      before them, so every program counter waits for exactly one kind of action. */
  datatype Pc =
    | FilePoll               // about to look at the context before file i
    | Skipping               // about to report files i.. as unreachable
    | AttemptPoll            // about to look at the context before an attempt
    | Dialing                // about to connect
    | DialPoll(error: Error)   // connect failed; about to ask whether it was canceled
    | DialReport(error: Error) // about to report a counted connect failure
    | TripReport(error: Error) // breaker just tripped; about to explain giving up on the file
    | Napping                // about to wait before the next attempt
    | Starting               // about to announce the attempt
    | Deleting
    | UploadReady
    | Uploading
    | Verifying
    | Reporting(cause: Cause) // transfer failed; about to report it
    | Dropping(cause: Cause)  // transfer failed and reported; about to disconnect
    | Succeeding(verifyMethod: string)
    | GivingUp               // about to report files i+1.. as given up
    | Finishing              // about to send Done
    | Closing                // the deferred disconnect
    | Halted

  datatype State = State(
    pc: Pc,
    i: nat,
    attempt: int,
    connected: bool,
    failures: int,
    permanent: Option<Cause>,
    succeeded: int,
    failed: int,
    canceled: bool)

  // ---------------------------------------------------------------- decisions

  predicate CircuitOpen(b: Batch, s: State) {
    s.failures >= b.ep.policy.maxConnectFailures
  }

  /** The head of the loop over files. */
  function EnterFile(b: Batch, s: State): State {
    s.(pc := if s.i < |b.files| then FilePoll else Finishing)
  }

  /** The end of a file: tally it, then go on or, after a permanent error, abandon the rest. */
  function EndFile(b: Batch, s: State, ok: bool): State {
    var t := if ok then s.(succeeded := s.succeeded + 1) else s.(failed := s.failed + 1);
    if t.permanent.Some? then t.(pc := if t.i + 1 < |b.files| then GivingUp else Finishing)
    else EnterFile(b, t.(i := t.i + 1))
  }

  /** The head of the loop over attempts. */
  function EnterAttempt(b: Batch, s: State): State {
    if s.attempt <= b.ep.policy.attempts then s.(pc := AttemptPoll) else EndFile(b, s, false)
  }

  /** sleepBeforeRetry, then the next attempt. */
  function Retry(b: Batch, s: State): State {
    if s.attempt < b.ep.policy.attempts then s.(pc := Napping)
    else EnterAttempt(b, s.(attempt := s.attempt + 1))
  }

  /** After the failed transfer's connection is gone. */
  function Dropped(b: Batch, s: State, cause: Cause): State {
    var t := s.(connected := false);
    if Permanent(cause) then EndFile(b, t.(permanent := Some(cause)), false) else Retry(b, t)
  }

  predicate Permanent(cause: Cause) {
    !cause.BreakerCause? && cause.error.permission
  }

  function AfterStart(b: Batch, s: State): State {
    if b.ep.overwrite == DeleteFirst then s.(pc := Deleting) else s.(pc := UploadReady)
  }

  function AfterUpload(b: Batch, s: State): State {
    if b.noVerify then s.(pc := Succeeding("")) else s.(pc := Verifying)
  }

  function Init(b: Batch): State {
    EnterFile(b, State(FilePoll, 0, 0, false, 0, None, 0, 0, false))
  }

  // ---------------------------------------------------------------- one step

  /** The state after action `a`, or None when the worker does not do `a` in state `s`. */
  function Step(b: Batch, s: State, a: Action): Option<State> {
    if a.Cancel? then Some(s.(canceled := true))
    else if s.i < |b.files| then StepInFile(b, s, b.files[s.i], a)
    else StepAtEnd(b, s, a)
  }

  function StepAtEnd(b: Batch, s: State, a: Action): Option<State> {
    match s.pc
    case Finishing =>
      if a == Send(Done(b.ep.name, s.succeeded, s.failed))
      then Some(s.(pc := if s.connected then Closing else Halted)) else None
    case Closing => if a == Disconnect then Some(s.(pc := Halted, connected := false)) else None
    case _ => None
  }

  function StepInFile(b: Batch, s: State, file: string, a: Action): Option<State>
    requires s.i < |b.files|
  {
    match s.pc
    case FilePoll =>
      if a != Poll(s.canceled) then None
      else if s.canceled then Some(s.(pc := Finishing, failed := s.failed + |b.files| - s.i))
      else if CircuitOpen(b, s) then Some(s.(pc := Skipping))
      else Some(EnterAttempt(b, s.(attempt := 1)))
    case Skipping =>
      if a == Send(Unreachable(b.ep.name, s.failures, b.files[s.i..]))
      then Some(s.(pc := Finishing, failed := s.failed + |b.files| - s.i)) else None
    case AttemptPoll =>
      if a != Poll(s.canceled) then None
      else if s.canceled then Some(EndFile(b, s, false))
      else Some(s.(pc := if s.connected then Starting else Dialing))
    case GivingUp =>
      if s.permanent.Some? && a == Send(GivenUp(b.ep.name, s.permanent.value, b.files[s.i + 1..]))
      then Some(s.(pc := Finishing, failed := s.failed + |b.files| - s.i - 1)) else None
    case Napping => if a == Sleep then Some(EnterAttempt(b, s.(attempt := s.attempt + 1))) else None
    case Dialing => StepDial(b, s, file, a)
    case DialPoll(_) => StepDial(b, s, file, a)
    case DialReport(_) => StepDial(b, s, file, a)
    case TripReport(_) => StepDial(b, s, file, a)
    case Finishing => StepAtEnd(b, s, a)
    case Closing => StepAtEnd(b, s, a)
    case Halted => None
    case _ => StepTransfer(b, s, file, a)
  }

  /** connect and reportGivingUp. */
  function StepDial(b: Batch, s: State, file: string, a: Action): Option<State> {
    match s.pc
    case Dialing =>
      if !a.Connect? then None
      else if a.failure.Some? then Some(s.(pc := DialPoll(a.failure.value)))
      else Some(s.(pc := Starting, failures := 0, connected := true))
    case DialPoll(e) =>
      if a != Poll(s.canceled) then None
      else if s.canceled then Some(EndFile(b, s, false))
      else Some(s.(pc := DialReport(e), failures := s.failures + 1))
    case DialReport(e) =>
      if a != Send(FileError(b.ep.name, file, s.attempt, ConnectCause(e))) then None
      else if CircuitOpen(b, s) then Some(s.(pc := TripReport(e)))
      else Some(Retry(b, s))
    case TripReport(e) =>
      if a == Send(FileError(b.ep.name, file, s.attempt, BreakerCause(s.failures)))
      then Some(EndFile(b, s, false)) else None
    case _ => None
  }

  /** One announced attempt on the live connection: the transfer and what follows it. */
  function StepTransfer(b: Batch, s: State, file: string, a: Action): Option<State> {
    match s.pc
    case Starting =>
      if a == Send(FileStart(b.ep.name, file, s.attempt)) then Some(AfterStart(b, s)) else None
    case Deleting =>
      if !a.Delete? || a.name != Base(file) then None
      else if a.failure.Some? then Some(s.(pc := Reporting(DeleteCause(a.failure.value))))
      else Some(s.(pc := UploadReady))
    case UploadReady =>
      if a == UploadBegin(file, Base(file)) then Some(s.(pc := Uploading)) else None
    case Uploading =>
      if a.Send? && a.event.Progress? && a.event.endpoint == b.ep.name && a.event.file == file then Some(s)
      else if !a.UploadEnd? then None
      else if a.failure.Some? then Some(s.(pc := Reporting(UploadCause(a.failure.value))))
      else Some(AfterUpload(b, s))
    case Verifying =>
      if !a.Verify? || a.local != file || a.name != Base(file) then None
      else if a.outcome.Err? then Some(s.(pc := Reporting(VerifyCause(a.outcome.error))))
      else Some(s.(pc := Succeeding(a.outcome.value)))
    case Reporting(cause) =>
      if a != Send(FileError(b.ep.name, file, s.attempt, cause)) then None
      else if s.connected then Some(s.(pc := Dropping(cause)))
      else Some(Dropped(b, s, cause))
    case Dropping(cause) => if a == Disconnect then Some(Dropped(b, s, cause)) else None
    case Succeeding(verifyMethod) =>
      if a == Send(FileSuccess(b.ep.name, file, verifyMethod)) then Some(EndFile(b, s, true)) else None
    case _ => None
  }

  // ---------------------------------------------------------------- runs

  /** The state after doing the actions of `log` from `s`, or None when the worker would not. */
  function Run(b: Batch, s: State, log: seq<Action>): Option<State> {
    if log == [] then Some(s)
    else
      match Run(b, s, log[..|log| - 1])
      case None => None
      case Some(t) => Step(b, t, log[|log| - 1])
  }

  /** `log` is a run of the whole worker so far. */
  predicate Reaches(b: Batch, log: seq<Action>, s: State) {
    Run(b, Init(b), log) == Some(s)
  }

  lemma RunOne(b: Batch, s: State, log: seq<Action>, a: Action)
    ensures Run(b, s, log + [a]) ==
            match Run(b, s, log) case None => None case Some(t) => Step(b, t, a)
  {
    assert (log + [a])[..|log|] == log;
  }

  /** A run splits at any point. */
  lemma {:induction false} RunSplit(b: Batch, s: State, xs: seq<Action>, ys: seq<Action>)
    ensures Run(b, s, xs + ys) ==
            match Run(b, s, xs) case None => None case Some(t) => Run(b, t, ys)
  {
    if ys == [] {
      assert xs + ys == xs;
    } else {
      var m := |ys| - 1;
      assert xs + ys == (xs + ys[..m]) + [ys[m]];
      RunOne(b, s, xs + ys[..m], ys[m]);
      RunSplit(b, s, xs, ys[..m]);
    }
  }

  /** How many actions of a log satisfy a test. */
  function Count(p: Action -> bool, log: seq<Action>): (n: nat)
    ensures n <= |log|
  {
    if log == [] then 0
    else Count(p, log[..|log| - 1]) + if p(log[|log| - 1]) then 1 else 0
  }

  /** The events a log sends, in order. */
  function Events(log: seq<Action>): seq<Event> {
    if log == [] then []
    else
      var before := Events(log[..|log| - 1]);
      var last := log[|log| - 1];
      if last.Send? then before + [last.event] else before
  }

  lemma EventsOne(log: seq<Action>, a: Action)
    ensures Events(log + [a]) == if a.Send? then Events(log) + [a.event] else Events(log)
  {
    assert (log + [a])[..|log|] == log;
  }

  /** The calls on the uploader; an upload counts once, where it begins. */
  predicate IsCall(a: Action) {
    a.Connect? || a.Delete? || a.UploadBegin? || a.Verify? || a.Disconnect?
  }
}
