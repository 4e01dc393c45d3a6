/** What every step of a worker keeps, and what follows for whole runs: the tally, the
    circuit breaker, the connection discipline, and the length of a run. */
module WorkerSafety {
  import opened Types
  import opened Worker

  // ---------------------------------------------------------------- the invariant

  predicate AtEnd(pc: Pc) {
    pc.Finishing? || pc.Closing? || pc.Halted?
  }

  predicate InAttempt(pc: Pc) {
    !AtEnd(pc) && !pc.FilePoll? && !pc.Skipping? && !pc.GivingUp?
  }

  predicate Online(pc: Pc) {
    InAttempt(pc) && !pc.AttemptPoll? && !Offline(pc)
  }

  predicate Offline(pc: Pc) {
    pc.Dialing? || pc.DialPoll? || pc.DialReport? || pc.TripReport? || pc.Napping? || pc.GivingUp? || pc.Halted?
  }

  function Limit(b: Batch): nat {
    if b.ep.policy.maxConnectFailures < 0 then 0 else b.ep.policy.maxConnectFailures
  }

  function Tries(b: Batch): nat {
    if b.ep.policy.attempts < 0 then 0 else b.ep.policy.attempts
  }

  predicate BreakerInv(b: Batch, s: State) {
    && 0 <= s.failures <= Limit(b)
    && (s.connected ==> s.failures == 0 && 0 < Limit(b))
    && (InAttempt(s.pc) && !s.pc.DialReport? && !s.pc.TripReport? ==> s.failures < Limit(b))
    && (s.pc.DialReport? ==> 0 < s.failures)
    && (s.pc.TripReport? || s.pc.Skipping? ==> s.failures == Limit(b))
  }

  predicate PlaceInv(b: Batch, s: State) {
    && s.i <= |b.files|
    && (!AtEnd(s.pc) ==> s.i < |b.files|)
    && (InAttempt(s.pc) ==> 1 <= s.attempt <= b.ep.policy.attempts)
    && (s.pc.Napping? ==> s.attempt < b.ep.policy.attempts)
    && (s.pc.GivingUp? ==> s.i + 1 < |b.files| && s.permanent.Some?)
    && (s.permanent.Some? ==> (s.pc.GivingUp? || AtEnd(s.pc)) && !s.connected)
    && (Online(s.pc) || s.pc.Closing? ==> s.connected)
    && (Offline(s.pc) ==> !s.connected)
    && (s.pc.AttemptPoll? && 1 < s.attempt ==> !s.connected)
  }

  predicate TallyInv(b: Batch, s: State) {
    && 0 <= s.succeeded && 0 <= s.failed
    && s.succeeded + s.failed ==
       if AtEnd(s.pc) then |b.files| else if s.pc.GivingUp? then s.i + 1 else s.i
  }

  predicate Inv(b: Batch, s: State) {
    PlaceInv(b, s) && BreakerInv(b, s) && TallyInv(b, s)
  }

  lemma InvInit(b: Batch)
    ensures Inv(b, Init(b))
  {
  }

  /** Good enough to leave the current file from. */
  predicate Leaving(b: Batch, s: State) {
    && s.i < |b.files|
    && 0 <= s.succeeded && 0 <= s.failed && s.succeeded + s.failed == s.i
    && 0 <= s.failures <= Limit(b)
    && (s.connected ==> s.failures == 0 && 0 < Limit(b))
    && (s.permanent.Some? ==> !s.connected)
  }

  lemma InvEndFile(b: Batch, s: State, ok: bool)
    requires Leaving(b, s)
    ensures Inv(b, EndFile(b, s, ok))
  {
  }

  lemma InvEnterAttempt(b: Batch, s: State)
    requires Leaving(b, s) && s.permanent.None?
    requires 1 <= s.attempt && s.failures < Limit(b) && (1 < s.attempt ==> !s.connected)
    ensures Inv(b, EnterAttempt(b, s))
  {
    InvEndFile(b, s, false);
  }

  lemma InvRetry(b: Batch, s: State)
    requires Leaving(b, s) && s.permanent.None?
    requires 1 <= s.attempt && s.failures < Limit(b) && !s.connected
    ensures Inv(b, Retry(b, s))
  {
    InvEnterAttempt(b, s.(attempt := s.attempt + 1));
  }

  lemma InvDial(b: Batch, s: State, a: Action, t: State)
    requires Inv(b, s) && s.i < |b.files| && StepDial(b, s, b.files[s.i], a) == Some(t)
    ensures Inv(b, t)
  {
    match s.pc
    case Dialing =>
    case DialPoll(_) => InvEndFile(b, s, false);
    case DialReport(_) => if !CircuitOpen(b, s) { InvRetry(b, s); }
    case TripReport(_) => InvEndFile(b, s, false);
  }

  lemma InvDropped(b: Batch, s: State, cause: Cause)
    requires Leaving(b, s) && s.permanent.None? && 1 <= s.attempt && s.failures < Limit(b)
    ensures Inv(b, Dropped(b, s, cause))
  {
    hide EndFile, Retry;
    var t := s.(connected := false);
    if Permanent(cause) { InvEndFile(b, t.(permanent := Some(cause)), false); } else { InvRetry(b, t); }
  }

  lemma InvMeansPlace(b: Batch, s: State)
    requires Inv(b, s)
    ensures PlaceInv(b, s)
  {
  }

  lemma OnlineFacts(b: Batch, s: State, t: State)
    requires Inv(b, s)
    ensures Online(s.pc) ==>
      Leaving(b, s) && s.permanent.None? && 1 <= s.attempt && s.failures < Limit(b) && s.connected
    ensures Online(s.pc) && Online(t.pc) && t == s.(pc := t.pc) ==> Inv(b, t)
  {
  }

  lemma InvTransfer(b: Batch, s: State, a: Action, t: State)
    requires Inv(b, s) && Online(s.pc) && StepTransfer(b, s, b.files[s.i], a) == Some(t)
    ensures Inv(b, t)
  {
    hide EndFile, Dropped, Inv, Leaving;
    OnlineFacts(b, s, t);
    match s.pc
    case Dropping(cause) => InvDropped(b, s, cause);
    case Succeeding(_) => InvEndFile(b, s, true);
    case _ =>
  }

  lemma InvStep(b: Batch, s: State, a: Action, t: State)
    requires Inv(b, s) && Step(b, s, a) == Some(t)
    ensures Inv(b, t)
  {
    hide Step, StepInFile, StepDial, StepTransfer, StepAtEnd, Inv;
    InvMeansPlace(b, s);
    if a.Cancel? {
      CancelOnly(b, s, t);
      InvCanceled(b, s);
    } else {
      StepKinds(b, s, a, t);
      if AtEnd(s.pc) {
        InvAtEnd(b, s, a, t);
      } else if InDial(s.pc) {
        InvDial(b, s, a, t);
      } else if Online(s.pc) {
        InvTransfer(b, s, a, t);
      } else {
        InvBetween(b, s, a, t);
      }
    }
  }

  lemma InvCanceled(b: Batch, s: State)
    requires Inv(b, s)
    ensures Inv(b, s.(canceled := true))
  {
  }

  lemma InvAtEnd(b: Batch, s: State, a: Action, t: State)
    requires Inv(b, s) && AtEnd(s.pc) && StepAtEnd(b, s, a) == Some(t)
    ensures Inv(b, t)
  {
  }

  lemma InvBetween(b: Batch, s: State, a: Action, t: State)
    requires Inv(b, s) && s.i < |b.files| && StepInFile(b, s, b.files[s.i], a) == Some(t)
    requires !AtEnd(s.pc) && !InDial(s.pc) && !Online(s.pc)
    ensures Inv(b, t)
  {
    hide EndFile, EnterAttempt, StepDial, StepTransfer, StepAtEnd;
    if s.pc.FilePoll? && !s.canceled && !CircuitOpen(b, s) {
      InvEnterAttempt(b, s.(attempt := 1));
    } else if s.pc.AttemptPoll? {
      InvEndFile(b, s, false);
    } else if s.pc.Napping? {
      InvEnterAttempt(b, s.(attempt := s.attempt + 1));
    }
  }

  /** Every state a worker can be in, for any outcomes and any cancellation, satisfies Inv. */
  lemma {:induction false} InvHolds(b: Batch, log: seq<Action>, s: State)
    requires Reaches(b, log, s)
    ensures Inv(b, s)
  {
    hide Inv, Step, Init;
    if log == [] {
      InvInit(b);
    } else {
      var m := |log| - 1;
      var t := Run(b, Init(b), log[..m]).value;
      InvHolds(b, log[..m], t);
      InvStep(b, t, log[m], s);
    }
  }

  predicate InDial(pc: Pc) {
    pc.Dialing? || pc.DialPoll? || pc.DialReport? || pc.TripReport?
  }

  /** Which part of the machine takes a step. */
  lemma StepKinds(b: Batch, s: State, a: Action, t: State)
    requires PlaceInv(b, s) && Step(b, s, a) == Some(t) && !a.Cancel?
    ensures AtEnd(s.pc) ==> StepAtEnd(b, s, a) == Some(t)
    ensures !AtEnd(s.pc) ==> s.i < |b.files| && StepInFile(b, s, b.files[s.i], a) == Some(t)
    ensures InDial(s.pc) ==> StepDial(b, s, b.files[s.i], a) == Some(t)
    ensures Online(s.pc) ==> StepTransfer(b, s, b.files[s.i], a) == Some(t)
  {
    hide EndFile, EnterAttempt, StepDial, StepTransfer, StepAtEnd;
  }

  lemma CancelOnly(b: Batch, s: State, t: State)
    requires Step(b, s, Cancel) == Some(t)
    ensures t == s.(canceled := true)
  {
  }

  // ---------------------------------------------------------------- what one step touches

  predicate TransferCall(a: Action) {
    a.Delete? || a.UploadBegin? || a.UploadEnd? || a.Verify?
  }

  /** The connection and the breaker counter move at Connect, Disconnect and the poll after a
      failed Connect, and nowhere else. */
  predicate Moves(s: State, a: Action, t: State) {
    && (a.Connect? ==> s.pc.Dialing? && t == if a.failure.None?
        then s.(pc := Starting, failures := 0, connected := true) else s.(pc := DialPoll(a.failure.value)))
    && (a.Disconnect? ==> s.connected && !t.connected && (s.pc.Dropping? || t.pc.Halted?))
    && (!a.Connect? && !a.Disconnect? ==> t.connected == s.connected)
    && (!a.Connect? ==> t.failures == s.failures + if a == Poll(false) && s.pc.DialPoll? then 1 else 0)
    && (t.pc.DialPoll? <==> (a.Connect? && a.failure.Some?) || (s.pc.DialPoll? && a.Cancel?))
    && (s.pc.DialPoll? ==> a.Poll? || a.Cancel?)
    && (TransferCall(a) ==> s.connected)
  }

  lemma Footprint(b: Batch, s: State, a: Action, t: State)
    requires Inv(b, s) && Step(b, s, a) == Some(t)
    ensures Moves(s, a, t)
  {
    hide Step, StepInFile, StepDial, StepTransfer, StepAtEnd, Inv, Moves;
    OnlineFacts(b, s, t);
    InvMeansPlace(b, s);
    if a.Cancel? {
      CancelOnly(b, s, t);
      CancelFootprint(s);
    } else {
      StepKinds(b, s, a, t);
      if AtEnd(s.pc) {
        EndFootprint(b, s, a, t);
      } else if InDial(s.pc) {
        DialFootprint(b, s, a, t);
      } else if Online(s.pc) {
        TransferFootprint(b, s, a, t);
      } else {
        BetweenFootprint(b, s, a, t);
      }
    }
  }

  lemma CancelFootprint(s: State)
    ensures Moves(s, Cancel, s.(canceled := true))
  {
  }

  lemma EndFootprint(b: Batch, s: State, a: Action, t: State)
    requires AtEnd(s.pc) && (s.pc.Closing? ==> s.connected) && StepAtEnd(b, s, a) == Some(t)
    ensures Moves(s, a, t)
  {
  }

  lemma BetweenFootprint(b: Batch, s: State, a: Action, t: State)
    requires s.i < |b.files| && StepInFile(b, s, b.files[s.i], a) == Some(t)
    requires !AtEnd(s.pc) && !InDial(s.pc) && !Online(s.pc)
    ensures Moves(s, a, t)
  {
    hide EndFile, EnterAttempt, StepDial, StepTransfer, StepAtEnd;
    EndFileFrame(b, s, false);
    EnterAttemptFrame(b, s.(attempt := 1));
    EnterAttemptFrame(b, s.(attempt := s.attempt + 1));
  }

  lemma DialFootprint(b: Batch, s: State, a: Action, t: State)
    requires s.i < |b.files| && InDial(s.pc) && StepDial(b, s, b.files[s.i], a) == Some(t)
    ensures Moves(s, a, t)
  {
    hide EndFile, Retry;
    EndFileFrame(b, s, false);
    RetryFrame(b, s);
  }

  lemma TransferFootprint(b: Batch, s: State, a: Action, t: State)
    requires s.i < |b.files| && StepTransfer(b, s, b.files[s.i], a) == Some(t) && !a.Cancel?
    requires s.connected
    ensures Moves(s, a, t)
  {
    hide EndFile, Dropped;
    match s.pc
    case Dropping(cause) => DroppedFrame(b, s, cause);
    case Succeeding(_) => EndFileFrame(b, s, true);
    case _ =>
  }

  /** Leaving an attempt or a file forgets where in it the worker was. */
  lemma ForgetsPc(b: Batch, s: State, pc: Pc, ok: bool)
    ensures EndFile(b, s.(pc := pc), ok) == EndFile(b, s, ok)
    ensures Retry(b, s.(pc := pc)) == Retry(b, s)
  {
  }

  /** Leaving a file moves neither the connection nor the breaker. */
  lemma EndFileFrame(b: Batch, s: State, ok: bool)
    ensures var t := EndFile(b, s, ok);
            t.connected == s.connected && t.failures == s.failures && t.permanent == s.permanent
            && t.canceled == s.canceled
            && (t.pc.FilePoll? || t.pc.GivingUp? || t.pc.Finishing?)
  {
  }

  lemma EnterAttemptFrame(b: Batch, s: State)
    ensures var t := EnterAttempt(b, s);
            t.connected == s.connected && t.failures == s.failures && t.permanent == s.permanent
            && t.canceled == s.canceled
            && (t.pc.AttemptPoll? || t.pc.FilePoll? || t.pc.GivingUp? || t.pc.Finishing?)
  {
    EndFileFrame(b, s, false);
  }

  lemma RetryFrame(b: Batch, s: State)
    ensures var t := Retry(b, s);
            t.connected == s.connected && t.failures == s.failures && t.permanent == s.permanent
            && t.canceled == s.canceled
            && (t.pc.Napping? || t.pc.AttemptPoll? || t.pc.FilePoll? || t.pc.GivingUp? || t.pc.Finishing?)
  {
    EnterAttemptFrame(b, s.(attempt := s.attempt + 1));
  }

  lemma DroppedFrame(b: Batch, s: State, cause: Cause)
    ensures var t := Dropped(b, s, cause);
            !t.connected && t.failures == s.failures && t.canceled == s.canceled
            && (t.pc.Napping? || t.pc.AttemptPoll? || t.pc.FilePoll? || t.pc.GivingUp? || t.pc.Finishing?)
  {
    hide EndFile, Retry;
    var t := s.(connected := false);
    EndFileFrame(b, t.(permanent := Some(cause)), false);
    RetryFrame(b, t);
  }

  /** How the tally stands after a file. */
  lemma EndFileTally(b: Batch, s: State, ok: bool)
    ensures var t := EndFile(b, s, ok);
            && t.succeeded == s.succeeded + (if ok then 1 else 0)
            && t.failed == s.failed + (if ok then 0 else 1)
            && t.permanent == s.permanent
            && if s.permanent.Some? then t.i == s.i && t.pc == (if s.i + 1 < |b.files| then GivingUp else Finishing)
               else t.i == s.i + 1 && t.pc == (if s.i + 1 < |b.files| then FilePoll else Finishing)
  {
  }
}
