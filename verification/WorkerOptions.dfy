/** What the overwrite mode of an endpoint and the no-verify option do to the calls of its worker. */
module WorkerOptions {
  import opened Types
  import opened Paths
  import opened Worker
  import opened WorkerSafety
  import opened Jobs
  import opened JobReadings

  /** In a log without cancellations: deletes happen under delete-first only, and every upload comes
      right after the delete of its name; verifications happen unless they are switched off, and every
      success comes right after the verification of its file, of which it carries the method. */
  predicate Obeys(mode: Overwrite, noVerify: bool, own: seq<Action>) {
    forall n :: 0 <= n < |own| ==> ObeysAt(mode, noVerify, own, n)
  }

  predicate ObeysAt(mode: Overwrite, noVerify: bool, own: seq<Action>, n: nat)
    requires n < |own|
  {
    match own[n]
    case Delete(_, _) => mode == DeleteFirst
    case UploadBegin(local, name) =>
      name == Base(local) && (mode == DeleteFirst ==> 0 < n && own[n - 1] == Delete(name, None))
    case Verify(_, _, _) => !noVerify
    case Send(FileSuccess(_, file, m)) =>
      if noVerify then m == "" else 0 < n && own[n - 1] == Verify(file, Base(file), Ok(m))
    case _ => true
  }

  /** The last action was this one. */
  predicate Just(own: seq<Action>, a: Action) {
    own != [] && own[|own| - 1] == a
  }

  /** Where the worker stands agrees with what it has just done. */
  predicate Placed(b: Batch, s: State, own: seq<Action>) {
    && (s.pc.Deleting? ==> b.ep.overwrite == DeleteFirst)
    && (s.pc.Verifying? ==> !b.noVerify)
    && (s.pc.UploadReady? && b.ep.overwrite == DeleteFirst ==>
        s.i < |b.files| && Just(own, Delete(Base(b.files[s.i]), None)))
    && (s.pc.Succeeding? && b.noVerify ==> s.pc.verifyMethod == "")
    && (s.pc.Succeeding? && !b.noVerify ==>
        s.i < |b.files| && Just(own, Verify(b.files[s.i], Base(b.files[s.i]), Ok(s.pc.verifyMethod))))
  }

  /** What the next action may be. */
  predicate MayDo(b: Batch, own: seq<Action>, a: Action) {
    match a
    case Delete(_, _) => b.ep.overwrite == DeleteFirst
    case UploadBegin(local, name) =>
      name == Base(local) && (b.ep.overwrite == DeleteFirst ==> Just(own, Delete(name, None)))
    case Verify(_, _, _) => !b.noVerify
    case Send(FileSuccess(_, file, m)) =>
      if b.noVerify then m == "" else Just(own, Verify(file, Base(file), Ok(m)))
    case _ => true
  }

  lemma ObeysOne(b: Batch, own: seq<Action>, a: Action)
    requires Obeys(b.ep.overwrite, b.noVerify, own) && MayDo(b, own, a)
    ensures Obeys(b.ep.overwrite, b.noVerify, own + [a])
  {
    hide Base;
    var all := own + [a];
    forall n | 0 <= n < |all| ensures ObeysAt(b.ep.overwrite, b.noVerify, all, n) {
      if n < |own| {
        assert ObeysAt(b.ep.overwrite, b.noVerify, own, n);
      }
    }
  }

  lemma PlacedStep(b: Batch, s: State, a: Action, t: State, own: seq<Action>)
    requires Inv(b, s) && Step(b, s, a) == Some(t) && Placed(b, s, own) && !a.Cancel?
    ensures MayDo(b, own, a) && Placed(b, t, own + [a])
  {
    hide Step, StepInFile, StepDial, StepTransfer, StepAtEnd, BreakerInv, TallyInv, Placed, MayDo;
    OnlineFacts(b, s, t);
    StepKinds(b, s, a, t);
    if AtEnd(s.pc) {
      PlacedAtEnd(b, s, a, t, own);
    } else if InDial(s.pc) {
      PlacedDial(b, s, a, t, own);
    } else if Online(s.pc) {
      PlacedTransfer(b, s, a, t, own);
    } else {
      PlacedBetween(b, s, a, t, own);
    }
  }

  lemma PlacedAtEnd(b: Batch, s: State, a: Action, t: State, own: seq<Action>)
    requires AtEnd(s.pc) && StepAtEnd(b, s, a) == Some(t)
    ensures MayDo(b, own, a) && Placed(b, t, own + [a])
  {
  }

  lemma PlacedDial(b: Batch, s: State, a: Action, t: State, own: seq<Action>)
    requires s.i < |b.files| && InDial(s.pc) && StepDial(b, s, b.files[s.i], a) == Some(t)
    ensures MayDo(b, own, a) && Placed(b, t, own + [a])
  {
    hide EndFile, Retry, Base;
    EndFileFrame(b, s, false);
    RetryFrame(b, s);
  }

  lemma PlacedBetween(b: Batch, s: State, a: Action, t: State, own: seq<Action>)
    requires s.i < |b.files| && StepInFile(b, s, b.files[s.i], a) == Some(t)
    requires !AtEnd(s.pc) && !InDial(s.pc) && !Online(s.pc)
    ensures MayDo(b, own, a) && Placed(b, t, own + [a])
  {
    hide EndFile, EnterAttempt, StepDial, StepTransfer, StepAtEnd, Base;
    EndFileFrame(b, s, false);
    EnterAttemptFrame(b, s.(attempt := 1));
    EnterAttemptFrame(b, s.(attempt := s.attempt + 1));
  }

  lemma PlacedTransfer(b: Batch, s: State, a: Action, t: State, own: seq<Action>)
    requires s.i < |b.files| && Online(s.pc) && s.connected && StepTransfer(b, s, b.files[s.i], a) == Some(t)
    requires Placed(b, s, own)
    ensures MayDo(b, own, a) && Placed(b, t, own + [a])
  {
    hide EndFile, Dropped, Base;
    if s.pc.Dropping? { DroppedFrame(b, s, s.pc.cause); }
    EndFileFrame(b, s, true);
  }

  lemma PlacedCanceled(b: Batch, s: State, own: seq<Action>)
    requires Placed(b, s, own)
    ensures Placed(b, s.(canceled := true), own)
  {
  }

  lemma PlacedInit(b: Batch)
    ensures Placed(b, Init(b), []) && Obeys(b.ep.overwrite, b.noVerify, [])
  {
  }

  /** Every run of a worker obeys the overwrite mode of its endpoint and the no-verify option. */
  lemma {:induction false} WorkerObeys(b: Batch, log: seq<Action>, s: State)
    requires Reaches(b, log, s)
    ensures Inv(b, s) && Placed(b, s, Own(log)) && Obeys(b.ep.overwrite, b.noVerify, Own(log))
  {
    hide Inv, Step, Init, Placed, Obeys, MayDo;
    InvHolds(b, log, s);
    if log == [] {
      PlacedInit(b);
    } else {
      var m := |log| - 1;
      var t, a := Run(b, Init(b), log[..m]).value, log[m];
      WorkerObeys(b, log[..m], t);
      assert Own(log[..m]) + [] == Own(log[..m]);
      if a.Cancel? {
        CancelOnly(b, t, s);
        PlacedCanceled(b, t, Own(log[..m]));
      } else {
        PlacedStep(b, t, a, s, Own(log[..m]));
        ObeysOne(b, Own(log[..m]), a);
      }
    }
  }
}
