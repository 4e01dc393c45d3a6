/** What a FileSuccess event is worth: the file is on the endpoint, at its local size, and
    stays there whatever the worker does to the store afterwards. */
module Delivery {
  import opened Types
  import opened Paths
  import opened Worker
  import opened WorkerSafety
  import opened Stores

  /** The files a log reports as successful. */
  function Delivered(log: seq<Action>): set<string> {
    if log == [] then {}
    else
      var last := log[|log| - 1];
      Delivered(log[..|log| - 1])
      + if last.Send? && last.event.FileSuccess? then {last.event.file} else {}
  }

  predicate Stored(sizes: map<string, nat>, store: Store, file: string) {
    file in sizes && Base(file) in store && store[Base(file)] == sizes[file]
  }

  /** Delivered files lie before the current one, and are stored; if nothing failed so far, they
      are all the files so far. */
  ghost predicate DeliveryInv(b: Batch, sizes: map<string, nat>, s: State, done: set<string>, store: Store) {
    && (forall f :: f in done ==> exists k :: 0 <= k < s.i <= |b.files| && b.files[k] == f)
    && (forall f :: f in done ==> Stored(sizes, store, f))
    && (s.pc.Succeeding? ==> s.i < |b.files| && Stored(sizes, store, b.files[s.i]))
    && (s.failed == 0 ==> s.i <= |b.files| && forall k :: 0 <= k < s.i ==> b.files[k] in done)
    && (s.failed == 0 && AtEnd(s.pc) ==> s.i == |b.files|)
  }

  /** How an action moves the position, and what it may do to the store. */
  predicate Steps(b: Batch, s: State, a: Action, t: State) {
    && (a.Delete? || a.UploadBegin? || a.Verify? ==> s.i < |b.files| && a.name == Base(b.files[s.i]) && t.i == s.i)
    && (t.pc.Succeeding? ==>
        (a.Verify? && a.outcome.Ok? && a.local == b.files[t.i]) || (s.pc.Succeeding? && a.Cancel? && t.i == s.i))
    && (a.Send? && a.event.FileSuccess? ==>
        s.pc.Succeeding? && s.i < |b.files| && a.event.file == b.files[s.i] && t.i == s.i + 1)
    && s.failed <= t.failed && s.i <= t.i <= |b.files|
    && (t.i != s.i ==> t.i == s.i + 1 && ((a.Send? && a.event.FileSuccess?) || s.failed < t.failed))
    && (AtEnd(t.pc) && t.failed == 0 ==> t.i == |b.files|)
  }

  lemma StepsHold(b: Batch, s: State, a: Action, t: State)
    requires Inv(b, s) && Inv(b, t) && Step(b, s, a) == Some(t) && !b.noVerify
    requires s.failed == 0 && AtEnd(s.pc) ==> s.i == |b.files|
    ensures Steps(b, s, a, t)
  {
    hide EndFile, EnterAttempt, BreakerInv, StepDial, StepTransfer, Base, Steps;
    if a.Cancel? {
      CancelSteps(b, s);
    } else if !InAttempt(s.pc) || s.pc.AttemptPoll? || s.pc.Napping? {
      StepsBetween(b, s, a, t);
    } else if Online(s.pc) {
      StepsTransfer(b, s, a, t);
    } else {
      StepsDial(b, s, a, t);
    }
  }

  lemma CancelSteps(b: Batch, s: State)
    requires s.i <= |b.files| && (s.failed == 0 && AtEnd(s.pc) ==> s.i == |b.files|)
    ensures Steps(b, s, Cancel, s.(canceled := true))
  {
  }

  lemma StepsBetween(b: Batch, s: State, a: Action, t: State)
    requires s.i <= |b.files| && 0 <= s.failed && t.i <= |b.files| && Step(b, s, a) == Some(t) && !a.Cancel?
    requires s.failed == 0 && AtEnd(s.pc) ==> s.i == |b.files|
    requires s.pc.GivingUp? ==> s.i + 1 < |b.files|
    requires !InAttempt(s.pc) || (s.permanent.None? && (s.pc.AttemptPoll? || s.pc.Napping?))
    requires s.pc.FilePoll? ==> s.permanent.None?
    ensures Steps(b, s, a, t)
  {
    hide EndFile, EnterAttempt, StepDial, StepTransfer, Base, Steps;
    if s.pc.FilePoll? || s.pc.Napping? {
      StepsToAttempt(b, s, a, t);
    } else {
      StepsElsewhere(b, s, a, t);
    }
  }

  lemma StepsToAttempt(b: Batch, s: State, a: Action, t: State)
    requires s.i <= |b.files| && 0 <= s.failed && t.i <= |b.files| && Step(b, s, a) == Some(t) && !a.Cancel?
    requires s.permanent.None? && (s.pc.FilePoll? || s.pc.Napping?)
    ensures Steps(b, s, a, t)
  {
    hide EndFile, EnterAttempt, StepDial, StepTransfer, Base;
    EnterAttemptTally(b, s.(attempt := 1));
    EnterAttemptTally(b, s.(attempt := s.attempt + 1));
  }

  lemma StepsElsewhere(b: Batch, s: State, a: Action, t: State)
    requires s.i <= |b.files| && 0 <= s.failed && t.i <= |b.files| && Step(b, s, a) == Some(t) && !a.Cancel?
    requires s.failed == 0 && AtEnd(s.pc) ==> s.i == |b.files|
    requires s.pc.GivingUp? ==> s.i + 1 < |b.files|
    requires AtEnd(s.pc) || s.pc.GivingUp? || s.pc.Skipping? || (s.pc.AttemptPoll? && s.permanent.None?)
    ensures Steps(b, s, a, t)
  {
    hide EndFile, EnterAttempt, StepDial, StepTransfer, Base;
    EndFileTally(b, s, false);
  }

  lemma EnterAttemptTally(b: Batch, s: State)
    ensures var t := EnterAttempt(b, s);
            s.permanent.None? ==>
              if t.pc.AttemptPoll? then t.i == s.i && t.failed == s.failed
              else t.i == s.i + 1 && t.failed == s.failed + 1 && (t.pc.FilePoll? || t.pc.Finishing?)
  {
    EndFileTally(b, s, false);
  }

  lemma StepsDial(b: Batch, s: State, a: Action, t: State)
    requires s.i < |b.files| && s.permanent.None? && StepDial(b, s, b.files[s.i], a) == Some(t)
    requires 0 <= s.failed && t.i <= |b.files| && !AtEnd(s.pc)
    ensures Steps(b, s, a, t)
  {
    hide EndFile, EnterAttempt, Base;
    EndFileTally(b, s, false);
    EnterAttemptTally(b, s.(attempt := s.attempt + 1));
  }

  lemma StepsTransfer(b: Batch, s: State, a: Action, t: State)
    requires s.i < |b.files| && s.permanent.None? && Online(s.pc) && s.connected && !b.noVerify && 0 <= s.failed
    requires StepTransfer(b, s, b.files[s.i], a) == Some(t) && t.i <= |b.files|
    ensures Steps(b, s, a, t)
  {
    hide EndFile, EnterAttempt, Base;
    if s.pc.Dropping? {
      var u := s.(connected := false);
      EndFileTally(b, u.(permanent := Some(s.pc.cause)), false);
      EnterAttemptTally(b, u.(attempt := u.attempt + 1));
    } else {
      hide Dropped;
      EndFileTally(b, s, true);
    }
  }

  lemma DeliveryStep(b: Batch, sizes: map<string, nat>, s: State, a: Action, t: State,
                     done: set<string>, x: Store, y: Store)
    requires DistinctBases(b.files) && 0 <= s.failed
    requires Steps(b, s, a, t) && DeliveryInv(b, sizes, s, done, x) && StoreStep(sizes, x, a, y)
    ensures DeliveryInv(b, sizes, t, done + (if a.Send? && a.event.FileSuccess? then {a.event.file} else {}), y)
  {
    hide Base, Verified;
    forall f | f in done ensures Stored(sizes, y, f) {
      var k :| 0 <= k < s.i <= |b.files| && b.files[k] == f;
      if s.i < |b.files| {
        assert Base(b.files[k]) != Base(b.files[s.i]);
      }
    }
    if a.Verify? && a.outcome.Ok? {
      VerifyMeansSameSize(sizes, x, a.local, a.name, a.outcome.value, y);
    }
  }

  lemma {:induction false} DeliveryHolds(b: Batch, sizes: map<string, nat>, log: seq<Action>, s: State,
                                         stores: seq<Store>)
    requires Reaches(b, log, s) && !b.noVerify && DistinctBases(b.files) && Follows(sizes, log, stores)
    ensures Inv(b, s) && DeliveryInv(b, sizes, s, Delivered(log), stores[|log|])
  {
    hide Inv, Step, Init, DeliveryInv, StoreStep, DistinctBases;
    if log == [] {
      InvInit(b);
      DeliveryInit(b, sizes, stores[0]);
    } else {
      var m := |log| - 1;
      var t := Run(b, Init(b), log[..m]).value;
      FollowsPrefix(sizes, log, stores);
      DeliveryHolds(b, sizes, log[..m], t, stores[..|log|]);
      InvStep(b, t, log[m], s);
      DeliveryFacts(b, sizes, t, Delivered(log[..m]), stores[m]);
      StepsHold(b, t, log[m], s);
      DeliveryStep(b, sizes, t, log[m], s, Delivered(log[..m]), stores[m], stores[|log|]);
    }
  }

  lemma DeliveryInit(b: Batch, sizes: map<string, nat>, store: Store)
    ensures DeliveryInv(b, sizes, Init(b), {}, store)
  {
  }

  lemma DeliveryFacts(b: Batch, sizes: map<string, nat>, s: State, done: set<string>, store: Store)
    requires Inv(b, s) && DeliveryInv(b, sizes, s, done, store)
    ensures 0 <= s.failed && (s.failed == 0 && AtEnd(s.pc) ==> s.i == |b.files|)
  {
    hide PlaceInv, BreakerInv;
  }

  /** With verification on and no two inputs sharing a remote name: at every point of every run,
      each file reported as successful is on the endpoint at exactly its local size, whatever
      deletes, failed uploads and retries of other files have done since.  When a worker returns
      without a failure, that is every file of the batch. */
  lemma SuccessMeansDelivered(b: Batch, sizes: map<string, nat>, log: seq<Action>, s: State, stores: seq<Store>)
    requires Reaches(b, log, s) && !b.noVerify && DistinctBases(b.files) && Follows(sizes, log, stores)
    ensures forall f :: f in Delivered(log) ==> Stored(sizes, stores[|log|], f)
    ensures s.pc.Halted? && s.failed == 0 ==> forall k :: 0 <= k < |b.files| ==>
            Stored(sizes, stores[|log|], b.files[k])
  {
    hide Inv, Run, Stored, Follows, DistinctBases;
    DeliveryHolds(b, sizes, log, s, stores);
  }
}
