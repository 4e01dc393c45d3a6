/** The conditions of Delivery.SuccessMeansDelivered are the right ones: without verification, or
    with two inputs sharing a remote name, a FileSuccess event can be worth nothing. */
module DeliveryLimits {
  import opened Types
  import opened Paths
  import opened Worker
  import opened WorkerSafety
  import opened Stores
  import opened Delivery

  /** Whenever a worker returns, every file it reported as successful is on the endpoint. */
  ghost predicate Guaranteed(b: Batch, sizes: map<string, nat>) {
    forall log, s, stores :: Reaches(b, log, s) && s.pc.Halted? && Follows(sizes, log, stores) ==>
      AllStored(sizes, log, stores)
  }

  ghost predicate AllStored(sizes: map<string, nat>, log: seq<Action>, stores: seq<Store>)
    requires |stores| == |log| + 1
  {
    forall f :: f in Delivered(log) ==> Stored(sizes, stores[|log|], f)
  }

  /** A run, what it did to the store, and what it reported. */
  datatype Story = Story(log: seq<Action>, s: State, stores: seq<Store>)

  ghost predicate Happens(b: Batch, sizes: map<string, nat>, y: Story) {
    Reaches(b, y.log, y.s) && Follows(sizes, y.log, y.stores)
  }

  function Now(y: Story): Store {
    if y.stores == [] then map[] else y.stores[|y.stores| - 1]
  }

  lemma Then(b: Batch, sizes: map<string, nat>, y: Story, a: Action, t: State, store: Store) returns (z: Story)
    requires Happens(b, sizes, y) && Step(b, y.s, a) == Some(t) && StoreStep(sizes, Now(y), a, store)
    ensures Happens(b, sizes, z) && z.s == t && Now(z) == store
    ensures Delivered(z.log) == Delivered(y.log) + if a.Send? && a.event.FileSuccess? then {a.event.file} else {}
  {
    hide Step, StoreStep;
    z := Story(y.log + [a], t, y.stores + [store]);
    RunOne(b, Init(b), y.log, a);
    assert z.log[..|y.log|] == y.log;
  }

  /** An action that leaves the store alone and reports no success. */
  lemma Quietly(b: Batch, sizes: map<string, nat>, y: Story, a: Action, t: State) returns (z: Story)
    requires Happens(b, sizes, y) && Step(b, y.s, a) == Some(t)
    requires !a.Delete? && !a.UploadBegin? && !a.Verify? && !(a.Send? && a.event.FileSuccess?)
    ensures Happens(b, sizes, z) && z.s == t && Now(z) == Now(y) && Delivered(z.log) == Delivered(y.log)
  {
    hide Step, Reaches, Follows;
    z := Then(b, sizes, y, a, t, Now(y));
  }

  predicate Usable(b: Batch, sizes: map<string, nat>) {
    && b.ep.policy.attempts >= 1 && b.ep.policy.maxConnectFailures >= 1
    && forall k :: 0 <= k < |b.files| ==> b.files[k] in sizes
  }

  /** Everything before file `i` went well. */
  predicate Fine(b: Batch, s: State, i: nat) {
    && i < |b.files| && s.pc.FilePoll? && s.i == i && s.failures == 0 && s.permanent.None? && !s.canceled
  }

  /** From there to the upload of file `i`, of which the server keeps what it likes. */
  lemma Uploads(b: Batch, sizes: map<string, nat>, y: Story, i: nat, store: Store) returns (z: Story)
    requires Usable(b, sizes) && Happens(b, sizes, y) && Fine(b, y.s, i) && SameExcept(Now(y), store, Base(b.files[i]))
    ensures Happens(b, sizes, z) && Now(z) == store && Delivered(z.log) == Delivered(y.log)
    ensures z.s == y.s.(pc := Uploading, attempt := 1, connected := true)
  {
    hide Base, Happens, SameExcept, Delivered;
    var file, s := b.files[i], y.s.(attempt := 1);
    z := Quietly(b, sizes, y, Poll(false), s.(pc := AttemptPoll));
    z := Quietly(b, sizes, z, Poll(false), s.(pc := if s.connected then Starting else Dialing));
    if !s.connected {
      z := Quietly(b, sizes, z, Connect(None), s.(pc := Starting, connected := true));
    }
    s := s.(connected := true);
    z := Quietly(b, sizes, z, Send(FileStart(b.ep.name, file, 1)), AfterStart(b, s));
    if b.ep.overwrite == DeleteFirst {
      z := Then(b, sizes, z, Delete(Base(file), None), s.(pc := UploadReady), Now(z));
    }
    z := Then(b, sizes, z, UploadBegin(file, Base(file)), s.(pc := Uploading), store);
  }

  /** An upload that the worker takes for a success. */
  lemma Succeeds(b: Batch, sizes: map<string, nat>, y: Story, i: nat, store: Store) returns (z: Story)
    requires Usable(b, sizes) && Happens(b, sizes, y) && Fine(b, y.s, i) && SameExcept(Now(y), store, Base(b.files[i]))
    requires b.noVerify || (Base(b.files[i]) in store && store[Base(b.files[i])] == sizes[b.files[i]])
    ensures Happens(b, sizes, z) && Now(z) == store && Delivered(z.log) == Delivered(y.log) + {b.files[i]}
    ensures z.s.connected && z.s.i == i + 1 && !z.s.canceled &&
            (if i + 1 < |b.files| then Fine(b, z.s, i + 1) else z.s.pc.Finishing?)
  {
    hide Base, Happens, SameExcept, Delivered, EndFile;
    var file := b.files[i];
    z := Uploads(b, sizes, y, i, store);
    var s := z.s.(pc := AfterUpload(b, z.s).pc);
    z := Quietly(b, sizes, z, UploadEnd(None), s);
    var verifyMethod := "";
    if !b.noVerify {
      verifyMethod := "size";
      s := s.(pc := Succeeding(verifyMethod));
      SizesAgree(sizes, store, file, Base(file));
      z := Then(b, sizes, z, Verify(file, Base(file), Ok(verifyMethod)), s, store);
    }
    EndFileTally(b, s, true);
    EndFileFrame(b, s, true);
    z := Then(b, sizes, z, Send(FileSuccess(b.ep.name, file, verifyMethod)), EndFile(b, s, true), store);
  }

  lemma SizesAgree(sizes: map<string, nat>, store: Store, file: string, name: string)
    requires file in sizes && name in store && store[name] == sizes[file]
    ensures Verified(sizes, store, file, name, Ok("size"))
  {
    assert Reads(store, name, Ok(store[name]));
  }

  /** The first `n` files are delivered, each as it should be. */
  lemma {:induction false} Delivers(b: Batch, sizes: map<string, nat>, n: nat) returns (z: Story)
    requires Usable(b, sizes) && n < |b.files|
    ensures Happens(b, sizes, z) && Fine(b, z.s, n)
    ensures forall k :: 0 <= k < n ==> b.files[k] in Delivered(z.log)
  {
    hide Base, Delivered, Happens, Fine, Usable, SameExcept, Init;
    if n == 0 {
      z := Story([], Init(b), [map[]]);
      Begins(b, sizes);
    } else {
      var y := Delivers(b, sizes, n - 1);
      var file := b.files[n - 1];
      var store := StoresOne(Now(y), Base(file), FileSize(b, sizes, n - 1));
      z := Succeeds(b, sizes, y, n - 1, store);
    }
  }

  function FileSize(b: Batch, sizes: map<string, nat>, k: nat): nat
    requires Usable(b, sizes) && k < |b.files|
  {
    sizes[b.files[k]]
  }

  lemma StoresOne(x: Store, name: string, size: nat) returns (y: Store)
    ensures SameExcept(x, y, name) && name in y && y[name] == size
  {
    y := x[name := size];
  }

  /** The batch is given up on when the server refuses the upload of file `i`. */
  lemma Refused(b: Batch, sizes: map<string, nat>, y: Story) returns (z: Story)
    requires Happens(b, sizes, y) && y.s.pc.Uploading? && y.s.i < |b.files| && y.s.connected && y.s.permanent.None?
    ensures Happens(b, sizes, z) && z.s.pc.Halted? && Now(z) == Now(y) && Delivered(z.log) == Delivered(y.log)
  {
    hide Happens, Dropped, Delivered, EndFile;
    var s, cause := y.s, UploadCause(Error("permission denied", true));
    z := Quietly(b, sizes, y, UploadEnd(Some(cause.error)), s.(pc := Reporting(cause)));
    z := Quietly(b, sizes, z, Send(FileError(b.ep.name, b.files[s.i], s.attempt, cause)), s.(pc := Dropping(cause)));
    var t := s.(pc := Dropping(cause), connected := false, permanent := Some(cause));
    EndFileTally(b, t, false);
    EndFileFrame(b, t, false);
    assert Dropped(b, z.s, cause) == EndFile(b, t, false) by { DroppedForGood(b, z.s, cause); }
    z := Quietly(b, sizes, z, Disconnect, EndFile(b, t, false));
    z := Abandoned(b, sizes, z, cause);
  }

  lemma DroppedForGood(b: Batch, s: State, cause: Cause)
    requires Permanent(cause)
    ensures Dropped(b, s, cause) == EndFile(b, s.(connected := false, permanent := Some(cause)), false)
  {
  }

  lemma Abandoned(b: Batch, sizes: map<string, nat>, y: Story, cause: Cause) returns (z: Story)
    requires Happens(b, sizes, y) && y.s.i < |b.files| && !y.s.connected && y.s.permanent == Some(cause)
    requires y.s.pc == if y.s.i + 1 < |b.files| then GivingUp else Finishing
    ensures Happens(b, sizes, z) && z.s.pc.Halted? && Now(z) == Now(y) && Delivered(z.log) == Delivered(y.log)
  {
    hide Happens, Delivered;
    z := y;
    if y.s.i + 1 < |b.files| {
      z := Quietly(b, sizes, z, Send(GivenUp(b.ep.name, cause, b.files[y.s.i + 1..])),
                   z.s.(pc := Finishing, failed := z.s.failed + |b.files| - y.s.i - 1));
    }
    z := Quietly(b, sizes, z, Send(Done(b.ep.name, z.s.succeeded, z.s.failed)), z.s.(pc := Halted));
  }

  /** The batch is canceled between two files, or just ends. */
  lemma Leaves(b: Batch, sizes: map<string, nat>, y: Story) returns (z: Story)
    requires Happens(b, sizes, y) && y.s.connected && y.s.i <= |b.files|
    requires if y.s.i < |b.files| then y.s.pc.FilePoll? else y.s.pc.Finishing?
    ensures Happens(b, sizes, z) && z.s.pc.Halted? && Now(z) == Now(y) && Delivered(z.log) == Delivered(y.log)
  {
    hide Happens, Delivered;
    z := y;
    if y.s.i < |b.files| {
      var s := y.s.(canceled := true);
      z := Quietly(b, sizes, z, Cancel, s);
      z := Quietly(b, sizes, z, Poll(true), s.(pc := Finishing, failed := s.failed + |b.files| - s.i));
    }
    z := Quietly(b, sizes, z, Send(Done(b.ep.name, z.s.succeeded, z.s.failed)), z.s.(pc := Closing));
    z := Quietly(b, sizes, z, Disconnect, z.s.(pc := Halted, connected := false));
  }

  lemma Disproves(b: Batch, sizes: map<string, nat>, y: Story, f: string)
    requires Happens(b, sizes, y) && y.s.pc.Halted? && f in Delivered(y.log) && Base(f) !in Now(y)
    ensures !Guaranteed(b, sizes)
  {
    hide Base, Reaches;
    assert Reaches(b, y.log, y.s) && Follows(sizes, y.log, y.stores);
    assert !AllStored(sizes, y.log, y.stores);
  }

  /** Without verification, the server may have kept nothing. */
  lemma UnverifiedCanBeLost(b: Batch, sizes: map<string, nat>)
    requires Usable(b, sizes) && b.files != [] && b.noVerify
    ensures !Guaranteed(b, sizes)
  {
    hide Base, Happens, Delivered, Guaranteed;
    var y := Story([], Init(b), [map[]]);
    assert Happens(b, sizes, y) by { Begins(b, sizes); }
    y := Succeeds(b, sizes, y, 0, map[]);
    y := Leaves(b, sizes, y);
    Disproves(b, sizes, y, b.files[0]);
  }

  lemma Begins(b: Batch, sizes: map<string, nat>)
    ensures Happens(b, sizes, Story([], Init(b), [map[]])) && (b.files != [] ==> Fine(b, Init(b), 0))
  {
  }

  /** A second file of the same name takes the first one's place, and its upload may fail. */
  lemma CollidingCanBeLost(b: Batch, sizes: map<string, nat>, i: nat, j: nat)
    requires Usable(b, sizes) && i < j < |b.files| && Base(b.files[i]) == Base(b.files[j])
    ensures !Guaranteed(b, sizes)
  {
    hide Base, Happens, Delivered, Guaranteed;
    var y := Delivers(b, sizes, j);
    y := Uploads(b, sizes, y, j, Now(y) - {Base(b.files[j])});
    y := Refused(b, sizes, y);
    Disproves(b, sizes, y, b.files[i]);
  }

  /** The delivery guarantee holds of a batch, for every behaviour of its server, exactly when
      verification is on and no two inputs share a remote name. */
  lemma DeliveryIsGuaranteedExactly(b: Batch, sizes: map<string, nat>)
    requires Usable(b, sizes) && b.files != []
    ensures Guaranteed(b, sizes) <==> !b.noVerify && DistinctBases(b.files)
  {
    if b.noVerify {
      UnverifiedCanBeLost(b, sizes);
    } else if !DistinctBases(b.files) {
      var i, j :| 0 <= i < j < |b.files| && Base(b.files[i]) == Base(b.files[j]);
      CollidingCanBeLost(b, sizes, i, j);
    } else {
      hide Reaches, Follows, Base, DistinctBases, Stored, Delivered;
      forall log, s, stores | Reaches(b, log, s) && s.pc.Halted? && Follows(sizes, log, stores)
        ensures |stores| == |log| + 1 && AllStored(sizes, log, stores)
      {
        FollowsLength(sizes, log, stores);
        SuccessMeansDelivered(b, sizes, log, s, stores);
      }
    }
  }

  lemma FollowsLength(sizes: map<string, nat>, log: seq<Action>, stores: seq<Store>)
    requires Follows(sizes, log, stores)
    ensures |stores| == |log| + 1
  {
  }
}
