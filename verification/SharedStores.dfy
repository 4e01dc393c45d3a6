/** Endpoints that share a server and a directory.  Nothing keeps two endpoints of a configuration
    apart, so their jobs may write, delete and verify the same remote names at the same time. */
module SharedStores {
  import opened Types
  import opened Paths
  import opened Worker
  import opened WorkerSafety
  import opened Stores
  import opened Delivery
  import DeliveryLimits
  import opened Jobs
  import opened System
  import opened SystemProgress

  // ---------------------------------------------------------------- one store, many jobs

  /** The job is in the middle of an upload to this remote name. */
  predicate Writing(job: Job, j: JobState, name: string) {
    job.Upload? && j.Uploads? && j.s.pc.Uploading? && j.s.i < |job.batch.files| && name == Base(job.batch.files[j.s.i])
  }

  /** Job k may change what is stored under `name` during the move: by a delete, whatever it answers,
      or at any time from the beginning of an upload to its end. */
  predicate Touches(jobs: seq<Job>, s: Sys, m: Move, t: Sys, k: nat, name: string) {
    && k < |jobs| == |s.jobs| == |t.jobs|
    && ((m.Do? && m.k == k && m.action.Delete? && m.action.name == name)
        || Writing(jobs[k], s.jobs[k], name) || Writing(jobs[k], t.jobs[k], name))
  }

  predicate Agree(x: Store, y: Store, name: string) {
    (name in x <==> name in y) && (name in x ==> x[name] == y[name])
  }

  /** One move of the system, as seen by the store that the jobs `users` share: it changes only
      under names that one of them touches, and a verification sees it as it is at that moment. */
  ghost predicate SharedStep(jobs: seq<Job>, users: set<nat>, sizes: map<string, nat>,
                             s: Sys, m: Move, t: Sys, x: Store, y: Store)
  {
    && (forall name :: !Agree(x, y, name) ==> exists k :: k in users && Touches(jobs, s, m, t, k, name))
    && (m.Do? && m.k in users && m.action.Verify? ==>
        Verified(sizes, x, m.action.local, m.action.name, m.action.outcome))
  }

  /** `stores[n]` is the shared store before the n-th move. */
  ghost predicate Shared(jobs: seq<Job>, users: set<nat>, sizes: map<string, nat>, log: seq<Move>, stores: seq<Store>) {
    && |stores| == |log| + 1
    && forall n :: 0 <= n < |log| ==> SharedAt(jobs, users, sizes, log, stores, n)
  }

  ghost predicate SharedAt(jobs: seq<Job>, users: set<nat>, sizes: map<string, nat>, log: seq<Move>,
                           stores: seq<Store>, n: nat)
    requires n < |log| && |stores| == |log| + 1
  {
    var s, t := SysRun(jobs, log[..n]), SysRun(jobs, log[..n + 1]);
    s.Some? && t.Some? ==> SharedStep(jobs, users, sizes, s.value, log[n], t.value, stores[n], stores[n + 1])
  }

  lemma SharedPrefix(jobs: seq<Job>, users: set<nat>, sizes: map<string, nat>, log: seq<Move>, stores: seq<Store>)
    requires log != [] && Shared(jobs, users, sizes, log, stores)
    ensures Shared(jobs, users, sizes, log[..|log| - 1], stores[..|log|])
    ensures SharedAt(jobs, users, sizes, log, stores, |log| - 1)
  {
    hide SharedStep;
    var m := |log| - 1;
    forall n | 0 <= n < m ensures SharedAt(jobs, users, sizes, log[..m], stores[..|log|], n) {
      assert SharedAt(jobs, users, sizes, log, stores, n);
      assert log[..m][..n] == log[..n] && log[..m][..n + 1] == log[..n + 1];
    }
  }

  // ---------------------------------------------------------------- one job

  /** The worker has verified file j and will not touch its name again. */
  predicate Settled(s: State, j: nat) {
    s.i > j || (s.i == j && s.pc.Succeeding?)
  }

  /** The job has not settled file j yet, or has failed on some file. */
  predicate Pending(j: JobState, n: nat) {
    j.Uploads? && (!Settled(j.s, n) || j.s.failed > 0)
  }

  /** What one step means for file j: it stays pending unless it has just been verified, and only a
      pending job deletes it or uploads it. */
  predicate Keeps(b: Batch, s: State, a: Action, t: State, j: nat)
    requires j < |b.files|
  {
    && (Pending(Uploads(s), j) ==>
        Pending(Uploads(t), j) || (a.Verify? && a.outcome.Ok? && a.local == b.files[j] && a.name == Base(b.files[j])))
    && (s.i == j && (s.pc.Uploading? || a.Delete?) ==> Pending(Uploads(t), j))
    && (a.Delete? ==> s.i < |b.files| && a.name == Base(b.files[s.i]))
  }

  lemma UploadingKeepsFile(b: Batch, s: State, a: Action, t: State)
    requires PlaceInv(b, s) && s.pc.Uploading? && Step(b, s, a) == Some(t) && !b.noVerify
    ensures t.i == s.i && !t.pc.Succeeding?
  {
  }

  lemma StepKeeps(b: Batch, s: State, a: Action, t: State, j: nat)
    requires j < |b.files| && Steps(b, s, a, t) && 0 <= s.failed
    requires s.pc.Uploading? ==> t.i == s.i && !t.pc.Succeeding?
    ensures Keeps(b, s, a, t, j)
  {
    hide Base;
  }

  /** A worker that has not failed goes through every file. */
  lemma {:induction false} NoFailureMeansAll(b: Batch, log: seq<Action>, s: State)
    requires Reaches(b, log, s) && !b.noVerify
    ensures Inv(b, s) && (s.failed == 0 && AtEnd(s.pc) ==> s.i == |b.files|)
  {
    hide Inv, Step, Base;
    InvHolds(b, log, s);
    if log != [] {
      var m := |log| - 1;
      var t := Run(b, Init(b), log[..m]).value;
      NoFailureMeansAll(b, log[..m], t);
      StepsHold(b, t, log[m], s);
    }
  }

  lemma UploadJobKeeps(b: Batch, log: seq<Action>, s: State, a: Action, t: State, j: nat)
    requires Reaches(b, log, s) && Step(b, s, a) == Some(t) && !b.noVerify && j < |b.files|
    ensures Keeps(b, s, a, t, j)
  {
    hide Step, Run, Init, Steps, Keeps, PlaceInv, BreakerInv;
    NoFailureMeansAll(b, log, s);
    InvStep(b, s, a, t);
    StepsHold(b, s, a, t);
    if s.pc.Uploading? { UploadingKeepsFile(b, s, a, t); }
    StepKeeps(b, s, a, t, j);
  }

  // ---------------------------------------------------------------- all jobs

  ghost predicate SameUploads(jobs: seq<Job>, files: seq<string>) {
    forall k :: 0 <= k < |jobs| ==> jobs[k].Upload? && jobs[k].batch.files == files && !jobs[k].batch.noVerify
  }

  ghost predicate SomePending(users: set<nat>, js: seq<JobState>, j: nat) {
    exists k :: k in users && k < |js| && Pending(js[k], j)
  }

  /** What a move of the system means for job k and file j. */
  predicate KeepsPart(b: Batch, s: JobState, part: seq<Action>, t: JobState, j: nat)
    requires j < |b.files|
  {
    s.Uploads? && t.Uploads? && if part == [] then t == s else |part| == 1 && Keeps(b, s.s, part[0], t.s, j)
  }

  lemma MoveKeeps(jobs: seq<Job>, log: seq<Move>, s: Sys, m: Move, t: Sys, k: nat, files: seq<string>, j: nat)
    requires SysRun(jobs, log) == Some(s) && SysStep(jobs, s, m) == Some(t)
    requires k < |jobs| && SameUploads(jobs, files) && j < |files|
    ensures |s.jobs| == |t.jobs| == |jobs|
    ensures KeepsPart(jobs[k].batch, s.jobs[k], Part(k, m), t.jobs[k], j)
  {
    hide SysRun, SysStep, Projection, Part, JobRun, JobInv, Run, Init, Step, Keeps;
    var mine := Projection(k, log);
    ProjectionRuns(jobs, log, s, k);
    JobHolds(jobs[k], mine, s.jobs[k]);
    MovesOne(jobs, s, m, t, k, Events(mine));
    UploadRuns(jobs[k].batch, mine);
    var part := Part(k, m);
    if part != [] {
      UploadJobKeeps(jobs[k].batch, mine, s.jobs[k].s, part[0], t.jobs[k].s, j);
    }
  }

  /** Whoever touches the name of file j during a move has the file pending after it. */
  lemma TouchingIsPending(b: Batch, s: JobState, part: seq<Action>, t: JobState, j: nat, name: string)
    requires j < |b.files| && DistinctBases(b.files) && name == Base(b.files[j])
    requires KeepsPart(b, s, part, t, j)
    requires (part != [] && part[0].Delete? && part[0].name == name)
          || Writing(Upload(b), s, name) || Writing(Upload(b), t, name)
    ensures Pending(t, j)
  {
    hide Base;
  }

  /** A job can stop having a file pending only by finding it stored. */
  lemma VerifiedIsStored(b: Batch, s: JobState, part: seq<Action>, t: JobState, sizes: map<string, nat>, x: Store,
                         j: nat)
    requires j < |b.files| && KeepsPart(b, s, part, t, j) && Pending(s, j) && !Pending(t, j)
    requires part != [] && part[0].Verify? ==> Verified(sizes, x, part[0].local, part[0].name, part[0].outcome)
    ensures Stored(sizes, x, b.files[j])
  {
    hide Base, Pending, Verified;
    var a := part[0];
    VerifyMeansSameSize(sizes, x, a.local, a.name, a.outcome.value, x);
  }

  lemma SettledMove(jobs: seq<Job>, users: set<nat>, sizes: map<string, nat>, files: seq<string>, log: seq<Move>,
                    s: Sys, m: Move, t: Sys, x: Store, y: Store, j: nat)
    requires SysRun(jobs, log) == Some(s) && SysStep(jobs, s, m) == Some(t)
    requires SameUploads(jobs, files) && DistinctBases(files) && j < |files|
    requires forall k :: k in users ==> k < |jobs|
    requires SharedStep(jobs, users, sizes, s, m, t, x, y)
    requires Stored(sizes, x, files[j]) || SomePending(users, s.jobs, j)
    ensures Stored(sizes, y, files[j]) || SomePending(users, t.jobs, j)
  {
    hide SysRun, SysStep, Verified, DistinctBases, Pending, Base, KeepsPart, Writing;
    var name := Base(files[j]);
    forall k | k in users
      ensures |s.jobs| == |t.jobs| == |jobs| && KeepsPart(jobs[k].batch, s.jobs[k], Part(k, m), t.jobs[k], j)
    {
      MoveKeeps(jobs, log, s, m, t, k, files, j);
    }
    if !SomePending(users, t.jobs, j) {
      if !Agree(x, y, name) {
        var k :| k in users && Touches(jobs, s, m, t, k, name);
        TouchingIsPending(jobs[k].batch, s.jobs[k], Part(k, m), t.jobs[k], j, name);
        assert false;
      }
      if SomePending(users, s.jobs, j) {
        var k :| k in users && k < |s.jobs| && Pending(s.jobs[k], j);
        VerifiedIsStored(jobs[k].batch, s.jobs[k], Part(k, m), t.jobs[k], sizes, x, j);
      }
    }
  }

  /** As long as no job that uses the store has file j pending, it is stored there. */
  lemma {:induction false} StoredOrPending(jobs: seq<Job>, users: set<nat>, sizes: map<string, nat>,
                                           files: seq<string>, log: seq<Move>, s: Sys, stores: seq<Store>, j: nat)
    requires SysRun(jobs, log) == Some(s) && SameUploads(jobs, files) && DistinctBases(files) && j < |files|
    requires users != {} && forall k :: k in users ==> k < |jobs|
    requires Shared(jobs, users, sizes, log, stores)
    ensures Stored(sizes, stores[|log|], files[j]) || SomePending(users, s.jobs, j)
  {
    hide SysStep, SharedStep, DistinctBases, Stored, SomePending, Start;
    if log == [] {
      PendingAtFirst(jobs, users, files, j);
    } else {
      var m := |log| - 1;
      SysRunOne(jobs, log, s);
      var t := SysRun(jobs, log[..m]).value;
      SharedPrefix(jobs, users, sizes, log, stores);
      StoredOrPending(jobs, users, sizes, files, log[..m], t, stores[..|log|], j);
      assert log[..m + 1] == log;
      SettledMove(jobs, users, sizes, files, log[..m], t, log[m], s, stores[m], stores[|log|], j);
    }
  }

  lemma PendingAtFirst(jobs: seq<Job>, users: set<nat>, files: seq<string>, j: nat)
    requires SameUploads(jobs, files) && j < |files|
    requires users != {} && forall k :: k in users ==> k < |jobs|
    ensures SomePending(users, Start(jobs).jobs, j)
  {
    var k :| k in users;
    assert Pending(Start(jobs).jobs[k], j);
  }

  /** Exit status 0, with verification on and inputs the command line accepts, keeps its meaning when
      endpoints share a remote store: whichever jobs use it, and however their deletes, uploads and
      verifications of the same names overlap, every file is in it at its local size at the end.  For
      the last job to touch a name verifies it afterwards. */
  lemma ExitZeroMeansDelivered(jobs: seq<Job>, users: set<nat>, log: seq<Move>, s: Sys, files: seq<string>,
                               sizes: map<string, nat>, stores: seq<Store>)
    requires SysRun(jobs, log) == Some(s) && s.consumer == Exited(EXIT_OK)
    requires SameUploads(jobs, files) && DistinctBases(files)
    requires users != {} && forall k :: k in users ==> k < |jobs|
    requires Shared(jobs, users, sizes, log, stores)
    ensures forall f :: f in files ==> Stored(sizes, stores[|log|], f)
  {
    assert |stores| == |log| + 1;
    hide SysRun, HasAlarm, Projection, Events, Stored, Shared, DistinctBases, Raised;
    ConsumerHolds(jobs, log, s);
    AlarmsAddUp(jobs, log, s);
    forall j | 0 <= j < |files| ensures Stored(sizes, stores[|log|], files[j]) {
      StoredOrPending(jobs, users, sizes, files, log, s, stores, j);
      forall k | k in users ensures !Pending(s.jobs[k], j) {
        QuietMeansSettled(jobs, log, s, k, j);
      }
    }
  }

  lemma QuietMeansSettled(jobs: seq<Job>, log: seq<Move>, s: Sys, k: nat, j: nat)
    requires SysRun(jobs, log) == Some(s) && k < |jobs| && jobs[k].Upload? && !jobs[k].batch.noVerify
    requires |s.jobs| == |jobs| && Over(jobs[k], s.jobs[k]) && !Raised(k, log) && j < |jobs[k].batch.files|
    ensures !Pending(s.jobs[k], j)
  {
    hide SysRun, HasAlarm, Projection, Events, Run, Inv;
    var b, mine := jobs[k].batch, Projection(k, log);
    ProjectionRuns(jobs, log, s, k);
    UploadRuns(b, mine);
    QuietMeansNoFailure(b, mine, s.jobs[k].s);
    NoFailureMeansAll(b, mine, s.jobs[k].s);
  }

  // ---------------------------------------------------------------- a success event alone is not enough

  /** A run of the system and what it did to the shared store. */
  datatype Tale = Tale(log: seq<Move>, s: Sys, stores: seq<Store>)

  ghost predicate Told(jobs: seq<Job>, users: set<nat>, sizes: map<string, nat>, y: Tale) {
    SysRun(jobs, y.log) == Some(y.s) && |y.s.jobs| == |jobs| && Shared(jobs, users, sizes, y.log, y.stores)
  }

  function Held(y: Tale): Store {
    if y.stores == [] then map[] else y.stores[|y.stores| - 1]
  }

  lemma TaleMove(jobs: seq<Job>, users: set<nat>, sizes: map<string, nat>, y: Tale, m: Move, t: Sys, store: Store)
    returns (z: Tale)
    requires Told(jobs, users, sizes, y) && SysStep(jobs, y.s, m) == Some(t) && |t.jobs| == |jobs|
    requires SharedStep(jobs, users, sizes, y.s, m, t, Held(y), store)
    ensures Told(jobs, users, sizes, z) && z.s == t && Held(z) == store
  {
    hide SysStep, SharedStep;
    z := Tale(y.log + [m], t, y.stores + [store]);
    assert z.log[..|y.log|] == y.log;
    forall n | 0 <= n < |z.log| ensures SharedAt(jobs, users, sizes, z.log, z.stores, n) {
      if n < |y.log| {
        assert SharedAt(jobs, users, sizes, y.log, y.stores, n);
        assert z.log[..n] == y.log[..n] && z.log[..n + 1] == y.log[..n + 1];
      } else {
        assert z.log[..n] == y.log && z.log[..n + 1] == z.log;
      }
    }
  }

  /** The store after job k's action: only an upload that begins may have changed it, under its name. */
  ghost predicate Leads(sizes: map<string, nat>, x: Store, a: Action, store: Store) {
    && (if a.UploadBegin? then SameExcept(x, store, a.name) else store == x)
    && (a.Verify? ==> Verified(sizes, x, a.local, a.name, a.outcome))
  }

  predicate Idle(jobs: seq<Job>, y: Tale, k: nat, s: State) {
    k < |jobs| == |y.s.jobs| && jobs[k].Upload? && y.s.jobs[k] == Uploads(s) && y.s.consumer.Receiving?
  }

  /** Job k takes a step, and the consumer handles what it sends. */
  lemma TaleStep(jobs: seq<Job>, users: set<nat>, sizes: map<string, nat>, y: Tale, k: nat, s: State, a: Action,
                 t: State, store: Store)
    returns (z: Tale)
    requires Told(jobs, users, sizes, y) && Idle(jobs, y, k, s) && k in users
    requires Step(jobs[k].batch, s, a) == Some(t) && !a.Cancel? && Leads(sizes, Held(y), a, store)
    requires a.UploadBegin? ==> Writing(jobs[k], Uploads(t), a.name)
    ensures Told(jobs, users, sizes, z) && z.s.jobs == y.s.jobs[k := Uploads(t)] && Held(z) == store
    ensures Idle(jobs, z, k, t)
    ensures z.s.received == Heard(y.s.received, a)
  {
    hide Told, Step, Verified, Base;
    var m := Do(k, a);
    var u := SysStep(jobs, y.s, m).value;
    assert SharedStep(jobs, users, sizes, y.s, m, u, Held(y), store) by {
      forall name | !Agree(Held(y), store, name) ensures exists j :: j in users && Touches(jobs, y.s, m, u, j, name) {
        assert Touches(jobs, y.s, m, u, k, name);
      }
    }
    z := TaleMove(jobs, users, sizes, y, m, u, store);
    if a.Send? {
      z := TaleMove(jobs, users, sizes, z, Handle, SysStep(jobs, u, Handle).value, store);
    }
  }

  /** Job k announces its first file. */
  lemma TaleStarts(jobs: seq<Job>, users: set<nat>, sizes: map<string, nat>, y: Tale, k: nat)
    returns (z: Tale, s: State)
    requires Told(jobs, users, sizes, y) && k in users && k < |jobs| && jobs[k].Upload?
    requires DeliveryLimits.Usable(jobs[k].batch, sizes) && jobs[k].batch.files != []
    requires Idle(jobs, y, k, Init(jobs[k].batch))
    ensures Told(jobs, users, sizes, z) && Held(z) == Held(y) && Idle(jobs, z, k, s)
    ensures s == AfterStart(jobs[k].batch, Init(jobs[k].batch).(pc := Starting, attempt := 1, connected := true))
    ensures z.s.jobs == y.s.jobs[k := Uploads(s)] && y.s.received <= z.s.received
  {
    var b, x := jobs[k].batch, Held(y);
    var s0 := Init(b);
    hide Base, Told, Idle, Leads, Held, AfterStart, Writing, CircuitOpen;
    assert !CircuitOpen(b, s0) by { ClosedAtFirst(b); }
    LeadsNowhere(sizes, x);
    s := s0.(pc := AttemptPoll, attempt := 1);
    z := TaleStep(jobs, users, sizes, y, k, s0, Poll(false), s, x);
    z := TaleStep(jobs, users, sizes, z, k, s, Poll(false), s.(pc := Dialing), x);
    var c := s.(pc := Starting, connected := true);
    z := TaleStep(jobs, users, sizes, z, k, s.(pc := Dialing), Connect(None), c, x);
    s := AfterStart(b, c);
    z := TaleStep(jobs, users, sizes, z, k, c, Send(FileStart(b.ep.name, b.files[0], 1)), s, x);
  }

  lemma ClosedAtFirst(b: Batch)
    requires b.ep.policy.maxConnectFailures >= 1
    ensures !CircuitOpen(b, Init(b))
  {
  }

  /** Job k's first file goes from the start of the batch to the middle of its upload. */
  lemma TaleUploads(jobs: seq<Job>, users: set<nat>, sizes: map<string, nat>, y: Tale, k: nat, store: Store)
    returns (z: Tale, s: State)
    requires Told(jobs, users, sizes, y) && k in users && k < |jobs| && jobs[k].Upload?
    requires DeliveryLimits.Usable(jobs[k].batch, sizes) && jobs[k].batch.files != []
    requires Idle(jobs, y, k, Init(jobs[k].batch))
    requires SameExcept(Held(y), store, Base(jobs[k].batch.files[0]))
    ensures Told(jobs, users, sizes, z) && Held(z) == store && Idle(jobs, z, k, s)
    ensures s == Init(jobs[k].batch).(pc := Uploading, attempt := 1, connected := true)
    ensures z.s.jobs == y.s.jobs[k := Uploads(s)] && y.s.received <= z.s.received
  {
    var b, x := jobs[k].batch, Held(y);
    var file := b.files[0];
    hide Base, Told, Idle, Leads, SameExcept, Held, DeliveryLimits.Usable;
    z, s := TaleStarts(jobs, users, sizes, y, k);
    LeadsNowhere(sizes, x);
    LeadsToUpload(sizes, x, file, Base(file), store);
    var ready, up := s.(pc := UploadReady), s.(pc := Uploading);
    if b.ep.overwrite == DeleteFirst {
      z := TaleStep(jobs, users, sizes, z, k, s, Delete(Base(file), None), ready, x);
    }
    assert Writing(jobs[k], Uploads(up), Base(file));
    z := TaleStep(jobs, users, sizes, z, k, ready, UploadBegin(file, Base(file)), up, store);
    s := up;
  }

  lemma LeadsNowhere(sizes: map<string, nat>, x: Store)
    ensures forall a: Action :: !a.UploadBegin? && !a.Verify? ==> Leads(sizes, x, a, x)
  {
  }

  lemma LeadsToUpload(sizes: map<string, nat>, x: Store, file: string, name: string, store: Store)
    requires SameExcept(x, store, name)
    ensures Leads(sizes, x, UploadBegin(file, name), store)
  {
  }

  /** Nothing has happened yet. */
  lemma TaleBegins(jobs: seq<Job>, users: set<nat>, sizes: map<string, nat>) returns (y: Tale)
    ensures Told(jobs, users, sizes, y) && y.s == Start(jobs) && Held(y) == map[]
  {
    y := Tale([], Start(jobs), [map[]]);
  }

  /** Job k's first file is uploaded, verified and reported. */
  lemma TaleSucceeds(jobs: seq<Job>, users: set<nat>, sizes: map<string, nat>, k: nat) returns (z: Tale)
    requires k in users && k < |jobs| && jobs[k].Upload? && !jobs[k].batch.noVerify
    requires DeliveryLimits.Usable(jobs[k].batch, sizes) && jobs[k].batch.files != []
    ensures Told(jobs, users, sizes, z) && z.s.consumer.Receiving? && |z.s.jobs| == |jobs|
    ensures forall j :: 0 <= j < |jobs| && j != k ==> z.s.jobs[j] == JobInit(jobs[j])
    ensures FileSuccess(Owner(jobs[k]), jobs[k].batch.files[0], "size") in z.s.received
  {
    var b := jobs[k].batch;
    var file := b.files[0];
    var name := Base(file);
    var y := TaleBegins(jobs, users, sizes);
    var store: Store := Held(y)[name := sizes[file]];
    var s;
    hide Base, Told;
    z, s := TaleUploads(jobs, users, sizes, y, k, store);
    z := TaleStep(jobs, users, sizes, z, k, s, UploadEnd(None), s.(pc := Verifying), store);
    DeliveryLimits.SizesAgree(sizes, store, file, name);
    var v := s.(pc := Succeeding("size"));
    z := TaleStep(jobs, users, sizes, z, k, s.(pc := Verifying), Verify(file, name, Ok("size")), v, store);
    z := TaleStep(jobs, users, sizes, z, k, v, Send(FileSuccess(b.ep.name, file, "size")), EndFile(b, v, true), store);
  }

  /** With two jobs on one store a success event promises nothing by itself: after it has been received
      the other job's upload of the same file may leave nothing under its name, although both verify.
      Only the exit status covers that. */
  lemma SuccessCanBeUndone(jobs: seq<Job>, users: set<nat>, sizes: map<string, nat>, files: seq<string>, k: nat, j: nat)
    returns (y: Tale)
    requires SameUploads(jobs, files) && files != [] && k in users && j in users && k < |jobs| && j < |jobs| && k != j
    requires DeliveryLimits.Usable(jobs[k].batch, sizes) && DeliveryLimits.Usable(jobs[j].batch, sizes)
    ensures SysRun(jobs, y.log) == Some(y.s) && Shared(jobs, users, sizes, y.log, y.stores)
    ensures FileSuccess(Owner(jobs[k]), files[0], "size") in y.s.received
    ensures !Stored(sizes, y.stores[|y.log|], files[0])
  {
    hide Base;
    y := TaleSucceeds(jobs, users, sizes, k);
    var s;
    y, s := TaleUploads(jobs, users, sizes, y, j, Held(y) - {Base(files[0])});
  }
}
