/** The concurrent system never deadlocks and always ends, and what its exit status 0 promises
    about the remote stores. */
module SystemProgress {
  import opened Types
  import opened Paths
  import opened Worker
  import opened WorkerLength
  import opened Stores
  import opened Delivery
  import opened Jobs
  import opened System

  // ---------------------------------------------------------------- no deadlock

  /** In every reachable state short of the end some goroutine can move, cancellations aside, for
      any answer the outside world may give. */
  lemma NoDeadlock(jobs: seq<Job>, log: seq<Move>, s: Sys, failure: Option<Error>) returns (m: Move)
    requires SysRun(jobs, log) == Some(s) && !s.consumer.Exited?
    ensures !m.CancelAll? && SysStep(jobs, s, m).Some?
  {
    hide JobStep, JobInit, Over, HasAlarm, JobInv, SysRun, Alarming;
    ConsumerHolds(jobs, log, s);
    if s.consumer.Handling? {
      m := Handle;
    } else if s.closed {
      m := Exit;
    } else if AllOver(jobs, s.jobs) {
      m := Close;
    } else {
      var k :| 0 <= k < |jobs| && !Over(jobs[k], s.jobs[k]);
      ProjectionRuns(jobs, log, s, k);
      JobHolds(jobs[k], Projection(k, log), s.jobs[k]);
      var a, t := JobReady(jobs[k], s.jobs[k], Events(Projection(k, log)), failure);
      m := Do(k, a);
    }
  }

  // ---------------------------------------------------------------- every run ends

  /** The fuel of the first m jobs. */
  function Fuels(m: nat, jobs: seq<Job>, js: seq<JobState>): int
    requires m <= |jobs| == |js|
  {
    if m == 0 then 0 else Fuels(m - 1, jobs, js) + JobFuel(jobs[m - 1], js[m - 1])
  }

  /** The measure every move lowers, except that a progress event may raise it by one and a
      cancellation leaves it. */
  function Measure(jobs: seq<Job>, s: Sys): int
    requires |s.jobs| == |jobs|
  {
    2 * Fuels(|jobs|, jobs, s.jobs)
    + (if s.consumer.Handling? then 1 else 0)
    + (if s.closed then 0 else 1)
    + (if s.consumer.Exited? then 0 else 1)
  }

  predicate IsTick(m: Move) { m.Do? && IsProgress(m.action) }
  predicate IsCancel(m: Move) { m.CancelAll? }

  function Moves(p: Move -> bool, log: seq<Move>): nat {
    if log == [] then 0 else Moves(p, log[..|log| - 1]) + if p(log[|log| - 1]) then 1 else 0
  }

  lemma {:induction false} FuelsUpdate(m: nat, jobs: seq<Job>, js: seq<JobState>, k: nat, t: JobState)
    requires m <= |jobs| == |js| && k < |jobs|
    ensures Fuels(m, jobs, js[k := t]) ==
            Fuels(m, jobs, js) + if k < m then JobFuel(jobs[k], t) - JobFuel(jobs[k], js[k]) else 0
  {
    hide JobFuel;
    if m > 0 { FuelsUpdate(m - 1, jobs, js, k, t); }
  }

  lemma {:induction false} FuelsBelow(m: nat, jobs: seq<Job>, js: seq<JobState>, js': seq<JobState>)
    requires m <= |jobs| == |js| == |js'|
    requires forall k :: 0 <= k < m ==> JobFuel(jobs[k], js'[k]) <= JobFuel(jobs[k], js[k])
    ensures Fuels(m, jobs, js') <= Fuels(m, jobs, js)
  {
    hide JobFuel;
    if m > 0 { FuelsBelow(m - 1, jobs, js, js'); }
  }

  lemma {:induction false} FuelsFloor(m: nat, jobs: seq<Job>, js: seq<JobState>)
    requires m <= |jobs| == |js|
    requires forall k :: 0 <= k < m ==> 0 <= JobFuel(jobs[k], js[k])
    ensures 0 <= Fuels(m, jobs, js)
  {
    hide JobFuel;
    if m > 0 { FuelsFloor(m - 1, jobs, js); }
  }

  lemma MeasureStep(jobs: seq<Job>, log: seq<Move>, s: Sys, m: Move, t: Sys)
    requires SysRun(jobs, log) == Some(s) && |s.jobs| == |jobs| && SysStep(jobs, s, m) == Some(t)
    requires ConsumerInv(jobs, s)
    ensures |t.jobs| == |jobs|
    ensures Measure(jobs, t) <= Measure(jobs, s) + if IsTick(m) then 1 else if IsCancel(m) then 0 else -1
  {
    hide JobStep, JobFuel, JobInv, Over, HasAlarm, SysRun, JobInit, Alarming;
    match m
    case Do(k, a) =>
      ProjectionRuns(jobs, log, s, k);
      JobHolds(jobs[k], Projection(k, log), s.jobs[k]);
      JobBurns(jobs[k], s.jobs[k], a, t.jobs[k], Events(Projection(k, log)));
      FuelsUpdate(|jobs|, jobs, s.jobs, k, t.jobs[k]);
    case CancelAll =>
      forall k | 0 <= k < |jobs| ensures JobFuel(jobs[k], t.jobs[k]) <= JobFuel(jobs[k], s.jobs[k]) {
        ProjectionRuns(jobs, log, s, k);
        JobHolds(jobs[k], Projection(k, log), s.jobs[k]);
        CancelAlways(jobs[k], s.jobs[k], Events(Projection(k, log)));
        JobBurns(jobs[k], s.jobs[k], Cancel, t.jobs[k], Events(Projection(k, log)));
      }
      FuelsBelow(|jobs|, jobs, s.jobs, t.jobs);
    case _ =>
  }

  /** Every run of the system is at most as long as its fuel at the start, plus two moves for each
      progress event and one for each cancellation.  So if every upload calls back finitely often
      the system comes to an end, and NoDeadlock says that the end is the consumer's exit. */
  lemma {:induction false} EveryRunEnds(jobs: seq<Job>, log: seq<Move>, s: Sys)
    requires SysRun(jobs, log) == Some(s)
    ensures |s.jobs| == |jobs| && 0 <= Measure(jobs, s)
    ensures |log| + Measure(jobs, s) <=
            Measure(jobs, Start(jobs)) + 2 * Moves(IsTick, log) + Moves(IsCancel, log)
  {
    hide JobStep, JobFuel, JobInv, Over, HasAlarm, JobInit, SysStep, Measure;
    ConsumerHolds(jobs, log, s);
    MeasureFloor(jobs, log, s);
    if log != [] {
      var m := |log| - 1;
      var t := SysRun(jobs, log[..m]).value;
      EveryRunEnds(jobs, log[..m], t);
      ConsumerHolds(jobs, log[..m], t);
      MeasureStep(jobs, log[..m], t, log[m], s);
    }
  }

  lemma MeasureFloor(jobs: seq<Job>, log: seq<Move>, s: Sys)
    requires SysRun(jobs, log) == Some(s) && |s.jobs| == |jobs|
    ensures 0 <= Measure(jobs, s)
  {
    hide JobFuel, JobInv, SysRun;
    forall k | 0 <= k < |jobs| ensures 0 <= JobFuel(jobs[k], s.jobs[k]) {
      ProjectionRuns(jobs, log, s, k);
      JobHolds(jobs[k], Projection(k, log), s.jobs[k]);
      JobFuelFloor(jobs[k], s.jobs[k], Events(Projection(k, log)));
    }
    FuelsFloor(|jobs|, jobs, s.jobs);
  }

  // ---------------------------------------------------------------- exit status 0

  predicate EndsStored(sizes: map<string, nat>, stores: seq<Store>, file: string) {
    stores != [] && Stored(sizes, stores[|stores| - 1], file)
  }

  /** Exit status 0, with verification on and an input the command line accepts, means that every
      file is on every endpoint at exactly its local size, for every schedule, every behaviour of
      the servers and every cancellation.  `stores[k]` follows what job k does to its own store. */
  lemma ExitZeroMeansDelivered(jobs: seq<Job>, log: seq<Move>, s: Sys, files: seq<string>,
                               sizes: map<string, nat>, stores: seq<seq<Store>>)
    requires SysRun(jobs, log) == Some(s) && s.consumer == Exited(EXIT_OK)
    requires DistinctBases(files) && |stores| == |jobs|
    requires forall k :: 0 <= k < |jobs| ==> jobs[k].Upload? && jobs[k].batch.files == files && !jobs[k].batch.noVerify
    requires forall k :: 0 <= k < |jobs| ==> Follows(sizes, Projection(k, log), stores[k])
    ensures forall k, f :: 0 <= k < |jobs| && f in files ==>
      EndsStored(sizes, stores[k], f)
  {
    hide SysRun, HasAlarm, Projection, Events, Stored, StoreStep, DistinctBases;
    ConsumerHolds(jobs, log, s);
    AlarmsAddUp(jobs, log, s);
    forall k, f | 0 <= k < |jobs| && f in files
      ensures EndsStored(sizes, stores[k], f)
    {
      var b, mine := jobs[k].batch, Projection(k, log);
      ProjectionRuns(jobs, log, s, k);
      assert !Raised(k, log);
      UploadRuns(b, mine);
      QuietMeansNoFailure(b, mine, s.jobs[k].s);
      SuccessMeansDelivered(b, sizes, mine, s.jobs[k].s, stores[k]);
    }
  }

  lemma QuietMeansNoFailure(b: Batch, log: seq<Action>, s: State)
    requires Reaches(b, log, s) && s.pc.Halted? && !HasAlarm(Events(log))
    ensures s.failed == 0
  {
    hide Run, Events;
    EventsHold(b, log, s);
    var events := Events(log);
    assert !Alarming(events[|events| - 1]);
  }
}
