/** The whole command, from parsed configuration and input files to the exit status: run of
    cmd/uploadfun/main.go:255-284 and dispatch of dispatch.go:31-62. */
module Command {
  import opened Types
  import opened Paths
  import opened Worker
  import opened WorkerLength
  import opened Stores
  import opened Delivery
  import opened Jobs
  import opened System
  import JobReadings
  import SystemProgress
  import WorkerOptions
  import Config
  import LoadConfigs

  datatype Options = Options(noVerify: bool, dryRun: bool)

  /** Local and remote name of a dry run's probe file. */
  datatype Probe = Probe(local: string, remote: string)

  const EXIT_CONFIG_ERROR := 2
  const EXIT_USAGE_ERROR := 3

  /** One job per endpoint.  `transports` says which protocols newUploader does not know. */
  function Dispatch(endpoints: seq<Endpoint>, files: seq<string>, opts: Options,
                    transports: seq<Option<Error>>, probes: seq<Probe>): seq<Job>
    requires |transports| == |endpoints| == |probes|
  {
    seq(|endpoints|, k requires 0 <= k < |endpoints| =>
      JobFor(endpoints[k], files, opts.noVerify, opts.dryRun, transports[k], probes[k].local, probes[k].remote))
  }

  predicate DistinctEndpoints(endpoints: seq<Endpoint>) {
    forall j, k :: 0 <= j < k < |endpoints| ==> endpoints[j].name != endpoints[k].name
  }

  lemma DispatchOwners(endpoints: seq<Endpoint>, files: seq<string>, opts: Options,
                       transports: seq<Option<Error>>, probes: seq<Probe>)
    requires |transports| == |endpoints| == |probes|
    ensures var jobs := Dispatch(endpoints, files, opts, transports, probes);
            && |jobs| == |endpoints|
            && (forall k :: 0 <= k < |jobs| ==> Owner(jobs[k]) == endpoints[k].name)
            && (DistinctEndpoints(endpoints) ==> DistinctOwners(jobs))
            && (!opts.dryRun ==> forall k :: 0 <= k < |jobs| ==> IsReal(jobs[k]) && FilesOf(jobs[k]) == files)
            && (opts.dryRun ==> forall k :: 0 <= k < |jobs| ==>
                  IsDry(jobs[k]) && (jobs[k].Dry? ==> jobs[k].probe.files == files)
                  && (jobs[k].Dry? <==> transports[k].None?))
  {
  }

  /** One DryRun event of this endpoint; it counts the files if it has no error. */
  predicate IsReport(name: string, files: nat, events: seq<Event>) {
    && |events| == 1 && events[0].DryRun? && events[0].endpoint == name
    && (events[0].err.None? ==> events[0].files == files)
  }

  predicate Passed(events: seq<Event>) {
    |events| == 1 && events[0].DryRun? && events[0].err.None?
  }

  /** Upload with distinct endpoint names, outside a dry run, for every schedule: the stream
      restricted to an endpoint is its own job's, and the command exits with 0 exactly when it has
      seen every file succeed on every endpoint. */
  lemma UploadVerdict(endpoints: seq<Endpoint>, files: seq<string>, opts: Options, transports: seq<Option<Error>>,
                      probes: seq<Probe>, log: seq<Move>, s: Sys)
    requires |transports| == |endpoints| == |probes| && DistinctEndpoints(endpoints) && !opts.dryRun
    requires SysRun(Dispatch(endpoints, files, opts, transports, probes), log) == Some(s) && s.consumer.Exited?
    ensures s.consumer.code == EXIT_OK <==> SuccessCount(s.received) == |files| * |endpoints|
    ensures forall k :: 0 <= k < |endpoints| ==> From(endpoints[k].name, s.received) == Events(Projection(k, log))
  {
    DispatchOwners(endpoints, files, opts, transports, probes);
    var jobs := Dispatch(endpoints, files, opts, transports, probes);
    hide Dispatch, SysRun, From, Events, Projection, SuccessCount, DistinctOwners;
    ExitStatus(jobs, log, s, |files|);
    forall k | 0 <= k < |endpoints| ensures From(endpoints[k].name, s.received) == Events(Projection(k, log)) {
      ReceivedFromEach(jobs, log, s, k);
    }
  }

  /** A dry run with distinct endpoint names, for every schedule: the stream holds exactly one event
      for each endpoint, a DryRun that counts the files if its preflight passed, and the command exits
      with 0 exactly when all of them passed.  An endpoint without a transport fails its preflight. */
  lemma DryRunVerdict(endpoints: seq<Endpoint>, files: seq<string>, opts: Options, transports: seq<Option<Error>>,
                      probes: seq<Probe>, log: seq<Move>, s: Sys)
    requires |transports| == |endpoints| == |probes| && DistinctEndpoints(endpoints) && opts.dryRun
    requires SysRun(Dispatch(endpoints, files, opts, transports, probes), log) == Some(s) && s.consumer.Exited?
    ensures forall k :: 0 <= k < |endpoints| ==>
            IsReport(endpoints[k].name, |files|, From(endpoints[k].name, s.received))
    ensures s.consumer.code == EXIT_OK <==>
            forall k :: 0 <= k < |endpoints| ==> Passed(From(endpoints[k].name, s.received))
    ensures s.consumer.code == EXIT_OK ==> forall k :: 0 <= k < |endpoints| ==> transports[k].None?
  {
    DispatchOwners(endpoints, files, opts, transports, probes);
    var jobs := Dispatch(endpoints, files, opts, transports, probes);
    hide Dispatch, SysRun, From, Events, Projection, DistinctOwners, Passed, IsReport, Report;
    DryExitStatus(jobs, log, s);
    forall k | 0 <= k < |endpoints|
      ensures IsReport(endpoints[k].name, |files|, From(endpoints[k].name, s.received))
      ensures Passed(From(endpoints[k].name, s.received)) <==> s.jobs[k] == Dries(DryOver(None))
      ensures s.jobs[k] == Dries(DryOver(None)) ==> transports[k].None?
    {
      ReceivedFromEach(jobs, log, s, k);
      ProjectionRuns(jobs, log, s, k);
      NoTransportFails(jobs[k], Projection(k, log), s.jobs[k]);
      ReportSays(jobs[k], endpoints[k].name, files, s.jobs[k].pc.err);
    }
  }

  lemma ReportSays(job: Job, name: string, files: seq<string>, err: Option<Error>)
    requires IsDry(job) && Owner(job) == name && (if job.Dry? then job.probe.files == files else err.Some?)
    ensures IsReport(name, |files|, [Report(job, err)])
    ensures Passed([Report(job, err)]) <==> err.None?
  {
  }

  /** What job k is, case by case. */
  lemma DispatchStarts(endpoints: seq<Endpoint>, files: seq<string>, opts: Options,
                       transports: seq<Option<Error>>, probes: seq<Probe>, k: nat)
    requires |transports| == |endpoints| == |probes| && k < |endpoints|
    ensures var job := Dispatch(endpoints, files, opts, transports, probes)[k];
            match (transports[k], opts.dryRun)
            case (None, false) => job == Upload(Batch(endpoints[k], opts.noVerify, files))
            case (None, true) => job == Dry(Preflight(endpoints[k], files, probes[k].local, probes[k].remote))
            case (Some(error), false) => job == NoTransportFor(endpoints[k], files, error)
            case (Some(error), true) => job == DryNoTransport(endpoints[k], error)
  {
  }

  /** What job k has done and seen so far, cancellations aside. */
  function Deeds(k: nat, log: seq<Move>): seq<Action> {
    JobReadings.Own(Projection(k, log))
  }

  /** A job obeys the mode and option it was started with. */
  lemma JobObeys(job: Job, log: seq<Action>, j: JobState, mode: Overwrite, noVerify: bool)
    requires JobRun(job, log) == Some(j) && IsReal(job)
    requires job.Upload? ==> job.batch.ep.overwrite == mode && job.batch.noVerify == noVerify
    ensures WorkerOptions.Obeys(mode, noVerify, JobReadings.Own(log))
  {
    hide JobRun, Run, Init, JobReadings.Own;
    if job.Upload? {
      UploadRuns(job.batch, log);
      WorkerOptions.WorkerObeys(job.batch, log, j.s);
    } else {
      JobReadings.NoTransportHolds(job, log, j);
      NoTransportObeys(job, j, JobReadings.Own(log), mode, noVerify);
    }
  }

  lemma NoTransportObeys(job: Job, j: JobState, text: seq<Action>, mode: Overwrite, noVerify: bool)
    requires job.NoTransportFor? && JobReadings.NoTransportDone(job, j, text)
    ensures WorkerOptions.Obeys(mode, noVerify, text)
  {
  }

  /** Every event received was sent by some job. */
  lemma {:induction false} HeardFrom(jobs: seq<Job>, log: seq<Move>, s: Sys, n: nat) returns (k: nat)
    requires SysRun(jobs, log) == Some(s) && n < |s.received|
    ensures k < |jobs| && Send(s.received[n]) in Deeds(k, log)
  {
    hide SysStep, Projection, Part, Start;
    assert log != [] by { NothingHeard(jobs, s); }
    var m := |log| - 1;
    SysRunOne(jobs, log, s);
    var t := SysRun(jobs, log[..m]).value;
    ReceivesOne(jobs, t, log[m], s);
    assert log[..m] + [log[m]] == log;
    if n < |t.received| {
      k := HeardFrom(jobs, log[..m], t, n);
    } else {
      SenderNamesItself(jobs, log[..m], t, log[m].k, log[m].action);
      k := log[m].k;
    }
    DeedsOne(k, log[..m], log[m]);
  }

  lemma NothingHeard(jobs: seq<Job>, s: Sys)
    ensures SysRun(jobs, []) == Some(s) ==> s.received == []
  {
  }

  lemma DeedsOne(k: nat, log: seq<Move>, m: Move)
    ensures Deeds(k, log) <= Deeds(k, log + [m])
    ensures m.Do? && m.k == k && !m.action.Cancel? ==> m.action in Deeds(k, log + [m])
  {
    ProjectionOne(k, log, m);
    hide Projection;
    var before := Projection(k, log);
    assert before + [] == before;
    if m.Do? && m.k == k {
      JobReadings.OwnOne(before, m.action);
    }
    if m.CancelAll? {
      JobReadings.OwnOne(before, Cancel);
    }
  }

  /** Outside a dry run, for every schedule: each job does with its files what its own endpoint's
      overwrite mode and the no-verify option say.  In particular the successes received claim no
      verification if it is switched off, and one that took place if it is not. */
  lemma OptionsAreObeyed(endpoints: seq<Endpoint>, files: seq<string>, opts: Options, transports: seq<Option<Error>>,
                         probes: seq<Probe>, log: seq<Move>, s: Sys)
    requires |transports| == |endpoints| == |probes| && !opts.dryRun
    requires SysRun(Dispatch(endpoints, files, opts, transports, probes), log) == Some(s)
    ensures forall k :: 0 <= k < |endpoints| ==>
            WorkerOptions.Obeys(endpoints[k].overwrite, opts.noVerify, Deeds(k, log))
    ensures forall n :: 0 <= n < |s.received| && s.received[n].FileSuccess? ==>
            if opts.noVerify then s.received[n].verifyMethod == "" else WasVerified(|endpoints|, log, s.received[n])
  {
    var jobs := Dispatch(endpoints, files, opts, transports, probes);
    hide SysRun, Projection, WorkerOptions.Obeys, JobReadings.Own;
    forall k | 0 <= k < |endpoints|
      ensures WorkerOptions.Obeys(endpoints[k].overwrite, opts.noVerify, Deeds(k, log))
    {
      DispatchStarts(endpoints, files, opts, transports, probes, k);
      ProjectionRuns(jobs, log, s, k);
      JobObeys(jobs[k], Projection(k, log), s.jobs[k], endpoints[k].overwrite, opts.noVerify);
    }
    hide Dispatch, Deeds;
    assert |jobs| == |endpoints| by { DispatchOwners(endpoints, files, opts, transports, probes); }
    forall n | 0 <= n < |s.received| && s.received[n].FileSuccess?
      ensures if opts.noVerify then s.received[n].verifyMethod == "" else WasVerified(|endpoints|, log, s.received[n])
    {
      var k := HeardFrom(jobs, log, s, n);
      SuccessObeys(endpoints[k].overwrite, opts.noVerify, k, log, s.received[n]);
    }
  }

  /** Some job's verification of the file has passed with this method. */
  ghost predicate WasVerified(jobs: nat, log: seq<Move>, e: Event)
    requires e.FileSuccess?
  {
    exists k :: 0 <= k < jobs && Verify(e.file, Base(e.file), Ok(e.verifyMethod)) in Deeds(k, log)
                && Send(e) in Deeds(k, log)
  }

  lemma SuccessObeys(mode: Overwrite, noVerify: bool, k: nat, log: seq<Move>, e: Event)
    requires WorkerOptions.Obeys(mode, noVerify, Deeds(k, log)) && e.FileSuccess? && Send(e) in Deeds(k, log)
    ensures if noVerify then e.verifyMethod == ""
            else Verify(e.file, Base(e.file), Ok(e.verifyMethod)) in Deeds(k, log)
  {
    hide Deeds, Base;
    var own := Deeds(k, log);
    var n :| 0 <= n < |own| && own[n] == Send(e);
    assert WorkerOptions.ObeysAt(mode, noVerify, own, n);
  }

  /** Either the command stops early with this exit status, or it uploads with these endpoints. */
  datatype Outcome = Stops(code: int) | Goes(endpoints: seq<Endpoint>)

  /** cmd/uploadfun/main.go:255-284 up to the call of Upload. */
  method Prepare(files: seq<string>, raw: Config.RawConfig, process: Config.Process) returns (outcome: Outcome)
    ensures outcome == Stops(EXIT_USAGE_ERROR) <==> files == [] || !DistinctBases(files)
    ensures outcome == Stops(EXIT_CONFIG_ERROR) <==>
            files != [] && DistinctBases(files) && !LoadConfigs.ValidConfig(raw, process)
    ensures outcome.Stops? ==> outcome.code == EXIT_USAGE_ERROR || outcome.code == EXIT_CONFIG_ERROR
    ensures outcome.Goes? ==>
              DistinctEndpoints(outcome.endpoints) && |outcome.endpoints| == |raw.endpoints| > 0
              && forall k :: 0 <= k < |outcome.endpoints| ==>
                   LoadConfigs.IsResolved(outcome.endpoints[k], raw.endpoints[k], raw, process)
  {
    hide LoadConfigs.IsResolved, Config.ValidEndpoint, Config.ValidPolicy;
    var collision := CheckBasenameCollisions(files);
    if collision.Some? || files == [] {
      return Stops(EXIT_USAGE_ERROR);
    }
    var loaded := LoadConfigs.LoadConfig(raw, process);
    if loaded.Err? {
      return Stops(EXIT_CONFIG_ERROR);
    }
    return Goes(loaded.value);
  }

  /** End to end.  The command goes on to upload only for valid configurations and inputs with
      distinct remote names; and then, with verification on, exit status 0 means that every file is
      on every endpoint at its local size - for every schedule, every server and every cancellation. */
  lemma ExitZeroMeansDelivered(endpoints: seq<Endpoint>, files: seq<string>, transports: seq<Option<Error>>,
                               probes: seq<Probe>, log: seq<Move>, s: Sys, sizes: map<string, nat>,
                               stores: seq<seq<Store>>)
    requires |transports| == |endpoints| == |probes| == |stores| && files != [] && DistinctBases(files)
    requires SysRun(Dispatch(endpoints, files, Options(false, false), transports, probes), log) == Some(s)
    requires s.consumer == Exited(EXIT_OK)
    requires forall k :: 0 <= k < |endpoints| ==> Follows(sizes, Projection(k, log), stores[k])
    ensures forall k :: 0 <= k < |endpoints| ==> transports[k].None?
    ensures forall k, f :: 0 <= k < |endpoints| && f in files ==> SystemProgress.EndsStored(sizes, stores[k], f)
  {
    var jobs := Dispatch(endpoints, files, Options(false, false), transports, probes);
    assert |jobs| == |endpoints|;
    forall k | 0 <= k < |endpoints| ensures transports[k].None? {
      TransportIsKnown(jobs, log, s, k);
    }
    hide SysRun, Projection, Follows, DistinctBases, SystemProgress.EndsStored;
    SystemProgress.ExitZeroMeansDelivered(jobs, log, s, files, sizes, stores);
  }

  /** An endpoint without a transport fails every file, and the command does not exit with 0. */
  lemma TransportIsKnown(jobs: seq<Job>, log: seq<Move>, s: Sys, k: nat)
    requires SysRun(jobs, log) == Some(s) && s.consumer == Exited(EXIT_OK)
    requires k < |jobs| && IsReal(jobs[k]) && FilesOf(jobs[k]) != []
    ensures jobs[k].Upload?
  {
    hide SysRun, Projection, Events, HasAlarm;
    var raised := Raised(k, log);
    ConsumerHolds(jobs, log, s);
    AlarmsAddUp(jobs, log, s);
    ProjectionRuns(jobs, log, s, k);
    JobHolds(jobs[k], Projection(k, log), s.jobs[k]);
    JobVerdict(jobs[k], Projection(k, log), s.jobs[k]);
  }
}
