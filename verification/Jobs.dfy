/** What one goroutine of dispatch does: upload a batch, run the dry-run preflight, or report
    that there is no transport for the protocol (dispatch.go:43-62, 298-344, 370-375). */
module Jobs {
  import opened Types
  import opened Worker
  import opened WorkerSafety
  import opened WorkerLength

  /** `local` and `remote` name the probe file; `transport` is newUploader's error, if any. */
  datatype Preflight = Preflight(ep: Endpoint, files: seq<string>, local: string, remote: string)

  datatype Job =
    | Upload(batch: Batch)
    | Dry(probe: Preflight)
    | DryNoTransport(ep: Endpoint, error: Error)
    | NoTransportFor(ep: Endpoint, files: seq<string>, error: Error)

  datatype DryPc =
    | DryDialing
    | DryLocal               // about to write the local probe file
    | DryUploadReady
    | DryUploading
    | DryDeleting
    | DryReporting(err: Option<Error>, connected: bool)
    | DryClosing(err: Option<Error>) // the deferred disconnect
    | DryOver(err: Option<Error>)

  datatype JobState =
    | Uploads(s: State)
    | Dries(pc: DryPc)
    | Fails(next: nat)       // files reported so far; one more for Done

  /** runEndpoint's choice. */
  function JobFor(ep: Endpoint, files: seq<string>, noVerify: bool, dryRun: bool,
                  transport: Option<Error>, local: string, remote: string): Job
  {
    if transport.Some? then
      if dryRun then DryNoTransport(ep, transport.value) else NoTransportFor(ep, files, transport.value)
    else if dryRun then Dry(Preflight(ep, files, local, remote))
    else Upload(Batch(ep, noVerify, files))
  }

  function Owner(job: Job): string {
    match job
    case Upload(b) => b.ep.name
    case Dry(p) => p.ep.name
    case DryNoTransport(ep, _) => ep.name
    case NoTransportFor(ep, _, _) => ep.name
  }

  function JobInit(job: Job): JobState {
    match job
    case Upload(b) => Uploads(Init(b))
    case Dry(_) => Dries(DryDialing)
    case DryNoTransport(_, error) => Dries(DryReporting(Some(error), false))
    case NoTransportFor(_, _, _) => Fails(0)
  }

  predicate Over(job: Job, j: JobState) {
    match j
    case Uploads(s) => s.pc.Halted?
    case Dries(pc) => pc.DryOver?
    case Fails(next) => job.NoTransportFor? && next > |job.files|
  }

  /** probeWritable and runDryRun; progress callbacks of the probe upload send nothing. */
  function DryStep(p: Preflight, pc: DryPc, a: Action): Option<DryPc> {
    match pc
    case DryDialing =>
      if !a.Connect? then None
      else if a.failure.Some? then Some(DryReporting(a.failure, false)) else Some(DryLocal)
    case DryLocal =>
      if !a.ProbeFile? then None
      else if a.failure.Some? then Some(DryReporting(a.failure, true)) else Some(DryUploadReady)
    case DryUploadReady => if a == UploadBegin(p.local, p.remote) then Some(DryUploading) else None
    case DryUploading =>
      if !a.UploadEnd? then None
      else if a.failure.Some? then Some(DryReporting(a.failure, true)) else Some(DryDeleting)
    case DryDeleting =>
      if !a.Delete? || a.name != p.remote then None else Some(DryReporting(a.failure, true))
    case DryReporting(err, connected) =>
      if a == Send(DryReport(p, err))
      then Some(if connected then DryClosing(err) else DryOver(err)) else None
    case DryClosing(err) => if a == Disconnect then Some(DryOver(err)) else None
    case DryOver(_) => None
  }

  /** failAllFiles */
  function FailStep(ep: Endpoint, files: seq<string>, error: Error, next: nat, a: Action): Option<nat> {
    if next < |files| then
      if a == Send(FileError(ep.name, files[next], 1, NoTransport(error))) then Some(next + 1) else None
    else if next == |files| && a == Send(Done(ep.name, 0, |files|)) then Some(next + 1)
    else None
  }

  function JobStep(job: Job, j: JobState, a: Action): Option<JobState> {
    match (job, j)
    case (Upload(b), Uploads(s)) => (match Step(b, s, a) case Some(t) => Some(Uploads(t)) case None => None)
    case (Dry(p), Dries(pc)) => if a.Cancel? then Some(j) else Lift(DryStep(p, pc, a))
    case (DryNoTransport(ep, _), Dries(pc)) =>
      if a.Cancel? then Some(j) else Lift(DryStep(Preflight(ep, [], "", ""), pc, a))
    case (NoTransportFor(ep, files, error), Fails(next)) =>
      if a.Cancel? then Some(j)
      else (match FailStep(ep, files, error, next, a) case Some(k) => Some(Fails(k)) case None => None)
    case _ => None
  }

  function Lift(pc: Option<DryPc>): Option<JobState> {
    match pc case Some(q) => Some(Dries(q)) case None => None
  }

  function JobRun(job: Job, log: seq<Action>): Option<JobState> {
    if log == [] then Some(JobInit(job))
    else
      match JobRun(job, log[..|log| - 1])
      case None => None
      case Some(j) => JobStep(job, j, log[|log| - 1])
  }

  lemma JobRunOne(job: Job, log: seq<Action>, a: Action)
    ensures JobRun(job, log + [a]) ==
            match JobRun(job, log) case None => None case Some(j) => JobStep(job, j, a)
  {
    assert (log + [a])[..|log|] == log;
  }

  /** An upload job runs exactly as its worker does. */
  lemma {:induction false} UploadRuns(b: Batch, log: seq<Action>)
    ensures JobRun(Upload(b), log) ==
            match Run(b, Init(b), log) case Some(s) => Some(Uploads(s)) case None => None
  {
    hide Step, Init;
    if log != [] {
      UploadRuns(b, log[..|log| - 1]);
    }
  }

  // ---------------------------------------------------------------- every job

  /** What every job keeps: it is what it set out to be, its events are its own and add up, and
      it has sent its closing event exactly when it is about to end. */
  predicate JobInv(job: Job, j: JobState, events: seq<Event>) {
    && (forall k :: 0 <= k < |events| ==> events[k].endpoint == Owner(job))
    && match (job, j)
       case (Upload(b), Uploads(s)) => Inv(b, s) && EventsInv(b, s, events)
       case (Dry(p), Dries(pc)) => DryInv(p, pc, events)
       case (DryNoTransport(ep, _), Dries(pc)) => DryInv(Preflight(ep, [], "", ""), pc, events)
       case (NoTransportFor(ep, files, _), Fails(next)) =>
         next <= |files| + 1 && SuccessCount(events) == 0
         && (if next <= |files| then forall k :: 0 <= k < |events| ==> events[k].FileError?
             else events != [] && events[|events| - 1] == Done(ep.name, 0, |files|)
                  && forall k :: 0 <= k < |events| - 1 ==> events[k].FileError?)
       case _ => false
  }

  predicate DryInv(p: Preflight, pc: DryPc, events: seq<Event>) {
    if pc.DryClosing? || pc.DryOver? then events == [DryReport(p, pc.err)] else events == []
  }

  function DryReport(p: Preflight, err: Option<Error>): Event {
    DryRun(p.ep.name, if err.Some? then 0 else |p.files|, err)
  }

  function Heard(events: seq<Event>, a: Action): seq<Event> {
    if a.Send? then events + [a.event] else events
  }

  lemma JobInvStep(job: Job, j: JobState, a: Action, t: JobState, events: seq<Event>)
    requires JobInv(job, j, events) && JobStep(job, j, a) == Some(t)
    ensures JobInv(job, t, Heard(events, a))
  {
    if job.Upload? {
      UploadInvStep(job, j, a, t, events);
    } else if job.NoTransportFor? {
      FailInvStep(job, j, a, t, events);
    } else {
      DryInvStep(job, j, a, t, events);
    }
  }

  lemma UploadInvStep(job: Job, j: JobState, a: Action, t: JobState, events: seq<Event>)
    requires job.Upload? && JobInv(job, j, events) && JobStep(job, j, a) == Some(t)
    ensures JobInv(job, t, Heard(events, a))
  {
    hide Step, Inv, EventsInv;
    InvStep(job.batch, j.s, a, t.s);
    EventsStep(job.batch, j.s, a, t.s, events);
    SendStep(job.batch, j.s, a, t.s);
  }

  lemma DryInvStep(job: Job, j: JobState, a: Action, t: JobState, events: seq<Event>)
    requires (job.Dry? || job.DryNoTransport?) && JobInv(job, j, events) && JobStep(job, j, a) == Some(t)
    ensures JobInv(job, t, Heard(events, a))
  {
  }

  lemma FailInvStep(job: Job, j: JobState, a: Action, t: JobState, events: seq<Event>)
    requires job.NoTransportFor? && JobInv(job, j, events) && JobStep(job, j, a) == Some(t)
    ensures JobInv(job, t, Heard(events, a))
  {
    hide Step, Inv, EventsInv, DryStep, SuccessCount;
    if a.Send? {
      SuccessOne(events, a.event);
    }
  }

  lemma {:induction false} JobHolds(job: Job, log: seq<Action>, j: JobState)
    requires JobRun(job, log) == Some(j)
    ensures JobInv(job, j, Events(log))
  {
    hide JobInv, JobStep, JobInit;
    if log == [] {
      JobInvInit(job);
    } else {
      var m := |log| - 1;
      var t := JobRun(job, log[..m]).value;
      JobHolds(job, log[..m], t);
      JobInvStep(job, t, log[m], j, Events(log[..m]));
      assert Heard(Events(log[..m]), log[m]) == Events(log);
    }
  }

  lemma JobInvInit(job: Job)
    ensures JobInv(job, JobInit(job), [])
  {
    if job.Upload? {
      InvInit(job.batch);
      EventsInit(job.batch);
    }
  }

  /** A dry run without a transport can only report that. */
  lemma {:induction false} NoTransportFails(job: Job, log: seq<Action>, j: JobState)
    requires JobRun(job, log) == Some(j)
    ensures job.DryNoTransport? ==>
              j == Dries(DryReporting(Some(job.error), false)) || j == Dries(DryOver(Some(job.error)))
  {
    hide Step, Init, FailStep;
    if log != [] {
      NoTransportFails(job, log[..|log| - 1], JobRun(job, log[..|log| - 1]).value);
    }
  }

  // ---------------------------------------------------------------- progress

  function DryStepsLeft(pc: DryPc): nat {
    match pc
    case DryDialing => 7
    case DryLocal => 6
    case DryUploadReady => 5
    case DryUploading => 4
    case DryDeleting => 3
    case DryReporting(_, _) => 2
    case DryClosing(_) => 1
    case DryOver(_) => 0
  }

  function JobFuel(job: Job, j: JobState): int {
    match j
    case Uploads(s) => if job.Upload? then Fuel(OwnSteps, job.batch, s) else 0
    case Dries(pc) => DryStepsLeft(pc)
    case Fails(next) => if job.NoTransportFor? then |job.files| + 1 - next else 0
  }

  lemma JobBurns(job: Job, j: JobState, a: Action, t: JobState, events: seq<Event>)
    requires JobInv(job, j, events) && JobStep(job, j, a) == Some(t)
    ensures Charge(OwnSteps, a) + JobFuel(job, t) <= JobFuel(job, j)
  {
    hide Step, Inv, EventsInv, Fuel;
    if job.Upload? {
      BurnStep(OwnSteps, job.batch, j.s, a, t.s);
    }
  }

  lemma JobFuelFloor(job: Job, j: JobState, events: seq<Event>)
    requires JobInv(job, j, events)
    ensures 0 <= JobFuel(job, j)
  {
    hide Inv, EventsInv, Fuel;
    if job.Upload? {
      FuelFloor(OwnSteps, job.batch, j.s);
    }
  }

  /** Until it is over a job has a step to take, whatever the outside world answers. */
  lemma JobReady(job: Job, j: JobState, events: seq<Event>, failure: Option<Error>) returns (a: Action, t: JobState)
    requires JobInv(job, j, events) && !Over(job, j)
    ensures JobStep(job, j, a) == Some(t) && !a.Cancel?
  {
    hide EventsInv, Step, Inv;
    match j {
    case Uploads(s) =>
      NextIsReady(job.batch, s, failure);
      a := Next(job.batch, s, failure);
    case Dries(pc) =>
      var p := if job.Dry? then job.probe else Preflight(job.ep, [], "", "");
      a := match pc
        case DryDialing => Connect(failure)
        case DryLocal => ProbeFile(failure)
        case DryUploadReady => UploadBegin(p.local, p.remote)
        case DryUploading => UploadEnd(failure)
        case DryDeleting => Delete(p.remote, failure)
        case DryReporting(err, _) => Send(DryReport(p, err))
        case _ => Disconnect;
    case Fails(next) =>
      a := if next < |job.files| then Send(FileError(job.ep.name, job.files[next], 1, NoTransport(job.error)))
           else Send(Done(job.ep.name, 0, |job.files|));
    }
    t := JobStep(job, j, a).value;
  }

  // ---------------------------------------------------------------- verdicts

  /** The events that make the command exit with a failure (cmd/uploadfun/printer.go:64-79). */
  predicate Alarming(e: Event) {
    (e.Done? && e.failed > 0) || (e.DryRun? && e.err.Some?)
  }

  predicate HasAlarm(events: seq<Event>) {
    exists k :: 0 <= k < |events| && Alarming(events[k])
  }

  predicate IsReal(job: Job) { job.Upload? || job.NoTransportFor? }

  function FilesOf(job: Job): seq<string>
    requires IsReal(job)
  {
    if job.Upload? then job.batch.files else job.files
  }

  /** A finished job raises the alarm exactly when some file did not succeed. */
  lemma JobVerdict(job: Job, log: seq<Action>, j: JobState)
    requires JobRun(job, log) == Some(j) && Over(job, j) && IsReal(job)
    ensures HasAlarm(Events(log)) <==> SuccessCount(Events(log)) < |FilesOf(job)|
    ensures SuccessCount(Events(log)) <= |FilesOf(job)|
  {
    hide JobRun, PlaceInv, BreakerInv;
    JobHolds(job, log, j);
    var events := Events(log);
    hide Events;
    var m := |events| - 1;
    if events[m].failed > 0 {
      assert Alarming(events[m]);
    }
  }
}
