/** Exactly what the jobs that upload no batch do: a dry run's preflight, and the report of an endpoint
    without a transport (dispatch.go:43-59, 298-344, 370-375). */
module JobReadings {
  import opened Types
  import opened Worker
  import opened Jobs

  /** A log without cancellations, which these jobs leave to the calls they make. */
  function Own(log: seq<Action>): seq<Action> {
    if log == [] then []
    else Own(log[..|log| - 1]) + if log[|log| - 1].Cancel? then [] else [log[|log| - 1]]
  }

  lemma OwnOne(log: seq<Action>, a: Action)
    ensures Own(log + [a]) == Own(log) + if a.Cancel? then [] else [a]
  {
    assert (log + [a])[..|log|] == log;
  }

  // ---------------------------------------------------------------- dry runs

  /** How a preflight turns out: it passes, or one call of it fails. */
  datatype Outcome =
    | NoConnection(error: Error)
    | NoProbeFile(error: Error)
    | NotWritable(error: Error)
    | NotDeleted(error: Error)
    | Passes

  function ErrorOf(o: Outcome): Option<Error> {
    if o.Passes? then None else Some(o.error)
  }

  /** The event that reports it: the error, or how many files would be uploaded. */
  function ReportOf(p: Preflight, o: Outcome): Event {
    match o
    case Passes => DryRun(p.ep.name, |p.files|, None)
    case _ => DryRun(p.ep.name, 0, Some(o.error))
  }

  /** The calls of a preflight, up to the first that fails. */
  function Calls(p: Preflight, o: Outcome): seq<Action> {
    match o
    case NoConnection(e) => [Connect(Some(e))]
    case NoProbeFile(e) => [Connect(None), ProbeFile(Some(e))]
    case NotWritable(e) => [Connect(None), ProbeFile(None), UploadBegin(p.local, p.remote), UploadEnd(Some(e))]
    case NotDeleted(e) =>
      [Connect(None), ProbeFile(None), UploadBegin(p.local, p.remote), UploadEnd(None), Delete(p.remote, Some(e))]
    case Passes =>
      [Connect(None), ProbeFile(None), UploadBegin(p.local, p.remote), UploadEnd(None), Delete(p.remote, None)]
  }

  /** The whole of a dry run. */
  function DryReading(p: Preflight, o: Outcome): seq<Action> {
    Calls(p, o) + [Send(ReportOf(p, o))] + if o.NoConnection? then [] else [Disconnect]
  }

  /** What a dry run has done when it stands here; `o` is how it turns out, if that is known. */
  function SoFar(p: Preflight, pc: DryPc, o: Outcome): seq<Action> {
    match pc
    case DryDialing => []
    case DryLocal => [Connect(None)]
    case DryUploadReady => [Connect(None), ProbeFile(None)]
    case DryUploading => [Connect(None), ProbeFile(None), UploadBegin(p.local, p.remote)]
    case DryDeleting => [Connect(None), ProbeFile(None), UploadBegin(p.local, p.remote), UploadEnd(None)]
    case DryReporting(_, _) => Calls(p, o)
    case DryClosing(_) => Calls(p, o) + [Send(ReportOf(p, o))]
    case DryOver(_) => DryReading(p, o)
  }

  predicate Fits(pc: DryPc, o: Outcome) {
    match pc
    case DryReporting(err, connected) => err == ErrorOf(o) && connected == !o.NoConnection?
    case DryClosing(err) => err == ErrorOf(o) && !o.NoConnection?
    case DryOver(err) => err == ErrorOf(o)
    case _ => true
  }

  lemma DryReads(p: Preflight, pc: DryPc, a: Action, q: DryPc, o: Outcome) returns (r: Outcome)
    requires DryStep(p, pc, a) == Some(q) && Fits(pc, o)
    ensures Fits(q, r) && SoFar(p, q, r) == SoFar(p, pc, o) + [a]
  {
    match pc
    case DryDialing => r := if a.failure.Some? then NoConnection(a.failure.value) else o;
    case DryLocal => r := if a.failure.Some? then NoProbeFile(a.failure.value) else o;
    case DryUploading => r := if a.failure.Some? then NotWritable(a.failure.value) else o;
    case DryDeleting => r := if a.failure.Some? then NotDeleted(a.failure.value) else Passes;
    case _ => r := o;
  }

  lemma {:induction false} DryRunReads(p: Preflight, log: seq<Action>, pc: DryPc) returns (o: Outcome)
    requires JobRun(Dry(p), log) == Some(Dries(pc))
    ensures Fits(pc, o) && Own(log) == SoFar(p, pc, o)
  {
    hide DryStep, Fits, SoFar;
    if log == [] {
      o := Passes;
      DryReadsNothing(p, o);
    } else {
      var m := |log| - 1;
      var q := JobRun(Dry(p), log[..m]).value.pc;
      o := DryRunReads(p, log[..m], q);
      assert Own(log[..m]) + [] == Own(log[..m]);
      if !log[m].Cancel? {
        o := DryReads(p, q, log[m], pc, o);
      }
    }
  }

  lemma DryReadsNothing(p: Preflight, o: Outcome)
    ensures Fits(DryDialing, o) && SoFar(p, DryDialing, o) == []
  {
  }

  ghost predicate IsDryReading(p: Preflight, err: Option<Error>, text: seq<Action>) {
    exists o :: ErrorOf(o) == err && text == DryReading(p, o)
  }

  /** A dry run can do this and end with this result, cancellations aside. */
  ghost predicate CanDo(job: Job, j: JobState, text: seq<Action>) {
    exists log :: JobRun(job, log) == Some(j) && Own(log) == text
  }

  /** One more action of the job's own. */
  lemma Grows(job: Job, log: seq<Action>, j: JobState, a: Action, t: JobState)
    requires JobRun(job, log) == Some(j) && Own(log) == log && JobStep(job, j, a) == Some(t) && !a.Cancel?
    ensures JobRun(job, log + [a]) == Some(t) && Own(log + [a]) == log + [a]
  {
    hide JobStep;
    JobRunOne(job, log, a);
    OwnOne(log, a);
  }

  lemma DryCallsHappen(p: Preflight, o: Outcome)
    ensures var log := Calls(p, o);
            && JobRun(Dry(p), log) == Some(Dries(DryReporting(ErrorOf(o), !o.NoConnection?)))
            && Own(log) == log
  {
    hide JobRun, Own;
    var job := Dry(p);
    var reporting := Dries(DryReporting(ErrorOf(o), !o.NoConnection?));
    NothingRuns(job);
    if o.NoConnection? {
      Grows(job, [], Dries(DryDialing), Connect(Some(o.error)), reporting);
      assert Calls(p, o) == [] + [Connect(Some(o.error))];
    } else {
      Grows(job, [], Dries(DryDialing), Connect(None), Dries(DryLocal));
      var log := [Connect(None)];
      assert [] + log == log;
      if o.NoProbeFile? {
        Grows(job, log, Dries(DryLocal), ProbeFile(Some(o.error)), reporting);
        assert Calls(p, o) == log + [ProbeFile(Some(o.error))];
      } else {
        Grows(job, log, Dries(DryLocal), ProbeFile(None), Dries(DryUploadReady));
        log := log + [ProbeFile(None)];
        Grows(job, log, Dries(DryUploadReady), UploadBegin(p.local, p.remote), Dries(DryUploading));
        DryUploadHappens(p, o, log + [UploadBegin(p.local, p.remote)]);
      }
    }
  }

  lemma NothingRuns(job: Job)
    ensures JobRun(job, []) == Some(JobInit(job)) && Own([]) == []
  {
  }

  lemma DryUploadHappens(p: Preflight, o: Outcome, log: seq<Action>)
    requires log == [Connect(None), ProbeFile(None), UploadBegin(p.local, p.remote)]
    requires JobRun(Dry(p), log) == Some(Dries(DryUploading)) && Own(log) == log
    requires !o.NoConnection? && !o.NoProbeFile?
    ensures JobRun(Dry(p), Calls(p, o)) == Some(Dries(DryReporting(ErrorOf(o), true)))
    ensures Own(Calls(p, o)) == Calls(p, o)
  {
    hide JobRun, Own;
    var job, reporting := Dry(p), Dries(DryReporting(ErrorOf(o), true));
    if o.NotWritable? {
      Grows(job, log, Dries(DryUploading), UploadEnd(Some(o.error)), reporting);
      assert Calls(p, o) == log + [UploadEnd(Some(o.error))];
    } else {
      Grows(job, log, Dries(DryUploading), UploadEnd(None), Dries(DryDeleting));
      Grows(job, log + [UploadEnd(None)], Dries(DryDeleting), Delete(p.remote, ErrorOf(o)), reporting);
      assert Calls(p, o) == log + [UploadEnd(None)] + [Delete(p.remote, ErrorOf(o))];
    }
  }

  lemma DryHappens(p: Preflight, o: Outcome)
    ensures JobRun(Dry(p), DryReading(p, o)) == Some(Dries(DryOver(ErrorOf(o))))
    ensures Own(DryReading(p, o)) == DryReading(p, o)
  {
    hide JobRun, Own, Calls;
    DryCallsHappen(p, o);
    var job, err, calls := Dry(p), ErrorOf(o), Calls(p, o);
    var report := Send(ReportOf(p, o));
    if o.NoConnection? {
      Grows(job, calls, Dries(DryReporting(err, false)), report, Dries(DryOver(err)));
      assert DryReading(p, o) == calls + [report];
    } else {
      Grows(job, calls, Dries(DryReporting(err, true)), report, Dries(DryClosing(err)));
      Grows(job, calls + [report], Dries(DryClosing(err)), Disconnect, Dries(DryOver(err)));
    }
  }

  /** A dry run connects, writes its probe file, uploads it and deletes it, in this order and up to the
      first call that fails; it reports the error of that call, or the number of files if none fails, and
      disconnects if it had connected.  It can do each of these things and nothing else. */
  lemma DryRunIsExact(p: Preflight, err: Option<Error>, text: seq<Action>)
    ensures CanDo(Dry(p), Dries(DryOver(err)), text) <==> IsDryReading(p, err, text)
  {
    hide JobRun, Own, DryReading;
    if CanDo(Dry(p), Dries(DryOver(err)), text) {
      var log :| JobRun(Dry(p), log) == Some(Dries(DryOver(err))) && Own(log) == text;
      var o := DryRunReads(p, log, DryOver(err));
    }
    if IsDryReading(p, err, text) {
      var o :| ErrorOf(o) == err && text == DryReading(p, o);
      DryHappens(p, o);
    }
  }

  // ---------------------------------------------------------------- no transport

  /** The report of a dry run without a transport, and of the files of an upload without one. */
  function NoTransportReading(job: Job): seq<Action>
    requires job.DryNoTransport? || job.NoTransportFor?
  {
    match job
    case DryNoTransport(ep, error) => [Send(DryRun(ep.name, 0, Some(error)))]
    case NoTransportFor(ep, files, error) =>
      FileErrors(ep.name, files, error) + [Send(Done(ep.name, 0, |files|))]
  }

  /** One error for each file, in order, all of them of attempt 1. */
  function FileErrors(name: string, files: seq<string>, error: Error): seq<Action> {
    seq(|files|, k requires 0 <= k < |files| => Send(FileError(name, files[k], 1, NoTransport(error))))
  }

  /** What such a job has done when it stands here. */
  predicate NoTransportDone(job: Job, j: JobState, text: seq<Action>)
    requires job.DryNoTransport? || job.NoTransportFor?
  {
    match job
    case DryNoTransport(_, error) =>
      (j == Dries(DryReporting(Some(error), false)) && text == [])
      || (j == Dries(DryOver(Some(error))) && text == NoTransportReading(job))
    case NoTransportFor(ep, files, error) =>
      j.Fails? && j.next <= |files| + 1
      && text == if j.next <= |files| then FileErrors(ep.name, files[..j.next], error) else NoTransportReading(job)
  }

  lemma NoTransportStep(job: Job, j: JobState, a: Action, t: JobState, text: seq<Action>)
    requires (job.DryNoTransport? || job.NoTransportFor?) && NoTransportDone(job, j, text)
    requires JobStep(job, j, a) == Some(t) && !a.Cancel?
    ensures NoTransportDone(job, t, text + [a])
  {
    if job.NoTransportFor? && j.next == |job.files| {
      assert job.files[..j.next] == job.files;
    }
  }

  lemma NoTransportBegins(job: Job)
    requires job.DryNoTransport? || job.NoTransportFor?
    ensures NoTransportDone(job, JobInit(job), [])
  {
  }

  lemma {:induction false} NoTransportHolds(job: Job, log: seq<Action>, j: JobState)
    requires (job.DryNoTransport? || job.NoTransportFor?) && JobRun(job, log) == Some(j)
    ensures NoTransportDone(job, j, Own(log))
  {
    hide JobStep, NoTransportDone, JobInit;
    if log == [] {
      NoTransportBegins(job);
    } else {
      var m := |log| - 1;
      var t := JobRun(job, log[..m]).value;
      NoTransportHolds(job, log[..m], t);
      assert Own(log[..m]) + [] == Own(log[..m]);
      if log[m].Cancel? {
        CancelIsIgnored(job, t, j, Own(log[..m]));
      } else {
        NoTransportStep(job, t, log[m], j, Own(log[..m]));
      }
    }
  }

  lemma CancelIsIgnored(job: Job, j: JobState, t: JobState, text: seq<Action>)
    requires (job.DryNoTransport? || job.NoTransportFor?) && NoTransportDone(job, j, text)
    requires JobStep(job, j, Cancel) == Some(t)
    ensures t == j
  {
  }

  /** Without a transport nothing is called: an upload reports every file, in order, and closes with a
      Done that counts them all as failed, and a dry run reports the error once. */
  lemma NoTransportIsExact(job: Job, log: seq<Action>, j: JobState)
    requires (job.DryNoTransport? || job.NoTransportFor?) && JobRun(job, log) == Some(j) && Over(job, j)
    ensures Own(log) == NoTransportReading(job)
  {
    hide JobRun, Own;
    NoTransportHolds(job, log, j);
  }
}
