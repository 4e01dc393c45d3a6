/** The concurrent system: one goroutine per endpoint, all sending on one unbuffered channel
    that closes when every goroutine has returned, and one consumer that ranges over it
    (uploadfun.go:222-231, dispatch.go:31-62, cmd/uploadfun/printer.go:64-79,
    cmd/uploadfun/main.go:280-284).  A step of the system is any one thing any one of them can
    do; the scheduler is free. */
module System {
  import opened Types
  import opened Worker
  import opened WorkerLength
  import opened Jobs

  datatype Consumer = Receiving | Handling(event: Event) | Exited(code: int)

  /** `failed` is processEvents' flag; `received` is what the consumer has taken so far. */
  datatype Sys = Sys(jobs: seq<JobState>, received: seq<Event>, consumer: Consumer, failed: bool, closed: bool)

  datatype Move =
    | Do(k: nat, action: Action) // job k acts; a send is a rendezvous with the consumer
    | CancelAll                  // the shared context is canceled
    | Handle                     // the consumer handles what it received
    | Close                      // every job has returned: the channel closes
    | Exit                       // the consumer sees the closed channel

  const EXIT_OK := 0
  const EXIT_PARTIAL_FAILURE := 1

  function Start(jobs: seq<Job>): Sys {
    Sys(seq(|jobs|, k requires 0 <= k < |jobs| => JobInit(jobs[k])), [], Receiving, false, false)
  }

  predicate AllOver(jobs: seq<Job>, js: seq<JobState>)
    requires |js| == |jobs|
  {
    forall k :: 0 <= k < |jobs| ==> Over(jobs[k], js[k])
  }

  function CancelJob(job: Job, j: JobState): JobState {
    match JobStep(job, j, Cancel) case Some(t) => t case None => j
  }

  function SysStep(jobs: seq<Job>, s: Sys, m: Move): Option<Sys> {
    if |s.jobs| != |jobs| then None
    else
      match m
      case Do(k, a) =>
        if k >= |jobs| || a.Cancel? || (a.Send? && !s.consumer.Receiving?) then None
        else
          (match JobStep(jobs[k], s.jobs[k], a)
           case None => None
           case Some(t) =>
             var next := s.(jobs := s.jobs[k := t]);
             Some(if a.Send? then next.(received := s.received + [a.event], consumer := Handling(a.event)) else next))
      case CancelAll =>
        Some(s.(jobs := seq(|jobs|, k requires 0 <= k < |jobs| => CancelJob(jobs[k], s.jobs[k]))))
      case Handle =>
        if s.consumer.Handling?
        then Some(s.(consumer := Receiving, failed := s.failed || Alarming(s.consumer.event))) else None
      case Close => if !s.closed && AllOver(jobs, s.jobs) then Some(s.(closed := true)) else None
      case Exit =>
        if s.closed && s.consumer.Receiving?
        then Some(s.(consumer := Exited(if s.failed then EXIT_PARTIAL_FAILURE else EXIT_OK))) else None
  }

  function SysRun(jobs: seq<Job>, log: seq<Move>): Option<Sys> {
    if log == [] then Some(Start(jobs))
    else
      match SysRun(jobs, log[..|log| - 1])
      case None => None
      case Some(s) => SysStep(jobs, s, log[|log| - 1])
  }

  /** What a move is to job k. */
  function Part(k: nat, m: Move): seq<Action> {
    match m
    case Do(j, a) => if j == k then [a] else []
    case CancelAll => [Cancel]
    case _ => []
  }

  /** What job k does and sees in a run of the system. */
  function Projection(k: nat, log: seq<Move>): seq<Action> {
    if log == [] then []
    else Projection(k, log[..|log| - 1]) + Part(k, log[|log| - 1])
  }

  /** The events of a stream that name an endpoint. */
  function From(endpoint: string, events: seq<Event>): seq<Event> {
    if events == [] then []
    else
      var last := events[|events| - 1];
      From(endpoint, events[..|events| - 1]) + if last.endpoint == endpoint then [last] else []
  }

  ghost predicate DistinctOwners(jobs: seq<Job>) {
    forall i, j :: 0 <= i < j < |jobs| ==> Owner(jobs[i]) != Owner(jobs[j])
  }

  // ---------------------------------------------------------------- projections

  lemma CancelAlways(job: Job, j: JobState, events: seq<Event>)
    requires JobInv(job, j, events)
    ensures JobStep(job, j, Cancel) == Some(CancelJob(job, j))
  {
  }

  /** A move of the system is a step of job k, or leaves it alone. */
  predicate Moved(job: Job, j: JobState, part: seq<Action>, t: JobState) {
    if part == [] then t == j else |part| == 1 && JobStep(job, j, part[0]) == Some(t)
  }

  lemma MovesOne(jobs: seq<Job>, s: Sys, m: Move, t: Sys, k: nat, events: seq<Event>)
    requires |s.jobs| == |jobs| && SysStep(jobs, s, m) == Some(t) && k < |jobs| && JobInv(jobs[k], s.jobs[k], events)
    ensures |t.jobs| == |jobs| && Moved(jobs[k], s.jobs[k], Part(k, m), t.jobs[k])
  {
    hide JobStep, JobInv, Alarming, Over;
    if m.CancelAll? {
      CancelAlways(jobs[k], s.jobs[k], events);
    }
  }

  lemma SysRunOne(jobs: seq<Job>, log: seq<Move>, s: Sys)
    requires log != [] && SysRun(jobs, log) == Some(s)
    ensures var before := SysRun(jobs, log[..|log| - 1]);
            before.Some? && SysStep(jobs, before.value, log[|log| - 1]) == Some(s)
  {
    hide SysStep;
  }

  lemma ProjectionOne(k: nat, log: seq<Move>, m: Move)
    ensures Projection(k, log + [m]) == Projection(k, log) + Part(k, m)
  {
    hide Part;
    assert (log + [m])[..|log|] == log;
  }

  /** Job k's part of the system is a run of job k on its own. */
  lemma {:induction false} ProjectionRuns(jobs: seq<Job>, log: seq<Move>, s: Sys, k: nat)
    requires SysRun(jobs, log) == Some(s) && k < |jobs|
    ensures |s.jobs| == |jobs| && JobRun(jobs[k], Projection(k, log)) == Some(s.jobs[k])
  {
    if log != [] {
      var m := |log| - 1;
      SysRunOne(jobs, log, s);
      assert log[..m] + [log[m]] == log;
      ProjectionOne(k, log[..m], log[m]);
      hide SysRun, SysStep, Projection, Part, JobStep, JobRun, JobInv;
      var t := SysRun(jobs, log[..m]).value;
      ProjectionRuns(jobs, log[..m], t, k);
      var before := Projection(k, log[..m]);
      JobHolds(jobs[k], before, t.jobs[k]);
      MovesOne(jobs, t, log[m], s, k, Events(before));
      var part := Part(k, log[m]);
      if part == [] {
        assert before + part == before;
      } else {
        JobRunOne(jobs[k], before, part[0]);
        assert part == [part[0]];
      }
    }
  }

  function SentBy(m: Move): seq<Event> {
    if m.Do? && m.action.Send? then [m.action.event] else []
  }

  lemma ReceivesOne(jobs: seq<Job>, s: Sys, m: Move, t: Sys)
    requires SysStep(jobs, s, m) == Some(t)
    ensures t.received == s.received + SentBy(m)
  {
    hide JobStep, Alarming, Over;
  }

  lemma FromOne(endpoint: string, events: seq<Event>, more: seq<Event>)
    requires |more| <= 1
    ensures From(endpoint, events + more) ==
            From(endpoint, events) + if more != [] && more[0].endpoint == endpoint then more else []
  {
    if more == [] {
      assert events + more == events;
    } else {
      assert (events + more)[..|events|] == events;
      assert more == [more[0]];
    }
  }

  /** One move adds at most one event to one job's projection. */
  lemma EventsMove(k: nat, log: seq<Move>, m: Move)
    ensures Events(Projection(k, log + [m])) == Events(Projection(k, log)) + if m.Do? && m.k == k then SentBy(m) else []
  {
    ProjectionOne(k, log, m);
    hide Projection;
    var before := Projection(k, log);
    assert before + [] == before;
    if m.Do? && m.k == k {
      EventsOne(before, m.action);
    }
    if m.CancelAll? {
      EventsOne(before, Cancel);
    }
  }

  lemma ReceivedStep(jobs: seq<Job>, log: seq<Move>, s: Sys, m: Move, t: Sys, k: nat)
    requires SysRun(jobs, log) == Some(s) && SysStep(jobs, s, m) == Some(t) && k < |jobs| && DistinctOwners(jobs)
    requires From(Owner(jobs[k]), s.received) == Events(Projection(k, log))
    ensures From(Owner(jobs[k]), t.received) == Events(Projection(k, log + [m]))
  {
    hide SysRun, SysStep, Projection, Part, From, Events, DistinctOwners, Owner, Start;
    ReceivesOne(jobs, s, m, t);
    FromOne(Owner(jobs[k]), s.received, SentBy(m));
    EventsMove(k, log, m);
    if m.Do? {
      SenderNamesItself(jobs, log, s, m.k, m.action);
      if m.k != k {
        DistinctAt(jobs, m.k, k);
      }
    }
  }

  lemma ReceivedNone(jobs: seq<Job>, k: nat)
    requires k < |jobs|
    ensures SysRun(jobs, []) == Some(Start(jobs)) &&
            From(Owner(jobs[k]), Start(jobs).received) == Events(Projection(k, []))
  {
  }

  /** Whatever the interleaving, what the consumer receives from one endpoint is exactly what
      that endpoint's job sends, in order. */
  lemma {:induction false} ReceivedFromEach(jobs: seq<Job>, log: seq<Move>, s: Sys, k: nat)
    requires SysRun(jobs, log) == Some(s) && k < |jobs| && DistinctOwners(jobs)
    ensures From(Owner(jobs[k]), s.received) == Events(Projection(k, log))
  {
    hide *;
    if log == [] {
      ReceivedNone(jobs, k);
    } else {
      var m := |log| - 1;
      SysRunOne(jobs, log, s);
      var t := SysRun(jobs, log[..m]).value;
      ReceivedFromEach(jobs, log[..m], t, k);
      ReceivedStep(jobs, log[..m], t, log[m], s, k);
      assert log[..m] + [log[m]] == log;
    }
  }

  lemma DistinctAt(jobs: seq<Job>, j: nat, k: nat)
    requires DistinctOwners(jobs) && j < |jobs| && k < |jobs| && j != k
    ensures Owner(jobs[j]) != Owner(jobs[k])
  {
  }

  lemma SenderNamesItself(jobs: seq<Job>, log: seq<Move>, s: Sys, k: nat, a: Action)
    requires SysRun(jobs, log) == Some(s) && SysStep(jobs, s, Do(k, a)).Some?
    ensures k < |jobs| && (a.Send? ==> a.event.endpoint == Owner(jobs[k]))
  {
    hide JobStep, JobInit;
    ProjectionRuns(jobs, log, s, k);
    var before := Projection(k, log);
    JobRunOne(jobs[k], before, a);
    JobHolds(jobs[k], before + [a], JobStep(jobs[k], s.jobs[k], a).value);
    EventsOne(before, a);
    if a.Send? {
      assert (Events(before) + [a.event])[|Events(before)|] == a.event;
    }
  }

  // ---------------------------------------------------------------- the consumer

  /** The events the consumer is done with. */
  function Handled(s: Sys): seq<Event> {
    if s.consumer.Handling? && s.received != [] then s.received[..|s.received| - 1] else s.received
  }

  predicate ConsumerInv(jobs: seq<Job>, s: Sys) {
    && |s.jobs| == |jobs|
    && (s.consumer.Handling? ==> s.received != [] && s.received[|s.received| - 1] == s.consumer.event)
    && s.failed == HasAlarm(Handled(s))
    && (s.closed ==> AllOver(jobs, s.jobs))
    && (s.consumer.Exited? ==>
        s.closed && s.consumer.code == if s.failed then EXIT_PARTIAL_FAILURE else EXIT_OK)
  }

  lemma AlarmOne(events: seq<Event>, e: Event)
    ensures HasAlarm(events + [e]) <==> HasAlarm(events) || Alarming(e)
  {
    if HasAlarm(events) {
      var k :| 0 <= k < |events| && Alarming(events[k]);
      assert Alarming((events + [e])[k]);
    }
    if Alarming(e) {
      assert Alarming((events + [e])[|events|]);
    }
  }

  /** A job that is over does nothing more, and a cancellation does not revive it. */
  lemma OverIsFinal(job: Job, j: JobState, a: Action, t: JobState, events: seq<Event>)
    requires JobInv(job, j, events) && Over(job, j) && JobStep(job, j, a) == Some(t)
    ensures a.Cancel? && Over(job, t)
  {
    hide EventsInv;
  }

  lemma {:induction false} ConsumerHolds(jobs: seq<Job>, log: seq<Move>, s: Sys)
    requires SysRun(jobs, log) == Some(s)
    ensures ConsumerInv(jobs, s)
  {
    hide JobStep, JobInit, Alarming, Over, HasAlarm, JobInv;
    if log == [] {
      assert !HasAlarm([]) by { NoEventsNoAlarm(); }
    } else {
      var m := |log| - 1;
      var t := SysRun(jobs, log[..m]).value;
      ConsumerHolds(jobs, log[..m], t);
      ConsumerStep(jobs, log[..m], t, log[m], s);
    }
  }

  lemma NoEventsNoAlarm()
    ensures !HasAlarm([])
  {
  }

  lemma ConsumerStep(jobs: seq<Job>, log: seq<Move>, s: Sys, m: Move, t: Sys)
    requires SysRun(jobs, log) == Some(s) && ConsumerInv(jobs, s) && SysStep(jobs, s, m) == Some(t)
    ensures ConsumerInv(jobs, t)
  {
    hide JobStep, JobInit, Alarming, Over, HasAlarm, JobInv, SysRun;
    match m
    case Do(k, a) =>
      if s.closed {
        ProjectionRuns(jobs, log, s, k);
        JobHolds(jobs[k], Projection(k, log), s.jobs[k]);
        OverIsFinal(jobs[k], s.jobs[k], a, t.jobs[k], Events(Projection(k, log)));
      }
      if a.Send? { assert (s.received + [a.event])[..|s.received|] == s.received; }
    case CancelAll =>
      if s.closed {
        forall k | 0 <= k < |jobs| ensures Over(jobs[k], t.jobs[k]) {
          ProjectionRuns(jobs, log, s, k);
          JobHolds(jobs[k], Projection(k, log), s.jobs[k]);
          CancelAlways(jobs[k], s.jobs[k], Events(Projection(k, log)));
          OverIsFinal(jobs[k], s.jobs[k], Cancel, t.jobs[k], Events(Projection(k, log)));
        }
      }
    case Handle =>
      AlarmOne(Handled(s), s.consumer.event);
      assert Handled(s) + [s.consumer.event] == s.received;
    case _ =>
  }

  /** The channel closes only after every job has returned, and nothing is sent on it after that. */
  lemma NoSendAfterClose(jobs: seq<Job>, log: seq<Move>, s: Sys)
    requires SysRun(jobs, log) == Some(s) && s.closed
    ensures AllOver(jobs, s.jobs)
    ensures forall m :: SysStep(jobs, s, m).Some? ==> !m.Do?
  {
    hide JobStep, JobInit, Alarming, Over, HasAlarm, JobInv, SysRun;
    ConsumerHolds(jobs, log, s);
    forall m | SysStep(jobs, s, m).Some? ensures !m.Do? {
      if m.Do? {
        ProjectionRuns(jobs, log, s, m.k);
        JobHolds(jobs[m.k], Projection(m.k, log), s.jobs[m.k]);
        OverIsFinal(jobs[m.k], s.jobs[m.k], m.action, JobStep(jobs[m.k], s.jobs[m.k], m.action).value,
                    Events(Projection(m.k, log)));
      }
    }
  }

  // ---------------------------------------------------------------- the verdict

  /** The successes job k has reported. */
  function Succeeded(k: nat, log: seq<Move>): nat {
    SuccessCount(Events(Projection(k, log)))
  }

  /** The successes of the first m jobs. */
  function Total(m: nat, log: seq<Move>): nat {
    if m == 0 then 0 else Total(m - 1, log) + Succeeded(m - 1, log)
  }

  predicate Succeeds(m: Move) {
    m.Do? && m.action.Send? && m.action.event.FileSuccess?
  }

  lemma {:induction false} TotalMove(n: nat, log: seq<Move>, m: Move)
    ensures Total(n, log + [m]) == Total(n, log) + if Succeeds(m) && m.k < n then 1 else 0
  {
    hide Events, Projection;
    if n > 0 {
      TotalMove(n - 1, log, m);
      EventsMove(n - 1, log, m);
      var before := Events(Projection(n - 1, log));
      if m.Do? && m.k == n - 1 && m.action.Send? {
        SuccessOne(before, m.action.event);
      } else {
        assert before + [] == before;
      }
    }
  }

  lemma {:induction false} TotalNone(n: nat)
    ensures Total(n, []) == 0
  {
    if n > 0 { TotalNone(n - 1); }
  }

  lemma SuccessMove(jobs: seq<Job>, s: Sys, m: Move, t: Sys)
    requires SysStep(jobs, s, m) == Some(t)
    ensures SuccessCount(t.received) == SuccessCount(s.received) + if Succeeds(m) && m.k < |jobs| then 1 else 0
  {
    ReceivesOne(jobs, s, m, t);
    hide SuccessCount, JobStep, Alarming, Over;
    if m.Do? && m.action.Send? {
      SuccessOne(s.received, m.action.event);
    } else {
      assert s.received + [] == s.received;
    }
  }

  /** What the consumer counts is what the jobs report. */
  lemma {:induction false} SuccessesAddUp(jobs: seq<Job>, log: seq<Move>, s: Sys)
    requires SysRun(jobs, log) == Some(s)
    ensures SuccessCount(s.received) == Total(|jobs|, log)
  {
    hide SysStep, Start, Total, SuccessCount;
    if log == [] {
      TotalNone(|jobs|);
      NothingReceived(jobs);
    } else {
      var n := |log| - 1;
      SysRunOne(jobs, log, s);
      hide SysRun;
      var t := SysRun(jobs, log[..n]).value;
      SuccessesAddUp(jobs, log[..n], t);
      SuccessMove(jobs, t, log[n], s);
      TotalMove(|jobs|, log[..n], log[n]);
      assert log[..n] + [log[n]] == log;
    }
  }

  lemma NothingReceived(jobs: seq<Job>)
    ensures SuccessCount(Start(jobs).received) == 0
  {
  }

  predicate SomeAlarm(jobs: seq<Job>, log: seq<Move>) {
    exists k :: 0 <= k < |jobs| && Raised(k, log)
  }

  predicate Raised(k: nat, log: seq<Move>) {
    HasAlarm(Events(Projection(k, log)))
  }

  lemma RaisedMove(k: nat, log: seq<Move>, m: Move)
    ensures Raised(k, log + [m]) <==>
            Raised(k, log) || (m.Do? && m.k == k && m.action.Send? && Alarming(m.action.event))
  {
    hide Projection, Events, HasAlarm, Alarming;
    EventsMove(k, log, m);
    var before := Events(Projection(k, log));
    if m.Do? && m.k == k && m.action.Send? {
      AlarmOne(before, m.action.event);
    } else {
      assert before + [] == before;
    }
  }

  /** The consumer hears an alarm exactly when some job raises one. */
  lemma {:induction false} AlarmsAddUp(jobs: seq<Job>, log: seq<Move>, s: Sys)
    requires SysRun(jobs, log) == Some(s)
    ensures HasAlarm(s.received) <==> SomeAlarm(jobs, log)
  {
    hide JobStep, JobInit, Alarming, Over, HasAlarm, Raised;
    if log == [] {
      NoEventsNoAlarm();
      forall k | 0 <= k < |jobs| ensures !Raised(k, []) { NothingRaised(k); }
    } else {
      var n := |log| - 1;
      var before, m := log[..n], log[n];
      assert before + [m] == log;
      var t := SysRun(jobs, before).value;
      AlarmsAddUp(jobs, before, t);
      forall k | 0 <= k < |jobs|
        ensures Raised(k, log) <==>
                Raised(k, before) || (m.Do? && m.k == k && m.action.Send? && Alarming(m.action.event))
      {
        RaisedMove(k, before, m);
      }
      if m.Do? && m.action.Send? {
        AlarmOne(t.received, m.action.event);
        assert Raised(m.k, log) <== Alarming(m.action.event);
      }
      if SomeAlarm(jobs, before) {
        var k :| 0 <= k < |jobs| && Raised(k, before);
        assert Raised(k, log);
      }
    }
  }

  lemma NothingRaised(k: nat)
    ensures !Raised(k, [])
  {
  }

  /** How the successes of jobs of n files each add up. */
  lemma {:induction false} TotalBound(m: nat, log: seq<Move>, n: nat)
    requires forall k :: 0 <= k < m ==> Succeeded(k, log) <= n
    ensures Total(m, log) <= n * m
    ensures Total(m, log) == n * m <==> forall k :: 0 <= k < m ==> Succeeded(k, log) == n
  {
    hide Succeeded;
    if m > 0 {
      TotalBound(m - 1, log, n);
      assert n * m == n * (m - 1) + n;
      assert Total(m, log) == n * m ==> Succeeded(m - 1, log) == n;
    }
  }

  /** The exit status is 0 exactly when the stream held one FileSuccess for every file on every
      endpoint; it is 1 otherwise. */
  lemma ExitStatus(jobs: seq<Job>, log: seq<Move>, s: Sys, n: nat)
    requires SysRun(jobs, log) == Some(s) && s.consumer.Exited?
    requires forall k :: 0 <= k < |jobs| ==> IsReal(jobs[k]) && |FilesOf(jobs[k])| == n
    ensures s.consumer.code == EXIT_OK || s.consumer.code == EXIT_PARTIAL_FAILURE
    ensures s.consumer.code == EXIT_OK <==> SuccessCount(s.received) == n * |jobs|
  {
    hide SysRun, SuccessCount, HasAlarm, Projection, Events, Over, FilesOf;
    ConsumerHolds(jobs, log, s);
    SuccessesAddUp(jobs, log, s);
    AlarmsAddUp(jobs, log, s);
    forall k | 0 <= k < |jobs|
      ensures Succeeded(k, log) <= n
      ensures Raised(k, log) <==> Succeeded(k, log) < n
    {
      ProjectionRuns(jobs, log, s, k);
      JobVerdict(jobs[k], Projection(k, log), s.jobs[k]);
    }
    TotalBound(|jobs|, log, n);
  }

  predicate IsDry(job: Job) { job.Dry? || job.DryNoTransport? }

  /** What a finished preflight reports. */
  function Report(job: Job, err: Option<Error>): Event
    requires IsDry(job)
  {
    DryReport(if job.Dry? then job.probe else Preflight(job.ep, [], "", ""), err)
  }

  /** The exit status of a dry run is 0 exactly when every preflight passed.  An endpoint without a
      transport counts as one that did not. */
  lemma DryExitStatus(jobs: seq<Job>, log: seq<Move>, s: Sys)
    requires SysRun(jobs, log) == Some(s) && s.consumer.Exited?
    requires forall k :: 0 <= k < |jobs| ==> IsDry(jobs[k])
    ensures |s.jobs| == |jobs| && forall k :: 0 <= k < |jobs| ==> s.jobs[k].Dries? && s.jobs[k].pc.DryOver?
    ensures s.consumer.code == EXIT_OK <==> forall k :: 0 <= k < |jobs| ==> s.jobs[k] == Dries(DryOver(None))
    ensures forall k :: 0 <= k < |jobs| ==> Events(Projection(k, log)) == [Report(jobs[k], s.jobs[k].pc.err)]
  {
    hide SysRun, HasAlarm, Projection, Events, DryReport;
    ConsumerHolds(jobs, log, s);
    AlarmsAddUp(jobs, log, s);
    forall k | 0 <= k < |jobs|
      ensures s.jobs[k].Dries? && s.jobs[k].pc.DryOver?
      ensures Events(Projection(k, log)) == [Report(jobs[k], s.jobs[k].pc.err)]
      ensures Raised(k, log) <==> s.jobs[k] != Dries(DryOver(None))
    {
      ProjectionRuns(jobs, log, s, k);
      JobHolds(jobs[k], Projection(k, log), s.jobs[k]);
      var p := if jobs[k].Dry? then jobs[k].probe else Preflight(jobs[k].ep, [], "", "");
      DryAlarm(p, s.jobs[k].pc, Events(Projection(k, log)));
    }
  }

  lemma DryAlarm(p: Preflight, pc: DryPc, events: seq<Event>)
    requires pc.DryOver? && events == [DryReport(p, pc.err)]
    ensures HasAlarm(events) <==> pc.err.Some?
  {
    if pc.err.Some? { assert Alarming(events[0]); }
  }

  /** The verdict does not depend on the schedule: two complete runs in which every endpoint's
      job sends the same events end with the same exit status. */
  lemma SameVerdict(jobs: seq<Job>, log: seq<Move>, s: Sys, log': seq<Move>, s': Sys)
    requires SysRun(jobs, log) == Some(s) && s.consumer.Exited?
    requires SysRun(jobs, log') == Some(s') && s'.consumer.Exited?
    requires forall k :: 0 <= k < |jobs| ==> Events(Projection(k, log)) == Events(Projection(k, log'))
    ensures s.consumer.code == s'.consumer.code
  {
    hide SysRun, HasAlarm, Projection, Events;
    ConsumerHolds(jobs, log, s);
    ConsumerHolds(jobs, log', s');
    AlarmsAddUp(jobs, log, s);
    AlarmsAddUp(jobs, log', s');
    forall k | 0 <= k < |jobs| ensures Raised(k, log) == Raised(k, log') {
      assert Events(Projection(k, log)) == Events(Projection(k, log'));
    }
  }
}
