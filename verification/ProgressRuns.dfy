/** From a run of the whole system to the printed lines: what the printer hears of an upload that was
    read to its end, and what it makes of it. */
module ProgressRuns {
  import opened Types
  import opened Worker
  import opened WorkerSafety
  import opened Jobs
  import opened System
  import Throttle
  import opened Printer
  import opened ProgressReader

  // ---------------------------------------------------------------- what a worker sends

  /** The progress events of the latest upload. */
  function Callbacks(log: seq<Action>): seq<Event> {
    if log == [] then []
    else
      var before, last := Callbacks(log[..|log| - 1]), log[|log| - 1];
      if last.UploadBegin? then []
      else if last.Send? && last.event.Progress? then before + [last.event]
      else before
  }

  /** The events from the latest announcement of an attempt on. */
  function Latest(events: seq<Event>): seq<Event> {
    if events == [] then []
    else
      var before, last := Latest(events[..|events| - 1]), events[|events| - 1];
      if last.FileStart? then [last] else if before == [] then [] else before + [last]
  }

  lemma LatestOne(events: seq<Event>, e: Event)
    ensures Latest(events + [e]) ==
            if e.FileStart? then [e] else if Latest(events) == [] then [] else Latest(events) + [e]
  {
    assert (events + [e])[..|events|] == events;
  }

  lemma {:induction false} LatestIsSuffix(events: seq<Event>)
    ensures |Latest(events)| <= |events| && events[|events| - |Latest(events)|..] == Latest(events)
  {
    if events != [] {
      LatestIsSuffix(events[..|events| - 1]);
    }
  }

  predicate AreProgress(endpoint: string, file: string, events: seq<Event>) {
    forall k :: 0 <= k < |events| ==>
      events[k].Progress? && events[k].endpoint == endpoint && events[k].file == file
  }

  /** The current attempt has been announced and has not failed. */
  predicate Transferring(pc: Pc) {
    pc.Deleting? || pc.UploadReady? || pc.Uploading? || pc.Verifying? || pc.Succeeding?
  }

  /** What has been sent since the current attempt was announced: only its upload's progress. */
  predicate AttemptSeen(b: Batch, s: State, latest: seq<Event>, callbacks: seq<Event>) {
    Transferring(s.pc) ==>
      var progress := if s.pc.Deleting? || s.pc.UploadReady? then [] else callbacks;
      && s.i < |b.files| && AreProgress(b.ep.name, b.files[s.i], progress)
      && latest == [FileStart(b.ep.name, b.files[s.i], s.attempt)] + progress
  }

  function NextCallbacks(callbacks: seq<Event>, a: Action): seq<Event> {
    if a.UploadBegin? then [] else if a.Send? && a.event.Progress? then callbacks + [a.event] else callbacks
  }

  function NextLatest(latest: seq<Event>, a: Action): seq<Event> {
    if !a.Send? then latest
    else if a.event.FileStart? then [a.event]
    else if latest == [] then [] else latest + [a.event]
  }

  /** Announcements, progress and successes are about files of the batch. */
  predicate OwnFile(files: seq<string>, a: Action) {
    a.Send? && Keyed(a.event) ==> a.event.file in files
  }

  lemma SeenStep(b: Batch, s: State, a: Action, t: State, latest: seq<Event>, callbacks: seq<Event>)
    requires Inv(b, s) && Step(b, s, a) == Some(t) && AttemptSeen(b, s, latest, callbacks)
    ensures AttemptSeen(b, t, NextLatest(latest, a), NextCallbacks(callbacks, a))
    ensures OwnFile(b.files, a)
  {
    hide Step, StepInFile, StepDial, StepTransfer, StepAtEnd, BreakerInv, TallyInv, AttemptSeen, OwnFile;
    OnlineFacts(b, s, t);
    if a.Cancel? {
      CancelOnly(b, s, t);
      SeenCanceled(b, s, latest, callbacks);
    } else {
      StepKinds(b, s, a, t);
      if AtEnd(s.pc) {
        SeenAtEnd(b, s, a, t, latest, callbacks);
      } else if InDial(s.pc) {
        SeenDial(b, s, a, t, latest, callbacks);
      } else if Online(s.pc) {
        SeenTransfer(b, s, a, t, latest, callbacks);
      } else {
        SeenBetween(b, s, a, t, latest, callbacks);
      }
    }
  }

  lemma SeenCanceled(b: Batch, s: State, latest: seq<Event>, callbacks: seq<Event>)
    requires AttemptSeen(b, s, latest, callbacks)
    ensures AttemptSeen(b, s.(canceled := true), NextLatest(latest, Cancel), NextCallbacks(callbacks, Cancel))
    ensures OwnFile(b.files, Cancel)
  {
  }

  lemma SeenAtEnd(b: Batch, s: State, a: Action, t: State, latest: seq<Event>, callbacks: seq<Event>)
    requires AtEnd(s.pc) && StepAtEnd(b, s, a) == Some(t)
    ensures AttemptSeen(b, t, NextLatest(latest, a), NextCallbacks(callbacks, a)) && OwnFile(b.files, a)
  {
  }

  lemma SeenDial(b: Batch, s: State, a: Action, t: State, latest: seq<Event>, callbacks: seq<Event>)
    requires s.i < |b.files| && InDial(s.pc) && StepDial(b, s, b.files[s.i], a) == Some(t)
    ensures AttemptSeen(b, t, NextLatest(latest, a), NextCallbacks(callbacks, a)) && OwnFile(b.files, a)
  {
    hide EndFile, Retry;
    EndFileFrame(b, s, false);
    RetryFrame(b, s);
  }

  lemma SeenBetween(b: Batch, s: State, a: Action, t: State, latest: seq<Event>, callbacks: seq<Event>)
    requires s.i < |b.files| && StepInFile(b, s, b.files[s.i], a) == Some(t)
    requires !AtEnd(s.pc) && !InDial(s.pc) && !Online(s.pc)
    ensures AttemptSeen(b, t, NextLatest(latest, a), NextCallbacks(callbacks, a)) && OwnFile(b.files, a)
  {
    hide EndFile, EnterAttempt, StepDial, StepTransfer, StepAtEnd;
    EndFileFrame(b, s, false);
    EnterAttemptFrame(b, s.(attempt := 1));
    EnterAttemptFrame(b, s.(attempt := s.attempt + 1));
  }

  lemma SeenTransfer(b: Batch, s: State, a: Action, t: State, latest: seq<Event>, callbacks: seq<Event>)
    requires s.i < |b.files| && Online(s.pc) && s.connected && StepTransfer(b, s, b.files[s.i], a) == Some(t)
    requires AttemptSeen(b, s, latest, callbacks)
    ensures AttemptSeen(b, t, NextLatest(latest, a), NextCallbacks(callbacks, a)) && OwnFile(b.files, a)
  {
    if s.pc.Reporting? || s.pc.Dropping? || s.pc.Succeeding? {
      SeenLeaving(b, s, a, t, latest, callbacks);
    } else {
      hide EndFile, Dropped;
      var started := [FileStart(b.ep.name, b.files[s.i], s.attempt)];
      assert started + [] == started;
      if s.pc.Uploading? && a.Send? {
        assert (started + callbacks) + [a.event] == started + (callbacks + [a.event]);
      }
    }
  }

  lemma SeenLeaving(b: Batch, s: State, a: Action, t: State, latest: seq<Event>, callbacks: seq<Event>)
    requires s.i < |b.files| && s.connected && StepTransfer(b, s, b.files[s.i], a) == Some(t)
    requires s.pc.Reporting? || s.pc.Dropping? || s.pc.Succeeding?
    ensures AttemptSeen(b, t, NextLatest(latest, a), NextCallbacks(callbacks, a)) && OwnFile(b.files, a)
  {
    hide EndFile, Dropped;
    if s.pc.Dropping? { DroppedFrame(b, s, s.pc.cause); }
    EndFileFrame(b, s, true);
  }

  lemma {:induction false} SeenHolds(b: Batch, log: seq<Action>, s: State)
    requires Reaches(b, log, s)
    ensures Inv(b, s) && AttemptSeen(b, s, Latest(Events(log)), Callbacks(log))
  {
    hide Inv, Step, AttemptSeen, NextLatest, NextCallbacks;
    InvHolds(b, log, s);
    if log == [] {
      SeenInit(b);
    } else {
      var m := |log| - 1;
      var t := Run(b, Init(b), log[..m]).value;
      SeenHolds(b, log[..m], t);
      SeenStep(b, t, log[m], s, Latest(Events(log[..m])), Callbacks(log[..m]));
      SeenOne(log);
    }
  }

  lemma SeenInit(b: Batch)
    ensures AttemptSeen(b, Init(b), [], [])
  {
  }

  lemma SeenOne(log: seq<Action>)
    requires log != []
    ensures var m := |log| - 1;
            && Latest(Events(log)) == NextLatest(Latest(Events(log[..m])), log[m])
            && Callbacks(log) == NextCallbacks(Callbacks(log[..m]), log[m])
  {
    var m := |log| - 1;
    if log[m].Send? { LatestOne(Events(log[..m]), log[m].event); }
  }

  // ---------------------------------------------------------------- what the consumer hears

  /** The events of a stream as the printer sees it. */
  function Unstamped(stream: seq<Stamped>): seq<Event> {
    if stream == [] then [] else Unstamped(stream[..|stream| - 1]) + [stream[|stream| - 1].event]
  }

  lemma UnstampedOne(stream: seq<Stamped>, x: Stamped)
    ensures Unstamped(stream + [x]) == Unstamped(stream) + [x.event]
  {
    assert (stream + [x])[..|stream|] == stream;
  }

  /** If what comes from an endpoint falls into two parts, so does the stream. */
  lemma {:induction false} StreamSplits(endpoint: string, stream: seq<Stamped>, u: seq<Event>, v: seq<Event>)
    returns (early: seq<Stamped>, late: seq<Stamped>)
    requires From(endpoint, Unstamped(stream)) == u + v
    ensures stream == early + late
    ensures From(endpoint, Unstamped(early)) == u && From(endpoint, Unstamped(late)) == v
  {
    hide From, Unstamped;
    if v == [] {
      early, late := stream, [];
      FromNothing(endpoint);
      assert u + v == u;
    } else if stream == [] {
      FromNothing(endpoint);
      assert false;
    } else {
      var m := |stream| - 1;
      var before, x := stream[..m], stream[m];
      assert stream == before + [x];
      FromStream(endpoint, before, x);
      var more;
      if x.event.endpoint == endpoint {
        assert (u + v)[..|u + v| - 1] == u + v[..|v| - 1];
        assert From(endpoint, Unstamped(before)) == u + v[..|v| - 1];
        early, more := StreamSplits(endpoint, before, u, v[..|v| - 1]);
      } else {
        early, more := StreamSplits(endpoint, before, u, v);
      }
      late := more + [x];
      FromStream(endpoint, more, x);
    }
  }

  lemma FromNothing(endpoint: string)
    ensures From(endpoint, Unstamped([])) == []
  {
  }

  lemma FromStream(endpoint: string, before: seq<Stamped>, x: Stamped)
    ensures From(endpoint, Unstamped(before + [x])) ==
            if x.event.endpoint == endpoint then From(endpoint, Unstamped(before)) + [x.event]
            else From(endpoint, Unstamped(before))
  {
    hide From, Unstamped;
    UnstampedOne(before, x);
    FromOne(endpoint, Unstamped(before), [x.event]);
  }

  /** Where an endpoint speaks of one file only, the file's events are the endpoint's. */
  lemma {:induction false} OnlyIsFrom(endpoint: string, file: string, stream: seq<Stamped>)
    requires forall k :: 0 <= k < |From(endpoint, Unstamped(stream))| ==>
               Concerns(endpoint, file, From(endpoint, Unstamped(stream))[k])
    ensures Unstamped(Only(endpoint, file, stream)) == From(endpoint, Unstamped(stream))
  {
    hide From, Unstamped, Concerns;
    if stream == [] {
      FromNothing(endpoint);
      NothingUnstamped();
    } else {
      var m := |stream| - 1;
      var before, x := stream[..m], stream[m];
      assert stream == before + [x];
      FromStream(endpoint, before, x);
      var all, some := From(endpoint, Unstamped(stream)), From(endpoint, Unstamped(before));
      forall k | 0 <= k < |some| ensures Concerns(endpoint, file, some[k]) {
        assert some[k] == all[k];
      }
      OnlyIsFrom(endpoint, file, before);
      ConcernsOwn(endpoint, file, x.event);
      var mine := Only(endpoint, file, before);
      UnstampedOne(mine, x);
      assert mine + [] == mine;
      if x.event.endpoint == endpoint {
        assert Concerns(endpoint, file, all[|some|]);
      }
    }
  }

  lemma NothingUnstamped()
    ensures Unstamped([]) == []
  {
  }

  lemma ConcernsOwn(endpoint: string, file: string, e: Event)
    ensures Concerns(endpoint, file, e) ==> e.endpoint == endpoint
  {
  }

  predicate InOrder(stream: seq<Stamped>) {
    forall j, k :: 0 <= j < k < |stream| ==> stream[j].now <= stream[k].now
  }

  lemma {:induction false} OnlyInOrder(endpoint: string, file: string, stream: seq<Stamped>)
    requires InOrder(stream)
    ensures InOrder(Only(endpoint, file, stream))
    ensures forall k :: 0 <= k < |Only(endpoint, file, stream)| && stream != [] ==>
            Only(endpoint, file, stream)[k].now <= stream[|stream| - 1].now
  {
    hide Concerns;
    if stream != [] {
      OnlyInOrder(endpoint, file, stream[..|stream| - 1]);
    }
  }

  // ---------------------------------------------------------------- one attempt

  predicate TickOfEvent(t: Throttle.Tick, e: Event) {
    e.Progress? && t.sent == e.sent && t.total == e.total
  }

  /** An announcement followed by progress, read off the stream. */
  lemma {:induction false} ReadsAsAttempt(mine: seq<Stamped>, endpoint: string, file: string, attempt: int,
                                          callbacks: seq<Event>)
    returns (ticks: seq<Throttle.Tick>, start: int)
    requires Unstamped(mine) == [FileStart(endpoint, file, attempt)] + callbacks
    requires AreProgress(endpoint, file, callbacks) && InOrder(mine)
    ensures mine == AttemptEvents(endpoint, file, attempt, ticks, start)
    ensures |mine| == |ticks| + 1 && |ticks| == |callbacks|
    ensures forall k :: 0 <= k < |ticks| ==> TickOfEvent(ticks[k], callbacks[k]) && ticks[k].now == mine[k + 1].now
  {
    hide Unstamped, AttemptEvents;
    var m, n := |mine| - 1, |callbacks| - 1;
    UnstampedIs(mine);
    var all := Unstamped(mine);
    if callbacks == [] {
      ticks, start := [], mine[0].now;
      assert mine == [Stamped(all[0], start)];
      AttemptEventsNone(endpoint, file, attempt, start);
    } else {
      var x := mine[m];
      assert mine == mine[..m] + [x];
      UnstampedOne(mine[..m], x);
      assert all == ([FileStart(endpoint, file, attempt)] + callbacks[..n]) + [callbacks[n]];
      assert Unstamped(mine[..m]) == all[..m] == [FileStart(endpoint, file, attempt)] + callbacks[..n];
      var before;
      before, start := ReadsAsAttempt(mine[..m], endpoint, file, attempt, callbacks[..n]);
      assert x.event == callbacks[n];
      ticks := before + [Throttle.Tick(x.event.sent, x.event.total, x.now)];
      AttemptEventsOne(endpoint, file, attempt, ticks, start);
      assert ticks[..n] == before;
    }
  }

  lemma AttemptEventsNone(endpoint: string, file: string, attempt: int, start: int)
    ensures AttemptEvents(endpoint, file, attempt, [], start) == [Stamped(FileStart(endpoint, file, attempt), start)]
  {
  }

  lemma AttemptEventsOne(endpoint: string, file: string, attempt: int, ticks: seq<Throttle.Tick>, start: int)
    requires ticks != []
    ensures var t := ticks[|ticks| - 1];
            AttemptEvents(endpoint, file, attempt, ticks, start) ==
            AttemptEvents(endpoint, file, attempt, ticks[..|ticks| - 1], start)
            + [Stamped(Progress(endpoint, file, t.sent, t.total), t.now)]
  {
  }

  lemma {:induction false} UnstampedIs(stream: seq<Stamped>)
    ensures |Unstamped(stream)| == |stream|
    ensures forall k :: 0 <= k < |stream| ==> Unstamped(stream)[k] == stream[k].event
  {
    if stream != [] { UnstampedIs(stream[..|stream| - 1]); }
  }

  // ---------------------------------------------------------------- names without a NUL

  /** No path handed to an upload holds a NUL. */
  ghost predicate NulFreeInputs(jobs: seq<Job>) {
    forall k, f :: 0 <= k < |jobs| && jobs[k].Upload? && f in jobs[k].batch.files ==> NUL !in f
  }

  predicate NulFreeFile(e: Event) { Keyed(e) ==> NUL !in e.file }

  predicate NulFreeEvents(events: seq<Event>) {
    forall n :: 0 <= n < |events| ==> NulFreeFile(events[n])
  }

  lemma SendsOwnFiles(jobs: seq<Job>, log: seq<Move>, s: Sys, k: nat, a: Action)
    requires SysRun(jobs, log) == Some(s) && SysStep(jobs, s, Do(k, a)).Some? && a.Send? && NulFreeInputs(jobs)
    ensures NulFreeFile(a.event)
  {
    hide SysRun, Projection, Run, Init, Step, AttemptSeen;
    var mine := Projection(k, log);
    ProjectionRuns(jobs, log, s, k);
    if jobs[k].Upload? {
      var b := jobs[k].batch;
      UploadRuns(b, mine);
      SeenHolds(b, mine, s.jobs[k].s);
      SeenStep(b, s.jobs[k].s, a, JobStep(jobs[k], s.jobs[k], a).value.s, Latest(Events(mine)), Callbacks(mine));
    }
  }

  lemma {:induction false} HearsOwnFiles(jobs: seq<Job>, log: seq<Move>, s: Sys)
    requires SysRun(jobs, log) == Some(s) && NulFreeInputs(jobs)
    ensures NulFreeEvents(s.received)
  {
    hide SysStep, NulFreeFile, NulFreeInputs;
    if log != [] {
      var m := |log| - 1;
      SysRunOne(jobs, log, s);
      var t := SysRun(jobs, log[..m]).value;
      HearsOwnFiles(jobs, log[..m], t);
      ReceivesOne(jobs, t, log[m], s);
      if log[m].Do? && log[m].action.Send? {
        SendsOwnFiles(jobs, log[..m], t, log[m].k, log[m].action);
      }
    }
  }

  lemma NulFreeStream(stream: seq<Stamped>, endpoint: string, file: string)
    requires NulFreeEvents(Unstamped(stream)) && NUL !in file
    ensures Unambiguous(stream, endpoint, file)
  {
    hide Unstamped, Unambiguous;
    UnstampedIs(stream);
    forall k | 0 <= k < |stream| ensures NulFreeFile(stream[k].event) {
      assert NulFreeFile(Unstamped(stream)[k]);
    }
    NulFreeIsUnambiguous(stream, endpoint, file);
  }

  // ---------------------------------------------------------------- the main result

  /** The upload's progress events are what a reader of `chunks` reports of a file of stable size. */
  predicate ReportedFrom(chunks: seq<Chunk>, callbacks: seq<Event>) {
    && |callbacks| == |Reports(chunks)|
    && forall k :: 0 <= k < |callbacks| ==>
         callbacks[k].Progress? && callbacks[k].sent == Reports(chunks)[k] && callbacks[k].total == |Yielded(chunks)|
  }

  lemma TicksAreReports(mine: seq<Stamped>, chunks: seq<Chunk>, callbacks: seq<Event>, ticks: seq<Throttle.Tick>)
    requires ReportedFrom(chunks, callbacks) && InOrder(mine) && |mine| == |ticks| + 1 && |ticks| == |callbacks|
    requires forall k :: 0 <= k < |ticks| ==> TickOfEvent(ticks[k], callbacks[k]) && ticks[k].now == mine[k + 1].now
    ensures TicksOf(chunks, ticks)
  {
    hide Reports, Yielded;
    forall k | 0 <= k < |ticks|
      ensures ticks[k].sent == Reports(chunks)[k] && ticks[k].total == |Yielded(chunks)|
    {
      assert TickOfEvent(ticks[k], callbacks[k]);
    }
  }

  /** The stream that a run's consumer receives from one endpoint ends in the current attempt. */
  lemma StreamEndsInAttempt(jobs: seq<Job>, log: seq<Move>, s: Sys, k: nat, stream: seq<Stamped>)
    returns (early: seq<Stamped>, late: seq<Stamped>)
    requires SysRun(jobs, log) == Some(s) && DistinctOwners(jobs) && Unstamped(stream) == s.received
    requires |s.jobs| == |jobs| && k < |jobs| && jobs[k].Upload? && s.jobs[k].Uploads?
    requires s.jobs[k].s.pc.Verifying? || s.jobs[k].s.pc.Succeeding?
    ensures stream == early + late
    ensures var b, w, callbacks := jobs[k].batch, s.jobs[k].s, Callbacks(Projection(k, log));
            && w.i < |b.files| && AreProgress(b.ep.name, b.files[w.i], callbacks)
            && From(b.ep.name, Unstamped(late)) == [FileStart(b.ep.name, b.files[w.i], w.attempt)] + callbacks
            && From(b.ep.name, Unstamped(early)) + From(b.ep.name, Unstamped(late)) == From(b.ep.name, s.received)
  {
    hide SysRun, Projection, Run, Init, From, Unstamped, Events, Latest, Callbacks, DistinctOwners, Inv, AreProgress;
    var b, mine := jobs[k].batch, Projection(k, log);
    ProjectionRuns(jobs, log, s, k);
    UploadRuns(b, mine);
    SeenHolds(b, mine, s.jobs[k].s);
    ReceivedFromEach(jobs, log, s, k);
    var events := Events(mine);
    LatestIsSuffix(events);
    var n := |events| - |Latest(events)|;
    assert events == events[..n] + events[n..];
    early, late := StreamSplits(b.ep.name, stream, events[..n], events[n..]);
  }

  /** End to end, in verbose mode, in any run of the whole system at any time: let the upload of a
      file have gone through, reading the file to its end in any chunks, and its success not be
      reported yet.  Whatever was printed of the file before its current attempt was announced, and
      whatever else the stream holds, the attempt has added the lines of a fresh throttle: exactly one
      final line, last, or none at all if the file is empty. */
  lemma UploadOfARunPrintsOneFinalLine(jobs: seq<Job>, log: seq<Move>, s: Sys, k: nat, stream: seq<Stamped>,
                                       chunks: seq<Chunk>)
    returns (early: seq<Stamped>, late: seq<Stamped>, ticks: seq<Throttle.Tick>)
    requires SysRun(jobs, log) == Some(s) && DistinctOwners(jobs) && NulFreeInputs(jobs)
    requires Unstamped(stream) == s.received && InOrder(stream)
    requires |s.jobs| == |jobs| && k < |jobs| && jobs[k].Upload? && s.jobs[k].Uploads?
    requires s.jobs[k].s.pc.Verifying? || s.jobs[k].s.pc.Succeeding?
    requires ReportedFrom(chunks, Callbacks(Projection(k, log))) && |Yielded(chunks)| <= Throttle.MAX_INT64 / 100
    ensures stream == early + late && s.jobs[k].s.i < |jobs[k].batch.files|
    ensures From(Owner(jobs[k]), Unstamped(late)) ==
            [FileStart(Owner(jobs[k]), jobs[k].batch.files[s.jobs[k].s.i], s.jobs[k].s.attempt)]
            + Callbacks(Projection(k, log))
    ensures var endpoint, file := Owner(jobs[k]), jobs[k].batch.files[s.jobs[k].s.i];
            MarksOf(endpoint, file, Output(Verbose, stream)) ==
            MarksOf(endpoint, file, Output(Verbose, early)) + Throttle.Lines(Throttle.FRESH, ticks)
    ensures EndsInOneFinalLine(Throttle.Lines(Throttle.FRESH, ticks), |Yielded(chunks)|)
  {
    early, late := StreamEndsInAttempt(jobs, log, s, k, stream);
    var b, w, callbacks := jobs[k].batch, s.jobs[k].s, Callbacks(Projection(k, log));
    var endpoint, file := b.ep.name, b.files[w.i];
    assert NUL !in file;
    HearsOwnFiles(jobs, log, s);
    hide *;
    ticks := LateAttemptPrints(stream, early, late, chunks, endpoint, file, w.attempt, callbacks);
  }

  lemma LateAttemptPrints(stream: seq<Stamped>, early: seq<Stamped>, late: seq<Stamped>, chunks: seq<Chunk>,
                          endpoint: string, file: string, attempt: int, callbacks: seq<Event>)
    returns (ticks: seq<Throttle.Tick>)
    requires stream == early + late && InOrder(stream) && AreProgress(endpoint, file, callbacks)
    requires From(endpoint, Unstamped(late)) == [FileStart(endpoint, file, attempt)] + callbacks
    requires NulFreeEvents(Unstamped(stream)) && NUL !in file
    requires ReportedFrom(chunks, callbacks) && |Yielded(chunks)| <= Throttle.MAX_INT64 / 100
    ensures MarksOf(endpoint, file, Output(Verbose, stream)) ==
            MarksOf(endpoint, file, Output(Verbose, early)) + Throttle.Lines(Throttle.FRESH, ticks)
    ensures EndsInOneFinalLine(Throttle.Lines(Throttle.FRESH, ticks), |Yielded(chunks)|)
  {
    hide *;
    NulFreeStream(stream, endpoint, file);
    var mine := LateIsAttempt(stream, early, late, endpoint, file, attempt, callbacks);
    var start;
    ticks, start := ReadsAsAttempt(mine, endpoint, file, attempt, callbacks);
    TicksAreReports(mine, chunks, callbacks, ticks);
    assert mine + [] == mine;
    UploadPrintsOneFinalLine(early, late, chunks, ticks, endpoint, file, attempt, start, []);
  }

  lemma LateIsAttempt(stream: seq<Stamped>, early: seq<Stamped>, late: seq<Stamped>, endpoint: string, file: string,
                      attempt: int, callbacks: seq<Event>)
    returns (mine: seq<Stamped>)
    requires stream == early + late && InOrder(stream) && AreProgress(endpoint, file, callbacks)
    requires From(endpoint, Unstamped(late)) == [FileStart(endpoint, file, attempt)] + callbacks
    ensures mine == Only(endpoint, file, late) && InOrder(mine)
    ensures Unstamped(mine) == [FileStart(endpoint, file, attempt)] + callbacks
  {
    hide From, Unstamped, Only;
    mine := Only(endpoint, file, late);
    forall i, j | 0 <= i < j < |late| ensures late[i].now <= late[j].now {
      assert late[i] == stream[|early| + i] && late[j] == stream[|early| + j];
    }
    OnlyInOrder(endpoint, file, late);
    OnlyIsFrom(endpoint, file, late);
  }
}
