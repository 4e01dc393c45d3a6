/** The printer of cmd/uploadfun/printer.go: it folds the event stream into output lines and a
    failure flag, keeping one throttle per endpoint and file in a single map. */
module Printer {
  import opened Types
  import opened Throttle
  import opened Jobs

  datatype Mode = Default | Quiet | Verbose

  /** A line on standard output or standard error; progress lines carry their percentage. */
  datatype Line =
    | Out(event: Event)
    | Diagnostic(event: Event)
    | ProgressLine(endpoint: string, file: string, mark: Mark)

  /** An event and the wall clock when it is handled. */
  datatype Stamped = Stamped(event: Event, now: int)

  type States = map<string, ProgressState>

  const NUL := '\0'

  function ProgressKey(endpoint: string, file: string): string {
    endpoint + [NUL] + file
  }

  function TickOf(e: Event, now: int): Tick
    requires e.Progress?
  {
    Tick(e.sent, e.total, now)
  }

  /** What one event does to the map. */
  function NextStates(mode: Mode, states: States, x: Stamped): States {
    match x.event
    case FileStart(endpoint, file, _) =>
      if mode.Verbose? then states[ProgressKey(endpoint, file) := FRESH] else states
    case FileSuccess(endpoint, file, _) => states - {ProgressKey(endpoint, file)}
    case Progress(endpoint, file, sent, total) =>
      if mode.Verbose? then
        var key := ProgressKey(endpoint, file);
        states[key := After(Lookup(states, key), TickOf(x.event, x.now))]
      else states
    case _ => states
  }

  function Lookup(states: States, key: string): ProgressState {
    if key in states then states[key] else FRESH
  }

  /** What one event prints. */
  function Printed(mode: Mode, states: States, x: Stamped): seq<Line> {
    match x.event
    case FileStart(_, _, _) => if mode.Verbose? then [Out(x.event)] else []
    case Progress(endpoint, file, sent, total) =>
      var t := TickOf(x.event, x.now);
      if mode.Verbose? && Prints(Lookup(states, ProgressKey(endpoint, file)), t)
      then [ProgressLine(endpoint, file, Mark(Percent(sent, total), t))] else []
    case FileSuccess(_, _, _) => if mode.Quiet? then [] else [Out(x.event)]
    case Done(_, _, _) => if mode.Quiet? then [] else [Out(x.event)]
    case DryRun(_, _, err) =>
      if err.Some? then [Diagnostic(x.event)] else if mode.Quiet? then [] else [Out(x.event)]
    case _ => [Diagnostic(x.event)]
  }

  function StatesAfter(mode: Mode, stream: seq<Stamped>): States {
    if stream == [] then map[]
    else NextStates(mode, StatesAfter(mode, stream[..|stream| - 1]), stream[|stream| - 1])
  }

  function Output(mode: Mode, stream: seq<Stamped>): seq<Line> {
    if stream == [] then []
    else
      var before := stream[..|stream| - 1];
      Output(mode, before) + Printed(mode, StatesAfter(mode, before), stream[|stream| - 1])
  }

  class Printer {
    const mode: Mode
    var progress: States
    var lines: seq<Line>

    constructor (mode: Mode)
      ensures this.mode == mode && progress == map[] && lines == []
    {
      this.mode, progress, lines := mode, map[], [];
    }

    method Write(line: Line)
      modifies this`lines
      ensures lines == old(lines) + [line]
    {
      lines := lines + [line];
    }

    method WriteUnlessQuiet(e: Event)
      modifies this`lines
      ensures lines == old(lines) + if mode.Quiet? then [] else [Out(e)]
    {
      if !mode.Quiet? {
        Write(Out(e));
      }
    }

    /** cmd/uploadfun/printer.go:150-183 */
    method HandleProgress(e: Event, now: int)
      requires e.Progress? && mode.Verbose?
      modifies this
      ensures progress == NextStates(mode, old(progress), Stamped(e, now))
      ensures lines == old(lines) + Printed(mode, old(progress), Stamped(e, now))
    {
      var key := ProgressKey(e.endpoint, e.file);
      if key !in progress {
        progress := progress[key := FRESH];
      }
      var st := progress[key];
      var percent := 100;
      if e.total > 0 {
        percent := TruncDiv(Wrap64(e.sent * 100), e.total);
      }
      var bucket := percent - TruncRem(percent, PROGRESS_PERCENT_STEP);
      var final := e.sent >= e.total;

      if bucket == 0 && !final {
        return;
      }
      if bucket == st.lastPercent {
        return;
      }
      if st.lastPrinted.Some? && now - st.lastPrinted.value < PROGRESS_MIN_INTERVAL && !final {
        return;
      }
      progress := progress[key := ProgressState(bucket, Some(now))];
      Write(ProgressLine(e.endpoint, e.file, Mark(percent, TickOf(e, now))));
    }

    /** cmd/uploadfun/printer.go:81-132 */
    method Handle(e: Event, now: int)
      modifies this
      ensures progress == NextStates(mode, old(progress), Stamped(e, now))
      ensures lines == old(lines) + Printed(mode, old(progress), Stamped(e, now))
    {
      match e
      case FileStart(endpoint, file, _) =>
        if mode.Verbose? {
          progress := progress[ProgressKey(endpoint, file) := FRESH];
          Write(Out(e));
        }
      case Progress(_, _, _, _) =>
        if mode.Verbose? {
          HandleProgress(e, now);
        }
      case FileSuccess(endpoint, file, _) =>
        progress := progress - {ProgressKey(endpoint, file)};
        WriteUnlessQuiet(e);
      case Done(_, _, _) =>
        WriteUnlessQuiet(e);
      case DryRun(_, _, err) =>
        if err.Some? {
          Write(Diagnostic(e));
          return;
        }
        WriteUnlessQuiet(e);
      case _ =>
        Write(Diagnostic(e));
    }

    /** cmd/uploadfun/printer.go:64-79, over the whole stream of a channel that closes. */
    method ProcessEvents(stream: seq<Stamped>) returns (failed: bool)
      requires progress == map[] && lines == []
      modifies this
      ensures progress == StatesAfter(mode, stream) && lines == Output(mode, stream)
      ensures failed <==> exists k :: 0 <= k < |stream| && Alarming(stream[k].event)
    {
      failed := false;
      var k := 0;
      while k < |stream|
        invariant 0 <= k <= |stream|
        invariant progress == StatesAfter(mode, stream[..k]) && lines == Output(mode, stream[..k])
        invariant failed <==> exists j :: 0 <= j < k && Alarming(stream[j].event)
      {
        var e := stream[k].event;
        Handle(e, stream[k].now);
        assert stream[..k + 1][..k] == stream[..k];
        match e {
          case Done(_, _, n) => if n > 0 { failed := true; }
          case DryRun(_, _, err) => if err.Some? { failed := true; }
          case _ =>
        }
        k := k + 1;
      }
      assert stream[..k] == stream;
    }
  }

  // ---------------------------------------------------------------- what the modes show

  /** Events that tell of a failure; these go to standard error. */
  predicate Alerts(e: Event) {
    e.FileError? || e.Unreachable? || e.GivenUp? || (e.DryRun? && e.err.Some?)
  }

  function AlertsIn(stream: seq<Stamped>): seq<Event> {
    if stream == [] then []
    else
      var last := stream[|stream| - 1].event;
      AlertsIn(stream[..|stream| - 1]) + if Alerts(last) then [last] else []
  }

  /** What reaches standard error. */
  function Diagnostics(lines: seq<Line>): seq<Event> {
    if lines == [] then []
    else
      var last := lines[|lines| - 1];
      Diagnostics(lines[..|lines| - 1]) + if last.Diagnostic? then [last.event] else []
  }

  /** The lines a mode lets through of all that can be printed. */
  predicate Shows(mode: Mode, line: Line) {
    match line
    case Diagnostic(_) => true
    case Out(e) => mode.Verbose? || (mode.Default? && !e.FileStart?)
    case ProgressLine(_, _, _) => mode.Verbose?
  }

  function Shown(mode: Mode, lines: seq<Line>): seq<Line> {
    if lines == [] then []
    else
      var last := lines[|lines| - 1];
      Shown(mode, lines[..|lines| - 1]) + if Shows(mode, last) then [last] else []
  }

  /** The output of every mode is the verbose output with some lines left out: quiet mode keeps only
      what goes to standard error, the default mode drops announcements and progress.  And every
      mode sends to standard error exactly the failures of the stream, in order. */
  lemma {:induction false} ModesOnlyFilter(mode: Mode, stream: seq<Stamped>)
    ensures Output(mode, stream) == Shown(mode, Output(Verbose, stream))
    ensures Diagnostics(Output(mode, stream)) == AlertsIn(stream)
  {
    if stream != [] {
      hide Prints, Printed, StatesAfter, Shows, Alerts;
      var m := |stream| - 1;
      var before, x := stream[..m], stream[m];
      ModesOnlyFilter(mode, before);
      EventModes(mode, StatesAfter(mode, before), StatesAfter(Verbose, before), x);
      ShownPlus(mode, Output(Verbose, before), Printed(Verbose, StatesAfter(Verbose, before), x));
      DiagnosticsPlus(Output(mode, before), Printed(mode, StatesAfter(mode, before), x));
    }
  }

  lemma EventModes(mode: Mode, states: States, verboseStates: States, x: Stamped)
    requires mode.Verbose? ==> states == verboseStates
    ensures |Printed(mode, states, x)| <= 1 && |Printed(Verbose, verboseStates, x)| <= 1
    ensures Printed(mode, states, x) == Shown(mode, Printed(Verbose, verboseStates, x))
    ensures Diagnostics(Printed(mode, states, x)) == if Alerts(x.event) then [x.event] else []
  {
    hide Shown, Diagnostics, Printed, Shows, Alerts;
    EventShown(mode, states, verboseStates, x);
    EventAlerts(mode, states, x);
    ShownOne(mode, Printed(Verbose, verboseStates, x));
    DiagnosticsOne(Printed(mode, states, x));
  }

  lemma EventShown(mode: Mode, states: States, verboseStates: States, x: Stamped)
    requires mode.Verbose? ==> states == verboseStates
    ensures var all := Printed(Verbose, verboseStates, x);
            |all| <= 1 && Printed(mode, states, x) == if all != [] && Shows(mode, all[0]) then all else []
  {
    hide Prints, Percent, ProgressKey;
  }

  lemma EventAlerts(mode: Mode, states: States, x: Stamped)
    ensures var lines := Printed(mode, states, x);
            |lines| <= 1
            && (lines != [] && lines[0].Diagnostic? <==> Alerts(x.event))
            && (Alerts(x.event) ==> lines[0].event == x.event)
  {
    hide Prints, Percent, ProgressKey;
  }

  lemma ShownOne(mode: Mode, lines: seq<Line>)
    requires |lines| <= 1
    ensures Shown(mode, lines) == if lines != [] && Shows(mode, lines[0]) then lines else []
  {
    assert lines != [] ==> lines[..0] == [];
  }

  lemma DiagnosticsOne(lines: seq<Line>)
    requires |lines| <= 1
    ensures Diagnostics(lines) == if lines != [] && lines[0].Diagnostic? then [lines[0].event] else []
  {
    assert lines != [] ==> lines[..0] == [];
  }

  lemma ShownPlus(mode: Mode, lines: seq<Line>, more: seq<Line>)
    requires |more| <= 1
    ensures Shown(mode, lines + more) == Shown(mode, lines) + Shown(mode, more)
  {
    hide Shows;
    ShownOne(mode, more);
    if more == [] {
      assert lines + more == lines;
    } else {
      assert (lines + more)[..|lines|] == lines;
      assert more == [more[0]];
    }
  }

  lemma DiagnosticsPlus(lines: seq<Line>, more: seq<Line>)
    requires |more| <= 1
    ensures Diagnostics(lines + more) == Diagnostics(lines) + Diagnostics(more)
  {
    DiagnosticsOne(more);
    if more == [] {
      assert lines + more == lines;
    } else {
      assert (lines + more)[..|lines|] == lines;
    }
  }

  // ---------------------------------------------------------------- what reaches standard output

  /** Events a mode tells of on standard output. */
  predicate Tells(mode: Mode, e: Event) {
    match mode
    case Quiet => false
    case Default => e.FileSuccess? || e.Done? || (e.DryRun? && e.err.None?)
    case Verbose => e.FileStart? || e.FileSuccess? || e.Done? || (e.DryRun? && e.err.None?)
  }

  function Told(mode: Mode, stream: seq<Stamped>): seq<Event> {
    if stream == [] then []
    else
      var last := stream[|stream| - 1].event;
      Told(mode, stream[..|stream| - 1]) + if Tells(mode, last) then [last] else []
  }

  /** The events of the lines on standard output that are no progress lines. */
  function Outs(lines: seq<Line>): seq<Event> {
    if lines == [] then []
    else
      var last := lines[|lines| - 1];
      Outs(lines[..|lines| - 1]) + if last.Out? then [last.event] else []
  }

  /** The line is about a callback, and gives its numbers and the percentage they make. */
  predicate ReportsTick(line: Line, x: Stamped)
    requires x.event.Progress?
  {
    && line.ProgressLine? && line.endpoint == x.event.endpoint && line.file == x.event.file
    && line.mark == Mark(Percent(x.event.sent, x.event.total), Tick(x.event.sent, x.event.total, x.now))
  }

  /** What the latest event adds to the output: its own line on the stream it belongs on, or nothing;
      a callback adds at most a progress line of its own, in verbose mode only. */
  lemma EventPrints(mode: Mode, stream: seq<Stamped>)
    requires stream != []
    ensures var x, before := stream[|stream| - 1], Output(mode, stream[..|stream| - 1]);
            && before <= Output(mode, stream)
            && var more := Output(mode, stream)[|before|..];
               if Alerts(x.event) then more == [Diagnostic(x.event)]
               else if Tells(mode, x.event) then more == [Out(x.event)]
               else more == [] || (|more| == 1 && mode.Verbose? && x.event.Progress? && ReportsTick(more[0], x))
  {
    hide Prints, Percent, ProgressKey, StatesAfter;
  }

  lemma OutsPlus(lines: seq<Line>, more: seq<Line>)
    requires |more| <= 1
    ensures Outs(lines + more) == Outs(lines) + if more != [] && more[0].Out? then [more[0].event] else []
  {
    if more == [] {
      assert lines + more == lines;
    } else {
      assert (lines + more)[..|lines|] == lines;
    }
  }

  /** Standard output tells of exactly the events the mode is for, in order: verbose mode of every
      announcement, success, Done and passed dry run, the default mode of all but the announcements,
      quiet mode of nothing. */
  lemma {:induction false} OutputTellsExactly(mode: Mode, stream: seq<Stamped>)
    ensures Outs(Output(mode, stream)) == Told(mode, stream)
  {
    if stream != [] {
      hide Output, Alerts, Tells, ReportsTick, Outs;
      var m := |stream| - 1;
      OutputTellsExactly(mode, stream[..m]);
      EventPrints(mode, stream);
      AlertsAreNotTold(mode, stream[m].event);
      var before, all := Output(mode, stream[..m]), Output(mode, stream);
      var more := all[|before|..];
      assert all == before + more;
      OutsPlus(before, more);
      if |more| == 1 && stream[m].event.Progress? && ReportsTick(more[0], stream[m]) {
        TickIsNotTold(mode, stream[m], more[0]);
      }
    } else {
      NothingOut(mode);
    }
  }

  lemma NothingOut(mode: Mode)
    ensures Outs(Output(mode, [])) == []
  {
  }

  lemma AlertsAreNotTold(mode: Mode, e: Event)
    ensures Alerts(e) ==> !Tells(mode, e)
  {
  }

  lemma TickIsNotTold(mode: Mode, x: Stamped, line: Line)
    requires x.event.Progress? && ReportsTick(line, x)
    ensures !line.Out? && !Tells(mode, x.event)
  {
  }

  // ---------------------------------------------------------------- keys

  /** The second endpoint's name is the first one's, a NUL and `x`; the first file's name is `x`, a
      NUL and the second one's. */
  predicate ShiftedBy(x: string, endpoint: string, file: string, endpoint': string, file': string) {
    endpoint' == endpoint + [NUL] + x && file == x + [NUL] + file'
  }

  ghost predicate Shifted(endpoint: string, file: string, endpoint': string, file': string) {
    exists x :: ShiftedBy(x, endpoint, file, endpoint', file')
  }

  /** Two pairs share a key exactly when they are the same pair or one is the other with a NUL
      shifted across: so only if an endpoint's name and a file's name both hold one. */
  lemma KeysCollideExactly(endpoint: string, file: string, endpoint': string, file': string)
    ensures ProgressKey(endpoint, file) == ProgressKey(endpoint', file') <==>
            (endpoint == endpoint' && file == file')
            || Shifted(endpoint, file, endpoint', file') || Shifted(endpoint', file', endpoint, file)
  {
    if ProgressKey(endpoint, file) == ProgressKey(endpoint', file') {
      if |endpoint| <= |endpoint'| {
        SharedKey(endpoint, file, endpoint', file');
      } else {
        SharedKey(endpoint', file', endpoint, file);
      }
    }
    if Shifted(endpoint, file, endpoint', file') {
      ShiftShares(endpoint, file, endpoint', file');
    }
    if Shifted(endpoint', file', endpoint, file) {
      ShiftShares(endpoint', file', endpoint, file);
    }
  }

  lemma SharedKey(endpoint: string, file: string, endpoint': string, file': string)
    requires ProgressKey(endpoint, file) == ProgressKey(endpoint', file') && |endpoint| <= |endpoint'|
    ensures (endpoint == endpoint' && file == file') || Shifted(endpoint, file, endpoint', file')
  {
    var key, n, n' := ProgressKey(endpoint, file), |endpoint|, |endpoint'|;
    assert key[..n] == endpoint && key[n] == NUL && key[n + 1..] == file;
    assert key[..n'] == endpoint' && key[n'] == NUL && key[n' + 1..] == file';
    if n < n' {
      var x := key[n + 1..n'];
      assert key[..n'] == key[..n] + [key[n]] + x;
      assert key[n + 1..] == x + [key[n']] + key[n' + 1..];
      assert ShiftedBy(x, endpoint, file, endpoint', file');
    }
  }

  lemma ShiftShares(endpoint: string, file: string, endpoint': string, file': string)
    requires Shifted(endpoint, file, endpoint', file')
    ensures ProgressKey(endpoint, file) == ProgressKey(endpoint', file') && NUL in endpoint' && NUL in file
  {
    var x :| ShiftedBy(x, endpoint, file, endpoint', file');
    assert endpoint'[|endpoint|] == NUL && file[|x|] == NUL;
    assert endpoint + [NUL] + (x + [NUL] + file') == (endpoint + [NUL] + x) + [NUL] + file';
  }

  /** Hence a key names one endpoint and one file unless one pair's endpoint and the other pair's file
      both hold a NUL.  A path never does. */
  lemma KeysAreInjective(endpoint: string, file: string, endpoint': string, file': string)
    requires NUL !in endpoint || NUL !in file'
    requires NUL !in endpoint' || NUL !in file
    requires ProgressKey(endpoint, file) == ProgressKey(endpoint', file')
    ensures endpoint == endpoint' && file == file'
  {
    KeysCollideExactly(endpoint, file, endpoint', file');
    if Shifted(endpoint, file, endpoint', file') {
      ShiftShares(endpoint, file, endpoint', file');
    }
    if Shifted(endpoint', file', endpoint, file) {
      ShiftShares(endpoint', file', endpoint, file);
    }
  }

  // ---------------------------------------------------------------- one key on its own

  /** Events that bear on the throttle of one file on one endpoint. */
  predicate Concerns(endpoint: string, file: string, e: Event) {
    Keyed(e) && e.endpoint == endpoint && e.file == file
  }

  function Only(endpoint: string, file: string, stream: seq<Stamped>): seq<Stamped> {
    if stream == [] then []
    else
      var last := stream[|stream| - 1];
      Only(endpoint, file, stream[..|stream| - 1]) + if Concerns(endpoint, file, last.event) then [last] else []
  }

  /** The throttle of one key, running on that key's events alone: None while there is none. */
  function KeyState(stream: seq<Stamped>): Option<ProgressState> {
    if stream == [] then None else KeyNext(KeyState(stream[..|stream| - 1]), stream[|stream| - 1])
  }

  function KeyNext(st: Option<ProgressState>, x: Stamped): Option<ProgressState> {
    match x.event
    case FileStart(_, _, _) => Some(FRESH)
    case FileSuccess(_, _, _) => None
    case Progress(_, _, _, _) => Some(After(OrFresh(st), TickOf(x.event, x.now)))
    case _ => st
  }

  function Find(states: States, key: string): Option<ProgressState> {
    if key in states then Some(states[key]) else None
  }

  function OrFresh(st: Option<ProgressState>): ProgressState {
    if st.Some? then st.value else FRESH
  }

  function KeyMarks(stream: seq<Stamped>): seq<Mark> {
    if stream == [] then []
    else
      var before, last := stream[..|stream| - 1], stream[|stream| - 1];
      KeyMarks(before) +
      if last.event.Progress? && Prints(OrFresh(KeyState(before)), TickOf(last.event, last.now))
      then [Mark(Percent(last.event.sent, last.event.total), TickOf(last.event, last.now))] else []
  }

  /** The progress lines of one file on one endpoint. */
  function MarksOf(endpoint: string, file: string, lines: seq<Line>): seq<Mark> {
    if lines == [] then []
    else
      var last := lines[|lines| - 1];
      MarksOf(endpoint, file, lines[..|lines| - 1])
      + if last.ProgressLine? && last.endpoint == endpoint && last.file == file then [last.mark] else []
  }

  lemma MarksOfOne(endpoint: string, file: string, lines: seq<Line>, more: seq<Line>)
    requires |more| <= 1
    ensures MarksOf(endpoint, file, lines + more) ==
            MarksOf(endpoint, file, lines) + MarksOf(endpoint, file, more)
  {
    if more != [] {
      assert (lines + more)[..|lines|] == lines;
      assert MarksOf(endpoint, file, more[..0]) == [];
    } else {
      assert lines + more == lines;
    }
  }

  /** Events that touch the map. */
  predicate Keyed(e: Event) {
    e.FileStart? || e.Progress? || e.FileSuccess?
  }

  /** The event's key cannot be mistaken for this one: not both of an endpoint's and the other's
      file's name hold a NUL. */
  predicate Apart(e: Event, endpoint: string, file: string) {
    Keyed(e) ==> (NUL !in e.endpoint || NUL !in file) && (NUL !in endpoint || NUL !in e.file)
  }

  predicate Unambiguous(stream: seq<Stamped>, endpoint: string, file: string) {
    forall k :: 0 <= k < |stream| ==> Apart(stream[k].event, endpoint, file)
  }

  predicate NulFreeFiles(stream: seq<Stamped>) {
    forall k :: 0 <= k < |stream| && Keyed(stream[k].event) ==> NUL !in stream[k].event.file
  }

  /** That is so whenever the endpoints' names are free of NULs, and whenever the files' names are. */
  lemma NulFreeIsUnambiguous(stream: seq<Stamped>, endpoint: string, file: string)
    requires (NUL !in endpoint && forall k :: 0 <= k < |stream| ==> NUL !in stream[k].event.endpoint)
             || (NUL !in file && NulFreeFiles(stream))
    ensures Unambiguous(stream, endpoint, file)
  {
  }

  /** The printer's one map behaves as independent throttles: whatever other events are
      interleaved, the state kept for a file on an endpoint and the progress lines printed for it
      are those of a throttle that sees that file's events alone. */
  lemma {:induction false} KeysDoNotInterfere(stream: seq<Stamped>, endpoint: string, file: string)
    requires Unambiguous(stream, endpoint, file)
    ensures var mine := Only(endpoint, file, stream);
            var key := ProgressKey(endpoint, file);
            var states := StatesAfter(Verbose, stream);
            && KeyState(mine) == Find(states, key)
            && MarksOf(endpoint, file, Output(Verbose, stream)) == KeyMarks(mine)
  {
    hide Prints, After, Percent, ProgressKey, Printed, NextStates, Find, KeyNext;
    if stream == [] {
      assert Find(map[], ProgressKey(endpoint, file)) == None by { FindNothing(ProgressKey(endpoint, file)); }
    } else {
      var m := |stream| - 1;
      var before, x := stream[..m], stream[m];
      KeysDoNotInterfere(before, endpoint, file);
      var mine := Only(endpoint, file, before);
      var states := StatesAfter(Verbose, before);
      OneState(states, x, endpoint, file);
      OneMark(states, x, endpoint, file);
      MarksOfOne(endpoint, file, Output(Verbose, before), Printed(Verbose, states, x));
      KeyOne(mine, x);
      assert mine + [] == mine;
      assert KeyMarks(mine) + [] == KeyMarks(mine);
    }
  }

  /** The map holds a state for a file on an endpoint exactly from the first announcement or callback
      of an attempt to the file's success, and only in verbose mode: it does not grow over a batch. */
  lemma {:induction false} StatesAreDropped(mode: Mode, stream: seq<Stamped>, endpoint: string, file: string)
    requires Unambiguous(stream, endpoint, file)
    ensures var mine := Only(endpoint, file, stream);
            ProgressKey(endpoint, file) in StatesAfter(mode, stream) <==>
            mode.Verbose? && mine != [] && !mine[|mine| - 1].event.FileSuccess?
  {
    hide Prints, After, ProgressKey;
    if stream != [] {
      var m := |stream| - 1;
      StatesAreDropped(mode, stream[..m], endpoint, file);
      if !Concerns(endpoint, file, stream[m].event) {
        OthersElsewhere(stream[m].event, endpoint, file);
      }
    }
  }

  lemma KeyOne(mine: seq<Stamped>, x: Stamped)
    ensures KeyState(mine + [x]) == KeyNext(KeyState(mine), x)
    ensures KeyMarks(mine + [x]) == KeyMarks(mine) +
      if x.event.Progress? && Prints(OrFresh(KeyState(mine)), TickOf(x.event, x.now))
      then [Mark(Percent(x.event.sent, x.event.total), TickOf(x.event, x.now))] else []
  {
    hide Prints, KeyNext, Percent;
    assert (mine + [x])[..|mine|] == mine;
  }

  lemma FindNothing(key: string)
    ensures Find(map[], key) == None
  {
  }

  lemma OneState(states: States, x: Stamped, endpoint: string, file: string)
    requires Apart(x.event, endpoint, file)
    ensures var key := ProgressKey(endpoint, file);
            Find(NextStates(Verbose, states, x), key) ==
            if Concerns(endpoint, file, x.event) then KeyNext(Find(states, key), x) else Find(states, key)
  {
    hide Prints, After, ProgressKey;
    if !Concerns(endpoint, file, x.event) {
      OthersElsewhere(x.event, endpoint, file);
    }
  }

  lemma OthersElsewhere(e: Event, endpoint: string, file: string)
    requires Apart(e, endpoint, file) && !Concerns(endpoint, file, e)
    ensures Keyed(e) ==> ProgressKey(e.endpoint, e.file) != ProgressKey(endpoint, file)
  {
    if Keyed(e) && ProgressKey(e.endpoint, e.file) == ProgressKey(endpoint, file) {
      KeysAreInjective(e.endpoint, e.file, endpoint, file);
    }
  }

  lemma OneMark(states: States, x: Stamped, endpoint: string, file: string)
    ensures |Printed(Verbose, states, x)| <= 1
    ensures MarksOf(endpoint, file, Printed(Verbose, states, x)) ==
      if Concerns(endpoint, file, x.event) && x.event.Progress?
         && Prints(OrFresh(Find(states, ProgressKey(endpoint, file))), TickOf(x.event, x.now))
      then [Mark(Percent(x.event.sent, x.event.total), TickOf(x.event, x.now))] else []
  {
    hide Prints, ProgressKey, Percent;
    var lines := Printed(Verbose, states, x);
    if lines != [] {
      assert lines[..|lines| - 1] == [];
      assert MarksOf(endpoint, file, []) == [];
    }
  }
}
