/** The reader of internal/transport/conn.go:98-123 that reports upload progress, streamToClose
    of internal/transport/sftp.go:198-208, and what reaches the printer in the end. */
module ProgressReader {
  import opened Types
  import opened Throttle
  import opened Printer

  type Byte = bv8

  /** One answer of the wrapped reader: some bytes, possibly none, and possibly an error, of which
      end of file is one. */
  datatype Chunk = Chunk(data: seq<Byte>, err: Option<Error>)

  function Yielded(chunks: seq<Chunk>): seq<Byte> {
    if chunks == [] then [] else Yielded(chunks[..|chunks| - 1]) + chunks[|chunks| - 1].data
  }

  /** The byte counts reported for these answers: one for each that yields bytes. */
  function Reports(chunks: seq<Chunk>): seq<int> {
    if chunks == [] then []
    else
      Reports(chunks[..|chunks| - 1])
      + if chunks[|chunks| - 1].data == [] then [] else [|Yielded(chunks)|]
  }

  class Reader {
    var sent: int
    const total: int
    /** onProgress, if any, is handed the calls recorded here. */
    const reports: bool
    var calls: seq<int>
    ghost var seen: seq<Chunk>

    /** `sent` is an int64. */
    ghost predicate Valid()
      reads this
    {
      && sent == Wrap64(|Yielded(seen)|)
      && (|Yielded(seen)| <= MAX_INT64 ==> calls == if reports then Reports(seen) else [])
    }

    constructor (total: int, reports: bool)
      ensures Valid() && this.total == total && this.reports == reports && seen == []
    {
      this.total, this.reports := total, reports;
      sent, calls, seen := 0, [], [];
    }

    /** `answer` is what the wrapped reader answers to this call. */
    method Read(answer: Chunk) returns (data: seq<Byte>, err: Option<Error>)
      requires Valid()
      modifies this
      ensures Valid() && seen == old(seen) + [answer]
      ensures data == answer.data && err == answer.err
    {
      data, err := answer.data, answer.err;
      seen := seen + [answer];
      assert seen[..|seen| - 1] == old(seen);
      WrapTwice(|Yielded(old(seen))|, |data|);
      if |data| > 0 {
        sent := Wrap64(sent + |data|);
        if reports {
          calls := calls + [sent];
        }
      }
    }
  }

  lemma WrapTwice(x: int, n: int)
    ensures Wrap64(Wrap64(x) + n) == Wrap64(x + n)
  {
    var y := x + MAX_INT64 + 1;
    var q := y / TWO_TO_THE_64;
    assert Wrap64(x) == x - q * TWO_TO_THE_64;
    ModShift(y + n, q);
  }

  lemma ModShift(y: int, q: int)
    ensures (y - q * TWO_TO_THE_64) % TWO_TO_THE_64 == y % TWO_TO_THE_64
  {
  }

  const EOF := Error("EOF", false)

  /** The wrapped reader's answers come to an end: end of file or a read error. */
  predicate Ends(chunks: seq<Chunk>) {
    chunks != [] && chunks[|chunks| - 1].err.Some?
    && forall k :: 0 <= k < |chunks| - 1 ==> chunks[k].err.None?
  }

  /** Every chunk is read, down to a clean end of file, and written. */
  ghost predicate CopiesAll(chunks: seq<Chunk>, write: nat -> Option<Error>) {
    && chunks != [] && chunks[|chunks| - 1].err == Some(EOF)
    && forall k :: 0 <= k < |chunks| ==> !RefusesAt(chunks, write, k)
  }

  predicate RefusesAt(chunks: seq<Chunk>, write: nat -> Option<Error>, k: nat)
    requires k < |chunks|
  {
    chunks[k].data != [] && write(k).Some?
  }

  /** The k-th write is refused, and is the first one. */
  ghost predicate FirstRefusal(chunks: seq<Chunk>, write: nat -> Option<Error>, k: nat)
    requires k < |chunks|
  {
    RefusesAt(chunks, write, k) && forall j :: 0 <= j < k ==> !RefusesAt(chunks, write, j)
  }

  /** The error of the first write that is refused; only if none is, that of the last read. */
  ghost predicate CopyFails(chunks: seq<Chunk>, write: nat -> Option<Error>, err: Option<Error>)
    requires chunks != []
  {
    if exists k :: 0 <= k < |chunks| && RefusesAt(chunks, write, k) then
      exists k :: 0 <= k < |chunks| && FirstRefusal(chunks, write, k) && err == write(k)
    else err == chunks[|chunks| - 1].err && err.Some? && err != Some(EOF)
  }

  /** internal/transport/sftp.go:198-208.  `write(k)` is the remote side's answer to the k-th
      write, `closeErr` its answer to the close.  The upload is good exactly when every byte was
      written and the close went through; an error of the copy takes precedence. */
  method StreamToClose(r: Reader, chunks: seq<Chunk>, write: nat -> Option<Error>, closeErr: Option<Error>)
    returns (written: seq<Byte>, err: Option<Error>)
    requires r.Valid() && r.seen == [] && Ends(chunks)
    modifies r
    ensures r.Valid() && r.seen <= chunks && written <= Yielded(chunks)
    ensures err.None? <==> CopiesAll(chunks, write) && closeErr.None?
    ensures CopiesAll(chunks, write) ==> r.seen == chunks && written == Yielded(chunks) && err == closeErr
    ensures !CopiesAll(chunks, write) ==> CopyFails(chunks, write, err)
    ensures forall k :: 0 <= k < |chunks| && FirstRefusal(chunks, write, k) ==> written == Yielded(chunks[..k])
  {
    hide Yielded, Reports, Wrap64;
    written := [];
    var copyErr := None;
    var k := 0;
    YieldedNone();
    while true
      invariant 0 <= k < |chunks|
      invariant r.Valid() && r.seen == chunks[..k] && written == Yielded(chunks[..k]) && copyErr.None?
      invariant forall j :: 0 <= j < k ==> !RefusesAt(chunks, write, j)
      decreases |chunks| - k
    {
      var data, readErr := r.Read(chunks[k]);
      YieldedOne(chunks, k);
      if data != [] {
        if write(k).Some? {
          copyErr := write(k);
          assert FirstRefusal(chunks, write, k);
          break;
        }
        written := written + data;
      }
      if readErr.Some? {
        if readErr != Some(EOF) {
          copyErr := readErr;
        }
        break;
      }
      k := k + 1;
    }
    YieldedPrefix(chunks, k);
    YieldedPrefix(chunks, k + 1);
    err := if copyErr.Some? then copyErr else closeErr;
  }

  lemma YieldedNone()
    ensures Yielded([]) == []
  {
  }

  lemma YieldedOne(chunks: seq<Chunk>, k: nat)
    requires k < |chunks|
    ensures chunks[..k + 1] == chunks[..k] + [chunks[k]]
    ensures Yielded(chunks[..k + 1]) == Yielded(chunks[..k]) + chunks[k].data
  {
    assert chunks[..k + 1][..k] == chunks[..k];
  }

  lemma {:induction false} YieldedPrefix(chunks: seq<Chunk>, k: nat)
    requires k <= |chunks|
    ensures Yielded(chunks[..k]) <= Yielded(chunks)
    ensures k == |chunks| ==> chunks[..k] == chunks
  {
    if k < |chunks| {
      YieldedPrefix(chunks[..|chunks| - 1], k);
      assert chunks[..|chunks| - 1][..k] == chunks[..k];
    } else {
      assert chunks[..k] == chunks;
    }
  }

  // ---------------------------------------------------------------- what is reported

  ghost predicate IsCountSoFar(chunks: seq<Chunk>, n: int) {
    exists m :: 0 <= m <= |chunks| && n == |Yielded(chunks[..m])|
  }

  lemma CountSoFarGrows(chunks: seq<Chunk>, n: int)
    requires chunks != [] && IsCountSoFar(chunks[..|chunks| - 1], n)
    ensures IsCountSoFar(chunks, n)
  {
    hide Yielded;
    var before := chunks[..|chunks| - 1];
    var m :| 0 <= m <= |before| && n == |Yielded(before[..m])|;
    assert chunks[..m] == before[..m];
  }

  lemma CountSoFarIsAll(chunks: seq<Chunk>)
    ensures IsCountSoFar(chunks, |Yielded(chunks)|)
  {
    assert chunks[..|chunks|] == chunks;
  }

  lemma ReportsOne(chunks: seq<Chunk>)
    requires chunks != []
    ensures var before, last := chunks[..|chunks| - 1], chunks[|chunks| - 1];
            && Yielded(chunks) == Yielded(before) + last.data
            && Reports(chunks) == Reports(before) + if last.data == [] then [] else [|Yielded(chunks)|]
  {
  }

  /** The counts grow by at least one at a time, each is a number of bytes yielded by some
      beginning of the answers, and none exceeds the whole. */
  ghost predicate CountUp(chunks: seq<Chunk>, reports: seq<int>) {
    && (forall j, k :: 0 <= j < k < |reports| ==> reports[j] < reports[k])
    && (forall k :: 0 <= k < |reports| ==> 0 < reports[k] <= |Yielded(chunks)| && IsCountSoFar(chunks, reports[k]))
  }

  lemma CountUpGrows(chunks: seq<Chunk>, reports: seq<int>)
    requires chunks != [] && CountUp(chunks[..|chunks| - 1], reports)
    requires |Yielded(chunks[..|chunks| - 1])| <= |Yielded(chunks)|
    ensures CountUp(chunks, reports)
  {
    hide IsCountSoFar, Yielded, Reports;
    forall k | 0 <= k < |reports| ensures IsCountSoFar(chunks, reports[k]) {
      CountSoFarGrows(chunks, reports[k]);
    }
  }

  lemma CountUpOneMore(chunks: seq<Chunk>, reports: seq<int>, n: int)
    requires CountUp(chunks, reports) && n == |Yielded(chunks)| > 0
    requires reports != [] ==> reports[|reports| - 1] < n
    ensures CountUp(chunks, reports + [n])
  {
    hide IsCountSoFar, Yielded, Reports;
    CountSoFarIsAll(chunks);
  }

  /** Reported counts strictly increase, each is the number of bytes yielded so far, and if
      anything was yielded the last report is everything. */
  lemma {:induction false} ReportsAreCumulative(chunks: seq<Chunk>)
    ensures CountUp(chunks, Reports(chunks))
    ensures if Yielded(chunks) == [] then Reports(chunks) == []
            else Reports(chunks) != [] && Reports(chunks)[|Reports(chunks)| - 1] == |Yielded(chunks)|
  {
    if chunks != [] {
      hide Yielded, Reports, CountUp;
      var before := chunks[..|chunks| - 1];
      ReportsAreCumulative(before);
      ReportsOne(chunks);
      CountUpGrows(chunks, Reports(before));
      if chunks[|chunks| - 1].data != [] {
        CountUpOneMore(chunks, Reports(before), |Yielded(chunks)|);
      }
    }
  }

  // ---------------------------------------------------------------- from the reader to the printer

  /** The events that announce an attempt and then report these counts, at these times. */
  function AttemptEvents(endpoint: string, file: string, attempt: int, ticks: seq<Tick>, start: int): seq<Stamped> {
    if ticks == [] then [Stamped(FileStart(endpoint, file, attempt), start)]
    else
      var t := ticks[|ticks| - 1];
      AttemptEvents(endpoint, file, attempt, ticks[..|ticks| - 1], start)
      + [Stamped(Progress(endpoint, file, t.sent, t.total), t.now)]
  }

  /** Whatever a key's throttle has been through, an announced attempt is a fresh start for it. */
  lemma {:induction false} AttemptMarks(before: seq<Stamped>, endpoint: string, file: string, attempt: int,
                                        ticks: seq<Tick>, start: int)
    ensures var stream := before + AttemptEvents(endpoint, file, attempt, ticks, start);
            && KeyState(stream) == Some(StateAfter(FRESH, ticks))
            && KeyMarks(stream) == KeyMarks(before) + Lines(FRESH, ticks)
  {
    hide Prints, After, Percent, KeyState, KeyMarks;
    if ticks == [] {
      KeyOne(before, Stamped(FileStart(endpoint, file, attempt), start));
      assert KeyMarks(before) + [] == KeyMarks(before);
    } else {
      var m := |ticks| - 1;
      var t := ticks[m];
      var x := Stamped(Progress(endpoint, file, t.sent, t.total), t.now);
      AttemptMarks(before, endpoint, file, attempt, ticks[..m], start);
      var stream := before + AttemptEvents(endpoint, file, attempt, ticks[..m], start);
      KeyOne(stream, x);
      assert stream + [x] == before + AttemptEvents(endpoint, file, attempt, ticks, start);
    }
  }

  function CallbackEvents(endpoint: string, file: string, ticks: seq<Tick>): seq<Stamped> {
    if ticks == [] then []
    else
      var t := ticks[|ticks| - 1];
      CallbackEvents(endpoint, file, ticks[..|ticks| - 1])
      + [Stamped(Progress(endpoint, file, t.sent, t.total), t.now)]
  }

  /** Callbacks that no announcement precedes, or that follow a success, are a fresh start too. */
  lemma {:induction false} UnannouncedMarks(before: seq<Stamped>, endpoint: string, file: string, ticks: seq<Tick>)
    requires KeyState(before).None?
    ensures var stream := before + CallbackEvents(endpoint, file, ticks);
            && KeyState(stream) == (if ticks == [] then None else Some(StateAfter(FRESH, ticks)))
            && KeyMarks(stream) == KeyMarks(before) + Lines(FRESH, ticks)
  {
    hide Prints, After, Percent, KeyState, KeyMarks;
    if ticks == [] {
      assert before + CallbackEvents(endpoint, file, ticks) == before;
      assert KeyMarks(before) + [] == KeyMarks(before);
    } else {
      var m := |ticks| - 1;
      var t := ticks[m];
      var x := Stamped(Progress(endpoint, file, t.sent, t.total), t.now);
      UnannouncedMarks(before, endpoint, file, ticks[..m]);
      var stream := before + CallbackEvents(endpoint, file, ticks[..m]);
      KeyOne(stream, x);
      assert stream + [x] == before + CallbackEvents(endpoint, file, ticks);
    }
  }

  lemma {:induction false} OnlyPlus(endpoint: string, file: string, early: seq<Stamped>, late: seq<Stamped>)
    ensures Only(endpoint, file, early + late) == Only(endpoint, file, early) + Only(endpoint, file, late)
  {
    hide Concerns;
    if late == [] {
      assert early + late == early;
    } else {
      var m := |late| - 1;
      OnlyPlus(endpoint, file, early, late[..m]);
      assert (early + late)[..|early| + m] == early + late[..m];
    }
  }

  /** The callbacks of an upload that reads `chunks` of a file of stable size, on a clock that
      does not go back. */
  ghost predicate TicksOf(chunks: seq<Chunk>, ticks: seq<Tick>) {
    && |ticks| == |Reports(chunks)|
    && (forall k :: 0 <= k < |ticks| ==> ticks[k].sent == Reports(chunks)[k] && ticks[k].total == |Yielded(chunks)|)
    && (forall j, k :: 0 <= j < k < |ticks| ==> ticks[j].now <= ticks[k].now)
  }

  /** One final line, the last; none at all for an empty file. */
  predicate EndsInOneFinalLine(marks: seq<Mark>, total: nat) {
    if total == 0 then marks == []
    else
      && marks != [] && Final(marks[|marks| - 1].tick) && marks[|marks| - 1].tick.sent == total
      && forall k :: 0 <= k < |marks| - 1 ==> !Final(marks[k].tick)
  }

  lemma AttemptEndsInOneFinalLine(chunks: seq<Chunk>, ticks: seq<Tick>)
    requires TicksOf(chunks, ticks) && |Yielded(chunks)| <= MAX_INT64 / 100
    ensures EndsInOneFinalLine(Lines(FRESH, ticks), |Yielded(chunks)|)
  {
    hide Prints, After, Percent, Bucket, Reports, Yielded;
    ReportsAreCumulative(chunks);
    var total := |Yielded(chunks)|;
    assert IsAttempt(ticks, total);
    AttemptIsThrottled(ticks, total);
    if total == 0 {
      assert ticks == [];
    } else {
      assert Final(ticks[|ticks| - 1]);
      ThrottleHolds(ticks, total);
    }
  }

  /** End to end, in verbose mode, for any interleaved stream: let the latest events of one file on
      one endpoint be an announced attempt that reads the file to its end, in any chunks, whether or
      not it is then reported as a success.  Whatever that file's earlier attempts and all other
      files have left behind, this attempt adds the lines of a fresh throttle to the file's progress
      lines: exactly one final line, last, or none at all if the file is empty. */
  lemma UploadPrintsOneFinalLine(early: seq<Stamped>, late: seq<Stamped>, chunks: seq<Chunk>, ticks: seq<Tick>,
                                 endpoint: string, file: string, attempt: int, start: int, success: seq<Stamped>)
    requires TicksOf(chunks, ticks) && |Yielded(chunks)| <= MAX_INT64 / 100
    requires Unambiguous(early + late, endpoint, file)
    requires |success| <= 1 && forall k :: 0 <= k < |success| ==> success[k].event.FileSuccess?
    requires Only(endpoint, file, late) == AttemptEvents(endpoint, file, attempt, ticks, start) + success
    ensures MarksOf(endpoint, file, Output(Verbose, early + late)) ==
            MarksOf(endpoint, file, Output(Verbose, early)) + Lines(FRESH, ticks)
    ensures EndsInOneFinalLine(Lines(FRESH, ticks), |Yielded(chunks)|)
  {
    hide *;
    UnambiguousBefore(early, late, endpoint, file);
    AttemptEndsInOneFinalLine(chunks, ticks);
    KeysDoNotInterfere(early, endpoint, file);
    KeysDoNotInterfere(early + late, endpoint, file);
    OnlyPlus(endpoint, file, early, late);
    SettledMarks(Only(endpoint, file, early), endpoint, file, attempt, ticks, start, success);
  }

  lemma SettledMarks(before: seq<Stamped>, endpoint: string, file: string, attempt: int, ticks: seq<Tick>, start: int,
                     success: seq<Stamped>)
    requires |success| <= 1 && forall k :: 0 <= k < |success| ==> success[k].event.FileSuccess?
    ensures KeyMarks(before + (AttemptEvents(endpoint, file, attempt, ticks, start) + success)) ==
            KeyMarks(before) + Lines(FRESH, ticks)
  {
    hide KeyState, KeyMarks, AttemptEvents, Lines, Prints;
    var events := AttemptEvents(endpoint, file, attempt, ticks, start);
    AttemptMarks(before, endpoint, file, attempt, ticks, start);
    if success == [] {
      assert before + (events + success) == before + events;
    } else {
      KeyOne(before + events, success[0]);
      assert before + (events + success) == (before + events) + [success[0]];
      assert KeyMarks(before + events) + [] == KeyMarks(before + events);
    }
  }

  lemma UnambiguousBefore(early: seq<Stamped>, late: seq<Stamped>, endpoint: string, file: string)
    requires Unambiguous(early + late, endpoint, file)
    ensures Unambiguous(early, endpoint, file)
  {
    forall k | 0 <= k < |early| ensures Apart(early[k].event, endpoint, file) {
      assert (early + late)[k] == early[k];
    }
  }
}
