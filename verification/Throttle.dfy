/** The progress throttle of cmd/uploadfun/printer.go:150-183 for one file on one endpoint:
    Go's 64-bit arithmetic made explicit, and bounds on what one attempt prints. */
module Throttle {
  import opened Types

  const PROGRESS_PERCENT_STEP := 10
  /** progressMinInterval, in nanoseconds */
  const PROGRESS_MIN_INTERVAL := 1_000_000_000
  const MAX_INT64 := 0x7fff_ffff_ffff_ffff
  const TWO_TO_THE_64 := 0x1_0000_0000_0000_0000

  /** What an int64 multiplication that overflows leaves. */
  function Wrap64(x: int): (r: int)
    ensures -MAX_INT64 - 1 <= r <= MAX_INT64
    ensures -MAX_INT64 - 1 <= x <= MAX_INT64 ==> r == x
  {
    (x + MAX_INT64 + 1) % TWO_TO_THE_64 - MAX_INT64 - 1
  }

  /** Go's integer division and remainder truncate toward zero. */
  function TruncDiv(a: int, b: int): int
    requires b > 0
  {
    if a >= 0 then a / b else -((-a) / b)
  }

  function TruncRem(a: int, b: int): int
    requires b > 0
  {
    a - b * TruncDiv(a, b)
  }

  function Percent(sent: int, total: int): int {
    if total > 0 then TruncDiv(Wrap64(sent * 100), total) else 100
  }

  function Bucket(percent: int): int {
    percent - TruncRem(percent, PROGRESS_PERCENT_STEP)
  }

  /** lastPrinted is None while it is Go's zero time. */
  datatype ProgressState = ProgressState(lastPercent: int, lastPrinted: Option<int>)

  const FRESH := ProgressState(-1, None)

  /** One progress callback, with the wall clock when it is handled. */
  datatype Tick = Tick(sent: int, total: int, now: int)

  /** One printed line. */
  datatype Mark = Mark(percent: int, tick: Tick)

  predicate Final(t: Tick) { t.sent >= t.total }

  /** Does the throttle let this callback through? */
  predicate Prints(st: ProgressState, t: Tick) {
    var bucket := Bucket(Percent(t.sent, t.total));
    && (bucket != 0 || Final(t))
    && bucket != st.lastPercent
    && (st.lastPrinted.None? || t.now - st.lastPrinted.value >= PROGRESS_MIN_INTERVAL || Final(t))
  }

  function After(st: ProgressState, t: Tick): ProgressState {
    if Prints(st, t) then ProgressState(Bucket(Percent(t.sent, t.total)), Some(t.now)) else st
  }

  /** The state and the lines after a run of callbacks. */
  function StateAfter(st: ProgressState, ticks: seq<Tick>): ProgressState {
    if ticks == [] then st else After(StateAfter(st, ticks[..|ticks| - 1]), ticks[|ticks| - 1])
  }

  function Lines(st: ProgressState, ticks: seq<Tick>): seq<Mark> {
    if ticks == [] then []
    else
      var before, t := ticks[..|ticks| - 1], ticks[|ticks| - 1];
      Lines(st, before) + if Prints(StateAfter(st, before), t) then [Mark(Percent(t.sent, t.total), t)] else []
  }

  // ---------------------------------------------------------------- the arithmetic

  /** Division by its defining inequalities. */
  lemma DivFloor(x: int, d: int)
    requires d > 0
    ensures x / d * d <= x < x / d * d + d
  {
  }

  lemma DivFloorUnique(x: int, d: int, q: int)
    requires d > 0 && q * d <= x < q * d + d
    ensures q == x / d
  {
    DivFloor(x, d);
    MulGap(x / d, q, d);
    MulGap(q, x / d, d);
  }

  lemma MulGap(a: int, b: int, d: int)
    requires d > 0
    ensures a < b ==> a * d + d <= b * d
  {
    if a < b {
      var k := b - a;
      assert k * d >= d;
      assert b * d == a * d + k * d;
    }
  }

  lemma WrapIsShort(x: int)
    requires x > MAX_INT64
    ensures Wrap64(x) <= x - TWO_TO_THE_64
  {
  }

  lemma ShortQuotientDiffers(x: int, w: int, d: int)
    requires 0 < d <= MAX_INT64 && 0 <= w <= x - TWO_TO_THE_64
    ensures w / d != x / d
  {
    DivFloor(x, d);
    DivFloor(w, d);
  }

  lemma QuotientPositive(x: int, d: int)
    requires 0 < d <= x
    ensures x / d >= 1
  {
  }

  lemma TruncDivSign(w: int, d: int)
    requires d > 0
    ensures if w >= 0 then TruncDiv(w, d) == w / d else TruncDiv(w, d) <= 0
  {
  }

  /** Where the product overflows, the quotient of what is left of it is wrong. */
  lemma OverflowShows(x: int, d: int)
    requires 0 < d <= MAX_INT64 < x
    ensures TruncDiv(Wrap64(x), d) != x / d
  {
    WrapIsShort(x);
    var w := Wrap64(x);
    hide Wrap64;
    TruncDivSign(w, d);
    hide TruncDiv;
    if w >= 0 {
      ShortQuotientDiffers(x, w, d);
    } else {
      QuotientPositive(x, d);
    }
  }

  /** For a transfer in progress the printed percentage is the true floor of 100 * sent / total
      exactly when the product fits in 64 bits: up to MaxInt64 / 100 bytes. */
  lemma PercentIsFloorExactlyWithoutOverflow(sent: int, total: int)
    requires 0 <= sent <= total && 0 < total <= MAX_INT64
    ensures Percent(sent, total) == sent * 100 / total <==> sent <= MAX_INT64 / 100
  {
    var x := sent * 100;
    if x > MAX_INT64 {
      OverflowShows(x, total);
      hide TruncDiv, Wrap64;
    } else {
      TruncDivSign(x, total);
      hide TruncDiv;
    }
  }

  lemma HundredFloor(s: int, d: int)
    requires 0 <= s <= d && 0 < d
    ensures 0 <= s * 100 / d <= 100
    ensures s * 100 / d == 100 <==> s == d
  {
    var q := s * 100 / d;
    DivFloor(s * 100, d);
    if s == d {
      DivFloorUnique(s * 100, d, 100);
    } else {
      MulGap(99, q, d);
      MulGap(q, 0, d);
    }
  }

  lemma PercentBounds(sent: int, total: int)
    requires 0 <= sent <= total && 0 < total && sent <= MAX_INT64 / 100
    ensures 0 <= Percent(sent, total) <= 100
    ensures Percent(sent, total) == 100 <==> sent == total
  {
    HundredFloor(sent, total);
  }

  lemma FloorMonotone(x: int, y: int, d: int)
    requires x <= y && 0 < d
    ensures x / d <= y / d
  {
    DivFloor(x, d);
    DivFloor(y, d);
    MulGap(y / d, x / d, d);
  }

  lemma PercentMonotone(x: int, y: int, total: int)
    requires 0 <= x <= y <= total && 0 < total && y <= MAX_INT64 / 100
    ensures Percent(x, total) <= Percent(y, total)
  {
    FloorMonotone(x * 100, y * 100, total);
  }

  lemma BucketIsStep(p: int)
    requires 0 <= p <= 100
    ensures 0 <= Bucket(p) <= p < Bucket(p) + 10 && Bucket(p) % 10 == 0 && Bucket(p) <= 100
    ensures Bucket(p) == 100 <==> p == 100
  {
  }

  // ---------------------------------------------------------------- one attempt

  /** The callbacks of one attempt at a file of `total` bytes, on a clock that does not go back. */
  predicate IsAttempt(ticks: seq<Tick>, total: int) {
    && (forall k :: 0 <= k < |ticks| ==> InRange(ticks[k], total))
    && (forall j, k :: 0 <= j < k < |ticks| ==> ticks[j].sent <= ticks[k].sent && ticks[j].now <= ticks[k].now)
  }

  predicate InRange(t: Tick, total: int) {
    t.total == total && 0 <= t.sent <= total && t.sent <= MAX_INT64 / 100
  }

  function Step(t: Tick): int {
    Bucket(Percent(t.sent, t.total))
  }

  lemma StepFacts(t: Tick, u: Tick, total: int)
    requires InRange(t, total) && InRange(u, total)
    ensures 0 <= Step(t) <= 100 && Step(t) % 10 == 0
    ensures Step(t) == 100 <==> Final(t)
    ensures t.sent <= u.sent ==> Step(t) <= Step(u)
  {
    hide Percent, Bucket;
    if total > 0 {
      PercentBounds(t.sent, total);
      PercentBounds(u.sent, total);
      BucketIsStep(Percent(t.sent, total));
      BucketIsStep(Percent(u.sent, total));
      if t.sent <= u.sent {
        PercentMonotone(t.sent, u.sent, total);
      }
    } else {
      assert Percent(t.sent, t.total) == 100 && Percent(u.sent, u.total) == 100 by {
        NothingToSend(t);
        NothingToSend(u);
      }
      BucketIsStep(100);
    }
  }

  lemma NothingToSend(t: Tick)
    requires t.total <= 0
    ensures Percent(t.sent, t.total) == 100
  {
  }

  /** What the lines of an attempt look like, `last` being its latest callback. */
  predicate Throttled(st: ProgressState, lines: seq<Mark>) {
    && (forall k :: 0 <= k < |lines| ==> lines[k].percent == Percent(lines[k].tick.sent, lines[k].tick.total))
    && (forall j, k :: 0 <= j < k < |lines| ==> Step(lines[j].tick) < Step(lines[k].tick))
    && (forall k :: 0 <= k < |lines| ==> 10 * (k + 1) <= Step(lines[k].tick) <= 100)
    && (forall k :: 0 < k < |lines| ==>
        Final(lines[k].tick) || lines[k].tick.now - lines[k - 1].tick.now >= PROGRESS_MIN_INTERVAL)
    && st == if lines == [] then FRESH
             else ProgressState(Step(lines[|lines| - 1].tick), Some(lines[|lines| - 1].tick.now))
  }

  lemma ThrottleStep(st: ProgressState, lines: seq<Mark>, t: Tick, total: int)
    requires Throttled(st, lines) && InRange(t, total)
    requires lines != [] ==> InRange(lines[|lines| - 1].tick, total) && lines[|lines| - 1].tick.sent <= t.sent
    ensures Throttled(After(st, t), lines + if Prints(st, t) then [Mark(Percent(t.sent, t.total), t)] else [])
    ensures Final(t) ==> After(st, t).lastPercent == 100
  {
    hide Percent, Bucket, Throttled;
    StepFacts(t, t, total);
    ThrottledEnds(st, lines);
    if lines != [] {
      StepFacts(lines[|lines| - 1].tick, t, total);
    }
    if Prints(st, t) {
      LineOnTop(st, lines, t);
    } else {
      assert lines + [] == lines;
    }
  }

  lemma ThrottledEnds(st: ProgressState, lines: seq<Mark>)
    requires Throttled(st, lines)
    ensures st == if lines == [] then FRESH
                  else ProgressState(Step(lines[|lines| - 1].tick), Some(lines[|lines| - 1].tick.now))
  {
    hide Percent, Step;
  }

  lemma LineOnTop(st: ProgressState, lines: seq<Mark>, t: Tick)
    requires Throttled(st, lines) && 10 <= Step(t) <= 100 && Step(t) % 10 == 0
    requires lines != [] ==> Step(lines[|lines| - 1].tick) < Step(t) && Step(lines[|lines| - 1].tick) % 10 == 0
    requires lines != [] ==> Final(t) || t.now - lines[|lines| - 1].tick.now >= PROGRESS_MIN_INTERVAL
    ensures Throttled(ProgressState(Step(t), Some(t.now)), lines + [Mark(Percent(t.sent, t.total), t)])
  {
    hide Percent, Step;
  }

  lemma LinesOne(st: ProgressState, ticks: seq<Tick>)
    requires ticks != []
    ensures var before, t := ticks[..|ticks| - 1], ticks[|ticks| - 1];
            && StateAfter(st, ticks) == After(StateAfter(st, before), t)
            && Lines(st, ticks) == Lines(st, before) +
               if Prints(StateAfter(st, before), t) then [Mark(Percent(t.sent, t.total), t)] else []
  {
    hide Prints, Percent;
  }

  /** The beginning of an attempt is one, and its callbacks come before the last one. */
  lemma AttemptBefore(ticks: seq<Tick>, total: int)
    requires IsAttempt(ticks, total) && ticks != []
    ensures var m := |ticks| - 1;
            && IsAttempt(ticks[..m], total) && InRange(ticks[m], total)
            && forall t :: t in ticks[..m] ==> t in ticks && InRange(t, total) && t.sent <= ticks[m].sent
  {
  }

  predicate SomeFinal(ticks: seq<Tick>) {
    exists k :: 0 <= k < |ticks| && Final(ticks[k])
  }

  /** Counts only grow, so a final callback is followed by final ones only. */
  lemma FinalIsLast(ticks: seq<Tick>, total: int)
    requires IsAttempt(ticks, total) && ticks != []
    ensures SomeFinal(ticks) <==> Final(ticks[|ticks| - 1])
  {
  }

  lemma {:induction false} ThrottleHolds(ticks: seq<Tick>, total: int)
    requires IsAttempt(ticks, total)
    ensures Throttled(StateAfter(FRESH, ticks), Lines(FRESH, ticks))
    ensures forall k :: 0 <= k < |Lines(FRESH, ticks)| ==> Lines(FRESH, ticks)[k].tick in ticks
    ensures SomeFinal(ticks) ==> StateAfter(FRESH, ticks).lastPercent == 100
  {
    hide Throttled, Prints, Percent, IsAttempt, InRange, Final, SomeFinal, After;
    if ticks == [] {
      assert Throttled(FRESH, []) by { ThrottledNone(); }
      assert !SomeFinal([]) by { NothingFinal(); }
    } else {
      hide Lines, StateAfter;
      var m := |ticks| - 1;
      AttemptBefore(ticks, total);
      FinalIsLast(ticks, total);
      ThrottleHolds(ticks[..m], total);
      LinesOne(FRESH, ticks);
      ThrottleStep(StateAfter(FRESH, ticks[..m]), Lines(FRESH, ticks[..m]), ticks[m], total);
    }
  }

  lemma NothingFinal()
    ensures !SomeFinal([])
  {
  }

  lemma ThrottledNone()
    ensures Throttled(FRESH, [])
  {
  }

  /** One attempt prints at most ten lines, at strictly increasing steps of ten percent.  Every
      line but a final one comes at least a second after the line before it.  Whenever a final
      callback arrives - and only then - the step of 100 is printed, exactly once, as the last line. */
  lemma AttemptIsThrottled(ticks: seq<Tick>, total: int)
    requires IsAttempt(ticks, total)
    ensures var lines := Lines(FRESH, ticks);
            && |lines| <= 10
            && (forall j, k :: 0 <= j < k < |lines| ==> Step(lines[j].tick) < Step(lines[k].tick))
            && (forall k :: 0 < k < |lines| ==>
                Final(lines[k].tick) || lines[k].tick.now - lines[k - 1].tick.now >= PROGRESS_MIN_INTERVAL)
            && (forall k :: 0 <= k < |lines| ==> (Step(lines[k].tick) == 100 <==> Final(lines[k].tick)))
            && (SomeFinal(ticks) <==>
                lines != [] && Final(lines[|lines| - 1].tick))
  {
    hide Prints, Percent, StateAfter, Lines, Bucket;
    ThrottleHolds(ticks, total);
    var lines := Lines(FRESH, ticks);
    forall k | 0 <= k < |lines| ensures Step(lines[k].tick) == 100 <==> Final(lines[k].tick) {
      var j :| 0 <= j < |ticks| && ticks[j] == lines[k].tick;
      StepFacts(ticks[j], ticks[j], total);
    }
    if lines != [] {
      assert 10 * |lines| <= Step(lines[|lines| - 1].tick) <= 100;
    }
  }

  // ---------------------------------------------------------------- exactly what is printed

  /** How much of the file has been sent, in full tenths, as a percentage. */
  function Tenths(t: Tick): int {
    if t.total <= 0 then 100 else t.sent * 10 / t.total * 10
  }

  function FullPercent(t: Tick): int {
    if t.total <= 0 then 100 else t.sent * 100 / t.total
  }

  /** A callback is worth a line after these: it has reached a tenth, another than that of the last
      line, and it is the final one, or there was no line yet, or a second has passed since. */
  predicate IsDue(lines: seq<Mark>, t: Tick) {
    && (Tenths(t) > 0 || t.sent >= t.total)
    && (lines == [] || Tenths(lines[|lines| - 1].tick) != Tenths(t))
    && (t.sent >= t.total || lines == [] || t.now - lines[|lines| - 1].tick.now >= 1_000_000_000)
  }

  lemma TenthOfFloor(x: int, d: int)
    requires d > 0
    ensures x * 100 / d / 10 == x * 10 / d
  {
    var q := x * 10 / d;
    DivFloor(x * 10, d);
    assert (10 * q) * d <= x * 100 < (10 * q + 10) * d;
    var p := x * 100 / d;
    DivFloor(x * 100, d);
    if p < 10 * q { MulGap(p, 10 * q, d); }
    if p >= 10 * q + 10 { MulGap(10 * q + 9, p, d); }
  }

  lemma BucketOf(p: int)
    requires 0 <= p
    ensures Bucket(p) == p / 10 * 10
  {
  }

  /** Within an attempt the arithmetic is exact. */
  lemma StepIsTenths(t: Tick, total: int)
    requires InRange(t, total)
    ensures Step(t) == Tenths(t) && Percent(t.sent, t.total) == FullPercent(t) && 0 <= Tenths(t)
  {
    hide Percent, Bucket;
    if total > 0 {
      PercentBounds(t.sent, total);
      PercentIsFloorExactlyWithoutOverflowAt(t.sent, total);
      BucketOf(Percent(t.sent, total));
      TenthOfFloor(t.sent, total);
    } else {
      NothingToSend(t);
      BucketOf(100);
    }
  }

  lemma PercentIsFloorExactlyWithoutOverflowAt(sent: int, total: int)
    requires 0 <= sent <= total && 0 < total && sent <= MAX_INT64 / 100
    ensures Percent(sent, total) == sent * 100 / total
  {
    TruncDivSign(sent * 100, total);
    hide TruncDiv;
  }

  /** What the throttle remembers is its last line. */
  lemma PrintsIfDue(st: ProgressState, lines: seq<Mark>, t: Tick, total: int)
    requires Throttled(st, lines) && InRange(t, total)
    requires lines != [] ==> InRange(lines[|lines| - 1].tick, total)
    ensures Prints(st, t) <==> IsDue(lines, t)
  {
    ThrottledEnds(st, lines);
    StepIsTenths(t, total);
    if lines != [] {
      StepIsTenths(lines[|lines| - 1].tick, total);
    }
    hide Throttled, Percent, Bucket, Tenths;
  }

  /** An attempt prints a line for exactly the callbacks that are due one, with the true percentage.
      So whenever a callback has reached a tenth, and no line was printed yet or the last one is a
      second old, the last line then shows that tenth. */
  lemma AttemptPrintsExactly(ticks: seq<Tick>, total: int)
    requires IsAttempt(ticks, total) && ticks != []
    ensures var t := ticks[|ticks| - 1];
            var before, lines := Lines(FRESH, ticks[..|ticks| - 1]), Lines(FRESH, ticks);
            && lines == before + (if IsDue(before, t) then [Mark(FullPercent(t), t)] else [])
            && (Tenths(t) > 0 && (before == [] || t.now - before[|before| - 1].tick.now >= 1_000_000_000) ==>
                lines != [] && Tenths(lines[|lines| - 1].tick) == Tenths(t))
  {
    hide *;
    var m := |ticks| - 1;
    var t, lines := ticks[m], Lines(FRESH, ticks[..m]);
    AttemptBefore(ticks, total);
    ThrottleHolds(ticks[..m], total);
    LinesOne(FRESH, ticks);
    PrintsIfDue(StateAfter(FRESH, ticks[..m]), lines, t, total);
    StepIsTenths(t, total);
    DueSays(lines, t);
  }

  lemma DueSays(lines: seq<Mark>, t: Tick)
    ensures Tenths(t) > 0 && (lines == [] || t.now - lines[|lines| - 1].tick.now >= 1_000_000_000) ==>
              IsDue(lines, t) || (lines != [] && Tenths(lines[|lines| - 1].tick) == Tenths(t))
  {
  }
}
