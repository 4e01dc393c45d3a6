/** Every run of the step machine reads as a well-formed tree of WorkerGrammar. */
module WorkerParse {
  import opened Types
  import opened Paths
  import opened Worker
  import opened WorkerSafety
  import opened WorkerGrammar

  /** A run in progress: the files left behind, the finished attempts at the current file, and
      what is known of the attempt under way. */
  datatype Parse = Parse(
    blocks: seq<seq<Attempt>>,
    cur: seq<Attempt>,
    dialed: bool,
    ticks: seq<Callback>,
    ending: Ending)

  function FailedTransfer(cause: Cause, ticks: seq<Callback>): Transfer {
    match cause
    case UploadCause(e) => UploadFailed(ticks, e)
    case VerifyCause(e) => VerifyFailed(ticks, e)
    case DeleteCause(e) => DeleteFailed(e)
    case _ => Delivered(ticks, "")
  }

  /** What the attempt under way has shown so far. */
  function Pending(b: Batch, file: string, s: State, p: Parse): seq<Action> {
    match s.pc
    case DialPoll(e) => [Connect(Some(e))]
    case DialReport(e) => [Connect(Some(e))]
    case TripReport(e) => [Connect(Some(e))] + [Send(FileError(b.ep.name, file, s.attempt, ConnectCause(e)))]
    case Starting => if p.dialed then [Connect(None)] else []
    case Deleting => RenderOpening(b, file, s.attempt, p.dialed)
    case UploadReady => RenderCleared(b, file, s.attempt, p.dialed)
    case Uploading => RenderUploading(b, file, s.attempt, p.dialed, p.ticks)
    case Verifying => RenderUploading(b, file, s.attempt, p.dialed, p.ticks) + [UploadEnd(None)]
    case Reporting(c) => RenderTransfer(b, file, s.attempt, p.dialed, FailedTransfer(c, p.ticks))
    case Dropping(c) =>
      RenderTransfer(b, file, s.attempt, p.dialed, FailedTransfer(c, p.ticks))
      + [Send(FileError(b.ep.name, file, s.attempt, c))]
    case Succeeding(m) => RenderTransfer(b, file, s.attempt, p.dialed, Delivered(p.ticks, m))
    case _ => []
  }

  function Tail(b: Batch, s: State, p: Parse): seq<Action>
    requires |p.blocks| <= |b.files|
  {
    RenderEnding(b, p.blocks, p.ending)
    + (if s.pc.Finishing? then [] else RenderDone(b, p.blocks))
    + if s.pc.Halted? && Up(p.blocks) then [Disconnect] else []
  }

  predicate IsTransferCause(b: Batch, c: Cause) {
    (c.DeleteCause? && b.ep.overwrite == DeleteFirst) || c.UploadCause? || (c.VerifyCause? && !b.noVerify)
  }

  /** The attempt under way agrees with the connection and the options. */
  predicate PendingInv(b: Batch, s: State, p: Parse) {
    var up := Up(p.blocks) && p.cur == [];
    && |p.blocks| == s.i < |b.files| && LastPasses(b, p.blocks)
    && |p.cur| == (if s.pc.Napping? then s.attempt else s.attempt - 1)
    && AllRetriable(p.cur) && GoodBlock(b, Up(p.blocks), Streak(p.blocks), p.cur)
    && (!Online(s.pc) ==> s.connected == up)
    && (!Online(s.pc) ==>
        s.failures == BlockStreak(Streak(p.blocks), p.cur) + if s.pc.DialReport? || s.pc.TripReport? then 1 else 0)
    && (Online(s.pc) ==> p.dialed == !up)
    && (s.pc.Starting? || s.pc.Deleting? || s.pc.UploadReady? ==> p.ticks == [])
    && (s.pc.Deleting? ==> b.ep.overwrite == DeleteFirst)
    && (s.pc.Verifying? ==> !b.noVerify)
    && (s.pc.Reporting? || s.pc.Dropping? ==> IsTransferCause(b, s.pc.cause))
    && (s.pc.Succeeding? && b.noVerify ==> s.pc.verifyMethod == "")
  }

  /** Between files. */
  predicate BetweenInv(b: Batch, s: State, p: Parse) {
    && |p.blocks| == (if s.pc.GivingUp? then s.i + 1 else s.i)
    && s.connected == Up(p.blocks) && s.failures == Streak(p.blocks)
    && (s.pc.GivingUp? ==> s.permanent.Some? && EndsPermanent(p.blocks)
                           && s.permanent.value == PermanentCause(p.blocks))
    && (!s.pc.GivingUp? ==> !EndsPermanent(p.blocks) && (CircuitOpen(b, s) <==> DidTrip(b, p.blocks)))
    && (LastPasses(b, p.blocks) || s.canceled || DidTrip(b, p.blocks) || EndsPermanent(p.blocks))
  }

  predicate EndInv(b: Batch, s: State, p: Parse) {
    && GoodEnding(b, s.canceled, p.blocks, p.ending)
    && (!s.pc.Halted? ==> s.connected == Up(p.blocks))
  }

  predicate ParseInv(b: Batch, s: State, p: Parse) {
    && GoodBlocks(b, p.blocks) && |p.blocks| <= |b.files|
    && s.succeeded == Successes(p.blocks)
    && if AtEnd(s.pc) then EndInv(b, s, p)
       else if InAttempt(s.pc) then PendingInv(b, s, p)
       else BetweenInv(b, s, p)
  }

  /** What these attempts read as before the sleep that may follow the last one. */
  function Unpaused(b: Batch, file: string, attempts: seq<Attempt>): seq<Action> {
    if attempts == [] then []
    else
      RenderBlock(b, file, attempts[..|attempts| - 1])
      + RenderAttempt(b, file, |attempts|, attempts[|attempts| - 1])
  }

  lemma PausedBlock(b: Batch, file: string, attempts: seq<Attempt>)
    requires attempts != []
    ensures RenderBlock(b, file, attempts) ==
            Unpaused(b, file, attempts) + Pause(b, |attempts|, attempts[|attempts| - 1])
    ensures Pause(b, |attempts|, attempts[|attempts| - 1]) == [] ==>
            RenderBlock(b, file, attempts) == Unpaused(b, file, attempts)
  {
    hide Pause, RenderAttempt;
  }

  /** What the run has shown so far. */
  function Text(b: Batch, s: State, p: Parse): seq<Action>
    requires |p.blocks| <= |b.files|
  {
    if AtEnd(s.pc) then RenderBlocks(b, p.blocks) + Tail(b, s, p)
    else if s.pc.Napping? && s.i < |b.files| then RenderBlocks(b, p.blocks) + Unpaused(b, b.files[s.i], p.cur)
    else if InAttempt(s.pc) && s.i < |b.files| then
      RenderBlocks(b, p.blocks) + RenderBlock(b, b.files[s.i], p.cur) + Pending(b, b.files[s.i], s, p)
    else RenderBlocks(b, p.blocks)
  }

  // ---------------------------------------------------------------- leaving a file

  /** `cur` is all that will be tried at the current file, and `s` agrees with it. */
  predicate Closed(b: Batch, s: State, p: Parse, ok: bool) {
    var all := p.blocks + [p.cur];
    && GoodBlocks(b, p.blocks) && |p.blocks| == s.i < |b.files| && LastPasses(b, p.blocks)
    && s.succeeded == Successes(p.blocks)
    && |p.cur| <= Tries(b) && GoodBlock(b, Up(p.blocks), Streak(p.blocks), p.cur)
    && ok == (p.cur != [] && IsDelivery(p.cur[|p.cur| - 1]))
    && s.connected == Up(all) && s.failures == BlockStreak(Streak(p.blocks), p.cur) && 0 < Limit(b)
    && (if s.permanent.Some? then EndsPermanent(all) && s.permanent.value == PermanentCause(all)
        else !EndsPermanent(all))
    && (CircuitOpen(b, s) <==> DidTrip(b, all))
    && (Passes(b, p.cur) || s.canceled || DidTrip(b, all) || EndsPermanent(all))
  }

  lemma CloseFile(b: Batch, s: State, p: Parse, ok: bool, t: State, q: Parse)
    requires Closed(b, s, p, ok) && t == EndFile(b, s, ok)
    requires q == p.(blocks := p.blocks + [p.cur], cur := [], ending := AllTried)
    ensures ParseInv(b, t, q)
    ensures Text(b, t, q) == RenderBlocks(b, p.blocks) + RenderBlock(b, b.files[s.i], p.cur)
  {
    hide RenderBlock, Passes, GoodBlock;
    var all := p.blocks + [p.cur];
    assert all[..|all| - 1] == p.blocks;
    assert RenderBlocks(b, all) == RenderBlocks(b, p.blocks) + RenderBlock(b, b.files[s.i], p.cur);
    assert GoodBlocks(b, all);
    if AtEnd(t.pc) {
      assert Tail(b, t, q) == [];
    }
  }

  // ---------------------------------------------------------------- finishing an attempt

  /** `p` with the attempt under way finished as `a`. */
  function Push(p: Parse, a: Attempt): Parse {
    p.(cur := p.cur + [a], ticks := [])
  }

  /** Pushing a good attempt keeps the block good and extends what it reads as. */
  lemma PushAttempt(b: Batch, file: string, p: Parse, a: Attempt)
    requires GoodBlock(b, Up(p.blocks), Streak(p.blocks), p.cur) && AllRetriable(p.cur)
    requires GoodAttempt(b, Up(p.blocks) && p.cur == [], BlockStreak(Streak(p.blocks), p.cur), a)
    ensures var q := Push(p, a);
            GoodBlock(b, Up(q.blocks), Streak(q.blocks), q.cur)
            && Unpaused(b, file, q.cur) == RenderBlock(b, file, p.cur) + RenderAttempt(b, file, |q.cur|, a)
            && (Retriable(a) ==> AllRetriable(q.cur))
            && BlockStreak(Streak(q.blocks), q.cur) == StreakAfter(BlockStreak(Streak(p.blocks), p.cur), a)
            && LastAttempt(q.blocks + [q.cur]) == Some(a)
  {
    hide RenderAttempt, GoodAttempt;
    var q := Push(p, a);
    assert q.cur[..|q.cur| - 1] == p.cur;
  }

  /** After a retriable attempt: on to the next one, or out of attempts. */
  lemma RetryParse(b: Batch, s: State, p: Parse, t: State) returns (q: Parse)
    requires GoodBlocks(b, p.blocks) && |p.blocks| == s.i < |b.files| && LastPasses(b, p.blocks)
    requires s.succeeded == Successes(p.blocks)
    requires GoodBlock(b, Up(p.blocks), Streak(p.blocks), p.cur) && AllRetriable(p.cur)
    requires 1 <= |p.cur| == s.attempt <= b.ep.policy.attempts
    requires !s.connected && s.permanent.None? && !CircuitOpen(b, s)
    requires s.failures == BlockStreak(Streak(p.blocks), p.cur)
    requires t == Retry(b, s)
    ensures ParseInv(b, t, q)
    ensures Text(b, t, q) == RenderBlocks(b, p.blocks) + Unpaused(b, b.files[s.i], p.cur)
  {
    hide RenderBlock, Unpaused, GoodBlock;
    PausedBlock(b, b.files[s.i], p.cur);
    if t.pc.Napping? {
      q := p;
    } else {
      var u := s.(attempt := s.attempt + 1);
      assert LastAttempt(p.blocks + [p.cur]) == Some(p.cur[|p.cur| - 1]);
      assert Retriable(p.cur[|p.cur| - 1]);
      q := p.(blocks := p.blocks + [p.cur], cur := [], ending := AllTried);
      CloseFile(b, u, p, false, t, q);
    }
  }

  /** After an attempt that ends its file. */
  lemma LastAttemptParse(b: Batch, s: State, p: Parse, a: Attempt, ok: bool, t: State) returns (q: Parse)
    requires GoodBlocks(b, p.blocks) && |p.blocks| == s.i < |b.files| && LastPasses(b, p.blocks)
    requires s.succeeded == Successes(p.blocks)
    requires GoodBlock(b, Up(p.blocks), Streak(p.blocks), p.cur) && p.cur != [] && p.cur[|p.cur| - 1] == a &&
             |p.cur| <= Tries(b)
    requires !Retriable(a) && ok == IsDelivery(a)
    requires s.connected == ok && s.permanent == (if IsPermanent(a) then Some(CauseOf(a.transfer)) else None)
    requires CircuitOpen(b, s) <==> a.BreakerTripped?
    requires s.failures == BlockStreak(Streak(p.blocks), p.cur) && 0 < Limit(b)
    requires a.DialAborted? ==> s.canceled
    requires t == EndFile(b, s, ok)
    ensures ParseInv(b, t, q)
    ensures Text(b, t, q) == RenderBlocks(b, p.blocks) + Unpaused(b, b.files[s.i], p.cur)
  {
    hide RenderBlock, Unpaused, GoodBlock;
    PausedBlock(b, b.files[s.i], p.cur);
    assert LastAttempt(p.blocks + [p.cur]) == Some(a);
    q := p.(blocks := p.blocks + [p.cur], cur := [], ending := AllTried);
    CloseFile(b, s, p, ok, t, q);
  }

  // ---------------------------------------------------------------- what one step shows

  lemma GrowText(b: Batch, s: State, a: Action, t: State, p: Parse, q: Parse)
    requires InAttempt(s.pc) && InAttempt(t.pc) && !s.pc.Napping? && !t.pc.Napping? && s.i == t.i < |b.files|
    requires p.blocks == q.blocks && p.cur == q.cur && |p.blocks| <= |b.files|
    requires Pending(b, b.files[s.i], t, q) == Pending(b, b.files[s.i], s, p) + Seen(a)
    ensures Text(b, t, q) == Text(b, s, p) + Seen(a)
  {
    hide RenderBlock, RenderBlocks, Pending, Seen;
    var head := RenderBlocks(b, p.blocks) + RenderBlock(b, b.files[s.i], p.cur);
    assert head + (Pending(b, b.files[s.i], s, p) + Seen(a)) == head + Pending(b, b.files[s.i], s, p) + Seen(a);
  }

  lemma FinishText(b: Batch, s: State, a: Action, p: Parse, att: Attempt)
    requires InAttempt(s.pc) && !s.pc.Napping? && s.i < |b.files| && |p.blocks| <= |b.files|
    requires GoodBlock(b, Up(p.blocks), Streak(p.blocks), p.cur) && AllRetriable(p.cur)
    requires GoodAttempt(b, Up(p.blocks) && p.cur == [], BlockStreak(Streak(p.blocks), p.cur), att)
    requires RenderAttempt(b, b.files[s.i], |p.cur| + 1, att) == Pending(b, b.files[s.i], s, p) + Seen(a)
    ensures RenderBlocks(b, p.blocks) + Unpaused(b, b.files[s.i], Push(p, att).cur) == Text(b, s, p) + Seen(a)
  {
    hide RenderBlock, Unpaused, RenderBlocks, RenderAttempt, Pending, Seen, GoodAttempt;
    var file := b.files[s.i];
    PushAttempt(b, file, p, att);
    var blocks, block, pending := RenderBlocks(b, p.blocks), RenderBlock(b, file, p.cur), Pending(b, file, s, p);
    assert blocks + (block + (pending + Seen(a))) == (blocks + block + pending) + Seen(a);
  }

  /** A transfer's calls and events are added one at a time at the end. */
  lemma TransferPending(b: Batch, s: State, a: Action, t: State, p: Parse)
    requires s.i < |b.files| && Online(s.pc) && !s.pc.Dropping? && !s.pc.Succeeding? && s.connected
    requires s.pc.Starting? || s.pc.Deleting? || s.pc.UploadReady? ==> p.ticks == []
    requires (s.pc.Deleting? ==> b.ep.overwrite == DeleteFirst) && (s.pc.Verifying? ==> !b.noVerify)
    requires !a.Cancel? && StepTransfer(b, s, b.files[s.i], a) == Some(t) && (s.pc.Uploading? ==> !a.Send?)
    ensures Pending(b, b.files[s.i], t, p) == Pending(b, b.files[s.i], s, p) + Seen(a)
  {
    hide Base, Dropped, EndFile, RenderTicks, RenderTransfer, RenderUploading;
    if s.pc.Starting? || (s.pc.Deleting? && t.pc.UploadReady?) {
    } else {
      LaterPending(b, s, a, t, p);
    }
  }

  lemma LaterPending(b: Batch, s: State, a: Action, t: State, p: Parse)
    requires s.i < |b.files| && s.connected && (s.pc.UploadReady? ==> p.ticks == [])
    requires s.pc.UploadReady? || s.pc.Uploading? || s.pc.Verifying? || s.pc.Reporting?
             || (s.pc.Deleting? && t.pc.Reporting?)
    requires s.pc.Verifying? ==> !b.noVerify
    requires !a.Cancel? && StepTransfer(b, s, b.files[s.i], a) == Some(t) && (s.pc.Uploading? ==> !a.Send?)
    ensures Pending(b, b.files[s.i], t, p) == Pending(b, b.files[s.i], s, p) + Seen(a)
  {
    hide Base, Dropped, EndFile, RenderTicks, RenderCleared, RenderOpening;
    TicksNone(b, b.files[s.i]);
  }

  lemma TicksNone(b: Batch, file: string)
    ensures RenderTicks(b, file, []) == []
  {
  }

  // ---------------------------------------------------------------- one step

  predicate Follows(b: Batch, s: State, a: Action, t: State, p: Parse, q: Parse)
    requires |p.blocks| <= |b.files| && |q.blocks| <= |b.files|
  {
    ParseInv(b, t, q) && Text(b, t, q) == Text(b, s, p) + Seen(a)
  }

  lemma ParseDial(b: Batch, s: State, a: Action, t: State, p: Parse) returns (q: Parse)
    requires Inv(b, s) && ParseInv(b, s, p) && InAttempt(s.pc) && Offline(s.pc) && !s.pc.Napping?
    requires StepDial(b, s, b.files[s.i], a) == Some(t) && !a.Cancel?
    ensures |q.blocks| <= |b.files| && Follows(b, s, a, t, p, q)
  {
    hide RenderBlock, Unpaused, RenderBlocks, GoodBlock, GoodBlocks, Retry, EndFile, Passes, Text, Streak, BlockStreak,
         LastAttempt;
    if s.pc.Dialing? {
      q := if a.failure.None? then p.(dialed := true, ticks := []) else p;
      GrowText(b, s, a, t, p, q);
    } else if s.pc.DialPoll? && s.canceled {
      var att := DialAborted(s.pc.error);
      FinishText(b, s, a, p, att);
      PushAttempt(b, b.files[s.i], p, att);
      q := LastAttemptParse(b, s, Push(p, att), att, false, t);
    } else if s.pc.DialPoll? {
      q := p;
      GrowText(b, s, a, t, p, q);
    } else {
      q := ParseRefusal(b, s, a, t, p);
    }
  }

  /** A refused connect is reported, and the breaker may trip on it. */
  lemma ParseRefusal(b: Batch, s: State, a: Action, t: State, p: Parse) returns (q: Parse)
    requires Inv(b, s) && ParseInv(b, s, p) && (s.pc.DialReport? || s.pc.TripReport?)
    requires StepDial(b, s, b.files[s.i], a) == Some(t) && !a.Cancel?
    ensures |q.blocks| <= |b.files| && Follows(b, s, a, t, p, q)
  {
    hide RenderBlock, Unpaused, RenderBlocks, GoodBlock, GoodBlocks, Retry, EndFile, Passes, Text, Streak, BlockStreak,
         LastAttempt;
    if s.pc.TripReport? {
      var att := BreakerTripped(s.pc.error);
      FinishText(b, s, a, p, att);
      PushAttempt(b, b.files[s.i], p, att);
      q := LastAttemptParse(b, s, Push(p, att), att, false, t);
    } else if CircuitOpen(b, s) {
      q := p;
      GrowText(b, s, a, t, p, q);
    } else {
      var att := DialRefused(s.pc.error);
      FinishText(b, s, a, p, att);
      PushAttempt(b, b.files[s.i], p, att);
      q := RetryParse(b, s, Push(p, att), t);
    }
  }

  lemma ParseTransfer(b: Batch, s: State, a: Action, t: State, p: Parse) returns (q: Parse)
    requires Inv(b, s) && ParseInv(b, s, p) && Online(s.pc) && !s.pc.Dropping? && !s.pc.Succeeding?
    requires StepTransfer(b, s, b.files[s.i], a) == Some(t) && !a.Cancel?
    ensures |q.blocks| <= |b.files| && Follows(b, s, a, t, p, q)
  {
    hide RenderBlock, Unpaused, RenderBlocks, GoodBlock, GoodBlocks, EndFile, Dropped, Passes, Text, Base, Up, Pending,
         Streak, BlockStreak;
    if a.Send? && s.pc.Uploading? {
      q := ParseTick(b, s, a, t, p);
    } else {
      q := p;
      TransferPending(b, s, a, t, p);
      GrowText(b, s, a, t, p, q);
    }
  }

  lemma ParseTick(b: Batch, s: State, a: Action, t: State, p: Parse) returns (q: Parse)
    requires Inv(b, s) && ParseInv(b, s, p) && s.pc.Uploading?
    requires StepTransfer(b, s, b.files[s.i], a) == Some(t) && a.Send?
    ensures |q.blocks| <= |b.files| && Follows(b, s, a, t, p, q)
  {
    hide RenderBlock, Unpaused, RenderBlocks, GoodBlock, GoodBlocks, EndFile, Dropped, Passes, Text, Base, Up,
         RenderCleared, Streak, BlockStreak;
    q := p.(ticks := p.ticks + [Callback(a.event.sent, a.event.total)]);
    assert q.ticks[..|q.ticks| - 1] == p.ticks;
    GrowText(b, s, a, t, p, q);
  }

  /** The end of a transfer. */
  lemma ParseDropping(b: Batch, s: State, a: Action, t: State, p: Parse) returns (q: Parse)
    requires Inv(b, s) && ParseInv(b, s, p) && s.pc.Dropping?
    requires StepTransfer(b, s, b.files[s.i], a) == Some(t) && !a.Cancel?
    ensures |q.blocks| <= |b.files| && Follows(b, s, a, t, p, q)
  {
    hide RenderBlock, Unpaused, RenderBlocks, GoodBlock, GoodBlocks, Retry, EndFile, Passes, Text, RenderTransfer,
         Streak, BlockStreak, LastAttempt, Up, Base, Successes;
    var u, cause := s.(connected := false), s.pc.cause;
    var att := Transferred(p.dialed, FailedTransfer(cause, p.ticks));
    FinishText(b, s, a, p, att);
    PushAttempt(b, b.files[s.i], p, att);
    if Permanent(cause) {
      q := LastAttemptParse(b, u.(permanent := Some(cause)), Push(p, att), att, false, t);
    } else {
      q := RetryParse(b, u, Push(p, att), t);
    }
  }

  lemma ParseSucceeding(b: Batch, s: State, a: Action, t: State, p: Parse) returns (q: Parse)
    requires Inv(b, s) && ParseInv(b, s, p) && s.pc.Succeeding?
    requires StepTransfer(b, s, b.files[s.i], a) == Some(t) && !a.Cancel?
    ensures |q.blocks| <= |b.files| && Follows(b, s, a, t, p, q)
  {
    hide RenderBlock, Unpaused, RenderBlocks, GoodBlock, GoodBlocks, Retry, EndFile, Passes, Text, RenderTransfer,
         Streak, BlockStreak, LastAttempt, Up, Base, Successes;
    var att := Transferred(p.dialed, Delivered(p.ticks, s.pc.verifyMethod));
    FinishText(b, s, a, p, att);
    PushAttempt(b, b.files[s.i], p, att);
    q := LastAttemptParse(b, s, Push(p, att), att, true, t);
  }

  lemma ParseBetween(b: Batch, s: State, a: Action, t: State, p: Parse) returns (q: Parse)
    requires Inv(b, s) && ParseInv(b, s, p) && !AtEnd(s.pc) && !InAttempt(s.pc)
    requires StepInFile(b, s, b.files[s.i], a) == Some(t) && !a.Cancel?
    ensures |q.blocks| <= |b.files| && Follows(b, s, a, t, p, q)
  {
    hide RenderBlocks, GoodBlock, GoodBlocks, Passes, EndFile, EnterAttempt, LastAttempt;
    match s.pc
    case FilePoll =>
      if s.canceled {
        q := p.(ending := WasCanceled);
      } else if CircuitOpen(b, s) {
        q := p;
      } else {
        q := ParseEnter(b, s, t, p);
      }
    case Skipping => q := p.(ending := WasUnreachable);
    case GivingUp => q := p.(ending := WasGivenUp(s.permanent.value));
  }

  lemma EmptyBlock(blocks: seq<seq<Attempt>>)
    ensures LastAttempt(blocks + [[]]) == LastAttempt(blocks)
  {
    assert (blocks + [[]])[..|blocks|] == blocks;
  }

  /** On to a new file. */
  lemma ParseEnter(b: Batch, s: State, t: State, p: Parse) returns (q: Parse)
    requires Inv(b, s) && ParseInv(b, s, p) && s.pc.FilePoll? && !s.canceled && !CircuitOpen(b, s)
    requires t == EnterAttempt(b, s.(attempt := 1))
    ensures |q.blocks| <= |b.files| && ParseInv(b, t, q) && Text(b, t, q) == Text(b, s, p)
  {
    hide RenderBlocks, GoodBlocks, EndFile, LastAttempt, Successes, Streak;
    EmptyBlock(p.blocks);
    var r := p.(cur := [], ticks := []);
    if t.pc.AttemptPoll? && 1 <= b.ep.policy.attempts {
      q := r;
    } else {
      q := r.(blocks := p.blocks + [[]], ending := AllTried);
      assert q.blocks[..|p.blocks|] == p.blocks;
      CloseFile(b, s.(attempt := 1), r, false, t, q);
    }
  }

  lemma ParseLooking(b: Batch, s: State, a: Action, t: State, p: Parse) returns (q: Parse)
    requires Inv(b, s) && ParseInv(b, s, p) && (s.pc.AttemptPoll? || s.pc.Napping?)
    requires StepInFile(b, s, b.files[s.i], a) == Some(t) && !a.Cancel?
    ensures |q.blocks| <= |b.files| && Follows(b, s, a, t, p, q)
  {
    hide Follows, StepInFile;
    if s.pc.AttemptPoll? && s.canceled {
      q := ParseStop(b, s, a, t, p);
    } else if s.pc.Napping? {
      q := ParseNap(b, s, a, t, p);
    } else {
      q := ParseGoOn(b, s, a, t, p);
    }
  }

  lemma ParseGoOn(b: Batch, s: State, a: Action, t: State, p: Parse) returns (q: Parse)
    requires Inv(b, s) && ParseInv(b, s, p) && s.pc.AttemptPoll? && !s.canceled
    requires StepInFile(b, s, b.files[s.i], a) == Some(t) && !a.Cancel?
    ensures |q.blocks| <= |b.files| && Follows(b, s, a, t, p, q)
  {
    hide RenderBlocks, RenderBlock, GoodBlock, GoodBlocks, EndFile, Streak, BlockStreak, Up, Successes, LastPasses,
         StepDial, StepTransfer, StepAtEnd;
    q := p.(dialed := false, ticks := []);
  }

  /** The sleep before another attempt. */
  lemma ParseNap(b: Batch, s: State, a: Action, t: State, p: Parse) returns (q: Parse)
    requires Inv(b, s) && ParseInv(b, s, p) && s.pc.Napping?
    requires StepInFile(b, s, b.files[s.i], a) == Some(t) && !a.Cancel?
    ensures |q.blocks| <= |b.files| && Follows(b, s, a, t, p, q)
  {
    hide RenderBlocks, RenderBlock, Unpaused, GoodBlock, GoodBlocks, EndFile, Streak, BlockStreak, Up, Successes,
         LastPasses, StepDial, StepTransfer, StepAtEnd;
    q := p.(dialed := false, ticks := []);
    PausedBlock(b, b.files[s.i], p.cur);
    var blocks, block := RenderBlocks(b, p.blocks), Unpaused(b, b.files[s.i], p.cur);
    assert (blocks + block) + [Sleep] == blocks + (block + [Sleep]);
  }

  /** Canceled before the next attempt. */
  lemma ParseStop(b: Batch, s: State, a: Action, t: State, p: Parse) returns (q: Parse)
    requires Inv(b, s) && ParseInv(b, s, p) && s.pc.AttemptPoll? && s.canceled
    requires StepInFile(b, s, b.files[s.i], a) == Some(t) && !a.Cancel?
    ensures |q.blocks| <= |b.files| && Follows(b, s, a, t, p, q)
  {
    hide RenderBlocks, RenderBlock, GoodBlock, GoodBlocks, EndFile, Streak, BlockStreak, StepDial, StepTransfer,
         StepAtEnd;
    q := p.(blocks := p.blocks + [p.cur], cur := [], ending := AllTried);
    StoppedBlock(b, p);
    CloseFile(b, s, p, false, t, q);
  }

  /** A file left before its next attempt leaves the connection as it is, and trips nothing. */
  lemma StoppedBlock(b: Batch, p: Parse)
    requires AllRetriable(p.cur)
    ensures var all := p.blocks + [p.cur];
            && (Up(all) <==> Up(p.blocks) && p.cur == [])
            && !EndsPermanent(all) && !DidTrip(b, all)
  {
    var all := p.blocks + [p.cur];
    assert all[..|p.blocks|] == p.blocks;
    assert p.cur != [] ==> Retriable(p.cur[|p.cur| - 1]);
  }

  lemma ParseEnd(b: Batch, s: State, a: Action, t: State, p: Parse)
    requires Inv(b, s) && ParseInv(b, s, p) && AtEnd(s.pc) && StepAtEnd(b, s, a) == Some(t) && !a.Cancel?
    ensures Follows(b, s, a, t, p, p)
  {
    hide RenderBlocks, GoodBlocks, Passes, Successes, RenderEnding;
  }

  lemma ParseStep(b: Batch, s: State, a: Action, t: State, p: Parse) returns (q: Parse)
    requires Inv(b, s) && ParseInv(b, s, p) && Step(b, s, a) == Some(t)
    ensures |q.blocks| <= |b.files| && Follows(b, s, a, t, p, q)
  {
    hide Follows, StepDial, StepTransfer, StepAtEnd, BreakerInv, TallyInv;
    if a.Cancel? {
      q := p;
      assert Follows(b, s, a, t, p, q) by { ParseCancel(b, s, a, t, p); }
    } else if AtEnd(s.pc) {
      q := p;
      ParseEnd(b, s, a, t, p);
    } else if s.pc.AttemptPoll? || s.pc.Napping? {
      q := ParseLooking(b, s, a, t, p);
    } else if !InAttempt(s.pc) {
      q := ParseBetween(b, s, a, t, p);
    } else if s.pc.Dropping? {
      q := ParseDropping(b, s, a, t, p);
    } else if s.pc.Succeeding? {
      q := ParseSucceeding(b, s, a, t, p);
    } else if Online(s.pc) {
      q := ParseTransfer(b, s, a, t, p);
    } else {
      q := ParseDial(b, s, a, t, p);
    }
  }

  lemma ParseCancel(b: Batch, s: State, a: Action, t: State, p: Parse)
    requires ParseInv(b, s, p) && a.Cancel? && t == s.(canceled := true)
    ensures Follows(b, s, a, t, p, p)
  {
    hide RenderBlocks, RenderBlock, GoodBlock, GoodBlocks, Passes, Successes, RenderTransfer, RenderUploading;
  }

  // ---------------------------------------------------------------- whole runs

  /** Every run so far reads as its parse. */
  lemma {:induction false} ParseRun(b: Batch, log: seq<Action>, s: State) returns (p: Parse)
    requires Reaches(b, log, s)
    ensures Inv(b, s) && ParseInv(b, s, p) && |p.blocks| <= |b.files|
    ensures Visible(log) == Text(b, s, p)
  {
    hide Inv, Step, Init, ParseInv, Text;
    if log == [] {
      InvInit(b);
      p := Parse([], [], false, [], AllTried);
      ParseInit(b, p);
    } else {
      var m := |log| - 1;
      var t := Run(b, Init(b), log[..m]).value;
      var before := ParseRun(b, log[..m], t);
      InvStep(b, t, log[m], s);
      p := ParseStep(b, t, log[m], s, before);
    }
  }

  lemma ParseInit(b: Batch, p: Parse)
    requires p == Parse([], [], false, [], AllTried)
    ensures ParseInv(b, Init(b), p) && Text(b, Init(b), p) == []
  {
  }

  /** Every complete run of a worker - for every uploader behaviour and every cancellation -
      reads as one well-formed tree: its calls and events are exactly those of the tree. */
  lemma CompleteRunReadsAsTree(b: Batch, log: seq<Action>, s: State)
    requires Reaches(b, log, s) && s.pc.Halted?
    ensures IsReading(b, s.canceled, Visible(log))
  {
    hide Inv, Run, GoodBlocks, RenderBlocks, RenderEnding, RenderDone;
    var p := ParseRun(b, log, s);
    var tree := Tree(p.blocks, p.ending);
    assert GoodTree(b, s.canceled, tree);
    assert Visible(log) == Render(b, tree);
  }
}
