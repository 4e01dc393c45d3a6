/** A reference for whole runs, independent of the step machine: a tree of what happened to
    each file, attempt by attempt, and how such a tree reads as calls, events and retry sleeps. */
module WorkerGrammar {
  import opened Types
  import opened Paths
  import opened Worker
  import opened WorkerSafety

  datatype Callback = Callback(sent: int, total: int)

  /** One delete/upload/verify sequence, with the progress callbacks of its upload. */
  datatype Transfer =
    | DeleteFailed(error: Error)
    | UploadFailed(ticks: seq<Callback>, error: Error)
    | VerifyFailed(ticks: seq<Callback>, error: Error)
    | Delivered(ticks: seq<Callback>, verifyMethod: string)

  /** One attempt at a file.  `dialed` says whether it had to connect first. */
  datatype Attempt =
    | DialRefused(error: Error)
    | BreakerTripped(error: Error)
    | DialAborted(error: Error)
    | Transferred(dialed: bool, transfer: Transfer)

  /** How the batch ended after the attempted files. */
  datatype Ending = AllTried | WasCanceled | WasUnreachable | WasGivenUp(cause: Cause)

  datatype Tree = Tree(blocks: seq<seq<Attempt>>, ending: Ending)

  // ---------------------------------------------------------------- well-formed trees

  function CauseOf(t: Transfer): Cause
    requires !t.Delivered?
  {
    match t
    case DeleteFailed(e) => DeleteCause(e)
    case UploadFailed(_, e) => UploadCause(e)
    case VerifyFailed(_, e) => VerifyCause(e)
  }

  predicate IsDelivery(a: Attempt) {
    a.Transferred? && a.transfer.Delivered?
  }

  predicate IsPermanent(a: Attempt) {
    a.Transferred? && !a.transfer.Delivered? && Permanent(CauseOf(a.transfer))
  }

  /** The attempt may be followed by another one at the same file. */
  predicate Retriable(a: Attempt) {
    a.DialRefused? || (a.Transferred? && !IsDelivery(a) && !IsPermanent(a))
  }

  predicate GoodTransfer(b: Batch, t: Transfer) {
    && (t.DeleteFailed? ==> b.ep.overwrite == DeleteFirst)
    && (t.VerifyFailed? ==> !b.noVerify)
    && (t.Delivered? && b.noVerify ==> t.verifyMethod == "")
  }

  /** How many connects in a row have been refused, `n` before this attempt.  An aborted connect
      does not count. */
  function StreakAfter(n: nat, a: Attempt): nat {
    if a.Transferred? then 0 else if a.DialAborted? then n else n + 1
  }

  function BlockStreak(n: nat, attempts: seq<Attempt>): nat {
    if attempts == [] then n
    else StreakAfter(BlockStreak(n, attempts[..|attempts| - 1]), attempts[|attempts| - 1])
  }

  function Streak(blocks: seq<seq<Attempt>>): nat {
    if blocks == [] then 0 else BlockStreak(Streak(blocks[..|blocks| - 1]), blocks[|blocks| - 1])
  }

  /** `up`: a connection is open when the attempt starts.  It is then reused.  The breaker trips
      exactly at the refusal that makes the streak reach the limit. */
  predicate GoodAttempt(b: Batch, up: bool, n: nat, a: Attempt) {
    if a.Transferred? then a.dialed == !up && GoodTransfer(b, a.transfer)
    else !up && (a.DialRefused? ==> n + 1 < Limit(b)) && (a.BreakerTripped? ==> n + 1 == Limit(b))
  }

  /** Attempts at one file: every one but the last is retriable, and only the first can
      find a connection open. */
  predicate GoodBlock(b: Batch, up: bool, n: nat, attempts: seq<Attempt>) {
    attempts == [] || (
      var before := attempts[..|attempts| - 1];
      GoodBlock(b, up, n, before) && AllRetriable(before)
      && GoodAttempt(b, up && before == [], BlockStreak(n, before), attempts[|attempts| - 1]))
  }

  predicate AllRetriable(attempts: seq<Attempt>) {
    forall k :: 0 <= k < |attempts| ==> Retriable(attempts[k])
  }

  /** The worker goes on to the next file of its own accord: the file was delivered, or its
      attempts were used up. */
  predicate Passes(b: Batch, attempts: seq<Attempt>) {
    (attempts != [] && IsDelivery(attempts[|attempts| - 1]))
    || (|attempts| == Tries(b) && AllRetriable(attempts))
  }

  predicate LastPasses(b: Batch, blocks: seq<seq<Attempt>>) {
    blocks == [] || Passes(b, blocks[|blocks| - 1])
  }

  /** The files of a batch in order: all but the last one attempted were passed. */
  predicate GoodBlocks(b: Batch, blocks: seq<seq<Attempt>>) {
    blocks == [] || (
      var before, last := blocks[..|blocks| - 1], blocks[|blocks| - 1];
      GoodBlocks(b, before) && LastPasses(b, before)
      && 0 < Limit(b) && |last| <= Tries(b) && GoodBlock(b, Up(before), Streak(before), last))
  }

  function LastAttempt(blocks: seq<seq<Attempt>>): Option<Attempt> {
    if blocks == [] then None
    else
      var last := blocks[|blocks| - 1];
      if last == [] then LastAttempt(blocks[..|blocks| - 1]) else Some(last[|last| - 1])
  }

  /** A connection is open after these files exactly when the last attempt delivered. */
  predicate Up(blocks: seq<seq<Attempt>>) {
    LastAttempt(blocks).Some? && IsDelivery(LastAttempt(blocks).value)
  }

  predicate DidTrip(b: Batch, blocks: seq<seq<Attempt>>) {
    if blocks == [] then Limit(b) == 0
    else
      var last := blocks[|blocks| - 1];
      last != [] && last[|last| - 1].BreakerTripped?
  }

  predicate EndsPermanent(blocks: seq<seq<Attempt>>) {
    blocks != [] && blocks[|blocks| - 1] != []
    && IsPermanent(blocks[|blocks| - 1][|blocks[|blocks| - 1]| - 1])
  }

  function PermanentCause(blocks: seq<seq<Attempt>>): Cause
    requires EndsPermanent(blocks)
  {
    CauseOf(blocks[|blocks| - 1][|blocks[|blocks| - 1]| - 1].transfer)
  }

  function Successes(blocks: seq<seq<Attempt>>): nat {
    if blocks == [] then 0
    else
      var last := blocks[|blocks| - 1];
      Successes(blocks[..|blocks| - 1]) + if last != [] && IsDelivery(last[|last| - 1]) then 1 else 0
  }

  /** Why the worker stopped where it did. */
  predicate GoodEnding(b: Batch, canceled: bool, blocks: seq<seq<Attempt>>, ending: Ending) {
    && |blocks| <= |b.files|
    && (ending.AllTried? <==> |blocks| == |b.files|)
    && (ending.WasCanceled? ==> canceled && !EndsPermanent(blocks))
    && (ending.WasUnreachable? ==> DidTrip(b, blocks))
    && (ending.WasGivenUp? ==> EndsPermanent(blocks) && ending.cause == PermanentCause(blocks))
    && (LastPasses(b, blocks) || canceled || DidTrip(b, blocks) || EndsPermanent(blocks))
  }

  predicate GoodTree(b: Batch, canceled: bool, tree: Tree) {
    GoodBlocks(b, tree.blocks) && GoodEnding(b, canceled, tree.blocks, tree.ending)
  }

  // ---------------------------------------------------------------- how a tree reads

  function RenderTicks(b: Batch, file: string, ticks: seq<Callback>): seq<Action> {
    if ticks == [] then []
    else
      var last := ticks[|ticks| - 1];
      RenderTicks(b, file, ticks[..|ticks| - 1]) + [Send(Progress(b.ep.name, file, last.sent, last.total))]
  }

  /** Up to and including the call that starts the upload. */
  function RenderOpening(b: Batch, file: string, k: int, dialed: bool): seq<Action> {
    (if dialed then [Connect(None)] else []) + [Send(FileStart(b.ep.name, file, k))]
  }

  function RenderCleared(b: Batch, file: string, k: int, dialed: bool): seq<Action> {
    RenderOpening(b, file, k, dialed)
    + if b.ep.overwrite == DeleteFirst then [Delete(Base(file), None)] else []
  }

  function RenderUploading(b: Batch, file: string, k: int, dialed: bool, ticks: seq<Callback>): seq<Action> {
    RenderCleared(b, file, k, dialed) + [UploadBegin(file, Base(file))] + RenderTicks(b, file, ticks)
  }

  function RenderTransfer(b: Batch, file: string, k: int, dialed: bool, t: Transfer): seq<Action> {
    match t
    case DeleteFailed(e) => RenderOpening(b, file, k, dialed) + [Delete(Base(file), Some(e))]
    case UploadFailed(ticks, e) => RenderUploading(b, file, k, dialed, ticks) + [UploadEnd(Some(e))]
    case VerifyFailed(ticks, e) =>
      RenderUploading(b, file, k, dialed, ticks) + [UploadEnd(None)] + [Verify(file, Base(file), Err(e))]
    case Delivered(ticks, m) =>
      RenderUploading(b, file, k, dialed, ticks) + [UploadEnd(None)]
      + if b.noVerify then [] else [Verify(file, Base(file), Ok(m))]
  }

  function RenderAttempt(b: Batch, file: string, k: int, a: Attempt): seq<Action> {
    match a
    case DialRefused(e) => [Connect(Some(e))] + [Send(FileError(b.ep.name, file, k, ConnectCause(e)))]
    case BreakerTripped(e) =>
      [Connect(Some(e))] + [Send(FileError(b.ep.name, file, k, ConnectCause(e)))]
      + [Send(FileError(b.ep.name, file, k, BreakerCause(Limit(b))))]
    case DialAborted(e) => [Connect(Some(e))]
    case Transferred(dialed, t) =>
      RenderTransfer(b, file, k, dialed, t)
      + if t.Delivered? then [Send(FileSuccess(b.ep.name, file, t.verifyMethod))]
        else [Send(FileError(b.ep.name, file, k, CauseOf(t)))] + [Disconnect]
  }

  /** The k-th attempt is followed by one retry sleep if it may be followed by another attempt. */
  function Pause(b: Batch, k: int, a: Attempt): seq<Action> {
    if Retriable(a) && k < b.ep.policy.attempts then [Sleep] else []
  }

  /** Attempts are numbered 1, 2, 3, ... */
  function RenderBlock(b: Batch, file: string, attempts: seq<Attempt>): seq<Action> {
    if attempts == [] then []
    else
      RenderBlock(b, file, attempts[..|attempts| - 1])
      + RenderAttempt(b, file, |attempts|, attempts[|attempts| - 1])
      + Pause(b, |attempts|, attempts[|attempts| - 1])
  }

  function RenderBlocks(b: Batch, blocks: seq<seq<Attempt>>): seq<Action>
    requires |blocks| <= |b.files|
  {
    if blocks == [] then []
    else
      var m := |blocks| - 1;
      RenderBlocks(b, blocks[..m]) + RenderBlock(b, b.files[m], blocks[m])
  }

  /** At most one event names the files never attempted: an exact suffix of the batch. */
  function RenderEnding(b: Batch, blocks: seq<seq<Attempt>>, ending: Ending): seq<Action>
    requires |blocks| <= |b.files|
  {
    match ending
    case WasUnreachable => [Send(Unreachable(b.ep.name, Limit(b), b.files[|blocks|..]))]
    case WasGivenUp(cause) => [Send(GivenUp(b.ep.name, cause, b.files[|blocks|..]))]
    case _ => []
  }

  /** Done counts the delivered files, and everything else as failed. */
  function RenderDone(b: Batch, blocks: seq<seq<Attempt>>): seq<Action> {
    [Send(Done(b.ep.name, Successes(blocks), |b.files| - Successes(blocks)))]
  }

  function Render(b: Batch, tree: Tree): seq<Action>
    requires |tree.blocks| <= |b.files|
  {
    RenderBlocks(b, tree.blocks) + RenderEnding(b, tree.blocks, tree.ending)
    + RenderDone(b, tree.blocks) + if Up(tree.blocks) then [Disconnect] else []
  }

  /** A log without cancellations and looks at the context: calls, events and sleeps only. */
  function Visible(log: seq<Action>): seq<Action> {
    if log == [] then []
    else Visible(log[..|log| - 1]) + Seen(log[|log| - 1])
  }

  function Seen(a: Action): seq<Action> {
    if a.Cancel? || a.Poll? then [] else [a]
  }

  /** This is how some tree reads. */
  ghost predicate IsReading(b: Batch, canceled: bool, text: seq<Action>) {
    exists tree :: GoodTree(b, canceled, tree) && text == Render(b, tree)
  }
}
