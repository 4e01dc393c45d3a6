/** Where a permanent error comes from: isPermanentErr (dispatch.go:197-207) against what the clients
    can return (transports.go:54-71, internal/transport/conn.go:15-30). */
module Permissions {
  import opened Types
  import opened Worker
  import opened WorkerSafety
  import opened WorkerCancel
  import opened WorkerGiveUp
  import WorkerBreaker
  import WorkerGrammar
  import Paths

  /** Why a delete, upload or verify call failed: the local file could not be opened or stated, the
      server said so, or the exchange with it broke down. */
  datatype Origin = LocalFile(denied: bool) | FtpReply(code: int) | SftpStatus(code: int) | Exchange

  /** SSH_FX_PERMISSION_DENIED */
  const PERMISSION_DENIED := 3

  /** errors.Is(err, os.ErrPermission): true of an operating system's refusal and of the SFTP status
      that the client maps to it, and of no FTP reply. */
  predicate IsErrPermission(origin: Origin) {
    match origin
    case LocalFile(denied) => denied
    case FtpReply(_) => false
    case SftpStatus(code) => code == PERMISSION_DENIED
    case Exchange => false
  }

  /** A delete opens no local file, and each protocol has its own kind of answer. */
  predicate CanArise(protocol: Protocol, a: Action, origin: Origin) {
    && (origin.LocalFile? ==> !a.Delete?)
    && (origin.FtpReply? ==> !protocol.Sftp?)
    && (origin.SftpStatus? ==> protocol.Sftp?)
  }

  /** Every failed call of the log has an origin, which decides whether its error is a permission error. */
  predicate Explained(protocol: Protocol, log: seq<Action>, origins: seq<Origin>) {
    && |origins| == |log|
    && forall k :: 0 <= k < |log| && WorkerBreaker.FailsTransfer(log[k]) ==>
         CanArise(protocol, log[k], origins[k]) && (FailsPermanently(log[k]) <==> IsErrPermission(origins[k]))
  }

  /** The k-th action failed because reading the local file is not allowed. */
  predicate LocallyDenied(log: seq<Action>, origins: seq<Origin>, k: nat)
    requires k < |log| == |origins|
  {
    WorkerBreaker.FailsTransfer(log[k]) && origins[k] == LocalFile(true)
  }

  /** The k-th action failed because the SFTP server denied permission. */
  predicate RemotelyDenied(log: seq<Action>, origins: seq<Origin>, k: nat)
    requires k < |log| == |origins|
  {
    WorkerBreaker.FailsTransfer(log[k]) && origins[k] == SftpStatus(PERMISSION_DENIED)
  }

  ghost predicate SomeLocallyDenied(log: seq<Action>, origins: seq<Origin>)
    requires |origins| == |log|
  {
    exists k :: 0 <= k < |log| && LocallyDenied(log, origins, k)
  }

  ghost predicate SomeRemotelyDenied(log: seq<Action>, origins: seq<Origin>)
    requires |origins| == |log|
  {
    exists k :: 0 <= k < |log| && RemotelyDenied(log, origins, k)
  }

  lemma DeniedExactly(protocol: Protocol, log: seq<Action>, origins: seq<Origin>)
    requires Explained(protocol, log, origins)
    ensures SomeFails(log) <==>
            SomeLocallyDenied(log, origins) || (protocol.Sftp? && SomeRemotelyDenied(log, origins))
  {
    forall k | 0 <= k < |log|
      ensures FailsPermanently(log[k]) <==>
              LocallyDenied(log, origins, k) || (protocol.Sftp? && RemotelyDenied(log, origins, k))
    {
    }
    if k :| 0 <= k < |log| && FailsPermanently(log[k]) {
      assert LocallyDenied(log, origins, k) || RemotelyDenied(log, origins, k);
    }
  }

  /** A worker that has returned abandoned its batch exactly if a file could not be read locally for lack
      of permission, or, through SFTP, the server denied permission.  So an FTP endpoint gives up too,
      on unreadable local files and on nothing else. */
  lemma AbandonsExactlyWhenDenied(b: Batch, log: seq<Action>, s: State, origins: seq<Origin>)
    requires Reaches(b, log, s) && s.pc.Halted? && Explained(b.ep.protocol, log, origins)
    ensures s.permanent.Some? <==>
            SomeLocallyDenied(log, origins) || (b.ep.protocol.Sftp? && SomeRemotelyDenied(log, origins))
  {
    hide Run, Init, Explained, SomeLocallyDenied, SomeRemotelyDenied, SomeFails, SomeGivesUp;
    AbandonsExactly(b, log, s);
    DeniedExactly(b.ep.protocol, log, origins);
  }

  // ---------------------------------------------------------------- it happens

  /** A complete run that gives up, the server having denied nothing. */
  ghost predicate GivesUpLocally(b: Batch, log: seq<Action>, s: State, origins: seq<Origin>) {
    && Reaches(b, log, s) && s.pc.Halted? && Explained(b.ep.protocol, log, origins)
    && SomeGivesUp(log) && !SomeRemotelyDenied(log, origins)
  }

  ghost predicate CanGiveUpLocally(b: Batch) {
    exists log, s, origins :: GivesUpLocally(b, log, s, origins)
  }

  lemma {:induction false} FailuresAreVisible(log: seq<Action>, k: nat)
    requires k < |log| && WorkerBreaker.FailsTransfer(log[k])
    ensures log[k] in WorkerGrammar.Visible(log)
  {
    if k < |log| - 1 {
      FailuresAreVisible(log[..|log| - 1], k);
    }
  }

  lemma OnlyTheUploadFails(b: Batch, a: Action)
    requires b.files != []
    requires a in [Connect(None)] + WorkerGrammar.RenderTransfer(b, b.files[0], 1, false, REFUSAL)
    ensures WorkerBreaker.FailsTransfer(a) ==> !a.Delete? && FailsPermanently(a)
  {
    hide Paths.Base;
  }

  /** Through every protocol, FTP included, one unreadable local file can make an endpoint give up on the
      rest of its batch: it takes two files and leave to make an attempt. */
  lemma CanGiveUpLocallyExactly(b: Batch)
    ensures CanGiveUpLocally(b) <==> 1 < |b.files| && 0 < Tries(b) && 0 < Limit(b)
  {
    hide Run, Init, Explained, SomeRemotelyDenied, SomeGivesUp, SomeFails;
    if CanGiveUpLocally(b) {
      var log, s, origins :| GivesUpLocally(b, log, s, origins);
      AbandonsExactly(b, log, s);
      Abandonment(b, log, s);
    }
    if 1 < |b.files| && 0 < Tries(b) && 0 < Limit(b) {
      var pre := ReachesRefused(b);
      var post, t := RefusedGivesUp(b, Refused(b));
      RunSplit(b, Init(b), pre, post);
      var log := pre + post;
      var origins := seq(|log|, k => LocalFile(true));
      ExplainsRefusal(b, pre, post, origins);
      assert GivesUpLocally(b, log, t, origins);
    }
  }

  lemma ExplainsRefusal(b: Batch, pre: seq<Action>, post: seq<Action>, origins: seq<Origin>)
    requires b.files != [] && SomeGivesUp(post)
    requires WorkerGrammar.Visible(pre) ==
             [Connect(None)] + WorkerGrammar.RenderTransfer(b, b.files[0], 1, false, REFUSAL)
    requires forall k :: 0 <= k < |post| ==> post[k].Send? || post[k].Disconnect?
    requires |origins| == |pre + post| && forall k :: 0 <= k < |origins| ==> origins[k] == LocalFile(true)
    ensures Explained(b.ep.protocol, pre + post, origins)
    ensures SomeGivesUp(pre + post) && !SomeRemotelyDenied(pre + post, origins)
  {
    var log := pre + post;
    assert forall k :: |pre| <= k < |log| ==> log[k] == post[k - |pre|];
    forall k | 0 <= k < |log| && WorkerBreaker.FailsTransfer(log[k])
      ensures !log[k].Delete? && FailsPermanently(log[k])
    {
      if k < |pre| {
        FailuresAreVisible(pre, k);
        OnlyTheUploadFails(b, log[k]);
      }
    }
    var j :| 0 <= j < |post| && GivesUp(post[j]);
    assert log[|pre| + j] == post[j];
  }
}
