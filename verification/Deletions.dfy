/** What Delete makes of the server's reply (internal/transport/ftp.go:176-217, sftp.go:171-180),
    and when the promise the engine asks of it (dispatch.go:20-23) is kept. */
module Deletions {
  import opened Types
  import opened Worker
  import opened Stores

  /** How the server answers a request to remove a file: it did; an FTP reply code; the SFTP status
      for a file that does not exist; any other failure. */
  datatype Reply =
    | Done
    | Code(code: int, error: Error)
    | NotExist(error: Error)
    | Failed(error: Error)

  const FILE_UNAVAILABLE := 550

  /** isNotExist: internal/transport/ftp.go:208-217 */
  predicate IsNotExist(reply: Reply) {
    reply.Code? && reply.code == FILE_UNAVAILABLE
  }

  /** FTPClient.Delete, which FTPS shares, and SFTPClient.Delete. */
  function DeleteAnswer(protocol: Protocol, reply: Reply): Option<Error> {
    if reply.Done? then None
    else if protocol.Sftp? then if reply.NotExist? then None else Some(reply.error)
    else if IsNotExist(reply) then None
    else Some(reply.error)
  }

  /** What the reply says about the store.  A 550 covers "file not found" and "no access", and
      leaves things as they are; the SFTP status means that there is no such file; after any other
      failure the file may be gone or not. */
  predicate Removes(x: Store, name: string, reply: Reply, y: Store) {
    match reply
    case Done => y == x - {name}
    case Code(code, _) => y == x || (code != FILE_UNAVAILABLE && y == x - {name})
    case NotExist(_) => y == x && name !in x
    case Failed(_) => y == x || y == x - {name}
  }

  /** `stores` follows the log, and every Delete in it passes on the server's reply. */
  ghost predicate Served(protocol: Protocol, sizes: map<string, nat>, log: seq<Action>, stores: seq<Store>,
                         replies: seq<Reply>) {
    && Follows(sizes, log, stores) && |replies| == |log|
    && forall k :: 0 <= k < |log| && log[k].Delete? ==> PassesOn(protocol, log[k], stores[k], replies[k], stores[k + 1])
  }

  predicate PassesOn(protocol: Protocol, a: Action, x: Store, reply: Reply, y: Store)
    requires a.Delete?
  {
    a.failure == DeleteAnswer(protocol, reply) && Removes(x, a.name, reply, y)
  }

  /** Delete's contract in the uploader interface: answering nil means that the remote file is gone. */
  ghost predicate DeletesHonestly(log: seq<Action>, stores: seq<Store>)
    requires |stores| == |log| + 1
  {
    forall k :: 0 <= k < |log| ==> Honest(log[k], stores[k + 1])
  }

  predicate Honest(a: Action, y: Store) {
    a.Delete? && a.failure.None? ==> a.name !in y
  }

  /** The k-th action deletes a file that is there, and the server answers 550. */
  predicate Denied(log: seq<Action>, stores: seq<Store>, replies: seq<Reply>, k: nat)
    requires k < |log| && |stores| == |log| + 1 && |replies| == |log|
  {
    log[k].Delete? && IsNotExist(replies[k]) && log[k].name in stores[k]
  }

  ghost predicate SomeDenied(log: seq<Action>, stores: seq<Store>, replies: seq<Reply>)
    requires |stores| == |log| + 1 && |replies| == |log|
  {
    exists k :: 0 <= k < |log| && Denied(log, stores, replies, k)
  }

  /** In any log of any client, Delete keeps its contract exactly if no FTP server answers 550 about
      a file that is there.  Through SFTP it always does. */
  lemma DeleteIsHonestExactly(protocol: Protocol, sizes: map<string, nat>, log: seq<Action>, stores: seq<Store>,
                              replies: seq<Reply>)
    requires Served(protocol, sizes, log, stores, replies)
    ensures DeletesHonestly(log, stores) <==> protocol.Sftp? || !SomeDenied(log, stores, replies)
  {
    forall k | 0 <= k < |log|
      ensures Honest(log[k], stores[k + 1]) <==> protocol.Sftp? || !Denied(log, stores, replies, k)
    {
      if log[k].Delete? {
        assert PassesOn(protocol, log[k], stores[k], replies[k], stores[k + 1]);
      }
    }
    if SomeDenied(log, stores, replies) && !protocol.Sftp? {
      var k :| 0 <= k < |log| && Denied(log, stores, replies, k);
      assert !Honest(log[k], stores[k + 1]);
    }
  }
}
