/** What an endpoint's remote store may look like after each action of the job that uses it.
    A store maps remote names to sizes; nobody else writes to it. */
module Stores {
  import opened Types
  import opened Worker

  type Store = map<string, nat>

  /** internal/transport/conn.go:15-30.  A local error hides a remote one; sizes that differ are no
      permission error, so the file is tried again. */
  function VerifyBySize(local: Result<nat, Error>, remote: Result<nat, Error>): (r: Result<string, Error>)
    ensures local.Err? ==> r.Err? && r.error == local.error
    ensures local.Ok? && remote.Err? ==> r.Err? && r.error == remote.error
    ensures local.Ok? && remote.Ok? && local.value != remote.value ==> r.Err? && !r.error.permission
  {
    match (local, remote)
    case (Err(e), _) => Err(e)
    case (_, Err(e)) => Err(e)
    case (Ok(l), Ok(r)) => if l == r then Ok("size") else Err(Error("size mismatch", false))
  }

  /** The two stores differ at most at `name`. */
  ghost predicate SameExcept(x: Store, y: Store, name: string) {
    forall other :: other != name ==> (other in x <==> other in y) && (other in x ==> x[other] == y[other])
  }

  /** One answer to a SIZE or Stat query. */
  predicate Reads(store: Store, name: string, remote: Result<nat, Error>) {
    remote.Ok? ==> name in store && store[name] == remote.value
  }

  ghost predicate Verified(
    sizes: map<string, nat>, store: Store, local: string, name: string, outcome: Result<string, Error>)
  {
    var localSize := if local in sizes then Ok(sizes[local]) else Err(Error("stat local file", false));
    exists remote :: Reads(store, name, remote) && outcome == VerifyBySize(localSize, remote)
  }

  /** Deletes, whatever they answer, leave the file or remove it: a 550 reply, which FTP Delete
      takes for success, also means "no access".  Uploads, whatever they answer, leave any size
      or nothing under the name they were given.  Verify looks and does not touch. */
  ghost predicate StoreStep(sizes: map<string, nat>, x: Store, a: Action, y: Store) {
    match a
    case Delete(name, _) => y == x || y == x - {name}
    case UploadBegin(_, name) => SameExcept(x, y, name)
    case Verify(local, name, outcome) =>
      y == x && Verified(sizes, x, local, name, outcome)
    case _ => y == x
  }

  /** `stores[k]` is the store before the k-th action. */
  ghost predicate Follows(sizes: map<string, nat>, log: seq<Action>, stores: seq<Store>) {
    |stores| == |log| + 1
    && forall k :: 0 <= k < |log| ==> StoreStep(sizes, stores[k], log[k], stores[k + 1])
  }

  lemma FollowsPrefix(sizes: map<string, nat>, log: seq<Action>, stores: seq<Store>)
    requires log != [] && Follows(sizes, log, stores)
    ensures Follows(sizes, log[..|log| - 1], stores[..|log|])
    ensures StoreStep(sizes, stores[|log| - 1], log[|log| - 1], stores[|log|])
  {
  }

  /** Verification can pass exactly if the local file is there and its size is that of the remote one;
      then it passes as "size" and leaves the store alone.  A size that cannot be read makes it fail. */
  lemma VerifyMeansSameSize(sizes: map<string, nat>, x: Store, local: string, name: string, verifyMethod: string,
                            y: Store)
    ensures StoreStep(sizes, x, Verify(local, name, Ok(verifyMethod)), y) <==>
            verifyMethod == "size" && y == x && local in sizes && name in x && x[name] == sizes[local]
  {
    if local in sizes && name in x && x[name] == sizes[local] {
      assert Reads(x, name, Ok(x[name]));
      assert VerifyBySize(Ok(sizes[local]), Ok(x[name])) == Ok("size");
    }
  }
}
